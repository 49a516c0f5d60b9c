/** `com.amazon.example.ProcessingLambda`: the API Gateway handler that
    dispatches GET, POST and DELETE onto the user service. JSON mapping is
    an abstract `ObjectMapper`; the generated user id is an input. */
module Lambda {
  import opened JavaLang
  import opened Dynamo
  import opened Pojo
  import opened AbstractService
  import opened Service

  /** The request fields the handler reads; each may be null. */
  datatype APIGatewayProxyRequestEvent = APIGatewayProxyRequestEvent(
    httpMethod: Option<string>,
    pathParameters: Option<map<string, string>>,
    queryStringParameters: Option<map<string, string>>,
    body: Option<string>)

  datatype APIGatewayProxyResponseEvent = APIGatewayProxyResponseEvent(body: string, statusCode: int)

  /** Jackson's `ObjectMapper`, reduced to the three calls the handler makes.
      Each may throw; the handler catches only `JsonProcessingException`. */
  datatype ObjectMapper = ObjectMapper(
    writeUser: UserRecord -> Result<string, Exception>,
    writeUsers: seq<UserRecord> -> Result<string, Exception>,
    readUser: Option<string> -> Result<UserRecord, Exception>)

  /** What the handler returns (or throws) and the table afterwards. */
  datatype Outcome = Outcome(response: Result<APIGatewayProxyResponseEvent, Exception>, table: Table)

  /** `Map.get`: null for a missing key. */
  function MapGet(m: map<string, string>, key: string): Option<string> {
    if key in m then Some(m[key]) else None
  }

  /** The id a GET uses: from the path parameters whenever they are present,
      otherwise from the query parameters. */
  function SelectedId(path: Option<map<string, string>>, query: Option<map<string, string>>): (r: Option<string>)
    ensures r.Some? <==> if path.Some? then "userId" in path.value else query.Some? && "userId" in query.value
    ensures r.Some? ==> r.value == (if path.Some? then path.value else query.value)["userId"]
  {
    if path.Some? then MapGet(path.value, "userId")
    else if query.Some? then MapGet(query.value, "userId")
    else None
  }

  /** A response with the given body and status 200, the table as given. */
  function Reply(body: string, t: Table): Outcome {
    Outcome(Ok(APIGatewayProxyResponseEvent(body, 200)), t)
  }

  /** A `writeValueAsString` inside `try { result = ... } catch (JsonProcessingException)`:
      a caught failure leaves the body `""`, any other exception propagates. */
  function ReplyWritten(written: Result<string, Exception>, t: Table): Outcome {
    match written
    case Ok(json) => Reply(json, t)
    case Err(e) => if e == JsonProcessingException then Reply("", t) else Outcome(Err(e), t)
  }

  /** `handleRequest`, as a function of the table before the call. */
  function Dispatch(mapper: ObjectMapper, t: Table, request: APIGatewayProxyRequestEvent,
                    freshId: string, order: seq<string>): (r: Outcome)
    requires IsScanOrder(order, t)
    ensures request.httpMethod.None? ==> r == Outcome(Err(NullPointerException), t)
    ensures r.response.Ok? ==> r.response.value.statusCode == 200
    ensures r.response.Err? ==> r.response.error != JsonProcessingException && r.table == t
  {
    match request.httpMethod
    case None => Outcome(Err(NullPointerException), t)
    case Some(httpMethod) =>
      if httpMethod == "GET" then
        var userId := SelectedId(request.pathParameters, request.queryStringParameters);
        if userId.None? || |userId.value| == 0 then
          match FindAllOf(t, order)
          case Err(e) => Outcome(Err(e), t)
          case Ok(users) => ReplyWritten(mapper.writeUsers(users), t)
        else
          match Lookup(t, userId)
          case Err(e) => Outcome(Err(e), t)
          case Ok(user) =>
            if user.userId.None? then Reply("", t)
            else ReplyWritten(mapper.writeUser(user), t)
      else if httpMethod == "POST" then
        match mapper.readUser(request.body)
        case Err(e) =>
          if e == JsonProcessingException then Reply("", t) else Outcome(Err(e), t)
        case Ok(user) =>
          match Put(t, user.(userId := Some(freshId)))
          case Err(e) => Outcome(Err(e), t)
          case Ok(t') => Reply(freshId, t')
      else if httpMethod == "DELETE" then
        match request.pathParameters
        case None => Reply("", t)
        case Some(path) =>
          var id := MapGet(path, "userId");
          match Remove(t, id)
          case Err(e) => Outcome(Err(e), t)
          case Ok(t') => Reply(id.value, t')
      else Reply("", t)
  }

  class ProcessingLambda {
    const mapper: ObjectMapper
    const userService: UserService

    constructor (mapper: ObjectMapper, userService: UserService)
      ensures this.mapper == mapper && this.userService == userService
    {
      this.mapper := mapper;
      this.userService := userService;
    }

    /** `handleRequest(request, context)`, with `freshId` standing for
        `UUID.randomUUID().toString()` and `order` for the order DynamoDB
        returns a scan in. */
    method HandleRequest(request: APIGatewayProxyRequestEvent, freshId: string, order: seq<string>)
      returns (r: Result<APIGatewayProxyResponseEvent, Exception>)
      requires IsScanOrder(order, userService.table)
      modifies userService
      ensures Dispatch(mapper, old(userService.table), request, freshId, order) == Outcome(r, userService.table)
    {
      var result := "";
      if request.httpMethod.None? {
        // switch on a null string
        return Err(NullPointerException);
      }
      var httpMethod := request.httpMethod.value;
      var pathParameters := request.pathParameters;
      if httpMethod == "GET" {
        var queryStringParameters := request.queryStringParameters;
        var userId: Option<string> := None;
        if pathParameters.Some? {
          userId := MapGet(pathParameters.value, "userId");
        } else if queryStringParameters.Some? {
          userId := MapGet(queryStringParameters.value, "userId");
        }
        if userId.None? || |userId.value| == 0 {
          var userList := userService.FindAll(order);
          if userList.Err? {
            return Err(userList.error);
          }
          var written := mapper.writeUsers(Records(userList.value));
          if written.Ok? {
            result := written.value;
          } else if written.error != JsonProcessingException {
            return Err(written.error);
          }
        } else {
          var user := userService.Get(userId);
          if user.Err? {
            return Err(user.error);
          }
          if user.value.userId.None? {
            result := "";
          } else {
            var written := mapper.writeUser(user.value.Value());
            if written.Ok? {
              result := written.value;
            } else if written.error != JsonProcessingException {
              return Err(written.error);
            }
          }
        }
      } else if httpMethod == "POST" {
        var body := request.body;
        var parsed := mapper.readUser(body);
        if parsed.Ok? {
          var p := parsed.value;
          var tmpUser := new User(p.userId, p.userName, p.firstName, p.lastName, p.age);
          tmpUser.SetUserId(Some(freshId));
          // the id is non-null, so the put cannot be rejected
          var tmpId := userService.Add(tmpUser);
          result := tmpId.value;
        } else if parsed.error != JsonProcessingException {
          return Err(parsed.error);
        }
      } else if httpMethod == "DELETE" {
        if pathParameters.Some? {
          var id := MapGet(pathParameters.value, "userId");
          var tmpId := userService.Delete(id);
          if tmpId.Err? {
            return Err(tmpId.error);
          }
          result := tmpId.value;
        }
      }
      r := Ok(APIGatewayProxyResponseEvent(result, 200));
    }
  }

  /** Whenever the handler returns a response, for every method and outcome,
      its status code is 200. */
  lemma StatusAlways200(mapper: ObjectMapper, t: Table, request: APIGatewayProxyRequestEvent,
                        freshId: string, order: seq<string>)
    requires IsScanOrder(order, t)
    ensures Dispatch(mapper, t, request, freshId, order).response.Ok? ==>
              Dispatch(mapper, t, request, freshId, order).response.value.statusCode == 200
  {
  }

  /** Only POST and DELETE change the table. */
  lemma OnlyPostAndDeleteWrite(mapper: ObjectMapper, t: Table, request: APIGatewayProxyRequestEvent,
                               freshId: string, order: seq<string>)
    requires IsScanOrder(order, t)
    requires request.httpMethod != Some("POST") && request.httpMethod != Some("DELETE")
    ensures Dispatch(mapper, t, request, freshId, order).table == t
  {
  }

  /** Present path parameters decide the GET alone, even when they have no
      `userId`: the query parameters are then ignored. */
  lemma PathShadowsQuery(mapper: ObjectMapper, t: Table, request: APIGatewayProxyRequestEvent,
                         query: Option<map<string, string>>, freshId: string, order: seq<string>)
    requires IsScanOrder(order, t)
    requires request.httpMethod == Some("GET") && request.pathParameters.Some?
    ensures Dispatch(mapper, t, request, freshId, order)
         == Dispatch(mapper, t, request.(queryStringParameters := query), freshId, order)
  {
  }

  /** A GET without a usable id (null or empty) answers with the encoded list
      of all users in scan order; on a well-formed table this cannot fail
      except through the encoder. */
  lemma GetWithoutIdListsAll(mapper: ObjectMapper, t: Table, request: APIGatewayProxyRequestEvent,
                             freshId: string, order: seq<string>)
    requires IsScanOrder(order, t) && WellFormed(t)
    requires request.httpMethod == Some("GET")
    requires var id := SelectedId(request.pathParameters, request.queryStringParameters);
             id.None? || id.value == ""
    ensures FindAllOf(t, order).Ok? && |FindAllOf(t, order).value| == |order|
    ensures Dispatch(mapper, t, request, freshId, order)
         == ReplyWritten(mapper.writeUsers(FindAllOf(t, order).value), t)
  {
    FindAllWellFormed(t, order);
  }

  /** A GET with a non-empty id answers with an empty body when no user is
      stored under it, and otherwise with the encoding of the stored user;
      the table is unchanged. */
  lemma GetById(mapper: ObjectMapper, t: Table, request: APIGatewayProxyRequestEvent,
                freshId: string, order: seq<string>, k: string)
    requires IsScanOrder(order, t) && WellFormed(t)
    requires request.httpMethod == Some("GET")
    requires SelectedId(request.pathParameters, request.queryStringParameters) == Some(k) && k != ""
    ensures k !in t ==> Dispatch(mapper, t, request, freshId, order) == Reply("", t)
    ensures k in t ==>
              && Lookup(t, Some(k)).Ok?
              && Lookup(t, Some(k)).value.userId == Some(k)
              && Dispatch(mapper, t, request, freshId, order)
                 == ReplyWritten(mapper.writeUser(Lookup(t, Some(k)).value), t)
  {
    LookupWellFormed(t, k);
  }

  /** A POST whose body parses ignores any `userId` the client sent: it stores
      the user under the fresh id and answers with that id. */
  lemma PostStoresUnderFreshId(mapper: ObjectMapper, t: Table, request: APIGatewayProxyRequestEvent,
                               freshId: string, order: seq<string>, u: UserRecord)
    requires IsScanOrder(order, t)
    requires request.httpMethod == Some("POST") && mapper.readUser(request.body) == Ok(u)
    ensures var stored := u.(userId := Some(freshId));
            Dispatch(mapper, t, request, freshId, order) == Reply(freshId, t[freshId := ItemOf(stored)])
  {
  }

  /** A POST whose body fails to parse answers with an empty body and stores
      nothing. */
  lemma PostUnparsableBody(mapper: ObjectMapper, t: Table, request: APIGatewayProxyRequestEvent,
                           freshId: string, order: seq<string>)
    requires IsScanOrder(order, t)
    requires request.httpMethod == Some("POST") && mapper.readUser(request.body) == Err(JsonProcessingException)
    ensures Dispatch(mapper, t, request, freshId, order) == Reply("", t)
  {
  }

  /** A DELETE with path parameters deletes their `userId` and answers with
      it (a missing `userId` is rejected by the table); without path
      parameters it answers with an empty body and changes nothing. */
  lemma DeleteOutcomes(mapper: ObjectMapper, t: Table, request: APIGatewayProxyRequestEvent,
                       freshId: string, order: seq<string>)
    requires IsScanOrder(order, t)
    requires request.httpMethod == Some("DELETE")
    ensures request.pathParameters.None? ==> Dispatch(mapper, t, request, freshId, order) == Reply("", t)
    ensures request.pathParameters.Some? && "userId" in request.pathParameters.value ==>
              var id := request.pathParameters.value["userId"];
              Dispatch(mapper, t, request, freshId, order) == Reply(id, t - {id})
    ensures request.pathParameters.Some? && "userId" !in request.pathParameters.value ==>
              Dispatch(mapper, t, request, freshId, order) == Outcome(Err(DynamoDbException), t)
  {
  }

  /** Any method other than GET, POST and DELETE falls through the switch:
      an empty body and an unchanged table. */
  lemma OtherMethodsIgnored(mapper: ObjectMapper, t: Table, request: APIGatewayProxyRequestEvent,
                            freshId: string, order: seq<string>)
    requires IsScanOrder(order, t)
    requires request.httpMethod.Some? && request.httpMethod.value !in {"GET", "POST", "DELETE"}
    ensures Dispatch(mapper, t, request, freshId, order) == Reply("", t)
  {
  }

  /** A POST followed by a GET of the id it answered with returns the
      encoding of the posted user, carrying the fresh id. */
  lemma PostThenGet(mapper: ObjectMapper, t: Table, post: APIGatewayProxyRequestEvent,
                    get: APIGatewayProxyRequestEvent, freshId: string, order: seq<string>,
                    order': seq<string>, u: UserRecord)
    requires IsScanOrder(order, t) && freshId != ""
    requires post.httpMethod == Some("POST") && mapper.readUser(post.body) == Ok(u)
    requires get.httpMethod == Some("GET") && get.pathParameters == Some(map["userId" := freshId])
    requires IsScanOrder(order', Dispatch(mapper, t, post, freshId, order).table)
    ensures var t' := Dispatch(mapper, t, post, freshId, order).table;
            Dispatch(mapper, t', get, freshId, order')
            == ReplyWritten(mapper.writeUser(u.(userId := Some(freshId))), t')
  {
    LookupAfterPut(t, u.(userId := Some(freshId)));
  }
}
