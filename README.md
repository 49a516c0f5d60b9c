# User records over a DynamoDB table, and the Lambda that serves them

This project models, in Dafny, the Java user-record layer of the Quarkus
demo: the `User` record and its DynamoDB attribute-map codec
(`AbstractService.putRequest` / `User.from`), the Lambda's `UserService`
(add, get, delete and list users in the `Users` table), the Lambda handler
`ProcessingLambda.handleRequest`, which dispatches API Gateway requests on
their HTTP method, and the `OutputObject` holder. Everything else in the
repository is declarative cloud-stack definition (CDK stacks), which hands all
behaviour to the provisioning framework; the repository contains no
orchestrator, dependency graph, planner or diff engine, and none is modelled.

Files and modules:

- `java_lang.dfy`, module `JavaLang`: nullable references (`Option`), thrown
  exceptions (`Result` over `Exception`), the 32-bit `int`,
  `Integer.toString`, `Integer.parseInt`, `String.hashCode`, `Objects.hash`.
- `dynamo.dfy`, module `Dynamo`: `AttributeValue` (what `.s()` and `.n()`
  return), items, the five column constants, `attributesToGet` projection.
  The constants live here rather than with `AbstractService` because the
  Java `User` and `AbstractService` import each other and Dafny modules cannot.
- `user.dfy`, module `Pojo`: the `User` class (fields, both constructors,
  setters, `from`, `equals`, `hashCode`), `UserRecord` (its five field values)
  and `FromItem`, the value `User.from` computes.
- `abstract_service.dfy`, module `AbstractService`: the table name and the
  scan, put, get and delete requests.
- `user_service.dfy`, module `Service`: `UserService` as a class owning the
  table (`map<string, Item>`, keyed by `userId`), with specification functions
  `Put`, `Remove`, `Lookup`, `FindAllOf` for its four operations.
- `processing_lambda.dfy`, module `Lambda`: request and response events, an
  abstract `ObjectMapper`, `Dispatch` (the handler as a function of the table
  before the call) and `ProcessingLambda.HandleRequest`, proved equal to it.
- `output_object.dfy`, module `Output`: `OutputObject`.

Modelling choices:

- A Java `String` or `Map` that may be `null` is an `Option`; `int` is the
  subset type `int32`; a thrown exception is an `Err` of a `Result`.
- `AttributeValue.builder().s(null)` yields a value with neither kind set, so
  an attribute value is the pair of what `.s()` and `.n()` return.
- The DynamoDB client is represented by the table it serves. A request whose
  key has no `S` value (a null `userId`) is rejected with `DynamoDbException`;
  get and scan return items projected onto their `attributesToGet`.
- I/O and randomness are parameters: the JSON mapper is a datatype of three
  total functions that may fail, `UUID.randomUUID()` is a `freshId` input, and
  the order a scan returns the table in is an `order` input, required to list
  every key exactly once.
- `User` getters are the Dafny fields themselves, read through `Value()`.
- `User.equals` compares classes with `getClass()`; since a Dafny class has no
  subclasses this is the type test `o is User`.
- The Lambda `UserService` extends an `AbstractService` and uses a `User` of
  its own module; these are assumed identical to the `fargate` copies, which
  are the ones modelled.

## Model

| member | source | states |
|---|---|---|
| `JavaLang.ParseInt` | fargate/src/main/java/com/amazon/example/pojo/User.java:53 | `Integer.parseInt` fails only with `NumberFormatException` (null, empty, a lone sign, a non-digit, or a value outside `int`) |
| `JavaLang.NatToStringDigits` | fargate/src/main/java/com/amazon/example/service/AbstractService.java:47 | the decimal spelling of a number is a non-empty digit string whose value is that number |
| `JavaLang.ParseIntToString` | fargate/src/main/java/com/amazon/example/service/AbstractService.java:47 | `Integer.parseInt(Integer.toString(n)) == n` for every `int` |
| `Dynamo.ColumnsDistinct` | fargate/src/main/java/com/amazon/example/service/AbstractService.java:26-30 | the five column names are pairwise distinct |
| `Dynamo.Project` | fargate/src/main/java/com/amazon/example/service/AbstractService.java:36-39 | an `attributesToGet` projection keeps exactly the listed columns the item has, with their values |
| `Pojo.User.Empty` | fargate/src/main/java/com/amazon/example/pojo/User.java:34-35 | `new User()` has null `userId`, `userName`, `firstName`, `lastName` and `age` 0 |
| `Pojo.User.constructor` | fargate/src/main/java/com/amazon/example/pojo/User.java:37-43 | the 5-argument constructor sets each field to its argument |
| `Pojo.User.SetUserId` | fargate/src/main/java/com/amazon/example/pojo/User.java:62-64 | sets `userId` and leaves the other four fields unchanged |
| `Pojo.User.SetUserName` | fargate/src/main/java/com/amazon/example/pojo/User.java:70-72 | sets `userName` and leaves the other four fields unchanged |
| `Pojo.User.SetFirstName` | fargate/src/main/java/com/amazon/example/pojo/User.java:78-80 | sets `firstName` and leaves the other four fields unchanged |
| `Pojo.User.SetLastName` | fargate/src/main/java/com/amazon/example/pojo/User.java:86-88 | sets `lastName` and leaves the other four fields unchanged |
| `Pojo.User.SetAge` | fargate/src/main/java/com/amazon/example/pojo/User.java:94-96 | sets `age` and leaves the other four fields unchanged |
| `Pojo.FromItem` | fargate/src/main/java/com/amazon/example/pojo/User.java:45-56 | the value `User.from` computes: it fails only with `NullPointerException` or `NumberFormatException`, and a non-null decoded `userId` is the `S` value of the item's `userId` column |
| `Pojo.User.From` | fargate/src/main/java/com/amazon/example/pojo/User.java:45-56 | `User.from` either returns a fresh user holding exactly the field values `FromItem` gives, or throws the exception `FromItem` names |
| `Pojo.FromNullOrEmpty` | fargate/src/main/java/com/amazon/example/pojo/User.java:45-56 | a null or empty item decodes to a user with all four names null and `age` 0 |
| `Pojo.FromNonEmpty` | fargate/src/main/java/com/amazon/example/pojo/User.java:47-54 | a non-empty item decodes if and only if all five columns are present and `age` holds an `N` decimal `int`; the names are then the columns' `S` values and `age` the parsed number |
| `Pojo.FromFailures` | fargate/src/main/java/com/amazon/example/pojo/User.java:49-53 | a missing column throws `NullPointerException`; an `age` that is not an `N` decimal `int` throws `NumberFormatException` |
| `Pojo.User.Equals` | fargate/src/main/java/com/amazon/example/pojo/User.java:98-104 | `equals` as written: `true` for the same object; it throws (always `NullPointerException`) exactly when the argument is a different `User` and this `userId` is null; otherwise it answers whether the argument is a `User` with the same `userId` |
| `Pojo.User.HashCode` | fargate/src/main/java/com/amazon/example/pojo/User.java:106-109 | `Objects.hash(userId)`: 31 for a null id, otherwise 31 plus the id's `String.hashCode`, wrapped to 32 bits |
| `Pojo.EqualsByUserId` | fargate/src/main/java/com/amazon/example/pojo/User.java:98-104 | a user equals itself; with a non-null `userId`, `equals` is decided by the ids alone whatever the other fields hold, and is symmetric |
| `Pojo.EqualsImpliesSameHash` | fargate/src/main/java/com/amazon/example/pojo/User.java:98-109 | users that `equals` relates have equal hash codes |
| `Pojo.HashOnlyOfUserId` | fargate/src/main/java/com/amazon/example/pojo/User.java:106-109 | `hashCode` is a function of `userId` alone |
| `Pojo.EqualsThrowsOnNullId` | fargate/src/main/java/com/amazon/example/pojo/User.java:103 | `equals` throws `NullPointerException` when this user's `userId` is null and the argument is a different `User` |
| `Pojo.EqualsNullSafeSound` | fargate/src/main/java/com/amazon/example/pojo/User.java:98-109 | the null-safe `equals` is reflexive, symmetric and transitive, agrees with the written one wherever that answers, holds exactly when the ids are equal, and is consistent with `hashCode` |
| `AbstractService.TableName` | fargate/src/main/java/com/amazon/example/service/AbstractService.java:32-34 | the table name is `Users` |
| `AbstractService.Scan` | fargate/src/main/java/com/amazon/example/service/AbstractService.java:36-39 | the scan targets `Users` and projects exactly the five columns, each once |
| `AbstractService.PutRequest` | fargate/src/main/java/com/amazon/example/service/AbstractService.java:41-53 | the put targets `Users` and its item is `ItemOf` of the user's field values |
| `AbstractService.DeleteRequest` | fargate/src/main/java/com/amazon/example/service/AbstractService.java:55-60 | the delete targets `Users` and its key holds exactly one entry, `userId` to `S(userId)` |
| `AbstractService.GetRequest` | fargate/src/main/java/com/amazon/example/service/AbstractService.java:62-71 | the get targets `Users`, projects the five columns, and its key holds exactly one entry, `userId` to `S(userId)` |
| `AbstractService.ItemOfShape` | fargate/src/main/java/com/amazon/example/service/AbstractService.java:42-47 | the put item has exactly the five column keys; names are `S` values and `age` an `N` value holding `Integer.toString(age)` |
| `AbstractService.ProjectItemOf` | fargate/src/main/java/com/amazon/example/service/AbstractService.java:41-47 | projecting a put item onto the five columns leaves it unchanged |
| `AbstractService.PutItemRoundTrip` | fargate/src/main/java/com/amazon/example/service/AbstractService.java:41-47 | `User.from(putRequest(u).item)` has the same five field values as `u` |
| `Service.Put` | lambda/src/main/java/com/amazon/example/service/UserService.java:38-42 | a put fails exactly when `userId` is null; otherwise it files the user's item under its `userId` and no other entry changes |
| `Service.Remove` | lambda/src/main/java/com/amazon/example/service/UserService.java:48-52 | a delete fails exactly when the id is null; otherwise it removes that entry and no other |
| `Service.Lookup` | lambda/src/main/java/com/amazon/example/service/UserService.java:44-46 | the value `get` computes: a null id is rejected with `DynamoDbException` and is the only way to get that exception; other failures are decoding ones; an id not stored yields the empty user; a decoded non-null `userId` means the id is stored |
| `Service.FindAllOf` | lambda/src/main/java/com/amazon/example/service/UserService.java:32-36 | the value `findAll` computes: on success one user per scanned key, each the decoding of that key's projected item; a failure is a decoding exception |
| `Service.FindAllFirstFailure` | lambda/src/main/java/com/amazon/example/service/UserService.java:32-36 | when `findAll` fails, its exception is that of the first item in scan order that fails to decode, every earlier item decoding |
| `Service.FindAllErrPropagates` | lambda/src/main/java/com/amazon/example/service/UserService.java:32-36 | once a prefix of the scan fails, `findAll` fails with that prefix's result, so the first item that fails to decode decides the exception |
| `Service.FindAllWellFormed` | lambda/src/main/java/com/amazon/example/service/UserService.java:32-36 | on a well-formed table `findAll` returns one decoded user per scanned key, in scan order, each with that key as `userId` |
| `Service.PutWellFormed` | lambda/src/main/java/com/amazon/example/service/UserService.java:38-42 | `add` keeps every stored item decodable and filed under its own `userId` |
| `Service.RemoveWellFormed` | lambda/src/main/java/com/amazon/example/service/UserService.java:48-52 | `delete` keeps the table well-formed |
| `Service.LookupWellFormed` | lambda/src/main/java/com/amazon/example/service/UserService.java:44-46 | on a well-formed table `get` succeeds; the user has a non-null `userId` exactly when the id is stored, and a missing id yields the empty user |
| `Service.LookupAfterPut` | lambda/src/main/java/com/amazon/example/service/UserService.java:38-46 | `get` after `add(u)` returns all five of `u`'s field values |
| `Service.LookupAfterRemove` | lambda/src/main/java/com/amazon/example/service/UserService.java:44-52 | `get` after `delete` of that id returns a user with null `userId` |
| `Service.CrudScenario` | fargate/src/test/java/com/amazon/example/UserResourceTest.java:75-84 | add, get (equal to the added user), delete, get (null `userId`), on any well-formed table |
| `Service.UserService.constructor` | lambda/src/main/java/com/amazon/example/service/UserService.java:29-30 | the service serves the given table |
| `Service.UserService.FindAll` | lambda/src/main/java/com/amazon/example/service/UserService.java:32-36 | `findAll` returns fresh users whose field values are `FindAllOf` of the table in scan order, or its first failure |
| `Service.UserService.Add` | lambda/src/main/java/com/amazon/example/service/UserService.java:38-42 | `add` leaves the table as `Put` gives it and returns the added user's `userId`; a rejected put changes nothing |
| `Service.UserService.Get` | lambda/src/main/java/com/amazon/example/service/UserService.java:44-46 | `get` returns a fresh user holding `User.from` of the stored (projected) item, or of the empty item when none is stored |
| `Service.UserService.Delete` | lambda/src/main/java/com/amazon/example/service/UserService.java:48-52 | `delete` leaves the table as `Remove` gives it and returns its argument unchanged |
| `Lambda.ProcessingLambda.constructor` | lambda/src/main/java/com/amazon/example/ProcessingLambda.java:39-42 | the handler holds the given mapper and service |
| `Lambda.SelectedId` | lambda/src/main/java/com/amazon/example/ProcessingLambda.java:64-69 | the GET id is present exactly when the path parameters hold `userId` or, with no path parameters at all, the query parameters do; it is then that entry's value |
| `Lambda.Dispatch` | lambda/src/main/java/com/amazon/example/ProcessingLambda.java:45-123 | the handler as a function of the table before the call: a null method throws `NullPointerException`; every response has status 200; a `JsonProcessingException` never escapes; a thrown exception leaves the table unchanged |
| `Lambda.ProcessingLambda.HandleRequest` | lambda/src/main/java/com/amazon/example/ProcessingLambda.java:45-123 | the handler's response (or exception) and the new table are exactly `Dispatch` of the request, the table before the call, the fresh id and the scan order |
| `Lambda.StatusAlways200` | lambda/src/main/java/com/amazon/example/ProcessingLambda.java:122 | every response the handler returns has status 200, for every method and outcome |
| `Lambda.OnlyPostAndDeleteWrite` | lambda/src/main/java/com/amazon/example/ProcessingLambda.java:59-120 | any method other than POST and DELETE leaves the table unchanged |
| `Lambda.PathShadowsQuery` | lambda/src/main/java/com/amazon/example/ProcessingLambda.java:64-69 | when path parameters are present the GET does not depend on the query parameters at all, even if the path lacks `userId` |
| `Lambda.GetWithoutIdListsAll` | lambda/src/main/java/com/amazon/example/ProcessingLambda.java:71-79 | on a well-formed table, a GET with a null or empty id answers with the encoding of all users in scan order (or `""` if encoding fails) and the table is unchanged |
| `Lambda.GetById` | lambda/src/main/java/com/amazon/example/ProcessingLambda.java:81-92 | on a well-formed table, a GET of an id that is not stored answers `""`; otherwise it answers with the encoding of the stored user, whose `userId` is that id |
| `Lambda.PostStoresUnderFreshId` | lambda/src/main/java/com/amazon/example/ProcessingLambda.java:95-105 | a POST replaces any client `userId` with the fresh id, stores the user under it and answers with it |
| `Lambda.PostUnparsableBody` | lambda/src/main/java/com/amazon/example/ProcessingLambda.java:106-108 | a POST whose body fails to parse answers `""` and stores nothing |
| `Lambda.DeleteOutcomes` | lambda/src/main/java/com/amazon/example/ProcessingLambda.java:110-119 | a DELETE with path parameters deletes their `userId` and answers with it (a missing one is rejected); without path parameters it answers `""` and changes nothing |
| `Lambda.OtherMethodsIgnored` | lambda/src/main/java/com/amazon/example/ProcessingLambda.java:59-120 | any other HTTP method answers `""` with the table unchanged, as the switch has no default branch |
| `Lambda.PostThenGet` | lambda/src/main/java/com/amazon/example/ProcessingLambda.java:81-105 | a GET of the id a POST answered with returns the encoding of the posted user carrying that id |
| `Output.OutputObject.constructor` | lambda/src/main/java/com/amazon/example/OutputObject.java:18-22 | a fresh object has null `result` and null `requestId` |
| `Output.OutputObject.GetResult` | lambda/src/main/java/com/amazon/example/OutputObject.java:24-26 | `getResult()` returns the `result` field |
| `Output.OutputObject.GetRequestId` | lambda/src/main/java/com/amazon/example/OutputObject.java:28-30 | `getRequestId()` returns the `requestId` field |
| `Output.OutputObject.SetResult` | lambda/src/main/java/com/amazon/example/OutputObject.java:32-35 | afterwards `getResult()` returns the argument, `requestId` is unchanged, and the object itself is returned |
| `Output.OutputObject.SetRequestId` | lambda/src/main/java/com/amazon/example/OutputObject.java:37-40 | afterwards `getRequestId()` returns the argument, `result` is unchanged, and the object itself is returned |

## Left out

- The CDK stacks (`ecs_cdk`, `eks_cdk`, `eks_cdk_js`, `app_pipeline_cdk`), the ALB ingress controller, `create_table.js` and the CDK template test: declarative construct instantiation whose behaviour belongs to the framework and the cloud provider.
- `src/main/java/com/amazon/example/resource/UserResource.java`: a JAX-RS layer over a different `UserService` variant (whose `delete` returns a list) that is not part of this model.
- The DynamoDB client: paging of scans, the wire protocol, capacity, and all server-side validation except the rejection of a null key. The real service would also reject empty-string keys and attribute values with no kind set (a user with a null name); the model stores those items.
- The JSON format: Jackson's mapping is the abstract `ObjectMapper`; what it produces and accepts is not modelled.
- `UUID.randomUUID()`: the fresh id is an input; nothing assumes it differs from the stored ids.
- POST bodies the mapper cannot turn into a user are modelled only through `readUser`'s result. A body of JSON `null` makes `readValue` return null, so `setUserId` throws `NullPointerException`; the model covers this only if `readUser` answers `Err(NullPointerException)`. A null body makes Jackson throw `IllegalArgumentException`, which is not one of the model's exception kinds.
- Logging, `toString` (used only for logging) and the Lambda `Context`.
- What the Lambda runtime answers when the handler throws: the model stops at the thrown exception, so "status 200" holds of every response the handler returns.
- `JavaLang.ParseInt`: accepts ASCII digits only, whereas `Character.digit` also accepts other Unicode decimal digits.
- `JavaLang.StringHash`: hashes Dafny characters (Unicode scalar values), whereas Java hashes UTF-16 code units, so strings outside the Basic Multilingual Plane hash differently.

## Findings

| source | as written | input that shows it | evidently intended | confidence | as-written member | corrected member |
|---|---|---|---|---|---|---|
| fargate/src/main/java/com/amazon/example/pojo/User.java:103 | `userId.equals(user.userId)` dereferences this user's `userId` | two distinct objects made by `new User()` (both ids null): `equals` throws `NullPointerException`, although `hashCode` accepts a null id | `Objects.equals(userId, user.userId)`: two null ids are equal, and `equals` never throws | medium, not executed | `Pojo.EqualsThrowsOnNullId` | `Pojo.EqualsNullSafeSound` |
