/** `com.amazon.example.service.AbstractService`: the table name and the
    four DynamoDB requests built from a user or a user id. */
module AbstractService {
  import opened JavaLang
  import opened Dynamo
  import opened Pojo

  datatype ScanRequest = ScanRequest(tableName: string, attributesToGet: seq<string>)
  datatype PutItemRequest = PutItemRequest(tableName: string, item: Item)
  datatype GetItemRequest = GetItemRequest(tableName: string, key: Item, attributesToGet: seq<string>)
  datatype DeleteItemRequest = DeleteItemRequest(tableName: string, key: Item)

  /** `getTableName()` */
  function TableName(): (r: string)
    ensures r == "Users"
  {
    "Users"
  }

  /** `scanRequest()`: a scan of `Users` projecting the five columns. */
  function Scan(): (r: ScanRequest)
    ensures r.tableName == "Users"
    ensures |r.attributesToGet| == 5 && (set c | c in r.attributesToGet) == set c | c in USER_COLUMNS
    ensures forall i, j :: 0 <= i < j < |r.attributesToGet| ==> r.attributesToGet[i] != r.attributesToGet[j]
  {
    ColumnsDistinct();
    ScanRequest(TableName(), USER_COLUMNS)
  }

  /** The item `putRequest` stores for a user with the given field values. */
  function ItemOf(u: UserRecord): Item {
    map[USER_USERNAME_COL := S(u.userName),
        USER_FIRSTNAME_COL := S(u.firstName),
        USER_LASTNAME_COL := S(u.lastName),
        USER_ID_COL := S(u.userId),
        USER_AGE_COL := N(Some(IntToString(u.age)))]
  }

  /** The single-entry key map of `getRequest` and `deleteRequest`. */
  function KeyMap(userId: Option<string>): Item {
    map[USER_ID_COL := S(userId)]
  }

  /** `putRequest(user)`: fills a fresh map with one entry per column. */
  method PutRequest(user: User) returns (req: PutItemRequest)
    ensures req.tableName == TableName()
    ensures req.item == ItemOf(user.Value())
  {
    var item: Item := map[];
    item := item[USER_USERNAME_COL := S(user.userName)];
    item := item[USER_FIRSTNAME_COL := S(user.firstName)];
    item := item[USER_LASTNAME_COL := S(user.lastName)];
    item := item[USER_ID_COL := S(user.userId)];
    item := item[USER_AGE_COL := N(Some(IntToString(user.age)))];
    req := PutItemRequest(TableName(), item);
  }

  /** `deleteRequest(userId)` */
  method DeleteRequest(userId: Option<string>) returns (req: DeleteItemRequest)
    ensures req.tableName == TableName()
    ensures req.key == KeyMap(userId)
    ensures req.key.Keys == {USER_ID_COL} && KeyOf(req.key) == userId
  {
    var key: Item := map[];
    key := key[USER_ID_COL := S(userId)];
    req := DeleteItemRequest(TableName(), key);
  }

  /** `getRequest(userId)` */
  method GetRequest(userId: Option<string>) returns (req: GetItemRequest)
    ensures req.tableName == TableName() && req.attributesToGet == Scan().attributesToGet
    ensures req.key == KeyMap(userId)
    ensures req.key.Keys == {USER_ID_COL} && KeyOf(req.key) == userId
  {
    var key: Item := map[];
    key := key[USER_ID_COL := S(userId)];
    req := GetItemRequest(TableName(), key, USER_COLUMNS);
  }

  /** The put item has exactly the five column keys; the names are stored as
      `S` values and `age` as an `N` value holding its decimal string. */
  lemma ItemOfShape(u: UserRecord)
    ensures ItemOf(u).Keys == set c | c in USER_COLUMNS
    ensures |ItemOf(u)| == 5
    ensures ItemOf(u)[USER_ID_COL] == S(u.userId)
    ensures ItemOf(u)[USER_USERNAME_COL] == S(u.userName)
    ensures ItemOf(u)[USER_FIRSTNAME_COL] == S(u.firstName)
    ensures ItemOf(u)[USER_LASTNAME_COL] == S(u.lastName)
    ensures ItemOf(u)[USER_AGE_COL] == N(Some(IntToString(u.age)))
    ensures ItemOf(u)[USER_AGE_COL].s.None?
    ensures KeyOf(ItemOf(u)) == u.userId
  {
    ColumnsDistinct();
    assert ItemOf(u).Keys == set c | c in USER_COLUMNS;
  }

  /** Projecting a put item onto the five columns leaves it as it is. */
  lemma ProjectItemOf(u: UserRecord)
    ensures Project(ItemOf(u), USER_COLUMNS) == ItemOf(u)
  {
    ItemOfShape(u);
  }

  /** Round trip: decoding the put item of a user gives back all five field
      values, `age` through `Integer.toString` and `Integer.parseInt`. */
  lemma PutItemRoundTrip(u: UserRecord)
    ensures FromItem(Some(ItemOf(u))) == Ok(u)
  {
    ParseIntToString(u.age);
    assert ItemOf(u) != map[] by { assert USER_ID_COL in ItemOf(u); }
  }
}
