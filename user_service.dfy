/** `com.amazon.example.service.UserService` (the Lambda's): add, get, delete
    and list users in the `Users` table. The injected DynamoDB client is
    represented by the table it serves, a map from partition key (`userId`)
    to item, owned by the service object. */
module Service {
  import opened JavaLang
  import opened Dynamo
  import opened Pojo
  import opened AbstractService

  type Table = map<string, Item>

  /** An item the table can hold under key `k`: it carries `k` as its
      `userId` and its projection onto the five columns decodes. */
  predicate StoredUnder(k: string, item: Item) {
    KeyOf(item) == Some(k) && FromItem(Some(Project(item, USER_COLUMNS))).Ok?
  }

  /** The invariant `add` and `delete` keep. */
  predicate WellFormed(t: Table) {
    forall k :: k in t ==> StoredUnder(k, t[k])
  }

  /** A scan order: every key of the table exactly once. The order in which
      DynamoDB returns a scan is not fixed by the code, so it is an input. */
  predicate IsScanOrder(order: seq<string>, t: Table) {
    && (forall i :: 0 <= i < |order| ==> order[i] in t)
    && (forall i, j :: 0 <= i < j < |order| ==> order[i] != order[j])
    && (forall k :: k in t ==> k in order)
  }

  /** `putItem(putRequest(u))`: the item is filed under its `userId`; an item
      without a key is rejected by the table. */
  function Put(t: Table, u: UserRecord): (r: Result<Table, Exception>)
    ensures r.Ok? <==> u.userId.Some?
    ensures r.Err? ==> r.error == DynamoDbException
    ensures r.Ok? ==>
              && r.value.Keys == t.Keys + {u.userId.value}
              && r.value[u.userId.value] == ItemOf(u)
              && forall k :: k in t && k != u.userId.value ==> r.value[k] == t[k]
  {
    ItemOfShape(u);
    match KeyOf(ItemOf(u))
    case None => Err(DynamoDbException)
    case Some(k) => Ok(t[k := ItemOf(u)])
  }

  /** `deleteItem(deleteRequest(userId))`: removes the entry, if any; a null
      key is rejected. */
  function Remove(t: Table, userId: Option<string>): (r: Result<Table, Exception>)
    ensures r.Ok? <==> userId.Some?
    ensures r.Err? ==> r.error == DynamoDbException
    ensures r.Ok? ==>
              && r.value.Keys == t.Keys - {userId.value}
              && forall k :: k in r.value ==> r.value[k] == t[k]
  {
    match userId
    case None => Err(DynamoDbException)
    case Some(k) => Ok(t - {k})
  }

  /** `User.from(getItem(getRequest(userId)).item())`: the stored item
      projected onto the five columns, or an empty item when there is none. */
  function Lookup(t: Table, userId: Option<string>): (r: Result<UserRecord, Exception>)
    ensures r == Err(DynamoDbException) <==> userId.None?
    ensures r.Err? && userId.Some? ==> r.error == NullPointerException || r.error == NumberFormatException
    ensures userId.Some? && userId.value !in t ==> r == Ok(EmptyUser)
    ensures r.Ok? && r.value.userId.Some? ==> userId.Some? && userId.value in t
  {
    match userId
    case None => Err(DynamoDbException)
    case Some(k) => FromItem(Some(if k in t then Project(t[k], USER_COLUMNS) else map[]))
  }

  /** `findAll()`: `User.from` of every scanned item, in scan order; the first
      item that fails to decode ends the stream with its exception. */
  function FindAllOf(t: Table, order: seq<string>): (r: Result<seq<UserRecord>, Exception>)
    requires forall i :: 0 <= i < |order| ==> order[i] in t
    ensures r.Ok? ==> |r.value| == |order|
    ensures r.Ok? ==> forall i :: 0 <= i < |order| ==>
              FromItem(Some(Project(t[order[i]], USER_COLUMNS))) == Ok(r.value[i])
    ensures r.Err? ==> r.error == NullPointerException || r.error == NumberFormatException
  {
    if order == [] then Ok([])
    else
      match FindAllOf(t, order[..|order| - 1])
      case Err(e) => Err(e)
      case Ok(us) =>
        match FromItem(Some(Project(t[order[|order| - 1]], USER_COLUMNS)))
        case Err(e) => Err(e)
        case Ok(u) => Ok(us + [u])
  }

  /** The exception `findAll` throws is that of the first item in scan order
      that fails to decode. */
  lemma {:induction false} FindAllFirstFailure(t: Table, order: seq<string>)
    requires forall i :: 0 <= i < |order| ==> order[i] in t
    requires FindAllOf(t, order).Err?
    ensures exists i :: 0 <= i < |order|
              && FromItem(Some(Project(t[order[i]], USER_COLUMNS))) == Err(FindAllOf(t, order).error)
              && (forall j :: 0 <= j < i ==> FromItem(Some(Project(t[order[j]], USER_COLUMNS))).Ok?)
  {
    var prefix := order[..|order| - 1];
    var n := |order| - 1;
    if FindAllOf(t, prefix).Err? {
      FindAllFirstFailure(t, prefix);
      var i :| 0 <= i < |prefix|
              && FromItem(Some(Project(t[prefix[i]], USER_COLUMNS))) == Err(FindAllOf(t, prefix).error)
              && (forall j :: 0 <= j < i ==> FromItem(Some(Project(t[prefix[j]], USER_COLUMNS))).Ok?);
      assert forall j :: 0 <= j <= i ==> prefix[j] == order[j];
    } else {
      assert forall j :: 0 <= j < n ==> prefix[j] == order[j];
      assert FromItem(Some(Project(t[order[n]], USER_COLUMNS))) == Err(FindAllOf(t, order).error);
    }
  }

  /** Once a prefix of the scan fails, the whole scan fails the same way. */
  lemma {:induction false} FindAllErrPropagates(t: Table, order: seq<string>, n: nat)
    requires forall i :: 0 <= i < |order| ==> order[i] in t
    requires n <= |order| && FindAllOf(t, order[..n]).Err?
    ensures FindAllOf(t, order) == FindAllOf(t, order[..n])
    decreases |order| - n
  {
    if n < |order| {
      assert order[..n + 1][..n] == order[..n];
      FindAllErrPropagates(t, order, n + 1);
    } else {
      assert order[..n] == order;
    }
  }

  /** One step of the scan: extending a decoded prefix by the next item. */
  lemma FindAllStep(t: Table, order: seq<string>, i: nat)
    requires forall j :: 0 <= j < |order| ==> order[j] in t
    requires i < |order| && FindAllOf(t, order[..i]).Ok?
    ensures FindAllOf(t, order[..i + 1]) ==
              match FromItem(Some(Project(t[order[i]], USER_COLUMNS)))
              case Err(e) => Err(e)
              case Ok(u) => Ok(FindAllOf(t, order[..i]).value + [u])
  {
    assert order[..i + 1][..i] == order[..i];
  }

  /** On a well-formed table `findAll` cannot fail: it returns one user per
      key in scan order, each decoded from that key's item and carrying that
      key as its `userId`. */
  lemma {:induction false} FindAllWellFormed(t: Table, order: seq<string>)
    requires WellFormed(t)
    requires forall i :: 0 <= i < |order| ==> order[i] in t
    ensures FindAllOf(t, order).Ok?
    ensures |FindAllOf(t, order).value| == |order|
    ensures forall i :: 0 <= i < |order| ==>
              && Ok(FindAllOf(t, order).value[i]) == FromItem(Some(Project(t[order[i]], USER_COLUMNS)))
              && FindAllOf(t, order).value[i].userId == Some(order[i])
  {
    if order != [] {
      var last := order[|order| - 1];
      FindAllWellFormed(t, order[..|order| - 1]);
      assert StoredUnder(last, t[last]);
      StoredDecodesToKey(last, t[last]);
    }
  }

  /** A stored item decodes to a user whose `userId` is its key. */
  lemma StoredDecodesToKey(k: string, item: Item)
    requires StoredUnder(k, item)
    ensures FromItem(Some(Project(item, USER_COLUMNS))).value.userId == Some(k)
  {
    var p := Project(item, USER_COLUMNS);
    assert USER_ID_COL in p;
  }

  /** `add` keeps the table well-formed: the put item decodes back to the user. */
  lemma PutWellFormed(t: Table, u: UserRecord)
    requires WellFormed(t) && u.userId.Some?
    ensures WellFormed(Put(t, u).value)
  {
    ProjectItemOf(u);
    PutItemRoundTrip(u);
    ItemOfShape(u);
  }

  /** `delete` keeps the table well-formed. */
  lemma RemoveWellFormed(t: Table, userId: Option<string>)
    requires WellFormed(t) && userId.Some?
    ensures WellFormed(Remove(t, userId).value)
  {
  }

  /** On a well-formed table `get` of a non-null id never fails, and the user
      it returns has a non-null `userId` exactly when the id is stored, in
      which case it is that id. */
  lemma LookupWellFormed(t: Table, k: string)
    requires WellFormed(t)
    ensures Lookup(t, Some(k)).Ok?
    ensures Lookup(t, Some(k)).value.userId.Some? <==> k in t
    ensures k in t ==> Lookup(t, Some(k)).value.userId == Some(k)
    ensures k !in t ==> Lookup(t, Some(k)) == Ok(EmptyUser)
  {
    if k in t {
      StoredDecodesToKey(k, t[k]);
    }
  }

  /** `get` after `add` returns the added user's field values. */
  lemma LookupAfterPut(t: Table, u: UserRecord)
    requires u.userId.Some?
    ensures Lookup(Put(t, u).value, u.userId) == Ok(u)
  {
    ProjectItemOf(u);
    PutItemRoundTrip(u);
  }

  /** `get` after `delete` of an id returns a user whose `userId` is null. */
  lemma LookupAfterRemove(t: Table, k: string)
    ensures Lookup(Remove(t, Some(k)).value, Some(k)) == Ok(EmptyUser)
  {
  }

  /** The create-read-delete-read sequence: after `add(u)`, `get(u.userId)`
      returns a user `equals` to `u` (same `userId`) with all of `u`'s field
      values; after `delete(u.userId)`, `get(u.userId)` returns a user whose
      `userId` is null. */
  lemma CrudScenario(t: Table, u: UserRecord)
    requires WellFormed(t) && u.userId.Some?
    ensures Put(t, u).Ok?
    ensures var t1 := Put(t, u).value;
            && WellFormed(t1)
            && Lookup(t1, u.userId) == Ok(u)
            && Remove(t1, u.userId).Ok?
            && Lookup(Remove(t1, u.userId).value, u.userId).value.userId.None?
  {
    var t1 := Put(t, u).value;
    PutWellFormed(t, u);
    LookupAfterPut(t, u);
    LookupAfterRemove(t1, u.userId.value);
  }

  class UserService {
    var table: Table

    /** A service over a table with the given contents. */
    constructor (table: Table)
      ensures this.table == table
    {
      this.table := table;
    }

    /** `findAll()`: scans the table in the given order, decoding each item
        into a fresh `User`. */
    method FindAll(order: seq<string>) returns (r: Result<seq<User>, Exception>)
      requires IsScanOrder(order, table)
      ensures r.Ok? ==> (forall i :: 0 <= i < |r.value| ==> fresh(r.value[i]))
                        && FindAllOf(table, order) == Ok(Records(r.value))
      ensures r.Err? ==> FindAllOf(table, order) == Err(r.error)
    {
      var request := Scan();
      var users: seq<User> := [];
      var i := 0;
      while i < |order|
        invariant 0 <= i <= |order|
        invariant forall j :: 0 <= j < |users| ==> fresh(users[j])
        invariant FindAllOf(table, order[..i]) == Ok(Records(users))
      {
        var user := User.From(Some(Project(table[order[i]], request.attributesToGet)));
        FindAllStep(table, order, i);
        if user.Err? {
          FindAllErrPropagates(table, order, i + 1);
          return Err(user.error);
        }
        RecordsAppend(users, user.value);
        users := users + [user.value];
        i := i + 1;
      }
      assert order[..i] == order;
      return Ok(users);
    }

    /** `add(user)`: puts the user's item and returns its `userId`. */
    method Add(user: User) returns (r: Result<string, Exception>)
      modifies this
      ensures match Put(old(table), user.Value())
              case Ok(t) => table == t && r == Ok(user.userId.value)
              case Err(e) => table == old(table) && r == Err(e)
    {
      var request := PutRequest(user);
      var key := KeyOf(request.item);
      if key.None? {
        return Err(DynamoDbException);
      }
      table := table[key.value := request.item];
      return Ok(user.userId.value);
    }

    /** `get(userId)`: the decoded item stored under `userId`. */
    method Get(userId: Option<string>) returns (r: Result<User, Exception>)
      ensures r.Ok? ==> fresh(r.value) && Lookup(table, userId) == Ok(r.value.Value())
      ensures r.Err? ==> Lookup(table, userId) == Err(r.error)
    {
      var request := GetRequest(userId);
      var key := KeyOf(request.key);
      if key.None? {
        return Err(DynamoDbException);
      }
      var item := if key.value in table then Project(table[key.value], request.attributesToGet) else map[];
      r := User.From(Some(item));
    }

    /** `delete(userId)`: deletes the entry and returns its argument. */
    method Delete(userId: Option<string>) returns (r: Result<string, Exception>)
      modifies this
      ensures match Remove(old(table), userId)
              case Ok(t) => table == t && r == Ok(userId.value)
              case Err(e) => table == old(table) && r == Err(e)
    {
      var request := DeleteRequest(userId);
      var key := KeyOf(request.key);
      if key.None? {
        return Err(DynamoDbException);
      }
      table := table - {key.value};
      return Ok(userId.value);
    }
  }
}
