/** `com.amazon.example.pojo.User`: the user record, its item decoder
    `User.from`, and identity by `userId`. */
module Pojo {
  import opened JavaLang
  import opened Dynamo

  /** The five field values of a `User` object. */
  datatype UserRecord = UserRecord(
    userId: Option<string>,
    userName: Option<string>,
    firstName: Option<string>,
    lastName: Option<string>,
    age: int32)

  /** The state of `new User()`: every reference field null, `age` zero. */
  const EmptyUser: UserRecord := UserRecord(None, None, None, None, 0)

  /** What `User.from(item)` produces: a null or empty item gives the empty
      user; otherwise each of the five columns is looked up in turn (a missing
      one dereferences null), the four names take their `S` value and `age`
      is `Integer.parseInt` of its `N` value. */
  function FromItem(item: Option<Item>): (r: Result<UserRecord, Exception>)
    ensures r.Err? ==> r.error == NullPointerException || r.error == NumberFormatException
    ensures r.Ok? && r.value.userId.Some? ==>
              item.Some? && USER_ID_COL in item.value && item.value[USER_ID_COL].s == r.value.userId
  {
    if item.None? || item.value == map[] then Ok(EmptyUser)
    else
      var m := item.value;
      if USER_ID_COL !in m || USER_USERNAME_COL !in m || USER_FIRSTNAME_COL !in m
         || USER_LASTNAME_COL !in m || USER_AGE_COL !in m
      then Err(NullPointerException)
      else
        match ParseInt(m[USER_AGE_COL].n)
        case Err(e) => Err(e)
        case Ok(age) =>
          Ok(UserRecord(m[USER_ID_COL].s, m[USER_USERNAME_COL].s, m[USER_FIRSTNAME_COL].s,
                        m[USER_LASTNAME_COL].s, age))
  }

  /** A null or empty item decodes to the empty user. */
  lemma FromNullOrEmpty(item: Option<Item>)
    requires item.None? || item.value == map[]
    ensures FromItem(item) == Ok(EmptyUser)
    ensures FromItem(item).value.userId.None? && FromItem(item).value.age == 0
  {
  }

  /** On a non-empty item, decoding succeeds exactly when all five columns are
      present and the `age` column's `N` value parses as an `int`; the four
      names are then the columns' `S` values and `age` the parsed number. */
  lemma FromNonEmpty(m: Item)
    requires m != map[]
    ensures FromItem(Some(m)).Ok? <==>
              (forall c :: c in USER_COLUMNS ==> c in m) && ParseInt(m[USER_AGE_COL].n).Ok?
    ensures FromItem(Some(m)).Ok? ==>
              var u := FromItem(Some(m)).value;
              && u.userId == m[USER_ID_COL].s
              && u.userName == m[USER_USERNAME_COL].s
              && u.firstName == m[USER_FIRSTNAME_COL].s
              && u.lastName == m[USER_LASTNAME_COL].s
              && Ok(u.age) == ParseInt(m[USER_AGE_COL].n)
  {
    if forall c :: c in USER_COLUMNS ==> c in m {
    } else {
      var c :| c in USER_COLUMNS && c !in m;
      assert FromItem(Some(m)).Err?;
    }
  }

  /** The ways decoding a non-empty item fails: a missing column throws
      `NullPointerException`; an `age` that is not an `N` decimal `int`
      string throws `NumberFormatException`. */
  lemma FromFailures(m: Item)
    requires m != map[]
    ensures (exists c :: c in USER_COLUMNS && c !in m) ==> FromItem(Some(m)) == Err(NullPointerException)
    ensures (forall c :: c in USER_COLUMNS ==> c in m) && ParseInt(m[USER_AGE_COL].n).Err? ==>
              FromItem(Some(m)) == Err(NumberFormatException)
  {
  }

  class User {
    var userId: Option<string>
    var userName: Option<string>
    var firstName: Option<string>
    var lastName: Option<string>
    var age: int32

    /** The object's five field values. */
    function Value(): UserRecord
      reads this
    {
      UserRecord(userId, userName, firstName, lastName, age)
    }

    /** `new User()` */
    constructor Empty()
      ensures Value() == EmptyUser
    {
      userId, userName, firstName, lastName, age := None, None, None, None, 0;
    }

    /** `new User(userId, userName, firstName, lastName, age)` */
    constructor (userId: Option<string>, userName: Option<string>, firstName: Option<string>,
                 lastName: Option<string>, age: int32)
      ensures Value() == UserRecord(userId, userName, firstName, lastName, age)
    {
      this.userId := userId;
      this.userName := userName;
      this.firstName := firstName;
      this.lastName := lastName;
      this.age := age;
    }

    method SetUserId(userId: Option<string>)
      modifies this
      ensures Value() == old(Value()).(userId := userId)
    {
      this.userId := userId;
    }

    method SetUserName(userName: Option<string>)
      modifies this
      ensures Value() == old(Value()).(userName := userName)
    {
      this.userName := userName;
    }

    method SetFirstName(firstName: Option<string>)
      modifies this
      ensures Value() == old(Value()).(firstName := firstName)
    {
      this.firstName := firstName;
    }

    method SetLastName(lastName: Option<string>)
      modifies this
      ensures Value() == old(Value()).(lastName := lastName)
    {
      this.lastName := lastName;
    }

    method SetAge(age: int32)
      modifies this
      ensures Value() == old(Value()).(age := age)
    {
      this.age := age;
    }

    /** `User.from(item)`: a fresh user filled by setter calls, column by column. */
    static method From(item: Option<Item>) returns (r: Result<User, Exception>)
      ensures r.Ok? ==> fresh(r.value) && FromItem(item) == Ok(r.value.Value())
      ensures r.Err? ==> FromItem(item) == Err(r.error)
    {
      var user := new User.Empty();
      if item.Some? && item.value != map[] {
        var m := item.value;
        if USER_ID_COL !in m { return Err(NullPointerException); }
        user.SetUserId(m[USER_ID_COL].s);
        if USER_USERNAME_COL !in m { return Err(NullPointerException); }
        user.SetUserName(m[USER_USERNAME_COL].s);
        if USER_FIRSTNAME_COL !in m { return Err(NullPointerException); }
        user.SetFirstName(m[USER_FIRSTNAME_COL].s);
        if USER_LASTNAME_COL !in m { return Err(NullPointerException); }
        user.SetLastName(m[USER_LASTNAME_COL].s);
        if USER_AGE_COL !in m { return Err(NullPointerException); }
        var age := ParseInt(m[USER_AGE_COL].n);
        if age.Err? { return Err(age.error); }
        user.SetAge(age.value);
      }
      return Ok(user);
    }

    /** `equals(Object o)` as written: the same object is equal; null or an
        object of another class is not; otherwise `userId.equals(o.userId)`,
        which dereferences this object's `userId`. */
    function Equals(o: object?): (r: Result<bool, Exception>)
      reads this, o
      ensures this == o ==> r == Ok(true)
      ensures r.Err? <==> this != o && o != null && o is User && userId.None?
      ensures r.Err? ==> r.error == NullPointerException
      ensures r.Ok? && this != o ==> (r.value <==> o != null && o is User && userId == (o as User).userId)
    {
      if this == o then Ok(true)
      else if o == null || !(o is User) then Ok(false)
      else if userId.None? then Err(NullPointerException)
      else Ok(userId == (o as User).userId)
    }

    /** `equals` as evidently intended: `Objects.equals(userId, o.userId)`,
        which treats two null ids as equal and never throws. */
    function EqualsNullSafe(o: object?): bool
      reads this, o
    {
      if this == o then true
      else if o == null || !(o is User) then false
      else userId == (o as User).userId
    }

    /** `hashCode()`: `Objects.hash(userId)`. */
    function HashCode(): (r: int32)
      reads this
      ensures userId.None? ==> r == 31
      ensures userId.Some? ==> r == Wrap32(31 + StringHash(userId.value))
    {
      ObjectsHash(userId)
    }
  }

  /** The field values of a list of users, in list order. */
  function Records(users: seq<User>): (r: seq<UserRecord>)
    reads set u | u in users
    ensures |r| == |users|
  {
    if users == [] then []
    else Records(users[..|users| - 1]) + [users[|users| - 1].Value()]
  }

  /** The field values of a list extended by one user. */
  lemma RecordsAppend(users: seq<User>, u: User)
    ensures Records(users + [u]) == Records(users) + [u.Value()]
  {
    assert (users + [u])[..|users|] == users;
  }

  /** Each entry of `Records(users)` is the field values of that user. */
  lemma {:induction false} RecordsAt(users: seq<User>)
    ensures forall i :: 0 <= i < |users| ==> Records(users)[i] == users[i].Value()
  {
    if users != [] {
      var init := users[..|users| - 1];
      RecordsAt(init);
      assert forall i :: 0 <= i < |init| ==> init[i] == users[i];
    }
  }

  /** `equals` is reflexive, and between two users with a non-null `userId`
      it is decided by the ids alone, whatever the other fields hold. */
  lemma EqualsByUserId(a: User, b: User)
    ensures a.Equals(a) == Ok(true)
    ensures a.userId.Some? ==> a.Equals(b) == Ok(a.userId == b.userId)
    ensures a.userId.Some? && b.userId.Some? ==> a.Equals(b) == b.Equals(a)
  {
  }

  /** Users that `equals` relates have equal hash codes. */
  lemma EqualsImpliesSameHash(a: User, b: User)
    requires a.Equals(b) == Ok(true)
    ensures a.HashCode() == b.HashCode()
  {
  }

  /** The hash code depends on `userId` alone. */
  lemma HashOnlyOfUserId(a: User, b: User)
    requires a.userId == b.userId
    ensures a.HashCode() == b.HashCode()
  {
  }

  /** The defect: two distinct objects made by `new User()` (both ids null)
      make `equals` throw instead of answering, although `hashCode` handles a
      null id. */
  lemma EqualsThrowsOnNullId(a: User, b: User)
    requires a != b && a.userId.None?
    ensures a.Equals(b) == Err(NullPointerException)
  {
  }

  /** The corrected `equals` is an equivalence that never throws, agrees with
      the written one wherever that one answers, and is consistent with
      `hashCode`. */
  lemma EqualsNullSafeSound(a: User, b: User, c: User)
    ensures a.EqualsNullSafe(a)
    ensures a.EqualsNullSafe(b) == b.EqualsNullSafe(a)
    ensures a.EqualsNullSafe(b) && b.EqualsNullSafe(c) ==> a.EqualsNullSafe(c)
    ensures a.EqualsNullSafe(b) ==> a.HashCode() == b.HashCode()
    ensures a.Equals(b).Ok? ==> a.Equals(b).value == a.EqualsNullSafe(b)
    ensures a.EqualsNullSafe(b) <==> a.userId == b.userId
  {
  }
}
