/** The slice of the DynamoDB data model the user layer touches: attribute
    values, items, and the column schema of the `Users` table (the column
    constants of `AbstractService`, kept here because `User.from` and
    `AbstractService` refer to each other). */
module Dynamo {
  import opened JavaLang

  /** An `AttributeValue` as built by `AttributeValue.builder()`: `s` and `n`
      are what `.s()` and `.n()` return, `None` when that kind was not set
      (or was set to `null`). Other attribute kinds are not used here. */
  datatype AttributeValue = AttributeValue(s: Option<string>, n: Option<string>)

  /** `AttributeValue.builder().s(x).build()` */
  function S(x: Option<string>): AttributeValue {
    AttributeValue(x, None)
  }

  /** `AttributeValue.builder().n(x).build()` */
  function N(x: Option<string>): AttributeValue {
    AttributeValue(None, x)
  }

  /** An item (or a key): column name to attribute value. */
  type Item = map<string, AttributeValue>

  const USER_USERNAME_COL: string := "userName"
  const USER_FIRSTNAME_COL: string := "firstName"
  const USER_LASTNAME_COL: string := "lastName"
  const USER_AGE_COL: string := "age"
  const USER_ID_COL: string := "userId"

  /** The projection list used by the scan and get requests, in their order. */
  const USER_COLUMNS: seq<string> :=
    [USER_ID_COL, USER_USERNAME_COL, USER_FIRSTNAME_COL, USER_LASTNAME_COL, USER_AGE_COL]

  /** The five column names are pairwise distinct, so an item holding all of
      them has five entries and a projection list naming them has no repeats. */
  lemma ColumnsDistinct()
    ensures forall i, j :: 0 <= i < j < |USER_COLUMNS| ==> USER_COLUMNS[i] != USER_COLUMNS[j]
    ensures |set c | c in USER_COLUMNS| == 5
  {
    var cols := set c | c in USER_COLUMNS;
    assert cols == {USER_ID_COL, USER_USERNAME_COL, USER_FIRSTNAME_COL, USER_LASTNAME_COL, USER_AGE_COL};
  }

  /** What an `attributesToGet` projection leaves of an item. */
  function Project(item: Item, columns: seq<string>): (r: Item)
    ensures r.Keys == item.Keys * (set c | c in columns)
    ensures forall c :: c in r ==> r[c] == item[c]
  {
    map c | c in item && c in columns :: item[c]
  }

  /** The partition key an item or key map carries: the `S` value of its `userId` column. */
  function KeyOf(item: Item): (k: Option<string>)
    ensures k.Some? <==> USER_ID_COL in item && item[USER_ID_COL].s.Some?
  {
    if USER_ID_COL in item then item[USER_ID_COL].s else None
  }
}
