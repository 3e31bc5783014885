/** How an entity becomes a row and comes back: the nullable and integer columns of the three tables. */
module Columns {
  import opened Wrappers
  import opened Shares
  import Expiry

  /** The stored columns; None is SQL NULL. */
  datatype Stored = Stored(password: Option<string>, oneUse: int, expiresAt: Option<int>, deleteSecret: Option<string>)

  /** nullableString. */
  function Nullable(s: string): Option<string> {
    if s == "" then None else Some(s)
  }

  /** boolToInt. */
  function BoolToInt(b: bool): int {
    if b then 1 else 0
  }

  /** COALESCE(column, ''). */
  function Coalesce(c: Option<string>): string {
    match c
    case None => ""
    case Some(s) => s
  }

  /** The INSERT of a share with its deadline in nanoseconds. */
  function Insert(secret: string, pwHash: string, oneUse: bool, deadline: Option<int>): Stored {
    Stored(Nullable(pwHash), BoolToInt(oneUse), Expiry.Column(deadline), Nullable(secret))
  }

  /** The SELECT by slug and the scan into an entity. */
  function Scan(row: Stored, info: Info): Meta {
    Meta(Coalesce(row.deleteSecret), Coalesce(row.password), row.oneUse == 1, row.expiresAt, info)
  }

  /** What is read back is what was inserted, except that the deadline has lost its fraction of a second. */
  lemma ReadBack(secret: string, pwHash: string, oneUse: bool, deadline: Option<int>, info: Info)
    ensures Scan(Insert(secret, pwHash, oneUse, deadline), info) ==
              Meta(secret, pwHash, oneUse, Expiry.Column(deadline), info)
  {
  }
}
