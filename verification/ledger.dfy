/** The bot's user database as the command plugins use it: a points balance,
    a whitelist value and a nickname per user, read with `get_points`,
    `get_whitelist` and `get_nickname` and changed only by the relative
    adjustment `add_points`. */
module Ledger {

  type UserId = string

  datatype Db = Db(points: map<UserId, int>, whitelist: map<UserId, int>, nicknames: map<UserId, string>)

  /** A user the database has no row for reads as 0 points. */
  function GetPoints(db: Db, u: UserId): int {
    if u in db.points then db.points[u] else 0
  }

  /** A user the database has no row for reads as whitelist value 0. */
  function GetWhitelist(db: Db, u: UserId): int {
    if u in db.whitelist then db.whitelist[u] else 0
  }

  function GetNickname(db: Db, u: UserId): string {
    if u in db.nicknames then db.nicknames[u] else ""
  }

  /** `add_points(u, delta)`: moves `u`'s balance by `delta` and touches
      nothing else. */
  function AddPoints(db: Db, u: UserId, delta: int): (r: Db)
    ensures GetPoints(r, u) == GetPoints(db, u) + delta
    ensures forall v :: v != u ==> GetPoints(r, v) == GetPoints(db, v)
    ensures r.whitelist == db.whitelist && r.nicknames == db.nicknames
  {
    db.(points := db.points[u := GetPoints(db, u) + delta])
  }

  function Sum(deltas: seq<int>): int {
    if |deltas| == 0 then 0 else deltas[0] + Sum(deltas[1..])
  }

  /** The `add_points` calls `deltas`, made in order on user `u`: the balance
      moves by their sum and nothing else changes. */
  function ApplyAll(db: Db, u: UserId, deltas: seq<int>): (r: Db)
    ensures GetPoints(r, u) == GetPoints(db, u) + Sum(deltas)
    ensures forall v :: v != u ==> GetPoints(r, v) == GetPoints(db, v)
    ensures r.whitelist == db.whitelist && r.nicknames == db.nicknames
    decreases |deltas|
  {
    if |deltas| == 0 then db
    else ApplyAll(AddPoints(db, u, deltas[0]), u, deltas[1..])
  }

  /** A debit followed by a refund of the same amount leaves every balance
      as it was. */
  lemma DebitThenRefund(db: Db, u: UserId, price: int)
    ensures forall v :: GetPoints(ApplyAll(db, u, [-price, price]), v) == GetPoints(db, v)
  {
  }
}
