/** The two tables the report reads: `users(id, name, manager_id)` and
    `checkins(id, employee_id, client_id, checkin_time, checkout_time)`. */
module Schema {
  import opened Wrappers
  import opened SqlDate

  /** A user; `manager_id` is NULL for a user who reports to nobody. */
  datatype User = User(id: int, name: string, manager_id: Option<int>)

  /** A visit to a client; `checkout_time` is NULL while the visit is
      open. */
  datatype Checkin = Checkin(
    id: int,
    employee_id: int,
    client_id: int,
    checkin_time: Timestamp,
    checkout_time: Option<Timestamp>)

  datatype Tables = Tables(users: seq<User>, checkins: seq<Checkin>)

  /** `users.id` is the table's primary key. */
  predicate UniqueUserIds(users: seq<User>) {
    forall i, j :: 0 <= i < j < |users| ==> users[i].id != users[j].id
  }
}
