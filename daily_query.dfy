/** The statement the daily-summary handler sends to the database, and
    the meaning the SQL engine gives it:

      SELECT u.id, u.name, COUNT(c.id), COUNT(DISTINCT c.client_id),
             SUM(hours between c.checkin_time and c.checkout_time)
      FROM users u
      LEFT JOIN checkins c ON u.id = c.employee_id AND DATE(c.checkin_time) = ?
      WHERE u.manager_id = ? [AND u.id = ?]
      GROUP BY u.id

    The statement is kept as a small syntax tree whose placeholders are
    numbered in the order they occur in the text; the handler builds it
    piece by piece. Beside the SQL meaning stands a direct description of
    the report (one row per selected user, with that user's same-day
    checkins), and the two are proved equal. */
module DailyQuery {
  import opened Wrappers
  import opened DateShape
  import opened SqlDate
  import opened Schema

  /** A bound parameter value. */
  datatype SqlValue = SqlText(text: string) | SqlInt(n: int)

  /** The conditions of the WHERE clause, each with the number of its
      placeholder. */
  datatype Cond =
    | ManagerIdIs(slot: nat)   // u.manager_id = ?
    | UserIdIs(slot: nat)      // u.id = ?

  /** The statement: the placeholder of the join's date test, the WHERE
      conjuncts, and whether `GROUP BY u.id` has been appended. */
  datatype Query = Query(dateSlot: nat, conds: seq<Cond>, groupByUser: bool)

  /** One result row of the statement. `working_hours` is NULL when no
      matched checkin has a checkout time. */
  datatype Row = Row(
    employee_id: int,
    employee_name: string,
    checkins: nat,
    clients_visited: nat,
    working_hours: Option<real>)

  datatype QueryError =
    | BindError            // placeholders and parameters do not match
    | UngroupedAggregate   // an aggregate without GROUP BY (not modelled)
    | StorageFault         // any other failure of the engine or connection

  /** A row of `users u LEFT JOIN checkins c`: `checkin` is None for the
      NULL-extended row of a user without a matching checkin. */
  datatype Joined = Joined(user: User, checkin: Option<Checkin>)

  // ----- comparisons ---------------------------------------------------

  /** The value of a string of decimal digits. */
  function DecimalValue(s: string): nat
    requires forall i :: 0 <= i < |s| ==> IsDigit(s[i])
  {
    if s == [] then 0 else DecimalValue(s[..|s| - 1]) * 10 + DigitValue(s[|s| - 1]) as nat
  }

  /** The integer a text parameter stands for when compared with an
      INTEGER column (numeric affinity), for text made of decimal digits;
      any other text equals no integer. */
  function TextAsInteger(s: string): Option<int>
  {
    if s != [] && forall i :: 0 <= i < |s| ==> IsDigit(s[i]) then Some(DecimalValue(s)) else None
  }

  /** `column = ?` for an INTEGER column; NULL equals nothing. */
  predicate IntColumnEquals(column: Option<int>, v: SqlValue) {
    column.Some? &&
    match v
    case SqlInt(n) => column.value == n
    case SqlText(t) => TextAsInteger(t) == Some(column.value)
  }

  /** `DATE(c.checkin_time) = ?`; a NULL date equals nothing, and text is
      never equal to an integer. */
  predicate DateEquals(date: Option<string>, v: SqlValue) {
    date.Some? && v.SqlText? && date.value == v.text
  }

  // ----- FROM users u LEFT JOIN checkins c ON ... ----------------------

  /** The join condition `u.id = c.employee_id AND DATE(c.checkin_time) = ?`. */
  predicate JoinOn(u: User, c: Checkin, dateParam: SqlValue) {
    u.id == c.employee_id && DateEquals(Date(c.checkin_time), dateParam)
  }

  /** The checkins joined to one user, in table order. */
  function JoinedCheckins(u: User, cs: seq<Checkin>, dateParam: SqlValue): (ms: seq<Checkin>)
    ensures forall c :: c in ms <==> c in cs && JoinOn(u, c, dateParam)
  {
    if cs == [] then []
    else (if JoinOn(u, cs[0], dateParam) then [cs[0]] else []) + JoinedCheckins(u, cs[1..], dateParam)
  }

  /** Pairs one user with each of a sequence of checkins. */
  function Pair(u: User, ms: seq<Checkin>): (rows: seq<Joined>)
    ensures |rows| == |ms|
    ensures forall i :: 0 <= i < |ms| ==> rows[i] == Joined(u, Some(ms[i]))
  {
    if ms == [] then [] else [Joined(u, Some(ms[0]))] + Pair(u, ms[1..])
  }

  /** The rows of the left join for one user: one per joined checkin, or a
      single NULL-extended row when there is none. */
  function LeftJoinUser(u: User, cs: seq<Checkin>, dateParam: SqlValue): (rows: seq<Joined>)
    ensures rows != []
    ensures forall i :: 0 <= i < |rows| ==> rows[i].user == u
  {
    var ms := JoinedCheckins(u, cs, dateParam);
    if ms == [] then [Joined(u, None)] else Pair(u, ms)
  }

  /** The left join, user by user. */
  function LeftJoin(users: seq<User>, cs: seq<Checkin>, dateParam: SqlValue): (rows: seq<Joined>)
    ensures forall i :: 0 <= i < |rows| ==> rows[i].user in users
  {
    if users == [] then []
    else LeftJoinUser(users[0], cs, dateParam) + LeftJoin(users[1..], cs, dateParam)
  }

  // ----- WHERE ---------------------------------------------------------

  predicate CondHolds(cond: Cond, u: User, params: seq<SqlValue>)
    requires cond.slot < |params|
  {
    match cond
    case ManagerIdIs(k) => IntColumnEquals(u.manager_id, params[k])
    case UserIdIs(k) => IntColumnEquals(Some(u.id), params[k])
  }

  predicate SlotsBound(conds: seq<Cond>, params: seq<SqlValue>) {
    forall i :: 0 <= i < |conds| ==> conds[i].slot < |params|
  }

  /** The conjunction of the WHERE clause. */
  predicate AllHold(conds: seq<Cond>, u: User, params: seq<SqlValue>)
    requires SlotsBound(conds, params)
  {
    forall i :: 0 <= i < |conds| ==> CondHolds(conds[i], u, params)
  }

  /** The joined rows whose user satisfies the WHERE clause. */
  function Where(rows: seq<Joined>, conds: seq<Cond>, params: seq<SqlValue>): (kept: seq<Joined>)
    requires SlotsBound(conds, params)
    ensures forall j :: 0 <= j < |kept| ==> AllHold(conds, kept[j].user, params)
  {
    if rows == [] then []
    else (if AllHold(conds, rows[0].user, params) then [rows[0]] else []) + Where(rows[1..], conds, params)
  }

  // ----- GROUP BY u.id and the aggregates ------------------------------

  function WithId(rows: seq<Joined>, id: int): (g: seq<Joined>)
    ensures |g| <= |rows|
  {
    if rows == [] then []
    else (if rows[0].user.id == id then [rows[0]] else []) + WithId(rows[1..], id)
  }

  function WithoutId(rows: seq<Joined>, id: int): (g: seq<Joined>)
    ensures |g| <= |rows|
  {
    if rows == [] then []
    else (if rows[0].user.id != id then [rows[0]] else []) + WithoutId(rows[1..], id)
  }

  /** `COUNT(c.id)`: the rows with a checkin (c.id is never NULL in a
      matched row). */
  function CountCheckins(g: seq<Joined>): (n: nat)
    ensures n <= |g|
  {
    if g == [] then 0 else (if g[0].checkin.Some? then 1 else 0) + CountCheckins(g[1..])
  }

  /** The set behind `COUNT(DISTINCT c.client_id)`: NULLs are not
      counted. */
  function ClientIds(g: seq<Joined>): (ids: set<int>)
    ensures |ids| <= CountCheckins(g)
  {
    if g == [] then {}
    else (if g[0].checkin.Some? then {g[0].checkin.value.client_id} else {}) + ClientIds(g[1..])
  }

  /** The seconds between check-in and check-out. */
  function Duration(c: Checkin): int
    requires c.checkout_time.Some?
  {
    c.checkout_time.value - c.checkin_time
  }

  /** `(JULIANDAY(c.checkout_time) - JULIANDAY(c.checkin_time)) * 24`,
      NULL for an open visit. */
  function HoursOf(c: Checkin): Option<real>
  {
    if c.checkout_time.Some? then Some(Duration(c) as real / 3600.0) else None
  }

  function HoursTerm(j: Joined): Option<real> {
    if j.checkin.Some? then HoursOf(j.checkin.value) else None
  }

  /** SQL addition inside SUM: NULL terms are skipped. */
  function SumStep(a: Option<real>, b: Option<real>): Option<real> {
    match (a, b)
    case (None, _) => b
    case (Some(_), None) => a
    case (Some(x), Some(y)) => Some(x + y)
  }

  /** `SUM(...)`: NULL when every term is NULL. */
  function SumHours(g: seq<Joined>): Option<real>
  {
    if g == [] then None else SumStep(HoursTerm(g[0]), SumHours(g[1..]))
  }

  /** The result row of one group; `u.id` and `u.name` come from the
      group's first row. */
  function Aggregate(g: seq<Joined>): (r: Row)
    requires g != []
    ensures r.employee_id == g[0].user.id && r.employee_name == g[0].user.name
    ensures 0 <= r.clients_visited <= r.checkins <= |g|
  {
    Row(g[0].user.id, g[0].user.name, CountCheckins(g), |ClientIds(g)|, SumHours(g))
  }

  /** One result row per distinct user id, in the order of first
      occurrence. */
  function GroupByUser(rows: seq<Joined>): (out: seq<Row>)
    ensures |out| <= |rows| && (out == [] <==> rows == [])
    ensures forall i :: 0 <= i < |out| ==> 0 <= out[i].clients_visited <= out[i].checkins
    decreases |rows|
  {
    if rows == [] then []
    else
      var id := rows[0].user.id;
      assert WithoutId(rows, id) == WithoutId(rows[1..], id);
      [Aggregate(WithId(rows, id))] + GroupByUser(WithoutId(rows, id))
  }

  /** The number of `?` in the statement's text. */
  function Placeholders(q: Query): nat {
    1 + |q.conds|
  }

  /** Every placeholder has a parameter and every parameter a placeholder,
      and each slot the statement reads is within them. */
  predicate ParamsBound(q: Query, params: seq<SqlValue>) {
    |params| == Placeholders(q) && q.dateSlot < |params| && SlotsBound(q.conds, params)
  }

  /** The statement run against the tables: a bind error when the
      parameters do not fit the placeholders, an error for an aggregate
      without `GROUP BY`, otherwise the grouped rows of the filtered join. */
  function EvalQuery(db: Tables, q: Query, params: seq<SqlValue>): (r: Result<seq<Row>, QueryError>)
    ensures r == Failure(BindError) <==> !ParamsBound(q, params)
    ensures r == Failure(UngroupedAggregate) <==> ParamsBound(q, params) && !q.groupByUser
    ensures r.Success? <==> ParamsBound(q, params) && q.groupByUser
    ensures r.Success? ==> forall i :: 0 <= i < |r.value| ==> 0 <= r.value[i].clients_visited <= r.value[i].checkins
  {
    if !ParamsBound(q, params) then
      Failure(BindError)
    else if !q.groupByUser then
      Failure(UngroupedAggregate)
    else
      Success(GroupByUser(Where(LeftJoin(db.users, db.checkins, params[q.dateSlot]), q.conds, params)))
  }

  // ----- the report, described directly --------------------------------

  /** JavaScript truthiness of a query-string value: missing and empty
      are false. */
  predicate IsTruthy(p: Option<string>) {
    p.Some? && p.value != ""
  }

  /** A user belongs in the report: a direct report of the caller and,
      when an employee is requested, that employee. */
  predicate Selected(u: User, callerId: int, employeeId: Option<string>) {
    && u.manager_id == Some(callerId)
    && (IsTruthy(employeeId) ==> TextAsInteger(employeeId.value) == Some(u.id))
  }

  function SelectedUsers(users: seq<User>, callerId: int, employeeId: Option<string>): (sel: seq<User>)
    ensures forall u :: u in sel <==> u in users && Selected(u, callerId, employeeId)
  {
    if users == [] then []
    else (if Selected(users[0], callerId, employeeId) then [users[0]] else [])
         + SelectedUsers(users[1..], callerId, employeeId)
  }

  /** A checkin of the employee whose check-in falls on the date. */
  predicate OnDay(c: Checkin, employee: int, date: string) {
    c.employee_id == employee && Date(c.checkin_time) == Some(date)
  }

  /** The checkins of one employee whose check-in falls on the date. */
  function SameDayCheckins(cs: seq<Checkin>, employee: int, date: string): seq<Checkin>
  {
    if cs == [] then []
    else (if OnDay(cs[0], employee, date) then [cs[0]] else []) + SameDayCheckins(cs[1..], employee, date)
  }

  function ClientsOf(ms: seq<Checkin>): set<int> {
    set c | c in ms :: c.client_id
  }

  predicate AnyClosed(ms: seq<Checkin>) {
    exists c :: c in ms && c.checkout_time.Some?
  }

  /** The hours of the closed visits among the checkins. */
  function ClosedHours(ms: seq<Checkin>): (h: real)
    ensures !AnyClosed(ms) ==> h == 0.0
  {
    if ms == [] then 0.0
    else (if ms[0].checkout_time.Some? then Duration(ms[0]) as real / 3600.0 else 0.0) + ClosedHours(ms[1..])
  }

  /** The working hours of a day: NULL when no visit is closed. */
  function WorkedHours(ms: seq<Checkin>): Option<real> {
    if AnyClosed(ms) then Some(ClosedHours(ms)) else None
  }

  /** The report row of one user for the date. */
  function ReportRow(u: User, cs: seq<Checkin>, date: string): Row {
    var ms := SameDayCheckins(cs, u.id, date);
    Row(u.id, u.name, |ms|, |ClientsOf(ms)|, WorkedHours(ms))
  }

  function RowsFor(users: seq<User>, cs: seq<Checkin>, date: string): (rows: seq<Row>)
    ensures |rows| == |users|
    ensures forall i :: 0 <= i < |users| ==> rows[i] == ReportRow(users[i], cs, date)
  {
    if users == [] then [] else [ReportRow(users[0], cs, date)] + RowsFor(users[1..], cs, date)
  }

  /** The report: one row per selected user, in table order. */
  function ReportRows(db: Tables, callerId: int, date: string, employeeId: Option<string>): seq<Row> {
    RowsFor(SelectedUsers(db.users, callerId, employeeId), db.checkins, date)
  }

  // ----- the statement computes the report ------------------------------

  lemma {:induction false} JoinedIsSameDay(u: User, cs: seq<Checkin>, date: string)
    ensures JoinedCheckins(u, cs, SqlText(date)) == SameDayCheckins(cs, u.id, date)
  {
    if cs != [] {
      JoinedIsSameDay(u, cs[1..], date);
    }
  }

  lemma ClientsOfCons(ms: seq<Checkin>)
    requires ms != []
    ensures ClientsOf(ms) == {ms[0].client_id} + ClientsOf(ms[1..])
  {
    forall x ensures x in ClientsOf(ms) <==> x in {ms[0].client_id} + ClientsOf(ms[1..]) {
      if x in ClientsOf(ms) {
        var c :| c in ms && c.client_id == x;
        if c != ms[0] {
          assert c in ms[1..];
        }
      }
    }
  }

  lemma AnyClosedCons(ms: seq<Checkin>)
    requires ms != []
    ensures AnyClosed(ms) <==> ms[0].checkout_time.Some? || AnyClosed(ms[1..])
  {
    if AnyClosed(ms) {
      var c :| c in ms && c.checkout_time.Some?;
      if c != ms[0] {
        assert c in ms[1..];
      }
    }
  }

  /** `COUNT(c.id)` over a user's matched rows counts the checkins. */
  lemma {:induction false} CountOfPairs(u: User, ms: seq<Checkin>)
    ensures CountCheckins(Pair(u, ms)) == |ms|
  {
    if ms != [] {
      CountOfPairs(u, ms[1..]);
      assert Pair(u, ms)[1..] == Pair(u, ms[1..]);
    }
  }

  /** `COUNT(DISTINCT c.client_id)` counts the distinct clients. */
  lemma {:induction false} ClientIdsOfPairs(u: User, ms: seq<Checkin>)
    ensures ClientIds(Pair(u, ms)) == ClientsOf(ms)
  {
    if ms != [] {
      ClientIdsOfPairs(u, ms[1..]);
      assert Pair(u, ms)[1..] == Pair(u, ms[1..]);
      ClientsOfCons(ms);
    }
  }

  /** The `SUM` of the hours is the day's worked hours: NULL when no
      visit is closed. */
  lemma {:induction false} HoursOfPairs(u: User, ms: seq<Checkin>)
    ensures SumHours(Pair(u, ms)) == WorkedHours(ms)
  {
    if ms != [] {
      HoursOfPairs(u, ms[1..]);
      assert Pair(u, ms)[1..] == Pair(u, ms[1..]);
      AnyClosedCons(ms);
    }
  }

  /** The aggregates over the rows of a user's matched checkins are the
      count, the distinct clients and the hours of those checkins. */
  lemma AggregatesOfPairs(u: User, ms: seq<Checkin>)
    ensures CountCheckins(Pair(u, ms)) == |ms|
    ensures ClientIds(Pair(u, ms)) == ClientsOf(ms)
    ensures SumHours(Pair(u, ms)) == WorkedHours(ms)
  {
    CountOfPairs(u, ms);
    ClientIdsOfPairs(u, ms);
    HoursOfPairs(u, ms);
  }

  /** One user's group aggregates to that user's report row. */
  lemma AggregateIsReportRow(u: User, cs: seq<Checkin>, date: string)
    ensures Aggregate(LeftJoinUser(u, cs, SqlText(date))) == ReportRow(u, cs, date)
  {
    JoinedIsSameDay(u, cs, date);
    var ms := JoinedCheckins(u, cs, SqlText(date));
    if ms != [] {
      AggregatesOfPairs(u, ms);
    } else {
      var g := [Joined(u, None)];
      assert g[1..] == [];
      assert CountCheckins(g) == 0 && ClientIds(g) == {} && SumHours(g) == None;
      assert ClientsOf(ms) == {};
      assert !AnyClosed(ms);
    }
  }

  function FilterUsers(users: seq<User>, conds: seq<Cond>, params: seq<SqlValue>): (kept: seq<User>)
    requires SlotsBound(conds, params)
    ensures forall u :: u in kept <==> u in users && AllHold(conds, u, params)
  {
    if users == [] then []
    else (if AllHold(conds, users[0], params) then [users[0]] else []) + FilterUsers(users[1..], conds, params)
  }

  lemma {:induction false} WhereConcat(a: seq<Joined>, b: seq<Joined>, conds: seq<Cond>, params: seq<SqlValue>)
    requires SlotsBound(conds, params)
    ensures Where(a + b, conds, params) == Where(a, conds, params) + Where(b, conds, params)
  {
    if a != [] {
      var head := if AllHold(conds, a[0].user, params) then [a[0]] else [];
      assert (a + b)[0] == a[0] && (a + b)[1..] == a[1..] + b;
      calc {
        Where(a + b, conds, params);
        head + Where(a[1..] + b, conds, params);
        { WhereConcat(a[1..], b, conds, params); }
        head + (Where(a[1..], conds, params) + Where(b, conds, params));
        Where(a, conds, params) + Where(b, conds, params);
      }
    } else {
      assert a + b == b;
    }
  }

  lemma {:induction false} WhereOneUser(rows: seq<Joined>, u: User, conds: seq<Cond>, params: seq<SqlValue>)
    requires SlotsBound(conds, params)
    requires forall i :: 0 <= i < |rows| ==> rows[i].user == u
    ensures Where(rows, conds, params) == if AllHold(conds, u, params) then rows else []
  {
    if rows != [] {
      WhereOneUser(rows[1..], u, conds, params);
      assert rows == [rows[0]] + rows[1..];
    }
  }

  /** The WHERE clause reads only the user's columns, so it may be applied
      to the users before the join. */
  lemma {:induction false} WhereBeforeJoin(users: seq<User>, cs: seq<Checkin>, dateParam: SqlValue,
                                           conds: seq<Cond>, params: seq<SqlValue>)
    requires SlotsBound(conds, params)
    ensures Where(LeftJoin(users, cs, dateParam), conds, params)
         == LeftJoin(FilterUsers(users, conds, params), cs, dateParam)
  {
    if users != [] {
      var block := LeftJoinUser(users[0], cs, dateParam);
      WhereConcat(block, LeftJoin(users[1..], cs, dateParam), conds, params);
      WhereOneUser(block, users[0], conds, params);
      WhereBeforeJoin(users[1..], cs, dateParam, conds, params);
      var kept := FilterUsers(users, conds, params);
      var keptTail := FilterUsers(users[1..], conds, params);
      if AllHold(conds, users[0], params) {
        assert kept == [users[0]] + keptTail;
        assert kept[1..] == keptTail;
        assert LeftJoin(kept, cs, dateParam) == block + LeftJoin(keptTail, cs, dateParam);
      } else {
        assert kept == keptTail;
        assert Where(block, conds, params) == [];
      }
    }
  }

  lemma {:induction false} WithIdConcat(a: seq<Joined>, b: seq<Joined>, id: int)
    ensures WithId(a + b, id) == WithId(a, id) + WithId(b, id)
    ensures WithoutId(a + b, id) == WithoutId(a, id) + WithoutId(b, id)
  {
    if a != [] {
      WithIdConcat(a[1..], b, id);
      assert (a + b)[1..] == a[1..] + b;
    } else {
      assert a + b == b;
    }
  }

  lemma {:induction false} WithIdAll(rows: seq<Joined>, id: int)
    requires forall i :: 0 <= i < |rows| ==> rows[i].user.id == id
    ensures WithId(rows, id) == rows && WithoutId(rows, id) == []
  {
    if rows != [] {
      WithIdAll(rows[1..], id);
      assert rows == [rows[0]] + rows[1..];
    }
  }

  lemma {:induction false} WithIdNone(rows: seq<Joined>, id: int)
    requires forall i :: 0 <= i < |rows| ==> rows[i].user.id != id
    ensures WithId(rows, id) == [] && WithoutId(rows, id) == rows
  {
    if rows != [] {
      WithIdNone(rows[1..], id);
      assert rows == [rows[0]] + rows[1..];
    }
  }

  lemma UniqueTail(users: seq<User>)
    requires users != [] && UniqueUserIds(users)
    ensures UniqueUserIds(users[1..])
    ensures forall u :: u in users[1..] ==> u.id != users[0].id
  {
    forall i, j | 0 <= i < j < |users| - 1 ensures users[1..][i].id != users[1..][j].id {
      assert users[1..][i] == users[i + 1] && users[1..][j] == users[j + 1];
    }
  }

  /** Grouping the left join by user id gives back one row per user, in
      table order, when user ids are unique. */
  lemma {:induction false} GroupedJoinIsReport(users: seq<User>, cs: seq<Checkin>, date: string)
    requires UniqueUserIds(users)
    ensures GroupByUser(LeftJoin(users, cs, SqlText(date))) == RowsFor(users, cs, date)
  {
    if users != [] {
      var u := users[0];
      var block := LeftJoinUser(u, cs, SqlText(date));
      var rest := LeftJoin(users[1..], cs, SqlText(date));
      var rows := block + rest;
      assert rows == LeftJoin(users, cs, SqlText(date));
      UniqueTail(users);
      WithIdConcat(block, rest, u.id);
      WithIdAll(block, u.id);
      WithIdNone(rest, u.id);
      assert rows[0] == block[0];
      assert rows[0].user.id == u.id;
      assert WithId(rows, u.id) == block;
      assert WithoutId(rows, u.id) == rest;
      GroupedJoinIsReport(users[1..], cs, date);
      AggregateIsReportRow(u, cs, date);
      assert RowsFor(users, cs, date) == [ReportRow(u, cs, date)] + RowsFor(users[1..], cs, date);
    }
  }

  lemma {:induction false} FilterIsSelection(users: seq<User>, conds: seq<Cond>, params: seq<SqlValue>,
                                             callerId: int, employeeId: Option<string>)
    requires SlotsBound(conds, params)
    requires forall u :: AllHold(conds, u, params) <==> Selected(u, callerId, employeeId)
    ensures FilterUsers(users, conds, params) == SelectedUsers(users, callerId, employeeId)
  {
    if users != [] {
      FilterIsSelection(users[1..], conds, params, callerId, employeeId);
    }
  }

  lemma {:induction false} SelectionKeepsUniqueIds(users: seq<User>, callerId: int, employeeId: Option<string>)
    requires UniqueUserIds(users)
    ensures UniqueUserIds(SelectedUsers(users, callerId, employeeId))
  {
    if users != [] {
      UniqueTail(users);
      SelectionKeepsUniqueIds(users[1..], callerId, employeeId);
      var tail := SelectedUsers(users[1..], callerId, employeeId);
      var sel := SelectedUsers(users, callerId, employeeId);
      if Selected(users[0], callerId, employeeId) {
        assert sel == [users[0]] + tail;
        forall i, j | 0 <= i < j < |sel| ensures sel[i].id != sel[j].id {
          assert sel[j] == tail[j - 1];
          assert tail[j - 1] in users[1..];
          if i > 0 {
            assert sel[i] == tail[i - 1];
          }
        }
      }
    }
  }

  /** Any grouped statement with bound placeholders whose join tests the
      requested date and whose WHERE clause keeps exactly the selected
      users computes the report. */
  lemma StatementComputesReport(db: Tables, q: Query, params: seq<SqlValue>,
                                callerId: int, date: string, employeeId: Option<string>)
    requires UniqueUserIds(db.users)
    requires |params| == Placeholders(q) && q.dateSlot < |params| && SlotsBound(q.conds, params)
    requires q.groupByUser && params[q.dateSlot] == SqlText(date)
    requires forall u :: AllHold(q.conds, u, params) <==> Selected(u, callerId, employeeId)
    ensures EvalQuery(db, q, params) == Success(ReportRows(db, callerId, date, employeeId))
  {
    WhereBeforeJoin(db.users, db.checkins, SqlText(date), q.conds, params);
    FilterIsSelection(db.users, q.conds, params, callerId, employeeId);
    SelectionKeepsUniqueIds(db.users, callerId, employeeId);
    GroupedJoinIsReport(SelectedUsers(db.users, callerId, employeeId), db.checkins, date);
  }

  // ----- properties of the report ----------------------------------------

  /** Distinct clients never outnumber the checkins they come from. */
  lemma {:induction false} ClientsAtMostCheckins(ms: seq<Checkin>)
    ensures |ClientsOf(ms)| <= |ms|
  {
    if ms != [] {
      ClientsAtMostCheckins(ms[1..]);
      ClientsOfCons(ms);
    }
  }

  /** The hours of two runs of checkins add up. */
  lemma {:induction false} ClosedHoursConcat(a: seq<Checkin>, b: seq<Checkin>)
    ensures ClosedHours(a + b) == ClosedHours(a) + ClosedHours(b)
  {
    if a != [] {
      ClosedHoursConcat(a[1..], b);
      assert (a + b)[1..] == a[1..] + b;
    } else {
      assert [] + b == b;
    }
  }

  /** The hours of a day are NULL exactly when no matched visit is closed,
      and otherwise the sum over the closed ones; an open visit, wherever
      it stands, adds nothing. */
  lemma ClosedHoursSkipsOpen(a: seq<Checkin>, c: Checkin, b: seq<Checkin>)
    requires c.checkout_time.None?
    ensures ClosedHours(a + [c] + b) == ClosedHours(a + b)
    ensures WorkedHours(a + [c] + b) == WorkedHours(a + b)
  {
    assert a + [c] + b == a + ([c] + b);
    assert ([c] + b)[1..] == b;
    ClosedHoursConcat(a, [c] + b);
    ClosedHoursConcat(a, b);
    assert AnyClosed(a + [c] + b) <==> AnyClosed(a + b) by {
      if AnyClosed(a + [c] + b) {
        var d :| d in a + [c] + b && d.checkout_time.Some?;
        assert d in a + b;
      }
      if AnyClosed(a + b) {
        var d :| d in a + b && d.checkout_time.Some?;
        assert d in a + [c] + b;
      }
    }
  }

  /** The counts of one row: the checkins of the day, at least as many as
      the distinct clients among them; no checkin means no client and
      NULL hours, which the response turns into 0. */
  lemma ReportRowCounts(u: User, cs: seq<Checkin>, date: string)
    ensures ReportRow(u, cs, date).employee_id == u.id && ReportRow(u, cs, date).employee_name == u.name
    ensures ReportRow(u, cs, date).checkins == |SameDayCheckins(cs, u.id, date)|
    ensures ReportRow(u, cs, date).clients_visited <= ReportRow(u, cs, date).checkins
    ensures ReportRow(u, cs, date).checkins == 0 ==>
      ReportRow(u, cs, date).clients_visited == 0 && ReportRow(u, cs, date).working_hours == None
    ensures ReportRow(u, cs, date).working_hours.None? <==>
      forall c :: c in SameDayCheckins(cs, u.id, date) ==> c.checkout_time.None?
  {
    var ms := SameDayCheckins(cs, u.id, date);
    ClientsAtMostCheckins(ms);
  }

  /** Every row of the report is the row of a selected user. */
  lemma RowsOfSelectedUsers(db: Tables, callerId: int, date: string, employeeId: Option<string>)
    ensures forall i :: 0 <= i < |ReportRows(db, callerId, date, employeeId)| ==>
      exists u :: u in db.users && Selected(u, callerId, employeeId)
               && ReportRows(db, callerId, date, employeeId)[i] == ReportRow(u, db.checkins, date)
  {
    var sel := SelectedUsers(db.users, callerId, employeeId);
    var rows := ReportRows(db, callerId, date, employeeId);
    forall i | 0 <= i < |rows|
      ensures exists u :: u in db.users && Selected(u, callerId, employeeId) && rows[i] == ReportRow(u, db.checkins, date)
    {
      assert sel[i] in sel;
    }
  }

  /** Every selected user has a row in the report. */
  lemma SelectedUsersHaveRows(db: Tables, callerId: int, date: string, employeeId: Option<string>)
    ensures forall u :: u in db.users && Selected(u, callerId, employeeId) ==>
      exists i :: 0 <= i < |ReportRows(db, callerId, date, employeeId)|
               && ReportRows(db, callerId, date, employeeId)[i] == ReportRow(u, db.checkins, date)
  {
    var sel := SelectedUsers(db.users, callerId, employeeId);
    var rows := ReportRows(db, callerId, date, employeeId);
    forall u | u in db.users && Selected(u, callerId, employeeId)
      ensures exists i :: 0 <= i < |rows| && rows[i] == ReportRow(u, db.checkins, date)
    {
      var i :| 0 <= i < |sel| && sel[i] == u;
      assert rows[i] == ReportRow(u, db.checkins, date);
    }
  }

  /** No two rows of the report share an employee id. */
  lemma RowIdsDistinct(db: Tables, callerId: int, date: string, employeeId: Option<string>)
    requires UniqueUserIds(db.users)
    ensures forall i, j :: 0 <= i < j < |ReportRows(db, callerId, date, employeeId)| ==>
      ReportRows(db, callerId, date, employeeId)[i].employee_id
        != ReportRows(db, callerId, date, employeeId)[j].employee_id
  {
    SelectionKeepsUniqueIds(db.users, callerId, employeeId);
  }

  lemma FirstTwoDistinct(users: seq<User>)
    requires UniqueUserIds(users)
    ensures |users| >= 2 ==> users[0].id != users[1].id
  {
  }

  /** With an employee requested, every selected user has the id the
      parameter stands for. */
  lemma EmployeeFilterIds(users: seq<User>, callerId: int, employeeId: string)
    requires employeeId != ""
    ensures forall i :: 0 <= i < |SelectedUsers(users, callerId, Some(employeeId))| ==>
      Some(SelectedUsers(users, callerId, Some(employeeId))[i].id) == TextAsInteger(employeeId)
  {
    var sel := SelectedUsers(users, callerId, Some(employeeId));
    forall i | 0 <= i < |sel| ensures Some(sel[i].id) == TextAsInteger(employeeId) {
      assert sel[i] in sel;
    }
  }

  /** With an employee requested, at most one user is selected. */
  lemma EmployeeFilterAtMostOne(users: seq<User>, callerId: int, employeeId: string)
    requires UniqueUserIds(users) && employeeId != ""
    ensures |SelectedUsers(users, callerId, Some(employeeId))| <= 1
  {
    var sel := SelectedUsers(users, callerId, Some(employeeId));
    EmployeeFilterIds(users, callerId, employeeId);
    SelectionKeepsUniqueIds(users, callerId, Some(employeeId));
    FirstTwoDistinct(sel);
  }

  /** With an employee requested, a user is selected exactly when the
      requested employee is a direct report of the caller. */
  lemma EmployeeFilterPresent(users: seq<User>, callerId: int, employeeId: string)
    requires employeeId != ""
    ensures SelectedUsers(users, callerId, Some(employeeId)) != [] <==>
      exists u :: u in users && u.manager_id == Some(callerId) && TextAsInteger(employeeId) == Some(u.id)
  {
    var sel := SelectedUsers(users, callerId, Some(employeeId));
    if exists u :: u in users && u.manager_id == Some(callerId) && TextAsInteger(employeeId) == Some(u.id) {
      var u :| u in users && u.manager_id == Some(callerId) && TextAsInteger(employeeId) == Some(u.id);
      assert Selected(u, callerId, Some(employeeId));
      assert u in sel;
    }
    if sel != [] {
      assert sel[0] in sel;
    }
  }

  /** With an employee requested, the report holds at most that one
      employee, and holds it exactly when it is a direct report of the
      caller. */
  lemma EmployeeFilterRows(db: Tables, callerId: int, date: string, employeeId: string)
    requires UniqueUserIds(db.users) && employeeId != ""
    ensures |ReportRows(db, callerId, date, Some(employeeId))| <= 1
    ensures forall i :: 0 <= i < |ReportRows(db, callerId, date, Some(employeeId))| ==>
      Some(ReportRows(db, callerId, date, Some(employeeId))[i].employee_id) == TextAsInteger(employeeId)
    ensures |ReportRows(db, callerId, date, Some(employeeId))| == 1 <==>
      exists u :: u in db.users && u.manager_id == Some(callerId) && TextAsInteger(employeeId) == Some(u.id)
  {
    var sel := SelectedUsers(db.users, callerId, Some(employeeId));
    EmployeeFilterIds(db.users, callerId, employeeId);
    EmployeeFilterAtMostOne(db.users, callerId, employeeId);
    EmployeeFilterPresent(db.users, callerId, employeeId);
    var rows := RowsFor(sel, db.checkins, date);
    forall i | 0 <= i < |rows| ensures rows[i].employee_id == sel[i].id {
    }
  }

  /** The checkins of the day are the table's checkins of that employee
      whose check-in date is the requested one. */
  lemma {:induction false} SameDayCheckinsMembers(cs: seq<Checkin>, employee: int, date: string)
    ensures forall c :: c in SameDayCheckins(cs, employee, date) <==>
      c in cs && c.employee_id == employee && Date(c.checkin_time) == Some(date)
  {
    if cs != [] {
      SameDayCheckinsMembers(cs[1..], employee, date);
      assert cs == [cs[0]] + cs[1..];
    }
  }

  lemma {:induction false} SameDayConcat(a: seq<Checkin>, b: seq<Checkin>, employee: int, date: string)
    ensures SameDayCheckins(a + b, employee, date) == SameDayCheckins(a, employee, date) + SameDayCheckins(b, employee, date)
  {
    if a != [] {
      SameDayConcat(a[1..], b, employee, date);
      assert (a + b)[1..] == a[1..] + b;
      assert (a + b)[0] == a[0];
      var head := if OnDay(a[0], employee, date) then [a[0]] else [];
      assert SameDayCheckins(a + b, employee, date) == head + SameDayCheckins(a[1..] + b, employee, date);
      assert SameDayCheckins(a, employee, date) == head + SameDayCheckins(a[1..], employee, date);
    } else {
      assert a + b == b;
    }
  }

  lemma OtherCheckinIgnoredInRow(u: User, a: seq<Checkin>, c: Checkin, b: seq<Checkin>, date: string)
    requires !OnDay(c, u.id, date)
    ensures ReportRow(u, a + [c] + b, date) == ReportRow(u, a + b, date)
  {
    SameDayConcat(a + [c], b, u.id, date);
    SameDayConcat(a, [c], u.id, date);
    SameDayConcat(a, b, u.id, date);
    assert [c][1..] == [];
    assert SameDayCheckins([c], u.id, date) == [];
    assert SameDayCheckins(a + [c] + b, u.id, date) == SameDayCheckins(a + b, u.id, date);
  }

  /** A checkin on another day, or of an employee outside the report,
      changes nothing in the report. */
  lemma OtherCheckinIgnored(users: seq<User>, a: seq<Checkin>, c: Checkin, b: seq<Checkin>,
                            callerId: int, date: string, employeeId: Option<string>)
    requires Date(c.checkin_time) != Some(date)
          || forall u :: u in users && Selected(u, callerId, employeeId) ==> u.id != c.employee_id
    ensures ReportRows(Tables(users, a + [c] + b), callerId, date, employeeId)
         == ReportRows(Tables(users, a + b), callerId, date, employeeId)
  {
    var sel := SelectedUsers(users, callerId, employeeId);
    var with := RowsFor(sel, a + [c] + b, date);
    var without := RowsFor(sel, a + b, date);
    forall i | 0 <= i < |sel| ensures with[i] == without[i] {
      assert sel[i] in sel;
      OtherCheckinIgnoredInRow(sel[i], a, c, b, date);
    }
    assert with == without;
  }

  /** No checkin falls on a date-shaped string that is not a day of the
      calendar. */
  lemma {:induction false} NoCheckinsOnNonDate(cs: seq<Checkin>, employee: int, date: string)
    requires HasDateShape(date) && !IsCalendarDate(date)
    ensures SameDayCheckins(cs, employee, date) == []
  {
    if cs != [] {
      NonCalendarDateIsNoDate(date, cs[0].checkin_time);
      NoCheckinsOnNonDate(cs[1..], employee, date);
    }
  }

  /** A user without checkins on the date gets a row of zeroes and NULL
      hours. */
  lemma IdleRow(u: User, cs: seq<Checkin>, date: string)
    requires SameDayCheckins(cs, u.id, date) == []
    ensures ReportRow(u, cs, date) == Row(u.id, u.name, 0, 0, None)
  {
    assert ClientsOf([]) == {};
    assert !AnyClosed([]);
  }

  /** On a date of the right shape that names no day, every selected user
      gets a row and every row is idle. */
  lemma IdleRowsOnNonDate(db: Tables, callerId: int, date: string, employeeId: Option<string>)
    requires HasDateShape(date) && !IsCalendarDate(date)
    ensures |ReportRows(db, callerId, date, employeeId)| == |SelectedUsers(db.users, callerId, employeeId)|
    ensures forall i :: 0 <= i < |ReportRows(db, callerId, date, employeeId)| ==>
      var row := ReportRows(db, callerId, date, employeeId)[i];
      row.checkins == 0 && row.clients_visited == 0 && row.working_hours == None
  {
    var sel := SelectedUsers(db.users, callerId, employeeId);
    var rows := ReportRows(db, callerId, date, employeeId);
    forall i | 0 <= i < |rows|
      ensures rows[i].checkins == 0 && rows[i].clients_visited == 0 && rows[i].working_hours == None
    {
      NoCheckinsOnNonDate(db.checkins, sel[i].id, date);
      IdleRow(sel[i], db.checkins, date);
    }
  }
}
