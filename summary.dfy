/** Shaping the statement's rows into the response body: the
    `team_summary` reductions and the `employees` mapping, with the
    special case for an empty result. */
module Summary {
  import opened Wrappers
  import opened DailyQuery

  /** One entry of `employees`. */
  datatype EmployeeSummary = EmployeeSummary(
    employee_id: int,
    name: string,
    checkins: int,
    working_hours: real,
    clients_visited: int)

  datatype TeamSummary = TeamSummary(
    total_employees: int,
    total_checkins: int,
    total_working_hours: real,
    total_clients_visited: int)

  /** The `data` object of a successful response. */
  datatype DailyReport = DailyReport(date: string, team_summary: TeamSummary, employees: seq<EmployeeSummary>)

  /** `Array.prototype.reduce` with an initial value: a left fold. */
  function Reduce<T, A>(f: (A, T) -> A, init: A, xs: seq<T>): A
    decreases |xs|
  {
    if xs == [] then init else Reduce(f, f(init, xs[0]), xs[1..])
  }

  /** `r.working_hours || 0`: NULL and 0 both give 0. */
  function HoursOrZero(h: Option<real>): (r: real)
    ensures r == (if h.Some? then h.value else 0.0)
  {
    if h.Some? && h.value != 0.0 then h.value else 0.0
  }

  /** The mapping of one row to an `employees` entry. */
  function ToEmployee(r: Row): (e: EmployeeSummary)
    ensures e.employee_id == r.employee_id && e.name == r.employee_name
    ensures e.checkins == r.checkins && e.clients_visited == r.clients_visited
    ensures r.working_hours.None? ==> e.working_hours == 0.0
    ensures r.working_hours.Some? ==> e.working_hours == r.working_hours.value
  {
    EmployeeSummary(r.employee_id, r.employee_name, r.checkins, HoursOrZero(r.working_hours), r.clients_visited)
  }

  /** `rows.map(...)`: same length, same order, entry by entry. */
  function Employees(rows: seq<Row>): (es: seq<EmployeeSummary>)
    ensures |es| == |rows|
    ensures forall i :: 0 <= i < |rows| ==> es[i] == ToEmployee(rows[i])
  {
    if rows == [] then [] else [ToEmployee(rows[0])] + Employees(rows[1..])
  }

  /** The reducers `(s, r) => s + r.checkins`,
      `(s, r) => s + (r.working_hours || 0)` and
      `(s, r) => s + r.clients_visited`. */
  function AddCheckins(s: int, r: Row): int { s + r.checkins }
  function AddHours(s: real, r: Row): real { s + HoursOrZero(r.working_hours) }
  function AddClients(s: int, r: Row): int { s + r.clients_visited }

  /** The `team_summary` object of the general branch. */
  function TeamSummaryOf(rows: seq<Row>): (t: TeamSummary)
    ensures t == Totals(Employees(rows))
  {
    ReduceAddsInt(AddCheckins, RowCheckins, 0, rows);
    ReduceAddsReal(AddHours, RowHours, 0.0, rows);
    ReduceAddsInt(AddClients, RowClients, 0, rows);
    TotalsOfEmployees(rows);
    TeamSummary(|rows|, Reduce(AddCheckins, 0, rows), Reduce(AddHours, 0.0, rows), Reduce(AddClients, 0, rows))
  }

  /** The response body for the rows: all zeroes and no entries for an
      empty result, the reductions and the mapping otherwise. */
  function ShapeReport(date: string, rows: seq<Row>): (r: DailyReport)
    ensures r.date == date && r.employees == Employees(rows)
    ensures r.team_summary == Totals(r.employees)
  {
    if |rows| == 0 then
      DailyReport(date, TeamSummary(0, 0, 0.0, 0), [])
    else
      DailyReport(date, TeamSummaryOf(rows), Employees(rows))
  }

  /** The totals of a list of entries, summed from the front: the
      reference against which the reductions are checked. */
  function Totals(es: seq<EmployeeSummary>): (t: TeamSummary)
    ensures t.total_employees == |es|
  {
    if es == [] then TeamSummary(0, 0, 0.0, 0)
    else
      var rest := Totals(es[1..]);
      TeamSummary(
        rest.total_employees + 1,
        es[0].checkins + rest.total_checkins,
        es[0].working_hours + rest.total_working_hours,
        es[0].clients_visited + rest.total_clients_visited)
  }

  /** A fold that adds a per-row quantity to its accumulator adds up that
      quantity over all rows. */
  lemma {:induction false} ReduceAddsInt(f: (int, Row) -> int, g: Row -> int, init: int, rows: seq<Row>)
    requires forall s, r :: f(s, r) == s + g(r)
    ensures Reduce(f, init, rows) == init + SumOf(g, rows)
    decreases |rows|
  {
    if rows != [] {
      ReduceAddsInt(f, g, f(init, rows[0]), rows[1..]);
    }
  }

  lemma {:induction false} ReduceAddsReal(f: (real, Row) -> real, g: Row -> real, init: real, rows: seq<Row>)
    requires forall s, r :: f(s, r) == s + g(r)
    ensures Reduce(f, init, rows) == init + RealSumOf(g, rows)
    decreases |rows|
  {
    if rows != [] {
      ReduceAddsReal(f, g, f(init, rows[0]), rows[1..]);
    }
  }

  function RowCheckins(r: Row): int { r.checkins }
  function RowHours(r: Row): real { HoursOrZero(r.working_hours) }
  function RowClients(r: Row): int { r.clients_visited }

  function SumOf(g: Row -> int, rows: seq<Row>): int {
    if rows == [] then 0 else g(rows[0]) + SumOf(g, rows[1..])
  }

  function RealSumOf(g: Row -> real, rows: seq<Row>): real {
    if rows == [] then 0.0 else g(rows[0]) + RealSumOf(g, rows[1..])
  }

  lemma {:induction false} TotalsOfEmployees(rows: seq<Row>)
    ensures Totals(Employees(rows)) == TeamSummary(
      |rows|,
      SumOf(RowCheckins, rows),
      RealSumOf(RowHours, rows),
      SumOf(RowClients, rows))
  {
    if rows != [] {
      TotalsOfEmployees(rows[1..]);
      assert Employees(rows)[1..] == Employees(rows[1..]);
    }
  }

  /** The team summary is the totals of the `employees` list it is sent
      with, and that list has one entry per row, in order, field for
      field; an empty result gives the same body as the general branch
      would. */
  lemma ReportIsConsistent(date: string, rows: seq<Row>)
    ensures ShapeReport(date, rows).team_summary == Totals(ShapeReport(date, rows).employees)
    ensures ShapeReport(date, rows).employees == Employees(rows)
    ensures ShapeReport(date, rows) == DailyReport(date, TeamSummaryOf(rows), Employees(rows))
  {
    ReduceAddsInt(AddCheckins, RowCheckins, 0, rows);
    ReduceAddsReal(AddHours, RowHours, 0.0, rows);
    ReduceAddsInt(AddClients, RowClients, 0, rows);
    TotalsOfEmployees(rows);
  }

  /** Entries with no more clients than checkins add up to totals with no
      more clients than checkins. */
  lemma {:induction false} TotalsBounds(es: seq<EmployeeSummary>)
    requires forall i :: 0 <= i < |es| ==> 0 <= es[i].clients_visited <= es[i].checkins
    ensures 0 <= Totals(es).total_clients_visited <= Totals(es).total_checkins
  {
    if es != [] {
      TotalsBounds(es[1..]);
    }
  }

  /** Entries without checkins, clients or hours add up to zero totals. */
  lemma {:induction false} TotalsOfIdle(es: seq<EmployeeSummary>)
    requires forall i :: 0 <= i < |es| ==>
      es[i].checkins == 0 && es[i].clients_visited == 0 && es[i].working_hours == 0.0
    ensures Totals(es) == TeamSummary(|es|, 0, 0.0, 0)
  {
    if es != [] {
      TotalsOfIdle(es[1..]);
    }
  }
}
