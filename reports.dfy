/** The `GET /daily-summary` handler: validate the date, build the
    statement and its parameters, run it, and shape the rows into the
    response. The authenticated caller's id comes from the authentication
    layer and is an input here. */
module Reports {
  import opened Wrappers
  import opened DateShape
  import opened SqlDate
  import opened Schema
  import opened DailyQuery
  import opened Summary

  const ValidationMessage: string := "Valid date (YYYY-MM-DD) is required"
  const FailureMessage: string := "Failed to generate daily summary"

  /** The handler's three outcomes: status 200 with the report, 400 with
      the validation message, 500 with the failure message. */
  datatype Response =
    | Ok(data: DailyReport)
    | BadRequest(message: string)
    | ServerError(message: string)

  /** A statement sent to the database with its parameters. */
  datatype Statement = Statement(query: Query, params: seq<SqlValue>)

  /** The database handle. `failing` tells whether the engine fails the
      next statement for a reason the model does not otherwise capture;
      `log` records every statement sent. */
  class Pool {
    const db: Tables
    const failing: bool
    var log: seq<Statement>

    /** `users.id` is the primary key. */
    predicate Valid()
      reads this
    {
      UniqueUserIds(db.users)
    }

    constructor (db: Tables, failing: bool)
      ensures this.db == db && this.failing == failing && log == []
      ensures UniqueUserIds(db.users) ==> Valid()
    {
      this.db := db;
      this.failing := failing;
      log := [];
    }

    /** `pool.execute(query, params)` for a SELECT: the rows, or the
      error the promise rejects with. */
    method Execute(q: Query, params: seq<SqlValue>) returns (r: Result<seq<Row>, QueryError>)
      modifies this
      ensures log == old(log) + [Statement(q, params)]
      ensures r == if failing then Failure(StorageFault) else EvalQuery(db, q, params)
    {
      log := log + [Statement(q, params)];
      if failing {
        r := Failure(StorageFault);
      } else {
        r := EvalQuery(db, q, params);
      }
    }
  }

  /** The statement the handler sends: the join's date test on the first
      placeholder, `u.manager_id = ?` on the second, `u.id = ?` on a third
      when an employee is requested, and `GROUP BY u.id`; the parameters
      in placeholder order. */
  function DailySummaryStatement(date: string, callerId: int, employeeId: Option<string>): Statement {
    var filter := if IsTruthy(employeeId) then [UserIdIs(2)] else [];
    var extra := if IsTruthy(employeeId) then [SqlText(employeeId.value)] else [];
    Statement(Query(0, [ManagerIdIs(1)] + filter, true), [SqlText(date), SqlInt(callerId)] + extra)
  }

  /** Whatever the tables, the statement is bound, grouped, and computes
      the report. */
  lemma DailySummaryStatementComputesReport(db: Tables, date: string, callerId: int, employeeId: Option<string>)
    requires UniqueUserIds(db.users)
    ensures var s := DailySummaryStatement(date, callerId, employeeId);
      && s.query.groupByUser
      && |s.params| == Placeholders(s.query) == (if IsTruthy(employeeId) then 3 else 2)
      && EvalQuery(db, s.query, s.params) == Success(ReportRows(db, callerId, date, employeeId))
  {
    var s := DailySummaryStatement(date, callerId, employeeId);
    var q, params := s.query, s.params;
    assert forall u :: AllHold(q.conds, u, params) <==> Selected(u, callerId, employeeId) by {
      forall u ensures AllHold(q.conds, u, params) <==> Selected(u, callerId, employeeId) {
        assert CondHolds(q.conds[0], u, params) <==> u.manager_id == Some(callerId);
        if IsTruthy(employeeId) {
          assert CondHolds(q.conds[1], u, params) <==> TextAsInteger(employeeId.value) == Some(u.id);
        }
      }
    }
    StatementComputesReport(db, q, params, callerId, date, employeeId);
  }

  /** The statement and its parameters, built as the handler builds them:
      the base text with the date and the caller, then ` AND u.id = ?`
      with the employee when one is requested, then ` GROUP BY u.id`. */
  method BuildDailySummaryQuery(date: string, callerId: int, employeeId: Option<string>)
    returns (q: Query, params: seq<SqlValue>)
    ensures Statement(q, params) == DailySummaryStatement(date, callerId, employeeId)
    ensures q.groupByUser && |params| == Placeholders(q) == if IsTruthy(employeeId) then 3 else 2
    ensures params[0] == SqlText(date) && params[1] == SqlInt(callerId)
    ensures IsTruthy(employeeId) ==> params[2] == SqlText(employeeId.value)
    ensures forall db: Tables :: UniqueUserIds(db.users) ==>
      EvalQuery(db, q, params) == Success(ReportRows(db, callerId, date, employeeId))
  {
    q := Query(0, [ManagerIdIs(1)], false);
    params := [SqlText(date), SqlInt(callerId)];
    if IsTruthy(employeeId) {
      q := q.(conds := q.conds + [UserIdIs(Placeholders(q))]);
      params := params + [SqlText(employeeId.value)];
    }
    q := q.(groupByUser := true);
    assert Statement(q, params) == DailySummaryStatement(date, callerId, employeeId);
    forall db: Tables | UniqueUserIds(db.users)
      ensures EvalQuery(db, q, params) == Success(ReportRows(db, callerId, date, employeeId))
    {
      DailySummaryStatementComputesReport(db, date, callerId, employeeId);
    }
  }

  /** The response the handler gives, stated over the report rows. */
  function DailySummaryResponse(db: Tables, failing: bool, callerId: int,
                                date: Option<string>, employeeId: Option<string>): (r: Response)
    ensures r.Ok? <==> IsValidDateParam(date) && !failing
    ensures r.Ok? ==> date == Some(r.data.date)
    ensures r.Ok? ==>
      |r.data.employees| == r.data.team_summary.total_employees == |SelectedUsers(db.users, callerId, employeeId)|
  {
    if !IsValidDateParam(date) then BadRequest(ValidationMessage)
    else if failing then ServerError(FailureMessage)
    else Ok(ShapeReport(date.value, ReportRows(db, callerId, date.value, employeeId)))
  }

  /** The handler. A malformed date is turned away before any statement
      is sent; otherwise exactly one statement is sent, and a failure of
      it gives the fixed failure message. */
  method DailySummary(pool: Pool, callerId: int, date: Option<string>, employeeId: Option<string>)
    returns (resp: Response)
    requires pool.Valid()
    modifies pool
    ensures resp == DailySummaryResponse(pool.db, pool.failing, callerId, date, employeeId)
    ensures !IsValidDateParam(date) ==> pool.log == old(pool.log)
    ensures IsValidDateParam(date) ==>
      pool.log == old(pool.log) + [DailySummaryStatement(date.value, callerId, employeeId)]
  {
    if date.None? || date.value == "" || !MatchesDateRegex(date.value) {
      return BadRequest(ValidationMessage);
    }
    var q, params := BuildDailySummaryQuery(date.value, callerId, employeeId);
    var result := pool.Execute(q, params);
    match result
    case Failure(_) =>
      resp := ServerError(FailureMessage);
    case Success(rows) =>
      resp := Ok(ShapeReport(date.value, rows));
  }

  // ----- properties of the response --------------------------------------

  /** The handler answers with the validation message exactly when the
      date is missing or not of date shape, and with the failure message
      exactly when the shape is right and the statement fails. */
  lemma ResponseKinds(db: Tables, failing: bool, callerId: int, date: Option<string>, employeeId: Option<string>)
    ensures DailySummaryResponse(db, failing, callerId, date, employeeId).BadRequest? <==>
      !(date.Some? && HasDateShape(date.value))
    ensures DailySummaryResponse(db, failing, callerId, date, employeeId).ServerError? <==>
      date.Some? && HasDateShape(date.value) && failing
    ensures DailySummaryResponse(db, failing, callerId, date, employeeId).BadRequest? ==>
      DailySummaryResponse(db, failing, callerId, date, employeeId).message == ValidationMessage
    ensures DailySummaryResponse(db, failing, callerId, date, employeeId).ServerError? ==>
      DailySummaryResponse(db, failing, callerId, date, employeeId).message == FailureMessage
  {
    ValidDateParamIsShape(date);
  }

  /** A successful report carries the requested date and one entry per
      direct report of the caller (restricted to the requested employee),
      each with no more clients than checkins; no two entries share an
      employee id; and the team summary is the totals of the entries. */
  lemma SuccessfulReport(db: Tables, callerId: int, date: string, employeeId: Option<string>)
    requires UniqueUserIds(db.users) && HasDateShape(date)
    ensures DailySummaryResponse(db, false, callerId, Some(date), employeeId).Ok?
    ensures var report := DailySummaryResponse(db, false, callerId, Some(date), employeeId).data;
      var sel := SelectedUsers(db.users, callerId, employeeId);
      && report.date == date
      && |report.employees| == |sel| == report.team_summary.total_employees
      && (forall i :: 0 <= i < |sel| ==> report.employees[i] == ToEmployee(ReportRow(sel[i], db.checkins, date)))
      && (forall i :: 0 <= i < |sel| ==> 0 <= report.employees[i].clients_visited <= report.employees[i].checkins)
      && (forall i, j :: 0 <= i < j < |sel| ==> report.employees[i].employee_id != report.employees[j].employee_id)
      && report.team_summary == Totals(report.employees)
      && 0 <= report.team_summary.total_clients_visited <= report.team_summary.total_checkins
  {
    ValidDateParamIsShape(Some(date));
    var rows := ReportRows(db, callerId, date, employeeId);
    var report := ShapeReport(date, rows);
    assert DailySummaryResponse(db, false, callerId, Some(date), employeeId) == Ok(report);
    ReportIsConsistent(date, rows);
    EntriesOfReport(db, callerId, date, employeeId);
    TotalsBounds(report.employees);
  }

  /** The entries of the report, one per selected user in order. */
  lemma EntriesOfReport(db: Tables, callerId: int, date: string, employeeId: Option<string>)
    requires UniqueUserIds(db.users)
    ensures var es := Employees(ReportRows(db, callerId, date, employeeId));
      var sel := SelectedUsers(db.users, callerId, employeeId);
      && |es| == |sel|
      && (forall i :: 0 <= i < |sel| ==> es[i] == ToEmployee(ReportRow(sel[i], db.checkins, date)))
      && (forall i :: 0 <= i < |sel| ==> 0 <= es[i].clients_visited <= es[i].checkins)
      && (forall i, j :: 0 <= i < j < |sel| ==> es[i].employee_id != es[j].employee_id)
  {
    var rows := ReportRows(db, callerId, date, employeeId);
    var es := Employees(rows);
    var sel := SelectedUsers(db.users, callerId, employeeId);
    RowIdsDistinct(db, callerId, date, employeeId);
    forall i | 0 <= i < |sel| ensures 0 <= es[i].clients_visited <= es[i].checkins {
      ClientsAtMostCheckins(SameDayCheckins(db.checkins, sel[i].id, date));
    }
    forall i, j | 0 <= i < j < |sel| ensures es[i].employee_id != es[j].employee_id {
      assert es[i].employee_id == rows[i].employee_id && es[j].employee_id == rows[j].employee_id;
    }
  }

  /** The hours of an entry are the summed durations of the user's closed
      visits of the day; a user without a closed visit gets 0, not NULL. */
  lemma EntryHours(u: User, cs: seq<Checkin>, date: string)
    ensures ToEmployee(ReportRow(u, cs, date)).working_hours == ClosedHours(SameDayCheckins(cs, u.id, date))
    ensures (forall c :: c in SameDayCheckins(cs, u.id, date) ==> c.checkout_time.None?) ==>
      ToEmployee(ReportRow(u, cs, date)).working_hours == 0.0
  {
    ReportRowCounts(u, cs, date);
  }

  /** A date of the right shape that is not a day of the calendar, such as
      `2024-13-40`, passes validation and yields every direct report with
      no checkins, no clients and no hours. */
  lemma NonCalendarDateReportsNothing(db: Tables, callerId: int, date: string, employeeId: Option<string>)
    requires HasDateShape(date) && !IsCalendarDate(date)
    ensures DailySummaryResponse(db, false, callerId, Some(date), employeeId).Ok?
    ensures var report := DailySummaryResponse(db, false, callerId, Some(date), employeeId).data;
      && |report.employees| == |SelectedUsers(db.users, callerId, employeeId)|
      && (forall i :: 0 <= i < |report.employees| ==>
            report.employees[i].checkins == 0 && report.employees[i].clients_visited == 0
            && report.employees[i].working_hours == 0.0)
      && report.team_summary == TeamSummary(|report.employees|, 0, 0.0, 0)
  {
    ValidDateParamIsShape(Some(date));
    var rows := ReportRows(db, callerId, date, employeeId);
    IdleRowsOnNonDate(db, callerId, date, employeeId);
    var report := ShapeReport(date, rows);
    TotalsOfIdle(report.employees);
  }

  /** `2024-13-40` is such a date. */
  lemma ThirteenthMonthReportsNothing(db: Tables, callerId: int)
    ensures DailySummaryResponse(db, false, callerId, Some("2024-13-40"), None).Ok?
    ensures DailySummaryResponse(db, false, callerId, Some("2024-13-40"), None).data.team_summary
         == TeamSummary(|SelectedUsers(db.users, callerId, None)|, 0, 0.0, 0)
  {
    CalendarInvalidDatePasses();
    ValidDateParamIsShape(Some("2024-13-40"));
    CalendarDateExamples();
    NonCalendarDateReportsNothing(db, callerId, "2024-13-40", None);
  }
}
