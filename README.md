# Daily summary report: a Dafny model

This project models the manager-facing `GET /daily-summary` handler of a
field-visit tracking backend. The handler takes a `date` and an optional
`employee_id` from the query string. It checks that the date has the shape
`YYYY-MM-DD`. It then builds one SQL statement step by step: a LEFT JOIN of
`users` to that day's `checkins`, restricted to the caller's direct reports,
optionally narrowed to one employee, and grouped by user. It runs the
statement and shapes the rows into a response with per-employee entries and
team totals.

The model has these modules:

- `DateShape` (`date_shape.dfy`): the regular expression `^\d{4}-\d{2}-\d{2}$`
  as an anchored pattern matcher. A positional reference definition
  (`HasDateShape`) is proved equal to it.
- `SqlDate` (`sql_date.dfy`): the engine's `DATE()` of a timestamp (seconds
  since 1970-01-01 UTC). It is a days-to-civil-date computation, formatted
  `YYYY-MM-DD`, and NULL outside the years 0000 to 9999. Every non-NULL result
  is proved to be a real calendar day.
- `Schema` (`schema.dfy`): the `users` and `checkins` records.
- `DailyQuery` (`daily_query.dfy`):
  - the statement as a small syntax tree with numbered placeholders;
  - SQL evaluation written out: LEFT JOIN with its ON condition, WHERE,
    GROUP BY, `COUNT`, `COUNT(DISTINCT ...)`, and a NULL-skipping `SUM`;
  - a direct reference definition of the report (`ReportRows`): one row per
    selected user, with that user's checkins of the day;
  - the proof that the statement computes exactly that reference.
- `Summary` (`summary.dfy`): the `rows.reduce(...)` totals, the `rows.map(...)`
  entries, the empty-result branch, and the `|| 0` defaults.
- `Reports` (`reports.dfy`):
  - a `Pool` class holding the database, a failure flag and the log of
    statements sent;
  - the imperative statement builder (`query +=`, `params.push`);
  - the handler method, each proved against a specification function
    `DailySummaryResponse`;
  - lemmas about the responses.
- `Scenario` (`scenario.dfy`): a worked team day, computed end to end.

Two facts about the code that the proofs make explicit:

- The date test sits in the ON clause of the LEFT JOIN, not in WHERE. So a
  direct report with no checkins that day still gets a row: zero checkins,
  zero clients, and NULL hours that the response turns into 0. See
  `DailyQuery.SelectedUsersHaveRows` and `DailyQuery.IdleRow`.
- The date check tests only the shape. A string such as `2024-13-40` passes
  it, matches no checkin, and gives a report of all direct reports with zero
  counts and zero totals. See `DateShape.CalendarInvalidDatePasses` and
  `Reports.NonCalendarDateReportsNothing`.

## Model

| member | source | states |
|---|---|---|
| DateShape.RegexIsDateShape | backend/routes/reports.js:12 | a string matches `^\d{4}-\d{2}-\d{2}$` exactly when it has ten characters, `-` at positions 4 and 7, and decimal digits elsewhere |
| DateShape.ValidDateParamIsShape | backend/routes/reports.js:12 | the date check passes exactly when the parameter is present and has that shape (an empty string never does) |
| DateShape.CalendarInvalidDatePasses | backend/routes/reports.js:12 | the check is about shape only: `2024-13-40` passes |
| DateShape.MalformedDatesRejected | backend/routes/reports.js:12-17 | a missing date, the empty string, `not-a-date`, `2024-1-15`, and a date followed by a newline are all rejected |
| SqlDate.YearOfEra | backend/routes/reports.js:34 | the year of a 400-year era and the day within a March-based year are in range; day 365 occurs only in a leap year |
| SqlDate.MonthOfYear | backend/routes/reports.js:34 | the month and day of a March-based day of year are a month 1..12 and a day that fits that month |
| SqlDate.LeapYearPeriodic | backend/routes/reports.js:34 | the Gregorian leap-year rule repeats every 400 years |
| SqlDate.CivilFromDays | backend/routes/reports.js:34 | the civil date of a day number has a month 1..12 and a day within that month of that year |
| SqlDate.Format | backend/routes/reports.js:34 | the formatted date has the `YYYY-MM-DD` shape and its fields are the zero-padded year, month and day |
| SqlDate.Date | backend/routes/reports.js:34 | a non-NULL `DATE(checkin_time)` has the `YYYY-MM-DD` shape the handler checks for |
| SqlDate.DateIsCalendarDate | backend/routes/reports.js:34 | every non-NULL `DATE(checkin_time)` has the shape the handler accepts and names a real calendar day |
| SqlDate.NonCalendarDateIsNoDate | backend/routes/reports.js:34 | a date-shaped string that is no calendar day equals no checkin's date |
| SqlDate.CalendarDateExamples | backend/routes/reports.js:34 | `2024-13-40` and `2023-02-29` are not calendar days; `2024-02-29` is |
| DailyQuery.JoinedCheckins | backend/routes/reports.js:32-34 | a checkin joins a user exactly when it is that user's and its date equals the date parameter |
| DailyQuery.LeftJoinUser | backend/routes/reports.js:31-34 | a user's join rows are never empty (NULL-extended when nothing matches) and all carry that user |
| DailyQuery.LeftJoin | backend/routes/reports.js:31-34 | every join row carries a user of the table |
| DailyQuery.SelectedUsers | backend/routes/reports.js:35-43 | a user is selected exactly when it reports to the caller and, when an employee is requested, has that id |
| DailyQuery.JoinedIsSameDay | backend/routes/reports.js:32-34 | the ON condition keeps exactly the user's checkins of the day |
| DailyQuery.CountOfPairs | backend/routes/reports.js:23 | `COUNT(c.id)` over a user's matched rows is the number of matched checkins |
| DailyQuery.ClientIdsOfPairs | backend/routes/reports.js:24 | `COUNT(DISTINCT c.client_id)` counts the set of clients of the matched checkins |
| DailyQuery.HoursOfPairs | backend/routes/reports.js:25-30 | the `SUM` of the hours is NULL when no matched visit is closed, and otherwise the sum over the closed visits |
| DailyQuery.Aggregate | backend/routes/reports.js:20-30 | a group's row has the id and name of the group's user; its distinct clients are at most its checkins, which are at most the group's rows |
| DailyQuery.AggregatesOfPairs | backend/routes/reports.js:23-30 | the three aggregates together |
| DailyQuery.AggregateIsReportRow | backend/routes/reports.js:20-35 | the aggregate of one user's group is that user's reference row, including the NULL-extended case |
| DailyQuery.Where | backend/routes/reports.js:35 | every row WHERE keeps satisfies all the conditions for its user |
| DailyQuery.WhereConcat | backend/routes/reports.js:35 | WHERE distributes over concatenated row sequences |
| DailyQuery.WhereOneUser | backend/routes/reports.js:35-41 | WHERE keeps all or none of one user's join rows |
| DailyQuery.WhereBeforeJoin | backend/routes/reports.js:31-35 | filtering the joined rows equals joining the filtered users |
| DailyQuery.WithIdConcat | backend/routes/reports.js:45 | taking the rows of one id distributes over concatenation |
| DailyQuery.GroupByUser | backend/routes/reports.js:45 | grouping gives no more rows than it is given, and none exactly when it is given none; in each row the distinct clients are at most the checkins |
| DailyQuery.GroupedJoinIsReport | backend/routes/reports.js:31-45 | `GROUP BY u.id` over the left join gives one row per user, the user's reference row, when ids are unique |
| DailyQuery.FilterIsSelection | backend/routes/reports.js:35-43 | the WHERE clause keeps exactly the selected users |
| DailyQuery.SelectionKeepsUniqueIds | backend/routes/reports.js:35 | the selected users still have distinct ids |
| DailyQuery.EvalQuery | backend/routes/reports.js:19-45 | running a statement gives a bind error exactly when the parameters do not fit its placeholders; it gives the ungrouped-aggregate error exactly when they fit but there is no `GROUP BY`; otherwise it gives rows, each with clients at most checkins |
| DailyQuery.StatementComputesReport | backend/routes/reports.js:19-45 | any grouped statement with bound placeholders whose ON clause tests the date and whose WHERE clause selects exactly the selected users evaluates to the reference report |
| DailyQuery.ClientsAtMostCheckins | backend/routes/reports.js:23-24 | distinct clients never outnumber the checkins they come from |
| DailyQuery.ClosedHoursConcat | backend/routes/reports.js:26-28 | the hours of two runs of visits add up |
| DailyQuery.ClosedHoursSkipsOpen | backend/routes/reports.js:25-30 | an open visit (no checkout), wherever it stands among the visits, changes neither the summed hours nor whether they are NULL |
| DailyQuery.ReportRowCounts | backend/routes/reports.js:21-30 | a row carries the user's id and name; its count is the number of the user's checkins of the day; clients never exceed it; zero checkins means zero clients and NULL hours; hours are NULL exactly when every matched visit is open |
| DailyQuery.RowsOfSelectedUsers | backend/routes/reports.js:31-45 | every row of the report is the row of a direct report of the caller (and of the requested employee) |
| DailyQuery.SelectedUsersHaveRows | backend/routes/reports.js:31-45 | every such user has a row, whether or not it has checkins that day |
| DailyQuery.RowIdsDistinct | backend/routes/reports.js:45 | no two rows share an employee id |
| DailyQuery.EmployeeFilterIds | backend/routes/reports.js:40-43 | with an employee requested, every selected user has the id the parameter stands for |
| DailyQuery.EmployeeFilterAtMostOne | backend/routes/reports.js:40-43 | with an employee requested, at most one user is selected |
| DailyQuery.EmployeeFilterPresent | backend/routes/reports.js:40-43 | with an employee requested, a user is selected exactly when the employee is a direct report of the caller |
| DailyQuery.EmployeeFilterRows | backend/routes/reports.js:40-43 | with an employee requested, the report has at most one row, carrying that id, and has one exactly when the employee is a direct report of the caller |
| DailyQuery.SameDayCheckinsMembers | backend/routes/reports.js:32-34 | the checkins of the day are exactly the user's checkins whose date is the requested one |
| DailyQuery.SameDayConcat | backend/routes/reports.js:32-34 | picking the checkins of the day distributes over concatenation |
| DailyQuery.OtherCheckinIgnored | backend/routes/reports.js:32-35 | adding a checkin from another day, or of a user outside the report, changes nothing in the report |
| DailyQuery.NoCheckinsOnNonDate | backend/routes/reports.js:32-34 | on a date-shaped string that is no calendar day, no user has checkins |
| DailyQuery.IdleRow | backend/routes/reports.js:21-30 | a user without checkins of the day gets zero counts and NULL hours |
| DailyQuery.IdleRowsOnNonDate | backend/routes/reports.js:31-35 | on a date-shaped string that is no calendar day, every selected user has a row and every row has zero counts and NULL hours |
| Summary.HoursOrZero | backend/routes/reports.js:69-82 | the `or 0` default turns NULL into 0 and leaves every number as it is |
| Summary.ToEmployee | backend/routes/reports.js:78-84 | an entry copies the row's id, name, checkins and clients; NULL hours become 0 and any other hours stay as they are |
| Summary.Employees | backend/routes/reports.js:78-84 | the entries have the rows' length and order, field for field |
| Summary.TeamSummaryOf | backend/routes/reports.js:66-71 | the three reductions and the row count are the reference totals of the mapped entries |
| Summary.ShapeReport | backend/routes/reports.js:49-86 | the body carries the requested date; its entries are the mapped rows; its team summary is the totals of those entries, in the empty-result branch too |
| Summary.Totals | backend/routes/reports.js:66-67 | the reference totals count one employee per entry |
| Summary.ReduceAddsInt | backend/routes/reports.js:68-70 | a `reduce` with `s + field` from 0 is the sum of the field |
| Summary.ReduceAddsReal | backend/routes/reports.js:69 | the same for the hours, NULL counted as 0 |
| Summary.TotalsOfEmployees | backend/routes/reports.js:66-84 | the totals of the entries are the row count and the sums of the row fields |
| Summary.ReportIsConsistent | backend/routes/reports.js:49-84 | the team summary is the totals of the entries sent with it; the entries are the mapped rows; the empty-result branch gives what the general branch would |
| Summary.TotalsBounds | backend/routes/reports.js:68-70 | when every entry has no more clients than checkins, so do the totals |
| Summary.TotalsOfIdle | backend/routes/reports.js:66-71 | entries without checkins, clients or hours add up to zero totals |
| Reports.Pool.constructor | backend/config/database.js:6 | a pool over a database, with no statement sent yet; it is valid when the user ids are distinct |
| Reports.Pool.Execute | backend/routes/reports.js:47 | the statement is logged; the result is the storage failure when the pool fails, otherwise the statement's evaluation |
| Reports.DailySummaryStatementComputesReport | backend/routes/reports.js:19-45 | the handler's statement is grouped and takes two placeholders, or three when `employee_id` is truthy; on every database with unique user ids it evaluates to the reference report |
| Reports.BuildDailySummaryQuery | backend/routes/reports.js:19-45 | the statement built step by step is `DailySummaryStatement`; it is grouped; it has two placeholders, or three when `employee_id` is truthy; the parameters are the date, the caller id and, if given, the employee id; on every database with unique user ids it evaluates to the reference report |
| Reports.DailySummaryResponse | backend/routes/reports.js:8-97 | the response is a report exactly when the date is valid and the statement does not fail; a report carries the requested date and one entry per selected user, counted in `total_employees` |
| Reports.DailySummary | backend/routes/reports.js:8-97 | the handler's response is `DailySummaryResponse`; no statement is sent when the date is rejected; otherwise exactly `DailySummaryStatement` for the date, the caller and the employee is appended to the log |
| Reports.ResponseKinds | backend/routes/reports.js:12-96 | the validation message comes exactly when the date is missing or malformed; the failure message comes exactly when a well-formed date meets a failing statement |
| Reports.SuccessfulReport | backend/routes/reports.js:47-86 | a successful report carries the date and one entry per selected user, in order; each entry has no more clients than checkins; the ids are distinct; the totals are the sums of the entries, with clients at most checkins |
| Reports.EntriesOfReport | backend/routes/reports.js:78-84 | the entries are the mapped rows of the selected users, with bounded clients and distinct ids |
| Reports.EntryHours | backend/routes/reports.js:25-82 | an entry's hours are the summed durations of the user's closed visits of the day, and 0 (not NULL) when none is closed |
| Reports.NonCalendarDateReportsNothing | backend/routes/reports.js:12-86 | a date-shaped non-date passes validation and gives every direct report with zero checkins, clients and hours, and zero totals |
| Reports.ThirteenthMonthReportsNothing | backend/routes/reports.js:12-34 | `2024-13-40` gives zero totals over all direct reports |
| Scenario.DatesOfScenario | backend/routes/reports.js:34 | `DATE()` of three concrete check-in times gives 2024-01-15, 2024-01-15 and 2024-01-14 |
| Scenario.TeamRows | backend/routes/reports.js:19-45 | for a manager with two direct reports, a user who is not a direct report, and the manager themself: the rows are the direct report with two visits (2 checkins, 2 clients, 3.5 hours) and the idle direct report (zeroes, NULL hours) |
| Scenario.TeamResponse | backend/routes/reports.js:8-86 | the response for that day is the totals 2, 2, 3.5, 2 and the two entries, the idle one with 0 hours |
| Scenario.ScenarioResponse | backend/routes/reports.js:8-86 | the same with the concrete times for 2024-01-15 |

## Left out

- Authentication and the manager check (`authenticateToken`, `requireManager`) are not part of this model. The caller's id is an input of the handler.
- Express routing, HTTP status codes, JSON serialisation and the `console.log`/`console.error` calls are plumbing. The response is a datatype with the body's fields and messages.
- `ROUND(..., 2)` and the `JULIANDAY` floating-point arithmetic are left out. Hours are exact reals: seconds divided by 3600.
- Timestamps are whole seconds since 1970-01-01 UTC. The stored text form of `checkin_time`, time zones and fractional seconds are left out.
- The database bootstrap in `backend/config/database.js` is left out: dropping and recreating tables, loading seed files. The `execute` helper's dispatch on the statement's first keyword is also left out. The handler always sends a SELECT, so `Pool.Execute` returns rows.
- The frontend page `frontend/src/pages/Reports.jsx` is UI and network code and is left out.
- A query-string value given more than once (an array in Express) is left out. Both parameters are modelled as optional strings.
- DailyQuery.TextAsInteger: comparing the integer `u.id` with the text `employee_id` follows SQLite's numeric affinity only for texts made only of ASCII decimal digits. Any other text (signs, spaces, decimals) is taken to equal no id.
- DailyQuery.EvalQuery: a statement without `GROUP BY` is reported as an error. SQLite's result for an aggregate without grouping is not modelled, because the handler always groups.
- DailyQuery.GroupByUser: SQLite promises no order for grouped rows. The model emits groups in the order of the users table. `ReportRows` fixes that order, and the membership lemmas (`RowsOfSelectedUsers`, `SelectedUsersHaveRows`, `EmployeeFilterRows`) do not depend on it. The entries keep whatever order the rows have (`Summary.Employees`).
- Reports.Pool.Valid: `users.id` is taken to be the primary key (distinct ids). Grouping by `u.id` gives one row per user only under that assumption.
- Reports.Pool.Execute: a failing statement is modelled by the pool's `failing` flag. The causes of the failure are outside the model.
