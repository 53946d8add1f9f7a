/** A worked day of a small team: manager 1 with two direct reports, one
    of whom visited two clients on 2024-01-15 while the other only
    worked the day before, and one user who reports to someone else. */
module Scenario {
  import opened Wrappers
  import opened DateShape
  import opened SqlDate
  import opened Schema
  import opened DailyQuery
  import opened Summary
  import opened Reports

  const MorningIn: Timestamp := 1705309200    // 2024-01-15 09:00:00
  const AfternoonIn: Timestamp := 1705323600  // 2024-01-15 13:00:00
  const DayBefore: Timestamp := 1705226400    // 2024-01-14 10:00:00

  /** The team's tables, with A's two visits starting at `morning` and
      `afternoon` and lasting two hours and an hour and a half, B's open
      visit starting at `other`, and C's visit starting with A's first. */
  function Team(morning: Timestamp, afternoon: Timestamp, other: Timestamp): Tables {
    Tables(
      [User(1, "M", None), User(2, "A", Some(1)), User(3, "B", Some(1)), User(4, "C", Some(9))],
      [Checkin(1, 2, 10, morning, Some(morning + 7200)),
       Checkin(2, 2, 11, afternoon, Some(afternoon + 5400)),
       Checkin(3, 3, 10, other, None),
       Checkin(4, 4, 12, morning, Some(morning + 7200))])
  }

  lemma CivilDaysOfScenario()
    ensures CivilFromDays(19737) == CivilDate(2024, 1, 15)
    ensures CivilFromDays(19736) == CivilDate(2024, 1, 14)
  {
    assert 739205 % 146097 == 8720 && 739205 / 146097 == 5;
    assert YearOfEra(8720) == (23, 320);
    assert MonthOfYear(320) == (1, 15);
    assert 739204 % 146097 == 8719 && 739204 / 146097 == 5;
    assert YearOfEra(8719) == (23, 319);
    assert MonthOfYear(319) == (1, 14);
  }

  lemma DateFromCivil(t: Timestamp, c: CivilDate, s: string)
    requires CivilFromDays(t / SecondsPerDay) == c && 0 <= c.year <= 9999
    requires Format(c) == s
    ensures Date(t) == Some(s)
  {
  }

  lemma FormattedFifteenth()
    ensures Format(CivilDate(2024, 1, 15)) == "2024-01-15"
  {
  }

  lemma FormattedFourteenth()
    ensures Format(CivilDate(2024, 1, 14)) == "2024-01-14"
  {
  }

  /** The engine's `DATE` of the scenario's check-in times. */
  lemma DatesOfScenario()
    ensures Date(MorningIn) == Some("2024-01-15")
    ensures Date(AfternoonIn) == Some("2024-01-15")
    ensures Date(DayBefore) == Some("2024-01-14")
  {
    CivilDaysOfScenario();
    FormattedFifteenth();
    FormattedFourteenth();
    assert MorningIn / SecondsPerDay == 19737;
    DateFromCivil(MorningIn, CivilDate(2024, 1, 15), "2024-01-15");
    assert AfternoonIn / SecondsPerDay == 19737;
    DateFromCivil(AfternoonIn, CivilDate(2024, 1, 15), "2024-01-15");
    assert DayBefore / SecondsPerDay == 19736;
    DateFromCivil(DayBefore, CivilDate(2024, 1, 14), "2024-01-14");
  }

  lemma SameDayCons(c: Checkin, rest: seq<Checkin>, employee: int, date: string)
    ensures SameDayCheckins([c] + rest, employee, date)
         == (if OnDay(c, employee, date) then [c] else []) + SameDayCheckins(rest, employee, date)
  {
    assert ([c] + rest)[1..] == rest;
  }

  /** Two closed visits of two and one and a half hours to two clients. */
  lemma RowOfTwoVisits(u: User, cs: seq<Checkin>, day: string, c1: Checkin, c2: Checkin)
    requires SameDayCheckins(cs, u.id, day) == [c1, c2]
    requires c1.client_id != c2.client_id
    requires c1.checkout_time == Some(c1.checkin_time + 7200)
    requires c2.checkout_time == Some(c2.checkin_time + 5400)
    ensures ReportRow(u, cs, day) == Row(u.id, u.name, 2, 2, Some(3.5))
  {
    var ms := [c1, c2];
    assert ClientsOf(ms) == {c1.client_id, c2.client_id} by {
      assert c1 in ms && c2 in ms;
    }
    assert AnyClosed(ms) by {
      assert c1 in ms;
    }
    assert ms[1..] == [c2] && ms[1..][1..] == [];
    assert Duration(c1) == 7200 && Duration(c2) == 5400;
    assert ClosedHours([c2]) == 1.5;
  }

  /** A's visits of the day: the two that start on it. */
  lemma VisitsOfA(day: string, morning: Timestamp, afternoon: Timestamp, other: Timestamp)
    requires Date(morning) == Some(day) && Date(afternoon) == Some(day)
    ensures SameDayCheckins(Team(morning, afternoon, other).checkins, 2, day)
         == [Checkin(1, 2, 10, morning, Some(morning + 7200)), Checkin(2, 2, 11, afternoon, Some(afternoon + 5400))]
  {
    var cs := Team(morning, afternoon, other).checkins;
    assert cs == [cs[0]] + ([cs[1]] + ([cs[2]] + ([cs[3]] + [])));
    SameDayCons(cs[0], [cs[1]] + ([cs[2]] + ([cs[3]] + [])), 2, day);
    SameDayCons(cs[1], [cs[2]] + ([cs[3]] + []), 2, day);
    SameDayCons(cs[2], [cs[3]] + [], 2, day);
    SameDayCons(cs[3], [], 2, day);
  }

  /** A's row: two visits of two and one and a half hours. */
  lemma RowOfA(day: string, morning: Timestamp, afternoon: Timestamp, other: Timestamp)
    requires SameDayCheckins(Team(morning, afternoon, other).checkins, 2, day)
          == [Checkin(1, 2, 10, morning, Some(morning + 7200)), Checkin(2, 2, 11, afternoon, Some(afternoon + 5400))]
    ensures ReportRow(User(2, "A", Some(1)), Team(morning, afternoon, other).checkins, day)
         == Row(2, "A", 2, 2, Some(3.5))
  {
    RowOfTwoVisits(User(2, "A", Some(1)), Team(morning, afternoon, other).checkins, day,
                   Checkin(1, 2, 10, morning, Some(morning + 7200)), Checkin(2, 2, 11, afternoon, Some(afternoon + 5400)));
  }

  /** B's row: its only visit starts on another day. */
  lemma RowOfB(day: string, morning: Timestamp, afternoon: Timestamp, other: Timestamp)
    requires Date(other) != Some(day)
    ensures ReportRow(User(3, "B", Some(1)), Team(morning, afternoon, other).checkins, day)
         == Row(3, "B", 0, 0, None)
  {
    var cs := Team(morning, afternoon, other).checkins;
    assert cs == [cs[0]] + ([cs[1]] + ([cs[2]] + ([cs[3]] + [])));
    SameDayCons(cs[0], [cs[1]] + ([cs[2]] + ([cs[3]] + [])), 3, day);
    SameDayCons(cs[1], [cs[2]] + ([cs[3]] + []), 3, day);
    SameDayCons(cs[2], [cs[3]] + [], 3, day);
    SameDayCons(cs[3], [], 3, day);
    IdleRow(User(3, "B", Some(1)), cs, day);
  }

  /** Manager 1's direct reports, in table order. */
  lemma TeamSelection(morning: Timestamp, afternoon: Timestamp, other: Timestamp)
    ensures SelectedUsers(Team(morning, afternoon, other).users, 1, None)
         == [User(2, "A", Some(1)), User(3, "B", Some(1))]
  {
  }

  lemma RowsOfTwo(a: User, b: User, cs: seq<Checkin>, day: string)
    ensures RowsFor([a, b], cs, day) == [ReportRow(a, cs, day), ReportRow(b, cs, day)]
  {
  }

  /** The rows for a day on which A's two visits start and B's does not:
      both direct reports, the idle one with zero counts and NULL hours;
      the manager and the other team's user are not in it. */
  lemma TeamRows(day: string, morning: Timestamp, afternoon: Timestamp, other: Timestamp)
    requires Date(morning) == Some(day) && Date(afternoon) == Some(day) && Date(other) != Some(day)
    ensures ReportRows(Team(morning, afternoon, other), 1, day, None)
         == [Row(2, "A", 2, 2, Some(3.5)), Row(3, "B", 0, 0, None)]
  {
    var db := Team(morning, afternoon, other);
    var a, b := User(2, "A", Some(1)), User(3, "B", Some(1));
    TeamSelection(morning, afternoon, other);
    VisitsOfA(day, morning, afternoon, other);
    RowOfA(day, morning, afternoon, other);
    RowOfB(day, morning, afternoon, other);
    RowsOfTwo(a, b, db.checkins, day);
  }

  /** The response body for the team's two rows. */
  lemma TeamReport(day: string)
    ensures ShapeReport(day, [Row(2, "A", 2, 2, Some(3.5)), Row(3, "B", 0, 0, None)])
         == DailyReport(day, TeamSummary(2, 2, 3.5, 2),
                        [EmployeeSummary(2, "A", 2, 3.5, 2), EmployeeSummary(3, "B", 0, 0.0, 0)])
  {
    var rows := [Row(2, "A", 2, 2, Some(3.5)), Row(3, "B", 0, 0, None)];
    assert rows[1..] == [Row(3, "B", 0, 0, None)] && rows[1..][1..] == [];
  }

  /** The response to manager 1 asking for a day on which A's two visits
      start and B's does not. */
  lemma TeamResponse(day: string, morning: Timestamp, afternoon: Timestamp, other: Timestamp)
    requires IsValidDateParam(Some(day))
    requires Date(morning) == Some(day) && Date(afternoon) == Some(day) && Date(other) != Some(day)
    ensures DailySummaryResponse(Team(morning, afternoon, other), false, 1, Some(day), None)
         == Ok(DailyReport(day, TeamSummary(2, 2, 3.5, 2),
                           [EmployeeSummary(2, "A", 2, 3.5, 2), EmployeeSummary(3, "B", 0, 0.0, 0)]))
  {
    TeamRows(day, morning, afternoon, other);
    TeamReport(day);
  }

  lemma FifteenthIsValid()
    ensures IsValidDateParam(Some("2024-01-15"))
  {
    ValidDateParamIsShape(Some("2024-01-15"));
  }

  /** The response to manager 1 asking for 2024-01-15. */
  lemma ScenarioResponse()
    ensures DailySummaryResponse(Team(MorningIn, AfternoonIn, DayBefore), false, 1, Some("2024-01-15"), None)
         == Ok(DailyReport("2024-01-15", TeamSummary(2, 2, 3.5, 2),
                           [EmployeeSummary(2, "A", 2, 3.5, 2), EmployeeSummary(3, "B", 0, 0.0, 0)]))
  {
    FifteenthIsValid();
    DatesOfScenario();
    TeamResponse("2024-01-15", MorningIn, AfternoonIn, DayBefore);
  }
}
