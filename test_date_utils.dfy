/**
 The literal cases of the date utilities' tests, checked against the model on a
 fragment of the NYSE session calendar. Dates are written as YYYYMMDD integers,
 which order exactly as the dates do.
 */
module TestDateUtils {
  import opened DateUtils

  /** NYSE sessions of early July 2015 (July 3 closed, July 4 a Saturday). */
  const July2015: seq<Date> := [20150701, 20150702, 20150706, 20150707, 20150708, 20150709, 20150710]

  /** NYSE sessions of January 2017 (January 2 and 16 closed): 20 sessions. */
  const January2017: seq<Date> := [
    20170103, 20170104, 20170105, 20170106, 20170109, 20170110, 20170111, 20170112, 20170113,
    20170117, 20170118, 20170119, 20170120, 20170123, 20170124, 20170125, 20170126, 20170127,
    20170130, 20170131]

  /** NYSE sessions of May 2017 (May 29 closed) and the first days of June 2017. */
  const May2017: seq<Date> := [
    20170501, 20170502, 20170503, 20170504, 20170505, 20170508, 20170509, 20170510, 20170511,
    20170512, 20170515, 20170516, 20170517, 20170518, 20170519, 20170522, 20170523, 20170524,
    20170525, 20170526, 20170530, 20170531, 20170601, 20170602]

  /** The calendar the tests run against, as far as they look at it. */
  const Nyse: seq<Date> := July2015 + January2017 + May2017

  /** The sessions the test cases name, at their positions in the fixture. */
  lemma NyseSessionsNamed()
    ensures |Nyse| == 51
    ensures Nyse[1] == 20150702 && Nyse[2] == 20150706
    ensures Nyse[7] == 20170103 && Nyse[15] == 20170113 && Nyse[16] == 20170117 && Nyse[17] == 20170118
    ensures Nyse[21] == 20170124 && Nyse[22] == 20170125 && Nyse[26] == 20170131
    ensures Nyse[27] == 20170501 && Nyse[31] == 20170505 && Nyse[32] == 20170508 && Nyse[41] == 20170519
    ensures Nyse[46] == 20170526 && Nyse[47] == 20170530 && Nyse[49] == 20170601
  {
  }

  /** Two calendars, the second starting after the first ends, make one calendar. */
  lemma CalendarsConcatenate(a: seq<Date>, b: seq<Date>)
    requires IsCalendar(a) && IsCalendar(b)
    requires |a| > 0 && |b| > 0 && a[|a| - 1] < b[0]
    ensures IsCalendar(a + b)
  {
  }

  lemma NyseIsCalendar()
    ensures IsCalendar(Nyse)
  {
    assert IsCalendar(July2015) && IsCalendar(January2017) && IsCalendar(May2017);
    CalendarsConcatenate(July2015, January2017);
    CalendarsConcatenate(July2015 + January2017, May2017);
  }

  // ---------------------------------------------------------------------------
  // test_roll_dates_to_previous_session
  // ---------------------------------------------------------------------------

  /** 2017-05-19 is a trading day: it rolls to itself. */
  lemma RollTradingDay()
    ensures IsCalendar(Nyse) && RollDatesToPreviousSession(Nyse, 20170519).0 == 20170519
  {
    NyseIsCalendar();
    NyseSessionsNamed();
  }

  /** 2015-07-04, a Saturday and a holiday, rolls back to Thursday 2015-07-02. */
  lemma RollWeekendHoliday()
    ensures IsCalendar(Nyse) && RollDatesToPreviousSession(Nyse, 20150704).0 == 20150702
  {
    NyseIsCalendar();
    NyseSessionsNamed();
  }

  /** 2017-01-16, a Monday holiday, rolls back to Friday 2017-01-13. */
  lemma RollWeekdayHoliday()
    ensures IsCalendar(Nyse) && RollDatesToPreviousSession(Nyse, 20170116).0 == 20170113
  {
    NyseIsCalendar();
    NyseSessionsNamed();
  }

  // ---------------------------------------------------------------------------
  // test_compute_date_range_chunks
  // ---------------------------------------------------------------------------

  /** 2017-01-03 to 2017-01-31 spans 20 sessions: positions 7 to 26 of the fixture. */
  lemma JanuaryRangeHasTwentySessions()
    ensures IsCalendar(Nyse)
    ensures 20170103 in Nyse && 20170131 in Nyse
    ensures Position(Nyse, 20170103) == 7 && Position(Nyse, 20170131) == 26
  {
    NyseIsCalendar();
    NyseSessionsNamed();
    PositionOfSession(Nyse, 7);
    PositionOfSession(Nyse, 26);
  }

  lemma ChunksWithoutSize()
    ensures IsCalendar(Nyse)
    ensures ComputeDateRangeChunks(Nyse, 20170103, 20170131, None) == Ok([(20170103, 20170131)])
  {
    JanuaryRangeHasTwentySessions();
  }

  /** With chunks of 10, the range's chunks sit at positions 7..16 and 17..26 of the fixture. */
  lemma ChunksOfTenPositions()
    ensures IsCalendar(Nyse)
    ensures var r := ComputeDateRangeChunks(Nyse, 20170103, 20170131, Some(10));
            r.Ok? && AllSessions(Nyse, r.value) && Positions(Nyse, r.value) == [(7, 16), (17, 26)]
  {
    JanuaryRangeHasTwentySessions();
    var r := ComputeDateRangeChunks(Nyse, 20170103, 20170131, Some(10));
    ChunkingIsDetermined(Nyse, 20170103, 20170131, 10, r.value);
    assert ChunkBounds(7, 26, 10) == [(7, 16), (17, 26)];
  }

  lemma ChunksOfTen()
    ensures IsCalendar(Nyse)
    ensures ComputeDateRangeChunks(Nyse, 20170103, 20170131, Some(10))
         == Ok([(20170103, 20170117), (20170118, 20170131)])
  {
    ChunksOfTenPositions();
    var r := ComputeDateRangeChunks(Nyse, 20170103, 20170131, Some(10));
    assert |r.value| == 2;
    assert r.value[0] == (Nyse[Position(Nyse, r.value[0].0)], Nyse[Position(Nyse, r.value[0].1)]) == (Nyse[7], Nyse[16]);
    assert r.value[1] == (Nyse[Position(Nyse, r.value[1].0)], Nyse[Position(Nyse, r.value[1].1)]) == (Nyse[17], Nyse[26]);
    assert r.value == [(Nyse[7], Nyse[16]), (Nyse[17], Nyse[26])];
    NyseSessionsNamed();
    assert r.value == [(20170103, 20170117), (20170118, 20170131)];
  }

  /** With chunks of 15, the range's chunks sit at positions 7..21 and 22..26 of the fixture. */
  lemma ChunksOfFifteenPositions()
    ensures IsCalendar(Nyse)
    ensures var r := ComputeDateRangeChunks(Nyse, 20170103, 20170131, Some(15));
            r.Ok? && AllSessions(Nyse, r.value) && Positions(Nyse, r.value) == [(7, 21), (22, 26)]
  {
    JanuaryRangeHasTwentySessions();
    var r := ComputeDateRangeChunks(Nyse, 20170103, 20170131, Some(15));
    ChunkingIsDetermined(Nyse, 20170103, 20170131, 15, r.value);
    assert ChunkBounds(7, 26, 15) == [(7, 21), (22, 26)];
  }

  lemma ChunksOfFifteen()
    ensures IsCalendar(Nyse)
    ensures ComputeDateRangeChunks(Nyse, 20170103, 20170131, Some(15))
         == Ok([(20170103, 20170124), (20170125, 20170131)])
  {
    ChunksOfFifteenPositions();
    var r := ComputeDateRangeChunks(Nyse, 20170103, 20170131, Some(15));
    assert |r.value| == 2;
    assert r.value[0] == (Nyse[Position(Nyse, r.value[0].0)], Nyse[Position(Nyse, r.value[0].1)]) == (Nyse[7], Nyse[21]);
    assert r.value[1] == (Nyse[Position(Nyse, r.value[1].0)], Nyse[Position(Nyse, r.value[1].1)]) == (Nyse[22], Nyse[26]);
    assert r.value == [(Nyse[7], Nyse[21]), (Nyse[22], Nyse[26])];
    NyseSessionsNamed();
    assert r.value == [(20170103, 20170124), (20170125, 20170131)];
  }

  // ---------------------------------------------------------------------------
  // test_compute_date_range_chunks_invalid_input
  // ---------------------------------------------------------------------------

  /** Sunday 2017-05-07 as the start date is refused as an unknown start. */
  lemma StartNotFound()
    ensures IsCalendar(Nyse)
    ensures ComputeDateRangeChunks(Nyse, 20170507, 20170601, None) == Err(NotFoundStart(20170507))
  {
    NyseIsCalendar();
    NyseSessionsNamed();
    BetweenSessionsIsNoSession(Nyse, 31, 20170507);
  }

  /** Saturday 2017-05-27 as the end date, after a valid start, is refused as an unknown end. */
  lemma EndNotFound()
    ensures IsCalendar(Nyse)
    ensures ComputeDateRangeChunks(Nyse, 20170501, 20170527, None) == Err(NotFoundEnd(20170527))
  {
    NyseIsCalendar();
    NyseSessionsNamed();
    BetweenSessionsIsNoSession(Nyse, 46, 20170527);
  }

  /** An end of 2017-05-01 before a start of 2017-06-01 is refused, naming both dates. */
  lemma EndBeforeStartRefused()
    ensures IsCalendar(Nyse)
    ensures ComputeDateRangeChunks(Nyse, 20170601, 20170501, None) == Err(EndBeforeStart(20170501, 20170601))
  {
    NyseIsCalendar();
    NyseSessionsNamed();
  }
}
