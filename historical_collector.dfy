/**
 * The historical collector: the table of season periods, the inclusive
 * date-range filter over fetched events, the request instants (the middle of
 * a period for the events, a time before kick-off for the odds) and the
 * per-period collection loop with its test-mode game limit.
 *
 * Instants are integer microseconds since 1970-01-01T00:00:00Z, the
 * resolution of Python's `datetime`, so `timedelta` arithmetic is exact.
 */
module HistoricalCollector {
  import opened Wrappers
  import opened Text
  import opened Calendar
  import opened Feed
  import opened Seqs
  import Schedule
  import HistoricalProcessor

  const Second: int := 1_000_000
  const Minute: int := 60_000_000
  const Hour: int := 3_600_000_000
  const Day: int := 86_400_000_000
  const Week: int := 604_800_000_000

  /** `timedelta(days=6, hours=23, minutes=59, seconds=59)`: one second short of a week. */
  const WeekSpan: int := 604_799_000_000

  /** `timedelta(hours=23, minutes=59, seconds=59)` */
  const DaySpan: int := 86_399_000_000

  lemma SpansAsWritten()
    ensures Second == MicrosPerSecond && Minute == 60 * Second && Hour == 60 * Minute && Day == 24 * Hour
    ensures Week == 7 * Day
    ensures WeekSpan == 6 * Day + 23 * Hour + 59 * Minute + 59 * Second == Week - Second
    ensures DaySpan == 23 * Hour + 59 * Minute + 59 * Second == Day - Second
  {
  }

  /** `datetime(y, m, d, 0, 0, 0, tzinfo=timezone.utc)` */
  function Midnight(d: Date): int
    requires 1 <= d.month <= 12
  {
    DayNumber(d) * Day
  }

  /** The UTC calendar day (days since the epoch) an instant falls on. */
  function DayOf(t: int): int
  {
    t / Day
  }

  /** `weekday()` of the UTC date of an instant, Monday being 0. */
  function WeekdayAt(t: int): (w: int)
    ensures 0 <= w < 7
  {
    (DayOf(t) + 3) % 7
  }

  /** A named collection period `(name, start_date, end_date)`. */
  datatype Period = Period(name: string, start: int, end: int)

  const SeasonOpener: Date := Date(2024, 9, 5)

  /** Regular-season week `k`: a week from the opener's midnight plus `k - 1` weeks. */
  function RegularWeek(k: int): Period
  {
    var start := Midnight(SeasonOpener) + (k - 1) * Week;
    Period("2024_Week_" + IntToString(k), start, start + WeekSpan)
  }

  /** Weeks 1 to `n` in order. */
  function RegularWeeks(n: nat): seq<Period>
  {
    seq(n, i => RegularWeek(i + 1))
  }

  /** The four playoff rounds and the first week of 2025, as the collector lists them. */
  function Postseason(): seq<Period>
  {
    [ Period("2024_Wild_Card", Midnight(Date(2025, 1, 13)), Midnight(Date(2025, 1, 15)) + DaySpan),
      Period("2024_Divisional", Midnight(Date(2025, 1, 18)), Midnight(Date(2025, 1, 19)) + DaySpan),
      Period("2024_Conference", Midnight(Date(2025, 1, 26)), Midnight(Date(2025, 1, 26)) + DaySpan),
      Period("2024_Super_Bowl", Midnight(Date(2025, 2, 9)), Midnight(Date(2025, 2, 9)) + DaySpan),
      Period("2025_Week_1", Midnight(Date(2025, 9, 4)), Midnight(Date(2025, 9, 4)) + WeekSpan) ]
  }

  /** The value `get_nfl_season_date_ranges` returns. */
  function SeasonTable(): seq<Period>
  {
    RegularWeeks(18) + Postseason()
  }

  /** `get_nfl_season_date_ranges` */
  method SeasonDateRanges() returns (ranges: seq<Period>)
    ensures ranges == SeasonTable()
  {
    ranges := [];
    var seasonStart := Midnight(SeasonOpener);
    var week := 1;
    while week < 19
      invariant 1 <= week <= 19
      invariant ranges == RegularWeeks(week - 1)
    {
      assert RegularWeeks(week) == RegularWeeks(week - 1) + [RegularWeek(week)];
      var weekStart := seasonStart + (week - 1) * Week;
      var weekEnd := weekStart + WeekSpan;
      ranges := ranges + [Period("2024_Week_" + IntToString(week), weekStart, weekEnd)];
      week := week + 1;
    }
    ranges := ranges + [Period("2024_Wild_Card", Midnight(Date(2025, 1, 13)), Midnight(Date(2025, 1, 15)) + DaySpan)];
    ranges := ranges + [Period("2024_Divisional", Midnight(Date(2025, 1, 18)), Midnight(Date(2025, 1, 19)) + DaySpan)];
    ranges := ranges + [Period("2024_Conference", Midnight(Date(2025, 1, 26)), Midnight(Date(2025, 1, 26)) + DaySpan)];
    ranges := ranges + [Period("2024_Super_Bowl", Midnight(Date(2025, 2, 9)), Midnight(Date(2025, 2, 9)) + DaySpan)];
    var season2025Start := Midnight(Date(2025, 9, 4));
    ranges := ranges + [Period("2025_Week_1", season2025Start, season2025Start + WeekSpan)];
  }

  // ---- the table's calendar facts ----

  lemma OpenerDay()
    ensures DayNumber(SeasonOpener) == 19971
  {
    assert MarchFirst(2024) == 739251;
    assert DayOfShiftedYear(9, 5) == 188;
  }

  lemma January2025Days()
    ensures DayNumber(Date(2025, 1, 13)) == 20101 && DayNumber(Date(2025, 1, 15)) == 20103
    ensures DayNumber(Date(2025, 1, 18)) == 20106 && DayNumber(Date(2025, 1, 19)) == 20107
    ensures DayNumber(Date(2025, 1, 26)) == 20114
  {
    assert MarchFirst(2024) == 739251;
    assert DayOfShiftedYear(1, 1) == 306;
  }

  lemma LaterDays2025()
    ensures DayNumber(Date(2025, 2, 9)) == 20128 && DayNumber(Date(2025, 9, 4)) == 20335
  {
    assert MarchFirst(2024) == 739251 && MarchFirst(2025) == 739616;
    assert DayOfShiftedYear(2, 9) == 345 && DayOfShiftedYear(9, 4) == 187;
  }

  /** The postseason periods with their start and end days written out. */
  lemma PostseasonDays()
    ensures |Postseason()| == 5
    ensures Postseason()[0] == Period("2024_Wild_Card", 20101 * Day, 20103 * Day + DaySpan)
    ensures Postseason()[1] == Period("2024_Divisional", 20106 * Day, 20107 * Day + DaySpan)
    ensures Postseason()[2] == Period("2024_Conference", 20114 * Day, 20114 * Day + DaySpan)
    ensures Postseason()[3] == Period("2024_Super_Bowl", 20128 * Day, 20128 * Day + DaySpan)
    ensures Postseason()[4] == Period("2025_Week_1", 20335 * Day, 20335 * Day + WeekSpan)
  {
    January2025Days();
    LaterDays2025();
  }

  /** Week `k` starts at midnight of day 19971 + 7(k - 1), a Thursday, and ends one second before the next week. */
  lemma RegularWeekDays(k: int)
    ensures RegularWeek(k).start == (19971 + 7 * (k - 1)) * Day
    ensures RegularWeek(k).end == RegularWeek(k + 1).start - Second
    ensures RegularWeek(k).name == "2024_Week_" + IntToString(k)
    ensures DayOf(RegularWeek(k).start) == 19971 + 7 * (k - 1)
    ensures WeekdayAt(RegularWeek(k).start) == Schedule.Thursday
  {
    OpenerDay();
    var n := 19971 + 7 * (k - 1);
    assert n * Day / Day == n;
    assert (n + 3) % 7 == ((k - 1) * 7 + 19974) % 7 == 19974 % 7 == Schedule.Thursday;
  }

  /** The table has 23 entries: the 18 regular weeks in order, then the postseason. */
  lemma SeasonTableShape()
    ensures |SeasonTable()| == 23
    ensures forall i :: 0 <= i < 18 ==> SeasonTable()[i] == RegularWeek(i + 1)
    ensures SeasonTable()[18..] == Postseason()
    ensures SeasonTable()[18].name == "2024_Wild_Card" && SeasonTable()[19].name == "2024_Divisional"
    ensures SeasonTable()[20].name == "2024_Conference" && SeasonTable()[21].name == "2024_Super_Bowl"
    ensures SeasonTable()[22].name == "2025_Week_1"
  {
    PostseasonDays();
    assert SeasonTable()[18..] == Postseason();
  }

  /** The regular weeks and the 2025 opener start at UTC midnight of a Thursday. */
  lemma WeeksStartOnThursdayMidnight()
    ensures forall i :: 0 <= i < 18 ==> SeasonTable()[i].start % Day == 0
    ensures forall i :: 0 <= i < 18 ==> WeekdayAt(SeasonTable()[i].start) == Schedule.Thursday
    ensures SeasonTable()[22].start % Day == 0 && WeekdayAt(SeasonTable()[22].start) == Schedule.Thursday
  {
    SeasonTableShape();
    PostseasonDays();
    forall i | 0 <= i < 18
      ensures SeasonTable()[i].start % Day == 0
      ensures WeekdayAt(SeasonTable()[i].start) == Schedule.Thursday
    {
      RegularWeekDays(i + 1);
    }
    assert 20335 * Day / Day == 20335;
  }

  /** Periods that each end after they start, and each end before the next starts. */
  predicate Chained(s: seq<Period>)
  {
    && (forall i :: 0 <= i < |s| ==> s[i].start < s[i].end)
    && (forall i :: 0 <= i < |s| - 1 ==> s[i].end < s[i + 1].start)
  }

  lemma {:induction false} ChainedInOrder(s: seq<Period>, i: int, j: int)
    requires Chained(s) && 0 <= i < j < |s|
    ensures s[i].end < s[j].start
    decreases j - i
  {
    if j > i + 1 {
      ChainedInOrder(s, i, j - 1);
      assert s[j - 1].start < s[j - 1].end;
      assert s[j - 1].end < s[j].start;
    }
  }

  lemma TableChained()
    ensures Chained(SeasonTable())
  {
    var t := SeasonTable();
    SeasonTableShape();
    PostseasonDays();
    forall i | 0 <= i < 18
      ensures t[i].start == (19971 + 7 * i) * Day && t[i].end == t[i].start + WeekSpan
      ensures i < 17 ==> t[i].end < t[i + 1].start
    {
      RegularWeekDays(i + 1);
    }
    assert t[17].end < t[18].start;
  }

  /** Each period ends after it starts, and each ends before any later one starts. */
  lemma SeasonInOrder()
    ensures forall i :: 0 <= i < |SeasonTable()| ==> SeasonTable()[i].start < SeasonTable()[i].end
    ensures forall i, j :: 0 <= i < j < |SeasonTable()| ==> SeasonTable()[i].end < SeasonTable()[j].start
  {
    TableChained();
    forall i, j | 0 <= i < j < |SeasonTable()|
      ensures SeasonTable()[i].end < SeasonTable()[j].start
    {
      ChainedInOrder(SeasonTable(), i, j);
    }
  }

  /** The processor's week number of each regular week's name is that week. */
  lemma RegularWeekNumbers()
    ensures forall i :: 0 <= i < 18 ==> HistoricalProcessor.WeekNumber(SeasonTable()[i].name) == i + 1
  {
    SeasonTableShape();
    forall i | 0 <= i < 18
      ensures HistoricalProcessor.WeekNumber(SeasonTable()[i].name) == i + 1
    {
      RegularWeekNumber(i + 1);
    }
  }

  lemma RegularWeekNumber(k: int)
    ensures HistoricalProcessor.WeekNumber(RegularWeek(k).name) == k
  {
    assert "2024_Week_" + IntToString(k) == "2024_" + "Week_" + IntToString(k);
    HistoricalProcessor.WeekNumberOfName("2024_", k);
  }

  /** The postseason names: playoff rounds have no "Week_" and so week 1, as has the 2025 opener. */
  lemma PostseasonWeekNumbers()
    ensures forall i :: 18 <= i < 23 ==> HistoricalProcessor.WeekNumber(SeasonTable()[i].name) == 1
  {
    forall i | 18 <= i < 23
      ensures HistoricalProcessor.WeekNumber(SeasonTable()[i].name) == 1
    {
      PostseasonWeekNumber(i);
    }
  }

  /** The only `W` of "2024_Wild_Card" stands at 5; the other three playoff names, of length 15, hold none. */
  lemma PostseasonWeekNumber(i: int)
    requires 18 <= i < 23
    ensures HistoricalProcessor.WeekNumber(SeasonTable()[i].name) == 1
  {
    SeasonTableShape();
    var name := SeasonTable()[i].name;
    if i == 18 {
      NoWeekNumber(name, 5);
    } else if i < 22 {
      NoWeekNumber(name, 15);
    } else {
      assert name == "2025_" + "Week_" + IntToString(1);
      HistoricalProcessor.WeekNumberOfName("2025_", 1);
    }
  }

  lemma NoWeekNumber(s: string, w: int)
    requires forall i :: 0 <= i < |s| && i != w ==> s[i] != 'W'
    requires 0 <= w < |s| - 1 ==> s[w + 1] != 'e'
    ensures HistoricalProcessor.WeekNumber(s) == 1
  {
    NoWeekIn(s, w);
  }

  /** A name whose only `W` (if any) is at `w` and is not followed by `e` has no "Week_". */
  lemma NoWeekIn(s: string, w: int)
    requires forall i :: 0 <= i < |s| && i != w ==> s[i] != 'W'
    requires 0 <= w < |s| - 1 ==> s[w + 1] != 'e'
    ensures !Contains(s, "Week_")
    decreases |s|
  {
    if |s| > 0 {
      if s[0] == 'W' && |s| >= 5 {
        assert s[..5][1] == s[1];
      }
      NoWeekIn(s[1..], w - 1);
    }
  }

  // ---- the date-range filter ----

  /**
   * `datetime.fromisoformat(commence_time.replace('Z', '+00:00'))` as an
   * instant, or None when it raises or when the result has no offset (a
   * naive `datetime` makes the comparison with an aware one raise).
   */
  function CommenceInstant(commence: string): Option<int>
  {
    var st := ParseIsoDateTime(Replace(commence, "Z", "+00:00"));
    if st.Some? && st.value.Aware() then Some(UtcMicros(st.value)) else None
  }

  /** An event the range filter keeps: a non-empty `commence_time` inside `[start, end]`, both ends included. */
  predicate InRange(ev: Event, start: int, end: int)
  {
    && ev.commenceTime != ""
    && CommenceInstant(ev.commenceTime).Some?
    && start <= CommenceInstant(ev.commenceTime).value <= end
  }

  /** The filter's test as a function value. */
  function InPeriod(start: int, end: int): Event -> bool
  {
    ev => InRange(ev, start, end)
  }

  /** The filter loop of `get_historical_events`. */
  method FilterEventsInRange(events: seq<Event>, start: int, end: int) returns (filtered: seq<Event>)
    ensures filtered == Filter(events, InPeriod(start, end))
  {
    filtered := [];
    var i := 0;
    while i < |events|
      invariant 0 <= i <= |events|
      invariant filtered == Filter(events[..i], InPeriod(start, end))
    {
      var event := events[i];
      assert events[..i + 1][..i] == events[..i];
      if event.commenceTime != "" {
        var parsed := ParseIsoDateTime(Replace(event.commenceTime, "Z", "+00:00"));
        if parsed.Some? && parsed.value.Aware() {
          var commence := UtcMicros(parsed.value);
          if start <= commence <= end {
            filtered := filtered + [event];
          }
        }
      }
      i := i + 1;
    }
    assert events[..i] == events;
  }

  /** The kept events are exactly those inside the range, in their original order. */
  lemma RangeFilterKeepsExactly(events: seq<Event>, start: int, end: int)
    ensures forall ev :: ev in Filter(events, InPeriod(start, end)) <==> ev in events && InRange(ev, start, end)
    ensures IsSubseq(Filter(events, InPeriod(start, end)), events)
  {
    FilterIsSubseq(events, InPeriod(start, end));
  }

  /** A timestamp with a trailing `Z` is read as UTC, and one without an offset is never in range. */
  lemma ZuluIsUtc(body: string)
    requires 'Z' !in body
    ensures CommenceInstant(body + "Z") == CommenceInstant(body + "+00:00")
  {
    ReplaceTrailingChar(body, 'Z', "+00:00");
    ContainsNeedsFirstChar(body + "+00:00", "Z");
    ReplaceAbsent(body + "+00:00", "Z", "+00:00");
  }

  lemma NaiveNeverInRange(ev: Event, start: int, end: int)
    requires 'Z' !in ev.commenceTime && |ev.commenceTime| == 19
    ensures !InRange(ev, start, end)
  {
    ContainsNeedsFirstChar(ev.commenceTime, "Z");
    ReplaceAbsent(ev.commenceTime, "Z", "+00:00");
  }

  /** What `get_historical_events` returns for a response: None for a failed request, else the kept events. */
  function EventsInPeriod(response: Option<seq<Event>>, start: int, end: int): (r: Option<seq<Event>>)
    ensures response.None? <==> r.None?
    ensures r.Some? ==> forall ev :: ev in r.value <==> ev in response.value && InRange(ev, start, end)
  {
    match response
    case None => None
    case Some(all) =>
      RangeFilterKeepsExactly(all, start, end);
      Some(Filter(all, InPeriod(start, end)))
  }

  // ---- request instants ----

  /** `timedelta / 2`: microseconds halved, rounded half to even. */
  function Half(d: int): int
  {
    var q := d / 2;
    if d % 2 == 1 && q % 2 == 1 then q + 1 else q
  }

  /** The instant halfway through a period, used for the events request. */
  function Mid(start: int, end: int): int
  {
    start + Half(end - start)
  }

  lemma HalfIsNearest(d: int)
    ensures -1 <= 2 * Half(d) - d <= 1
    ensures d % 2 == 0 ==> 2 * Half(d) == d
    ensures 2 * Half(d) != d ==> Half(d) % 2 == 0
  {
  }

  /** The middle of a period lies within it, at most half a microsecond from the exact midpoint. */
  lemma MidWithin(start: int, end: int)
    requires start <= end
    ensures start <= Mid(start, end) <= end
    ensures -1 <= 2 * Mid(start, end) - (start + end) <= 1
  {
    HalfIsNearest(end - start);
  }

  /** Every period of the table is asked for events at an instant inside it, 3.5 days minus half a second after its start for a week. */
  lemma TableMidsWithin()
    ensures forall i :: 0 <= i < |SeasonTable()| ==>
      SeasonTable()[i].start <= Mid(SeasonTable()[i].start, SeasonTable()[i].end) <= SeasonTable()[i].end
    ensures forall k :: 1 <= k <= 18 ==> Mid(RegularWeek(k).start, RegularWeek(k).end) == RegularWeek(k).start + 302_399_500_000
  {
    SeasonInOrder();
    forall i | 0 <= i < |SeasonTable()|
      ensures SeasonTable()[i].start <= Mid(SeasonTable()[i].start, SeasonTable()[i].end) <= SeasonTable()[i].end
    {
      MidWithin(SeasonTable()[i].start, SeasonTable()[i].end);
    }
  }

  function Min(a: int, b: int): int
  {
    if a <= b then a else b
  }

  /**
   * The instant asked for the odds of a game starting at `commence` (None
   * where parsing or comparing raised): two hours before a past kick-off,
   * else the earlier of an hour ago and a day before kick-off, and the
   * period's middle on the fallback path.
   */
  function OddsTime(commence: Option<int>, now: int, mid: int): int
  {
    match commence
    case None => mid
    case Some(c) => if c < now then c - 2 * Hour else Min(now - Hour, c - Day)
  }

  /** With a parsed kick-off, the odds are always asked for before now and before kick-off. */
  lemma OddsTimeBeforeKickoff(c: int, now: int, mid: int)
    ensures OddsTime(Some(c), now, mid) < now && OddsTime(Some(c), now, mid) < c
    ensures c < now ==> OddsTime(Some(c), now, mid) == c - 2 * Hour
    ensures c >= now ==> OddsTime(Some(c), now, mid) <= now - Hour && OddsTime(Some(c), now, mid) <= c - Day
    ensures c >= now ==> OddsTime(Some(c), now, mid) in {now - Hour, c - Day}
  {
  }

  // ---- one period ----

  /** `events[:max_games_limit]` when the limit is set and non-zero (a truthy attribute). */
  function Limited(events: seq<Event>, limit: Option<int>): (r: seq<Event>)
    ensures limit.None? || limit.value == 0 ==> r == events
    ensures limit.Some? && limit.value > 0 ==> r == events[..Min(limit.value, |events|)]
    ensures |r| <= |events| && r == events[..|r|]
  {
    if limit.Some? && limit.value != 0 then TakePy(events, limit.value) else events
  }

  /** The odds requests made for `events`, in order: `(id, instant)` for each event with an id. */
  function OddsRequests(events: seq<Event>, now: int, mid: int): (r: seq<(string, int)>)
    ensures |r| <= |events|
    decreases |events|
  {
    if events == [] then []
    else
      var init, ev := events[..|events| - 1], events[|events| - 1];
      OddsRequests(init, now, mid)
        + (if ev.id == "" then [] else [(ev.id, OddsTime(CommenceInstant(ev.commenceTime), now, mid))])
  }

  /** How many of the requests returned odds. */
  function Answered(requests: seq<(string, int)>, hasOdds: (string, int) -> bool): (n: nat)
    ensures n <= |requests|
    decreases |requests|
  {
    if requests == [] then 0
    else
      var last := requests[|requests| - 1];
      Answered(requests[..|requests| - 1], hasOdds) + (if hasOdds(last.0, last.1) then 1 else 0)
  }

  /** The summary `collect_historical_data_for_period` returns; dates as instants. */
  datatype PeriodResult = PeriodResult(
    period: string,
    startDate: int,
    endDate: int,
    eventsCollected: nat,
    oddsCollected: nat,
    errors: seq<string>)

  /**
   * The result for a period: `fetchEvents` and `hasOdds` stand for the two
   * historical endpoints (the events list at an instant; whether the odds
   * request for an id at an instant returned data).
   */
  function PeriodOf(p: Period, fetchEvents: int -> Option<seq<Event>>, hasOdds: (string, int) -> bool,
                    limit: Option<int>, now: int): PeriodResult
  {
    var mid := Mid(p.start, p.end);
    var events := EventsInPeriod(fetchEvents(mid), p.start, p.end);
    if events.None? || events.value == [] then
      PeriodResult(p.name, p.start, p.end, 0, 0, ["No events found for " + p.name])
    else
      var selected := Limited(events.value, limit);
      PeriodResult(p.name, p.start, p.end, |events.value|, Answered(OddsRequests(selected, now, mid), hasOdds), [])
  }

  /** `collect_historical_data_for_period` */
  method CollectPeriod(p: Period, fetchEvents: int -> Option<seq<Event>>, hasOdds: (string, int) -> bool,
                       limit: Option<int>, now: int) returns (r: PeriodResult)
    ensures r == PeriodOf(p, fetchEvents, hasOdds, limit, now)
  {
    r := PeriodResult(p.name, p.start, p.end, 0, 0, []);
    var midDate := p.start + Half(p.end - p.start);
    var response := fetchEvents(midDate);
    var events: seq<Event> := [];
    if response.Some? {
      events := FilterEventsInRange(response.value, p.start, p.end);
    }
    assert midDate == Mid(p.start, p.end);
    assert response.Some? ==> EventsInPeriod(response, p.start, p.end) == Some(events);
    if response.None? || events == [] {
      r := r.(errors := r.errors + ["No events found for " + p.name]);
      return;
    }
    r := r.(eventsCollected := |events|);
    if limit.Some? && limit.value != 0 {
      events := TakePy(events, limit.value);
    }
    var oddsCollected := CollectOdds(events, hasOdds, now, midDate);
    r := r.(oddsCollected := oddsCollected);
  }

  /** The per-event loop: skip events without an id, pick the odds instant, count the answered requests. */
  method CollectOdds(events: seq<Event>, hasOdds: (string, int) -> bool, now: int, midDate: int)
    returns (oddsCollected: nat)
    ensures oddsCollected == Answered(OddsRequests(events, now, midDate), hasOdds)
  {
    ghost var requests: seq<(string, int)> := [];
    oddsCollected := 0;
    var i := 0;
    while i < |events|
      invariant 0 <= i <= |events|
      invariant requests == OddsRequests(events[..i], now, midDate)
      invariant oddsCollected == Answered(requests, hasOdds)
    {
      var event := events[i];
      assert events[..i + 1][..i] == events[..i];
      if event.id != "" {
        var oddsTime := OddsTime(CommenceInstant(event.commenceTime), now, midDate);
        ghost var next := requests + [(event.id, oddsTime)];
        assert next[..|requests|] == requests;
        requests := next;
        if hasOdds(event.id, oddsTime) {
          oddsCollected := oddsCollected + 1;
        }
      }
      i := i + 1;
    }
    assert events[..i] == events;
  }

  // ---- properties of a period's collection ----

  /** The error is reported exactly when no event is in range, and then nothing is counted. */
  lemma NoEventsReported(p: Period, fetchEvents: int -> Option<seq<Event>>, hasOdds: (string, int) -> bool,
                         limit: Option<int>, now: int)
    ensures var r := PeriodOf(p, fetchEvents, hasOdds, limit, now);
      var response := fetchEvents(Mid(p.start, p.end));
      && r.period == p.name && r.startDate == p.start && r.endDate == p.end
      && (r.errors != [] <==> response.None? || forall ev :: ev in response.value ==> !InRange(ev, p.start, p.end))
      && (r.errors != [] ==> r.errors == ["No events found for " + p.name] && r.eventsCollected == 0 && r.oddsCollected == 0)
  {
    var mid := Mid(p.start, p.end);
    var response := fetchEvents(mid);
    var events := EventsInPeriod(response, p.start, p.end);
    if response.Some? && events.value != [] {
      assert events.value[0] in events.value;
    }
  }

  /** The odds count never exceeds the games processed, which never exceed the events counted. */
  lemma CountsBounded(p: Period, fetchEvents: int -> Option<seq<Event>>, hasOdds: (string, int) -> bool,
                      limit: Option<int>, now: int)
    ensures var r := PeriodOf(p, fetchEvents, hasOdds, limit, now);
      && r.oddsCollected <= r.eventsCollected
      && (limit.Some? && limit.value > 0 ==> r.oddsCollected <= limit.value)
  {
  }

  /** An odds request `q` made for `ev`: before now, and before `ev`'s kick-off, which lies in the range. */
  predicate RequestFor(q: (string, int), ev: Event, start: int, end: int, now: int)
  {
    && InRange(ev, start, end)
    && ev.id == q.0 && ev.id != ""
    && q.1 < now && q.1 < CommenceInstant(ev.commenceTime).value
  }

  /** Each odds request of the collection is for a game in range, before now and before that game's kick-off. */
  lemma {:induction false} RequestsBeforeKickoff(events: seq<Event>, start: int, end: int, now: int, mid: int)
    requires forall i :: 0 <= i < |events| ==> InRange(events[i], start, end)
    ensures forall q :: q in OddsRequests(events, now, mid) ==> exists ev :: ev in events && RequestFor(q, ev, start, end, now)
    decreases |events|
  {
    if events != [] {
      var init, ev := events[..|events| - 1], events[|events| - 1];
      RequestsBeforeKickoff(init, start, end, now, mid);
      forall q | q in OddsRequests(events, now, mid)
        ensures exists e :: e in events && RequestFor(q, e, start, end, now)
      {
        if q in OddsRequests(init, now, mid) {
          var e :| e in init && RequestFor(q, e, start, end, now);
          assert e in events;
        } else {
          assert q == (ev.id, OddsTime(CommenceInstant(ev.commenceTime), now, mid));
          OddsTimeBeforeKickoff(CommenceInstant(ev.commenceTime).value, now, mid);
          assert ev in events && RequestFor(q, ev, start, end, now);
        }
      }
    }
  }

  /** In a collection, every odds request is made strictly before now and before the game's kick-off. */
  lemma CollectionAsksBeforeKickoff(events: seq<Event>, start: int, end: int, limit: Option<int>, now: int)
    ensures var selected := Limited(Filter(events, InPeriod(start, end)), limit);
      forall q :: q in OddsRequests(selected, now, Mid(start, end)) ==> q.0 != "" && q.1 < now
  {
    var kept := Filter(events, InPeriod(start, end));
    var selected := Limited(kept, limit);
    forall i | 0 <= i < |selected|
      ensures InRange(selected[i], start, end)
    {
      assert selected[i] == kept[i];
    }
    RequestsBeforeKickoff(selected, start, end, now, Mid(start, end));
  }
}
