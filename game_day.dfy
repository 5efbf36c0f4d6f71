/**
 * The collector's game-day filter: on event days only the games that start
 * "today" are collected, where Thursday also takes the early-morning UTC
 * games of Friday (Thursday Night Football).
 */
module GameDay {
  import opened Wrappers
  import opened Text
  import opened Calendar
  import opened Feed
  import opened Seqs
  import Schedule

  /** How the filter parses `commence_time`: a trailing 'Z' is rewritten to "+00:00" first. */
  function ParseCommence(s: string): Option<Stamp>
  {
    if EndsWith(s, "Z") then ParseIsoDateTime(Replace(s, "Z", "+00:00")) else ParseIsoDateTime(s)
  }

  /**
   * A game kept by the filter. The date and hour are those written in the
   * timestamp: `datetime.date()` keeps the timestamp's own offset.
   */
  predicate PlaysToday(ev: Event, today: Date)
  {
    && ValidDate(today)
    && ev.commenceTime != ""
    && match ParseCommence(ev.commenceTime)
       case None => false
       case Some(st) =>
         if Weekday(today) == Schedule.Thursday then
           st.date == today || (st.date == NextDate(today) && st.hour < 6)
         else st.date == today
  }

  /** `_filter_games_for_today` */
  method FilterGamesForToday(games: seq<Event>, today: Date) returns (todays: seq<Event>)
    requires ValidDate(today)
    ensures todays == Filter(games, ev => PlaysToday(ev, today))
  {
    todays := [];
    var i := 0;
    while i < |games|
      invariant 0 <= i <= |games|
      invariant todays == Filter(games[..i], ev => PlaysToday(ev, today))
    {
      var game := games[i];
      assert games[..i + 1][..i] == games[..i];
      if game.commenceTime == "" {
      } else {
        var parsed: Option<Stamp>;
        if EndsWith(game.commenceTime, "Z") {
          parsed := ParseIsoDateTime(Replace(game.commenceTime, "Z", "+00:00"));
        } else {
          parsed := ParseIsoDateTime(game.commenceTime);
        }
        if parsed.Some? {
          var st := parsed.value;
          if Weekday(today) == Schedule.Thursday {
            if st.date == today || (st.date == NextDate(today) && st.hour < 6) {
              todays := todays + [game];
            }
          } else if st.date == today {
            todays := todays + [game];
          }
        }
      }
      i := i + 1;
    }
    assert games[..|games|] == games;
  }

  /** The filter keeps its input's order and drops only games that do not start today. */
  lemma FilterKeepsExactlyTodaysGames(games: seq<Event>, today: Date)
    ensures IsSubseq(Filter(games, ev => PlaysToday(ev, today)), games)
    ensures forall j :: 0 <= j < |games| ==>
              (games[j] in Filter(games, ev => PlaysToday(ev, today)) <==> PlaysToday(games[j], today))
  {
    FilterIsSubseq(games, ev => PlaysToday(ev, today));
  }

  /** Off Thursday a game is kept exactly when its written date is today. */
  lemma OrdinaryDay(ev: Event, today: Date)
    requires ValidDate(today) && Weekday(today) != Schedule.Thursday
    ensures PlaysToday(ev, today) <==>
              ParseCommence(ev.commenceTime).Some? && ParseCommence(ev.commenceTime).value.date == today
  {
  }

  /** A Zulu timestamp is parsed as the same time with an explicit "+00:00" offset. */
  lemma ZuluSuffix(t: string)
    requires 'Z' !in t
    ensures ParseCommence(t + "Z") == ParseIsoDateTime(t + "+00:00")
  {
    assert EndsWith(t + "Z", "Z");
    ReplaceTrailingChar(t, 'Z', "+00:00");
  }

  /** 2024-09-05, the first game day of the 2024 season, was a Thursday. */
  lemma SeasonOpenerIsThursday()
    ensures DayNumber(Date(2024, 9, 5)) == 19971
    ensures Weekday(Date(2024, 9, 5)) == Schedule.Thursday
  {
    assert MarchFirst(2024) == 739251;
    assert DayOfShiftedYear(9, 5) == 188;
  }

  /** The opener's 00:20 UTC Friday kick-off is kept on the Thursday as Thursday Night Football. */
  lemma ThursdayNightFootball()
    ensures PlaysToday(Event("g", "2024-09-06T00:20:00Z", "Kansas City Chiefs", "Baltimore Ravens", "NFL", []), Date(2024, 9, 5))
  {
    var t := "2024-09-06T00:20:00";
    assert 'Z' !in t;
    assert t + "Z" == "2024-09-06T00:20:00Z";
    assert t + "+00:00" == Example;
    ZuluSuffix(t);
    ParseExample();
    SeasonOpenerIsThursday();
    assert NextDate(Date(2024, 9, 5)) == Date(2024, 9, 6);
  }

  // ---- the opening steps of collect_weekly_data ----

  /** How `collect_weekly_data` leaves its opening steps. */
  datatype StartOutcome =
    | StartNotScheduled             // no snapshot: the "Not a scheduled collection time" reply
    | StartKeyError(snapshot: int)  // the snapshot has no entry in the schedule
    | StartTypeError(snapshot: int) // the games request is called with an argument it does not take

  /**
   * The steps of `collect_weekly_data` before any request: a falsy forced
   * snapshot falls back to the clock, the snapshot is looked up in the
   * schedule, and then `get_nfl_games` is called with the week although it
   * declares no parameter besides `self`, which raises `TypeError`.
   */
  function CollectStart(force: Option<int>, day: int, hour: int, schedule: map<int, string>): (r: StartOutcome)
    requires Schedule.ValidClock(day, hour)
    ensures r.StartNotScheduled? <==>
              (force.None? || force.value == 0) && Schedule.CurrentSnapshot(day, hour).None?
    ensures r.StartKeyError? ==> r.snapshot !in schedule
    ensures r.StartTypeError? ==> r.snapshot in schedule && r.snapshot != 0
    ensures force.Some? && force.value != 0 && !r.StartNotScheduled? ==> r.snapshot == force.value
  {
    var n := if force.Some? && force.value != 0 then force else Schedule.CurrentSnapshot(day, hour);
    if n.None? || n.value == 0 then StartNotScheduled
    else if n.value !in schedule then StartKeyError(n.value)
    else StartTypeError(n.value)
  }

  /**
   * Every collection with a scheduled snapshot raises at the games request,
   * so, as written, the selection below is never reached.
   */
  lemma ScheduledCollectionRaises(force: Option<int>, day: int, hour: int, schedule: map<int, string>)
    requires Schedule.ValidClock(day, hour)
    requires forall k :: 1 <= k <= 6 ==> k in schedule
    ensures var r := CollectStart(force, day, hour, schedule);
      && (force.Some? && force.value in schedule && force.value != 0 ==> r == StartTypeError(force.value))
      && (!r.StartNotScheduled? && (force.None? || force.value == 0 || force.value in schedule) ==> r.StartTypeError?)
  {
  }

  // ---- the game-selection branch of collect_weekly_data ----

  /** Which games `collect_weekly_data` goes on with, or why it stops. */
  datatype GameSelection =
    | NoGameLines    // the games request failed or returned no games
    | NoGamesToday   // a day-of-event snapshot found no game starting today
    | ListingRaised  // the listing of the week's first five games met a kickoff it cannot parse
    | Selected(games: seq<Event>)

  /**
   * How the listing printed when no game starts today reads a kickoff:
   * every 'Z' is replaced, and no error is caught.
   */
  predicate ListingParses(ev: Event)
  {
    ParseIsoDateTime(Replace(ev.commenceTime, "Z", "+00:00")).Some?
  }

  /**
   * Snapshot 1 takes every game of the week; the later snapshots only today's.
   * When a later snapshot finds none, the first five games are listed before
   * the "No games scheduled for today" reply, and a kickoff the listing
   * cannot parse raises instead.
   */
  function SelectGames(all: Option<seq<Event>>, snapshot: int, today: Date): GameSelection
  {
    if all.None? || all.value == [] then NoGameLines
    else if snapshot == 1 then Selected(all.value)
    else
      var todays := Filter(all.value, ev => PlaysToday(ev, today));
      if todays != [] then Selected(todays)
      else if forall ev :: ev in TakePy(all.value, 5) ==> ListingParses(ev) then NoGamesToday
      else ListingRaised
  }

  /** The games whose props are fetched: the selected games from snapshot 2 on, none for snapshot 1. */
  function PropsGames(snapshot: int, games: seq<Event>): seq<Event>
  {
    if snapshot > 1 then games else []
  }

  /**
   * The opening snapshot keeps the whole week; a later one keeps exactly
   * today's games, in order, and stops when there are none, with the
   * "No games scheduled for today" reply only when each of the week's first
   * five kickoffs parses.
   */
  lemma SelectionBySnapshot(all: seq<Event>, snapshot: int, today: Date)
    requires all != []
    ensures snapshot == 1 ==> SelectGames(Some(all), snapshot, today) == Selected(all)
    ensures snapshot != 1 ==>
      var sel := SelectGames(Some(all), snapshot, today);
      && (sel.NoGamesToday? || sel.ListingRaised? <==> forall j :: 0 <= j < |all| ==> !PlaysToday(all[j], today))
      && (sel.ListingRaised? <==>
            (forall j :: 0 <= j < |all| ==> !PlaysToday(all[j], today))
            && exists j :: 0 <= j < |all| && j < 5 && !ListingParses(all[j]))
      && (sel.Selected? ==>
            && IsSubseq(sel.games, all)
            && forall j :: 0 <= j < |all| ==> (all[j] in sel.games <==> PlaysToday(all[j], today)))
  {
    if snapshot != 1 {
      var todays := Filter(all, ev => PlaysToday(ev, today));
      FilterKeepsExactlyTodaysGames(all, today);
      if todays != [] {
        assert todays[0] in todays;
      } else {
        var first := TakePy(all, 5);
        if forall ev :: ev in first ==> ListingParses(ev) {
          forall j | 0 <= j < |all| && j < 5
            ensures ListingParses(all[j])
          {
            assert first[j] == all[j];
          }
        } else {
          var ev :| ev in first && !ListingParses(ev);
          var j :| 0 <= j < |first| && first[j] == ev;
          assert all[j] == ev;
        }
      }
    }
  }

  /**
   * A game without a kickoff is never today's, and among the week's first
   * five it makes the listing raise where the "No games scheduled for today"
   * reply was meant.
   */
  lemma EmptyKickoffRaisesInListing(all: seq<Event>, snapshot: int, today: Date)
    requires all != [] && all[0].commenceTime == "" && snapshot != 1
    requires forall j :: 0 <= j < |all| ==> !PlaysToday(all[j], today)
    ensures SelectGames(Some(all), snapshot, today) == ListingRaised
  {
    SelectionBySnapshot(all, snapshot, today);
    assert Replace("", "Z", "+00:00") == "";
    assert !ListingParses(all[0]);
  }

  /**
   * Whenever props are collected the props games are the selected games and
   * are never empty, so the collector's "No games available for player
   * props" failure cannot happen.
   */
  lemma PropsGamesNeverEmpty(all: Option<seq<Event>>, snapshot: int, today: Date)
    requires SelectGames(all, snapshot, today).Selected?
    requires Schedule.ShouldCollectProps(snapshot)
    ensures PropsGames(snapshot, SelectGames(all, snapshot, today).games) == SelectGames(all, snapshot, today).games
    ensures PropsGames(snapshot, SelectGames(all, snapshot, today).games) != []
  {
  }
}
