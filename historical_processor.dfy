/**
 * The historical data processor: raw event and odds files of one week become
 * one package in the weekly writer's shape. Events are keyed by id, odds
 * files are matched to events by the id prefix in their file name, each game
 * gets a game-line record whose markets are keyed by market key, and every
 * outcome with a player name becomes a regular or an anytime-touchdown prop.
 */
module HistoricalProcessor {
  import opened Wrappers
  import opened Text
  import opened Feed
  import opened Seqs
  import opened Dicts
  import OddsClient

  const AnytimeTdKey := "player_anytime_td"

  /** The content of an odds file: a JSON object that may hold `bookmakers`, and how many other fields it has. */
  datatype OddsData = OddsData(bookmakers: Option<seq<Bookmaker>>, otherFields: nat)
  {
    /** A dict is truthy iff it has a field. */
    predicate Truthy()
    {
      bookmakers.Some? || otherFields > 0
    }

    function Bookmakers(): seq<Bookmaker>
    {
      bookmakers.GetOr([])
    }
  }

  /** An odds file: its name without the extension, and its content. */
  datatype OddsFile = OddsFile(stem: string, data: OddsData)

  // ---- the events dict ----

  predicate HasId(e: Event)
  {
    e.id != ""
  }

  function EventId(e: Event): string
  {
    e.id
  }

  function EventItself(e: Event): Event
  {
    e
  }

  /** `events[event['id']] = event` for every event with a truthy id, in file order. */
  function EventIndex(evs: seq<Event>): (d: Dict<string, Event>)
    ensures Valid(d)
  {
    StoreAllValid(evs, HasId, EventId, EventItself);
    StoreAll(evs, HasId, EventId, EventItself)
  }

  /** One more event stored after a run of earlier ones. */
  lemma StoreEventStep(before: seq<Event>, e: Event)
    ensures StoreAll(before + [e], HasId, EventId, EventItself)
            == if e.id != "" then Put(StoreAll(before, HasId, EventId, EventItself), e.id, e)
               else StoreAll(before, HasId, EventId, EventItself)
  {
    assert (before + [e])[..|before|] == before;
  }

  /** The inner loop: one file's events stored after those of the earlier files. */
  method StoreEvents(events0: Dict<string, Event>, ghost earlier: seq<Event>, evs: seq<Event>)
    returns (events: Dict<string, Event>)
    requires events0 == StoreAll(earlier, HasId, EventId, EventItself)
    ensures events == StoreAll(earlier + evs, HasId, EventId, EventItself)
  {
    events := events0;
    var j := 0;
    assert earlier + evs[..0] == earlier;
    while j < |evs|
      invariant 0 <= j <= |evs|
      invariant events == StoreAll(earlier + evs[..j], HasId, EventId, EventItself)
    {
      var e := evs[j];
      ghost var before := earlier + evs[..j];
      StoreEventStep(before, e);
      ghost var after := before + [e];
      if e.id != "" {
        events := Put(events, e.id, e);
      }
      j := j + 1;
      assert earlier + evs[..j] == after;
    }
    assert evs[..j] == evs;
  }

  /** The events of all event files, keyed by id. */
  method IndexEventFiles(files: seq<seq<Event>>) returns (events: Dict<string, Event>)
    ensures events == EventIndex(Flatten(files))
  {
    events := Empty();
    var i := 0;
    while i < |files|
      invariant 0 <= i <= |files|
      invariant events == StoreAll(Flatten(files[..i]), HasId, EventId, EventItself)
    {
      events := StoreEvents(events, Flatten(files[..i]), files[i]);
      assert files[..i + 1][..i] == files[..i];
      i := i + 1;
    }
    assert files[..i] == files;
  }

  /** An event id is a key iff some event has it; events without an id are dropped. */
  lemma EventsKeyedById(evs: seq<Event>, id: string)
    ensures id in EventIndex(evs).values <==> id != "" && exists i :: 0 <= i < |evs| && evs[i].id == id
  {
    StoreAllHasKey(evs, HasId, EventId, EventItself, id);
  }

  /** The event kept under an id is the last one with that id. */
  lemma LastEventWins(evs: seq<Event>, i: int)
    requires 0 <= i < |evs| && evs[i].id != ""
    requires forall j :: i < j < |evs| ==> evs[j].id != evs[i].id
    ensures evs[i].id in EventIndex(evs).values && EventIndex(evs).values[evs[i].id] == evs[i]
  {
    StoreAllLastWins(evs, HasId, EventId, EventItself, i);
  }

  // ---- matching odds files to events ----

  /** The first id of `ids` that starts with `prefix`. */
  function FirstMatch(ids: seq<string>, prefix: string): (r: Option<string>)
    ensures r.Some? ==> exists i :: 0 <= i < |ids| && ids[i] == r.value && StartsWith(ids[i], prefix)
                                  && forall j :: 0 <= j < i ==> !StartsWith(ids[j], prefix)
    ensures r.None? <==> forall i :: 0 <= i < |ids| ==> !StartsWith(ids[i], prefix)
    decreases |ids|
  {
    if ids == [] then None
    else if StartsWith(ids[0], prefix) then Some(ids[0])
    else
      var r := FirstMatch(ids[1..], prefix);
      assert forall i :: 1 <= i < |ids| ==> ids[i] == ids[1..][i - 1];
      r
  }

  /** The id prefix an odds file name carries: its last `_`-separated part, when it has at least six. */
  function StemPrefix(stem: string): Option<string>
  {
    var parts := Split(stem, "_");
    if |parts| >= 6 then Some(parts[|parts| - 1]) else None
  }

  /** The prefix is the file name's tail after its last underscore. */
  lemma StemPrefixIsLastPart(stem: string)
    requires StemPrefix(stem).Some?
    ensures '_' !in StemPrefix(stem).value && EndsWith(stem, "_" + StemPrefix(stem).value)
  {
    var parts := Split(stem, "_");
    var last := parts[|parts| - 1];
    SplitPiecesHaveNoSeparator(stem, "_", |parts| - 1);
    JoinSplit(stem, "_");
    JoinSnoc(parts, "_");
    assert stem == Join(parts[..|parts| - 1], "_") + "_" + last;
    assert stem[|stem| - |"_" + last|..] == "_" + last;
  }

  /** The event an odds file is matched to, if any. */
  function MatchOf(ids: seq<string>, f: OddsFile): Option<string>
  {
    match StemPrefix(f.stem)
    case None => None
    case Some(p) => FirstMatch(ids, p)
  }

  /** `odds_map`: every odds file stored under the event it matches, a later file replacing an earlier one. */
  function MatchOdds(ids: seq<string>, files: seq<OddsFile>): map<string, OddsData>
    decreases |files|
  {
    if files == [] then map[]
    else
      var m := MatchOdds(ids, files[..|files| - 1]);
      match MatchOf(ids, files[|files| - 1])
      case None => m
      case Some(id) => m[id := files[|files| - 1].data]
  }

  /** Every matched id is an event id, and its odds are those of a file that matches it. */
  lemma {:induction false} MatchedOddsFromFiles(ids: seq<string>, files: seq<OddsFile>)
    ensures var m := MatchOdds(ids, files);
      forall id :: id in m ==> id in ids && exists i :: 0 <= i < |files| && MatchOf(ids, files[i]) == Some(id) && m[id] == files[i].data
    decreases |files|
  {
    if files != [] {
      var init, last := files[..|files| - 1], files[|files| - 1];
      MatchedOddsFromFiles(ids, init);
      assert forall i :: 0 <= i < |init| ==> init[i] == files[i];
      match MatchOf(ids, last)
      case None =>
      case Some(id) =>
    }
  }

  /** The loop over the event ids that stops at the first one starting with `prefix`. */
  method FindFirstMatch(ids: seq<string>, prefix: string) returns (r: Option<string>)
    ensures r == FirstMatch(ids, prefix)
  {
    var j := 0;
    while j < |ids|
      invariant 0 <= j <= |ids|
      invariant FirstMatch(ids, prefix) == FirstMatch(ids[j..], prefix)
    {
      if StartsWith(ids[j], prefix) {
        return Some(ids[j]);
      }
      assert ids[j..][1..] == ids[j + 1..];
      j := j + 1;
    }
    return None;
  }

  method MatchOddsFiles(ids: seq<string>, files: seq<OddsFile>) returns (oddsMap: map<string, OddsData>)
    ensures oddsMap == MatchOdds(ids, files)
  {
    oddsMap := map[];
    var i := 0;
    while i < |files|
      invariant 0 <= i <= |files|
      invariant oddsMap == MatchOdds(ids, files[..i])
    {
      MatchOddsStep(ids, files, i);
      ghost var done := files[..i + 1];
      var parts := Split(files[i].stem, "_");
      if |parts| >= 6 {
        var id := FindFirstMatch(ids, parts[|parts| - 1]);
        if id.Some? {
          oddsMap := oddsMap[id.value := files[i].data];
        }
      }
      i := i + 1;
      assert files[..i] == done;
    }
    assert files[..i] == files;
  }

  lemma MatchOddsStep(ids: seq<string>, files: seq<OddsFile>, i: int)
    requires 0 <= i < |files|
    ensures MatchOdds(ids, files[..i + 1]) ==
              match MatchOf(ids, files[i])
              case None => MatchOdds(ids, files[..i])
              case Some(id) => MatchOdds(ids, files[..i])[id := files[i].data]
  {
    assert files[..i + 1][..i] == files[..i];
  }

  /** The event stored under an id has that id. */
  lemma EventUnderItsId(evs: seq<Event>, id: string)
    requires id in EventIndex(evs).values
    ensures EventIndex(evs).values[id].id == id
  {
    StoreAllSource(evs, HasId, EventId, EventItself, id);
  }

  // ---- the week number ----

  /** The week number in a period name: the integer after `Week_`, or 1 when there is none or it does not parse. */
  function WeekNumber(name: string): (w: int)
    ensures !Contains(name, "Week_") ==> w == 1
  {
    if Contains(name, "Week_") then
      ContainsSplits(name, "Week_");
      ParseInt(Split(name, "Week_")[1]).GetOr(1)
    else 1
  }

  /** A name `<head>Week_<n>` whose head has no `W` gives back `n`. */
  lemma WeekNumberOfName(head: string, n: int)
    requires 'W' !in head
    ensures WeekNumber(head + "Week_" + IntToString(n)) == n
  {
    var name := head + "Week_" + IntToString(n);
    var d := IntToString(n);
    assert 'W' !in d;
    SplitAtFirstSeparator(head, "Week_", d);
    SplitWithoutFirstChar(d, "Week_");
    assert Split(name, "Week_") == [head, d];
    SplitsContain(name, "Week_");
    ParseIntToString(n);
  }

  // ---- game lines ----

  /** A market as the game line stores it. */
  datatype MarketLines = MarketLines(key: string, outcomes: seq<Outcome>)

  datatype BookmakerLines = BookmakerLines(title: string, markets: Dict<string, MarketLines>)

  /** `_process_game_lines`' record. */
  datatype GameLine = GameLine(
    gameId: string, commenceTime: string, homeTeam: string, awayTeam: string, sportTitle: string,
    bookmakers: seq<BookmakerLines>)

  function MarketKey(m: Market): string
  {
    m.key.GetOr("")
  }

  predicate AnyMarket(m: Market)
  {
    true
  }

  function LinesOf(m: Market): MarketLines
  {
    MarketLines(MarketKey(m), m.outcomes)
  }

  /** `bookmaker_data['markets'][market_key] = market_data` for every market in turn. */
  function MarketsByKey(ms: seq<Market>): Dict<string, MarketLines>
  {
    StoreAll(ms, AnyMarket, MarketKey, LinesOf)
  }

  /** A market key is present iff some market has it (a missing key counts as ""). */
  lemma MarketsKeyedByKey(ms: seq<Market>, k: string)
    ensures k in MarketsByKey(ms).values <==> exists i :: 0 <= i < |ms| && MarketKey(ms[i]) == k
    ensures k in MarketsByKey(ms).values ==> MarketsByKey(ms).values[k].key == k
  {
    StoreAllHasKey(ms, AnyMarket, MarketKey, LinesOf, k);
    if k in MarketsByKey(ms).values {
      StoreAllSource(ms, AnyMarket, MarketKey, LinesOf, k);
    }
  }

  /** A later market with the same key overwrites an earlier one. */
  lemma LaterMarketOverwrites(ms: seq<Market>, i: int)
    requires 0 <= i < |ms| && forall j :: i < j < |ms| ==> MarketKey(ms[j]) != MarketKey(ms[i])
    ensures MarketKey(ms[i]) in MarketsByKey(ms).values
    ensures MarketsByKey(ms).values[MarketKey(ms[i])].outcomes == ms[i].outcomes
  {
    StoreAllLastWins(ms, AnyMarket, MarketKey, LinesOf, i);
  }

  function BookmakerLinesOf(bm: Bookmaker): BookmakerLines
  {
    BookmakerLines(bm.title, MarketsByKey(bm.markets))
  }

  predicate HasOdds(odds: Option<OddsData>)
  {
    odds.Some? && odds.value.Truthy()
  }

  /** The game-line record: always produced, with no bookmakers when there are no odds. */
  function GameLineOf(ev: Event, odds: Option<OddsData>): (g: GameLine)
    ensures g.gameId == ev.id && g.commenceTime == ev.commenceTime && g.sportTitle == ev.sportTitle
    ensures g.homeTeam == ev.homeTeam && g.awayTeam == ev.awayTeam
    ensures !HasOdds(odds) ==> g.bookmakers == []
    ensures HasOdds(odds) ==> |g.bookmakers| == |odds.value.Bookmakers()|
    ensures HasOdds(odds) ==> forall i :: 0 <= i < |g.bookmakers| ==> g.bookmakers[i].title == odds.value.Bookmakers()[i].title
  {
    var bms := if HasOdds(odds) then odds.value.Bookmakers() else [];
    GameLine(ev.id, ev.commenceTime, ev.homeTeam, ev.awayTeam, ev.sportTitle,
             seq(|bms|, i requires 0 <= i < |bms| => BookmakerLinesOf(bms[i])))
  }

  method ProcessGameLines(ev: Event, odds: Option<OddsData>) returns (g: GameLine)
    ensures g == GameLineOf(ev, odds)
  {
    g := GameLine(ev.id, ev.commenceTime, ev.homeTeam, ev.awayTeam, ev.sportTitle, []);
    if !(odds.Some? && odds.value.Truthy()) {
      return;
    }
    var bms := odds.value.Bookmakers();
    var lines: seq<BookmakerLines> := [];
    var i := 0;
    while i < |bms|
      invariant 0 <= i <= |bms|
      invariant |lines| == i && forall k :: 0 <= k < i ==> lines[k] == BookmakerLinesOf(bms[k])
    {
      var markets: Dict<string, MarketLines> := Empty();
      var ms := bms[i].markets;
      var j := 0;
      while j < |ms|
        invariant 0 <= j <= |ms|
        invariant markets == MarketsByKey(ms[..j])
      {
        assert ms[..j + 1][..j] == ms[..j];
        markets := Put(markets, MarketKey(ms[j]), MarketLines(MarketKey(ms[j]), ms[j].outcomes));
        j := j + 1;
      }
      assert ms[..j] == ms;
      lines := lines + [BookmakerLines(bms[i].title, markets)];
      i := i + 1;
    }
    g := g.(bookmakers := lines);
  }

  // ---- player props ----

  /** `_process_player_props`' record. */
  datatype HistoricalProp = HistoricalProp(
    gameId: string, playerName: string, position: string, team: string, marketType: string, bookmaker: string,
    lineValue: Cell, odds: Cell, lineType: LineType,
    commenceTime: string, homeTeam: string, awayTeam: string, collectedAt: string)

  /** The description, falling back to the name, without " Over"/" Under" and stripped. */
  function HistoricalPlayerName(o: Outcome): string
  {
    Strip(RemoveAll(RemoveAll(o.description.GetOr(o.name.GetOr("")), " Over"), " Under"))
  }

  /** The player name has no whitespace at either end. */
  lemma HistoricalNameTrimmed(o: Outcome)
    ensures var r := HistoricalPlayerName(o); r == [] || (!IsSpace(r[0]) && !IsSpace(r[|r| - 1]))
  {
    StripTrims(RemoveAll(RemoveAll(o.description.GetOr(o.name.GetOr("")), " Over"), " Under"));
  }

  /** `_determine_line_type` */
  function HistoricalLineType(o: Outcome, marketKey: string): LineType
  {
    var name := o.name.GetOr("");
    if Contains(name, "Over") then Over
    else if Contains(name, "Under") then Under
    else if marketKey == AnytimeTdKey then Over
    else Unknown
  }

  /** The odds client's classification, except that the anytime-touchdown market is never Unknown. */
  lemma HistoricalLineTypeVsClient(o: Outcome, marketKey: string)
    ensures marketKey != AnytimeTdKey ==> HistoricalLineType(o, marketKey) == OddsClient.LineTypeOf(o)
    ensures marketKey == AnytimeTdKey ==>
      HistoricalLineType(o, marketKey) == (if OddsClient.LineTypeOf(o) == Under then Under else Over)
  {
  }

  function PropOf(ev: Event, title: string, marketKey: string, o: Outcome, now: string): HistoricalProp
  {
    HistoricalProp(ev.id, HistoricalPlayerName(o), "", "", OddsClient.MarketDisplayName(marketKey), title,
                   o.point.GetOr(Null), o.price.GetOr(Null), HistoricalLineType(o, marketKey),
                   ev.commenceTime, ev.homeTeam, ev.awayTeam, now)
  }

  /** The props of one market's outcomes: one per outcome with a player name. */
  function FromOutcomes(ev: Event, title: string, marketKey: string, outs: seq<Outcome>, now: string): (r: seq<HistoricalProp>)
    ensures |r| <= |outs|
    decreases |outs|
  {
    if outs == [] then []
    else
      var init, o := outs[..|outs| - 1], outs[|outs| - 1];
      FromOutcomes(ev, title, marketKey, init, now) + OutcomeProps(ev, title, marketKey, o, now)
  }

  /** The two lists the props go to. */
  datatype PropLists = PropLists(regular: seq<HistoricalProp>, td: seq<HistoricalProp>)

  function Cat(a: PropLists, b: PropLists): PropLists
  {
    PropLists(a.regular + b.regular, a.td + b.td)
  }

  /** A market's props go to the anytime-touchdown list iff its key is `player_anytime_td`. */
  function Route(l: PropLists, marketKey: string, ps: seq<HistoricalProp>): PropLists
  {
    if marketKey == AnytimeTdKey then PropLists(l.regular, l.td + ps) else PropLists(l.regular + ps, l.td)
  }

  /** Every prop names a player and belongs to the event. */
  predicate OfEvent(ps: seq<HistoricalProp>, ev: Event)
  {
    forall i :: 0 <= i < |ps| ==> ps[i].playerName != "" && ps[i].gameId == ev.id
  }

  function FromMarkets(ev: Event, title: string, ms: seq<Market>, now: string): PropLists
    decreases |ms|
  {
    if ms == [] then PropLists([], [])
    else
      var init, m := ms[..|ms| - 1], ms[|ms| - 1];
      Route(FromMarkets(ev, title, init, now), MarketKey(m), FromOutcomes(ev, title, MarketKey(m), m.outcomes, now))
  }

  function FromBookmakers(ev: Event, bms: seq<Bookmaker>, now: string): PropLists
    decreases |bms|
  {
    if bms == [] then PropLists([], [])
    else
      var init, bm := bms[..|bms| - 1], bms[|bms| - 1];
      Cat(FromBookmakers(ev, init, now), FromMarkets(ev, bm.title, bm.markets, now))
  }

  /** The props of one market: each names a player and carries the event's id, the bookmaker and the market's display name. */
  predicate MadeFor(ps: seq<HistoricalProp>, ev: Event, title: string, marketKey: string)
  {
    forall i :: 0 <= i < |ps| ==> ps[i].playerName != "" && ps[i].gameId == ev.id && ps[i].bookmaker == title
                                  && ps[i].marketType == OddsClient.MarketDisplayName(marketKey)
                                  && ps[i].position == "" && ps[i].team == ""
  }

  lemma {:induction false} FromOutcomesMadeFor(ev: Event, title: string, marketKey: string, outs: seq<Outcome>, now: string)
    ensures MadeFor(FromOutcomes(ev, title, marketKey, outs, now), ev, title, marketKey)
    decreases |outs|
  {
    if outs != [] {
      var init := outs[..|outs| - 1];
      FromOutcomesMadeFor(ev, title, marketKey, init, now);
    }
  }

  /** Every prop of a bookmaker's markets belongs to the event, and the touchdown list holds only "Anytime TD" props. */
  lemma {:induction false} FromMarketsOfEvent(ev: Event, title: string, ms: seq<Market>, now: string)
    ensures OfEvent(FromMarkets(ev, title, ms, now).regular, ev) && OfEvent(FromMarkets(ev, title, ms, now).td, ev)
    ensures AllAnytimeTd(FromMarkets(ev, title, ms, now).td)
    decreases |ms|
  {
    if ms != [] {
      var init, m := ms[..|ms| - 1], ms[|ms| - 1];
      FromMarketsOfEvent(ev, title, init, now);
      var before, key := FromMarkets(ev, title, init, now), MarketKey(m);
      var fo := FromOutcomes(ev, title, key, m.outcomes, now);
      FromOutcomesMadeFor(ev, title, key, m.outcomes, now);
      if key == AnytimeTdKey {
        assert OddsClient.MarketDisplayName(AnytimeTdKey) == "Anytime TD";
        AppendOfEvent(before.td, fo, ev, true);
      } else {
        AppendOfEvent(before.regular, fo, ev, false);
      }
    }
  }

  /** Appending props made for the event keeps every prop of the event (and, for the touchdown list, of "Anytime TD"). */
  lemma AppendOfEvent(a: seq<HistoricalProp>, b: seq<HistoricalProp>, ev: Event, td: bool)
    requires OfEvent(a, ev) && (td ==> AllAnytimeTd(a))
    requires forall i :: 0 <= i < |b| ==> b[i].playerName != "" && b[i].gameId == ev.id
    requires td ==> forall i :: 0 <= i < |b| ==> b[i].marketType == "Anytime TD"
    ensures OfEvent(a + b, ev) && (td ==> AllAnytimeTd(a + b))
  {
    forall i | 0 <= i < |a + b|
      ensures (a + b)[i].playerName != "" && (a + b)[i].gameId == ev.id
      ensures td ==> (a + b)[i].marketType == "Anytime TD"
    {
      if i >= |a| {
        assert (a + b)[i] == b[i - |a|];
      }
    }
  }

  lemma {:induction false} FromBookmakersOfEvent(ev: Event, bms: seq<Bookmaker>, now: string)
    ensures OfEvent(FromBookmakers(ev, bms, now).regular, ev) && OfEvent(FromBookmakers(ev, bms, now).td, ev)
    ensures AllAnytimeTd(FromBookmakers(ev, bms, now).td)
    decreases |bms|
  {
    if bms != [] {
      var init, bm := bms[..|bms| - 1], bms[|bms| - 1];
      FromBookmakersOfEvent(ev, init, now);
      FromMarketsOfEvent(ev, bm.title, bm.markets, now);
    }
  }

  function PlayerProps(ev: Event, odds: Option<OddsData>, now: string): PropLists
  {
    if HasOdds(odds) then FromBookmakers(ev, odds.value.Bookmakers(), now) else PropLists([], [])
  }

  /** The props one outcome contributes: one if it names a player, none otherwise. */
  function OutcomeProps(ev: Event, title: string, marketKey: string, o: Outcome, now: string): seq<HistoricalProp>
  {
    if HistoricalPlayerName(o) == "" then [] else [PropOf(ev, title, marketKey, o, now)]
  }

  lemma FromOutcomesStep(ev: Event, title: string, key: string, outs: seq<Outcome>, k: int, now: string)
    requires 0 <= k < |outs|
    ensures FromOutcomes(ev, title, key, outs[..k + 1], now)
            == FromOutcomes(ev, title, key, outs[..k], now) + OutcomeProps(ev, title, key, outs[k], now)
  {
    assert outs[..k + 1][..k] == outs[..k];
  }

  /** Routing in two steps is routing the concatenation. */
  lemma RouteTwice(l: PropLists, key: string, ps: seq<HistoricalProp>, qs: seq<HistoricalProp>)
    ensures Route(Route(l, key, ps), key, qs) == Route(l, key, ps + qs)
  {
    assert l.regular + ps + qs == l.regular + (ps + qs);
    assert l.td + ps + qs == l.td + (ps + qs);
  }

  /** One outcome routed after the earlier ones of its market. */
  lemma OutcomeStep(ev: Event, title: string, key: string, outs: seq<Outcome>, k: int, now: string, l0: PropLists, l: PropLists)
    requires 0 <= k < |outs|
    requires l == Route(Route(l0, key, FromOutcomes(ev, title, key, outs[..k], now)), key, OutcomeProps(ev, title, key, outs[k], now))
    ensures l == Route(l0, key, FromOutcomes(ev, title, key, outs[..k + 1], now))
  {
    FromOutcomesStep(ev, title, key, outs, k, now);
    RouteTwice(l0, key, FromOutcomes(ev, title, key, outs[..k], now), OutcomeProps(ev, title, key, outs[k], now));
  }

  /** The innermost loop: one market's outcomes appended to the list its key selects. */
  method AddOutcomeProps(ev: Event, title: string, key: string, outs: seq<Outcome>, now: string,
                         regular0: seq<HistoricalProp>, td0: seq<HistoricalProp>)
    returns (regular: seq<HistoricalProp>, td: seq<HistoricalProp>)
    ensures PropLists(regular, td) == Route(PropLists(regular0, td0), key, FromOutcomes(ev, title, key, outs, now))
  {
    regular, td := regular0, td0;
    var k := 0;
    while k < |outs|
      invariant 0 <= k <= |outs|
      invariant PropLists(regular, td) == Route(PropLists(regular0, td0), key, FromOutcomes(ev, title, key, outs[..k], now))
    {
      ghost var before := PropLists(regular, td);
      var name := HistoricalPlayerName(outs[k]);
      if name != "" {
        var prop := PropOf(ev, title, key, outs[k], now);
        if key == AnytimeTdKey {
          td := td + [prop];
        } else {
          regular := regular + [prop];
        }
      }
      assert PropLists(regular, td) == Route(before, key, OutcomeProps(ev, title, key, outs[k], now));
      OutcomeStep(ev, title, key, outs, k, now, PropLists(regular0, td0), PropLists(regular, td));
      ghost var done := outs[..k + 1];
      k := k + 1;
      assert outs[..k] == done;
    }
    assert outs[..k] == outs;
  }

  /** Routing a market's props after earlier bookmakers' props touches only the later part. */
  lemma RouteAfterCat(a: PropLists, b: PropLists, key: string, ps: seq<HistoricalProp>)
    ensures Route(Cat(a, b), key, ps) == Cat(a, Route(b, key, ps))
  {
    assert a.regular + b.regular + ps == a.regular + (b.regular + ps);
    assert a.td + b.td + ps == a.td + (b.td + ps);
  }

  /** The middle loop: one bookmaker's markets, each routed by its key, after the props gathered so far. */
  method AddMarketProps(ev: Event, title: string, ms: seq<Market>, now: string,
                        regular0: seq<HistoricalProp>, td0: seq<HistoricalProp>)
    returns (regular: seq<HistoricalProp>, td: seq<HistoricalProp>)
    ensures PropLists(regular, td) == Cat(PropLists(regular0, td0), FromMarkets(ev, title, ms, now))
  {
    regular, td := regular0, td0;
    var j := 0;
    while j < |ms|
      invariant 0 <= j <= |ms|
      invariant PropLists(regular, td) == Cat(PropLists(regular0, td0), FromMarkets(ev, title, ms[..j], now))
    {
      var key := ms[j].key.GetOr("");
      FromMarketsStep(ev, title, ms, j, now);
      RouteAfterCat(PropLists(regular0, td0), FromMarkets(ev, title, ms[..j], now), key,
                    FromOutcomes(ev, title, key, ms[j].outcomes, now));
      regular, td := AddOutcomeProps(ev, title, key, ms[j].outcomes, now, regular, td);
      j := j + 1;
    }
    assert ms[..j] == ms;
  }

  lemma FromMarketsStep(ev: Event, title: string, ms: seq<Market>, j: int, now: string)
    requires 0 <= j < |ms|
    ensures FromMarkets(ev, title, ms[..j + 1], now)
            == Route(FromMarkets(ev, title, ms[..j], now), MarketKey(ms[j]), FromOutcomes(ev, title, MarketKey(ms[j]), ms[j].outcomes, now))
  {
    assert ms[..j + 1][..j] == ms[..j];
  }

  lemma FromBookmakersStep(ev: Event, bms: seq<Bookmaker>, i: int, now: string)
    requires 0 <= i < |bms|
    ensures FromBookmakers(ev, bms[..i + 1], now) == Cat(FromBookmakers(ev, bms[..i], now), FromMarkets(ev, bms[i].title, bms[i].markets, now))
  {
    assert bms[..i + 1][..i] == bms[..i];
  }

  method ProcessPlayerProps(ev: Event, odds: Option<OddsData>, now: string)
    returns (regular: seq<HistoricalProp>, td: seq<HistoricalProp>)
    ensures PropLists(regular, td) == PlayerProps(ev, odds, now)
  {
    regular, td := [], [];
    if !(odds.Some? && odds.value.Truthy()) {
      return;
    }
    var bms := odds.value.Bookmakers();
    var i := 0;
    while i < |bms|
      invariant 0 <= i <= |bms|
      invariant PropLists(regular, td) == FromBookmakers(ev, bms[..i], now)
    {
      FromBookmakersStep(ev, bms, i, now);
      regular, td := AddMarketProps(ev, bms[i].title, bms[i].markets, now, regular, td);
      i := i + 1;
    }
    assert bms[..i] == bms;
  }

  /** Every market's props regardless of key, in order: the reference the routing is checked against. */
  function AllProps(ev: Event, title: string, ms: seq<Market>, now: string): seq<HistoricalProp>
    decreases |ms|
  {
    if ms == [] then []
    else
      var init, m := ms[..|ms| - 1], ms[|ms| - 1];
      AllProps(ev, title, init, now) + FromOutcomes(ev, title, MarketKey(m), m.outcomes, now)
  }

  predicate TdMarket(m: Market)
  {
    MarketKey(m) == AnytimeTdKey
  }

  predicate RegularMarket(m: Market)
  {
    MarketKey(m) != AnytimeTdKey
  }

  /** The anytime-touchdown list holds exactly the props of `player_anytime_td` markets, the regular list those of all others. */
  lemma {:induction false} PropsRoutedByMarketKey(ev: Event, title: string, ms: seq<Market>, now: string)
    ensures FromMarkets(ev, title, ms, now).td == AllProps(ev, title, Filter(ms, TdMarket), now)
    ensures FromMarkets(ev, title, ms, now).regular == AllProps(ev, title, Filter(ms, RegularMarket), now)
    decreases |ms|
  {
    if ms != [] {
      var init, m := ms[..|ms| - 1], ms[|ms| - 1];
      PropsRoutedByMarketKey(ev, title, init, now);
      FilterStep(ms, TdMarket);
      FilterStep(ms, RegularMarket);
      var t, g := Filter(init, TdMarket), Filter(init, RegularMarket);
      var fo := FromOutcomes(ev, title, MarketKey(m), m.outcomes, now);
      var before := FromMarkets(ev, title, init, now);
      assert FromMarkets(ev, title, ms, now) == Route(before, MarketKey(m), fo);
      if TdMarket(m) {
        assert Filter(ms, TdMarket) == t + [m];
        assert Filter(ms, RegularMarket) == g + [] == g;
        AllPropsSnoc(ev, title, t, m, now);
        assert Route(before, MarketKey(m), fo) == PropLists(before.regular, before.td + fo);
      } else {
        assert Filter(ms, RegularMarket) == g + [m];
        assert Filter(ms, TdMarket) == t + [] == t;
        AllPropsSnoc(ev, title, g, m, now);
        assert Route(before, MarketKey(m), fo) == PropLists(before.regular + fo, before.td);
      }
    }
  }

  lemma AllPropsSnoc(ev: Event, title: string, ms: seq<Market>, m: Market, now: string)
    ensures AllProps(ev, title, ms + [m], now) == AllProps(ev, title, ms, now) + FromOutcomes(ev, title, MarketKey(m), m.outcomes, now)
  {
    assert (ms + [m])[..|ms|] == ms;
  }

  /** With a description, the historical name agrees with the odds client's. */
  lemma PlayerNameAsClient(o: Outcome)
    requires o.description.Some?
    ensures HistoricalPlayerName(o) == OddsClient.ExtractPlayerName(o)
  {
  }

  // ---- the package ----

  /** The collection package in the writer's shape, with its metadata. */
  datatype Package = Package(
    week: int, snapshot: int, snapshotDescription: string, collectionTime: string,
    gamesCount: int, propsCount: int, tdCount: int,
    games: seq<GameLine>, props: seq<HistoricalProp>, tdProps: seq<HistoricalProp>,
    source: string, weekName: string)

  /** `odds_map.get(game_id)` */
  function OddsFor(odds: map<string, OddsData>, id: string): Option<OddsData>
  {
    if id in odds then Some(odds[id]) else None
  }

  /** One game line per game of `ids`, in order. */
  function GamesOf(events: Dict<string, Event>, odds: map<string, OddsData>, ids: seq<string>): (r: seq<GameLine>)
    requires forall i :: 0 <= i < |ids| ==> ids[i] in events.values
    ensures |r| == |ids|
    decreases |ids|
  {
    if ids == [] then []
    else
      var init, id := ids[..|ids| - 1], ids[|ids| - 1];
      GamesOf(events, odds, init) + [GameLineOf(events.values[id], OddsFor(odds, id))]
  }

  /** The game line at position `i` is the one of the `i`-th game. */
  lemma {:induction false} GameLineAt(events: Dict<string, Event>, odds: map<string, OddsData>, ids: seq<string>, i: int)
    requires forall i :: 0 <= i < |ids| ==> ids[i] in events.values
    requires 0 <= i < |ids|
    ensures GamesOf(events, odds, ids)[i] == GameLineOf(events.values[ids[i]], OddsFor(odds, ids[i]))
    decreases |ids|
  {
    var init := ids[..|ids| - 1];
    if i < |init| {
      assert forall j :: 0 <= j < |init| ==> init[j] == ids[j];
      GameLineAt(events, odds, init, i);
    }
  }

  /** The props of the games `ids`, in order; a game without odds contributes none. */
  function PropsOfGames(events: Dict<string, Event>, odds: map<string, OddsData>, ids: seq<string>, now: string): PropLists
    requires forall i :: 0 <= i < |ids| ==> ids[i] in events.values
    decreases |ids|
  {
    if ids == [] then PropLists([], [])
    else
      var init, id := ids[..|ids| - 1], ids[|ids| - 1];
      Cat(PropsOfGames(events, odds, init, now), PlayerProps(events.values[id], OddsFor(odds, id), now))
  }

  /** Every prop of `ps` belongs to one of the games `ids` that have odds. */
  predicate FromGamesWithOdds(ps: seq<HistoricalProp>, odds: map<string, OddsData>, ids: seq<string>)
  {
    forall i :: 0 <= i < |ps| ==> ps[i].gameId in odds && ps[i].gameId in ids
  }

  predicate AllAnytimeTd(ps: seq<HistoricalProp>)
  {
    forall i :: 0 <= i < |ps| ==> ps[i].marketType == "Anytime TD"
  }

  /** Each event is stored under its own id. */
  predicate KeyedByOwnId(events: Dict<string, Event>, ids: seq<string>)
  {
    forall i :: 0 <= i < |ids| ==> ids[i] in events.values && events.values[ids[i]].id == ids[i]
  }

  /** A prop belongs to one of the games that have odds, and the touchdown list holds only anytime-touchdown props. */
  lemma {:induction false} PropsComeFromGamesWithOdds(events: Dict<string, Event>, odds: map<string, OddsData>, ids: seq<string>, now: string)
    requires KeyedByOwnId(events, ids)
    ensures FromGamesWithOdds(PropsOfGames(events, odds, ids, now).regular, odds, ids)
    ensures FromGamesWithOdds(PropsOfGames(events, odds, ids, now).td, odds, ids)
    ensures AllAnytimeTd(PropsOfGames(events, odds, ids, now).td)
    decreases |ids|
  {
    if ids != [] {
      var init, id := ids[..|ids| - 1], ids[|ids| - 1];
      assert forall j :: 0 <= j < |init| ==> init[j] == ids[j];
      PropsComeFromGamesWithOdds(events, odds, init, now);
      var before := PropsOfGames(events, odds, init, now);
      var more := PlayerProps(events.values[id], OddsFor(odds, id), now);
      assert PropsOfGames(events, odds, ids, now) == Cat(before, more);
      if HasOdds(OddsFor(odds, id)) {
        assert id in odds;
        FromBookmakersOfEvent(events.values[id], OddsFor(odds, id).value.Bookmakers(), now);
      } else {
        assert more == PropLists([], []);
      }
      assert OfEvent(more.regular, events.values[id]) && OfEvent(more.td, events.values[id]);
    }
  }

  /** `_convert_to_sheets_format`' result: one game line per event, the props of the events with odds, and the counts. */
  function PackageOf(events: Dict<string, Event>, odds: map<string, OddsData>, name: string, now: string): Package
    requires Valid(events)
  {
    var ids := events.keys;
    var games := GamesOf(events, odds, ids);
    var props := PropsOfGames(events, odds, ids, now);
    Package(WeekNumber(name), 1, "Historical Data - " + name, now, |games|, |props.regular|, |props.td|,
            games, props.regular, props.td, "historical_api", name)
  }

  /** The package is snapshot 1 of the week its name gives, and its counts are the lengths of its lists. */
  lemma PackageCounts(events: Dict<string, Event>, odds: map<string, OddsData>, name: string, now: string)
    requires Valid(events)
    ensures var p := PackageOf(events, odds, name, now);
      && p.snapshot == 1 && p.week == WeekNumber(name)
      && p.snapshotDescription == "Historical Data - " + name
      && p.gamesCount == |p.games| == |events.keys|
      && p.propsCount == |p.props| && p.tdCount == |p.tdProps|
  {
  }

  /** The week-number parse with its `try`/`except`. */
  method ParseWeekNumber(name: string) returns (week: int)
    ensures week == WeekNumber(name)
  {
    week := 1;
    if Contains(name, "Week_") {
      ContainsSplits(name, "Week_");
      var parsed := ParseInt(Split(name, "Week_")[1]);
      if parsed.Some? {
        week := parsed.value;
      }
    }
  }

  /** One more game: its line and its props after those of the earlier games. */
  lemma GamesStep(events: Dict<string, Event>, odds: map<string, OddsData>, ids: seq<string>, i: int, now: string)
    requires forall j :: 0 <= j < |ids| ==> ids[j] in events.values
    requires 0 <= i < |ids|
    ensures GamesOf(events, odds, ids[..i + 1])
            == GamesOf(events, odds, ids[..i]) + [GameLineOf(events.values[ids[i]], OddsFor(odds, ids[i]))]
    ensures PropsOfGames(events, odds, ids[..i + 1], now)
            == Cat(PropsOfGames(events, odds, ids[..i], now), PlayerProps(events.values[ids[i]], OddsFor(odds, ids[i]), now))
  {
    assert ids[..i + 1][..i] == ids[..i];
  }

  /** One pass of the loop over the events: the game line, and the props when the event has odds. */
  method ConvertGame(event: Event, oddsData: Option<OddsData>, now: string)
    returns (line: GameLine, regular: seq<HistoricalProp>, td: seq<HistoricalProp>)
    ensures line == GameLineOf(event, oddsData)
    ensures PropLists(regular, td) == PlayerProps(event, oddsData, now)
  {
    line := ProcessGameLines(event, oddsData);
    regular, td := [], [];
    if oddsData.Some? && oddsData.value.Truthy() {
      regular, td := ProcessPlayerProps(event, oddsData, now);
    }
  }

  method ConvertToSheetsFormat(events: Dict<string, Event>, odds: map<string, OddsData>, name: string, now: string)
    returns (p: Package)
    requires Valid(events)
    ensures p == PackageOf(events, odds, name, now)
  {
    var week := ParseWeekNumber(name);
    var ids := events.keys;
    var games: seq<GameLine> := [];
    var props: seq<HistoricalProp> := [];
    var tdProps: seq<HistoricalProp> := [];
    var i := 0;
    while i < |ids|
      invariant 0 <= i <= |ids|
      invariant games == GamesOf(events, odds, ids[..i])
      invariant PropLists(props, tdProps) == PropsOfGames(events, odds, ids[..i], now)
    {
      GamesStep(events, odds, ids, i, now);
      ghost var done := ids[..i + 1];
      var oddsData := if ids[i] in odds then Some(odds[ids[i]]) else None;
      var line, regular, td := ConvertGame(events.values[ids[i]], oddsData, now);
      games := games + [line];
      props := props + regular;
      tdProps := tdProps + td;
      i := i + 1;
      assert ids[..i] == done;
    }
    assert ids[..i] == ids;
    p := Package(week, 1, "Historical Data - " + name, now, |games|, |props|, |tdProps|,
                 games, props, tdProps, "historical_api", name);
  }

  /** `process_week_data`: `None` where the source raises because the week has no event files. */
  method ProcessWeekData(eventFiles: seq<seq<Event>>, oddsFiles: seq<OddsFile>, name: string, now: string)
    returns (r: Option<Package>)
    ensures eventFiles == [] ==> r == None
    ensures eventFiles != [] ==>
              var events := EventIndex(Flatten(eventFiles));
              r == Some(PackageOf(events, MatchOdds(events.keys, oddsFiles), name, now))
  {
    if |eventFiles| == 0 {
      return None;
    }
    var events := IndexEventFiles(eventFiles);
    var odds := MatchOddsFiles(events.keys, oddsFiles);
    var p := ConvertToSheetsFormat(events, odds, name, now);
    return Some(p);
  }

  /** Of a week's events, each gets one game line in first-seen order, and props only come from events with a matched odds file. */
  lemma WeekPackageShape(evs: seq<Event>, oddsFiles: seq<OddsFile>, name: string, now: string)
    ensures var events := EventIndex(evs);
            var p := PackageOf(events, MatchOdds(events.keys, oddsFiles), name, now);
            && |p.games| == |events.keys|
            && (forall i :: 0 <= i < |p.games| ==> p.games[i].gameId == events.keys[i])
            && FromGamesWithOdds(p.props, MatchOdds(events.keys, oddsFiles), events.keys)
            && FromGamesWithOdds(p.tdProps, MatchOdds(events.keys, oddsFiles), events.keys)
            && AllAnytimeTd(p.tdProps)
  {
    var events := EventIndex(evs);
    var odds := MatchOdds(events.keys, oddsFiles);
    forall i | 0 <= i < |events.keys|
      ensures events.keys[i] in events.values && events.values[events.keys[i]].id == events.keys[i]
      ensures GamesOf(events, odds, events.keys)[i].gameId == events.keys[i]
    {
      EventUnderItsId(evs, events.keys[i]);
      GameLineAt(events, odds, events.keys, i);
    }
    PropsComeFromGamesWithOdds(events, MatchOdds(events.keys, oddsFiles), events.keys, now);
  }
}
