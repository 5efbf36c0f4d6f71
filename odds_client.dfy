/**
 * The Odds API client's prop extraction: the raw per-event response (whose
 * items may be of any JSON type) becomes one flat prop record per outcome of
 * the requested market.
 */
module OddsClient {
  import opened Wrappers
  import opened Text
  import opened Feed
  import opened Seqs

  /** A JSON array element: a dictionary, or anything else (skipped by `isinstance(x, dict)` checks). */
  datatype Item<T> = Obj(value: T) | NotObj

  datatype PropsMarket = PropsMarket(key: Option<string>, outcomes: seq<Item<Outcome>>)
  datatype PropsBookmaker = PropsBookmaker(title: string, markets: seq<Item<PropsMarket>>)
  datatype PropsEvent = PropsEvent(
    id: string, commenceTime: string, homeTeam: string, awayTeam: string,
    bookmakers: seq<Item<PropsBookmaker>>)

  const MarketNames: map<string, string> := map[
    "player_pass_yds" := "Passing Yards",
    "player_pass_tds" := "Passing TDs",
    "player_rush_yds" := "Rushing Yards",
    "player_receptions" := "Receptions",
    "player_reception_yds" := "Receiving Yards",
    "player_anytime_td" := "Anytime TD"]

  /** `_market_display_name`: the six known market keys get display names; any other key is returned unchanged. */
  function MarketDisplayName(key: string): string
  {
    if key == "player_pass_yds" then "Passing Yards"
    else if key == "player_pass_tds" then "Passing TDs"
    else if key == "player_rush_yds" then "Rushing Yards"
    else if key == "player_receptions" then "Receptions"
    else if key == "player_reception_yds" then "Receiving Yards"
    else if key == "player_anytime_td" then "Anytime TD"
    else key
  }

  /** The display name is the table's `.get(key, key)`. */
  lemma DisplayNameIsTableGet(key: string)
    ensures key in MarketNames ==> MarketDisplayName(key) == MarketNames[key]
    ensures key !in MarketNames ==> MarketDisplayName(key) == key
  {
  }

  /** The inverse of the display-name table. */
  function MarketKeyOf(name: string): Option<string>
  {
    if name == "Passing Yards" then Some("player_pass_yds")
    else if name == "Passing TDs" then Some("player_pass_tds")
    else if name == "Rushing Yards" then Some("player_rush_yds")
    else if name == "Receptions" then Some("player_receptions")
    else if name == "Receiving Yards" then Some("player_reception_yds")
    else if name == "Anytime TD" then Some("player_anytime_td")
    else None
  }

  /** Distinct known keys get distinct display names: the display name gives the key back. */
  lemma DisplayNameRoundTrip(key: string)
    requires key in MarketNames
    ensures MarketKeyOf(MarketDisplayName(key)) == Some(key)
  {
  }

  /** Player name from an outcome: its description without " Over"/" Under", else its name but the last word. */
  function ExtractPlayerName(o: Outcome): (r: string)
    ensures o.description.None? && o.name.None? ==> r == ""
  {
    if o.description.Some? then Strip(RemoveAll(RemoveAll(o.description.value, " Over"), " Under"))
    else if o.name.Some? then
      var parts := Split(o.name.value, " ");
      if |parts| >= 2 then Join(parts[..|parts| - 1], " ") else ""
    else ""
  }

  /** A name taken from the description has no whitespace at either end. */
  lemma DescriptionNameTrimmed(o: Outcome)
    requires o.description.Some?
    ensures var r := ExtractPlayerName(o); r == [] || (!IsSpace(r[0]) && !IsSpace(r[|r| - 1]))
  {
    StripTrims(RemoveAll(RemoveAll(o.description.value, " Over"), " Under"));
  }

  /** A description with neither marker is only stripped. */
  lemma DescriptionWithoutMarkers(o: Outcome)
    requires o.description.Some? && !Contains(o.description.value, " Over") && !Contains(o.description.value, " Under")
    ensures ExtractPlayerName(o) == Strip(o.description.value)
  {
    ReplaceAbsent(o.description.value, " Over", "");
    ReplaceAbsent(o.description.value, " Under", "");
  }

  /**
   * Without a description, the player name is everything before the last space
   * of the outcome's name; a name with no space gives no player.
   */
  lemma NameFallback(o: Outcome)
    requires o.description.None? && o.name.Some?
    ensures ' ' !in o.name.value ==> ExtractPlayerName(o) == ""
    ensures ' ' in o.name.value ==> exists last :: ' ' !in last && o.name.value == ExtractPlayerName(o) + " " + last
  {
    var name := o.name.value;
    var parts := Split(name, " ");
    if ' ' !in name {
      SplitWithoutSeparator(name, ' ');
    } else {
      JoinSplit(name, " ");
      if |parts| == 1 {
        assert Join(parts, " ") == parts[0];
        SplitPiecesHaveNoSeparator(name, " ", 0);
        assert false;
      }
      JoinSnoc(parts, " ");
      SplitPiecesHaveNoSeparator(name, " ", |parts| - 1);
      var last := parts[|parts| - 1];
      assert name == ExtractPlayerName(o) + " " + last;
    }
  }

  /** Line type from the outcome's name. */
  function LineTypeOf(o: Outcome): LineType
  {
    var name := o.name.GetOr("");
    if Contains(name, "Over") then Over
    else if Contains(name, "Under") then Under
    else Unknown
  }

  /** "Over" anywhere in the name wins; otherwise "Under" anywhere; otherwise the type is unknown. */
  lemma LineTypeByName(o: Outcome)
    ensures LineTypeOf(o) == Over <==> Contains(o.name.GetOr(""), "Over")
    ensures LineTypeOf(o) == Under <==> !Contains(o.name.GetOr(""), "Over") && Contains(o.name.GetOr(""), "Under")
  {
  }

  function MakeRecord(ev: PropsEvent, bm: PropsBookmaker, marketType: string, o: Outcome, now: string): PropRecord
  {
    PropRecord(ev.id, ev.commenceTime, ev.homeTeam, ev.awayTeam, bm.title, MarketDisplayName(marketType),
               ExtractPlayerName(o), LineTypeOf(o), o.point.GetOr(Null), o.price.GetOr(Null), now)
  }

  // ---- the nested loops as functions ----

  function FromOutcomes(ev: PropsEvent, bm: PropsBookmaker, marketType: string, outs: seq<Item<Outcome>>, now: string): seq<PropRecord>
    decreases |outs|
  {
    if outs == [] then []
    else
      var rest := FromOutcomes(ev, bm, marketType, outs[..|outs| - 1], now);
      match outs[|outs| - 1]
      case NotObj => rest
      case Obj(o) => if ExtractPlayerName(o) == "" then rest else rest + [MakeRecord(ev, bm, marketType, o, now)]
  }

  predicate MatchesMarket(m: Item<PropsMarket>, marketType: string)
  {
    m.Obj? && m.value.key == Some(marketType)
  }

  function FromMarkets(ev: PropsEvent, bm: PropsBookmaker, marketType: string, ms: seq<Item<PropsMarket>>, now: string): seq<PropRecord>
    decreases |ms|
  {
    if ms == [] then []
    else
      var rest := FromMarkets(ev, bm, marketType, ms[..|ms| - 1], now);
      var m := ms[|ms| - 1];
      if MatchesMarket(m, marketType) then rest + FromOutcomes(ev, bm, marketType, m.value.outcomes, now) else rest
  }

  function FromBookmakers(ev: PropsEvent, marketType: string, bms: seq<Item<PropsBookmaker>>, now: string): seq<PropRecord>
    decreases |bms|
  {
    if bms == [] then []
    else
      var rest := FromBookmakers(ev, marketType, bms[..|bms| - 1], now);
      match bms[|bms| - 1]
      case NotObj => rest
      case Obj(bm) => rest + FromMarkets(ev, bm, marketType, bm.markets, now)
  }

  /** The records `_process_player_props` returns for `events` and the requested market. */
  function PropsFor(events: seq<Item<PropsEvent>>, marketType: string, now: string): seq<PropRecord>
    decreases |events|
  {
    if events == [] then []
    else
      var rest := PropsFor(events[..|events| - 1], marketType, now);
      match events[|events| - 1]
      case NotObj => rest
      case Obj(ev) => rest + FromBookmakers(ev, marketType, ev.bookmakers, now)
  }

  /** `_process_player_props`: four nested loops appending to one list. */
  method ProcessPlayerProps(events: seq<Item<PropsEvent>>, marketType: string, now: string) returns (props: seq<PropRecord>)
    ensures props == PropsFor(events, marketType, now)
  {
    props := [];
    if |events| == 0 {
      return;
    }
    var i := 0;
    while i < |events|
      invariant 0 <= i <= |events|
      invariant props == PropsFor(events[..i], marketType, now)
    {
      assert events[..i + 1][..i] == events[..i];
      if events[i].Obj? && |events[i].value.bookmakers| > 0 {
        var ev := events[i].value;
        var base := props;
        var j := 0;
        while j < |ev.bookmakers|
          invariant 0 <= j <= |ev.bookmakers|
          invariant props == base + FromBookmakers(ev, marketType, ev.bookmakers[..j], now)
        {
          assert ev.bookmakers[..j + 1][..j] == ev.bookmakers[..j];
          if ev.bookmakers[j].Obj? && |ev.bookmakers[j].value.markets| > 0 {
            var bm := ev.bookmakers[j].value;
            var more := MarketsLoop(ev, bm, marketType, now);
            props := props + more;
          }
          j := j + 1;
        }
        assert ev.bookmakers[..j] == ev.bookmakers;
      }
      i := i + 1;
    }
    assert events[..i] == events;
  }

  /** The two inner loops, over one bookmaker's markets and their outcomes. */
  method MarketsLoop(ev: PropsEvent, bm: PropsBookmaker, marketType: string, now: string) returns (props: seq<PropRecord>)
    ensures props == FromMarkets(ev, bm, marketType, bm.markets, now)
  {
    props := [];
    var k := 0;
    while k < |bm.markets|
      invariant 0 <= k <= |bm.markets|
      invariant props == FromMarkets(ev, bm, marketType, bm.markets[..k], now)
    {
      assert bm.markets[..k + 1][..k] == bm.markets[..k];
      var m := bm.markets[k];
      if m.Obj? && m.value.key == Some(marketType) {
        var outs := m.value.outcomes;
        var base := props;
        var n := 0;
        while n < |outs|
          invariant 0 <= n <= |outs|
          invariant props == base + FromOutcomes(ev, bm, marketType, outs[..n], now)
        {
          assert outs[..n + 1][..n] == outs[..n];
          if outs[n].Obj? {
            var o := outs[n].value;
            var player := ExtractPlayerName(o);
            if player != "" {
              var lt := LineTypeOf(o);
              props := props + [PropRecord(ev.id, ev.commenceTime, ev.homeTeam, ev.awayTeam, bm.title,
                                           MarketDisplayName(marketType), player, lt,
                                           o.point.GetOr(Null), o.price.GetOr(Null), now)];
            }
          }
          n := n + 1;
        }
        assert outs[..n] == outs;
      }
      k := k + 1;
    }
    assert bm.markets[..k] == bm.markets;
  }

  // ---- what the records are ----

  /** Every record has a player and carries the requested market's display name. */
  lemma {:induction false} RecordsOfOutcomes(ev: PropsEvent, bm: PropsBookmaker, marketType: string, outs: seq<Item<Outcome>>, now: string)
    ensures forall r :: r in FromOutcomes(ev, bm, marketType, outs, now) ==>
              r.playerName != "" && r.marketType == MarketDisplayName(marketType) && r.gameId == ev.id && r.bookmaker == bm.title
    ensures |FromOutcomes(ev, bm, marketType, outs, now)| <= |outs|
    decreases |outs|
  {
    if outs != [] {
      RecordsOfOutcomes(ev, bm, marketType, outs[..|outs| - 1], now);
    }
  }

  lemma {:induction false} RecordsOfMarkets(ev: PropsEvent, bm: PropsBookmaker, marketType: string, ms: seq<Item<PropsMarket>>, now: string)
    ensures forall r :: r in FromMarkets(ev, bm, marketType, ms, now) ==>
              r.playerName != "" && r.marketType == MarketDisplayName(marketType) && r.gameId == ev.id && r.bookmaker == bm.title
    decreases |ms|
  {
    if ms != [] {
      RecordsOfMarkets(ev, bm, marketType, ms[..|ms| - 1], now);
      var m := ms[|ms| - 1];
      if MatchesMarket(m, marketType) {
        RecordsOfOutcomes(ev, bm, marketType, m.value.outcomes, now);
      }
    }
  }

  lemma {:induction false} RecordsOfBookmakers(ev: PropsEvent, marketType: string, bms: seq<Item<PropsBookmaker>>, now: string)
    ensures forall r :: r in FromBookmakers(ev, marketType, bms, now) ==>
              r.playerName != "" && r.marketType == MarketDisplayName(marketType) && r.gameId == ev.id
    decreases |bms|
  {
    if bms != [] {
      RecordsOfBookmakers(ev, marketType, bms[..|bms| - 1], now);
      if bms[|bms| - 1].Obj? {
        RecordsOfMarkets(ev, bms[|bms| - 1].value, marketType, bms[|bms| - 1].value.markets, now);
      }
    }
  }

  /** No record lacks a player name, and every record is labelled with the requested market. */
  lemma {:induction false} RecordsHavePlayersAndMarket(events: seq<Item<PropsEvent>>, marketType: string, now: string)
    ensures forall r :: r in PropsFor(events, marketType, now) ==>
              r.playerName != "" && r.marketType == MarketDisplayName(marketType)
    decreases |events|
  {
    if events != [] {
      RecordsHavePlayersAndMarket(events[..|events| - 1], marketType, now);
      if events[|events| - 1].Obj? {
        var ev := events[|events| - 1].value;
        RecordsOfBookmakers(ev, marketType, ev.bookmakers, now);
      }
    }
  }

  /** The markets of the requested key, dictionaries only. */
  function OnlyRequested(ms: seq<Item<PropsMarket>>, marketType: string): seq<Item<PropsMarket>>
  {
    Filter(ms, m => MatchesMarket(m, marketType))
  }

  /** Markets of any other key, and non-dictionary markets, contribute nothing. */
  lemma {:induction false} OtherMarketsIgnored(ev: PropsEvent, bm: PropsBookmaker, marketType: string, ms: seq<Item<PropsMarket>>, now: string)
    ensures FromMarkets(ev, bm, marketType, ms, now) == FromMarkets(ev, bm, marketType, OnlyRequested(ms, marketType), now)
    decreases |ms|
  {
    if ms != [] {
      var init, m := ms[..|ms| - 1], ms[|ms| - 1];
      OtherMarketsIgnored(ev, bm, marketType, init, now);
      var f := OnlyRequested(init, marketType);
      if MatchesMarket(m, marketType) {
        var g := OnlyRequested(ms, marketType);
        assert g == f + [m];
        assert g[..|g| - 1] == f;
      } else {
        assert OnlyRequested(ms, marketType) == f;
      }
    }
  }

  /** A response with no market of the requested key yields no props. */
  lemma {:induction false} NoRequestedMarketNoProps(ev: PropsEvent, bm: PropsBookmaker, marketType: string, ms: seq<Item<PropsMarket>>, now: string)
    requires forall k :: 0 <= k < |ms| ==> !MatchesMarket(ms[k], marketType)
    ensures FromMarkets(ev, bm, marketType, ms, now) == []
    decreases |ms|
  {
    if ms != [] {
      NoRequestedMarketNoProps(ev, bm, marketType, ms[..|ms| - 1], now);
    }
  }
}
