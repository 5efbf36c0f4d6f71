/**
 * The odds shaper of the data collector: nested game → bookmaker → market →
 * outcome data becomes one flat row per (game, bookmaker), with the odds of
 * the current snapshot under the `opening_` (snapshot 1) or `final_` prefix.
 */
module GameShaper {
  import opened Wrappers
  import opened Text
  import opened Feed

  /** The nine odds columns of one snapshot kind. */
  datatype OddsFields = OddsFields(
    spreadLine: Cell, spreadHomeOdds: Cell, spreadAwayOdds: Cell, collectedDate: Cell,
    totalLine: Cell, totalOverOdds: Cell, totalUnderOdds: Cell,
    mlHome: Cell, mlAway: Cell)

  const BlankOdds: OddsFields := OddsFields(Blank, Blank, Blank, Blank, Blank, Blank, Blank, Blank, Blank)

  /** One shaped row: identity columns, then the opening and the final columns. */
  datatype GameRow = GameRow(
    gameId: string, date: string, homeTeam: string, awayTeam: string, bookmaker: string,
    opening: OddsFields, final: OddsFields)

  // ---- game id ----

  /** A team's code in the game id: spaces removed, the first four characters, upper-cased. */
  function TeamCode(team: string): (code: string)
    ensures |code| <= 4
    ensures ' ' !in code
  {
    var squeezed := RemoveAll(team, " ");
    RemoveCharGone(team, ' ');
    var code := Upper(Take(squeezed, 4));
    assert forall i :: 0 <= i < |code| ==> code[i] != ' ' by {
      forall i | 0 <= i < |code| ensures code[i] != ' ' {
        assert code[i] == UpperChar(squeezed[i]);
      }
    }
    code
  }

  /** `_generate_game_id` */
  function GameId(ev: Event): string
  {
    "NFL_2025_" + Take(ev.commenceTime, 10) + "_" + TeamCode(ev.awayTeam) + "_" + TeamCode(ev.homeTeam)
  }

  lemma TeamCodeHasNoUnderscore(team: string)
    requires '_' !in team
    ensures '_' !in TeamCode(team)
  {
    var squeezed := RemoveAll(team, " ");
    NoNewChars(team, ' ', '_');
    var code := TeamCode(team);
    forall i | 0 <= i < |code| ensures code[i] != '_' {
      assert code[i] == UpperChar(squeezed[i]);
    }
  }

  /** Removing a character introduces no other character. */
  lemma {:induction false} NoNewChars(s: string, c: char, d: char)
    requires d !in s
    ensures d !in RemoveAll(s, [c])
    decreases |s|
  {
    if |s| >= 1 {
      NoNewChars(s[1..], c, d);
    }
  }

  /**
   * The game id splits back on '_' into its parts, the date first and the
   * away team before the home team, whenever the parts themselves hold no '_'.
   */
  lemma GameIdParts(ev: Event)
    requires '_' !in Take(ev.commenceTime, 10) && '_' !in ev.awayTeam && '_' !in ev.homeTeam
    ensures Split(GameId(ev), "_") ==
              ["NFL", "2025", Take(ev.commenceTime, 10), TeamCode(ev.awayTeam), TeamCode(ev.homeTeam)]
  {
    var date, away, home := Take(ev.commenceTime, 10), TeamCode(ev.awayTeam), TeamCode(ev.homeTeam);
    TeamCodeHasNoUnderscore(ev.awayTeam);
    TeamCodeHasNoUnderscore(ev.homeTeam);
    var parts := ["NFL", "2025", date, away, home];
    assert '_' !in "NFL" && '_' !in "2025";
    assert Join(parts, "_") == GameId(ev) by {
      assert Join([home], "_") == home;
      assert Join([away, home], "_") == away + "_" + home by { assert [away, home][1..] == [home]; }
      assert Join([date, away, home], "_") == date + "_" + (away + "_" + home)
        by { assert [date, away, home][1..] == [away, home]; }
      assert Join(["2025", date, away, home], "_") == "2025" + "_" + (date + "_" + (away + "_" + home))
        by { assert ["2025", date, away, home][1..] == [date, away, home]; }
      assert parts[1..] == ["2025", date, away, home];
      IdAssociates(date, away, home);
    }
    SplitJoin(parts, '_');
  }

  lemma IdAssociates(date: string, away: string, home: string)
    ensures "NFL_2025_" + date + "_" + away + "_" + home == "NFL" + "_" + ("2025" + "_" + (date + "_" + (away + "_" + home)))
  {
    assert "NFL_2025_" == "NFL" + "_" + "2025" + "_";
  }

  // ---- filling one snapshot kind ----

  function OutcomeName(o: Outcome): string { o.name.GetOr("") }
  function PointOf(o: Outcome): Cell { o.point.GetOr(Blank) }
  function PriceOf(o: Outcome): Cell { o.price.GetOr(Blank) }

  datatype Kind = Spreads | Totals | Moneyline

  /** One outcome of a spreads, totals or h2h market applied to the columns. */
  function Step(kind: Kind, f: OddsFields, o: Outcome, home: string, away: string): OddsFields
  {
    var name := OutcomeName(o);
    match kind
    case Spreads =>
      if name == home then f.(spreadLine := PointOf(o), spreadHomeOdds := PriceOf(o))
      else if name == away then f.(spreadAwayOdds := PriceOf(o))
      else f
    case Totals =>
      if Contains(name, "Over") then f.(totalLine := PointOf(o), totalOverOdds := PriceOf(o))
      else if Contains(name, "Under") then f.(totalUnderOdds := PriceOf(o))
      else f
    case Moneyline =>
      if name == home then f.(mlHome := PriceOf(o))
      else if name == away then f.(mlAway := PriceOf(o))
      else f
  }

  /** The outcomes of one market, in order. */
  function FoldOutcomes(kind: Kind, f: OddsFields, outs: seq<Outcome>, home: string, away: string): OddsFields
    decreases |outs|
  {
    if outs == [] then f
    else Step(kind, FoldOutcomes(kind, f, outs[..|outs| - 1], home, away), outs[|outs| - 1], home, away)
  }

  /** One market; only spreads, totals and h2h markets with outcomes change anything. */
  function MarketStep(f: OddsFields, m: Market, home: string, away: string, timestamp: string): OddsFields
  {
    var key := m.key.GetOr("");
    if key == "spreads" && |m.outcomes| > 0 then
      FoldOutcomes(Spreads, f, m.outcomes, home, away).(collectedDate := Text(timestamp))
    else if key == "totals" && |m.outcomes| > 0 then FoldOutcomes(Totals, f, m.outcomes, home, away)
    else if key == "h2h" && |m.outcomes| > 0 then FoldOutcomes(Moneyline, f, m.outcomes, home, away)
    else f
  }

  function FoldMarkets(f: OddsFields, ms: seq<Market>, home: string, away: string, timestamp: string): OddsFields
    decreases |ms|
  {
    if ms == [] then f
    else MarketStep(FoldMarkets(f, ms[..|ms| - 1], home, away, timestamp), ms[|ms| - 1], home, away, timestamp)
  }

  // ---- an independent description of the filled columns ----

  /** Which outcomes write a column. */
  datatype Pick = HomeTeam | AwayOnly | OverName | UnderOnly

  predicate Selects(p: Pick, o: Outcome, home: string, away: string)
  {
    var name := OutcomeName(o);
    match p
    case HomeTeam => name == home
    case AwayOnly => name != home && name == away
    case OverName => Contains(name, "Over")
    case UnderOnly => !Contains(name, "Over") && Contains(name, "Under")
  }

  datatype Field = PointField | PriceField

  function FieldOf(fl: Field, o: Outcome): Cell
  {
    match fl
    case PointField => PointOf(o)
    case PriceField => PriceOf(o)
  }

  /** The field of the last selected outcome, or `d` when none is selected. */
  function LastPick(outs: seq<Outcome>, p: Pick, fl: Field, home: string, away: string, d: Cell): Cell
    decreases |outs|
  {
    if outs == [] then d
    else
      var o := outs[|outs| - 1];
      if Selects(p, o, home, away) then FieldOf(fl, o) else LastPick(outs[..|outs| - 1], p, fl, home, away, d)
  }

  lemma {:induction false} LastPickAppend(a: seq<Outcome>, b: seq<Outcome>, p: Pick, fl: Field, home: string, away: string, d: Cell)
    ensures LastPick(a + b, p, fl, home, away, d) == LastPick(b, p, fl, home, away, LastPick(a, p, fl, home, away, d))
    decreases |b|
  {
    if b == [] {
      assert a + b == a;
    } else {
      assert (a + b)[..|a + b| - 1] == a + b[..|b| - 1];
      LastPickAppend(a, b[..|b| - 1], p, fl, home, away, d);
    }
  }

  /** All outcomes of the markets with a given key, in order. */
  function KeyedOutcomes(ms: seq<Market>, key: string): seq<Outcome>
    decreases |ms|
  {
    if ms == [] then []
    else
      var m := ms[|ms| - 1];
      KeyedOutcomes(ms[..|ms| - 1], key) + (if m.key.GetOr("") == key then m.outcomes else [])
  }

  lemma KeyedStep(ms: seq<Market>, key: string)
    requires ms != []
    ensures var m := ms[|ms| - 1];
      KeyedOutcomes(ms, key) == if m.key.GetOr("") == key then KeyedOutcomes(ms[..|ms| - 1], key) + m.outcomes
                                else KeyedOutcomes(ms[..|ms| - 1], key)
  {
    var m := ms[|ms| - 1];
    if m.key.GetOr("") != key {
      assert KeyedOutcomes(ms[..|ms| - 1], key) + [] == KeyedOutcomes(ms[..|ms| - 1], key);
    }
  }

  lemma {:induction false} FoldSpreads(f: OddsFields, outs: seq<Outcome>, home: string, away: string)
    ensures FoldOutcomes(Spreads, f, outs, home, away) == f.(
      spreadLine := LastPick(outs, HomeTeam, PointField, home, away, f.spreadLine),
      spreadHomeOdds := LastPick(outs, HomeTeam, PriceField, home, away, f.spreadHomeOdds),
      spreadAwayOdds := LastPick(outs, AwayOnly, PriceField, home, away, f.spreadAwayOdds))
    decreases |outs|
  {
    if outs != [] {
      FoldSpreads(f, outs[..|outs| - 1], home, away);
    }
  }

  lemma {:induction false} FoldTotals(f: OddsFields, outs: seq<Outcome>, home: string, away: string)
    ensures FoldOutcomes(Totals, f, outs, home, away) == f.(
      totalLine := LastPick(outs, OverName, PointField, home, away, f.totalLine),
      totalOverOdds := LastPick(outs, OverName, PriceField, home, away, f.totalOverOdds),
      totalUnderOdds := LastPick(outs, UnderOnly, PriceField, home, away, f.totalUnderOdds))
    decreases |outs|
  {
    if outs != [] {
      FoldTotals(f, outs[..|outs| - 1], home, away);
    }
  }

  lemma {:induction false} FoldMoneyline(f: OddsFields, outs: seq<Outcome>, home: string, away: string)
    ensures FoldOutcomes(Moneyline, f, outs, home, away) == f.(
      mlHome := LastPick(outs, HomeTeam, PriceField, home, away, f.mlHome),
      mlAway := LastPick(outs, AwayOnly, PriceField, home, away, f.mlAway))
    decreases |outs|
  {
    if outs != [] {
      FoldMoneyline(f, outs[..|outs| - 1], home, away);
    }
  }

  /**
   * Every column after all markets: the last matching outcome across all
   * markets of its key wins; home-named spreads outcomes set the line and the
   * home odds, away-named ones only the away odds; the collection date is set
   * exactly when some spreads market has outcomes.
   */
  lemma {:induction false} FilledColumns(f: OddsFields, ms: seq<Market>, home: string, away: string, timestamp: string)
    ensures var r := FoldMarkets(f, ms, home, away, timestamp);
      var sp, tt, ml := KeyedOutcomes(ms, "spreads"), KeyedOutcomes(ms, "totals"), KeyedOutcomes(ms, "h2h");
      && r.spreadLine == LastPick(sp, HomeTeam, PointField, home, away, f.spreadLine)
      && r.spreadHomeOdds == LastPick(sp, HomeTeam, PriceField, home, away, f.spreadHomeOdds)
      && r.spreadAwayOdds == LastPick(sp, AwayOnly, PriceField, home, away, f.spreadAwayOdds)
      && r.collectedDate == (if |sp| > 0 then Text(timestamp) else f.collectedDate)
      && r.totalLine == LastPick(tt, OverName, PointField, home, away, f.totalLine)
      && r.totalOverOdds == LastPick(tt, OverName, PriceField, home, away, f.totalOverOdds)
      && r.totalUnderOdds == LastPick(tt, UnderOnly, PriceField, home, away, f.totalUnderOdds)
      && r.mlHome == LastPick(ml, HomeTeam, PriceField, home, away, f.mlHome)
      && r.mlAway == LastPick(ml, AwayOnly, PriceField, home, away, f.mlAway)
    decreases |ms|
  {
    if ms != [] {
      var init, m := ms[..|ms| - 1], ms[|ms| - 1];
      FilledColumns(f, init, home, away, timestamp);
      var g := FoldMarkets(f, init, home, away, timestamp);
      var key := m.key.GetOr("");
      FoldSpreads(g, m.outcomes, home, away);
      FoldTotals(g, m.outcomes, home, away);
      FoldMoneyline(g, m.outcomes, home, away);
      LastPickAppend(KeyedOutcomes(init, "spreads"), m.outcomes, HomeTeam, PointField, home, away, f.spreadLine);
      LastPickAppend(KeyedOutcomes(init, "spreads"), m.outcomes, HomeTeam, PriceField, home, away, f.spreadHomeOdds);
      LastPickAppend(KeyedOutcomes(init, "spreads"), m.outcomes, AwayOnly, PriceField, home, away, f.spreadAwayOdds);
      LastPickAppend(KeyedOutcomes(init, "totals"), m.outcomes, OverName, PointField, home, away, f.totalLine);
      LastPickAppend(KeyedOutcomes(init, "totals"), m.outcomes, OverName, PriceField, home, away, f.totalOverOdds);
      LastPickAppend(KeyedOutcomes(init, "totals"), m.outcomes, UnderOnly, PriceField, home, away, f.totalUnderOdds);
      LastPickAppend(KeyedOutcomes(init, "h2h"), m.outcomes, HomeTeam, PriceField, home, away, f.mlHome);
      LastPickAppend(KeyedOutcomes(init, "h2h"), m.outcomes, AwayOnly, PriceField, home, away, f.mlAway);
      KeyedStep(ms, "spreads");
      KeyedStep(ms, "totals");
      KeyedStep(ms, "h2h");
    }
  }

  // ---- rows ----

  /** The row of one bookmaker of one game; only the current snapshot kind's columns are filled. */
  function ShapeRow(ev: Event, bm: Bookmaker, snapshot: int, timestamp: string): (row: GameRow)
    ensures row.gameId == GameId(ev) && row.date == ev.commenceTime && row.bookmaker == bm.title
    ensures row.homeTeam == ev.homeTeam && row.awayTeam == ev.awayTeam
    ensures snapshot == 1 ==> row.final == BlankOdds
    ensures snapshot != 1 ==> row.opening == BlankOdds
  {
    var filled := FoldMarkets(BlankOdds, bm.markets, ev.homeTeam, ev.awayTeam, timestamp);
    GameRow(GameId(ev), ev.commenceTime, ev.homeTeam, ev.awayTeam, bm.title,
            if snapshot == 1 then filled else BlankOdds,
            if snapshot == 1 then BlankOdds else filled)
  }

  /** The rows of one game: one per bookmaker that has markets. */
  function ShapeBookmakers(ev: Event, bms: seq<Bookmaker>, snapshot: int, timestamp: string): seq<GameRow>
    decreases |bms|
  {
    if bms == [] then []
    else
      var bm := bms[|bms| - 1];
      ShapeBookmakers(ev, bms[..|bms| - 1], snapshot, timestamp)
        + (if |bm.markets| > 0 then [ShapeRow(ev, bm, snapshot, timestamp)] else [])
  }

  function ShapeGames(games: seq<Event>, snapshot: int, timestamp: string): seq<GameRow>
    decreases |games|
  {
    if games == [] then []
    else
      var ev := games[|games| - 1];
      ShapeGames(games[..|games| - 1], snapshot, timestamp)
        + (if |ev.bookmakers| > 0 then ShapeBookmakers(ev, ev.bookmakers, snapshot, timestamp) else [])
  }

  /** Every row of a game comes from one of its bookmakers that has markets. */
  lemma {:induction false} BookmakerRowSource(ev: Event, bms: seq<Bookmaker>, snapshot: int, timestamp: string, r: GameRow)
    requires r in ShapeBookmakers(ev, bms, snapshot, timestamp)
    ensures exists j :: 0 <= j < |bms| && |bms[j].markets| > 0 && r == ShapeRow(ev, bms[j], snapshot, timestamp)
    decreases |bms|
  {
    var init := bms[..|bms| - 1];
    if r in ShapeBookmakers(ev, init, snapshot, timestamp) {
      BookmakerRowSource(ev, init, snapshot, timestamp, r);
      var j :| 0 <= j < |init| && |init[j].markets| > 0 && r == ShapeRow(ev, init[j], snapshot, timestamp);
      assert bms[j] == init[j];
    } else {
      assert r == ShapeRow(ev, bms[|bms| - 1], snapshot, timestamp);
    }
  }

  /** Every bookmaker that has markets gives a row. */
  lemma {:induction false} BookmakerRowProduced(ev: Event, bms: seq<Bookmaker>, snapshot: int, timestamp: string, j: int)
    requires 0 <= j < |bms| && |bms[j].markets| > 0
    ensures ShapeRow(ev, bms[j], snapshot, timestamp) in ShapeBookmakers(ev, bms, snapshot, timestamp)
    decreases |bms|
  {
    var init := bms[..|bms| - 1];
    if j < |init| {
      assert init[j] == bms[j];
      BookmakerRowProduced(ev, init, snapshot, timestamp, j);
      BookmakersGrow(ev, bms, snapshot, timestamp, ShapeRow(ev, bms[j], snapshot, timestamp));
    }
  }

  lemma BookmakersGrow(ev: Event, bms: seq<Bookmaker>, snapshot: int, timestamp: string, row: GameRow)
    requires bms != [] && row in ShapeBookmakers(ev, bms[..|bms| - 1], snapshot, timestamp)
    ensures row in ShapeBookmakers(ev, bms, snapshot, timestamp)
  {
  }

  /** Each row of the output belongs to a (game, bookmaker) pair whose bookmaker has markets. */
  lemma {:induction false} GameRowSource(games: seq<Event>, snapshot: int, timestamp: string, r: GameRow)
    requires r in ShapeGames(games, snapshot, timestamp)
    ensures exists i, j :: 0 <= i < |games| && 0 <= j < |games[i].bookmakers|
              && |games[i].bookmakers[j].markets| > 0 && r == ShapeRow(games[i], games[i].bookmakers[j], snapshot, timestamp)
    decreases |games|
  {
    var init, ev := games[..|games| - 1], games[|games| - 1];
    if r in ShapeGames(init, snapshot, timestamp) {
      GameRowSource(init, snapshot, timestamp, r);
      var i, j :| 0 <= i < |init| && 0 <= j < |init[i].bookmakers|
              && |init[i].bookmakers[j].markets| > 0 && r == ShapeRow(init[i], init[i].bookmakers[j], snapshot, timestamp);
      assert games[i] == init[i];
    } else {
      BookmakerRowSource(ev, ev.bookmakers, snapshot, timestamp, r);
    }
  }

  /** Each (game, bookmaker) pair whose bookmaker has markets is in the output. */
  lemma {:induction false} GameRowProduced(games: seq<Event>, snapshot: int, timestamp: string, i: int, j: int)
    requires 0 <= i < |games| && 0 <= j < |games[i].bookmakers| && |games[i].bookmakers[j].markets| > 0
    ensures ShapeRow(games[i], games[i].bookmakers[j], snapshot, timestamp) in ShapeGames(games, snapshot, timestamp)
    decreases |games|
  {
    var init := games[..|games| - 1];
    var row := ShapeRow(games[i], games[i].bookmakers[j], snapshot, timestamp);
    if i < |init| {
      assert init[i] == games[i];
      GameRowProduced(init, snapshot, timestamp, i, j);
      GamesGrowLeft(games, snapshot, timestamp, row);
    } else {
      BookmakerRowProduced(games[i], games[i].bookmakers, snapshot, timestamp, j);
      GamesGrowRight(games, snapshot, timestamp, row);
    }
  }

  lemma GamesGrowLeft(games: seq<Event>, snapshot: int, timestamp: string, row: GameRow)
    requires games != [] && row in ShapeGames(games[..|games| - 1], snapshot, timestamp)
    ensures row in ShapeGames(games, snapshot, timestamp)
  {
  }

  lemma GamesGrowRight(games: seq<Event>, snapshot: int, timestamp: string, row: GameRow)
    requires games != []
    requires var ev := games[|games| - 1]; row in ShapeBookmakers(ev, ev.bookmakers, snapshot, timestamp)
    ensures row in ShapeGames(games, snapshot, timestamp)
  {
  }

  /** Games without bookmakers and bookmakers without markets add no rows: at most one row per bookmaker. */
  lemma {:induction false} RowCountBound(games: seq<Event>, snapshot: int, timestamp: string)
    ensures |ShapeGames(games, snapshot, timestamp)| <= BookmakerCount(games)
    decreases |games|
  {
    if games != [] {
      var ev := games[|games| - 1];
      RowCountBound(games[..|games| - 1], snapshot, timestamp);
      BookmakerRowBound(ev, ev.bookmakers, snapshot, timestamp);
    }
  }

  lemma {:induction false} BookmakerRowBound(ev: Event, bms: seq<Bookmaker>, snapshot: int, timestamp: string)
    ensures |ShapeBookmakers(ev, bms, snapshot, timestamp)| <= |bms|
    decreases |bms|
  {
    if bms != [] {
      BookmakerRowBound(ev, bms[..|bms| - 1], snapshot, timestamp);
    }
  }

  function BookmakerCount(games: seq<Event>): nat
    decreases |games|
  {
    if games == [] then 0 else BookmakerCount(games[..|games| - 1]) + |games[|games| - 1].bookmakers|
  }

  // ---- the collector's loops ----

  /** The market and outcome loops that fill one row's columns of the current kind. */
  method FillSnapshot(ms: seq<Market>, home: string, away: string, timestamp: string) returns (f: OddsFields)
    ensures f == FoldMarkets(BlankOdds, ms, home, away, timestamp)
  {
    f := BlankOdds;
    var i := 0;
    while i < |ms|
      invariant 0 <= i <= |ms|
      invariant f == FoldMarkets(BlankOdds, ms[..i], home, away, timestamp)
    {
      var m := ms[i];
      assert ms[..i + 1][..i] == ms[..i];
      var key := m.key.GetOr("");
      var kind: Kind;
      if key == "spreads" && |m.outcomes| > 0 {
        kind := Spreads;
      } else if key == "totals" && |m.outcomes| > 0 {
        kind := Totals;
      } else if key == "h2h" && |m.outcomes| > 0 {
        kind := Moneyline;
      }
      if (key == "spreads" || key == "totals" || key == "h2h") && |m.outcomes| > 0 {
        var g := f;
        var j := 0;
        while j < |m.outcomes|
          invariant 0 <= j <= |m.outcomes|
          invariant f == FoldOutcomes(kind, g, m.outcomes[..j], home, away)
        {
          assert m.outcomes[..j + 1][..j] == m.outcomes[..j];
          f := Step(kind, f, m.outcomes[j], home, away);
          j := j + 1;
        }
        assert m.outcomes[..j] == m.outcomes;
        if kind == Spreads {
          f := f.(collectedDate := Text(timestamp));
        }
      }
      i := i + 1;
    }
    assert ms[..i] == ms;
  }

  /** `_process_games_for_snapshot` */
  method ProcessGamesForSnapshot(games: seq<Event>, snapshot: int, timestamp: string) returns (rows: seq<GameRow>)
    ensures rows == ShapeGames(games, snapshot, timestamp)
  {
    rows := [];
    var i := 0;
    while i < |games|
      invariant 0 <= i <= |games|
      invariant rows == ShapeGames(games[..i], snapshot, timestamp)
    {
      var ev := games[i];
      ghost var done := games[..i + 1];
      assert done[..i] == games[..i];
      if |ev.bookmakers| > 0 {
        var more := ProcessBookmakers(ev, snapshot, timestamp);
        rows := rows + more;
      }
      i := i + 1;
      assert games[..i] == done;
    }
    assert games[..i] == games;
  }

  /** The inner loop of `_process_games_for_snapshot`: the rows of one game. */
  method ProcessBookmakers(ev: Event, snapshot: int, timestamp: string) returns (rows: seq<GameRow>)
    ensures rows == ShapeBookmakers(ev, ev.bookmakers, snapshot, timestamp)
  {
    rows := [];
    var j := 0;
    while j < |ev.bookmakers|
      invariant 0 <= j <= |ev.bookmakers|
      invariant rows == ShapeBookmakers(ev, ev.bookmakers[..j], snapshot, timestamp)
    {
      var bm := ev.bookmakers[j];
      ghost var done := ev.bookmakers[..j + 1];
      assert done[..j] == ev.bookmakers[..j];
      if |bm.markets| > 0 {
        var filled := FillSnapshot(bm.markets, ev.homeTeam, ev.awayTeam, timestamp);
        var row := GameRow(GameId(ev), ev.commenceTime, ev.homeTeam, ev.awayTeam, bm.title,
                           if snapshot == 1 then filled else BlankOdds,
                           if snapshot == 1 then BlankOdds else filled);
        rows := rows + [row];
      }
      j := j + 1;
      assert ev.bookmakers[..j] == done;
    }
    assert ev.bookmakers[..j] == ev.bookmakers;
  }

  // ---- the record the collector stores ----

  /** The row as the dictionary the collector emits, under the source's own keys. */
  function GameRecord(row: GameRow): map<string, Cell>
  {
    map["game_id" := Text(row.gameId), "date" := Text(row.date), "home_team" := Text(row.homeTeam),
        "away_team" := Text(row.awayTeam), "bookmaker" := Text(row.bookmaker),
        "opening_spread_line" := row.opening.spreadLine, "opening_spread_home_odds" := row.opening.spreadHomeOdds,
        "opening_spread_away_odds" := row.opening.spreadAwayOdds, "opening_collected_date" := row.opening.collectedDate,
        "opening_total_line" := row.opening.totalLine, "opening_total_over_odds" := row.opening.totalOverOdds,
        "opening_total_under_odds" := row.opening.totalUnderOdds, "opening_ml_home" := row.opening.mlHome,
        "opening_ml_away" := row.opening.mlAway,
        "final_spread_line" := row.final.spreadLine, "final_spread_home_odds" := row.final.spreadHomeOdds,
        "final_spread_away_odds" := row.final.spreadAwayOdds, "final_collected_date" := row.final.collectedDate,
        "final_total_line" := row.final.totalLine, "final_total_over_odds" := row.final.totalOverOdds,
        "final_total_under_odds" := row.final.totalUnderOdds, "final_ml_home" := row.final.mlHome,
        "final_ml_away" := row.final.mlAway]
  }
}
