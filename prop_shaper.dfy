/**
 * The prop shapers of the data collector: the odds client's one-record-per-
 * outcome props are split into regular and anytime-touchdown props, then
 * grouped into one row per (player, market, bookmaker), or per (player,
 * bookmaker) for anytime touchdowns, in insertion-ordered dictionaries.
 */
module PropShaper {
  import opened Wrappers
  import opened Text
  import opened Feed
  import opened Seqs

  /** `_extract_position_from_market` */
  function ExtractPosition(marketType: string): string
  {
    var m := Lower(marketType);
    if Contains(m, "pass") then "QB"
    else if Contains(m, "rush") then "RB/QB"
    else if Contains(m, "receiv") then "WR/TE/RB"
    else "Unknown"
  }

  /** One of four positions, chosen by the first keyword found in the lower-cased market: "pass", "rush", "receiv". */
  lemma PositionByKeyword(marketType: string)
    ensures ExtractPosition(marketType) in {"QB", "RB/QB", "WR/TE/RB", "Unknown"}
    ensures ExtractPosition(marketType) == "QB" <==> Contains(Lower(marketType), "pass")
    ensures ExtractPosition(marketType) == "Unknown" <==>
              !Contains(Lower(marketType), "pass") && !Contains(Lower(marketType), "rush") && !Contains(Lower(marketType), "receiv")
  {
  }

  /** `_determine_player_team`: a placeholder in the collector. */
  const PlayerTeam := "TBD"

  const AnytimeTd := "Anytime TD"

  predicate IsAnytimeTd(p: PropRecord)
  {
    p.marketType == AnytimeTd
  }

  /** `_separate_anytime_td_props` */
  method SeparateAnytimeTdProps(props: seq<PropRecord>) returns (regular: seq<PropRecord>, td: seq<PropRecord>)
    ensures regular == Filter(props, p => !IsAnytimeTd(p))
    ensures td == Filter(props, p => IsAnytimeTd(p))
  {
    regular, td := [], [];
    var i := 0;
    while i < |props|
      invariant 0 <= i <= |props|
      invariant regular == Filter(props[..i], p => !IsAnytimeTd(p))
      invariant td == Filter(props[..i], p => IsAnytimeTd(p))
    {
      assert props[..i + 1][..i] == props[..i];
      if props[i].marketType == AnytimeTd {
        td := td + [props[i]];
      } else {
        regular := regular + [props[i]];
      }
      i := i + 1;
    }
    assert props[..i] == props;
  }

  /** The two halves keep the input's order and together account for every prop. */
  lemma SeparationIsAPartition(props: seq<PropRecord>)
    ensures |Filter(props, p => !IsAnytimeTd(p))| + |Filter(props, p => IsAnytimeTd(p))| == |props|
    ensures IsSubseq(Filter(props, p => !IsAnytimeTd(p)), props)
    ensures IsSubseq(Filter(props, p => IsAnytimeTd(p)), props)
  {
    FilterPartition(props, p => IsAnytimeTd(p), p => !IsAnytimeTd(p));
    FilterIsSubseq(props, p => !IsAnytimeTd(p));
    FilterIsSubseq(props, p => IsAnytimeTd(p));
  }

  // ---- grouping ----

  /** The accumulator of one group: identity from its first prop, lines from later ones. */
  datatype Tally = Tally(
    gameId: string, playerName: string, position: string, team: string, marketType: string, bookmaker: string,
    overLine: Cell, overOdds: Cell, underLine: Cell, underOdds: Cell)

  /** The accumulator created at a key's first occurrence; its lines start as None. */
  function NewTally(p: PropRecord): Tally
  {
    Tally(p.gameId, p.playerName, ExtractPosition(p.marketType), PlayerTeam, p.marketType, p.bookmaker,
          Null, Null, Null, Null)
  }

  /** An Over prop sets the over line and odds, an Under prop the under ones. */
  function AddLine(t: Tally, p: PropRecord): Tally
  {
    match p.lineType
    case Over => t.(overLine := p.lineValue, overOdds := p.odds)
    case Under => t.(underLine := p.lineValue, underOdds := p.odds)
    case Unknown => t
  }

  /** The insertion-ordered dictionary after all props: its keys in order and its values. */
  datatype Grouping<K> = Grouping(order: seq<K>, tallies: map<K, Tally>)

  function Grouped<K>(props: seq<PropRecord>, key: PropRecord -> K): Grouping<K>
    decreases |props|
  {
    if props == [] then Grouping([], map[])
    else
      var g := Grouped(props[..|props| - 1], key);
      var p := props[|props| - 1];
      var k := key(p);
      if k in g.tallies then Grouping(g.order, g.tallies[k := AddLine(g.tallies[k], p)])
      else Grouping(g.order + [k], g.tallies[k := AddLine(NewTally(p), p)])
  }

  /** The grouping loop, updating the dictionary in place. */
  method GroupProps<K>(props: seq<PropRecord>, key: PropRecord -> K) returns (order: seq<K>, tallies: map<K, Tally>)
    ensures Grouping(order, tallies) == Grouped(props, key)
  {
    order, tallies := [], map[];
    var i := 0;
    while i < |props|
      invariant 0 <= i <= |props|
      invariant Grouping(order, tallies) == Grouped(props[..i], key)
    {
      assert props[..i + 1][..i] == props[..i];
      var p := props[i];
      var k := key(p);
      if k !in tallies {
        order := order + [k];
        tallies := tallies[k := NewTally(p)];
      }
      tallies := tallies[k := AddLine(tallies[k], p)];
      i := i + 1;
    }
    assert props[..i] == props;
  }

  predicate Distinct<K(==)>(s: seq<K>)
  {
    forall i, j :: 0 <= i < j < |s| ==> s[i] != s[j]
  }

  /** The keys in order are distinct and are exactly the keys of the input props. */
  lemma {:induction false} GroupedKeys<K>(props: seq<PropRecord>, key: PropRecord -> K)
    ensures Distinct(Grouped(props, key).order)
    ensures forall i :: 0 <= i < |Grouped(props, key).order| ==> Grouped(props, key).order[i] in Grouped(props, key).tallies
    ensures forall k :: k in Grouped(props, key).tallies ==> k in Grouped(props, key).order
    ensures forall k :: k in Grouped(props, key).tallies <==> exists i :: 0 <= i < |props| && key(props[i]) == k
    ensures |Grouped(props, key).order| <= |props|
    decreases |props|
  {
    if props != [] {
      var init := props[..|props| - 1];
      GroupedKeys(init, key);
      forall k ensures k in Grouped(props, key).tallies <==> exists i :: 0 <= i < |props| && key(props[i]) == k {
        if exists i :: 0 <= i < |init| && key(init[i]) == k {
          var i :| 0 <= i < |init| && key(init[i]) == k;
          assert key(props[i]) == k;
        }
        if exists i :: 0 <= i < |props| && key(props[i]) == k {
          var i :| 0 <= i < |props| && key(props[i]) == k;
          if i < |init| {
            assert key(init[i]) == k;
          }
        }
      }
    }
  }

  /** The index of the first prop with key `k`, when there is one. */
  function FirstWith<K(==)>(props: seq<PropRecord>, key: PropRecord -> K, k: K): (r: Option<nat>)
    ensures r.Some? ==> r.value < |props| && key(props[r.value]) == k
                        && forall j :: 0 <= j < r.value ==> key(props[j]) != k
    ensures r.None? ==> forall j :: 0 <= j < |props| ==> key(props[j]) != k
    decreases |props|
  {
    if props == [] then None
    else
      var r := FirstWith(props[..|props| - 1], key, k);
      if r.Some? then r
      else if key(props[|props| - 1]) == k then Some(|props| - 1)
      else None
  }

  /** The line of the last prop with key `k` and the given line type, or None (`Null`). */
  function LastLine<K(==)>(props: seq<PropRecord>, key: PropRecord -> K, k: K, lt: LineType, odds: bool): Cell
    decreases |props|
  {
    if props == [] then Null
    else
      var p := props[|props| - 1];
      if key(p) == k && p.lineType == lt then (if odds then p.odds else p.lineValue)
      else LastLine(props[..|props| - 1], key, k, lt, odds)
  }

  /**
   * The tally a key should end with: the identity columns of the first prop
   * with that key, and each line column from the last prop of that key with
   * that line type.
   */
  function ExpectedTally<K(==)>(props: seq<PropRecord>, key: PropRecord -> K, k: K): Tally
    requires FirstWith(props, key, k).Some?
  {
    NewTally(props[FirstWith(props, key, k).value]).(
      overLine := LastLine(props, key, k, Over, false), overOdds := LastLine(props, key, k, Over, true),
      underLine := LastLine(props, key, k, Under, false), underOdds := LastLine(props, key, k, Under, true))
  }

  /** Every grouped key ends with its expected tally. */
  lemma {:induction false} GroupedValues<K>(props: seq<PropRecord>, key: PropRecord -> K, k: K)
    requires k in Grouped(props, key).tallies
    ensures FirstWith(props, key, k).Some?
    ensures Grouped(props, key).tallies[k] == ExpectedTally(props, key, k)
    decreases |props|
  {
    var init, p := props[..|props| - 1], props[|props| - 1];
    var g := Grouped(init, key);
    GroupedKeys(init, key);
    if k in g.tallies {
      GroupedValues(init, key, k);
    } else {
      assert key(p) == k;
      assert FirstWith(init, key, k).None?;
      LastLineAbsent(init, key, k, Over, false);
      LastLineAbsent(init, key, k, Over, true);
      LastLineAbsent(init, key, k, Under, false);
      LastLineAbsent(init, key, k, Under, true);
    }
  }

  lemma {:induction false} LastLineAbsent<K>(props: seq<PropRecord>, key: PropRecord -> K, k: K, lt: LineType, odds: bool)
    requires forall j :: 0 <= j < |props| ==> key(props[j]) != k
    ensures LastLine(props, key, k, lt, odds) == Null
    decreases |props|
  {
    if props != [] {
      LastLineAbsent(props[..|props| - 1], key, k, lt, odds);
    }
  }

  // ---- rows ----

  /** A regular prop row: `None` and other falsy lines are written as ''. */
  datatype PropRow = PropRow(
    gameId: string, playerName: string, position: string, team: string, marketType: string, bookmaker: string,
    dataSource: string, overLine: Cell, overOdds: Cell, underLine: Cell, underOdds: Cell, collectedDate: string)

  const DataSource := "odds_api"

  function RenderProp(t: Tally, timestamp: string): PropRow
  {
    PropRow(t.gameId, t.playerName, t.position, t.team, t.marketType, t.bookmaker, DataSource,
            t.overLine.Or(Blank), t.overOdds.Or(Blank), t.underLine.Or(Blank), t.underOdds.Or(Blank), timestamp)
  }

  /** The regular prop row as the dictionary the collector emits, under the source's own keys. */
  function PropRowRecord(r: PropRow): map<string, Cell>
  {
    map["game_id" := Text(r.gameId), "player_name" := Text(r.playerName), "position" := Text(r.position),
        "team" := Text(r.team), "market_type" := Text(r.marketType), "bookmaker" := Text(r.bookmaker),
        "data_source" := Text(r.dataSource), "over_line" := r.overLine, "over_odds" := r.overOdds,
        "under_line" := r.underLine, "under_odds" := r.underOdds, "collected_date" := Text(r.collectedDate),
        "season_over_rate" := Text(NotAvailable), "season_attempts" := Text(NotAvailable),
        "vs_defense_rate" := Text(NotAvailable), "recent_form_3g" := Text(NotAvailable),
        "home_away_split" := Text(NotAvailable)]
  }

  /** The placeholder of the reference columns. */
  const NotAvailable := "N/A"

  /** An anytime-TD row: one odds column, from the Over ("Yes") props only. */
  datatype TdRow = TdRow(
    gameId: string, playerName: string, team: string, bookmaker: string, dataSource: string,
    anytimeTdOdds: Cell, collectedDate: string)

  function RenderTd(t: Tally, timestamp: string): TdRow
  {
    TdRow(t.gameId, t.playerName, t.team, t.bookmaker, DataSource, t.overOdds.Or(Blank), timestamp)
  }

  /** The rows in dictionary order. */
  function PropRows<K>(g: Grouping<K>, timestamp: string): (rows: seq<PropRow>)
    requires forall i :: 0 <= i < |g.order| ==> g.order[i] in g.tallies
    ensures |rows| == |g.order|
    ensures forall i :: 0 <= i < |rows| ==> rows[i] == RenderProp(g.tallies[g.order[i]], timestamp)
  {
    seq(|g.order|, i requires 0 <= i < |g.order| => RenderProp(g.tallies[g.order[i]], timestamp))
  }

  function TdRows<K>(g: Grouping<K>, timestamp: string): (rows: seq<TdRow>)
    requires forall i :: 0 <= i < |g.order| ==> g.order[i] in g.tallies
    ensures |rows| == |g.order|
    ensures forall i :: 0 <= i < |rows| ==> rows[i] == RenderTd(g.tallies[g.order[i]], timestamp)
  {
    seq(|g.order|, i requires 0 <= i < |g.order| => RenderTd(g.tallies[g.order[i]], timestamp))
  }

  /** The grouping key the regular props are meant to have: the (player, market, bookmaker) triple. */
  datatype PropKey = PropKey(player: string, market: string, bookmaker: string)

  function RegularKey(p: PropRecord): PropKey
  {
    PropKey(p.playerName, p.marketType, p.bookmaker)
  }

  datatype TdKey = TdKey(player: string, bookmaker: string)

  function TdKeyOf(p: PropRecord): TdKey
  {
    TdKey(p.playerName, p.bookmaker)
  }

  /** The key the collector builds, an f-string joined by '_' (`_process_props_for_snapshot`). */
  function StringKey(p: PropRecord): string
  {
    p.playerName + "_" + p.marketType + "_" + p.bookmaker
  }

  /** The anytime-TD key the collector builds. */
  function TdStringKey(p: PropRecord): string
  {
    p.playerName + "_" + p.bookmaker
  }

  /** `_process_props_for_snapshot` with its key written as the source does. */
  method ProcessPropsAsWritten(props: seq<PropRecord>, timestamp: string) returns (rows: seq<PropRow>)
    ensures GroupedKeysInTallies(Grouped(props, StringKey))
    ensures rows == PropRows(Grouped(props, StringKey), timestamp)
  {
    var order, tallies := GroupProps(props, StringKey);
    GroupedKeys(props, StringKey);
    rows := RenderAll(order, tallies, timestamp);
  }

  predicate GroupedKeysInTallies<K>(g: Grouping<K>)
  {
    forall i :: 0 <= i < |g.order| ==> g.order[i] in g.tallies
  }

  /** The second loop: one row per dictionary value, in insertion order. */
  method RenderAll<K>(order: seq<K>, tallies: map<K, Tally>, timestamp: string) returns (rows: seq<PropRow>)
    requires GroupedKeysInTallies(Grouping(order, tallies))
    ensures rows == PropRows(Grouping(order, tallies), timestamp)
  {
    rows := [];
    var i := 0;
    while i < |order|
      invariant 0 <= i <= |order|
      invariant |rows| == i
      invariant forall j :: 0 <= j < i ==> rows[j] == RenderProp(tallies[order[j]], timestamp)
    {
      rows := rows + [RenderProp(tallies[order[i]], timestamp)];
      i := i + 1;
    }
  }

  method RenderAllTd<K>(order: seq<K>, tallies: map<K, Tally>, timestamp: string) returns (rows: seq<TdRow>)
    requires GroupedKeysInTallies(Grouping(order, tallies))
    ensures rows == TdRows(Grouping(order, tallies), timestamp)
  {
    rows := [];
    var i := 0;
    while i < |order|
      invariant 0 <= i <= |order|
      invariant |rows| == i
      invariant forall j :: 0 <= j < i ==> rows[j] == RenderTd(tallies[order[j]], timestamp)
    {
      rows := rows + [RenderTd(tallies[order[i]], timestamp)];
      i := i + 1;
    }
  }

  /** `_process_props_for_snapshot`, grouping by the (player, market, bookmaker) triple itself. */
  method ProcessPropsForSnapshot(props: seq<PropRecord>, timestamp: string) returns (rows: seq<PropRow>)
    ensures GroupedKeysInTallies(Grouped(props, RegularKey))
    ensures rows == PropRows(Grouped(props, RegularKey), timestamp)
  {
    var order, tallies := GroupProps(props, RegularKey);
    GroupedKeys(props, RegularKey);
    rows := RenderAll(order, tallies, timestamp);
  }

  /** `_process_anytime_td_props_for_snapshot`, grouping by the (player, bookmaker) pair itself. */
  method ProcessAnytimeTdProps(props: seq<PropRecord>, timestamp: string) returns (rows: seq<TdRow>)
    ensures GroupedKeysInTallies(Grouped(props, TdKeyOf))
    ensures rows == TdRows(Grouped(props, TdKeyOf), timestamp)
  {
    var order, tallies := GroupProps(props, TdKeyOf);
    GroupedKeys(props, TdKeyOf);
    rows := RenderAllTd(order, tallies, timestamp);
  }

  /** `_process_anytime_td_props_for_snapshot` with its key written as the source does. */
  method ProcessAnytimeTdPropsAsWritten(props: seq<PropRecord>, timestamp: string) returns (rows: seq<TdRow>)
    ensures GroupedKeysInTallies(Grouped(props, TdStringKey))
    ensures rows == TdRows(Grouped(props, TdStringKey), timestamp)
  {
    var order, tallies := GroupProps(props, TdStringKey);
    GroupedKeys(props, TdStringKey);
    rows := RenderAllTd(order, tallies, timestamp);
  }

  // ---- one row per group ----

  function RowKey(r: PropRow): PropKey
  {
    PropKey(r.playerName, r.marketType, r.bookmaker)
  }

  function TdRowKey(r: TdRow): TdKey
  {
    TdKey(r.playerName, r.bookmaker)
  }

  lemma RowKeyIsGroupKey(props: seq<PropRecord>, timestamp: string, i: int)
    requires GroupedKeysInTallies(Grouped(props, RegularKey))
    requires 0 <= i < |Grouped(props, RegularKey).order|
    ensures RowKey(PropRows(Grouped(props, RegularKey), timestamp)[i]) == Grouped(props, RegularKey).order[i]
  {
    GroupedValues(props, RegularKey, Grouped(props, RegularKey).order[i]);
  }

  /**
   * Exactly one row per distinct (player, market, bookmaker) of the input, and
   * each row carries the last Over and the last Under line of its triple, with
   * missing or falsy values written as ''.
   */
  lemma OneRowPerTriple(props: seq<PropRecord>, timestamp: string)
    ensures GroupedKeysInTallies(Grouped(props, RegularKey))
    ensures var rows := PropRows(Grouped(props, RegularKey), timestamp);
      && (forall i, j :: 0 <= i < j < |rows| ==> RowKey(rows[i]) != RowKey(rows[j]))
      && (forall n :: 0 <= n < |props| ==> exists i :: 0 <= i < |rows| && RowKey(rows[i]) == RegularKey(props[n]))
      && (forall i :: 0 <= i < |rows| ==>
            && rows[i].overLine == LastLine(props, RegularKey, RowKey(rows[i]), Over, false).Or(Blank)
            && rows[i].overOdds == LastLine(props, RegularKey, RowKey(rows[i]), Over, true).Or(Blank)
            && rows[i].underLine == LastLine(props, RegularKey, RowKey(rows[i]), Under, false).Or(Blank)
            && rows[i].underOdds == LastLine(props, RegularKey, RowKey(rows[i]), Under, true).Or(Blank))
  {
    GroupedKeys(props, RegularKey);
    RowKeysAreOrder(props, timestamp);
    RowsCoverProps(props, timestamp);
    RowsCarryLastLines(props, timestamp);
  }

  lemma RowKeysAreOrder(props: seq<PropRecord>, timestamp: string)
    requires GroupedKeysInTallies(Grouped(props, RegularKey))
    ensures var rows := PropRows(Grouped(props, RegularKey), timestamp);
      forall i :: 0 <= i < |rows| ==> RowKey(rows[i]) == Grouped(props, RegularKey).order[i]
  {
    var rows := PropRows(Grouped(props, RegularKey), timestamp);
    forall i | 0 <= i < |rows| ensures RowKey(rows[i]) == Grouped(props, RegularKey).order[i] {
      RowKeyIsGroupKey(props, timestamp, i);
    }
  }

  lemma RowsCoverProps(props: seq<PropRecord>, timestamp: string)
    requires GroupedKeysInTallies(Grouped(props, RegularKey))
    ensures var rows := PropRows(Grouped(props, RegularKey), timestamp);
      forall n :: 0 <= n < |props| ==> exists i :: 0 <= i < |rows| && RowKey(rows[i]) == RegularKey(props[n])
  {
    var g := Grouped(props, RegularKey);
    GroupedKeys(props, RegularKey);
    RowKeysAreOrder(props, timestamp);
    var rows := PropRows(g, timestamp);
    forall n | 0 <= n < |props| ensures exists i :: 0 <= i < |rows| && RowKey(rows[i]) == RegularKey(props[n]) {
      var k := RegularKey(props[n]);
      assert k in g.tallies;
      var i :| 0 <= i < |g.order| && g.order[i] == k;
      assert RowKey(rows[i]) == k;
    }
  }

  lemma RowsCarryLastLines(props: seq<PropRecord>, timestamp: string)
    requires GroupedKeysInTallies(Grouped(props, RegularKey))
    ensures var rows := PropRows(Grouped(props, RegularKey), timestamp);
      forall i :: 0 <= i < |rows| ==>
            && rows[i].overLine == LastLine(props, RegularKey, RowKey(rows[i]), Over, false).Or(Blank)
            && rows[i].overOdds == LastLine(props, RegularKey, RowKey(rows[i]), Over, true).Or(Blank)
            && rows[i].underLine == LastLine(props, RegularKey, RowKey(rows[i]), Under, false).Or(Blank)
            && rows[i].underOdds == LastLine(props, RegularKey, RowKey(rows[i]), Under, true).Or(Blank)
  {
    var g := Grouped(props, RegularKey);
    var rows := PropRows(g, timestamp);
    RowKeysAreOrder(props, timestamp);
    forall i | 0 <= i < |rows|
      ensures rows[i].overLine == LastLine(props, RegularKey, RowKey(rows[i]), Over, false).Or(Blank)
      ensures rows[i].overOdds == LastLine(props, RegularKey, RowKey(rows[i]), Over, true).Or(Blank)
      ensures rows[i].underLine == LastLine(props, RegularKey, RowKey(rows[i]), Under, false).Or(Blank)
      ensures rows[i].underOdds == LastLine(props, RegularKey, RowKey(rows[i]), Under, true).Or(Blank)
    {
      GroupedValues(props, RegularKey, g.order[i]);
    }
  }

  lemma TdRowKeyIsGroupKey(props: seq<PropRecord>, timestamp: string, i: int)
    requires GroupedKeysInTallies(Grouped(props, TdKeyOf))
    requires 0 <= i < |Grouped(props, TdKeyOf).order|
    ensures TdRowKey(TdRows(Grouped(props, TdKeyOf), timestamp)[i]) == Grouped(props, TdKeyOf).order[i]
  {
    GroupedValues(props, TdKeyOf, Grouped(props, TdKeyOf).order[i]);
  }

  /**
   * Exactly one anytime-TD row per distinct (player, bookmaker), carrying the
   * odds of the last Over prop of that pair, or '' when it has none.
   */
  lemma OneTdRowPerPlayerBookmaker(props: seq<PropRecord>, timestamp: string)
    ensures GroupedKeysInTallies(Grouped(props, TdKeyOf))
    ensures var rows := TdRows(Grouped(props, TdKeyOf), timestamp);
      && (forall i, j :: 0 <= i < j < |rows| ==> TdRowKey(rows[i]) != TdRowKey(rows[j]))
      && (forall n :: 0 <= n < |props| ==> exists i :: 0 <= i < |rows| && TdRowKey(rows[i]) == TdKeyOf(props[n]))
      && (forall i :: 0 <= i < |rows| ==>
            rows[i].anytimeTdOdds == LastLine(props, TdKeyOf, TdRowKey(rows[i]), Over, true).Or(Blank))
  {
    GroupedKeys(props, TdKeyOf);
    TdRowKeysAreOrder(props, timestamp);
    TdRowsCoverProps(props, timestamp);
    TdRowsCarryLastOdds(props, timestamp);
  }

  lemma TdRowKeysAreOrder(props: seq<PropRecord>, timestamp: string)
    requires GroupedKeysInTallies(Grouped(props, TdKeyOf))
    ensures var rows := TdRows(Grouped(props, TdKeyOf), timestamp);
      forall i :: 0 <= i < |rows| ==> TdRowKey(rows[i]) == Grouped(props, TdKeyOf).order[i]
  {
    var rows := TdRows(Grouped(props, TdKeyOf), timestamp);
    forall i | 0 <= i < |rows| ensures TdRowKey(rows[i]) == Grouped(props, TdKeyOf).order[i] {
      TdRowKeyIsGroupKey(props, timestamp, i);
    }
  }

  lemma TdRowsCoverProps(props: seq<PropRecord>, timestamp: string)
    requires GroupedKeysInTallies(Grouped(props, TdKeyOf))
    ensures var rows := TdRows(Grouped(props, TdKeyOf), timestamp);
      forall n :: 0 <= n < |props| ==> exists i :: 0 <= i < |rows| && TdRowKey(rows[i]) == TdKeyOf(props[n])
  {
    var g := Grouped(props, TdKeyOf);
    GroupedKeys(props, TdKeyOf);
    TdRowKeysAreOrder(props, timestamp);
    var rows := TdRows(g, timestamp);
    forall n | 0 <= n < |props| ensures exists i :: 0 <= i < |rows| && TdRowKey(rows[i]) == TdKeyOf(props[n]) {
      var k := TdKeyOf(props[n]);
      assert k in g.tallies;
      var i :| 0 <= i < |g.order| && g.order[i] == k;
      assert TdRowKey(rows[i]) == k;
    }
  }

  lemma TdRowsCarryLastOdds(props: seq<PropRecord>, timestamp: string)
    requires GroupedKeysInTallies(Grouped(props, TdKeyOf))
    ensures var rows := TdRows(Grouped(props, TdKeyOf), timestamp);
      forall i :: 0 <= i < |rows| ==>
            rows[i].anytimeTdOdds == LastLine(props, TdKeyOf, TdRowKey(rows[i]), Over, true).Or(Blank)
  {
    var g := Grouped(props, TdKeyOf);
    var rows := TdRows(g, timestamp);
    TdRowKeysAreOrder(props, timestamp);
    forall i | 0 <= i < |rows|
      ensures rows[i].anytimeTdOdds == LastLine(props, TdKeyOf, TdRowKey(rows[i]), Over, true).Or(Blank)
    {
      GroupedValues(props, TdKeyOf, g.order[i]);
    }
  }

  // ---- the string keys collide ----

  /** A player name and a market that trade an underscore-separated piece get the same f-string key. */
  lemma StringKeyAmbiguous(p1: PropRecord, p2: PropRecord, x: string, y: string, m: string)
    requires p1.playerName == x + "_" + y && p1.marketType == m
    requires p2.playerName == x && p2.marketType == y + "_" + m
    requires p1.bookmaker == p2.bookmaker
    ensures StringKey(p1) == StringKey(p2)
  {
    assert StringKey(p1) == x + "_" + y + "_" + m + "_" + p1.bookmaker;
  }

  /** The same holds for a player name and a bookmaker in the anytime-TD key. */
  lemma TdStringKeyAmbiguous(p1: PropRecord, p2: PropRecord, x: string, y: string, b: string)
    requires p1.playerName == x + "_" + y && p1.bookmaker == b
    requires p2.playerName == x && p2.bookmaker == y + "_" + b
    ensures TdStringKey(p1) == TdStringKey(p2)
  {
    assert TdStringKey(p1) == x + "_" + y + "_" + b;
  }

  /** Two props with one key make one group: the first prop's identity, lines from both in order. */
  lemma GroupTwoSame<K>(p1: PropRecord, p2: PropRecord, key: PropRecord -> K)
    requires key(p1) == key(p2)
    ensures Grouped([p1, p2], key).order == [key(p1)]
    ensures Grouped([p1, p2], key).tallies.Keys == {key(p1)}
    ensures Grouped([p1, p2], key).tallies[key(p1)] == AddLine(AddLine(NewTally(p1), p1), p2)
  {
    GroupOne(p1, key);
    assert [p1, p2][..1] == [p1];
  }

  lemma GroupOne<K>(p: PropRecord, key: PropRecord -> K)
    ensures Grouped([p], key) == Grouping([key(p)], map[key(p) := AddLine(NewTally(p), p)])
  {
    assert [p][..0] == [];
  }

  /** Two props with different keys make two groups. */
  lemma GroupTwoDistinct<K>(p1: PropRecord, p2: PropRecord, key: PropRecord -> K)
    requires key(p1) != key(p2)
    ensures Grouped([p1, p2], key).order == [key(p1), key(p2)]
  {
    GroupOne(p1, key);
    assert [p1, p2][..1] == [p1];
  }

  /**
   * Two props of different players and markets can share the f-string key
   * (for instance players "A_B" and "A" in markets "M" and "B_M"), and then
   * the collector emits one row for both: it carries the first prop's player
   * and market and the later prop's Over line.
   */
  lemma StringKeyMergesTriples(p1: PropRecord, p2: PropRecord, x: string, y: string, m: string)
    requires p1.playerName == x + "_" + y && p1.marketType == m
    requires p2.playerName == x && p2.marketType == y + "_" + m
    requires p1.bookmaker == p2.bookmaker && p2.lineType == Over
    ensures RegularKey(p1) != RegularKey(p2)
    ensures StringKey(p1) == StringKey(p2)
    ensures GroupedKeysInTallies(Grouped([p1, p2], StringKey))
    ensures GroupedKeysInTallies(Grouped([p1, p2], RegularKey))
    ensures |PropRows(Grouped([p1, p2], StringKey), "t")| == 1
    ensures PropRows(Grouped([p1, p2], StringKey), "t")[0].playerName == p1.playerName
    ensures PropRows(Grouped([p1, p2], StringKey), "t")[0].marketType == p1.marketType
    ensures PropRows(Grouped([p1, p2], StringKey), "t")[0].overLine == p2.lineValue.Or(Blank)
    ensures |PropRows(Grouped([p1, p2], RegularKey), "t")| == 2
  {
    StringKeyAmbiguous(p1, p2, x, y, m);
    assert |p1.playerName| != |p2.playerName|;
    GroupTwoSame(p1, p2, StringKey);
    GroupTwoDistinct(p1, p2, RegularKey);
  }

  /** The same happens to the anytime-TD key, for instance for players "A_B" and "A" at bookmakers "B" and "B_B". */
  lemma TdStringKeyMergesPairs(p1: PropRecord, p2: PropRecord, x: string, y: string, b: string)
    requires p1.playerName == x + "_" + y && p1.bookmaker == b
    requires p2.playerName == x && p2.bookmaker == y + "_" + b
    ensures TdKeyOf(p1) != TdKeyOf(p2)
    ensures TdStringKey(p1) == TdStringKey(p2)
    ensures GroupedKeysInTallies(Grouped([p1, p2], TdStringKey))
    ensures GroupedKeysInTallies(Grouped([p1, p2], TdKeyOf))
    ensures |TdRows(Grouped([p1, p2], TdStringKey), "t")| == 1
    ensures |TdRows(Grouped([p1, p2], TdKeyOf), "t")| == 2
  {
    TdStringKeyAmbiguous(p1, p2, x, y, b);
    assert |p1.playerName| != |p2.playerName|;
    GroupTwoSame(p1, p2, TdStringKey);
    GroupTwoDistinct(p1, p2, TdKeyOf);
  }
}
