/**
 * The Google Sheets writer: the fixed-width rows it builds from the
 * collector's records, the append range it computes, the overview status
 * cell it updates, and the results it reports. The sheets service is an
 * input: what the writer reads from it and how it answers each update.
 */
module SheetsWriter {
  import opened Wrappers
  import opened Text
  import opened Feed
  import GameShaper
  import PropShaper

  /** A record as the writer reads it from the collected-data file: keys to JSON values. */
  type Record = map<string, Cell>

  /** `record.get(key, default)` */
  function Get(r: Record, key: string, default: Cell): Cell
  {
    if key in r then r[key] else default
  }

  // ---- column keys ----

  /** The key of one snapshot's column: the base name, an underscore, the snapshot number. */
  function Numbered(base: string, n: nat): (k: string)
    requires 1 <= n <= 4
    ensures |k| >= 1 && IsDigit(k[|k| - 1])
  {
    base + "_" + [DigitChar(n)]
  }

  /** One snapshot's set of the given columns. */
  function SnapshotSet(bases: seq<string>, n: nat): (keys: seq<string>)
    requires 1 <= n <= 4
    ensures |keys| == |bases|
  {
    seq(|bases|, j requires 0 <= j < |bases| => Numbered(bases[j], n))
  }

  /** Four snapshot sets of the given columns, set after set. */
  function Block(bases: seq<string>): (keys: seq<string>)
    ensures |keys| == 4 * |bases|
  {
    SnapshotSet(bases, 1) + SnapshotSet(bases, 2) + SnapshotSet(bases, 3) + SnapshotSet(bases, 4)
  }

  const GameIdentityKeys: seq<string> := ["game_id", "date", "home_team", "away_team", "bookmaker"]
  const SpreadBases: seq<string> := ["spread_line", "spread_odds_home", "spread_odds_away", "collected_date"]
  const TotalBases: seq<string> := ["total_line", "total_over_odds", "total_under_odds"]
  const MoneylineBases: seq<string> := ["ml_home", "ml_away"]

  /** The Game_Lines columns in header order. */
  function GameSheetKeys(): seq<string>
  {
    GameIdentityKeys + Block(SpreadBases) + Block(TotalBases) + Block(MoneylineBases)
  }

  const PropIdentityKeys: seq<string> :=
    ["game_id", "player_name", "position", "team", "market_type", "bookmaker", "data_source"]
  const PropSnapshotBases: seq<string> := ["over_line", "over_odds", "under_line", "under_odds", "collected_date"]
  const ReferenceKeys: seq<string> :=
    ["season_over_rate", "season_attempts", "vs_defense_rate", "recent_form_3g", "home_away_split"]

  /** The Player_Props columns read with '' as the default. */
  function PropValueKeys(): seq<string>
  {
    PropIdentityKeys + Block(PropSnapshotBases)
  }

  // ---- rows ----

  /** `_game_to_sheet_row` */
  function GameToSheetRow(game: Record): seq<Cell>
  {
    var keys := GameSheetKeys();
    seq(|keys|, i requires 0 <= i < |keys| => Get(game, keys[i], Blank))
  }

  /** `_prop_to_sheet_row` */
  function PropToSheetRow(prop: Record): seq<Cell>
  {
    var keys := PropValueKeys();
    seq(|keys|, i requires 0 <= i < |keys| => Get(prop, keys[i], Blank))
      + seq(|ReferenceKeys|, i requires 0 <= i < |ReferenceKeys| => Get(prop, ReferenceKeys[i], Text(PropShaper.NotAvailable)))
  }

  /**
   * A game row has 41 cells: the five identity columns, then four sets of
   * four spread columns, four sets of three total columns and four sets of
   * two moneyline columns, snapshot 1 first in each group.
   */
  lemma GameRowLayout(game: Record)
    ensures var row := GameToSheetRow(game);
      && |row| == 41
      && row[..5] == [Get(game, "game_id", Blank), Get(game, "date", Blank), Get(game, "home_team", Blank),
                      Get(game, "away_team", Blank), Get(game, "bookmaker", Blank)]
      && (forall n, j :: 1 <= n <= 4 && 0 <= j < 4 ==> row[5 + 4 * (n - 1) + j] == Get(game, Numbered(SpreadBases[j], n), Blank))
      && (forall n, j :: 1 <= n <= 4 && 0 <= j < 3 ==> row[21 + 3 * (n - 1) + j] == Get(game, Numbered(TotalBases[j], n), Blank))
      && (forall n, j :: 1 <= n <= 4 && 0 <= j < 2 ==> row[33 + 2 * (n - 1) + j] == Get(game, Numbered(MoneylineBases[j], n), Blank))
  {
    var keys := GameSheetKeys();
    var sp, tt, ml := Block(SpreadBases), Block(TotalBases), Block(MoneylineBases);
    assert keys[..5] == GameIdentityKeys;
    forall n, j | 1 <= n <= 4 && 0 <= j < 4 ensures keys[5 + 4 * (n - 1) + j] == Numbered(SpreadBases[j], n) {
      BlockAt(SpreadBases, n, j);
      assert keys[5 + 4 * (n - 1) + j] == sp[4 * (n - 1) + j];
    }
    forall n, j | 1 <= n <= 4 && 0 <= j < 3 ensures keys[21 + 3 * (n - 1) + j] == Numbered(TotalBases[j], n) {
      BlockAt(TotalBases, n, j);
      assert keys[21 + 3 * (n - 1) + j] == tt[3 * (n - 1) + j];
    }
    forall n, j | 1 <= n <= 4 && 0 <= j < 2 ensures keys[33 + 2 * (n - 1) + j] == Numbered(MoneylineBases[j], n) {
      BlockAt(MoneylineBases, n, j);
      assert keys[33 + 2 * (n - 1) + j] == ml[2 * (n - 1) + j];
    }
  }

  /** Column `j` of snapshot `n`'s set in a block. */
  lemma BlockAt(bases: seq<string>, n: int, j: int)
    requires 1 <= n <= 4 && 0 <= j < |bases|
    ensures Block(bases)[|bases| * (n - 1) + j] == Numbered(bases[j], n)
  {
    var w := |bases|;
    var s1, s2, s3, s4 := SnapshotSet(bases, 1), SnapshotSet(bases, 2), SnapshotSet(bases, 3), SnapshotSet(bases, 4);
    assert Block(bases) == s1 + s2 + s3 + s4;
    if n == 1 {
      assert (s1 + s2 + s3 + s4)[j] == s1[j];
    } else if n == 2 {
      assert (s1 + s2 + s3 + s4)[w + j] == s2[j];
    } else if n == 3 {
      assert (s1 + s2 + s3 + s4)[w * 2 + j] == s3[j];
    } else {
      assert (s1 + s2 + s3 + s4)[w * 3 + j] == s4[j];
    }
  }

  /**
   * A prop row has 32 cells: seven identity columns, four sets of five
   * snapshot columns, and five reference columns; a missing reference key
   * gives "N/A" and every other missing key ''.
   */
  lemma PropRowLayout(prop: Record)
    ensures var row := PropToSheetRow(prop);
      && |row| == 32
      && (forall i :: 0 <= i < 7 ==> row[i] == Get(prop, PropIdentityKeys[i], Blank))
      && (forall n, j :: 1 <= n <= 4 && 0 <= j < 5 ==> row[7 + 5 * (n - 1) + j] == Get(prop, Numbered(PropSnapshotBases[j], n), Blank))
      && (forall i :: 0 <= i < 5 ==> row[27 + i] == Get(prop, ReferenceKeys[i], Text("N/A")))
  {
    var keys := PropValueKeys();
    var sn := Block(PropSnapshotBases);
    forall n, j | 1 <= n <= 4 && 0 <= j < 5 ensures keys[7 + 5 * (n - 1) + j] == Numbered(PropSnapshotBases[j], n) {
      BlockAt(PropSnapshotBases, n, j);
      assert keys[7 + 5 * (n - 1) + j] == sn[5 * (n - 1) + j];
    }
  }

  // ---- what the writer makes of the collector's records ----

  /** No key of the collector's game record ends in a digit. */
  lemma NotACollectorGameKey(row: GameShaper.GameRow, k: string)
    requires |k| >= 1 && IsDigit(k[|k| - 1])
    ensures k !in GameShaper.GameRecord(row)
  {
    var keys := GameShaper.GameRecord(row).Keys;
    forall key | key in keys ensures |key| >= 1 && !IsDigit(key[|key| - 1]) {
    }
  }

  /**
   * The writer reads suffixed keys (`spread_line_1`, ...) where the collector
   * writes prefixed ones (`opening_spread_line`, ...): a collected game row
   * reaches the sheet with its five identity cells and every odds cell ''.
   */
  lemma CollectorGameRowLosesOdds(row: GameShaper.GameRow)
    ensures var cells := GameToSheetRow(GameShaper.GameRecord(row));
      && cells[..5] == [Text(row.gameId), Text(row.date), Text(row.homeTeam), Text(row.awayTeam), Text(row.bookmaker)]
      && forall i :: 5 <= i < |cells| ==> cells[i] == Blank
  {
    var keys := GameSheetKeys();
    var record := GameShaper.GameRecord(row);
    var cells := GameToSheetRow(record);
    assert keys[..5] == GameIdentityKeys;
    OddsKeysEndInDigit();
    forall i | 5 <= i < |cells| ensures cells[i] == Blank {
      NotACollectorGameKey(row, keys[i]);
    }
  }

  predicate EndsInDigit(k: string)
  {
    |k| >= 1 && IsDigit(k[|k| - 1])
  }

  /** Every snapshot column's key ends in its snapshot number. */
  lemma BlockKeysEndInDigit(bases: seq<string>)
    ensures forall i :: 0 <= i < |Block(bases)| ==> EndsInDigit(Block(bases)[i])
  {
    var w := |bases|;
    var s1, s2, s3, s4 := SnapshotSet(bases, 1), SnapshotSet(bases, 2), SnapshotSet(bases, 3), SnapshotSet(bases, 4);
    var b := s1 + s2 + s3 + s4;
    forall i | 0 <= i < |b| ensures EndsInDigit(b[i]) {
      if i < w {
        assert b[i] == s1[i];
      } else if i < 2 * w {
        assert b[i] == s2[i - w];
      } else if i < 3 * w {
        assert b[i] == s3[i - 2 * w];
      } else {
        assert b[i] == s4[i - 3 * w];
      }
    }
  }

  /** Past the five identity columns, every Game_Lines key ends in a digit. */
  lemma OddsKeysEndInDigit()
    ensures forall i :: 5 <= i < |GameSheetKeys()| ==> EndsInDigit(GameSheetKeys()[i])
  {
    var keys := GameSheetKeys();
    var sp, tt, ml := Block(SpreadBases), Block(TotalBases), Block(MoneylineBases);
    BlockKeysEndInDigit(SpreadBases);
    BlockKeysEndInDigit(TotalBases);
    BlockKeysEndInDigit(MoneylineBases);
    forall i | 5 <= i < |keys| ensures EndsInDigit(keys[i]) {
      if i < 21 {
        assert keys[i] == sp[i - 5];
      } else if i < 33 {
        assert keys[i] == tt[i - 21];
      } else {
        assert keys[i] == ml[i - 33];
      }
    }
  }

  /** No key of the collector's prop record ends in a digit. */
  lemma NotACollectorPropKey(r: PropShaper.PropRow, k: string)
    requires |k| >= 1 && IsDigit(k[|k| - 1])
    ensures k !in PropShaper.PropRowRecord(r)
  {
    var keys := PropShaper.PropRowRecord(r).Keys;
    forall key | key in keys ensures |key| >= 1 && !IsDigit(key[|key| - 1]) {
    }
  }

  /**
   * Likewise for props: the collector's `over_line`, `collected_date`, ...
   * are not the writer's `over_line_1`, `collected_date_1`, ...; the identity
   * and reference cells come through and the twenty snapshot cells are ''.
   */
  lemma CollectorPropRowLosesLines(r: PropShaper.PropRow)
    ensures var cells := PropToSheetRow(PropShaper.PropRowRecord(r));
      && cells[..7] == [Text(r.gameId), Text(r.playerName), Text(r.position), Text(r.team),
                        Text(r.marketType), Text(r.bookmaker), Text(r.dataSource)]
      && (forall i :: 7 <= i < 27 ==> cells[i] == Blank)
      && cells[27..] == [Text("N/A"), Text("N/A"), Text("N/A"), Text("N/A"), Text("N/A")]
  {
    var keys := PropValueKeys();
    var cells := PropToSheetRow(PropShaper.PropRowRecord(r));
    assert keys[..7] == PropIdentityKeys;
    BlockKeysEndInDigit(PropSnapshotBases);
    forall i | 7 <= i < 27 ensures cells[i] == Blank {
      assert keys[i] == Block(PropSnapshotBases)[i - 7];
      NotACollectorPropKey(r, keys[i]);
    }
  }

  // ---- the append range ----

  /** The rows an append covers: from after the existing rows, one per new row. */
  datatype RowSpan = RowSpan(first: int, last: int)

  function AppendSpan(existing: nat, n: nat): RowSpan
  {
    var start := existing + 1;
    RowSpan(start, start + n - 1)
  }

  /** A non-empty append starts right below the existing rows and covers exactly `n` rows. */
  lemma AppendSpanCovers(existing: nat, n: nat)
    requires n > 0
    ensures var sp := AppendSpan(existing, n);
      sp.first == existing + 1 && sp.last - sp.first + 1 == n && sp.first <= sp.last
  {
  }

  /** Two appends in a row are contiguous: the second starts just below the first. */
  lemma AppendsAreContiguous(existing: nat, n: nat, m: nat)
    requires n > 0 && m > 0
    ensures AppendSpan(existing + n, m).first == AppendSpan(existing, n).last + 1
  {
  }

  /** `f"{sheet_name}!A{start_row}:AZ{end_row}"` */
  function RangeName(sheet: string, sp: RowSpan): string
  {
    sheet + "!A" + IntToString(sp.first) + ":AZ" + IntToString(sp.last)
  }

  // ---- the service ----

  /** One update request: a range and the rows written into it. */
  datatype Update = Update(range: string, values: seq<seq<Cell>>)

  /** How the service answers an update: the reply's `updatedRows`, if any, or an `HttpError`. */
  datatype Reply = Updated(updatedRows: Option<int>) | HttpFailed(message: string)

  /** What one `_write_*` call reports. */
  datatype WriteResult = WriteResult(rowsWritten: int, errors: seq<string>)

  function Reported(reply: Reply, what: string): (r: WriteResult)
    ensures reply.Updated? ==> r.errors == [] && r.rowsWritten == reply.updatedRows.GetOr(0)
    ensures reply.HttpFailed? ==> r.rowsWritten == 0 && |r.errors| == 1
  {
    match reply
    case Updated(n) => WriteResult(n.GetOr(0), [])
    case HttpFailed(msg) => WriteResult(0, ["Failed to write " + what + ": " + msg])
  }

  /** `_get_existing_sheet_data`: the rows read, none when the read fails. */
  function ExistingCount(read: Option<nat>): nat
  {
    read.GetOr(0)
  }

  /** The shared tail of `_write_game_lines` and `_write_player_props`. */
  method SendRows(sheet: string, rows: seq<seq<Cell>>, read: Option<nat>, reply: Reply, what: string)
    returns (result: WriteResult, request: Option<Update>)
    ensures rows == [] ==> result == WriteResult(0, []) && request == None
    ensures rows != [] ==> request == Some(Update(RangeName(sheet, AppendSpan(ExistingCount(read), |rows|)), rows))
                           && result == Reported(reply, what)
  {
    if |rows| == 0 {
      return WriteResult(0, []), None;
    }
    var startRow := ExistingCount(read) + 1;
    var endRow := startRow + |rows| - 1;
    request := Some(Update(sheet + "!A" + IntToString(startRow) + ":AZ" + IntToString(endRow), rows));
    match reply {
      case Updated(n) =>
        result := WriteResult(n.GetOr(0), []);
      case HttpFailed(msg) =>
        result := WriteResult(0, ["Failed to write " + what + ": " + msg]);
    }
  }

  function GameSheetRows(games: seq<Record>): (rows: seq<seq<Cell>>)
    ensures |rows| == |games|
  {
    seq(|games|, i requires 0 <= i < |games| => GameToSheetRow(games[i]))
  }

  function PropSheetRows(props: seq<Record>): (rows: seq<seq<Cell>>)
    ensures |rows| == |props|
  {
    seq(|props|, i requires 0 <= i < |props| => PropToSheetRow(props[i]))
  }

  /** `_write_game_lines` */
  method WriteGameLines(sheet: string, games: seq<Record>, read: Option<nat>, reply: Reply)
    returns (result: WriteResult, request: Option<Update>)
    ensures games == [] ==> result == WriteResult(0, []) && request == None
    ensures games != [] ==> request == Some(Update(RangeName(sheet, AppendSpan(ExistingCount(read), |games|)), GameSheetRows(games)))
                            && result == Reported(reply, "game lines")
  {
    var rows: seq<seq<Cell>> := [];
    var i := 0;
    while i < |games|
      invariant 0 <= i <= |games|
      invariant |rows| == i && forall k :: 0 <= k < i ==> rows[k] == GameToSheetRow(games[k])
    {
      rows := rows + [GameToSheetRow(games[i])];
      i := i + 1;
    }
    assert rows == GameSheetRows(games);
    result, request := SendRows(sheet, rows, read, reply, "game lines");
  }

  /** `_write_player_props` */
  method WritePlayerProps(sheet: string, props: seq<Record>, read: Option<nat>, reply: Reply)
    returns (result: WriteResult, request: Option<Update>)
    ensures props == [] ==> result == WriteResult(0, []) && request == None
    ensures props != [] ==> request == Some(Update(RangeName(sheet, AppendSpan(ExistingCount(read), |props|)), PropSheetRows(props)))
                            && result == Reported(reply, "player props")
  {
    var rows: seq<seq<Cell>> := [];
    var i := 0;
    while i < |props|
      invariant 0 <= i <= |props|
      invariant |rows| == i && forall k :: 0 <= k < i ==> rows[k] == PropToSheetRow(props[k])
    {
      rows := rows + [PropToSheetRow(props[i])];
      i := i + 1;
    }
    assert rows == PropSheetRows(props);
    result, request := SendRows(sheet, rows, read, reply, "player props");
  }

  /** Every row of a game-lines request has 41 cells, and its range has one row per row sent. */
  lemma GameRequestFits(sheet: string, games: seq<Record>, read: Option<nat>)
    requires games != []
    ensures var sp := AppendSpan(ExistingCount(read), |games|);
      && sp.last - sp.first + 1 == |GameSheetRows(games)|
      && forall i :: 0 <= i < |games| ==> |GameSheetRows(games)[i]| == 41
  {
    forall i | 0 <= i < |games| ensures |GameSheetRows(games)[i]| == 41 {
      GameRowLayout(games[i]);
    }
  }

  /** Every row of a player-props request has 32 cells, and its range has one row per row sent. */
  lemma PropRequestFits(sheet: string, props: seq<Record>, read: Option<nat>)
    requires props != []
    ensures var sp := AppendSpan(ExistingCount(read), |props|);
      && sp.last - sp.first + 1 == |PropSheetRows(props)|
      && forall i :: 0 <= i < |props| ==> |PropSheetRows(props)[i]| == 32
  {
    forall i | 0 <= i < |props| ensures |PropSheetRows(props)[i]| == 32 {
      PropRowLayout(props[i]);
    }
  }

  // ---- the overview tab ----

  /** The overview row of a snapshot's status cell: rows 11 to 14 for snapshots 1 to 4, none otherwise. */
  function StatusRow(snapshot: int): (r: Option<int>)
    ensures r.Some? <==> 1 <= snapshot <= 4
    ensures r.Some? ==> r.value == snapshot + 10
  {
    if snapshot == 1 then Some(11)
    else if snapshot == 2 then Some(12)
    else if snapshot == 3 then Some(13)
    else if snapshot == 4 then Some(14)
    else None
  }

  function StatusText(timestamp: string): string
  {
    "Collected - " + timestamp
  }

  /** One cell's update. */
  function CellUpdate(sheet: string, cell: string, value: string): Update
  {
    Update(sheet + "!" + cell, [[Text(value)]])
  }

  /**
   * `_update_overview_tab`: the status cell when the snapshot has one, then
   * the two summary cells; an `HttpError` on the status cell ends the update
   * there, and failures of the summary cells are skipped.
   */
  function OverviewUpdates(sheet: string, snapshot: int, timestamp: string, gamesCount: int, statusReply: Reply): (us: seq<Update>)
    ensures StatusRow(snapshot).None? ==> |us| == 2
    ensures StatusRow(snapshot).Some? ==>
              |us| == (if statusReply.HttpFailed? then 1 else 3)
              && us[0] == CellUpdate(sheet, "B" + IntToString(snapshot + 10), StatusText(timestamp))
  {
    var summary := [CellUpdate(sheet, "B5", IntToString(gamesCount)), CellUpdate(sheet, "B6", "0")];
    match StatusRow(snapshot)
    case None => summary
    case Some(row) =>
      [CellUpdate(sheet, "B" + IntToString(row), StatusText(timestamp))] + (if statusReply.HttpFailed? then [] else summary)
  }

  // ---- write_collection_data ----

  /** The collected-data file, with the keys the writer indexes directly as `Option`s. */
  datatype CollectionData = CollectionData(
    week: Option<int>, snapshot: Option<int>, snapshotDescription: Option<string>,
    gamesCount: Option<int>, propsCount: Option<int>, collectionTimestamp: Option<string>,
    gamesData: seq<Record>, propsData: seq<Record>)

  /** The tab names of the configuration. */
  datatype TabNames = TabNames(gameLines: string, playerProps: string, overview: string)

  /** What the service holds and answers during one write. */
  datatype Service = Service(
    gameRowsRead: Option<nat>, gamesReply: Reply,
    propRowsRead: Option<nat>, propsReply: Reply,
    statusReply: Reply)

  /** The writer's result: the counts and errors, or the `KeyError` text of a missing key. */
  datatype WriteOutcome =
    | Written(week: int, snapshot: int, gamesWritten: int, propsWritten: int, errors: seq<string>)
    | WriteFailed(error: string)

  /** `str(KeyError(key))` */
  function KeyErrorText(key: string): string
  {
    "'" + key + "'"
  }

  /** The first of the keys read before any write that the file lacks. */
  function MissingHeader(data: CollectionData): Option<string>
  {
    if data.week.None? then Some("week")
    else if data.snapshot.None? then Some("snapshot")
    else if data.snapshotDescription.None? then Some("snapshot_description")
    else if data.gamesCount.None? then Some("games_count")
    else if data.propsCount.None? then Some("props_count")
    else None
  }

  /** The game-lines part of a write: nothing when the file has no games. */
  function GamesPart(tabs: TabNames, data: CollectionData, svc: Service): (WriteResult, seq<Update>)
  {
    if data.gamesData == [] then (WriteResult(0, []), [])
    else
      (Reported(svc.gamesReply, "game lines"),
       [Update(RangeName(tabs.gameLines, AppendSpan(ExistingCount(svc.gameRowsRead), |data.gamesData|)), GameSheetRows(data.gamesData))])
  }

  function PropsPart(tabs: TabNames, data: CollectionData, svc: Service): (WriteResult, seq<Update>)
  {
    if data.propsData == [] then (WriteResult(0, []), [])
    else
      (Reported(svc.propsReply, "player props"),
       [Update(RangeName(tabs.playerProps, AppendSpan(ExistingCount(svc.propRowsRead), |data.propsData|)), PropSheetRows(data.propsData))])
  }

  /** What `write_collection_data` reports and sends, as one value. */
  function WriteCollection(tabs: TabNames, data: CollectionData, svc: Service): (WriteOutcome, seq<Update>)
  {
    match MissingHeader(data)
    case Some(key) => (WriteFailed(KeyErrorText(key)), [])
    case None =>
      var (g, gu) := GamesPart(tabs, data, svc);
      var (p, pu) := PropsPart(tabs, data, svc);
      if data.collectionTimestamp.None? then (WriteFailed(KeyErrorText("collection_timestamp")), gu + pu)
      else
        (Written(data.week.value, data.snapshot.value, g.rowsWritten, p.rowsWritten, g.errors + p.errors),
         gu + pu + OverviewUpdates(tabs.overview, data.snapshot.value, data.collectionTimestamp.value,
                                   data.gamesCount.value, svc.statusReply))
  }

  /** `write_collection_data`, with the file already loaded. */
  method WriteCollectionData(tabs: TabNames, data: CollectionData, svc: Service)
    returns (outcome: WriteOutcome, sent: seq<Update>)
    ensures (outcome, sent) == WriteCollection(tabs, data, svc)
  {
    var missing := MissingHeader(data);
    if missing.Some? {
      return WriteFailed(KeyErrorText(missing.value)), [];
    }
    var gamesWritten, propsWritten := 0, 0;
    var errors: seq<string> := [];
    sent := [];
    if data.gamesData != [] {
      var r, u := WriteGameLines(tabs.gameLines, data.gamesData, svc.gameRowsRead, svc.gamesReply);
      gamesWritten := r.rowsWritten;
      if r.errors != [] {
        errors := errors + r.errors;
      }
      sent := sent + [u.value];
    }
    assert sent == GamesPart(tabs, data, svc).1;
    if data.propsData != [] {
      var r, u := WritePlayerProps(tabs.playerProps, data.propsData, svc.propRowsRead, svc.propsReply);
      propsWritten := r.rowsWritten;
      if r.errors != [] {
        errors := errors + r.errors;
      }
      sent := sent + [u.value];
    }
    assert sent == GamesPart(tabs, data, svc).1 + PropsPart(tabs, data, svc).1;
    assert errors == GamesPart(tabs, data, svc).0.errors + PropsPart(tabs, data, svc).0.errors;
    if data.collectionTimestamp.None? {
      return WriteFailed(KeyErrorText("collection_timestamp")), sent;
    }
    sent := sent + OverviewUpdates(tabs.overview, data.snapshot.value, data.collectionTimestamp.value,
                                   data.gamesCount.value, svc.statusReply);
    outcome := Written(data.week.value, data.snapshot.value, gamesWritten, propsWritten, errors);
  }

  /**
   * A write with all its keys reports the file's week and snapshot, 0 rows
   * for a missing or empty list, and the game errors before the prop errors.
   */
  lemma WrittenCounts(tabs: TabNames, data: CollectionData, svc: Service)
    requires MissingHeader(data).None? && data.collectionTimestamp.Some?
    ensures var out := WriteCollection(tabs, data, svc).0;
      && out.Written? && out.week == data.week.value && out.snapshot == data.snapshot.value
      && (data.gamesData == [] ==> out.gamesWritten == 0)
      && (data.propsData == [] ==> out.propsWritten == 0)
      && out.errors == GamesPart(tabs, data, svc).0.errors + PropsPart(tabs, data, svc).0.errors
      && |out.errors| <= 2
  {
  }

  /** A file lacking a key read before the writes fails with nothing sent. */
  lemma MissingKeySendsNothing(tabs: TabNames, data: CollectionData, svc: Service)
    requires MissingHeader(data).Some?
    ensures WriteCollection(tabs, data, svc) == (WriteFailed(KeyErrorText(MissingHeader(data).value)), [])
  {
  }

  /**
   * A file with the header keys but no `collection_timestamp` (the historical
   * package names it `collection_time`) fails only after its rows were sent.
   */
  lemma MissingTimestampFailsAfterRows(tabs: TabNames, data: CollectionData, svc: Service)
    requires MissingHeader(data).None? && data.collectionTimestamp.None?
    ensures WriteCollection(tabs, data, svc)
            == (WriteFailed(KeyErrorText("collection_timestamp")), GamesPart(tabs, data, svc).1 + PropsPart(tabs, data, svc).1)
  {
  }

  /** Snapshots 5 and 6 send no status cell: only the two summary cells follow the rows. */
  lemma LateSnapshotsHaveNoStatus(tabs: TabNames, data: CollectionData, svc: Service)
    requires MissingHeader(data).None? && data.collectionTimestamp.Some?
    requires data.snapshot.value == 5 || data.snapshot.value == 6
    ensures var sent := WriteCollection(tabs, data, svc).1;
      var rows := GamesPart(tabs, data, svc).1 + PropsPart(tabs, data, svc).1;
      sent == rows + [CellUpdate(tabs.overview, "B5", IntToString(data.gamesCount.value)), CellUpdate(tabs.overview, "B6", "0")]
  {
  }
}
