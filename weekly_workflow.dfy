/**
 * The weekly run: pick the snapshot, find or clone the week's spreadsheet,
 * skip a snapshot the Overview tab already shows as collected, collect, and
 * write. The clock, the Drive listing and copy, the Overview read, the
 * collector's result and the Sheets service's replies are inputs.
 */
module WeeklyWorkflow {
  import opened Wrappers
  import opened Text
  import Schedule
  import SheetsWriter
  import GameDay

  // ---- _get_or_create_weekly_spreadsheet ----

  const FileNamePrefix := "Week_"
  const FileNameSuffix := "_NFL_Betting_2025"

  /** The name of a week's spreadsheet. */
  function WeeklyFileName(week: int): (name: string)
    ensures StartsWith(name, FileNamePrefix) && EndsWith(name, FileNameSuffix)
    ensures |name| == |FileNamePrefix| + |IntToString(week)| + |FileNameSuffix|
  {
    FileNamePrefix + IntToString(week) + FileNameSuffix
  }

  /** The week number sits between the fixed prefix and suffix. */
  lemma WeeklyFileNameWeek(week: int)
    ensures var name := WeeklyFileName(week);
      ParseInt(name[|FileNamePrefix|..|name| - |FileNameSuffix|]) == Some(week)
  {
    var name := WeeklyFileName(week);
    assert name[|FileNamePrefix|..|name| - |FileNameSuffix|] == IntToString(week);
    ParseIntToString(week);
  }

  /** Different weeks never share a spreadsheet name. */
  lemma WeeklyFileNamesDiffer(w1: int, w2: int)
    requires w1 != w2
    ensures WeeklyFileName(w1) != WeeklyFileName(w2)
  {
    WeeklyFileNameWeek(w1);
    WeeklyFileNameWeek(w2);
  }

  /**
   * What Drive answers: the ids the name search lists (`None` when the
   * search raises an `HttpError`), and the id of the template copy (`None`
   * when the copy raises one).
   */
  datatype Drive = Drive(found: Option<seq<string>>, copied: Option<string>)

  /** The spreadsheet the run uses: the first listed file, else a fresh copy of the template. */
  function WeeklySpreadsheet(drive: Drive): (id: Option<string>)
    ensures drive.found.Some? && drive.found.value != [] ==> id == Some(drive.found.value[0])
    ensures (drive.found.None? || drive.found.value == []) ==> id == drive.copied
  {
    match drive.found
    case Some(ids) => if ids != [] then Some(ids[0]) else drive.copied
    case None => drive.copied
  }

  // ---- _check_existing_snapshots ----

  const NotCollected := "Not Collected"
  const CollectedWord := "Collected"

  /** A status cell that marks its snapshot as collected. */
  predicate IsCollected(status: string)
  {
    status != "" && status != NotCollected && Contains(status, CollectedWord)
  }

  /** The snapshot numbers whose row of the read range shows a collected status. */
  function ExistingSnapshots(values: seq<seq<string>>): seq<int>
    decreases |values|
  {
    if values == [] then []
    else
      var row := values[|values| - 1];
      ExistingSnapshots(values[..|values| - 1]) + (if row != [] && IsCollected(row[0]) then [|values|] else [])
  }

  /** Row `i` (from 0) of the read range stands for snapshot `i + 1`. */
  lemma {:induction false} ExistingSnapshotsExactly(values: seq<seq<string>>, k: int)
    ensures k in ExistingSnapshots(values)
            <==> 1 <= k <= |values| && values[k - 1] != [] && IsCollected(values[k - 1][0])
    decreases |values|
  {
    if values != [] {
      var init := values[..|values| - 1];
      ExistingSnapshotsExactly(init, k);
      if 1 <= k < |values| {
        assert init[k - 1] == values[k - 1];
      }
    }
  }

  /** The snapshots come out in increasing order, each within the range read. */
  lemma {:induction false} ExistingSnapshotsIncreasing(values: seq<seq<string>>)
    ensures IncreasingWithin(ExistingSnapshots(values), |values|)
    decreases |values|
  {
    if values != [] {
      var init := values[..|values| - 1];
      ExistingSnapshotsIncreasing(init);
    }
  }

  /** Strictly increasing numbers from 1 to `n`. */
  predicate IncreasingWithin(r: seq<int>, n: int)
  {
    && (forall i :: 0 <= i < |r| ==> 1 <= r[i] <= n)
    && (forall i, j :: 0 <= i < j < |r| ==> r[i] < r[j])
  }

  /** `_check_existing_snapshots`: the Overview read is `None` when it raises. */
  method CheckExistingSnapshots(read: Option<seq<seq<string>>>) returns (existing: seq<int>)
    ensures existing == (if read.None? then [] else ExistingSnapshots(read.value))
  {
    existing := [];
    if read.None? {
      return;
    }
    var values := read.value;
    var i := 0;
    while i < |values|
      invariant 0 <= i <= |values|
      invariant existing == ExistingSnapshots(values[..i])
    {
      var row := values[i];
      ghost var done := values[..i + 1];
      assert done[..i] == values[..i];
      if row != [] && IsCollected(row[0]) {
        existing := existing + [i + 1];
      }
      i := i + 1;
      assert values[..i] == done;
    }
    assert values[..i] == values;
  }

  // ---- the Overview tab across the three files that use it ----

  /** Column B of the Overview tab, by 1-based row number. */
  type Column = map<int, string>

  /** The first and last row of the range `B10:B15` the run reads. */
  const FirstStatusRow := 10
  const LastStatusRow := 15

  /** The values of `B10:B15`: one row per sheet row, empty where the cell is. */
  function ReadStatusRange(column: Column): (values: seq<seq<string>>)
    ensures |values| == LastStatusRow - FirstStatusRow + 1
  {
    seq(LastStatusRow - FirstStatusRow + 1,
        i => if FirstStatusRow + i in column then [column[FirstStatusRow + i]] else [])
  }

  /** The template's status column: rows 10 to 15 say "Not Collected" for snapshots 1 to 6. */
  function TemplateStatusColumn(): (column: Column)
    ensures forall row :: row in column <==> FirstStatusRow <= row <= LastStatusRow
  {
    map[10 := NotCollected, 11 := NotCollected, 12 := NotCollected,
        13 := NotCollected, 14 := NotCollected, 15 := NotCollected]
  }

  /** A freshly cloned template shows no snapshot as collected. */
  lemma FreshTemplateHasNoSnapshots()
    ensures forall k :: k !in ExistingSnapshots(ReadStatusRange(TemplateStatusColumn()))
  {
    var values := ReadStatusRange(TemplateStatusColumn());
    forall k ensures k !in ExistingSnapshots(values) {
      ExistingSnapshotsExactly(values, k);
    }
  }

  /** The writer's status text counts as collected. */
  lemma StatusTextIsCollected(timestamp: string)
    ensures IsCollected(SheetsWriter.StatusText(timestamp))
  {
    var s := SheetsWriter.StatusText(timestamp);
    assert s[..|CollectedWord|] == CollectedWord;
    assert s[0] != NotCollected[0];
  }

  /**
   * After the writer marks snapshot `s` (1 to 4) on the template, the run's
   * read reports exactly snapshot `s + 1`: the writer's row `s + 10` is the
   * template's row for `s + 1`, which the range starting at row 10 numbers
   * `s + 1`.
   */
  lemma WrittenStatusReadAsNextSnapshot(s: int, timestamp: string)
    requires SheetsWriter.StatusRow(s).Some?
    ensures var column := TemplateStatusColumn()[SheetsWriter.StatusRow(s).value := SheetsWriter.StatusText(timestamp)];
      forall k :: k in ExistingSnapshots(ReadStatusRange(column)) <==> k == s + 1
  {
    var column := TemplateStatusColumn()[SheetsWriter.StatusRow(s).value := SheetsWriter.StatusText(timestamp)];
    var values := ReadStatusRange(column);
    StatusTextIsCollected(timestamp);
    forall k ensures k in ExistingSnapshots(values) <==> k == s + 1 {
      ExistingSnapshotsExactly(values, k);
      if 1 <= k <= |values| {
        assert values[k - 1] == [column[FirstStatusRow + k - 1]];
      }
    }
  }

  // ---- execute_weekly_collection ----

  /** The collaborator calls a run makes, in order. */
  datatype Step =
    | Detect
    | FindOrCreate(fileName: string)
    | CheckExisting(spreadsheetId: string)
    | Collect(week: int, snapshot: int)
    | Write(spreadsheetId: string, updates: seq<SheetsWriter.Update>)

  /** What `collect_weekly_data` returns; its data file is given already loaded. */
  datatype CollectionResult =
    | Collected(snapshot: int, description: string, gamesCollected: int, propsCollected: int,
                tdPropsCollected: Option<int>, apiRequests: int, timestamp: string,
                dataFile: SheetsWriter.CollectionData)
    | CollectionFailed(error: Option<string>)
    | CollectionRaised(exception: string)  // the collector raised; the name of the exception

  /** Everything outside the workflow that a run consults. */
  datatype Environment = Environment(
    day: int, hour: int,
    schedule: map<int, string>,
    drive: Drive,
    overviewRead: Option<seq<seq<string>>>,
    collection: CollectionResult,
    tabs: SheetsWriter.TabNames,
    sheets: SheetsWriter.Service)

  const StepSpreadsheet := "spreadsheet_creation"
  const StepCollection := "data_collection"
  const StepWriting := "data_writing"
  const NotScheduledText := "Not a scheduled collection time"
  const SpreadsheetFailedText := "Failed to create weekly spreadsheet"
  const KeyErrorName := "KeyError"
  const TypeErrorName := "TypeError"

  function AlreadyExistsText(snapshot: int): string
  {
    "Snapshot " + IntToString(snapshot) + " already exists"
  }

  /**
   * The run's result dictionary. `UnknownSnapshot` is the `KeyError` the
   * schedule lookup raises for a snapshot the schedule does not name.
   */
  datatype WorkflowResult =
    | NotScheduled(nextCollection: string)
    | UnknownSnapshot(snapshot: int)
    | StepFailed(error: Option<string>, step: string)
    | AlreadyCollected(snapshot: int, existing: seq<int>)
    | Raised(exception: string)  // an exception the run does not catch
    | Succeeded(week: int, snapshot: int, description: string, spreadsheetId: string,
                gamesCollected: int, propsCollected: int, tdPropsCollected: int,
                gamesWritten: int, propsWritten: int, tdPropsWritten: int,
                apiRequests: int, timestamp: string)
  {
    function Error(): Option<string>
    {
      match this
      case NotScheduled(_) => Some(NotScheduledText)
      case UnknownSnapshot(_) => None
      case StepFailed(e, _) => e
      case AlreadyCollected(n, _) => Some(AlreadyExistsText(n))
      case Raised(_) => None
      case Succeeded(_, _, _, _, _, _, _, _, _, _, _, _) => None
    }
  }

  /** The snapshot the run targets: the requested one, else the clock's. */
  function TargetSnapshot(requested: Option<int>, env: Environment): Option<int>
    requires Schedule.ValidClock(env.day, env.hour)
  {
    if requested.Some? then requested else Schedule.CurrentSnapshot(env.day, env.hour)
  }

  /** The result once the data is collected, with the updates the writer sends: the writer's outcome decides. */
  function AfterCollection(week: int, id: string, c: CollectionResult, env: Environment): (WorkflowResult, seq<SheetsWriter.Update>)
    requires c.Collected?
  {
    var (outcome, sent) := SheetsWriter.WriteCollection(env.tabs, c.dataFile, env.sheets);
    match outcome
    case WriteFailed(e) => (StepFailed(Some(e), StepWriting), sent)
    case Written(_, _, gamesWritten, propsWritten, _) =>
      (Succeeded(week, c.snapshot, c.description, id, c.gamesCollected, c.propsCollected,
                 c.tdPropsCollected.GetOr(0), gamesWritten, propsWritten, 0, c.apiRequests, c.timestamp),
       sent)
  }

  /** The result and collaborator calls once the spreadsheet is known. */
  function WithSpreadsheet(week: int, n: int, id: string, env: Environment): (WorkflowResult, seq<Step>)
  {
    var existing := if env.overviewRead.None? then [] else ExistingSnapshots(env.overviewRead.value);
    if n in existing then (AlreadyCollected(n, existing), [CheckExisting(id)])
    else
      match env.collection
      case CollectionFailed(e) => (StepFailed(e, StepCollection), [CheckExisting(id), Collect(week, n)])
      case CollectionRaised(x) => (Raised(x), [CheckExisting(id), Collect(week, n)])
      case Collected(_, _, _, _, _, _, _, _) =>
        var (result, sent) := AfterCollection(week, id, env.collection, env);
        (result, [CheckExisting(id), Collect(week, n), Write(id, sent)])
  }

  /** `execute_weekly_collection`: its result and the collaborator calls it makes. */
  function WeeklyCollection(week: int, requested: Option<int>, env: Environment): (WorkflowResult, seq<Step>)
    requires Schedule.ValidClock(env.day, env.hour)
  {
    var detect := if requested.Some? then [] else [Detect];
    match TargetSnapshot(requested, env)
    case None => (NotScheduled(Schedule.NextCollectionLabel(env.day, env.hour)), detect)
    case Some(n) =>
      if n !in env.schedule then (UnknownSnapshot(n), detect)
      else
        var found := detect + [FindOrCreate(WeeklyFileName(week))];
        var id := WeeklySpreadsheet(env.drive);
        if id.None? || id.value == "" then (StepFailed(Some(SpreadsheetFailedText), StepSpreadsheet), found)
        else
          var (result, calls) := WithSpreadsheet(week, n, id.value, env);
          (result, found + calls)
  }

  /** The run, as a sequence of early returns over the collaborators' answers. */
  method ExecuteWeeklyCollection(week: int, requested: Option<int>, env: Environment)
    returns (result: WorkflowResult, calls: seq<Step>)
    requires Schedule.ValidClock(env.day, env.hour)
    ensures (result, calls) == WeeklyCollection(week, requested, env)
  {
    calls := [];
    var snapshot := requested;
    if snapshot.None? {
      calls := [Detect];
      snapshot := Schedule.CurrentSnapshot(env.day, env.hour);
      if snapshot.None? {
        return NotScheduled(Schedule.NextCollectionLabel(env.day, env.hour)), calls;
      }
    }
    var n := snapshot.value;
    if n !in env.schedule {
      return UnknownSnapshot(n), calls;
    }
    calls := calls + [FindOrCreate(WeeklyFileName(week))];
    var found := calls;
    var id := WeeklySpreadsheet(env.drive);
    if id.None? || id.value == "" {
      return StepFailed(Some(SpreadsheetFailedText), StepSpreadsheet), calls;
    }
    var existing := CheckExistingSnapshots(env.overviewRead);
    calls := found + [CheckExisting(id.value)];
    if n in existing {
      return AlreadyCollected(n, existing), calls;
    }
    calls := found + [CheckExisting(id.value), Collect(week, n)];
    var c := env.collection;
    if c.CollectionFailed? {
      return StepFailed(c.error, StepCollection), calls;
    }
    if c.CollectionRaised? {
      return Raised(c.exception), calls;
    }
    var outcome, sent := SheetsWriter.WriteCollectionData(env.tabs, c.dataFile, env.sheets);
    calls := found + [CheckExisting(id.value), Collect(week, n), Write(id.value, sent)];
    if outcome.WriteFailed? {
      return StepFailed(Some(outcome.error), StepWriting), calls;
    }
    result := Succeeded(week, c.snapshot, c.description, id.value, c.gamesCollected, c.propsCollected,
                        c.tdPropsCollected.GetOr(0), outcome.gamesWritten, outcome.propsWritten, 0,
                        c.apiRequests, c.timestamp);
  }

  /**
   * What `collect_weekly_data(week, n)` gives as written: the not-scheduled
   * reply when it finds no snapshot, and otherwise the exception of its
   * schedule lookup or of its games request. It never returns collected data.
   */
  function CollectorAsWritten(n: int, env: Environment): (c: CollectionResult)
    requires Schedule.ValidClock(env.day, env.hour)
    ensures !c.Collected?
    ensures n != 0 && n in env.schedule ==> c == CollectionRaised(TypeErrorName)
  {
    match GameDay.CollectStart(Some(n), env.day, env.hour, env.schedule)
    case StartNotScheduled => CollectionFailed(Some(NotScheduledText))
    case StartKeyError(_) => CollectionRaised(KeyErrorName)
    case StartTypeError(_) => CollectionRaised(TypeErrorName)
  }

  // ---- properties of the run ----

  /**
   * With the collector as written no run writes or succeeds: a run that
   * reaches the collection step for a snapshot other than 0 ends in the
   * `TypeError` of the games request.
   */
  lemma AsWrittenRunNeverWrites(week: int, requested: Option<int>, env: Environment)
    requires Schedule.ValidClock(env.day, env.hour)
    requires TargetSnapshot(requested, env).Some? ==>
               env.collection == CollectorAsWritten(TargetSnapshot(requested, env).value, env)
    ensures var (result, calls) := WeeklyCollection(week, requested, env);
      && !result.Succeeded?
      && !(result.StepFailed? && result.step == StepWriting)
      && (forall k :: 0 <= k < |calls| ==> !calls[k].Write?)
      && (requested != Some(0) && (exists k :: 0 <= k < |calls| && calls[k].Collect?) ==> result == Raised(TypeErrorName))
  {
  }

  /** Off schedule with no snapshot requested, the run stops after the clock check with the next window's label. */
  lemma UnscheduledStopsAtDetect(week: int, env: Environment)
    requires Schedule.ValidClock(env.day, env.hour)
    requires Schedule.CurrentSnapshot(env.day, env.hour).None?
    ensures WeeklyCollection(week, None, env)
            == (NotScheduled(Schedule.NextCollectionLabel(env.day, env.hour)), [Detect])
    ensures WeeklyCollection(week, None, env).0.nextCollection == Schedule.LabelTuesdayOpening
  {
    Schedule.UnscheduledPointsToTuesday(env.day, env.hour);
  }

  /** A requested snapshot skips the clock entirely. */
  lemma RequestedSnapshotSkipsDetect(week: int, n: int, env: Environment)
    requires Schedule.ValidClock(env.day, env.hour)
    ensures Detect !in WeeklyCollection(week, Some(n), env).1
    ensures WeeklyCollection(week, Some(n), env).0 != NotScheduled(Schedule.NextCollectionLabel(env.day, env.hour))
  {
    var (result, calls) := WeeklyCollection(week, Some(n), env);
    if n in env.schedule {
      var id := WeeklySpreadsheet(env.drive);
      if id.Some? && id.value != "" {
        var (r, c) := WithSpreadsheet(week, n, id.value, env);
        assert calls == [FindOrCreate(WeeklyFileName(week))] + c;
        assert Detect !in c;
      }
    }
  }

  /**
   * Once the spreadsheet is found, the run stops with `AlreadyCollected`
   * exactly when the target is among the existing snapshots, and then it
   * neither collects nor writes.
   */
  lemma ExistingSnapshotIsNotCollected(week: int, n: int, id: string, env: Environment)
    ensures var existing := if env.overviewRead.None? then [] else ExistingSnapshots(env.overviewRead.value);
      var (result, calls) := WithSpreadsheet(week, n, id, env);
      && (result.AlreadyCollected? <==> n in existing)
      && (result.AlreadyCollected? ==> result.existing == existing && calls == [CheckExisting(id)])
      && (!result.AlreadyCollected? ==> calls[..2] == [CheckExisting(id), Collect(week, n)])
  {
  }

  /** Each failure names the step it stopped at, and the step follows from the collaborators' answers. */
  lemma FailuresAreTagged(week: int, n: int, id: string, env: Environment)
    ensures var (result, calls) := WithSpreadsheet(week, n, id, env);
      && (result.StepFailed? ==> result.step == StepCollection || result.step == StepWriting)
      && (result.StepFailed? && result.step == StepCollection
          <==> !result.AlreadyCollected? && env.collection.CollectionFailed?)
      && (result.StepFailed? && result.step == StepCollection ==> result.error == env.collection.error)
      && (result.StepFailed? && result.step == StepWriting
          <==> !result.AlreadyCollected? && env.collection.Collected?
               && SheetsWriter.WriteCollection(env.tabs, env.collection.dataFile, env.sheets).0.WriteFailed?)
  {
  }

  /** A missing or empty spreadsheet id stops the run at the spreadsheet step, before any read. */
  lemma SpreadsheetFailureIsTagged(week: int, n: int, env: Environment)
    requires Schedule.ValidClock(env.day, env.hour)
    requires n in env.schedule
    requires WeeklySpreadsheet(env.drive) == None || WeeklySpreadsheet(env.drive) == Some("")
    ensures WeeklyCollection(week, Some(n), env)
            == (StepFailed(Some(SpreadsheetFailedText), StepSpreadsheet), [FindOrCreate(WeeklyFileName(week))])
  {
    var none: seq<Step> := [];
    assert none + [FindOrCreate(WeeklyFileName(week))] == [FindOrCreate(WeeklyFileName(week))];
  }

  /**
   * A successful run copies the collector's counts and the writer's counts,
   * takes the snapshot from the collector, reports 0 TD props collected when
   * the collector gives none, and always reports 0 TD props written.
   */
  lemma SuccessCopiesCounts(week: int, n: int, id: string, env: Environment)
    ensures var (result, calls) := WithSpreadsheet(week, n, id, env);
      result.Succeeded? ==>
        var c := env.collection;
        var (outcome, sent) := SheetsWriter.WriteCollection(env.tabs, c.dataFile, env.sheets);
        && c.Collected? && outcome.Written?
        && result.week == week && result.snapshot == c.snapshot && result.spreadsheetId == id
        && result.gamesCollected == c.gamesCollected && result.propsCollected == c.propsCollected
        && result.tdPropsCollected == (if c.tdPropsCollected.Some? then c.tdPropsCollected.value else 0)
        && result.gamesWritten == outcome.gamesWritten && result.propsWritten == outcome.propsWritten
        && result.tdPropsWritten == 0
        && calls == [CheckExisting(id), Collect(week, n), Write(id, sent)]
  {
  }

  /** Row errors the writer reports do not fail the run. */
  lemma WriteErrorsStillSucceed(week: int, n: int, id: string, env: Environment)
    requires var existing := if env.overviewRead.None? then [] else ExistingSnapshots(env.overviewRead.value);
      n !in existing
    requires env.collection.Collected?
    requires SheetsWriter.WriteCollection(env.tabs, env.collection.dataFile, env.sheets).0.Written?
    ensures WithSpreadsheet(week, n, id, env).0.Succeeded?
  {
  }
}
