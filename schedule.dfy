/**
 * The weekly collection calendar of the data collector: which snapshot the
 * local wall clock selects, and the label of the next collection window.
 * Days follow Python's `weekday()`: Monday is 0, Sunday is 6.
 */
module Schedule {
  import opened Wrappers

  const Monday := 0
  const Tuesday := 1
  const Wednesday := 2
  const Thursday := 3
  const Friday := 4
  const Saturday := 5
  const Sunday := 6

  predicate ValidClock(day: int, hour: int)
  {
    0 <= day < 7 && 0 <= hour < 24
  }

  /** The primary collection windows (first decision chain of the collector). */
  function WindowSnapshot(day: int, hour: int): (r: Option<int>)
    requires ValidClock(day, hour)
    ensures r.Some? ==> 1 <= r.value <= 6
  {
    if day == Tuesday then (if hour >= 10 then Some(1) else None)
    else if day == Thursday then (if hour >= 15 then Some(2) else None)
    else if day == Friday then (if hour >= 15 then Some(3) else None)
    else if day == Saturday then (if hour >= 10 then Some(4) else None)
    else if day == Sunday then (if hour >= 8 && hour < 13 then Some(5) else None)
    else if day == Monday then (if hour >= 15 then Some(6) else None)
    else None
  }

  /** The fallback used outside the windows; its Monday branch sits under a `day >= 1` guard. */
  function FallbackSnapshot(day: int): Option<int>
    requires 0 <= day < 7
  {
    if day >= 1 then
      if day == Tuesday then Some(1)
      else if day == Wednesday then Some(2)
      else if day == Thursday then Some(2)
      else if day == Friday then Some(3)
      else if day == Saturday then Some(4)
      else if day == Sunday then Some(5)
      else if day == Monday then Some(6)
      else None
    else None
  }

  /**
   * `_determine_current_snapshot`: the windows, then the fallback. In effect
   * every day but Monday has one fixed snapshot whatever the hour, and Monday
   * selects snapshot 6 from 15:00 and nothing before.
   */
  function CurrentSnapshot(day: int, hour: int): (r: Option<int>)
    requires ValidClock(day, hour)
    ensures day == Tuesday ==> r == Some(1)
    ensures day == Wednesday ==> r == Some(2)
    ensures day == Thursday ==> r == Some(2)
    ensures day == Friday ==> r == Some(3)
    ensures day == Saturday ==> r == Some(4)
    ensures day == Sunday ==> r == Some(5)
    ensures day == Monday ==> r == (if hour >= 15 then Some(6) else None)
    ensures r.None? <==> (day == Monday && hour < 15)
    ensures r.Some? ==> 1 <= r.value <= 6
  {
    var w := WindowSnapshot(day, hour);
    if w.Some? then w else FallbackSnapshot(day)
  }

  /** Inside a window the window's snapshot is taken. */
  lemma WindowsAreHonoured(day: int, hour: int)
    requires ValidClock(day, hour) && WindowSnapshot(day, hour).Some?
    ensures CurrentSnapshot(day, hour) == WindowSnapshot(day, hour)
  {
  }

  /** The fallback's Monday branch can never be taken. */
  lemma MondayFallbackUnreachable()
    ensures FallbackSnapshot(Monday) == None
  {
  }

  /** Outside Monday, the hour never changes the snapshot: the windows only repeat the fallback. */
  lemma HourIrrelevantExceptMonday(day: int, h1: int, h2: int)
    requires ValidClock(day, h1) && ValidClock(day, h2) && day != Monday
    ensures CurrentSnapshot(day, h1) == CurrentSnapshot(day, h2)
    ensures CurrentSnapshot(day, h1) == FallbackSnapshot(day)
  {
  }

  const LabelTuesdayOpening := "Next Tuesday 10 AM+ (Snapshot 1 - Opening Lines)"
  const LabelThursday := "Next Thursday 3 PM+ (Snapshot 2 - Thursday Night Football)"
  const LabelFriday := "Next Friday 3 PM+ (Snapshot 3 - Friday Games if any)"
  const LabelSaturday := "Next Saturday 10 AM+ (Snapshot 4 - Saturday Games)"
  const LabelSunday := "Next Sunday 8 AM-1 PM (Snapshot 5 - Sunday Games)"
  const LabelMonday := "Next Monday 3 PM+ (Snapshot 6 - Monday Night Football)"
  const LabelNewWeek := "Next Tuesday 10 AM+ (Snapshot 1 - New Week Opening Lines)"

  /** `_get_next_collection_time`: the label of the next window after the given time. */
  function NextCollectionLabel(day: int, hour: int): (r: string)
    requires ValidClock(day, hour)
    ensures r in {LabelTuesdayOpening, LabelThursday, LabelFriday, LabelSaturday, LabelSunday, LabelMonday, LabelNewWeek}
    ensures day == Monday ==> r == LabelTuesdayOpening
    ensures r == LabelMonday <==> (day == Sunday && hour >= 13)
    ensures r == LabelNewWeek <==> (day == Sunday && 8 <= hour < 13)
  {
    if day < 1 || (day == Tuesday && hour < 10) then LabelTuesdayOpening
    else if day < 3 || (day == Thursday && hour < 15) then LabelThursday
    else if day < 4 || (day == Friday && hour < 15) then LabelFriday
    else if day < 5 || (day == Saturday && hour < 10) then LabelSaturday
    else if day < 6 || (day == Sunday && hour < 8) then LabelSunday
    else if day == Sunday && hour >= 13 then LabelMonday
    else if day == Monday && hour < 15 then LabelMonday
    else LabelNewWeek
  }

  /** Whenever no snapshot is due, the next-window label points at Tuesday's opening lines. */
  lemma UnscheduledPointsToTuesday(day: int, hour: int)
    requires ValidClock(day, hour) && CurrentSnapshot(day, hour).None?
    ensures NextCollectionLabel(day, hour) == LabelTuesdayOpening
  {
  }

  /** `_should_collect_props_for_snapshot`: props are collected from snapshot 2 on. */
  function ShouldCollectProps(snapshot: int): (r: bool)
    ensures r <==> snapshot >= 2
  {
    snapshot > 1
  }

  /** Of the automatically chosen snapshots, only Tuesday's skips the props. */
  lemma PropsSkippedOnlyOnTuesday(day: int, hour: int)
    requires ValidClock(day, hour) && CurrentSnapshot(day, hour).Some?
    ensures !ShouldCollectProps(CurrentSnapshot(day, hour).value) <==> day == Tuesday
  {
  }
}
