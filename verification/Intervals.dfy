/** Closed intervals of source time, and the coverage interval that scans extend. */
module Intervals {
  import opened Wrappers
  import opened Domain

  const MINUTE := 60
  const DAY := 86400

  datatype Interval = Interval(from: Time, through: Time)

  /** What is recorded of the coverage of one class of objects. */
  datatype CoverageRow = CoverageRow(covered: Option<Interval>, observedAt: Option<Time>, complete: bool)

  const NO_COVERAGE := CoverageRow(None, None, false)

  /** The coverage of a connector by class of objects; a class without a row is not covered. */
  type CoverageRows = map<string, CoverageRow>

  function RowOf(rows: CoverageRows, kind: string): CoverageRow { if kind in rows then rows[kind] else NO_COVERAGE }

  function Incomplete(row: CoverageRow): CoverageRow { row.(complete := false) }

  function AllIncomplete(rows: CoverageRows): CoverageRows { map kind | kind in rows :: Incomplete(rows[kind]) }

  predicate Within(t: Time, i: Interval) { i.from <= t <= i.through }

  /** The test made before coverage is extended: the window does not start after what is covered. */
  predicate Contiguous(covered: Option<Interval>, window: Interval) {
    covered.None? || window.from <= covered.value.through
  }

  /** The smallest interval around both. */
  function Hull(covered: Option<Interval>, window: Interval): (r: Interval)
    ensures r.from <= window.from && window.through <= r.through
    ensures covered.Some? ==> r.from <= covered.value.from && covered.value.through <= r.through
  {
    match covered
    case None => window
    case Some(c) => Interval(if window.from < c.from then window.from else c.from,
      if window.through > c.through then window.through else c.through)
  }

  ghost predicate InAny(t: Time, windows: seq<Interval>) { exists i :: 0 <= i < |windows| && Within(t, windows[i]) }

  ghost predicate IsUnion(covered: Option<Interval>, windows: seq<Interval>) {
    match covered
    case None => windows == []
    case Some(c) => c.from <= c.through && forall t: Time :: Within(t, c) <==> InAny(t, windows)
  }

  lemma InAnyAppend(t: Time, windows: seq<Interval>, window: Interval)
    ensures InAny(t, windows + [window]) <==> InAny(t, windows) || Within(t, window)
  {
    var all := windows + [window];
    if Within(t, window) { assert all[|windows|] == window; }
    if InAny(t, windows) {
      var i :| 0 <= i < |windows| && Within(t, windows[i]);
      assert all[i] == windows[i];
    }
  }

  /** What the test leaves out: the window does not end before the tick in front of what is covered. */
  predicate ReachesBack(covered: Option<Interval>, window: Interval) {
    covered.None? || covered.value.from - 1 <= window.through
  }

  /**
   The test is one-sided. After it passes, the extended interval is exactly the union of the windows if and only if
   the window also reaches back to what was covered.
   */
  lemma ExtensionIsUnionIff(covered: Option<Interval>, windows: seq<Interval>, window: Interval)
    requires IsUnion(covered, windows) && window.from <= window.through && Contiguous(covered, window)
    ensures IsUnion(Some(Hull(covered, window)), windows + [window])
      <==> ReachesBack(covered, window)
  {
    forall t: Time ensures InAny(t, windows + [window]) <==> InAny(t, windows) || Within(t, window) {
      InAnyAppend(t, windows, window);
    }
    if covered.Some? && window.through < covered.value.from - 1 {
      var gap := covered.value.from - 1;
      assert Within(gap, Hull(covered, window)) && !InAny(gap, windows + [window]);
    }
  }

  // ----- coverage after several windows -----

  function HullOf(windows: seq<Interval>): Option<Interval> {
    if windows == [] then None else Some(Hull(HullOf(windows[..|windows| - 1]), windows[|windows| - 1]))
  }
}
