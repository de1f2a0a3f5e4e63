/**
 * Timestamp arithmetic over resolved dates: day differences, the earliest and
 * latest dated procedure from a code set, and procedure timing windows relative to a
 * reference date.
 */
module Dates {
  import opened Wrappers
  import opened CodeSets
  import opened Encounter

  const MinutesPerDay: int := 1440

  /**
   * `(to - from).days`: whole days, rounded toward minus infinity (Dafny's `/`
   * with a positive divisor floors, as a time difference's day count does).
   */
  function DaysBetween(from: Option<int>, to: Option<int>): (d: Option<int>)
    ensures d.None? <==> (from.None? || to.None?)
    ensures d.Some? ==> d.value * MinutesPerDay <= to.value - from.value < (d.value + 1) * MinutesPerDay
  {
    if from.None? || to.None? then None else Some((to.value - from.value) / MinutesPerDay)
  }

  /** The calendar date of a timestamp, as a day number. */
  function CalendarDay(t: int): int
  {
    t / MinutesPerDay
  }

  /** A procedure whose code is in `codes` and whose date resolved. */
  predicate DatedIn(p: ProcEntry, codes: set<string>)
  {
    p.code in codes && p.date.Some?
  }

  /** The running minimum the earliest-date scan keeps after visiting `ps` in order. */
  function EarliestMatch(ps: seq<ProcEntry>, codes: set<string>): Option<int>
    decreases |ps|
  {
    if ps == [] then None
    else
      var prev := EarliestMatch(ps[..|ps| - 1], codes);
      var p := ps[|ps| - 1];
      if DatedIn(p, codes) && (prev.None? || p.date.value < prev.value) then p.date else prev
  }

  /** The running maximum the latest-date scan keeps after visiting `ps` in order. */
  function LatestMatch(ps: seq<ProcEntry>, codes: set<string>): Option<int>
    decreases |ps|
  {
    if ps == [] then None
    else
      var prev := LatestMatch(ps[..|ps| - 1], codes);
      var p := ps[|ps| - 1];
      if DatedIn(p, codes) && (prev.None? || p.date.value > prev.value) then p.date else prev
  }

  /**
   * The earliest-date scan yields the minimum resolved date among the matching
   * procedures, and nothing exactly when no matching procedure has a resolved date.
   */
  lemma {:induction false} EarliestMatchIsMinimum(ps: seq<ProcEntry>, codes: set<string>)
    ensures EarliestMatch(ps, codes).None? <==> forall k :: 0 <= k < |ps| ==> !DatedIn(ps[k], codes)
    ensures EarliestMatch(ps, codes).Some? ==>
              (exists k :: 0 <= k < |ps| && DatedIn(ps[k], codes) && ps[k].date == EarliestMatch(ps, codes)) &&
              (forall k :: 0 <= k < |ps| && DatedIn(ps[k], codes) ==> EarliestMatch(ps, codes).value <= ps[k].date.value)
    decreases |ps|
  {
    if ps != [] {
      var init := ps[..|ps| - 1];
      EarliestMatchIsMinimum(init, codes);
      assert forall k :: 0 <= k < |init| ==> init[k] == ps[k];
      if EarliestMatch(ps, codes) != EarliestMatch(init, codes) {
        assert ps[|ps| - 1].date == EarliestMatch(ps, codes);
      } else if EarliestMatch(init, codes).Some? {
        var k :| 0 <= k < |init| && DatedIn(init[k], codes) && init[k].date == EarliestMatch(init, codes);
        assert ps[k].date == EarliestMatch(ps, codes);
      }
    }
  }

  /**
   * The latest-date scan yields the maximum resolved date among the matching
   * procedures, and nothing exactly when no matching procedure has a resolved date.
   */
  lemma {:induction false} LatestMatchIsMaximum(ps: seq<ProcEntry>, codes: set<string>)
    ensures LatestMatch(ps, codes).None? <==> forall k :: 0 <= k < |ps| ==> !DatedIn(ps[k], codes)
    ensures LatestMatch(ps, codes).Some? ==>
              (exists k :: 0 <= k < |ps| && DatedIn(ps[k], codes) && ps[k].date == LatestMatch(ps, codes)) &&
              (forall k :: 0 <= k < |ps| && DatedIn(ps[k], codes) ==> ps[k].date.value <= LatestMatch(ps, codes).value)
    decreases |ps|
  {
    if ps != [] {
      var init := ps[..|ps| - 1];
      LatestMatchIsMaximum(init, codes);
      assert forall k :: 0 <= k < |init| ==> init[k] == ps[k];
      if LatestMatch(ps, codes) != LatestMatch(init, codes) {
        assert ps[|ps| - 1].date == LatestMatch(ps, codes);
      } else if LatestMatch(init, codes).Some? {
        var k :| 0 <= k < |init| && DatedIn(init[k], codes) && init[k].date == LatestMatch(init, codes);
        assert ps[k].date == LatestMatch(ps, codes);
      }
    }
  }

  /** The earliest date of a procedure from the named set; unresolvable when the set is unknown or empty. */
  function FirstProcedureDate(cs: Registry, ps: seq<ProcEntry>, name: string): Option<int>
  {
    var target := Lookup(cs, name);
    if target == {} then None else EarliestMatch(ps, target)
  }

  /** The latest date of a procedure from the named set; unresolvable when the set is unknown or empty. */
  function LatestProcedureDate(cs: Registry, ps: seq<ProcEntry>, name: string): Option<int>
  {
    var target := Lookup(cs, name);
    if target == {} then None else LatestMatch(ps, target)
  }

  /**
   * The first date from a named set is the earliest resolved date among its
   * procedures; it is unresolvable exactly when the set is unknown or empty or no
   * procedure from it has a resolved date.
   */
  lemma FirstProcedureDateCharacterized(cs: Registry, ps: seq<ProcEntry>, name: string)
    ensures FirstProcedureDate(cs, ps, name).None? <==>
              Lookup(cs, name) == {} || forall k :: 0 <= k < |ps| ==> !DatedIn(ps[k], Lookup(cs, name))
    ensures FirstProcedureDate(cs, ps, name).Some? ==>
              (exists k :: 0 <= k < |ps| && DatedIn(ps[k], Lookup(cs, name)) && ps[k].date == FirstProcedureDate(cs, ps, name)) &&
              (forall k :: 0 <= k < |ps| && DatedIn(ps[k], Lookup(cs, name)) ==>
                 FirstProcedureDate(cs, ps, name).value <= ps[k].date.value)
  {
    EarliestMatchIsMinimum(ps, Lookup(cs, name));
  }

  /** The latest date from a named set is the maximum, unresolvable under the same conditions. */
  lemma LatestProcedureDateCharacterized(cs: Registry, ps: seq<ProcEntry>, name: string)
    ensures LatestProcedureDate(cs, ps, name).None? <==>
              Lookup(cs, name) == {} || forall k :: 0 <= k < |ps| ==> !DatedIn(ps[k], Lookup(cs, name))
    ensures LatestProcedureDate(cs, ps, name).Some? ==>
              (exists k :: 0 <= k < |ps| && DatedIn(ps[k], Lookup(cs, name)) && ps[k].date == LatestProcedureDate(cs, ps, name)) &&
              (forall k :: 0 <= k < |ps| && DatedIn(ps[k], Lookup(cs, name)) ==>
                 ps[k].date.value <= LatestProcedureDate(cs, ps, name).value)
  {
    LatestMatchIsMaximum(ps, Lookup(cs, name));
  }

  /** Bounds on a day offset; a missing bound does not constrain. */
  datatype Window = Window(minDays: Option<int>, maxDays: Option<int>, inclusiveMin: bool, inclusiveMax: bool)

  predicate WithinWindow(d: int, w: Window)
  {
    && (w.minDays.None? || (if w.inclusiveMin then d >= w.minDays.value else d > w.minDays.value))
    && (w.maxDays.None? || (if w.inclusiveMax then d <= w.maxDays.value else d < w.maxDays.value))
  }

  /** `min_days=lo` with `inclusive_min`, no upper bound. */
  function AtLeast(lo: int, inclusive: bool): Window
  {
    Window(Some(lo), None, inclusive, true)
  }

  /** `max_days=hi` with `inclusive_max`, no lower bound. */
  function AtMost(hi: int, inclusive: bool): Window
  {
    Window(None, Some(hi), true, inclusive)
  }

  /**
   * Whether some procedure from the named set has a resolved date whose day offset
   * from the reference date lies in the window; never when the reference date is
   * unresolvable or the set is unknown or empty.
   */
  predicate ProcedureInWindow(cs: Registry, ps: seq<ProcEntry>, ref: Option<int>, name: string, w: Window)
  {
    && ref.Some?
    && Lookup(cs, name) != {}
    && exists k :: 0 <= k < |ps| && DatedIn(ps[k], Lookup(cs, name)) &&
                   WithinWindow((ps[k].date.value - ref.value) / MinutesPerDay, w)
  }
}
