/** What every run of nested phases and bounded scopes keeps, and where the work bound escapes a phase. */
module DeadlineTheorems {
  import opened Prelude
  import opened Deadlines

  // ----- Open scopes ----------------------------------------------------------------------------------------

  /**
   * A scope's bound is within what was asked for.  A phase takes the least of all bounds
   * in force; a bounded scope is cut by the enclosing bounded scopes only.
   */
  predicate Nested(scopes: seq<Scope>) {
    && (forall i :: 0 <= i < |scopes| ==> scopes[i].bound <= scopes[i].end)
    && (forall i, j :: 0 <= i < j < |scopes| && (scopes[j].phase || !scopes[i].phase) ==> scopes[j].bound <= scopes[i].bound)
  }

  /** The timer stays within the scope, and the work bound too if the scope is a bounded one. */
  predicate Respects(b: Bounds, phases: seq<Entry>, scope: Scope) {
    TimerEnd(b, phases) <= scope.bound && (!scope.phase ==> EffectiveEnd(b) <= scope.bound)
  }

  /** A timer that was set since the bounds last changed is disarmed or set to the least bound in force. */
  predicate AlarmRight(b: Bounds, phases: seq<Entry>, alarm: Option<real>, synced: Option<real>) {
    synced.Some? ==> alarm == AlarmAt(b, phases, synced.value)
  }

  /** What holds at every instant of a run. */
  predicate Sound(m: Moment) {
    && Nested(m.scopes) && (forall i :: 0 <= i < |m.scopes| ==> Respects(m.bounds, m.phases, m.scopes[i]))
    && AlarmRight(m.bounds, m.phases, m.alarm, m.synced)
  }

  /** What an open scope relies on: its stack entry, or the local bound. */
  predicate Held(b: Bounds, phases: seq<Entry>, scope: Scope) {
    if scope.phase then exists i :: 0 <= i < |phases| && phases[i].bound <= scope.bound
    else LocalEnd(b) <= scope.bound
  }

  predicate AllHeld(b: Bounds, phases: seq<Entry>, scopes: seq<Scope>) {
    forall i :: 0 <= i < |scopes| ==> Held(b, phases, scopes[i])
  }

  lemma HeldRespects(b: Bounds, phases: seq<Entry>, scope: Scope)
    requires Held(b, phases, scope)
    ensures Respects(b, phases, scope)
  {
    TimerEndLeast(b, phases);
    TimerWithinEffective(b, phases);
    if scope.phase {
      var i :| 0 <= i < |phases| && phases[i].bound <= scope.bound;
      assert IsBound(phases[i].bound, b, phases);
    }
  }

  /** Adding stack entries, or changing other bounds, keeps every open scope's hold. */
  lemma HeldKept(b: Bounds, c: Bounds, before: seq<Entry>, after: seq<Entry>, scopes: seq<Scope>)
    requires AllHeld(b, before, scopes) && before <= after && LocalEnd(c) <= LocalEnd(b)
    ensures AllHeld(c, after, scopes)
  {
    forall i | 0 <= i < |scopes| ensures Held(c, after, scopes[i]) {
      assert Held(b, before, scopes[i]);
      if scopes[i].phase {
        var k :| 0 <= k < |before| && before[k].bound <= scopes[i].bound;
        assert after[k] == before[k];
      }
    }
  }

  lemma PhaseNests(b: Bounds, phases: seq<Entry>, scopes: seq<Scope>, end: real)
    requires Nested(scopes) && AllHeld(b, phases, scopes)
    ensures Nested(scopes + [Scope(true, end, Least(end, TimerEnd(b, phases)))])
  {
    forall i | 0 <= i < |scopes| ensures TimerEnd(b, phases) <= scopes[i].bound {
      HeldRespects(b, phases, scopes[i]);
    }
  }

  lemma PhaseHeld(b: Bounds, phases: seq<Entry>, scopes: seq<Scope>, entry: Entry, end: real)
    requires AllHeld(b, phases, scopes)
    ensures AllHeld(b, phases + [entry], scopes + [Scope(true, end, entry.bound)])
  {
    var pushed, inner := phases + [entry], scopes + [Scope(true, end, entry.bound)];
    HeldKept(b, b, phases, pushed, scopes);
    forall i | 0 <= i < |inner| ensures Held(b, pushed, inner[i]) {
      if i < |scopes| {
        assert inner[i] == scopes[i];
      } else {
        assert pushed[|phases|].bound <= inner[i].bound;
      }
    }
  }

  lemma BoundedNests(b: Bounds, phases: seq<Entry>, scopes: seq<Scope>, end: real)
    requires Nested(scopes) && AllHeld(b, phases, scopes)
    ensures var bound := Least(LocalEnd(b), end);
            var inner := scopes + [Scope(false, end, bound)];
            Nested(inner) && AllHeld(b.(local := Some(bound)), phases, inner)
  {
    var bound := Least(LocalEnd(b), end);
    var inner := scopes + [Scope(false, end, bound)];
    forall i | 0 <= i < |scopes| && !scopes[i].phase ensures LocalEnd(b) <= scopes[i].bound {
      assert Held(b, phases, scopes[i]);
    }
    HeldKept(b, b.(local := Some(bound)), phases, phases, scopes);
    forall i | 0 <= i < |inner| ensures Held(b.(local := Some(bound)), phases, inner[i]) {
      if i < |scopes| { assert inner[i] == scopes[i]; }
    }
  }

  // ----- What every run keeps ---------------------------------------------------------------------------------

  /** The state every piece of work starts from and returns to, inside the given open scopes. */
  predicate Valid(s: State, scopes: seq<Scope>) {
    (AlarmRight(s.bounds, s.phases, s.alarm, s.synced) && Nested(scopes) && AllHeld(s.bounds, s.phases, scopes)) == true
  }

  /** The trace grew by sound moments only. */
  predicate Extends(before: seq<Moment>, after: seq<Moment>) {
    before <= after && forall i :: |before| <= i < |after| ==> Sound(after[i])
  }

  /** What any piece of work leaves in place for its surroundings. */
  predicate Kept(s: State, t: State) {
    (&& s.phases <= t.phases && LocalEnd(t.bounds) == LocalEnd(s.bounds) && t.bounds.deadline == s.bounds.deadline
     && s.reports <= t.reports && (s.primary.Some? ==> t.primary == s.primary) && Extends(s.trace, t.trace)) == true
  }

  lemma KeptThrough(s: State, t: State, u: State)
    requires Kept(s, t) && Kept(t, u)
    ensures Kept(s, u)
  {
    forall i | |s.trace| <= i < |u.trace| ensures Sound(u.trace[i]) {
      if i < |t.trace| { assert u.trace[i] == t.trace[i]; }
    }
  }

  lemma NoteKeeps(s: State, scopes: seq<Scope>)
    requires Valid(s, scopes)
    ensures Valid(Note(s, scopes), scopes) && Kept(s, Note(s, scopes))
  {
    forall i | 0 <= i < |scopes| ensures Respects(s.bounds, s.phases, scopes[i]) {
      HeldRespects(s.bounds, s.phases, scopes[i]);
    }
  }

  lemma SyncKeeps(s: State, scopes: seq<Scope>, w: Setting)
    requires Valid(s, scopes)
    ensures Valid(Sync(s, w).0, scopes) && Kept(s, Sync(s, w).0)
    ensures w.main && Sync(s, w).1.None? ==> Sync(s, w).0.synced.Some?
  {
  }

  lemma RecordedKeeps(s: State, stage: string, error: Option<Error>, scopes: seq<Scope>)
    requires Valid(s, scopes)
    ensures Valid(Recorded(s, stage, error), scopes) && Kept(s, Recorded(s, stage, error))
  {
  }

  lemma RestoreKeeps(s: State, error: Option<Error>, scopes: seq<Scope>, w: Setting)
    requires Valid(s, scopes)
    ensures Valid(Restore(s, error, w).0, scopes) && Kept(s, Restore(s, error, w).0)
    ensures Restore(s, error, w).0.phases == s.phases && Restore(s, error, w).0.bounds == s.bounds
  {
    SyncKeeps(s, scopes, w);
    var timed := Sync(s, w);
    RecordedKeeps(timed.0, "timer-restore", timed.1, scopes);
    KeptThrough(s, timed.0, Recorded(timed.0, "timer-restore", timed.1));
  }

  /**
   * Whatever a program does, at every instant of the run the timer stays within every open
   * scope, the work bound within every open bounded scope, and a timer just set is right;
   * stack entries, local bound, reports and primary error of the surroundings survive.
   */
  lemma {:induction false} ExecKeeps(p: Program, s: State, scopes: seq<Scope>, w: Setting)
    requires Valid(s, scopes)
    ensures Valid(Exec(p, s, scopes, w).0, scopes) && Kept(s, Exec(p, s, scopes, w).0)
    decreases p, 9
  {
    NoteKeeps(s, scopes);
    var noted := Note(s, scopes);
    PerformKeeps(p, noted, scopes, w);
    var r := Perform(p, noted, scopes, w);
    KeptThrough(s, noted, r.0);
    NoteKeeps(r.0, scopes);
    KeptThrough(s, r.0, Note(r.0, scopes));
  }

  lemma {:induction false} PerformKeeps(p: Program, s: State, scopes: seq<Scope>, w: Setting)
    requires Valid(s, scopes)
    ensures Valid(Perform(p, s, scopes, w).0, scopes) && Kept(s, Perform(p, s, scopes, w).0)
    decreases p, 8
  {
    match p
    case Then(first, second) => SequenceKeeps(p, first, second, s, scopes, w);
    case Try(body, handler) => SequenceKeeps(p, body, handler, s, scopes, w);
    case Resync => SyncKeeps(s, scopes, w);
    case InPhase(end, native, body) => PhaseKeeps(end, native, body, s, scopes, w);
    case InBounded(end, body) => BoundedKeeps(end, body, s, scopes, w);
    case SetCase(end) => HeldKept(s.bounds, s.bounds.(caseEnd := end), s.phases, s.phases, scopes);
    case SetObservation(end) => HeldKept(s.bounds, s.bounds.(observation := end), s.phases, s.phases, scopes);
    case Leak(entry) => HeldKept(s.bounds, s.bounds, s.phases, s.phases + [entry], scopes);
    case _ =>
  }

  lemma {:induction false} SequenceKeeps(p: Program, a: Program, b: Program, s: State, scopes: seq<Scope>, w: Setting)
    requires Valid(s, scopes) && (p == Then(a, b) || p == Try(a, b))
    ensures var r := Exec(a, s, scopes, w); Valid(r.0, scopes) && Kept(s, r.0)
    ensures var r := Exec(a, s, scopes, w);
            Valid(Exec(b, r.0, scopes, w).0, scopes) && Kept(s, Exec(b, r.0, scopes, w).0)
    decreases p, 7
  {
    ExecKeeps(a, s, scopes, w);
    var r := Exec(a, s, scopes, w);
    ExecKeeps(b, r.0, scopes, w);
    KeptThrough(s, r.0, Exec(b, r.0, scopes, w).0);
  }

  /** phase() leaves the stack exactly as it was, on every exit and whatever entries were leaked. */
  lemma {:induction false} PhaseKeeps(end: real, native: bool, body: Program, s: State, scopes: seq<Scope>, w: Setting)
    requires Valid(s, scopes)
    ensures var t := Phase(end, native, body, s, scopes, w).0; Valid(t, scopes) && Kept(s, t) && t.phases == s.phases
    decreases body, 11
  {
    if Enters(s, end, w) {
      var pushed, inner := Pushed(s, end, native), scopes + [Scope(true, end, PhaseBound(s, end))];
      PhaseNests(s.bounds, s.phases, scopes, end);
      PhaseHeld(s.bounds, s.phases, scopes, pushed.phases[|s.phases|], end);
      InsidePhaseKeeps(PhaseBound(s, end), body, pushed, inner, w);
      var r := InsidePhase(PhaseBound(s, end), body, pushed, inner, w);
      LeavePhaseKeeps(s, pushed, r.0, r.1, scopes, w);
    }
  }

  lemma LeavePhaseKeeps(s: State, pushed: State, t: State, error: Option<Error>, scopes: seq<Scope>, w: Setting)
    requires Valid(s, scopes) && s.phases <= pushed.phases && pushed.bounds == s.bounds && pushed.trace == s.trace
    requires pushed.reports == s.reports && pushed.primary == s.primary && Kept(pushed, t)
    ensures var u := LeavePhase(t, error, |s.phases|, w).0; Valid(u, scopes) && Kept(s, u) && u.phases == s.phases
  {
    var caught := Recorded(t, "phase", error);
    assert t.phases[..|s.phases|] == s.phases;
    var cut := caught.(phases := Cut(caught.phases, |s.phases|), synced := None);
    HeldKept(s.bounds, cut.bounds, s.phases, cut.phases, scopes);
    assert Valid(cut, scopes) && Kept(s, cut);
    RestoreKeeps(cut, error, scopes, w);
    KeptThrough(s, cut, Restore(cut, error, w).0);
  }

  lemma {:induction false} InsidePhaseKeeps(bound: real, body: Program, s: State, scopes: seq<Scope>, w: Setting)
    requires Valid(s, scopes)
    ensures var t := InsidePhase(bound, body, s, scopes, w).0; Valid(t, scopes) && Kept(s, t)
    decreases body, 10
  {
    SyncKeeps(s, scopes, w);
    var timed := Sync(s, w);
    if timed.1.None? {
      ExecKeeps(body, timed.0, scopes, w);
      KeptThrough(s, timed.0, Exec(body, timed.0, scopes, w).0);
    }
  }

  /** bounded() leaves the local bound at its value, on every exit. */
  lemma {:induction false} BoundedKeeps(end: real, body: Program, s: State, scopes: seq<Scope>, w: Setting)
    requires Valid(s, scopes)
    ensures var t := Bounded(end, body, s, scopes, w).0;
            Valid(t, scopes) && Kept(s, t) && t.bounds.local == Some(LocalEnd(s.bounds))
    decreases body, 11
  {
    var narrowed, inner := Narrowed(s, end), scopes + [Scope(false, end, Least(LocalEnd(s.bounds), end))];
    BoundedNests(s.bounds, s.phases, scopes, end);
    InsideBoundedKeeps(body, narrowed, inner, w);
    var r := InsideBounded(body, narrowed, inner, w);
    LeaveBoundedKeeps(s, narrowed, r.0, r.1, scopes, w);
  }

  lemma LeaveBoundedKeeps(s: State, narrowed: State, t: State, error: Option<Error>, scopes: seq<Scope>, w: Setting)
    requires Valid(s, scopes) && narrowed.phases == s.phases && narrowed.trace == s.trace && Kept(narrowed, t)
    requires narrowed.bounds.deadline == s.bounds.deadline && narrowed.reports == s.reports && narrowed.primary == s.primary
    ensures var u := LeaveBounded(t, error, LocalEnd(s.bounds), w).0;
            Valid(u, scopes) && Kept(s, u) && u.bounds.local == Some(LocalEnd(s.bounds))
  {
    var caught := Recorded(t, "bounded", error);
    var back := caught.(bounds := caught.bounds.(local := Some(LocalEnd(s.bounds))), synced := None);
    HeldKept(s.bounds, back.bounds, s.phases, back.phases, scopes);
    assert Valid(back, scopes) && Kept(s, back);
    RestoreKeeps(back, error, scopes, w);
    KeptThrough(s, back, Restore(back, error, w).0);
  }

  lemma {:induction false} InsideBoundedKeeps(body: Program, s: State, scopes: seq<Scope>, w: Setting)
    requires Valid(s, scopes)
    ensures var t := InsideBounded(body, s, scopes, w).0; Valid(t, scopes) && Kept(s, t)
    decreases body, 10
  {
    var first := Remaining(s, w).0;
    assert Valid(first, scopes) && Kept(s, first);
    SyncKeeps(first, scopes, w);
    var timed := Sync(first, w);
    KeptThrough(s, first, timed.0);
    if timed.1.None? {
      ExecKeeps(body, timed.0, scopes, w);
      var r := Exec(body, timed.0, scopes, w);
      KeptThrough(s, timed.0, r.0);
      assert Kept(r.0, Remaining(r.0, w).0) && Valid(Remaining(r.0, w).0, scopes);
      KeptThrough(s, r.0, Remaining(r.0, w).0);
    }
  }

  // ----- Errors and the timer on the way out ------------------------------------------------------------------

  /** The reports since the given point include this error. */
  predicate Reported(reports: seq<Report>, since: nat, error: Error) {
    exists i :: since <= i < |reports| && reports[i].error == error
  }

  /** The body of a phase that was entered and whose timer was set. */
  function BodyRun(end: real, native: bool, body: Program, s: State, scopes: seq<Scope>, w: Setting): (State, Option<Error>) {
    Exec(body, Sync(Pushed(s, end, native), w).0, scopes + [Scope(true, end, PhaseBound(s, end))], w)
  }

  lemma RestoreSurfaces(s: State, error: Option<Error>, w: Setting)
    ensures var r := Restore(s, error, w);
            && (error.Some? ==> r.1 == error) && (error.None? && r.1.Some? ==> r.1 == Sync(s, w).1 && r.0.primary.Some?)
            && (error.None? && r.1.Some? ==> Reported(r.0.reports, |s.reports|, r.1.value))
            && s.reports <= r.0.reports && (s.primary.Some? ==> r.0.primary == s.primary)
            && (w.main && r.1.None? ==> r.0.synced.Some?)
  {
    var r, timed := Restore(s, error, w), Sync(s, w);
    if error.None? && r.1.Some? { assert r.0.reports[|s.reports|].error == r.1.value; }
  }

  lemma RecordedReports(s: State, stage: string, error: Error, t: State, from: nat)
    requires Recorded(s, stage, Some(error)).reports <= t.reports && from <= |s.reports|
    ensures Reported(t.reports, from, error)
  {
    assert t.reports[|s.reports|] == Recorded(s, stage, Some(error)).reports[|s.reports|];
  }

  /** Leaving a phase: an error from inside is the one that surfaces, and what surfaces is reported. */
  lemma LeavePhaseSurfaces(s: State, error: Option<Error>, depth: nat, w: Setting)
    ensures var r := LeavePhase(s, error, depth, w);
            && (error.Some? ==> r.1 == error) && (r.1.Some? ==> r.0.primary.Some? && Reported(r.0.reports, |s.reports|, r.1.value))
            && (w.main && r.1.None? ==> r.0.synced.Some?)
  {
    var caught := Recorded(s, "phase", error);
    var cut := caught.(phases := Cut(caught.phases, depth), synced := None);
    RestoreSurfaces(cut, error, w);
    if error.Some? { RecordedReports(s, "phase", error.value, Restore(cut, error, w).0, |s.reports|); }
  }

  /**
   * A phase that is not entered changes nothing but the clock.  In one that is, the
   * body's own error surfaces; without one, an overrun, a failure to set the timer or one
   * to restore it does, and is reported; a normal exit leaves the timer set.
   */
  lemma PhaseSurfaces(end: real, native: bool, body: Program, s: State, scopes: seq<Scope>, w: Setting)
    requires Valid(s, scopes)
    ensures var r, started := Phase(end, native, body, s, scopes, w), Sync(Pushed(s, end, native), w);
            if !Enters(s, end, w) then r.0 == Next(s) && r.1.Some?
            else && (started.1.Some? ==> r.1 == started.1)
                 && (started.1.None? && BodyRun(end, native, body, s, scopes, w).1.Some? ==>
                       r.1 == BodyRun(end, native, body, s, scopes, w).1)
                 && (r.1.Some? ==> r.0.primary.Some? && Reported(r.0.reports, |s.reports|, r.1.value))
                 && (r.1.None? ==> r.0.synced.Some?)
  {
    if Enters(s, end, w) {
      var pushed, inner := Pushed(s, end, native), scopes + [Scope(true, end, PhaseBound(s, end))];
      PhaseNests(s.bounds, s.phases, scopes, end);
      PhaseHeld(s.bounds, s.phases, scopes, pushed.phases[|s.phases|], end);
      InsidePhaseKeeps(PhaseBound(s, end), body, pushed, inner, w);
      var r := InsidePhase(PhaseBound(s, end), body, pushed, inner, w);
      LeavePhaseSurfaces(r.0, r.1, |s.phases|, w);
      ReportedEarlier(LeavePhase(r.0, r.1, |s.phases|, w), |s.reports|, |r.0.reports|);
    }
  }

  lemma ReportedEarlier(r: (State, Option<Error>), from: nat, since: nat)
    requires from <= since && (r.1.Some? ==> Reported(r.0.reports, since, r.1.value))
    ensures r.1.Some? ==> Reported(r.0.reports, from, r.1.value)
  {
  }

  /** The body of a bounded scope that passed its first checks. */
  function BoundedRun(end: real, body: Program, s: State, scopes: seq<Scope>, w: Setting): (State, Option<Error>) {
    Exec(body, Sync(Remaining(Narrowed(s, end), w).0, w).0, scopes + [Scope(false, end, Least(LocalEnd(s.bounds), end))], w)
  }

  lemma LeaveBoundedSurfaces(s: State, error: Option<Error>, previous: real, w: Setting)
    ensures var r := LeaveBounded(s, error, previous, w);
            && (error.Some? ==> r.1 == error) && (r.1.Some? ==> r.0.primary.Some? && Reported(r.0.reports, |s.reports|, r.1.value))
            && (w.main && r.1.None? ==> r.0.synced.Some?)
  {
    var caught := Recorded(s, "bounded", error);
    var back := caught.(bounds := caught.bounds.(local := Some(previous)), synced := None);
    RestoreSurfaces(back, error, w);
    if error.Some? { RecordedReports(s, "bounded", error.value, Restore(back, error, w).0, |s.reports|); }
  }

  /** The same for bounded(), which has no refusal without a trace. */
  lemma BoundedSurfaces(end: real, body: Program, s: State, scopes: seq<Scope>, w: Setting)
    requires Valid(s, scopes)
    ensures var r, first := Bounded(end, body, s, scopes, w), Remaining(Narrowed(s, end), w);
            var started := Sync(first.0, w);
            && (first.1.Some? ==> r.1 == first.1) && (first.1.None? && started.1.Some? ==> r.1 == started.1)
            && (first.1.None? && started.1.None? && BoundedRun(end, body, s, scopes, w).1.Some? ==>
                  r.1 == BoundedRun(end, body, s, scopes, w).1)
            && (r.1.Some? ==> r.0.primary.Some? && Reported(r.0.reports, |s.reports|, r.1.value))
            && (w.main && r.1.None? ==> r.0.synced.Some?)
  {
    var narrowed, inner := Narrowed(s, end), scopes + [Scope(false, end, Least(LocalEnd(s.bounds), end))];
    BoundedNests(s.bounds, s.phases, scopes, end);
    InsideBoundedKeeps(body, narrowed, inner, w);
    var r := InsideBounded(body, narrowed, inner, w);
    LeaveBoundedSurfaces(r.0, r.1, LocalEnd(s.bounds), w);
    ReportedEarlier(LeaveBounded(r.0, r.1, LocalEnd(s.bounds), w), |s.reports|, |r.0.reports|);
  }

  // ----- The moment a body begins ----------------------------------------------------------------------------

  lemma {:induction false} ExecNotes(p: Program, s: State, scopes: seq<Scope>, w: Setting)
    requires Valid(s, scopes)
    ensures var t := Exec(p, s, scopes, w).0;
            |t.trace| > |s.trace| && t.trace[|s.trace|] == Moment(s.bounds, s.phases, s.alarm, s.synced, scopes)
  {
    NoteKeeps(s, scopes);
    PerformKeeps(p, Note(s, scopes), scopes, w);
  }

  /** Leaving a scope adds nothing to the trace, and changes no bound but the one it restores. */
  lemma LeavePhaseSame(s: State, error: Option<Error>, depth: nat, w: Setting)
    ensures LeavePhase(s, error, depth, w).0.trace == s.trace && LeavePhase(s, error, depth, w).0.bounds == s.bounds
  {
  }

  lemma LeaveBoundedSame(s: State, error: Option<Error>, previous: real, w: Setting)
    ensures var t := LeaveBounded(s, error, previous, w).0;
            t.trace == s.trace && t.bounds == s.bounds.(local := Some(previous))
  {
  }

  /** A phase that was entered and whose timer was set adds exactly the moments of its body. */
  lemma PhaseTrace(end: real, native: bool, body: Program, s: State, scopes: seq<Scope>, w: Setting)
    requires Enters(s, end, w) && w.fault(s.point + 1).None?
    ensures var t, run := Phase(end, native, body, s, scopes, w).0, BodyRun(end, native, body, s, scopes, w).0;
            t.trace == run.trace && t.bounds == run.bounds
  {
    var r := InsidePhase(PhaseBound(s, end), body, Pushed(s, end, native), scopes + [Scope(true, end, PhaseBound(s, end))], w);
    LeavePhaseSame(r.0, r.1, |s.phases|, w);
  }

  /** A phase enters its body with the timer just set for its own bound and every other. */
  lemma PhaseEntry(end: real, native: bool, body: Program, s: State, scopes: seq<Scope>, w: Setting)
    requires Valid(s, scopes) && Enters(s, end, w) && w.fault(s.point + 1).None?
    ensures var t, pushed, now := Phase(end, native, body, s, scopes, w).0, Pushed(s, end, native), w.clock(s.point + 1);
            && |t.trace| > |s.trace|
            && t.trace[|s.trace|] == Moment(s.bounds, pushed.phases, AlarmAt(s.bounds, pushed.phases, now), Some(now),
                                            scopes + [Scope(true, end, PhaseBound(s, end))])
  {
    var pushed, inner := Pushed(s, end, native), scopes + [Scope(true, end, PhaseBound(s, end))];
    PhaseNests(s.bounds, s.phases, scopes, end);
    PhaseHeld(s.bounds, s.phases, scopes, pushed.phases[|s.phases|], end);
    SyncKeeps(pushed, inner, w);
    ExecNotes(body, Sync(pushed, w).0, inner, w);
    PhaseTrace(end, native, body, s, scopes, w);
  }

  /** The checks of a bounded scope pass and its timer is set. */
  predicate Passes(s: State, end: real, w: Setting) {
    && w.main && w.fault(s.point).None? && w.fault(s.point + 1).None?
    && EffectiveEnd(Narrowed(s, end).bounds) > w.clock(s.point)
  }

  lemma BoundedTrace(end: real, body: Program, s: State, scopes: seq<Scope>, w: Setting)
    requires Passes(s, end, w)
    ensures Bounded(end, body, s, scopes, w).0.trace == BoundedRun(end, body, s, scopes, w).0.trace
  {
    var narrowed, inner := Narrowed(s, end), scopes + [Scope(false, end, Least(LocalEnd(s.bounds), end))];
    assert Remaining(narrowed, w).1.None? && Sync(Remaining(narrowed, w).0, w).1.None?;
    var r := InsideBounded(body, narrowed, inner, w);
    LeaveBoundedSame(r.0, r.1, LocalEnd(s.bounds), w);
  }

  /** A bounded scope enters its body under its own local bound, with the timer just set. */
  lemma BoundedEntry(end: real, body: Program, s: State, scopes: seq<Scope>, w: Setting)
    requires Valid(s, scopes) && Passes(s, end, w)
    ensures var t, narrowed, now := Bounded(end, body, s, scopes, w).0, Narrowed(s, end), w.clock(s.point + 1);
            && |t.trace| > |s.trace|
            && t.trace[|s.trace|] == Moment(narrowed.bounds, s.phases, AlarmAt(narrowed.bounds, s.phases, now), Some(now),
                                            scopes + [Scope(false, end, Least(LocalEnd(s.bounds), end))])
  {
    var narrowed, inner := Narrowed(s, end), scopes + [Scope(false, end, Least(LocalEnd(s.bounds), end))];
    BoundedNests(s.bounds, s.phases, scopes, end);
    var first := Remaining(narrowed, w).0;
    assert Valid(first, inner);
    SyncKeeps(first, inner, w);
    ExecNotes(body, Sync(first, w).0, inner, w);
    BoundedTrace(end, body, s, scopes, w);
  }

  // ----- The work bound inside a phase -------------------------------------------------------------------------

  /** The work bound is within what the caller asks for and within every phase already on the stack. */
  predicate Covered(s: State, end: real) {
    EffectiveEnd(s.bounds) <= end && forall i :: 0 <= i < |s.phases| ==> EffectiveEnd(s.bounds) <= s.phases[i].bound
  }

  /** On entry the work bound is within the new phase exactly if it is covered. */
  lemma CoveredExactly(s: State, end: real)
    ensures EffectiveEnd(s.bounds) <= PhaseBound(s, end) <==> Covered(s, end)
  {
    TimerCovered(s.bounds, s.phases);
  }

  lemma {:induction false} TimerCovered(b: Bounds, phases: seq<Entry>)
    ensures EffectiveEnd(b) <= TimerEnd(b, phases) <==> forall i :: 0 <= i < |phases| ==> EffectiveEnd(b) <= phases[i].bound
  {
    if phases != [] {
      var last := |phases| - 1;
      TimerCovered(b, phases[..last]);
      TimerWithinEffective(b, phases[..last]);
      assert forall i :: 0 <= i < last ==> phases[..last][i] == phases[i];
    }
  }

  /** The deadline, the local bound or the inherited alarm alone keeps the work bound within the limit. */
  predicate Sheltered(b: Bounds, limit: real) {
    b.deadline <= limit || LocalEnd(b) <= limit || Or(b.inherited, b.deadline) <= limit
  }

  /** A bound may be set to what it was on entry or to an instant within the limit, or freely if sheltered. */
  predicate Capable(b: Bounds, before: Option<real>, after: Option<real>, limit: real) {
    Sheltered(b, limit) || after == before || (after.Some? && after.value <= limit)
  }

  /** Every case and observation bound that the program sets may be set, given the bounds on entry. */
  predicate Capped(p: Program, b: Bounds, limit: real) {
    match p
    case Then(first, second) => Capped(first, b, limit) && Capped(second, b, limit)
    case Try(body, handler) => Capped(body, b, limit) && Capped(handler, b, limit)
    case SetCase(end) => Capable(b, b.caseEnd, end, limit)
    case SetObservation(end) => Capable(b, b.observation, end, limit)
    case InPhase(_, _, body) => Capped(body, b, limit)
    case InBounded(_, body) => Capped(body, b, limit)
    case _ => true
  }

  /** From the first state to the second, the work bound stays within the limit if it was. */
  predicate Tame(b: Bounds, c: Bounds, limit: real) {
    (&& c.deadline == b.deadline && c.inherited == b.inherited && LocalEnd(c) <= LocalEnd(b)
     && Capable(b, b.caseEnd, c.caseEnd, limit) && Capable(b, b.observation, c.observation, limit)) == true
  }

  lemma TameWithin(b: Bounds, c: Bounds, limit: real)
    requires Tame(b, c, limit) && EffectiveEnd(b) <= limit
    ensures EffectiveEnd(c) <= limit
  {
  }

  /** Every moment noted since has tame bounds. */
  predicate AllTame(b: Bounds, trace: seq<Moment>, from: nat, limit: real) {
    forall i :: from <= i < |trace| ==> Tame(b, trace[i].bounds, limit)
  }

  /** The run from s to t noted tame moments only, and ends with tame bounds and the same local bound. */
  predicate Tames(b: Bounds, s: State, t: State, limit: real) {
    (s.trace <= t.trace && AllTame(b, t.trace, |s.trace|, limit) && Tame(b, t.bounds, limit)
     && LocalEnd(t.bounds) == LocalEnd(s.bounds)) == true
  }

  lemma TamesThrough(b: Bounds, s: State, t: State, u: State, limit: real)
    requires Tames(b, s, t, limit) && Tames(b, t, u, limit)
    ensures Tames(b, s, u, limit)
  {
    forall i | |s.trace| <= i < |u.trace| ensures Tame(b, u.trace[i].bounds, limit) {
      if i < |t.trace| { assert u.trace[i] == t.trace[i]; }
    }
  }

  lemma {:induction false} ExecTames(p: Program, b: Bounds, s: State, scopes: seq<Scope>, w: Setting, limit: real)
    requires Capped(p, b, limit) && Tame(b, s.bounds, limit)
    ensures Tames(b, s, Exec(p, s, scopes, w).0, limit)
    decreases p, 9
  {
    var noted := Note(s, scopes);
    PerformTames(p, b, noted, scopes, w, limit);
    var t := Perform(p, noted, scopes, w).0;
    TamesThrough(b, s, noted, t, limit);
    TamesThrough(b, s, t, Note(t, scopes), limit);
  }

  lemma {:induction false} PerformTames(p: Program, b: Bounds, s: State, scopes: seq<Scope>, w: Setting, limit: real)
    requires Capped(p, b, limit) && Tame(b, s.bounds, limit)
    ensures Tames(b, s, Perform(p, s, scopes, w).0, limit)
    decreases p, 8
  {
    match p
    case Then(first, second) => SequenceTames(p, first, second, b, s, scopes, w, limit);
    case Try(body, handler) => SequenceTames(p, body, handler, b, s, scopes, w, limit);
    case InPhase(end, native, body) => PhaseTames(end, native, body, b, s, scopes, w, limit);
    case InBounded(end, body) => BoundedTames(end, body, b, s, scopes, w, limit);
    case _ =>
  }

  lemma {:induction false} PhaseTames(end: real, native: bool, body: Program, b: Bounds, s: State, scopes: seq<Scope>, w: Setting,
                                      limit: real)
    requires Capped(body, b, limit) && Tame(b, s.bounds, limit)
    ensures Tames(b, s, Phase(end, native, body, s, scopes, w).0, limit)
    decreases body, 11
  {
    if Enters(s, end, w) {
      var pushed, inner := Pushed(s, end, native), scopes + [Scope(true, end, PhaseBound(s, end))];
      var timed := Sync(pushed, w);
      ExecTames(body, b, timed.0, inner, w, limit);
      var r := InsidePhase(PhaseBound(s, end), body, pushed, inner, w);
      assert Tames(b, s, r.0, limit);
      LeavePhaseSame(r.0, r.1, |s.phases|, w);
    }
  }

  lemma {:induction false} SequenceTames(p: Program, a: Program, c: Program, b: Bounds, s: State, scopes: seq<Scope>, w: Setting,
                                         limit: real)
    requires Capped(a, b, limit) && Capped(c, b, limit) && Tame(b, s.bounds, limit) && (p == Then(a, c) || p == Try(a, c))
    ensures var r := Exec(a, s, scopes, w); Tames(b, s, r.0, limit) && Tames(b, s, Exec(c, r.0, scopes, w).0, limit)
    decreases p, 7
  {
    ExecTames(a, b, s, scopes, w, limit);
    var r := Exec(a, s, scopes, w);
    ExecTames(c, b, r.0, scopes, w, limit);
    TamesThrough(b, s, r.0, Exec(c, r.0, scopes, w).0, limit);
  }

  lemma {:induction false} BoundedTames(end: real, body: Program, b: Bounds, s: State, scopes: seq<Scope>, w: Setting, limit: real)
    requires Capped(body, b, limit) && Tame(b, s.bounds, limit)
    ensures Tames(b, s, Bounded(end, body, s, scopes, w).0, limit)
    decreases body, 11
  {
    var narrowed, inner := Narrowed(s, end), scopes + [Scope(false, end, Least(LocalEnd(s.bounds), end))];
    InsideBoundedTames(body, b, narrowed, inner, w, limit);
    var r := InsideBounded(body, narrowed, inner, w);
    LeaveBoundedSame(r.0, r.1, LocalEnd(s.bounds), w);
    LocalTames(b, s, narrowed, r.0, Bounded(end, body, s, scopes, w).0, limit);
  }

  lemma {:induction false} InsideBoundedTames(body: Program, b: Bounds, s: State, scopes: seq<Scope>, w: Setting, limit: real)
    requires Capped(body, b, limit) && Tame(b, s.bounds, limit)
    ensures Tames(b, s, InsideBounded(body, s, scopes, w).0, limit)
    decreases body, 10
  {
    var first := Remaining(s, w);
    var timed := Sync(first.0, w);
    ExecTames(body, b, timed.0, scopes, w, limit);
    var r := Exec(body, timed.0, scopes, w);
    assert Tames(b, s, first.0, limit) && Tames(b, first.0, timed.0, limit) && Tames(b, r.0, Remaining(r.0, w).0, limit);
    TamesThrough(b, s, first.0, timed.0, limit);
    TamesThrough(b, s, timed.0, r.0, limit);
    TamesThrough(b, s, r.0, Remaining(r.0, w).0, limit);
  }

  /** Restoring the local bound keeps the bounds tame. */
  lemma LocalTames(b: Bounds, s: State, narrowed: State, inside: State, t: State, limit: real)
    requires Tame(b, s.bounds, limit) && narrowed.trace == s.trace && Tames(b, narrowed, inside, limit)
    requires t.trace == inside.trace && t.bounds == inside.bounds.(local := Some(LocalEnd(s.bounds)))
    ensures Tames(b, s, t, limit)
  {
  }

  /** All moments noted inside have the work bound within the phase. */
  predicate WorkWithin(trace: seq<Moment>, from: nat, bound: real) {
    forall i :: from <= i < |trace| ==> EffectiveEnd(trace[i].bounds) <= bound
  }

  /**
   * Inside a phase, through any nesting of further scopes, and with case and observation
   * bounds set within the phase or back to what they were, the work bound stays within
   * the phase exactly if it was covered on entry.
   */
  lemma PhaseWorkExactly(end: real, native: bool, body: Program, s: State, scopes: seq<Scope>, w: Setting)
    requires Valid(s, scopes) && Enters(s, end, w) && w.fault(s.point + 1).None?
    requires Capped(body, s.bounds, PhaseBound(s, end))
    ensures WorkWithin(Phase(end, native, body, s, scopes, w).0.trace, |s.trace|, PhaseBound(s, end)) <==> Covered(s, end)
  {
    var bound, t := PhaseBound(s, end), Phase(end, native, body, s, scopes, w).0;
    CoveredExactly(s, end);
    PhaseEntry(end, native, body, s, scopes, w);
    if Covered(s, end) {
      PerformTames(InPhase(end, native, body), s.bounds, s, scopes, w, bound);
      forall i | |s.trace| <= i < |t.trace| ensures EffectiveEnd(t.trace[i].bounds) <= bound {
        TameWithin(s.bounds, t.trace[i].bounds, bound);
      }
    } else {
      assert EffectiveEnd(t.trace[|s.trace|].bounds) > bound;
    }
  }

  /** The second moment of a program that is one bounded scope. */
  lemma BoundedBody(later: real, body: Program, s: State, scopes: seq<Scope>, w: Setting)
    requires Valid(Note(s, scopes), scopes) && Passes(s, later, w)
    ensures var t, local := Exec(InBounded(later, body), s, scopes, w).0, Least(LocalEnd(s.bounds), later);
            && |t.trace| > |s.trace| + 1 && t.trace[|s.trace| + 1].bounds == s.bounds.(local := Some(local))
            && t.trace[|s.trace| + 1].scopes == scopes + [Scope(false, later, local)]
  {
    var noted := Note(s, scopes);
    BoundedEntry(later, body, noted, scopes, w);
    assert Perform(InBounded(later, body), noted, scopes, w) == Bounded(later, body, noted, scopes, w);
  }

  /** A bounded scope as the body of a phase gets its bound from the local bound, not from the phase. */
  lemma BoundedInPhase(end: real, native: bool, later: real, body: Program, s: State, scopes: seq<Scope>, w: Setting)
    requires Valid(s, scopes) && Enters(s, end, w) && w.fault(s.point + 1).None?
    requires Passes(Sync(Pushed(s, end, native), w).0, later, w)
    ensures var t := Phase(end, native, InBounded(later, body), s, scopes, w).0;
            var local := Least(LocalEnd(s.bounds), later);
            && |t.trace| > |s.trace| + 1 && t.trace[|s.trace| + 1].bounds == s.bounds.(local := Some(local))
            && t.trace[|s.trace| + 1].scopes == scopes + [Scope(true, end, PhaseBound(s, end)), Scope(false, later, local)]
  {
    var outer := scopes + [Scope(true, end, PhaseBound(s, end))];
    PhaseReady(end, native, s, scopes, w);
    BoundedBody(later, body, Sync(Pushed(s, end, native), w).0, outer, w);
    PhaseTrace(end, native, InBounded(later, body), s, scopes, w);
    var local := Least(LocalEnd(s.bounds), later);
    assert outer + [Scope(false, later, local)] == scopes + [Scope(true, end, PhaseBound(s, end)), Scope(false, later, local)];
  }

  /** The body of a phase starts from a valid state, one moment after the phase began. */
  lemma PhaseReady(end: real, native: bool, s: State, scopes: seq<Scope>, w: Setting)
    requires Valid(s, scopes) && Enters(s, end, w)
    ensures var outer := scopes + [Scope(true, end, PhaseBound(s, end))];
            Valid(Note(Sync(Pushed(s, end, native), w).0, outer), outer)
  {
    var pushed, outer := Pushed(s, end, native), scopes + [Scope(true, end, PhaseBound(s, end))];
    PhaseNests(s.bounds, s.phases, scopes, end);
    PhaseHeld(s.bounds, s.phases, scopes, pushed.phases[|s.phases|], end);
    SyncKeeps(pushed, outer, w);
    NoteKeeps(Sync(pushed, w).0, outer);
  }

  /** Nothing fails and no time passes. */
  function Still(): Setting {
    Setting(true, _ => 0.0, _ => None, _ => 1)
  }

  /**
   * With 5, 10 and 100 for example: in phase(5) under a deadline of 100 the work bound
   * is 100, and a bounded(10) inside it gets 10.
   */
  lemma WorkEscapesPhase(end: real, later: real, deadline: real, body: Program)
    requires 0.0 < end < later < deadline
    ensures var t := Phase(end, false, InBounded(later, body), Start(deadline, None), [], Still()).0;
            && |t.trace| > 1
            && t.trace[0].scopes == [Scope(true, end, end)] && EffectiveEnd(t.trace[0].bounds) == deadline
            && t.trace[1].scopes == [Scope(true, end, end), Scope(false, later, later)]
            && EffectiveEnd(t.trace[1].bounds) == later
  {
    var s, w := Start(deadline, None), Still();
    assert EffectiveEnd(s.bounds) == deadline && PhaseBound(s, end) == end && Valid(s, []);
    PhaseEntry(end, false, InBounded(later, body), s, [], w);
    BoundedInPhase(end, false, later, body, s, [], w);
  }
}
