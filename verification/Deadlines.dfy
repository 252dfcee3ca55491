/**
 * The controller's absolute bounds: the work bound and timer instant they
 * define, and programs that nest phase() and bounded() to any depth while time
 * passes, timers fail, scopes leak stack entries and errors propagate.  Clock
 * readings, failures and fresh exceptions come from a setting, so a program in a
 * setting is one run.
 *
 * Long conjunctions are closed with `== true`, which keeps the verifier from
 * proving each conjunct as a goal of its own.
 */
module Deadlines {
  import opened Prelude

  datatype Kind = Python | Native

  /** One entry of the phase stack. */
  datatype Entry = Entry(kind: Kind, bound: real)

  /** The bounds of the work in hand; a missing inherited alarm is an infinite one. */
  datatype Bounds = Bounds(deadline: real, caseEnd: Option<real>, local: Option<real>, observation: Option<real>,
                           inherited: Option<real>)

  function Least(a: real, b: real): real {
    if a < b then a else b
  }

  function Or(o: Option<real>, default: real): real {
    if o.Some? then o.value else default
  }

  /** effective_end() */
  function EffectiveEnd(b: Bounds): real {
    Least(Least(b.deadline, Or(b.caseEnd, b.deadline)),
          Least(Least(Or(b.local, b.deadline), Or(b.observation, b.deadline)), Or(b.inherited, b.deadline)))
  }

  /** The instant _timer_sync() works with: the work bound and every phase on the stack. */
  function TimerEnd(b: Bounds, phases: seq<Entry>): real {
    if phases == [] then EffectiveEnd(b)
    else Least(TimerEnd(b, phases[..|phases| - 1]), phases[|phases| - 1].bound)
  }

  /** Whether a value is one of the bounds in force. */
  predicate IsBound(x: real, b: Bounds, phases: seq<Entry>) {
    || x == b.deadline || b.caseEnd == Some(x) || b.local == Some(x) || b.observation == Some(x) || b.inherited == Some(x)
    || exists i :: 0 <= i < |phases| && phases[i].bound == x
  }

  /** The timer instant is the least bound in force, and is one of them. */
  lemma {:induction false} TimerEndLeast(b: Bounds, phases: seq<Entry>)
    ensures IsBound(TimerEnd(b, phases), b, phases)
    ensures forall x :: IsBound(x, b, phases) ==> TimerEnd(b, phases) <= x
  {
    if phases != [] {
      var last := |phases| - 1;
      TimerEndLeast(b, phases[..last]);
      forall x | IsBound(x, b, phases) ensures TimerEnd(b, phases) <= x {
        if i :| 0 <= i < |phases| && phases[i].bound == x {
          if i < last { assert phases[..last][i].bound == x; }
        }
        assert x == phases[last].bound || IsBound(x, b, phases[..last]);
      }
      if TimerEnd(b, phases) != phases[last].bound {
        assert IsBound(TimerEnd(b, phases[..last]), b, phases[..last]);
        if i :| 0 <= i < last && phases[..last][i].bound == TimerEnd(b, phases) { assert phases[i].bound == TimerEnd(b, phases); }
      }
    }
  }

  /** The timer never runs past the work bound. */
  lemma {:induction false} TimerWithinEffective(b: Bounds, phases: seq<Entry>)
    ensures TimerEnd(b, phases) <= EffectiveEnd(b)
  {
    if phases != [] { TimerWithinEffective(b, phases[..|phases| - 1]); }
  }

  /** What _timer_sync() leaves in the timer when it reads the clock at the given instant. */
  function AlarmAt(b: Bounds, phases: seq<Entry>, instant: real): Option<real> {
    var native := phases != [] && phases[|phases| - 1].kind.Native?;
    if TimerEnd(b, phases) > instant && !native then Some(TimerEnd(b, phases)) else None
  }

  // ----- Programs and runs ---------------------------------------------------------------------------

  /** Work done under the controller; every other effect is one of these at this level. */
  datatype Program =
    | Skip
    | Then(first: Program, second: Program)
    | Try(body: Program, handler: Program)
    | Raise(error: Error)
    | SetCase(caseEnd: Option<real>)
    | SetObservation(observation: Option<real>)
    | Resync
    | Leak(entry: Entry)
    | InPhase(end: real, native: bool, body: Program)
    | InBounded(end: real, body: Program)

  /**
   * Whether this is the main thread, which alone owns the timer; what the clock reads,
   * which call raises, and what exception a failed requirement makes, at each point.
   */
  datatype Setting = Setting(main: bool, clock: nat -> real, fault: nat -> Option<Error>, made: nat -> Error)

  /** A scope that is still open: what the caller asked for and the bound it got. */
  datatype Scope = Scope(phase: bool, end: real, bound: real)

  /** The controller at one instant of a run, with the scopes open there, outermost first. */
  datatype Moment = Moment(bounds: Bounds, phases: seq<Entry>, alarm: Option<real>, synced: Option<real>, scopes: seq<Scope>)

  /** One entry of the failure list. */
  datatype Report = Report(stage: string, error: Error)

  /** `synced` is when the timer was last set unless a bound has changed since; it and the trace are history. */
  datatype State = State(bounds: Bounds, phases: seq<Entry>, alarm: Option<real>, synced: Option<real>,
                         reports: seq<Report>, primary: Option<Error>, point: nat, trace: seq<Moment>)

  function Start(deadline: real, inherited: Option<real>): State {
    State(Bounds(deadline, None, None, None, inherited), [], None, None, [], None, 0, [])
  }

  /** Add this instant to the trace. */
  function Note(s: State, scopes: seq<Scope>): State {
    s.(trace := s.trace + [Moment(s.bounds, s.phases, s.alarm, s.synced, scopes)])
  }

  function Next(s: State): State {
    s.(point := s.point + 1)
  }

  /** _timer_sync(): only the main thread sets the timer, and setting it may fail. */
  function Sync(s: State, w: Setting): (State, Option<Error>) {
    if !w.main then (s, None)
    else if w.fault(s.point).Some? then (Next(s), w.fault(s.point))
    else (Next(s).(alarm := AlarmAt(s.bounds, s.phases, w.clock(s.point)), synced := Some(w.clock(s.point))), None)
  }

  /** remaining(): refuses when the work bound has passed, or when provider observation has failed. */
  function Remaining(s: State, w: Setting): (State, Option<Error>) {
    if w.fault(s.point).Some? then (Next(s), w.fault(s.point))
    else (Next(s), if EffectiveEnd(s.bounds) - w.clock(s.point) > 0.0 then None else Some(w.made(s.point)))
  }

  /** record_error(), as far as these scopes are concerned: one entry, and the first error stays primary. */
  function Recorded(s: State, stage: string, error: Option<Error>): State {
    if error.None? then s
    else s.(reports := s.reports + [Report(stage, error.value)], primary := if s.primary.Some? then s.primary else error)
  }

  /** What del does to the entries above a depth. */
  function Cut(phases: seq<Entry>, depth: nat): seq<Entry> {
    if depth <= |phases| then phases[..depth] else phases
  }

  /** The last finally block: set the timer; its failure is recorded and surfaces only if nothing else failed. */
  function Restore(s: State, error: Option<Error>, w: Setting): (State, Option<Error>) {
    var synced := Sync(s, w);
    (Recorded(synced.0, "timer-restore", synced.1), if error.Some? then error else synced.1)
  }

  function Exec(p: Program, s: State, scopes: seq<Scope>, w: Setting): (State, Option<Error>)
    decreases p, 9
  {
    var r := Perform(p, Note(s, scopes), scopes, w);
    (Note(r.0, scopes), r.1)
  }

  function Perform(p: Program, s: State, scopes: seq<Scope>, w: Setting): (State, Option<Error>)
    decreases p, 8
  {
    match p
    case Skip => (s, None)
    case Then(first, second) =>
      var r := Exec(first, s, scopes, w);
      if r.1.Some? then r else Exec(second, r.0, scopes, w)
    case Try(body, handler) =>
      var r := Exec(body, s, scopes, w);
      if r.1.None? then r else Exec(handler, r.0, scopes, w)
    case Raise(error) => (s, Some(error))
    case SetCase(end) => (s.(bounds := s.bounds.(caseEnd := end), synced := None), None)
    case SetObservation(end) => (s.(bounds := s.bounds.(observation := end), synced := None), None)
    case Resync => Sync(s, w)
    case Leak(entry) => (s.(phases := s.phases + [entry], synced := None), None)
    case InPhase(end, native, body) => Phase(end, native, body, s, scopes, w)
    case InBounded(end, body) => Bounded(end, body, s, scopes, w)
  }

  /** The bound a phase gets. */
  function PhaseBound(s: State, end: real): real {
    Least(end, TimerEnd(s.bounds, s.phases))
  }

  /** A phase is entered on the main thread while its bound lies ahead. */
  predicate Enters(s: State, end: real, w: Setting) {
    w.main && PhaseBound(s, end) > w.clock(s.point)
  }

  /** The state in which the phase's try block begins. */
  function Pushed(s: State, end: real, native: bool): State {
    Next(s).(phases := s.phases + [Entry(if native then Native else Python, PhaseBound(s, end))], synced := None)
  }

  /** phase() */
  function Phase(end: real, native: bool, body: Program, s: State, scopes: seq<Scope>, w: Setting): (State, Option<Error>)
    decreases body, 11
  {
    if !Enters(s, end, w) then (Next(s), Some(w.made(s.point)))
    else
      var inner := scopes + [Scope(true, end, PhaseBound(s, end))];
      var r := InsidePhase(PhaseBound(s, end), body, Pushed(s, end, native), inner, w);
      LeavePhase(r.0, r.1, |s.phases|, w)
  }

  /** The part of phase() that may raise: set the timer, run the body, check the bound. */
  function InsidePhase(bound: real, body: Program, s: State, scopes: seq<Scope>, w: Setting): (State, Option<Error>)
    decreases body, 10
  {
    var timed := Sync(s, w);
    if timed.1.Some? then timed
    else
      var r := Exec(body, timed.0, scopes, w);
      if r.1.Some? then r
      else (Next(r.0), if w.clock(r.0.point) < bound then None else Some(w.made(r.0.point)))
  }

  /** The except and finally blocks of phase(). */
  function LeavePhase(s: State, error: Option<Error>, depth: nat, w: Setting): (State, Option<Error>) {
    var caught := Recorded(s, "phase", error);
    Restore(caught.(phases := Cut(caught.phases, depth), synced := None), error, w)
  }

  /** The local bound, or the deadline where there is none. */
  function LocalEnd(b: Bounds): real {
    Or(b.local, b.deadline)
  }

  function Narrowed(s: State, end: real): State {
    s.(bounds := s.bounds.(local := Some(Least(LocalEnd(s.bounds), end))), synced := None)
  }

  /** bounded() */
  function Bounded(end: real, body: Program, s: State, scopes: seq<Scope>, w: Setting): (State, Option<Error>)
    decreases body, 11
  {
    var inner := scopes + [Scope(false, end, Least(LocalEnd(s.bounds), end))];
    var r := InsideBounded(body, Narrowed(s, end), inner, w);
    LeaveBounded(r.0, r.1, LocalEnd(s.bounds), w)
  }

  /** The part of bounded() that may raise. */
  function InsideBounded(body: Program, s: State, scopes: seq<Scope>, w: Setting): (State, Option<Error>)
    decreases body, 10
  {
    var first := Remaining(s, w);
    if first.1.Some? then first
    else
      var timed := Sync(first.0, w);
      if timed.1.Some? then timed
      else
        var r := Exec(body, timed.0, scopes, w);
        if r.1.Some? then r else Remaining(r.0, w)
  }

  /** The except and finally blocks of bounded(). */
  function LeaveBounded(s: State, error: Option<Error>, previous: real, w: Setting): (State, Option<Error>) {
    var caught := Recorded(s, "bounded", error);
    Restore(caught.(bounds := caught.bounds.(local := Some(previous)), synced := None), error, w)
  }
}
