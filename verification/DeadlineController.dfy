/** The controller's deadline methods, step by step over their fields, each proved to compute its function. */
module DeadlineController {
  import opened Prelude
  import opened Deadlines

  class Controller {
    const deadline: real
    const inherited: Option<real>
    const setting: Setting
    var caseEnd: Option<real>
    var local: Option<real>
    var observation: Option<real>
    var phases: seq<Entry>
    var alarm: Option<real>
    var reports: seq<Report>
    var primary: Option<Error>
    /** How many clock readings and failing points have passed, and the history of the run. */
    var point: nat
    ghost var synced: Option<real>
    ghost var trace: seq<Moment>

    constructor (deadline: real, inherited: Option<real>, setting: Setting)
      ensures this.deadline == deadline && this.inherited == inherited && this.setting == setting
      ensures View() == Start(deadline, inherited)
    {
      this.deadline, this.inherited, this.setting := deadline, inherited, setting;
      caseEnd, local, observation, phases, alarm := None, None, None, [], None;
      reports, primary, point, synced, trace := [], None, 0, None, [];
    }

    function InForce(): Bounds
      reads this
    {
      Bounds(deadline, caseEnd, local, observation, inherited)
    }

    ghost function View(): State
      reads this
    {
      State(InForce(), phases, alarm, synced, reports, primary, point, trace)
    }

    /** One clock reading. */
    method Now() returns (t: real)
      modifies `point
      ensures t == setting.clock(old(point)) && point == old(point) + 1
    {
      t := setting.clock(point);
      point := point + 1;
    }

    /** _timer_sync() */
    method SetTimer() returns (r: Option<Error>)
      modifies `alarm, `point, `synced
      ensures (View(), r) == Sync(old(View()), setting)
    {
      if !setting.main { return None; }
      var end := TimerEnd(InForce(), phases);
      var native := phases != [] && phases[|phases| - 1].kind.Native?;
      r := setting.fault(point);
      var now := Now();
      if r.Some? { return; }
      alarm := if end - now > 0.0 && !native then Some(end) else None;
      synced := Some(now);
    }

    /** remaining() */
    method CheckRemaining() returns (r: Option<Error>)
      modifies `point
      ensures (View(), r) == Remaining(old(View()), setting)
    {
      r := setting.fault(point);
      var error := setting.made(point);
      var now := Now();
      if r.None? && EffectiveEnd(InForce()) - now <= 0.0 { r := Some(error); }
    }

    /** An except block's call of record_error(). */
    method RecordError(stage: string, error: Option<Error>)
      modifies `reports, `primary
      ensures View() == Recorded(old(View()), stage, error)
    {
      if error.None? { return; }
      reports := reports + [Report(stage, error.value)];
      if primary.None? { primary := error; }
    }

    /** The last finally block of both scopes. */
    method RestoreTimer(error: Option<Error>) returns (r: Option<Error>)
      modifies `alarm, `point, `synced, `reports, `primary
      ensures (View(), r) == Restore(old(View()), error, setting)
    {
      r := SetTimer();
      RecordError("timer-restore", r);
      if error.Some? { r := error; }
    }

    ghost method Mark(scopes: seq<Scope>)
      modifies `trace
      ensures View() == Note(old(View()), scopes)
    {
      trace := trace + [Moment(InForce(), phases, alarm, synced, scopes)];
    }

    method Run(p: Program, ghost scopes: seq<Scope>) returns (r: Option<Error>)
      modifies this
      ensures (View(), r) == Exec(p, old(View()), scopes, setting)
      decreases p, 9
    {
      Mark(scopes);
      r := Do(p, scopes);
      Mark(scopes);
    }

    method Do(p: Program, ghost scopes: seq<Scope>) returns (r: Option<Error>)
      modifies this
      ensures (View(), r) == Perform(p, old(View()), scopes, setting)
      decreases p, 8
    {
      r := None;
      match p {
        case Skip =>
        case Then(first, second) =>
          r := Run(first, scopes);
          if r.None? { r := Run(second, scopes); }
        case Try(body, handler) =>
          r := Run(body, scopes);
          if r.Some? { r := Run(handler, scopes); }
        case Raise(error) => r := Some(error);
        case SetCase(end) => caseEnd, synced := end, None;
        case SetObservation(end) => observation, synced := end, None;
        case Resync => r := SetTimer();
        case Leak(entry) => phases, synced := phases + [entry], None;
        case InPhase(end, native, body) => r := RunPhase(end, native, body, scopes);
        case InBounded(end, body) => r := RunBounded(end, body, scopes);
      }
    }

    /** phase() */
    method RunPhase(end: real, native: bool, body: Program, ghost scopes: seq<Scope>) returns (r: Option<Error>)
      modifies this
      ensures (View(), r) == Phase(end, native, body, old(View()), scopes, setting)
      decreases body, 11
    {
      var bound := Least(end, TimerEnd(InForce(), phases));
      var error, depth := setting.made(point), |phases|;
      var now := Now();
      if !setting.main || bound <= now { return Some(error); }
      phases, synced := phases + [Entry(if native then Native else Python, bound)], None;
      r := TryPhase(bound, body, scopes + [Scope(true, end, bound)]);
      r := ExitPhase(r, depth);
    }

    method ExitPhase(error: Option<Error>, depth: nat) returns (r: Option<Error>)
      modifies this
      ensures (View(), r) == LeavePhase(old(View()), error, depth, setting)
    {
      RecordError("phase", error);
      phases, synced := Cut(phases, depth), None;
      r := RestoreTimer(error);
    }

    method TryPhase(bound: real, body: Program, ghost scopes: seq<Scope>) returns (r: Option<Error>)
      modifies this
      ensures (View(), r) == InsidePhase(bound, body, old(View()), scopes, setting)
      decreases body, 10
    {
      r := SetTimer();
      if r.Some? { return; }
      r := Run(body, scopes);
      if r.Some? { return; }
      var error := setting.made(point);
      var now := Now();
      if bound <= now { r := Some(error); }
    }

    /** bounded() */
    method RunBounded(end: real, body: Program, ghost scopes: seq<Scope>) returns (r: Option<Error>)
      modifies this
      ensures (View(), r) == Bounded(end, body, old(View()), scopes, setting)
      decreases body, 11
    {
      var previous := Or(local, deadline);
      local, synced := Some(Least(previous, end)), None;
      r := TryBounded(body, scopes + [Scope(false, end, Least(previous, end))]);
      r := ExitBounded(r, previous);
    }

    method ExitBounded(error: Option<Error>, previous: real) returns (r: Option<Error>)
      modifies this
      ensures (View(), r) == LeaveBounded(old(View()), error, previous, setting)
    {
      RecordError("bounded", error);
      local, synced := Some(previous), None;
      r := RestoreTimer(error);
    }

    method TryBounded(body: Program, ghost scopes: seq<Scope>) returns (r: Option<Error>)
      modifies this
      ensures (View(), r) == InsideBounded(body, old(View()), scopes, setting)
      decreases body, 10
    {
      r := CheckRemaining();
      if r.Some? { return; }
      r := SetTimer();
      if r.Some? { return; }
      r := Run(body, scopes);
      if r.None? { r := CheckRemaining(); }
    }
  }
}
