/**
 * First-error latching: record_error() with its first-error snapshot, and the
 * failure-category publication, under reentrant calls at every hook between
 * their steps.  A plan is one call together with the calls that interrupt it and
 * the outcome of everything the code cannot control, so a list of plans is a run.
 */
module ErrorLatch {
  import opened Prelude

  /** How a stretch of code ends: normally, with an exception the snapshot turns into a refusal, or with any other. */
  datatype Raised = Fine | Refusable | Escaping

  /** Calls that interrupt the code at one point, and how that point ends. */
  datatype Hook = Hook(calls: seq<Plan>, raised: Raised)

  /**
   * One call.  For a record: the hooks in the order the code reaches them, whether it
   * runs on the owning thread, and whether its time and deadline checks pass.  For a
   * publication: likewise, with the deadline read and the outcome of the writing.
   */
  datatype Plan =
    | Record(stage: string, error: Error, owner: bool, choosing: seq<Plan>, chosen: seq<Plan>, entering: Hook, claiming: Hook,
             measuring: Hook, early: bool, late: bool, window: Hook, slotting: Hook, slot: Option<int>, appending: Hook,
             finishing: Hook)
    | Publish(owner: bool, starting: Hook, claiming: Hook, checking: Hook, category: int, exhausted: bool, writing: Hook)

  /** The tuple a record call offers; the identifier stands for its identity. */
  datatype Candidate = Candidate(id: nat, error: Error, stage: string)

  /** A claim pairs the winning candidate with a nonce of the claiming invocation. */
  datatype Claim = Claim(winner: nat, nonce: nat)

  datatype Snapshot = Snapshot(refused: bool, claim: Option<Claim>, complete: Option<Claim>)

  datatype Observation = Observation(claim: Claim, winner: nat, category: int, exhausted: bool)

  datatype Check = Check(claim: Option<Claim>, observation: Option<Observation>)

  datatype Publication = Publication(active: bool, failed: bool, published: Option<Option<int>>)

  datatype Failure = Failure(id: nat, stage: string, error: Error)

  /** A history of what happened; the code keeps no such list. */
  datatype Event =
    | Began(id: nat)
    | Checked(id: nat)
    | Completed(id: nat, claim: Claim, clean: bool)
    | Observed(nonce: nat, claim: Claim)
    | Attempted(nonce: nat)
    | Abandoned(nonce: nat)

  datatype Latch = Latch(first: Option<Candidate>, primary: Option<Error>, recording: bool, snap: Snapshot, check: Check,
                         pub: Publication, slot: Option<int>, failures: seq<Failure>, log: seq<Event>, next: nat)

  function Initial(): Latch {
    Latch(None, None, false, Snapshot(false, None, None), Check(None, None), Publication(false, false, None), None, [], [], 0)
  }

  // ----- Single effects -------------------------------------------------------------------------------------

  /** A record call starts, with a candidate tuple of its own. */
  function Begin(s: Latch): Latch {
    s.(next := s.next + 1, log := s.log + [Began(s.next)])
  }

  /** A publication passes its entry check. */
  function Enter(s: Latch): Latch {
    s.(pub := s.pub.(active := true), next := s.next + 1, log := s.log + [Attempted(s.next)])
  }

  /** A publication ends; a failure is remembered for good. */
  function Leave(s: Latch, ok: bool, nonce: nat): Latch {
    if ok then s.(pub := s.pub.(active := false))
    else s.(pub := s.pub.(active := false, failed := true), log := s.log + [Abandoned(nonce)])
  }

  function Refuse(s: Latch): Latch {
    s.(snap := s.snap.(refused := true))
  }

  /** setdefault on the raw winner, and the public fields that follow it. */
  function Choose(s: Latch, mine: Candidate): Latch {
    var winner := if s.first.Some? then s.first.value else mine;
    s.(first := Some(winner), primary := Some(winner.error))
  }

  /** Mark the recorder active; a call inside another one refuses the snapshot. */
  function Activate(s: Latch): Latch {
    (if s.recording then Refuse(s) else s).(recording := true)
  }

  function Stay(s: Latch, claim: Claim): Latch {
    s.(snap := s.snap.(claim := Some(claim)))
  }

  /** The snapshot's last check has passed. */
  function Pass(s: Latch, id: nat): Latch {
    s.(log := s.log + [Checked(id)])
  }

  function Complete(s: Latch, id: nat, claim: Claim): Latch {
    s.(snap := s.snap.(complete := Some(claim)), log := s.log + [Completed(id, claim, !s.snap.refused)])
  }

  function Fill(s: Latch, slot: Option<int>): Latch {
    if s.slot.None? then s.(slot := slot) else s
  }

  function Append(s: Latch, id: nat, stage: string, error: Error): Latch {
    s.(failures := s.failures + [Failure(id, stage, error)])
  }

  function Observe(s: Latch, nonce: nat, claim: Claim, category: int, exhausted: bool): Latch {
    if s.check.observation.Some? then s
    else s.(check := s.check.(observation := Some(Observation(claim, claim.winner, category, exhausted))),
            log := s.log + [Observed(nonce, claim)])
  }

  predicate Unused(snap: Snapshot) {
    !snap.refused && snap.claim.None? && snap.complete.None?
  }

  // ----- Calls --------------------------------------------------------------------------------------------------

  function RunAll(s: Latch, calls: seq<Plan>): Latch
    decreases calls
  {
    if calls == [] then s else RunAll(RunOne(s, calls[0]), calls[1..])
  }

  function RunOne(s: Latch, p: Plan): Latch
    decreases p, 9
  {
    if p.Record? then RecordError(s, p).0 else StageCategories(s, p)
  }

  /** record_error(): the new state, and whether the call returned. */
  function RecordError(s: Latch, p: Plan): (Latch, bool)
    requires p.Record?
    decreases p, 8
  {
    var mine := Candidate(s.next, p.error, p.stage);
    var selected := Choose(RunAll(Begin(s), p.choosing), mine);
    var entered := RunAll(selected, p.chosen);
    var inside := RecordBody(Activate(entered), p, mine, selected.first.value);
    (inside.0.(recording := entered.recording), inside.1)
  }

  /** The try block of record_error(). */
  function RecordBody(s: Latch, p: Plan, mine: Candidate, winner: Candidate): (Latch, bool)
    requires p.Record?
    decreases p, 7
  {
    var snapped := SnapshotFirst(s, p, mine, winner);
    if !snapped.1 then (snapped.0, false) else AppendFailure(FillSlot(snapped.0, p), p, mine)
  }

  /** Completing the category slot; no exception leaves this step. */
  function FillSlot(s: Latch, p: Plan): Latch
    requires p.Record?
    decreases p, 6
  {
    var after := RunAll(s, p.slotting.calls);
    if p.slotting.raised.Fine? then Fill(after, p.slot) else after
  }

  function AppendFailure(s: Latch, p: Plan, mine: Candidate): (Latch, bool)
    requires p.Record?
    decreases p, 6
  {
    var before := RunAll(s, p.appending.calls);
    if !p.appending.raised.Fine? then (before, false)
    else (RunAll(Append(before, mine.id, p.stage, p.error), p.finishing.calls), p.finishing.raised.Fine?)
  }

  /** _snapshot_first_error(): the new state, and whether control returned. */
  function SnapshotFirst(s: Latch, p: Plan, mine: Candidate, winner: Candidate): (Latch, bool)
    requires p.Record?
    decreases p, 6
  {
    var here := RunAll(s, p.entering.calls);
    if !p.entering.raised.Fine? then (here, false)
    else if winner != mine then (if here.snap.complete.None? then Refuse(here) else here, true)
    else if !p.owner || !Unused(here.snap) then (Refuse(here), true)
    else ClaimSnapshot(here.(next := here.next + 1), p, mine, Claim(mine.id, here.next))
  }

  /** The creator's reservation. */
  function ClaimSnapshot(s: Latch, p: Plan, mine: Candidate, claim: Claim): (Latch, bool)
    requires p.Record?
    decreases p, 5
  {
    var here := RunAll(s, p.claiming.calls);
    if !p.claiming.raised.Fine? then (here, false)
    else if here.snap.claim.Some? then (Refuse(here), true)
    else MeasureSnapshot(Stay(here, claim), p, mine, claim)
  }

  /** The part of the snapshot under its own exception handler. */
  function MeasureSnapshot(s: Latch, p: Plan, mine: Candidate, claim: Claim): (Latch, bool)
    requires p.Record?
    decreases p, 4
  {
    var here := RunAll(s, p.measuring.calls);
    if p.measuring.raised.Escaping? then (here, false)
    else if p.measuring.raised.Refusable? || !p.early then (Refuse(here), true)
    else if here.snap.refused || here.snap.claim != Some(claim) || here.first != Some(mine) || !p.late then (Refuse(here), true)
    else FinishSnapshot(Pass(here, mine.id), p, mine, claim)
  }

  /** Between the last check and the store. */
  function FinishSnapshot(s: Latch, p: Plan, mine: Candidate, claim: Claim): (Latch, bool)
    requires p.Record?
    decreases p, 3
  {
    var here := RunAll(s, p.window.calls);
    match p.window.raised
    case Fine => (Complete(here, mine.id, claim), true)
    case Refusable => (Refuse(here), true)
    case Escaping => (here, false)
  }

  /** _stage_failure_categories(): no exception leaves it. */
  function StageCategories(s: Latch, p: Plan): Latch
    requires p.Publish?
    decreases p, 8
  {
    if !p.owner || s.pub.active || s.pub.failed then s
    else
      var inside := StageBody(Enter(s), p, s.next);
      Leave(inside.0, inside.1, s.next)
  }

  /** Claim, first check, comparison with what is published, writing. */
  function StageBody(s: Latch, p: Plan, nonce: nat): (Latch, bool)
    requires p.Publish?
    decreases p, 7
  {
    var started := RunAll(s, p.starting.calls);
    if !p.starting.raised.Fine? then (started, false)
    else
      var winner := started.first;
      var here := RunAll(started, p.claiming.calls);
      if !p.claiming.raised.Fine? then (here, false) else StageCheck(Reserve(here, winner, nonce), p, winner, nonce)
  }

  /** setdefault on the claim of the category check. */
  function Reserve(s: Latch, winner: Option<Candidate>, nonce: nat): Latch {
    if winner.Some? && s.check.claim.None? then s.(check := s.check.(claim := Some(Claim(winner.value.id, nonce)))) else s
  }

  function StageCheck(s: Latch, p: Plan, winner: Option<Candidate>, nonce: nat): (Latch, bool)
    requires p.Publish?
    decreases p, 6
  {
    var held := if winner.Some? then s.check.claim else None;
    var here := RunAll(s, p.checking.calls);
    if !p.checking.raised.Fine? then (here, false)
    else
      var mine := winner.Some? && held == Some(Claim(winner.value.id, nonce)) && here.first == winner;
      var seen := if mine then Observe(here, nonce, held.value, p.category, p.exhausted) else here;
      if p.exhausted then (seen, false) else StageWrite(seen, p)
  }

  function StageWrite(s: Latch, p: Plan): (Latch, bool)
    requires p.Publish?
    decreases p, 5
  {
    if s.pub.published == Some(s.slot) then (s, true)
    else
      var slot := s.slot;
      var here := RunAll(s, p.writing.calls);
      if p.writing.raised.Fine? then (here.(pub := here.pub.(published := Some(slot))), true) else (here, false)
  }
}
