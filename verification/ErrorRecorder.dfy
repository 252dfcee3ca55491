/**
 * The controller's record and publication methods, step by step over their
 * fields, each proved to compute what its function over plans says.
 */
module ErrorRecorder {
  import opened Prelude
  import opened ErrorLatch

  class Recorder {
    var first: Option<Candidate>
    var primary: Option<Error>
    var recording: bool
    var snap: Snapshot
    var check: Check
    var pub: Publication
    var slot: Option<int>
    var failures: seq<Failure>
    /** The history of the run, and a supply of fresh object identities. */
    var log: seq<Event>
    var next: nat

    constructor ()
      ensures View() == Initial()
    {
      first, primary, recording, slot, failures, log, next := None, None, false, None, [], [], 0;
      snap, check, pub := Snapshot(false, None, None), Check(None, None), Publication(false, false, None);
    }

    function View(): Latch
      reads this
    {
      Latch(first, primary, recording, snap, check, pub, slot, failures, log, next)
    }

    method Run(calls: seq<Plan>)
      modifies this
      ensures View() == RunAll(old(View()), calls)
      decreases calls
    {
      if calls == [] { return; }
      Call(calls[0]);
      Run(calls[1..]);
    }

    method Call(p: Plan)
      modifies this
      ensures View() == RunOne(old(View()), p)
      decreases p, 9
    {
      if p.Record? {
        var returned := Record(p);
      } else {
        Stage(p);
      }
    }

    /** record_error() */
    method Record(p: Plan) returns (returned: bool)
      requires p.Record?
      modifies this
      ensures (View(), returned) == RecordError(old(View()), p)
      decreases p, 8
    {
      var mine := Candidate(next, p.error, p.stage);
      next, log := next + 1, log + [Began(next)];
      Run(p.choosing);
      if first.None? { first := Some(mine); }
      var winner := first.value;
      primary := Some(winner.error);
      Run(p.chosen);
      var prior := recording;
      if prior { snap := snap.(refused := true); }
      recording := true;
      returned := Body(p, mine, winner);
      recording := prior;
    }

    /** The try block of record_error(). */
    method Body(p: Plan, mine: Candidate, winner: Candidate) returns (returned: bool)
      requires p.Record?
      modifies this
      ensures (View(), returned) == RecordBody(old(View()), p, mine, winner)
      decreases p, 7
    {
      returned := Reserve(p, mine, winner);
      if !returned { return; }
      Run(p.slotting.calls);
      if p.slotting.raised.Fine? && slot.None? { slot := p.slot; }
      Run(p.appending.calls);
      if !p.appending.raised.Fine? { return false; }
      failures := failures + [Failure(mine.id, p.stage, p.error)];
      Run(p.finishing.calls);
      returned := p.finishing.raised.Fine?;
    }

    /** _snapshot_first_error() up to the creator's claim. */
    method Reserve(p: Plan, mine: Candidate, winner: Candidate) returns (returned: bool)
      requires p.Record?
      modifies this
      ensures (View(), returned) == SnapshotFirst(old(View()), p, mine, winner)
      decreases p, 6
    {
      Run(p.entering.calls);
      if !p.entering.raised.Fine? { return false; }
      if winner != mine {
        if snap.complete.None? { snap := snap.(refused := true); }
        return true;
      }
      if !p.owner || !Unused(snap) {
        snap := snap.(refused := true);
        return true;
      }
      var claim := Claim(mine.id, next);
      next := next + 1;
      returned := Claimed(p, mine, claim);
    }

    method Claimed(p: Plan, mine: Candidate, claim: Claim) returns (returned: bool)
      requires p.Record?
      modifies this
      ensures (View(), returned) == ClaimSnapshot(old(View()), p, mine, claim)
      decreases p, 5
    {
      Run(p.claiming.calls);
      if !p.claiming.raised.Fine? { return false; }
      if snap.claim.Some? {
        snap := snap.(refused := true);
        return true;
      }
      snap := snap.(claim := Some(claim));
      returned := Measure(p, mine, claim);
    }

    /** The checked part of the snapshot, and its completion. */
    method Measure(p: Plan, mine: Candidate, claim: Claim) returns (returned: bool)
      requires p.Record?
      modifies this
      ensures (View(), returned) == MeasureSnapshot(old(View()), p, mine, claim)
      decreases p, 4
    {
      Run(p.measuring.calls);
      if p.measuring.raised.Escaping? { return false; }
      if p.measuring.raised.Refusable? || !p.early || snap.refused || snap.claim != Some(claim) || first != Some(mine) || !p.late {
        snap := snap.(refused := true);
        return true;
      }
      log := log + [Checked(mine.id)];
      Run(p.window.calls);
      if p.window.raised.Escaping? { return false; }
      if p.window.raised.Refusable? {
        snap := snap.(refused := true);
        return true;
      }
      log := log + [Completed(mine.id, claim, !snap.refused)];
      snap := snap.(complete := Some(claim));
      returned := true;
    }

    /** _stage_failure_categories() */
    method Stage(p: Plan)
      requires p.Publish?
      modifies this
      ensures View() == StageCategories(old(View()), p)
      decreases p, 8
    {
      if !p.owner || pub.active || pub.failed { return; }
      var nonce := next;
      next, log := next + 1, log + [Attempted(next)];
      pub := pub.(active := true);
      var ok := Prepare(p, nonce);
      if !ok {
        pub := pub.(failed := true);
        log := log + [Abandoned(nonce)];
      }
      pub := pub.(active := false);
    }

    /** The claim and everything after it. */
    method Prepare(p: Plan, nonce: nat) returns (ok: bool)
      requires p.Publish?
      modifies this
      ensures (View(), ok) == StageBody(old(View()), p, nonce)
      decreases p, 7
    {
      Run(p.starting.calls);
      if !p.starting.raised.Fine? { return false; }
      var winner := first;
      Run(p.claiming.calls);
      if !p.claiming.raised.Fine? { return false; }
      if winner.Some? && check.claim.None? { check := check.(claim := Some(Claim(winner.value.id, nonce))); }
      ok := Inspect(p, winner, nonce);
    }

    /** The first check, which alone may fill the observation, then the writing. */
    method Inspect(p: Plan, winner: Option<Candidate>, nonce: nat) returns (ok: bool)
      requires p.Publish?
      modifies this
      ensures (View(), ok) == StageCheck(old(View()), p, winner, nonce)
      decreases p, 6
    {
      var held := if winner.Some? then check.claim else None;
      Run(p.checking.calls);
      if !p.checking.raised.Fine? { return false; }
      if winner.Some? && held == Some(Claim(winner.value.id, nonce)) && first == winner && check.observation.None? {
        check := check.(observation := Some(Observation(held.value, held.value.winner, p.category, p.exhausted)));
        log := log + [Observed(nonce, held.value)];
      }
      if p.exhausted { return false; }
      ok := Write(p);
    }

    method Write(p: Plan) returns (ok: bool)
      requires p.Publish?
      modifies this
      ensures (View(), ok) == StageWrite(old(View()), p)
      decreases p, 5
    {
      if pub.published == Some(slot) { return true; }
      var current := slot;
      Run(p.writing.calls);
      if !p.writing.raised.Fine? { return false; }
      pub := pub.(published := Some(current));
      ok := true;
    }
  }
}
