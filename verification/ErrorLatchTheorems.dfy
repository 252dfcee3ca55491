/** What every run of reentrant record and publication calls keeps. */
module ErrorLatchTheorems {
  import opened Prelude
  import opened ErrorLatch

  // ----- The invariant -------------------------------------------------------------------------------------

  predicate Selected(s: Latch) {
    && (s.first.Some? <==> s.primary.Some?)
    && (s.first.Some? ==> s.primary == Some(s.first.value.error) && s.first.value.id < s.next)
  }

  predicate ClaimFits(claim: Option<Claim>, first: Option<Candidate>, next: nat) {
    claim.Some? ==> first.Some? && claim.value.winner == first.value.id && claim.value.nonce < next
  }

  predicate SnapFits(s: Latch) {
    ClaimFits(s.snap.claim, s.first, s.next) && (s.snap.complete.Some? ==> s.snap.complete == s.snap.claim)
  }

  predicate CheckFits(s: Latch) {
    && ClaimFits(s.check.claim, s.first, s.next)
    && (s.check.observation.Some? ==> && s.check.claim == Some(s.check.observation.value.claim)
                                      && s.check.observation.value.winner == s.check.observation.value.claim.winner)
  }

  /** An event of the history is visible in the state. */
  predicate EventFits(e: Event, snap: Snapshot, check: Check, pub: Publication) {
    match e
    case Completed(id, claim, _) => snap.complete == Some(claim) && claim.winner == id
    case Observed(nonce, claim) => check.observation.Some? && check.observation.value.claim == claim && claim.nonce == nonce
    case Began(_) => true
    case Checked(id) => snap.claim.Some? && snap.claim.value.winner == id
    case Attempted(_) => true
    case Abandoned(_) => pub.failed
  }

  predicate LogFits(s: Latch) {
    forall i :: 0 <= i < |s.log| ==> EventFits(s.log[i], s.snap, s.check, s.pub)
  }

  /** Two events in this order may both happen in one run. */
  predicate Follows(a: Event, b: Event) {
    && !(a.Completed? && b.Completed?) && !(a.Observed? && b.Observed?) && !(a.Checked? && b.Checked?)
    && (a.Abandoned? ==> !b.Attempted? && !b.Abandoned?)
  }

  predicate Orderly(log: seq<Event>) {
    forall i, j :: 0 <= i < j < |log| ==> Follows(log[i], log[j])
  }

  /** No record call began at these positions. */
  predicate NoneBegan(log: seq<Event>, from: nat, to: nat) {
    forall k :: from <= k < to && k < |log| ==> !log[k].Began?
  }

  /** The completion at j follows the check of the same call at i, cleanly exactly if no record call began between. */
  predicate JustifiedBy(log: seq<Event>, i: nat, j: nat) {
    && i < j < |log| && log[j].Completed? && log[i] == Checked(log[j].id)
    && (log[j].clean <==> NoneBegan(log, i + 1, j))
  }

  predicate AllJustified(log: seq<Event>) {
    forall j :: 0 <= j < |log| && log[j].Completed? ==> exists i :: 0 <= i < j && JustifiedBy(log, i, j)
  }

  lemma JustifiedAppend(log: seq<Event>, e: Event)
    requires AllJustified(log) && (e.Completed? ==> exists i :: 0 <= i < |log| && JustifiedBy(log + [e], i, |log|))
    ensures AllJustified(log + [e])
  {
    var longer := log + [e];
    forall j | 0 <= j < |longer| && longer[j].Completed? ensures exists i :: 0 <= i < j && JustifiedBy(longer, i, j) {
      if j < |log| {
        var i :| 0 <= i < j && JustifiedBy(log, i, j);
        assert forall k :: 0 <= k < |log| ==> longer[k] == log[k];
        assert JustifiedBy(longer, i, j);
      }
    }
  }

  /** No snapshot passed its last check from this position on. */
  predicate Unchecked(log: seq<Event>, from: nat) {
    forall i :: from <= i < |log| ==> !log[i].Checked?
  }

  predicate FailuresFit(failures: seq<Failure>, next: nat) {
    && (forall i :: 0 <= i < |failures| ==> failures[i].id < next)
    && (forall i, j :: 0 <= i < j < |failures| ==> failures[i].id != failures[j].id)
  }

  predicate Inv(s: Latch) {
    (&& Selected(s) && SnapFits(s) && CheckFits(s) && LogFits(s) && Orderly(s.log) && AllJustified(s.log)
     && FailuresFit(s.failures, s.next)) == true
  }

  // ----- What a stretch of code leaves in place ---------------------------------------------------------------

  predicate NewIds(before: seq<Failure>, after: seq<Failure>, next: nat) {
    before <= after && forall i :: |before| <= i < |after| ==> after[i].id >= next
  }

  predicate Sticks<T(==)>(a: Option<T>, b: Option<T>) {
    a.Some? ==> b == a
  }

  predicate PubKept(a: Publication, b: Publication) {
    b.active == a.active && (a.active ==> b == a) && (a.failed ==> b.failed)
  }

  /** Everything latched stays latched, and the entries appended since belong to calls from the given one on. */
  predicate GrowsFrom(s: Latch, t: Latch, id: nat) {
    (&& s.next <= t.next && Sticks(s.first, t.first) && Sticks(s.primary, t.primary) && t.recording == s.recording
     && (s.snap.refused ==> t.snap.refused) && Sticks(s.check.claim, t.check.claim)
     && Sticks(s.check.observation, t.check.observation) && Sticks(s.slot, t.slot) && PubKept(s.pub, t.pub)
     && NewIds(s.failures, t.failures, id) && s.log <= t.log) == true
  }

  predicate Grows(s: Latch, t: Latch) {
    GrowsFrom(s, t, s.next)
  }

  /** The snapshot's claim and completion are untouched, and no check passed. */
  predicate Settled(s: Latch, t: Latch) {
    (t.snap.claim == s.snap.claim && t.snap.complete == s.snap.complete && Unchecked(t.log, |s.log|)) == true
  }

  lemma SettledThrough(s: Latch, t: Latch, u: Latch)
    requires Settled(s, t) && Settled(t, u) && s.log <= t.log <= u.log
    ensures Settled(s, u)
  {
    forall i | |s.log| <= i < |u.log| ensures !u.log[i].Checked? {
      if i < |t.log| { assert u.log[i] == t.log[i]; }
    }
  }

  /** Once a winner is chosen, whole calls leave the snapshot's claim and completion alone. */
  predicate Evolves(s: Latch, t: Latch) {
    Grows(s, t) && (s.first.Some? ==> Settled(s, t))
  }

  lemma GrowsThrough(s: Latch, t: Latch, u: Latch, id: nat, later: nat)
    requires GrowsFrom(s, t, id) && GrowsFrom(t, u, later) && id <= later
    ensures GrowsFrom(s, u, id)
  {
    forall i | |s.failures| <= i < |u.failures| ensures u.failures[i].id >= id {
      if i < |t.failures| { assert u.failures[i] == t.failures[i]; }
    }
  }

  lemma EvolvesThrough(s: Latch, t: Latch, u: Latch)
    requires Evolves(s, t) && Evolves(t, u)
    ensures Evolves(s, u)
  {
    GrowsThrough(s, t, u, s.next, t.next);
    if s.first.Some? { SettledThrough(s, t, u); }
  }

  /** This call has not appended its entry yet. */
  predicate Missing(s: Latch, id: nat) {
    id < s.next && forall i :: 0 <= i < |s.failures| ==> s.failures[i].id != id
  }

  lemma MissingThrough(s: Latch, t: Latch, id: nat)
    requires Missing(s, id) && Grows(s, t)
    ensures Missing(t, id)
  {
    forall i | 0 <= i < |t.failures| ensures t.failures[i].id != id {
      if i < |s.failures| { assert t.failures[i] == s.failures[i]; }
    }
  }

  // ----- Single effects ------------------------------------------------------------------------------------------

  lemma RefuseKeeps(s: Latch)
    requires Inv(s)
    ensures Inv(Refuse(s)) && Evolves(s, Refuse(s)) && Refuse(s).snap.refused && Refuse(s).first == s.first
    ensures Refuse(s).failures == s.failures
  {
    var t := Refuse(s);
    assert LogFits(t) by {
      forall i | 0 <= i < |t.log| ensures EventFits(t.log[i], t.snap, t.check, t.pub) {
        assert EventFits(s.log[i], s.snap, s.check, s.pub);
      }
    }
  }

  lemma BeginKeeps(s: Latch)
    requires Inv(s)
    ensures Inv(Begin(s)) && Evolves(s, Begin(s)) && Missing(Begin(s), s.next)
  {
    var t := Begin(s);
    forall i | 0 <= i < |s.log| ensures EventFits(s.log[i], t.snap, t.check, t.pub) {
      assert EventFits(s.log[i], s.snap, s.check, s.pub);
    }
    JustifiedAppend(s.log, Began(s.next));
    assert LogFits(t) && Orderly(t.log);
  }

  lemma ChooseKeeps(s: Latch, mine: Candidate)
    requires Inv(s) && mine.id < s.next
    ensures var t := Choose(s, mine);
            Inv(t) && Evolves(s, t) && t.first.Some? && (s.first.None? ==> t.first == Some(mine)) && Settled(s, t)
  {
    var t := Choose(s, mine);
    assert LogFits(t) by {
      forall i | 0 <= i < |t.log| ensures EventFits(t.log[i], t.snap, t.check, t.pub) {
        assert EventFits(s.log[i], s.snap, s.check, s.pub);
      }
    }
  }

  lemma PassKeeps(s: Latch, mine: Candidate, claim: Claim)
    requires Inv(s) && Reserved(s, mine, claim)
    ensures Inv(Pass(s, mine.id)) && Grows(s, Pass(s, mine.id))
  {
    var t := Pass(s, mine.id);
    JustifiedAppend(s.log, Checked(mine.id));
    forall i | 0 <= i < |s.log| ensures EventFits(s.log[i], t.snap, t.check, t.pub) {
      assert EventFits(s.log[i], s.snap, s.check, s.pub);
    }
    assert LogFits(t) && Orderly(t.log);
  }

  lemma CompleteKeeps(s: Latch, i: nat, id: nat, claim: Claim)
    requires Inv(s) && s.snap.claim == Some(claim) && s.snap.complete.None? && claim.winner == id
    requires i < |s.log| && s.log[i] == Checked(id) && (s.snap.refused <==> !NoneBegan(s.log, i + 1, |s.log|))
    ensures Inv(Complete(s, id, claim)) && Grows(s, Complete(s, id, claim))
  {
    var t := Complete(s, id, claim);
    forall k | 0 <= k < |s.log| ensures !s.log[k].Completed? && EventFits(s.log[k], t.snap, t.check, t.pub) {
      assert EventFits(s.log[k], s.snap, s.check, s.pub);
    }
    assert forall k :: 0 <= k < |s.log| ==> t.log[k] == s.log[k];
    assert JustifiedBy(t.log, i, |s.log|);
    JustifiedAppend(s.log, Completed(id, claim, !s.snap.refused));
    assert LogFits(t) && Orderly(t.log);
  }

  lemma StayKeeps(s: Latch, claim: Claim)
    requires Inv(s) && s.snap.claim.None? && ClaimFits(Some(claim), s.first, s.next)
    ensures Inv(Stay(s, claim)) && Grows(s, Stay(s, claim))
  {
    var t := Stay(s, claim);
    forall i | 0 <= i < |s.log| ensures EventFits(s.log[i], t.snap, t.check, t.pub) {
      assert EventFits(s.log[i], s.snap, s.check, s.pub);
    }
    assert LogFits(t);
  }

  lemma FillKeeps(s: Latch, slot: Option<int>)
    requires Inv(s)
    ensures Inv(Fill(s, slot)) && Evolves(s, Fill(s, slot)) && Settled(s, Fill(s, slot))
  {
    assert LogFits(Fill(s, slot));
  }

  lemma AppendKeeps(s: Latch, id: nat, stage: string, error: Error)
    requires Inv(s) && Missing(s, id)
    ensures Inv(Append(s, id, stage, error)) && Settled(s, Append(s, id, stage, error))
  {
    assert LogFits(Append(s, id, stage, error));
    assert FailuresFit(Append(s, id, stage, error).failures, s.next);
  }

  lemma ObserveKeeps(s: Latch, nonce: nat, claim: Claim, category: int, exhausted: bool)
    requires Inv(s) && s.check.claim == Some(claim) && claim.nonce == nonce
    ensures var t := Observe(s, nonce, claim, category, exhausted);
            Inv(t) && Grows(s, t) && Settled(s, t) && t.first == s.first && t.pub == s.pub
  {
    var t := Observe(s, nonce, claim, category, exhausted);
    if s.check.observation.None? {
      forall i | 0 <= i < |s.log| ensures !s.log[i].Observed? && EventFits(s.log[i], t.snap, t.check, t.pub) {
        assert EventFits(s.log[i], s.snap, s.check, s.pub);
      }
      JustifiedAppend(s.log, Observed(nonce, claim));
      assert LogFits(t);
      assert Orderly(t.log);
    }
  }

  lemma ReserveKeeps(s: Latch, winner: Option<Candidate>, nonce: nat)
    requires Inv(s) && nonce < s.next && Sticks(winner, s.first)
    ensures var t := Reserve(s, winner, nonce);
            Inv(t) && Grows(s, t) && Settled(s, t) && t.first == s.first && t.pub == s.pub
  {
    var t := Reserve(s, winner, nonce);
    forall i | 0 <= i < |s.log| ensures EventFits(s.log[i], t.snap, t.check, t.pub) {
      assert EventFits(s.log[i], s.snap, s.check, s.pub);
    }
    assert LogFits(t);
  }

  // ----- Record calls -----------------------------------------------------------------------------------------

  lemma {:induction false} RunAllKeeps(s: Latch, calls: seq<Plan>)
    requires Inv(s)
    ensures Inv(RunAll(s, calls)) && Evolves(s, RunAll(s, calls))
    decreases calls
  {
    if calls != [] {
      RunOneKeeps(s, calls[0]);
      RunAllKeeps(RunOne(s, calls[0]), calls[1..]);
      EvolvesThrough(s, RunOne(s, calls[0]), RunAll(s, calls));
    }
  }

  lemma {:induction false} RunOneKeeps(s: Latch, p: Plan)
    requires Inv(s)
    ensures Inv(RunOne(s, p)) && Evolves(s, RunOne(s, p))
    decreases p, 9
  {
    if p.Record? { RecordKeeps(s, p); } else { StageKeeps(s, p); }
  }

  /** A record call keeps everything latched; if it returns, it has appended exactly its own entry. */
  lemma {:induction false} RecordKeeps(s: Latch, p: Plan)
    requires Inv(s) && p.Record?
    ensures var r := RecordError(s, p);
            Inv(r.0) && Evolves(s, r.0) && r.0.first.Some? && (r.1 ==> Entered(r.0, s.next, p))
    decreases p, 8
  {
    var mine := Candidate(s.next, p.error, p.stage);
    var begun := Begin(s);
    BeginKeeps(s);
    RunAllKeeps(begun, p.choosing);
    var before := RunAll(begun, p.choosing);
    MissingThrough(begun, before, mine.id);
    ChooseKeeps(before, mine);
    var selected := Choose(before, mine);
    GrowsThrough(begun, before, selected, mine.id, before.next);
    MissingThrough(before, selected, mine.id);
    RunAllKeeps(selected, p.chosen);
    var entered := RunAll(selected, p.chosen);
    GrowsThrough(begun, selected, entered, mine.id, selected.next);
    MissingThrough(selected, entered, mine.id);
    var active := Activate(entered);
    ActivateKeeps(entered);
    var winner := selected.first.value;
    BodyKeeps(active, p, mine, winner);
    var inside := RecordBody(active, p, mine, winner);
    RestoreKeeps(begun, entered, active, inside.0, mine.id);
    var t := inside.0.(recording := entered.recording);
    assert RecordError(s, p).0 == t;
    GrowsThrough(s, begun, t, s.next, s.next);
    if s.first.Some? { RecordSettles(s, begun, before, selected, entered, active, inside.0); }
  }

  lemma RecordSettles(s: Latch, begun: Latch, before: Latch, selected: Latch, entered: Latch, active: Latch, inside: Latch)
    requires Settled(s, begun) && Settled(begun, before) && Settled(before, selected) && Settled(selected, entered)
    requires Settled(entered, active) && Settled(active, inside)
    requires s.log <= begun.log <= before.log <= selected.log <= entered.log <= active.log <= inside.log
    ensures Settled(s, inside)
  {
    SettledThrough(s, begun, before);
    SettledThrough(s, before, selected);
    SettledThrough(s, selected, entered);
    SettledThrough(s, entered, active);
    SettledThrough(s, active, inside);
  }

  /** Exactly one entry of this call is in the list, and it is the call's own stage and error. */
  predicate Entered(s: Latch, id: nat, p: Plan)
    requires p.Record?
  {
    && (exists i :: 0 <= i < |s.failures| && s.failures[i] == Failure(id, p.stage, p.error))
    && forall i, j :: 0 <= i < j < |s.failures| ==> s.failures[i].id != id || s.failures[j].id != id
  }

  lemma ActivateKeeps(s: Latch)
    requires Inv(s)
    ensures Inv(Activate(s)) && Settled(s, Activate(s)) && Activate(s).first == s.first && Activate(s).failures == s.failures
    ensures Activate(s).next == s.next && GrowsFrom(s, Activate(s).(recording := s.recording), s.next)
  {
    RefuseKeeps(s);
    var t := Activate(s);
    assert LogFits(t) by {
      forall i | 0 <= i < |t.log| ensures EventFits(t.log[i], t.snap, t.check, t.pub) {
        assert EventFits(s.log[i], s.snap, s.check, s.pub);
      }
    }
  }

  /** The finally block puts the recorder flag back. */
  lemma RestoreKeeps(begun: Latch, entered: Latch, active: Latch, inside: Latch, id: nat)
    requires GrowsFrom(begun, entered, id) && active == Activate(entered) && GrowsFrom(active, inside, id) && Inv(inside)
    ensures var t := inside.(recording := entered.recording); Inv(t) && GrowsFrom(begun, t, id)
  {
    var t := inside.(recording := entered.recording);
    assert LogFits(t);
    var same := active.(recording := entered.recording);
    assert GrowsFrom(entered, same, id);
    assert GrowsFrom(same, t, id);
    GrowsThrough(begun, entered, same, id, id);
    GrowsThrough(begun, same, t, id, id);
  }

  lemma {:induction false} BodyKeeps(s: Latch, p: Plan, mine: Candidate, winner: Candidate)
    requires Inv(s) && p.Record? && s.first == Some(winner) && Missing(s, mine.id) && s.recording
    ensures var r := RecordBody(s, p, mine, winner);
            && Inv(r.0) && GrowsFrom(s, r.0, mine.id) && (winner != mine ==> Settled(s, r.0))
            && (r.1 ==> Entered(r.0, mine.id, p))
    decreases p, 7
  {
    SnapshotKeeps(s, p, mine, winner);
    var snapped := SnapshotFirst(s, p, mine, winner);
    if snapped.1 {
      MissingThrough(s, snapped.0, mine.id);
      SlotKeeps(snapped.0, p);
      var slotted := FillSlot(snapped.0, p);
      GrowsThrough(s, snapped.0, slotted, mine.id, snapped.0.next);
      MissingThrough(snapped.0, slotted, mine.id);
      AppendFailureKeeps(slotted, p, mine);
      GrowsThrough(s, slotted, AppendFailure(slotted, p, mine).0, mine.id, mine.id);
      if winner != mine {
        SettledThrough(s, snapped.0, slotted);
        SettledThrough(s, slotted, AppendFailure(slotted, p, mine).0);
      }
    }
  }

  lemma {:induction false} SlotKeeps(s: Latch, p: Plan)
    requires Inv(s) && p.Record? && s.first.Some?
    ensures Inv(FillSlot(s, p)) && Evolves(s, FillSlot(s, p))
    decreases p, 6
  {
    RunAllKeeps(s, p.slotting.calls);
    var after := RunAll(s, p.slotting.calls);
    FillKeeps(after, p.slot);
    EvolvesThrough(s, after, Fill(after, p.slot));
  }

  lemma {:induction false} AppendFailureKeeps(s: Latch, p: Plan, mine: Candidate)
    requires Inv(s) && p.Record? && s.first.Some? && Missing(s, mine.id)
    ensures var r := AppendFailure(s, p, mine);
            Inv(r.0) && GrowsFrom(s, r.0, mine.id) && Settled(s, r.0) && (r.1 ==> Entered(r.0, mine.id, p))
    decreases p, 6
  {
    RunAllKeeps(s, p.appending.calls);
    var before := RunAll(s, p.appending.calls);
    if p.appending.raised.Fine? {
      MissingThrough(s, before, mine.id);
      AppendKeeps(before, mine.id, p.stage, p.error);
      var appended := Append(before, mine.id, p.stage, p.error);
      assert GrowsFrom(before, appended, mine.id);
      GrowsThrough(s, before, appended, mine.id, mine.id);
      RunAllKeeps(appended, p.finishing.calls);
      var after := RunAll(appended, p.finishing.calls);
      GrowsThrough(s, appended, after, mine.id, appended.next);
      EntryKept(appended, after, |before.failures|, mine.id, p);
      SettledThrough(s, before, appended);
      SettledThrough(s, appended, after);
    }
  }

  lemma EntryKept(s: Latch, t: Latch, n: nat, id: nat, p: Plan)
    requires Inv(s) && Inv(t) && Grows(s, t) && p.Record? && n < |s.failures| && s.failures[n] == Failure(id, p.stage, p.error)
    ensures Entered(t, id, p)
  {
    assert t.failures[n] == s.failures[n];
    assert FailuresFit(t.failures, t.next);
  }

  // ----- The snapshot -----------------------------------------------------------------------------------------

  lemma {:induction false} SnapshotKeeps(s: Latch, p: Plan, mine: Candidate, winner: Candidate)
    requires Inv(s) && p.Record? && s.first == Some(winner) && mine.id < s.next && s.recording
    ensures var r := SnapshotFirst(s, p, mine, winner);
            Inv(r.0) && Grows(s, r.0) && (winner != mine ==> Settled(s, r.0))
    decreases p, 6
  {
    RunAllKeeps(s, p.entering.calls);
    var here := RunAll(s, p.entering.calls);
    RefuseKeeps(here);
    GrowsThrough(s, here, Refuse(here), s.next, here.next);
    if p.entering.raised.Fine? && winner == mine && p.owner && Unused(here.snap) {
      var later := here.(next := here.next + 1);
      assert LogFits(later);
      assert Grows(here, later);
      GrowsThrough(s, here, later, s.next, here.next);
      ClaimKeeps(later, p, mine, Claim(mine.id, here.next));
      GrowsThrough(s, later, ClaimSnapshot(later, p, mine, Claim(mine.id, here.next)).0, s.next, later.next);
    }
  }

  lemma {:induction false} ClaimKeeps(s: Latch, p: Plan, mine: Candidate, claim: Claim)
    requires Inv(s) && p.Record? && s.first == Some(mine) && Unused(s.snap) && s.recording
    requires claim.winner == mine.id && claim.nonce < s.next
    ensures var r := ClaimSnapshot(s, p, mine, claim); Inv(r.0) && Grows(s, r.0)
    decreases p, 5
  {
    RunAllKeeps(s, p.claiming.calls);
    var here := RunAll(s, p.claiming.calls);
    if p.claiming.raised.Fine? && here.snap.claim.None? {
      StayKeeps(here, claim);
      UnclaimedUnchecked(here);
      GrowsThrough(s, here, Stay(here, claim), s.next, here.next);
      MeasureKeeps(Stay(here, claim), p, mine, claim);
      GrowsThrough(s, Stay(here, claim), MeasureSnapshot(Stay(here, claim), p, mine, claim).0, s.next, here.next);
    }
  }

  lemma UnclaimedUnchecked(s: Latch)
    requires Inv(s) && s.snap.claim.None?
    ensures Unchecked(s.log, 0)
  {
    forall i | 0 <= i < |s.log| ensures !s.log[i].Checked? { assert EventFits(s.log[i], s.snap, s.check, s.pub); }
  }

  /** The creator's claim is in place, not yet completed, and nothing has passed the last check. */
  predicate Reserved(s: Latch, mine: Candidate, claim: Claim) {
    && s.first == Some(mine) && claim.winner == mine.id && s.snap.claim == Some(claim) && s.snap.complete.None?
    && Unchecked(s.log, 0)
  }

  lemma {:induction false} MeasureKeeps(s: Latch, p: Plan, mine: Candidate, claim: Claim)
    requires Inv(s) && p.Record? && Reserved(s, mine, claim) && s.recording
    ensures var r := MeasureSnapshot(s, p, mine, claim); Inv(r.0) && Grows(s, r.0)
    decreases p, 4
  {
    RunAllKeeps(s, p.measuring.calls);
    var here := RunAll(s, p.measuring.calls);
    RefuseKeeps(here);
    GrowsThrough(s, here, Refuse(here), s.next, here.next);
    ReservedKept(s, here, mine, claim);
    if !here.snap.refused {
      var passed := Pass(here, mine.id);
      PassKeeps(here, mine, claim);
      GrowsThrough(s, here, passed, s.next, here.next);
      FinishKeeps(passed, p, mine, claim);
      GrowsThrough(s, passed, FinishSnapshot(passed, p, mine, claim).0, s.next, passed.next);
    }
  }

  lemma ReservedKept(s: Latch, t: Latch, mine: Candidate, claim: Claim)
    requires Reserved(s, mine, claim) && Evolves(s, t)
    ensures Reserved(t, mine, claim)
  {
    forall i | 0 <= i < |t.log| ensures !t.log[i].Checked? {
      if i < |s.log| { assert t.log[i] == s.log[i]; }
    }
  }

  /** The creator has just passed its last check. */
  predicate Passed(s: Latch, mine: Candidate, claim: Claim) {
    && s.first == Some(mine) && claim.winner == mine.id && s.snap.claim == Some(claim) && s.snap.complete.None?
    && s.log != [] && s.log[|s.log| - 1] == Checked(mine.id) && s.recording && !s.snap.refused
  }

  /** What is stored after the window is marked clean exactly if no record call began in it. */
  lemma {:induction false} FinishKeeps(s: Latch, p: Plan, mine: Candidate, claim: Claim)
    requires Inv(s) && p.Record? && Passed(s, mine, claim)
    ensures var r := FinishSnapshot(s, p, mine, claim); Inv(r.0) && Grows(s, r.0)
    decreases p, 3
  {
    RunAllKeeps(s, p.window.calls);
    RunAllTold(s, p.window.calls);
    var here := RunAll(s, p.window.calls);
    RefuseKeeps(here);
    GrowsThrough(s, here, Refuse(here), s.next, here.next);
    assert here.log[|s.log| - 1] == s.log[|s.log| - 1];
    CompleteKeeps(here, |s.log| - 1, mine.id, claim);
    GrowsThrough(s, here, Complete(here, mine.id, claim), s.next, here.next);
  }

  // ----- Publication calls ----------------------------------------------------------------------------------------

  lemma {:induction false} StageKeeps(s: Latch, p: Plan)
    requires Inv(s) && p.Publish?
    ensures Inv(StageCategories(s, p)) && Evolves(s, StageCategories(s, p))
    decreases p, 8
  {
    if p.owner && !s.pub.active && !s.pub.failed {
      var nonce, begun := s.next, Enter(s);
      EnterKeeps(s);
      StageBodyKeeps(begun, p, nonce);
      LeaveKeeps(s, StageBody(begun, p, nonce).0, StageBody(begun, p, nonce).1, nonce);
    }
  }

  lemma EnterKeeps(s: Latch)
    requires Inv(s) && !s.pub.failed
    ensures Inv(Enter(s))
  {
    var t := Enter(s);
    forall i | 0 <= i < |s.log| ensures !s.log[i].Abandoned? && EventFits(s.log[i], t.snap, t.check, t.pub) {
      assert EventFits(s.log[i], s.snap, s.check, s.pub);
    }
    JustifiedAppend(s.log, Attempted(s.next));
    assert LogFits(t) && Orderly(t.log);
  }

  /** Inside a publication nothing else publishes, so its flags are its own when it ends. */
  predicate Inside(begun: Latch, t: Latch) {
    && Grows(begun, t.(pub := begun.pub)) && t.pub.active && !t.pub.failed
    && (begun.first.Some? ==> Settled(begun, t))
  }

  lemma LeaveKeeps(s: Latch, inside: Latch, ok: bool, nonce: nat)
    requires Inv(inside) && !s.pub.active && !s.pub.failed && nonce == s.next && Inside(Enter(s), inside)
    ensures Inv(Leave(inside, ok, nonce)) && Evolves(s, Leave(inside, ok, nonce))
  {
    var t := Leave(inside, ok, nonce);
    forall i | 0 <= i < |inside.log| ensures !inside.log[i].Abandoned? && EventFits(inside.log[i], t.snap, t.check, t.pub) {
      assert EventFits(inside.log[i], inside.snap, inside.check, inside.pub);
    }
    JustifiedAppend(inside.log, Abandoned(nonce));
    assert LogFits(t) && Orderly(t.log);
    assert s.log <= Enter(s).log <= inside.log;
    if s.first.Some? { SettledThrough(s, Enter(s), inside); }
  }

  lemma InsideNext(begun: Latch, t: Latch, u: Latch)
    requires Inside(begun, t) && Grows(t, u) && (t.first.Some? ==> Settled(t, u))
    ensures Inside(begun, u)
  {
    GrowsThrough(begun, t.(pub := begun.pub), u.(pub := begun.pub), begun.next, t.next);
    if begun.first.Some? { SettledThrough(begun, t, u); }
  }

  lemma {:induction false} StageBodyKeeps(s: Latch, p: Plan, nonce: nat)
    requires Inv(s) && p.Publish? && s.pub.active && !s.pub.failed && nonce < s.next
    ensures var r := StageBody(s, p, nonce); Inv(r.0) && Inside(s, r.0)
    decreases p, 7
  {
    RunAllKeeps(s, p.starting.calls);
    var started := RunAll(s, p.starting.calls);
    InsideNext(s, s, started);
    if p.starting.raised.Fine? {
      RunAllKeeps(started, p.claiming.calls);
      var here := RunAll(started, p.claiming.calls);
      InsideNext(s, started, here);
      ReserveKeeps(here, started.first, nonce);
      var reserved := Reserve(here, started.first, nonce);
      InsideNext(s, here, reserved);
      if p.claiming.raised.Fine? { StageCheckKeeps(s, reserved, p, started.first, nonce); }
    }
  }

  lemma {:induction false} StageCheckKeeps(begun: Latch, s: Latch, p: Plan, winner: Option<Candidate>, nonce: nat)
    requires Inv(s) && p.Publish? && Inside(begun, s)
    ensures var r := StageCheck(s, p, winner, nonce); Inv(r.0) && Inside(begun, r.0)
    decreases p, 6
  {
    RunAllKeeps(s, p.checking.calls);
    var here := RunAll(s, p.checking.calls);
    InsideNext(begun, s, here);
    if p.checking.raised.Fine? {
      var held := if winner.Some? then s.check.claim else None;
      var mine := winner.Some? && held == Some(Claim(winner.value.id, nonce)) && here.first == winner;
      if mine {
        ObserveKeeps(here, nonce, held.value, p.category, p.exhausted);
        var seen := Observe(here, nonce, held.value, p.category, p.exhausted);
        InsideNext(begun, here, seen);
        StageWriteKeeps(begun, seen, p);
      } else {
        StageWriteKeeps(begun, here, p);
      }
    }
  }

  lemma {:induction false} StageWriteKeeps(begun: Latch, s: Latch, p: Plan)
    requires Inv(s) && p.Publish? && Inside(begun, s)
    ensures var r := StageWrite(s, p); Inv(r.0) && Inside(begun, r.0)
    decreases p, 5
  {
    RunAllKeeps(s, p.writing.calls);
    var here := RunAll(s, p.writing.calls);
    InsideNext(begun, s, here);
    var written := here.(pub := here.pub.(published := Some(s.slot)));
    forall i | 0 <= i < |here.log| ensures EventFits(here.log[i], written.snap, written.check, written.pub) {
      assert EventFits(here.log[i], here.snap, here.check, here.pub);
    }
    assert LogFits(written);
  }

  // ----- What every run guarantees ----------------------------------------------------------------------------

  lemma InitialFits()
    ensures Inv(Initial())
  {
  }

  lemma {:induction false} RunAllAppend(s: Latch, a: seq<Plan>, b: seq<Plan>)
    ensures RunAll(s, a + b) == RunAll(RunAll(s, a), b)
    decreases |a|
  {
    if a == [] {
      assert a + b == b;
    } else {
      assert (a + b)[1..] == a[1..] + b && (a + b)[0] == a[0];
      RunAllAppend(RunOne(s, a[0]), a[1..], b);
    }
  }

  /** The first error chosen stays the primary error for the rest of the run, however calls nest. */
  lemma FirstErrorWins(before: seq<Plan>, after: seq<Plan>)
    ensures var s, t := RunAll(Initial(), before), RunAll(Initial(), before + after);
            && (t.primary.Some? <==> t.first.Some?) && (t.first.Some? ==> t.primary == Some(t.first.value.error))
            && (s.first.Some? ==> t.first == s.first && t.primary == s.primary)
            && !t.recording && s.failures <= t.failures
  {
    var s := RunAll(Initial(), before);
    InitialFits();
    RunAllKeeps(Initial(), before);
    RunAllKeeps(s, after);
    RunAllAppend(Initial(), before, after);
    EvolvesThrough(Initial(), s, RunAll(s, after));
  }

  /** A record call that returns leaves exactly one entry of its own, and a winner. */
  lemma OneEntryPerCall(before: seq<Plan>, p: Plan)
    requires p.Record?
    ensures var s := RunAll(Initial(), before);
            var r := RecordError(s, p);
            r.0.first.Some? && (r.1 ==> Entered(r.0, s.next, p)) && s.failures <= r.0.failures
  {
    InitialFits();
    RunAllKeeps(Initial(), before);
    RecordKeeps(RunAll(Initial(), before), p);
  }

  /** The snapshot is completed at most once, by the call whose tuple won, under the claim that call created. */
  lemma CreatorOnlyCompletion(calls: seq<Plan>, i: nat)
    requires i < |RunAll(Initial(), calls).log| && RunAll(Initial(), calls).log[i].Completed?
    ensures var t := RunAll(Initial(), calls);
            && t.first.Some? && t.log[i].id == t.first.value.id
            && t.snap.claim == Some(t.log[i].claim) && t.snap.complete == Some(t.log[i].claim)
            && forall j :: 0 <= j < |t.log| && t.log[j].Completed? ==> j == i
  {
    InitialFits();
    RunAllKeeps(Initial(), calls);
    var t := RunAll(Initial(), calls);
    assert EventFits(t.log[i], t.snap, t.check, t.pub);
    forall j | 0 <= j < |t.log| && t.log[j].Completed? ensures j == i {
      assert j < i ==> Follows(t.log[j], t.log[i]);
      assert i < j ==> Follows(t.log[i], t.log[j]);
    }
  }

  /** The category observation is made at most once, by the invocation whose nonce the claim carries, for the winner. */
  lemma ClaimantOnlyObservation(calls: seq<Plan>, i: nat)
    requires i < |RunAll(Initial(), calls).log| && RunAll(Initial(), calls).log[i].Observed?
    ensures var t := RunAll(Initial(), calls);
            && t.check.claim == Some(t.log[i].claim) && t.log[i].claim.nonce == t.log[i].nonce
            && t.first.Some? && t.log[i].claim.winner == t.first.value.id
            && forall j :: 0 <= j < |t.log| && t.log[j].Observed? ==> j == i
  {
    InitialFits();
    RunAllKeeps(Initial(), calls);
    var t := RunAll(Initial(), calls);
    assert EventFits(t.log[i], t.snap, t.check, t.pub);
    forall j | 0 <= j < |t.log| && t.log[j].Observed? ensures j == i {
      assert j < i ==> Follows(t.log[j], t.log[i]);
      assert i < j ==> Follows(t.log[i], t.log[j]);
    }
  }

  /** After a publication has failed, no publication is attempted again. */
  lemma NeverRetried(calls: seq<Plan>, i: nat, j: nat)
    requires i < j < |RunAll(Initial(), calls).log| && RunAll(Initial(), calls).log[i].Abandoned?
    ensures var t := RunAll(Initial(), calls); t.pub.failed && !t.log[j].Attempted? && !t.log[j].Abandoned?
  {
    InitialFits();
    RunAllKeeps(Initial(), calls);
    var t := RunAll(Initial(), calls);
    assert Follows(t.log[i], t.log[j]) && EventFits(t.log[i], t.snap, t.check, t.pub);
  }

  // ----- Refusals and completion ----------------------------------------------------------------------------------

  /** No record call began between the two states. */
  predicate Undisturbed(s: Latch, t: Latch) {
    forall i :: |s.log| <= i < |t.log| ==> !t.log[i].Began?
  }

  /** Under an active recorder, the snapshot is refused if a record call began and untouched otherwise. */
  predicate Told(s: Latch, t: Latch) {
    (&& s.log <= t.log && (s.snap.refused ==> t.snap.refused) && t.recording == s.recording
     && (if Undisturbed(s, t) then t.snap == s.snap else t.snap.refused)) == true
  }

  lemma ToldThrough(s: Latch, t: Latch, u: Latch)
    requires Told(s, t) && Told(t, u)
    ensures Told(s, u)
  {
    if Undisturbed(s, t) && Undisturbed(t, u) {
      forall i | |s.log| <= i < |u.log| ensures !u.log[i].Began? {
        if i < |t.log| { assert u.log[i] == t.log[i]; }
      }
    } else if !Undisturbed(s, t) {
      var i :| |s.log| <= i < |t.log| && t.log[i].Began?;
      assert u.log[i] == t.log[i];
    } else {
      var i :| |t.log| <= i < |u.log| && u.log[i].Began?;
    }
  }

  lemma {:induction false} RunAllTold(s: Latch, calls: seq<Plan>)
    requires Inv(s) && s.recording
    ensures Told(s, RunAll(s, calls))
    decreases calls
  {
    if calls != [] {
      var t := RunOne(s, calls[0]);
      RunOneKeeps(s, calls[0]);
      if calls[0].Record? { RecordTold(s, calls[0]); } else { StageTold(s, calls[0]); }
      RunAllTold(t, calls[1..]);
      ToldThrough(s, t, RunAll(s, calls));
    }
  }

  lemma {:induction false} StageTold(s: Latch, p: Plan)
    requires Inv(s) && s.recording && p.Publish?
    ensures Told(s, StageCategories(s, p))
    decreases p, 8
  {
    if p.owner && !s.pub.active && !s.pub.failed {
      EnterKeeps(s);
      StageBodyTold(Enter(s), p, s.next);
      var inside := StageBody(Enter(s), p, s.next);
      ToldThrough(s, Enter(s), inside.0);
      ToldThrough(s, inside.0, Leave(inside.0, inside.1, s.next));
    }
  }

  lemma {:induction false} StageBodyTold(s: Latch, p: Plan, nonce: nat)
    requires Inv(s) && s.recording && p.Publish? && nonce < s.next
    ensures Told(s, StageBody(s, p, nonce).0)
    decreases p, 7
  {
    RunAllKeeps(s, p.starting.calls);
    RunAllTold(s, p.starting.calls);
    var started := RunAll(s, p.starting.calls);
    if p.starting.raised.Fine? {
      RunAllKeeps(started, p.claiming.calls);
      RunAllTold(started, p.claiming.calls);
      var here := RunAll(started, p.claiming.calls);
      ToldThrough(s, started, here);
      var reserved := Reserve(here, started.first, nonce);
      ReserveKeeps(here, started.first, nonce);
      ToldThrough(s, here, reserved);
      if p.claiming.raised.Fine? {
        StageCheckTold(reserved, p, started.first, nonce);
        ToldThrough(s, reserved, StageCheck(reserved, p, started.first, nonce).0);
      }
    }
  }

  lemma {:induction false} StageCheckTold(s: Latch, p: Plan, winner: Option<Candidate>, nonce: nat)
    requires Inv(s) && s.recording && p.Publish?
    ensures Told(s, StageCheck(s, p, winner, nonce).0)
    decreases p, 6
  {
    RunAllKeeps(s, p.checking.calls);
    RunAllTold(s, p.checking.calls);
    var here := RunAll(s, p.checking.calls);
    if p.checking.raised.Fine? {
      var held := if winner.Some? then s.check.claim else None;
      var mine := winner.Some? && held == Some(Claim(winner.value.id, nonce)) && here.first == winner;
      var seen := if mine then Observe(here, nonce, held.value, p.category, p.exhausted) else here;
      if mine { ObserveKeeps(here, nonce, held.value, p.category, p.exhausted); }
      assert Told(here, seen);
      ToldThrough(s, here, seen);
      StageWriteTold(seen, p);
      ToldThrough(s, seen, StageWrite(seen, p).0);
    }
  }

  lemma {:induction false} StageWriteTold(s: Latch, p: Plan)
    requires Inv(s) && s.recording && p.Publish?
    ensures Told(s, StageWrite(s, p).0)
    decreases p, 5
  {
    RunAllTold(s, p.writing.calls);
  }

  /** A record call made while another one is recording refuses the snapshot. */
  lemma {:induction false} RecordTold(s: Latch, p: Plan)
    requires Inv(s) && p.Record? && s.recording
    ensures Told(s, RecordError(s, p).0) && RecordError(s, p).0.snap.refused
    decreases p, 9
  {
    var mine := Candidate(s.next, p.error, p.stage);
    var begun := Begin(s);
    BeginKeeps(s);
    RunAllKeeps(begun, p.choosing);
    var before := RunAll(begun, p.choosing);
    ChooseKeeps(before, mine);
    var selected := Choose(before, mine);
    RunAllKeeps(selected, p.chosen);
    var entered := RunAll(selected, p.chosen);
    ActivateKeeps(entered);
    MissingThrough(begun, before, mine.id);
    MissingThrough(before, selected, mine.id);
    MissingThrough(selected, entered, mine.id);
    BodyKeeps(Activate(entered), p, mine, selected.first.value);
    var t := RecordError(s, p).0;
    assert begun.log <= before.log <= entered.log <= t.log;
    assert t.log[|s.log|] == begun.log[|s.log|];
  }

  /**
   * In every run a completion follows the one check that passed, made by the same call,
   * and it comes after no refusal exactly if no record call began between the two.
   */
  lemma CleanCompletionExactly(calls: seq<Plan>, j: nat)
    requires j < |RunAll(Initial(), calls).log| && RunAll(Initial(), calls).log[j].Completed?
    ensures var log := RunAll(Initial(), calls).log;
            exists i :: && 0 <= i < j && log[i] == Checked(log[j].id) && (forall k :: 0 <= k < |log| && log[k].Checked? ==> k == i)
                        && (log[j].clean <==> NoneBegan(log, i + 1, j))
  {
    InitialFits();
    RunAllKeeps(Initial(), calls);
    var log := RunAll(Initial(), calls).log;
    var i :| 0 <= i < j && JustifiedBy(log, i, j);
    forall k | 0 <= k < |log| && log[k].Checked? ensures k == i {
      assert k < i ==> Follows(log[k], log[i]);
      assert i < k ==> Follows(log[i], log[k]);
    }
  }

  function Quiet(stage: string, error: Error, window: seq<Plan>): Plan {
    var none := Hook([], Fine);
    Record(stage, error, true, [], [], none, none, none, true, true, Hook(window, Fine), none, None, none, none)
  }

  lemma QuietEnding(s: Latch, stage: string, error: Error, window: seq<Plan>, mine: Candidate)
    ensures var p := Quiet(stage, error, window);
            AppendFailure(FillSlot(s, p), p, mine) == (Append(s, mine.id, stage, error), true)
  {
    var p := Quiet(stage, error, window);
    assert RunAll(s, p.slotting.calls) == s;
    assert FillSlot(s, p) == s;
    assert RunAll(s, p.appending.calls) == s;
  }

  lemma LosingBody(s: Latch, stage: string, error: Error, mine: Candidate, winner: Candidate)
    requires winner != mine && s.snap.refused
    ensures RecordBody(s, Quiet(stage, error, []), mine, winner) == (Append(s, mine.id, stage, error), true)
  {
    var p := Quiet(stage, error, []);
    assert RunAll(s, p.entering.calls) == s;
    assert SnapshotFirst(s, p, mine, winner) == (s, true);
    QuietEnding(s, stage, error, [], mine);
  }

  lemma QuietRecord(s: Latch, stage: string, error: Error, window: seq<Plan>)
    ensures var mine := Candidate(s.next, error, stage);
            var chosen := Choose(Begin(s), mine);
            var inside := RecordBody(Activate(chosen), Quiet(stage, error, window), mine, chosen.first.value);
            RecordError(s, Quiet(stage, error, window)) == (inside.0.(recording := chosen.recording), inside.1)
  {
    var p := Quiet(stage, error, window);
    var begun := Begin(s);
    assert RunAll(begun, p.choosing) == begun;
    var chosen := Choose(begun, Candidate(s.next, error, stage));
    assert RunAll(chosen, p.chosen) == chosen;
  }

  /** The winning call's snapshot, when all its checks pass and nothing interrupts it before the window. */
  lemma WinningSnapshot(s: Latch, stage: string, error: Error, window: seq<Plan>, mine: Candidate)
    requires s.first == Some(mine) && Unused(s.snap)
    ensures var claimed := Stay(s.(next := s.next + 1), Claim(mine.id, s.next));
            SnapshotFirst(s, Quiet(stage, error, window), mine, mine) ==
              (Complete(RunAll(Pass(claimed, mine.id), window), mine.id, Claim(mine.id, s.next)), true)
  {
    var p := Quiet(stage, error, window);
    var claim := Claim(mine.id, s.next);
    var claimed := Stay(s.(next := s.next + 1), claim);
    assert RunAll(s, p.entering.calls) == s;
    assert RunAll(s.(next := s.next + 1), p.claiming.calls) == s.(next := s.next + 1);
    assert RunAll(claimed, p.measuring.calls) == claimed;
    assert MeasureSnapshot(claimed, p, mine, claim) == FinishSnapshot(Pass(claimed, mine.id), p, mine, claim);
  }

  /** A snapshot can end up both completed and refused: a second error arrives inside that window. */
  lemma CompletedThoughRefused()
    ensures var t := RunAll(Initial(), [Quiet("phase", 1, [Quiet("phase", 2, [])])]);
            t.snap.complete.Some? && t.snap.refused && t.primary == Some(1) && |t.failures| == 2
  {
    var inner, mine := Quiet("phase", 2, []), Candidate(0, 1, "phase");
    var active := Activate(Choose(Begin(Initial()), mine));
    var claimed := Stay(active.(next := 2), Claim(0, 1));
    var passed := Pass(claimed, 0);
    LosingRecord(passed, "phase", 2);
    var within := RunAll(passed, [inner]);
    WinningSnapshot(active, "phase", 1, [inner], mine);
    var completed := Complete(within, 0, Claim(0, 1));
    QuietEnding(completed, "phase", 1, [inner], mine);
    QuietRecord(Initial(), "phase", 1, [inner]);
    RunSingle(Initial(), Quiet("phase", 1, [inner]));
  }

  /** A record call that loses to an earlier one, made while that one is recording. */
  lemma LosingRecord(s: Latch, stage: string, error: Error)
    requires s.recording && s.first.Some? && s.first.value.id < s.next && s.primary == Some(s.first.value.error)
    ensures RunAll(s, [Quiet(stage, error, [])]) == Append(Refuse(Begin(s)), s.next, stage, error)
  {
    var mine := Candidate(s.next, error, stage);
    QuietRecord(s, stage, error, []);
    assert Choose(Begin(s), mine) == Begin(s);
    assert Activate(Begin(s)) == Refuse(Begin(s));
    LosingBody(Refuse(Begin(s)), stage, error, mine, s.first.value);
    RunSingle(s, Quiet(stage, error, []));
  }

  lemma RunSingle(s: Latch, p: Plan)
    requires p.Record?
    ensures RunAll(s, [p]) == RecordError(s, p).0
  {
    assert RunAll(RunOne(s, p), []) == RunOne(s, p);
  }
}
