/** Whole runs of an observation group: the owner's moves and the browser's events, in any order. */
module ObservationRuns {
  import opened Prelude
  import opened ObservationModel
  import opened ObservationInvariants
  import RootsPages

  /** One uninterrupted piece of work of the dispatcher or of the owner. */
  datatype Move =
    | Happened(event: Event)
    | Guarded
    | GaveUp(error: string)
    | Armed(path: string, family: Family)
    | Digested(scope: nat, member: nat)
    | Froze
    | BeganSettling
    | BeganFinalizing
    | Detached(scope: nat)
    | Seals
    | Refuses(error: string)

  /** checkpoint() freezes an open group whose guard passes and whose scopes all have members. */
  predicate CanFreeze(s: State) {
    && s.phase == Open && GuardPasses(s, true)
    && s.scopes != [] && forall k :: 0 <= k < |s.scopes| ==> s.scopes[k].members != []
  }

  function Take(s: State, move: Move, imaging: Imaging): State {
    match move
    case Happened(e) => Apply(s, e)
    case Guarded => ObserveAll(s)
    case GaveUp(error) => Poison(s, error)
    case Armed(path, family) => if CanArm(s, path) then Arm(s, path, family, RootsPages.Queries(family)) else s
    case Digested(k, i) => Digest(s, k, i, imaging)
    case Froze => if CanFreeze(s) then s.(phase := Frozen) else s
    case BeganSettling => if s.phase == Frozen then s.(phase := Settling) else s
    case BeganFinalizing => if s.phase == Settling then s.(phase := Finalizing) else s
    case Detached(k) =>
      if s.phase == Finalizing && k < |s.scopes| then WithScope(s, k, DetachWakes(s.scopes[k])) else s
    case Seals =>
      if s.phase == Finalizing && GuardPasses(s, true) then s.(phase := Finalized, armed := false) else s
    case Refuses(error) => Refuse(s, error)
  }

  function Digest(s: State, k: nat, i: nat, imaging: Imaging): State {
    if HasMember(s, k, i) && DigestMember(s.scopes[k], i, imaging).Some?
    then WithScope(s, k, DigestMember(s.scopes[k], i, imaging).value)
    else s
  }

  /** Any interleaving of moves. */
  function Replay(s: State, moves: seq<Move>, imaging: Imaging): State
    decreases |moves|
  {
    if moves == [] then s else Replay(Take(s, moves[0], imaging), moves[1..], imaging)
  }

  lemma {:induction false} ReplayAppend(s: State, moves: seq<Move>, more: seq<Move>, imaging: Imaging)
    ensures Replay(s, moves + more, imaging) == Replay(Replay(s, moves, imaging), more, imaging)
    decreases |moves|
  {
    if moves == [] {
      assert moves + more == more;
    } else {
      assert (moves + more)[1..] == moves[1..] + more;
      ReplayAppend(Take(s, moves[0], imaging), moves[1..], more, imaging);
    }
  }

  lemma ReplayOne(s: State, moves: seq<Move>, move: Move, imaging: Imaging)
    ensures Replay(s, moves + [move], imaging) == Take(Replay(s, moves, imaging), move, imaging)
  {
    ReplayAppend(s, moves, [move], imaging);
    var t := Replay(s, moves, imaging);
    assert Replay(t, [move], imaging) == Replay(Take(t, move, imaging), [], imaging);
  }

  // ----- What no move takes back -----------------------------------------------------------------

  /** The order in which the owner goes through the phases. */
  function Rank(phase: Phase): nat {
    match phase
    case Open => 0
    case Frozen => 1
    case Settling => 2
    case Finalizing => 3
    case Finalized => 4
    case Refused => 5
  }

  /** Scopes are added while the group is open, and every scope moves forward only. */
  predicate ScopesContinue(open: bool, scopes: seq<Scope>, tos: seq<Scope>) {
    && |scopes| <= |tos| && (!open ==> |scopes| == |tos|)
    && forall k :: 0 <= k < |scopes| ==> ScopeEvolves(open, scopes[k], tos[k])
  }

  /** A failure, a poisoning and an invalid scope stay; so does everything a scope has learned. */
  predicate Continues(s: State, t: State) {
    (&& t.session == s.session && Rank(s.phase) <= Rank(t.phase) && (t.armed ==> s.armed)
     && s.page.sequence <= t.page.sequence && s.page.redirected <= t.page.redirected
     && (s.poisoned ==> t.poisoned)
     && (s.failure.Some? ==> t.failure == s.failure)
     && ScopesContinue(s.phase == Open, s.scopes, t.scopes)) == true
  }

  lemma EvolvesContinues(s: State, t: State)
    requires Evolves(s, t)
    ensures Continues(s, t)
  {
  }

  lemma ScopeContinues(open: bool, later: bool, a: Scope, b: Scope, c: Scope)
    requires ScopeEvolves(open, a, b) && ScopeEvolves(later, b, c) && (later ==> open)
    ensures ScopeEvolves(open, a, c)
  {
    forall i | 0 <= i < |a.members| ensures MemberEvolves(a.members[i], c.members[i]) {
      assert MemberEvolves(a.members[i], b.members[i]) && MemberEvolves(b.members[i], c.members[i]);
    }
  }

  lemma ContinuesTransitive(s: State, t: State, u: State)
    requires Continues(s, t) && Continues(t, u)
    ensures Continues(s, u)
  {
    forall k | 0 <= k < |s.scopes| ensures ScopeEvolves(s.phase == Open, s.scopes[k], u.scopes[k]) {
      assert ScopeEvolves(s.phase == Open, s.scopes[k], t.scopes[k]);
      assert ScopeEvolves(t.phase == Open, t.scopes[k], u.scopes[k]);
      ScopeContinues(s.phase == Open, t.phase == Open, s.scopes[k], t.scopes[k], u.scopes[k]);
    }
  }

  lemma DigestKeeps(s: State, k: nat, i: nat, imaging: Imaging)
    requires Inv(s, imaging)
    ensures StateStep(s, Digest(s, k, i, imaging), imaging)
  {
    if HasMember(s, k, i) && DigestMember(s.scopes[k], i, imaging).Some? {
      DigestStep(s, k, i, imaging);
    } else {
      ScopesEvolveReflexive(s.phase == Open, s.scopes);
    }
  }

  lemma RefuseKeeps(s: State, error: string, imaging: Imaging)
    requires Inv(s, imaging)
    ensures Inv(Refuse(s, error), imaging) && Continues(s, Refuse(s, error))
    ensures var t := Refuse(s, error); t.phase == Refused && !t.armed && t.poisoned && t.failure.Some? && Doomed(t)
  {
    ObserveAllStep(s, imaging);
    var seen := ObserveAll(s);
    var refused := seen.(phase := Refused);
    EvolvesContinues(s, seen);
    InvPhase(seen, Refused, seen.armed, imaging);
    PhaseContinues(seen, Refused, seen.armed);
    ContinuesTransitive(s, seen, refused);
    PoisonStep(refused, error, imaging);
    var last := Poison(refused, error);
    EvolvesContinues(refused, last);
    InvPhase(last, Refused, false, imaging);
    PhaseContinues(last, Refused, false);
    ContinuesTransitive(s, refused, last);
    ContinuesTransitive(s, last, Refuse(s, error));
  }

  lemma PhaseContinues(s: State, phase: Phase, armed: bool)
    requires Rank(s.phase) <= Rank(phase) && (armed ==> s.armed)
    ensures Continues(s, s.(phase := phase, armed := armed))
  {
    ScopesEvolveReflexive(s.phase == Open, s.scopes);
  }

  lemma ArmKeeps(s: State, path: string, family: Family, queries: seq<Fields>, imaging: Imaging)
    requires Inv(s, imaging) && CanArm(s, path)
    ensures Inv(Arm(s, path, family, queries), imaging) && Continues(s, Arm(s, path, family, queries))
  {
    ArmStep(s, path, family, queries, imaging);
    ScopesEvolveReflexive(true, s.scopes);
  }

  /** A move that leaves the phase alone only moves forward. */
  lemma SteadyKeeps(s: State, move: Move, imaging: Imaging)
    requires Inv(s, imaging)
    requires move.Happened? || move.Guarded? || move.GaveUp? || move.Digested? || move.Detached?
    ensures StateStep(s, Take(s, move, imaging), imaging)
  {
    match move
    case Happened(e) => ApplyStep(s, e, imaging);
    case Guarded => ObserveAllStep(s, imaging);
    case GaveUp(error) => PoisonStep(s, error, imaging);
    case Digested(k, i) => DigestKeeps(s, k, i, imaging);
    case Detached(k) =>
      if s.phase == Finalizing && k < |s.scopes| {
        DetachStep(s, k, imaging);
      } else {
        ScopesEvolveReflexive(s.phase == Open, s.scopes);
      }
  }

  /** Every move keeps the invariant and takes nothing back. */
  lemma TakeKeeps(s: State, move: Move, imaging: Imaging)
    requires Inv(s, imaging)
    ensures Inv(Take(s, move, imaging), imaging) && Continues(s, Take(s, move, imaging))
  {
    var t := Take(s, move, imaging);
    match move
    case Armed(path, family) =>
      PhaseContinues(s, s.phase, s.armed);
      if CanArm(s, path) { ArmKeeps(s, path, family, RootsPages.Queries(family), imaging); }
    case Refuses(error) => RefuseKeeps(s, error, imaging);
    case Froze => PhaseKeeps(s, t, imaging);
    case BeganSettling => PhaseKeeps(s, t, imaging);
    case BeganFinalizing => PhaseKeeps(s, t, imaging);
    case Seals => PhaseKeeps(s, t, imaging);
    case _ =>
      SteadyKeeps(s, move, imaging);
      EvolvesContinues(s, t);
  }

  lemma PhaseKeeps(s: State, t: State, imaging: Imaging)
    requires Inv(s, imaging) && t == s.(phase := t.phase, armed := t.armed)
    requires Rank(s.phase) <= Rank(t.phase) && (t.armed ==> s.armed)
    ensures Inv(t, imaging) && Continues(s, t)
  {
    InvPhase(s, t.phase, t.armed, imaging);
    PhaseContinues(s, t.phase, t.armed);
  }

  /** The same for every run. */
  lemma {:induction false} ReplayKeeps(s: State, moves: seq<Move>, imaging: Imaging)
    requires Inv(s, imaging)
    ensures Inv(Replay(s, moves, imaging), imaging) && Continues(s, Replay(s, moves, imaging))
    decreases |moves|
  {
    if moves == [] {
      PhaseContinues(s, s.phase, s.armed);
    } else {
      var t := Take(s, moves[0], imaging);
      TakeKeeps(s, moves[0], imaging);
      ReplayKeeps(t, moves[1..], imaging);
      ContinuesTransitive(s, t, Replay(s, moves, imaging));
    }
  }

  // ----- Runs that can no longer be sealed ----------------------------------------------------------

  lemma DoomedStays(s: State, t: State)
    requires Doomed(s) && Continues(s, t)
    ensures Doomed(t)
  {
    if s.failure.None? && !s.poisoned {
      var k :| 0 <= k < |s.scopes| && s.scopes[k].track.invalid;
      assert ScopeEvolves(s.phase == Open, s.scopes[k], t.scopes[k]);
      assert t.scopes[k].track.invalid;
    }
  }

  lemma GuardedNotDoomed(s: State)
    requires GuardPasses(s, true)
    ensures !Doomed(s)
  {
    forall k | 0 <= k < |s.scopes| ensures !s.scopes[k].track.invalid {
      assert Current(s.page, s.poisoned, s.scopes[k]);
    }
  }

  /** Once doomed, a group stays doomed and unsealed, whatever the owner and the browser do next. */
  lemma {:induction false} DoomedNeverSeals(s: State, moves: seq<Move>, imaging: Imaging)
    requires Inv(s, imaging) && Doomed(s)
    ensures Doomed(Replay(s, moves, imaging))
    ensures s.phase != Finalized ==> Replay(s, moves, imaging).phase != Finalized
    decreases |moves|
  {
    if moves != [] {
      var t := Take(s, moves[0], imaging);
      TakeKeeps(s, moves[0], imaging);
      DoomedStays(s, t);
      if s.phase != Finalized && t.phase == Finalized { UnsealedTake(s, moves[0], imaging); }
      DoomedNeverSeals(t, moves[1..], imaging);
    }
  }

  /** Only Seals finalizes, and only past a guard. */
  lemma UnsealedTake(s: State, move: Move, imaging: Imaging)
    requires Inv(s, imaging) && s.phase != Finalized && Take(s, move, imaging).phase == Finalized
    ensures move == Seals && !Doomed(s)
  {
    match move
    case Refuses(error) => RefuseKeeps(s, error, imaging);
    case Armed(_, _) =>
    case Froze =>
    case BeganSettling =>
    case BeganFinalizing =>
    case Seals => GuardedNotDoomed(s);
    case _ => SteadyKeeps(s, move, imaging);
  }
}
