/**
 * What every schedule of native events keeps: the scope invariant, and the
 * one-way evolution of members, latches and document lineage.
 */
module ObservationInvariants {
  import opened Prelude
  import opened ObservationModel

  // ----- The invariant ------------------------------------------------------------------

  /** When and where an admitted member's request started. */
  predicate Admitted(base: string, q: nat, decl: Declaration, commit: Option<nat>, m: Member) {
    && decl.armed < m.sequence <= q
    && (decl.mode == NewDocument ==> commit.Some? && commit.value < m.sequence)
    && m.request.mainFrame && m.request.verb == "GET" && !m.request.redirectedFrom
    && AtEndpoint(base, decl.path, m.request.url)
    && QueryMatches(decl.queries, m.request.url) && m.query == m.request.url.query.fields
  }

  /** What has been accepted for a member so far. */
  predicate Accepted(family: Family, images: map<Fields, string>, m: Member, imaging: Imaging) {
    && (m.response.None? <==> m.task.NoTask?)
    && (m.response.Some? ==> m.response.value.request == m.request && m.response.value.status == 200)
    && (m.outcome.Some? ==> m.task.Done? && m.outcome.value == OutcomeOf(m.task.result))
    && (m.json.Some? ==>
          && m.task == Done(Bytes(m.json))
          && m.query in images
          && imaging(family, m.json.value, m.query) == Some(images[m.query]))
  }

  /** Members are kept in start order, so sequence numbers identify them. */
  predicate Ordered(ms: seq<Member>) {
    forall i, j {:trigger Earlier(ms[i], ms[j])} :: 0 <= i < j < |ms| ==> Earlier(ms[i], ms[j])
  }

  predicate Earlier(m: Member, n: Member) {
    m.sequence < n.sequence
  }

  /** Members of a scope are pairwise different native requests. */
  predicate DistinctRequests(ms: seq<Member>) {
    forall i, j {:trigger Apart(ms[i], ms[j])} :: 0 <= i < j < |ms| ==> Apart(ms[i], ms[j])
  }

  predicate Apart(m: Member, n: Member) {
    m.request != n.request
  }

  lemma OrderedAt(ms: seq<Member>, i: nat, j: nat)
    requires Ordered(ms) && i < j < |ms|
    ensures ms[i].sequence < ms[j].sequence
  {
    assert Earlier(ms[i], ms[j]);
  }

  /** Order and distinctness depend on sequence numbers and requests only. */
  lemma SameStarts(ms: seq<Member>, ns: seq<Member>)
    requires Ordered(ms) && DistinctRequests(ms) && |ns| == |ms|
    requires forall i :: 0 <= i < |ms| ==> ns[i].request == ms[i].request && ns[i].sequence == ms[i].sequence
    ensures Ordered(ns) && DistinctRequests(ns)
  {
    forall i, j | 0 <= i < j < |ns| ensures Earlier(ns[i], ns[j]) && Apart(ns[i], ns[j]) {
      assert Earlier(ms[i], ms[j]) && Apart(ms[i], ms[j]);
    }
  }

  /** The sequence numbers of the members that have an outcome, with multiplicity. */
  function Recorded(ms: seq<Member>): multiset<nat> {
    if ms == [] then multiset{}
    else Recorded(ms[..|ms| - 1])
         + if ms[|ms| - 1].outcome.Some? then multiset{ms[|ms| - 1].sequence} else multiset{}
  }

  /** Arm, own navigation request and commit happen in this order or not at all. */
  predicate LineageInv(q: nat, decl: Declaration, t: Track) {
    && decl.armed <= q
    && (t.navigation.Some? <==> t.asked.Some?)
    && (t.navigation.Some? ==> decl.mode == NewDocument && decl.armed < t.asked.value <= q)
    && (t.commit.Some? ==> decl.mode == NewDocument && t.navigation.Some?
                           && t.asked.value < t.commit.value <= q
                           && t.lineage == t.navigation && t.reached)
    && (decl.mode == NewDocument && t.commit.None? ==> t.lineage.None? && !t.reached)
  }

  predicate MembersInv(base: string, q: nat, decl: Declaration, commit: Option<nat>, ms: seq<Member>) {
    && Ordered(ms) && DistinctRequests(ms)
    && forall i :: 0 <= i < |ms| ==> Admitted(base, q, decl, commit, ms[i])
  }

  predicate BodiesInv(family: Family, images: map<Fields, string>, ms: seq<Member>, imaging: Imaging) {
    forall i :: 0 <= i < |ms| ==> Accepted(family, images, ms[i], imaging)
  }

  predicate ScopeInv(base: string, q: nat, sc: Scope, imaging: Imaging) {
    && LineageInv(q, sc.decl, sc.track)
    && MembersInv(base, q, sc.decl, sc.track.commit, sc.members)
    && BodiesInv(sc.decl.family, sc.images, sc.members, imaging)
    && multiset(sc.settled) == Recorded(sc.members)
  }

  predicate ScopesInv(session: Session, q: nat, scopes: seq<Scope>, imaging: Imaging) {
    && (forall k :: 0 <= k < |scopes| ==> ScopeInv(session.base, q, scopes[k], imaging))
    && (forall k :: 0 <= k < |scopes| ==>
          scopes[k].decl.mode == session.mode && scopes[k].decl.target == session.target)
    && (forall j, k :: 0 <= j < k < |scopes| ==> scopes[j].decl.path != scopes[k].decl.path)
  }

  /** (Comparing with `true` makes the verifier treat a conjunction as one goal instead of many.) */
  predicate Inv(s: State, imaging: Imaging) {
    ScopesInv(s.session, s.page.sequence, s.scopes, imaging) == true
  }

  // ----- One-way evolution ---------------------------------------------------------------

  predicate MemberEvolves(m: Member, n: Member) {
    && n.request == m.request && n.sequence == m.sequence && n.query == m.query
    && (m.response.Some? ==> n.response == m.response)
    && (m.task.Done? ==> n.task == m.task)
    && (m.outcome.Some? ==> n.outcome == m.outcome)
    && (m.finished ==> n.finished)
    && (m.json.Some? ==> n.json == m.json)
  }

  predicate TrackEvolves(t: Track, u: Track) {
    && (t.lineage.Some? ==> u.lineage == t.lineage)
    && (t.navigation.Some? ==> u.navigation == t.navigation && u.asked == t.asked)
    && (t.commit.Some? ==> u.commit == t.commit)
    && (t.reached ==> u.reached) && (t.invalid ==> u.invalid) && (t.aborted ==> u.aborted)
  }

  predicate MembersEvolve(open: bool, ms: seq<Member>, ns: seq<Member>) {
    && |ms| <= |ns| && (!open ==> |ms| == |ns|)
    && forall i :: 0 <= i < |ms| ==> MemberEvolves(ms[i], ns[i])
  }

  predicate ScopeEvolves(open: bool, sc: Scope, to: Scope) {
    && to.decl == sc.decl
    && (forall q :: q in sc.images ==> q in to.images && to.images[q] == sc.images[q])
    && TrackEvolves(sc.track, to.track) && MembersEvolve(open, sc.members, to.members)
  }

  predicate ScopesEvolve(open: bool, scopes: seq<Scope>, tos: seq<Scope>) {
    && |tos| == |scopes|
    && forall k :: 0 <= k < |scopes| ==> ScopeEvolves(open, scopes[k], tos[k])
  }

  /** Events never move the owner's phase, and everything else only moves forward. */
  predicate Evolves(s: State, t: State) {
    (&& t.session == s.session && t.phase == s.phase && t.armed == s.armed
     && s.page.sequence <= t.page.sequence && s.page.redirected <= t.page.redirected
     && (s.poisoned ==> t.poisoned)
     && (s.failure.Some? ==> t.failure == s.failure)
     && ScopesEvolve(s.phase == Open, s.scopes, t.scopes)) == true
  }

  /** The invariant does not depend on the owner's phase or on whether events still arrive. */
  lemma InvPhase(s: State, phase: Phase, armed: bool, imaging: Imaging)
    requires Inv(s, imaging)
    ensures Inv(s.(phase := phase), imaging) && Inv(s.(phase := phase, armed := armed), imaging)
  {
  }

  lemma ScopesEvolveTransitive(open: bool, a: seq<Scope>, b: seq<Scope>, c: seq<Scope>)
    requires ScopesEvolve(open, a, b) && ScopesEvolve(open, b, c)
    ensures ScopesEvolve(open, a, c)
  {
    forall k | 0 <= k < |a| ensures ScopeEvolves(open, a[k], c[k]) {
      assert ScopeEvolves(open, a[k], b[k]) && ScopeEvolves(open, b[k], c[k]);
      forall i | 0 <= i < |a[k].members| ensures MemberEvolves(a[k].members[i], c[k].members[i]) {
        assert MemberEvolves(a[k].members[i], b[k].members[i]);
        assert MemberEvolves(b[k].members[i], c[k].members[i]);
      }
    }
  }

  lemma ScopesEvolveReflexive(open: bool, scopes: seq<Scope>)
    ensures ScopesEvolve(open, scopes, scopes)
  {
  }

  lemma EvolvesTransitive(a: State, b: State, c: State)
    requires Evolves(a, b) && Evolves(b, c)
    ensures Evolves(a, c)
  {
    ScopesEvolveTransitive(a.phase == Open, a.scopes, b.scopes, c.scopes);
  }

  // ----- One member, one scope ---------------------------------------------------------------

  /** Recorded depends on sequences and outcomes only. */
  lemma {:induction false} RecordedSame(ms: seq<Member>, ns: seq<Member>)
    requires |ms| == |ns|
    requires forall i :: 0 <= i < |ms| ==> ns[i].sequence == ms[i].sequence && ns[i].outcome == ms[i].outcome
    ensures Recorded(ns) == Recorded(ms)
  {
    if ms != [] { RecordedSame(ms[..|ms| - 1], ns[..|ms| - 1]); }
  }

  lemma {:induction false} RecordedAt(ms: seq<Member>, i: nat, n: Member)
    requires i < |ms| && ms[i].outcome.None? && n.outcome.Some? && n.sequence == ms[i].sequence
    ensures Recorded(ms[i := n]) == Recorded(ms) + multiset{n.sequence}
  {
    var last, ns := |ms| - 1, ms[i := n];
    RecordedLast(ms);
    RecordedLast(ns);
    if i == last {
      assert ns[..last] == ms[..last];
    } else {
      RecordedAt(ms[..last], i, n);
      assert ns[..last] == ms[..last][i := n] && ns[last] == ms[last];
      SumSwap(Recorded(ms[..last]), multiset{n.sequence}, Recorded(ms) - Recorded(ms[..last]));
    }
  }

  lemma SumSwap(a: multiset<nat>, b: multiset<nat>, c: multiset<nat>)
    ensures a + b + c == a + c + b
  {
  }

  lemma RecordedLast(ms: seq<Member>)
    requires |ms| > 0
    ensures Recorded(ms) == Recorded(ms[..|ms| - 1])
                            + if ms[|ms| - 1].outcome.Some? then multiset{ms[|ms| - 1].sequence} else multiset{}
  {
  }

  /** What one change to a single scope has to satisfy. */
  predicate ScopeStep(open: bool, base: string, q: nat, sc: Scope, to: Scope, imaging: Imaging) {
    (ScopeEvolves(open, sc, to) && ScopeInv(base, q, to, imaging)) == true
  }

  lemma ScopeStepTransitive(open: bool, base: string, q: nat, a: Scope, b: Scope, c: Scope, imaging: Imaging)
    requires ScopeStep(open, base, q, a, b, imaging) && ScopeStep(open, base, q, b, c, imaging)
    ensures ScopeStep(open, base, q, a, c, imaging)
  {
    ScopesEvolveTransitive(open, [a], [b], [c]);
    assert ScopeEvolves(open, [a][0], [c][0]);
  }

  lemma ScopeStepReflexive(open: bool, base: string, q: nat, sc: Scope, imaging: Imaging)
    requires ScopeInv(base, q, sc, imaging)
    ensures ScopeStep(open, base, q, sc, sc, imaging)
  {
  }

  /** The parts of a step that changes members, images and notes, and leaves the lineage alone. */
  lemma AssembleStep(open: bool, base: string, q: nat, sc: Scope, to: Scope, imaging: Imaging)
    requires to.decl == sc.decl && to.track == sc.track && LineageInv(q, sc.decl, sc.track)
    requires forall f :: f in sc.images ==> f in to.images && to.images[f] == sc.images[f]
    requires MembersInv(base, q, to.decl, to.track.commit, to.members)
    requires MembersEvolve(open, sc.members, to.members) || MembersEvolve(false, sc.members, to.members)
    requires BodiesInv(to.decl.family, to.images, to.members, imaging) && multiset(to.settled) == Recorded(to.members)
    ensures ScopeStep(open, base, q, sc, to, imaging)
  {
    assert MembersEvolve(open, sc.members, to.members) && TrackEvolves(sc.track, to.track);
    assert ScopeEvolves(open, sc, to) && ScopeInv(base, q, to, imaging);
  }

  lemma UpdateMembers(base: string, q: nat, decl: Declaration, commit: Option<nat>, ms: seq<Member>, i: nat, n: Member)
    requires i < |ms| && MembersInv(base, q, decl, commit, ms) && MemberEvolves(ms[i], n)
    ensures MembersInv(base, q, decl, commit, ms[i := n])
    ensures MembersEvolve(false, ms, ms[i := n])
  {
    assert Admitted(base, q, decl, commit, ms[i]);
    var ns := ms[i := n];
    SameStarts(ms, ns);
    forall j | 0 <= j < |ms| ensures Admitted(base, q, decl, commit, ns[j]) && MemberEvolves(ms[j], ns[j]) {
      assert Admitted(base, q, decl, commit, ms[j]);
    }
  }

  lemma UpdateBodies(family: Family, images: map<Fields, string>, ms: seq<Member>, i: nat, n: Member, imaging: Imaging)
    requires i < |ms| && BodiesInv(family, images, ms, imaging) && Accepted(family, images, n, imaging)
    ensures BodiesInv(family, images, ms[i := n], imaging)
  {
  }

  /** One member moves forward; its note is written exactly when its outcome is. */
  lemma MemberStep(open: bool, base: string, q: nat, sc: Scope, i: nat, n: Member, imaging: Imaging)
    requires i < |sc.members| && ScopeInv(base, q, sc, imaging)
    requires MemberEvolves(sc.members[i], n) && Accepted(sc.decl.family, sc.images, n, imaging)
    ensures var to := sc.(members := sc.members[i := n],
                          settled := if sc.members[i].outcome == n.outcome then sc.settled else sc.settled + [n.sequence]);
            ScopeStep(open, base, q, sc, to, imaging)
  {
    NotedStep(sc, i, n);
    UpdateMembers(base, q, sc.decl, sc.track.commit, sc.members, i, n);
    UpdateBodies(sc.decl.family, sc.images, sc.members, i, n, imaging);
    var to := sc.(members := sc.members[i := n],
                  settled := if sc.members[i].outcome == n.outcome then sc.settled else sc.settled + [n.sequence]);
    AssembleStep(open, base, q, sc, to, imaging);
  }

  lemma NotedStep(sc: Scope, i: nat, n: Member)
    requires i < |sc.members| && multiset(sc.settled) == Recorded(sc.members) && MemberEvolves(sc.members[i], n)
    ensures var settled := if sc.members[i].outcome == n.outcome then sc.settled else sc.settled + [n.sequence];
            multiset(settled) == Recorded(sc.members[i := n])
  {
    if sc.members[i].outcome == n.outcome {
      RecordedSame(sc.members, sc.members[i := n]);
    } else {
      RecordedAt(sc.members, i, n);
    }
  }

  lemma ObserveMemberStep(open: bool, base: string, q: nat, sc: Scope, i: nat, imaging: Imaging)
    requires i < |sc.members| && ScopeInv(base, q, sc, imaging)
    ensures ScopeStep(open, base, q, sc, ObserveMember(sc, i), imaging)
  {
    var m := sc.members[i];
    if Unobserved(m) {
      MemberStep(open, base, q, sc, i, m.(outcome := Some(OutcomeOf(m.task.result))), imaging);
    }
  }

  /** A change of lineage alone, while there are no members or the commit stays. */
  lemma TrackStep(open: bool, base: string, q: nat, sc: Scope, t: Track, imaging: Imaging)
    requires ScopeInv(base, q, sc, imaging) && TrackEvolves(sc.track, t) && LineageInv(q, sc.decl, t)
    ensures ScopeStep(open, base, q, sc, sc.(track := t), imaging)
  {
    forall i | 0 <= i < |sc.members| ensures Admitted(base, q, sc.decl, t.commit, sc.members[i]) {
      assert Admitted(base, q, sc.decl, sc.track.commit, sc.members[i]);
    }
  }

  lemma AbortMemberStep(open: bool, base: string, q: nat, sc: Scope, i: nat, imaging: Imaging)
    requires i < |sc.members| && ScopeInv(base, q, sc, imaging)
    ensures ScopeStep(open, base, q, sc, AbortMember(sc, i), imaging)
  {
    var m := sc.members[i];
    if !m.task.NoTask? {
      var n := m.(wakeActive := false, cleanupAttached := m.cleanupAttached || !m.task.Done?);
      assert Accepted(sc.decl.family, sc.images, m, imaging);
      MemberStep(open, base, q, sc, i, n, imaging);
      var mid := sc.(members := sc.members[i := n]);
      ObserveMemberStep(open, base, q, mid, i, imaging);
      ScopeStepTransitive(open, base, q, sc, mid, AbortMember(sc, i), imaging);
    }
  }

  lemma AbortNextStep(open: bool, base: string, q: nat, sc: Scope, to: Scope, i: nat, imaging: Imaging)
    requires i < |sc.members| && ScopeInv(base, q, sc, imaging) && to == AbortMember(sc, i)
    ensures ScopeStep(open, base, q, sc, to, imaging) && ScopeInv(base, q, to, imaging) && |to.members| == |sc.members|
  {
    AbortMemberStep(open, base, q, sc, i, imaging);
  }

  lemma {:induction false} AbortFromStep(open: bool, base: string, q: nat, sc: Scope, i: nat, imaging: Imaging)
    requires ScopeInv(base, q, sc, imaging)
    ensures ScopeStep(open, base, q, sc, AbortFrom(sc, i), imaging)
    decreases |sc.members| - i
  {
    if i >= |sc.members| {
      ScopeStepReflexive(open, base, q, sc, imaging);
    } else {
      AbortNextStep(open, base, q, sc, AbortMember(sc, i), i, imaging);
      AbortFromStep(open, base, q, AbortMember(sc, i), i + 1, imaging);
      ScopeStepTransitive(open, base, q, sc, AbortMember(sc, i), AbortFrom(sc, i), imaging);
    }
  }

  lemma AbortScopeStep(open: bool, base: string, q: nat, sc: Scope, imaging: Imaging)
    requires ScopeInv(base, q, sc, imaging)
    ensures ScopeStep(open, base, q, sc, AbortScope(sc), imaging)
  {
    var t := sc.track.(aborted := true);
    TrackStep(open, base, q, sc, t, imaging);
    AbortFromStep(open, base, q, sc.(track := t), 0, imaging);
    ScopeStepTransitive(open, base, q, sc, sc.(track := t), AbortScope(sc), imaging);
  }

  // ----- Whole states --------------------------------------------------------------------------

  predicate StateStep(s: State, t: State, imaging: Imaging) {
    (Inv(t, imaging) && Evolves(s, t)) == true
  }

  lemma StateStepTransitive(a: State, b: State, c: State, imaging: Imaging)
    requires StateStep(a, b, imaging) && StateStep(b, c, imaging)
    ensures StateStep(a, c, imaging)
  {
    EvolvesTransitive(a, b, c);
  }

  lemma ReplaceScopeInv(session: Session, q: nat, scopes: seq<Scope>, k: nat, to: Scope, imaging: Imaging)
    requires ScopesInv(session, q, scopes, imaging) && k < |scopes|
    requires ScopeInv(session.base, q, to, imaging) && to.decl == scopes[k].decl
    ensures ScopesInv(session, q, scopes[k := to], imaging)
  {
  }

  lemma ReplaceScopeEvolve(open: bool, scopes: seq<Scope>, k: nat, to: Scope)
    requires k < |scopes| && ScopeEvolves(open, scopes[k], to)
    ensures ScopesEvolve(open, scopes, scopes[k := to])
  {
  }

  /** Scope k alone changes, and perhaps the failure latch. */
  lemma ReplaceScope(s: State, k: nat, to: Scope, failure: Option<string>, imaging: Imaging)
    requires Inv(s, imaging) && k < |s.scopes|
    requires ScopeStep(s.phase == Open, s.session.base, s.page.sequence, s.scopes[k], to, imaging)
    requires s.failure.Some? ==> failure == s.failure
    ensures StateStep(s, WithScope(s, k, to).(failure := failure), imaging)
  {
    ReplaceScopeInv(s.session, s.page.sequence, s.scopes, k, to, imaging);
    ReplaceScopeEvolve(s.phase == Open, s.scopes, k, to);
  }

  /** All scopes change at once. */
  lemma ReplaceScopes(s: State, tos: seq<Scope>, failure: Option<string>, imaging: Imaging)
    requires Inv(s, imaging) && |tos| == |s.scopes|
    requires forall k :: 0 <= k < |tos| ==>
               ScopeStep(s.phase == Open, s.session.base, s.page.sequence, s.scopes[k], tos[k], imaging)
    requires s.failure.Some? ==> failure == s.failure
    ensures StateStep(s, s.(scopes := tos, failure := failure), imaging)
  {
    forall k | 0 <= k < |tos|
      ensures ScopeEvolves(s.phase == Open, s.scopes[k], tos[k])
              && ScopeInv(s.session.base, s.page.sequence, tos[k], imaging)
    {
      assert ScopeStep(s.phase == Open, s.session.base, s.page.sequence, s.scopes[k], tos[k], imaging);
    }
  }

  lemma ObserveStep(s: State, k: nat, i: nat, imaging: Imaging)
    requires Inv(s, imaging) && HasMember(s, k, i)
    ensures StateStep(s, Observe(s, k, i), imaging)
  {
    ObserveMemberStep(s.phase == Open, s.session.base, s.page.sequence, s.scopes[k], i, imaging);
    ReplaceScope(s, k, ObserveMember(s.scopes[k], i), Observe(s, k, i).failure, imaging);
  }

  lemma {:induction false} ObserveFromStep(s: State, k: nat, i: nat, imaging: Imaging)
    requires Inv(s, imaging)
    ensures StateStep(s, ObserveFrom(s, k, i), imaging)
    decreases |s.scopes| - k, if k < |s.scopes| then |s.scopes[k].members| - i else 0
  {
    if k >= |s.scopes| {
      ScopesEvolveReflexive(s.phase == Open, s.scopes);
    } else if i >= |s.scopes[k].members| {
      ObserveFromStep(s, k + 1, 0, imaging);
    } else {
      ObserveStep(s, k, i, imaging);
      ObserveSize(s, k, i);
      ObserveRestStep(s, Observe(s, k, i), k, i, imaging);
    }
  }

  lemma ObserveSize(s: State, k: nat, i: nat)
    requires HasMember(s, k, i)
    ensures var u := Observe(s, k, i); |u.scopes| == |s.scopes| && |u.scopes[k].members| == |s.scopes[k].members|
  {
  }

  lemma {:induction false} ObserveRestStep(s: State, u: State, k: nat, i: nat, imaging: Imaging)
    requires StateStep(s, u, imaging) && |u.scopes| == |s.scopes|
    requires HasMember(s, k, i) && |u.scopes[k].members| == |s.scopes[k].members|
    ensures StateStep(s, ObserveFrom(u, k, i + 1), imaging)
    decreases |s.scopes| - k, |s.scopes[k].members| - i, 0
  {
    ObserveFromStep(u, k, i + 1, imaging);
    StateStepTransitive(s, u, ObserveFrom(u, k, i + 1), imaging);
  }

  lemma AbortAllStep(s: State, failure: Option<string>, imaging: Imaging)
    requires Inv(s, imaging) && (s.failure.Some? ==> failure == s.failure)
    ensures StateStep(s, s.(scopes := AbortAll(s.scopes), failure := failure), imaging)
  {
    forall k | 0 <= k < |s.scopes|
      ensures ScopeStep(s.phase == Open, s.session.base, s.page.sequence, s.scopes[k], AbortAll(s.scopes)[k], imaging)
    {
      AbortScopeStep(s.phase == Open, s.session.base, s.page.sequence, s.scopes[k], imaging);
    }
    ReplaceScopes(s, AbortAll(s.scopes), failure, imaging);
  }

  lemma PoisonStep(s: State, error: string, imaging: Imaging)
    requires Inv(s, imaging)
    ensures StateStep(s, Poison(s, error), imaging)
    ensures Poison(s, error).poisoned && Poison(s, error).failure.Some?
  {
    ObserveFromStep(s, 0, 0, imaging);
    var s1 := ObserveAll(s);
    var failure := Latch(s1.failure, error);
    var s2 := s1.(poisoned := true, failure := failure);
    ScopesEvolveReflexive(s1.phase == Open, s1.scopes);
    assert StateStep(s1, s2, imaging);
    StateStepTransitive(s, s1, s2, imaging);
    if s1.armed {
      AbortAllStep(s2, failure, imaging);
      StateStepTransitive(s, s2, Poison(s, error), imaging);
    }
  }

  // ----- The callbacks ----------------------------------------------------------------------------

  /** The invariant as it stood one sequence number ago, for the scopes from k on. */
  predicate Untouched(s: State, k: nat, imaging: Imaging) {
    (&& s.page.sequence > 0
     && forall j :: k <= j < |s.scopes| ==> ScopeInv(s.session.base, s.page.sequence - 1, s.scopes[j], imaging)) == true
  }

  lemma ScopeInvGrows(base: string, q: nat, r: nat, sc: Scope, imaging: Imaging)
    requires ScopeInv(base, q, sc, imaging) && q <= r
    ensures ScopeInv(base, r, sc, imaging)
  {
    forall i | 0 <= i < |sc.members| ensures Admitted(base, r, sc.decl, sc.track.commit, sc.members[i]) {
      assert Admitted(base, q, sc.decl, sc.track.commit, sc.members[i]);
    }
  }

  /** Page facts other than the sequence number are not constrained. */
  lemma TickStep(s: State, page: Page, imaging: Imaging)
    requires Inv(s, imaging)
    requires page.sequence == s.page.sequence + 1 && s.page.redirected <= page.redirected
    ensures StateStep(s, s.(page := page), imaging) && Untouched(s.(page := page), 0, imaging)
  {
    var t := s.(page := page);
    forall k | 0 <= k < |s.scopes| ensures ScopeInv(s.session.base, page.sequence, s.scopes[k], imaging) {
      ScopeInvGrows(s.session.base, s.page.sequence, page.sequence, s.scopes[k], imaging);
    }
    ScopesEvolveReflexive(s.phase == Open, s.scopes);
  }

  lemma NavigationRequestStep(open: bool, base: string, page: Page, sc: Scope, r: Request, imaging: Imaging)
    requires page.sequence > 0 && ScopeInv(base, page.sequence - 1, sc, imaging)
    ensures ScopeStep(open, base, page.sequence, sc, NavigationRequest(page, sc, r), imaging)
    ensures NavigationRequest(page, sc, r).members == sc.members
    ensures NavigationRequest(page, sc, r).track.commit == sc.track.commit
  {
    ScopeInvGrows(base, page.sequence - 1, page.sequence, sc, imaging);
    TrackStep(open, base, page.sequence, sc, NavigationRequest(page, sc, r).track, imaging);
  }

  lemma AppendMembers(base: string, q: nat, decl: Declaration, commit: Option<nat>, ms: seq<Member>, n: Member)
    requires MembersInv(base, q, decl, commit, ms) && Admitted(base, q + 1, decl, commit, n)
    requires n.sequence == q + 1 && (forall i :: 0 <= i < |ms| ==> ms[i].request != n.request)
    ensures MembersInv(base, q + 1, decl, commit, ms + [n])
    ensures MembersEvolve(true, ms, ms + [n])
  {
    forall i | 0 <= i < |ms| ensures Admitted(base, q + 1, decl, commit, ms[i]) && ms[i].sequence < n.sequence {
      assert Admitted(base, q, decl, commit, ms[i]);
    }
  }

  /** Admission puts a request last, after everything the scope has seen. */
  lemma AdmitStep(s: State, was: Scope, r: Request, imaging: Imaging)
    requires s.page.sequence > 0 && ScopeInv(s.session.base, s.page.sequence - 1, was, imaging)
    requires var sc := NavigationRequest(s.page, was, r);
             Eligible(s, sc, r) && IndexOf(sc.members, r) == |sc.members|
    ensures var sc := NavigationRequest(s.page, was, r);
            ScopeStep(true, s.session.base, s.page.sequence, was,
                      sc.(members := sc.members + [NewMember(r, s.page.sequence)]), imaging)
  {
    var base, q, sc := s.session.base, s.page.sequence, NavigationRequest(s.page, was, r);
    NavigationRequestStep(true, base, s.page, was, r, imaging);
    EligibleAdmitted(s, was, sc, r);
    AppendMembers(base, q - 1, sc.decl, sc.track.commit, sc.members, NewMember(r, q));
    AppendStep(base, q, sc, NewMember(r, q), imaging);
    ScopeStepTransitive(true, base, q, was, sc, sc.(members := sc.members + [NewMember(r, q)]), imaging);
  }

  /** An eligible start comes after the commit of its scope. */
  lemma EligibleAdmitted(s: State, was: Scope, sc: Scope, r: Request)
    requires s.page.sequence > 0 && LineageInv(s.page.sequence - 1, was.decl, was.track)
    requires sc == NavigationRequest(s.page, was, r) && Eligible(s, sc, r)
    ensures Admitted(s.session.base, s.page.sequence, sc.decl, sc.track.commit, NewMember(r, s.page.sequence))
  {
  }

  lemma AppendStep(base: string, q: nat, sc: Scope, n: Member, imaging: Imaging)
    requires ScopeInv(base, q, sc, imaging) && n.outcome.None? && Accepted(sc.decl.family, sc.images, n, imaging)
    requires MembersInv(base, q, sc.decl, sc.track.commit, sc.members + [n])
    requires MembersEvolve(true, sc.members, sc.members + [n])
    ensures ScopeStep(true, base, q, sc, sc.(members := sc.members + [n]), imaging)
  {
    RecordedLast(sc.members + [n]);
    assert (sc.members + [n])[..|sc.members|] == sc.members;
    AssembleStep(true, base, q, sc, sc.(members := sc.members + [n]), imaging);
  }

  lemma RequestScopeStep(s: State, was: Scope, r: Request, imaging: Imaging)
    requires s.page.sequence > 0 && ScopeInv(s.session.base, s.page.sequence - 1, was, imaging)
    ensures ScopeStep(s.phase == Open, s.session.base, s.page.sequence, was, RequestScope(s, was, r), imaging)
  {
    var sc := NavigationRequest(s.page, was, r);
    NavigationRequestStep(s.phase == Open, s.session.base, s.page, was, r, imaging);
    if Eligible(s, sc, r) && s.phase == Open && IndexOf(sc.members, r) == |sc.members| {
      AdmitStep(s, was, r, imaging);
    }
  }

  lemma RequestAtStep(s: State, k: nat, r: Request, imaging: Imaging)
    requires Inv(s, imaging) && k < |s.scopes| && Untouched(s, k, imaging)
    ensures StateStep(s, RequestAt(s, k, r), imaging) && Untouched(RequestAt(s, k, r), k + 1, imaging)
  {
    var to, failure := RequestScope(s, s.scopes[k], r), RequestFailure(s, s.scopes[k], r);
    RequestScopeStep(s, s.scopes[k], r, imaging);
    ReplaceScope(s, k, to, failure, imaging);
    UntouchedNext(s, k, to, failure, imaging);
  }

  lemma UntouchedNext(s: State, k: nat, to: Scope, failure: Option<string>, imaging: Imaging)
    requires k < |s.scopes| && Untouched(s, k, imaging)
    ensures Untouched(WithScope(s, k, to).(failure := failure), k + 1, imaging)
  {
  }

  lemma {:induction false} RequestFromStep(s: State, k: nat, r: Request, imaging: Imaging)
    requires Inv(s, imaging) && Untouched(s, k, imaging)
    ensures StateStep(s, RequestFrom(s, k, r), imaging)
    decreases |s.scopes| - k
  {
    if k >= |s.scopes| {
      ScopesEvolveReflexive(s.phase == Open, s.scopes);
    } else if AtEndpoint(s.session.base, s.scopes[k].decl.path, r.url) && QueryRaises(r.url) {
      var sc := NavigationRequest(s.page, s.scopes[k], r);
      NavigationRequestStep(s.phase == Open, s.session.base, s.page, s.scopes[k], r, imaging);
      ReplaceScope(s, k, sc, s.failure, imaging);
      PoisonStep(WithScope(s, k, sc), "invalid observation query", imaging);
      StateStepTransitive(s, WithScope(s, k, sc), RequestFrom(s, k, r), imaging);
    } else {
      RequestAtStep(s, k, r, imaging);
      RequestFromStep(RequestAt(s, k, r), k + 1, r, imaging);
      StateStepTransitive(s, RequestAt(s, k, r), RequestFrom(s, k, r), imaging);
    }
  }

  lemma OnRequestStep(s: State, r: Request, imaging: Imaging)
    requires Inv(s, imaging)
    ensures StateStep(s, OnRequest(s, r), imaging)
  {
    var s1 := Noted(Ticked(s), r);
    TickStep(s, s1.page, imaging);
    if s1.armed {
      RequestFromStep(s1, 0, r, imaging);
      StateStepTransitive(s, s1, OnRequest(s, r), imaging);
    }
  }

  lemma TrackNavigatedStep(open: bool, base: string, page: Page, sc: Scope, isNew: bool, u: Url, imaging: Imaging)
    requires page.sequence > 0 && ScopeInv(base, page.sequence - 1, sc, imaging)
    requires isNew ==> page.lineage.Some?
    ensures ScopeStep(open, base, page.sequence, sc, sc.(track := TrackNavigated(page, sc, isNew, u)), imaging)
  {
    ScopeInvGrows(base, page.sequence - 1, page.sequence, sc, imaging);
    TrackStep(open, base, page.sequence, sc, TrackNavigated(page, sc, isNew, u), imaging);
  }

  lemma NavigatedScopesStep(s: State, isNew: bool, u: Url, imaging: Imaging)
    requires Inv(s, imaging) && Untouched(s, 0, imaging) && (isNew ==> s.page.lineage.Some?)
    ensures StateStep(s, NavigatedScopes(s, isNew, u), imaging)
  {
    if s.armed {
      var tos := NavigatedScopes(s, isNew, u).scopes;
      forall k | 0 <= k < |s.scopes|
        ensures ScopeStep(s.phase == Open, s.session.base, s.page.sequence, s.scopes[k], tos[k], imaging)
      {
        TrackNavigatedStep(s.phase == Open, s.session.base, s.page, s.scopes[k], isNew, u, imaging);
      }
      ReplaceScopes(s, tos, s.failure, imaging);
    } else {
      ScopesEvolveReflexive(s.phase == Open, s.scopes);
    }
  }

  lemma OnNavigatedStep(s: State, p: Payload, imaging: Imaging)
    requires Inv(s, imaging)
    ensures StateStep(s, OnNavigated(s, p), imaging)
  {
    var page := Ticked(s).page;
    if p.SameDocument? {
      var s1 := s.(page := page.(url := p.url));
      TickStep(s, s1.page, imaging);
      NavigatedScopesStep(s1, false, p.url, imaging);
      StateStepTransitive(s, s1, OnNavigated(s, p), imaging);
    } else if p.NewDocumentAt? && CommitAccepted(page, p.url, p.request) {
      var s1 := s.(page := page.(lineage := Some(p.request), document := page.asked, navigation := None, url := p.url));
      TickStep(s, s1.page, imaging);
      NavigatedScopesStep(s1, true, p.url, imaging);
      StateStepTransitive(s, s1, OnNavigated(s, p), imaging);
    } else {
      var s1 := s.(page := page.(lineage := None));
      TickStep(s, s1.page, imaging);
      PoisonStep(s1, "unambiguous pinned main-frame navigation payload", imaging);
      PoisonStep(s1, "unredirected main-frame document commit", imaging);
      StateStepTransitive(s, s1, OnNavigated(s, p), imaging);
    }
  }

  lemma ResponseAtStep(s: State, k: nat, response: Response, imaging: Imaging)
    requires Inv(s, imaging) && k < |s.scopes|
    ensures StateStep(s, ResponseAt(s, k, response), imaging)
  {
    var sc := s.scopes[k];
    var i := IndexOf(sc.members, response.request);
    if i < |sc.members| && ResponseAccepted(s, sc, sc.members[i], response) {
      var m := sc.members[i];
      assert Accepted(sc.decl.family, sc.images, m, imaging);
      var n := m.(response := Some(response), task := Running, wakeActive := true);
      MemberStep(s.phase == Open, s.session.base, s.page.sequence, sc, i, n, imaging);
      ReplaceScope(s, k, sc.(members := sc.members[i := n]), s.failure, imaging);
    } else {
      ScopesEvolveReflexive(s.phase == Open, s.scopes);
    }
  }

  lemma {:induction false} ResponseFromStep(s: State, k: nat, response: Response, imaging: Imaging)
    requires Inv(s, imaging)
    ensures StateStep(s, ResponseFrom(s, k, response), imaging)
    decreases |s.scopes| - k
  {
    if k >= |s.scopes| {
      ScopesEvolveReflexive(s.phase == Open, s.scopes);
    } else if ResponseRaises(s, k, response) {
      PoisonStep(s, "invalid observation query", imaging);
    } else {
      ResponseAtStep(s, k, response, imaging);
      ResponseFromStep(ResponseAt(s, k, response), k + 1, response, imaging);
      StateStepTransitive(s, ResponseAt(s, k, response), ResponseFrom(s, k, response), imaging);
    }
  }

  lemma FinishedAtStep(s: State, k: nat, r: Request, imaging: Imaging)
    requires Inv(s, imaging) && k < |s.scopes|
    ensures StateStep(s, FinishedAt(s, k, r), imaging)
  {
    var sc := s.scopes[k];
    var i := IndexOf(sc.members, r);
    if i < |sc.members| {
      var n := sc.members[i].(finished := true);
      assert Accepted(sc.decl.family, sc.images, sc.members[i], imaging);
      MemberStep(s.phase == Open, s.session.base, s.page.sequence, sc, i, n, imaging);
      ReplaceScope(s, k, sc.(members := sc.members[i := n]), FinishedAt(s, k, r).failure, imaging);
    } else {
      ScopesEvolveReflexive(s.phase == Open, s.scopes);
    }
  }

  lemma {:induction false} FinishedFromStep(s: State, k: nat, r: Request, imaging: Imaging)
    requires Inv(s, imaging)
    ensures StateStep(s, FinishedFrom(s, k, r), imaging)
    decreases |s.scopes| - k
  {
    if k >= |s.scopes| {
      ScopesEvolveReflexive(s.phase == Open, s.scopes);
    } else {
      FinishedAtStep(s, k, r, imaging);
      FinishedFromStep(FinishedAt(s, k, r), k + 1, r, imaging);
      StateStepTransitive(s, FinishedAt(s, k, r), FinishedFrom(s, k, r), imaging);
    }
  }

  lemma OnClosedStep(s: State, imaging: Imaging)
    requires Inv(s, imaging)
    ensures StateStep(s, OnClosed(s), imaging)
  {
    ScopesEvolveReflexive(s.phase == Open, s.scopes);
    if s.armed && s.scopes != [] {
      forall k | 0 <= k < |s.scopes|
        ensures ScopeStep(s.phase == Open, s.session.base, s.page.sequence, s.scopes[k], OnClosed(s).scopes[k], imaging)
      {
        TrackStep(s.phase == Open, s.session.base, s.page.sequence, s.scopes[k],
                  s.scopes[k].track.(invalid := true), imaging);
      }
      ReplaceScopes(s, OnClosed(s).scopes, OnClosed(s).failure, imaging);
    }
  }

  lemma OnTaskStep(s: State, k: nat, i: nat, result: TaskResult, imaging: Imaging)
    requires Inv(s, imaging)
    ensures StateStep(s, OnTask(s, k, i, result), imaging)
  {
    ScopesEvolveReflexive(s.phase == Open, s.scopes);
    if HasMember(s, k, i) && s.scopes[k].members[i].task.Running? {
      var sc, m := s.scopes[k], s.scopes[k].members[i];
      assert Accepted(sc.decl.family, sc.images, m, imaging);
      MemberStep(s.phase == Open, s.session.base, s.page.sequence, sc, i, m.(task := Done(result)), imaging);
      ReplaceScope(s, k, sc.(members := sc.members[i := m.(task := Done(result))]), s.failure, imaging);
    }
  }

  lemma OnResponseStep(s: State, response: Response, imaging: Imaging)
    requires Inv(s, imaging)
    ensures StateStep(s, OnResponse(s, response), imaging)
  {
    TickStep(s, Ticked(s).page, imaging);
    if s.armed {
      ResponseFromStep(Ticked(s), 0, response, imaging);
      StateStepTransitive(s, Ticked(s), OnResponse(s, response), imaging);
    }
  }

  lemma OnFinishedStep(s: State, r: Request, imaging: Imaging)
    requires Inv(s, imaging)
    ensures StateStep(s, OnFinished(s, r), imaging)
  {
    TickStep(s, Ticked(s).page, imaging);
    if s.armed {
      FinishedFromStep(Ticked(s), 0, r, imaging);
      StateStepTransitive(s, Ticked(s), OnFinished(s, r), imaging);
    }
  }

  lemma OnFailedStep(s: State, r: Request, imaging: Imaging)
    requires Inv(s, imaging)
    ensures StateStep(s, OnFailed(s, r), imaging)
  {
    TickStep(s, Ticked(s).page, imaging);
  }

  lemma PageStep(s: State, page: Page, imaging: Imaging)
    requires Inv(s, imaging) && page.sequence == s.page.sequence && s.page.redirected <= page.redirected
    ensures StateStep(s, s.(page := page), imaging)
  {
    ScopesEvolveReflexive(s.phase == Open, s.scopes);
  }

  lemma CallbackStep(s: State, k: nat, i: nat, imaging: Imaging)
    requires Inv(s, imaging)
    ensures StateStep(s, OnWake(s, k, i), imaging) && StateStep(s, OnCleanup(s, k, i), imaging)
  {
    ScopesEvolveReflexive(s.phase == Open, s.scopes);
    if HasMember(s, k, i) {
      ObserveStep(s, k, i, imaging);
      ObserveMemberStep(s.phase == Open, s.session.base, s.page.sequence, s.scopes[k], i, imaging);
      ReplaceScope(s, k, ObserveMember(s.scopes[k], i), s.failure, imaging);
    }
  }

  /** Every native event keeps the invariant and only moves things forward. */
  lemma ApplyStep(s: State, e: Event, imaging: Imaging)
    requires Inv(s, imaging)
    ensures StateStep(s, Apply(s, e), imaging)
  {
    match e
    case RequestStarted(r) => OnRequestStep(s, r, imaging);
    case Navigated(p) => OnNavigatedStep(s, p, imaging);
    case ResponseReceived(response) => OnResponseStep(s, response, imaging);
    case RequestFinished(r) => OnFinishedStep(s, r, imaging);
    case RequestFailed(r) => OnFailedStep(s, r, imaging);
    case PageClosed => OnClosedStep(s, imaging);
    case PageMoved(u) => PageStep(s, s.page.(shown := u), imaging);
    case Redirected(r) => PageStep(s, s.page.(redirected := s.page.redirected + {r}), imaging);
    case TaskSettled(k, i, result) => OnTaskStep(s, k, i, result, imaging);
    case WakeDelivered(k, i) => CallbackStep(s, k, i, imaging);
    case CleanupDelivered(k, i) => CallbackStep(s, k, i, imaging);
  }

  // ----- Owner steps --------------------------------------------------------------------------------

  /** The first i members that are done have their outcome on record. */
  predicate ObservedUpTo(sc: Scope, i: nat) {
    forall b :: 0 <= b < |sc.members| && b < i && sc.members[b].task.Done? ==> sc.members[b].outcome.Some?
  }

  predicate AllObserved(s: State) {
    forall k :: 0 <= k < |s.scopes| ==> ObservedUpTo(s.scopes[k], |s.scopes[k].members|)
  }

  lemma {:induction false} ObserveFromObserves(s: State, k: nat, i: nat)
    requires k < |s.scopes| ==> ObservedUpTo(s.scopes[k], i)
    ensures var t := ObserveFrom(s, k, i);
            && |t.scopes| == |s.scopes|
            && (forall a :: 0 <= a < k && a < |s.scopes| ==> t.scopes[a] == s.scopes[a])
            && (forall a :: k <= a < |s.scopes| ==> ObservedUpTo(t.scopes[a], |t.scopes[a].members|))
    decreases |s.scopes| - k, if k < |s.scopes| then |s.scopes[k].members| - i else 0
  {
    if k >= |s.scopes| {
    } else if i >= |s.scopes[k].members| {
      ObserveFromObserves(s, k + 1, 0);
    } else {
      ObserveFromObserves(Observe(s, k, i), k, i + 1);
    }
  }

  /** After a guard every finished body has its outcome on record. */
  lemma ObserveAllStep(s: State, imaging: Imaging)
    requires Inv(s, imaging)
    ensures StateStep(s, ObserveAll(s), imaging)
    ensures AllObserved(ObserveAll(s))
  {
    ObserveFromStep(s, 0, 0, imaging);
    ObserveFromObserves(s, 0, 0);
  }

  /** A digested body agrees with every earlier body of the same query. */
  lemma DigestMemberStep(open: bool, base: string, q: nat, sc: Scope, i: nat, imaging: Imaging)
    requires ScopeInv(base, q, sc, imaging) && i < |sc.members| && sc.members[i].json.None?
    requires DigestMember(sc, i, imaging).Some?
    ensures ScopeStep(open, base, q, sc, DigestMember(sc, i, imaging).value, imaging)
  {
    var m, to := sc.members[i], DigestMember(sc, i, imaging).value;
    assert Accepted(sc.decl.family, sc.images, m, imaging);
    UpdateMembers(base, q, sc.decl, sc.track.commit, sc.members, i, to.members[i]);
    RecordedSame(sc.members, to.members);
    DigestBodies(sc, i, to, imaging);
    AssembleStep(open, base, q, sc, to, imaging);
  }

  lemma DigestBodies(sc: Scope, i: nat, to: Scope, imaging: Imaging)
    requires BodiesInv(sc.decl.family, sc.images, sc.members, imaging) && i < |sc.members|
    requires sc.members[i].json.None? && DigestMember(sc, i, imaging) == Some(to)
    ensures BodiesInv(to.decl.family, to.images, to.members, imaging)
  {
    forall j | 0 <= j < |to.members| ensures Accepted(to.decl.family, to.images, to.members[j], imaging) {
      assert Accepted(sc.decl.family, sc.images, sc.members[j], imaging);
    }
  }

  lemma DigestStep(s: State, k: nat, i: nat, imaging: Imaging)
    requires Inv(s, imaging) && HasMember(s, k, i) && DigestMember(s.scopes[k], i, imaging).Some?
    ensures StateStep(s, WithScope(s, k, DigestMember(s.scopes[k], i, imaging).value), imaging)
    ensures DigestMember(s.scopes[k], i, imaging).value.members[i].json.Some?
  {
    var sc := s.scopes[k];
    if sc.members[i].json.Some? {
      ScopesEvolveReflexive(s.phase == Open, s.scopes);
      assert WithScope(s, k, sc) == s;
    } else {
      DigestMemberStep(s.phase == Open, s.session.base, s.page.sequence, sc, i, imaging);
      ReplaceScope(s, k, DigestMember(sc, i, imaging).value, s.failure, imaging);
    }
  }

  lemma ArmStep(s: State, path: string, family: Family, queries: seq<Fields>, imaging: Imaging)
    requires Inv(s, imaging) && CanArm(s, path)
    ensures Inv(Arm(s, path, family, queries), imaging)
  {
    var t := Arm(s, path, family, queries);
    assert ScopeInv(s.session.base, s.page.sequence, NewScope(s, path, family, queries), imaging);
  }

  lemma DetachMembers(base: string, q: nat, sc: Scope, imaging: Imaging)
    requires ScopeInv(base, q, sc, imaging)
    ensures ScopeStep(false, base, q, sc, DetachWakes(sc), imaging)
  {
    RecordedSame(sc.members, DetachWakes(sc).members);
    DetachedBodies(sc, imaging);
    DetachedMembers(base, q, sc);
    AssembleStep(false, base, q, sc, DetachWakes(sc), imaging);
  }

  lemma DetachedBodies(sc: Scope, imaging: Imaging)
    requires BodiesInv(sc.decl.family, sc.images, sc.members, imaging)
    ensures BodiesInv(sc.decl.family, sc.images, DetachWakes(sc).members, imaging)
  {
    forall i | 0 <= i < |sc.members| ensures Accepted(sc.decl.family, sc.images, DetachWakes(sc).members[i], imaging) {
      assert Accepted(sc.decl.family, sc.images, sc.members[i], imaging);
    }
  }

  lemma DetachedMembers(base: string, q: nat, sc: Scope)
    requires MembersInv(base, q, sc.decl, sc.track.commit, sc.members)
    ensures MembersInv(base, q, sc.decl, sc.track.commit, DetachWakes(sc).members)
    ensures MembersEvolve(false, sc.members, DetachWakes(sc).members)
  {
    var ns := DetachWakes(sc).members;
    SameStarts(sc.members, ns);
    forall i | 0 <= i < |sc.members| ensures Admitted(base, q, sc.decl, sc.track.commit, ns[i]) {
      assert Admitted(base, q, sc.decl, sc.track.commit, sc.members[i]);
    }
  }

  lemma DetachStep(s: State, k: nat, imaging: Imaging)
    requires Inv(s, imaging) && k < |s.scopes| && s.phase != Open
    ensures StateStep(s, WithScope(s, k, DetachWakes(s.scopes[k])), imaging)
  {
    DetachMembers(s.session.base, s.page.sequence, s.scopes[k], imaging);
    ReplaceScope(s, k, DetachWakes(s.scopes[k]), s.failure, imaging);
  }

  /** A member is never lost, and keeps its position. */
  lemma MemberKept(s: State, t: State, k: nat, i: nat)
    requires Evolves(s, t) && HasMember(s, k, i)
    ensures HasMember(t, k, i) && MemberEvolves(s.scopes[k].members[i], t.scopes[k].members[i])
  {
    assert ScopeEvolves(s.phase == Open, s.scopes[k], t.scopes[k]);
  }

  // ----- States that can no longer be sealed ------------------------------------------------------------

  predicate Doomed(s: State) {
    s.failure.Some? || s.poisoned || exists k :: 0 <= k < |s.scopes| && s.scopes[k].track.invalid
  }
}
