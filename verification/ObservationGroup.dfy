/**
 * The browser callbacks and the group owner, as they update their fields.
 * Each callback is proved equal to its function in ObservationModel; each owner
 * method is proved for every schedule of events at every wait.
 */
module ObservationGroup {
  import opened Prelude
  import opened ObservationModel
  import opened ObservationInvariants
  import opened ObservationRuns
  import RootsPages

  /** What wait() can be asked to wait for. */
  datatype Ready = BodyDone(k: nat, i: nat) | FinishSeen(k: nat, i: nat) | QueriesDone(k: nat) | SomeMemberOf(k: nat)

  predicate QueryDone(sc: Scope, q: Fields) {
    exists i :: 0 <= i < |sc.members| && sc.members[i].query == q && sc.members[i].task.Done?
  }

  predicate Holds(s: State, r: Ready) {
    match r
    case BodyDone(k, i) => HasMember(s, k, i) && s.scopes[k].members[i].task.Done?
    case FinishSeen(k, i) => HasMember(s, k, i) && s.scopes[k].members[i].finished
    case QueriesDone(k) =>
      k < |s.scopes| && forall j :: 0 <= j < |s.scopes[k].decl.queries| ==> QueryDone(s.scopes[k], s.scopes[k].decl.queries[j])
    case SomeMemberOf(k) => k < |s.scopes| && s.scopes[k].members != []
  }

  /** A member as the seal promises it. */
  predicate MemberSealed(m: Member) {
    && m.response.Some? && m.response.value.request == m.request && m.response.value.status == 200
    && m.finished && m.outcome == Some(WasSuccess)
    && m.json.Some? && m.task == Done(Bytes(m.json))
  }

  /** Some member of the scope asked this query. */
  predicate Asked(sc: Scope, q: Fields) {
    exists i :: 0 <= i < |sc.members| && sc.members[i].query == q
  }

  predicate ScopeSealed(sc: Scope) {
    && sc.members != [] && !sc.track.invalid && !sc.track.aborted && sc.track.reached
    && (forall j :: 0 <= j < |sc.decl.queries| ==> Asked(sc, sc.decl.queries[j]))
    && (forall i :: 0 <= i < |sc.members| ==> MemberSealed(sc.members[i]))
  }

  /** Everything a finalized group guarantees. */
  predicate Sealed(s: State) {
    s.phase == Finalized && s.failure.None? && !s.poisoned && ScopesSealed(s.scopes)
  }

  predicate ScopesSealed(scopes: seq<Scope>) {
    (scopes != [] && forall k :: 0 <= k < |scopes| ==> ScopeSealed(scopes[k])) == true
  }

  /** What a checkpoint froze: no empty cohort, no query without a member. */
  predicate Covered(sc: Scope) {
    && sc.members != []
    && forall j :: 0 <= j < |sc.decl.queries| ==> Asked(sc, sc.decl.queries[j])
  }

  predicate Cohorts(s: State) {
    s.scopes != [] && forall k :: 0 <= k < |s.scopes| ==> Covered(s.scopes[k])
  }

  /** The first n members of a scope are consumed and finished. */
  predicate SettledUpTo(sc: Scope, n: nat) {
    forall i :: 0 <= i < n && i < |sc.members| ==> sc.members[i].json.Some? && sc.members[i].finished
  }

  lemma CoveredEvolves(open: bool, sc: Scope, to: Scope)
    requires ScopeEvolves(open, sc, to) && Covered(sc)
    ensures Covered(to)
  {
    forall j | 0 <= j < |to.decl.queries| ensures Asked(to, to.decl.queries[j]) {
      assert Asked(sc, sc.decl.queries[j]);
      var i :| 0 <= i < |sc.members| && sc.members[i].query == sc.decl.queries[j];
      assert MemberEvolves(sc.members[i], to.members[i]);
    }
  }

  lemma CohortsEvolve(s: State, t: State)
    requires Evolves(s, t) && Cohorts(s)
    ensures Cohorts(t)
  {
    forall k | 0 <= k < |t.scopes| ensures Covered(t.scopes[k]) {
      CoveredEvolves(s.phase == Open, s.scopes[k], t.scopes[k]);
    }
  }

  lemma SettledEvolves(open: bool, sc: Scope, to: Scope, n: nat)
    requires ScopeEvolves(open, sc, to) && SettledUpTo(sc, n) && n <= |sc.members|
    ensures SettledUpTo(to, n)
  {
    forall i | 0 <= i < n ensures to.members[i].json.Some? && to.members[i].finished {
      assert MemberEvolves(sc.members[i], to.members[i]);
    }
  }

  lemma SettledNext(s: State, t: State, k: nat, i: nat)
    requires Evolves(s, t) && s.phase != Open && HasMember(s, k, i) && SettledUpTo(s.scopes[k], i)
    ensures HasMember(t, k, i) && |t.scopes[k].members| == |s.scopes[k].members|
    ensures t.scopes[k].members[i].json.Some? && t.scopes[k].members[i].finished ==> SettledUpTo(t.scopes[k], i + 1)
  {
    assert ScopeEvolves(false, s.scopes[k], t.scopes[k]);
    SettledEvolves(false, s.scopes[k], t.scopes[k], i);
  }

  /** Whatever a wait was for stays true under later events. */
  lemma HoldsEvolves(s: State, t: State, r: Ready)
    requires Evolves(s, t) && Holds(s, r)
    ensures Holds(t, r)
  {
    assert ScopeEvolves(s.phase == Open, s.scopes[r.k], t.scopes[r.k]);
    match r
    case BodyDone(k, i) => assert MemberEvolves(s.scopes[k].members[i], t.scopes[k].members[i]);
    case FinishSeen(k, i) => assert MemberEvolves(s.scopes[k].members[i], t.scopes[k].members[i]);
    case QueriesDone(k) =>
      var sc, to := s.scopes[k], t.scopes[k];
      forall j | 0 <= j < |to.decl.queries| ensures QueryDone(to, to.decl.queries[j]) {
        assert QueryDone(sc, sc.decl.queries[j]);
        var i :| 0 <= i < |sc.members| && sc.members[i].query == sc.decl.queries[j] && sc.members[i].task.Done?;
        assert MemberEvolves(sc.members[i], to.members[i]);
      }
    case SomeMemberOf(k) =>
  }

  lemma AskedWhenDone(sc: Scope)
    requires forall j :: 0 <= j < |sc.decl.queries| ==> QueryDone(sc, sc.decl.queries[j])
    ensures forall j :: 0 <= j < |sc.decl.queries| ==> Asked(sc, sc.decl.queries[j])
  {
    forall j | 0 <= j < |sc.decl.queries| ensures Asked(sc, sc.decl.queries[j]) {
      assert QueryDone(sc, sc.decl.queries[j]);
    }
  }

  /** Every scope carries the queries of its family. */
  predicate Declared(scopes: seq<Scope>) {
    (forall k :: 0 <= k < |scopes| ==> scopes[k].decl.queries == RootsPages.Queries(scopes[k].decl.family)) == true
  }

  lemma DeclaredEvolves(scopes: seq<Scope>, tos: seq<Scope>)
    requires Declared(scopes) && |tos| == |scopes|
    requires forall k :: 0 <= k < |scopes| ==> tos[k].decl == scopes[k].decl
    ensures Declared(tos)
  {
  }

  predicate TasksDone(ms: seq<Member>) {
    forall i :: 0 <= i < |ms| ==> ms[i].task.Done? && ms[i].task.result.Bytes?
  }

  predicate Consumed(sc: Scope) {
    forall i :: 0 <= i < |sc.members| ==> sc.members[i].json.Some?
  }

  predicate ReadyBefore(s: State, k: nat) {
    k <= |s.scopes| && forall j :: 0 <= j < k ==> Holds(s, QueriesDone(j))
  }

  lemma ReadyNext(s: State, t: State, k: nat)
    requires Evolves(s, t) && ReadyBefore(s, k) && Holds(t, QueriesDone(k))
    ensures ReadyBefore(t, k + 1)
  {
    forall j | 0 <= j < k ensures Holds(t, QueriesDone(j)) {
      HoldsEvolves(s, t, QueriesDone(j));
    }
  }

  lemma CohortsReady(s: State, t: State)
    requires Evolves(s, t) && ReadyBefore(s, |s.scopes|) && t.scopes != []
    requires forall k :: 0 <= k < |t.scopes| ==> t.scopes[k].members != []
    ensures Cohorts(t)
  {
    forall j | 0 <= j < |t.scopes| ensures Covered(t.scopes[j]) {
      HoldsEvolves(s, t, QueriesDone(j));
      AskedWhenDone(t.scopes[j]);
    }
  }

  /** The members of the first k scopes are all consumed and finished. */
  predicate SettledBefore(s: State, k: nat) {
    (k <= |s.scopes| && forall j :: 0 <= j < k ==> SettledUpTo(s.scopes[j], |s.scopes[j].members|)) == true
  }

  predicate AllSettled(s: State) {
    SettledBefore(s, |s.scopes|)
  }

  /** Frozen membership makes settlement permanent. */
  lemma SettledBeforeEvolves(s: State, t: State, k: nat)
    requires Evolves(s, t) && SettledBefore(s, k) && s.phase != Open
    ensures SettledBefore(t, k)
  {
    forall j | 0 <= j < k ensures SettledUpTo(t.scopes[j], |t.scopes[j].members|) {
      assert ScopeEvolves(false, s.scopes[j], t.scopes[j]);
      SettledEvolves(false, s.scopes[j], t.scopes[j], |s.scopes[j].members|);
    }
  }

  lemma SettledBeforeNext(s: State, t: State, k: nat)
    requires Evolves(s, t) && SettledBefore(s, k) && s.phase != Open && k < |t.scopes|
    requires SettledUpTo(t.scopes[k], |t.scopes[k].members|)
    ensures SettledBefore(t, k + 1)
  {
    SettledBeforeEvolves(s, t, k);
  }

  /** A consumed, finished and observed member is sealed. */
  lemma SealedMember(sc: Scope, i: nat, imaging: Imaging)
    requires i < |sc.members| && Accepted(sc.decl.family, sc.images, sc.members[i], imaging)
    requires SettledUpTo(sc, |sc.members|) && ObservedUpTo(sc, |sc.members|)
    ensures MemberSealed(sc.members[i])
  {
  }

  /** From freeze to seal: what the last guard saw makes every scope sealed. */
  lemma SealHolds(start: State, settled: State, quiet: State, last: State, imaging: Imaging)
    requires start.phase != Open && Cohorts(start) && Evolves(start, settled) && AllSettled(settled)
    requires quiet == settled.(phase := Finalizing) && StateStep(quiet, last, imaging)
    requires GuardPasses(last, true) && AllObserved(last)
    ensures ScopesEvolve(false, start.scopes, last.scopes) == true && ScopesSealed(last.scopes)
  {
    SettledBeforeEvolves(quiet, last, |quiet.scopes|);
    ScopesEvolveTransitive(false, start.scopes, quiet.scopes, last.scopes);
    forall k | 0 <= k < |last.scopes| ensures ScopeSealed(last.scopes[k]) {
      var sc := last.scopes[k];
      assert ScopeEvolves(false, start.scopes[k], sc);
      CoveredEvolves(false, start.scopes[k], sc);
      assert Current(last.page, last.poisoned, sc);
      assert ScopeInv(last.session.base, last.page.sequence, sc, imaging);
      forall i | 0 <= i < |sc.members| ensures MemberSealed(sc.members[i]) {
        SealedMember(sc, i, imaging);
      }
    }
  }

  class Group {
    const session: Session
    const imaging: Imaging

    var sequence: nat
    var documentSequence: Option<nat>
    var navigationSequence: Option<nat>
    var lineage: Option<Request>
    var navigation: Option<Request>
    var url: Url
    var shown: Url
    var redirected: set<Request>
    var poisoned: bool
    var armed: bool
    var phase: Phase
    var failure: Option<string>
    var scopes: seq<Scope>
    var site: Option<string>

    /** The state the group began in, and every move since. */
    ghost const origin: State
    ghost var moves: seq<Move>

    function PageView(): Page
      reads this
    {
      Page(sequence, documentSequence, navigationSequence, lineage, navigation, url, shown, redirected)
    }

    function View(): State
      reads this
    {
      State(session, PageView(), poisoned, armed, phase, failure, scopes)
    }

    /** The state is what the recorded moves, which go on from `earlier`, make of the first one. */
    ghost predicate Traced(earlier: seq<Move>)
      reads this
    {
      && Inv(origin, imaging) && View() == Replay(origin, moves, imaging)
      && earlier <= moves
    }

    /** The state after the first i moves. */
    ghost function At(i: nat): State
      requires i <= |moves|
      reads this
    {
      Replay(origin, moves[..i], imaging)
    }

    ghost method Record(move: Move, earlier: seq<Move>)
      requires Inv(origin, imaging) && View() == Take(Replay(origin, moves, imaging), move, imaging)
      requires earlier <= moves
      modifies this`moves
      ensures Traced(earlier) && moves == old(moves) + [move]
    {
      ReplayOne(origin, moves, move, imaging);
      moves := moves + [move];
    }

    constructor (session: Session, imaging: Imaging, page: Page, site: Option<string>)
      ensures this.session == session && this.imaging == imaging && this.site == site
      ensures View() == State(session, page, false, true, Open, None, [])
      ensures Traced([]) && moves == []
    {
      this.session, this.imaging, this.site := session, imaging, site;
      sequence, documentSequence, navigationSequence := page.sequence, page.document, page.asked;
      lineage, navigation, url, shown := page.lineage, page.navigation, page.url, page.shown;
      redirected := page.redirected;
      poisoned, armed, phase, failure, scopes := false, true, Open, None, [];
      origin, moves := State(session, page, false, true, Open, None, []), [];
    }

    method Fail(reason: string)
      modifies this`failure
      ensures failure == Latch(old(failure), reason)
    {
      if failure.None? { failure := Some(reason); }
    }

    // ----- Bodies and poison ------------------------------------------------------------

    method ObserveBody(k: nat, i: nat)
      requires HasMember(View(), k, i)
      modifies this`scopes, this`failure
      ensures View() == Observe(old(View()), k, i)
    {
      var sc, m := scopes[k], scopes[k].members[i];
      if !m.task.Done? || m.outcome.Some? {
        assert scopes[k := sc] == scopes;
        return;
      }
      var error := BodyError(m.task.result);
      scopes := scopes[k := sc.(members := sc.members[i := m.(outcome := Some(OutcomeOf(m.task.result)))],
                                settled := sc.settled + [m.sequence])];
      if error.Some? && !sc.track.aborted { Fail(error.value); }
    }

    method ObserveBodies()
      modifies this`scopes, this`failure
      ensures View() == ObserveAll(old(View()))
    {
      ghost var goal := ObserveAll(View());
      var k := 0;
      while k < |scopes|
        invariant ObserveFrom(View(), k, 0) == goal
        invariant |scopes| == |old(scopes)|
      {
        var i := 0;
        while i < |scopes[k].members|
          invariant k < |scopes| && |scopes| == |old(scopes)|
          invariant ObserveFrom(View(), k, i) == goal
          decreases |scopes[k].members| - i
        {
          ObserveBody(k, i);
          i := i + 1;
        }
        k := k + 1;
      }
    }

    method AbortLocally(k: nat)
      requires k < |scopes|
      modifies this`scopes
      ensures scopes == old(scopes)[k := AbortScope(old(scopes)[k])]
    {
      ghost var goal := AbortScope(scopes[k]);
      var sc := scopes[k];
      sc := sc.(track := sc.track.(aborted := true));
      var i := 0;
      while i < |sc.members|
        invariant AbortFrom(sc, i) == goal
      {
        var m := sc.members[i];
        if !m.task.NoTask? {
          m := m.(wakeActive := false);
          if m.task.Done? {
            sc := sc.(members := sc.members[i := m]);
            sc := ObserveMember(sc, i);
          } else {
            sc := sc.(members := sc.members[i := m.(cleanupAttached := true)]);
          }
        }
        i := i + 1;
      }
      scopes := scopes[k := sc];
    }

    method PoisonWith(error: string)
      modifies this`scopes, this`failure, this`poisoned
      ensures View() == Poison(old(View()), error)
    {
      ObserveBodies();
      poisoned := true;
      Fail(error);
      if armed {
        ghost var start, latched := scopes, failure;
        var k := |scopes|;
        while k > 0
          invariant 0 <= k <= |scopes| == |start| && poisoned && failure == latched
          invariant forall j :: 0 <= j < k ==> scopes[j] == start[j]
          invariant forall j :: k <= j < |start| ==> scopes[j] == AbortScope(start[j])
        {
          k := k - 1;
          AbortLocally(k);
        }
        assert scopes == AbortAll(start);
      }
    }

    // ----- Native callbacks ---------------------------------------------------------------

    method NavigationInScope(r: Request, k: nat)
      requires k < |scopes|
      modifies this`scopes
      ensures scopes == old(scopes)[k := NavigationRequest(PageView(), old(scopes)[k], r)]
    {
      var sc := scopes[k];
      if r.mainFrame && r.navigates {
        var valid := sc.decl.mode == NewDocument && sc.track.navigation.None? && sc.track.commit.None?
                     && r.verb == "GET" && r.url == sc.decl.target && !r.redirectedFrom;
        if valid {
          sc := sc.(track := sc.track.(navigation := Some(r), asked := Some(sequence)));
        } else {
          sc := sc.(track := sc.track.(invalid := true));
        }
      }
      scopes := scopes[k := sc];
    }

    method RequestInScope(r: Request, k: nat) returns (raised: bool)
      requires k < |scopes|
      modifies this`scopes, this`failure
      ensures raised <==> AtEndpoint(session.base, old(scopes)[k].decl.path, r.url) && QueryRaises(r.url)
      ensures raised ==> View() == WithScope(old(View()), k, NavigationRequest(old(PageView()), old(scopes)[k], r))
      ensures !raised ==> View() == RequestAt(old(View()), k, r)
    {
      NavigationInScope(r, k);
      var sc := scopes[k];
      if AtEndpoint(session.base, sc.decl.path, r.url) {
        if QueryRaises(r.url) { return true; }
        var eligible := QueryMatches(sc.decl.queries, r.url) && r.mainFrame && r.verb == "GET"
                        && Current(PageView(), poisoned, sc) && Unredirected(PageView(), r);
        if eligible { AdmitInScope(r, k); }
      }
      raised := false;
    }

    /** An eligible start joins an open group once, and fails the group otherwise. */
    method AdmitInScope(r: Request, k: nat)
      requires k < |scopes| && r.url.query.Parsed?
      modifies this`scopes, this`failure
      ensures var sc := old(scopes)[k];
              var known := IndexOf(sc.members, r) < |sc.members|;
              && scopes == (if phase == Open && !known
                            then old(scopes)[k := sc.(members := sc.members + [NewMember(r, sequence)])] else old(scopes))
              && failure == (if phase != Open then Latch(old(failure), "late-request")
                             else if known then Latch(old(failure), "duplicate-request-start") else old(failure))
    {
      var sc := scopes[k];
      if phase != Open {
        Fail("late-request");
      } else if IndexOf(sc.members, r) < |sc.members| {
        Fail("duplicate-request-start");
      } else {
        scopes := scopes[k := sc.(members := sc.members + [NewMember(r, sequence)])];
      }
    }

    method HandleRequest(r: Request)
      modifies this
      ensures View() == OnRequest(old(View()), r) && unchanged(`site, `moves)
    {
      NoteRequest(r);
      if armed { RequestScopes(r); }
    }

    /** Count the request, and remember it if it asks for a main-frame document. */
    method NoteRequest(r: Request)
      modifies this`sequence, this`navigation, this`navigationSequence
      ensures View() == Noted(Ticked(old(View())), r)
    {
      sequence := sequence + 1;
      if r.mainFrame && r.navigates {
        navigation := Some(r);
        navigationSequence := Some(sequence);
      }
    }

    /** The loop over the scopes. */
    method RequestScopes(r: Request)
      modifies this
      ensures View() == RequestFrom(old(View()), 0, r) && unchanged(`site, `moves)
    {
      ghost var goal, size := RequestFrom(View(), 0, r), |scopes|;
      var k := 0;
      while k < |scopes|
        invariant RequestFrom(View(), k, r) == goal && |scopes| == size && unchanged(`site, `moves)
      {
        var raised := RequestInScope(r, k);
        if raised {
          PoisonWith("invalid observation query");
          return;
        }
        k := k + 1;
      }
    }

    method NavigatedInScope(isNew: bool, u: Url, k: nat)
      requires k < |scopes|
      modifies this`scopes
      ensures scopes == old(scopes)[k := old(scopes)[k].(track := TrackNavigated(PageView(), old(scopes)[k], isNew, u))]
    {
      var sc := scopes[k];
      var t, target := sc.track, sc.decl.target;
      if isNew {
        var valid := sc.decl.mode == NewDocument && t.commit.None? && t.navigation == lineage
                     && u == target && !t.invalid;
        if valid {
          t := t.(lineage := lineage, commit := Some(sequence), reached := true);
        } else {
          t := t.(invalid := true);
        }
      } else {
        var valid := lineage.Some? && !t.invalid;
        if sc.decl.mode == NewDocument {
          if t.commit.None? {
            valid := valid && StillAtSource(PageView(), sc, u);
          } else {
            valid := valid && lineage == t.lineage && u == target && target == shown;
          }
        } else if t.reached {
          valid := valid && u == target;
        } else {
          valid := valid && (u == sc.decl.source.url || u == target);
          if valid && u == target { t := t.(reached := true); }
        }
        t := t.(invalid := t.invalid || !valid);
      }
      scopes := scopes[k := sc.(track := t)];
    }

    method HandleNavigated(p: Payload)
      modifies this
      ensures View() == OnNavigated(old(View()), p) && unchanged(`site, `moves)
    {
      sequence := sequence + 1;
      match p {
        case BadPayload => HandleBadPayload();
        case SameDocument(u) => HandleSameDocument(u);
        case NewDocumentAt(u, r) => HandleCommit(u, r);
      }
    }

    method HandleBadPayload()
      modifies this
      ensures View() == Poison(old(View()).(page := old(PageView()).(lineage := None)),
                               "unambiguous pinned main-frame navigation payload")
      ensures unchanged(`site, `moves)
    {
      lineage := None;
      PoisonWith("unambiguous pinned main-frame navigation payload");
    }

    method HandleSameDocument(u: Url)
      modifies this
      ensures View() == NavigatedScopes(old(View()).(page := old(PageView()).(url := u)), false, u) && unchanged(`site, `moves)
    {
      url := u;
      if armed { NavigateScopes(false, u); }
    }

    method HandleCommit(u: Url, r: Request)
      modifies this
      ensures View() == Committed(old(View()), u, r) && unchanged(`site, `moves)
    {
      if !CommitAccepted(PageView(), u, r) {
        lineage := None;
        PoisonWith("unredirected main-frame document commit");
      } else {
        lineage := Some(r);
        documentSequence := navigationSequence;
        navigation := None;
        url := u;
        if armed { NavigateScopes(true, u); }
      }
    }

    method NavigateScopes(isNew: bool, u: Url)
      requires armed
      modifies this`scopes
      ensures View() == NavigatedScopes(old(View()), isNew, u)
    {
      ghost var start := scopes;
      var k := 0;
      while k < |scopes|
        invariant k <= |scopes| == |start|
        invariant forall j :: 0 <= j < k ==> scopes[j] == start[j].(track := TrackNavigated(PageView(), start[j], isNew, u))
        invariant forall j :: k <= j < |scopes| ==> scopes[j] == start[j]
      {
        NavigatedInScope(isNew, u, k);
        k := k + 1;
      }
      assert scopes == NavigatedScopes(old(View()), isNew, u).scopes;
    }

    method ResponseInScope(response: Response, k: nat) returns (raised: bool)
      requires k < |scopes|
      modifies this`scopes, this`failure
      ensures raised <==> ResponseRaises(old(View()), k, response)
      ensures View() == if raised then old(View()) else ResponseAt(old(View()), k, response)
    {
      var sc := scopes[k];
      var i := IndexOf(sc.members, response.request);
      if i == |sc.members| { return false; }
      var m := sc.members[i];
      var valid := false;
      if AtEndpoint(session.base, sc.decl.path, response.url) {
        if QueryRaises(response.url) { return true; }
        valid := QueryMatches(sc.decl.queries, response.url) && Current(PageView(), poisoned, sc)
                 && m.request.verb == "GET" && m.request.mainFrame && response.status == 200
                 && Unredirected(PageView(), m.request) && m.response.None?;
      }
      if !valid {
        Fail("invalid-original-response");
      } else {
        m := m.(response := Some(response));
        m := m.(task := Running);
        m := m.(wakeActive := true);
        scopes := scopes[k := sc.(members := sc.members[i := m])];
      }
      raised := false;
    }

    method HandleResponse(response: Response)
      modifies this
      ensures View() == OnResponse(old(View()), response) && unchanged(`site, `moves)
    {
      sequence := sequence + 1;
      if armed { ResponseScopes(response); }
    }

    /** The loop over the scopes. */
    method ResponseScopes(response: Response)
      modifies this
      ensures View() == ResponseFrom(old(View()), 0, response) && unchanged(`site, `moves)
    {
      ghost var goal, size := ResponseFrom(View(), 0, response), |scopes|;
      var k := 0;
      while k < |scopes|
        invariant ResponseFrom(View(), k, response) == goal && |scopes| == size && unchanged(`site, `moves)
      {
        var raised := ResponseInScope(response, k);
        if raised {
          PoisonWith("invalid observation query");
          return;
        }
        k := k + 1;
      }
    }

    method FinishedInScope(r: Request, k: nat)
      requires k < |scopes|
      modifies this`scopes, this`failure
      ensures View() == FinishedAt(old(View()), k, r)
    {
      var sc := scopes[k];
      var i := IndexOf(sc.members, r);
      if i < |sc.members| {
        if r.redirectedFrom || r in redirected { Fail("redirected-member"); }
        scopes := scopes[k := sc.(members := sc.members[i := sc.members[i].(finished := true)])];
      }
    }

    method HandleFinished(r: Request)
      modifies this
      ensures View() == OnFinished(old(View()), r) && unchanged(`site, `moves)
    {
      sequence := sequence + 1;
      if !armed { return; }
      ghost var goal, size := FinishedFrom(View(), 0, r), |scopes|;
      var k := 0;
      while k < |scopes|
        invariant FinishedFrom(View(), k, r) == goal && |scopes| == size && unchanged(`site, `moves)
      {
        FinishedInScope(r, k);
        k := k + 1;
      }
    }

    method HandleFailed(r: Request)
      modifies this
      ensures View() == OnFailed(old(View()), r) && unchanged(`site, `moves)
    {
      sequence := sequence + 1;
      if !armed { return; }
      ghost var start := View();
      var k := 0;
      while k < |scopes|
        invariant k <= |scopes| && View() == start.(failure := failure) && unchanged(`site, `moves)
        invariant failure == if SomeMember(scopes[..k], r) then Latch(start.failure, "request-failed") else start.failure
      {
        if IndexOf(scopes[k].members, r) < |scopes[k].members| { Fail("request-failed"); }
        SomeMemberNext(scopes, k, r);
        k := k + 1;
      }
      assert scopes[..k] == scopes;
    }

    method HandleClosed()
      modifies this
      ensures View() == OnClosed(old(View())) && unchanged(`site, `moves)
    {
      if !armed { return; }
      ghost var start := View();
      var k := 0;
      while k < |scopes|
        invariant k <= |scopes| == |start.scopes| && unchanged(`site, `moves)
        invariant View() == start.(scopes := scopes, failure := if k == 0 then start.failure
                                                               else Latch(start.failure, "page-closed/crashed"))
        invariant forall j :: 0 <= j < k ==> scopes[j] == start.scopes[j].(track := start.scopes[j].track.(invalid := true))
        invariant forall j :: k <= j < |scopes| ==> scopes[j] == start.scopes[j]
      {
        scopes := scopes[k := scopes[k].(track := scopes[k].track.(invalid := true))];
        Fail("page-closed/crashed");
        k := k + 1;
      }
      assert start.scopes != [] ==> scopes == OnClosed(start).scopes;
    }

    /** One event of any kind, in the way the dispatcher delivers it. */
    method Deliver(e: Event)
      modifies this
      ensures View() == Apply(old(View()), e) && unchanged(`site, `moves)
    {
      match e
      case RequestStarted(r) => HandleRequest(r);
      case Navigated(p) => HandleNavigated(p);
      case ResponseReceived(response) => HandleResponse(response);
      case RequestFinished(r) => HandleFinished(r);
      case RequestFailed(r) => HandleFailed(r);
      case PageClosed => HandleClosed();
      case PageMoved(u) => shown := u;
      case Redirected(r) => redirected := redirected + {r};
      case TaskSettled(k, i, result) =>
        if HasMember(View(), k, i) && scopes[k].members[i].task.Running? {
          var sc := scopes[k];
          scopes := scopes[k := sc.(members := sc.members[i := sc.members[i].(task := Done(result))])];
        }
      case WakeDelivered(k, i) =>
        if HasMember(View(), k, i) && scopes[k].members[i].wakeActive { ObserveBody(k, i); }
      case CleanupDelivered(k, i) =>
        if HasMember(View(), k, i) && scopes[k].members[i].cleanupAttached {
          scopes := scopes[k := ObserveMember(scopes[k], i)];
        }
    }

    // ----- The owner ------------------------------------------------------------------------

    method Guard(inBound: bool) returns (ok: bool)
      requires Inv(View(), imaging) && Traced(moves)
      modifies this`scopes, this`failure, this`moves
      ensures View() == ObserveAll(old(View())) && StateStep(old(View()), View(), imaging)
      ensures Traced(old(moves)) && moves == old(moves) + [Guarded]
      ensures ok <==> GuardPasses(View(), inBound)
      ensures AllObserved(View())
    {
      ObserveAllStep(View(), imaging);
      ObserveBodies();
      Record(Guarded, moves);
      if failure.Some? || !inBound || poisoned { return false; }
      ok := AllCurrent();
    }

    /** The loop of the guard over the scopes. */
    method AllCurrent() returns (ok: bool)
      ensures ok <==> forall k :: 0 <= k < |scopes| ==> Current(PageView(), poisoned, scopes[k])
    {
      var k := 0;
      while k < |scopes|
        invariant k <= |scopes|
        invariant forall j :: 0 <= j < k ==> Current(PageView(), poisoned, scopes[j])
      {
        if !Current(PageView(), poisoned, scopes[k]) { return false; }
        k := k + 1;
      }
      ok := true;
    }

    /** The dispatcher runs: any number of any events. */
    method Drive()
      requires Inv(View(), imaging) && Traced(moves)
      modifies this
      ensures StateStep(old(View()), View(), imaging) && Traced(old(moves)) && site == old(site)
    {
      ScopesEvolveReflexive(phase == Open, scopes);
      var n: nat := *;
      while n > 0
        invariant StateStep(old(View()), View(), imaging) && Traced(old(moves)) && site == old(site)
      {
        var e: Event := *;
        ghost var before := View();
        ApplyStep(before, e, imaging);
        Deliver(e);
        Record(Happened(e), old(moves));
        StateStepTransitive(old(View()), before, View(), imaging);
        n := n - 1;
      }
    }

    /** wait(): guard, let events happen, and guard again; an exhausted budget is the deadline. */
    method Wait(r: Ready) returns (ok: bool)
      requires Inv(View(), imaging) && Traced(moves)
      modifies this
      ensures StateStep(old(View()), View(), imaging) && Traced(old(moves)) && site == old(site)
      ensures ok ==> Holds(View(), r) && GuardPasses(View(), true)
    {
      ok := Await(r);
      if ok { ok := Confirm(r, old(View())); }
    }

    method Confirm(r: Ready, ghost start: State) returns (ok: bool)
      requires Inv(View(), imaging) && Traced(moves) && StateStep(start, View(), imaging) && Holds(View(), r)
      modifies this
      ensures StateStep(start, View(), imaging) && Traced(old(moves)) && site == old(site)
      ensures ok ==> Holds(View(), r) && GuardPasses(View(), true)
    {
      ok := GuardAgain(start, r);
      if ok { ok := Reconfirm(r, start); }
    }

    /** Events may come between the two guards. */
    method Reconfirm(r: Ready, ghost start: State) returns (ok: bool)
      requires Inv(View(), imaging) && Traced(moves) && StateStep(start, View(), imaging) && Holds(View(), r)
      modifies this
      ensures StateStep(start, View(), imaging) && Traced(old(moves)) && site == old(site)
      ensures ok ==> Holds(View(), r) && GuardPasses(View(), true)
    {
      DriveHolding(r, start);
      ok := GuardAgain(start, r);
    }

    /** Events do not undo a condition that was waited for. */
    method DriveHolding(r: Ready, ghost start: State)
      requires Inv(View(), imaging) && Traced(moves) && StateStep(start, View(), imaging) && Holds(View(), r)
      modifies this
      ensures StateStep(start, View(), imaging) && Traced(old(moves)) && site == old(site) && Holds(View(), r)
    {
      Drive();
      StateStepTransitive(start, old(View()), View(), imaging);
      HoldsEvolves(old(View()), View(), r);
    }

    /** The polling loop of wait(). */
    method Await(r: Ready) returns (ok: bool)
      requires Inv(View(), imaging) && Traced(moves)
      modifies this
      ensures StateStep(old(View()), View(), imaging) && Traced(old(moves)) && site == old(site)
      ensures ok ==> Holds(View(), r)
    {
      ScopesEvolveReflexive(phase == Open, scopes);
      var budget: nat := *;
      ok := true;
      while !Holds(View(), r)
        invariant StateStep(old(View()), View(), imaging) && Traced(old(moves)) && site == old(site) && ok
        decreases budget
      {
        ok := Poll(old(View()), r, budget == 0);
        if !ok { return; }
        budget := budget - 1;
      }
    }

    /** One turn: guard, then either give up or let events happen. */
    method Poll(ghost start: State, r: Ready, exhausted: bool) returns (ok: bool)
      requires Inv(View(), imaging) && Traced(moves) && StateStep(start, View(), imaging)
      modifies this
      ensures StateStep(start, View(), imaging) && Traced(old(moves)) && site == old(site)
      ensures ok ==> !exhausted
    {
      ok := GuardAgain(start, r);
      ghost var before := View();
      if !ok || exhausted {
        GiveUp();
        ok := false;
      } else {
        Drive();
      }
      StateStepTransitive(start, before, View(), imaging);
    }

    /** The deadline or a failed guard poisons the browser. */
    method GiveUp()
      requires Inv(View(), imaging) && Traced(moves)
      modifies this
      ensures StateStep(old(View()), View(), imaging) && Traced(old(moves)) && site == old(site)
    {
      PoisonStep(View(), "group-current-bound", imaging);
      PoisonWith("group-current-bound");
      Record(GaveUp("group-current-bound"), moves);
    }

    /** A guard inside a longer stretch that began at `start`. */
    method GuardAgain(ghost start: State, r: Ready) returns (ok: bool)
      requires Inv(View(), imaging) && Traced(moves) && StateStep(start, View(), imaging)
      modifies this`scopes, this`failure, this`moves
      ensures StateStep(start, View(), imaging) && Traced(old(moves)) && StateStep(old(View()), View(), imaging)
      ensures old(Holds(View(), r)) ==> Holds(View(), r)
      ensures ok ==> GuardPasses(View(), true)
    {
      var inBound: bool := *;
      ok := Guard(inBound);
      StateStepTransitive(start, old(View()), View(), imaging);
      if old(Holds(View(), r)) { HoldsEvolves(old(View()), View(), r); }
    }

    method Consume(k: nat, i: nat) returns (ok: bool)
      requires Inv(View(), imaging) && Traced(moves) && HasMember(View(), k, i)
      modifies this
      ensures StateStep(old(View()), View(), imaging) && Traced(old(moves)) && site == old(site)
      ensures HasMember(View(), k, i) && (ok ==> scopes[k].members[i].json.Some? && Rechecked(View(), k, i))
    {
      ok := Wait(BodyDone(k, i));
      MemberKept(old(View()), View(), k, i);
      if ok { ok := ConsumeDone(k, i, old(View())); }
    }

    /** consume() once the body task is done. */
    method ConsumeDone(k: nat, i: nat, ghost start: State) returns (ok: bool)
      requires Inv(View(), imaging) && Traced(moves) && StateStep(start, View(), imaging) && HasMember(View(), k, i)
      modifies this`scopes, this`failure, this`moves
      ensures StateStep(start, View(), imaging) && Traced(old(moves))
      ensures HasMember(View(), k, i) && (ok ==> scopes[k].members[i].json.Some? && Rechecked(View(), k, i))
    {
      ok := DigestBody(k, i);
      StateStepTransitive(start, old(View()), View(), imaging);
      if ok { ok := Recheck(k, i, start); }
    }

    /** The end of consume(): guard once more, then compare the member with its request. */
    method Recheck(k: nat, i: nat, ghost start: State) returns (ok: bool)
      requires Inv(View(), imaging) && Traced(moves) && StateStep(start, View(), imaging)
      requires HasMember(View(), k, i) && scopes[k].members[i].json.Some?
      modifies this`scopes, this`failure, this`moves
      ensures StateStep(start, View(), imaging) && Traced(old(moves))
      ensures HasMember(View(), k, i) && scopes[k].members[i].json.Some?
      ensures ok ==> Rechecked(View(), k, i)
    {
      ok := GuardAgain(start, BodyDone(k, i));
      MemberKept(old(View()), View(), k, i);
      if ok { ok := Rechecked(View(), k, i); }
    }

    method DigestBody(k: nat, i: nat) returns (ok: bool)
      requires Inv(View(), imaging) && Traced(moves) && HasMember(View(), k, i)
      modifies this`scopes, this`moves
      ensures StateStep(old(View()), View(), imaging) && Traced(old(moves)) && HasMember(View(), k, i)
      ensures ok <==> DigestMember(old(scopes)[k], i, imaging).Some?
      ensures ok ==> scopes[k].members[i].json.Some?
      ensures scopes == if ok then old(scopes)[k := DigestMember(old(scopes)[k], i, imaging).value] else old(scopes)
    {
      ScopesEvolveReflexive(phase == Open, scopes);
      var sc, m := scopes[k], scopes[k].members[i];
      if m.json.Some? {
        assert scopes[k := sc] == scopes;
        return true;
      }
      if !m.task.Done? || !m.task.result.Bytes? || m.task.result.body.None? { return false; }
      var body := m.task.result.body.value;
      var image := imaging(sc.decl.family, body, m.query);
      if image.None? || (m.query in sc.images && sc.images[m.query] != image.value) { return false; }
      sc := sc.(images := sc.images[m.query := image.value]);
      sc := sc.(members := sc.members[i := m.(json := Some(body))]);
      KeepDigest(k, i, sc);
      ok := true;
    }

    method KeepDigest(k: nat, i: nat, sc: Scope)
      requires Inv(View(), imaging) && Traced(moves) && HasMember(View(), k, i)
      requires DigestMember(scopes[k], i, imaging) == Some(sc)
      modifies this`scopes, this`moves
      ensures StateStep(old(View()), View(), imaging) && Traced(old(moves)) && scopes == old(scopes)[k := sc]
    {
      DigestStep(View(), k, i, imaging);
      scopes := scopes[k := sc];
      Record(Digested(k, i), moves);
    }

    /** ready(): every declared query has a finished body and every member so far is consumed. */
    method ReadyScope(k: nat) returns (ok: bool)
      requires Inv(View(), imaging) && Traced(moves) && k < |scopes|
      modifies this
      ensures StateStep(old(View()), View(), imaging) && Traced(old(moves)) && site == old(site)
      ensures ok ==> Holds(View(), QueriesDone(k)) && Consumed(scopes[k])
    {
      if phase != Open {
        ScopesEvolveReflexive(phase == Open, scopes);
        return false;
      }
      ok := Wait(QueriesDone(k));
      if ok { ok := ConsumeRounds(k, old(View())); }
    }

    /** Consume until no member is left unconsumed, or time runs out. */
    method ConsumeRounds(k: nat, ghost start: State) returns (ok: bool)
      requires Inv(View(), imaging) && Traced(moves) && StateStep(start, View(), imaging)
      requires k < |scopes| && Holds(View(), QueriesDone(k))
      modifies this
      ensures StateStep(start, View(), imaging) && Traced(old(moves)) && site == old(site)
      ensures ok ==> Holds(View(), QueriesDone(k)) && Consumed(scopes[k])
    {
      ok := true;
      var rounds: nat := *;
      while !Consumed(scopes[k])
        invariant StateStep(start, View(), imaging) && Traced(old(moves)) && site == old(site)
        invariant Holds(View(), QueriesDone(k)) && ok
        decreases rounds
      {
        if rounds == 0 { return false; }
        ok := ConsumeRound(k, start);
        if !ok { return; }
        rounds := rounds - 1;
      }
    }

    method ConsumeRound(k: nat, ghost start: State) returns (ok: bool)
      requires Inv(View(), imaging) && Traced(moves) && StateStep(start, View(), imaging)
      requires k < |scopes| && Holds(View(), QueriesDone(k))
      modifies this
      ensures StateStep(start, View(), imaging) && Traced(old(moves)) && site == old(site)
      ensures Holds(View(), QueriesDone(k))
    {
      ok := ConsumeScope(k);
      StateStepTransitive(start, old(View()), View(), imaging);
      HoldsEvolves(old(View()), View(), QueriesDone(k));
    }

    /** Consume the members a scope has now; more may be admitted meanwhile. */
    method ConsumeScope(k: nat) returns (ok: bool)
      requires Inv(View(), imaging) && Traced(moves) && k < |scopes|
      modifies this
      ensures StateStep(old(View()), View(), imaging) && Traced(old(moves)) && site == old(site)
    {
      ScopesEvolveReflexive(phase == Open, scopes);
      ok := true;
      var n, i := |scopes[k].members|, 0;
      while i < n
        invariant n > 0 ==> HasMember(View(), k, n - 1)
        invariant StateStep(old(View()), View(), imaging) && Traced(old(moves)) && site == old(site)
      {
        ghost var before := View();
        ok := Consume(k, i);
        StateStepTransitive(old(View()), before, View(), imaging);
        MemberKept(before, View(), k, n - 1);
        if !ok { return; }
        i := i + 1;
      }
    }

    /** response(): arm one more endpoint. */
    method ArmScope(path: string, family: Family) returns (ok: bool)
      requires Inv(View(), imaging) && Traced(moves) && Declared(scopes)
      modifies this`scopes, this`moves
      ensures Inv(View(), imaging) && Declared(scopes) && Traced(old(moves))
      ensures ok <==> CanArm(old(View()), path)
      ensures View() == if ok then Arm(old(View()), path, family, RootsPages.Queries(family)) else old(View())
    {
      var queries := RootsPages.Queries(family);
      if phase != Open || exists k :: 0 <= k < |scopes| && scopes[k].decl.path == path { return false; }
      AddScope(path, family, queries);
      ok := true;
    }

    method AddScope(path: string, family: Family, queries: seq<Fields>)
      requires Inv(View(), imaging) && Traced(moves) && CanArm(View(), path) && queries == RootsPages.Queries(family)
      modifies this`scopes, this`moves
      ensures Inv(View(), imaging) && Traced(old(moves))
      ensures View() == Arm(old(View()), path, family, queries)
    {
      ArmStep(View(), path, family, queries, imaging);
      scopes := scopes + [NewScope(View(), path, family, queries)];
      Record(Armed(path, family), moves);
    }

    /** checkpoint(): wait until every scope is ready, guard, and freeze the cohorts. */
    method Checkpoint(declared: string) returns (ok: bool)
      requires Inv(View(), imaging) && Traced(moves)
      modifies this
      ensures Inv(View(), imaging) && Traced(old(moves)) && Continues(old(View()), View())
      ensures ok ==> old(phase) == Open && phase == Frozen && Cohorts(View()) && site == Some(declared)
      ensures ok ==> ScopesEvolve(true, old(scopes), scopes) == true
      ensures Doomed(old(View())) ==> !ok && Doomed(View())
      ensures !ok ==> phase == old(phase) && site == old(site)
    {
      ScopesEvolveReflexive(phase == Open, scopes);
      ok := false;
      if site.None? || site.value == declared { ok := ReadyAll(); }
      EvolvesContinues(old(View()), View());
      if ok {
        ghost var ready := View();
        ok := FreezeCohorts(declared);
        ContinuesTransitive(old(View()), ready, View());
        if ok { ScopesEvolveTransitive(true, old(scopes), ready.scopes, scopes); }
      }
      if Doomed(old(View())) { DoomedStays(old(View()), View()); }
    }

    /** The loop of checkpoint() over the scopes. */
    method ReadyAll() returns (ok: bool)
      requires Inv(View(), imaging) && Traced(moves)
      modifies this
      ensures StateStep(old(View()), View(), imaging) && Traced(old(moves)) && site == old(site)
      ensures ok ==> ReadyBefore(View(), |scopes|)
    {
      ScopesEvolveReflexive(phase == Open, scopes);
      ok := true;
      var k := 0;
      while k < |scopes|
        invariant StateStep(old(View()), View(), imaging) && Traced(old(moves)) && site == old(site)
        invariant ReadyBefore(View(), k) && ok
      {
        ghost var before := View();
        ok := ReadyScope(k);
        StateStepTransitive(old(View()), before, View(), imaging);
        if !ok { return; }
        ReadyNext(before, View(), k);
        k := k + 1;
      }
    }

    method FreezeCohorts(declared: string) returns (ok: bool)
      requires Inv(View(), imaging) && Traced(moves) && ReadyBefore(View(), |scopes|)
      modifies this
      ensures Inv(View(), imaging) && Traced(old(moves)) && Continues(old(View()), View())
      ensures ok ==> old(phase) == Open && phase == Frozen && Cohorts(View()) && site == Some(declared)
      ensures ok ==> ScopesEvolve(true, old(scopes), scopes) == true && !Doomed(View())
      ensures !ok ==> phase == old(phase) && site == old(site)
    {
      var inBound: bool := *;
      ok := Guard(inBound);
      EvolvesContinues(old(View()), View());
      if !ok { return; }
      if phase != Open || scopes == [] || exists k :: 0 <= k < |scopes| && scopes[k].members == [] { return false; }
      CohortsReady(old(View()), View());
      ghost var guarded := View();
      Freeze(declared);
      ContinuesTransitive(old(View()), guarded, View());
    }

    method Freeze(declared: string)
      requires Inv(View(), imaging) && Traced(moves) && Cohorts(View().(phase := Frozen)) && CanFreeze(View())
      modifies `phase, `site, `moves
      ensures Inv(View(), imaging) && Traced(old(moves)) && Continues(old(View()), View())
      ensures phase == Frozen && site == Some(declared) && Cohorts(View()) && !Doomed(View())
    {
      PhaseKeeps(View(), View().(phase := Frozen), imaging);
      GuardedNotDoomed(View());
      phase := Frozen;
      site := Some(declared);
      Record(Froze, moves);
    }

    /** One member in finalize(): its body and then its finish event. */
    method SettleMember(k: nat, i: nat) returns (ok: bool)
      requires Inv(View(), imaging) && Traced(moves) && HasMember(View(), k, i)
      modifies this
      ensures StateStep(old(View()), View(), imaging) && Traced(old(moves)) && HasMember(View(), k, i)
      ensures ok ==> scopes[k].members[i].json.Some? && scopes[k].members[i].finished
    {
      ok := Consume(k, i);
      if !ok { return; }
      ghost var one := View();
      ok := Wait(FinishSeen(k, i));
      StateStepTransitive(old(View()), one, View(), imaging);
      MemberKept(one, View(), k, i);
      if !ok { return; }
      ghost var two := View();
      ok := Consume(k, i);
      StateStepTransitive(old(View()), two, View(), imaging);
      MemberKept(two, View(), k, i);
    }

    /** All members of scope k, while membership is frozen. */
    method SettleScope(k: nat) returns (ok: bool)
      requires Inv(View(), imaging) && Traced(moves) && k < |scopes| && phase != Open
      modifies this
      ensures StateStep(old(View()), View(), imaging) && Traced(old(moves))
      ensures ok ==> SettledUpTo(scopes[k], |scopes[k].members|)
    {
      ScopesEvolveReflexive(phase == Open, scopes);
      ok := true;
      var i := 0;
      while i < |scopes[k].members|
        invariant k < |scopes| && i <= |scopes[k].members| == |old(scopes)[k].members| && phase != Open
        invariant StateStep(old(View()), View(), imaging) && Traced(old(moves)) && SettledUpTo(scopes[k], i)
        invariant ok
      {
        ghost var before := View();
        ok := SettleMember(k, i);
        StateStepTransitive(old(View()), before, View(), imaging);
        SettledNext(before, View(), k, i);
        if !ok { return; }
        i := i + 1;
      }
    }

    method SettleAll() returns (ok: bool)
      requires Inv(View(), imaging) && Traced(moves) && phase != Open
      modifies this
      ensures StateStep(old(View()), View(), imaging) && Traced(old(moves))
      ensures ok ==> AllSettled(View())
    {
      ScopesEvolveReflexive(phase == Open, scopes);
      ok := true;
      var k := 0;
      while k < |scopes|
        invariant phase != Open && StateStep(old(View()), View(), imaging) && Traced(old(moves)) && SettledBefore(View(), k)
        invariant ok
      {
        ghost var before := View();
        ok := SettleScope(k);
        StateStepTransitive(old(View()), before, View(), imaging);
        if !ok { return; }
        SettledBeforeNext(before, View(), k);
        k := k + 1;
      }
    }

    method DetachScope(k: nat)
      requires k < |scopes|
      modifies this`scopes
      ensures scopes == old(scopes)[k := DetachWakes(old(scopes)[k])]
    {
      var sc, i := scopes[k], 0;
      while i < |sc.members|
        invariant i <= |sc.members| == |scopes[k].members| && sc == scopes[k].(members := sc.members)
        invariant forall j :: 0 <= j < i ==> sc.members[j] == scopes[k].members[j].(wakeActive := false)
        invariant forall j :: i <= j < |sc.members| ==> sc.members[j] == scopes[k].members[j]
      {
        sc := sc.(members := sc.members[i := sc.members[i].(wakeActive := false)]);
        i := i + 1;
      }
      assert sc.members == DetachWakes(scopes[k]).members;
      scopes := scopes[k := sc];
    }

    method DetachNext(k: nat)
      requires Inv(View(), imaging) && Traced(moves) && phase == Finalizing && k < |scopes|
      modifies this`scopes, this`moves
      ensures StateStep(old(View()), View(), imaging) && moves == old(moves) + [Detached(k)] && Traced(moves)
    {
      DetachStep(View(), k, imaging);
      DetachScope(k);
      Record(Detached(k), moves);
    }

    method DetachAllWakes()
      requires Inv(View(), imaging) && Traced(moves) && phase == Finalizing
      modifies this`scopes, this`moves
      ensures StateStep(old(View()), View(), imaging) && Traced(old(moves))
    {
      ScopesEvolveReflexive(phase == Open, scopes);
      var k := 0;
      while k < |scopes|
        invariant StateStep(old(View()), View(), imaging) && Traced(old(moves))
      {
        ghost var before := View();
        DetachNext(k);
        StateStepTransitive(old(View()), before, View(), imaging);
        k := k + 1;
      }
    }

    /** finalize(): settle every member of the frozen cohorts, and seal without yielding. */
    method Finalize() returns (ok: bool)
      requires Inv(View(), imaging) && Traced(moves) && (phase == Frozen ==> Cohorts(View()))
      modifies this
      ensures Inv(View(), imaging) && Traced(old(moves)) && Continues(old(View()), View())
      ensures ok ==> old(phase) == Frozen && Sealed(View()) && !armed && !Doomed(View())
      ensures ok ==> ScopesEvolve(false, old(scopes), scopes) == true
      ensures Doomed(old(View())) ==> !ok && Doomed(View())
      ensures !ok ==> phase == old(phase) || phase == Settling || phase == Finalizing
    {
      PhaseContinues(View(), phase, armed);
      ok := false;
      if phase == Frozen { ok := SettleAndSeal(); }
      if Doomed(old(View())) { DoomedStays(old(View()), View()); }
    }

    method SettleAndSeal() returns (ok: bool)
      requires Inv(View(), imaging) && Traced(moves) && phase == Frozen && Cohorts(View())
      modifies this
      ensures Inv(View(), imaging) && Traced(old(moves)) && Continues(old(View()), View())
      ensures ok ==> Sealed(View()) && !armed && !Doomed(View())
      ensures ok ==> ScopesEvolve(false, old(scopes), scopes) == true
      ensures !ok ==> phase == Settling || phase == Finalizing
    {
      BeginSettling();
      ghost var start := View();
      ok := SettleThenSeal();
      ContinuesTransitive(old(View()), start, View());
    }

    method BeginSettling()
      requires Inv(View(), imaging) && Traced(moves) && phase == Frozen
      modifies this`phase, this`moves
      ensures Inv(View(), imaging) && Traced(old(moves)) && View() == old(View()).(phase := Settling)
      ensures Continues(old(View()), View())
    {
      PhaseKeeps(View(), View().(phase := Settling), imaging);
      phase := Settling;
      Record(BeganSettling, moves);
    }

    method SettleThenSeal() returns (ok: bool)
      requires Inv(View(), imaging) && Traced(moves) && phase == Settling && Cohorts(View())
      modifies this
      ensures Inv(View(), imaging) && Traced(old(moves)) && Continues(old(View()), View())
      ensures ok ==> Sealed(View()) && !armed && !Doomed(View())
      ensures ok ==> ScopesEvolve(false, old(scopes), scopes) == true
      ensures !ok ==> phase == Settling || phase == Finalizing
    {
      ok := Settle();
      if ok {
        ghost var settled := View();
        ok := Seal(old(View()));
        ContinuesTransitive(old(View()), settled, View());
      }
    }

    /** Every member settles, and the guard passes once more. */
    method Settle() returns (ok: bool)
      requires Inv(View(), imaging) && Traced(moves) && phase == Settling
      modifies this
      ensures StateStep(old(View()), View(), imaging) && Traced(old(moves))
      ensures Continues(old(View()), View()) && (ok ==> AllSettled(View()))
    {
      ok := SettleAll();
      if ok {
        ghost var settled := View();
        ok := GuardAgain(old(View()), SomeMemberOf(0));
        SettledBeforeEvolves(settled, View(), |settled.scopes|);
      }
      EvolvesContinues(old(View()), View());
    }

    /** Every body task is done, and neither cancelled nor failed. */
    method TasksSettled() returns (ok: bool)
      ensures ok <==> forall k :: 0 <= k < |scopes| ==> TasksDone(scopes[k].members)
    {
      var k := 0;
      while k < |scopes|
        invariant k <= |scopes|
        invariant forall a :: 0 <= a < k ==> TasksDone(scopes[a].members)
      {
        if !TasksDone(scopes[k].members) { return false; }
        k := k + 1;
      }
      ok := true;
    }

    /** Detach wakes, run the caller's final checks and disposals, and guard twice. */
    method LastGuards() returns (ok: bool)
      requires Inv(View(), imaging) && Traced(moves) && phase == Finalizing
      modifies this`scopes, this`failure, this`moves
      ensures StateStep(old(View()), View(), imaging) && Traced(old(moves))
      ensures ok ==> GuardPasses(View(), true) && AllObserved(View())
    {
      DetachAllWakes();
      var checks: bool := *;
      if !checks { return false; }
      ok := GuardTwice(old(View()));
    }

    method GuardTwice(ghost start: State) returns (ok: bool)
      requires Inv(View(), imaging) && Traced(moves) && StateStep(start, View(), imaging)
      modifies this`scopes, this`failure, this`moves
      ensures StateStep(start, View(), imaging) && Traced(old(moves))
      ensures ok ==> GuardPasses(View(), true) && AllObserved(View())
    {
      ok := GuardAgain(start, SomeMemberOf(0));
      if !ok { return; }
      ghost var guarded := View();
      var inBound: bool := *;
      ok := Guard(inBound);
      StateStepTransitive(start, guarded, View(), imaging);
    }

    /** The part of finalize() that never yields to the dispatcher. */
    method Seal(ghost start: State) returns (ok: bool)
      requires Inv(View(), imaging) && Traced(moves) && phase == Settling && AllSettled(View())
      requires start.phase == Settling && Cohorts(start) && Evolves(start, View())
      modifies this`phase, this`armed, this`scopes, this`failure, this`moves
      ensures Inv(View(), imaging) && Traced(old(moves)) && Continues(old(View()), View())
      ensures ok ==> Sealed(View()) && !armed && !Doomed(View())
      ensures ok ==> ScopesEvolve(false, start.scopes, scopes) == true
      ensures !ok ==> phase == Finalizing
    {
      ghost var settled := View();
      ok := Quieten();
      if ok {
        ghost var checked := View();
        SealHolds(start, settled, settled.(phase := Finalizing), checked, imaging);
        Finish();
        ContinuesTransitive(settled, checked, View());
      }
    }

    /** From here on nothing yields; the last checks are made. */
    method Quieten() returns (ok: bool)
      requires Inv(View(), imaging) && Traced(moves) && phase == Settling
      modifies this`phase, this`scopes, this`failure, this`moves
      ensures StateStep(old(View()).(phase := Finalizing), View(), imaging) && Traced(old(moves))
      ensures Continues(old(View()), View()) && phase == Finalizing
      ensures ok ==> GuardPasses(View(), true) && AllObserved(View())
    {
      ghost var quiet := View().(phase := Finalizing);
      PhaseKeeps(View(), quiet, imaging);
      phase := Finalizing;
      Record(BeganFinalizing, moves);
      ok := LastChecks();
      EvolvesContinues(quiet, View());
      ContinuesTransitive(old(View()), quiet, View());
    }

    method LastChecks() returns (ok: bool)
      requires Inv(View(), imaging) && Traced(moves) && phase == Finalizing
      modifies this`scopes, this`failure, this`moves
      ensures StateStep(old(View()), View(), imaging) && Traced(old(moves))
      ensures ok ==> GuardPasses(View(), true) && AllObserved(View())
    {
      ScopesEvolveReflexive(phase == Open, scopes);
      ok := TasksSettled();
      if ok { ok := LastGuards(); }
    }

    method Finish()
      requires Inv(View(), imaging) && Traced(moves) && phase == Finalizing && GuardPasses(View(), true)
      modifies this`phase, this`armed, this`moves
      ensures Inv(View(), imaging) && Traced(old(moves)) && Continues(old(View()), View())
      ensures phase == Finalized && !armed && !Doomed(View())
    {
      PhaseKeeps(View(), View().(phase := Finalized, armed := false), imaging);
      GuardedNotDoomed(View());
      armed := false;
      phase := Finalized;
      Record(Seals, moves);
    }

    method Unwind(error: string)
      modifies this
      ensures View() == Refuse(old(View()), error) && unchanged(`moves)
    {
      ObserveBodies();
      phase := Refused;
      PoisonWith(error);
      armed := false;
    }

    /** The except branch of observation_group(). */
    method RefuseWith(error: string)
      requires Inv(View(), imaging) && Traced(moves)
      modifies this
      ensures View() == Refuse(old(View()), error)
      ensures phase == Refused && !armed && poisoned && failure.Some?
      ensures Inv(View(), imaging) && Traced(old(moves)) && Continues(old(View()), View())
    {
      RefuseKeeps(View(), error, imaging);
      Unwind(error);
      Record(Refuses(error), moves);
    }

    /** observation_group(): any use of an open group, its checkpoint, and finalization. */
    method Run(declared: string) returns (sealed: bool)
      requires Inv(View(), imaging) && Traced(moves) && phase == Open && Declared(scopes)
      modifies this
      ensures Inv(View(), imaging) && Traced(old(moves)) && !armed
      ensures sealed ==> Sealed(View()) && Declared(scopes)
      ensures !sealed ==> phase == Refused && poisoned && failure.Some?
      ensures forall i :: 0 <= i <= |moves| ==> Continues(At(i), View())
      ensures forall i :: 0 <= i <= |moves| && At(i).failure.Some? ==> failure == At(i).failure
      ensures sealed ==> forall i :: 0 <= i <= |moves| ==> !Doomed(At(i))
    {
      sealed := RunBody(declared);
      if !sealed { RefuseWith("observation-error"); }
      forall i | 0 <= i <= |moves| ensures Continues(At(i), View()) && (Doomed(At(i)) ==> Doomed(View())) {
        EarlierContinues(i);
      }
    }

    /** What any earlier state had latched, the present one has. */
    lemma EarlierContinues(i: nat)
      requires Traced([]) && i <= |moves|
      ensures Continues(At(i), View()) && (Doomed(At(i)) ==> Doomed(View()))
    {
      assert moves == moves[..i] + moves[i..];
      ReplayAppend(origin, moves[..i], moves[i..], imaging);
      ReplayKeeps(origin, moves[..i], imaging);
      ReplayKeeps(At(i), moves[i..], imaging);
      if Doomed(At(i)) { DoomedStays(At(i), View()); }
    }

    /** The body of observation_group(), up to the error that its except branch catches. */
    method RunBody(declared: string) returns (ok: bool)
      requires Inv(View(), imaging) && Traced(moves) && phase == Open && Declared(scopes)
      modifies this
      ensures Inv(View(), imaging) && Traced(old(moves))
      ensures ok ==> Sealed(View()) && Declared(scopes) && !armed && !Doomed(View())
    {
      ok := UseOpen();
      if !ok { return; }
      ghost var open := scopes;
      ok := Checkpoint(declared);
      if !ok { return; }
      DeclaredEvolves(open, scopes);
      ok := UseFrozen();
    }

    /** Everything a caller does before the checkpoint. */
    method UseOpen() returns (ok: bool)
      requires Inv(View(), imaging) && Traced(moves) && phase == Open && Declared(scopes)
      modifies this
      ensures Inv(View(), imaging) && Traced(old(moves)) && phase == Open && Declared(scopes)
    {
      var n: nat := *;
      ok := true;
      while n > 0
        invariant Inv(View(), imaging) && Traced(old(moves)) && phase == Open && Declared(scopes)
      {
        ok := OpenStep();
        if !ok { return; }
        n := n - 1;
      }
    }

    /** From the checkpoint to the seal. */
    method UseFrozen() returns (ok: bool)
      requires Inv(View(), imaging) && Traced(moves) && phase == Frozen && Cohorts(View()) && Declared(scopes)
      modifies this
      ensures Inv(View(), imaging) && Traced(old(moves))
      ensures ok ==> Sealed(View()) && Declared(scopes) && !armed && !Doomed(View())
    {
      Drive();
      CohortsEvolve(old(View()), View());
      DeclaredEvolves(old(scopes), scopes);
      ghost var driven := scopes;
      ok := Finalize();
      if ok { DeclaredEvolves(driven, scopes); }
    }

    /** What a caller may do while the group is open. */
    method OpenStep() returns (ok: bool)
      requires Inv(View(), imaging) && Traced(moves) && phase == Open && Declared(scopes)
      modifies this
      ensures Inv(View(), imaging) && Traced(old(moves)) && Continues(old(View()), View())
      ensures phase == Open && Declared(scopes) && (Doomed(old(View())) ==> Doomed(View()))
    {
      var choice: nat := *;
      if choice == 0 {
        var path: string, family: Family := *, *;
        if CanArm(View(), path) { ArmKeeps(View(), path, family, RootsPages.Queries(family), imaging); }
        PhaseContinues(View(), phase, armed);
        ok := ArmScope(path, family);
      } else {
        ok := OpenUse(choice == 1);
        EvolvesContinues(old(View()), View());
      }
      if Doomed(old(View())) { DoomedStays(old(View()), View()); }
    }

    /** Wait for a member and consume it, or let events happen. */
    method OpenUse(consuming: bool) returns (ok: bool)
      requires Inv(View(), imaging) && Traced(moves) && phase == Open && Declared(scopes)
      modifies this
      ensures StateStep(old(View()), View(), imaging) && Traced(old(moves)) && Declared(scopes)
    {
      var k: nat := *;
      if consuming && k < |scopes| {
        ok := Wait(SomeMemberOf(k));
        if ok {
          ghost var waited := View();
          ok := Consume(k, 0);
          StateStepTransitive(old(View()), waited, View(), imaging);
        }
      } else {
        Drive();
        ok := true;
      }
      DeclaredEvolves(old(scopes), scopes);
    }
  }

  lemma SomeMemberNext(scopes: seq<Scope>, k: nat, r: Request)
    requires k < |scopes|
    ensures SomeMember(scopes[..k + 1], r) <==>
            SomeMember(scopes[..k], r) || IndexOf(scopes[k].members, r) < |scopes[k].members|
  {
    assert scopes[..k + 1] == scopes[..k] + [scopes[k]];
    if IndexOf(scopes[k].members, r) < |scopes[k].members| {
      assert scopes[..k + 1][k] == scopes[k];
    }
    if SomeMember(scopes[..k], r) {
      var j :| 0 <= j < k && IndexOf(scopes[..k][j].members, r) < |scopes[..k][j].members|;
      assert scopes[..k + 1][j] == scopes[..k][j];
    }
    if SomeMember(scopes[..k + 1], r) {
      var j :| 0 <= j < k + 1 && IndexOf(scopes[..k + 1][j].members, r) < |scopes[..k + 1][j].members|;
      if j < k { assert scopes[..k][j] == scopes[..k + 1][j]; }
    }
  }
}
