/** What every run of the observation group guarantees. */
module ObservationTheorems {
  import opened Prelude
  import opened ObservationModel
  import opened ObservationInvariants
  import opened ObservationRuns
  import opened ObservationGroup
  import opened RootsPages

  // ----- Latches and frozen cohorts ---------------------------------------------------------

  /** The first latched failure stays the group's failure, whatever the owner and the browser do later. */
  lemma FirstFailureWins(s: State, moves: seq<Move>, imaging: Imaging)
    requires Inv(s, imaging) && s.failure.Some?
    ensures Replay(s, moves, imaging).failure == s.failure
  {
    ReplayKeeps(s, moves, imaging);
  }

  /** Once the group is not open, no run adds, drops or reorders a member. */
  lemma FrozenCohort(s: State, moves: seq<Move>, imaging: Imaging)
    requires Inv(s, imaging) && s.phase != Open
    ensures var t := Replay(s, moves, imaging);
            && t.phase != Open && |t.scopes| == |s.scopes|
            && forall k :: 0 <= k < |s.scopes| ==>
                 && |t.scopes[k].members| == |s.scopes[k].members|
                 && forall i :: 0 <= i < |s.scopes[k].members| ==>
                      && t.scopes[k].members[i].request == s.scopes[k].members[i].request
                      && t.scopes[k].members[i].sequence == s.scopes[k].members[i].sequence
                      && t.scopes[k].members[i].query == s.scopes[k].members[i].query
  {
    ReplayKeeps(s, moves, imaging);
    var t := Replay(s, moves, imaging);
    forall k | 0 <= k < |s.scopes|
      ensures |t.scopes[k].members| == |s.scopes[k].members|
              && forall i :: 0 <= i < |s.scopes[k].members| ==> MemberEvolves(s.scopes[k].members[i], t.scopes[k].members[i])
    {
      assert ScopeEvolves(false, s.scopes[k], t.scopes[k]);
    }
  }

  /** A run that ends sealed passed through no doomed state on the way. */
  lemma SealedRunClean(s: State, moves: seq<Move>, i: nat, imaging: Imaging)
    requires Inv(s, imaging) && i <= |moves|
    requires Replay(s, moves[..i], imaging).phase != Finalized && Replay(s, moves, imaging).phase == Finalized
    ensures !Doomed(Replay(s, moves[..i], imaging))
  {
    assert moves == moves[..i] + moves[i..];
    ReplayAppend(s, moves[..i], moves[i..], imaging);
    ReplayKeeps(s, moves[..i], imaging);
    if Doomed(Replay(s, moves[..i], imaging)) {
      DoomedNeverSeals(Replay(s, moves[..i], imaging), moves[i..], imaging);
    }
  }

  lemma {:induction false} RequestKeepsFailure(s: State, k: nat, r: Request)
    requires s.failure.Some?
    ensures RequestFrom(s, k, r).failure.Some?
    decreases |s.scopes| - k
  {
    if k < |s.scopes| && !(AtEndpoint(s.session.base, s.scopes[k].decl.path, r.url) && QueryRaises(r.url)) {
      RequestKeepsFailure(RequestAt(s, k, r), k + 1, r);
    }
  }

  lemma {:induction false} LateStart(s: State, k: nat, j: nat, r: Request)
    requires s.phase != Open && k <= j < |s.scopes|
    requires Eligible(s, NavigationRequest(s.page, s.scopes[j], r), r)
    ensures RequestFrom(s, k, r).failure.Some?
    decreases |s.scopes| - k
  {
    if AtEndpoint(s.session.base, s.scopes[k].decl.path, r.url) && QueryRaises(r.url) {
    } else if k == j {
      RequestKeepsFailure(RequestAt(s, k, r), k + 1, r);
    } else {
      LateStart(RequestAt(s, k, r), k + 1, j, r);
    }
  }

  /** An eligible start after the checkpoint dooms the group: no continuation seals it. */
  lemma LateRequestPreventsSeal(s: State, j: nat, r: Request, moves: seq<Move>, imaging: Imaging)
    requires Inv(s, imaging) && s.armed && s.phase != Open && j < |s.scopes|
    requires var t := Noted(Ticked(s), r); Eligible(t, NavigationRequest(t.page, s.scopes[j], r), r)
    ensures OnRequest(s, r).failure.Some?
    ensures var t := Replay(s, [Happened(RequestStarted(r))] + moves, imaging);
            Doomed(t) && (s.phase != Finalized ==> t.phase != Finalized)
  {
    LateStart(Noted(Ticked(s), r), 0, j, r);
    DoomedAfter(s, RequestStarted(r), moves, imaging);
  }

  lemma DoomedAfter(s: State, e: Event, moves: seq<Move>, imaging: Imaging)
    requires Inv(s, imaging) && Doomed(Apply(s, e))
    ensures var t := Replay(s, [Happened(e)] + moves, imaging);
            Doomed(t) && (s.phase != Finalized ==> t.phase != Finalized)
  {
    ApplyStep(s, e, imaging);
    assert ([Happened(e)] + moves)[1..] == moves;
    DoomedNeverSeals(Apply(s, e), moves, imaging);
  }

  // ----- Document lineage -------------------------------------------------------------------

  /** The first request for the very document a new-document scope is waiting for. */
  predicate OwnRequest(sc: Scope, r: Request) {
    && sc.decl.mode == NewDocument && sc.track.navigation.None? && sc.track.commit.None?
    && r.verb == "GET" && r.url == sc.decl.target && !r.redirectedFrom
  }

  /** The commit of that request, and of no other. */
  predicate OwnCommit(s: State, sc: Scope, u: Url, r: Request) {
    && CommitAccepted(s.page, u, r)
    && sc.decl.mode == NewDocument && sc.track.commit.None? && sc.track.navigation == Some(r) && u == sc.decl.target
  }

  /** Does this event leave, or supersede, the document this scope was promised? */
  predicate Departs(s: State, sc: Scope, e: Event) {
    match e
    case RequestStarted(r) => r.mainFrame && r.navigates && !OwnRequest(sc, r)
    case Navigated(SameDocument(u)) => !SameDocumentValid(s.page, sc, u)
    case Navigated(NewDocumentAt(u, r)) => !OwnCommit(s, sc, u, r)
    case Navigated(BadPayload) => true
    case PageClosed => true
    case _ => false
  }

  /** From a reached target every other address, every new document and every navigation request is a departure. */
  lemma ReachedDeparts(s: State, k: nat, e: Event, imaging: Imaging)
    requires Inv(s, imaging) && k < |s.scopes| && s.scopes[k].track.reached
    ensures e.Navigated? && (e.payload.SameDocument? ==> e.payload.url != s.scopes[k].decl.target) ==> Departs(s, s.scopes[k], e)
    ensures e.RequestStarted? && e.request.mainFrame && e.request.navigates ==> Departs(s, s.scopes[k], e)
  {
    assert ScopeInv(s.session.base, s.page.sequence, s.scopes[k], imaging);
  }

  lemma {:induction false} RequestKeepsScopes(s: State, k: nat, j: nat, r: Request)
    requires j < k && j < |s.scopes|
    ensures var t := RequestFrom(s, k, r); t.poisoned || (|t.scopes| == |s.scopes| && t.scopes[j] == s.scopes[j])
    decreases |s.scopes| - k
  {
    if k < |s.scopes| && !(AtEndpoint(s.session.base, s.scopes[k].decl.path, r.url) && QueryRaises(r.url)) {
      RequestKeepsScopes(RequestAt(s, k, r), k + 1, j, r);
    }
  }

  /** Without poison, an event makes a scope invalid exactly if it is a departure for it. */
  lemma InvalidExactly(s: State, k: nat, e: Event)
    requires s.armed && k < |s.scopes| && !Apply(s, e).poisoned
    ensures var t := Apply(s, e);
            && k < |t.scopes|
            && (t.scopes[k].track.invalid <==> s.scopes[k].track.invalid || Departs(s, s.scopes[k], e))
  {
    match e
    case RequestStarted(r) => RequestInvalidates(Noted(Ticked(s), r), 0, k, r);
    case ResponseReceived(response) => ResponseKeepsTracks(Ticked(s), 0, k, response);
    case RequestFinished(r) => FinishedKeepsTracks(Ticked(s), 0, k, r);
    case Navigated(p) => NavigatedInvalidates(s, k, p);
    case _ =>
  }

  lemma NavigatedInvalidates(s: State, k: nat, p: Payload)
    requires s.armed && k < |s.scopes| && !OnNavigated(s, p).poisoned
    ensures var t := OnNavigated(s, p);
            && k < |t.scopes|
            && (t.scopes[k].track.invalid <==> s.scopes[k].track.invalid || Departs(s, s.scopes[k], Navigated(p)))
  {
  }

  lemma {:induction false} RequestInvalidates(s: State, k: nat, j: nat, r: Request)
    requires k <= j < |s.scopes| && !RequestFrom(s, k, r).poisoned
    ensures var t := RequestFrom(s, k, r);
            && j < |t.scopes|
            && (t.scopes[j].track.invalid <==>
                  s.scopes[j].track.invalid || (r.mainFrame && r.navigates && !OwnRequest(s.scopes[j], r)))
    decreases |s.scopes| - k
  {
    if AtEndpoint(s.session.base, s.scopes[k].decl.path, r.url) && QueryRaises(r.url) {
    } else if k < j {
      RequestInvalidates(RequestAt(s, k, r), k + 1, j, r);
    } else {
      RequestKeepsScopes(RequestAt(s, k, r), k + 1, j, r);
    }
  }

  lemma {:induction false} ResponseKeepsTracks(s: State, k: nat, j: nat, response: Response)
    requires j < |s.scopes| && !ResponseFrom(s, k, response).poisoned
    ensures var t := ResponseFrom(s, k, response); j < |t.scopes| && t.scopes[j].track == s.scopes[j].track
    decreases |s.scopes| - k
  {
    if k < |s.scopes| && !ResponseRaises(s, k, response) {
      ResponseKeepsTracks(ResponseAt(s, k, response), k + 1, j, response);
    }
  }

  lemma {:induction false} FinishedKeepsTracks(s: State, k: nat, j: nat, r: Request)
    requires j < |s.scopes|
    ensures var t := FinishedFrom(s, k, r); j < |t.scopes| && t.scopes[j].track == s.scopes[j].track
    decreases |s.scopes| - k
  {
    if k < |s.scopes| { FinishedKeepsTracks(FinishedAt(s, k, r), k + 1, j, r); }
  }

  /**
   * Leaving or superseding the promised document, before its commit or after, dooms the
   * group: no continuation seals it, not even one that comes back.
   */
  lemma NoReturn(s: State, k: nat, e: Event, moves: seq<Move>, imaging: Imaging)
    requires Inv(s, imaging) && s.armed && k < |s.scopes| && Departs(s, s.scopes[k], e)
    ensures var t := Replay(s, [Happened(e)] + moves, imaging);
            Doomed(t) && (s.phase != Finalized ==> t.phase != Finalized)
  {
    if !Apply(s, e).poisoned { InvalidExactly(s, k, e); }
    DoomedAfter(s, e, moves, imaging);
  }

  /** A same-document event before the commit grants neither lineage nor reachability. */
  lemma PrecommitGrantsNothing(s: State, k: nat, u: Url, imaging: Imaging)
    requires Inv(s, imaging) && k < |s.scopes|
    requires s.scopes[k].decl.mode == NewDocument && s.scopes[k].track.commit.None?
    ensures var t := Apply(s, Navigated(SameDocument(u)));
            && k < |t.scopes| && t.scopes[k].track.commit.None? && t.scopes[k].track.lineage.None?
            && !t.scopes[k].track.reached && t.scopes[k].members == []
            && forall r :: !Eligible(t, t.scopes[k], r)
  {
    assert ScopeInv(s.session.base, s.page.sequence, s.scopes[k], imaging);
    assert MembersInv(s.session.base, s.page.sequence, s.scopes[k].decl, None, s.scopes[k].members);
  }

  /** In every state of every run, for a new-document scope: arm, own navigation, commit, then every member. */
  lemma LineageOrder(s: State, moves: seq<Move>, k: nat, imaging: Imaging)
    requires Inv(s, imaging) && k < |Replay(s, moves, imaging).scopes|
    requires Replay(s, moves, imaging).scopes[k].decl.mode == NewDocument
    ensures var sc := Replay(s, moves, imaging).scopes[k];
            && (sc.track.navigation.Some? ==> sc.track.asked.Some? && sc.decl.armed < sc.track.asked.value)
            && (sc.track.commit.Some? ==> && sc.track.navigation.Some? && sc.track.lineage == sc.track.navigation
                                          && sc.track.asked.value < sc.track.commit.value)
            && forall i :: 0 <= i < |sc.members| ==>
                 sc.track.commit.Some? && sc.track.commit.value < sc.members[i].sequence
  {
    ReplayKeeps(s, moves, imaging);
    var t := Replay(s, moves, imaging);
    assert ScopeInv(t.session.base, t.page.sequence, t.scopes[k], imaging);
    forall i | 0 <= i < |t.scopes[k].members|
      ensures t.scopes[k].track.commit.Some? && t.scopes[k].track.commit.value < t.scopes[k].members[i].sequence
    {
      assert Admitted(t.session.base, t.page.sequence, t.scopes[k].decl, t.scopes[k].track.commit, t.scopes[k].members[i]);
    }
  }

  // ----- Outcomes and images -------------------------------------------------------------------

  lemma OrderedSlices(ms: seq<Member>)
    requires Ordered(ms) && ms != []
    ensures Ordered(ms[1..]) && Ordered(ms[..|ms| - 1])
  {
    forall i, j | 0 <= i < j < |ms| - 1 ensures Earlier(ms[1..][i], ms[1..][j]) && Earlier(ms[..|ms| - 1][i], ms[..|ms| - 1][j]) {
      assert Earlier(ms[i + 1], ms[j + 1]) && Earlier(ms[i], ms[j]);
    }
  }

  lemma {:induction false} RecordedCount(ms: seq<Member>, n: nat)
    requires Ordered(ms)
    ensures Recorded(ms)[n] <= 1
    ensures Recorded(ms)[n] == 1 <==> NotedIn(ms, n)
  {
    if ms != [] {
      var last := |ms| - 1;
      OrderedSlices(ms);
      RecordedLast(ms);
      RecordedCount(ms[..last], n);
      NotedInPrefix(ms, n);
      if ms[last].sequence == n {
        forall i | 0 <= i < last ensures ms[..last][i].sequence != n { OrderedAt(ms, i, last); }
      }
    }
  }

  predicate NotedIn(ms: seq<Member>, n: nat) {
    exists i :: 0 <= i < |ms| && ms[i].sequence == n && ms[i].outcome.Some?
  }

  lemma NotedInPrefix(ms: seq<Member>, n: nat)
    requires ms != []
    ensures var last := |ms| - 1;
            NotedIn(ms, n) <==> NotedIn(ms[..last], n) || (ms[last].sequence == n && ms[last].outcome.Some?)
  {
    var last := |ms| - 1;
    if NotedIn(ms[..last], n) {
      var i :| 0 <= i < last && ms[..last][i].sequence == n && ms[..last][i].outcome.Some?;
      assert ms[i].sequence == n && ms[i].outcome.Some?;
    }
    if i :| 0 <= i < last && ms[i].sequence == n && ms[i].outcome.Some? {
      assert ms[..last][i] == ms[i];
    }
  }

  /** Across wake, guard, poison and abort, each outcome is noted once, and only where there is one. */
  lemma OutcomeNotedOnce(s: State, k: nat, n: nat, imaging: Imaging)
    requires Inv(s, imaging) && k < |s.scopes|
    ensures var sc := s.scopes[k];
            && multiset(sc.settled)[n] <= 1
            && (n in sc.settled <==> exists i :: 0 <= i < |sc.members| && sc.members[i].sequence == n && sc.members[i].outcome.Some?)
  {
    assert ScopeInv(s.session.base, s.page.sequence, s.scopes[k], imaging);
    RecordedCount(s.scopes[k].members, n);
    assert n in s.scopes[k].settled <==> n in multiset(s.scopes[k].settled);
  }

  /** All bodies accepted for one query have the same image. */
  lemma SealedImagesAgree(s: State, k: nat, i: nat, j: nat, imaging: Imaging)
    requires Inv(s, imaging) && Sealed(s) && k < |s.scopes|
    requires i < |s.scopes[k].members| && j < |s.scopes[k].members|
    requires s.scopes[k].members[i].query == s.scopes[k].members[j].query
    ensures var sc := s.scopes[k];
            && sc.members[i].json.Some? && sc.members[j].json.Some?
            && imaging(sc.decl.family, sc.members[i].json.value, sc.members[i].query).Some?
            && imaging(sc.decl.family, sc.members[i].json.value, sc.members[i].query)
               == imaging(sc.decl.family, sc.members[j].json.value, sc.members[j].query)
  {
    var sc := s.scopes[k];
    assert ScopeSealed(sc) && ScopeInv(s.session.base, s.page.sequence, sc, imaging);
    assert MemberSealed(sc.members[i]) && MemberSealed(sc.members[j]);
    assert Accepted(sc.decl.family, sc.images, sc.members[i], imaging);
    assert Accepted(sc.decl.family, sc.images, sc.members[j], imaging);
  }

  // ----- Representatives and the roots partition ---------------------------------------------------

  /** The least sequence number among members of a query; None without one. */
  function LeastSequence(ms: seq<Member>, q: Fields): Option<nat> {
    if ms == [] then None
    else
      var rest := LeastSequence(ms[1..], q);
      if ms[0].query != q then rest
      else if rest.Some? && rest.value < ms[0].sequence then rest
      else Some(ms[0].sequence)
  }

  /** The first member, in start order, that asked a query. */
  function FirstAsking(ms: seq<Member>, q: Fields): (i: nat)
    ensures i <= |ms| && (i < |ms| ==> ms[i].query == q)
    ensures forall j :: 0 <= j < i ==> ms[j].query != q
  {
    if ms == [] || ms[0].query == q then 0 else 1 + FirstAsking(ms[1..], q)
  }

  /** The representative of a query is its earliest-started member. */
  lemma {:induction false} RepresentativeIsEarliest(ms: seq<Member>, q: Fields)
    requires Ordered(ms)
    ensures var i := FirstAsking(ms, q);
            if i == |ms| then LeastSequence(ms, q).None?
            else LeastSequence(ms, q) == Some(ms[i].sequence)
                 && forall j :: 0 <= j < |ms| && ms[j].query == q ==> ms[i].sequence <= ms[j].sequence
  {
    if ms != [] {
      OrderedSlices(ms);
      RepresentativeIsEarliest(ms[1..], q);
      if ms[0].query == q && FirstAsking(ms[1..], q) < |ms| - 1 {
        OrderedAt(ms, 0, 1 + FirstAsking(ms[1..], q));
      }
    }
  }

  function TargetRows(rows: seq<Row>, id: string): nat {
    if rows == [] then 0 else (if rows[0].taskId == id then 1 else 0) + TargetRows(rows[1..], id)
  }

  lemma {:induction false} TargetRowsOnce(rows: seq<Row>, id: string)
    requires forall i, j :: 0 <= i < j < |rows| ==> rows[i].taskId != rows[j].taskId
    ensures TargetRows(rows, id) == if Contains(rows, id) then 1 else 0
  {
    if rows != [] {
      TargetRowsOnce(rows[1..], id);
      if rows[0].taskId == id {
        assert !Contains(rows[1..], id);
      } else if Contains(rows, id) {
        var i :| 0 <= i < |rows| && rows[i].taskId == id;
        assert rows[1..][i - 1].taskId == id;
      }
    }
  }

  /** The page the representative of a status brought. */
  function PageRows(sc: Scope, status: string): seq<Row> {
    var i := FirstAsking(sc.members, RootsQuery(status));
    if i < |sc.members| && sc.members[i].json.Some? then sc.members[i].json.value.rows else []
  }

  /** Target rows over the representative pages of the given statuses. */
  function TargetTotal(sc: Scope, statuses: seq<string>, id: string): nat {
    if statuses == [] then 0
    else TargetRows(PageRows(sc, statuses[0]), id) + TargetTotal(sc, statuses[1..], id)
  }

  lemma SealedPage(s: State, k: nat, n: nat, x: Expected)
    requires Inv(s, BodyImage(x)) && Sealed(s) && Declared(s.scopes) && k < |s.scopes|
    requires s.scopes[k].decl.family == Roots && n < |STATUSES|
    ensures FirstAsking(s.scopes[k].members, RootsQuery(STATUSES[n])) < |s.scopes[k].members|
    ensures RootsPage(PageRows(s.scopes[k], STATUSES[n]), STATUSES[n], x)
  {
    var sc, q := s.scopes[k], RootsQuery(STATUSES[n]);
    assert ScopeSealed(sc) && ScopeInv(s.session.base, s.page.sequence, sc, BodyImage(x));
    assert sc.decl.queries[n] == q;
    assert Asked(sc, q);
    var i := FirstAsking(sc.members, q);
    assert MemberSealed(sc.members[i]);
    assert Accepted(Roots, sc.images, sc.members[i], BodyImage(x));
    assert StatusOf(q) == STATUSES[n];
  }

  lemma {:induction false} TargetTotalCounts(sc: Scope, statuses: seq<string>, x: Expected)
    requires forall m :: 0 <= m < |statuses| ==> RootsPage(PageRows(sc, statuses[m]), statuses[m], x)
    requires forall m, n :: 0 <= m < n < |statuses| ==> statuses[m] != statuses[n]
    ensures TargetTotal(sc, statuses, x.taskId) == if x.status in statuses then 1 else 0
  {
    if statuses != [] {
      var rows, rest := PageRows(sc, statuses[0]), statuses[1..];
      assert RootsPage(rows, statuses[0], x);
      TargetRowsOnce(rows, x.taskId);
      TargetTotalCounts(sc, rest, x);
      assert x.status in statuses <==> x.status == statuses[0] || x.status in rest;
    }
  }

  lemma StatusesDistinct()
    ensures forall m, n :: 0 <= m < n < |STATUSES| ==> STATUSES[m] != STATUSES[n]
  {
    assert |"pending"| == 7 && |"in_progress"| == 11 && |"failed"| == 6 && |"superseded"| == 10;
    assert |"escalated"| == 9 && |"completed"| == 9 && |"cancelled"| == 9;
    assert "escalated"[0] == 'e' && "completed"[1] == 'o' && "cancelled"[1] == 'a' && "completed"[0] == 'c' && "cancelled"[0] == 'c';
  }

  /** A sealed roots scope shows the target in exactly one row, when its status is one of the seven. */
  lemma RootsPartition(s: State, k: nat, x: Expected)
    requires Inv(s, BodyImage(x)) && Sealed(s) && Declared(s.scopes) && k < |s.scopes|
    requires s.scopes[k].decl.family == Roots
    ensures TargetTotal(s.scopes[k], STATUSES, x.taskId) == if x.status in STATUSES then 1 else 0
    ensures forall n :: 0 <= n < |STATUSES| ==>
              (Contains(PageRows(s.scopes[k], STATUSES[n]), x.taskId) <==> STATUSES[n] == x.status)
  {
    forall n | 0 <= n < |STATUSES| ensures RootsPage(PageRows(s.scopes[k], STATUSES[n]), STATUSES[n], x) {
      SealedPage(s, k, n, x);
    }
    StatusesDistinct();
    TargetTotalCounts(s.scopes[k], STATUSES, x);
  }
}
