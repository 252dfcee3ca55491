/** The replay follows the producer, and its acceptance means what it says on any ledger. */
module ThreadLedgerTheorems {
  import opened Prelude
  import opened ThreadLedger

  // ----- Simulation --------------------------------------------------------------------------

  lemma ReplayedAppend(events: seq<Entry>, e: Entry, ctx: Context)
    ensures Replayed(events + [e], ctx) ==
            var before := Replayed(events, ctx);
            if before.None? || !EntryAccepted(before.value, e, ctx) then None else Some(Advance(before.value, e))
  {
    assert (events + [e])[..|events|] == events;
  }

  predicate InStep(p: Producer, r: Replay) {
    r.current == p.document && r.pending == p.pending
  }

  /** The entry a callback appends, if it appends one. */
  ghost function Appended(p: Producer, c: Callback): Option<Entry> {
    match c
    case OnRequest(n, redirectedTo, at) => Some(Announced(p, n, redirectedTo, at))
    case OnNavigated(BadPayload, at) => None
    case OnNavigated(Same(u), at) =>
      if p.document.None? then None else Some(NavigationEntry(u, false, p.document.value, at))
    case OnNavigated(New(u, n, redirectedTo), at) =>
      if !CommitAllowed(p, n, u, redirectedTo) then None else Some(NavigationEntry(u, true, p.requests[n.handle].id, at))
    case OnOther(kind, at) => Some(OtherEntry(kind, at))
  }

  lemma ProduceAppends(p: Producer, c: Callback)
    ensures Appended(p, c).None? ==> Produce(p, c) == p
    ensures Appended(p, c).Some? ==> Produce(p, c).events == p.events + [Appended(p, c).value]
    ensures Appended(p, c).Some? ==> Appended(p, c).value.at == c.at
  {
  }

  lemma InStepNext(p: Producer, r: Replay, c: Callback)
    requires InStep(p, r) && Appended(p, c).Some?
    ensures InStep(Produce(p, c), Advance(r, Appended(p, c).value))
  {
  }

  /** As long as the replay has not refused, it knows the producer's document and pending set. */
  lemma {:induction false} Simulation(calls: seq<Callback>, ctx: Context)
    ensures var p := Run(calls);
            Replayed(p.events, ctx).Some? ==> InStep(p, Replayed(p.events, ctx).value)
  {
    if calls != [] {
      Simulation(calls[..|calls| - 1], ctx);
      var p, c := Run(calls[..|calls| - 1]), calls[|calls| - 1];
      ProduceAppends(p, c);
      if Appended(p, c).Some? {
        ReplayedAppend(p.events, Appended(p, c).value, ctx);
        if Replayed(Run(calls).events, ctx).Some? { InStepNext(p, Replayed(p.events, ctx).value, c); }
      }
    }
  }

  /**
   * On a producer's ledger the inventories always agree: the replay refuses a
   * request only if it is required and was issued without one settled document.
   */
  lemma RequestRefusal(calls: seq<Callback>, n: Native, redirectedTo: bool, at: real, ctx: Context)
    requires Replayed(Run(calls).events, ctx).Some?
    ensures var p := Run(calls);
            var e := Announced(p, n, redirectedTo, at);
            Replayed(Produce(p, OnRequest(n, redirectedTo, at)).events, ctx).None?
            <==> ctx.required(e) && !(e.mainFrame && e.unredirected && p.document.Some? && p.pending == {})
  {
    Simulation(calls, ctx);
    var p := Run(calls);
    ReplayedAppend(p.events, Announced(p, n, redirectedTo, at), ctx);
  }

  /** A same-document entry is refused exactly off the origin or while a navigation is pending. */
  lemma SameDocumentRefusal(calls: seq<Callback>, u: string, at: real, ctx: Context)
    requires Replayed(Run(calls).events, ctx).Some? && Run(calls).document.Some?
    ensures var p := Run(calls);
            Replayed(Produce(p, OnNavigated(Same(u), at)).events, ctx).None?
            <==> !SameOrigin(ctx, u) || p.pending != {}
  {
    Simulation(calls, ctx);
    var p := Run(calls);
    ReplayedAppend(p.events, NavigationEntry(u, false, p.document.value, at), ctx);
  }

  // ----- Commits of genuine runs --------------------------------------------------------------------

  /** Each native Request object is announced once. */
  predicate Genuine(calls: seq<Callback>) {
    forall i, j :: 0 <= i < j < |calls| && calls[i].OnRequest? && calls[j].OnRequest? ==>
                     calls[i].native.handle != calls[j].native.handle
  }

  predicate Announces(c: Callback, h: nat) {
    c.OnRequest? && c.native.handle == h
  }

  /** The entry of a handle holds the facts of its native object. */
  predicate Describes(e: Entry, n: Native) {
    e.RequestEntry? && e.url == n.url && e.verb == n.verb && e.resource == n.resource
    && e.navigation == n.navigates && e.mainFrame == n.mainFrame
  }

  lemma {:induction false} HandlesAnnounced(calls: seq<Callback>, h: nat)
    requires h in Run(calls).requests
    ensures exists i :: 0 <= i < |calls| && Announces(calls[i], h)
  {
    var last := |calls| - 1;
    if calls != [] && !Announces(calls[last], h) {
      HandlesAnnounced(calls[..last], h);
      var i :| 0 <= i < last && Announces(calls[..last][i], h);
      assert Announces(calls[i], h);
    }
  }

  lemma FreshHandle(calls: seq<Callback>)
    requires Genuine(calls) && calls != [] && calls[|calls| - 1].OnRequest?
    ensures calls[|calls| - 1].native.handle !in Run(calls[..|calls| - 1]).requests
  {
    var last := |calls| - 1;
    var h := calls[last].native.handle;
    assert forall i :: 0 <= i < last ==> !Announces(calls[..last][i], h);
    if h in Run(calls[..last]).requests { HandlesAnnounced(calls[..last], h); }
  }

  lemma EntryKept(p: Producer, c: Callback, h: nat)
    requires h in p.requests && !Announces(c, h)
    ensures h in Produce(p, c).requests && Produce(p, c).requests[h] == p.requests[h]
  {
  }

  lemma {:induction false} EntryDescribes(calls: seq<Callback>, i: nat)
    requires Genuine(calls) && i < |calls| && calls[i].OnRequest?
    ensures var n := calls[i].native; n.handle in Run(calls).requests && Describes(Run(calls).requests[n.handle], n)
  {
    var last := |calls| - 1;
    if i < last {
      EntryDescribes(calls[..last], i);
      assert calls[..last][i] == calls[i];
      EntryKept(Run(calls[..last]), calls[last], calls[i].native.handle);
    }
  }

  /** Ids count announcements, documents are the announced entries, and a pending id is uncommitted. */
  predicate Mirrors(p: Producer, r: Replay) {
    (&& (forall h :: h in p.requests ==>
           && p.requests[h].RequestEntry? && 0 <= p.requests[h].id < |p.requests|
           && p.requests[h].id in r.documents && r.documents[p.requests[h].id] == p.requests[h])
     && (forall id :: id in r.committed ==> 0 <= id < |p.requests|)
     && (forall id :: id in r.pending ==> 0 <= id < |p.requests| && id !in r.committed)) == true
  }

  lemma MirrorsAnnounced(p: Producer, r: Replay, c: Callback)
    requires Mirrors(p, r) && c.OnRequest? && c.native.handle !in p.requests
    ensures var e := Announced(p, c.native, c.redirectedTo, c.at); Mirrors(Produce(p, c), Advance(r, e))
  {
    assert |Produce(p, c).requests| == |p.requests| + 1;
  }

  lemma MirrorsCommitted(p: Producer, r: Replay, e: Entry)
    requires Mirrors(p, r) && e.NavigationEntry? && (e.isNew ==> 0 <= e.documentId < |p.requests|)
    ensures Mirrors(p, Advance(r, e))
  {
  }

  lemma MirrorsNext(p: Producer, r: Replay, c: Callback)
    requires Mirrors(p, r) && Appended(p, c).Some? && (c.OnRequest? ==> c.native.handle !in p.requests)
    ensures Mirrors(Produce(p, c), Advance(r, Appended(p, c).value))
  {
    match c {
      case OnRequest(_, _, _) => MirrorsAnnounced(p, r, c);
      case OnNavigated(_, _) =>
        MirrorsCommitted(p, r, Appended(p, c).value);
        MirrorsRequests(p, Produce(p, c), Advance(r, Appended(p, c).value));
      case OnOther(_, _) => MirrorsRequests(p, Produce(p, c), r);
    }
  }

  lemma MirrorsRequests(p: Producer, q: Producer, r: Replay)
    requires Mirrors(p, r) && q.requests == p.requests
    ensures Mirrors(q, r)
  {
  }

  lemma {:induction false} MirrorsRun(calls: seq<Callback>, ctx: Context)
    requires Genuine(calls) && Replayed(Run(calls).events, ctx).Some?
    ensures Mirrors(Run(calls), Replayed(Run(calls).events, ctx).value)
  {
    if calls != [] {
      var last := |calls| - 1;
      var p, c := Run(calls[..last]), calls[last];
      ProduceAppends(p, c);
      if Appended(p, c).Some? { ReplayedAppend(p.events, Appended(p, c).value, ctx); }
      MirrorsRun(calls[..last], ctx);
      if Appended(p, c).Some? {
        if c.OnRequest? { FreshHandle(calls); }
        MirrorsNext(p, Replayed(p.events, ctx).value, c);
      }
    }
  }

  /** A commit the producer accepted is refused exactly for these reasons. */
  lemma CommitRefusal(calls: seq<Callback>, i: nat, u: string, redirectedTo: bool, at: real, ctx: Context)
    requires Genuine(calls) && i < |calls| && calls[i].OnRequest?
    requires Replayed(Run(calls).events, ctx).Some? && CommitAllowed(Run(calls), calls[i].native, u, redirectedTo)
    ensures var p := Run(calls);
            var e := p.requests[calls[i].native.handle];
            Replayed(Produce(p, OnNavigated(New(u, calls[i].native, redirectedTo), at)).events, ctx).None?
            <==> !SameOrigin(ctx, u) || e.id !in p.pending || e.resource != "document" || !e.unredirected || at < e.at
  {
    var p := Run(calls);
    Simulation(calls, ctx);
    MirrorsRun(calls, ctx);
    EntryDescribes(calls, i);
    ReplayedAppend(p.events, NavigationEntry(u, true, p.requests[calls[i].native.handle].id, at), ctx);
  }

  // ----- Acceptance on an arbitrary ledger --------------------------------------------------------------

  predicate Commits(e: Entry) {
    e.NavigationEntry? && e.isNew
  }

  predicate CommitsId(e: Entry, d: int) {
    Commits(e) && e.documentId == d
  }

  /** A main-frame navigation request for document id d. */
  predicate AsksDocument(e: Entry, d: int) {
    e.RequestEntry? && e.mainFrame && e.navigation && e.id == d
  }

  /** Entry k asked for document d and nothing before n committed it. */
  predicate StillPending(events: seq<Entry>, k: nat, n: nat, d: int)
    requires n <= |events|
  {
    k < n && AsksDocument(events[k], d) && forall m :: k < m < n ==> !CommitsId(events[m], d)
  }

  /** Entry j is the last commit before n. */
  predicate LatestCommit(events: seq<Entry>, j: nat, n: nat)
    requires n <= |events|
  {
    j < n && Commits(events[j]) && forall m :: j < m < n ==> !Commits(events[m])
  }

  /** Entry k is the unredirected main-frame GET document request that entry j committed. */
  predicate Backs(events: seq<Entry>, k: nat, j: nat)
    requires j < |events|
  {
    && k < j && Commits(events[j]) && AsksDocument(events[k], events[j].documentId)
    && events[k].unredirected && events[k].verb == "GET" && events[k].resource == "document"
    && events[k].url == events[j].url && events[k].at <= events[j].at
  }

  /** Entry j is the latest commit before n, of document d, and has a backing request. */
  predicate CurrentAt(events: seq<Entry>, j: nat, n: nat, d: int)
    requires n <= |events|
  {
    LatestCommit(events, j, n) && events[j].documentId == d && exists k :: 0 <= k < j && Backs(events, k, j)
  }

  predicate DocumentsFrom(events: seq<Entry>, n: nat, r: Replay)
    requires n <= |events|
  {
    forall d :: d in r.documents ==> exists k :: 0 <= k < n && events[k] == r.documents[d] && events[k].RequestEntry? && events[k].id == d
  }

  lemma {:induction false} DocumentsTraced(events: seq<Entry>, n: nat, ctx: Context)
    requires n <= |events| && Replayed(events[..n], ctx).Some?
    ensures DocumentsFrom(events, n, Replayed(events[..n], ctx).value)
  {
    if n > 0 {
      assert events[..n][..n - 1] == events[..n - 1];
      DocumentsTraced(events, n - 1, ctx);
      var r, t := Replayed(events[..n - 1], ctx).value, Replayed(events[..n], ctx).value;
      forall d | d in t.documents
        ensures exists k :: 0 <= k < n && events[k] == t.documents[d] && events[k].RequestEntry? && events[k].id == d
      {
        if d in r.documents && t.documents[d] == r.documents[d] {
          var k :| 0 <= k < n - 1 && events[k] == r.documents[d] && events[k].RequestEntry? && events[k].id == d;
        } else {
          assert events[n - 1] == t.documents[d];
        }
      }
    }
  }

  lemma {:induction false} PendingTraced(events: seq<Entry>, n: nat, d: int, ctx: Context)
    requires n <= |events| && Replayed(events[..n], ctx).Some?
    ensures d in Replayed(events[..n], ctx).value.pending <==> exists k :: 0 <= k < n && StillPending(events, k, n, d)
  {
    if n > 0 {
      assert events[..n][..n - 1] == events[..n - 1];
      PendingTraced(events, n - 1, d, ctx);
      var r, t, e := Replayed(events[..n - 1], ctx).value, Replayed(events[..n], ctx).value, events[n - 1];
      if AsksDocument(e, d) {
        assert StillPending(events, n - 1, n, d);
      } else if d in r.pending && !CommitsId(e, d) {
        var k :| 0 <= k < n - 1 && StillPending(events, k, n - 1, d);
        assert StillPending(events, k, n, d);
      }
      if k :| 0 <= k < n && StillPending(events, k, n, d) && k < n - 1 {
        assert StillPending(events, k, n - 1, d);
        assert !CommitsId(events[n - 1], d);
      }
    }
  }

  lemma {:induction false} CurrentTraced(events: seq<Entry>, n: nat, ctx: Context)
    requires n <= |events| && Replayed(events[..n], ctx).Some?
    ensures var r := Replayed(events[..n], ctx).value;
            if r.current.None? then forall m :: 0 <= m < n ==> !Commits(events[m])
            else exists j :: 0 <= j < n && CurrentAt(events, j, n, r.current.value)
  {
    if n > 0 {
      assert events[..n][..n - 1] == events[..n - 1];
      CurrentTraced(events, n - 1, ctx);
      var r, t, e := Replayed(events[..n - 1], ctx).value, Replayed(events[..n], ctx).value, events[n - 1];
      if Commits(e) {
        DocumentsTraced(events, n - 1, ctx);
        var k :| 0 <= k < n - 1 && events[k] == r.documents[e.documentId] && events[k].RequestEntry? && events[k].id == e.documentId;
        assert Backs(events, k, n - 1);
        assert CurrentAt(events, n - 1, n, e.documentId);
      } else if r.current.Some? {
        var j :| 0 <= j < n - 1 && CurrentAt(events, j, n - 1, r.current.value);
        assert CurrentAt(events, j, n, r.current.value);
      }
    }
  }

  lemma {:induction false} PrefixAccepted(events: seq<Entry>, n: nat, ctx: Context)
    requires n <= |events| && Replayed(events, ctx).Some?
    ensures Replayed(events[..n], ctx).Some?
  {
    if Replayed(events[..n], ctx).None? { RefusedPrefix(events, n, ctx); }
  }

  /**
   * On any ledger, acceptance means that a required request names the document
   * of the latest earlier commit, that this document was an unredirected
   * main-frame GET, and that every earlier navigation had been committed.
   */
  lemma RequiredRequestOwned(events: seq<Entry>, i: nat, ctx: Context)
    requires Replayed(events, ctx).Some? && i < |events| && events[i].RequestEntry? && ctx.required(events[i])
    ensures var e := events[i];
            && e.mainFrame && e.unredirected && e.document.Some? && e.pending == []
            && (exists j :: 0 <= j < i && CurrentAt(events, j, i, e.document.value))
            && (forall k, d :: 0 <= k < i && AsksDocument(events[k], d) ==>
                  exists m :: k < m < i && CommitsId(events[m], d))
  {
    PrefixAccepted(events, i, ctx);
    PrefixAccepted(events, i + 1, ctx);
    assert events[..i + 1][..i] == events[..i];
    CurrentTraced(events, i, ctx);
    var r := Replayed(events[..i], ctx).value;
    ListingEmpty(events[i].pending, r.pending);
    forall k, d | 0 <= k < i && AsksDocument(events[k], d) ensures exists m :: k < m < i && CommitsId(events[m], d) {
      PendingTraced(events, i, d, ctx);
      assert !StillPending(events, k, i, d);
    }
  }

  /** The callbacks run under a clock that never goes back. */
  predicate Clocked(calls: seq<Callback>) {
    forall i :: 0 < i < |calls| ==> calls[i - 1].at <= calls[i].at
  }

  predicate EndsBy(events: seq<Entry>, at: real) {
    events != [] ==> events[|events| - 1].at <= at
  }

  lemma ClockedPrefix(calls: seq<Callback>)
    requires Clocked(calls) && |calls| > 1
    ensures Clocked(calls[..|calls| - 1]) && calls[..|calls| - 1][|calls| - 2].at <= calls[|calls| - 1].at
  {
  }

  lemma ChronologicalAppend(events: seq<Entry>, e: Entry)
    requires Chronological(events) && EndsBy(events, e.at)
    ensures Chronological(events + [e]) && EndsBy(events + [e], e.at)
  {
  }

  lemma ChronologicalNext(p: Producer, c: Callback)
    requires Chronological(p.events) && EndsBy(p.events, c.at)
    ensures Chronological(Produce(p, c).events) && EndsBy(Produce(p, c).events, c.at)
  {
    ProduceAppends(p, c);
    if Appended(p, c).Some? { ChronologicalAppend(p.events, Appended(p, c).value); }
  }

  /** A monotonic clock makes every produced ledger chronological. */
  lemma {:induction false} ChronologicalLedger(calls: seq<Callback>)
    requires Clocked(calls)
    ensures Chronological(Run(calls).events) && (calls != [] ==> EndsBy(Run(calls).events, calls[|calls| - 1].at))
  {
    if |calls| == 1 {
      assert Run(calls[..0]) == EMPTY;
      ChronologicalNext(EMPTY, calls[0]);
    } else if |calls| > 1 {
      ClockedPrefix(calls);
      ChronologicalLedger(calls[..|calls| - 1]);
      ChronologicalNext(Run(calls[..|calls| - 1]), calls[|calls| - 1]);
    }
  }
}
