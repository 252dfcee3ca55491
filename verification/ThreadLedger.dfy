/**
 * The thread page's native event ledger: the callbacks that write it, and the
 * independent replay that later reconstructs document ownership from it.
 */
module ThreadLedger {
  import opened Prelude

  datatype Entry =
    | RequestEntry(id: int, url: string, verb: string, resource: string, navigation: bool,
                   mainFrame: bool, unredirected: bool, document: Option<int>, pending: seq<int>, at: real)
    | NavigationEntry(url: string, isNew: bool, documentId: int, at: real)
    | OtherEntry(kind: string, at: real)

  // ----- Sorted inventories --------------------------------------------------------------

  predicate Increasing(s: seq<int>) {
    forall i, j :: 0 <= i < j < |s| ==> s[i] < s[j]
  }

  /** s is sorted(S): the one strictly increasing list of the elements of S. */
  predicate Listing(s: seq<int>, S: set<int>) {
    Increasing(s) && (set x | x in s) == S
  }

  lemma Inhabited(S: set<int>)
    ensures S == {} || exists x :: x in S
  {
    if forall x :: x !in S { assert S == {}; }
  }

  lemma {:induction false} LeastExists(S: set<int>)
    requires S != {}
    ensures exists m :: m in S && forall x :: x in S ==> m <= x
    decreases |S|
  {
    Inhabited(S);
    var y: int :| y in S;
    var rest := S - {y};
    assert forall x :: x in S ==> x == y || x in rest;
    if rest != {} {
      LeastExists(rest);
      var m :| m in rest && forall x :: x in rest ==> m <= x;
      var least := if m < y then m else y;
      assert least in S && forall x :: x in S ==> least <= x;
    } else {
      assert forall x :: x in S ==> y <= x;
    }
  }

  lemma ListingPrepend(s: seq<int>, S: set<int>, m: int)
    requires Listing(s, S) && forall x :: x in S ==> m < x
    ensures Listing([m] + s, {m} + S)
  {
    assert forall x :: x in [m] + s <==> x == m || x in s;
    assert forall i :: 0 <= i < |s| ==> s[i] in S;
  }

  ghost function Sorted(S: set<int>): (s: seq<int>)
    ensures Listing(s, S)
    decreases S
  {
    if S == {} then []
    else
      LeastExists(S);
      var m :| m in S && forall x :: x in S ==> m <= x;
      var rest := Sorted(S - {m});
      assert forall x :: x in rest ==> x in S - {m};
      ListingPrepend(rest, S - {m}, m);
      assert S == {m} + (S - {m});
      [m] + rest
  }

  lemma {:induction false} ListingUnique(s: seq<int>, t: seq<int>, S: set<int>)
    requires Listing(s, S) && Listing(t, S)
    ensures s == t
    decreases |s|
  {
    if s != [] && t != [] {
      assert s[0] in S && t[0] in S;
      var i :| 0 <= i < |t| && t[i] == s[0];
      var j :| 0 <= j < |s| && s[j] == t[0];
      assert s[0] == t[0];
      TailListing(s, S);
      TailListing(t, S);
      ListingUnique(s[1..], t[1..], S - {s[0]});
    } else {
      ListingEmpty(s, S);
      ListingEmpty(t, S);
    }
  }

  lemma ListingEmpty(s: seq<int>, S: set<int>)
    requires Listing(s, S)
    ensures s == [] ==> S == {}
    ensures S == {} ==> s == []
  {
    assert s == [] ==> (set x | x in s) == {};
    if |s| > 0 {
      assert s[0] in S;
      assert S != {};
    }
  }

  lemma TailListing(s: seq<int>, S: set<int>)
    requires Listing(s, S) && s != []
    ensures Listing(s[1..], S - {s[0]})
  {
    forall x | x in S - {s[0]} ensures x in s[1..] {
      var i :| 0 <= i < |s| && s[i] == x;
      assert s[1..][i - 1] == x;
    }
  }

  lemma ListingAppend(s: seq<int>, S: set<int>, m: int)
    requires Listing(s, S) && forall x :: x in s ==> x < m
    ensures Listing(s + [m], S + {m})
  {
    assert forall x :: x in s + [m] <==> x in s || x == m;
    forall i, j | 0 <= i < j < |s + [m]| ensures (s + [m])[i] < (s + [m])[j] {
      if j == |s| { assert s[i] in s; }
    }
  }

  /** sorted() of a set. */
  method Sort(S: set<int>) returns (s: seq<int>)
    ensures Listing(s, S) && s == Sorted(S)
  {
    s := [];
    var rest := S;
    while rest != {}
      invariant rest <= S && Listing(s, S - rest)
      invariant forall x, y :: x in s && y in rest ==> x < y
    {
      LeastExists(rest);
      var m :| m in rest && forall x :: x in rest ==> m <= x;
      assert forall i :: 0 <= i < |s| ==> s[i] in s;
      ListingAppend(s, S - rest, m);
      assert S - (rest - {m}) == (S - rest) + {m};
      s, rest := s + [m], rest - {m};
    }
    ListingUnique(s, Sorted(S), S);
  }

  // ----- The producer ---------------------------------------------------------------------

  /** The unchanging facts of a native Request object; `handle` is its identity. */
  datatype Native = Native(handle: nat, url: string, verb: string, resource: string,
                           navigates: bool, mainFrame: bool, redirectedFrom: bool)

  datatype Payload = BadPayload | Same(url: string) | New(url: string, native: Native, redirectedTo: bool)

  datatype Producer = Producer(requests: map<nat, Entry>, document: Option<int>, pending: set<int>,
                               events: seq<Entry>)

  const EMPTY: Producer := Producer(map[], None, {}, [])

  datatype Callback =
    | OnRequest(native: Native, redirectedTo: bool, at: real)
    | OnNavigated(payload: Payload, at: real)
    | OnOther(kind: string, at: real)

  ghost function Announced(p: Producer, n: Native, redirectedTo: bool, at: real): Entry {
    var unredirected := !n.redirectedFrom && !redirectedTo;
    RequestEntry(|p.requests|, n.url, n.verb, n.resource, n.navigates, n.mainFrame, unredirected,
                 if n.mainFrame && unredirected then p.document else None, Sorted(p.pending), at)
  }

  /** The producer accepts a commit only of one announced, unredirected main-frame GET document. */
  predicate CommitAllowed(p: Producer, n: Native, u: string, redirectedTo: bool) {
    && n.handle in p.requests && p.requests[n.handle].RequestEntry?
    && n.mainFrame && n.verb == "GET" && n.navigates && n.url == u && !n.redirectedFrom && !redirectedTo
  }

  /** One callback; a callback that raises leaves the producer as it was. */
  ghost function Produce(p: Producer, c: Callback): Producer {
    match c
    case OnRequest(n, redirectedTo, at) =>
      var entry := Announced(p, n, redirectedTo, at);
      Producer(p.requests[n.handle := entry], p.document,
               if n.navigates && n.mainFrame then p.pending + {entry.id} else p.pending, p.events + [entry])
    case OnNavigated(BadPayload, at) => p
    case OnNavigated(Same(u), at) =>
      if p.document.None? then p
      else p.(events := p.events + [NavigationEntry(u, false, p.document.value, at)])
    case OnNavigated(New(u, n, redirectedTo), at) =>
      if !CommitAllowed(p, n, u, redirectedTo) then p
      else
        var id := p.requests[n.handle].id;
        p.(document := Some(id), pending := p.pending - {id},
           events := p.events + [NavigationEntry(u, true, id, at)])
    case OnOther(kind, at) => p.(events := p.events + [OtherEntry(kind, at)])
  }

  ghost function Run(calls: seq<Callback>): Producer {
    if calls == [] then EMPTY else Produce(Run(calls[..|calls| - 1]), calls[|calls| - 1])
  }

  lemma RunNext(calls: seq<Callback>, c: Callback)
    ensures Run(calls + [c]) == Produce(Run(calls), c)
  {
    assert (calls + [c])[..|calls|] == calls;
  }

  /** A response callback is none, one or two steps of the run. */
  function ResponseSteps(stream: bool, required: Option<string>, first: real, second: real): seq<Callback> {
    (if stream then [OnOther("stream-response", first)] else [])
    + if required.Some? then [OnOther(required.value, second)] else []
  }

  /** The callbacks as they update the browser's thread fields. */
  class Recorder {
    var requests: map<nat, Entry>
    var document: Option<int>
    var pending: set<int>
    var events: seq<Entry>

    ghost function View(): Producer
      reads this
    {
      Producer(requests, document, pending, events)
    }

    constructor ()
      ensures View() == EMPTY
    {
      requests, document, pending, events := map[], None, {}, [];
    }

    method HandleRequest(n: Native, redirectedTo: bool, at: real)
      modifies this
      ensures View() == Produce(old(View()), OnRequest(n, redirectedTo, at))
    {
      var unredirected := !n.redirectedFrom && !redirectedTo;
      var inventory := Sort(pending);
      var observed := RequestEntry(|requests|, n.url, n.verb, n.resource, n.navigates, n.mainFrame, unredirected,
                                   None, inventory, at);
      if n.mainFrame && unredirected { observed := observed.(document := document); }
      if n.navigates && n.mainFrame { pending := pending + {observed.id}; }
      requests := requests[n.handle := observed];
      events := events + [observed];
    }

    method HandleNavigated(payload: Payload, at: real) returns (raised: bool)
      modifies this
      ensures View() == Produce(old(View()), OnNavigated(payload, at))
      ensures raised ==> View() == old(View())
    {
      if payload.BadPayload? { return true; }
      var isNew := payload.New?;
      if isNew {
        if !CommitAllowed(Producer(requests, document, pending, events), payload.native, payload.url, payload.redirectedTo) {
          return true;
        }
        var lineage := requests[payload.native.handle].id;
        document := Some(lineage);
        pending := pending - {lineage};
      }
      if document.None? { return true; }
      events := events + [NavigationEntry(payload.url, isNew, document.value, at)];
      raised := false;
    }

    method HandleOther(kind: string, at: real)
      modifies this
      ensures View() == Produce(old(View()), OnOther(kind, at))
    {
      events := events + [OtherEntry(kind, at)];
    }

    /** response(): an entry for a stream, and another for a response the run requires. */
    method HandleResponse(stream: bool, required: Option<string>, first: real, second: real)
      modifies this
      ensures forall calls :: old(View()) == Run(calls) ==>
                View() == Run(calls + ResponseSteps(stream, required, first, second))
    {
      ghost var start := View();
      if stream { HandleOther("stream-response", first); }
      if required.Some? { HandleOther(required.value, second); }
      forall calls | start == Run(calls)
        ensures View() == Run(calls + ResponseSteps(stream, required, first, second))
      {
        var one := if stream then [OnOther("stream-response", first)] else [];
        var two := if required.Some? then [OnOther(required.value, second)] else [];
        assert calls + ResponseSteps(stream, required, first, second) == (calls + one) + two;
        if stream { RunNext(calls, one[0]); } else { assert calls + one == calls; }
        if required.Some? { RunNext(calls + one, two[0]); } else { assert (calls + one) + two == calls + one; }
      }
    }
  }

  // ----- The replay ---------------------------------------------------------------------------

  datatype Replay = Replay(documents: map<int, Entry>, committed: set<int>, pending: set<int>, current: Option<int>)

  const START: Replay := Replay(map[], {}, {}, None)

  /** What the checker knows besides the ledger. */
  datatype Context = Context(origin: string, required: Entry -> bool)

  predicate SameOrigin(ctx: Context, url: string) {
    ctx.origin + "/" <= url
  }

  predicate RequestAccepted(r: Replay, e: Entry, ctx: Context)
    requires e.RequestEntry?
  {
    && e.document == (if e.mainFrame && e.unredirected then r.current else None)
    && Listing(e.pending, r.pending)
    && (ctx.required(e) ==> e.mainFrame && e.unredirected && r.current.Some? && r.pending == {})
  }

  predicate CommitAccepted(r: Replay, e: Entry)
    requires e.NavigationEntry?
  {
    && e.documentId in r.documents && e.documentId in r.pending && e.documentId !in r.committed
    && var d := r.documents[e.documentId];
       d.RequestEntry? && d.mainFrame && d.unredirected && d.navigation && d.verb == "GET"
       && d.resource == "document" && d.url == e.url && d.at <= e.at
  }

  predicate EntryAccepted(r: Replay, e: Entry, ctx: Context) {
    match e
    case RequestEntry(_, _, _, _, _, _, _, _, _, _) => RequestAccepted(r, e, ctx)
    case NavigationEntry(url, isNew, id, _) =>
      SameOrigin(ctx, url)
      && if isNew then CommitAccepted(r, e) else r.current == Some(id) && r.pending == {}
    case OtherEntry(_, _) => true
  }

  function Advance(r: Replay, e: Entry): Replay {
    match e
    case RequestEntry(id, _, _, _, navigation, mainFrame, _, _, _, _) =>
      r.(documents := r.documents[id := e], pending := if mainFrame && navigation then r.pending + {id} else r.pending)
    case NavigationEntry(_, isNew, id, _) =>
      if isNew then r.(current := Some(id), committed := r.committed + {id}, pending := r.pending - {id}) else r
    case OtherEntry(_, _) => r
  }

  /** The replay of a whole ledger, or None where it refuses. */
  function Replayed(events: seq<Entry>, ctx: Context): Option<Replay> {
    if events == [] then Some(START)
    else
      var before := Replayed(events[..|events| - 1], ctx);
      var e := events[|events| - 1];
      if before.None? || !EntryAccepted(before.value, e, ctx) then None
      else Some(Advance(before.value, e))
  }

  predicate Chronological(events: seq<Entry>) {
    forall i :: 0 < i < |events| ==> events[i - 1].at <= events[i].at
  }

  /** The first pass of the admission check. */
  method CheckOrder(events: seq<Entry>) returns (ok: bool)
    ensures ok <==> Chronological(events)
  {
    var n := 0;
    while n + 1 < |events|
      invariant 0 <= n && (events != [] ==> n < |events|)
      invariant forall i :: 0 < i <= n && i < |events| ==> events[i - 1].at <= events[i].at
    {
      if events[n].at > events[n + 1].at { return false; }
      n := n + 1;
    }
    ok := true;
  }

  /** One event of the replay loop, over the loop's four variables. */
  method CheckEntry(event: Entry, ctx: Context, documents: map<int, Entry>, committed: set<int>, pending: set<int>, current: Option<int>)
    returns (ok: bool, documents': map<int, Entry>, committed': set<int>, pending': set<int>, current': Option<int>)
    ensures ok <==> EntryAccepted(Replay(documents, committed, pending, current), event, ctx)
    ensures ok ==> Advance(Replay(documents, committed, pending, current), event)
                   == Replay(documents', committed', pending', current')
  {
    ok, documents', committed', pending', current' := true, documents, committed, pending, current;
    if event.RequestEntry? {
      var expected := if event.mainFrame && event.unredirected then current else None;
      if event.document != expected || !Listing(event.pending, pending) {
        ok := false;
        return;
      }
      if ctx.required(event) && !(event.mainFrame && event.unredirected && current.Some? && pending == {}) {
        ok := false;
        return;
      }
      documents' := documents[event.id := event];
      if event.mainFrame && event.navigation { pending' := pending + {event.id}; }
    } else if event.NavigationEntry? {
      var id := event.documentId;
      ok := SameOrigin(ctx, event.url);
      if event.isNew {
        ok := ok && id in documents && id in pending && id !in committed
              && documents[id].RequestEntry? && documents[id].mainFrame && documents[id].unredirected
              && documents[id].navigation && documents[id].verb == "GET"
              && documents[id].resource == "document" && documents[id].url == event.url
              && documents[id].at <= event.at;
      } else {
        ok := ok && current == Some(id) && pending == {};
      }
      if ok && event.isNew {
        current', committed', pending' := Some(id), committed + {id}, pending - {id};
      }
    }
  }

  /** The replay loop of the admission check. */
  method CheckLedger(events: seq<Entry>, ctx: Context) returns (ok: bool, result: Replay)
    ensures ok <==> Chronological(events) && Replayed(events, ctx).Some?
    ensures ok ==> Replayed(events, ctx) == Some(result)
  {
    result := START;
    ok := CheckOrder(events);
    if !ok { return; }
    var documents: map<int, Entry>, committed: set<int>, pending: set<int>, current: Option<int> := map[], {}, {}, None;
    var n := 0;
    while n < |events|
      invariant n <= |events| && ok
      invariant Replayed(events[..n], ctx) == Some(Replay(documents, committed, pending, current))
    {
      assert events[..n + 1][..n] == events[..n];
      ok, documents, committed, pending, current := CheckEntry(events[n], ctx, documents, committed, pending, current);
      if !ok {
        RefusedPrefix(events, n + 1, ctx);
        return;
      }
      n := n + 1;
    }
    assert events[..n] == events;
    result := Replay(documents, committed, pending, current);
  }

  /** A refusal is final: no longer ledger is accepted. */
  lemma {:induction false} RefusedPrefix(events: seq<Entry>, n: nat, ctx: Context)
    requires n <= |events| && Replayed(events[..n], ctx).None?
    ensures Replayed(events, ctx).None?
    decreases |events|
  {
    if n == |events| {
      assert events[..n] == events;
    } else {
      var shorter := events[..|events| - 1];
      assert shorter[..n] == events[..n];
      RefusedPrefix(shorter, n, ctx);
    }
  }
}
