/**
 * Runs of the completion ledger: every intermediate state of the coordination
 * directory and of the runner's memory, and what holds in all of them.
 */
module CompletedRuns {
  import opened Prelude
  import opened CompletedLedger

  /**
   * What the publication depends on: the run's identity, the JSON codec, and the
   * acceptance test.  The protocol is proved for any acceptance test.
   */
  datatype Law = Law(identity: Value, encode: Value -> Option<Bytes>, decode: Bytes -> Option<Value>,
                     accepts: (Value, Files) -> bool)

  /** The law of a run: validate() against the run's own identity. */
  function LawOf(identity: Value, env: Env): Law {
    Law(identity, env.encode, env.decode, (value: Value, files: Files) => Accepts(value, identity, files, env))
  }

  /** The directory's files, and the accepted cases and case files the runner holds in memory. */
  datatype State = State(files: Files, cases: seq<Value>, evidence: Files)

  /** Decoding gives back whatever was encoded within the size limit. */
  ghost predicate Faithful(law: Law) {
    forall v :: law.encode(v).Some? && Sized(law.encode(v).value) ==> law.decode(law.encode(v).value) == Some(v)
  }

  predicate Sized(data: Bytes) {
    0 < |data| <= LIMIT
  }

  function Get(files: Files, f: File): Option<Bytes> {
    if f in files then Some(files[f]) else None
  }

  function LedgerValue(identity: Value, cases: seq<Value>): Value {
    Fields(map[SchemaKey := Whole(1), IdentityKey := identity, CasesKey := Items(cases)])
  }

  function Next(s: State): File {
    Case(|s.cases| + 1)
  }

  /** The bytes mark() expects under the ledger's name before it publishes. */
  function Previous(s: State, law: Law): Option<Bytes> {
    if s.cases == [] then None else law.encode(LedgerValue(law.identity, s.cases))
  }

  /** validate() accepts the ledger extended by this row and evidence. */
  predicate Candidate(s: State, row: Value, data: Bytes, law: Law) {
    law.accepts(LedgerValue(law.identity, s.cases + [row]), s.evidence[Next(s) := data])
  }

  // ----- Single steps ------------------------------------------------------------------------------

  /** Outside temporaries and one given name, the two directories agree. */
  ghost predicate SameBut(a: Files, b: Files, changed: File) {
    forall f: File :: !f.Temporary? && f != changed ==> Get(a, f) == Get(b, f)
  }

  /** Only temporaries change. */
  ghost predicate Churns(s: State, t: State) {
    (&& t.cases == s.cases && t.evidence == s.evidence
     && forall f: File :: !f.Temporary? ==> Get(s.files, f) == Get(t.files, f)) == true
  }

  /** The one visible effect of publish(): a name goes from the expected content to the new one. */
  ghost predicate Replaces(s: State, t: State, name: File, data: Bytes, previous: Option<Bytes>) {
    (&& t.cases == s.cases && t.evidence == s.evidence && !name.Temporary? && Sized(data)
     && Get(s.files, name) == previous && Get(t.files, name) == Some(data) && SameBut(s.files, t.files, name)) == true
  }

  ghost predicate PublishesCase(s: State, t: State, row: Value, data: Bytes, law: Law) {
    (Candidate(s, row, data, law) && Replaces(s, t, Next(s), data, None)) == true
  }

  ghost predicate PublishesLedger(s: State, t: State, row: Value, data: Bytes, law: Law) {
    (&& Candidate(s, row, data, law) && Get(s.files, Next(s)) == Some(data)
     && law.encode(LedgerValue(law.identity, s.cases + [row])).Some?
     && Replaces(s, t, Ledger, law.encode(LedgerValue(law.identity, s.cases + [row])).value, Previous(s, law))) == true
  }

  /** Memory catches up with what is stored. */
  ghost predicate Remembers(s: State, t: State, row: Value, data: Bytes, law: Law) {
    (&& Candidate(s, row, data, law) && Get(s.files, Next(s)) == Some(data)
     && Get(s.files, Ledger).Some? && Sized(Get(s.files, Ledger).value)
     && Get(s.files, Ledger) == law.encode(LedgerValue(law.identity, s.cases + [row]))
     && t == State(s.files, s.cases + [row], s.evidence[Next(s) := data])) == true
  }

  ghost predicate Advances(s: State, t: State, row: Value, data: Bytes, law: Law) {
    (|| PublishesCase(s, t, row, data, law)
     || PublishesLedger(s, t, row, data, law)
     || Remembers(s, t, row, data, law)) == true
  }

  ghost predicate Move(s: State, t: State, law: Law) {
    (Churns(s, t) || exists row, data :: Advances(s, t, row, data, law)) == true
  }

  /** A fresh runner over any directory. */
  predicate Start(s: State) {
    s.cases == [] && s.evidence == map[]
  }

  /** State i of the trail follows from the one before by a move. */
  ghost predicate MoveAt(trail: seq<State>, i: nat, law: Law)
    requires 0 < i < |trail|
  {
    Move(trail[i - 1], trail[i], law) == true
  }

  ghost predicate History(trail: seq<State>, law: Law) {
    |trail| > 0 && Start(trail[0]) && forall i :: 0 < i < |trail| ==> MoveAt(trail, i, law)
  }

  // ----- The invariant ---------------------------------------------------------------------------------

  /** Every listed file is present with the listed bytes. */
  predicate Present(evidence: Files, files: Files) {
    forall f :: f in evidence ==> Get(files, f) == Some(evidence[f])
  }

  /** The directory stores the ledger of these cases, acceptable with these case files, all present. */
  predicate Stores(files: Files, cases: seq<Value>, evidence: Files, law: Law) {
    (&& Ledger in files && Sized(files[Ledger]) && law.encode(LedgerValue(law.identity, cases)) == Some(files[Ledger])
     && law.accepts(LedgerValue(law.identity, cases), evidence) && Present(evidence, files)) == true
  }

  /** The stored ledger is one row ahead of memory. */
  predicate StoresNext(s: State, row: Value, data: Bytes, law: Law) {
    Stores(s.files, s.cases + [row], s.evidence[Next(s) := data], law) == true
  }

  /** `origin` is what the ledger's name held when the run began. */
  ghost predicate Inv(s: State, law: Law, origin: Option<Bytes>) {
    (&& Present(s.evidence, s.files) && ExactFiles(|s.cases|, s.evidence)
     && (|| (s.cases == [] && Get(s.files, Ledger) == origin)
         || (s.cases != [] && Stores(s.files, s.cases, s.evidence, law))
         || exists row, data :: StoresNext(s, row, data, law))) == true
  }

  /** Adding the next case file keeps the set of files exact. */
  lemma NextFiles(s: State, data: Bytes)
    requires ExactFiles(|s.cases|, s.evidence)
    ensures ExactFiles(|s.cases| + 1, s.evidence[Next(s) := data])
  {
    var files := s.evidence[Next(s) := data];
    forall f ensures f in files.Keys <==> f in set i | 1 <= i <= |s.cases| + 1 :: Case(i) {
      if f in s.evidence { assert f in set i | 1 <= i <= |s.cases| :: Case(i); }
      if f.Case? && 1 <= f.number <= |s.cases| { assert f in s.evidence.Keys by { assert f in set i | 1 <= i <= |s.cases| :: Case(i); } }
    }
  }

  lemma PresentKept(evidence: Files, a: Files, b: Files, changed: File)
    requires Present(evidence, a) && SameBut(a, b, changed) && changed !in evidence
    requires forall f :: f in evidence ==> f.Case?
    ensures Present(evidence, b)
  {
  }

  lemma StoresKept(a: Files, b: Files, cases: seq<Value>, evidence: Files, law: Law)
    requires Stores(a, cases, evidence, law) && ExactFiles(|cases|, evidence)
    requires forall f :: f in evidence || f == Ledger ==> Get(a, f) == Get(b, f)
    ensures Stores(b, cases, evidence, law)
  {
    assert Get(a, Ledger) == Get(b, Ledger);
  }

  lemma ChurnsKeepInv(s: State, t: State, law: Law, origin: Option<Bytes>)
    requires Inv(s, law, origin) && Churns(s, t)
    ensures Inv(t, law, origin)
  {
    assert Get(s.files, Ledger) == Get(t.files, Ledger);
    assert Present(t.evidence, t.files);
    if s.cases != [] && Stores(s.files, s.cases, s.evidence, law) {
      StoresKept(s.files, t.files, s.cases, s.evidence, law);
    } else if row, data :| StoresNext(s, row, data, law) {
      NextFiles(s, data);
      NextKept(s, t, row, data, law);
    }
  }

  lemma NextKept(s: State, t: State, row: Value, data: Bytes, law: Law)
    requires StoresNext(s, row, data, law) && t.cases == s.cases && t.evidence == s.evidence
    requires ExactFiles(|s.cases|, s.evidence)
    requires forall f :: f in s.evidence[Next(s) := data] || f == Ledger ==> Get(s.files, f) == Get(t.files, f)
    ensures StoresNext(t, row, data, law)
  {
    NextFiles(s, data);
    StoresKept(s.files, t.files, s.cases + [row], s.evidence[Next(s) := data], law);
  }

  lemma CaseKeepsInv(s: State, t: State, row: Value, data: Bytes, law: Law, origin: Option<Bytes>)
    requires Inv(s, law, origin) && PublishesCase(s, t, row, data, law)
    ensures Inv(t, law, origin)
  {
    assert Next(s) !in s.evidence;
    assert Get(s.files, Ledger) == Get(t.files, Ledger);
    PresentKept(s.evidence, s.files, t.files, Next(s));
    if s.cases != [] && Stores(s.files, s.cases, s.evidence, law) {
      StoresKept(s.files, t.files, s.cases, s.evidence, law);
    } else if row', data' :| StoresNext(s, row', data', law) {
      NextPresent(s, row', data', law);
    }
  }

  lemma NextPresent(s: State, row: Value, data: Bytes, law: Law)
    requires StoresNext(s, row, data, law)
    ensures Get(s.files, Next(s)) == Some(data)
  {
    assert Next(s) in s.evidence[Next(s) := data];
  }

  lemma LedgerKeepsInv(s: State, t: State, row: Value, data: Bytes, law: Law, origin: Option<Bytes>)
    requires Inv(s, law, origin) && PublishesLedger(s, t, row, data, law)
    ensures Inv(t, law, origin)
  {
    var evidence := s.evidence[Next(s) := data];
    PresentKept(s.evidence, s.files, t.files, Ledger);
    assert Get(t.files, Next(s)) == Some(data);
    LedgerStores(s, t, row, data, law);
    AheadInv(t, row, data, law, origin);
  }

  lemma LedgerStores(s: State, t: State, row: Value, data: Bytes, law: Law)
    requires PublishesLedger(s, t, row, data, law)
    requires Present(s.evidence, t.files) && Get(t.files, Next(s)) == Some(data)
    ensures StoresNext(t, row, data, law)
  {
    assert Present(s.evidence[Next(s) := data], t.files);
  }

  lemma AheadInv(t: State, row: Value, data: Bytes, law: Law, origin: Option<Bytes>)
    requires Present(t.evidence, t.files) && ExactFiles(|t.cases|, t.evidence) && StoresNext(t, row, data, law)
    ensures Inv(t, law, origin)
  {
  }

  lemma RememberKeepsInv(s: State, t: State, row: Value, data: Bytes, law: Law, origin: Option<Bytes>)
    requires Inv(s, law, origin) && Remembers(s, t, row, data, law)
    ensures Inv(t, law, origin)
  {
    NextFiles(s, data);
    assert Present(t.evidence, t.files);
    assert Stores(t.files, t.cases, t.evidence, law);
  }

  lemma MoveKeepsInv(s: State, t: State, law: Law, origin: Option<Bytes>)
    requires Inv(s, law, origin) && Move(s, t, law)
    ensures Inv(t, law, origin)
  {
    if Churns(s, t) {
      ChurnsKeepInv(s, t, law, origin);
    } else {
      var row, data :| Advances(s, t, row, data, law);
      if PublishesCase(s, t, row, data, law) {
        CaseKeepsInv(s, t, row, data, law, origin);
      } else if PublishesLedger(s, t, row, data, law) {
        LedgerKeepsInv(s, t, row, data, law, origin);
      } else {
        RememberKeepsInv(s, t, row, data, law, origin);
      }
    }
  }

  lemma {:induction false} HistoryInv(trail: seq<State>, i: nat, law: Law)
    requires History(trail, law) && i < |trail|
    ensures Inv(trail[i], law, Get(trail[0].files, Ledger))
  {
    if i > 0 {
      HistoryInv(trail, i - 1, law);
      assert MoveAt(trail, i, law);
      MoveKeepsInv(trail[i - 1], trail[i], law, Get(trail[0].files, Ledger));
    }
  }

  // ----- The strict reader ------------------------------------------------------------------------------

  predicate Readable(files: Files, f: File) {
    f in files && Sized(files[f])
  }

  /** What the directory holds at each read of a reader: read 0 is the ledger's, read i that of case i. */
  type Reads = nat -> Files

  /** A directory that does not change meanwhile. */
  function Still(files: Files): Reads {
    (_: nat) => files
  }

  predicate ReadableCase(view: Reads, i: nat) {
    Readable(view(i), Case(i))
  }

  /** The value and the files read_bundle() returns. */
  datatype Bundle = Bundle(value: Value, files: Files)

  predicate AllReadable(view: Reads, n: nat) {
    forall i :: 1 <= i <= n ==> ReadableCase(view, i)
  }

  /** The first n case files, each as it stood when it was read. */
  function Collected(view: Reads, n: nat): Files
    requires AllReadable(view, n)
  {
    map i | 1 <= i <= n :: Case(i) := CaseAt(view, i)
  }

  function CaseAt(view: Reads, i: nat): Bytes
    requires ReadableCase(view, i)
  {
    view(i)[Case(i)]
  }

  /** The ledger is read first, and once more after its n case files. */
  predicate LedgerStays(view: Reads, n: nat) {
    Get(view(n + 1), Ledger) == Get(view(0), Ledger)
  }

  /** What read_bundle() has to find to return this value. */
  predicate Found(view: Reads, value: Value, expected: Value, env: Env) {
    (&& Readable(view(0), Ledger) && env.decode(view(0)[Ledger]) == Some(value)
     && AllReadable(view, |Cases(value)|)
     && Accepts(value, expected, Collected(view, |Cases(value)|), env)
     && LedgerStays(view, |Cases(value)|)) == true
  }

  function BundleOf(view: Reads, value: Value): Bundle
    requires Readable(view(0), Ledger) && AllReadable(view, |Cases(value)|)
  {
    Bundle(value, Collected(view, |Cases(value)|)[Ledger := view(0)[Ledger]])
  }

  lemma CollectedNext(view: Reads, n: nat)
    requires AllReadable(view, n + 1)
    ensures Collected(view, n + 1) == Collected(view, n)[Case(n + 1) := CaseAt(view, n + 1)]
  {
  }

  /** What the reading loop asks of one row. */
  predicate Fetched(view: Reads, value: Value, i: nat)
    requires i < |Cases(value)|
  {
    RowShape(Cases(value)[i], i + 1) && ReadableCase(view, i + 1)
  }

  predicate RowShape(row: Value, sequence: nat) {
    Closed(row, ROW) && Closed(row.fields[EvidenceKey], REFERENCE)
    && row.fields[EvidenceKey].fields[PathKey] == Text(CaseName(sequence))
  }

  /** The shape that read_bundle() checks before it uses any reference is implied by acceptance. */
  lemma AcceptedShape(value: Value, n: nat, expected: Value, files: Files, env: Env)
    requires Accepts(value, expected, files, env) && n < |Cases(value)|
    ensures RowShape(Cases(value)[n], n + 1)
  {
    assert RowAccepted(Cases(value)[n], n + 1, IdentityOf(value), files, env);
    assert EvidenceFits(Cases(value)[n], n + 1, IdentityOf(value), files[Case(n + 1)], env);
    assert ReferenceFits(Cases(value)[n].fields[EvidenceKey], n + 1);
  }

  /** The reading loop: shape first, then each case file. */
  method Collect(view: Reads, value: Value) returns (ok: bool, collected: Files)
    ensures ok <==> forall i :: 0 <= i < |Cases(value)| ==> Fetched(view, value, i)
    ensures ok ==> AllReadable(view, |Cases(value)|) && collected == Collected(view, |Cases(value)|)
  {
    var n := 0;
    collected := map[];
    assert collected == Collected(view, 0);
    while n < |Cases(value)|
      invariant n <= |Cases(value)| && AllReadable(view, n) && collected == Collected(view, n)
      invariant forall i :: 0 <= i < n ==> Fetched(view, value, i)
    {
      if !Fetched(view, value, n) { return false, collected; }
      assert AllReadable(view, n + 1);
      CollectedNext(view, n);
      collected := collected[Case(n + 1) := CaseAt(view, n + 1)];
      n := n + 1;
    }
    ok := true;
  }

  /** read_bundle(), over whatever the directory holds at each of its reads. */
  method ReadBundle(view: Reads, expected: Value, env: Env) returns (r: Option<Bundle>)
    ensures r.Some? ==> Found(view, r.value.value, expected, env) && r.value == BundleOf(view, r.value.value)
    ensures r.None? ==> forall value :: !Found(view, value, expected, env)
  {
    if !Readable(view(0), Ledger) { return None; }
    var decoded := env.decode(view(0)[Ledger]);
    if decoded.None? { return None; }
    r := ReadCases(view, decoded.value, expected, env);
  }

  /** The rest of it, once the ledger has decoded to this value. */
  method ReadCases(view: Reads, value: Value, expected: Value, env: Env) returns (r: Option<Bundle>)
    requires Readable(view(0), Ledger) && env.decode(view(0)[Ledger]) == Some(value)
    ensures r.Some? <==> Found(view, value, expected, env)
    ensures r.Some? ==> r.value == BundleOf(view, value)
  {
    if !Closed(value, LEDGER) || !value.fields[CasesKey].Items? || |Cases(value)| > CASES {
      return None;
    }
    FoundShape(view, value, expected, env);
    var ok, collected := Collect(view, value);
    if !ok { return None; }
    ok := Validate(value, expected, collected, env);
    if !ok { return None; }
    var last := view(|Cases(value)| + 1);
    if !Readable(last, Ledger) || last[Ledger] != view(0)[Ledger] { return None; }
    r := Some(Bundle(value, collected[Ledger := view(0)[Ledger]]));
  }

  lemma FoundShape(view: Reads, value: Value, expected: Value, env: Env)
    ensures Found(view, value, expected, env) ==>
              forall i :: 0 <= i < |Cases(value)| ==> Fetched(view, value, i)
  {
    if Found(view, value, expected, env) {
      forall i | 0 <= i < |Cases(value)| ensures Fetched(view, value, i) {
        AcceptedShape(value, i, expected, Collected(view, |Cases(value)|), env);
      }
    }
  }

  // ----- What every run keeps -------------------------------------------------------------------------------

  /** The cases of the stored ledger, as a reader decodes them. */
  function StoredCases(files: Files, law: Law): Option<seq<Value>> {
    if Ledger in files && law.decode(files[Ledger]).Some? then Some(Cases(law.decode(files[Ledger]).value)) else None
  }

  lemma StoredDecodes(files: Files, cases: seq<Value>, evidence: Files, law: Law)
    requires Faithful(law) && Stores(files, cases, evidence, law)
    ensures law.decode(files[Ledger]) == Some(LedgerValue(law.identity, cases)) && StoredCases(files, law) == Some(cases)
  {
    assert law.decode(law.encode(LedgerValue(law.identity, cases)).value) == Some(LedgerValue(law.identity, cases));
    assert Cases(LedgerValue(law.identity, cases)) == cases;
  }

  /** Memory's cases, or those and one more. */
  predicate InStep(stored: seq<Value>, memory: seq<Value>) {
    stored == memory || (|stored| == |memory| + 1 && stored[..|memory|] == memory)
  }

  /** A stored ledger with its case files present is what the strict reader returns. */
  lemma StoredReads(files: Files, cases: seq<Value>, evidence: Files, identity: Value, env: Env)
    requires Readable(files, Ledger) && env.decode(files[Ledger]) == Some(LedgerValue(identity, cases))
    requires Accepts(LedgerValue(identity, cases), identity, evidence, env) && Present(evidence, files)
    ensures Found(Still(files), LedgerValue(identity, cases), identity, env)
  {
    var value := LedgerValue(identity, cases);
    assert Cases(value) == cases && ExactFiles(|cases|, evidence);
    forall i | 1 <= i <= |cases| ensures ReadableCase(Still(files), i) && Get(evidence, Case(i)) == Some(files[Case(i)]) {
      EvidenceSized(value, i - 1, identity, evidence, env);
      assert Get(files, Case(i)) == Some(evidence[Case(i)]);
    }
    CollectedIs(Still(files), |cases|, evidence);
  }

  lemma CollectedNames(view: Reads, n: nat)
    requires AllReadable(view, n)
    ensures ExactFiles(n, Collected(view, n))
  {
  }

  /** The collected files are these, if they have the right names and each read finds its own. */
  lemma CollectedIs(view: Reads, n: nat, files: Files)
    requires AllReadable(view, n) && ExactFiles(n, files)
    requires forall i :: 1 <= i <= n ==> Get(files, Case(i)) == Some(CaseAt(view, i))
    ensures Collected(view, n) == files
  {
    CollectedNames(view, n);
    assert forall f :: f in files <==> f in files.Keys;
    forall f | f in files ensures Collected(view, n)[f] == files[f] {
      assert f in Collected(view, n).Keys && f == Case(f.number);
      assert Get(files, f) == Some(CaseAt(view, f.number));
    }
  }

  lemma EvidenceSized(value: Value, i: nat, expected: Value, files: Files, env: Env)
    requires Accepts(value, expected, files, env) && i < |Cases(value)|
    ensures Case(i + 1) in files && Sized(files[Case(i + 1)])
  {
    assert RowAccepted(Cases(value)[i], i + 1, IdentityOf(value), files, env);
    var row := Cases(value)[i];
    assert EvidenceFits(row, i + 1, IdentityOf(value), files[Case(i + 1)], env);
    assert ReferenceFits(row.fields[EvidenceKey], i + 1);
  }

  /** The run has published: memory is not empty, or the ledger is not what it was. */
  predicate Moved(s: State, origin: Option<Bytes>) {
    s.cases != [] || Get(s.files, Ledger) != origin
  }

  /** What is stored in a state: memory's cases or one more, accepted with case files that are present. */
  lemma StoredInStep(s: State, law: Law, origin: Option<Bytes>) returns (cases: seq<Value>, evidence: Files)
    requires Faithful(law) && Inv(s, law, origin) && Moved(s, origin)
    ensures InStep(cases, s.cases) && Stores(s.files, cases, evidence, law)
    ensures law.decode(s.files[Ledger]) == Some(LedgerValue(law.identity, cases)) && StoredCases(s.files, law) == Some(cases)
  {
    if s.cases != [] && Stores(s.files, s.cases, s.evidence, law) {
      cases, evidence := s.cases, s.evidence;
    } else {
      var row, data :| StoresNext(s, row, data, law);
      cases, evidence := s.cases + [row], s.evidence[Next(s) := data];
      assert cases[..|s.cases|] == s.cases;
    }
    StoredDecodes(s.files, cases, evidence, law);
  }

  /**
   * In every state of every run: either memory is still empty and the ledger's name
   * still holds what it held at first, or the stored ledger is memory's or that with
   * one more row, and the strict reader accepts it.
   */
  lemma CrashSafe(trail: seq<State>, i: nat, identity: Value, env: Env)
    requires var law := LawOf(identity, env); Faithful(law) && History(trail, law) && i < |trail|
    ensures var s, law := trail[i], LawOf(identity, env);
            Moved(s, Get(trail[0].files, Ledger)) ==>
              && StoredCases(s.files, law).Some? && InStep(StoredCases(s.files, law).value, s.cases)
              && Found(Still(s.files), LedgerValue(identity, StoredCases(s.files, law).value), identity, env)
  {
    var s, law, origin := trail[i], LawOf(identity, env), Get(trail[0].files, Ledger);
    HistoryInv(trail, i, law);
    if Moved(s, origin) {
      var cases, evidence := StoredInStep(s, law, origin);
      StoredReads(s.files, cases, evidence, identity, env);
    }
  }

  /** The later ledger extends the earlier one, and no case file or other visible file has changed. */
  ghost predicate Grows(a: Files, b: Files, law: Law) {
    && (forall f: File :: f in a && !f.Temporary? && f != Ledger ==> Get(b, f) == Get(a, f))
    && (StoredCases(a, law).Some? ==> StoredCases(b, law).Some? && StoredCases(a, law).value <= StoredCases(b, law).value)
  }

  lemma LedgerGrows(s: State, t: State, row: Value, data: Bytes, law: Law, origin: Option<Bytes>)
    requires Faithful(law) && Inv(s, law, origin) && PublishesLedger(s, t, row, data, law)
    ensures Grows(s.files, t.files, law)
  {
    var value := LedgerValue(law.identity, s.cases + [row]);
    assert law.decode(law.encode(value).value) == Some(value);
    assert Cases(value) == s.cases + [row];
    assert Get(t.files, Ledger) == law.encode(value);
    if s.cases != [] {
      var before := LedgerValue(law.identity, s.cases);
      assert Get(s.files, Ledger) == law.encode(before);
      assert Ledger in s.files;
      StoredSized(s, law, origin);
      assert law.decode(law.encode(before).value) == Some(before);
      assert Cases(before) == s.cases;
    }
  }

  lemma StoredSized(s: State, law: Law, origin: Option<Bytes>)
    requires Inv(s, law, origin) && s.cases != [] && Ledger in s.files
    ensures Sized(s.files[Ledger])
  {
    if row, data :| StoresNext(s, row, data, law) {
    }
  }

  lemma SameLedgerGrows(a: Files, b: Files, law: Law)
    requires Get(a, Ledger) == Get(b, Ledger)
    requires forall f: File :: f in a && !f.Temporary? && f != Ledger ==> Get(b, f) == Get(a, f)
    ensures Grows(a, b, law)
  {
  }

  lemma CaseGrows(s: State, t: State, data: Bytes, law: Law)
    requires Replaces(s, t, Next(s), data, None)
    ensures Grows(s.files, t.files, law)
  {
    assert Next(s) !in s.files;
    SameLedgerGrows(s.files, t.files, law);
  }

  lemma MoveGrows(s: State, t: State, law: Law, origin: Option<Bytes>)
    requires Faithful(law) && Inv(s, law, origin) && Move(s, t, law)
    ensures Grows(s.files, t.files, law)
  {
    if Churns(s, t) {
      SameLedgerGrows(s.files, t.files, law);
    } else {
      var row, data :| Advances(s, t, row, data, law);
      if PublishesLedger(s, t, row, data, law) {
        LedgerGrows(s, t, row, data, law, origin);
      } else if PublishesCase(s, t, row, data, law) {
        CaseGrows(s, t, data, law);
      } else {
        assert t.files == s.files;
      }
    }
  }

  /** Between any two states of a run the stored ledger only grows and case files never change. */
  lemma {:induction false} AppendOnly(trail: seq<State>, i: nat, j: nat, law: Law)
    requires Faithful(law) && History(trail, law) && i <= j < |trail|
    ensures Grows(trail[i].files, trail[j].files, law) && trail[i].cases <= trail[j].cases
    decreases j
  {
    if i < j {
      AppendOnly(trail, i, j - 1, law);
      HistoryInv(trail, j - 1, law);
      assert MoveAt(trail, j, law);
      MoveGrows(trail[j - 1], trail[j], law, Get(trail[0].files, Ledger));
      MemoryGrows(trail[j - 1], trail[j], law);
      GrowsTransitive(trail[i].files, trail[j - 1].files, trail[j].files, law);
    }
  }

  lemma MemoryGrows(s: State, t: State, law: Law)
    requires Move(s, t, law)
    ensures s.cases <= t.cases
  {
    if !Churns(s, t) {
      var row, data :| Advances(s, t, row, data, law);
    }
  }

  lemma GrowsTransitive(a: Files, b: Files, c: Files, law: Law)
    requires Grows(a, b, law) && Grows(b, c, law)
    ensures Grows(a, c, law)
  {
    forall f: File | f in a && !f.Temporary? && f != Ledger ensures Get(c, f) == Get(a, f) {
      assert Get(b, f) == Get(a, f);
      assert f in b;
    }
  }

  // ----- Reading while the run goes on ----------------------------------------------------------------------

  /** The reader's j-th read happens in state at(j) of the run. */
  ghost predicate Scheduled(at: nat -> nat, trail: seq<State>) {
    && (forall j {:trigger at(j)} :: at(j) < |trail|)
    && forall j, k {:trigger at(j), at(k)} :: j <= k ==> at(j) <= at(k)
  }

  function During(trail: seq<State>, at: nat -> nat): Reads
    requires forall j {:trigger at(j)} :: at(j) < |trail|
  {
    (j: nat) => trail[at(j)].files
  }

  /** A case file that is there at one read is there, unchanged, at every later one. */
  lemma CaseStays(trail: seq<State>, at: nat -> nat, j: nat, k: nat, i: nat, law: Law)
    requires Faithful(law) && History(trail, law) && Scheduled(at, trail) && j <= k
    requires Case(i) in trail[at(j)].files
    ensures Get(trail[at(k)].files, Case(i)) == Get(trail[at(j)].files, Case(i))
  {
    AppendOnly(trail, at(j), at(k), law);
  }

  /** Two readers that find the same ledger first and the same n case files. */
  ghost predicate Alike(a: Reads, b: Reads, n: nat) {
    (&& Get(a(0), Ledger) == Get(b(0), Ledger) && AllReadable(a, n) && AllReadable(b, n)
     && forall i :: 1 <= i <= n ==> CaseAt(a, i) == CaseAt(b, i)) == true
  }

  /** They differ at most by their last look at the ledger. */
  lemma FoundAlike(a: Reads, b: Reads, value: Value, expected: Value, env: Env)
    requires Alike(a, b, |Cases(value)|) && Found(a, value, expected, env) && LedgerStays(b, |Cases(value)|)
    ensures Found(b, value, expected, env) && BundleOf(a, value) == BundleOf(b, value)
  {
    assert Collected(a, |Cases(value)|) == Collected(b, |Cases(value)|);
  }

  lemma LaterAlike(trail: seq<State>, at: nat -> nat, n: nat, law: Law)
    requires Faithful(law) && History(trail, law) && Scheduled(at, trail)
    requires AllReadable(During(trail, at), n) && LedgerStays(During(trail, at), n)
    ensures Alike(During(trail, at), Still(trail[at(n + 1)].files), n)
  {
    var view, last := During(trail, at), Still(trail[at(n + 1)].files);
    forall i | 1 <= i <= n ensures ReadableCase(last, i) && CaseAt(last, i) == CaseAt(view, i) {
      assert ReadableCase(view, i);
      LaterCase(trail, at, n, i, law);
    }
  }

  lemma LaterCase(trail: seq<State>, at: nat -> nat, n: nat, i: nat, law: Law)
    requires Faithful(law) && History(trail, law) && Scheduled(at, trail)
    requires i <= n && ReadableCase(During(trail, at), i)
    ensures var last := Still(trail[at(n + 1)].files);
            ReadableCase(last, i) && CaseAt(last, i) == CaseAt(During(trail, at), i)
  {
    CaseStays(trail, at, i, n + 1, i, law);
  }

  lemma EarlierAlike(trail: seq<State>, at: nat -> nat, n: nat, law: Law)
    requires Faithful(law) && History(trail, law) && Scheduled(at, trail)
    requires AllReadable(Still(trail[at(0)].files), n)
    ensures Alike(Still(trail[at(0)].files), During(trail, at), n)
  {
    var view, first := During(trail, at), Still(trail[at(0)].files);
    forall i | 1 <= i <= n ensures ReadableCase(view, i) && CaseAt(view, i) == CaseAt(first, i) {
      assert ReadableCase(first, i);
      EarlierCase(trail, at, i, law);
    }
  }

  lemma EarlierCase(trail: seq<State>, at: nat -> nat, i: nat, law: Law)
    requires Faithful(law) && History(trail, law) && Scheduled(at, trail)
    requires ReadableCase(Still(trail[at(0)].files), i)
    ensures ReadableCase(During(trail, at), i) && CaseAt(During(trail, at), i) == CaseAt(Still(trail[at(0)].files), i)
  {
    CaseStays(trail, at, 0, i, i, law);
  }

  /**
   * A reader beside a running runner returns one instant's bundle: what it returns,
   * it would have returned had the directory stood still as of its last read.
   */
  lemma ReadsOneInstant(trail: seq<State>, at: nat -> nat, value: Value, identity: Value, env: Env)
    requires var law := LawOf(identity, env); Faithful(law) && History(trail, law) && Scheduled(at, trail)
    requires Found(During(trail, at), value, identity, env)
    ensures var last := Still(trail[at(|Cases(value)| + 1)].files);
            && Found(last, value, identity, env)
            && BundleOf(last, value) == BundleOf(During(trail, at), value)
  {
    LaterAlike(trail, at, |Cases(value)|, LawOf(identity, env));
    FoundAlike(During(trail, at), Still(trail[at(|Cases(value)| + 1)].files), value, identity, env);
  }

  /**
   * Once the run has published, such a reader succeeds exactly if the ledger is at
   * its last read what it was at its first.
   */
  lemma ReadsUnlessMoved(trail: seq<State>, at: nat -> nat, identity: Value, env: Env)
    requires var law := LawOf(identity, env); Faithful(law) && History(trail, law) && Scheduled(at, trail)
    requires Moved(trail[at(0)], Get(trail[0].files, Ledger))
    ensures var view, cases := During(trail, at), StoredCases(trail[at(0)].files, LawOf(identity, env));
            && cases.Some?
            && (Found(view, LedgerValue(identity, cases.value), identity, env) <==> LedgerStays(view, |cases.value|))
  {
    CrashSafe(trail, at(0), identity, env);
    var cases := StoredCases(trail[at(0)].files, LawOf(identity, env)).value;
    assert Cases(LedgerValue(identity, cases)) == cases;
    EarlierAlike(trail, at, |cases|, LawOf(identity, env));
    if LedgerStays(During(trail, at), |cases|) {
      FoundAlike(Still(trail[at(0)].files), During(trail, at), LedgerValue(identity, cases), identity, env);
    }
  }
}
