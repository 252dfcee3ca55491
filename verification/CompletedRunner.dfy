/**
 * The runner that marks cases complete: publish() with failures at any call, and
 * mark(), which publishes the case file, then the ledger, then updates memory.
 */
module CompletedRunner {
  import opened Prelude
  import opened CompletedLedger
  import opened CompletedRuns

  /** One step of publish(). */
  ghost predicate PublishStep(s: State, t: State, name: File, data: Bytes, previous: Option<Bytes>) {
    (Churns(s, t) || Replaces(s, t, name, data, previous)) == true
  }

  /** State i of the trail follows from the one before by such a step. */
  ghost predicate PublishedAt(trail: seq<State>, i: nat, name: File, data: Bytes, previous: Option<Bytes>)
    requires 0 < i < |trail|
  {
    PublishStep(trail[i - 1], trail[i], name, data, previous) == true
  }

  /** The states from position n on are steps of one publish() call. */
  ghost predicate Published(trail: seq<State>, n: nat, name: File, data: Bytes, previous: Option<Bytes>) {
    0 < n <= |trail| && forall i :: n <= i < |trail| ==> PublishedAt(trail, i, name, data, previous)
  }

  lemma PublishedNext(trail: seq<State>, n: nat, next: State, name: File, data: Bytes, previous: Option<Bytes>)
    requires Published(trail, n, name, data, previous) && PublishStep(trail[|trail| - 1], next, name, data, previous)
    ensures Published(trail + [next], n, name, data, previous)
  {
    var longer := trail + [next];
    forall i | n <= i < |longer| ensures PublishedAt(longer, i, name, data, previous) {
      if i < |trail| { assert PublishedAt(trail, i, name, data, previous); }
    }
  }

  lemma ReplaceStep(s: State, t: State, temporary: File, name: File, data: Bytes, previous: Option<Bytes>)
    requires temporary.Temporary? && Get(s.files, temporary) == Some(data) && !name.Temporary? && Sized(data)
    requires Get(s.files, name) == previous
    requires t == s.(files := (s.files - {temporary})[name := data])
    ensures Replaces(s, t, name, data, previous)
  {
    assert forall f: File :: !f.Temporary? && f != name ==> Get(t.files, f) == Get(s.files, f);
  }

  /** The names publish() accepts. */
  predicate Publishable(name: File) {
    name == Ledger || (name.Case? && 1 <= name.number <= CASES)
  }

  /** The observation mark() writes for the given position in the ledger. */
  function Observation(identity: Value, variant: string, sequence: nat, at: real, counts: Value, env: Env): Value {
    Fields(map[SchemaKey := Whole(1), IdentityKey := identity, VariantKey := Text(variant), SequenceKey := Whole(sequence),
               IndexKey := Whole(IndexIn(env.manifest, variant)), AtKey := Float(at), CountsKey := counts])
  }

  function Reference(sequence: nat, data: Bytes, env: Env): Value {
    Fields(map[PathKey := Text(CaseName(sequence)), BytesKey := Whole(|data|), ShaKey := Text(env.digest(data))])
  }

  /** The ledger row that refers to these evidence bytes. */
  function Row(variant: string, sequence: nat, at: real, data: Bytes, env: Env): Value {
    Fields(map[VariantKey := Text(variant), SequenceKey := Whole(sequence), IndexKey := Whole(IndexIn(env.manifest, variant)),
               AtKey := Float(at), StatusKey := Text("PASS"), EvidenceKey := Reference(sequence, data, env)])
  }

  predicate SameMemory(a: State, b: State) {
    (a.cases == b.cases && a.evidence == b.evidence) == true
  }

  lemma StepKeeps(s: State, t: State, name: File, data: Bytes, previous: Option<Bytes>, other: File)
    requires PublishStep(s, t, name, data, previous) && other != name && !other.Temporary?
    ensures SameMemory(s, t) && Get(t.files, other) == Get(s.files, other)
  {
  }

  /** Through one publish() call, memory and every other visible file stay as they were. */
  lemma {:induction false} SegmentKeeps(trail: seq<State>, n: nat, k: nat, name: File, data: Bytes, previous: Option<Bytes>,
                                        other: File)
    requires Published(trail, n, name, data, previous) && n - 1 <= k < |trail| && other != name && !other.Temporary?
    ensures SameMemory(trail[n - 1], trail[k]) && Get(trail[k].files, other) == Get(trail[n - 1].files, other)
    decreases k
  {
    if k >= n {
      SegmentKeeps(trail, n, k - 1, name, data, previous, other);
      assert PublishedAt(trail, k, name, data, previous);
      StepKeeps(trail[k - 1], trail[k], name, data, previous, other);
    }
  }

  /** Any step of one publish() call starts from the memory and the other visible files of its beginning. */
  lemma SegmentStep(trail: seq<State>, n: nat, k: nat, name: File, data: Bytes, previous: Option<Bytes>, other: File)
    requires Published(trail, n, name, data, previous) && n <= k < |trail| && other != name && !other.Temporary?
    ensures SameMemory(trail[n - 1], trail[k - 1]) && Get(trail[k - 1].files, other) == Get(trail[n - 1].files, other)
    ensures PublishStep(trail[k - 1], trail[k], name, data, previous)
  {
    SegmentKeeps(trail, n, k - 1, name, data, previous, other);
    assert PublishedAt(trail, k, name, data, previous);
  }

  /** A step of publishing the candidate's case file, from a state with the candidate's memory. */
  lemma CaseStep(base: State, s: State, t: State, row: Value, data: Bytes, law: Law)
    requires SameMemory(base, s) && PublishStep(s, t, Next(base), data, None) && Candidate(base, row, data, law)
    ensures Move(s, t, law)
  {
    if !Churns(s, t) { assert Advances(s, t, row, data, law); }
  }

  /** A step of publishing the candidate's ledger, once the case file is in place. */
  lemma LedgerStep(base: State, s: State, t: State, row: Value, data: Bytes, bytes: Bytes, law: Law)
    requires SameMemory(base, s) && PublishStep(s, t, Ledger, bytes, Previous(base, law))
    requires Candidate(base, row, data, law) && Get(s.files, Next(base)) == Some(data)
    requires law.encode(LedgerValue(law.identity, base.cases + [row])) == Some(bytes)
    ensures Move(s, t, law)
  {
    if !Churns(s, t) {
      assert PublishesLedger(s, t, row, data, law);
      assert Advances(s, t, row, data, law);
    }
  }

  class Runner {
    const env: Env
    /** The run's identity, codec and acceptance test. */
    const law: Law
    var files: Files
    var cases: seq<Value>
    var evidence: Files
    var results: map<string, real>
    /** Every state so far, the current one last. */
    ghost var trail: seq<State>

    ghost function View(): State
      reads `files, `cases, `evidence
    {
      State(files, cases, evidence)
    }

    ghost predicate Traced()
      reads `files, `cases, `evidence, `trail
    {
      |trail| > 0 && trail[|trail| - 1] == View()
    }

    ghost predicate Valid()
      reads `files, `cases, `evidence, `trail
    {
      Traced() && History(trail, law)
    }

    constructor (directory: Files, identity: Value, env: Env)
      ensures Valid() && files == directory && cases == [] && results == map[]
      ensures this.env == env && law == LawOf(identity, env) && Lawful() && trail == [View()]
    {
      this.env, this.law := env, LawOf(identity, env);
      files, cases, evidence, results := directory, [], map[], map[];
      trail := [State(directory, [], map[])];
    }

    /** Set the directory's files, recording the new state. */
    method Update(files': Files, ghost n: nat, ghost name: File, ghost data: Bytes, ghost previous: Option<Bytes>)
      requires Traced() && Published(trail, n, name, data, previous)
      requires PublishStep(View(), State(files', cases, evidence), name, data, previous)
      modifies `files, `trail
      ensures Traced() && files == files' && trail == old(trail) + [View()]
      ensures Published(trail, n, name, data, previous)
    {
      PublishedNext(trail, n, State(files', cases, evidence), name, data, previous);
      files := files';
      trail := trail + [View()];
    }

    /** read_file() under publish(): absent is None; any refusal or error is not ok. */
    method Current(name: File) returns (ok: bool, current: Option<Bytes>)
      ensures ok ==> current == Get(files, name)
    {
      ok := *;
      current := Get(files, name);
      if current.Some? && !Sized(current.value) { ok := false; }
    }

    /** Create the temporary and write it in chunks; any call may fail with part of the data written. */
    method Stage(temporary: File, data: Bytes, ghost n: nat, ghost name: File, ghost previous: Option<Bytes>)
      returns (created: bool, ok: bool)
      requires Traced() && Published(trail, n, name, data, previous) && temporary.Temporary?
      modifies `files, `trail
      ensures Traced() && Published(trail, n, name, data, previous)
      ensures |old(trail)| <= |trail| && trail[..|old(trail)|] == old(trail)
      ensures Churns(old(View()), View())
      ensures ok ==> created && Get(files, temporary) == Some(data)
    {
      created := *;
      if temporary in files || !created { return false, false; }
      Update(files[temporary := []], n, name, data, previous);
      var written := 0;
      while written < |data|
        invariant written <= |data| && Traced() && Published(trail, n, name, data, previous)
        invariant |old(trail)| <= |trail| && trail[..|old(trail)|] == old(trail)
        invariant Churns(old(View()), View()) && Get(files, temporary) == Some(data[..written])
      {
        var chunk: int := *;
        if chunk <= 0 || written + chunk > |data| { return true, false; }
        written := written + chunk;
        Update(files[temporary := data[..written]], n, name, data, previous);
      }
      assert data[..written] == data;
      ok := *;
    }

    /** Compare with the expected content again, then rename over the name; syncing may still fail afterwards. */
    method Swap(temporary: File, name: File, data: Bytes, previous: Option<Bytes>, ghost n: nat) returns (ok: bool)
      requires Traced() && Published(trail, n, name, data, previous)
      requires temporary.Temporary? && !name.Temporary? && Sized(data) && Get(files, temporary) == Some(data)
      modifies `files, `trail
      ensures Traced() && Published(trail, n, name, data, previous)
      ensures |old(trail)| <= |trail| && trail[..|old(trail)|] == old(trail)
      ensures ok ==> Get(files, name) == Some(data)
    {
      var current: Option<Bytes>;
      ok, current := Current(name);
      if !ok || current != previous { return false; }
      var renamed: bool := *;
      if !renamed { return false; }
      ReplaceStep(View(), State((files - {temporary})[name := data], cases, evidence), temporary, name, data, previous);
      Update((files - {temporary})[name := data], n, name, data, previous);
      ok := *;
    }

    /** The finally block: remove the temporary if it is still there; the removal itself may fail. */
    method Discard(temporary: File, ghost n: nat, ghost name: File, ghost data: Bytes, ghost previous: Option<Bytes>)
      returns (ok: bool)
      requires Traced() && Published(trail, n, name, data, previous) && temporary.Temporary?
      modifies `files, `trail
      ensures Traced() && Published(trail, n, name, data, previous)
      ensures |old(trail)| <= |trail| && trail[..|old(trail)|] == old(trail)
      ensures Churns(old(View()), View())
    {
      ok := *;
      if ok && temporary in files {
        Update(files - {temporary}, n, name, data, previous);
      }
    }

    /** publish(): compare and swap of one file through a temporary, where any call may fail. */
    method Publish(name: File, data: Bytes, previous: Option<Bytes>) returns (ok: bool)
      requires Traced()
      modifies `files, `trail
      ensures Traced() && |old(trail)| <= |trail| && trail[..|old(trail)|] == old(trail)
      ensures Published(trail, |old(trail)|, name, data, previous)
      ensures ok ==> Get(files, name) == Some(data) && Publishable(name) && Sized(data)
      ensures old(Get(files, name)) != previous && old(Get(files, name)) != Some(data) ==> !ok && files == old(files)
    {
      ghost var n := |trail|;
      if !Publishable(name) || !Sized(data) { return false; }
      var existing: Option<Bytes>;
      ok, existing := Current(name);
      if !ok { return false; }
      if existing == Some(data) { ok := *; return; }
      if existing != previous { return false; }
      var token: string := *;
      var created: bool;
      created, ok := Stage(Temporary(token), data, n, name, previous);
      if !created { return false; }
      if ok { ok := Swap(Temporary(token), name, data, previous, n); }
      var discarded := Discard(Temporary(token), n, name, data, previous);
      ok := ok && discarded;
    }

    /** mark(): accept the candidate, publish its case file, then the ledger, then remember it. */
    method Mark(variant: string, at: real, counts: Value) returns (ok: bool)
      requires Valid() && Lawful()
      modifies this
      ensures Valid() && |old(trail)| <= |trail| && trail[..|old(trail)|] == old(trail)
      ensures !ok ==> cases == old(cases) && evidence == old(evidence) && results == old(results)
      ensures ok ==> variant !in old(results) && variant in env.manifest && results == old(results)[variant := at]
      ensures ok ==> StoresMemory() && Recorded(old(cases), cases, variant, at, counts)
    {
      if variant in results { return false; }
      ok := Record(variant, at, counts);
      if ok { results := results[variant := at]; }
    }

    /** Everything in mark() between the duplicate check and the result. */
    method Record(variant: string, at: real, counts: Value) returns (ok: bool)
      requires Valid() && Lawful()
      modifies `files, `cases, `evidence, `trail
      ensures Valid() && |old(trail)| <= |trail| && trail[..|old(trail)|] == old(trail)
      ensures !ok ==> cases == old(cases) && evidence == old(evidence)
      ensures ok ==> variant in env.manifest && StoresMemory() && Recorded(old(cases), cases, variant, at, counts)
    {
      if variant !in env.manifest { return false; }
      var observation := law.encode(Observation(law.identity, variant, |cases| + 1, at, counts, env));
      if observation.None? { return false; }
      ok := Append(Row(variant, |cases| + 1, at, observation.value, env), observation.value);
    }

    /** The cases grew by the row whose evidence is the encoded observation. */
    predicate Recorded(before: seq<Value>, after: seq<Value>, variant: string, at: real, counts: Value) {
      var bytes := law.encode(Observation(law.identity, variant, |before| + 1, at, counts, env));
      bytes.Some? && after == before + [Row(variant, |before| + 1, at, bytes.value, env)]
    }

    /** The acceptance test is validate() against the run's own identity. */
    ghost predicate Lawful() {
      forall value, listed {:trigger Accepts(value, law.identity, listed, env)} ::
        law.accepts(value, listed) <==> Accepts(value, law.identity, listed, env)
    }

    /** Whether validate() accepts the ledger extended by this row. */
    method Admit(row: Value, data: Bytes) returns (ok: bool)
      requires Lawful()
      ensures ok <==> Candidate(View(), row, data, law)
    {
      ok := Validate(LedgerValue(law.identity, cases + [row]), law.identity, evidence[Case(|cases| + 1) := data], env);
    }

    /** Accept the extended ledger, publish both files, then update memory. */
    method Append(row: Value, data: Bytes) returns (ok: bool)
      requires Valid() && Lawful()
      modifies `files, `cases, `evidence, `trail
      ensures Valid() && |old(trail)| <= |trail| && trail[..|old(trail)|] == old(trail)
      ensures !ok ==> cases == old(cases) && evidence == old(evidence)
      ensures ok ==> cases == old(cases) + [row] && StoresMemory()
    {
      ok := Admit(row, data);
      if !ok { return; }
      ok := PublishBoth(row, data);
      if ok { Remember(row, data); }
    }

    /** The stored ledger is exactly memory's, with its case files in place. */
    ghost predicate StoresMemory()
      reads `files, `cases, `evidence
    {
      Stores(files, cases, evidence, law)
    }

    /** The two publications of mark(), case file first. */
    method PublishBoth(row: Value, data: Bytes) returns (ok: bool)
      requires Valid() && Candidate(View(), row, data, law)
      modifies `files, `trail
      ensures Valid() && |old(trail)| <= |trail| && trail[..|old(trail)|] == old(trail)
      ensures ok ==> && Get(files, Next(View())) == Some(data) && Get(files, Ledger).Some?
                     && Sized(Get(files, Ledger).value)
                     && Get(files, Ledger) == law.encode(LedgerValue(law.identity, cases + [row]))
    {
      var previous := if cases == [] then None else law.encode(LedgerValue(law.identity, cases));
      if cases != [] && previous.None? { return false; }
      ok := PublishCase(row, data);
      if !ok { return; }
      var bytes := law.encode(LedgerValue(law.identity, cases + [row]));
      if bytes.None? { return false; }
      ok := PublishLedger(row, data, bytes.value, previous);
    }

    method PublishCase(row: Value, data: Bytes) returns (ok: bool)
      requires Valid() && Candidate(View(), row, data, law)
      modifies `files, `trail
      ensures Valid() && |old(trail)| <= |trail| && trail[..|old(trail)|] == old(trail)
      ensures ok ==> Get(files, Next(View())) == Some(data)
    {
      ghost var base, before := View(), trail;
      var name := Case(|cases| + 1);
      ok := Publish(name, data, None);
      assert trail[|before| - 1] == before[|before| - 1];
      forall k | |before| <= k < |trail| ensures Move(trail[k - 1], trail[k], law) {
        SegmentStep(trail, |before|, k, name, data, None, Ledger);
        CaseStep(base, trail[k - 1], trail[k], row, data, law);
      }
      HistoryExtends(before, trail, law);
    }

    method PublishLedger(row: Value, data: Bytes, bytes: Bytes, previous: Option<Bytes>) returns (ok: bool)
      requires Valid() && Candidate(View(), row, data, law) && Get(files, Next(View())) == Some(data)
      requires law.encode(LedgerValue(law.identity, cases + [row])) == Some(bytes) && previous == Previous(View(), law)
      modifies `files, `trail
      ensures Valid() && |old(trail)| <= |trail| && trail[..|old(trail)|] == old(trail)
      ensures Get(files, Next(View())) == Some(data)
      ensures ok ==> Get(files, Ledger) == Some(bytes) && Sized(bytes)
    {
      ghost var base, before, name := View(), trail, Case(|cases| + 1);
      ok := Publish(Ledger, bytes, previous);
      assert trail[|before| - 1] == before[|before| - 1];
      forall k | |before| <= k < |trail| ensures Move(trail[k - 1], trail[k], law) {
        SegmentStep(trail, |before|, k, Ledger, bytes, previous, name);
        LedgerStep(base, trail[k - 1], trail[k], row, data, bytes, law);
      }
      SegmentKeeps(trail, |before|, |trail| - 1, Ledger, bytes, previous, name);
      HistoryExtends(before, trail, law);
    }

    /** Memory takes over the published candidate. */
    method Remember(row: Value, data: Bytes)
      requires Valid() && Candidate(View(), row, data, law) && Get(files, Next(View())) == Some(data)
      requires Get(files, Ledger).Some? && Sized(Get(files, Ledger).value)
      requires Get(files, Ledger) == law.encode(LedgerValue(law.identity, cases + [row]))
      modifies `cases, `evidence, `trail
      ensures Valid() && trail == old(trail) + [View()]
      ensures cases == old(cases) + [row] && StoresMemory()
    {
      ghost var s := View();
      evidence := evidence[Case(|cases| + 1) := data];
      cases := cases + [row];
      RememberedNext(trail, s, View(), row, data, law);
      trail := trail + [View()];
    }
  }

  lemma RememberedNext(trail: seq<State>, s: State, t: State, row: Value, data: Bytes, law: Law)
    requires History(trail, law) && s == trail[|trail| - 1] && Remembers(s, t, row, data, law)
    ensures History(trail + [t], law) && Stores(t.files, t.cases, t.evidence, law)
  {
    HistoryInv(trail, |trail| - 1, law);
    assert Present(t.evidence, t.files);
    assert Advances(s, t, row, data, law);
    HistoryNext(trail, t, law);
  }

  lemma HistoryExtends(before: seq<State>, after: seq<State>, law: Law)
    requires History(before, law) && |before| <= |after| && after[..|before|] == before
    requires forall k :: |before| <= k < |after| ==> Move(after[k - 1], after[k], law)
    ensures History(after, law)
  {
    forall i | 0 < i < |after| ensures MoveAt(after, i, law) {
      if i < |before| {
        assert MoveAt(before, i, law);
        assert after[i - 1] == before[i - 1] && after[i] == before[i];
      }
    }
    assert after[0] == before[0];
  }

  lemma HistoryNext(trail: seq<State>, t: State, law: Law)
    requires History(trail, law) && Move(trail[|trail| - 1], t, law)
    ensures History(trail + [t], law)
  {
    var longer := trail + [t];
    forall i | 0 < i < |longer| ensures MoveAt(longer, i, law) {
      if i < |trail| { assert MoveAt(trail, i, law); }
    }
  }
}
