/**
 * The completion ledger: which ledger and evidence files are accepted, and what
 * an accepted ledger joined to the complete results amounts to.
 *
 * Predicates that conjoin many checks are closed with `== true`, which keeps the
 * verifier from proving each conjunct as a goal of its own.
 */
module CompletedLedger {
  import opened Prelude

  /** The field names the ledger knows; any other name is a StrayKey. */
  datatype Key = SchemaKey | IdentityKey | CasesKey
               | VariantKey | SequenceKey | IndexKey | AtKey | StatusKey | EvidenceKey
               | PathKey | ShaKey | BytesKey | CountsKey
               | SourceShaKey | SourceTreeKey | RunIdKey | RunAttemptKey | PythonKey | ExerciseKey
               | HttpKey | CommandsKey | StartsKey | DurableKey | FieldsKey
               | StrayKey(name: string)

  /** A JSON value with Python's types; a literal such as 1e999 decodes to an infinity. */
  datatype Value = Nil | Flag(b: bool) | Whole(n: int) | Float(r: real) | Infinite(positive: bool) | Text(s: string)
                 | Items(items: seq<Value>) | Fields(fields: map<Key, Value>)

  /** Names in the coordination directory: case-NN.json, completed-cases.json, .completed-<token> and the rest. */
  datatype File = Case(number: nat) | Ledger | Temporary(token: string) | Stray(name: string)

  type Files = map<File, Bytes>

  const LIMIT: nat := 262144
  const CASES: nat := 56
  const TOP: real := 9007199254740991.0

  const IDENTITY: set<Key> := {SourceShaKey, SourceTreeKey, RunIdKey, RunAttemptKey, PythonKey, ExerciseKey}
  const COUNTS: set<Key> := {HttpKey, CommandsKey, StartsKey, DurableKey, FieldsKey}
  const LEDGER: set<Key> := {SchemaKey, IdentityKey, CasesKey}
  const ROW: set<Key> := {VariantKey, SequenceKey, IndexKey, AtKey, StatusKey, EvidenceKey}
  const REFERENCE: set<Key> := {PathKey, ShaKey, BytesKey}
  const OBSERVATION: set<Key> := {SchemaKey, IdentityKey, VariantKey, SequenceKey, IndexKey, AtKey, CountsKey}

  /** The manifest, and the JSON and hash functions the ledger code calls; encoding may refuse. */
  datatype Env = Env(manifest: seq<string>, encode: Value -> Option<Bytes>, decode: Bytes -> Option<Value>,
                     digest: Bytes -> string)

  predicate Distinct(s: seq<string>) {
    forall i, j :: 0 <= i < j < |s| ==> s[i] != s[j]
  }

  function IndexIn(s: seq<string>, x: string): (i: nat)
    ensures i <= |s| && (i < |s| <==> x in s) && (i < |s| ==> s[i] == x)
  {
    if s == [] || s[0] == x then 0 else 1 + IndexIn(s[1..], x)
  }

  // ----- Small checks -------------------------------------------------------------------------

  predicate Closed(v: Value, keys: set<Key>) {
    v.Fields? && v.fields.Keys == keys
  }

  predicate HexDigits(s: string, size: nat) {
    |s| == size && forall i :: 0 <= i < |s| ==> '0' <= s[i] <= '9' || 'a' <= s[i] <= 'f'
  }

  predicate RunNumber(s: string) {
    1 <= |s| <= 20 && '1' <= s[0] <= '9' && forall i :: 1 <= i < |s| ==> '0' <= s[i] <= '9'
  }

  predicate SourceFits(v: Value) {
    v.Text? && HexDigits(v.s, 40)
  }

  predicate RunFits(v: Value) {
    v.Text? && RunNumber(v.s)
  }

  predicate LaneFits(v: Value, first: string, second: string) {
    v.Text? && (v.s == first || v.s == second)
  }

  predicate BindingFits(fields: map<Key, Value>) {
    (&& IDENTITY <= fields.Keys
     && SourceFits(fields[SourceShaKey]) && SourceFits(fields[SourceTreeKey])
     && RunFits(fields[RunIdKey]) && RunFits(fields[RunAttemptKey])
     && LaneFits(fields[PythonKey], "3.12", "3.14") && LaneFits(fields[ExerciseKey], "baseline", "cancellation")) == true
  }

  /** binding(): the identity fields of a row, where they are well formed. */
  function Binding(v: Value): Option<map<Key, Value>> {
    if v.Fields? && BindingFits(v.fields) then Some(map k | k in IDENTITY :: v.fields[k]) else None
  }

  /** A finite number: an integer or a float, but not a Boolean. */
  function Moment(v: Value): Option<real> {
    match v
    case Whole(n) => Some(n as real)
    case Float(r) => Some(r)
    case _ => None
  }

  function Digit(n: nat): char
    requires n < 10
  {
    ('0' as int + n) as char
  }

  /** case-NN.json, for the at most 57 numbers a ledger or its next row can have. */
  function CaseName(n: nat): string {
    "case-" + [Digit(n / 10 % 10), Digit(n % 10)] + ".json"
  }

  // ----- One row and its evidence --------------------------------------------------------------------

  function VariantOf(row: Value): string {
    if row.Fields? && VariantKey in row.fields && row.fields[VariantKey].Text? then row.fields[VariantKey].s else ""
  }

  function TimeOf(row: Value): real {
    if row.Fields? && AtKey in row.fields && Moment(row.fields[AtKey]).Some? then Moment(row.fields[AtKey]).value else 0.0
  }

  /** The row itself: its variant, position and time, apart from order against other rows. */
  predicate RowFits(row: Value, sequence: nat, env: Env) {
    (&& Closed(row, ROW)
     && row.fields[VariantKey].Text? && row.fields[VariantKey].s in env.manifest
     && row.fields[SequenceKey] == Whole(sequence)
     && row.fields[IndexKey] == Whole(IndexIn(env.manifest, row.fields[VariantKey].s))
     && row.fields[StatusKey] == Text("PASS")
     && Moment(row.fields[AtKey]).Some? && 0.0 <= Moment(row.fields[AtKey]).value <= TOP) == true
  }

  predicate ReferenceFits(ref: Value, sequence: nat) {
    (&& Closed(ref, REFERENCE) && ref.fields[PathKey] == Text(CaseName(sequence))
     && ref.fields[BytesKey].Whole? && 0 < ref.fields[BytesKey].n <= 4096
     && ref.fields[ShaKey].Text? && HexDigits(ref.fields[ShaKey].s, 64)) == true
  }

  predicate CountsFit(v: Value) {
    Closed(v, COUNTS) && forall k :: k in v.fields ==> v.fields[k].Whole? && 0 <= v.fields[k].n <= 1000000
  }

  /** The evidence file repeats the row under the ledger's identity. */
  predicate ObservationFits(observation: Value, row: Value, identity: Value) {
    (&& Closed(observation, OBSERVATION) && Closed(row, ROW) && observation.fields[SchemaKey] == Whole(1)
     && observation.fields[IdentityKey] == identity
     && observation.fields[VariantKey] == row.fields[VariantKey]
     && observation.fields[SequenceKey] == row.fields[SequenceKey]
     && observation.fields[IndexKey] == row.fields[IndexKey]
     && observation.fields[AtKey] == row.fields[AtKey]
     && CountsFit(observation.fields[CountsKey])) == true
  }

  predicate EvidenceFits(row: Value, sequence: nat, identity: Value, data: Bytes, env: Env) {
    (&& Closed(row, ROW) && ReferenceFits(row.fields[EvidenceKey], sequence)
     && |data| == row.fields[EvidenceKey].fields[BytesKey].n
     && env.digest(data) == row.fields[EvidenceKey].fields[ShaKey].s
     && |data| <= LIMIT && env.decode(data).Some?
     && ObservationFits(env.decode(data).value, row, identity)) == true
  }

  predicate RowAccepted(row: Value, sequence: nat, identity: Value, files: Files, env: Env) {
    (&& RowFits(row, sequence, env) && Case(sequence) in files
     && EvidenceFits(row, sequence, identity, files[Case(sequence)], env)) == true
  }

  // ----- A whole ledger ---------------------------------------------------------------------------------

  predicate HeaderFits(value: Value, expected: Value) {
    (&& Closed(value, LEDGER) && Closed(value.fields[IdentityKey], IDENTITY)
     && value.fields[SchemaKey] == Whole(1)
     && Binding(value.fields[IdentityKey]).Some? && Binding(value.fields[IdentityKey]) == Binding(expected)
     && value.fields[CasesKey].Items? && |value.fields[CasesKey].items| <= CASES) == true
  }

  function Cases(value: Value): seq<Value> {
    if value.Fields? && CasesKey in value.fields && value.fields[CasesKey].Items? then value.fields[CasesKey].items else []
  }

  function IdentityOf(value: Value): Value {
    if value.Fields? && IdentityKey in value.fields then value.fields[IdentityKey] else Nil
  }

  predicate EachAccepted(cases: seq<Value>, identity: Value, files: Files, env: Env) {
    forall i :: 0 <= i < |cases| ==> RowAccepted(cases[i], i + 1, identity, files, env)
  }

  /** The second row has another variant. */
  predicate Differs(a: Value, b: Value) {
    VariantOf(a) != VariantOf(b)
  }

  /** The second row is not earlier. */
  predicate Ascends(a: Value, b: Value) {
    TimeOf(a) <= TimeOf(b)
  }

  predicate VariantsDiffer(cases: seq<Value>) {
    forall i, j {:trigger Differs(cases[i], cases[j])} :: 0 <= i < j < |cases| ==> Differs(cases[i], cases[j])
  }

  predicate TimesAscend(cases: seq<Value>) {
    forall i, j {:trigger Ascends(cases[i], cases[j])} :: 0 <= i < j < |cases| ==> Ascends(cases[i], cases[j])
  }

  predicate RowsAccepted(cases: seq<Value>, identity: Value, files: Files, env: Env) {
    (EachAccepted(cases, identity, files, env) && VariantsDiffer(cases) && TimesAscend(cases)) == true
  }

  predicate ExactFiles(n: nat, files: Files) {
    files.Keys == set i | 1 <= i <= n :: Case(i)
  }

  /** validate() accepts this ledger with exactly these files. */
  predicate Accepts(value: Value, expected: Value, files: Files, env: Env) {
    (&& HeaderFits(value, expected) && RowsAccepted(Cases(value), IdentityOf(value), files, env)
     && ExactFiles(|Cases(value)|, files)) == true
  }

  /** What the loop of validate() has established after n rows. */
  predicate Prefix(cases: seq<Value>, n: nat, seen: set<string>, previous: real) {
    (&& n <= |cases| && VariantsDiffer(cases[..n]) && TimesAscend(cases[..n])
     && (forall i :: 0 <= i < n ==> VariantOf(cases[i]) in seen && TimeOf(cases[i]) <= previous)
     && (forall v :: v in seen ==> exists i :: 0 <= i < n && VariantOf(cases[i]) == v)
     && (n > 0 ==> previous == TimeOf(cases[n - 1]))) == true
  }

  lemma PrefixNext(cases: seq<Value>, n: nat, seen: set<string>, previous: real)
    requires n < |cases| && Prefix(cases, n, seen, previous)
    requires VariantOf(cases[n]) !in seen && (n == 0 || previous <= TimeOf(cases[n]))
    ensures Prefix(cases, n + 1, seen + {VariantOf(cases[n])}, TimeOf(cases[n]))
  {
    var next := seen + {VariantOf(cases[n])};
    var longer, shorter := cases[..n + 1], cases[..n];
    assert longer == shorter + [cases[n]];
    forall v | v in next ensures exists i :: 0 <= i < n + 1 && VariantOf(cases[i]) == v {
      if v in seen {
        var i :| 0 <= i < n && VariantOf(cases[i]) == v;
      } else {
        assert VariantOf(cases[n]) == v;
      }
    }
    forall i, j | 0 <= i < j < |longer| ensures Differs(longer[i], longer[j]) && Ascends(longer[i], longer[j]) {
      if j < n { assert Differs(shorter[i], shorter[j]) && Ascends(shorter[i], shorter[j]); }
    }
  }

  /** A row that validate() refuses on order makes the whole ledger unacceptable. */
  lemma PrefixRefuses(cases: seq<Value>, n: nat, seen: set<string>, previous: real)
    requires n < |cases| && Prefix(cases, n, seen, previous)
    requires VariantOf(cases[n]) in seen || (n > 0 && TimeOf(cases[n]) < previous)
    ensures !(VariantsDiffer(cases) && TimesAscend(cases))
  {
    if VariantOf(cases[n]) in seen {
      var i :| 0 <= i < n && VariantOf(cases[i]) == VariantOf(cases[n]);
      assert !Differs(cases[i], cases[n]);
    } else {
      assert !Ascends(cases[n - 1], cases[n]);
    }
  }

  /** The first n rows fit their evidence. */
  predicate EachBefore(cases: seq<Value>, n: nat, identity: Value, files: Files, env: Env) {
    (n <= |cases| && EachAccepted(cases[..n], identity, files, env)) == true
  }

  lemma EachNext(cases: seq<Value>, n: nat, identity: Value, files: Files, env: Env)
    requires n < |cases| && EachBefore(cases, n, identity, files, env)
    requires RowAccepted(cases[n], n + 1, identity, files, env)
    ensures EachBefore(cases, n + 1, identity, files, env) && TimeOf(cases[n]) >= 0.0
  {
    assert RowFits(cases[n], n + 1, env);
    var longer := cases[..n + 1];
    forall i | 0 <= i < |longer| ensures RowAccepted(longer[i], i + 1, identity, files, env) {
      if i < n { assert longer[i] == cases[..n][i]; }
    }
  }

  lemma RefusedRow(cases: seq<Value>, n: nat, identity: Value, files: Files, env: Env)
    requires n < |cases| && !RowAccepted(cases[n], n + 1, identity, files, env)
    ensures !RowsAccepted(cases, identity, files, env)
  {
  }

  lemma RefusedOrder(cases: seq<Value>, n: nat, seen: set<string>, previous: real, identity: Value, files: Files, env: Env)
    requires n < |cases| && Prefix(cases, n, seen, previous)
    requires VariantOf(cases[n]) in seen || (n > 0 && TimeOf(cases[n]) < previous)
    ensures !RowsAccepted(cases, identity, files, env)
  {
    PrefixRefuses(cases, n, seen, previous);
  }

  lemma AcceptedPrefix(cases: seq<Value>, seen: set<string>, previous: real, identity: Value, files: Files, env: Env)
    requires Prefix(cases, |cases|, seen, previous) && EachBefore(cases, |cases|, identity, files, env)
    ensures RowsAccepted(cases, identity, files, env)
  {
    assert cases[..|cases|] == cases;
  }

  /** The loop of validate(), with the variants seen so far and the previous time. */
  method ValidateRows(cases: seq<Value>, identity: Value, files: Files, env: Env) returns (ok: bool)
    ensures ok <==> RowsAccepted(cases, identity, files, env)
  {
    var seen: set<string>, previous, n := {}, -1.0, 0;
    while n < |cases|
      invariant n <= |cases| && Prefix(cases, n, seen, previous)
      invariant EachBefore(cases, n, identity, files, env)
      invariant n == 0 ==> previous == -1.0
    {
      var row := cases[n];
      if !RowAccepted(row, n + 1, identity, files, env) {
        RefusedRow(cases, n, identity, files, env);
        return false;
      }
      EachNext(cases, n, identity, files, env);
      if VariantOf(row) in seen || TimeOf(row) < previous {
        RefusedOrder(cases, n, seen, previous, identity, files, env);
        return false;
      }
      PrefixNext(cases, n, seen, previous);
      seen, previous, n := seen + {VariantOf(row)}, TimeOf(row), n + 1;
    }
    AcceptedPrefix(cases, seen, previous, identity, files, env);
    ok := true;
  }

  /** validate(). */
  method Validate(value: Value, expected: Value, files: Files, env: Env) returns (ok: bool)
    ensures ok <==> Accepts(value, expected, files, env)
  {
    if !HeaderFits(value, expected) { return false; }
    ok := ValidateRows(Cases(value), IdentityOf(value), files, env);
    ok := ok && ExactFiles(|Cases(value)|, files);
  }

  // ----- Joining to complete results --------------------------------------------------------------------------

  /** One entry of the result's ordered variants. */
  datatype Original = Original(status: Value, at: Value)

  /** The run's result: identity fields, the ledger it carries, and its variants in order. */
  datatype RunResult = RunResult(identity: Value, completed: Value, order: seq<string>, entries: map<string, Original>)

  /** Python's equality, which identifies numerically equal integers, floats and Booleans. */
  predicate Same(a: Value, b: Value)
    decreases a
  {
    match a
    case Items(xs) => b.Items? && |xs| == |b.items| && forall i :: 0 <= i < |xs| ==> Same(xs[i], b.items[i])
    case Fields(m) => b.Fields? && m.Keys == b.fields.Keys && forall k :: k in m && k in b.fields ==> Same(m[k], b.fields[k])
    case _ => if Number(a).Some? then Number(a) == Number(b) else a == b
  }

  function Number(v: Value): Option<real> {
    if v.Flag? then Some(if v.b then 1.0 else 0.0) else Moment(v)
  }

  predicate OriginalAgrees(row: Value, entry: Original) {
    entry.status == Text("PASS") && row.Fields? && AtKey in row.fields && entry.at == row.fields[AtKey]
  }

  predicate Joined(value: Value, result: RunResult, env: Env) {
    (&& Binding(IdentityOf(value)).Some? && Binding(IdentityOf(value)) == Binding(result.identity)
     && Same(result.completed, value) && |Cases(value)| == CASES
     && result.entries.Keys == (set v | v in env.manifest)
     && Variants(Cases(value)) == result.order
     && (forall i :: 0 <= i < |Cases(value)| ==>
           && VariantOf(Cases(value)[i]) in result.entries
           && OriginalAgrees(Cases(value)[i], result.entries[VariantOf(Cases(value)[i])]))) == true
  }

  function Variants(cases: seq<Value>): seq<string> {
    seq(|cases|, i requires 0 <= i < |cases| => VariantOf(cases[i]))
  }

  /** join_results(): refuse on the first row that disagrees with its original result. */
  method Join(value: Value, result: RunResult, env: Env) returns (ok: bool)
    requires forall v :: v in result.order ==> v in result.entries
    ensures ok <==> Joined(value, result, env)
  {
    var cases := Cases(value);
    if Binding(IdentityOf(value)).None? || Binding(IdentityOf(value)) != Binding(result.identity)
       || !Same(result.completed, value) || |cases| != CASES
       || result.entries.Keys != (set v | v in env.manifest) || Variants(cases) != result.order {
      return false;
    }
    var n := 0;
    while n < |cases|
      invariant n <= |cases|
      invariant forall i :: 0 <= i < n ==>
                  && VariantOf(cases[i]) in result.entries
                  && OriginalAgrees(cases[i], result.entries[VariantOf(cases[i])])
    {
      assert VariantOf(cases[n]) == result.order[n];
      assert VariantOf(cases[n]) in result.order;
      if !OriginalAgrees(cases[n], result.entries[VariantOf(cases[n])]) { return false; }
      n := n + 1;
    }
    ok := true;
  }

  // ----- The complete ledger is a permutation of the manifest --------------------------------------------------

  lemma {:induction false} DistinctSize(s: seq<string>)
    requires Distinct(s)
    ensures |set x | x in s| == |s|
  {
    if s != [] {
      var rest := s[1..];
      DistinctSize(rest);
      assert (set x | x in s) == {s[0]} + set x | x in rest;
      assert s[0] !in rest;
    }
  }

  lemma {:induction false} DistinctMultiset(s: seq<string>, x: string)
    requires Distinct(s)
    ensures multiset(s)[x] == if x in s then 1 else 0
  {
    if s != [] {
      var rest := s[1..];
      DistinctMultiset(rest, x);
      assert s == [s[0]] + rest;
      assert s[0] !in rest;
    }
  }

  lemma {:induction false} SubsetSize(a: set<string>, b: set<string>)
    requires a <= b
    ensures |a| <= |b| && (|a| == |b| ==> a == b)
    decreases |a|
  {
    if a == {} {
    } else {
      var x :| x in a;
      SubsetSize(a - {x}, b - {x});
      assert a == a - {x} + {x} && b == b - {x} + {x};
    }
  }

  /** Distinct names drawn from an equally long list of distinct names are a permutation of it. */
  lemma Pigeonhole(names: seq<string>, manifest: seq<string>)
    requires Distinct(names) && Distinct(manifest) && |names| == |manifest|
    requires forall i :: 0 <= i < |names| ==> names[i] in manifest
    ensures multiset(names) == multiset(manifest)
  {
    var a, b := set x | x in names, set x | x in manifest;
    DistinctSize(names);
    DistinctSize(manifest);
    SubsetSize(a, b);
    forall x ensures multiset(names)[x] == multiset(manifest)[x] {
      DistinctMultiset(names, x);
      DistinctMultiset(manifest, x);
      assert x in names <==> x in a;
      assert x in manifest <==> x in b;
    }
  }

  lemma VariantsDistinct(cases: seq<Value>)
    requires VariantsDiffer(cases)
    ensures Distinct(Variants(cases))
  {
    var names := Variants(cases);
    forall i, j | 0 <= i < j < |names| ensures names[i] != names[j] { assert Differs(cases[i], cases[j]); }
  }

  lemma AcceptedRow(cases: seq<Value>, i: nat, identity: Value, files: Files, env: Env)
    requires EachAccepted(cases, identity, files, env) && i < |cases|
    ensures VariantOf(cases[i]) in env.manifest
    ensures Case(i + 1) in files && EvidenceFits(cases[i], i + 1, identity, files[Case(i + 1)], env)
  {
    assert RowAccepted(cases[i], i + 1, identity, files, env);
    assert RowFits(cases[i], i + 1, env);
  }

  /** A full accepted ledger is a permutation of the manifest, in time order, each row with its own evidence. */
  lemma CompleteLedger(value: Value, expected: Value, files: Files, env: Env)
    requires Accepts(value, expected, files, env) && Distinct(env.manifest) && |env.manifest| == CASES
    requires |Cases(value)| == CASES
    ensures multiset(Variants(Cases(value))) == multiset(env.manifest)
    ensures TimesAscend(Cases(value)) && ExactFiles(CASES, files)
    ensures forall i :: 0 <= i < CASES ==>
              Case(i + 1) in files && EvidenceFits(Cases(value)[i], i + 1, IdentityOf(value), files[Case(i + 1)], env)
  {
    var cases, names := Cases(value), Variants(Cases(value));
    VariantsDistinct(cases);
    forall i | 0 <= i < |names| ensures names[i] in env.manifest { AcceptedRow(cases, i, IdentityOf(value), files, env); }
    Pigeonhole(names, env.manifest);
    forall i | 0 <= i < CASES
      ensures Case(i + 1) in files && EvidenceFits(cases[i], i + 1, IdentityOf(value), files[Case(i + 1)], env) {
      AcceptedRow(cases, i, IdentityOf(value), files, env);
    }
  }

  /** After the join, the original results are the same permutation and agree with the ledger row by row. */
  lemma JoinedResults(value: Value, expected: Value, files: Files, result: RunResult, env: Env)
    requires Accepts(value, expected, files, env) && Distinct(env.manifest) && |env.manifest| == CASES
    requires Joined(value, result, env)
    ensures multiset(result.order) == multiset(env.manifest)
    ensures forall i :: 0 <= i < CASES ==>
              && VariantOf(Cases(value)[i]) == result.order[i] && result.order[i] in result.entries
              && result.entries[result.order[i]].status == Text("PASS")
              && Moment(result.entries[result.order[i]].at) == Some(TimeOf(Cases(value)[i]))
  {
    var cases := Cases(value);
    CompleteLedger(value, expected, files, env);
    assert Variants(cases) == result.order;
    forall i | 0 <= i < CASES
      ensures && VariantOf(cases[i]) == result.order[i] && result.order[i] in result.entries
              && result.entries[result.order[i]].status == Text("PASS")
              && Moment(result.entries[result.order[i]].at) == Some(TimeOf(cases[i])) {
      assert Variants(cases)[i] == VariantOf(cases[i]);
      assert RowAccepted(cases[i], i + 1, IdentityOf(value), files, env);
      assert RowFits(cases[i], i + 1, env);
    }
  }
}
