/** The two stores as instances of the custody protocol, and where one of them falls short. */
module CustodyPolicies {
  import opened Prelude
  import opened CanonicalJson
  import opened Storage
  import opened Custody

  // ----- Which policies are sound -------------------------------------------------------------------------

  ghost predicate EncodesObject(raw: Bytes) {
    exists j: Json :: j.Object? && Encode(j, true) == raw
  }

  /** Release requests: both validators only pass canonical ASCII objects, floats inside them included. */
  ghost predicate ReleasePolicy(policy: Policy) {
    && (forall name, raw :: policy.readable(name, raw) ==> EncodesObject(raw))
    && (forall raw :: policy.savable(raw) ==> EncodesObject(raw))
  }

  /** Whatever further checks the release store makes, no read accepts part of a saved request. */
  lemma ReleaseSound(policy: Policy)
    requires ReleasePolicy(policy)
    ensures Sound(policy)
  {
    forall name, a, w | policy.readable(name, a) && policy.savable(w) && a <= w ensures a == w {
      var j: Json :| j.Object? && Encode(j, true) == w;
      var k: Json :| k.Object? && Encode(k, true) == a;
      if |a| < |w| {
        assert ReadsAs(j, |a|, k, true);
        ShorterReading(j, |a|, k, true);
      }
    }
  }

  ghost predicate EncodesJson(raw: Bytes, printed: Lexeme -> bool) {
    exists j: Json :: Canonical(j, printed) && Encode(j, false) == raw
  }

  /** Team-move requests: a read accepts exactly the canonical JSON texts, and only such are saved. */
  ghost predicate MovePolicy(policy: Policy, printed: Lexeme -> bool) {
    && (forall name, raw :: policy.readable(name, raw) <==> EncodesJson(raw, printed))
    && (forall raw :: policy.savable(raw) ==> EncodesJson(raw, printed))
  }

  /** Some request that the store saves is a number with a shorter reading. */
  ghost predicate SavesBreakable(policy: Policy, printed: Lexeme -> bool) {
    exists j :: Canonical(j, printed) && policy.savable(Encode(j, false)) && Breakable(j)
  }

  lemma UnbreakableSound(policy: Policy, printed: Lexeme -> bool)
    requires Printing(printed) && MovePolicy(policy, printed) && !SavesBreakable(policy, printed)
    ensures Sound(policy)
  {
    forall name, a, w | policy.readable(name, a) && policy.savable(w) && a <= w ensures a == w {
      assert EncodesJson(w, printed) && EncodesJson(a, printed);
      var j: Json :| Canonical(j, printed) && Encode(j, false) == w;
      var k: Json :| Canonical(k, printed) && Encode(k, false) == a;
      if |a| < |w| {
        assert ReadsAs(j, |a|, k, false);
        CutsShortExactly(j, false, printed);
      }
    }
  }

  /** A saved number with a shorter reading, and what a read accepts of it. */
  lemma BreakablePrefix(policy: Policy, printed: Lexeme -> bool) returns (raw: Bytes, n: nat)
    requires Printing(printed) && MovePolicy(policy, printed) && SavesBreakable(policy, printed)
    ensures policy.savable(raw) && 0 < n < |raw| && forall name :: policy.readable(name, raw[..n])
  {
    var j :| Canonical(j, printed) && policy.savable(Encode(j, false)) && Breakable(j);
    CutsShortExactly(j, false, printed);
    var size, k :| Canonical(k, printed) && ReadsAs(j, size, k, false);
    FirstByte(k, false);
    raw, n := Encode(j, false), size;
    assert EncodesJson(raw[..n], printed);
  }

  /** The move store never reads part of a request exactly if it never saves a number with a shorter reading. */
  lemma MoveSoundExactly(policy: Policy, printed: Lexeme -> bool)
    requires Printing(printed) && MovePolicy(policy, printed)
    ensures Sound(policy) <==> !SavesBreakable(policy, printed)
  {
    if SavesBreakable(policy, printed) {
      var raw, n := BreakablePrefix(policy, printed);
      assert policy.readable("", raw[..n]) && raw[..n] <= raw;
    } else {
      UnbreakableSound(policy, printed);
    }
  }

  // ----- A truncated read -----------------------------------------------------------------------------------

  /** Directories in a row, and a file at the end. */
  function Row(names: seq<string>, file: Node): map<nat, Node> {
    map i: nat | 0 <= i <= |names| :: if i < |names| then Dir(map[names[i] := i + 1]) else file
  }

  /** A save has written everything, and only the directories are on stable storage. */
  function Saved(names: seq<string>, raw: Bytes): Disk {
    Disk(Row(names, File(raw, raw)), map i: nat | 0 <= i < |names| :: Dir(map[names[i] := i + 1]), |names| + 1)
  }

  /** After a crash the first n bytes are left. */
  function Cut(names: seq<string>, raw: Bytes, n: nat): Disk
    requires n <= |raw|
  {
    Disk(Row(names, File(raw[..n], raw)), Row(names, File(raw[..n], raw)), |names| + 1)
  }

  lemma CrashCuts(names: seq<string>, raw: Bytes, n: nat, policy: Policy)
    requires names != [] && n <= |raw| && policy.savable(raw)
    ensures Valid(Saved(names, raw), policy) && Crash(Saved(names, raw), Cut(names, raw, n)) && Valid(Cut(names, raw, n), policy)
  {
    var d, e := Saved(names, raw), Cut(names, raw, n);
    assert forall i :: i in d.live ==> NodeOk(d.live[i], d.next, policy);
    assert forall i :: i in d.kept ==> NodeLe(d.kept[i], d.live[i]) && NodeLe(d.kept[i], e.live[i]);
    assert forall i :: i in e.live ==> NodeLe(e.live[i], d.live[i]);
    CrashValid(d, e, policy);
  }

  lemma {:induction false} WalkRow(names: seq<string>, file: Node, d: Disk, k: nat)
    requires d.live == Row(names, file) && k < |names|
    ensures Walk(d, HOME, names[..k]) == Some(k)
  {
    if k > 0 {
      WalkRow(names, file, d, k - 1);
      assert names[..k][..k - 1] == names[..k - 1] && names[..k][k - 1] == names[k - 1];
    }
  }

  lemma CutContent(dirs: seq<string>, name: string, raw: Bytes, n: nat)
    requires n <= |raw|
    ensures var d := Cut(dirs + [name], raw, n);
            Walk(d, HOME, dirs) == Some(|dirs|) && Content(d, |dirs|, name) == Some(raw[..n])
  {
    var names := dirs + [name];
    WalkRow(names, File(raw[..n], raw), Cut(names, raw, n), |dirs|);
    assert names[..|dirs|] == dirs && names[|dirs|] == name;
  }

  /** After such a crash a read in calm conditions returns the part that is left, if it accepts that part. */
  method ReadAfterCrash(policy: Policy, dirs: seq<string>, name: string, raw: Bytes, n: nat, limit: nat) returns (out: Outcome)
    requires policy.savable(raw) && 0 < n <= |raw| && n <= limit && policy.readable(name, raw[..n])
    ensures out == Returned(raw[..n])
  {
    var disk := Cut(dirs + [name], raw, n);
    CrashCuts(dirs + [name], raw, n, policy);
    CutContent(dirs, name, raw, n);
    out := ReadFrom(policy, dirs, name, disk, raw[..n], limit);
  }

  /** A read in calm conditions returns an acceptable file that its path leads to. */
  method ReadFrom(policy: Policy, dirs: seq<string>, name: string, disk: Disk, raw: Bytes, limit: nat) returns (out: Outcome)
    requires Valid(disk, policy) && Walk(disk, HOME, dirs).Some?
    requires Content(disk, Walk(disk, HOME, dirs).value, name) == Some(raw)
    requires 0 < |raw| <= limit && policy.readable(name, raw)
    ensures out == Returned(raw)
  {
    var store := new Store(dirs, policy, limit, true, disk);
    out := store.Perform(Read(name));
  }

  /** A store that saves a number with a shorter reading can return bytes nobody saved. */
  lemma MovePartialRead(policy: Policy, printed: Lexeme -> bool, names: seq<string>)
    requires Printing(printed) && MovePolicy(policy, printed) && names != []
    ensures SavesBreakable(policy, printed) <==>
              exists raw, n :: && policy.savable(raw) && 0 < n < |raw| && policy.readable(names[|names| - 1], raw[..n])
                               && Crash(Saved(names, raw), Cut(names, raw, n)) && Valid(Saved(names, raw), policy)
  {
    if SavesBreakable(policy, printed) {
      var raw, n := BreakablePrefix(policy, printed);
      CrashCuts(names, raw, n, policy);
    } else {
      UnbreakableSound(policy, printed);
    }
  }

  /** The smallest instances: a save of 12 may be read as 1, and a save of 0.5 as 0. */
  lemma PartialNumbers(policy: Policy, printed: Lexeme -> bool)
    requires Printing(printed) && MovePolicy(policy, printed)
    ensures ReadsAs(Int(12), 1, Int(1), false) && ReadsAs(Float(Lexeme(false, 0, [5], None)), 1, Int(0), false)
    ensures policy.readable("key", Encode(Int(12), false)[..1])
    ensures policy.readable("key", Encode(Float(Lexeme(false, 0, [5], None)), false)[..1])
  {
    assert Encode(Int(12), false) == [49, 50];
    assert Encode(Float(Lexeme(false, 0, [5], None)), false)[..1] == [48];
    assert Canonical(Int(1), printed) && Encode(Int(1), false) == [49];
    assert Canonical(Int(0), printed) && Encode(Int(0), false) == [48];
    assert EncodesJson([49], printed) && EncodesJson([48], printed);
    assert Encode(Int(12), false)[..1] == [49];
  }
}
