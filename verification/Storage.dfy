/**
 * A file system with two views: what running processes see, and what is known
 * to be on stable storage. Directories only gain entries and a file only grows
 * toward the bytes its creator asked for; nothing is renamed, unlinked or
 * overwritten by the cooperating writers modelled here.
 */
module Storage {
  import opened Prelude

  /** `wanted` records what the creating save was asked to write. */
  datatype Node = Dir(entries: map<string, nat>) | File(data: Bytes, wanted: Bytes)

  datatype Disk = Disk(live: map<nat, Node>, kept: map<nat, Node>, next: nat)

  const HOME: nat := 0

  /** Which bytes a name may be read as, and which a save may write. */
  datatype Policy = Policy(readable: (string, Bytes) -> bool, savable: Bytes -> bool)

  /** No proper prefix of saved bytes is accepted by any read. */
  ghost predicate Sound(policy: Policy) {
    forall name, a, w :: policy.readable(name, a) && policy.savable(w) && a <= w ==> a == w
  }

  // ----- Order on nodes and disks -------------------------------------------------------------

  predicate NodeLe(a: Node, b: Node) {
    match a
    case Dir(entries) => b.Dir? && forall n :: n in entries ==> n in b.entries && b.entries[n] == entries[n]
    case File(data, wanted) => b.File? && b.wanted == wanted && data <= b.data
  }

  predicate TableLe(a: map<nat, Node>, b: map<nat, Node>) {
    forall i :: i in a ==> i in b && NodeLe(a[i], b[i])
  }

  lemma TableLeTransitive(a: map<nat, Node>, b: map<nat, Node>, c: map<nat, Node>)
    requires TableLe(a, b) && TableLe(b, c)
    ensures TableLe(a, c)
  {
    forall i | i in a ensures i in c && NodeLe(a[i], c[i]) {
      assert NodeLe(a[i], b[i]) && NodeLe(b[i], c[i]);
    }
  }

  predicate NodeOk(node: Node, next: nat, policy: Policy) {
    match node
    case Dir(entries) => forall n :: n in entries ==> entries[n] < next
    case File(data, wanted) => data <= wanted && policy.savable(wanted)
  }

  predicate TableOk(table: map<nat, Node>, next: nat, policy: Policy) {
    forall i :: i in table ==> i < next && NodeOk(table[i], next, policy)
  }

  /** (Comparing with `true` makes the verifier treat a conjunction as one goal instead of many.) */
  predicate Valid(d: Disk, policy: Policy) {
    (&& TableOk(d.live, d.next, policy) && TableLe(d.kept, d.live)
     && (forall i :: 0 <= i < d.next ==> i in d.live)
     && HOME in d.live && HOME in d.kept && d.live[HOME].Dir?) == true
  }

  /** What running processes can do to each other's view. */
  predicate Evolves(d: Disk, e: Disk) {
    (TableLe(d.live, e.live) && TableLe(d.kept, e.kept) && d.next <= e.next) == true
  }

  /**
   * A crash: each node falls back to something between what was kept and what
   * was live, and that is what stable storage now holds.
   */
  predicate Crash(d: Disk, e: Disk) {
    e.next == d.next && e.live.Keys == d.live.Keys && TableLe(d.kept, e.live) && TableLe(e.live, d.live) && e.kept == e.live
  }

  lemma EvolvesTransitive(a: Disk, b: Disk, c: Disk)
    requires Evolves(a, b) && Evolves(b, c)
    ensures Evolves(a, c)
  {
    TableLeTransitive(a.live, b.live, c.live);
    TableLeTransitive(a.kept, b.kept, c.kept);
  }

  lemma EvolvesReflexive(d: Disk)
    ensures Evolves(d, d)
  {
  }

  /** A crash leaves a usable disk. */
  lemma CrashValid(d: Disk, e: Disk, policy: Policy)
    requires Valid(d, policy) && Crash(d, e)
    ensures Valid(e, policy)
  {
    forall i | i in e.live ensures i < e.next && NodeOk(e.live[i], e.next, policy) {
      assert NodeLe(e.live[i], d.live[i]) && NodeOk(d.live[i], d.next, policy);
    }
    assert NodeLe(e.live[HOME], d.live[HOME]);
  }

  // ----- Primitive operations --------------------------------------------------------------------

  function Sync(d: Disk, i: nat): Disk {
    if i in d.live then d.(kept := d.kept[i := d.live[i]]) else d
  }

  predicate CanEnter(d: Disk, parent: nat, name: string) {
    parent in d.live && d.live[parent].Dir? && name !in d.live[parent].entries
  }

  function Enter(d: Disk, parent: nat, name: string, node: Node): Disk
    requires CanEnter(d, parent, name)
  {
    d.(live := d.live[parent := Dir(d.live[parent].entries[name := d.next])][d.next := node], next := d.next + 1)
  }

  /** The file holds the first n of its wanted bytes. */
  function Grow(d: Disk, i: nat, n: nat): Disk {
    if i in d.live && d.live[i].File? && |d.live[i].data| <= n <= |d.live[i].wanted|
    then d.(live := d.live[i := d.live[i].(data := d.live[i].wanted[..n])])
    else d
  }

  lemma SyncEvolves(d: Disk, i: nat, policy: Policy)
    requires Valid(d, policy)
    ensures Valid(Sync(d, i), policy) && Evolves(d, Sync(d, i))
  {
  }

  lemma EnterOk(d: Disk, parent: nat, name: string, node: Node, policy: Policy)
    requires TableOk(d.live, d.next, policy) && CanEnter(d, parent, name) && NodeOk(node, d.next, policy)
    ensures var e := Enter(d, parent, name, node); TableOk(e.live, e.next, policy)
  {
    var e := Enter(d, parent, name, node);
    forall i | i in e.live ensures i < e.next && NodeOk(e.live[i], e.next, policy) {
      if i in d.live { assert NodeOk(d.live[i], d.next, policy); }
    }
  }

  lemma EnterGrows(d: Disk, parent: nat, name: string, node: Node)
    requires CanEnter(d, parent, name) && forall i :: i in d.live ==> i < d.next
    ensures TableLe(d.live, Enter(d, parent, name, node).live)
  {
  }

  lemma EnterEvolves(d: Disk, parent: nat, name: string, node: Node, policy: Policy)
    requires Valid(d, policy) && CanEnter(d, parent, name) && NodeOk(node, d.next, policy)
    ensures Valid(Enter(d, parent, name, node), policy) && Evolves(d, Enter(d, parent, name, node))
  {
    EnterOk(d, parent, name, node, policy);
    EnterGrows(d, parent, name, node);
    TableLeTransitive(d.kept, d.live, Enter(d, parent, name, node).live);
  }

  lemma GrowEvolves(d: Disk, i: nat, n: nat, policy: Policy)
    requires Valid(d, policy)
    ensures Valid(Grow(d, i, n), policy) && Evolves(d, Grow(d, i, n))
  {
    if i in d.live && d.live[i].File? && |d.live[i].data| <= n <= |d.live[i].wanted| {
      assert NodeOk(d.live[i], d.next, policy);
      assert d.live[i].data == d.live[i].wanted[..|d.live[i].data|];
      assert NodeLe(d.live[i], Grow(d, i, n).live[i]);
    }
  }

  // ----- Durable custody ------------------------------------------------------------------------------

  /** Following the names from node i in stable storage leads to a complete file. */
  predicate Secured(d: Disk, i: nat, names: seq<string>, raw: Bytes)
    decreases |names|
  {
    && i in d.kept
    && if names == [] then d.kept[i] == File(raw, raw)
       else d.kept[i].Dir? && names[0] in d.kept[i].entries && Secured(d, d.kept[i].entries[names[0]], names[1..], raw)
  }

  /** Custody survives every later operation and every crash. */
  lemma {:induction false} SecuredStable(d: Disk, e: Disk, i: nat, names: seq<string>, raw: Bytes, policy: Policy)
    requires Secured(d, i, names, raw) && Valid(e, policy) && TableLe(d.kept, e.kept)
    ensures Secured(e, i, names, raw)
    decreases |names|
  {
    assert NodeLe(d.kept[i], e.kept[i]);
    if names == [] {
      assert NodeLe(e.kept[i], e.live[i]) && NodeOk(e.live[i], e.next, policy);
    } else {
      SecuredStable(d, e, d.kept[i].entries[names[0]], names[1..], raw, policy);
    }
  }

  /** Following the names from node i in stable storage leads to a file that starts with these bytes. */
  predicate Reaches(d: Disk, i: nat, names: seq<string>, raw: Bytes)
    decreases |names|
  {
    && i in d.kept
    && if names == [] then d.kept[i].File? && raw <= d.kept[i].data
       else d.kept[i].Dir? && names[0] in d.kept[i].entries && Reaches(d, d.kept[i].entries[names[0]], names[1..], raw)
  }

  lemma {:induction false} ReachesStable(d: Disk, e: Disk, i: nat, names: seq<string>, raw: Bytes)
    requires Reaches(d, i, names, raw) && TableLe(d.kept, e.kept)
    ensures Reaches(e, i, names, raw)
    decreases |names|
  {
    assert NodeLe(d.kept[i], e.kept[i]);
    if names != [] { ReachesStable(d, e, d.kept[i].entries[names[0]], names[1..], raw); }
  }

  /** Where no read accepts part of saved bytes, bytes that were read are the whole file. */
  lemma {:induction false} ReachesSecured(d: Disk, i: nat, names: seq<string>, name: string, raw: Bytes, policy: Policy)
    requires Reaches(d, i, names, raw) && Valid(d, policy) && Sound(policy) && policy.readable(name, raw)
    ensures Secured(d, i, names, raw)
    decreases |names|
  {
    if names == [] {
      assert NodeLe(d.kept[i], d.live[i]) && NodeOk(d.live[i], d.next, policy);
      assert raw <= d.live[i].wanted;
    } else {
      ReachesSecured(d, d.kept[i].entries[names[0]], names[1..], name, raw, policy);
    }
  }

  /** The directory that running processes reach by these names. */
  function Walk(d: Disk, i: nat, names: seq<string>): (found: Option<nat>)
    ensures found.Some? ==> found.value in d.live && d.live[found.value].Dir?
    decreases |names|
  {
    if names == [] then (if i in d.live && d.live[i].Dir? then Some(i) else None)
    else
      var parent, name := Walk(d, i, names[..|names| - 1]), names[|names| - 1];
      if parent.Some? && name in d.live[parent.value].entries && d.live[parent.value].entries[name] in d.live
         && d.live[d.live[parent.value].entries[name]].Dir?
      then Some(d.live[parent.value].entries[name]) else None
  }

  lemma {:induction false} WalkPrefix(d: Disk, i: nat, names: seq<string>, k: nat)
    requires Walk(d, i, names).Some? && k <= |names|
    ensures Walk(d, i, names[..k]).Some?
    decreases |names|
  {
    if k == |names| {
      assert names[..k] == names;
    } else {
      assert names[..|names| - 1][..k] == names[..k];
      WalkPrefix(d, i, names[..|names| - 1], k);
    }
  }

  /** The content that running processes see under a name in a directory. */
  function Content(d: Disk, parent: nat, name: string): Option<Bytes> {
    if parent in d.live && d.live[parent].Dir? && name in d.live[parent].entries
       && d.live[parent].entries[name] in d.live && d.live[d.live[parent].entries[name]].File?
    then Some(d.live[d.live[parent].entries[name]].data) else None
  }

  /** One path holds one content. */
  lemma {:induction false} SecuredUnique(d: Disk, i: nat, names: seq<string>, raw: Bytes, raw': Bytes)
    requires Secured(d, i, names, raw) && Secured(d, i, names, raw')
    ensures raw == raw'
    decreases |names|
  {
    if names != [] { SecuredUnique(d, d.kept[i].entries[names[0]], names[1..], raw, raw'); }
  }

  // ----- Whole histories -----------------------------------------------------------------------------------

  /** One step of a history: a finished operation, anything else processes do, or a crash. */
  datatype Step = Succeeded(path: seq<string>, raw: Bytes) | Other | Crashed

  predicate StepAllowed(d: Disk, step: Step, e: Disk, policy: Policy) {
    && Valid(e, policy)
    && match step
       case Succeeded(path, raw) => Evolves(d, e) && Secured(e, HOME, path, raw)
       case Other => Evolves(d, e)
       case Crashed => Crash(d, e)
  }

  lemma OtherStep(d: Disk, e: Disk, policy: Policy)
    requires Evolves(d, e) && Valid(e, policy)
    ensures StepAllowed(d, Other, e, policy)
  {
  }

  /** A finished operation is a success of the history where no read accepts part of saved bytes. */
  lemma SucceededStep(d: Disk, e: Disk, path: seq<string>, name: string, raw: Bytes, policy: Policy)
    requires Evolves(d, e) && Valid(e, policy) && Reaches(e, HOME, path, raw) && policy.readable(name, raw)
    ensures Sound(policy) ==> StepAllowed(d, Succeeded(path, raw), e, policy)
  {
    if Sound(policy) { ReachesSecured(e, HOME, path, name, raw, policy); }
  }

  predicate StepAt(disks: seq<Disk>, steps: seq<Step>, i: nat, policy: Policy)
    requires i < |steps| && |disks| == |steps| + 1
  {
    StepAllowed(disks[i], steps[i], disks[i + 1], policy)
  }

  predicate History(disks: seq<Disk>, steps: seq<Step>, policy: Policy) {
    && |disks| == |steps| + 1 && Valid(disks[0], policy)
    && forall i :: 0 <= i < |steps| ==> StepAt(disks, steps, i, policy)
  }

  lemma {:induction false} KeptGrows(disks: seq<Disk>, steps: seq<Step>, i: nat, j: nat, policy: Policy)
    requires History(disks, steps, policy) && i <= j < |disks|
    ensures TableLe(disks[i].kept, disks[j].kept) && Valid(disks[j], policy)
    decreases j - i
  {
    if i == j {
      if i > 0 { assert StepAt(disks, steps, i - 1, policy); }
    } else {
      KeptGrows(disks, steps, i, j - 1, policy);
      assert StepAt(disks, steps, j - 1, policy);
      TableLeTransitive(disks[i].kept, disks[j - 1].kept, disks[j].kept);
    }
  }

  /**
   * Across any history of saves, reads, failures, other processes and crashes,
   * all successes for one path returned the same bytes, and those are durable.
   */
  lemma OneContentPerPath(disks: seq<Disk>, steps: seq<Step>, i: nat, j: nat, policy: Policy)
    requires History(disks, steps, policy) && i <= j < |steps|
    requires steps[i].Succeeded? && steps[j].Succeeded? && steps[i].path == steps[j].path
    ensures steps[i].raw == steps[j].raw
    ensures forall k :: i < k < |disks| ==> Secured(disks[k], HOME, steps[i].path, steps[i].raw)
  {
    var path, raw := steps[i].path, steps[i].raw;
    assert StepAt(disks, steps, i, policy);
    forall k | i < k < |disks| ensures Secured(disks[k], HOME, path, raw) {
      KeptGrows(disks, steps, i + 1, k, policy);
      SecuredStable(disks[i + 1], disks[k], HOME, path, raw, policy);
    }
    assert StepAt(disks, steps, j, policy);
    SecuredUnique(disks[j + 1], HOME, path, raw, steps[j].raw);
  }
}
