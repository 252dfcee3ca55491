/**
 * Private request custody: exclusive create, full write, file and directory
 * fsync bottom-up, and revalidating reads. Any call may fail, before or after
 * its effect, and other cooperating processes run between any two calls.
 */
module Custody {
  import opened Prelude
  import opened Storage

  datatype Handle = Handle(fd: nat, ino: nat)

  datatype Result = Ok(raw: Bytes) | Err(error: string)

  /** What happened to descriptors, with the error of a failed close, and how the body of directory() ended. */
  datatype Call = Opened(fd: nat) | Closed(fd: nat, error: Option<string>) | Ended(body: Result)

  /** What the caller of save or read sees; `noted` marks a close failure added to an earlier error. */
  datatype Outcome = Returned(raw: Bytes) | Raised(error: string, noted: bool)

  datatype Operation = Save(name: string, raw: Bytes) | Read(name: string)

  /** The descriptors still open, innermost last; None if a close did not match the innermost. */
  function OpenStack(log: seq<Call>): Option<seq<nat>> {
    if log == [] then Some([])
    else
      var before, last := OpenStack(log[..|log| - 1]), log[|log| - 1];
      if before.None? then None
      else match last
           case Opened(fd) => Some(before.value + [fd])
           case Ended(_) => before
           case Closed(fd, _) =>
             if before.value != [] && before.value[|before.value| - 1] == fd
             then Some(before.value[..|before.value| - 1]) else None
  }

  function Fds(hs: seq<Handle>): seq<nat> {
    seq(|hs|, i requires 0 <= i < |hs| => hs[i].fd)
  }

  function Inos(hs: seq<Handle>): seq<nat> {
    seq(|hs|, i requires 0 <= i < |hs| => hs[i].ino)
  }

  lemma FdsAppend(stack: seq<nat>, hs: seq<Handle>, h: Handle)
    ensures stack + Fds(hs) + [h.fd] == stack + Fds(hs + [h])
  {
  }

  lemma StackOpened(log: seq<Call>, fd: nat)
    requires OpenStack(log).Some?
    ensures OpenStack(log + [Opened(fd)]) == Some(OpenStack(log).value + [fd])
  {
    assert (log + [Opened(fd)])[..|log|] == log;
  }

  lemma StackClosed(log: seq<Call>, stack: seq<nat>, fd: nat, error: Option<string>)
    requires OpenStack(log) == Some(stack + [fd])
    ensures OpenStack(log + [Closed(fd, error)]) == Some(stack)
  {
    assert (log + [Closed(fd, error)])[..|log|] == log;
    assert (stack + [fd])[..|stack|] == stack;
  }

  lemma StackEnded(log: seq<Call>, body: Result)
    ensures OpenStack(log + [Ended(body)]) == OpenStack(log)
  {
    assert (log + [Ended(body)])[..|log|] == log;
  }

  /** The log grew without another body ending. */
  predicate Within(before: seq<Call>, after: seq<Call>) {
    before <= after && forall i :: |before| <= i < |after| ==> !after[i].Ended?
  }

  lemma WithinThrough(a: seq<Call>, b: seq<Call>, c: seq<Call>)
    requires Within(a, b) && Within(b, c)
    ensures Within(a, c)
  {
    forall i | |a| <= i < |c| ensures !c[i].Ended? {
      if i < |b| { assert c[i] == b[i]; }
    }
  }

  /** The error of the first close that failed. */
  function FirstFailure(calls: seq<Call>): Option<string> {
    if calls == [] then None
    else if calls[0].Closed? && calls[0].error.Some? then calls[0].error
    else FirstFailure(calls[1..])
  }

  lemma {:induction false} FirstFailureNext(calls: seq<Call>, fd: nat, error: Option<string>)
    ensures FirstFailure(calls + [Closed(fd, error)]) == if FirstFailure(calls).Some? then FirstFailure(calls) else error
  {
    if calls != [] {
      assert (calls + [Closed(fd, error)])[1..] == calls[1..] + [Closed(fd, error)];
      FirstFailureNext(calls[1..], fd, error);
    }
  }

  /** The body ended at n, only closes follow it, and the outcome is what the two amount to. */
  predicate Surfaced(log: seq<Call>, from: nat, n: nat, out: Outcome) {
    && from <= n < |log| && log[n].Ended?
    && (forall i :: from <= i < n ==> !log[i].Ended?) && (forall i :: n < i < |log| ==> log[i].Closed?)
    && out == Combine(log[n].body, FirstFailure(log[n + 1..]))
  }

  /** An earlier error is never replaced by a close error, which only surfaces alone. */
  function Combine(tried: Result, closing: Option<string>): Outcome {
    match tried
    case Err(e) => Raised(e, closing.Some?)
    case Ok(raw) => if closing.Some? then Raised(closing.value, false) else Returned(raw)
  }

  /** Consecutive nodes are linked by the given names in the live view. */
  predicate Linked(d: Disk, inos: seq<nat>, names: seq<string>) {
    (&& |inos| == |names| + 1
     && forall k :: 0 <= k < |names| ==> Link(d, inos[k], names[k], inos[k + 1])) == true
  }

  predicate Link(d: Disk, parent: nat, name: string, child: nat) {
    parent in d.live && d.live[parent].Dir? && name in d.live[parent].entries && d.live[parent].entries[name] == child
  }

  /** The name leads from the parent to another directory. */
  predicate Entrance(d: Disk, parent: nat, name: string) {
    exists child: nat :: Link(d, parent, name, child) && child in d.live && d.live[child].Dir?
  }

  lemma LinkEvolves(d: Disk, e: Disk, parent: nat, name: string, child: nat)
    requires Evolves(d, e) && Link(d, parent, name, child)
    ensures Link(e, parent, name, child)
  {
    assert NodeLe(d.live[parent], e.live[parent]);
  }

  lemma LinkedEvolves(d: Disk, e: Disk, inos: seq<nat>, names: seq<string>)
    requires Evolves(d, e) && Linked(d, inos, names)
    ensures Linked(e, inos, names)
  {
    forall k | 0 <= k < |names| ensures Link(e, inos[k], names[k], inos[k + 1]) {
      LinkEvolves(d, e, inos[k], names[k], inos[k + 1]);
    }
  }

  lemma LinkedExtend(d: Disk, hs: seq<Handle>, dirs: seq<string>, k: nat, child: Handle)
    requires k < |dirs| && |hs| == k + 1 && Linked(d, Inos(hs), dirs[..k]) && Link(d, hs[k].ino, dirs[k], child.ino)
    ensures Linked(d, Inos(hs + [child]), dirs[..k + 1])
  {
    LinkedAppend(d, Inos(hs), dirs[..k], dirs[k], child.ino);
    assert Inos(hs + [child]) == Inos(hs) + [child.ino];
    assert dirs[..k + 1] == dirs[..k] + [dirs[k]];
  }

  lemma LinkedAppend(d: Disk, inos: seq<nat>, names: seq<string>, name: string, child: nat)
    requires Linked(d, inos, names) && Link(d, inos[|names|], name, child)
    ensures Linked(d, inos + [child], names + [name])
  {
    var more, longer := inos + [child], names + [name];
    forall k | 0 <= k < |longer| ensures Link(d, more[k], longer[k], more[k + 1]) {
      if k < |names| { assert Link(d, inos[k], names[k], inos[k + 1]); }
    }
  }

  lemma ChunkAppends(data: Bytes, raw: Bytes, chunk: Bytes)
    requires raw <= data && |raw| + |chunk| <= |data| && data[|raw|..|raw| + |chunk|] == chunk
    ensures raw + chunk <= data
  {
    assert data[..|raw| + |chunk|] == data[..|raw|] + data[|raw|..|raw| + |chunk|];
  }

  /** In calm conditions, where the directories exist, the chain follows them and changes nothing. */
  predicate OnPath(start: Disk, disk: Disk, dirs: seq<string>, k: nat, ino: nat) {
    (Walk(start, HOME, dirs).Some? ==> k <= |dirs| && disk == start && Walk(start, HOME, dirs[..k]) == Some(ino)) == true
  }

  lemma OnPathNext(start: Disk, dirs: seq<string>, k: nat, ino: nat)
    requires k < |dirs| && Walk(start, HOME, dirs).Some? && Walk(start, HOME, dirs[..k]) == Some(ino)
    ensures Entrance(start, ino, dirs[k])
    ensures forall child: nat :: Link(start, ino, dirs[k], child) ==> Walk(start, HOME, dirs[..k + 1]) == Some(child)
  {
    WalkPrefix(start, HOME, dirs, k + 1);
    assert dirs[..k + 1][..k] == dirs[..k] && dirs[..k + 1][k] == dirs[k];
    assert Link(start, ino, dirs[k], Walk(start, HOME, dirs[..k + 1]).value);
  }

  lemma SurfacedHere(before: seq<Call>, ended: seq<Call>, after: seq<Call>, out: Outcome)
    requires |ended| > |before| && ended[|ended| - 1].Ended? && Within(before, ended[..|ended| - 1])
    requires ended <= after && forall i :: |ended| <= i < |after| ==> after[i].Closed?
    requires out == Combine(ended[|ended| - 1].body, FirstFailure(after[|ended|..]))
    ensures exists n :: Surfaced(after, |before|, n, out)
  {
    var n := |ended| - 1;
    forall i | |before| <= i < n ensures !after[i].Ended? { assert after[i] == ended[..n][i]; }
    assert Surfaced(after, |before|, n, out);
  }

  class Store {
    const dirs: seq<string>
    const policy: Policy
    const limit: nat
    /** In calm conditions no call fails and no other process runs. */
    const calm: bool

    var disk: Disk
    var log: seq<Call>
    var nextFd: nat

    constructor (dirs: seq<string>, policy: Policy, limit: nat, calm: bool, disk: Disk)
      ensures this.dirs == dirs && this.policy == policy && this.limit == limit && this.calm == calm
      ensures this.disk == disk && log == [] && nextFd == 3
    {
      this.dirs, this.policy, this.limit, this.calm, this.disk, log, nextFd := dirs, policy, limit, calm, disk, [], 3;
    }

    predicate Ready()
      reads this
    {
      Valid(disk, policy) && OpenStack(log).Some?
    }

    /** Anything that may go wrong at one point. */
    method Trouble() returns (bad: bool)
      ensures calm ==> !bad
    {
      bad := *;
      if calm { bad := false; }
    }

    /** Other cooperating processes make directories, create and grow files, and sync. */
    method Others()
      requires Valid(disk, policy)
      modifies this`disk
      ensures Valid(disk, policy) && Evolves(old(disk), disk)
      ensures calm ==> disk == old(disk)
    {
      EvolvesReflexive(disk);
      if calm { return; }
      var n: nat := *;
      while n > 0
        invariant Valid(disk, policy) && Evolves(old(disk), disk)
      {
        var kind: nat, i: nat, size: nat, name: string, wanted: Bytes := *, *, *, *, *;
        ghost var before := disk;
        if kind == 0 {
          SyncEvolves(disk, i, policy);
          disk := Sync(disk, i);
        } else if kind == 1 {
          GrowEvolves(disk, i, size, policy);
          disk := Grow(disk, i, size);
        } else if CanEnter(disk, i, name) && (kind == 2 || policy.savable(wanted)) {
          var node := if kind == 2 then Dir(map[]) else File([], wanted);
          EnterEvolves(disk, i, name, node, policy);
          disk := Enter(disk, i, name, node);
        } else {
          EvolvesReflexive(disk);
        }
        EvolvesTransitive(old(disk), before, disk);
        n := n - 1;
      }
    }

    // ----- System calls ----------------------------------------------------------------------

    /** mkdirat: an existing entry is not an error for the caller. */
    method Mkdir(parent: nat, name: string) returns (ok: bool)
      requires Valid(disk, policy)
      modifies this`disk
      ensures Valid(disk, policy) && Evolves(old(disk), disk)
      ensures calm && (exists child: nat :: Link(old(disk), parent, name, child)) ==> ok && disk == old(disk)
    {
      Others();
      var early := Trouble();
      var late := Trouble();
      if early || parent !in disk.live || !disk.live[parent].Dir? { return false; }
      if name in disk.live[parent].entries { return true; }
      ghost var before := disk;
      EnterEvolves(disk, parent, name, Dir(map[]), policy);
      disk := Enter(disk, parent, name, Dir(map[]));
      EvolvesTransitive(old(disk), before, disk);
      ok := !late;
    }

    /** The kernel hands out the next descriptor. */
    method Descriptor() returns (fd: nat)
      requires Ready()
      modifies this`log, this`nextFd
      ensures Ready() && OpenStack(log) == Some(OpenStack(old(log)).value + [fd]) && Within(old(log), log)
    {
      fd := nextFd;
      StackOpened(log, fd);
      log, nextFd := log + [Opened(fd)], nextFd + 1;
    }

    /** openat for a directory, without following links. */
    method OpenDir(parent: nat, name: string) returns (ok: bool, h: Handle)
      requires Ready()
      modifies this
      ensures Ready() && Evolves(old(disk), disk)
      ensures ok ==> Link(disk, parent, name, h.ino) && OpenStack(log) == Some(OpenStack(old(log)).value + [h.fd])
      ensures !ok ==> log == old(log)
      ensures Within(old(log), log) && (calm ==> disk == old(disk))
      ensures calm && Entrance(old(disk), parent, name) ==> ok
    {
      h := Handle(0, 0);
      Others();
      var fault := Trouble();
      if fault || parent !in disk.live || !disk.live[parent].Dir? || name !in disk.live[parent].entries {
        return false, h;
      }
      var ino := disk.live[parent].entries[name];
      if ino !in disk.live || !disk.live[ino].Dir? { return false, h; }
      var fd := Descriptor();
      return true, Handle(fd, ino);
    }

    /** close: the descriptor is gone either way, but an error may be reported. */
    method Close(fd: nat, ghost stack: seq<nat>) returns (error: Option<string>)
      requires Ready() && OpenStack(log) == Some(stack + [fd])
      modifies this`log
      ensures Ready() && OpenStack(log) == Some(stack) && log == old(log) + [Closed(fd, error)]
      ensures calm ==> error.None?
    {
      var bad := Trouble();
      var message: string := *;
      error := if bad then Some(message) else None;
      StackClosed(log, stack, fd, error);
      log := log + [Closed(fd, error)];
    }

    /** fsync: a success puts at least what was live at the call on stable storage. */
    method Fsync(i: nat) returns (ok: bool)
      requires Valid(disk, policy) && i in disk.live
      modifies this`disk
      ensures Valid(disk, policy) && Evolves(old(disk), disk)
      ensures ok ==> i in disk.kept && NodeLe(old(disk).live[i], disk.kept[i])
      ensures calm ==> ok && disk.live == old(disk).live
    {
      Others();
      assert NodeLe(old(disk).live[i], disk.live[i]);
      var early := Trouble();
      var late := Trouble();
      if early { return false; }
      ghost var before := disk;
      SyncEvolves(disk, i, policy);
      disk := Sync(disk, i);
      EvolvesTransitive(old(disk), before, disk);
      ok := !late;
    }

    /** read: at least one byte unless at the end, and never more than asked for. */
    method ReadChunk(i: nat, position: nat, request: nat) returns (ok: bool, chunk: Bytes)
      requires Valid(disk, policy) && request > 0
      requires i in disk.live && disk.live[i].File? && position <= |disk.live[i].data|
      modifies this`disk
      ensures Valid(disk, policy) && Evolves(old(disk), disk)
      ensures i in disk.live && disk.live[i].File? && |chunk| <= request
      ensures position + |chunk| <= |disk.live[i].data| && disk.live[i].data[position..position + |chunk|] == chunk
      ensures ok && chunk == [] ==> position == |disk.live[i].data|
      ensures calm ==> ok && disk == old(disk)
    {
      Others();
      assert NodeLe(old(disk).live[i], disk.live[i]);
      var fault := Trouble();
      var wish: int := *;
      if fault { return false, []; }
      var data := disk.live[i].data;
      var most := Min(request, |data| - position);
      var size := if most == 0 then 0 else if wish <= 0 then 1 else Min(wish, most);
      ok, chunk := true, data[position..position + size];
    }

    // ----- Reading back --------------------------------------------------------------------------

    /** The bounded read loop: it asks for at least one byte and takes at most limit + 1 in all. */
    method ReadAll(i: nat) returns (ok: bool, raw: Bytes)
      requires Valid(disk, policy) && i in disk.live && disk.live[i].File?
      modifies this`disk
      ensures Valid(disk, policy) && Evolves(old(disk), disk)
      ensures i in disk.live && disk.live[i].File? && raw <= disk.live[i].data && |raw| <= limit + 1
      ensures ok && |raw| <= limit ==> raw == disk.live[i].data
      ensures calm ==> ok && disk == old(disk)
    {
      EvolvesReflexive(disk);
      raw := [];
      while |raw| <= limit
        invariant Valid(disk, policy) && Evolves(old(disk), disk)
        invariant i in disk.live && disk.live[i].File? && raw <= disk.live[i].data && |raw| <= limit + 1
        invariant calm ==> disk == old(disk)
        decreases limit + 1 - |raw|
      {
        ghost var before := disk;
        var done;
        ok, done, raw := ReadMore(i, raw);
        EvolvesTransitive(old(disk), before, disk);
        if !ok || done { return; }
      }
      ok := true;
    }

    /** One turn of the read loop. */
    method ReadMore(i: nat, was: Bytes) returns (ok: bool, done: bool, raw: Bytes)
      requires Valid(disk, policy) && i in disk.live && disk.live[i].File? && was <= disk.live[i].data && |was| <= limit
      modifies this`disk
      ensures Valid(disk, policy) && Evolves(old(disk), disk)
      ensures i in disk.live && disk.live[i].File? && raw <= disk.live[i].data && |raw| <= limit + 1
      ensures ok && done ==> raw == disk.live[i].data
      ensures ok && !done ==> |raw| > |was|
      ensures calm ==> ok && disk == old(disk)
    {
      var chunk;
      ok, chunk := ReadChunk(i, |was|, Min(4096, limit + 1 - |was|));
      assert NodeLe(old(disk).live[i], disk.live[i]);
      ChunkAppends(disk.live[i].data, was, chunk);
      done, raw := chunk == [], was + chunk;
    }

    /**
     * _read: pin the file, check it, read it, validate it, sync it, check it
     * again and close it. A success means accepted bytes at the start of a durable
     * file; the file close's own error replaces an earlier one.
     */
    method ReadBack(parent: nat, name: string, expected: Option<Bytes>, identity: Option<nat>)
      returns (r: Result, ghost file: nat)
      requires Ready()
      modifies this
      ensures Ready() && Evolves(old(disk), disk) && OpenStack(log) == OpenStack(old(log)) && Within(old(log), log)
      ensures r.Ok? ==> Link(disk, parent, name, file) && Reaches(disk, file, [], r.raw)
      ensures r.Ok? ==> policy.readable(name, r.raw) && |r.raw| <= limit && (expected.Some? ==> r.raw == expected.value)
      ensures calm ==> disk.live == old(disk).live
      ensures calm && expected.None? && identity.None? && Legible(old(disk), parent, name) ==>
                r == Ok(Content(old(disk), parent, name).value)
    {
      file := 0;
      Others();
      var fault := Trouble();
      if fault || parent !in disk.live || !disk.live[parent].Dir? || name !in disk.live[parent].entries {
        return Err("open"), file;
      }
      var i := disk.live[parent].entries[name];
      file := i;
      if i !in disk.live || !disk.live[i].File? { return Err("open"), file; }
      ghost var start := disk;
      r := CheckAndClose(i, name, expected, identity);
      EvolvesTransitive(old(disk), start, disk);
      LinkEvolves(start, disk, parent, name, i);
    }

    /** _read once the file is found: open it, check it, close it. */
    method CheckAndClose(i: nat, name: string, expected: Option<Bytes>, identity: Option<nat>) returns (r: Result)
      requires Ready() && i in disk.live && disk.live[i].File?
      modifies this
      ensures Ready() && Evolves(old(disk), disk) && OpenStack(log) == OpenStack(old(log)) && Within(old(log), log)
      ensures r.Ok? ==> Reaches(disk, i, [], r.raw)
      ensures r.Ok? ==> policy.readable(name, r.raw) && |r.raw| <= limit && (expected.Some? ==> r.raw == expected.value)
      ensures calm ==> disk.live == old(disk).live
      ensures calm && expected.None? && identity.None? && Fits(name, old(disk).live[i].data) ==> r == Ok(old(disk).live[i].data)
    {
      ghost var stack := OpenStack(log).value;
      var fd := Descriptor();
      ghost var entries := log;
      r := CheckFile(i, name, expected, identity);
      assert log == entries;
      var error := Close(fd, stack);
      if error.Some? { r := Err(error.value); }
    }

    /** The file's content is one that a read accepts. */
    predicate Legible(d: Disk, parent: nat, name: string) {
      Content(d, parent, name).Some? && Fits(name, Content(d, parent, name).value)
    }

    predicate Fits(name: string, data: Bytes) {
      0 < |data| <= limit && policy.readable(name, data)
    }

    /** The body of _read between open and close. */
    method CheckFile(i: nat, name: string, expected: Option<Bytes>, identity: Option<nat>) returns (r: Result)
      requires Valid(disk, policy) && i in disk.live && disk.live[i].File?
      modifies this`disk
      ensures Valid(disk, policy) && Evolves(old(disk), disk)
      ensures r.Ok? ==> Reaches(disk, i, [], r.raw)
      ensures r.Ok? ==> policy.readable(name, r.raw) && |r.raw| <= limit && (expected.Some? ==> r.raw == expected.value)
      ensures calm ==> disk.live == old(disk).live
      ensures calm && expected.None? && identity.None? && Fits(name, old(disk).live[i].data) ==> r == Ok(old(disk).live[i].data)
    {
      EvolvesReflexive(disk);
      var size := |disk.live[i].data|;
      var refused := Trouble();
      if refused || !(0 < size <= limit) || (identity.Some? && identity.value != i) { return Err("identity"); }
      var ok, raw := ReadAll(i);
      if !ok { return Err("read"); }
      if |raw| > limit || !policy.readable(name, raw) { return Err("invalid"); }
      if expected.Some? && raw != expected.value { return Err("changed"); }
      ghost var whole := disk;
      ok := Fsync(i);
      EvolvesTransitive(old(disk), whole, disk);
      if !ok { return Err("fsync"); }
      assert NodeLe(whole.live[i], disk.kept[i]);
      assert NodeLe(disk.kept[i], disk.live[i]);
      refused := Trouble();
      if refused || |disk.live[i].data| != size { return Err("changed"); }
      r := Ok(raw);
    }

    // ----- Writing ---------------------------------------------------------------------------------

    /** The body of a fresh save between exclusive create and close: check, one full write, fsync. */
    method WriteFile(i: nat, raw: Bytes) returns (error: Option<string>)
      requires Valid(disk, policy) && i in disk.live && disk.live[i].File? && disk.live[i].wanted == raw
      modifies this`disk
      ensures Valid(disk, policy) && Evolves(old(disk), disk)
    {
      EvolvesReflexive(disk);
      var refused := Trouble();
      if refused { return Some("unavailable"); }
      Others();
      ghost var before := disk;
      var written: nat := *;
      GrowEvolves(disk, i, written, policy);
      disk := Grow(disk, i, written);
      EvolvesTransitive(old(disk), before, disk);
      assert NodeLe(old(disk).live[i], disk.live[i]);
      var fault := Trouble();
      if fault || written != |raw| { return Some("short write"); }
      ghost var grown := disk;
      var ok := Fsync(i);
      EvolvesTransitive(old(disk), grown, disk);
      error := if ok then None else Some("fsync");
    }

    /** The body of save() inside the pinned directory. */
    method SaveIn(parent: nat, name: string, raw: Bytes) returns (r: Result, ghost file: nat)
      requires Ready() && policy.savable(raw)
      modifies this
      ensures Ready() && Evolves(old(disk), disk) && OpenStack(log) == OpenStack(old(log)) && Within(old(log), log)
      ensures r.Ok? ==> Link(disk, parent, name, file) && Reaches(disk, file, [], r.raw)
      ensures r.Ok? ==> r.raw == raw && policy.readable(name, raw)
    {
      file := 0;
      Others();
      var fault := Trouble();
      if fault || parent !in disk.live || !disk.live[parent].Dir? { return Err("create"), file; }
      ghost var before := disk;
      if name in disk.live[parent].entries {
        r, file := ReadBack(parent, name, Some(raw), None);
        EvolvesTransitive(old(disk), before, disk);
        return;
      }
      var i := disk.next;
      EnterEvolves(disk, parent, name, File([], raw), policy);
      disk := Enter(disk, parent, name, File([], raw));
      EvolvesTransitive(old(disk), before, disk);
      var error := WriteAndClose(i, raw, old(disk));
      if error.Some? { return Err(error.value), file; }
      ghost var written := disk;
      r, file := ReadBack(parent, name, Some(raw), Some(i));
      EvolvesTransitive(old(disk), written, disk);
    }

    method WriteAndClose(i: nat, raw: Bytes, ghost start: Disk) returns (error: Option<string>)
      requires Ready() && i in disk.live && disk.live[i].File? && disk.live[i].wanted == raw && Evolves(start, disk)
      modifies this
      ensures Ready() && Evolves(start, disk) && OpenStack(log) == OpenStack(old(log)) && Within(old(log), log)
    {
      ghost var stack := OpenStack(log).value;
      var fd := Descriptor();
      error := WriteFile(i, raw);
      EvolvesTransitive(start, old(disk), disk);
      var failure := Close(fd, stack);
      if failure.Some? { error := failure; }
    }

    // ----- The pinned directory chain ------------------------------------------------------------------

    /** Open home and make and open each directory below it; on failure some are already open. */
    method OpenChain() returns (error: Option<string>, descriptors: seq<Handle>)
      requires Ready()
      modifies this
      ensures Ready() && Evolves(old(disk), disk)
      ensures OpenStack(log) == Some(OpenStack(old(log)).value + Fds(descriptors))
      ensures error.None? ==> descriptors != [] && descriptors[0].ino == HOME && Linked(disk, Inos(descriptors), dirs)
      ensures Within(old(log), log)
      ensures calm && Walk(old(disk), HOME, dirs).Some? ==>
                && error.None? && disk == old(disk)
                && descriptors[|descriptors| - 1].ino == Walk(old(disk), HOME, dirs).value
    {
      ghost var stack := OpenStack(log).value;
      EvolvesReflexive(disk);
      error, descriptors := OpenHome();
      if error.Some? { return; }
      ghost var homed := log;
      error, descriptors := OpenBelow(descriptors, stack);
      WithinThrough(old(log), homed, log);
    }

    method OpenHome() returns (error: Option<string>, descriptors: seq<Handle>)
      requires Ready()
      modifies this`log, this`nextFd
      ensures Ready() && Within(old(log), log) && OpenStack(log) == Some(OpenStack(old(log)).value + Fds(descriptors))
      ensures error.None? ==> |descriptors| == 1 && descriptors[0].ino == HOME
      ensures calm ==> error.None?
    {
      ghost var stack := OpenStack(log).value;
      assert stack + Fds([]) == stack;
      var fault := Trouble();
      var refused := Trouble();
      if fault { return Some("open home"), []; }
      var fd := Descriptor();
      descriptors := [Handle(fd, HOME)];
      assert stack + Fds(descriptors) == stack + [fd];
      error := if refused then Some("home identity") else None;
    }

    /** The loop over the directories below home. */
    method OpenBelow(home: seq<Handle>, ghost stack: seq<nat>) returns (error: Option<string>, descriptors: seq<Handle>)
      requires Ready() && OpenStack(log) == Some(stack + Fds(home)) && |home| == 1 && home[0].ino == HOME
      modifies this
      ensures Ready() && Evolves(old(disk), disk) && Within(old(log), log) && OpenStack(log) == Some(stack + Fds(descriptors))
      ensures error.None? ==> descriptors != [] && descriptors[0].ino == HOME && Linked(disk, Inos(descriptors), dirs)
      ensures calm && Walk(old(disk), HOME, dirs).Some? ==>
                && error.None? && disk == old(disk)
                && descriptors[|descriptors| - 1].ino == Walk(old(disk), HOME, dirs).value
    {
      descriptors := home;
      EvolvesReflexive(disk);
      assert Walk(disk, HOME, dirs[..0]) == Some(HOME);
      while |descriptors| <= |dirs|
        invariant Chained(old(disk), old(log), stack, descriptors)
        decreases |dirs| + 1 - |descriptors|
      {
        error, descriptors := OpenNext(descriptors, stack, old(disk), old(log));
        if error.Some? { return; }
      }
      assert dirs[..|dirs|] == dirs;
      error := None;
    }

    /** The descriptors opened so far lead from home through the first directories. */
    ghost predicate Chained(start: Disk, entries: seq<Call>, stack: seq<nat>, hs: seq<Handle>)
      reads this
    {
      (&& 1 <= |hs| <= |dirs| + 1 && hs[0].ino == HOME
       && Ready() && Evolves(start, disk) && Within(entries, log) && OpenStack(log) == Some(stack + Fds(hs))
       && Linked(disk, Inos(hs), dirs[..|hs| - 1])
       && (calm ==> OnPath(start, disk, dirs, |hs| - 1, hs[|hs| - 1].ino))) == true
    }

    /** One turn of the loop: make the directory if missing, open it, pin it, check it. */
    method OpenNext(was: seq<Handle>, ghost stack: seq<nat>, ghost start: Disk, ghost entries: seq<Call>)
      returns (error: Option<string>, descriptors: seq<Handle>)
      requires Chained(start, entries, stack, was) && |was| <= |dirs|
      modifies this
      ensures Ready() && Evolves(start, disk) && Within(entries, log) && OpenStack(log) == Some(stack + Fds(descriptors))
      ensures error.None? ==> Chained(start, entries, stack, descriptors) && |descriptors| == |was| + 1
      ensures calm && Walk(start, HOME, dirs).Some? ==> error.None?
    {
      if calm && Walk(start, HOME, dirs).Some? { OnPathNext(start, dirs, |was| - 1, was[|was| - 1].ino); }
      var parent, name := was[|was| - 1].ino, dirs[|was| - 1];
      var made := Mkdir(parent, name);
      EvolvesTransitive(start, old(disk), disk);
      if !made { return Some("mkdir"), was; }
      ghost var middle := disk;
      var entered, child := OpenDir(parent, name);
      EvolvesTransitive(start, middle, disk);
      WithinThrough(entries, old(log), log);
      if !entered { return Some("open"), was; }
      EvolvesTransitive(old(disk), middle, disk);
      LinkedEvolves(old(disk), disk, Inos(was), dirs[..|was| - 1]);
      LinkedExtend(disk, was, dirs, |was| - 1, child);
      FdsAppend(stack, was, child);
      descriptors := was + [child];
      var refused := Trouble();
      error := if refused then Some("directory identity") else None;
    }

    /** After the body: recheck each entry and sync every directory, bottom-up, home last. */
    method SyncChain(inos: seq<nat>, ghost file: nat, names: seq<string>, ghost raw: Bytes) returns (ok: bool)
      requires Valid(disk, policy) && Linked(disk, inos + [file], names)
      requires Reaches(disk, file, [], raw)
      modifies this`disk
      ensures Valid(disk, policy) && Evolves(old(disk), disk)
      ensures ok ==> Reaches(disk, (inos + [file])[0], names, raw)
      ensures calm ==> ok
    {
      EvolvesReflexive(disk);
      ghost var chain := inos + [file];
      assert names[|names|..] == [];
      var k := |inos|;
      while k > 0
        invariant 0 <= k <= |names| && Valid(disk, policy) && Evolves(old(disk), disk)
        invariant Linked(disk, chain, names) && Reaches(disk, chain[k], names[k..], raw)
      {
        k := k - 1;
        assert Link(disk, chain[k], names[k], chain[k + 1]);
        var refused := Trouble();
        if refused { return false; }
        ghost var before := disk;
        ok := Fsync(inos[k]);
        EvolvesTransitive(old(disk), before, disk);
        if !ok { return; }
        LinkedEvolves(before, disk, chain, names);
        ReachesStable(before, disk, chain[k + 1], names[k + 1..], raw);
        assert names[k..][0] == names[k] && names[k..][1..] == names[k + 1..];
      }
      assert names[0..] == names;
      ok := true;
    }

    // ----- save() and read() -----------------------------------------------------------------------------

    /** Validate, then the try block of directory() around one operation; how it ended is the last entry of the log. */
    method Attempt(op: Operation) returns (r: Result, descriptors: seq<Handle>)
      requires Ready()
      modifies this
      ensures Ready() && Evolves(old(disk), disk)
      ensures OpenStack(log) == Some(OpenStack(old(log)).value + Fds(descriptors))
      ensures |log| > |old(log)| && log[|log| - 1] == Ended(r) && Within(old(log), log[..|log| - 1])
      ensures r.Ok? ==> Reaches(disk, HOME, dirs + [op.name], r.raw) && policy.readable(op.name, r.raw)
      ensures r.Ok? && op.Save? ==> r.raw == op.raw
      ensures calm && op.Read? && Found(old(disk), op.name) ==> r == Ok(ContentOf(old(disk), op.name))
    {
      r, descriptors := Body(op);
      StackEnded(log, r);
      log := log + [Ended(r)];
      assert log[..|log| - 1] + [Ended(r)] == log;
    }

    /** Running processes find an acceptable file by this name in the store's directory. */
    predicate Found(d: Disk, name: string) {
      Walk(d, HOME, dirs).Some? && Legible(d, Walk(d, HOME, dirs).value, name)
    }

    function ContentOf(d: Disk, name: string): Bytes
      requires Found(d, name)
    {
      Content(d, Walk(d, HOME, dirs).value, name).value
    }

    method Body(op: Operation) returns (r: Result, descriptors: seq<Handle>)
      requires Ready()
      modifies this
      ensures Ready() && Evolves(old(disk), disk) && Within(old(log), log)
      ensures OpenStack(log) == Some(OpenStack(old(log)).value + Fds(descriptors))
      ensures r.Ok? ==> Reaches(disk, HOME, dirs + [op.name], r.raw) && policy.readable(op.name, r.raw)
      ensures r.Ok? && op.Save? ==> r.raw == op.raw
      ensures calm && op.Read? && Found(old(disk), op.name) ==> r == Ok(ContentOf(old(disk), op.name))
    {
      if op.Save? && !policy.savable(op.raw) {
        EvolvesReflexive(disk);
        assert OpenStack(log).value + Fds([]) == OpenStack(log).value;
        return Err("invalid"), [];
      }
      var error;
      error, descriptors := OpenChain();
      if error.Some? { return Err(error.value), descriptors; }
      ghost var chained, entries := disk, log;
      r := Inside(op, Inos(descriptors));
      EvolvesTransitive(old(disk), chained, disk);
      WithinThrough(old(log), entries, log);
    }

    /** The operation in the pinned directory, then the syncing of the chain. */
    method Inside(op: Operation, inos: seq<nat>) returns (r: Result)
      requires Ready() && inos != [] && inos[0] == HOME && Linked(disk, inos, dirs) && (op.Save? ==> policy.savable(op.raw))
      modifies this
      ensures Ready() && Evolves(old(disk), disk) && Within(old(log), log) && OpenStack(log) == OpenStack(old(log))
      ensures r.Ok? ==> Reaches(disk, HOME, dirs + [op.name], r.raw) && policy.readable(op.name, r.raw)
      ensures r.Ok? && op.Save? ==> r.raw == op.raw
      ensures calm && op.Read? && Legible(old(disk), inos[|inos| - 1], op.name) ==>
                r == Ok(Content(old(disk), inos[|inos| - 1], op.name).value)
    {
      ghost var file;
      if op.Save? {
        r, file := SaveIn(inos[|inos| - 1], op.name, op.raw);
      } else {
        r, file := ReadBack(inos[|inos| - 1], op.name, None, None);
      }
      if r.Err? { return; }
      LinkedEvolves(old(disk), disk, inos, dirs);
      LinkedAppend(disk, inos, dirs, op.name, file);
      ghost var saved := disk;
      var ok := SyncChain(inos, file, dirs + [op.name], r.raw);
      EvolvesTransitive(old(disk), saved, disk);
      if !ok { r := Err("sync"); }
    }

    /** The finally block of directory(): one close attempt per descriptor, in reverse order. */
    method CloseAll(descriptors: seq<Handle>, ghost stack: seq<nat>) returns (failure: Option<string>)
      requires Ready() && OpenStack(log) == Some(stack + Fds(descriptors))
      modifies this`log
      ensures Ready() && OpenStack(log) == Some(stack)
      ensures old(log) <= log && forall i :: |old(log)| <= i < |log| ==> log[i].Closed?
      ensures failure == FirstFailure(log[|old(log)|..]) && (calm ==> failure.None?)
    {
      failure := None;
      var k := |descriptors|;
      assert descriptors[..k] == descriptors;
      assert log[|log|..] == [];
      while k > 0
        invariant 0 <= k <= |descriptors| && Ready() && OpenStack(log) == Some(stack + Fds(descriptors[..k]))
        invariant old(log) <= log && forall i :: |old(log)| <= i < |log| ==> log[i].Closed?
        invariant failure == FirstFailure(log[|old(log)|..]) && (calm ==> failure.None?)
      {
        k := k - 1;
        assert descriptors[..k + 1] == descriptors[..k] + [descriptors[k]];
        assert stack + Fds(descriptors[..k + 1]) == (stack + Fds(descriptors[..k])) + [descriptors[k].fd];
        ghost var closes := log[|old(log)|..];
        var error := Close(descriptors[k].fd, stack + Fds(descriptors[..k]));
        assert log[|old(log)|..] == closes + [Closed(descriptors[k].fd, error)];
        FirstFailureNext(closes, descriptors[k].fd, error);
        if failure.None? { failure := error; }
      }
      assert stack + Fds([]) == stack;
    }

    /**
     * save() or read(): the operation inside directory(), whose error outlives close
     * errors of directory(); those surface alone, the first of them.
     */
    method Perform(op: Operation) returns (out: Outcome)
      requires Ready()
      modifies this
      ensures Ready() && Evolves(old(disk), disk) && OpenStack(log) == OpenStack(old(log))
      ensures exists n :: Surfaced(log, |old(log)|, n, out)
      ensures out.Returned? ==> Reaches(disk, HOME, dirs + [op.name], out.raw) && policy.readable(op.name, out.raw)
      ensures out.Returned? && op.Save? ==> out.raw == op.raw
      ensures out.Returned? && Sound(policy) ==> StepAllowed(old(disk), Succeeded(dirs + [op.name], out.raw), disk, policy)
      ensures StepAllowed(old(disk), Other, disk, policy)
      ensures calm && op.Read? && Found(old(disk), op.name) ==> out == Returned(ContentOf(old(disk), op.name))
    {
      ghost var stack := OpenStack(log).value;
      var r, descriptors := Attempt(op);
      ghost var ended := log;
      var failure := CloseAll(descriptors, stack);
      out := match r
             case Err(e) => Raised(e, failure.Some?)
             case Ok(raw) => if failure.Some? then Raised(failure.value, false) else Returned(raw);
      SurfacedHere(old(log), ended, log, out);
      OtherStep(old(disk), disk, policy);
      if out.Returned? { SucceededStep(old(disk), disk, dirs + [op.name], op.name, out.raw, policy); }
    }
  }
}
