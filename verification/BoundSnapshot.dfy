/**
 * The first-error snapshot of the bounds: which bound is least, and as bit masks
 * which kinds of bound attain the work and the timer minimum.
 */
module BoundSnapshot {
  import opened Prelude
  import opened Deadlines

  /** What an attribute may hold: a finite number, another float, or no number at all. */
  datatype Number = Finite(r: real) | PositiveInfinity | NegativeInfinity | NotANumber | Other

  /** A member of the phase list: a well-shaped pair of either kind, or anything else. */
  datatype Row = Pair(kind: Kind, value: Number) | Odd

  /** The attributes the snapshot reads; phases is None when it is not a list. */
  datatype Facts = Facts(deadline: Number, caseEnd: Option<Number>, local: Option<Number>, observation: Option<Number>,
                         inherited: Number, phases: Option<seq<Row>>)

  /** The kinds of bound, each with its bit. */
  datatype Owner = Deadline | Case | Local | Observation | Inherited | PythonPhase | NativePhase

  function Bit(owner: Owner): bv8 {
    match owner
    case Deadline => 1
    case Case => 2
    case Local => 4
    case Observation => 8
    case Inherited => 16
    case PythonPhase => 32
    case NativePhase => 64
  }

  predicate Has(mask: bv8, owner: Owner) {
    mask & Bit(owner) != 0
  }

  datatype Timer = Timer(owner: Owner, value: Number)

  // ----- Well-formed facts ------------------------------------------------------------------------------

  predicate Known(o: Option<Number>) {
    o.Some? ==> o.value.Finite?
  }

  predicate KnownRow(row: Row) {
    row.Pair? && row.value.Finite?
  }

  predicate AllKnown(rows: seq<Row>) {
    forall i :: 0 <= i < |rows| ==> KnownRow(rows[i])
  }

  predicate WellFormed(f: Facts) {
    && f.deadline.Finite? && Known(f.caseEnd) && Known(f.local) && Known(f.observation)
    && (f.inherited.Finite? || f.inherited.PositiveInfinity?)
    && f.phases.Some? && |f.phases.value| <= 16 && AllKnown(f.phases.value)
  }

  function Instant(o: Option<Number>): Option<real>
    requires Known(o)
  {
    if o.Some? then Some(o.value.r) else None
  }

  /** The bounds these facts stand for. */
  function BoundsOf(f: Facts): Bounds
    requires WellFormed(f)
  {
    Bounds(f.deadline.r, Instant(f.caseEnd), Instant(f.local), Instant(f.observation),
           if f.inherited.Finite? then Some(f.inherited.r) else None)
  }

  function EntryOf(row: Row): Entry {
    if KnownRow(row) then Entry(row.kind, row.value.r) else Entry(Python, 0.0)
  }

  function EntriesOf(rows: seq<Row>): seq<Entry> {
    seq(|rows|, i requires 0 <= i < |rows| => EntryOf(rows[i]))
  }

  /** A bound of this kind has the given value. */
  predicate Holds(f: Facts, owner: Owner, x: real)
    requires WellFormed(f)
  {
    match owner
    case Deadline => f.deadline.r == x
    case Case => Instant(f.caseEnd) == Some(x)
    case Local => Instant(f.local) == Some(x)
    case Observation => Instant(f.observation) == Some(x)
    case Inherited => f.inherited == Finite(x)
    case _ => exists i :: 0 <= i < |f.phases.value| && PhaseOwner(f.phases.value[i]) == owner && f.phases.value[i].value == Finite(x)
  }

  function PhaseOwner(row: Row): Owner {
    if row.Pair? && row.kind.Python? then PythonPhase else NativePhase
  }

  predicate Work(owner: Owner) {
    !owner.PythonPhase? && !owner.NativePhase?
  }

  // ----- Lists of timers -----------------------------------------------------------------------------------

  predicate AllFinite(timers: seq<Timer>) {
    forall i :: 0 <= i < |timers| ==> timers[i].value.Finite?
  }

  /** Some timer of this kind has this value. */
  predicate Lists(timers: seq<Timer>, owner: Owner, x: real) {
    Timer(owner, Finite(x)) in timers
  }

  function Optional(owner: Owner, o: Option<Number>): seq<Timer> {
    if o.Some? then [Timer(owner, o.value)] else []
  }

  function InheritedTimer(f: Facts): Option<Number> {
    if f.inherited.PositiveInfinity? || f.inherited.Other? then None else Some(f.inherited)
  }

  /** The work bounds in the order the code lists them. */
  function Active(f: Facts): seq<Timer> {
    [Timer(Deadline, f.deadline)] + Optional(Case, f.caseEnd) + Optional(Local, f.local)
    + Optional(Observation, f.observation) + Optional(Inherited, InheritedTimer(f))
  }

  function PhaseTimer(row: Row): Timer {
    Timer(PhaseOwner(row), if row.Pair? then row.value else Other)
  }

  function PhaseTimers(rows: seq<Row>): seq<Timer> {
    seq(|rows|, i requires 0 <= i < |rows| => PhaseTimer(rows[i]))
  }

  // ----- Masks -------------------------------------------------------------------------------------------------

  lemma JoinBit(mask: bv8, owner: Owner, other: Owner)
    ensures Has(mask | Bit(owner), other) <==> other == owner || Has(mask, other)
    ensures (mask | Bit(owner)) & 128 == mask & 128
  {
  }

  lemma AddBit(mask: bv8, owner: Owner)
    requires !Has(mask, owner)
    ensures mask + Bit(owner) == mask | Bit(owner)
  {
  }

  lemma NonzeroMask(mask: bv8, owner: Owner)
    requires Has(mask, owner)
    ensures mask != 0
  {
  }

  /** The mask has exactly the bits of the timers that have the given value. */
  ghost predicate Marks(mask: bv8, timers: seq<Timer>, x: real) {
    mask & 128 == 0 && forall owner: Owner :: Has(mask, owner) <==> Lists(timers, owner, x)
  }

  lemma EmptyMask(x: real)
    ensures Marks(0, [], x)
  {
  }

  lemma MarksNext(mask: bv8, timers: seq<Timer>, timer: Timer, x: real)
    requires timer.value.Finite? && Marks(mask, timers, x)
    ensures Marks(if timer.value.r == x then mask | Bit(timer.owner) else mask, timers + [timer], x)
  {
    if timer.value.r == x {
      forall owner: Owner ensures Has(mask | Bit(timer.owner), owner) <==> Lists(timers + [timer], owner, x) {
        JoinBit(mask, timer.owner, owner);
      }
      JoinBit(mask, timer.owner, timer.owner);
    }
  }

  // ----- The lists hold exactly the bounds -------------------------------------------------------------------

  /** The list of work bounds. */
  lemma ActiveLists(f: Facts, owner: Owner, x: real)
    requires WellFormed(f)
    ensures Lists(Active(f), owner, x) <==> Work(owner) && Holds(f, owner, x)
  {
  }

  lemma TimerLists(f: Facts, owner: Owner, x: real)
    requires WellFormed(f)
    ensures Lists(Active(f) + PhaseTimers(f.phases.value), owner, x) <==> Holds(f, owner, x)
  {
    ActiveLists(f, owner, x);
    var timers, rows := PhaseTimers(f.phases.value), f.phases.value;
    if i :| 0 <= i < |rows| && PhaseOwner(rows[i]) == owner && rows[i].value == Finite(x) {
      assert timers[i] == Timer(owner, Finite(x));
    }
    if Timer(owner, Finite(x)) in timers {
      var i :| 0 <= i < |timers| && timers[i] == Timer(owner, Finite(x));
      assert timers[i] == PhaseTimer(rows[i]);
    }
  }

  // ----- Minima ---------------------------------------------------------------------------------------------

  /** Some timer has this value, and none has a smaller one. */
  ghost predicate Minimum(timers: seq<Timer>, x: real) {
    && (exists owner :: Lists(timers, owner, x))
    && (forall owner, y :: Lists(timers, owner, y) ==> x <= y)
  }

  lemma ActiveMinimum(f: Facts, x: real)
    requires WellFormed(f) && Minimum(Active(f), x)
    ensures x == EffectiveEnd(BoundsOf(f))
  {
    forall owner, y | Work(owner) && Holds(f, owner, y) ensures x <= y { ActiveLists(f, owner, y); }
    var owner :| Lists(Active(f), owner, x);
    ActiveLists(f, owner, x);
    assert Holds(f, Deadline, f.deadline.r);
    if f.caseEnd.Some? { assert Holds(f, Case, f.caseEnd.value.r); }
    if f.local.Some? { assert Holds(f, Local, f.local.value.r); }
    if f.observation.Some? { assert Holds(f, Observation, f.observation.value.r); }
    if f.inherited.Finite? { assert Holds(f, Inherited, f.inherited.r); }
  }

  lemma HoldsIsBound(f: Facts, owner: Owner, x: real)
    requires WellFormed(f) && Holds(f, owner, x)
    ensures IsBound(x, BoundsOf(f), EntriesOf(f.phases.value))
  {
    if !Work(owner) {
      var rows := f.phases.value;
      var i :| 0 <= i < |rows| && PhaseOwner(rows[i]) == owner && rows[i].value == Finite(x);
      assert EntriesOf(rows)[i].bound == x;
    }
  }

  lemma BoundIsHeld(f: Facts, x: real)
    requires WellFormed(f) && IsBound(x, BoundsOf(f), EntriesOf(f.phases.value))
    ensures exists owner :: Holds(f, owner, x)
  {
    var rows := f.phases.value;
    if i :| 0 <= i < |rows| && EntriesOf(rows)[i].bound == x {
      assert KnownRow(rows[i]);
      assert Holds(f, PhaseOwner(rows[i]), x);
    } else if x == f.deadline.r {
      assert Holds(f, Deadline, x);
    } else if Instant(f.caseEnd) == Some(x) {
      assert Holds(f, Case, x);
    } else if Instant(f.local) == Some(x) {
      assert Holds(f, Local, x);
    } else if Instant(f.observation) == Some(x) {
      assert Holds(f, Observation, x);
    } else {
      assert Holds(f, Inherited, x);
    }
  }

  lemma TimerMinimum(f: Facts, x: real)
    requires WellFormed(f) && Minimum(Active(f) + PhaseTimers(f.phases.value), x)
    ensures x == TimerEnd(BoundsOf(f), EntriesOf(f.phases.value))
  {
    var timers := Active(f) + PhaseTimers(f.phases.value);
    var end := TimerEnd(BoundsOf(f), EntriesOf(f.phases.value));
    TimerEndLeast(BoundsOf(f), EntriesOf(f.phases.value));
    var owner :| Lists(timers, owner, x);
    TimerLists(f, owner, x);
    HoldsIsBound(f, owner, x);
    BoundIsHeld(f, end);
    var other :| Holds(f, other, end);
    TimerLists(f, other, end);
  }

  // ----- The snapshot ------------------------------------------------------------------------------------------

  datatype Snapshot = Snapshot(least: real, owners: bv8, ties: bv8)

  /** What the snapshot says about well-formed facts. */
  ghost predicate Agrees(f: Facts, s: Snapshot)
    requires WellFormed(f)
  {
    var work, timer := EffectiveEnd(BoundsOf(f)), TimerEnd(BoundsOf(f), EntriesOf(f.phases.value));
    && s.least == timer && s.owners != 0 && s.ties != 0 && s.owners & 128 == 0 && s.ties & 128 == 0
    && (forall owner: Owner :: Has(s.owners, owner) <==> Work(owner) && Holds(f, owner, work))
    && (forall owner: Owner :: Has(s.ties, owner) <==> Holds(f, owner, timer))
  }

  method LeastOf(timers: seq<Timer>) returns (x: real)
    requires |timers| > 0 && AllFinite(timers)
    ensures Minimum(timers, x)
  {
    x := timers[0].value.r;
    ghost var owner := timers[0].owner;
    for i := 1 to |timers|
      invariant Lists(timers, owner, x)
      invariant forall j :: 0 <= j < i ==> x <= timers[j].value.r
    {
      if timers[i].value.r < x {
        x, owner := timers[i].value.r, timers[i].owner;
        assert timers[i] == Timer(owner, Finite(x));
      }
    }
  }

  predicate OwnersDiffer(timers: seq<Timer>) {
    forall i, j :: 0 <= i < j < |timers| ==> timers[i].owner != timers[j].owner
  }

  /** The owners are summed, which is right because every work bit occurs at most once. */
  method SumBits(timers: seq<Timer>, x: real) returns (mask: bv8)
    requires AllFinite(timers) && OwnersDiffer(timers)
    ensures Marks(mask, timers, x)
  {
    mask := 0;
    EmptyMask(x);
    for i := 0 to |timers|
      invariant Marks(mask, timers[..i], x)
    {
      var timer := timers[i];
      assert timers[..i + 1] == timers[..i] + [timer];
      MarksNext(mask, timers[..i], timer, x);
      if timer.value.r == x {
        assert !Lists(timers[..i], timer.owner, x);
        AddBit(mask, timer.owner);
        mask := mask + Bit(timer.owner);
      }
    }
    assert timers[..|timers|] == timers;
  }

  /** The ties are joined, since several phases may share a bit. */
  method JoinBits(timers: seq<Timer>, x: real) returns (mask: bv8)
    requires AllFinite(timers)
    ensures Marks(mask, timers, x)
  {
    mask := 0;
    EmptyMask(x);
    for i := 0 to |timers|
      invariant Marks(mask, timers[..i], x)
    {
      assert timers[..i + 1] == timers[..i] + [timers[i]];
      MarksNext(mask, timers[..i], timers[i], x);
      if timers[i].value.r == x { mask := mask | Bit(timers[i].owner); }
    }
    assert timers[..|timers|] == timers;
  }

  /** The phase loop: the timers of the well-shaped entries, and whether every entry was one. */
  method ReadPhases(rows: seq<Row>) returns (known: bool, timers: seq<Timer>)
    ensures known <==> AllKnown(rows)
    ensures known ==> timers == PhaseTimers(rows)
  {
    known, timers := true, [];
    for n := 0 to |rows|
      invariant known <==> AllKnown(rows[..n])
      invariant known ==> timers == PhaseTimers(rows[..n])
    {
      assert rows[..n + 1] == rows[..n] + [rows[n]];
      if KnownRow(rows[n]) {
        timers := timers + [PhaseTimer(rows[n])];
      } else {
        known := false;
      }
    }
    assert rows[..|rows|] == rows;
  }

  /** The attribute loop: the deadline and whichever optional bounds are present. */
  method ReadActive(f: Facts) returns (active: seq<Timer>)
    ensures active + Optional(Inherited, InheritedTimer(f)) == Active(f)
  {
    active := [Timer(Deadline, f.deadline)];
    var optional := [(Case, f.caseEnd), (Local, f.local), (Observation, f.observation)];
    for i := 0 to 3
      invariant i == 0 ==> active == [Timer(Deadline, f.deadline)]
      invariant i == 1 ==> active == [Timer(Deadline, f.deadline)] + Optional(Case, f.caseEnd)
      invariant i == 2 ==> active == [Timer(Deadline, f.deadline)] + Optional(Case, f.caseEnd) + Optional(Local, f.local)
      invariant i == 3 ==> active == [Timer(Deadline, f.deadline)] + Optional(Case, f.caseEnd) + Optional(Local, f.local)
                                     + Optional(Observation, f.observation)
    {
      if optional[i].1.Some? { active := active + [Timer(optional[i].0, optional[i].1.value)]; }
    }
  }

  lemma ActiveShape(f: Facts)
    requires WellFormed(f)
    ensures AllFinite(Active(f)) && OwnersDiffer(Active(f)) && AllFinite(PhaseTimers(f.phases.value))
  {
    var rows := f.phases.value;
    forall i | 0 <= i < |rows| ensures PhaseTimers(rows)[i].value.Finite? { assert KnownRow(rows[i]); }
  }

  lemma FiniteFacts(f: Facts)
    requires AllFinite(Active(f)) && !f.inherited.Other?
    ensures f.deadline.Finite? && Known(f.caseEnd) && Known(f.local) && Known(f.observation)
    ensures f.inherited.Finite? || f.inherited.PositiveInfinity?
  {
    FiniteMember(Active(f), Timer(Deadline, f.deadline));
    if f.caseEnd.Some? { FiniteMember(Active(f), Timer(Case, f.caseEnd.value)); }
    if f.local.Some? { FiniteMember(Active(f), Timer(Local, f.local.value)); }
    if f.observation.Some? { FiniteMember(Active(f), Timer(Observation, f.observation.value)); }
    if InheritedTimer(f).Some? { FiniteMember(Active(f), Timer(Inherited, f.inherited)); }
  }

  lemma FiniteMember(timers: seq<Timer>, timer: Timer)
    requires AllFinite(timers) && timer in timers
    ensures timer.value.Finite?
  {
  }

  /** Masks over the two lists are the masks the snapshot promises, and neither is empty. */
  lemma SnapshotAgrees(f: Facts, work: real, timer: real, owners: bv8, ties: bv8)
    requires WellFormed(f) && Minimum(Active(f), work) && Marks(owners, Active(f), work)
    requires Minimum(Active(f) + PhaseTimers(f.phases.value), timer)
    requires Marks(ties, Active(f) + PhaseTimers(f.phases.value), timer)
    ensures timer <= work && Agrees(f, Snapshot(timer, owners, ties))
  {
    ActiveMinimum(f, work);
    TimerMinimum(f, timer);
    TimerWithinEffective(BoundsOf(f), EntriesOf(f.phases.value));
    forall owner: Owner ensures Has(owners, owner) <==> Work(owner) && Holds(f, owner, work) { ActiveLists(f, owner, work); }
    forall owner: Owner ensures Has(ties, owner) <==> Holds(f, owner, timer) { TimerLists(f, owner, timer); }
    var first :| Lists(Active(f), first, work);
    var second :| Lists(Active(f) + PhaseTimers(f.phases.value), second, timer);
    NonzeroMask(owners, first);
    NonzeroMask(ties, second);
  }

  /** _diagnostic_bounds() */
  method DiagnosticBounds(f: Facts) returns (r: Option<Snapshot>)
    ensures r.Some? <==> WellFormed(f)
    ensures r.Some? ==> Agrees(f, r.value)
  {
    var active := ReadActive(f);
    if f.phases.None? || |f.phases.value| > 16 { return None; }
    if InheritedTimer(f).Some? { active := active + [Timer(Inherited, f.inherited)]; }
    assert active == Active(f);
    var known, phases := ReadPhases(f.phases.value);
    if WellFormed(f) { ActiveShape(f); }
    if f.inherited.Other? || !known || !AllFinite(active) { return None; }
    FiniteFacts(f);
    var work, timer, owners, ties := Attained(active, phases);
    SnapshotAgrees(f, work, timer, owners, ties);
    r := Some(Snapshot(if timer < work then timer else work, owners, ties));
  }

  /** The two minima and the masks of the timers that attain them. */
  method Attained(active: seq<Timer>, phases: seq<Timer>) returns (work: real, timer: real, owners: bv8, ties: bv8)
    requires |active| > 0 && AllFinite(active) && AllFinite(phases) && OwnersDiffer(active)
    ensures Minimum(active, work) && Marks(owners, active, work)
    ensures Minimum(active + phases, timer) && Marks(ties, active + phases, timer)
  {
    work := LeastOf(active);
    timer := LeastOf(active + phases);
    owners := SumBits(active, work);
    ties := JoinBits(active + phases, timer);
  }
}
