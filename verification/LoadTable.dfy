/** The table that spreads descriptors over event loops: icus_ is kept sorted by load with one
    swap per operation, through back-pointers that nothing initialises. */
module LoadTable {

  const UINT_RANGE: int := 0x1_0000_0000
  const INT_RANGE: int := 0x8000_0000

  /** One entry of icus_: which ICU it points to, and that ICU's two fields. */
  datatype Slot = Slot(icu: nat, irqn: nat, pos: nat)

  /** `files` is fileWQPtrs_, by the ICU each FileWQ belongs to. */
  datatype Table = Table(slots: seq<Slot>, files: map<int, nat>)

  // ---------------------------------------------------------------- the operations as functions

  /** The last entry with the load of the first one. */
  function LastEqual(slots: seq<Slot>): (j: nat)
    requires slots != []
    ensures j < |slots| && (forall k :: 0 < k <= j ==> slots[k].irqn <= slots[0].irqn)
    ensures j + 1 < |slots| ==> slots[j + 1].irqn > slots[0].irqn
  {
    LastEqualFrom(slots, 0)
  }

  function LastEqualFrom(slots: seq<Slot>, i: nat): (j: nat)
    requires i < |slots|
    ensures i <= j < |slots| && (forall k :: i < k <= j ==> slots[k].irqn <= slots[0].irqn)
    ensures j + 1 < |slots| ==> slots[j + 1].irqn > slots[0].irqn
    decreases |slots| - i
  {
    if i + 1 < |slots| && slots[i + 1].irqn <= slots[0].irqn then LastEqualFrom(slots, i + 1) else i
  }

  /** The entry behind the last lighter one before `p`. */
  function FirstEqual(slots: seq<Slot>, p: nat): (j: nat)
    requires p < |slots|
    ensures j <= p && (forall k :: j <= k < p ==> slots[k].irqn >= slots[p].irqn)
    ensures j > 0 ==> slots[j - 1].irqn < slots[p].irqn
  {
    FirstEqualFrom(slots, p, p)
  }

  function FirstEqualFrom(slots: seq<Slot>, p: nat, i: nat): (j: nat)
    requires i <= p < |slots|
    ensures j <= i && (forall k :: j <= k < i ==> slots[k].irqn >= slots[p].irqn)
    ensures j > 0 ==> slots[j - 1].irqn < slots[p].irqn
  {
    if i > 0 && slots[i - 1].irqn >= slots[p].irqn then FirstEqualFrom(slots, p, i - 1) else i
  }

  /** The entry at `p` gets load `load` and changes places with the one at `j`. */
  function Resettle(slots: seq<Slot>, p: nat, j: nat, load: nat): seq<Slot>
    requires p < |slots| && j < |slots|
  {
    var mine := slots[p].(irqn := load);
    if p == j then slots[p := mine]
    else slots[p := slots[j].(pos := p)][j := mine.(pos := j)]
  }

  /** updateIRQ; `added` says whether addIRQ succeeds. */
  function Update(t: Table, fd: int, added: bool): Table
    requires t.slots != []
  {
    if fd in t.files || !added then t
    else Table(Resettle(t.slots, 0, LastEqual(t.slots), t.slots[0].irqn + 1), t.files[fd := t.slots[0].icu])
  }

  /** removeIRQ, for a descriptor whose ICU is at `p`. */
  function RemoveAt(t: Table, fd: int, p: nat): Table
    requires p < |t.slots| && t.slots[p].irqn > 0
  {
    Table(Resettle(t.slots, p, FirstEqual(t.slots, p), t.slots[p].irqn - 1), t.files - {fd})
  }

  // ---------------------------------------------------------------- the invariant

  function Owned(files: map<int, nat>, icu: nat): set<int> {
    set fd | fd in files && files[fd] == icu
  }

  ghost predicate Listed(slots: seq<Slot>, icu: nat) {
    exists k :: 0 <= k < |slots| && slots[k].icu == icu
  }

  ghost predicate Distinct(slots: seq<Slot>) {
    forall j, k :: 0 <= j < k < |slots| ==> slots[j].icu != slots[k].icu
  }

  ghost predicate Sorted(slots: seq<Slot>) {
    forall j, k :: 0 <= j < k < |slots| ==> slots[j].irqn <= slots[k].irqn
  }

  ghost predicate Counted(t: Table) {
    && (forall k :: 0 <= k < |t.slots| ==> t.slots[k].irqn == |Owned(t.files, t.slots[k].icu)|)
    && (forall fd :: fd in t.files ==> Listed(t.slots, t.files[fd]))
  }

  /** The back-pointers that are read are right: those of the ICUs that have a descriptor. The
      first entry's must be right already when it gets its first one without changing places. */
  ghost predicate Pointed(slots: seq<Slot>) {
    && (forall k :: 0 <= k < |slots| && slots[k].irqn > 0 ==> slots[k].pos == k)
    && (|slots| == 1 || (exists k :: 0 <= k < |slots| && slots[k].irqn > 0) ==> slots[0].pos == 0)
  }

  ghost predicate Valid(t: Table) {
    t.slots != [] && Distinct(t.slots) && Sorted(t.slots) && Counted(t) && Pointed(t.slots)
  }

  /** The table at start: no load, and whatever the uninitialised back-pointers hold. */
  ghost predicate Fresh(t: Table) {
    && t.slots != [] && Distinct(t.slots) && t.files == map[]
    && forall k :: 0 <= k < |t.slots| ==> t.slots[k].irqn == 0
  }

  /** With two ICUs or more the garbage does not matter; with one it must happen to be zero. */
  lemma FreshIsValidExactly(t: Table)
    requires Fresh(t)
    ensures Valid(t) <==> (|t.slots| > 1 || t.slots[0].pos == 0)
  {
  }

  /** And then it is read: after the first addition the only ICU's back-pointer is still what it
      was, and removeIRQ indexes icus_ with it. */
  lemma SingleIcuReadsGarbage(t: Table, fd: int)
    requires Fresh(t) && |t.slots| == 1
    ensures var t' := Update(t, fd, true);
            fd in t'.files && t'.slots[0].irqn == 1 && t'.slots[0].pos == t.slots[0].pos
  {
  }

  // ---------------------------------------------------------------- preservation

  /** `r` is `slots` with the entry of `p` moved to `j` with load `load`. */
  ghost predicate Resettled(slots: seq<Slot>, r: seq<Slot>, p: nat, j: nat, load: nat) {
    && p < |slots| && j < |slots| && |r| == |slots|
    && (forall k :: 0 <= k < |r| && k != p && k != j ==> r[k] == slots[k])
    && r[j].icu == slots[p].icu && r[j].irqn == load
    && (p != j ==> r[p].icu == slots[j].icu && r[p].irqn == slots[j].irqn && r[p].pos == p && r[j].pos == j)
    && (p == j ==> r[p].pos == slots[p].pos)
  }

  lemma ResettleKeeps(slots: seq<Slot>, p: nat, j: nat, load: nat)
    requires Distinct(slots) && p < |slots| && j < |slots|
    ensures Resettled(slots, Resettle(slots, p, j, load), p, j, load)
    ensures Distinct(Resettle(slots, p, j, load))
  {
  }

  lemma ResettlePermutes(slots: seq<Slot>, p: nat, j: nat, load: nat)
    requires p < |slots| && j < |slots|
    ensures forall icu: nat :: Listed(slots, icu) <==> Listed(Resettle(slots, p, j, load), icu)
  {
    var r := Resettle(slots, p, j, load);
    forall icu: nat | Listed(slots, icu) ensures Listed(r, icu) {
      var k :| 0 <= k < |slots| && slots[k].icu == icu;
      assert r[if k == p then j else if k == j then p else k].icu == icu;
    }
    forall icu: nat | Listed(r, icu) ensures Listed(slots, icu) {
      var k :| 0 <= k < |r| && r[k].icu == icu;
      assert slots[if k == p then j else if k == j then p else k].icu == icu;
    }
  }

  /** Between two entries of equal load the move disturbs nothing but the moved load itself. */
  lemma SortedAfter(slots: seq<Slot>, r: seq<Slot>, p: nat, j: nat, load: nat)
    requires Resettled(slots, r, p, j, load) && slots[p].irqn == slots[j].irqn
    requires Sorted(slots)
    requires forall k :: 0 <= k < j ==> slots[k].irqn <= load
    requires forall k :: j < k < |slots| ==> load <= slots[k].irqn
    ensures Sorted(r)
  {
  }

  /** Loads still count descriptors when exactly one ICU's descriptors and load change. */
  lemma CountedAfter(t: Table, t': Table, p: nat, j: nat, load: nat)
    requires Distinct(t.slots) && Counted(t) && Resettled(t.slots, t'.slots, p, j, load)
    requires load == |Owned(t'.files, t.slots[p].icu)|
    requires forall icu: nat :: icu != t.slots[p].icu ==> Owned(t'.files, icu) == Owned(t.files, icu)
    ensures forall k :: 0 <= k < |t'.slots| ==> t'.slots[k].irqn == |Owned(t'.files, t'.slots[k].icu)|
  {
  }

  lemma AddKeepsOthers(files: map<int, nat>, fd: int, icu: nat)
    requires fd !in files
    ensures |Owned(files[fd := icu], icu)| == |Owned(files, icu)| + 1
    ensures forall i: nat :: i != icu ==> Owned(files[fd := icu], i) == Owned(files, i)
  {
    assert Owned(files[fd := icu], icu) == Owned(files, icu) + {fd};
  }

  lemma DropKeepsOthers(files: map<int, nat>, fd: int)
    requires fd in files
    ensures |Owned(files - {fd}, files[fd])| + 1 == |Owned(files, files[fd])|
    ensures forall i: nat :: i != files[fd] ==> Owned(files - {fd}, i) == Owned(files, i)
  {
    assert Owned(files, files[fd]) == Owned(files - {fd}, files[fd]) + {fd};
  }

  /** An entry with load `load` can stand at `j` when the one of `p`, of the same load, leaves it. */
  ghost predicate Fits(slots: seq<Slot>, p: nat, j: nat, load: nat) {
    && p < |slots| && j < |slots| && slots[p].irqn == slots[j].irqn
    && (forall k :: 0 <= k < j ==> slots[k].irqn <= load)
    && (forall k :: j < k < |slots| ==> load <= slots[k].irqn)
    && (slots[p].irqn == 0 ==> p == 0 && (j == 0 ==> |slots| == 1 || slots[1].irqn > 0))
  }

  /** In `files` the ICU of entry `p` has `load` descriptors and the others have what they had. */
  ghost predicate Recounts(t: Table, files: map<int, nat>, p: nat, load: nat) {
    && p < |t.slots| && load == |Owned(files, t.slots[p].icu)|
    && (forall icu: nat :: icu != t.slots[p].icu ==> Owned(files, icu) == Owned(t.files, icu))
    && (forall fd :: fd in files ==> Listed(t.slots, files[fd]))
  }

  /** The load of entry `p` becomes `load`, and `files` what it is then: for both operations. */
  lemma MoveValid(t: Table, files: map<int, nat>, p: nat, j: nat, load: nat)
    requires Valid(t) && Fits(t.slots, p, j, load) && Recounts(t, files, p, load)
    ensures Valid(Table(Resettle(t.slots, p, j, load), files))
  {
    var r := Resettle(t.slots, p, j, load);
    ResettleKeeps(t.slots, p, j, load);
    ResettlePermutes(t.slots, p, j, load);
    SortedAfter(t.slots, r, p, j, load);
    CountedAfter(t, Table(r, files), p, j, load);
    PointedAfter(t.slots, r, p, j, load);
  }

  lemma PointedAfter(slots: seq<Slot>, r: seq<Slot>, p: nat, j: nat, load: nat)
    requires slots != [] && Pointed(slots) && Resettled(slots, r, p, j, load)
    requires slots[p].irqn == 0 ==> p == 0 && (j == 0 ==> |slots| == 1 || slots[1].irqn > 0)
    ensures Pointed(r)
  {
  }

  lemma UpdateValid(t: Table, fd: int, added: bool)
    requires Valid(t)
    ensures Valid(Update(t, fd, added))
  {
    if fd !in t.files && added { AdditionValid(t, fd, LastEqual(t.slots), t.slots[0].irqn + 1); }
  }

  lemma AdditionValid(t: Table, fd: int, j: nat, load: nat)
    requires Valid(t) && fd !in t.files && j == LastEqual(t.slots) && load == t.slots[0].irqn + 1
    ensures Valid(Table(Resettle(t.slots, 0, j, load), t.files[fd := t.slots[0].icu]))
  {
    UpdateBounds(t.slots, j);
    AdditionCounted(t, fd);
    MoveValid(t, t.files[fd := t.slots[0].icu], 0, j, load);
  }

  lemma AdditionCounted(t: Table, fd: int)
    requires t.slots != [] && Counted(t) && fd !in t.files
    ensures Recounts(t, t.files[fd := t.slots[0].icu], 0, t.slots[0].irqn + 1)
  {
    AddKeepsOthers(t.files, fd, t.slots[0].icu);
    assert Listed(t.slots, t.slots[0].icu);
  }

  lemma UpdateBounds(slots: seq<Slot>, j: nat)
    requires slots != [] && Sorted(slots) && j == LastEqual(slots)
    ensures Fits(slots, 0, j, slots[0].irqn + 1)
  {
  }

  lemma RemoveValid(t: Table, fd: int, p: nat)
    requires Valid(t) && fd in t.files && p < |t.slots| && t.slots[p].icu == t.files[fd]
    ensures t.slots[p].irqn > 0 && t.slots[p].pos == p && Valid(RemoveAt(t, fd, p))
  {
    assert fd in Owned(t.files, t.slots[p].icu);
    DropKeepsOthers(t.files, fd);
    RemoveBounds(t.slots, p, FirstEqual(t.slots, p));
    MoveValid(t, t.files - {fd}, p, FirstEqual(t.slots, p), t.slots[p].irqn - 1);
  }

  lemma RemoveBounds(slots: seq<Slot>, p: nat, j: nat)
    requires Sorted(slots) && p < |slots| && slots[p].irqn > 0 && j == FirstEqual(slots, p)
    ensures Fits(slots, p, j, slots[p].irqn - 1)
  {
  }

  // ---------------------------------------------------------------- whole runs

  datatype Op = UpdateIRQ(fd: int, added: bool) | RemoveIRQ(fd: int)

  /** Where the ICU's entry is. */
  function Find(slots: seq<Slot>, icu: nat): (k: nat)
    ensures k <= |slots| && (k < |slots| ==> slots[k].icu == icu)
    ensures forall i :: 0 <= i < k ==> slots[i].icu != icu
  {
    if slots == [] || slots[0].icu == icu then 0 else Find(slots[1..], icu) + 1
  }

  lemma Found(t: Table, fd: int)
    requires Valid(t) && fd in t.files
    ensures Find(t.slots, t.files[fd]) < |t.slots|
  {
  }

  /** An operation; a removal takes the index from the ICU's back-pointer. */
  function Apply(t: Table, op: Op): Table
    requires Valid(t)
  {
    match op
    case UpdateIRQ(fd, added) => Update(t, fd, added)
    case RemoveIRQ(fd) =>
      if fd !in t.files then t
      else
        Found(t, fd);
        var k := Find(t.slots, t.files[fd]);
        RemoveValid(t, fd, k);
        RemoveAt(t, fd, t.slots[k].pos)
  }

  lemma ApplyValid(t: Table, op: Op)
    requires Valid(t)
    ensures Valid(Apply(t, op)) && SameIcus(t, Apply(t, op))
  {
    match op
    case UpdateIRQ(fd, added) =>
      UpdateValid(t, fd, added);
      ResettlePermutes(t.slots, 0, LastEqual(t.slots), t.slots[0].irqn + 1);
    case RemoveIRQ(fd) =>
      if fd in t.files { RemoveApplied(t, fd); }
  }

  ghost predicate SameIcus(t: Table, t': Table) {
    |t'.slots| == |t.slots| && forall icu: nat :: Listed(t.slots, icu) <==> Listed(t'.slots, icu)
  }

  lemma RemoveApplied(t: Table, fd: int)
    requires Valid(t) && fd in t.files
    ensures Valid(Apply(t, RemoveIRQ(fd))) && SameIcus(t, Apply(t, RemoveIRQ(fd)))
  {
    Found(t, fd);
    var p := Find(t.slots, t.files[fd]);
    RemoveValid(t, fd, p);
    ResettlePermutes(t.slots, p, FirstEqual(t.slots, p), t.slots[p].irqn - 1);
  }

  /** Whose descriptors an operation changes: an addition that succeeds gives a descriptor that was
      not known to the first ICU, a removal takes away the one it is for, and anything else changes
      nothing at all. */
  lemma OperationsChangeFiles(t: Table, op: Op)
    requires Valid(t)
    ensures match op
            case UpdateIRQ(fd, added) =>
              if fd !in t.files && added then Apply(t, op).files == t.files[fd := t.slots[0].icu] else Apply(t, op) == t
            case RemoveIRQ(fd) =>
              if fd in t.files then Apply(t, op).files == t.files - {fd} else Apply(t, op) == t
  {
    if op.RemoveIRQ? && op.fd in t.files { Found(t, op.fd); }
  }

  ghost function Exec(t: Table, ops: seq<Op>): Table
    requires Valid(t)
    decreases |ops|
  {
    if ops == [] then t
    else
      ApplyValid(t, ops[0]);
      Exec(Apply(t, ops[0]), ops[1..])
  }

  lemma {:induction false} ExecValid(t: Table, ops: seq<Op>)
    requires Valid(t)
    ensures Valid(Exec(t, ops)) && |Exec(t, ops).slots| == |t.slots|
    ensures forall icu: nat :: Listed(t.slots, icu) <==> Listed(Exec(t, ops).slots, icu)
    decreases |ops|
  {
    if ops != [] {
      ApplyValid(t, ops[0]);
      ExecValid(Apply(t, ops[0]), ops[1..]);
    }
  }

  /** With two or more ICUs, whatever their back-pointers hold at start, or with one whose
      back-pointer happens to be zero, every sequence of
      additions, failed additions, changes and removals keeps the table a permutation of the
      ICUs, sorted by load, with each load the number of that ICU's descriptors and all loads
      together the number of descriptors; and every back-pointer a removal would read next is
      the true index. */
  lemma TableStaysRight(t: Table, ops: seq<Op>)
    requires Fresh(t) && (|t.slots| > 1 || t.slots[0].pos == 0)
    ensures Valid(t)
    ensures var t' := Exec(t, ops);
            && Sorted(t'.slots) && Distinct(t'.slots) && |t'.slots| == |t.slots|
            && (forall icu: nat :: Listed(t.slots, icu) <==> Listed(t'.slots, icu))
            && (forall k :: 0 <= k < |t'.slots| ==> t'.slots[k].irqn == |Owned(t'.files, t'.slots[k].icu)|)
            && TotalLoad(t'.slots) == |t'.files|
            && (forall fd, k :: fd in t'.files && 0 <= k < |t'.slots| && t'.slots[k].icu == t'.files[fd]
                  ==> t'.slots[k].pos == k)
  {
    FreshIsValidExactly(t);
    ExecValid(t, ops);
    var t' := Exec(t, ops);
    LoadsAddUp(t');
    forall fd, k | fd in t'.files && 0 <= k < |t'.slots| && t'.slots[k].icu == t'.files[fd]
      ensures t'.slots[k].pos == k
    {
      RemoveValid(t', fd, k);
    }
  }

  function TotalLoad(slots: seq<Slot>): nat {
    if slots == [] then 0 else TotalLoad(slots[..|slots| - 1]) + slots[|slots| - 1].irqn
  }

  lemma LoadsAddUp(t: Table)
    requires Distinct(t.slots) && Counted(t)
    ensures TotalLoad(t.slots) == |t.files|
  {
    var n := |t.slots|;
    LoadsAddUpTo(t, n);
    assert t.slots[..n] == t.slots;
    forall fd | fd in t.files ensures fd in OwnedUpTo(t, n) {
      assert Listed(t.slots, t.files[fd]);
    }
    assert OwnedUpTo(t, n) == t.files.Keys;
  }

  ghost function OwnedUpTo(t: Table, n: nat): set<int>
    requires n <= |t.slots|
  {
    set fd | fd in t.files && exists k :: 0 <= k < n && t.slots[k].icu == t.files[fd]
  }

  lemma {:induction false} LoadsAddUpTo(t: Table, n: nat)
    requires Distinct(t.slots) && Counted(t) && n <= |t.slots|
    ensures TotalLoad(t.slots[..n]) == |OwnedUpTo(t, n)|
  {
    if n == 0 {
      assert forall fd :: fd !in OwnedUpTo(t, 0);
      assert OwnedUpTo(t, 0) == {};
    } else {
      LoadsAddUpTo(t, n - 1);
      assert t.slots[..n][..n - 1] == t.slots[..n - 1];
      OneMoreOwner(t, n);
    }
  }

  lemma OneMoreOwner(t: Table, n: nat)
    requires Distinct(t.slots) && 0 < n <= |t.slots|
    ensures |OwnedUpTo(t, n)| == |OwnedUpTo(t, n - 1)| + |Owned(t.files, t.slots[n - 1].icu)|
  {
    var last := Owned(t.files, t.slots[n - 1].icu);
    assert OwnedUpTo(t, n) == OwnedUpTo(t, n - 1) + last;
    assert OwnedUpTo(t, n - 1) !! last;
  }

  /** A new descriptor goes to an ICU with the least load, so additions alone never spread the
      loads further than one apart. */
  lemma AdditionBalances(t: Table, fd: int)
    requires Valid(t) && fd !in t.files
    ensures var t' := Update(t, fd, true);
            && fd in t'.files
            && (forall k :: 0 <= k < |t.slots| && t.slots[k].icu == t'.files[fd] ==>
                  forall l :: 0 <= l < |t.slots| ==> t.slots[k].irqn <= t.slots[l].irqn)
            && (t.slots[|t.slots| - 1].irqn <= t.slots[0].irqn + 1 ==>
                  t'.slots[|t.slots| - 1].irqn <= t'.slots[0].irqn + 1)
  {
  }

  // ---------------------------------------------------------------- the classes

  class ICU {
    const id: nat
    var irqn: nat
    var pos: nat

    constructor (id: nat, garbage: nat)
      requires garbage < UINT_RANGE
      ensures this.id == id && irqn == 0 && pos == garbage
    {
      this.id := id;
      irqn, pos := 0, garbage;
    }
  }

  /** A `uint` value as the `int` it is assigned to, and an `int` as a `uint` it is compared to. */
  function ToInt(u: int): int {
    if u >= INT_RANGE then u - UINT_RANGE else u
  }

  function ToUint(i: int): int {
    i % UINT_RANGE
  }

  /** The comparison of the `int` with the wrapped `uint` is the one of the numbers. */
  lemma PositionsDiffer(i: int, pos: nat)
    requires -1 <= i < pos < INT_RANGE
    ensures ToUint(i) == (pos + UINT_RANGE - 1) % UINT_RANGE <==> i == pos - 1
  {
  }

  class CoKernel {
    var icus: seq<ICU>
    var fileWQPtrs: map<int, ICU>

    ghost function Cells(): set<ICU>
      reads this`icus
    {
      set c | c in icus
    }

    static function SlotOf(c: ICU): Slot
      reads c
    {
      Slot(c.id, c.irqn, c.pos)
    }

    function Slots(): (r: seq<Slot>)
      reads this`icus, icus
      ensures |r| == |icus|
    {
      var cs := icus;
      seq(|cs|, k requires 0 <= k < |cs| reads cs => SlotOf(cs[k]))
    }

    function Files(): map<int, nat>
      reads this`fileWQPtrs
    {
      map fd | fd in fileWQPtrs :: fileWQPtrs[fd].id
    }

    function View(): Table
      reads this, icus
    {
      Table(Slots(), Files())
    }

    ghost predicate Apart()
      reads this`icus
    {
      0 < |icus| < INT_RANGE && forall j, k :: 0 <= j < k < |icus| ==> icus[j] != icus[k]
    }

    ghost predicate Good()
      reads this, icus
    {
      Apart() && Valid(View()) && forall fd :: fd in fileWQPtrs ==> fileWQPtrs[fd] in icus
    }

    /** updateIRQ's search: the first ICU with more load than the first one, or the end. */
    method FirstHeavier() returns (i: nat)
      requires Apart()
      ensures 1 <= i <= |icus| && i - 1 == LastEqual(Slots())
    {
      ghost var s := Slots();
      i := 1;
      while i < |icus|
        invariant 1 <= i <= |icus| && LastEqualFrom(s, i - 1) == LastEqual(s)
      {
        if icus[i].irqn > icus[0].irqn {
          break;
        }
        i := i + 1;
      }
    }

    /** updateIRQ's last part: counting the new descriptor and restoring the order. */
    method SettleAdded(i: nat)
      requires Apart() && 1 <= i <= |icus|
      modifies this`icus, Cells()
      ensures Apart() && Slots() == Resettle(old(Slots()), 0, i - 1, old(icus[0].irqn) + 1)
      ensures SameMembers(old(icus), icus)
    {
      icus[0].irqn := icus[0].irqn + 1;
      if i != 1 {
        var temp := icus[0];
        icus := icus[0 := icus[i - 1]];
        icus := icus[i - 1 := temp];
        icus[0].pos := 0;
        icus[i - 1].pos := i - 1;
        ExchangeKeepsMembers(old(icus), icus, 0, i - 1);
      }
    }

    method Record(fd: int, icu: ICU)
      modifies this`fileWQPtrs
      ensures fileWQPtrs == old(fileWQPtrs)[fd := icu] && Files() == old(Files())[fd := icu.id]
    {
      fileWQPtrs := fileWQPtrs[fd := icu];
    }

    method Forget(fd: int)
      modifies this`fileWQPtrs
      ensures fileWQPtrs == old(fileWQPtrs) - {fd} && Files() == old(Files()) - {fd}
    {
      fileWQPtrs := fileWQPtrs - {fd};
    }

    /** updateIRQ, once addIRQ has succeeded. */
    method AddDescriptor(fd: int)
      requires Apart() && fd !in fileWQPtrs
      modifies this, Cells()
      ensures Apart() && View() == Update(old(View()), fd, true)
      ensures SameMembers(old(icus), icus) && fileWQPtrs == old(fileWQPtrs[fd := icus[0]])
    {
      ghost var slots := Slots();
      Record(fd, icus[0]);
      var i := FirstHeavier();
      SettleAdded(i);
      assert Slots() == Resettle(slots, 0, LastEqual(slots), slots[0].irqn + 1);
    }

    /** updateIRQ, with the result of addIRQ. */
    method UpdateIRQ(fd: int, added: bool)
      requires Good()
      modifies this, Cells()
      ensures Good() && View() == Apply(old(View()), Op.UpdateIRQ(fd, added))
      ensures SameMembers(old(icus), icus)
      ensures fileWQPtrs == if fd !in old(fileWQPtrs) && added then old(fileWQPtrs[fd := icus[0]]) else old(fileWQPtrs)
    {
      UpdateValid(View(), fd, added);
      if fd !in fileWQPtrs && added {
        AddDescriptor(fd);
      }
    }

    /** removeIRQ's search: the last ICU before this one with less load, or -1. */
    method LastLighter(icu: ICU) returns (i: int)
      requires Apart() && icu.pos < |icus| && icus[icu.pos] == icu
      ensures -1 <= i < icu.pos && i + 1 == FirstEqual(Slots(), icu.pos)
    {
      ghost var s := Slots();
      i := ToInt((icu.pos + UINT_RANGE - 1) % UINT_RANGE);
      while i >= 0
        invariant -1 <= i < icu.pos && FirstEqualFrom(s, icu.pos, i + 1) == FirstEqual(s, icu.pos)
      {
        if icus[i].irqn < icus[icu.pos].irqn {
          break;
        }
        i := i - 1;
      }
    }

    /** removeIRQ's last part: uncounting the descriptor and restoring the order. */
    method SettleRemoved(icu: ICU, i: int)
      requires Apart() && icu.pos < |icus| && icus[icu.pos] == icu && icu.irqn > 0 && -1 <= i < icu.pos
      modifies this`icus, Cells()
      ensures Apart() && Slots() == Resettle(old(Slots()), old(icu.pos), i + 1, old(icu.irqn) - 1)
      ensures SameMembers(old(icus), icus)
    {
      icus[icu.pos].irqn := icus[icu.pos].irqn - 1;
      PositionsDiffer(i, icu.pos);
      if ToUint(i) != (icu.pos + UINT_RANGE - 1) % UINT_RANGE {
        icus := icus[icu.pos := icus[i + 1]];
        icus := icus[i + 1 := icu];
        icus[icu.pos].pos := icu.pos;
        icu.pos := i + 1;
        ExchangeKeepsMembers(old(icus), icus, old(icu.pos), i + 1);
      }
    }

    /** removeIRQ, for a descriptor it finds. */
    method RemoveDescriptor(fd: int, icu: ICU)
      requires Apart() && icu.pos < |icus| && icus[icu.pos] == icu && icu.irqn > 0
      modifies this, Cells()
      ensures Apart() && View() == RemoveAt(old(View()), fd, old(icu.pos))
      ensures SameMembers(old(icus), icus) && fileWQPtrs == old(fileWQPtrs - {fd})
    {
      ghost var slots, p := Slots(), icu.pos;
      Forget(fd);
      var i := LastLighter(icu);
      SettleRemoved(icu, i);
      assert Slots() == Resettle(slots, p, FirstEqual(slots, p), slots[p].irqn - 1);
    }

    /** removeIRQ; the result of delIRQ changes nothing here. */
    method RemoveIRQ(fd: int)
      requires Good()
      modifies this, Cells()
      ensures Good() && View() == Apply(old(View()), Op.RemoveIRQ(fd))
      ensures SameMembers(old(icus), icus) && fileWQPtrs == old(fileWQPtrs) - {fd}
    {
      ApplyValid(View(), Op.RemoveIRQ(fd));
      if fd in fileWQPtrs {
        PointerIsRight(fd);
        RemoveDescriptor(fd, fileWQPtrs[fd]);
      }
    }

    lemma PointerIsRight(fd: int)
      requires Good() && fd in fileWQPtrs
      ensures var icu, t := fileWQPtrs[fd], View();
              && icu.pos < |icus| && icus[icu.pos] == icu && icu.irqn > 0
              && Apply(t, Op.RemoveIRQ(fd)) == RemoveAt(t, fd, icu.pos)
    {
      var t := View();
      Found(t, fd);
      RemoveValid(t, fd, Find(t.slots, t.files[fd]));
      SameIcu(t, fileWQPtrs[fd], Find(t.slots, t.files[fd]));
    }

    lemma SameIcu(t: Table, icu: ICU, p: nat)
      requires Distinct(t.slots) && t.slots == Slots() && icu in icus && p < |icus| && t.slots[p].icu == icu.id
      ensures icus[p] == icu
    {
      var q :| 0 <= q < |icus| && icus[q] == icu;
      assert t.slots[q].icu == t.slots[p].icu;
    }

    /** `a` and `b` are the same vector, up to the exchange of two entries. */
    static ghost predicate SameMembers(a: seq<ICU>, b: seq<ICU>) {
      (forall k :: 0 <= k < |a| ==> a[k] in b) && (forall k :: 0 <= k < |b| ==> b[k] in a)
    }

    static lemma ExchangeKeepsMembers(a: seq<ICU>, b: seq<ICU>, p: nat, j: nat)
      requires p < |a| && j < |a| && b == a[p := a[j]][j := a[p]]
      ensures SameMembers(a, b)
    {
      forall k | 0 <= k < |a| ensures a[k] in b && b[k] in a {
        var q := if k == p then j else if k == j then p else k;
        assert b[q] == a[k] && a[q] == b[k];
      }
    }
  }
}
