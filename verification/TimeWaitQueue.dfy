/** TimeWQ: the timers of one event loop, kept in one list sorted by deadline and served by one
    timerfd that is armed for the head. Times are nanoseconds of the steady clock. */
module TimeWaitQueue {
  import opened Options

  /** `h` is None for a null handle. */
  datatype WaitItem = WaitItem(h: Option<nat>, when: int)

  const MICRO: int := 1000
  const SECOND: int := 1_000_000_000
  const MIN_DELAY: int := 100 * MICRO

  datatype TimeSpec = TimeSpec(sec: int, nsec: int)

  /** The list, with what the kernel knows: when the timerfd expires next, whether it has an
      expiration to read, whether epoll has an edge of it to report, and when it was last set. */
  datatype Timer = Timer(items: seq<WaitItem>, armed: Option<int>, readable: bool, edge: bool, lastArm: int)

  ghost predicate Sorted(items: seq<WaitItem>) {
    forall i, j :: 0 <= i < j < |items| ==> items[i].when <= items[j].when
  }

  // ---------------------------------------------------------------- arming

  /** Integer division as C++ has it: towards zero. */
  function DivTrunc(a: int, b: int): int
    requires b > 0
  {
    if a >= 0 then a / b else -((-a) / b)
  }

  /** The value resetTimerfd hands to timerfd_settime. */
  function DelayOf(when: int, now: int): TimeSpec {
    var us := DivTrunc(when - now, MICRO);
    var least := if us < 100 then 100 else us;
    TimeSpec(least / 1_000_000, (least % 1_000_000) * 1000)
  }

  function Nanos(t: TimeSpec): int {
    t.sec * SECOND + t.nsec
  }

  /** The value is a proper timespec, never the zero that would disarm the timer; it is the time
      left in whole microseconds, but at least a hundred of them. */
  lemma DelayIsExact(when: int, now: int)
    ensures var t := DelayOf(when, now);
            && 0 <= t.sec && 0 <= t.nsec < SECOND && Nanos(t) >= MIN_DELAY && Nanos(t) % MICRO == 0
            && (when - now >= MIN_DELAY ==> when - now - MICRO < Nanos(t) <= when - now)
            && (when - now < MIN_DELAY ==> Nanos(t) == MIN_DELAY)
  {
    var us := DivTrunc(when - now, MICRO);
    var least := if us < 100 then 100 else us;
    assert least == least / 1_000_000 * 1_000_000 + least % 1_000_000;
    assert Nanos(DelayOf(when, now)) == least * 1000;
  }

  function Rearm(t: Timer, when: int, now: int): Timer {
    t.(armed := Some(now + Nanos(DelayOf(when, now))), readable := false, lastArm := now)
  }

  // ---------------------------------------------------------------- the operations as functions

  /** Where addWait's loop stops: the first item with a later deadline. */
  function Slot(items: seq<WaitItem>, when: int): (i: nat)
    ensures i <= |items| && (forall j :: 0 <= j < i ==> items[j].when <= when)
    ensures i < |items| ==> items[i].when > when
  {
    if items == [] || items[0].when > when then 0 else Slot(items[1..], when) + 1
  }

  function Insert(items: seq<WaitItem>, x: WaitItem): seq<WaitItem> {
    items[..Slot(items, x.when)] + [x] + items[Slot(items, x.when)..]
  }

  function Add(t: Timer, x: WaitItem, now: int): Timer {
    var t' := if Slot(t.items, x.when) == 0 then Rearm(t, x.when, now) else t;
    t'.(items := Insert(t.items, x))
  }

  function Delete(t: Timer, at: nat): Timer
    requires at < |t.items|
  {
    t.(items := t.items[..at] + t.items[at + 1..])
  }

  /** The end of `wakeup`: due items leave, and the timer is armed for the one that is next. */
  function Sweep(t: Timer, due: int, now: int): Timer {
    var k := Slot(t.items, due);
    var t' := if k < |t.items| then Rearm(t, t.items[k].when, now) else t;
    t'.(items := t.items[k..])
  }

  /** A new timer goes behind all that are due no later, so timers with equal deadlines keep the
      order in which they came. */
  lemma InsertKeepsOrder(items: seq<WaitItem>, x: WaitItem)
    requires Sorted(items)
    ensures Sorted(Insert(items, x))
    ensures var i := Slot(items, x.when);
            && Insert(items, x)[i] == x && Insert(items, x)[..i] + Insert(items, x)[i + 1..] == items
            && (forall j :: 0 <= j < i ==> items[j].when <= x.when)
            && (forall j :: i <= j < |items| ==> items[j].when > x.when)
  {
    var i, r := Slot(items, x.when), Insert(items, x);
    SlotSplits(items, x.when, i);
    InsertedAt(items, x, i, r);
    SortedWith(items, x, i, r);
  }

  lemma SlotSplits(items: seq<WaitItem>, when: int, i: nat)
    requires Sorted(items) && i <= |items| && (i < |items| ==> items[i].when > when)
    ensures forall j :: i <= j < |items| ==> items[j].when > when
  {
  }

  lemma SortedWith(items: seq<WaitItem>, x: WaitItem, i: nat, r: seq<WaitItem>)
    requires Sorted(items) && i <= |items| && |r| == |items| + 1 && r[i] == x
    requires forall j :: 0 <= j < i ==> r[j] == items[j] && items[j].when <= x.when
    requires forall j :: i < j < |r| ==> r[j] == items[j - 1] && items[j - 1].when > x.when
    ensures Sorted(r)
  {
  }

  lemma InsertedAt(items: seq<WaitItem>, x: WaitItem, i: nat, r: seq<WaitItem>)
    requires i <= |items| && r == items[..i] + [x] + items[i..]
    ensures |r| == |items| + 1 && r[i] == x && r[..i] + r[i + 1..] == items
    ensures forall j :: 0 <= j < i ==> r[j] == items[j]
    ensures forall j :: i < j < |r| ==> r[j] == items[j - 1]
  {
  }

  /** A sweep takes exactly the timers that are due, and leaves exactly those that are not. */
  lemma SweepTakesExactlyDue(t: Timer, due: int, now: int)
    requires Sorted(t.items)
    ensures var k := Slot(t.items, due);
            && Sweep(t, due, now).items == t.items[k..] && Sorted(t.items[k..])
            && forall j :: 0 <= j < |t.items| ==> (t.items[j].when <= due <==> j < k)
  {
  }

  // ---------------------------------------------------------------- all interleavings

  datatype Pc =
    | Idle
    | Started(due: int)       // `wakeup` has read the clock
    | Emptied(due: int)       // and the timerfd

  /** `listed`: the queue is in the loop's wake list. */
  datatype State = State(t: Timer, listed: bool, now: int, pc: Pc)

  datatype Action =
    | Tick(d: nat)            // time passes; the timerfd may expire
    | AddWait(x: WaitItem)
    | DelWait(at: nat)
    | Collect                 // epoll_wait returns
    | Wakeup
    | ReadTimerfd
    | SweepItems

  const INIT: State := State(Timer([], None, false, false, 0), false, 0, Idle)

  predicate Enabled(s: State, a: Action) {
    match a
    case Tick(_) => true
    case AddWait(_) => s.pc == Idle
    case DelWait(at) => s.pc == Idle && at < |s.t.items|
    case Collect => s.pc == Idle
    case Wakeup => s.pc == Idle && s.listed
    case ReadTimerfd => s.pc.Started?
    case SweepItems => s.pc.Emptied?
  }

  function Expire(t: Timer, now: int): Timer {
    if t.armed.Some? && t.armed.value <= now then t.(armed := None, readable := true, edge := true) else t
  }

  function Apply(s: State, a: Action): State
    requires Enabled(s, a)
  {
    match a
    case Tick(d) => s.(now := s.now + d, t := Expire(s.t, s.now + d))
    case AddWait(x) => s.(t := Add(s.t, x, s.now))
    case DelWait(at) => s.(t := Delete(s.t, at))
    case Collect => s.(listed := s.listed || (s.t.edge && s.t.readable), t := s.t.(edge := false))
    case Wakeup => s.(listed := false, pc := Started(s.now))
    case ReadTimerfd => s.(t := s.t.(readable := false), pc := Emptied(s.pc.due))
    case SweepItems => s.(t := Sweep(s.t, s.pc.due, s.now), pc := Idle)
  }

  predicate Run(s: State, acts: seq<Action>)
    decreases |acts|
  {
    acts == [] || (Enabled(s, acts[0]) && Run(Apply(s, acts[0]), acts[1..]))
  }

  function Exec(s: State, acts: seq<Action>): State
    requires Run(s, acts)
    decreases |acts|
  {
    if acts == [] then s else Exec(Apply(s, acts[0]), acts[1..])
  }

  function Max(a: int, b: int): int {
    if a >= b then a else b
  }

  /** The head will be served: the queue is listed, or epoll will report the timerfd, or the
      timerfd is armed for the head. */
  ghost predicate Covered(t: Timer, listed: bool) {
    t.items != [] ==>
      || listed
      || (t.edge && t.readable)
      || (t.armed.Some? && t.armed.value <= Max(t.items[0].when, t.lastArm + MIN_DELAY))
  }

  ghost predicate Inv(s: State) {
    && Sorted(s.t.items)
    && (s.t.armed.Some? ==> s.now < s.t.armed.value)
    && s.t.lastArm <= s.now
    && (s.pc != Idle ==> s.pc.due <= s.now)
    && (s.pc == Idle ==> Covered(s.t, s.listed))
  }

  lemma NextInv(s: State, a: Action)
    requires Inv(s) && Enabled(s, a)
    ensures Inv(Apply(s, a))
  {
    match a
    case AddWait(x) => AddInv(s, x);
    case SweepItems => SweepInv(s);
    case _ =>
  }

  lemma AddInv(s: State, x: WaitItem)
    requires Inv(s) && s.pc == Idle
    ensures Inv(s.(t := Add(s.t, x, s.now)))
  {
    InsertKeepsSorted(s.t.items, x);
    RearmCovers(s.t, x.when, s.now);
    InsertedHead(s.t.items, x);
  }

  lemma InsertKeepsSorted(items: seq<WaitItem>, x: WaitItem)
    requires Sorted(items)
    ensures Sorted(Insert(items, x))
  {
    InsertKeepsOrder(items, x);
  }

  lemma InsertedHead(items: seq<WaitItem>, x: WaitItem)
    ensures Insert(items, x) != [] && Insert(items, x)[0] == if Slot(items, x.when) == 0 then x else items[0]
  {
  }

  lemma SweepInv(s: State)
    requires Inv(s) && s.pc.Emptied?
    ensures Inv(s.(t := Sweep(s.t, s.pc.due, s.now), pc := Idle))
  {
    SweepTakesExactlyDue(s.t, s.pc.due, s.now);
    var k := Slot(s.t.items, s.pc.due);
    if k < |s.t.items| { RearmCovers(s.t, s.t.items[k].when, s.now); }
  }

  lemma RearmCovers(t: Timer, when: int, now: int)
    ensures Rearm(t, when, now).armed.Some?
    ensures now < Rearm(t, when, now).armed.value <= Max(when, now + MIN_DELAY)
  {
    DelayIsExact(when, now);
  }

  lemma {:induction false} RunInv(s: State, acts: seq<Action>)
    requires Inv(s) && Run(s, acts)
    ensures Inv(Exec(s, acts))
    decreases |acts|
  {
    if acts != [] {
      NextInv(s, acts[0]);
      RunInv(Apply(s, acts[0]), acts[1..]);
    }
  }

  /** No timer is lost, in every run: between two passes, while any timer is left, the list is
      sorted and the queue is listed, or has an expiration for epoll to report, or the timerfd is
      armed no later than the head's deadline or a hundred microseconds after it was last set. So
      while the loop has nothing to do, no timer is overdue beyond that. */
  lemma NoTimerLost(acts: seq<Action>)
    requires Run(INIT, acts) && Exec(INIT, acts).pc == Idle && Exec(INIT, acts).t.items != []
    ensures var s := Exec(INIT, acts);
            && Sorted(s.t.items)
            && Covered(s.t, s.listed)
            && (!s.listed && !(s.t.edge && s.t.readable) ==>
                  forall i :: 0 <= i < |s.t.items| ==> s.now < Max(s.t.items[i].when, s.t.lastArm + MIN_DELAY))
  {
    RunInv(INIT, acts);
  }

  /** Exactly the timer at the iterator is deleted: those before and behind it stay, in order, and
      so does everything else. */
  lemma DeleteTakesOne(s: State, at: nat)
    requires s.pc == Idle && at < |s.t.items|
    ensures Enabled(s, DelWait(at))
    ensures var s' := Apply(s, DelWait(at));
            && |s'.t.items| == |s.t.items| - 1 && s' == s.(t := s.t.(items := s'.t.items))
            && (forall j :: 0 <= j < at ==> s'.t.items[j] == s.t.items[j])
            && (forall j :: at < j < |s.t.items| ==> s'.t.items[j - 1] == s.t.items[j])
  {
  }

  /** The timers an action adds, deletes and fires. */
  function Added(a: Action): seq<WaitItem> {
    if a.AddWait? then [a.x] else []
  }

  function Deleted(s: State, a: Action): seq<WaitItem>
    requires Enabled(s, a)
  {
    if a.DelWait? then [s.t.items[a.at]] else []
  }

  function Fired(s: State, a: Action): seq<WaitItem>
    requires Enabled(s, a)
  {
    if a.SweepItems? then FrontOf(s.t.items, s.pc.due) else []
  }

  function AllAdded(acts: seq<Action>): seq<WaitItem> {
    if acts == [] then [] else Added(acts[0]) + AllAdded(acts[1..])
  }

  function AllDeleted(s: State, acts: seq<Action>): seq<WaitItem>
    requires Run(s, acts)
    decreases |acts|
  {
    if acts == [] then [] else Deleted(s, acts[0]) + AllDeleted(Apply(s, acts[0]), acts[1..])
  }

  function AllFired(s: State, acts: seq<Action>): seq<WaitItem>
    requires Run(s, acts)
    decreases |acts|
  {
    if acts == [] then [] else Fired(s, acts[0]) + AllFired(Apply(s, acts[0]), acts[1..])
  }

  lemma InsertConserves(items: seq<WaitItem>, x: WaitItem)
    ensures multiset(Insert(items, x)) == multiset(items) + multiset([x])
  {
    var i := Slot(items, x.when);
    assert items == items[..i] + items[i..];
  }

  lemma DeleteConserves(items: seq<WaitItem>, at: nat)
    requires at < |items|
    ensures multiset(items[..at] + items[at + 1..]) + multiset([items[at]]) == multiset(items)
  {
    assert items == items[..at] + [items[at]] + items[at + 1..];
  }

  lemma FrontAndBack(items: seq<WaitItem>, due: int)
    ensures FrontOf(items, due) + BackOf(items, due) == items
  {
    SlotSplitsList(items, due);
    Halves(items, Slot(items, due));
  }

  lemma Halves(items: seq<WaitItem>, k: nat)
    requires k <= |items|
    ensures items[..k] + items[k..] == items
  {
  }

  lemma SweepConserves(items: seq<WaitItem>, due: int)
    ensures multiset(items[Slot(items, due)..]) + multiset(FrontOf(items, due)) == multiset(items)
  {
    SlotSplitsList(items, due);
    FrontAndBack(items, due);
  }

  lemma StepConserves(s: State, a: Action)
    requires Enabled(s, a)
    ensures multiset(Apply(s, a).t.items) + multiset(Deleted(s, a)) + multiset(Fired(s, a)) ==
            multiset(s.t.items) + multiset(Added(a))
  {
    match a
    case AddWait(x) => AddConserves(s, x);
    case DelWait(at) => DelConserves(s, at);
    case SweepItems => SweepItemsConserves(s);
    case _ => assert Apply(s, a).t.items == s.t.items && Deleted(s, a) == Fired(s, a) == Added(a) == [];
  }

  lemma AddConserves(s: State, x: WaitItem)
    requires s.pc == Idle
    ensures multiset(Apply(s, AddWait(x)).t.items) == multiset(s.t.items) + multiset(Added(AddWait(x)))
    ensures Deleted(s, AddWait(x)) == Fired(s, AddWait(x)) == []
  {
    InsertConserves(s.t.items, x);
  }

  lemma DelConserves(s: State, at: nat)
    requires Enabled(s, DelWait(at))
    ensures multiset(Apply(s, DelWait(at)).t.items) + multiset(Deleted(s, DelWait(at))) == multiset(s.t.items)
    ensures Fired(s, DelWait(at)) == Added(DelWait(at)) == []
  {
    DeleteConserves(s.t.items, at);
  }

  lemma SweepItemsConserves(s: State)
    requires s.pc.Emptied?
    ensures multiset(Apply(s, SweepItems).t.items) + multiset(Fired(s, SweepItems)) == multiset(s.t.items)
    ensures Deleted(s, SweepItems) == Added(SweepItems) == []
  {
    SweepConserves(s.t.items, s.pc.due);
  }

  lemma StepFiresDue(s: State, a: Action)
    requires Inv(s) && Enabled(s, a)
    ensures s.now <= Apply(s, a).now && forall x :: x in Fired(s, a) ==> x.when <= s.now
  {
    if a.SweepItems? { SlotSplitsList(s.t.items, s.pc.due); }
  }

  /** Over every run, each timer that is added is in the list, has been deleted or has fired, exactly
      one of these and once; and none fires before its deadline. */
  lemma {:induction false} TimersConserved(s: State, acts: seq<Action>)
    requires Inv(s) && Run(s, acts)
    ensures multiset(Exec(s, acts).t.items) + multiset(AllDeleted(s, acts)) + multiset(AllFired(s, acts)) ==
            multiset(s.t.items) + multiset(AllAdded(acts))
    ensures s.now <= Exec(s, acts).now && forall x :: x in AllFired(s, acts) ==> x.when <= Exec(s, acts).now
    decreases |acts|
  {
    if acts != [] {
      var a, s1 := acts[0], Apply(s, acts[0]);
      NextInv(s, a);
      TimersConserved(s1, acts[1..]);
      StepConserves(s, a);
      StepFiresDue(s, a);
      SumsUp(s.t.items, s1.t.items, Exec(s, acts).t.items, Added(a), Deleted(s, a), Fired(s, a),
             AllAdded(acts[1..]), AllDeleted(s1, acts[1..]), AllFired(s1, acts[1..]));
    }
  }

  lemma SumsUp(i0: seq<WaitItem>, i1: seq<WaitItem>, i2: seq<WaitItem>, a: seq<WaitItem>, d: seq<WaitItem>,
               f: seq<WaitItem>, a': seq<WaitItem>, d': seq<WaitItem>, f': seq<WaitItem>)
    requires multiset(i1) + multiset(d) + multiset(f) == multiset(i0) + multiset(a)
    requires multiset(i2) + multiset(d') + multiset(f') == multiset(i1) + multiset(a')
    ensures multiset(i2) + multiset(d + d') + multiset(f + f') == multiset(i0) + multiset(a + a')
  {
    var mi, ma, md, mf := multiset(i2), multiset(a'), multiset(d'), multiset(f');
    assert multiset(i2) + multiset(d + d') + multiset(f + f') == (mi + md + mf) + (multiset(d) + multiset(f));
    assert (multiset(i1) + ma) + (multiset(d) + multiset(f)) == (multiset(i1) + multiset(d) + multiset(f)) + ma;
    assert multiset(i0) + multiset(a + a') == (multiset(i0) + multiset(a)) + ma;
  }

  ghost predicate Reaches(s: State, acts: seq<Action>, s': State) {
    Run(s, acts) && Exec(s, acts) == s'
  }

  lemma ReachesStep(s: State, a: Action, acts: seq<Action>, s': State)
    requires Enabled(s, a) && Reaches(Apply(s, a), acts, s')
    ensures Reaches(s, [a] + acts, s')
  {
  }

  /** Timers fire on time: from every state in which the loop is idle, once the head's deadline and
      the hundred microseconds have passed, one turn of the loop fires exactly the timers that are
      due, in order, and arms the timerfd for the first that is not. */
  lemma TimersFireOnTime(s: State, d: nat) returns (s': State)
    requires Inv(s) && s.pc == Idle && s.t.items != []
    requires s.now + d >= Max(s.t.items[0].when, s.t.lastArm + MIN_DELAY)
    ensures Reaches(s, [Tick(d), Collect] + [Wakeup, ReadTimerfd, SweepItems], s')
    ensures s'.pc == Idle && s'.now == s.now + d && !s'.listed
    ensures s'.t.items == BackOf(s.t.items, s'.now)
    ensures forall x :: x in s.t.items ==> (x in s'.t.items <==> x.when > s'.now)
    ensures s'.t.items != [] ==>
              s'.t.armed == Some(s'.now + Nanos(DelayOf(s'.t.items[0].when, s'.now))) && s'.t.lastArm == s'.now
  {
    var s2 := ExpiresAndIsCollected(s, d);
    s' := PassFires(s2);
    ReachesCollected(s, d, [Wakeup, ReadTimerfd, SweepItems], s');
  }

  lemma PassFires(s: State) returns (s': State)
    requires s.pc == Idle && s.listed && Sorted(s.t.items)
    ensures Reaches(s, [Wakeup, ReadTimerfd, SweepItems], s')
    ensures s'.pc == Idle && s'.now == s.now && !s'.listed && s'.t.items == BackOf(s.t.items, s.now)
    ensures forall x :: x in s.t.items ==> (x in s'.t.items <==> x.when > s.now)
    ensures s'.t.items != [] ==>
              s'.t.armed == Some(s.now + Nanos(DelayOf(s'.t.items[0].when, s.now))) && s'.t.lastArm == s.now
  {
    PassReaches(s);
    s' := s.(listed := false, t := Sweep(s.t.(readable := false), s.now, s.now));
    SweptExactly(s.t.(readable := false), s.now);
  }

  /** The expiration, and then epoll's report of it. */
  lemma ExpiresAndIsCollected(s: State, d: nat) returns (s2: State)
    requires Inv(s) && s.pc == Idle && s.t.items != []
    requires s.now + d >= Max(s.t.items[0].when, s.t.lastArm + MIN_DELAY)
    ensures s2 == Apply(Apply(s, Tick(d)), Collect)
    ensures s2.listed && s2.t.items == s.t.items && s2.now == s.now + d && s2.pc == Idle && Sorted(s2.t.items)
  {
    var s1 := Apply(s, Tick(d));
    assert s1.now == s.now + d && s1.t.items == s.t.items && (s1.listed || (s1.t.edge && s1.t.readable));
    s2 := Apply(s1, Collect);
  }

  lemma ReachesCollected(s: State, d: nat, acts: seq<Action>, s': State)
    requires s.pc == Idle && Reaches(Apply(Apply(s, Tick(d)), Collect), acts, s')
    ensures Reaches(s, [Tick(d), Collect] + acts, s')
  {
    ReachesStep(Apply(s, Tick(d)), Collect, acts, s');
    ReachesStep(s, Tick(d), [Collect] + acts, s');
    assert [Tick(d)] + ([Collect] + acts) == [Tick(d), Collect] + acts;
  }

  /** A pass, with nothing between its steps. */
  lemma PassReaches(s: State)
    requires s.pc == Idle && s.listed
    ensures Reaches(s, [Wakeup, ReadTimerfd, SweepItems],
                    s.(listed := false, t := Sweep(s.t.(readable := false), s.now, s.now)))
  {
    var s3 := Apply(s, Wakeup);
    var s4 := Apply(s3, ReadTimerfd);
    var s5 := Apply(s4, SweepItems);
    assert Reaches(s5, [], s5);
    ReachesStep(s4, SweepItems, [], s5);
    ReachesStep(s3, ReadTimerfd, [SweepItems], s5);
    ReachesStep(s, Wakeup, [ReadTimerfd, SweepItems], s5);
  }

  lemma SweptExactly(t: Timer, now: int)
    requires Sorted(t.items)
    ensures var t' := Sweep(t, now, now);
            && t'.items == BackOf(t.items, now)
            && (forall x :: x in t.items ==> (x in t'.items <==> x.when > now))
            && (t'.items != [] ==>
                  t'.armed == Some(now + Nanos(DelayOf(t'.items[0].when, now))) && t'.lastArm == now)
  {
    SweepTakesExactlyDue(t, now, now);
    SlotSplitsList(t.items, now);
    LeftExactly(t.items, Slot(t.items, now), now);
  }

  lemma LeftExactly(items: seq<WaitItem>, k: nat, now: int)
    requires k <= |items| && forall j :: 0 <= j < |items| ==> (items[j].when <= now <==> j < k)
    ensures forall x :: x in items ==> (x in items[k..] <==> x.when > now)
  {
    forall x | x in items && x.when > now ensures x in items[k..] {
      var j :| 0 <= j < |items| && items[j] == x;
      assert items[k..][j - k] == x;
    }
    assert forall j :: 0 <= j < |items| - k ==> items[k..][j] == items[k + j];
  }

  // ---------------------------------------------------------------- the class

  function Handles(items: seq<WaitItem>): seq<nat> {
    if items == [] then []
    else Handles(items[..|items| - 1]) +
         (if items[|items| - 1].h.Some? then [items[|items| - 1].h.value] else [])
  }

  class TimeWQ {
    var items: seq<WaitItem>
    var armed: Option<int>
    var readable: bool
    var edge: bool
    var lastArm: int

    function View(): Timer
      reads this
    {
      Timer(items, armed, readable, edge, lastArm)
    }

    constructor ()
      ensures View() == INIT.t
    {
      items, armed, readable, edge, lastArm := [], None, false, false, 0;
    }

    method ResetTimerfd(expiration: int, now: int) returns (newValue: TimeSpec)
      modifies this`armed, this`readable, this`lastArm
      ensures newValue == DelayOf(expiration, now)
      ensures armed == Some(now + Nanos(newValue)) && !readable && lastArm == now
      ensures View() == Rearm(old(View()), expiration, now)
    {
      var microSeconds := DivTrunc(expiration - now, MICRO);
      if microSeconds < 100 {
        microSeconds := 100;
      }
      newValue := TimeSpec(microSeconds / 1_000_000, (microSeconds % 1_000_000) * 1000);
      armed, readable, lastArm := Some(now + Nanos(newValue)), false, now;
    }

    /** Both forms of `addWait`; `at` stands for the iterator. */
    method AddWait(x: WaitItem, now: int) returns (at: nat)
      modifies this
      ensures View() == Add(old(View()), x, now)
      ensures at < |items| && items[at] == x && at == Slot(old(items), x.when)
      ensures items[..at] + items[at + 1..] == old(items)
      ensures if at == 0 then armed == Some(now + Nanos(DelayOf(x.when, now))) && lastArm == now
              else armed == old(armed) && lastArm == old(lastArm)
    {
      at := 0;
      while at < |items|
        invariant at <= |items| && at + Slot(items[at..], x.when) == Slot(items, x.when)
      {
        if items[at].when > x.when {
          break;
        }
        assert items[at..][1..] == items[at + 1..];
        at := at + 1;
      }
      if at == 0 {
        var newValue := ResetTimerfd(x.when, now);
      }
      items := items[..at] + [x] + items[at..];
      AddedTimer(old(View()), x, now);
    }

    method DelWait(at: nat)
      requires at < |items|
      modifies this`items
      ensures items == old(items[..at] + items[at + 1..])
      ensures View() == Delete(old(View()), at)
    {
      items := items[..at] + items[at + 1..];
    }

    /** `wakeup`, from a clock reading `due` at its start; `now` is the reading that arms the
        timer. `fired` are the items whose callbacks have run; `woken` is what the generator
        yields: the handles of exactly the due items, in order of their deadlines. */
    method Wakeup(due: int, now: int) returns (woken: seq<nat>, ghost fired: seq<WaitItem>)
      modifies this
      ensures View() == Sweep(old(View()).(readable := false), due, now)
      ensures fired == FrontOf(old(items), due) && woken == Handles(fired) && fired + items == old(items)
      ensures if items == [] then armed == old(armed) && lastArm == old(lastArm)
              else armed == Some(now + Nanos(DelayOf(items[0].when, now))) && lastArm == now
    {
      SlotSplitsList(items, due);
      FrontAndBack(items, due);
      readable := false;
      woken, fired := FireDue(due);
      if items != [] {
        var newValue := ResetTimerfd(items[0].when, now);
      }
    }

    /** The loop of `wakeup`, up to the first item that is not due, for which the timer is armed. */
    method FireDue(due: int) returns (woken: seq<nat>, ghost fired: seq<WaitItem>)
      modifies this`items
      ensures items == BackOf(old(items), due)
      ensures fired == FrontOf(old(items), due) && woken == Handles(fired)
    {
      woken, fired := [], [];
      ghost var front, back := FrontOf(items, due), BackOf(items, due);
      while items != []
        invariant fired + FrontOf(items, due) == front && BackOf(items, due) == back && woken == Handles(fired)
        decreases |items|
      {
        if items[0].when > due {
          break;
        }
        HandlesSnoc(fired, items[0]);
        Regroup(fired, items[0], FrontOf(items[1..], due));
        fired := fired + [items[0]];
        var h := items[0].h;
        items := items[1..];
        if h.Some? {
          woken := woken + [h.value];
        }
      }
      assert fired + [] == fired;
    }
  }

  lemma Regroup(a: seq<WaitItem>, x: WaitItem, b: seq<WaitItem>)
    ensures a + ([x] + b) == (a + [x]) + b
  {
  }

  lemma AddedTimer(t: Timer, x: WaitItem, now: int)
    ensures var t', at := Add(t, x, now), Slot(t.items, x.when);
            && at < |t'.items| && t'.items[at] == x && t'.items[..at] + t'.items[at + 1..] == t.items
            && (if at == 0 then t'.armed == Some(now + Nanos(DelayOf(x.when, now))) && t'.lastArm == now
                else t'.armed == t.armed && t'.lastArm == t.lastArm)
  {
    InsertedOnce(t.items, x);
  }

  lemma InsertedOnce(items: seq<WaitItem>, x: WaitItem)
    ensures var r, at := Insert(items, x), Slot(items, x.when);
            at < |r| && r[at] == x && r[..at] + r[at + 1..] == items
  {
    InsertedAt(items, x, Slot(items, x.when), Insert(items, x));
  }

  /** The due items at the front of the list, and the items behind them. */
  function FrontOf(items: seq<WaitItem>, due: int): seq<WaitItem> {
    if items == [] || items[0].when > due then [] else [items[0]] + FrontOf(items[1..], due)
  }

  function BackOf(items: seq<WaitItem>, due: int): seq<WaitItem> {
    if items == [] || items[0].when > due then items else BackOf(items[1..], due)
  }

  lemma {:induction false} SlotSplitsList(items: seq<WaitItem>, due: int)
    ensures FrontOf(items, due) == items[..Slot(items, due)] && BackOf(items, due) == items[Slot(items, due)..]
  {
    if items != [] && items[0].when <= due {
      SlotSplitsList(items[1..], due);
      var k := Slot(items[1..], due);
      assert [items[0]] + items[1..][..k] == items[..k + 1] && items[1..][k..] == items[k + 1..];
    }
  }

  lemma HandlesSnoc(fired: seq<WaitItem>, x: WaitItem)
    ensures Handles(fired + [x]) == Handles(fired) + (if x.h.Some? then [x.h.value] else [])
  {
  }
}
