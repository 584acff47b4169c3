/** The coroutine mutex: MuCore and its three awaiters as an interleaved step machine.

    Every atomic access of an `await_suspend` is one action. Between two actions of one
    coroutine any other coroutine may act, so the gaps of the protocol (incremented but not
    yet enqueued, decremented but not yet dequeued, handed over but not yet woken) are states.
 */
module MutexProtocol {
  import opened Options

  /** A coroutine, named by the tid its task was created with. */
  type Co = int

  /** One past the largest `uint`, in which `waiter_` wraps. */
  const UINT_RANGE: nat := 0x1_0000_0000
  const INT_MAX: nat := 0x7FFF_FFFF

  datatype WaitItem = WaitItem(tid: int, h: Co)

  datatype Pc =
    | Idle
    | LockStore               // waiter_ was 0 before: the store to tid_ is next
    | LockEnqueue             // waiter_ was positive before: the enqueue is next
    | Parked                  // enqueued and suspended
    | Holding
    | UnlockDec               // tid_ is cleared: the decrement is next
    | UnlockDequeue           // spinning in dequeue
    | UnlockStore(item: WaitItem)
    | UnlockWake(item: WaitItem)

  /** `own` is each coroutine's own copy of its tid, which a failing compare-and-swap in
      UnlockAwaiter overwrites; `cnt` is the tid the next task gets. */
  datatype State = State(
    tid: int, waiter: nat, items: seq<WaitItem>,
    cnt: int, own: map<Co, int>, pc: map<Co, Pc>)

  datatype Action =
    | Spawn
    | Lock(c: Co)             // LockAwaiter: the increment
    | TryLock(c: Co)          // TryLockAwaiter: the compare-and-swap
    | Unlock(c: Co)           // UnlockAwaiter: the compare-and-swap
    | Step(c: Co)             // the next access of an await_suspend under way

  const INIT: State := State(0, 0, [], 1, map[], map[])

  predicate Enabled(s: State, a: Action) {
    match a
    case Spawn => s.cnt < INT_MAX
    case Lock(c) => c in s.pc && c in s.own && s.pc[c] == Idle
    case TryLock(c) => c in s.pc && c in s.own && s.pc[c] == Idle
    case Unlock(c) => c in s.pc && c in s.own && (s.pc[c] == Holding || s.pc[c] == Idle)
    case Step(c) => c in s.pc && c in s.own && s.pc[c] !in {Idle, Parked, Holding}
  }

  /** The caller's side of the contract: only the holder unlocks. */
  predicate Disciplined(s: State, a: Action) {
    Enabled(s, a) && (a.Unlock? ==> s.pc[a.c] == Holding)
  }

  function Apply(s: State, a: Action): State
    requires Enabled(s, a)
  {
    match a
    case Spawn =>
      s.(cnt := s.cnt + 1, own := s.own[s.cnt := s.cnt], pc := s.pc[s.cnt := Idle])
    case Lock(c) =>
      s.(waiter := (s.waiter + 1) % UINT_RANGE,
         pc := s.pc[c := if s.waiter == 0 then LockStore else LockEnqueue])
    case TryLock(c) =>
      if s.waiter == 0 then s.(waiter := 1, pc := s.pc[c := LockStore]) else s
    case Unlock(c) =>
      if s.tid == s.own[c]
      then s.(tid := 0, pc := s.pc[c := UnlockDec])
      else s.(own := s.own[c := s.tid], pc := s.pc[c := Idle])
    case Step(c) => StepOf(s, c)
  }

  function StepOf(s: State, c: Co): State
    requires Enabled(s, Step(c))
  {
    match s.pc[c]
    case LockStore => s.(tid := s.own[c], pc := s.pc[c := Holding])
    case LockEnqueue => s.(items := s.items + [WaitItem(s.own[c], c)], pc := s.pc[c := Parked])
    case UnlockDec =>
      s.(waiter := (s.waiter + UINT_RANGE - 1) % UINT_RANGE,
         pc := s.pc[c := if s.waiter > 1 then UnlockDequeue else Idle])
    case UnlockDequeue =>
      if s.items == [] then s
      else s.(items := s.items[1..], pc := s.pc[c := UnlockStore(s.items[0])])
    case UnlockStore(item) => s.(tid := item.tid, pc := s.pc[c := UnlockWake(item)])
    case UnlockWake(item) => s.(pc := s.pc[item.h := Holding][c := Idle])
    case _ => s
  }

  // ---------------------------------------------------------------- runs

  predicate Run(s: State, acts: seq<Action>)
    decreases |acts|
  {
    acts == [] || (Enabled(s, acts[0]) && Run(Apply(s, acts[0]), acts[1..]))
  }

  predicate DisciplinedRun(s: State, acts: seq<Action>)
    decreases |acts|
  {
    acts == [] || (Disciplined(s, acts[0]) && DisciplinedRun(Apply(s, acts[0]), acts[1..]))
  }

  function Exec(s: State, acts: seq<Action>): State
    requires Run(s, acts)
    decreases |acts|
  {
    if acts == [] then s else Exec(Apply(s, acts[0]), acts[1..])
  }

  lemma {:induction false} DisciplinedRunIsRun(s: State, acts: seq<Action>)
    requires DisciplinedRun(s, acts)
    ensures Run(s, acts)
    decreases |acts|
  {
    if acts != [] { DisciplinedRunIsRun(Apply(s, acts[0]), acts[1..]); }
  }

  // ---------------------------------------------------------------- the invariant

  /** Coroutines at these points have the mutex or are still handing it over. */
  predicate HasToken(p: Pc) {
    p.LockStore? || p.Holding? || p.UnlockDec? || p.UnlockDequeue? || p.UnlockStore? || p.UnlockWake?
  }

  function Enqueuing(s: State): set<Co> {
    set c | c in s.pc && s.pc[c] == LockEnqueue
  }

  function Handles(items: seq<WaitItem>): (r: seq<Co>)
    ensures |r| == |items|
  {
    seq(|items|, i requires 0 <= i < |items| => items[i].h)
  }

  function Handed(p: Pc): Option<WaitItem> {
    if p.UnlockStore? || p.UnlockWake? then Some(p.item) else None
  }

  ghost predicate Tids(s: State) {
    && 1 <= s.cnt <= INT_MAX
    && s.own.Keys == s.pc.Keys
    && (forall c :: c in s.pc <==> 1 <= c < s.cnt)
    && (forall c :: c in s.own ==> s.own[c] == c)
  }

  ghost predicate Queue(s: State) {
    && (forall i :: 0 <= i < |s.items| ==>
          s.items[i].tid == s.items[i].h && s.items[i].h in s.pc && s.pc[s.items[i].h] == Parked)
    && (forall i, j :: 0 <= i < j < |s.items| ==> s.items[i].h != s.items[j].h)
  }

  ghost predicate Queued(s: State, c: Co) {
    exists i :: 0 <= i < |s.items| && s.items[i].h == c
  }

  /** What holds while nobody has the mutex. */
  ghost predicate Free(s: State) {
    && (forall c :: c in s.pc ==> s.pc[c] == Idle)
    && s.waiter == 0 && s.items == [] && s.tid == 0
  }

  /** What holds while `t` is the one coroutine that has, or is handing over, the mutex. */
  ghost predicate Owned(s: State, t: Co) {
    && t in s.pc && HasToken(s.pc[t])
    && (forall c :: c in s.pc && c != t ==> !HasToken(s.pc[c]))
    && s.waiter == |Enqueuing(s)| + |s.items| + (if s.pc[t] == UnlockDequeue then 0 else 1)
    && s.waiter >= 1
    && (s.pc[t] == Holding ==> s.tid == t)
    && (s.pc[t].UnlockWake? ==> s.tid == s.pc[t].item.tid)
    && (!s.pc[t].Holding? && !s.pc[t].UnlockWake? ==> s.tid == 0)
    && (Handed(s.pc[t]).Some? ==>
          var w := Handed(s.pc[t]).value;
          w.tid == w.h && w.h in s.pc && s.pc[w.h] == Parked && !Queued(s, w.h))
    && (forall c :: c in s.pc && s.pc[c] == Parked ==>
          Queued(s, c) || (Handed(s.pc[t]).Some? && Handed(s.pc[t]).value.h == c))
  }

  ghost predicate InvAt(s: State, t: Option<Co>) {
    Tids(s) && Queue(s) && (match t case None => Free(s) case Some(c) => Owned(s, c))
  }

  ghost predicate Inv(s: State) {
    exists t: Option<Co> :: InvAt(s, t)
  }

  /** Who has the mutex after an action. */
  function NextToken(s: State, a: Action, t: Option<Co>): Option<Co>
    requires Enabled(s, a)
  {
    match a
    case Spawn => t
    case Lock(c) => if s.waiter == 0 then Some(c) else t
    case TryLock(c) => if s.waiter == 0 then Some(c) else t
    case Unlock(_) => t
    case Step(c) =>
      if s.pc[c] == UnlockDec && s.waiter <= 1 then None
      else if s.pc[c].UnlockWake? then Some(s.pc[c].item.h)
      else t
  }

  // ---------------------------------------------------------------- counting

  function HandleSet(items: seq<WaitItem>): set<Co> {
    set i | 0 <= i < |items| :: items[i].h
  }

  lemma {:induction false} HandleSetSize(items: seq<WaitItem>)
    requires forall i, j :: 0 <= i < j < |items| ==> items[i].h != items[j].h
    ensures |HandleSet(items)| == |items|
  {
    if items != [] {
      var n := |items| - 1;
      HandleSetSize(items[..n]);
      assert HandleSet(items) == HandleSet(items[..n]) + {items[n].h};
      assert items[n].h !in HandleSet(items[..n]);
    }
  }

  lemma {:induction false} KeysBelow(keys: set<Co>, n: nat)
    requires forall c :: c in keys ==> 1 <= c <= n
    ensures |keys| <= n
  {
    if n == 0 {
      assert forall c :: c !in keys;
    } else {
      KeysBelow(keys - {n}, n - 1);
      assert |keys| <= |keys - {n}| + 1 by { assert keys <= keys - {n} + {n}; Subset(keys, keys - {n} + {n}); }
    }
  }

  lemma {:induction false} Subset<T>(a: set<T>, b: set<T>)
    requires a <= b
    ensures |a| <= |b|
  {
    assert b == a + (b - a);
  }

  /** `waiter_` counts distinct coroutines, so it stays far below the range of `uint`. */
  lemma WaiterBound(s: State, t: Co)
    requires Tids(s) && Queue(s) && Owned(s, t)
    ensures |Enqueuing(s)| + |s.items| < INT_MAX
  {
    HandleSetSize(s.items);
    var both := Enqueuing(s) + HandleSet(s.items);
    assert Enqueuing(s) !! HandleSet(s.items);
    KeysBelow(both, s.cnt - 1);
  }

  lemma EnqueuingSame(s: State, s': State)
    requires forall c :: (c in s.pc && s.pc[c] == LockEnqueue) <==> (c in s'.pc && s'.pc[c] == LockEnqueue)
    ensures Enqueuing(s') == Enqueuing(s)
  {
    assert forall c :: c in Enqueuing(s') <==> c in Enqueuing(s);
  }

  lemma NoneEnqueuing(s: State)
    requires forall c :: c in s.pc ==> s.pc[c] != LockEnqueue
    ensures Enqueuing(s) == {}
  {
    assert forall c :: c !in Enqueuing(s);
  }

  lemma NextInv(s: State, a: Action, t: Option<Co>)
    requires InvAt(s, t) && Disciplined(s, a)
    ensures InvAt(Apply(s, a), NextToken(s, a, t))
  {
    match a
    case Spawn => SpawnInv(s, t);
    case Lock(c) => if t.Some? { LockInv(s, c, t.value); } else { NoneEnqueuing(Apply(s, a)); }
    case TryLock(c) => if t == None { NoneEnqueuing(Apply(s, a)); }
    case Unlock(c) => UnlockInv(s, c);
    case Step(c) => StepInv(s, c, t);
  }

  lemma SpawnInv(s: State, t: Option<Co>)
    requires InvAt(s, t) && Enabled(s, Spawn)
    ensures InvAt(Apply(s, Spawn), t)
  {
    var s' := Apply(s, Spawn);
    EnqueuingSame(s, s');
    QueuedSame(s, s');
  }

  lemma LockInv(s: State, c: Co, t: Co)
    requires Tids(s) && Queue(s) && Owned(s, t) && Enabled(s, Lock(c))
    ensures InvAt(Apply(s, Lock(c)), Some(t))
  {
    LockCounts(s, c, t);
    QueuedSame(s, Apply(s, Lock(c)));
  }

  lemma LockCounts(s: State, c: Co, t: Co)
    requires Tids(s) && Queue(s) && Owned(s, t) && Enabled(s, Lock(c))
    ensures var s' := Apply(s, Lock(c));
            && s' == s.(waiter := s.waiter + 1, pc := s.pc[c := LockEnqueue])
            && |Enqueuing(s')| == |Enqueuing(s)| + 1
  {
    WaiterBound(s, t);
    assert Enqueuing(Apply(s, Lock(c))) == Enqueuing(s) + {c};
  }

  lemma UnlockInv(s: State, c: Co)
    requires Tids(s) && Queue(s) && Owned(s, c) && s.pc[c] == Holding
    ensures InvAt(Apply(s, Unlock(c)), Some(c))
  {
    EnqueuingSame(s, Apply(s, Unlock(c)));
    QueuedSame(s, Apply(s, Unlock(c)));
  }

  lemma QueuedSame(s: State, s': State)
    requires s'.items == s.items
    ensures forall c :: Queued(s, c) <==> Queued(s', c)
  {
  }

  lemma StepInv(s: State, c: Co, t: Option<Co>)
    requires InvAt(s, t) && Disciplined(s, Step(c))
    ensures InvAt(StepOf(s, c), NextToken(s, Step(c), t))
  {
    if s.pc[c] == LockEnqueue {
      EnqueueInv(s, c, t.value);
    } else {
      assert t == Some(c);
      match s.pc[c]
      case UnlockDec => DecrementInv(s, c);
      case UnlockDequeue => if s.items != [] { DequeueInv(s, c); }
      case UnlockWake(_) => WakeInv(s, c);
      case _ => StoreInv(s, c);
    }
  }

  lemma StoreInv(s: State, c: Co)
    requires Tids(s) && Queue(s) && Owned(s, c) && (s.pc[c].LockStore? || s.pc[c].UnlockStore?)
    ensures InvAt(StepOf(s, c), Some(c))
  {
    if s.pc[c].LockStore? {
      var s' := s.(tid := c, pc := s.pc[c := Holding]);
      assert StepOf(s, c) == s';
      LockStoredOwns(s, s', c);
    } else {
      var w := s.pc[c].item;
      var s' := s.(tid := w.tid, pc := s.pc[c := UnlockWake(w)]);
      assert StepOf(s, c) == s';
      UnlockStoredOwns(s, s', c, w);
    }
  }

  lemma LockStoredOwns(s: State, s': State, c: Co)
    requires Owned(s, c) && s.pc[c].LockStore? && s' == s.(tid := c, pc := s.pc[c := Holding])
    ensures Owned(s', c)
  {
    EnqueuingSame(s, s');
    QueuedSame(s, s');
  }

  lemma UnlockStoredOwns(s: State, s': State, c: Co, w: WaitItem)
    requires Owned(s, c) && s.pc[c] == UnlockStore(w) && s' == s.(tid := w.tid, pc := s.pc[c := UnlockWake(w)])
    ensures Owned(s', c)
  {
    EnqueuingSame(s, s');
    QueuedSame(s, s');
  }

  lemma WakeInv(s: State, c: Co)
    requires Tids(s) && Queue(s) && Owned(s, c) && s.pc[c].UnlockWake?
    ensures InvAt(StepOf(s, c), Some(s.pc[c].item.h))
  {
    var h := s.pc[c].item.h;
    var s' := s.(pc := s.pc[h := Holding][c := Idle]);
    assert StepOf(s, c) == s' && h != c;
    WokenOwns(s, s', c, h);
  }

  lemma WokenOwns(s: State, s': State, c: Co, h: Co)
    requires Owned(s, c) && s.pc[c].UnlockWake? && h == s.pc[c].item.h && h != c
    requires s' == s.(pc := s.pc[h := Holding][c := Idle])
    ensures Owned(s', h)
  {
    EnqueuingSame(s, s');
    QueuedSame(s, s');
  }

  lemma DecrementInv(s: State, c: Co)
    requires Tids(s) && Queue(s) && Owned(s, c) && s.pc[c] == UnlockDec
    ensures InvAt(StepOf(s, c), if s.waiter > 1 then Some(c) else None)
  {
    WaiterBound(s, c);
    var s' := s.(waiter := s.waiter - 1, pc := s.pc[c := if s.waiter > 1 then UnlockDequeue else Idle]);
    assert StepOf(s, c) == s';
    if s.waiter > 1 {
      DecrementedOwns(s, s', c);
    } else {
      LastUnlock(s, c);
    }
  }

  lemma DecrementedOwns(s: State, s': State, c: Co)
    requires Owned(s, c) && s.pc[c] == UnlockDec && s.waiter > 1
    requires s' == s.(waiter := s.waiter - 1, pc := s.pc[c := UnlockDequeue])
    ensures Owned(s', c)
  {
    EnqueuingSame(s, s');
    QueuedSame(s, s');
  }

  lemma LastUnlock(s: State, c: Co)
    requires Tids(s) && Queue(s) && Owned(s, c) && s.pc[c] == UnlockDec && s.waiter <= 1
    ensures forall d :: d in s.pc && d != c ==> s.pc[d] == Idle
  {
    forall d | d in s.pc && d != c ensures s.pc[d] == Idle {
      assert |Enqueuing(s)| == 0;
      assert d !in Enqueuing(s);
      assert !Queued(s, d);
    }
  }

  lemma EnqueueInv(s: State, c: Co, t: Co)
    requires Tids(s) && Queue(s) && Owned(s, t) && c in s.pc && s.pc[c] == LockEnqueue
    ensures InvAt(StepOf(s, c), Some(t))
  {
    var s' := s.(items := s.items + [WaitItem(c, c)], pc := s.pc[c := Parked]);
    EnqueuedQueue(s, s', c);
    EnqueuedOwns(s, s', c, t);
  }

  lemma EnqueuedQueue(s: State, s': State, c: Co)
    requires Queue(s) && c in s.pc && s.pc[c] == LockEnqueue
    requires s' == s.(items := s.items + [WaitItem(c, c)], pc := s.pc[c := Parked])
    ensures Queue(s')
  {
  }

  lemma EnqueuedOwns(s: State, s': State, c: Co, t: Co)
    requires Owned(s, t) && c in s.pc && s.pc[c] == LockEnqueue
    requires s' == s.(items := s.items + [WaitItem(c, c)], pc := s.pc[c := Parked])
    ensures Owned(s', t)
  {
    assert |Enqueuing(s')| == |Enqueuing(s)| - 1 by {
      assert c in Enqueuing(s);
      assert Enqueuing(s') == Enqueuing(s) - {c};
    }
    QueuedMore(s, s', c);
  }

  lemma QueuedMore(s: State, s': State, c: Co)
    requires |s'.items| == |s.items| + 1 && s'.items[..|s.items|] == s.items && s'.items[|s.items|].h == c
    ensures forall d :: Queued(s', d) <==> Queued(s, d) || d == c
  {
  }

  lemma DequeueInv(s: State, c: Co)
    requires Tids(s) && Queue(s) && Owned(s, c) && s.pc[c] == UnlockDequeue && s.items != []
    ensures InvAt(StepOf(s, c), Some(c))
  {
    var s' := s.(items := s.items[1..], pc := s.pc[c := UnlockStore(s.items[0])]);
    DequeuedQueue(s, s', c);
    DequeuedOwns(s, s', c);
  }

  lemma DequeuedQueue(s: State, s': State, c: Co)
    requires Queue(s) && s.items != [] && c in s.pc && s.pc[c] == UnlockDequeue
    requires s' == s.(items := s.items[1..], pc := s.pc[c := UnlockStore(s.items[0])])
    ensures Queue(s') && forall d :: Queued(s', d) <==> Queued(s, d) && d != s.items[0].h
  {
    assert forall i :: 0 <= i < |s'.items| ==> s'.items[i] == s.items[i + 1];
    forall d | Queued(s, d) && d != s.items[0].h ensures Queued(s', d) {
      var i :| 0 <= i < |s.items| && s.items[i].h == d;
      assert s'.items[i - 1].h == d;
    }
  }

  lemma DequeuedOwns(s: State, s': State, c: Co)
    requires Queue(s) && Owned(s, c) && s.pc[c] == UnlockDequeue && s.items != []
    requires s' == s.(items := s.items[1..], pc := s.pc[c := UnlockStore(s.items[0])])
    requires forall d :: Queued(s', d) <==> Queued(s, d) && d != s.items[0].h
    ensures Owned(s', c)
  {
    EnqueuingSame(s, s');
  }

  lemma {:induction false} RunInv(s: State, acts: seq<Action>, t: Option<Co>)
    requires InvAt(s, t) && DisciplinedRun(s, acts)
    ensures Run(s, acts) && Inv(Exec(s, acts))
    decreases |acts|
  {
    if acts != [] {
      NextInv(s, acts[0], t);
      RunInv(Apply(s, acts[0]), acts[1..], NextToken(s, acts[0], t));
    }
  }

  // ---------------------------------------------------------------- safety of every run

  /** In every state of every run in which only holders unlock, at most one coroutine is
      acquiring, holding, releasing or handing over the mutex; a coroutine that is being
      handed the mutex has itself not acquired it; `tid_` names the holder; and `waiter_`
      is the number of coroutines between increment and enqueue, plus those in the queue,
      plus one unless the mutex is free or an unlocker is between decrement and dequeue. */
  lemma MutualExclusion(acts: seq<Action>)
    requires DisciplinedRun(INIT, acts)
    ensures Run(INIT, acts)
    ensures var s := Exec(INIT, acts);
            && (forall c, d :: c in s.pc && d in s.pc && HasToken(s.pc[c]) && HasToken(s.pc[d]) ==> c == d)
            && (forall c :: c in s.pc && s.pc[c] == Holding ==> s.tid == c)
            && s.waiter == |Enqueuing(s)| + |s.items| +
               (if exists c :: c in s.pc && HasToken(s.pc[c]) && s.pc[c] != UnlockDequeue then 1 else 0)
  {
    assert InvAt(INIT, None);
    RunInv(INIT, acts, None);
    var s := Exec(INIT, acts);
    var t: Option<Co> :| InvAt(s, t);
    if t == None {
      NoneEnqueuing(s);
    }
  }

  /** An unlocker spinning in `dequeue` never waits for nothing: an item is queued, or a
      coroutine stands right before its enqueue, a step nothing can disable. */
  lemma HandOffNeverSticks(s: State, c: Co)
    requires Inv(s) && c in s.pc && s.pc[c] == UnlockDequeue
    ensures s.items != [] ||
            exists e :: e in s.pc && s.pc[e] == LockEnqueue && Enabled(s, Step(e))
                        && StepOf(s, e).items != []
  {
    var t: Option<Co> :| InvAt(s, t);
    if s.items == [] {
      if forall e :: e in s.pc ==> s.pc[e] != LockEnqueue { NoneEnqueuing(s); }
      var e :| e in s.pc && s.pc[e] == LockEnqueue;
      assert Enabled(s, Step(e)) && StepOf(s, e).items != [];
    }
  }

  /** Once an item is queued, three more steps of the unlocker make its owner the holder. */
  lemma HandOffCompletes(s: State, c: Co)
    requires Inv(s) && c in s.pc && s.pc[c] == UnlockDequeue && s.items != []
    ensures Run(s, [Step(c), Step(c), Step(c)])
    ensures var s' := Exec(s, [Step(c), Step(c), Step(c)]);
            && s'.pc == s.pc[c := Idle][s.items[0].h := Holding]
            && s'.tid == s.items[0].h && s'.items == s.items[1..] && s'.waiter == s.waiter
            && s'.own == s.own && s'.cnt == s.cnt
  {
    var t: Option<Co> :| InvAt(s, t);
    var w := s.items[0];
    var s1 := s.(items := s.items[1..], pc := s.pc[c := UnlockStore(w)]);
    var s2 := s1.(tid := w.tid, pc := s.pc[c := UnlockWake(w)]);
    var s3 := s2.(pc := s.pc[c := Idle][w.h := Holding]);
    assert w.h != c;
    assert Reaches(s3, [], s3);
    ReachesStep(s2, [Step(c)], s3);
    assert [Step(c), Step(c)][1..] == [Step(c)];
    ReachesStep(s1, [Step(c), Step(c)], s3);
    assert [Step(c), Step(c), Step(c)][1..] == [Step(c), Step(c)];
    ReachesStep(s, [Step(c), Step(c), Step(c)], s3);
  }

  /** No barging: a try-lock gets the mutex only when no coroutine waits for it or has it, and then
      it holds it one step later; otherwise it changes nothing. */
  lemma TryLockOnlyWhenFree(s: State, c: Co)
    requires Inv(s) && c in s.pc && s.pc[c] == Idle
    ensures Enabled(s, TryLock(c))
    ensures Apply(s, TryLock(c)).pc[c] == LockStore <==> (forall d :: d in s.pc ==> s.pc[d] == Idle)
    ensures Apply(s, TryLock(c)).pc[c] != LockStore ==> Apply(s, TryLock(c)) == s
    ensures Apply(s, TryLock(c)).pc[c] == LockStore ==>
              && Run(s, [TryLock(c), Step(c)])
              && Exec(s, [TryLock(c), Step(c)]) == s.(tid := c, waiter := 1, pc := s.pc[c := Holding])
  {
    var t: Option<Co> :| InvAt(s, t);
    if s.waiter == 0 {
      var s2 := s.(tid := c, waiter := 1, pc := s.pc[c := Holding]);
      assert s.pc[c := LockStore][c := Holding] == s.pc[c := Holding];
      CallThenStep(s, TryLock(c), s2);
    }
  }

  lemma CallThenStep(s: State, a: Action, s': State)
    requires !a.Spawn? && Enabled(s, a) && Enabled(Apply(s, a), Step(a.c)) && StepOf(Apply(s, a), a.c) == s'
    ensures Run(s, [a, Step(a.c)]) && Exec(s, [a, Step(a.c)]) == s'
  {
    assert Reaches(s', [], s');
    TwoSteps(s, a, Step(a.c), [], s');
    assert [a, Step(a.c)] + [] == [a, Step(a.c)];
  }

  /** A new coroutine is one that was not there, is idle, and disturbs nobody. */
  lemma SpawnAddsIdle(s: State)
    requires Inv(s) && s.cnt < INT_MAX
    ensures Enabled(s, Spawn) && s.cnt !in s.pc && Inv(Apply(s, Spawn))
    ensures var s' := Apply(s, Spawn);
            && s'.pc.Keys == s.pc.Keys + {s.cnt} && s'.pc[s.cnt] == Idle && s'.own[s.cnt] == s.cnt
            && (forall c :: c in s.pc ==> s'.pc[c] == s.pc[c] && s'.own[c] == c)
            && s'.tid == s.tid && s'.waiter == s.waiter && s'.items == s.items
  {
    var t: Option<Co> :| InvAt(s, t);
    NextInv(s, Spawn, t);
  }

  /** A lock that nothing comes between: it makes its caller the holder if the mutex is free, and
      otherwise the last in the queue. */
  lemma LockCompletes(s: State, c: Co)
    requires Inv(s) && c in s.pc && s.pc[c] == Idle
    ensures Run(s, [Lock(c), Step(c)])
    ensures Exec(s, [Lock(c), Step(c)]) ==
            if forall d :: d in s.pc ==> s.pc[d] == Idle then s.(tid := c, waiter := 1, pc := s.pc[c := Holding])
            else s.(waiter := s.waiter + 1, items := s.items + [WaitItem(c, c)], pc := s.pc[c := Parked])
  {
    var t: Option<Co> :| InvAt(s, t);
    if t == None {
      assert s.pc[c := LockStore][c := Holding] == s.pc[c := Holding];
      CallThenStep(s, Lock(c), s.(tid := c, waiter := 1, pc := s.pc[c := Holding]));
    } else {
      LockCounts(s, c, t.value);
      assert s.pc[c := LockEnqueue][c := Parked] == s.pc[c := Parked];
      CallThenStep(s, Lock(c), s.(waiter := s.waiter + 1, items := s.items + [WaitItem(c, c)],
                                  pc := s.pc[c := Parked]));
    }
  }

  /** The holder's unlock lets go of the mutex in two steps, and goes on to hand it over exactly if
      somebody else has announced that they want it. */
  lemma UnlockReleases(s: State, c: Co)
    requires Inv(s) && c in s.pc && s.pc[c] == Holding
    ensures Run(s, [Unlock(c), Step(c)])
    ensures Exec(s, [Unlock(c), Step(c)]) ==
            s.(tid := 0, waiter := s.waiter - 1, pc := s.pc[c := if s.waiter > 1 then UnlockDequeue else Idle])
  {
    var t: Option<Co> :| InvAt(s, t);
    WaiterBound(s, c);
    var p := if s.waiter > 1 then UnlockDequeue else Idle;
    assert s.pc[c := UnlockDec][c := p] == s.pc[c := p];
    CallThenStep(s, Unlock(c), s.(tid := 0, waiter := s.waiter - 1, pc := s.pc[c := p]));
  }

  /** A step of the unlocker, or of the coroutine `next` that was about to join the empty queue. */
  predicate HandOffStep(s: State, c: Co, next: Option<Co>, a: Action) {
    a == Step(c) || (s.items == [] && next != None && a == Step(next.value))
  }

  /** From one holder to the next: an unlock leads to the mutex being free if nobody wants it, and
      otherwise to the first in the queue, or a coroutine that was about to join the empty queue,
      holding it. It takes steps of the unlocker alone, and in the last case one of that coroutine. */
  lemma UnlockLeadsToNextHolder(s: State, c: Co) returns (acts: seq<Action>, next: Option<Co>)
    requires Inv(s) && c in s.pc && s.pc[c] == Holding
    ensures Run(s, acts) && acts != [] && acts[0] == Unlock(c)
    ensures forall i :: 0 < i < |acts| ==> HandOffStep(s, c, next, acts[i])
    ensures next == None <==> forall d :: d in s.pc && d != c ==> s.pc[d] == Idle
    ensures s.items != [] ==> next == Some(s.items[0].h)
    ensures s.items == [] && next != None ==> next.value in s.pc && s.pc[next.value] == LockEnqueue
    ensures var s', free := Exec(s, acts), s.pc[c := Idle];
            if next == None then s' == s.(tid := 0, waiter := 0, pc := free)
            else s' == s.(tid := next.value, waiter := s.waiter - 1,
                          items := if s.items == [] then [] else s.items[1..], pc := free[next.value := Holding])
  {
    var t: Option<Co> :| InvAt(s, t);
    assert t == Some(c);
    NobodyElse(s, c);
    if s.waiter == 1 {
      UnlockReleases(s, c);
      return [Unlock(c), Step(c)], None;
    }
    var e;
    acts, e := UnlockHandsOver(s, c);
    next := Some(e);
  }

  lemma UnlockHandsOver(s: State, c: Co) returns (acts: seq<Action>, e: Co)
    requires Tids(s) && Queue(s) && Owned(s, c) && s.pc[c] == Holding && s.waiter > 1
    ensures acts != [] && acts[0] == Unlock(c) && forall i :: 0 < i < |acts| ==> HandOffStep(s, c, Some(e), acts[i])
    ensures if s.items == [] then e in s.pc && s.pc[e] == LockEnqueue else e == s.items[0].h
    ensures Reaches(s, acts, s.(tid := e, waiter := s.waiter - 1, items := if s.items == [] then [] else s.items[1..],
                                pc := s.pc[c := Idle][e := Holding]))
  {
    var s2 := UnlockedInv(s, c);
    var more;
    more, e := HandOffLeads(s2, c);
    acts := AfterUnlock(s, c, s2, more, Exec(s2, more));
    assert s.pc[c := UnlockDequeue][c := Idle] == s.pc[c := Idle];
  }

  lemma AfterUnlock(s: State, c: Co, s2: State, more: seq<Action>, s': State) returns (acts: seq<Action>)
    requires Enabled(s, Unlock(c)) && Enabled(Apply(s, Unlock(c)), Step(c)) && s2 == StepOf(Apply(s, Unlock(c)), c)
    requires Reaches(s2, more, s')
    ensures Reaches(s, acts, s') && acts != [] && acts[0] == Unlock(c)
    ensures forall i :: 0 < i < |acts| ==> acts[i] == Step(c) || acts[i] in more
  {
    TwoSteps(s, Unlock(c), Step(c), more, s');
    acts := [Unlock(c), Step(c)] + more;
  }

  lemma UnlockedInv(s: State, c: Co) returns (s2: State)
    requires Tids(s) && Queue(s) && Owned(s, c) && s.pc[c] == Holding && s.waiter > 1
    ensures Enabled(s, Unlock(c)) && Enabled(Apply(s, Unlock(c)), Step(c)) && s2 == StepOf(Apply(s, Unlock(c)), c)
    ensures Inv(s2) && s2 == s.(tid := 0, waiter := s.waiter - 1, pc := s.pc[c := UnlockDequeue])
  {
    WaiterBound(s, c);
    UnlockInv(s, c);
    UnlockTwice(s, c);
    DecrementInv(Apply(s, Unlock(c)), c);
    s2 := StepOf(Apply(s, Unlock(c)), c);
  }

  lemma UnlockTwice(s: State, c: Co)
    requires c in s.pc && c in s.own && s.pc[c] == Holding && s.own[c] == s.tid && 1 < s.waiter < UINT_RANGE
    ensures Enabled(s, Unlock(c)) && Enabled(Apply(s, Unlock(c)), Step(c))
    ensures StepOf(Apply(s, Unlock(c)), c) ==
            s.(tid := 0, waiter := s.waiter - 1, pc := s.pc[c := UnlockDequeue])
  {
    assert s.pc[c := UnlockDec][c := UnlockDequeue] == s.pc[c := UnlockDequeue];
  }

  lemma NobodyElse(s: State, c: Co)
    requires Tids(s) && Queue(s) && Owned(s, c) && s.pc[c] == Holding
    ensures s.waiter == 1 <==> forall d :: d in s.pc && d != c ==> s.pc[d] == Idle
  {
    if s.waiter == 1 {
      forall d | d in s.pc && d != c ensures s.pc[d] == Idle {
        assert |Enqueuing(s)| == 0 && d !in Enqueuing(s) && !Queued(s, d);
      }
    } else if s.items == [] {
      if forall e :: e in s.pc ==> s.pc[e] != LockEnqueue { NoneEnqueuing(s); }
    } else {
      assert s.pc[s.items[0].h] == Parked;
    }
  }

  lemma HandOffLeads(s: State, c: Co) returns (acts: seq<Action>, next: Co)
    requires Inv(s) && c in s.pc && s.pc[c] == UnlockDequeue
    ensures Run(s, acts)
    ensures forall a :: a in acts ==> HandOffStep(s, c, Some(next), a)
    ensures if s.items == [] then next in s.pc && s.pc[next] == LockEnqueue else next == s.items[0].h
    ensures Exec(s, acts) == s.(tid := next, items := if s.items == [] then [] else s.items[1..],
                                pc := s.pc[c := Idle][next := Holding])
  {
    acts := [Step(c), Step(c), Step(c)];
    if s.items != [] {
      HandOffCompletes(s, c);
      return acts, s.items[0].h;
    }
    HandOffNeverSticks(s, c);
    next :| next in s.pc && s.pc[next] == LockEnqueue && Enabled(s, Step(next));
    acts := [Step(next)] + acts;
    LastMomentHandOff(s, c, next);
  }

  /** The unlocker finds the queue empty and the coroutine `e` right before its enqueue. */
  lemma LastMomentHandOff(s: State, c: Co, e: Co)
    requires Inv(s) && c in s.pc && s.pc[c] == UnlockDequeue && s.items == [] && e in s.pc && s.pc[e] == LockEnqueue
    ensures Reaches(s, [Step(e)] + [Step(c), Step(c), Step(c)], s.(tid := e, pc := s.pc[c := Idle][e := Holding]))
  {
    JoinsQueue(s, c, e);
    var s1 := s.(items := [WaitItem(e, e)], pc := s.pc[e := Parked]);
    HandOffCompletes(s1, c);
    assert s1.pc[c := Idle][e := Holding] == s.pc[c := Idle][e := Holding];
    ReachesStep(s, [Step(e)] + [Step(c), Step(c), Step(c)], Exec(s1, [Step(c), Step(c), Step(c)]));
  }

  lemma JoinsQueue(s: State, c: Co, e: Co)
    requires Inv(s) && c in s.pc && s.pc[c] == UnlockDequeue && s.items == [] && e in s.pc && s.pc[e] == LockEnqueue
    ensures Enabled(s, Step(e)) && StepOf(s, e) == s.(items := [WaitItem(e, e)], pc := s.pc[e := Parked])
    ensures Inv(StepOf(s, e))
  {
    var t: Option<Co> :| InvAt(s, t);
    NextInv(s, Step(e), t);
    assert s.items + [WaitItem(e, e)] == [WaitItem(e, e)];
  }

  /** When no step of an await_suspend can change anything any more, a waiter that is left
      waits for one coroutine that really holds the mutex. */
  lemma QuiescentIsServed(s: State)
    requires Inv(s)
    requires forall c :: c in s.pc && Enabled(s, Step(c)) ==> StepOf(s, c) == s
    ensures forall c :: c in s.pc ==> s.pc[c] in {Idle, Parked, Holding}
    ensures (exists c :: c in s.pc && s.pc[c] != Idle) ==> exists t :: t in s.pc && s.pc[t] == Holding
  {
    var t: Option<Co> :| InvAt(s, t);
    forall c | c in s.pc ensures s.pc[c] in {Idle, Parked, Holding} {
      if c in s.own && Enabled(s, Step(c)) {
        OnlySpinsStandStill(s, c);
        HandOffNeverSticks(s, c);
      }
    }
  }

  lemma OnlySpinsStandStill(s: State, c: Co)
    requires Inv(s) && Enabled(s, Step(c)) && StepOf(s, c) == s
    ensures s.pc[c] == UnlockDequeue && s.items == []
  {
  }

  // ---------------------------------------------------------------- order of hand-over

  /** The coroutine an action makes the mutex's next owner, if any: by finding `waiter_` at
      zero, or by being taken from the queue. */
  function Grant(s: State, a: Action): seq<Co>
    requires Enabled(s, a)
  {
    match a
    case Lock(c) => if s.waiter == 0 then [c] else []
    case TryLock(c) => if s.waiter == 0 then [c] else []
    case Step(c) => if s.pc[c] == UnlockDequeue && s.items != [] then [s.items[0].h] else []
    case _ => []
  }

  function Grants(s: State, acts: seq<Action>): seq<Co>
    requires Run(s, acts)
    decreases |acts|
  {
    if acts == [] then [] else Grant(s, acts[0]) + Grants(Apply(s, acts[0]), acts[1..])
  }

  /** The coroutine an action adds to the queue, if any. */
  function Arrival(s: State, a: Action): seq<Co>
    requires Enabled(s, a)
  {
    if a.Step? && s.pc[a.c] == LockEnqueue then [a.c] else []
  }

  function Arrivals(s: State, acts: seq<Action>): seq<Co>
    requires Run(s, acts)
    decreases |acts|
  {
    if acts == [] then []
    else
      Arrival(s, acts[0]) + Arrivals(Apply(s, acts[0]), acts[1..])
  }

  /** Grants `g` and arrivals `ar` lead from queue `q` to queue `q'` in strict arrival order. */
  ghost predicate Served(q: seq<Co>, g: seq<Co>, ar: seq<Co>, q': seq<Co>) {
    && (forall k :: 0 <= k < |q| && k < |g| ==> g[k] == q[k])
    && (|g| <= |q| ==> q' == q[|g|..] + ar)
  }

  /** A step that grants nothing, and adds `ar1` to the queue. */
  lemma ServedAfterArrival(q: seq<Co>, ar1: seq<Co>, g: seq<Co>, ar: seq<Co>, q': seq<Co>)
    requires Served(q + ar1, g, ar, q')
    ensures Served(q, g, ar1 + ar, q')
  {
    if |g| <= |q| {
      assert (q + ar1)[|g|..] == q[|g|..] + ar1;
      assert (q[|g|..] + ar1) + ar == q[|g|..] + (ar1 + ar);
    }
  }

  /** A step that grants the mutex to the head of the queue, or to `c` if there is none. */
  lemma ServedAfterGrant(q: seq<Co>, c: Co, g: seq<Co>, ar: seq<Co>, q': seq<Co>)
    requires q != [] ==> c == q[0] && Served(q[1..], g, ar, q')
    ensures Served(q, [c] + g, ar, q')
  {
    if q != [] && |g| + 1 <= |q| {
      assert q[1..][|g|..] == q[|g| + 1..];
    }
  }

  lemma ServedStep(q: seq<Co>, g1: seq<Co>, ar1: seq<Co>, q1: seq<Co>, g: seq<Co>, ar: seq<Co>, q': seq<Co>)
    requires |g1| <= 1 && (g1 == [] || ar1 == [])
    requires q1 == if g1 == [] || q == [] then q + ar1 else q[1..]
    requires g1 != [] && q != [] ==> g1[0] == q[0]
    requires Served(q1, g, ar, q')
    ensures Served(q, g1 + g, ar1 + ar, q')
  {
    if g1 == [] {
      assert [] + g == g;
      ServedAfterArrival(q, ar1, g, ar, q');
    } else {
      assert [] + ar == ar && g1 == [g1[0]];
      ServedAfterGrant(q, g1[0], g, ar, q');
    }
  }

  lemma StepServesInOrder(s: State, a: Action, t: Option<Co>)
    requires InvAt(s, t) && Disciplined(s, a)
    ensures |Grant(s, a)| <= 1 && (Grant(s, a) == [] || Arrival(s, a) == [])
    ensures Handles(Apply(s, a).items) ==
            if Grant(s, a) == [] || Handles(s.items) == [] then Handles(s.items) + Arrival(s, a)
            else Handles(s.items)[1..]
    ensures Grant(s, a) != [] && Handles(s.items) != [] ==> Grant(s, a)[0] == Handles(s.items)[0]
  {
    if a.Step? { StepQueues(s, a.c, t); }
  }

  lemma StepQueues(s: State, c: Co, t: Option<Co>)
    requires InvAt(s, t) && Disciplined(s, Step(c))
    ensures s.pc[c] == LockEnqueue ==> Handles(StepOf(s, c).items) == Handles(s.items) + [c]
    ensures s.pc[c] == UnlockDequeue && s.items != [] ==>
              Handles(StepOf(s, c).items) == Handles(s.items)[1..] && s.items[0].h == Handles(s.items)[0]
    ensures s.pc[c] != LockEnqueue && !(s.pc[c] == UnlockDequeue && s.items != []) ==> StepOf(s, c).items == s.items
  {
  }

  lemma {:induction false} OrderedHandOff(s: State, acts: seq<Action>, t: Option<Co>)
    requires InvAt(s, t) && DisciplinedRun(s, acts)
    ensures Run(s, acts)
    ensures Served(Handles(s.items), Grants(s, acts), Arrivals(s, acts), Handles(Exec(s, acts).items))
    decreases |acts|
  {
    if acts != [] {
      var a, rest := acts[0], acts[1..];
      NextInv(s, a, t);
      OrderedHandOff(Apply(s, a), rest, NextToken(s, a, t));
      StepServesInOrder(s, a, t);
      ServedStep(Handles(s.items), Grant(s, a), Arrival(s, a), Handles(Apply(s, a).items),
                 Grants(Apply(s, a), rest), Arrivals(Apply(s, a), rest), Handles(Exec(s, acts).items));
    }
  }

  /** Strict arrival order, over every run from any reachable state: the coroutine at index k
      of the queue is the one the (k+1)-th later grant goes to, whatever locks and try-locks
      are attempted meanwhile, and until then the queue is what was there, less those served,
      followed by those that arrived. */
  lemma FifoHandOff(s: State, acts: seq<Action>)
    requires Inv(s) && DisciplinedRun(s, acts)
    ensures Run(s, acts)
    ensures forall k :: 0 <= k < |s.items| && k < |Grants(s, acts)| ==> Grants(s, acts)[k] == s.items[k].h
    ensures |Grants(s, acts)| <= |s.items| ==>
              Handles(Exec(s, acts).items) == Handles(s.items)[|Grants(s, acts)|..] + Arrivals(s, acts)
  {
    var t: Option<Co> :| InvAt(s, t);
    OrderedHandOff(s, acts, t);
    assert forall k :: 0 <= k < |s.items| ==> s.items[k].h == Handles(s.items)[k];
  }

  // ---------------------------------------------------------------- what the contract buys

  /** Without the contract the protocol fails: an unlock by a coroutine that does not hold
      the mutex overwrites that coroutine's tid with the holder's, so that its second attempt
      releases a mutex it never had, and two coroutines hold it at once. */
  lemma StrayUnlockBreaksExclusion()
    ensures exists acts :: Run(INIT, acts)
              && 1 in Exec(INIT, acts).pc && Exec(INIT, acts).pc[1] == Holding
              && 2 in Exec(INIT, acts).pc && Exec(INIT, acts).pc[2] == Holding
  {
    var s1 := Apply(INIT, Spawn);
    var s2 := Apply(s1, Spawn);
    var s3 := Apply(s2, Lock(1));
    var s4 := Apply(s3, Step(1));
    assert s4.tid == 1 && s4.own[2] == 2;
    var s5 := Apply(s4, Unlock(2));
    assert s5.own[2] == 1 && s5.pc[1] == Holding;
    var s6 := Apply(s5, Unlock(2));
    var s7 := Apply(s6, Step(2));
    assert s7.waiter == 0 && s7.pc[1] == Holding && s7.pc[2] == Idle;
    var s8 := Apply(s7, Lock(2));
    var s9 := Apply(s8, Step(2));
    var r7 := [Lock(2), Step(2)];
    var r4 := [Unlock(2), Unlock(2), Step(2)] + r7;
    var r2 := [Lock(1), Step(1)] + r4;
    TwoSteps(s7, Lock(2), Step(2), [], s9);
    assert r7 == [Lock(2), Step(2)] + [];
    ReachesStep(s6, [Step(2)] + r7, s9);
    TwoSteps(s4, Unlock(2), Unlock(2), [Step(2)] + r7, s9);
    assert r4 == [Unlock(2), Unlock(2)] + ([Step(2)] + r7);
    TwoSteps(s2, Lock(1), Step(1), r4, s9);
    TwoSteps(INIT, Spawn, Spawn, r2, s9);
  }

  /** And so from everywhere: whenever one coroutine holds the mutex and another is idle, two unlocks
      by the idle one go on to a second holder, be it a waiter or the idle one itself. */
  lemma StrayUnlockLeadsToTwoHolders(s: State, t: Co, c: Co) returns (acts: seq<Action>, d: Co)
    requires Inv(s) && t in s.pc && c in s.pc && s.pc[t] == Holding && s.pc[c] == Idle
    ensures acts != [] && acts[0] == Unlock(c) && Run(s, acts)
    ensures var s' := Exec(s, acts); d != t && t in s'.pc && d in s'.pc && s'.pc[t] == s'.pc[d] == Holding
  {
    var o: Option<Co> :| InvAt(s, o);
    assert o == Some(t);
    var s1 := s.(own := s.own[c := t], pc := s.pc[c := Idle]);
    var s2 := s1.(tid := 0, pc := s.pc[c := UnlockDec]);
    assert s1 == Apply(s, Unlock(c)) && s2.pc == s1.pc[c := UnlockDec] && s2 == Apply(s1, Unlock(c));
    var more, last;
    more, d, last := StrayDecrement(s, s2, t, c);
    TwoSteps(s, Unlock(c), Unlock(c), more, last);
    acts := [Unlock(c), Unlock(c)] + more;
  }

  /** After the stray unlock has cleared `tid_`. */
  lemma StrayDecrement(s: State, s2: State, t: Co, c: Co) returns (acts: seq<Action>, d: Co, last: State)
    requires Tids(s) && Queue(s) && Owned(s, t) && s.pc[t] == Holding && c in s.pc && s.pc[c] == Idle
    requires s2 == s.(own := s.own[c := t], tid := 0, pc := s.pc[c := UnlockDec])
    ensures Reaches(s2, acts, last) && d != t && t in last.pc && d in last.pc && last.pc[t] == last.pc[d] == Holding
  {
    WaiterBound(s, t);
    var s3 := StepOf(s2, c);
    if s.waiter == 1 {
      assert s3 == s2.(waiter := 0, pc := s2.pc[c := Idle]);
      var s4 := s3.(waiter := 1, pc := s3.pc[c := LockStore]);
      last := s4.(tid := t, pc := s4.pc[c := Holding]);
      assert Reaches(last, [], last);
      TwoSteps(s3, Lock(c), Step(c), [], last);
      ReachesStep(s2, [Step(c)] + ([Lock(c), Step(c)] + []), last);
      acts, d := [Step(c)] + ([Lock(c), Step(c)] + []), c;
    } else {
      assert s3 == s2.(waiter := s.waiter - 1, pc := s2.pc[c := UnlockDequeue]);
      var more;
      if s.items != [] {
        more, last := StrayHandOff(s3, c, t);
        d := s.items[0].h;
      } else {
        if forall e :: e in s.pc ==> s.pc[e] != LockEnqueue { NoneEnqueuing(s); }
        var e :| e in s.pc && s.pc[e] == LockEnqueue;
        var s4 := s3.(items := [WaitItem(e, e)], pc := s3.pc[e := Parked]);
        assert s4 == StepOf(s3, e);
        more, last := StrayHandOff(s4, c, t);
        ReachesStep(s3, [Step(e)] + more, last);
        more, d := [Step(e)] + more, e;
      }
      ReachesStep(s2, [Step(c)] + more, last);
      acts := [Step(c)] + more;
    }
  }

  lemma StrayHandOff(s: State, c: Co, t: Co) returns (acts: seq<Action>, last: State)
    requires c in s.pc && c in s.own && s.pc[c] == UnlockDequeue && s.items != []
    requires t in s.pc && t != c && s.pc[t] == Holding && s.items[0].h !in {c, t}
    ensures Reaches(s, acts, last) && t in last.pc && last.pc[t] == Holding
    ensures s.items[0].h in last.pc && last.pc[s.items[0].h] == Holding
  {
    var w := s.items[0];
    var s1 := s.(items := s.items[1..], pc := s.pc[c := UnlockStore(w)]);
    var s2 := s1.(tid := w.tid, pc := s1.pc[c := UnlockWake(w)]);
    last := s2.(pc := s2.pc[w.h := Holding][c := Idle]);
    assert Reaches(last, [], last);
    TwoSteps(s1, Step(c), Step(c), [], last);
    ReachesStep(s, [Step(c)] + ([Step(c), Step(c)] + []), last);
    acts := [Step(c)] + ([Step(c), Step(c)] + []);
  }

  /** The contract is exactly what the protocol needs: from a reachable state, an unlock keeps
      the invariant if and only if its caller holds the mutex. */
  lemma UnlockSafeExactlyForHolder(s: State, c: Co)
    requires Inv(s) && Enabled(s, Unlock(c))
    ensures Inv(Apply(s, Unlock(c))) <==> s.pc[c] == Holding
    ensures if s.pc[c] == Holding then Apply(s, Unlock(c)) == s.(tid := 0, pc := s.pc[c := UnlockDec])
            else Apply(s, Unlock(c)) == s.(own := s.own[c := s.tid]) && s.tid != c
  {
    var t: Option<Co> :| InvAt(s, t);
    if s.pc[c] == Holding {
      NextInv(s, Unlock(c), t);
    } else {
      assert s.tid != c by { if t.Some? { assert s.pc[t.value] != s.pc[c]; } }
      assert Apply(s, Unlock(c)).own[c] != c;
    }
  }

  ghost predicate Reaches(s: State, acts: seq<Action>, s': State) {
    Run(s, acts) && Exec(s, acts) == s'
  }

  lemma ReachesStep(s: State, acts: seq<Action>, s': State)
    requires acts != [] && Enabled(s, acts[0]) && Reaches(Apply(s, acts[0]), acts[1..], s')
    ensures Reaches(s, acts, s')
  {
  }

  lemma TwoSteps(s: State, a: Action, b: Action, acts: seq<Action>, s': State)
    requires Enabled(s, a) && Enabled(Apply(s, a), b) && Reaches(Apply(Apply(s, a), b), acts, s')
    ensures Reaches(s, [a, b] + acts, s')
  {
  }

  // ---------------------------------------------------------------- the awaiters in place

  function TidsOf(items: seq<WaitItem>): seq<int> {
    seq(|items|, i requires 0 <= i < |items| => items[i].tid)
  }

  /** The mutex record, with each await_suspend as a whole, run without interruption. To its users
      it is a queue of owners, the first of which has the mutex. */
  class MuCore {
    var tid: int
    var waiter: nat
    var items: seq<WaitItem>

    ghost predicate Valid()
      reads this
    {
      && 0 !in TidsOf(items)
      && waiter == |Owners()| < UINT_RANGE
      && (tid == 0 ==> items == [])
    }

    /** Who has the mutex, and who waits for it, in the order in which they get it. */
    ghost function Owners(): seq<int>
      reads this
    {
      if tid == 0 then [] else [tid] + TidsOf(items)
    }

    constructor ()
      ensures Valid() && Owners() == []
    {
      tid, waiter, items := 0, 0, [];
    }

    /** LockAwaiter: the caller becomes the last owner, and suspends unless it is the first. */
    method LockSuspend(t: int, h: Co) returns (suspends: bool)
      requires Valid() && t != 0 && |Owners()| + 1 < UINT_RANGE
      modifies this
      ensures Valid() && Owners() == old(Owners()) + [t]
      ensures suspends <==> old(Owners()) != []
      ensures items == old(items) + if suspends then [WaitItem(t, h)] else []
    {
      var before := waiter;
      waiter := (waiter + 1) % UINT_RANGE;
      if before == 0 {
        tid := t;
        return false;
      } else {
        items := items + [WaitItem(t, h)];
        assert TidsOf(items) == TidsOf(old(items)) + [t];
        return true;
      }
    }

    /** TryLockAwaiter: the caller becomes the owner if there is none, and never suspends. */
    method TryLockSuspend(t: int) returns (got: bool)
      requires Valid() && t != 0
      modifies this
      ensures Valid() && Owners() == old(Owners()) + if got then [t] else []
      ensures got <==> old(Owners()) == []
    {
      got := waiter == 0;
      if got {
        waiter := 1;
        tid := t;
      }
    }

    /** The spin of an unlocker on `dequeue`. */
    method SpinForItem() returns (newItem: WaitItem)
      requires items != []
      modifies this`items
      ensures newItem == old(items)[0] && items == old(items)[1..]
    {
      newItem := WaitItem(0, 0);
      var got := false;
      while !got
        invariant if got then newItem == old(items)[0] && items == old(items)[1..] else items == old(items)
        decreases !got
      {
        if items != [] {
          newItem, items, got := items[0], items[1..], true;
        }
      }
    }

    /** The hand-over to the first waiter. */
    method HandOver() returns (h: Co)
      requires items != []
      modifies this`tid, this`items
      ensures [tid] + TidsOf(items) == TidsOf(old(items))
      ensures h == old(items)[0].h && items == old(items)[1..]
    {
      var newItem := SpinForItem();
      tid := newItem.tid;
      h := newItem.h;
    }

    /** UnlockAwaiter: the first owner leaves and the next one is woken; for anybody else nothing
        changes but the caller's own tid. */
    method UnlockSuspend(own: int) returns (own': int, woken: Option<Co>)
      requires Valid() && own != 0
      modifies this
      ensures Valid()
      ensures if old(Owners()) != [] && old(Owners())[0] == own
              then && Owners() == old(Owners())[1..] && own' == own
                   && (if old(items) == [] then woken == None && items == []
                       else woken == Some(old(items)[0].h) && items == old(items)[1..])
              else Owners() == old(Owners()) && own' == old(tid) && woken == None && items == old(items)
    {
      own', woken := own, None;
      if tid == own {
        tid := 0;
        var before := waiter;
        waiter := (waiter + UINT_RANGE - 1) % UINT_RANGE;
        assert waiter == before - 1;
        if before > 1 {
          var h := HandOver();
          woken := Some(h);
        }
      } else {
        own' := tid;
      }
    }
  }
}
