/** One event loop (ICU) with all its descriptors, against a kernel that reports readiness by
    edges. The loop's own code is single-threaded; data may arrive, and work may be posted,
    between any two of its steps, in particular between a failing system call inside a
    callback and the clearing of the cached bits that follows it. */
module EventLoop {
  import opened FileWaitQueue
  import opened Options

  type Fd = nat

  /** `ready` and `edge` are the kernel's: what the descriptor is ready for now, and what it has
      become ready for and not yet reported. The rest is the FileWQ. */
  datatype Queue = Queue(ready: Word, edge: Word, revents: Word, waked: bool, items: seq<WaitItem>)

  /** Work posted with queueInLoop: a FileAwaiter's registration of a waiter. */
  datatype Func = AddWaiter(fd: Fd, w: WaitItem)

  datatype LoopPc =
    | Draining
    | Walking(i: nat)                       // list_[i] is next
    | Waking(i: nat, j: nat)                // in wakeup of list_[i], at its item j
    | Answered(i: nat, j: nat, a: IoRet)    // the callback of that item has returned
    | Waiting                               // about to call epoll_wait

  datatype State = State(qs: map<Fd, Queue>, list: seq<Fd>, funcs: seq<Func>, pc: LoopPc)

  datatype Report = Report(fd: Fd, events: Word)

  datatype Action =
    | Arrive(fd: Fd, bits: Word)            // the descriptor becomes ready
    | Subside(fd: Fd, bits: Word)           // it stops being ready
    | Register(fd: Fd, bits: Word)          // a new descriptor enters the epoll set
    | Post(f: Func)
    | Expire(fd: Fd, j: nat)                // the timer queue's pass times a waiter out
    | Syscall(a: IoRet, drained: Word)      // the callback at hand runs and answers `a`
    | Loop                                  // the loop's next own step
    | EpollWait(reports: seq<Report>)

  const INIT: State := State(map[], [], [], Draining)

  /** What can be reported for a descriptor: the events all of them enter the epoll set with, and
      the two that are reported unasked. */
  const REPORTED: Word := {IN, OUT, RDHUP, ERR, HUP}

  /** The queue under hand and the item a callback would be called for. */
  predicate AtItem(s: State, i: nat, j: nat) {
    i < |s.list| && s.list[i] in s.qs && j < |s.qs[s.list[i]].items|
  }

  /** What epoll_wait may report for one descriptor: all of its edges that still are ready, and
      nothing that neither is ready nor was. */
  predicate Honest(q: Queue, events: Word) {
    q.edge * q.ready <= events <= q.ready + q.edge
  }

  /** An answer a callback can give: it keeps the contract, and says `exhausted` only when its
      system call found, or left, the descriptor not ready for any bit of the mask. */
  predicate Truthful(q: Queue, w: WaitItem, a: IoRet, drained: Word) {
    Keeps(a, w, Hit(w, q.revents)) && (a.exhausted ==> (q.ready - drained) * w.events == {})
  }

  predicate Enabled(s: State, a: Action) {
    match a
    case Arrive(fd, bits) => fd in s.qs && bits <= REPORTED
    case Subside(fd, _) => fd in s.qs
    case Register(fd, bits) => fd !in s.qs && bits <= REPORTED
    case Post(f) => f.fd in s.qs && RDHUP !in f.w.events
    case Expire(fd, j) => s.pc.Walking? && fd in s.qs && j < |s.qs[fd].items|
    case Syscall(a, drained) =>
      && s.pc.Waking? && AtItem(s, s.pc.i, s.pc.j)
      && var q := s.qs[s.list[s.pc.i]];
         q.items[s.pc.j].hasCb && Hit(q.items[s.pc.j], q.revents) != {} && Truthful(q, q.items[s.pc.j], a, drained)
    case Loop => LoopEnabled(s)
    case EpollWait(reports) =>
      && s.pc == Waiting
      && (forall k :: 0 <= k < |reports| ==> reports[k].fd in s.qs && Honest(s.qs[reports[k].fd], reports[k].events))
      && (forall k, l :: 0 <= k < l < |reports| ==> reports[k].fd != reports[l].fd)
  }

  predicate LoopEnabled(s: State) {
    match s.pc
    case Draining => s.funcs != [] ==> s.funcs[0].fd in s.qs
    case Walking(i) => i < |s.list| ==> s.list[i] in s.qs
    case Waking(i, j) =>
      && i < |s.list| && s.list[i] in s.qs
      && var q := s.qs[s.list[i]];
         j < |q.items| && Hit(q.items[j], q.revents) != {} ==> !q.items[j].hasCb
    case Answered(i, j, _) => AtItem(s, i, j)
    case Waiting => false
  }

  /** ICU::wakeWQ. */
  function WakeWQ(s: State, fd: Fd): State
    requires fd in s.qs
  {
    if s.qs[fd].waked then s
    else s.(qs := s.qs[fd := s.qs[fd].(waked := true)], list := s.list + [fd])
  }

  function Erase(items: seq<WaitItem>, j: nat): seq<WaitItem>
    requires j < |items|
  {
    items[..j] + items[j + 1..]
  }

  /** The loop's own steps. */
  function LoopStep(s: State): State
    requires Enabled(s, Loop)
  {
    match s.pc
    case Draining =>
      if s.funcs == [] then s.(pc := Walking(0))
      else
        var f := s.funcs[0];
        var q := s.qs[f.fd];
        WakeWQ(s.(qs := s.qs[f.fd := q.(items := q.items + [f.w])], funcs := s.funcs[1..]), f.fd)
    case Walking(i) =>
      if i < |s.list| then s.(qs := s.qs[s.list[i] := s.qs[s.list[i]].(waked := false)], pc := Waking(i, 0))
      else s.(list := [], pc := Waiting)
    case Waking(i, j) =>
      var q := s.qs[s.list[i]];
      if j >= |q.items| || q.revents == {} then s.(pc := Walking(i + 1))
      else if Hit(q.items[j], q.revents) == {} then s.(pc := Waking(i, j + 1))
      else s.(qs := s.qs[s.list[i] := q.(items := Erase(q.items, j))])
    case Answered(i, j, a) =>
      var q := s.qs[s.list[i]];
      var left := if a.exhausted then q.revents - q.items[j].events else q.revents;
      s.(qs := s.qs[s.list[i] := q.(revents := left, items := if a.block then q.items else Erase(q.items, j))],
         pc := Waking(i, j))
  }

  /** IRQPoll::waitIRQ's loop over the reported events. */
  function Collect(s: State, reports: seq<Report>): State
    requires forall k :: 0 <= k < |reports| ==> reports[k].fd in s.qs
    decreases |reports|
  {
    if reports == [] then s
    else
      var r := reports[0];
      var q := s.qs[r.fd];
      Collect(s.(qs := s.qs[r.fd := q.(edge := {}, revents := q.revents + r.events, waked := true)],
                 list := s.list + [r.fd]), reports[1..])
  }

  function Apply(s: State, a: Action): State
    requires Enabled(s, a)
  {
    match a
    case Arrive(fd, bits) =>
      var q := s.qs[fd]; s.(qs := s.qs[fd := q.(ready := q.ready + bits, edge := q.edge + bits)])
    case Subside(fd, bits) =>
      var q := s.qs[fd]; s.(qs := s.qs[fd := q.(ready := q.ready - bits)])
    case Register(fd, bits) => s.(qs := s.qs[fd := Queue(bits, bits, {}, false, [])])
    case Post(f) => s.(funcs := s.funcs + [f])
    case Expire(fd, j) => s.(qs := s.qs[fd := s.qs[fd].(items := Erase(s.qs[fd].items, j))])
    case Syscall(a, drained) =>
      var fd := s.list[s.pc.i];
      s.(qs := s.qs[fd := s.qs[fd].(ready := s.qs[fd].ready - drained)], pc := Answered(s.pc.i, s.pc.j, a))
    case Loop => LoopStep(s)
    case EpollWait(reports) => Collect(s, reports).(pc := Draining)
  }

  predicate Run(s: State, acts: seq<Action>)
    decreases |acts|
  {
    acts == [] || (Enabled(s, acts[0]) && Run(Apply(s, acts[0]), acts[1..]))
  }

  function Exec(s: State, acts: seq<Action>): State
    requires Run(s, acts)
    decreases |acts|
  {
    if acts == [] then s else Exec(Apply(s, acts[0]), acts[1..])
  }

  // ---------------------------------------------------------------- the invariant

  /** From where in list_ on the queues are still to be dispatched in this round. */
  function From(s: State): nat {
    match s.pc
    case Draining => 0
    case Walking(i) => i
    case Waking(i, _) => i + 1
    case Answered(i, _, _) => i + 1
    case Waiting => 0
  }

  ghost predicate ToDispatch(s: State, fd: Fd) {
    exists k :: From(s) <= k < |s.list| && s.list[k] == fd
  }

  /** The bits a callback has just found not ready and whose clearing is the next step. */
  function Doubtful(s: State, fd: Fd): Word {
    if s.pc.Answered? && AtItem(s, s.pc.i, s.pc.j) && s.list[s.pc.i] == fd && s.pc.a.exhausted
    then s.qs[fd].items[s.pc.j].events
    else {}
  }

  /** Readiness is never forgotten: the kernel will report it, or it is cached and not about to
      be cleared. */
  ghost predicate Remembered(s: State, fd: Fd)
    requires fd in s.qs
  {
    var q := s.qs[fd];
    forall b :: b in q.ready ==> b in q.edge || (b in q.revents && b !in Doubtful(s, fd))
  }

  predicate InHand(s: State, fd: Fd) {
    (s.pc.Waking? || s.pc.Answered?) && s.pc.i < |s.list| && s.list[s.pc.i] == fd
  }

  /** How many waiters the pass at hand has gone by. */
  function Passed(s: State, fd: Fd): nat
    requires fd in s.qs
  {
    if InHand(s, fd) then (if s.pc.j <= |s.qs[fd].items| then s.pc.j else |s.qs[fd].items|) else |s.qs[fd].items|
  }

  /** No cached readiness concerns a waiter, but for queues still to be dispatched. */
  ghost predicate Served(s: State, fd: Fd)
    requires fd in s.qs
  {
    ToDispatch(s, fd) || forall j :: 0 <= j < Passed(s, fd) ==> Quiet(s.qs[fd].items[j], s.qs[fd].revents)
  }

  ghost predicate Shape(s: State) {
    && (forall k :: 0 <= k < |s.list| ==> s.list[k] in s.qs)
    && (forall k :: 0 <= k < |s.funcs| ==> s.funcs[k].fd in s.qs && RDHUP !in s.funcs[k].w.events)
    && (s.pc.Waking? ==> s.pc.i < |s.list|)
    && (s.pc.Answered? ==> AtItem(s, s.pc.i, s.pc.j))
    && (s.pc == Waiting ==> s.list == [])
  }

  predicate Reportable(q: Queue) {
    q.ready <= REPORTED && q.edge <= REPORTED && q.revents <= REPORTED
  }

  ghost predicate QueueOk(s: State, fd: Fd)
    requires fd in s.qs
  {
    && Remembered(s, fd) && Served(s, fd) && (s.qs[fd].waked ==> ToDispatch(s, fd))
    && Reportable(s.qs[fd])
  }

  ghost predicate Inv(s: State) {
    Shape(s) && forall fd :: fd in s.qs ==> QueueOk(s, fd)
  }

  /** Why answers must be truthful: readiness survives the clearing after an answer exactly if an
      exhausted one leaves the descriptor ready for no bit of the mask, but for edges still to be
      reported. This is what `Truthful` asks for. */
  lemma ClearingSafeExactly(q: Queue, w: WaitItem, a: IoRet, drained: Word)
    requires q.ready <= q.edge + q.revents
    ensures var left := if a.exhausted then q.revents - w.events else q.revents;
            q.ready - drained <= q.edge + left <==> (a.exhausted ==> (q.ready - drained) * w.events <= q.edge)
  {
    var left := if a.exhausted then q.revents - w.events else q.revents;
    if a.exhausted && q.ready - drained <= q.edge + left {
      forall b | b in (q.ready - drained) * w.events ensures b in q.edge {
        assert b in q.edge + left;
      }
    }
  }

  // ---------------------------------------------------------------- preservation

  lemma KernelInv(s: State, a: Action)
    requires Inv(s) && Enabled(s, a) && (a.Arrive? || a.Subside? || a.Register? || a.Post?)
    ensures Inv(Apply(s, a))
  {
    var s' := Apply(s, a);
    forall fd | fd in s'.qs ensures QueueOk(s', fd) {
      if fd in s.qs { assert QueueOk(s, fd); }
    }
  }

  lemma ExpireInv(s: State, fd: Fd, j: nat)
    requires Inv(s) && Enabled(s, Expire(fd, j))
    ensures Inv(Apply(s, Expire(fd, j)))
  {
    var s' := Apply(s, Expire(fd, j));
    forall g | g in s'.qs ensures QueueOk(s', g) {
      assert QueueOk(s, g);
      if ToDispatch(s, g) {
        var k :| From(s) <= k < |s.list| && s.list[k] == g;
        assert s'.list[k] == g;
      }
    }
  }

  lemma SyscallInv(s: State, a: IoRet, drained: Word)
    requires Inv(s) && Enabled(s, Syscall(a, drained))
    ensures Inv(Apply(s, Syscall(a, drained)))
  {
  }

  lemma DrainInv(s: State)
    requires Inv(s) && s.pc == Draining && Enabled(s, Loop)
    ensures Inv(LoopStep(s))
  {
    var s' := LoopStep(s);
    if s.funcs != [] {
      var f := s.funcs[0];
      forall fd | fd in s'.qs ensures QueueOk(s', fd) {
        assert QueueOk(s, fd);
        if ToDispatch(s, fd) {
          var k :| From(s) <= k < |s.list| && s.list[k] == fd;
          assert s'.list[k] == fd;
        }
        if fd == f.fd && !s.qs[fd].waked { assert s'.list[|s.list|] == fd; }
      }
    } else {
      forall fd | fd in s'.qs ensures QueueOk(s', fd) {
        assert QueueOk(s, fd);
      }
    }
  }

  lemma WalkInv(s: State)
    requires Inv(s) && s.pc.Walking? && Enabled(s, Loop)
    ensures Inv(LoopStep(s))
  {
  }

  lemma WakeInv(s: State)
    requires Inv(s) && s.pc.Waking? && Enabled(s, Loop)
    ensures Inv(LoopStep(s))
  {
    var s' := LoopStep(s);
    forall fd | fd in s'.qs ensures QueueOk(s', fd) {
      assert QueueOk(s, fd);
    }
  }

  lemma AnswerInv(s: State)
    requires Inv(s) && s.pc.Answered? && Enabled(s, Loop)
    ensures Inv(LoopStep(s))
  {
    var s' := LoopStep(s);
    forall fd | fd in s'.qs ensures QueueOk(s', fd) {
      assert QueueOk(s, fd);
    }
  }

  lemma {:induction false} CollectInv(s: State, reports: seq<Report>)
    requires Inv(s.(pc := Draining))
    requires forall k :: 0 <= k < |reports| ==> reports[k].fd in s.qs && Honest(s.qs[reports[k].fd], reports[k].events)
    requires forall k, l :: 0 <= k < l < |reports| ==> reports[k].fd != reports[l].fd
    ensures Inv(Collect(s, reports).(pc := Draining))
    decreases |reports|
  {
    if reports != [] {
      var r := reports[0];
      var q := s.qs[r.fd];
      var s' := s.(qs := s.qs[r.fd := q.(edge := {}, revents := q.revents + r.events, waked := true)],
                   list := s.list + [r.fd]);
      forall fd | fd in s'.qs ensures QueueOk(s'.(pc := Draining), fd) {
        var t := s.(pc := Draining);
        assert QueueOk(t, fd);
        assert s'.list[|s.list|] == r.fd;
        if ToDispatch(t, fd) {
          var k :| From(t) <= k < |t.list| && t.list[k] == fd;
          assert s'.list[k] == fd;
        }
      }
      CollectInv(s', reports[1..]);
    }
  }

  lemma NextInv(s: State, a: Action)
    requires Inv(s) && Enabled(s, a)
    ensures Inv(Apply(s, a))
  {
    match a
    case Syscall(r, drained) => SyscallInv(s, r, drained);
    case EpollWait(reports) => WaitingAsDraining(s); CollectInv(s, reports);
    case Loop => LoopInv(s);
    case Expire(fd, j) => ExpireInv(s, fd, j);
    case _ => KernelInv(s, a);
  }

  lemma LoopInv(s: State)
    requires Inv(s) && Enabled(s, Loop)
    ensures Inv(LoopStep(s))
  {
    match s.pc
    case Draining => DrainInv(s);
    case Walking(_) => WalkInv(s);
    case Waking(_, _) => WakeInv(s);
    case Answered(_, _, _) => AnswerInv(s);
  }

  lemma WaitingAsDraining(s: State)
    requires Inv(s) && s.pc == Waiting
    ensures Inv(s.(pc := Draining))
  {
  }

  lemma {:induction false} RunInv(s: State, acts: seq<Action>)
    requires Inv(s) && Run(s, acts)
    ensures Inv(Exec(s, acts))
    decreases |acts|
  {
    if acts != [] {
      NextInv(s, acts[0]);
      RunInv(Apply(s, acts[0]), acts[1..]);
    }
  }

  lemma QuietHasNot(w: WaitItem, revents: Word, b: Bit)
    requires Quiet(w, revents) && b in w.events + {RDHUP}
    ensures b !in revents
  {
    assert b !in revents * (w.events + {RDHUP});
  }

  /** No lost wake-up, in every run: whenever the loop is about to wait, everything that concerns a
      waiter, be it in its mask or a hang-up, and that its descriptor is ready for, is an edge the
      kernel has yet to report; and no queue is left marked as woken, so that the next wakeWQ is
      not skipped. */
  lemma NoLostWakeUp(acts: seq<Action>, fd: Fd)
    requires Run(INIT, acts) && Exec(INIT, acts).pc == Waiting && fd in Exec(INIT, acts).qs
    ensures var q := Exec(INIT, acts).qs[fd];
            && !q.waked
            && forall j :: 0 <= j < |q.items| ==> q.ready * (q.items[j].events + {RDHUP}) <= q.edge
  {
    RunInv(INIT, acts);
    var s := Exec(INIT, acts);
    var q := s.qs[fd];
    assert QueueOk(s, fd) && !ToDispatch(s, fd);
    forall j, b | 0 <= j < |q.items| && b in q.ready * (q.items[j].events + {RDHUP}) ensures b in q.edge {
      assert b in q.edge || b in q.revents;
      QuietHasNot(q.items[j], q.revents, b);
    }
  }

  /** The answers of accept and readv, whose mask holds PRI too, are truthful in every run: EWOULDBLOCK,
      which says nothing about PRI, is so if and only if IN was reported and IN is not ready now, and
      any other outcome is so in any case. */
  lemma ReaderTruthfulExactly(acts: seq<Action>, fd: Fd, w: WaitItem, r: SysRet, drained: Word)
    requires Run(INIT, acts) && fd in Exec(INIT, acts).qs && w.events == READ_MASK
    ensures var q := Exec(INIT, acts).qs[fd];
            Truthful(q, w, ReadAnswer(r), drained) <==>
              (r == WouldBlock ==> IN in q.revents && IN !in q.ready - drained)
  {
    RunInv(INIT, acts);
    var q := Exec(INIT, acts).qs[fd];
    assert QueueOk(Exec(INIT, acts), fd);
    assert PRI !in q.ready && PRI !in q.revents;
    assert IN in q.revents ==> IN in Hit(w, q.revents) * w.events;
    assert IN in q.ready - drained ==> IN in (q.ready - drained) * w.events;
  }

  // ---------------------------------------------------------------- the waiters of a run

  /** The waiters that posted work is going to register with `fd`, in order. */
  function ToRegister(funcs: seq<Func>, fd: Fd): seq<WaitItem> {
    if funcs == [] then [] else (if funcs[0].fd == fd then [funcs[0].w] else []) + ToRegister(funcs[1..], fd)
  }

  lemma {:induction false} ToRegisterMore(funcs: seq<Func>, f: Func, fd: Fd)
    ensures ToRegister(funcs + [f], fd) == ToRegister(funcs, fd) + if f.fd == fd then [f.w] else []
  {
    if funcs == [] {
      assert funcs + [f] == [f];
    } else {
      ToRegisterMore(funcs[1..], f, fd);
      assert (funcs + [f])[1..] == funcs[1..] + [f];
    }
  }

  /** Who waits for `fd`: those in its queue, and those who will be when the posted work is done. */
  function Waiters(s: State, fd: Fd): seq<WaitItem> {
    (if fd in s.qs then s.qs[fd].items else []) + ToRegister(s.funcs, fd)
  }

  /** The place of the waiter of `fd` whose wait an action ends: the one that times out, or the one
      at hand if it has no callback or its callback does not go on waiting. */
  function Leaves(s: State, a: Action, fd: Fd): Option<nat>
    requires Enabled(s, a)
  {
    match a
    case Expire(g, j) => if g == fd then Some(j) else None
    case Loop =>
      (match s.pc
       case Waking(i, j) =>
         if s.list[i] == fd && AtItem(s, i, j) && Hit(s.qs[fd].items[j], s.qs[fd].revents) != {} then Some(j) else None
       case Answered(i, j, r) => if s.list[i] == fd && !r.block then Some(j) else None
       case _ => None)
    case _ => None
  }

  /** What each action does to the waiters of a descriptor: posting adds one at the end, ending a
      wait takes exactly that one out, and nothing else, draining the posted work included, loses,
      adds or moves any. */
  lemma WaitersMove(s: State, a: Action, fd: Fd)
    requires Shape(s) && Enabled(s, a)
    ensures var w, w', l := Waiters(s, fd), Waiters(Apply(s, a), fd), Leaves(s, a, fd);
            if l != None then l.value < |w| && w' == w[..l.value] + w[l.value + 1..]
            else w' == w + Posted(a, fd)
  {
    match a
    case Post(f) => ToRegisterMore(s.funcs, f, fd); PostedLast(s, f, fd);
    case Loop => LoopMovesWaiters(s, fd);
    case Expire(g, j) => ExpireMovesWaiters(s, g, j, fd);
    case EpollWait(reports) => CollectKeepsWaiters(s, reports, fd);
    case _ => KernelKeepsWaiters(s, a, fd);
  }

  lemma ExpireMovesWaiters(s: State, g: Fd, j: nat, fd: Fd)
    requires Enabled(s, Expire(g, j))
    ensures var w, w' := Waiters(s, fd), Waiters(Apply(s, Expire(g, j)), fd);
            if g == fd then j < |w| && w' == w[..j] + w[j + 1..] else w' == w
  {
    if g == fd { TakenOut(s.qs[fd].items, ToRegister(s.funcs, fd), j); }
  }

  lemma KernelKeepsWaiters(s: State, a: Action, fd: Fd)
    requires Shape(s) && Enabled(s, a) && (a.Arrive? || a.Subside? || a.Register? || a.Syscall?)
    ensures Waiters(Apply(s, a), fd) == Waiters(s, fd)
  {
    if a.Register? && a.fd == fd { NothingPosted(s.funcs, fd); }
  }

  lemma PostedLast(s: State, f: Func, fd: Fd)
    requires ToRegister(s.funcs + [f], fd) == ToRegister(s.funcs, fd) + if f.fd == fd then [f.w] else []
    ensures Waiters(s.(funcs := s.funcs + [f]), fd) == Waiters(s, fd) + if f.fd == fd then [f.w] else []
  {
  }

  lemma TakenOut(items: seq<WaitItem>, more: seq<WaitItem>, j: nat)
    requires j < |items|
    ensures Erase(items, j) + more == (items + more)[..j] + (items + more)[j + 1..]
  {
  }

  lemma {:induction false} NothingPosted(funcs: seq<Func>, fd: Fd)
    requires forall k :: 0 <= k < |funcs| ==> funcs[k].fd != fd
    ensures ToRegister(funcs, fd) == []
  {
    if funcs != [] { NothingPosted(funcs[1..], fd); }
  }

  lemma LoopMovesWaiters(s: State, fd: Fd)
    requires Shape(s) && Enabled(s, Loop)
    ensures var w, w', l := Waiters(s, fd), Waiters(LoopStep(s), fd), Leaves(s, Loop, fd);
            if l != None then l.value < |w| && w' == w[..l.value] + w[l.value + 1..] else w' == w
  {
    match s.pc
    case Draining => if s.funcs != [] { DrainKeepsWaiters(s, fd); }
    case Walking(_) =>
    case Waking(i, j) =>
      if Leaves(s, Loop, fd) != None { TakenOut(s.qs[fd].items, ToRegister(s.funcs, fd), j); }
    case Answered(i, j, r) =>
      if Leaves(s, Loop, fd) != None { TakenOut(s.qs[fd].items, ToRegister(s.funcs, fd), j); }
  }

  /** Registering the first of the posted waiters moves it from the work to the end of its queue. */
  lemma DrainKeepsWaiters(s: State, fd: Fd)
    requires s.pc == Draining && s.funcs != [] && s.funcs[0].fd in s.qs
    ensures Waiters(LoopStep(s), fd) == Waiters(s, fd)
  {
    var f, rest := s.funcs[0], ToRegister(s.funcs[1..], fd);
    if f.fd == fd { Regroup(s.qs[fd].items, f.w, rest); }
  }

  lemma Regroup(a: seq<WaitItem>, w: WaitItem, b: seq<WaitItem>)
    ensures (a + [w]) + b == a + ([w] + b)
  {
  }

  lemma {:induction false} CollectKeepsWaiters(s: State, reports: seq<Report>, fd: Fd)
    requires forall k :: 0 <= k < |reports| ==> reports[k].fd in s.qs
    ensures Waiters(Collect(s, reports), fd) == Waiters(s, fd)
    decreases |reports|
  {
    if reports != [] {
      var r := reports[0];
      var q := s.qs[r.fd];
      CollectKeepsWaiters(s.(qs := s.qs[r.fd := q.(edge := {}, revents := q.revents + r.events, waked := true)],
                             list := s.list + [r.fd]), reports[1..], fd);
    }
  }

  /** The waiter an action posts for `fd`, and the one whose wait it ends. */
  function Posted(a: Action, fd: Fd): seq<WaitItem> {
    if a.Post? && a.f.fd == fd then [a.f.w] else []
  }

  function Ended(s: State, a: Action, fd: Fd): seq<WaitItem>
    requires Enabled(s, a)
  {
    var l := Leaves(s, a, fd);
    if l != None && l.value < |Waiters(s, fd)| then [Waiters(s, fd)[l.value]] else []
  }

  function AllPosted(acts: seq<Action>, fd: Fd): seq<WaitItem> {
    if acts == [] then [] else Posted(acts[0], fd) + AllPosted(acts[1..], fd)
  }

  function AllEnded(s: State, acts: seq<Action>, fd: Fd): seq<WaitItem>
    requires Run(s, acts)
    decreases |acts|
  {
    if acts == [] then [] else Ended(s, acts[0], fd) + AllEnded(Apply(s, acts[0]), acts[1..], fd)
  }

  lemma StepConservesWaiters(s: State, a: Action, fd: Fd)
    requires Shape(s) && Enabled(s, a)
    ensures multiset(Waiters(Apply(s, a), fd)) + multiset(Ended(s, a, fd)) ==
            multiset(Waiters(s, fd)) + multiset(Posted(a, fd))
  {
    WaitersMove(s, a, fd);
    MovedConserves(Waiters(s, fd), Waiters(Apply(s, a), fd), Leaves(s, a, fd), Posted(a, fd));
  }

  lemma MovedConserves(w: seq<WaitItem>, w': seq<WaitItem>, l: Option<nat>, p: seq<WaitItem>)
    requires if l != None then l.value < |w| && w' == w[..l.value] + w[l.value + 1..] && p == [] else w' == w + p
    ensures multiset(w') + multiset(if l != None then [w[l.value]] else []) == multiset(w) + multiset(p)
  {
    if l != None { assert w == w[..l.value] + [w[l.value]] + w[l.value + 1..]; }
  }

  /** Over every run, each waiter posted for a descriptor is still to be registered, in its queue, or
      has ended its wait, exactly one of these and once. */
  lemma {:induction false} WaitersConserved(s: State, acts: seq<Action>, fd: Fd)
    requires Inv(s) && Run(s, acts)
    ensures multiset(Waiters(Exec(s, acts), fd)) + multiset(AllEnded(s, acts, fd)) ==
            multiset(Waiters(s, fd)) + multiset(AllPosted(acts, fd))
    decreases |acts|
  {
    if acts != [] {
      var a, s1 := acts[0], Apply(s, acts[0]);
      NextInv(s, a);
      WaitersConserved(s1, acts[1..], fd);
      StepConservesWaiters(s, a, fd);
      SumsUp(Waiters(s, fd), Waiters(s1, fd), Waiters(Exec(s, acts), fd), Posted(a, fd), Ended(s, a, fd),
             AllPosted(acts[1..], fd), AllEnded(s1, acts[1..], fd));
    }
  }

  lemma SumsUp(w0: seq<WaitItem>, w1: seq<WaitItem>, w2: seq<WaitItem>, p: seq<WaitItem>, e: seq<WaitItem>,
               p': seq<WaitItem>, e': seq<WaitItem>)
    requires multiset(w1) + multiset(e) == multiset(w0) + multiset(p)
    requires multiset(w2) + multiset(e') == multiset(w1) + multiset(p')
    ensures multiset(w2) + multiset(e + e') == multiset(w0) + multiset(p + p')
  {
    var me, mp := multiset(e), multiset(p');
    assert multiset(w2) + multiset(e + e') == (multiset(w2) + multiset(e')) + me;
    assert (multiset(w1) + mp) + me == (multiset(w1) + me) + mp;
    assert multiset(w0) + multiset(p + p') == (multiset(w0) + multiset(p)) + mp;
  }

  // ---------------------------------------------------------------- the loop gets round

  /** The answer at hand is one the item's callback can give. */
  ghost predicate AnswerKept(s: State) {
    s.pc.Answered? && AtItem(s, s.pc.i, s.pc.j) ==>
      var q := s.qs[s.list[s.pc.i]];
      Hit(q.items[s.pc.j], q.revents) != {} && Keeps(s.pc.a, q.items[s.pc.j], Hit(q.items[s.pc.j], q.revents))
  }

  lemma StepKeepsAnswer(s: State, a: Action)
    requires Inv(s) && AnswerKept(s) && Enabled(s, a)
    ensures AnswerKept(Apply(s, a))
  {
  }

  /** How far the loop is from waiting, in lexical order. */
  datatype Rank = Rank(phase: nat, rounds: nat, items: nat, bits: nat, answer: nat)

  predicate Less(a: Rank, b: Rank) {
    || a.phase < b.phase
    || (a.phase == b.phase && a.rounds < b.rounds)
    || (a.phase == b.phase && a.rounds == b.rounds && a.items < b.items)
    || (a.phase == b.phase && a.rounds == b.rounds && a.items == b.items && a.bits < b.bits)
    || (a.phase == b.phase && a.rounds == b.rounds && a.items == b.items && a.bits == b.bits && a.answer < b.answer)
  }

  function Minus(a: nat, b: nat): nat {
    if a >= b then a - b else 0
  }

  function RankAt(s: State, i: nat, j: nat, answer: nat): Rank {
    if i < |s.list| && s.list[i] in s.qs
    then Rank(1, 2 * (|s.list| - i), Minus(|s.qs[s.list[i]].items|, j), |s.qs[s.list[i]].revents|, answer)
    else Rank(1, 0, 0, 0, answer)
  }

  function RankOf(s: State): Rank {
    match s.pc
    case Draining => Rank(2, |s.funcs|, 0, 0, 0)
    case Walking(i) => Rank(1, 2 * Minus(|s.list|, i) + 1, 0, 0, 0)
    case Waking(i, j) => RankAt(s, i, j, 1)
    case Answered(i, j, _) => RankAt(s, i, j, 0)
    case Waiting => Rank(0, 0, 0, 0, 0)
  }

  /** Every step of the loop, and every callback, brings the loop closer to waiting, whatever the
      callbacks answer: it does not turn for ever. */
  lemma LoopAdvances(s: State, a: Action)
    requires Inv(s) && AnswerKept(s) && Enabled(s, a) && (a == Loop || a.Syscall?)
    ensures Less(RankOf(Apply(s, a)), RankOf(s))
  {
    match s.pc
    case Draining =>
    case Walking(_) =>
    case Waking(i, j) =>
    case Answered(i, j, r) => AnswerAdvances(s);
  }

  lemma AnswerAdvances(s: State)
    requires Inv(s) && AnswerKept(s) && s.pc.Answered?
    ensures Enabled(s, Loop) && Less(RankOf(LoopStep(s)), RankOf(s))
  {
    var q := s.qs[s.list[s.pc.i]];
    if s.pc.a.block {
      Shrinks(q.items[s.pc.j], q.revents, s.pc.a, q.revents - q.items[s.pc.j].events);
    }
  }

  const ALL_DONE: IoRet := IoRet(0, false, false)

  /** And it is never stuck before: its next own step is enabled, or a callback is due, which can
      answer in some way. */
  lemma LoopGoesOn(s: State) returns (a: Action)
    requires Inv(s) && s.pc != Waiting
    ensures (a == Loop || a == Syscall(ALL_DONE, {})) && Enabled(s, a)
  {
    a := Loop;
    if s.pc.Waking? && !Enabled(s, Loop) { a := Syscall(ALL_DONE, {}); }
  }

  /** So the loop comes to wait, by its own steps and its callbacks alone. */
  lemma {:induction false} LoopReachesWait(s: State) returns (acts: seq<Action>)
    requires Inv(s) && AnswerKept(s)
    ensures Run(s, acts) && Exec(s, acts).pc == Waiting
    ensures forall i :: 0 <= i < |acts| ==> acts[i] == Loop || acts[i].Syscall?
    decreases RankOf(s).phase, RankOf(s).rounds, RankOf(s).items, RankOf(s).bits, RankOf(s).answer
  {
    acts := [];
    if s.pc != Waiting {
      var a := LoopGoesOn(s);
      NextInv(s, a);
      StepKeepsAnswer(s, a);
      LoopAdvances(s, a);
      var more := LoopReachesWait(Apply(s, a));
      acts := [a] + more;
      assert acts[1..] == more;
    }
  }

  lemma {:induction false} RunKeepsAnswer(s: State, acts: seq<Action>)
    requires Inv(s) && AnswerKept(s) && Run(s, acts)
    ensures Inv(Exec(s, acts)) && AnswerKept(Exec(s, acts))
    decreases |acts|
  {
    if acts != [] {
      NextInv(s, acts[0]);
      StepKeepsAnswer(s, acts[0]);
      RunKeepsAnswer(Apply(s, acts[0]), acts[1..]);
    }
  }

  /** It does so from every state of every run; and then, by NoLostWakeUp, nothing cached concerns
      any waiter. */
  lemma EveryRunReachesWait(acts: seq<Action>) returns (more: seq<Action>)
    requires Run(INIT, acts)
    ensures Run(Exec(INIT, acts), more) && Exec(Exec(INIT, acts), more).pc == Waiting
    ensures forall i :: 0 <= i < |more| ==> more[i] == Loop || more[i].Syscall?
  {
    RunKeepsAnswer(INIT, acts);
    more := LoopReachesWait(Exec(INIT, acts));
  }

  /** Readiness that arrives while the loop waits reaches the waiters it concerns: epoll_wait can
      return with it, and then it is cached, its queue is to be dispatched, and each such waiter
      is one that the pass calls or completes. */
  lemma ArrivalIsReported(s: State, fd: Fd, bits: Word, j: nat) returns (r: Report, s': State)
    requires Inv(s) && s.pc == Waiting && fd in s.qs && bits <= REPORTED && j < |s.qs[fd].items|
    requires bits * (s.qs[fd].items[j].events + {RDHUP}) != {}
    ensures Run(s, [Arrive(fd, bits), EpollWait([r])]) && s' == Exec(s, [Arrive(fd, bits), EpollWait([r])])
    ensures s'.qs.Keys == s.qs.Keys && s'.funcs == s.funcs
    ensures r.fd == fd && s'.pc == Draining && s'.list == [fd] && s'.qs[fd].items == s.qs[fd].items
    ensures bits <= s'.qs[fd].ready * s'.qs[fd].revents && s'.qs[fd].edge == {}
    ensures Hit(s'.qs[fd].items[j], s'.qs[fd].revents) != {}
    ensures forall g :: g in s.qs && g != fd ==> s'.qs[g] == s.qs[g]
  {
    var q := s.qs[fd];
    r := Report(fd, q.ready + bits);
    var s1 := s.(qs := s.qs[fd := q.(ready := q.ready + bits, edge := q.edge + bits)]);
    s' := s.(qs := s.qs[fd := q.(ready := q.ready + bits, edge := {}, revents := q.revents + r.events, waked := true)],
             list := [fd], pc := Draining);
    assert Enabled(s1, EpollWait([r]));
    CollectsOne(s1, r);
    TwoActions(s, Arrive(fd, bits), EpollWait([r]), s');
    var b :| b in bits * (q.items[j].events + {RDHUP});
    assert b in Hit(q.items[j], q.revents + r.events);
  }

  lemma CollectsOne(s: State, r: Report)
    requires r.fd in s.qs && s.list == []
    ensures var q := s.qs[r.fd];
            Collect(s, [r]) ==
            s.(qs := s.qs[r.fd := q.(edge := {}, revents := q.revents + r.events, waked := true)], list := [r.fd])
  {
    assert [r][1..] == [] && [] + [r.fd] == [r.fd];
  }

  lemma TwoActions(s: State, a: Action, b: Action, s': State)
    requires Enabled(s, a) && Enabled(Apply(s, a), b) && Apply(Apply(s, a), b) == s'
    ensures Run(s, [a, b]) && Exec(s, [a, b]) == s'
  {
    assert [a, b][1..] == [b] && [b][1..] == [];
    assert Run(s', []) && Exec(s', []) == s';
    assert Run(Apply(s, a), [b]) && Exec(Apply(s, a), [b]) == s';
  }

  /** epoll_wait hands over every report it returns with: what it says is cached, nothing of the
      descriptor is left to report, and its queue is marked and listed; others are left alone. */
  lemma {:induction false} CollectTakesAll(s: State, reports: seq<Report>)
    requires forall k :: 0 <= k < |reports| ==> reports[k].fd in s.qs
    requires forall k, l :: 0 <= k < l < |reports| ==> reports[k].fd != reports[l].fd
    ensures var s' := Collect(s, reports);
            && s'.qs.Keys == s.qs.Keys && s'.funcs == s.funcs && s.list <= s'.list
            && |s'.list| == |s.list| + |reports|
            && (forall k :: 0 <= k < |reports| ==>
                  var fd := reports[k].fd;
                  && s'.list[|s.list| + k] == fd
                  && s'.qs[fd] == s.qs[fd].(edge := {}, revents := s.qs[fd].revents + reports[k].events, waked := true))
            && (forall fd :: fd in s.qs && (forall k :: 0 <= k < |reports| ==> reports[k].fd != fd) ==>
                  s'.qs[fd] == s.qs[fd])
    decreases |reports|
  {
    CollectLists(s, reports);
    if reports != [] {
      var r := reports[0];
      var q := s.qs[r.fd];
      var s1 := s.(qs := s.qs[r.fd := q.(edge := {}, revents := q.revents + r.events, waked := true)],
                   list := s.list + [r.fd]);
      CollectTakesAll(s1, reports[1..]);
      assert forall k :: 0 < k < |reports| ==> reports[k] == reports[1..][k - 1];
    }
  }

  lemma {:induction false} CollectLists(s: State, reports: seq<Report>)
    requires forall k :: 0 <= k < |reports| ==> reports[k].fd in s.qs
    ensures var s' := Collect(s, reports);
            && s'.qs.Keys == s.qs.Keys && s'.funcs == s.funcs && s.list <= s'.list
            && |s'.list| == |s.list| + |reports|
            && (forall k :: 0 <= k < |reports| ==> s'.list[|s.list| + k] == reports[k].fd)
    decreases |reports|
  {
    if reports != [] {
      var r := reports[0];
      var q := s.qs[r.fd];
      var s1 := s.(qs := s.qs[r.fd := q.(edge := {}, revents := q.revents + r.events, waked := true)],
                   list := s.list + [r.fd]);
      CollectLists(s1, reports[1..]);
      assert forall k :: 0 < k < |reports| ==> reports[k] == reports[1..][k - 1];
    }
  }

  /** A descriptor that enters the epoll set is reported for what it is ready for then, and nobody
      waits for it yet. */
  lemma RegisterReports(s: State, fd: Fd, bits: Word)
    requires Inv(s) && fd !in s.qs && bits <= REPORTED
    ensures Enabled(s, Register(fd, bits))
    ensures var s' := Apply(s, Register(fd, bits));
            && s'.qs.Keys == s.qs.Keys + {fd} && (forall g :: g in s.qs ==> s'.qs[g] == s.qs[g])
            && s'.qs[fd].ready == s'.qs[fd].edge == bits && s'.qs[fd].revents == {} && Waiters(s', fd) == []
  {
    NothingPosted(s.funcs, fd);
  }

  /** What the kernel does to a descriptor's readiness. */
  lemma KernelMoves(s: State, a: Action, fd: Fd, b: Bit)
    requires Enabled(s, a) && fd in s.qs && !a.EpollWait?
    ensures var q, q' := s.qs[fd], Apply(s, a).qs[fd];
            && (b in q'.ready <==>
                || (a.Arrive? && a.fd == fd && b in a.bits)
                || (b in q.ready && !(a.Subside? && a.fd == fd && b in a.bits)
                    && !(a.Syscall? && s.list[s.pc.i] == fd && b in a.drained)))
            && (b in q'.edge <==> b in q.edge || (a.Arrive? && a.fd == fd && b in a.bits))
  {
  }

  // ---------------------------------------------------------------- a pass, step by step

  /** In the pass over list_[i], before or after its last step. */
  predicate InPass(s: State, i: nat, fd: Fd) {
    && i < |s.list| && s.list[i] == fd && fd in s.qs
    && (match s.pc
        case Waking(i', j) => i' == i && j <= |s.qs[fd].items|
        case Answered(i', j, a) =>
          i' == i && j < |s.qs[fd].items| && Keeps(a, s.qs[fd].items[j], Hit(s.qs[fd].items[j], s.qs[fd].revents))
        case Walking(i') => i' == i + 1
        case _ => false)
  }

  /** What the pass will leave of the waiters and the readiness of its queue. */
  ghost function Remains(s: State, i: nat, fd: Fd, cb: Answers, k: nat): (seq<WaitItem>, Word)
    requires InPass(s, i, fd) && Contract(cb)
  {
    var q := s.qs[fd];
    match s.pc
    case Waking(_, j) =>
      var o := Dispatch(q.items[j..], q.revents, cb, k); (q.items[..j] + o.rest, o.revents)
    case Answered(_, j, a) =>
      var left := if a.exhausted then q.revents - q.items[j].events else q.revents;
      var o := Dispatch(q.items[if a.block then j else j + 1..], left, cb, k);
      (q.items[..j] + o.rest, o.revents)
    case _ => (q.items, q.revents)
  }

  /** The pass makes the step `a`; callbacks answer by `cb`, of which `k` calls have been made. */
  ghost predicate PassStep(s: State, a: Action, i: nat, fd: Fd, cb: Answers, k: nat) {
    && Enabled(s, a) && !a.EpollWait? && !s.pc.Walking? && InPass(s, i, fd)
    && (a.Syscall? ==> a.a == cb(k, s.qs[fd].items[s.pc.j], Hit(s.qs[fd].items[s.pc.j], s.qs[fd].revents)))
  }

  function Calls(a: Action): nat {
    if a.Syscall? then 1 else 0
  }

  lemma WakingStepRemains(s: State, i: nat, fd: Fd, cb: Answers, k: nat)
    requires PassStep(s, Loop, i, fd, cb, k) && s.pc.Waking? && Contract(cb)
    ensures InPass(LoopStep(s), i, fd) && Remains(LoopStep(s), i, fd, cb, k) == Remains(s, i, fd, cb, k)
  {
    var q, j := s.qs[fd], s.pc.j;
    if j < |q.items| && q.revents != {} {
      var w, tail := q.items[j], q.items[j..];
      var o := Dispatch(tail[1..], q.revents, cb, k);
      assert tail[1..] == q.items[j + 1..];
      if Hit(w, q.revents) == {} {
        assert q.items[..j] + ([w] + o.rest) == q.items[..j + 1] + o.rest;
      } else {
        assert Erase(q.items, j)[..j] == q.items[..j] && Erase(q.items, j)[j..] == q.items[j + 1..];
      }
    } else {
      assert q.items[..j] + q.items[j..] == q.items;
    }
  }

  lemma AnsweredStepRemains(s: State, i: nat, fd: Fd, cb: Answers, k: nat)
    requires PassStep(s, Loop, i, fd, cb, k) && s.pc.Answered? && Contract(cb)
    ensures InPass(LoopStep(s), i, fd) && Remains(LoopStep(s), i, fd, cb, k) == Remains(s, i, fd, cb, k)
  {
  }

  lemma OtherStepRemains(s: State, a: Action, i: nat, fd: Fd, cb: Answers, k: nat)
    requires PassStep(s, a, i, fd, cb, k) && !a.Loop? && Contract(cb)
    ensures InPass(Apply(s, a), i, fd) && Remains(Apply(s, a), i, fd, cb, k + Calls(a)) == Remains(s, i, fd, cb, k)
  {
  }

  ghost predicate PassRun(s: State, acts: seq<Action>, i: nat, fd: Fd, cb: Answers, k: nat)
    decreases |acts|
  {
    acts != [] ==>
      && PassStep(s, acts[0], i, fd, cb, k)
      && PassRun(Apply(s, acts[0]), acts[1..], i, fd, cb, k + Calls(acts[0]))
  }

  lemma {:induction false} PassRunRemains(s: State, acts: seq<Action>, i: nat, fd: Fd, cb: Answers, k: nat)
    requires PassRun(s, acts, i, fd, cb, k) && InPass(s, i, fd) && Contract(cb)
    ensures Run(s, acts) && InPass(Exec(s, acts), i, fd)
    ensures exists k' :: Remains(Exec(s, acts), i, fd, cb, k') == Remains(s, i, fd, cb, k)
    decreases |acts|
  {
    if acts != [] {
      if acts[0].Loop? {
        if s.pc.Waking? { WakingStepRemains(s, i, fd, cb, k); } else { AnsweredStepRemains(s, i, fd, cb, k); }
      } else {
        OtherStepRemains(s, acts[0], i, fd, cb, k);
      }
      PassRunRemains(Apply(s, acts[0]), acts[1..], i, fd, cb, k + Calls(acts[0]));
    } else {
      assert Remains(Exec(s, acts), i, fd, cb, k) == Remains(s, i, fd, cb, k);
    }
  }

  /** The steps of a pass, whatever the kernel and the posters do between them, leave of its queue
      what FileWQ.Wakeup leaves. */
  lemma PassIsDispatch(s: State, acts: seq<Action>, i: nat, fd: Fd, cb: Answers)
    requires PassRun(s, acts, i, fd, cb, 0) && InPass(s, i, fd) && Contract(cb) && s.pc == Waking(i, 0)
    ensures Run(s, acts)
    ensures Exec(s, acts).pc == Walking(i + 1) && fd in Exec(s, acts).qs ==>
              var q, q' := s.qs[fd], Exec(s, acts).qs[fd];
              var o := Dispatch(q.items, q.revents, cb, 0);
              q'.items == o.rest && q'.revents == o.revents
  {
    PassRunRemains(s, acts, i, fd, cb, 0);
    assert s.qs[fd].items[0..] == s.qs[fd].items;
  }
}
