/** CoKernel's ready queue: wakers enqueue under hmu and notify hcv; CPUs wait on hcv with a
    predicate that dequeues, and after that keep dequeuing without the lock. */
module Scheduler {
  import opened Options

  type Cpu = nat
  type Waker = nat
  type Handle = nat

  /** One use of a handle: its index in the order of all enqueues. */
  type Ticket = nat

  datatype Agent = C(c: Cpu) | W(w: Waker)

  datatype CpuPc =
    | Outside                 // about to lock hmu
    | Testing                 // holding hmu, about to evaluate the predicate
    | Parking                 // the predicate was false: about to release hmu and sleep
    | Parked
    | Notified                // woken, about to lock hmu again
    | Unlocking(k: Ticket)
    | Resuming(k: Ticket)
    | Trying                  // the dequeue without the lock

  datatype WakerPc =
    | WLock(h: Handle)
    | WEnqueue(h: Handle)
    | WUnlock
    | WNotify

  /** `entered` and `resumed` log the enqueues and the resumptions. */
  datatype State = State(queue: seq<Ticket>, hmu: Option<Agent>, cpus: map<Cpu, CpuPc>, wakers: map<Waker, WakerPc>,
                         entered: seq<Handle>, resumed: seq<Ticket>)

  datatype Action =
    | Wake(w: Waker, h: Handle)                 // somebody calls wakeUpReady
    | WakerStep(w: Waker)
    | NotifyOne(w: Waker, target: Option<Cpu>)
    | CpuStep(c: Cpu)
    | Spurious(c: Cpu)

  ghost predicate Start(s: State) {
    && s.queue == [] && s.hmu == None && s.wakers == map[] && s.entered == [] && s.resumed == []
    && s.cpus.Keys != {} && forall c :: c in s.cpus ==> s.cpus[c] == Outside
  }

  predicate Enabled(s: State, a: Action) {
    match a
    case Wake(w, _) => w !in s.wakers
    case WakerStep(w) => w in s.wakers && s.wakers[w] != WNotify && (s.wakers[w].WLock? ==> s.hmu == None)
    case NotifyOne(w, target) =>
      && w in s.wakers && s.wakers[w] == WNotify
      && (match target
          case Some(c) => c in s.cpus && s.cpus[c] == Parked
          case None => forall c :: c in s.cpus ==> s.cpus[c] != Parked)
    case CpuStep(c) =>
      c in s.cpus && s.cpus[c] != Parked && (s.cpus[c] in {Outside, Notified} ==> s.hmu == None)
    case Spurious(c) => c in s.cpus && s.cpus[c] == Parked
  }

  function Apply(s: State, a: Action): State
    requires Enabled(s, a)
  {
    match a
    case Wake(w, h) => s.(wakers := s.wakers[w := WLock(h)])
    case WakerStep(w) => ApplyWaker(s, w)
    case NotifyOne(w, target) =>
      s.(wakers := s.wakers - {w}, cpus := if target.Some? then s.cpus[target.value := Notified] else s.cpus)
    case CpuStep(c) => ApplyCpu(s, c)
    case Spurious(c) => s.(cpus := s.cpus[c := Notified])
  }

  function ApplyWaker(s: State, w: Waker): State
    requires Enabled(s, WakerStep(w))
  {
    match s.wakers[w]
    case WLock(h) => s.(hmu := Some(W(w)), wakers := s.wakers[w := WEnqueue(h)])
    case WEnqueue(h) =>
      s.(queue := s.queue + [|s.entered|], entered := s.entered + [h], wakers := s.wakers[w := WUnlock])
    case WUnlock => s.(hmu := None, wakers := s.wakers[w := WNotify])
    case WNotify => s
  }

  function ApplyCpu(s: State, c: Cpu): State
    requires Enabled(s, CpuStep(c))
  {
    match s.cpus[c]
    case Outside => s.(hmu := Some(C(c)), cpus := s.cpus[c := Testing])
    case Notified => s.(hmu := Some(C(c)), cpus := s.cpus[c := Testing])
    case Testing =>
      if s.queue == [] then s.(cpus := s.cpus[c := Parking])
      else s.(queue := s.queue[1..], cpus := s.cpus[c := Unlocking(s.queue[0])])
    case Parking => s.(hmu := None, cpus := s.cpus[c := Parked])
    case Unlocking(k) => s.(hmu := None, cpus := s.cpus[c := Resuming(k)])
    case Resuming(k) => s.(resumed := s.resumed + [k], cpus := s.cpus[c := Trying])
    case Trying =>
      if s.queue == [] then s.(cpus := s.cpus[c := Outside])
      else s.(queue := s.queue[1..], cpus := s.cpus[c := Resuming(s.queue[0])])
    case Parked => s
  }

  predicate Run(s: State, acts: seq<Action>)
    decreases |acts|
  {
    acts == [] || (Enabled(s, acts[0]) && Run(Apply(s, acts[0]), acts[1..]))
  }

  function Exec(s: State, acts: seq<Action>): State
    requires Run(s, acts)
    decreases |acts|
  {
    if acts == [] then s else Exec(Apply(s, acts[0]), acts[1..])
  }

  // ---------------------------------------------------------------- the invariant

  function Hand(p: CpuPc): Option<Ticket> {
    match p
    case Unlocking(k) => Some(k)
    case Resuming(k) => Some(k)
    case _ => None
  }

  /** How many tickets have been taken from the queue. */
  function Taken(s: State): int {
    |s.entered| - |s.queue|
  }

  ghost predicate Locks(s: State) {
    && (forall c :: c in s.cpus && (s.cpus[c].Testing? || s.cpus[c].Parking? || s.cpus[c].Unlocking?)
          ==> s.hmu == Some(C(c)))
    && (forall w :: w in s.wakers && (s.wakers[w].WEnqueue? || s.wakers[w].WUnlock?) ==> s.hmu == Some(W(w)))
  }

  /** The queue holds the tickets not taken yet, in order; every taken one is in one hand or has
      been resumed once. */
  ghost predicate Tickets(s: State) {
    && 0 <= Taken(s)
    && (forall i :: 0 <= i < |s.queue| ==> s.queue[i] == Taken(s) + i)
    && (forall c :: c in s.cpus && Hand(s.cpus[c]).Some? ==>
          Hand(s.cpus[c]).value < Taken(s) && Hand(s.cpus[c]).value !in s.resumed)
    && (forall c, d :: c in s.cpus && d in s.cpus && c != d && Hand(s.cpus[c]).Some?
          ==> Hand(s.cpus[c]) != Hand(s.cpus[d]))
    && (forall i :: 0 <= i < |s.resumed| ==> s.resumed[i] < Taken(s))
    && (forall i, j :: 0 <= i < j < |s.resumed| ==> s.resumed[i] != s.resumed[j])
    && (forall k: Ticket :: k < Taken(s) ==> k in s.resumed || Held(s, k))
  }

  ghost predicate Held(s: State, k: Ticket) {
    exists c :: c in s.cpus && Hand(s.cpus[c]) == Some(k)
  }

  /** A CPU that is going to look into the queue before it does anything else. */
  predicate Looks(p: CpuPc) {
    p == Outside || p == Testing || p == Trying || p == Notified
  }

  function Lookers(s: State): set<Cpu> {
    set c | c in s.cpus && Looks(s.cpus[c])
  }

  /** Wakers that have enqueued and not notified. */
  function Notifiers(s: State): set<Waker> {
    set w | w in s.wakers && (s.wakers[w] == WUnlock || s.wakers[w] == WNotify)
  }

  ghost predicate Sleeper(s: State) {
    exists c :: c in s.cpus && s.cpus[c] == Parked
  }

  /** While a CPU sleeps, for every handle in the queue somebody is about to look for it or about
      to notify. */
  ghost predicate Attended(s: State) {
    Sleeper(s) ==> |s.queue| <= |Lookers(s)| + |Notifiers(s)|
  }

  ghost predicate Inv(s: State) {
    && Locks(s) && Tickets(s) && Attended(s)
    && (forall c :: c in s.cpus && s.cpus[c] == Parking ==> s.queue == [])
  }

  lemma TicketsWhenTaken(s: State, c: Cpu, p: CpuPc)
    requires Tickets(s) && c in s.cpus && Hand(s.cpus[c]) == None
    requires s.queue != [] && Hand(p) == Some(s.queue[0])
    ensures Tickets(s.(queue := s.queue[1..], cpus := s.cpus[c := p]))
  {
    var s' := s.(queue := s.queue[1..], cpus := s.cpus[c := p]);
    assert s.queue[0] == Taken(s) == Taken(s') - 1;
    forall k: Ticket | k < Taken(s') ensures k in s'.resumed || Held(s', k) {
      if k == Taken(s) {
        assert Hand(s'.cpus[c]) == Some(k);
      } else if k !in s.resumed {
        var d :| d in s.cpus && Hand(s.cpus[d]) == Some(k);
        assert Hand(s'.cpus[d]) == Some(k);
      }
    }
  }

  lemma TicketsWhenResumed(s: State, c: Cpu, k: Ticket)
    requires Tickets(s) && c in s.cpus && s.cpus[c] == Resuming(k)
    ensures Tickets(s.(resumed := s.resumed + [k], cpus := s.cpus[c := Trying]))
  {
    var s' := s.(resumed := s.resumed + [k], cpus := s.cpus[c := Trying]);
    assert Hand(s.cpus[c]) == Some(k) && k !in s.resumed;
    assert Taken(s') == Taken(s);
    forall i: Ticket | i < Taken(s') ensures i in s'.resumed || Held(s', i) {
      if i == k {
        assert s'.resumed[|s.resumed|] == i;
      } else if i !in s.resumed {
        var d :| d in s.cpus && Hand(s.cpus[d]) == Some(i);
        assert Hand(s'.cpus[d]) == Some(i);
      }
    }
  }

  lemma TicketsWhenHandKept(s: State, s': State)
    requires Tickets(s)
    requires s'.queue == s.queue && s'.entered == s.entered && s'.resumed == s.resumed
    requires s'.cpus.Keys == s.cpus.Keys && forall c :: c in s.cpus ==> Hand(s'.cpus[c]) == Hand(s.cpus[c])
    ensures Tickets(s')
  {
  }

  lemma TicketsWhenCpuMoves(s: State, c: Cpu)
    requires Tickets(s) && Enabled(s, CpuStep(c))
    ensures Tickets(ApplyCpu(s, c))
  {
    var p := s.cpus[c];
    if (p == Testing || p == Trying) && s.queue != [] {
      TicketsWhenTaken(s, c, ApplyCpu(s, c).cpus[c]);
    } else if p.Resuming? {
      TicketsWhenResumed(s, c, p.k);
    } else {
      assert Hand(ApplyCpu(s, c).cpus[c]) == Hand(p);
      TicketsWhenHandKept(s, ApplyCpu(s, c));
    }
  }

  lemma LocksWhenCpuMoves(s: State, c: Cpu)
    requires Locks(s) && Enabled(s, CpuStep(c))
    ensures Locks(ApplyCpu(s, c))
  {
  }

  lemma LookersMove(s: State, s': State, c: Cpu, p: CpuPc)
    requires c in s.cpus && s'.cpus == s.cpus[c := p]
    ensures |Lookers(s')| == |Lookers(s)| - (if Looks(s.cpus[c]) then 1 else 0) + if Looks(p) then 1 else 0
  {
    var others := Lookers(s) - {c};
    assert Lookers(s) == if Looks(s.cpus[c]) then others + {c} else others;
    assert Lookers(s') == if Looks(p) then others + {c} else others;
  }

  lemma NotifiersMove(s: State, s': State, w: Waker, before: bool, after: bool)
    requires forall v :: v != w ==> (v in Notifiers(s') <==> v in Notifiers(s))
    requires (w in Notifiers(s) <==> before) && (w in Notifiers(s') <==> after)
    ensures |Notifiers(s')| == |Notifiers(s)| - (if before then 1 else 0) + if after then 1 else 0
  {
    var others := Notifiers(s) - {w};
    assert Notifiers(s) == if before then others + {w} else others;
    assert Notifiers(s') == if after then others + {w} else others;
  }

  lemma AttendedWhenCpuMoves(s: State, c: Cpu)
    requires Inv(s) && Enabled(s, CpuStep(c))
    ensures Attended(ApplyCpu(s, c))
  {
    var s' := ApplyCpu(s, c);
    LookersMove(s, s', c, s'.cpus[c]);
    if s'.queue != [] && Sleeper(s') {
      var d :| d in s'.cpus && s'.cpus[d] == Parked;
      assert d != c && s.cpus[d] == Parked;
    }
  }

  lemma ParkingWhenCpuMoves(s: State, c: Cpu)
    requires Inv(s) && Enabled(s, CpuStep(c))
    ensures var s' := ApplyCpu(s, c); forall d :: d in s'.cpus && s'.cpus[d] == Parking ==> s'.queue == []
  {
  }

  lemma CpuInv(s: State, c: Cpu)
    requires Inv(s) && Enabled(s, CpuStep(c))
    ensures Inv(ApplyCpu(s, c))
  {
    TicketsWhenCpuMoves(s, c);
    LocksWhenCpuMoves(s, c);
    AttendedWhenCpuMoves(s, c);
    ParkingWhenCpuMoves(s, c);
  }

  lemma TicketsWhenEntered(s: State, s': State, h: Handle)
    requires Tickets(s) && s'.queue == s.queue + [|s.entered|] && s'.entered == s.entered + [h]
    requires s'.resumed == s.resumed && s'.cpus == s.cpus
    ensures Tickets(s')
  {
  }

  lemma WakerInv(s: State, a: Action)
    requires Inv(s) && Enabled(s, a) && (a.Wake? || a.WakerStep?)
    ensures Inv(Apply(s, a))
  {
    var s' := Apply(s, a);
    if a.WakerStep? && s.wakers[a.w].WEnqueue? {
      TicketsWhenEntered(s, s', s.wakers[a.w].h);
    } else {
      TicketsWhenHandKept(s, s');
    }
    AttendedWhenWakerMoves(s, a);
  }

  lemma AttendedWhenWakerMoves(s: State, a: Action)
    requires Attended(s) && Enabled(s, a) && (a.Wake? || a.WakerStep?)
    ensures Attended(Apply(s, a))
  {
    var s' := Apply(s, a);
    var enqueues := a.WakerStep? && s.wakers[a.w].WEnqueue?;
    var before := a.WakerStep? && s.wakers[a.w].WUnlock?;
    assert forall w :: w != a.w ==>
        (w in s'.wakers <==> w in s.wakers) && (w in s.wakers ==> s'.wakers[w] == s.wakers[w]);
    NotifiersMove(s, s', a.w, before, before || enqueues);
    assert Lookers(s') == Lookers(s);
  }

  lemma NotifyInv(s: State, a: Action)
    requires Inv(s) && Enabled(s, a) && (a.NotifyOne? || a.Spurious?)
    ensures Inv(Apply(s, a))
  {
    TicketsWhenHandKept(s, Apply(s, a));
    AttendedWhenNotified(s, a);
  }

  lemma AttendedWhenNotified(s: State, a: Action)
    requires Attended(s) && Enabled(s, a) && (a.NotifyOne? || a.Spurious?)
    ensures Attended(Apply(s, a))
  {
    var s' := Apply(s, a);
    if a.NotifyOne? {
      NotifiersMove(s, s', a.w, true, false);
    } else {
      assert Notifiers(s') == Notifiers(s);
    }
    if a.Spurious? || a.target.Some? {
      var c := if a.Spurious? then a.c else a.target.value;
      LookersMove(s, s', c, Notified);
    }
  }

  lemma {:induction false} RunInv(s: State, acts: seq<Action>)
    requires Inv(s) && Run(s, acts)
    ensures Inv(Exec(s, acts))
    decreases |acts|
  {
    if acts != [] {
      match acts[0] {
        case CpuStep(c) => CpuInv(s, c);
        case NotifyOne(_, _) | Spurious(_) => NotifyInv(s, acts[0]);
        case _ => WakerInv(s, acts[0]);
      }
      RunInv(Apply(s, acts[0]), acts[1..]);
    }
  }

  /** Over any number of CPUs and wakers, in every run: while any CPU sleeps, at least as many CPUs
      are about to look into the queue or wakers about to notify as there are handles in it. So a
      handle never waits for a CPU that is busy with a coroutine while another one sleeps
      un-notified and nobody is on the way. */
  lemma NoReadyCoroutineForgotten(s: State, acts: seq<Action>)
    requires Start(s) && Run(s, acts)
    ensures var s' := Exec(s, acts);
            && (Sleeper(s') ==> |s'.queue| <= |Lookers(s')| + |Notifiers(s')|)
            && (Sleeper(s') && s'.queue != [] ==> Lookers(s') != {} || Notifiers(s') != {})
  {
    RunInv(s, acts);
  }

  /** Every enqueue is resumed exactly once or still to be: it is in the queue, or in the hands of
      exactly one CPU, or in the log of resumptions once; and handles leave the queue in the
      order in which they entered it. */
  lemma ResumedExactlyOncePerEnqueue(s: State, acts: seq<Action>, k: Ticket)
    requires Start(s) && Run(s, acts) && k < |Exec(s, acts).entered|
    ensures var s' := Exec(s, acts);
            && (k in s'.queue || Held(s', k) || k in s'.resumed)
            && !(k in s'.queue && Held(s', k)) && !(k in s'.queue && k in s'.resumed)
            && !(Held(s', k) && k in s'.resumed)
            && (forall c, d :: c in s'.cpus && d in s'.cpus && Hand(s'.cpus[c]) == Some(k) == Hand(s'.cpus[d])
                  ==> c == d)
            && (forall i, j :: 0 <= i < |s'.resumed| && 0 <= j < |s'.resumed| && s'.resumed[i] == k == s'.resumed[j]
                  ==> i == j)
            && (forall i, j :: 0 <= i < j < |s'.queue| ==> s'.queue[i] < s'.queue[j])
            && (k in s'.queue <==> k >= |s'.entered| - |s'.queue|)
  {
    RunInv(s, acts);
    var s' := Exec(s, acts);
    if k >= Taken(s') {
      assert s'.queue[k - Taken(s')] == k;
    }
  }

  // ---------------------------------------------------------------- handles

  /** How many of the actions ask for `h` to be resumed. */
  function Wakes(acts: seq<Action>, h: Handle): nat {
    if acts == [] then 0 else (if acts[0].Wake? && acts[0].h == h then 1 else 0) + Wakes(acts[1..], h)
  }

  /** The wakers that have been asked for `h` and have not enqueued it. */
  function PendingOf(s: State, h: Handle): set<Waker> {
    set w | w in s.wakers && s.wakers[w] in {WLock(h), WEnqueue(h)}
  }

  /** The enqueues of `h`. */
  function TicketsOf(entered: seq<Handle>, h: Handle): set<Ticket> {
    set k | 0 <= k < |entered| && entered[k] == h
  }

  lemma PendingMove(s: State, s': State, w: Waker, h: Handle, before: bool, after: bool)
    requires forall v :: v != w ==> (v in PendingOf(s', h) <==> v in PendingOf(s, h))
    requires (w in PendingOf(s, h) <==> before) && (w in PendingOf(s', h) <==> after)
    ensures |PendingOf(s', h)| == |PendingOf(s, h)| - (if before then 1 else 0) + if after then 1 else 0
  {
    var others := PendingOf(s, h) - {w};
    assert PendingOf(s, h) == if before then others + {w} else others;
    assert PendingOf(s', h) == if after then others + {w} else others;
  }

  lemma TicketsMore(entered: seq<Handle>, x: Handle, h: Handle)
    ensures |TicketsOf(entered + [x], h)| == |TicketsOf(entered, h)| + if x == h then 1 else 0
  {
    var more := if x == h then {|entered|} else {};
    assert TicketsOf(entered + [x], h) == TicketsOf(entered, h) + more;
  }

  lemma StepKeepsWakes(s: State, a: Action, h: Handle)
    requires Enabled(s, a)
    ensures var s' := Apply(s, a);
            |PendingOf(s', h)| + |TicketsOf(s'.entered, h)| ==
            |PendingOf(s, h)| + |TicketsOf(s.entered, h)| + if a.Wake? && a.h == h then 1 else 0
  {
    var s' := Apply(s, a);
    match a
    case Wake(w, x) => PendingMove(s, s', w, h, false, x == h);
    case WakerStep(w) =>
      if s.wakers[w].WEnqueue? {
        PendingMove(s, s', w, h, s.wakers[w].h == h, false);
        TicketsMore(s.entered, s.wakers[w].h, h);
      } else {
        PendingMove(s, s', w, h, w in PendingOf(s, h), w in PendingOf(s, h));
      }
    case NotifyOne(w, _) => PendingMove(s, s', w, h, false, false);
    case _ => assert PendingOf(s', h) == PendingOf(s, h);
  }

  lemma {:induction false} RunKeepsWakes(s: State, acts: seq<Action>, h: Handle)
    requires Run(s, acts)
    ensures var s' := Exec(s, acts);
            |PendingOf(s', h)| + |TicketsOf(s'.entered, h)| ==
            |PendingOf(s, h)| + |TicketsOf(s.entered, h)| + Wakes(acts, h)
    decreases |acts|
  {
    if acts != [] {
      StepKeepsWakes(s, acts[0], h);
      RunKeepsWakes(Apply(s, acts[0]), acts[1..], h);
    }
  }

  /** The coroutines resumed, in order. */
  function ResumedHandles(entered: seq<Handle>, resumed: seq<Ticket>): (hs: seq<Handle>)
    requires forall i :: 0 <= i < |resumed| ==> resumed[i] < |entered|
    ensures |hs| == |resumed| && forall i :: 0 <= i < |hs| ==> hs[i] == entered[resumed[i]]
  {
    seq(|resumed|, i requires 0 <= i < |resumed| => entered[resumed[i]])
  }

  /** The enqueues of `h` that have been resumed. */
  function DoneOf(entered: seq<Handle>, resumed: seq<Ticket>, h: Handle): set<Ticket> {
    set k | k in resumed && k < |entered| && entered[k] == h
  }

  lemma DoneMore(entered: seq<Handle>, front: seq<Ticket>, x: Ticket, h: Handle)
    requires x < |entered| && x !in front
    ensures |DoneOf(entered, front + [x], h)| == |DoneOf(entered, front, h)| + if entered[x] == h then 1 else 0
  {
    var more := if entered[x] == h then {x} else {};
    assert DoneOf(entered, front + [x], h) == DoneOf(entered, front, h) + more;
  }

  lemma {:induction false} ResumedCount(entered: seq<Handle>, resumed: seq<Ticket>, h: Handle)
    requires forall i :: 0 <= i < |resumed| ==> resumed[i] < |entered|
    requires forall i, j :: 0 <= i < j < |resumed| ==> resumed[i] != resumed[j]
    ensures multiset(ResumedHandles(entered, resumed))[h] == |DoneOf(entered, resumed, h)|
  {
    if resumed == [] {
      assert DoneOf(entered, resumed, h) == {};
    } else {
      var n := |resumed| - 1;
      var front, x := resumed[..n], resumed[n];
      ResumedCount(entered, front, h);
      assert ResumedHandles(entered, resumed) == ResumedHandles(entered, front) + [entered[x]];
      assert resumed == front + [x];
      DoneMore(entered, front, x, h);
    }
  }

  /** Each wake resumes the coroutine it is for, and once: over every run, the calls of wakeUpReady
      for `h` are those that have not enqueued it yet and the enqueues of `h`; `h` has been resumed
      once for each of its enqueues that is neither in the queue nor in a CPU's hands, and so as
      often as it was woken exactly when no wake of it is still under way. */
  lemma EveryWakeResumesItsHandle(s: State, acts: seq<Action>, h: Handle)
    requires Start(s) && Run(s, acts)
    ensures var s' := Exec(s, acts);
            && Wakes(acts, h) == |PendingOf(s', h)| + |TicketsOf(s'.entered, h)|
            && (forall i :: 0 <= i < |s'.resumed| ==> s'.resumed[i] < |s'.entered|)
            && multiset(ResumedHandles(s'.entered, s'.resumed))[h] == |DoneOf(s'.entered, s'.resumed, h)|
            && |DoneOf(s'.entered, s'.resumed, h)| <= Wakes(acts, h)
            && (|DoneOf(s'.entered, s'.resumed, h)| == Wakes(acts, h) <==>
                PendingOf(s', h) == {} && forall k :: k in TicketsOf(s'.entered, h) ==> k !in s'.queue && !Held(s', k))
  {
    RunInv(s, acts);
    RunKeepsWakes(s, acts, h);
    var s' := Exec(s, acts);
    assert TicketsOf(s.entered, h) == {} && PendingOf(s, h) == {};
    ResumedCount(s'.entered, s'.resumed, h);
    forall k | k in TicketsOf(s'.entered, h) ensures k in s'.resumed <==> k !in s'.queue && !Held(s', k) {
      ResumedExactlyOncePerEnqueue(s, acts, k);
    }
    DoneOrNot(s', h);
  }

  lemma DoneOrNot(s: State, h: Handle)
    requires forall k :: k in TicketsOf(s.entered, h) ==> (k in s.resumed <==> k !in s.queue && !Held(s, k))
    ensures |DoneOf(s.entered, s.resumed, h)| <= |TicketsOf(s.entered, h)|
    ensures |DoneOf(s.entered, s.resumed, h)| == |TicketsOf(s.entered, h)| <==>
            forall k :: k in TicketsOf(s.entered, h) ==> k !in s.queue && !Held(s, k)
  {
    var all, done := TicketsOf(s.entered, h), DoneOf(s.entered, s.resumed, h);
    assert all == done + (all - done);
    if |done| == |all| { assert all - done == {}; }
    if forall k :: k in all ==> k !in s.queue && !Held(s, k) { assert all == done; }
  }

  // ---------------------------------------------------------------- undisturbed

  ghost predicate Reaches(s: State, acts: seq<Action>, s': State) {
    Run(s, acts) && Exec(s, acts) == s'
  }

  lemma ReachesStep(s: State, a: Action, acts: seq<Action>, s': State)
    requires Enabled(s, a) && Reaches(Apply(s, a), acts, s')
    ensures Reaches(s, [a] + acts, s')
  {
  }

  /** A call of wakeUpReady that nothing comes between enqueues its handle and notifies `target`,
      a sleeping CPU if there is one. */
  lemma WakerDelivers(s: State, w: Waker, h: Handle, target: Option<Cpu>)
    requires w !in s.wakers && s.hmu == None
    requires match target
             case Some(c) => c in s.cpus && s.cpus[c] == Parked
             case None => forall c :: c in s.cpus ==> s.cpus[c] != Parked
    ensures Reaches(s, [Wake(w, h), WakerStep(w), WakerStep(w), WakerStep(w), NotifyOne(w, target)],
                    s.(queue := s.queue + [|s.entered|], entered := s.entered + [h],
                       cpus := if target.Some? then s.cpus[target.value := Notified] else s.cpus))
  {
    var s1 := s.(wakers := s.wakers[w := WLock(h)]);
    var s2 := s1.(hmu := Some(W(w)), wakers := s1.wakers[w := WEnqueue(h)]);
    var s3 := s2.(queue := s.queue + [|s.entered|], entered := s.entered + [h], wakers := s2.wakers[w := WUnlock]);
    var s4 := s3.(hmu := None, wakers := s3.wakers[w := WNotify]);
    var s5 := Apply(s4, NotifyOne(w, target));
    assert s4.wakers - {w} == s.wakers;
    assert Reaches(s5, [], s5);
    ReachesStep(s4, NotifyOne(w, target), [], s5);
    ReachesStep(s3, WakerStep(w), [NotifyOne(w, target)], s5);
    ReachesStep(s2, WakerStep(w), [WakerStep(w), NotifyOne(w, target)], s5);
    ReachesStep(s1, WakerStep(w), [WakerStep(w), WakerStep(w), NotifyOne(w, target)], s5);
    ReachesStep(s, Wake(w, h), [WakerStep(w), WakerStep(w), WakerStep(w), NotifyOne(w, target)], s5);
  }

  /** A CPU that comes from outside or from its sleep, with nothing between its steps, resumes the
      first of the queue, and sleeps if there is none. */
  lemma CpuServesOrSleeps(s: State, c: Cpu)
    requires c in s.cpus && s.cpus[c] in {Outside, Notified} && s.hmu == None
    ensures s.queue != [] ==>
              Reaches(s, [CpuStep(c), CpuStep(c), CpuStep(c), CpuStep(c)],
                      s.(queue := s.queue[1..], resumed := s.resumed + [s.queue[0]], cpus := s.cpus[c := Trying]))
    ensures s.queue == [] ==>
              Reaches(s, [CpuStep(c), CpuStep(c), CpuStep(c)], s.(cpus := s.cpus[c := Parked]))
  {
    var s1 := s.(hmu := Some(C(c)), cpus := s.cpus[c := Testing]);
    var s2 := ApplyCpu(s1, c);
    var s3 := ApplyCpu(s2, c);
    var a := CpuStep(c);
    if s.queue != [] {
      var s4 := ApplyCpu(s3, c);
      assert s4.cpus == s.cpus[c := Trying];
      assert Reaches(s4, [], s4);
      ReachesStep(s3, a, [], s4);
      ReachesStep(s2, a, [a], s4);
      ReachesStep(s1, a, [a, a], s4);
      ReachesStep(s, a, [a, a, a], s4);
    } else {
      assert s3.cpus == s.cpus[c := Parked];
      assert Reaches(s3, [], s3);
      ReachesStep(s2, a, [], s3);
      ReachesStep(s1, a, [a], s3);
      ReachesStep(s, a, [a, a], s3);
    }
  }

  /** After a coroutine it goes on with the next one, without the lock; if there is none it goes
      back to the condition variable. */
  lemma CpuGoesOn(s: State, c: Cpu)
    requires c in s.cpus && s.cpus[c] == Trying
    ensures s.queue != [] ==>
              Reaches(s, [CpuStep(c), CpuStep(c)], s.(queue := s.queue[1..], resumed := s.resumed + [s.queue[0]]))
    ensures s.queue == [] ==> Reaches(s, [CpuStep(c)], s.(cpus := s.cpus[c := Outside]))
  {
    var s1 := ApplyCpu(s, c);
    var a := CpuStep(c);
    if s.queue != [] {
      var s2 := ApplyCpu(s1, c);
      assert s2.cpus == s.cpus;
      assert Reaches(s2, [], s2);
      ReachesStep(s1, a, [], s2);
      ReachesStep(s, a, [a], s2);
    } else {
      assert Reaches(s1, [], s1);
      ReachesStep(s, a, [], s1);
    }
  }

  // ---------------------------------------------------------------- one CPU, in place

  function Flatten(calls: seq<seq<Handle>>): seq<Handle> {
    var n := |calls| - 1;
    if calls == [] then [] else Flatten(calls[..n]) + calls[n]
  }

  /** What the first `n` resumptions make ready, if there are that many. */
  function MadeReady(calls: seq<seq<Handle>>, n: nat): seq<Handle> {
    Flatten(calls[..if n <= |calls| then n else |calls|])
  }

  lemma {:induction false} MadeReadyBound(calls: seq<seq<Handle>>, n: nat)
    requires n <= |calls|
    ensures |Flatten(calls[..n])| <= |Flatten(calls)|
    decreases |calls| - n
  {
    if n == |calls| {
      assert calls[..n] == calls;
    } else {
      assert calls[..n + 1][..n] == calls[..n];
      MadeReadyBound(calls, n + 1);
    }
  }

  class CoKernel {
    var readyRo: seq<Handle>

    constructor ()
      ensures readyRo == []
    {
      readyRo := [];
    }

    method WakeUpReady(h: Handle)
      modifies this
      ensures readyRo == old(readyRo) + [h]
    {
      readyRo := readyRo + [h];
    }

    /** Calls of wakeUpReady, one after the other. */
    method WakeUpAll(hs: seq<Handle>)
      modifies this
      ensures readyRo == old(readyRo) + hs
    {
      for i := 0 to |hs|
        invariant readyRo == old(readyRo) + hs[..i]
      {
        WakeUpReady(hs[i]);
      }
    }

    method Dequeue() returns (h: Option<Handle>)
      modifies this
      ensures (if h.Some? then [h.value] else []) + readyRo == old(readyRo)
      ensures h == None <==> old(readyRo) == []
    {
      if readyRo == [] {
        return None;
      }
      h := Some(readyRo[0]);
      readyRo := readyRo[1..];
    }

    /** schedule, once hcv.wait has found the queue non-empty; while the i-th coroutine it resumes
        runs, the handles `calls[i]` are made ready. It resumes all that is ready and all that
        becomes ready meanwhile, each once and in order, none before it is ready, and does not
        return before the queue is empty. */
    method Schedule(calls: seq<seq<Handle>>) returns (resumed: seq<Handle>)
      requires readyRo != []
      modifies this
      ensures readyRo == [] && resumed == old(readyRo) + MadeReady(calls, |resumed|)
      ensures forall n :: 0 <= n < |resumed| ==> n < |old(readyRo)| + |MadeReady(calls, n)|
    {
      resumed := [];
      ghost var start := readyRo;
      var h := Dequeue();
      assert calls[..0] == [];
      while h.Some?
        invariant resumed + ((if h.Some? then [h.value] else []) + readyRo) == start + MadeReady(calls, |resumed|)
        invariant h == None ==> readyRo == []
        invariant forall n :: 0 <= n < |resumed| ==> n < |start| + |MadeReady(calls, n)|
        decreases |start| + |Flatten(calls)| - |resumed|, h.Some?
      {
        var i := |resumed|;
        MadeReadyBound(calls, if i <= |calls| then i else |calls|);
        ScheduledMore(calls, i, start, resumed, h.value, readyRo);
        if i < |calls| {
          WakeUpAll(calls[i]);
        }
        resumed := resumed + [h.value];
        h := Dequeue();
      }
    }
  }

  lemma ScheduledMore(calls: seq<seq<Handle>>, i: nat, start: seq<Handle>, resumed: seq<Handle>, h: Handle,
                      ready: seq<Handle>)
    requires resumed + ([h] + ready) == start + MadeReady(calls, i)
    ensures var more := if i < |calls| then calls[i] else [];
            (resumed + [h]) + (ready + more) == start + MadeReady(calls, i + 1)
  {
    if i < |calls| {
      assert calls[..i + 1][..i] == calls[..i];
      assert (resumed + [h]) + (ready + calls[i]) == (resumed + ([h] + ready)) + calls[i];
    } else {
      assert (resumed + [h]) + (ready + []) == resumed + ([h] + ready);
    }
  }
}
