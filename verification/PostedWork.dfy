/** Handing work to an event loop: queueInLoop enqueues a function and then writes the loop's
    eventfd; the loop drains its functions first and reads the eventfd afterwards, when it
    walks the queues that epoll reported. Whether a function can be left behind while the loop
    sleeps is a question of that order. */
module PostedWork {

  datatype LoopPc = Draining | Walking | Waiting

  /** `posting` counts posters between their enqueue and their write; `count` is the eventfd's
      counter, `edge` the edge epoll has not reported yet, and `listed` says that wakeUpWQ_ is
      in list_. */
  datatype State = State(funcs: nat, posting: nat, count: nat, edge: bool, listed: bool, pc: LoopPc)

  datatype Action =
    | Enqueue                 // queueInLoop: funcs_.enqueue
    | Write                   // queueInLoop: wakeUp
    | DrainOne
    | DrainEnd                // funcs_.dequeue has returned false
    | Walk                    // the walk over list_, reading the eventfd if it is listed
    | EpollReturns            // for the eventfd, another descriptor or the timeout

  const INIT: State := State(0, 0, 0, false, false, Draining)

  predicate Enabled(s: State, a: Action) {
    match a
    case Enqueue => true
    case Write => s.posting > 0
    case DrainOne => s.pc == Draining && s.funcs > 0
    case DrainEnd => s.pc == Draining && s.funcs == 0
    case Walk => s.pc == Walking
    case EpollReturns => s.pc == Waiting
  }

  /** The eventfd would make epoll_wait return: an unreported edge and a positive counter. */
  predicate Reportable(s: State) {
    s.edge && s.count > 0
  }

  function Apply(s: State, a: Action): State
    requires Enabled(s, a)
  {
    match a
    case Enqueue => s.(funcs := s.funcs + 1, posting := s.posting + 1)
    case Write => s.(posting := s.posting - 1, count := s.count + 1, edge := true)
    case DrainOne => s.(funcs := s.funcs - 1)
    case DrainEnd => s.(pc := Walking)
    case Walk => s.(count := if s.listed then 0 else s.count, listed := false, pc := Waiting)
    case EpollReturns => s.(listed := Reportable(s), edge := false, pc := Draining)
  }

  predicate Run(s: State, acts: seq<Action>)
    decreases |acts|
  {
    acts == [] || (Enabled(s, acts[0]) && Run(Apply(s, acts[0]), acts[1..]))
  }

  function Exec(s: State, acts: seq<Action>): State
    requires Run(s, acts)
    decreases |acts|
  {
    if acts == [] then s else Exec(Apply(s, acts[0]), acts[1..])
  }

  /** No function waits for a loop that nothing is going to wake. */
  predicate Promised(s: State) {
    s.funcs == 0 || s.posting > 0 || Reportable(s)
  }

  /** The condition at the read: everything posted has been drained, or a write is yet to come. */
  predicate Safe(s: State) {
    s.listed ==> s.funcs == 0 || s.posting > 0
  }

  predicate SafeRun(s: State, acts: seq<Action>)
    decreases |acts|
  {
    acts == [] ||
    (Enabled(s, acts[0]) && (acts[0].Walk? ==> Safe(s)) && SafeRun(Apply(s, acts[0]), acts[1..]))
  }

  ghost predicate Inv(s: State) {
    s.pc != Draining ==> Promised(s)
  }

  lemma {:induction false} SafeRunInv(s: State, acts: seq<Action>)
    requires Inv(s) && SafeRun(s, acts)
    ensures Run(s, acts) && Inv(Exec(s, acts))
    decreases |acts|
  {
    if acts != [] {
      SafeRunInv(Apply(s, acts[0]), acts[1..]);
    }
  }

  /** In every run whose reads of the eventfd are safe, a function that is pending while the
      loop waits is going to wake it. */
  lemma NoWorkLeftBehind(acts: seq<Action>)
    requires SafeRun(INIT, acts)
    ensures Run(INIT, acts)
    ensures Exec(INIT, acts).pc == Waiting ==> Promised(Exec(INIT, acts))
  {
    SafeRunInv(INIT, acts);
  }

  /** The condition is exact: a walk after a run with safe reads leaves no work behind if and
      only if its own read is safe, and one that is not leaves the loop waiting for an event
      that has nothing to do with the work, until somebody else enqueues or epoll times out. */
  lemma ReadSafeExactlyWhenDrained(acts: seq<Action>)
    requires SafeRun(INIT, acts) && Run(INIT, acts) && Exec(INIT, acts).pc == Walking
    ensures Promised(Apply(Exec(INIT, acts), Walk)) <==> Safe(Exec(INIT, acts))
  {
    SafeRunInv(INIT, acts);
  }

  function Count(acts: seq<Action>, a: Action): nat {
    if acts == [] then 0 else (if acts[0] == a then 1 else 0) + Count(acts[1..], a)
  }

  /** Over every run, each function enqueued has been taken out and run, or is pending; and each
      poster has written to the eventfd, or is going to. */
  lemma {:induction false} PostingsConserved(s: State, acts: seq<Action>)
    requires Run(s, acts)
    ensures Exec(s, acts).funcs + Count(acts, DrainOne) == s.funcs + Count(acts, Enqueue)
    ensures Exec(s, acts).posting + Count(acts, Write) == s.posting + Count(acts, Enqueue)
    decreases |acts|
  {
    if acts != [] {
      PostingsConserved(Apply(s, acts[0]), acts[1..]);
    }
  }

  ghost predicate Reaches(s: State, acts: seq<Action>, s': State) {
    Run(s, acts) && Exec(s, acts) == s'
  }

  lemma ReachesStep(s: State, a: Action, acts: seq<Action>, s': State)
    requires Enabled(s, a) && Reaches(Apply(s, a), acts, s')
    ensures Reaches(s, [a] + acts, s')
  {
  }

  /** A call of queueInLoop that nothing comes between leaves its function pending and announced. */
  lemma PostAnnounces(s: State)
    ensures Reaches(s, [Enqueue, Write], s.(funcs := s.funcs + 1, count := s.count + 1, edge := true))
  {
    var s2 := s.(funcs := s.funcs + 1, count := s.count + 1, edge := true);
    assert Reaches(s2, [], s2);
    ReachesStep(s.(funcs := s.funcs + 1, posting := s.posting + 1), Write, [], s2);
    ReachesStep(s, Enqueue, [Write], s2);
  }

  /** A round that nothing comes between, from one wait to the next, runs all that is pending and
      takes the announcements back if epoll reported them. */
  lemma RoundRunsAll(s: State)
    requires s.pc == Waiting
    ensures Reaches(s, [EpollReturns] + Drains(s.funcs),
                    State(0, s.posting, if Reportable(s) then 0 else s.count, false, false, Waiting))
  {
    var s1 := Apply(s, EpollReturns);
    DrainsAll(s1);
    ReachesStep(s, EpollReturns, Drains(s.funcs),
                State(0, s.posting, if Reportable(s) then 0 else s.count, false, false, Waiting));
  }

  function Drains(n: nat): seq<Action> {
    if n == 0 then [DrainEnd, Walk] else [DrainOne] + Drains(n - 1)
  }

  lemma {:induction false} DrainsAll(s: State)
    requires s.pc == Draining
    ensures Reaches(s, Drains(s.funcs),
                    s.(funcs := 0, count := if s.listed then 0 else s.count, listed := false, pc := Waiting))
    decreases s.funcs
  {
    var s' := s.(funcs := 0, count := if s.listed then 0 else s.count, listed := false, pc := Waiting);
    if s.funcs == 0 {
      assert Reaches(s', [], s');
      ReachesStep(s.(pc := Walking), Walk, [], s');
      ReachesStep(s, DrainEnd, [Walk], s');
    } else {
      DrainsAll(Apply(s, DrainOne));
      ReachesStep(s, DrainOne, Drains(s.funcs - 1), s');
    }
  }

  /** The condition can fail: a function enqueued and announced after the drain, in a round
      that walks the eventfd for an earlier announcement, is pending while nothing will wake
      the loop. */
  lemma WorkCanBeLeftBehind()
    ensures exists acts :: Run(INIT, acts) && Exec(INIT, acts).pc == Waiting && !Promised(Exec(INIT, acts))
  {
    LeadsFromAnnounced();
    LeadsOn(State(1, 1, 0, false, false, Waiting), Write);
    LeadsOn(State(0, 0, 0, false, false, Waiting), Enqueue);
    LeadsOn(State(0, 0, 0, false, false, Walking), Walk);
    LeadsOn(INIT, DrainEnd);
  }

  /** The loop waits, and one function is announced: it is reported, run and drained, and before
      the walk another one is announced. */
  lemma LeadsFromAnnounced()
    ensures LeadsToStranding(State(1, 0, 1, true, false, Waiting))
  {
    LeadsFromDrained();
    LeadsOn(State(0, 0, 1, false, true, Draining), DrainEnd);
    LeadsOn(State(1, 0, 1, false, true, Draining), DrainOne);
    LeadsOn(State(1, 0, 1, true, false, Waiting), EpollReturns);
  }

  lemma LeadsFromDrained()
    ensures LeadsToStranding(State(0, 0, 1, false, true, Walking))
  {
    var stranded := State(1, 0, 0, true, false, Waiting);
    assert Run(stranded, []) && !Promised(Exec(stranded, []));
    LeadsOn(State(1, 0, 2, true, true, Walking), Walk);
    LeadsOn(State(1, 1, 1, false, true, Walking), Write);
    LeadsOn(State(0, 0, 1, false, true, Walking), Enqueue);
  }

  /** Some run from here ends with the loop waiting for nothing and a function pending. */
  ghost predicate LeadsToStranding(s: State) {
    exists acts :: Run(s, acts) && Exec(s, acts).pc == Waiting && !Promised(Exec(s, acts))
  }

  lemma LeadsOn(s: State, a: Action)
    requires Enabled(s, a) && LeadsToStranding(Apply(s, a))
    ensures LeadsToStranding(s)
  {
    var acts :| Run(Apply(s, a), acts) && Exec(Apply(s, a), acts).pc == Waiting && !Promised(Exec(Apply(s, a), acts));
    assert ([a] + acts)[0] == a && ([a] + acts)[1..] == acts;
    assert Run(s, [a] + acts);
  }
}
