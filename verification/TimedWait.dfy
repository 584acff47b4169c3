/** A wait with a timeout: FileAwaiter puts one item into the descriptor's FileWQ and one into
    the loop's TimeWQ, each holding an iterator to the other. Whichever fires first is to
    erase both and wake the coroutine, once. */
module TimedWait {

  /** One timed wait; it stands for its coroutine and for both of its list items. */
  type Wait = nat

  /** `files` and `timers` are the waits with an item in the respective list; `woken` are the
      handles yielded, `ret` is the awaiter's result; `faults` counts erasures through an
      iterator whose item is already gone. */
  datatype State = State(files: set<Wait>, timers: set<Wait>, begun: set<Wait>,
                         woken: seq<Wait>, ret: map<Wait, int>, faults: nat)

  datatype Action =
    | Begin(w: Wait)
    | FileFires(w: Wait, ret: int, block: bool)     // the file item's callback, answering so
    | TimerFires(w: Wait)

  const INIT: State := State({}, {}, {}, [], map[], 0)
  const TIMED_OUT: int := -1

  predicate Enabled(s: State, a: Action) {
    match a
    case Begin(w) => w !in s.begun
    case FileFires(w, _, _) => w in s.files
    case TimerFires(w) => w in s.timers
  }

  function EraseTimer(s: State, w: Wait): State {
    if w in s.timers then s.(timers := s.timers - {w}) else s.(faults := s.faults + 1)
  }

  function EraseFile(s: State, w: Wait): State {
    if w in s.files then s.(files := s.files - {w}) else s.(faults := s.faults + 1)
  }

  function Apply(s: State, a: Action): State
    requires Enabled(s, a)
  {
    match a
    case Begin(w) => s.(files := s.files + {w}, timers := s.timers + {w}, begun := s.begun + {w})
    case FileFires(w, ret, block) =>
      var s1 := EraseTimer(s, w).(ret := s.ret[w := ret]);
      if block then s1 else EraseFile(s1, w).(woken := s1.woken + [w])
    case TimerFires(w) =>
      var s1 := EraseFile(s.(ret := s.ret[w := TIMED_OUT]), w);
      EraseTimer(s1, w).(woken := s1.woken + [w])
  }

  predicate Run(s: State, acts: seq<Action>)
    decreases |acts|
  {
    acts == [] || (Enabled(s, acts[0]) && Run(Apply(s, acts[0]), acts[1..]))
  }

  function Exec(s: State, acts: seq<Action>): State
    requires Run(s, acts)
    decreases |acts|
  {
    if acts == [] then s else Exec(Apply(s, acts[0]), acts[1..])
  }

  /** No callback answers that it stays waiting, as none of `connect`'s does. */
  predicate NeverBlocks(acts: seq<Action>) {
    forall i :: 0 <= i < |acts| && acts[i].FileFires? ==> !acts[i].block
  }

  /** A wait is in both lists and not woken, or in neither and woken once. */
  ghost predicate Inv(s: State) {
    && s.files == s.timers && s.files <= s.begun && s.faults == 0
    && (forall w :: w in s.woken <==> w in s.begun && w !in s.files)
    && (forall i, j :: 0 <= i < j < |s.woken| ==> s.woken[i] != s.woken[j])
  }

  /** Each step keeps that if and only if it is not a callback that stays waiting. */
  lemma StepKeepsExactlyWithoutBlock(s: State, a: Action)
    requires Inv(s) && Enabled(s, a)
    ensures Inv(Apply(s, a)) <==> !(a.FileFires? && a.block)
  {
  }

  lemma {:induction false} RunInv(s: State, acts: seq<Action>)
    requires Inv(s) && Run(s, acts) && NeverBlocks(acts)
    ensures Inv(Exec(s, acts))
    ensures forall w :: w in s.woken ==>
              (w in Exec(s, acts).ret <==> w in s.ret) && (w in s.ret ==> Exec(s, acts).ret[w] == s.ret[w])
    decreases |acts|
  {
    if acts != [] {
      StepKeepsExactlyWithoutBlock(s, acts[0]);
      RunInv(Apply(s, acts[0]), acts[1..]);
      assert forall w :: w in s.woken ==> w in Apply(s, acts[0]).woken;
    }
  }

  /** Exactly once, in every run of callbacks that do not stay waiting: a wait is woken once,
      and then both of its items are gone; it is not woken before one of them fires; no
      iterator to an erased item is ever used. */
  lemma WokenExactlyOnce(acts: seq<Action>, w: Wait)
    requires Run(INIT, acts) && NeverBlocks(acts) && w in Exec(INIT, acts).begun
    ensures var s := Exec(INIT, acts);
            && s.faults == 0
            && (w in s.files <==> w in s.timers)
            && multiset(s.woken)[w] == if w in s.files then 0 else 1
  {
    RunInv(INIT, acts);
    CountOnce(Exec(INIT, acts).woken, w);
  }

  lemma {:induction false} CountOnce(c: seq<Wait>, w: Wait)
    requires forall i, j :: 0 <= i < j < |c| ==> c[i] != c[j]
    ensures multiset(c)[w] == if w in c then 1 else 0
  {
    if c != [] {
      var n := |c| - 1;
      CountOnce(c[..n], w);
      assert c == c[..n] + [c[n]];
    }
  }

  /** The result is that of the side that fired, whatever fires afterwards. */
  lemma ResultIsOfTheSideThatFired(s: State, a: Action, later: seq<Action>)
    requires Inv(s) && !a.Begin? && Run(s, [a] + later) && NeverBlocks([a] + later)
    ensures var s' := Exec(s, [a] + later);
            a.w in s'.ret && s'.ret[a.w] == (if a.FileFires? then a.ret else TIMED_OUT)
  {
    assert ([a] + later)[1..] == later && ([a] + later)[0] == a;
    StepKeepsExactlyWithoutBlock(s, a);
    assert forall i :: 0 <= i < |later| ==> later[i] == ([a] + later)[i + 1];
    RunInv(Apply(s, a), later);
    assert a.w in Apply(s, a).woken;
  }

  /** What a callback that stays waiting costs: its timer item is gone, so that this wait never
      times out in any run, and the next time its file item fires an erased item is erased. */
  lemma BlockingLosesTheTimeout(s: State, w: Wait, ret: int, acts: seq<Action>)
    requires Inv(s) && Enabled(s, FileFires(w, ret, true)) && Run(Apply(s, FileFires(w, ret, true)), acts)
    ensures var s' := Exec(Apply(s, FileFires(w, ret, true)), acts);
            && w !in s'.timers && s'.begun >= s.begun
            && forall ret', block' :: Enabled(s', FileFires(w, ret', block')) ==>
                 Apply(s', FileFires(w, ret', block')).faults == s'.faults + 1
  {
    GoneStaysGone(Apply(s, FileFires(w, ret, true)), acts, w);
  }

  lemma {:induction false} GoneStaysGone(s: State, acts: seq<Action>, w: Wait)
    requires Run(s, acts) && w in s.begun && w !in s.timers
    ensures w !in Exec(s, acts).timers && Exec(s, acts).begun >= s.begun
    decreases |acts|
  {
    if acts != [] { GoneStaysGone(Apply(s, acts[0]), acts[1..], w); }
  }

  // ---------------------------------------------------------------- passes over the lists

  lemma {:induction false} RunThen(s: State, acts: seq<Action>, a: Action)
    requires Run(s, acts) && Enabled(Exec(s, acts), a)
    ensures Run(s, acts + [a]) && Exec(s, acts + [a]) == Apply(Exec(s, acts), a)
    decreases |acts|
  {
    if acts == [] {
      assert [] + [a] == [a] && [a][1..] == [];
    } else {
      RunThen(Apply(s, acts[0]), acts[1..], a);
      assert (acts + [a])[1..] == acts[1..] + [a];
    }
  }

  /** What the callback of a file item answers. */
  datatype Answer = Answer(ret: int, block: bool)

  /** The callbacks that a pass over `items` calls, in order: those of the ready ones. */
  function Fired(items: seq<Wait>, ready: map<Wait, Answer>): seq<Action> {
    var n := |items| - 1;
    if items == [] then []
    else Fired(items[..n], ready) +
         if items[n] in ready then [FileFires(items[n], ready[items[n]].ret, ready[items[n]].block)] else []
  }

  /** The waits that such a pass completes, in order, and those it leaves. */
  function Completed(items: seq<Wait>, ready: map<Wait, Answer>): seq<Wait> {
    var n := |items| - 1;
    if items == [] then []
    else Completed(items[..n], ready) + if items[n] in ready && !ready[items[n]].block then [items[n]] else []
  }

  function Left(items: seq<Wait>, ready: map<Wait, Answer>): seq<Wait> {
    var n := |items| - 1;
    if items == [] then []
    else Left(items[..n], ready) + if items[n] in ready && !ready[items[n]].block then [] else [items[n]]
  }

  function Expired(items: seq<Wait>): seq<Action> {
    var n := |items| - 1;
    if items == [] then [] else Expired(items[..n]) + [TimerFires(items[n])]
  }

  predicate Distinct(items: seq<Wait>) {
    forall i, j :: 0 <= i < j < |items| ==> items[i] != items[j]
  }

  function Members(items: seq<Wait>): set<Wait> {
    set w | w in items
  }

  function Erase(items: seq<Wait>, w: Wait): seq<Wait> {
    if items == [] then []
    else if items[0] == w then items[1..]
    else [items[0]] + Erase(items[1..], w)
  }

  lemma {:induction false} EraseErases(items: seq<Wait>, w: Wait)
    requires Distinct(items)
    ensures Distinct(Erase(items, w)) && Members(Erase(items, w)) == Members(items) - {w}
  {
    if items != [] {
      var r := Erase(items[1..], w);
      EraseErases(items[1..], w);
      assert Members(items) == {items[0]} + Members(items[1..]);
      assert items[0] !in items[1..];
      assert Members([items[0]] + r) == {items[0]} + Members(r);
      assert items[0] != w ==> items[0] !in Members(r);
    }
  }

  lemma {:induction false} EraseAt(items: seq<Wait>, i: nat)
    requires Distinct(items) && i < |items|
    ensures Erase(items, items[i]) == items[..i] + items[i + 1..]
  {
    if i > 0 {
      EraseAt(items[1..], i - 1);
      assert items[..i] == [items[0]] + items[1..][..i - 1];
    }
  }

  /** What is left of a list when the waits in `gone` leave it, in the order it had. */
  function Keep(items: seq<Wait>, gone: set<Wait>): seq<Wait> {
    if items == [] then []
    else if items[0] in gone then Keep(items[1..], gone)
    else [items[0]] + Keep(items[1..], gone)
  }

  lemma {:induction false} KeepAll(items: seq<Wait>)
    ensures Keep(items, {}) == items
  {
    if items != [] { KeepAll(items[1..]); }
  }

  lemma {:induction false} KeepAbsent(items: seq<Wait>, gone: set<Wait>, w: Wait)
    requires w !in items
    ensures Keep(items, gone + {w}) == Keep(items, gone)
  {
    if items != [] { KeepAbsent(items[1..], gone, w); }
  }

  lemma {:induction false} KeepFewer(items: seq<Wait>, gone: set<Wait>, w: Wait)
    requires Distinct(items)
    ensures Erase(Keep(items, gone), w) == Keep(items, gone + {w})
  {
    if items != [] {
      var kept := Keep(items[1..], gone);
      KeepFewer(items[1..], gone, w);
      assert ([items[0]] + kept)[1..] == kept;
      if items[0] == w {
        assert w !in items[1..];
        KeepAbsent(items[1..], gone, w);
        EraseAbsent(kept, w);
        KeptWereThere(items[1..], gone, w);
      }
    }
  }

  lemma {:induction false} KeptWereThere(items: seq<Wait>, gone: set<Wait>, w: Wait)
    requires w !in items
    ensures w !in Keep(items, gone)
  {
    if items != [] { KeptWereThere(items[1..], gone, w); }
  }

  lemma {:induction false} EraseAbsent(items: seq<Wait>, w: Wait)
    ensures w !in items ==> Erase(items, w) == items
  {
    if items != [] { EraseAbsent(items[1..], w); }
  }

  /** The waits whose callbacks a pass over `items` calls. */
  function Called(items: seq<Wait>, ready: map<Wait, Answer>): set<Wait> {
    set w | w in items && w in ready
  }

  lemma CalledMore(all: seq<Wait>, k: nat, ready: map<Wait, Answer>)
    requires k < |all|
    ensures Called(all[..k + 1], ready) == Called(all[..k], ready) + (if all[k] in ready then {all[k]} else {})
    ensures Members(all[..k + 1]) == Members(all[..k]) + {all[k]}
  {
    assert all[..k + 1] == all[..k] + [all[k]];
  }

  lemma PassMore(all: seq<Wait>, k: nat, ready: map<Wait, Answer>)
    requires k < |all|
    ensures var w, f, c, l := all[k], Fired(all[..k], ready), Completed(all[..k], ready), Left(all[..k], ready);
            && Fired(all[..k + 1], ready) ==
                 (if w in ready then f + [FileFires(w, ready[w].ret, ready[w].block)] else f)
            && Completed(all[..k + 1], ready) == (if w in ready && !ready[w].block then c + [w] else c)
            && Left(all[..k + 1], ready) == if w in ready && !ready[w].block then l else l + [w]
  {
    assert all[..k + 1][..k] == all[..k];
  }

  /** A pass over `all` that started in `s0` has dealt with the first `k` items, left `i` of them
      and come to `v`. */
  ghost predicate Passed(v: State, files: seq<Wait>, woken: seq<Wait>, s0: State, woken0: seq<Wait>,
                         all: seq<Wait>, k: nat, i: nat, ready: map<Wait, Answer>) {
    && k <= |all| && Run(s0, Fired(all[..k], ready)) && v == Exec(s0, Fired(all[..k], ready))
    && files == Left(all[..k], ready) + all[k..] && i == |Left(all[..k], ready)|
    && woken == woken0 + Completed(all[..k], ready)
  }

  lemma PassedOver(v: State, files: seq<Wait>, woken: seq<Wait>, s0: State, woken0: seq<Wait>,
                   all: seq<Wait>, k: nat, i: nat, ready: map<Wait, Answer>)
    requires Passed(v, files, woken, s0, woken0, all, k, i, ready) && i < |files| && files[i] !in ready
    ensures k < |all| && files[i] == all[k]
    ensures Passed(v, files, woken, s0, woken0, all, k + 1, i + 1, ready)
  {
    PassMore(all, k, ready);
    TakeOut(Left(all[..k], ready), all, k);
  }

  lemma PassedReady(v: State, files: seq<Wait>, woken: seq<Wait>, s0: State, woken0: seq<Wait>,
                    all: seq<Wait>, k: nat, i: nat, ready: map<Wait, Answer>)
    requires Passed(v, files, woken, s0, woken0, all, k, i, ready) && i < |files| && files[i] in ready
    requires files[i] in v.files
    ensures k < |all| && files[i] == all[k]
    ensures var w := files[i]; var a := ready[w]; var v' := Apply(v, FileFires(w, a.ret, a.block));
            if a.block then Passed(v', files, woken, s0, woken0, all, k + 1, i + 1, ready)
            else Passed(v', files[..i] + files[i + 1..], woken + [w], s0, woken0, all, k + 1, i, ready)
  {
    var w, left := files[i], Left(all[..k], ready);
    TakeOut(left, all, k);
    PassMore(all, k, ready);
    RunThen(s0, Fired(all[..k], ready), FileFires(w, ready[w].ret, ready[w].block));
    Regroup(woken0, Completed(all[..k], ready), w);
  }

  lemma Regroup(a: seq<Wait>, b: seq<Wait>, w: Wait)
    ensures (a + b) + [w] == a + (b + [w])
  {
  }

  /** What the callbacks for the first `k` items have left of the timers. */
  function StillTimed(timers: seq<Wait>, all: seq<Wait>, k: nat, ready: map<Wait, Answer>): seq<Wait>
    requires k <= |all|
  {
    Keep(timers, Called(all[..k], ready))
  }

  lemma PassBegins(v: State, woken: seq<Wait>, timers: seq<Wait>, all: seq<Wait>, ready: map<Wait, Answer>)
    ensures Passed(v, all, woken, v, woken, all, 0, 0, ready) && StillTimed(timers, all, 0, ready) == timers
  {
    KeepAll(timers);
    assert Called(all[..0], ready) == {};
  }

  lemma PassEnds(v: State, files: seq<Wait>, woken: seq<Wait>, s0: State, woken0: seq<Wait>,
                 timers0: seq<Wait>, all: seq<Wait>, k: nat, i: nat, ready: map<Wait, Answer>)
    requires Passed(v, files, woken, s0, woken0, all, k, i, ready) && i >= |files|
    ensures k == |all| && Run(s0, Fired(all, ready)) && v == Exec(s0, Fired(all, ready))
    ensures woken == woken0 + Completed(all, ready) && files == Left(all, ready)
    ensures StillTimed(timers0, all, k, ready) == Keep(timers0, Called(all, ready))
  {
    assert all[..k] == all;
  }

  lemma KeepTurn(others: seq<Wait>, all: seq<Wait>, k: nat, ready: map<Wait, Answer>)
    requires Distinct(others) && k < |all|
    ensures var kept := StillTimed(others, all, k, ready);
            StillTimed(others, all, k + 1, ready) == if all[k] in ready then Erase(kept, all[k]) else kept
  {
    CalledMore(all, k, ready);
    KeepFewer(others, Called(all[..k], ready), all[k]);
    assert Called(all[..k], ready) + {} == Called(all[..k], ready);
  }

  /** A pass over the timers `all` that started in `s0` has fired the first `k` of them and come
      to `v`. */
  ghost predicate Expiring(v: State, timers: seq<Wait>, woken: seq<Wait>, files: seq<Wait>, s0: State,
                           woken0: seq<Wait>, files0: seq<Wait>, all: seq<Wait>, k: nat)
  {
    && k <= |all| && Run(s0, Expired(all[..k])) && v == Exec(s0, Expired(all[..k]))
    && timers == all[k..] && woken == woken0 + all[..k] && files == Keep(files0, Members(all[..k]))
  }

  lemma ExpiryBegins(v: State, woken: seq<Wait>, files: seq<Wait>, all: seq<Wait>)
    ensures Expiring(v, all, woken, files, v, woken, files, all, 0)
  {
    KeepAll(files);
    assert Members(all[..0]) == {};
  }

  lemma ExpireTurn(v: State, timers: seq<Wait>, woken: seq<Wait>, files: seq<Wait>, s0: State,
                   woken0: seq<Wait>, files0: seq<Wait>, all: seq<Wait>, k: nat)
    requires Expiring(v, timers, woken, files, s0, woken0, files0, all, k) && k < |all|
    requires Distinct(files0) && timers[0] in v.timers
    ensures var w := timers[0];
            Expiring(Apply(v, TimerFires(w)), timers[1..], woken + [w], Erase(files, w), s0, woken0, files0, all, k + 1)
  {
    var w := timers[0];
    assert all[..k + 1][..k] == all[..k] && all[k] == w;
    RunThen(s0, Expired(all[..k]), TimerFires(w));
    CalledMore(all, k, map[]);
    KeepFewer(files0, Members(all[..k]), w);
    assert all[..k + 1] == all[..k] + [w];
    Regroup(woken0, all[..k], w);
  }

  lemma TakeOut(left: seq<Wait>, all: seq<Wait>, k: nat)
    requires k < |all|
    ensures var items, i := left + all[k..], |left|;
            && items[i] == all[k] && items == (left + [all[k]]) + all[k + 1..]
            && items[..i] + items[i + 1..] == left + all[k + 1..]
  {
  }

  /** The two lists a timed wait is in, and the results of the awaiters. */
  class Queues {
    var files: seq<Wait>
    var timers: seq<Wait>       // by deadline
    var woken: seq<Wait>
    var ret: map<Wait, int>
    ghost var begun: set<Wait>
    ghost var faults: nat

    ghost predicate Valid()
      reads this
    {
      Distinct(files) && Distinct(timers)
    }

    ghost function View(): State
      reads this
    {
      State(Members(files), Members(timers), begun, woken, ret, faults)
    }

    constructor ()
      ensures Valid() && View() == INIT
    {
      files, timers, woken, ret, begun, faults := [], [], [], map[], {}, 0;
    }

    /** The function FileAwaiter queues in the loop; `at` is where the deadline puts the timer. */
    method Await(w: Wait, at: nat)
      requires Valid() && Enabled(View(), Begin(w)) && w !in files && w !in timers && at <= |timers|
      modifies this
      ensures Valid() && View() == Apply(old(View()), Begin(w)) && files == old(files) + [w]
      ensures timers == old(timers)[..at] + [w] + old(timers)[at..]
    {
      timers := timers[..at] + [w] + timers[at..];
      files := files + [w];
      begun := begun + {w};
    }

    method DelTimer(w: Wait)
      requires Valid()
      modifies this`timers, this`faults
      ensures Valid() && View() == EraseTimer(old(View()), w)
      ensures timers == Erase(old(timers), w)
    {
      EraseErases(timers, w);
      if w !in timers {
        faults := faults + 1;
      }
      timers := Erase(timers, w);
    }

    method DelFile(w: Wait)
      requires Valid()
      modifies this`files, this`faults
      ensures Valid() && View() == EraseFile(old(View()), w)
      ensures files == Erase(old(files), w)
    {
      EraseErases(files, w);
      if w !in files {
        faults := faults + 1;
      }
      files := Erase(files, w);
    }

    /** FileWQ::wakeup over items with FileAwaiter's timed callback: `ready` are the items with
        cached readiness and what the system calls of their callbacks come to. The pass is a run of
        the callbacks in list order; it completes those that do not stay waiting, and takes the
        timers of all of them out of the timer list, whose order it keeps. */
    method FilePass(ready: map<Wait, Answer>)
      requires Valid()
      modifies this
      ensures Valid() && Run(old(View()), Fired(old(files), ready))
      ensures View() == Exec(old(View()), Fired(old(files), ready))
      ensures woken == old(woken) + Completed(old(files), ready) && files == Left(old(files), ready)
      ensures timers == Keep(old(timers), Called(old(files), ready))
    {
      ghost var s0, woken0, timers0, all := View(), woken, timers, files;
      ghost var k := 0;
      PassBegins(s0, woken0, timers0, all, ready);
      var i: nat := 0;
      while i < |files|
        invariant Valid() && Passed(View(), files, woken, s0, woken0, all, k, i, ready)
        invariant timers == StillTimed(timers0, all, k, ready)
        decreases |all| - k
      {
        i := FileTurn(i, ready, s0, woken0, timers0, all, k);
        k := k + 1;
      }
      PassEnds(View(), files, woken, s0, woken0, timers0, all, k, i, ready);
    }

    /** One turn of that loop, at the item `i`, after `k` of the original ones. */
    method FileTurn(i: nat, ready: map<Wait, Answer>, ghost s0: State, ghost woken0: seq<Wait>,
                    ghost timers0: seq<Wait>, ghost all: seq<Wait>, ghost k: nat) returns (next: nat)
      requires Valid() && Passed(View(), files, woken, s0, woken0, all, k, i, ready) && i < |files|
      requires Distinct(timers0) && timers == StillTimed(timers0, all, k, ready)
      modifies this
      ensures Valid() && k < |all| && Passed(View(), files, woken, s0, woken0, all, k + 1, next, ready)
      ensures timers == StillTimed(timers0, all, k + 1, ready)
    {
      var w := files[i];
      next := i + 1;
      if w in ready {
        PassedReady(View(), files, woken, s0, woken0, all, k, i, ready);
        FileCallback(w, i, ready[w]);
        next := if ready[w].block then i + 1 else i;
      } else {
        PassedOver(View(), files, woken, s0, woken0, all, k, i, ready);
      }
      KeepTurn(timers0, all, k, ready);
    }

    /** The callback wrapper and what the dispatcher does with its answer. */
    method FileCallback(w: Wait, i: nat, a: Answer)
      requires Valid() && i < |files| && files[i] == w
      modifies this
      ensures Valid() && View() == Apply(old(View()), FileFires(w, a.ret, a.block))
      ensures woken == old(woken) + (if a.block then [] else [w])
      ensures files == if a.block then old(files) else old(files[..i] + files[i + 1..])
      ensures timers == Erase(old(timers), w)
    {
      DelTimer(w);
      ret := ret[w := a.ret];
      if !a.block {
        EraseAt(files, i);
        DelFile(w);
        woken := woken + [w];
      }
    }

    /** TimeWQ::wakeup over items with FileAwaiter's timeout callback, `due` of which are due: a run
        of the timeouts in order of their deadlines, which takes their file items out of the file list
        and keeps the order of that. */
    method TimerPass(due: nat)
      requires Valid() && due <= |timers|
      modifies this
      ensures Valid() && Run(old(View()), Expired(old(timers)[..due]))
      ensures View() == Exec(old(View()), Expired(old(timers)[..due]))
      ensures woken == old(woken) + old(timers)[..due] && timers == old(timers)[due..]
      ensures files == Keep(old(files), Members(old(timers)[..due]))
    {
      ghost var s0, woken0, files0, all := View(), woken, files, timers;
      var k := 0;
      ExpiryBegins(s0, woken0, files0, all);
      while k < due
        invariant k <= due <= |all| && Valid()
        invariant Expiring(View(), timers, woken, files, s0, woken0, files0, all, k)
      {
        ExpireTurn(View(), timers, woken, files, s0, woken0, files0, all, k);
        TimerCallback(timers[0]);
        k := k + 1;
      }
    }

    method TimerCallback(w: Wait)
      requires Valid() && timers != [] && timers[0] == w
      modifies this
      ensures Valid() && View() == Apply(old(View()), TimerFires(w))
      ensures woken == old(woken) + [w] && timers == old(timers)[1..] && files == Erase(old(files), w)
    {
      ret := ret[w := TIMED_OUT];
      DelFile(w);
      timers := timers[1..];
      woken := woken + [w];
    }
  }
}
