/** FileWQ: the waiters of one descriptor and the dispatch of cached readiness to them. */
module FileWaitQueue {
  import opened Options

  datatype Bit = IN | PRI | OUT | ERR | HUP | RDHUP | ET

  /** A `uint` of epoll bits, as the set of the bits that are one. */
  type Word = set<Bit>

  const READ_MASK: Word := {IN, PRI}
  const WRITE_MASK: Word := {OUT}

  datatype IoRet = IoRet(ret: int, exhausted: bool, block: bool)

  /** `h` is None for a null handle; without `hasCb` the item has an empty callback. */
  datatype WaitItem = WaitItem(h: Option<nat>, events: Word, hasCb: bool)

  /** What the k-th callback call of a pass answers, for the item and the bits it is called
      with. An answer may depend on k, so it stands for any state the callbacks keep and for
      anything their system calls return. */
  type Answers = (nat, WaitItem, Word) -> IoRet

  /** The contract of a callback: one that stays waiting has exhausted its readiness, and one
      called with none of its own bits, so only because of RDHUP, does not stay waiting. */
  ghost predicate Contract(cb: Answers) {
    forall k, w, ev :: Keeps(cb(k, w, ev), w, ev)
  }

  predicate Keeps(a: IoRet, w: WaitItem, ev: Word) {
    (a.block ==> a.exhausted) && (ev * w.events == {} ==> !a.block)
  }

  function Hit(w: WaitItem, revents: Word): Word {
    revents * (w.events + {RDHUP})
  }

  // ---------------------------------------------------------------- the pass as a function

  datatype Outcome = Outcome(done: seq<WaitItem>, rest: seq<WaitItem>, revents: Word, calls: nat)

  /** What one pass over `items` completes and leaves, starting with call number `k`. */
  function Dispatch(items: seq<WaitItem>, revents: Word, cb: Answers, k: nat): Outcome
    requires Contract(cb)
    decreases |items|, |revents|
  {
    if items == [] || revents == {} then Outcome([], items, revents, k)
    else
      var w := items[0];
      if Hit(w, revents) == {} then
        var o := Dispatch(items[1..], revents, cb, k);
        o.(rest := [w] + o.rest)
      else if !w.hasCb then
        var o := Dispatch(items[1..], revents, cb, k);
        o.(done := [w] + o.done)
      else
        var a := cb(k, w, Hit(w, revents));
        var left := if a.exhausted then revents - w.events else revents;
        if a.block then
          Shrinks(w, revents, a, left);
          Dispatch(items, left, cb, k + 1)
        else
          var o := Dispatch(items[1..], left, cb, k + 1);
          o.(done := [w] + o.done)
  }

  /** An item that stays waiting uses up at least one bit: why the pass ends. */
  lemma Shrinks(w: WaitItem, revents: Word, a: IoRet, left: Word)
    requires Keeps(a, w, Hit(w, revents)) && a.block
    requires left == if a.exhausted then revents - w.events else revents
    ensures left < revents && |left| < |revents|
  {
  }

  /** Without the contract the loop can turn for ever: after a callback that stays waiting and
      leaves its bits, or is called for RDHUP alone, the next turn starts where this one did. */
  lemma NoProgressExactlyWithoutContract(w: WaitItem, revents: Word, a: IoRet)
    requires RDHUP !in w.events && Hit(w, revents) != {} && a.block
    ensures (if a.exhausted then revents - w.events else revents) == revents <==> !Keeps(a, w, Hit(w, revents))
  {
  }

  // ---------------------------------------------------------------- what a pass guarantees

  ghost predicate Quiet(w: WaitItem, revents: Word) {
    revents * (w.events + {RDHUP}) == {}
  }

  /** When a pass ends, no readiness it leaves cached concerns a waiter it leaves. */
  lemma {:induction false} PassLeavesNothingReady(items: seq<WaitItem>, revents: Word, cb: Answers, k: nat)
    requires Contract(cb)
    ensures var o := Dispatch(items, revents, cb, k);
            o.revents <= revents && forall i :: 0 <= i < |o.rest| ==> Quiet(o.rest[i], o.revents)
    decreases |items|, |revents|
  {
    if items == [] || revents == {} {
    } else {
      var w := items[0];
      var a := cb(k, w, Hit(w, revents));
      var left := if a.exhausted then revents - w.events else revents;
      if Hit(w, revents) == {} {
        PassLeavesNothingReady(items[1..], revents, cb, k);
        var o := Dispatch(items[1..], revents, cb, k);
        assert o.revents * (w.events + {RDHUP}) <= Hit(w, revents);
      } else if !w.hasCb {
        PassLeavesNothingReady(items[1..], revents, cb, k);
      } else if a.block {
        Shrinks(w, revents, a, left);
        PassLeavesNothingReady(items, left, cb, k + 1);
      } else {
        PassLeavesNothingReady(items[1..], left, cb, k + 1);
      }
    }
  }

  function OfMask(items: seq<WaitItem>, m: Word): (r: seq<WaitItem>)
  {
    if items == [] then []
    else (if items[0].events == m then [items[0]] else []) + OfMask(items[1..], m)
  }

  /** Waiters of a mask with no cached readiness are passed by. */
  lemma {:induction false} NotReadyNotServed(items: seq<WaitItem>, revents: Word, cb: Answers, k: nat, m: Word)
    requires Contract(cb) && RDHUP !in revents && revents * m == {}
    ensures var o := Dispatch(items, revents, cb, k);
            OfMask(o.done, m) == [] && OfMask(o.rest, m) == OfMask(items, m)
    decreases |items|, |revents|
  {
    if items == [] || revents == {} {
    } else {
      var w := items[0];
      var a := cb(k, w, Hit(w, revents));
      var left := if a.exhausted then revents - w.events else revents;
      assert left * m == {};
      if Hit(w, revents) == {} || !w.hasCb {
        NotReadyNotServed(items[1..], revents, cb, k, m);
        OfMaskHead(w, Dispatch(items[1..], revents, cb, k), m);
      } else if a.block {
        Shrinks(w, revents, a, left);
        NotReadyNotServed(items, left, cb, k + 1, m);
      } else {
        NotReadyNotServed(items[1..], left, cb, k + 1, m);
        OfMaskHead(w, Dispatch(items[1..], left, cb, k + 1), m);
      }
      assert w.events == m ==> Hit(w, revents) == {};
    }
  }

  lemma OfMaskHead(w: WaitItem, o: Outcome, m: Word)
    ensures OfMask([w] + o.rest, m) == (if w.events == m then [w] else []) + OfMask(o.rest, m)
    ensures OfMask([w] + o.done, m) == (if w.events == m then [w] else []) + OfMask(o.done, m)
  {
  }

  /** With the two masks in use and no hang-up, a pass completes, of either mask, the oldest
      waiters first: what it completes and then what it leaves is what there was, in order. */
  lemma {:induction false} PassServesOldestFirst(items: seq<WaitItem>, revents: Word, cb: Answers, k: nat, m: Word)
    requires Contract(cb) && RDHUP !in revents
    requires forall i :: 0 <= i < |items| ==> items[i].events == m || items[i].events * m == {}
    ensures var o := Dispatch(items, revents, cb, k);
            OfMask(items, m) == OfMask(o.done, m) + OfMask(o.rest, m)
    decreases |items|, |revents|
  {
    if items == [] || revents == {} {
    } else {
      var w, tail := items[0], items[1..];
      var a := cb(k, w, Hit(w, revents));
      var left := if a.exhausted then revents - w.events else revents;
      if Hit(w, revents) == {} {
        PassedBy(w, tail, revents, cb, k, m);
        if w.events != m { PassServesOldestFirst(tail, revents, cb, k, m); }
      } else if !w.hasCb {
        PassServesOldestFirst(tail, revents, cb, k, m);
        DoneFirst(w, tail, Dispatch(tail, revents, cb, k), m);
      } else if a.block {
        Shrinks(w, revents, a, left);
        PassServesOldestFirst(items, left, cb, k + 1, m);
      } else {
        PassServesOldestFirst(tail, left, cb, k + 1, m);
        DoneFirst(w, tail, Dispatch(tail, left, cb, k + 1), m);
      }
    }
  }

  /** That is so for the readers and the writers of a descriptor. */
  lemma ReadersAndWritersOldestFirst(items: seq<WaitItem>, revents: Word, cb: Answers, k: nat)
    requires Contract(cb) && RDHUP !in revents
    requires forall i :: 0 <= i < |items| ==> items[i].events in {READ_MASK, WRITE_MASK}
    ensures var o := Dispatch(items, revents, cb, k);
            && OfMask(items, READ_MASK) == OfMask(o.done, READ_MASK) + OfMask(o.rest, READ_MASK)
            && OfMask(items, WRITE_MASK) == OfMask(o.done, WRITE_MASK) + OfMask(o.rest, WRITE_MASK)
  {
    assert READ_MASK * WRITE_MASK == {};
    PassServesOldestFirst(items, revents, cb, k, READ_MASK);
    PassServesOldestFirst(items, revents, cb, k, WRITE_MASK);
  }

  /** A pass never clears a cached hang-up: only bits of the waiters' masks are cleared. */
  lemma {:induction false} HangUpStaysCached(items: seq<WaitItem>, revents: Word, cb: Answers, k: nat)
    requires Contract(cb) && forall i :: 0 <= i < |items| ==> RDHUP !in items[i].events
    ensures RDHUP in Dispatch(items, revents, cb, k).revents <==> RDHUP in revents
    decreases |items|, |revents|
  {
    if items == [] || revents == {} {
    } else {
      var w := items[0];
      var a := cb(k, w, Hit(w, revents));
      var left := if a.exhausted then revents - w.events else revents;
      if Hit(w, revents) == {} || !w.hasCb {
        HangUpStaysCached(items[1..], revents, cb, k);
      } else if a.block {
        Shrinks(w, revents, a, left);
        HangUpStaysCached(items, left, cb, k + 1);
      } else {
        HangUpStaysCached(items[1..], left, cb, k + 1);
      }
    }
  }

  lemma PassedBy(w: WaitItem, tail: seq<WaitItem>, revents: Word, cb: Answers, k: nat, m: Word)
    requires Contract(cb) && RDHUP !in revents && Hit(w, revents) == {}
    ensures var o := Dispatch(tail, revents, cb, k);
            && (w.events == m ==> OfMask(o.done, m) + OfMask([w] + o.rest, m) == [w] + OfMask(tail, m))
            && (w.events != m ==> OfMask([w] + o.rest, m) == OfMask(o.rest, m))
  {
    OfMaskHead(w, Dispatch(tail, revents, cb, k), m);
    if w.events == m {
      assert revents * m <= Hit(w, revents);
      NotReadyNotServed(tail, revents, cb, k, m);
    }
  }

  lemma DoneFirst(w: WaitItem, tail: seq<WaitItem>, o: Outcome, m: Word)
    requires OfMask(tail, m) == OfMask(o.done, m) + OfMask(o.rest, m)
    ensures (if w.events == m then [w] else []) + OfMask(tail, m) == OfMask([w] + o.done, m) + OfMask(o.rest, m)
  {
  }

  lemma OneMore(w: WaitItem, a: seq<WaitItem>, b: seq<WaitItem>, items: seq<WaitItem>)
    requires items != [] && items[0] == w && multiset(a) + multiset(b) == multiset(items[1..])
    ensures multiset([w] + a) + multiset(b) == multiset(items) && multiset(a) + multiset([w] + b) == multiset(items)
  {
    assert items == [w] + items[1..];
  }

  /** Nobody is lost or doubled. */
  lemma {:induction false} PassConserves(items: seq<WaitItem>, revents: Word, cb: Answers, k: nat)
    requires Contract(cb)
    ensures var o := Dispatch(items, revents, cb, k); multiset(o.done) + multiset(o.rest) == multiset(items)
    decreases |items|, |revents|
  {
    if items == [] || revents == {} {
    } else {
      var w := items[0];
      var a := cb(k, w, Hit(w, revents));
      var left := if a.exhausted then revents - w.events else revents;
      if Hit(w, revents) == {} || !w.hasCb {
        PassConserves(items[1..], revents, cb, k);
        var o := Dispatch(items[1..], revents, cb, k);
        OneMore(w, o.done, o.rest, items);
      } else if a.block {
        Shrinks(w, revents, a, left);
        PassConserves(items, left, cb, k + 1);
      } else {
        PassConserves(items[1..], left, cb, k + 1);
        var o := Dispatch(items[1..], left, cb, k + 1);
        OneMore(w, o.done, o.rest, items);
      }
    }
  }

  ghost predicate AllReady(done: seq<WaitItem>, revents: Word) {
    forall i :: 0 <= i < |done| ==> !Quiet(done[i], revents)
  }

  lemma ReadyBefore(done: seq<WaitItem>, left: Word, revents: Word)
    requires AllReady(done, left) && left <= revents
    ensures AllReady(done, revents)
  {
    forall i | 0 <= i < |done| ensures !Quiet(done[i], revents) {
      var b :| b in left * (done[i].events + {RDHUP});
      assert b in revents * (done[i].events + {RDHUP});
    }
  }

  lemma OneMoreReady(w: WaitItem, done: seq<WaitItem>, revents: Word)
    requires AllReady(done, revents) && !Quiet(w, revents)
    ensures AllReady([w] + done, revents)
  {
  }

  /** Nobody is completed without readiness. */
  lemma {:induction false} CompletedWereReady(items: seq<WaitItem>, revents: Word, cb: Answers, k: nat)
    requires Contract(cb)
    ensures AllReady(Dispatch(items, revents, cb, k).done, revents)
    decreases |items|, |revents|
  {
    if items == [] || revents == {} {
    } else {
      var w := items[0];
      var a := cb(k, w, Hit(w, revents));
      var left := if a.exhausted then revents - w.events else revents;
      if Hit(w, revents) == {} {
        CompletedWereReady(items[1..], revents, cb, k);
      } else if !w.hasCb {
        CompletedWereReady(items[1..], revents, cb, k);
        OneMoreReady(w, Dispatch(items[1..], revents, cb, k).done, revents);
      } else if a.block {
        Shrinks(w, revents, a, left);
        CompletedWereReady(items, left, cb, k + 1);
        ReadyBefore(Dispatch(items, left, cb, k + 1).done, left, revents);
      } else {
        CompletedWereReady(items[1..], left, cb, k + 1);
        ReadyBefore(Dispatch(items[1..], left, cb, k + 1).done, left, revents);
        OneMoreReady(w, Dispatch(items[1..], left, cb, k + 1).done, revents);
      }
    }
  }

  /** A call of a callback: of which item, with what cached before it, and what it answers. */
  datatype Call = Call(w: WaitItem, before: Word, a: IoRet)

  /** `log` are the calls of a pass from `revents` on, which leave `left` cached: each is of an item
      with a callback that the cached readiness concerns, with just those bits, and the next one
      sees what it leaves, which is without the item's bits if it has exhausted them, whether it
      goes on waiting or not. */
  ghost predicate Logged(log: seq<Call>, revents: Word, left: Word, cb: Answers, k: nat) {
    if log == [] then left == revents
    else
      var c := log[0];
      var ev := revents * (c.w.events + {RDHUP});
      && c.before == revents && c.w.hasCb && ev != {} && c.a == cb(k, c.w, ev)
      && Logged(log[1..], revents - if c.a.exhausted then c.w.events else {}, left, cb, k + 1)
  }

  /** The items whose callbacks end their wait, in the order of those calls. */
  function EndedWaits(log: seq<Call>): seq<WaitItem> {
    if log == [] then [] else (if log[0].a.block then [] else [log[0].w]) + EndedWaits(log[1..])
  }

  function WithCallback(items: seq<WaitItem>): seq<WaitItem> {
    if items == [] then [] else (if items[0].hasCb then [items[0]] else []) + WithCallback(items[1..])
  }

  lemma CalledFirst(w: WaitItem, revents: Word, a: IoRet, log: seq<Call>, left: Word, cb: Answers, k: nat)
    requires w.hasCb && Hit(w, revents) != {} && a == cb(k, w, Hit(w, revents))
    requires Logged(log, revents - if a.exhausted then w.events else {}, left, cb, k + 1)
    ensures Logged([Call(w, revents, a)] + log, revents, left, cb, k)
    ensures EndedWaits([Call(w, revents, a)] + log) == (if a.block then [] else [w]) + EndedWaits(log)
  {
    assert ([Call(w, revents, a)] + log)[1..] == log;
  }

  lemma WithCallbackFirst(w: WaitItem, done: seq<WaitItem>)
    ensures WithCallback([w] + done) == (if w.hasCb then [w] else []) + WithCallback(done)
  {
  }

  /** Every pass is such a log of calls, and completes, of the items with callbacks, exactly those
      whose callbacks end their wait, in that order. */
  lemma {:induction false} PassIsLogged(items: seq<WaitItem>, revents: Word, cb: Answers, k: nat)
    returns (log: seq<Call>)
    requires Contract(cb)
    ensures var o := Dispatch(items, revents, cb, k);
            && Logged(log, revents, o.revents, cb, k) && o.calls == k + |log|
            && EndedWaits(log) == WithCallback(o.done)
    decreases |items|, |revents|
  {
    log := [];
    if items != [] && revents != {} {
      var w := items[0];
      var a := cb(k, w, Hit(w, revents));
      var left := if a.exhausted then revents - w.events else revents;
      if Hit(w, revents) == {} {
        log := PassIsLogged(items[1..], revents, cb, k);
      } else if !w.hasCb {
        log := PassIsLogged(items[1..], revents, cb, k);
        WithCallbackFirst(w, Dispatch(items[1..], revents, cb, k).done);
      } else if a.block {
        Shrinks(w, revents, a, left);
        var more := PassIsLogged(items, left, cb, k + 1);
        CalledFirst(w, revents, a, more, Dispatch(items, left, cb, k + 1).revents, cb, k);
        log := [Call(w, revents, a)] + more;
      } else {
        var more := PassIsLogged(items[1..], left, cb, k + 1);
        CalledFirst(w, revents, a, more, Dispatch(items[1..], left, cb, k + 1).revents, cb, k);
        WithCallbackFirst(w, Dispatch(items[1..], left, cb, k + 1).done);
        log := [Call(w, revents, a)] + more;
      }
    }
  }

  // ---------------------------------------------------------------- the socket callbacks

  /** What one attempt of a system call gives, after the retries for EINTR. */
  datatype SysRet = Done(n: nat) | WouldBlock | Failed

  /** The callbacks of `accept` and `readv`. */
  function ReadAnswer(r: SysRet): IoRet {
    match r
    case Done(n) => IoRet(n, false, false)
    case WouldBlock => IoRet(-1, true, true)
    case Failed => IoRet(-1, false, false)
  }

  /** The callback of `connect`: it returns what getsockopt returned. */
  function ConnectAnswer(n: int): IoRet {
    IoRet(n, false, false)
  }

  /** The reading callbacks keep the contract exactly if the kernel never blocks a call made
      for a hang-up alone; the one of `connect` always does. */
  lemma SocketCallbacksKeepContract(r: SysRet, n: int, w: WaitItem, ev: Word)
    ensures Keeps(ReadAnswer(r), w, ev) <==> !(r == WouldBlock && ev * w.events == {})
    ensures Keeps(ConnectAnswer(n), w, ev)
    ensures ReadAnswer(r).ret == if r.Done? then r.n else -1
    ensures (ReadAnswer(r).block <==> r == WouldBlock) && !ConnectAnswer(n).block && ConnectAnswer(n).ret == n
  {
  }

  // ---------------------------------------------------------------- the class

  function Handles(items: seq<WaitItem>): seq<nat> {
    if items == [] then []
    else (if items[0].h.Some? then [items[0].h.value] else []) + Handles(items[1..])
  }

  lemma {:induction false} HandlesSnoc(a: seq<WaitItem>, w: WaitItem)
    ensures Handles(a + [w]) == Handles(a) + (if w.h.Some? then [w.h.value] else [])
  {
    if a == [] {
      assert a + [w] == [w] && [w][1..] == [];
    } else {
      HandlesSnoc(a[1..], w);
      assert (a + [w])[1..] == a[1..] + [w];
    }
  }

  class FileWQ {
    var revents: Word
    var wevents: Word
    var waked: bool
    var items: seq<WaitItem>

    constructor ()
      ensures revents == {} && wevents == {} && !waked && items == []
    {
      revents, wevents, waked, items := {}, {}, false, [];
    }

    method AddREvents(r: Word)
      modifies this`revents
      ensures revents == old(revents) + r
    {
      revents := revents + r;
    }

    method AddWait(w: WaitItem) returns (at: nat)
      modifies this`items
      ensures items == old(items) + [w] && at == |old(items)|
    {
      at := |items|;
      items := items + [w];
    }

    method DelWait(at: nat)
      requires at < |items|
      modifies this`items
      ensures items == old(items[..at] + items[at + 1..])
    {
      items := items[..at] + items[at + 1..];
    }

    /** Erasing the item at `at` and yielding its handle, if any. */
    method Complete(at: nat) returns (h: Option<nat>)
      requires at < |items|
      modifies this`items
      ensures items == old(items[..at] + items[at + 1..]) && h == old(items[at].h)
      ensures items[..at] == old(items[..at]) && items[at..] == old(items[at + 1..])
    {
      h := items[at].h;
      DelWait(at);
    }

    /** Calling the item's callback, if it has one, and dropping exhausted readiness. */
    method Ask(w: WaitItem, cb: Answers, k: nat) returns (completes: bool)
      modifies this`revents
      ensures revents == LeftAfter(w, old(revents), cb, k)
      ensures revents == old(revents) - if w.hasCb && cb(k, w, Hit(w, old(revents))).exhausted then w.events else {}
      ensures completes <==> (w.hasCb ==> !cb(k, w, Hit(w, old(revents))).block)
    {
      completes := true;
      if w.hasCb {
        var a := cb(k, w, Hit(w, revents));
        if a.exhausted {
          revents := revents - w.events;
        }
        completes := !a.block;
      }
    }

    /** `wakeup`: `woken` is what the generator yields, in order. */
    method Wakeup(cb: Answers, k: nat) returns (woken: seq<nat>, ghost done: seq<WaitItem>)
      requires Contract(cb)
      modifies this`items, this`revents
      ensures var o := Dispatch(old(items), old(revents), cb, k);
              items == o.rest && revents == o.revents && done == o.done && woken == Handles(o.done)
    {
      woken, done := [], [];
      var i, calls := 0, k;
      ghost var all := Dispatch(items, revents, cb, k);
      assert items[0..] == items;
      while i < |items| && revents != {}
        invariant i <= |items| && woken == Handles(done)
        invariant Continues(all, done, items[..i], Dispatch(items[i..], revents, cb, calls))
        decreases |items| - i, |revents|
      {
        if Hit(items[i], revents) != {} {
          woken, calls, done := Serve(i, calls, cb, woken, all, done);
        } else {
          TurnPasses(all, done, items[..i], items[i..], revents, cb, calls);
          assert items[..i] + [items[i]] == items[..i + 1] && items[i..][1..] == items[i + 1..];
          i := i + 1;
        }
      }
      assert items[..i] + items[i..] == items;
    }

    /** A turn of the loop at an item that the cached readiness concerns. */
    method Serve(i: nat, calls: nat, cb: Answers, woken: seq<nat>, ghost all: Outcome, ghost done: seq<WaitItem>)
      returns (woken': seq<nat>, calls': nat, ghost done': seq<WaitItem>)
      requires Contract(cb) && i < |items| && revents != {} && Hit(items[i], revents) != {} && woken == Handles(done)
      requires Continues(all, done, items[..i], Dispatch(items[i..], revents, cb, calls))
      modifies this`items, this`revents
      ensures i <= |items| && woken' == Handles(done') && items[..i] == old(items[..i])
      ensures Continues(all, done', items[..i], Dispatch(items[i..], revents, cb, calls'))
      ensures |items| < |old(items)| || (items == old(items) && |revents| < |old(revents)|)
    {
      var w := items[i];
      ghost var tail, before := items[i..], revents;
      var completes := Ask(w, cb, calls);
      calls' := if w.hasCb then calls + 1 else calls;
      woken', done' := woken, done;
      if completes {
        TurnDone(all, done, items[..i], tail, before, cb, calls, revents);
        HandlesSnoc(done, w);
        done' := done + [w];
        var h := Complete(i);
        if h.Some? {
          woken' := woken + [h.value];
        }
      } else {
        TurnStays(all, done, items[..i], tail, before, cb, calls, revents);
      }
    }
  }

  /** The outcome `all` is what is done and passed by so far, continued with `o`. */
  ghost predicate Continues(all: Outcome, done: seq<WaitItem>, passed: seq<WaitItem>, o: Outcome) {
    all == Outcome(done + o.done, passed + o.rest, o.revents, o.calls)
  }

  function LeftAfter(w: WaitItem, revents: Word, cb: Answers, k: nat): Word {
    if w.hasCb && cb(k, w, Hit(w, revents)).exhausted then revents - w.events else revents
  }

  lemma TurnDone(all: Outcome, done: seq<WaitItem>, passed: seq<WaitItem>, tail: seq<WaitItem>,
                 revents: Word, cb: Answers, k: nat, left: Word)
    requires Contract(cb) && tail != [] && Hit(tail[0], revents) != {}
    requires tail[0].hasCb ==> !cb(k, tail[0], Hit(tail[0], revents)).block
    requires left == LeftAfter(tail[0], revents, cb, k)
    requires Continues(all, done, passed, Dispatch(tail, revents, cb, k))
    ensures Continues(all, done + [tail[0]], passed, Dispatch(tail[1..], left, cb, if tail[0].hasCb then k + 1 else k))
  {
  }

  lemma TurnStays(all: Outcome, done: seq<WaitItem>, passed: seq<WaitItem>, tail: seq<WaitItem>,
                  revents: Word, cb: Answers, k: nat, left: Word)
    requires Contract(cb) && tail != [] && Hit(tail[0], revents) != {}
    requires tail[0].hasCb && cb(k, tail[0], Hit(tail[0], revents)).block
    requires left == LeftAfter(tail[0], revents, cb, k)
    requires Continues(all, done, passed, Dispatch(tail, revents, cb, k))
    ensures Continues(all, done, passed, Dispatch(tail, left, cb, k + 1)) && |left| < |revents|
  {
  }

  lemma TurnPasses(all: Outcome, done: seq<WaitItem>, passed: seq<WaitItem>, tail: seq<WaitItem>,
                   revents: Word, cb: Answers, k: nat)
    requires Contract(cb) && tail != [] && Hit(tail[0], revents) == {} && revents != {}
    requires Continues(all, done, passed, Dispatch(tail, revents, cb, k))
    ensures Continues(all, done, passed + [tail[0]], Dispatch(tail[1..], revents, cb, k))
  {
  }
}
