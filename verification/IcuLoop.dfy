/** ICU's loop in place: the list of woken wait queues, the posted work, and the three phases of
    a turn over the FileWQ objects themselves. */
module IcuLoop {
  import opened FileWaitQueue

  /** Work posted with queueInLoop: the registration of a waiter. */
  datatype Posting = Posting(q: FileWQ, w: WaitItem)

  datatype Report = Report(q: FileWQ, events: Word)

  /** The waiters that `funcs` registers with `q`, in order. */
  ghost function AddedTo(funcs: seq<Posting>, q: FileWQ): seq<WaitItem> {
    if funcs == [] then []
    else (if funcs[0].q == q then [funcs[0].w] else []) + AddedTo(funcs[1..], q)
  }

  /** Each posting registers its waiter with its own queue, behind those before it. */
  lemma {:induction false} AddedByEach(a: seq<Posting>, f: Posting, q: FileWQ)
    ensures AddedTo(a + [f], q) == AddedTo(a, q) + if f.q == q then [f.w] else []
    ensures AddedTo([], q) == []
  {
    if a == [] {
      assert a + [f] == [f] && [f][1..] == [];
    } else {
      AddedByEach(a[1..], f, q);
      assert (a + [f])[1..] == a[1..] + [f];
    }
  }

  /** What the generators of a round yield to wakeCB_, one after the other: those of the k-th queue
      stand from `off[k]` up to `off[k + 1]`. */
  ghost predicate Yielded(woken: seq<nat>, off: seq<nat>, outs: seq<Outcome>) {
    && |off| == |outs| + 1 && off[0] == 0 && off[|outs|] == |woken|
    && forall k, l :: 0 <= k < |outs| && l == k + 1 ==>
         off[k] <= off[l] <= |woken| && woken[off[k]..off[l]] == Handles(outs[k].done)
  }

  lemma YieldedAt(woken: seq<nat>, off: seq<nat>, outs: seq<Outcome>, k: nat)
    requires Yielded(woken, off, outs)
    ensures |off| == |outs| + 1 && off[0] == 0 && off[|outs|] == |woken|
    ensures k < |outs| ==> off[k] <= off[k + 1] <= |woken| && woken[off[k]..off[k + 1]] == Handles(outs[k].done)
  {
  }

  lemma YieldedMore(woken: seq<nat>, off: seq<nat>, outs: seq<Outcome>, o: Outcome, ge: seq<nat>)
    requires Yielded(woken, off, outs) && ge == Handles(o.done)
    ensures Yielded(woken + ge, off + [|woken| + |ge|], outs + [o])
  {
    var w, off', outs' := woken + ge, off + [|woken| + |ge|], outs + [o];
    YieldedAt(woken, off, outs, 0);
    forall k, l | 0 <= k < |outs'| && l == k + 1
      ensures off'[k] <= off'[l] <= |w| && w[off'[k]..off'[l]] == Handles(outs'[k].done)
    {
      if k < |outs| {
        YieldedAt(woken, off, outs, k);
        assert outs'[k] == outs[k] && off'[k] == off[k] && off'[l] == off[l];
        assert w[off[k]..off[l]] == woken[off[k]..off[l]];
      } else {
        assert outs'[k] == o && off'[k] == |woken| && off'[l] == |w|;
        assert w[|woken|..|w|] == ge;
      }
    }
  }

  ghost function Queues(reports: seq<Report>): (r: seq<FileWQ>)
    ensures |r| == |reports| && forall k :: 0 <= k < |r| ==> r[k] == reports[k].q
  {
    if reports == [] then [] else [reports[0].q] + Queues(reports[1..])
  }

  /** The bits that `reports` has for `q`. */
  ghost function ReportedFor(reports: seq<Report>, q: FileWQ): Word {
    if reports == [] then {}
    else (if reports[0].q == q then reports[0].events else {}) + ReportedFor(reports[1..], q)
  }

  lemma {:induction false} ReportedAt(reports: seq<Report>, q: FileWQ)
    requires forall k, l :: 0 <= k < l < |reports| ==> reports[k].q != reports[l].q
    ensures (forall k :: 0 <= k < |reports| ==> reports[k].q != q) ==> ReportedFor(reports, q) == {}
    ensures forall k :: 0 <= k < |reports| && reports[k].q == q ==> ReportedFor(reports, q) == reports[k].events
  {
    if reports != [] {
      ReportedAt(reports[1..], q);
      assert forall k :: 0 < k < |reports| ==> reports[1..][k - 1] == reports[k];
    }
  }

  /** No cached readiness concerns a waiter. */
  ghost predicate Settled(items: seq<WaitItem>, revents: Word) {
    forall j :: 0 <= j < |items| ==> Quiet(items[j], revents)
  }

  class ICU {
    ghost const wqs: set<FileWQ>
    var list: seq<FileWQ>
    var funcs: seq<Posting>

    /** list_ holds the queues marked as woken, each once; the others are settled. */
    ghost predicate Valid()
      reads this, wqs
    {
      && (forall k :: 0 <= k < |list| ==> list[k] in wqs && list[k].waked)
      && (forall k, l :: 0 <= k < l < |list| ==> list[k] != list[l])
      && (forall q :: q in wqs && q.waked ==> q in list)
      && (forall q :: q in wqs && !q.waked ==> Settled(q.items, q.revents))
      && (forall k :: 0 <= k < |funcs| ==> funcs[k].q in wqs)
    }

    constructor (all: set<FileWQ>)
      requires forall q :: q in all ==> !q.waked && q.items == []
      ensures Valid() && wqs == all && list == [] && funcs == []
    {
      wqs, list, funcs := all, [], [];
    }

    method WakeWQ(q: FileWQ)
      modifies this`list, q`waked
      ensures q.waked && list == old(list) + if old(q.waked) then [] else [q]
    {
      if !q.waked {
        q.waked := true;
        list := list + [q];
      }
    }

    /** The first phase: the posted work, each piece adding a waiter and waking its queue, so that
        readiness that came before the waiter is offered to it. */
    method Drain()
      requires Valid()
      modifies this`list, this`funcs, wqs`items, wqs`waked
      ensures Valid() && funcs == [] && old(list) <= list
      ensures forall q :: q in wqs ==>
                && q.items == old(q.items) + AddedTo(old(funcs), q)
                && (q.waked <==> old(q.waked) || AddedTo(old(funcs), q) != [])
    {
      while funcs != []
        invariant Valid() && old(list) <= list
        invariant forall q :: q in wqs ==> q.items + AddedTo(funcs, q) == old(q.items) + AddedTo(old(funcs), q)
        invariant forall q :: q in wqs ==>
                    (q.waked || AddedTo(funcs, q) != [] <==> old(q.waked) || AddedTo(old(funcs), q) != [])
        decreases |funcs|
      {
        DrainOne();
      }
    }

    method DrainOne()
      requires Valid() && funcs != []
      modifies this`list, this`funcs, wqs`items, wqs`waked
      ensures Valid() && funcs == old(funcs)[1..] && old(list) <= list
      ensures forall q :: q in wqs ==>
                && q.items + AddedTo(funcs, q) == old(q.items) + AddedTo(old(funcs), q)
                && (q.waked || AddedTo(funcs, q) != [] <==> old(q.waked) || AddedTo(old(funcs), q) != [])
    {
      var f := funcs[0];
      funcs := funcs[1..];
      var _ := f.q.AddWait(f.w);
      WakeWQ(f.q);
      assert f.q in list;
    }

    /** The queues of list_ before `i` have been dispatched as `outs` says, the others will be. */
    ghost predicate Progress(i: nat, cbs: FileWQ -> Answers, outs: seq<Outcome>)
      reads this, wqs
    {
      && i <= |list| == |outs|
      && (forall k, l :: 0 <= k < l < |list| ==> list[k] != list[l])
      && (forall k :: 0 <= k < |list| ==>
            list[k] in wqs && Contract(cbs(list[k])) && Settled(outs[k].rest, outs[k].revents))
      && (forall k :: 0 <= k < i ==>
            !list[k].waked && list[k].items == outs[k].rest && list[k].revents == outs[k].revents)
      && (forall k :: i <= k < |list| ==> outs[k] == Dispatch(list[k].items, list[k].revents, cbs(list[k]), 0))
    }

    /** What the passes of a round will do. */
    ghost method Round(cbs: FileWQ -> Answers) returns (outs: seq<Outcome>)
      requires Valid() && forall q :: q in wqs ==> Contract(cbs(q))
      ensures Progress(0, cbs, outs)
    {
      outs := [];
      for i := 0 to |list|
        invariant |outs| == i
        invariant forall k :: 0 <= k < i ==>
                    && outs[k] == Dispatch(list[k].items, list[k].revents, cbs(list[k]), 0)
                    && Settled(outs[k].rest, outs[k].revents)
      {
        var q := list[i];
        PassLeavesNothingReady(q.items, q.revents, cbs(q), 0);
        outs := outs + [Dispatch(q.items, q.revents, cbs(q), 0)];
      }
    }

    method DispatchNext(i: nat, q: FileWQ, cbs: FileWQ -> Answers, ghost outs: seq<Outcome>) returns (ge: seq<nat>)
      requires i < |list| && q == list[i] && Progress(i, cbs, outs)
      modifies q`items, q`revents, q`waked
      ensures Progress(i + 1, cbs, outs) && ge == Handles(outs[i].done)
    {
      assert forall k :: 0 <= k < |list| && k != i ==> list[k] != q;
      q.waked := false;
      ghost var done;
      ge, done := q.Wakeup(cbs(q), 0);
    }

    /** The second phase: a pass over every queue in list_, which leaves every queue of the loop
        settled and unmarked. */
    method Dispatched(cbs: FileWQ -> Answers)
      returns (woken: seq<nat>, ghost outs: seq<Outcome>, ghost off: seq<nat>)
      requires Valid() && forall q :: q in wqs ==> Contract(cbs(q))
      modifies this`list, wqs
      ensures Valid() && list == [] && |outs| == |old(list)|
      ensures Yielded(woken, off, outs)
      ensures forall q :: q in wqs ==> !q.waked && Settled(q.items, q.revents)
      ensures forall k :: 0 <= k < |outs| ==>
                var q := old(list)[k];
                && outs[k] == Dispatch(old(q.items), old(q.revents), cbs(q), 0)
                && q.items == outs[k].rest && q.revents == outs[k].revents
      ensures forall q :: q in wqs && q !in old(list) ==> q.items == old(q.items) && q.revents == old(q.revents)
    {
      outs := Round(cbs);
      assert forall k :: 0 <= k < |outs| ==> outs[k] == Dispatch(list[k].items, list[k].revents, cbs(list[k]), 0);
      assert forall q :: q in wqs && q !in list ==> !q.waked && Settled(q.items, q.revents);
      woken, off := RunRound(cbs, outs);
      assert forall q :: q in wqs ==> !q.waked && Settled(q.items, q.revents);
      list := [];
    }

    method RunRound(cbs: FileWQ -> Answers, ghost outs: seq<Outcome>) returns (woken: seq<nat>, ghost off: seq<nat>)
      requires Progress(0, cbs, outs) && forall k :: 0 <= k < |list| ==> list[k] in wqs
      modifies set q | q in list
      ensures Progress(|list|, cbs, outs) && Yielded(woken, off, outs)
    {
      woken, off := [], [0];
      var i := 0;
      while i < |list|
        invariant i <= |list| && list == old(list) && Progress(i, cbs, outs) && Yielded(woken, off, outs[..i])
      {
        var ge := DispatchNext(i, list[i], cbs, outs);
        YieldedMore(woken, off, outs[..i], outs[i], ge);
        assert outs[..i] + [outs[i]] == outs[..i + 1];
        woken, off := woken + ge, off + [|woken| + |ge|];
        i := i + 1;
      }
      assert outs[..i] == outs;
    }

    /** The third phase, IRQPoll::waitIRQ, with what epoll_wait reports. */
    method WaitIRQ(reports: seq<Report>)
      requires Valid() && list == []
      requires forall k :: 0 <= k < |reports| ==> reports[k].q in wqs
      requires forall k, l :: 0 <= k < l < |reports| ==> reports[k].q != reports[l].q
      modifies this`list, wqs`revents, wqs`waked
      ensures Valid() && list == Queues(reports)
      ensures forall q :: q in wqs ==> q.revents == old(q.revents) + ReportedFor(reports, q)
    {
      var i := 0;
      while i < |reports|
        invariant 0 <= i <= |reports| && |list| == i
        invariant forall k :: 0 <= k < i ==>
                    && list[k] == reports[k].q && list[k].waked
                    && list[k].revents == old(reports[k].q.revents) + reports[k].events
        invariant forall k :: i <= k < |reports| ==> reports[k].q.revents == old(reports[k].q.revents)
        invariant forall q :: q in wqs && q !in list ==> q.revents == old(q.revents) && !q.waked
      {
        var q := reports[i].q;
        q.AddREvents(reports[i].events);
        q.waked := true;
        list := list + [q];
        assert q == list[i];
        i := i + 1;
      }
      forall q | q in wqs ensures q.revents == old(q.revents) + ReportedFor(reports, q) {
        ReportedAt(reports, q);
        if q in list {
          var k :| 0 <= k < |list| && list[k] == q;
          assert reports[k].q == q;
        }
      }
    }

    /** The second and the third phase. */
    method Serve(cbs: FileWQ -> Answers, reports: seq<Report>)
      returns (woken: seq<nat>, ghost outs: seq<Outcome>, ghost off: seq<nat>)
      requires Valid() && forall q :: q in wqs ==> Contract(cbs(q))
      requires forall k :: 0 <= k < |reports| ==> reports[k].q in wqs
      requires forall k, l :: 0 <= k < l < |reports| ==> reports[k].q != reports[l].q
      modifies this`list, wqs
      ensures Valid() && list == Queues(reports) && Yielded(woken, off, outs) && |outs| == |old(list)|
      ensures forall k :: 0 <= k < |outs| ==>
                var q := old(list)[k];
                && outs[k] == Dispatch(old(q.items), old(q.revents), cbs(q), 0)
                && q.items == outs[k].rest && q.revents == outs[k].revents + ReportedFor(reports, q)
      ensures forall q :: q in wqs && q !in old(list) ==>
                q.items == old(q.items) && q.revents == old(q.revents) + ReportedFor(reports, q)
    {
      woken, outs, off := Dispatched(cbs);
      WaitIRQ(reports);
    }

    /** A turn of the loop. When it comes to wait, no waiter has cached readiness left, whatever
        work was posted; and exactly the reported queues are marked for the next turn. */
    method Turn(cbs: FileWQ -> Answers, reports: seq<Report>)
      returns (woken: seq<nat>, ghost round: seq<FileWQ>, ghost outs: seq<Outcome>, ghost off: seq<nat>)
      requires Valid() && forall q :: q in wqs ==> Contract(cbs(q))
      requires forall k :: 0 <= k < |reports| ==> reports[k].q in wqs
      requires forall k, l :: 0 <= k < l < |reports| ==> reports[k].q != reports[l].q
      modifies this`list, this`funcs, wqs
      ensures Valid() && funcs == [] && list == Queues(reports)
      ensures old(list) <= round && |outs| == |round|
      ensures Yielded(woken, off, outs)
      ensures forall k, l :: 0 <= k < l < |round| ==> round[k] != round[l]
      ensures forall q :: q in wqs ==> (q in round <==> old(q.waked) || AddedTo(old(funcs), q) != [])
      ensures forall k :: 0 <= k < |round| ==>
                var q := round[k];
                && q in wqs && q.items == outs[k].rest
                && outs[k] == Dispatch(old(q.items) + AddedTo(old(funcs), q), old(q.revents), cbs(q), 0)
      ensures forall q :: q in wqs && q !in round ==> q.items == old(q.items)
      ensures forall k :: 0 <= k < |round| ==> round[k].revents == outs[k].revents + ReportedFor(reports, round[k])
      ensures forall q :: q in wqs && q !in round ==> q.revents == old(q.revents) + ReportedFor(reports, q)
    {
      Drain();
      assert forall q :: q in wqs ==> (q.waked <==> q in list);
      round := list;
      woken, outs, off := Serve(cbs, reports);
    }
  }
}
