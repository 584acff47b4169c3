/** The callback of colib::writev: a scatter write that is resumed where the kernel stopped. */
module SocketWrite {
  import F = FileWaitQueue

  const INT_RANGE: int := 0x8000_0000

  /** One call of ::writev; the kernel accepts at most what it is handed. */
  datatype SysRet = Accepted(n: nat) | Interrupted | WouldBlock | Failed

  /** One call of the callback: whether RDHUP is among its bits, and what its system calls
      return up to the first that is not interrupted. */
  datatype Round = Round(rdhup: bool, calls: seq<SysRet>)

  predicate Ends(calls: seq<SysRet>) {
    calls != [] && calls[|calls| - 1] != Interrupted
    && forall k :: 0 <= k < |calls| - 1 ==> calls[k] == Interrupted
  }

  function Concat(iov: seq<seq<char>>): seq<char> {
    if iov == [] then [] else iov[0] + Concat(iov[1..])
  }

  lemma {:induction false} ConcatSplit(iov: seq<seq<char>>, k: nat)
    requires k <= |iov|
    ensures Concat(iov) == Concat(iov[..k]) + Concat(iov[k..])
  {
    if k > 0 {
      ConcatSplit(iov[1..], k - 1);
      assert iov[..k][1..] == iov[1..][..k - 1] && iov[1..][k - 1..] == iov[k..];
    } else {
      assert iov[0..] == iov;
    }
  }

  lemma ConcatNext(iov: seq<seq<char>>, k: nat)
    requires k < |iov|
    ensures Concat(iov[k..]) == iov[k] + Concat(iov[k + 1..])
    ensures Concat(iov[..k + 1]) == Concat(iov[..k]) + iov[k]
  {
    assert iov[k..][0] == iov[k] && iov[k..][1..] == iov[k + 1..];
    ConcatSplit(iov[..k + 1], k);
    assert iov[..k + 1][..k] == iov[..k] && iov[..k + 1][k..] == [iov[k]];
    assert [iov[k]][1..] == [] && Concat([iov[k]]) == iov[k];
  }

  /** Where a write stands: `tcnt` segments and `offset` bytes of the next one are sent. */
  ghost predicate Stands(iov: seq<seq<char>>, tcnt: nat, offset: nat, sendBytes: nat) {
    && tcnt <= |iov|
    && (tcnt < |iov| ==> offset <= |iov[tcnt]|)
    && (tcnt == |iov| ==> offset == 0)
    && sendBytes == |Concat(iov[..tcnt])| + offset
  }

  /** What is left to send. */
  function Unsent(iov: seq<seq<char>>, tcnt: nat, offset: nat): seq<seq<char>>
    requires tcnt < |iov| && offset <= |iov[tcnt]|
  {
    [iov[tcnt][offset..]] + iov[tcnt + 1..]
  }

  lemma UnsentIsSuffix(iov: seq<seq<char>>, tcnt: nat, offset: nat, sendBytes: nat)
    requires Stands(iov, tcnt, offset, sendBytes) && tcnt < |iov|
    ensures sendBytes <= |Concat(iov)| && Concat(Unsent(iov, tcnt, offset)) == Concat(iov)[sendBytes..]
  {
    var t := Unsent(iov, tcnt, offset);
    assert t[1..] == iov[tcnt + 1..];
    ConcatSplit(iov, tcnt);
    ConcatNext(iov, tcnt);
    var before, rest := Concat(iov[..tcnt]), Concat(iov[tcnt + 1..]);
    assert Concat(iov) == before + (iov[tcnt] + rest);
    assert Concat(iov)[sendBytes..] == iov[tcnt][offset..] + rest;
  }

  class WriteCallback {
    const iov: seq<seq<char>>
    var offset: nat
    var tcnt: nat
    var sendBytes: nat

    ghost predicate Valid()
      reads this
    {
      iov != [] && sendBytes <= |Concat(iov)| < INT_RANGE && Stands(iov, tcnt, offset, sendBytes)
    }

    constructor (iov: seq<seq<char>>)
      requires iov != [] && |Concat(iov)| < INT_RANGE
      ensures Valid() && this.iov == iov && sendBytes == 0 && tcnt == 0
    {
      this.iov := iov;
      offset, tcnt, sendBytes := 0, 0, 0;
    }

    /** The vector handed to the kernel. */
    method Tiov() returns (tiov: seq<seq<char>>)
      requires Valid() && tcnt < |iov|
      ensures tiov == Unsent(iov, tcnt, offset)
      ensures Concat(tiov) == Concat(iov)[sendBytes..]
    {
      tiov := [iov[tcnt][offset..]];
      var riovcnt := |iov| - tcnt;
      for i := 1 to riovcnt
        invariant tiov == [iov[tcnt][offset..]] + iov[tcnt + 1..tcnt + i]
      {
        tiov := tiov + [iov[tcnt + i]];
      }
      assert iov[tcnt + 1..tcnt + riovcnt] == iov[tcnt + 1..];
      UnsentIsSuffix(iov, tcnt, offset, sendBytes);
    }

    /** The loop that recomputes `offset` and `tcnt` after the kernel has accepted `accepted`. */
    method Advance(tiov: seq<seq<char>>, accepted: nat)
      requires Valid() && tcnt < |iov| && tiov == Unsent(iov, tcnt, offset) && accepted <= |Concat(tiov)|
      modifies this
      ensures Valid() && sendBytes == old(sendBytes) + accepted
      ensures tcnt == |iov| <==> sendBytes == |Concat(iov)|
    {
      UnsentIsSuffix(iov, tcnt, offset, sendBytes);
      ghost var t0, off0 := tcnt, offset;
      sendBytes := sendBytes + accepted;
      var size := accepted;
      var i := 0;
      while i < |tiov|
        invariant i <= |tiov| && tcnt == t0 + i <= |iov| && offset == (if i == 0 then off0 else 0) && size >= 0
        invariant sendBytes == old(sendBytes) + accepted == |Concat(iov[..tcnt])| + offset + size
      {
        ConcatNext(iov, tcnt);
        ConcatSplit(iov, tcnt);
        assert offset <= |iov[tcnt]| && tiov[i] == iov[tcnt][offset..];
        if |tiov[i]| > size {
          offset := offset + size;
          return;
        } else {
          offset := 0;
          tcnt := tcnt + 1;
          size := size - |tiov[i]|;
        }
        i := i + 1;
      }
      assert iov[..tcnt] == iov;
    }

    /** The callback. `handed` is what it hands to the kernel, each time it tries. */
    method Call(round: Round) returns (r: F.IoRet, accepted: nat, handed: seq<char>)
      requires Valid() && tcnt < |iov| && Ends(round.calls)
      modifies this
      ensures Valid() && sendBytes == old(sendBytes) + accepted
      ensures accepted == Takes(round, |Concat(iov)| - old(sendBytes))
      ensures handed == if round.rdhup then [] else Concat(iov)[old(sendBytes)..]
      ensures accepted <= |handed| && handed[..accepted] == Concat(iov)[old(sendBytes)..sendBytes]
      ensures r == Answer(round, old(sendBytes), |Concat(iov)|)
      ensures tcnt == |iov| <==> !r.block && r.ret >= 0
    {
      UnsentIsSuffix(iov, tcnt, offset, sendBytes);
      if round.rdhup {
        return F.IoRet(-1, false, false), 0, [];
      }
      var tiov := Tiov();
      handed := Concat(tiov);
      var size := -1;
      var k := 0;
      while true
        invariant k < |round.calls| && unchanged(this)
        decreases |round.calls| - k
      {
        match round.calls[k]
        case WouldBlock => return F.IoRet(-1, true, true), 0, handed;
        case Failed => return F.IoRet(-1, false, false), 0, handed;
        case Interrupted => k := k + 1;
        case Accepted(n) =>
          size := if n <= |handed| then n else |handed|;
          break;
      }
      accepted := size;
      Advance(tiov, accepted);
      r := F.IoRet(sendBytes, tcnt < |iov|, tcnt < |iov|);
    }

    /** `wire` has gone out so far, and the write is not complete. */
    ghost predicate Underway(wire: seq<char>)
      reads this
    {
      Valid() && wire == Concat(iov)[..sendBytes] && tcnt < |iov|
    }

    /** A call of the callback, with all that has gone out before it and after it. */
    method Attempt(round: Round, wire: seq<char>) returns (r: F.IoRet, wire': seq<char>)
      requires Underway(wire) && Ends(round.calls)
      modifies this
      ensures var len := |Concat(iov)|;
              && |wire| <= len && r == Answer(round, |wire|, len)
              && |wire'| == |wire| + Takes(round, len - |wire|) && wire' == Concat(iov)[..|wire'|]
      ensures r.block ==> Underway(wire')
    {
      ghost var all, sent := Concat(iov), sendBytes;
      var accepted, handed;
      r, accepted, handed := Call(round);
      wire' := wire + handed[..accepted];
      FrontGrows(all, sent, handed, accepted);
    }
  }

  lemma FrontGrows(all: seq<char>, sent: nat, handed: seq<char>, accepted: nat)
    requires sent <= |all| && accepted <= |handed| && (handed == all[sent..] || accepted == 0)
    ensures all[..sent] + handed[..accepted] == all[..sent + accepted]
  {
  }

  /** How many bytes the kernel accepts in a round in which `left` are left to send. */
  function Takes(round: Round, left: nat): (n: nat)
    requires Ends(round.calls)
    ensures n <= left
  {
    if Offers(round) <= left then Offers(round) else left
  }

  /** What a round lets through: the count of its last call, up to what is left, unless that call
      fails or blocks or the callback is called for a hang-up. */
  lemma TakesExactly(round: Round, left: nat)
    requires Ends(round.calls)
    ensures match round.calls[|round.calls| - 1]
            case Accepted(n) => Takes(round, left) == if round.rdhup then 0 else if n <= left then n else left
            case _ => Takes(round, left) == 0
    ensures Offers(round) >= Takes(round, left) && (Takes(round, left) < left ==> Offers(round) == Takes(round, left))
  {
  }

  /** How many bytes the kernel is ready to accept in a round. */
  function Offers(round: Round): nat
    requires Ends(round.calls)
  {
    if TakesSome(round) then LastCall(round).n else 0
  }

  function LastCall(round: Round): SysRet
    requires Ends(round.calls)
  {
    round.calls[|round.calls| - 1]
  }

  predicate TakesSome(round: Round)
    requires Ends(round.calls)
  {
    !round.rdhup && LastCall(round).Accepted?
  }

  /** The rounds after which the write is given up. */
  predicate Refuses(round: Round)
    requires Ends(round.calls)
  {
    round.rdhup || LastCall(round) == Failed
  }

  /** What the callback answers when `sent` of `len` bytes were sent before the round. */
  function Answer(round: Round, sent: nat, len: nat): F.IoRet
    requires Ends(round.calls) && sent <= len
  {
    if Refuses(round) then F.IoRet(-1, false, false)
    else if !TakesSome(round) then F.IoRet(-1, true, true)
    else
      var now := sent + Takes(round, len - sent);
      F.IoRet(now, now < len, now < len)
  }

  /** The callback reports all that is sent, waits on exactly if something is left and the kernel
      blocks or takes only part, and gives up exactly if the kernel fails or has hung up. */
  lemma AnswersExactly(round: Round, sent: nat, len: nat)
    requires Ends(round.calls) && sent <= len
    ensures var a, last := Answer(round, sent, len), round.calls[|round.calls| - 1];
            && a.exhausted == a.block
            && (a.block <==> !round.rdhup && (last == WouldBlock || (last.Accepted? && sent + last.n < len)))
            && (!a.block && a.ret < 0 <==> round.rdhup || last == Failed)
            && (!round.rdhup && last.Accepted? ==> a.ret == if sent + last.n <= len then sent + last.n else len)
            && (!(!round.rdhup && last.Accepted?) ==> a.ret == -1)
  {
  }

  /** The answers keep the dispatcher's contract: the write stays waiting only with its readiness
      exhausted, and never when it is called for RDHUP, alone or not. */
  lemma WriteKeepsContract(round: Round, sent: nat, len: nat, w: F.WaitItem, ev: F.Word)
    requires Ends(round.calls) && sent <= len
    requires w.events == F.WRITE_MASK && ev == F.Hit(w, ev) && ev != {} && round.rdhup == (F.RDHUP in ev)
    ensures F.Keeps(Answer(round, sent, len), w, ev)
  {
    var b :| b in ev;
    assert b != F.RDHUP ==> b in ev * w.events;
  }

  // ---------------------------------------------------------------- whole writes

  datatype Status = Completed | Refused | Unfinished

  /** How a write ends, and how many bytes the kernel has accepted by then. */
  datatype Outcome = Outcome(status: Status, sent: nat)

  predicate AllEnd(rounds: seq<Round>) {
    forall k :: 0 <= k < |rounds| ==> Ends(rounds[k].calls)
  }

  /** The outcome of a write of `len` bytes, of which `sent` are sent, in the rounds to come. */
  function Transfer(len: nat, sent: nat, rounds: seq<Round>): (o: Outcome)
    requires AllEnd(rounds) && sent <= len
    ensures sent <= o.sent <= len && (o.status == Completed ==> o.sent == len)
    decreases |rounds|
  {
    if rounds == [] then Outcome(Unfinished, sent)
    else
      var a := Answer(rounds[0], sent, len);
      var now := sent + Takes(rounds[0], len - sent);
      if a.block then Transfer(len, now, rounds[1..])
      else Outcome(if a.ret < 0 then Refused else Completed, now)
  }

  /** What the kernel is ready to accept in the first `n` rounds together. */
  function Offered(rounds: seq<Round>, n: nat): nat
    requires AllEnd(rounds) && n <= |rounds|
  {
    if n == 0 then 0 else Offered(rounds, n - 1) + Offers(rounds[n - 1])
  }

  /** The write completes in round `k`: no round up to it refuses, it accepts, and by then the
      kernel was ready to accept all that was left. */
  ghost predicate CompletesIn(left: nat, rounds: seq<Round>, k: nat)
    requires AllEnd(rounds)
  {
    && k < |rounds| && (forall i :: 0 <= i <= k ==> !Refuses(rounds[i]))
    && TakesSome(rounds[k]) && Offered(rounds, k + 1) >= left
  }

  /** The write is given up in round `k`: that is the first to refuse, and nothing before it
      completes the write. */
  ghost predicate RefusedIn(left: nat, rounds: seq<Round>, k: nat)
    requires AllEnd(rounds)
  {
    && k < |rounds| && Refuses(rounds[k])
    && forall i :: 0 <= i < k ==> !Refuses(rounds[i]) && !CompletesIn(left, rounds, i)
  }

  ghost predicate EverCompletes(left: nat, rounds: seq<Round>)
    requires AllEnd(rounds)
  {
    exists k :: CompletesIn(left, rounds, k)
  }

  ghost predicate EverRefused(left: nat, rounds: seq<Round>)
    requires AllEnd(rounds)
  {
    exists k :: RefusedIn(left, rounds, k)
  }

  lemma {:induction false} OfferedFirst(rounds: seq<Round>, k: nat)
    requires AllEnd(rounds) && k < |rounds|
    ensures Offered(rounds, k + 1) == Offers(rounds[0]) + Offered(rounds[1..], k)
  {
    if k > 0 { OfferedFirst(rounds, k - 1); }
  }

  /** A round of which the write survives shifts both questions to the rounds after it. */
  lemma SurvivedRound(left: nat, rounds: seq<Round>, k: nat)
    requires AllEnd(rounds) && rounds != [] && !Refuses(rounds[0])
    requires TakesSome(rounds[0]) ==> Offers(rounds[0]) < left
    ensures !CompletesIn(left, rounds, 0) && !RefusedIn(left, rounds, 0)
    ensures CompletesIn(left, rounds, k + 1) <==> CompletesIn(left - Takes(rounds[0], left), rounds[1..], k)
  {
    assert Offered(rounds, 1) == Offers(rounds[0]);
    if k + 1 < |rounds| {
      OfferedFirst(rounds, k + 1);
      assert forall i :: 0 <= i < |rounds| - 1 ==> rounds[1..][i] == rounds[i + 1];
      if forall i :: 0 <= i <= k ==> !Refuses(rounds[1..][i]) {
        assert forall i :: 0 < i <= k + 1 ==> rounds[i] == rounds[1..][i - 1];
      }
    }
  }

  lemma SurvivedRefusal(left: nat, rounds: seq<Round>, k: nat)
    requires AllEnd(rounds) && rounds != [] && !Refuses(rounds[0])
    requires TakesSome(rounds[0]) ==> Offers(rounds[0]) < left
    ensures RefusedIn(left, rounds, k + 1) <==> RefusedIn(left - Takes(rounds[0], left), rounds[1..], k)
  {
    var left', rest := left - Takes(rounds[0], left), rounds[1..];
    assert forall i :: 0 <= i < |rest| ==> rest[i] == rounds[i + 1];
    if k < |rest| {
      SurvivedRound(left, rounds, 0);
      forall i | 0 <= i < k ensures CompletesIn(left, rounds, i + 1) <==> CompletesIn(left', rest, i) {
        SurvivedRound(left, rounds, i);
      }
      if RefusedIn(left', rest, k) {
        forall i | 0 <= i < k + 1 ensures !Refuses(rounds[i]) && !CompletesIn(left, rounds, i) {
          if i > 0 { assert !Refuses(rest[i - 1]) && !CompletesIn(left', rest, i - 1); }
        }
      }
      if RefusedIn(left, rounds, k + 1) {
        forall i | 0 <= i < k ensures !Refuses(rest[i]) && !CompletesIn(left', rest, i) {
          assert !Refuses(rounds[i + 1]) && !CompletesIn(left, rounds, i + 1);
        }
      }
    }
  }

  /** When a write completes and when it is given up, for every sequence of rounds. */
  lemma {:induction false} EndsExactlyWhen(len: nat, sent: nat, left: nat, rounds: seq<Round>)
    requires AllEnd(rounds) && sent + left == len
    ensures Transfer(len, sent, rounds).status == Completed <==> EverCompletes(left, rounds)
    ensures Transfer(len, sent, rounds).status == Refused <==> EverRefused(left, rounds)
    decreases |rounds|
  {
    if rounds == [] {
    } else if Refuses(rounds[0]) || (TakesSome(rounds[0]) && Offers(rounds[0]) >= left) {
      EndsAtOnce(left, rounds);
      TransferFirst(len, sent, left, rounds);
    } else {
      var taken, rest := Takes(rounds[0], left), rounds[1..];
      TransferFirst(len, sent, left, rounds);
      EndsExactlyWhen(len, sent + taken, left - taken, rest);
      SurvivedAll(left, left - taken, rounds, rest);
    }
  }

  lemma TransferFirst(len: nat, sent: nat, left: nat, rounds: seq<Round>)
    requires AllEnd(rounds) && sent + left == len && rounds != []
    ensures Transfer(len, sent, rounds).status ==
              if Refuses(rounds[0]) then Refused
              else if TakesSome(rounds[0]) && Offers(rounds[0]) >= left then Completed
              else Transfer(len, sent + Takes(rounds[0], left), rounds[1..]).status
  {
  }

  lemma EndsAtOnce(left: nat, rounds: seq<Round>)
    requires AllEnd(rounds) && rounds != []
    requires Refuses(rounds[0]) || (TakesSome(rounds[0]) && Offers(rounds[0]) >= left)
    ensures EverCompletes(left, rounds) <==> !Refuses(rounds[0])
    ensures EverRefused(left, rounds) <==> Refuses(rounds[0])
  {
    assert Offered(rounds, 1) == Offers(rounds[0]);
    if Refuses(rounds[0]) {
      assert RefusedIn(left, rounds, 0);
    } else {
      assert CompletesIn(left, rounds, 0);
    }
  }

  lemma SurvivedAll(left: nat, left': nat, rounds: seq<Round>, rest: seq<Round>)
    requires AllEnd(rounds) && rounds != [] && !Refuses(rounds[0]) && rest == rounds[1..]
    requires (TakesSome(rounds[0]) ==> Offers(rounds[0]) < left) && left' == left - Takes(rounds[0], left)
    ensures EverCompletes(left, rounds) <==> EverCompletes(left', rest)
    ensures EverRefused(left, rounds) <==> EverRefused(left', rest)
  {
    SurvivedRound(left, rounds, 0);
    if k: nat :| CompletesIn(left, rounds, k) { SurvivedRound(left, rounds, k - 1); }
    if k: nat :| CompletesIn(left', rest, k) { SurvivedRound(left, rounds, k); }
    if k: nat :| RefusedIn(left, rounds, k) { SurvivedRefusal(left, rounds, k - 1); }
    if k: nat :| RefusedIn(left', rest, k) { SurvivedRefusal(left, rounds, k); }
  }

  /** How much has been sent at the end: all of it if the write completes, otherwise what was sent
      before and all that the kernel was ready to accept up to the refusal or the end of the rounds. */
  lemma SentExactly(len: nat, sent: nat, left: nat, rounds: seq<Round>, k: nat)
    requires AllEnd(rounds) && sent + left == len
    ensures var o := Transfer(len, sent, rounds);
            && (o.status == Completed ==> o.sent == len)
            && (o.status == Unfinished ==> o.sent == sent + Offered(rounds, |rounds|))
            && (RefusedIn(left, rounds, k) ==> o.status == Refused && o.sent == sent + Offered(rounds, k))
  {
    SentWhenUnfinished(len, sent, left, rounds);
    if RefusedIn(left, rounds, k) { SentWhenRefused(len, sent, left, rounds, k); }
  }

  lemma {:induction false} SentWhenUnfinished(len: nat, sent: nat, left: nat, rounds: seq<Round>)
    requires AllEnd(rounds) && sent + left == len
    ensures var o := Transfer(len, sent, rounds);
            o.status == Unfinished ==> o.sent == sent + Offered(rounds, |rounds|)
    decreases |rounds|
  {
    if rounds != [] {
      SentFirst(len, sent, left, rounds);
      OfferedFirst(rounds, |rounds| - 1);
      var taken := Takes(rounds[0], left);
      SentWhenUnfinished(len, sent + taken, left - taken, rounds[1..]);
    }
  }

  lemma {:induction false} SentWhenRefused(len: nat, sent: nat, left: nat, rounds: seq<Round>, k: nat)
    requires AllEnd(rounds) && sent + left == len && RefusedIn(left, rounds, k)
    ensures Transfer(len, sent, rounds) == Outcome(Refused, sent + Offered(rounds, k))
    decreases |rounds|
  {
    SentFirst(len, sent, left, rounds);
    if k > 0 {
      NotRefusedYet(left, rounds, k);
      SurvivedRefusal(left, rounds, k - 1);
      OfferedFirst(rounds, k - 1);
      var taken := Takes(rounds[0], left);
      SentWhenRefused(len, sent + taken, left - taken, rounds[1..], k - 1);
    }
  }

  lemma NotRefusedYet(left: nat, rounds: seq<Round>, k: nat)
    requires AllEnd(rounds) && 0 < k && RefusedIn(left, rounds, k)
    ensures !Refuses(rounds[0]) && (TakesSome(rounds[0]) ==> Offers(rounds[0]) < left)
  {
    assert Offered(rounds, 1) == Offers(rounds[0]);
    assert !Refuses(rounds[0]) && !CompletesIn(left, rounds, 0);
  }

  lemma SentFirst(len: nat, sent: nat, left: nat, rounds: seq<Round>)
    requires AllEnd(rounds) && sent + left == len && rounds != []
    ensures var o, taken := Transfer(len, sent, rounds), Takes(rounds[0], left);
            if Refuses(rounds[0]) then o == Outcome(Refused, sent)
            else if TakesSome(rounds[0]) && Offers(rounds[0]) >= left then o == Outcome(Completed, len)
            else o == Transfer(len, sent + taken, rounds[1..]) && taken == Offers(rounds[0])
  {
  }

  /** After `k` rounds the write goes on, with `sent` bytes sent. */
  predicate Continues(len: nat, rounds: seq<Round>, k: nat, sent: nat)
    requires AllEnd(rounds)
  {
    k <= |rounds| && sent <= len && Transfer(len, 0, rounds) == Transfer(len, sent, rounds[k..])
  }

  lemma TransferBegins(len: nat, rounds: seq<Round>)
    requires AllEnd(rounds)
    ensures Continues(len, rounds, 0, 0)
  {
    assert rounds[0..] == rounds;
  }

  lemma TransferStep(len: nat, sent: nat, rounds: seq<Round>, k: nat, r: F.IoRet, now: nat)
    requires AllEnd(rounds) && k < |rounds| && Continues(len, rounds, k, sent)
    requires r == Answer(rounds[k], sent, len) && now == sent + Takes(rounds[k], len - sent)
    ensures if r.block then Continues(len, rounds, k + 1, now)
            else Transfer(len, 0, rounds) == Outcome(if r.ret < 0 then Refused else Completed, now)
  {
    assert rounds[k..][0] == rounds[k] && rounds[k..][1..] == rounds[k + 1..];
  }

  /** writev as its caller sees it: the callback is called, round after round, until it does
      not stay waiting. `wire` is what the kernel has accepted, over all rounds. Whatever the
      kernel accepts each time, it is sent each byte once and in order; and how the write ends and
      how much has gone out by then is what the rounds say. */
  method WriteOut(iov: seq<seq<char>>, rounds: seq<Round>) returns (status: Status, ret: int, wire: seq<char>)
    requires iov != [] && |Concat(iov)| < INT_RANGE && AllEnd(rounds)
    ensures var o := Transfer(|Concat(iov)|, 0, rounds);
            status == o.status && wire == Concat(iov)[..o.sent] && ret == if status == Completed then |wire| else -1
  {
    var cb := new WriteCallback(iov);
    ghost var len := |Concat(iov)|;
    wire := [];
    TransferBegins(len, rounds);
    for k := 0 to |rounds|
      invariant fresh(cb) && cb.iov == iov && cb.Underway(wire)
      invariant Continues(len, rounds, k, |wire|)
    {
      ghost var sent := |wire|;
      var r;
      r, wire := cb.Attempt(rounds[k], wire);
      TransferStep(len, sent, rounds, k, r, |wire|);
      if !r.block {
        return (if r.ret < 0 then Refused else Completed), r.ret, wire;
      }
    }
    return Unfinished, -1, wire;
  }
}
