/** Connection joins the ring buffer to scatter reads and gather writes; EchoCtx relays what it
    receives back to the sender. */
module EchoRelay {
  import R = RingBuffer
  import W = SocketWrite

  /** What one readv gives: bytes, of which the kernel delivers no more than fits into the
      segments, with none for the end of the stream; or an error. */
  datatype RecvRet = Received(bytes: seq<char>) | RecvFailed

  // ---------------------------------------------------------------- the relay as a function

  /** A write of the `len` bytes buffered, the first of which is byte `from` of all received. */
  datatype Write = Write(from: nat, len: nat, o: W.Outcome)

  /** The relay: all bytes received, all writes, how many bytes the buffer has given up, and
      whether the loop has ended. */
  datatype Relay = Relay(received: seq<char>, writes: seq<Write>, released: nat, over: bool)

  const START: Relay := Relay([], [], 0, false)

  /** What a receive delivers into a buffer with room for `room` bytes. */
  function Got(arrival: RecvRet, room: nat): (got: seq<char>)
    ensures |got| <= room
  {
    if arrival.RecvFailed? then []
    else if |arrival.bytes| <= room then arrival.bytes
    else arrival.bytes[..room]
  }

  predicate Fits(cap: nat, r: Relay) {
    r.released <= |r.received| <= r.released + cap
  }

  /** A turn of the loop. */
  function Step(cap: nat, r: Relay, arrival: RecvRet, rounds: seq<W.Round>): (r': Relay)
    requires Fits(cap, r) && W.AllEnd(rounds)
    ensures Fits(cap, r')
  {
    var got := Got(arrival, cap - (|r.received| - r.released));
    if r.over then r
    else if got == [] then r.(over := true)
    else WithWrite(r, r.received + got, NextWrite(r, got, rounds))
  }

  /** The write of what is buffered once `got` has come in. */
  function NextWrite(r: Relay, got: seq<char>, rounds: seq<W.Round>): (w: Write)
    requires r.released <= |r.received| && W.AllEnd(rounds)
    ensures w.from + w.len == |r.received + got| && w.o.sent <= w.len
    ensures w.o.status == W.Completed ==> w.o.sent == w.len
  {
    var len := |r.received + got| - r.released;
    Write(r.released, len, W.Transfer(len, 0, rounds))
  }

  /** What a turn does. */
  lemma StepCases(cap: nat, r: Relay, arrival: RecvRet, rounds: seq<W.Round>, got: seq<char>, held: seq<char>)
    requires Fits(cap, r) && W.AllEnd(rounds) && !r.over && held == r.received[r.released..]
    requires got == Got(arrival, cap - |held|)
    ensures var r', w := Step(cap, r, arrival, rounds), NextWrite(r, got, rounds);
            && (got == [] ==> r' == r.(over := true))
            && (got != [] ==> r' == WithWrite(r, r.received + got, w) && w.len == |held + got|)
            && r'.released <= |r'.received|
  {
  }

  function WithWrite(r: Relay, received: seq<char>, w: Write): Relay {
    Relay(received, r.writes + [w], After(w), w.o.status == W.Unfinished)
  }

  /** How many bytes the buffer has given up after a write: a completed one gives up its bytes. */
  function After(w: Write): nat {
    if w.o.status == W.Completed then w.from + w.o.sent else w.from
  }

  predicate AllSendsEnd(sends: seq<seq<W.Round>>) {
    forall k :: 0 <= k < |sends| ==> W.AllEnd(sends[k])
  }

  /** The whole run: the k-th receive gives `arrivals[k]`, the write after it sees the rounds
      `sends[k]`. */
  function Relayed(cap: nat, arrivals: seq<RecvRet>, sends: seq<seq<W.Round>>): (r: Relay)
    requires |arrivals| == |sends| && AllSendsEnd(sends)
    ensures Fits(cap, r)
  {
    var n := |arrivals| - 1;
    if arrivals == [] then START
    else Step(cap, Relayed(cap, arrivals[..n], sends[..n]), arrivals[n], sends[n])
  }

  /** The numbers from `from` on. */
  function Range(from: nat, n: nat): (at: seq<nat>)
    ensures |at| == n && forall i :: 0 <= i < n ==> at[i] == from + i
  {
    if n == 0 then [] else Range(from, n - 1) + [from + n - 1]
  }

  /** Which bytes of all received the writes put on the wire, in that order. */
  function SentPlaces(writes: seq<Write>): seq<nat> {
    var n := |writes| - 1;
    if writes == [] then [] else SentPlaces(writes[..n]) + Range(writes[n].from, writes[n].o.sent)
  }

  function Pick(s: seq<char>, at: seq<nat>): (r: seq<char>)
    requires Within(at, |s|)
    ensures |r| == |at| && forall i :: 0 <= i < |at| ==> r[i] == s[at[i]]
  {
    seq(|at|, i requires 0 <= i < |at| => s[at[i]])
  }

  // ---------------------------------------------------------------- the shape of a run

  /** Each write begins where the one before it left off: behind its bytes if it completed, at
      its first byte otherwise. */
  ghost predicate Chained(writes: seq<Write>, released: nat) {
    && (forall k :: 0 <= k < |writes| - 1 ==> writes[k + 1].from == After(writes[k]))
    && (if writes == [] then released == 0
        else writes[0].from == 0 && released == After(writes[|writes| - 1]))
  }

  /** Each write is of all that was buffered, and went as its rounds say; only the last one may
      be under way. */
  ghost predicate Written(writes: seq<Write>, sends: seq<seq<W.Round>>, n: nat)
    requires AllSendsEnd(sends)
  {
    && |writes| <= |sends|
    && (forall k :: 0 <= k < |writes| ==>
          && writes[k].len > 0 && writes[k].from + writes[k].len <= n
          && writes[k].o == W.Transfer(writes[k].len, 0, sends[k]))
    && (forall k :: 0 <= k < |writes| - 1 ==> writes[k].o.status != W.Unfinished)
  }

  ghost predicate Ends(r: Relay, n: nat) {
    && (!r.over ==> |r.writes| == n && (r.writes != [] ==> r.writes[|r.writes| - 1].o.status != W.Unfinished))
    && (if r.writes == [] then r.received == []
        else r.writes[|r.writes| - 1].from + r.writes[|r.writes| - 1].len == |r.received|)
  }

  ghost predicate Shaped(r: Relay, sends: seq<seq<W.Round>>)
    requires AllSendsEnd(sends)
  {
    Chained(r.writes, r.released) && Written(r.writes, sends, |r.received|) && Ends(r, |sends|)
  }

  lemma {:induction false} RelayedIsShaped(cap: nat, arrivals: seq<RecvRet>, sends: seq<seq<W.Round>>)
    requires |arrivals| == |sends| && AllSendsEnd(sends)
    ensures Shaped(Relayed(cap, arrivals, sends), sends)
  {
    if arrivals != [] {
      var n := |arrivals| - 1;
      RelayedIsShaped(cap, arrivals[..n], sends[..n]);
      StepIsShaped(cap, Relayed(cap, arrivals[..n], sends[..n]), arrivals[n], sends, n);
    }
  }

  lemma StepIsShaped(cap: nat, r: Relay, arrival: RecvRet, sends: seq<seq<W.Round>>, n: nat)
    requires AllSendsEnd(sends) && |sends| == n + 1 && Fits(cap, r) && Shaped(r, sends[..n])
    ensures Shaped(Step(cap, r, arrival, sends[n]), sends)
  {
    if r.over {
      ShapedWhenOver(r, sends, n);
    } else {
      var held := r.received[r.released..];
      var got := Got(arrival, cap - |held|);
      StepCases(cap, r, arrival, sends[n], got, held);
      if got == [] {
        ShapedWhenOver(r, sends, n);
      } else {
        WriteIsShaped(r, sends, n, r.received + got, NextWrite(r, got, sends[n]));
      }
    }
  }

  lemma ShapedWhenOver(r: Relay, sends: seq<seq<W.Round>>, n: nat)
    requires AllSendsEnd(sends) && |sends| == n + 1 && Shaped(r, sends[..n])
    ensures Shaped(r.(over := true), sends)
  {
    WrittenSooner(r.writes, sends, n, |r.received|);
  }

  lemma WrittenSooner(writes: seq<Write>, sends: seq<seq<W.Round>>, n: nat, received: nat)
    requires AllSendsEnd(sends) && n <= |sends| && Written(writes, sends[..n], received)
    ensures Written(writes, sends, received)
  {
    assert forall k :: 0 <= k < n ==> sends[..n][k] == sends[k];
  }

  lemma WriteIsShaped(r: Relay, sends: seq<seq<W.Round>>, n: nat, received: seq<char>, w: Write)
    requires AllSendsEnd(sends) && |sends| == n + 1 && Shaped(r, sends[..n]) && !r.over
    requires |received| > |r.received| && w.from == r.released && w.from + w.len == |received|
    requires w.len > 0 && w.o == W.Transfer(w.len, 0, sends[n])
    ensures Shaped(WithWrite(r, received, w), sends)
  {
    WrittenSooner(r.writes, sends, n, |r.received|);
    ChainedMore(r.writes, r.released, w);
  }

  lemma ChainedMore(writes: seq<Write>, released: nat, w: Write)
    requires Chained(writes, released) && w.from == released
    ensures Chained(writes + [w], After(w))
  {
  }

  lemma {:induction false} OverStays(cap: nat, arrivals: seq<RecvRet>, sends: seq<seq<W.Round>>, k: nat)
    requires k <= |arrivals| == |sends| && AllSendsEnd(sends)
    requires Relayed(cap, arrivals[..k], sends[..k]).over
    ensures Relayed(cap, arrivals, sends) == Relayed(cap, arrivals[..k], sends[..k])
  {
    var n := |arrivals| - 1;
    if k == |arrivals| {
      assert arrivals[..k] == arrivals && sends[..k] == sends;
    } else {
      assert arrivals[..n][..k] == arrivals[..k] && sends[..n][..k] == sends[..k];
      OverStays(cap, arrivals[..n], sends[..n], k);
      LastTurn(cap, arrivals, sends);
    }
  }

  lemma LastTurn(cap: nat, arrivals: seq<RecvRet>, sends: seq<seq<W.Round>>)
    requires |arrivals| == |sends| && arrivals != [] && AllSendsEnd(sends)
    ensures var n := |arrivals| - 1; var r := Relayed(cap, arrivals[..n], sends[..n]);
            && Relayed(cap, arrivals, sends) == Step(cap, r, arrivals[n], sends[n])
            && (r.over ==> Relayed(cap, arrivals, sends) == r)
  {
  }

  /** A later write begins no earlier than where an earlier one left off. */
  lemma {:induction false} Ascending(writes: seq<Write>, released: nat, k: nat, l: nat)
    requires Chained(writes, released) && k < l < |writes|
    ensures After(writes[k]) <= writes[l].from
  {
    if k + 1 < l { Ascending(writes, released, k, l - 1); }
  }

  /** As long as nothing is sent, every write begins where the refused one began. */
  lemma {:induction false} Stuck(writes: seq<Write>, released: nat, k: nat, l: nat)
    requires Chained(writes, released) && k < l < |writes| && writes[k].o.status != W.Completed
    requires forall m :: k < m < l ==> writes[m].o.sent == 0
    ensures writes[l].from == writes[k].from
  {
    if k + 1 < l { Stuck(writes, released, k, l - 1); }
  }

  predicate Sends(w: Write, p: nat) {
    w.from <= p < w.from + w.o.sent
  }

  ghost predicate SomeSends(writes: seq<Write>, p: nat) {
    exists k :: 0 <= k < |writes| && Sends(writes[k], p)
  }

  lemma InRange(from: nat, n: nat, p: nat)
    ensures p in Range(from, n) <==> from <= p < from + n
  {
    if from <= p < from + n { assert Range(from, n)[p - from] == p; }
  }

  lemma SomeSendsMore(writes: seq<Write>, n: nat, p: nat)
    requires |writes| == n + 1
    ensures SomeSends(writes, p) <==> SomeSends(writes[..n], p) || Sends(writes[n], p)
  {
    if SomeSends(writes[..n], p) {
      var k :| 0 <= k < n && Sends(writes[..n][k], p);
      assert Sends(writes[k], p);
    }
    if k :| 0 <= k < n && Sends(writes[k], p) {
      assert Sends(writes[..n][k], p);
    }
  }

  lemma {:induction false} SentPlacesAt(writes: seq<Write>, p: nat)
    ensures p in SentPlaces(writes) <==> SomeSends(writes, p)
  {
    if writes != [] {
      var n := |writes| - 1;
      SentPlacesAt(writes[..n], p);
      InRange(writes[n].from, writes[n].o.sent, p);
      SomeSendsMore(writes, n, p);
    }
  }

  // ---------------------------------------------------------------- bytes that go out twice

  /** Some byte received is put on the wire twice. */
  ghost predicate Twice(at: seq<nat>) {
    exists i, j :: 0 <= i < j < |at| && at[i] == at[j]
  }

  predicate RefusedPartway(w: Write) {
    w.o.status == W.Refused && w.o.sent > 0
  }

  /** A write that was refused after the kernel had accepted part of it, and a later one of which
      the kernel accepts something. */
  ghost predicate Resent(writes: seq<Write>) {
    exists k, l :: 0 <= k < l < |writes| && RefusedPartway(writes[k]) && writes[l].o.sent > 0
  }

  /** What holds of the writes of a run, and of those of any beginning of it. */
  ghost predicate Sound(writes: seq<Write>) {
    && (forall k :: 0 <= k < |writes| - 1 ==> writes[k + 1].from == After(writes[k]))
    && (writes != [] ==> writes[0].from == 0)
    && (forall k :: 0 <= k < |writes| ==> writes[k].o.status == W.Completed ==> writes[k].o.sent > 0)
    && (forall k :: 0 <= k < |writes| - 1 ==> writes[k].o.status != W.Unfinished)
  }

  lemma ShapedIsSound(r: Relay, sends: seq<seq<W.Round>>)
    requires AllSendsEnd(sends) && Shaped(r, sends)
    ensures Sound(r.writes)
  {
  }

  lemma {:induction false} TwiceExactlyIfResent(writes: seq<Write>)
    requires Sound(writes)
    ensures Twice(SentPlaces(writes)) <==> Resent(writes)
  {
    if writes != [] {
      var n := |writes| - 1;
      var first, last := SentPlaces(writes[..n]), Range(writes[n].from, writes[n].o.sent);
      TwiceExactlyIfResent(writes[..n]);
      if Twice(first) {
        TwiceInFirst(first, last);
        ResentInFirst(writes, n);
      } else if Resent(writes) {
        ResentOverlaps(writes, n);
      } else if Twice(first + last) {
        TwiceOverlaps(writes, n);
      }
    }
  }

  lemma TwiceInFirst(a: seq<nat>, b: seq<nat>)
    requires Twice(a)
    ensures Twice(a + b)
  {
    var i, j :| 0 <= i < j < |a| && a[i] == a[j];
    assert (a + b)[i] == (a + b)[j];
  }

  lemma ResentInFirst(writes: seq<Write>, n: nat)
    requires n < |writes| && Resent(writes[..n])
    ensures Resent(writes)
  {
    var k, l :| 0 <= k < l < n && RefusedPartway(writes[..n][k]) && writes[..n][l].o.sent > 0;
    assert RefusedPartway(writes[k]) && writes[l].o.sent > 0;
  }

  lemma NotResent(writes: seq<Write>, k: nat, l: nat)
    requires !Resent(writes) && k < l < |writes|
    ensures !(RefusedPartway(writes[k]) && writes[l].o.sent > 0)
  {
  }

  lemma NotTwice(at: seq<nat>, i: nat, j: nat)
    requires !Twice(at) && i < j < |at|
    ensures at[i] != at[j]
  {
  }

  /** If only the last write resends anything, it resends the first byte of a refused one. */
  lemma ResentOverlaps(writes: seq<Write>, n: nat)
    requires Sound(writes) && |writes| == n + 1 && Resent(writes) && !Resent(writes[..n])
    ensures Twice(SentPlaces(writes[..n]) + Range(writes[n].from, writes[n].o.sent))
  {
    var k, l :| 0 <= k < l < |writes| && RefusedPartway(writes[k]) && writes[l].o.sent > 0;
    forall k', m | 0 <= k' < m < n ensures !(RefusedPartway(writes[k']) && writes[m].o.sent > 0) {
      NotResent(writes[..n], k', m);
    }
    Stuck(writes, After(writes[n]), k, n);
    SentPlacesAt(writes[..n], writes[k].from);
    assert Sends(writes[..n][k], writes[k].from);
    TwiceAcross(SentPlaces(writes[..n]), writes[n].from, writes[n].o.sent);
  }

  lemma TwiceAcross(first: seq<nat>, from: nat, sent: nat)
    requires from in first && sent > 0
    ensures Twice(first + Range(from, sent))
  {
    var i :| 0 <= i < |first| && first[i] == from;
    assert (first + Range(from, sent))[i] == (first + Range(from, sent))[|first|];
  }

  /** A byte of the last write that went out before did so in a write that did not complete. */
  lemma TwiceOverlaps(writes: seq<Write>, n: nat)
    requires Sound(writes) && |writes| == n + 1 && !Twice(SentPlaces(writes[..n]))
    requires Twice(SentPlaces(writes[..n]) + Range(writes[n].from, writes[n].o.sent))
    ensures Resent(writes)
  {
    var first, last := SentPlaces(writes[..n]), Range(writes[n].from, writes[n].o.sent);
    var i, j :| 0 <= i < j < |first + last| && (first + last)[i] == (first + last)[j];
    var p := (first + last)[i];
    assert i < |first|;
    forall m: nat | i < m < |first| ensures first[i] != first[m] { NotTwice(first, i, m); }
    assert first[i] == p && last[j - |first|] == p;
    SentPlacesAt(writes[..n], p);
    var k :| 0 <= k < n && Sends(writes[..n][k], p);
    assert writes[..n][k] == writes[k];
    Ascending(writes, After(writes[n]), k, n);
    assert RefusedPartway(writes[k]) && writes[n].o.sent > 0;
  }

  /** Bytes go out twice exactly if a write is refused partway and a later one gets through in
      part: for every pattern of receives and writes. */
  lemma SentTwiceExactly(cap: nat, arrivals: seq<RecvRet>, sends: seq<seq<W.Round>>)
    requires |arrivals| == |sends| && AllSendsEnd(sends)
    ensures var ws := Relayed(cap, arrivals, sends).writes; Twice(SentPlaces(ws)) <==> Resent(ws)
  {
    RelayedIsShaped(cap, arrivals, sends);
    ShapedIsSound(Relayed(cap, arrivals, sends), sends);
    TwiceExactlyIfResent(Relayed(cap, arrivals, sends).writes);
  }

  // ---------------------------------------------------------------- hang-ups

  /** Once RDHUP is cached it stays: the dispatcher clears only the bits of a waiter's mask. */
  ghost predicate HangUpStays(sends: seq<seq<W.Round>>) {
    && (forall k, i, j :: 0 <= k < |sends| && 0 <= i < j < |sends[k]| && sends[k][i].rdhup ==> sends[k][j].rdhup)
    && (forall k, l, i, j :: 0 <= k < l < |sends| && 0 <= i < |sends[k]| && 0 <= j < |sends[l]| ==>
          sends[k][i].rdhup ==> sends[l][j].rdhup)
  }

  /** The write is refused by a system call that fails, and not for a hang-up. */
  ghost predicate FailedPartway(w: Write, rounds: seq<W.Round>)
    requires W.AllEnd(rounds)
  {
    RefusedPartway(w) && exists i: nat :: W.RefusedIn(w.len, rounds, i) && !rounds[i].rdhup
  }

  /** After a refusal for a hang-up nothing is sent any more. */
  lemma HangUpEndsSending(r: Relay, sends: seq<seq<W.Round>>, k: nat, l: nat, i: nat)
    requires AllSendsEnd(sends) && Shaped(r, sends) && HangUpStays(sends) && k < l < |r.writes|
    requires i < |sends[k]| && sends[k][i].rdhup
    ensures r.writes[l].o.sent == 0
  {
    assert sends[l] != [] ==> sends[l][0].rdhup;
  }

  /** With hang-ups that stay, bytes go out twice exactly if a write fails, not for a hang-up,
      after the kernel has accepted part of it, and a later one gets through in part. */
  lemma SentTwiceExactlyAfterFailure(cap: nat, arrivals: seq<RecvRet>, sends: seq<seq<W.Round>>)
    requires |arrivals| == |sends| && AllSendsEnd(sends) && HangUpStays(sends)
    ensures var ws := Relayed(cap, arrivals, sends).writes;
            && |ws| <= |sends|
            && (Twice(SentPlaces(ws)) <==>
                exists k, l :: 0 <= k < l < |ws| && FailedPartway(ws[k], sends[k]) && ws[l].o.sent > 0)
  {
    SentTwiceExactly(cap, arrivals, sends);
    RelayedIsShaped(cap, arrivals, sends);
    var r := Relayed(cap, arrivals, sends);
    if Resent(r.writes) {
      var k, l :| 0 <= k < l < |r.writes| && RefusedPartway(r.writes[k]) && r.writes[l].o.sent > 0;
      W.EndsExactlyWhen(r.writes[k].len, 0, r.writes[k].len, sends[k]);
      var i: nat :| W.RefusedIn(r.writes[k].len, sends[k], i);
      if sends[k][i].rdhup { HangUpEndsSending(r, sends, k, l, i); }
      assert FailedPartway(r.writes[k], sends[k]) && r.writes[l].o.sent > 0;
    }
  }

  const FAILING: seq<W.Round> := [W.Round(false, [W.Accepted(1)]), W.Round(false, [W.Failed])]
  const PASSING: seq<W.Round> := [W.Round(false, [W.Accepted(3)])]
  const ARRIVALS: seq<RecvRet> := [Received("ab"), Received("c")]

  /** And it happens: the kernel accepts one byte of two and fails then, and accepts all three in
      the next turn. */
  lemma FirstByteSentTwice()
    ensures AllSendsEnd([FAILING, PASSING]) && HangUpStays([FAILING, PASSING])
    ensures var r := Relayed(1023, ARRIVALS, [FAILING, PASSING]);
            r.received == "abc" && SentPlaces(r.writes) == [0, 0, 1, 2] && Twice(SentPlaces(r.writes))
  {
    var w0, w1 := Write(0, 2, W.Outcome(W.Refused, 1)), Write(0, 3, W.Outcome(W.Completed, 3));
    FailingAndPassing(FAILING, PASSING);
    NeverHungUp();
    TwoTurns(FAILING, PASSING, w0, w1);
    TwoWrites(w0, w1);
    assert [0, 0, 1, 2][0] == [0, 0, 1, 2][1];
  }

  lemma TwoTurns(failing: seq<W.Round>, passing: seq<W.Round>, w0: Write, w1: Write)
    requires W.AllEnd(failing) && w0 == Write(0, 2, W.Transfer(2, 0, failing)) && w0.o.status == W.Refused
    requires W.AllEnd(passing) && w1 == Write(0, 3, W.Transfer(3, 0, passing)) && w1.o == W.Outcome(W.Completed, 3)
    ensures Relayed(1023, ARRIVALS, [failing, passing]) == Relay("abc", [w0, w1], 3, false)
  {
    RelayedTwo(1023, Received("ab"), Received("c"), failing, passing);
    FirstTurn(failing, w0);
    SecondTurn(passing, w0, w1);
  }

  lemma NeverHungUp()
    ensures HangUpStays([FAILING, PASSING])
  {
    assert forall k, i :: 0 <= k < 2 && 0 <= i < |[FAILING, PASSING][k]| ==> ![FAILING, PASSING][k][i].rdhup;
  }

  lemma FirstTurn(failing: seq<W.Round>, w0: Write)
    requires W.AllEnd(failing) && w0 == Write(0, 2, W.Transfer(2, 0, failing)) && w0.o.status == W.Refused
    ensures Step(1023, START, Received("ab"), failing) == Relay("ab", [w0], 0, false)
  {
    assert [] + "ab" == "ab" && START.writes + [w0] == [w0];
  }

  lemma SecondTurn(passing: seq<W.Round>, w0: Write, w1: Write)
    requires W.AllEnd(passing) && w1 == Write(0, 3, W.Transfer(3, 0, passing)) && w1.o == W.Outcome(W.Completed, 3)
    ensures Step(1023, Relay("ab", [w0], 0, false), Received("c"), passing) == Relay("abc", [w0, w1], 3, false)
  {
    assert "ab" + "c" == "abc" && [w0] + [w1] == [w0, w1];
  }

  lemma RelayedTwo(cap: nat, a: RecvRet, b: RecvRet, x: seq<W.Round>, y: seq<W.Round>)
    requires W.AllEnd(x) && W.AllEnd(y)
    ensures Relayed(cap, [a, b], [x, y]) == Step(cap, Step(cap, START, a, x), b, y)
  {
    assert [a, b][..1] == [a] && [x, y][..1] == [x] && |[a][..0]| == |[x][..0]| == 0;
    assert Relayed(cap, [a], [x]) == Step(cap, START, a, x);
  }

  lemma FailingAndPassing(failing: seq<W.Round>, passing: seq<W.Round>)
    requires failing == [W.Round(false, [W.Accepted(1)]), W.Round(false, [W.Failed])]
    requires passing == [W.Round(false, [W.Accepted(3)])]
    ensures W.AllEnd(failing) && W.Transfer(2, 0, failing) == W.Outcome(W.Refused, 1)
    ensures W.AllEnd(passing) && W.Transfer(3, 0, passing) == W.Outcome(W.Completed, 3)
  {
    assert failing[1..] == [W.Round(false, [W.Failed])];
    assert W.Transfer(2, 1, failing[1..]) == W.Outcome(W.Refused, 1);
  }

  lemma TwoWrites(w0: Write, w1: Write)
    requires w0.from == w1.from == 0 && w0.o.sent == 1 && w1.o.sent == 3
    ensures SentPlaces([w0, w1]) == [0, 0, 1, 2]
  {
    SentPlacesMore([], w0);
    SentPlacesMore([w0], w1);
    assert [] + [w0] == [w0] && [w0] + [w1] == [w0, w1];
    assert Range(0, 1) == [0] && Range(0, 3) == [0, 1, 2];
  }

  // ---------------------------------------------------------------- conservation

  /** How many bytes the write under way at the end has put on the wire. */
  function Pending(writes: seq<Write>): nat {
    if writes != [] && writes[|writes| - 1].o.status == W.Unfinished then writes[|writes| - 1].o.sent else 0
  }

  /** How many bytes the kernel has accepted of writes that were refused then. */
  function Wasted(writes: seq<Write>): nat {
    var n := |writes| - 1;
    if writes == [] then 0
    else Wasted(writes[..n]) + if writes[n].o.status == W.Refused then writes[n].o.sent else 0
  }

  lemma {:induction false} WastedNothing(writes: seq<Write>)
    ensures Wasted(writes) == 0 <==> forall k :: 0 <= k < |writes| ==> !RefusedPartway(writes[k])
  {
    if writes != [] {
      var n := |writes| - 1;
      WastedNothing(writes[..n]);
      assert forall k :: 0 <= k < n ==> writes[..n][k] == writes[k];
    }
  }

  lemma {:induction false} SentCount(writes: seq<Write>)
    requires Sound(writes)
    ensures |SentPlaces(writes)| == Wasted(writes) + Pending(writes) +
                                    if writes == [] then 0 else After(writes[|writes| - 1])
  {
    if writes != [] { SentCount(writes[..|writes| - 1]); }
  }

  lemma {:induction false} SentInOrder(writes: seq<Write>)
    requires Sound(writes) && Wasted(writes) == 0
    ensures SentPlaces(writes) == Range(0, |SentPlaces(writes)|)
  {
    if writes != [] {
      var n := |writes| - 1;
      SentInOrder(writes[..n]);
      SentCount(writes[..n]);
      RangeOn(|SentPlaces(writes[..n])|, writes[n].o.sent);
    }
  }

  lemma RangeOn(m: nat, n: nat)
    ensures Range(0, m) + Range(m, n) == Range(0, m + n)
  {
  }

  lemma {:induction false} SentInBounds(writes: seq<Write>, n: nat)
    requires forall k :: 0 <= k < |writes| ==> writes[k].from + writes[k].o.sent <= n
    ensures Within(SentPlaces(writes), n)
  {
    if writes != [] { SentInBounds(writes[..|writes| - 1], n); }
  }

  predicate Within(at: seq<nat>, n: nat) {
    forall i :: 0 <= i < |at| ==> at[i] < n
  }

  ghost predicate AllReceived(r: Relay) {
    Within(SentPlaces(r.writes), |r.received|)
  }

  lemma SentWasReceived(cap: nat, arrivals: seq<RecvRet>, sends: seq<seq<W.Round>>)
    requires |arrivals| == |sends| && AllSendsEnd(sends)
    ensures AllReceived(Relayed(cap, arrivals, sends))
  {
    RelayedIsShaped(cap, arrivals, sends);
    SentInBounds(Relayed(cap, arrivals, sends).writes, |Relayed(cap, arrivals, sends).received|);
  }

  /** The relay conserves the stream: what is sent, followed by what is still to be sent, is what
      was received, in order, exactly if no write is refused partway; and otherwise there is just
      as much too much. */
  lemma ConservedExactly(cap: nat, arrivals: seq<RecvRet>, sends: seq<seq<W.Round>>)
    requires |arrivals| == |sends| && AllSendsEnd(sends)
    ensures var r := Relayed(cap, arrivals, sends);
            && AllReceived(r) && r.released + Pending(r.writes) <= |r.received|
            && var sent, unsent := Pick(r.received, SentPlaces(r.writes)), r.received[r.released + Pending(r.writes)..];
               && |sent| + |unsent| == |r.received| + Wasted(r.writes)
               && (sent + unsent == r.received <==> forall k :: 0 <= k < |r.writes| ==> !RefusedPartway(r.writes[k]))
  {
    SentWasReceived(cap, arrivals, sends);
    RelayedIsShaped(cap, arrivals, sends);
    ConservedWhenShaped(Relayed(cap, arrivals, sends), sends);
  }

  lemma ConservedWhenShaped(r: Relay, sends: seq<seq<W.Round>>)
    requires AllSendsEnd(sends) && Shaped(r, sends) && AllReceived(r)
    ensures r.released + Pending(r.writes) <= |r.received|
    ensures var sent, unsent := Pick(r.received, SentPlaces(r.writes)), r.received[r.released + Pending(r.writes)..];
            && |sent| + |unsent| == |r.received| + Wasted(r.writes)
            && (sent + unsent == r.received <==> forall k :: 0 <= k < |r.writes| ==> !RefusedPartway(r.writes[k]))
  {
    ShapedIsSound(r, sends);
    SentCount(r.writes);
    WastedNothing(r.writes);
    if Wasted(r.writes) == 0 { SentInOrder(r.writes); }
    PendingInBounds(r, sends);
    Completes(r.received, SentPlaces(r.writes), r.released + Pending(r.writes), Wasted(r.writes));
  }

  lemma PendingInBounds(r: Relay, sends: seq<seq<W.Round>>)
    requires AllSendsEnd(sends) && Shaped(r, sends)
    ensures r.released + Pending(r.writes) <= |r.received|
  {
  }

  /** Sending the first `m` bytes once, and `extra` bytes more, leaves the stream whole exactly if
      there are none more. */
  lemma Completes(s: seq<char>, at: seq<nat>, m: nat, extra: nat)
    requires Within(at, |s|) && m <= |s| && |at| == m + extra && (extra == 0 ==> at == Range(0, m))
    ensures |Pick(s, at)| + |s[m..]| == |s| + extra
    ensures Pick(s, at) + s[m..] == s <==> extra == 0
  {
    if extra == 0 { PickRange(s, m); }
  }

  lemma PickRange(s: seq<char>, n: nat)
    requires n <= |s|
    ensures Within(Range(0, n), |s|) && Pick(s, Range(0, n)) == s[..n]
  {
  }

  /** What each receive adds to the stream, of what arrives as much as the buffer has room for, and
      when the loop ends: at an error, at the end of the stream, with a full buffer, or in a write
      that is still under way. */
  lemma ReceivedInOrder(cap: nat, arrivals: seq<RecvRet>, sends: seq<seq<W.Round>>, k: nat)
    requires |arrivals| == |sends| && AllSendsEnd(sends) && k < |arrivals|
    ensures var r, r' := Relayed(cap, arrivals[..k], sends[..k]), Relayed(cap, arrivals[..k + 1], sends[..k + 1]);
            var room := cap - (|r.received| - r.released);
            && r.received <= r'.received
            && (match arrivals[k]
                case RecvFailed => r'.received == r.received && r'.over
                case Received(bytes) =>
                  var n := if r.over then 0 else if |bytes| <= room then |bytes| else room;
                  && r'.received == r.received + bytes[..n]
                  && (r'.over <==>
                      r.over || n == 0 || (r'.writes != [] && r'.writes[|r'.writes| - 1].o.status == W.Unfinished)))
  {
    var r := Relayed(cap, arrivals[..k], sends[..k]);
    RelayedMore(cap, arrivals, sends, k);
    GotExactly(arrivals[k], cap - (|r.received| - r.released));
    if !r.over {
      var held := r.received[r.released..];
      StepCases(cap, r, arrivals[k], sends[k], Got(arrivals[k], cap - |held|), held);
    }
  }

  lemma GotExactly(arrival: RecvRet, room: nat)
    ensures match arrival
            case RecvFailed => Got(arrival, room) == []
            case Received(bytes) => Got(arrival, room) == bytes[..if |bytes| <= room then |bytes| else room]
  {
  }

  /** At every receive the buffer is empty, as long as no write has been refused. */
  lemma EmptyAtEachReceive(cap: nat, arrivals: seq<RecvRet>, sends: seq<seq<W.Round>>)
    requires |arrivals| == |sends| && AllSendsEnd(sends)
    ensures var r := Relayed(cap, arrivals, sends);
            !r.over && (forall k :: 0 <= k < |r.writes| ==> r.writes[k].o.status != W.Refused) ==>
              r.released == |r.received|
  {
    RelayedIsShaped(cap, arrivals, sends);
  }

  // ---------------------------------------------------------------- the code

  /** The segments as the byte strings they cover. */
  function Gather(b: seq<char>, iov: seq<R.Iovec>): (r: seq<seq<char>>)
    ensures |r| == |iov| && (forall k :: 0 <= k < |iov| ==> r[k] == R.Slice(b, iov[k]))
  {
    seq(|iov|, k requires 0 <= k < |iov| => R.Slice(b, iov[k]))
  }

  lemma {:induction false} GatherIsBytes(b: seq<char>, iov: seq<R.Iovec>)
    ensures W.Concat(Gather(b, iov)) == R.Bytes(b, iov)
  {
    if iov != [] {
      GatherIsBytes(b, iov[1..]);
      assert Gather(b, iov)[1..] == Gather(b, iov[1..]);
    }
  }

  /** Connection::recv: `got` are the bytes delivered, through the segments; `n` is its result. The
      count fits into the 16-bit parameter of `insert`, and `insert` takes all of it. */
  method Recv(buf: R.Buffer, from: RecvRet) returns (n: int, got: seq<char>)
    requires buf.Valid()
    modifies buf`end, buf.buf
    ensures buf.Valid()
    ensures got == Got(from, old(|buf.Vacant()|)) && n == if from.RecvFailed? then -1 else |got|
    ensures buf.Contents() == old(buf.Contents()) + got
  {
    var iovec := buf.Data(false);
    if from.RecvFailed? {
      return -1, [];
    }
    n := if |from.bytes| <= buf.WriteableCap() then |from.bytes| else buf.WriteableCap();
    got := from.bytes[..n];
    buf.Fill(iovec, got);
    assert R.ToU16(n) == n;
    n := buf.Insert(R.ToU16(n));
  }

  /** Connection::send: `wire` is what the kernel accepts of the buffered bytes. The buffer gives
      them up only if the write completes. */
  method Send(buf: R.Buffer, rounds: seq<W.Round>) returns (status: W.Status, n: int, wire: seq<char>)
    requires buf.Valid() && buf.Contents() != [] && W.AllEnd(rounds)
    modifies buf`start
    ensures buf.Valid()
    ensures var all := old(buf.Contents()); var o := W.Transfer(|all|, 0, rounds);
            && status == o.status && wire == all[..o.sent] && n == (if status == W.Completed then |all| else -1)
            && buf.Contents() == if status == W.Completed then [] else all
  {
    var iovec := buf.Data(true);
    GatherIsBytes(buf.buf[..], iovec);
    status, n, wire := W.WriteOut(Gather(buf.buf[..], iovec), rounds);
    if status != W.Completed {
      return;
    }
    assert R.ToU16(n) == n;
    var cleared := buf.Clear(R.ToU16(n));
    n := cleared;
  }

  class EchoCtx {
    var rxBuf: R.Buffer

    constructor (size: nat)
      requires 0 < size < R.U16_RANGE
      ensures rxBuf.Valid() && rxBuf.Contents() == [] && fresh(rxBuf) && fresh(rxBuf.buf)
    {
      rxBuf := new R.Buffer(size);
    }

    /** The buffer stands as the relay says. */
    ghost predicate Stands(r: Relay)
      reads this, rxBuf, rxBuf.buf
    {
      rxBuf.Valid() && Fits(rxBuf.GetCap(), r) && rxBuf.Contents() == r.received[r.released..]
    }

    /** One turn of `run`'s loop: a receive, and a send of what is buffered then. */
    method Turn(arrival: RecvRet, rounds: seq<W.Round>) returns (got: seq<char>, wire: seq<char>, ended: bool)
      requires rxBuf.Valid() && W.AllEnd(rounds)
      modifies rxBuf`start, rxBuf`end, rxBuf.buf
      ensures rxBuf.Valid() && got == Got(arrival, old(|rxBuf.Vacant()|))
      ensures got == [] ==> wire == [] && ended && rxBuf.Contents() == old(rxBuf.Contents())
      ensures got != [] ==>
                var all := old(rxBuf.Contents()) + got; var o := W.Transfer(|all|, 0, rounds);
                && wire == all[..o.sent] && ended == (o.status == W.Unfinished)
                && rxBuf.Contents() == if o.status == W.Completed then [] else all
    {
      var n;
      n, got := Recv(rxBuf, arrival);
      if n <= 0 {
        return got, [], true;
      }
      var m, status;
      status, m, wire := Send(rxBuf, rounds);
      ended := status == W.Unfinished;
    }

    /** The turn as a step of the relay. */
    method Advance(arrival: RecvRet, rounds: seq<W.Round>, ghost cap: nat, ghost r: Relay)
      returns (got: seq<char>, wire: seq<char>, ended: bool, ghost r': Relay)
      requires Stands(r) && cap == rxBuf.GetCap() && !r.over && W.AllEnd(rounds)
      modifies rxBuf`start, rxBuf`end, rxBuf.buf
      ensures r' == Step(cap, r, arrival, rounds) && Stands(r') && cap == rxBuf.GetCap()
      ensures r'.received == r.received + got && ended == r'.over
      ensures got == Got(arrival, cap - (|r.received| - r.released))
      ensures GoesOut(r, got, rounds, wire)
    {
      ghost var held := rxBuf.Contents();
      got, wire, ended := Turn(arrival, rounds);
      TurnIsStep(cap, r, arrival, rounds, held, got, wire, ended, rxBuf.Contents());
      r' := Step(cap, r, arrival, rounds);
    }

    /** `run`, for any pattern of receives and partial writes: `received` and `sent` are all the
        bytes that came and went. */
    method Run(arrivals: seq<RecvRet>, sends: seq<seq<W.Round>>) returns (received: seq<char>, sent: seq<char>)
      requires rxBuf.Valid() && rxBuf.Contents() == [] && |sends| == |arrivals| && AllSendsEnd(sends)
      modifies rxBuf`start, rxBuf`end, rxBuf.buf
      ensures rxBuf.Valid() && rxBuf.GetCap() == old(rxBuf.GetCap())
      ensures var r := Relayed(rxBuf.GetCap(), arrivals, sends);
              && Stands(r) && received == r.received
              && AllReceived(r) && sent == Pick(r.received, SentPlaces(r.writes))
    {
      received, sent := [], [];
      ghost var cap := rxBuf.GetCap();
      ghost var r := START;
      for k := 0 to |arrivals|
        invariant rxBuf.Valid() && rxBuf.GetCap() == cap && r == Relayed(cap, arrivals[..k], sends[..k]) && !r.over
        invariant Stands(r) && received == r.received
        invariant AllReceived(r) && sent == Pick(r.received, SentPlaces(r.writes))
      {
        var got, wire, ended;
        ghost var r';
        got, wire, ended, r' := Advance(arrivals[k], sends[k], cap, r);
        RunTurn(cap, arrivals, sends, k, r, got, wire, sent);
        r := r';
        received, sent := received + got, sent + wire;
        if ended {
          OverStays(cap, arrivals, sends, k + 1);
          return;
        }
      }
      assert arrivals[..|arrivals|] == arrivals && sends[..|arrivals|] == sends;
    }
  }

  /** `wire` is what the turn in which `got` comes in sends. */
  ghost predicate GoesOut(r: Relay, got: seq<char>, rounds: seq<W.Round>, wire: seq<char>)
    requires r.released <= |r.received| && W.AllEnd(rounds)
  {
    wire == if got == [] then [] else (r.received[r.released..] + got)[..NextWrite(r, got, rounds).o.sent]
  }

  lemma TurnIsStep(cap: nat, r: Relay, arrival: RecvRet, rounds: seq<W.Round>, held: seq<char>,
                   got: seq<char>, wire: seq<char>, ended: bool, left: seq<char>)
    requires Fits(cap, r) && !r.over && W.AllEnd(rounds) && held == r.received[r.released..]
    requires got == Got(arrival, cap - |held|)
    requires got == [] ==> wire == [] && ended && left == held
    requires got != [] ==>
               var o := W.Transfer(|held + got|, 0, rounds);
               && wire == (held + got)[..o.sent] && ended == (o.status == W.Unfinished)
               && left == if o.status == W.Completed then [] else held + got
    ensures var r' := Step(cap, r, arrival, rounds);
            r'.received == r.received + got && ended == r'.over && left == r'.received[r'.released..]
    ensures GoesOut(r, got, rounds, wire)
  {
    StepCases(cap, r, arrival, rounds, got, held);
    if got != [] {
      NextWriteIs(r, got, rounds, held);
      WriteLeaves(r, got, held, NextWrite(r, got, rounds), left);
    } else {
      assert r.received + got == r.received;
    }
  }

  lemma NextWriteIs(r: Relay, got: seq<char>, rounds: seq<W.Round>, held: seq<char>)
    requires r.released <= |r.received| && W.AllEnd(rounds) && held == r.received[r.released..]
    ensures NextWrite(r, got, rounds) == Write(r.released, |held + got|, W.Transfer(|held + got|, 0, rounds))
  {
  }

  lemma WriteLeaves(r: Relay, got: seq<char>, held: seq<char>, w: Write, left: seq<char>)
    requires r.released <= |r.received| && held == r.received[r.released..] && w.from == r.released
    requires w.len == |held + got| && (w.o.status == W.Completed ==> w.o.sent == w.len)
    requires left == if w.o.status == W.Completed then [] else held + got
    ensures var r' := WithWrite(r, r.received + got, w);
            r'.released <= |r'.received| && left == r'.received[r'.released..]
  {
  }

  /** What a turn adds to what is received and sent. */
  lemma RunTurn(cap: nat, arrivals: seq<RecvRet>, sends: seq<seq<W.Round>>, k: nat, r: Relay,
                got: seq<char>, wire: seq<char>, sent: seq<char>)
    requires |sends| == |arrivals| && AllSendsEnd(sends) && k < |arrivals|
    requires r == Relayed(cap, arrivals[..k], sends[..k]) && !r.over
    requires AllReceived(r) && sent == Pick(r.received, SentPlaces(r.writes))
    requires got == Got(arrivals[k], cap - (|r.received| - r.released)) && GoesOut(r, got, sends[k], wire)
    ensures var r' := Step(cap, r, arrivals[k], sends[k]);
            && r' == Relayed(cap, arrivals[..k + 1], sends[..k + 1])
            && AllReceived(r') && sent + wire == Pick(r'.received, SentPlaces(r'.writes))
  {
    RelayedMore(cap, arrivals, sends, k);
    StepSends(cap, r, arrivals[k], sends[k], got, wire);
  }

  lemma RelayedMore(cap: nat, arrivals: seq<RecvRet>, sends: seq<seq<W.Round>>, k: nat)
    requires |sends| == |arrivals| && AllSendsEnd(sends) && k < |arrivals|
    ensures var r' := Relayed(cap, arrivals[..k + 1], sends[..k + 1]);
            r' == Step(cap, Relayed(cap, arrivals[..k], sends[..k]), arrivals[k], sends[k]) && AllReceived(r')
  {
    assert arrivals[..k + 1][..k] == arrivals[..k] && sends[..k + 1][..k] == sends[..k];
    SentWasReceived(cap, arrivals[..k + 1], sends[..k + 1]);
  }

  lemma StepSends(cap: nat, r: Relay, arrival: RecvRet, rounds: seq<W.Round>, got: seq<char>, wire: seq<char>)
    requires Fits(cap, r) && !r.over && W.AllEnd(rounds) && AllReceived(r)
    requires got == Got(arrival, cap - (|r.received| - r.released))
    requires GoesOut(r, got, rounds, wire)
    requires AllReceived(Step(cap, r, arrival, rounds))
    ensures var r' := Step(cap, r, arrival, rounds);
            Pick(r.received, SentPlaces(r.writes)) + wire == Pick(r'.received, SentPlaces(r'.writes))
  {
    StepCases(cap, r, arrival, rounds, got, r.received[r.released..]);
    if got != [] {
      WriteSends(r, got, NextWrite(r, got, rounds), wire);
    } else {
      assert Pick(r.received, SentPlaces(r.writes)) + [] == Pick(r.received, SentPlaces(r.writes));
    }
  }

  lemma WriteSends(r: Relay, got: seq<char>, w: Write, wire: seq<char>)
    requires r.released <= |r.received| && w.from == r.released && w.o.sent <= w.len && AllReceived(r)
    requires w.from + w.len == |r.received + got|
    requires wire == (r.received[r.released..] + got)[..w.o.sent]
    ensures var r' := WithWrite(r, r.received + got, w);
            && AllReceived(r')
            && Pick(r.received, SentPlaces(r.writes)) + wire == Pick(r'.received, SentPlaces(r'.writes))
  {
    SentPlacesMore(r.writes, w);
    PickMore(r.received, r.received + got, SentPlaces(r.writes), w.from, w.o.sent);
    assert (r.received + got)[r.released..] == r.received[r.released..] + got;
  }

  lemma SentPlacesMore(writes: seq<Write>, w: Write)
    ensures SentPlaces(writes + [w]) == SentPlaces(writes) + Range(w.from, w.o.sent)
  {
    assert (writes + [w])[..|writes|] == writes;
  }

  lemma PickMore(s: seq<char>, s': seq<char>, at: seq<nat>, from: nat, n: nat)
    requires s <= s' && from + n <= |s'| && Within(at, |s|)
    ensures var all := at + Range(from, n);
            && Within(all, |s'|)
            && Pick(s', all) == Pick(s, at) + s'[from..][..n]
  {
  }
}
