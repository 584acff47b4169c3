/** Buffer: a ring of bytes in 16-bit arithmetic, read and written through at most two segments. */
module RingBuffer {
  import opened Options

  const U16_RANGE: nat := 0x1_0000

  /** A segment of the buffer, as an iovec: where it begins and how long it is. */
  datatype Iovec = Iovec(base: nat, len: nat)

  /** Assignment of an `int` to a `u_int16_t`. */
  function ToU16(x: int): (r: nat)
    ensures r < U16_RANGE && (0 <= x < U16_RANGE ==> r == x)
  {
    x % U16_RANGE
  }

  /** What is lost in the assignment is a multiple of the range. */
  lemma Truncated(x: int)
    ensures (x - ToU16(x)) % U16_RANGE == 0
  {
  }

  // ---------------------------------------------------------------- rings of bytes

  function Wrap(x: nat, m: nat): (r: nat)
    requires x < 2 * m
    ensures r < m
  {
    if x < m then x else x - m
  }

  lemma ModIsWrap(x: nat, m: nat)
    requires x < 2 * m
    ensures x % m == Wrap(x, m)
  {
    if x >= m {
      assert x == m + (x - m);
    }
  }

  /** The `n` bytes from `from` on, around the end. */
  function Ring(b: seq<char>, from: nat, n: nat): (r: seq<char>)
    requires from < |b| && n <= |b|
    ensures |r| == n
  {
    if n == 0 then [] else Ring(b, from, n - 1) + [b[Wrap(from + n - 1, |b|)]]
  }

  lemma {:induction false} RingAt(b: seq<char>, from: nat, n: nat, k: nat)
    requires from < |b| && k < n <= |b|
    ensures Ring(b, from, n)[k] == b[Wrap(from + k, |b|)]
  {
    if k < n - 1 { RingAt(b, from, n - 1, k); }
  }

  lemma {:induction false} RingSplit(b: seq<char>, from: nat, n: nat, m: nat)
    requires from < |b| && n + m <= |b|
    ensures Ring(b, from, n + m) == Ring(b, from, n) + Ring(b, Wrap(from + n, |b|), m)
  {
    if m > 0 { RingSplit(b, from, n, m - 1); }
  }

  /** A write `d` places behind the beginning of a ring of at most `d` bytes is outside of it. */
  lemma {:induction false} RingUpdateOutside(b: seq<char>, from: nat, n: nat, d: nat, c: char)
    requires from < |b| && n <= d < |b|
    ensures Ring(b[Wrap(from + d, |b|) := c], from, n) == Ring(b, from, n)
  {
    if n > 0 { RingUpdateOutside(b, from, n - 1, d, c); }
  }

  lemma RingAppend(b: seq<char>, from: nat, n: nat, c: char)
    requires from < |b| && n < |b|
    ensures Ring(b[Wrap(from + n, |b|) := c], from, n + 1) == Ring(b, from, n) + [c]
  {
    RingUpdateOutside(b, from, n, n, c);
  }

  /** Where nothing wraps, the ring is a slice. */
  lemma {:induction false} RingIsSlice(b: seq<char>, from: nat, n: nat)
    requires from < |b| && from + n <= |b|
    ensures Ring(b, from, n) == b[from..from + n]
  {
    if n > 0 {
      RingIsSlice(b, from, n - 1);
      assert b[from..from + n] == b[from..from + n - 1] + [b[from + n - 1]];
    }
  }

  /** How many bytes lie from `from` up to `to`. */
  function Span(from: nat, to: nat, size: nat): (n: nat)
    requires from < size && to < size
    ensures n < size && Wrap(from + n, size) == to
  {
    if from <= to then to - from else size - from + to
  }

  lemma SpanUnique(from: nat, n: nat, size: nat)
    requires from < size && n < size
    ensures Span(from, Wrap(from + n, size), size) == n
  {
  }

  /** Moving the end by `n` takes in the first `n` vacant bytes. */
  lemma EndMoved(b: seq<char>, start: nat, end: nat, n: nat)
    requires start < |b| && end < |b| && n < |b| - Span(start, end, |b|)
    ensures var held, end' := Span(start, end, |b|), Wrap(end + n, |b|);
            && Span(start, end', |b|) == held + n
            && Ring(b, start, held + n) == Ring(b, start, held) + Ring(b, end, |b| - 1 - held)[..n]
  {
    var held := Span(start, end, |b|);
    RingSplit(b, start, held, n);
    RingPrefix(b, end, n, |b| - 1 - held);
    SpanUnique(start, held + n, |b|);
  }

  lemma RingPrefix(b: seq<char>, from: nat, n: nat, m: nat)
    requires from < |b| && n <= m <= |b|
    ensures Ring(b, from, m)[..n] == Ring(b, from, n)
    ensures Ring(b, from, m)[n..] == Ring(b, Wrap(from + n, |b|), m - n)
  {
    RingSplit(b, from, n, m - n);
  }

  /** Moving the start by `n` drops the first `n` bytes. */
  lemma StartMoved(b: seq<char>, start: nat, end: nat, n: nat)
    requires start < |b| && end < |b| && n <= Span(start, end, |b|)
    ensures var held, start' := Span(start, end, |b|), Wrap(start + n, |b|);
            Span(start', end, |b|) == held - n && Ring(b, start', held - n) == Ring(b, start, held)[n..]
  {
    RingPrefix(b, start, n, Span(start, end, |b|));
  }

  /** From the end to one before the start lies all that is vacant. */
  lemma VacantSpan(start: nat, end: nat, size: nat)
    requires start < size && end < size
    ensures Span(end, Wrap(start + size - 1, size), size) == size - 1 - Span(start, end, size)
  {
  }

  predicate InBounds(iov: seq<Iovec>, size: nat) {
    forall k :: 0 <= k < |iov| ==> 0 < iov[k].len && iov[k].base + iov[k].len <= size
  }

  function Slice(b: seq<char>, x: Iovec): seq<char> {
    if x.base + x.len <= |b| then b[x.base..x.base + x.len] else []
  }

  function Bytes(b: seq<char>, iov: seq<Iovec>): seq<char> {
    if iov == [] then [] else Slice(b, iov[0]) + Bytes(b, iov[1..])
  }

  lemma SegmentFirst(iov: seq<Iovec>, k: nat)
    requires k < |iov|
    ensures var x, all := iov[k], Positions(iov[k..]);
            x.len <= |all| && all[..x.len] == PlacesOf(x) && all[x.len..] == Positions(iov[k + 1..])
  {
    assert iov[k..][0] == iov[k] && iov[k..][1..] == iov[k + 1..];
  }

  function Segments(from: nat, to: nat, size: nat): seq<Iovec>
    requires from < size && to < size
  {
    if from < to then [Iovec(from, to - from)]
    else if from > to then [Iovec(from, size - from)] + (if to > 0 then [Iovec(0, to)] else [])
    else []
  }

  /** The places of the bytes that segments cover, in the order in which they are read or written. */
  function Positions(iov: seq<Iovec>): (at: seq<nat>) {
    if iov == [] then [] else PlacesOf(iov[0]) + Positions(iov[1..])
  }

  function PlacesOf(x: Iovec): seq<nat> {
    seq(x.len, (i: nat) => x.base + i)
  }

  /** The `n` places from `from` on, around the end. */
  function Places(from: nat, n: nat, size: nat): (at: seq<nat>)
    requires from < size && n <= size
    ensures |at| == n && forall k :: 0 <= k < n ==> at[k] == Wrap(from + k, size)
  {
    if n == 0 then [] else Places(from, n - 1, size) + [Wrap(from + n - 1, size)]
  }

  lemma PositionsOfOne(x: Iovec)
    ensures Positions([x]) == PlacesOf(x)
  {
    assert [x][1..] == [];
  }

  /** The segments from one index to another cover the places between them, each once. */
  lemma SegmentsCoverSpan(from: nat, to: nat, size: nat)
    requires from < size && to < size
    ensures Positions(Segments(from, to, size)) == Places(from, Span(from, to, size), size)
  {
    if from < to {
      PositionsOfOne(Iovec(from, to - from));
    } else if from > to {
      var x, y := Iovec(from, size - from), Iovec(0, to);
      PositionsOfOne(x);
      if to > 0 {
        assert ([x] + [y])[1..] == [y];
        PositionsOfOne(y);
      } else {
        assert [x] + [] == [x];
      }
    }
  }

  /** What `b` becomes when `bytes` are written to the places `at`, one after the other. */
  function Scattered(b: seq<char>, at: seq<nat>, bytes: seq<char>): (r: seq<char>)
    requires |bytes| <= |at| && forall k :: 0 <= k < |at| ==> at[k] < |b|
    ensures |r| == |b|
  {
    var n := |bytes| - 1;
    if bytes == [] then b else Scattered(b, at, bytes[..n])[at[n] := bytes[n]]
  }

  /** Each byte comes to stand at its place, if no place is used twice, and nothing else changes. */
  lemma {:induction false} ScatteredAt(b: seq<char>, at: seq<nat>, bytes: seq<char>, k: nat)
    requires |bytes| <= |at| && forall i :: 0 <= i < |at| ==> at[i] < |b|
    requires forall i, j :: 0 <= i < j < |at| ==> at[i] != at[j]
    requires k < |b|
    ensures forall i :: 0 <= i < |bytes| && at[i] == k ==> Scattered(b, at, bytes)[k] == bytes[i]
    ensures (forall i :: 0 <= i < |bytes| ==> at[i] != k) ==> Scattered(b, at, bytes)[k] == b[k]
  {
    if bytes != [] {
      ScatteredAt(b, at, bytes[..|bytes| - 1], k);
    }
  }

  /** Written to the vacant places, bytes line up behind what is held and leave that alone. */
  lemma {:induction false} ScatteredLinesUp(b: seq<char>, start: nat, held: nat, end: nat, m: nat, bytes: seq<char>)
    requires start < |b| && held + m < |b| && end == Wrap(start + held, |b|) && |bytes| <= m
    ensures var r := Scattered(b, Places(end, m, |b|), bytes);
            Ring(r, end, |bytes|) == bytes && Ring(r, start, held) == Ring(b, start, held)
  {
    if bytes != [] {
      var n := |bytes| - 1;
      ScatteredLinesUp(b, start, held, end, m, bytes[..n]);
      var r := Scattered(b, Places(end, m, |b|), bytes[..n]);
      RingAppend(r, end, n, bytes[n]);
      RingUpdateOutside(r, start, held, held + n, bytes[n]);
    }
  }

  /** The segments from one index to another are the ring between them. */
  lemma SegmentsAreRing(b: seq<char>, from: nat, to: nat, iov: seq<Iovec>)
    requires from < |b| && to < |b| && iov == Segments(from, to, |b|)
    ensures |iov| <= 2 && InBounds(iov, |b|)
    ensures Bytes(b, iov) == Ring(b, from, Span(from, to, |b|))
  {
    if from < to {
      SpanIsRing(b, from, to);
    } else if from > to {
      WrappedSpanIsRing(b, from, to);
    }
  }

  lemma SpanIsRing(b: seq<char>, from: nat, to: nat)
    requires from < to < |b|
    ensures Bytes(b, [Iovec(from, to - from)]) == Ring(b, from, to - from)
  {
    BytesOfOne(b, Iovec(from, to - from));
    RingIsSlice(b, from, to - from);
  }

  lemma WrappedSpanIsRing(b: seq<char>, from: nat, to: nat)
    requires to < from < |b|
    ensures Bytes(b, [Iovec(from, |b| - from)] + (if to > 0 then [Iovec(0, to)] else []))
         == Ring(b, from, |b| - from + to)
  {
    RingAcrossTheEnd(b, from, to);
    if to > 0 {
      BytesOfTwo(b, Iovec(from, |b| - from), Iovec(0, to));
    } else {
      assert [Iovec(from, |b| - from)] + [] == [Iovec(from, |b| - from)];
      BytesOfOne(b, Iovec(from, |b| - from));
    }
  }

  lemma RingAcrossTheEnd(b: seq<char>, from: nat, to: nat)
    requires to < from < |b|
    ensures Ring(b, from, |b| - from + to) == b[from..] + b[..to]
  {
    RingIsSlice(b, from, |b| - from);
    RingSplit(b, from, |b| - from, to);
    RingIsSlice(b, 0, to);
  }

  lemma BytesOfOne(b: seq<char>, x: Iovec)
    ensures Bytes(b, [x]) == Slice(b, x)
  {
  }

  lemma BytesOfTwo(b: seq<char>, x: Iovec, y: Iovec)
    ensures Bytes(b, [x] + [y]) == Slice(b, x) + Slice(b, y)
  {
    assert ([x] + [y])[1..] == [y];
    BytesOfOne(b, y);
  }

  /** The first `count` of `s`, or all of it if it is shorter or `count` is negative. */
  function UpTo(s: seq<char>, count: int): seq<char> {
    if 0 <= count < |s| then s[..count] else s
  }

  lemma UpToIs(s: seq<char>, count: int)
    ensures UpTo(s, count) == if 0 <= count <= |s| then s[..count] else s
  {
  }

  lemma UpToSplit(g: seq<char>, rest: seq<char>, n: int)
    ensures UpTo(g + rest, n) == UpTo(g, n) + UpTo(rest, n - |UpTo(g, n)|)
  {
  }

  /** The bytes of the segments from the i-th on. */
  function BytesFrom(b: seq<char>, iov: seq<Iovec>, i: nat): seq<char>
    requires i <= |iov|
    decreases |iov| - i
  {
    if i == |iov| then [] else Slice(b, iov[i]) + BytesFrom(b, iov, i + 1)
  }

  lemma {:induction false} BytesFromIsBytes(b: seq<char>, iov: seq<Iovec>, i: nat)
    requires i <= |iov|
    ensures BytesFrom(b, iov, i) == Bytes(b, iov[i..])
    decreases |iov| - i
  {
    if i < |iov| {
      BytesFromIsBytes(b, iov, i + 1);
      assert iov[i..][0] == iov[i] && iov[i..][1..] == iov[i + 1..];
    }
  }

  /** What is taken so far and what is to be taken of the segments from the i-th on make up `all`. */
  ghost predicate Taking(b: seq<char>, iovs: seq<Iovec>, i: nat, n: int, str: seq<char>, all: seq<char>) {
    i <= |iovs| && str + UpTo(BytesFrom(b, iovs, i), n) == all
  }

  lemma TakeStarts(b: seq<char>, iovs: seq<Iovec>, n: int)
    ensures Taking(b, iovs, 0, n, [], UpTo(Bytes(b, iovs), n))
  {
    BytesFromIsBytes(b, iovs, 0);
    assert iovs[0..] == iovs;
  }

  lemma TakePiece(b: seq<char>, iovs: seq<Iovec>, i: nat, n: int, str: seq<char>, all: seq<char>)
    requires i < |iovs| && Taking(b, iovs, i, n, str, all)
    ensures var piece := UpTo(Slice(b, iovs[i]), n); Taking(b, iovs, i + 1, n - |piece|, str + piece, all)
  {
    var g, rest := Slice(b, iovs[i]), BytesFrom(b, iovs, i + 1);
    UpToSplit(g, rest, n);
    Regroup(str, UpTo(g, n), UpTo(rest, n - |UpTo(g, n)|));
  }

  lemma Regroup(x: seq<char>, y: seq<char>, z: seq<char>)
    ensures (x + y) + z == x + (y + z)
  {
  }

  lemma TakeEnds(b: seq<char>, iovs: seq<Iovec>, n: int, str: seq<char>, all: seq<char>, count: int)
    requires Taking(b, iovs, |iovs|, n, str, all) && all == UpTo(Bytes(b, iovs), count)
    ensures str == if 0 <= count <= |Bytes(b, iovs)| then Bytes(b, iovs)[..count] else Bytes(b, iovs)
  {
    UpToIs(Bytes(b, iovs), count);
  }

  /** One byte more, at the end. */
  lemma SpanNext(start: nat, end: nat, size: nat)
    requires start < size && end < size && Span(start, end, size) + 1 < size
    ensures end == Wrap(start + Span(start, end, size), size)
    ensures Span(start, Wrap(end + 1, size), size) == Span(start, end, size) + 1
  {
  }

  class Buffer {
    var buf: array<char>
    var start: nat
    var end: nat
    var size: nat

    ghost predicate Valid()
      reads this
    {
      0 < size < U16_RANGE && buf.Length == size && start < size && end < size
    }

    /** The bytes in the buffer, oldest first. */
    ghost function Contents(): seq<char>
      requires Valid()
      reads this, buf
    {
      Ring(buf[..], start, Span(start, end, size))
    }

    /** The bytes an insertion would append, in the order it would. */
    ghost function Vacant(): seq<char>
      requires Valid()
      reads this, buf
    {
      Ring(buf[..], end, size - 1 - Span(start, end, size))
    }

    constructor (size: nat)
      requires 0 < size < U16_RANGE
      ensures Valid() && this.size == size && Contents() == [] && fresh(buf)
    {
      buf := new char[size](_ => '\0');
      start, end, this.size := 0, 0, size;
    }

    /** The remainder that takes an index past the end back to the front. */
    static method Modulo(x: nat, m: nat) returns (r: nat)
      requires x < 2 * m
      ensures r == Wrap(x, m)
    {
      ModIsWrap(x, m);
      r := x % m;
    }

    function ReadableCap(): (r: nat)
      requires Valid()
      reads this, buf
      ensures r == |Contents()|
    {
      ToU16(if start <= end then end - start else size - start + end)
    }

    function WriteableCap(): (r: nat)
      requires Valid()
      reads this, buf
      ensures r == |Vacant()| && r + |Contents()| == GetCap()
    {
      ToU16(if start > end then start - end - 1 else size + start - end - 1)
    }

    function GetCap(): nat
      requires Valid()
      reads this
    {
      ToU16(size - 1)
    }

    predicate Readable()
      requires Valid()
      reads this
    {
      start != end
    }

    predicate Writeable()
      requires Valid()
      reads this
    {
      start != (end + 1) % size
    }

    /** The two tests are about emptiness and fullness. */
    lemma TestsAreRight()
      requires Valid()
      ensures Readable() <==> Contents() != []
      ensures Writeable() <==> |Contents()| < GetCap()
    {
      ModIsWrap(end + 1, size);
    }

    lemma ContentsAt(index: nat)
      requires Valid() && index < |Contents()|
      ensures Contents()[index] == buf[Wrap(start + index, size)]
    {
      RingAt(buf[..], start, Span(start, end, size), index);
    }

    /** operator[], with None for the exception it throws. */
    method At(index: int) returns (r: Option<char>)
      requires Valid()
      ensures r == if 0 <= index < |Contents()| then Some(Contents()[index]) else None
    {
      if index < 0 || index >= ReadableCap() {
        return None;
      }
      ContentsAt(index);
      var i := Modulo(start + index, size);
      r := Some(buf[i]);
    }

    method ClearAll() returns (n: nat)
      requires Valid()
      modifies this`start, this`end
      ensures Valid() && Contents() == [] && n == |old(Contents())|
    {
      n := ReadableCap();
      start, end := 0, 0;
      assert Ring(buf[..], 0, Span(start, end, size)) == [];
    }

    method Clear(count: nat) returns (n: nat)
      requires Valid() && count < U16_RANGE
      modifies this`start
      ensures Valid() && n == (if count > |old(Contents())| then |old(Contents())| else count)
      ensures Contents() == old(Contents())[n..]
    {
      n := count;
      if n > ReadableCap() {
        n := ReadableCap();
      }
      StartMoved(buf[..], start, end, n);
      start := Modulo(start + n, size);
    }

    method Insert(count: nat) returns (n: nat)
      requires Valid() && count < U16_RANGE
      modifies this`end
      ensures Valid() && n == (if count > |old(Vacant())| then |old(Vacant())| else count)
      ensures Contents() == old(Contents()) + old(Vacant())[..n]
    {
      n := count;
      if n > WriteableCap() {
        n := WriteableCap();
      }
      MoveEnd(n);
    }

    /** The assignment to `end` there: the first `n` vacant bytes become contents. */
    method MoveEnd(n: nat)
      requires Valid() && n <= |Vacant()|
      modifies this`end
      ensures Valid() && Contents() == old(Contents()) + old(Vacant())[..n]
    {
      EndMoved(buf[..], start, end, n);
      end := Modulo(end + n, size);
    }

    method InsertCh(ch: char) returns (n: nat)
      requires Valid()
      modifies this`end, buf
      ensures Valid() && n == (if |old(Contents())| < GetCap() then 1 else 0)
      ensures Contents() == old(Contents()) + (if n == 1 then [ch] else [])
    {
      TestsAreRight();
      if !Writeable() {
        return 0;
      }
      SpanNext(start, end, size);
      RingAppend(buf[..], start, Span(start, end, size), ch);
      ghost var before := buf[..];
      buf[end] := ch;
      assert buf[..] == before[end := ch];
      end := Modulo(end + 1, size);
      n := 1;
    }

    /** `data`'s second half: the vector of segments from `head` to `tail`. */
    static method Vector(head: nat, tail: nat, size: nat) returns (iov: seq<Iovec>)
      requires head < size && tail < size
      ensures iov == Segments(head, tail, size)
    {
      iov := [];
      if head < tail {
        iov := iov + [Iovec(head, tail - head)];
      } else if head > tail {
        iov := iov + [Iovec(head, size - head)];
        if tail > 0 {
          iov := iov + [Iovec(0, tail)];
        }
      }
    }

    /** The places of the bytes held, and of the room for more. */
    ghost function Occupied(): (at: seq<nat>)
      requires Valid()
      reads this
    {
      Places(start, Span(start, end, size), size)
    }

    ghost function Free(): (at: seq<nat>)
      requires Valid()
      reads this
    {
      Places(end, size - 1 - Span(start, end, size), size)
    }

    /** No place is both held and free, or either of them twice; together they are all but one. */
    lemma PlacesAreApart()
      requires Valid()
      ensures |Occupied()| == |Contents()| && |Free()| == WriteableCap() && |Occupied()| + |Free()| == size - 1
      ensures var all := Occupied() + Free(); forall i, j :: 0 <= i < j < |all| ==> all[i] != all[j]
    {
      assert forall k :: 0 <= k < |Free()| ==> Free()[k] == Wrap(start + (|Occupied()| + k), size);
    }

    /** The segments to read from, or to write to: at most two, none of them empty, covering
        exactly the places held, or exactly the free ones. */
    method Data(read: bool) returns (iov: seq<Iovec>)
      requires Valid()
      ensures |iov| <= 2 && InBounds(iov, size)
      ensures Positions(iov) == if read then Occupied() else Free()
      ensures Bytes(buf[..], iov) == if read then Contents() else Vacant()
    {
      ghost var b := buf[..];
      var head, tail := 0, 0;
      if read {
        head, tail := start, end;
      } else {
        VacantSpan(start, end, size);
        head := end;
        tail := Modulo(start + size - 1, size);
      }
      iov := Vector(head, tail, size);
      SegmentsAreRing(b, head, tail, iov);
      SegmentsCoverSpan(head, tail, size);
    }

    /** What the kernel does with a vector it reads into: it fills the segments in order. */
    static method Scatter(b: array<char>, iov: seq<Iovec>, bytes: seq<char>)
      requires InBounds(iov, b.Length) && |bytes| <= |Positions(iov)|
      requires forall k :: 0 <= k < |Positions(iov)| ==> Positions(iov)[k] < b.Length
      modifies b
      ensures b[..] == Scattered(old(b[..]), Positions(iov), bytes)
    {
      ghost var b0, at := b[..], Positions(iov);
      var done: nat := 0;
      assert bytes[..0] == [] && iov[0..] == iov;
      for k := 0 to |iov|
        invariant done <= |bytes| <= |at| && b[..] == Scattered(b0, at, bytes[..done])
        invariant done < |bytes| ==> at[done..] == Positions(iov[k..])
      {
        if done < |bytes| {
          SegmentFirst(iov, k);
          assert at[done..done + iov[k].len] == at[done..][..iov[k].len];
          done := FillSegment(b, iov[k], bytes, done, at, b0);
        }
      }
      assert bytes[..done] == bytes;
    }

    /** One segment, from the byte `done` on; the result is how many bytes are written then. */
    static method FillSegment(b: array<char>, x: Iovec, bytes: seq<char>, done: nat,
                              ghost at: seq<nat>, ghost b0: seq<char>) returns (r: nat)
      requires x.base + x.len <= b.Length == |b0| && done + x.len <= |at| && done <= |bytes| <= |at|
      requires forall k :: 0 <= k < |at| ==> at[k] < b.Length
      requires at[done..done + x.len] == PlacesOf(x)
      requires b[..] == Scattered(b0, at, bytes[..done])
      modifies b
      ensures r == if done + x.len <= |bytes| then done + x.len else |bytes|
      ensures b[..] == Scattered(b0, at, bytes[..r])
    {
      var i := 0;
      while i < x.len && done + i < |bytes|
        invariant i <= x.len && done + i <= |bytes|
        invariant b[..] == Scattered(b0, at, bytes[..done + i])
      {
        assert bytes[..done + i + 1][..done + i] == bytes[..done + i];
        assert at[done + i] == at[done..done + x.len][i] == x.base + i;
        ghost var before := b[..];
        b[x.base + i] := bytes[done + i];
        assert b[..] == before[x.base + i := bytes[done + i]];
        i := i + 1;
      }
      r := done + i;
    }

    /** Reading into the writable segments: the bytes come to stand where an insertion will take
        them in, and the contents do not change. */
    method Fill(iov: seq<Iovec>, bytes: seq<char>)
      requires Valid() && InBounds(iov, size) && Positions(iov) == Free() && |bytes| <= |Vacant()|
      modifies buf
      ensures Valid() && Contents() == old(Contents()) && |Vacant()| == |old(Vacant())|
      ensures Vacant()[..|bytes|] == bytes
    {
      ghost var held := Span(start, end, size);
      ghost var b0 := buf[..];
      Scatter(buf, iov, bytes);
      ScatteredLinesUp(b0, start, held, end, size - 1 - held, bytes);
      RingPrefix(buf[..], end, |bytes|, size - 1 - held);
    }

    /** retriveStr; a negative `n` is compared as a huge unsigned number. */
    method RetriveStr(count: int) returns (str: seq<char>)
      requires Valid() && -0x7FFF_0000 <= count < 0x8000_0000
      modifies this`start
      ensures Valid()
      ensures str == if 0 <= count <= |old(Contents())| then old(Contents())[..count] else old(Contents())
      ensures Contents() == old(Contents())[|str|..]
    {
      var iovs := Data(true);
      str := Take(buf[..], iovs, count);
      var cleared := Clear(|str|);
    }

    /** retriveStr's loop: the first `count` bytes of the segments. */
    static method Take(b: seq<char>, iovs: seq<Iovec>, count: int) returns (str: seq<char>)
      requires InBounds(iovs, |b|)
      ensures str == if 0 <= count <= |Bytes(b, iovs)| then Bytes(b, iovs)[..count] else Bytes(b, iovs)
    {
      str := [];
      var n := count;
      ghost var all := UpTo(Bytes(b, iovs), count);
      TakeStarts(b, iovs, count);
      for i := 0 to |iovs|
        invariant Taking(b, iovs, i, n, str, all)
      {
        TakePiece(b, iovs, i, n, str, all);
        var piece := Piece(b, iovs[i], n);
        str := str + piece;
        n := n - |piece|;
      }
      TakeEnds(b, iovs, n, str, all, count);
    }

    /** What retriveStr appends of one segment when `n` bytes are still wanted. */
    static method Piece(b: seq<char>, iov: Iovec, n: int) returns (piece: seq<char>)
      requires iov.base + iov.len <= |b|
      ensures piece == UpTo(Slice(b, iov), n)
    {
      var len := if 0 <= n < iov.len then n else iov.len;
      piece := b[iov.base..iov.base + len];
    }

    /** retriveRaw; a negative `n` copies nothing and is truncated to 16 bits afterwards. */
    method RetriveRaw(p: array<char>, count: int) returns (r: nat)
      requires Valid() && p != buf && count <= p.Length
      modifies this`start, p
      ensures Valid()
      ensures count > |old(Contents())| ==> r == 0 && Contents() == old(Contents()) && p[..] == old(p[..])
      ensures 0 <= count <= |old(Contents())| ==>
                && r == count && p[..r] == old(Contents())[..r] && p[r..] == old(p[r..])
                && Contents() == old(Contents())[r..]
      ensures count < 0 ==> r == ToU16(count) && p[..] == old(p[..])
      ensures count < 0 ==> Contents() == old(Contents())[if r > |old(Contents())| then |old(Contents())| else r..]
    {
      if count > ReadableCap() {
        return 0;
      }
      ghost var all := Contents();
      var i := 0;
      while i < count
        invariant 0 <= i <= if count < 0 then 0 else count
        invariant start == old(start) && Valid() && Contents() == all
        invariant p[..i] == all[..i] && forall k :: i <= k < p.Length ==> p[k] == old(p[k])
      {
        ContentsAt(i);
        var at := Modulo(start + i, size);
        p[i] := buf[at];
        i := i + 1;
      }
      var cleared := Clear(ToU16(count));
      r := ToU16(count);
    }
  }

  /** The two ways of taking bytes out agree: on buffers that hold the same, for any count that is
      held, they give the same bytes and leave the same. */
  method RetrieveBothWays(a: Buffer, b: Buffer, p: array<char>, n: nat) returns (str: seq<char>, r: nat)
    requires a.Valid() && b.Valid() && a != b && a.Contents() == b.Contents()
    requires p !in {a.buf, b.buf} && n <= |a.Contents()| && n <= p.Length
    modifies a`start, b`start, p
    ensures a.Valid() && b.Valid() && a.Contents() == b.Contents()
    ensures r == n <= p.Length && str == p[..n] == old(a.Contents())[..n]
  {
    str := a.RetriveStr(n);
    r := b.RetriveRaw(p, n);
  }
}
