/** MpmcQueue as a heap structure: two linked lists that recycle nodes between each other,
    used from one thread. The interleaved accesses are in MpmcConcurrent. */
module MpmcHeap {

  class BufferNode<T(0)> {
    var data: T
    var next: BufferNode?<T>

    constructor ()
      ensures next == null
    {
      next := null;
    }
  }

  class MpmcQueue<T(0)> {
    var uHead: BufferNode?<T>
    var uTail: BufferNode?<T>
    var sHead: BufferNode?<T>
    var sTail: BufferNode?<T>

    ghost var used: seq<BufferNode<T>>     // uHead .. uTail: a dummy, then the elements
    ghost var spare: seq<BufferNode<T>>    // sHead .. sTail: never empty
    ghost var nodes: set<BufferNode<T>>    // every node ever allocated
    ghost var peak: nat                    // the largest number of elements so far
    ghost var Contents: seq<T>             // the elements, oldest first

    /** `c` is an acyclic, null-terminated chain. */
    static ghost predicate Chain(c: seq<BufferNode<T>>)
      reads c
    {
      && c != []
      && (forall i, j :: 0 <= i < j < |c| ==> c[i] != c[j])
      && (forall i :: 0 <= i < |c| - 1 ==> c[i].next == c[i + 1])
      && c[|c| - 1].next == null
    }

    ghost predicate Valid()
      reads this, used, spare
    {
      && Chain(used) && Chain(spare)
      && uHead == used[0] && uTail == used[|used| - 1]
      && sHead == spare[0] && sTail == spare[|spare| - 1]
      && (forall i, j :: 0 <= i < |used| && 0 <= j < |spare| ==> used[i] != spare[j])
      && nodes == (set n | n in used) + (set n | n in spare)
      && Elements()
      && |Contents| <= peak
      && |used| + |spare| == peak + 2
    }

    /** The used list carries the elements behind its dummy. */
    ghost predicate Elements()
      reads this, used
    {
      |used| == |Contents| + 1 && forall i :: 0 <= i < |Contents| ==> used[i + 1].data == Contents[i]
    }

    /** The two lists hold every node ever allocated, and there are two more of them than the
        queue ever held elements. */
    lemma Population()
      requires Valid()
      ensures |nodes| == peak + 2
    {
      Distinct(used);
      Distinct(spare);
      assert (set n | n in used) !! (set n | n in spare);
    }

    static lemma {:induction false} Distinct(c: seq<BufferNode<T>>)
      requires forall i, j :: 0 <= i < j < |c| ==> c[i] != c[j]
      ensures |set n | n in c| == |c|
    {
      if c != [] {
        var m := |c| - 1;
        Distinct(c[..m]);
        assert (set n | n in c) == (set n | n in c[..m]) + {c[m]};
      }
    }

    constructor ()
      ensures Valid() && Contents == [] && fresh(nodes) && peak == 0
    {
      var u := new BufferNode<T>();
      var s := new BufferNode<T>();
      uHead, uTail, sHead, sTail := u, u, s, s;
      used, spare, nodes, peak, Contents := [u], [s], {u, s}, 0, [];
    }

    /** The lists while `n` is in neither of them, between its removal and its insertion. */
    ghost predicate Holds(n: BufferNode<T>)
      reads this, used, spare
    {
      && Chain(used) && Chain(spare)
      && uHead == used[0] && uTail == used[|used| - 1]
      && sHead == spare[0] && sTail == spare[|spare| - 1]
      && (forall i, j :: 0 <= i < |used| && 0 <= j < |spare| ==> used[i] != spare[j])
      && n !in used && n !in spare
      && Elements()
      && nodes == (set n | n in used) + (set n | n in spare) + {n}
    }

    /** The first block of `enqueue`, under sLk_. */
    method TakeSpare() returns (pres: BufferNode<T>)
      requires Valid()
      modifies this
      ensures Holds(pres) && pres == old(sHead) && old(nodes) <= nodes && fresh(nodes - old(nodes))
      ensures |Contents| < peak ==> nodes == old(nodes)
      ensures used == old(used) && Contents == old(Contents) && peak == old(peak)
      ensures |used| + |spare| == if |Contents| == peak then peak + 2 else peak + 1
      ensures |Contents| <= peak
    {
      pres := sHead;
      var nexts := pres.next;
      ghost var rest := spare[1..];
      assert |spare| > 1 ==> spare[0].next == spare[1];
      if nexts == null {
        assert sHead == sTail;      // the first turn of the spin takes its break
        nexts := new BufferNode<T>();
        sTail := nexts;
        rest, nodes := [nexts], nodes + {nexts};
      }
      sHead := nexts;
      spare := rest;
    }

    method Enqueue(input: T)
      requires Valid()
      modifies this, nodes
      ensures Valid() && old(nodes) <= nodes && fresh(nodes - old(nodes))
      ensures Contents == old(Contents) + [input]
      ensures peak == if |Contents| > old(peak) then |Contents| else old(peak)
      ensures peak == old(peak) ==> nodes == old(nodes)
    {
      var pres := TakeSpare();
      AppendUsed(pres, input);
    }

    /** What `enqueue` does with its node outside the lock. */
    method AppendUsed(pres: BufferNode<T>, input: T)
      requires Holds(pres)
      requires |used| + |spare| == if |Contents| == peak then peak + 2 else peak + 1
      requires |Contents| <= peak
      modifies this, uTail, pres
      ensures Valid() && nodes == old(nodes)
      ensures Contents == old(Contents) + [input]
      ensures peak == if |Contents| > old(peak) then |Contents| else old(peak)
    {
      pres.data := input;
      pres.next := null;
      var preu := uTail;
      uTail := pres;
      preu.next := pres;
      used, Contents := used + [pres], Contents + [input];
      peak := if |Contents| > peak then |Contents| else peak;
    }

    /** The first block of `dequeue`, under uLk_. */
    method TakeUsed() returns (preu: BufferNode?<T>, output: T)
      requires Valid()
      modifies this
      ensures preu == null <==> old(Contents) == []
      ensures preu == null ==> Valid() && unchanged(this)
      ensures preu != null ==> Holds(preu) && [output] + Contents == old(Contents)
      ensures preu != null ==> |used| + |spare| == peak + 1
      ensures nodes == old(nodes) && peak == old(peak) && spare == old(spare)
    {
      preu := uHead;
      output := preu.data;
      var nextu := preu.next;
      assert |used| > 1 ==> used[0].next == used[1];
      if nextu == null {
        assert uHead == uTail;      // the first turn of the spin returns
        return null, output;
      }
      uHead := nextu;
      output := nextu.data;
      used, Contents := used[1..], Contents[1..];
    }

    method Dequeue() returns (ok: bool, output: T)
      requires Valid()
      modifies this, nodes
      ensures Valid() && nodes == old(nodes) && peak == old(peak)
      ensures ok <==> old(Contents) != []
      ensures ok ==> [output] + Contents == old(Contents)
      ensures !ok ==> Contents == []
    {
      var preu;
      preu, output := TakeUsed();
      if preu == null {
        return false, output;
      }
      preu.next := null;
      var pres := sTail;
      sTail := preu;
      pres.next := preu;
      spare := spare + [preu];
      ok := true;
    }

    /** ~MpmcQueue: `freed` lists the deleted nodes in the order they are deleted. */
    method Destroy() returns (freed: seq<BufferNode<T>>)
      requires Valid()
      modifies this
      ensures sHead == null && uHead == null
      ensures freed == old(spare) + old(used)
      ensures forall i, j :: 0 <= i < j < |freed| ==> freed[i] != freed[j]
      ensures (set n | n in freed) == old(nodes)
    {
      freed := [];
      var temp := sHead;
      while temp != null
        invariant |freed| <= |spare| && freed == spare[..|freed|]
        invariant temp == sHead == if |freed| < |spare| then spare[|freed|] else null
        invariant spare == old(spare) && used == old(used) && uHead == old(uHead) && nodes == old(nodes)
        decreases |spare| - |freed|
      {
        sHead := temp.next;
        freed := freed + [temp];
        temp := sHead;
      }
      temp := uHead;
      while temp != null
        invariant |spare| <= |freed| <= |spare| + |used| && freed == spare + used[..|freed| - |spare|]
        invariant temp == uHead == if |freed| < |spare| + |used| then used[|freed| - |spare|] else null
        invariant spare == old(spare) && used == old(used) && nodes == old(nodes) && sHead == null
        decreases |spare| + |used| - |freed|
      {
        uHead := temp.next;
        freed := freed + [temp];
        temp := uHead;
      }
    }
  }
}
