/** The harbor's message queue: a circular buffer that doubles when one slot is left, so
    that equal head and tail always mean empty. */
module HarborQueue {
  import opened Basics

  const DEFAULT_QUEUE_SIZE := 1024

  /** The index that follows i in a ring of n slots, as the code computes it. */
  lemma Wrap(i: nat, n: nat)
    requires i < 2 * n
    ensures i % n == if i < n then i else i - n
  {
    if i < n {
    } else {
      assert i == n * 1 + (i - n);
    }
  }

  /** The messages between head and tail of a ring, oldest first. */
  function Ring<T>(s: seq<T>, head: nat, tail: nat): seq<T>
    requires head < |s| && tail < |s|
  {
    if head <= tail then s[head..tail] else s[head..] + s[..tail]
  }

  lemma RingAt<T>(s: seq<T>, head: nat, tail: nat, i: nat)
    requires head < |s| && tail < |s| && i < |Ring(s, head, tail)|
    ensures head + i < 2 * |s| && Ring(s, head, tail)[i] == s[if head + i < |s| then head + i else head + i - |s|]
  {
  }

  lemma RingPush<T>(s: seq<T>, head: nat, tail: nat, m: T)
    requires head < |s| && tail < |s| && (tail + 1) % |s| != head
    ensures (tail + 1) % |s| < |s|
    ensures Ring(s[tail := m], head, (tail + 1) % |s|) == Ring(s, head, tail) + [m]
  {
    Wrap(tail + 1, |s|);
    var t := s[tail := m];
    if tail + 1 == |s| {
      assert t[head..] + t[..0] == s[head..tail] + [m];
    } else if head <= tail {
      assert t[head..tail + 1] == s[head..tail] + [m];
    } else {
      assert t[head..] == s[head..] && t[..tail + 1] == s[..tail] + [m];
    }
  }

  lemma RingPop<T>(s: seq<T>, head: nat, tail: nat)
    requires head < |s| && tail < |s| && head != tail
    ensures (head + 1) % |s| < |s|
    ensures Ring(s, head, tail) == [s[head]] + Ring(s, (head + 1) % |s|, tail)
  {
    hide Ring;
    Wrap(head + 1, |s|);
    RingPopAt(s, head, tail, (head + 1) % |s|);
  }

  lemma RingPopAt<T>(s: seq<T>, head: nat, tail: nat, next: nat)
    requires head < |s| && tail < |s| && head != tail && next == if head + 1 < |s| then head + 1 else 0
    ensures Ring(s, head, tail) == [s[head]] + Ring(s, next, tail)
  {
    if next == 0 {
      assert s[head..] == [s[head]];
    } else if head < tail {
      assert s[head..tail] == [s[head]] + s[head + 1..tail];
    } else {
      assert s[head..] == [s[head]] + s[head + 1..];
    }
  }

  lemma FullRing<T>(s: seq<T>, head: nat, tail: nat)
    requires head < |s| && tail < |s| && (tail + 1) % |s| == head
    ensures |Ring(s, head, tail)| == |s| - 1
  {
    Wrap(tail + 1, |s|);
  }

  lemma FlatRing<T>(s: seq<T>, tail: nat, all: seq<T>)
    requires tail < |s| && |all| == tail && forall k :: 0 <= k < tail ==> s[k] == all[k]
    ensures Ring(s, 0, tail) == all
  {
  }

  class Queue<T(0)> {
    var size: nat
    var head: nat
    var tail: nat
    var data: array<T>

    constructor ()
      ensures Valid() && fresh(data) && Contents() == []
    {
      size, head, tail := DEFAULT_QUEUE_SIZE, 0, 0;
      data := new T[DEFAULT_QUEUE_SIZE];
    }

    ghost predicate Valid()
      reads this
    {
      0 < size == data.Length && head < size && tail < size
    }

    /** The queued messages, oldest first. */
    ghost function Contents(): (s: seq<T>)
      requires Valid()
      reads this, data
      ensures s == [] <==> head == tail
    {
      Ring(data[..], head, tail)
    }

    /** Unwraps the full buffer into one of twice the size. */
    method Grow()
      requires Valid() && (tail + 1) % size == head
      modifies this
      ensures Valid() && fresh(data) && size == 2 * old(size) && head == 0 && tail == old(size) - 1
      ensures Contents() == old(Contents())
    {
      hide Ring;
      Wrap(tail + 1, size);
      ghost var all := Contents();
      FullRing(data[..], head, tail);
      var bigger := new T[size * 2];
      var i := 0;
      while i < size - 1
        invariant 0 <= i <= size - 1
        invariant forall k :: 0 <= k < i ==> bigger[k] == all[k]
        modifies bigger
      {
        Wrap(i + head, size);
        RingAt(data[..], head, tail, i);
        bigger[i] := data[(i + head) % size];
        i := i + 1;
      }
      FlatRing(bigger[..], size - 1, all);
      data := bigger;
      head, tail := 0, size - 1;
      size := size * 2;
    }

    method Push(m: T)
      requires Valid()
      modifies this, data
      ensures Valid() && (data == old(data) || fresh(data))
      ensures Contents() == old(Contents()) + [m]
    {
      if (tail + 1) % size == head {
        Grow();
        Wrap(tail + 1, size);
      }
      ghost var before := data[..];
      RingPush(before, head, tail, m);
      data[tail] := m;
      assert data[..] == before[tail := m];
      tail := (tail + 1) % size;
    }

    method Pop() returns (m: Option<T>)
      requires Valid()
      modifies this`head
      ensures Valid()
      ensures old(Contents()) == [] ==> m == None && Contents() == []
      ensures old(Contents()) != [] ==> m == Some(old(Contents())[0]) && Contents() == old(Contents())[1..]
    {
      if head == tail { return None; }
      RingPop(data[..], head, tail);
      m := Some(data[head]);
      head := (head + 1) % size;
      hide Ring;
    }
  }

  datatype Op<T> = Enqueue(m: T) | Dequeue

  /** What is queued after a run, on a plain sequence. */
  function After<T>(ops: seq<Op<T>>): seq<T> {
    if |ops| == 0 then []
    else
      var s := After(ops[..|ops| - 1]);
      match ops[|ops| - 1]
      case Enqueue(m) => s + [m]
      case Dequeue => if s == [] then [] else s[1..]
  }

  /** What operation k of a run returns, on a plain sequence. */
  function Popped<T>(ops: seq<Op<T>>, k: nat): Option<T>
    requires k < |ops|
  {
    var s := After(ops[..k]);
    if ops[k].Enqueue? || s == [] then None else Some(s[0])
  }

  lemma AfterNext<T>(ops: seq<Op<T>>, k: nat)
    requires k < |ops|
    ensures
      var s := After(ops[..k]);
      After(ops[..k + 1]) == match ops[k]
                             case Enqueue(m) => s + [m]
                             case Dequeue => if s == [] then [] else s[1..]
  {
    assert ops[..k + 1][..k] == ops[..k];
  }

  /** Any run of the circular buffer, through any number of doublings with the head
      anywhere, pops what an unbounded FIFO pops. */
  method RunQueue<T(0)>(ops: seq<Op<T>>) returns (popped: seq<Option<T>>)
    ensures |popped| == |ops| && forall k :: 0 <= k < |ops| ==> popped[k] == Popped(ops, k)
  {
    hide Ring;
    var q := new Queue<T>();
    popped := [];
    var k := 0;
    while k < |ops|
      invariant k == |popped| <= |ops|
      invariant q.Valid() && fresh(q) && fresh(q.data) && q.Contents() == After(ops[..k])
      invariant forall i :: 0 <= i < k ==> popped[i] == Popped(ops, i)
    {
      AfterNext(ops, k);
      hide After;
      var m: Option<T> := None;
      match ops[k] {
        case Enqueue(x) => q.Push(x);
        case Dequeue => m := q.Pop();
      }
      popped := popped + [m];
      k := k + 1;
    }
  }
}
