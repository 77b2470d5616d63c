/** How the nodes of the message pool are shared out between the free list and the
    chunk lists of all connections: reading or clearing gives the front chunks back in reverse
    order, pushing takes the first free node or the first of a new block. */
module PoolShares {
  import opened Seqs

  datatype Shares<N> = Shares(free: seq<N>, lists: seq<seq<N>>)

  datatype PoolOp<N> =
    | GiveBack(i: nat, k: nat)           // the first k chunks of connection i
    | Take(i: nat)                       // the first free node to connection i
    | TakeNew(i: nat, block: seq<N>)     // the first node of a new block, the rest is free

  predicate Possible<N(==)>(s: Shares<N>, op: PoolOp<N>) {
    && op.i < |s.lists|
    && match op
       case GiveBack(i, k) => k <= |s.lists[i]|
       case Take(i) => s.free != []
       case TakeNew(i, block) => s.free == [] && block != []
  }

  function Apply<N(==)>(s: Shares<N>, op: PoolOp<N>): Shares<N>
    requires Possible(s, op)
  {
    var list := s.lists[op.i];
    match op
    case GiveBack(i, k) => Shares(Reverse(list[..k]) + s.free, s.lists[i := list[k..]])
    case Take(i) => Shares(s.free[1..], s.lists[i := list + [s.free[0]]])
    case TakeNew(i, block) => Shares(block[1..], s.lists[i := list + [block[0]]])
  }

  // ---------------------------------------------------------------- counting places

  function Count<N(==)>(n: N, s: seq<N>): nat {
    if s == [] then 0 else (if s[0] == n then 1 else 0) + Count(n, s[1..])
  }

  function CountIn<N(==)>(n: N, lists: seq<seq<N>>): nat
    decreases |lists|
  {
    if lists == [] then 0 else Count(n, lists[0]) + CountIn(n, lists[1..])
  }

  /** In how many places node n is. */
  function Places<N(==)>(n: N, s: Shares<N>): nat { Count(n, s.free) + CountIn(n, s.lists) }

  /** How often n is in the block that an operation allocates. */
  function Allocated<N(==)>(n: N, op: PoolOp<N>): nat {
    if op.TakeNew? then Count(n, op.block) else 0
  }

  lemma {:induction false} CountAppend<N>(n: N, a: seq<N>, b: seq<N>)
    ensures Count(n, a + b) == Count(n, a) + Count(n, b)
  {
    if a == [] {
      assert a + b == b;
    } else {
      CountAppend(n, a[1..], b);
      assert (a + b)[1..] == a[1..] + b;
    }
  }

  /** A sequence without repetition counts its members once. */
  lemma {:induction false} CountDistinct<N>(n: N, s: seq<N>)
    requires forall i, j :: 0 <= i < j < |s| ==> s[i] != s[j]
    ensures Count(n, s) == if n in s then 1 else 0
  {
    if s != [] {
      CountDistinct(n, s[1..]);
      assert s == [s[0]] + s[1..];
      assert forall k :: 0 <= k < |s[1..]| ==> s[1..][k] == s[k + 1];
    }
  }

  lemma {:induction false} CountReverse<N>(n: N, s: seq<N>)
    ensures Count(n, Reverse(s)) == Count(n, s)
  {
    if s != [] {
      CountReverse(n, s[1..]);
      CountAppend(n, Reverse(s[1..]), [s[0]]);
    }
  }

  lemma {:induction false} CountInUpdate<N>(n: N, lists: seq<seq<N>>, i: nat, list: seq<N>)
    requires i < |lists|
    ensures CountIn(n, lists[i := list]) + Count(n, lists[i]) == CountIn(n, lists) + Count(n, list)
    decreases |lists|
  {
    var next := lists[i := list];
    if i == 0 {
      assert next[1..] == lists[1..];
    } else {
      CountInUpdate(n, lists[1..], i - 1, list);
      assert next[1..] == lists[1..][i - 1 := list];
    }
  }

  /** An operation moves nodes between places; only a new block adds places. */
  lemma PlacesStep<N>(n: N, s: Shares<N>, op: PoolOp<N>)
    requires Possible(s, op)
    ensures Places(n, Apply(s, op)) == Places(n, s) + Allocated(n, op)
  {
    var list := s.lists[op.i];
    match op
    case GiveBack(i, k) =>
      CountReverse(n, list[..k]);
      CountAppend(n, Reverse(list[..k]), s.free);
      CountAppend(n, list[..k], list[k..]);
      CountInUpdate(n, s.lists, i, list[k..]);
      assert list == list[..k] + list[k..];
    case Take(i) =>
      CountAppend(n, list, [s.free[0]]);
      CountInUpdate(n, s.lists, i, list + [s.free[0]]);
    case TakeNew(i, block) =>
      CountAppend(n, list, [block[0]]);
      CountInUpdate(n, s.lists, i, list + [block[0]]);
  }

  // ---------------------------------------------------------------- whole runs

  ghost predicate PossibleRun<N>(s: Shares<N>, ops: seq<PoolOp<N>>)
    decreases |ops|
  {
    ops == [] || (Possible(s, ops[0]) && PossibleRun(Apply(s, ops[0]), ops[1..]))
  }

  ghost function ApplyAll<N>(s: Shares<N>, ops: seq<PoolOp<N>>): Shares<N>
    requires PossibleRun(s, ops)
    decreases |ops|
  {
    if ops == [] then s else ApplyAll(Apply(s, ops[0]), ops[1..])
  }

  lemma {:induction false} RunSnoc<N>(s: Shares<N>, ops: seq<PoolOp<N>>, op: PoolOp<N>)
    requires PossibleRun(s, ops) && Possible(ApplyAll(s, ops), op)
    ensures PossibleRun(s, ops + [op]) && ApplyAll(s, ops + [op]) == Apply(ApplyAll(s, ops), op)
    decreases |ops|
  {
    if ops == [] {
      assert ops + [op] == [op] && [op][1..] == [];
    } else {
      assert (ops + [op])[0] == ops[0] && (ops + [op])[1..] == ops[1..] + [op];
      RunSnoc(Apply(s, ops[0]), ops[1..], op);
    }
  }

  lemma {:induction false} AllocatedSnoc<N>(n: N, ops: seq<PoolOp<N>>, op: PoolOp<N>)
    ensures TimesAllocated(n, ops + [op]) == TimesAllocated(n, ops) + Allocated(n, op)
    decreases |ops|
  {
    if ops == [] {
      assert ops + [op] == [op] && [op][1..] == [];
    } else {
      assert (ops + [op])[0] == ops[0] && (ops + [op])[1..] == ops[1..] + [op];
      AllocatedSnoc(n, ops[1..], op);
    }
  }

  function TimesAllocated<N(==)>(n: N, ops: seq<PoolOp<N>>): nat
    decreases |ops|
  {
    if ops == [] then 0 else Allocated(n, ops[0]) + TimesAllocated(n, ops[1..])
  }

  lemma {:induction false} PlacesOverARun<N>(n: N, s: Shares<N>, ops: seq<PoolOp<N>>)
    requires PossibleRun(s, ops)
    ensures Places(n, ApplyAll(s, ops)) == Places(n, s) + TimesAllocated(n, ops)
    decreases |ops|
  {
    if ops != [] {
      PlacesStep(n, s, ops[0]);
      PlacesOverARun(n, Apply(s, ops[0]), ops[1..]);
    }
  }

  /** The pool is partitioned in every run, over any mix of pushes, reads and clears on
      any connections: a node that was allocated once is in exactly one place, a node
      that was not is in none. */
  lemma PoolIsPartitioned<N>(n: N, connections: nat, ops: seq<PoolOp<N>>)
    requires PossibleRun(Empty(connections), ops)
    ensures Places(n, ApplyAll(Empty(connections), ops)) == TimesAllocated(n, ops)
  {
    PlacesOverARun(n, Empty(connections), ops);
    NothingListed(n, connections);
  }

  function Empty<N>(connections: nat): Shares<N> { Shares([], Blank(connections)) }

  function Blank<N>(connections: nat): seq<seq<N>> {
    if connections == 0 then [] else [[]] + Blank(connections - 1)
  }

  lemma {:induction false} NothingListed<N>(n: N, connections: nat)
    ensures CountIn(n, Blank(connections)) == 0
  {
    if connections > 0 { NothingListed(n, connections - 1); }
  }
}
