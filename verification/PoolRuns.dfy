/** Runs of real buffers that share one pool: after any calls the free list and the chunk lists
    are what the share-out says, so every node of every block is in exactly one of them. */
module PoolRuns {
  import opened Basics
  import opened GateFraming
  import opened DataBuffer
  import opened PoolShares
  import Seqs

  datatype Call =
    | PushTo(i: nat, data: seq<byte>)
    | ReadFrom(i: nat, sz: nat)
    | HeaderOf(i: nat, hs: int)
    | ClearOf(i: nat)

  /** The share-out s is that of the pool and the buffers. */
  ghost predicate Shows(mp: MessagePool, bufs: seq<Buffer>, s: Shares<Message>)
    reads mp, bufs
  {
    && s.free == mp.free && |s.lists| == |bufs|
    && forall k :: 0 <= k < |bufs| ==> s.lists[k] == bufs[k].chunks
  }

  // ---------------------------------------------------------------- what the calls do to the bytes

  /** What one call does to the header and the bytes of its connection. */
  function PlainNext(f: Framing, c: Call): Framing {
    match c
    case PushTo(_, data) => Framing(f.header, f.bytes + data)
    case ReadFrom(_, sz) => if 0 < sz <= |f.bytes| then Framing(f.header, f.bytes[sz..]) else f
    case HeaderOf(_, hs) => if HeaderSize(hs) then GateFraming.ReadHeader(f, hs).0 else f
    case ClearOf(_) => Framing(0, [])
  }

  /** Header and bytes of connection j after the calls. */
  function Plain(calls: seq<Call>, j: nat): Framing {
    if |calls| == 0 then Framing(0, [])
    else
      var f, c := Plain(calls[..|calls| - 1], j), calls[|calls| - 1];
      if c.i == j then PlainNext(f, c) else f
  }

  /** The buffers hold what the calls left in them. */
  ghost predicate Holds(bufs: seq<Buffer>, calls: seq<Call>)
    reads bufs
  {
    forall j :: 0 <= j < |bufs| ==> Framing(bufs[j].header, bufs[j].Bytes()) == Plain(calls, j)
  }

  ghost predicate Distinct(bufs: seq<Buffer>) {
    forall j, k :: 0 <= j < k < |bufs| ==> bufs[j] != bufs[k]
  }

  /** The other buffers keep their nodes to themselves. */
  lemma OthersKeep(mp: MessagePool, bufs: seq<Buffer>, i: nat)
    requires Distinct(bufs) && i < |bufs| && mp.Valid() && forall k :: 0 <= k < |bufs| ==> bufs[k].Valid()
    ensures forall k, x :: 0 <= k < |bufs| && k != i && x in bufs[k].chunks ==> x !in bufs[i].chunks && x !in mp.free
  {
    forall k, x | 0 <= k < |bufs| && k != i && x in bufs[k].chunks
      ensures x !in bufs[i].chunks && x !in mp.free
    {
      assert bufs[k] != bufs[i];
      OthersApart(bufs[i], mp, bufs[k]);
    }
  }

  /** A push takes the first free node, or the first of a new block of fresh nodes. */
  method PushOne(mp: MessagePool, bufs: seq<Buffer>, i: nat, data: seq<byte>, ghost s: Shares<Message>)
    returns (ghost op: PoolOp<Message>)
    requires Distinct(bufs) && i < |bufs| && mp.Valid() && Shows(mp, bufs, s)
    requires forall k :: 0 <= k < |bufs| ==> bufs[k].Valid()
    modifies mp, bufs[i], bufs[i].chunks, mp.free
    ensures mp.Valid() && forall k :: 0 <= k < |bufs| ==> bufs[k].Valid()
    ensures Possible(s, op) && Shows(mp, bufs, Apply(s, op))
    ensures op.TakeNew? ==> NewBlock(op.block) && forall x :: x in op.block ==> fresh(x)
    ensures bufs[i].header == old(bufs[i].header) && bufs[i].Bytes() == old(bufs[i].Bytes()) + data
  {
    hide Linked, BytesFrom, NewBlock;
    OthersKeep(mp, bufs, i);
    ghost var m := bufs[i].Push(mp, data);
    if s.free != [] {
      op := Take(i);
    } else {
      op := TakeNew(i, [m] + mp.free);
      BlockIsDistinct(mp, bufs[i], m);
    }
  }

  /** The nodes of a block differ from one another. */
  ghost predicate NewBlock(block: seq<Message>) {
    |block| == MESSAGEPOOL && forall j, k :: 0 <= j < k < |block| ==> block[j] != block[k]
  }

  lemma BlockIsDistinct(mp: MessagePool, c: Buffer, m: Message)
    requires mp.Valid() && c.Valid() && |mp.free| == MESSAGEPOOL - 1 && m in c.chunks
    ensures NewBlock([m] + mp.free)
  {
    var block := [m] + mp.free;
    forall j, k | 0 <= j < k < |block|
      ensures block[j] != block[k]
    {
      assert block[k] == mp.free[k - 1];
      if j > 0 { assert block[j] == mp.free[j - 1]; }
    }
  }

  /** Everything but a push gives the front chunks of one buffer back, in reverse order. */
  method TakeOne(mp: MessagePool, bufs: seq<Buffer>, c: Call, ghost s: Shares<Message>)
    returns (ghost op: PoolOp<Message>)
    requires Distinct(bufs) && c.i < |bufs| && mp.Valid() && Shows(mp, bufs, s) && !c.PushTo?
    requires forall k :: 0 <= k < |bufs| ==> bufs[k].Valid()
    modifies mp, bufs[c.i], bufs[c.i].chunks
    ensures mp.Valid() && forall k :: 0 <= k < |bufs| ==> bufs[k].Valid()
    ensures Possible(s, op) && Shows(mp, bufs, Apply(s, op)) && op.GiveBack?
    ensures Framing(bufs[c.i].header, bufs[c.i].Bytes())
         == PlainNext(Framing(old(bufs[c.i].header), old(bufs[c.i].Bytes())), c)
  {
    hide Linked, Seqs.Reverse, BytesFrom;
    OthersKeep(mp, bufs, c.i);
    ghost var k: nat := 0;
    k := GiveFront(mp, bufs[c.i], c);
    op := GiveBack(c.i, k);
    assert s.lists[c.i][..k] == s.lists[c.i][..k];
  }

  method GiveFront(mp: MessagePool, b: Buffer, c: Call) returns (ghost k: nat)
    requires b.Valid() && mp.Valid() && !c.PushTo?
    modifies mp, b, b.chunks
    ensures b.Valid() && mp.Valid() && k <= |old(b.chunks)|
    ensures b.chunks == old(b.chunks)[k..] && mp.free == Seqs.Reverse(old(b.chunks)[..k]) + old(mp.free)
    ensures Framing(b.header, b.Bytes()) == PlainNext(Framing(old(b.header), old(b.Bytes())), c)
  {
    hide Linked, Seqs.Reverse, BytesFrom, DecodeLength;
    k := 0;
    NothingGiven(b.chunks, mp.free);
    if c.ReadFrom? && 0 < c.sz <= b.size {
      var out;
      out, k := b.Read(mp, c.sz);
      assert old(b.Bytes())[c.sz..] == b.Bytes();
    } else if c.HeaderOf? && HeaderSize(c.hs) {
      var r;
      r, k := b.ReadHeader(mp, c.hs);
    } else if c.ClearOf? {
      k := |b.chunks|;
      AllGiven(b.chunks);
      b.Clear(mp);
    }
  }

  lemma NothingGiven(chunks: seq<Message>, free: seq<Message>)
    ensures chunks == chunks[0..] && free == Seqs.Reverse(chunks[..0]) + free
  {
    assert Seqs.Reverse(chunks[..0]) == [];
  }

  lemma AllGiven(chunks: seq<Message>)
    ensures chunks[|chunks|..] == [] && chunks[..|chunks|] == chunks
  {
  }

  /** Every node on a list is one of those given. */
  ghost predicate Within(mp: MessagePool, bufs: seq<Buffer>, given: set<Message>)
    reads mp, bufs
  {
    && (forall x :: x in mp.free ==> x in given)
    && forall j, x :: 0 <= j < |bufs| && x in bufs[j].chunks ==> x in given
  }

  /** After an operation the lists hold what they held before, and the nodes of a new block. */
  lemma StaysWithin(mp: MessagePool, bufs: seq<Buffer>, s: Shares<Message>, op: PoolOp<Message>, given: set<Message>)
    requires forall x :: x in s.free ==> x in given
    requires forall j, x :: 0 <= j < |s.lists| && x in s.lists[j] ==> x in given
    requires Possible(s, op) && Shows(mp, bufs, Apply(s, op))
    ensures Within(mp, bufs, given + BlockOf(op))
  {
    var after := Apply(s, op);
    if op.GiveBack? {
      Seqs.ReverseMembers<Message>();
    }
    forall j, x | 0 <= j < |bufs| && x in bufs[j].chunks
      ensures x in given + BlockOf(op)
    {
      assert x in after.lists[j];
    }
  }

  /** One call. Calls on a buffer there is not are skipped. */
  method RunOne(mp: MessagePool, bufs: seq<Buffer>, c: Call,
                ghost s: Shares<Message>, ghost given: set<Message>, ghost past: seq<Call>)
    returns (ghost op: PoolOp<Message>)
    requires Distinct(bufs) && c.i < |bufs| && mp.Valid() && Shows(mp, bufs, s) && Within(mp, bufs, given)
    requires Holds(bufs, past) && forall k :: 0 <= k < |bufs| ==> bufs[k].Valid()
    modifies mp, bufs[c.i], given
    ensures mp.Valid() && forall k :: 0 <= k < |bufs| ==> bufs[k].Valid()
    ensures Possible(s, op) && Shows(mp, bufs, Apply(s, op)) && Within(mp, bufs, given + BlockOf(op))
    ensures (op.TakeNew? ==> NewBlock(op.block)) && BlockOf(op) !! given
    ensures forall x :: x in BlockOf(op) ==> fresh(x)
    ensures Holds(bufs, past + [c])
  {
    hide Linked, BytesFrom, Apply, Possible, NewBlock, GateFraming.ReadHeader, Plain;
    CallsNext(past, c);
    assert forall x :: x in s.free ==> x in given;
    assert forall j, x :: 0 <= j < |s.lists| && x in s.lists[j] ==> x in given;
    if c.PushTo? {
      op := PushOne(mp, bufs, c.i, c.data, s);
    } else {
      op := TakeOne(mp, bufs, c, s);
    }
    StaysWithin(mp, bufs, s, op, given);
  }

  /** Any calls on fresh buffers that share a fresh pool: every connection holds the bytes that its
      calls left, and free list and chunk lists are what the share-out says. Each node of a block
      allocated on the way is on exactly one of them, once, and no other node is on any. */
  method RunPool(connections: nat, calls: seq<Call>)
    returns (mp: MessagePool, bufs: seq<Buffer>, ghost ops: seq<PoolOp<Message>>)
    ensures |bufs| == connections && Distinct(bufs) && mp.Valid() && forall k :: 0 <= k < |bufs| ==> bufs[k].Valid()
    ensures Holds(bufs, calls)
    ensures PossibleRun(Empty(connections), ops) && Shows(mp, bufs, ApplyAll(Empty(connections), ops))
    ensures
      forall n: Message {:trigger n in Given(ops)} ::
        Places(n, ApplyAll(Empty(connections), ops)) == if n in Given(ops) then 1 else 0
  {
    hide Places, Apply, Possible, PossibleRun, ApplyAll, Linked, BytesFrom, Shows, Within, Distinct, NewBlock, BlockOf;
    hide Given, Separate, Plain, PlainNext, Holds, Buffer.Valid, MessagePool.Valid;
    mp := new MessagePool();
    bufs := NewBuffers(connections);
    ops := [];
    ghost var start: Shares<Message> := Empty(connections);
    ghost var s := start;
    StartShows(mp, bufs, connections);
    NoOps(start);
    NoCalls(bufs);
    assert calls[..0] == [];
    var k := 0;
    while k < |calls|
      invariant fresh(mp) && mp.Valid() && |bufs| == connections && Distinct(bufs)
      invariant forall j :: 0 <= j < |bufs| ==> fresh(bufs[j]) && bufs[j].Valid()
      invariant forall x :: x in Given(ops) ==> fresh(x)
      invariant Within(mp, bufs, Given(ops)) && Shows(mp, bufs, s)
      invariant k <= |calls| && Holds(bufs, calls[..k])
      invariant PossibleRun(start, ops) && s == ApplyAll(start, ops) && Separate(ops)
    {
      var c := calls[k];
      assert calls[..k + 1] == calls[..k] + [c];
      if c.i < connections {
        ghost var op;
        op := RunOne(mp, bufs, c, s, Given(ops), calls[..k]);
        RunSnoc(start, ops, op);
        GivenSnoc(ops, op);
        s, ops := Apply(s, op), ops + [op];
      } else {
        Skipped(bufs, calls[..k], c);
      }
      k := k + 1;
    }
    assert calls[..k] == calls;
    forall n: Message
      ensures Places(n, ApplyAll(start, ops)) == if n in Given(ops) then 1 else 0
    {
      EachOnce(n, connections, ops);
    }
  }

  lemma NoCalls(bufs: seq<Buffer>)
    requires forall j :: 0 <= j < |bufs| ==> bufs[j].header == 0 && bufs[j].Bytes() == []
    ensures Holds(bufs, [])
  {
  }

  lemma CallsNext(calls: seq<Call>, c: Call)
    ensures
      forall j: nat {:trigger Plain(calls + [c], j)} ::
        Plain(calls + [c], j) == if c.i == j then PlainNext(Plain(calls, j), c) else Plain(calls, j)
  {
    assert (calls + [c])[..|calls|] == calls;
  }

  lemma Skipped(bufs: seq<Buffer>, calls: seq<Call>, c: Call)
    requires Holds(bufs, calls) && c.i >= |bufs|
    ensures Holds(bufs, calls + [c])
  {
    CallsNext(calls, c);
  }

  ghost predicate Unused(b: Buffer)
    reads b, b.chunks
  {
    b.Valid() && b.chunks == [] && b.header == 0 && b.Bytes() == []
  }

  method NewBuffers(connections: nat) returns (bufs: seq<Buffer>)
    ensures |bufs| == connections && Distinct(bufs)
    ensures forall j :: 0 <= j < |bufs| ==> fresh(bufs[j]) && Unused(bufs[j])
  {
    hide Linked, BytesFrom;
    bufs := [];
    while |bufs| < connections
      invariant |bufs| <= connections && Distinct(bufs)
      invariant forall j :: 0 <= j < |bufs| ==> fresh(bufs[j]) && Unused(bufs[j])
    {
      var b := new Buffer();
      bufs := bufs + [b];
    }
  }

  lemma StartShows(mp: MessagePool, bufs: seq<Buffer>, connections: nat)
    requires mp.free == [] && |bufs| == connections && forall j :: 0 <= j < |bufs| ==> bufs[j].chunks == []
    ensures Shows(mp, bufs, Empty(connections)) && Within(mp, bufs, {})
  {
    BlankIsBlank<Message>(connections);
  }

  lemma {:induction false} BlankIsBlank<N>(connections: nat)
    ensures |Blank<N>(connections)| == connections
    ensures forall j :: 0 <= j < connections ==> Blank<N>(connections)[j] == []
  {
    if connections > 0 { BlankIsBlank<N>(connections - 1); }
  }

  ghost function BlockOf(op: PoolOp<Message>): set<Message> {
    if op.TakeNew? then set x | x in op.block else {}
  }

  /** The nodes of all blocks that the operations allocate. */
  ghost function Given(ops: seq<PoolOp<Message>>): set<Message> {
    if |ops| == 0 then {} else Given(ops[..|ops| - 1]) + BlockOf(ops[|ops| - 1])
  }

  /** Every block is of new nodes. */
  ghost predicate Separate(ops: seq<PoolOp<Message>>) {
    |ops| == 0
    || var front, op := ops[..|ops| - 1], ops[|ops| - 1];
       Separate(front) && BlockOf(op) !! Given(front) && (op.TakeNew? ==> NewBlock(op.block))
  }

  lemma NoOps(s: Shares<Message>)
    ensures PossibleRun(s, []) && ApplyAll(s, []) == s && Separate([]) && Given([]) == {}
  {
  }

  lemma GivenSnoc(ops: seq<PoolOp<Message>>, op: PoolOp<Message>)
    requires Separate(ops) && BlockOf(op) !! Given(ops) && (op.TakeNew? ==> NewBlock(op.block))
    ensures Separate(ops + [op]) && Given(ops + [op]) == Given(ops) + BlockOf(op)
  {
    assert (ops + [op])[..|ops|] == ops;
  }

  lemma {:induction false} GivenOnce(n: Message, ops: seq<PoolOp<Message>>)
    requires Separate(ops)
    ensures TimesAllocated(n, ops) == if n in Given(ops) then 1 else 0
  {
    hide TimesAllocated, Count;
    if |ops| == 0 {
      NoneAllocated(n);
    } else {
      var front, op := ops[..|ops| - 1], ops[|ops| - 1];
      assert ops == front + [op];
      GivenOnce(n, front);
      AllocatedSnoc(n, front, op);
      if op.TakeNew? { CountDistinct(n, op.block); }
    }
  }

  lemma NoneAllocated(n: Message)
    ensures TimesAllocated(n, []) == 0
  {
  }

  lemma EachOnce(n: Message, connections: nat, ops: seq<PoolOp<Message>>)
    requires PossibleRun(Empty(connections), ops) && Separate(ops)
    ensures Places(n, ApplyAll(Empty(connections), ops)) == if n in Given(ops) then 1 else 0
  {
    GivenOnce(n, ops);
    PoolIsPartitioned(n, connections, ops);
  }
}
