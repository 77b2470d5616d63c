/** The gate's stream buffers: linked chunks taken from a pool that all connections
    share. A node is either on the pool's free list or in one connection's chunk list. */
module DataBuffer {
  import opened Basics
  import opened GateFraming
  import Seqs

  const MESSAGEPOOL := 1023

  class Message {
    var buffer: seq<byte>
    var next: Message?
    ghost var owner: object?  // the pool or the connection buffer whose list holds the node
    ghost var place: int      // its place in that list, which makes list nodes distinct

    constructor ()
      ensures buffer == [] && next == null
    {
      buffer := [];
      next := null;
      owner, place := null, 0;
    }
  }

  /** From s[0] on, following `next` visits exactly s and ends. */
  ghost predicate Linked(s: seq<Message>)
    reads s
  {
    (s != [] ==> s[|s| - 1].next == null) && forall i :: 0 <= i < |s| - 1 ==> s[i].next == s[i + 1]
  }

  ghost function First(s: seq<Message>): Message? { if s == [] then null else s[0] }
  ghost function Last(s: seq<Message>): Message? { if s == [] then null else s[|s| - 1] }

  /** The bytes of a list of chunks from an offset into the first one on. */
  ghost function BytesFrom(datas: seq<seq<byte>>, offset: nat): seq<byte> {
    if datas == [] || offset > |datas[0]| then [] else datas[0][offset..] + Seqs.Flatten(datas[1..])
  }

  lemma BytesAdvance(datas: seq<seq<byte>>, offset: nat, n: nat)
    requires datas != [] && offset + n <= |datas[0]|
    ensures BytesFrom(datas, offset) == datas[0][offset..offset + n] + BytesFrom(datas, offset + n)
  {
    var d, rest := datas[0], Seqs.Flatten(datas[1..]);
    assert d[offset..] == d[offset..offset + n] + d[offset + n..];
    Seqs.Assoc(d[offset..offset + n], d[offset + n..], rest);
  }

  lemma BytesNext(datas: seq<seq<byte>>, offset: nat)
    requires datas != [] && offset <= |datas[0]|
    ensures BytesFrom(datas, offset) == datas[0][offset..] + BytesFrom(datas[1..], 0)
  {
    var rest := datas[1..];
    if rest != [] { assert rest[0][0..] == rest[0]; }
  }

  lemma BytesSnoc(datas: seq<seq<byte>>, offset: nat, data: seq<byte>)
    requires offset <= if datas == [] then 0 else |datas[0]|
    ensures BytesFrom(datas + [data], offset) == BytesFrom(datas, offset) + data
  {
    if datas == [] {
      assert data[0..] == data && Seqs.Flatten(([] + [data])[1..]) == [];
    } else {
      assert (datas + [data])[1..] == datas[1..] + [data];
      Seqs.FlattenAppend(datas[1..], [data]);
      assert Seqs.Flatten([data]) == data;
      Seqs.Assoc(datas[0][offset..], Seqs.Flatten(datas[1..]), data);
    }
  }

  class MessagePool {
    var freelist: Message?
    ghost var free: seq<Message>

    constructor ()
      ensures Valid() && free == []
    {
      freelist, free := null, [];
    }

    ghost predicate Valid()
      reads this, free
    {
      && freelist == First(free) && Linked(free)
      && forall i :: 0 <= i < |free| ==> free[i].owner == this && free[i].place == |free| - i
    }

    method AllocateBlock() returns (temp: seq<Message>)
      ensures |temp| == MESSAGEPOOL
      ensures forall i :: 0 <= i < |temp| ==>
                fresh(temp[i]) && temp[i].next == null && temp[i].owner == this && temp[i].place == MESSAGEPOOL - i
    {
      temp := [];
      while |temp| < MESSAGEPOOL
        invariant |temp| <= MESSAGEPOOL
        invariant forall i :: 0 <= i < |temp| ==>
                    fresh(temp[i]) && temp[i].next == null && temp[i].owner == this && temp[i].place == MESSAGEPOOL - i
      {
        var x := new Message();
        x.owner, x.place := this, MESSAGEPOOL - |temp|;
        temp := temp + [x];
      }
    }

    /** A new block of nodes, chained from the second on; the first is for the caller. */
    method NewBlock() returns (m: Message)
      requires freelist == null
      modifies this
      ensures Valid() && fresh(m) && m.owner == this && m !in free
      ensures |free| == MESSAGEPOOL - 1 && forall i :: 0 <= i < |free| ==> fresh(free[i])
    {
      var temp := AllocateBlock();
      var i := 1;
      while i < MESSAGEPOOL - 1
        invariant 1 <= i <= MESSAGEPOOL - 1
        invariant forall j :: 0 <= j < MESSAGEPOOL ==> temp[j].owner == this && temp[j].place == MESSAGEPOOL - j
        invariant forall j :: 1 <= j < i ==> temp[j].next == temp[j + 1]
        invariant forall j :: i <= j < MESSAGEPOOL ==> temp[j].next == null
        modifies set x | x in temp
      {
        temp[i].next := temp[i + 1];
        i := i + 1;
      }
      m := temp[0];
      freelist, free := temp[1], temp[1..];
    }

    /** A node that is on no list goes to the front of the free list. */
    method GiveBack(m: Message)
      requires Valid() && m.owner != this
      modifies this, m
      ensures Valid() && free == [m] + old(free)
    {
      m.buffer := [];
      m.next := freelist;
      freelist := m;
      free := [m] + free;
      m.owner, m.place := this, |free|;
    }

    method TakeNode() returns (m: Message)
      requires Valid()
      modifies this
      ensures Valid() && m !in free && m.owner == this
      ensures old(free) != [] ==> m == old(free)[0] && free == old(free)[1..]
      ensures old(free) == [] ==> fresh(m) && |free| == MESSAGEPOOL - 1
      ensures old(free) == [] ==> forall i :: 0 <= i < |free| ==> fresh(free[i])
    {
      if freelist != null {
        m := freelist;
        freelist := m.next;
        free := free[1..];
      } else {
        m := NewBlock();
      }
    }
  }

  class Buffer {
    var header: int
    var offset: nat
    var size: int
    var head: Message?
    var tail: Message?
    ghost var chunks: seq<Message>
    ghost var datas: seq<seq<byte>>  // the contents of the chunks
    ghost var base: int

    constructor ()
      ensures Valid() && header == 0 && chunks == [] && Bytes() == []
    {
      header, offset, size, head, tail := 0, 0, 0, null, null;
      chunks, datas, base := [], [], 0;
    }

    ghost predicate Valid()
      reads this, chunks
    {
      Listed() && offset <= (if datas == [] then 0 else |datas[0]|) && size == |Bytes()|
    }

    ghost predicate Listed()
      reads this`head, this`tail, this`chunks, this`datas, this`base, chunks
    {
      && head == First(chunks) && tail == Last(chunks) && Linked(chunks) && |chunks| == |datas|
      && forall i :: 0 <= i < |chunks| ==>
           chunks[i].owner == this && chunks[i].place == base + i && chunks[i].buffer == datas[i]
    }

    /** The bytes received and not yet consumed. */
    ghost function Bytes(): seq<byte>
      reads this`datas, this`offset
    {
      BytesFrom(datas, offset)
    }

    method Unlink() returns (m: Message)
      requires Listed() && chunks != []
      modifies this
      ensures unchanged(`header, `offset, `size)
      ensures Listed() && m == old(chunks)[0] && chunks == old(chunks)[1..] && datas == old(datas)[1..]
    {
      m := head;
      if m.next == null {
        head, tail := null, null;
      } else {
        head := m.next;
      }
      chunks, datas, base := chunks[1..], datas[1..], base + 1;
    }

    /** _return_message: the head chunk goes to the front of the free list. */
    method ReturnMessage(mp: MessagePool)
      requires Listed() && mp.Valid() && chunks != []
      modifies this, mp, chunks[0]
      ensures unchanged(`header, `offset, `size)
      ensures Listed() && mp.Valid()
      ensures chunks == old(chunks)[1..] && datas == old(datas)[1..] && mp.free == [old(chunks)[0]] + old(mp.free)
    {
      var m := Unlink();
      assert forall i :: 0 <= i < |chunks| ==> chunks[i] != m;
      mp.GiveBack(m);
    }

    /** One turn of the loop in databuffer_read: copies what the head chunk has, up to
        need bytes, and gives the chunk back if that uses it up. */
    method ReadChunk(mp: MessagePool, need: nat) returns (piece: seq<byte>, whole: bool)
      requires Listed() && mp.Valid() && chunks != [] && offset <= |datas[0]| && need > 0
      modifies this, mp, chunks[0]
      ensures unchanged(`header, `size)
      ensures Listed() && mp.Valid() && |piece| <= need && old(Bytes()) == piece + Bytes()
      ensures offset <= if datas == [] then 0 else |datas[0]|
      ensures !whole ==> |piece| == need && chunks == old(chunks) && mp.free == old(mp.free)
      ensures whole ==> chunks == old(chunks)[1..] && mp.free == [old(chunks)[0]] + old(mp.free)
    {
      hide BytesFrom, Linked, Last, MessagePool.Valid;
      var current := head;
      assert current.buffer == datas[0];
      var bsz := |current.buffer| - offset;
      whole := bsz <= need;
      if whole {
        BytesNext(datas, offset);
        piece := current.buffer[offset..];
        ReturnMessage(mp);
        offset := 0;
      } else {
        BytesAdvance(datas, offset, need);
        piece := current.buffer[offset..offset + need];
        offset := offset + need;
      }
    }

    /** databuffer_read: the first sz bytes, copied chunk by chunk; the k chunks that were
        used up go back to the pool. */
    method Read(mp: MessagePool, sz: nat) returns (out: seq<byte>, ghost k: nat)
      requires Valid() && mp.Valid() && 0 < sz <= size
      modifies this, mp, chunks
      ensures Valid() && mp.Valid() && header == old(header)
      ensures |out| == sz && old(Bytes()) == out + Bytes()
      ensures k <= |old(chunks)| && chunks == old(chunks)[k..]
      ensures mp.free == Seqs.Reverse(old(chunks)[..k]) + old(mp.free)
    {
      hide Seqs.Reverse, Linked, First, Last, MessagePool.Valid;
      size := size - sz;
      out, k := [], 0;
      var need: nat := sz;
      ghost var orig, pool, all := chunks, mp.free, Bytes();
      ReversedNone();
      while need > 0
        invariant Listed() && mp.Valid() && offset <= if datas == [] then 0 else |datas[0]|
        invariant |out| + need == sz && all == out + Bytes()
        invariant k <= |orig| && chunks == orig[k..] && mp.free == Seqs.Reverse(orig[..k]) + pool
        invariant header == old(header) && size == old(size) - sz
        decreases |orig| - k, need
      {
        assert chunks != [];
        assert chunks[0] == orig[k];
        var piece, whole := ReadChunk(mp, need);
        if whole {
          NextChunk(orig, pool, k);
          k := k + 1;
        }
        Seqs.Assoc(out, piece, Bytes());
        out := out + piece;
        need := need - |piece|;
        assert Listed() && mp.Valid() && all == out + Bytes();
        assert chunks == orig[k..] && mp.free == Seqs.Reverse(orig[..k]) + pool;
      }
    }

    method Fill(m: Message, data: seq<byte>, ghost mp: MessagePool)
      requires Listed() && mp.Valid() && m !in chunks && m !in mp.free
      modifies m
      ensures Listed() && mp.Valid()
      ensures m.buffer == data && m.next == null && m.owner == this && m.place == base + |chunks|
    {
      m.buffer, m.next := data, null;
      m.owner, m.place := this, base + |chunks|;
    }

    /** Links a filled node behind the last chunk. */
    method Link(m: Message, ghost mp: MessagePool)
      requires Listed() && mp.Valid() && m.next == null && m.owner == this && m.place == base + |chunks|
      modifies this, chunks
      ensures Listed() && chunks == old(chunks) + [m] && datas == old(datas) + [m.buffer]
      ensures mp.Valid() && unchanged(`header, `offset, `size) && m.buffer == old(m.buffer)
    {
      if head == null {
        head, tail := m, m;
      } else {
        tail.next := m;
        tail := m;
      }
      chunks, datas := chunks + [m], datas + [m.buffer];
      assert mp.Valid();
    }

    method Append(m: Message, data: seq<byte>, ghost mp: MessagePool)
      requires Listed() && mp.Valid() && m !in chunks && m !in mp.free
      modifies this, m, chunks
      ensures Listed() && chunks == old(chunks) + [m] && datas == old(datas) + [data]
      ensures mp.Valid() && size == old(size) + |data| && unchanged(`header, `offset)
    {
      Fill(m, data, mp);
      Link(m, mp);
      size := size + |data|;
    }

    /** databuffer_push: data becomes the last chunk, on a node from the free list or the
        first of a new block. */
    method Push(mp: MessagePool, data: seq<byte>) returns (ghost m: Message)
      requires Valid() && mp.Valid()
      modifies this, mp, chunks, mp.free
      ensures Valid() && mp.Valid() && header == old(header)
      ensures Bytes() == old(Bytes()) + data
      ensures chunks == old(chunks) + [m]
      ensures old(mp.free) != [] ==> m == old(mp.free)[0] && mp.free == old(mp.free)[1..]
      ensures old(mp.free) == [] ==> fresh(m) && |mp.free| == MESSAGEPOOL - 1
      ensures old(mp.free) == [] ==> forall i :: 0 <= i < |mp.free| ==> fresh(mp.free[i])
    {
      hide BytesFrom, Linked, First, Last;
      BytesSnoc(datas, offset, data);
      var node := mp.TakeNode();
      m := node;
      assert forall i :: 0 <= i < |chunks| ==> chunks[i] != m;
      Append(node, data, mp);
    }

    /** databuffer_clear */
    method Clear(mp: MessagePool)
      requires Listed() && mp.Valid()
      modifies this, mp, chunks
      ensures Valid() && mp.Valid() && header == 0 && chunks == [] && Bytes() == []
      ensures mp.free == Seqs.Reverse(old(chunks)) + old(mp.free)
    {
      hide Seqs.Reverse, Linked, Last, BytesFrom, MessagePool.Valid;
      ghost var orig, pool, k := chunks, mp.free, 0;
      ReversedNone();
      while head != null
        invariant Listed() && mp.Valid()
        invariant k <= |orig| && chunks == orig[k..] && mp.free == Seqs.Reverse(orig[..k]) + pool
        decreases |orig| - k
      {
        assert chunks[0] == orig[k];
        ReturnMessage(mp);
        NextChunk(orig, pool, k);
        k := k + 1;
      }
      assert orig[..k] == orig;
      EmptyList();
      header, offset, size, head, tail := 0, 0, 0, null, null;
    }

    /** databuffer_readheader, against its specification on the framing state. */
    method ReadHeader(mp: MessagePool, hs: int) returns (r: int, ghost k: nat)
      requires Valid() && mp.Valid() && HeaderSize(hs)
      modifies this, mp, chunks
      ensures Valid() && mp.Valid()
      ensures (Framing(header, Bytes()), r) == GateFraming.ReadHeader(Framing(old(header), old(Bytes())), hs)
      ensures k <= |old(chunks)| && chunks == old(chunks)[k..]
      ensures mp.free == Seqs.Reverse(old(chunks)[..k]) + old(mp.free)
    {
      k := 0;
      ReversedNone();
      hide Listed, Seqs.Reverse, BytesFrom, DecodeLength;
      if header == 0 {
        if size < hs { return -1, 0; }
        ghost var all := Bytes();
        var plen;
        plen, k := Read(mp, hs);
        assert all[..hs] == plen && all[hs..] == Bytes();
        header := DecodeLength(plen);
      }
      r := if size < header then -1 else header;
    }
  }

  lemma NextChunk(s: seq<Message>, pool: seq<Message>, k: nat)
    requires k < |s|
    ensures s[k..][1..] == s[k + 1..] && [s[k]] + (Seqs.Reverse(s[..k]) + pool) == Seqs.Reverse(s[..k + 1]) + pool
  {
    Seqs.ReverseSnoc(s[..k], s[k]);
    assert s[..k + 1] == s[..k] + [s[k]];
  }

  lemma EmptyList()
    ensures Linked([]) && First([]) == null && Last([]) == null && BytesFrom([], 0) == []
  {
  }

  lemma ReversedNone()
    ensures Seqs.Reverse<Message>([]) == []
  {
  }

  /** No node of another connection is on this one's list or on the free list. */
  lemma OthersApart(c: Buffer, mp: MessagePool, other: Buffer)
    requires c.Valid() && mp.Valid() && other.Valid() && other != c
    ensures forall x :: x in other.chunks ==> x !in c.chunks && x !in mp.free
  {
  }
}
