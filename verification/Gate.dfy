/** The gate's dispatch loop over a connection's buffer, and the pool's share-out over
    all connections. */
module Gate {
  import opened Basics
  import opened GateFraming
  import opened DataBuffer
  import Seqs

  /** Where a connection's packets may go. The broker is the whole gate's, the agent the
      connection's own. */
  datatype Routes = Routes(fd: int, broker: bool, agent: bool, watchdog: bool)

  datatype Consumer = Broker | Agent | Watchdog

  datatype Delivery = Delivery(to: Consumer, packet: seq<byte>)

  function PacketOf(): Delivery -> seq<byte> { (d: Delivery) => d.packet }

  /** The packets that were delivered, to whomever. */
  function Packets(ds: seq<Delivery>): seq<seq<byte>> { Seqs.Map(ds, PacketOf()) }

  /** Everything is delivered to the broker if there is one, else to the agent, else to the watchdog. */
  ghost predicate ToTheFirst(ds: seq<Delivery>, to: Routes) {
    forall d :: d in ds ==> d.to == if to.broker then Broker else if to.agent then Agent else Watchdog
  }

  /** _forward */
  method Forward(c: Buffer, mp: MessagePool, to: Routes, size: nat) returns (sent: seq<Delivery>, ghost k: nat)
    requires c.Valid() && mp.Valid() && 0 < size <= c.size
    modifies c, mp, c.chunks
    ensures c.Valid() && mp.Valid() && c.header == old(c.header)
    ensures k <= |old(c.chunks)| && c.chunks == old(c.chunks)[k..]
    ensures Among(mp.free, old(mp.free), old(c.chunks))
    ensures to.fd > 0 && to.broker ==> sent == [Delivery(Broker, old(c.Bytes())[..size])]
    ensures to.fd > 0 && !to.broker && to.agent ==> sent == [Delivery(Agent, old(c.Bytes())[..size])]
    ensures to.fd > 0 && !to.broker && !to.agent && to.watchdog ==> sent == [Delivery(Watchdog, old(c.Bytes())[..size])]
    ensures to.fd > 0 && (to.broker || to.agent || to.watchdog) ==> c.Bytes() == old(c.Bytes())[size..]
    ensures !(to.fd > 0 && (to.broker || to.agent || to.watchdog)) ==> sent == [] && c.Bytes() == old(c.Bytes())
  {
    sent, k := [], 0;
    if to.fd <= 0 { return; }
    var temp;
    if to.broker {
      temp, k := ReadPacket(c, mp, size);
      return [Delivery(Broker, temp)], k;
    }
    if to.agent {
      temp, k := ReadPacket(c, mp, size);
      sent := [Delivery(Agent, temp)];
    } else if to.watchdog {
      temp, k := ReadPacket(c, mp, size);
      sent := [Delivery(Watchdog, temp)];
    }
  }

  method ReadPacket(c: Buffer, mp: MessagePool, size: nat) returns (temp: seq<byte>, ghost k: nat)
    requires c.Valid() && mp.Valid() && 0 < size <= c.size
    modifies c, mp, c.chunks
    ensures c.Valid() && mp.Valid() && c.header == old(c.header)
    ensures k <= |old(c.chunks)| && c.chunks == old(c.chunks)[k..]
    ensures temp == old(c.Bytes())[..size] && c.Bytes() == old(c.Bytes())[size..]
    ensures Among(mp.free, old(mp.free), old(c.chunks))
  {
    hide Linked, BytesFrom, Seqs.Reverse, First, Last;
    temp, k := c.Read(mp, size);
    assert old(c.Bytes())[..size] == temp && old(c.Bytes())[size..] == c.Bytes();
    GivenBack(old(c.chunks), k, old(mp.free));
  }

  /** Every node of xs is one of ys or zs. */
  ghost predicate Among(xs: seq<Message>, ys: seq<Message>, zs: seq<Message>) {
    forall x :: x in xs ==> x in ys || x in zs
  }

  /** Chunks that go back were chunks. */
  lemma GivenBack(chunks: seq<Message>, k: nat, pool: seq<Message>)
    requires k <= |chunks|
    ensures Among(Seqs.Reverse(chunks[..k]) + pool, pool, chunks) && Among(pool, pool, chunks)
    ensures Among(Seqs.Reverse(chunks) + pool, pool, chunks)
  {
    hide Seqs.Reverse;
    SomeGivenBack(chunks[..k], chunks, pool);
    SomeGivenBack(chunks, chunks, pool);
  }

  lemma SomeGivenBack(some: seq<Message>, chunks: seq<Message>, pool: seq<Message>)
    requires forall x :: x in some ==> x in chunks
    ensures Among(Seqs.Reverse(some) + pool, pool, chunks)
  {
    hide Seqs.Reverse;
    var back := Seqs.Reverse(some);
    forall x | x in back + pool
      ensures x in pool || x in chunks
    {
      if x in back { Seqs.ReverseMember(some, x); }
    }
  }

  lemma StillAmong(xs: seq<Message>, ys: seq<Message>, zs: seq<Message>, pool: seq<Message>, mine: seq<Message>, k: nat)
    requires k <= |mine| && zs == mine[k..] && Among(xs, ys, zs) && Among(ys, pool, mine)
    ensures Among(xs, pool, mine)
  {
  }

  /** One turn of the loop in dispatch_message. */
  method DispatchOne(c: Buffer, mp: MessagePool, to: Routes, hs: int)
    returns (sent: seq<Delivery>, stop: bool, closed: bool, ghost k: nat)
    requires c.Valid() && mp.Valid() && HeaderSize(hs)
    modifies c, mp, c.chunks
    ensures c.Valid() && mp.Valid() && k <= |old(c.chunks)| && c.chunks == old(c.chunks)[k..]
    ensures Turned(Framing(c.header, c.Bytes()), Packets(sent), stop, closed)
         == Turn(Framing(old(c.header), old(c.Bytes())), hs, to.fd > 0 && (to.broker || to.agent || to.watchdog))
    ensures ToTheFirst(sent, to)
    ensures Among(mp.free, old(mp.free), old(c.chunks))
  {
    hide DecodeLength, BytesFrom, Linked, Seqs.Reverse, Buffer.Listed, MessagePool.Valid, Packets, Among;
    NoPackets();
    sent, stop, closed := [], false, false;
    var size;
    size, k := c.ReadHeader(mp, hs);
    GivenBack(old(c.chunks), k, old(mp.free));
    ghost var left, pool, read := c.chunks, mp.free, k;
    if size < 0 {
      stop := true;
    } else if size >= MAX_PACKET {
      k := k + |c.chunks|;
      GivenBack(c.chunks, 0, mp.free);
      c.Clear(mp);
      StillAmong(mp.free, pool, left, old(mp.free), old(c.chunks), read);
      stop, closed := true, true;
    } else if size > 0 {
      ghost var k2;
      ghost var packet := c.Bytes()[..size];
      sent, k2 := Forward(c, mp, to, size);
      StillAmong(mp.free, pool, left, old(mp.free), old(c.chunks), read);
      OnePacket(packet);
      k := k + k2;
      c.header := 0;
    }
  }

  lemma NoPackets()
    ensures Packets([]) == []
  {
  }

  lemma OnePacket(packet: seq<byte>)
    ensures forall to :: Packets([Delivery(to, packet)]) == [packet]
  {
  }

  /** dispatch_message does what the specification of framing says, for the bytes that
      were left over plus the new ones, and touches no other connection. */
  method DispatchMessage(c: Buffer, mp: MessagePool, to: Routes, data: seq<byte>, hs: int, ghost other: Buffer)
    returns (sent: seq<Delivery>, closed: bool)
    requires c.Valid() && mp.Valid() && HeaderSize(hs) && other != c && other.Valid()
    modifies c, mp, c.chunks, mp.free
    ensures c.Valid() && mp.Valid()
    ensures Parsed(Framing(c.header, c.Bytes()), Packets(sent), closed)
         == Feed(Framing(old(c.header), old(c.Bytes())), data, hs, to.fd > 0 && (to.broker || to.agent || to.watchdog))
    ensures ToTheFirst(sent, to)
    ensures other.Valid() && other.Bytes() == old(other.Bytes()) && other.header == old(other.header)
    ensures forall x :: x in c.chunks || x in mp.free ==> x in old(c.chunks) || x in old(mp.free) || fresh(x)
  {
    hide Parse, DecodeLength, BytesFrom, Linked, Packets;
    OthersApart(c, mp, other);
    ghost var m := c.Push(mp, data);
    assert old(mp.free) != [] ==> m == old(mp.free)[0];
    sent, closed := DispatchLoop(c, mp, to, hs);
  }

  method DispatchLoop(c: Buffer, mp: MessagePool, to: Routes, hs: int)
    returns (sent: seq<Delivery>, closed: bool)
    requires c.Valid() && mp.Valid() && HeaderSize(hs)
    modifies c, mp, c.chunks
    ensures c.Valid() && mp.Valid()
    ensures Parsed(Framing(c.header, c.Bytes()), Packets(sent), closed)
         == Parse(Framing(old(c.header), old(c.Bytes())), hs, to.fd > 0 && (to.broker || to.agent || to.watchdog))
    ensures ToTheFirst(sent, to)
    ensures Among(mp.free, old(mp.free), old(c.chunks))
    ensures forall x :: x in c.chunks ==> x in old(c.chunks)
  {
    hide Parse, Turn, DecodeLength, BytesFrom, Follows, Pending, Buffer.Valid, Buffer.Bytes, MessagePool.Valid, Packets;
    hide ToTheFirst, Among;
    GivenBack(c.chunks, 0, mp.free);
    ghost var start, mine, pool := Framing(c.header, c.Bytes()), c.chunks, mp.free;
    ghost var consume := to.fd > 0 && (to.broker || to.agent || to.watchdog);
    ghost var k: nat := 0;
    sent, closed := [], false;
    FollowsStart(start, hs, consume);
    NoPackets();
    NoneAstray(to);
    var stop := false;
    while !stop
      invariant c.Valid() && mp.Valid()
      invariant k <= |mine| && c.chunks == mine[k..]
      invariant Follows(Parse(start, hs, consume), Packets(sent), Framing(c.header, c.Bytes()), hs, consume,
                        stop, closed)
      invariant ToTheFirst(sent, to)
      invariant Among(mp.free, pool, mine)
      invariant !stop ==> !closed
      decreases !stop, Pending(Framing(c.header, c.Bytes()))
    {
      assert forall x :: x in c.chunks ==> x in mine;
      ghost var f, sofar, free, left, taken := Framing(c.header, c.Bytes()), sent, mp.free, c.chunks, k;
      ParseByTurns(f, hs, consume);
      var more;
      ghost var k1;
      more, stop, closed, k1 := DispatchOne(c, mp, to, hs);
      k := k + k1;
      StillAmong(mp.free, free, left, pool, mine, taken);
      PacketsJoin(sofar, more, to);
      sent := sent + more;
      FollowsTurn(Parse(start, hs, consume), Packets(sofar), f, hs, consume);
    }
    FollowsEnd(Parse(start, hs, consume), Packets(sent), Framing(c.header, c.Bytes()), hs, consume, closed);
  }

  lemma NoneAstray(to: Routes)
    ensures ToTheFirst([], to)
  {
  }

  lemma PacketsJoin(a: seq<Delivery>, b: seq<Delivery>, to: Routes)
    ensures Packets(a + b) == Packets(a) + Packets(b)
    ensures ToTheFirst(a, to) && ToTheFirst(b, to) ==> ToTheFirst(a + b, to)
  {
    Seqs.MapAppend(a, b, PacketOf());
  }

  /** The packets so far, and the parse of what is left, make up the whole result. */
  ghost predicate Follows(whole: Parsed, packets: seq<seq<byte>>, f: Framing, hs: int, consume: bool,
                          stop: bool, closed: bool)
    requires HeaderSize(hs)
  {
    if stop then whole == Parsed(f, packets, closed)
    else !closed && whole == Prepend(packets, Parse(f, hs, consume))
  }

  lemma FollowsStart(f: Framing, hs: int, consume: bool)
    requires HeaderSize(hs)
    ensures Follows(Parse(f, hs, consume), [], f, hs, consume, false, false)
  {
    hide Parse;
    assert [] + Parse(f, hs, consume).packets == Parse(f, hs, consume).packets;
  }

  lemma FollowsEnd(whole: Parsed, packets: seq<seq<byte>>, f: Framing, hs: int, consume: bool, closed: bool)
    requires HeaderSize(hs) && Follows(whole, packets, f, hs, consume, true, closed)
    ensures whole == Parsed(f, packets, closed)
  {
  }

  lemma FollowsTurn(whole: Parsed, packets: seq<seq<byte>>, f: Framing, hs: int, consume: bool)
    requires HeaderSize(hs) && Follows(whole, packets, f, hs, consume, false, false)
    ensures Turn(f, hs, consume).stop || !Turn(f, hs, consume).closed
    ensures var t := Turn(f, hs, consume);
            Follows(whole, packets + t.packets, t.state, hs, consume, t.stop, t.closed)
  {
    ParseByTurns(f, hs, consume);
    hide Parse, Turn;
    var t := Turn(f, hs, consume);
    Seqs.Assoc(packets, t.packets, Parse(t.state, hs, consume).packets);
  }

  // ---------------------------------------------------------------- whole connections

  /** A new connection that is fed one chunk after another. */
  method RunConnection(to: Routes, hs: int, chunks: seq<seq<byte>>) returns (sent: seq<Delivery>, closed: bool)
    requires HeaderSize(hs)
    ensures var r := FeedAll(Framing(0, []), chunks, hs, to.fd > 0 && (to.broker || to.agent || to.watchdog));
            Packets(sent) == r.packets && closed == r.closed
    ensures ToTheFirst(sent, to)
  {
    hide Packets, ToTheFirst, Feed, Linked, BytesFrom;
    var c := new Buffer();
    var mp := new MessagePool();
    var other := new Buffer();
    ghost var consume, start := to.fd > 0 && (to.broker || to.agent || to.watchdog), Framing(0, []);
    sent, closed := [], false;
    NoPackets();
    NoneAstray(to);
    var k := 0;
    assert chunks[..0] == [];
    while k < |chunks|
      invariant k <= |chunks| && c.Valid() && mp.Valid() && other.Valid()
      invariant fresh(c) && fresh(mp) && fresh(other) && c != other
      invariant forall x :: x in c.chunks || x in mp.free ==> fresh(x)
      invariant FeedAll(start, chunks[..k], hs, consume) == Parsed(Framing(c.header, c.Bytes()), Packets(sent), closed)
      invariant ToTheFirst(sent, to)
    {
      var more, gone := DispatchMessage(c, mp, to, chunks[k], hs, other);
      FeedAllSnoc(start, chunks, k, hs, consume);
      PacketsJoin(sent, more, to);
      sent, closed := sent + more, closed || gone;
      k := k + 1;
    }
    assert chunks[..k] == chunks;
  }

  lemma FeedAllSnoc(f: Framing, chunks: seq<seq<byte>>, k: nat, hs: int, consume: bool)
    requires HeaderSize(hs) && k < |chunks|
    ensures var r := FeedAll(f, chunks[..k], hs, consume);
            var s := Feed(r.state, chunks[k], hs, consume);
            FeedAll(f, chunks[..k + 1], hs, consume) == Parsed(s.state, r.packets + s.packets, r.closed || s.closed)
  {
    hide Feed;
    assert chunks[..k + 1] == chunks[..k] + [chunks[k]];
    FeedAllAppend(f, chunks[..k], [chunks[k]], hs, consume);
    OneChunk(FeedAll(f, chunks[..k], hs, consume).state, chunks[k], hs, consume);
  }

  /** A peer that frames its packets reaches whoever there is, and the first of them alone: broker,
      else the connection's agent, else the watchdog. Every packet that is not empty arrives, in
      order and unchanged, however the bytes are cut. */
  method Deliver(to: Routes, hs: int, chunks: seq<seq<byte>>, ghost ps: seq<seq<byte>>) returns (sent: seq<Delivery>)
    requires HeaderSize(hs) && GateFraming.AllFit(ps, hs) && Seqs.Flatten(chunks) == Encode(ps, hs)
    requires to.fd > 0 && (to.broker || to.agent || to.watchdog)
    ensures
      var kept := Seqs.Filter(ps, NonEmpty());
      && |sent| == |kept|
      && forall i :: 0 <= i < |kept| ==>
           sent[i] == Delivery(if to.broker then Broker else if to.agent then Agent else Watchdog, kept[i])
  {
    hide FeedAll, Encode, Seqs.Filter;
    var closed;
    sent, closed := RunConnection(to, hs, chunks);
    PacketsSurviveAnyChunking(ps, chunks, hs);
    assert forall i :: 0 <= i < |sent| ==> Packets(sent)[i] == sent[i].packet;
  }
}
