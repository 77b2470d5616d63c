/** How the gate cuts a byte stream into packets: a big-endian length of 2 or 4 bytes,
    then that many bytes, with the state kept between chunks of input. */
module GateFraming {
  import opened Basics
  import opened Seqs

  const MAX_PACKET := 0x100_0000

  /** The pending header (0 when none is pending) and the bytes not yet consumed. */
  datatype Framing = Framing(header: int, bytes: seq<byte>)

  /** What one input leads to: the framing state after it, the packets forwarded, and
      whether a length of 16M or more closed the connection. */
  datatype Parsed = Parsed(state: Framing, packets: seq<seq<byte>>, closed: bool)

  predicate HeaderSize(hs: int) { hs == 2 || hs == 4 }

  /** The length as the code computes it: with four bytes a signed 32-bit integer. */
  function DecodeLength(b: seq<byte>): int
    requires HeaderSize(|b|)
  {
    if |b| == 2 then b[0] as int * 0x100 + b[1] as int
    else
      var n := DecodeUnsigned(b);
      if n < 0x8000_0000 then n else n - 0x1_0000_0000
  }

  /** databuffer_readheader: the state after it and the size it returns, -1 for none. */
  function ReadHeader(f: Framing, hs: int): (Framing, int)
    requires HeaderSize(hs)
  {
    if f.header == 0 && |f.bytes| < hs then (f, -1)
    else
      var g := if f.header == 0 then Framing(DecodeLength(f.bytes[..hs]), f.bytes[hs..]) else f;
      (g, if |g.bytes| < g.header then -1 else g.header)
  }

  /** The loop of dispatch_message over everything buffered. `consume` says whether
      `_forward` has somewhere to send the packet; if not it leaves the bytes in place. */
  function Parse(f: Framing, hs: int, consume: bool): Parsed
    requires HeaderSize(hs)
    decreases |f.bytes| + if f.header != 0 then 1 else 0
  {
    var (g, size) := ReadHeader(f, hs);
    if size < 0 then Parsed(g, [], false)
    else if size == 0 then Parse(g, hs, consume)
    else if size >= MAX_PACKET then Parsed(Framing(0, []), [], true)
    else if consume then
      var r := Parse(Framing(0, g.bytes[size..]), hs, consume);
      r.(packets := [g.bytes[..size]] + r.packets)
    else Parse(Framing(0, g.bytes), hs, consume)
  }

  function Feed(f: Framing, chunk: seq<byte>, hs: int, consume: bool): Parsed
    requires HeaderSize(hs)
  {
    Parse(f.(bytes := f.bytes + chunk), hs, consume)
  }

  /** Feeding one chunk after another. A close empties the buffer; chunks that are already on
      their way are parsed afresh. */
  function FeedAll(f: Framing, chunks: seq<seq<byte>>, hs: int, consume: bool): Parsed
    requires HeaderSize(hs)
    decreases |chunks|
  {
    if |chunks| == 0 then Parsed(f, [], false)
    else
      var r := Feed(f, chunks[0], hs, consume);
      var s := FeedAll(r.state, chunks[1..], hs, consume);
      Parsed(s.state, r.packets + s.packets, r.closed || s.closed)
  }

  // ---------------------------------------------------------------- independence of chunking

  /** Parsing what there is and the rest later is parsing everything at once, unless the
      first part already closed the connection. */
  lemma {:induction false} ParseInTwoSteps(f: Framing, more: seq<byte>, hs: int, consume: bool)
    requires HeaderSize(hs) && !Parse(f, hs, consume).closed
    ensures var r := Parse(f, hs, consume);
            var s := Feed(r.state, more, hs, consume);
            Feed(f, more, hs, consume) == s.(packets := r.packets + s.packets)
    decreases |f.bytes| + if f.header != 0 then 1 else 0
  {
    var (g, size) := ReadHeader(f, hs);
    if f.header != 0 || |f.bytes| >= hs {
      if size < 0 {
        PendingHeader(f, more, hs, consume);
      } else {
        ReadHeaderMore(f, more, hs);
        if size == 0 {
          ParseInTwoSteps(g, more, hs, consume);
        } else if consume {
          SplitMore(g.bytes, more, size);
          ParseInTwoSteps(Framing(0, g.bytes[size..]), more, hs, consume);
          var tail := Parse(Framing(0, g.bytes[size..]), hs, consume);
          Assoc([g.bytes[..size]], tail.packets, Feed(tail.state, more, hs, consume).packets);
        } else {
          ParseInTwoSteps(Framing(0, g.bytes), more, hs, consume);
        }
      }
    }
  }

  lemma SplitMore(bytes: seq<byte>, more: seq<byte>, n: nat)
    requires n <= |bytes|
    ensures (bytes + more)[..n] == bytes[..n] && (bytes + more)[n..] == bytes[n..] + more
  {
  }

  /** A size once read does not change when more bytes follow. */
  lemma ReadHeaderMore(f: Framing, more: seq<byte>, hs: int)
    requires HeaderSize(hs) && ReadHeader(f, hs).1 >= 0
    ensures var (g, size) := ReadHeader(f, hs);
            ReadHeader(f.(bytes := f.bytes + more), hs) == (g.(bytes := g.bytes + more), size)
  {
    if f.header == 0 { SplitMore(f.bytes, more, hs); }
  }

  /** Once the header is read it makes no difference that it was read earlier. */
  lemma PendingHeader(f: Framing, more: seq<byte>, hs: int, consume: bool)
    requires HeaderSize(hs) && (f.header != 0 || |f.bytes| >= hs)
    requires ReadHeader(f, hs).1 < 0
    ensures Feed(f, more, hs, consume) == Feed(ReadHeader(f, hs).0, more, hs, consume)
  {
    var (g, size) := ReadHeader(f, hs);
    if f.header == 0 {
      var all := f.(bytes := f.bytes + more);
      assert all.bytes[..hs] == f.bytes[..hs];
      assert all.bytes[hs..] == g.bytes + more;
      assert g.header != 0;
      assert ReadHeader(all, hs) == ReadHeader(g.(bytes := g.bytes + more), hs);
    }
  }

  predicate Settled(f: Framing, hs: int, consume: bool)
    requires HeaderSize(hs)
  {
    Parse(f, hs, consume) == Parsed(f, [], false)
  }

  lemma {:induction false} ParseSettles(f: Framing, hs: int, consume: bool)
    requires HeaderSize(hs)
    ensures Settled(Parse(f, hs, consume).state, hs, consume)
    decreases |f.bytes| + if f.header != 0 then 1 else 0
  {
    var (g, size) := ReadHeader(f, hs);
    if size == 0 {
      ParseSettles(g, hs, consume);
    } else if 0 < size < MAX_PACKET {
      ParseSettles(Framing(0, if consume then g.bytes[size..] else g.bytes), hs, consume);
    }
  }

  /** Framing does not depend on how the stream is cut into chunks: unless a chunk closes
      the connection, feeding them one by one forwards the same packets, and leaves the
      same state, as feeding their concatenation. */
  lemma {:induction false} ChunkingIsInvisible(f: Framing, chunks: seq<seq<byte>>, hs: int, consume: bool)
    requires HeaderSize(hs) && Settled(f, hs, consume)
    requires !FeedAll(f, chunks, hs, consume).closed
    ensures FeedAll(f, chunks, hs, consume) == Feed(f, Flatten(chunks), hs, consume)
    decreases |chunks|
  {
    if |chunks| == 0 {
      assert f.bytes + [] == f.bytes;
    } else {
      var rest := Flatten(chunks[1..]);
      var g := f.(bytes := f.bytes + chunks[0]);
      var r := Feed(f, chunks[0], hs, consume);
      ParseSettles(g, hs, consume);
      ChunkingIsInvisible(r.state, chunks[1..], hs, consume);
      ParseInTwoSteps(g, rest, hs, consume);
      Assoc(f.bytes, chunks[0], rest);
    }
  }

  lemma {:induction false} FeedAllAppend(f: Framing, a: seq<seq<byte>>, b: seq<seq<byte>>, hs: int, consume: bool)
    requires HeaderSize(hs)
    ensures var r := FeedAll(f, a, hs, consume);
            var s := FeedAll(r.state, b, hs, consume);
            FeedAll(f, a + b, hs, consume) == Parsed(s.state, r.packets + s.packets, r.closed || s.closed)
    decreases |a|
  {
    hide Feed;
    if |a| == 0 {
      assert a + b == b;
    } else {
      var r := Feed(f, a[0], hs, consume);
      assert (a + b)[0] == a[0] && (a + b)[1..] == a[1..] + b;
      FeedAllAppend(r.state, a[1..], b, hs, consume);
      var s := FeedAll(r.state, a[1..], hs, consume);
      Assoc(r.packets, s.packets, FeedAll(s.state, b, hs, consume).packets);
    }
  }

  /** A chunk that closes the connection loses what follows in that chunk and nothing else: the
      packets are those of everything up to and with it, cut anywhere, and then those of the later
      chunks on an empty buffer. */
  lemma ClosingChunk(f: Framing, chunks: seq<seq<byte>>, last: seq<byte>, rest: seq<seq<byte>>, hs: int, consume: bool)
    requires HeaderSize(hs) && Settled(f, hs, consume)
    requires !FeedAll(f, chunks, hs, consume).closed && FeedAll(f, chunks + [last], hs, consume).closed
    ensures var s := FeedAll(Framing(0, []), rest, hs, consume);
            FeedAll(f, chunks + [last] + rest, hs, consume) ==
              Parsed(s.state, Feed(f, Flatten(chunks + [last]), hs, consume).packets + s.packets, true)
  {
    hide Feed, Settled, FeedAll;
    var r := FeedAll(f, chunks, hs, consume);
    ChunkingIsInvisible(f, chunks, hs, consume);
    FeedTwice(f, Flatten(chunks), last, hs, consume);
    FlattenAppend(chunks, [last]);
    OneChunk(r.state, last, hs, consume);
    FeedAllAppend(f, chunks, [last], hs, consume);
    FeedAllAppend(f, chunks + [last], rest, hs, consume);
    CloseEmpties(r.state, last, hs, consume);
  }

  lemma OneChunk(f: Framing, chunk: seq<byte>, hs: int, consume: bool)
    requires HeaderSize(hs)
    ensures FeedAll(f, [chunk], hs, consume) == Feed(f, chunk, hs, consume) && Flatten([chunk]) == chunk
  {
    hide Feed;
    var r := Feed(f, chunk, hs, consume);
    assert [chunk][1..] == [] && r.packets + [] == r.packets;
  }

  /** Feeding in two parts, the first of which does not close. */
  lemma FeedTwice(f: Framing, a: seq<byte>, b: seq<byte>, hs: int, consume: bool)
    requires HeaderSize(hs) && !Feed(f, a, hs, consume).closed
    ensures var r := Feed(f, a, hs, consume);
            var s := Feed(r.state, b, hs, consume);
            Feed(f, a + b, hs, consume) == s.(packets := r.packets + s.packets)
  {
    hide Parse;
    ParseInTwoSteps(f.(bytes := f.bytes + a), b, hs, consume);
    Assoc(f.bytes, a, b);
  }

  lemma CloseEmpties(f: Framing, chunk: seq<byte>, hs: int, consume: bool)
    requires HeaderSize(hs)
    ensures Feed(f, chunk, hs, consume).closed ==> Feed(f, chunk, hs, consume).state == Framing(0, [])
  {
    ParseCloseEmpties(f.(bytes := f.bytes + chunk), hs, consume);
    hide Parse;
  }

  lemma {:induction false} ParseCloseEmpties(f: Framing, hs: int, consume: bool)
    requires HeaderSize(hs)
    ensures Parse(f, hs, consume).closed ==> Parse(f, hs, consume).state == Framing(0, [])
    decreases |f.bytes| + if f.header != 0 then 1 else 0
  {
    var (g, size) := ReadHeader(f, hs);
    if size == 0 {
      ParseCloseEmpties(g, hs, consume);
    } else if 0 < size < MAX_PACKET {
      ParseCloseEmpties(Framing(0, if consume then g.bytes[size..] else g.bytes), hs, consume);
    }
  }

  // ---------------------------------------------------------------- round trip

  predicate Fits(p: seq<byte>, hs: int) {
    |p| < if hs == 2 then 0x1_0000 else MAX_PACKET
  }

  predicate AllFit(ps: seq<seq<byte>>, hs: int) {
    forall i :: 0 <= i < |ps| ==> Fits(ps[i], hs)
  }

  function EncodeLength(n: nat, hs: int): (b: seq<byte>)
    requires HeaderSize(hs) && n < if hs == 2 then 0x1_0000 else MAX_PACKET
    ensures |b| == hs && DecodeLength(b) == n
  {
    if hs == 2 then [(n / 0x100) as byte, (n % 0x100) as byte]
    else [0, (n / 0x1_0000) as byte, (n / 0x100 % 0x100) as byte, (n % 0x100) as byte]
  }

  function Encode(ps: seq<seq<byte>>, hs: int): seq<byte>
    requires HeaderSize(hs) && AllFit(ps, hs)
    decreases |ps|
  {
    if |ps| == 0 then []
    else
      EncodeLength(|ps[0]|, hs) + ps[0] + Encode(ps[1..], hs)
  }

  function NonEmpty(): seq<byte> -> bool { (p: seq<byte>) => p != [] }

  /** One turn of the loop: the state after it, what it forwards, and whether it is the
      last one. */
  datatype Turned = Turned(state: Framing, packets: seq<seq<byte>>, stop: bool, closed: bool)

  function Turn(f: Framing, hs: int, consume: bool): Turned
    requires HeaderSize(hs)
  {
    var (g, size) := ReadHeader(f, hs);
    if size < 0 then Turned(g, [], true, false)
    else if size == 0 then Turned(g, [], false, false)
    else if size >= MAX_PACKET then Turned(Framing(0, []), [], true, true)
    else if consume then Turned(Framing(0, g.bytes[size..]), [g.bytes[..size]], false, false)
    else Turned(Framing(0, g.bytes), [], false, false)
  }

  function Pending(f: Framing): nat {
    |f.bytes| + if f.header != 0 then 1 else 0
  }

  lemma ParseByTurns(f: Framing, hs: int, consume: bool)
    requires HeaderSize(hs)
    ensures var t := Turn(f, hs, consume);
            && (t.stop ==> Parse(f, hs, consume) == Parsed(t.state, t.packets, t.closed))
            && (!t.stop ==> !t.closed && Pending(t.state) < Pending(f))
            && (!t.stop ==> Parse(f, hs, consume) == Prepend(t.packets, Parse(t.state, hs, consume)))
  {
    TurnShrinks(f, hs, consume);
    hide ReadHeader, DecodeLength, Pending;
  }

  lemma TurnShrinks(f: Framing, hs: int, consume: bool)
    requires HeaderSize(hs)
    ensures var t := Turn(f, hs, consume); !t.stop ==> !t.closed && Pending(t.state) < Pending(f)
  {
    hide DecodeLength;
  }

  function Prepend(ps: seq<seq<byte>>, r: Parsed): Parsed { r.(packets := ps + r.packets) }

  lemma ParseOne(p: seq<byte>, rest: seq<byte>, hs: int)
    requires HeaderSize(hs) && Fits(p, hs)
    ensures Parse(Framing(0, EncodeLength(|p|, hs) + p + rest), hs, true)
         == Prepend(if p == [] then [] else [p], Parse(Framing(0, rest), hs, true))
  {
    var head := EncodeLength(|p|, hs);
    var s := head + p + rest;
    hide EncodeLength, DecodeLength;
    assert s[..hs] == head;
    assert s[hs..] == p + rest;
    assert (p + rest)[..|p|] == p && (p + rest)[|p|..] == rest;
    assert ReadHeader(Framing(0, s), hs) == (Framing(|p|, p + rest), |p|);
    if p == [] { assert p + rest == rest; }
  }

  /** A length is given highest byte first, in two bytes or in four. */
  lemma LengthsAreHighestFirst(w: byte, x: byte, y: byte, z: byte, p: seq<byte>)
    requires p != []
    ensures |p| == y as int * 0x100 + z as int ==>
              Feed(Framing(0, []), [y, z] + p, 2, true) == Parsed(Framing(0, []), [p], false)
    ensures |p| == w as int * 0x100_0000 + x as int * 0x1_0000 + y as int * 0x100 + z as int < 0x100_0000 ==>
              Feed(Framing(0, []), [w, x, y, z] + p, 4, true) == Parsed(Framing(0, []), [p], false)
  {
    if |p| == y as int * 0x100 + z as int {
      WholePacket([y, z], p);
    }
    if |p| == w as int * 0x100_0000 + x as int * 0x1_0000 + y as int * 0x100 + z as int < 0x100_0000 {
      WholePacket([w, x, y, z], p);
    }
  }

  lemma WholePacket(head: seq<byte>, p: seq<byte>)
    requires HeaderSize(|head|) && p != [] && DecodeLength(head) == |p| < 0x100_0000
    ensures Feed(Framing(0, []), head + p, |head|, true) == Parsed(Framing(0, []), [p], false)
  {
    hide DecodeLength;
    var s := head + p;
    assert [] + s == s && s[..|head|] == head && s[|head|..] == p;
    assert p[..|p|] == p && p[|p|..] == [];
    assert ReadHeader(Framing(0, s), |head|) == (Framing(|p|, p), |p|);
    assert Parse(Framing(0, []), |head|, true) == Parsed(Framing(0, []), [], false);
    assert [p] + [] == [p];
  }

  lemma {:induction false} ParseEncoded(ps: seq<seq<byte>>, hs: int)
    requires HeaderSize(hs) && AllFit(ps, hs)
    ensures Parse(Framing(0, Encode(ps, hs)), hs, true) == Parsed(Framing(0, []), Filter(ps, NonEmpty()), false)
    decreases |ps|
  {
    if |ps| > 0 {
      ParseEncoded(ps[1..], hs);
      ParseOne(ps[0], Encode(ps[1..], hs), hs);
      hide Parse, EncodeLength, DecodeLength;
    }
  }

  /** A peer that frames packets as the gate expects gets every non-empty one forwarded,
      in order and unchanged, however the bytes are cut on the way. */
  lemma PacketsSurviveAnyChunking(ps: seq<seq<byte>>, chunks: seq<seq<byte>>, hs: int)
    requires HeaderSize(hs) && AllFit(ps, hs)
    requires Flatten(chunks) == Encode(ps, hs)
    ensures FeedAll(Framing(0, []), chunks, hs, true) == Parsed(Framing(0, []), Filter(ps, NonEmpty()), false)
  {
    ParseEncoded(ps, hs);
    var f := Framing(0, []);
    assert f.bytes + Flatten(chunks) == Encode(ps, hs);
    assert Feed(f, Flatten(chunks), hs, true) == Parse(Framing(0, Encode(ps, hs)), hs, true);
    NeverCloses(f, chunks, hs);
    ChunkingIsInvisible(f, chunks, hs, true);
  }

  /** If the whole stream does not close the connection, no prefix of it does. */
  lemma {:induction false} NeverCloses(f: Framing, chunks: seq<seq<byte>>, hs: int)
    requires HeaderSize(hs) && !Feed(f, Flatten(chunks), hs, true).closed
    ensures !FeedAll(f, chunks, hs, true).closed
    decreases |chunks|
  {
    if |chunks| > 0 {
      var g, rest := f.(bytes := f.bytes + chunks[0]), Flatten(chunks[1..]);
      Assoc(f.bytes, chunks[0], rest);
      if Parse(g, hs, true).closed {
        ClosedStaysClosed(g, rest, hs);
      } else {
        ParseInTwoSteps(g, rest, hs, true);
        NeverCloses(Parse(g, hs, true).state, chunks[1..], hs);
      }
    }
  }

  lemma {:induction false} ClosedStaysClosed(f: Framing, more: seq<byte>, hs: int)
    requires HeaderSize(hs) && Parse(f, hs, true).closed
    ensures Feed(f, more, hs, true).closed
    decreases |f.bytes| + if f.header != 0 then 1 else 0
  {
    var (g, size) := ReadHeader(f, hs);
    ReadHeaderMore(f, more, hs);
    if size == 0 {
      ClosedStaysClosed(g, more, hs);
    } else if size < MAX_PACKET {
      SplitMore(g.bytes, more, size);
      ClosedStaysClosed(Framing(0, g.bytes[size..]), more, hs);
    }
  }

  // ---------------------------------------------------------------- lengths the gate mishandles

  /** A four-byte length from 16M up to 2^31 closes the connection once that many bytes have
      arrived, and waits for them until then. */
  lemma LengthsFrom16M(b: seq<byte>, body: seq<byte>, consume: bool)
    requires |b| == 4 && b[0] < 0x80 && DecodeUnsigned(b) >= 0x100_0000
    ensures
      Feed(Framing(0, []), b + body, 4, consume) ==
        if |body| >= DecodeUnsigned(b) then Parsed(Framing(0, []), [], true)
        else Parsed(Framing(DecodeUnsigned(b), body), [], false)
  {
    LengthFirst(b, body);
    assert DecodeLength(b) == DecodeUnsigned(b);
    hide DecodeLength, DecodeUnsigned;
  }

  lemma LengthFirst(b: seq<byte>, body: seq<byte>)
    requires |b| == 4 && DecodeLength(b) != 0
    ensures
      ReadHeader(Framing(0, [] + (b + body)), 4) ==
        (Framing(DecodeLength(b), body), if |body| < DecodeLength(b) then -1 else DecodeLength(b))
  {
    var s := b + body;
    hide DecodeLength;
    assert [] + s == s && s[..4] == b && s[4..] == body;
  }

  /** One of 2^31 or more is read as a negative number, which no amount of bytes reaches: whatever
      follows, in this chunk and in later ones, is kept, and nothing is forwarded or closed. */
  lemma NegativeLengthsStall(b: seq<byte>, body: seq<byte>, chunks: seq<seq<byte>>, consume: bool)
    requires |b| == 4 && b[0] >= 0x80
    ensures
      FeedAll(Framing(0, []), [b + body] + chunks, 4, consume) ==
        Parsed(Framing(DecodeLength(b), body + Flatten(chunks)), [], false)
  {
    assert DecodeLength(b) < 0;
    LengthFirst(b, body);
    hide DecodeLength;
    assert Feed(Framing(0, []), b + body, 4, consume) == Parsed(Framing(DecodeLength(b), body), [], false);
    assert ([b + body] + chunks)[0] == b + body && ([b + body] + chunks)[1..] == chunks;
    StalledForEver(Framing(DecodeLength(b), body), chunks, 4, consume);
  }

  lemma {:induction false} StalledForEver(f: Framing, chunks: seq<seq<byte>>, hs: int, consume: bool)
    requires HeaderSize(hs) && f.header < 0
    ensures FeedAll(f, chunks, hs, consume) == Parsed(Framing(f.header, f.bytes + Flatten(chunks)), [], false)
    decreases |chunks|
  {
    if |chunks| == 0 {
      assert f.bytes + [] == f.bytes;
    } else {
      var g := f.(bytes := f.bytes + chunks[0]);
      assert Feed(f, chunks[0], hs, consume) == Parsed(g, [], false);
      StalledForEver(g, chunks[1..], hs, consume);
      Assoc(f.bytes, chunks[0], Flatten(chunks[1..]));
    }
  }

  function DecodeUnsigned(b: seq<byte>): nat
    requires |b| == 4
  {
    b[0] as int * 0x100_0000 + b[1] as int * 0x1_0000 + b[2] as int * 0x100 + b[3] as int
  }

  /** With nobody to forward to, a packet is dropped from the framing but not from the
      buffer: its bytes are read again as the next header. */
  lemma UnconsumedPacketsAreReframed(p: seq<byte>, hs: int)
    requires HeaderSize(hs) && Fits(p, hs) && p != []
    ensures Feed(Framing(0, []), EncodeLength(|p|, hs) + p, hs, false) == Feed(Framing(0, []), p, hs, false)
  {
    var head := EncodeLength(|p|, hs);
    var s := head + p;
    assert [] + s == s && s[..hs] == head && s[hs..] == p && [] + p == p;
    assert ReadHeader(Framing(0, s), hs) == (Framing(|p|, p), |p|);
  }
}
