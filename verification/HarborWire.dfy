/** The byte format of the harbor link, and the receiver that takes it apart from chunks
    of any size. */
module HarborWire {
  import opened Basics
  import opened Seqs

  const HEADER_COOKIE_LENGTH := 12
  const HANDLE_MASK := 0x100_0000   // one more than kHandleMask: handles are taken modulo this
  const UINT32_MAX := 0xffff_ffff

  // ---------------------------------------------------------------- codec

  function ToBigEndian(n: uint32): (b: seq<byte>)
    ensures |b| == 4
  {
    [(n / 0x100_0000) as byte, (n / 0x1_0000 % 0x100) as byte, (n / 0x100 % 0x100) as byte, (n % 0x100) as byte]
  }

  function FromBigEndian(b: seq<byte>): uint32
    requires |b| == 4
  {
    b[0] as int * 0x100_0000 + b[1] as int * 0x1_0000 + b[2] as int * 0x100 + b[3] as int
  }

  lemma BigEndianRoundTrip(n: uint32)
    ensures FromBigEndian(ToBigEndian(n)) == n
  {
    var q := n / 0x100;
    assert n == q * 0x100 + n % 0x100;
    assert q == q / 0x100 * 0x100 + q % 0x100;
    assert n / 0x1_0000 == q / 0x100 && n / 0x100_0000 == q / 0x100 / 0x100;
  }

  /** A message as the sending side accepts it: the type is an 8-bit number, and of the
      destination only the low 24 bits travel. */
  datatype Message = Message(source: uint32, destination: uint32, kind: byte, session: int32, payload: seq<byte>)

  /** The cookie that follows the payload. */
  datatype Cookie = Cookie(source: uint32, destination: uint32, session: uint32)

  function Unsigned(n: int32): uint32 { if n < 0 then n + 0x1_0000_0000 else n }
  function Signed(n: uint32): int32 { if n < 0x8000_0000 then n else n - 0x1_0000_0000 }

  function CookieOf(m: Message): Cookie {
    Cookie(m.source, m.kind as int * HANDLE_MASK + m.destination % HANDLE_MASK, Unsigned(m.session))
  }

  function EncodeCookie(c: Cookie): (b: seq<byte>)
    ensures |b| == HEADER_COOKIE_LENGTH
  {
    ToBigEndian(c.source) + ToBigEndian(c.destination) + ToBigEndian(c.session)
  }

  function DecodeCookie(b: seq<byte>): Cookie
    requires |b| == HEADER_COOKIE_LENGTH
  {
    Cookie(FromBigEndian(b[..4]), FromBigEndian(b[4..8]), FromBigEndian(b[8..]))
  }

  lemma CookieRoundTrip(c: Cookie)
    ensures DecodeCookie(EncodeCookie(c)) == c
  {
    var b := EncodeCookie(c);
    hide ToBigEndian, FromBigEndian;
    assert b[..4] == ToBigEndian(c.source) && b[4..8] == ToBigEndian(c.destination) && b[8..] == ToBigEndian(c.session);
    BigEndianRoundTrip(c.source);
    BigEndianRoundTrip(c.destination);
    BigEndianRoundTrip(c.session);
  }

  function Body(m: Message): seq<byte> { m.payload + EncodeCookie(CookieOf(m)) }

  /** The receiver accepts the length: its top byte is zero. */
  predicate Fits(m: Message) { |m.payload| + HEADER_COOKIE_LENGTH <= 0xff_ffff }

  /** send_remote puts the message on the wire at all. */
  predicate Sendable(m: Message) { |m.payload| + HEADER_COOKIE_LENGTH <= UINT32_MAX }

  function Frame(m: Message): seq<byte>
    requires Sendable(m)
  {
    ToBigEndian(|Body(m)|) + Body(m)
  }

  /** What forward_local_messsage hands to the local service: the destination gets the
      receiving harbor's number in its top byte. */
  datatype Delivery = Delivery(source: uint32, destination: uint32, kind: byte, session: int32, payload: seq<byte>)

  function Deliver(body: seq<byte>, harbor: byte): Delivery
    requires |body| >= HEADER_COOKIE_LENGTH
  {
    var n := |body| - HEADER_COOKIE_LENGTH;
    var c := DecodeCookie(body[n..]);
    Delivery(c.source, c.destination % HANDLE_MASK + harbor as int * HANDLE_MASK,
             (c.destination / HANDLE_MASK) as byte, Signed(c.session), body[..n])
  }

  /** The message the receiver is meant to see. */
  function Intended(m: Message, harbor: byte): Delivery {
    Delivery(m.source, m.destination % HANDLE_MASK + harbor as int * HANDLE_MASK, m.kind, m.session, m.payload)
  }

  /** What is delivered of a body, field by field. */
  lemma DeliveryRoundTrip(m: Message, harbor: byte)
    ensures Deliver(Body(m), harbor) == Intended(m, harbor)
    ensures var d := Deliver(Body(m), harbor);
            && d.source == m.source && d.kind == m.kind && d.session == m.session && d.payload == m.payload
            && d.destination % 0x100_0000 == m.destination % 0x100_0000
            && d.destination / 0x100_0000 == harbor as int
  {
    var n, c := |m.payload|, CookieOf(m);
    assert Body(m)[n..] == EncodeCookie(c) && Body(m)[..n] == m.payload;
    CookieRoundTrip(c);
    hide EncodeCookie, DecodeCookie;
    assert c.destination % HANDLE_MASK == m.destination % HANDLE_MASK;
  }

  /** A number that four bytes hold, the highest byte first. */
  ghost predicate HighestFirst(b: seq<byte>, i: nat, n: nat)
    requires i + 4 <= |b|
  {
    b[i] as int * 0x100_0000 + b[i + 1] as int * 0x1_0000 + b[i + 2] as int * 0x100 + b[i + 3] as int == n
  }

  /** The bytes of a frame: a length that counts payload and cookie, the payload, and the cookie
      with source, type above the low destination, and session as a 32-bit word. */
  lemma FrameLayout(m: Message)
    requires Sendable(m)
    ensures var b, n := Frame(m), |m.payload|;
            && |b| == n + 16 && HighestFirst(b, 0, n + 12) && b[4..n + 4] == m.payload
            && HighestFirst(b, n + 4, m.source)
            && b[n + 8] == m.kind
            && HighestFirst(b, n + 8, m.kind as int * 0x100_0000 + m.destination % 0x100_0000)
            && HighestFirst(b, n + 12, if m.session < 0 then m.session + 0x1_0000_0000 else m.session)
  {
    var n, c := |m.payload|, CookieOf(m);
    var size, source := ToBigEndian(n + 12), ToBigEndian(c.source);
    var dest, session := ToBigEndian(c.destination), ToBigEndian(c.session);
    FrameParts(m);
    BigEndianRoundTrip(n + 12);
    BigEndianRoundTrip(c.source);
    BigEndianRoundTrip(c.destination);
    BigEndianRoundTrip(c.session);
    TopByte(c.destination);
    hide ToBigEndian;
    var b := Frame(m);
    assert b[0..4] == size && b[n + 4..n + 8] == source && b[n + 8..n + 12] == dest && b[n + 12..n + 16] == session;
    FourBytes(b, 0, size);
    FourBytes(b, n + 4, source);
    FourBytes(b, n + 8, dest);
    FourBytes(b, n + 12, session);
  }

  lemma FrameParts(m: Message)
    requires Sendable(m)
    ensures var n, c := |m.payload|, CookieOf(m);
            Frame(m) == ToBigEndian(n + 12) + m.payload
                        + ToBigEndian(c.source) + ToBigEndian(c.destination) + ToBigEndian(c.session)
  {
    hide ToBigEndian;
    assert |Body(m)| == |m.payload| + 12;
  }

  lemma TopByte(n: uint32)
    ensures ToBigEndian(n)[0] as int == n / 0x100_0000
  {
  }

  lemma FourBytes(b: seq<byte>, i: nat, part: seq<byte>)
    requires i + 4 <= |b| && |part| == 4 && b[i..i + 4] == part
    ensures HighestFirst(b, i, FromBigEndian(part)) && b[i] == part[0]
  {
    assert b[i] == part[0] && b[i + 1] == part[1] && b[i + 2] == part[2] && b[i + 3] == part[3];
  }

  // ---------------------------------------------------------------- the receiver

  datatype Status = Wait | Handshake | Header | Content | Down

  /** One slave: its status, how much of the current item was read, the four length
      bytes, the length they gave, and the body bytes received. */
  datatype Receiver = Receiver(status: Status, read: nat, size: seq<byte>, length: nat, body: seq<byte>)

  predicate Proper(r: Receiver) {
    && |r.size| == 4
    && (r.status == Header || r.status == Handshake ==> r.read < 4 && r.body == [])
    && (r.status == Content ==> |r.body| == r.read && (r.read < r.length || r.read == r.length == 0))
  }

  /** The state of a slave that was just connected and never had been before. */
  function Fresh(status: Status, size: seq<byte>): Receiver { Receiver(status, 0, size, 0, []) }

  datatype Fed = Fed(state: Receiver, bodies: seq<seq<byte>>)

  function HeaderByte(r: Receiver, b: byte): Receiver
    requires Proper(r) && r.status == Header
  {
    var size := r.size[r.read := b];
    if r.read + 1 < 4 then r.(size := size, read := r.read + 1)
    else if size[0] != 0 then r.(size := size, status := Down)
    else Receiver(Content, 0, size, size[1] as int * 0x1_0000 + size[2] as int * 0x100 + size[3] as int, [])
  }

  /** Back to waiting for a header once a body is complete. */
  function NextHeader(r: Receiver): Receiver { Receiver(Header, 0, r.size, 0, []) }

  /** The receiver one byte at a time. `id` is the harbor the slave stands for. */
  function Step(r: Receiver, b: byte, id: byte): Fed
    requires Proper(r)
  {
    match r.status
    case Wait => Fed(r, [])
    case Down => Fed(r, [])
    case Handshake => Fed(r.(status := if b == id then Header else Down), [])
    case Header => Fed(HeaderByte(r, b), [])
    case Content =>
      if r.length == 0 then Fed(HeaderByte(NextHeader(r), b), [r.body])
      else if r.read + 1 < r.length then Fed(r.(read := r.read + 1, body := r.body + [b]), [])
      else Fed(NextHeader(r), [r.body + [b]])
  }

  lemma StepProper(r: Receiver, b: byte, id: byte)
    requires Proper(r)
    ensures Proper(Step(r, b, id).state)
  {
  }

  function Feed(r: Receiver, s: seq<byte>, id: byte): Fed
    requires Proper(r)
    decreases |s|
  {
    if s == [] then Fed(r, [])
    else
      StepProper(r, s[0], id);
      var a := Step(r, s[0], id);
      var rest := Feed(a.state, s[1..], id);
      Fed(rest.state, a.bodies + rest.bodies)
  }

  lemma {:induction false} FeedProper(r: Receiver, s: seq<byte>, id: byte)
    requires Proper(r)
    ensures Proper(Feed(r, s, id).state)
    decreases |s|
  {
    if s != [] {
      StepProper(r, s[0], id);
      FeedProper(Step(r, s[0], id).state, s[1..], id);
    }
  }

  lemma {:induction false} FeedAppend(r: Receiver, s: seq<byte>, t: seq<byte>, id: byte)
    requires Proper(r)
    ensures Proper(Feed(r, s, id).state)
    ensures var a := Feed(r, s, id);
            Feed(r, s + t, id) == Fed(Feed(a.state, t, id).state, a.bodies + Feed(a.state, t, id).bodies)
    decreases |s|
  {
    FeedProper(r, s, id);
    if s == [] {
      assert s + t == t;
    } else {
      StepProper(r, s[0], id);
      var a := Step(r, s[0], id);
      FeedAppend(a.state, s[1..], t, id);
      assert (s + t)[0] == s[0] && (s + t)[1..] == s[1..] + t;
      Assoc(a.bodies, Feed(a.state, s[1..], id).bodies, Feed(Feed(a.state, s[1..], id).state, t, id).bodies);
    }
  }

  function FeedAll(r: Receiver, chunks: seq<seq<byte>>, id: byte): Fed
    requires Proper(r)
    decreases |chunks|
  {
    if chunks == [] then Fed(r, [])
    else
      FeedProper(r, chunks[0], id);
      var a := Feed(r, chunks[0], id);
      var rest := FeedAll(a.state, chunks[1..], id);
      Fed(rest.state, a.bodies + rest.bodies)
  }

  /** However the stream is cut, the receiver gets the same bodies. */
  lemma {:induction false} ChunksAreInvisible(r: Receiver, chunks: seq<seq<byte>>, id: byte)
    requires Proper(r)
    ensures FeedAll(r, chunks, id) == Feed(r, Flatten(chunks), id)
    decreases |chunks|
  {
    if chunks != [] {
      FeedProper(r, chunks[0], id);
      ChunksAreInvisible(Feed(r, chunks[0], id).state, chunks[1..], id);
      FeedAppend(r, chunks[0], Flatten(chunks[1..]), id);
    }
  }

  // ---------------------------------------------------------------- receiving frames

  /** size with s copied in from position k on. */
  function Splice(size: seq<byte>, k: nat, s: seq<byte>): seq<byte>
    requires k + |s| <= |size|
  {
    size[..k] + s + size[k + |s|..]
  }

  lemma SpliceStep(size: seq<byte>, k: nat, s: seq<byte>)
    requires k + |s| <= |size| && s != []
    ensures Splice(size[k := s[0]], k + 1, s[1..]) == Splice(size, k, s)
  {
  }

  lemma {:induction false} FeedHeaderBytes(r: Receiver, s: seq<byte>, id: byte)
    requires Proper(r) && r.status == Header && r.read + |s| < 4
    ensures Feed(r, s, id) == Fed(r.(read := r.read + |s|, size := Splice(r.size, r.read, s)), [])
    decreases |s|
  {
    if s == [] {
      assert r.size == Splice(r.size, r.read, s);
    } else {
      FeedHeaderBytes(HeaderByte(r, s[0]), s[1..], id);
      SpliceStep(r.size, r.read, s);
      hide Splice;
    }
  }

  lemma {:induction false} FeedBodyBytes(r: Receiver, s: seq<byte>, id: byte)
    requires Proper(r) && r.status == Content && r.read + |s| <= r.length && (s == [] ==> r.read < r.length)
    ensures Feed(r, s, id) == if r.read + |s| < r.length then Fed(r.(read := r.read + |s|, body := r.body + s), [])
                              else Fed(NextHeader(r), [r.body + s])
    decreases |s|
  {
    if s == [] {
      assert r.body + s == r.body;
    } else {
      var a := Step(r, s[0], id);
      assert r.body + s == (r.body + [s[0]]) + s[1..];
      if r.read + 1 < r.length {
        FeedBodyBytes(a.state, s[1..], id);
        assert [] + Feed(a.state, s[1..], id).bodies == Feed(a.state, s[1..], id).bodies;
      } else {
        assert s == [s[0]];
        assert Feed(a.state, s[1..], id) == Fed(a.state, []);
        assert a.bodies + [] == a.bodies;
      }
    }
  }

  function Prepend(bodies: seq<seq<byte>>, f: Fed): Fed { Fed(f.state, bodies + f.bodies) }

  lemma FeedFirst(r: Receiver, s: seq<byte>, id: byte)
    requires Proper(r) && s != []
    ensures Proper(Step(r, s[0], id).state)
    ensures Feed(r, s, id) == Prepend(Step(r, s[0], id).bodies, Feed(Step(r, s[0], id).state, s[1..], id))
  {
    StepProper(r, s[0], id);
  }

  /** The receiver once the four length bytes are complete. */
  function HeaderDone(r: Receiver, s: seq<byte>): Receiver
    requires Proper(r) && r.status == Header && |s| == 4 - r.read
  {
    var size := Splice(r.size, r.read, s);
    if size[0] != 0 then r.(size := size, read := 3, status := Down)
    else Receiver(Content, 0, size, size[1] as int * 0x1_0000 + size[2] as int * 0x100 + size[3] as int, [])
  }

  /** Completing the four length bytes at once. */
  lemma FeedHeaderRest(r: Receiver, s: seq<byte>, id: byte)
    requires Proper(r) && r.status == Header && r.read + |s| >= 4
    ensures var need := 4 - r.read;
            var t := HeaderDone(r, s[..need]);
            Proper(t) && Feed(r, s, id) == Feed(t, s[need..], id)
  {
    hide Feed, Splice;
    var n := 3 - r.read;
    var a := r.(read := 3, size := Splice(r.size, r.read, s[..n]));
    SpliceLength(r.size, r.read, s[..n]);
    FeedHeaderBytes(r, s[..n], id);
    FeedAppend(r, s[..n], s[n..], id);
    assert s == s[..n] + s[n..];
    SpliceLast(r.size, r.read, s, n);
    FeedFirst(a, s[n..], id);
    assert s[n..][1..] == s[n + 1..];
    NoBodies(Feed(a, s[n..], id));
    NoBodies(Feed(HeaderByte(a, s[n]), s[n + 1..], id));
  }

  lemma SpliceLast(size: seq<byte>, k: nat, s: seq<byte>, n: nat)
    requires |size| == 4 && k + n == 3 && n < |s|
    ensures |Splice(size, k, s[..n])| == 4 && Splice(size, k, s[..n + 1]) == Splice(size, k, s[..n])[3 := s[n]]
  {
  }

  lemma SpliceLength(size: seq<byte>, k: nat, s: seq<byte>)
    requires k + |s| <= |size|
    ensures |Splice(size, k, s)| == |size|
  {
  }

  lemma NoBodies(f: Fed)
    ensures Prepend([], f) == f
  {
  }

  /** Completing a body at once. */
  lemma FeedBodyRest(r: Receiver, s: seq<byte>, id: byte)
    requires Proper(r) && r.status == Content && r.read + |s| >= r.length && s != []
    ensures var need := r.length - r.read;
            Feed(r, s, id) == Prepend([r.body + s[..need]], Feed(NextHeader(r), s[need..], id))
  {
    var need := r.length - r.read;
    if need == 0 {
      FeedFirst(r, s, id);
      FeedFirst(NextHeader(r), s, id);
      assert s[0..] == s && r.body + s[..0] == r.body;
      NoBodies(Feed(HeaderByte(NextHeader(r), s[0]), s[1..], id));
    } else {
      FeedBodyBytes(r, s[..need], id);
      FeedAppend(r, s[..need], s[need..], id);
      assert s == s[..need] + s[need..];
    }
  }

  /** A whole length field from a header that starts afresh. */
  lemma FeedLength(r: Receiver, n: uint32, id: byte)
    requires Proper(r) && r.status == Header && r.read == 0
    ensures n <= 0xff_ffff ==> Feed(r, ToBigEndian(n), id) == Fed(Receiver(Content, 0, ToBigEndian(n), n, []), [])
    ensures n > 0xff_ffff ==> Feed(r, ToBigEndian(n), id).state.status == Down
  {
    var b := ToBigEndian(n);
    var s := b[..3];
    FeedHeaderBytes(r, s, id);
    FeedAppend(r, s, [b[3]], id);
    assert b == s + [b[3]];
    var a := Feed(r, s, id).state;
    assert a.size[3 := b[3]] == b;
    assert Feed(a, [b[3]], id) == Fed(HeaderByte(a, b[3]), []);
    BigEndianRoundTrip(n);
  }

  /** The length is the second to fourth byte, the highest first: that many bytes more are a body. */
  lemma LengthIsHighestFirst(r: Receiver, x: byte, y: byte, z: byte, body: seq<byte>, id: byte)
    requires Proper(r) && r.status == Header && r.read == 0
    requires 0 < |body| == x as int * 0x1_0000 + y as int * 0x100 + z as int
    ensures Feed(r, [0, x, y, z] + body, id).bodies == [body]
  {
    hide Feed, ToBigEndian;
    var n := |body|;
    LowBytes(n, x, y, z);
    FeedLength(r, n, id);
    var a := Receiver(Content, 0, ToBigEndian(n), n, []);
    FeedAppend(r, ToBigEndian(n), body, id);
    FeedBodyBytes(a, body, id);
    assert [] + body == body && [] + [body] == [body];
  }

  lemma LowBytes(n: uint32, x: byte, y: byte, z: byte)
    requires n == x as int * 0x1_0000 + y as int * 0x100 + z as int
    ensures ToBigEndian(n) == [0, x, y, z]
  {
    assert n / 0x100_0000 == 0 && n % 0x100 == z as int;
    var q := n / 0x100;
    assert q == x as int * 0x100 + y as int;
    assert n / 0x1_0000 == q / 0x100 == x as int;
  }

  lemma FeedFrame(r: Receiver, m: Message, id: byte)
    requires Proper(r) && r.status == Header && r.read == 0 && Fits(m)
    ensures Feed(r, Frame(m), id) == Fed(Fresh(Header, ToBigEndian(|Body(m)|)), [Body(m)])
  {
    var n := |Body(m)|;
    FeedLength(r, n, id);
    var a := Receiver(Content, 0, ToBigEndian(n), n, []);
    FeedAppend(r, ToBigEndian(n), Body(m), id);
    FeedBodyBytes(a, Body(m), id);
    hide Feed;
    assert [] + Body(m) == Body(m);
    assert [] + [Body(m)] == [Body(m)];
  }

  predicate AllFit(ms: seq<Message>) {
    forall i {:trigger ms[i]} :: 0 <= i < |ms| ==> Fits(ms[i])
  }

  /** What a sequence of sends puts on the wire; send_remote skips what it cannot frame. */
  function Frames(ms: seq<Message>): seq<byte>
    decreases |ms|
  {
    if ms == [] then []
    else (if Sendable(ms[0]) then Frame(ms[0]) else []) + Frames(ms[1..])
  }

  function Bodies(ms: seq<Message>): seq<seq<byte>> {
    seq(|ms|, i requires 0 <= i < |ms| => Body(ms[i]))
  }

  lemma {:induction false} FeedFrames(r: Receiver, ms: seq<Message>, id: byte)
    requires Proper(r) && r.status == Header && r.read == 0
    requires AllFit(ms)
    ensures var f := Feed(r, Frames(ms), id);
            f.bodies == Bodies(ms) && f.state.status == Header && f.state.read == 0
    decreases |ms|
  {
    if ms != [] {
      var a := Fresh(Header, ToBigEndian(|Body(ms[0])|));
      FeedFrame(r, ms[0], id);
      FeedFrames(a, ms[1..], id);
      FeedAppend(r, Frame(ms[0]), Frames(ms[1..]), id);
      assert Bodies(ms) == [Body(ms[0])] + Bodies(ms[1..]);
    }
  }

  /** Round trip: messages whose frames fit, sent one after another and cut into chunks
      anywhere, reach a receiver whose header starts afresh in order, each with its
      source, type, session, payload and 24-bit destination. */
  lemma WireRoundTrip(r: Receiver, ms: seq<Message>, chunks: seq<seq<byte>>, id: byte, harbor: byte)
    requires Proper(r) && r.status == Header && r.read == 0
    requires AllFit(ms) && Flatten(chunks) == Frames(ms)
    ensures var got := FeedAll(r, chunks, id).bodies;
            && |got| == |ms|
            && forall i :: 0 <= i < |ms| ==>
                 |got[i]| >= HEADER_COOKIE_LENGTH && Deliver(got[i], harbor) == Intended(ms[i], harbor)
  {
    ChunksAreInvisible(r, chunks, id);
    FeedFrames(r, ms, id);
    forall i | 0 <= i < |ms|
      ensures |Body(ms[i])| >= HEADER_COOKIE_LENGTH && Deliver(Body(ms[i]), harbor) == Intended(ms[i], harbor)
    {
      DeliveryRoundTrip(ms[i], harbor);
    }
  }

  /** The same over a link that was opened actively: the peer's number comes first. */
  lemma WireRoundTripAfterHandshake(r: Receiver, ms: seq<Message>, chunks: seq<seq<byte>>, id: byte, harbor: byte)
    requires Proper(r) && r.status == Handshake && r.read == 0
    requires AllFit(ms) && Flatten(chunks) == [id] + Frames(ms)
    ensures var got := FeedAll(r, chunks, id).bodies;
            && |got| == |ms|
            && forall i :: 0 <= i < |ms| ==>
                 |got[i]| >= HEADER_COOKIE_LENGTH && Deliver(got[i], harbor) == Intended(ms[i], harbor)
  {
    ChunksAreInvisible(r, chunks, id);
    var a := r.(status := Header);
    FeedAppend(r, [id], Frames(ms), id);
    assert Feed(r, [id], id) == Fed(a, []);
    FeedFrames(a, ms, id);
    assert [] + Bodies(ms) == Bodies(ms);
    forall i | 0 <= i < |ms|
      ensures |Body(ms[i])| >= HEADER_COOKIE_LENGTH && Deliver(Body(ms[i]), harbor) == Intended(ms[i], harbor)
    {
      DeliveryRoundTrip(ms[i], harbor);
    }
  }

  lemma {:induction false} StayAsleep(r: Receiver, s: seq<byte>, id: byte)
    requires Proper(r) && (r.status == Wait || r.status == Down)
    ensures Feed(r, s, id) == Fed(r, [])
    decreases |s|
  {
    if s != [] { StayAsleep(r, s[1..], id); }
  }

  // ---------------------------------------------------------------- where the code falls short

  /** What a connection sends before its first frame, as its receiver sees it. */
  function Hello(r: Receiver, id: byte): seq<byte> { if r.status == Handshake then [id] else [] }

  /** A length that is too long closes the link and leaves what was read of it before the last
      chunk. The next connection of that harbor, opened either way, reads every message if and
      only if nothing was left. */
  lemma ReconnectionReadsIff(r: Receiver, id: byte)
    requires Proper(r) && (r.status == Header || r.status == Handshake)
    ensures (forall m :: Fits(m) ==> Feed(r, Hello(r, id) + Frame(m), id).bodies == [Body(m)]) <==> r.read == 0
  {
    hide Feed, Frame, Body;
    if r.read == 0 {
      forall m | Fits(m)
        ensures Feed(r, Hello(r, id) + Frame(m), id).bodies == [Body(m)]
      {
        PastHello(r, Frame(m), id);
        FeedFrame(r.(status := Header), m, id);
      }
    } else {
      var m := Message(0, 0, 0, 0, []);
      assert Fits(m);
      PastHello(r, Frame(m), id);
      StaleHeaderMisreads(r.(status := Header), m, id);
    }
  }

  lemma PastHello(r: Receiver, s: seq<byte>, id: byte)
    requires Proper(r) && (r.status == Header || r.status == Handshake)
    ensures Feed(r, Hello(r, id) + s, id) == Feed(r.(status := Header), s, id)
  {
    if r.status == Handshake {
      assert ([id] + s)[1..] == s;
      FeedFirst(r, [id] + s, id);
      NoBodies(Feed(r.(status := Header), s, id));
      hide Feed;
    } else {
      assert [] + s == s;
    }
  }

  /** A length in which something other than zero was read first, so that it is too long. */
  predicate Stale(r: Receiver) {
    |r.size| == 4 && r.size[0] != 0 && 0 < r.read < 4 && r.body == []
  }

  /** How many more bytes the stale length takes. */
  function Missing(r: Receiver): int { 4 - r.read + if r.status == Handshake then 1 else 0 }

  /** It delivers nothing, and closes the link with the byte that completes it, if the number
      before it has not done so. */
  lemma StaleLengthCloses(r: Receiver, s: seq<byte>, id: byte)
    requires Proper(r) && Stale(r) && (r.status == Header || r.status == Handshake) && s != []
    ensures
      var f := Feed(r, s, id);
      && f.bodies == [] && f.state.body == [] && |f.state.size| == 4 && f.state.size[0] == r.size[0]
      && f.state.status == (if |s| >= Missing(r) || (r.status == Handshake && s[0] != id) then Down else Header)
      && (f.state.status == Header ==> Stale(f.state) && Missing(f.state) == Missing(r) - |s|)
  {
    hide Feed;
    if r.status == Handshake {
      FeedFirst(r, s, id);
      var t := Step(r, s[0], id).state;
      NoBodies(Feed(t, s[1..], id));
      if t.status == Down { StayDown(t, s[1..], id); } else { StaleHeaderCloses(t, s[1..], id); }
    } else {
      StaleHeaderCloses(r, s, id);
    }
  }

  lemma StaleHeaderCloses(r: Receiver, s: seq<byte>, id: byte)
    requires Proper(r) && Stale(r) && r.status == Header
    ensures
      var f := Feed(r, s, id);
      && f.bodies == [] && f.state.body == [] && |f.state.size| == 4 && f.state.size[0] == r.size[0]
      && f.state.status == (if |s| >= 4 - r.read then Down else Header)
      && (f.state.status == Header ==> Stale(f.state) && f.state.read == r.read + |s|)
  {
    hide Feed;
    if |s| < 4 - r.read {
      FeedHeaderBytes(r, s, id);
    } else {
      var n := 4 - r.read;
      FeedHeaderRest(r, s, id);
      StayDown(HeaderDone(r, s[..n]), s[n..], id);
    }
  }

  /** The length that is pending swallows the first bytes of the frame: no body comes out, or an
      empty one first. */
  lemma StaleHeaderMisreads(r: Receiver, m: Message, id: byte)
    requires Proper(r) && r.status == Header && r.read > 0 && m.payload == []
    ensures Feed(r, Frame(m), id).bodies != [Body(m)]
  {
    hide Feed, ToBigEndian, EncodeCookie, CookieOf, HeaderDone;
    var n := 4 - r.read;
    ShortFrame(m);
    FeedHeaderRest(r, Frame(m), id);
    StaleBody(r, Frame(m)[..n], Frame(m)[n..], id);
  }

  lemma ShortFrame(m: Message)
    requires m.payload == []
    ensures |Frame(m)| == 16 && |Body(m)| == 12 && forall i :: 0 <= i < 3 ==> Frame(m)[i] == 0
  {
    assert ToBigEndian(12) == [0, 0, 0, 12];
  }

  lemma StaleBody(r: Receiver, s: seq<byte>, rest: seq<byte>, id: byte)
    requires Proper(r) && r.status == Header && r.read > 0 && |s| == 4 - r.read && 0 < |rest| < 0x100
    requires forall i :: 0 <= i < |s| ==> s[i] == 0
    ensures Proper(HeaderDone(r, s))
    ensures var bodies := Feed(HeaderDone(r, s), rest, id).bodies; bodies == [] || bodies[0] == []
  {
    var t := HeaderDone(r, s);
    if t.status == Down {
      StayDown(t, rest, id);
    } else if t.length == 0 {
      FeedFirst(t, rest, id);
    } else {
      LongLength(r, s);
      FeedBodyBytes(t, rest, id);
    }
  }

  /** The pending length ends in zeroes. */
  lemma LongLength(r: Receiver, s: seq<byte>)
    requires Proper(r) && r.status == Header && r.read > 0 && |s| == 4 - r.read
    requires forall i :: 0 <= i < |s| ==> s[i] == 0
    requires HeaderDone(r, s).status == Content && HeaderDone(r, s).length != 0
    ensures HeaderDone(r, s).length >= 0x100
  {
  }

  lemma {:induction false} StayDown(r: Receiver, s: seq<byte>, id: byte)
    requires Proper(r) && r.status == Down
    ensures Feed(r, s, id) == Fed(r, [])
    decreases |s|
  {
    if s != [] { StayDown(r, s[1..], id); }
  }

  /** As written, buffers are turned into strings up to their first NUL byte. */
  function CString(b: seq<byte>): seq<byte> {
    if b == [] || b[0] == 0 then [] else [b[0]] + CString(b[1..])
  }

  lemma {:induction false} CStringKeepsAllIff(b: seq<byte>)
    ensures CString(b) == b <==> 0 !in b
  {
    if b != [] {
      CStringKeepsAllIff(b[1..]);
      assert b == [b[0]] + b[1..];
    }
  }

  /** Every frame the receiver would accept starts with a zero byte, so as written none of
      its bytes is sent. */
  lemma FramesAreSentEmptyAsWritten(m: Message)
    requires Sendable(m)
    ensures CString(Frame(m)) == [] <==> |m.payload| + HEADER_COOKIE_LENGTH < 0x100_0000
  {
  }
}
