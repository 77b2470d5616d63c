/** The routing of a slave's outgoing messages through wait, handshake and connected phases,
    joined to the receiver at the other end. */
module HarborLink {
  import opened Basics
  import opened Seqs
  import opened HarborWire

  /** The sending side of a slave. `sent` is what went on the wire since the link was last closed. */
  datatype Link = Link(status: Status, fd: bool, queue: Option<seq<Message>>, sent: seq<Message>)

  const NewLink := Link(Wait, false, None, [])

  /** Messages whose frame has a length that four bytes hold. */
  function CanSend(): Message -> bool { (m: Message) => |m.payload| + 12 <= 0xffff_ffff }

  /** send_remote drops what cannot be framed at all. */
  function SendRemote(l: Link, m: Message): Link {
    if Sendable(m) then l.(sent := l.sent + [m]) else l
  }

  function SendQueue(l: Link, ms: seq<Message>): Link
    decreases |ms|
  {
    if ms == [] then l else SendQueue(SendRemote(l, ms[0]), ms[1..])
  }

  function DispatchQueue(l: Link): Link {
    match l.queue
    case None => l
    case Some(ms) => SendQueue(l, ms).(queue := None)
  }

  /** remote_send_handle for another harbor. On a link that is down the caller gets an error. */
  function RemoteSend(l: Link, m: Message): Link {
    if !l.fd || l.status == Handshake then
      if l.status == Down then l
      else l.(queue := Some((if l.queue.None? then [] else l.queue.value) + [m]))
    else SendRemote(l, m)
  }

  /** 'S' opens actively and waits for the peer's number; 'A' is ready at once. */
  function Open(l: Link, active: bool): Link {
    if l.fd then l
    else if active then l.(fd := true, status := Handshake)
    else DispatchQueue(l.(fd := true, status := Header))
  }

  function CloseHarbor(l: Link): Link { Link(Down, false, None, []) }

  function Shaken(l: Link, good: bool): Link {
    if l.status != Handshake then l
    else if good then DispatchQueue(l.(status := Header))
    else CloseHarbor(l)
  }

  /** The receive loop goes back and forth between header and content. */
  function Received(l: Link, content: bool): Link {
    if l.status == Header || l.status == Content then l.(status := if content then Content else Header) else l
  }

  /** What a chunk does to the sending side, given where it leaves the receiver: the right number
      empties the queue onto the socket, and an error closes everything. */
  function Taken(l: Link, r: Receiver, chunk: seq<byte>, id: byte): Link
    requires Proper(r)
  {
    if r.status == Wait || r.status == Down then l
    else
      var end := Feed(r, chunk, id).state.status;
      if end == Down then CloseHarbor(l)
      else (if r.status == Handshake && end != Handshake then DispatchQueue(l) else l).(status := end)
  }

  datatype Event =
    | Sending(m: Message)
    | Opening(active: bool)
    | Shaking(good: bool)
    | Receiving(content: bool)
    | Closing

  function Next(l: Link, e: Event): Link {
    match e
    case Sending(m) => RemoteSend(l, m)
    case Opening(active) => Open(l, active)
    case Shaking(good) => Shaken(l, good)
    case Receiving(content) => Received(l, content)
    case Closing => CloseHarbor(l)
  }

  function After(es: seq<Event>): Link {
    if |es| == 0 then NewLink else Next(After(es[..|es| - 1]), es[|es| - 1])
  }

  function Queued(l: Link): seq<Message> { if l.queue.None? then [] else l.queue.value }

  // ---------------------------------------------------------------- what was handed over, by the events alone

  /** Where a link is by its events: it was never opened, waits for its peer's number, is up, or
      was closed. */
  datatype Phase = Unopened | Greeting | Up | Closed

  function PhaseAfter(es: seq<Event>): Phase {
    if |es| == 0 then Unopened
    else
      var p := PhaseAfter(es[..|es| - 1]);
      match es[|es| - 1]
      case Opening(active) => if p.Greeting? || p.Up? then p else if active then Greeting else Up
      case Shaking(good) => if !p.Greeting? then p else if good then Up else Closed
      case Closing => Closed
      case _ => p
  }

  /** The messages that callers handed over since the link was last closed. One that is handed to a
      closed link is refused. */
  function Handed(es: seq<Event>): seq<Message> {
    if |es| == 0 then []
    else
      var before := es[..|es| - 1];
      match es[|es| - 1]
      case Sending(m) => if PhaseAfter(before).Closed? then Handed(before) else Handed(before) + [m]
      case Closing => []
      case Shaking(good) => if PhaseAfter(before).Greeting? && !good then [] else Handed(before)
      case _ => Handed(before)
  }

  /** A link that is up has nothing queued, one that is closed neither socket nor queue, and every
      message handed over that can be framed is on the wire or queued, once and in order. */
  predicate LinkInv(l: Link, p: Phase, handed: seq<Message>) {
    && (l.status == Wait <==> p == Unopened) && (l.status == Handshake <==> p == Greeting)
    && (l.status == Header || l.status == Content <==> p == Up) && (l.status == Down <==> p == Closed)
    && (l.fd <==> p == Greeting || p == Up)
    && (p == Up || p == Closed ==> l.queue == None)
    && (p != Up ==> l.sent == [])
    && l.sent + Filter(Queued(l), CanSend()) == Filter(handed, CanSend())
  }

  lemma {:induction false} SendQueueSends(l: Link, ms: seq<Message>)
    ensures SendQueue(l, ms) == l.(sent := l.sent + Filter(ms, CanSend()))
    decreases |ms|
  {
    if ms == [] {
      assert l.sent + [] == l.sent;
    } else {
      SendQueueSends(SendRemote(l, ms[0]), ms[1..]);
      Assoc(l.sent, if Sendable(ms[0]) then [ms[0]] else [], Filter(ms[1..], CanSend()));
      assert l.sent + [] == l.sent;
    }
  }

  lemma DispatchQueueKeeps(l: Link, handed: seq<Message>)
    requires l.sent + Filter(Queued(l), CanSend()) == Filter(handed, CanSend())
    ensures DispatchQueue(l) == l.(queue := None, sent := Filter(handed, CanSend()))
  {
    SendQueueSends(l, Queued(l));
    assert Filter([], CanSend()) == [] && l.sent + [] == l.sent;
  }

  lemma NoFilter(sent: seq<Message>, one: seq<Message>)
    ensures Filter([], CanSend()) == [] && sent + [] == sent && (sent + one) + [] == sent + one
  {
  }

  lemma SendingKeeps(l: Link, p: Phase, handed: seq<Message>, m: Message)
    requires LinkInv(l, p, handed)
    ensures LinkInv(RemoteSend(l, m), p, if p.Closed? then handed else handed + [m])
  {
    hide Filter;
    var one := if CanSend()(m) then [m] else [];
    FilterSnoc(handed, m, CanSend());
    FilterSnoc(Queued(l), m, CanSend());
    NoFilter(l.sent, one);
    Assoc(l.sent, Filter(Queued(l), CanSend()), one);
  }

  lemma NextKeepsLink(es: seq<Event>, e: Event)
    requires LinkInv(After(es), PhaseAfter(es), Handed(es))
    ensures LinkInv(Next(After(es), e), PhaseAfter(es + [e]), Handed(es + [e]))
  {
    hide Filter, After, DispatchQueue, RemoteSend;
    var l, p, handed := After(es), PhaseAfter(es), Handed(es);
    assert (es + [e])[..|es|] == es && (es + [e])[|es|] == e;
    NoFilter([], Filter(handed, CanSend()));
    match e
    case Sending(m) => SendingKeeps(l, p, handed, m);
    case Opening(active) => DispatchQueueKeeps(l.(fd := true, status := Header), handed);
    case Shaking(good) => DispatchQueueKeeps(l.(status := Header), handed);
    case _ =>
  }

  /** A chunk is a shake, a close and a change between header and content, so every run of the
      slave is a run of these events. */
  lemma ChunkIsEvents(l: Link, r: Receiver, chunk: seq<byte>, id: byte)
    requires Proper(r) && chunk != [] && l.status == r.status
    ensures var end := Feed(r, chunk, id).state.status;
            && end != Handshake && (end == Wait <==> r.status == Wait)
            && (r.status == Wait || r.status == Down ==> Taken(l, r, chunk, id) == l)
            && (r.status == Handshake ==>
                  var shaken := Next(l, Shaking(chunk[0] == id));
                  Taken(l, r, chunk, id) == Next(shaken, if end == Down then Closing else Receiving(end == Content)))
            && (r.status == Header || r.status == Content ==>
                  Taken(l, r, chunk, id) == Next(l, if end == Down then Closing else Receiving(end == Content)))
  {
    EndOfChunk(r, chunk, id);
    hide Feed;
    if r.status == Handshake { DispatchKeepsStatus(l.(status := Header)); DispatchIgnoresStatus(l); }
    hide DispatchQueue;
  }

  lemma DispatchKeepsStatus(l: Link)
    ensures DispatchQueue(l).status == l.status
  {
    SendQueueSends(l, Queued(l));
  }

  lemma DispatchIgnoresStatus(l: Link)
    ensures DispatchQueue(l.(status := Header)) == DispatchQueue(l).(status := Header)
  {
    SendQueueSends(l, Queued(l));
    SendQueueSends(l.(status := Header), Queued(l));
  }

  /** No chunk leaves the receiver in the handshake, and none wakes it. */
  lemma EndOfChunk(r: Receiver, s: seq<byte>, id: byte)
    requires Proper(r) && s != []
    ensures var end := Feed(r, s, id).state.status;
            && end != Handshake && (end == Wait <==> r.status == Wait)
            && (r.status == Handshake && s[0] != id ==> end == Down)
  {
    FeedFirst(r, s, id);
    StaysOn(Step(r, s[0], id).state, s[1..], id);
  }

  lemma {:induction false} StaysOn(r: Receiver, s: seq<byte>, id: byte)
    requires Proper(r) && r.status != Handshake
    ensures var end := Feed(r, s, id).state.status;
            end != Handshake && (end == Wait <==> r.status == Wait) && (r.status == Down ==> end == Down)
    decreases |s|
  {
    if s != [] {
      FeedFirst(r, s, id);
      StaysOn(Step(r, s[0], id).state, s[1..], id);
    }
  }

  /** In every run the link is where its events say, and what was handed over is on the wire or
      queued. */
  lemma {:induction false} EveryLink(es: seq<Event>)
    ensures LinkInv(After(es), PhaseAfter(es), Handed(es))
  {
    if |es| == 0 {
      NoFilter([], []);
    } else {
      var before, e := es[..|es| - 1], es[|es| - 1];
      EveryLink(before);
      NextKeepsLink(before, e);
      assert before + [e] == es;
    }
  }

  /** For every run of the link: what was handed over goes on the wire in that order, none lost or
      duplicated, across wait, handshake and connection. */
  lemma HandedMessagesGoOutInOrder(es: seq<Event>)
    ensures var l := After(es);
            && l.sent + Filter(Queued(l), CanSend()) == Filter(Handed(es), CanSend())
            && (PhaseAfter(es).Up? ==> l.sent == Filter(Handed(es), CanSend()))
  {
    EveryLink(es);
    var l := After(es);
    assert Filter([], CanSend()) == [];
    assert l.sent + [] == l.sent;
    hide After, Filter;
  }

  /** End to end: once the link is up, whatever its peer makes of the bytes so far, cut anywhere, is
      exactly what was handed over, in order. A peer that waits for a number gets it first; for one
      that was opened as ready its owner has read the number already. */
  lemma HandedMessagesArrive(es: seq<Event>, peer: Receiver, chunks: seq<seq<byte>>, id: byte, harbor: byte)
    requires PhaseAfter(es).Up? && AllFit(Handed(es))
    requires Proper(peer) && peer.read == 0 && (peer.status == Handshake || peer.status == Header)
    requires Flatten(chunks) == (if peer.status == Handshake then [id] else []) + Frames(After(es).sent)
    ensures var got, ms := FeedAll(peer, chunks, id).bodies, Handed(es);
            && |got| == |ms|
            && forall i :: 0 <= i < |ms| ==>
                 |got[i]| >= HEADER_COOKIE_LENGTH && Deliver(got[i], harbor) == Intended(ms[i], harbor)
  {
    hide After, Filter, Fits, Sendable, Frames, Handed, PhaseAfter;
    HandedMessagesGoOutInOrder(es);
    var ms := Handed(es);
    FittingAreSent(ms);
    if peer.status == Handshake {
      WireRoundTripAfterHandshake(peer, ms, chunks, id, harbor);
    } else {
      assert [] + Frames(ms) == Frames(ms);
      WireRoundTrip(peer, ms, chunks, id, harbor);
    }
  }

  lemma FittingAreSent(ms: seq<Message>)
    requires AllFit(ms)
    ensures Filter(ms, CanSend()) == ms
  {
    forall m | m in ms
      ensures CanSend()(m)
    {
      var i :| 0 <= i < |ms| && ms[i] == m;
      assert Fits(ms[i]);
    }
    FilterAll(ms, CanSend());
  }
}
