/** One slave as the harbor updates it: the fields of the receiver and of the sending side,
    with the circular queue that is emptied onto the socket when the link comes up. */
module HarborSlave {
  import opened Basics
  import opened HarborWire
  import opened HarborLink
  import opened HarborQueue
  import opened Seqs

  /** The fields agree with the byte-wise receiver, except that once the link is down
      `read` is what it was when the last chunk came. */
  predicate Agrees(f: Fed, r: Receiver, bodies: seq<seq<byte>>) {
    f.bodies == bodies && (f.state == r || (f.state.status == Down && r == f.state.(read := r.read)))
  }

  class Slave {
    const id: byte
    var fd: int
    var status: Status
    var read: nat
    var size: seq<byte>
    var length: nat
    var body: seq<byte>
    var queue: Queue?<Message>
    var sent: seq<Message>            // what was handed to the socket since the link was last closed

    ghost function Objects(): set<object?>
      reads this`queue, queue
    {
      if queue == null then {} else {queue, queue.data}
    }

    ghost predicate QueueValid()
      reads this`queue, queue, Objects()
    {
      queue != null ==> queue.Valid()
    }

    ghost predicate Valid()
      reads this, queue, Objects()
    {
      Proper(Reading()) && QueueValid()
    }

    /** The receiving side. */
    ghost function Reading(): Receiver
      reads this`status, this`read, this`size, this`length, this`body
    {
      Receiver(status, read, size, length, body)
    }

    /** The sending side. */
    ghost function Sending(): Link
      requires QueueValid()
      reads this, queue, Objects()
    {
      Link(status, fd != 0, if queue == null then None else Some(queue.Contents()), sent)
    }

    constructor (id: byte)
      ensures Valid() && Sending() == NewLink && this.id == id && queue == null
      ensures Reading() == Receiver(Wait, 0, [0, 0, 0, 0], 0, [])
    {
      this.id := id;
      fd, status, queue, sent := 0, Wait, null, [];
      read, size, length, body := 0, [0, 0, 0, 0], 0, [];
    }

    // -------------------------------------------------------------- sending

    method SendRemote(m: Message)
      modifies this`sent
      ensures sent == old(sent) + if Sendable(m) then [m] else []
    {
      if |m.payload| + HEADER_COOKIE_LENGTH > UINT32_MAX {
        assert sent + [] == sent;
        return;
      }
      sent := sent + [m];
    }

    /** dispatch_queue: everything queued goes out, oldest first. */
    method DispatchQueue()
      requires QueueValid() && fd != 0
      modifies this`sent, this`queue, queue
      ensures queue == null && QueueValid()
      ensures Sending() == HarborLink.DispatchQueue(old(Sending()))
    {
      hide Filter, Ring, Proper;
      if queue == null { return; }
      ghost var start, all, taken := Sending(), queue.Contents(), [];
      NothingSent(sent);
      var q := queue;
      while true
        invariant q == queue && q.Valid()
        invariant all == taken + q.Contents()
        invariant sent == start.sent + Filter(taken, CanSend())
        decreases |q.Contents()|
      {
        TakeFirst(all, taken, q.Contents());
        var m := q.Pop();
        if m.None? { break; }
        FilterSnoc(taken, m.value, CanSend());
        SendRemote(m.value);
        taken := taken + [m.value];
      }
      assert all == taken;
      queue := null;
      SendQueueSends(start, all);
    }

    /** close_harbor: socket and queue are gone. What the receiver has read stays. */
    method CloseHarbor()
      modifies this`status, this`fd, this`queue, this`sent
      ensures fd == 0 && queue == null && status == Down && sent == []
    {
      status := Down;
      fd := 0;
      queue := null;
      sent := [];
    }

    /** remote_send_handle to another harbor; false means the caller got an error. */
    method RemoteSendHandle(m: Message) returns (taken: bool)
      requires QueueValid()
      modifies this`queue, this`sent, queue, Objects()
      ensures QueueValid() && Sending() == RemoteSend(old(Sending()), m)
      ensures taken <==> !(old(status) == Down && old(fd) == 0)
      ensures taken && (old(fd) == 0 || old(status) == Handshake) ==>
                queue != null && queue.Contents() == (if old(queue) == null then [] else old(queue.Contents())) + [m]
      ensures taken && old(fd) != 0 && old(status) != Handshake && |m.payload| + 12 <= 0xffff_ffff ==>
                sent == old(sent) + [m]
    {
      hide Ring, Proper;
      if fd == 0 || status == Handshake {
        if status == Down { return false; }
        if queue == null { queue := new Queue<Message>(); }
        queue.Push(m);
        return true;
      }
      SendRemote(m);
      return true;
    }

    /** harbor_command 'S' and 'A'. What the receiver had read of an item when the link was last
        closed is still there: see ReconnectionReadsIff. */
    method Command(newFd: int, active: bool)
      requires QueueValid() && newFd != 0
      modifies this`fd, this`status, this`sent, this`queue, queue
      ensures QueueValid() && Sending() == Open(old(Sending()), active)
      ensures Reading() == old(Reading()).(status := status)
    {
      hide HarborLink.DispatchQueue;
      if fd != 0 { return; }
      fd := newFd;
      if active {
        status := Handshake;
      } else {
        status := Header;
        DispatchQueue();
      }
    }

    // -------------------------------------------------------------- receiving

    /** The kStatusHandshake case. */
    method ReadNumber(buffer: seq<byte>) returns (rest: seq<byte>)
      requires Valid() && fd != 0 && status == Handshake && buffer != []
      modifies this`status, this`fd, this`queue, this`sent, queue
      ensures Valid() && Feed(old(Reading()), buffer, id) == Feed(Reading(), rest, id)
      ensures rest == buffer[1..] && (status == Header || status == Down) && (status == Header ==> fd != 0)
      ensures Sending() == Shaken(old(Sending()), status == Header)
    {
      hide Feed, HarborLink.DispatchQueue;
      FeedFirst(Reading(), buffer, id);
      rest := buffer[1..];
      if buffer[0] != id {
        CloseHarbor();
      } else {
        status := Header;
        DispatchQueue();
      }
      NoBodies(Feed(Reading(), rest, id));
    }

    /** The kStatusHeader case. A length that is too long closes the link and leaves `read` as
        it was. */
    method ReadHeader(buffer: seq<byte>) returns (returned: bool, rest: seq<byte>)
      requires Valid() && status == Header
      modifies this
      ensures Valid() && (!returned ==> rest != [] && |rest| < |buffer| && status == Content)
      ensures returned ==> Agrees(Feed(old(Reading()), buffer, id), Reading(), [])
      ensures !returned ==> Feed(old(Reading()), buffer, id) == Feed(Reading(), rest, id)
      ensures status != Handshake && status != Wait
      ensures status == Down ==> returned && read == old(read) && size[0] != 0
      ensures status == Down ==> Sending() == HarborLink.CloseHarbor(old(Sending()))
      ensures status != Down ==> Sending() == old(Sending()).(status := status)
    {
      hide Feed, Splice;
      ghost var r := Reading();
      var need := 4 - read;
      SpliceLength(size, read, if |buffer| < need then buffer else buffer[..need]);
      if |buffer| < need {
        FeedHeaderBytes(r, buffer, id);
        size := Splice(size, read, buffer);
        read := read + |buffer|;
        return true, [];
      }
      FeedHeaderRest(r, buffer, id);
      size := Splice(size, read, buffer[..need]);
      rest := buffer[need..];
      if size[0] != 0 {
        StayDown(r.(size := size, read := 3, status := Down), rest, id);
        CloseHarbor();
        return true, rest;
      }
      length := size[1] as int * 0x1_0000 + size[2] as int * 0x100 + size[3] as int;
      read := 0;
      status := Content;
      FeedNothing(Reading(), id);
      returned := rest == [];
    }

    /** The kStatusContent case. */
    method ReadContent(buffer: seq<byte>) returns (returned: bool, rest: seq<byte>, bodies: seq<seq<byte>>)
      requires Valid() && status == Content && buffer != []
      modifies this`status, this`read, this`length, this`body
      ensures Valid() && (status == Header || status == Content)
      ensures !returned ==> rest != [] && |rest| <= |buffer| && status == Header && read == 0 && bodies != []
      ensures Feed(old(Reading()), buffer, id)
           == if returned then Fed(Reading(), bodies) else Prepend(bodies, Feed(Reading(), rest, id))
      ensures Sending() == old(Sending()).(status := status)
    {
      hide Feed;
      ghost var r := Reading();
      var need := length - read;
      if |buffer| < need {
        FeedBodyBytes(r, buffer, id);
        body := body + buffer;
        read := read + |buffer|;
        return true, [], [];
      }
      FeedBodyRest(r, buffer, id);
      bodies := [body + buffer[..need]];
      length, read, body := 0, 0, [];
      rest := buffer[need..];
      status := Header;
      FeedNothing(Reading(), id);
      returned := rest == [];
    }

    /** push_socket_data on a chunk for this slave's socket: returns the bodies passed to
        forward_local_messsage, and does to the fields what feeding the bytes one by one does
        and what the outcome means for socket and queue. */
    method PushSocketData(chunk: seq<byte>) returns (bodies: seq<seq<byte>>)
      requires Valid() && fd != 0 && chunk != []
      modifies this, queue
      ensures Valid() && Agrees(Feed(old(Reading()), chunk, id), Reading(), bodies)
      ensures Sending() == Taken(old(Sending()), old(Reading()), chunk, id)
      ensures status == Down && old(status) != Down ==> read == if bodies == [] then old(read) else 0
    {
      hide Feed, Splice, Proper, HarborLink.DispatchQueue, Ring;
      bodies := [];
      if status == Wait || status == Down {
        StayAsleep(Reading(), chunk, id);
        return;
      }
      var rest := chunk;
      ghost var l := Sending();
      ghost var up := if status == Handshake then HarborLink.DispatchQueue(l) else l;
      if status == Handshake {
        DispatchIgnoresStatus(l);
        rest := ReadNumber(chunk);
      }
      NoBodies(Feed(Reading(), rest, id));
      var returned := false;
      if status == Down {
        StayDown(Reading(), rest, id);
        return;
      }
      while !returned
        invariant Valid() && status != Wait && status != Handshake
        invariant status == Down ==> returned && Sending() == HarborLink.CloseHarbor(l)
        invariant status != Down ==> Sending() == up.(status := status)
        invariant returned ==> Agrees(Feed(old(Reading()), chunk, id), Reading(), bodies)
        invariant !returned ==> Feed(old(Reading()), chunk, id) == Prepend(bodies, Feed(Reading(), rest, id))
        invariant rest == [] && !returned ==> status == Header
        invariant status == Header && !returned && bodies != [] ==> read == 0
        invariant status == Header && !returned && bodies == [] ==> read == old(read)
        invariant status == Down ==> read == if bodies == [] then old(read) else 0
        decreases !returned, |rest|, status != Header
      {
        ghost var sofar := bodies;
        if status == Header {
          returned, rest := ReadHeader(rest);
          assert sofar + [] == sofar;
        } else {
          var more;
          returned, rest, more := ReadContent(rest);
          bodies := bodies + more;
          Assoc(sofar, more, Feed(Reading(), rest, id).bodies);
        }
      }
    }
  }

  /** A slave whose length was too long and came in pieces: the link is closed, and the piece that
      was read first is still there. */
  method StaleIsReachable(id: byte, first: byte, rest: seq<byte>) returns (s: Slave)
    requires first != 0 && |rest| >= 3
    ensures fresh(s) && s.QueueValid() && s.queue == null && s.id == id
    ensures s.status == Down && Stale(s.Reading())
  {
    s := new Slave(id);
    s.Command(1, false);
    FeedHeaderBytes(s.Reading(), [first], id);
    var none := s.PushSocketData([first]);
    StaleHeaderCloses(s.Reading(), rest, id);
    none := s.PushSocketData(rest);
  }

  datatype Connection = Connection(fd: int, active: bool, chunks: seq<seq<byte>>)

  /** A connection that sends at least a number and a length, in chunks of any size. */
  predicate Talks(c: Connection) {
    c.fd != 0 && [] !in c.chunks && |Flatten(c.chunks)| >= 5
  }

  /** It is opened and what it sends is fed to the slave. Data for a closed socket is ignored. */
  method Connect(s: Slave, c: Connection) returns (bodies: seq<seq<byte>>)
    requires s.QueueValid() && s.queue == null && s.status == Down && s.fd == 0 && Stale(s.Reading()) && Talks(c)
    modifies s
    ensures s.QueueValid() && s.queue == null && s.status == Down && s.fd == 0 && Stale(s.Reading())
    ensures bodies == []
  {
    hide Feed;
    s.Command(c.fd, c.active);
    bodies := [];
    var k := 0;
    while k < |c.chunks|
      invariant k <= |c.chunks| && s.QueueValid() && s.queue == null && Stale(s.Reading()) && bodies == []
      invariant s.status == Down || s.status == Header || s.status == Handshake
      invariant s.fd == 0 <==> s.status == Down
      invariant s.status != Down ==> |Flatten(c.chunks[k..])| >= Missing(s.Reading())
    {
      assert c.chunks[k] in c.chunks;
      assert Flatten(c.chunks[k..]) == c.chunks[k] + Flatten(c.chunks[k + 1..]);
      if s.fd != 0 {
        StaleLengthCloses(s.Reading(), c.chunks[k], s.id);
        var more := s.PushSocketData(c.chunks[k]);
        bodies := bodies + more;
      }
      k := k + 1;
    }
  }

  /** Every later connection of that harbor is closed, whatever it sends, and leaves the next one
      to the same fate. */
  method ConnectAll(s: Slave, cs: seq<Connection>) returns (bodies: seq<seq<byte>>, closed: nat)
    requires s.QueueValid() && s.queue == null && s.status == Down && s.fd == 0 && Stale(s.Reading())
    requires forall c :: c in cs ==> Talks(c)
    modifies s
    ensures s.status == Down && s.fd == 0 && Stale(s.Reading()) && bodies == [] && closed == |cs|
  {
    bodies, closed := [], 0;
    while closed < |cs|
      invariant closed <= |cs| && bodies == []
      invariant s.QueueValid() && s.queue == null && s.status == Down && s.fd == 0 && Stale(s.Reading())
    {
      var more := Connect(s, cs[closed]);
      bodies := bodies + more;
      if s.status == Down { closed := closed + 1; }
    }
  }

  lemma NothingSent(sent: seq<Message>)
    ensures Filter([], CanSend()) == [] && sent + Filter([], CanSend()) == sent
  {
  }

  lemma FeedNothing(r: Receiver, id: byte)
    requires Proper(r)
    ensures Feed(r, [], id) == Fed(r, [])
  {
  }

  lemma TakeFirst(all: seq<Message>, taken: seq<Message>, left: seq<Message>)
    requires all == taken + left
    ensures left != [] ==> all == (taken + [left[0]]) + left[1..]
  {
  }
}
