/** What every step of the socket protocol keeps. */
module SocketInvariants {
  import opened Basics
  import opened SocketSlot
  import opened SocketServer

  // ---------------------------------------------------------------- the invariants

  /** Which package is on the wire in part: it is in the hands of the lock holder, or in
      the direct-write buffer, or at the head of the high list. */
  function InHand(high: seq<WriteBuffer>, dw: Option<WriteBuffer>, lock: Holder): Option<WriteBuffer> {
    match lock
    case Looked => None
    case Checked(_) => None
    case Wrote(p, n) => Partial(WriteBuffer(p, n))
    case Unlocked => if dw.Some? then Partial(dw.value) else HeadPartial(high)
  }

  predicate Untouched(list: seq<WriteBuffer>) {
    forall i :: 0 <= i < |list| ==> list[i].offset == 0
  }


  /** Apart from the package in hand nothing that is queued has been started. */
  predicate Lists(high: seq<WriteBuffer>, low: seq<WriteBuffer>, dw: Option<WriteBuffer>, lock: Holder) {
    && HeadOnly(high) && Untouched(low) && AllLow(low)
    && (dw.Some? ==> dw.value.Ok())
    && (lock.Wrote? ==> lock.n < |lock.pkg.data|)
    && (lock != Unlocked ==> dw == None)
    && (lock != Unlocked || dw.Some? ==> HeadPartial(high) == None)
  }

  predicate Shape(s: Socket, lock: Holder) {
    && Lists(s.high, s.low, s.dw, lock)
    && (!Live(s) ==> s.high == [] && s.low == [] && s.dw == None && lock == Unlocked)
    && (s.ty == Reserve ==> s.chan == NewChannel)
    && (Live(s) ==> s.chan.part == InHand(s.high, s.dw, lock))
    && (Live(s) && s.closing ==> s.ty == HalfCloseRead)
  }

  lemma NothingQueued()
    ensures Lists([], [], None, Unlocked) && InHand([], None, Unlocked) == None && Unsent([]) == 0
    ensures WholePackages(NewChannel)
  {
  }

  predicate SizeKept(s: Socket) {
    Live(s) ==> s.wbSize == Unsent(s.high) + Unsent(s.low)
  }

  /** The wire, the partial package and the byte count of one slot. */
  predicate SlotInv(s: Socket, lock: Holder) {
    Shape(s, lock) && WholePackages(s.chan) && SizeKept(s)
  }

  /** A slot whose close is decided: both lists are freed, a worker may still be at work. */
  predicate ClosingInv(s: Socket, lock: Holder, c: Closing) {
    && Live(s) && s.high == [] && s.low == []
    && (s.dw.Some? ==> s.dw.value.Ok())
    && (lock.Wrote? ==> lock.n < |lock.pkg.data|)
    && (lock != Unlocked ==> s.dw == None)
    && (s.closing ==> s.ty == HalfCloseRead)
    && (c.report == Close ==> s.ty != HalfCloseRead)
    && c.report in {Quiet, Close, Err}
    && PartOk(s.chan)
  }

  /** A partial package has some of its bytes on the wire, and not all. */
  predicate PartOk(c: Channel) {
    c.part.Some? ==> 0 < c.part.value.offset < |c.part.value.pkg.data|
  }

  /** The bytes that the completed packages and the partial one account for. */
  function Covered(c: Channel): seq<byte> { Payload(c.done) + PartialBytes(c.part) }

  /** The wire holds exactly those bytes, or, once torn, more. */
  predicate WireInv(c: Channel, torn: bool) {
    if torn then |c.wire| > |Covered(c)| else WholePackages(c)
  }

  /** Only a closed slot outlives a torn wire. */
  predicate SlotState(s: Socket, lock: Holder, pending: Option<Closing>, torn: bool) {
    && WireInv(s.chan, torn)
    && match pending
       case Some(c) => ClosingInv(s, lock, c)
       case None => if torn then Shape(s, lock) && s.ty == Invalid else SlotInv(s, lock)
  }

  predicate HasData(s: Socket) { s.high != [] || s.low != [] || s.dw.Some? }

  /** Nothing is stranded: queued data has the write event on or a 'W' on its way. */
  predicate Awake(w: World) {
    Live(w.sock) && w.sock.ty != HalfCloseWrite && HasData(w.sock) ==>
      w.sock.writing || w.aboutToTrigger[w.sock.id] > 0 || ReqTrigger(w.sock.id) in w.pipe
  }

  /** The packages waiting in the pipe for this id, oldest first. */
  function Posted(pipe: seq<Request>, id: nat): seq<Package> {
    if |pipe| == 0 then [] else PostedBy(pipe[0], id) + Posted(pipe[1..], id)
  }

  function PostedBy(q: Request, id: nat): seq<Package> {
    if q.ReqSend? && q.id == id then [q.pkg] else []
  }

  /** Sends for the current id between IncSendingRef and the end of their handling. */
  function InFlight(w: World): nat {
    w.aboutToSend[w.sock.id] + |Posted(w.pipe, w.sock.id)|
  }

  /** `sending` counts the sends in flight for its id, except those it never counted. */
  predicate CountOk(s: Socket, uncounted: nat, inFlight: int) {
    && (Live(s) ==> s.tcp)
    && (s.ty == Reserve ==> !s.tcp && uncounted == inFlight)
    && (s.tcp ==> s.tag == s.id && s.sending + uncounted == inFlight)
    && s.sending <= 0xffff
  }

  predicate Counted(w: World) { CountOk(w.sock, w.uncounted, InFlight(w)) }

  predicate KnownPipe(pipe: seq<Request>, id: nat) {
    forall i :: 0 <= i < |pipe| ==> pipe[i].id <= id
  }

  /** No caller holds an id that is not published yet. */
  ghost predicate KnownCallers(callers: multiset<nat>, id: nat, about: bool) {
    (forall k :: k in callers ==> k <= id) && (about ==> id !in callers)
  }

  ghost predicate KnownIds(w: World) {
    && KnownPipe(w.pipe, w.sock.id)
    && KnownCallers(w.aboutToSend, w.sock.id, w.aboutToOpen)
    && KnownCallers(w.aboutToTrigger, w.sock.id, w.aboutToOpen)
  }

  /** A reserved slot has its opening request ahead of every other request for the same
      id, or still to come before any of them. */
  ghost predicate OpenRequests(pipe: seq<Request>, id: nat, reserved: bool, about: bool) {
    && (about ==> reserved && forall i :: 0 <= i < |pipe| ==> pipe[i].id < id)
    && (!reserved || about ==> forall i :: 0 <= i < |pipe| ==> !pipe[i].ReqOpen?)
    && (reserved && !about ==> exists i :: 0 <= i < |pipe| && OpensAt(pipe, i, id))
  }

  ghost predicate OpensFirst(w: World) {
    KnownIds(w) && OpenRequests(w.pipe, w.sock.id, w.sock.ty == Reserve, w.aboutToOpen)
  }

  predicate OpensAt(pipe: seq<Request>, i: nat, id: nat)
    requires i < |pipe|
  {
    && pipe[i] == ReqOpen(id)
    && (forall j :: 0 <= j < i ==> pipe[j].id < id)
    && (forall j :: 0 <= j < |pipe| && j != i ==> !pipe[j].ReqOpen?)
  }

  /** kSocketClose comes at most once per id, and no data after it. */
  predicate CloseIsLast(events: seq<Event>) {
    forall i, j :: 0 <= i < j < |events| && events[i].kind == Close && events[j].id == events[i].id ==>
      events[j].kind != Close && events[j].kind != Data
  }

  ghost predicate Closed(w: World) {
    && CloseIsLast(w.events)
    && (forall e :: e in w.events ==> e.id <= w.sock.id)
    && (Event(Close, w.sock.id) in w.events ==> w.sock.ty == HalfCloseRead || w.sock.ty == Invalid)
    && (w.sock.ty == HalfCloseRead ==> Event(Close, w.sock.id) in w.events)
  }

  ghost predicate Inv(w: World) {
    && SlotState(w.sock, w.lock, w.pending, w.torn) && Awake(w)
    && Counted(w) && OpensFirst(w) && Closed(w)
  }

  // ---------------------------------------------------------------- the slot

  predicate SlotOk(s: Socket) { SlotInv(s, Unlocked) }

  /** What flushing may change besides the lists and the wire. */
  predicate SendEffect(s: Socket, r: Socket) {
    && r.id == s.id && r.tcp == s.tcp && r.tag == s.tag && r.sending == s.sending && r.closing == s.closing
    && r.dw == None
    && (r.ty == s.ty || r.ty == Invalid || (r.ty == HalfCloseWrite && s.ty != HalfCloseRead))
    && (Live(r) && r.ty != HalfCloseWrite && HasData(r) ==> r.writing == s.writing && HasData(s))
  }

  lemma CloseWriteKeeps(s: Socket)
    requires SlotOk(s) && Live(s) && s.dw == None
    ensures SlotOk(CloseWrite(s).0) && SendEffect(s, CloseWrite(s).0)
  {
    NothingQueued();
    hide WholePackages, Lists, InHand, Unsent;
  }

  lemma DrainedKeeps(s: Socket, epollOk: bool)
    requires SlotOk(s) && Live(s) && !HasData(s)
    ensures SlotOk(Drained(s, epollOk).0) && SendEffect(s, Drained(s, epollOk).0)
  {
    NothingQueued();
    hide WholePackages, Lists, InHand, Unsent;
  }

  /** The low list has just been flushed with the high list empty: its head may be partly
      written until `RaiseUncomplete` moves it. */
  predicate LowFlushed(s: Socket) {
    && s.dw == None && Live(s) && s.high == [] && (s.closing ==> s.ty == HalfCloseRead)
    && HeadOnly(s.low) && AllLow(s.low) && s.chan.part == HeadPartial(s.low)
    && WholePackages(s.chan) && SizeKept(s)
  }

  lemma FlushLowReaches(s: Socket, ks: seq<WriteResult>)
    requires SlotOk(s) && Live(s) && s.dw == None && s.high == []
    ensures var f := Flush(s.low, s.chan, ks);
            LowFlushed(WithLow(s, f)) && (f.failed ==> Untouched(f.list))
  {
    FlushKeepsPackagesWhole(s.low, s.chan, ks);
    FlushCountsBytes(s.low, s.chan, ks);
    FlushLowShape(s.low, s.chan, ks);
    hide WholePackages, Flush, Unsent, AllLow;
  }

  lemma RaiseKeeps(s: Socket)
    requires LowFlushed(s) && s.low != []
    ensures SlotOk(RaiseUncomplete(s)) && SendEffect(s, RaiseUncomplete(s))
  {
    hide WholePackages;
    assert Unsent([s.low[0]]) == s.low[0].Unsent();
  }

  lemma LowFlushedOk(s: Socket)
    requires LowFlushed(s) && !ListUncomplete(s.low)
    ensures SlotOk(s)
  {
    hide WholePackages, Unsent;
  }

  lemma FlushLowKeeps(s: Socket, ks: seq<WriteResult>, epollOk: bool)
    requires SlotOk(s) && Live(s) && s.dw == None && s.high == []
    ensures var r := FlushLow(s, ks, epollOk).0; SlotOk(r) && SendEffect(s, r)
  {
    FlushLowReaches(s, ks);
    var f := Flush(s.low, s.chan, ks);
    var s2 := WithLow(s, f);
    hide WholePackages, Flush, CloseWrite, Drained, RaiseUncomplete, SlotOk, LowFlushed;
    if !ListUncomplete(s2.low) { LowFlushedOk(s2); }
    if f.failed {
      CloseWriteKeeps(s2);
    } else if ListUncomplete(s2.low) {
      RaiseKeeps(s2);
    } else if s2.low == [] {
      DrainedKeeps(s2, epollOk);
    }
  }

  lemma {:induction false} FlushLowShape(list: seq<WriteBuffer>, c: Channel, ks: seq<WriteResult>)
    requires AllOk(list) && AllLow(list) && Untouched(list)
    ensures var r := Flush(list, c, ks);
            AllLow(r.list) && (r.failed ==> Untouched(r.list))
  {
    if |list| > 0 && |ks| > 0 && ks[0].Accept? && ks[0].n >= list[0].Unsent() {
      FlushLowShape(list[1..], Emit(c, list[0], list[0].Unsent()), ks[1..]);
    }
  }

  lemma FlushHighKeeps(s: Socket, ks: seq<WriteResult>)
    requires SlotOk(s) && Live(s) && s.dw == None
    ensures SlotOk(WithHigh(s, Flush(s.high, s.chan, ks)))
  {
    FlushKeepsPackagesWhole(s.high, s.chan, ks);
    FlushCountsBytes(s.high, s.chan, ks);
    hide WholePackages, Flush, Unsent;
  }

  lemma FlushBothKeeps(s: Socket, ks: seq<WriteResult>, epollOk: bool)
    requires SlotOk(s) && Live(s) && s.dw == None
    ensures var r := FlushBoth(s, ks, epollOk).0; SlotOk(r) && SendEffect(s, r)
  {
    FlushHighKeeps(s, ks);
    var f := Flush(s.high, s.chan, ks);
    hide Flush, FlushLow, CloseWrite, Drained, Shape, SizeKept, WholePackages;
    var s1 := WithHigh(s, f);
    if f.failed {
      CloseWriteKeeps(s1);
    } else if s1.high == [] && s1.low != [] {
      FlushLowKeeps(s1, f.rest, epollOk);
    } else if s1.high == [] {
      DrainedKeeps(s1, epollOk);
    }
  }

  lemma SendBufferKeeps(s: Socket, ks: seq<WriteResult>, epollOk: bool)
    requires SlotOk(s) && Live(s)
    ensures BuffersOk(s)
    ensures var r := SendBuffer(s, ks, epollOk).0; SlotOk(r) && SendEffect(s, r)
  {
    FlushBothKeeps(TakeDirect(s), ks, epollOk);
  }
}
