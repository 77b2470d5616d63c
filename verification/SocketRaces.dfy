/** Reachable states in which the socket server falls short, one for each condition that the
    theorems name. */
module SocketRaces {
  import opened Basics
  import opened SocketSlot
  import opened SocketServer
  import opened SocketInvariants
  import opened SocketSteps
  import opened SocketOrder
  import opened SocketTheorems
  import opened SocketClose
  import opened SocketSenders
  import opened SocketCallers

  ghost predicate Reachable(w: World) {
    exists ws, acts :: Run(ws, acts) && ws[|acts|] == w
  }

  lemma ReachNext(w: World, a: Action)
    requires Reachable(w) && Enabled(w, a)
    ensures Reachable(Next(w, a))
  {
    hide Enabled, Next;
    var ws, acts :| Run(ws, acts) && ws[|acts|] == w;
    assert Run(ws + [Next(w, a)], acts + [a]);
  }

  // ---------------------------------------------------------------- single steps, spelled out

  const FIRST := Start().(sock := Start().sock.(ty := Reserve, id := 1), aboutToOpen := true)

  lemma ReserveIs()
    ensures Enabled(Start(), DoReserve(1)) && Next(Start(), DoReserve(1)) == FIRST
  {
    hide AfterLock, AfterPosting, AfterEvent, AfterHandle, AfterFinish, IncSendingRef;
  }

  lemma PostOpenIs(w: World)
    requires w.aboutToOpen
    ensures Enabled(w, PostOpen)
    ensures Next(w, PostOpen) == w.(pipe := w.pipe + [ReqOpen(w.sock.id)], aboutToOpen := false)
  {
    hide AfterLock, AfterTaking, AfterEvent, AfterHandle, AfterFinish, IncSendingRef;
  }

  lemma HandleNext(w: World, a: Action)
    requires a.Handle? && w.pipe != [] && w.pending == None && !Aborts(w)
    requires a.open.Opened? ==> a.open.ty in {Connected, Connecting, Plisten, Bind}
    ensures Enabled(w, a) && Next(w, a) == AfterHandle(w, a)
  {
    hide AfterHandle, Aborts;
  }

  lemma CountSendIs(w: World, id: nat)
    requires Published(w, id) && w.sock.id == id && w.sock.sending < 0xffff
    ensures Enabled(w, CountSend(id))
    ensures
      Next(w, CountSend(id)) ==
        if w.sock.tcp && w.sock.tag == id
        then w.(sock := w.sock.(sending := w.sock.sending + 1), aboutToSend := w.aboutToSend + multiset{id})
        else w.(uncounted := w.uncounted + 1, aboutToSend := w.aboutToSend + multiset{id})
  {
    hide AfterLock, AfterPosting, AfterTaking, AfterEvent, AfterHandle, AfterFinish;
  }

  lemma PostSendIs(w: World, data: seq<byte>)
    requires w.aboutToSend == multiset{} + multiset{w.sock.id}
    ensures
      var a := PostSend(w.sock.id, false, data);
      && Enabled(w, a)
      && Next(w, a) == w.(pipe := w.pipe + [ReqSend(w.sock.id, Package(w.clock, false, data))],
                          aboutToSend := multiset{}, clock := w.clock + 1)
  {
    hide AfterLock, AfterTaking, AfterEvent, AfterHandle, AfterFinish, IncSendingRef;
  }

  lemma PostCloseIs(w: World, shutdown: bool)
    requires Published(w, w.sock.id)
    ensures
      var a := PostClose(w.sock.id, shutdown);
      Enabled(w, a) && Next(w, a) == w.(pipe := w.pipe + [ReqClose(w.sock.id, shutdown)])
  {
    hide AfterLock, AfterTaking, AfterEvent, AfterHandle, AfterFinish, IncSendingRef;
  }

  lemma LockNext(w: World, a: Action)
    requires ByLock(a) && Enabled(w, a)
    ensures Next(w, a) == AfterLock(w, a)
  {
    hide Enabled, AfterLock;
  }

  lemma WriteNext(w: World, ks: seq<WriteResult>)
    requires w.pending == None && TakesEvents(w.sock) && w.lock == Unlocked && BuffersOk(w.sock)
    ensures Enabled(w, WriteEvent(ks, true)) && Next(w, WriteEvent(ks, true)) == AfterEvent(w, WriteEvent(ks, true))
  {
    hide BuffersOk, AfterEvent, TakesEvents;
  }

  // ---------------------------------------------------------------- a send before the socket opens

  lemma StartIsReachable()
    ensures Reachable(Start())
  {
    assert Run([Start()], []);
    hide Run;
  }

  /** A connection is under way: its opening request is in the pipe. */
  lemma OpeningIsReachable() returns (w: World)
    ensures Reachable(w) && w == FIRST.(pipe := [ReqOpen(1)], aboutToOpen := false)
  {
    hide Reachable, Enabled, Next;
    StartIsReachable();
    ReserveIs();
    ReachNext(Start(), DoReserve(1));
    PostOpenIs(FIRST);
    ReachNext(FIRST, PostOpen);
    w := Next(FIRST, PostOpen);
    assert [] + [ReqOpen(1)] == [ReqOpen(1)];
  }

  /** A send for the id of w, counted if it can be, goes into the pipe. */
  lemma SendReaches(w: World, data: seq<byte>) returns (w': World)
    requires Reachable(w) && Published(w, w.sock.id) && w.sock.sending < 0xffff && w.aboutToSend == multiset{}
    ensures Reachable(w')
    ensures
      var w1 := if w.sock.tcp && w.sock.tag == w.sock.id then w.(sock := w.sock.(sending := w.sock.sending + 1))
                else w.(uncounted := w.uncounted + 1);
      w' == w1.(pipe := w.pipe + [ReqSend(w.sock.id, Package(w.clock, false, data))], clock := w.clock + 1)
  {
    hide Reachable, Enabled, Next, Published;
    CountSendIs(w, w.sock.id);
    ReachNext(w, CountSend(w.sock.id));
    var w1 := Next(w, CountSend(w.sock.id));
    PostSendIs(w1, data);
    ReachNext(w1, PostSend(w.sock.id, false, data));
    w' := Next(w1, PostSend(w.sock.id, false, data));
  }

  /** A send while the id is only reserved does abort the process: connect, send before
      the socket thread has opened the socket, open, handle the send. */
  lemma SendWhileReservedAborts(data: seq<byte>)
    ensures exists w :: Reachable(w) && Aborts(w)
  {
    hide Reachable, Enabled, Next, Aborts;
    var w1 := OpeningIsReachable();
    var w2 := SendReaches(w1, data);
    assert w2.pipe == [ReqOpen(1), ReqSend(1, Package(0, false, data))];
    ReservedThenOpened(w2, Package(0, false, data));
    ReachNext(w2, Handle(Opened(Connected), true));
  }

  lemma ReservedThenOpened(w: World, p: Package)
    requires w.pipe == [ReqOpen(w.sock.id), ReqSend(w.sock.id, p)] && w.pending == None
    ensures var a := Handle(Opened(Connected), true); Enabled(w, a) && Aborts(Next(w, a))
  {
    hide Enabled, Next;
    HandleNext(w, Handle(Opened(Connected), true));
  }

  // ---------------------------------------------------------------- a connected socket

  /** A socket that has just been connected and not been used. */
  ghost predicate JustConnected(w: World) {
    && w.sock == Socket(Connected, 1, true, [], [], 0, 1, 0, false, false, None, NewChannel)
    && w.lock == Unlocked && w.pipe == [] && w.tested == multiset{}
    && w.aboutToSend == multiset{} && w.aboutToTrigger == multiset{}
    && !w.aboutToOpen && w.clock == 0 && w.uncounted == 0 && w.pending == None && !w.torn && !w.overtaken
  }

  lemma ConnectIsReachable() returns (w: World)
    ensures Reachable(w) && JustConnected(w)
  {
    hide Reachable, Enabled, Next;
    var w1 := OpeningIsReachable();
    HandleNext(w1, Handle(Opened(Connected), true));
    ReachNext(w1, Handle(Opened(Connected), true));
    w := Next(w1, Handle(Opened(Connected), true));
  }

  // ---------------------------------------------------------------- a torn wire

  /** A shutdown frees the high list while its head is partly written; a worker that looks then
      finds nothing queued and writes into the middle of the package. */
  lemma TornIsReachable(x: byte)
    ensures exists w :: Reachable(w) && w.torn && !WholePackages(w.sock.chan)
  {
    hide Reachable, Enabled, Next, WholePackages;
    var w0 := ConnectIsReachable();
    var w1 := SendReaches(w0, [x, x]);
    var p := Package(0, false, [x, x]);
    var w2 := HandleSendReaches(w1, p);
    var w3 := HalfWritten(w2, p);
    var w4 := ShutdownReaches(w3);
    var w5 := DirectReaches(w4, [x]);
    ReachableIsInv(w5);
    TornIsNotWhole(w5);
  }

  lemma ReachableIsInv(w: World)
    requires Reachable(w)
    ensures Inv(w)
  {
    hide Inv, Next, Enabled;
    var ws, acts :| Run(ws, acts) && ws[|acts|] == w;
    EveryStateOfARun(ws, acts, |acts|);
  }

  lemma TornIsNotWhole(w: World)
    requires Inv(w) && w.torn
    ensures !WholePackages(w.sock.chan)
  {
    hide Awake, Counted, OpensFirst, Closed, ClosingInv, SlotInv, Shape;
  }

  /** The socket thread queues the one send in the pipe. */
  lemma HandleSendReaches(w: World, p: Package) returns (w': World)
    requires Reachable(w) && w.pipe == [ReqSend(w.sock.id, p)] && w.pending == None && !p.low
    requires w.sock.ty == Connected && w.sock.tcp && !w.sock.closing && w.sock.sending == 1
    ensures Reachable(w') && w'.pipe == []
    ensures w' == w.(sock := w'.sock, pipe := [], events := w'.events)
    ensures
      var b := WriteBuffer(p, 0);
      w'.sock == w.sock.(high := w.sock.high + [b], wbSize := w.sock.wbSize + b.Unsent(), sending := 0,
                         writing := w.sock.writing || SendBufferEmpty(w.sock))
  {
    hide Reachable, Enabled, Next;
    var a := Handle(Refused, true);
    HandleNext(w, a);
    ReachNext(w, a);
    w' := Next(w, a);
    assert [] + [WriteBuffer(p, 0)] == [WriteBuffer(p, 0)];
  }

  /** The kernel takes one byte of the only package queued. */
  lemma HalfWritten(w: World, p: Package) returns (w': World)
    requires Reachable(w) && w.sock.ty == Connected && w.pending == None && w.lock == Unlocked && |p.data| == 2
    requires w.sock.high == [WriteBuffer(p, 0)] && w.sock.low == [] && w.sock.dw == None
    ensures Reachable(w') && w' == w.(sock := w'.sock, events := w'.events)
    ensures
      w'.sock == w.sock.(high := [WriteBuffer(p, 1)],
                         chan := Emit(w.sock.chan, WriteBuffer(p, 0), 1),
                         wbSize := w.sock.wbSize - 1)
  {
    hide Reachable, Enabled, Next, Emit;
    var a := WriteEvent([Accept(1)], true);
    WriteNext(w, [Accept(1)]);
    ReachNext(w, a);
    w' := Next(w, a);
    OneByteFlush(w.sock, p);
  }

  lemma OneByteFlush(s: Socket, p: Package)
    requires |p.data| == 2 && s.high == [WriteBuffer(p, 0)] && s.low == [] && s.dw == None
    ensures
      SendBuffer(s, [Accept(1)], true) ==
        (s.(high := [WriteBuffer(p, 1)], chan := Emit(s.chan, WriteBuffer(p, 0), 1), wbSize := s.wbSize - 1), Quiet)
  {
    hide Emit, CloseWrite, Drained, FlushLow;
    assert [WriteBuffer(p, 1)] + s.high[1..] == [WriteBuffer(p, 1)];
  }

  /** A shutdown is requested and decided. */
  lemma ShutdownReaches(w: World) returns (w': World)
    requires Reachable(w) && w.sock.ty == Connected && 0 < w.sock.id
    requires !w.aboutToOpen && w.pipe == [] && w.pending == None
    ensures Reachable(w')
    ensures w' == w.(sock := FreeLists(w.sock), pending := Some(Closing(Told, Close)), events := w'.events)
  {
    hide Reachable, Enabled, Next;
    PostCloseIs(w, true);
    ReachNext(w, PostClose(w.sock.id, true));
    var w1 := Next(w, PostClose(w.sock.id, true));
    assert w1.pipe == [ReqClose(w.sock.id, true)];
    HandleNext(w1, Handle(Refused, true));
    ReachNext(w1, Handle(Refused, true));
    w' := Next(w1, Handle(Refused, true));
    assert w1.pipe[1..] == [];
  }

  /** A worker looks, passes and writes its package whole. */
  lemma DirectReaches(w: World, data: seq<byte>) returns (w': World)
    requires Reachable(w) && w.sock.ty == Connected && SendBufferEmpty(w.sock) && w.sock.dw == None
    requires w.lock == Unlocked && w.sock.sending == 0 && Published(w, w.sock.id) && data != []
    ensures Reachable(w') && w'.torn == (w.torn || w.sock.chan.part.Some?)
  {
    hide Reachable, Next, DirectEmit, Published;
    var w0 := TestReaches(w);
    var w1 := LookReaches(w0);
    var w2 := PassReaches(w1, data);
    var a := WriteDirect(|data|);
    LockNext(w2, a);
    ReachNext(w2, a);
    w' := Next(w2, a);
  }

  /** A worker that finds all it asks for passes its first test. */
  lemma TestReaches(w: World) returns (w': World)
    requires Reachable(w) && CanDirectWrite(w.sock) && Published(w, w.sock.id)
    ensures Reachable(w') && w' == w.(tested := w.tested + multiset{w.sock.id})
  {
    hide Reachable, Next, Enabled, Published;
    TestIs(w);
    ReachNext(w, Test(w.sock.id));
    w' := Next(w, Test(w.sock.id));
  }

  lemma TestIs(w: World)
    requires CanDirectWrite(w.sock) && Published(w, w.sock.id)
    ensures Enabled(w, Test(w.sock.id))
    ensures Next(w, Test(w.sock.id)) == w.(tested := w.tested + multiset{w.sock.id})
  {
    hide AfterLock, AfterPosting, AfterTaking, AfterEvent, AfterHandle, AfterFinish, IncSendingRef;
  }

  lemma LookReaches(w: World) returns (w': World)
    requires Reachable(w) && w.sock.ty == Connected && SendBufferEmpty(w.sock)
    requires w.sock.dw == None && w.lock == Unlocked && w.tested[w.sock.id] > 0
    ensures Reachable(w') && w' == w.(lock := Looked, tested := w.tested - multiset{w.sock.id})
  {
    hide Reachable, Next;
    LockNext(w, Look);
    ReachNext(w, Look);
    w' := Next(w, Look);
  }

  lemma PassReaches(w: World, data: seq<byte>) returns (w': World)
    requires Reachable(w) && w.sock.ty == Connected && w.sock.sending == 0 && w.lock == Looked
    ensures Reachable(w') && w' == Next(w, Pass(data)) && Enabled(w, Pass(data))
    ensures
      w' == w.(lock := Checked(Package(w.clock, false, data)), clock := w.clock + 1,
               overtaken := w.overtaken || !AllLow(w.sock.high))
  {
    hide Reachable, Next, AllLow;
    LockNext(w, Pass(data));
    ReachNext(w, Pass(data));
    w' := Next(w, Pass(data));
  }

  // ---------------------------------------------------------------- a package overtaken

  /** The socket thread handles the last send in flight between the two reads of a worker: the
      worker's package goes ahead of one that was accepted, and counted, before it. */
  lemma OvertakenIsReachable(data: seq<byte>)
    ensures exists w :: Reachable(w) && w.overtaken && w.uncounted == 0 && !Ordered(Stream(w), w.clock)
  {
    hide Reachable, Enabled, Next, Ordered, Stream;
    var w0 := ConnectIsReachable();
    var wt := TestReaches(w0);
    var w1 := SendReaches(wt, data);
    var w2 := LookReaches(w1);
    var p := Package(0, false, data);
    var w3 := HandleSendReaches(w2, p);
    var w4 := PassReaches(w3, data);
    assert w3.sock.high[0].pkg == p;
    ReachableIsInv(w3);
    ReachableIsOrdered(w3);
    PassKeepsOrderIff(w3, data);
  }

  /** The same with its callers, each in one call at a time: the two packages are of two senders. */
  lemma OvertakenByAnotherSender(data: seq<byte>)
    ensures
      exists cs: seq<Crowd>, calls: seq<Call> ::
        && CrowdRun(cs, calls) && |cs| == |calls| + 1
        && var w := cs[|calls|].w; w.overtaken && w.uncounted == 0 && !Ordered(Stream(w), w.clock)
  {
    hide Enabled, Next, After, May, Ordered, Stream, Staffed;
    OvertakenIsReachable(data);
    var w :| Reachable(w) && w.overtaken && w.uncounted == 0 && !Ordered(Stream(w), w.clock);
    var ws, acts :| Run(ws, acts) && ws[|acts|] == w;
    var cs, calls := RunIsCrowdRun(ws, acts);
    assert Worlds(cs)[|acts|] == w && |Steps(calls)| == |acts|;
  }

  lemma ReachableIsOrdered(w: World)
    requires Reachable(w) && w.uncounted == 0 && !w.overtaken
    ensures Ordered(Stream(w), w.clock)
  {
    hide Ordered, Stream, Kept, Next, Enabled;
    var ws, acts :| Run(ws, acts) && ws[|acts|] == w;
    EveryStreamOfARun(ws, acts, |acts|);
  }

  // ---------------------------------------------------------------- a close in front of a send

  /** A worker counts a send, another closes, and the send reaches the pipe behind the close:
      the close finds a send in flight and waits for it, and the send is refused. */
  lemma CloseBeforeSend(w0: World, data: seq<byte>) returns (w: World)
    requires Reachable(w0) && w0.sock.ty == Connected && w0.sock.tcp && w0.sock.id == 1 && w0.sock.tag == 1
    requires w0.sock.sending == 0 && !w0.sock.closing && !HasData(w0.sock) && !w0.aboutToOpen && w0.pipe == []
    requires w0.aboutToSend == multiset{} && w0.pending == None
    ensures Reachable(w) && w.pipe == [] && w.pending == None && !w.aboutToOpen && w.lock == w0.lock
    ensures w.sock == w0.sock.(ty := HalfCloseRead, closing := true) && w.aboutToTrigger == w0.aboutToTrigger
  {
    hide Reachable, Enabled, Next;
    CountSendIs(w0, 1);
    ReachNext(w0, CountSend(1));
    var w1 := Next(w0, CountSend(1));
    PostCloseIs(w1, false);
    ReachNext(w1, PostClose(1, false));
    var w2 := Next(w1, PostClose(1, false));
    PostSendIs(w2, data);
    ReachNext(w2, PostSend(1, false, data));
    var w3 := Next(w2, PostSend(1, false, data));
    var p := Package(w0.clock, false, data);
    assert w3.pipe == [ReqClose(1, false), ReqSend(1, p)];
    var w4 := CloseHandled(w3, p);
    w := SendRefused(w4, p);
    assert w.sock == w0.sock.(ty := HalfCloseRead, closing := true);
  }

  lemma CloseHandled(w3: World, p: Package) returns (w: World)
    requires Reachable(w3) && w3.pipe == [ReqClose(w3.sock.id, false), ReqSend(w3.sock.id, p)] && w3.pending == None
    requires w3.sock.ty == Connected && w3.sock.sending == 1 && !w3.sock.closing
    ensures Reachable(w)
    ensures
      w == w3.(sock := w3.sock.(ty := HalfCloseRead, closing := true),
               pipe := [ReqSend(w3.sock.id, p)],
               events := w.events)
  {
    hide Reachable, Enabled, Next;
    var a := Handle(Refused, true);
    HandleNext(w3, a);
    ReachNext(w3, a);
    w := Next(w3, a);
    assert w3.pipe[1..] == [ReqSend(w3.sock.id, p)];
  }

  lemma SendRefused(w4: World, p: Package) returns (w: World)
    requires Reachable(w4) && w4.pipe == [ReqSend(w4.sock.id, p)] && w4.pending == None
    requires w4.sock.closing && w4.sock.tcp && w4.sock.sending == 1
    ensures Reachable(w)
    ensures w == w4.(sock := w4.sock.(sending := 0), pipe := [], dropped := w.dropped, events := w.events)
  {
    hide Reachable, Enabled, Next;
    var a := Handle(Refused, true);
    HandleNext(w4, a);
    ReachNext(w4, a);
    w := Next(w4, a);
  }

  /** Such a close is stranded when no worker holds the lock. */
  lemma StrandedCloseIsReachable(data: seq<byte>)
    ensures exists w :: Reachable(w) && Stranded(w)
  {
    hide Reachable;
    var w0 := ConnectIsReachable();
    var w := CloseBeforeSend(w0, data);
    assert Stranded(w);
  }

  /** With a worker in its direct write it loses a package: a second plain close finds nothing
      left to send, waits for the lock, and drops what the worker stored behind its check. */
  lemma LossIsReachable(x: byte)
    ensures
      exists w ::
        && Reachable(w) && Enabled(w, FinishClose) && w.pending.value.reason == Emptied && w.sock.closing
        && Next(w, FinishClose).sock.chan.done != Queue(w.sock, w.lock)
  {
    hide Reachable, Enabled, Next, Queue, HasData;
    var w0 := ConnectIsReachable();
    NothingHeld(w0);
    var wt := TestReaches(w0);
    var w1 := LookReaches(wt);
    var w2 := PassReaches(w1, [x, x]);
    var w3 := CloseBeforeSend(w2, [x]);
    var w4 := HalfDirect(w3, Package(0, false, [x, x]));
    var w5 := SecondClose(w4);
    var w6 := StoreReaches(w5);
    ReachableIsInv(w6);
    FinishEnabled(w6);
    FinishLoses(w6);
  }

  lemma NothingHeld(w: World)
    requires JustConnected(w)
    ensures !HasData(w.sock) && SendBufferEmpty(w.sock) && w.sock.dw == None
  {
  }

  lemma HalfDirect(w: World, p: Package) returns (w': World)
    requires Reachable(w) && w.lock == Checked(p) && |p.data| == 2
    ensures Reachable(w') && w' == w.(sock := w.sock.(chan := w'.sock.chan), lock := Wrote(p, 1), torn := w'.torn)
  {
    hide Reachable, Next, DirectEmit;
    LockNext(w, WriteDirect(1));
    ReachNext(w, WriteDirect(1));
    w' := Next(w, WriteDirect(1));
  }

  lemma SecondClose(w: World) returns (w': World)
    requires Reachable(w) && w.sock.ty == HalfCloseRead && w.sock.high == [] && w.sock.low == [] && w.sock.dw == None
    requires 0 < w.sock.id && !w.aboutToOpen && w.pipe == [] && w.pending == None && w.sock.sending == 0
    ensures Reachable(w') && w' == w.(pending := Some(Closing(Emptied, Quiet)), events := w'.events)
  {
    hide Reachable, Enabled, Next;
    PostCloseIs(w, false);
    ReachNext(w, PostClose(w.sock.id, false));
    var w1 := Next(w, PostClose(w.sock.id, false));
    assert w1.pipe == [ReqClose(w.sock.id, false)];
    HandleNext(w1, Handle(Refused, true));
    ReachNext(w1, Handle(Refused, true));
    w' := Next(w1, Handle(Refused, true));
    assert w1.pipe[1..] == [];
  }

  lemma StoreReaches(w: World) returns (w': World)
    requires Reachable(w) && w.lock.Wrote?
    ensures Reachable(w')
    ensures
      w' == w.(sock := w.sock.(dw := Some(WriteBuffer(w.lock.pkg, w.lock.n))), lock := Unlocked,
               aboutToTrigger := w'.aboutToTrigger)
  {
    hide Reachable, Next;
    LockNext(w, StoreDirect);
    ReachNext(w, StoreDirect);
    w' := Next(w, StoreDirect);
  }

  lemma FinishEnabled(w: World)
    requires w.pending.Some? && w.lock == Unlocked
    ensures Enabled(w, FinishClose)
  {
  }
}
