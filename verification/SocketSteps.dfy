/** Every step of the socket protocol keeps every invariant, so every run does. */
module SocketSteps {
  import opened Basics
  import opened SocketSlot
  import opened SocketServer
  import opened SocketInvariants

  ghost predicate Step(w: World, a: Action) { Inv(w) && Enabled(w, a) }

  /** A request never reaches a reserved slot ahead of its opening request, which itself
      always finds the slot reserved under its own id. */
  lemma RequestsFindTheirSlotOpen(w: World)
    requires OpensFirst(w)
    ensures w.pipe != [] && w.pipe[0].ReqOpen? ==> w.sock.ty == Reserve && w.pipe[0].id == w.sock.id
    ensures w.pipe != [] && w.sock.ty == Reserve && w.pipe[0].id == w.sock.id ==> w.pipe[0].ReqOpen?
  {
  }

  // ---------------------------------------------------------------- what the kinds of steps change

  predicate ByWorker(a: Action) {
    || ByLock(a) || a.Test? || a.CountSend?
    || a.PostOpen? || a.PostSend? || a.PostTrigger? || a.PostClose? || a.PostResume?
  }

  lemma LockFrame(w: World, a: Action)
    requires Enabled(w, a) && ByLock(a)
    ensures
      var s, s', w' := w.sock, Next(w, a).sock, Next(w, a);
      && w' == AfterLock(w, a)
      && s' == s.(chan := s'.chan, dw := s'.dw)
      && w' == w.(sock := s', lock := w'.lock, clock := w'.clock, torn := w'.torn, overtaken := w'.overtaken,
                  aboutToTrigger := w'.aboutToTrigger, tested := w'.tested)
      && w'.aboutToTrigger == (if a.StoreDirect? then w.aboutToTrigger + multiset{s.id} else w.aboutToTrigger)
      && (a.StoreDirect? ==> w.lock.Wrote? && w'.lock == Unlocked && s'.dw.Some?)
      && (!a.StoreDirect? ==> s'.dw == s.dw)
      && (a.Look? ==>
            && w.lock == Unlocked && w.tested[s.id] > 0 && s.ty == Connected && SendBufferEmpty(s) && s.dw == None
            && w'.lock == Looked && w'.tested == w.tested - multiset{s.id})
      && (!a.Look? ==> w.lock != Unlocked && w'.tested == w.tested)
      && (w.lock.Wrote? ==> a.StoreDirect?)
      && (a.WriteDirect? ==>
            w.lock.Checked? && a.n <= |w.lock.pkg.data| && s'.chan == DirectEmit(s.chan, w.lock.pkg, a.n))
      && (!a.WriteDirect? ==> s'.chan == s.chan && w'.torn == w.torn && !w'.lock.Wrote?)
  {
    hide DirectEmit, AllLow, AfterPosting, AfterTaking, AfterEvent, AfterHandle, AfterFinish, IncSendingRef;
  }

  lemma PostFrame(w: World, a: Action)
    requires Enabled(w, a) && Posting(w, a).Some?
    ensures
      var q, w' := Posting(w, a).value, Next(w, a);
      && w' == AfterPosting(w, a)
      && w' == w.(pipe := w.pipe + [q], aboutToOpen := w'.aboutToOpen, aboutToSend := w'.aboutToSend,
                  aboutToTrigger := w'.aboutToTrigger, clock := w'.clock)
      && (q.ReqOpen? <==> a.PostOpen?)
      && (if q.ReqOpen? then q.id == w.sock.id && w.aboutToOpen && !w'.aboutToOpen else w'.aboutToOpen == w.aboutToOpen)
      && (if q.ReqSend? then w.aboutToSend[q.id] > 0 && w'.aboutToSend == w.aboutToSend - multiset{q.id}
          else w'.aboutToSend == w.aboutToSend)
      && (if q.ReqTrigger? then w.aboutToTrigger[q.id] > 0 && w'.aboutToTrigger == w.aboutToTrigger - multiset{q.id}
          else w'.aboutToTrigger == w.aboutToTrigger)
      && (q.ReqClose? || q.ReqResume? ==> Published(w, q.id))
  {
    hide AfterLock, AfterTaking, AfterEvent, AfterHandle, AfterFinish, IncSendingRef, CanDirectWrite;
  }

  lemma CountFrame(w: World, a: Action)
    requires Enabled(w, a) && a.CountSend?
    ensures Published(w, a.id) && Next(w, a) == IncSendingRef(w, a.id).(aboutToSend := w.aboutToSend + multiset{a.id})
    ensures w.sock.tcp && w.sock.tag == a.id ==> w.sock.sending != 0xffff
    ensures Next(w, a).sock == w.sock.(sending := Next(w, a).sock.sending)
  {
    hide AfterLock, AfterPosting, AfterTaking, AfterEvent, AfterHandle, AfterFinish;
  }

  lemma TestFrame(w: World, a: Action)
    requires Enabled(w, a) && a.Test?
    ensures Next(w, a) == w.(tested := w.tested + multiset{a.id})
    ensures Published(w, a.id) && w.sock.id == a.id && w.sock.sending == 0
  {
    hide AfterLock, AfterPosting, AfterTaking, AfterEvent, AfterHandle, AfterFinish, IncSendingRef;
  }

  lemma TakeFrame(w: World, a: Action)
    requires Enabled(w, a) && TakesId(a)
    ensures w.sock.ty == Invalid && a.id > w.sock.id && Next(w, a) == AfterTaking(w, a)
  {
    hide AfterLock, AfterPosting, AfterEvent, AfterHandle, AfterFinish, IncSendingRef, AfterTaking;
  }

  // ---------------------------------------------------------------- shape, wire and byte count

  lemma AppendHighKeeps(s: Socket, lock: Holder, b: WriteBuffer)
    requires SlotInv(s, lock) && Live(s) && b.offset == 0
    ensures SlotInv(s.(high := s.high + [b], wbSize := s.wbSize + b.Unsent()), lock)
  {
    hide WholePackages;
    UnsentAppend(s.high, b);
    assert Lists(s.high + [b], s.low, s.dw, lock);
    assert InHand(s.high + [b], s.dw, lock) == InHand(s.high, s.dw, lock);
    hide Unsent, Lists, InHand;
  }

  lemma AppendLowKeeps(s: Socket, lock: Holder, b: WriteBuffer)
    requires SlotInv(s, lock) && Live(s) && b.offset == 0 && b.pkg.low
    ensures SlotInv(s.(low := s.low + [b], wbSize := s.wbSize + b.Unsent()), lock)
  {
    hide WholePackages;
    UnsentAppend(s.low, b);
    assert Lists(s.high, s.low + [b], s.dw, lock);
    hide Unsent, Lists, InHand;
  }

  lemma SetWritingKeeps(s: Socket, lock: Holder, writing: bool)
    requires SlotInv(s, lock)
    ensures SlotInv(s.(writing := writing), lock)
  {
    hide WholePackages, Unsent, Lists, InHand;
  }

  lemma SendSocketKeeps(s: Socket, lock: Holder, id: nat, p: Package, epollOk: bool)
    requires SlotInv(s, lock) && (s.ty == Reserve ==> s.id != id)
    ensures SlotInv(SendSocket(s, id, p, epollOk).0, lock)
  {
    hide SlotInv, Unsent;
    if !Refuses(s, id) {
      var b := WriteBuffer(p, 0);
      if SendBufferEmpty(s) {
        assert s.high + [b] == [b];
        AppendHighKeeps(s, lock, b);
        SetWritingKeeps(s.(high := s.high + [b], wbSize := s.wbSize + b.Unsent()), lock, true);
      } else if p.low {
        AppendLowKeeps(s, lock, b);
      } else {
        AppendHighKeeps(s, lock, b);
      }
    }
  }

  lemma DecSendingRefKeeps(s: Socket, lock: Holder, id: nat)
    requires SlotInv(s, lock)
    ensures SlotInv(DecSendingRef(s, id), lock)
  {
    hide WholePackages, Unsent, Lists, InHand;
  }

  lemma OpenSocketKeeps(s: Socket, lock: Holder, r: OpenResult)
    requires SlotInv(s, lock) && s.ty == Reserve && (r.Opened? ==> r.ty in {Connected, Connecting, Plisten, Bind})
    ensures SlotInv(OpenSocket(s, r).0, lock)
  {
    NothingQueued();
    hide WholePackages, Unsent, Lists, InHand;
  }

  lemma TriggerWriteKeeps(s: Socket, lock: Holder, id: nat, epollOk: bool)
    requires SlotInv(s, lock)
    ensures SlotInv(TriggerWrite(s, id, epollOk).0, lock)
  {
    hide WholePackages, Unsent, Lists, InHand;
  }

  lemma CloseReadKeeps(s: Socket, lock: Holder)
    requires SlotInv(s, lock) && Live(s)
    ensures SlotInv(CloseRead(s), lock) && SlotInv(CloseRead(s.(closing := true)), lock)
  {
    hide WholePackages, Unsent, Lists, InHand;
  }

  /** Deciding a close frees both lists. */
  lemma FreeListsKeeps(s: Socket, lock: Holder, c: Closing)
    requires SlotInv(s, lock) && Live(s)
    requires c.report in {Quiet, Close, Err} && (c.report == Close ==> s.ty != HalfCloseRead)
    ensures ClosingInv(FreeLists(s), lock, c) && WireInv(FreeLists(s).chan, false)
  {
    hide WholePackages, Unsent;
  }

  lemma CloseSocketKeeps(s: Socket, lock: Holder, id: nat, shutdown: bool)
    requires SlotInv(s, lock) && (s.ty == Reserve ==> s.id != id)
    ensures SlotState(CloseSocket(s, id, shutdown).0, lock, CloseClosing(s, id, shutdown), false)
  {
    if CloseDecides(s, id, shutdown) {
      FreeListsKeeps(s, lock, CloseClosing(s, id, shutdown).value);
    } else if s.id == id && s.ty != Invalid {
      CloseReadKeeps(s, lock);
      assert s.ty == HalfCloseRead ==> s.(closing := true) == CloseRead(s.(closing := true));
      hide Shape, SizeKept, WholePackages;
    }
    hide Shape, SizeKept, WholePackages, ClosingInv;
  }

  lemma ResumeSocketKeeps(s: Socket, lock: Holder, id: nat, epollOk: bool)
    requires SlotInv(s, lock) && (s.ty == Reserve ==> s.id != id)
    ensures SlotInv(ResumeSocket(s, id, epollOk).0, lock)
  {
    hide WholePackages, Unsent, Lists, InHand;
  }

  lemma ForwardMessageKeeps(s: Socket, lock: Holder, r: ReadResult)
    requires SlotInv(s, lock) && Live(s)
    ensures SlotState(ForwardMessage(s, r).0, lock, ReadClosing(s, r), false)
  {
    if ReadClosing(s, r).Some? {
      FreeListsKeeps(s, lock, ReadClosing(s, r).value);
    } else {
      CloseReadKeeps(s, lock);
    }
    hide Shape, SizeKept, WholePackages, ClosingInv;
  }

  lemma ConnectedKeeps(s: Socket, lock: Holder, writing: bool)
    requires SlotInv(s, lock) && s.ty == Connecting
    ensures SlotInv(s.(ty := Connected, writing := writing), lock)
  {
    hide WholePackages, Unsent, Lists, InHand;
  }

  lemma ReportConnectKeeps(s: Socket, lock: Holder, connected: bool, epollOk: bool)
    requires SlotInv(s, lock) && s.ty == Connecting
    ensures SlotState(ReportConnect(s, connected, epollOk).0, lock, ConnectClosing(s, connected, epollOk), false)
  {
    ConnectedKeeps(s, lock, s.writing);
    ConnectedKeeps(s, lock, false);
    assert s.(ty := Connected) == s.(ty := Connected, writing := s.writing);
    if ConnectClosing(s, connected, epollOk).Some? {
      FreeListsKeeps(if connected then s.(ty := Connected, writing := false) else s, lock, Closing(Gone, Err));
    }
    hide Shape, SizeKept, WholePackages, ClosingInv, FreeLists;
  }

  lemma SlotInvIsLeft(s: Socket, lock: Holder)
    requires SlotInv(s, lock)
    ensures SlotState(s, lock, None, false)
  {
  }

  lemma RequestKeepsSlot(s: Socket, lock: Holder, q: Request, epollOk: bool)
    requires SlotInv(s, lock) && !q.ReqOpen? && (s.ty == Reserve ==> s.id != q.id)
    ensures q.ReqSend? ==> SlotInv(RequestResult(s, q, epollOk).0, lock)
    ensures SlotState(RequestResult(s, q, epollOk).0, lock, RequestClosing(s, q), false)
  {
    hide SlotInv, SlotState, SendSocket, TriggerWrite, CloseSocket, ResumeSocket, CloseClosing;
    match q {
      case ReqSend(id, p) => SendSocketKeeps(s, lock, id, p, epollOk);
      case ReqTrigger(id) => TriggerWriteKeeps(s, lock, id, epollOk);
      case ReqClose(id, shutdown) => CloseSocketKeeps(s, lock, id, shutdown);
      case ReqResume(id) => ResumeSocketKeeps(s, lock, id, epollOk);
    }
    if !q.ReqClose? { SlotInvIsLeft(RequestResult(s, q, epollOk).0, lock); }
  }

  lemma HandleKeepsSlot(w: World, open: OpenResult, epollOk: bool)
    requires Step(w, Handle(open, epollOk)) && SlotInv(w.sock, w.lock)
    ensures var w' := Next(w, Handle(open, epollOk)); SlotState(w'.sock, w'.lock, w'.pending, false)
  {
    hide SlotInv, SlotState, Awake, Counted, OpensFirst, Closed, Next, Enabled, HandleResult, CloseClosing;
    hide SendSocket, DecSendingRef, OpenSocket, TriggerWrite, CloseSocket, ResumeSocket;
    var a, s, lock := Handle(open, epollOk), w.sock, w.lock;
    HandleFacts(w, a);
    HandleIs(w, a);
    var q := w.pipe[0];
    if q.ReqOpen? {
      OpenSocketKeeps(s, lock, open);
      OpenedIs(s, q, open, epollOk);
      SlotInvIsLeft(OpenSocket(s, open).0, lock);
    } else {
      RequestKeepsSlot(s, lock, q, epollOk);
      HandledIs(s, q, open, epollOk);
      if q.ReqSend? {
        DecSendingRefKeeps(RequestResult(s, q, epollOk).0, lock, q.id);
        SlotInvIsLeft(DecSendingRef(RequestResult(s, q, epollOk).0, q.id), lock);
      }
    }
  }

  lemma DirectWriteKeeps(s: Socket, p: Package, n: nat)
    requires SlotInv(s, Checked(p)) && Live(s) && n <= |p.data|
    ensures SlotInv(s.(chan := DirectEmit(s.chan, p, n)), if n == |p.data| then Unlocked else Wrote(p, n))
    ensures s.chan.part == None
  {
    DirectWire(s.chan, p, n);
    hide WholePackages, Unsent, DirectEmit;
  }

  lemma DirectWire(c: Channel, p: Package, n: nat)
    requires WholePackages(c) && c.part == None && n <= |p.data|
    ensures WholePackages(DirectEmit(c, p, n))
    ensures DirectEmit(c, p, n).part == Partial(WriteBuffer(p, if n == |p.data| then 0 else n))
  {
    EmitKeepsPackagesWhole(c, WriteBuffer(p, 0), n);
    DirectIsEmit(c, p, n);
    EmitPart(c, p, n);
    hide WholePackages, Emit, DirectEmit;
  }

  lemma EmitPart(c: Channel, p: Package, n: nat)
    requires n <= |p.data|
    ensures Emit(c, WriteBuffer(p, 0), n).part == Partial(WriteBuffer(p, if n == |p.data| then 0 else n))
  {
  }

  lemma DirectIsEmit(c: Channel, p: Package, n: nat)
    requires n <= |p.data| && c.part == None
    ensures DirectEmit(c, p, n) == Emit(c, WriteBuffer(p, 0), n)
  {
    assert n == 0 ==> c.wire + p.data[0..0] == c.wire;
  }

  lemma StoreDirectKeeps(s: Socket, p: Package, n: nat)
    requires SlotInv(s, Wrote(p, n)) && Live(s)
    ensures SlotInv(s.(dw := Some(WriteBuffer(p, n))), Unlocked)
  {
    hide WholePackages, Unsent;
  }

  lemma LookKeeps(s: Socket)
    requires SlotInv(s, Unlocked) && s.ty == Connected && SendBufferEmpty(s) && s.dw == None
    ensures SlotInv(s, Looked)
  {
    hide WholePackages, Unsent;
  }

  lemma PassKeeps(s: Socket, p: Package)
    requires SlotInv(s, Looked)
    ensures SlotInv(s, Unlocked) && SlotInv(s, Checked(p))
  {
    hide WholePackages, Unsent;
  }

  lemma TakeIdKeeps(s: Socket, id: nat)
    requires Shape(s, Unlocked) && s.ty == Invalid
    ensures var r := s.(ty := Reserve, id := id, tcp := false, chan := NewChannel);
            SlotInv(r, Unlocked) && SlotInv(NewFd(r).(ty := IPaccept), Unlocked)
  {
    NothingQueued();
    hide WholePackages, Unsent, Lists, InHand;
  }

  // ---------------------------------------------------------------- while a close is pending

  lemma PayloadSnoc(done: seq<Package>, p: Package)
    ensures Payload(done + [p]) == Payload(done) + p.data
  {
    assert (done + [p])[..|done|] == done;
  }

  lemma EmitGrows(c: Channel, p: Package, n: nat)
    requires 0 < n <= |p.data|
    ensures var e := Emit(c, WriteBuffer(p, 0), n);
            |e.wire| == |c.wire| + n && |Covered(e)| == |Payload(c.done)| + n
  {
    PayloadSnoc(c.done, p);
    hide Payload;
  }

  /** A direct write keeps the wire whole unless a package is on it in part. */
  lemma DirectKeepsWire(c: Channel, torn: bool, p: Package, n: nat)
    requires WireInv(c, torn) && PartOk(c) && n <= |p.data|
    ensures WireInv(DirectEmit(c, p, n), torn || (n > 0 && c.part.Some?)) && PartOk(DirectEmit(c, p, n))
  {
    if n == 0 {
      NothingEmitted(c, p);
      hide DirectEmit, Covered, WholePackages;
      assert WholePackages(c) <==> c.wire == Covered(c) by { WholeIsCovered(c); }
      WholeIsCovered(DirectEmit(c, p, n));
    } else if torn || c.part.Some? {
      EmitGrows(c, p, n);
      hide Payload, Emit;
    } else {
      EmitKeepsPackagesWhole(c, WriteBuffer(p, 0), n);
      hide WholePackages;
    }
  }

  lemma WholeIsCovered(c: Channel)
    ensures WholePackages(c) <==> c.wire == Covered(c)
  {
  }

  lemma NothingEmitted(c: Channel, p: Package)
    ensures DirectEmit(c, p, 0).wire == c.wire && Covered(DirectEmit(c, p, 0)) == Covered(c)
  {
    PayloadSnoc(c.done, p);
    hide Payload;
    assert p.data == [] ==> Payload(c.done) + p.data == Payload(c.done);
  }

  lemma ClosingStep(w: World, a: Action)
    requires Enabled(w, a) && ByWorker(a) && w.pending.Some? && SlotState(w.sock, w.lock, w.pending, w.torn)
    ensures var w' := Next(w, a);
            SlotState(w'.sock, w'.lock, w'.pending, w'.torn) && w'.pending == w.pending
  {
    if ByLock(a) {
      LockFrame(w, a);
      if a.WriteDirect? { DirectKeepsWire(w.sock.chan, w.torn, w.lock.pkg, a.n); }
      hide Next, Enabled, WireInv, DirectEmit, WholePackages;
    } else if a.Test? {
      TestFrame(w, a);
    } else if a.CountSend? {
      CountFrame(w, a);
      hide Next, Enabled, WireInv;
    } else {
      PostFrame(w, a);
      hide Next, Enabled, WireInv, AfterPosting;
    }
  }

  lemma FinishKeeps(w: World)
    requires Enabled(w, FinishClose) && SlotState(w.sock, w.lock, w.pending, w.torn)
    ensures var w' := Next(w, FinishClose);
            SlotState(w'.sock, w'.lock, w'.pending, w'.torn)
  {
    NothingQueued();
    hide WholePackages, Unsent;
  }

  /** On a closed slot with a torn wire only the counter may move, until the slot is reused. */
  lemma DeadStep(w: World, a: Action)
    requires Step(w, a) && w.pending == None && w.torn && !TakesId(a)
    ensures var w' := Next(w, a);
            SlotState(w'.sock, w'.lock, w'.pending, w'.torn)
  {
    assert w.sock.ty == Invalid && w.lock == Unlocked;
    if a.Handle? {
      HandleIs(w, a);
      RequestsFindTheirSlotOpen(w);
      hide OpensFirst, Awake, Closed, Counted, Next, Enabled, HandleResult, RequestClosing, WireInv;
      DeadHandle(w.sock, w.pipe[0], a.open, a.epollOk);
    } else if a.Test? {
      TestFrame(w, a);
    } else if a.CountSend? {
      CountFrame(w, a);
      hide OpensFirst, Awake, Closed, Counted, Next, Enabled, WireInv;
    } else if Posting(w, a).Some? {
      PostFrame(w, a);
      hide OpensFirst, Awake, Closed, Counted, Next, Enabled, AfterPosting, WireInv;
    } else {
      assert false;
    }
  }

  lemma DeadHandle(s: Socket, q: Request, open: OpenResult, epollOk: bool)
    requires s.ty == Invalid && !q.ReqOpen?
    ensures
      var r := HandleResult(s, q, open, epollOk);
      r.0 == s.(sending := r.0.sending) && RequestClosing(s, q) == None
  {
  }

  // ---------------------------------------------------------------- every step

  lemma LiveStep(w: World, a: Action)
    requires Step(w, a) && SlotInv(w.sock, w.lock) && w.pending == None && !w.torn
    ensures var w' := Next(w, a);
            SlotState(w'.sock, w'.lock, w'.pending, false) && !w'.torn
  {
    assert !Live(w.sock) ==> w.lock == Unlocked && Shape(w.sock, Unlocked);
    if a.Handle? {
      HandleKeepsSlot(w, a.open, a.epollOk);
      HandleIs(w, a);
    } else if a.WriteDirect? {
      DirectWriteKeeps(w.sock, w.lock.pkg, a.n);
    }
    hide SlotInv, Shape, SlotState, Awake, Counted, OpensFirst, Closed;
    if !a.Handle? && !a.WriteDirect? { OtherLiveStep(w, a); }
    if a.WriteDirect? { SlotInvIsLeft(Next(w, a).sock, Next(w, a).lock); }
  }

  lemma EventGuard(w: World, a: Action)
    requires Enabled(w, a) && IsEvent(a)
    ensures Live(w.sock) && w.pending == None && (a.ConnectEvent? ==> w.sock.ty == Connecting)
    ensures a.WriteEvent? ==> w.lock == Unlocked && BuffersOk(w.sock)
  {
    hide BuffersOk;
  }

  lemma OtherLiveStep(w: World, a: Action)
    requires Enabled(w, a) && SlotInv(w.sock, w.lock) && w.pending == None && !a.Handle? && !a.WriteDirect?
    requires !Live(w.sock) ==> w.lock == Unlocked && Shape(w.sock, Unlocked)
    ensures var w' := Next(w, a); SlotState(w'.sock, w'.lock, w'.pending, false) && (w'.torn ==> w.torn)
  {
    hide SlotInv, Shape, SlotState, Enabled, Next, EventResult, EventClosing, BuffersOk;
    if IsEvent(a) {
      EventGuard(w, a);
      EventKeepsSlot(w.sock, w.lock, a);
      NextIsEvent(w, a);
    } else {
      WorkerKeepsSlot(w, a);
      SlotInvIsLeft(Next(w, a).sock, Next(w, a).lock);
    }
  }

  lemma SlotBuffers(s: Socket, lock: Holder)
    requires SlotInv(s, lock)
    ensures BuffersOk(s) && (lock == Unlocked ==> SlotOk(s))
  {
    hide WholePackages, Unsent, InHand;
  }

  lemma FlushKeepsSlot(s: Socket, ks: seq<WriteResult>, epollOk: bool)
    requires SlotInv(s, Unlocked) && Live(s)
    ensures BuffersOk(s) && SlotState(SendBuffer(s, ks, epollOk).0, Unlocked, None, false)
  {
    hide SlotInv, SlotState, SendBuffer, SendEffect, BuffersOk;
    SendBufferKeeps(s, ks, epollOk);
    SlotInvIsLeft(SendBuffer(s, ks, epollOk).0, Unlocked);
  }

  lemma EventKeepsSlot(s: Socket, lock: Holder, a: Action)
    requires SlotInv(s, lock) && IsEvent(a) && Live(s)
    requires (a.ConnectEvent? ==> s.ty == Connecting) && (a.WriteEvent? ==> lock == Unlocked)
    ensures BuffersOk(s) && SlotState(EventResult(s, a).0, lock, EventClosing(s, a), false)
  {
    hide SlotInv, SlotState, SendBuffer, ForwardMessage, ReportConnect, ReadClosing, ConnectClosing, FreeLists;
    hide SendEffect, BuffersOk, SlotOk;
    SlotBuffers(s, lock);
    match a {
      case ConnectEvent(connected, epollOk) => ReportConnectKeeps(s, lock, connected, epollOk);
      case ReadEvent(r) => ForwardMessageKeeps(s, lock, r);
      case HangUpEvent => HangUpKeeps(s, lock);
      case WriteEvent(ks, epollOk) => FlushKeepsSlot(s, ks, epollOk);
      case _ => SlotInvIsLeft(s, lock);
    }
  }

  lemma WorkerKeepsSlot(w: World, a: Action)
    requires Enabled(w, a) && SlotInv(w.sock, w.lock) && w.pending == None
    requires !a.Handle? && !a.WriteDirect? && !IsEvent(a)
    requires !Live(w.sock) ==> w.lock == Unlocked && Shape(w.sock, Unlocked)
    ensures var w' := Next(w, a); SlotInv(w'.sock, w'.lock) && w'.pending == None && (w'.torn ==> w.torn)
  {
    hide SlotInv, Shape;
    var s, lock := w.sock, w.lock;
    match a {
      case DoReserve(id) => TakeIdKeeps(s, id);
      case Accepted(id) => TakeIdKeeps(s, id);
      case CountSend(id) => CountSendKeeps(s, lock);
      case Test(id) =>
      case Look => LookKeeps(s);
      case Pass(data) => PassKeeps(s, Package(w.clock, false, data));
      case GiveUp => PassKeeps(s, Package(0, false, []));
      case StoreDirect => StoreDirectKeeps(s, lock.pkg, lock.n);
      case _ =>
    }
  }

  lemma HangUpKeeps(s: Socket, lock: Holder)
    requires SlotInv(s, lock) && Live(s)
    ensures SlotState(FreeLists(s), lock, Some(HangUpClosing(s)), false)
  {
    FreeListsKeeps(s, lock, HangUpClosing(s));
    hide SlotInv, ClosingInv;
  }

  lemma SlotStep(w: World, a: Action)
    requires Step(w, a)
    ensures var w' := Next(w, a); SlotState(w'.sock, w'.lock, w'.pending, w'.torn)
  {
    if w.pending.Some? {
      if a.FinishClose? { FinishKeeps(w); } else { ClosingStep(w, a); }
    } else if w.torn {
      if TakesId(a) {
        TakeIdKeeps(w.sock, a.id);
        SlotInvIsLeft(Next(w, a).sock, Next(w, a).lock);
      } else {
        DeadStep(w, a);
      }
    } else {
      LiveStep(w, a);
    }
    hide SlotInv, Shape, ClosingInv, WireInv, Awake, Counted, OpensFirst, Closed;
  }

  lemma CountSendKeeps(s: Socket, lock: Holder)
    requires SlotInv(s, lock)
    ensures SlotInv(s.(sending := s.sending + 1), lock)
  {
    hide WholePackages, Unsent, Lists, InHand;
  }

  // ---------------------------------------------------------------- what a handler may do

  /** Data is queued and the write event is off. */
  predicate Needy(s: Socket) { Live(s) && s.ty != HalfCloseWrite && HasData(s) && !s.writing }

  predicate Effect(s: Socket, r: (Socket, Report)) {
    && r.0.id == s.id && r.0.tcp == s.tcp && r.0.tag == s.tag && r.0.sending == s.sending
    && (Live(r.0) ==> Live(s)) && (r.0.ty == Reserve <==> s.ty == Reserve)
    && (Needy(r.0) ==> Needy(s))
    && (s.ty == HalfCloseRead ==> r.0.ty == HalfCloseRead || r.0.ty == Invalid)
    && (r.0.ty == HalfCloseRead && s.ty != HalfCloseRead ==> r.1 == Close)
    && (r.1 == Close ==> Live(s) && s.ty != HalfCloseRead && (r.0.ty == HalfCloseRead || r.0.ty == Invalid))
    && (r.1 == Data ==> Live(s) && s.ty != HalfCloseRead)
  }

  predicate EffectFor(s: Socket, id: nat, r: (Socket, Report)) {
    Effect(s, r) && (s.id != id ==> r.0 == s && (r.1 == Quiet || r.1 == Err))
  }

  lemma SendEffects(s: Socket, id: nat, p: Package, epollOk: bool)
    requires s.ty == Reserve ==> s.id != id
    ensures EffectFor(s, id, SendSocket(s, id, p, epollOk))
    ensures EffectFor(s, id, TriggerWrite(s, id, epollOk)) && !(s.id == id && Needy(TriggerWrite(s, id, epollOk).0))
  {
  }

  lemma CloseEffects(s: Socket, id: nat, shutdown: bool, epollOk: bool)
    requires s.ty == Reserve ==> s.id != id
    ensures EffectFor(s, id, CloseSocket(s, id, shutdown))
    ensures EffectFor(s, id, ResumeSocket(s, id, epollOk))
  {
  }

  lemma EventEffects(s: Socket, r: ReadResult, connected: bool, epollOk: bool)
    requires Live(s)
    ensures Effect(s, ForwardMessage(s, r)) && Effect(s, (FreeLists(s), Quiet)) && Effect(s, (s, Err))
    ensures s.ty == Connecting ==> Effect(s, ReportConnect(s, connected, epollOk))
  {
  }

  lemma WriteEffect(s: Socket, ks: seq<WriteResult>, epollOk: bool)
    requires SlotOk(s) && Live(s)
    ensures BuffersOk(s) && Effect(s, SendBuffer(s, ks, epollOk))
  {
    SendBufferKeeps(s, ks, epollOk);
    SendBufferReports(s, ks, epollOk);
    hide SlotOk;
  }

  lemma SendBufferReports(s: Socket, ks: seq<WriteResult>, epollOk: bool)
    requires BuffersOk(s)
    ensures SendBuffer(s, ks, epollOk).1 in {Quiet, Err}
  {
    hide Flush;
    assert forall t :: CloseWrite(t).1 in {Quiet, Err} && Drained(t, epollOk).1 in {Quiet, Err};
    hide CloseWrite, Drained;
  }

  lemma RequestEffect(s: Socket, q: Request, epollOk: bool)
    requires s.ty == Reserve && s.id == q.id ==> q.ReqOpen?
    ensures EffectFor(s, q.id, RequestResult(s, q, epollOk))
    ensures q == ReqTrigger(s.id) ==> !Needy(RequestResult(s, q, epollOk).0)
  {
    match q
    case ReqSend(id, p) =>
      SendEffects(s, id, p, epollOk);
    case ReqTrigger(id) =>
      SendEffects(s, id, Package(0, false, []), epollOk);
    case ReqClose(id, shutdown) =>
      CloseEffects(s, id, shutdown, epollOk);
    case ReqResume(id) =>
      CloseEffects(s, id, false, epollOk);
    case ReqOpen(_) =>
  }

  /** Where an event comes, the slot is whole. */
  lemma AtPollSlot(w: World)
    requires Inv(w) && w.pending == None && w.sock.ty != Invalid
    ensures SlotInv(w.sock, w.lock) && !w.torn
  {
  }

  lemma EventNeeds(w: World, a: Action)
    requires Step(w, a) && IsEvent(a)
    ensures Live(w.sock) && w.pending == None && BuffersOk(w.sock) && SlotInv(w.sock, w.lock)
    ensures a.ConnectEvent? ==> w.sock.ty == Connecting
    ensures a.WriteEvent? ==> w.lock == Unlocked && SlotOk(w.sock)
  {
    hide Inv, SlotInv, BuffersOk;
    AtPollSlot(w);
    SlotBuffers(w.sock, w.lock);
  }

  lemma NextIsEvent(w: World, a: Action)
    requires Enabled(w, a) && IsEvent(a) && (a.WriteEvent? ==> BuffersOk(w.sock))
    ensures Next(w, a) == AfterEvent(w, a)
  {
    hide Enabled, AfterEvent, BuffersOk;
  }

  lemma EventEffect(w: World, a: Action)
    requires Step(w, a) && IsEvent(a)
    ensures BuffersOk(w.sock) && Live(w.sock) && w.pending == None
    ensures Effect(w.sock, EventResult(w.sock, a)) && Next(w, a) == AfterEvent(w, a)
  {
    hide SlotOk, BuffersOk, SendBuffer, ForwardMessage, ReportConnect, SlotInv, SlotState, Effect, Inv, AfterEvent;
    hide Enabled, Next;
    EventNeeds(w, a);
    NextIsEvent(w, a);
    match a
    case ConnectEvent(connected, epollOk) => EventEffects(w.sock, Nothing, connected, epollOk);
    case ReadEvent(r) => EventEffects(w.sock, r, false, false);
    case WriteEvent(ks, epollOk) => WriteEffect(w.sock, ks, epollOk);
    case ErrorEvent => EventEffects(w.sock, Nothing, false, false);
    case HangUpEvent => EventEffects(w.sock, Nothing, false, false);
  }

  lemma FinishGuard(w: World)
    requires Step(w, FinishClose)
    ensures w.pending.Some? && w.lock == Unlocked && Live(w.sock)
    ensures w.pending.value.report in {Quiet, Close, Err}
    ensures w.pending.value.report == Close ==> w.sock.ty != HalfCloseRead
  {
    hide WireInv, Awake, Counted, OpensFirst, Closed, PartOk;
  }

  lemma NextIsFinish(w: World)
    requires Enabled(w, FinishClose)
    ensures Next(w, FinishClose) == AfterFinish(w)
  {
    hide AfterFinish;
  }

  /** The end of a close. */
  lemma FinishEffect(w: World)
    requires Step(w, FinishClose)
    ensures Effect(w.sock, (ForceClose(w.sock), w.pending.value.report))
    ensures ForceClose(w.sock).ty == Invalid && Live(w.sock)
    ensures Next(w, FinishClose) == AfterFinish(w)
  {
    hide Inv, Enabled, Next, AfterFinish;
    FinishGuard(w);
    NextIsFinish(w);
  }

  lemma HandleIs(w: World, a: Action)
    requires Enabled(w, a) && a.Handle?
    ensures w.pending == None
    ensures Next(w, a) == AfterHandle(w, a)
  {
    hide AfterHandle;
  }

  lemma HandleNeeds(w: World, a: Action)
    requires Step(w, a) && a.Handle?
    ensures var r := HandleResult(w.sock, w.pipe[0], a.open, a.epollOk).0;
            && r.id == w.sock.id
            && (Needy(r) ==> Needy(w.sock) && w.pipe[0] != ReqTrigger(w.sock.id))
  {
    RequestsFindTheirSlotOpen(w);
    RequestEffect(w.sock, w.pipe[0], a.epollOk);
    assert w.sock.ty == Reserve ==> !HasData(w.sock);
    hide RequestResult, Inv, Enabled;
  }

  // ---------------------------------------------------------------- nothing is stranded

  lemma DeadHasNothing(w: World)
    requires Inv(w) && !Live(w.sock)
    ensures !HasData(w.sock) && w.lock == Unlocked && w.pending == None
  {
    hide Awake, Counted, OpensFirst, Closed, WireInv;
  }

  lemma LockFacts(w: World)
    requires Inv(w) && w.lock != Unlocked
    ensures Live(w.sock) && w.sock.dw == None
  {
    hide OpensFirst, Closed, Awake, Counted, WireInv, WholePackages, Unsent, InHand;
  }

  lemma AwakeStep(w: World, a: Action)
    requires Step(w, a)
    ensures Awake(Next(w, a))
  {
    hide Awake, SlotState, Counted, OpensFirst, Closed, Next, Enabled;
    assert Awake(w);
    if IsEvent(a) {
      AwakeAfterEvent(w, a);
    } else if a.FinishClose? {
      AwakeAfterFinish(w);
    } else if a.Handle? {
      AwakeAfterHandle(w, a);
    } else {
      AwakeAfterWorker(w, a);
    }
  }

  lemma AwakeAfterEvent(w: World, a: Action)
    requires Step(w, a) && IsEvent(a) && Awake(w)
    ensures Awake(Next(w, a))
  {
    EventEffect(w, a);
    hide EventResult, Inv, Enabled, Next;
  }

  lemma AwakeAfterFinish(w: World)
    requires Step(w, FinishClose)
    ensures Awake(Next(w, FinishClose))
  {
    FinishEffect(w);
    hide Inv, Enabled, Next, Effect, ForceClose;
  }

  lemma PostsSomething(w: World, a: Action)
    requires ByWorker(a) && !ByLock(a) && !a.Test? && !a.CountSend?
    ensures Posting(w, a).Some?
  {
  }

  lemma PostedTrigger(w: World, a: Action)
    requires Enabled(w, a) && Posting(w, a).Some?
    ensures Posting(w, a).value in Next(w, a).pipe
  {
    hide Enabled, Posting, Next, AfterPosting;
    PostFrame(w, a);
  }

  lemma AwakeAfterWorker(w: World, a: Action)
    requires Step(w, a) && Awake(w) && (ByWorker(a) || TakesId(a))
    ensures Awake(Next(w, a))
  {
    hide Inv, Next, Enabled, AfterLock, AfterPosting, Posting;
    if ByLock(a) {
      LockFrame(w, a);
    } else if a.Test? {
      TestFrame(w, a);
    } else if a.CountSend? {
      CountFrame(w, a);
    } else if TakesId(a) {
      TakeFrame(w, a);
      DeadHasNothing(w);
    } else {
      PostsSomething(w, a);
      PostFrame(w, a);
      assert forall q :: q in w.pipe ==> q in Next(w, a).pipe;
      PostedTrigger(w, a);
    }
  }

  lemma AwakeAfterHandle(w: World, a: Action)
    requires Step(w, a) && a.Handle? && Awake(w)
    ensures Awake(Next(w, a))
  {
    HandleIs(w, a);
    HandleNeeds(w, a);
    hide HandleResult, Inv, Enabled, Next;
    assert w.pipe == [w.pipe[0]] + w.pipe[1..];
  }

  // ---------------------------------------------------------------- sends are counted

  lemma {:induction false} PostedSnoc(pipe: seq<Request>, q: Request, id: nat)
    ensures Posted(pipe + [q], id) == Posted(pipe, id) + PostedBy(q, id)
  {
    hide PostedBy;
    if |pipe| == 0 {
      assert pipe + [q] == [q];
    } else {
      PostedSnoc(pipe[1..], q, id);
      assert (pipe + [q])[1..] == pipe[1..] + [q];
    }
  }

  lemma {:induction false} PostedNone(pipe: seq<Request>, id: nat)
    requires forall i :: 0 <= i < |pipe| ==> pipe[i].id < id
    ensures Posted(pipe, id) == []
  {
    if |pipe| > 0 { PostedNone(pipe[1..], id); }
  }

  lemma EffectKeepsCount(s: Socket, r: (Socket, Report), uncounted: nat, inFlight: int)
    requires CountOk(s, uncounted, inFlight) && Effect(s, r)
    ensures CountOk(r.0, uncounted, inFlight)
  {
    hide Needy;
  }

  lemma OpenKeepsCount(s: Socket, open: OpenResult, uncounted: nat, inFlight: int)
    requires CountOk(s, uncounted, inFlight) && s.ty == Reserve
    requires open.Opened? ==> open.ty != Reserve
    ensures CountOk(OpenSocket(s, open).0, uncounted, inFlight)
  {
  }

  lemma DecKeepsCount(s: Socket, id: nat, uncounted: nat, inFlight: int)
    requires CountOk(s, uncounted, inFlight) && DecSendingRefAsserts(s, id) && !(s.ty == Reserve && s.id == id)
    ensures CountOk(DecSendingRef(s, id), uncounted, if s.id == id then inFlight - 1 else inFlight)
  {
  }

  lemma PostedPop(pipe: seq<Request>, id: nat)
    requires pipe != []
    ensures Posted(pipe, id) == PostedBy(pipe[0], id) + Posted(pipe[1..], id)
  {
  }

  /** What the socket thread may rely on when it takes a request. */
  lemma HandleFacts(w: World, a: Action)
    requires Step(w, a) && a.Handle?
    ensures w.pipe != [] && w.pending == None && w.pipe[0].id <= w.sock.id
    ensures w.pipe[0].ReqOpen? ==> w.sock.ty == Reserve && w.pipe[0].id == w.sock.id
    ensures w.sock.ty == Reserve && w.pipe[0].id == w.sock.id ==> w.pipe[0].ReqOpen?
    ensures w.pipe[0].ReqSend? ==> DecSendingRefAsserts(w.sock, w.pipe[0].id)
    ensures a.open.Opened? ==> a.open.ty in {Connected, Connecting, Plisten, Bind}
  {
    hide SlotState, Counted, Awake, Closed;
    RequestsFindTheirSlotOpen(w);
  }

  lemma OpenedIs(s: Socket, q: Request, open: OpenResult, epollOk: bool)
    requires q.ReqOpen?
    ensures HandleResult(s, q, open, epollOk) == OpenSocket(s, open) && RequestClosing(s, q) == None
  {
    hide OpenSocket;
  }

  lemma HandledIs(s: Socket, q: Request, open: OpenResult, epollOk: bool)
    requires !q.ReqOpen?
    ensures
      var r := RequestResult(s, q, epollOk);
      HandleResult(s, q, open, epollOk) == if q.ReqSend? then (DecSendingRef(r.0, q.id), r.1) else r
  {
    hide RequestResult, DecSendingRef;
  }

  lemma CountedHandle(w: World, a: Action)
    requires Step(w, a) && a.Handle?
    ensures Counted(Next(w, a))
  {
    hide SlotState, Awake, Closed, Posted, OpensFirst, RequestResult, Enabled, Next, Effect, CountOk, HandleResult;
    HandleFacts(w, a);
    var q, s, u, n := w.pipe[0], w.sock, w.uncounted, InFlight(w);
    HandleIs(w, a);
    PostedPop(w.pipe, s.id);
    if q.ReqOpen? {
      OpenKeepsCount(s, a.open, u, n);
      OpenedIs(s, q, a.open, a.epollOk);
    } else {
      RequestEffect(s, q, a.epollOk);
      var r := RequestResult(s, q, a.epollOk);
      EffectKeepsCount(s, r, u, n);
      EffectIsQuietOnCounters(s, r);
      HandledIs(s, q, a.open, a.epollOk);
      if q.ReqSend? { DecKeepsCount(r.0, q.id, u, n); }
    }
  }

  lemma EffectIsQuietOnCounters(s: Socket, r: (Socket, Report))
    requires Effect(s, r)
    ensures r.0.id == s.id && r.0.tcp == s.tcp && r.0.tag == s.tag && r.0.sending == s.sending
    ensures r.0.ty == Reserve <==> s.ty == Reserve
    ensures Live(r.0) ==> Live(s)
  {
  }

  lemma CountedTakesId(w: World, a: Action)
    requires Step(w, a) && TakesId(a)
    ensures Counted(Next(w, a))
  {
    TakeFrame(w, a);
    hide SlotState, Awake, Closed, OpenRequests, Posted, Next, Enabled;
    PostedNone(w.pipe, a.id);
    assert a.id !in w.aboutToSend;
    hide Inv, KnownPipe, KnownCallers;
    assert InFlight(Next(w, a)) == 0;
  }

  lemma CountedWorker(w: World, a: Action)
    requires Step(w, a) && ByWorker(a)
    ensures Counted(Next(w, a))
  {
    hide SlotState, OpensFirst, Closed, Awake, Posted, Next, Enabled, AfterLock, AfterPosting, Posting;
    if ByLock(a) {
      LockFrame(w, a);
    } else if a.Test? {
      TestFrame(w, a);
    } else if a.CountSend? {
      CountFrame(w, a);
    } else {
      PostsSomething(w, a);
      CountedPosting(w, a);
    }
  }

  lemma CountedPosting(w: World, a: Action)
    requires Step(w, a) && Posting(w, a).Some?
    ensures Counted(Next(w, a))
  {
    hide SlotState, OpensFirst, Closed, Awake, Posted, Next, Enabled, AfterPosting, CountOk, Posting;
    PostFrame(w, a);
    PostedSnoc(w.pipe, Posting(w, a).value, w.sock.id);
    assert InFlight(Next(w, a)) == InFlight(w);
  }

  lemma CountedEvent(w: World, a: Action)
    requires Step(w, a) && IsEvent(a)
    ensures Counted(Next(w, a))
  {
    EventEffect(w, a);
    hide EventResult, SlotState, OpensFirst, Closed, Enabled, Next, Posted, Needy, Awake;
  }

  lemma CountedFinish(w: World)
    requires Step(w, FinishClose)
    ensures Counted(Next(w, FinishClose)) && OpensFirst(Next(w, FinishClose))
  {
    FinishEffect(w);
    hide SlotState, Closed, Enabled, Next, Posted, Needy, Awake, ForceClose, OpenRequests;
  }

  // ---------------------------------------------------------------- opening comes first

  lemma OpenRequestsSnoc(pipe: seq<Request>, q: Request, id: nat, reserved: bool, about: bool)
    requires OpenRequests(pipe, id, reserved, about) && !q.ReqOpen? && (about ==> q.id < id)
    ensures OpenRequests(pipe + [q], id, reserved, about)
  {
    if reserved && !about {
      var i :| 0 <= i < |pipe| && OpensAt(pipe, i, id);
      assert OpensAt(pipe + [q], i, id);
    }
  }

  lemma OpenRequestsPost(pipe: seq<Request>, id: nat)
    requires OpenRequests(pipe, id, true, true)
    ensures OpenRequests(pipe + [ReqOpen(id)], id, true, false)
  {
    assert OpensAt(pipe + [ReqOpen(id)], |pipe|, id);
  }

  lemma OpenRequestsPop(pipe: seq<Request>, id: nat, reserved: bool, about: bool)
    requires OpenRequests(pipe, id, reserved, about) && pipe != []
    ensures OpenRequests(pipe[1..], id, reserved && !pipe[0].ReqOpen?, about)
  {
    if reserved && !about {
      var i :| 0 <= i < |pipe| && OpensAt(pipe, i, id);
      if i > 0 {
        assert OpensAt(pipe[1..], i - 1, id);
      }
    }
  }

  lemma KnownPipeTail(pipe: seq<Request>, id: nat)
    requires KnownPipe(pipe, id) && pipe != []
    ensures KnownPipe(pipe[1..], id)
  {
  }

  lemma OpensFirstHandle(w: World, a: Action)
    requires Step(w, a) && a.Handle?
    ensures OpensFirst(Next(w, a))
  {
    hide SlotState, Counted, Closed, RequestResult, Enabled, Next, Needy, Awake, OpenRequests, HandleResult;
    HandleFacts(w, a);
    var q, s := w.pipe[0], w.sock;
    HandleIs(w, a);
    OpenRequestsPop(w.pipe, s.id, s.ty == Reserve, w.aboutToOpen);
    KnownPipeTail(w.pipe, s.id);
    if q.ReqOpen? {
      OpenedIs(s, q, a.open, a.epollOk);
    } else {
      RequestEffect(s, q, a.epollOk);
      HandledIs(s, q, a.open, a.epollOk);
      EffectIsQuietOnCounters(s, RequestResult(s, q, a.epollOk));
    }
  }

  lemma OpensFirstEvent(w: World, a: Action)
    requires Step(w, a) && IsEvent(a)
    ensures OpensFirst(Next(w, a))
  {
    EventEffect(w, a);
    hide EventResult, SlotState, Counted, Closed, Enabled, Next, Needy, Awake, OpenRequests;
  }

  lemma KnownCallersKeep(callers: multiset<nat>, k: nat, id: nat, about: bool)
    requires KnownCallers(callers, id, about)
    ensures KnownCallers(callers - multiset{k}, id, about)
    ensures k <= id && (about ==> k < id) ==> KnownCallers(callers + multiset{k}, id, about)
    ensures KnownCallers(callers, id, false)
    ensures k > id ==> KnownCallers(callers, k, true) && KnownCallers(callers, k, false)
  {
  }

  lemma KnownPipeKeeps(pipe: seq<Request>, q: Request, id: nat, next: nat)
    requires KnownPipe(pipe, id) && q.id <= id <= next
    ensures KnownPipe(pipe + [q], id) && KnownPipe(pipe, next)
  {
  }

  lemma KnownIdsLock(w: World, a: Action)
    requires Enabled(w, a) && ByLock(a) && KnownIds(w) && (a.StoreDirect? ==> !w.aboutToOpen)
    ensures KnownIds(Next(w, a))
  {
    hide Next, Enabled, AfterLock, KnownPipe, KnownCallers;
    LockFrame(w, a);
    if a.StoreDirect? { KnownCallersKeep(w.aboutToTrigger, w.sock.id, w.sock.id, w.aboutToOpen); }
  }

  lemma KnownIdsTest(w: World, a: Action)
    requires Enabled(w, a) && a.Test? && KnownIds(w)
    ensures KnownIds(Next(w, a))
  {
    hide Next, Enabled, KnownPipe, KnownCallers;
    TestFrame(w, a);
  }

  lemma KnownIdsCount(w: World, a: Action)
    requires Enabled(w, a) && a.CountSend? && KnownIds(w)
    ensures KnownIds(Next(w, a))
  {
    hide Next, Enabled, KnownPipe, KnownCallers;
    CountFrame(w, a);
    KnownCallersKeep(w.aboutToSend, a.id, w.sock.id, w.aboutToOpen);
  }

  lemma KnownIdsPost(w: World, a: Action)
    requires Enabled(w, a) && Posting(w, a).Some? && KnownIds(w)
    ensures KnownIds(Next(w, a)) && Posting(w, a).value.id <= w.sock.id
    ensures w.aboutToOpen && !a.PostOpen? ==> Posting(w, a).value.id < w.sock.id
  {
    hide Next, Enabled, AfterPosting, Posting;
    var q, id, about := Posting(w, a).value, w.sock.id, w.aboutToOpen;
    PostFrame(w, a);
    assert q.ReqSend? ==> q.id in w.aboutToSend;
    assert q.ReqTrigger? ==> q.id in w.aboutToTrigger;
    assert q.id <= id;
    KnownPipeKeeps(w.pipe, q, id, id);
    KnownCallersKeep(w.aboutToSend, q.id, id, about);
    KnownCallersKeep(w.aboutToTrigger, q.id, id, about);
  }

  lemma KnownIdsTake(w: World, a: Action)
    requires Step(w, a) && TakesId(a)
    ensures KnownIds(Next(w, a))
  {
    hide SlotState, Counted, Closed, Awake, OpenRequests, Next, Enabled, KnownPipe, KnownCallers;
    TakeFrame(w, a);
    var id, about := w.sock.id, w.aboutToOpen;
    KnownPipeKeeps(w.pipe, ReqOpen(id), id, a.id);
    KnownCallersKeep(w.aboutToSend, a.id, id, about);
    KnownCallersKeep(w.aboutToTrigger, a.id, id, about);
  }

  lemma OpensFirstTake(w: World, a: Action)
    requires Step(w, a) && TakesId(a)
    ensures OpensFirst(Next(w, a))
  {
    KnownIdsTake(w, a);
    TakeFrame(w, a);
    hide SlotState, Counted, Closed, Awake, Next, Enabled;
    assert OpenRequests(w.pipe, a.id, a.DoReserve?, a.DoReserve?);
    hide OpenRequests, KnownIds;
  }

  lemma NotReservedIsOpen(w: World)
    requires OpensFirst(w)
    ensures w.aboutToOpen ==> w.sock.ty == Reserve
  {
  }

  lemma StoringIsLive(w: World, a: Action)
    requires Step(w, a) && a.StoreDirect?
    ensures Live(w.sock)
  {
    hide Inv, Next;
    LockFacts(w);
  }

  lemma OpensFirstWorker(w: World, a: Action)
    requires Step(w, a) && ByWorker(a)
    ensures OpensFirst(Next(w, a))
  {
    hide SlotState, Counted, Closed, Awake, Next, Enabled, AfterLock, AfterPosting, Posting, OpenRequests, KnownIds;
    var s := w.sock;
    NotReservedIsOpen(w);
    if ByLock(a) {
      if a.StoreDirect? { StoringIsLive(w, a); }
      KnownIdsLock(w, a);
      LockFrame(w, a);
    } else if a.Test? {
      KnownIdsTest(w, a);
      TestFrame(w, a);
    } else if a.CountSend? {
      KnownIdsCount(w, a);
      CountFrame(w, a);
    } else {
      PostsSomething(w, a);
      KnownIdsPost(w, a);
      PostFrame(w, a);
      if a.PostOpen? {
        OpenRequestsPost(w.pipe, s.id);
      } else {
        OpenRequestsSnoc(w.pipe, Posting(w, a).value, s.id, s.ty == Reserve, w.aboutToOpen);
      }
    }
  }

  // ---------------------------------------------------------------- close is raised once

  lemma CloseIsLastSnoc(events: seq<Event>, e: Event)
    requires CloseIsLast(events)
    requires e.kind == Close || e.kind == Data ==> Event(Close, e.id) !in events
    ensures CloseIsLast(events + [e])
  {
  }

  lemma ClosedRaise(w: World, r: (Socket, Report), id: nat)
    requires Closed(w) && EffectFor(w.sock, id, r) && id <= w.sock.id
    ensures Closed(Raise(w, r, id))
  {
    CloseIsLastSnoc(w.events, Event(if r.1 == Quiet then Err else r.1, id));
    hide Needy, CloseIsLast;
  }

  /** Whatever does not concern the events. */
  lemma ClosedFrame(w: World, w': World)
    requires Closed(w) && w'.events == w.events
    requires
      || (w'.sock.ty == w.sock.ty && w'.sock.id == w.sock.id)
      || (w'.sock.id > w.sock.id && w'.sock.ty != HalfCloseRead)
    ensures Closed(w')
  {
  }

  lemma ClosedOpen(w: World, open: OpenResult)
    requires Closed(w) && w.sock.ty == Reserve && (open.Opened? ==> open.ty in {Connected, Connecting, Plisten, Bind})
    ensures Closed(Raise(w, OpenSocket(w.sock, open), w.sock.id))
  {
    var kind := OpenSocket(w.sock, open).1;
    CloseIsLastSnoc(w.events, Event(if kind == Quiet then Err else kind, w.sock.id));
    hide CloseIsLast;
  }

  lemma ClosedHandle(w: World, a: Action)
    requires Step(w, a) && a.Handle?
    ensures Closed(Next(w, a))
  {
    hide RequestResult, Next, Enabled, Effect, HandleResult, SlotState, Counted, OpensFirst, Awake, Closed, OpenSocket;
    HandleFacts(w, a);
    var q, s := w.pipe[0], w.sock;
    HandleIs(w, a);
    if q.ReqOpen? {
      OpenedIs(s, q, a.open, a.epollOk);
      ClosedOpen(w, a.open);
      ClosedFrame(Raise(w, OpenSocket(s, a.open), q.id), Next(w, a));
    } else {
      RequestEffect(s, q, a.epollOk);
      HandledIs(s, q, a.open, a.epollOk);
      ClosedRaise(w, RequestResult(s, q, a.epollOk), q.id);
      ClosedFrame(Raise(w, RequestResult(s, q, a.epollOk), q.id), Next(w, a));
    }
  }

  lemma ClosedWorker(w: World, a: Action)
    requires Step(w, a) && (ByWorker(a) || TakesId(a))
    ensures Closed(Next(w, a))
  {
    hide SlotState, Awake, Counted, OpensFirst, Closed, AfterLock, AfterPosting, Posting, Next, Enabled;
    if ByLock(a) {
      LockFrame(w, a);
    } else if a.Test? {
      TestFrame(w, a);
    } else if a.CountSend? {
      CountFrame(w, a);
    } else if TakesId(a) {
      TakeFrame(w, a);
    } else {
      PostsSomething(w, a);
      PostFrame(w, a);
    }
    ClosedFrame(w, Next(w, a));
  }

  // ---------------------------------------------------------------- every step

  lemma ClosedEvent(w: World, a: Action)
    requires Step(w, a) && (IsEvent(a) || a.FinishClose?)
    ensures Closed(Next(w, a))
  {
    assert Closed(w);
    var r := if IsEvent(a) then EventResult(w.sock, a) else (ForceClose(w.sock), w.pending.value.report);
    if IsEvent(a) { EventEffect(w, a); } else { FinishEffect(w); }
    hide Inv, Effect, EventResult, ForceClose, Next, Closed;
    ClosedRaise(w, r, w.sock.id);
    ClosedFrame(Raise(w, r, w.sock.id), Next(w, a));
  }

  lemma StepKeepsInv(w: World, a: Action)
    requires Step(w, a)
    ensures Inv(Next(w, a))
  {
    SlotStep(w, a);
    AwakeStep(w, a);
    hide SlotState, Awake, Counted, OpensFirst, Closed, Next, Enabled;
    if IsEvent(a) {
      CountedEvent(w, a);
      OpensFirstEvent(w, a);
      ClosedEvent(w, a);
    } else if a.FinishClose? {
      CountedFinish(w);
      ClosedEvent(w, a);
    } else if a.Handle? {
      CountedHandle(w, a);
      OpensFirstHandle(w, a);
      ClosedHandle(w, a);
    } else {
      if TakesId(a) {
        CountedTakesId(w, a);
        OpensFirstTake(w, a);
      } else {
        CountedWorker(w, a);
        OpensFirstWorker(w, a);
      }
      ClosedWorker(w, a);
    }
  }

  lemma StartIsInv()
    ensures Inv(Start())
  {
    NothingQueued();
    hide WholePackages, Lists, InHand, Unsent;
  }

  lemma {:induction false} EveryStateOfARun(ws: seq<World>, acts: seq<Action>, i: nat)
    requires Run(ws, acts) && i < |ws|
    ensures Inv(ws[i])
  {
    hide Inv, Next, Enabled;
    StartIsInv();
    if i > 0 {
      EveryStateOfARun(ws, acts, i - 1);
      assert Enabled(ws[i - 1], acts[i - 1]) && ws[i - 1 + 1] == Next(ws[i - 1], acts[i - 1]);
      StepKeepsInv(ws[i - 1], acts[i - 1]);
    }
  }
}
