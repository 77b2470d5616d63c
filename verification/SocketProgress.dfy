/** What can go on in every reachable state, and that what is sent arrives when the kernel takes it. */
module SocketProgress {
  import opened Basics
  import opened Seqs
  import opened SocketSlot
  import opened SocketServer
  import opened SocketInvariants
  import opened SocketSteps
  import opened SocketOrder
  import opened SocketTheorems
  import opened SocketRaces

  // ---------------------------------------------------------------- nobody is stuck

  /** In every state of every run the socket thread can go on: with the next request, unless it is a
      send that the assertion fails on, with every event of a socket that has any, and with the end
      of a decided close once no worker holds the lock. A worker that holds it can go on too. */
  lemma EveryThreadGoesOn(ws: seq<World>, acts: seq<Action>, i: nat)
    requires Run(ws, acts) && i < |ws|
    ensures
      var w := ws[i];
      && (w.pending == None && w.pipe != [] && !Aborts(w) ==> forall ok :: Enabled(w, Handle(Refused, ok)))
      && (w.pending == None && w.sock.ty == Connecting ==> forall c, ok :: Enabled(w, ConnectEvent(c, ok)))
      && (w.pending == None && w.sock.ty !in {Invalid, Reserve, Connecting, Listen} ==>
            && (forall r :: Enabled(w, ReadEvent(r))) && Enabled(w, ErrorEvent) && Enabled(w, HangUpEvent)
            && (w.lock == Unlocked ==> forall ks, ok :: Enabled(w, WriteEvent(ks, ok))))
      && (w.pending.Some? && w.lock == Unlocked ==> Enabled(w, FinishClose))
      && match w.lock
         case Unlocked => true
         case Looked => (forall data :: Enabled(w, Pass(data))) || Enabled(w, GiveUp)
         case Checked(p) => forall n :: 0 <= n <= |p.data| ==> Enabled(w, WriteDirect(n))
         case Wrote(_, _) => Enabled(w, StoreDirect)
  {
    hide Run, Inv, Enabled, Aborts;
    if ws[i].pending == None && Live(ws[i].sock) { SizeIsUnsentBytes(ws, acts, i); }
    RequestsGoOn(ws[i]);
    EventsGoOn(ws[i]);
    HoldersGoOn(ws[i]);
  }

  lemma RequestsGoOn(w: World)
    ensures w.pending == None && w.pipe != [] && !Aborts(w) ==> forall ok :: Enabled(w, Handle(Refused, ok))
    ensures w.pending.Some? && w.lock == Unlocked ==> Enabled(w, FinishClose)
  {
    hide Aborts;
  }

  lemma EventsGoOn(w: World)
    requires w.pending == None && Live(w.sock) ==> BuffersOk(w.sock)
    ensures w.pending == None && w.sock.ty == Connecting ==> forall c, ok :: Enabled(w, ConnectEvent(c, ok))
    ensures
      w.pending == None && w.sock.ty !in {Invalid, Reserve, Connecting, Listen} ==>
        && (forall r :: Enabled(w, ReadEvent(r))) && Enabled(w, ErrorEvent) && Enabled(w, HangUpEvent)
        && (w.lock == Unlocked ==> forall ks, ok :: Enabled(w, WriteEvent(ks, ok)))
  {
    hide BuffersOk;
  }

  lemma HoldersGoOn(w: World)
    ensures
      match w.lock
      case Unlocked => true
      case Looked => (forall data :: Enabled(w, Pass(data))) || Enabled(w, GiveUp)
      case Checked(p) => forall n :: 0 <= n <= |p.data| ==> Enabled(w, WriteDirect(n))
      case Wrote(_, _) => Enabled(w, StoreDirect)
  {
  }

  /** Callers are free too. An id that was returned, so whose opening request is in the pipe or taken, can
      be closed, resumed and sent to while the counter is not full; what was begun can be posted; and a
      worker that passed its test gets the lock when nobody has it and nothing is queued. An invalid slot
      can be reserved or accepted into. */
  lemma EveryCallerGoesOn(w: World, id: nat)
    ensures
      0 < id <= w.sock.id && (w.aboutToOpen ==> id < w.sock.id) ==>
        && (forall shutdown :: Enabled(w, PostClose(id, shutdown))) && Enabled(w, PostResume(id))
        && (!(w.sock.tcp && w.sock.tag == id && w.sock.sending == 0xffff) ==> Enabled(w, CountSend(id)))
        && (w.sock.id == id && w.sock.sending == 0 ==> Enabled(w, Test(id)))
    ensures w.aboutToSend[id] > 0 ==> forall low, data :: Enabled(w, PostSend(id, low, data))
    ensures w.aboutToTrigger[id] > 0 ==> Enabled(w, PostTrigger(id))
    ensures w.aboutToOpen ==> Enabled(w, PostOpen)
    ensures
      && w.tested[w.sock.id] > 0 && w.lock == Unlocked && w.sock.ty == Connected
      && w.sock.high == [] && w.sock.low == [] && w.sock.dw == None ==>
        Enabled(w, Look)
    ensures
      w.sock.ty == Invalid && id > w.sock.id ==>
        Enabled(w, DoReserve(id)) && (w.pending == None ==> Enabled(w, Accepted(id)))
  {
    hide Aborts, BuffersOk;
  }

  // ---------------------------------------------------------------- a kernel that takes everything

  function Takes(n: nat, room: nat): seq<WriteResult> { seq(n, _ => Accept(room)) }

  lemma {:induction false} AllTaken(list: seq<WriteBuffer>, c: Channel, n: nat, room: nat)
    requires AllOk(list) && n >= |list|
    requires forall b :: b in list ==> |b.pkg.data| <= room
    ensures
      var f := Flush(list, c, Takes(n, room));
      f.list == [] && !f.failed && f.rest == Takes(n - |list|, room) && f.chan.done == c.done + Packages(list)
      && f.chan.part == if list == [] then c.part else None
  {
    if |list| > 0 {
      var b, c' := list[0], Emit(c, list[0], list[0].Unsent());
      assert Takes(n, room)[1..] == Takes(n - 1, room);
      AllTaken(list[1..], c', n - 1, room);
      assert c.done + ([b.pkg] + Packages(list[1..])) == (c.done + [b.pkg]) + Packages(list[1..]);
    } else {
      assert c.done + [] == c.done;
    }
  }

  /** Everything the slot holds is no longer than room. */
  predicate Fit(s: Socket, room: nat) {
    && (forall b :: b in s.high + s.low ==> |b.pkg.data| <= room)
    && (s.dw.Some? ==> |s.dw.value.pkg.data| <= room)
  }

  lemma LowTaken(s: Socket, n: nat, room: nat)
    requires s.dw == None && s.high == [] && s.low != [] && AllOk(s.low) && n >= |s.low| && Live(s)
    requires forall b :: b in s.low ==> |b.pkg.data| <= room
    ensures
      var r := FlushLow(s, Takes(n, room), true).0;
      && r.high == [] && r.low == [] && r.dw == None && r.chan.done == s.chan.done + Packages(s.low)
      && r.ty == (if s.closing then Invalid else s.ty) && (!s.closing ==> !r.writing) && r.chan.part == None
  {
    AllTaken(s.low, s.chan, n, room);
    hide Flush, Packages, Takes;
  }

  lemma BothTaken(s: Socket, n: nat, room: nat)
    requires s.dw == None && AllOk(s.high) && AllOk(s.low) && n >= |s.high| + |s.low| && Live(s)
    requires Fit(s, room)
    ensures
      var r := FlushBoth(s, Takes(n, room), true).0;
      && r.high == [] && r.low == [] && r.dw == None && r.chan.done == s.chan.done + Packages(s.high) + Packages(s.low)
      && r.ty == (if s.closing then Invalid else s.ty) && (!s.closing ==> !r.writing)
      && r.chan.part == if s.high == [] && s.low == [] then s.chan.part else None
  {
    FitEach(s, room);
    NoPackages();
    AllTaken(s.high, s.chan, n, room);
    hide Flush, FlushLow, Packages, Takes, Fit, AllOk;
    var s1 := WithHigh(s, Flush(s.high, s.chan, Takes(n, room)));
    if s.low != [] {
      LowTaken(s1, n - |s.high|, room);
    } else {
      assert s1.chan.done + [] == s1.chan.done;
    }
  }

  lemma FitEach(s: Socket, room: nat)
    requires Fit(s, room)
    ensures forall b :: b in s.high || b in s.low ==> |b.pkg.data| <= room
  {
    assert forall b :: b in s.high || b in s.low ==> b in s.high + s.low;
  }

  lemma NoPackages()
    ensures Packages([]) == []
  {
  }

  lemma SlotTaken(s: Socket, n: nat, room: nat)
    requires BuffersOk(s) && n > |s.high| + |s.low| && Live(s) && Fit(s, room)
    requires s.chan.part == InHand(s.high, s.dw, Unlocked)
    ensures
      var r := SendBuffer(s, Takes(n, room), true).0;
      && r.high == [] && r.low == [] && r.dw == None
      && r.chan.done == s.chan.done + Direct(s.dw) + Packages(s.high) + Packages(s.low)
      && r.ty == (if s.closing then Invalid else s.ty) && (!s.closing ==> !r.writing) && r.chan.part == None
  {
    hide FlushBoth, Packages, Fit, AllOk;
    DirectTaken(s, room);
    BothTaken(TakeDirect(s), n, room);
  }

  /** The slot with the direct-write buffer in front. */
  lemma DirectTaken(s: Socket, room: nat)
    requires BuffersOk(s) && Fit(s, room)
    ensures
      var r := TakeDirect(s);
      && AllOk(r.high) && AllOk(r.low) && Fit(r, room) && r == s.(high := r.high, wbSize := r.wbSize, dw := None)
      && s.chan.done + Packages(r.high) == s.chan.done + Direct(s.dw) + Packages(s.high)
      && |r.high| <= |s.high| + 1
      && (r.high == [] ==> InHand(s.high, s.dw, Unlocked) == None)
  {
    assert forall b :: b in s.high || b in s.low ==> b in s.high + s.low;
    var r := TakeDirect(s);
    if s.dw.Some? {
      assert r.high[0] == s.dw.value && r.high[1..] == s.high;
      assert s.chan.done + ([s.dw.value.pkg] + Packages(s.high)) == (s.chan.done + [s.dw.value.pkg]) + Packages(s.high);
    } else {
      assert s.chan.done + [] == s.chan.done;
    }
  }

  /** In every run, if no worker holds the lock, a write event to a kernel that takes everything writes
      all that the slot holds, whole and in order, and then closes the socket if it is closing and
      turns the write event off if it is not. */
  lemma WriteEventSendsEverything(ws: seq<World>, acts: seq<Action>, i: nat, n: nat, room: nat)
    requires Run(ws, acts) && i < |ws| && ws[i].pending == None && ws[i].lock == Unlocked
    requires ws[i].sock.ty !in {Invalid, Reserve, Connecting, Listen}
    requires n > |ws[i].sock.high| + |ws[i].sock.low| && Fit(ws[i].sock, room)
    ensures Enabled(ws[i], WriteEvent(Takes(n, room), true))
    ensures
      var s, r := ws[i].sock, Next(ws[i], WriteEvent(Takes(n, room), true)).sock;
      && r.chan.done == s.chan.done + Direct(s.dw) + Packages(s.high) + Packages(s.low)
      && r.high == [] && r.low == [] && r.dw == None && r.chan.wire == Payload(r.chan.done)
      && r.ty == (if s.closing then Invalid else s.ty) && (!s.closing ==> !r.writing)
  {
    hide Inv, Enabled, Next, Fit, Packages, SendBuffer, Payload;
    var w, a := ws[i], WriteEvent(Takes(n, room), true);
    EveryThreadGoesOn(ws, acts, i);
    EveryStateOfARun(ws, acts, i);
    EventEffect(w, a);
    AtPollSlot(w);
    SlotTaken(w.sock, n, room);
    StepKeepsInv(w, a);
    WholeWhenDone(Next(w, a));
  }

  lemma WholeWhenDone(w: World)
    requires Inv(w) && !w.torn && w.sock.chan.part == None
    ensures w.sock.chan.wire == Payload(w.sock.chan.done)
  {
    hide Awake, Counted, OpensFirst, Closed, ClosingInv, SlotInv;
    assert Payload(w.sock.chan.done) + [] == Payload(w.sock.chan.done);
  }

  // ---------------------------------------------------------------- what is sent arrives

  /** Bytes that are sent through the pipe to a connected socket reach the wire. */
  lemma SentThroughThePipeArrives(data: seq<byte>)
    ensures exists w :: Reachable(w) && w.sock.ty == Connected && w.pending == None && w.sock.chan.wire == data
  {
    hide Reachable, Enabled, Next, Flush;
    var w0 := ConnectIsReachable();
    var w1 := SendReaches(w0, data);
    var p := Package(0, false, data);
    assert w1.pipe == [ReqSend(1, p)];
    var w2 := HandleSendReaches(w1, p);
    assert w2.sock.high == [WriteBuffer(p, 0)];
    var ks := [Accept(|data|)];
    WriteNext(w2, ks);
    ReachNext(w2, WriteEvent(ks, true));
    OneTaken(w2.sock, p);
  }

  lemma OneTaken(s: Socket, p: Package)
    requires s.high == [WriteBuffer(p, 0)] && s.low == [] && s.dw == None && s.chan == NewChannel
    requires s.ty == Connected && !s.closing
    ensures
      var r := SendBuffer(s, [Accept(|p.data|)], true).0;
      r.chan.wire == p.data && r.ty == Connected
  {
    var b, ks := WriteBuffer(p, 0), [Accept(|p.data|)];
    var c := Emit(NewChannel, b, |p.data|);
    assert p.data[0..|p.data|] == p.data && [] + p.data == p.data;
    assert s.high[1..] == [] && Flush([], c, ks[1..]).chan == c;
    assert Flush(s.high, s.chan, ks).chan == c && Flush(s.high, s.chan, ks).list == [];
    hide Flush, Emit;
  }

  /** Bytes that a worker writes itself to a connected socket reach the wire. */
  lemma WrittenDirectlyArrives(data: seq<byte>)
    requires data != []
    ensures exists w :: Reachable(w) && w.sock.ty == Connected && w.pending == None && w.sock.chan.wire == data
  {
    hide Reachable, Next, Enabled;
    var w := ConnectIsReachable();
    var w0 := TestReaches(w);
    var w1 := LookReaches(w0);
    var w2 := PassReaches(w1, data);
    DirectlyWritten(w2, data);
    ReachNext(w2, WriteDirect(|data|));
  }

  lemma DirectlyWritten(w: World, data: seq<byte>)
    requires w.lock == Checked(Package(0, false, data)) && w.sock.chan == NewChannel && data != []
    ensures Enabled(w, WriteDirect(|data|))
    ensures Next(w, WriteDirect(|data|)).sock == w.sock.(chan := Next(w, WriteDirect(|data|)).sock.chan)
    ensures Next(w, WriteDirect(|data|)).sock.chan.wire == data && Next(w, WriteDirect(|data|)).pending == w.pending
  {
    var c := DirectEmit(NewChannel, Package(0, false, data), |data|);
    assert c.wire == [] + data[0..|data|];
    LockNext(w, WriteDirect(|data|));
    assert data[0..|data|] == data && [] + data == data;
  }
}
