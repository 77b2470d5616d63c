/** How a slot goes from state to state, told by the actions of a run and the fields of the slot: its
    type, the closes that are decided, and the write event. */
module SocketStates {
  import opened Basics
  import opened SocketSlot
  import opened SocketServer
  import opened SocketInvariants
  import opened SocketSteps
  import opened SocketTheorems

  /** Something is still to be sent. */
  predicate Busy(s: Socket) { s.high != [] || s.low != [] || s.dw.Some? || s.sending != 0 }

  lemma ConnectGuard(w: World, a: Action)
    requires Enabled(w, a) && IsEvent(a)
    ensures a.ConnectEvent? <==> w.sock.ty == Connecting
  {
  }

  lemma WorkerKeepsType(w: World, a: Action)
    requires Step(w, a) && ByWorker(a)
    ensures
      var w' := Next(w, a);
      w'.pending == w.pending && w'.sock.ty == w.sock.ty && w'.sock.id == w.sock.id
  {
    hide Inv, Next, Enabled, AfterLock, AfterPosting, Posting;
    if ByLock(a) {
      LockFrame(w, a);
    } else if a.Test? {
      TestFrame(w, a);
    } else if a.CountSend? {
      CountFrame(w, a);
      CountPending(w, a.id);
    } else {
      PostsSomething(w, a);
      PostFrame(w, a);
    }
  }

  lemma CountPending(w: World, id: nat)
    ensures IncSendingRef(w, id).pending == w.pending
  {
  }

  lemma TakesNothingPending(w: World, a: Action)
    requires Step(w, a) && TakesId(a)
    ensures w.pending == None
  {
    hide WireInv, Awake, Counted, OpensFirst, Closed;
  }

  lemma {:induction false} FailedLeaves(list: seq<WriteBuffer>, c: Channel, ks: seq<WriteResult>)
    requires AllOk(list)
    ensures Flush(list, c, ks).failed ==> Flush(list, c, ks).list != []
  {
    if |list| > 0 && |ks| > 0 && ks[0].Accept? && ks[0].n >= list[0].Unsent() {
      FailedLeaves(list[1..], Emit(c, list[0], list[0].Unsent()), ks[1..]);
    }
  }

  // ---------------------------------------------------------------- the states of a socket

  /** The state a request leads to. */
  function RequestLeads(s: Socket, q: Request, open: OpenResult, epollOk: bool): Type {
    match q
    case ReqOpen(_) => if open.Opened? then open.ty else Invalid
    case ReqResume(id) =>
      if id != s.id || !epollOk then s.ty
      else if s.ty == IPaccept then Connected
      else if s.ty == Plisten then Listen
      else s.ty
    case ReqClose(id, shutdown) =>
      if id == s.id && s.ty !in {Invalid, HalfCloseWrite} && !shutdown && Busy(s) then HalfCloseRead else s.ty
    case _ => s.ty
  }

  /** The states an action may lead to: only a write error closes the write side, and a write event
      ends a socket only if it is closing or its read side is closed. */
  predicate Leads(w: World, a: Action, ty: Type) {
    var s := w.sock;
    match a
    case DoReserve(_) => ty == Reserve
    case Accepted(_) => ty == IPaccept
    case Handle(open, epollOk) => w.pipe != [] && ty == RequestLeads(s, w.pipe[0], open, epollOk)
    case ConnectEvent(connected, _) => ty == if connected then Connected else Connecting
    case ReadEvent(r) => ty == if r.Eof? && !s.closing && s.ty != HalfCloseWrite then HalfCloseRead else s.ty
    case WriteEvent(ks, _) =>
      || ty == s.ty
      || (Fail in ks && ty == if s.ty == HalfCloseRead then Invalid else HalfCloseWrite)
      || (s.closing && s.ty == HalfCloseRead && ty == Invalid)
    case FinishClose => ty == Invalid
    case _ => ty == s.ty
  }

  /** In every run the slot goes from state to state as the actions lead it. */
  lemma StatesFollow(ws: seq<World>, acts: seq<Action>, i: nat)
    requires Run(ws, acts) && i < |acts|
    ensures Leads(ws[i], acts[i], ws[i + 1].sock.ty)
  {
    hide Inv, Next, Enabled, HandleResult, EventResult, RequestLeads, Effect;
    StepOfRun(ws, acts, i);
    var w, a := ws[i], acts[i];
    if IsEvent(a) {
      EventEffect(w, a);
      ConnectGuard(w, a);
      if w.sock.closing { ClosingIsHalfClosed(w); }
      EventLeads(w, a);
    } else if a.Handle? {
      HandleFacts(w, a);
      HandleIs(w, a);
      RequestLeadsOn(w.sock, w.pipe[0], a.open, a.epollOk);
    } else if a.FinishClose? {
      FinishEffect(w);
    } else if TakesId(a) {
      TakeFrame(w, a);
    } else {
      WorkerKeepsType(w, a);
    }
  }

  lemma SendKeepsType(s: Socket, id: nat, p: Package, epollOk: bool)
    ensures DecSendingRef(SendSocket(s, id, p, epollOk).0, id).ty == s.ty
    ensures TriggerWrite(s, id, epollOk).0.ty == s.ty
  {
  }

  lemma CloseLeads(s: Socket, id: nat, shutdown: bool)
    ensures
      CloseSocket(s, id, shutdown).0.ty ==
        if id == s.id && s.ty !in {Invalid, HalfCloseWrite} && !shutdown && Busy(s) then HalfCloseRead else s.ty
  {
  }

  lemma RequestLeadsOn(s: Socket, q: Request, open: OpenResult, epollOk: bool)
    ensures HandleResult(s, q, open, epollOk).0.ty == RequestLeads(s, q, open, epollOk)
  {
    hide SendSocket, DecSendingRef, TriggerWrite, CloseSocket, Busy;
    match q
    case ReqSend(id, p) => SendKeepsType(s, id, p, epollOk);
    case ReqTrigger(id) => SendKeepsType(s, id, Package(0, false, []), epollOk);
    case ReqClose(id, shutdown) => CloseLeads(s, id, shutdown);
    case _ =>
  }

  lemma EventLeads(w: World, a: Action)
    requires BuffersOk(w.sock) && Live(w.sock) && IsEvent(a) && (a.ConnectEvent? <==> w.sock.ty == Connecting)
    requires w.sock.closing ==> w.sock.ty == HalfCloseRead
    ensures Leads(w, a, EventResult(w.sock, a).0.ty)
  {
    if a.WriteEvent? { FlushLeads(w.sock, a.ks, a.epollOk); }
    hide SendBuffer;
  }

  /** Where a flush of s may lead; failed says whether a write failed. */
  predicate FlushGoes(s: Socket, failed: bool, ty: Type) {
    || ty == s.ty
    || (failed && ty == if s.ty == HalfCloseRead then Invalid else HalfCloseWrite)
    || (s.closing && s.ty == HalfCloseRead && ty == Invalid)
  }

  lemma FlushLeads(s: Socket, ks: seq<WriteResult>, epollOk: bool)
    requires BuffersOk(s) && Live(s) && (s.closing ==> s.ty == HalfCloseRead)
    ensures FlushGoes(s, Fail in ks, SendBuffer(s, ks, epollOk).0.ty)
  {
    hide Flush, FlushBoth, FlushGoes;
    BothLead(TakeDirect(s), ks, epollOk);
    assert FlushGoes(TakeDirect(s), Fail in ks, SendBuffer(s, ks, epollOk).0.ty);
    SameGoes(s, TakeDirect(s), Fail in ks, SendBuffer(s, ks, epollOk).0.ty);
  }

  lemma SameGoes(s: Socket, r: Socket, failed: bool, ty: Type)
    requires FlushGoes(r, failed, ty) && r.ty == s.ty && r.closing == s.closing
    ensures FlushGoes(s, failed, ty)
  {
  }

  lemma BothLead(s: Socket, ks: seq<WriteResult>, epollOk: bool)
    requires AllOk(s.high) && AllOk(s.low) && Live(s) && (s.closing ==> s.ty == HalfCloseRead)
    ensures FlushGoes(s, Fail in ks, FlushBoth(s, ks, epollOk).0.ty)
  {
    hide Flush, FlushLow, FlushGoes, CloseWrite, Drained;
    var f := Flush(s.high, s.chan, ks);
    if Fail !in ks { NoFailure(s.high, s.chan, ks); }
    RestFails(s.high, s.chan, ks);
    var s1 := WithHigh(s, f);
    EndsLead(s1, Fail in ks, epollOk);
    if !f.failed && s1.high == [] && s1.low != [] {
      LowLeads(s1, f.rest, epollOk);
      FailsMore(s1, Fail in f.rest, Fail in ks, FlushLow(s1, f.rest, epollOk).0.ty);
    }
    SameGoes(s, s1, Fail in ks, FlushBoth(s, ks, epollOk).0.ty);
  }

  lemma FailsMore(s: Socket, failed: bool, more: bool, ty: Type)
    requires FlushGoes(s, failed, ty) && (failed ==> more)
    ensures FlushGoes(s, more, ty)
  {
  }

  lemma {:induction false} RestFails(list: seq<WriteBuffer>, c: Channel, ks: seq<WriteResult>)
    requires AllOk(list)
    ensures Fail in Flush(list, c, ks).rest ==> Fail in ks
  {
    if |list| > 0 && |ks| > 0 && ks[0].Accept? && ks[0].n >= list[0].Unsent() {
      RestFails(list[1..], Emit(c, list[0], list[0].Unsent()), ks[1..]);
    }
  }

  /** Where the ends of a flush lead. */
  lemma EndsLead(s: Socket, failed: bool, epollOk: bool)
    requires Live(s) && (s.closing ==> s.ty == HalfCloseRead)
    ensures FlushGoes(s, failed, s.ty) && FlushGoes(s, true, CloseWrite(s).0.ty)
    ensures FlushGoes(s, failed, Drained(s, epollOk).0.ty)
  {
  }

  lemma LowLeads(s: Socket, ks: seq<WriteResult>, epollOk: bool)
    requires AllOk(s.low) && Live(s) && (s.closing ==> s.ty == HalfCloseRead)
    ensures FlushGoes(s, Fail in ks, FlushLow(s, ks, epollOk).0.ty)
  {
    hide Flush, FlushGoes, CloseWrite, Drained;
    var f := Flush(s.low, s.chan, ks);
    if Fail !in ks { NoFailure(s.low, s.chan, ks); }
    var s2 := WithLow(s, f);
    EndsLead(s2, Fail in ks, epollOk);
    SameGoes(s, s2, Fail in ks, FlushLow(s, ks, epollOk).0.ty);
  }

  // ---------------------------------------------------------------- which actions decide a close

  predicate RequestCloses(s: Socket, q: Request) {
    q.ReqClose? && q.id == s.id && s.ty != Invalid && (q.shutdown || s.ty == HalfCloseWrite || !Busy(s))
  }

  /** A request to close decides it at once if it is a shutdown or nothing is left to send; an end of file
      does if the write side is gone or a closing socket has nothing left; a connection that could not
      be made and a hang-up always do. */
  predicate Closes(w: World, a: Action) {
    var s := w.sock;
    match a
    case Handle(_, _) => w.pipe != [] && RequestCloses(s, w.pipe[0])
    case ConnectEvent(connected, epollOk) => !connected || (!Busy(s) && !epollOk)
    case ReadEvent(Eof) => s.ty == HalfCloseWrite || (s.closing && !Busy(s))
    case HangUpEvent => true
    case _ => false
  }

  /** In every run a close is decided exactly by those actions, and ends exactly with the lock. */
  lemma CloseIsDecidedIff(ws: seq<World>, acts: seq<Action>, i: nat)
    requires Run(ws, acts) && i < |acts|
    ensures ws[i].pending == None ==> (ws[i + 1].pending.Some? <==> Closes(ws[i], acts[i]))
    ensures ws[i].pending.Some? ==> (ws[i + 1].pending == None <==> acts[i] == FinishClose)
  {
    hide Inv, Next, Enabled, HandleResult, EventResult, EventClosing, RequestClosing, Closes, ForceClose, Effect;
    StepOfRun(ws, acts, i);
    var w, a := ws[i], acts[i];
    if IsEvent(a) {
      EventEffect(w, a);
      ConnectGuard(w, a);
      if w.sock.closing { ClosingIsHalfClosed(w); }
      EventClosesIff(w, a);
    } else if a.Handle? {
      HandleFacts(w, a);
      HandleIs(w, a);
      RequestClosesIff(w, a);
    } else if a.FinishClose? {
      FinishGuard(w);
      FinishEffect(w);
    } else if TakesId(a) {
      TakesNothingPending(w, a);
      TakeFrame(w, a);
      OthersNeverClose(w, a);
    } else {
      WorkerKeepsType(w, a);
      OthersNeverClose(w, a);
    }
  }

  lemma OthersNeverClose(w: World, a: Action)
    requires ByWorker(a) || TakesId(a)
    ensures !Closes(w, a) && a != FinishClose
  {
  }

  lemma RequestClosesIff(w: World, a: Action)
    requires a.Handle? && w.pipe != []
    ensures RequestClosing(w.sock, w.pipe[0]).Some? <==> Closes(w, a)
  {
  }

  lemma EventClosesIff(w: World, a: Action)
    requires IsEvent(a) && Live(w.sock) && (w.sock.closing ==> w.sock.ty == HalfCloseRead)
    ensures EventClosing(w.sock, a).Some? <==> Closes(w, a)
  {
  }

  // ---------------------------------------------------------------- the write event

  /** Whether the write event is on after a request: it is turned on for a connection that is under way,
      for the first package that is queued, and for a worker that left bytes over. */
  function RequestWrites(s: Socket, q: Request, open: OpenResult, epollOk: bool): bool {
    match q
    case ReqOpen(_) => if open.Opened? then open.ty == Connecting else if open.Refused? then s.writing else false
    case ReqTrigger(id) => s.writing || (id == s.id && s.ty != Invalid)
    case ReqSend(id, _) =>
      || s.writing
      || (&& id == s.id && !s.closing && s.ty !in {Invalid, HalfCloseWrite, IPaccept, Plisten, Listen}
          && s.high == [] && s.low == [])
    case _ => s.writing
  }

  /** Whether it is on after an action that makes the slot s': it is turned off when a connection is made
      with nothing to send, and when a flush leaves nothing or closes the write side. */
  function Writes(w: World, a: Action, s': Socket): bool {
    var s := w.sock;
    match a
    case Accepted(_) => false
    case Handle(open, epollOk) => if w.pipe == [] then s.writing else RequestWrites(s, w.pipe[0], open, epollOk)
    case ConnectEvent(connected, _) => s.writing && (!connected || Busy(s))
    case WriteEvent(_, _) =>
      && s.writing
      && !(s'.ty == HalfCloseWrite && s.ty != HalfCloseWrite)
      && !(s'.high == [] && s'.low == [] && !s.closing && s'.ty != Invalid)
    case _ => s.writing
  }

  /** In every run the write event is on exactly as the actions turn it. */
  lemma WriteEventFollows(ws: seq<World>, acts: seq<Action>, i: nat)
    requires Run(ws, acts) && i < |acts|
    ensures ws[i + 1].sock.writing == Writes(ws[i], acts[i], ws[i + 1].sock)
  {
    hide Inv, Next, Enabled, HandleResult, EventResult, RequestWrites, ForceClose, Effect;
    StepOfRun(ws, acts, i);
    var w, a := ws[i], acts[i];
    if IsEvent(a) {
      EventEffect(w, a);
      ConnectGuard(w, a);
      if w.sock.closing { ClosingIsHalfClosed(w); }
      EventWrites(w, a);
    } else if a.Handle? {
      HandleFacts(w, a);
      HandleIs(w, a);
      RequestWritesOn(w.sock, w.pipe[0], a.open, a.epollOk);
    } else if a.FinishClose? {
      FinishEffect(w);
      ForceKeepsWriting(w.sock);
    } else if TakesId(a) {
      TakeFrame(w, a);
    } else {
      WorkerKeepsWriting(w, a);
    }
  }

  lemma ForceKeepsWriting(s: Socket)
    ensures ForceClose(s).writing == s.writing
  {
  }

  lemma WorkerKeepsWriting(w: World, a: Action)
    requires Step(w, a) && ByWorker(a)
    ensures Next(w, a).sock.writing == w.sock.writing
  {
    hide Inv, Next, Enabled, AfterLock, AfterPosting, Posting;
    if ByLock(a) {
      LockFrame(w, a);
    } else if a.Test? {
      TestFrame(w, a);
    } else if a.CountSend? {
      CountFrame(w, a);
    } else {
      PostsSomething(w, a);
      PostFrame(w, a);
    }
  }

  lemma RequestWritesOn(s: Socket, q: Request, open: OpenResult, epollOk: bool)
    requires s.ty == Reserve && s.id == q.id ==> q.ReqOpen?
    ensures HandleResult(s, q, open, epollOk).0.writing == RequestWrites(s, q, open, epollOk)
  {
    hide NomoreSendingData;
  }

  lemma EventWrites(w: World, a: Action)
    requires IsEvent(a) && BuffersOk(w.sock) && Live(w.sock) && (a.ConnectEvent? <==> w.sock.ty == Connecting)
    requires w.sock.closing ==> w.sock.ty == HalfCloseRead
    ensures EventResult(w.sock, a).0.writing == Writes(w, a, EventResult(w.sock, a).0)
  {
    if a.WriteEvent? { FlushTurnsOff(w.sock, a.ks, a.epollOk); }
    hide SendBuffer;
  }

  /** A flush of s that leaves r turns the write event off. */
  predicate TurnsOff(s: Socket, r: Socket) {
    (r.ty == HalfCloseWrite && s.ty != HalfCloseWrite) || (r.high == [] && r.low == [] && !s.closing && r.ty != Invalid)
  }

  lemma FlushTurnsOff(s: Socket, ks: seq<WriteResult>, epollOk: bool)
    requires BuffersOk(s) && Live(s) && (s.closing ==> s.ty == HalfCloseRead)
    ensures var r := SendBuffer(s, ks, epollOk).0; r.writing == (s.writing && !TurnsOff(s, r))
  {
    hide FlushBoth;
    BothTurnOff(TakeDirect(s), ks, epollOk);
  }

  lemma EndsTurnOff(s: Socket, epollOk: bool)
    requires Live(s) && (s.closing ==> s.ty == HalfCloseRead)
    ensures s.high != [] || s.low != [] ==> CloseWrite(s).0.writing == (s.writing && !TurnsOff(s, CloseWrite(s).0))
    ensures s.high != [] || s.low != [] ==> !TurnsOff(s, s)
    ensures
      s.high == [] && s.low == [] ==>
        Drained(s, epollOk).0.writing == (s.writing && !TurnsOff(s, Drained(s, epollOk).0))
  {
  }

  lemma SameTurn(s: Socket, r: Socket, end: Socket)
    requires r.ty == s.ty && r.closing == s.closing
    ensures TurnsOff(r, end) <==> TurnsOff(s, end)
  {
  }

  lemma LowTurnsOff(s: Socket, ks: seq<WriteResult>, epollOk: bool)
    requires AllOk(s.low) && s.low != [] && s.high == [] && Live(s) && (s.closing ==> s.ty == HalfCloseRead)
    ensures var r := FlushLow(s, ks, epollOk).0; r.writing == (s.writing && !TurnsOff(s, r))
  {
    hide Flush, CloseWrite, Drained, TurnsOff;
    FailedLeaves(s.low, s.chan, ks);
    var s2 := WithLow(s, Flush(s.low, s.chan, ks));
    EndsTurnOff(s2, epollOk);
    SameTurn(s, s2, FlushLow(s, ks, epollOk).0);
    if ListUncomplete(s2.low) {
      EndsTurnOff(RaiseUncomplete(s2), epollOk);
      SameTurn(s2, RaiseUncomplete(s2), RaiseUncomplete(s2));
    }
  }

  lemma BothTurnOff(s: Socket, ks: seq<WriteResult>, epollOk: bool)
    requires AllOk(s.high) && AllOk(s.low) && Live(s) && (s.closing ==> s.ty == HalfCloseRead)
    ensures var r := FlushBoth(s, ks, epollOk).0; r.writing == (s.writing && !TurnsOff(s, r))
  {
    hide Flush, FlushLow, CloseWrite, Drained, TurnsOff;
    var f := Flush(s.high, s.chan, ks);
    FailedLeaves(s.high, s.chan, ks);
    var s1 := WithHigh(s, f);
    EndsTurnOff(s1, epollOk);
    SameTurn(s, s1, FlushBoth(s, ks, epollOk).0);
    if !f.failed && s1.high == [] && s1.low != [] { LowTurnsOff(s1, f.rest, epollOk); }
  }
}
