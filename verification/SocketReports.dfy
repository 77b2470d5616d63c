/** What the socket thread reports in every run, told by the actions of the run and the fields of
    the slot: received data, openings and closes. */
module SocketReports {
  import opened Basics
  import opened Seqs
  import opened SocketSlot
  import opened SocketServer
  import opened SocketInvariants
  import opened SocketSteps
  import opened SocketTheorems
  import opened SocketStates

  // ---------------------------------------------------------------- what each action reports

  /** The data, openings and closes that an action reports. Bytes are data unless the read side is
      closed. A socket opens when its opening request leaves it anything but connecting, when its
      connection is made, and when it is resumed. It is reported closed at an end of file or a
      graceful close, if its read side was open, and when a decided close that owes the report has
      the lock. */
  function Tells(w: World, a: Action): seq<Event> {
    var s := w.sock;
    match a
    case ReadEvent(Bytes) => if s.ty == HalfCloseRead then [] else [Event(Data, s.id)]
    case ReadEvent(Eof) => if s.closing || s.ty in {HalfCloseRead, HalfCloseWrite} then [] else [Event(Close, s.id)]
    case ConnectEvent(connected, epollOk) => if connected && (epollOk || Busy(s)) then [Event(Open, s.id)] else []
    case Handle(open, epollOk) => if w.pipe == [] then [] else Answers(s, w.pipe[0], open, epollOk)
    case FinishClose => if w.pending.Some? && w.pending.value.report == Close then [Event(Close, s.id)] else []
    case _ => []
  }

  function Answers(s: Socket, q: Request, open: OpenResult, epollOk: bool): seq<Event> {
    match q
    case ReqOpen(id) => if open.Opened? && open.ty != Connecting then [Event(Open, id)] else []
    case ReqResume(id) =>
      if s.id == id && epollOk && s.ty in {IPaccept, Plisten, Connected} then [Event(Open, id)] else []
    case ReqClose(id, shutdown) =>
      if s.id == id && s.ty !in {Invalid, HalfCloseRead, HalfCloseWrite} && !shutdown && Busy(s) then [Event(Close, id)]
      else []
    case _ => []
  }

  /** Errors aside. */
  function NotErr(): Event -> bool { (e: Event) => e.kind != Err }

  /** All that was told in the first i actions. */
  ghost function Told(ws: seq<World>, acts: seq<Action>, i: nat): seq<Event>
    requires i <= |acts| && |ws| == |acts| + 1
  {
    if i == 0 then [] else Told(ws, acts, i - 1) + Tells(ws[i - 1], acts[i - 1])
  }

  /** An action adds what it tells and at most errors. */
  predicate Adds(w: World, w': World, told: seq<Event>) {
    Filter(w'.events, NotErr()) == Filter(w.events, NotErr()) + told
  }

  lemma NothingAdded(w: World, w': World)
    requires w'.events == w.events
    ensures Adds(w, w', [])
  {
    hide Filter;
  }

  lemma RaisedAdds(w: World, w': World, kind: Report, id: nat)
    requires w'.events == if kind == Quiet then w.events else w.events + [Event(kind, id)]
    ensures Adds(w, w', if kind == Quiet || kind == Err then [] else [Event(kind, id)])
  {
    FilterSnoc(w.events, Event(kind, id), NotErr());
    hide Filter;
  }

  lemma RequestTells(s: Socket, q: Request, open: OpenResult, epollOk: bool)
    requires s.ty == Reserve && s.id == q.id ==> q.ReqOpen?
    ensures
      var kind := HandleResult(s, q, open, epollOk).1;
      Answers(s, q, open, epollOk) == if kind == Quiet || kind == Err then [] else [Event(kind, q.id)]
  {
  }

  lemma EventTells(w: World, a: Action)
    requires IsEvent(a) && BuffersOk(w.sock) && Live(w.sock)
    ensures
      var kind := EventResult(w.sock, a).1;
      Tells(w, a) == if kind == Quiet || kind == Err then [] else [Event(kind, w.sock.id)]
  {
    if a.WriteEvent? { SendBufferReports(w.sock, a.ks, a.epollOk); }
    hide SendBuffer;
  }

  lemma StepTells(w: World, a: Action)
    requires Step(w, a)
    ensures Adds(w, Next(w, a), Tells(w, a))
  {
    hide Inv, Next, Enabled, Adds, HandleResult, EventResult, Answers, ForceClose;
    if IsEvent(a) {
      EventEffect(w, a);
      EventTells(w, a);
      RaisedAdds(w, Next(w, a), EventResult(w.sock, a).1, w.sock.id);
    } else if a.Handle? {
      HandleFacts(w, a);
      HandleIs(w, a);
      RequestTells(w.sock, w.pipe[0], a.open, a.epollOk);
      RaisedAdds(w, Next(w, a), HandleResult(w.sock, w.pipe[0], a.open, a.epollOk).1, w.pipe[0].id);
    } else if a.FinishClose? {
      FinishGuard(w);
      FinishEffect(w);
      RaisedAdds(w, Next(w, a), w.pending.value.report, w.sock.id);
    } else {
      SilentStep(w, a);
      NothingAdded(w, Next(w, a));
    }
  }

  lemma SilentStep(w: World, a: Action)
    requires Step(w, a) && (ByWorker(a) || TakesId(a))
    ensures Next(w, a).events == w.events
  {
    hide Inv, Next, Enabled, AfterLock, AfterPosting, Posting;
    if ByLock(a) {
      LockFrame(w, a);
    } else if a.Test? {
      TestFrame(w, a);
    } else if a.CountSend? {
      CountFrame(w, a);
    } else if TakesId(a) {
      TakeFrame(w, a);
    } else {
      PostsSomething(w, a);
      PostFrame(w, a);
    }
  }

  /** In every run the services hear exactly what was told, in that order, and errors. */
  lemma {:induction false} EventsAreWhatWasTold(ws: seq<World>, acts: seq<Action>, i: nat)
    requires Run(ws, acts) && i < |ws|
    ensures Filter(ws[i].events, NotErr()) == Told(ws, acts, i)
  {
    hide Inv, Next, Enabled, Tells;
    if i > 0 {
      EventsAreWhatWasTold(ws, acts, i - 1);
      StepOfRun(ws, acts, i - 1);
      StepTells(ws[i - 1], acts[i - 1]);
    }
  }

  // ---------------------------------------------------------------- a decided close

  /** What a close owes when it is decided: the report of the close, unless the read side was closed
      before; of a connection that could not be made, an error. */
  function Owes(w: World, a: Action): Report {
    if a.ConnectEvent? then Err else if w.sock.ty == HalfCloseRead then Quiet else Close
  }

  lemma DecisionOwes(w: World, a: Action)
    requires Decides(w, a)
    ensures Next(w, a).pending.value.report == Owes(w, a)
  {
    DecidingActions(w, a);
    if a.Handle? {
      HandleIs(w, a);
      hide Inv, Next, Enabled, HandleResult;
    } else {
      EventEffect(w, a);
      if w.sock.closing { ClosingIsHalfClosed(w); }
      hide Inv, Next, Enabled, EventResult, Effect;
    }
  }

  /** A decided close is reported when it has the lock, unless the read side was closed when it was
      decided; then the slot is free. */
  lemma DecidedCloseIsReported(ws: seq<World>, acts: seq<Action>, i: nat, j: nat)
    requires ClosingWindow(ws, acts, i, j) && j < |acts| && acts[j] == FinishClose
    ensures
      ws[j + 1].events ==
        if acts[i].ConnectEvent? then ws[j].events + [Event(Err, ws[j].sock.id)]
        else if ws[i].sock.ty == HalfCloseRead then ws[j].events
        else ws[j].events + [Event(Close, ws[j].sock.id)]
    ensures ws[j + 1].sock.ty == Invalid
  {
    hide Inv, Next, Enabled, ForceClose, InWindow;
    StepOfRun(ws, acts, i);
    DecisionOwes(ws[i], acts[i]);
    WindowRuns(ws, acts, i, j);
    StepOfRun(ws, acts, j);
    FinishEffect(ws[j]);
  }

  // ---------------------------------------------------------------- every end is reported

  ghost predicate Heard(w: World, kind: Report) { Event(kind, w.sock.id) in w.events }

  /** How the reports of a slot stand. */
  ghost predicate EndInv(w: World) {
    && (w.sock.ty in {Reserve, Connecting} && w.pending == None ==> !Heard(w, Open))
    && (w.sock.ty == Invalid && w.sock.id > 0 ==> Heard(w, Close) || (Heard(w, Err) && !Heard(w, Open)))
    && (w.pending.Some? ==>
          w.pending.value.report == Close || Heard(w, Close) || (w.pending.value.report == Err && !Heard(w, Open)))
  }

  /** An event closes the slot only if its read side was closed, and decides a close that owes its
      report unless it was, or unless the connection could not be made. */
  lemma EventEnds(s: Socket, a: Action)
    requires BuffersOk(s) && Live(s) && IsEvent(a) && (a.ConnectEvent? <==> s.ty == Connecting)
    requires s.closing ==> s.ty == HalfCloseRead
    ensures
      var r, c := EventResult(s, a), EventClosing(s, a);
      && (c == None ==> r.0.ty !in {Reserve, Connecting})
      && (r.0.ty == Invalid ==> s.ty == HalfCloseRead)
      && (c.Some? ==>
            || c.value.report == Close || s.ty == HalfCloseRead
            || (c.value.report == Err && s.ty == Connecting && r.1 != Open))
  {
    if a.WriteEvent? { FlushLeads(s, a.ks, a.epollOk); }
    hide SendBuffer;
  }

  lemma RequestKeepsId(s: Socket, q: Request, open: OpenResult, epollOk: bool)
    ensures HandleResult(s, q, open, epollOk).0.id == s.id
  {
    hide NomoreSendingData;
  }

  lemma RequestEnds(s: Socket, q: Request, open: OpenResult, epollOk: bool)
    requires !q.ReqOpen? && (s.ty == Reserve ==> s.id != q.id)
    ensures
      var r, c := HandleResult(s, q, open, epollOk), RequestClosing(s, q);
      && r.0.id == s.id
      && (r.0.ty == Invalid <==> s.ty == Invalid)
      && (r.0.ty in {Reserve, Connecting} ==> s.ty == r.0.ty)
      && (s.ty in {Reserve, Connecting, Invalid} && q.id == s.id ==> r.1 != Open)
      && (c.Some? ==> c.value.report == Close || s.ty == HalfCloseRead)
  {
    hide HandleResult, NomoreSendingData;
    RequestKeepsId(s, q, open, epollOk);
    RequestLeadsOn(s, q, open, epollOk);
    RequestTells(s, q, open, epollOk);
  }

  lemma OpenEnds(s: Socket, open: OpenResult)
    requires open.Opened? ==> open.ty in {Connected, Connecting, Plisten, Bind}
    ensures
      var r := OpenSocket(s, open);
      && r.0.id == s.id && r.0.ty != Reserve
      && (r.0.ty == Invalid ==> r.1 == Err) && (r.0.ty == Connecting ==> r.1 == Quiet)
  {
  }

  lemma HalfClosedWasHeard(w: World)
    requires Inv(w)
    ensures w.sock.ty == HalfCloseRead ==> Heard(w, Close)
    ensures forall e <- w.events :: e.id <= w.sock.id
    ensures w.pending == None && Live(w.sock) && w.sock.closing ==> w.sock.ty == HalfCloseRead
  {
    hide SlotState, Awake, Counted, OpensFirst;
    if w.pending == None && Live(w.sock) && w.sock.closing { ClosingIsHalfClosed(w); }
  }

  lemma SameEnd(w: World, w': World)
    requires EndInv(w) && w'.events == w.events && w'.pending == w.pending
    requires w'.sock.ty == w.sock.ty && w'.sock.id == w.sock.id
    ensures EndInv(w')
  {
  }

  lemma StepKeepsEnd(w: World, a: Action)
    requires Step(w, a) && EndInv(w)
    ensures EndInv(Next(w, a))
  {
    hide Inv, Next, Enabled, EndInv;
    if IsEvent(a) {
      EventKeepsEnd(w, a);
    } else if a.Handle? {
      HandleKeepsEnd(w, a);
    } else if a.FinishClose? {
      FinishKeepsEnd(w);
    } else if TakesId(a) {
      TakingEnds(w, a);
    } else {
      SilentStep(w, a);
      WorkerKeepsType(w, a);
      SameEnd(w, Next(w, a));
    }
  }

  lemma EventKeepsEnd(w: World, a: Action)
    requires Step(w, a) && EndInv(w) && IsEvent(a)
    ensures EndInv(Next(w, a))
  {
    hide Inv, Next, Enabled, EventResult, EventClosing, Effect;
    EventEffect(w, a);
    ConnectGuard(w, a);
    EffectIsQuietOnCounters(w.sock, EventResult(w.sock, a));
    HalfClosedWasHeard(w);
    EventEnds(w.sock, a);
  }

  lemma HandleKeepsEnd(w: World, a: Action)
    requires Step(w, a) && EndInv(w) && a.Handle?
    ensures EndInv(Next(w, a))
  {
    hide Inv, Next, Enabled, HandleResult, OpenSocket;
    HandleFacts(w, a);
    HandleIs(w, a);
    HalfClosedWasHeard(w);
    var q := w.pipe[0];
    if q.ReqOpen? {
      OpenedIs(w.sock, q, a.open, a.epollOk);
      OpenEnds(w.sock, a.open);
    } else {
      RequestEnds(w.sock, q, a.open, a.epollOk);
    }
  }

  lemma FinishKeepsEnd(w: World)
    requires Step(w, FinishClose) && EndInv(w)
    ensures EndInv(Next(w, FinishClose))
  {
    hide Inv, Next, Enabled, Effect;
    FinishGuard(w);
    FinishEffect(w);
  }

  lemma TakingEnds(w: World, a: Action)
    requires Step(w, a) && TakesId(a) && EndInv(w)
    ensures EndInv(Next(w, a))
  {
    hide Inv, Next, Enabled;
    HalfClosedWasHeard(w);
    TakeFrame(w, a);
    TakesNothingPending(w, a);
  }

  /** In every run a socket that was reported open and is gone was reported closed, and one that is
      gone without having opened was reported closed or failed. */
  lemma EveryEndIsReported(ws: seq<World>, acts: seq<Action>, i: nat)
    requires Run(ws, acts) && i < |ws| && ws[i].sock.ty == Invalid && ws[i].sock.id > 0
    ensures Event(Close, ws[i].sock.id) in ws[i].events || Event(Err, ws[i].sock.id) in ws[i].events
    ensures Event(Open, ws[i].sock.id) in ws[i].events ==> Event(Close, ws[i].sock.id) in ws[i].events
  {
    EndOfRun(ws, acts, i);
    hide Run;
  }

  lemma {:induction false} EndOfRun(ws: seq<World>, acts: seq<Action>, i: nat)
    requires Run(ws, acts) && i < |ws|
    ensures EndInv(ws[i])
  {
    hide Inv, Next, Enabled, EndInv;
    if i == 0 {
      StartEnds();
    } else {
      EndOfRun(ws, acts, i - 1);
      StepOfRun(ws, acts, i - 1);
      StepKeepsEnd(ws[i - 1], acts[i - 1]);
    }
  }

  lemma StartEnds()
    ensures EndInv(Start())
  {
  }

  // ---------------------------------------------------------------- errors

  function IsErr(): Event -> bool { (e: Event) => e.kind == Err }

  /** A request that fails: an opening, a resumption of a socket that is not there or whose read side is
      closed, or the kernel refuses to turn the write event on. */
  predicate RequestFails(s: Socket, q: Request, open: OpenResult, epollOk: bool) {
    match q
    case ReqOpen(_) => !open.Opened?
    case ReqResume(id) => id != s.id || s.ty in {Invalid, HalfCloseRead} || !epollOk
    case ReqTrigger(id) => id == s.id && s.ty != Invalid && !s.writing && !epollOk
    case ReqSend(id, _) =>
      && id == s.id && !s.closing && s.ty !in {Invalid, HalfCloseWrite, IPaccept, Plisten, Listen}
      && s.high == [] && s.low == [] && !epollOk
    case ReqClose(_, _) => false
  }

  /** An action that fails: a request, a broken read, an error event, a write that closes the write side
      or leaves nothing to write while the kernel refuses to turn the write event off, and the end of
      a connection that could not be made. */
  predicate Fails(w: World, a: Action, w': World) {
    var s, s' := w.sock, w'.sock;
    match a
    case Handle(open, epollOk) => w.pipe != [] && RequestFails(s, w.pipe[0], open, epollOk)
    case ReadEvent(r) => r.Broken?
    case ErrorEvent => true
    case WriteEvent(_, epollOk) =>
      || (s'.ty == HalfCloseWrite && s.ty != HalfCloseWrite)
      || (s'.high == [] && s'.low == [] && !s.closing && s'.ty != Invalid && !epollOk)
    case FinishClose => w.pending.Some? && w.pending.value.report == Err
    case _ => false
  }

  function Concerned(w: World, a: Action): nat {
    if a.Handle? && w.pipe != [] then w.pipe[0].id else w.sock.id
  }

  /** In every run errors are reported exactly when an action fails. */
  lemma ErrorsAreReported(ws: seq<World>, acts: seq<Action>, i: nat)
    requires Run(ws, acts) && i < |acts|
    ensures
      Filter(ws[i + 1].events, IsErr()) ==
        Filter(ws[i].events, IsErr())
          + if Fails(ws[i], acts[i], ws[i + 1]) then [Event(Err, Concerned(ws[i], acts[i]))] else []
  {
    hide Inv, Next, Enabled, HandleResult, EventResult, RequestFails, ForceClose, Effect, Filter;
    StepOfRun(ws, acts, i);
    var w, a := ws[i], acts[i];
    if IsEvent(a) {
      EventEffect(w, a);
      HalfClosedWasHeard(w);
      EventFails(w, a, Next(w, a));
      RaisedErr(w, Next(w, a), EventResult(w.sock, a).1, w.sock.id);
    } else if a.Handle? {
      HandleFacts(w, a);
      HandleIs(w, a);
      RequestFailsIff(w.sock, w.pipe[0], a.open, a.epollOk);
      RaisedErr(w, Next(w, a), HandleResult(w.sock, w.pipe[0], a.open, a.epollOk).1, w.pipe[0].id);
    } else if a.FinishClose? {
      FinishGuard(w);
      FinishEffect(w);
      RaisedErr(w, Next(w, a), w.pending.value.report, w.sock.id);
    } else {
      SilentStep(w, a);
      assert Filter(w.events, IsErr()) + [] == Filter(w.events, IsErr());
    }
  }

  lemma RaisedErr(w: World, w': World, kind: Report, id: nat)
    requires w'.events == if kind == Quiet then w.events else w.events + [Event(kind, id)]
    ensures Filter(w'.events, IsErr()) == Filter(w.events, IsErr()) + if kind == Err then [Event(Err, id)] else []
  {
    FilterSnoc(w.events, Event(kind, id), IsErr());
    assert Filter(w.events, IsErr()) + [] == Filter(w.events, IsErr());
    hide Filter;
  }

  lemma RequestFailsIff(s: Socket, q: Request, open: OpenResult, epollOk: bool)
    requires s.ty == Reserve && s.id == q.id ==> q.ReqOpen?
    ensures HandleResult(s, q, open, epollOk).1 == Err <==> RequestFails(s, q, open, epollOk)
  {
    hide NomoreSendingData;
  }

  lemma EventFails(w: World, a: Action, w': World)
    requires IsEvent(a) && BuffersOk(w.sock) && Live(w.sock) && w'.sock == EventResult(w.sock, a).0
    requires w.sock.closing ==> w.sock.ty == HalfCloseRead
    ensures EventResult(w.sock, a).1 == Err <==> Fails(w, a, w')
  {
    if a.WriteEvent? { FlushFails(w.sock, a.ks, a.epollOk); }
    hide SendBuffer;
  }

  /** A flush of s that leaves r and reports an error. */
  predicate FlushErrs(s: Socket, r: Socket, epollOk: bool) {
    || (r.ty == HalfCloseWrite && s.ty != HalfCloseWrite)
    || (r.high == [] && r.low == [] && !s.closing && r.ty != Invalid && !epollOk)
  }

  lemma FlushFails(s: Socket, ks: seq<WriteResult>, epollOk: bool)
    requires BuffersOk(s) && Live(s) && (s.closing ==> s.ty == HalfCloseRead)
    ensures SendBuffer(s, ks, epollOk).1 == Err <==> FlushErrs(s, SendBuffer(s, ks, epollOk).0, epollOk)
  {
    hide FlushBoth;
    BothFail(TakeDirect(s), ks, epollOk);
  }

  /** How a flush ends. */
  lemma EndsFail(s: Socket, epollOk: bool)
    requires Live(s)
    ensures s.high != [] || s.low != [] ==> (CloseWrite(s).1 == Err <==> FlushErrs(s, CloseWrite(s).0, epollOk))
    ensures s.high != [] || s.low != [] ==> !FlushErrs(s, s, epollOk)
    ensures
      s.high == [] && s.low == [] ==> (Drained(s, epollOk).1 == Err <==> FlushErrs(s, Drained(s, epollOk).0, epollOk))
  {
  }

  lemma SameErrs(s: Socket, r: Socket, end: Socket, epollOk: bool)
    requires r.ty == s.ty && r.closing == s.closing
    ensures FlushErrs(r, end, epollOk) <==> FlushErrs(s, end, epollOk)
  {
  }

  lemma LowFails(s: Socket, ks: seq<WriteResult>, epollOk: bool)
    requires AllOk(s.low) && s.low != [] && s.high == [] && Live(s)
    ensures FlushLow(s, ks, epollOk).1 == Err <==> FlushErrs(s, FlushLow(s, ks, epollOk).0, epollOk)
  {
    hide Flush, CloseWrite, Drained, FlushErrs;
    var f := Flush(s.low, s.chan, ks);
    FailedLeaves(s.low, s.chan, ks);
    var s2 := WithLow(s, f);
    EndsFail(s2, epollOk);
    SameErrs(s, s2, FlushLow(s, ks, epollOk).0, epollOk);
    if ListUncomplete(s2.low) {
      EndsFail(RaiseUncomplete(s2), epollOk);
      SameErrs(s2, RaiseUncomplete(s2), RaiseUncomplete(s2), epollOk);
    }
  }

  lemma BothFail(s: Socket, ks: seq<WriteResult>, epollOk: bool)
    requires AllOk(s.high) && AllOk(s.low) && Live(s)
    ensures FlushBoth(s, ks, epollOk).1 == Err <==> FlushErrs(s, FlushBoth(s, ks, epollOk).0, epollOk)
  {
    hide Flush, FlushLow, CloseWrite, Drained, FlushErrs;
    var f := Flush(s.high, s.chan, ks);
    FailedLeaves(s.high, s.chan, ks);
    var s1 := WithHigh(s, f);
    EndsFail(s1, epollOk);
    SameErrs(s, s1, FlushBoth(s, ks, epollOk).0, epollOk);
    if !f.failed && s1.high == [] && s1.low != [] { LowFails(s1, f.rest, epollOk); }
  }
}
