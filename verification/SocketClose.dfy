/** What closing a socket does in every run: what is reported, what is lost, and when a close
    that waits for its data is woken. */
module SocketClose {
  import opened Basics
  import opened SocketSlot
  import opened SocketServer
  import opened SocketInvariants
  import opened SocketSteps
  import opened SocketOrder
  import opened SocketTheorems

  // ---------------------------------------------------------------- reports and states

  /** In every run kSocketClose is reported at most once for an id, and no data for that
      id is reported after it. */
  lemma CloseIsReportedOnce(ws: seq<World>, acts: seq<Action>, i: nat, j: nat, k: nat)
    requires Run(ws, acts) && i < |ws| && j < k < |ws[i].events|
    requires ws[i].events[j].kind == Close && ws[i].events[k].id == ws[i].events[j].id
    ensures ws[i].events[k].kind != Close && ws[i].events[k].kind != Data
  {
    EveryStateOfARun(ws, acts, i);
    hide Run, SlotState, Awake, Counted, OpensFirst;
  }

  /** A socket that is half closed for reading stays so until it is invalid, and a live
      socket that is closing is half closed for reading. */
  lemma HalfCloseReadEndsInvalid(ws: seq<World>, acts: seq<Action>, i: nat)
    requires Run(ws, acts) && i < |acts|
    ensures ws[i].sock.ty == HalfCloseRead ==> ws[i + 1].sock.ty == HalfCloseRead || ws[i + 1].sock.ty == Invalid
    ensures Live(ws[i].sock) && ws[i].sock.closing ==> ws[i].sock.ty == HalfCloseRead
  {
    StepOfRun(ws, acts, i);
    hide Run, Inv, Next, Enabled;
    if Live(ws[i].sock) && ws[i].sock.closing { ClosingIsHalfClosed(ws[i]); }
    if ws[i].sock.ty == HalfCloseRead { HalfCloseStep(ws[i], acts[i]); }
  }

  lemma HalfCloseStep(w: World, a: Action)
    requires Step(w, a) && w.sock.ty == HalfCloseRead
    ensures Next(w, a).sock.ty == HalfCloseRead || Next(w, a).sock.ty == Invalid
  {
    if IsEvent(a) {
      EventEffect(w, a);
      hide EventResult, Inv, Enabled, Next;
    } else if a.FinishClose? {
      FinishEffect(w);
      hide Inv, Enabled, Next, ForceClose;
    } else if a.Handle? {
      HandleIs(w, a);
      RequestsFindTheirSlotOpen(w);
      RequestEffect(w.sock, w.pipe[0], a.epollOk);
      hide RequestResult, Inv, Enabled, Next;
    } else {
      hide Inv;
    }
  }

  // ---------------------------------------------------------------- what a flush writes

  /** A flush that closes a closing socket either met a write error or has written
      everything that was queued. */
  lemma FlushLowFinishes(s: Socket, ks: seq<WriteResult>, epollOk: bool)
    requires Live(s) && s.dw == None && s.high == [] && AllOk(s.low)
    requires FlushLow(s, ks, epollOk).0.ty == Invalid && Fail !in ks
    ensures FlushLow(s, ks, epollOk).0.chan.done == Queue(s, Unlocked)
  {
    NoFailure(s.low, s.chan, ks);
    FlushKeepsOrder(s.low, s.chan, ks);
    assert Packages([]) == [];
    assert Queue(s, Unlocked) == s.chan.done + Packages(s.low);
    hide Queue, Flush;
  }

  lemma HighFlushQueue(s: Socket, ks: seq<WriteResult>)
    requires s.dw == None && AllOk(s.high)
    ensures Queue(WithHigh(s, Flush(s.high, s.chan, ks)), Unlocked) == Queue(s, Unlocked)
  {
    hide Flush, Packages;
    FlushKeepsOrder(s.high, s.chan, ks);
    var f := Flush(s.high, s.chan, ks);
    assert f.chan.done + [] + [] == f.chan.done && s.chan.done + [] + [] == s.chan.done;
  }

  lemma DrainedFinishes(s: Socket, epollOk: bool)
    requires Live(s) && s.dw == None && s.high == [] && s.low == []
    ensures Drained(s, epollOk).0.chan.done == Queue(s, Unlocked)
  {
    assert s.chan.done + [] + [] + [] + [] == s.chan.done;
  }

  lemma FlushBothFinishes(s: Socket, ks: seq<WriteResult>, epollOk: bool)
    requires Live(s) && s.dw == None && AllOk(s.high) && AllOk(s.low)
    requires FlushBoth(s, ks, epollOk).0.ty == Invalid && Fail !in ks
    ensures FlushBoth(s, ks, epollOk).0.chan.done == Queue(s, Unlocked)
  {
    hide Flush, FlushLow, Queue, CloseWrite, Drained;
    NoFailure(s.high, s.chan, ks);
    var f := Flush(s.high, s.chan, ks);
    var s1 := WithHigh(s, f);
    HighFlushQueue(s, ks);
    if s1.high == [] && s1.low != [] {
      FlushLowFinishes(s1, f.rest, epollOk);
    } else if s1.high == [] {
      DrainedFinishes(s1, epollOk);
    }
  }

  lemma SendBufferFinishes(s: Socket, ks: seq<WriteResult>, epollOk: bool)
    requires Live(s) && BuffersOk(s) && SendBuffer(s, ks, epollOk).0.ty == Invalid && Fail !in ks
    ensures SendBuffer(s, ks, epollOk).0.chan.done == Queue(s, Unlocked)
  {
    var s1 := TakeDirect(s);
    if s.dw.Some? {
      assert s1.high[1..] == s.high;
      assert Packages(s1.high) == Direct(s.dw) + Packages(s.high);
      assert Queue(s1, Unlocked) == Queue(s, Unlocked);
    }
    hide Queue, FlushBoth;
    FlushBothFinishes(s1, ks, epollOk);
  }

  // ---------------------------------------------------------------- what a close loses

  /** At some point from i to j a worker holds the lock with bytes of its package left over. */
  ghost predicate LeavesRest(ws: seq<World>, i: nat, j: nat)
    requires j < |ws|
  {
    exists k :: i <= k <= j && ws[k].lock.Wrote?
  }

  predicate Loaded(w: World) { w.sock.dw.Some? || w.lock.Wrote? }

  lemma LockIsEnough(w: World, a: Action)
    requires Enabled(w, a) && ByLock(a)
    ensures Next(w, a).lock.Wrote? ==> a.WriteDirect?
  {
    hide Enabled, Next, AfterLock;
    LockFrame(w, a);
  }

  lemma LoadedStep(w: World, a: Action)
    requires Step(w, a) && ByWorker(a)
    ensures Next(w, a).sock.high == w.sock.high && Next(w, a).sock.low == w.sock.low
    ensures Loaded(Next(w, a)) <==> Loaded(w) || Next(w, a).lock.Wrote?
  {
    hide Inv, Next, Enabled, AfterPosting, Posting, AfterLock;
    if w.lock != Unlocked { LockFacts(w); }
    if ByLock(a) {
      LockFrame(w, a);
      LockIsEnough(w, a);
    } else if a.Test? {
      TestFrame(w, a);
    } else if a.CountSend? {
      CountFrame(w, a);
    } else {
      PostsSomething(w, a);
      PostFrame(w, a);
    }
  }

  lemma {:induction false} WindowLoads(ws: seq<World>, acts: seq<Action>, i: nat, j: nat)
    requires ClosingWindow(ws, acts, i, j) && ws[i + 1].pending.value.reason == Emptied
    ensures Loaded(ws[j]) <==> LeavesRest(ws, i, j)
    ensures ws[j].sock.high == [] && ws[j].sock.low == []
    ensures ws[j].pending == ws[i + 1].pending
    decreases j
  {
    hide Step, Next, InWindow;
    StepOfRun(ws, acts, j - 1);
    if j == i + 1 {
      DecideFacts(ws[i], acts[i]);
      assert ws[i].lock.Wrote? ==> LeavesRest(ws, i, j);
    } else {
      WindowLoads(ws, acts, i, j - 1);
      WindowRuns(ws, acts, i, j - 1);
      WindowStep(ws[j - 1], acts[j - 1], ListUncomplete(ws[i].sock.high), WritesBetween(acts, i, j - 1));
      LoadedStep(ws[j - 1], acts[j - 1]);
      assert LeavesRest(ws, i, j) <==> LeavesRest(ws, i, j - 1) || ws[j].lock.Wrote?;
    }
  }

  lemma FinishLoses(w: World)
    requires Step(w, FinishClose) && w.sock.high == [] && w.sock.low == []
    ensures Next(w, FinishClose).sock.chan.done == Queue(w.sock, w.lock) <==> w.sock.dw == None
  {
    FinishEffect(w);
    hide Inv, Next, Effect;
    assert Packages([]) == [];
    assert |Queue(w.sock, w.lock)| == |w.sock.chan.done| + |Direct(w.sock.dw)|;
    assert w.sock.dw == None ==> Queue(w.sock, w.lock) == w.sock.chan.done;
  }

  /** The check of a close is not made under the direct-write lock. A close that goes through
      because nothing is left to send loses nothing that was accepted if and only if no worker
      is in a direct write with bytes left over from the check until the lock is taken. */
  lemma CloseLosesNothingIff(ws: seq<World>, acts: seq<Action>, i: nat, j: nat)
    requires ClosingWindow(ws, acts, i, j) && j < |acts| && acts[j] == FinishClose
    requires ws[i + 1].pending.value.reason == Emptied
    ensures ws[j + 1].sock.chan.done == Queue(ws[j].sock, ws[j].lock) <==> !LeavesRest(ws, i, j)
    ensures ws[j + 1].sock.ty == Invalid
  {
    WindowLoads(ws, acts, i, j);
    StepOfRun(ws, acts, j);
    FinishLoses(ws[j]);
    FinishEffect(ws[j]);
    assert ws[j].lock == Unlocked;
    hide Inv, Next, Queue;
  }

  /** Nobody takes the lock any more once the socket is closing, so what is lost is settled by
      the worker that holds it at the check, if any. */
  lemma {:induction false} NobodyLooksWhileClosing(ws: seq<World>, acts: seq<Action>, i: nat, j: nat)
    requires ClosingWindow(ws, acts, i, j) && ws[i].sock.closing && ws[i].lock == Unlocked
    ensures ws[j].lock == Unlocked && ws[j].sock.ty == HalfCloseRead && !LeavesRest(ws, i, j)
    decreases j
  {
    hide Next, InWindow, Step, Inv, Enabled;
    StepOfRun(ws, acts, j - 1);
    if j == i + 1 {
      DecidedUnlocked(ws[i], acts[i]);
    } else {
      NobodyLooksWhileClosing(ws, acts, i, j - 1);
      WindowRuns(ws, acts, i, j - 1);
      WindowStep(ws[j - 1], acts[j - 1], ListUncomplete(ws[i].sock.high), WritesBetween(acts, i, j - 1));
      HalfClosedStaysUnlocked(ws[j - 1], acts[j - 1]);
      assert LeavesRest(ws, i, j) <==> LeavesRest(ws, i, j - 1) || ws[j].lock.Wrote?;
    }
  }

  lemma DecidedUnlocked(w: World, a: Action)
    requires Decides(w, a) && w.sock.closing && w.lock == Unlocked
    ensures Next(w, a).lock == Unlocked && Next(w, a).sock.ty == HalfCloseRead
  {
    hide Inv, Next, Enabled;
    DecideFacts(w, a);
    ClosingIsHalfClosed(w);
    HalfCloseStep(w, a);
    StepKeepsInv(w, a);
    DeadNeverCloses(Next(w, a));
  }

  lemma HalfClosedStaysUnlocked(w: World, a: Action)
    requires Step(w, a) && ByWorker(a) && w.lock == Unlocked && w.sock.ty == HalfCloseRead
    ensures Next(w, a).lock == Unlocked && Next(w, a).sock.ty == HalfCloseRead
  {
    hide Inv, Next, Enabled, AfterLock, AfterPosting, Posting;
    if ByLock(a) {
      LockFrame(w, a);
    } else if a.Test? {
      TestFrame(w, a);
    } else if a.CountSend? {
      CountFrame(w, a);
    } else {
      PostsSomething(w, a);
      PostFrame(w, a);
    }
  }

  /** A closing socket that finds the lock free at its check loses nothing; one that finds a
      worker with bytes left over loses them. */
  lemma ClosingLosesByTheLockHolder(ws: seq<World>, acts: seq<Action>, i: nat, j: nat)
    requires ClosingWindow(ws, acts, i, j) && j < |acts| && acts[j] == FinishClose
    requires ws[i + 1].pending.value.reason == Emptied && ws[i].sock.closing
    ensures ws[i].lock == Unlocked ==> ws[j + 1].sock.chan.done == Queue(ws[j].sock, ws[j].lock)
    ensures ws[i].lock.Wrote? ==> ws[j + 1].sock.chan.done != Queue(ws[j].sock, ws[j].lock)
  {
    CloseLosesNothingIff(ws, acts, i, j);
    hide Queue, Run;
    if ws[i].lock == Unlocked { NobodyLooksWhileClosing(ws, acts, i, j); }
  }

  /** A closing socket becomes invalid only once everything it held is written, or on a write
      error in the flush, or when a decided close drops the rest: on a hang-up, an explicit
      shutdown, or the direct-write buffer that a worker left behind its back. */
  lemma GracefulCloseWritesEverything(ws: seq<World>, acts: seq<Action>, i: nat)
    requires Run(ws, acts) && i < |acts|
    requires Live(ws[i].sock) && ws[i].sock.closing && ws[i + 1].sock.ty == Invalid
    ensures
      || ws[i + 1].sock.chan.done == Queue(ws[i].sock, ws[i].lock)
      || (acts[i].WriteEvent? && Fail in acts[i].ks)
      || (acts[i].FinishClose? && ws[i].pending.Some? && (ws[i].pending.value.reason != Emptied || ws[i].sock.dw.Some?))
  {
    StepOfRun(ws, acts, i);
    hide Run, Queue, Inv, Next, Enabled;
    InvalidatingStep(ws[i], acts[i]);
  }

  lemma InvalidatingStep(w: World, a: Action)
    requires Step(w, a) && Live(w.sock) && w.sock.closing && Next(w, a).sock.ty == Invalid
    ensures a.WriteEvent? || a.FinishClose?
    ensures a.WriteEvent? && Fail !in a.ks ==> Next(w, a).sock.chan.done == Queue(w.sock, w.lock)
    ensures a.FinishClose? ==> w.pending.Some?
    ensures
      a.FinishClose? && w.pending.value.reason == Emptied ==>
        (Next(w, a).sock.chan.done == Queue(w.sock, w.lock) <==> w.sock.dw == None)
  {
    if a.WriteEvent? {
      EventEffect(w, a);
      assert w.lock == Unlocked;
      hide Inv, Next, Queue, SendBuffer;
      if Fail !in a.ks { SendBufferFinishes(w.sock, a.ks, a.epollOk); }
    } else if a.FinishClose? {
      NothingQueuedWhileClosing(w);
      FinishLoses(w);
      hide Inv, Next, Queue;
    } else {
      ClosingIsHalfClosed(w);
      OnlyClosesInvalidate(w, a);
    }
  }

  lemma NothingQueuedWhileClosing(w: World)
    requires Inv(w) && w.pending.Some?
    ensures w.sock.high == [] && w.sock.low == []
  {
    hide Awake, Counted, OpensFirst, Closed, WireInv;
  }

  lemma OnlyClosesInvalidate(w: World, a: Action)
    requires Step(w, a) && w.sock.ty == HalfCloseRead && !a.WriteEvent? && !a.FinishClose?
    ensures Next(w, a).sock.ty != Invalid
  {
    hide Inv, Next, Enabled, HandleResult, EventResult, Effect, AfterLock, AfterPosting, Posting;
    if a.Handle? {
      HandleFacts(w, a);
      HandleIs(w, a);
      HandlesKeepLive(w.sock, w.pipe[0], a.open, a.epollOk);
    } else if IsEvent(a) {
      EventEffect(w, a);
      EventsKeepLive(w.sock, a);
    } else if ByLock(a) {
      LockFrame(w, a);
    } else if a.Test? {
      TestFrame(w, a);
    } else if a.CountSend? {
      CountFrame(w, a);
    } else if TakesId(a) {
      TakeFrame(w, a);
    } else {
      PostsSomething(w, a);
      PostFrame(w, a);
    }
  }

  lemma HandlesKeepLive(s: Socket, q: Request, open: OpenResult, epollOk: bool)
    requires s.ty == HalfCloseRead && !q.ReqOpen?
    ensures HandleResult(s, q, open, epollOk).0.ty != Invalid
  {
  }

  lemma EventsKeepLive(s: Socket, a: Action)
    requires s.ty == HalfCloseRead && BuffersOk(s) && !a.WriteEvent?
    ensures EventResult(s, a).0.ty != Invalid
  {
    hide SendBuffer;
  }

  lemma RequestReason(s: Socket, q: Request)
    requires RequestClosing(s, q).Some? && s.ty == HalfCloseRead
    ensures
      var reason := RequestClosing(s, q).value.reason;
      && reason == (if q == ReqClose(s.id, true) then Told else Emptied)
      && (reason.Emptied? ==> q == ReqClose(s.id, false))
  {
  }

  lemma EventReason(s: Socket, a: Action)
    requires EventClosing(s, a).Some? && s.ty == HalfCloseRead && s.closing && !a.ConnectEvent?
    ensures
      var reason := EventClosing(s, a).value.reason;
      !reason.Told? && (reason.Gone? ==> a.HangUpEvent?) && (reason.Emptied? ==> a == ReadEvent(Eof))
  {
  }

  /** Why a closing socket is closed: told to by a shutdown, gone by a hang-up, or emptied at an
      end of file or another close request. */
  lemma ReasonsToClose(w: World, a: Action)
    requires Decides(w, a) && w.sock.closing
    ensures
      match Next(w, a).pending.value.reason
      case Told => a.Handle? && w.pipe != [] && w.pipe[0] == ReqClose(w.sock.id, true)
      case Gone => a.HangUpEvent?
      case Emptied => a == ReadEvent(Eof) || (a.Handle? && w.pipe != [] && w.pipe[0] == ReqClose(w.sock.id, false))
  {
    hide Inv, Next, Enabled, HandleResult, EventResult, RequestClosing, EventClosing, Effect;
    DecideFacts(w, a);
    DecidingActions(w, a);
    ClosingIsHalfClosed(w);
    if a.Handle? {
      HandleFacts(w, a);
      HandleIs(w, a);
      RequestReason(w.sock, w.pipe[0]);
    } else {
      EventEffect(w, a);
      EventNeeds(w, a);
      EventReason(w.sock, a);
    }
  }

  // ---------------------------------------------------------------- the wait for queued data

  /** The socket was closed gracefully and its close is not decided yet. */
  predicate Waits(w: World) { Live(w.sock) && w.sock.closing && w.pending == None }

  predicate TriggerComing(w: World) {
    w.aboutToTrigger[w.sock.id] > 0 || ReqTrigger(w.sock.id) in w.pipe
  }

  /** It waits for nothing: it holds no data, nobody is writing directly, and neither is the
      write event on nor a request on its way that would turn it on. */
  predicate Stranded(w: World) {
    Waits(w) && !HasData(w.sock) && w.lock == Unlocked && !w.sock.writing && !TriggerComing(w)
  }

  predicate Holding(w: World) { HasData(w.sock) || w.lock.Wrote? }

  predicate Alerted(w: World) { w.sock.writing || TriggerComing(w) || w.lock.Wrote? }

  /** What may end a wait. */
  predicate EndsWait(w: World, a: Action) {
    || a.WriteEvent? || a.HangUpEvent? || a == ReadEvent(Eof)
    || (a.Handle? && w.pipe != [] && w.pipe[0].ReqClose? && w.pipe[0].id == w.sock.id)
  }

  /** While the socket waits, data and the write event only come from a worker that leaves bytes
      over, and neither goes away. */
  predicate Carries(w: World, w': World) {
    && w'.sock.id == w.sock.id
    && (Holding(w') <==> Holding(w) || w'.lock.Wrote?)
    && (Alerted(w') <==> Alerted(w) || w'.lock.Wrote?)
  }

  /** The slot after a request that leaves a closing socket waiting. */
  lemma WaitingHandle(s: Socket, q: Request, open: OpenResult, epollOk: bool)
    requires s.ty == HalfCloseRead && s.closing && !q.ReqOpen? && RequestClosing(s, q) == None
    ensures
      var r := HandleResult(s, q, open, epollOk).0;
      r == s.(sending := r.sending, writing := s.writing || q == ReqTrigger(s.id))
  {
  }

  /** Taking the first request from the pipe. */
  lemma TriggerTaken(pipe: seq<Request>, id: nat)
    requires pipe != []
    ensures ReqTrigger(id) in pipe <==> pipe[0] == ReqTrigger(id) || ReqTrigger(id) in pipe[1..]
  {
    assert pipe == [pipe[0]] + pipe[1..];
  }

  lemma WaitHandle(w: World, a: Action)
    requires Step(w, a) && a.Handle? && Waits(w) && Waits(Next(w, a))
    ensures Carries(w, Next(w, a))
  {
    hide Inv, Next, HandleResult, RequestClosing, Enabled;
    HandleFacts(w, a);
    HandleIs(w, a);
    ClosingIsHalfClosed(w);
    WaitingHandle(w.sock, w.pipe[0], a.open, a.epollOk);
    TriggerTaken(w.pipe, w.sock.id);
  }

  lemma WaitEvent(w: World, a: Action)
    requires Step(w, a) && IsEvent(a) && !a.WriteEvent? && Waits(w) && Waits(Next(w, a))
    ensures Next(w, a).sock == w.sock && Next(w, a).lock == w.lock && Next(w, a).pipe == w.pipe
    ensures Next(w, a).aboutToTrigger == w.aboutToTrigger
  {
    EventEffect(w, a);
    ClosingIsHalfClosed(w);
    hide Inv, Next, Effect, SendBuffer;
  }

  lemma WaitWorker(w: World, a: Action)
    requires Step(w, a) && ByWorker(a) && Waits(w)
    ensures Waits(Next(w, a)) && Carries(w, Next(w, a))
  {
    if Posting(w, a).Some? {
      WaitPosting(w, a);
    } else {
      WaitLock(w, a);
    }
  }

  lemma TriggerPosted(pipe: seq<Request>, q: Request, id: nat)
    ensures ReqTrigger(id) in pipe + [q] <==> ReqTrigger(id) in pipe || q == ReqTrigger(id)
  {
  }

  lemma WaitPosting(w: World, a: Action)
    requires Enabled(w, a) && Posting(w, a).Some? && Waits(w)
    ensures Waits(Next(w, a)) && Carries(w, Next(w, a))
  {
    hide Next, Enabled, AfterPosting, Posting, HasData;
    var q, w' := Posting(w, a).value, Next(w, a);
    PostFrame(w, a);
    TriggerPosted(w.pipe, q, w.sock.id);
  }

  lemma NothingPosted(w: World, a: Action)
    requires ByWorker(a) && !ByLock(a) && Posting(w, a) == None
    ensures a.Test? || a.CountSend?
  {
  }

  lemma LoadedHolds(w: World, w': World)
    requires w'.sock.high == w.sock.high && w'.sock.low == w.sock.low
    requires Loaded(w') <==> Loaded(w) || w'.lock.Wrote?
    ensures Holding(w') <==> Holding(w) || w'.lock.Wrote?
  {
  }

  lemma WaitLock(w: World, a: Action)
    requires Step(w, a) && ByWorker(a) && Posting(w, a) == None && Waits(w)
    ensures Waits(Next(w, a)) && Carries(w, Next(w, a))
  {
    hide Inv, Next, Enabled, AfterLock, Posting, HasData;
    LoadedStep(w, a);
    if ByLock(a) {
      LockFrame(w, a);
    } else {
      NothingPosted(w, a);
      if a.Test? { TestFrame(w, a); } else { CountFrame(w, a); }
    }
    LoadedHolds(w, Next(w, a));
  }

  lemma WaitStep(w: World, a: Action)
    requires Step(w, a) && Waits(w) && Waits(Next(w, a))
    ensures Carries(w, Next(w, a))
  {
    hide Inv, Next, Carries;
    if a.Handle? {
      WaitHandle(w, a);
    } else if a.WriteEvent? {
      WaitFlush(w, a);
    } else if IsEvent(a) {
      WaitEvent(w, a);
      SameCarries(w, Next(w, a));
    } else {
      WaitWorker(w, a);
    }
  }

  /** A flush that leaves a closing socket open leaves data in it. */
  lemma ClosingFlush(s: Socket, ks: seq<WriteResult>, epollOk: bool)
    requires BuffersOk(s) && Live(s) && s.closing && Live(SendBuffer(s, ks, epollOk).0)
    ensures HasData(SendBuffer(s, ks, epollOk).0)
  {
    hide Flush;
  }

  /** A write event neither brings data to a waiting socket nor takes the last of it without
      closing it, and leaves the write event as it was. */
  lemma WaitFlush(w: World, a: Action)
    requires Step(w, a) && a.WriteEvent? && Waits(w) && Waits(Next(w, a))
    ensures Carries(w, Next(w, a))
  {
    hide Inv, Next, Enabled, SendBuffer, SlotInv, HasData, EventClosing, BuffersOk, SlotOk;
    ClosingIsHalfClosed(w);
    ClosingIsHalfClosed(Next(w, a)) by { StepKeepsInv(w, a); }
    EventNeeds(w, a);
    EventEffect(w, a);
    SendBufferKeeps(w.sock, a.ks, a.epollOk);
    ClosingFlush(w.sock, a.ks, a.epollOk);
  }

  lemma SameCarries(w: World, w': World)
    requires w'.sock == w.sock && w'.lock == w.lock && w'.pipe == w.pipe && w'.aboutToTrigger == w.aboutToTrigger
    ensures Carries(w, w')
  {
  }

  /** The step that closes the socket gracefully. */
  ghost predicate Closes(w: World, a: Action) {
    Step(w, a) && a.Handle? && Live(w.sock) && !w.sock.closing && w.pending == None && Waits(Next(w, a))
  }

  lemma CloseCarries(w: World, a: Action)
    requires Closes(w, a)
    ensures Carries(w, Next(w, a)) && w.pipe[0] == ReqClose(w.sock.id, false)
  {
    hide Inv, Next, HandleResult, RequestClosing, Enabled;
    HandleFacts(w, a);
    HandleIs(w, a);
    ClosingHandle(w.sock, w.pipe[0], a.open, a.epollOk);
    TriggerTaken(w.pipe, w.sock.id);
  }

  lemma ClosingHandle(s: Socket, q: Request, open: OpenResult, epollOk: bool)
    requires Live(s) && !s.closing && !q.ReqOpen? && RequestClosing(s, q) == None
    requires HandleResult(s, q, open, epollOk).0.closing
    ensures q == ReqClose(s.id, false)
    ensures
      var r := HandleResult(s, q, open, epollOk).0;
      r == s.(closing := true, ty := HalfCloseRead)
  {
  }

  /** A socket closed at i waits up to j. */
  ghost predicate WaitFrom(ws: seq<World>, acts: seq<Action>, i: nat, j: nat) {
    && Run(ws, acts) && i < j < |ws| && Closes(ws[i], acts[i])
    && (forall k :: i < k <= j ==> Waits(ws[k]))
  }

  lemma {:induction false} WaitRuns(ws: seq<World>, acts: seq<Action>, i: nat, j: nat)
    requires WaitFrom(ws, acts, i, j)
    ensures Holding(ws[j]) <==> Holding(ws[i]) || LeavesRest(ws, i, j)
    ensures Alerted(ws[j]) <==> Alerted(ws[i]) || LeavesRest(ws, i, j)
    decreases j
  {
    hide Inv, Next, Holding, Alerted, Waits, Enabled;
    StepOfRun(ws, acts, j - 1);
    if j == i + 1 {
      CloseCarries(ws[i], acts[i]);
      assert ws[i].lock.Wrote? ==> Holding(ws[i]) && Alerted(ws[i]) by { WroteHolds(ws[i]); }
      assert LeavesRest(ws, i, j) <==> ws[i].lock.Wrote? || ws[j].lock.Wrote?;
    } else {
      WaitRuns(ws, acts, i, j - 1);
      WaitStep(ws[j - 1], acts[j - 1]);
      assert LeavesRest(ws, i, j) <==> LeavesRest(ws, i, j - 1) || ws[j].lock.Wrote?;
    }
  }

  lemma WroteHolds(w: World)
    ensures w.lock.Wrote? ==> Holding(w) && Alerted(w)
  {
  }

  /** A graceful close is stranded if and only if it found no data, the write event off and no
      request on the way to turn it on, and no worker leaves bytes over while it waits. The
      sends in flight when it came do not help: they are refused. */
  lemma GracefulCloseIsStrandedIff(ws: seq<World>, acts: seq<Action>, i: nat, j: nat)
    requires WaitFrom(ws, acts, i, j) && ws[j].lock == Unlocked && !TriggerComing(ws[j])
    ensures
      Stranded(ws[j]) <==>
        !HasData(ws[i].sock) && !ws[i].sock.writing && !TriggerComing(ws[i]) && !LeavesRest(ws, i, j)
  {
    WaitRuns(ws, acts, i, j);
    hide Run, Closes, HasData;
    assert ws[i].lock.Wrote? ==> LeavesRest(ws, i, j);
    assert Waits(ws[j]);
  }

  /** A wait ends only by a write event, a hang-up, an end of file or another close request. */
  lemma WaitEndsOnlyBy(ws: seq<World>, acts: seq<Action>, i: nat)
    requires Run(ws, acts) && i < |acts| && Waits(ws[i]) && !EndsWait(ws[i], acts[i])
    ensures Waits(ws[i + 1])
  {
    StepOfRun(ws, acts, i);
    hide Run;
    WaitGoesOn(ws[i], acts[i]);
  }

  lemma OnlyClosesDecide(s: Socket, q: Request)
    requires !(q.ReqClose? && q.id == s.id)
    ensures RequestClosing(s, q) == None
  {
  }

  lemma QuietEvent(s: Socket, a: Action)
    requires BuffersOk(s) && IsEvent(a) && s.closing && s.ty == HalfCloseRead
    requires !a.WriteEvent? && !a.HangUpEvent? && a != ReadEvent(Eof) && !a.ConnectEvent?
    ensures EventResult(s, a).0 == s && EventClosing(s, a) == None
  {
    hide SendBuffer;
  }

  lemma NotDead(w: World, a: Action)
    requires Enabled(w, a) && Live(w.sock) && w.pending == None
    ensures !TakesId(a) && !a.FinishClose?
  {
  }

  lemma WaitGoesOn(w: World, a: Action)
    requires Step(w, a) && Waits(w) && !EndsWait(w, a)
    ensures Waits(Next(w, a))
  {
    hide Inv, Next, Enabled, HandleResult, EventResult, EventClosing, RequestClosing, Effect, Carries;
    ClosingIsHalfClosed(w);
    if a.Handle? {
      HandleFacts(w, a);
      HandleIs(w, a);
      OnlyClosesDecide(w.sock, w.pipe[0]);
      WaitingHandle(w.sock, w.pipe[0], a.open, a.epollOk);
    } else if IsEvent(a) {
      EventEffect(w, a);
      EventNeeds(w, a);
      QuietEvent(w.sock, a);
    } else if ByWorker(a) {
      WaitWorker(w, a);
    } else {
      NotDead(w, a);
    }
  }

  lemma StrandedStep(w: World, a: Action)
    requires Step(w, a) && Stranded(w) && !EndsWait(w, a)
    ensures Stranded(Next(w, a))
  {
    WaitGoesOn(w, a);
    ClosingIsHalfClosed(w);
    StaysUnlocked(w, a);
    hide Inv, Next, Waits, HasData, TriggerComing;
    WaitStep(w, a);
  }

  lemma StaysUnlocked(w: World, a: Action)
    requires Step(w, a) && w.lock == Unlocked && w.sock.ty == HalfCloseRead
    ensures Next(w, a).lock == Unlocked
  {
    hide Inv, Next, Enabled;
    if ByWorker(a) {
      HalfClosedStaysUnlocked(w, a);
    } else {
      SocketThreadLock(w, a);
    }
  }

  lemma SocketThreadLock(w: World, a: Action)
    requires Enabled(w, a) && !ByWorker(a)
    ensures Next(w, a).lock == w.lock
  {
    hide HandleResult, EventResult, RequestClosing, EventClosing, Drops, AfterLock, AfterPosting, IncSendingRef;
    hide BuffersOk, TakesEvents, Aborts, ForceClose, Published;
  }

  /** A stranded close stays so, whatever the workers do, until its peer, a write event or
      another close request ends it. */
  lemma {:induction false} StrandedUntilTheWaitEnds(ws: seq<World>, acts: seq<Action>, i: nat, j: nat)
    requires Run(ws, acts) && i <= j < |ws| && Stranded(ws[i])
    requires forall k :: i <= k < j ==> !EndsWait(ws[k], acts[k])
    ensures Stranded(ws[j])
    decreases j
  {
    hide Inv, Next, Stranded, EndsWait, Enabled;
    if i < j {
      StrandedUntilTheWaitEnds(ws, acts, i, j - 1);
      StepOfRun(ws, acts, j - 1);
      assert !EndsWait(ws[j - 1], acts[j - 1]);
      StrandedStep(ws[j - 1], acts[j - 1]);
    }
  }
}
