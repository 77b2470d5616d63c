/** What the socket protocol guarantees in every run: the bytes on the wire, their order, what
    is queued, and the counting of sends. */
module SocketTheorems {
  import opened Basics
  import opened Seqs
  import opened SocketSlot
  import opened SocketServer
  import opened SocketInvariants
  import opened SocketSteps
  import opened SocketOrder

  lemma StepOfRun(ws: seq<World>, acts: seq<Action>, i: nat)
    requires Run(ws, acts) && i < |acts|
    ensures Step(ws[i], acts[i]) && ws[i + 1] == Next(ws[i], acts[i])
  {
    EveryStateOfARun(ws, acts, i);
    hide Inv, Next, Enabled;
    assert Enabled(ws[i], acts[i]) && ws[i + 1] == Next(ws[i], acts[i]);
  }

  lemma ClosingIsHalfClosed(w: World)
    requires Inv(w) && Live(w.sock) && w.sock.closing
    ensures w.sock.ty == HalfCloseRead
  {
    hide Awake, Counted, OpensFirst, Closed, WireInv, WholePackages, SizeKept, Lists;
  }

  // ---------------------------------------------------------------- bytes on the wire

  /** Bytes on the fd are whole packages in sequence, then at most one in part, exactly as long
      as no direct write went into the middle of one. Outside ForceClose none has, and the
      partial package is the one a direct writer still holds, the direct-write buffer or the
      head of the high list; nothing else that is queued has been started. */
  lemma WireIsWholePackages(ws: seq<World>, acts: seq<Action>, i: nat)
    requires Run(ws, acts) && i < |ws|
    ensures
      var s, lock := ws[i].sock, ws[i].lock;
      && (s.chan.wire == Payload(s.chan.done) + PartialBytes(s.chan.part) <==> !ws[i].torn)
      && (ws[i].torn ==> ws[i].pending.Some? || s.ty == Invalid)
      && (Live(s) && ws[i].pending == None ==> s.chan.part == InHand(s.high, s.dw, lock))
      && (forall k :: 0 < k < |s.high| ==> s.high[k].offset == 0)
      && (forall k :: 0 <= k < |s.low| ==> s.low[k].offset == 0)
  {
    EveryStateOfARun(ws, acts, i);
    hide Awake, Counted, OpensFirst, Closed, Run, Payload, PartialBytes, Unsent;
  }

  /** The step that decides a close. */
  ghost predicate Decides(w: World, a: Action) {
    Step(w, a) && w.pending == None && Next(w, a).pending.Some?
  }

  lemma DecidingActions(w: World, a: Action)
    requires Decides(w, a)
    ensures a.Handle? || IsEvent(a)
  {
    hide Inv, AfterEvent, Handled, HandleResult;
  }

  lemma DecideFacts(w: World, a: Action)
    requires Decides(w, a)
    ensures
      var s, w', c := w.sock, Next(w, a), Next(w, a).pending.value;
      && Live(s) && !w.torn && SlotInv(s, w.lock)
      && w'.sock.chan == s.chan && w'.sock.dw == s.dw && w'.lock == w.lock && w'.torn == w.torn
      && w'.sock.high == [] && w'.sock.low == []
      && (c.reason.Emptied? ==> SendBufferEmpty(s) && s.dw == None)
  {
    DecidingActions(w, a);
    if a.Handle? {
      HandleIs(w, a);
      RequestsFindTheirSlotOpen(w);
      assert w.pipe[0].ReqClose?;
      hide Inv, Enabled, Next;
      DecidedByRequest(w.sock, w.pipe[0], a.open, a.epollOk);
    } else {
      EventEffect(w, a);
      hide Inv, Enabled, Next, Effect;
      DecidedByEvent(w.sock, a);
    }
    AtPollSlot(w);
  }

  lemma DecidedByRequest(s: Socket, q: Request, open: OpenResult, epollOk: bool)
    requires RequestClosing(s, q).Some? && (s.ty == Reserve ==> s.id != q.id)
    ensures
      var r := HandleResult(s, q, open, epollOk).0;
      && Live(s) && r == FreeLists(s)
      && (RequestClosing(s, q).value.reason.Emptied? ==> SendBufferEmpty(s) && s.dw == None)
  {
  }

  lemma DecidedByEvent(s: Socket, a: Action)
    requires Live(s) && BuffersOk(s) && EventClosing(s, a).Some?
    ensures
      var r := EventResult(s, a).0;
      && r.high == [] && r.low == [] && r.dw == s.dw && r.chan == s.chan
      && (EventClosing(s, a).value.reason.Emptied? ==> SendBufferEmpty(s) && s.dw == None)
  {
    hide SendBuffer;
  }

  /** From the decision of a close at i up to j the socket thread waits for the lock. */
  ghost predicate ClosingWindow(ws: seq<World>, acts: seq<Action>, i: nat, j: nat) {
    && Run(ws, acts) && i < j < |ws| && ws[i].pending == None
    && forall k :: i < k <= j ==> ws[k].pending.Some?
  }

  /** Some bytes are written directly between i and j. */
  ghost predicate WritesBetween(acts: seq<Action>, i: nat, j: nat)
    requires j <= |acts|
  {
    exists k :: i < k < j && acts[k].WriteDirect? && acts[k].n > 0
  }

  /** The wire while a close is pending: torn by the first byte written if a package was on it
      in part. */
  predicate InWindow(w: World, partial: bool, wrote: bool) {
    if partial then (w.torn <==> wrote) && (!wrote ==> w.sock.chan.part.Some?)
    else !w.torn && w.sock.chan.part == InHand([], w.sock.dw, w.lock)
  }

  /** While a close is pending the socket thread only waits. */
  lemma PendingIsWorkers(w: World, a: Action)
    requires Step(w, a) && w.pending.Some? && Next(w, a).pending.Some?
    ensures Enabled(w, a) && ByWorker(a) && Live(w.sock)
    ensures w.lock != Unlocked ==> w.sock.dw == None
  {
    hide Inv;
    DeadNeverCloses(w);
    if w.lock != Unlocked { LockFacts(w); }
  }

  lemma WindowLock(w: World, a: Action, partial: bool, wrote: bool)
    requires InWindow(w, partial, wrote) && Enabled(w, a) && ByLock(a) && (w.lock != Unlocked ==> w.sock.dw == None)
    ensures InWindow(Next(w, a), partial, wrote || (a.WriteDirect? && a.n > 0)) && Next(w, a).pending == w.pending
  {
    hide Next, Enabled, DirectEmit;
    LockFrame(w, a);
    if a.WriteDirect? { DirectPart(w.sock.chan, w.lock.pkg, a.n); }
  }

  lemma WindowStep(w: World, a: Action, partial: bool, wrote: bool)
    requires InWindow(w, partial, wrote) && Step(w, a) && w.pending.Some? && Next(w, a).pending.Some?
    ensures InWindow(Next(w, a), partial, wrote || (a.WriteDirect? && a.n > 0))
    ensures Next(w, a).pending == w.pending && ByWorker(a)
  {
    hide Inv, Next, Enabled, DirectEmit, AfterPosting, Posting, Step;
    PendingIsWorkers(w, a);
    if ByLock(a) {
      WindowLock(w, a, partial, wrote);
    } else if a.Test? {
      TestFrame(w, a);
    } else if a.CountSend? {
      CountFrame(w, a);
    } else {
      PostsSomething(w, a);
      PostFrame(w, a);
    }
  }

  lemma DeadNeverCloses(w: World)
    requires Inv(w) && w.pending.Some?
    ensures Live(w.sock)
  {
    hide WireInv, Awake, Counted, OpensFirst, Closed;
  }

  lemma DirectPart(c: Channel, p: Package, n: nat)
    requires n <= |p.data|
    ensures DirectEmit(c, p, n).part ==
              if n == 0 then c.part else if n == |p.data| then None else Partial(WriteBuffer(p, n))
  {
  }

  lemma WindowStart(w: World, a: Action)
    requires Decides(w, a)
    ensures InWindow(Next(w, a), ListUncomplete(w.sock.high), false)
  {
    DecideFacts(w, a);
    hide Next, Inv, Enabled, WholePackages, Unsent;
  }

  lemma {:induction false} WindowRuns(ws: seq<World>, acts: seq<Action>, i: nat, j: nat)
    requires ClosingWindow(ws, acts, i, j)
    ensures InWindow(ws[j], ListUncomplete(ws[i].sock.high), WritesBetween(acts, i, j))
    ensures ws[j].pending == ws[i + 1].pending
    decreases j
  {
    hide InWindow, Step, Next;
    StepOfRun(ws, acts, j - 1);
    if j == i + 1 {
      WindowStart(ws[i], acts[i]);
      assert !WritesBetween(acts, i, j);
    } else {
      WindowRuns(ws, acts, i, j - 1);
      WindowStep(ws[j - 1], acts[j - 1], ListUncomplete(ws[i].sock.high), WritesBetween(acts, i, j - 1));
      var last := acts[j - 1];
      assert WritesBetween(acts, i, j) <==> WritesBetween(acts, i, j - 1) || (last.WriteDirect? && last.n > 0);
    }
  }

  /** A close empties the lists before it has the lock. It tears the wire if and only if the
      head of the high list was partly written and a worker then writes directly. */
  lemma CloseTearsIff(ws: seq<World>, acts: seq<Action>, i: nat, j: nat)
    requires ClosingWindow(ws, acts, i, j)
    ensures ws[j].torn <==> ListUncomplete(ws[i].sock.high) && WritesBetween(acts, i, j)
  {
    WindowRuns(ws, acts, i, j);
  }

  // ---------------------------------------------------------------- their order

  /** As long as every send was counted and no direct write went ahead of a queued package,
      packages of one priority reach the wire in the order the slot accepted them, whoever sent
      them. */
  lemma WireKeepsAcceptanceOrder(ws: seq<World>, acts: seq<Action>, i: nat, j: nat, k: nat)
    requires Run(ws, acts) && i < |ws| && ws[i].uncounted == 0 && !ws[i].overtaken
    requires j < k < |ws[i].sock.chan.done| && ws[i].sock.chan.done[j].low == ws[i].sock.chan.done[k].low
    ensures ws[i].sock.chan.done[j].stamp < ws[i].sock.chan.done[k].stamp
  {
    EveryStreamOfARun(ws, acts, i);
    hide Run, Kept, Stream;
    WrittenInOrder(ws[i], j, k);
  }

  /** Only a worker that passes its check with a high-priority package queued overtakes one. */
  lemma OvertakenIff(w: World, a: Action)
    requires Step(w, a) && !w.overtaken
    ensures Next(w, a).overtaken <==> a.Pass? && !AllLow(w.sock.high)
  {
    hide Inv, HandleResult, EventResult, RequestClosing, EventClosing, AllLow;
  }

  lemma WrittenInOrder(w: World, j: nat, k: nat)
    requires Ordered(Stream(w), w.clock)
    requires j < k < |w.sock.chan.done| && w.sock.chan.done[j].low == w.sock.chan.done[k].low
    ensures w.sock.chan.done[j].stamp < w.sock.chan.done[k].stamp
  {
    var done := w.sock.chan.done;
    WrittenLeadsTheStream(w);
    hide Stream, Filter, Increasing;
    PrefixInOrder(Stream(w), done, OfPriority(done[j].low));
    FilterIncreasing(done, OfPriority(done[j].low), j, k);
  }

  lemma PrefixInOrder(ps: seq<Package>, done: seq<Package>, f: Package -> bool)
    requires done <= ps && Increasing(Filter(ps, f))
    ensures Increasing(Filter(done, f))
  {
    hide Filter, Increasing;
    FilterAppend(done, ps[|done|..], f);
    assert ps == done + ps[|done|..];
    IncreasingPrefix(Filter(done, f), Filter(ps[|done|..], f));
  }

  lemma WrittenLeadsTheStream(w: World)
    ensures w.sock.chan.done <= Stream(w)
  {
    hide Packages, Posted;
  }

  lemma IncreasingPrefix(a: seq<Package>, b: seq<Package>)
    requires Increasing(a + b)
    ensures Increasing(a)
  {
    assert (a + b)[..|a|] == a;
  }

  lemma IncreasingTail(p: Package, b: seq<Package>)
    requires Increasing([p] + b)
    ensures Increasing(b)
  {
    assert ([p] + b)[1..] == b;
    IncreasingCut([], [p], b);
    assert [] + [p] + b == [p] + b && [] + b == b;
  }

  lemma {:induction false} FilterIncreasing(ps: seq<Package>, f: Package -> bool, j: nat, k: nat)
    requires j < k < |ps| && f(ps[j]) && f(ps[k]) && Increasing(Filter(ps, f))
    ensures ps[j].stamp < ps[k].stamp
  {
    if j > 0 {
      if f(ps[0]) {
        assert Filter(ps, f) == [ps[0]] + Filter(ps[1..], f);
        IncreasingTail(ps[0], Filter(ps[1..], f));
      } else {
        assert Filter(ps, f) == [] + Filter(ps[1..], f) == Filter(ps[1..], f);
      }
      FilterIncreasing(ps[1..], f, j - 1, k - 1);
    } else {
      FilterMember(ps[1..], f);
      assert ps[k] == ps[1..][k - 1];
      var m :| 0 <= m < |Filter(ps[1..], f)| && Filter(ps[1..], f)[m] == ps[k];
      assert Filter(ps, f)[0] == ps[0] && Filter(ps, f)[m + 1] == ps[k];
    }
  }

  /** While the socket lives and no close is decided, every package it accepted is on the wire,
      queued, in the pipe, or was refused by SendSocket. */
  lemma NothingIsLost(ws: seq<World>, acts: seq<Action>, i: nat, stamp: nat)
    requires Run(ws, acts) && i < |ws| && Live(ws[i].sock) && ws[i].pending == None && stamp < ws[i].clock
    ensures stamp in ws[i].dropped || exists p :: p in Stream(ws[i]) && p.stamp == stamp
  {
    EveryStreamOfARun(ws, acts, i);
    hide Run, InOrder, Stream;
  }

  /** Queued data on a live socket always has the write event on, or a 'W' request that
      will turn it on, unless the write side has failed. */
  lemma NothingIsStranded(ws: seq<World>, acts: seq<Action>, i: nat)
    requires Run(ws, acts) && i < |ws| && Live(ws[i].sock) && ws[i].sock.ty != HalfCloseWrite && HasData(ws[i].sock)
    ensures var w := ws[i];
            w.sock.writing || w.aboutToTrigger[w.sock.id] > 0 || ReqTrigger(w.sock.id) in w.pipe
  {
    EveryStateOfARun(ws, acts, i);
    hide Run, SlotState, Counted, OpensFirst, Closed;
  }

  /** `wb_size` is the number of unsent bytes in the two lists wherever they may be flushed, so
      the assertion on draining them cannot fail. */
  lemma SizeIsUnsentBytes(ws: seq<World>, acts: seq<Action>, i: nat)
    requires Run(ws, acts) && i < |ws| && Live(ws[i].sock) && ws[i].pending == None
    ensures ws[i].sock.wbSize == Unsent(ws[i].sock.high) + Unsent(ws[i].sock.low)
    ensures SendBufferEmpty(ws[i].sock) ==> ws[i].sock.wbSize == 0
    ensures BuffersOk(ws[i].sock)
  {
    EveryStateOfARun(ws, acts, i);
    hide Run, Awake, Counted, OpensFirst, Closed, WholePackages, InHand;
  }

  // ---------------------------------------------------------------- counting sends

  /** The counter is the number of sends in flight less those never counted, so the
      assertion in DecSendingRef fails exactly when every send in flight was uncounted. */
  lemma AbortsExactlyWhenAllUncounted(ws: seq<World>, acts: seq<Action>, i: nat)
    requires Run(ws, acts) && i < |ws|
    requires ws[i].sock.tcp && ws[i].pipe != [] && ws[i].pipe[0].ReqSend? && ws[i].pipe[0].id == ws[i].sock.id
    ensures ws[i].sock.tag == ws[i].sock.id
    ensures ws[i].sock.sending + ws[i].uncounted == InFlight(ws[i])
    ensures Aborts(ws[i]) <==> ws[i].uncounted == InFlight(ws[i])
    ensures ws[i].uncounted == 0 ==> !Aborts(ws[i])
  {
    EveryStateOfARun(ws, acts, i);
    hide Run, SlotState, Awake, OpensFirst, Closed;
    assert Posted(ws[i].pipe, ws[i].sock.id) != [];
  }

  /** Sends go uncounted only while the id is merely reserved, or when its opening was
      refused. */
  lemma UncountedOnlyBeforeTheSocketOpens(ws: seq<World>, acts: seq<Action>, i: nat)
    requires Run(ws, acts) && i < |acts| && ws[i + 1].uncounted > ws[i].uncounted
    ensures acts[i] == CountSend(ws[i].sock.id)
    ensures ws[i].sock.ty == Reserve || (ws[i].sock.ty == Invalid && !ws[i].sock.tcp)
  {
    StepOfRun(ws, acts, i);
    UncountedBy(ws[i], acts[i]);
  }

  lemma UncountedBy(w: World, a: Action)
    requires Step(w, a) && Next(w, a).uncounted > w.uncounted
    ensures a == CountSend(w.sock.id)
    ensures w.sock.ty == Reserve || (w.sock.ty == Invalid && !w.sock.tcp)
  {
    hide HandleResult, EventResult, RequestClosing, EventClosing, SlotState, OpensFirst, Closed, Awake;
  }

  /** Before i no send is made for an id that is only reserved or was refused. */
  ghost predicate NoEarlySends(ws: seq<World>, acts: seq<Action>, i: nat)
    requires i <= |acts| && i < |ws|
  {
    forall k :: 0 <= k < i && acts[k] == CountSend(ws[k].sock.id) ==>
      ws[k].sock.ty != Reserve && (ws[k].sock.ty == Invalid ==> ws[k].sock.tcp)
  }

  /** Without early sends every send is counted and the assertion never fails. */
  lemma {:induction false} NoAbortWithoutEarlySends(ws: seq<World>, acts: seq<Action>, i: nat)
    requires Run(ws, acts) && i < |ws| && NoEarlySends(ws, acts, i)
    ensures ws[i].uncounted == 0 && !Aborts(ws[i])
  {
    hide Inv, Next, Aborts, Enabled;
    if i > 0 {
      NoAbortWithoutEarlySends(ws, acts, i - 1);
      StepOfRun(ws, acts, i - 1);
      if ws[i].uncounted > ws[i - 1].uncounted { UncountedBy(ws[i - 1], acts[i - 1]); }
    }
    EveryStateOfARun(ws, acts, i);
    NoAbort(ws[i]);
  }

  lemma NoAbort(w: World)
    requires Inv(w) && w.uncounted == 0
    ensures !Aborts(w)
  {
    hide SlotState, Awake, OpensFirst, Closed;
    if w.pipe != [] && w.pipe[0].ReqSend? && w.pipe[0].id == w.sock.id && w.sock.tcp {
      assert Posted(w.pipe, w.sock.id) != [];
    }
  }

  // ---------------------------------------------------------------- order without the two races

  lemma {:induction false} NeverOvertaken(ws: seq<World>, acts: seq<Action>, i: nat)
    requires Run(ws, acts) && i < |ws|
    requires forall k :: 0 <= k < i && acts[k].Pass? ==> AllLow(ws[k].sock.high)
    ensures !ws[i].overtaken
  {
    hide Inv, Next, Enabled, AllLow;
    if i > 0 {
      NeverOvertaken(ws, acts, i - 1);
      StepOfRun(ws, acts, i - 1);
      OvertakenIff(ws[i - 1], acts[i - 1]);
    }
  }

  /** In a run without early sends, in which no worker passes its check with a high-priority package
      queued since it looked, packages of one priority reach the wire in the order of acceptance. */
  lemma OrderWithoutRaces(ws: seq<World>, acts: seq<Action>, i: nat, j: nat, k: nat)
    requires Run(ws, acts) && i < |ws| && NoEarlySends(ws, acts, i)
    requires forall m :: 0 <= m < i && acts[m].Pass? ==> AllLow(ws[m].sock.high)
    requires j < k < |ws[i].sock.chan.done| && ws[i].sock.chan.done[j].low == ws[i].sock.chan.done[k].low
    ensures ws[i].sock.chan.done[j].stamp < ws[i].sock.chan.done[k].stamp
  {
    hide Run, NoEarlySends, AllLow;
    NoAbortWithoutEarlySends(ws, acts, i);
    NeverOvertaken(ws, acts, i);
    WireKeepsAcceptanceOrder(ws, acts, i, j, k);
  }
}
