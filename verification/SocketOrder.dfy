/** Packages leave in the order they were accepted, and none is lost on a live socket. */
module SocketOrder {
  import opened Basics
  import opened Seqs
  import opened SocketSlot
  import opened SocketServer
  import opened SocketInvariants
  import opened SocketSteps

  // ---------------------------------------------------------------- the stream of packages

  function Held(lock: Holder): seq<Package> {
    if lock.Checked? || lock.Wrote? then [lock.pkg] else []
  }

  function Direct(dw: Option<WriteBuffer>): seq<Package> {
    if dw.Some? then [dw.value.pkg] else []
  }

  /** Written packages, then the ones the slot holds in the order they will be written. */
  function Queue(s: Socket, lock: Holder): seq<Package> {
    s.chan.done + Held(lock) + Direct(s.dw) + Packages(s.high) + Packages(s.low)
  }

  function Stream(w: World): seq<Package> {
    Queue(w.sock, w.lock) + Posted(w.pipe, w.sock.id)
  }

  function OfPriority(low: bool): Package -> bool { (p: Package) => p.low == low }

  predicate Increasing(ps: seq<Package>) {
    forall i, j :: 0 <= i < j < |ps| ==> ps[i].stamp < ps[j].stamp
  }

  /** Within each priority, packages appear in the order they were accepted. */
  predicate Ordered(ps: seq<Package>, clock: nat) {
    && (forall p :: p in ps ==> p.stamp < clock)
    && (forall low {:trigger OfPriority(low)} :: Increasing(Filter(ps, OfPriority(low))))
  }

  /** Every package accepted so far is in the stream or was refused. */
  ghost predicate Accounted(ps: seq<Package>, dropped: set<nat>, clock: nat) {
    forall k :: 0 <= k < clock ==> k in dropped || exists p :: p in ps && p.stamp == k
  }

  predicate InOrder(w: World) {
    w.uncounted == 0 && !w.overtaken ==> Ordered(Stream(w), w.clock)
  }

  /** The slot is reserved, or live with no close decided. */
  predicate Holds(w: World) { (Live(w.sock) || w.sock.ty == Reserve) && w.pending == None }

  ghost predicate Kept(w: World) {
    Holds(w) ==> Accounted(Stream(w), w.dropped, w.clock)
  }

  // ---------------------------------------------------------------- operations on streams

  lemma OrderedSnoc(ps: seq<Package>, p: Package, clock: nat)
    requires Ordered(ps, clock) && p.stamp == clock
    ensures Ordered(ps + [p], clock + 1)
  {
    forall low {:trigger OfPriority(low)}
      ensures Increasing(Filter(ps + [p], OfPriority(low)))
    {
      FilterSnoc(ps, p, OfPriority(low));
      FilterMember(ps, OfPriority(low));
    }
  }

  lemma AccountedSnoc(ps: seq<Package>, p: Package, dropped: set<nat>, clock: nat)
    requires Accounted(ps, dropped, clock) && p.stamp == clock
    ensures Accounted(ps + [p], dropped, clock + 1)
  {
    forall k | 0 <= k < clock + 1
      ensures k in dropped || exists q :: q in ps + [p] && q.stamp == k
    {
      if k == clock {
        assert p in ps + [p];
      } else if k !in dropped {
        var q :| q in ps && q.stamp == k;
        assert q in ps + [p];
      }
    }
  }

  lemma OrderedCut(a: seq<Package>, b: seq<Package>, c: seq<Package>, clock: nat)
    requires Ordered(a + b + c, clock)
    ensures Ordered(a + c, clock)
  {
    forall low {:trigger OfPriority(low)}
      ensures Increasing(Filter(a + c, OfPriority(low)))
    {
      var f := OfPriority(low);
      FilterAppend(a + b, c, f);
      FilterAppend(a, b, f);
      FilterAppend(a, c, f);
      IncreasingCut(Filter(a, f), Filter(b, f), Filter(c, f));
    }
  }

  lemma IncreasingCut(a: seq<Package>, b: seq<Package>, c: seq<Package>)
    requires Increasing(a + b + c)
    ensures Increasing(a + c)
  {
    forall i, j | 0 <= i < j < |a + c|
      ensures (a + c)[i].stamp < (a + c)[j].stamp
    {
      var i' := if i < |a| then i else i + |b|;
      var j' := if j < |a| then j else j + |b|;
      assert (a + b + c)[i'] == (a + c)[i] && (a + b + c)[j'] == (a + c)[j];
    }
  }

  lemma PassFilter(a: seq<Package>, lows: seq<Package>, p: Package, rest: seq<Package>, f: Package -> bool)
    requires !f(p) || forall q :: q in lows ==> !f(q)
    ensures Filter(a + [p] + lows + rest, f) == Filter(a + lows + ([p] + rest), f)
  {
    FilterAppend(a + lows, [p] + rest, f);
    FilterAppend(a, lows, f);
    FilterAppend([p], rest, f);
    FilterAppend(a + [p] + lows, rest, f);
    FilterAppend(a + [p], lows, f);
    FilterAppend(a, [p], f);
    if f(p) { FilterNone(lows, f); } else { FilterNone([p], f); }
    hide Filter;
  }

  /** A high-priority package may pass low-priority ones. */
  lemma OrderedPass(a: seq<Package>, lows: seq<Package>, p: Package, rest: seq<Package>, clock: nat)
    requires Ordered(a + lows + ([p] + rest), clock) && !p.low && forall q :: q in lows ==> q.low
    ensures Ordered(a + [p] + lows + rest, clock)
  {
    hide Filter, Increasing;
    forall low {:trigger OfPriority(low)}
      ensures Filter(a + [p] + lows + rest, OfPriority(low)) == Filter(a + lows + ([p] + rest), OfPriority(low))
    {
      PassFilter(a, lows, p, rest, OfPriority(low));
    }
    assert forall q :: q in a + [p] + lows + rest <==> q in a + lows + ([p] + rest);
  }

  // ---------------------------------------------------------------- what handlers do to the queue

  /** A handler leaves the queue alone, or closes the socket or decides to, and keeps only
      what comes first. */
  predicate QueueEffect(s: Socket, r: Socket, lock: Holder, closing: bool) {
    && Queue(r, lock) <= Queue(s, lock)
    && (!closing && (Live(r) || r.ty == Reserve) ==> Queue(r, lock) == Queue(s, lock))
  }

  lemma SameQueue(s: Socket, r: Socket, lock: Holder)
    requires r.chan == s.chan && r.dw == s.dw && r.high == s.high && r.low == s.low
    ensures Queue(r, lock) == Queue(s, lock)
  {
  }

  lemma ForceCloseQueue(s: Socket)
    ensures s.ty != Invalid ==> QueueEffect(s, ForceClose(s), Unlocked, false)
    ensures s.ty == Invalid ==> ForceClose(s) == s
  {
    if s.ty != Invalid {
      assert Queue(ForceClose(s), Unlocked) == s.chan.done;
    }
  }

  lemma CloseWriteQueue(s: Socket)
    requires Live(s)
    ensures QueueEffect(s, CloseWrite(s).0, Unlocked, false)
  {
    ForceCloseQueue(s);
    SameQueue(s, s.(ty := HalfCloseWrite, writing := false), Unlocked);
    hide Queue, ForceClose;
  }

  lemma DrainedQueue(s: Socket, epollOk: bool)
    requires Live(s)
    ensures QueueEffect(s, Drained(s, epollOk).0, Unlocked, false)
  {
    ForceCloseQueue(s);
    SameQueue(s, s.(writing := false), Unlocked);
    hide Queue, ForceClose;
  }

  lemma RaiseQueue(s: Socket)
    requires s.dw == None && s.high == [] && s.low != []
    ensures Queue(RaiseUncomplete(s), Unlocked) == Queue(s, Unlocked)
  {
    var r, d := RaiseUncomplete(s), s.chan.done;
    assert Packages(r.high) == [s.low[0].pkg];
    assert Packages(s.low) == Packages(r.high) + Packages(r.low);
    assert d + [] + [] + [] + Packages(s.low) == d + [] + [] + Packages(r.high) + Packages(r.low);
    assert Packages(s.high) == [];
  }

  lemma FlushLowQueue(s: Socket, ks: seq<WriteResult>, epollOk: bool)
    requires Live(s) && s.dw == None && s.high == [] && AllOk(s.low)
    ensures QueueEffect(s, FlushLow(s, ks, epollOk).0, Unlocked, false)
  {
    FlushKeepsOrder(s.low, s.chan, ks);
    var f := Flush(s.low, s.chan, ks);
    var s2 := WithLow(s, f);
    assert Packages(s.high) == [];
    assert Queue(s, Unlocked) == s.chan.done + Packages(s.low);
    assert Queue(s2, Unlocked) == f.chan.done + Packages(f.list);
    CloseWriteQueue(s2);
    DrainedQueue(s2, epollOk);
    if s2.low != [] { RaiseQueue(s2); }
    hide Queue, Flush, CloseWrite, Drained;
  }

  lemma FlushBothQueue(s: Socket, ks: seq<WriteResult>, epollOk: bool)
    requires Live(s) && s.dw == None && AllOk(s.high) && AllOk(s.low)
    ensures QueueEffect(s, FlushBoth(s, ks, epollOk).0, Unlocked, false)
  {
    FlushKeepsOrder(s.high, s.chan, ks);
    var f := Flush(s.high, s.chan, ks);
    var s1 := WithHigh(s, f);
    assert Queue(s, Unlocked) == (s.chan.done + Packages(s.high)) + Packages(s.low);
    assert Queue(s1, Unlocked) == (f.chan.done + Packages(f.list)) + Packages(s.low);
    CloseWriteQueue(s1);
    DrainedQueue(s1, epollOk);
    hide Queue, Flush, CloseWrite, Drained, FlushLow;
    if s1.high == [] { FlushLowQueue(s1, f.rest, epollOk); }
  }

  lemma SendBufferQueue(s: Socket, ks: seq<WriteResult>, epollOk: bool)
    requires Live(s) && BuffersOk(s)
    ensures QueueEffect(s, SendBuffer(s, ks, epollOk).0, Unlocked, false)
  {
    var s1 := TakeDirect(s);
    if s.dw.Some? {
      assert s1.high[1..] == s.high;
      assert Packages(s1.high) == Direct(s.dw) + Packages(s.high);
      assert Queue(s1, Unlocked) == Queue(s, Unlocked);
    }
    FlushBothQueue(s1, ks, epollOk);
    hide Queue, FlushBoth;
  }

  lemma FreeListsQueue(s: Socket, lock: Holder)
    ensures QueueEffect(s, FreeLists(s), lock, true)
  {
    assert Packages([]) == [];
    hide Packages;
    var front := s.chan.done + Held(lock) + Direct(s.dw);
    assert front + [] + [] == front;
    assert front + Packages(s.high) + Packages(s.low) == front + (Packages(s.high) + Packages(s.low));
  }

  lemma ReadQueue(s: Socket, lock: Holder, r: ReadResult)
    ensures QueueEffect(s, ForwardMessage(s, r).0, lock, ReadClosing(s, r).Some?)
  {
    FreeListsQueue(s, lock);
    SameQueue(s, CloseRead(s), lock);
    hide Queue, FreeLists;
  }

  lemma ConnectQueue(s: Socket, lock: Holder, connected: bool, epollOk: bool)
    ensures QueueEffect(s, ReportConnect(s, connected, epollOk).0, lock, ConnectClosing(s, connected, epollOk).Some?)
  {
    FreeListsQueue(s, lock);
    SameQueue(s, s.(ty := Connected), lock);
    SameQueue(s, s.(ty := Connected, writing := false), lock);
    FreeListsQueue(s.(ty := Connected, writing := false), lock);
    hide Queue, FreeLists;
  }

  lemma EventQueue(s: Socket, lock: Holder, a: Action)
    requires Live(s) && BuffersOk(s) && IsEvent(a) && (a.WriteEvent? ==> lock == Unlocked)
    ensures QueueEffect(s, EventResult(s, a).0, lock, EventClosing(s, a).Some?)
  {
    hide Queue, SendBuffer, FreeLists, ReportConnect, ForwardMessage, ConnectClosing, ReadClosing;
    match a {
      case ConnectEvent(connected, epollOk) => ConnectQueue(s, lock, connected, epollOk);
      case ReadEvent(r) => ReadQueue(s, lock, r);
      case WriteEvent(ks, epollOk) => SendBufferQueue(s, ks, epollOk);
      case HangUpEvent => FreeListsQueue(s, lock);
      case _ =>
    }
  }

  /** Every request but a send and an opening leaves the queue alone or decides a close. */
  lemma RequestQueue(s: Socket, lock: Holder, q: Request, epollOk: bool)
    requires !q.ReqSend? && !q.ReqOpen?
    ensures QueueEffect(s, RequestResult(s, q, epollOk).0, lock, RequestClosing(s, q).Some?)
  {
    FreeListsQueue(s, lock);
    match q {
      case ReqClose(_, _) =>
        SameQueue(s, s.(closing := true), lock);
        SameQueue(s, CloseRead(s.(closing := true)), lock);
      case ReqTrigger(_) =>
        SameQueue(s, s.(writing := true), lock);
      case ReqResume(_) =>
        SameQueue(s, s.(ty := Connected), lock);
        SameQueue(s, s.(ty := Listen), lock);
    }
    hide Queue, FreeLists, ClosesNow;
  }

  // ---------------------------------------------------------------- every step

  /** The two halves of what is claimed of the stream, for a given state. */
  ghost predicate StreamInv(w: World) { InOrder(w) && Kept(w) }

  /** The queue shrinks or stays; nothing else moves. */
  predicate Shrinks(w: World, w': World) {
    && QueueEffect(w.sock, w'.sock, w.lock, w'.pending.Some?)
    && w'.lock == w.lock && w'.clock == w.clock && w'.dropped == w.dropped
    && w'.uncounted == w.uncounted && w'.overtaken == w.overtaken
    && w'.sock.id == w.sock.id && Posted(w'.pipe, w.sock.id) == Posted(w.pipe, w.sock.id)
    && (Holds(w') ==> Holds(w))
  }

  lemma StreamAfterEffect(w: World, w': World)
    requires StreamInv(w) && Shrinks(w, w')
    ensures StreamInv(w')
  {
    var q, q', ps := Queue(w.sock, w.lock), Queue(w'.sock, w'.lock), Posted(w.pipe, w.sock.id);
    hide Queue, Posted;
    assert q == q' + q[|q'|..];
    if w.uncounted == 0 && !w.overtaken {
      OrderedCut(q', q[|q'|..], ps, w.clock);
    }
    hide Ordered, Accounted;
  }

  lemma EventShrinks(w: World, a: Action)
    requires Step(w, a) && IsEvent(a)
    ensures Shrinks(w, Next(w, a))
  {
    EventEffect(w, a);
    assert a.WriteEvent? ==> w.lock == Unlocked;
    EventQueue(w.sock, w.lock, a);
    hide Inv, QueueEffect, EventResult, EventClosing, Next, Enabled, Needy;
  }

  lemma FinishShrinks(w: World)
    requires Step(w, FinishClose)
    ensures Shrinks(w, Next(w, FinishClose))
  {
    FinishEffect(w);
    ForceCloseQueue(w.sock);
    assert w.lock == Unlocked && Live(w.sock);
    hide Inv, QueueEffect, Next, Enabled, Needy, ForceClose;
  }

  lemma OpenQueue(s: Socket, lock: Holder, open: OpenResult)
    requires s.dw == None && s.ty == Reserve && (open.Opened? ==> open.ty in {Connected, Connecting, Plisten, Bind})
    ensures QueueEffect(s, OpenSocket(s, open).0, lock, false)
    ensures OpenSocket(s, open).0.id == s.id && OpenSocket(s, open).0.ty != Reserve
  {
    SameQueue(s, OpenSocket(s, open).0, lock);
    hide Queue;
  }

  lemma ReservedHasNothing(w: World)
    requires Inv(w) && w.sock.ty == Reserve
    ensures w.sock.dw == None
  {
    hide Awake, Counted, OpensFirst, Closed, WireInv, WholePackages;
  }

  lemma RequestShrinks(w: World, a: Action)
    requires Step(w, a) && a.Handle? && !w.pipe[0].ReqSend?
    ensures Shrinks(w, Next(w, a))
  {
    hide Inv, Next, Enabled, Posted, Queue, QueueEffect, HandleResult, RequestResult;
    hide Needy, OpenSocket, Effect;
    HandleFacts(w, a);
    var q, s := w.pipe[0], w.sock;
    HandleIs(w, a);
    PostedPop(w.pipe, s.id);
    assert PostedBy(q, s.id) + Posted(w.pipe[1..], s.id) == Posted(w.pipe[1..], s.id);
    if q.ReqOpen? {
      OpenedIs(s, q, a.open, a.epollOk);
      ReservedHasNothing(w);
      OpenQueue(s, w.lock, a.open);
    } else {
      RequestEffect(s, q, a.epollOk);
      HandledIs(s, q, a.open, a.epollOk);
      EffectIsQuietOnCounters(s, RequestResult(s, q, a.epollOk));
      RequestQueue(s, w.lock, q, a.epollOk);
    }
  }

  /** Everything a direct write, or the high list, sends before the low list. */
  function Front(s: Socket, lock: Holder): seq<Package> {
    s.chan.done + Held(lock) + Direct(s.dw) + Packages(s.high)
  }

  lemma AppendHighQueue(s: Socket, r: Socket, lock: Holder, b: WriteBuffer)
    requires r.chan == s.chan && r.dw == s.dw && r.high == s.high + [b] && r.low == s.low
    ensures Queue(r, lock) == Front(s, lock) + [b.pkg] + Packages(s.low)
  {
    PackagesSnoc(s.high, b);
    hide Packages;
    var front := s.chan.done + Held(lock) + Direct(s.dw);
    assert front + (Packages(s.high) + [b.pkg]) == front + Packages(s.high) + [b.pkg];
  }

  lemma AppendLowQueue(s: Socket, r: Socket, lock: Holder, b: WriteBuffer)
    requires r.chan == s.chan && r.dw == s.dw && r.high == s.high && r.low == s.low + [b]
    ensures Queue(r, lock) == Front(s, lock) + Packages(s.low) + [b.pkg]
  {
    PackagesSnoc(s.low, b);
    hide Packages;
  }

  /** Where SendSocket puts an accepted package. */
  lemma SendQueue(s: Socket, lock: Holder, id: nat, p: Package, epollOk: bool)
    requires !Refuses(s, id)
    ensures var r := DecSendingRef(SendSocket(s, id, p, epollOk).0, id);
            Queue(r, lock) ==
              if p.low then Front(s, lock) + Packages(s.low) + [p] else Front(s, lock) + [p] + Packages(s.low)
  {
    var b, r := WriteBuffer(p, 0), DecSendingRef(SendSocket(s, id, p, epollOk).0, id);
    if SendBufferEmpty(s) {
      assert s.high + [b] == [b] && Packages(s.low) == [];
      AppendHighQueue(s, r, lock, b);
      hide Queue, Packages, Front;
      assert Front(s, lock) + [p] + [] == Front(s, lock) + [] + [p];
    } else if p.low {
      AppendLowQueue(s, r, lock, b);
    } else {
      AppendHighQueue(s, r, lock, b);
    }
  }

  lemma {:induction false} PackagesSnoc(list: seq<WriteBuffer>, b: WriteBuffer)
    ensures Packages(list + [b]) == Packages(list) + [b.pkg]
  {
    if |list| == 0 {
      assert list + [b] == [b];
    } else {
      PackagesSnoc(list[1..], b);
      assert (list + [b])[1..] == list[1..] + [b];
    }
  }

  lemma {:induction false} PackagesAllLow(list: seq<WriteBuffer>)
    requires AllLow(list)
    ensures forall p :: p in Packages(list) ==> p.low
  {
    if |list| > 0 { PackagesAllLow(list[1..]); }
  }

  lemma StreamOfAccept(w: World, a: Action)
    requires Step(w, a) && a.Handle? && w.pipe[0].ReqSend?
    requires w.pipe[0].id == w.sock.id && !Refuses(w.sock, w.sock.id)
    ensures var p, rest := w.pipe[0].pkg, Posted(w.pipe[1..], w.sock.id);
            var front, lows := Front(w.sock, w.lock), Packages(w.sock.low);
            && Stream(w) == front + lows + ([p] + rest)
            && Stream(Next(w, a)) == if p.low then Stream(w) else front + [p] + lows + rest
  {
    var s, q := w.sock, w.pipe[0];
    var r := DecSendingRef(SendSocket(s, s.id, q.pkg, a.epollOk).0, s.id);
    HandleIs(w, a);
    assert Next(w, a).sock == r && r.id == s.id by { SendKeepsId(s, q.pkg, a.epollOk); }
    PostedPop(w.pipe, s.id);
    SendQueue(s, w.lock, s.id, q.pkg, a.epollOk);
    assert Queue(s, w.lock) == Front(s, w.lock) + Packages(s.low);
    hide Inv, Queue, Front, Packages, Posted, SendSocket, DecSendingRef, Next, Enabled, Refuses, HandleResult;
    Assoc(Front(s, w.lock) + Packages(s.low), [q.pkg], Posted(w.pipe[1..], s.id));
  }

  lemma SendKeepsId(s: Socket, p: Package, epollOk: bool)
    ensures DecSendingRef(SendSocket(s, s.id, p, epollOk).0, s.id).id == s.id
  {
  }

  /** What else accepting a package leaves as it was. */
  lemma AcceptFacts(w: World, a: Action)
    requires Step(w, a) && a.Handle? && w.pipe[0].ReqSend?
    requires w.pipe[0].id == w.sock.id && !Refuses(w.sock, w.sock.id)
    ensures
      var w' := Next(w, a);
      && (forall p :: p in Packages(w.sock.low) ==> p.low)
      && w'.clock == w.clock && w'.dropped == w.dropped && w'.uncounted == w.uncounted && w'.overtaken == w.overtaken
      && (Holds(w') ==> Holds(w))
  {
    hide SendSocket, Needy, Packages, Posted;
    HandleIs(w, a);
    PackagesAllLow(w.sock.low);
    RequestsFindTheirSlotOpen(w);
    RequestEffect(w.sock, w.pipe[0], a.epollOk);
  }

  lemma StreamAfterAccept(w: World, a: Action)
    requires Step(w, a) && StreamInv(w) && a.Handle? && w.pipe[0].ReqSend?
    requires w.pipe[0].id == w.sock.id && !Refuses(w.sock, w.sock.id)
    ensures StreamInv(Next(w, a))
  {
    hide Inv, Ordered, Stream, Next, Refuses, Front, Packages, Posted, Holds, Accounted;
    var p, rest := w.pipe[0].pkg, Posted(w.pipe[1..], w.sock.id);
    var front, lows := Front(w.sock, w.lock), Packages(w.sock.low);
    StreamOfAccept(w, a);
    AcceptFacts(w, a);
    if !p.low && w.uncounted == 0 && !w.overtaken {
      OrderedPass(front, lows, p, rest, w.clock);
    }
    AcceptedKeeps(w, Next(w, a));
  }

  lemma AcceptedKeeps(w: World, w': World)
    requires Kept(w)
    requires w'.dropped == w.dropped && w'.clock == w.clock && (Holds(w') ==> Holds(w))
    requires forall p :: p in Stream(w) ==> p in Stream(w')
    ensures Kept(w')
  {
    hide Stream;
  }

  /** What is left when SendSocket refuses the package, or the request is for another id. */
  lemma RefusalFacts(w: World, a: Action)
    requires Step(w, a) && a.Handle? && w.pipe[0].ReqSend?
    requires w.pipe[0].id != w.sock.id || Refuses(w.sock, w.sock.id)
    ensures
      var q, rest, w' := w.pipe[0], Posted(w.pipe[1..], w.sock.id), Next(w, a);
      && Stream(w) == Queue(w.sock, w.lock) + (PostedBy(q, w.sock.id) + rest)
      && Stream(w') == Queue(w.sock, w.lock) + rest
      && w'.sock.ty == w.sock.ty && w'.clock == w.clock && w'.uncounted == w.uncounted
      && w'.overtaken == w.overtaken && w'.pending == None && w.pending == None
      && w'.dropped == if q.id == w.sock.id then w.dropped + {q.pkg.stamp} else w.dropped
  {
    HandleIs(w, a);
    PostedPop(w.pipe, w.sock.id);
    SameQueue(w.sock, Next(w, a).sock, w.lock);
    hide Inv, Queue, Posted;
  }

  lemma StreamAfterRefusal(w: World, a: Action)
    requires Step(w, a) && StreamInv(w) && a.Handle? && w.pipe[0].ReqSend?
    requires w.pipe[0].id != w.sock.id || Refuses(w.sock, w.sock.id)
    ensures StreamInv(Next(w, a))
  {
    var q, w' := w.pipe[0], Next(w, a);
    hide Inv, Queue, Posted, Next, Enabled, Ordered, Refuses, Stream;
    var queue, rest := Queue(w.sock, w.lock), Posted(w.pipe[1..], w.sock.id);
    RefusalFacts(w, a);
    if q.id == w.sock.id {
      Assoc(queue, [q.pkg], rest);
      if w.uncounted == 0 && !w.overtaken { OrderedCut(queue, [q.pkg], rest, w.clock); }
      assert forall p :: p in Stream(w) ==> p in Stream(w') || p == q.pkg;
      assert Kept(w');
    } else {
      assert [] + rest == rest;
      SameStream(w, w');
    }
  }

  lemma PostingFacts(w: World, a: Action)
    requires Step(w, a) && Posting(w, a).Some?
    ensures
      var q, w' := Posting(w, a).value, Next(w, a);
      && Stream(w') == Stream(w) + PostedBy(q, w.sock.id) && w'.sock == w.sock
      && w'.dropped == w.dropped && w'.uncounted == w.uncounted
      && w'.overtaken == w.overtaken && w'.pending == w.pending
      && (PostedBy(q, w.sock.id) == [] ==> w'.clock == w.clock)
      && (PostedBy(q, w.sock.id) != [] ==>
            q.ReqSend? && PostedBy(q, w.sock.id) == [q.pkg] && w'.clock == w.clock + 1 && q.pkg.stamp == w.clock)
  {
    hide Inv, Queue, Posted;
    var q := Posting(w, a).value;
    PostedSnoc(w.pipe, q, w.sock.id);
    Assoc(Queue(w.sock, w.lock), Posted(w.pipe, w.sock.id), PostedBy(q, w.sock.id));
  }

  lemma StreamAfterPosting(w: World, a: Action)
    requires Step(w, a) && StreamInv(w) && Posting(w, a).Some?
    ensures StreamInv(Next(w, a))
  {
    hide Inv, Next, Enabled, Stream, Posting, Ordered, Accounted, PostedBy;
    var q, w' := Posting(w, a).value, Next(w, a);
    PostingFacts(w, a);
    if PostedBy(q, w.sock.id) != [] {
      if w.uncounted == 0 && !w.overtaken { OrderedSnoc(Stream(w), q.pkg, w.clock); }
      if Holds(w) { AccountedSnoc(Stream(w), q.pkg, w.dropped, w.clock); }
    } else {
      assert Stream(w) + [] == Stream(w);
    }
  }

  /** A state with the same stream keeps what is claimed of it. */
  lemma SameStream(w: World, w': World)
    requires StreamInv(w) && Stream(w') == Stream(w)
    requires w'.clock == w.clock && w'.dropped == w.dropped
    requires w'.uncounted >= w.uncounted && w'.overtaken == w.overtaken
    requires Holds(w') ==> Holds(w)
    ensures StreamInv(w')
  {
    hide Stream, Ordered, Accounted;
  }

  /** A worker past its check finds nothing written in part, and nothing posted that was
      counted; what is queued was queued after it looked. */
  lemma PassFacts(w: World, a: Action)
    requires Step(w, a) && a.Pass?
    ensures
      var p, w', queued := Package(w.clock, false, a.data), Next(w, a), Packages(w.sock.high) + Packages(w.sock.low);
      && (w.uncounted == 0 ==> Posted(w.pipe, w.sock.id) == [])
      && Queue(w.sock, w.lock) == w.sock.chan.done + queued
      && Queue(w'.sock, w'.lock) == w.sock.chan.done + [p] + queued
      && AllLow(w.sock.low)
      && w'.pipe == w.pipe && w'.sock == w.sock && w'.clock == w.clock + 1
      && w'.dropped == w.dropped && w'.uncounted == w.uncounted && w'.pending == w.pending
      && w'.overtaken == (w.overtaken || !AllLow(w.sock.high))
  {
    hide OpensFirst, Closed, Awake, Posted, Packages, WholePackages, Covered;
    assert |Posted(w.pipe, w.sock.id)| == 0 || w.uncounted > 0;
    var done, high, low := w.sock.chan.done, Packages(w.sock.high), Packages(w.sock.low);
    Assoc(done, high, low);
    Assoc(done + [Package(w.clock, false, a.data)], high, low);
  }

  lemma {:induction false} PackagesMember(list: seq<WriteBuffer>)
    ensures forall b :: b in list ==> b.pkg in Packages(list)
    ensures AllLow(list) ==> forall p :: p in Packages(list) ==> p.low
  {
    if |list| > 0 {
      PackagesMember(list[1..]);
      assert list == [list[0]] + list[1..];
    }
  }

  /** The queued packages are all low exactly when those of the high list are. */
  lemma QueuedAllLow(s: Socket)
    requires AllLow(s.low)
    ensures AllLow(s.high) <==> forall x :: x in Packages(s.high) + Packages(s.low) ==> x.low
  {
    PackagesMember(s.high);
    PackagesMember(s.low);
    if i :| 0 <= i < |s.high| && !s.high[i].pkg.low {
      assert s.high[i] in s.high;
      assert s.high[i].pkg in Packages(s.high) + Packages(s.low);
    }
  }

  /** A new high-priority package in front of what is queued keeps the order if and only
      if only low-priority packages are queued. */
  lemma DirectBeforeQueued(done: seq<Package>, queued: seq<Package>, p: Package, clock: nat)
    requires Ordered(done + queued, clock) && p.stamp == clock && !p.low
    ensures Ordered(done + [p] + queued, clock + 1) <==> forall x :: x in queued ==> x.low
  {
    if forall x :: x in queued ==> x.low {
      OrderedSnoc(done + queued, p, clock);
      OrderedUnpass(done, queued, p, clock + 1);
    } else {
      HighBehindBreaksOrder(done, queued, p, clock);
    }
  }

  lemma HighBehindBreaksOrder(done: seq<Package>, queued: seq<Package>, p: Package, clock: nat)
    requires Ordered(done + queued, clock) && p.stamp == clock && !p.low
    requires exists x :: x in queued && !x.low
    ensures !Ordered(done + [p] + queued, clock + 1)
  {
    hide Filter;
    var x :| x in queued && !x.low;
    var f := OfPriority(false);
    var front, rest := Filter(done, f), Filter(queued, f);
    FilterAppend(done + [p], queued, f);
    FilterSnoc(done, p, f);
    FilterMember(queued, f);
    assert x in done + queued;
    var k :| 0 <= k < |rest| && rest[k] == x;
    var all := Filter(done + [p] + queued, f);
    assert all == front + [p] + rest;
    assert all[|front|] == p && all[|front| + 1 + k] == x;
    assert !Increasing(all);
  }

  lemma OrderedUnpass(a: seq<Package>, lows: seq<Package>, p: Package, clock: nat)
    requires Ordered(a + lows + [p], clock) && !p.low && forall q :: q in lows ==> q.low
    ensures Ordered(a + [p] + lows, clock)
  {
    assert a + lows + [p] == a + lows + ([p] + []);
    OrderedPass(a, lows, p, [], clock);
    assert a + [p] + lows + [] == a + [p] + lows;
  }

  /** Passing the check puts a package in front of what was queued since the worker looked.
      That keeps the order if and only if no high-priority package was. */
  lemma PassKeepsOrderIff(w: World, data: seq<byte>)
    requires Step(w, Pass(data)) && w.uncounted == 0 && Ordered(Stream(w), w.clock)
    ensures Ordered(Stream(Next(w, Pass(data))), w.clock + 1) <==> AllLow(w.sock.high)
  {
    hide Inv, Queue, Packages, Posted, Ordered, Next, Enabled, AllLow;
    var p, queued := Package(w.clock, false, data), Packages(w.sock.high) + Packages(w.sock.low);
    PassFacts(w, Pass(data));
    QueuedAllLow(w.sock);
    var done := w.sock.chan.done;
    assert Stream(w) == done + queued by { assert done + queued + [] == done + queued; }
    assert Stream(Next(w, Pass(data))) == done + [p] + queued by {
      assert done + [p] + queued + [] == done + [p] + queued;
    }
    hide Stream;
    DirectBeforeQueued(done, queued, p, w.clock);
  }

  lemma StreamAfterPass(w: World, a: Action)
    requires Step(w, a) && StreamInv(w) && a.Pass?
    ensures StreamInv(Next(w, a))
  {
    var p, w' := Package(w.clock, false, a.data), Next(w, a);
    PassFacts(w, a);
    if w.uncounted == 0 && !w.overtaken { PassKeepsOrderIff(w, a.data); }
    PassAccounts(w, w', p);
    hide Inv, Queue, Posted, Ordered, Next, Enabled, Stream, Accounted, AllLow, Packages;
  }

  lemma PassAccounts(w: World, w': World, p: Package)
    requires Kept(w) && p.stamp == w.clock && w'.clock == w.clock + 1
    requires w'.dropped == w.dropped && w'.sock == w.sock && w'.pipe == w.pipe && w'.pending == w.pending
    requires exists done, queued ::
               Queue(w.sock, w.lock) == done + queued && Queue(w'.sock, w'.lock) == done + [p] + queued
    ensures Kept(w')
  {
    hide Queue, Posted;
    if Holds(w) {
      AccountedSnoc(Stream(w), p, w.dropped, w.clock);
      assert forall q :: q in Stream(w) + [p] <==> q in Stream(w');
      AccountedSame(Stream(w) + [p], Stream(w'), w.dropped, w.clock + 1);
      hide Stream, Accounted;
    }
  }

  lemma AccountedSame(ps: seq<Package>, qs: seq<Package>, dropped: set<nat>, clock: nat)
    requires Accounted(ps, dropped, clock) && forall q :: q in ps ==> q in qs
    ensures Accounted(qs, dropped, clock)
  {
  }

  /** The lock and the buffer change hands; the package stays where it is. */
  lemma StreamAfterLock(w: World, a: Action)
    requires Step(w, a) && StreamInv(w) && (a.WriteDirect? || a.StoreDirect? || a.Look? || a.GiveUp?)
    ensures StreamInv(Next(w, a))
  {
    LockKeepsQueue(w, a);
    var w' := Next(w, a);
    hide Queue, Inv, Enabled, StreamInv, Posted, Next;
    SameStream(w, w');
  }

  lemma LockKeepsQueue(w: World, a: Action)
    requires Step(w, a) && (a.WriteDirect? || a.StoreDirect? || a.Look? || a.GiveUp?)
    ensures
      var w' := Next(w, a);
      && Queue(w'.sock, w'.lock) == Queue(w.sock, w.lock)
      && w'.pipe == w.pipe && w'.sock.id == w.sock.id && w'.sock.ty == w.sock.ty && w'.pending == w.pending
      && w'.clock == w.clock && w'.dropped == w.dropped && w'.uncounted == w.uncounted && w'.overtaken == w.overtaken
  {
    if w.lock != Unlocked { LockFacts(w); }
    if a.WriteDirect? { QueueOfWrite(w.sock, w.lock.pkg, a.n); }
    if a.StoreDirect? { QueueOfStore(w.sock, w.lock.pkg, w.lock.n); }
    assert Queue(w.sock, Looked) == Queue(w.sock, Unlocked);
    hide Inv, Packages, DirectEmit, Queue;
  }

  lemma QueueOfWrite(s: Socket, p: Package, n: nat)
    requires s.dw == None && n <= |p.data|
    ensures var lock := if n == |p.data| then Unlocked else Wrote(p, n);
            Queue(s.(chan := DirectEmit(s.chan, p, n)), lock) == Queue(s, Checked(p))
  {
    DirectDone(s.chan, p, n);
    hide Packages, DirectEmit;
    assert s.chan.done + [p] + [] == s.chan.done + [p];
  }

  lemma QueueOfStore(s: Socket, p: Package, n: nat)
    requires s.dw == None
    ensures Queue(s.(dw := Some(WriteBuffer(p, n))), Unlocked) == Queue(s, Wrote(p, n))
  {
    hide Packages;
    assert s.chan.done + [p] + [] == s.chan.done + [] + [p];
  }

  lemma DirectDone(c: Channel, p: Package, n: nat)
    requires n <= |p.data|
    ensures DirectEmit(c, p, n).done == if n == |p.data| then c.done + [p] else c.done
  {
  }

  lemma NothingOrdered()
    ensures Ordered([], 0) && Accounted([], {}, 0)
  {
    forall low {:trigger OfPriority(low)}
      ensures Increasing(Filter([], OfPriority(low)))
    {
    }
  }

  /** A slot that is taken for a new id has nothing queued or posted. */
  lemma FreshStream(w: World, a: Action)
    requires Step(w, a) && TakesId(a)
    ensures
      var w' := Next(w, a);
      Stream(w') == [] && w'.clock == 0 && w'.dropped == {} && w'.uncounted == 0 && !w'.overtaken
  {
    hide SlotState, Awake, Closed, Counted, OpenRequests, Posted, Next, Enabled, KnownCallers;
    TakeFrame(w, a);
    DeadHasNothing(w);
    PostedNone(w.pipe, a.id);
    assert Packages([]) == [];
  }

  lemma StreamAfterTakesId(w: World, a: Action)
    requires Step(w, a) && StreamInv(w) && TakesId(a)
    ensures StreamInv(Next(w, a))
  {
    hide Inv, Next, Enabled, Stream, Ordered, Accounted;
    FreshStream(w, a);
    NothingOrdered();
  }

  lemma CountStream(w: World, w': World)
    requires Queue(w'.sock, w.lock) == Queue(w.sock, w.lock) && w'.lock == w.lock
    requires w'.pipe == w.pipe && w'.sock.id == w.sock.id
    ensures Stream(w') == Stream(w)
  {
    hide Queue, Posted;
  }

  lemma StreamAfterCount(w: World, a: Action)
    requires Step(w, a) && StreamInv(w) && a.CountSend?
    ensures StreamInv(Next(w, a))
  {
    hide Inv, Next, Enabled, Stream;
    CountFrame(w, a);
    SameQueue(w.sock, Next(w, a).sock, w.lock);
    CountStream(w, Next(w, a));
    SameStream(w, Next(w, a));
  }

  lemma StreamAfterTest(w: World, a: Action)
    requires Step(w, a) && StreamInv(w) && a.Test?
    ensures StreamInv(Next(w, a))
  {
    hide Inv, Next, Enabled, Stream;
    TestFrame(w, a);
    CountStream(w, Next(w, a));
    SameStream(w, Next(w, a));
  }

  lemma StepKeepsStream(w: World, a: Action)
    requires Step(w, a) && StreamInv(w)
    ensures StreamInv(Next(w, a))
  {
    hide Inv, StreamInv, Next, Enabled, Shrinks;
    if IsEvent(a) {
      EventShrinks(w, a);
      StreamAfterEffect(w, Next(w, a));
    } else if a.FinishClose? {
      FinishShrinks(w);
      StreamAfterEffect(w, Next(w, a));
    } else {
      match a
      case Handle(_, _) =>
        assert Enabled(w, a) ==> w.pipe != [] by { HandleHasRequest(w, a); }
        if !w.pipe[0].ReqSend? {
          RequestShrinks(w, a);
          StreamAfterEffect(w, Next(w, a));
        } else if w.pipe[0].id == w.sock.id && !Refuses(w.sock, w.sock.id) {
          StreamAfterAccept(w, a);
        } else {
          StreamAfterRefusal(w, a);
        }
      case DoReserve(_) => StreamAfterTakesId(w, a);
      case Accepted(_) => StreamAfterTakesId(w, a);
      case CountSend(_) => StreamAfterCount(w, a);
      case Test(_) => StreamAfterTest(w, a);
      case Pass(_) => StreamAfterPass(w, a);
      case Look => StreamAfterLock(w, a);
      case GiveUp => StreamAfterLock(w, a);
      case WriteDirect(_) => StreamAfterLock(w, a);
      case StoreDirect => StreamAfterLock(w, a);
      case _ => StreamAfterPosting(w, a);
    }
  }

  lemma HandleHasRequest(w: World, a: Action)
    ensures a.Handle? && Enabled(w, a) ==> w.pipe != []
  {
  }

  lemma {:induction false} EveryStreamOfARun(ws: seq<World>, acts: seq<Action>, i: nat)
    requires Run(ws, acts) && i < |ws|
    ensures StreamInv(ws[i])
  {
    hide Inv, StreamInv, Next, Enabled;
    if i == 0 {
      StartStream();
    } else {
      EveryStreamOfARun(ws, acts, i - 1);
      EveryStateOfARun(ws, acts, i - 1);
      assert Enabled(ws[i - 1], acts[i - 1]) && ws[i - 1 + 1] == Next(ws[i - 1], acts[i - 1]);
      StepKeepsStream(ws[i - 1], acts[i - 1]);
    }
  }

  lemma StartStream()
    ensures StreamInv(Start())
  {
    assert Packages([]) == [] && Posted([], 0) == [];
    assert Stream(Start()) == [];
    forall low {:trigger OfPriority(low)}
      ensures Increasing(Filter([], OfPriority(low)))
    {
    }
  }
}
