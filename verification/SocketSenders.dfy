/** The callers of Send and SendLowpriority as threads that each make one call after another, and
    what that gives one sender whatever the others do: its packages stay in order. */
module SocketSenders {
  import opened Basics
  import opened Seqs
  import opened SocketSlot
  import opened SocketServer
  import opened SocketInvariants
  import opened SocketSteps
  import opened SocketOrder
  import opened SocketTheorems
  import opened SocketTidy

  // ---------------------------------------------------------------- the callers

  /** Where a thread is in its call of Send or SendLowpriority for an id. */
  datatype Phase =
    | Idle
    | Tested(id: nat)    // passed the test without the lock
    | Holding            // has the direct-write lock
    | Failed(id: nat)    // gave the lock back without writing
    | Queueing(id: nat)   // past IncSendingRef
    | Stored(id: nat)    // left bytes over, before writing 'W'

  /** The machine with its callers: the phase of every thread, and which thread sent the package
      with each stamp. */
  datatype Crowd = Crowd(w: World, phases: map<nat, Phase>, senders: seq<nat>)

  datatype Call = Call(thread: nat, step: Action)

  function PhaseOf(c: Crowd, t: nat): Phase { if t in c.phases then c.phases[t] else Idle }

  /** A thread takes the steps of its call in the order of the code: the test without the lock, the
      lock and the second test, the write; or the count and the request. Other steps may be
      anybody's. */
  predicate May(c: Crowd, t: nat, a: Action) {
    && Enabled(c.w, a)
    && match a
       case Test(_) => PhaseOf(c, t) == Idle
       case CountSend(id) => PhaseOf(c, t) in {Idle, Tested(id), Failed(id)}
       case PostSend(id, _, _) => PhaseOf(c, t) == Queueing(id)
       case Look => PhaseOf(c, t) == Tested(c.w.sock.id)
       case Pass(_) => PhaseOf(c, t) == Holding
       case GiveUp => PhaseOf(c, t) == Holding
       case WriteDirect(_) => PhaseOf(c, t) == Holding
       case StoreDirect => PhaseOf(c, t) == Holding
       case PostTrigger(id) => PhaseOf(c, t) == Stored(id)
       case _ => true
  }

  function PhaseAfter(c: Crowd, t: nat, a: Action): Phase
    requires May(c, t, a)
  {
    match a
    case Test(id) => Tested(id)
    case CountSend(id) => Queueing(id)
    case PostSend(_, _, _) => Idle
    case Look => Holding
    case GiveUp => Failed(c.w.sock.id)
    case WriteDirect(n) => if n == |c.w.lock.pkg.data| then Idle else Holding
    case StoreDirect => Stored(c.w.sock.id)
    case PostTrigger(_) => Idle
    case _ => PhaseOf(c, t)
  }

  /** A stamp is given out when a package is posted for the current id, or written directly. */
  predicate Stamps(w: World, a: Action) { a.Pass? || (a.PostSend? && a.id == w.sock.id) }

  function After(c: Crowd, t: nat, a: Action): Crowd
    requires May(c, t, a)
  {
    Crowd(Next(c.w, a), c.phases[t := PhaseAfter(c, t, a)],
          if TakesId(a) then [] else if Stamps(c.w, a) then c.senders + [t] else c.senders)
  }

  ghost predicate CrowdRun(cs: seq<Crowd>, calls: seq<Call>) {
    && |cs| == |calls| + 1
    && cs[0] == Crowd(Start(), map[], [])
    && forall i {:trigger calls[i]} :: 0 <= i < |calls| ==>
         May(cs[i], calls[i].thread, calls[i].step) && cs[i + 1] == After(cs[i], calls[i].thread, calls[i].step)
  }

  function Worlds(cs: seq<Crowd>): seq<World> { seq(|cs|, i requires 0 <= i < |cs| => cs[i].w) }
  function Steps(calls: seq<Call>): seq<Action> { seq(|calls|, i requires 0 <= i < |calls| => calls[i].step) }

  /** The callers' machine is the machine with some runs left out. */
  lemma CrowdRunIsRun(cs: seq<Crowd>, calls: seq<Call>)
    requires CrowdRun(cs, calls)
    ensures Run(Worlds(cs), Steps(calls))
  {
    hide Next, Enabled;
    var ws, acts := Worlds(cs), Steps(calls);
    forall i {:trigger acts[i]} | 0 <= i < |acts|
      ensures Enabled(ws[i], acts[i]) && ws[i + 1] == Next(ws[i], acts[i])
    {
      assert calls[i].step == acts[i];
    }
  }

  // ---------------------------------------------------------------- what every step keeps

  predicate SentBy(senders: seq<nat>, t: nat, p: Package) { p.stamp < |senders| && senders[p.stamp] == t }

  /** The high-priority packages of one sender. */
  function HighOf(senders: seq<nat>, t: nat): Package -> bool { (p: Package) => !p.low && SentBy(senders, t, p) }

  predicate NoneOf(ps: seq<Package>, senders: seq<nat>, t: nat) {
    forall p :: p in ps ==> !SentBy(senders, t, p)
  }

  /** The lock has one holder, a thread that holds it. */
  ghost predicate OneHolder(c: Crowd) {
    && (forall t {:trigger PhaseOf(c, t)} :: PhaseOf(c, t).Holding? ==> c.w.lock != Unlocked)
    && (forall t, u {:trigger PhaseOf(c, t), PhaseOf(c, u)} ::
          PhaseOf(c, t).Holding? && PhaseOf(c, u).Holding? ==> t == u)
  }

  /** A thread past its test has no package posted, and once it has the lock none queued either. */
  ghost predicate Cleared(c: Crowd, t: nat) {
    match PhaseOf(c, t)
    case Tested(id) =>
      id == c.w.sock.id && c.w.sock.ty != Invalid ==> NoneOf(Posted(c.w.pipe, id), c.senders, t)
    case Holding => NoneOf(Behind(c.w), c.senders, t)
    case _ => true
  }

  ghost predicate CrowdInv(c: Crowd) {
    && Inv(c.w) && Stamped(c.w) && |c.senders| == c.w.clock && OneHolder(c)
    && (c.w.uncounted == 0 ==> forall t: nat :: Cleared(c, t))
    && (c.w.uncounted == 0 ==> forall t {:trigger HighOf(c.senders, t)} :: Tidy(c.w, HighOf(c.senders, t)))
  }

  // ---------------------------------------------------------------- the lock has one holder

  lemma LockChanges(w: World, a: Action)
    requires Step(w, a)
    ensures !ByLock(a) ==> Next(w, a).lock == w.lock
    ensures a.Look? ==> w.lock == Unlocked && Next(w, a).lock == Looked
    ensures a.Pass? ==> Next(w, a).lock.Checked?
    ensures a.GiveUp? || a.StoreDirect? ==> Next(w, a).lock == Unlocked
    ensures a.WriteDirect? ==>
              w.lock.Checked? && (Next(w, a).lock == Unlocked <==> a.n == |w.lock.pkg.data|)
  {
    hide Inv, AllLow, DirectEmit, HandleResult, EventResult, RequestClosing, EventClosing, Drops;
  }

  lemma OneHolderStep(c: Crowd, t: nat, a: Action)
    requires CrowdInv(c) && May(c, t, a)
    ensures OneHolder(After(c, t, a))
  {
    hide Inv, Next, Enabled, Cleared, Tidy, Stamped;
    LockChanges(c.w, a);
    var c' := After(c, t, a);
    assert forall u: nat {:trigger PhaseOf(c', u)} ::
        PhaseOf(c', u) == if u == t then PhaseAfter(c, t, a) else PhaseOf(c, u);
  }

  // ---------------------------------------------------------------- what lies behind the holder

  /** Handling a request or an event leaves a list as it was, frees it, or appends a send. */
  predicate ListFrom(list: seq<WriteBuffer>, list': seq<WriteBuffer>, p: Package) {
    list' == list || list' == [] || list' == list + [WriteBuffer(p, 0)]
  }

  lemma {:induction false} ListFromMembers(list: seq<WriteBuffer>, list': seq<WriteBuffer>, p: Package)
    requires ListFrom(list, list', p)
    ensures forall q :: q in Packages(list') ==> q in Packages(list) || q == p
  {
    if list' == list + [WriteBuffer(p, 0)] { PackagesSnoc(list, WriteBuffer(p, 0)); }
  }

  lemma EventLists(s: Socket, a: Action)
    requires IsEvent(a) && !a.WriteEvent?
    ensures var r := EventResult(s, a).0;
            (r.high == s.high || r.high == []) && (r.low == s.low || r.low == [])
  {
  }

  lemma HandleLists(s: Socket, q: Request, open: OpenResult, epollOk: bool)
    ensures
      var r := HandleResult(s, q, open, epollOk).0;
      if q.ReqSend? && q.id == s.id then ListFrom(s.high, r.high, q.pkg) && ListFrom(s.low, r.low, q.pkg)
      else (r.high == s.high || r.high == []) && (r.low == s.low || r.low == [])
  {
    if q.ReqSend? && SendBufferEmpty(s) { assert s.high + [WriteBuffer(q.pkg, 0)] == [WriteBuffer(q.pkg, 0)]; }
  }

  /** While a worker holds the lock only a new package comes to lie behind it. */
  lemma BehindGrows(w: World, a: Action)
    requires Step(w, a) && w.lock != Unlocked && !ByLock(a)
    ensures forall p :: p in Behind(Next(w, a)) ==>
              p in Behind(w) || (a.PostSend? && Stamps(w, a) && p.stamp == w.clock)
  {
    hide Inv, Next, Enabled, Packages, Posted, Posting, Stamps, AfterEvent, AfterHandle, HandleResult;
    LockFacts(w);
    if IsEvent(a) {
      HoldsOffWrites(w, a);
      EventBehind(w, a);
    } else if a.Handle? {
      HandleHasRequest(w, a);
      HandleIs(w, a);
      HandleNeeds(w, a);
      HandleBehind(w, a);
    } else if a.CountSend? {
      CountFrame(w, a);
      CountClock(w, a);
    } else if a.Test? {
      TestFrame(w, a);
    } else {
      NotFree(w, a);
      PostsSomething(w, a);
      PostingBehind(w, a);
    }
  }

  lemma EventBehind(w: World, a: Action)
    requires Step(w, a) && IsEvent(a) && !a.WriteEvent?
    ensures forall p :: p in Behind(Next(w, a)) ==> p in Behind(w)
  {
    hide Inv, Next, Enabled, Packages, Posted, EventResult, QueueEffect, Holds;
    EventEffect(w, a);
    EventShrinks(w, a);
    EventLists(w.sock, a);
    EventPipe(w, a);
    NoPackages();
  }

  lemma EventPipe(w: World, a: Action)
    requires IsEvent(a) && !a.WriteEvent?
    ensures AfterEvent(w, a).sock == EventResult(w.sock, a).0 && AfterEvent(w, a).pipe == w.pipe
  {
    hide EventResult;
  }

  lemma NoPackages()
    ensures Packages([]) == []
  {
  }

  lemma HoldsOffWrites(w: World, a: Action)
    requires Enabled(w, a) && w.lock != Unlocked
    ensures !a.WriteEvent? && !a.FinishClose?
  {
  }

  lemma NotFree(w: World, a: Action)
    requires Enabled(w, a) && w.lock != Unlocked && Live(w.sock)
    ensures !TakesId(a) && !a.FinishClose?
  {
  }

  lemma HandleBehind(w: World, a: Action)
    requires a.Handle? && w.pipe != [] && Enabled(w, a) && Next(w, a) == AfterHandle(w, a)
    requires HandleResult(w.sock, w.pipe[0], a.open, a.epollOk).0.id == w.sock.id
    ensures forall p :: p in Behind(Next(w, a)) ==> p in Behind(w)
  {
    hide Next, Enabled, Packages, Posted, HandleResult;
    var s, q, r := w.sock, w.pipe[0], HandleResult(w.sock, w.pipe[0], a.open, a.epollOk).0;
    assert Next(w, a).sock == r && Next(w, a).pipe == w.pipe[1..];
    HandleLists(s, q, a.open, a.epollOk);
    PostedPop(w.pipe, s.id);
    NoPackages();
    if q.ReqSend? && q.id == s.id {
      ListFromMembers(s.high, r.high, q.pkg);
      ListFromMembers(s.low, r.low, q.pkg);
      assert q.pkg in Posted(w.pipe, s.id);
    }
  }

  lemma PostingBehind(w: World, a: Action)
    requires Enabled(w, a) && Posting(w, a).Some?
    ensures forall p :: p in Behind(Next(w, a)) ==>
              p in Behind(w) || (a.PostSend? && Stamps(w, a) && p.stamp == w.clock)
  {
    hide Next, Enabled, Packages, Posted, AfterPosting;
    PostFrame(w, a);
    PostedSnoc(w.pipe, Posting(w, a).value, w.sock.id);
  }

  // ---------------------------------------------------------------- what is posted

  /** Until the slot is taken again, only a new package comes to be posted for its id. */
  predicate PostsOnly(w: World, a: Action, w': World) {
    && w'.sock.id == w.sock.id && w'.uncounted >= w.uncounted
    && (forall p :: p in Posted(w'.pipe, w.sock.id) ==>
          p in Posted(w.pipe, w.sock.id) || (a.PostSend? && Stamps(w, a) && p.stamp == w.clock))
  }

  lemma PostedGrows(w: World, a: Action)
    requires Step(w, a) && !TakesId(a)
    ensures PostsOnly(w, a, Next(w, a))
  {
    hide Inv, Next, Enabled, Posted, Stamps, QueueEffect, Holds, Refuses;
    if IsEvent(a) {
      EventShrinks(w, a);
    } else if a.FinishClose? {
      FinishShrinks(w);
    } else if a.Handle? {
      HandlePosts(w, a);
    } else if a.CountSend? {
      CountFrame(w, a);
      CountClock(w, a);
    } else if a.Test? {
      TestFrame(w, a);
    } else if ByLock(a) {
      LockFrame(w, a);
    } else {
      PostsSomething(w, a);
      PostingPosts(w, a);
    }
  }

  lemma HandlePosts(w: World, a: Action)
    requires Step(w, a) && a.Handle?
    ensures PostsOnly(w, a, Next(w, a))
  {
    hide Inv, Next, Enabled, Posted, HandleResult, RequestClosing, Drops;
    HandleHasRequest(w, a);
    HandleIs(w, a);
    HandleNeeds(w, a);
    PostedPop(w.pipe, w.sock.id);
    assert Next(w, a).pipe == w.pipe[1..] && Next(w, a).uncounted == w.uncounted;
  }

  lemma PostingPosts(w: World, a: Action)
    requires Enabled(w, a) && Posting(w, a).Some?
    ensures PostsOnly(w, a, Next(w, a))
  {
    hide Next, Enabled, Posted, AfterPosting;
    PostFrame(w, a);
    PostedSnoc(w.pipe, Posting(w, a).value, w.sock.id);
  }

  /** A slot that is closed stays so until it is taken again. */
  lemma ClosedStays(w: World, a: Action)
    requires Step(w, a) && w.sock.ty == Invalid && !TakesId(a)
    ensures Next(w, a).sock.ty == Invalid
  {
    hide Inv, Next, Enabled, HandleResult, AfterPosting, Posting;
    DeadHasNothing(w);
    if a.Handle? {
      HandleFacts(w, a);
      HandleIs(w, a);
      ClosedHandle(w.sock, w.pipe[0], a.open, a.epollOk);
    } else if a.CountSend? {
      CountFrame(w, a);
    } else if a.Test? {
      TestFrame(w, a);
    } else if ByLock(a) {
      LockFrame(w, a);
    } else if IsEvent(a) || a.FinishClose? {
      ClosedHasNone(w, a);
    } else {
      PostsSomething(w, a);
      PostFrame(w, a);
    }
  }

  lemma ClosedHandle(s: Socket, q: Request, open: OpenResult, epollOk: bool)
    requires s.ty == Invalid && !q.ReqOpen?
    ensures HandleResult(s, q, open, epollOk).0.ty == Invalid
  {
  }

  lemma ClosedHasNone(w: World, a: Action)
    requires Enabled(w, a) && w.sock.ty == Invalid && w.pending == None
    ensures !IsEvent(a) && !a.FinishClose?
  {
  }

  /** With every send counted, `sending` at zero means that nothing is posted. */
  lemma NothingInFlight(w: World)
    requires Inv(w) && w.uncounted == 0 && w.sock.sending == 0 && w.sock.ty != Invalid
    ensures Posted(w.pipe, w.sock.id) == []
  {
    hide SlotState, Awake, OpensFirst, Closed, Posted;
  }

  // ---------------------------------------------------------------- every step of a caller

  lemma BehindIsStreamed(w: World)
    ensures forall p :: p in Behind(w) ==> p in Stream(w)
    ensures forall p :: p in Posted(w.pipe, w.sock.id) ==> p in Stream(w) && p in Behind(w)
  {
    hide Packages, Posted;
  }

  /** The senders of the packages there are stay who they were. */
  lemma SendersStay(c: Crowd, t: nat, a: Action, u: nat, p: Package)
    requires May(c, t, a) && !TakesId(a) && |c.senders| == c.w.clock
    requires p.stamp < c.w.clock
    ensures SentBy(After(c, t, a).senders, u, p) <==> SentBy(c.senders, u, p)
  {
    hide Next, Enabled;
  }

  lemma NewSender(c: Crowd, t: nat, a: Action, u: nat, p: Package)
    requires May(c, t, a) && !TakesId(a) && |c.senders| == c.w.clock
    requires p.stamp == c.w.clock
    ensures SentBy(After(c, t, a).senders, u, p) <==> Stamps(c.w, a) && u == t
  {
    hide Next, Enabled;
  }

  /** The packages that were there: none of u's among ps means none among them later. */
  lemma NoneStays(c: Crowd, t: nat, a: Action, u: nat, ps: seq<Package>, ps': seq<Package>)
    requires CrowdInv(c) && May(c, t, a) && !TakesId(a)
    requires NoneOf(ps, c.senders, u) && forall p :: p in ps ==> p in Stream(c.w)
    requires forall p :: p in ps' ==> p in ps || (a.PostSend? && Stamps(c.w, a) && p.stamp == c.w.clock)
    requires a.PostSend? ==> u != t
    ensures NoneOf(ps', After(c, t, a).senders, u)
  {
    hide Inv, Next, Enabled, Cleared, Tidy, OneHolder, Stream, After, SentBy, Stamps;
    forall p | p in ps'
      ensures !SentBy(After(c, t, a).senders, u, p)
    {
      if p in ps {
        SendersStay(c, t, a, u, p);
      } else {
        NewSender(c, t, a, u, p);
      }
    }
  }

  lemma LockBehind(w: World, a: Action)
    requires Enabled(w, a) && ByLock(a)
    ensures Behind(Next(w, a)) == Behind(w)
    ensures a.Look? ==> Behind(w) == Posted(w.pipe, w.sock.id) && w.sock.ty == Connected
  {
    hide Next, Enabled, Posted, AfterLock;
    LockFrame(w, a);
    NoPackages();
  }

  lemma TestedStep(c: Crowd, t: nat, a: Action, u: nat)
    requires CrowdInv(c) && May(c, t, a) && !TakesId(a) && After(c, t, a).w.uncounted == 0
    requires PhaseOf(After(c, t, a), u).Tested?
    ensures Cleared(After(c, t, a), u)
  {
    hide Inv, Next, Enabled, Tidy, Stamped, OneHolder, Posted, Behind, Stamps, NoneOf;
    var w, w', id := c.w, Next(c.w, a), PhaseOf(After(c, t, a), u).id;
    PostedGrows(w, a);
    if w.sock.ty == Invalid { ClosedStays(w, a); }
    if id == w'.sock.id && w'.sock.ty != Invalid {
      assert Cleared(c, u);
      BehindIsStreamed(w);
      if u == t && a.Test? {
        TestFrame(w, a);
        NothingInFlight(w);
        NoneOfNothing(c.senders, u);
      }
      NoneStays(c, t, a, u, Posted(w.pipe, id), Posted(w'.pipe, id));
    }
  }

  lemma NoneOfNothing(senders: seq<nat>, u: nat)
    ensures NoneOf([], senders, u)
  {
  }

  lemma HolderStep(c: Crowd, t: nat, a: Action, u: nat)
    requires CrowdInv(c) && May(c, t, a) && !TakesId(a) && After(c, t, a).w.uncounted == 0
    requires PhaseOf(After(c, t, a), u).Holding?
    ensures Cleared(After(c, t, a), u)
  {
    hide Inv, Next, Enabled, Tidy, Stamped, Posted, Behind, Stamps, NoneOf;
    var w, w' := c.w, Next(c.w, a);
    PostedGrows(w, a);
    assert Cleared(c, u);
    BehindIsStreamed(w);
    if ByLock(a) {
      LockBehind(w, a);
    } else {
      BehindGrows(w, a);
    }
    if u == t && a.Look? {
      NoneStays(c, t, a, u, Posted(w.pipe, w.sock.id), Behind(w'));
    } else {
      NoneStays(c, t, a, u, Behind(w), Behind(w'));
    }
  }

  lemma ClearedStep(c: Crowd, t: nat, a: Action, u: nat)
    requires CrowdInv(c) && May(c, t, a) && After(c, t, a).w.uncounted == 0
    ensures Cleared(After(c, t, a), u)
  {
    hide Inv, Next, Enabled, Tidy, Stamped, OneHolder, Posted, Behind, Stream;
    if TakesId(a) {
      FreshStream(c.w, a);
      BehindIsStreamed(Next(c.w, a));
    } else if PhaseOf(After(c, t, a), u).Tested? {
      TestedStep(c, t, a, u);
    } else if PhaseOf(After(c, t, a), u).Holding? {
      HolderStep(c, t, a, u);
    }
  }

  /** One sender's high-priority packages stay in order: what it writes directly goes ahead of
      other senders' packages only. */
  lemma SenderStep(c: Crowd, t: nat, a: Action, u: nat)
    requires CrowdInv(c) && May(c, t, a) && After(c, t, a).w.uncounted == 0
    ensures Tidy(Next(c.w, a), HighOf(After(c, t, a).senders, u)) && Stamped(Next(c.w, a))
  {
    hide Inv, Next, Enabled, Tidy, OneHolder, Posted, Behind, Stream, Stamps, SentBy, GoesFirst;
    var f, f' := HighOf(c.senders, u), HighOf(After(c, t, a).senders, u);
    if TakesId(a) {
      FreshStream(c.w, a);
      TidyNone(Next(c.w, a), f');
    } else {
      PostedGrows(c.w, a);
      forall p | p in Stream(c.w)
        ensures f(p) == f'(p)
      {
        SendersStay(c, t, a, u, p);
      }
      SameTidy(c.w, f, f');
      if a.Pass? { SenderGoesFirst(c, t, a, u); }
      TidyStep(c.w, a, f', false);
    }
  }

  lemma SameTidy(w: World, f: Package -> bool, f': Package -> bool)
    requires Tidy(w, f) && forall p :: p in Stream(w) ==> f(p) == f'(p)
    ensures Tidy(w, f')
  {
    hide Stream, Filter, Increasing;
    FilterAgree(Stream(w), f, f');
  }

  lemma SenderGoesFirst(c: Crowd, t: nat, a: Action, u: nat)
    requires CrowdInv(c) && May(c, t, a) && a.Pass? && c.w.uncounted == 0
    ensures GoesFirst(c.w, a.data, HighOf(After(c, t, a).senders, u))
  {
    hide Inv, Next, Enabled, Tidy, OneHolder, Posted, Behind, Stream, SentBy, After;
    NewSender(c, t, a, u, Package(c.w.clock, false, a.data));
    if u == t {
      assert Cleared(c, t);
      BehindIsStreamed(c.w);
      forall q | q in Behind(c.w)
        ensures !HighOf(After(c, t, a).senders, u)(q)
      {
        SendersStay(c, t, a, u, q);
      }
    }
  }

  function Nobody(): Package -> bool { (p: Package) => false }

  lemma {:induction false} NobodyIsTidy(ps: seq<Package>)
    ensures Filter(ps, Nobody()) == []
  {
    FilterNone(ps, Nobody());
  }

  lemma StampedStep(w: World, a: Action)
    requires Step(w, a) && Stamped(w)
    ensures Stamped(Next(w, a))
  {
    hide Inv, Next, Enabled, Stream, Filter, Behind;
    NobodyIsTidy(Stream(w));
    TidyStep(w, a, Nobody(), false);
  }

  lemma ClockStep(w: World, a: Action)
    requires Enabled(w, a)
    ensures Next(w, a).clock == if TakesId(a) then 0 else if Stamps(w, a) then w.clock + 1 else w.clock
  {
    hide HandleResult, EventResult, RequestClosing, EventClosing, Drops, DirectEmit, AllLow;
  }

  lemma CrowdStep(c: Crowd, t: nat, a: Action)
    requires CrowdInv(c) && May(c, t, a)
    ensures CrowdInv(After(c, t, a))
  {
    hide Inv, Next, Enabled, Cleared, Tidy, Stamped, OneHolder, Stamps;
    var c' := After(c, t, a);
    StepKeepsInv(c.w, a);
    StampedStep(c.w, a);
    ClockStep(c.w, a);
    OneHolderStep(c, t, a);
    if c'.w.uncounted == 0 {
      forall u: nat
        ensures Cleared(c', u)
      {
        ClearedStep(c, t, a, u);
      }
      forall u {:trigger HighOf(c'.senders, u)}
        ensures Tidy(c'.w, HighOf(c'.senders, u))
      {
        SenderStep(c, t, a, u);
      }
    }
  }

  lemma CrowdStart()
    ensures CrowdInv(Crowd(Start(), map[], []))
  {
    var c := Crowd(Start(), map[], []);
    StartIsEmpty();
    hide Inv, Stream;
    EveryStateOfARun([Start()], [], 0);
    forall u {:trigger HighOf(c.senders, u)}
      ensures Tidy(c.w, HighOf(c.senders, u)) && Stamped(c.w)
    {
      TidyNone(c.w, HighOf(c.senders, u));
    }
    TidyNone(c.w, Nobody());
  }

  lemma {:induction false} EveryCrowd(cs: seq<Crowd>, calls: seq<Call>, i: nat)
    requires CrowdRun(cs, calls) && i < |cs|
    ensures CrowdInv(cs[i])
  {
    hide CrowdInv, May, After;
    if i == 0 {
      CrowdStart();
    } else {
      EveryCrowd(cs, calls, i - 1);
      var call := calls[i - 1];
      assert May(cs[i - 1], call.thread, call.step) && cs[i - 1 + 1] == After(cs[i - 1], call.thread, call.step);
      CrowdStep(cs[i - 1], call.thread, call.step);
    }
  }

  /** In every run without early sends, the high-priority packages that one thread sends reach the
      wire in the order it sent them, whatever the other threads do and whatever is overtaken. */
  lemma SenderKeepsOrder(cs: seq<Crowd>, calls: seq<Call>, i: nat, t: nat, j: nat, k: nat)
    requires CrowdRun(cs, calls) && i < |cs| && NoEarlySends(Worlds(cs), Steps(calls), i)
    requires j < k < |cs[i].w.sock.chan.done|
    requires var p, q := cs[i].w.sock.chan.done[j], cs[i].w.sock.chan.done[k];
             !p.low && !q.low && SentBy(cs[i].senders, t, p) && SentBy(cs[i].senders, t, q)
    ensures cs[i].w.sock.chan.done[j].stamp < cs[i].w.sock.chan.done[k].stamp
  {
    hide CrowdRun, NoEarlySends, Run, Inv, OneHolder, Cleared, Stamped, Tidy, SentBy, Aborts;
    EveryCrowd(cs, calls, i);
    CrowdRunIsRun(cs, calls);
    assert Worlds(cs)[i] == cs[i].w;
    NoAbortWithoutEarlySends(Worlds(cs), Steps(calls), i);
    TidyOnTheWire(cs[i].w, HighOf(cs[i].senders, t), j, k);
  }
}
