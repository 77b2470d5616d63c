/** What a step does to the order of some of the packages in the stream, and what follows for
    those of low priority in every run. */
module SocketTidy {
  import opened Basics
  import opened Seqs
  import opened SocketSlot
  import opened SocketServer
  import opened SocketInvariants
  import opened SocketSteps
  import opened SocketOrder
  import opened SocketTheorems

  // ---------------------------------------------------------------- a part of the stream over one step

  /** Every package of the stream was accepted. */
  predicate Stamped(w: World) { forall p :: p in Stream(w) ==> p.stamp < w.clock }

  /** Packages that f picks, all of one priority, are in order in the stream. */
  predicate Tidy(w: World, f: Package -> bool) { Increasing(Filter(Stream(w), f)) }

  ghost predicate OnePriority(f: Package -> bool, low: bool) { forall p: Package :: f(p) ==> p.low == low }

  lemma FilterCut(a: seq<Package>, b: seq<Package>, c: seq<Package>, f: Package -> bool)
    requires Increasing(Filter(a + b + c, f))
    ensures Increasing(Filter(a + c, f))
  {
    hide Filter, Increasing;
    FilterAppend(a + b, c, f);
    FilterAppend(a, b, f);
    FilterAppend(a, c, f);
    IncreasingCut(Filter(a, f), Filter(b, f), Filter(c, f));
  }

  lemma FilterEnds(ps: seq<Package>, p: Package, clock: nat, f: Package -> bool)
    requires Increasing(Filter(ps, f)) && p.stamp == clock && forall q :: q in ps ==> q.stamp < clock
    ensures Increasing(Filter(ps + [p], f))
  {
    FilterSnoc(ps, p, f);
    FilterMember(ps, f);
    hide Filter;
  }

  lemma TidyShrinks(w: World, w': World, f: Package -> bool)
    requires Shrinks(w, w') && Tidy(w, f) && Stamped(w)
    ensures Tidy(w', f) && Stamped(w')
  {
    var q, q', ps := Queue(w.sock, w.lock), Queue(w'.sock, w'.lock), Posted(w.pipe, w.sock.id);
    hide Queue, Posted, Filter, Increasing;
    assert q == q' + q[|q'|..];
    FilterCut(q', q[|q'|..], ps, f);
  }

  lemma TidyAccept(w: World, a: Action, f: Package -> bool, low: bool)
    requires Step(w, a) && a.Handle? && w.pipe[0].ReqSend?
    requires w.pipe[0].id == w.sock.id && !Refuses(w.sock, w.sock.id)
    requires Tidy(w, f) && Stamped(w) && OnePriority(f, low)
    ensures Tidy(Next(w, a), f) && Stamped(Next(w, a))
  {
    hide Inv, Stream, Next, Refuses, Front, Packages, Posted, Filter, Increasing, Holds;
    var p, rest := w.pipe[0].pkg, Posted(w.pipe[1..], w.sock.id);
    var front, lows := Front(w.sock, w.lock), Packages(w.sock.low);
    StreamOfAccept(w, a);
    AcceptFacts(w, a);
    if !p.low {
      PassFilter(front, lows, p, rest, f);
      assert forall q :: q in front + [p] + lows + rest ==> q in front + lows + ([p] + rest);
    }
  }

  lemma TidyRefusal(w: World, a: Action, f: Package -> bool)
    requires Step(w, a) && a.Handle? && w.pipe[0].ReqSend?
    requires w.pipe[0].id != w.sock.id || Refuses(w.sock, w.sock.id)
    requires Tidy(w, f) && Stamped(w)
    ensures Tidy(Next(w, a), f) && Stamped(Next(w, a))
  {
    hide Inv, Queue, Posted, Next, Enabled, Refuses, Stream, Filter, Increasing;
    HandleHasRequest(w, a);
    var queue, rest := Queue(w.sock, w.lock), Posted(w.pipe[1..], w.sock.id);
    var first := PostedBy(w.pipe[0], w.sock.id);
    RefusalFacts(w, a);
    Assoc(queue, first, rest);
    FilterCut(queue, first, rest, f);
    assert forall q :: q in queue + rest ==> q in queue + first + rest;
  }

  lemma TidyPosting(w: World, a: Action, f: Package -> bool)
    requires Step(w, a) && Posting(w, a).Some? && Tidy(w, f) && Stamped(w)
    ensures Tidy(Next(w, a), f) && Stamped(Next(w, a))
  {
    hide Inv, Next, Enabled, Stream, Posting, PostedBy, Filter, Increasing;
    var q := Posting(w, a).value;
    PostingFacts(w, a);
    if PostedBy(q, w.sock.id) != [] {
      FilterEnds(Stream(w), q.pkg, w.clock, f);
    } else {
      assert Stream(w) + [] == Stream(w);
    }
  }

  /** What is queued or posted behind a worker that holds the lock. */
  function Behind(w: World): seq<Package> {
    Packages(w.sock.high) + Packages(w.sock.low) + Posted(w.pipe, w.sock.id)
  }

  /** A direct write keeps what f picks in order if f does not pick it, or nothing behind it. */
  predicate GoesFirst(w: World, data: seq<byte>, f: Package -> bool) {
    f(Package(w.clock, false, data)) ==> forall q :: q in Behind(w) ==> !f(q)
  }

  lemma PassStreams(w: World, a: Action)
    requires Step(w, a) && a.Pass?
    ensures
      var p := Package(w.clock, false, a.data);
      && Stream(w) == w.sock.chan.done + Behind(w)
      && Stream(Next(w, a)) == w.sock.chan.done + [p] + Behind(w)
      && Next(w, a).clock == w.clock + 1
  {
    hide Inv, Queue, Packages, Posted, Next, Enabled, AllLow;
    PassFacts(w, a);
    var done, queued := w.sock.chan.done, Packages(w.sock.high) + Packages(w.sock.low);
    Assoc(done, queued, Posted(w.pipe, w.sock.id));
    Assoc(done + [Package(w.clock, false, a.data)], queued, Posted(w.pipe, w.sock.id));
  }

  lemma TidyPass(w: World, a: Action, f: Package -> bool)
    requires Step(w, a) && a.Pass? && Tidy(w, f) && Stamped(w) && GoesFirst(w, a.data, f)
    ensures Tidy(Next(w, a), f) && Stamped(Next(w, a))
  {
    hide Inv, Stream, Next, Enabled, Behind, Filter, Increasing;
    var p, done, rest := Package(w.clock, false, a.data), w.sock.chan.done, Behind(w);
    PassStreams(w, a);
    assert forall q :: q in done + [p] + rest ==> q in done + rest || q == p;
    DirectTidy(done, rest, p, w.clock, f);
  }

  lemma DirectTidy(done: seq<Package>, rest: seq<Package>, p: Package, clock: nat, f: Package -> bool)
    requires Increasing(Filter(done + rest, f)) && p.stamp == clock
    requires forall q :: q in done + rest ==> q.stamp < clock
    requires f(p) ==> forall q :: q in rest ==> !f(q)
    ensures Increasing(Filter(done + [p] + rest, f))
  {
    hide Filter, Increasing;
    FilterAppend(done, rest, f);
    FilterAppend(done + [p], rest, f);
    FilterAppend(done, [p], f);
    if f(p) {
      FilterNone(rest, f);
      assert Filter(done, f) + [] == Filter(done, f);
      assert Filter(done + [p], f) + [] == Filter(done + [p], f);
      assert forall q :: q in done ==> q in done + rest;
      FilterEnds(done, p, clock, f);
    } else {
      FilterNone([p], f);
      assert Filter(done, f) + [] == Filter(done, f);
    }
  }

  lemma TidySame(w: World, w': World, f: Package -> bool)
    requires Stream(w') == Stream(w) && w'.clock == w.clock && Tidy(w, f) && Stamped(w)
    ensures Tidy(w', f) && Stamped(w')
  {
  }

  lemma LockStream(w: World, a: Action)
    requires Step(w, a) && ((ByLock(a) && !a.Pass?) || a.CountSend? || a.Test?)
    ensures Stream(Next(w, a)) == Stream(w) && Next(w, a).clock == w.clock
  {
    hide Inv, Next, Enabled, Queue, Posted, AfterLock;
    if a.CountSend? {
      CountFrame(w, a);
      SameQueue(w.sock, Next(w, a).sock, w.lock);
      CountClock(w, a);
    } else if a.Test? {
      TestFrame(w, a);
    } else {
      LockKeepsQueue(w, a);
    }
  }

  lemma CountClock(w: World, a: Action)
    requires Enabled(w, a) && a.CountSend?
    ensures Next(w, a).clock == w.clock && Next(w, a).pipe == w.pipe && Next(w, a).lock == w.lock
    ensures Next(w, a).uncounted >= w.uncounted
  {
    hide Enabled, Next;
    CountFrame(w, a);
  }

  /** Whatever f picks of one priority stays in order over a step, if a direct write keeps it so. */
  lemma TidyStep(w: World, a: Action, f: Package -> bool, low: bool)
    requires Step(w, a) && Tidy(w, f) && Stamped(w) && OnePriority(f, low)
    requires a.Pass? ==> GoesFirst(w, a.data, f)
    ensures Tidy(Next(w, a), f) && Stamped(Next(w, a))
  {
    hide Inv, Next, Enabled, Tidy, Stamped, Shrinks, GoesFirst, OnePriority, Stream, Refuses;
    if IsEvent(a) {
      EventShrinks(w, a);
      TidyShrinks(w, Next(w, a), f);
    } else if a.FinishClose? {
      FinishShrinks(w);
      TidyShrinks(w, Next(w, a), f);
    } else if a.Handle? {
      HandleHasRequest(w, a);
      if !w.pipe[0].ReqSend? {
        RequestShrinks(w, a);
        TidyShrinks(w, Next(w, a), f);
      } else if w.pipe[0].id == w.sock.id && !Refuses(w.sock, w.sock.id) {
        TidyAccept(w, a, f, low);
      } else {
        TidyRefusal(w, a, f);
      }
    } else if a.Pass? {
      TidyPass(w, a, f);
    } else if TakesId(a) {
      FreshStream(w, a);
      TidyNone(Next(w, a), f);
    } else if ByLock(a) || a.CountSend? || a.Test? {
      LockStream(w, a);
      TidySame(w, Next(w, a), f);
    } else {
      PostsSomething(w, a);
      TidyPosting(w, a, f);
    }
  }

  lemma TidyNone(w: World, f: Package -> bool)
    requires Stream(w) == []
    ensures Tidy(w, f) && Stamped(w)
  {
  }

  // ---------------------------------------------------------------- low-priority packages

  lemma {:induction false} LowIsTidy(ws: seq<World>, acts: seq<Action>, i: nat)
    requires Run(ws, acts) && i < |ws|
    ensures Tidy(ws[i], OfPriority(true)) && Stamped(ws[i])
  {
    hide Inv, Next, Enabled, Tidy, Stamped;
    if i == 0 {
      StartStream();
      StartIsEmpty();
      TidyNone(Start(), OfPriority(true));
    } else {
      LowIsTidy(ws, acts, i - 1);
      StepOfRun(ws, acts, i - 1);
      TidyStep(ws[i - 1], acts[i - 1], OfPriority(true), true);
    }
  }

  lemma StartIsEmpty()
    ensures Stream(Start()) == []
  {
    assert Packages([]) == [] && Posted([], 0) == [];
  }

  /** In every run, whatever is overtaken or uncounted, low-priority packages reach the wire in
      the order the slot accepted them. */
  lemma LowKeepsOrder(ws: seq<World>, acts: seq<Action>, i: nat, j: nat, k: nat)
    requires Run(ws, acts) && i < |ws| && j < k < |ws[i].sock.chan.done|
    requires ws[i].sock.chan.done[j].low && ws[i].sock.chan.done[k].low
    ensures ws[i].sock.chan.done[j].stamp < ws[i].sock.chan.done[k].stamp
  {
    hide Run, Stream, Filter, Increasing;
    LowIsTidy(ws, acts, i);
    TidyOnTheWire(ws[i], OfPriority(true), j, k);
  }

  lemma TidyOnTheWire(w: World, f: Package -> bool, j: nat, k: nat)
    requires Tidy(w, f) && j < k < |w.sock.chan.done| && f(w.sock.chan.done[j]) && f(w.sock.chan.done[k])
    ensures w.sock.chan.done[j].stamp < w.sock.chan.done[k].stamp
  {
    hide Stream, Filter, Increasing;
    WrittenLeadsTheStream(w);
    PrefixInOrder(Stream(w), w.sock.chan.done, f);
    FilterIncreasing(w.sock.chan.done, f, j, k);
  }
}
