/** What the invariant of the scheduler means for queues, messages and contexts. */
module SchedulerTheorems {
  import opened Basics
  import opened Counting
  import opened Scheduler
  import opened SchedulerInvariant

  ghost predicate Reachable(w: World) {
    exists n: nat, acts: seq<Act> {:trigger Run(Start(n), acts)} :: Possible(Start(n), acts) && w == Run(Start(n), acts)
  }

  lemma ReachableIsInv(w: World)
    requires Reachable(w)
    ensures Inv(w)
  {
    hide Inv, Enabled, Next, Run, Possible, Start;
    var n: nat, acts: seq<Act> :| Possible(Start(n), acts) && w == Run(Start(n), acts);
    StartIsInv(n);
    EveryRun(Start(n), acts);
  }

  // ---------------------------------------------------------------- ownership

  /** Thread t has the right to dispatch q. */
  predicate Has(w: World, t: nat, q: Id)
    requires t < |w.threads|
  {
    w.threads[t].owned == Some(q) || (w.threads[t].stage.Swapping? && w.threads[t].stage.next == q)
  }

  ghost predicate Nowhere(w: World, q: Id) {
    && q !in w.global
    && forall t :: 0 <= t < |w.threads| ==> !Has(w, t, q)
  }

  ghost predicate ListedOnce(w: World, q: Id) {
    && (exists i :: 0 <= i < |w.global| && w.global[i] == q &&
          forall j :: 0 <= j < |w.global| && w.global[j] == q ==> j == i)
    && forall t :: 0 <= t < |w.threads| ==> !Has(w, t, q)
  }

  ghost predicate HeldByOne(w: World, q: Id) {
    && q !in w.global
    && (exists t: nat :: t < |w.threads| && Has(w, t, q) && forall u: nat :: u < |w.threads| && Has(w, u, q) ==> u == t)
  }

  lemma NoTokens(w: World, q: Id)
    requires Tokens(w, q) == 0
    ensures Nowhere(w, q)
  {
    forall t | 0 <= t < |w.threads|
      ensures !Has(w, t, q)
    {
      TotalAtLeast(w.threads, Owns(q), t, t);
    }
    forall i | 0 <= i < |w.global|
      ensures w.global[i] != q
    {
      TotalAtLeast(w.global, Is(q), i, i);
    }
  }

  lemma OneToken(w: World, q: Id)
    requires Tokens(w, q) == 1
    ensures (ListedOnce(w, q) && !HeldByOne(w, q)) || (HeldByOne(w, q) && !ListedOnce(w, q))
  {
    hide Total;
    if Total(w.global, Is(q)) > 0 {
      var i := TotalWitness(w.global, Is(q));
      forall j | 0 <= j < |w.global| && w.global[j] == q
        ensures j == i
      {
        TotalAtLeast(w.global, Is(q), if i < j then i else j, if i < j then j else i);
      }
      forall t | 0 <= t < |w.threads|
        ensures !Has(w, t, q)
      {
        TotalAtLeast(w.threads, Owns(q), t, t);
      }
    } else {
      var t := TotalWitness(w.threads, Owns(q));
      forall u: nat | u < |w.threads| && Has(w, u, q)
        ensures u == t
      {
        TotalAtLeast(w.threads, Owns(q), if t < u then t else u, if t < u then u else t);
      }
      assert Has(w, t, q);
      forall i | 0 <= i < |w.global|
        ensures w.global[i] != q
      {
        TotalAtLeast(w.global, Is(q), i, i);
      }
    }
  }

  /** In every run a live queue is exactly one of: listed once, held by one thread, or idle
      and empty. A deleted queue is nowhere. */
  lemma OneOwner(w: World, q: Id)
    requires Reachable(w) && q < |w.queues|
    ensures
      var x := w.queues[q];
      && (x.deleted ==> Nowhere(w, q))
      && (!x.deleted && (x.inGlobal || x.release) ==> ListedOnce(w, q) != HeldByOne(w, q))
      && (!x.inGlobal && !x.release ==> Nowhere(w, q) && x.messages == [])
  {
    hide Reachable, Nowhere, ListedOnce, HeldByOne, Tokens, Holders, Markers;
    ReachableIsInv(w);
    assert QueueOk(w.queues[q], Tokens(w, q), Holders(w, q), Markers(w, q));
    if Tokens(w, q) == 1 {
      OneToken(w, q);
    } else {
      NoTokens(w, q);
    }
  }

  /** The messages of one service are never dispatched by two threads at once. */
  lemma OneDispatcher(w: World, t: nat, u: nat)
    requires Reachable(w) && t < |w.threads| && u < |w.threads| && t != u
    requires w.threads[t].owned.Some?
    ensures w.threads[t].owned != w.threads[u].owned
  {
    hide Reachable, Tokens, Holders, Markers;
    ReachableIsInv(w);
    var q := w.threads[t].owned.value;
    assert ThreadOk(w.threads[t], w.queues);
    assert QueueOk(w.queues[q], Tokens(w, q), Holders(w, q), Markers(w, q));
    BothCount(w, if t < u then t else u, if t < u then u else t, q);
  }

  lemma BothCount(w: World, t: nat, u: nat, q: Id)
    requires t < u < |w.threads|
    ensures Tokens(w, q) >= Owns(q)(w.threads[t]) + Owns(q)(w.threads[u])
  {
    TotalAtLeast(w.threads, Owns(q), t, u);
  }

  /** Listing a queue finds it unlisted: the null-link assertion of the global list holds at
      every push, and no reference to a deleted queue is left to push with. */
  lemma NeverListedTwice(w: World, t: nat, s: Step)
    requires Reachable(w) && Enabled(w, t, s)
    ensures
      var w' := Next(w, t, s);
      |w'.global| > |w.global| ==>
        var q := w'.global[|w.global|];
        w'.global == w.global + [q] && q < |w.queues| && q !in w.global && !w.queues[q].deleted
  {
    hide Reachable, Tokens, Holders, Markers, Total, Delivered, Dropped, TurnLength;
    ReachableIsInv(w);
    var w' := Next(w, t, s);
    if |w'.global| > |w.global| {
      var q := w'.global[|w.global|];
      ListedQueueIsUnlisted(w, t, s, q);
    }
  }

  lemma ListedQueueIsUnlisted(w: World, t: nat, s: Step, q: Id)
    requires Inv(w) && Enabled(w, t, s)
    requires Next(w, t, s).global == w.global + [q]
    ensures q < |w.queues| && q !in w.global && !w.queues[q].deleted
  {
    hide Tokens, Holders, Markers, Total, Delivered, Dropped, TurnLength;
    var th := w.threads[t];
    assert ThreadOk(th, w.queues);
    assert (w.global + [q])[|w.global|] == q;
    assert q < |w.queues|;
    assert QueueOk(w.queues[q], Tokens(w, q), Holders(w, q), Markers(w, q));
    ThreadCounts(w, t, q);
    if s.PushMessage? || s.Mark? {
      assert Tokens(w, q) == 0;
      NoTokens(w, q);
    } else {
      assert th.owned == Some(q);
      if q in w.global {
        var i :| 0 <= i < |w.global| && w.global[i] == q;
        ListedAndOwned(w, t, i, q);
      }
    }
  }

  lemma ListedAndOwned(w: World, t: nat, i: nat, q: Id)
    requires t < |w.threads| && i < |w.global| && w.global[i] == q && w.threads[t].owned == Some(q)
    ensures Tokens(w, q) >= 2
  {
    TotalAtLeast(w.threads, Owns(q), t, t);
    TotalAtLeast(w.global, Is(q), i, i);
  }

  // ---------------------------------------------------------------- messages

  /** Every message pushed is delivered, dropped or waiting, in the order of pushing, and
      messages are dropped only after the last reference to the context is gone. */
  lemma MessagesAreKeptInOrder(w: World, q: Id)
    requires Reachable(w) && q < |w.queues|
    ensures
      var x := w.queues[q];
      && x.pushed == x.delivered + x.dropped + x.messages
      && (x.dropped != [] ==> x.refs == 0 && !x.registered)
      && (x.deleted ==> x.messages == [])
  {
    hide Reachable, Tokens, Holders, Markers;
    ReachableIsInv(w);
    assert QueueOk(w.queues[q], Tokens(w, q), Holders(w, q), Markers(w, q));
  }

  /** A waiting message is in a queue that is listed or held, so a worker comes to it. */
  lemma NoMessageIsStranded(w: World, q: Id)
    requires Reachable(w) && q < |w.queues| && w.queues[q].messages != []
    ensures !w.queues[q].deleted && (ListedOnce(w, q) || HeldByOne(w, q))
  {
    hide Reachable, Nowhere, ListedOnce, HeldByOne, Tokens, Holders, Markers;
    OneOwner(w, q);
    ReachableIsInv(w);
    assert QueueOk(w.queues[q], Tokens(w, q), Holders(w, q), Markers(w, q));
  }

  // ---------------------------------------------------------------- contexts

  /** The reference count is the table's reference plus those of the threads, a thread never
      touches a deleted queue, and a queue about to be marked is not marked yet. */
  lemma ReferencesAreCounted(w: World, q: Id)
    requires Reachable(w) && q < |w.queues|
    ensures
      var x := w.queues[q];
      && x.refs == Holders(w, q) + (if x.registered then 1 else 0)
      && (x.deleted ==> x.refs == 0 && !x.registered && Markers(w, q) == 0)
      && (Markers(w, q) > 0 ==> Markers(w, q) == 1 && !x.release && x.refs == 0)
  {
    hide Reachable, Tokens, Holders, Markers;
    ReachableIsInv(w);
    assert QueueOk(w.queues[q], Tokens(w, q), Holders(w, q), Markers(w, q));
  }

  /** Whatever its stage, a thread in a reachable state can go on: reference counts do not
      underflow and the queues it works on exist and are not deleted. */
  lemma ThreadsGoOn(w: World, t: nat)
    requires Reachable(w) && t < |w.threads| && !w.threads[t].stage.Free?
    ensures exists s :: Enabled(w, t, s)
    ensures forall q :: Some(q) in [w.threads[t].owned, w.threads[t].refd] ==> q < |w.queues| && !w.queues[q].deleted
  {
    hide Reachable, Tokens, Holders, Markers;
    ReachableIsInv(w);
    var th := w.threads[t];
    assert ThreadOk(th, w.queues);
    forall q | Some(q) in [th.owned, th.refd]
      ensures q < |w.queues| && !w.queues[q].deleted && (th.refd == Some(q) ==> w.queues[q].refs > 0)
    {
      assert th.owned == Some(q) || th.refd == Some(q);
      assert QueueOk(w.queues[q], Tokens(w, q), Holders(w, q), Markers(w, q));
      ThreadCounts(w, t, q);
    }
    if th.refd.Some? {
      assert Some(th.refd.value) in [th.owned, th.refd];
    }
    assert Enabled(w, t, StepOf(w, th));
  }

  /** The step the code of a stage takes. */
  function StepOf(w: World, th: Thread): Step
    requires Fits(th, |w.queues|)
  {
    match th.stage
    case Free => Create
    case Sending => EndSend
    case Launching => LaunchOk
    case Publishing => Publish
    case Failing => FailRetire
    case Holding => Grab
    case Running(i, n) => if i < n then PopMessage(-1) else Rotate
    case Swapping(_) => PushBack
    case Dropping(_) => Drop
    case Marking(_, _) => Mark
    case Disposing => Dispose
    case Draining => if w.queues[th.owned.value].messages == [] then Delete else DropMessage
  }

  // ---------------------------------------------------------------- Pop as written

  /** The dispatch step with Pop as written. A queue with messages hands out its front and
      keeps it; the loop reads the message as "empty" and drops its reference and its ownership,
      clearing nothing. An empty queue clears its flag; the pointer it returns is never set, and
      whatever it is other than null sends the loop the same way. */
  function PopAsWritten(w: World, t: nat): World
    requires t < |w.threads| && Fits(w.threads[t], |w.queues|) && w.threads[t].stage.Running?
  {
    var q := w.threads[t].owned.value;
    var x := w.queues[q];
    Put(w, t, Thread(None, w.threads[t].refd, Dropping(Free)), q,
        if x.messages == [] then x.(inGlobal := false) else x, w.global)
  }

  /** A queue that is flagged as listed but neither listed, owned nor marked. */
  predicate Lost(w: World, q: Id) {
    && q < |w.queues| && w.queues[q].inGlobal && !w.queues[q].deleted
    && Tokens(w, q) == 0
  }

  /** As written a turn loses its queue exactly when there is a message to deliver. */
  lemma PopAsWrittenLosesIff(w: World, t: nat)
    requires Inv(w) && t < |w.threads| && w.threads[t].stage.Running?
    ensures Fits(w.threads[t], |w.queues|)
    ensures
      var q := w.threads[t].owned.value;
      && (Lost(PopAsWritten(w, t), q) <==> w.queues[q].messages != [])
      && PopAsWritten(w, t).queues[q].messages == w.queues[q].messages
      && PopAsWritten(w, t).queues[q].delivered == w.queues[q].delivered
  {
    var th := w.threads[t];
    assert ThreadOk(th, w.queues);
    var q := th.owned.value;
    assert QueueOk(w.queues[q], Tokens(w, q), Holders(w, q), Markers(w, q));
    TotalUpdate(w.threads, t, Thread(None, th.refd, Dropping(Free)), Owns(q));
    ThreadCounts(w, t, q);
    RefdIsNotReleased(w, t, q);
  }

  lemma RefdIsNotReleased(w: World, t: nat, q: Id)
    requires Inv(w) && t < |w.threads| && q < |w.queues| && w.threads[t].refd == Some(q)
    ensures !w.queues[q].release && !w.queues[q].deleted
  {
    assert QueueOk(w.queues[q], Tokens(w, q), Holders(w, q), Markers(w, q));
    ThreadCounts(w, t, q);
  }

  /** A lost queue stays lost whatever the threads do: no push lists it, so no worker finds
      its messages and none is delivered. */
  lemma LostStaysLost(w: World, t: nat, s: Step, q: Id)
    requires Lost(w, q) && Enabled(w, t, s)
    ensures Lost(Next(w, t, s), q) && Next(w, t, s).queues[q].delivered == w.queues[q].delivered
  {
    hide Total, Tokens, TurnLength;
    var th, w' := w.threads[t], Next(w, t, s);
    NoTokens(w, q);
    LostTokens(w, t, s, q);
    assert th.owned != Some(q) by { assert !Has(w, t, q); }
  }

  lemma LostTokens(w: World, t: nat, s: Step, q: Id)
    requires Lost(w, q) && Enabled(w, t, s)
    ensures Tokens(Next(w, t, s), q) == 0
  {
    hide Total, TurnLength;
    var th, w' := w.threads[t], Next(w, t, s);
    NoTokens(w, q);
    assert !Has(w, t, q);
    var th' := w'.threads[t];
    TotalUpdate(w.threads, t, th', Owns(q));
    ThreadCounts(w, t, q);
    assert w'.threads == w.threads[t := th'];
    assert Owns(q)(th') == 0;
    LostList(w, t, s, q);
  }

  lemma LostList(w: World, t: nat, s: Step, q: Id)
    requires Lost(w, q) && Enabled(w, t, s)
    ensures Total(Next(w, t, s).global, Is(q)) == 0
  {
    hide Total, TurnLength;
    NoTokens(w, q);
    assert !Has(w, t, q);
    var g, g' := w.global, Next(w, t, s).global;
    assert Total(g, Is(q)) == 0;
    assert forall i :: 0 <= i < |g'| ==> g'[i] != q;
    TotalZero(g', Is(q));
  }

  // ---------------------------------------------------------------- runs as written

  /** Every step of every thread as the code takes it: each pop is one as written. */
  function NextAsWritten(w: World, t: nat, s: Step): World
    requires Enabled(w, t, s)
  {
    if s.PopMessage? then PopAsWritten(w, t) else Next(w, t, s)
  }

  ghost predicate PossibleAsWritten(w: World, acts: seq<Act>)
    decreases |acts|
  {
    |acts| > 0 ==>
      && Enabled(w, acts[0].thread, acts[0].step)
      && PossibleAsWritten(NextAsWritten(w, acts[0].thread, acts[0].step), acts[1..])
  }

  ghost function RunAsWritten(w: World, acts: seq<Act>): World
    requires PossibleAsWritten(w, acts)
    decreases |acts|
  {
    if |acts| == 0 then w else RunAsWritten(NextAsWritten(w, acts[0].thread, acts[0].step), acts[1..])
  }

  /** A turn on another queue leaves a lost one lost, and nobody has a turn on the lost one. */
  lemma LostInAnotherTurn(w: World, t: nat, q: Id)
    requires Lost(w, q) && t < |w.threads| && Fits(w.threads[t], |w.queues|) && w.threads[t].stage.Running?
    ensures w.threads[t].owned != Some(q)
    ensures Lost(PopAsWritten(w, t), q) && PopAsWritten(w, t).queues[q] == w.queues[q]
  {
    hide Total;
    NoTokens(w, q);
    assert !Has(w, t, q);
    TotalUpdate(w.threads, t, Thread(None, w.threads[t].refd, Dropping(Free)), Owns(q));
    ThreadCounts(w, t, q);
  }

  /** A queue lost to a turn as written is lost for good: no run of the code lists it again or
      delivers from it. */
  lemma {:induction false} LostForGood(w: World, acts: seq<Act>, q: Id)
    requires Lost(w, q) && PossibleAsWritten(w, acts)
    ensures Lost(RunAsWritten(w, acts), q) && RunAsWritten(w, acts).queues[q].delivered == w.queues[q].delivered
    decreases |acts|
  {
    hide Enabled, Next, PopAsWritten, Tokens;
    if |acts| > 0 {
      var t, s := acts[0].thread, acts[0].step;
      if s.PopMessage? {
        assert Fits(w.threads[t], |w.queues|) && w.threads[t].stage.Running? by { PopsRun(w, t, s); }
        LostInAnotherTurn(w, t, q);
      } else {
        LostStaysLost(w, t, s, q);
      }
      LostForGood(NextAsWritten(w, t, s), acts[1..], q);
    }
  }

  lemma PopsRun(w: World, t: nat, s: Step)
    requires Enabled(w, t, s) && s.PopMessage?
    ensures t < |w.threads| && Fits(w.threads[t], |w.queues|) && w.threads[t].stage.Running?
  {
  }

  predicate Silent(w: World) { forall q :: 0 <= q < |w.queues| ==> w.queues[q].delivered == [] }

  /** As written no run delivers any message at all. */
  lemma {:induction false} NothingIsDeliveredAsWritten(w: World, acts: seq<Act>)
    requires PossibleAsWritten(w, acts) && Silent(w)
    ensures Silent(RunAsWritten(w, acts))
    decreases |acts|
  {
    hide Enabled, NextAsWritten, Silent;
    if |acts| > 0 {
      StaysSilent(w, acts[0].thread, acts[0].step);
      NothingIsDeliveredAsWritten(NextAsWritten(w, acts[0].thread, acts[0].step), acts[1..]);
    }
  }

  lemma StaysSilent(w: World, t: nat, s: Step)
    requires Enabled(w, t, s) && Silent(w)
    ensures Silent(NextAsWritten(w, t, s))
  {
    hide TurnLength;
  }

  // ---------------------------------------------------------------- a turn with a message waiting

  lemma ReachNext(w: World, t: nat, s: Step)
    requires Reachable(w) && Enabled(w, t, s)
    ensures Reachable(Next(w, t, s))
  {
    hide Enabled, Next, Start;
    var n: nat, acts: seq<Act> :| Possible(Start(n), acts) && w == Run(Start(n), acts);
    RunSnoc(Start(n), acts, Act(t, s));
    assert Possible(Start(n), acts + [Act(t, s)]);
  }

  lemma {:induction false} RunSnoc(w: World, acts: seq<Act>, a: Act)
    requires Possible(w, acts) && Enabled(Run(w, acts), a.thread, a.step)
    ensures Possible(w, acts + [a]) && Run(w, acts + [a]) == Next(Run(w, acts), a.thread, a.step)
    decreases |acts|
  {
    hide Enabled, Next;
    if acts == [] {
      assert acts + [a] == [a] && [a][1..] == [];
      assert Possible(Next(w, a.thread, a.step), []);
    } else {
      assert (acts + [a])[0] == acts[0] && (acts + [a])[1..] == acts[1..] + [a];
      RunSnoc(Next(w, acts[0].thread, acts[0].step), acts[1..], a);
    }
  }

  /** A world of one queue and one thread. */
  function Single(x: Queue, global: seq<Id>, th: Thread): World { World([x], global, [th]) }

  lemma SingleStep(x: Queue, global: seq<Id>, th: Thread, s: Step)
    requires Reachable(Single(x, global, th)) && Enabled(Single(x, global, th), 0, s)
    ensures Reachable(Next(Single(x, global, th), 0, s))
  {
    hide Reachable, Enabled, Next;
    ReachNext(Single(x, global, th), 0, s);
  }

  lemma CreatedIsReachable()
    ensures Reachable(Single(NEW_QUEUE, [], Thread(Some(0), Some(0), Launching)))
  {
    hide Reachable;
    StartIsReachable(1);
    ReachNext(Start(1), 0, Create);
    assert Next(Start(1), 0, Create) == Single(NEW_QUEUE, [], Thread(Some(0), Some(0), Launching));
  }

  /** A service is launched and published. */
  lemma PublishedIsReachable() returns (x: Queue)
    ensures x == NEW_QUEUE.(refs := 1) && Reachable(Single(x, [0], FREE))
  {
    hide Reachable;
    var own := Some(0);
    x := NEW_QUEUE.(refs := 1);
    CreatedIsReachable();
    SingleStep(NEW_QUEUE, [], Thread(own, own, Launching), LaunchOk);
    assert Next(Single(NEW_QUEUE, [], Thread(own, own, Launching)), 0, LaunchOk)
        == Single(NEW_QUEUE, [], Thread(own, own, Dropping(Publishing)));
    SingleStep(NEW_QUEUE, [], Thread(own, own, Dropping(Publishing)), Drop);
    assert Next(Single(NEW_QUEUE, [], Thread(own, own, Dropping(Publishing))), 0, Drop)
        == Single(x, [], Thread(own, None, Publishing));
    SingleStep(x, [], Thread(own, None, Publishing), Publish);
    assert Next(Single(x, [], Thread(own, None, Publishing)), 0, Publish) == Single(x, [0], FREE);
  }

  lemma StartIsReachable(n: nat)
    ensures Reachable(Start(n))
  {
    hide Start;
    assert Possible(Start(n), []) && Run(Start(n), []) == Start(n);
  }

  /** A message is sent to it and a worker starts a turn. */
  lemma WaitingTurnIsReachable(m: int)
    ensures
      exists w :: Reachable(w) && |w.threads| > 0 && w.threads[0].owned == Some(0) && |w.queues| > 0
                  && w.threads[0].stage.Running? && w.threads[0].stage.i < w.threads[0].stage.n
                  && w.queues[0].messages == [m] && w.queues[0].delivered == []
  {
    hide Reachable;
    var x := PublishedIsReachable();
    var y := x.(refs := 2);
    SingleStep(x, [0], FREE, GrabToSend(0));
    assert Next(Single(x, [0], FREE), 0, GrabToSend(0)) == Single(y, [0], Thread(None, Some(0), Sending));
    var z := Pushed(y, m);
    SingleStep(y, [0], Thread(None, Some(0), Sending), PushMessage(m));
    assert Next(Single(y, [0], Thread(None, Some(0), Sending)), 0, PushMessage(m))
        == Single(z, [0], Thread(None, Some(0), Sending));
    TurnAfterSend(z);
  }

  lemma TurnAfterSend(z: Queue)
    requires z.refs == 2 && z.registered && Reachable(Single(z, [0], Thread(None, Some(0), Sending)))
    ensures exists th: Thread :: th.stage.Running? && th.stage.i < th.stage.n && th.owned == Some(0)
                                 && Reachable(Single(z, [], th))
  {
    hide Reachable;
    SingleStep(z, [0], Thread(None, Some(0), Sending), EndSend);
    assert Next(Single(z, [0], Thread(None, Some(0), Sending)), 0, EndSend)
        == Single(z, [0], Thread(None, Some(0), Dropping(Free)));
    var y := z.(refs := 1);
    SingleStep(z, [0], Thread(None, Some(0), Dropping(Free)), Drop);
    assert Next(Single(z, [0], Thread(None, Some(0), Dropping(Free))), 0, Drop) == Single(y, [0], FREE);
    SingleStep(y, [0], FREE, TakeGlobal);
    assert Next(Single(y, [0], FREE), 0, TakeGlobal) == Single(y, [], Thread(Some(0), None, Holding));
    SingleStep(y, [], Thread(Some(0), None, Holding), Grab);
    assert Next(Single(y, [], Thread(Some(0), None, Holding)), 0, Grab)
        == Single(z, [], Thread(Some(0), Some(0), Running(0, 1)));
  }

  /** So a reachable turn, with Pop as written, loses a queue with a message in it. */
  lemma LossIsReachable(m: int)
    ensures
      exists w ::
        && Reachable(w) && |w.threads| > 0 && w.threads[0].stage.Running? && Fits(w.threads[0], |w.queues|)
        && Lost(PopAsWritten(w, 0), w.threads[0].owned.value)
  {
    hide Reachable, Lost, PopAsWritten, Inv;
    WaitingTurnIsReachable(m);
    var w :| Reachable(w) && |w.threads| > 0 && w.threads[0].owned == Some(0) && |w.queues| > 0
             && w.threads[0].stage.Running? && w.queues[0].messages == [m];
    ReachableIsInv(w);
    PopAsWrittenLosesIff(w, 0);
  }
}
