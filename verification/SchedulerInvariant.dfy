/** What every step of the scheduler keeps. */
module SchedulerInvariant {
  import opened Basics
  import opened Counting
  import opened Scheduler

  /** A queue that is listed or owned tokens times, whose context is referred to by holders
      threads and which markers threads are about to mark. */
  predicate QueueOk(x: Queue, tokens: int, holders: int, markers: int) {
    && tokens == (if !x.deleted && (x.inGlobal || x.release) then 1 else 0)
    && x.refs == (if x.registered then 1 else 0) + holders
    && markers + (if x.release then 1 else 0) == (if x.refs == 0 then 1 else 0)
    && (!x.inGlobal && !x.release ==> x.messages == [])
    && (x.deleted ==> x.release && x.messages == [])
    && x.pushed == x.delivered + x.dropped + x.messages
    && (x.dropped != [] ==> x.release)
  }

  predicate ThreadOk(th: Thread, queues: seq<Queue>) {
    && Fits(th, |queues|)
    && (th.stage.Draining? ==> queues[th.owned.value].release)
  }

  predicate Inv(w: World) {
    && (forall t :: 0 <= t < |w.threads| ==> ThreadOk(w.threads[t], w.queues))
    && (forall q: Id {:trigger w.queues[q]} :: q < |w.queues| ==>
          QueueOk(w.queues[q], Tokens(w, q), Holders(w, q), Markers(w, q)))
    && (forall i :: 0 <= i < |w.global| ==> w.global[i] < |w.queues|)
  }

  /** The step from before to after changes the counts of q by the given amounts and, seen from
      queue r, nothing else. */
  predicate Shifts(before: Thread, after: Thread, global: seq<Id>, global': seq<Id>,
                   q: Id, dTokens: int, dHolders: int, dMarkers: int, r: Id) {
    && Owns(r)(after) + Total(global', Is(r))
         == Owns(r)(before) + Total(global, Is(r)) + (if r == q then dTokens else 0)
    && Refers(r)(after) == Refers(r)(before) + (if r == q then dHolders else 0)
    && Marks(r)(after) == Marks(r)(before) + (if r == q then dMarkers else 0)
  }

  lemma CountsShift(w: World, t: nat, th: Thread, q: Id, x: Queue, global: seq<Id>,
                    r: Id, dTokens: int, dHolders: int, dMarkers: int)
    requires t < |w.threads| && q < |w.queues|
    requires Shifts(w.threads[t], th, w.global, global, q, dTokens, dHolders, dMarkers, r)
    ensures
      var w' := Put(w, t, th, q, x, global);
      && Tokens(w', r) == Tokens(w, r) + (if r == q then dTokens else 0)
      && Holders(w', r) == Holders(w, r) + (if r == q then dHolders else 0)
      && Markers(w', r) == Markers(w, r) + (if r == q then dMarkers else 0)
  {
    TotalUpdate(w.threads, t, th, Owns(r));
    TotalUpdate(w.threads, t, th, Refers(r));
    TotalUpdate(w.threads, t, th, Marks(r));
  }

  /** A step that changes one thread, one queue and the list keeps the invariant when the
      counts of the other queues stay and the changed queue fits its own. */
  lemma PutKeeps(w: World, t: nat, th: Thread, q: Id, x: Queue, global: seq<Id>,
                 dTokens: int, dHolders: int, dMarkers: int)
    requires Inv(w) && t < |w.threads| && q < |w.queues|
    requires forall r: Id :: Shifts(w.threads[t], th, w.global, global, q, dTokens, dHolders, dMarkers, r)
    requires QueueOk(x, Tokens(w, q) + dTokens, Holders(w, q) + dHolders, Markers(w, q) + dMarkers)
    requires ThreadOk(th, w.queues[q := x]) && (w.queues[q].release ==> x.release)
    requires forall i :: 0 <= i < |global| ==> global[i] < |w.queues|
    ensures Inv(Put(w, t, th, q, x, global))
  {
    hide QueueOk, Shifts, Tokens, Holders, Markers;
    var w' := Put(w, t, th, q, x, global);
    forall r: Id | r < |w.queues|
      ensures QueueOk(w'.queues[r], Tokens(w', r), Holders(w', r), Markers(w', r))
    {
      CountsShift(w, t, th, q, x, global, r, dTokens, dHolders, dMarkers);
      assert QueueOk(w.queues[r], Tokens(w, r), Holders(w, r), Markers(w, r));
    }
    forall u | 0 <= u < |w'.threads|
      ensures ThreadOk(w'.threads[u], w'.queues)
    {
      assert ThreadOk(w.threads[u], w.queues);
    }
  }

  lemma Listed(global: seq<Id>, q: Id, r: Id)
    ensures Total(global + [q], Is(r)) == Total(global, Is(r)) + if r == q then 1 else 0
  {
    TotalAppend(global, [q], Is(r));
  }

  lemma Unlisted(global: seq<Id>, r: Id)
    requires |global| > 0
    ensures Total(global, Is(r)) == Total(global[1..], Is(r)) + if r == global[0] then 1 else 0
  {
  }

  /** The counts of a queue a thread owns, refers to or is about to mark are positive. */
  lemma ThreadCounts(w: World, t: nat, q: Id)
    requires t < |w.threads|
    ensures Tokens(w, q) >= Owns(q)(w.threads[t])
    ensures Holders(w, q) >= Refers(q)(w.threads[t])
    ensures Markers(w, q) >= Marks(q)(w.threads[t])
  {
    TotalAtLeast(w.threads, Owns(q), t, t);
    TotalAtLeast(w.threads, Refers(q), t, t);
    TotalAtLeast(w.threads, Marks(q), t, t);
  }

  /** A step that only moves a thread on: nothing it owns, refers to or marks changes. */
  lemma StageKeeps(w: World, t: nat, th: Thread)
    requires Inv(w) && t < |w.threads|
    requires th.owned == w.threads[t].owned && th.refd == w.threads[t].refd
    requires !th.stage.Swapping? && !w.threads[t].stage.Swapping? && !th.stage.Marking? && !w.threads[t].stage.Marking?
    requires ThreadOk(th, w.queues)
    ensures Inv(w.(threads := w.threads[t := th]))
  {
    hide QueueOk;
    var w' := w.(threads := w.threads[t := th]);
    forall q: Id | q < |w.queues|
      ensures QueueOk(w'.queues[q], Tokens(w', q), Holders(w', q), Markers(w', q))
    {
      TotalUpdate(w.threads, t, th, Owns(q));
      TotalUpdate(w.threads, t, th, Refers(q));
      TotalUpdate(w.threads, t, th, Marks(q));
      assert QueueOk(w.queues[q], Tokens(w, q), Holders(w, q), Markers(w, q));
    }
  }

  // ---------------------------------------------------------------- creation

  lemma NobodyHas(w: World, q: Id)
    requires Inv(w) && q >= |w.queues|
    ensures Tokens(w, q) == 0 && Holders(w, q) == 0 && Markers(w, q) == 0
  {
    forall t | 0 <= t < |w.threads|
      ensures Owns(q)(w.threads[t]) == 0 && Refers(q)(w.threads[t]) == 0 && Marks(q)(w.threads[t]) == 0
    {
      assert ThreadOk(w.threads[t], w.queues);
    }
    TotalZero(w.threads, Owns(q));
    TotalZero(w.threads, Refers(q));
    TotalZero(w.threads, Marks(q));
    TotalZero(w.global, Is(q));
  }

  lemma CreateKeeps(w: World, t: nat)
    requires Inv(w) && Enabled(w, t, Create)
    ensures Inv(Next(w, t, Create))
  {
    hide Total, QueueOk;
    var n := |w.queues|;
    var w', th := Next(w, t, Create), Thread(Some(n), Some(n), Launching);
    NobodyHas(w, n);
    forall q: Id | q < |w'.queues|
      ensures QueueOk(w'.queues[q], Tokens(w', q), Holders(w', q), Markers(w', q))
    {
      TotalUpdate(w.threads, t, th, Owns(q));
      TotalUpdate(w.threads, t, th, Refers(q));
      TotalUpdate(w.threads, t, th, Marks(q));
      if q < n {
        assert QueueOk(w.queues[q], Tokens(w, q), Holders(w, q), Markers(w, q));
      } else {
        NewQueueOk();
      }
    }
    forall u | 0 <= u < |w'.threads|
      ensures ThreadOk(w'.threads[u], w'.queues)
    {
      assert ThreadOk(w.threads[u], w.queues);
    }
  }

  lemma NewQueueOk()
    ensures QueueOk(NEW_QUEUE, 1, 1, 0)
  {
  }

  // ---------------------------------------------------------------- one lemma a step

  lemma PublishKeeps(w: World, t: nat)
    requires Inv(w) && Enabled(w, t, Publish)
    ensures Inv(Next(w, t, Publish))
  {
    hide Total, QueueOk;
    var th := w.threads[t];
    var q := th.owned.value;
    forall r: Id
      ensures Shifts(th, FREE, w.global, w.global + [q], q, 0, 0, 0, r)
    {
      Listed(w.global, q, r);
    }
    PutKeeps(w, t, FREE, q, w.queues[q], w.global + [q], 0, 0, 0);
  }

  lemma FailRetireKeeps(w: World, t: nat)
    requires Inv(w) && Enabled(w, t, FailRetire)
    ensures Inv(Next(w, t, FailRetire))
  {
    hide Total;
    var th := w.threads[t];
    var q := th.owned.value;
    if w.queues[q].registered {
      PutKeeps(w, t, Thread(Some(q), Some(q), Dropping(Disposing)),
               q, w.queues[q].(registered := false), w.global, 0, 1, 0);
    } else {
      StageKeeps(w, t, th.(stage := Disposing));
    }
  }

  lemma GrabToSendKeeps(w: World, t: nat, q: Id)
    requires Inv(w) && Enabled(w, t, GrabToSend(q))
    ensures Inv(Next(w, t, GrabToSend(q)))
  {
    hide Total;
    PutKeeps(w, t, Thread(None, Some(q), Sending), q, w.queues[q].(refs := w.queues[q].refs + 1), w.global, 0, 1, 0);
  }

  lemma PushMessageKeeps(w: World, t: nat, m: int)
    requires Inv(w) && Enabled(w, t, PushMessage(m))
    ensures Inv(Next(w, t, PushMessage(m)))
  {
    hide Total;
    var th := w.threads[t];
    var q := th.refd.value;
    var x := w.queues[q];
    ThreadCounts(w, t, q);
    var global := if x.inGlobal then w.global else w.global + [q];
    var listed := if x.inGlobal then 0 else 1;
    forall r: Id
      ensures Shifts(th, th, w.global, global, q, listed, 0, 0, r)
    {
      Listed(w.global, q, r);
    }
    assert x.delivered + x.dropped + x.messages + [m] == x.delivered + x.dropped + (x.messages + [m]);
    PutKeeps(w, t, th, q, Pushed(x, m), global, listed, 0, 0);
  }

  lemma RetireKeeps(w: World, t: nat, q: Id)
    requires Inv(w) && Enabled(w, t, Retire(q))
    ensures Inv(Next(w, t, Retire(q)))
  {
    hide Total;
    PutKeeps(w, t, Thread(None, Some(q), Dropping(Free)), q, w.queues[q].(registered := false), w.global, 0, 1, 0);
  }

  lemma DropKeeps(w: World, t: nat)
    requires Inv(w) && Enabled(w, t, Drop)
    ensures Inv(Next(w, t, Drop))
  {
    hide Total;
    var th := w.threads[t];
    var q := th.refd.value;
    var x, after := w.queues[q], th.stage.after;
    ThreadCounts(w, t, q);
    var next := Thread(th.owned, None, if x.refs == 1 then Marking(q, after) else after);
    PutKeeps(w, t, next, q, x.(refs := x.refs - 1), w.global, 0, -1, if x.refs == 1 then 1 else 0);
  }

  lemma MarkKeeps(w: World, t: nat)
    requires Inv(w) && Enabled(w, t, Mark)
    ensures Inv(Next(w, t, Mark))
  {
    hide Total;
    var th := w.threads[t];
    var q := th.stage.queue;
    var x := w.queues[q];
    ThreadCounts(w, t, q);
    var global := if x.inGlobal then w.global else w.global + [q];
    var next := th.(stage := th.stage.after);
    var listed := if x.inGlobal then 0 else 1;
    forall r: Id
      ensures Shifts(th, next, w.global, global, q, listed, 0, -1, r)
    {
      Listed(w.global, q, r);
    }
    PutKeeps(w, t, next, q, x.(release := true), global, listed, 0, -1);
  }

  lemma TakeGlobalKeeps(w: World, t: nat)
    requires Inv(w) && Enabled(w, t, TakeGlobal)
    ensures Inv(Next(w, t, TakeGlobal))
  {
    hide QueueOk, Total;
    var q := w.global[0];
    var next := Thread(Some(q), None, Holding);
    forall r: Id
      ensures Shifts(w.threads[t], next, w.global, w.global[1..], q, 0, 0, 0, r)
    {
      Unlisted(w.global, r);
    }
    PutKeeps(w, t, next, q, w.queues[q], w.global[1..], 0, 0, 0);
  }

  lemma GrabKeeps(w: World, t: nat)
    requires Inv(w) && Enabled(w, t, Grab)
    ensures Inv(Next(w, t, Grab))
  {
    hide Total;
    var th := w.threads[t];
    var q := th.owned.value;
    var x := w.queues[q];
    if x.registered {
      PutKeeps(w, t, Thread(Some(q), Some(q), Running(0, 1)), q, x.(refs := x.refs + 1), w.global, 0, 1, 0);
    } else {
      StageKeeps(w, t, th.(stage := Disposing));
    }
  }

  lemma PopMessageKeeps(w: World, t: nat, weight: int)
    requires Inv(w) && Enabled(w, t, PopMessage(weight))
    ensures Inv(Next(w, t, PopMessage(weight)))
  {
    hide Total, ShiftRight;
    var th := w.threads[t];
    var q := th.owned.value;
    var x := w.queues[q];
    ThreadCounts(w, t, q);
    if x.messages == [] {
      PutKeeps(w, t, Thread(None, Some(q), Dropping(Free)), q, x.(inGlobal := false), w.global, -1, 0, 0);
    } else {
      var y := Delivered(x);
      var n := TurnLength(th.stage.i, th.stage.n, |y.messages|, weight);
      assert x.dropped == [];
      assert x.delivered + [] + x.messages == x.delivered + [x.messages[0]] + [] + x.messages[1..];
      PutKeeps(w, t, th.(stage := Running(th.stage.i + 1, n)), q, y, w.global, 0, 0, 0);
    }
  }

  lemma RotateKeeps(w: World, t: nat)
    requires Inv(w) && Enabled(w, t, Rotate)
    ensures Inv(Next(w, t, Rotate))
  {
    hide QueueOk, Total;
    var th := w.threads[t];
    if w.global == [] {
      StageKeeps(w, t, th.(stage := Dropping(Holding)));
    } else {
      var q := w.global[0];
      var next := th.(stage := Swapping(q));
      forall r: Id
        ensures Shifts(th, next, w.global, w.global[1..], q, 0, 0, 0, r)
      {
        Unlisted(w.global, r);
      }
      PutKeeps(w, t, next, q, w.queues[q], w.global[1..], 0, 0, 0);
    }
  }

  lemma PushBackKeeps(w: World, t: nat)
    requires Inv(w) && Enabled(w, t, PushBack)
    ensures Inv(Next(w, t, PushBack))
  {
    hide Total, QueueOk;
    var th := w.threads[t];
    var q := th.owned.value;
    var next := Thread(Some(th.stage.next), Some(q), Dropping(Holding));
    forall r: Id
      ensures Shifts(th, next, w.global, w.global + [q], q, 0, 0, 0, r)
    {
      Listed(w.global, q, r);
    }
    PutKeeps(w, t, next, q, w.queues[q], w.global + [q], 0, 0, 0);
  }

  lemma DisposeKeeps(w: World, t: nat)
    requires Inv(w) && Enabled(w, t, Dispose)
    ensures Inv(Next(w, t, Dispose))
  {
    hide Total, QueueOk;
    var th := w.threads[t];
    var q := th.owned.value;
    if w.queues[q].release {
      StageKeeps(w, t, th.(stage := Draining));
    } else {
      forall r: Id
        ensures Shifts(th, FREE, w.global, w.global + [q], q, 0, 0, 0, r)
      {
        Listed(w.global, q, r);
      }
      PutKeeps(w, t, FREE, q, w.queues[q], w.global + [q], 0, 0, 0);
    }
  }

  lemma DropMessageKeeps(w: World, t: nat)
    requires Inv(w) && Enabled(w, t, DropMessage)
    ensures Inv(Next(w, t, DropMessage))
  {
    hide Total;
    var th := w.threads[t];
    var q := th.owned.value;
    var x := w.queues[q];
    ThreadCounts(w, t, q);
    assert x.delivered + x.dropped + x.messages == x.delivered + (x.dropped + [x.messages[0]]) + x.messages[1..];
    PutKeeps(w, t, th, q, Dropped(x), w.global, 0, 0, 0);
  }

  lemma DeleteKeeps(w: World, t: nat)
    requires Inv(w) && Enabled(w, t, Delete)
    ensures Inv(Next(w, t, Delete))
  {
    hide Total;
    var th := w.threads[t];
    var q := th.owned.value;
    ThreadCounts(w, t, q);
    PutKeeps(w, t, FREE, q, w.queues[q].(inGlobal := false, deleted := true), w.global, -1, 0, 0);
  }

  // ---------------------------------------------------------------- every step, every run

  lemma StepKeepsInv(w: World, t: nat, s: Step)
    requires Inv(w) && Enabled(w, t, s)
    ensures Inv(Next(w, t, s))
  {
    hide Inv;
    var th := w.threads[t];
    match s {
      case Create => CreateKeeps(w, t);
      case LaunchOk => StagesKeep(w, t, s);
      case LaunchFail => StagesKeep(w, t, s);
      case Publish => PublishKeeps(w, t);
      case FailRetire => FailRetireKeeps(w, t);
      case GrabToSend(q) => GrabToSendKeeps(w, t, q);
      case PushMessage(m) => PushMessageKeeps(w, t, m);
      case EndSend => StagesKeep(w, t, s);
      case Retire(q) => RetireKeeps(w, t, q);
      case Drop => DropKeeps(w, t);
      case Mark => MarkKeeps(w, t);
      case TakeGlobal => TakeGlobalKeeps(w, t);
      case Grab => GrabKeeps(w, t);
      case PopMessage(weight) => PopMessageKeeps(w, t, weight);
      case Rotate => RotateKeeps(w, t);
      case PushBack => PushBackKeeps(w, t);
      case Dispose => DisposeKeeps(w, t);
      case DropMessage => DropMessageKeeps(w, t);
      case Delete => DeleteKeeps(w, t);
    }
  }

  lemma StagesKeep(w: World, t: nat, s: Step)
    requires Inv(w) && Enabled(w, t, s) && (s.LaunchOk? || s.LaunchFail? || s.EndSend?)
    ensures Inv(Next(w, t, s))
  {
    hide QueueOk, Total;
    var after := match s case LaunchOk => Publishing case LaunchFail => Failing case _ => Free;
    StageKeeps(w, t, w.threads[t].(stage := Dropping(after)));
  }

  lemma {:induction false} EveryRun(w: World, acts: seq<Act>)
    requires Inv(w) && Possible(w, acts)
    ensures Inv(Run(w, acts))
    decreases |acts|
  {
    hide Inv, Enabled, Next;
    if |acts| > 0 {
      StepKeepsInv(w, acts[0].thread, acts[0].step);
      EveryRun(Next(w, acts[0].thread, acts[0].step), acts[1..]);
    }
  }

  lemma StartIsInv(n: nat)
    ensures Inv(Start(n))
  {
  }
}
