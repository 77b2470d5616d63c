/** What the acts of a run do to the messages, told by the acts and the threads that take them: where
    a message goes, who delivers it, and how long a turn is. */
module SchedulerTurns {
  import opened Basics
  import opened Counting
  import opened Scheduler
  import opened SchedulerInvariant
  import opened SchedulerTheorems

  /** The worlds of a run with n threads, before, between and after its acts. */
  ghost predicate Trace(n: nat, ws: seq<World>, acts: seq<Act>) {
    && |ws| == |acts| + 1 && ws[0] == Start(n)
    && forall i {:trigger acts[i]} :: 0 <= i < |acts| ==>
         Enabled(ws[i], acts[i].thread, acts[i].step) && ws[i + 1] == Next(ws[i], acts[i].thread, acts[i].step)
  }

  lemma StepOfTrace(n: nat, ws: seq<World>, acts: seq<Act>, i: nat)
    requires Trace(n, ws, acts) && i < |acts|
    ensures Enabled(ws[i], acts[i].thread, acts[i].step) && ws[i + 1] == Next(ws[i], acts[i].thread, acts[i].step)
  {
    hide Enabled, Next;
  }

  /** A step moves its own thread only. */
  lemma OthersStay(w: World, t: nat, s: Step, u: nat)
    requires Enabled(w, t, s) && u < |w.threads| && u != t
    ensures |Next(w, t, s).threads| == |w.threads| && Next(w, t, s).threads[u] == w.threads[u]
  {
    hide TurnLength, Pushed, Delivered, Dropped;
  }

  /** While a thread does not act it stays as it is. */
  lemma {:induction false} ThreadStays(n: nat, ws: seq<World>, acts: seq<Act>, i: nat, j: nat, t: nat)
    requires Trace(n, ws, acts) && i <= j <= |acts| && t < |ws[i].threads|
    requires forall k :: i <= k < j ==> acts[k].thread != t
    ensures t < |ws[j].threads| && ws[j].threads[t] == ws[i].threads[t]
    decreases j - i
  {
    hide Enabled, Next;
    if i < j {
      ThreadStays(n, ws, acts, i, j - 1, t);
      StepOfTrace(n, ws, acts, j - 1);
      OthersStay(ws[j - 1], acts[j - 1].thread, acts[j - 1].step, t);
    }
  }

  // ---------------------------------------------------------------- a turn

  lemma GrabStarts(w: World, t: nat)
    requires Enabled(w, t, Grab) && w.queues[w.threads[t].owned.value].registered
    ensures
      var th' := Next(w, t, Grab).threads[t];
      th' == Thread(w.threads[t].owned, w.threads[t].owned, Running(0, 1))
  {
  }

  lemma FirstOfTurn(w: World, t: nat, s: Step)
    requires Enabled(w, t, s) && w.threads[t].stage == Running(0, 1)
    ensures s.PopMessage?
  {
  }

  /** What a pop does: the first message is delivered, and the length of the turn is settled with
      the first; an empty queue is given up. */
  lemma PopDelivers(w: World, t: nat, weight: int)
    requires Enabled(w, t, PopMessage(weight))
    ensures
      var q, w' := w.threads[t].owned.value, Next(w, t, PopMessage(weight));
      var x, y, left := w.queues[q], w'.queues[q], |w.queues[q].messages| - 1;
      && |w'.queues| == |w.queues| && w'.global == w.global
      && (forall r :: 0 <= r < |w.queues| && r != q ==> w'.queues[r] == w.queues[r])
      && (x.messages == [] ==>
            y.messages == [] && y.delivered == x.delivered && !y.inGlobal && w'.threads[t].owned == None)
      && (x.messages != [] ==>
            && y.messages == x.messages[1..] && y.delivered == x.delivered + [x.messages[0]]
            && w'.threads[t].owned == Some(q)
            && w'.threads[t].stage.Running? && w'.threads[t].stage.i == w.threads[t].stage.i + 1
            && w'.threads[t].stage.n ==
                 if w.threads[t].stage.i > 0 then w.threads[t].stage.n
                 else if weight < 0 then w.threads[t].stage.n else left / PowerOfTwo(weight))
  {
    if weight >= 0 && w.queues[w.threads[t].owned.value].messages != [] {
      ShiftIsDivision(|w.queues[w.threads[t].owned.value].messages| - 1, weight);
    }
  }

  /** Thread t grabbed a registered queue at i and acts next at j. */
  ghost predicate TurnStarts(n: nat, ws: seq<World>, acts: seq<Act>, i: nat, j: nat, t: nat, q: Id) {
    && Trace(n, ws, acts) && i < j < |acts| && acts[i] == Act(t, Grab) && acts[j].thread == t
    && (forall k :: i < k < j ==> acts[k].thread != t)
    && t < |ws[i].threads| && ws[i].threads[t].owned == Some(q)
    && q < |ws[i].queues| && ws[i].queues[q].registered
  }

  lemma FirstActOfTurn(n: nat, ws: seq<World>, acts: seq<Act>, i: nat, j: nat, t: nat, q: Id)
    requires TurnStarts(n, ws, acts, i, j, t, q)
    ensures t < |ws[j].threads| && ws[j].threads[t] == Thread(Some(q), Some(q), Running(0, 1))
    ensures Enabled(ws[j], t, acts[j].step) && acts[j].step.PopMessage? && ws[j + 1] == Next(ws[j], t, acts[j].step)
  {
    hide Enabled, Next;
    StepOfTrace(n, ws, acts, i);
    GrabStarts(ws[i], t);
    SameThreads(ws[i], t, Grab);
    ThreadStays(n, ws, acts, i + 1, j, t);
    StepOfTrace(n, ws, acts, j);
    FirstOfTurn(ws[j], t, acts[j].step);
  }

  /** A thread that enters its turn on a registered queue takes at least one message of it: the next
      thing it does is to pop, whatever others do in between. If the queue has messages then, its
      first one is delivered. */
  lemma TurnPops(n: nat, ws: seq<World>, acts: seq<Act>, i: nat, j: nat, t: nat, q: Id)
    requires TurnStarts(n, ws, acts, i, j, t, q)
    ensures acts[j].step.PopMessage? && q < |ws[j].queues| && q < |ws[j + 1].queues|
    ensures
      ws[j].queues[q].messages != [] ==>
        && ws[j + 1].queues[q].delivered == ws[j].queues[q].delivered + [ws[j].queues[q].messages[0]]
        && ws[j + 1].queues[q].messages == ws[j].queues[q].messages[1..]
  {
    hide Enabled, Next;
    FirstActOfTurn(n, ws, acts, i, j, t, q);
    OwnedIsThere(ws[j], t, acts[j].step);
    PopDelivers(ws[j], t, acts[j].step.weight);
  }

  lemma OwnedIsThere(w: World, t: nat, s: Step)
    requires Enabled(w, t, s)
    ensures w.threads[t].owned.Some? ==> w.threads[t].owned.value < |w.queues|
  {
  }

  function By(t: nat): Act -> nat {
    (a: Act) => if a.thread == t then 1 else 0
  }

  /** The length of a turn whose first pop left so many messages. */
  function Share(left: nat, weight: int): int {
    if weight < 0 then 1 else left / PowerOfTwo(weight)
  }

  /** A thread in its turn on q that has popped i times and will pop n times, or one whose pop
      found q empty and that is about to drop its reference. */
  predicate InTurn(th: Thread, q: Id, i: nat, n: int) {
    || th.stage == Dropping(Free)
    || (th.owned == Some(q) && th.stage.Running? && th.stage.i == i && th.stage.n == n && (i == 1 || i <= n))
  }

  lemma FirstPop(w: World, t: nat, weight: int, q: Id)
    requires Enabled(w, t, PopMessage(weight)) && w.threads[t].owned == Some(q) && w.threads[t].stage == Running(0, 1)
    ensures q < |w.queues| && t < |Next(w, t, PopMessage(weight)).threads|
    ensures
      var th, ms := Next(w, t, PopMessage(weight)).threads[t], w.queues[q].messages;
      if ms == [] then th.stage == Dropping(Free) else InTurn(th, q, 1, Share(|ms| - 1, weight))
  {
    PopDelivers(w, t, weight);
  }

  lemma NextPop(w: World, t: nat, weight: int, q: Id, i: nat, n: int)
    requires Enabled(w, t, PopMessage(weight)) && InTurn(w.threads[t], q, i, n) && i > 0
    ensures t < |Next(w, t, PopMessage(weight)).threads| && w.threads[t].stage.Running?
    ensures InTurn(Next(w, t, PopMessage(weight)).threads[t], q, i + 1, n)
  {
    PopDelivers(w, t, weight);
  }

  /** Thread t has only popped since its first pop at p. */
  lemma {:induction false} StillInTurn(n: nat, ws: seq<World>, acts: seq<Act>, p: nat, k: nat, t: nat, q: Id)
    requires Trace(n, ws, acts) && p < k <= |acts| && acts[p].thread == t && acts[p].step.PopMessage?
    requires forall m :: p < m < k && acts[m].thread == t ==> acts[m].step.PopMessage?
    requires t < |ws[p].threads| && ws[p].threads[t].owned == Some(q) && ws[p].threads[t].stage == Running(0, 1)
    ensures t < |ws[k].threads| && q < |ws[p].queues|
    ensures
      var ms := ws[p].queues[q].messages;
      if ms == [] then ws[k].threads[t].stage == Dropping(Free)
      else InTurn(ws[k].threads[t], q, Total(acts[p..k], By(t)), Share(|ms| - 1, acts[p].step.weight))
    decreases k - p
  {
    hide Enabled, Next, Share, InTurn;
    var a := acts[k - 1];
    StepOfTrace(n, ws, acts, k - 1);
    SameThreads(ws[k - 1], a.thread, a.step);
    assert acts[p..k] == acts[p..k - 1] + [a];
    TotalAppend(acts[p..k - 1], [a], By(t));
    OneBy(a, t);
    if k == p + 1 {
      assert acts[p..p] == [];
      FirstPop(ws[p], t, a.step.weight, q);
    } else {
      StillInTurn(n, ws, acts, p, k - 1, t, q);
      if a.thread == t {
        TurnsAreRunning(ws[k - 1], t, a.step);
        FirstCounts(acts, p, k - 1, t);
        NextPop(ws[k - 1], t, a.step.weight, q, Total(acts[p..k - 1], By(t)),
                Share(|ws[p].queues[q].messages| - 1, acts[p].step.weight));
      } else {
        OthersStay(ws[k - 1], a.thread, a.step, t);
      }
    }
  }

  lemma TurnsAreRunning(w: World, t: nat, s: Step)
    requires Enabled(w, t, s) && (s.PopMessage? || s.Rotate?)
    ensures w.threads[t].stage.Running? && (s.Rotate? ==> w.threads[t].stage.i >= w.threads[t].stage.n)
  {
  }

  lemma OneBy(a: Act, t: nat)
    ensures Total([a], By(t)) == if a.thread == t then 1 else 0
  {
  }

  lemma FirstCounts(acts: seq<Act>, p: nat, k: nat, t: nat)
    requires p < k <= |acts| && acts[p].thread == t
    ensures Total(acts[p..k], By(t)) > 0
  {
    TotalAtLeast(acts[p..k], By(t), 0, 0);
  }

  /** A turn that comes to its end has popped as often as its first pop settled: once if that pop
      left fewer messages than 2^weight or the weight is negative, otherwise once for each 2^weight
      of them. */
  lemma TurnTakes(n: nat, ws: seq<World>, acts: seq<Act>, i: nat, p: nat, j: nat, t: nat, q: Id)
    requires TurnStarts(n, ws, acts, i, p, t, q) && p < j < |acts| && acts[j] == Act(t, Rotate)
    requires forall m :: p < m < j && acts[m].thread == t ==> acts[m].step.PopMessage?
    ensures q < |ws[p].queues| && ws[p].queues[q].messages != [] && acts[p].step.PopMessage?
    ensures
      var share := Share(|ws[p].queues[q].messages| - 1, acts[p].step.weight);
      Total(acts[p..j], By(t)) == if share > 1 then share else 1
  {
    hide Enabled, Next, Share;
    FirstActOfTurn(n, ws, acts, i, p, t, q);
    StillInTurn(n, ws, acts, p, j, t, q);
    StepOfTrace(n, ws, acts, j);
    TurnsAreRunning(ws[j], t, Rotate);
    FirstCounts(acts, p, j, t);
  }

  /** Nothing is delivered but by a pop of the thread that owns the queue. */
  lemma OnlyPopsDeliver(w: World, t: nat, s: Step, q: Id)
    requires Enabled(w, t, s) && q < |w.queues|
    ensures q < |Next(w, t, s).queues|
    ensures Next(w, t, s).queues[q].delivered != w.queues[q].delivered ==>
              s.PopMessage? && w.threads[t].owned == Some(q)
  {
    hide TurnLength;
  }

  // ---------------------------------------------------------------- where messages go

  lemma GrabbedToSend(w: World, t: nat, q: Id)
    requires Enabled(w, t, GrabToSend(q))
    ensures Next(w, t, GrabToSend(q)).threads[t] == Thread(None, Some(q), Sending)
  {
  }

  lemma PushStores(w: World, t: nat, m: int)
    requires Enabled(w, t, PushMessage(m))
    ensures
      var q, w' := w.threads[t].refd.value, Next(w, t, PushMessage(m));
      && w'.threads[t] == w.threads[t] && q < |w.queues| == |w'.queues|
      && w'.queues[q].messages == w.queues[q].messages + [m]
      && w'.queues[q].pushed == w.queues[q].pushed + [m]
      && forall r :: 0 <= r < |w.queues| && r != q ==> w'.queues[r] == w.queues[r]
  {
  }

  /** From grabbing q to j, thread t has done nothing but push. */
  lemma {:induction false} StillSending(n: nat, ws: seq<World>, acts: seq<Act>, i: nat, j: nat, t: nat, q: Id)
    requires Trace(n, ws, acts) && i < j <= |acts| && acts[i] == Act(t, GrabToSend(q))
    requires forall k :: i < k < j && acts[k].thread == t ==> acts[k].step.PushMessage?
    ensures t < |ws[j].threads| && ws[j].threads[t] == Thread(None, Some(q), Sending)
    decreases j - i
  {
    hide Enabled, Next;
    StepOfTrace(n, ws, acts, j - 1);
    if j == i + 1 {
      SameThreads(ws[i], t, GrabToSend(q));
      GrabbedToSend(ws[i], t, q);
    } else {
      StillSending(n, ws, acts, i, j - 1, t, q);
      if acts[j - 1].thread == t {
        SameThreads(ws[j - 1], t, acts[j - 1].step);
        PushStores(ws[j - 1], t, acts[j - 1].step.msg);
      } else {
        OthersStay(ws[j - 1], acts[j - 1].thread, acts[j - 1].step, t);
      }
    }
  }

  lemma SameThreads(w: World, t: nat, s: Step)
    requires Enabled(w, t, s)
    ensures t < |w.threads| == |Next(w, t, s).threads|
  {
    hide TurnLength, Pushed, Delivered, Dropped;
  }

  /** A message goes to the queue its sender grabbed, behind all that are there, and to no other. */
  lemma PushesGoToTheGrabbed(n: nat, ws: seq<World>, acts: seq<Act>, i: nat, j: nat, t: nat, q: Id, m: int)
    requires Trace(n, ws, acts) && i < j < |acts|
    requires acts[i] == Act(t, GrabToSend(q)) && acts[j] == Act(t, PushMessage(m))
    requires forall k :: i < k < j && acts[k].thread == t ==> acts[k].step.PushMessage?
    ensures q < |ws[j].queues| == |ws[j + 1].queues|
    ensures ws[j + 1].queues[q].messages == ws[j].queues[q].messages + [m]
    ensures ws[j + 1].queues[q].pushed == ws[j].queues[q].pushed + [m]
    ensures forall r :: 0 <= r < |ws[j].queues| && r != q ==> ws[j + 1].queues[r] == ws[j].queues[r]
  {
    hide Enabled, Next;
    StillSending(n, ws, acts, i, j, t, q);
    StepOfTrace(n, ws, acts, j);
    PushStores(ws[j], t, m);
  }

  /** Nothing else puts messages into a queue. */
  lemma OnlyPushesPush(w: World, t: nat, s: Step, q: Id)
    requires Enabled(w, t, s) && q < |w.queues| && !s.PushMessage?
    ensures q < |Next(w, t, s).queues| && Next(w, t, s).queues[q].pushed == w.queues[q].pushed
    ensures |Next(w, t, s).queues[q].messages| <= |w.queues[q].messages|
  {
    hide TurnLength;
  }

  // ---------------------------------------------------------------- the order of the queues

  /** Queues are taken in the order in which they were listed: a step appends one, takes the first
      for its own thread, or leaves the list. */
  lemma QueuesAreTakenInOrder(w: World, t: nat, s: Step)
    requires Enabled(w, t, s)
    ensures
      var w' := Next(w, t, s);
      || w'.global == w.global
      || (exists q :: w'.global == w.global + [q])
      || (&& w.global != [] && w'.global == w.global[1..]
          && ((s.TakeGlobal? && w'.threads[t].owned == Some(w.global[0]))
              || (s.Rotate? && w'.threads[t].stage == Swapping(w.global[0]))))
  {
    hide TurnLength, Pushed, Delivered, Dropped;
  }

  // ---------------------------------------------------------------- a delivery

  /** A service is launched, a message is sent to it, and a worker delivers it. */
  lemma DeliveredIsReachable(m: int, weight: int)
    ensures exists w :: Reachable(w) && |w.queues| > 0 && w.queues[0].messages == [] && w.queues[0].delivered == [m]
  {
    hide Reachable, Enabled, Next;
    WaitingTurnIsReachable(m);
    var w :| Reachable(w) && |w.threads| > 0 && w.threads[0].owned == Some(0) && |w.queues| > 0
             && w.threads[0].stage.Running? && w.threads[0].stage.i < w.threads[0].stage.n
             && w.queues[0].messages == [m] && w.queues[0].delivered == [];
    PopIsEnabled(w, weight);
    ReachNext(w, 0, PopMessage(weight));
    PopDelivers(w, 0, weight);
  }

  lemma PopIsEnabled(w: World, weight: int)
    requires Reachable(w) && |w.threads| > 0 && w.threads[0].stage.Running?
    requires w.threads[0].stage.i < w.threads[0].stage.n
    ensures Enabled(w, 0, PopMessage(weight))
  {
    hide Reachable;
    ReachableIsInv(w);
    assert ThreadOk(w.threads[0], w.queues);
  }
}
