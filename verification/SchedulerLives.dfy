/** The life of a service by the acts of the threads: how its queue is listed at first, handed on
    after a turn, and released when the service is retired. */
module SchedulerLives {
  import opened Basics
  import opened Counting
  import opened Scheduler

  /** w after thread t became th and queue q became x, and the list global. */
  function Becomes(w: World, t: nat, th: Thread, q: Id, x: Queue, global: seq<Id>): World
    requires t < |w.threads| && q < |w.queues|
  {
    World(w.queues[q := x], global, w.threads[t := th])
  }

  /** The steps of one thread. */
  function Acts(t: nat, steps: seq<Step>): (r: seq<Act>)
    ensures |r| == |steps|
  {
    seq(|steps|, i requires 0 <= i < |steps| => Act(t, steps[i]))
  }

  ghost predicate Leads(w: World, t: nat, steps: seq<Step>, w': World) {
    Possible(w, Acts(t, steps)) && Run(w, Acts(t, steps)) == w'
  }

  lemma NoSteps(w: World, t: nat)
    ensures Leads(w, t, [], w)
  {
  }

  lemma FirstStep(w: World, t: nat, s: Step, steps: seq<Step>, w': World)
    requires Enabled(w, t, s) && Leads(Next(w, t, s), t, steps, w')
    ensures Leads(w, t, [s] + steps, w')
  {
    hide Enabled, Next;
    assert Acts(t, [s] + steps)[0] == Act(t, s) && Acts(t, [s] + steps)[1..] == Acts(t, steps);
  }

  /** A step that changes thread t and queue q. */
  lemma OneStep(w: World, t: nat, th: Thread, q: Id, x: Queue, g: seq<Id>,
                s: Step, th': Thread, x': Queue, g': seq<Id>, steps: seq<Step>, all: seq<Step>, w': World)
    requires t < |w.threads| && q < |w.queues|
    requires Enabled(Becomes(w, t, th, q, x, g), t, s)
    requires Next(Becomes(w, t, th, q, x, g), t, s) == Becomes(Becomes(w, t, th, q, x, g), t, th', q, x', g')
    requires Leads(Becomes(w, t, th', q, x', g'), t, steps, w') && all == [s] + steps
    ensures Leads(Becomes(w, t, th, q, x, g), t, all, w')
  {
    hide Enabled, Next, Leads;
    var w1 := Becomes(w, t, th, q, x, g);
    assert w1.queues[q := x'] == w.queues[q := x'] && w1.threads[t := th'] == w.threads[t := th'];
    FirstStep(w1, t, s, steps, w');
  }

  lemma Itself(w: World, t: nat, q: Id)
    requires t < |w.threads| && q < |w.queues|
    ensures Becomes(w, t, w.threads[t], q, w.queues[q], w.global) == w
  {
  }

  // ---------------------------------------------------------------- single steps

  lemma DropIs(w: World, t: nat, own: Option<Id>, after: Stage, q: Id, x: Queue, g: seq<Id>)
    requires t < |w.threads| && q < |w.queues| && x.refs > 0 && Continues(after, own)
    requires own.Some? ==> own.value < |w.queues|
    ensures
      var w1 := Becomes(w, t, Thread(own, Some(q), Dropping(after)), q, x, g);
      && Enabled(w1, t, Drop)
      && Next(w1, t, Drop) ==
           Becomes(w1, t, Thread(own, None, if x.refs == 1 then Marking(q, after) else after), q,
                   x.(refs := x.refs - 1), g)
  {
  }

  lemma MarkIs(w: World, t: nat, own: Option<Id>, after: Stage, q: Id, x: Queue, g: seq<Id>)
    requires t < |w.threads| && q < |w.queues| && Continues(after, own)
    requires own.Some? ==> own.value < |w.queues|
    ensures
      var w1 := Becomes(w, t, Thread(own, None, Marking(q, after)), q, x, g);
      && Enabled(w1, t, Mark)
      && Next(w1, t, Mark) ==
           Becomes(w1, t, Thread(own, None, after), q, x.(release := true), if x.inGlobal then g else g + [q])
  {
  }

  // ---------------------------------------------------------------- a launch

  /** A service that is launched is listed behind all others. */
  lemma LaunchedIsListed(w: World, t: nat, q: Id)
    requires t < |w.threads| && q < |w.queues| && w.threads[t] == Thread(Some(q), Some(q), Launching)
    requires w.queues[q].refs > 1
    ensures
      Leads(w, t, [LaunchOk, Drop, Publish],
            Becomes(w, t, Thread(None, None, Free), q, w.queues[q].(refs := w.queues[q].refs - 1), w.global + [q]))
  {
    hide Leads, Becomes;
    var own, x, y, g := Some(q), w.queues[q], w.queues[q].(refs := w.queues[q].refs - 1), w.global;
    var end := Becomes(w, t, Thread(None, None, Free), q, y, g + [q]);
    NoSteps(end, t);
    PublishIs(w, t, q, y, g);
    OneStep(w, t, Thread(own, None, Publishing), q, y, g, Publish, Thread(None, None, Free), y, g + [q],
            [], [Publish], end);
    DropIs(w, t, own, Publishing, q, x, g);
    OneStep(w, t, Thread(own, own, Dropping(Publishing)), q, x, g, Drop, Thread(own, None, Publishing), y, g,
            [Publish], [Drop, Publish], end);
    LaunchIs(w, t, q, x, g);
    OneStep(w, t, Thread(own, own, Launching), q, x, g, LaunchOk, Thread(own, own, Dropping(Publishing)), x, g,
            [Drop, Publish], [LaunchOk, Drop, Publish], end);
    Itself(w, t, q);
  }

  lemma PublishIs(w: World, t: nat, q: Id, x: Queue, g: seq<Id>)
    requires t < |w.threads| && q < |w.queues|
    ensures
      var w1 := Becomes(w, t, Thread(Some(q), None, Publishing), q, x, g);
      Enabled(w1, t, Publish) && Next(w1, t, Publish) == Becomes(w1, t, Thread(None, None, Free), q, x, g + [q])
  {
  }

  lemma LaunchIs(w: World, t: nat, q: Id, x: Queue, g: seq<Id>)
    requires t < |w.threads| && q < |w.queues|
    ensures
      var w1 := Becomes(w, t, Thread(Some(q), Some(q), Launching), q, x, g);
      && Enabled(w1, t, LaunchOk) && Enabled(w1, t, LaunchFail)
      && Next(w1, t, LaunchOk) == Becomes(w1, t, Thread(Some(q), Some(q), Dropping(Publishing)), q, x, g)
      && Next(w1, t, LaunchFail) == Becomes(w1, t, Thread(Some(q), Some(q), Dropping(Failing)), q, x, g)
  {
  }

  // ---------------------------------------------------------------- the end of a service

  lemma FailRetireIs(w: World, t: nat, q: Id, x: Queue, g: seq<Id>)
    requires t < |w.threads| && q < |w.queues| && x.registered
    ensures
      var w1 := Becomes(w, t, Thread(Some(q), None, Failing), q, x, g);
      && Enabled(w1, t, FailRetire)
      && Next(w1, t, FailRetire) ==
           Becomes(w1, t, Thread(Some(q), Some(q), Dropping(Disposing)), q, x.(registered := false), g)
  {
  }

  lemma DisposeIs(w: World, t: nat, q: Id, x: Queue, g: seq<Id>)
    requires t < |w.threads| && q < |w.queues|
    ensures
      var w1 := Becomes(w, t, Thread(Some(q), None, Disposing), q, x, g);
      && Enabled(w1, t, Dispose)
      && Next(w1, t, Dispose) ==
           if x.release then Becomes(w1, t, Thread(Some(q), None, Draining), q, x, g)
           else Becomes(w1, t, Thread(None, None, Free), q, x, g + [q])
  {
  }

  lemma RetireIs(w: World, t: nat, q: Id, x: Queue, g: seq<Id>)
    requires t < |w.threads| && q < |w.queues| && x.registered
    ensures
      var w1 := Becomes(w, t, Thread(None, None, Free), q, x, g);
      && Enabled(w1, t, Retire(q))
      && Next(w1, t, Retire(q)) == Becomes(w1, t, Thread(None, Some(q), Dropping(Free)), q, x.(registered := false), g)
  {
  }

  lemma DrainIs(w: World, t: nat, q: Id, x: Queue, g: seq<Id>)
    requires t < |w.threads| && q < |w.queues|
    ensures
      var w1 := Becomes(w, t, Thread(Some(q), None, Draining), q, x, g);
      if x.messages == [] then
        && Enabled(w1, t, Delete)
        && Next(w1, t, Delete) == Becomes(w1, t, Thread(None, None, Free), q, x.(inGlobal := false, deleted := true), g)
      else
        && Enabled(w1, t, DropMessage)
        && Next(w1, t, DropMessage) ==
             Becomes(w1, t, Thread(Some(q), None, Draining), q,
                     x.(messages := x.messages[1..], dropped := x.dropped + [x.messages[0]]), g)
  {
  }

  lemma GrabRetiredIs(w: World, t: nat, q: Id, x: Queue, g: seq<Id>)
    requires t < |w.threads| && q < |w.queues| && !x.registered
    ensures
      var w1 := Becomes(w, t, Thread(Some(q), None, Holding), q, x, g);
      Enabled(w1, t, Grab) && Next(w1, t, Grab) == Becomes(w1, t, Thread(Some(q), None, Disposing), q, x, g)
  {
  }

  /** The steps that drop n messages and delete the queue. */
  function Drains(n: nat): seq<Step> {
    if n == 0 then [Delete] else [DropMessage] + Drains(n - 1)
  }

  /** A queue that is drained is deleted with all its messages dropped, in order. */
  lemma {:induction false} DrainedIsDeleted(w: World, t: nat, q: Id, x: Queue, g: seq<Id>)
    requires t < |w.threads| && q < |w.queues|
    ensures
      Leads(Becomes(w, t, Thread(Some(q), None, Draining), q, x, g), t, Drains(|x.messages|),
            Becomes(w, t, Thread(None, None, Free), q,
                    x.(messages := [], dropped := x.dropped + x.messages, inGlobal := false, deleted := true), g))
    decreases |x.messages|
  {
    hide Leads, Becomes;
    DrainIs(w, t, q, x, g);
    var free, drain := Thread(None, None, Free), Thread(Some(q), None, Draining);
    var y := x.(messages := [], dropped := x.dropped + x.messages, inGlobal := false, deleted := true);
    var end := Becomes(w, t, free, q, y, g);
    if x.messages == [] {
      assert x.dropped + [] == x.dropped;
      NoSteps(end, t);
      OneStep(w, t, drain, q, x, g, Delete, free, y, g, [], [Delete], end);
    } else {
      var z := x.(messages := x.messages[1..], dropped := x.dropped + [x.messages[0]]);
      assert z.dropped + z.messages == x.dropped + x.messages;
      DrainedIsDeleted(w, t, q, z, g);
      OneStep(w, t, drain, q, x, g, DropMessage, drain, z, g, Drains(|z.messages|), Drains(|x.messages|), end);
    }
  }

  /** A service that nobody else refers to is retired: its queue is marked, and listed so that a
      worker comes to it. */
  lemma RetiredIsMarked(w: World, t: nat, q: Id)
    requires t < |w.threads| && q < |w.queues| && w.threads[t] == Thread(None, None, Free)
    requires w.queues[q].registered && w.queues[q].refs == 1
    ensures
      var x := w.queues[q];
      Leads(w, t, [Retire(q), Drop, Mark],
            Becomes(w, t, Thread(None, None, Free), q, x.(registered := false, refs := 0, release := true),
                    if x.inGlobal then w.global else w.global + [q]))
  {
    hide Leads, Becomes;
    var free, x, g := Thread(None, None, Free), w.queues[q], w.global;
    var y, z := x.(registered := false), x.(registered := false, refs := 0);
    var g' := if x.inGlobal then g else g + [q];
    var end := Becomes(w, t, free, q, z.(release := true), g');
    NoSteps(end, t);
    MarkIs(w, t, None, Free, q, z, g);
    OneStep(w, t, Thread(None, None, Marking(q, Free)), q, z, g, Mark, free, z.(release := true), g', [], [Mark], end);
    DropIs(w, t, None, Free, q, y, g);
    OneStep(w, t, Thread(None, Some(q), Dropping(Free)), q, y, g, Drop, Thread(None, None, Marking(q, Free)), z, g,
            [Mark], [Drop, Mark], end);
    RetireIs(w, t, q, x, g);
    OneStep(w, t, free, q, x, g, Retire(q), Thread(None, Some(q), Dropping(Free)), y, g,
            [Drop, Mark], [Retire(q), Drop, Mark], end);
    Itself(w, t, q);
  }

  /** A worker that comes to a retired queue deletes it with what is left in it if it is marked, and
      puts it back behind the others if some thread still refers to it. */
  lemma WorkerReleasesRetired(w: World, t: nat, q: Id)
    requires t < |w.threads| && q < |w.queues| && w.threads[t] == Thread(Some(q), None, Holding)
    requires !w.queues[q].registered
    ensures
      var x, free := w.queues[q], Thread(None, None, Free);
      if x.release then
        Leads(w, t, [Grab, Dispose] + Drains(|x.messages|),
              Becomes(w, t, free, q,
                      x.(messages := [], dropped := x.dropped + x.messages, inGlobal := false, deleted := true),
                      w.global))
      else Leads(w, t, [Grab, Dispose], Becomes(w, t, free, q, x, w.global + [q]))
  {
    hide Leads, Becomes;
    var x, g, free := w.queues[q], w.global, Thread(None, None, Free);
    var hold, off := Thread(Some(q), None, Holding), Thread(Some(q), None, Disposing);
    GrabRetiredIs(w, t, q, x, g);
    DisposeIs(w, t, q, x, g);
    Itself(w, t, q);
    if x.release {
      var drains, all := Drains(|x.messages|), [Grab, Dispose] + Drains(|x.messages|);
      var end := Becomes(w, t, free, q,
                         x.(messages := [], dropped := x.dropped + x.messages, inGlobal := false, deleted := true), g);
      DrainedIsDeleted(w, t, q, x, g);
      OneStep(w, t, off, q, x, g, Dispose, Thread(Some(q), None, Draining), x, g, drains, [Dispose] + drains, end);
      OneStep(w, t, hold, q, x, g, Grab, off, x, g, [Dispose] + drains, all, end);
    } else {
      var end := Becomes(w, t, free, q, x, g + [q]);
      NoSteps(end, t);
      OneStep(w, t, off, q, x, g, Dispose, free, x, g + [q], [], [Dispose], end);
      OneStep(w, t, hold, q, x, g, Grab, off, x, g, [Dispose], [Grab, Dispose], end);
    }
  }

  /** A service whose launch fails is retired at once, and its queue deleted by its creator. */
  lemma FailedLaunchIsDeleted(w: World, t: nat, q: Id)
    requires t < |w.threads| && q < |w.queues| && w.threads[t] == Thread(Some(q), Some(q), Launching)
    requires w.queues[q].registered && w.queues[q].refs == 2 && w.queues[q].inGlobal
    ensures
      var x := w.queues[q];
      Leads(w, t, [LaunchFail, Drop, FailRetire, Drop, Mark, Dispose] + Drains(|x.messages|),
            Becomes(w, t, Thread(None, None, Free), q,
                    x.(messages := [], dropped := x.dropped + x.messages, inGlobal := false, deleted := true,
                       registered := false, refs := 0, release := true), w.global))
  {
    hide Leads, Becomes;
    var own, x, g := Some(q), w.queues[q], w.global;
    var y, z := x.(refs := 1), x.(refs := 1, registered := false);
    var drains := Drains(|x.messages|);
    var rest := [Drop, Mark, Dispose] + drains;
    var end := Becomes(w, t, Thread(None, None, Free), q,
                       x.(messages := [], dropped := x.dropped + x.messages, inGlobal := false, deleted := true,
                          registered := false, refs := 0, release := true), g);
    LastReferenceDropped(w, t, q, z, g);
    FailRetireIs(w, t, q, y, g);
    OneStep(w, t, Thread(own, None, Failing), q, y, g, FailRetire, Thread(own, own, Dropping(Disposing)), z, g,
            rest, [FailRetire] + rest, end);
    DropIs(w, t, own, Failing, q, x, g);
    OneStep(w, t, Thread(own, own, Dropping(Failing)), q, x, g, Drop, Thread(own, None, Failing), y, g,
            [FailRetire] + rest, [Drop, FailRetire] + rest, end);
    LaunchIs(w, t, q, x, g);
    OneStep(w, t, Thread(own, own, Launching), q, x, g, LaunchFail, Thread(own, own, Dropping(Failing)), x, g,
            [Drop, FailRetire] + rest, [LaunchFail, Drop, FailRetire] + rest, end);
    Itself(w, t, q);
    assert [LaunchFail, Drop, FailRetire] + rest == [LaunchFail, Drop, FailRetire, Drop, Mark, Dispose] + drains;
  }

  /** The owner of a listed queue drops the last reference and disposes of it. */
  lemma LastReferenceDropped(w: World, t: nat, q: Id, z: Queue, g: seq<Id>)
    requires t < |w.threads| && q < |w.queues| && z.refs == 1 && z.inGlobal
    ensures
      Leads(Becomes(w, t, Thread(Some(q), Some(q), Dropping(Disposing)), q, z, g), t,
            [Drop, Mark, Dispose] + Drains(|z.messages|),
            Becomes(w, t, Thread(None, None, Free), q,
                    z.(messages := [], dropped := z.dropped + z.messages, inGlobal := false, deleted := true,
                       refs := 0, release := true), g))
  {
    hide Leads, Becomes;
    var own, u, v := Some(q), z.(refs := 0), z.(refs := 0, release := true);
    var drains := Drains(|z.messages|);
    var end := Becomes(w, t, Thread(None, None, Free), q,
                       v.(messages := [], dropped := z.dropped + z.messages, inGlobal := false, deleted := true), g);
    DrainedIsDeleted(w, t, q, v, g);
    DisposeIs(w, t, q, v, g);
    OneStep(w, t, Thread(own, None, Disposing), q, v, g, Dispose, Thread(own, None, Draining), v, g,
            drains, [Dispose] + drains, end);
    MarkIs(w, t, own, Disposing, q, u, g);
    OneStep(w, t, Thread(own, None, Marking(q, Disposing)), q, u, g, Mark, Thread(own, None, Disposing), v, g,
            [Dispose] + drains, [Mark, Dispose] + drains, end);
    DropIs(w, t, own, Disposing, q, z, g);
    OneStep(w, t, Thread(own, own, Dropping(Disposing)), q, z, g, Drop, Thread(own, None, Marking(q, Disposing)), u, g,
            [Mark, Dispose] + drains, [Drop, Mark, Dispose] + drains, end);
  }

  // ---------------------------------------------------------------- between two turns

  lemma RotateIs(w: World, t: nat, q: Id, i: nat, n: nat)
    requires t < |w.threads| && q < |w.queues| && w.threads[t] == Thread(Some(q), Some(q), Running(i, n)) && i >= n
    requires w.global != [] ==> w.global[0] < |w.queues|
    ensures
      && Enabled(w, t, Rotate)
      && Next(w, t, Rotate) ==
           if w.global == [] then Becomes(w, t, Thread(Some(q), Some(q), Dropping(Holding)), q, w.queues[q], [])
           else Becomes(w, t, Thread(Some(q), Some(q), Swapping(w.global[0])), q, w.queues[q], w.global[1..])
  {
  }

  lemma PushBackIs(w: World, t: nat, q: Id, next: Id, x: Queue, g: seq<Id>)
    requires t < |w.threads| && q < |w.queues| && next < |w.queues|
    ensures
      var w1 := Becomes(w, t, Thread(Some(q), Some(q), Swapping(next)), q, x, g);
      && Enabled(w1, t, PushBack)
      && Next(w1, t, PushBack) == Becomes(w1, t, Thread(Some(next), Some(q), Dropping(Holding)), q, x, g + [q])
  {
  }

  /** After its turn a worker puts its queue behind all others and goes on with the first of them; if
      there is none it keeps its own. */
  lemma TurnHandsOn(w: World, t: nat, q: Id, i: nat, n: nat)
    requires t < |w.threads| && q < |w.queues| && w.threads[t] == Thread(Some(q), Some(q), Running(i, n)) && i >= n
    requires w.queues[q].refs > 1 && (w.global != [] ==> w.global[0] < |w.queues|)
    ensures
      var x, g := w.queues[q].(refs := w.queues[q].refs - 1), w.global;
      if g == [] then Leads(w, t, [Rotate, Drop], Becomes(w, t, Thread(Some(q), None, Holding), q, x, []))
      else
        Leads(w, t, [Rotate, PushBack, Drop], Becomes(w, t, Thread(Some(g[0]), None, Holding), q, x, g[1..] + [q]))
  {
    hide Leads, Becomes;
    var own, x, y, g := Some(q), w.queues[q], w.queues[q].(refs := w.queues[q].refs - 1), w.global;
    RotateIs(w, t, q, i, n);
    Itself(w, t, q);
    var run := w.threads[t];
    if g == [] {
      var end := Becomes(w, t, Thread(own, None, Holding), q, y, []);
      NoSteps(end, t);
      DropIs(w, t, own, Holding, q, x, []);
      OneStep(w, t, Thread(own, own, Dropping(Holding)), q, x, [], Drop, Thread(own, None, Holding), y, [],
              [], [Drop], end);
      OneStep(w, t, run, q, x, g, Rotate, Thread(own, own, Dropping(Holding)), x, [], [Drop], [Rotate, Drop], end);
    } else {
      var next, rest := Some(g[0]), g[1..];
      var end := Becomes(w, t, Thread(next, None, Holding), q, y, rest + [q]);
      NoSteps(end, t);
      DropIs(w, t, next, Holding, q, x, rest + [q]);
      OneStep(w, t, Thread(next, own, Dropping(Holding)), q, x, rest + [q], Drop, Thread(next, None, Holding), y,
              rest + [q], [], [Drop], end);
      PushBackIs(w, t, q, g[0], x, rest);
      OneStep(w, t, Thread(own, own, Swapping(g[0])), q, x, rest, PushBack, Thread(next, own, Dropping(Holding)), x,
              rest + [q], [Drop], [PushBack, Drop], end);
      OneStep(w, t, run, q, x, g, Rotate, Thread(own, own, Swapping(g[0])), x, rest,
              [PushBack, Drop], [Rotate, PushBack, Drop], end);
    }
  }

  // ---------------------------------------------------------------- retired for good

  /** A service that is retired is never registered again, gets no further sender and no further turn,
      and its queue is deleted only when it is marked and empty. */
  lemma RetiredIsForGood(w: World, t: nat, s: Step, q: Id)
    requires Enabled(w, t, s) && q < |w.queues|
    ensures q < |Next(w, t, s).queues|
    ensures
      !w.queues[q].registered ==>
        && !Next(w, t, s).queues[q].registered && Next(w, t, s).queues[q].refs <= w.queues[q].refs
        && s != GrabToSend(q)
        && (s.Grab? && w.threads[t].owned == Some(q) ==> Next(w, t, s).threads[t].stage.Disposing?)
    ensures
      w.queues[q].registered && !Next(w, t, s).queues[q].registered ==>
        s == Retire(q) || (s.FailRetire? && w.threads[t].owned == Some(q))
    ensures
      !w.queues[q].deleted && Next(w, t, s).queues[q].deleted ==>
        s.Delete? && w.threads[t].owned == Some(q) && w.queues[q].messages == []
  {
    hide TurnLength;
  }
}
