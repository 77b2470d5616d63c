/** The two-level message scheduler as a machine over the steps that its locks make atomic.
    A thread may own queues (the right to dispatch them) and may hold a reference on the
    context of one queue. Queues are numbered in the order of their creation. */
module Scheduler {
  import opened Basics
  import opened Counting

  type Id = nat

  /** A message queue together with the state of the context it belongs to. pushed, delivered
      and dropped record what happened to its messages. */
  datatype Queue = Queue(
    messages: seq<int>,
    inGlobal: bool,
    release: bool,
    registered: bool,
    refs: nat,
    deleted: bool,
    pushed: seq<int>,
    delivered: seq<int>,
    dropped: seq<int>)

  /** What a thread is about to do. */
  datatype Stage =
    | Free                                  // no queue: may look for work, send or retire
    | Sending                               // holds a reference in order to push
    | Launching                             // created a context, its module is initialising
    | Publishing                            // initialised: about to list the new queue
    | Failing                               // initialisation failed: about to retire the handle
    | Holding                               // entering dispatch with a queue
    | Running(i: nat, n: nat)               // in the dispatch loop
    | Swapping(next: Id)                    // took the next queue, about to list its own again
    | Dropping(after: Stage)                 // about to release its reference
    | Marking(queue: Id, after: Stage)       // dropped the last reference: about to mark the queue
    | Disposing                             // found no context: about to release the queue
    | Draining                              // the queue is marked: dropping what is left

  datatype Thread = Thread(owned: Option<Id>, refd: Option<Id>, stage: Stage)

  datatype World = World(queues: seq<Queue>, global: seq<Id>, threads: seq<Thread>)

  datatype Step =
    | Create | LaunchOk | LaunchFail | Publish | FailRetire
    | GrabToSend(queue: Id) | PushMessage(msg: int) | EndSend
    | Retire(queue: Id) | Drop | Mark
    | TakeGlobal | Grab | PopMessage(weight: int) | Rotate | PushBack
    | Dispose | DropMessage | Delete

  const FREE := Thread(None, None, Free)

  function Start(n: nat): World {
    World([], [], seq(n, _ => FREE))
  }

  // ---------------------------------------------------------------- what the methods of a queue do

  /** A new queue is flagged as listed so that early messages do not list it; its context
      starts with the table's reference and its creator's. */
  const NEW_QUEUE := Queue([], true, false, true, 2, false, [], [], [])

  function Pushed(q: Queue, msg: int): Queue {
    q.(messages := q.messages + [msg], pushed := q.pushed + [msg], inGlobal := true)
  }

  function Delivered(q: Queue): Queue
    requires |q.messages| > 0
  {
    q.(messages := q.messages[1..], delivered := q.delivered + [q.messages[0]])
  }

  function Dropped(q: Queue): Queue
    requires |q.messages| > 0
  {
    q.(messages := q.messages[1..], dropped := q.dropped + [q.messages[0]])
  }

  function ShiftRight(n: nat, k: nat): nat {
    if k == 0 then n else ShiftRight(n / 2, k - 1)
  }

  /** The number of messages of this turn, fixed after the first one. */
  function TurnLength(i: nat, n: nat, left: nat, weight: int): nat {
    if i == 0 && weight >= 0 then ShiftRight(left, weight) else n
  }

  function PowerOfTwo(k: nat): (r: nat)
    ensures r > 0
  {
    if k == 0 then 1 else 2 * PowerOfTwo(k - 1)
  }

  /** A shift by k halves k times: a turn of a worker with weight k covers the 2^k-th part of the
      waiting messages. */
  lemma {:induction false} ShiftIsDivision(n: nat, k: nat)
    ensures ShiftRight(n, k) == n / PowerOfTwo(k)
  {
    if k == 0 {
      assert n / 1 == n;
    } else {
      ShiftIsDivision(n / 2, k - 1);
      HalvesDivide(n, PowerOfTwo(k - 1));
    }
  }

  lemma HalvesDivide(n: nat, p: nat)
    requires p > 0
    ensures n / 2 / p == n / (2 * p)
  {
    var h := n / 2;
    var r := h / p;
    var c := h % p;
    assert h == p * r + c && n - 2 * h < 2;
    var d := n - (2 * p) * r;
    assert (2 * p) * r == 2 * (p * r);
    assert 0 <= d < 2 * p && n == (2 * p) * r + d;
    Quotient(n, 2 * p, r, d);
  }

  lemma Quotient(n: nat, p: nat, r: nat, d: nat)
    requires p > 0 && n == p * r + d && d < p
    ensures n / p == r
  {
    TimesMore(p, n / p, r);
    TimesMore(p, r, n / p);
  }

  lemma TimesMore(p: nat, q: nat, r: nat)
    ensures q > r ==> p * q >= p * r + p
  {
    if q > r {
      assert p * q == p * r + p * (q - r);
      assert p * (q - r) == p + p * (q - r - 1);
    }
  }

  // ---------------------------------------------------------------- threads

  /** Where a thread may go on after dropping a reference. */
  predicate Continues(after: Stage, owned: Option<Id>) {
    match after
    case Free => owned.None?
    case Publishing | Failing | Holding | Disposing => owned.Some?
    case _ => false
  }

  /** Each stage fixes which queues a thread owns and whether it holds a reference; n is the
      number of queues. */
  predicate Fits(th: Thread, n: nat) {
    && (th.owned.Some? ==> th.owned.value < n)
    && (th.refd.Some? ==> th.refd.value < n)
    && match th.stage
       case Free => th.owned.None? && th.refd.None?
       case Sending => th.owned.None? && th.refd.Some?
       case Launching | Running(_, _) => th.owned.Some? && th.refd == th.owned
       case Publishing | Failing | Holding | Disposing | Draining => th.owned.Some? && th.refd.None?
       case Swapping(next) => th.owned.Some? && th.refd == th.owned && next < n
       case Dropping(after) => th.refd.Some? && Continues(after, th.owned)
       case Marking(q, after) => th.refd.None? && q < n && Continues(after, th.owned)
  }

  // ---------------------------------------------------------------- steps

  /** w after thread t became th, queue q became x and the global list became global. */
  function Put(w: World, t: nat, th: Thread, q: Id, x: Queue, global: seq<Id>): World
    requires t < |w.threads| && q < |w.queues|
  {
    World(w.queues[q := x], global, w.threads[t := th])
  }

  predicate Enabled(w: World, t: nat, s: Step) {
    && t < |w.threads| && Fits(w.threads[t], |w.queues|)
    && var th := w.threads[t];
       match s
       case Create => th.stage.Free?
       case LaunchOk => th.stage.Launching?
       case LaunchFail => th.stage.Launching?
       case Publish => th.stage.Publishing?
       case FailRetire => th.stage.Failing?
       case GrabToSend(q) => th.stage.Free? && q < |w.queues| && w.queues[q].registered
       case PushMessage(_) => th.stage.Sending?
       case EndSend => th.stage.Sending?
       case Retire(q) => th.stage.Free? && q < |w.queues| && w.queues[q].registered
       case Drop => th.stage.Dropping? && w.queues[th.refd.value].refs > 0
       case Mark => th.stage.Marking?
       case TakeGlobal => th.stage.Free? && |w.global| > 0 && w.global[0] < |w.queues|
       case Grab => th.stage.Holding?
       case PopMessage(_) => th.stage.Running? && th.stage.i < th.stage.n
       case Rotate => th.stage.Running? && th.stage.i >= th.stage.n && (|w.global| > 0 ==> w.global[0] < |w.queues|)
       case PushBack => th.stage.Swapping?
       case Dispose => th.stage.Disposing?
       case DropMessage => th.stage.Draining? && w.queues[th.owned.value].messages != []
       case Delete => th.stage.Draining? && w.queues[th.owned.value].messages == []
  }

  function Next(w: World, t: nat, s: Step): World
    requires Enabled(w, t, s)
  {
    var th := w.threads[t];
    match s
    case Create =>
      World(w.queues + [NEW_QUEUE], w.global, w.threads[t := Thread(Some(|w.queues|), Some(|w.queues|), Launching)])
    case LaunchOk => w.(threads := w.threads[t := th.(stage := Dropping(Publishing))])
    case LaunchFail => w.(threads := w.threads[t := th.(stage := Dropping(Failing))])
    case Publish => Put(w, t, FREE, th.owned.value, w.queues[th.owned.value], w.global + [th.owned.value])
    case FailRetire =>
      var q := th.owned.value;
      var x := w.queues[q];
      if x.registered then
        Put(w, t, Thread(Some(q), Some(q), Dropping(Disposing)), q, x.(registered := false), w.global)
      else w.(threads := w.threads[t := th.(stage := Disposing)])
    case GrabToSend(q) =>
      Put(w, t, Thread(None, Some(q), Sending), q, w.queues[q].(refs := w.queues[q].refs + 1), w.global)
    case PushMessage(m) =>
      var q := th.refd.value;
      Put(w, t, th, q, Pushed(w.queues[q], m), if w.queues[q].inGlobal then w.global else w.global + [q])
    case EndSend => w.(threads := w.threads[t := th.(stage := Dropping(Free))])
    case Retire(q) => Put(w, t, Thread(None, Some(q), Dropping(Free)), q, w.queues[q].(registered := false), w.global)
    case Drop =>
      var q := th.refd.value;
      var x := w.queues[q];
      var after := th.stage.after;
      Put(w, t, Thread(th.owned, None, if x.refs == 1 then Marking(q, after) else after),
          q, x.(refs := x.refs - 1), w.global)
    case Mark =>
      var q := th.stage.queue;
      var x := w.queues[q];
      Put(w, t, th.(stage := th.stage.after), q, x.(release := true), if x.inGlobal then w.global else w.global + [q])
    case TakeGlobal =>
      var q := w.global[0];
      Put(w, t, Thread(Some(q), None, Holding), q, w.queues[q], w.global[1..])
    case Grab =>
      var q := th.owned.value;
      var x := w.queues[q];
      if x.registered then Put(w, t, Thread(Some(q), Some(q), Running(0, 1)), q, x.(refs := x.refs + 1), w.global)
      else w.(threads := w.threads[t := th.(stage := Disposing)])
    case PopMessage(weight) =>
      var q := th.owned.value;
      var x := w.queues[q];
      if x.messages == [] then Put(w, t, Thread(None, Some(q), Dropping(Free)), q, x.(inGlobal := false), w.global)
      else
        var y := Delivered(x);
        var n := TurnLength(th.stage.i, th.stage.n, |y.messages|, weight);
        Put(w, t, th.(stage := Running(th.stage.i + 1, n)), q, y, w.global)
    case Rotate =>
      if w.global == [] then w.(threads := w.threads[t := th.(stage := Dropping(Holding))])
      else
        var next := w.global[0];
        Put(w, t, th.(stage := Swapping(next)), next, w.queues[next], w.global[1..])
    case PushBack =>
      var q := th.owned.value;
      Put(w, t, Thread(Some(th.stage.next), Some(q), Dropping(Holding)), q, w.queues[q], w.global + [q])
    case Dispose =>
      var q := th.owned.value;
      if w.queues[q].release then w.(threads := w.threads[t := th.(stage := Draining)])
      else Put(w, t, FREE, q, w.queues[q], w.global + [q])
    case DropMessage => Put(w, t, th, th.owned.value, Dropped(w.queues[th.owned.value]), w.global)
    case Delete =>
      var q := th.owned.value;
      Put(w, t, FREE, q, w.queues[q].(inGlobal := false, deleted := true), w.global)
  }

  // ---------------------------------------------------------------- runs

  datatype Act = Act(thread: nat, step: Step)

  ghost predicate Possible(w: World, acts: seq<Act>)
    decreases |acts|
  {
    |acts| > 0 ==>
      Enabled(w, acts[0].thread, acts[0].step) && Possible(Next(w, acts[0].thread, acts[0].step), acts[1..])
  }

  ghost function Run(w: World, acts: seq<Act>): World
    requires Possible(w, acts)
    decreases |acts|
  {
    if |acts| == 0 then w else Run(Next(w, acts[0].thread, acts[0].step), acts[1..])
  }

  // ---------------------------------------------------------------- who has a queue

  function Owns(q: Id): Thread -> nat {
    (th: Thread) => (if th.owned == Some(q) then 1 else 0) + if th.stage.Swapping? && th.stage.next == q then 1 else 0
  }

  function Refers(q: Id): Thread -> nat {
    (th: Thread) => if th.refd == Some(q) then 1 else 0
  }

  function Marks(q: Id): Thread -> nat {
    (th: Thread) => if th.stage.Marking? && th.stage.queue == q then 1 else 0
  }

  function Is(q: Id): Id -> nat {
    (id: Id) => if id == q then 1 else 0
  }

  /** How many times a queue is listed or owned. */
  function Tokens(w: World, q: Id): nat {
    Total(w.threads, Owns(q)) + Total(w.global, Is(q))
  }

  function Holders(w: World, q: Id): nat {
    Total(w.threads, Refers(q))
  }

  function Markers(w: World, q: Id): nat {
    Total(w.threads, Marks(q))
  }
}
