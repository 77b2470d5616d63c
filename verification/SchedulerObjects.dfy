/** The queue objects: the intrusive global list and the per-service queue, whose methods do
    to their fields what the scheduler's steps do to a queue value. */
module SchedulerObjects {
  import opened Basics
  import opened Scheduler

  const OVERLOAD: nat := 1024

  /** The fields of a message queue that the scheduler's steps speak about. */
  datatype Fields = Fields(messages: seq<int>, inGlobal: bool, release: bool)

  function FieldsOf(x: Queue): Fields {
    Fields(x.messages, x.inGlobal, x.release)
  }

  /** The threshold doubled until it covers size. */
  function Raised(threshold: nat, size: nat): nat
    requires threshold > 0
    decreases size - threshold
  {
    if size > threshold then Raised(2 * threshold, size) else threshold
  }

  /** It is the least such multiple, and unchanged exactly when it already covered size. */
  lemma {:induction false} RaisedIsLeast(threshold: nat, size: nat)
    requires threshold > 0
    ensures size <= Raised(threshold, size)
    ensures Raised(threshold, size) == threshold <==> size <= threshold
    ensures size > threshold ==> Raised(threshold, size) < 2 * size
    decreases size - threshold
  {
    if size > threshold {
      RaisedIsLeast(2 * threshold, size);
    }
  }

  lemma TakeOne(s: seq<int>, k: nat)
    requires k < |s|
    ensures s[..k] + [s[k]] == s[..k + 1]
    ensures k + 1 < |s| ==> s[k + 1..][0] == s[k + 1] && s[k + 1..][1..] == s[k + 2..]
    ensures k + 1 == |s| ==> s[k + 1..] == []
  {
  }

  lemma {:induction false} ShiftShrinks(n: nat, k: nat)
    ensures ShiftRight(n, k) <= n
  {
    if k > 0 {
      ShiftShrinks(n / 2, k - 1);
    }
  }

  /** How many of the waiting messages one turn delivers. */
  function TurnSize(waiting: nat, weight: int): (r: nat)
    ensures r <= waiting
  {
    if waiting == 0 then 0
    else if weight < 0 || ShiftRight(waiting - 1, weight) == 0 then 1
    else
      ShiftShrinks(waiting - 1, weight);
      ShiftRight(waiting - 1, weight)
  }

  class MessageQueue {
    var messages: seq<int>
    var release: bool
    var inGlobal: bool
    var overload: nat
    var threshold: nat
    var next: MessageQueue?
    ghost var place: int

    ghost predicate Valid()
      reads this
    {
      threshold > 0
    }

    ghost function View(): Fields
      reads this
    {
      Fields(messages, inGlobal, release)
    }

    constructor ()
      ensures Valid() && View() == FieldsOf(NEW_QUEUE) && next == null && place == -1
      ensures overload == 0 && threshold == OVERLOAD
    {
      messages, release, inGlobal := [], false, true;
      overload, threshold, next, place := 0, OVERLOAD, null, -1;
    }

    /** Appends a message and lists the queue unless it is flagged as listed. */
    method Push(msg: int, g: GlobalQueue, ghost x: Queue)
      requires Valid() && g.Valid() && View() == FieldsOf(x)
      requires !inGlobal ==> this !in g.contents && next == null
      modifies this, g, g.contents
      ensures Valid() && g.Valid() && View() == FieldsOf(Pushed(x, msg))
      ensures g.contents == if old(inGlobal) then old(g.contents) else old(g.contents) + [this]
      ensures old(inGlobal) ==> next == old(next)
      ensures forall q <- old(g.contents) :: q != this ==> q.View() == old(q.View()) && q.Valid()
      ensures overload == old(overload) && threshold == old(threshold)
    {
      messages := messages + [msg];
      if !inGlobal {
        inGlobal := true;
        g.Push(this);
      }
    }

    /** Marks the queue for release and lists it unless it is flagged as listed. */
    method MarkRelease(g: GlobalQueue, ghost x: Queue)
      requires Valid() && g.Valid() && View() == FieldsOf(x) && !release
      requires !inGlobal ==> this !in g.contents && next == null
      modifies this, g, g.contents
      ensures Valid() && g.Valid() && View() == FieldsOf(x.(release := true))
      ensures g.contents == if old(inGlobal) then old(g.contents) else old(g.contents) + [this]
      ensures old(inGlobal) ==> next == old(next)
      ensures forall q <- old(g.contents) :: q != this ==> q.View() == old(q.View()) && q.Valid()
    {
      release := true;
      if !inGlobal {
        g.Push(this);
      }
    }

    /** Removes the first message; an empty queue reports that and clears its flag. */
    method Pop(ghost x: Queue) returns (msg: Option<int>)
      requires Valid() && View() == FieldsOf(x)
      modifies this`messages, this`inGlobal, this`overload, this`threshold
      ensures Valid() && messages == if old(messages) == [] then [] else old(messages)[1..]
      ensures inGlobal == (old(messages) != [] && old(inGlobal))
      ensures old(messages) == [] ==> msg.None? && View() == FieldsOf(x.(inGlobal := false))
      ensures old(messages) == [] ==> threshold == OVERLOAD && overload == old(overload)
      ensures old(messages) != [] ==> msg == Some(old(messages)[0]) && View() == FieldsOf(Delivered(x))
      ensures old(messages) != [] ==> threshold == Raised(old(threshold), |messages|)
      ensures old(messages) != [] ==> overload == if |messages| > old(threshold) then |messages| else old(overload)
    {
      if messages == [] {
        threshold, inGlobal := OVERLOAD, false;
        return None;
      }
      msg := Some(messages[0]);
      messages := messages[1..];
      while |messages| > threshold
        invariant 0 < threshold && Raised(threshold, |messages|) == Raised(old(threshold), |messages|)
        invariant threshold == old(threshold) || |messages| > old(threshold)
        invariant threshold >= old(threshold) && messages == old(messages)[1..] && inGlobal == old(inGlobal)
        invariant overload == if threshold == old(threshold) then old(overload) else |messages|
        decreases |messages| - threshold
      {
        overload := |messages|;
        threshold := threshold * 2;
      }
    }

    /** A marked queue hands out its remaining messages to be dropped, in order; an unmarked one
        is listed again. */
    method Release(g: GlobalQueue, ghost x: Queue) returns (dropped: seq<int>)
      requires Valid() && g.Valid() && View() == FieldsOf(x)
      requires !release ==> this !in g.contents && next == null
      modifies this, g, g.contents
      ensures Valid() && g.Valid()
      ensures old(release) ==> dropped == old(messages) && View() == Fields([], false, true)
      ensures old(release) ==> g.contents == old(g.contents)
      ensures !old(release) ==> dropped == [] && View() == FieldsOf(x) && g.contents == old(g.contents) + [this]
      ensures forall q <- old(g.contents) :: q != this ==> q.View() == old(q.View()) && q.Valid()
    {
      if release {
        dropped := Drain();
      } else {
        g.Push(this);
        dropped := [];
      }
    }

    /** Pops until the queue reports that it is empty. */
    method Drain() returns (dropped: seq<int>)
      requires Valid()
      modifies this`messages, this`inGlobal, this`overload, this`threshold
      ensures Valid() && dropped == old(messages) && messages == [] && !inGlobal
    {
      hide Raised, Delivered;
      ghost var was := messages;
      dropped := [];
      var msg := Pop(Queue(messages, inGlobal, release, true, 0, false, [], [], []));
      while msg.Some?
        invariant Valid() && |dropped| <= |was| && dropped == was[..|dropped|]
        invariant msg.Some? ==> |dropped| < |was| && msg.value == was[|dropped|] && messages == was[|dropped| + 1..]
        invariant msg.None? ==> |dropped| == |was| && messages == [] && !inGlobal
        decreases if msg.Some? then |messages| + 1 else 0
      {
        TakeOne(was, |dropped|);
        dropped := dropped + [msg.value];
        msg := Pop(Queue(messages, inGlobal, release, true, 0, false, [], [], []));
      }
    }

    /** The dispatch loop of one turn while nobody else pushes: messages are delivered from the
        front, as many as the weight of the worker allows of those behind the first, and one at
        least. */
    method Turn(weight: int) returns (delivered: seq<int>, emptied: bool)
      requires Valid()
      modifies this`messages, this`inGlobal, this`overload, this`threshold
      ensures Valid() && emptied == (old(messages) == [])
      ensures delivered + messages == old(messages)
      ensures old(messages) != [] && weight < 0 ==> |delivered| == 1
      ensures
        old(messages) != [] && weight >= 0 ==>
          var share := (|old(messages)| - 1) / PowerOfTwo(weight);
          |delivered| == if share > 1 then share else 1
      ensures inGlobal == (!emptied && old(inGlobal))
    {
      hide Raised, ShiftRight, PowerOfTwo, Delivered;
      ghost var was := messages;
      if was != [] && weight >= 0 {
        ShiftIsDivision(|was| - 1, weight);
      }
      delivered := [];
      var i, n := 0, 1;
      while i < n
        invariant Valid() && inGlobal == old(inGlobal)
        invariant 0 <= i <= |was| && delivered == was[..i] && messages == was[i..]
        invariant i == 0 ==> n == 1
        invariant i > 0 ==> i <= TurnSize(|was|, weight)
        invariant i > 0 ==> n == if weight >= 0 then ShiftRight(|was| - 1, weight) else 1
        decreases |was| - i, n - i
      {
        var msg := Pop(Queue(messages, inGlobal, release, true, 0, false, [], [], []));
        if msg.None? {
          return delivered, true;
        }
        TakeOne(was, i);
        n := TurnLength(i, n, |messages|, weight);
        delivered, i := delivered + [msg.value], i + 1;
      }
      emptied := false;
    }
  }

  class GlobalQueue {
    var head: MessageQueue?
    var tail: MessageQueue?
    ghost var contents: seq<MessageQueue>
    ghost var base: nat

    /** The links run through contents in order; places make its members distinct. */
    ghost predicate Valid()
      reads this, contents
    {
      && (forall i :: 0 <= i < |contents| ==> contents[i].place == base + i && contents[i].Valid())
      && (forall i :: 0 <= i < |contents| - 1 ==> contents[i].next == contents[i + 1])
      && if contents == [] then head == null && tail == null
         else head == contents[0] && tail == contents[|contents| - 1] && tail.next == null
    }

    constructor ()
      ensures Valid() && contents == []
    {
      head, tail, contents, base := null, null, [], 0;
    }

    /** Links a queue behind the tail. */
    method Push(q: MessageQueue)
      requires Valid() && q.Valid() && q !in contents && q.next == null
      modifies this, contents, q
      ensures Valid() && contents == old(contents) + [q]
      ensures forall p <- contents :: p.View() == old(p.View()) && p.Valid()
      ensures q.overload == old(q.overload) && q.threshold == old(q.threshold)
    {
      if tail != null {
        tail.next := q;
        tail := q;
      } else {
        head, tail := q, q;
      }
      q.place := base + |contents|;
      contents := contents + [q];
    }

    /** Unlinks the head. */
    method Pop() returns (q: MessageQueue?)
      requires Valid()
      modifies this, contents
      ensures Valid()
      ensures old(contents) == [] ==> q == null && contents == []
      ensures old(contents) != [] ==> q == old(contents)[0] && q.next == null && q !in contents
      ensures old(contents) != [] ==> contents == old(contents)[1..]
      ensures forall p <- old(contents) :: p.View() == old(p.View()) && p.Valid()
    {
      q := head;
      if q != null {
        head := q.next;
        if head == null {
          tail := null;
        }
        q.next := null;
        q.place := -1;
        contents, base := contents[1..], base + 1;
      }
    }
  }
}
