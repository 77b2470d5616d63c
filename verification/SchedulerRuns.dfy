/** Runs of real queues on a real global list: after any run of the scheduler the objects are what
    the machine says, and every queue that is not listed has a null link. */
module SchedulerRuns {
  import opened Basics
  import opened Scheduler
  import opened SchedulerInvariant
  import opened SchedulerTheorems
  import opened SchedulerObjects

  ghost predicate Distinct(qs: seq<MessageQueue>) {
    forall i, j :: 0 <= i < j < |qs| ==> qs[i] != qs[j]
  }

  /** The objects show the queues and the list of the machine. */
  ghost predicate Shows(g: GlobalQueue, qs: seq<MessageQueue>, queues: seq<Queue>, global: seq<Id>)
    reads g, g.contents, qs
  {
    && g.Valid() && Distinct(qs) && |qs| == |queues| && |g.contents| == |global|
    && (forall i :: 0 <= i < |qs| ==> qs[i].Valid() && qs[i].View() == FieldsOf(queues[i]))
    && (forall k :: 0 <= k < |global| ==> global[k] < |qs| && g.contents[k] == qs[global[k]])
    && (forall i :: 0 <= i < |qs| && qs[i] !in g.contents ==> qs[i].next == null)
  }

  /** Only the fields of the queues matter to the objects. */
  lemma SameFields(g: GlobalQueue, qs: seq<MessageQueue>, queues: seq<Queue>, queues': seq<Queue>, global: seq<Id>)
    requires Shows(g, qs, queues, global) && |queues'| == |queues|
    requires forall i :: 0 <= i < |queues| ==> FieldsOf(queues'[i]) == FieldsOf(queues[i])
    ensures Shows(g, qs, queues', global)
  {
  }

  lemma ListedAs(g: GlobalQueue, qs: seq<MessageQueue>, queues: seq<Queue>, global: seq<Id>, q: Id)
    requires Shows(g, qs, queues, global) && q < |qs|
    ensures qs[q] in g.contents <==> q in global
    ensures qs[q].Valid() && qs[q].View() == FieldsOf(queues[q]) && (q !in global ==> qs[q].next == null)
  {
    if qs[q] in g.contents {
      var k :| 0 <= k < |g.contents| && g.contents[k] == qs[q];
      assert global[k] == q;
    }
  }

  method ListOne(g: GlobalQueue, qs: seq<MessageQueue>, ghost queues: seq<Queue>, ghost global: seq<Id>, q: nat)
    requires Shows(g, qs, queues, global) && q < |qs| && q !in global
    modifies g, g.contents, qs[q]
    ensures Shows(g, qs, queues, global + [q])
  {
    hide GlobalQueue.Valid;
    ListedAs(g, qs, queues, global, q);
    g.Push(qs[q]);
    assert forall i :: 0 <= i < |qs| && i != q ==> qs[i] != qs[q];
    assert queues[q := queues[q]] == queues;
  }

  method SendOne(g: GlobalQueue, qs: seq<MessageQueue>, ghost queues: seq<Queue>, ghost global: seq<Id>,
                 q: nat, msg: int)
    requires Shows(g, qs, queues, global) && q < |qs| && (!queues[q].inGlobal ==> q !in global)
    modifies g, g.contents, qs[q]
    ensures Shows(g, qs, queues[q := Pushed(queues[q], msg)], if queues[q].inGlobal then global else global + [q])
  {
    hide GlobalQueue.Valid, Pushed;
    ListedAs(g, qs, queues, global, q);
    qs[q].Push(msg, g, queues[q]);
    assert forall i :: 0 <= i < |qs| && i != q ==> qs[i] != qs[q];
  }

  function Marked(x: Queue): Queue { x.(release := true) }

  lemma MarkedFields(x: Queue)
    ensures FieldsOf(Marked(x)) == FieldsOf(x.(release := true)) && FieldsOf(x).release == x.release
    ensures FieldsOf(x).inGlobal == x.inGlobal
  {
  }

  method MarkOne(g: GlobalQueue, qs: seq<MessageQueue>, ghost queues: seq<Queue>, ghost global: seq<Id>, q: nat)
    requires Shows(g, qs, queues, global) && q < |qs| && !queues[q].release
    requires !queues[q].inGlobal ==> q !in global
    modifies g, g.contents, qs[q]
    ensures Shows(g, qs, queues[q := Marked(queues[q])], if queues[q].inGlobal then global else global + [q])
  {
    hide GlobalQueue.Valid, Marked, FieldsOf;
    MarkedFields(queues[q]);
    ListedAs(g, qs, queues, global, q);
    qs[q].MarkRelease(g, queues[q]);
    assert forall i :: 0 <= i < |qs| && i != q ==> qs[i] != qs[q];
  }

  method UnlistOne(g: GlobalQueue, qs: seq<MessageQueue>, ghost queues: seq<Queue>, ghost global: seq<Id>)
    requires Shows(g, qs, queues, global) && global != []
    modifies g, g.contents
    ensures Shows(g, qs, queues, global[1..])
  {
    var q := g.Pop();
  }

  method PopOne(g: GlobalQueue, qs: seq<MessageQueue>, ghost queues: seq<Queue>, ghost global: seq<Id>, q: nat)
    requires Shows(g, qs, queues, global) && q < |qs|
    modifies qs[q]
    ensures
      var x := queues[q];
      Shows(g, qs, queues[q := if x.messages == [] then x.(inGlobal := false) else Delivered(x)], global)
  {
    ListedAs(g, qs, queues, global, q);
    var msg := qs[q].Pop(queues[q]);
  }

  // ---------------------------------------------------------------- one step of the machine

  /** What a step does to queues and list, of those that only list a queue again. */
  lemma ListingStep(w: World, t: nat, s: Step, q: Id)
    requires Inv(w) && Enabled(w, t, s) && w.threads[t].owned == Some(q)
    requires s.Publish? || s.PushBack? || (s.Dispose? && !w.queues[q].release)
    ensures q < |w.queues| && q !in w.global
    ensures Next(w, t, s).queues == w.queues && Next(w, t, s).global == w.global + [q]
  {
    hide Inv;
    assert w.queues[q := w.queues[q]] == w.queues;
    ListedQueueIsUnlisted(w, t, s, q);
  }

  lemma SendingStep(w: World, t: nat, s: Step)
    requires Inv(w) && Enabled(w, t, s) && s.PushMessage?
    ensures
      var q := w.threads[t].refd.value;
      && q < |w.queues| && (!w.queues[q].inGlobal ==> q !in w.global)
      && Next(w, t, s).queues == w.queues[q := Pushed(w.queues[q], s.msg)]
      && Next(w, t, s).global == if w.queues[q].inGlobal then w.global else w.global + [q]
  {
    hide Inv, Pushed;
    var q := w.threads[t].refd.value;
    if !w.queues[q].inGlobal { ListedQueueIsUnlisted(w, t, s, q); }
  }

  lemma MarkingStep(w: World, t: nat, s: Step)
    requires Inv(w) && Enabled(w, t, s) && s.Mark?
    ensures
      var q := w.threads[t].stage.queue;
      && q < |w.queues| && !w.queues[q].release && (!w.queues[q].inGlobal ==> q !in w.global)
      && Next(w, t, s).queues == w.queues[q := Marked(w.queues[q])]
      && Next(w, t, s).global == if w.queues[q].inGlobal then w.global else w.global + [q]
  {
    hide Inv;
    var q := w.threads[t].stage.queue;
    MarkedOnce(w, t, q);
    if !w.queues[q].inGlobal { ListedQueueIsUnlisted(w, t, s, q); }
  }

  lemma MarkedOnce(w: World, t: nat, q: Id)
    requires Inv(w) && t < |w.threads| && q < |w.queues| && w.threads[t].stage.Marking? && w.threads[t].stage.queue == q
    ensures !w.queues[q].release
  {
    hide Tokens, Holders;
    assert QueueOk(w.queues[q], Tokens(w, q), Holders(w, q), Markers(w, q));
    ThreadCounts(w, t, q);
  }

  lemma PoppingStep(w: World, t: nat, s: Step)
    requires Enabled(w, t, s) && (s.PopMessage? || s.DropMessage? || s.Delete?)
    ensures
      var q := w.threads[t].owned.value;
      && q < |w.queues| && Next(w, t, s).global == w.global && |Next(w, t, s).queues| == |w.queues|
      && var x := w.queues[q];
         var y := if x.messages == [] then x.(inGlobal := false) else Delivered(x);
         forall i :: 0 <= i < |w.queues| ==>
           FieldsOf(Next(w, t, s).queues[i]) == FieldsOf(w.queues[q := y][i])
  {
    hide TurnLength;
  }

  lemma UnlistingStep(w: World, t: nat, s: Step)
    requires Enabled(w, t, s) && (s.TakeGlobal? || s.Rotate?)
    ensures Next(w, t, s).queues == w.queues
    ensures Next(w, t, s).global == if w.global == [] then [] else w.global[1..]
  {
    if w.global != [] { assert w.queues[w.global[0] := w.queues[w.global[0]]] == w.queues; }
  }

  /** Steps that only move threads and count references. */
  predicate IsQuiet(s: Step) {
    || s.LaunchOk? || s.LaunchFail? || s.FailRetire? || s.GrabToSend? || s.EndSend? || s.Retire? || s.Drop? || s.Grab?
  }

  lemma QuietStep(w: World, t: nat, s: Step)
    requires Enabled(w, t, s) && (IsQuiet(s) || (s.Dispose? && w.queues[w.threads[t].owned.value].release))
    ensures Next(w, t, s).global == w.global && |Next(w, t, s).queues| == |w.queues|
    ensures forall i :: 0 <= i < |w.queues| ==> FieldsOf(Next(w, t, s).queues[i]) == FieldsOf(w.queues[i])
  {
  }

  /** The methods of the objects do what a step of the machine says. */
  method StepOne(g: GlobalQueue, qs: seq<MessageQueue>, w: World, t: nat, s: Step) returns (qs': seq<MessageQueue>)
    requires Inv(w) && Enabled(w, t, s) && Shows(g, qs, w.queues, w.global)
    modifies g, qs
    ensures Shows(g, qs', Next(w, t, s).queues, Next(w, t, s).global)
    ensures forall i :: 0 <= i < |qs'| ==> qs'[i] in qs || fresh(qs'[i])
  {
    hide Inv, Shows, Next, Delivered, Pushed;
    ContentsAreShown(g, qs, w.queues, w.global);
    qs' := qs;
    var th := w.threads[t];
    if s.Create? {
      qs' := CreateOne(g, qs, w.queues, w.global);
      CreatingStep(w, t);
    } else if s.PushMessage? {
      SendingStep(w, t, s);
      SameLength(g, qs, w.queues, w.global);
      SendOne(g, qs, w.queues, w.global, th.refd.value, s.msg);
    } else if s.Mark? {
      MarkingStep(w, t, s);
      SameLength(g, qs, w.queues, w.global);
      MarkOne(g, qs, w.queues, w.global, th.stage.queue);
    } else if s.TakeGlobal? || s.Rotate? {
      UnlistingStep(w, t, s);
      if w.global != [] { UnlistOne(g, qs, w.queues, w.global); }
    } else if s.PopMessage? || s.DropMessage? || s.Delete? {
      PoppingStep(w, t, s);
      SameLength(g, qs, w.queues, w.global);
      PopOne(g, qs, w.queues, w.global, th.owned.value);
      var x := w.queues[th.owned.value];
      SameFields(g, qs, w.queues[th.owned.value := if x.messages == [] then x.(inGlobal := false) else Delivered(x)],
                 Next(w, t, s).queues, w.global);
    } else if IsQuiet(s) || (s.Dispose? && w.queues[th.owned.value].release) {
      QuietStep(w, t, s);
      SameFields(g, qs, w.queues, Next(w, t, s).queues, w.global);
    } else {
      ListingStep(w, t, s, th.owned.value);
      SameLength(g, qs, w.queues, w.global);
      ListOne(g, qs, w.queues, w.global, th.owned.value);
    }
  }

  lemma SameLength(g: GlobalQueue, qs: seq<MessageQueue>, queues: seq<Queue>, global: seq<Id>)
    requires Shows(g, qs, queues, global)
    ensures |qs| == |queues|
  {
  }

  lemma CreatingStep(w: World, t: nat)
    requires Enabled(w, t, Create)
    ensures Next(w, t, Create).queues == w.queues + [NEW_QUEUE] && Next(w, t, Create).global == w.global
  {
  }

  method CreateOne(g: GlobalQueue, qs: seq<MessageQueue>, ghost queues: seq<Queue>, ghost global: seq<Id>)
    returns (qs': seq<MessageQueue>)
    requires Shows(g, qs, queues, global)
    ensures Shows(g, qs', queues + [NEW_QUEUE], global)
    ensures forall i :: 0 <= i < |qs'| ==> qs'[i] in qs || fresh(qs'[i])
  {
    hide GlobalQueue.Valid;
    var q := new MessageQueue();
    qs' := qs + [q];
  }

  /** Any run of the scheduler on real queues and a real list. */
  method RunObjects(n: nat, acts: seq<Act>) returns (g: GlobalQueue, qs: seq<MessageQueue>)
    requires Possible(Start(n), acts)
    ensures Shows(g, qs, Run(Start(n), acts).queues, Run(Start(n), acts).global)
  {
    hide Inv, Shows, Next, Enabled, Start;
    g := new GlobalQueue();
    qs := [];
    var w, k := Start(n), 0;
    NothingShown(g, n);
    StartIsInv(n);
    assert acts[0..] == acts;
    while k < |acts|
      invariant k <= |acts| && fresh(g) && forall i :: 0 <= i < |qs| ==> fresh(qs[i])
      invariant Inv(w) && Possible(w, acts[k..]) && Run(w, acts[k..]) == Run(Start(n), acts)
      invariant Shows(g, qs, w.queues, w.global)
    {
      var t, s := acts[k].thread, acts[k].step;
      assert acts[k..][0] == acts[k] && acts[k..][1..] == acts[k + 1..];
      StepKeepsInv(w, t, s);
      qs := StepOne(g, qs, w, t, s);
      w := Next(w, t, s);
      k := k + 1;
    }
    assert acts[k..] == [];
  }

  lemma NothingShown(g: GlobalQueue, n: nat)
    requires g.Valid() && g.contents == []
    ensures Shows(g, [], Start(n).queues, Start(n).global)
  {
  }

  lemma ContentsAreShown(g: GlobalQueue, qs: seq<MessageQueue>, queues: seq<Queue>, global: seq<Id>)
    requires Shows(g, qs, queues, global)
    ensures forall k :: 0 <= k < |g.contents| ==> g.contents[k] in qs
  {
  }
}
