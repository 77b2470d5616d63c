/** Every run of the machine has callers that each make one call after another. */
module SocketCallers {
  import opened Basics
  import opened SocketSlot
  import opened SocketServer
  import opened SocketInvariants
  import opened SocketSteps
  import opened SocketTidy
  import opened SocketSenders

  ghost function In(phases: map<nat, Phase>, x: Phase): set<nat> {
    set t | t in phases && phases[t] == x
  }

  /** As many threads in x after the update, but for the one that moved. */
  lemma InUpdate(phases: map<nat, Phase>, t: nat, next: Phase, x: Phase)
    requires !x.Idle?
    ensures
      var was := t in phases && phases[t] == x;
      |In(phases[t := next], x)| == |In(phases, x)| - (if was then 1 else 0) + (if next == x then 1 else 0)
  {
    InIs(phases, t, next, x);
    hide In;
  }

  lemma InIs(phases: map<nat, Phase>, t: nat, next: Phase, x: Phase)
    ensures In(phases[t := next], x) == if next == x then In(phases, x) + {t} else In(phases, x) - {t}
    ensures t in In(phases, x) <==> t in phases && phases[t] == x
  {
  }

  /** Each thread that the machine counts is one of those followed. */
  ghost predicate Staffed(c: Crowd) {
    && (forall id: nat {:trigger c.w.tested[id]} :: |In(c.phases, Tested(id))| == c.w.tested[id])
    && (forall id: nat {:trigger c.w.aboutToSend[id]} :: |In(c.phases, Queueing(id))| == c.w.aboutToSend[id])
    && (forall id: nat {:trigger c.w.aboutToTrigger[id]} :: |In(c.phases, Stored(id))| == c.w.aboutToTrigger[id])
    && (c.w.lock != Unlocked ==> In(c.phases, Holding) != {})
  }

  lemma CountsOfCallers(w: World, a: Action)
    requires Enabled(w, a)
    ensures
      var w' := Next(w, a);
      && w'.tested == (if a.Test? then w.tested + multiset{a.id}
                       else if a.Look? then w.tested - multiset{w.sock.id} else w.tested)
      && w'.aboutToSend == (if a.CountSend? then w.aboutToSend + multiset{a.id}
                            else if a.PostSend? then w.aboutToSend - multiset{a.id} else w.aboutToSend)
      && w'.aboutToTrigger == (if a.StoreDirect? then w.aboutToTrigger + multiset{w.sock.id}
                               else if a.PostTrigger? then w.aboutToTrigger - multiset{a.id} else w.aboutToTrigger)
  {
    hide Enabled, Next, AfterLock, AfterPosting, AfterEvent, AfterHandle, AfterFinish, AfterTaking, Posting;
    if ByLock(a) {
      LockFrame(w, a);
    } else if a.Test? {
      TestFrame(w, a);
    } else if a.CountSend? {
      CountFrame(w, a);
    } else if a.PostOpen? || a.PostSend? || a.PostTrigger? || a.PostClose? || a.PostResume? {
      PostsSomething(w, a);
      PostedIs(w, a);
      PostFrame(w, a);
    } else {
      SocketThreadCounts(w, a);
    }
  }

  lemma PostedIs(w: World, a: Action)
    requires Posting(w, a).Some?
    ensures a.PostSend? <==> Posting(w, a).value.ReqSend?
    ensures a.PostTrigger? <==> Posting(w, a).value.ReqTrigger?
    ensures a.PostSend? || a.PostTrigger? ==> Posting(w, a).value.id == a.id
  {
  }

  lemma SocketThreadCounts(w: World, a: Action)
    requires Enabled(w, a) && !ByWorker(a)
    ensures
      var w' := Next(w, a);
      w'.tested == w.tested && w'.aboutToSend == w.aboutToSend && w'.aboutToTrigger == w.aboutToTrigger
  {
    hide HandleResult, EventResult, RequestClosing, EventClosing, Drops, AfterLock, AfterPosting, IncSendingRef;
    hide BuffersOk, TakesEvents, Aborts, ForceClose, Published;
  }

  /** The phase in which a thread takes a step in the runs built here. */
  function Before(w: World, a: Action): Phase {
    match a
    case PostSend(id, _, _) => Queueing(id)
    case Look => Tested(w.sock.id)
    case Pass(_) => Holding
    case GiveUp => Holding
    case WriteDirect(_) => Holding
    case StoreDirect => Holding
    case PostTrigger(id) => Stored(id)
    case _ => Idle
  }

  lemma NewThread(s: set<nat>) returns (t: nat)
    ensures t !in s
  {
    t := AboveAll(s);
  }

  lemma {:induction false} AboveAll(s: set<nat>) returns (t: nat)
    ensures forall x :: x in s ==> x < t
    decreases s
  {
    if s == {} {
      t := 0;
    } else {
      var y :| y in s;
      var u := AboveAll(s - {y});
      t := if y < u then u else y + 1;
      assert forall x :: x in s ==> x == y || x in s - {y};
    }
  }

  /** Some thread is where the step asks for one. */
  lemma SomeThread(c: Crowd, a: Action) returns (t: nat)
    requires Staffed(c) && Enabled(c.w, a)
    ensures PhaseOf(c, t) == Before(c.w, a) && May(c, t, a)
  {
    hide Next;
    var x := Before(c.w, a);
    if x.Idle? {
      t := NewThread(c.phases.Keys);
    } else {
      ThreadsIn(c, a);
      t :| t in In(c.phases, x);
    }
  }

  lemma ThreadsIn(c: Crowd, a: Action)
    requires Staffed(c) && Enabled(c.w, a) && !Before(c.w, a).Idle?
    ensures In(c.phases, Before(c.w, a)) != {}
  {
    hide Next, In;
    match a {
      case PostSend(id, _, _) => assert c.w.aboutToSend[id] > 0;
      case Look => assert c.w.tested[c.w.sock.id] > 0;
      case PostTrigger(id) => assert c.w.aboutToTrigger[id] > 0;
      case _ =>
    }
    assert a.PostSend? || a.Look? || a.PostTrigger? ==> |In(c.phases, Before(c.w, a))| > 0;
  }

  /** Where a thread comes from and goes to with its step. */
  lemma MovesOfCallers(c: Crowd, t: nat, a: Action)
    requires May(c, t, a) && PhaseOf(c, t) == Before(c.w, a)
    ensures Enabled(c.w, a)
    ensures
      var now, next := Before(c.w, a), PhaseAfter(c, t, a);
      && (now.Tested? ==> a.Look? && now.id == c.w.sock.id) && (a.Look? ==> now.Tested?)
      && (next.Tested? ==> a.Test? && next.id == a.id) && (a.Test? ==> next.Tested?)
      && (now.Queueing? ==> a.PostSend? && now.id == a.id) && (a.PostSend? ==> now.Queueing?)
      && (next.Queueing? ==> a.CountSend? && next.id == a.id) && (a.CountSend? ==> next.Queueing?)
      && (now.Stored? ==> a.PostTrigger? && now.id == a.id) && (a.PostTrigger? ==> now.Stored?)
      && (next.Stored? ==> a.StoreDirect? && next.id == c.w.sock.id) && (a.StoreDirect? ==> next.Stored?)
      && (a.Look? ==> c.w.tested[c.w.sock.id] > 0)
      && (a.PostSend? ==> c.w.aboutToSend[a.id] > 0) && (a.PostTrigger? ==> c.w.aboutToTrigger[a.id] > 0)
  {
    hide Next;
  }

  /** A thread that moves as its step says takes the counts along. */
  lemma CountsMove(c: Crowd, t: nat, a: Action, id: nat)
    requires May(c, t, a) && PhaseOf(c, t) == Before(c.w, a)
    ensures
      var now, next := Before(c.w, a), PhaseAfter(c, t, a);
      && Next(c.w, a).tested[id] == c.w.tested[id]
           - (if now == Tested(id) then 1 else 0) + (if next == Tested(id) then 1 else 0)
      && Next(c.w, a).aboutToSend[id] == c.w.aboutToSend[id]
           - (if now == Queueing(id) then 1 else 0) + (if next == Queueing(id) then 1 else 0)
      && Next(c.w, a).aboutToTrigger[id] == c.w.aboutToTrigger[id]
           - (if now == Stored(id) then 1 else 0) + (if next == Stored(id) then 1 else 0)
  {
    hide Next, Enabled, May, Before, PhaseAfter, PhaseOf;
    MovesOfCallers(c, t, a);
    CountsOfCallers(c.w, a);
  }

  lemma StaffedAt(c: Crowd, t: nat, a: Action, id: nat)
    requires Staffed(c) && May(c, t, a) && PhaseOf(c, t) == Before(c.w, a)
    ensures
      var c' := After(c, t, a);
      && |In(c'.phases, Tested(id))| == c'.w.tested[id]
      && |In(c'.phases, Queueing(id))| == c'.w.aboutToSend[id]
      && |In(c'.phases, Stored(id))| == c'.w.aboutToTrigger[id]
  {
    hide Next, Enabled, In, May, Before, PhaseAfter;
    CountsMove(c, t, a, id);
    var next := PhaseAfter(c, t, a);
    InUpdate(c.phases, t, next, Tested(id));
    InUpdate(c.phases, t, next, Queueing(id));
    InUpdate(c.phases, t, next, Stored(id));
    assert |In(c.phases, Tested(id))| == c.w.tested[id];
    assert |In(c.phases, Queueing(id))| == c.w.aboutToSend[id];
    assert |In(c.phases, Stored(id))| == c.w.aboutToTrigger[id];
  }

  lemma StaffedStep(c: Crowd, t: nat, a: Action)
    requires CrowdInv(c) && Staffed(c) && May(c, t, a) && PhaseOf(c, t) == Before(c.w, a)
    ensures Staffed(After(c, t, a))
  {
    hide Next, Enabled, In, May, Before, CrowdInv, After;
    forall id: nat
      ensures
        var c' := After(c, t, a);
        && |In(c'.phases, Tested(id))| == c'.w.tested[id]
        && |In(c'.phases, Queueing(id))| == c'.w.aboutToSend[id]
        && |In(c'.phases, Stored(id))| == c'.w.aboutToTrigger[id]
    {
      StaffedAt(c, t, a, id);
    }
    HolderStays(c, t, a);
  }

  lemma HolderStays(c: Crowd, t: nat, a: Action)
    requires CrowdInv(c) && Staffed(c) && May(c, t, a) && PhaseOf(c, t) == Before(c.w, a)
    ensures After(c, t, a).w.lock != Unlocked ==> In(After(c, t, a).phases, Holding) != {}
  {
    hide Inv, Next, Enabled, Tidy, Stamped, Cleared, OneHolder;
    LockChanges(c.w, a);
    if After(c, t, a).w.lock != Unlocked {
      if PhaseAfter(c, t, a).Holding? {
        assert t in In(After(c, t, a).phases, Holding);
      } else {
        var u :| u in In(c.phases, Holding);
        assert u in In(After(c, t, a).phases, Holding);
      }
    }
  }

  /** Every run of the machine is one of callers that each make one call after another. */
  lemma {:induction false} RunIsCrowdRun(ws: seq<World>, acts: seq<Action>) returns (cs: seq<Crowd>, calls: seq<Call>)
    requires Run(ws, acts)
    ensures CrowdRun(cs, calls) && Worlds(cs) == ws && Steps(calls) == acts && Staffed(cs[|acts|])
    decreases |acts|
  {
    hide May, After, Staffed, CrowdInv, Enabled, Next;
    if acts == [] {
      cs, calls := [Crowd(Start(), map[], [])], [];
      NobodyStaffs();
      assert Worlds(cs) == ws;
    } else {
      var n := |acts| - 1;
      RunFront(ws, acts);
      cs, calls := RunIsCrowdRun(ws[..|acts|], acts[..n]);
      assert Worlds(cs)[n] == ws[n];
      assert Enabled(ws[n], acts[n]) && ws[n + 1] == Next(ws[n], acts[n]);
      EveryCrowd(cs, calls, n);
      var t := SomeThread(cs[n], acts[n]);
      StaffedStep(cs[n], t, acts[n]);
      AfterIs(cs[n], t, acts[n]);
      cs, calls := cs + [After(cs[n], t, acts[n])], calls + [Call(t, acts[n])];
      assert Worlds(cs) == ws[..|acts|] + [ws[|acts|]] == ws;
      assert Steps(calls) == acts[..n] + [acts[n]] == acts;
    }
  }

  lemma AfterIs(c: Crowd, t: nat, a: Action)
    requires May(c, t, a)
    ensures After(c, t, a).w == Next(c.w, a)
  {
    hide Next, Enabled;
  }

  lemma NobodyStaffs()
    ensures Staffed(Crowd(Start(), map[], []))
  {
    assert forall x :: In(map[], x) == {};
  }

  lemma RunFront(ws: seq<World>, acts: seq<Action>)
    requires Run(ws, acts) && acts != []
    ensures Run(ws[..|acts|], acts[..|acts| - 1])
  {
    hide Next, Enabled;
  }
}
