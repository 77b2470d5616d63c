/** What a run of the timing wheel does, told by the calls alone: who is woken, and when. */
module TimerRuns {
  import opened Basics
  import opened Seqs
  import opened TimerWheel

  /** Whom a list of nodes wakes: the handles and sessions. */
  function Contacts(nodes: seq<TimerNode>): seq<(uint32, int)> {
    if |nodes| == 0 then [] else [(nodes[0].handle, nodes[0].session)] + Contacts(nodes[1..])
  }

  lemma {:induction false} ContactsAppend(a: seq<TimerNode>, b: seq<TimerNode>)
    ensures Contacts(a + b) == Contacts(a) + Contacts(b)
  {
    if |a| == 0 {
      assert a + b == b;
    } else {
      ContactsAppend(a[1..], b);
      assert (a + b)[0] == a[0] && (a + b)[1..] == a[1..] + b;
      Assoc([(a[0].handle, a[0].session)], Contacts(a[1..]), Contacts(b));
    }
  }

  /** The call at i sets a timer whose delay is the number of Advances after it, up to and
      including the one at k. */
  predicate RunsOut(ops: seq<Op>, i: nat, k: nat)
    requires i < k < |ops|
  {
    ops[i].SetTimer? && ops[i].delay > 0 && Advances(ops[i + 1..k + 1]) == ops[i].delay
  }

  /** Those of the first n calls whose timers run out at k, in the order of the calls. */
  function RunOut(ops: seq<Op>, n: nat, k: nat): seq<(uint32, int)>
    requires n <= k < |ops|
  {
    if n == 0 then []
    else RunOut(ops, n - 1, k) + if RunsOut(ops, n - 1, k) then [(ops[n - 1].handle, ops[n - 1].session)] else []
  }

  /** Whom operation k has to wake. */
  function Awaited(ops: seq<Op>, k: nat): seq<(uint32, int)>
    requires k < |ops|
  {
    match ops[k]
    case Advance => RunOut(ops, k, k)
    case SetTimer(d, h, s) => if d <= 0 then [(h, s)] else []
  }

  lemma {:induction false} AdvancesAppend(a: seq<Op>, b: seq<Op>)
    ensures Advances(a + b) == Advances(a) + Advances(b)
  {
    if |b| == 0 {
      assert a + b == a;
    } else {
      AdvancesAppend(a, b[..|b| - 1]);
      assert (a + b)[..|a + b| - 1] == a + b[..|b| - 1];
    }
  }

  /** The timers issued by the first n calls and due at k. */
  lemma {:induction false} IssuedRunOut(start: nat, ops: seq<Op>, n: nat, k: nat)
    requires n <= k < |ops| && ops[k].Advance?
    ensures Contacts(Map(Filter(Issued(start, ops[..n]), DueAt(start + Advances(ops[..k]) + 1)), NodeOf()))
         == RunOut(ops, n, k)
  {
    hide Filter, Map, Issued, Contacts;
    if n == 0 {
      NothingIssued(start, ops, DueAt(start + Advances(ops[..k]) + 1));
    } else {
      var f, before := DueAt(start + Advances(ops[..k]) + 1), ops[..n - 1];
      IssuedNext(start, ops, n);
      IssuedRunOut(start, ops, n - 1, k);
      AdvancesUpTo(ops, n, k);
      if ops[n - 1].SetTimer? && ops[n - 1].delay > 0 {
        var p := Pending(start + Advances(before) + ops[n - 1].delay, ops[n - 1].handle, ops[n - 1].session);
        OneMoreIssued(Issued(start, before), p, f);
        assert f(p) <==> RunsOut(ops, n - 1, k);
      } else {
        assert !RunsOut(ops, n - 1, k);
      }
    }
  }

  lemma NothingIssued(start: nat, ops: seq<Op>, f: Pending -> bool)
    ensures Contacts(Map(Filter(Issued(start, ops[..0]), f), NodeOf())) == []
  {
  }

  lemma IssuedNext(start: nat, ops: seq<Op>, n: nat)
    requires 0 < n <= |ops|
    ensures
      Issued(start, ops[..n]) ==
        if ops[n - 1].SetTimer? && ops[n - 1].delay > 0 then
          Issued(start, ops[..n - 1])
            + [Pending(start + Advances(ops[..n - 1]) + ops[n - 1].delay, ops[n - 1].handle, ops[n - 1].session)]
        else Issued(start, ops[..n - 1])
  {
    assert ops[..n][..n - 1] == ops[..n - 1];
  }

  lemma OneMoreIssued(ps: seq<Pending>, p: Pending, f: Pending -> bool)
    ensures Contacts(Map(Filter(ps + [p], f), NodeOf()))
         == Contacts(Map(Filter(ps, f), NodeOf())) + if f(p) then [(p.handle, p.session)] else []
  {
    FilterSnoc(ps, p, f);
    hide Filter;
    var one := if f(p) then [p] else [];
    MapAppend(Filter(ps, f), one, NodeOf());
    ContactsAppend(Map(Filter(ps, f), NodeOf()), Map(one, NodeOf()));
    if f(p) {
      assert Map(one, NodeOf()) == [p.Node()];
      assert Contacts([p.Node()]) == [(p.handle, p.session)];
    }
  }

  lemma AdvancesUpTo(ops: seq<Op>, n: nat, k: nat)
    requires 0 < n <= k < |ops| && ops[k].Advance?
    ensures Advances(ops[..k]) + 1
         == Advances(ops[..n - 1]) + (if ops[n - 1].Advance? then 1 else 0) + Advances(ops[n..k + 1])
  {
    assert ops[..k + 1] == ops[..n] + ops[n..k + 1];
    AdvancesAppend(ops[..n], ops[n..k + 1]);
    assert ops[..k + 1][..k] == ops[..k] && ops[..n][..n - 1] == ops[..n - 1];
  }

  /** From the calls alone: an Advance wakes, in the order of the calls, exactly those whose delay
      is over, each with its own handle and session; a delay that is not positive is answered to
      the caller at once. */
  lemma BatchIsAwaited(start: nat, ops: seq<Op>, k: nat)
    requires k < |ops|
    ensures Contacts(Batch(start, ops, k)) == Awaited(ops, k)
  {
    hide Map, Filter;
    if ops[k].Advance? {
      TimersFireOnTheirTick(start, ops, k);
      IssuedRunOut(start, ops, k, k);
    } else {
      OneContact(After(start, ops[..k]).now, ops[k].delay, ops[k].handle, ops[k].session);
    }
  }

  lemma OneContact(now: nat, d: int32, h: uint32, s: int)
    ensures Contacts(Immediate(now, d, h, s)) == if d <= 0 then [(h, s)] else []
  {
  }

  /** n Advances. */
  function Advancing(n: nat): seq<Op> { seq(n, _ => Advance) }

  /** Whom the last n of the calls, all Advances, wake one after another. */
  function AwaitedOver(ops: seq<Op>, n: nat): seq<(uint32, int)> {
    if n == 0 then []
    else
      var all := ops + Advancing(n);
      AwaitedOver(ops, n - 1) + Awaited(all, |all| - 1)
  }

  /** Catching up by n ticks wakes whom n Advances wake one after another. */
  lemma {:induction false} CatchingUpIsAdvancing(start: nat, ops: seq<Op>, n: nat)
    ensures After(start, ops + Advancing(n)) == Ticks(After(start, ops), n)
    ensures Contacts(FiredOver(After(start, ops), n)) == AwaitedOver(ops, n)
  {
    hide Tick, Fired, Contacts, Awaited;
    if n == 0 {
      assert ops + Advancing(0) == ops;
      assert Contacts([]) == [] by { NoContacts(); }
    } else {
      CatchingUpIsAdvancing(start, ops, n - 1);
      var all, r := ops + Advancing(n), After(start, ops);
      assert all[..|all| - 1] == ops + Advancing(n - 1) && all[|all| - 1] == Advance;
      ContactsAppend(FiredOver(r, n - 1), Fired(Ticks(r, n - 1)));
      BatchIsAwaited(start, all, |all| - 1);
    }
  }

  lemma NoContacts()
    ensures Contacts([]) == []
  {
  }

  /** Drives a fresh wheel through any run: it dispatches, operation by operation, what
      the reference machine dispatches, which is to each handle what was set for it. */
  method RunWheel(start: uint32, ops: seq<Op>) returns (log: seq<seq<TimerNode>>)
    ensures |log| == |ops|
    ensures forall k :: 0 <= k < |ops| ==> log[k] == Batch(start, ops, k)
    ensures forall k :: 0 <= k < |ops| ==> Contacts(log[k]) == Awaited(ops, k)
  {
    hide SlotOf, InSlot, Fired, Tick;
    var timer := new Timer(start);
    log := [];
    var k := 0;
    while k < |ops|
      invariant k == |log| <= |ops|
      invariant timer.Represents(After(start, ops[..k]))
      invariant fresh(timer) && fresh(timer.near) && fresh(timer.t)
      invariant forall i :: 0 <= i < k ==> log[i] == Batch(start, ops, i)
    {
      ghost var r := After(start, ops[..k]);
      assert ops[..k + 1][..k] == ops[..k];
      var batch;
      match ops[k] {
        case Advance => batch := timer.Update(r);
        case SetTimer(d, h, s) => batch := timer.Timeout(d, h, s, r);
      }
      log := log + [batch];
      k := k + 1;
    }
    assert ops[..k] == ops;
    forall i | 0 <= i < |ops|
      ensures Contacts(log[i]) == Awaited(ops, i)
    {
      BatchIsAwaited(start, ops, i);
    }
  }
}
