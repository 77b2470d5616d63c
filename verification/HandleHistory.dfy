/** Runs of the handle storage answer as a pair of maps would. */
module HandleHistory {
  import opened Basics
  import opened HandleTable
  import opened NameIndex
  import opened HandleStorage

  datatype Call =
    | Register(ctx: nat)
    | Retire(handle: nat)
    | Grab(handle: nat)
    | NameHandle(handle: nat, s: string)
    | FindName(s: string)

  datatype Answer =
    | Registered(handle: Option<nat>)
    | Retired(ret: nat)
    | Context(ctx: Option<nat>)
    | Naming(naming: Naming)
    | Found(bearer: nat)

  /** Contexts by handle and handles by name. */
  datatype Maps = Maps(live: map<nat, nat>, bound: map<string, nat>)

  /** What one call may answer and do to the maps. */
  ghost predicate Serves(harbor: nat, before: Maps, c: Call, a: Answer, after: Maps) {
    match c
    case Register(ctx) =>
      && a.Registered?
      && (match a.handle
          case None => AllLive(harbor, before.live) && after == before
          case Some(h) =>
            && h !in before.live && harbor < h < harbor + HANDLE_LIMIT
            && after == before.(live := before.live[h := ctx]))
    case Retire(h) =>
      && a == Retired(if h in before.live then 1 else 0)
      && after == if h in before.live then Maps(before.live - {h}, Without(before.bound, h)) else before
    case Grab(h) =>
      a == Context(At(before.live, h)) && after == before
    case NameHandle(h, s) =>
      && a.Naming?
      && (match a.naming
          case Duplicate => s in before.bound && after == before
          case Exhausted => s !in before.bound && |before.bound| > 0x2000_0000 && after == before
          case Named(t) => s !in before.bound && t == s && after == before.(bound := before.bound[s := h]))
    case FindName(s) =>
      a == Found(if s in before.bound then before.bound[s] else 0) && after == before
  }

  /** The calls, their answers and the maps before, between and after them. */
  ghost predicate History(harbor: nat, calls: seq<Call>, answers: seq<Answer>, maps: seq<Maps>) {
    && |answers| == |calls| && |maps| == |calls| + 1
    && forall i :: 0 <= i < |calls| ==> Serves(harbor, maps[i], calls[i], answers[i], maps[i + 1])
  }

  ghost function MapsOf(s: Storage): Maps
    reads s
  {
    Maps(s.live, s.bound)
  }

  method Serve(s: Storage, c: Call) returns (a: Answer)
    requires s.Valid()
    modifies s
    ensures s.Valid() && Serves(s.harbor, old(MapsOf(s)), c, a, MapsOf(s))
  {
    hide Shows, Binds, IsSize, FullButZero, Placed, Hash, FirstFree, Survivors, Without, AllLive, At;
    match c {
      case Register(ctx) =>
        var h := s.Register(ctx);
        a := Registered(h);
      case Retire(h) =>
        var r := s.Retire(h);
        a := Retired(r);
        assert h !in old(s.live) ==> s.live == old(s.live);
      case Grab(h) =>
        var r := s.Grab(h);
        a := Context(r);
      case NameHandle(h, n) =>
        var r := s.NameHandle(h, n);
        a := Naming(r);
      case FindName(n) =>
        var r := s.FindName(n);
        a := Found(r);
    }
  }

  /** Any sequence of calls on one storage is a history of the maps. */
  method Run(s: Storage, calls: seq<Call>) returns (answers: seq<Answer>, ghost maps: seq<Maps>)
    requires s.Valid()
    modifies s
    ensures s.Valid() && History(s.harbor, calls, answers, maps)
    ensures maps[0] == old(MapsOf(s)) && maps[|calls|] == MapsOf(s)
  {
    hide Serves, Storage.Valid;
    answers, maps := [], [MapsOf(s)];
    var i := 0;
    while i < |calls|
      invariant 0 <= i <= |calls| && s.Valid()
      invariant History(s.harbor, calls[..i], answers, maps)
      invariant maps[0] == old(MapsOf(s)) && maps[i] == MapsOf(s)
    {
      var a := Serve(s, calls[i]);
      answers, maps := answers + [a], maps + [MapsOf(s)];
      i := i + 1;
    }
    assert calls[..i] == calls;
  }

  // ---------------------------------------------------------------- what histories show

  /** While h is not retired it keeps the context it was registered for. */
  lemma {:induction false} RegisteredStays(harbor: nat, calls: seq<Call>, answers: seq<Answer>, maps: seq<Maps>,
        h: nat, i: nat, j: nat)
    requires History(harbor, calls, answers, maps) && i <= j <= |calls| && h in maps[i].live
    requires forall k :: i <= k < j ==> calls[k] != Retire(h)
    ensures h in maps[j].live && maps[j].live[h] == maps[i].live[h]
    decreases j - i
  {
    hide Serves;
    if i < j {
      RegisteredStays(harbor, calls, answers, maps, h, i, j - 1);
      StepServes(harbor, calls, answers, maps, j - 1);
      StepKeepsLive(harbor, maps[j - 1], calls[j - 1], answers[j - 1], maps[j], h);
    }
  }

  lemma StepServes(harbor: nat, calls: seq<Call>, answers: seq<Answer>, maps: seq<Maps>, i: nat)
    requires History(harbor, calls, answers, maps) && i < |calls|
    ensures Serves(harbor, maps[i], calls[i], answers[i], maps[i + 1])
  {
  }

  lemma StepKeepsLive(harbor: nat, before: Maps, c: Call, a: Answer, after: Maps, h: nat)
    requires Serves(harbor, before, c, a, after) && h in before.live && c != Retire(h)
    ensures h in after.live && after.live[h] == before.live[h]
  {
  }

  /** Once retired, a handle stays dead until it is given out again. */
  lemma {:induction false} RetiredStaysDead(harbor: nat, calls: seq<Call>, answers: seq<Answer>, maps: seq<Maps>,
        h: nat, i: nat, j: nat)
    requires History(harbor, calls, answers, maps) && i <= j <= |calls| && h !in maps[i].live
    requires forall k :: i <= k < j ==> answers[k] != Registered(Some(h))
    ensures h !in maps[j].live
    decreases j - i
  {
    if i < j {
      RetiredStaysDead(harbor, calls, answers, maps, h, i, j - 1);
      StepServes(harbor, calls, answers, maps, j - 1);
    }
  }

  /** Grab answers with the context of the latest registration of the handle when no retirement
      followed it, and with nothing when a retirement was the last to touch the handle. */
  lemma GrabFindsTheRegistered(harbor: nat, calls: seq<Call>, answers: seq<Answer>, maps: seq<Maps>,
        h: nat, i: nat, j: nat)
    requires History(harbor, calls, answers, maps) && i < j < |calls| && calls[j] == Grab(h)
    requires forall k :: i < k < j ==> calls[k] != Retire(h) && answers[k] != Registered(Some(h))
    ensures calls[i].Register? && answers[i] == Registered(Some(h)) ==> answers[j] == Context(Some(calls[i].ctx))
    ensures calls[i] == Retire(h) ==> answers[j] == Context(None)
  {
    hide Serves;
    StepServes(harbor, calls, answers, maps, i);
    StepServes(harbor, calls, answers, maps, j);
    GrabReads(harbor, maps[j], h, answers[j], maps[j + 1]);
    if calls[i].Register? && answers[i] == Registered(Some(h)) {
      RegisterBinds(harbor, maps[i], calls[i], answers[i], maps[i + 1], h);
      RegisteredStays(harbor, calls, answers, maps, h, i + 1, j);
    } else if calls[i] == Retire(h) {
      RetireUnbinds(harbor, maps[i], h, answers[i], maps[i + 1]);
      RetiredStaysDead(harbor, calls, answers, maps, h, i + 1, j);
    }
  }

  lemma GrabReads(harbor: nat, before: Maps, h: nat, a: Answer, after: Maps)
    requires Serves(harbor, before, Grab(h), a, after)
    ensures a == Context(At(before.live, h))
  {
  }

  lemma RegisterBinds(harbor: nat, before: Maps, c: Call, a: Answer, after: Maps, h: nat)
    requires c.Register? && Serves(harbor, before, c, a, after) && a == Registered(Some(h))
    ensures h in after.live && after.live[h] == c.ctx
  {
  }

  lemma RetireUnbinds(harbor: nat, before: Maps, h: nat, a: Answer, after: Maps)
    requires Serves(harbor, before, Retire(h), a, after)
    ensures h !in after.live
  {
  }

  /** Two registrations give the same handle only if it was retired in between. */
  lemma HandlesAreDistinct(harbor: nat, calls: seq<Call>, answers: seq<Answer>, maps: seq<Maps>, h: nat, i: nat, j: nat)
    requires History(harbor, calls, answers, maps) && i < j < |calls|
    requires calls[i].Register? && calls[j].Register?
    requires answers[i] == Registered(Some(h)) && answers[j] == Registered(Some(h))
    ensures 0 < h && exists k :: i < k < j && calls[k] == Retire(h)
  {
    StepServes(harbor, calls, answers, maps, i);
    StepServes(harbor, calls, answers, maps, j);
    if forall k :: i + 1 <= k < j ==> calls[k] != Retire(h) {
      RegisteredStays(harbor, calls, answers, maps, h, i + 1, j);
      assert false;
    }
  }

  /** Retiring answers 1 exactly when the handle was given out and not retired since. */
  lemma RetireAnswers(harbor: nat, calls: seq<Call>, answers: seq<Answer>, maps: seq<Maps>, h: nat, i: nat, j: nat)
    requires History(harbor, calls, answers, maps) && i < j < |calls| && calls[j] == Retire(h)
    requires forall k :: i < k < j ==> calls[k] != Retire(h) && answers[k] != Registered(Some(h))
    ensures calls[i].Register? && answers[i] == Registered(Some(h)) ==> answers[j] == Retired(1)
    ensures calls[i] == Retire(h) ==> answers[j] == Retired(0)
  {
    StepServes(harbor, calls, answers, maps, i);
    StepServes(harbor, calls, answers, maps, j);
    if calls[i].Register? && answers[i] == Registered(Some(h)) {
      RegisteredStays(harbor, calls, answers, maps, h, i + 1, j);
    } else if calls[i] == Retire(h) {
      RetiredStaysDead(harbor, calls, answers, maps, h, i + 1, j);
    }
  }

  /** h was given out at i and nobody retired it before j. */
  ghost predicate OutSince(calls: seq<Call>, answers: seq<Answer>, h: nat, i: nat, j: nat)
    requires j <= |calls| && |answers| == |calls|
  {
    && i < j && calls[i].Register? && answers[i] == Registered(Some(h))
    && forall k :: i < k < j ==> calls[k] != Retire(h)
  }

  lemma {:induction false} LiveIsOut(harbor: nat, calls: seq<Call>, answers: seq<Answer>, maps: seq<Maps>,
        h: nat, j: nat)
    requires History(harbor, calls, answers, maps) && j <= |calls| && maps[0].live == map[] && h in maps[j].live
    ensures exists i :: OutSince(calls, answers, h, i, j)
  {
    if j > 0 {
      StepServes(harbor, calls, answers, maps, j - 1);
      if h in maps[j - 1].live {
        LiveIsOut(harbor, calls, answers, maps, h, j - 1);
        var i :| OutSince(calls, answers, h, i, j - 1);
        assert OutSince(calls, answers, h, i, j);
      } else {
        assert OutSince(calls, answers, h, j - 1, j);
      }
    }
  }

  /** A registration fails only when each of the 2^24 - 1 handles of the harbor is out. */
  lemma RegisterFailsOnlyWhenAllAreOut(harbor: nat, calls: seq<Call>, answers: seq<Answer>, maps: seq<Maps>,
        j: nat, h: nat)
    requires History(harbor, calls, answers, maps) && maps[0].live == map[] && j < |calls|
    requires answers[j] == Registered(None) && harbor < h < harbor + 0x100_0000
    ensures exists i :: OutSince(calls, answers, h, i, j)
  {
    StepServes(harbor, calls, answers, maps, j);
    LiveIsOut(harbor, calls, answers, maps, h, j);
  }

  // ---------------------------------------------------------------- names

  /** The name of a handle lasts until the handle is retired. */
  lemma {:induction false} NameStays(harbor: nat, calls: seq<Call>, answers: seq<Answer>, maps: seq<Maps>,
        h: nat, s: string, i: nat, j: nat)
    requires History(harbor, calls, answers, maps) && i <= j <= |calls|
    requires s in maps[i].bound && maps[i].bound[s] == h
    requires forall k :: i <= k < j && calls[k] == Retire(h) ==> answers[k] != Retired(1)
    ensures s in maps[j].bound && maps[j].bound[s] == h
    decreases j - i
  {
    if i < j {
      NameStays(harbor, calls, answers, maps, h, s, i, j - 1);
      StepServes(harbor, calls, answers, maps, j - 1);
    }
  }

  lemma {:induction false} NamelessStays(harbor: nat, calls: seq<Call>, answers: seq<Answer>, maps: seq<Maps>,
        s: string, i: nat, j: nat)
    requires History(harbor, calls, answers, maps) && i <= j <= |calls| && s !in maps[i].bound
    requires forall k :: i <= k < j ==> answers[k] != Naming(Named(s))
    ensures s !in maps[j].bound
    decreases j - i
  {
    if i < j {
      NamelessStays(harbor, calls, answers, maps, s, i, j - 1);
      StepServes(harbor, calls, answers, maps, j - 1);
    }
  }

  /** A name that was given is found, and cannot be given again, until its handle is retired; then it
      is gone until it is given again, which it can be. */
  lemma NamesAreFound(harbor: nat, calls: seq<Call>, answers: seq<Answer>, maps: seq<Maps>,
        h: nat, s: string, i: nat, j: nat)
    requires History(harbor, calls, answers, maps) && i < j < |calls|
    requires calls[i] == NameHandle(h, s) && answers[i] == Naming(Named(s))
    requires forall k :: i < k < j && calls[k] == Retire(h) ==> answers[k] != Retired(1)
    ensures calls[j] == FindName(s) ==> answers[j] == Found(h)
    ensures calls[j].NameHandle? && calls[j].s == s ==> answers[j] == Naming(Duplicate)
    ensures
      calls[j] == Retire(h) && answers[j] == Retired(1) ==>
        forall m :: j < m < |calls| && (forall k :: j < k < m ==> answers[k] != Naming(Named(s))) ==>
          && (calls[m] == FindName(s) ==> answers[m] == Found(0))
          && (calls[m].NameHandle? && calls[m].s == s ==> answers[m] in {Naming(Named(s)), Naming(Exhausted)})
  {
    StepServes(harbor, calls, answers, maps, i);
    NameStays(harbor, calls, answers, maps, h, s, i + 1, j);
    StepServes(harbor, calls, answers, maps, j);
    if calls[j] == Retire(h) && answers[j] == Retired(1) {
      forall m | j < m < |calls| && (forall k :: j < k < m ==> answers[k] != Naming(Named(s)))
        ensures calls[m] == FindName(s) ==> answers[m] == Found(0)
        ensures calls[m].NameHandle? && calls[m].s == s ==> answers[m] in {Naming(Named(s)), Naming(Exhausted)}
      {
        NamelessStays(harbor, calls, answers, maps, s, j + 1, m);
        StepServes(harbor, calls, answers, maps, m);
      }
    }
  }

  /** A name that was never given is not found. */
  lemma UngivenIsNotFound(harbor: nat, calls: seq<Call>, answers: seq<Answer>, maps: seq<Maps>, s: string, j: nat)
    requires History(harbor, calls, answers, maps) && maps[0].bound == map[] && j < |calls|
    requires forall k :: 0 <= k < j ==> answers[k] != Naming(Named(s))
    ensures calls[j] == FindName(s) ==> answers[j] == Found(0)
    ensures calls[j].NameHandle? && calls[j].s == s ==> answers[j] in {Naming(Named(s)), Naming(Exhausted)}
  {
    NamelessStays(harbor, calls, answers, maps, s, 0, j);
    StepServes(harbor, calls, answers, maps, j);
  }

  ghost predicate NamesLive(m: Maps) {
    forall s <- m.bound :: m.bound[s] in m.live
  }

  /** Names lead to live handles as long as only live handles are named. */
  lemma {:induction false} NamesStayLive(harbor: nat, calls: seq<Call>, answers: seq<Answer>, maps: seq<Maps>, j: nat)
    requires History(harbor, calls, answers, maps) && j <= |calls| && NamesLive(maps[0])
    requires forall k :: 0 <= k < j && calls[k].NameHandle? ==> calls[k].handle in maps[k].live
    ensures NamesLive(maps[j])
  {
    if j > 0 {
      NamesStayLive(harbor, calls, answers, maps, j - 1);
      StepServes(harbor, calls, answers, maps, j - 1);
    }
  }
}
