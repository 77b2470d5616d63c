/** What becomes of the packages that are sent, told by the actions of a run: every package of the
    stream is one that was sent, unchanged and only once, and which ones are refused. */
module SocketContents {
  import opened Basics
  import opened Seqs
  import opened SocketSlot
  import opened SocketServer
  import opened SocketInvariants
  import opened SocketSteps
  import opened SocketOrder
  import opened SocketTheorems
  import opened SocketTidy

  /** What a worker hands over: its priority and its bytes. */
  datatype Sent = Sent(low: bool, data: seq<byte>)

  /** What an action hands over for the current id: a request of a worker, or the package of one that
      goes on to write it itself. */
  function Hands(w: World, a: Action): seq<Sent> {
    match a
    case PostSend(id, low, data) => if id == w.sock.id then [Sent(low, data)] else []
    case Pass(data) => [Sent(false, data)]
    case _ => []
  }

  /** All that was handed over for the current id in the first i actions. */
  ghost function Handed(ws: seq<World>, acts: seq<Action>, i: nat): seq<Sent>
    requires i <= |acts| && |ws| == |acts| + 1
  {
    if i == 0 || acts[i - 1].DoReserve? || acts[i - 1].Accepted? then []
    else Handed(ws, acts, i - 1) + Hands(ws[i - 1], acts[i - 1])
  }

  /** An action that takes a request to send for the current id, and finds the socket closed, closing,
      half closed for writing, or not open for data. */
  predicate TurnsAway(w: World, a: Action) {
    && a.Handle? && w.pipe != [] && w.pipe[0].ReqSend? && w.pipe[0].id == w.sock.id
    && (w.sock.closing || w.sock.ty in {Invalid, HalfCloseWrite, IPaccept, Plisten, Listen})
  }

  /** The places, in the order of handing over, of the packages that were turned away. */
  ghost function TurnedAway(ws: seq<World>, acts: seq<Action>, i: nat): set<nat>
    requires i <= |acts| && |ws| == |acts| + 1
  {
    if i == 0 || acts[i - 1].DoReserve? || acts[i - 1].Accepted? then {}
    else
      TurnedAway(ws, acts, i - 1)
      + if TurnsAway(ws[i - 1], acts[i - 1]) then {ws[i - 1].pipe[0].pkg.stamp} else {}
  }

  // ---------------------------------------------------------------- a sequence of packages

  /** Each package is there once and is the one handed over at its place, and none was turned away. */
  ghost predicate Faithful(ps: seq<Package>, sent: seq<Sent>, away: set<nat>) {
    && (forall p :: p in ps ==>
          && p.stamp < |sent| && p == Package(p.stamp, sent[p.stamp].low, sent[p.stamp].data)
          && p.stamp !in away && multiset(ps)[p] == 1)
    && (forall k :: k in away ==> k < |sent|)
  }

  lemma InMultiset(ps: seq<Package>)
    ensures forall p :: p in ps <==> multiset(ps)[p] > 0
  {
    assert forall p :: p in ps <==> p in multiset(ps);
  }

  lemma FaithfulLess(ps: seq<Package>, ps': seq<Package>, sent: seq<Sent>, away: set<nat>)
    requires Faithful(ps, sent, away) && multiset(ps') <= multiset(ps)
    ensures Faithful(ps', sent, away)
  {
    InMultiset(ps);
    InMultiset(ps');
  }

  lemma FaithfulMore(ps: seq<Package>, ps': seq<Package>, sent: seq<Sent>, m: Sent, away: set<nat>)
    requires Faithful(ps, sent, away)
    requires multiset(ps') == multiset(ps) + multiset{Package(|sent|, m.low, m.data)}
    ensures Faithful(ps', sent + [m], away)
  {
    InMultiset(ps);
    InMultiset(ps');
  }

  lemma FaithfulAway(ps: seq<Package>, ps': seq<Package>, p: Package, sent: seq<Sent>, away: set<nat>)
    requires Faithful(ps, sent, away) && multiset(ps) == multiset(ps') + multiset{p}
    ensures Faithful(ps', sent, away + {p.stamp})
  {
    InMultiset(ps);
    InMultiset(ps');
    assert multiset(ps')[p] == 0;
  }

  lemma Inserted(a: seq<Package>, p: Package, b: seq<Package>)
    ensures multiset(a + [p] + b) == multiset(a + b) + multiset{p}
  {
  }

  // ---------------------------------------------------------------- one step

  ghost predicate Carried(w: World, sent: seq<Sent>, away: set<nat>) {
    |sent| == w.clock && w.dropped == away && Faithful(Stream(w), sent, away)
  }

  /** What the step hands over and turns away. */
  ghost predicate CarriesOn(w: World, a: Action, w': World, sent: seq<Sent>, away: set<nat>) {
    if TakesId(a) then Carried(w', [], {})
    else Carried(w', sent + Hands(w, a), away + if TurnsAway(w, a) then {w.pipe[0].pkg.stamp} else {})
  }

  lemma NoneHanded(w: World, a: Action, w': World, sent: seq<Sent>, away: set<nat>)
    requires Carried(w, sent, away) && !TakesId(a) && Hands(w, a) == [] && !TurnsAway(w, a)
    requires w'.clock == w.clock && w'.dropped == w.dropped && multiset(Stream(w')) <= multiset(Stream(w))
    ensures CarriesOn(w, a, w', sent, away)
  {
    hide Stream, Faithful, Hands;
    FaithfulLess(Stream(w), Stream(w'), sent, away);
    assert sent + [] == sent && away + {} == away;
  }

  lemma ShrinkingCarries(w: World, a: Action, sent: seq<Sent>, away: set<nat>)
    requires Carried(w, sent, away) && !TakesId(a) && Hands(w, a) == [] && !TurnsAway(w, a)
    requires Enabled(w, a) && Shrinks(w, Next(w, a))
    ensures CarriesOn(w, a, Next(w, a), sent, away)
  {
    hide Faithful, Hands, Enabled, Next, TurnsAway, CarriesOn, Carried;
    var q, q', ps := Queue(w.sock, w.lock), Queue(Next(w, a).sock, w.lock), Posted(w.pipe, w.sock.id);
    assert Stream(w) == q' + q[|q'|..] + ps && Stream(Next(w, a)) == q' + ps by { ShrunkStreams(w, Next(w, a)); }
    Dropping(q', q[|q'|..], ps);
    hide Stream, Shrinks;
    NoneHanded(w, a, Next(w, a), sent, away);
  }

  lemma ShrunkStreams(w: World, w': World)
    requires Shrinks(w, w')
    ensures
      var q, q', ps := Queue(w.sock, w.lock), Queue(w'.sock, w.lock), Posted(w.pipe, w.sock.id);
      && q' <= q && Stream(w) == q' + q[|q'|..] + ps && Stream(w') == q' + ps
      && w'.clock == w.clock && w'.dropped == w.dropped
  {
    hide Queue, Posted;
  }

  lemma Dropping(a: seq<Package>, b: seq<Package>, c: seq<Package>)
    ensures multiset(a + c) <= multiset(a + b + c)
  {
  }

  lemma PostingCarries(w: World, a: Action, sent: seq<Sent>, away: set<nat>)
    requires Step(w, a) && Posting(w, a).Some? && Carried(w, sent, away)
    ensures CarriesOn(w, a, Next(w, a), sent, away)
  {
    hide Inv, Next, Enabled, Stream, Posting, PostedBy, Faithful;
    PostingFacts(w, a);
    PostingHands(w, a);
    var ps := PostedBy(Posting(w, a).value, w.sock.id);
    assert sent + [] == sent && away + {} == away && Stream(w) + [] == Stream(w);
    if ps != [] {
      assert multiset(Stream(w) + ps) == multiset(Stream(w)) + multiset(ps);
      FaithfulMore(Stream(w), Stream(w) + ps, sent, Hands(w, a)[0], away);
    }
  }

  lemma PostingHands(w: World, a: Action)
    requires Posting(w, a).Some?
    ensures !TakesId(a) && !TurnsAway(w, a)
    ensures
      var q := Posting(w, a).value;
      if PostedBy(q, w.sock.id) == [] then Hands(w, a) == []
      else Hands(w, a) == [Sent(q.pkg.low, q.pkg.data)]
  {
  }

  lemma PassCarries(w: World, a: Action, sent: seq<Sent>, away: set<nat>)
    requires Step(w, a) && a.Pass? && Carried(w, sent, away)
    ensures CarriesOn(w, a, Next(w, a), sent, away)
  {
    hide Inv, Next, Enabled, Stream, Faithful, Behind;
    PassStreams(w, a);
    PassDrops(w, a);
    Inserted(w.sock.chan.done, Package(w.clock, false, a.data), Behind(w));
    FaithfulMore(Stream(w), Stream(Next(w, a)), sent, Sent(false, a.data), away);
    assert away + {} == away;
  }

  lemma PassDrops(w: World, a: Action)
    requires Step(w, a) && a.Pass?
    ensures Next(w, a).dropped == w.dropped
  {
    hide Inv, Next, Enabled, Queue, Packages, Posted;
    PassFacts(w, a);
  }

  lemma RefusesIff(w: World, a: Action)
    requires Enabled(w, a) && a.Handle? && w.pipe[0].ReqSend?
    ensures TurnsAway(w, a) <==> w.pipe[0].id == w.sock.id && Refuses(w.sock, w.sock.id)
    ensures !TakesId(a) && Hands(w, a) == []
  {
  }

  lemma RefusalCarries(w: World, a: Action, sent: seq<Sent>, away: set<nat>)
    requires Step(w, a) && a.Handle? && w.pipe[0].ReqSend?
    requires w.pipe[0].id != w.sock.id || Refuses(w.sock, w.sock.id)
    requires Carried(w, sent, away)
    ensures CarriesOn(w, a, Next(w, a), sent, away)
  {
    hide Inv, Queue, Posted, Next, Enabled, Refuses, Stream, Faithful, TurnsAway, Hands;
    HandleHasRequest(w, a);
    RefusesIff(w, a);
    RefusalFacts(w, a);
    var q, queue, rest := w.pipe[0], Queue(w.sock, w.lock), Posted(w.pipe[1..], w.sock.id);
    assert sent + [] == sent;
    if q.id == w.sock.id {
      Assoc(queue, [q.pkg], rest);
      Inserted(queue, q.pkg, rest);
      FaithfulAway(Stream(w), Stream(Next(w, a)), q.pkg, sent, away);
    } else {
      assert [] + rest == rest && away + {} == away;
    }
  }

  lemma Moved(front: seq<Package>, lows: seq<Package>, p: Package, rest: seq<Package>)
    ensures multiset(front + [p] + lows + rest) == multiset(front + lows + ([p] + rest))
  {
  }

  lemma AcceptCarries(w: World, a: Action, sent: seq<Sent>, away: set<nat>)
    requires Step(w, a) && a.Handle? && w.pipe[0].ReqSend?
    requires w.pipe[0].id == w.sock.id && !Refuses(w.sock, w.sock.id)
    requires Carried(w, sent, away)
    ensures CarriesOn(w, a, Next(w, a), sent, away)
  {
    hide Inv, Stream, Next, Enabled, Refuses, Front, Packages, Posted, Faithful, TurnsAway, Hands, Holds;
    HandleHasRequest(w, a);
    RefusesIff(w, a);
    var p, rest := w.pipe[0].pkg, Posted(w.pipe[1..], w.sock.id);
    var front, lows := Front(w.sock, w.lock), Packages(w.sock.low);
    StreamOfAccept(w, a);
    AcceptFacts(w, a);
    Moved(front, lows, p, rest);
    NoneHanded(w, a, Next(w, a), sent, away);
  }

  lemma HandsNothing(w: World, a: Action)
    requires Enabled(w, a) && (IsEvent(a) || a.FinishClose? || (a.Handle? && w.pipe != [] && !w.pipe[0].ReqSend?))
    ensures Hands(w, a) == [] && !TurnsAway(w, a) && !TakesId(a)
  {
  }

  lemma QuietCarries(w: World, a: Action, sent: seq<Sent>, away: set<nat>)
    requires Step(w, a) && ((ByLock(a) && !a.Pass?) || a.CountSend? || a.Test?) && Carried(w, sent, away)
    ensures CarriesOn(w, a, Next(w, a), sent, away)
  {
    hide Inv, Next, Enabled, Stream, Faithful;
    LockStream(w, a);
    QuietDrops(w, a);
    NoneHanded(w, a, Next(w, a), sent, away);
  }

  lemma QuietDrops(w: World, a: Action)
    requires Step(w, a) && (ByLock(a) || a.CountSend? || a.Test?)
    ensures Next(w, a).dropped == w.dropped
  {
    hide Inv, Next, Enabled, AfterLock;
    if ByLock(a) {
      LockFrame(w, a);
    } else if a.Test? {
      TestFrame(w, a);
    } else {
      CountFrame(w, a);
    }
  }

  lemma StepCarries(w: World, a: Action, sent: seq<Sent>, away: set<nat>)
    requires Step(w, a) && Carried(w, sent, away)
    ensures CarriesOn(w, a, Next(w, a), sent, away)
  {
    hide Inv, Next, Enabled, Stream, Refuses, Carried, CarriesOn, Shrinks, Hands, TurnsAway;
    if IsEvent(a) {
      HandsNothing(w, a);
      EventShrinks(w, a);
      ShrinkingCarries(w, a, sent, away);
    } else if a.FinishClose? {
      HandsNothing(w, a);
      FinishShrinks(w);
      ShrinkingCarries(w, a, sent, away);
    } else if a.Handle? {
      HandleHasRequest(w, a);
      if !w.pipe[0].ReqSend? {
        HandsNothing(w, a);
        RequestShrinks(w, a);
        ShrinkingCarries(w, a, sent, away);
      } else if w.pipe[0].id == w.sock.id && !Refuses(w.sock, w.sock.id) {
        AcceptCarries(w, a, sent, away);
      } else {
        RefusalCarries(w, a, sent, away);
      }
    } else if a.Pass? {
      PassCarries(w, a, sent, away);
    } else if TakesId(a) {
      FreshStream(w, a);
      FreshCarries(w, a, sent, away);
    } else if ByLock(a) || a.CountSend? || a.Test? {
      QuietCarries(w, a, sent, away);
    } else {
      PostsSomething(w, a);
      PostingCarries(w, a, sent, away);
    }
  }

  lemma FreshCarries(w: World, a: Action, sent: seq<Sent>, away: set<nat>)
    requires Enabled(w, a) && TakesId(a)
    requires Stream(Next(w, a)) == [] && Next(w, a).clock == 0 && Next(w, a).dropped == {}
    ensures CarriesOn(w, a, Next(w, a), sent, away)
  {
    hide Stream, Next, Enabled;
  }

  // ---------------------------------------------------------------- every run

  lemma {:induction false} EveryRunCarries(ws: seq<World>, acts: seq<Action>, i: nat)
    requires Run(ws, acts) && i < |ws|
    ensures Carried(ws[i], Handed(ws, acts, i), TurnedAway(ws, acts, i))
  {
    hide Inv, Next, Enabled, Carried, Hands, TurnsAway;
    if i == 0 {
      StartIsEmpty();
      StartCarries();
    } else {
      EveryRunCarries(ws, acts, i - 1);
      StepOfRun(ws, acts, i - 1);
      StepCarries(ws[i - 1], acts[i - 1], Handed(ws, acts, i - 1), TurnedAway(ws, acts, i - 1));
    }
  }

  lemma StartCarries()
    requires Stream(Start()) == []
    ensures Carried(Start(), [], {})
  {
    hide Stream;
  }

  /** In every run each package written to the fd is one that was handed over for this id, with its
      bytes and its priority, written once and not turned away. */
  lemma WrittenWasSent(ws: seq<World>, acts: seq<Action>, i: nat, j: nat)
    requires Run(ws, acts) && i < |ws| && j < |ws[i].sock.chan.done|
    ensures
      var sent, done := Handed(ws, acts, i), ws[i].sock.chan.done;
      && done[j].stamp < |sent| && done[j].low == sent[done[j].stamp].low && done[j].data == sent[done[j].stamp].data
      && done[j].stamp !in TurnedAway(ws, acts, i)
      && (forall k :: 0 <= k < |done| && k != j ==> done[k].stamp != done[j].stamp)
  {
    hide Run, Stream, Handed, TurnedAway;
    EveryRunCarries(ws, acts, i);
    WrittenLeadsTheStream(ws[i]);
    var done := ws[i].sock.chan.done;
    assert done[j] in Stream(ws[i]);
    forall k | 0 <= k < |done| && k != j
      ensures done[k].stamp != done[j].stamp
    {
      assert done[k] in Stream(ws[i]);
      if done[k].stamp == done[j].stamp {
        Twice(Stream(ws[i]), j, k);
      }
    }
  }

  lemma Twice(ps: seq<Package>, j: nat, k: nat)
    requires j < |ps| && k < |ps| && j != k && ps[j] == ps[k]
    ensures multiset(ps)[ps[j]] >= 2
  {
    var a, b := if j < k then j else k, if j < k then k else j;
    assert ps == ps[..a] + [ps[a]] + ps[a + 1..b] + [ps[b]] + ps[b + 1..];
  }

  /** While a socket lives and no close is decided, everything handed over for it is in the stream,
      as it was handed over, except exactly what was turned away. */
  lemma SentIsKeptUnlessTurnedAway(ws: seq<World>, acts: seq<Action>, i: nat, k: nat)
    requires Run(ws, acts) && i < |ws| && Live(ws[i].sock) && ws[i].pending == None && k < |Handed(ws, acts, i)|
    ensures
      var m := Handed(ws, acts, i)[k];
      k in TurnedAway(ws, acts, i) <==> Package(k, m.low, m.data) !in Stream(ws[i])
  {
    hide Run, Stream, Handed, TurnedAway;
    EveryRunCarries(ws, acts, i);
    NothingIsLost(ws, acts, i, k);
  }
}
