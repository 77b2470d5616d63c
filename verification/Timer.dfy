/** The hierarchical timing wheel: one near wheel of 256 slots and four levels of 64
    slots over a 32-bit tick counter that wraps.

    `Reference` is the machine a caller has in mind: a list of timers in the order
    they were set, from which every tick removes those that are due. `Timer` is the
    wheel. `Represents` ties the two together: every slot list holds exactly the
    pending timers that `AddNode` would put there now, in the order they were set. */
module TimerWheel {
  import opened Basics
  import opened Seqs

  const TIME_NEAR := 256
  const TIME_LEVEL := 64
  const TWO32: int := 0x1_0000_0000
  const HORIZON: int := 0x8000_0000   // one more than the largest int delay

  datatype TimerNode = TimerNode(expire: uint32, handle: uint32, session: int)
  datatype Slot = Near(i: nat) | Level(l: nat, j: nat)
  // ---------------------------------------------------------------- slot arithmetic

  /** The tick counter shifted right past the near wheel and l levels. */
  function Block(l: nat, t: nat): nat {
    if l == 0 then t / TIME_NEAR else Block(l - 1, t) / TIME_LEVEL
  }

  /** The slot a node expiring at e is linked into at time t. */
  function SlotOf(e: nat, t: nat): Slot {
    if Block(0, e) == Block(0, t) then Near(e % TIME_NEAR)
    else if Block(1, e) == Block(1, t) then Level(0, Block(0, e) % TIME_LEVEL)
    else if Block(2, e) == Block(2, t) then Level(1, Block(1, e) % TIME_LEVEL)
    else if Block(3, e) == Block(3, t) then Level(2, Block(2, e) % TIME_LEVEL)
    else Level(3, Block(3, e) % TIME_LEVEL)
  }

  /** The slot whose list is moved down when the counter becomes t, if any. */
  function CascadeSlot(t: nat): Option<Slot> {
    if t % TIME_NEAR != 0 then None
    else if Block(0, t) % TIME_LEVEL != 0 then Some(Level(0, Block(0, t) % TIME_LEVEL))
    else if Block(1, t) % TIME_LEVEL != 0 then Some(Level(1, Block(1, t) % TIME_LEVEL))
    else if Block(2, t) % TIME_LEVEL != 0 then Some(Level(2, Block(2, t) % TIME_LEVEL))
    else Some(Level(3, Block(3, t) % TIME_LEVEL))
  }

  /** The source compares with the low bits set, `(x | mask-1) == (y | mask-1)`; on
      32-bit words that is equality of the words shifted past those bits. */
  lemma MaskedCompareIsBlockCompare(x: bv32, y: bv32)
    ensures (x | 0xff == y | 0xff) <==> (x >> 8 == y >> 8)
    ensures (x | 0x3fff == y | 0x3fff) <==> (x >> 14 == y >> 14)
    ensures (x | 0xf_ffff == y | 0xf_ffff) <==> (x >> 20 == y >> 20)
    ensures (x | 0x3ff_ffff == y | 0x3ff_ffff) <==> (x >> 26 == y >> 26)
  {
  }

  function Unit(l: nat): (u: nat)
    ensures u > 0
  {
    if l == 0 then TIME_NEAR else Unit(l - 1) * TIME_LEVEL
  }

  lemma {:induction false} BlockIsQuotient(l: nat, t: nat)
    requires l <= 3
    ensures Block(l, t) == t / Unit(l)
    ensures l == 0 ==> Unit(l) == 0x100
    ensures l == 1 ==> Unit(l) == 0x4000
    ensures l == 2 ==> Unit(l) == 0x10_0000
    ensures l == 3 ==> Unit(l) == 0x400_0000
  {
    if l > 0 { BlockIsQuotient(l - 1, t); }
  }

  /** How many blocks of level l make up 2^32 ticks. */
  function BlocksPerWrap(l: nat): nat
    requires l <= 3
  {
    if l == 0 then 0x100_0000 else if l == 1 then 0x4_0000 else if l == 2 then 0x1000 else 0x40
  }

  lemma {:induction false} BlockWrap(l: nat, t: nat)
    requires l <= 3
    ensures Block(l, t) == BlocksPerWrap(l) * (t / TWO32) + Block(l, t % TWO32)
    ensures Block(l, t % TWO32) < BlocksPerWrap(l)
  {
    if l > 0 { BlockWrap(l - 1, t); }
  }

  lemma DigitWrap(l: nat, t: nat)
    requires l <= 3
    ensures Block(l, t) % TIME_LEVEL == Block(l, t % TWO32) % TIME_LEVEL
  {
    BlockWrap(l, t);
    hide Block;
    MultipleOfLevel((if l == 0 then 0x4_0000 else if l == 1 then 0x1000 else if l == 2 then 0x40 else 1) * (t / TWO32),
                    Block(l, t % TWO32));
  }

  lemma MultipleOfLevel(m: nat, x: nat)
    ensures (TIME_LEVEL * m + x) % TIME_LEVEL == x % TIME_LEVEL
  {
  }

  lemma {:induction false} BlockMonotone(l: nat, a: nat, b: nat)
    requires l <= 3 && a <= b
    ensures Block(l, a) <= Block(l, b)
    ensures b < a + HORIZON ==> 2 * (Block(l, b) - Block(l, a)) <= BlocksPerWrap(l)
  {
    if l > 0 { BlockMonotone(l - 1, a, b); }
  }

  lemma SameBlockWrap(l: nat, due: nat, now: nat)
    requires l <= 3 && now <= due < now + HORIZON
    ensures Block(l, due % TWO32) == Block(l, now % TWO32) <==> Block(l, due) == Block(l, now)
    ensures Block(l, due % TWO32) % TIME_LEVEL == Block(l, due) % TIME_LEVEL
  {
    BlockWrap(l, due);
    BlockWrap(l, now);
    DigitWrap(l, due);
    BlockMonotone(l, now, due);
    hide Block;
    var wraps := now / TWO32;
    if due / TWO32 != wraps {
      assert due / TWO32 == wraps + 1;
      assert Block(l, due) == BlocksPerWrap(l) * wraps + BlocksPerWrap(l) + Block(l, due % TWO32);
    }
  }

  /** Wrap-around of the 32-bit counter is invisible: within the horizon the slot
      computed from the wrapped words is the slot computed from the true ticks. */
  lemma SlotOfWrap(due: nat, now: nat)
    requires now <= due < now + HORIZON
    ensures SlotOf(due % TWO32, now % TWO32) == SlotOf(due, now)
  {
    hide Block;
    SameBlockWrap(0, due, now);
    SameBlockWrap(1, due, now);
    SameBlockWrap(2, due, now);
    SameBlockWrap(3, due, now);
    assert due % TWO32 % TIME_NEAR == due % TIME_NEAR;
  }

  lemma ExpireWrap(now: nat, delay: nat)
    ensures (delay + now % TWO32) % TWO32 == (now + delay) % TWO32
  {
  }

  lemma TimeWrap(now: nat)
    ensures now % TWO32 % TIME_NEAR == now % TIME_NEAR
    ensures (now % TWO32 + 1) % TWO32 == (now + 1) % TWO32
  {
  }

  lemma CascadeSlotWrap(t: nat)
    ensures CascadeSlot(t % TWO32) == CascadeSlot(t)
  {
    hide Block;
    DigitWrap(0, t);
    DigitWrap(1, t);
    DigitWrap(2, t);
    DigitWrap(3, t);
    assert t % TWO32 % TIME_NEAR == t % TIME_NEAR;
  }

  /** A tick to t enters a new block of level l. */
  predicate Carries(l: nat, t: nat) {
    if l == 0 then t % TIME_NEAR == 0 else Carries(l - 1, t) && Block(l - 1, t) % TIME_LEVEL == 0
  }

  lemma {:induction false} BlockStep(l: nat, now: nat)
    ensures Block(l, now + 1) == Block(l, now) + if Carries(l, now + 1) then 1 else 0
  {
    if l > 0 { BlockStep(l - 1, now); }
  }

  lemma BlockFacts(due: nat, now: nat)
    requires now < due
    ensures forall l {:trigger Block(l, due)} :: 0 <= l <= 3 ==>
              && Block(l, now + 1) <= Block(l, due)
              && Block(l, now + 1) == Block(l, now) + if Carries(l, now + 1) then 1 else 0
  {
    forall l | 0 <= l <= 3
      ensures Block(l, now + 1) <= Block(l, due)
      ensures Block(l, now + 1) == Block(l, now) + if Carries(l, now + 1) then 1 else 0
    {
      BlockStep(l, now);
      BlockMonotone(l, now + 1, due);
    }
  }

  /** One tick moves a pending node only if it is in the list being cascaded. */
  lemma OnlyTheCascadedSlotMoves(due: nat, now: nat)
    requires now < due < now + HORIZON
    ensures SlotOf(due, now + 1) == SlotOf(due, now) || CascadeSlot(now + 1) == Some(SlotOf(due, now))
  {
    BlockFacts(due, now);
  }

  /** A cascaded node never lands in its own slot again, nor behind a node that was
      already there: its destination list is empty when the cascade starts. */
  lemma CascadeLandsInEmptySlots(p: nat, q: nat, now: nat)
    requires now < p < now + HORIZON && now < q < now + HORIZON
    requires CascadeSlot(now + 1) == Some(SlotOf(p, now))
    ensures SlotOf(p, now + 1) != SlotOf(p, now)
    ensures SlotOf(q, now) != SlotOf(p, now + 1)
  {
    BlockFacts(p, now);
    BlockFacts(q, now);
  }

  /** The near slot of the current tick holds exactly the nodes that expire now. */
  lemma CurrentNearSlot(due: nat, now: nat)
    requires now <= due
    ensures SlotOf(due, now) == Near(now % TIME_NEAR) <==> due == now
  {
  }

  // ---------------------------------------------------------------- the reference machine

  datatype Pending = Pending(due: nat, handle: uint32, session: int) {
    function Node(): TimerNode { TimerNode(due % TWO32, handle, session) }
  }

  /** Ticks elapsed, counted without wrap, and the timers not yet fired, oldest first. */
  datatype Reference = Reference(now: nat, pending: seq<Pending>)

  predicate WithinHorizon(r: Reference) {
    forall p :: p in r.pending ==> r.now < p.due < r.now + HORIZON
  }

  function DueAt(tick: nat): Pending -> bool { (p: Pending) => p.due == tick }
  function NotDueAt(tick: nat): Pending -> bool { (p: Pending) => p.due != tick }
  function NodeOf(): Pending -> TimerNode { (p: Pending) => p.Node() }

  function Tick(r: Reference): Reference {
    Reference(r.now + 1, Filter(r.pending, NotDueAt(r.now + 1)))
  }

  function Fired(r: Reference): seq<TimerNode> {
    Map(Filter(r.pending, DueAt(r.now + 1)), NodeOf())
  }

  function Set(r: Reference, delay: int32, handle: uint32, session: int): Reference {
    if delay <= 0 then r
    else r.(pending := r.pending + [Pending(r.now + delay, handle, session)])
  }

  lemma TickStaysWithinHorizon(r: Reference)
    requires WithinHorizon(r)
    ensures WithinHorizon(Tick(r))
  {
    FilterMember(r.pending, NotDueAt(r.now + 1));
  }

  // ---------------------------------------------------------------- slot contents

  function BelongsIn(s: Slot, now: nat): Pending -> bool { (p: Pending) => SlotOf(p.due, now) == s }
  function NodeBelongsIn(s: Slot, t: uint32): TimerNode -> bool { (n: TimerNode) => SlotOf(n.expire, t) == s }

  /** The pending timers that belong in slot s at tick now, oldest first. */
  function InSlot(ps: seq<Pending>, s: Slot, now: nat): seq<TimerNode> {
    Map(Filter(ps, BelongsIn(s, now)), NodeOf())
  }

  /** The nodes of a list that belong in slot s at (wrapped) time t. */
  function Sorted(ns: seq<TimerNode>, s: Slot, t: uint32): seq<TimerNode> {
    Filter(ns, NodeBelongsIn(s, t))
  }

  lemma InSlotSnoc(ps: seq<Pending>, p: Pending, now: nat)
    ensures forall s {:trigger InSlot(ps, s, now)} ::
              InSlot(ps + [p], s, now) == InSlot(ps, s, now) + if SlotOf(p.due, now) == s then [p.Node()] else []
  {
    hide SlotOf;
    forall s
      ensures InSlot(ps + [p], s, now) == InSlot(ps, s, now) + if SlotOf(p.due, now) == s then [p.Node()] else []
    {
      FilterSnoc(ps, p, BelongsIn(s, now));
      MapAppend(Filter(ps, BelongsIn(s, now)), if SlotOf(p.due, now) == s then [p] else [], NodeOf());
    }
  }

  lemma SortedSnoc(list: seq<TimerNode>, k: nat, t: uint32)
    requires k < |list|
    ensures forall s {:trigger Sorted(list[..k], s, t)} ::
              Sorted(list[..k + 1], s, t)
                == Sorted(list[..k], s, t) + if SlotOf(list[k].expire, t) == s then [list[k]] else []
  {
    hide SlotOf;
    assert list[..k + 1] == list[..k] + [list[k]];
    forall s
      ensures Sorted(list[..k + 1], s, t)
              == Sorted(list[..k], s, t) + if SlotOf(list[k].expire, t) == s then [list[k]] else []
    {
      FilterSnoc(list[..k], list[k], NodeBelongsIn(s, t));
    }
  }

  /** Slot contents after the counter has moved and the cascade slot c was emptied and
      re-added at the new time. */
  function Cascaded(ps: seq<Pending>, s: Slot, now: nat): seq<TimerNode> {
    match CascadeSlot(now + 1)
    case None => InSlot(ps, s, now)
    case Some(c) => (if s == c then [] else InSlot(ps, s, now))
                    + Sorted(InSlot(ps, c, now), s, (now + 1) % TWO32)
  }

  function MovesTo(c: Slot, s: Slot, now: nat): Pending -> bool {
    (p: Pending) => SlotOf(p.due, now) == c && SlotOf(p.due, now + 1) == s
  }

  lemma SortedCascade(r: Reference, c: Slot, s: Slot)
    requires WithinHorizon(r)
    ensures Sorted(InSlot(r.pending, c, r.now), s, (r.now + 1) % TWO32)
         == Map(Filter(r.pending, MovesTo(c, s, r.now)), NodeOf())
  {
    hide SlotOf;
    var from := Filter(r.pending, BelongsIn(c, r.now));
    FilterMember(r.pending, BelongsIn(c, r.now));
    forall p | p in from
      ensures NodeBelongsIn(s, (r.now + 1) % TWO32)(p.Node()) == BelongsIn(s, r.now + 1)(p)
    {
      SlotOfWrap(p.due, r.now + 1);
    }
    FilterMap(from, NodeOf(), NodeBelongsIn(s, (r.now + 1) % TWO32), BelongsIn(s, r.now + 1));
    FilterTwice(r.pending, BelongsIn(c, r.now), BelongsIn(s, r.now + 1), MovesTo(c, s, r.now));
  }

  lemma CascadeFacts(r: Reference)
    requires WithinHorizon(r)
    ensures forall p :: p in r.pending ==>
              SlotOf(p.due, r.now + 1) == SlotOf(p.due, r.now) || CascadeSlot(r.now + 1) == Some(SlotOf(p.due, r.now))
    ensures forall p, q :: p in r.pending && q in r.pending && CascadeSlot(r.now + 1) == Some(SlotOf(p.due, r.now)) ==>
              SlotOf(p.due, r.now + 1) != SlotOf(p.due, r.now) && SlotOf(q.due, r.now) != SlotOf(p.due, r.now + 1)
  {
    hide SlotOf, CascadeSlot;
    forall p | p in r.pending
      ensures SlotOf(p.due, r.now + 1) == SlotOf(p.due, r.now) || CascadeSlot(r.now + 1) == Some(SlotOf(p.due, r.now))
    {
      OnlyTheCascadedSlotMoves(p.due, r.now);
    }
    forall p, q | p in r.pending && q in r.pending && CascadeSlot(r.now + 1) == Some(SlotOf(p.due, r.now))
      ensures SlotOf(p.due, r.now + 1) != SlotOf(p.due, r.now) && SlotOf(q.due, r.now) != SlotOf(p.due, r.now + 1)
    {
      CascadeLandsInEmptySlots(p.due, q.due, r.now);
    }
  }

  /** The cascade puts every slot list back in the order the timers were set. */
  lemma CascadeIsStable(r: Reference, s: Slot)
    requires WithinHorizon(r)
    ensures Cascaded(r.pending, s, r.now) == InSlot(r.pending, s, r.now + 1)
  {
    hide SlotOf, CascadeSlot;
    CascadeFacts(r);
    var ps, before, after := r.pending, BelongsIn(s, r.now), BelongsIn(s, r.now + 1);
    match CascadeSlot(r.now + 1)
    case None =>
      FilterAgree(ps, before, after);
    case Some(c) =>
      var moves := MovesTo(c, s, r.now);
      SortedCascade(r, c, s);
      if p :| p in ps && moves(p) {
        FilterNone(ps, before);
        FilterAgree(ps, moves, after);
      } else {
        FilterNone(ps, moves);
        if s == c { FilterNone(ps, after); } else { FilterAgree(ps, before, after); }
      }
  }

  lemma CurrentSlotFacts(ps: seq<Pending>, now: nat)
    requires forall p :: p in ps ==> now <= p.due
    ensures forall p :: p in ps ==> (SlotOf(p.due, now) == Near(now % TIME_NEAR) <==> p.due == now)
  {
    hide SlotOf;
    forall p | p in ps
      ensures SlotOf(p.due, now) == Near(now % TIME_NEAR) <==> p.due == now
    {
      CurrentNearSlot(p.due, now);
    }
  }

  /** Clearing the current near slot fires exactly what is due, in order. */
  lemma CurrentSlotIsWhatIsDue(ps: seq<Pending>, now: nat)
    requires forall p :: p in ps ==> now <= p.due
    ensures InSlot(ps, Near(now % TIME_NEAR), now) == Map(Filter(ps, DueAt(now)), NodeOf())
  {
    hide SlotOf;
    CurrentSlotFacts(ps, now);
    FilterAgree(ps, BelongsIn(Near(now % TIME_NEAR), now), DueAt(now));
  }

  lemma OtherSlotsKeepTheRest(ps: seq<Pending>, s: Slot, now: nat)
    requires forall p :: p in ps ==> now <= p.due
    ensures InSlot(Filter(ps, NotDueAt(now)), s, now) == if s == Near(now % TIME_NEAR) then [] else InSlot(ps, s, now)
  {
    hide SlotOf;
    CurrentSlotFacts(ps, now);
    var both := (p: Pending) => p.due != now && SlotOf(p.due, now) == s;
    FilterTwice(ps, NotDueAt(now), BelongsIn(s, now), both);
    if s == Near(now % TIME_NEAR) {
      FilterNone(ps, both);
    } else {
      FilterAgree(ps, both, BelongsIn(s, now));
    }
  }

  lemma NothingDueYet(r: Reference)
    requires WithinHorizon(r)
    ensures InSlot(r.pending, Near(r.now % TIME_NEAR), r.now) == []
  {
    hide SlotOf;
    CurrentSlotFacts(r.pending, r.now);
    FilterNone(r.pending, BelongsIn(Near(r.now % TIME_NEAR), r.now));
  }

  lemma CascadeAllSlots(r: Reference)
    requires WithinHorizon(r)
    ensures forall s {:trigger InSlot(r.pending, s, r.now + 1)} ::
              InSlot(r.pending, s, r.now + 1) == Cascaded(r.pending, s, r.now)
  {
    hide SlotOf, CascadeSlot, InSlot, Sorted;
    forall s {:trigger Cascaded(r.pending, s, r.now)}
      ensures InSlot(r.pending, s, r.now + 1) == Cascaded(r.pending, s, r.now)
    {
      CascadeIsStable(r, s);
    }
  }

  lemma TickAllSlots(r: Reference)
    requires WithinHorizon(r)
    ensures forall s {:trigger InSlot(Tick(r).pending, s, r.now + 1)} :: InSlot(Tick(r).pending, s, r.now + 1) ==
              if s == Near((r.now + 1) % TIME_NEAR) then [] else InSlot(r.pending, s, r.now + 1)
    ensures InSlot(r.pending, Near((r.now + 1) % TIME_NEAR), r.now + 1) == Fired(r)
  {
    hide SlotOf, InSlot, Filter, Map;
    CurrentSlotIsWhatIsDue(r.pending, r.now + 1);
    var rest, next := Tick(r).pending, r.now + 1;
    forall s
      ensures InSlot(rest, s, next) == if s == Near(next % TIME_NEAR) then [] else InSlot(r.pending, s, next)
    {
      OtherSlotsKeepTheRest(r.pending, s, r.now + 1);
    }
  }

  // ---------------------------------------------------------------- the wheel

  class Timer {
    const near: array<seq<TimerNode>>
    const t: array2<seq<TimerNode>>
    var time: uint32

    ghost predicate Valid() {
      near.Length == TIME_NEAR && t.Length0 == 4 && t.Length1 == TIME_LEVEL
    }

    ghost function ListAt(s: Slot): seq<TimerNode>
      requires Valid()
      reads near, t
    {
      match s
      case Near(i) => if i < TIME_NEAR then near[i] else []
      case Level(l, j) => if l < 4 && j < TIME_LEVEL then t[l, j] else []
    }

    /** The wheel holds r: same time modulo 2^32, and slot by slot the same timers in
        the order they were set. */
    ghost predicate Represents(r: Reference)
      reads this, near, t
    {
      && Valid()
      && WithinHorizon(r)
      && time == r.now % TWO32
      && forall s {:trigger ListAt(s)} :: ListAt(s) == InSlot(r.pending, s, r.now)
    }

    constructor (start: uint32)
      ensures Represents(Reference(start, []))
      ensures fresh(near) && fresh(t)
    {
      near := new seq<TimerNode>[TIME_NEAR](_ => []);
      t := new seq<TimerNode>[4, TIME_LEVEL]((_, _) => []);
      time := start;
    }

    method AddNode(n: TimerNode)
      requires Valid()
      modifies near, t
      ensures forall s {:trigger ListAt(s)} ::
                ListAt(s) == old(ListAt(s)) + if s == SlotOf(n.expire, time) then [n] else []
    {
      BlockIsQuotient(0, n.expire);
      BlockIsQuotient(0, time);
      BlockIsQuotient(1, n.expire);
      BlockIsQuotient(1, time);
      BlockIsQuotient(2, n.expire);
      BlockIsQuotient(2, time);
      BlockIsQuotient(3, n.expire);
      BlockIsQuotient(3, time);
      if n.expire / TIME_NEAR == time / TIME_NEAR {
        var i := n.expire % TIME_NEAR;
        near[i] := near[i] + [n];
      } else {
        var i, mask := 0, TIME_NEAR * TIME_LEVEL;
        while i < 3 && n.expire / mask != time / mask
          invariant 0 <= i <= 3
          invariant i < 3 ==> mask == Unit(i + 1)
          invariant mask > 0
          invariant forall k :: 1 <= k <= i ==> Block(k, n.expire) != Block(k, time)
        {
          i, mask := i + 1, mask * TIME_LEVEL;
        }
        var j := n.expire / Unit(i) % TIME_LEVEL;
        assert SlotOf(n.expire, time) == Level(i, j);
        t[i, j] := t[i, j] + [n];
      }
    }

    /** Detaches one level list. */
    method LinkClear(level: nat, idx: nat) returns (list: seq<TimerNode>)
      requires Valid() && level < 4 && idx < TIME_LEVEL
      modifies t
      ensures list == old(ListAt(Level(level, idx)))
      ensures forall s {:trigger ListAt(s)} :: ListAt(s) == if s == Level(level, idx) then [] else old(ListAt(s))
    {
      list := t[level, idx];
      t[level, idx] := [];
    }

    method MoveList(level: nat, idx: nat)
      requires Valid() && level < 4 && idx < TIME_LEVEL
      modifies near, t
      ensures forall s {:trigger ListAt(s)} ::
                ListAt(s) == (if s == Level(level, idx) then [] else old(ListAt(s)))
                             + Sorted(old(ListAt(Level(level, idx))), s, time)
    {
      hide SlotOf, ListAt;
      var list := LinkClear(level, idx);
      var k := 0;
      while k < |list|
        invariant k <= |list|
        invariant forall s {:trigger ListAt(s)} ::
                    ListAt(s) == (if s == Level(level, idx) then [] else old(ListAt(s)))
                                 + Sorted(list[..k], s, time)
      {
        AddNode(list[k]);
        SortedSnoc(list, k, time);
        k := k + 1;
      }
      assert list[..k] == list;
    }

    /** The loop over the levels stops at level 3 at the latest, so every index is in
        bounds and the mask never overflows. */
    method TimerShift()
      requires Valid()
      modifies this, near, t
      ensures time == (old(time) + 1) % TWO32
      ensures forall s {:trigger ListAt(s)} ::
                ListAt(s) ==
                match CascadeSlot(time)
                case None => old(ListAt(s))
                case Some(c) => (if s == c then [] else old(ListAt(s))) + Sorted(old(ListAt(c)), s, time)
    {
      hide SlotOf, Sorted;
      var ct := (time + 1) % TWO32;
      time := ct;
      if ct == 0 {
        MoveList(3, 0);
      } else {
        var mask, rest, i := TIME_NEAR, ct / TIME_NEAR, 0;
        while ct % mask == 0
          invariant 0 <= i <= 3
          invariant mask == Unit(i) && rest == Block(i, ct)
          invariant i > 0 ==> ct % mask == 0
          invariant forall k :: 0 <= k < i ==> Block(k, ct) % TIME_LEVEL == 0
          invariant time == ct
          invariant forall s {:trigger ListAt(s)} :: ListAt(s) == old(ListAt(s))
          decreases 3 - i
        {
          var idx := rest % TIME_LEVEL;
          if idx != 0 {
            CascadeLevel(i, ct);
            MoveList(i, idx);
            break;
          }
          CascadeClimbs(i, ct);
          mask, rest, i := mask * TIME_LEVEL, rest / TIME_LEVEL, i + 1;
        }
      }
    }

    /** Dispatches the whole current near list. */
    method Execute() returns (fired: seq<TimerNode>)
      requires Valid()
      modifies near
      ensures fired == old(ListAt(Near(time % TIME_NEAR)))
      ensures forall s {:trigger ListAt(s)} ::
                ListAt(s) == if s == Near(time % TIME_NEAR) then [] else old(ListAt(s))
    {
      var idx := time % TIME_NEAR;
      fired := [];
      while near[idx] != []
        invariant fired + near[idx] == old(near[idx])
        invariant forall i :: 0 <= i < TIME_NEAR && i != idx ==> near[i] == old(near[i])
        decreases |near[idx]|
      {
        fired := fired + near[idx];
        near[idx] := [];
      }
    }

    /** One tick of the wheel is one tick of the reference machine, and dispatches what
        that machine fires, in the same order. */
    method Update(ghost r: Reference) returns (fired: seq<TimerNode>)
      requires Represents(r)
      modifies this, near, t
      ensures Represents(Tick(r))
      ensures fired == Fired(r)
    {
      hide SlotOf, CascadeSlot, InSlot, Sorted, Filter, Map, ListAt;
      TimeWrap(r.now);
      TimeWrap(r.now + 1);
      var early := Execute();
      NothingDueYet(r);
      TimerShift();
      CascadeSlotWrap(r.now + 1);
      CascadeAllSlots(r);
      assert forall s {:trigger ListAt(s)} :: ListAt(s) == InSlot(r.pending, s, r.now + 1);
      fired := Execute();
      TickStaysWithinHorizon(r);
      TickAllSlots(r);
      fired := early + fired;
    }

    /** A positive delay links a node; anything else is answered at once. */
    method Timeout(delay: int32, handle: uint32, session: int, ghost r: Reference) returns (now: seq<TimerNode>)
      requires Represents(r)
      modifies near, t
      ensures Represents(Set(r, delay, handle, session))
      ensures now == Immediate(r.now, delay, handle, session)
    {
      hide SlotOf, InSlot, ListAt;
      if delay <= 0 {
        now := [TimerNode(time, handle, session)];
      } else {
        var n := TimerNode((delay + time) % TWO32, handle, session);
        ghost var p := Pending(r.now + delay, handle, session);
        ExpireWrap(r.now, delay);
        SlotOfWrap(p.due, r.now);
        AddNode(n);
        InSlotSnoc(r.pending, p, r.now);
        now := [];
      }
    }

    /** Catches up with the monotonic clock: one Update per elapsed centisecond, none
        when the clock went backwards. */
    method Updatetime(clock: nat, point: nat, ghost r: Reference) returns (fired: seq<TimerNode>)
      requires Represents(r)
      modifies this, near, t
      ensures time == (old(time) + if clock > point then clock - point else 0) % 0x1_0000_0000
      ensures Represents(Ticks(r, Elapsed(clock, point)))
      ensures fired == FiredOver(r, Elapsed(clock, point))
    {
      hide SlotOf, InSlot, ListAt;
      CaughtUp(r, clock, point);
      fired := [];
      if clock >= point && clock != point {
        var diff := (clock - point) % TWO32;
        var i := 0;
        while i < diff
          invariant i <= diff
          invariant Represents(Ticks(r, i))
          invariant fired == FiredOver(r, i)
        {
          var batch := Update(Ticks(r, i));
          fired := fired + batch;
          i := i + 1;
        }
      }
    }
  }

  function Immediate(now: nat, delay: int32, handle: uint32, session: int): seq<TimerNode> {
    if delay <= 0 then [TimerNode(now % TWO32, handle, session)] else []
  }

  /** The elapsed ticks are narrowed to 32 bits before they are counted off. */
  function Elapsed(clock: nat, point: nat): nat {
    if clock >= point then (clock - point) % TWO32 else 0
  }

  function Ticks(r: Reference, n: nat): Reference {
    if n == 0 then r else Tick(Ticks(r, n - 1))
  }

  function FiredOver(r: Reference, n: nat): seq<TimerNode> {
    if n == 0 then [] else FiredOver(r, n - 1) + Fired(Ticks(r, n - 1))
  }

  lemma {:induction false} TicksNow(r: Reference, n: nat)
    ensures Ticks(r, n).now == r.now + n
  {
    if n > 0 { TicksNow(r, n - 1); }
  }

  /** The wrapped time after all elapsed ticks. */
  lemma CaughtUp(r: Reference, clock: nat, point: nat)
    ensures Ticks(r, Elapsed(clock, point)).now % TWO32
         == (r.now % TWO32 + if clock > point then clock - point else 0) % 0x1_0000_0000
  {
    TicksNow(r, Elapsed(clock, point));
    WrapAdds(r.now, if clock > point then clock - point else 0);
  }

  lemma WrapAdds(now: nat, d: nat)
    ensures (now + d % TWO32) % TWO32 == (now % TWO32 + d) % TWO32
  {
    var q, k := now / TWO32, d / TWO32;
    assert now == q * TWO32 + now % TWO32 && d == k * TWO32 + d % TWO32;
    assert now + d % TWO32 == q * TWO32 + (now % TWO32 + d % TWO32);
    assert now % TWO32 + d == k * TWO32 + (now % TWO32 + d % TWO32);
    DropMultiple(now % TWO32 + d % TWO32, q);
    DropMultiple(now % TWO32 + d % TWO32, k);
  }

  lemma DropMultiple(x: nat, q: nat)
    ensures (q * TWO32 + x) % TWO32 == x % TWO32
  {
  }

  // ---------------------------------------------------------------- whole runs

  datatype Op = SetTimer(delay: int32, handle: uint32, session: int) | Advance

  /** The reference machine after a run that started at tick start. */
  function After(start: nat, ops: seq<Op>): Reference {
    if |ops| == 0 then Reference(start, [])
    else
      var r := After(start, ops[..|ops| - 1]);
      match ops[|ops| - 1]
      case Advance => Tick(r)
      case SetTimer(d, h, s) => Set(r, d, h, s)
  }

  /** What operation k of a run dispatches. */
  function Batch(start: nat, ops: seq<Op>, k: nat): seq<TimerNode>
    requires k < |ops|
  {
    var r := After(start, ops[..k]);
    match ops[k]
    case Advance => Fired(r)
    case SetTimer(d, h, s) => Immediate(r.now, d, h, s)
  }

  function Advances(ops: seq<Op>): nat {
    if |ops| == 0 then 0 else Advances(ops[..|ops| - 1]) + if ops[|ops| - 1].Advance? then 1 else 0
  }

  /** Every timer with a positive delay set during the run, oldest first, due `delay`
      Advances after the ones that preceded its setting. */
  function Issued(start: nat, ops: seq<Op>): seq<Pending> {
    if |ops| == 0 then []
    else
      var before := ops[..|ops| - 1];
      match ops[|ops| - 1]
      case Advance => Issued(start, before)
      case SetTimer(d, h, s) =>
        Issued(start, before) + if d <= 0 then [] else [Pending(start + Advances(before) + d, h, s)]
  }

  function DueAfter(tick: nat): Pending -> bool { (p: Pending) => p.due > tick }

  lemma {:induction false} PendingIsIssuedAndNotDue(start: nat, ops: seq<Op>)
    ensures After(start, ops).now == start + Advances(ops)
    ensures After(start, ops).pending == Filter(Issued(start, ops), DueAfter(start + Advances(ops)))
  {
    hide Filter;
    if |ops| == 0 {
      FilterNone(Issued(start, ops), DueAfter(start));
    } else {
      var before := ops[..|ops| - 1];
      var now := start + Advances(before);
      PendingIsIssuedAndNotDue(start, before);
      match ops[|ops| - 1]
      case Advance =>
        FilterTwice(Issued(start, before), DueAfter(now), NotDueAt(now + 1), DueAfter(now + 1));
      case SetTimer(d, h, s) =>
        if d <= 0 {
          assert Issued(start, ops) == Issued(start, before);
        } else {
          var p := Pending(now + d, h, s);
          FilterSnoc(Issued(start, before), p, DueAfter(now));
        }
    }
  }

  /** Exactly-once, on-time, in-order dispatch. The Advance at position k dispatches, in
      the order they were set, exactly those timers set before it whose delay equals the
      number of Advances from their setting up to and including this one. */
  lemma TimersFireOnTheirTick(start: nat, ops: seq<Op>, k: nat)
    requires k < |ops| && ops[k].Advance?
    ensures Batch(start, ops, k)
         == Map(Filter(Issued(start, ops[..k]), DueAt(start + Advances(ops[..k]) + 1)), NodeOf())
  {
    hide Filter, Map;
    var now := start + Advances(ops[..k]);
    PendingIsIssuedAndNotDue(start, ops[..k]);
    FilterTwice(Issued(start, ops[..k]), DueAfter(now), DueAt(now + 1), DueAt(now + 1));
  }

  // ---------------------------------------------------------------- the lock as written

  lemma {:induction false} HangsBefore(due: nat, now: nat)
    requires now < due < now + HORIZON
    ensures Block(0, due) != Block(0, now) ==>
              exists k {:trigger CascadeSlot(k + 1)} :: now <= k < due && CascadeSlot(k + 1) == Some(SlotOf(due, k))
    decreases due - now
  {
    if Block(0, due) != Block(0, now) && CascadeSlot(now + 1) != Some(SlotOf(due, now)) {
      OnlyTheCascadedSlotMoves(due, now);
      BlockFacts(due, now);
      assert Block(0, due) != Block(0, now + 1) && now + 1 < due;
      HangsBefore(due, now + 1);
    }
  }

  /** `AddNode` takes the spin lock that `Update` already holds when it cascades, so as
      written the first tick that cascades a timer's list never returns. A timer escapes
      this if and only if it is set and due within the same 256-tick block. */
  lemma TimerHangsIffItLeavesItsBlock(due: nat, now: nat)
    requires now < due < now + HORIZON
    ensures (exists k {:trigger CascadeSlot(k + 1)} :: now <= k < due && CascadeSlot(k + 1) == Some(SlotOf(due, k)))
       <==> Block(0, due) != Block(0, now)
  {
    HangsBefore(due, now);
    if Block(0, due) == Block(0, now) {
      forall k | now <= k < due
        ensures SlotOf(due, k).Near? && (CascadeSlot(k + 1).Some? ==> CascadeSlot(k + 1).value.Level?)
      {
        BlockMonotone(0, now, k);
        BlockMonotone(0, k, due);
      }
    }
  }

  /** A zero digit at level i sends the loop on, never past level 3. */
  lemma CascadeClimbs(i: nat, ct: uint32)
    requires i <= 3 && ct != 0 && ct % Unit(i) == 0 && Block(i, ct) % TIME_LEVEL == 0
    ensures i < 3 && ct % Unit(i + 1) == 0
  {
    BlockIsQuotient(i, ct);
    if i < 3 { BlockIsQuotient(i + 1, ct); }
  }

  lemma CascadeLevel(i: nat, ct: uint32)
    requires i <= 3 && ct % Unit(i) == 0 && Block(i, ct) % TIME_LEVEL != 0
    requires forall k :: 0 <= k < i ==> Block(k, ct) % TIME_LEVEL == 0
    ensures CascadeSlot(ct) == Some(Level(i, Block(i, ct) % TIME_LEVEL))
  {
    BlockIsQuotient(i, ct);
    assert ct % TIME_NEAR == 0;
    hide Block;
  }
}
