/** The reader/writer lock over the atomic steps of any number of threads. */
module RwLock {
  import opened Counting

  /** What a thread does next. */
  datatype Pc =
    | Idle
    | ReadSpin                   // waiting to see no writer
    | ReadAdd                    // saw none: about to count itself
    | ReadCheck                  // counted: about to look for a writer again
    | ReadBack                   // saw a writer: about to uncount itself
    | Reading
    | WriteSpin(expected: int)   // about to compare and exchange, with this expected value
    | WriteDrain                 // owns the write flag: waiting for the readers to leave
    | Writing

  datatype Lock = Lock(write: int, read: int, pcs: seq<Pc>)

  datatype Step =
    | WantRead | SeeFree | Count | Recheck | Uncount | ReadUnlock
    | WantWrite | Try(spurious: bool) | Drained | WriteUnlock

  function Start(n: nat): Lock {
    Lock(0, 0, seq(n, _ => Idle))
  }

  predicate Enabled(l: Lock, t: nat, s: Step) {
    && t < |l.pcs|
    && match s
       case WantRead => l.pcs[t].Idle?
       case SeeFree => l.pcs[t].ReadSpin? && l.write == 0
       case Count => l.pcs[t].ReadAdd?
       case Recheck => l.pcs[t].ReadCheck?
       case Uncount => l.pcs[t].ReadBack?
       case ReadUnlock => l.pcs[t].Reading?
       case WantWrite => l.pcs[t].Idle?
       case Try(_) => l.pcs[t].WriteSpin?
       case Drained => l.pcs[t].WriteDrain? && l.read == 0
       case WriteUnlock => l.pcs[t].Writing?
  }

  /** With reset the expected value is 0 on every try; without it a failed try stores the value
      it found there, as the weak compare and exchange of the source does. */
  function Next(l: Lock, t: nat, s: Step, reset: bool): Lock
    requires Enabled(l, t, s)
  {
    match s
    case WantRead => l.(pcs := l.pcs[t := ReadSpin])
    case SeeFree => l.(pcs := l.pcs[t := ReadAdd])
    case Count => l.(read := l.read + 1, pcs := l.pcs[t := ReadCheck])
    case Recheck => l.(pcs := l.pcs[t := if l.write != 0 then ReadBack else Reading])
    case Uncount => l.(read := l.read - 1, pcs := l.pcs[t := ReadSpin])
    case ReadUnlock => l.(read := l.read - 1, pcs := l.pcs[t := Idle])
    case WantWrite => l.(pcs := l.pcs[t := WriteSpin(0)])
    case Try(spurious) =>
      if l.write == l.pcs[t].expected && !spurious then l.(write := 1, pcs := l.pcs[t := WriteDrain])
      else l.(pcs := l.pcs[t := WriteSpin(if reset then 0 else l.write)])
    case Drained => l.(pcs := l.pcs[t := Writing])
    case WriteUnlock => l.(write := 0, pcs := l.pcs[t := Idle])
  }

  datatype Act = Act(thread: nat, step: Step)

  ghost predicate Possible(l: Lock, acts: seq<Act>, reset: bool)
    decreases |acts|
  {
    |acts| > 0 ==>
      && Enabled(l, acts[0].thread, acts[0].step)
      && Possible(Next(l, acts[0].thread, acts[0].step, reset), acts[1..], reset)
  }

  ghost function Run(l: Lock, acts: seq<Act>, reset: bool): Lock
    requires Possible(l, acts, reset)
    decreases |acts|
  {
    if |acts| == 0 then l else Run(Next(l, acts[0].thread, acts[0].step, reset), acts[1..], reset)
  }

  // ---------------------------------------------------------------- the invariant

  predicate Counted(pc: Pc) {
    pc.ReadCheck? || pc.ReadBack? || pc.Reading?
  }

  predicate HoldsWrite(pc: Pc) {
    pc.WriteDrain? || pc.Writing?
  }

  function Readers(): Pc -> nat {
    (pc: Pc) => if Counted(pc) then 1 else 0
  }

  function Writers(): Pc -> nat {
    (pc: Pc) => if HoldsWrite(pc) then 1 else 0
  }

  predicate NobodyReads(pcs: seq<Pc>) {
    forall u :: 0 <= u < |pcs| ==> !pcs[u].Reading?
  }

  predicate Inv(l: Lock) {
    && l.read == Total(l.pcs, Readers())
    && l.write == Total(l.pcs, Writers()) <= 1
    && (forall t :: 0 <= t < |l.pcs| && l.pcs[t].Writing? ==> NobodyReads(l.pcs))
  }

  /** A try made while the write flag is up, or one that expects it to be up. */
  predicate Contended(l: Lock, t: nat, s: Step) {
    Enabled(l, t, s) && s.Try? && (l.write != 0 || l.pcs[t].expected != 0)
  }

  lemma OnlyWriter(l: Lock, t: nat, u: nat)
    requires Inv(l) && t < |l.pcs| && u < |l.pcs| && HoldsWrite(l.pcs[t]) && HoldsWrite(l.pcs[u])
    ensures t == u && l.write == 1
  {
    TotalAtLeast(l.pcs, Writers(), if t < u then t else u, if t < u then u else t);
  }

  lemma NoneCounted(l: Lock)
    requires Inv(l) && l.read == 0
    ensures NobodyReads(l.pcs)
  {
    forall u | 0 <= u < |l.pcs|
      ensures !l.pcs[u].Reading?
    {
      TotalAtLeast(l.pcs, Readers(), u, u);
    }
  }

  /** Every step of the lock as meant, and every uncontended step of the lock as written,
      keeps the counts exact and readers away from a writer. */
  lemma StepKeepsInv(l: Lock, t: nat, s: Step, reset: bool)
    requires Inv(l) && Enabled(l, t, s)
    requires s.Try? ==> l.pcs[t].expected == 0
    ensures Inv(Next(l, t, s, reset))
  {
    hide Total;
    var l' := Next(l, t, s, reset);
    TotalUpdate(l.pcs, t, l'.pcs[t], Readers());
    TotalUpdate(l.pcs, t, l'.pcs[t], Writers());
    assert l'.pcs == l.pcs[t := l'.pcs[t]];
    TotalAtLeast(l.pcs, Writers(), t, t);
    forall u | 0 <= u < |l'.pcs| && l'.pcs[u].Writing?
      ensures NobodyReads(l'.pcs)
    {
      if s.Drained? {
        NoneCounted(l);
      } else if u != t {
        OnlyWriter(l, u, u);
      }
    }
  }

  // ---------------------------------------------------------------- the lock as meant

  /** Under reset every thread that spins expects 0. */
  predicate ExpectsZero(l: Lock) {
    forall t :: 0 <= t < |l.pcs| && l.pcs[t].WriteSpin? ==> l.pcs[t].expected == 0
  }

  lemma {:induction false} EveryRun(l: Lock, acts: seq<Act>)
    requires Inv(l) && ExpectsZero(l) && Possible(l, acts, true)
    ensures Inv(Run(l, acts, true)) && ExpectsZero(Run(l, acts, true))
    decreases |acts|
  {
    hide Inv;
    if |acts| > 0 {
      StepKeepsInv(l, acts[0].thread, acts[0].step, true);
      EveryRun(Next(l, acts[0].thread, acts[0].step, true), acts[1..]);
    }
  }

  lemma StartIsInv(n: nat)
    ensures Inv(Start(n)) && ExpectsZero(Start(n))
  {
    TotalZero(Start(n).pcs, Readers());
    TotalZero(Start(n).pcs, Writers());
  }

  /** In every state of every run a writer past its drain loop excludes every other writer and
      every reader past its second check, and the read count is that of the threads holding or
      probing. */
  lemma WriterExcludesAll(n: nat, acts: seq<Act>, t: nat, u: nat)
    requires Possible(Start(n), acts, true)
    requires var l := Run(Start(n), acts, true); t < |l.pcs| && u < |l.pcs| && l.pcs[t].Writing? && u != t
    ensures
      var l := Run(Start(n), acts, true);
      !HoldsWrite(l.pcs[u]) && !l.pcs[u].Reading? && l.read == Total(l.pcs, Readers())
  {
    hide Total, Possible, Run, Start;
    StartIsInv(n);
    EveryRun(Start(n), acts);
    var l := Run(Start(n), acts, true);
    if HoldsWrite(l.pcs[u]) {
      OnlyWriter(l, t, u);
    }
    assert NobodyReads(l.pcs);
  }

  /** While a writer waits or writes no further reader gets in. */
  lemma WriterStopsNewReaders(l: Lock, t: nat, s: Step, u: nat, w: nat)
    requires Inv(l) && Enabled(l, t, s) && u < |l.pcs| && w < |l.pcs| && HoldsWrite(l.pcs[w])
    requires Next(l, t, s, true).pcs[u].Reading?
    ensures l.pcs[u].Reading?
  {
    OnlyWriter(l, w, w);
  }

  /** In the lock as meant, a writer that never unlocks keeps everybody out for ever: no other
      thread reads or owns the write flag. */
  lemma {:induction false} StuckWriterBlocksAll(l: Lock, acts: seq<Act>, t: nat, u: nat)
    requires Inv(l) && ExpectsZero(l) && Possible(l, acts, true) && t < |l.pcs| && l.pcs[t].Writing?
    requires forall i :: 0 <= i < |acts| ==> acts[i].thread != t
    requires u < |l.pcs| && u != t
    ensures
      var l' := Run(l, acts, true);
      |l'.pcs| == |l.pcs| && l'.pcs[t].Writing? && !l'.pcs[u].Reading? && !HoldsWrite(l'.pcs[u])
    decreases |acts|
  {
    hide Total;
    if |acts| == 0 {
      assert NobodyReads(l.pcs);
      if HoldsWrite(l.pcs[u]) {
        OnlyWriter(l, t, u);
      }
    } else {
      assert acts[0].thread != t;
      StepKeepsInv(l, acts[0].thread, acts[0].step, true);
      StuckWriterBlocksAll(Next(l, acts[0].thread, acts[0].step, true), acts[1..], t, u);
    }
  }

  // ---------------------------------------------------------------- a flag that was left up

  /** Whatever the expected values, only an unlock takes the flag down, and while it is up no
      reader gets past its second check. */
  lemma FlagStep(l: Lock, t: nat, s: Step, reset: bool)
    requires l.write == 1 && Enabled(l, t, s)
    ensures Next(l, t, s, reset).write == if s.WriteUnlock? then 0 else 1
    ensures forall u :: 0 <= u < |l.pcs| && Next(l, t, s, reset).pcs[u].Reading? ==> l.pcs[u].Reading?
  {
  }

  /** The step at which the first unlock happens, |acts| if there is none. */
  function FirstUnlock(acts: seq<Act>): (i: nat)
    ensures i <= |acts|
  {
    if acts == [] then 0 else if acts[0].step.WriteUnlock? then 0 else 1 + FirstUnlock(acts[1..])
  }

  /** A flag that was left up, by a name registered twice, blocks every new reader until some
      thread unlocks, and that unlock ends it: this holds of the lock as written and as meant. */
  lemma {:induction false} LeftFlagBlocksUntilUnlock(l: Lock, acts: seq<Act>, reset: bool, i: nat)
    requires l.write == 1 && Possible(l, acts, reset) && i <= |acts|
    ensures Possible(l, acts[..i], reset)
    ensures i <= FirstUnlock(acts) ==> Run(l, acts[..i], reset).write == 1
    ensures
      var l' := Run(l, acts[..i], reset);
      i <= FirstUnlock(acts) ==>
        |l'.pcs| == |l.pcs| && forall u :: 0 <= u < |l.pcs| && l'.pcs[u].Reading? ==> l.pcs[u].Reading?
    ensures i == FirstUnlock(acts) + 1 ==> Run(l, acts[..i], reset).write == 0
    decreases i
  {
    hide Enabled, Next;
    if i > 0 {
      assert acts[..i][0] == acts[0] && acts[..i][1..] == acts[1..][..i - 1];
      FlagStep(l, acts[0].thread, acts[0].step, reset);
      NextKeepsThreads(l, acts[0].thread, acts[0].step, reset);
      var l1 := Next(l, acts[0].thread, acts[0].step, reset);
      if !acts[0].step.WriteUnlock? {
        LeftFlagBlocksUntilUnlock(l1, acts[1..], reset, i - 1);
      } else {
        PrefixPossible(l1, acts[1..], reset, i - 1);
        assert i == 1 ==> Run(l1, acts[1..][..0], reset) == l1;
      }
    }
  }

  lemma NextKeepsThreads(l: Lock, t: nat, s: Step, reset: bool)
    requires Enabled(l, t, s)
    ensures |Next(l, t, s, reset).pcs| == |l.pcs|
  {
  }

  lemma {:induction false} PrefixPossible(l: Lock, acts: seq<Act>, reset: bool, i: nat)
    requires Possible(l, acts, reset) && i <= |acts|
    ensures Possible(l, acts[..i], reset)
    decreases i
  {
    hide Enabled, Next;
    if i > 0 {
      assert acts[..i][0] == acts[0] && acts[..i][1..] == acts[1..][..i - 1];
      PrefixPossible(Next(l, acts[0].thread, acts[0].step, reset), acts[1..], reset, i - 1);
    }
  }

  /** Who can unlock while the owner never does: in the lock as meant nobody, in the lock as
      written any thread that spins in wlock, once the readers that are in have left. */
  lemma LeftFlagEndsAsWritten(l: Lock, t: nat, u: nat)
    requires Inv(l) && t < |l.pcs| && u < |l.pcs| && l.pcs[t].Writing? && l.pcs[u] == WriteSpin(0) && l.read == 0
    ensures
      var acts := [Act(u, Try(false)), Act(u, Try(false)), Act(u, Drained), Act(u, WriteUnlock)];
      && Possible(l, acts, false)
      && Run(l, acts, false) == l.(write := 0, pcs := l.pcs[u := Idle])
  {
    hide Total, Inv;
    OnlyWriter(l, t, t);
    var l1 := l.(pcs := l.pcs[u := WriteSpin(1)]);
    var l2 := l.(pcs := l.pcs[u := WriteDrain]);
    var l3 := l.(pcs := l.pcs[u := Writing]);
    var l4 := l.(write := 0, pcs := l.pcs[u := Idle]);
    assert Next(l, u, Try(false), false) == l1;
    assert l1.pcs[u := WriteDrain] == l2.pcs && Next(l1, u, Try(false), false) == l2;
    assert l2.pcs[u := Writing] == l3.pcs && Next(l2, u, Drained, false) == l3;
    assert l3.pcs[u := Idle] == l4.pcs && Next(l3, u, WriteUnlock, false) == l4;
    OneMore(l3, Act(u, WriteUnlock), [], false);
    OneMore(l2, Act(u, Drained), [Act(u, WriteUnlock)], false);
    OneMore(l1, Act(u, Try(false)), [Act(u, Drained), Act(u, WriteUnlock)], false);
    OneMore(l, Act(u, Try(false)), [Act(u, Try(false)), Act(u, Drained), Act(u, WriteUnlock)], false);
  }

  lemma OneMore(l: Lock, a: Act, rest: seq<Act>, reset: bool)
    requires Enabled(l, a.thread, a.step) && Possible(Next(l, a.thread, a.step, reset), rest, reset)
    ensures Possible(l, [a] + rest, reset)
    ensures Run(l, [a] + rest, reset) == Run(Next(l, a.thread, a.step, reset), rest, reset)
  {
    hide Enabled, Next;
    assert ([a] + rest)[1..] == rest;
  }

  lemma NoActs(l: Lock, reset: bool)
    ensures Possible(l, [], reset) && Run(l, [], reset) == l
  {
  }

  // ---------------------------------------------------------------- getting in and out

  /** A reader that meets no writer gets in, and leaves the lock as it found it: as meant and as
      written, however many others read. */
  lemma ReaderGetsIn(l: Lock, t: nat, reset: bool)
    requires t < |l.pcs| && l.pcs[t].Idle? && l.write == 0
    ensures
      var enter := [Act(t, WantRead), Act(t, SeeFree), Act(t, Count), Act(t, Recheck)];
      && Possible(l, enter, reset) && Run(l, enter, reset) == l.(read := l.read + 1, pcs := l.pcs[t := Reading])
      && Enabled(Run(l, enter, reset), t, ReadUnlock) && Next(Run(l, enter, reset), t, ReadUnlock, reset) == l
  {
    hide Possible, Run;
    var l1, l2 := l.(pcs := l.pcs[t := ReadSpin]), l.(pcs := l.pcs[t := ReadAdd]);
    var l3 := l.(read := l.read + 1, pcs := l.pcs[t := ReadCheck]);
    var l4 := l.(read := l.read + 1, pcs := l.pcs[t := Reading]);
    assert l1.pcs[t := ReadAdd] == l2.pcs && l2.pcs[t := ReadCheck] == l3.pcs && l3.pcs[t := Reading] == l4.pcs;
    NoActs(l4, reset);
    OneMore(l3, Act(t, Recheck), [], reset);
    assert [Act(t, Recheck)] + [] == [Act(t, Recheck)];
    OneMore(l2, Act(t, Count), [Act(t, Recheck)], reset);
    assert [Act(t, Count)] + [Act(t, Recheck)] == [Act(t, Count), Act(t, Recheck)];
    OneMore(l1, Act(t, SeeFree), [Act(t, Count), Act(t, Recheck)], reset);
    assert [Act(t, SeeFree)] + [Act(t, Count), Act(t, Recheck)] == [Act(t, SeeFree), Act(t, Count), Act(t, Recheck)];
    OneMore(l, Act(t, WantRead), [Act(t, SeeFree), Act(t, Count), Act(t, Recheck)], reset);
    assert [Act(t, WantRead)] + [Act(t, SeeFree), Act(t, Count), Act(t, Recheck)]
        == [Act(t, WantRead), Act(t, SeeFree), Act(t, Count), Act(t, Recheck)];
    assert l4.pcs[t := Idle] == l.pcs;
  }

  /** A reader that a writer overtook before it looked again counts itself out and spins. */
  lemma ReaderBacksOff(l: Lock, t: nat, reset: bool)
    requires t < |l.pcs| && l.pcs[t].ReadCheck? && l.write != 0
    ensures
      var back := [Act(t, Recheck), Act(t, Uncount)];
      Possible(l, back, reset) && Run(l, back, reset) == l.(read := l.read - 1, pcs := l.pcs[t := ReadSpin])
  {
    hide Possible, Run;
    var l1, l2 := l.(pcs := l.pcs[t := ReadBack]), l.(read := l.read - 1, pcs := l.pcs[t := ReadSpin]);
    assert l1.pcs[t := ReadSpin] == l2.pcs;
    NoActs(l2, reset);
    OneMore(l1, Act(t, Uncount), [], reset);
    assert [Act(t, Uncount)] + [] == [Act(t, Uncount)];
    OneMore(l, Act(t, Recheck), [Act(t, Uncount)], reset);
    assert [Act(t, Recheck)] + [Act(t, Uncount)] == [Act(t, Recheck), Act(t, Uncount)];
  }

  /** A reader that spins while the flag is up stays uncounted, whatever the others do, until some
      thread unlocks. */
  lemma {:induction false} SpinningReaderWaits(l: Lock, acts: seq<Act>, reset: bool, u: nat)
    requires l.write == 1 && u < |l.pcs| && l.pcs[u].ReadSpin? && Possible(l, acts, reset)
    requires forall i :: 0 <= i < |acts| ==> !acts[i].step.WriteUnlock?
    ensures |Run(l, acts, reset).pcs| == |l.pcs| && Run(l, acts, reset).pcs[u].ReadSpin?
    decreases |acts|
  {
    if |acts| > 0 {
      assert !acts[0].step.WriteUnlock?;
      SpinningReaderWaits(Next(l, acts[0].thread, acts[0].step, reset), acts[1..], reset, u);
    }
  }

  /** A try that fails, spuriously or against another value than expected, leaves the lock alone
      and its thread spinning: expecting 0 again as meant, what it found as written. */
  lemma FailedTrySpins(l: Lock, t: nat, spurious: bool, reset: bool)
    requires t < |l.pcs| && l.pcs[t].WriteSpin? && (spurious || l.write != l.pcs[t].expected)
    ensures Enabled(l, t, Try(spurious))
    ensures
      var l' := Next(l, t, Try(spurious), reset);
      && l'.write == l.write && l'.read == l.read && l'.pcs == l.pcs[t := l'.pcs[t]]
      && l'.pcs[t] == WriteSpin(if reset then 0 else l.write)
  {
  }

  /** A writer that meets nobody gets in at its first try, and its unlock leaves the lock as it
      found it, as meant and as written. */
  lemma WriterGetsIn(l: Lock, t: nat, reset: bool)
    requires t < |l.pcs| && l.pcs[t].Idle? && l.write == 0 && l.read == 0
    ensures
      var enter := [Act(t, WantWrite), Act(t, Try(false)), Act(t, Drained)];
      && Possible(l, enter, reset) && Run(l, enter, reset) == l.(write := 1, pcs := l.pcs[t := Writing])
      && Enabled(Run(l, enter, reset), t, WriteUnlock) && Next(Run(l, enter, reset), t, WriteUnlock, reset) == l
  {
    hide Possible, Run;
    var l1, l2 := l.(pcs := l.pcs[t := WriteSpin(0)]), l.(write := 1, pcs := l.pcs[t := WriteDrain]);
    var l3 := l.(write := 1, pcs := l.pcs[t := Writing]);
    assert l1.pcs[t := WriteDrain] == l2.pcs && l2.pcs[t := Writing] == l3.pcs && l3.pcs[t := Idle] == l.pcs;
    NoActs(l3, reset);
    OneMore(l2, Act(t, Drained), [], reset);
    assert [Act(t, Drained)] + [] == [Act(t, Drained)];
    OneMore(l1, Act(t, Try(false)), [Act(t, Drained)], reset);
    assert [Act(t, Try(false))] + [Act(t, Drained)] == [Act(t, Try(false)), Act(t, Drained)];
    OneMore(l, Act(t, WantWrite), [Act(t, Try(false)), Act(t, Drained)], reset);
    assert [Act(t, WantWrite)] + [Act(t, Try(false)), Act(t, Drained)]
        == [Act(t, WantWrite), Act(t, Try(false)), Act(t, Drained)];
  }

  // ---------------------------------------------------------------- the lock as written

  ghost predicate Uncontended(l: Lock, acts: seq<Act>)
    requires Possible(l, acts, false)
    decreases |acts|
  {
    |acts| > 0 ==>
      && !Contended(l, acts[0].thread, acts[0].step)
      && Uncontended(Next(l, acts[0].thread, acts[0].step, false), acts[1..])
  }

  /** As written the lock is safe in runs without a contended try. */
  lemma {:induction false} SafeWhenUncontended(l: Lock, acts: seq<Act>)
    requires Inv(l) && Possible(l, acts, false) && Uncontended(l, acts)
    ensures Inv(Run(l, acts, false))
    decreases |acts|
  {
    hide Inv;
    if |acts| > 0 {
      StepKeepsInv(l, acts[0].thread, acts[0].step, false);
      SafeWhenUncontended(Next(l, acts[0].thread, acts[0].step, false), acts[1..]);
    }
  }

  /** As written, whenever one thread owns the write flag and another is in its spin loop, two
      tries of the other make it a second owner: the first one stores the 1 it found. */
  lemma ContentionAdmitsTwoWriters(l: Lock, t: nat, u: nat)
    requires Inv(l) && t < |l.pcs| && u < |l.pcs| && HoldsWrite(l.pcs[t]) && l.pcs[u] == WriteSpin(0)
    ensures
      var tries := [Act(u, Try(false)), Act(u, Try(false))];
      && Possible(l, tries, false)
      && Run(l, tries, false).pcs == l.pcs[u := WriteDrain]
      && !Inv(Run(l, tries, false))
  {
    hide Total;
    OnlyWriter(l, t, t);
    assert t != u;
    var tries := [Act(u, Try(false)), Act(u, Try(false))];
    var l1 := Next(l, u, Try(false), false);
    assert l1.pcs == l.pcs[u := WriteSpin(1)] && Enabled(l1, u, Try(false));
    var l2 := Next(l1, u, Try(false), false);
    assert l2.pcs == l.pcs[u := WriteDrain];
    assert tries[1..] == [Act(u, Try(false))] && tries[1..][1..] == [];
    assert Possible(l2, tries[1..][1..], false);
    assert Possible(l1, tries[1..], false) && Run(l1, tries[1..], false) == l2;
    assert Run(l, tries, false) == l2;
    TotalUpdate(l.pcs, u, WriteDrain, Writers());
  }

  /** As written an idle thread gets in while another writes, with one try more. */
  lemma TakesTakenLock(l: Lock, t: nat)
    requires t < |l.pcs| && l.pcs[t].Idle? && l.write == 1 && l.read == 0
    ensures
      var acts := [Act(t, WantWrite), Act(t, Try(false)), Act(t, Try(false)), Act(t, Drained)];
      Possible(l, acts, false) && Run(l, acts, false) == l.(pcs := l.pcs[t := Writing])
  {
    hide Possible, Run;
    var l1, l2 := l.(pcs := l.pcs[t := WriteSpin(0)]), l.(pcs := l.pcs[t := WriteSpin(1)]);
    var l3, l4 := l.(pcs := l.pcs[t := WriteDrain]), l.(pcs := l.pcs[t := Writing]);
    assert l1.pcs[t := WriteSpin(1)] == l2.pcs && l2.pcs[t := WriteDrain] == l3.pcs && l3.pcs[t := Writing] == l4.pcs;
    var end, tries := [Act(t, Drained)], [Act(t, Try(false)), Act(t, Drained)];
    NoActs(l4, false);
    OneMore(l3, Act(t, Drained), [], false);
    assert [Act(t, Drained)] + [] == end;
    OneMore(l2, Act(t, Try(false)), end, false);
    assert [Act(t, Try(false))] + end == tries;
    OneMore(l1, Act(t, Try(false)), tries, false);
    assert [Act(t, Try(false))] + tries == [Act(t, Try(false)), Act(t, Try(false)), Act(t, Drained)];
    OneMore(l, Act(t, WantWrite), [Act(t, Try(false)), Act(t, Try(false)), Act(t, Drained)], false);
    assert [Act(t, WantWrite)] + [Act(t, Try(false)), Act(t, Try(false)), Act(t, Drained)]
        == [Act(t, WantWrite), Act(t, Try(false)), Act(t, Try(false)), Act(t, Drained)];
  }

  lemma {:induction false} RunsJoin(l: Lock, a: seq<Act>, b: seq<Act>)
    requires Possible(l, a, false) && Possible(Run(l, a, false), b, false)
    ensures Possible(l, a + b, false) && Run(l, a + b, false) == Run(Run(l, a, false), b, false)
    decreases |a|
  {
    hide Enabled, Next;
    if a == [] {
      assert a + b == b;
    } else {
      RunsJoin(Next(l, a[0].thread, a[0].step, false), a[1..], b);
      OneMore(l, a[0], a[1..] + b, false);
      assert a + b == [a[0]] + (a[1..] + b);
    }
  }

  /** So any two threads of those that start with nothing can both be writing. */
  lemma TwoWritersAreReachable(n: nat, t: nat, u: nat)
    requires t < n && u < n && t != u
    ensures
      exists acts ::
        && Possible(Start(n), acts, false)
        && var pcs := Run(Start(n), acts, false).pcs; |pcs| == n && pcs[t].Writing? && pcs[u].Writing?
  {
    hide Possible, Run;
    var l := Start(n);
    WriterGetsIn(l, t, false);
    var first := [Act(t, WantWrite), Act(t, Try(false)), Act(t, Drained)];
    var l1 := Run(l, first, false);
    TakesTakenLock(l1, u);
    var second := [Act(u, WantWrite), Act(u, Try(false)), Act(u, Try(false)), Act(u, Drained)];
    RunsJoin(l, first, second);
    assert Possible(l, first + second, false);
  }

  /** A thread that enters wlock and tries, once more if the first try fails. */
  function TwoTries(l: Lock, u: nat): Lock
    requires u < |l.pcs| && l.pcs[u].WriteSpin?
  {
    var l1 := Next(l, u, Try(false), false);
    if l1.pcs[u].WriteSpin? then Next(l1, u, Try(false), false) else l1
  }

  /** As written, entering wlock is safe exactly when the write flag is down. */
  lemma TwoTriesAreSafeIffFree(l: Lock, u: nat)
    requires Inv(l) && u < |l.pcs| && l.pcs[u] == WriteSpin(0)
    ensures Inv(TwoTries(l, u)) <==> l.write == 0
  {
    hide Total;
    if l.write == 0 {
      StepKeepsInv(l, u, Try(false), false);
    } else {
      var l1 := Next(l, u, Try(false), false);
      assert l1.pcs[u] == WriteSpin(1);
      assert TwoTries(l, u).pcs == l.pcs[u := WriteDrain];
      TotalUpdate(l.pcs, u, WriteDrain, Writers());
    }
  }
}
