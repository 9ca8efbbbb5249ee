/** The inductive invariant of the reader-writer lock: the lock word encodes the live guards, and
    whoever sleeps or is about to sleep is bound to be found by a releasing thread. */
module RwLockInvariant {
  import opened Parking
  import opened Sums
  import opened RwLockModel

  /** A ReadGuard is live in the thread. */
  function Reads(p: Pc): nat {
    Bit((p.Got? && !ForWriters(p.list)) || (p.Hold? && !p.writer))
  }

  /** A WriteGuard is live in the thread. */
  function Writes(p: Pc): nat {
    Bit((p.Got? && ForWriters(p.list)) || (p.Hold? && p.writer))
  }

  /** The thread is inside with_mut of list i, or panicked there. */
  function Inside(i: nat): Pc -> nat {
    (p: Pc) => Bit((p.Try? || p.Got? || p.Push? || p.Listed? || p.Taking? || p.Taken? || p.Panicked?) && p.list == i)
  }

  /** The thread has released its guard and has yet to take list i. */
  function WillTake(i: nat): Pc -> nat {
    (p: Pc) => Bit(((p.Visit? || p.Taking?) && p.list <= i) || ((p.Taken? || p.Waking?) && p.list < i))
  }

  function Carries(k: Key): Pc -> nat {
    (p: Pc) => if p.Taken? || p.Waking? then Occurs(k, p.batch) else 0
  }

  /** Whoever is on list i will be found: readers wait only for a writer, writers for anybody. */
  predicate Bound(s: State, i: nat) {
    || (if ForWriters(i) then s.word != UNLOCKED else s.word >= LOCKED_WRITE)
    || Sum(WillTake(i), s.pcs) > 0
  }

  predicate WakeDue(s: State, i: nat, k: Key)
    requires Shape(s) && i < 4
  {
    || k in s.ready
    || Sum(Carries(k), s.pcs) > 0
    || (k in s.lists[i] && Bound(s, i))
  }

  predicate KeyOf(t: nat, i: nat, k: Key) {
    if ForThreads(i) then k == Handle(t) else k.Cont?
  }

  predicate Safe(s: State, t: nat)
    requires WellFormed(s) && t < |s.pcs|
  {
    match s.pcs[t]
    case Push(i) => Bound(s, i)
    case Listed(i, k) => KeyOf(t, i, k) && WakeDue(s, i, k)
    case Asleep(i, k) => KeyOf(t, i, k) && WakeDue(s, i, k)
    case AssertFailed => false
    case _ => true
  }

  /** data_lock encodes the live guards: 128 for one writer and no reader, otherwise the number of
      readers, which never reaches bit 7. */
  ghost predicate Encoded(s: State) {
    && s.word == LOCKED_WRITE * Sum(Writes, s.pcs) + Sum(Reads, s.pcs)
    && Sum(Writes, s.pcs) <= 1
    && (Sum(Writes, s.pcs) == 1 ==> Sum(Reads, s.pcs) == 0)
    && Sum(Reads, s.pcs) < LOCKED_WRITE
  }

  ghost predicate ListsLocked(s: State)
    requires Shape(s)
  {
    forall i :: 0 <= i < 4 ==> Sum(Inside(i), s.pcs) == Bit(s.locks[i])
  }

  ghost predicate Inv(s: State) {
    && WellFormed(s)
    && Encoded(s)
    && ListsLocked(s)
    && forall t :: 0 <= t < |s.pcs| ==> Safe(s, t)
  }

  ghost predicate Moved(s: State, s': State, t: nat) {
    t < |s.pcs| == |s'.pcs| && s'.pcs == s.pcs[t := s'.pcs[t]]
  }

  lemma Totals(s: seq<Pc>, t: nat, p: Pc)
    requires t < |s|
    ensures Sum(Reads, s[t := p]) + Reads(s[t]) == Sum(Reads, s) + Reads(p)
    ensures Sum(Writes, s[t := p]) + Writes(s[t]) == Sum(Writes, s) + Writes(p)
    ensures forall i :: Sum(Inside(i), s[t := p]) + Inside(i)(s[t]) == Sum(Inside(i), s) + Inside(i)(p)
    ensures forall i :: Sum(WillTake(i), s[t := p]) + WillTake(i)(s[t]) == Sum(WillTake(i), s) + WillTake(i)(p)
    ensures forall k :: Sum(Carries(k), s[t := p]) + Carries(k)(s[t]) == Sum(Carries(k), s) + Carries(k)(p)
  {
    SumUpdate(Reads, s, t, p);
    SumUpdate(Writes, s, t, p);
    forall i ensures Sum(Inside(i), s[t := p]) + Inside(i)(s[t]) == Sum(Inside(i), s) + Inside(i)(p) {
      SumUpdate(Inside(i), s, t, p);
    }
    forall i ensures Sum(WillTake(i), s[t := p]) + WillTake(i)(s[t]) == Sum(WillTake(i), s) + WillTake(i)(p) {
      SumUpdate(WillTake(i), s, t, p);
    }
    forall k ensures Sum(Carries(k), s[t := p]) + Carries(k)(s[t]) == Sum(Carries(k), s) + Carries(k)(p) {
      SumUpdate(Carries(k), s, t, p);
    }
  }

  /** A guard holder alone decides what the word can be. */
  lemma GuardWord(s: State, t: nat)
    requires Inv(s) && t < |s.pcs|
    ensures Reads(s.pcs[t]) == 1 ==> 0 < s.word < LOCKED_WRITE && Sum(Writes, s.pcs) == 0
    ensures Writes(s.pcs[t]) == 1 ==> s.word == LOCKED_WRITE && Sum(Reads, s.pcs) == 0
  {
    SumAtLeast(Reads, s.pcs, t);
    SumAtLeast(Writes, s.pcs, t);
  }

  lemma InsideIsLocked(s: State, t: nat, i: nat)
    requires Inv(s) && t < |s.pcs| && i < 4 && Inside(i)(s.pcs[t]) == 1
    ensures s.locks[i]
    ensures forall u :: 0 <= u < |s.pcs| && u != t ==> Inside(i)(s.pcs[u]) == 0
  {
    SumAtLeast(Inside(i), s.pcs, t);
    forall u | 0 <= u < |s.pcs| && u != t ensures Inside(i)(s.pcs[u]) == 0 {
      if u < t { SumAtLeastTwo(Inside(i), s.pcs, u, t); } else { SumAtLeastTwo(Inside(i), s.pcs, t, u); }
    }
  }

  /** The spinlocks follow the thread that moved. */
  ghost predicate LocksMove(s: State, s': State, t: nat)
    requires WellFormed(s) && WellFormed(s') && Moved(s, s', t)
  {
    forall i :: 0 <= i < 4 ==>
      Inside(i)(s'.pcs[t]) + Bit(s.locks[i]) == Inside(i)(s.pcs[t]) + Bit(s'.locks[i])
  }

  lemma LocksKept(s: State, s': State, t: nat)
    requires Inv(s) && WellFormed(s') && Moved(s, s', t) && LocksMove(s, s', t)
    ensures ListsLocked(s')
  {
    forall i | 0 <= i < 4 ensures Sum(Inside(i), s'.pcs) == Bit(s'.locks[i]) {
      SumUpdate(Inside(i), s.pcs, t, s'.pcs[t]);
    }
  }

  /** The guards and the word stayed as they were. */
  lemma EncodingKept(s: State, s': State, t: nat)
    requires Inv(s) && Moved(s, s', t) && s'.word == s.word
    requires Reads(s'.pcs[t]) == Reads(s.pcs[t]) && Writes(s'.pcs[t]) == Writes(s.pcs[t])
    ensures Encoded(s')
  {
    SumUpdate(Reads, s.pcs, t, s'.pcs[t]);
    SumUpdate(Writes, s.pcs, t, s'.pcs[t]);
  }

  /** A step that takes nothing away from any waiter. */
  ghost predicate Gentle(s: State, s': State, t: nat)
    requires WellFormed(s) && WellFormed(s') && Moved(s, s', t)
  {
    && (s.word >= LOCKED_WRITE ==> s'.word >= LOCKED_WRITE)
    && (s.word != UNLOCKED ==> s'.word != UNLOCKED)
    && s.ready <= s'.ready
    && (forall i, k :: 0 <= i < 4 && k in s.lists[i] ==> k in s'.lists[i])
    && (forall i :: 0 <= i < 4 ==> WillTake(i)(s.pcs[t]) <= WillTake(i)(s'.pcs[t]))
    && (forall k :: Carries(k)(s.pcs[t]) <= Carries(k)(s'.pcs[t]))
  }

  lemma GentleKept(s: State, s': State, t: nat)
    requires Inv(s) && WellFormed(s') && Moved(s, s', t) && Encoded(s') && LocksMove(s, s', t) && Gentle(s, s', t)
    ensures forall i :: 0 <= i < 4 && Bound(s, i) ==> Bound(s', i)
    ensures forall i, k :: 0 <= i < 4 && WakeDue(s, i, k) ==> WakeDue(s', i, k)
    ensures Safe(s', t) ==> Inv(s')
  {
    LocksKept(s, s', t);
    Totals(s.pcs, t, s'.pcs[t]);
    forall u | 0 <= u < |s.pcs| && u != t ensures Safe(s', u) {
      assert Safe(s, u) && s'.pcs[u] == s.pcs[u];
    }
  }

  lemma StepLockList(s: State, t: nat)
    requires Inv(s) && t < |s.pcs| && CanStep(s, t) && (s.pcs[t].Start? || s.pcs[t].Visit?)
    ensures Inv(StepOf(s, t))
  {
    EncodingKept(s, StepOf(s, t), t);
    GentleKept(s, StepOf(s, t), t);
  }

  lemma StepUnlockTaken(s: State, t: nat)
    requires Inv(s) && t < |s.pcs| && s.pcs[t].Taken?
    ensures Inv(StepOf(s, t))
  {
    InsideIsLocked(s, t, s.pcs[t].list);
    EncodingKept(s, StepOf(s, t), t);
    GentleKept(s, StepOf(s, t), t);
  }

  lemma StepUnlockList(s: State, t: nat)
    requires Inv(s) && t < |s.pcs| && (s.pcs[t].Got? || s.pcs[t].Listed?)
    ensures Inv(StepOf(s, t))
  {
    assert Safe(s, t);
    InsideIsLocked(s, t, s.pcs[t].list);
    EncodingKept(s, StepOf(s, t), t);
    GentleKept(s, StepOf(s, t), t);
  }

  /** A successful attempt makes the word count one guard more. */
  lemma AcquireEncodes(s: State, t: nat, writer: bool, inside: nat, won: Pc, lost: Pc)
    requires Inv(s) && t < |s.pcs| && Reads(s.pcs[t]) == Writes(s.pcs[t]) == 0
    requires Reads(lost) == Writes(lost) == 0
    requires Reads(won) == Bit(!writer) && Writes(won) == Bit(writer)
    ensures Encoded(Acquire(s, t, writer, inside, won, lost))
  {
    var s' := Acquire(s, t, writer, inside, won, lost);
    SumUpdate(Reads, s.pcs, t, s'.pcs[t]);
    SumUpdate(Writes, s.pcs, t, s'.pcs[t]);
  }

  /** An attempt can only raise the word, and one that fails leaves it where it blocks. */
  lemma AcquireOutcome(s: State, t: nat, writer: bool, inside: nat, won: Pc, lost: Pc)
    requires Shape(s) && t < |s.pcs|
    ensures var s' := Acquire(s, t, writer, inside, won, lost);
      && s' == Goto(s.(word := s'.word, acquired := s'.acquired), t, s'.pcs[t])
      && s.word <= s'.word < 256
      && (s'.pcs[t] == won || s'.pcs[t] == lost || s'.pcs[t] == Panicked(inside))
      && (s'.pcs[t] == lost != won && lost != Panicked(inside) ==>
            if writer then s.word != UNLOCKED else s.word >= LOCKED_WRITE)
  {}

  lemma AcquireKeeps(s: State, s': State, t: nat)
    requires Inv(s) && Moved(s, s', t) && Encoded(s') && s' == Goto(s.(word := s'.word, acquired := s'.acquired), t, s'.pcs[t])
    requires s.word <= s'.word < 256 && InRange(s'.pcs[t])
    requires WellFormed(s') ==> LocksMove(s, s', t)
    requires !s.pcs[t].Taken? && !s.pcs[t].Waking? && !s.pcs[t].Visit? && !s.pcs[t].Taking?
    requires WellFormed(s') ==> Safe(s', t)
    ensures Inv(s')
  {
    GentleKept(s, s', t);
  }

  lemma StepTry(s: State, t: nat)
    requires Inv(s) && t < |s.pcs| && s.pcs[t].Try?
    ensures Inv(StepOf(s, t))
  {
    var i := s.pcs[t].list;
    AcquireEncodes(s, t, ForWriters(i), i, Got(i), Push(i));
    AcquireOutcome(s, t, ForWriters(i), i, Got(i), Push(i));
    AcquireKeeps(s, StepOf(s, t), t);
  }

  lemma StepSpin(s: State, t: nat)
    requires Inv(s) && t < |s.pcs| && s.pcs[t].Spin?
    ensures Inv(StepOf(s, t))
  {
    var writer := s.pcs[t].writer;
    AcquireEncodes(s, t, writer, NOWHERE, Hold(writer), Spin(writer));
    AcquireOutcome(s, t, writer, NOWHERE, Hold(writer), Spin(writer));
    AcquireKeeps(s, StepOf(s, t), t);
  }

  lemma StepPush(s: State, t: nat)
    requires Inv(s) && t < |s.pcs| && s.pcs[t].Push?
    ensures Inv(StepOf(s, t))
  {
    assert Safe(s, t);
    EncodingKept(s, StepOf(s, t), t);
    GentleKept(s, StepOf(s, t), t);
  }

  lemma StepResume(s: State, t: nat)
    requires Inv(s) && t < |s.pcs| && s.pcs[t].Asleep? && CanStep(s, t)
    ensures Inv(StepOf(s, t))
  {
    var s' := StepOf(s, t);
    EncodingKept(s, s', t);
    LocksKept(s, s', t);
    Totals(s.pcs, t, s'.pcs[t]);
    assert Safe(s, t);
    forall u | 0 <= u < |s.pcs| ensures Safe(s', u) {
      assert Safe(s, u);
      if u != t { assert s'.pcs[u] == s.pcs[u]; }
    }
  }

  lemma StepTake(s: State, t: nat)
    requires Inv(s) && t < |s.pcs| && s.pcs[t].Taking?
    ensures Inv(StepOf(s, t))
  {
    var s', i := StepOf(s, t), s.pcs[t].list;
    EncodingKept(s, s', t);
    LocksKept(s, s', t);
    Totals(s.pcs, t, s'.pcs[t]);
    InsideIsLocked(s, t, i);
    forall u | 0 <= u < |s.pcs| && u != t ensures Safe(s', u) {
      assert Safe(s, u) && s'.pcs[u] == s.pcs[u];
      assert Inside(i)(s.pcs[u]) == 0;
    }
  }

  lemma StepWake(s: State, t: nat)
    requires Inv(s) && t < |s.pcs| && s.pcs[t].Waking?
    ensures Inv(StepOf(s, t))
  {
    var s', batch := StepOf(s, t), s.pcs[t].batch;
    EncodingKept(s, s', t);
    LocksKept(s, s', t);
    Totals(s.pcs, t, s'.pcs[t]);
    forall u | 0 <= u < |s.pcs| && u != t ensures Safe(s', u) {
      assert Safe(s, u) && s'.pcs[u] == s.pcs[u];
      if batch != [] && (s.pcs[u].Listed? || s.pcs[u].Asleep?) {
        OccursHead(s.pcs[u].key, batch);
      }
    }
  }

  /** Both drops find the word their assertions promise, and nothing wraps. */
  lemma ReleaseEncodes(s: State, t: nat)
    requires Inv(s) && t < |s.pcs| && s.pcs[t].Hold?
    ensures var s' := Next(s, Drop(t));
      && s'.pcs[t].Visit? && Encoded(s')
      && s'.word == s.word - if s.pcs[t].writer then LOCKED_WRITE else 1
  {
    var s' := Next(s, Drop(t));
    GuardWord(s, t);
    SumUpdate(Reads, s.pcs, t, s'.pcs[t]);
    SumUpdate(Writes, s.pcs, t, s'.pcs[t]);
  }

  lemma StepDrop(s: State, t: nat)
    requires Inv(s) && t < |s.pcs| && s.pcs[t].Hold?
    ensures Inv(Next(s, Drop(t)))
  {
    var s' := Next(s, Drop(t));
    ReleaseEncodes(s, t);
    GuardWord(s, t);
    LocksKept(s, s', t);
    Totals(s.pcs, t, s'.pcs[t]);
    forall u | 0 <= u < |s.pcs| && u != t ensures Safe(s', u) {
      assert Safe(s, u) && s'.pcs[u] == s.pcs[u];
    }
  }

  lemma CallKeeps(s: State, a: Action)
    requires Inv(s) && Enabled(s, a) && (a.CallLock? || a.CallSpin? || a.Spurious?)
    ensures Inv(Next(s, a))
  {
    EncodingKept(s, Next(s, a), a.t);
    GentleKept(s, Next(s, a), a.t);
  }

  lemma CallTryKeeps(s: State, a: Action)
    requires Inv(s) && Enabled(s, a) && a.CallTry?
    ensures Inv(Next(s, a))
  {
    AcquireEncodes(s, a.t, a.writer, NOWHERE, Hold(a.writer), Idle);
    AcquireOutcome(s, a.t, a.writer, NOWHERE, Hold(a.writer), Idle);
    AcquireKeeps(s, Next(s, a), a.t);
  }

  lemma InvStep(s: State, t: nat)
    requires Inv(s) && t < |s.pcs| && CanStep(s, t)
    ensures Inv(StepOf(s, t))
  {
    var p := s.pcs[t];
    if p.Start? || p.Visit? {
      StepLockList(s, t);
    } else if p.Got? || p.Listed? {
      StepUnlockList(s, t);
    } else if p.Taken? {
      StepUnlockTaken(s, t);
    } else if p.Try? {
      StepTry(s, t);
    } else if p.Spin? {
      StepSpin(s, t);
    } else if p.Push? {
      StepPush(s, t);
    } else if p.Asleep? {
      StepResume(s, t);
    } else if p.Taking? {
      StepTake(s, t);
    } else {
      StepWake(s, t);
    }
  }

  /** Tokens set and consumed by other primitives take nothing from a waiter of this one. */
  lemma StrayKeeps(s: State, a: Action)
    requires Inv(s) && Enabled(s, a) && (a.StrayToken? || a.StrayPark?)
    ensures Inv(Next(s, a))
  {
    var s' := Next(s, a);
    forall u | 0 <= u < |s.pcs| ensures Safe(s', u) { assert Safe(s, u); }
  }

  lemma InvNext(s: State, a: Action)
    requires Inv(s) && Enabled(s, a)
    ensures Inv(Next(s, a))
  {
    match a
    case Step(t) => InvStep(s, t);
    case Drop(t) => StepDrop(s, t);
    case CallTry(_, _) => CallTryKeeps(s, a);
    case CallLock(_, _) => CallKeeps(s, a);
    case CallSpin(_, _) => CallKeeps(s, a);
    case Spurious(_) => CallKeeps(s, a);
    case StrayToken(_) => StrayKeeps(s, a);
    case StrayPark(_) => StrayKeeps(s, a);
  }
}
