/** The inductive invariant of the mutex: locks and guards match, and whoever sleeps or is about to
    sleep is bound to be found by an unlocker. */
module MutexInvariant {
  import opened Parking
  import opened Sums
  import opened MutexModel

  /** A guard of this mutex is live in the thread. */
  function Holds(p: Pc): nat {
    Bit(p.Got? || p.Hold? || p.Loaded?)
  }

  /** The thread is inside with_mut of list i. */
  function Inside(i: nat): Pc -> nat {
    (p: Pc) => Bit((p.Try? || p.Got? || p.Push? || p.Listed? || p.Taking? || p.Taken?) && p.list == i)
  }

  /** The thread has stored false to data_lock and has yet to take list i. */
  function WillTake(i: nat): Pc -> nat {
    (p: Pc) => Bit(((p.Visit? || p.Taking?) && p.list <= i) || ((p.Taken? || p.Waking?) && p.list < i))
  }

  /** How often the thread's taken batch still contains the key. */
  function Carries(k: Key): Pc -> nat {
    (p: Pc) => if p.Taken? || p.Waking? then Occurs(k, p.batch) else 0
  }

  /** Whoever is on list i will be found: the lock is held, so its guard's drop is still to come,
      or an unlocker is on its way to the list. */
  predicate Bound(s: State, i: nat) {
    s.dataLock || Sum(WillTake(i), s.pcs) > 0
  }

  /** The sleeper waiting for k on list i has been woken, is about to be, or is listed where
      somebody is bound to find it. */
  predicate WakeDue(s: State, i: nat, k: Key)
    requires Shape(s) && i < 2
  {
    || k in s.ready
    || Sum(Carries(k), s.pcs) > 0
    || (k in s.lists[i] && Bound(s, i))
  }

  predicate Safe(s: State, t: nat)
    requires WellFormed(s) && t < |s.pcs|
  {
    match s.pcs[t]
    case Push(i, _) => Bound(s, i)
    case Listed(i, k, _) => KeyOf(t, i, k) && WakeDue(s, i, k)
    case Asleep(i, k, _) => KeyOf(t, i, k) && WakeDue(s, i, k)
    case _ => true
  }

  predicate KeyOf(t: nat, i: nat, k: Key) {
    if i == SYNC then k == Handle(t) else k.Cont?
  }

  /** data_lock is set exactly when one guard is live; a list's spinlock is set exactly when one
      thread is inside that list's with_mut. */
  ghost predicate Exclusive(s: State)
    requires WellFormed(s)
  {
    && Sum(Holds, s.pcs) == Bit(s.dataLock)
    && forall i :: 0 <= i < 2 ==> Sum(Inside(i), s.pcs) == Bit(s.locks[i])
  }

  ghost predicate Inv(s: State) {
    && WellFormed(s)
    && Exclusive(s)
    && forall t :: 0 <= t < |s.pcs| ==> Safe(s, t)
  }

  lemma Totals(s: seq<Pc>, t: nat, p: Pc)
    requires t < |s|
    ensures Sum(Holds, s[t := p]) + Holds(s[t]) == Sum(Holds, s) + Holds(p)
    ensures forall i :: Sum(Inside(i), s[t := p]) + Inside(i)(s[t]) == Sum(Inside(i), s) + Inside(i)(p)
    ensures forall i :: Sum(WillTake(i), s[t := p]) + WillTake(i)(s[t]) == Sum(WillTake(i), s) + WillTake(i)(p)
    ensures forall k :: Sum(Carries(k), s[t := p]) + Carries(k)(s[t]) == Sum(Carries(k), s) + Carries(k)(p)
  {
    SumUpdate(Holds, s, t, p);
    forall i ensures Sum(Inside(i), s[t := p]) + Inside(i)(s[t]) == Sum(Inside(i), s) + Inside(i)(p) {
      SumUpdate(Inside(i), s, t, p);
    }
    forall i ensures Sum(WillTake(i), s[t := p]) + WillTake(i)(s[t]) == Sum(WillTake(i), s) + WillTake(i)(p) {
      SumUpdate(WillTake(i), s, t, p);
    }
    forall k ensures Sum(Carries(k), s[t := p]) + Carries(k)(s[t]) == Sum(Carries(k), s) + Carries(k)(p) {
      SumUpdate(Carries(k), s, t, p);
    }
  }

  /** Thread t moved to s'.pcs[t]; everybody else stayed where they were. */
  ghost predicate Moved(s: State, s': State, t: nat) {
    t < |s.pcs| == |s'.pcs| && s'.pcs == s.pcs[t := s'.pcs[t]]
  }

  /** The exclusion counts follow the thread that moved. */
  ghost predicate CountsMove(s: State, s': State, t: nat)
    requires WellFormed(s) && WellFormed(s') && Moved(s, s', t)
  {
    && Holds(s'.pcs[t]) + Bit(s.dataLock) == Holds(s.pcs[t]) + Bit(s'.dataLock)
    && forall i :: 0 <= i < 2 ==>
      Inside(i)(s'.pcs[t]) + Bit(s.locks[i]) == Inside(i)(s.pcs[t]) + Bit(s'.locks[i])
  }

  lemma CountsKept(s: State, s': State, t: nat)
    requires Inv(s) && WellFormed(s') && Moved(s, s', t) && CountsMove(s, s', t)
    ensures Exclusive(s')
  {
    Totals(s.pcs, t, s'.pcs[t]);
    forall i | 0 <= i < 2 ensures Sum(Inside(i), s'.pcs) == Bit(s'.locks[i]) {
      assert Sum(Inside(i), s'.pcs) + Inside(i)(s.pcs[t]) == Sum(Inside(i), s.pcs) + Inside(i)(s'.pcs[t]);
    }
  }

  /** A step that takes nothing away from any waiter. */
  ghost predicate Gentle(s: State, s': State, t: nat)
    requires WellFormed(s) && WellFormed(s') && Moved(s, s', t)
  {
    && (s.dataLock ==> s'.dataLock)
    && s.ready <= s'.ready
    && (forall i, k :: 0 <= i < 2 && k in s.lists[i] ==> k in s'.lists[i])
    && (forall i :: 0 <= i < 2 ==> WillTake(i)(s.pcs[t]) <= WillTake(i)(s'.pcs[t]))
    && (forall k :: Carries(k)(s.pcs[t]) <= Carries(k)(s'.pcs[t]))
  }

  lemma GentleKept(s: State, s': State, t: nat)
    requires Inv(s) && WellFormed(s') && Moved(s, s', t) && CountsMove(s, s', t) && Gentle(s, s', t)
    ensures forall i :: 0 <= i < 2 && Bound(s, i) ==> Bound(s', i)
    ensures forall i, k :: 0 <= i < 2 && WakeDue(s, i, k) ==> WakeDue(s', i, k)
    ensures Safe(s', t) ==> Inv(s')
  {
    CountsKept(s, s', t);
    Totals(s.pcs, t, s'.pcs[t]);
    forall u | 0 <= u < |s.pcs| && u != t ensures Safe(s', u) {
      assert Safe(s, u) && s'.pcs[u] == s.pcs[u];
    }
  }

  lemma InsideIsLocked(s: State, t: nat, i: nat)
    requires Inv(s) && t < |s.pcs| && i < 2 && Inside(i)(s.pcs[t]) == 1
    ensures s.locks[i]
    ensures forall u :: 0 <= u < |s.pcs| && u != t ==> Inside(i)(s.pcs[u]) == 0
  {
    SumAtLeast(Inside(i), s.pcs, t);
    forall u | 0 <= u < |s.pcs| && u != t ensures Inside(i)(s.pcs[u]) == 0 {
      if u < t { SumAtLeastTwo(Inside(i), s.pcs, u, t); } else { SumAtLeastTwo(Inside(i), s.pcs, t, u); }
    }
  }

  lemma HolderIsAlone(s: State, t: nat)
    requires Inv(s) && t < |s.pcs| && Holds(s.pcs[t]) == 1
    ensures s.dataLock
    ensures forall u :: 0 <= u < |s.pcs| && u != t ==> Holds(s.pcs[u]) == 0
  {
    SumAtLeast(Holds, s.pcs, t);
    forall u | 0 <= u < |s.pcs| && u != t ensures Holds(s.pcs[u]) == 0 {
      if u < t { SumAtLeastTwo(Holds, s.pcs, u, t); } else { SumAtLeastTwo(Holds, s.pcs, t, u); }
    }
  }

  lemma StepLockList(s: State, t: nat)
    requires Inv(s) && t < |s.pcs| && CanStep(s, t) && (s.pcs[t].Start? || s.pcs[t].Visit?)
    ensures Inv(StepOf(s, t))
  {
    GentleKept(s, StepOf(s, t), t);
  }

  lemma StepUnlockList(s: State, t: nat)
    requires Inv(s) && t < |s.pcs| && (s.pcs[t].Got? || s.pcs[t].Listed? || s.pcs[t].Taken?)
    ensures Inv(StepOf(s, t))
  {
    assert Safe(s, t);
    InsideIsLocked(s, t, s.pcs[t].list);
    GentleKept(s, StepOf(s, t), t);
  }

  lemma StepAcquire(s: State, t: nat)
    requires Inv(s) && t < |s.pcs| && (s.pcs[t].Try? || s.pcs[t].LastTry? || s.pcs[t].Spin?)
    ensures Inv(StepOf(s, t))
  {
    GentleKept(s, StepOf(s, t), t);
  }

  lemma StepPush(s: State, t: nat)
    requires Inv(s) && t < |s.pcs| && s.pcs[t].Push?
    ensures Inv(StepOf(s, t))
  {
    assert Safe(s, t);
    GentleKept(s, StepOf(s, t), t);
  }

  /** Consuming a token takes it from its owner only. */
  lemma StepResume(s: State, t: nat)
    requires Inv(s) && t < |s.pcs| && s.pcs[t].Asleep? && CanStep(s, t)
    ensures Inv(StepOf(s, t))
    ensures StepOf(s, t).ready == if s.pcs[t].list == SYNC then s.ready - {Handle(t)} else s.ready
  {
    var s' := StepOf(s, t);
    CountsKept(s, s', t);
    Totals(s.pcs, t, s'.pcs[t]);
    assert Safe(s, t);
    forall u | 0 <= u < |s.pcs| ensures Safe(s', u) {
      assert Safe(s, u);
      if u != t { assert s'.pcs[u] == s.pcs[u]; }
    }
  }

  /** Taking a list moves its entries into the taker's batch; nobody else is inside with_mut, so
      nobody is between a failed compare-exchange and its push. */
  lemma StepTake(s: State, t: nat)
    requires Inv(s) && t < |s.pcs| && s.pcs[t].Taking?
    ensures Inv(StepOf(s, t))
  {
    var s', i := StepOf(s, t), s.pcs[t].list;
    CountsKept(s, s', t);
    Totals(s.pcs, t, s'.pcs[t]);
    InsideIsLocked(s, t, i);
    forall u | 0 <= u < |s.pcs| && u != t ensures Safe(s', u) {
      assert Safe(s, u) && s'.pcs[u] == s.pcs[u];
      assert Inside(i)(s.pcs[u]) == 0;
    }
  }

  lemma StepWake(s: State, t: nat)
    requires Inv(s) && t < |s.pcs| && s.pcs[t].Waking?
    ensures Inv(StepOf(s, t))
  {
    var s', batch := StepOf(s, t), s.pcs[t].batch;
    CountsKept(s, s', t);
    Totals(s.pcs, t, s'.pcs[t]);
    forall u | 0 <= u < |s.pcs| && u != t ensures Safe(s', u) {
      assert Safe(s, u) && s'.pcs[u] == s.pcs[u];
      if batch != [] && (s.pcs[u].Listed? || s.pcs[u].Asleep?) {
        OccursHead(s.pcs[u].key, batch);
      }
    }
  }

  lemma StepDrop(s: State, t: nat)
    requires Inv(s) && t < |s.pcs| && s.pcs[t].Hold?
    ensures Inv(Next(s, Drop(t)))
  {
    var s' := Next(s, Drop(t));
    HolderIsAlone(s, t);
    CountsKept(s, s', t);
    Totals(s.pcs, t, s'.pcs[t]);
    forall u | 0 <= u < |s.pcs| && u != t ensures Safe(s', u) {
      assert Safe(s, u) && s'.pcs[u] == s.pcs[u];
    }
  }

  lemma CallKeeps(s: State, a: Action)
    requires Inv(s) && Enabled(s, a) && (a.CallLock? || a.CallSpin? || a.CallTry?)
    ensures Inv(Next(s, a))
  {
    GentleKept(s, Next(s, a), a.t);
  }

  lemma ExpireKeeps(s: State, a: Action)
    requires Inv(s) && Enabled(s, a) && (a.Expire? || a.Spurious?)
    ensures Inv(Next(s, a))
  {
    GentleKept(s, Next(s, a), a.t);
  }

  lemma AccessKeeps(s: State, a: Action)
    requires Inv(s) && Enabled(s, a) && (a.Load? || a.Store?)
    ensures Inv(Next(s, a))
  {
    GentleKept(s, Next(s, a), a.t);
  }

  /** Tokens set and consumed by other primitives take nothing from a waiter of this one. */
  lemma StrayKeeps(s: State, a: Action)
    requires Inv(s) && Enabled(s, a) && (a.StrayToken? || a.StrayPark?)
    ensures Inv(Next(s, a))
  {
    var s' := Next(s, a);
    forall u | 0 <= u < |s.pcs| ensures Safe(s', u) { assert Safe(s, u); }
  }

  lemma InvNext(s: State, a: Action)
    requires Inv(s) && Enabled(s, a)
    ensures Inv(Next(s, a))
  {
    match a
    case Step(t) =>
      match s.pcs[t] {
       case Start(_, _) => StepLockList(s, t);
       case Visit(_) => StepLockList(s, t);
       case Got(_) => StepUnlockList(s, t);
       case Listed(_, _, _) => StepUnlockList(s, t);
       case Taken(_, _) => StepUnlockList(s, t);
       case Try(_, _) => StepAcquire(s, t);
       case LastTry => StepAcquire(s, t);
       case Spin(_) => StepAcquire(s, t);
       case Missed(_) => GentleKept(s, StepOf(s, t), t);
       case Push(_, _) => StepPush(s, t);
       case Asleep(_, _, _) => StepResume(s, t);
       case Taking(_) => StepTake(s, t);
       case Waking(_, _) => StepWake(s, t);
       case _ => }
    case Drop(t) => StepDrop(s, t);
    case Load(_) => AccessKeeps(s, a);
    case Store(_, _) => AccessKeeps(s, a);
    case Spurious(_) => ExpireKeeps(s, a);
    case Expire(_) => ExpireKeeps(s, a);
    case StrayToken(_) => StrayKeeps(s, a);
    case StrayPark(_) => StrayKeeps(s, a);
    case _ => CallKeeps(s, a);
  }
}
