/** What the holders of the lock see: the mutex behaves like an atomic lock around one value. */
module MutexHistory {
  import opened Parking
  import opened Sums
  import opened MutexModel
  import opened MutexInvariant

  /** The value after the logged stores, applied in order. */
  function Replay(initial: Data, log: seq<Access>): Data {
    if log == [] then initial else log[|log| - 1].update(Replay(initial, log[..|log| - 1]))
  }

  /** The stores, in the order they happened, follow the order of the acquisitions they were made
      under, and no store was lost. */
  ghost predicate Serial(s: State) {
    && s.value == Replay(s.initial, s.log)
    && (forall j :: 0 <= j < |s.log| ==>
          0 <= s.log[j].ticket < |s.acquired| && s.acquired[s.log[j].ticket] == s.log[j].author)
    && (forall j, k :: 0 <= j < k < |s.log| ==> s.log[j].ticket <= s.log[k].ticket)
    && (forall t :: 0 <= t < |s.pcs| && Holds(s.pcs[t]) == 1 ==>
          s.acquired != [] && s.acquired[|s.acquired| - 1] == t)
    && (forall t :: 0 <= t < |s.pcs| && s.pcs[t].Loaded? ==> s.pcs[t].value == s.value)
  }

  lemma SerialAcquire(s: State, t: nat, won: Pc, lost: Pc)
    requires Inv(s) && Serial(s) && t < |s.pcs|
    requires Holds(s.pcs[t]) == 0 && Holds(lost) == 0 && !won.Loaded?
    ensures Serial(Acquire(s, t, won, lost))
  {
    if !s.dataLock {
      forall u | 0 <= u < |s.pcs| ensures Holds(s.pcs[u]) == 0 {
        SumAtLeast(Holds, s.pcs, u);
      }
    }
  }

  lemma SerialStore(s: State, t: nat, update: Data -> Data)
    requires Inv(s) && Serial(s) && t < |s.pcs| && s.pcs[t].Loaded?
    ensures Serial(Next(s, Store(t, update)))
  {
    HolderIsAlone(s, t);
    StoreLogged(s, t, update);
  }

  lemma StoreLogged(s: State, t: nat, update: Data -> Data)
    requires WellFormed(s) && Serial(s) && t < |s.pcs| && s.pcs[t].Loaded?
    requires forall u :: 0 <= u < |s.pcs| && u != t ==> Holds(s.pcs[u]) == 0
    ensures Serial(Next(s, Store(t, update)))
  {
    var s' := Next(s, Store(t, update));
    assert s'.log[..|s'.log| - 1] == s.log;
    forall u | 0 <= u < |s.pcs| ensures !s'.pcs[u].Loaded? {
      assert u == t || Holds(s.pcs[u]) == 0;
    }
  }

  /** A step that touches neither the value nor the history. */
  lemma SerialKept(s: State, s': State, t: nat)
    requires Serial(s) && Moved(s, s', t)
    requires s'.initial == s.initial && s'.value == s.value && s'.acquired == s.acquired && s'.log == s.log
    requires Holds(s'.pcs[t]) <= Holds(s.pcs[t])
    requires s'.pcs[t].Loaded? ==> s'.pcs[t].value == s.value
    ensures Serial(s')
  {
    assert forall u :: 0 <= u < |s.pcs| && u != t ==> s'.pcs[u] == s.pcs[u];
  }

  lemma SerialStep(s: State, t: nat)
    requires Inv(s) && Serial(s) && t < |s.pcs| && CanStep(s, t)
    ensures Serial(StepOf(s, t))
  {
    var p := s.pcs[t];
    if p.Try? {
      SerialAcquire(s, t, Got(p.list), Push(p.list, p.timed));
    } else if p.LastTry? {
      SerialAcquire(s, t, Hold, Idle);
    } else if p.Spin? {
      SerialAcquire(s, t, Hold, Missed(p.timed));
    } else {
      SerialKept(s, StepOf(s, t), t);
    }
  }

  lemma SerialNext(s: State, a: Action)
    requires Inv(s) && Serial(s) && Enabled(s, a)
    ensures Serial(Next(s, a))
  {
    match a
    case Step(t) => SerialStep(s, t);
    case CallTry(t) => SerialAcquire(s, t, Hold, Idle);
    case Store(t, update) => SerialStore(s, t, update);
    case _ => SerialKept(s, Next(s, a), a.t);
  }

  /** The lock that callers are promised: at most one owner, and only the owner changes the value. */
  datatype Atomic = Atomic(owner: Option<nat>, value: Data)

  ghost function Abstract(s: State): Atomic
    requires s.dataLock ==> s.acquired != []
  {
    Atomic(if s.dataLock then Some(s.acquired[|s.acquired| - 1]) else None, s.value)
  }

  ghost predicate AtomicStep(before: Atomic, a: Action, after: Atomic) {
    match a
    case Store(t, update) =>
      before.owner == Some(t) && after == before.(value := update(before.value))
    case Drop(t) =>
      before.owner == Some(t) && after == before.(owner := None)
    case _ =>
      after == before || (before.owner == None && after == before.(owner := Some(a.t)))
  }

  lemma HeldHasOwner(s: State)
    requires Inv(s) && Serial(s)
    ensures s.dataLock ==> s.acquired != []
    ensures forall t :: 0 <= t < |s.pcs| && Holds(s.pcs[t]) == 1 ==> Abstract(s).owner == Some(t)
    ensures forall t :: s.dataLock && Abstract(s).owner == Some(t) ==> t < |s.pcs| && Holds(s.pcs[t]) == 1
  {
    if s.dataLock {
      var t := SumWitness(Holds, s.pcs);
      assert Holds(s.pcs[t]) == 1;
    } else {
      forall t | 0 <= t < |s.pcs| ensures Holds(s.pcs[t]) == 0 { SumAtLeast(Holds, s.pcs, t); }
    }
  }

  /** What a step does to the atomic lock, given that a guard is the owner's. */
  lemma StepsAtomically(s: State, a: Action)
    requires WellFormed(s) && Enabled(s, a) && (s.dataLock ==> s.acquired != [])
    requires Holds(s.pcs[a.t]) == 1 ==> s.dataLock && s.acquired[|s.acquired| - 1] == a.t
    requires s.pcs[a.t].Loaded? ==> s.pcs[a.t].value == s.value
    ensures Next(s, a).dataLock ==> Next(s, a).acquired != []
    ensures AtomicStep(Abstract(s), a, Abstract(Next(s, a)))
    ensures s.dataLock && !a.Store? && !a.Drop? ==> Abstract(Next(s, a)) == Abstract(s)
  {}

  /** Every step of every acquisition path is a step of the atomic lock, or invisible to it:
      a failed compare-exchange, a failed swap and a `None` timeout change nothing. */
  lemma RefinesAtomicLock(s: State, a: Action)
    requires Inv(s) && Serial(s) && Enabled(s, a)
    ensures Inv(Next(s, a)) && Serial(Next(s, a))
    ensures s.dataLock ==> s.acquired != []
    ensures Next(s, a).dataLock ==> Next(s, a).acquired != []
    ensures AtomicStep(Abstract(s), a, Abstract(Next(s, a)))
    ensures s.dataLock && !a.Store? && !a.Drop? ==> Abstract(Next(s, a)) == Abstract(s)
  {
    HeldHasOwner(s);
    StepsAtomically(s, a);
    InvNext(s, a);
    SerialNext(s, a);
  }
}
