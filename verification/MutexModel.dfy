/** The mutex as a system of interleaved atomic steps.

    Every step is one access to `data_lock`, one access to the spinlock of a waiting list, one
    access to the list it protects, one wake-up, or one access to the protected value.  The steps
    of different threads interleave arbitrarily (sequential consistency is assumed).
 */
module MutexModel {
  import opened Parking
  import opened Sums

  /** The protected value; nothing is assumed about it. */
  type Data(!new)

  /** The two waiting lists, in the order in which an unlocker visits them. */
  const SYNC: nat := 0
  const ASYNC: nat := 1

  /** Where a thread or async task is inside the mutex's code. */
  datatype Pc =
    | Idle
    // lock_block, lock_async and their timed forms
    | Start(list: nat, timed: bool)             // about to swap the list's spinlock
    | Try(list: nat, timed: bool)               // inside with_mut, about to compare-exchange
    | Got(list: nat)                            // inside with_mut with the guard
    | Push(list: nat, timed: bool)              // the compare-exchange failed
    | Listed(list: nat, key: Key, timed: bool)  // pushed, still inside with_mut
    | Asleep(list: nat, key: Key, timed: bool)  // parked, or awaiting the continuation
    | LastTry                                   // deadline passed: one try_lock more
    // lock_spin and lock_spin_timeout
    | Spin(timed: bool)                         // about to swap data_lock
    | Missed(timed: bool)                       // the swap returned true
    // the guard is live
    | Hold
    | Loaded(value: Data)                       // inside a closure that has read the value
    // the guard is dropped: data_lock is already false, did_unlock runs
    | Visit(list: nat)                          // about to swap the list's spinlock
    | Taking(list: nat)                         // inside with_mut, about to take the list
    | Taken(list: nat, batch: seq<Key>)         // took it, still inside with_mut
    | Waking(list: nat, batch: seq<Key>)        // waking the batch one by one

  /** One store to the protected value, by the acquisition it was made under. */
  datatype Access = Access(ticket: int, author: nat, update: Data -> Data)

  /** `acquired` and `log` only record the history: who acquired the lock and, in order, every
      store to the value.  No step reads them. */
  datatype State = State(
    dataLock: bool,
    locks: seq<bool>,
    lists: seq<seq<Key>>,
    ready: set<Key>,
    conts: nat,
    pcs: seq<Pc>,
    initial: Data,
    value: Data,
    acquired: seq<nat>,
    log: seq<Access>)

  datatype Action =
    | CallLock(t: nat, list: nat, timed: bool)  // lock_block, lock_async, ..._timeout
    | CallSpin(t: nat, timed: bool)
    | CallTry(t: nat)                           // try_lock, compare-exchange included
    | Step(t: nat)                              // the only move of t's program point
    | Spurious(t: nat)                          // park returns without a token
    | Expire(t: nat)                            // the clock has reached t's deadline
    | Load(t: nat)                              // the guard's holder reads the value
    | Store(t: nat, update: Data -> Data)       // and writes it back
    | Drop(t: nat)                              // the guard's drop stores false
    | StrayToken(t: nat)                        // another primitive unparks t
    | StrayPark(t: nat)                         // t parks elsewhere and consumes its token

  function Init(threads: nat, initial: Data): State {
    State(false, [false, false], [[], []], {}, 0, seq(threads, _ => Idle), initial, initial, [], [])
  }

  predicate Shape(s: State) {
    |s.locks| == 2 && |s.lists| == 2
  }

  predicate InRange(p: Pc) {
    match p
    case Start(i, _) => i < 2
    case Try(i, _) => i < 2
    case Got(i) => i < 2
    case Push(i, _) => i < 2
    case Listed(i, _, _) => i < 2
    case Asleep(i, _, _) => i < 2
    case Visit(i) => i < 2
    case Taking(i) => i < 2
    case Taken(i, _) => i < 2
    case Waking(i, _) => i < 2
    case _ => true
  }

  predicate WellFormed(s: State) {
    Shape(s) && forall t :: 0 <= t < |s.pcs| ==> InRange(s.pcs[t])
  }

  /** Can thread t make the only move of its program point? */
  predicate CanStep(s: State, t: nat)
    requires WellFormed(s) && t < |s.pcs|
  {
    match s.pcs[t]
    case Idle => false
    case Start(i, _) => !s.locks[i]
    case Visit(i) => !s.locks[i]
    case Asleep(_, k, _) => k in s.ready
    case Hold => false
    case Loaded(_) => false
    case _ => true
  }

  /** The thread has pushed its handle and not yet returned from park. */
  predicate Parks(p: Pc) { (p.Listed? || p.Asleep?) && p.list == SYNC }

  predicate Enabled(s: State, a: Action)
    requires WellFormed(s)
  {
    a.t < |s.pcs| &&
    match a
    case CallLock(t, list, _) => s.pcs[t].Idle? && list < 2
    case CallSpin(t, _) => s.pcs[t].Idle?
    case CallTry(t) => s.pcs[t].Idle?
    case Step(t) => CanStep(s, t)
    case Spurious(t) => s.pcs[t].Asleep? && s.pcs[t].list == SYNC
    case Expire(t) =>
      (match s.pcs[t]
       case Start(_, timed) => timed
       case Missed(timed) => timed
       case Asleep(i, _, timed) => timed && i == ASYNC
       case _ => false)
    case Load(t) => s.pcs[t].Hold?
    case Store(t, _) => s.pcs[t].Loaded?
    case Drop(t) => s.pcs[t].Hold?
    case StrayToken(t) => true
    case StrayPark(t) => !Parks(s.pcs[t])
  }

  function Goto(s: State, t: nat, p: Pc): State
    requires t < |s.pcs|
  {
    s.(pcs := s.pcs[t := p])
  }

  /** The compare-exchange of try_lock, and equally the swap of lock_spin. */
  function Acquire(s: State, t: nat, won: Pc, lost: Pc): State
    requires t < |s.pcs|
  {
    if s.dataLock then Goto(s, t, lost)
    else Goto(s.(dataLock := true, acquired := s.acquired + [t]), t, won)
  }

  function LockList(s: State, t: nat, i: nat, p: Pc): State
    requires Shape(s) && t < |s.pcs| && i < 2
  {
    Goto(s.(locks := s.locks[i := true]), t, p)
  }

  function UnlockList(s: State, t: nat, i: nat, p: Pc): State
    requires Shape(s) && t < |s.pcs| && i < 2
  {
    Goto(s.(locks := s.locks[i := false]), t, p)
  }

  function PushSelf(s: State, t: nat, i: nat, timed: bool): State
    requires Shape(s) && t < |s.pcs| && i < 2
  {
    var key := if i == SYNC then Handle(t) else Cont(s.conts);
    Goto(s.(lists := s.lists[i := s.lists[i] + [key]],
            conts := if i == SYNC then s.conts else s.conts + 1), t, Listed(i, key, timed))
  }

  /** A thread's token is consumed; a completed continuation stays complete. */
  function Resume(s: State, t: nat, i: nat, key: Key, timed: bool): State
    requires t < |s.pcs|
  {
    Goto(s.(ready := if key.Handle? then s.ready - {key} else s.ready), t, Start(i, timed))
  }

  function TakeList(s: State, t: nat, i: nat): State
    requires Shape(s) && t < |s.pcs| && i < 2
  {
    Goto(s.(lists := s.lists[i := []]), t, Taken(i, s.lists[i]))
  }

  function WakeNext(s: State, t: nat, i: nat, batch: seq<Key>): State
    requires t < |s.pcs|
  {
    if batch != [] then Goto(s.(ready := s.ready + {batch[0]}), t, Waking(i, batch[1..]))
    else Goto(s, t, if i == SYNC then Visit(ASYNC) else Idle)
  }

  function StepOf(s: State, t: nat): State
    requires WellFormed(s) && t < |s.pcs| && CanStep(s, t)
  {
    match s.pcs[t]
    case Start(i, timed) => LockList(s, t, i, Try(i, timed))
    case Try(i, timed) => Acquire(s, t, Got(i), Push(i, timed))
    case Got(i) => UnlockList(s, t, i, Hold)
    case Push(i, timed) => PushSelf(s, t, i, timed)
    case Listed(i, key, timed) => UnlockList(s, t, i, Asleep(i, key, timed))
    case Asleep(i, key, timed) => Resume(s, t, i, key, timed)
    case LastTry => Acquire(s, t, Hold, Idle)
    case Spin(timed) => Acquire(s, t, Hold, Missed(timed))
    case Missed(timed) => Goto(s, t, Spin(timed))
    case Visit(i) => LockList(s, t, i, Taking(i))
    case Taking(i) => TakeList(s, t, i)
    case Taken(i, batch) => UnlockList(s, t, i, Waking(i, batch))
    case Waking(i, batch) => WakeNext(s, t, i, batch)
    case _ => s
  }

  function Next(s: State, a: Action): State
    requires WellFormed(s) && Enabled(s, a)
  {
    match a
    case CallLock(t, list, timed) => Goto(s, t, Start(list, timed))
    case CallSpin(t, timed) => Goto(s, t, Spin(timed))
    case CallTry(t) => Acquire(s, t, Hold, Idle)
    case Step(t) => StepOf(s, t)
    case Spurious(t) => Goto(s, t, Start(SYNC, s.pcs[t].timed))
    case Expire(t) => Goto(s, t, if s.pcs[t].Start? then LastTry else Idle)
    case Load(t) => Goto(s, t, Loaded(s.value))
    case Store(t, update) =>
      var v := update(s.pcs[t].value);
      Goto(s.(value := v, log := s.log + [Access(|s.acquired| - 1, t, update)]), t, Hold)
    case Drop(t) => Goto(s.(dataLock := false), t, Visit(SYNC))
    case StrayToken(t) => s.(ready := s.ready + {Handle(t)})
    case StrayPark(t) => s.(ready := s.ready - {Handle(t)})
  }

  /** Action a is possible in s and leads to s'. */
  ghost predicate Leads(s: State, a: Action, s': State) {
    WellFormed(s) && Enabled(s, a) && s' == Next(s, a)
  }

  /** The state after a schedule, if each of its actions was possible in its turn. */
  function Run(s: State, schedule: seq<Action>): Option<State>
    decreases |schedule|
  {
    if schedule == [] then Some(s)
    else if WellFormed(s) && Enabled(s, schedule[0]) then Run(Next(s, schedule[0]), schedule[1..])
    else None
  }
}
