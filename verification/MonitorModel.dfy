/** A condition variable together with the mutex its waiters use, as one system. */
module MonitorModel {

  // CondvarModel and MutexModel run side by side over the same threads.  A thread is in the code of
  // one of them at a time: the guard is obtained by a step of the mutex, which is also the moment
  // CondvarModel's thread gets its guard, and dropped by a step of both, after which did_unlock
  // runs before the thread goes on.  The park tokens are shared: whatever one side sets or
  // consumes, the other side sees as StrayToken or StrayPark.

  import opened Parking
  import C = CondvarModel
  import M = MutexModel

  datatype State = State(c: C.State, m: M.State)

  datatype Action =
    | Wait(ca: C.Action)     // a step of the condition variable or of its user, with or without the guard
    | Lock(ma: M.Action)     // a step of the mutex that neither obtains nor drops a guard
    | Obtain(ma: M.Action)   // the mutex step after which the thread has its guard
    | Release(t: nat)        // the guard's drop

  function Init(threads: nat, initial: M.Data): State {
    State(C.Init(threads), M.Init(threads, initial))
  }

  predicate WellFormed(s: State) {
    C.WellFormed(s.c) && M.WellFormed(s.m) && |s.c.pcs| == |s.m.pcs|
  }

  predicate HasGuard(p: M.Pc) { p.Hold? || p.Loaded? }

  /** The thread is not inside the mutex's code. */
  predicate Outside(p: M.Pc) { p.Idle? || p.Hold? }

  // ---- what one side's step is to the other ----

  function EchoOfWait(c: C.State, a: C.Action): Option<M.Action>
    requires C.WellFormed(c) && C.Enabled(c, a)
  {
    if !a.Step? then None
    else
      var p := c.pcs[a.t];
      if p.Deliver? && p.batch != [] && p.batch[0].key.Handle? && p.batch[0].key.t < |c.pcs| then
        Some(M.StrayToken(p.batch[0].key.t))
      else if p.Asleep? && p.list == C.SYNC then Some(M.StrayPark(a.t))
      else None
  }

  function EchoOfLock(m: M.State, a: M.Action): Option<C.Action>
    requires M.WellFormed(m) && M.Enabled(m, a)
  {
    if !a.Step? then None
    else
      var p := m.pcs[a.t];
      if p.Waking? && p.batch != [] && p.batch[0].Handle? && p.batch[0].t < |m.pcs| then
        Some(C.StrayToken(p.batch[0].t))
      else if p.Asleep? && p.list == M.SYNC then Some(C.StrayPark(a.t))
      else None
  }

  function OnMutex(m: M.State, a: Option<M.Action>): M.State
    requires a.Some? ==> M.WellFormed(m) && M.Enabled(m, a.value)
  {
    if a.Some? then M.Next(m, a.value) else m
  }

  function OnCondvar(c: C.State, a: Option<C.Action>): C.State
    requires a.Some? ==> C.WellFormed(c) && C.Enabled(c, a.value)
  {
    if a.Some? then C.Next(c, a.value) else c
  }

  /** The step after which thread a.t has its guard. */
  predicate Obtains(m: M.State, a: M.Action)
    requires M.WellFormed(m) && M.Enabled(m, a)
  {
    && (a.Step? || a.CallTry?)
    && !HasGuard(m.pcs[a.t])
    && a.t < |M.Next(m, a).pcs| && M.Next(m, a).pcs[a.t].Hold?
  }

  /** The guard that the user gets from a lock function, or a wait at its end. */
  function Obtained(c: C.State, t: nat): C.Action
    requires t < |c.pcs|
  {
    if c.pcs[t].Idle? then C.Lock(t) else C.Step(t)
  }

  /** The guard that the user drops, or a wait after its registration. */
  function Released(c: C.State, t: nat): C.Action
    requires t < |c.pcs|
  {
    if c.pcs[t].Locked? then C.Unlock(t) else C.Step(t)
  }

  /** Steps of the condition variable that are not the mutex's affair. */
  predicate OwnWait(c: C.State, a: C.Action)
    requires a.t < |c.pcs|
  {
    match a
    case Lock(_) => false
    case Unlock(_) => false
    case StrayToken(_) => false
    case StrayPark(_) => false
    case Step(t) => !c.pcs[t].Listed? && !c.pcs[t].Relock?
    case _ => true
  }

  /** Anybody without a guard may enter the mutex; a wait that re-acquires it does so by lock_sync or
      lock_async: blocking, spinning or awaiting, without a deadline. */
  predicate MayCall(p: C.Pc, a: M.Action) {
    match a
    case CallLock(_, _, timed) => p.Idle? || (p.Relock? && !timed)
    case CallSpin(_, timed) => p.Idle? || (p.Relock? && !timed)
    case CallTry(_) => p.Idle?
    case Drop(_) => false
    case StrayToken(_) => false
    case StrayPark(_) => false
    case _ => true
  }

  /** Nothing that the thread itself could not do: what the other side must admit comes on top. */
  predicate Possible(s: State, a: Action)
    requires WellFormed(s)
  {
    match a
    case Wait(ca) => C.Enabled(s.c, ca) && OwnWait(s.c, ca) && Outside(s.m.pcs[ca.t])
    case Lock(ma) => M.Enabled(s.m, ma) && MayCall(s.c.pcs[ma.t], ma) && !Obtains(s.m, ma)
    case Obtain(ma) => M.Enabled(s.m, ma) && MayCall(s.c.pcs[ma.t], ma) && Obtains(s.m, ma)
    case Release(t) => t < |s.m.pcs| && s.m.pcs[t].Hold? && (s.c.pcs[t].Locked? || s.c.pcs[t].Listed?)
  }

  predicate Enabled(s: State, a: Action)
    requires WellFormed(s)
  {
    && Possible(s, a)
    && match a
       case Wait(ca) => var e := EchoOfWait(s.c, ca); e.Some? ==> M.Enabled(s.m, e.value)
       case Lock(ma) => var e := EchoOfLock(s.m, ma); e.Some? ==> C.Enabled(s.c, e.value)
       case Obtain(ma) => C.Enabled(s.c, Obtained(s.c, ma.t))
       case Release(t) => C.Enabled(s.c, Released(s.c, t))
  }

  function Next(s: State, a: Action): State
    requires WellFormed(s) && Enabled(s, a)
  {
    match a
    case Wait(ca) => State(C.Next(s.c, ca), OnMutex(s.m, EchoOfWait(s.c, ca)))
    case Lock(ma) => State(OnCondvar(s.c, EchoOfLock(s.m, ma)), M.Next(s.m, ma))
    case Obtain(ma) => State(C.Next(s.c, Obtained(s.c, ma.t)), M.Next(s.m, ma))
    case Release(t) => State(C.Next(s.c, Released(s.c, t)), M.Next(s.m, M.Drop(t)))
  }

  /** The condition variable's share of a step, and the mutex's. */
  function WaitPart(s: State, a: Action): Option<C.Action>
    requires WellFormed(s) && Enabled(s, a)
  {
    match a
    case Wait(ca) => Some(ca)
    case Lock(ma) => EchoOfLock(s.m, ma)
    case Obtain(ma) => Some(Obtained(s.c, ma.t))
    case Release(t) => Some(Released(s.c, t))
  }

  function LockPart(s: State, a: Action): Option<M.Action>
    requires WellFormed(s) && Enabled(s, a)
  {
    match a
    case Wait(ca) => EchoOfWait(s.c, ca)
    case Lock(ma) => Some(ma)
    case Obtain(ma) => Some(ma)
    case Release(t) => Some(M.Drop(t))
  }

  function Run(s: State, schedule: seq<Action>): Option<State>
    decreases |schedule|
  {
    if schedule == [] then Some(s)
    else if WellFormed(s) && Enabled(s, schedule[0]) then Run(Next(s, schedule[0]), schedule[1..])
    else None
  }
}
