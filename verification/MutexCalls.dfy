/** What each acquisition call of the mutex comes back with. */
module MutexCalls {
  import opened Parking
  import opened Traces
  import opened MutexModel

  /** lock_block and lock_async with their timed forms, lock_spin with its timed form, try_lock. */
  datatype Call = Lock(list: nat, timed: bool) | SpinLock(timed: bool) | TryLock

  function Entry(c: Call, t: nat): Action {
    match c
    case Lock(list, timed) => CallLock(t, list, timed)
    case SpinLock(timed) => CallSpin(t, timed)
    case TryLock => CallTry(t)
  }

  predicate Timed(c: Call) { !c.TryLock? && c.timed }

  /** The thread has called and the call has not returned. */
  predicate Acquiring(p: Pc) {
    p.Start? || p.Try? || p.Got? || p.Push? || p.Listed? || p.Asleep? || p.LastTry? || p.Spin? || p.Missed?
  }

  /** Where call c can be, before and after its deadline was noticed: it waits as it was told to, on
      the list it was made for, and goes to the last attempt only at the deadline. */
  predicate During(c: Call, expired: bool, p: Pc) {
    match p
    case Start(i, timed) => c == Lock(i, timed) && !expired
    case Try(i, timed) => c == Lock(i, timed) && !expired
    case Got(i) => c.Lock? && c.list == i && !expired
    case Push(i, timed) => c == Lock(i, timed) && !expired
    case Listed(i, _, timed) => c == Lock(i, timed) && !expired
    case Asleep(i, _, timed) => c == Lock(i, timed) && !expired
    case LastTry => c.Lock? && c.timed && expired
    case Spin(timed) => c == SpinLock(timed) && !expired
    case Missed(timed) => c == SpinLock(timed) && !expired
    case _ => false
  }

  /** None: the deadline was noticed where the form may give up at once, or by a last attempt that
      found the lock taken; try_lock's one attempt found it taken. */
  predicate GivesUp(c: Call, expired: bool, s: State, a: Action) {
    if c.TryLock? then s.dataLock
    else c.timed && expired && if a.Step? then s.dataLock else a.Expire? && c != Lock(SYNC, true)
  }

  predicate Answered(c: Call, expired: bool, s: State, a: Action, p: Pc) {
    || During(c, expired, p)
    || (p.Hold? && (c.TryLock? ==> !s.dataLock))
    || (p.Idle? && GivesUp(c, expired, s, a))
  }

  lemma CallEnters(s: State, c: Call, t: nat)
    requires WellFormed(s) && Enabled(s, Entry(c, t))
    ensures t < |Next(s, Entry(c, t)).pcs|
    ensures Answered(c, false, s, Entry(c, t), Next(s, Entry(c, t)).pcs[t])
  {}

  /** A thread's place changes by its own actions only. */
  lemma OthersStay(s: State, a: Action, t: nat)
    requires WellFormed(s) && Enabled(s, a) && t < |s.pcs|
    ensures |Next(s, a).pcs| == |s.pcs|
    ensures a.t != t || a.StrayToken? || a.StrayPark? ==> Next(s, a).pcs[t] == s.pcs[t]
  {
    if a.Step? { assert StepOf(s, a.t).pcs == s.pcs[a.t := StepOf(s, a.t).pcs[a.t]]; }
  }

  lemma StepsOn(s: State, c: Call, expired: bool, t: nat)
    requires WellFormed(s) && t < |s.pcs| && CanStep(s, t) && During(c, expired, s.pcs[t])
    ensures t < |StepOf(s, t).pcs| && Answered(c, expired, s, Step(t), StepOf(s, t).pcs[t])
  {}

  lemma CallGoesOn(s: State, c: Call, expired: bool, a: Action, t: nat)
    requires WellFormed(s) && Enabled(s, a) && t < |s.pcs| && During(c, expired, s.pcs[t])
    ensures t < |Next(s, a).pcs|
    ensures Answered(c, expired || a == Expire(t), s, a, Next(s, a).pcs[t])
  {
    OthersStay(s, a, t);
    if a == Step(t) { StepsOn(s, c, expired, t); }
  }

  /** Some Expire of t lies strictly between the two moments. */
  ghost predicate Expired(schedule: seq<Action>, start: nat, now: nat, t: nat)
    requires now <= |schedule|
  {
    exists k :: start < k < now && schedule[k] == Expire(t)
  }

  /** Thread t made call c at `start`, and at no moment before `now` had it returned. */
  ghost predicate InCall(states: seq<State>, schedule: seq<Action>, start: nat, now: nat, t: nat, c: Call)
    requires |states| == |schedule| + 1
  {
    && start < now <= |schedule| && schedule[start] == Entry(c, t)
    && forall k :: start < k < now ==> t < |states[k].pcs| && Acquiring(states[k].pcs[t])
  }

  /** In every run: a call is still under way as it was made, or returns the guard, or - only if it
      has a deadline that was noticed during this very call, or is try_lock - returns none, and then
      never from a last attempt that found the lock free.  So lock_block, lock_async and lock_spin
      come back only with the guard. */
  lemma {:induction false} CallAnswers(states: seq<State>, schedule: seq<Action>, start: nat, now: nat, t: nat, c: Call)
    requires IsTrace(Leads, states, schedule) && InCall(states, schedule, start, now, t, c)
    ensures t < |states[now].pcs|
    ensures Answered(c, Expired(schedule, start, now, t), states[now - 1], schedule[now - 1], states[now].pcs[t])
  {
    var s, a := states[now - 1], schedule[now - 1];
    assert Leads(s, a, states[now]);
    if now == start + 1 {
      CallEnters(s, c, t);
    } else {
      CallAnswers(states, schedule, start, now - 1, t, c);
      CallGoesOn(s, c, Expired(schedule, start, now - 1, t), a, t);
      assert Expired(schedule, start, now, t) <==> Expired(schedule, start, now - 1, t) || a == Expire(t);
    }
  }

  /** The untimed forms, in the words of their documentation. */
  lemma UntimedReturnsGuard(states: seq<State>, schedule: seq<Action>, start: nat, now: nat, t: nat, c: Call)
    requires IsTrace(Leads, states, schedule) && InCall(states, schedule, start, now, t, c)
    requires !c.TryLock? && !c.timed && t < |states[now].pcs| && !Acquiring(states[now].pcs[t])
    ensures states[now].pcs[t].Hold?
  {
    CallAnswers(states, schedule, start, now, t, c);
  }

  // ---- a deadline is never ignored ----

  predicate TimedPoint(p: Pc) { p.LastTry? || (Acquiring(p) && !p.Got? && p.timed) }

  /** The thread's own next move towards the end of the call: it expires where it can. */
  function Hurry(p: Pc, t: nat): Action
    requires TimedPoint(p) || p.Got?
  {
    match p
    case Start(_, _) => Expire(t)
    case Missed(_) => Expire(t)
    case Asleep(i, _, _) => if i == ASYNC then Expire(t) else Spurious(t)
    case _ => Step(t)
  }

  /** How many such moves are left. */
  function Left(p: Pc): nat {
    match p
    case Try(_, _) => 6
    case Push(_, _) => 5
    case Listed(_, _, _) => 4
    case Asleep(_, _, _) => 3
    case Start(_, _) => 2
    case LastTry => 1
    case Spin(_) => 2
    case Missed(_) => 1
    case Got(_) => 1
    case _ => 0
  }

  lemma HurryHelps(s: State, t: nat)
    requires WellFormed(s) && t < |s.pcs| && (TimedPoint(s.pcs[t]) || s.pcs[t].Got?)
    ensures Enabled(s, Hurry(s.pcs[t], t))
    ensures var s' := Next(s, Hurry(s.pcs[t], t));
      && WellFormed(s') && t < |s'.pcs| && Left(s'.pcs[t]) < Left(s.pcs[t])
      && (s'.pcs[t].Hold? || s'.pcs[t].Idle? || TimedPoint(s'.pcs[t]) || s'.pcs[t].Got?)
  {}

  /** From every point of a timed call the thread can end the call by at most six moves of its own:
      it needs no wake-up, no guard and no spinlock that somebody else has. */
  lemma {:induction false} TimedCallEnds(s: State, t: nat) returns (own: seq<Action>)
    requires WellFormed(s) && t < |s.pcs| && (TimedPoint(s.pcs[t]) || s.pcs[t].Got?)
    ensures forall a :: a in own ==> a.t == t
    ensures |own| <= Left(s.pcs[t]) <= 6 && Run(s, own).Some?
    ensures var s' := Run(s, own).value; t < |s'.pcs| && (s'.pcs[t].Hold? || s'.pcs[t].Idle?)
    decreases Left(s.pcs[t])
  {
    var a := Hurry(s.pcs[t], t);
    HurryHelps(s, t);
    var s' := Next(s, a);
    var rest: seq<Action> := [];
    if !s'.pcs[t].Hold? && !s'.pcs[t].Idle? { rest := TimedCallEnds(s', t); }
    own := [a] + rest;
    assert own[0] == a && own[1..] == rest;
  }

  /** So the thread of a timed call can always end it. */
  lemma DeadlineIsKept(states: seq<State>, schedule: seq<Action>, start: nat, now: nat, t: nat, c: Call)
    returns (own: seq<Action>)
    requires IsTrace(Leads, states, schedule) && InCall(states, schedule, start, now, t, c) && Timed(c)
    requires WellFormed(states[now]) && t < |states[now].pcs| && Acquiring(states[now].pcs[t])
    ensures forall a :: a in own ==> a.t == t
    ensures |own| <= 6 && Run(states[now], own).Some?
    ensures var s' := Run(states[now], own).value; t < |s'.pcs| && (s'.pcs[t].Hold? || s'.pcs[t].Idle?)
  {
    CallAnswers(states, schedule, start, now, t, c);
    own := TimedCallEnds(states[now], t);
  }
}
