/** What each acquisition call of the reader-writer lock comes back with. */
module RwLockCalls {
  import opened Parking
  import opened Traces
  import opened RwLockModel

  /** lock_block_* and lock_async_*, lock_spin_*, try_lock_*. */
  datatype Call = Lock(list: nat) | SpinLock(writer: bool) | TryLock(writer: bool)

  function Entry(c: Call, t: nat): Action {
    match c
    case Lock(list) => CallLock(t, list)
    case SpinLock(writer) => CallSpin(t, writer)
    case TryLock(writer) => CallTry(t, writer)
  }

  /** The call is for a WriteGuard. */
  predicate Writing(c: Call) { if c.Lock? then ForWriters(c.list) else c.writer }

  /** The thread has called and the call has not returned. */
  predicate Acquiring(p: Pc) {
    p.Start? || p.Try? || p.Got? || p.Push? || p.Listed? || p.Asleep? || p.Spin?
  }

  /** Where call c can be: it waits as it was told to, on the list it was made for. */
  predicate During(c: Call, p: Pc) {
    match p
    case Start(i) => c == Lock(i)
    case Try(i) => c == Lock(i)
    case Got(i) => c == Lock(i)
    case Push(i) => c == Lock(i)
    case Listed(i, _) => c == Lock(i)
    case Asleep(i, _) => c == Lock(i)
    case Spin(writer) => c == SpinLock(writer)
    case _ => false
  }

  /** The call goes on, has its guard, has panicked as a reader, or is a try_lock that was refused. */
  predicate Answered(c: Call, p: Pc) {
    || During(c, p)
    || p == Hold(Writing(c))
    || (p == Panicked(if c.Lock? then c.list else NOWHERE) && !Writing(c))
    || (p.Idle? && c.TryLock?)
  }

  lemma CallEnters(s: State, c: Call, t: nat)
    requires WellFormed(s) && Enabled(s, Entry(c, t))
    ensures t < |Next(s, Entry(c, t)).pcs| && Answered(c, Next(s, Entry(c, t)).pcs[t])
  {}

  /** A thread's place changes by its own actions only. */
  lemma OthersStay(s: State, a: Action, t: nat)
    requires WellFormed(s) && Enabled(s, a) && t < |s.pcs|
    ensures |Next(s, a).pcs| == |s.pcs|
    ensures a.t != t || a.StrayToken? || a.StrayPark? ==> Next(s, a).pcs[t] == s.pcs[t]
  {
    if a.Step? { assert StepOf(s, a.t).pcs == s.pcs[a.t := StepOf(s, a.t).pcs[a.t]]; }
  }

  lemma StepsOn(s: State, c: Call, t: nat)
    requires WellFormed(s) && t < |s.pcs| && CanStep(s, t) && During(c, s.pcs[t])
    ensures t < |StepOf(s, t).pcs| && Answered(c, StepOf(s, t).pcs[t])
  {}

  lemma CallGoesOn(s: State, c: Call, a: Action, t: nat)
    requires WellFormed(s) && Enabled(s, a) && t < |s.pcs| && During(c, s.pcs[t])
    ensures t < |Next(s, a).pcs| && Answered(c, Next(s, a).pcs[t])
  {
    OthersStay(s, a, t);
    if a == Step(t) { StepsOn(s, c, t); }
  }

  /** Thread t made call c at `start`, and at no moment before `now` had it returned. */
  ghost predicate InCall(states: seq<State>, schedule: seq<Action>, start: nat, now: nat, t: nat, c: Call)
    requires |states| == |schedule| + 1
  {
    && start < now <= |schedule| && schedule[start] == Entry(c, t)
    && forall k :: start < k < now ==> t < |states[k].pcs| && Acquiring(states[k].pcs[t])
  }

  /** In every run, with any number of wake-ups, spurious ones and foreign tokens among them: a call
      is still under way as it was made, or has the guard of its kind, or has panicked, which only
      readers do.  Only try_lock_* comes back without. */
  lemma {:induction false} CallAnswers(states: seq<State>, schedule: seq<Action>, start: nat, now: nat, t: nat, c: Call)
    requires IsTrace(Leads, states, schedule) && InCall(states, schedule, start, now, t, c)
    ensures t < |states[now].pcs| && Answered(c, states[now].pcs[t])
  {
    var s, a := states[now - 1], schedule[now - 1];
    assert Leads(s, a, states[now]);
    if now == start + 1 {
      CallEnters(s, c, t);
    } else {
      CallAnswers(states, schedule, start, now - 1, t, c);
      CallGoesOn(s, c, a, t);
    }
  }

  // ---- a trace is a run ----

  lemma Unrolls(states: seq<State>, schedule: seq<Action>, k: nat)
    requires |states| == |schedule| + 1 && k < |schedule| && Leads(states[k], schedule[k], states[k + 1])
    ensures Run(states[k], schedule[k..]) == Run(states[k + 1], schedule[k + 1..])
  {
    assert schedule[k..][0] == schedule[k] && schedule[k..][1..] == schedule[k + 1..];
  }

  lemma TraceRuns(states: seq<State>, schedule: seq<Action>)
    requires IsTrace(Leads, states, schedule)
    ensures Run(states[0], schedule) == Some(states[|schedule|])
  {
    forall k | 0 <= k < |schedule| ensures Run(states[k], schedule[k..]) == Run(states[k + 1], schedule[k + 1..]) {
      assert Leads(states[k], schedule[k], states[k + 1]);
      Unrolls(states, schedule, k);
    }
    Along(Run, states, schedule, 0);
    assert schedule[0..] == schedule;
  }
}
