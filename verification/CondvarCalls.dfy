/** What each wait on the condition variable comes back with. */
module CondvarCalls {
  import opened Parking
  import opened Traces
  import opened CondvarModel
  import CondvarNotify

  /** wait_spin, wait_block, wait_async or a timed form; `checked` if the caller saw its predicate unset. */
  datatype Call = Wait(list: nat, timed: bool, checked: bool)

  function Entry(c: Call, t: nat): Action { CallWait(t, c.list, c.timed, c.checked) }

  /** The thread has called and the wait has not returned. */
  predicate InCode(p: Pc) { p.Register? || Waiting(p) || p.Relock? }

  /** Where call c can be, before and after its deadline was noticed: it waits as it was told to and on
      the list it was made for; once the deadline is noticed it does not sleep again, and it is never
      on its way back with a timeout before. */
  predicate During(c: Call, expired: bool, p: Pc) {
    match p
    case Register(i, timed, checked) => c == Wait(i, timed, checked) && !expired
    case Listed(i, _, timed, checked) => c == Wait(i, timed, checked) && !expired
    case Asleep(i, _, timed, checked) => c == Wait(i, timed, checked) && !expired
    case Missed(i, _, checked) => c == Wait(i, true, checked) && i != SYNC && !expired
    case Check(_, checked) => c == Wait(SYNC, true, checked) && !expired
    case Expired(i, _, checked) => c == Wait(i, true, checked) && expired
    case Drain(_) => c.list == SPIN && c.timed && expired
    case Relock(i, _, timedOut) => c.list == i && (timedOut ==> c.timed && expired)
    case _ => false
  }

  /** The call returns with the mutex and reports what it found when it stopped waiting. */
  ghost predicate Returns(s: State, s': State, t: nat)
    requires t < |s.pcs| && t < |s'.pcs|
  {
    && s.pcs[t].Relock? && s'.pcs[t].Locked? && s'.holder == Some(t)
    && s'.h.outcomes == s.h.outcomes[s.pcs[t].me.wait := s.pcs[t].timedOut]
  }

  lemma StepsOn(s: State, c: Call, expired: bool, t: nat)
    requires WellFormed(s) && t < |s.pcs| && CanStep(s, t) && During(c, expired, s.pcs[t])
    ensures t < |StepOf(s, t).pcs|
    ensures During(c, expired, StepOf(s, t).pcs[t]) || Returns(s, StepOf(s, t), t)
  {}

  lemma CallGoesOn(s: State, c: Call, expired: bool, a: Action, t: nat)
    requires WellFormed(s) && Enabled(s, a) && t < |s.pcs| && During(c, expired, s.pcs[t])
    ensures t < |Next(s, a).pcs|
    ensures During(c, expired || a == Expire(t), Next(s, a).pcs[t]) || (a == Step(t) && Returns(s, Next(s, a), t))
  {
    if a.t != t { CondvarNotify.OthersStay(s, a, t); }
    if a == Step(t) { StepsOn(s, c, expired, t); }
  }

  /** Some Expire of t lies strictly between the two moments. */
  ghost predicate Expires(schedule: seq<Action>, start: nat, now: nat, t: nat)
    requires now <= |schedule|
  {
    exists k :: start < k < now && schedule[k] == Expire(t)
  }

  /** Thread t made call c at `start`, and at no moment before `now` had it returned. */
  ghost predicate InCall(states: seq<State>, schedule: seq<Action>, start: nat, now: nat, t: nat, c: Call)
    requires |states| == |schedule| + 1
  {
    && start < now <= |schedule| && schedule[start] == Entry(c, t)
    && forall k :: start < k < now ==> t < |states[k].pcs| && InCode(states[k].pcs[t])
  }

  /** In every run: a wait is still under way as it was made, or it returns holding the mutex; and a
      wait reports a timeout only if it is timed and its deadline was noticed during this very call. */
  lemma {:induction false} WaitAnswers(states: seq<State>, schedule: seq<Action>, start: nat, now: nat, t: nat, c: Call)
    requires IsTrace(Leads, states, schedule) && InCall(states, schedule, start, now, t, c)
    ensures t < |states[now - 1].pcs| && t < |states[now].pcs|
    ensures || During(c, Expires(schedule, start, now, t), states[now].pcs[t])
            || (During(c, Expires(schedule, start, now - 1, t), states[now - 1].pcs[t])
                && Returns(states[now - 1], states[now], t))
  {
    var s, a := states[now - 1], schedule[now - 1];
    assert Leads(s, a, states[now]);
    if now > start + 1 {
      WaitAnswers(states, schedule, start, now - 1, t, c);
      assert InCode(s.pcs[t]);
      CallGoesOn(s, c, Expires(schedule, start, now - 1, t), a, t);
      assert Expires(schedule, start, now, t) <==> Expires(schedule, start, now - 1, t) || a == Expire(t);
    }
  }

  // ---- a deadline is never ignored ----

  /** A timed wait that has not come to its decision. */
  predicate TimedPoint(p: Pc) {
    p.Missed? || p.Check? || p.Expired? || ((p.Register? || p.Listed? || p.Asleep?) && p.timed)
  }

  predicate Decided(p: Pc) { p.Relock? || p.Drain? }

  /** The thread's own next move towards its decision. */
  function Hurry(p: Pc, t: nat): Action {
    if p.Missed? || (p.Asleep? && p.list == SYNC) then Expire(t) else Step(t)
  }

  /** How many such moves are left. */
  function Left(p: Pc): nat {
    match p
    case Register(_, _, _) => 5
    case Listed(_, _, _, _) => 4
    case Check(_, _) => 4
    case Asleep(_, _, _, _) => 3
    case Missed(_, _, _) => 2
    case Expired(_, _, _) => 1
    case _ => 0
  }

  lemma HurryHelps(s: State, t: nat)
    requires WellFormed(s) && t < |s.pcs| && TimedPoint(s.pcs[t])
    ensures Enabled(s, Hurry(s.pcs[t], t))
    ensures var s' := Next(s, Hurry(s.pcs[t], t));
      && WellFormed(s') && t < |s'.pcs| && Left(s'.pcs[t]) < Left(s.pcs[t])
      && (Decided(s'.pcs[t]) || TimedPoint(s'.pcs[t]))
  {
    assert InRange(s.pcs[t]);
  }

  /** From every point of a timed wait, on any list, the thread can come to its decision by at most
      five moves of its own: it needs no notifier, no token and no mutex. */
  lemma {:induction false} TimedWaitDecides(s: State, t: nat) returns (own: seq<Action>)
    requires WellFormed(s) && t < |s.pcs| && TimedPoint(s.pcs[t])
    ensures forall a :: a in own ==> a.t == t
    ensures |own| <= Left(s.pcs[t]) <= 5 && Run(s, own).Some?
    ensures var s' := Run(s, own).value; t < |s'.pcs| && Decided(s'.pcs[t])
    decreases Left(s.pcs[t])
  {
    var a := Hurry(s.pcs[t], t);
    HurryHelps(s, t);
    var s' := Next(s, a);
    var rest: seq<Action> := [];
    if !Decided(s'.pcs[t]) { rest := TimedWaitDecides(s', t); }
    own := [a] + rest;
    assert own[0] == a && own[1..] == rest;
  }

  /** So a timed call that has not decided waits on its own list, and its thread can always decide. */
  lemma DeadlineIsKept(states: seq<State>, schedule: seq<Action>, start: nat, now: nat, t: nat, c: Call)
    returns (own: seq<Action>)
    requires IsTrace(Leads, states, schedule) && InCall(states, schedule, start, now, t, c) && c.timed
    requires WellFormed(states[now]) && t < |states[now].pcs|
    requires InCode(states[now].pcs[t]) && !Decided(states[now].pcs[t])
    ensures states[now].pcs[t].Check? || states[now].pcs[t].list == c.list
    ensures forall a :: a in own ==> a.t == t
    ensures |own| <= 5 && Run(states[now], own).Some?
    ensures var s' := Run(states[now], own).value; t < |s'.pcs| && Decided(s'.pcs[t])
  {
    WaitAnswers(states, schedule, start, now, t, c);
    own := TimedWaitDecides(states[now], t);
  }

  // ---- a trace is a run ----

  lemma Unrolls(states: seq<State>, schedule: seq<Action>, k: nat)
    requires |states| == |schedule| + 1 && k < |schedule| && Leads(states[k], schedule[k], states[k + 1])
    ensures Run(states[k], schedule[k..]) == Run(states[k + 1], schedule[k + 1..])
  {
    assert schedule[k..][0] == schedule[k] && schedule[k..][1..] == schedule[k + 1..];
  }

  lemma TraceRuns(states: seq<State>, schedule: seq<Action>)
    requires IsTrace(Leads, states, schedule)
    ensures Run(states[0], schedule) == Some(states[|schedule|])
  {
    forall k | 0 <= k < |schedule| ensures Run(states[k], schedule[k..]) == Run(states[k + 1], schedule[k + 1..]) {
      assert Leads(states[k], schedule[k], states[k + 1]);
      Unrolls(states, schedule, k);
    }
    Along(Run, states, schedule, 0);
    assert schedule[0..] == schedule;
  }
}
