/** A spin or async wait that was notified returns only after its notifier has let go of it. */
module CondvarSignals {
  import opened Parking
  import opened Sums
  import opened CondvarModel
  import opened CondvarAccounting

  /** On its way back from a notification, and with the flag or continuation set. */
  predicate Signalled(ready: set<Key>, p: Pc) {
    p.Relock? && p.list != SYNC && !p.timedOut ==> p.me.key in ready
  }

  ghost predicate OutcomesSignalled(s: State) {
    forall w :: w in s.h.outcomes && !s.h.outcomes[w] && w < |s.h.kinds| && s.h.kinds[w] != SYNC ==> Cont(w) in s.ready
  }

  ghost predicate SignalInv(s: State) {
    && Inv(s) && OutcomesSignalled(s)
    && forall t {:trigger Signalled(s.ready, s.pcs[t])} :: 0 <= t < |s.pcs| ==> Signalled(s.ready, s.pcs[t])
  }

  /** Flags and continuations stay set. */
  predicate KeepsConts(s: State, s': State) {
    forall k :: k in s.ready && k.Cont? ==> k in s'.ready
  }

  lemma SignalKept(s: State, s': State, t: nat)
    requires SignalInv(s) && Inv(s') && Moved(s, s', t) && KeepsConts(s, s')
    requires s.h.kinds <= s'.h.kinds && Signalled(s'.ready, s'.pcs[t])
    requires s'.h.outcomes == s.h.outcomes
    ensures SignalInv(s')
  {
    forall u | 0 <= u < |s'.pcs| ensures Signalled(s'.ready, s'.pcs[u]) {
      if u != t {
        assert s'.pcs[u] == s.pcs[u] && Signalled(s.ready, s.pcs[u]) && ThreadOk(s, u);
      }
    }
    forall w | w in s'.h.outcomes && !s'.h.outcomes[w] && w < |s'.h.kinds| && s'.h.kinds[w] != SYNC
      ensures Cont(w) in s'.ready
    {
      assert w in s.h.outcomes && w < |s.h.kinds| && s'.h.kinds[w] == s.h.kinds[w];
    }
  }

  /** Where a step takes the thread, and that it unsets no flag. */
  lemma StepSignals(s: State, t: nat)
    requires WellFormed(s) && t < |s.pcs| && CanStep(s, t) && !s.pcs[t].Relock?
    requires s.pcs[t].Asleep? && s.pcs[t].list == SYNC ==> s.pcs[t].me.key.Handle?
    ensures var s' := StepOf(s, t);
      && Moved(s, s', t) && KeepsConts(s, s') && Signalled(s'.ready, s'.pcs[t])
      && s.h.kinds <= s'.h.kinds && s'.h.outcomes == s.h.outcomes
  {
    assert InRange(s.pcs[t]);
  }

  lemma ReturnSignals(s: State, t: nat)
    requires SignalInv(s) && t < |s.pcs| && s.pcs[t].Relock? && CanStep(s, t)
    ensures SignalInv(StepOf(s, t))
  {
    InvStep(s, t);
    assert ThreadOk(s, t) && Signalled(s.ready, s.pcs[t]) && PhaseOk(s, s.pcs[t], SPIN);
    ReturnKept(s, StepOf(s, t), t);
  }

  /** The outcome that is recorded is that of a wait whose signal is set. */
  lemma ReturnKept(s: State, s': State, t: nat)
    requires SignalInv(s) && Inv(s') && t < |s.pcs| && s.pcs[t].Relock? && s' == Return(s, t, s.pcs[t].me, s.pcs[t].timedOut)
    requires EntryOk(s, s.pcs[t].list, s.pcs[t].me) && Signalled(s.ready, s.pcs[t])
    ensures SignalInv(s')
  {
    forall u | 0 <= u < |s'.pcs| ensures Signalled(s'.ready, s'.pcs[u]) {
      if u != t { assert Signalled(s.ready, s.pcs[u]); }
    }
  }

  lemma CallSignals(s: State, a: Action)
    requires WellFormed(s) && Enabled(s, a) && !a.Step?
    requires Signalled(s.ready, s.pcs[a.t])
    requires s.pcs[a.t].Relock? && s.pcs[a.t].list != SYNC ==> s.pcs[a.t].me.key.Cont?
    ensures var s' := Next(s, a);
      && KeepsConts(s, s') && a.t < |s'.pcs| && Signalled(s'.ready, s'.pcs[a.t])
      && s'.pcs == s.pcs[a.t := s'.pcs[a.t]]
      && s.h.kinds <= s'.h.kinds && s'.h.outcomes == s.h.outcomes
  {}

  lemma SignalNext(s: State, a: Action)
    requires SignalInv(s) && Enabled(s, a)
    ensures SignalInv(Next(s, a))
  {
    InvNext(s, a);
    assert ThreadOk(s, a.t) && Signalled(s.ready, s.pcs[a.t]);
    if a.Step? && s.pcs[a.t].Relock? {
      ReturnSignals(s, a.t);
    } else {
      if a.Step? { StepSignals(s, a.t); } else { CallSignals(s, a); }
      SignalKept(s, Next(s, a), a.t);
    }
  }

  lemma {:induction false} SignalRun(s: State, schedule: seq<Action>)
    requires SignalInv(s) && Run(s, schedule).Some?
    ensures SignalInv(Run(s, schedule).value)
    decreases |schedule|
  {
    if schedule != [] {
      SignalNext(s, schedule[0]);
      SignalRun(Next(s, schedule[0]), schedule[1..]);
    }
  }
}
