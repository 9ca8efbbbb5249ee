/** Exact results of wait_block_timeout: on a condition variable on which every thread's blocking
    wait is timed, timed_out() is true exactly when no notifier popped the waiter, whatever
    spurious wake-ups happen and however pops race the deadline. */
module CondvarTimed {
  import opened Parking
  import opened Sums
  import opened CondvarModel
  import opened CondvarAccounting

  /** wait_block is not called on this condition variable. */
  predicate OnlyTimed(a: Action) {
    a.CallWait? && a.list == SYNC ==> a.timed
  }

  predicate TimedPc(p: Pc) {
    match p
    case Register(i, timed, _) => i == SYNC ==> timed
    case Listed(i, _, timed, _) => i == SYNC ==> timed
    case Asleep(i, _, timed, _) => i == SYNC ==> timed
    case _ => true
  }

  /** The thread is in a blocking wait that has not ended yet. */
  predicate Blocked(p: Pc) {
    ((p.Listed? || p.Asleep? || p.Expired?) && p.list == SYNC) || p.Check?
  }

  /** Every entry is the entry of its thread's current wait. */
  ghost predicate Current(s: State, e: Waiter)
    requires Shape(s)
  {
    e.key.Handle? && e.key.t < |s.pcs| && Blocked(s.pcs[e.key.t]) && s.pcs[e.key.t].me == e
  }

  ghost predicate TimedInv(s: State)
    requires Shape(s)
  {
    && (forall t :: 0 <= t < |s.pcs| ==> TimedPc(s.pcs[t]) && PhaseOk(s, s.pcs[t], SYNC))
    && (forall e :: e in s.lists[SYNC] ==> Current(s, e))
    && OutcomesOk(s, SYNC)
  }

  lemma QuietTimed(s: State, s': State, t: nat)
    requires WellFormed(s) && TimedInv(s) && WellFormed(s') && Moved(s, s', t)
    requires s'.lists[SYNC] == s.lists[SYNC]
    requires s'.h == s.h.(swept := s'.h.swept, ones := s'.h.ones)
    requires TimedPc(s'.pcs[t]) && PhaseOk(s', s'.pcs[t], SYNC)
    requires Blocked(s.pcs[t]) && s.pcs[t].me in s.lists[SYNC] ==> Blocked(s'.pcs[t]) && s'.pcs[t].me == s.pcs[t].me
    ensures TimedInv(s')
  {
    forall u | 0 <= u < |s.pcs| ensures TimedPc(s'.pcs[u]) && PhaseOk(s', s'.pcs[u], SYNC) {
      if u != t { assert PhaseOk(s, s.pcs[u], SYNC) && s'.pcs[u] == s.pcs[u]; }
    }
    forall e | e in s'.lists[SYNC] ensures Current(s', e) {
      assert Current(s, e);
    }
  }

  /** A wait that is not on its list any more was popped. */
  lemma GoneMeansPopped(s: State, t: nat)
    requires Inv(s) && TimedInv(s) && t < |s.pcs| && Blocked(s.pcs[t])
    requires !OnList(s.pcs[t].me.key, s.lists[SYNC])
    ensures s.pcs[t].me.wait in s.h.popped && s.pcs[t].me !in s.lists[SYNC]
  {
    assert ThreadOk(s, t) && PhaseOk(s, s.pcs[t], SYNC);
    NotListed(s, SYNC, s.pcs[t].me);
    assert OnLists(s, s.pcs[t].me.wait) + Bit(s.pcs[t].me.wait in s.h.popped) + Bit(s.pcs[t].me.wait in s.h.left) == 1;
    if s.pcs[t].me in s.lists[SYNC] { ItsKeyIsListed(s.pcs[t].me, s.lists[SYNC]); }
  }

  lemma TimedQuietStep(s: State, t: nat)
    requires WellFormed(s) && TimedInv(s) && t < |s.pcs| && CanStep(s, t)
    requires s.pcs[t].Listed? || s.pcs[t].Missed? || s.pcs[t].Drain?
    ensures WellFormed(StepOf(s, t)) && TimedInv(StepOf(s, t))
  {
    assert TimedPc(s.pcs[t]) && PhaseOk(s, s.pcs[t], SYNC);
    StaysWellFormed(s, StepOf(s, t), t);
    QuietTimed(s, StepOf(s, t), t);
  }

  lemma TimedDeliver(s: State, t: nat)
    requires WellFormed(s) && TimedInv(s) && t < |s.pcs| && s.pcs[t].Deliver?
    ensures WellFormed(StepOf(s, t)) && TimedInv(StepOf(s, t))
  {
    StaysWellFormed(s, StepOf(s, t), t);
    QuietTimed(s, StepOf(s, t), t);
  }

  lemma TimedWake(s: State, t: nat)
    requires Inv(s) && TimedInv(s) && t < |s.pcs| && CanStep(s, t) && s.pcs[t].Asleep?
    ensures TimedInv(StepOf(s, t))
  {
    assert TimedPc(s.pcs[t]) && PhaseOk(s, s.pcs[t], SYNC);
    QuietTimed(s, StepOf(s, t), t);
  }

  lemma TimedCheck(s: State, t: nat)
    requires Inv(s) && TimedInv(s) && t < |s.pcs| && s.pcs[t].Check?
    ensures TimedInv(StepOf(s, t))
  {
    assert PhaseOk(s, s.pcs[t], SYNC);
    if !OnList(s.pcs[t].me.key, s.lists[SYNC]) { GoneMeansPopped(s, t); }
    QuietTimed(s, StepOf(s, t), t);
  }

  lemma TimedCall(s: State, a: Action)
    requires Inv(s) && TimedInv(s) && Enabled(s, a) && !a.Step? && OnlyTimed(a)
    ensures TimedInv(Next(s, a))
  {
    assert TimedPc(s.pcs[a.t]) && PhaseOk(s, s.pcs[a.t], SYNC);
    QuietTimed(s, Next(s, a), a.t);
  }

  lemma TimedPush(s: State, t: nat)
    requires Inv(s) && TimedInv(s) && t < |s.pcs| && s.pcs[t].Register?
    ensures TimedInv(StepOf(s, t))
  {
    var s', next := StepOf(s, t), |s.h.kinds|;
    assert OnLists(s, next) + Bit(next in s.h.popped) + Bit(next in s.h.left) == 0;
    assert TimedPc(s.pcs[t]);
    forall u | 0 <= u < |s.pcs| ensures TimedPc(s'.pcs[u]) && PhaseOk(s', s'.pcs[u], SYNC) {
      if u != t { assert PhaseOk(s, s.pcs[u], SYNC) && s'.pcs[u] == s.pcs[u]; }
    }
    forall e | e in s'.lists[SYNC] ensures Current(s', e) {
      assert e in s.lists[SYNC] ==> Current(s, e);
    }
  }

  lemma TimedReturn(s: State, t: nat)
    requires Inv(s) && TimedInv(s) && t < |s.pcs| && s.pcs[t].Relock? && CanStep(s, t)
    ensures TimedInv(StepOf(s, t))
  {
    var s' := StepOf(s, t);
    assert ThreadOk(s, t) && PhaseOk(s, s.pcs[t], SYNC);
    forall u | 0 <= u < |s.pcs| ensures TimedPc(s'.pcs[u]) && PhaseOk(s', s'.pcs[u], SYNC) {
      assert ThreadOk(s, u) && PhaseOk(s, s.pcs[u], SYNC);
      if u != t { assert s'.pcs[u] == s.pcs[u]; }
    }
    forall e | e in s'.lists[SYNC] ensures Current(s', e) { assert Current(s, e); }
  }

  /** Removal by a notifier leaves every wait's own view of its end intact. */
  lemma ShrinkTimed(s: State, s': State, t: nat)
    requires Inv(s) && TimedInv(s) && WellFormed(s') && Moved(s, s', t)
    requires !InWait(s.pcs[t]) && !InWait(s'.pcs[t]) && TimedPc(s'.pcs[t])
    requires forall e :: e in s'.lists[SYNC] ==> e in s.lists[SYNC]
    requires s.h.popped <= s'.h.popped
    requires s'.h == s.h.(popped := s'.h.popped, swept := s'.h.swept, onePops := s'.h.onePops, allPops := s'.h.allPops)
    ensures TimedInv(s')
  {
    forall u | 0 <= u < |s.pcs| ensures TimedPc(s'.pcs[u]) && PhaseOk(s', s'.pcs[u], SYNC) {
      assert PhaseOk(s, s.pcs[u], SYNC);
      if u != t { assert s'.pcs[u] == s.pcs[u]; }
    }
    forall e | e in s'.lists[SYNC] ensures Current(s', e) { assert Current(s, e); }
  }

  lemma TimedNotify(s: State, t: nat)
    requires Inv(s) && TimedInv(s) && t < |s.pcs| && s.pcs[t].Notify?
    ensures TimedInv(StepOf(s, t))
  {
    ShrinkTimed(s, StepOf(s, t), t);
  }

  /** Removing the first entry with the thread's handle removes the wait's own entry, and no other
      entry of the thread stays behind. */
  lemma OwnEntry(s: State, t: nat)
    requires Inv(s) && TimedInv(s) && t < |s.pcs| && Blocked(s.pcs[t])
    requires OnList(s.pcs[t].me.key, s.lists[SYNC])
    ensures var list := s.lists[SYNC];
      var at := Position(s.pcs[t].me.key, list);
      && list[at] == s.pcs[t].me
      && forall e :: e in list[..at] + list[at + 1..] ==> e in list && e.key != s.pcs[t].me.key
  {
    var list, me := s.lists[SYNC], s.pcs[t].me;
    var at := Position(me.key, list);
    assert ThreadOk(s, t);
    assert list[at] in list && Current(s, list[at]);
    var rest := list[..at] + list[at + 1..];
    SumRemove(IsWait(me.wait), list, at);
    assert OnLists(s, me.wait) + Bit(me.wait in s.h.popped) + Bit(me.wait in s.h.left) == 1;
    forall e | e in rest ensures e in list && e.key != me.key {
      assert e in list && Current(s, e);
      var i :| 0 <= i < |rest| && rest[i] == e;
      SumAtLeast(IsWait(me.wait), rest, i);
    }
  }

  lemma TimedLeave(s: State, t: nat)
    requires Inv(s) && TimedInv(s) && t < |s.pcs| && s.pcs[t].Expired?
    ensures TimedInv(StepOf(s, t))
  {
    var s', i, me := StepOf(s, t), s.pcs[t].list, s.pcs[t].me;
    assert ThreadOk(s, t) && PhaseOk(s, s.pcs[t], SYNC);
    if OnList(me.key, s.lists[i]) {
      var at := Position(me.key, s.lists[i]);
      assert s.lists[i][at] in s.lists[i] && EntryOk(s, i, s.lists[i][at]);
      if i == SYNC { OwnEntry(s, t); }
      forall u | 0 <= u < |s.pcs| ensures TimedPc(s'.pcs[u]) && PhaseOk(s', s'.pcs[u], SYNC) {
        assert ThreadOk(s, u) && PhaseOk(s, s.pcs[u], SYNC);
        if u != t { assert s'.pcs[u] == s.pcs[u]; }
      }
      forall e | e in s'.lists[SYNC] ensures Current(s', e) {
        assert e in s.lists[SYNC] && Current(s, e);
      }
    } else {
      if i == SYNC { GoneMeansPopped(s, t); }
      QuietTimed(s, s', t);
    }
  }

  lemma TimedNext(s: State, a: Action)
    requires Inv(s) && TimedInv(s) && Enabled(s, a) && OnlyTimed(a)
    ensures Inv(Next(s, a)) && TimedInv(Next(s, a))
  {
    InvNext(s, a);
    if !a.Step? {
      TimedCall(s, a);
    } else {
      var p := s.pcs[a.t];
      if p.Register? {
        TimedPush(s, a.t);
      } else if p.Asleep? {
        TimedWake(s, a.t);
      } else if p.Check? {
        TimedCheck(s, a.t);
      } else if p.Expired? {
        TimedLeave(s, a.t);
      } else if p.Relock? {
        TimedReturn(s, a.t);
      } else if p.Notify? {
        TimedNotify(s, a.t);
      } else if p.Deliver? {
        TimedDeliver(s, a.t);
      } else {
        TimedQuietStep(s, a.t);
      }
    }
  }

  lemma {:induction false} RunTimed(s: State, schedule: seq<Action>)
    requires Inv(s) && TimedInv(s) && Run(s, schedule).Some?
    requires forall a :: a in schedule ==> OnlyTimed(a)
    ensures Inv(Run(s, schedule).value) && TimedInv(Run(s, schedule).value)
    decreases |schedule|
  {
    if schedule != [] {
      assert schedule[0] in schedule;
      TimedNext(s, schedule[0]);
      RunTimed(Next(s, schedule[0]), schedule[1..]);
    }
  }
}
