/** What a timed wait finds at its deadline, however spin, block and async waits are mixed, and exactly
    when a reported timeout has swallowed a notification. */
module CondvarDeadline {
  import opened Parking
  import opened Sums
  import opened CondvarModel
  import opened CondvarAccounting

  predicate Removed(h: History, w: nat) { w in h.popped || w in h.left }

  /** A wait's own entry stays until a notifier or the wait itself removes it. */
  predicate WaitPhase(h: History, p: Pc) {
    InWait(p) ==>
      if !p.Relock? then p.me.wait !in h.left
      else p.list == ASYNC ==> if p.timedOut then Removed(h, p.me.wait) else p.me.wait in h.popped
  }

  predicate BatchPopped(h: History, p: Pc) {
    p.Deliver? ==> forall e :: e in p.batch ==> e.wait in h.popped
  }

  ghost predicate ReadyRemoved(s: State) {
    forall w: nat :: Cont(w) in s.ready ==> Removed(s.h, w)
  }

  ghost predicate AsyncOutcomes(s: State) {
    forall w :: w in s.h.outcomes && w < |s.h.kinds| && s.h.kinds[w] == ASYNC ==>
      Removed(s.h, w) && (!s.h.outcomes[w] ==> w in s.h.popped)
  }

  ghost predicate DeadlineOk(s: State) {
    && (forall t :: 0 <= t < |s.pcs| ==> WaitPhase(s.h, s.pcs[t]) && BatchPopped(s.h, s.pcs[t]))
    && ReadyRemoved(s) && AsyncOutcomes(s)
    && forall w :: 0 <= w < |s.h.kinds| ==> s.h.kinds[w] < 3
  }

  ghost predicate DeadlineInv(s: State) { Inv(s) && DeadlineOk(s) }

  /** Thread t moves; whatever leaves a list by itself is t's own. */
  lemma DeadlineKept(s: State, s': State, t: nat)
    requires DeadlineInv(s) && Moved(s, s', t)
    requires s.h.popped <= s'.h.popped && s.h.left <= s'.h.left
    requires forall w :: w in s'.h.left && w !in s.h.left ==> w < |s.h.owners| && s.h.owners[w] == t
    requires s'.h.outcomes == s.h.outcomes
    requires s.h.kinds <= s'.h.kinds && forall w :: |s.h.kinds| <= w < |s'.h.kinds| ==> s'.h.kinds[w] < 3
    requires WaitPhase(s'.h, s'.pcs[t]) && BatchPopped(s'.h, s'.pcs[t]) && ReadyRemoved(s')
    ensures DeadlineOk(s')
  {
    forall u | 0 <= u < |s.pcs| ensures WaitPhase(s'.h, s'.pcs[u]) && BatchPopped(s'.h, s'.pcs[u]) {
      if u != t {
        assert WaitPhase(s.h, s.pcs[u]) && BatchPopped(s.h, s.pcs[u]) && ThreadOk(s, u);
        assert s'.pcs[u] == s.pcs[u];
      }
    }
  }

  /** Nobody's continuation completes without its entry having been removed. */
  lemma DeadlineWake(s: State, t: nat)
    requires DeadlineInv(s) && t < |s.pcs| && s.pcs[t].Asleep? && CanStep(s, t)
    ensures DeadlineOk(StepOf(s, t))
  {
    var p := s.pcs[t];
    assert WaitPhase(s.h, p) && ThreadOk(s, t);
    if p.list == ASYNC && p.me.key in s.ready { assert Cont(p.me.wait) in s.ready; }
    DeadlineKept(s, StepOf(s, t), t);
  }

  lemma DeadlineDeliver(s: State, t: nat)
    requires DeadlineInv(s) && t < |s.pcs| && s.pcs[t].Deliver?
    ensures DeadlineOk(StepOf(s, t))
  {
    var p := s.pcs[t];
    assert BatchPopped(s.h, p) && ThreadOk(s, t);
    if p.batch != [] {
      assert p.batch[0] in p.batch && EntryOk(s, p.list, p.batch[0]);
      assert forall e :: e in p.batch[1..] ==> e in p.batch;
    }
    DeadlineKept(s, StepOf(s, t), t);
  }

  lemma DeadlineQuiet(s: State, t: nat)
    requires DeadlineInv(s) && t < |s.pcs|
    requires s.pcs[t].Listed? || s.pcs[t].Missed? || s.pcs[t].Check? || (s.pcs[t].Drain? && CanStep(s, t))
    ensures DeadlineOk(StepOf(s, t))
  {
    assert WaitPhase(s.h, s.pcs[t]);
    DeadlineKept(s, StepOf(s, t), t);
  }

  lemma DeadlinePush(s: State, t: nat)
    requires DeadlineInv(s) && t < |s.pcs| && s.pcs[t].Register?
    ensures DeadlineOk(StepOf(s, t))
  {
    var s', w := StepOf(s, t), |s.h.kinds|;
    assert OnLists(s, w) + Bit(w in s.h.popped) + Bit(w in s.h.left) == 0;
    DeadlineKept(s, s', t);
  }

  lemma DeadlineTakeAll(s: State, t: nat)
    requires DeadlineInv(s) && t < |s.pcs| && s.pcs[t].Notify? && s.pcs[t].all
    ensures DeadlineOk(StepOf(s, t))
  {
    DeadlineKept(s, StepOf(s, t), t);
  }

  lemma DeadlinePopOne(s: State, t: nat)
    requires DeadlineInv(s) && t < |s.pcs| && s.pcs[t].Notify? && !s.pcs[t].all
    ensures DeadlineOk(StepOf(s, t))
  {
    DeadlineKept(s, StepOf(s, t), t);
  }

  lemma DeadlineReturn(s: State, t: nat)
    requires DeadlineInv(s) && t < |s.pcs| && s.pcs[t].Relock? && CanStep(s, t)
    ensures DeadlineOk(StepOf(s, t))
  {
    var s' := StepOf(s, t);
    assert WaitPhase(s.h, s.pcs[t]) && ThreadOk(s, t);
    forall u | 0 <= u < |s.pcs| ensures WaitPhase(s'.h, s'.pcs[u]) && BatchPopped(s'.h, s'.pcs[u]) {
      assert WaitPhase(s.h, s.pcs[u]) && BatchPopped(s.h, s.pcs[u]);
      if u != t { assert s'.pcs[u] == s.pcs[u]; }
    }
  }

  /** The list that still holds an entry of wait w holds this one. */
  lemma OnlyOwnEntry(s: State, i: nat, me: Waiter)
    requires Inv(s) && i < 3 && EntryOk(s, i, me)
    ensures me in s.lists[i] <==> OnLists(s, me.wait) > 0
    ensures i != SYNC ==> (me in s.lists[i] <==> OnList(me.key, s.lists[i]))
  {
    if me in s.lists[i] {
      var at :| 0 <= at < |s.lists[i]| && s.lists[i][at] == me;
      SumAtLeast(IsWait(me.wait), s.lists[i], at);
    } else {
      forall j | 0 <= j < 3 ensures Sum(IsWait(me.wait), s.lists[j]) == 0 {
        forall e | e in s.lists[j] ensures e.wait != me.wait { assert EntryOk(s, j, e); }
        NotAmong(me.wait, s.lists[j]);
      }
      if OnList(me.key, s.lists[i]) {
        var e := s.lists[i][Position(me.key, s.lists[i])];
        assert e in s.lists[i] && EntryOk(s, i, e);
      }
    }
  }

  /** A wait that has not ended was popped if and only if its own entry is not on its list. */
  lemma GoneIsPopped(s: State, t: nat)
    requires DeadlineInv(s) && t < |s.pcs| && InWait(s.pcs[t]) && !s.pcs[t].Relock?
    ensures s.pcs[t].me.wait in s.h.popped <==> s.pcs[t].me !in s.lists[ListOf(s.pcs[t])]
  {
    var me := s.pcs[t].me;
    assert ThreadOk(s, t) && WaitPhase(s.h, s.pcs[t]);
    assert OnLists(s, me.wait) + Bit(me.wait in s.h.popped) + Bit(me.wait in s.h.left) == 1;
    OnlyOwnEntry(s, ListOf(s.pcs[t]), me);
  }

  /** A spin or async wait that removes itself removes its own entry and no other. */
  lemma LeavesOwn(s: State, t: nat)
    requires Inv(s) && t < |s.pcs| && s.pcs[t].Expired? && s.pcs[t].list != SYNC
    requires OnList(s.pcs[t].me.key, s.lists[s.pcs[t].list])
    ensures var s', i, me := StepOf(s, t), s.pcs[t].list, s.pcs[t].me;
      && me in s.lists[i] && me.wait !in s.h.left
      && (forall e :: e in s'.lists[i] <==> e in s.lists[i] && e != me)
      && (forall j :: 0 <= j < 3 && j != i ==> s'.lists[j] == s.lists[j])
      && s'.h == s.h.(left := s.h.left + {me.wait}) && OnLists(s', me.wait) == 0
  {
    var s', i, me := StepOf(s, t), s.pcs[t].list, s.pcs[t].me;
    var list, at := s.lists[i], Position(me.key, s.lists[i]);
    assert ThreadOk(s, t) && list[at] in list && EntryOk(s, i, list[at]);
    assert OnLists(s, me.wait) + Bit(me.wait in s.h.popped) + Bit(me.wait in s.h.left) == 1;
    SumAtLeast(IsWait(me.wait), list, at);
    LeaveCounts(s, s', t, i, at);
    assert OnLists(s', me.wait) + Bit(me.wait in s'.h.popped) + Bit(me.wait in s'.h.left) == 1;
    forall e ensures e in s'.lists[i] <==> e in list && e != me {
      if e != me { OthersRemain(list, at, e); } else { NotIn(me, s'.lists[i]); }
    }
  }

  lemma NotIn(me: Waiter, list: seq<Waiter>)
    requires Sum(IsWait(me.wait), list) == 0
    ensures me !in list
  {
    if me in list {
      var k :| 0 <= k < |list| && list[k] == me;
      SumAtLeast(IsWait(me.wait), list, k);
    }
  }

  lemma OthersRemain(list: seq<Waiter>, at: nat, e: Waiter)
    requires at < |list| && e != list[at]
    ensures e in list[..at] + list[at + 1..] <==> e in list
  {
    assert list == list[..at] + [list[at]] + list[at + 1..];
  }

  lemma DeadlineLeave(s: State, t: nat)
    requires DeadlineInv(s) && t < |s.pcs| && s.pcs[t].Expired?
    ensures DeadlineOk(StepOf(s, t))
  {
    var s', i, me := StepOf(s, t), s.pcs[t].list, s.pcs[t].me;
    assert ThreadOk(s, t) && WaitPhase(s.h, s.pcs[t]);
    if OnList(me.key, s.lists[i]) {
      var e := s.lists[i][Position(me.key, s.lists[i])];
      assert e in s.lists[i] && EntryOk(s, i, e);
    } else if i == ASYNC {
      GoneIsPopped(s, t);
      OnlyOwnEntry(s, i, me);
    }
    DeadlineKept(s, s', t);
  }

  lemma DeadlineStep(s: State, t: nat)
    requires DeadlineInv(s) && t < |s.pcs| && CanStep(s, t)
    ensures DeadlineInv(StepOf(s, t))
  {
    InvStep(s, t);
    var p := s.pcs[t];
    if p.Register? {
      DeadlinePush(s, t);
    } else if p.Expired? {
      DeadlineLeave(s, t);
    } else if p.Relock? {
      DeadlineReturn(s, t);
    } else if p.Notify? {
      if p.all { DeadlineTakeAll(s, t); } else { DeadlinePopOne(s, t); }
    } else if p.Asleep? {
      DeadlineWake(s, t);
    } else if p.Deliver? {
      DeadlineDeliver(s, t);
    } else if !p.Idle? && !p.Locked? {
      DeadlineQuiet(s, t);
    }
  }

  lemma DeadlineCall(s: State, a: Action)
    requires DeadlineInv(s) && Enabled(s, a) && !a.Step?
    ensures DeadlineInv(Next(s, a))
  {
    InvNext(s, a);
    var s', t := Next(s, a), a.t;
    assert WaitPhase(s.h, s.pcs[t]) && BatchPopped(s.h, s.pcs[t]);
    assert a.SetPredicate? || a.StrayToken? || a.StrayPark? ==> s'.pcs == s.pcs && s.pcs[t := s.pcs[t]] == s.pcs;
    DeadlineKept(s, s', t);
  }

  lemma DeadlineNext(s: State, a: Action)
    requires DeadlineInv(s) && Enabled(s, a)
    ensures DeadlineInv(Next(s, a))
  {
    if a.Step? { DeadlineStep(s, a.t); } else { DeadlineCall(s, a); }
  }

  lemma InitDeadline(threads: nat)
    ensures DeadlineInv(Init(threads))
  {
    InitInv(threads);
  }

  lemma {:induction false} DeadlineRun(s: State, schedule: seq<Action>)
    requires DeadlineInv(s) && Run(s, schedule).Some?
    ensures DeadlineInv(Run(s, schedule).value)
    decreases |schedule|
  {
    if schedule != [] {
      DeadlineNext(s, schedule[0]);
      DeadlineRun(Next(s, schedule[0]), schedule[1..]);
    }
  }

  ghost predicate Reachable(s: State) {
    exists threads: nat, schedule :: Run(Init(threads), schedule) == Some(s)
  }

  lemma ReachableDeadline(s: State)
    requires Reachable(s)
    ensures DeadlineInv(s)
  {
    var threads: nat, schedule :| Run(Init(threads), schedule) == Some(s);
    InitDeadline(threads);
    DeadlineRun(Init(threads), schedule);
  }
}
