/** What every run of the condition variable keeps. */
module CondvarTheorems {
  import opened Parking
  import opened Sums
  import opened Traces
  import opened CondvarModel
  import opened CondvarAccounting
  import opened CondvarTimed
  import opened CondvarDeadline
  import opened CondvarNotify
  import opened CondvarScenes
  import opened CondvarSignals

  // ---- what a wait reports ----

  /** Exact accounting of spin waits, in every run: each registered flag is at every moment in
      exactly one of the list, a notifier's hands, the set flags and the self-removed ones; a
      finished wait reported a timeout if and only if it removed itself, and its flag is on no
      list any more. */
  lemma SpinExact(threads: nat, schedule: seq<Action>, w: nat)
    requires Run(Init(threads), schedule).Some?
    requires w < |Run(Init(threads), schedule).value.h.kinds|
    requires Run(Init(threads), schedule).value.h.kinds[w] == SPIN
    ensures var s := Run(Init(threads), schedule).value;
      && Shape(s)
      && OnLists(s, w) + Sum(Carries(w), s.pcs) + Bit(Cont(w) in s.ready) + Bit(w in s.h.left) == 1
      && (w in s.h.outcomes ==> OnLists(s, w) == 0)
      && (w in s.h.outcomes ==> (s.h.outcomes[w] <==> w in s.h.left))
      && (w in s.h.outcomes ==> (s.h.outcomes[w] <==> w !in s.h.popped))
  {
    InitInv(threads);
    RunInv(Init(threads), schedule);
    var s := Run(Init(threads), schedule).value;
    assert OnLists(s, w) + Bit(w in s.h.popped) + Bit(w in s.h.left) == 1;
  }

  /** A spin or async wait that returns without a timeout has its flag or continuation set, and no
      notifier still has it in its hands: a spin wait that finds itself popped at its deadline waits
      for the store. */
  lemma ReturnsSignalled(s: State, w: nat)
    requires Reachable(s) && w in s.h.outcomes && !s.h.outcomes[w]
    requires w < |s.h.kinds| && s.h.kinds[w] != SYNC
    ensures Cont(w) in s.ready
    ensures s.h.kinds[w] == SPIN ==> Sum(Carries(w), s.pcs) == 0
  {
    var threads: nat, schedule :| Run(Init(threads), schedule) == Some(s);
    InitInv(threads);
    SignalRun(Init(threads), schedule);
    assert Sum(Carries(w), s.pcs) + Bit(Cont(w) in s.ready) <= 1 || s.h.kinds[w] != SPIN;
  }

  /** A thread is on the list at most once and only while it waits; every finished wait reported a
      timeout if and only if it removed its own entry, if and only if no notifier popped it. */
  lemma BlockTimeoutExact(threads: nat, schedule: seq<Action>)
    requires Run(Init(threads), schedule).Some?
    requires forall a :: a in schedule ==> OnlyTimed(a)
    ensures var s := Run(Init(threads), schedule).value;
      && Shape(s)
      && (forall e :: e in s.lists[SYNC] ==> Current(s, e))
      && (forall i, j :: 0 <= i < j < |s.lists[SYNC]| ==> s.lists[SYNC][i].key != s.lists[SYNC][j].key)
      && (forall w :: w in s.h.outcomes && w < |s.h.kinds| && s.h.kinds[w] == SYNC ==>
            && (s.h.outcomes[w] <==> w in s.h.left)
            && (s.h.outcomes[w] <==> w !in s.h.popped))
  {
    InitInv(threads);
    RunTimed(Init(threads), schedule);
    var s := Run(Init(threads), schedule).value;
    forall i, j | 0 <= i < j < |s.lists[SYNC]| ensures s.lists[SYNC][i].key != s.lists[SYNC][j].key {
      var list := s.lists[SYNC];
      assert Current(s, list[i]) && Current(s, list[j]);
      SumAtLeastTwo(IsWait(list[i].wait), list, i, j);
      assert OnLists(s, list[i].wait) <= 1;
    }
    forall w | w in s.h.outcomes && w < |s.h.kinds| && s.h.kinds[w] == SYNC
      ensures (s.h.outcomes[w] <==> w in s.h.left) && (s.h.outcomes[w] <==> w !in s.h.popped)
    {
      assert OnLists(s, w) + Bit(w in s.h.popped) + Bit(w in s.h.left) == 1;
    }
  }

  /** A finished async wait that did not time out was popped by a notifier; one that did was removed
      exactly once, by itself or by a notifier. */
  lemma AsyncReports(s: State, w: nat)
    requires Reachable(s) && Shape(s)
    requires w in s.h.outcomes && w < |s.h.kinds| && s.h.kinds[w] == ASYNC
    ensures !s.h.outcomes[w] ==> w in s.h.popped && w !in s.h.left
    ensures s.h.outcomes[w] ==> (w in s.h.popped <==> w !in s.h.left)
    ensures OnLists(s, w) == 0
  {
    ReachableDeadline(s);
    assert OnLists(s, w) + Bit(w in s.h.popped) + Bit(w in s.h.left) == 1;
  }

  /** At its deadline an async wait always reports a timeout.  The report swallows a notification if
      and only if the wait's entry was no longer on the list at that moment. */
  lemma TimeoutSwallowsExactly(s: State, t: nat)
    requires Reachable(s) && t < |s.pcs| && s.pcs[t].Expired? && s.pcs[t].list == ASYNC
    ensures WellFormed(s) && StepOf(s, t).pcs[t] == Relock(ASYNC, s.pcs[t].me, true)
    ensures s.pcs[t].me.wait in StepOf(s, t).h.popped <==> !OnList(s.pcs[t].me.key, s.lists[ASYNC])
  {
    ReachableDeadline(s);
    GoneIsPopped(s, t);
    assert ThreadOk(s, t);
    OnlyOwnEntry(s, ASYNC, s.pcs[t].me);
  }

  /** So "a wait that timed out swallowed no notification" fails for wait_async_timeout: here is a
      run in which the one wait reports a timeout and the one notify_one popped that very wait. */
  lemma TimeoutCanSwallow() returns (s: State)
    ensures Reachable(s) && Shape(s)
    ensures |s.h.kinds| == 1 && s.h.kinds[0] == ASYNC
    ensures 0 in s.h.outcomes && s.h.outcomes[0] && 0 in s.h.popped && s.h.ones == 1
  {
    s := SwallowAt(12);
    var schedule := SwallowRun();
  }

  /** An entry of the thread is listed, but not that of its present wait: only stale ones are. */
  predicate OnlyStaleListed(s: State, me: Waiter)
    requires Shape(s)
  {
    OnList(me.key, s.lists[SYNC]) && me !in s.lists[SYNC]
  }

  /** wait_block_timeout in every run, whatever it is mixed with: at its deadline it reports a timeout
      exactly when some entry of the thread is listed, and the report is wrong - a notifier had popped
      the wait - if and only if only stale entries of the thread are listed. */
  lemma BlockTimeoutSwallowsExactly(s: State, t: nat)
    requires Reachable(s) && t < |s.pcs| && s.pcs[t].Expired? && s.pcs[t].list == SYNC
    ensures WellFormed(s)
    ensures var me := s.pcs[t].me;
      var timedOut := OnList(me.key, s.lists[SYNC]);
      && StepOf(s, t).pcs[t] == Relock(SYNC, me, timedOut)
      && (timedOut && me.wait in s.h.popped <==> OnlyStaleListed(s, me))
      && (!timedOut ==> me.wait in s.h.popped)
  {
    ReachableDeadline(s);
    GoneIsPopped(s, t);
    EntryIsListed(s, s.pcs[t].me);
  }

  /** And before its deadline: it goes back to sleep although it was popped if and only if only stale
      entries of the thread are listed; it returns only when it was popped. */
  lemma BlockCheckMissesExactly(s: State, t: nat)
    requires Reachable(s) && t < |s.pcs| && s.pcs[t].Check?
    ensures WellFormed(s)
    ensures var me := s.pcs[t].me;
      && (StepOf(s, t).pcs[t].Asleep? && me.wait in s.h.popped <==> OnlyStaleListed(s, me))
      && (StepOf(s, t).pcs[t].Relock? ==> me.wait in s.h.popped)
  {
    ReachableDeadline(s);
    GoneIsPopped(s, t);
    EntryIsListed(s, s.pcs[t].me);
  }

  lemma EntryIsListed(s: State, me: Waiter)
    requires Shape(s)
    ensures me in s.lists[SYNC] ==> OnList(me.key, s.lists[SYNC])
  {
    if me in s.lists[SYNC] { ItsKeyIsListed(me, s.lists[SYNC]); }
  }

  /** The mixture does happen: after a wait_block that returned from a spurious wake, a
      wait_block_timeout reports a timeout although the one notify_one popped it. */
  lemma MixCanSwallow() returns (s: State)
    ensures Reachable(s) && Shape(s)
    ensures s.h.kinds == [SYNC, SYNC] && s.h.owners == [0, 0]
    ensures 1 in s.h.outcomes && s.h.outcomes[1] && s.h.popped == {1} && s.h.ones == 1
  {
    s := MixAt(15);
    var schedule := MixRun();
  }

  // ---- what a notifier reaches ----

  /** k calls of notify_one pop at most k waits, and all pops together are exactly the waits
      popped: no wait is popped twice. */
  lemma OnePopPerCall(threads: nat, schedule: seq<Action>)
    requires Run(Init(threads), schedule).Some?
    ensures var s := Run(Init(threads), schedule).value;
      && s.h.onePops + Sum(Seeking, s.pcs) <= s.h.ones
      && |s.h.popped| == s.h.onePops + s.h.allPops
  {
    InitInv(threads);
    SumZero(Seeking, Init(threads).pcs);
    RunCounted(Init(threads), schedule);
  }

  /** Coverage, although the three lists are visited one after the other: if some entry stays
      listed from before a notify_one until the call returns, the call popped an entry. */
  lemma NotifyOneCoverage(states: seq<State>, schedule: seq<Action>, u: nat, start: nat, end: nat, l: nat, e: Waiter)
    requires IsTrace(Leads, states, schedule) && start < end < |states| && l < 3
    requires schedule[start] == CallNotify(u, false)
    requires forall k :: start < k < end ==> u < |states[k].pcs| && (states[k].pcs[u].Notify? || states[k].pcs[u].Deliver?)
    requires forall k :: start <= k <= end ==> l < |states[k].lists| && e in states[k].lists[l]
    requires u < |states[end].pcs| && (states[end].pcs[u].Idle? || states[end].pcs[u].Locked?)
    ensures PoppedSince(states, start, end, u)
  {
    SearchContinues(states, schedule, u, start, end, l, e);
  }

  /** No notify_all is lost.  Once a notify_all that was called after the predicate was set has
      taken a list, every waiter of that list that had seen the predicate unset and has not been
      woken yet has its signal set or in a notifier's batch - whatever the interleaving of
      registrations, releases of the mutex, parks, deadlines and spurious wake-ups. */
  lemma NotifyAllReachesEverybody(threads: nat, schedule: seq<Action>, t: nat)
    requires Run(Init(threads), schedule).Some?
    requires var s := Run(Init(threads), schedule).value;
      && t < |s.pcs| && Sleeping(s.pcs[t]) && s.pcs[t].checked
      && s.pcs[t].list < |s.h.swept| && s.h.swept[s.pcs[t].list]
    ensures var s := Run(Init(threads), schedule).value;
      s.pcs[t].me.key in s.ready ||
      exists u :: 0 <= u < |s.pcs| && s.pcs[u].Deliver? && OnList(s.pcs[t].me.key, s.pcs[u].batch)
  {
    InitInv(threads);
    RunSweep(Init(threads), schedule);
    var s := Run(Init(threads), schedule).value;
    var k := s.pcs[t].me.key;
    assert Reached(s, s.pcs[t]);
    if k !in s.ready {
      var u := SumWitness(CarriesKey(k), s.pcs);
      OnListCounts(k, s.pcs[u].batch);
    }
  }

  /** And no sleeper is ever forgotten: it has its signal, is in a batch, or can still be found. */
  lemma SleepersAreFindable(threads: nat, schedule: seq<Action>, t: nat)
    requires Run(Init(threads), schedule).Some?
    requires var s := Run(Init(threads), schedule).value; t < |s.pcs| && Sleeping(s.pcs[t])
    ensures var s := Run(Init(threads), schedule).value;
      && Shape(s) && s.pcs[t].list < 3
      && (|| s.pcs[t].me.key in s.ready
          || OnList(s.pcs[t].me.key, s.lists[s.pcs[t].list])
          || exists u :: 0 <= u < |s.pcs| && s.pcs[u].Deliver? && OnList(s.pcs[t].me.key, s.pcs[u].batch))
  {
    InitInv(threads);
    RunSweep(Init(threads), schedule);
    var s := Run(Init(threads), schedule).value;
    var k := s.pcs[t].me.key;
    assert Reached(s, s.pcs[t]);
    if k !in s.ready && !OnList(k, s.lists[s.pcs[t].list]) {
      var u := SumWitness(CarriesKey(k), s.pcs);
      OnListCounts(k, s.pcs[u].batch);
    }
  }
}
