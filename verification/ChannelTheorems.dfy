/** What every run of the channel keeps. */
module ChannelTheorems {
  import opened Parking
  import opened Sums
  import opened ChannelModel
  import opened ChannelOrder
  import opened ChannelLastSender
  import opened ChannelWake
  import opened ChannelSteady
  import opened ChannelMissed
  import opened ChannelBounds
  import opened ChannelCalls
  import opened ChannelScenes

  // ---- order and conservation ----

  /** First in, first out: what was received, then what is about to be returned, then the queue, is
      exactly what was pushed, in the order of the queue's mutex. */
  lemma Fifo(s: State)
    requires Reachable(s)
    ensures Values(s.h.pushed) == s.h.received + InHand(s.rx) + s.queue
  {
    ReachableInv(s);
  }

  /** Each user's order is kept, and each Ok send was pushed exactly once: a user's pushes are the
      values of its Ok sends in order, followed by the one its unfinished send has pushed, if any.
      Failed sends and timeouts push nothing. */
  lemma SendersOrder(s: State, i: nat)
    requires Reachable(s) && i < |s.tx|
    ensures i < |s.h.oks| && By(i, s.h.pushed) == s.h.oks[i] + Pushed(s.tx[i])
  {
    ReachableInv(s);
    assert TxOk(s, i);
  }

  /** sender_count is the number of Senders in existence. */
  lemma CountsSenders(s: State)
    requires Reachable(s)
    ensures s.senderCount == |s.senders| + |Members(Dropping, s.tx)|
  {
    ReachableInv(s);
    SumCounts(Dropping, s.tx);
  }

  // ---- Disconnected ----

  /** `Disconnected` is complete: when a call has found it, every value of every Ok send has been
      received, and there is no unfinished send. */
  lemma DisconnectedIsComplete(s: State)
    requires Reachable(s) && s.h.disconnected
    ensures s.h.received == Values(s.h.pushed) && s.queue == []
    ensures s.senders == {} && s.senderCount == 0
    ensures forall i :: 0 <= i < |s.tx| ==> i < |s.h.oks| && By(i, s.h.pushed) == s.h.oks[i]
  {
    ReachableInv(s);
    forall i | 0 <= i < |s.tx| ensures By(i, s.h.pushed) == s.h.oks[i] {
      assert TxOk(s, i);
      NobodySends(s, i);
    }
  }

  /** `Disconnected` is final: whatever happens later, no call yields a value and no send succeeds. */
  lemma {:induction false} DisconnectedIsFinal(s: State, later: seq<Action>)
    requires Inv(s) && s.h.disconnected && Run(s, later).Some?
    ensures var s' := Run(s, later).value;
      && s'.h.disconnected && s'.h.received == s.h.received
      && s'.h.pushed == s.h.pushed && s'.h.oks == s.h.oks
    decreases |later|
  {
    if later != [] {
      InvNext(s, later[0]);
      DisconnectedStep(s, later[0]);
      DisconnectedIsFinal(Next(s, later[0]), later[1..]);
    }
  }

  // ---- Receiver::drop ----

  /** receiver_active tells whether the Receiver exists: it is false exactly from the first step of
      Receiver::drop on. */
  lemma ActiveExactly(s: State)
    requires Reachable(s)
    ensures s.receiverActive <==> !Dropped(s.rx)
  {
    var users: nat, schedule :| Run(Init(users), schedule) == Some(s);
    ActiveRun(Init(users), schedule);
  }

  /** From then on the only value that can still be pushed is that of the one send, if any, that has
      loaded the flag under the mutex and not yet pushed; every other send that has not pushed is
      refused, in every continuation. */
  lemma NothingSentAfterDrop(s: State, later: seq<Action>)
    requires Reachable(s) && Dropped(s.rx) && Run(s, later).Some?
    ensures var now := Run(s, later).value;
      && (|| now.h.pushed == s.h.pushed
          || exists i :: 0 <= i < |s.tx| && s.tx[i].TPush? && now.h.pushed == s.h.pushed + [Sent(i, s.tx[i].value)])
      && (forall i :: 0 <= i < |s.tx| && Unpushed(s.tx[i]) ==>
            i < |now.h.oks| && i < |s.h.oks| && now.h.oks[i] == s.h.oks[i])
      && !now.receiverActive
  {
    ActiveExactly(s);
    ReachableInv(s);
    PushedAfterDrop(s, later);
    var now := Run(s, later).value;
    forall i | 0 <= i < |s.tx| && Unpushed(s.tx[i]) ensures i < |now.h.oks| && now.h.oks[i] == s.h.oks[i] {
      LateSendsFail(s, later, i);
    }
    GoneForGood(s, later);
  }

  // ---- wake-ups of the receiver ----

  /** Somebody sets `key`, or pops it from its list: it is set, in somebody's hands, or listed while a
      sender that has pushed has yet to reach its list in notify_one. */
  ghost predicate ValueWakes(s: State)
    requires WellFormed(s) && s.rx.RAsleep?
  {
    var key, list := s.rx.key, s.rx.list;
    || key in s.ready
    || (exists i :: 0 <= i < |s.tx| && Carries(key)(s.tx[i]) > 0)
    || (key in s.lists[list] && exists i :: 0 <= i < |s.tx| && Coming(list)(s.tx[i]) > 0)
  }

  /** When a receiver sleeps past a value, in every run of any mix of recv variants, with spurious
      wakes, deadlines, stale entries and foreign tokens: a sleeping receiver whose queue is not
      empty and which nobody is about to wake has a notifier coming, except if and only if as many
      notifiers have been diverted as there were ahead at its registration and values pushed since. */
  lemma SleepsPastAValueExactly(s: State)
    requires Reachable(s) && s.rx.RAsleep? && s.queue != [] && !OnItsWay(s, s.rx.key)
    ensures WellFormed(s) && s.rx.key in s.lists[s.rx.list]
    ensures !ValueWakes(s) <==> s.h.diverted == s.h.ahead + |s.queue|
  {
    ReachableWake(s);
    var key, list := s.rx.key, s.rx.list;
    if i :| 0 <= i < |s.tx| && Carries(key)(s.tx[i]) > 0 { SumAtLeast(Carries(key), s.tx, i); }
    if i :| 0 <= i < |s.tx| && Coming(list)(s.tx[i]) > 0 { SumAtLeast(Coming(list), s.tx, i); }
    if Sum(Coming(list), s.tx) > 0 { var i := SumWitness(Coming(list), s.tx); }
  }

  /** What diverts a notifier: a step of notify_one is a diversion if and only if it pops from the list
      of threads a handle that the receiver is not waiting for - it awaits a continuation - or one of
      several. */
  lemma DivertsExactly(s: State, i: nat)
    requires Reachable(s) && i < |s.tx| && s.tx[i].TNotify?
    ensures WellFormed(s)
    ensures TxStepOf(s, i).h.diverted > s.h.diverted <==>
      && s.tx[i].list == SYNC && s.lists[SYNC] != []
      && (|| (Parked(s.rx) && s.rx.list == ASYNC && s.rx.key in s.lists[ASYNC])
          || (Waits(s.rx) && WaitList(s.rx) == SYNC && |s.lists[SYNC]| > 1))
  {
    ReachableWake(s);
    var list := s.lists[s.tx[i].list];
    if list != [] && s.tx[i].list == SYNC {
      assert forall k :: k in list[..|list| - 1] ==> k in list;
      if |list| > 1 { assert list[..|list| - 1][0] == list[0] && list[0] in list; }
    }
  }

  /** The receiver never sleeps past a value in runs of recv_block, recv_spin, recv_spin_timeout and
      try_recv from one thread, with spurious wakes, stale entries and stray tokens. */
  lemma NeverSleepsPastAValue(users: nat, schedule: seq<Action>, s: State)
    requires (forall a :: a in schedule ==> Steady(a)) && Run(Init(users), schedule) == Some(s)
    requires s.rx.RAsleep? && s.queue != []
    ensures WellFormed(s) && ValueWakes(s)
  {
    InitWake(users);
    SteadyRun(Init(users), schedule);
    if OnItsWay(s, s.rx.key) {
      if s.rx.key !in s.ready { var i := SumWitness(Carries(s.rx.key), s.tx); }
    } else {
      SleepsPastAValueExactly(s);
    }
  }

  /** Nor does it in runs of any mix of the untimed recv variants, recv_async included, without
      spurious wakes and foreign tokens. */
  lemma QuietNeverSleepsPastAValue(s: State)
    requires QuietReachable(s) && s.rx.RAsleep? && s.queue != []
    ensures WellFormed(s) && ValueWakes(s)
  {
    QuietReachableInv(s);
    if OnItsWay(s, s.rx.key) {
      if s.rx.key !in s.ready { var i := SumWitness(Carries(s.rx.key), s.tx); }
    } else {
      SleepsPastAValueExactly(s);
    }
  }

  /** In other runs it can: a recv_block that woke spuriously left an entry behind, and a value sent
      to the recv_async after it finds its notify_one diverted.  Everybody else is idle. */
  lemma TheDiversionIsReal(v: Value) returns (s: State)
    ensures Reachable(s) && WellFormed(s) && s.rx.RAsleep? && s.queue == [v]
    ensures !ValueWakes(s)
    ensures forall i :: 0 <= i < |s.tx| ==> s.tx[i].TIdle?
  {
    s := DivertedRun(v);
  }

  /** The last Sender's drop wakes the receiver: in every run of any mix of recv variants, with
      spurious wakes and stale entries, a sleeping receiver whose channel has no Sender left has its
      wake-up pending, unless that notify_all took its list between its load of sender_count and
      its registration. */
  lemma LastSenderWakes(s: State)
    requires Reachable(s) && s.rx.RAsleep? && s.senderCount == 0 && !s.h.missed
    ensures WellFormed(s) && WakePending(s, s.rx.list, s.rx.key)
  {
    var users: nat, schedule :| Run(Init(users), schedule) == Some(s);
    InitInv(users);
    LastRun(Init(users), schedule);
    assert s.rx.list == SPIN || s.rx.list == SYNC || s.rx.list == ASYNC;
    PendingSums(s, s.rx.list, s.rx.key);
  }

  /** A receiver that does not wait has no entry on any list and no token: a recv that returns
      leaves nothing behind for a later notification to hit. */
  lemma NothingLeftBehind(s: State)
    requires QuietReachable(s) && !Parked(s.rx)
    ensures s.lists == [[], [], []] && !OnItsWay(s, RX_THREAD)
  {
    QuietReachableInv(s);
    assert s.lists == [s.lists[SPIN], s.lists[SYNC], s.lists[ASYNC]];
  }

  /** With no Sender left, a sleeping receiver has its wake-up pending if and only if the final
      notify_all did not take its list in the window before its registration. */
  lemma MissedExactly(s: State)
    requires QuietReachable(s) && s.rx.RAsleep? && s.senderCount == 0
    ensures WellFormed(s) && (WakePending(s, s.rx.list, s.rx.key) <==> !s.h.missed)
  {
    QuietReachableInv(s);
    PendingSums(s, s.rx.list, s.rx.key);
    OccursIn(s.rx.key, s.lists[s.rx.list]);
    assert s.rx.list == SPIN || s.rx.list == SYNC || s.rx.list == ASYNC;
  }

  /** A receiver asleep after the window was hit sleeps for ever. */
  lemma {:induction false} MissedSleepsForEver(s: State, later: seq<Action>)
    requires QuietInv(s) && s.h.missed && s.rx.RAsleep?
    requires AllQuiet(later) && Run(s, later).Some?
    ensures Run(s, later).value.rx == s.rx
    decreases |later|
  {
    if later != [] {
      assert Quiet(later[0]);
      MissedStays(s, later[0]);
      QuietNext(s, later[0]);
      MissedSleepsForEver(Next(s, later[0]), later[1..]);
    }
  }

  /** So "dropping the last Sender always wakes the receiver" fails: here is a run at whose end the
      receiver sleeps on a channel without Senders and nobody will wake it. */
  lemma TheWindowIsReal() returns (s: State)
    ensures QuietReachable(s) && s.rx.RAsleep? && s.senderCount == 0
    ensures WellFormed(s) && !WakePending(s, s.rx.list, s.rx.key)
    ensures forall i :: 0 <= i < |s.tx| ==> s.tx[i].TIdle?
  {
    s := WindowAt(14);
    var schedule := WindowRun();
    MissedExactly(s);
  }

  // ---- every run ends ----

  /** Without spurious wakes nobody loops for ever: whatever the schedule, and however many users
      send, clone, drop and receive, a run takes at most 32 moves for each call made. */
  lemma RunsAreShort(users: nat, schedule: seq<Action>)
    requires AllQuiet(schedule) && Run(Init(users), schedule).Some?
    ensures |schedule| <= PER_CALL * Calls(schedule)
  {
    InitCosts(users);
    RunCosts(Init(users), schedule);
  }

  /** And where nobody inside a call can move, nobody is inside a call and nobody has the mutex,
      except that the receiver may be asleep. */
  lemma RunsStopIdle(s: State)
    requires QuietReachable(s) && Stopped(s)
    ensures s.holder == None && forall i :: 0 <= i < |s.tx| ==> s.tx[i].TIdle?
    ensures s.rx.RIdle? || s.rx.RGone? || s.rx.RAsleep?
  {
    QuietReachableHeld(s);
    StoppedIsIdle(s);
  }

  /** There it has received everything that was ever sent, and some Sender is left if and only if the
      window of the last Sender was not hit. */
  lemma RunsStopWithAllReceived(s: State)
    requires QuietReachable(s) && Stopped(s) && s.rx.RAsleep?
    ensures s.queue == [] && s.h.received == Values(s.h.pushed)
    ensures s.senders == {} <==> s.h.missed
  {
    QuietReachableHeld(s);
    StoppedIsIdle(s);
    if s.queue != [] { QuietNeverSleepsPastAValue(s); }
    SumZero(Dropping, s.tx);
    if s.senderCount == 0 { MissedExactly(s); }
  }

  /** Users that send, clone and in the end drop all Senders, and a receiver that receives until
      Disconnected: every value of every Ok send has been received when the run stops, and the
      receiver is asleep for ever if and only if the window of the last Sender was hit. */
  lemma WorkloadsComplete(s: State)
    requires QuietReachable(s) && Stopped(s)
    requires s.senders == {} && !s.rx.RGone? && (s.rx.RIdle? ==> s.h.disconnected)
    ensures s.h.received == Values(s.h.pushed) && s.queue == []
    ensures forall i :: 0 <= i < |s.tx| ==> i < |s.h.oks| && By(i, s.h.pushed) == s.h.oks[i]
    ensures s.rx.RAsleep? <==> s.h.missed
  {
    RunsStopIdle(s);
    forall i | 0 <= i < |s.tx| ensures i < |s.h.oks| && By(i, s.h.pushed) == s.h.oks[i] { SendersOrder(s, i); }
    if s.rx.RAsleep? {
      RunsStopWithAllReceived(s);
    } else {
      DisconnectedIsComplete(s);
      QuietReachableInv(s);
    }
  }
}
