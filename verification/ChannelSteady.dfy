/** A receiver that uses recv_block, recv_spin, recv_spin_timeout and try_recv: a stale entry may divert a
    notifier, but only to the receiver's own thread, which wakes up and finds the value. */
module ChannelSteady {
  import opened Parking
  import opened Sums
  import opened ChannelModel
  import opened ChannelOrder
  import opened ChannelLastSender
  import opened ChannelWake

  predicate Steady(a: Action) {
    a.CallRecv? ==> SteadyWait(a.list, a.timed)
  }

  predicate SteadyWait(list: nat, timed: bool) { list == SPIN || (list == SYNC && !timed) }

  predicate SteadyRx(p: RxPc) {
    match p
    case RLock(list, timed) => SteadyWait(list, timed)
    case RPop(list, timed, _) => SteadyWait(list, timed)
    case RCount(list, timed, _) => SteadyWait(list, timed)
    case RRegister(list, timed) => SteadyWait(list, timed)
    case RListed(list, _, timed) => SteadyWait(list, timed)
    case RAsleep(list, _, timed) => SteadyWait(list, timed)
    case RRelock(list, timed, _) => SteadyWait(list, timed)
    case RCheck(_) => false
    case _ => true
  }

  /** A diversion has woken the receiver, or is about to. */
  ghost predicate DivertedIsWoken(s: State) {
    Parked(s.rx) && s.h.diverted > 0 ==> OnItsWay(s, s.rx.key)
  }

  ghost predicate SteadyInv(s: State) {
    WakeInv(s) && SteadyRx(s.rx) && DivertedIsWoken(s)
  }

  lemma SteadyRxStep(s: State)
    requires SteadyInv(s) && RxCanStep(s)
    ensures SteadyRx(RxStepOf(s).rx) && DivertedIsWoken(RxStepOf(s))
  {}

  lemma SteadyRxCall(s: State, a: Action)
    requires SteadyInv(s) && Enabled(s, a) && Steady(a)
    requires a.CallRecv? || a.CallTryRecv? || a.CallDropReceiver? || a.RxSpurious? || a.StrayToken? || a.StrayPark?
    ensures SteadyRx(Next(s, a).rx) && DivertedIsWoken(Next(s, a))
  {}

  lemma SteadyRxExpire(s: State)
    requires SteadyInv(s) && Enabled(s, RxExpire)
    ensures SteadyRx(Next(s, RxExpire).rx) && DivertedIsWoken(Next(s, RxExpire))
  {}

  /** User i moves: what it stops carrying it has set, and if it was diverted it carries the key. */
  lemma TxKeepsWoken(s: State, s': State, i: nat)
    requires DivertedIsWoken(s) && TxMoved(s, s', i) && s'.rx == s.rx
    requires Parked(s.rx) ==>
      var carry := Carries(s.rx.key);
      && (s.rx.key in s.ready ==> s.rx.key in s'.ready)
      && (carry(s'.tx[i]) >= carry(s.tx[i]) || s.rx.key in s'.ready)
      && (s'.h.diverted > s.h.diverted ==> carry(s'.tx[i]) > 0)
    ensures DivertedIsWoken(s')
  {
    if Parked(s.rx) {
      SumUpdate(Carries(s.rx.key), s.tx, i, s'.tx[i]);
      SumAtLeast(Carries(s.rx.key), s'.tx, i);
    }
  }

  lemma SteadyPop(s: State, i: nat)
    requires SteadyInv(s) && i < |s.tx| && s.tx[i].TNotify?
    ensures DivertedIsWoken(TxStepOf(s, i))
  {
    var list := s.lists[s.tx[i].list];
    if list != [] { assert list[|list| - 1] in list; }
    TxKeepsWoken(s, TxStepOf(s, i), i);
  }

  lemma SteadyWakeAll(s: State, i: nat)
    requires SteadyInv(s) && i < |s.tx| && s.tx[i].TWakeAll?
    ensures DivertedIsWoken(TxStepOf(s, i))
  {
    if s.tx[i].batch != [] && Parked(s.rx) { OccursHead(s.rx.key, s.tx[i].batch); }
    TxKeepsWoken(s, TxStepOf(s, i), i);
  }

  lemma SteadyTxOther(s: State, i: nat)
    requires SteadyInv(s) && i < |s.tx| && TxCanStep(s, i) && !s.tx[i].TNotify? && !s.tx[i].TWakeAll?
    ensures DivertedIsWoken(TxStepOf(s, i))
  {
    TxKeepsWoken(s, TxStepOf(s, i), i);
  }

  lemma SteadyTxCall(s: State, a: Action)
    requires SteadyInv(s) && Enabled(s, a) && (a.CallSend? || a.CallDrop? || a.CallClone?)
    ensures DivertedIsWoken(Next(s, a))
  {
    if !a.CallClone? { TxKeepsWoken(s, Next(s, a), a.i); }
  }

  lemma SteadyNext(s: State, a: Action)
    requires SteadyInv(s) && Enabled(s, a) && Steady(a)
    ensures SteadyInv(Next(s, a))
  {
    WakeNext(s, a);
    if a.TxStep? {
      TxLeavesRx(s, a);
      if s.tx[a.i].TNotify? {
        SteadyPop(s, a.i);
      } else if s.tx[a.i].TWakeAll? {
        SteadyWakeAll(s, a.i);
      } else {
        SteadyTxOther(s, a.i);
      }
    } else if a.RxStep? {
      SteadyRxStep(s);
    } else if a.RxExpire? {
      SteadyRxExpire(s);
    } else if a.CallSend? || a.CallDrop? || a.CallClone? {
      TxLeavesRx(s, a);
      SteadyTxCall(s, a);
    } else {
      SteadyRxCall(s, a);
    }
  }

  lemma {:induction false} SteadyRun(s: State, schedule: seq<Action>)
    requires SteadyInv(s) && (forall a :: a in schedule ==> Steady(a)) && Run(s, schedule).Some?
    ensures SteadyInv(Run(s, schedule).value)
    decreases |schedule|
  {
    if schedule != [] {
      assert Steady(schedule[0]);
      SteadyNext(s, schedule[0]);
      SteadyRun(Next(s, schedule[0]), schedule[1..]);
    }
  }
}
