/** The one way in which the end of the last Sender leaves the receiver asleep: it is reachable, it
    is exactly the window recorded in History.missed, and nothing wakes the receiver afterwards. */
module ChannelMissed {

  // This is about receivers that use the untimed recv variants, in any mix, without spurious wakes
  // or foreign tokens: there every wait is released by exactly one wake-up and leaves nothing behind.

  import opened Parking
  import opened Sums
  import opened ChannelModel
  import opened ChannelOrder
  import opened ChannelLastSender
  import opened ChannelWake

  predicate Quiet(a: Action) {
    !a.RxSpurious? && !a.StrayToken? && (a.CallRecv? ==> !a.timed)
  }

  ghost predicate AllQuiet(schedule: seq<Action>) { forall a :: a in schedule ==> Quiet(a) }

  predicate Untimed(p: RxPc) {
    match p
    case RLock(_, timed) => !timed
    case RPop(_, timed, _) => !timed
    case RCount(_, timed, _) => !timed
    case RRegister(_, timed) => !timed
    case RListed(_, _, timed) => !timed
    case RAsleep(_, _, timed) => !timed
    case RRelock(_, timed, timedOut) => !timed && !timedOut
    case RCheck(_) => false
    case RDrain(_) => false
    case RWakeAll(_, batch) => batch == []
    case _ => true
  }

  predicate ParkedOn(p: RxPc, list: nat) { Parked(p) && p.list == list }

  ghost predicate ListExact(s: State, list: nat)
    requires WellFormed(s) && list < 3
  {
    if ParkedOn(s.rx, list) then forall k :: k in s.lists[list] ==> k == s.rx.key
    else s.lists[list] == []
  }

  /** The receiver's entries, the wake-ups under way to it and those that have arrived. */
  ghost function Permit(s: State, list: nat, key: Key): nat
    requires WellFormed(s) && list < 3
  {
    Occurs(key, s.lists[list]) + Sum(Carries(key), s.tx) + Bit(key in s.ready)
  }

  /** Exactly one permit while the receiver waits, none of its thread's at other times. */
  ghost predicate PermitExact(s: State)
    requires WellFormed(s)
  {
    && (Parked(s.rx) ==> Permit(s, s.rx.list, s.rx.key) == 1 && (s.rx.key == RX_THREAD <==> s.rx.list == SYNC))
    && (!ParkedOn(s.rx, SYNC) ==> !OnItsWay(s, RX_THREAD))
  }

  ghost predicate Exact(s: State)
    requires WellFormed(s)
  {
    ListExact(s, SPIN) && ListExact(s, SYNC) && ListExact(s, ASYNC) && PermitExact(s)
  }

  /** This user runs the final notify_all. */
  function Sweeper(p: TxPc): nat { Bit(p.TNotifyAll? || p.TWakeAll?) }

  ghost predicate OneSweeper(s: State) {
    Sum(Sweeper, s.tx) <= if s.senderCount == 0 then 1 else 0
  }

  /** Once the window has been hit the receiver's entry stays where nobody will look for it. */
  ghost predicate MissedOk(s: State)
    requires WellFormed(s)
  {
    s.h.missed ==>
      && s.senderCount == 0
      && (s.rx.RRegister? || Parked(s.rx))
      && Sum(Sweeping(s.rx.list), s.tx) == 0
      && (Parked(s.rx) ==> s.rx.key in s.lists[s.rx.list])
  }

  /** No notifier is diverted: there is nothing but the receiver's one entry to pop. */
  predicate NeverDiverted(s: State) { Parked(s.rx) ==> s.h.diverted == 0 }

  ghost predicate QuietInv(s: State) {
    LastInv(s) && KeysOld(s) && Untimed(s.rx) && Exact(s) && OneSweeper(s) && MissedOk(s) && NeverDiverted(s)
  }

  // ---- the receiver's steps ----

  lemma QuietRegister(s: State)
    requires QuietInv(s) && s.rx.RRegister?
    ensures WellFormed(RxStepOf(s)) && Exact(RxStepOf(s)) && MissedOk(RxStepOf(s))
  {
    NobodyCarries(s, s.nextKey);
    var s', list := RxStepOf(s), s.rx.list;
    assert s.lists[list] == [] && s'.lists[list] == [s'.rx.key];
  }

  lemma OnlyOccurs(key: Key, list: seq<Key>)
    requires forall k :: k in list ==> k == key
    ensures list != [] ==> Occurs(key, list) > 0
  {
    if list != [] { assert list[0] in list; }
  }

  /** A wake-up arrives: it was the wait's only permit, so its list is empty now. */
  lemma QuietWoken(s: State)
    requires QuietInv(s) && s.rx.RAsleep? && RxCanStep(s)
    ensures WellFormed(RxStepOf(s)) && Exact(RxStepOf(s)) && MissedOk(RxStepOf(s))
  {
    OnlyOccurs(s.rx.key, s.lists[s.rx.list]);
  }

  lemma QuietRxOther(s: State)
    requires QuietInv(s) && RxCanStep(s) && !s.rx.RRegister? && !s.rx.RAsleep?
    ensures WellFormed(RxStepOf(s)) && Exact(RxStepOf(s)) && MissedOk(RxStepOf(s))
  {
    assert RxStepOf(s).tx == s.tx;
  }

  lemma QuietRxStep(s: State)
    requires QuietInv(s) && RxCanStep(s)
    ensures WellFormed(RxStepOf(s)) && Exact(RxStepOf(s)) && MissedOk(RxStepOf(s))
    ensures Untimed(RxStepOf(s).rx) && OneSweeper(RxStepOf(s))
  {
    if s.rx.RRegister? {
      QuietRegister(s);
    } else if s.rx.RAsleep? {
      QuietWoken(s);
    } else {
      QuietRxOther(s);
    }
  }

  lemma QuietRxCall(s: State, a: Action)
    requires QuietInv(s) && Enabled(s, a) && Quiet(a)
    requires a.CallRecv? || a.CallTryRecv? || a.CallDropReceiver? || a.StrayPark?
    ensures WellFormed(Next(s, a)) && Exact(Next(s, a)) && MissedOk(Next(s, a))
    ensures Untimed(Next(s, a).rx) && OneSweeper(Next(s, a))
  {
    assert Next(s, a).tx == s.tx;
  }

  // ---- the senders' steps ----

  /** User i moves permits of the waiting receiver about, and neither makes nor loses any. */
  lemma TxKeepsExact(s: State, s': State, i: nat)
    requires WellFormed(s) && WellFormed(s') && Exact(s) && TxMoved(s, s', i) && s'.rx == s.rx
    requires forall l :: 0 <= l < 3 ==> Shortened(s.lists[l], s'.lists[l])
    requires Parked(s.rx) ==>
      var key, list := s.rx.key, s.rx.list;
      Occurs(key, s'.lists[list]) + Carries(key)(s'.tx[i]) + Bit(key in s'.ready)
      == Occurs(key, s.lists[list]) + Carries(key)(s.tx[i]) + Bit(key in s.ready)
    requires !ParkedOn(s.rx, SYNC) ==>
      && (RX_THREAD in s'.ready ==> RX_THREAD in s.ready)
      && Carries(RX_THREAD)(s'.tx[i]) <= Carries(RX_THREAD)(s.tx[i])
    ensures Exact(s')
  {
    SumUpdate(Carries(RX_THREAD), s.tx, i, s'.tx[i]);
    if Parked(s.rx) { SumUpdate(Carries(s.rx.key), s.tx, i, s'.tx[i]); }
    forall l, k | 0 <= l < 3 && k in s'.lists[l] ensures k in s.lists[l] {
      assert Shortened(s.lists[l], s'.lists[l]);
    }
  }

  /** User i moves and leaves the final notify_all where it was. */
  lemma TxKeepsMissed(s: State, s': State, i: nat)
    requires WellFormed(s) && WellFormed(s') && OneSweeper(s) && MissedOk(s) && TxMoved(s, s', i)
    requires s'.rx == s.rx && s'.senderCount == s.senderCount && s'.h.missed == s.h.missed
    requires Sweeper(s'.tx[i]) <= Sweeper(s.tx[i])
    requires s.h.missed ==> Sweeping(s.rx.list)(s'.tx[i]) <= Sweeping(s.rx.list)(s.tx[i])
    requires s.h.missed && Parked(s.rx) ==> s'.lists[s.rx.list] == s.lists[s.rx.list]
    ensures OneSweeper(s') && MissedOk(s')
  {
    SumUpdate(Sweeper, s.tx, i, s'.tx[i]);
    if s.h.missed { SumUpdate(Sweeping(s.rx.list), s.tx, i, s'.tx[i]); }
  }

  lemma QuietTxPop(s: State, i: nat)
    requires WellFormed(s) && Exact(s) && i < |s.tx| && s.tx[i].TNotify? && s.lists[s.tx[i].list] != []
    ensures WellFormed(TxStepOf(s, i)) && Exact(TxStepOf(s, i))
  {
    var list := s.lists[s.tx[i].list];
    assert list == list[..|list| - 1] + [list[|list| - 1]];
    assert list[|list| - 1] in list;
    TxKeepsExact(s, TxStepOf(s, i), i);
  }

  lemma QuietTxPass(s: State, i: nat)
    requires WellFormed(s) && Exact(s) && i < |s.tx| && s.tx[i].TNotify? && s.lists[s.tx[i].list] == []
    ensures WellFormed(TxStepOf(s, i)) && Exact(TxStepOf(s, i))
  {
    TxKeepsExact(s, TxStepOf(s, i), i);
  }

  lemma QuietTxWake(s: State, i: nat)
    requires QuietInv(s) && i < |s.tx| && s.tx[i].TWake?
    ensures WellFormed(TxStepOf(s, i)) && Exact(TxStepOf(s, i))
  {
    if Parked(s.rx) { SumAtLeast(Carries(s.rx.key), s.tx, i); }
    SumAtLeast(Carries(RX_THREAD), s.tx, i);
    TxKeepsExact(s, TxStepOf(s, i), i);
  }

  lemma QuietTxTake(s: State, i: nat)
    requires WellFormed(s) && Exact(s) && i < |s.tx| && s.tx[i].TNotifyAll?
    ensures WellFormed(TxStepOf(s, i)) && Exact(TxStepOf(s, i))
  {
    var list := s.lists[s.tx[i].list];
    if Parked(s.rx) && s.tx[i].list != s.rx.list { assert list == []; }
    assert !ParkedOn(s.rx, SYNC) ==> RX_THREAD !in list;
    TxKeepsExact(s, TxStepOf(s, i), i);
  }

  lemma QuietTxWakeAll(s: State, i: nat)
    requires QuietInv(s) && i < |s.tx| && s.tx[i].TWakeAll?
    ensures WellFormed(TxStepOf(s, i)) && Exact(TxStepOf(s, i))
  {
    if Parked(s.rx) { SumAtLeast(Carries(s.rx.key), s.tx, i); }
    SumAtLeast(Carries(RX_THREAD), s.tx, i);
    if s.tx[i].batch != [] {
      if Parked(s.rx) { OccursHead(s.rx.key, s.tx[i].batch); }
      OccursHead(RX_THREAD, s.tx[i].batch);
    }
    TxKeepsExact(s, TxStepOf(s, i), i);
  }

  lemma QuietTxOther(s: State, i: nat)
    requires WellFormed(s) && Exact(s) && i < |s.tx| && TxCanStep(s, i)
    requires !s.tx[i].TNotify? && !s.tx[i].TWake? && !s.tx[i].TNotifyAll? && !s.tx[i].TWakeAll?
    ensures WellFormed(TxStepOf(s, i)) && Exact(TxStepOf(s, i))
  {
    TxKeepsExact(s, TxStepOf(s, i), i);
  }

  lemma QuietTxExact(s: State, i: nat)
    requires QuietInv(s) && i < |s.tx| && TxCanStep(s, i)
    ensures WellFormed(TxStepOf(s, i)) && Exact(TxStepOf(s, i))
  {
    var p := s.tx[i];
    if p.TNotify? {
      if s.lists[p.list] != [] { QuietTxPop(s, i); } else { QuietTxPass(s, i); }
    } else if p.TWake? {
      QuietTxWake(s, i);
    } else if p.TNotifyAll? {
      QuietTxTake(s, i);
    } else if p.TWakeAll? {
      QuietTxWakeAll(s, i);
    } else {
      QuietTxOther(s, i);
    }
  }

  /** The final notify_all takes a list.  It is the only one there is, so a receiver about to
      register on that list has nobody left to come. */
  lemma MissedTake(s: State, i: nat)
    requires QuietInv(s) && i < |s.tx| && s.tx[i].TNotifyAll?
    ensures WellFormed(TxStepOf(s, i)) && OneSweeper(TxStepOf(s, i)) && MissedOk(TxStepOf(s, i))
  {
    var s', list := TxStepOf(s, i), s.tx[i].list;
    SumAtLeast(Sweeper, s.tx, i);
    SumUpdate(Sweeper, s.tx, i, s'.tx[i]);
    forall j | 0 <= j < |s.tx| ensures Sweeping(list)(s.tx[j]) <= Sweeper(s.tx[j]) {}
    SumPointwise(Sweeping(list), s.tx, Sweeper, s.tx);
    SumUpdate(Sweeping(list), s.tx, i, s'.tx[i]);
    if s.h.missed {
      SumAtLeast(Sweeping(s.rx.list), s.tx, i);
      SumUpdate(Sweeping(s.rx.list), s.tx, i, s'.tx[i]);
    }
  }

  lemma MissedDrop(s: State, i: nat)
    requires QuietInv(s) && i < |s.tx| && s.tx[i].TDropping?
    ensures WellFormed(TxStepOf(s, i)) && OneSweeper(TxStepOf(s, i)) && MissedOk(TxStepOf(s, i))
  {
    SumAtLeast(Dropping, s.tx, i);
    SumUpdate(Sweeper, s.tx, i, TxStepOf(s, i).tx[i]);
  }

  lemma MissedTxWakeAll(s: State, i: nat)
    requires QuietInv(s) && i < |s.tx| && s.tx[i].TWakeAll?
    ensures WellFormed(TxStepOf(s, i)) && OneSweeper(TxStepOf(s, i)) && MissedOk(TxStepOf(s, i))
  {
    TxKeepsMissed(s, TxStepOf(s, i), i);
  }

  /** While somebody is inside a send or a drop, nothing has been missed. */
  lemma MissedTxOther(s: State, i: nat)
    requires Inv(s) && OneSweeper(s) && MissedOk(s) && i < |s.tx| && TxCanStep(s, i)
    requires !s.tx[i].TNotifyAll? && !s.tx[i].TWakeAll? && !s.tx[i].TDropping?
    ensures WellFormed(TxStepOf(s, i)) && OneSweeper(TxStepOf(s, i)) && MissedOk(TxStepOf(s, i))
  {
    if s.senderCount == 0 { NobodySends(s, i); }
    var s' := TxStepOf(s, i);
    SumUpdate(Sweeper, s.tx, i, s'.tx[i]);
  }

  lemma QuietTxStep(s: State, i: nat)
    requires QuietInv(s) && i < |s.tx| && TxCanStep(s, i)
    ensures WellFormed(TxStepOf(s, i)) && Exact(TxStepOf(s, i))
    ensures OneSweeper(TxStepOf(s, i)) && MissedOk(TxStepOf(s, i))
  {
    QuietTxExact(s, i);
    if s.tx[i].TNotifyAll? {
      MissedTake(s, i);
    } else if s.tx[i].TDropping? {
      MissedDrop(s, i);
    } else if s.tx[i].TWakeAll? {
      MissedTxWakeAll(s, i);
    } else {
      MissedTxOther(s, i);
    }
  }

  lemma QuietTxCall(s: State, a: Action)
    requires QuietInv(s) && Enabled(s, a) && (a.CallSend? || a.CallDrop?)
    ensures WellFormed(Next(s, a)) && Exact(Next(s, a)) && OneSweeper(Next(s, a)) && MissedOk(Next(s, a))
  {
    TxKeepsExact(s, Next(s, a), a.i);
    TxKeepsMissed(s, Next(s, a), a.i);
  }

  lemma QuietClone(s: State, a: Action)
    requires QuietInv(s) && Enabled(s, a) && a.CallClone?
    ensures WellFormed(Next(s, a)) && Exact(Next(s, a)) && OneSweeper(Next(s, a)) && MissedOk(Next(s, a))
  {}

  lemma QuietPopDivertsNobody(s: State, i: nat)
    requires WellFormed(s) && Exact(s) && NeverDiverted(s) && i < |s.tx| && s.tx[i].TNotify?
    ensures NeverDiverted(TxStepOf(s, i))
  {
    var list := s.lists[s.tx[i].list];
    if Parked(s.rx) && list != [] {
      assert list == list[..|list| - 1] + [list[|list| - 1]];
      assert list[|list| - 1] in list;
      OccursIn(s.rx.key, list[..|list| - 1]);
    }
  }

  lemma QuietRxDivertsNobody(s: State, a: Action)
    requires WellFormed(s) && Untimed(s.rx) && NeverDiverted(s) && Enabled(s, a) && Quiet(a)
    requires !a.TxStep? && !a.CallSend? && !a.CallDrop? && !a.CallClone?
    ensures NeverDiverted(Next(s, a))
  {}

  lemma QuietTxDivertsNobody(s: State, a: Action)
    requires WellFormed(s) && NeverDiverted(s) && Enabled(s, a)
    requires (a.TxStep? && !s.tx[a.i].TNotify?) || a.CallSend? || a.CallDrop? || a.CallClone?
    ensures NeverDiverted(Next(s, a))
  {}

  lemma QuietDivertsNobody(s: State, a: Action)
    requires QuietInv(s) && Enabled(s, a) && Quiet(a)
    ensures NeverDiverted(Next(s, a))
  {
    if a.TxStep? && s.tx[a.i].TNotify? {
      QuietPopDivertsNobody(s, a.i);
    } else if a.TxStep? || a.CallSend? || a.CallDrop? || a.CallClone? {
      QuietTxDivertsNobody(s, a);
    } else {
      QuietRxDivertsNobody(s, a);
    }
  }

  lemma QuietNext(s: State, a: Action)
    requires QuietInv(s) && Enabled(s, a) && Quiet(a)
    ensures QuietInv(Next(s, a))
  {
    LastNext(s, a);
    KeysOldNext(s, a);
    QuietDivertsNobody(s, a);
    if a.TxStep? || a.CallSend? || a.CallDrop? || a.CallClone? { TxLeavesRx(s, a); }
    if a.TxStep? {
      QuietTxStep(s, a.i);
    } else if a.CallClone? {
      QuietClone(s, a);
    } else if a.RxStep? {
      QuietRxStep(s);
    } else if a.CallSend? || a.CallDrop? {
      QuietTxCall(s, a);
    } else if a.CallRecv? || a.CallTryRecv? || a.CallDropReceiver? || a.StrayPark? {
      QuietRxCall(s, a);
    }
  }

  lemma {:induction false} QuietRun(s: State, schedule: seq<Action>)
    requires QuietInv(s) && AllQuiet(schedule) && Run(s, schedule).Some?
    ensures QuietInv(Run(s, schedule).value)
    decreases |schedule|
  {
    if schedule != [] {
      assert Quiet(schedule[0]);
      QuietNext(s, schedule[0]);
      QuietRun(Next(s, schedule[0]), schedule[1..]);
    }
  }

  lemma InitQuiet(users: nat)
    ensures QuietInv(Init(users))
  {
    InitInv(users);
    SumZero(Sweeper, Init(users).tx);
    SumZero(Carries(RX_THREAD), Init(users).tx);
  }

  ghost predicate QuietReachable(s: State) {
    exists users: nat, schedule :: AllQuiet(schedule) && Run(Init(users), schedule) == Some(s)
  }

  lemma QuietReachableInv(s: State)
    requires QuietReachable(s)
    ensures QuietInv(s)
  {
    var users: nat, schedule :| AllQuiet(schedule) && Run(Init(users), schedule) == Some(s);
    InitQuiet(users);
    QuietRun(Init(users), schedule);
  }

  lemma MissedStays(s: State, a: Action)
    requires QuietInv(s) && s.h.missed && s.rx.RAsleep? && Enabled(s, a) && Quiet(a)
    ensures Next(s, a).h.missed && Next(s, a).rx == s.rx
  {
    OccursIn(s.rx.key, s.lists[s.rx.list]);
  }
}
