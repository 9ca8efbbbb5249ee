/** A receiver and the values in its queue: who is bound to wake it, in every run of any mix of recv
    variants, and exactly when nobody is. */
module ChannelWake {
  import opened Parking
  import opened Sums
  import opened ChannelModel
  import opened ChannelOrder
  import opened ChannelLastSender

  // ---- continuations are new ----

  predicate Old(k: Key, n: nat) { k.Cont? ==> k.c < n }

  ghost predicate OldKeys(list: seq<Key>, n: nat) { forall k :: k in list ==> Old(k, n) }

  ghost predicate OldTx(p: TxPc, n: nat) {
    (p.TWake? ==> Old(p.key, n)) && (p.TWakeAll? ==> OldKeys(p.batch, n))
  }

  /** Every continuation anywhere was created by an earlier registration. */
  ghost predicate KeysOld(s: State)
    requires WellFormed(s)
  {
    && (forall k :: k in s.ready ==> Old(k, s.nextKey))
    && (forall l {:trigger OldKeys(s.lists[l], s.nextKey)} :: 0 <= l < 3 ==> OldKeys(s.lists[l], s.nextKey))
    && (forall i {:trigger OldTx(s.tx[i], s.nextKey)} :: 0 <= i < |s.tx| ==> OldTx(s.tx[i], s.nextKey))
    && (s.rx.RWakeAll? ==> OldKeys(s.rx.batch, s.nextKey))
    && (Parked(s.rx) ==> Old(s.rx.key, s.nextKey))
  }

  lemma KeysOldRx(s: State)
    requires WellFormed(s) && KeysOld(s) && RxCanStep(s)
    ensures KeysOld(RxStepOf(s))
  {
    var s' := RxStepOf(s);
    forall i | 0 <= i < |s.tx| ensures OldTx(s'.tx[i], s'.nextKey) { assert OldTx(s.tx[i], s.nextKey); }
    forall l | 0 <= l < 3 ensures OldKeys(s'.lists[l], s'.nextKey) { assert OldKeys(s.lists[l], s.nextKey); }
  }

  /** What a user's step takes in hand and what it sets comes from a list or from its hands. */
  lemma OldNotify(s: State, i: nat, n: nat)
    requires WellFormed(s) && i < |s.tx| && (s.tx[i].TNotify? || s.tx[i].TNotifyAll?)
    requires OldKeys(s.lists[s.tx[i].list], n)
    ensures var s' := TxStepOf(s, i);
      && WellFormed(s') && TxMoved(s, s', i) && OldTx(s'.tx[i], n)
      && (forall k :: k in s'.ready && k !in s.ready ==> Old(k, n))
      && s'.nextKey == s.nextKey && s'.rx == s.rx
  {
    var list := s.lists[s.tx[i].list];
    if list != [] { assert list[|list| - 1] in list; }
  }

  lemma OldWake(s: State, i: nat, n: nat)
    requires WellFormed(s) && i < |s.tx| && (s.tx[i].TWake? || s.tx[i].TWakeAll?) && OldTx(s.tx[i], n)
    ensures var s' := TxStepOf(s, i);
      && WellFormed(s') && TxMoved(s, s', i) && OldTx(s'.tx[i], n)
      && (forall k :: k in s'.ready && k !in s.ready ==> Old(k, n))
      && s'.nextKey == s.nextKey && s'.rx == s.rx
  {
    var p := s.tx[i];
    if p.TWakeAll? && p.batch != [] {
      assert p.batch[0] in p.batch && forall k :: k in p.batch[1..] ==> k in p.batch;
    }
  }

  lemma OldOther(s: State, i: nat, n: nat)
    requires WellFormed(s) && i < |s.tx| && TxCanStep(s, i)
    requires !s.tx[i].TNotify? && !s.tx[i].TNotifyAll? && !s.tx[i].TWake? && !s.tx[i].TWakeAll?
    ensures var s' := TxStepOf(s, i);
      && WellFormed(s') && TxMoved(s, s', i) && OldTx(s'.tx[i], n)
      && (forall k :: k in s'.ready && k !in s.ready ==> Old(k, n))
      && s'.nextKey == s.nextKey && s'.rx == s.rx
  {}

  lemma OldStep(s: State, i: nat, n: nat)
    requires WellFormed(s) && i < |s.tx| && TxCanStep(s, i) && OldTx(s.tx[i], n)
    requires s.tx[i].TNotify? || s.tx[i].TNotifyAll? ==> OldKeys(s.lists[s.tx[i].list], n)
    ensures var s' := TxStepOf(s, i);
      && WellFormed(s') && TxMoved(s, s', i) && OldTx(s'.tx[i], n)
      && (forall k :: k in s'.ready && k !in s.ready ==> Old(k, n))
      && s'.nextKey == s.nextKey && s'.rx == s.rx
  {
    if s.tx[i].TNotify? || s.tx[i].TNotifyAll? {
      OldNotify(s, i, n);
    } else if s.tx[i].TWake? || s.tx[i].TWakeAll? {
      OldWake(s, i, n);
    } else {
      OldOther(s, i, n);
    }
  }

  lemma OldListsStep(s: State, i: nat, l: nat, n: nat)
    requires WellFormed(s) && i < |s.tx| && TxCanStep(s, i) && l < 3 && OldKeys(s.lists[l], n)
    ensures |TxStepOf(s, i).lists| == 3 && OldKeys(TxStepOf(s, i).lists[l], n)
  {
    var list := s.lists[l];
    if list != [] { assert forall k :: k in list[..|list| - 1] ==> k in list; }
  }

  lemma KeysOldTx(s: State, i: nat)
    requires WellFormed(s) && KeysOld(s) && i < |s.tx| && TxCanStep(s, i)
    ensures WellFormed(TxStepOf(s, i)) && KeysOld(TxStepOf(s, i))
  {
    var s', n := TxStepOf(s, i), s.nextKey;
    assert OldTx(s.tx[i], n);
    if s.tx[i].TNotify? || s.tx[i].TNotifyAll? { assert OldKeys(s.lists[s.tx[i].list], n); }
    OldStep(s, i, n);
    forall j | 0 <= j < |s.tx| ensures OldTx(s'.tx[j], n) {
      if j != i { assert OldTx(s.tx[j], n) && s'.tx[j] == s.tx[j]; }
    }
    forall l | 0 <= l < 3 ensures OldKeys(s'.lists[l], n) {
      assert OldKeys(s.lists[l], n);
      OldListsStep(s, i, l, n);
    }
  }

  lemma KeysOldExpire(s: State)
    requires WellFormed(s) && KeysOld(s) && Enabled(s, RxExpire)
    ensures WellFormed(Next(s, RxExpire)) && KeysOld(Next(s, RxExpire))
  {
    var s' := Next(s, RxExpire);
    assert s'.tx == s.tx && s'.nextKey == s.nextKey;
    forall l | 0 <= l < 3 ensures OldKeys(s'.lists[l], s'.nextKey) { assert OldKeys(s.lists[l], s.nextKey); }
  }

  lemma KeysOldCall(s: State, a: Action)
    requires WellFormed(s) && KeysOld(s) && Enabled(s, a) && !a.TxStep? && !a.RxStep? && !a.RxExpire?
    ensures WellFormed(Next(s, a)) && KeysOld(Next(s, a))
  {
    var s' := Next(s, a);
    assert s'.lists == s.lists && s'.nextKey == s.nextKey;
    forall i | 0 <= i < |s.tx| ensures OldTx(s'.tx[i], s'.nextKey) { assert OldTx(s.tx[i], s.nextKey); }
  }

  lemma KeysOldNext(s: State, a: Action)
    requires WellFormed(s) && KeysOld(s) && Enabled(s, a)
    ensures WellFormed(Next(s, a)) && KeysOld(Next(s, a))
  {
    if a.TxStep? {
      KeysOldTx(s, a.i);
    } else if a.RxStep? {
      KeysOldRx(s);
    } else if a.RxExpire? {
      KeysOldExpire(s);
    } else {
      KeysOldCall(s, a);
    }
  }

  /** Nobody carries a continuation that has yet to be created. */
  lemma NobodyCarries(s: State, c: nat)
    requires WellFormed(s) && KeysOld(s) && c >= s.nextKey
    ensures Sum(Carries(Cont(c)), s.tx) == 0
  {
    forall i | 0 <= i < |s.tx| ensures Carries(Cont(c))(s.tx[i]) == 0 {
      assert OldTx(s.tx[i], s.nextKey);
      if s.tx[i].TWakeAll? { OccursIn(Cont(c), s.tx[i].batch); }
    }
    SumZero(Carries(Cont(c)), s.tx);
  }

  // ---- what the lists hold ----

  /** A list of spinners or of async waiters holds nothing but the present wait, and only until it
      is popped. */
  ghost predicate Fresh(s: State, list: nat)
    requires WellFormed(s) && list < 3
  {
    || s.lists[list] == []
    || (Parked(s.rx) && s.rx.list == list && s.lists[list] == [s.rx.key] && !OnItsWay(s, s.rx.key))
  }

  /** The list of threads may hold stale entries, but only of the receiver's own thread. */
  ghost predicate OwnThread(list: seq<Key>) { forall k :: k in list ==> k == RX_THREAD }

  predicate RxKey(p: RxPc) {
    && (Parked(p) ==> if p.list == SYNC then p.key == RX_THREAD else p.key.Cont?)
    && (p.RCheck? ==> p.key == RX_THREAD)
  }

  ghost predicate ListsOk(s: State)
    requires WellFormed(s)
  {
    Fresh(s, SPIN) && Fresh(s, ASYNC) && OwnThread(s.lists[SYNC]) && RxKey(s.rx)
  }

  // ---- every notifier is accounted for ----

  /** While the receiver's key is on its list, the notifiers that had its list ahead of them when it
      registered, and those of the values pushed since, are still coming or have been diverted. */
  ghost predicate Balanced(s: State)
    requires WellFormed(s)
  {
    Waits(s.rx) && s.rx.key in s.lists[WaitList(s.rx)] ==>
      Sum(Coming(WaitList(s.rx)), s.tx) + s.h.diverted == s.h.ahead + |s.queue|
  }

  ghost predicate WakeOk(s: State)
    requires WellFormed(s)
  {
    KeysOld(s) && ListsOk(s) && Balanced(s)
  }

  ghost predicate WakeInv(s: State) { LastInv(s) && WakeOk(s) }

  // ---- the receiver's steps ----

  /** A registration puts a key that nobody is about to wake on the list: a new continuation, or the
      thread's handle. */
  lemma WakeRegister(s: State)
    requires WakeInv(s) && s.rx.RRegister?
    ensures WellFormed(RxStepOf(s)) && ListsOk(RxStepOf(s)) && Balanced(RxStepOf(s))
  {
    NobodyCarries(s, s.nextKey);
    var s', list := RxStepOf(s), s.rx.list;
    if list != SYNC { assert s'.lists[list] == [s'.rx.key]; }
  }

  /** The end of a sleep: a spinner's or an async waiter's list is empty once its key is set. */
  lemma WakeWoken(s: State)
    requires WakeInv(s) && s.rx.RAsleep? && RxCanStep(s)
    ensures WellFormed(RxStepOf(s)) && ListsOk(RxStepOf(s)) && Balanced(RxStepOf(s))
  {}

  lemma WakeTakeAll(s: State)
    requires WakeInv(s) && s.rx.RNotifyAll?
    ensures WellFormed(RxStepOf(s)) && ListsOk(RxStepOf(s)) && Balanced(RxStepOf(s))
  {}

  lemma WakeRxOther(s: State)
    requires WellFormed(s) && ListsOk(s) && Balanced(s) && RxCanStep(s)
    requires !s.rx.RRegister? && !s.rx.RAsleep? && !s.rx.RNotifyAll?
    ensures WellFormed(RxStepOf(s)) && ListsOk(RxStepOf(s)) && Balanced(RxStepOf(s))
  {}

  lemma WakeRxStep(s: State)
    requires WakeInv(s) && RxCanStep(s)
    ensures WellFormed(RxStepOf(s)) && ListsOk(RxStepOf(s)) && Balanced(RxStepOf(s))
  {
    if s.rx.RRegister? {
      WakeRegister(s);
    } else if s.rx.RAsleep? {
      WakeWoken(s);
    } else if s.rx.RNotifyAll? {
      WakeTakeAll(s);
    } else {
      WakeRxOther(s);
    }
  }

  lemma WakeRxCall(s: State, a: Action)
    requires WakeInv(s) && Enabled(s, a)
    requires a.CallRecv? || a.CallTryRecv? || a.CallDropReceiver? || a.RxSpurious? || a.StrayToken? || a.StrayPark?
    ensures WellFormed(Next(s, a)) && ListsOk(Next(s, a)) && Balanced(Next(s, a))
  {}

  lemma WakeRxExpire(s: State)
    requires WakeInv(s) && Enabled(s, RxExpire)
    ensures WellFormed(Next(s, RxExpire)) && ListsOk(Next(s, RxExpire)) && Balanced(Next(s, RxExpire))
  {
    if s.rx.RAsleep? && s.rx.key in s.lists[s.rx.list] {
      var list, at := s.lists[s.rx.list], Position(s.rx.key, s.lists[s.rx.list]);
      if s.rx.list != SYNC {
        assert list[..at] + list[at + 1..] == [];
      } else {
        OwnRest(list, at);
      }
    }
  }

  lemma OwnRest(list: seq<Key>, at: nat)
    requires at < |list| && OwnThread(list)
    ensures OwnThread(list[..at] + list[at + 1..])
  {
    var rest := list[..at] + list[at + 1..];
    forall k | k in rest ensures k == RX_THREAD {
      var j :| 0 <= j < |rest| && rest[j] == k;
      assert list[if j < at then j else j + 1] in list;
    }
  }

  // ---- the senders' steps ----

  lemma TxLeavesRx(s: State, a: Action)
    requires WellFormed(s) && Enabled(s, a) && (a.TxStep? || a.CallSend? || a.CallDrop? || a.CallClone?)
    ensures Next(s, a).rx == s.rx
  {}

  /** What a notifier leaves of a list. */
  predicate Shortened(list: seq<Key>, rest: seq<Key>) {
    rest == list || rest == [] || (list != [] && rest == list[..|list| - 1])
  }

  /** User i moves, and wakes nobody whose entry is still alone on its list. */
  lemma TxKeepsLists(s: State, s': State, i: nat)
    requires WellFormed(s) && WellFormed(s') && ListsOk(s) && TxMoved(s, s', i) && s'.rx == s.rx
    requires forall l :: 0 <= l < 3 ==> Shortened(s.lists[l], s'.lists[l])
    requires Parked(s.rx) && s.rx.list != SYNC && s'.lists[s.rx.list] != [] ==>
      && (s.rx.key in s'.ready ==> s.rx.key in s.ready)
      && Carries(s.rx.key)(s'.tx[i]) <= Carries(s.rx.key)(s.tx[i])
    ensures ListsOk(s')
  {
    assert Shortened(s.lists[SPIN], s'.lists[SPIN]) && Shortened(s.lists[ASYNC], s'.lists[ASYNC]);
    assert forall k :: k in s'.lists[SYNC] ==> k in s.lists[SYNC];
    if Parked(s.rx) { SumUpdate(Carries(s.rx.key), s.tx, i, s'.tx[i]); }
  }

  /** User i moves, and stops coming only by a diversion or because the receiver's key is gone. */
  lemma TxKeepsBalance(s: State, s': State, i: nat)
    requires WellFormed(s) && WellFormed(s') && Balanced(s) && TxMoved(s, s', i) && s'.rx == s.rx
    requires s'.h.ahead == s.h.ahead
    requires Waits(s.rx) && s.rx.key in s'.lists[WaitList(s.rx)] ==>
      var come := Coming(WaitList(s.rx));
      && s.rx.key in s.lists[WaitList(s.rx)]
      && come(s'.tx[i]) + s'.h.diverted + |s.queue| == come(s.tx[i]) + s.h.diverted + |s'.queue|
    ensures Balanced(s')
  {
    if Waits(s.rx) { SumUpdate(Coming(WaitList(s.rx)), s.tx, i, s'.tx[i]); }
  }

  /** notify_one takes an entry: the receiver's own, or the notifier is diverted. */
  lemma WakePop(s: State, i: nat)
    requires WakeInv(s) && i < |s.tx| && s.tx[i].TNotify? && s.lists[s.tx[i].list] != []
    ensures WellFormed(TxStepOf(s, i)) && ListsOk(TxStepOf(s, i))
  {
    var list := s.lists[s.tx[i].list];
    assert list[|list| - 1] in list;
    TxKeepsLists(s, TxStepOf(s, i), i);
  }

  lemma WakePopBalance(s: State, i: nat)
    requires WellFormed(s) && Balanced(s) && i < |s.tx| && s.tx[i].TNotify? && s.lists[s.tx[i].list] != []
    ensures WellFormed(TxStepOf(s, i)) && Balanced(TxStepOf(s, i))
  {
    var list := s.lists[s.tx[i].list];
    assert forall k :: k in list[..|list| - 1] ==> k in list;
    TxKeepsBalance(s, TxStepOf(s, i), i);
  }

  /** An empty list sends notify_one on; if it was the receiver's, its key is not there. */
  lemma WakePass(s: State, i: nat)
    requires WellFormed(s) && ListsOk(s) && i < |s.tx| && s.tx[i].TNotify? && s.lists[s.tx[i].list] == []
    ensures WellFormed(TxStepOf(s, i)) && ListsOk(TxStepOf(s, i))
  {
    TxKeepsLists(s, TxStepOf(s, i), i);
  }

  lemma WakePassBalance(s: State, i: nat)
    requires WellFormed(s) && Balanced(s) && i < |s.tx| && s.tx[i].TNotify? && s.lists[s.tx[i].list] == []
    ensures WellFormed(TxStepOf(s, i)) && Balanced(TxStepOf(s, i))
  {
    TxKeepsBalance(s, TxStepOf(s, i), i);
  }

  lemma WakeTake(s: State, i: nat)
    requires WakeInv(s) && i < |s.tx| && s.tx[i].TNotifyAll?
    ensures WellFormed(TxStepOf(s, i)) && ListsOk(TxStepOf(s, i)) && Balanced(TxStepOf(s, i))
  {
    if Parked(s.rx) && s.rx.list != SYNC { NotElsewhere(s, s.tx[i].list); }
    TxKeepsLists(s, TxStepOf(s, i), i);
    TxKeepsBalance(s, TxStepOf(s, i), i);
  }

  /** A key that is alone on its list is on no other. */
  lemma NotElsewhere(s: State, list: nat)
    requires WellFormed(s) && ListsOk(s) && list < 3 && Parked(s.rx) && s.rx.list != SYNC
    ensures list != s.rx.list ==> s.rx.key !in s.lists[list]
  {}

  lemma WakeWakeAll(s: State, i: nat)
    requires WakeInv(s) && i < |s.tx| && s.tx[i].TWakeAll?
    ensures WellFormed(TxStepOf(s, i)) && ListsOk(TxStepOf(s, i))
  {
    if s.tx[i].batch != [] && Parked(s.rx) {
      OccursHead(s.rx.key, s.tx[i].batch);
      SumAtLeast(Carries(s.rx.key), s.tx, i);
    }
    TxKeepsLists(s, TxStepOf(s, i), i);
  }

  lemma WakeWakeAllBalance(s: State, i: nat)
    requires WellFormed(s) && Balanced(s) && i < |s.tx| && s.tx[i].TWakeAll?
    ensures WellFormed(TxStepOf(s, i)) && Balanced(TxStepOf(s, i))
  {
    TxKeepsBalance(s, TxStepOf(s, i), i);
  }

  lemma WakeTxOther(s: State, i: nat)
    requires WakeInv(s) && i < |s.tx| && TxCanStep(s, i)
    requires !s.tx[i].TNotifyAll? && !s.tx[i].TWakeAll? && !s.tx[i].TNotify?
    ensures WellFormed(TxStepOf(s, i)) && ListsOk(TxStepOf(s, i))
  {
    if Parked(s.rx) { SumAtLeast(Carries(s.rx.key), s.tx, i); }
    TxKeepsLists(s, TxStepOf(s, i), i);
  }

  /** A push brings a value and a notifier for it. */
  lemma WakeTxOtherBalance(s: State, i: nat)
    requires WellFormed(s) && Balanced(s) && i < |s.tx| && TxCanStep(s, i)
    requires !s.tx[i].TNotifyAll? && !s.tx[i].TWakeAll? && !s.tx[i].TNotify?
    ensures WellFormed(TxStepOf(s, i)) && Balanced(TxStepOf(s, i))
  {
    TxKeepsBalance(s, TxStepOf(s, i), i);
  }

  lemma WakeTxStep(s: State, i: nat)
    requires WakeInv(s) && i < |s.tx| && TxCanStep(s, i)
    ensures WellFormed(TxStepOf(s, i)) && ListsOk(TxStepOf(s, i)) && Balanced(TxStepOf(s, i))
  {
    var p := s.tx[i];
    if p.TNotify? {
      if s.lists[p.list] != [] {
        WakePop(s, i);
        WakePopBalance(s, i);
      } else {
        WakePass(s, i);
        WakePassBalance(s, i);
      }
    } else if p.TNotifyAll? {
      WakeTake(s, i);
    } else if p.TWakeAll? {
      WakeWakeAll(s, i);
      WakeWakeAllBalance(s, i);
    } else {
      WakeTxOther(s, i);
      WakeTxOtherBalance(s, i);
    }
  }

  lemma WakeTxCall(s: State, a: Action)
    requires WakeInv(s) && Enabled(s, a) && (a.CallSend? || a.CallDrop?)
    ensures WellFormed(Next(s, a)) && ListsOk(Next(s, a)) && Balanced(Next(s, a))
  {
    TxKeepsLists(s, Next(s, a), a.i);
    TxKeepsBalance(s, Next(s, a), a.i);
  }

  lemma WakeNext(s: State, a: Action)
    requires WakeInv(s) && Enabled(s, a)
    ensures WakeInv(Next(s, a))
  {
    LastNext(s, a);
    KeysOldNext(s, a);
    if a.TxStep? {
      WakeTxStep(s, a.i);
    } else if a.RxStep? {
      WakeRxStep(s);
    } else if a.RxExpire? {
      WakeRxExpire(s);
    } else if a.CallSend? || a.CallDrop? {
      WakeTxCall(s, a);
    } else if !a.CallClone? {
      WakeRxCall(s, a);
    }
  }

  lemma InitWake(users: nat)
    ensures WakeInv(Init(users))
  {
    InitInv(users);
  }

  lemma {:induction false} WakeRun(s: State, schedule: seq<Action>)
    requires WakeInv(s) && Run(s, schedule).Some?
    ensures WakeInv(Run(s, schedule).value)
    decreases |schedule|
  {
    if schedule != [] {
      WakeNext(s, schedule[0]);
      WakeRun(Next(s, schedule[0]), schedule[1..]);
    }
  }

  lemma ReachableWake(s: State)
    requires Reachable(s)
    ensures WakeInv(s)
  {
    var users: nat, schedule :| Run(Init(users), schedule) == Some(s);
    InitWake(users);
    WakeRun(Init(users), schedule);
  }
}
