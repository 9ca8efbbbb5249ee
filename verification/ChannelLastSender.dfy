/** The end of the last Sender: in every run of any mix of recv variants, a receiver asleep on a
    channel without Senders has its wake-up pending, or the final notify_all missed it in the one
    window recorded in History.missed. */
module ChannelLastSender {
  import opened Parking
  import opened Sums
  import opened ChannelModel
  import opened ChannelOrder

  /** This user has taken `key` off a list and has yet to wake it. */
  function Carries(key: Key): TxPc -> nat {
    (p: TxPc) => if p.TWake? then Bit(p.key == key) else if p.TWakeAll? then Occurs(key, p.batch) else 0
  }

  /** This user dropped the last Sender and its notify_all has yet to take the list. */
  function Sweeping(list: nat): TxPc -> nat {
    (p: TxPc) => Bit((p.TNotifyAll? && p.list <= list) || (p.TWakeAll? && p.list < list))
  }

  predicate Parked(p: RxPc) { p.RListed? || p.RAsleep? }

  /** The token or continuation is set, or somebody is about to set it. */
  ghost predicate OnItsWay(s: State, key: Key) {
    key in s.ready || Sum(Carries(key), s.tx) > 0
  }

  /** A registered receiver is woken, about to be woken, or still listed. */
  ghost predicate Found(s: State)
    requires WellFormed(s)
  {
    Parked(s.rx) ==> OnItsWay(s, s.rx.key) || s.rx.key in s.lists[s.rx.list]
  }

  /** With no Sender left, the final notify_all is still to come to every list that holds somebody
      or is about to: unless it missed the receiver. */
  ghost predicate SweptLater(s: State, list: nat)
    requires WellFormed(s) && list < 3
  {
    && (s.senderCount == 0 && !s.h.missed)
    && (s.lists[list] != [] || (s.rx.RRegister? && s.rx.list == list))
    ==> Sum(Sweeping(list), s.tx) > 0
  }

  ghost predicate LastOk(s: State)
    requires WellFormed(s)
  {
    Found(s) && SweptLater(s, SPIN) && SweptLater(s, SYNC) && SweptLater(s, ASYNC)
  }

  ghost predicate LastInv(s: State) { Inv(s) && LastOk(s) }

  /** The senders stand still and no list grows, except the one the receiver registers on. */
  lemma RxKeepsSweep(s: State, s': State, list: nat)
    requires Inv(s) && WellFormed(s') && list < 3 && SweptLater(s, list)
    requires s'.tx == s.tx && s'.senderCount == s.senderCount && s'.h.missed == s.h.missed
    requires s'.rx.RRegister? && s'.rx.list == list ==> s.senderCount > 0 || s'.rx == s.rx
    requires s'.lists[list] != [] ==> s.lists[list] != [] || (s.rx.RRegister? && s.rx.list == list)
    ensures SweptLater(s', list)
  {}

  lemma RxStepKeepsFound(s: State)
    requires Inv(s) && Found(s) && RxCanStep(s)
    ensures Found(RxStepOf(s))
  {}

  lemma RxStepSweep(s: State, list: nat)
    requires WellFormed(s) && RxCanStep(s) && list < 3 && SweptLater(s, list)
    ensures WellFormed(RxStepOf(s)) && SweptLater(RxStepOf(s), list)
  {
    assert RxStepOf(s).tx == s.tx;
  }

  lemma LastRxStep(s: State)
    requires LastInv(s) && RxCanStep(s)
    ensures WellFormed(RxStepOf(s)) && LastOk(RxStepOf(s))
  {
    RxStepKeepsFound(s);
    RxStepSweep(s, SPIN);
    RxStepSweep(s, SYNC);
    RxStepSweep(s, ASYNC);
  }

  lemma LastRxCall(s: State, a: Action)
    requires LastInv(s) && Enabled(s, a)
    requires a.CallRecv? || a.CallTryRecv? || a.CallDropReceiver? || a.RxSpurious? || a.StrayToken? || a.StrayPark?
    ensures WellFormed(Next(s, a)) && LastOk(Next(s, a))
  {
    var s' := Next(s, a);
    RxKeepsSweep(s, s', SPIN);
    RxKeepsSweep(s, s', SYNC);
    RxKeepsSweep(s, s', ASYNC);
  }

  lemma LastRxExpire(s: State)
    requires LastInv(s) && Enabled(s, RxExpire)
    ensures WellFormed(Next(s, RxExpire)) && LastOk(Next(s, RxExpire))
  {
    var s' := Next(s, RxExpire);
    RxKeepsSweep(s, s', SPIN);
    RxKeepsSweep(s, s', SYNC);
    RxKeepsSweep(s, s', ASYNC);
  }

  /** User i moves on and comes to take no list later than before. */
  lemma TxKeepsSweep(s: State, s': State, i: nat, list: nat)
    requires WellFormed(s) && WellFormed(s') && list < 3 && SweptLater(s, list) && TxMoved(s, s', i)
    requires s'.rx == s.rx && (s'.h.missed || !s.h.missed)
    requires s'.senderCount > 0 || s.senderCount == 0 || Sweeping(list)(s'.tx[i]) == 1
    requires s'.lists[list] != [] ==> s.lists[list] != []
    requires Sweeping(list)(s'.tx[i]) >= Sweeping(list)(s.tx[i])
      || (s'.lists[list] == [] && (s.rx.RRegister? && s.rx.list == list ==> s'.h.missed))
    ensures SweptLater(s', list)
  {
    SumUpdate(Sweeping(list), s.tx, i, s'.tx[i]);
    SumAtLeast(Sweeping(list), s'.tx, i);
  }

  /** What user i takes off the receiver's list it carries, and what it stops carrying it has set. */
  lemma TxKeepsFound(s: State, s': State, i: nat)
    requires WellFormed(s) && WellFormed(s') && Found(s) && TxMoved(s, s', i)
    requires s'.rx == s.rx
    requires Parked(s.rx) ==>
      var key := s.rx.key;
      && (key in s.ready ==> key in s'.ready)
      && (key in s.lists[s.rx.list] ==> key in s'.lists[s.rx.list] || Carries(key)(s'.tx[i]) > 0)
      && (Carries(key)(s'.tx[i]) >= Carries(key)(s.tx[i]) || key in s'.ready)
    ensures Found(s')
  {
    if Parked(s.rx) {
      SumUpdate(Carries(s.rx.key), s.tx, i, s'.tx[i]);
      SumAtLeast(Carries(s.rx.key), s'.tx, i);
    }
  }

  lemma LastTxDrop(s: State, i: nat)
    requires LastInv(s) && i < |s.tx| && s.tx[i].TDropping?
    ensures WellFormed(TxStepOf(s, i)) && LastOk(TxStepOf(s, i))
  {
    SumAtLeast(Dropping, s.tx, i);
    var s' := TxStepOf(s, i);
    TxKeepsFound(s, s', i);
    TxKeepsSweep(s, s', i, SPIN);
    TxKeepsSweep(s, s', i, SYNC);
    TxKeepsSweep(s, s', i, ASYNC);
  }

  lemma LastTxTake(s: State, i: nat)
    requires LastInv(s) && i < |s.tx| && s.tx[i].TNotifyAll?
    ensures WellFormed(TxStepOf(s, i)) && LastOk(TxStepOf(s, i))
  {
    var s' := TxStepOf(s, i);
    TxKeepsFound(s, s', i);
    TxKeepsSweep(s, s', i, SPIN);
    TxKeepsSweep(s, s', i, SYNC);
    TxKeepsSweep(s, s', i, ASYNC);
  }

  lemma LastTxWakeAll(s: State, i: nat)
    requires LastInv(s) && i < |s.tx| && s.tx[i].TWakeAll?
    ensures WellFormed(TxStepOf(s, i)) && LastOk(TxStepOf(s, i))
  {
    var s' := TxStepOf(s, i);
    if s.tx[i].batch != [] && Parked(s.rx) { OccursHead(s.rx.key, s.tx[i].batch); }
    TxKeepsFound(s, s', i);
    TxKeepsSweep(s, s', i, SPIN);
    TxKeepsSweep(s, s', i, SYNC);
    TxKeepsSweep(s, s', i, ASYNC);
  }

  lemma LastTxPass(s: State, i: nat)
    requires LastInv(s) && i < |s.tx| && s.tx[i].TNotify? && s.lists[s.tx[i].list] == []
    ensures WellFormed(TxStepOf(s, i)) && LastOk(TxStepOf(s, i))
  {
    var s' := TxStepOf(s, i);
    TxKeepsFound(s, s', i);
    TxKeepsSweep(s, s', i, SPIN);
    TxKeepsSweep(s, s', i, SYNC);
    TxKeepsSweep(s, s', i, ASYNC);
  }

  lemma LastTxPop(s: State, i: nat)
    requires LastInv(s) && i < |s.tx| && s.tx[i].TNotify? && s.lists[s.tx[i].list] != []
    ensures WellFormed(TxStepOf(s, i)) && LastOk(TxStepOf(s, i))
  {
    var s', list := TxStepOf(s, i), s.lists[s.tx[i].list];
    assert list == list[..|list| - 1] + [list[|list| - 1]];
    TxKeepsFound(s, s', i);
    TxKeepsSweep(s, s', i, SPIN);
    TxKeepsSweep(s, s', i, SYNC);
    TxKeepsSweep(s, s', i, ASYNC);
  }

  lemma LastTxSent(s: State, i: nat)
    requires LastInv(s) && i < |s.tx| && (s.tx[i].TPush? || s.tx[i].TRelease? || s.tx[i].TWake?)
    ensures WellFormed(TxStepOf(s, i)) && LastOk(TxStepOf(s, i))
  {
    var s' := TxStepOf(s, i);
    TxKeepsFound(s, s', i);
    TxKeepsSweep(s, s', i, SPIN);
    TxKeepsSweep(s, s', i, SYNC);
    TxKeepsSweep(s, s', i, ASYNC);
  }

  lemma LastTxOther(s: State, i: nat)
    requires LastInv(s) && i < |s.tx| && TxCanStep(s, i)
    requires s.tx[i].TCheck? || s.tx[i].TLock? || s.tx[i].TRecheck? || s.tx[i].TAbort?
    ensures WellFormed(TxStepOf(s, i)) && LastOk(TxStepOf(s, i))
  {
    var s' := TxStepOf(s, i);
    TxKeepsFound(s, s', i);
    TxKeepsSweep(s, s', i, SPIN);
    TxKeepsSweep(s, s', i, SYNC);
    TxKeepsSweep(s, s', i, ASYNC);
  }

  lemma LastTxCall(s: State, a: Action)
    requires LastInv(s) && Enabled(s, a) && (a.CallSend? || a.CallDrop?)
    ensures WellFormed(Next(s, a)) && LastOk(Next(s, a))
  {
    var s' := Next(s, a);
    TxKeepsFound(s, s', a.i);
    TxKeepsSweep(s, s', a.i, SPIN);
    TxKeepsSweep(s, s', a.i, SYNC);
    TxKeepsSweep(s, s', a.i, ASYNC);
  }

  lemma LastTxClone(s: State, a: Action)
    requires LastInv(s) && Enabled(s, a) && a.CallClone?
    ensures WellFormed(Next(s, a)) && LastOk(Next(s, a))
  {
  }

  lemma LastNext(s: State, a: Action)
    requires LastInv(s) && Enabled(s, a)
    ensures LastInv(Next(s, a))
  {
    InvNext(s, a);
    if a.TxStep? {
      var p := s.tx[a.i];
      if p.TDropping? {
        LastTxDrop(s, a.i);
      } else if p.TNotifyAll? {
        LastTxTake(s, a.i);
      } else if p.TWakeAll? {
        LastTxWakeAll(s, a.i);
      } else if p.TNotify? {
        if s.lists[p.list] != [] { LastTxPop(s, a.i); } else { LastTxPass(s, a.i); }
      } else if p.TPush? || p.TRelease? || p.TWake? {
        LastTxSent(s, a.i);
      } else {
        LastTxOther(s, a.i);
      }
    } else if a.RxStep? {
      LastRxStep(s);
    } else if a.RxExpire? {
      LastRxExpire(s);
    } else if a.CallSend? || a.CallDrop? {
      LastTxCall(s, a);
    } else if a.CallClone? {
      LastTxClone(s, a);
    } else {
      LastRxCall(s, a);
    }
  }

  lemma {:induction false} LastRun(s: State, schedule: seq<Action>)
    requires LastInv(s) && Run(s, schedule).Some?
    ensures LastInv(Run(s, schedule).value)
    decreases |schedule|
  {
    if schedule != [] {
      LastNext(s, schedule[0]);
      LastRun(Next(s, schedule[0]), schedule[1..]);
    }
  }

  /** Somebody's next moves wake `key`: it is set, or in a batch taken and not yet woken, or still
      listed while the final notify_all has that list ahead of it. */
  ghost predicate WakePending(s: State, list: nat, key: Key)
    requires WellFormed(s) && list < 3
  {
    || key in s.ready
    || (exists i :: 0 <= i < |s.tx| && Carries(key)(s.tx[i]) > 0)
    || (key in s.lists[list] && exists i :: 0 <= i < |s.tx| && Sweeping(list)(s.tx[i]) > 0)
  }

  lemma PendingSums(s: State, list: nat, key: Key)
    requires WellFormed(s) && list < 3
    ensures WakePending(s, list, key)
      <==> OnItsWay(s, key) || (key in s.lists[list] && Sum(Sweeping(list), s.tx) > 0)
  {
    if Sum(Carries(key), s.tx) > 0 { var i := SumWitness(Carries(key), s.tx); }
    if Sum(Sweeping(list), s.tx) > 0 { var i := SumWitness(Sweeping(list), s.tx); }
    if i :| 0 <= i < |s.tx| && Carries(key)(s.tx[i]) > 0 { SumAtLeast(Carries(key), s.tx, i); }
    if i :| 0 <= i < |s.tx| && Sweeping(list)(s.tx[i]) > 0 { SumAtLeast(Sweeping(list), s.tx, i); }
  }
}
