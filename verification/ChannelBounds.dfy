/** Runs without spurious wakes end: every call is good for a bounded number of steps. */
module ChannelBounds {
  import opened Parking
  import opened Sums
  import opened ChannelModel
  import opened ChannelOrder
  import opened ChannelLastSender
  import opened ChannelWake
  import opened ChannelMissed

  // The receiver's retry loop could go round for ever only if it were woken for ever.  A wake-up
  // that has arrived is worth one turn of the loop, one under way a little more, and each is paid
  // for by the notify_one or notify_all that popped the receiver's entry.

  const ONE_TURN: nat := 6
  const PER_CALL: nat := 32

  predicate IsStep(a: Action) { a.TxStep? || a.RxStep? }

  /** A call of a send, a recv variant, a clone or a drop, or a park of the receiver's thread elsewhere. */
  function IsCall(a: Action): nat { Bit(!IsStep(a)) }

  function Calls(schedule: seq<Action>): nat { Sum(IsCall, schedule) }

  function RxWork(p: RxPc, ready: set<Key>): nat {
    match p
    case RLock(_, _) => 5
    case RRelock(_, _, _) => 5
    case RPop(_, _, _) => 4
    case RCount(_, _, _) => 3
    case RRegister(_, _) => 2
    case RListed(_, key, _) => 1 + ONE_TURN * Bit(key in ready)
    case RAsleep(_, key, _) => ONE_TURN * Bit(key in ready)
    case RGot(_) => 1
    case RFail(_) => 1
    case RNotifyAll(list) => if list < 3 then 2 * (3 - list) else 0
    case RWakeAll(list, _) => if list < 3 then 2 * (3 - list) - 1 else 0
    case _ => 0
  }

  function TxWork(p: TxPc): nat {
    match p
    case TIdle => 0
    case TCheck(_, _) => 15
    case TLock(_, _) => 14
    case TRecheck(_, _) => 13
    case TAbort(_, _) => 1
    case TPush(_, _) => 12
    case TRelease(_, _) => 11
    case TNotify(_, _, list) => if list < 3 then 10 - list else 0
    case TWake(_, _, _) => ONE_TURN + 1
    case TDropping(_) => 31
    case TNotifyAll(list) => if list < 3 then 10 * (3 - list) else 0
    case TWakeAll(list, batch) => if list < 3 then (ONE_TURN + 1) * |batch| + 1 + 10 * (2 - list) else 0
  }

  function Work(s: State): nat { RxWork(s.rx, s.ready) + Sum(TxWork, s.tx) }

  // ---- who has the queue's mutex ----

  predicate HeldOk(s: State) {
    match s.holder
    case None => true
    case Some(Rx) => RxHolds(s.rx)
    case Some(Tx(i)) => i < |s.tx| && TxHolds(s.tx[i])
  }

  lemma HeldNext(s: State, a: Action)
    requires Inv(s) && HeldOk(s) && Enabled(s, a) && !a.TxStep?
    ensures HeldOk(Next(s, a))
  {}

  lemma HeldTxStep(s: State, i: nat)
    requires Inv(s) && HeldOk(s) && i < |s.tx| && TxCanStep(s, i)
    ensures HeldOk(TxStepOf(s, i))
  {
    assert TxOk(s, i);
  }

  // ---- every step lowers the work left ----

  lemma {:induction false} AllTheSame(list: seq<Key>, key: Key)
    requires forall k :: k in list ==> k == key
    ensures Occurs(key, list) == |list|
  {
    if list != [] {
      OccursHead(key, list);
      assert list[0] in list && forall k :: k in list[1..] ==> k in list;
      AllTheSame(list[1..], key);
    }
  }

  /** At most the receiver's one entry is listed. */
  lemma AtMostOneListed(s: State, list: nat)
    requires WellFormed(s) && Exact(s) && list < 3
    ensures |s.lists[list]| <= 1
  {
    assert ListExact(s, list);
    if ParkedOn(s.rx, list) { AllTheSame(s.lists[list], s.rx.key); }
  }

  /** User i does a piece of work, and pays for the turn of the receiver's loop if it wakes it. */
  lemma TxPays(s: State, s': State, i: nat, wakes: bool)
    requires TxMoved(s, s', i) && s'.rx == s.rx
    requires TxWork(s'.tx[i]) + ONE_TURN * Bit(wakes) < TxWork(s.tx[i])
    requires wakes || s'.ready == s.ready
    ensures Work(s') < Work(s)
  {
    SumUpdate(TxWork, s.tx, i, s'.tx[i]);
  }

  lemma SendLowers(s: State, i: nat)
    requires WellFormed(s) && i < |s.tx| && TxCanStep(s, i)
    requires !s.tx[i].TDropping? && !s.tx[i].TNotifyAll? && !s.tx[i].TWakeAll?
    ensures Work(TxStepOf(s, i)) < Work(s)
  {
    TxPays(s, TxStepOf(s, i), i, s.tx[i].TWake?);
  }

  lemma DropLowers(s: State, i: nat)
    requires WellFormed(s) && i < |s.tx| && (s.tx[i].TDropping? || s.tx[i].TNotifyAll? || s.tx[i].TWakeAll?)
    requires s.tx[i].TNotifyAll? ==> |s.lists[s.tx[i].list]| <= 1
    ensures Work(TxStepOf(s, i)) < Work(s)
  {
    TxPays(s, TxStepOf(s, i), i, s.tx[i].TWakeAll? && s.tx[i].batch != []);
  }

  lemma TxLowers(s: State, i: nat)
    requires WellFormed(s) && Exact(s) && i < |s.tx| && TxCanStep(s, i)
    ensures Work(TxStepOf(s, i)) < Work(s)
  {
    if s.tx[i].TDropping? || s.tx[i].TNotifyAll? || s.tx[i].TWakeAll? {
      if s.tx[i].TNotifyAll? { AtMostOneListed(s, s.tx[i].list); }
      DropLowers(s, i);
    } else {
      SendLowers(s, i);
    }
  }

  lemma RegisterLowers(s: State)
    requires WellFormed(s) && KeysOld(s) && PermitExact(s) && s.rx.RRegister?
    ensures Work(RxStepOf(s)) < Work(s)
  {
    assert RxStepOf(s).rx.key !in s.ready;
  }

  lemma WokenLowers(s: State)
    requires WellFormed(s) && Untimed(s.rx) && s.rx.RAsleep? && RxCanStep(s)
    ensures Work(RxStepOf(s)) < Work(s)
  {}

  lemma RxLowers(s: State)
    requires WellFormed(s) && KeysOld(s) && PermitExact(s) && Untimed(s.rx) && RxCanStep(s)
    ensures Work(RxStepOf(s)) < Work(s)
  {
    if s.rx.RRegister? {
      RegisterLowers(s);
    } else if s.rx.RAsleep? {
      WokenLowers(s);
    } else {
      assert RxStepOf(s).tx == s.tx;
    }
  }

  lemma CallCosts(s: State, a: Action)
    requires QuietInv(s) && Enabled(s, a) && Quiet(a) && !IsStep(a)
    ensures Work(Next(s, a)) < Work(s) + PER_CALL
  {
    if a.CallSend? || a.CallDrop? { SumUpdate(TxWork, s.tx, a.i, Next(s, a).tx[a.i]); }
  }

  lemma {:induction false} RunCosts(s: State, schedule: seq<Action>)
    requires QuietInv(s) && HeldOk(s) && AllQuiet(schedule) && Run(s, schedule).Some?
    ensures |schedule| + Work(Run(s, schedule).value) <= Work(s) + PER_CALL * Calls(schedule)
    ensures HeldOk(Run(s, schedule).value)
    decreases |schedule|
  {
    if schedule != [] {
      var a := schedule[0];
      assert Quiet(a);
      QuietNext(s, a);
      if a.TxStep? {
        TxLowers(s, a.i);
        HeldTxStep(s, a.i);
      } else {
        HeldNext(s, a);
        if a.RxStep? { RxLowers(s); } else { CallCosts(s, a); }
      }
      RunCosts(Next(s, a), schedule[1..]);
    }
  }

  lemma InitCosts(users: nat)
    ensures QuietInv(Init(users)) && HeldOk(Init(users)) && Work(Init(users)) == 0
  {
    InitQuiet(users);
    SumZero(TxWork, Init(users).tx);
  }

  // ---- where a run can stop ----

  /** Nobody inside a call can move. */
  ghost predicate Stopped(s: State) {
    WellFormed(s) && !RxCanStep(s) && forall i :: 0 <= i < |s.tx| ==> !TxCanStep(s, i)
  }

  /** Then nobody has the mutex, so all users are idle and the receiver is idle, gone or asleep. */
  lemma StoppedIsIdle(s: State)
    requires QuietInv(s) && HeldOk(s) && Stopped(s)
    ensures s.holder == None
    ensures forall i :: 0 <= i < |s.tx| ==> s.tx[i].TIdle?
    ensures s.rx.RIdle? || s.rx.RGone? || (s.rx.RAsleep? && s.rx.key !in s.ready)
  {
    assert forall i :: 0 <= i < |s.tx| && TxHolds(s.tx[i]) ==> TxCanStep(s, i);
    forall i | 0 <= i < |s.tx| ensures s.tx[i].TIdle? { assert !TxCanStep(s, i); }
  }

  lemma QuietReachableHeld(s: State)
    requires QuietReachable(s)
    ensures QuietInv(s) && HeldOk(s)
  {
    QuietReachableInv(s);
    var users: nat, schedule :| AllQuiet(schedule) && Run(Init(users), schedule) == Some(s);
    InitCosts(users);
    RunCosts(Init(users), schedule);
  }
}
