/** What the channel delivers: first in first out, nothing lost or invented, and `Disconnected` only
    when everything has been received and nothing can follow. */
module ChannelOrder {
  import opened Parking
  import opened Sums
  import opened ChannelModel

  function Values(sent: seq<Sent>): seq<Value> {
    if sent == [] then [] else Values(sent[..|sent| - 1]) + [sent[|sent| - 1].value]
  }

  /** The values one user pushed, in order. */
  function By(i: nat, sent: seq<Sent>): seq<Value> {
    if sent == [] then []
    else
      var last := sent[|sent| - 1];
      By(i, sent[..|sent| - 1]) + if last.author == i then [last.value] else []
  }

  /** The value the receiver has popped and is about to return. */
  function InHand(p: RxPc): seq<Value> {
    if p.RGot? then [p.value] else []
  }

  /** The value a user has pushed in a send that has not returned yet. */
  function Pushed(p: TxPc): seq<Value> {
    if p.TRelease? || p.TNotify? || p.TWake? then [p.value] else []
  }

  predicate TxHolds(p: TxPc) { p.TRecheck? || p.TAbort? || p.TPush? || p.TRelease? }

  predicate RxHolds(p: RxPc) {
    p.RPop? || p.RGot? || p.RCount? || p.RFail? || p.RRegister? || p.RListed?
  }

  function Dropping(p: TxPc): nat { Bit(p.TDropping?) }

  ghost predicate TxOk(s: State, i: nat)
    requires i < |s.tx| == |s.h.oks|
  {
    var p := s.tx[i];
    && (TxHolds(p) ==> s.holder == Some(Tx(i)))
    && (forall sender :: Borrows(p, sender) ==> sender in s.senders)
    && By(i, s.h.pushed) == s.h.oks[i] + Pushed(p)
  }

  predicate RxOk(s: State) {
    && (RxHolds(s.rx) ==> s.holder == Some(Rx))
    && (s.rx.RCount? || s.rx.RRegister? ==> s.queue == [])
    && (s.rx == RFail(true) ==> s.h.disconnected)
  }

  ghost predicate Inv(s: State) {
    && WellFormed(s)
    && (forall i :: 0 <= i < |s.tx| ==> TxOk(s, i))
    && RxOk(s)
    && Values(s.h.pushed) == s.h.received + InHand(s.rx) + s.queue
    // sender_count counts the Senders that exist, those being dropped included
    && s.senderCount == |s.senders| + Sum(Dropping, s.tx)
    && (forall sender :: sender in s.senders ==> sender < s.nextSender)
    && (s.h.disconnected ==> s.senderCount == 0 && s.queue == [] && !s.rx.RGot?)
  }

  ghost predicate TxMoved(s: State, s': State, i: nat) {
    i < |s.tx| == |s'.tx| && s'.tx == s.tx[i := s'.tx[i]]
  }

  // ---- the receiver's steps ----

  /** A move of the receiver that leaves the queue, the count and the records alone. */
  lemma RxQuiet(s: State, s': State)
    requires Inv(s) && WellFormed(s') && RxOk(s')
    requires s'.tx == s.tx && s'.queue == s.queue && s'.senderCount == s.senderCount
    requires s'.senders == s.senders && s'.nextSender == s.nextSender
    requires s'.h == s.h.(ahead := s'.h.ahead, diverted := s'.h.diverted) && InHand(s'.rx) == InHand(s.rx) == []
    requires s'.holder == s.holder || s.holder == None || s.holder == Some(Rx)
    ensures Inv(s')
  {
    forall i | 0 <= i < |s.tx| ensures TxOk(s', i) { assert TxOk(s, i); }
    assert s'.rx.RGot? ==> InHand(s'.rx) != [];
  }

  lemma RxPopStep(s: State)
    requires Inv(s) && s.rx.RPop?
    ensures Inv(RxStepOf(s))
  {
    var s' := RxStepOf(s);
    forall i | 0 <= i < |s.tx| ensures TxOk(s', i) { assert TxOk(s, i); }
    if s.queue != [] { assert s.queue == [s.queue[0]] + s.queue[1..]; }
  }

  lemma RxReturnStep(s: State)
    requires Inv(s) && s.rx.RGot?
    ensures Inv(RxStepOf(s))
  {
    var s' := RxStepOf(s);
    forall i | 0 <= i < |s.tx| ensures TxOk(s', i) { assert TxOk(s, i); }
  }

  /** Disconnected is found under the queue's mutex with an empty queue. */
  lemma RxCountStep(s: State)
    requires Inv(s) && s.rx.RCount?
    ensures Inv(RxStepOf(s))
    ensures s.holder == Some(Rx) && s.queue == []
    ensures RxStepOf(s).rx == RFail(true) <==> s.senderCount == 0
  {
    var s' := RxStepOf(s);
    forall i | 0 <= i < |s.tx| ensures TxOk(s', i) { assert TxOk(s, i); }
  }

  lemma RxWaitStep(s: State)
    requires Inv(s) && RxCanStep(s)
    requires s.rx.RRegister? || s.rx.RListed? || s.rx.RAsleep? || s.rx.RCheck? || s.rx.RDrain?
    ensures Inv(RxStepOf(s))
  {
    RxQuiet(s, RxStepOf(s));
  }

  lemma RxQuietStep(s: State)
    requires Inv(s) && RxCanStep(s)
    requires s.rx.RLock? || s.rx.RRelock? || s.rx.RFail? || s.rx.RNotifyAll? || s.rx.RWakeAll?
    ensures Inv(RxStepOf(s))
  {
    RxQuiet(s, RxStepOf(s));
  }

  lemma RxCall(s: State, a: Action)
    requires Inv(s) && Enabled(s, a)
    requires a.CallRecv? || a.CallTryRecv? || a.CallDropReceiver? || a.RxSpurious? || a.StrayToken? || a.StrayPark?
    ensures Inv(Next(s, a))
  {
    var s' := Next(s, a);
    if a.StrayToken? || a.StrayPark? {
      forall i | 0 <= i < |s.tx| ensures TxOk(s', i) { assert TxOk(s, i); }
    } else {
      RxQuiet(s, s');
    }
  }

  lemma RxExpires(s: State)
    requires Inv(s) && Enabled(s, RxExpire)
    ensures Inv(Next(s, RxExpire))
  {
    RxQuiet(s, Next(s, RxExpire));
  }

  // ---- the senders' steps ----

  /** A move of user i that pushes nothing and returns from no send with Ok. */
  lemma TxQuiet(s: State, s': State, i: nat)
    requires Inv(s) && WellFormed(s') && TxMoved(s, s', i) && TxOk(s', i)
    requires s'.rx == s.rx && s'.queue == s.queue && s'.senders == s.senders && s'.nextSender == s.nextSender
    requires s'.senderCount == s.senderCount && Dropping(s'.tx[i]) == Dropping(s.tx[i])
    requires s'.h == s.h.(missed := s'.h.missed, diverted := s'.h.diverted)
    requires s'.holder == s.holder || s.holder == None || s.holder == Some(Tx(i))
    ensures Inv(s')
  {
    SumUpdate(Dropping, s.tx, i, s'.tx[i]);
    forall j | 0 <= j < |s.tx| ensures TxOk(s', j) {
      if j != i { assert TxOk(s, j) && s'.tx[j] == s.tx[j]; }
    }
  }

  lemma TxQuietStep(s: State, i: nat)
    requires Inv(s) && i < |s.tx| && TxCanStep(s, i)
    requires var p := s.tx[i]; p.TCheck? || p.TLock? || p.TRecheck? || p.TAbort? || p.TRelease?
    ensures Inv(TxStepOf(s, i))
  {
    assert TxOk(s, i);
    TxQuiet(s, TxStepOf(s, i), i);
  }

  lemma TxSweepStep(s: State, i: nat)
    requires Inv(s) && i < |s.tx| && (s.tx[i].TNotifyAll? || s.tx[i].TWakeAll?)
    ensures Inv(TxStepOf(s, i))
  {
    assert TxOk(s, i);
    TxQuiet(s, TxStepOf(s, i), i);
  }

  /** A push while the receiver cannot be looking: the pusher holds the queue's mutex, and its own
      Sender keeps the count above zero. */
  lemma TxPushStep(s: State, i: nat)
    requires Inv(s) && i < |s.tx| && s.tx[i].TPush?
    ensures Inv(TxStepOf(s, i))
    ensures s.holder == Some(Tx(i)) && s.senderCount > 0
  {
    var s', v := TxStepOf(s, i), s.tx[i].value;
    assert TxOk(s, i) && Borrows(s.tx[i], s.tx[i].h);
    SumUpdate(Dropping, s.tx, i, s'.tx[i]);
    assert s'.h.pushed[..|s.h.pushed|] == s.h.pushed;
    forall j | 0 <= j < |s.tx| ensures TxOk(s', j) {
      assert TxOk(s, j);
      if j != i { assert s'.tx[j] == s.tx[j]; }
    }
  }

  /** The end of a send: its value moves from "pushed" to "returned Ok". */
  lemma TxSendOk(s: State, s': State, i: nat)
    requires Inv(s) && WellFormed(s') && i < |s.tx|
    requires (s.tx[i].TNotify? || s.tx[i].TWake?)
    requires s' == SendOk(s.(ready := s'.ready), i, s.tx[i].value)
    ensures Inv(s')
  {
    SumUpdate(Dropping, s.tx, i, s'.tx[i]);
    assert TxOk(s, i);
    forall j | 0 <= j < |s.tx| ensures TxOk(s', j) {
      assert TxOk(s, j);
      if j != i { assert s'.tx[j] == s.tx[j]; }
    }
  }

  lemma TxNotifyStep(s: State, i: nat)
    requires Inv(s) && i < |s.tx| && s.tx[i].TNotify?
    ensures Inv(TxStepOf(s, i))
  {
    var s', p := TxStepOf(s, i), s.tx[i];
    if s.lists[p.list] == [] && p.list == ASYNC {
      TxSendOk(s, s', i);
    } else {
      assert TxOk(s, i);
      assert Borrows(s'.tx[i], p.h);
      TxQuiet(s, s', i);
    }
  }

  lemma TxDropStep(s: State, i: nat)
    requires Inv(s) && i < |s.tx| && s.tx[i].TDropping?
    ensures Inv(TxStepOf(s, i))
  {
    var s' := TxStepOf(s, i);
    SumAtLeast(Dropping, s.tx, i);
    SumUpdate(Dropping, s.tx, i, s'.tx[i]);
    assert TxOk(s, i);
    forall j | 0 <= j < |s.tx| ensures TxOk(s', j) {
      assert TxOk(s, j);
      if j != i { assert s'.tx[j] == s.tx[j]; }
    }
  }

  lemma TxCallDrop(s: State, i: nat, sender: nat)
    requires Inv(s) && Enabled(s, CallDrop(i, sender))
    ensures Inv(Next(s, CallDrop(i, sender)))
  {
    var s' := Next(s, CallDrop(i, sender));
    SumUpdate(Dropping, s.tx, i, s'.tx[i]);
    assert |s.senders| == |s'.senders| + 1;
    forall j | 0 <= j < |s.tx| ensures TxOk(s', j) {
      assert TxOk(s, j) && !Borrows(s.tx[j], sender);
      if j != i { assert s'.tx[j] == s.tx[j]; }
    }
  }

  lemma TxCallClone(s: State, i: nat, sender: nat)
    requires Inv(s) && Enabled(s, CallClone(i, sender))
    ensures Inv(Next(s, CallClone(i, sender)))
  {
    var s' := Next(s, CallClone(i, sender));
    forall j | 0 <= j < |s.tx| ensures TxOk(s', j) { assert TxOk(s, j); }
  }

  lemma TxCallSend(s: State, i: nat, sender: nat, v: Value)
    requires Inv(s) && Enabled(s, CallSend(i, sender, v))
    ensures Inv(Next(s, CallSend(i, sender, v)))
  {
    assert TxOk(s, i);
    TxQuiet(s, Next(s, CallSend(i, sender, v)), i);
  }

  lemma TxInv(s: State, i: nat)
    requires Inv(s) && i < |s.tx| && TxCanStep(s, i)
    ensures Inv(TxStepOf(s, i))
  {
    var p := s.tx[i];
    if p.TPush? {
      TxPushStep(s, i);
    } else if p.TNotify? {
      TxNotifyStep(s, i);
    } else if p.TWake? {
      TxSendOk(s, TxStepOf(s, i), i);
    } else if p.TDropping? {
      TxDropStep(s, i);
    } else if p.TNotifyAll? || p.TWakeAll? {
      TxSweepStep(s, i);
    } else {
      TxQuietStep(s, i);
    }
  }

  lemma RxInv(s: State)
    requires Inv(s) && RxCanStep(s)
    ensures Inv(RxStepOf(s))
  {
    if s.rx.RPop? {
      RxPopStep(s);
    } else if s.rx.RGot? {
      RxReturnStep(s);
    } else if s.rx.RCount? {
      RxCountStep(s);
    } else if s.rx.RLock? || s.rx.RRelock? || s.rx.RFail? || s.rx.RNotifyAll? || s.rx.RWakeAll? {
      RxQuietStep(s);
    } else {
      RxWaitStep(s);
    }
  }

  lemma InvNext(s: State, a: Action)
    requires Inv(s) && Enabled(s, a)
    ensures Inv(Next(s, a))
  {
    match a
    case CallSend(i, sender, v) => TxCallSend(s, i, sender, v);
    case CallClone(i, sender) => TxCallClone(s, i, sender);
    case CallDrop(i, sender) => TxCallDrop(s, i, sender);
    case TxStep(i) => TxInv(s, i);
    case RxStep => RxInv(s);
    case RxExpire => RxExpires(s);
    case CallRecv(_, _) => RxCall(s, a);
    case CallTryRecv => RxCall(s, a);
    case CallDropReceiver => RxCall(s, a);
    case RxSpurious => RxCall(s, a);
    case StrayToken => RxCall(s, a);
    case StrayPark => RxCall(s, a);
  }

  lemma InitInv(users: nat)
    ensures Inv(Init(users))
  {
    SumZero(Dropping, Init(users).tx);
  }

  lemma {:induction false} RunInv(s: State, schedule: seq<Action>)
    requires Inv(s) && Run(s, schedule).Some?
    ensures Inv(Run(s, schedule).value)
    decreases |schedule|
  {
    if schedule != [] {
      InvNext(s, schedule[0]);
      RunInv(Next(s, schedule[0]), schedule[1..]);
    }
  }

  ghost predicate Reachable(s: State) {
    exists users: nat, schedule :: Run(Init(users), schedule) == Some(s)
  }

  lemma ReachableInv(s: State)
    requires Reachable(s)
    ensures Inv(s)
  {
    var users: nat, schedule :| Run(Init(users), schedule) == Some(s);
    InitInv(users);
    RunInv(Init(users), schedule);
  }

  // ---- Disconnected ----

  /** With no Sender left nobody is inside a send. */
  lemma NobodySends(s: State, i: nat)
    requires Inv(s) && s.senderCount == 0 && i < |s.tx|
    ensures s.tx[i].TIdle? || s.tx[i].TNotifyAll? || s.tx[i].TWakeAll?
  {
    assert TxOk(s, i);
    SumAtLeast(Dropping, s.tx, i);
    if !s.tx[i].TIdle? && !s.tx[i].TNotifyAll? && !s.tx[i].TWakeAll? && !s.tx[i].TDropping? {
      assert Borrows(s.tx[i], s.tx[i].h);
    }
  }

  lemma DisconnectedStep(s: State, a: Action)
    requires Inv(s) && s.h.disconnected && Enabled(s, a)
    ensures var s' := Next(s, a);
      s'.h.disconnected && s'.h.received == s.h.received && s'.h.pushed == s.h.pushed && s'.h.oks == s.h.oks
  {
    if a.TxStep? { NobodySends(s, a.i); }
  }
}
