/** What each call on the channel comes back with. */
module ChannelCalls {
  import opened Parking
  import opened Traces
  import opened ChannelModel
  import opened ChannelOrder

  // ---- recv variants and try_recv ----

  /** recv_spin, recv_block or recv_async, a timed form, or try_recv. */
  datatype Call = Recv(list: nat, timed: bool) | TryRecv

  function Entry(c: Call): Action {
    if c.TryRecv? then CallTryRecv else CallRecv(c.list, c.timed)
  }

  predicate InCode(p: RxPc) { !p.RIdle? && !Dropped(p) }

  /** Where call c can be, before and after its wait timed out: it waits as it was told to and on the
      list it was made for; try_recv never waits; after a timeout the call does not look at the queue
      again, and it fails other than by Disconnected only then, or as try_recv. */
  predicate During(c: Call, gaveUp: bool, p: RxPc) {
    match p
    case RLock(l, timed) => c == Recv(l, timed) && !gaveUp
    case RPop(l, timed, trying) => (if trying then c == TryRecv else c == Recv(l, timed)) && !gaveUp
    case RGot(_) => !gaveUp
    case RCount(l, timed, trying) => (if trying then c == TryRecv else c == Recv(l, timed)) && !gaveUp
    case RFail(disconnected) => if disconnected then !gaveUp else c == TryRecv || gaveUp
    case RRegister(l, timed) => c == Recv(l, timed) && !gaveUp
    case RListed(l, _, timed) => c == Recv(l, timed) && !gaveUp
    case RAsleep(l, _, timed) => c == Recv(l, timed) && !gaveUp
    case RCheck(_) => c == Recv(SYNC, true) && !gaveUp
    case RDrain(_) => c == Recv(SPIN, true) && !gaveUp
    case RRelock(l, timed, timedOut) => c == Recv(l, timed) && (timedOut <==> gaveUp)
    case _ => false
  }

  /** The call returns from s: with the value popped, with an error found, with a timeout while it still
      waits for the queue's mutex, or at once, as a try_recv that finds the mutex held. */
  predicate Returns(c: Call, s: State, a: Action) {
    || (a == RxStep && (s.rx.RGot? || s.rx.RFail?))
    || (a == RxExpire && s.rx.RLock? && s.rx.timed)
    || (a == CallTryRecv && c == TryRecv && s.holder != None)
  }

  /** The deadline passes in the wait, and it ends in a timeout: the entry is still listed, or it is an
      async wait, which reports a timeout in either case. */
  predicate TimesOut(s: State, a: Action)
    requires WellFormed(s)
  {
    a == RxExpire && s.rx.RAsleep? && (s.rx.list == ASYNC || s.rx.key in s.lists[s.rx.list])
  }

  lemma CallEnters(s: State, c: Call)
    requires WellFormed(s) && Enabled(s, Entry(c))
    ensures var p := Next(s, Entry(c)).rx; During(c, false, p) || (p.RIdle? && Returns(c, s, Entry(c)))
  {}

  lemma StepsOn(s: State, c: Call, gaveUp: bool)
    requires WellFormed(s) && RxCanStep(s) && During(c, gaveUp, s.rx)
    ensures During(c, gaveUp, RxStepOf(s).rx) || (RxStepOf(s).rx.RIdle? && Returns(c, s, RxStep))
  {}

  lemma SendersLeaveRx(s: State, a: Action)
    requires WellFormed(s) && Enabled(s, a) && (a.CallSend? || a.CallClone? || a.CallDrop? || a.TxStep?)
    ensures Next(s, a).rx == s.rx && Next(s, a).receiverActive == s.receiverActive
  {}

  lemma CallGoesOn(s: State, c: Call, gaveUp: bool, a: Action)
    requires WellFormed(s) && Enabled(s, a) && During(c, gaveUp, s.rx)
    ensures var p := Next(s, a).rx;
      During(c, gaveUp || TimesOut(s, a), p) || (p.RIdle? && Returns(c, s, a))
  {
    if a == RxStep {
      StepsOn(s, c, gaveUp);
    } else if a.CallSend? || a.CallClone? || a.CallDrop? || a.TxStep? {
      SendersLeaveRx(s, a);
    }
  }

  /** A wait timed out strictly between the two moments. */
  ghost predicate GaveUp(states: seq<State>, schedule: seq<Action>, start: nat, now: nat)
    requires |states| == |schedule| + 1 && now <= |schedule|
  {
    exists k {:trigger schedule[k]} :: start < k < now && WellFormed(states[k]) && TimesOut(states[k], schedule[k])
  }

  /** The receiver made call c at `start`, and at no moment before `now` had it returned. */
  ghost predicate InCall(states: seq<State>, schedule: seq<Action>, start: nat, now: nat, c: Call)
    requires |states| == |schedule| + 1
  {
    start < now <= |schedule| && schedule[start] == Entry(c) && forall k :: start < k < now ==> InCode(states[k].rx)
  }

  /** In every run: a recv variant or try_recv is still under way as it was made, or it has just
      returned, from one of the points where it may. */
  lemma {:induction false} RecvAnswers(states: seq<State>, schedule: seq<Action>, start: nat, now: nat, c: Call)
    requires IsTrace(Leads, states, schedule) && InCall(states, schedule, start, now, c)
    ensures || During(c, GaveUp(states, schedule, start, now), states[now].rx)
            || (states[now].rx.RIdle? && Returns(c, states[now - 1], schedule[now - 1])
                && (now > start + 1 ==> During(c, GaveUp(states, schedule, start, now - 1), states[now - 1].rx)))
  {
    var s, a := states[now - 1], schedule[now - 1];
    assert Leads(s, a, states[now]);
    if now == start + 1 {
      CallEnters(s, c);
    } else {
      RecvAnswers(states, schedule, start, now - 1, c);
      assert InCode(s.rx);
      CallGoesOn(s, c, GaveUp(states, schedule, start, now - 1), a);
      assert GaveUp(states, schedule, start, now) <==> GaveUp(states, schedule, start, now - 1) || TimesOut(s, a);
    }
  }

  /** An untimed recv variant returns a value or Disconnected, and nothing else. */
  lemma UntimedAnswers(states: seq<State>, schedule: seq<Action>, start: nat, now: nat, list: nat)
    requires IsTrace(Leads, states, schedule) && InCall(states, schedule, start, now, Recv(list, false))
    requires !InCode(states[now].rx)
    ensures states[now].rx.RIdle? && (states[now - 1].rx.RGot? || states[now - 1].rx == RFail(true))
  {
    RecvAnswers(states, schedule, start, now, Recv(list, false));
    NeverGivesUp(states, schedule, start, now - 1, list);
  }

  lemma {:induction false} NeverGivesUp(states: seq<State>, schedule: seq<Action>, start: nat, now: nat, list: nat)
    requires IsTrace(Leads, states, schedule) && start <= now <= |schedule|
    requires start < now ==> InCall(states, schedule, start, now, Recv(list, false))
    ensures !GaveUp(states, schedule, start, now)
  {
    if start + 1 < now {
      NeverGivesUp(states, schedule, start, now - 1, list);
      RecvAnswers(states, schedule, start, now - 1, Recv(list, false));
      assert InCode(states[now - 1].rx) && Leads(states[now - 1], schedule[now - 1], states[now]);
      assert GaveUp(states, schedule, start, now) <==>
        GaveUp(states, schedule, start, now - 1) || TimesOut(states[now - 1], schedule[now - 1]);
    }
  }

  /** try_recv never waits: it is over in at most three steps, none of them a registration. */
  lemma TryRecvNeverWaits(states: seq<State>, schedule: seq<Action>, start: nat, now: nat)
    requires IsTrace(Leads, states, schedule) && InCall(states, schedule, start, now, TryRecv)
    ensures var p := states[now].rx; p.RPop? || p.RGot? || p.RCount? || p.RFail? || p.RIdle?
    ensures !Waiting(states[now].rx) && !states[now].rx.RRegister?
  {
    RecvAnswers(states, schedule, start, now, TryRecv);
  }

  /** What ends a wait without a timeout, in each step of every run: a spin or async wait its flag or
      continuation, also when it found itself popped at its deadline; recv_block its token or a
      spurious wake; recv_block_timeout the finding that no entry of its thread is listed. */
  lemma EndsNotified(s: State, a: Action)
    requires WellFormed(s) && Enabled(s, a) && Waiting(s.rx)
    requires Next(s, a).rx.RRelock? && !Next(s, a).rx.timedOut
    ensures var p := s.rx;
      if p.RCheck? then a == RxStep && p.key !in s.lists[SYNC]
      else if p.RDrain? || p.list != SYNC then a == RxStep && p.key in s.ready
      else if p.timed then a == RxExpire && p.key !in s.lists[SYNC]
      else (a == RxStep && p.key in s.ready) || a == RxSpurious
  {
    if a.CallSend? || a.CallClone? || a.CallDrop? || a.TxStep? { SendersLeaveRx(s, a); }
  }

  // ---- a deadline is never ignored ----

  /** A timed receiver that waits, for the mutex or registered, and has not come to its decision. */
  predicate TimedPoint(p: RxPc) { p.RCheck? || ((p.RLock? || p.RRegister? || p.RListed? || p.RAsleep?) && p.timed) }

  predicate Decided(p: RxPc) { p.RIdle? || p.RRelock? || p.RDrain? }

  function Hurry(p: RxPc): Action { if p.RAsleep? || p.RLock? then RxExpire else RxStep }

  function Left(p: RxPc): nat {
    match p
    case RRegister(_, _) => 3
    case RListed(_, _, _) => 2
    case RCheck(_) => 2
    case RAsleep(_, _, _) => 1
    case RLock(_, _) => 1
    case _ => 0
  }

  lemma HurryHelps(s: State)
    requires WellFormed(s) && TimedPoint(s.rx)
    ensures Enabled(s, Hurry(s.rx))
    ensures var s' := Next(s, Hurry(s.rx));
      WellFormed(s') && Left(s'.rx) < Left(s.rx) && (Decided(s'.rx) || TimedPoint(s'.rx))
  {}

  /** From every point of a timed wait the receiver can come to its decision by at most three moves of
      its own: it needs no sender, no token and no mutex. */
  lemma {:induction false} TimedRecvDecides(s: State) returns (own: seq<Action>)
    requires WellFormed(s) && TimedPoint(s.rx)
    ensures forall a :: a in own ==> a.RxStep? || a.RxExpire?
    ensures |own| <= Left(s.rx) <= 3 && Run(s, own).Some? && Decided(Run(s, own).value.rx)
    decreases Left(s.rx)
  {
    var a := Hurry(s.rx);
    HurryHelps(s);
    var s' := Next(s, a);
    var rest: seq<Action> := [];
    if !Decided(s'.rx) { rest := TimedRecvDecides(s'); }
    own := [a] + rest;
    assert own[0] == a && own[1..] == rest;
  }

  // ---- sends ----

  /** Where the send of v with this Sender can be.  It is on its way back without having pushed only
      when the Receiver is gone. */
  ghost predicate Sending(s: State, p: TxPc, sender: nat, v: Value) {
    match p
    case TCheck(h, value) => h == sender && value == v
    case TLock(h, value) => h == sender && value == v
    case TRecheck(h, value) => h == sender && value == v
    case TAbort(h, value) => h == sender && value == v && !s.receiverActive
    case TPush(h, value) => h == sender && value == v
    case TRelease(h, value) => h == sender && value == v
    case TNotify(h, value, _) => h == sender && value == v
    case TWake(h, value, _) => h == sender && value == v
    case _ => false
  }

  /** The send has pushed its value. */
  predicate HasPushed(p: TxPc) { p.TRelease? || p.TNotify? || p.TWake? }

  /** It returns Ok, having pushed, or Err, with the Receiver gone. */
  ghost predicate SendReturns(s: State, s': State, i: nat, v: Value)
    requires i < |s.tx| && i < |s.h.oks| && i < |s'.tx| && i < |s'.h.oks|
  {
    && s'.tx[i].TIdle?
    && if HasPushed(s.tx[i]) then s'.h.oks[i] == s.h.oks[i] + [v] else s'.h.oks[i] == s.h.oks[i] && !s.receiverActive
  }

  lemma SendStepsOn(s: State, i: nat, sender: nat, v: Value)
    requires WellFormed(s) && i < |s.tx| && TxCanStep(s, i) && Sending(s, s.tx[i], sender, v)
    ensures var s' := TxStepOf(s, i);
      && WellFormed(s') && |s'.tx| == |s.tx|
      && (Sending(s', s'.tx[i], sender, v) || SendReturns(s, s', i, v))
  {}

  lemma SendGoesOn(s: State, a: Action, i: nat, sender: nat, v: Value)
    requires WellFormed(s) && Enabled(s, a) && i < |s.tx| && Sending(s, s.tx[i], sender, v)
    ensures var s' := Next(s, a);
      && |s'.tx| == |s.tx| && |s'.h.oks| == |s.h.oks|
      && (Sending(s', s'.tx[i], sender, v) || (a == TxStep(i) && SendReturns(s, s', i, v)))
  {
    if a == TxStep(i) {
      SendStepsOn(s, i, sender, v);
    } else if a.TxStep? {
      OthersStay(s, a.i, i);
    }
  }

  /** A user's place and its Ok sends change by its own actions only. */
  lemma OthersStay(s: State, j: nat, i: nat)
    requires WellFormed(s) && j < |s.tx| && TxCanStep(s, j) && i < |s.tx| && i != j
    ensures var s' := TxStepOf(s, j);
      && |s'.tx| == |s.tx| == |s'.h.oks| && s'.tx[i] == s.tx[i] && s'.receiverActive == s.receiverActive
      && s'.h.oks[i] == s.h.oks[i]
  {}

  /** User i sends v at `start`, and at no moment before `now` had the send returned. */
  ghost predicate InSend(states: seq<State>, schedule: seq<Action>, start: nat, now: nat, i: nat, sender: nat, v: Value)
    requires |states| == |schedule| + 1
  {
    && start < now <= |schedule| && schedule[start] == CallSend(i, sender, v)
    && forall k :: start < k < now ==> i < |states[k].tx| && !states[k].tx[i].TIdle?
  }

  /** In every run: a send is still under way with its own value, or it has just returned: Ok if and
      only if it has pushed its value, Err only when the Receiver is gone. */
  lemma {:induction false} SendAnswers(states: seq<State>, schedule: seq<Action>, start: nat, now: nat, i: nat, sender: nat, v: Value)
    requires IsTrace(Leads, states, schedule) && InSend(states, schedule, start, now, i, sender, v)
    ensures var s, s' := states[now - 1], states[now];
      && i < |s.tx| && i < |s.h.oks| && i < |s'.tx| && i < |s'.h.oks|
      && (Sending(s', s'.tx[i], sender, v) || (now > start + 1 && SendReturns(s, s', i, v)))
  {
    var s, a := states[now - 1], schedule[now - 1];
    assert Leads(s, a, states[now]);
    if now > start + 1 {
      SendAnswers(states, schedule, start, now - 1, i, sender, v);
      assert !s.tx[i].TIdle?;
      SendGoesOn(s, a, i, sender, v);
    }
  }

  // ---- after Receiver::drop ----

  /** receiver_active says whether the Receiver exists: it is false from the beginning of its drop. */
  predicate ActiveOk(s: State) { s.receiverActive <==> !Dropped(s.rx) }

  lemma ActiveNext(s: State, a: Action)
    requires WellFormed(s) && ActiveOk(s) && Enabled(s, a)
    ensures ActiveOk(Next(s, a))
  {
    if a.CallSend? || a.CallClone? || a.CallDrop? || a.TxStep? { SendersLeaveRx(s, a); }
  }

  lemma {:induction false} ActiveRun(s: State, schedule: seq<Action>)
    requires ActiveOk(s) && Run(s, schedule).Some?
    ensures ActiveOk(Run(s, schedule).value)
    decreases |schedule|
  {
    if schedule != [] {
      ActiveNext(s, schedule[0]);
      ActiveRun(Next(s, schedule[0]), schedule[1..]);
    }
  }

  lemma {:induction false} GoneForGood(s: State, later: seq<Action>)
    requires WellFormed(s) && !s.receiverActive && Run(s, later).Some?
    ensures !Run(s, later).value.receiverActive
    decreases |later|
  {
    if later != [] {
      var a := later[0];
      if a.CallSend? || a.CallClone? || a.CallDrop? || a.TxStep? { SendersLeaveRx(s, a); }
      if later[1..] != [] { GoneForGood(Next(s, a), later[1..]); }
    }
  }

  /** The user is not past the second load of receiver_active of a send. */
  predicate Unpushed(p: TxPc) { !p.TPush? && !HasPushed(p) }

  /** After the drop's store nobody gets past that load. */
  lemma LateStep(s: State, a: Action, i: nat)
    requires WellFormed(s) && Enabled(s, a) && !s.receiverActive && i < |s.tx| && Unpushed(s.tx[i])
    ensures var s' := Next(s, a);
      && !s'.receiverActive && |s'.tx| == |s.tx| && |s'.h.oks| == |s.h.oks|
      && Unpushed(s'.tx[i]) && s'.h.oks[i] == s.h.oks[i]
  {
    if a.TxStep? && a.i != i { OthersStay(s, a.i, i); }
  }

  /** So a send that begins after it, or has yet to load the flag under the mutex, never returns Ok. */
  lemma {:induction false} LateSendsFail(s: State, later: seq<Action>, i: nat)
    requires WellFormed(s) && !s.receiverActive && i < |s.tx| && Unpushed(s.tx[i]) && Run(s, later).Some?
    ensures var s' := Run(s, later).value;
      i < |s'.tx| && i < |s'.h.oks| && Unpushed(s'.tx[i]) && s'.h.oks[i] == s.h.oks[i] && !s'.receiverActive
    decreases |later|
  {
    if later != [] {
      LateStep(s, later[0], i);
      if later[1..] != [] { LateSendsFail(Next(s, later[0]), later[1..], i); }
    }
  }

  /** The one user that may be between that load and its push, if any, holds the queue's mutex. */
  lemma OnePusher(s: State, i: nat, j: nat)
    requires Inv(s) && i < |s.tx| && j < |s.tx| && s.tx[i].TPush? && s.tx[j].TPush?
    ensures i == j
  {
    assert TxOk(s, i) && TxOk(s, j);
  }

  /** The last push, after which nobody is at that point any more. */
  lemma LastPush(s: State, i: nat)
    requires Inv(s) && i < |s.tx| && s.tx[i].TPush?
    ensures var s' := TxStepOf(s, i);
      && |s'.tx| == |s.tx| && s'.receiverActive == s.receiverActive
      && s'.h.pushed == s.h.pushed + [Sent(i, s.tx[i].value)]
      && forall j :: 0 <= j < |s.tx| ==> !s'.tx[j].TPush?
  {
    forall j | 0 <= j < |s.tx| && s.tx[j].TPush? ensures j == i { OnePusher(s, j, i); }
  }

  /** Nobody comes there after the store. */
  lemma LateUserStep(s: State, i: nat)
    requires WellFormed(s) && !s.receiverActive && i < |s.tx| && TxCanStep(s, i) && !s.tx[i].TPush?
    ensures var s' := TxStepOf(s, i);
      && |s'.tx| == |s.tx| && !s'.receiverActive && s'.h.pushed == s.h.pushed
      && s'.tx == s.tx[i := s'.tx[i]] && !s'.tx[i].TPush?
  {}

  lemma LateCall(s: State, a: Action)
    requires WellFormed(s) && Enabled(s, a) && !s.receiverActive && !a.TxStep?
    ensures var s' := Next(s, a);
      && |s'.tx| == |s.tx| && !s'.receiverActive && s'.h.pushed == s.h.pushed
      && forall i :: 0 <= i < |s.tx| && s'.tx[i].TPush? ==> s'.tx[i] == s.tx[i]
  {
    if a.RxStep? { assert RxStepOf(s).tx == s.tx; }
  }

  /** What is pushed after Receiver::drop's store: nothing, or the one value whose send was already
      between its second load of receiver_active and its push. */
  lemma {:induction false} PushedAfterDrop(s: State, later: seq<Action>)
    requires Inv(s) && !s.receiverActive && Run(s, later).Some?
    ensures var now := Run(s, later).value.h.pushed;
      || now == s.h.pushed
      || exists i :: 0 <= i < |s.tx| && s.tx[i].TPush? && now == s.h.pushed + [Sent(i, s.tx[i].value)]
    decreases |later|
  {
    if later != [] {
      var a := later[0];
      if !a.TxStep? {
        LateCall(s, a);
      } else if s.tx[a.i].TPush? {
        LastPush(s, a.i);
      } else {
        LateUserStep(s, a.i);
      }
      InvNext(s, a);
      PushedAfterDrop(Next(s, a), later[1..]);
    }
  }

  // ---- a trace is a run ----

  lemma Unrolls(states: seq<State>, schedule: seq<Action>, k: nat)
    requires |states| == |schedule| + 1 && k < |schedule| && Leads(states[k], schedule[k], states[k + 1])
    ensures Run(states[k], schedule[k..]) == Run(states[k + 1], schedule[k + 1..])
  {
    assert schedule[k..][0] == schedule[k] && schedule[k..][1..] == schedule[k + 1..];
  }

  lemma TraceRuns(states: seq<State>, schedule: seq<Action>)
    requires IsTrace(Leads, states, schedule)
    ensures Run(states[0], schedule) == Some(states[|schedule|])
  {
    forall k | 0 <= k < |schedule| ensures Run(states[k], schedule[k..]) == Run(states[k + 1], schedule[k + 1..]) {
      assert Leads(states[k], schedule[k], states[k + 1]);
      Unrolls(states, schedule, k);
    }
    Along(Run, states, schedule, 0);
    assert schedule[0..] == schedule;
  }
}
