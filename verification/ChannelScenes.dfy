/** Two concrete runs of the channel at whose end the receiver sleeps and nobody will wake it. */
module ChannelScenes {
  import opened Parking
  import opened Sums
  import opened ChannelModel
  import opened ChannelOrder
  import opened ChannelLastSender
  import opened ChannelWake
  import opened ChannelMissed
  import opened Traces
  import ChannelCalls

  // ---- the last Sender's notify_all misses the receiver ----

  /** A channel with one user and an empty queue. */
  function Scene(rx: RxPc, tx: TxPc, holder: Option<Agent>, count: nat, missed: bool, listed: seq<Key>): State {
    State([], holder, count, true, [[], listed, []], {}, 0, if tx.TIdle? && count == 1 then {0} else {}, 1,
          rx, [tx], History([], [], [[]], false, missed, 0, 0))
  }

  /** recv_block finds the queue empty and loads sender_count 1; the only Sender is dropped and its
      notify_all takes the list of threads; the receiver registers and parks; notify_all ends. */
  function WindowSchedule(k: nat): Action {
    if k == 0 then CallRecv(SYNC, false)
    else if k == 4 then CallDrop(0, 0)
    else if k < 4 || k == 9 || k == 10 then RxStep
    else TxStep(0)
  }

  function WindowAt(k: nat): State {
    if k == 0 then Scene(RIdle, TIdle, None, 1, false, [])
    else if k == 1 then Scene(RLock(SYNC, false), TIdle, None, 1, false, [])
    else if k == 2 then Scene(RPop(SYNC, false, false), TIdle, Some(Rx), 1, false, [])
    else if k == 3 then Scene(RCount(SYNC, false, false), TIdle, Some(Rx), 1, false, [])
    else if k == 4 then Scene(RRegister(SYNC, false), TIdle, Some(Rx), 1, false, [])
    else if k == 5 then Scene(RRegister(SYNC, false), TDropping(0), Some(Rx), 1, false, [])
    else if k == 6 then Scene(RRegister(SYNC, false), TNotifyAll(SPIN), Some(Rx), 0, false, [])
    else if k == 7 then Scene(RRegister(SYNC, false), TWakeAll(SPIN, []), Some(Rx), 0, false, [])
    else if k == 8 then Scene(RRegister(SYNC, false), TNotifyAll(SYNC), Some(Rx), 0, false, [])
    else if k == 9 then Scene(RRegister(SYNC, false), TWakeAll(SYNC, []), Some(Rx), 0, true, [])
    else if k == 10 then Scene(RListed(SYNC, RX_THREAD, false), TWakeAll(SYNC, []), Some(Rx), 0, true, [RX_THREAD])
    else
      var asleep := RAsleep(SYNC, RX_THREAD, false);
      var tx := if k == 11 then TWakeAll(SYNC, []) else if k == 12 then TNotifyAll(ASYNC)
                else if k == 13 then TWakeAll(ASYNC, []) else TIdle;
      Scene(asleep, tx, None, 0, true, [RX_THREAD])
  }

  lemma WindowFollows(k: nat)
    requires k < 14
    ensures Leads(WindowAt(k), WindowSchedule(k), WindowAt(k + 1))
  {
    if k < 4 {
      WindowFollowsRx(k);
    } else if k < 9 {
      WindowFollowsTx(k);
    } else {
      WindowFollowsEnd(k);
    }
  }

  lemma WindowFollowsRx(k: nat)
    requires k < 4
    ensures Leads(WindowAt(k), WindowSchedule(k), WindowAt(k + 1))
  {}

  lemma WindowFollowsTx(k: nat)
    requires 4 <= k < 9
    ensures Leads(WindowAt(k), WindowSchedule(k), WindowAt(k + 1))
  {
    var tx, tx' := WindowAt(k).tx[0], WindowAt(k + 1).tx[0];
    assert [tx][0 := tx'] == [tx'];
    var lists: seq<seq<Key>> := [[], [], []];
    assert lists[SPIN := []] == lists && lists[SYNC := []] == lists;
  }

  lemma WindowFollowsEnd(k: nat)
    requires 9 <= k < 14
    ensures Leads(WindowAt(k), WindowSchedule(k), WindowAt(k + 1))
  {
    var tx, tx' := WindowAt(k).tx[0], WindowAt(k + 1).tx[0];
    assert [tx][0 := tx'] == [tx'];
    var lists: seq<seq<Key>> := [[], [], []];
    assert lists[SYNC] + [RX_THREAD] == [RX_THREAD];
    assert lists[SYNC := lists[SYNC] + [RX_THREAD]] == [[], [RX_THREAD], []];
    var listed: seq<seq<Key>> := [[], [RX_THREAD], []];
    assert listed[ASYNC := []] == listed;
  }

  lemma WindowBegins()
    ensures Init(1) == WindowAt(0)
  {
    assert seq(1, _ => TIdle) == [TIdle];
  }

  lemma WindowRun() returns (schedule: seq<Action>)
    ensures Run(Init(1), schedule) == Some(WindowAt(14)) && AllQuiet(schedule)
  {
    var states := seq(15, k requires 0 <= k => WindowAt(k));
    schedule := seq(14, k requires 0 <= k => WindowSchedule(k));
    forall k | 0 <= k < 14 ensures Leads(states[k], schedule[k], states[k + 1]) { WindowFollows(k); }
    ChannelCalls.TraceRuns(states, schedule);
    WindowBegins();
    forall a | a in schedule ensures Quiet(a) {
      var k: nat :| k < 14 && schedule[k] == a;
      assert Quiet(WindowSchedule(k));
    }
  }

  // ---- a stale entry diverts a notify_one ----

  ghost predicate Reaches(s: State, s': State) {
    exists schedule :: Run(s, schedule) == Some(s')
  }

  lemma OneStep(s: State, a: Action)
    requires WellFormed(s) && Enabled(s, a)
    ensures Reaches(s, Next(s, a))
  {
    assert [a][1..] == [];
    assert Run(s, [a]) == Some(Next(s, a));
  }

  lemma Stays(s: State)
    ensures Reaches(s, s)
  {
    assert Run(s, []) == Some(s);
  }

  lemma {:induction false} RunThen(s: State, first: seq<Action>, second: seq<Action>)
    requires Run(s, first).Some?
    ensures Run(s, first + second) == Run(Run(s, first).value, second)
    decreases |first|
  {
    if first == [] {
      assert first + second == second;
    } else {
      assert (first + second)[1..] == first[1..] + second;
      RunThen(Next(s, first[0]), first[1..], second);
    }
  }

  lemma Then(s: State, s': State, s'': State)
    requires Reaches(s, s') && Reaches(s', s'')
    ensures Reaches(s, s'')
  {
    var first :| Run(s, first) == Some(s');
    var second :| Run(s', second) == Some(s'');
    RunThen(s, first, second);
  }

  lemma StepTo(s: State, s': State, a: Action, s'': State)
    requires Reaches(s, s') && Leads(s', a, s'')
    ensures Reaches(s, s'')
  {
    OneStep(s', a);
    Then(s, s', s'');
  }

  /** Where recv_block or recv_async ends up that finds the queue empty and some Sender left. */
  function AsleepOn(s: State, list: nat): State
    requires |s.lists| == 3 && list < 3
  {
    Register(s, list, false).(rx := RAsleep(list, if list == SYNC then RX_THREAD else Cont(s.nextKey), false))
  }

  /** It looks at the queue and at the count ... */
  lemma LooksInVain(s: State, list: nat)
    requires WellFormed(s) && s.holder == None && s.queue == [] && s.senderCount > 0 && list < 3
    requires s.rx == RLock(list, false) || s.rx == RRelock(list, false, false)
    ensures Reaches(s, s.(holder := Some(Rx), rx := RRegister(list, false)))
  {
    var s1 := s.(holder := Some(Rx), rx := RPop(list, false, false));
    var s2 := s1.(rx := RCount(list, false, false));
    var s3 := s2.(rx := RRegister(list, false));
    Stays(s);
    StepTo(s, s, RxStep, s1);
    StepTo(s, s1, RxStep, s2);
    StepTo(s, s2, RxStep, s3);
  }

  /** ... registers and releases the mutex. */
  lemma Registers(s: State, list: nat)
    requires WellFormed(s) && s.rx == RRegister(list, false) && s.holder == Some(Rx)
    ensures Reaches(s, AsleepOn(s.(holder := None), list))
  {
    var s1 := Register(s, list, false);
    Stays(s);
    StepTo(s, s, RxStep, s1);
    StepTo(s, s1, RxStep, AsleepOn(s.(holder := None), list));
  }

  lemma FallsAsleep(s: State, list: nat)
    requires WellFormed(s) && s.holder == None && s.queue == [] && s.senderCount > 0 && list < 3
    requires s.rx == RLock(list, false) || s.rx == RRelock(list, false, false)
    ensures Reaches(s, AsleepOn(s, list))
  {
    var s1 := s.(holder := Some(Rx), rx := RRegister(list, false));
    LooksInVain(s, list);
    Registers(s1, list);
    Then(s, s1, AsleepOn(s1.(holder := None), list));
    assert AsleepOn(s1.(holder := None), list) == AsleepOn(s, list);
  }

  /** The state with one user's program point, and with the queue's mutex taken or not. */
  function At(s: State, p: TxPc, holder: Option<Agent>): State {
    s.(tx := [p], holder := holder)
  }

  lemma UserMoves(s: State, p: TxPc, q: TxPc, holder: Option<Agent>)
    ensures At(s, p, holder).tx[0 := q] == [q]
  {}

  /** A send up to the moment it holds the mutex and has found the receiver active twice. */
  lemma ChecksTwice(s: State, v: Value)
    requires WellFormed(s) && s.tx == [TIdle] && 0 in s.senders && s.receiverActive && s.holder == None
    ensures Reaches(s, At(s, TPush(0, v), Some(Tx(0))))
  {
    var s1 := At(s, TCheck(0, v), None);
    var s2 := At(s, TLock(0, v), None);
    var s3 := At(s, TRecheck(0, v), Some(Tx(0)));
    UserMoves(s, TIdle, TCheck(0, v), None);
    UserMoves(s, TCheck(0, v), TLock(0, v), None);
    UserMoves(s, TLock(0, v), TRecheck(0, v), None);
    UserMoves(s, TRecheck(0, v), TPush(0, v), Some(Tx(0)));
    assert s == At(s, TIdle, None);
    Stays(s);
    StepTo(s, s, CallSend(0, 0, v), s1);
    StepTo(s, s1, TxStep(0), s2);
    StepTo(s, s2, TxStep(0), s3);
    StepTo(s, s3, TxStep(0), At(s, TPush(0, v), Some(Tx(0))));
  }

  /** The state when the value is in the queue and the mutex free again. */
  function Pushed1(s: State, v: Value): State {
    s.(queue := s.queue + [v], tx := [TNotify(0, v, SPIN)], h := s.h.(pushed := s.h.pushed + [Sent(0, v)]))
  }

  lemma Pushes(s: State, v: Value)
    requires WellFormed(s) && s.tx == [TIdle] && 0 in s.senders && s.receiverActive && s.holder == None
    ensures Reaches(s, Pushed1(s, v))
  {
    var s1 := At(s, TPush(0, v), Some(Tx(0)));
    var s2 := Pushed1(s, v).(tx := [TRelease(0, v)], holder := Some(Tx(0)));
    ChecksTwice(s, v);
    UserMoves(s, TPush(0, v), TRelease(0, v), Some(Tx(0)));
    StepTo(s, s1, TxStep(0), s2);
    assert s2.tx[0 := TNotify(0, v, SPIN)] == [TNotify(0, v, SPIN)];
    StepTo(s, s2, TxStep(0), Pushed1(s, v));
  }

  /** The second half, when nobody spins and some handle is listed: notify_one pops it. */
  function Notified(s: State, v: Value): State
    requires WellFormed(s) && s.tx == [TNotify(0, v, SPIN)] && s.lists[SYNC] != []
  {
    var last := |s.lists[SYNC]| - 1;
    SendOk(s.(lists := s.lists[SYNC := s.lists[SYNC][..last]], ready := s.ready + {s.lists[SYNC][last]},
              h := s.h.(diverted := s.h.diverted + Bit(Diverts(s, SYNC, s.lists[SYNC][..last])))), 0, v)
  }

  lemma Notifies(s: State, v: Value)
    requires WellFormed(s) && s.tx == [TNotify(0, v, SPIN)] && s.lists[SPIN] == [] && s.lists[SYNC] != []
    ensures Reaches(s, Notified(s, v))
  {
    var s1 := s.(tx := [TNotify(0, v, SYNC)]);
    var s2 := PopOne(s1, 0, 0, v, SYNC);
    assert s.tx[0 := TNotify(0, v, SYNC)] == [TNotify(0, v, SYNC)];
    assert s.tx[0 := TIdle] == [TIdle] && s2.tx[0 := TIdle] == [TIdle];
    Stays(s);
    StepTo(s, s, TxStep(0), s1);
    StepTo(s, s1, TxStep(0), s2);
    StepTo(s, s2, TxStep(0), Notified(s, v));
  }

  /** The receiver, woken in recv_block, takes the front value. */
  function Taken(s: State): State
    requires s.queue != []
  {
    s.(queue := s.queue[1..], rx := RIdle, ready := s.ready - {RX_THREAD},
       h := s.h.(received := s.h.received + [s.queue[0]]))
  }

  lemma Takes(s: State)
    requires WellFormed(s) && s.rx == RAsleep(SYNC, RX_THREAD, false) && RX_THREAD in s.ready
    requires s.holder == None && s.queue != []
    ensures Reaches(s, Taken(s))
  {
    var s1 := s.(ready := s.ready - {RX_THREAD}, rx := RRelock(SYNC, false, false));
    var s2 := s1.(holder := Some(Rx), rx := RPop(SYNC, false, false));
    var s3 := s2.(queue := s.queue[1..], rx := RGot(s.queue[0]));
    Stays(s);
    StepTo(s, s, RxStep, s1);
    StepTo(s, s1, RxStep, s2);
    StepTo(s, s2, RxStep, s3);
    StepTo(s, s3, RxStep, Taken(s));
  }

  /** Between two moves of the story: one idle user with the only Sender, and these entries. */
  predicate Resting(s: State, threads: seq<Key>, tasks: seq<Key>) {
    && WellFormed(s) && s.lists == [[], threads, tasks]
    && s.tx == [TIdle] && s.senders == {0} && s.senderCount == 1 && s.receiverActive && s.holder == None
    && s.nextKey == |tasks|
  }

  lemma RecvBlockSleeps(s: State, threads: seq<Key>) returns (s': State)
    requires Resting(s, threads, []) && s.queue == [] && (s.rx == RLock(SYNC, false) || s.rx == RRelock(SYNC, false, false))
    ensures Reaches(s, s') && Resting(s', threads + [RX_THREAD], []) && s'.queue == [] && s'.ready == s.ready
    ensures s'.rx == RAsleep(SYNC, RX_THREAD, false)
  {
    s' := AsleepOn(s, SYNC);
    FallsAsleep(s, SYNC);
    var lists: seq<seq<Key>> := [[], threads, []];
    assert s'.lists == lists[SYNC := threads + [RX_THREAD]] == [[], threads + [RX_THREAD], []];
  }

  lemma RecvAsyncSleeps(s: State, threads: seq<Key>) returns (s': State)
    requires Resting(s, threads, []) && s.queue == [] && s.rx == RLock(ASYNC, false)
    ensures Reaches(s, s') && Resting(s', threads, [Cont(0)]) && s'.queue == [] && s'.ready == s.ready
    ensures s'.rx == RAsleep(ASYNC, Cont(0), false)
  {
    s' := AsleepOn(s, ASYNC);
    FallsAsleep(s, ASYNC);
    var lists: seq<seq<Key>> := [[], threads, []];
    assert lists[ASYNC] + [Cont(0)] == [Cont(0)];
    assert s'.lists == lists[ASYNC := [Cont(0)]] == [[], threads, [Cont(0)]];
  }

  lemma SendPopsAThread(s: State, threads: seq<Key>, tasks: seq<Key>, v: Value) returns (s': State)
    requires Resting(s, threads + [RX_THREAD], tasks)
    ensures Reaches(s, s') && Resting(s', threads, tasks) && s'.queue == s.queue + [v]
    ensures s'.rx == s.rx && s'.ready == s.ready + {RX_THREAD}
  {
    var s1 := Pushed1(s, v);
    Pushes(s, v);
    s' := Notified(s1, v);
    Notifies(s1, v);
    Then(s, s1, s');
    assert (threads + [RX_THREAD])[..|threads|] == threads;
    assert s'.lists == [[], threads, tasks];
  }

  lemma RecvBlockReturns(s: State, threads: seq<Key>) returns (s': State)
    requires Resting(s, threads, []) && s.rx == RAsleep(SYNC, RX_THREAD, false) && |s.queue| == 1
    requires s.ready == {RX_THREAD}
    ensures Reaches(s, s') && Resting(s', threads, []) && s'.queue == [] && s'.rx == RIdle && s'.ready == {}
  {
    s' := Taken(s);
    Takes(s);
  }

  /** recv_block registers, wakes for no reason and registers again; a value is sent and received, and
      one of the two entries stays behind. */
  lemma LeavesAnEntry(v: Value) returns (s: State)
    ensures Reaches(Init(1), s) && Resting(s, [RX_THREAD], []) && s.queue == [] && s.rx == RIdle && s.ready == {}
  {
    var s0 := Init(1);
    assert s0.tx == [TIdle];
    var s1 := s0.(rx := RLock(SYNC, false));
    Stays(s0);
    StepTo(s0, s0, CallRecv(SYNC, false), s1);
    s := RegistersTwice(s1);
    Then(s0, s1, s);
    var s2 := SendPopsAThread(s, [RX_THREAD], [], v);
    Then(s0, s, s2);
    s := RecvBlockReturns(s2, [RX_THREAD]);
    Then(s0, s2, s);
  }

  lemma RegistersTwice(s: State) returns (s': State)
    requires Resting(s, [], []) && s.queue == [] && s.rx == RLock(SYNC, false) && s.ready == {}
    ensures Reaches(s, s') && Resting(s', [RX_THREAD] + [RX_THREAD], []) && s'.queue == [] && s'.ready == {}
    ensures s'.rx == RAsleep(SYNC, RX_THREAD, false)
  {
    var s1 := RecvBlockSleeps(s, []);
    assert [] + [RX_THREAD] == [RX_THREAD];
    var s2 := s1.(rx := RRelock(SYNC, false, false));
    StepTo(s, s1, RxSpurious, s2);
    s' := RecvBlockSleeps(s2, [RX_THREAD]);
    Then(s, s2, s');
  }

  /** Then recv_async waits, and the notify_one of the next value pops that entry. */
  lemma DivertedRun(v: Value) returns (s: State)
    ensures Reachable(s) && WellFormed(s)
    ensures s.rx == RAsleep(ASYNC, Cont(0), false) && s.queue == [v] && s.ready == {RX_THREAD}
    ensures s.tx == [TIdle] && s.holder == None
  {
    var s0 := LeavesAnEntry(v);
    var s1 := s0.(rx := RLock(ASYNC, false));
    StepTo(Init(1), s0, CallRecv(ASYNC, false), s1);
    var s2 := RecvAsyncSleeps(s1, [RX_THREAD]);
    Then(Init(1), s1, s2);
    assert [RX_THREAD] == [] + [RX_THREAD];
    s := SendPopsAThread(s2, [], [Cont(0)], v);
    Then(Init(1), s2, s);
  }
}
