/** Two concrete schedules of a condition variable on which a wait reports a timeout although a notifier
    popped it. */
module CondvarScenes {
  import opened Parking
  import opened Sums
  import opened CondvarModel
  import opened Traces
  import CondvarCalls

  lemma Updates(p: Pc, q: Pc, p': Pc, q': Pc)
    ensures [p, q][0 := p'] == [p', q] && [p, q][1 := q'] == [p, q']
  {}

  // ---- wait_async_timeout swallows a notification ----

  function Scene(holder: Option<nat>, listed: seq<Waiter>, p: Pc, q: Pc, h: History): State {
    State(holder, false, [[], [], listed], {}, [p, q], h)
  }

  const ME: Waiter := Waiter(Cont(0), 0)

  /** The records after thread 0 registered and a notify_one by thread 1 has popped `popped`. */
  function Past(ones: nat, popped: set<nat>, outcomes: map<nat, bool>): History {
    History([ASYNC], [0], popped, {}, outcomes, [false, false, false], ones, |popped|, 0)
  }

  /** Thread 0 waits with a deadline; thread 1's notify_one pops it; the deadline passes before the
      continuation is completed. */
  function SwallowSchedule(k: nat): Action {
    if k == 0 then Lock(0)
    else if k == 1 then CallWait(0, ASYNC, true, false)
    else if k < 5 then Step(0)
    else if k == 5 then CallNotify(1, false)
    else if k < 9 then Step(1)
    else if k == 9 then Expire(0)
    else Step(0)
  }

  function SwallowAt(k: nat): State {
    var none := Init(0).h;
    if k == 0 then Scene(None, [], Idle, Idle, none)
    else if k == 1 then Scene(Some(0), [], Locked, Idle, none)
    else if k == 2 then Scene(Some(0), [], Register(ASYNC, true, false), Idle, none)
    else if k == 3 then Scene(Some(0), [ME], Listed(ASYNC, ME, true, false), Idle, Past(0, {}, map[]))
    else if k == 4 then Scene(None, [ME], Asleep(ASYNC, ME, true, false), Idle, Past(0, {}, map[]))
    else if k == 5 then Scene(None, [ME], Missed(ASYNC, ME, false), Idle, Past(0, {}, map[]))
    else if k < 9 then
      Scene(None, [ME], Missed(ASYNC, ME, false), Notify(k - 6, false, false, false), Past(1, {}, map[]))
    else
      var q := Deliver(ASYNC, [ME], false, false, false);
      if k == 9 then Scene(None, [], Missed(ASYNC, ME, false), q, Past(1, {0}, map[]))
      else if k == 10 then Scene(None, [], Expired(ASYNC, ME, false), q, Past(1, {0}, map[]))
      else if k == 11 then Scene(None, [], Relock(ASYNC, ME, true), q, Past(1, {0}, map[]))
      else Scene(Some(0), [], Locked, q, Past(1, {0}, map[0 := true]))
  }

  lemma SwallowFollows(k: nat)
    requires k < 12
    ensures Leads(SwallowAt(k), SwallowSchedule(k), SwallowAt(k + 1))
  {
    if k < 5 {
      SwallowFollowsWait(k);
    } else if k < 9 {
      SwallowFollowsNotify(k);
    } else {
      SwallowFollowsTimeout(k);
    }
  }

  lemma SwallowFollowsWait(k: nat)
    requires k < 5
    ensures Leads(SwallowAt(k), SwallowSchedule(k), SwallowAt(k + 1))
  {
    var s, s' := SwallowAt(k), SwallowAt(k + 1);
    Updates(s.pcs[0], s.pcs[1], s'.pcs[0], s'.pcs[1]);
    var lists: seq<seq<Waiter>> := [[], [], []];
    assert lists[ASYNC] + [ME] == [ME] && lists[ASYNC := [ME]] == [[], [], [ME]];
    var none: seq<nat> := [];
    assert none + [ASYNC] == [ASYNC] && none + [0] == [0];
  }

  lemma SwallowFollowsNotify(k: nat)
    requires 5 <= k < 9
    ensures Leads(SwallowAt(k), SwallowSchedule(k), SwallowAt(k + 1))
  {
    var s, s' := SwallowAt(k), SwallowAt(k + 1);
    Updates(s.pcs[0], s.pcs[1], s'.pcs[0], s'.pcs[1]);
    var lists: seq<seq<Waiter>> := [[], [], [ME]];
    assert lists[ASYNC][..0] == [] && lists[ASYNC := []] == [[], [], []];
    assert {} + {ME.wait} == {0};
  }

  lemma SwallowFollowsTimeout(k: nat)
    requires 9 <= k < 12
    ensures Leads(SwallowAt(k), SwallowSchedule(k), SwallowAt(k + 1))
  {
    var s, s' := SwallowAt(k), SwallowAt(k + 1);
    Updates(s.pcs[0], s.pcs[1], s'.pcs[0], s'.pcs[1]);
  }

  lemma SwallowRun() returns (schedule: seq<Action>)
    ensures Run(Init(2), schedule) == Some(SwallowAt(12))
  {
    var states := seq(13, k requires 0 <= k => SwallowAt(k));
    schedule := seq(12, k requires 0 <= k => SwallowSchedule(k));
    forall k | 0 <= k < 12 ensures Leads(states[k], schedule[k], states[k + 1]) { SwallowFollows(k); }
    CondvarCalls.TraceRuns(states, schedule);
    assert Init(2) == SwallowAt(0) by { assert seq(2, _ => Idle) == [Idle, Idle]; }
  }

  // ---- wait_block_timeout after a wait_block with a spurious wake ----

  const OLD: Waiter := Waiter(Handle(0), 0)
  const NEW: Waiter := Waiter(Handle(0), 1)

  function Mix(holder: Option<nat>, listed: seq<Waiter>, p: Pc, q: Pc, h: History): State {
    State(holder, false, [[], listed, []], {}, [p, q], h)
  }

  /** The records when thread 0 has registered n waits. */
  function Waited(n: nat, popped: set<nat>, left: set<nat>, outcomes: map<nat, bool>, ones: nat): History {
    History(if n == 1 then [SYNC] else [SYNC, SYNC], if n == 1 then [0] else [0, 0], popped, left, outcomes,
            [false, false, false], ones, |popped|, 0)
  }

  /** Thread 0's wait_block returns from a spurious wake and leaves its entry behind; its
      wait_block_timeout is popped by thread 1; at the deadline it finds the old entry. */
  function MixSchedule(k: nat): Action {
    if k == 0 then Lock(0)
    else if k == 1 then CallWait(0, SYNC, false, false)
    else if k == 4 then Spurious(0)
    else if k == 6 then CallWait(0, SYNC, true, false)
    else if k == 9 then CallNotify(1, false)
    else if k == 10 || k == 11 then Step(1)
    else if k == 12 then Expire(0)
    else Step(0)
  }

  function MixAt(k: nat): State {
    var none := Init(0).h;
    var one := Waited(1, {}, {}, map[], 0);
    var back := Waited(1, {}, {}, map[0 := false], 0);
    var two := Waited(2, {}, {}, map[0 := false], 0);
    if k == 0 then Mix(None, [], Idle, Idle, none)
    else if k == 1 then Mix(Some(0), [], Locked, Idle, none)
    else if k == 2 then Mix(Some(0), [], Register(SYNC, false, false), Idle, none)
    else if k == 3 then Mix(Some(0), [OLD], Listed(SYNC, OLD, false, false), Idle, one)
    else if k == 4 then Mix(None, [OLD], Asleep(SYNC, OLD, false, false), Idle, one)
    else if k == 5 then Mix(None, [OLD], Relock(SYNC, OLD, false), Idle, one)
    else if k == 6 then Mix(Some(0), [OLD], Locked, Idle, back)
    else if k == 7 then Mix(Some(0), [OLD], Register(SYNC, true, false), Idle, back)
    else if k == 8 then Mix(Some(0), [OLD, NEW], Listed(SYNC, NEW, true, false), Idle, two)
    else if k == 9 then Mix(None, [OLD, NEW], Asleep(SYNC, NEW, true, false), Idle, two)
    else if k < 12 then
      Mix(None, [OLD, NEW], Asleep(SYNC, NEW, true, false), Notify(k - 10, false, false, false),
          Waited(2, {}, {}, map[0 := false], 1))
    else
      var q, popped := Deliver(SYNC, [NEW], false, false, false), Waited(2, {1}, {}, map[0 := false], 1);
      if k == 12 then Mix(None, [OLD], Asleep(SYNC, NEW, true, false), q, popped)
      else if k == 13 then Mix(None, [OLD], Expired(SYNC, NEW, false), q, popped)
      else if k == 14 then Mix(None, [], Relock(SYNC, NEW, true), q, Waited(2, {1}, {0}, map[0 := false], 1))
      else Mix(Some(0), [], Locked, q, Waited(2, {1}, {0}, map[0 := false, 1 := true], 1))
  }

  lemma MixFollows(k: nat)
    requires k < 15
    ensures Leads(MixAt(k), MixSchedule(k), MixAt(k + 1))
  {
    if k < 2 {
      MixFollowsCall(k);
    } else if k < 4 {
      MixFollowsFirst(k);
    } else if k < 9 {
      MixFollowsSecond(k);
    } else if k < 12 {
      MixFollowsNotify(k);
    } else {
      MixFollowsTimeout(k);
    }
  }

  lemma MixFollowsCall(k: nat)
    requires k < 2
    ensures Leads(MixAt(k), MixSchedule(k), MixAt(k + 1))
  {
    var s, s' := MixAt(k), MixAt(k + 1);
    Updates(s.pcs[0], s.pcs[1], s'.pcs[0], s'.pcs[1]);
  }

  lemma MixFollowsFirst(k: nat)
    requires 2 <= k < 4
    ensures Leads(MixAt(k), MixSchedule(k), MixAt(k + 1))
  {
    var s, s' := MixAt(k), MixAt(k + 1);
    Updates(s.pcs[0], s.pcs[1], s'.pcs[0], s'.pcs[1]);
    var lists: seq<seq<Waiter>> := [[], [], []];
    assert lists[SYNC] + [OLD] == [OLD] && lists[SYNC := [OLD]] == [[], [OLD], []];
    var none: seq<nat> := [];
    assert none + [SYNC] == [SYNC] && none + [0] == [0];
  }

  lemma MixFollowsSecond(k: nat)
    requires 4 <= k < 9
    ensures Leads(MixAt(k), MixSchedule(k), MixAt(k + 1))
  {
    var s, s' := MixAt(k), MixAt(k + 1);
    Updates(s.pcs[0], s.pcs[1], s'.pcs[0], s'.pcs[1]);
    var lists: seq<seq<Waiter>> := [[], [OLD], []];
    assert lists[SYNC] + [NEW] == [OLD, NEW] && lists[SYNC := [OLD, NEW]] == [[], [OLD, NEW], []];
    assert [SYNC] + [SYNC] == [SYNC, SYNC] && [0] + [0] == [0, 0];
  }

  lemma MixFollowsNotify(k: nat)
    requires 9 <= k < 12
    ensures Leads(MixAt(k), MixSchedule(k), MixAt(k + 1))
  {
    var s, s' := MixAt(k), MixAt(k + 1);
    Updates(s.pcs[0], s.pcs[1], s'.pcs[0], s'.pcs[1]);
    var lists: seq<seq<Waiter>> := [[], [OLD, NEW], []];
    assert lists[SYNC][..1] == [OLD] && lists[SYNC := [OLD]] == [[], [OLD], []];
    assert {} + {NEW.wait} == {1};
  }

  lemma MixFollowsTimeout(k: nat)
    requires 12 <= k < 15
    ensures Leads(MixAt(k), MixSchedule(k), MixAt(k + 1))
  {
    var s, s' := MixAt(k), MixAt(k + 1);
    Updates(s.pcs[0], s.pcs[1], s'.pcs[0], s'.pcs[1]);
    var listed: seq<Waiter> := [OLD];
    assert OnList(Handle(0), listed) by { assert listed[0].key == Handle(0); }
    assert Position(Handle(0), listed) == 0;
    assert listed[..0] + listed[1..] == [];
    var lists: seq<seq<Waiter>> := [[], [OLD], []];
    assert lists[SYNC := []] == [[], [], []];
  }

  lemma MixRun() returns (schedule: seq<Action>)
    ensures Run(Init(2), schedule) == Some(MixAt(15))
  {
    var states := seq(16, k requires 0 <= k => MixAt(k));
    schedule := seq(15, k requires 0 <= k => MixSchedule(k));
    forall k | 0 <= k < 15 ensures Leads(states[k], schedule[k], states[k + 1]) { MixFollows(k); }
    CondvarCalls.TraceRuns(states, schedule);
    assert Init(2) == MixAt(0) by { assert seq(2, _ => Idle) == [Idle, Idle]; }
  }
}
