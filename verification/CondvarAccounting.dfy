/** Exact accounting of notifications: where every registered wait is at every moment, and what a
    timed wait reports. */
module CondvarAccounting {
  import opened Parking
  import opened Sums
  import opened CondvarModel

  function IsWait(w: nat): Waiter -> nat {
    (e: Waiter) => Bit(e.wait == w)
  }

  /** How often the notifier's batch still contains wait w. */
  function Carries(w: nat): Pc -> nat {
    (p: Pc) => if p.Deliver? then Sum(IsWait(w), p.batch) else 0
  }

  ghost function OnLists(s: State, w: nat): nat
    requires Shape(s)
  {
    Sum(IsWait(w), s.lists[SPIN]) + Sum(IsWait(w), s.lists[SYNC]) + Sum(IsWait(w), s.lists[ASYNC])
  }

  /** The thread has an entry `p.me` of its own in play. */
  predicate InWait(p: Pc) {
    p.Listed? || p.Asleep? || p.Missed? || p.Check? || p.Expired? || p.Drain? || p.Relock?
  }

  /** The list it was pushed on. */
  function ListOf(p: Pc): nat
    requires InWait(p)
  {
    if p.Check? then SYNC else if p.Drain? then SPIN else p.list
  }

  predicate EntryOk(s: State, i: nat, e: Waiter)
    requires Shape(s)
  {
    && e.wait < |s.h.kinds| && s.h.kinds[e.wait] == i
    && e.key == if i == SYNC then Handle(s.h.owners[e.wait]) else Cont(e.wait)
  }

  ghost predicate ListsOk(s: State)
    requires Shape(s)
  {
    forall i, e :: 0 <= i < 3 && e in s.lists[i] ==> EntryOk(s, i, e)
  }

  /** The thread's own entry, and the entries it carries as a notifier, are real waits. */
  ghost predicate ThreadOk(s: State, t: nat)
    requires Shape(s) && t < |s.pcs|
  {
    var p := s.pcs[t];
    && (InWait(p) ==> EntryOk(s, ListOf(p), p.me) && s.h.owners[p.me.wait] == t)
    && (p.Deliver? ==> forall e :: e in p.batch ==> EntryOk(s, p.list, e))
  }

  /** Every wait ever registered is listed, or was removed by a notifier, or removed itself: exactly
      one of the three, exactly once. */
  ghost predicate Partition(s: State)
    requires Shape(s)
  {
    forall w: nat {:trigger OnLists(s, w)} :: OnLists(s, w) + Bit(w in s.h.popped) + Bit(w in s.h.left) == Bit(w < |s.h.kinds|)
  }

  /** A popped spin wait's flag is about to be set or is set: exactly one of the two. */
  ghost predicate Flags(s: State)
    requires Shape(s)
  {
    && (forall w: nat :: w < |s.h.kinds| && s.h.kinds[w] == SPIN ==>
          Sum(Carries(w), s.pcs) + Bit(Cont(w) in s.ready) == Bit(w in s.h.popped))
    && (forall w: nat :: Cont(w) in s.ready ==> w < |s.h.kinds|)
  }

  /** How far the thread's wait, if it is on list i, has got, in terms of who removed its entry. */
  predicate PhaseOk(s: State, p: Pc, i: nat)
    requires Shape(s)
  {
    InWait(p) && ListOf(p) == i ==>
      && p.me.wait !in s.h.outcomes
      && match p
         case Drain(me) => me.wait in s.h.popped
         case Relock(_, me, timedOut) => if timedOut then me.wait in s.h.left else me.wait in s.h.popped
         case _ => p.me.wait !in s.h.left
  }

  /** What the finished waits on list i reported. */
  ghost predicate OutcomesOk(s: State, i: nat)
    requires Shape(s)
  {
    forall w :: w in s.h.outcomes && w < |s.h.kinds| && s.h.kinds[w] == i ==>
      if s.h.outcomes[w] then w in s.h.left else w in s.h.popped
  }

  ghost predicate Inv(s: State) {
    && WellFormed(s)
    && ListsOk(s)
    && Partition(s)
    && Flags(s)
    && OutcomesOk(s, SPIN)
    && (forall w :: w in s.h.outcomes ==> w < |s.h.kinds|)
    && (forall t :: 0 <= t < |s.pcs| ==> ThreadOk(s, t) && PhaseOk(s, s.pcs[t], SPIN))
  }

  ghost predicate Moved(s: State, s': State, t: nat) {
    t < |s.pcs| == |s'.pcs| && s'.pcs == s.pcs[t := s'.pcs[t]]
  }

  lemma WaitStepMoves(s: State, t: nat)
    requires WellFormed(s) && t < |s.pcs| && CanStep(s, t) && !s.pcs[t].Notify? && !s.pcs[t].Deliver?
    ensures Moved(s, StepOf(s, t), t)
  {}

  lemma NotifyStepMoves(s: State, t: nat)
    requires WellFormed(s) && t < |s.pcs| && (s.pcs[t].Notify? || s.pcs[t].Deliver?)
    ensures Moved(s, StepOf(s, t), t)
  {}

  lemma CallMoves(s: State, a: Action)
    requires WellFormed(s) && Enabled(s, a) && !a.Step?
    ensures Moved(s, Next(s, a), a.t)
  {
    assert s.pcs[a.t := s.pcs[a.t]] == s.pcs;
  }

  /** A thread moves by its own actions only. */
  lemma NextMoves(s: State, a: Action)
    requires WellFormed(s) && Enabled(s, a)
    ensures Moved(s, Next(s, a), a.t)
  {
    if !a.Step? {
      CallMoves(s, a);
    } else if s.pcs[a.t].Notify? || s.pcs[a.t].Deliver? {
      NotifyStepMoves(s, a.t);
    } else {
      WaitStepMoves(s, a.t);
    }
  }

  lemma StaysWellFormed(s: State, s': State, t: nat)
    requires WellFormed(s) && Moved(s, s', t) && Shape(s') && InRange(s'.pcs[t])
    ensures WellFormed(s')
  {
    forall u | 0 <= u < |s.pcs| ensures InRange(s'.pcs[u]) {
      if u != t { assert s'.pcs[u] == s.pcs[u]; }
    }
  }

  // ---- steps that leave lists, tokens of flags and history alone ----

  /** Thread t moved within the same wait, or between program points outside any wait. */
  lemma QuietKept(s: State, s': State, t: nat)
    requires Inv(s) && WellFormed(s') && Moved(s, s', t)
    requires s'.lists == s.lists
    requires s'.h == s.h.(swept := s'.h.swept, ones := s'.h.ones)
    requires forall w: nat :: Cont(w) in s'.ready <==> Cont(w) in s.ready
    requires forall w: nat :: Carries(w)(s'.pcs[t]) == Carries(w)(s.pcs[t])
    requires ThreadOk(s', t) && PhaseOk(s', s'.pcs[t], SPIN)
    ensures Inv(s')
  {
    forall w: nat ensures Sum(Carries(w), s'.pcs) == Sum(Carries(w), s.pcs) {
      SumUpdate(Carries(w), s.pcs, t, s'.pcs[t]);
    }
    forall w: nat ensures OnLists(s', w) == OnLists(s, w) {}
    forall u | 0 <= u < |s.pcs| ensures ThreadOk(s', u) && PhaseOk(s', s'.pcs[u], SPIN) {
      if u != t { assert ThreadOk(s, u) && PhaseOk(s, s.pcs[u], SPIN) && s'.pcs[u] == s.pcs[u]; }
    }
  }

  lemma QuietStep(s: State, t: nat)
    requires Inv(s) && t < |s.pcs| && CanStep(s, t)
    requires var p := s.pcs[t];
      p.Listed? || p.Missed? || p.Check? || p.Drain? || (p.Deliver? && p.batch == [])
    ensures Inv(StepOf(s, t))
  {
    assert ThreadOk(s, t) && PhaseOk(s, s.pcs[t], SPIN);
    QuietKept(s, StepOf(s, t), t);
  }

  /** A spin wait that sees its flag set was popped. */
  lemma WakeStep(s: State, t: nat)
    requires Inv(s) && t < |s.pcs| && CanStep(s, t) && s.pcs[t].Asleep?
    ensures Inv(StepOf(s, t))
  {
    assert ThreadOk(s, t) && PhaseOk(s, s.pcs[t], SPIN);
    QuietKept(s, StepOf(s, t), t);
  }

  lemma QuietCall(s: State, a: Action)
    requires Inv(s) && Enabled(s, a) && !a.Step?
    ensures Inv(Next(s, a))
  {
    assert ThreadOk(s, a.t) && PhaseOk(s, s.pcs[a.t], SPIN);
    QuietKept(s, Next(s, a), a.t);
  }

  // ---- registration ----

  lemma NotAmong(w: nat, list: seq<Waiter>)
    requires forall e :: e in list ==> e.wait != w
    ensures Sum(IsWait(w), list) == 0
  {
    forall i | 0 <= i < |list| ensures IsWait(w)(list[i]) == 0 { assert list[i] in list; }
    SumZero(IsWait(w), list);
  }

  /** Nobody carries a wait that was never registered. */
  lemma NoCarry(s: State, w: nat)
    requires Inv(s) && w >= |s.h.kinds|
    ensures Sum(Carries(w), s.pcs) == 0
  {
    forall t | 0 <= t < |s.pcs| ensures Carries(w)(s.pcs[t]) == 0 {
      if s.pcs[t].Deliver? {
        assert ThreadOk(s, t);
        NotAmong(w, s.pcs[t].batch);
      }
    }
    SumZero(Carries(w), s.pcs);
  }

  lemma PushCounts(s: State, t: nat)
    requires Inv(s) && t < |s.pcs| && s.pcs[t].Register?
    ensures Partition(StepOf(s, t)) && Flags(StepOf(s, t))
  {
    var s', i := StepOf(s, t), s.pcs[t].list;
    var next := |s.h.kinds|;
    forall w: nat
      ensures OnLists(s', w) + Bit(w in s'.h.popped) + Bit(w in s'.h.left) == Bit(w < |s'.h.kinds|)
    {
      assert OnLists(s, w) + Bit(w in s.h.popped) + Bit(w in s.h.left) == Bit(w < |s.h.kinds|);
      SumAppend(IsWait(w), s.lists[i], s'.pcs[t].me);
    }
    forall w: nat ensures Sum(Carries(w), s'.pcs) == Sum(Carries(w), s.pcs) {
      SumUpdate(Carries(w), s.pcs, t, s'.pcs[t]);
    }
    NoCarry(s, next);
    assert OnLists(s, next) + Bit(next in s.h.popped) + Bit(next in s.h.left) == 0;
  }

  lemma PushStep(s: State, t: nat)
    requires Inv(s) && t < |s.pcs| && s.pcs[t].Register?
    ensures Inv(StepOf(s, t))
  {
    var s' := StepOf(s, t);
    PushCounts(s, t);
    var next := |s.h.kinds|;
    assert OnLists(s, next) + Bit(next in s.h.popped) + Bit(next in s.h.left) == 0;
    forall u | 0 <= u < |s.pcs| ensures ThreadOk(s', u) && PhaseOk(s', s'.pcs[u], SPIN) {
      assert ThreadOk(s, u) && PhaseOk(s, s.pcs[u], SPIN);
      if u != t { assert s'.pcs[u] == s.pcs[u]; }
    }
  }

  // ---- removal by the waiter itself ----

  lemma ItsKeyIsListed(e: Waiter, list: seq<Waiter>)
    requires e in list
    ensures OnList(e.key, list)
  {
    var at :| 0 <= at < |list| && list[at] == e;
  }

  /** A wait whose own key is not on its list is on no list. */
  lemma NotListed(s: State, i: nat, me: Waiter)
    requires Inv(s) && i < 3 && EntryOk(s, i, me) && !OnList(me.key, s.lists[i])
    ensures OnLists(s, me.wait) == 0
  {
    forall j | 0 <= j < 3 ensures Sum(IsWait(me.wait), s.lists[j]) == 0 {
      forall e | e in s.lists[j] ensures e.wait != me.wait {
        assert EntryOk(s, j, e);
        ItsKeyIsListed(e, s.lists[j]);
      }
      NotAmong(me.wait, s.lists[j]);
    }
  }

  lemma LeaveEmptyHanded(s: State, t: nat)
    requires Inv(s) && t < |s.pcs| && s.pcs[t].Expired? && !OnList(s.pcs[t].me.key, s.lists[s.pcs[t].list])
    ensures Inv(StepOf(s, t))
  {
    assert ThreadOk(s, t) && PhaseOk(s, s.pcs[t], SPIN);
    NotListed(s, s.pcs[t].list, s.pcs[t].me);
    QuietKept(s, StepOf(s, t), t);
  }

  /** A waiter that holds no batch takes the entry at `at` out of list i. */
  ghost predicate TookOut(s: State, s': State, t: nat, i: nat, at: nat)
    requires WellFormed(s) && WellFormed(s') && Moved(s, s', t)
  {
    && i < 3 && at < |s.lists[i]|
    && !s.pcs[t].Deliver? && !s'.pcs[t].Deliver?
    && s'.lists == s.lists[i := s.lists[i][..at] + s.lists[i][at + 1..]]
    && s'.h == s.h.(left := s.h.left + {s.lists[i][at].wait})
  }

  lemma LeaveCounts(s: State, s': State, t: nat, i: nat, at: nat)
    requires Inv(s) && WellFormed(s') && Moved(s, s', t) && TookOut(s, s', t, i, at)
    requires forall w: nat :: Cont(w) in s'.ready && Cont(w) !in s.ready ==> w < |s.h.kinds| && s.h.kinds[w] != SPIN
    requires s.ready <= s'.ready
    ensures Partition(s') && Flags(s')
  {
    forall w: nat
      ensures OnLists(s', w) + Bit(w in s'.h.popped) + Bit(w in s'.h.left) == Bit(w < |s'.h.kinds|)
    {
      SumRemove(IsWait(w), s.lists[i], at);
      assert OnLists(s, w) + Bit(w in s.h.popped) + Bit(w in s.h.left) == Bit(w < |s.h.kinds|);
    }
    forall w: nat ensures Sum(Carries(w), s'.pcs) == Sum(Carries(w), s.pcs) {
      SumUpdate(Carries(w), s.pcs, t, s'.pcs[t]);
    }
  }

  lemma LeaveKept(s: State, s': State, t: nat, i: nat, at: nat)
    requires Inv(s) && WellFormed(s') && Moved(s, s', t) && TookOut(s, s', t, i, at)
    requires s.pcs[t].Expired? && s.pcs[t].list == i && s.lists[i][at].key == s.pcs[t].me.key
    requires s'.pcs[t] == Relock(i, s.pcs[t].me, true)
    ensures ListsOk(s')
    ensures forall u :: 0 <= u < |s.pcs| ==> ThreadOk(s', u) && PhaseOk(s', s'.pcs[u], SPIN)
  {
    var e := s.lists[i][at];
    assert ThreadOk(s, t) && e in s.lists[i] && EntryOk(s, i, e);
    forall u | 0 <= u < |s.pcs| ensures ThreadOk(s', u) && PhaseOk(s', s'.pcs[u], SPIN) {
      assert ThreadOk(s, u) && PhaseOk(s, s.pcs[u], SPIN);
      if u != t { assert s'.pcs[u] == s.pcs[u]; }
    }
    forall j, x | 0 <= j < 3 && x in s'.lists[j] ensures EntryOk(s', j, x) {
      assert x in s.lists[j];
    }
  }

  lemma LeaveStep(s: State, t: nat)
    requires Inv(s) && t < |s.pcs| && s.pcs[t].Expired? && OnList(s.pcs[t].me.key, s.lists[s.pcs[t].list])
    ensures Inv(StepOf(s, t))
  {
    var s', i := StepOf(s, t), s.pcs[t].list;
    var at := Position(s.pcs[t].me.key, s.lists[i]);
    assert ThreadOk(s, t);
    LeaveCounts(s, s', t, i, at);
    LeaveKept(s, s', t, i, at);
  }

  // ---- return ----

  lemma ReturnStep(s: State, t: nat)
    requires Inv(s) && t < |s.pcs| && s.pcs[t].Relock? && CanStep(s, t)
    ensures Inv(StepOf(s, t))
  {
    var s' := StepOf(s, t);
    assert ThreadOk(s, t) && PhaseOk(s, s.pcs[t], SPIN);
    forall w: nat ensures Sum(Carries(w), s'.pcs) == Sum(Carries(w), s.pcs) {
      SumUpdate(Carries(w), s.pcs, t, s'.pcs[t]);
    }
    forall w: nat ensures OnLists(s', w) == OnLists(s, w) {}
    forall u | 0 <= u < |s.pcs| ensures ThreadOk(s', u) && PhaseOk(s', s'.pcs[u], SPIN) {
      assert ThreadOk(s, u) && PhaseOk(s, s.pcs[u], SPIN);
      if u != t { assert s'.pcs[u] == s.pcs[u]; }
    }
  }

  // ---- removal by a notifier ----

  lemma AmongWaits(w: nat, list: seq<Waiter>)
    ensures w in Waits(list) <==> Sum(IsWait(w), list) > 0
  {
    if Sum(IsWait(w), list) > 0 {
      var i := SumWitness(IsWait(w), list);
      assert list[i] in list;
    }
    if w in Waits(list) {
      var e :| e in list && e.wait == w;
      var i :| 0 <= i < |list| && list[i] == e;
      SumAtLeast(IsWait(w), list, i);
    }
  }

  /** A notifier that held nothing removes `gone` from list i into its batch. */
  lemma RemoveCounts(s: State, s': State, t: nat, i: nat, gone: seq<Waiter>)
    requires Inv(s) && WellFormed(s') && Moved(s, s', t) && i < 3
    requires s.pcs[t].Notify? && s'.pcs[t].Deliver? && s'.pcs[t].batch == gone
    requires s'.ready == s.ready && s'.h.kinds == s.h.kinds && s'.h.left == s.h.left
    requires s'.h.popped == s.h.popped + Waits(gone)
    requires forall j :: 0 <= j < 3 && j != i ==> s'.lists[j] == s.lists[j]
    requires s.lists[i] == s'.lists[i] + gone
    ensures Partition(s') && Flags(s')
  {
    forall w: nat
      ensures OnLists(s', w) + Bit(w in s'.h.popped) + Bit(w in s'.h.left) == Bit(w < |s'.h.kinds|)
      ensures Sum(Carries(w), s'.pcs) + Bit(w in s.h.popped) == Sum(Carries(w), s.pcs) + Bit(w in s'.h.popped)
    {
      SumUpdate(Carries(w), s.pcs, t, s'.pcs[t]);
      SumConcat(IsWait(w), s'.lists[i], gone);
      AmongWaits(w, gone);
      assert OnLists(s, w) + Bit(w in s.h.popped) + Bit(w in s.h.left) == Bit(w < |s.h.kinds|);
    }
  }

  lemma RemoveKept(s: State, s': State, t: nat, i: nat, gone: seq<Waiter>)
    requires Inv(s) && WellFormed(s') && Moved(s, s', t) && i < 3 && Partition(s') && Flags(s')
    requires s'.pcs[t].Deliver? && s'.pcs[t].batch == gone && s'.pcs[t].list == i
    requires s'.h == s.h.(popped := s'.h.popped, swept := s'.h.swept, onePops := s'.h.onePops, allPops := s'.h.allPops)
    requires s.h.popped <= s'.h.popped
    requires forall j :: 0 <= j < 3 && j != i ==> s'.lists[j] == s.lists[j]
    requires s.lists[i] == s'.lists[i] + gone
    ensures Inv(s')
  {
    forall j, x | 0 <= j < 3 && (x in s'.lists[j] || (j == i && x in gone)) ensures EntryOk(s', j, x) {
      assert x in s.lists[j];
    }
    forall u | 0 <= u < |s.pcs| ensures ThreadOk(s', u) && PhaseOk(s', s'.pcs[u], SPIN) {
      assert ThreadOk(s, u) && PhaseOk(s, s.pcs[u], SPIN);
      if u != t { assert s'.pcs[u] == s.pcs[u]; }
    }
  }

  lemma TakeAllStep(s: State, t: nat)
    requires Inv(s) && t < |s.pcs| && s.pcs[t].Notify? && s.pcs[t].all
    ensures Inv(StepOf(s, t))
  {
    var s', i := StepOf(s, t), s.pcs[t].list;
    RemoveCounts(s, s', t, i, s.lists[i]);
    RemoveKept(s, s', t, i, s.lists[i]);
  }

  lemma PopOneStep(s: State, t: nat)
    requires Inv(s) && t < |s.pcs| && s.pcs[t].Notify? && !s.pcs[t].all
    ensures Inv(StepOf(s, t))
  {
    var s', i := StepOf(s, t), s.pcs[t].list;
    if s.lists[i] == [] {
      QuietKept(s, s', t);
    } else {
      var last := s.lists[i][|s.lists[i]| - 1];
      assert last in [last];
      assert Waits([last]) == {last.wait};
      RemoveCounts(s, s', t, i, [last]);
      RemoveKept(s, s', t, i, [last]);
    }
  }

  lemma DeliverCounts(s: State, t: nat)
    requires Inv(s) && t < |s.pcs| && s.pcs[t].Deliver? && s.pcs[t].batch != []
    ensures Partition(StepOf(s, t)) && Flags(StepOf(s, t))
  {
    var s', e := StepOf(s, t), s.pcs[t].batch[0];
    assert ThreadOk(s, t) && e in s.pcs[t].batch;
    forall w: nat
      ensures Sum(Carries(w), s'.pcs) + Bit(e.wait == w) == Sum(Carries(w), s.pcs)
    {
      SumUpdate(Carries(w), s.pcs, t, s'.pcs[t]);
      SumAtLeast(Carries(w), s.pcs, t);
    }
    forall w: nat ensures OnLists(s', w) == OnLists(s, w) {}
  }

  lemma DeliverStep(s: State, t: nat)
    requires Inv(s) && t < |s.pcs| && s.pcs[t].Deliver? && s.pcs[t].batch != []
    ensures Inv(StepOf(s, t))
  {
    var s' := StepOf(s, t);
    DeliverCounts(s, t);
    forall u | 0 <= u < |s.pcs| ensures ThreadOk(s', u) && PhaseOk(s', s'.pcs[u], SPIN) {
      assert ThreadOk(s, u) && PhaseOk(s, s.pcs[u], SPIN);
      if u != t {
        assert s'.pcs[u] == s.pcs[u];
      } else {
        assert forall x :: x in s'.pcs[t].batch ==> x in s.pcs[t].batch;
      }
    }
  }

  lemma InvStep(s: State, t: nat)
    requires Inv(s) && t < |s.pcs| && CanStep(s, t)
    ensures Inv(StepOf(s, t))
  {
    var p := s.pcs[t];
    if p.Register? {
      PushStep(s, t);
    } else if p.Asleep? {
      WakeStep(s, t);
    } else if p.Expired? {
      if OnList(p.me.key, s.lists[p.list]) { LeaveStep(s, t); } else { LeaveEmptyHanded(s, t); }
    } else if p.Relock? {
      ReturnStep(s, t);
    } else if p.Notify? {
      if p.all { TakeAllStep(s, t); } else { PopOneStep(s, t); }
    } else if p.Deliver? && p.batch != [] {
      DeliverStep(s, t);
    } else {
      QuietStep(s, t);
    }
  }

  lemma InvNext(s: State, a: Action)
    requires Inv(s) && Enabled(s, a)
    ensures Inv(Next(s, a))
  {
    if a.Step? { InvStep(s, a.t); } else { QuietCall(s, a); }
  }

  lemma InitInv(threads: nat)
    ensures Inv(Init(threads))
  {
    var s := Init(threads);
    forall w: nat ensures Sum(Carries(w), s.pcs) == 0 { SumZero(Carries(w), s.pcs); }
  }

  lemma {:induction false} RunInv(s: State, schedule: seq<Action>)
    requires Inv(s) && Run(s, schedule).Some?
    ensures Inv(Run(s, schedule).value)
    decreases |schedule|
  {
    if schedule != [] {
      InvNext(s, schedule[0]);
      RunInv(Next(s, schedule[0]), schedule[1..]);
    }
  }
}
