/** What the notifiers guarantee: notify_one pops at most one entry and overlooks none that stays,
    and notify_all reaches everybody who registered after seeing its predicate unset. */
module CondvarNotify {
  import opened Parking
  import opened Sums
  import opened Traces
  import opened CondvarModel
  import opened CondvarAccounting

  // ---- notify_one ----

  /** A notify_one that has not popped anything yet. */
  function Seeking(p: Pc): nat { Bit(p.Notify? && !p.all) }

  ghost predicate PopsCounted(s: State) {
    && s.h.onePops + Sum(Seeking, s.pcs) <= s.h.ones
    && |s.h.popped| == s.h.onePops + s.h.allPops
  }

  /** Distinct waits are as many as the entries. */
  lemma {:induction false} DistinctWaits(list: seq<Waiter>)
    requires forall w: nat :: Sum(IsWait(w), list) <= 1
    ensures |Waits(list)| == |list|
  {
    if list != [] {
      var e, rest := list[0], list[1..];
      forall w: nat ensures Sum(IsWait(w), rest) <= 1 {
        assert Sum(IsWait(w), list) <= 1;
      }
      DistinctWaits(rest);
      AmongWaits(e.wait, rest);
      assert Sum(IsWait(e.wait), list) <= 1;
      assert list == [e] + rest;
      assert Waits(list) == {e.wait} + Waits(rest);
    }
  }

  /** The entries of a list are distinct waits, none of them popped. */
  lemma ListedOnce(s: State, i: nat)
    requires Inv(s) && i < 3
    ensures |Waits(s.lists[i])| == |s.lists[i]|
    ensures forall w :: w in Waits(s.lists[i]) ==> w !in s.h.popped
  {
    forall w: nat
      ensures Sum(IsWait(w), s.lists[i]) <= 1
      ensures w in Waits(s.lists[i]) ==> w !in s.h.popped
    {
      AmongWaits(w, s.lists[i]);
      assert OnLists(s, w) + Bit(w in s.h.popped) + Bit(w in s.h.left) <= 1;
    }
    DistinctWaits(s.lists[i]);
  }

  lemma CountedTakeAll(s: State, t: nat)
    requires Inv(s) && PopsCounted(s) && t < |s.pcs| && s.pcs[t].Notify? && s.pcs[t].all
    ensures PopsCounted(StepOf(s, t))
  {
    var s', i := StepOf(s, t), s.pcs[t].list;
    SumUpdate(Seeking, s.pcs, t, s'.pcs[t]);
    ListedOnce(s, i);
    assert |s.h.popped + Waits(s.lists[i])| == |s.h.popped| + |Waits(s.lists[i])|;
  }

  lemma ListedIsNotPopped(s: State, i: nat, at: nat)
    requires Inv(s) && i < 3 && at < |s.lists[i]|
    ensures s.lists[i][at].wait !in s.h.popped
  {
    var w := s.lists[i][at].wait;
    SumAtLeast(IsWait(w), s.lists[i], at);
    assert OnLists(s, w) + Bit(w in s.h.popped) + Bit(w in s.h.left) <= 1;
  }

  lemma CountedPopOne(s: State, t: nat)
    requires Inv(s) && PopsCounted(s) && t < |s.pcs| && s.pcs[t].Notify? && !s.pcs[t].all
    ensures PopsCounted(StepOf(s, t))
  {
    var s', i := StepOf(s, t), s.pcs[t].list;
    SumUpdate(Seeking, s.pcs, t, s'.pcs[t]);
    if s.lists[i] != [] { ListedIsNotPopped(s, i, |s.lists[i]| - 1); }
  }

  /** A step or a call other than a notifier's removal touches no count but that of calls. */
  lemma CountedKept(s: State, s': State, t: nat)
    requires PopsCounted(s) && Moved(s, s', t)
    requires s'.h.popped == s.h.popped && s'.h.onePops == s.h.onePops && s'.h.allPops == s.h.allPops
    requires s'.h.ones + Seeking(s.pcs[t]) >= s.h.ones + Seeking(s'.pcs[t])
    ensures PopsCounted(s')
  {
    SumUpdate(Seeking, s.pcs, t, s'.pcs[t]);
  }

  lemma CountedStep(s: State, t: nat)
    requires Inv(s) && PopsCounted(s) && t < |s.pcs| && CanStep(s, t) && !s.pcs[t].Notify?
    ensures PopsCounted(StepOf(s, t))
  {
    CountedKept(s, StepOf(s, t), t);
  }

  lemma CountedNext(s: State, a: Action)
    requires Inv(s) && PopsCounted(s) && Enabled(s, a)
    ensures PopsCounted(Next(s, a))
  {
    if !a.Step? {
      CountedKept(s, Next(s, a), a.t);
    } else if !s.pcs[a.t].Notify? {
      CountedStep(s, a.t);
    } else if s.pcs[a.t].all {
      CountedTakeAll(s, a.t);
    } else {
      CountedPopOne(s, a.t);
    }
  }

  lemma {:induction false} RunCounted(s: State, schedule: seq<Action>)
    requires Inv(s) && PopsCounted(s) && Run(s, schedule).Some?
    ensures PopsCounted(Run(s, schedule).value)
    decreases |schedule|
  {
    if schedule != [] {
      InvNext(s, schedule[0]);
      CountedNext(s, schedule[0]);
      RunCounted(Next(s, schedule[0]), schedule[1..]);
    }
  }

  /** At some moment from `start` to `now` the notifier u had an entry in its hands. */
  ghost predicate PoppedSince(states: seq<State>, start: nat, now: nat, u: nat) {
    exists k :: start <= k <= now < |states| && u < |states[k].pcs| && states[k].pcs[u].Deliver?
  }

  /** A notify_one that overlooks nothing: as long as entry e has stayed on list l since the call,
      the call has popped some entry or has still to visit l. */
  lemma {:induction false} SearchContinues(states: seq<State>, schedule: seq<Action>, u: nat, start: nat, now: nat, l: nat, e: Waiter)
    requires IsTrace(Leads, states, schedule) && start < now < |states| && l < 3
    requires schedule[start] == CallNotify(u, false)
    requires forall k :: start <= k <= now ==> l < |states[k].lists| && e in states[k].lists[l]
    ensures PoppedSince(states, start, now, u) || (u < |states[now].pcs| && HasAhead(states[now].pcs[u], l))
  {
    var s, a := states[now - 1], schedule[now - 1];
    assert Leads(s, a, states[now]);
    if now > start + 1 {
      SearchContinues(states, schedule, u, start, now - 1, l, e);
      if PoppedSince(states, start, now - 1, u) {
        var k :| start <= k <= now - 1 < |states| && u < |states[k].pcs| && states[k].pcs[u].Deliver?;
        assert PoppedSince(states, start, now, u);
      } else {
        SearchStep(s, a, u, l, e);
        if states[now].pcs[u].Deliver? { assert PoppedSince(states, start, now, u); }
      }
    }
  }

  /** notify_one has yet to look at list l. */
  predicate HasAhead(p: Pc, l: nat) { p.Notify? && !p.all && p.list <= l }

  lemma SearchStep(s: State, a: Action, u: nat, l: nat, e: Waiter)
    requires WellFormed(s) && Enabled(s, a) && l < 3 && e in s.lists[l]
    requires u < |s.pcs| && HasAhead(s.pcs[u], l)
    ensures u < |Next(s, a).pcs| && (Next(s, a).pcs[u].Deliver? || HasAhead(Next(s, a).pcs[u], l))
  {
    if a.t != u { OthersStay(s, a, u); }
  }

  /** Nobody moves another thread's program point. */
  lemma OthersStay(s: State, a: Action, u: nat)
    requires WellFormed(s) && Enabled(s, a) && u < |s.pcs| && u != a.t
    ensures u < |Next(s, a).pcs| && Next(s, a).pcs[u] == s.pcs[u]
  {
    NextMoves(s, a);
  }

  // ---- notify_all ----

  /** How often the notifier's batch still contains the key. */
  function CarriesKey(k: Key): Pc -> nat {
    (p: Pc) => if p.Deliver? then Sum(HasKey(k), p.batch) else 0
  }

  function HasKey(k: Key): Waiter -> nat {
    (e: Waiter) => Bit(e.key == k)
  }

  /** The thread waits without having been woken yet. */
  predicate Sleeping(p: Pc) { p.Listed? || p.Asleep? || p.Missed? }

  predicate Checked(p: Pc) {
    (p.Register? || p.Listed? || p.Asleep? || p.Missed? || p.Check? || p.Expired?) && p.checked
  }

  /** The list of a checked wait. */
  function WaitList(p: Pc): nat
    requires Checked(p)
  {
    if p.Check? then SYNC else p.list
  }

  /** Whoever holds the guard is the mutex's owner; a checked wait begins before the predicate is
      set; `after` means what it says. */
  predicate HolderOk(s: State, t: nat)
    requires t < |s.pcs|
  {
    var p := s.pcs[t];
    && (p.Locked? || p.Register? || p.Listed? || ((p.Notify? || p.Deliver?) && p.back) ==> s.holder == Some(t))
    && (p.Register? && p.checked ==> !s.predicateSet)
    && ((p.Notify? || p.Deliver?) && p.after ==> s.predicateSet)
  }

  ghost predicate HolderInv(s: State)
    requires WellFormed(s)
  {
    && (forall i :: 0 <= i < 3 && s.h.swept[i] ==> s.predicateSet)
    && (forall t {:trigger HolderOk(s, t)} :: 0 <= t < |s.pcs| ==> HolderOk(s, t))
  }

  /** The mutex changes hands only from its holder or when it is free. */
  lemma HolderKept(s: State, s': State, t: nat)
    requires WellFormed(s) && HolderInv(s) && WellFormed(s') && Moved(s, s', t)
    requires s'.predicateSet == s.predicateSet && HolderOk(s', t)
    requires s'.holder == s.holder || s.holder == None || s.holder == Some(t)
    requires forall i :: 0 <= i < 3 && s'.h.swept[i] ==> s.h.swept[i] || s.predicateSet
    ensures HolderInv(s')
  {
    forall u | 0 <= u < |s.pcs| ensures HolderOk(s', u) {
      if u != t { assert HolderOk(s, u) && s'.pcs[u] == s.pcs[u]; }
    }
  }

  lemma WaitStepHolds(s: State, t: nat)
    requires WellFormed(s) && t < |s.pcs| && CanStep(s, t) && HolderOk(s, t)
    requires !s.pcs[t].Notify? && !s.pcs[t].Deliver?
    ensures var s' := StepOf(s, t);
      && Moved(s, s', t) && Shape(s') && InRange(s'.pcs[t]) && HolderOk(s', t)
      && s'.predicateSet == s.predicateSet && s'.h.swept == s.h.swept
      && (s'.holder == s.holder || s.holder == None || s.holder == Some(t))
  {
    assert InRange(s.pcs[t]);
  }

  lemma HolderWaitStep(s: State, t: nat)
    requires WellFormed(s) && HolderInv(s) && t < |s.pcs| && CanStep(s, t)
    requires !s.pcs[t].Notify? && !s.pcs[t].Deliver?
    ensures WellFormed(StepOf(s, t)) && HolderInv(StepOf(s, t))
  {
    assert HolderOk(s, t);
    WaitStepHolds(s, t);
    StaysWellFormed(s, StepOf(s, t), t);
    HolderKept(s, StepOf(s, t), t);
  }

  lemma HolderNotifyStep(s: State, t: nat)
    requires WellFormed(s) && HolderInv(s) && t < |s.pcs| && s.pcs[t].Notify?
    ensures WellFormed(StepOf(s, t)) && HolderInv(StepOf(s, t))
  {
    assert HolderOk(s, t) && InRange(s.pcs[t]);
    StaysWellFormed(s, StepOf(s, t), t);
    HolderKept(s, StepOf(s, t), t);
  }

  lemma HolderDeliverStep(s: State, t: nat)
    requires WellFormed(s) && HolderInv(s) && t < |s.pcs| && s.pcs[t].Deliver?
    ensures WellFormed(StepOf(s, t)) && HolderInv(StepOf(s, t))
  {
    assert HolderOk(s, t) && InRange(s.pcs[t]);
    StaysWellFormed(s, StepOf(s, t), t);
    HolderKept(s, StepOf(s, t), t);
  }

  lemma HolderCall(s: State, a: Action)
    requires Inv(s) && HolderInv(s) && Enabled(s, a) && !a.Step?
    ensures WellFormed(Next(s, a)) && HolderInv(Next(s, a))
  {
    var s' := Next(s, a);
    QuietCall(s, a);
    assert HolderOk(s, a.t) && HolderOk(s', a.t);
    forall u | 0 <= u < |s.pcs| ensures HolderOk(s', u) {
      if u != a.t { assert HolderOk(s, u) && s'.pcs[u] == s.pcs[u]; }
    }
  }

  /** The sleeper with key k on list i has its signal, is in a batch, or is listed. */
  predicate Due(s: State, i: nat, k: Key)
    requires Shape(s) && i < 3
  {
    k in s.ready || Sum(CarriesKey(k), s.pcs) > 0 || OnList(k, s.lists[i])
  }

  /** A sleeper is due; and a checked waiter is not listed once a notify_all that followed the
      predicate's setting has taken its list. */
  predicate Reached(s: State, p: Pc)
    requires Shape(s) && InRange(p)
  {
    && (Sleeping(p) ==> Due(s, p.list, p.me.key))
    && (Checked(p) && !p.Register? && s.h.swept[WaitList(p)] ==> !OnList(p.me.key, s.lists[WaitList(p)]))
  }

  ghost predicate SweepInv(s: State) {
    && Inv(s) && HolderInv(s)
    && forall t {:trigger Reached(s, s.pcs[t])} :: 0 <= t < |s.pcs| ==> Reached(s, s.pcs[t])
  }

  /** Two threads' entries have different keys. */
  lemma KeysDiffer(s: State, t: nat, u: nat)
    requires Inv(s) && t < |s.pcs| && u < |s.pcs| && t != u && InWait(s.pcs[t]) && InWait(s.pcs[u])
    ensures s.pcs[t].me.key != s.pcs[u].me.key
  {
    assert ThreadOk(s, t) && ThreadOk(s, u);
  }

  lemma KeyTotals(pcs: seq<Pc>, t: nat, p: Pc)
    requires t < |pcs|
    ensures forall k :: Sum(CarriesKey(k), pcs[t := p]) + CarriesKey(k)(pcs[t]) == Sum(CarriesKey(k), pcs) + CarriesKey(k)(p)
  {
    forall k ensures Sum(CarriesKey(k), pcs[t := p]) + CarriesKey(k)(pcs[t]) == Sum(CarriesKey(k), pcs) + CarriesKey(k)(p) {
      SumUpdate(CarriesKey(k), pcs, t, p);
    }
  }

  /** Steps that leave the lists, the batches and everybody else's signal alone. */
  lemma SweepQuiet(s: State, s': State, t: nat)
    requires SweepInv(s) && Inv(s') && HolderInv(s') && Moved(s, s', t)
    requires s'.lists == s.lists && s'.h.swept == s.h.swept
    requires forall k :: CarriesKey(k)(s'.pcs[t]) == CarriesKey(k)(s.pcs[t])
    requires forall k :: k in s.ready && k != Handle(t) ==> k in s'.ready
    requires Reached(s', s'.pcs[t])
    ensures SweepInv(s')
  {
    KeyTotals(s.pcs, t, s'.pcs[t]);
    forall u | 0 <= u < |s.pcs| ensures Reached(s', s'.pcs[u]) {
      assert Reached(s, s.pcs[u]) && ThreadOk(s, u);
      if u != t { assert s'.pcs[u] == s.pcs[u]; }
    }
  }

  /** Somebody else's unpark, a park elsewhere, and the setting of the predicate move nobody. */
  lemma SweepAside(s: State, a: Action)
    requires SweepInv(s) && Enabled(s, a) && (a.SetPredicate? || a.StrayToken? || a.StrayPark?)
    ensures SweepInv(Next(s, a))
  {
    QuietCall(s, a);
    HolderCall(s, a);
    assert Reached(s, s.pcs[a.t]);
    SweepQuiet(s, Next(s, a), a.t);
  }

  lemma SweepCall(s: State, a: Action)
    requires SweepInv(s) && Enabled(s, a)
    requires !a.Step? && !a.SetPredicate? && !a.StrayToken? && !a.StrayPark?
    ensures SweepInv(Next(s, a))
  {
    QuietCall(s, a);
    HolderCall(s, a);
    assert Reached(s, s.pcs[a.t]);
    SweepQuiet(s, Next(s, a), a.t);
  }

  lemma SweepQuietStep(s: State, t: nat)
    requires SweepInv(s) && t < |s.pcs| && CanStep(s, t)
    requires var p := s.pcs[t];
      p.Listed? || p.Missed? || p.Check? || p.Drain? || p.Relock? || (p.Deliver? && p.batch == [])
    ensures SweepInv(StepOf(s, t))
  {
    var s' := StepOf(s, t);
    InvStep(s, t);
    if s.pcs[t].Deliver? { HolderDeliverStep(s, t); } else { HolderWaitStep(s, t); }
    KeyTotals(s.pcs, t, s'.pcs[t]);
    assert Reached(s, s.pcs[t]);
    SweepQuiet(s, s', t);
  }

  lemma SweepWake(s: State, t: nat)
    requires SweepInv(s) && t < |s.pcs| && CanStep(s, t) && s.pcs[t].Asleep?
    ensures SweepInv(StepOf(s, t))
  {
    InvStep(s, t);
    HolderWaitStep(s, t);
    KeyTotals(s.pcs, t, StepOf(s, t).pcs[t]);
    assert Reached(s, s.pcs[t]) && ThreadOk(s, t);
    SweepQuiet(s, StepOf(s, t), t);
  }

  /** A registration after the sweep is never a checked one: the predicate was set already. */
  lemma SweepPush(s: State, t: nat)
    requires SweepInv(s) && t < |s.pcs| && s.pcs[t].Register?
    ensures SweepInv(StepOf(s, t))
  {
    var s', i := StepOf(s, t), s.pcs[t].list;
    InvStep(s, t);
    HolderWaitStep(s, t);
    KeyTotals(s.pcs, t, s'.pcs[t]);
    var me := s'.pcs[t].me;
    assert HolderOk(s, t) && s'.lists[i][|s.lists[i]|] == me;
    forall u | 0 <= u < |s.pcs| && u != t ensures Reached(s', s'.pcs[u]) {
      assert Reached(s, s.pcs[u]) && ThreadOk(s, u) && s'.pcs[u] == s.pcs[u];
      if InWait(s.pcs[u]) {
        KeysDiffer(s', t, u);
        ListedBefore(s.lists[i], me, s.pcs[u].me.key);
      }
    }
  }

  lemma ListedBefore(list: seq<Waiter>, me: Waiter, k: Key)
    requires k != me.key
    ensures OnList(k, list + [me]) <==> OnList(k, list)
  {
    if OnList(k, list) {
      var i :| 0 <= i < |list| && list[i].key == k;
      assert (list + [me])[i].key == k;
    }
  }

  lemma ListedApart(list: seq<Waiter>, at: nat, k: Key)
    requires at < |list| && k != list[at].key
    ensures OnList(k, list[..at] + list[at + 1..]) <==> OnList(k, list)
  {
    var rest := list[..at] + list[at + 1..];
    if OnList(k, list) {
      var i :| 0 <= i < |list| && list[i].key == k;
      assert rest[if i < at then i else i - 1].key == k;
    }
    if OnList(k, rest) {
      var i :| 0 <= i < |rest| && rest[i].key == k;
      assert list[if i < at then i else i + 1].key == k;
    }
  }

  lemma SweepTookOut(s: State, s': State, t: nat, i: nat, at: nat)
    requires SweepInv(s) && Inv(s') && HolderInv(s') && Moved(s, s', t)
    requires i < 3 && at < |s.lists[i]| && InWait(s.pcs[t]) && s.lists[i][at].key == s.pcs[t].me.key
    requires s'.lists == s.lists[i := s.lists[i][..at] + s.lists[i][at + 1..]]
    requires s.ready <= s'.ready && s'.h.swept == s.h.swept
    requires s'.pcs[t].Relock?
    ensures SweepInv(s')
  {
    KeyTotals(s.pcs, t, s'.pcs[t]);
    forall u | 0 <= u < |s.pcs| && u != t ensures Reached(s', s'.pcs[u]) {
      assert Reached(s, s.pcs[u]) && s'.pcs[u] == s.pcs[u];
      if InWait(s.pcs[u]) {
        KeysDiffer(s, t, u);
        ListedApart(s.lists[i], at, s.pcs[u].me.key);
      }
    }
  }

  lemma SweepLeave(s: State, t: nat)
    requires SweepInv(s) && t < |s.pcs| && s.pcs[t].Expired?
    ensures SweepInv(StepOf(s, t))
  {
    var s', i, me := StepOf(s, t), s.pcs[t].list, s.pcs[t].me;
    InvStep(s, t);
    HolderWaitStep(s, t);
    if OnList(me.key, s.lists[i]) {
      SweepTookOut(s, s', t, i, Position(me.key, s.lists[i]));
    } else {
      KeyTotals(s.pcs, t, s'.pcs[t]);
      SweepQuiet(s, s', t);
    }
  }

  lemma OnListCounts(k: Key, list: seq<Waiter>)
    ensures OnList(k, list) <==> Sum(HasKey(k), list) > 0
  {
    if Sum(HasKey(k), list) > 0 {
      var i := SumWitness(HasKey(k), list);
      assert list[i].key == k;
    }
    if OnList(k, list) {
      var i :| 0 <= i < |list| && list[i].key == k;
      SumAtLeast(HasKey(k), list, i);
    }
  }

  /** What a notifier removes from a list it carries in its batch. */
  lemma SweepRemove(s: State, s': State, t: nat, i: nat)
    requires SweepInv(s) && Inv(s') && HolderInv(s') && Moved(s, s', t) && i < 3
    requires s.pcs[t].Notify? && s'.pcs[t].Deliver? && s.lists[i] == s'.lists[i] + s'.pcs[t].batch
    requires s'.ready == s.ready
    requires forall j :: 0 <= j < 3 && j != i ==> s'.lists[j] == s.lists[j] && s'.h.swept[j] == s.h.swept[j]
    requires s'.h.swept[i] ==> s.h.swept[i] || s'.lists[i] == []
    ensures SweepInv(s')
  {
    KeyTotals(s.pcs, t, s'.pcs[t]);
    forall u | 0 <= u < |s.pcs| ensures Reached(s', s'.pcs[u]) {
      assert Reached(s, s.pcs[u]);
      if u != t {
        assert s'.pcs[u] == s.pcs[u];
        if InWait(s.pcs[u]) {
          var k := s.pcs[u].me.key;
          SumConcat(HasKey(k), s'.lists[i], s'.pcs[t].batch);
          OnListCounts(k, s.lists[i]);
          OnListCounts(k, s'.lists[i]);
        }
      }
    }
  }

  lemma SweepTakeAll(s: State, t: nat)
    requires SweepInv(s) && t < |s.pcs| && s.pcs[t].Notify? && s.pcs[t].all
    ensures SweepInv(StepOf(s, t))
  {
    InvStep(s, t);
    HolderNotifyStep(s, t);
    SweepRemove(s, StepOf(s, t), t, s.pcs[t].list);
  }

  lemma SweepPopOne(s: State, t: nat)
    requires SweepInv(s) && t < |s.pcs| && s.pcs[t].Notify? && !s.pcs[t].all
    ensures SweepInv(StepOf(s, t))
  {
    InvStep(s, t);
    HolderNotifyStep(s, t);
    if s.lists[s.pcs[t].list] == [] {
      SweepQuiet(s, StepOf(s, t), t);
    } else {
      SweepRemove(s, StepOf(s, t), t, s.pcs[t].list);
    }
  }

  lemma SweepDeliver(s: State, t: nat)
    requires SweepInv(s) && t < |s.pcs| && s.pcs[t].Deliver? && s.pcs[t].batch != []
    ensures SweepInv(StepOf(s, t))
  {
    var s' := StepOf(s, t);
    InvStep(s, t);
    HolderDeliverStep(s, t);
    KeyTotals(s.pcs, t, s'.pcs[t]);
    forall u | 0 <= u < |s.pcs| ensures Reached(s', s'.pcs[u]) {
      assert Reached(s, s.pcs[u]);
      if u != t { assert s'.pcs[u] == s.pcs[u]; }
    }
  }

  lemma SweepNext(s: State, a: Action)
    requires SweepInv(s) && Enabled(s, a)
    ensures SweepInv(Next(s, a))
  {
    if a.SetPredicate? || a.StrayToken? || a.StrayPark? {
      SweepAside(s, a);
    } else if !a.Step? {
      SweepCall(s, a);
    } else {
      var p := s.pcs[a.t];
      if p.Register? {
        SweepPush(s, a.t);
      } else if p.Asleep? {
        SweepWake(s, a.t);
      } else if p.Expired? {
        SweepLeave(s, a.t);
      } else if p.Notify? {
        if p.all { SweepTakeAll(s, a.t); } else { SweepPopOne(s, a.t); }
      } else if p.Deliver? && p.batch != [] {
        SweepDeliver(s, a.t);
      } else {
        SweepQuietStep(s, a.t);
      }
    }
  }

  lemma {:induction false} RunSweep(s: State, schedule: seq<Action>)
    requires SweepInv(s) && Run(s, schedule).Some?
    ensures SweepInv(Run(s, schedule).value)
    decreases |schedule|
  {
    if schedule != [] {
      SweepNext(s, schedule[0]);
      RunSweep(Next(s, schedule[0]), schedule[1..]);
    }
  }
}
