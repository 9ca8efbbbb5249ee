/** The condition variable as an object updated in place: one method per atomic step of the
    source, each proved to be the corresponding move of CondvarModel and to keep its invariants.

    The threads, the user's mutex and the predicate they wait for are part of the object, because
    a step is always the step of one thread.  What only the proofs speak of, the numbers of popped
    and self-removed waits and their outcomes, is the ghost field `h`.
 */
module CondvarObject {
  import opened Parking
  import opened Sums
  import opened CondvarModel
  import opened CondvarAccounting
  import opened CondvarNotify

  /** `iter().position(..)`: the first entry with the key. */
  method FindKey(list: seq<Waiter>, k: Key) returns (at: Option<nat>)
    ensures at.Some? <==> OnList(k, list)
    ensures at.Some? ==> at.value == Position(k, list)
  {
    var i := 0;
    while i < |list|
      invariant 0 <= i <= |list|
      invariant forall j :: 0 <= j < i ==> list[j].key != k
    {
      if list[i].key == k {
        assert OnList(k, list);
        var p := Position(k, list);
        return Some(i);
      }
      i := i + 1;
    }
    at := None;
  }

  lemma InitSweep(threads: nat)
    ensures SweepInv(Init(threads))
  {
    InitInv(threads);
  }

  lemma InitCounted(threads: nat)
    ensures PopsCounted(Init(threads))
  {
    SumZero(Seeking, Init(threads).pcs);
  }

  lemma TakesAll(s: State, t: nat)
    requires WellFormed(s) && t < |s.pcs| && s.pcs[t].Notify? && s.pcs[t].all
    ensures Enabled(s, Step(t))
    ensures var p := s.pcs[t];
      var batch := s.lists[p.list];
      Next(s, Step(t)) ==
        State(s.holder, s.predicateSet, s.lists[p.list := []], s.ready,
              s.pcs[t := Deliver(p.list, batch, true, p.after, p.back)],
              s.h.(popped := s.h.popped + Waits(batch), allPops := s.h.allPops + |batch|,
                   swept := if p.after then s.h.swept[p.list := true] else s.h.swept))
  {}

  lemma PopsOne(s: State, t: nat)
    requires WellFormed(s) && t < |s.pcs| && s.pcs[t].Notify? && !s.pcs[t].all && s.lists[s.pcs[t].list] != []
    ensures Enabled(s, Step(t))
    ensures var p := s.pcs[t];
      var last := |s.lists[p.list]| - 1;
      var e := s.lists[p.list][last];
      Next(s, Step(t)) ==
        State(s.holder, s.predicateSet, s.lists[p.list := s.lists[p.list][..last]], s.ready,
              s.pcs[t := Deliver(p.list, [e], false, p.after, p.back)],
              s.h.(popped := s.h.popped + {e.wait}, onePops := s.h.onePops + 1))
  {}

  lemma Passes(s: State, t: nat)
    requires WellFormed(s) && t < |s.pcs| && s.pcs[t].Notify? && !s.pcs[t].all && s.lists[s.pcs[t].list] == []
    ensures Enabled(s, Step(t))
    ensures var p := s.pcs[t];
      Next(s, Step(t)) ==
        s.(pcs := s.pcs[t := if p.list < ASYNC then Notify(p.list + 1, false, p.after, p.back) else Done(p.back)])
  {}

  lemma Leaves(s: State, t: nat, at: nat)
    requires WellFormed(s) && t < |s.pcs| && s.pcs[t].Expired?
    requires OnList(s.pcs[t].me.key, s.lists[s.pcs[t].list])
    requires at == Position(s.pcs[t].me.key, s.lists[s.pcs[t].list])
    ensures Enabled(s, Step(t))
    ensures var i, me := s.pcs[t].list, s.pcs[t].me;
      Next(s, Step(t)) ==
        State(s.holder, s.predicateSet, s.lists[i := s.lists[i][..at] + s.lists[i][at + 1..]],
              if i == ASYNC then s.ready + {me.key} else s.ready, s.pcs[t := Relock(i, me, true)],
              s.h.(left := s.h.left + {s.lists[i][at].wait}))
  {}

  function WaiterKeys(list: seq<Waiter>): set<Key> { set e | e in list :: e.key }

  /** Of the entries `all`, those in `rest` are still to be woken. */
  ghost predicate Delivered(was: set<Key>, all: seq<Waiter>, now: set<Key>, rest: seq<Waiter>) {
    now + WaiterKeys(rest) == was + WaiterKeys(all)
  }

  lemma DeliveredNext(was: set<Key>, all: seq<Waiter>, now: set<Key>, rest: seq<Waiter>)
    requires Delivered(was, all, now, rest) && rest != []
    ensures Delivered(was, all, now + {rest[0].key}, rest[1..])
  {
    assert rest == [rest[0]] + rest[1..];
    assert WaiterKeys(rest) == {rest[0].key} + WaiterKeys(rest[1..]);
  }

  lemma DeliveredAll(was: set<Key>, all: seq<Waiter>, now: set<Key>)
    requires Delivered(was, all, now, [])
    ensures now == was + WaiterKeys(all)
  {
    assert WaiterKeys([]) == {};
  }

  /** The key of the entry that a notify_one which starts at list i removes. */
  function Newest(lists: seq<seq<Waiter>>, i: nat): set<Key>
    requires i <= |lists|
  {
    var b := FirstBusy(lists, i);
    if b == |lists| then {} else {lists[b][|lists[b]| - 1].key}
  }

  /** The keys on the lists from i on. */
  function WaiterKeysFrom(lists: seq<seq<Waiter>>, i: nat): set<Key>
    requires i <= |lists|
    decreases |lists| - i
  {
    if i == |lists| then {} else WaiterKeys(lists[i]) + WaiterKeysFrom(lists, i + 1)
  }

  lemma WaiterKeysAfter(lists: seq<seq<Waiter>>, i: nat, j: nat, list: seq<Waiter>)
    requires i < j <= |lists|
    ensures WaiterKeysFrom(lists[i := list], j) == WaiterKeysFrom(lists, j)
    decreases |lists| - j
  {
    if j < |lists| { WaiterKeysAfter(lists, i, j + 1, list); }
  }

  lemma AllKeys(lists: seq<seq<Waiter>>)
    requires |lists| == 3
    ensures WaiterKeysFrom(lists, 0) == WaiterKeys(lists[SPIN]) + WaiterKeys(lists[SYNC]) + WaiterKeys(lists[ASYNC])
  {
    assert WaiterKeysFrom(lists, 2) == WaiterKeys(lists[2]) + WaiterKeysFrom(lists, 3);
  }

  /** The list without its first entry with the key. */
  function Without(k: Key, list: seq<Waiter>): seq<Waiter> {
    if OnList(k, list) then list[..Position(k, list)] + list[Position(k, list) + 1..] else list
  }

  /** An entry at the end is the one that goes, unless there is an earlier one with the key. */
  lemma LastWithout(list: seq<Waiter>, me: Waiter)
    ensures OnList(me.key, list + [me])
    ensures Without(me.key, list + [me]) == if OnList(me.key, list) then Without(me.key, list) + [me] else list
  {
    var more := list + [me];
    assert more[|list|].key == me.key;
    var at := Position(me.key, more);
    if OnList(me.key, list) {
      var p := Position(me.key, list);
      assert more[p].key == me.key && forall j :: 0 <= j < p ==> more[j] == list[j];
      assert at == p;
    } else {
      assert forall j :: 0 <= j < |list| ==> more[j] == list[j];
      assert at == |list|;
    }
  }

  /** Where notify_all stands once a list is dealt with. */
  function AfterBatch(p: Pc): Pc
    requires p.Notify? || p.Deliver?
  {
    if p.list < ASYNC then Notify(p.list + 1, true, p.after, p.back) else Done(p.back)
  }

  class Condvar {
    /** waiting_spin_threads, waiting_sync_threads, waiting_async_threads */
    var waiting: seq<seq<Waiter>>
    /** the next flag or async waiter id */
    var nextWait: nat

    /** The user's mutex and predicate, and the threads. */
    var holder: Option<nat>
    var predicateSet: bool
    var ready: set<Key>
    var pcs: seq<Pc>

    ghost var h: History

    ghost function View(): State
      reads this
    {
      State(holder, predicateSet, waiting, ready, pcs, h)
    }

    ghost predicate Valid()
      reads this
    {
      SweepInv(View()) && PopsCounted(View()) && nextWait == |h.kinds|
    }

    constructor (threads: nat)
      ensures Valid()
      ensures View() == Init(threads)
    {
      waiting, nextWait, holder, predicateSet := [[], [], []], 0, None, false;
      ready, pcs := {}, seq(threads, _ => Idle);
      h := Init(threads).h;
      new;
      InitSweep(threads);
      InitCounted(threads);
    }

    twostate lemma Kept(a: Action)
      requires old(Valid()) && Enabled(old(View()), a) && View() == Next(old(View()), a)
      ensures SweepInv(View()) && PopsCounted(View())
    {
      SweepNext(old(View()), a);
      CountedNext(old(View()), a);
    }

    /** The user's mutex is taken, released, or guards the setting of the predicate. */
    method UseMutex(t: nat, a: Action)
      requires Valid() && a.t == t && Enabled(View(), a) && (a.Lock? || a.Unlock? || a.SetPredicate?)
      modifies this`holder, this`predicateSet, this`pcs
      ensures Valid()
      ensures View() == Next(old(View()), a)
    {
      match a {
        case Lock(_) => holder, pcs := Some(t), pcs[t := Locked];
        case Unlock(_) => holder, pcs := None, pcs[t := Idle];
        case SetPredicate(_) => predicateSet := true;
      }
      Kept(a);
    }

    /** Entering one of the wait functions with the guard. */
    method BeginWait(t: nat, list: nat, timed: bool, checked: bool)
      requires Valid() && t < |pcs| && pcs[t].Locked? && list < 3 && (checked ==> !predicateSet)
      modifies this`pcs
      ensures Valid()
      ensures View() == Next(old(View()), CallWait(t, list, timed, checked))
    {
      pcs := pcs[t := Register(list, timed, checked)];
      Kept(CallWait(t, list, timed, checked));
    }

    /** Register before the mutex is released: a handle, a new flag, or a new continuation. */
    method RegisterSelf(t: nat)
      requires Valid() && t < |pcs| && pcs[t].Register?
      modifies this`waiting, this`nextWait, this`pcs, this`h
      ensures Valid()
      ensures View() == Next(old(View()), Step(t))
      ensures pcs[t].Listed? && waiting[old(pcs[t]).list] == old(waiting)[old(pcs[t]).list] + [pcs[t].me]
      ensures forall w: nat :: w == pcs[t].me.wait ==> OnLists(View(), w) == 1
    {
      h := h.(kinds := h.kinds + [pcs[t].list], owners := h.owners + [t]);
      var i := pcs[t].list;
      var me := Waiter(if i == SYNC then Handle(t) else Cont(nextWait), nextWait);
      waiting := waiting[i := waiting[i] + [me]];
      pcs := pcs[t := Listed(i, me, pcs[t].timed, pcs[t].checked)];
      nextWait := nextWait + 1;
      Kept(Step(t));
      AtMostOnce(me.wait);
      SumAtLeast(IsWait(me.wait), waiting[i], |waiting[i]| - 1);
    }

    lemma AtMostOnce(w: nat)
      requires Inv(View())
      ensures OnLists(View(), w) <= 1
    {
      assert OnLists(View(), w) + Bit(w in h.popped) + Bit(w in h.left) == Bit(w < |h.kinds|);
    }

    /** drop(guard) inside a wait. */
    method ReleaseMutex(t: nat)
      requires Valid() && t < |pcs| && pcs[t].Listed?
      modifies this`holder, this`pcs
      ensures Valid()
      ensures View() == Next(old(View()), Step(t))
      ensures old(holder) == Some(t) && holder == None
    {
      assert HolderOk(View(), t);
      var p := pcs[t];
      holder := None;
      pcs := pcs[t := Asleep(p.list, p.me, p.timed, p.checked)];
      Kept(Step(t));
    }

    /** park or park_timeout returns with the token, the flag is loaded, or the future is polled. */
    method Notice(t: nat)
      requires Valid() && t < |pcs| && pcs[t].Asleep? && CanStep(View(), t)
      modifies this`ready, this`pcs
      ensures Valid()
      ensures View() == Next(old(View()), Step(t))
    {
      var p := pcs[t];
      if p.list == SYNC {
        ready := ready - {p.me.key};
        pcs := pcs[t := if p.timed then Check(p.me, p.checked) else Relock(SYNC, p.me, false)];
      } else if p.me.key in ready {
        pcs := pcs[t := Relock(p.list, p.me, false)];
      } else {
        pcs := pcs[t := Missed(p.list, p.me, p.checked)];
      }
      Kept(Step(t));
    }

    method NoticeSpuriously(t: nat)
      requires Valid() && t < |pcs| && pcs[t].Asleep? && pcs[t].list == SYNC
      modifies this`pcs
      ensures Valid()
      ensures View() == Next(old(View()), Spurious(t))
    {
      var p := pcs[t];
      pcs := pcs[t := if p.timed then Check(p.me, p.checked) else Relock(SYNC, p.me, false)];
      Kept(Spurious(t));
    }

    /** The clock: not yet ... */
    method SpinAgain(t: nat)
      requires Valid() && t < |pcs| && pcs[t].Missed?
      modifies this`pcs
      ensures Valid()
      ensures View() == Next(old(View()), Step(t))
    {
      pcs := pcs[t := Asleep(pcs[t].list, pcs[t].me, true, pcs[t].checked)];
      Kept(Step(t));
    }

    /** ... or the deadline has passed. */
    method DeadlinePassed(t: nat)
      requires Valid() && t < |pcs| && Enabled(View(), Expire(t))
      modifies this`pcs
      ensures Valid()
      ensures View() == Next(old(View()), Expire(t))
    {
      pcs := pcs[t := Expired(pcs[t].list, pcs[t].me, pcs[t].checked)];
      Kept(Expire(t));
    }

    /** After park_timeout: notified if and only if no entry of this thread is listed. */
    method WasNotified(t: nat) returns (notified: bool)
      requires Valid() && t < |pcs| && pcs[t].Check?
      modifies this`pcs
      ensures Valid()
      ensures View() == Next(old(View()), Step(t))
      ensures notified <==> !OnList(old(pcs[t]).me.key, waiting[SYNC])
    {
      var p := pcs[t];
      var at := FindKey(waiting[SYNC], p.me.key);
      notified := at == None;
      pcs := pcs[t := if notified then Relock(SYNC, p.me, false) else Asleep(SYNC, p.me, true, p.checked)];
      Kept(Step(t));
    }

    /** threads.remove(pos): the wait ends as timed out. */
    method TakeSelfOut(t: nat, at: nat)
      requires Valid() && t < |pcs| && pcs[t].Expired?
      requires OnList(pcs[t].me.key, waiting[pcs[t].list]) && at == Position(pcs[t].me.key, waiting[pcs[t].list])
      modifies this`waiting, this`ready, this`pcs, this`h
      ensures Valid()
      ensures View() == Next(old(View()), Step(t))
    {
      var i, me := pcs[t].list, pcs[t].me;
      Leaves(View(), t, at);
      h := h.(left := h.left + {waiting[i][at].wait});
      waiting := waiting[i := waiting[i][..at] + waiting[i][at + 1..]];
      if i == ASYNC { ready := ready + {me.key}; }
      pcs := pcs[t := Relock(i, me, true)];
      Kept(Step(t));
    }

    /** Nothing to remove: somebody popped the entry already. */
    method FindSelfGone(t: nat)
      requires Valid() && t < |pcs| && pcs[t].Expired? && !OnList(pcs[t].me.key, waiting[pcs[t].list])
      modifies this`pcs
      ensures Valid()
      ensures View() == Next(old(View()), Step(t))
    {
      var i, me := pcs[t].list, pcs[t].me;
      pcs := pcs[t := if i == SPIN then Drain(me) else Relock(i, me, i == ASYNC)];
      Kept(Step(t));
    }

    /** At the deadline: leave the list, or find that somebody popped the entry already. */
    method RemoveSelf(t: nat) returns (notified: bool)
      requires Valid() && t < |pcs| && pcs[t].Expired?
      modifies this`waiting, this`ready, this`pcs, this`h
      ensures Valid()
      ensures View() == Next(old(View()), Step(t))
      ensures notified <==> !OnList(old(pcs[t]).me.key, old(waiting)[old(pcs[t]).list])
    {
      var at := FindKey(waiting[pcs[t].list], pcs[t].me.key);
      notified := at == None;
      if notified {
        FindSelfGone(t);
      } else {
        TakeSelfOut(t, at.value);
      }
    }

    /** The flag of a popped spin wait is finally set. */
    method Drained(t: nat)
      requires Valid() && t < |pcs| && pcs[t].Drain? && CanStep(View(), t)
      modifies this`pcs
      ensures Valid()
      ensures View() == Next(old(View()), Step(t))
    {
      pcs := pcs[t := Relock(SPIN, pcs[t].me, false)];
      Kept(Step(t));
    }

    /** Re-acquire the mutex and return. */
    method Reacquire(t: nat) returns (timedOut: bool)
      requires Valid() && t < |pcs| && pcs[t].Relock? && holder == None
      modifies this`holder, this`pcs, this`h
      ensures Valid()
      ensures View() == Next(old(View()), Step(t))
      ensures timedOut == old(pcs[t]).timedOut && h.outcomes == old(h.outcomes)[old(pcs[t]).me.wait := timedOut]
      ensures old(pcs[t]).list == SPIN ==> (timedOut <==> old(pcs[t]).me.wait in h.left)
      ensures old(pcs[t]).list == SPIN ==> (timedOut <==> old(pcs[t]).me.wait !in h.popped)
    {
      var me := pcs[t].me;
      timedOut := pcs[t].timedOut;
      assert PhaseOk(View(), pcs[t], SPIN) && ThreadOk(View(), t);
      assert OnLists(View(), me.wait) + Bit(me.wait in h.popped) + Bit(me.wait in h.left) == Bit(me.wait < |h.kinds|);
      h := h.(outcomes := h.outcomes[me.wait := timedOut]);
      holder := Some(t);
      pcs := pcs[t := Locked];
      Kept(Step(t));
    }

    method BeginNotify(t: nat, all: bool)
      requires Valid() && t < |pcs| && (pcs[t].Idle? || pcs[t].Locked?)
      modifies this`pcs, this`h
      ensures Valid()
      ensures View() == Next(old(View()), CallNotify(t, all))
      ensures pcs == old(pcs)[t := Notify(SPIN, all, predicateSet, old(pcs[t]).Locked?)]
      ensures h.ones == old(h.ones) + Bit(!all) && h.onePops == old(h.onePops)
    {
      if !all { h := h.(ones := h.ones + 1); }
      pcs := pcs[t := Notify(SPIN, all, predicateSet, pcs[t].Locked?)];
      Kept(CallNotify(t, all));
    }

    /** notify_all's mem::take of one list. */
    method TakeWaiting(t: nat)
      requires Valid() && t < |pcs| && pcs[t].Notify? && pcs[t].all
      modifies this`waiting, this`pcs, this`h
      ensures Valid()
      ensures View() == Next(old(View()), Step(t))
      ensures waiting == old(waiting)[old(pcs[t]).list := []]
      ensures h.swept == if old(pcs[t]).after then old(h.swept)[old(pcs[t]).list := true] else old(h.swept)
      ensures var p := old(pcs[t]);
        pcs == old(pcs)[t := Deliver(p.list, old(waiting)[p.list], true, p.after, p.back)]
    {
      var p := pcs[t];
      var batch := waiting[p.list];
      TakesAll(View(), t);
      h := h.(popped := h.popped + Waits(batch), allPops := h.allPops + |batch|,
              swept := if p.after then h.swept[p.list := true] else h.swept);
      waiting := waiting[p.list := []];
      pcs := pcs[t := Deliver(p.list, batch, true, p.after, p.back)];
      Kept(Step(t));
    }

    /** threads.pop(): the newest entry. */
    method PopNewest(t: nat)
      requires Valid() && t < |pcs| && pcs[t].Notify? && !pcs[t].all && waiting[pcs[t].list] != []
      modifies this`waiting, this`pcs, this`h
      ensures Valid()
      ensures View() == Next(old(View()), Step(t))
      ensures h.onePops == old(h.onePops) + 1
    {
      var p := pcs[t];
      var last := |waiting[p.list]| - 1;
      var e := waiting[p.list][last];
      PopsOne(View(), t);
      h := h.(popped := h.popped + {e.wait}, onePops := h.onePops + 1);
      waiting := waiting[p.list := waiting[p.list][..last]];
      pcs := pcs[t := Deliver(p.list, [e], false, p.after, p.back)];
      Kept(Step(t));
    }

    /** The list is empty: on to the next one. */
    method PassList(t: nat)
      requires Valid() && t < |pcs| && pcs[t].Notify? && !pcs[t].all && waiting[pcs[t].list] == []
      modifies this`pcs
      ensures Valid()
      ensures View() == Next(old(View()), Step(t))
    {
      var p := pcs[t];
      Passes(View(), t);
      pcs := pcs[t := if p.list < ASYNC then Notify(p.list + 1, false, p.after, p.back) else Done(p.back)];
      Kept(Step(t));
    }

    /** notify_one's pop from one list: the newest entry, or on to the next list. */
    method PopWaiting(t: nat) returns (found: bool)
      requires Valid() && t < |pcs| && pcs[t].Notify? && !pcs[t].all
      modifies this`waiting, this`pcs, this`h
      ensures Valid()
      ensures View() == Next(old(View()), Step(t))
      ensures found <==> old(waiting)[old(pcs[t]).list] != []
      ensures h.onePops == old(h.onePops) + if found then 1 else 0
    {
      found := waiting[pcs[t].list] != [];
      if found {
        PopNewest(t);
      } else {
        PassList(t);
      }
    }

    /** Store a flag, unpark a thread, or send; or finish the batch. */
    method DeliverOne(t: nat)
      requires Valid() && t < |pcs| && pcs[t].Deliver?
      modifies this`ready, this`pcs
      ensures Valid()
      ensures View() == Next(old(View()), Step(t))
      ensures var p := old(pcs[t]);
        if p.batch != [] then
          ready == old(ready) + {p.batch[0].key} && pcs == old(pcs)[t := p.(batch := p.batch[1..])]
        else
          ready == old(ready) && pcs == old(pcs)[t := if p.all then AfterBatch(p) else Done(p.back)]
    {
      var p := pcs[t];
      if p.batch != [] {
        ready := ready + {p.batch[0].key};
        pcs := pcs[t := Deliver(p.list, p.batch[1..], p.all, p.after, p.back)];
      } else {
        pcs := pcs[t := if p.all && p.list < ASYNC then Notify(p.list + 1, true, p.after, p.back) else Done(p.back)];
      }
      Kept(Step(t));
    }

    // ---- whole waits, when nobody interferes ----

    method EnterList(t: nat, list: nat, timed: bool, checked: bool)
      requires Valid() && t < |pcs| && pcs[t].Locked? && list < 3 && (checked ==> !predicateSet)
      modifies this`waiting, this`nextWait, this`pcs, this`h
      ensures Valid() && nextWait == old(nextWait) + 1
      ensures var me := Waiter(if list == SYNC then Handle(t) else Cont(old(nextWait)), old(nextWait));
        && waiting == old(waiting)[list := old(waiting)[list] + [me]]
        && pcs == old(pcs)[t := Listed(list, me, timed, checked)]
    {
      BeginWait(t, list, timed, checked);
      RegisterSelf(t);
    }

    /** From the call to the sleep: exactly one new entry is listed, and the mutex is free. */
    method FallAsleep(t: nat, list: nat, timed: bool, checked: bool)
      requires Valid() && t < |pcs| && pcs[t].Locked? && list < 3 && (checked ==> !predicateSet)
      modifies this`waiting, this`nextWait, this`holder, this`pcs, this`h
      ensures Valid() && holder == None && nextWait == old(nextWait) + 1
      ensures var me := Waiter(if list == SYNC then Handle(t) else Cont(old(nextWait)), old(nextWait));
        && waiting == old(waiting)[list := old(waiting)[list] + [me]]
        && pcs == old(pcs)[t := Asleep(list, me, timed, checked)]
    {
      EnterList(t, list, timed, checked);
      SetTwice(old(pcs), t, pcs[t], Asleep(list, pcs[t].me, timed, checked));
      ReleaseMutex(t);
    }

    /** From a sleep that nobody ends to the end of the deadline's check. */
    method PassDeadline(t: nat)
      requires Valid() && t < |pcs| && pcs[t].Asleep? && pcs[t].timed
      requires pcs[t].list != SYNC ==> pcs[t].me.key !in ready
      modifies this`ready, this`pcs
      ensures Valid() && ready == old(ready)
      ensures pcs == old(pcs)[t := Expired(old(pcs[t]).list, old(pcs[t]).me, old(pcs[t]).checked)]
    {
      if pcs[t].list != SYNC { Notice(t); }
      DeadlinePassed(t);
    }

    /** The self-removal of a wait whose key is listed. */
    method LeaveList(t: nat)
      requires Valid() && t < |pcs| && pcs[t].Expired? && OnList(pcs[t].me.key, waiting[pcs[t].list])
      modifies this`waiting, this`ready, this`pcs, this`h
      ensures Valid()
      ensures var i, me := old(pcs[t]).list, old(pcs[t]).me;
        && waiting == old(waiting)[i := Without(me.key, old(waiting)[i])]
        && ready == (if i == ASYNC then old(ready) + {me.key} else old(ready))
        && pcs == old(pcs)[t := Relock(i, me, true)]
    {
      var notified := RemoveSelf(t);
    }

    /** The return with the mutex, if it is free. */
    method Return(t: nat) returns (timedOut: bool)
      requires Valid() && t < |pcs| && pcs[t].Relock? && holder == None
      modifies this`holder, this`pcs, this`h
      ensures Valid() && holder == Some(t) && timedOut == old(pcs[t]).timedOut
      ensures pcs == old(pcs)[t := Locked]
      ensures h == old(h).(outcomes := old(h.outcomes)[old(pcs[t]).me.wait := timedOut])
    {
      timedOut := Reacquire(t);
    }

    /** From a sleep that nobody ends to the return. */
    method GiveUp(t: nat) returns (timedOut: bool)
      requires Valid() && t < |pcs| && pcs[t].Asleep? && pcs[t].timed && holder == None
      requires pcs[t].list != SYNC ==> pcs[t].me.key !in ready
      requires OnList(pcs[t].me.key, waiting[pcs[t].list])
      modifies this`waiting, this`holder, this`ready, this`pcs, this`h
      ensures Valid() && timedOut && holder == Some(t) && pcs == old(pcs)[t := Locked]
      ensures var i, me := old(pcs[t]).list, old(pcs[t]).me;
        && waiting == old(waiting)[i := Without(me.key, old(waiting)[i])]
        && ready == if i == ASYNC then old(ready) + {me.key} else old(ready)
    {
      PassDeadline(t);
      LeaveList(t);
      timedOut := Return(t);
    }

    /** wait_spin_timeout, wait_block_timeout and wait_async_timeout when nobody notifies: the call
        returns with the mutex and reports a timeout, and the lists are what they were before it.
        Only where the list of threads held an older entry of this thread is it that entry which is
        gone, and the new one left in its place. */
    method WaitInVain(t: nat, list: nat, checked: bool) returns (timedOut: bool)
      requires Valid() && t < |pcs| && pcs[t].Locked? && list < 3 && (checked ==> !predicateSet)
      modifies this`waiting, this`nextWait, this`holder, this`ready, this`pcs, this`h
      ensures Valid() && timedOut && holder == Some(t) && pcs == old(pcs)
      ensures ready == if list == ASYNC then old(ready) + {Cont(old(nextWait))} else old(ready)
      ensures (list == SYNC ==> !OnList(Handle(t), old(waiting)[SYNC])) ==> waiting == old(waiting)
      ensures list == SYNC && OnList(Handle(t), old(waiting)[SYNC]) ==>
                waiting == old(waiting)[SYNC := Without(Handle(t), old(waiting)[SYNC])
                                                + [Waiter(Handle(t), old(nextWait))]]
    {
      FreshKey(list);
      FallAsleep(t, list, true, checked);
      LastWithout(old(waiting)[list], pcs[t].me);
      timedOut := GiveUp(t);
    }

    /** The key of the next wait is set nowhere and, on a list of flags or continuations, listed nowhere. */
    lemma FreshKey(list: nat)
      requires Inv(View()) && nextWait == |h.kinds| && list < 3
      ensures Cont(nextWait) !in ready
      ensures list != SYNC ==> !OnList(Cont(nextWait), waiting[list])
    {
      forall e | e in waiting[list] && list != SYNC ensures e.key != Cont(nextWait) {
        assert EntryOk(View(), list, e);
      }
    }

    /** A wait whose token, flag or continuation is set returns with the mutex and without a timeout,
        unless it is a wait_block_timeout whose thread is listed, which goes back to sleep. */
    method WakeUp(t: nat)
      requires Valid() && t < |pcs| && pcs[t].Asleep? && pcs[t].me.key in ready && holder == None
      modifies this`holder, this`ready, this`pcs, this`h
      ensures Valid() && ready == if old(pcs[t]).list == SYNC then old(ready) - {old(pcs[t]).me.key} else old(ready)
      ensures var p := old(pcs[t]);
        if p.list == SYNC && p.timed && OnList(p.me.key, waiting[SYNC]) then
          pcs == old(pcs) && holder == None && h == old(h)
        else
          && pcs == old(pcs)[t := Locked] && holder == Some(t)
          && h == old(h).(outcomes := old(h.outcomes)[p.me.wait := false])
    {
      var back := LookUp(t);
      if back { var timedOut := Return(t); }
    }

    /** The park returns, or the poll finds the flag or continuation set; wait_block_timeout then looks
        whether its thread is still listed. */
    method LookUp(t: nat) returns (back: bool)
      requires Valid() && t < |pcs| && pcs[t].Asleep? && pcs[t].me.key in ready
      modifies this`ready, this`pcs
      ensures Valid() && ready == if old(pcs[t]).list == SYNC then old(ready) - {old(pcs[t]).me.key} else old(ready)
      ensures var p := old(pcs[t]);
        && (back <==> !(p.list == SYNC && p.timed && OnList(p.me.key, waiting[SYNC])))
        && pcs == if back then old(pcs)[t := Relock(p.list, p.me, false)] else old(pcs)
    {
      back := true;
      Notice(t);
      if pcs[t].Check? { back := WasNotified(t); }
    }

    // ---- the notifiers from start to end, when nobody interferes ----

    /** The popped entry is woken and the call returns. */
    method HandOver(t: nat)
      requires Valid() && t < |pcs| && pcs[t].Deliver? && !pcs[t].all && |pcs[t].batch| == 1
      modifies this`ready, this`pcs
      ensures Valid()
      ensures ready == old(ready) + {old(pcs[t]).batch[0].key}
      ensures pcs == old(pcs)[t := Done(old(pcs[t]).back)]
    {
      DeliverOne(t);
      DeliverOne(t);
    }

    /** One list of notify_one: its newest entry is removed and woken ... */
    method VisitBusy(t: nat)
      requires Valid() && t < |pcs| && pcs[t].Notify? && !pcs[t].all && waiting[pcs[t].list] != []
      modifies this`waiting, this`ready, this`pcs, this`h
      ensures Valid()
      ensures var i, list := old(pcs[t]).list, old(waiting)[old(pcs[t]).list];
        waiting == old(waiting)[i := list[..|list| - 1]] && ready == old(ready) + {list[|list| - 1].key}
      ensures pcs == old(pcs)[t := Done(old(pcs[t]).back)]
      ensures h.ones == old(h.ones) && h.onePops == old(h.onePops) + 1
    {
      PopNewest(t);
      SetTwice(old(pcs), t, pcs[t], Done(old(pcs[t]).back));
      HandOver(t);
    }

    method PassOn(t: nat)
      requires Valid() && t < |pcs| && pcs[t].Notify? && !pcs[t].all && waiting[pcs[t].list] == []
      modifies this`pcs
      ensures Valid()
      ensures var p := old(pcs[t]);
        pcs == old(pcs)[t := if p.list < ASYNC then Notify(p.list + 1, false, p.after, p.back) else Done(p.back)]
    {
      PassList(t);
    }

    /** ... from the first list on that is not empty. */
    method SearchFrom(t: nat)
      requires Valid() && t < |pcs| && pcs[t].Notify? && !pcs[t].all
      modifies this`waiting, this`ready, this`pcs, this`h
      ensures Valid()
      ensures pcs == old(pcs)[t := Done(old(pcs[t]).back)] && h.ones == old(h.ones)
      ensures NewestGone(old(waiting), waiting, old(pcs[t]).list)
      ensures ready == old(ready) + Newest(old(waiting), old(pcs[t]).list)
      ensures h.onePops == old(h.onePops) + Bit(FirstBusy(old(waiting), old(pcs[t]).list) < 3)
      decreases 3 - pcs[t].list
    {
      if waiting[pcs[t].list] != [] {
        VisitBusy(t);
      } else {
        var i, back := pcs[t].list, pcs[t].back;
        PassOn(t);
        SetTwice(old(pcs), t, pcs[t], Done(back));
        if i < ASYNC { SearchFrom(t); }
      }
    }

    /** notify_one: exactly the newest entry of the first list that is not empty is removed, and
        exactly it is woken; the call does nothing if and only if all three lists are empty. */
    method NotifyOne(t: nat)
      requires Valid() && t < |pcs| && (pcs[t].Idle? || pcs[t].Locked?)
      modifies this`waiting, this`ready, this`pcs, this`h
      ensures Valid() && pcs == old(pcs)
      ensures NewestGone(old(waiting), waiting, 0) && ready == old(ready) + Newest(old(waiting), 0)
      ensures waiting == old(waiting) <==> old(waiting) == [[], [], []]
      ensures waiting == old(waiting) ==> ready == old(ready)
      ensures h.ones == old(h.ones) + 1 && h.onePops == old(h.onePops) + Bit(waiting != old(waiting))
    {
      BeginNotify(t, false);
      SearchFrom(t);
      NoOpExactly(old(waiting), waiting);
    }

    method DeliverHead(t: nat)
      requires Valid() && t < |pcs| && pcs[t].Deliver? && pcs[t].all && pcs[t].batch != []
      modifies this`ready, this`pcs
      ensures Valid()
      ensures var p := old(pcs[t]);
        && ready == old(ready) + {p.batch[0].key}
        && pcs == old(pcs)[t := Deliver(p.list, p.batch[1..], true, p.after, p.back)]
    {
      DeliverOne(t);
    }

    method EndBatch(t: nat)
      requires Valid() && t < |pcs| && pcs[t].Deliver? && pcs[t].all && pcs[t].batch == []
      modifies this`ready, this`pcs
      ensures Valid() && ready == old(ready)
      ensures pcs == old(pcs)[t := AfterBatch(old(pcs[t]))]
    {
      DeliverOne(t);
    }

    /** The loop over a batch: everything in it is woken. */
    method DeliverAll(t: nat)
      requires Valid() && t < |pcs| && pcs[t].Deliver? && pcs[t].all
      modifies this`ready, this`pcs
      ensures Valid()
      ensures ready == old(ready) + WaiterKeys(old(pcs[t]).batch)
      ensures pcs == old(pcs)[t := AfterBatch(old(pcs[t]))]
    {
      ghost var p := pcs[t];
      var batch := pcs[t].batch;
      while batch != []
        invariant Valid()
        invariant pcs == old(pcs)[t := Deliver(p.list, batch, true, p.after, p.back)]
        invariant Delivered(old(ready), p.batch, ready, batch)
      {
        DeliveredNext(old(ready), p.batch, ready, batch);
        SetTwice(old(pcs), t, pcs[t], Deliver(p.list, batch[1..], true, p.after, p.back));
        DeliverHead(t);
        batch := batch[1..];
      }
      DeliveredAll(old(ready), p.batch, ready);
      SetTwice(old(pcs), t, pcs[t], AfterBatch(p));
      EndBatch(t);
    }

    /** One list of notify_all: everything on it is removed and woken. */
    method SweepList(t: nat)
      requires Valid() && t < |pcs| && pcs[t].Notify? && pcs[t].all
      modifies this`waiting, this`ready, this`pcs, this`h
      ensures Valid()
      ensures waiting == old(waiting)[old(pcs[t]).list := []]
      ensures ready == old(ready) + WaiterKeys(old(waiting)[old(pcs[t]).list])
      ensures h.swept == if old(pcs[t]).after then old(h.swept)[old(pcs[t]).list := true] else old(h.swept)
      ensures pcs == old(pcs)[t := AfterBatch(old(pcs[t]))]
    {
      TakeWaiting(t);
      SetTwice(old(pcs), t, pcs[t], AfterBatch(old(pcs[t])));
      DeliverAll(t);
    }

    /** ... and so on, to the last list. */
    method SweepFrom(t: nat)
      requires Valid() && t < |pcs| && pcs[t].Notify? && pcs[t].all
      modifies this`waiting, this`ready, this`pcs, this`h
      ensures Valid()
      ensures pcs == old(pcs)[t := Done(old(pcs[t]).back)]
      ensures waiting == EmptiedFrom(old(waiting), old(pcs[t]).list)
      ensures ready == old(ready) + WaiterKeysFrom(old(waiting), old(pcs[t]).list)
      ensures |h.swept| == 3 && forall j :: 0 <= j < 3 ==>
                h.swept[j] == (old(h.swept[j]) || (j >= old(pcs[t]).list && old(pcs[t]).after))
      decreases 3 - pcs[t].list
    {
      var i := pcs[t].list;
      SweepList(t);
      SetTwice(old(pcs), t, pcs[t], Done(old(pcs[t]).back));
      WaiterKeysAfter(old(waiting), i, i + 1, []);
      if i < ASYNC { SweepFrom(t); }
    }

    /** notify_all: the three lists are emptied, and exactly their entries are woken. */
    method NotifyAll(t: nat)
      requires Valid() && t < |pcs| && (pcs[t].Idle? || pcs[t].Locked?)
      modifies this`waiting, this`ready, this`pcs, this`h
      ensures Valid() && pcs == old(pcs) && waiting == [[], [], []]
      ensures ready == old(ready) + WaiterKeys(old(waiting)[SPIN]) + WaiterKeys(old(waiting)[SYNC])
                       + WaiterKeys(old(waiting)[ASYNC])
      ensures predicateSet ==> h.swept == [true, true, true]
    {
      BeginNotify(t, true);
      SweepFrom(t);
      AllEmptied(old(waiting));
      AllKeys(old(waiting));
    }
  }
}
