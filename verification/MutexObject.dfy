/** The mutex as an object updated in place: one method per atomic step of the source, each proved
    to be the corresponding move of MutexModel and to keep what every run keeps.

    The threads that use the mutex are part of the object, because a step is always the step of one
    of them: `pcs` says where each is in the mutex's code, `ready` which park tokens are set and which
    continuations are complete.  A method's precondition says whose turn it can be.
 */
module MutexObject {
  import opened Parking
  import opened Sums
  import opened MutexModel
  import opened MutexInvariant
  import opened MutexHistory
  import opened MutexTheorems
  import opened MutexWorkload

  class Mutex {
    var inner: Data
    var dataLock: bool
    /** waiting_sync_threads and waiting_async_threads: the spinlocks and the vectors they protect */
    var locked: seq<bool>
    var waiting: seq<seq<Key>>

    /** The threads that use the mutex: tokens set, continuations completed or created, and where
        each thread is in the mutex's code. */
    var ready: set<Key>
    var conts: nat
    var pcs: seq<Pc>

    ghost const initial: Data
    ghost var acquired: seq<nat>
    ghost var log: seq<Access>

    ghost function View(): State
      reads this
    {
      State(dataLock, locked, waiting, ready, conts, pcs, initial, inner, acquired, log)
    }

    ghost predicate Valid()
      reads this
    {
      Inv(View()) && Serial(View())
    }

    constructor (threads: nat, value: Data)
      ensures Valid()
      ensures View() == Init(threads, value)
    {
      inner, dataLock, locked, waiting := value, false, [false, false], [[], []];
      ready, conts, pcs := {}, 0, seq(threads, _ => Idle);
      initial, acquired, log := value, [], [];
      new;
      InitInv(threads, value);
    }

    /** One move keeps the object valid. */
    twostate lemma Kept(a: Action)
      requires old(Valid()) && Enabled(old(View()), a) && View() == Next(old(View()), a)
      ensures Valid()
    {
      InvNext(old(View()), a);
      SerialNext(old(View()), a);
    }

    /** Entering lock_block, lock_async (and their timed forms) or lock_spin. */
    method Call(t: nat, entry: Pc)
      requires Valid() && t < |pcs| && pcs[t].Idle?
      requires (entry.Start? && entry.list < 2) || entry.Spin?
      modifies this`pcs
      ensures Valid()
      ensures View() == Next(old(View()), if entry.Start? then CallLock(t, entry.list, entry.timed) else CallSpin(t, entry.timed))
    {
      pcs := pcs[t := entry];
      Kept(if entry.Start? then CallLock(t, entry.list, entry.timed) else CallSpin(t, entry.timed));
    }

    /** The spinlock's swap, when it finds false. */
    method LockWaiting(t: nat)
      requires Valid() && t < |pcs| && CanStep(View(), t) && (pcs[t].Start? || pcs[t].Visit?)
      modifies this`locked, this`pcs
      ensures Valid()
      ensures View() == Next(old(View()), Step(t))
    {
      var i := pcs[t].list;
      locked := locked[i := true];
      pcs := pcs[t := if pcs[t].Start? then Try(i, pcs[t].timed) else Taking(i)];
      Kept(Step(t));
    }

    /** The spinlock's store of false at the end of with_mut. */
    method UnlockWaiting(t: nat)
      requires Valid() && t < |pcs| && (pcs[t].Got? || pcs[t].Listed? || pcs[t].Taken?)
      modifies this`locked, this`pcs
      ensures Valid()
      ensures View() == Next(old(View()), Step(t))
      ensures !locked[old(pcs[t]).list]
    {
      var i := pcs[t].list;
      locked := locked[i := false];
      match pcs[t] {
        case Got(_) => pcs := pcs[t := Hold];
        case Listed(_, key, timed) => pcs := pcs[t := Asleep(i, key, timed)];
        case Taken(_, batch) => pcs := pcs[t := Waking(i, batch)];
      }
      Kept(Step(t));
    }

    /** try_lock's compare-exchange, from inside with_mut, at the deadline, or called directly. */
    method TryLock(t: nat) returns (ok: bool)
      requires Valid() && t < |pcs| && (pcs[t].Try? || pcs[t].LastTry? || pcs[t].Idle?)
      modifies this`dataLock, this`pcs, this`acquired
      ensures Valid()
      ensures View() == Next(old(View()), if old(pcs[t]).Idle? then CallTry(t) else Step(t))
      ensures ok == !old(dataLock) && dataLock == (old(dataLock) || ok)
      ensures ok <==> HasGuard(pcs[t])
    {
      ghost var a := if pcs[t].Idle? then CallTry(t) else Step(t);
      ok := !dataLock;
      if ok {
        dataLock := true;
        acquired := acquired + [t];
        pcs := pcs[t := if pcs[t].Try? then Got(pcs[t].list) else Hold];
      } else {
        pcs := pcs[t := if pcs[t].Try? then Push(pcs[t].list, pcs[t].timed) else Idle];
      }
      Kept(a);
    }

    /** lock_spin's swap of data_lock. */
    method SwapLock(t: nat) returns (was: bool)
      requires Valid() && t < |pcs| && pcs[t].Spin?
      modifies this`dataLock, this`pcs, this`acquired
      ensures Valid()
      ensures View() == Next(old(View()), Step(t))
      ensures was == old(dataLock) && dataLock
      ensures was ==> acquired == old(acquired) && pcs == old(pcs)[t := Missed(old(pcs[t]).timed)]
    {
      was := dataLock;
      dataLock := true;
      if was {
        pcs := pcs[t := Missed(pcs[t].timed)];
      } else {
        acquired := acquired + [t];
        pcs := pcs[t := Hold];
      }
      Kept(Step(t));
    }

    /** spin_loop: once more. */
    method SpinAgain(t: nat)
      requires Valid() && t < |pcs| && pcs[t].Missed?
      modifies this`pcs
      ensures Valid()
      ensures View() == Next(old(View()), Step(t))
    {
      pcs := pcs[t := Spin(pcs[t].timed)];
      Kept(Step(t));
    }

    /** threads.push(handle), senders.push(sender) */
    method PushWaiter(t: nat)
      requires Valid() && t < |pcs| && pcs[t].Push?
      modifies this`waiting, this`conts, this`pcs
      ensures Valid()
      ensures View() == Next(old(View()), Step(t))
      ensures pcs[t].Listed? && waiting[old(pcs[t]).list] == old(waiting)[old(pcs[t]).list] + [pcs[t].key]
    {
      var i := pcs[t].list;
      var key := Handle(t);
      if i == ASYNC {
        key := Cont(conts);
        conts := conts + 1;
      }
      waiting := waiting[i := waiting[i] + [key]];
      pcs := pcs[t := Listed(i, key, pcs[t].timed)];
      Kept(Step(t));
    }

    /** park returns because the token was set, or the continuation completes. */
    method Awaken(t: nat)
      requires Valid() && t < |pcs| && pcs[t].Asleep? && CanStep(View(), t)
      modifies this`ready, this`pcs
      ensures Valid()
      ensures View() == Next(old(View()), Step(t))
      ensures old(pcs[t]).key.Handle? ==> Handle(t) !in ready
      ensures pcs == old(pcs)[t := Start(old(pcs[t]).list, old(pcs[t]).timed)]
    {
      assert Safe(View(), t);
      var key := pcs[t].key;
      if key.Handle? { ready := ready - {key}; }
      pcs := pcs[t := Start(pcs[t].list, pcs[t].timed)];
      Kept(Step(t));
    }

    /** park returns for no reason; the entry stays on the list. */
    method AwakenSpuriously(t: nat)
      requires Valid() && t < |pcs| && pcs[t].Asleep? && pcs[t].list == SYNC
      modifies this`pcs
      ensures Valid()
      ensures View() == Next(old(View()), Spurious(t))
    {
      pcs := pcs[t := Start(SYNC, pcs[t].timed)];
      Kept(Spurious(t));
    }

    /** The deadline has passed: try once more, or give up with None. */
    method DeadlinePassed(t: nat)
      requires Valid() && t < |pcs| && Enabled(View(), Expire(t))
      modifies this`pcs
      ensures Valid()
      ensures View() == Next(old(View()), Expire(t))
      ensures pcs[t] == if old(pcs[t]).Start? then LastTry else Idle
    {
      pcs := pcs[t := if pcs[t].Start? then LastTry else Idle];
      Kept(Expire(t));
    }

    /** The guard's holder reads the protected value ... */
    method ReadInner(t: nat) returns (value: Data)
      requires Valid() && t < |pcs| && pcs[t].Hold?
      modifies this`pcs
      ensures Valid()
      ensures View() == Next(old(View()), Load(t))
      ensures value == Replay(initial, log)
    {
      value := inner;
      pcs := pcs[t := Loaded(value)];
      Kept(Load(t));
    }

    /** ... and writes back what its closure made of it. */
    method WriteInner(t: nat, update: Data -> Data)
      requires Valid() && t < |pcs| && pcs[t].Loaded?
      modifies this`inner, this`pcs, this`log
      ensures Valid()
      ensures View() == Next(old(View()), Store(t, update))
      ensures inner == update(old(inner))
    {
      inner := update(pcs[t].value);
      log := log + [Access(|acquired| - 1, t, update)];
      pcs := pcs[t := Hold];
      Kept(Store(t, update));
    }

    /** Guard::drop stores false; did_unlock comes next. */
    method DropGuard(t: nat)
      requires Valid() && t < |pcs| && pcs[t].Hold?
      modifies this`dataLock, this`pcs
      ensures Valid()
      ensures View() == Next(old(View()), Drop(t))
      ensures forall u :: 0 <= u < |pcs| ==> !HasGuard(pcs[u])
    {
      HolderIsAlone(View(), t);
      assert forall u :: 0 <= u < |pcs| && u != t ==> Holds(pcs[u]) == 0;
      dataLock := false;
      pcs := pcs[t := Visit(SYNC)];
      Kept(Drop(t));
    }

    /** mem::take of a waiting list. */
    method TakeWaiting(t: nat)
      requires Valid() && t < |pcs| && pcs[t].Taking?
      modifies this`waiting, this`pcs
      ensures Valid()
      ensures View() == Next(old(View()), Step(t))
      ensures pcs[t] == Taken(old(pcs[t]).list, old(waiting)[old(pcs[t]).list])
    {
      var i := pcs[t].list;
      var batch := waiting[i];
      waiting := waiting[i := []];
      pcs := pcs[t := Taken(i, batch)];
      Kept(Step(t));
    }

    /** One turn of the loop over the batch, or its end. */
    method WakeOne(t: nat)
      requires Valid() && t < |pcs| && pcs[t].Waking?
      modifies this`ready, this`pcs
      ensures Valid()
      ensures View() == Next(old(View()), Step(t))
      ensures old(pcs[t]).batch != [] ==>
                ready == old(ready) + {old(pcs[t]).batch[0]} &&
                pcs == old(pcs)[t := Waking(old(pcs[t]).list, old(pcs[t]).batch[1..])]
    {
      var i, batch := pcs[t].list, pcs[t].batch;
      if batch != [] {
        ready := ready + {batch[0]};
        pcs := pcs[t := Waking(i, batch[1..])];
      } else {
        pcs := pcs[t := if i == SYNC then Visit(ASYNC) else Idle];
      }
      Kept(Step(t));
    }

    /** The loop over a taken batch, when nobody interferes: everything in it is woken. */
    method WakeAll(t: nat)
      requires Valid() && t < |pcs| && pcs[t].Waking?
      modifies this`ready, this`pcs
      ensures Valid()
      ensures ready == old(ready) + Keys(old(pcs[t]).batch)
      ensures pcs == old(pcs)[t := if old(pcs[t]).list == SYNC then Visit(ASYNC) else Idle]
    {
      while pcs[t].batch != []
        invariant Valid() && |pcs| == |old(pcs)| && pcs[t].Waking?
        invariant pcs == old(pcs)[t := Waking(old(pcs[t]).list, pcs[t].batch)]
        invariant ready + Keys(pcs[t].batch) == old(ready) + Keys(old(pcs[t]).batch)
        decreases |pcs[t].batch|
      {
        KeysHead(pcs[t].batch);
        WakeOne(t);
      }
      WakeOne(t);
    }

    /** The critical section of a visit: the list is emptied into the caller's batch. */
    method TakeBatch(t: nat)
      requires Valid() && t < |pcs| && pcs[t].Visit? && !locked[pcs[t].list]
      modifies this`locked, this`waiting, this`pcs
      ensures Valid() && locked == old(locked)
      ensures waiting == old(waiting)[old(pcs[t]).list := []]
      ensures pcs == old(pcs)[t := Waking(old(pcs[t]).list, old(waiting)[old(pcs[t]).list])]
    {
      LockWaiting(t);
      TakeWaiting(t);
      UnlockWaiting(t);
    }

    /** did_unlock's visit to one list, when nobody interferes: the list is emptied and everything
        that was on it is woken. */
    method TakeAndWakeAll(t: nat)
      requires Valid() && t < |pcs| && pcs[t].Visit? && !locked[pcs[t].list]
      modifies this`locked, this`waiting, this`ready, this`pcs
      ensures Valid() && locked == old(locked)
      ensures waiting == old(waiting)[old(pcs[t]).list := []]
      ensures ready == old(ready) + Keys(old(waiting)[old(pcs[t]).list])
      ensures pcs == old(pcs)[t := if old(pcs[t]).list == SYNC then Visit(ASYNC) else Idle]
    {
      TakeBatch(t);
      WakeAll(t);
    }

    /** did_unlock from start to end, when nobody interferes. */
    method DidUnlock(t: nat)
      requires Valid() && t < |pcs| && pcs[t] == Visit(SYNC) && !locked[SYNC] && !locked[ASYNC]
      modifies this`locked, this`waiting, this`ready, this`pcs
      ensures Valid() && locked == old(locked)
      ensures waiting == [[], []]
      ensures ready == old(ready) + Keys(old(waiting)[SYNC]) + Keys(old(waiting)[ASYNC])
      ensures pcs == old(pcs)[t := Idle]
    {
      TakeAndWakeAll(t);
      TakeAndWakeAll(t);
    }

    // ---- whole acquisitions, when nobody interferes ----

    /** The attempt under the list's spinlock. */
    method TryInside(t: nat) returns (ok: bool)
      requires Valid() && t < |pcs| && pcs[t].Start? && !locked[pcs[t].list]
      modifies this`dataLock, this`locked, this`pcs, this`acquired
      ensures Valid() && ok == !old(dataLock) && dataLock
      ensures locked == old(locked)[old(pcs[t]).list := true]
      ensures var i, timed := old(pcs[t]).list, old(pcs[t]).timed;
        pcs == old(pcs)[t := if ok then Got(i) else Push(i, timed)]
      ensures acquired == if ok then old(acquired) + [t] else old(acquired)
    {
      LockWaiting(t);
      ok := TryLock(t);
    }

    /** The caller's handle, or a new continuation, is pushed and the spinlock released. */
    method Enlist(t: nat)
      requires Valid() && t < |pcs| && pcs[t].Push?
      modifies this`locked, this`waiting, this`conts, this`pcs
      ensures Valid() && locked == old(locked)[old(pcs[t]).list := false]
      ensures var p := old(pcs[t]);
        var key := if p.list == SYNC then Handle(t) else Cont(old(conts));
        && waiting == old(waiting)[p.list := old(waiting)[p.list] + [key]]
        && pcs == old(pcs)[t := Asleep(p.list, key, p.timed)]
    {
      PushWaiter(t);
      UnlockWaiting(t);
    }

    /** One turn of the loop of lock_block or lock_async: the guard, or asleep and listed. */
    method Attempt(t: nat) returns (ok: bool)
      requires Valid() && t < |pcs| && pcs[t].Start? && !locked[pcs[t].list]
      modifies this`dataLock, this`locked, this`waiting, this`conts, this`pcs, this`acquired
      ensures Valid() && ok == !old(dataLock) && dataLock && locked == old(locked)
      ensures acquired == if ok then old(acquired) + [t] else old(acquired)
      ensures var p := old(pcs[t]);
        var key := if p.list == SYNC then Handle(t) else Cont(old(conts));
        && waiting == (if ok then old(waiting) else old(waiting)[p.list := old(waiting)[p.list] + [key]])
        && pcs == old(pcs)[t := if ok then Hold else Asleep(p.list, key, p.timed)]
    {
      ok := TryInside(t);
      if ok { UnlockWaiting(t); } else { Enlist(t); }
    }

    /** lock_block and lock_async: a free mutex is taken, a taken one is waited for on its own list. */
    method Lock(t: nat, list: nat, timed: bool) returns (ok: bool)
      requires Valid() && t < |pcs| && pcs[t].Idle? && list < 2 && !locked[list]
      modifies this`dataLock, this`locked, this`waiting, this`conts, this`pcs, this`acquired
      ensures Valid() && ok == !old(dataLock) && dataLock && locked == old(locked)
      ensures acquired == if ok then old(acquired) + [t] else old(acquired)
      ensures var key := if list == SYNC then Handle(t) else Cont(old(conts));
        && waiting == (if ok then old(waiting) else old(waiting)[list := old(waiting)[list] + [key]])
        && pcs == old(pcs)[t := if ok then Hold else Asleep(list, key, timed)]
    {
      Call(t, Start(list, timed));
      ok := Attempt(t);
    }

    /** A waiter whose park returns, with its token or spuriously, or whose continuation completes, tries
        again, and waits again if it was overtaken. */
    method Retry(t: nat, spurious: bool) returns (ok: bool)
      requires Valid() && t < |pcs| && pcs[t].Asleep? && !locked[pcs[t].list]
      requires if spurious then pcs[t].list == SYNC else pcs[t].key in ready
      modifies this`dataLock, this`locked, this`waiting, this`ready, this`conts, this`pcs, this`acquired
      ensures Valid() && ok == !old(dataLock) && dataLock && locked == old(locked)
      ensures acquired == if ok then old(acquired) + [t] else old(acquired)
      ensures var p := old(pcs[t]);
        var key := if p.list == SYNC then Handle(t) else Cont(old(conts));
        && waiting == (if ok then old(waiting) else old(waiting)[p.list := old(waiting)[p.list] + [key]])
        && pcs == old(pcs)[t := if ok then Hold else Asleep(p.list, key, p.timed)]
    {
      if spurious { AwakenSpuriously(t); } else { Awaken(t); }
      ok := Attempt(t);
    }

    /** lock_block_timeout and lock_async_timeout at their deadline: one attempt more, outside the list. */
    method LastAttempt(t: nat) returns (ok: bool)
      requires Valid() && t < |pcs| && pcs[t].Start? && pcs[t].timed
      modifies this`dataLock, this`pcs, this`acquired
      ensures Valid() && ok == !old(dataLock) && dataLock
      ensures pcs == old(pcs)[t := if ok then Hold else Idle]
      ensures acquired == if ok then old(acquired) + [t] else old(acquired)
    {
      DeadlinePassed(t);
      ok := TryLock(t);
    }

    /** Thread t makes its next move in a lock_block / drop workload. */
    method Advance(t: nat, ghost rounds: seq<nat>)
      requires Valid() && |rounds| == |pcs| && WorkInv(Work(View(), rounds)) && WorkEnabled(Work(View(), rounds), t)
      modifies this
      ensures Valid()
      ensures View() == WorkNext(Work(old(View()), rounds), t).s
    {
      assert Blocking(pcs[t]);
      match pcs[t] {
        case Idle => Call(t, Start(SYNC, false));
        case Start(_, _) => LockWaiting(t);
        case Visit(_) => LockWaiting(t);
        case Try(_, _) => var ok := TryLock(t);
        case Got(_) => UnlockWaiting(t);
        case Listed(_, _, _) => UnlockWaiting(t);
        case Taken(_, _) => UnlockWaiting(t);
        case Push(_, _) => PushWaiter(t);
        case Asleep(_, _, _) => Awaken(t);
        case Hold => DropGuard(t);
        case Taking(_) => TakeWaiting(t);
        case Waking(_, _) => WakeOne(t);
      }
    }

    predicate Movable(t: nat, rounds: seq<nat>)
      requires |rounds| == |pcs| && |locked| == 2
      requires forall u :: 0 <= u < |pcs| ==> InRange(pcs[u])
      reads this
    {
      t < |pcs| &&
      assert InRange(pcs[t]);
      match pcs[t]
      case Idle => rounds[t] > 0
      case Start(i, _) => !locked[i]
      case Visit(i) => !locked[i]
      case Asleep(_, k, _) => k in ready
      case Loaded(_) => false
      case _ => true
    }

    lemma MovableIsEnabled(rounds: seq<nat>)
      requires WorkInv(Work(View(), rounds))
      ensures forall t :: 0 <= t < |pcs| ==> Movable(t, rounds) == WorkEnabled(Work(View(), rounds), t)
    {
      forall t | 0 <= t < |pcs| ensures Movable(t, rounds) == WorkEnabled(Work(View(), rounds), t) {
        assert Blocking(pcs[t]);
      }
    }
  }

  lemma WorkAdvances(w: Work, t: nat)
    requires WorkInv(w) && WorkEnabled(w, t)
    ensures WorkInv(WorkNext(w, t)) && Measure(WorkNext(w, t)) < Measure(w)
  {
    MeasureDecreases(w, t);
    WorkInvNext(w, t);
  }

  /** When nobody can move, everybody is done and no guard is left. */
  lemma EndsUnlocked(w: Work, rounds: seq<nat>)
    requires OneGuardARound(w, rounds)
    requires WorkInv(w) && forall t: nat :: t < |w.rounds| ==> !WorkEnabled(w, t)
    ensures forall t :: 0 <= t < |w.s.pcs| ==> w.s.pcs[t].Idle?
    ensures forall t :: 0 <= t < |rounds| ==> Occurs(t, w.s.acquired) == rounds[t]
    ensures !w.s.dataLock
  {
    if !Finished(w) { WorkNeverStuck(w); }
    SumZero(Holds, w.s.pcs);
  }

  /** Threads run their rounds under an arbitrary scheduler: each turn picks any thread that can
      move.  The loop ends, and every thread has then had the guard once for each of its rounds. */
  method RunRounds(rounds: seq<nat>, value: Data) returns (m: Mutex, steps: nat)
    ensures fresh(m) && m.Valid() && |m.pcs| == |rounds|
    ensures forall t :: 0 <= t < |rounds| ==> m.pcs[t].Idle?
    ensures !m.dataLock
    ensures forall t :: 0 <= t < |rounds| ==> Occurs(t, m.acquired) == rounds[t]
    ensures steps <= Sum(RoundsCost(|rounds|), rounds)
  {
    m := new Mutex(|rounds|, value);
    steps := 0;
    var left := rounds;
    ghost var w := WorkInit(rounds, value);
    WorkInitInv(rounds, value);
    WorkInitMeasure(rounds, value);
    while exists t: nat :: t < |rounds| && m.Movable(t, left)
      invariant fresh(m) && m.Valid() && |m.pcs| == |left| == |rounds|
      invariant w == Work(m.View(), left) && WorkInv(w) && OneGuardARound(w, rounds)
      invariant steps + Measure(w) <= Sum(RoundsCost(|rounds|), rounds)
      decreases Measure(w)
    {
      var t: nat :| t < |rounds| && m.Movable(t, left);
      m.MovableIsEnabled(left);
      WorkAdvances(w, t);
      GuardsNext(w, t, rounds);
      var begins := m.pcs[t].Idle?;
      m.Advance(t, left);
      if begins { left := left[t := left[t] - 1]; }
      w := WorkNext(w, t);
      steps := steps + 1;
    }
    m.MovableIsEnabled(left);
    EndsUnlocked(w, rounds);
  }
}
