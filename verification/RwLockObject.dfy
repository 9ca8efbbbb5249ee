/** The reader-writer lock as an object updated in place: one method per atomic step of the
    source, each proved to be the corresponding move of RwLockModel and to keep what every run
    keeps.

    As in MutexObject the threads that use the lock are part of the object: `pcs` says where each is
    in the lock's code, `ready` which park tokens are set and which continuations are complete.  The
    assertions of the two drops are assertions of the methods.
 */
module RwLockObject {
  import opened Parking
  import opened Sums
  import opened RwLockModel
  import opened RwLockInvariant
  import opened RwLockTheorems
  import opened RwLockWorkload

  /** What an attempt of either kind succeeds on. */
  predicate Admits(word: nat, writer: bool) { if writer then word == UNLOCKED else word < 127 }

  lemma Pushes(s: State, t: nat)
    requires WellFormed(s) && t < |s.pcs| && s.pcs[t].Push?
    ensures var i := s.pcs[t].list;
      var key := if ForThreads(i) then Handle(t) else Cont(s.conts);
      Next(s, Step(t)) ==
        State(s.word, s.locks, s.lists[i := s.lists[i] + [key]], s.ready,
              if ForThreads(i) then s.conts else s.conts + 1, s.pcs[t := Listed(i, key)], s.acquired)
  {}

  class RwLock {
    /** data_lock: 0..127 readers, bit 7 for a writer */
    var dataLock: nat
    /** the four waiting vectors and their spinlocks, in did_unlock_write's order */
    var locked: seq<bool>
    var waiting: seq<seq<Key>>

    /** The threads that use the lock. */
    var ready: set<Key>
    var conts: nat
    var pcs: seq<Pc>

    ghost var acquired: seq<Acquisition>

    ghost function View(): State
      reads this
    {
      State(dataLock, locked, waiting, ready, conts, pcs, acquired)
    }

    ghost predicate Valid()
      reads this
    {
      Inv(View())
    }

    constructor (threads: nat)
      ensures Valid()
      ensures View() == Init(threads)
    {
      dataLock, locked, waiting := UNLOCKED, [false, false, false, false], [[], [], [], []];
      ready, conts, pcs, acquired := {}, 0, seq(threads, _ => Idle), [];
      new;
      InitInv(threads);
    }

    /** Entering lock_block_*, lock_async_* or lock_spin_*. */
    method Call(t: nat, entry: Pc)
      requires Valid() && t < |pcs| && pcs[t].Idle?
      requires (entry.Start? && entry.list < 4) || entry.Spin?
      modifies this`pcs
      ensures Valid()
      ensures View() == Next(old(View()), if entry.Start? then CallLock(t, entry.list) else CallSpin(t, entry.writer))
    {
      CallKeeps(View(), if entry.Start? then CallLock(t, entry.list) else CallSpin(t, entry.writer));
      pcs := pcs[t := entry];
    }

    /** The spinlock's swap, when it finds false. */
    method LockWaiting(t: nat)
      requires Valid() && t < |pcs| && CanStep(View(), t) && (pcs[t].Start? || pcs[t].Visit?)
      modifies this`locked, this`pcs
      ensures Valid()
      ensures View() == Next(old(View()), Step(t))
    {
      StepLockList(View(), t);
      var i := pcs[t].list;
      locked := locked[i := true];
      pcs := pcs[t := if pcs[t].Start? then Try(i) else Taking(i)];
    }

    /** The spinlock's store of false at the end of with_mut. */
    method UnlockWaiting(t: nat)
      requires Valid() && t < |pcs| && (pcs[t].Got? || pcs[t].Listed? || pcs[t].Taken?)
      modifies this`locked, this`pcs
      ensures Valid()
      ensures View() == Next(old(View()), Step(t))
      ensures !locked[old(pcs[t]).list]
    {
      if pcs[t].Taken? { StepUnlockTaken(View(), t); } else { StepUnlockList(View(), t); }
      var i := pcs[t].list;
      locked := locked[i := false];
      match pcs[t] {
        case Got(_) => pcs := pcs[t := Hold(ForWriters(i))];
        case Listed(_, key) => pcs := pcs[t := Asleep(i, key)];
        case Taken(_, batch) => pcs := pcs[t := Waking(i, batch)];
      }
    }

    /** try_lock_read's fetch_update: on success the word counts one reader more; with 127 readers
        it panics, and inside with_mut the list's spinlock then stays set. */
    method TryLockRead(t: nat) returns (ok: bool)
      requires Valid() && t < |pcs|
      requires pcs[t].Idle? || pcs[t] == Spin(false) || (pcs[t].Try? && !ForWriters(pcs[t].list))
      modifies this`dataLock, this`pcs, this`acquired
      ensures Valid()
      ensures View() == Next(old(View()), if old(pcs[t]).Idle? then CallTry(t, false) else Step(t))
      ensures ok <==> HasReadGuard(pcs[t])
      ensures ok <==> old(dataLock) < 127
      ensures dataLock == old(dataLock) + if ok then 1 else 0
      ensures pcs[t].Panicked? <==> old(dataLock) == 127
    {
      ghost var before := View();
      if pcs[t].Idle? { CallTryKeeps(before, CallTry(t, false)); } else { InvStep(before, t); }
      var p := pcs[t];
      ok := false;
      match ReaderUpdate(dataLock) {
        case Refuse =>
          pcs := pcs[t := if p.Try? then Push(p.list) else p];
        case TooMany =>
          pcs := pcs[t := Panicked(if p.Try? then p.list else NOWHERE)];
        case Put(word) =>
          ok := true;
          dataLock, acquired := word, acquired + [Acquisition(t, false)];
          pcs := pcs[t := if p.Try? then Got(p.list) else Hold(false)];
      }
    }

    /** try_lock_write's compare-exchange. */
    method TryLockWrite(t: nat) returns (ok: bool)
      requires Valid() && t < |pcs|
      requires pcs[t].Idle? || pcs[t] == Spin(true) || (pcs[t].Try? && ForWriters(pcs[t].list))
      modifies this`dataLock, this`pcs, this`acquired
      ensures Valid()
      ensures View() == Next(old(View()), if old(pcs[t]).Idle? then CallTry(t, true) else Step(t))
      ensures ok <==> HasWriteGuard(pcs[t])
      ensures ok <==> old(dataLock) == UNLOCKED
      ensures dataLock == if ok then LOCKED_WRITE else old(dataLock)
    {
      ghost var before := View();
      if pcs[t].Idle? { CallTryKeeps(before, CallTry(t, true)); } else { InvStep(before, t); }
      var p := pcs[t];
      ok := dataLock == UNLOCKED;
      if ok {
        dataLock, acquired := LOCKED_WRITE, acquired + [Acquisition(t, true)];
        pcs := pcs[t := if p.Try? then Got(p.list) else Hold(true)];
      } else {
        pcs := pcs[t := if p.Try? then Push(p.list) else p];
      }
    }

    method PushWaiter(t: nat)
      requires Valid() && t < |pcs| && pcs[t].Push?
      modifies this`waiting, this`conts, this`pcs
      ensures Valid()
      ensures View() == Next(old(View()), Step(t))
      ensures pcs[t].Listed? && waiting[old(pcs[t]).list] == old(waiting)[old(pcs[t]).list] + [pcs[t].key]
    {
      StepPush(View(), t);
      Pushes(View(), t);
      var i := pcs[t].list;
      var key := Handle(t);
      if !ForThreads(i) {
        key := Cont(conts);
        conts := conts + 1;
      }
      waiting := waiting[i := waiting[i] + [key]];
      pcs := pcs[t := Listed(i, key)];
    }

    /** park returns because the token was set, or the continuation completes. */
    method Awaken(t: nat)
      requires Valid() && t < |pcs| && pcs[t].Asleep? && CanStep(View(), t)
      modifies this`ready, this`pcs
      ensures Valid()
      ensures View() == Next(old(View()), Step(t))
    {
      StepResume(View(), t);
      var key := pcs[t].key;
      if key.Handle? { ready := ready - {key}; }
      pcs := pcs[t := Start(pcs[t].list)];
    }

    method AwakenSpuriously(t: nat)
      requires Valid() && t < |pcs| && pcs[t].Asleep? && ForThreads(pcs[t].list)
      modifies this`pcs
      ensures Valid()
      ensures View() == Next(old(View()), Spurious(t))
    {
      CallKeeps(View(), Spurious(t));
      pcs := pcs[t := Start(pcs[t].list)];
    }

    /** ReadGuard::drop: the fetch_sub never wraps and its assertion always holds. */
    method DropReadGuard(t: nat)
      requires Valid() && t < |pcs| && pcs[t] == Hold(false)
      modifies this`dataLock, this`pcs
      ensures Valid()
      ensures View() == Next(old(View()), Drop(t))
      ensures old(dataLock) > 0 && dataLock == old(dataLock) - 1
      ensures pcs[t] == Visit(SYNC_WRITE)
    {
      StepDrop(View(), t);
      ReleaseEncodes(View(), t);
      var r := dataLock;
      dataLock := (dataLock + 255) % 256;
      assert r > 0;
      pcs := pcs[t := Visit(SYNC_WRITE)];
    }

    /** WriteGuard::drop: the swap always finds LOCKED_WRITE. */
    method DropWriteGuard(t: nat)
      requires Valid() && t < |pcs| && pcs[t] == Hold(true)
      modifies this`dataLock, this`pcs
      ensures Valid()
      ensures View() == Next(old(View()), Drop(t))
      ensures old(dataLock) == LOCKED_WRITE && dataLock == UNLOCKED
      ensures pcs[t] == Visit(SYNC_READ)
    {
      StepDrop(View(), t);
      ReleaseEncodes(View(), t);
      var was := dataLock;
      dataLock := UNLOCKED;
      assert was == LOCKED_WRITE;
      pcs := pcs[t := Visit(SYNC_READ)];
    }

    /** mem::take of a waiting list. */
    method TakeWaiting(t: nat)
      requires Valid() && t < |pcs| && pcs[t].Taking?
      modifies this`waiting, this`pcs
      ensures Valid()
      ensures View() == Next(old(View()), Step(t))
      ensures pcs[t] == Taken(old(pcs[t]).list, old(waiting)[old(pcs[t]).list])
    {
      StepTake(View(), t);
      var i := pcs[t].list;
      var batch := waiting[i];
      waiting := waiting[i := []];
      pcs := pcs[t := Taken(i, batch)];
    }

    /** One turn of the loop over the batch, or its end. */
    method WakeOne(t: nat)
      requires Valid() && t < |pcs| && pcs[t].Waking?
      modifies this`ready, this`pcs
      ensures Valid()
      ensures View() == Next(old(View()), Step(t))
    {
      StepWake(View(), t);
      var i, batch := pcs[t].list, pcs[t].batch;
      if batch != [] {
        ready := ready + {batch[0]};
        pcs := pcs[t := Waking(i, batch[1..])];
      } else {
        pcs := pcs[t := if i < ASYNC_WRITE then Visit(i + 1) else Idle];
      }
    }

    // ---- whole acquisitions and releases, when nobody interferes ----

    /** A refused caller's handle, or a new continuation, is pushed and the spinlock released. */
    method Enlist(t: nat)
      requires Valid() && t < |pcs| && pcs[t].Push?
      modifies this`locked, this`waiting, this`conts, this`pcs
      ensures Valid() && locked == old(locked)[old(pcs[t]).list := false]
      ensures var i := old(pcs[t]).list;
        var key := if ForThreads(i) then Handle(t) else Cont(old(conts));
        && waiting == old(waiting)[i := old(waiting)[i] + [key]]
        && pcs == old(pcs)[t := Asleep(i, key)]
    {
      PushWaiter(t);
      UnlockWaiting(t);
    }

    /** The attempt under the list's spinlock: exactly a reader that would be the 128th panics, and
        leaves the list locked. */
    method TryInside(t: nat) returns (ok: bool)
      requires Valid() && t < |pcs| && pcs[t].Start? && !locked[pcs[t].list]
      modifies this`dataLock, this`locked, this`pcs, this`acquired
      ensures Valid() && locked == old(locked)[old(pcs[t]).list := true]
      ensures ok == Admits(old(dataLock), ForWriters(old(pcs[t]).list))
      ensures dataLock == if ok then old(dataLock) + (if ForWriters(old(pcs[t]).list) then 128 else 1) else old(dataLock)
      ensures var i := old(pcs[t]).list;
        pcs == old(pcs)[t := if ok then Got(i) else if old(dataLock) == 127 && !ForWriters(i) then Panicked(i) else Push(i)]
    {
      LockWaiting(t);
      if ForWriters(pcs[t].list) { ok := TryLockWrite(t); } else { ok := TryLockRead(t); }
    }

    /** One turn of the loop of lock_block_* or lock_async_*: the guard, or asleep and listed, or the
        panic of the 128th reader, which leaves the list locked. */
    method Attempt(t: nat) returns (ok: bool)
      requires Valid() && t < |pcs| && pcs[t].Start? && !locked[pcs[t].list]
      modifies this`dataLock, this`locked, this`waiting, this`conts, this`pcs, this`acquired
      ensures Valid()
      ensures ok == Admits(old(dataLock), ForWriters(old(pcs[t]).list))
      ensures dataLock == if ok then old(dataLock) + (if ForWriters(old(pcs[t]).list) then 128 else 1) else old(dataLock)
      ensures var i := old(pcs[t]).list;
        var key := if ForThreads(i) then Handle(t) else Cont(old(conts));
        if old(dataLock) == 127 && !ForWriters(i) then
          waiting == old(waiting) && locked == old(locked)[i := true] && pcs == old(pcs)[t := Panicked(i)]
        else
          && locked == old(locked)
          && waiting == (if ok then old(waiting) else old(waiting)[i := old(waiting)[i] + [key]])
          && pcs == old(pcs)[t := if ok then Hold(ForWriters(i)) else Asleep(i, key)]
    {
      ok := TryInside(t);
      if ok {
        UnlockWaiting(t);
      } else if !pcs[t].Panicked? {
        Enlist(t);
      }
    }

    /** lock_block_read, lock_block_write, lock_async_read, lock_async_write: the same, from the call. */
    method Lock(t: nat, list: nat) returns (ok: bool)
      requires Valid() && t < |pcs| && pcs[t].Idle? && list < 4 && !locked[list]
      modifies this`dataLock, this`locked, this`waiting, this`conts, this`pcs, this`acquired
      ensures Valid() && |pcs| == |old(pcs)| && ok == Admits(old(dataLock), ForWriters(list))
      ensures ok <==> pcs[t] == Hold(ForWriters(list))
      ensures pcs[t] == Panicked(list) <==> old(dataLock) == 127 && !ForWriters(list)
      ensures !ok && pcs[t] != Panicked(list) ==>
                pcs[t].Asleep? && waiting == old(waiting)[list := old(waiting)[list] + [pcs[t].key]]
    {
      Call(t, Start(list));
      ok := Attempt(t);
    }

    /** A waiter whose park returns, with its token or spuriously, or whose continuation completes, tries
        again, and waits again if it was overtaken. */
    method Retry(t: nat, spurious: bool) returns (ok: bool)
      requires Valid() && t < |pcs| && pcs[t].Asleep? && !locked[pcs[t].list]
      requires if spurious then ForThreads(pcs[t].list) else pcs[t].key in ready
      modifies this`dataLock, this`locked, this`waiting, this`ready, this`conts, this`pcs, this`acquired
      ensures Valid() && |pcs| == |old(pcs)| && ok == Admits(old(dataLock), ForWriters(old(pcs[t]).list))
      ensures ok <==> pcs[t] == Hold(ForWriters(old(pcs[t]).list))
      ensures var list := old(pcs[t]).list;
        && (pcs[t] == Panicked(list) <==> old(dataLock) == 127 && !ForWriters(list))
        && (!ok && pcs[t] != Panicked(list) ==>
              pcs[t].Asleep? && waiting == old(waiting)[list := old(waiting)[list] + [pcs[t].key]])
    {
      if spurious { AwakenSpuriously(t); } else { Awaken(t); }
      ok := Attempt(t);
    }

    /** The loop over a batch: everything in it is woken. */
    method WakeAll(t: nat)
      requires Valid() && t < |pcs| && pcs[t].Waking?
      modifies this`ready, this`pcs
      ensures Valid() && ready == old(ready) + Keys(old(pcs[t]).batch)
      ensures pcs == old(pcs)[t := if old(pcs[t]).list < ASYNC_WRITE then Visit(old(pcs[t]).list + 1) else Idle]
    {
      ghost var i, all := pcs[t].list, pcs[t].batch;
      var batch := pcs[t].batch;
      while batch != []
        invariant Valid() && pcs == old(pcs)[t := Waking(i, batch)]
        invariant ready + Keys(batch) == old(ready) + Keys(all)
      {
        KeysHead(batch);
        WakeOne(t);
        batch := batch[1..];
      }
      WakeOne(t);
    }

    /** The critical section of a visit: the list is emptied into the caller's batch. */
    method TakeBatch(t: nat)
      requires Valid() && t < |pcs| && pcs[t].Visit? && !locked[pcs[t].list]
      modifies this`locked, this`waiting, this`pcs
      ensures Valid() && locked == old(locked)
      ensures waiting == old(waiting)[old(pcs[t]).list := []]
      ensures pcs == old(pcs)[t := Waking(old(pcs[t]).list, old(waiting)[old(pcs[t]).list])]
    {
      LockWaiting(t);
      TakeWaiting(t);
      UnlockWaiting(t);
    }

    /** The rest of did_unlock_read or did_unlock_write: the lists from the present one on are emptied,
        and exactly what was on them is woken. */
    method VisitFrom(t: nat)
      requires Valid() && t < |pcs| && pcs[t].Visit?
      requires forall j :: pcs[t].list <= j < 4 ==> !locked[j]
      modifies this`locked, this`waiting, this`ready, this`pcs
      ensures Valid() && locked == old(locked) && pcs == old(pcs)[t := Idle]
      ensures waiting == EmptiedFrom(old(waiting), old(pcs[t]).list)
      ensures ready == old(ready) + KeysFrom(old(waiting), old(pcs[t]).list)
      decreases 4 - pcs[t].list
    {
      var i := pcs[t].list;
      TakeBatch(t);
      WakeAll(t);
      SetTwice(old(pcs), t, pcs[t], Idle);
      KeysAfter(old(waiting), i, i + 1, []);
      if i < ASYNC_WRITE { VisitFrom(t); }
    }

    /** A whole drop of a guard: a reader wakes exactly the writers, a writer everybody. */
    method ReleaseGuard(t: nat)
      requires Valid() && t < |pcs| && pcs[t].Hold? && locked == [false, false, false, false]
      modifies this`dataLock, this`locked, this`waiting, this`ready, this`pcs
      ensures Valid() && locked == old(locked) && pcs == old(pcs)[t := Idle]
      ensures dataLock == old(dataLock) - (if old(pcs[t]).writer then 128 else 1)
      ensures var first := if old(pcs[t]).writer then SYNC_READ else SYNC_WRITE;
        waiting == EmptiedFrom(old(waiting), first) && ready == old(ready) + KeysFrom(old(waiting), first)
    {
      if pcs[t].writer { DropWriteGuard(t); } else { DropReadGuard(t); }
      VisitFrom(t);
    }

    /** Thread t makes its next move in a workload of blocking rounds. */
    method Advance(t: nat, ghost w: Work, write: bool)
      requires Valid() && w.s == View() && |w.rounds| == |pcs| && WorkEnabled(w, t) && Blocking(pcs[t])
      requires pcs[t].Idle? ==> write == w.rounds[t][0]
      modifies this
      ensures Valid()
      ensures View() == WorkNext(w, t).s
    {
      match pcs[t] {
        case Idle => Call(t, Start(if write then SYNC_WRITE else SYNC_READ));
        case Start(_) => LockWaiting(t);
        case Visit(_) => LockWaiting(t);
        case Try(i) =>
          if ForWriters(i) { var ok := TryLockWrite(t); } else { var ok := TryLockRead(t); }
        case Got(_) => UnlockWaiting(t);
        case Listed(_, _) => UnlockWaiting(t);
        case Taken(_, _) => UnlockWaiting(t);
        case Push(_) => PushWaiter(t);
        case Asleep(_, _) => Awaken(t);
        case Hold(writer) =>
          if writer { DropWriteGuard(t); } else { DropReadGuard(t); }
        case Taking(_) => TakeWaiting(t);
        case Waking(_, _) => WakeOne(t);
      }
    }
  }

  /** What the loop of RunRounds keeps: w is on its way through the rounds, `steps` moves along. */
  ghost predicate OnTheWay(w: Work, rounds: seq<seq<bool>>, steps: nat) {
    WorkInv(w) && OneGuardARound(w, rounds) && steps + Measure(w) <= Sum(RoundsCost(|rounds|), rounds)
  }

  lemma SetsOut(rounds: seq<seq<bool>>)
    requires Sum(Bit, ReaderThreads(rounds)) <= 127
    ensures OnTheWay(WorkInit(rounds), rounds, 0)
  {
    WorkInitInv(rounds);
    WorkInitMeasure(rounds);
  }

  lemma WorkAdvances(w: Work, t: nat, rounds: seq<seq<bool>>, steps: nat)
    requires OnTheWay(w, rounds, steps) && WorkEnabled(w, t)
    ensures Blocking(w.s.pcs[t])
    ensures OnTheWay(WorkNext(w, t), rounds, steps + 1) && Measure(WorkNext(w, t)) < Measure(w)
  {
    MeasureDecreases(w, t);
    WorkInvNext(w, t);
    GuardsNext(w, t, rounds);
  }

  /** When nobody can move, everybody is done and no guard is left. */
  lemma EndsUnlocked(w: Work, rounds: seq<seq<bool>>)
    requires OneGuardARound(w, rounds)
    requires WorkInv(w) && forall t: nat :: t < |w.rounds| ==> !WorkEnabled(w, t)
    ensures forall t :: 0 <= t < |w.s.pcs| ==> w.s.pcs[t].Idle? && w.rounds[t] == []
    ensures forall t :: 0 <= t < |rounds| ==> Kinds(t, w.s.acquired) == rounds[t]
    ensures w.s.word == UNLOCKED
  {
    if !Finished(w) { WorkNeverStuck(w); }
    FinishedGuards(w, rounds);
    SumZero(Reads, w.s.pcs);
    SumZero(Writes, w.s.pcs);
  }

  /** Readers and writers run their rounds under an arbitrary scheduler: each turn picks any thread
      that can move.  The loop ends, and every thread has then had a guard of the right kind for each
      of its rounds, in the order of its rounds. */
  method RunRounds(rounds: seq<seq<bool>>) returns (l: RwLock, steps: nat)
    requires Sum(Bit, ReaderThreads(rounds)) <= 127
    ensures fresh(l) && l.Valid() && |l.pcs| == |rounds|
    ensures forall t :: 0 <= t < |rounds| ==> l.pcs[t].Idle?
    ensures l.dataLock == UNLOCKED
    ensures forall t :: 0 <= t < |rounds| ==> Kinds(t, l.acquired) == rounds[t]
    ensures steps <= Sum(RoundsCost(|rounds|), rounds)
  {
    l := new RwLock(|rounds|);
    steps := 0;
    var w := WorkInit(rounds);
    SetsOut(rounds);
    while exists t: nat :: t < |rounds| && WorkEnabled(w, t)
      invariant fresh(l) && l.Valid() && w.s == l.View() && |w.rounds| == |w.s.pcs| == |rounds|
      invariant OnTheWay(w, rounds, steps)
      decreases Measure(w)
    {
      var t: nat :| t < |rounds| && WorkEnabled(w, t);
      WorkAdvances(w, t, rounds, steps);
      l.Advance(t, w, w.s.pcs[t].Idle? && w.rounds[t][0]);
      w := WorkNext(w, t);
      steps := steps + 1;
    }
    EndsUnlocked(w, rounds);
  }
}
