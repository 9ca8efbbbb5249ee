/** What every run of the mutex keeps, for any number of threads and any schedule. */
module MutexTheorems {
  import opened Parking
  import opened Sums
  import opened MutexModel
  import opened MutexInvariant
  import opened MutexHistory

  lemma InitInv(threads: nat, initial: Data)
    ensures Inv(Init(threads, initial)) && Serial(Init(threads, initial))
  {
    var s := Init(threads, initial);
    SumZero(Holds, s.pcs);
    forall i ensures Sum(Inside(i), s.pcs) == 0 { SumZero(Inside(i), s.pcs); }
  }

  lemma {:induction false} RunInv(s: State, schedule: seq<Action>)
    requires Inv(s) && Serial(s) && Run(s, schedule).Some?
    ensures Inv(Run(s, schedule).value) && Serial(Run(s, schedule).value)
    decreases |schedule|
  {
    if schedule != [] {
      InvNext(s, schedule[0]);
      SerialNext(s, schedule[0]);
      RunInv(Next(s, schedule[0]), schedule[1..]);
    }
  }

  ghost predicate Reachable(s: State) {
    exists threads: nat, initial, schedule :: Run(Init(threads, initial), schedule) == Some(s)
  }

  lemma ReachableInv(s: State)
    requires Reachable(s)
    ensures Inv(s) && Serial(s)
  {
    var threads: nat, initial, schedule :| Run(Init(threads, initial), schedule) == Some(s);
    InitInv(threads, initial);
    RunInv(Init(threads, initial), schedule);
  }

  predicate HasGuard(p: Pc) { p.Got? || p.Hold? || p.Loaded? }

  /** data_lock is true exactly when some guard is live, and never two guards are. */
  lemma MutualExclusion(s: State)
    requires Reachable(s)
    ensures s.dataLock <==> exists t :: 0 <= t < |s.pcs| && HasGuard(s.pcs[t])
    ensures forall t, u :: 0 <= t < |s.pcs| && 0 <= u < |s.pcs| && HasGuard(s.pcs[t]) && HasGuard(s.pcs[u]) ==> t == u
  {
    ReachableInv(s);
    if s.dataLock {
      var t := SumWitness(Holds, s.pcs);
      assert HasGuard(s.pcs[t]);
    }
    forall t | 0 <= t < |s.pcs| && HasGuard(s.pcs[t])
      ensures s.dataLock && forall u :: 0 <= u < |s.pcs| && HasGuard(s.pcs[u]) ==> t == u
    {
      HolderIsAlone(s, t);
      assert forall u :: 0 <= u < |s.pcs| && HasGuard(s.pcs[u]) ==> Holds(s.pcs[u]) == 1;
    }
  }

  /** Thread u has taken a batch that still contains k. */
  predicate AboutToWake(p: Pc, k: Key) { (p.Taken? || p.Waking?) && k in p.batch }

  /** Thread u's guard is gone and it has still to take list i. */
  predicate OnItsWay(p: Pc, i: nat) { WillTake(i)(p) == 1 }

  /** No wake-up is lost, with spurious returns of park, expiring deadlines, stale and duplicate
      entries: a sleeper has its signal, or is in somebody's batch, or is listed while a guard is
      live or somebody who dropped one has still to take the list. */
  lemma NoLostWakeup(s: State, t: nat)
    requires Reachable(s) && t < |s.pcs| && s.pcs[t].Asleep?
    ensures var i, k := s.pcs[t].list, s.pcs[t].key;
      || k in s.ready
      || (exists u :: 0 <= u < |s.pcs| && AboutToWake(s.pcs[u], k))
      || (i < 2 == |s.lists| && k in s.lists[i] &&
          exists u :: 0 <= u < |s.pcs| && (HasGuard(s.pcs[u]) || OnItsWay(s.pcs[u], i)))
  {
    ReachableInv(s);
    assert Safe(s, t);
    var i, k := s.pcs[t].list, s.pcs[t].key;
    if Sum(Carries(k), s.pcs) > 0 {
      var u := SumWitness(Carries(k), s.pcs);
      OccursIn(k, s.pcs[u].batch);
      assert AboutToWake(s.pcs[u], k);
    } else if k !in s.ready {
      if s.dataLock {
        var u := SumWitness(Holds, s.pcs);
        assert HasGuard(s.pcs[u]);
      } else {
        var u := SumWitness(WillTake(i), s.pcs);
        assert OnItsWay(s.pcs[u], i);
      }
    }
  }

  /** Whoever is inside a list's with_mut can move. */
  lemma SpinEnds(s: State, t: nat) returns (u: nat)
    requires Inv(s) && t < |s.pcs| && (s.pcs[t].Start? || s.pcs[t].Visit?)
    ensures u < |s.pcs| && CanStep(s, u)
    ensures u == t || Inside(s.pcs[t].list)(s.pcs[u]) == 1
  {
    var i := s.pcs[t].list;
    if s.locks[i] {
      u := SumWitness(Inside(i), s.pcs);
    } else {
      u := t;
    }
  }

  /** The system never wedges: while any call is unfinished, some thread can move without a
      spurious wake-up and without a deadline, or is using a guard. */
  lemma NeverStuck(s: State, t: nat) returns (u: nat)
    requires Inv(s) && t < |s.pcs| && !s.pcs[t].Idle?
    ensures u < |s.pcs| && (CanStep(s, u) || s.pcs[u].Hold? || s.pcs[u].Loaded?)
  {
    u := t;
    if s.pcs[t].Start? || s.pcs[t].Visit? {
      u := SpinEnds(s, t);
    } else if s.pcs[t].Asleep? && s.pcs[t].key !in s.ready {
      var i, k := s.pcs[t].list, s.pcs[t].key;
      assert Safe(s, t);
      if Sum(Carries(k), s.pcs) > 0 {
        u := SumWitness(Carries(k), s.pcs);
      } else if s.dataLock {
        u := SumWitness(Holds, s.pcs);
      } else {
        u := SumWitness(WillTake(i), s.pcs);
        if s.pcs[u].Visit? { u := SpinEnds(s, u); }
      }
    }
  }

  /** Every value ever read or left behind is the result of the stores so far in acquisition
      order: the stores of one guard are consecutive, no two guards' stores interleave, and none
      is lost. */
  lemma SerialHistory(s: State)
    requires Reachable(s)
    ensures s.value == Replay(s.initial, s.log)
    ensures forall j, k :: 0 <= j < k < |s.log| ==> s.log[j].ticket <= s.log[k].ticket
    ensures forall j :: 0 <= j < |s.log| ==>
      0 <= s.log[j].ticket < |s.acquired| && s.acquired[s.log[j].ticket] == s.log[j].author
    ensures forall t :: 0 <= t < |s.pcs| && s.pcs[t].Loaded? ==> s.pcs[t].value == Replay(s.initial, s.log)
  {
    ReachableInv(s);
  }
}
