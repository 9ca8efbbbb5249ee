/** What every run of the reader-writer lock keeps, for any number of threads and any schedule. */
module RwLockTheorems {
  import opened Parking
  import opened Sums
  import opened Traces
  import opened RwLockModel
  import opened RwLockInvariant

  lemma InitInv(threads: nat)
    ensures Inv(Init(threads))
  {
    var s := Init(threads);
    SumZero(Reads, s.pcs);
    SumZero(Writes, s.pcs);
    forall i ensures Sum(Inside(i), s.pcs) == 0 { SumZero(Inside(i), s.pcs); }
  }

  lemma {:induction false} RunInv(s: State, schedule: seq<Action>)
    requires Inv(s) && Run(s, schedule).Some?
    ensures Inv(Run(s, schedule).value)
    decreases |schedule|
  {
    if schedule != [] {
      InvNext(s, schedule[0]);
      RunInv(Next(s, schedule[0]), schedule[1..]);
    }
  }

  ghost predicate Reachable(s: State) {
    exists threads: nat, schedule :: Run(Init(threads), schedule) == Some(s)
  }

  lemma ReachableInv(s: State)
    requires Reachable(s)
    ensures Inv(s)
  {
    var threads: nat, schedule :| Run(Init(threads), schedule) == Some(s);
    InitInv(threads);
    RunInv(Init(threads), schedule);
  }

  predicate HasReadGuard(p: Pc) { (p.Got? && !ForWriters(p.list)) || (p.Hold? && !p.writer) }

  predicate HasWriteGuard(p: Pc) { (p.Got? && ForWriters(p.list)) || (p.Hold? && p.writer) }

  function Readers(s: State): set<int> { set t | 0 <= t < |s.pcs| && HasReadGuard(s.pcs[t]) }

  function Writers(s: State): set<int> { set t | 0 <= t < |s.pcs| && HasWriteGuard(s.pcs[t]) }

  lemma GuardCounts(s: State)
    ensures Sum(Reads, s.pcs) == |Readers(s)|
    ensures Sum(Writes, s.pcs) == |Writers(s)|
  {
    SumCounts(Reads, s.pcs);
    SumCounts(Writes, s.pcs);
    assert Readers(s) == Members(Reads, s.pcs);
    assert Writers(s) == Members(Writes, s.pcs);
  }

  /** The lock word says exactly which guards are live; a writer excludes everybody; the count of
      readers never reaches the writer bit; no drop assertion ever fails. */
  lemma WordEncodesGuards(s: State)
    requires Reachable(s)
    ensures |Writers(s)| <= 1 && (Writers(s) != {} ==> Readers(s) == {})
    ensures s.word == if Writers(s) != {} then LOCKED_WRITE else |Readers(s)|
    ensures |Readers(s)| <= 127
    ensures WriterBit(s.word) <==> Writers(s) != {}
    ensures forall t :: 0 <= t < |s.pcs| ==> !s.pcs[t].AssertFailed?
  {
    ReachableInv(s);
    GuardCounts(s);
    forall t | 0 <= t < |s.pcs| ensures !s.pcs[t].AssertFailed? { assert Safe(s, t); }
  }

  /** The step attempts to acquire: try_lock_* called directly, inside with_mut, or in a spin loop. */
  predicate Attempts(s: State, a: Action, writer: bool)
    requires WellFormed(s) && Enabled(s, a)
  {
    || (a.CallTry? && a.writer == writer)
    || (a.Step? && s.pcs[a.t].Try? && ForWriters(s.pcs[a.t].list) == writer)
    || (a.Step? && s.pcs[a.t] == Spin(writer))
  }

  /** What an attempt finds, wherever it is made: a reader is refused exactly by a live writer and
      panics exactly when 127 ReadGuards are live; a writer is refused exactly by any live guard;
      otherwise it has its guard. */
  lemma AttemptOutcome(s: State, a: Action, writer: bool)
    requires WellFormed(s) && Reachable(s) && Enabled(s, a) && Attempts(s, a, writer)
    ensures var p := Next(s, a).pcs[a.t];
      var refused := Writers(s) != {} || (writer && Readers(s) != {});
      && (p.Panicked? <==> !writer && |Readers(s)| == 127)
      && (!writer ==> (HasReadGuard(p) <==> !refused && !p.Panicked?))
      && (writer ==> (HasWriteGuard(p) <==> !refused))
      && (refused ==> Next(s, a).word == s.word)
  {
    WordEncodesGuards(s);
  }

  predicate AboutToWake(p: Pc, k: Key) { (p.Taken? || p.Waking?) && k in p.batch }

  predicate OnItsWay(p: Pc, i: nat) { WillTake(i)(p) == 1 }

  /** No wake-up is lost.  A sleeping reader that nobody is about to wake is listed while a writer
      holds the lock or a releasing thread has still to take that list; only releasing writers do,
      so a reader's release need not wake readers.  A sleeping writer is listed while any guard is
      live or somebody has still to take its list. */
  lemma NoLostWakeup(s: State, t: nat)
    requires Reachable(s) && t < |s.pcs| && s.pcs[t].Asleep?
    ensures var i, k := s.pcs[t].list, s.pcs[t].key;
      || k in s.ready
      || (exists u :: 0 <= u < |s.pcs| && AboutToWake(s.pcs[u], k))
      || (i < 4 == |s.lists| && k in s.lists[i] &&
          exists u :: 0 <= u < |s.pcs| &&
            (HasWriteGuard(s.pcs[u]) || (ForWriters(i) && HasReadGuard(s.pcs[u])) || OnItsWay(s.pcs[u], i)))
  {
    ReachableInv(s);
    assert Safe(s, t);
    var i, k := s.pcs[t].list, s.pcs[t].key;
    if Sum(Carries(k), s.pcs) > 0 {
      var u := SumWitness(Carries(k), s.pcs);
      OccursIn(k, s.pcs[u].batch);
      assert AboutToWake(s.pcs[u], k);
    } else if k !in s.ready {
      if Sum(WillTake(i), s.pcs) > 0 {
        var u := SumWitness(WillTake(i), s.pcs);
        assert OnItsWay(s.pcs[u], i);
      } else if Sum(Writes, s.pcs) > 0 {
        var u := SumWitness(Writes, s.pcs);
        assert HasWriteGuard(s.pcs[u]);
      } else {
        var u := SumWitness(Reads, s.pcs);
        assert HasReadGuard(s.pcs[u]);
      }
    }
  }

  /** The thread is on its way through the readers' lists of did_unlock_write. */
  predicate VisitsReaders(p: Pc) {
    (p.Visit? || p.Taking? || p.Taken? || p.Waking?) && p.list < SYNC_WRITE
  }

  /** The last guard that t has dropped before `now`, at step k, was a WriteGuard. */
  ghost predicate DroppedWriter(states: seq<State>, schedule: seq<Action>, now: nat, t: nat, k: nat)
    requires |states| == |schedule| + 1 && now < |states|
  {
    && k < now && schedule[k] == Drop(t)
    && t < |states[k].pcs| && states[k].pcs[t] == Hold(true)
    && forall j :: k < j < now ==> schedule[j] != Drop(t)
  }

  lemma OthersStay(s: State, a: Action, t: nat)
    requires WellFormed(s) && Enabled(s, a) && t < |Next(s, a).pcs|
    ensures t < |s.pcs|
    ensures t != a.t ==> Next(s, a).pcs[t] == s.pcs[t]
    ensures t == a.t && VisitsReaders(Next(s, a).pcs[t]) ==>
      (a == Drop(t) && s.pcs[t] == Hold(true)) || (a != Drop(t) && VisitsReaders(s.pcs[t]))
  {
    assert Next(s, a).pcs == s.pcs[a.t := Next(s, a).pcs[a.t]];
  }

  /** A reader's release never takes or wakes a readers' list: in every run, a thread that visits,
      takes or wakes one of those lists dropped a WriteGuard last. */
  lemma {:induction false} OnlyWritersWakeReaders(states: seq<State>, schedule: seq<Action>, now: nat, t: nat) returns (k: nat)
    requires IsTrace(Leads, states, schedule) && (exists threads: nat :: states[0] == Init(threads)) && now < |states|
    requires t < |states[now].pcs| && VisitsReaders(states[now].pcs[t])
    ensures DroppedWriter(states, schedule, now, t, k)
  {
    assert now > 0;
    var a := schedule[now - 1];
    assert Leads(states[now - 1], a, states[now]);
    OthersStay(states[now - 1], a, t);
    if a == Drop(t) {
      k := now - 1;
    } else {
      k := OnlyWritersWakeReaders(states, schedule, now - 1, t);
    }
  }

  lemma SpinEnds(s: State, t: nat) returns (u: nat)
    requires Inv(s) && t < |s.pcs| && (s.pcs[t].Start? || s.pcs[t].Visit?)
    requires forall v :: 0 <= v < |s.pcs| ==> !s.pcs[v].Panicked?
    ensures u < |s.pcs| && CanStep(s, u)
    ensures u == t || Inside(s.pcs[t].list)(s.pcs[u]) == 1
  {
    var i := s.pcs[t].list;
    if s.locks[i] {
      u := SumWitness(Inside(i), s.pcs);
    } else {
      u := t;
    }
  }

  /** The system never wedges: while any call is unfinished and nobody panicked, some thread can
      move without a spurious wake-up, or is using a guard. */
  lemma NeverStuck(s: State, t: nat) returns (u: nat)
    requires Inv(s) && t < |s.pcs| && !s.pcs[t].Idle?
    requires forall v :: 0 <= v < |s.pcs| ==> !s.pcs[v].Panicked?
    ensures u < |s.pcs| && (CanStep(s, u) || s.pcs[u].Hold?)
  {
    u := t;
    assert Safe(s, t);
    if s.pcs[t].Start? || s.pcs[t].Visit? {
      u := SpinEnds(s, t);
    } else if s.pcs[t].Asleep? && s.pcs[t].key !in s.ready {
      var i, k := s.pcs[t].list, s.pcs[t].key;
      if Sum(Carries(k), s.pcs) > 0 {
        u := SumWitness(Carries(k), s.pcs);
      } else if Sum(WillTake(i), s.pcs) > 0 {
        u := SumWitness(WillTake(i), s.pcs);
        if s.pcs[u].Visit? { u := SpinEnds(s, u); }
      } else if Sum(Writes, s.pcs) > 0 {
        u := SumWitness(Writes, s.pcs);
      } else {
        u := SumWitness(Reads, s.pcs);
      }
    }
  }
}
