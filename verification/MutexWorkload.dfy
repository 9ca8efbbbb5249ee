/** Finite workloads complete: threads that each run finitely many lock_block / drop rounds, with
    no spurious wake-ups and with a list's spinlock acquired only when it is free, always finish,
    whatever the schedule. */
module MutexWorkload {
  import opened Parking
  import opened Sums
  import opened MutexModel
  import opened MutexInvariant
  import opened MutexTheorems

  /** The mutex, and how many rounds each thread has still to begin. */
  datatype Work = Work(s: State, rounds: seq<nat>)

  /** The only program points of untimed lock_block and of the guard's drop. */
  predicate Blocking(p: Pc) {
    match p
    case Idle => true
    case Start(i, timed) => i == SYNC && !timed
    case Try(i, timed) => i == SYNC && !timed
    case Got(i) => i == SYNC
    case Push(i, timed) => i == SYNC && !timed
    case Listed(i, _, timed) => i == SYNC && !timed
    case Asleep(i, _, timed) => i == SYNC && !timed
    case Hold => true
    case Visit(i) => i < 2
    case Taking(i) => i < 2
    case Taken(i, batch) => i < 2 && (i == ASYNC ==> batch == [])
    case Waking(i, batch) => i < 2 && (i == ASYNC ==> batch == [])
    case _ => false
  }

  /** The thread has pushed its handle and has not yet returned from park. */
  function Waits(p: Pc): nat { Bit(p.Listed? || p.Asleep?) }

  /** Every permit of thread t: its handles on the list and in batches, and its token. */
  ghost function Permits(s: State, t: nat): nat
    requires Shape(s)
  {
    Occurs(Handle(t), s.lists[SYNC]) + Sum(Carries(Handle(t)), s.pcs) + Bit(Handle(t) in s.ready)
  }

  /** A permit is conserved from the push to the return of park: there is exactly one, so no entry
      is duplicated and none outlives its wait. */
  ghost predicate OnePermit(s: State, t: nat)
    requires Shape(s) && t < |s.pcs|
  {
    Permits(s, t) == Waits(s.pcs[t])
  }

  ghost predicate WorkInv(w: Work) {
    && Inv(w.s)
    && |w.rounds| == |w.s.pcs|
    && w.s.lists[ASYNC] == []
    && (forall t :: 0 <= t < |w.s.pcs| ==> Blocking(w.s.pcs[t]) && OnePermit(w.s, t))
    && (forall k :: k in w.s.lists[SYNC] ==> k.Handle? && k.t < |w.s.pcs|)
    && (forall t :: 0 <= t < |w.s.pcs| && w.s.pcs[t].Taken? ==> |w.s.pcs[t].batch| <= |w.s.pcs|)
  }

  predicate WorkEnabled(w: Work, t: nat)
    requires WellFormed(w.s) && |w.rounds| == |w.s.pcs|
  {
    t < |w.rounds| &&
    ((w.s.pcs[t].Idle? && w.rounds[t] > 0) || w.s.pcs[t].Hold? || CanStep(w.s, t))
  }

  function WorkNext(w: Work, t: nat): Work
    requires WellFormed(w.s) && |w.rounds| == |w.s.pcs| && WorkEnabled(w, t)
  {
    if w.s.pcs[t].Idle? then
      Work(Next(w.s, CallLock(t, SYNC, false)), w.rounds[t := w.rounds[t] - 1])
    else if w.s.pcs[t].Hold? then w.(s := Next(w.s, Drop(t)))
    else w.(s := StepOf(w.s, t))
  }

  // ---- conservation of permits ----

  lemma PermitsFollow(s: State, s': State, t: nat)
    requires Inv(s) && Inv(s') && Moved(s, s', t)
    ensures forall u :: 0 <= u < |s.pcs| ==>
      Permits(s', u) + Occurs(Handle(u), s.lists[SYNC]) + Carries(Handle(u))(s.pcs[t]) + Bit(Handle(u) in s.ready)
      == Permits(s, u) + Occurs(Handle(u), s'.lists[SYNC]) + Carries(Handle(u))(s'.pcs[t]) + Bit(Handle(u) in s'.ready)
  {
    forall u | 0 <= u < |s.pcs|
      ensures Permits(s', u) + Occurs(Handle(u), s.lists[SYNC]) + Carries(Handle(u))(s.pcs[t]) + Bit(Handle(u) in s.ready)
           == Permits(s, u) + Occurs(Handle(u), s'.lists[SYNC]) + Carries(Handle(u))(s'.pcs[t]) + Bit(Handle(u) in s'.ready)
    {
      SumUpdate(Carries(Handle(u)), s.pcs, t, s'.pcs[t]);
    }
  }

  /** A step that creates no permit, moves none and consumes none. */
  lemma WorkKept(w: Work, w': Work, t: nat)
    requires WorkInv(w) && Inv(w'.s) && |w'.rounds| == |w'.s.pcs| && Moved(w.s, w'.s, t)
    requires w'.s.lists == w.s.lists && w'.s.ready == w.s.ready
    requires Waits(w.s.pcs[t]) == Waits(w'.s.pcs[t]) && Blocking(w'.s.pcs[t]) && !w'.s.pcs[t].Taken?
    requires forall k :: Carries(k)(w.s.pcs[t]) == Carries(k)(w'.s.pcs[t])
    ensures WorkInv(w')
  {
    PermitsFollow(w.s, w'.s, t);
    forall u | 0 <= u < |w.s.pcs| ensures Blocking(w'.s.pcs[u]) && OnePermit(w'.s, u) {
      assert OnePermit(w.s, u);
    }
  }

  lemma WorkCall(w: Work, t: nat)
    requires WorkInv(w) && WorkEnabled(w, t) && (w.s.pcs[t].Idle? || w.s.pcs[t].Hold?)
    ensures WorkInv(WorkNext(w, t))
  {
    InvNext(w.s, if w.s.pcs[t].Idle? then CallLock(t, SYNC, false) else Drop(t));
    WorkKept(w, WorkNext(w, t), t);
  }

  lemma WorkPlain(w: Work, t: nat)
    requires WorkInv(w) && t < |w.s.pcs| && CanStep(w.s, t)
    requires var p := w.s.pcs[t]; !p.Push? && !p.Asleep? && !p.Taking? && (p.Waking? ==> p.batch == [])
    ensures WorkInv(WorkNext(w, t))
  {
    InvNext(w.s, Step(t));
    assert Blocking(w.s.pcs[t]);
    WorkKept(w, WorkNext(w, t), t);
  }

  lemma WorkPush(w: Work, t: nat)
    requires WorkInv(w) && t < |w.s.pcs| && w.s.pcs[t].Push?
    ensures WorkInv(WorkNext(w, t))
  {
    var w' := WorkNext(w, t);
    InvNext(w.s, Step(t));
    PermitsFollow(w.s, w'.s, t);
    forall u | 0 <= u < |w.s.pcs| ensures Blocking(w'.s.pcs[u]) && OnePermit(w'.s, u) {
      assert OnePermit(w.s, u);
      OccursAppend(Handle(u), w.s.lists[SYNC], [Handle(t)]);
    }
  }

  lemma WorkResume(w: Work, t: nat)
    requires WorkInv(w) && t < |w.s.pcs| && w.s.pcs[t].Asleep? && CanStep(w.s, t)
    ensures WorkInv(WorkNext(w, t))
  {
    var w' := WorkNext(w, t);
    InvNext(w.s, Step(t));
    PermitsFollow(w.s, w'.s, t);
    assert Safe(w.s, t);
    forall u | 0 <= u < |w.s.pcs| ensures Blocking(w'.s.pcs[u]) && OnePermit(w'.s, u) {
      assert OnePermit(w.s, u);
    }
  }

  lemma WorkTake(w: Work, t: nat)
    requires WorkInv(w) && t < |w.s.pcs| && w.s.pcs[t].Taking?
    ensures WorkInv(WorkNext(w, t))
  {
    var w' := WorkNext(w, t);
    InvNext(w.s, Step(t));
    PermitsFollow(w.s, w'.s, t);
    forall u | 0 <= u < |w.s.pcs| ensures Blocking(w'.s.pcs[u]) && OnePermit(w'.s, u) {
      assert OnePermit(w.s, u);
    }
    forall u | 0 <= u < |w.s.pcs| ensures Occurs(Handle(u), w.s.lists[SYNC]) <= 1 {
      assert OnePermit(w.s, u);
    }
    ShortList(w.s.lists[SYNC], |w.s.pcs|);
  }

  /** Unparking turns a batched handle into a token: the thread had no token yet, so the
      idempotence of unpark swallows nothing. */
  lemma WorkWake(w: Work, t: nat)
    requires WorkInv(w) && t < |w.s.pcs| && w.s.pcs[t].Waking? && w.s.pcs[t].batch != []
    ensures WorkInv(WorkNext(w, t))
  {
    var w', batch := WorkNext(w, t), w.s.pcs[t].batch;
    InvNext(w.s, Step(t));
    PermitsFollow(w.s, w'.s, t);
    forall u | 0 <= u < |w.s.pcs| ensures Blocking(w'.s.pcs[u]) && OnePermit(w'.s, u) {
      assert OnePermit(w.s, u);
      SumAtLeast(Carries(Handle(u)), w.s.pcs, t);
      OccursHead(Handle(u), batch);
    }
  }

  lemma WorkInvNext(w: Work, t: nat)
    requires WorkInv(w) && WorkEnabled(w, t)
    ensures WorkInv(WorkNext(w, t))
  {
    var p := w.s.pcs[t];
    if p.Idle? || p.Hold? {
      WorkCall(w, t);
    } else if p.Push? {
      WorkPush(w, t);
    } else if p.Asleep? {
      WorkResume(w, t);
    } else if p.Taking? {
      WorkTake(w, t);
    } else if p.Waking? && p.batch != [] {
      WorkWake(w, t);
    } else {
      WorkPlain(w, t);
    }
  }

  // ---- the measure ----

  /** An upper bound on the steps a thread at p can still cause, other than by its later rounds:
      a thread that has not yet dropped its guard can still wake every thread once, and every
      wake-up can make its thread try, fail and park once more. */
  function Cost(n: nat): Pc -> nat {
    (p: Pc) =>
      match p
      case Start(_, _) => 8 * n + 28
      case Try(_, _) => 8 * n + 27
      case Got(_) => 8 * n + 26
      case Push(_, _) => 8 * n + 26
      case Listed(_, _, _) => 8 * n + 25
      case Asleep(_, _, _) => 8 * n + 24
      case Hold => 8 * n + 25
      case Visit(i) => if i == SYNC then 8 * n + 12 else 8
      case Taking(i) => if i == SYNC then 8 * n + 11 else 7
      case Taken(i, batch) => if i == SYNC then 8 * |batch| + 10 else 6
      case Waking(i, batch) => if i == SYNC then 8 * |batch| + 9 else 5
      case _ => 0
  }

  function RoundsCost(n: nat): nat -> nat {
    (r: nat) => r * (8 * n + 29)
  }

  function Measure(w: Work): nat {
    Sum(Cost(|w.s.pcs|), w.s.pcs) + Sum(RoundsCost(|w.s.pcs|), w.rounds) + 7 * |w.s.ready|
  }

  lemma OneRoundLess(n: nat, r: nat)
    requires r > 0
    ensures RoundsCost(n)(r) == RoundsCost(n)(r - 1) + 8 * n + 29
  {
    var c := 8 * n + 29;
    assert r * c == (r - 1) * c + c;
  }

  lemma MeasureCall(w: Work, t: nat)
    requires WorkInv(w) && WorkEnabled(w, t) && w.s.pcs[t].Idle?
    ensures Measure(WorkNext(w, t)) < Measure(w)
  {
    var w', n := WorkNext(w, t), |w.s.pcs|;
    SumUpdate(Cost(n), w.s.pcs, t, w'.s.pcs[t]);
    SumUpdate(RoundsCost(n), w.rounds, t, w'.rounds[t]);
    OneRoundLess(n, w.rounds[t]);
  }

  lemma MeasureLocking(w: Work, t: nat)
    requires WellFormed(w.s) && |w.rounds| == |w.s.pcs| && WorkEnabled(w, t) && Blocking(w.s.pcs[t])
    requires var p := w.s.pcs[t]; p.Start? || p.Try? || p.Got? || p.Push? || p.Listed?
    ensures Measure(WorkNext(w, t)) < Measure(w)
  {
    SumUpdate(Cost(|w.s.pcs|), w.s.pcs, t, WorkNext(w, t).s.pcs[t]);
  }

  lemma MeasureDropping(w: Work, t: nat)
    requires WellFormed(w.s) && |w.rounds| == |w.s.pcs| && WorkEnabled(w, t) && Blocking(w.s.pcs[t])
    requires var p := w.s.pcs[t]; p.Hold? || p.Visit? || p.Taken?
    ensures Measure(WorkNext(w, t)) < Measure(w)
  {
    SumUpdate(Cost(|w.s.pcs|), w.s.pcs, t, WorkNext(w, t).s.pcs[t]);
  }

  lemma MeasureTake(w: Work, t: nat)
    requires WorkInv(w) && WorkEnabled(w, t) && w.s.pcs[t].Taking?
    ensures Measure(WorkNext(w, t)) < Measure(w)
  {
    var w', n := WorkNext(w, t), |w.s.pcs|;
    WorkTake(w, t);
    SumUpdate(Cost(n), w.s.pcs, t, w'.s.pcs[t]);
    assert w'.s.pcs[t].Taken? && |w'.s.pcs[t].batch| <= n;
  }

  lemma MeasureResume(w: Work, t: nat)
    requires WorkInv(w) && WorkEnabled(w, t) && w.s.pcs[t].Asleep?
    ensures Measure(WorkNext(w, t)) < Measure(w)
  {
    var w', n := WorkNext(w, t), |w.s.pcs|;
    SumUpdate(Cost(n), w.s.pcs, t, w'.s.pcs[t]);
    assert Safe(w.s, t) && Blocking(w.s.pcs[t]);
    assert |w'.s.ready| + 1 == |w.s.ready|;
  }

  lemma MeasureWake(w: Work, t: nat)
    requires WellFormed(w.s) && |w.rounds| == |w.s.pcs| && WorkEnabled(w, t) && Blocking(w.s.pcs[t])
    requires w.s.pcs[t].Waking?
    ensures Measure(WorkNext(w, t)) < Measure(w)
  {
    var w', n := WorkNext(w, t), |w.s.pcs|;
    SumUpdate(Cost(n), w.s.pcs, t, w'.s.pcs[t]);
    assert |w'.s.ready| <= |w.s.ready| + 1;
  }

  /** Every step of every schedule brings the end nearer. */
  lemma MeasureDecreases(w: Work, t: nat)
    requires WorkInv(w) && WorkEnabled(w, t)
    ensures Measure(WorkNext(w, t)) < Measure(w)
  {
    var p := w.s.pcs[t];
    assert Blocking(p);
    if p.Idle? {
      MeasureCall(w, t);
    } else if p.Asleep? {
      MeasureResume(w, t);
    } else if p.Waking? {
      MeasureWake(w, t);
    } else if p.Taking? {
      MeasureTake(w, t);
    } else if p.Hold? || p.Visit? || p.Taken? {
      MeasureDropping(w, t);
    } else {
      MeasureLocking(w, t);
    }
  }

  predicate Finished(w: Work) {
    forall t :: 0 <= t < |w.s.pcs| ==> w.s.pcs[t].Idle? && (t < |w.rounds| ==> w.rounds[t] == 0)
  }

  /** No unfinished state is stuck. */
  lemma WorkNeverStuck(w: Work)
    requires WorkInv(w) && !Finished(w)
    ensures exists u :: 0 <= u < |w.rounds| && WorkEnabled(w, u)
  {
    var t :| 0 <= t < |w.s.pcs| && !(w.s.pcs[t].Idle? && w.rounds[t] == 0);
    if w.s.pcs[t].Idle? {
      assert WorkEnabled(w, t);
    } else {
      var u := NeverStuck(w.s, t);
      assert Blocking(w.s.pcs[u]);
      assert WorkEnabled(w, u);
    }
  }

  function WorkInit(rounds: seq<nat>, initial: Data): Work {
    Work(Init(|rounds|, initial), rounds)
  }

  lemma InitPermits(threads: nat, initial: Data, u: nat)
    requires u < threads
    ensures OnePermit(Init(threads, initial), u)
  {
    SumZero(Carries(Handle(u)), Init(threads, initial).pcs);
  }

  lemma WorkInitInv(rounds: seq<nat>, initial: Data)
    ensures WorkInv(WorkInit(rounds, initial))
  {
    var w := WorkInit(rounds, initial);
    InitInv(|rounds|, initial);
    forall u | 0 <= u < |w.s.pcs| ensures OnePermit(w.s, u) {
      InitPermits(|rounds|, initial, u);
    }
  }

  lemma WorkInitMeasure(rounds: seq<nat>, initial: Data)
    ensures Measure(WorkInit(rounds, initial)) == Sum(RoundsCost(|rounds|), rounds)
  {
    SumZero(Cost(|rounds|), Init(|rounds|, initial).pcs);
  }

  // ---- every round has its guard ----

  /** The thread is in a round and has yet to acquire the lock. */
  predicate Wants(p: Pc) { p.Start? || p.Try? || p.Push? || p.Listed? || p.Asleep? }

  /** How often thread t has acquired the lock, is about to, and will still begin to. */
  function Tally(w: Work, t: nat): nat
    requires t < |w.s.pcs| == |w.rounds|
  {
    Occurs(t, w.s.acquired) + Bit(Wants(w.s.pcs[t])) + w.rounds[t]
  }

  lemma TallyStep(w: Work, t: nat, u: nat)
    requires WellFormed(w.s) && |w.rounds| == |w.s.pcs| && WorkEnabled(w, t) && u < |w.s.pcs| && Blocking(w.s.pcs[t])
    ensures |WorkNext(w, t).rounds| == |WorkNext(w, t).s.pcs| == |w.s.pcs|
    ensures Tally(WorkNext(w, t), u) == Tally(w, u)
  {
    OccursAppend(u, w.s.acquired, [t]);
  }

  /** So far every thread has had, is about to have and will have the guard once for each round. */
  predicate OneGuardARound(w: Work, rounds: seq<nat>) {
    |w.s.pcs| == |w.rounds| == |rounds| && forall t :: 0 <= t < |rounds| ==> Tally(w, t) == rounds[t]
  }

  lemma GuardsNext(w: Work, t: nat, rounds: seq<nat>)
    requires WorkInv(w) && WorkEnabled(w, t) && OneGuardARound(w, rounds)
    ensures OneGuardARound(WorkNext(w, t), rounds)
  {
    assert Blocking(w.s.pcs[t]);
    TallyStep(w, t, t);
    forall u | 0 <= u < |rounds| ensures Tally(WorkNext(w, t), u) == rounds[u] { TallyStep(w, t, u); }
  }

  lemma {:induction false} WalkGuards(w: Work, schedule: seq<nat>, rounds: seq<nat>)
    requires WorkInv(w) && OneGuardARound(w, rounds) && Walk(w, schedule).Some?
    ensures OneGuardARound(Walk(w, schedule).value, rounds)
    decreases |schedule|
  {
    if schedule != [] {
      GuardsNext(w, schedule[0], rounds);
      WorkInvNext(w, schedule[0]);
      WalkGuards(WorkNext(w, schedule[0]), schedule[1..], rounds);
    }
  }

  /** The workload after the threads in `schedule` have moved in that order. */
  function Walk(w: Work, schedule: seq<nat>): Option<Work>
    decreases |schedule|
  {
    if schedule == [] then Some(w)
    else if WellFormed(w.s) && |w.rounds| == |w.s.pcs| && WorkEnabled(w, schedule[0]) then
      Walk(WorkNext(w, schedule[0]), schedule[1..])
    else None
  }

  lemma {:induction false} WalkInv(w: Work, schedule: seq<nat>)
    requires WorkInv(w) && Walk(w, schedule).Some?
    ensures WorkInv(Walk(w, schedule).value)
    ensures |schedule| + Measure(Walk(w, schedule).value) <= Measure(w)
    decreases |schedule|
  {
    if schedule != [] {
      WorkInvNext(w, schedule[0]);
      MeasureDecreases(w, schedule[0]);
      WalkInv(WorkNext(w, schedule[0]), schedule[1..]);
    }
  }
}
