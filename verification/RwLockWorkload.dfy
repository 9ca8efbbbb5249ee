/** Finite workloads complete: threads that each run finitely many lock_block_read or
    lock_block_write rounds, in any mix, at most 127 of them ever reading, with no spurious
    wake-ups and with a list's spinlock acquired only when it is free, always finish, whatever
    the schedule. */
module RwLockWorkload {
  import opened Parking
  import opened Sums
  import opened RwLockModel
  import opened RwLockInvariant
  import opened RwLockTheorems

  /** The lock, for each thread the rounds it has still to begin (true for a write round), and
      which threads have read rounds at all. */
  datatype Work = Work(s: State, rounds: seq<seq<bool>>, readers: seq<bool>)

  /** The thread is in a read round. */
  predicate Reading(p: Pc) {
    match p
    case Start(i) => i == SYNC_READ
    case Try(i) => i == SYNC_READ
    case Got(i) => i == SYNC_READ
    case Push(i) => i == SYNC_READ
    case Listed(i, _) => i == SYNC_READ
    case Asleep(i, _) => i == SYNC_READ
    case Hold(writer) => !writer
    case _ => false
  }

  /** At most 127 threads ever read, and only they do. */
  ghost predicate FewReaders(w: Work) {
    && |w.readers| == |w.rounds| == |w.s.pcs|
    && Sum(Bit, w.readers) < LOCKED_WRITE
    && forall t :: 0 <= t < |w.s.pcs| && (Reading(w.s.pcs[t]) || false in w.rounds[t]) ==> w.readers[t]
  }

  predicate Blocking(p: Pc) {
    match p
    case Idle => true
    case Start(i) => ForThreads(i)
    case Try(i) => ForThreads(i)
    case Got(i) => ForThreads(i)
    case Push(i) => ForThreads(i)
    case Listed(i, _) => ForThreads(i)
    case Asleep(i, _) => ForThreads(i)
    case Hold(_) => true
    case Visit(i) => i < 4
    case Taking(i) => i < 4
    case Taken(i, batch) => i < 4 && (!ForThreads(i) ==> batch == [])
    case Waking(i, batch) => i < 4 && (!ForThreads(i) ==> batch == [])
    case _ => false
  }

  function Waits(p: Pc): nat { Bit(p.Listed? || p.Asleep?) }

  /** Every permit of thread t, over both lists of threads. */
  ghost function Permits(s: State, t: nat): nat
    requires Shape(s)
  {
    Occurs(Handle(t), s.lists[SYNC_READ]) + Occurs(Handle(t), s.lists[SYNC_WRITE])
    + Sum(Carries(Handle(t)), s.pcs) + Bit(Handle(t) in s.ready)
  }

  ghost predicate OnePermit(s: State, t: nat)
    requires Shape(s) && t < |s.pcs|
  {
    Permits(s, t) == Waits(s.pcs[t])
  }

  predicate OnlyThreads(list: seq<Key>, n: nat) {
    forall k :: k in list ==> k.Handle? && k.t < n
  }

  ghost predicate WorkInv(w: Work) {
    PermitInv(w) && FewReaders(w)
  }

  ghost predicate PermitInv(w: Work) {
    && Inv(w.s)
    && |w.rounds| == |w.s.pcs|
    && w.s.lists[ASYNC_READ] == [] && w.s.lists[ASYNC_WRITE] == []
    && OnlyThreads(w.s.lists[SYNC_READ], |w.s.pcs|) && OnlyThreads(w.s.lists[SYNC_WRITE], |w.s.pcs|)
    && (forall t :: 0 <= t < |w.s.pcs| ==> Blocking(w.s.pcs[t]) && OnePermit(w.s, t))
    && (forall t :: 0 <= t < |w.s.pcs| && w.s.pcs[t].Taken? ==> |w.s.pcs[t].batch| <= |w.s.pcs|)
  }

  predicate WorkEnabled(w: Work, t: nat)
    requires WellFormed(w.s) && |w.rounds| == |w.s.pcs|
  {
    t < |w.rounds| &&
    ((w.s.pcs[t].Idle? && w.rounds[t] != []) || w.s.pcs[t].Hold? || CanStep(w.s, t))
  }

  function WorkNext(w: Work, t: nat): Work
    requires WellFormed(w.s) && |w.rounds| == |w.s.pcs| && WorkEnabled(w, t)
  {
    if w.s.pcs[t].Idle? then
      w.(s := Next(w.s, CallLock(t, if w.rounds[t][0] then SYNC_WRITE else SYNC_READ)),
         rounds := w.rounds[t := w.rounds[t][1..]])
    else if w.s.pcs[t].Hold? then w.(s := Next(w.s, Drop(t)))
    else w.(s := StepOf(w.s, t))
  }

  // ---- conservation of permits ----

  /** The permits of thread u that a move of thread t can touch. */
  ghost function Near(s: State, t: nat, u: nat): nat
    requires Shape(s) && t < |s.pcs|
  {
    Occurs(Handle(u), s.lists[SYNC_READ]) + Occurs(Handle(u), s.lists[SYNC_WRITE])
    + Carries(Handle(u))(s.pcs[t]) + Bit(Handle(u) in s.ready)
  }

  /** If the move creates and consumes permits exactly where it begins and ends waits, everybody
      still has one permit per wait. */
  lemma PermitsKept(w: Work, w': Work, t: nat)
    requires PermitInv(w) && Inv(w'.s) && |w'.rounds| == |w'.s.pcs| && Moved(w.s, w'.s, t)
    requires w'.s.lists[ASYNC_READ] == [] && w'.s.lists[ASYNC_WRITE] == []
    requires OnlyThreads(w'.s.lists[SYNC_READ], |w.s.pcs|) && OnlyThreads(w'.s.lists[SYNC_WRITE], |w.s.pcs|)
    requires Blocking(w'.s.pcs[t]) && (w'.s.pcs[t].Taken? ==> |w'.s.pcs[t].batch| <= |w.s.pcs|)
    requires forall u :: 0 <= u < |w.s.pcs| ==>
      Near(w'.s, t, u) + Waits(w.s.pcs[u]) == Near(w.s, t, u) + Waits(w'.s.pcs[u])
    ensures PermitInv(w')
  {
    forall u | 0 <= u < |w.s.pcs| ensures Blocking(w'.s.pcs[u]) && OnePermit(w'.s, u) {
      assert OnePermit(w.s, u);
      SumUpdate(Carries(Handle(u)), w.s.pcs, t, w'.s.pcs[t]);
    }
  }

  lemma PermitCall(w: Work, t: nat)
    requires PermitInv(w) && WorkEnabled(w, t) && w.s.pcs[t].Idle?
    ensures PermitInv(WorkNext(w, t))
  {
    CallKeeps(w.s, CallLock(t, if w.rounds[t][0] then SYNC_WRITE else SYNC_READ));
    PermitsKept(w, WorkNext(w, t), t);
  }

  lemma PermitDrop(w: Work, t: nat)
    requires PermitInv(w) && WorkEnabled(w, t) && w.s.pcs[t].Hold?
    ensures PermitInv(WorkNext(w, t))
  {
    StepDrop(w.s, t);
    ReleaseEncodes(w.s, t);
    PermitsKept(w, WorkNext(w, t), t);
  }

  /** With at most 127 threads that read, one of which holds nothing, there is room for one reader
      more. */
  lemma RoomForReader(w: Work, t: nat)
    requires WorkInv(w) && t < |w.s.pcs| && w.s.pcs[t] == Try(SYNC_READ)
    ensures Sum(Reads, w.s.pcs) < LOCKED_WRITE - 1
  {
    var more := w.s.pcs[t := Hold(false)];
    SumUpdate(Reads, w.s.pcs, t, Hold(false));
    forall u | 0 <= u < |more| ensures Reads(more[u]) <= Bit(w.readers[u]) {
      assert Blocking(w.s.pcs[u]) && w.readers[t];
    }
    SumPointwise(Reads, more, Bit, w.readers);
  }

  lemma PermitTryRead(w: Work, t: nat)
    requires PermitInv(w) && t < |w.s.pcs| && w.s.pcs[t] == Try(SYNC_READ)
    requires Sum(Reads, w.s.pcs) < LOCKED_WRITE - 1
    ensures PermitInv(WorkNext(w, t))
  {
    StepTry(w.s, t);
    AcquireOutcome(w.s, t, false, SYNC_READ, Got(SYNC_READ), Push(SYNC_READ));
    assert w.s.word != LOCKED_WRITE - 1;
    PermitsKept(w, WorkNext(w, t), t);
  }

  lemma PermitTryWrite(w: Work, t: nat)
    requires PermitInv(w) && t < |w.s.pcs| && w.s.pcs[t] == Try(SYNC_WRITE)
    ensures PermitInv(WorkNext(w, t))
  {
    StepTry(w.s, t);
    PermitsKept(w, WorkNext(w, t), t);
  }

  lemma PermitPlain(w: Work, t: nat)
    requires PermitInv(w) && t < |w.s.pcs| && CanStep(w.s, t)
    requires var p := w.s.pcs[t];
      p.Start? || p.Got? || p.Listed? || p.Visit? || p.Taken? || (p.Waking? && p.batch == [])
    ensures PermitInv(WorkNext(w, t))
  {
    InvStep(w.s, t);
    assert Blocking(w.s.pcs[t]);
    PermitsKept(w, WorkNext(w, t), t);
  }

  lemma PermitPush(w: Work, t: nat)
    requires PermitInv(w) && t < |w.s.pcs| && w.s.pcs[t].Push?
    ensures PermitInv(WorkNext(w, t))
  {
    var w' := WorkNext(w, t);
    StepPush(w.s, t);
    assert Blocking(w.s.pcs[t]);
    forall u | 0 <= u < |w.s.pcs|
      ensures Near(w'.s, t, u) + Waits(w.s.pcs[u]) == Near(w.s, t, u) + Waits(w'.s.pcs[u])
    {
      OccursAppend(Handle(u), w.s.lists[w.s.pcs[t].list], [Handle(t)]);
    }
    PermitsKept(w, w', t);
  }

  lemma PermitResume(w: Work, t: nat)
    requires PermitInv(w) && t < |w.s.pcs| && w.s.pcs[t].Asleep? && CanStep(w.s, t)
    ensures PermitInv(WorkNext(w, t))
  {
    StepResume(w.s, t);
    assert Blocking(w.s.pcs[t]) && Safe(w.s, t);
    PermitsKept(w, WorkNext(w, t), t);
  }

  lemma TakenIsShort(w: Work, i: nat)
    requires PermitInv(w) && (i == SYNC_READ || i == SYNC_WRITE)
    ensures |w.s.lists[i]| <= |w.s.pcs|
  {
    forall u | 0 <= u < |w.s.pcs| ensures Occurs(Handle(u), w.s.lists[i]) <= 1 {
      assert OnePermit(w.s, u);
    }
    ShortList(w.s.lists[i], |w.s.pcs|);
  }

  lemma PermitTake(w: Work, t: nat)
    requires PermitInv(w) && t < |w.s.pcs| && w.s.pcs[t].Taking?
    ensures PermitInv(WorkNext(w, t))
  {
    StepTake(w.s, t);
    assert Blocking(w.s.pcs[t]);
    if ForThreads(w.s.pcs[t].list) { TakenIsShort(w, w.s.pcs[t].list); }
    PermitsKept(w, WorkNext(w, t), t);
  }

  /** Unparking turns a batched handle into a token: the thread had no token yet, so the
      idempotence of unpark swallows nothing. */
  lemma PermitWake(w: Work, t: nat)
    requires PermitInv(w) && t < |w.s.pcs| && w.s.pcs[t].Waking? && w.s.pcs[t].batch != []
    ensures PermitInv(WorkNext(w, t))
  {
    var w', batch := WorkNext(w, t), w.s.pcs[t].batch;
    StepWake(w.s, t);
    forall u | 0 <= u < |w.s.pcs|
      ensures Near(w'.s, t, u) + Waits(w.s.pcs[u]) == Near(w.s, t, u) + Waits(w'.s.pcs[u])
    {
      assert OnePermit(w.s, u);
      SumAtLeast(Carries(Handle(u)), w.s.pcs, t);
      OccursHead(Handle(u), batch);
    }
    PermitsKept(w, w', t);
  }

  lemma ReadersStep(w: Work, t: nat)
    requires WellFormed(w.s) && FewReaders(w) && WorkEnabled(w, t) && !w.s.pcs[t].Idle? && Blocking(w.s.pcs[t])
    ensures FewReaders(WorkNext(w, t))
  {
    var w' := WorkNext(w, t);
    assert Reading(w'.s.pcs[t]) ==> Reading(w.s.pcs[t]);
    forall u | 0 <= u < |w.s.pcs| && (Reading(w'.s.pcs[u]) || false in w'.rounds[u]) ensures w'.readers[u] {
      assert u != t ==> w'.s.pcs[u] == w.s.pcs[u];
    }
  }

  lemma ReadersCall(w: Work, t: nat)
    requires WellFormed(w.s) && FewReaders(w) && WorkEnabled(w, t) && w.s.pcs[t].Idle?
    ensures FewReaders(WorkNext(w, t))
  {
    var w' := WorkNext(w, t);
    assert false in w'.rounds[t] ==> false in w.rounds[t];
    assert Reading(w'.s.pcs[t]) ==> !w.rounds[t][0];
    forall u | 0 <= u < |w.s.pcs| && (Reading(w'.s.pcs[u]) || false in w'.rounds[u]) ensures w'.readers[u] {
      assert u != t ==> w'.s.pcs[u] == w.s.pcs[u] && w'.rounds[u] == w.rounds[u];
    }
  }

  lemma WorkInvNext(w: Work, t: nat)
    requires WorkInv(w) && WorkEnabled(w, t)
    ensures WorkInv(WorkNext(w, t))
  {
    var p := w.s.pcs[t];
    assert Blocking(p);
    if p.Idle? { ReadersCall(w, t); } else { ReadersStep(w, t); }
    if p.Idle? {
      PermitCall(w, t);
    } else if p.Hold? {
      PermitDrop(w, t);
    } else if p.Try? {
      if p.list == SYNC_READ {
        RoomForReader(w, t);
        PermitTryRead(w, t);
      } else {
        PermitTryWrite(w, t);
      }
    } else if p.Push? {
      PermitPush(w, t);
    } else if p.Asleep? {
      PermitResume(w, t);
    } else if p.Taking? {
      PermitTake(w, t);
    } else if p.Waking? && p.batch != [] {
      PermitWake(w, t);
    } else {
      PermitPlain(w, t);
    }
  }

  // ---- the measure ----

  /** As for the mutex, except that a writer's release empties two lists of threads. */
  function Cost(n: nat): Pc -> nat {
    (p: Pc) =>
      match p
      case Start(_) => 16 * n + 24
      case Try(_) => 16 * n + 23
      case Got(_) => 16 * n + 22
      case Push(_) => 16 * n + 22
      case Listed(_, _) => 16 * n + 21
      case Asleep(_, _) => 16 * n + 20
      case Hold(_) => 16 * n + 21
      case Visit(i) => Tail(n, i) + 4
      case Taking(i) => Tail(n, i) + 3
      case Taken(i, batch) => TakenCost(n, i, |batch|) + 1
      case Waking(i, batch) => TakenCost(n, i, |batch|)
      case _ => 0
  }

  /** What is left to pay for once list i is about to be taken. */
  function Tail(n: nat, i: nat): nat {
    if i == SYNC_READ then 16 * n + 16
    else if i == ASYNC_READ then 8 * n + 12
    else if i == SYNC_WRITE then 8 * n + 8
    else 4
  }

  function TakenCost(n: nat, i: nat, batch: nat): nat {
    if i == SYNC_READ then 8 * n + 8 * batch + 17
    else if i == ASYNC_READ then 8 * n + 13
    else if i == SYNC_WRITE then 8 * batch + 9
    else 5
  }

  function RoundsCost(n: nat): seq<bool> -> nat {
    (r: seq<bool>) => |r| * (16 * n + 25)
  }

  function Measure(w: Work): nat {
    Sum(Cost(|w.s.pcs|), w.s.pcs) + Sum(RoundsCost(|w.s.pcs|), w.rounds) + 7 * |w.s.ready|
  }

  lemma OneRoundLess(n: nat, r: seq<bool>)
    requires r != []
    ensures RoundsCost(n)(r) == RoundsCost(n)(r[1..]) + 16 * n + 25
  {
    var c := 16 * n + 25;
    assert |r| * c == (|r| - 1) * c + c;
  }

  lemma MeasureCall(w: Work, t: nat)
    requires WellFormed(w.s) && |w.rounds| == |w.s.pcs| && WorkEnabled(w, t) && w.s.pcs[t].Idle?
    ensures Measure(WorkNext(w, t)) < Measure(w)
  {
    var w', n := WorkNext(w, t), |w.s.pcs|;
    SumUpdate(Cost(n), w.s.pcs, t, w'.s.pcs[t]);
    SumUpdate(RoundsCost(n), w.rounds, t, w'.rounds[t]);
    OneRoundLess(n, w.rounds[t]);
  }

  lemma MeasureLocking(w: Work, t: nat)
    requires WellFormed(w.s) && |w.rounds| == |w.s.pcs| && WorkEnabled(w, t) && Blocking(w.s.pcs[t])
    requires w.s.pcs[t].Start? || w.s.pcs[t].Try?
    ensures Measure(WorkNext(w, t)) < Measure(w)
  {
    SumUpdate(Cost(|w.s.pcs|), w.s.pcs, t, WorkNext(w, t).s.pcs[t]);
  }

  lemma MeasureListing(w: Work, t: nat)
    requires WellFormed(w.s) && |w.rounds| == |w.s.pcs| && WorkEnabled(w, t) && Blocking(w.s.pcs[t])
    requires var p := w.s.pcs[t]; p.Got? || p.Push? || p.Listed?
    ensures Measure(WorkNext(w, t)) < Measure(w)
  {
    SumUpdate(Cost(|w.s.pcs|), w.s.pcs, t, WorkNext(w, t).s.pcs[t]);
  }

  lemma MeasureDropping(w: Work, t: nat)
    requires WellFormed(w.s) && |w.rounds| == |w.s.pcs| && WorkEnabled(w, t) && Blocking(w.s.pcs[t])
    requires w.s.pcs[t].Hold?
    ensures Measure(WorkNext(w, t)) < Measure(w)
  {
    SumUpdate(Cost(|w.s.pcs|), w.s.pcs, t, WorkNext(w, t).s.pcs[t]);
  }

  lemma MeasureVisiting(w: Work, t: nat)
    requires WellFormed(w.s) && |w.rounds| == |w.s.pcs| && WorkEnabled(w, t) && Blocking(w.s.pcs[t])
    requires w.s.pcs[t].Visit? || w.s.pcs[t].Taken?
    ensures Measure(WorkNext(w, t)) < Measure(w)
  {
    SumUpdate(Cost(|w.s.pcs|), w.s.pcs, t, WorkNext(w, t).s.pcs[t]);
  }

  lemma MeasureTake(w: Work, t: nat)
    requires WorkInv(w) && WorkEnabled(w, t) && w.s.pcs[t].Taking?
    ensures Measure(WorkNext(w, t)) < Measure(w)
  {
    var w', n := WorkNext(w, t), |w.s.pcs|;
    PermitTake(w, t);
    SumUpdate(Cost(n), w.s.pcs, t, w'.s.pcs[t]);
    assert w'.s.pcs[t].Taken? && |w'.s.pcs[t].batch| <= n;
  }

  lemma MeasureResume(w: Work, t: nat)
    requires WorkInv(w) && WorkEnabled(w, t) && w.s.pcs[t].Asleep?
    ensures Measure(WorkNext(w, t)) < Measure(w)
  {
    var w', n := WorkNext(w, t), |w.s.pcs|;
    SumUpdate(Cost(n), w.s.pcs, t, w'.s.pcs[t]);
    assert Safe(w.s, t) && Blocking(w.s.pcs[t]);
    assert |w'.s.ready| + 1 == |w.s.ready|;
  }

  lemma MeasureWake(w: Work, t: nat)
    requires WellFormed(w.s) && |w.rounds| == |w.s.pcs| && WorkEnabled(w, t) && Blocking(w.s.pcs[t])
    requires w.s.pcs[t].Waking?
    ensures Measure(WorkNext(w, t)) < Measure(w)
  {
    var w', n := WorkNext(w, t), |w.s.pcs|;
    SumUpdate(Cost(n), w.s.pcs, t, w'.s.pcs[t]);
    assert |w'.s.ready| <= |w.s.ready| + 1;
  }

  /** Every step of every schedule brings the end nearer. */
  lemma MeasureDecreases(w: Work, t: nat)
    requires WorkInv(w) && WorkEnabled(w, t)
    ensures Measure(WorkNext(w, t)) < Measure(w)
  {
    var p := w.s.pcs[t];
    assert Blocking(p);
    if p.Idle? {
      MeasureCall(w, t);
    } else if p.Asleep? {
      MeasureResume(w, t);
    } else if p.Waking? {
      MeasureWake(w, t);
    } else if p.Taking? {
      MeasureTake(w, t);
    } else if p.Hold? {
      MeasureDropping(w, t);
    } else if p.Visit? || p.Taken? {
      MeasureVisiting(w, t);
    } else if p.Start? || p.Try? {
      MeasureLocking(w, t);
    } else {
      MeasureListing(w, t);
    }
  }

  predicate Finished(w: Work) {
    forall t :: 0 <= t < |w.s.pcs| ==> w.s.pcs[t].Idle? && (t < |w.rounds| ==> w.rounds[t] == [])
  }

  /** No unfinished state is stuck, although readers and writers wait on different lists. */
  lemma WorkNeverStuck(w: Work)
    requires WorkInv(w) && !Finished(w)
    ensures exists u :: 0 <= u < |w.rounds| && WorkEnabled(w, u)
  {
    var t :| 0 <= t < |w.s.pcs| && !(w.s.pcs[t].Idle? && w.rounds[t] == []);
    if w.s.pcs[t].Idle? {
      assert WorkEnabled(w, t);
    } else {
      forall v | 0 <= v < |w.s.pcs| ensures !w.s.pcs[v].Panicked? { assert Blocking(w.s.pcs[v]); }
      var u := NeverStuck(w.s, t);
      assert WorkEnabled(w, u);
    }
  }

  function ReaderThreads(rounds: seq<seq<bool>>): seq<bool> {
    seq(|rounds|, t requires 0 <= t < |rounds| => false in rounds[t])
  }

  function WorkInit(rounds: seq<seq<bool>>): Work {
    Work(Init(|rounds|), rounds, ReaderThreads(rounds))
  }

  lemma WorkInitInv(rounds: seq<seq<bool>>)
    requires Sum(Bit, ReaderThreads(rounds)) <= 127
    ensures WorkInv(WorkInit(rounds))
  {
    var w := WorkInit(rounds);
    InitInv(|rounds|);
    forall u | 0 <= u < |w.s.pcs| ensures OnePermit(w.s, u) {
      SumZero(Carries(Handle(u)), w.s.pcs);
    }
  }

  lemma WorkInitMeasure(rounds: seq<seq<bool>>)
    ensures Measure(WorkInit(rounds)) == Sum(RoundsCost(|rounds|), rounds)
  {
    SumZero(Cost(|rounds|), Init(|rounds|).pcs);
  }

  function Walk(w: Work, schedule: seq<nat>): Option<Work>
    decreases |schedule|
  {
    if schedule == [] then Some(w)
    else if WellFormed(w.s) && |w.rounds| == |w.s.pcs| && WorkEnabled(w, schedule[0]) then
      Walk(WorkNext(w, schedule[0]), schedule[1..])
    else None
  }

  lemma {:induction false} WalkInv(w: Work, schedule: seq<nat>)
    requires WorkInv(w) && Walk(w, schedule).Some?
    ensures WorkInv(Walk(w, schedule).value)
    ensures |schedule| + Measure(Walk(w, schedule).value) <= Measure(w)
    decreases |schedule|
  {
    if schedule != [] {
      WorkInvNext(w, schedule[0]);
      MeasureDecreases(w, schedule[0]);
      WalkInv(WorkNext(w, schedule[0]), schedule[1..]);
    }
  }

  // ---- every round has its guard ----

  /** The kinds of the guards that thread t has acquired, in order; true for a WriteGuard. */
  function Kinds(t: nat, acquired: seq<Acquisition>): seq<bool> {
    if acquired == [] then []
    else
      var last := acquired[|acquired| - 1];
      Kinds(t, acquired[..|acquired| - 1]) + if last.t == t then [last.writer] else []
  }

  lemma KindsAppend(t: nat, acquired: seq<Acquisition>, a: Acquisition)
    ensures Kinds(t, acquired + [a]) == Kinds(t, acquired) + if a.t == t then [a.writer] else []
  {
    assert (acquired + [a])[..|acquired|] == acquired;
  }

  /** The guard that the present round has yet to acquire. */
  function Wanted(p: Pc): seq<bool> {
    if p.Start? || p.Try? || p.Push? || p.Listed? || p.Asleep? then [ForWriters(p.list)] else []
  }

  /** The guards that thread t has had, is about to have and will have, in order. */
  function Guards(w: Work, t: nat): seq<bool>
    requires t < |w.s.pcs| == |w.rounds|
  {
    Kinds(t, w.s.acquired) + Wanted(w.s.pcs[t]) + w.rounds[t]
  }

  /** What a thread has had, has and will have is what it came for, in the same order. */
  predicate OneGuardARound(w: Work, rounds: seq<seq<bool>>) {
    |w.s.pcs| == |w.rounds| == |rounds| && forall t :: 0 <= t < |rounds| ==> Guards(w, t) == rounds[t]
  }

  /** A move of t acquires a guard exactly when that settles what t wanted. */
  lemma GuardsKept(w: Work, w': Work, t: nat, u: nat)
    requires |w.rounds| == |w.s.pcs| == |w'.rounds| && Moved(w.s, w'.s, t) && u < |w.s.pcs|
    requires w'.rounds == w.rounds
    requires || (Wanted(w.s.pcs[t]) == Wanted(w'.s.pcs[t]) && w'.s.acquired == w.s.acquired)
             || (Wanted(w'.s.pcs[t]) == [] && |Wanted(w.s.pcs[t])| == 1
                 && w'.s.acquired == w.s.acquired + [Acquisition(t, Wanted(w.s.pcs[t])[0])])
    ensures Guards(w', u) == Guards(w, u)
  {
    if w'.s.acquired != w.s.acquired {
      KindsAppend(u, w.s.acquired, Acquisition(t, Wanted(w.s.pcs[t])[0]));
    }
    if u != t { assert w'.s.pcs[u] == w.s.pcs[u]; }
  }

  lemma GuardsCall(w: Work, t: nat, u: nat)
    requires WellFormed(w.s) && |w.rounds| == |w.s.pcs| && WorkEnabled(w, t) && u < |w.s.pcs| && w.s.pcs[t].Idle?
    ensures Guards(WorkNext(w, t), u) == Guards(w, u)
  {
    assert w.rounds[t] == [w.rounds[t][0]] + w.rounds[t][1..];
  }

  lemma GuardsTry(w: Work, t: nat, u: nat)
    requires WorkInv(w) && t < |w.s.pcs| && u < |w.s.pcs| && w.s.pcs[t].Try?
    ensures Guards(WorkNext(w, t), u) == Guards(w, u)
  {
    assert Blocking(w.s.pcs[t]);
    WorkInvNext(w, t);
    assert Blocking(WorkNext(w, t).s.pcs[t]);
    GuardsKept(w, WorkNext(w, t), t, u);
  }

  lemma GuardsStep(w: Work, t: nat, u: nat)
    requires WellFormed(w.s) && |w.rounds| == |w.s.pcs| && WorkEnabled(w, t) && u < |w.s.pcs|
    requires Blocking(w.s.pcs[t]) && !w.s.pcs[t].Idle? && !w.s.pcs[t].Try?
    ensures |WorkNext(w, t).s.pcs| == |w.s.pcs| && Guards(WorkNext(w, t), u) == Guards(w, u)
  {
    GuardsKept(w, WorkNext(w, t), t, u);
  }

  lemma GuardsNext(w: Work, t: nat, rounds: seq<seq<bool>>)
    requires WorkInv(w) && WorkEnabled(w, t) && OneGuardARound(w, rounds)
    ensures OneGuardARound(WorkNext(w, t), rounds)
  {
    WorkInvNext(w, t);
    assert Blocking(w.s.pcs[t]);
    forall u | 0 <= u < |rounds| ensures Guards(WorkNext(w, t), u) == rounds[u] {
      if w.s.pcs[t].Idle? {
        GuardsCall(w, t, u);
      } else if w.s.pcs[t].Try? {
        GuardsTry(w, t, u);
      } else {
        GuardsStep(w, t, u);
      }
    }
  }

  lemma {:induction false} WalkGuards(w: Work, schedule: seq<nat>, rounds: seq<seq<bool>>)
    requires WorkInv(w) && OneGuardARound(w, rounds) && Walk(w, schedule).Some?
    ensures OneGuardARound(Walk(w, schedule).value, rounds)
    decreases |schedule|
  {
    if schedule != [] {
      GuardsNext(w, schedule[0], rounds);
      WorkInvNext(w, schedule[0]);
      WalkGuards(WorkNext(w, schedule[0]), schedule[1..], rounds);
    }
  }

  lemma FinishedGuards(w: Work, rounds: seq<seq<bool>>)
    requires OneGuardARound(w, rounds) && Finished(w)
    ensures forall t :: 0 <= t < |rounds| ==> Kinds(t, w.s.acquired) == rounds[t]
  {
    forall t | 0 <= t < |rounds| ensures Kinds(t, w.s.acquired) == rounds[t] {
      assert Guards(w, t) == Kinds(t, w.s.acquired) + [] + [];
    }
  }
}
