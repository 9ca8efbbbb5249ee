/** Finite workloads complete, whatever the schedule. */
module WorkloadTheorems {
  import opened Sums
  import MutexModel
  import RwLockModel
  import M = MutexWorkload
  import L = RwLockWorkload

  /** Whatever the schedule, it is no longer than the bound below, and while some round is
      unfinished some thread can move: every maximal schedule completes all rounds, and then every
      thread has had the guard exactly once for each of its rounds.  On the way every thread has
      exactly one permit while it waits and none otherwise. */
  lemma MutexRoundsComplete(rounds: seq<nat>, initial: MutexModel.Data, schedule: seq<nat>)
    requires M.Walk(M.WorkInit(rounds, initial), schedule).Some?
    ensures var w := M.Walk(M.WorkInit(rounds, initial), schedule).value;
      && |schedule| <= Sum(M.RoundsCost(|rounds|), rounds)
      && MutexModel.Shape(w.s) && MutexModel.WellFormed(w.s) && |w.rounds| == |w.s.pcs|
      && (M.Finished(w) || exists u :: 0 <= u < |w.rounds| && M.WorkEnabled(w, u))
      && (forall t :: 0 <= t < |w.s.pcs| ==> M.OnePermit(w.s, t))
      && M.OneGuardARound(w, rounds)
      && (M.Finished(w) ==> forall t :: 0 <= t < |rounds| ==> Occurs(t, w.s.acquired) == rounds[t])
  {
    M.WorkInitInv(rounds, initial);
    M.WorkInitMeasure(rounds, initial);
    M.WalkInv(M.WorkInit(rounds, initial), schedule);
    var w := M.Walk(M.WorkInit(rounds, initial), schedule).value;
    if !M.Finished(w) { M.WorkNeverStuck(w); }
    M.WalkGuards(M.WorkInit(rounds, initial), schedule, rounds);
  }

  /** Every schedule is finite, no unfinished state is stuck, and nobody panics: every maximal
      schedule completes all rounds of all readers and writers, and then every thread has had a
      ReadGuard for each of its read rounds and a WriteGuard for each of its write rounds, in the
      order of its rounds. */
  lemma RwLockRoundsComplete(rounds: seq<seq<bool>>, schedule: seq<nat>)
    requires Sum(Bit, L.ReaderThreads(rounds)) <= 127 && L.Walk(L.WorkInit(rounds), schedule).Some?
    ensures var w := L.Walk(L.WorkInit(rounds), schedule).value;
      && |schedule| <= Sum(L.RoundsCost(|rounds|), rounds)
      && RwLockModel.WellFormed(w.s) && |w.rounds| == |w.s.pcs|
      && (L.Finished(w) || exists u :: 0 <= u < |w.rounds| && L.WorkEnabled(w, u))
      && (forall t :: 0 <= t < |w.s.pcs| ==> L.OnePermit(w.s, t) && !w.s.pcs[t].Panicked? && !w.s.pcs[t].AssertFailed?)
      && L.OneGuardARound(w, rounds)
      && (L.Finished(w) ==> forall t :: 0 <= t < |rounds| ==> L.Kinds(t, w.s.acquired) == rounds[t])
  {
    L.WorkInitInv(rounds);
    L.WorkInitMeasure(rounds);
    L.WalkInv(L.WorkInit(rounds), schedule);
    var w := L.Walk(L.WorkInit(rounds), schedule).value;
    L.WalkGuards(L.WorkInit(rounds), schedule, rounds);
    if L.Finished(w) { L.FinishedGuards(w, rounds); } else { L.WorkNeverStuck(w); }
    forall t | 0 <= t < |w.s.pcs|
      ensures L.OnePermit(w.s, t) && !w.s.pcs[t].Panicked? && !w.s.pcs[t].AssertFailed?
    {
      assert L.Blocking(w.s.pcs[t]);
    }
  }
}
