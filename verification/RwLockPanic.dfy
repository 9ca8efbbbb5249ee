/** "Too many readers": try_lock_read panics inside with_mut when 127 ReadGuards are live, and the
    spinlock it panics under is never released again. */
module RwLockPanic {
  import opened Parking
  import opened Sums
  import opened RwLockModel
  import opened RwLockInvariant
  import opened RwLockTheorems
  import opened Traces
  import RwLockCalls

  /** An attempt inside with_mut panics exactly when a reader finds 127 ReadGuards live. */
  lemma PanicsExactly(s: State, t: nat)
    requires WellFormed(s) && Reachable(s) && t < |s.pcs| && s.pcs[t].Try?
    ensures StepOf(s, t).pcs[t].Panicked? <==> !ForWriters(s.pcs[t].list) && |Readers(s)| == 127
  {
    WordEncodesGuards(s);
  }

  lemma PanicStays(s: State, a: Action, t: nat)
    requires WellFormed(s) && Enabled(s, a) && t < |s.pcs| && s.pcs[t].Panicked?
    ensures t < |Next(s, a).pcs| && Next(s, a).pcs[t] == s.pcs[t]
  {
    assert a.t != t || Next(s, a).pcs == s.pcs;
    assert Next(s, a).pcs == s.pcs[a.t := Next(s, a).pcs[a.t]];
  }

  /** with_mut is documented to release its spinlock even if the closure panics; it does not.  After
      a panic inside with_mut of list i, in every continuation, the spinlock of list i is set and
      nobody can enter or visit that list any more. */
  lemma {:induction false} PanicKeepsListLocked(s: State, later: seq<Action>, t: nat, i: nat)
    requires Inv(s) && t < |s.pcs| && s.pcs[t] == Panicked(i) && i < 4 && Run(s, later).Some?
    ensures var s' := Run(s, later).value;
      && Inv(s') && s'.locks[i]
      && forall u :: 0 <= u < |s'.pcs| && (s'.pcs[u] == Start(i) || s'.pcs[u] == Visit(i)) ==> !CanStep(s', u)
    decreases |later|
  {
    InsideIsLocked(s, t, i);
    if later != [] {
      PanicStays(s, later[0], t);
      InvNext(s, later[0]);
      PanicKeepsListLocked(Next(s, later[0]), later[1..], t, i);
    }
  }

  // ---- it happens ----

  /** The first k of 128 threads hold ReadGuards; the last one is at p. */
  function Crowd(k: nat, locked: bool, p: Pc): State
    requires k <= 127
  {
    State(k, [locked, false, false, false], [[], [], [], []], {}, 0,
          seq(128, i requires 0 <= i < 128 => if i < k then Hold(false) else if i == 127 then p else Idle),
          seq(k, i requires 0 <= i => Acquisition(i, false)))
  }

  function StateAt(k: nat): State {
    if k <= 127 then Crowd(k, false, Idle)
    else if k == 128 then Crowd(127, false, Start(SYNC_READ))
    else if k == 129 then Crowd(127, true, Try(SYNC_READ))
    else Crowd(127, true, Panicked(SYNC_READ))
  }

  /** 127 threads call try_lock_read, the next one lock_block_read. */
  function ScheduleAt(k: nat): Action {
    if k < 127 then CallTry(k, false)
    else if k == 127 then CallLock(127, SYNC_READ)
    else Step(127)
  }

  lemma OneMore(k: nat)
    requires k < 127
    ensures Leads(StateAt(k), ScheduleAt(k), StateAt(k + 1))
  {
    var s, s' := StateAt(k), StateAt(k + 1);
    assert s.pcs[k := Hold(false)] == s'.pcs;
    assert s.acquired + [Acquisition(k, false)] == s'.acquired;
  }

  lemma LastOne(k: nat)
    requires 127 <= k < 130
    ensures Leads(StateAt(k), ScheduleAt(k), StateAt(k + 1))
  {
    var s, s' := StateAt(k), StateAt(k + 1);
    assert s.pcs[127 := s'.pcs[127]] == s'.pcs;
  }

  /** The 128th reader of lock_block_read panics and takes the readers' list with it. */
  lemma TheDocumentedReleaseFails() returns (s: State)
    ensures Reachable(s) && Shape(s) && |s.pcs| == 128
    ensures s.pcs[127] == Panicked(SYNC_READ) && s.locks[SYNC_READ]
  {
    var states := seq(131, k requires 0 <= k => StateAt(k));
    var schedule := seq(130, k requires 0 <= k => ScheduleAt(k));
    forall k | 0 <= k < 130 ensures Leads(states[k], schedule[k], states[k + 1]) {
      if k < 127 { OneMore(k); } else { LastOne(k); }
    }
    RwLockCalls.TraceRuns(states, schedule);
    s := StateAt(130);
    assert Init(128) == StateAt(0) by { assert Init(128).pcs == StateAt(0).pcs; }
    assert Run(Init(128), schedule) == Some(s);
  }
}
