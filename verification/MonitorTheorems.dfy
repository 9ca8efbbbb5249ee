/** What every run of a condition variable with its contended mutex keeps. */
module MonitorTheorems {
  import opened Parking
  import opened Sums
  import opened MonitorModel
  import opened MonitorInvariant
  import opened MonitorPermits
  import opened MonitorHistory
  import C = CondvarModel
  import M = MutexModel
  import CA = CondvarAccounting
  import CN = CondvarNotify
  import CD = CondvarDeadline
  import MI = MutexInvariant
  import MT = MutexTheorems
  import P = Permits

  lemma InitInv(threads: nat, initial: M.Data)
    ensures Inv(Init(threads, initial))
  {
    CA.InitInv(threads);
    MT.InitInv(threads, initial);
  }

  lemma {:induction false} RunInv(s: State, schedule: seq<Action>)
    requires Inv(s) && Run(s, schedule).Some?
    ensures Inv(Run(s, schedule).value)
    decreases |schedule|
  {
    if schedule != [] {
      InvNext(s, schedule[0]);
      RunInv(Next(s, schedule[0]), schedule[1..]);
    }
  }

  /** The two sides are runs of CondvarModel and of MutexModel, so whatever those keep this keeps. */
  lemma {:induction false} EachSideIsARun(s: State, schedule: seq<Action>)
    returns (waits: seq<C.Action>, locks: seq<M.Action>)
    requires Run(s, schedule).Some?
    ensures C.Run(s.c, waits) == Some(Run(s, schedule).value.c)
    ensures M.Run(s.m, locks) == Some(Run(s, schedule).value.m)
    decreases |schedule|
  {
    waits, locks := [], [];
    if schedule != [] {
      var a := schedule[0];
      waits, locks := EachSideIsARun(Next(s, a), schedule[1..]);
      var e, f := WaitPart(s, a), LockPart(s, a);
      if e.Some? {
        assert ([e.value] + waits)[1..] == waits;
        waits := [e.value] + waits;
      }
      if f.Some? {
        assert ([f.value] + locks)[1..] == locks;
        locks := [f.value] + locks;
      }
    }
  }

  /** CondvarModel's atomic lock is the mutex: its owner is whoever has the guard. */
  lemma HolderHasTheGuard(threads: nat, initial: M.Data, schedule: seq<Action>, t: nat)
    requires Run(Init(threads, initial), schedule).Some?
    requires t < |Run(Init(threads, initial), schedule).value.m.pcs|
    ensures var s := Run(Init(threads, initial), schedule).value;
      s.c.holder == Some(t) <==> HasGuard(s.m.pcs[t])
  {
    InitInv(threads, initial);
    RunInv(Init(threads, initial), schedule);
  }

  /** And it stands in nobody's way: whatever a thread can do in its own code it can do in the whole
      system, however the mutex is contended. */
  lemma NothingBlocksAnybody(threads: nat, initial: M.Data, schedule: seq<Action>, a: Action)
    requires Run(Init(threads, initial), schedule).Some?
    requires WellFormed(Run(Init(threads, initial), schedule).value)
    requires Possible(Run(Init(threads, initial), schedule).value, a)
    ensures Enabled(Run(Init(threads, initial), schedule).value, a)
  {
    InitInv(threads, initial);
    RunInv(Init(threads, initial), schedule);
    NothingIsBlocked(Run(Init(threads, initial), schedule).value, a);
  }

  // ---- without spurious wakes ----

  predicate AllQuiet(schedule: seq<Action>) { forall i :: 0 <= i < |schedule| ==> Quiet(schedule[i]) }

  lemma QuietState(threads: nat, initial: M.Data, schedule: seq<Action>) returns (p: P.State)
    requires Run(Init(threads, initial), schedule).Some? && AllQuiet(schedule)
    ensures QuietInv(Run(Init(threads, initial), schedule).value, p)
  {
    InitInv(threads, initial);
    P.InitConserved(threads, 2);
    p := QuietRun(Init(threads, initial), schedule, P.Init(threads, 2));
  }

  /** Every permit of thread t: its entries on the condition variable's list and on the mutex's, its
      handles in either's batches, and its token. */
  ghost function PermitsOf(s: State, t: nat): nat
    requires WellFormed(s)
  {
    Sum(CN.HasKey(Handle(t)), s.c.lists[C.SYNC]) + Sum(CN.CarriesKey(Handle(t)), s.c.pcs)
    + Occurs(Handle(t), s.m.lists[M.SYNC]) + Sum(MI.Carries(Handle(t)), s.m.pcs)
    + Bit(Handle(t) in s.m.ready)
  }

  lemma {:induction false} SameWaiterCount(handles: seq<nat>, list: seq<C.Waiter>, t: nat)
    requires SameWaiters(handles, list)
    ensures Occurs(t, handles) == Sum(CN.HasKey(Handle(t)), list)
  {
    if list != [] {
      OccursHead(t, handles);
      SameWaiterCount(handles[1..], list[1..], t);
    }
  }

  lemma HandCount(s: State, p: P.State, t: nat, u: nat)
    requires Inv(s) && Matches(s, p) && u < |s.c.pcs|
    ensures P.Handles(t)(p.hands[u]) == CN.CarriesKey(Handle(t))(s.c.pcs[u]) + MI.Carries(Handle(t))(s.m.pcs[u])
  {
    var cp, mp := s.c.pcs[u], s.m.pcs[u];
    assert ThreadMatches(s, p, u) && Together(cp, mp) && CA.ThreadOk(s.c, u);
    if mp.Taken? || mp.Waking? {
      if mp.list == M.SYNC { SameCount(p.hands[u], mp.batch, t); } else { OccursIn(Handle(t), mp.batch); }
    } else if cp.Deliver? {
      if cp.list == C.SYNC {
        SameWaiterCount(p.hands[u], cp.batch, t);
      } else {
        forall i | 0 <= i < |cp.batch| ensures CN.HasKey(Handle(t))(cp.batch[i]) == 0 {
          assert cp.batch[i] in cp.batch && CA.EntryOk(s.c, cp.list, cp.batch[i]);
        }
        SumZero(CN.HasKey(Handle(t)), cp.batch);
      }
    }
  }

  /** One permit over both lists: a thread has exactly one from its push, on the condition variable's
      list or on the mutex's, to the return of that park, and none at other times. */
  lemma OnePermitOverBoth(threads: nat, initial: M.Data, schedule: seq<Action>, t: nat)
    requires Run(Init(threads, initial), schedule).Some? && AllQuiet(schedule)
    requires t < |Run(Init(threads, initial), schedule).value.c.pcs|
    ensures var s := Run(Init(threads, initial), schedule).value;
      && WellFormed(s)
      && PermitsOf(s, t) == Bit(InWaitBlock(s.c.pcs[t]) || M.Parks(s.m.pcs[t]))
  {
    var p := QuietState(threads, initial, schedule);
    var s := Run(Init(threads, initial), schedule).value;
    assert ThreadMatches(s, p, t) && P.OnePermit(p, t);
    SumTwo(P.Handles(t), p.lists);
    SameWaiterCount(p.lists[WAITS], s.c.lists[C.SYNC], t);
    SameCount(p.lists[LOCKS], s.m.lists[M.SYNC], t);
    forall u | 0 <= u < |p.hands|
      ensures P.Handles(t)(p.hands[u]) == CN.CarriesKey(Handle(t))(s.c.pcs[u]) + MI.Carries(Handle(t))(s.m.pcs[u])
    {
      HandCount(s, p, t, u);
    }
    SumSplit(P.Handles(t), p.hands, CN.CarriesKey(Handle(t)), s.c.pcs, MI.Carries(Handle(t)), s.m.pcs);
  }

  /** No stale entry survives: whoever is on the condition variable's list is inside wait_block,
      between its push and the return of its park. */
  lemma NoStaleEntry(threads: nat, initial: M.Data, schedule: seq<Action>, e: C.Waiter)
    requires Run(Init(threads, initial), schedule).Some? && AllQuiet(schedule)
    requires var s := Run(Init(threads, initial), schedule).value; C.Shape(s.c) && e in s.c.lists[C.SYNC]
    ensures var s := Run(Init(threads, initial), schedule).value;
      e.key.Handle? && e.key.t < |s.c.pcs| && InWaitBlock(s.c.pcs[e.key.t])
  {
    var p := QuietState(threads, initial, schedule);
    var s := Run(Init(threads, initial), schedule).value;
    var i :| 0 <= i < |s.c.lists[C.SYNC]| && s.c.lists[C.SYNC][i] == e;
    var t := p.lists[WAITS][i];
    assert t in p.lists[WAITS] && P.NotStale(p, t, WAITS) && ThreadMatches(s, p, t);
  }

  /** wait_block's park returns only after a notifier popped the wait: when the token of a thread
      asleep there is set, the wait has been popped and the thread is off the list.  A token set by
      the mutex, or left over from re-acquiring it, cannot be mistaken for a notification. */
  lemma ReturnsOnlyWhenPopped(threads: nat, initial: M.Data, schedule: seq<Action>, t: nat)
    requires Run(Init(threads, initial), schedule).Some? && AllQuiet(schedule)
    requires var s := Run(Init(threads, initial), schedule).value;
      t < |s.c.pcs| && s.c.pcs[t].Asleep? && s.c.pcs[t].list == C.SYNC && s.c.pcs[t].me.key in s.c.ready
    ensures var s := Run(Init(threads, initial), schedule).value;
      && C.Shape(s.c) && s.c.pcs[t].me.wait in s.c.h.popped && s.c.pcs[t].me.wait !in s.c.h.left
      && !C.OnList(s.c.pcs[t].me.key, s.c.lists[C.SYNC])
  {
    var p := QuietState(threads, initial, schedule);
    var s := Run(Init(threads, initial), schedule).value;
    var w := s.c.pcs[t].me.wait;
    WokenWasPopped(s, t, p);
    assert CA.OnLists(s.c, w) + Bit(w in s.c.h.popped) + Bit(w in s.c.h.left) <= 1;
  }

  // ---- k calls of notify_one release at most k waits ----

  /** The waits that have returned without a timeout. */
  function Released(h: C.History): set<nat> { set w | w in h.outcomes && !h.outcomes[w] }

  /** notify_all is not called on this condition variable. */
  predicate OnlyOnes(a: C.Action) { a.CallNotify? ==> !a.all }

  /** What a schedule of the condition variable's side keeps. */
  ghost predicate Counted(c: C.State) {
    && CD.DeadlineInv(c) && CN.PopsCounted(c) && c.h.allPops == 0
    && forall t :: 0 <= t < |c.pcs| ==> IsOne(c.pcs[t])
  }

  lemma CountedNext(c: C.State, ca: C.Action)
    requires Counted(c) && C.Enabled(c, ca) && OnlyOnes(ca)
    ensures Counted(C.Next(c, ca))
  {
    CD.DeadlineNext(c, ca);
    CN.CountedNext(c, ca);
    NoTakes(c, ca);
  }

  lemma NoTakes(c: C.State, ca: C.Action)
    requires C.WellFormed(c) && C.Enabled(c, ca) && OnlyOnes(ca) && c.h.allPops == 0
    requires forall t :: 0 <= t < |c.pcs| ==> IsOne(c.pcs[t])
    ensures C.Next(c, ca).h.allPops == 0 && forall t :: 0 <= t < |C.Next(c, ca).pcs| ==> IsOne(C.Next(c, ca).pcs[t])
  {
    WaitMoves(c, ca);
    TakesNothing(c, ca);
  }

  /** The notifier among them keeps being a notify_one. */
  predicate IsOne(p: C.Pc) { p.Notify? || p.Deliver? ==> !p.all }

  lemma WaitTakesNothing(c: C.State, t: nat)
    requires C.WellFormed(c) && t < |c.pcs| && C.CanStep(c, t) && !c.pcs[t].Notify? && !c.pcs[t].Deliver?
    ensures var c' := C.StepOf(c, t); c'.h.allPops == c.h.allPops && t < |c'.pcs| && IsOne(c'.pcs[t])
  {}

  lemma NotifyTakesNothing(c: C.State, t: nat)
    requires C.WellFormed(c) && t < |c.pcs| && (c.pcs[t].Notify? || c.pcs[t].Deliver?) && !c.pcs[t].all
    ensures var c' := C.StepOf(c, t); c'.h.allPops == c.h.allPops && t < |c'.pcs| && IsOne(c'.pcs[t])
  {}

  lemma CallTakesNothing(c: C.State, ca: C.Action)
    requires C.WellFormed(c) && C.Enabled(c, ca) && OnlyOnes(ca) && !ca.Step? && IsOne(c.pcs[ca.t])
    ensures var c' := C.Next(c, ca); c'.h.allPops == c.h.allPops && ca.t < |c'.pcs| && IsOne(c'.pcs[ca.t])
  {}

  lemma TakesNothing(c: C.State, ca: C.Action)
    requires C.WellFormed(c) && C.Enabled(c, ca) && OnlyOnes(ca) && IsOne(c.pcs[ca.t])
    ensures var c' := C.Next(c, ca); c'.h.allPops == c.h.allPops && ca.t < |c'.pcs| && IsOne(c'.pcs[ca.t])
  {
    if !ca.Step? {
      CallTakesNothing(c, ca);
    } else if c.pcs[ca.t].Notify? || c.pcs[ca.t].Deliver? {
      NotifyTakesNothing(c, ca.t);
    } else {
      WaitTakesNothing(c, ca.t);
    }
  }

  predicate NoAll(a: Action) { a.Wait? ==> OnlyOnes(a.ca) }

  lemma {:induction false} RunCounted(s: State, schedule: seq<Action>)
    requires Counted(s.c) && Run(s, schedule).Some? && forall i :: 0 <= i < |schedule| ==> NoAll(schedule[i])
    ensures Counted(Run(s, schedule).value.c)
    decreases |schedule|
  {
    if schedule != [] {
      assert NoAll(schedule[0]);
      if WaitPart(s, schedule[0]).Some? { CountedNext(s.c, WaitPart(s, schedule[0]).value); }
      forall i | 0 <= i < |schedule[1..]| ensures NoAll(schedule[1..][i]) { assert NoAll(schedule[i + 1]); }
      RunCounted(Next(s, schedule[0]), schedule[1..]);
    }
  }

  /** On a condition variable notified only by notify_one, k calls release at most k waits: spin,
      block and async waits together that have returned, other than by a timeout, are no more than
      the calls, however the mutex is contended. */
  lemma KCallsReleaseAtMostK(threads: nat, initial: M.Data, schedule: seq<Action>)
    requires Run(Init(threads, initial), schedule).Some? && AllQuiet(schedule)
    requires forall i :: 0 <= i < |schedule| ==> NoAll(schedule[i])
    ensures var h := Run(Init(threads, initial), schedule).value.c.h;
      |Released(h)| <= h.ones
  {
    var p := QuietState(threads, initial, schedule);
    var s := Run(Init(threads, initial), schedule).value;
    CD.InitDeadline(threads);
    SumZero(CN.Seeking, C.Init(threads).pcs);
    RunCounted(Init(threads, initial), schedule);
    forall w | w in Released(s.c.h) ensures w in s.c.h.popped {
      assert w < |s.c.h.kinds| && s.c.h.kinds[w] < 3;
    }
    SubsetIsSmaller(Released(s.c.h), s.c.h.popped);
  }

  lemma SubsetIsSmaller(a: set<nat>, b: set<nat>)
    requires a <= b
    ensures |a| <= |b|
  {
    assert b == a + (b - a);
    assert |b| == |a| + |b - a|;
  }
}
