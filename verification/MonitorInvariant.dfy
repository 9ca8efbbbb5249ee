/** What every run of a condition variable with its mutex keeps. */
module MonitorInvariant {
  import opened Parking
  import opened Sums
  import opened MonitorModel
  import C = CondvarModel
  import M = MutexModel
  import CA = CondvarAccounting
  import MI = MutexInvariant

  predicate Unlocking(p: M.Pc) { p.Visit? || p.Taking? || p.Taken? || p.Waking? }

  predicate Locking(p: M.Pc) {
    p.Start? || p.Try? || p.Got? || p.Push? || p.Listed? || p.Asleep? || p.LastTry? || p.Spin? || p.Missed?
  }

  /** Where a thread can be in the mutex's code, given where it is in the condition variable's. */
  predicate Together(cp: C.Pc, mp: M.Pc) {
    match cp
    case Idle => !HasGuard(mp)
    case Locked => HasGuard(mp)
    case Register(_, _, _) => HasGuard(mp)
    case Listed(_, _, _, _) => HasGuard(mp)
    case Asleep(_, _, _, _) => mp.Idle? || Unlocking(mp)
    case Missed(_, _, _) => mp.Idle?
    case Check(_, _) => mp.Idle?
    case Expired(_, _, _) => mp.Idle?
    case Drain(_) => mp.Idle?
    case Relock(_, _, _) => mp.Idle? || Locking(mp)
    case Notify(_, _, _, back) => if back then HasGuard(mp) else mp.Idle?
    case Deliver(_, _, _, _, back) => if back then HasGuard(mp) else mp.Idle?
  }

  /** The atomic lock that CondvarModel assumes is the mutex. */
  ghost predicate SameHolder(s: State) {
    && (forall t: nat :: t < |s.m.pcs| && HasGuard(s.m.pcs[t]) ==> s.c.holder == Some(t))
    && (s.c.holder.Some? ==> s.c.holder.value < |s.m.pcs| && HasGuard(s.m.pcs[s.c.holder.value]))
  }

  ghost predicate SameTokens(s: State) {
    forall t: nat :: t < |s.c.pcs| ==> (Handle(t) in s.c.ready <==> Handle(t) in s.m.ready)
  }

  ghost predicate Coordinated(s: State) {
    && |s.c.pcs| == |s.m.pcs|
    && (forall t: nat :: t < |s.c.pcs| ==> Together(s.c.pcs[t], s.m.pcs[t]))
    && SameHolder(s) && SameTokens(s)
  }

  ghost predicate Inv(s: State) {
    CA.Inv(s.c) && MI.Inv(s.m) && Coordinated(s)
  }

  // ---- one thread moves at a time ----

  lemma WaitMoves(c: C.State, a: C.Action)
    requires C.WellFormed(c) && C.Enabled(c, a)
    ensures |C.Next(c, a).pcs| == |c.pcs|
    ensures forall u: nat :: u < |c.pcs| && u != a.t ==> C.Next(c, a).pcs[u] == c.pcs[u]
  {
    CA.NextMoves(c, a);
  }

  lemma LockMoves(m: M.State, a: M.Action)
    requires M.WellFormed(m) && M.Enabled(m, a)
    ensures |M.Next(m, a).pcs| == |m.pcs|
    ensures forall u: nat :: u < |m.pcs| && u != a.t ==> M.Next(m, a).pcs[u] == m.pcs[u]
  {
    assert M.Next(m, a).pcs == m.pcs[a.t := M.Next(m, a).pcs[a.t]];
  }

  // ---- neither side blocks the other ----

  /** What a thread can do in its own code the whole system can do: the product adds no condition.
      In particular the condition variable's atomic lock is free whenever the mutex is obtained. */
  lemma NothingIsBlocked(s: State, a: Action)
    requires Inv(s) && Possible(s, a)
    ensures Enabled(s, a)
  {
    match a
    case Wait(ca) => {}
    case Lock(ma) => LockIsAdmitted(s, ma);
    case Obtain(ma) => ObtainIsAdmitted(s, ma);
    case Release(t) => {}
  }

  lemma LockIsAdmitted(s: State, ma: M.Action)
    requires Inv(s) && Possible(s, Lock(ma))
    ensures Enabled(s, Lock(ma))
  {
    assert Together(s.c.pcs[ma.t], s.m.pcs[ma.t]);
  }

  lemma ObtainIsAdmitted(s: State, ma: M.Action)
    requires Inv(s) && Possible(s, Obtain(ma))
    ensures Enabled(s, Obtain(ma))
    ensures s.c.pcs[ma.t].Idle? || s.c.pcs[ma.t].Relock?
    ensures s.c.holder == None
  {
    assert Together(s.c.pcs[ma.t], s.m.pcs[ma.t]);
    WhoObtains(s.m, ma, s.c.pcs[ma.t]);
    if s.c.holder.Some? { NobodyHolds(s.m, ma, s.c.holder.value); }
  }

  lemma WhoObtains(m: M.State, ma: M.Action, cp: C.Pc)
    requires M.WellFormed(m) && M.Enabled(m, ma) && Obtains(m, ma) && MayCall(cp, ma) && Together(cp, m.pcs[ma.t])
    ensures cp.Idle? || cp.Relock?
  {}

  /** When a thread is about to get its guard nobody else has one. */
  lemma NobodyHolds(m: M.State, ma: M.Action, u: nat)
    requires MI.Inv(m) && M.Enabled(m, ma) && Obtains(m, ma) && u < |m.pcs|
    ensures !HasGuard(m.pcs[u])
  {
    if MI.Holds(m.pcs[ma.t]) == 1 {
      MI.HolderIsAlone(m, ma.t);
    } else {
      SumAtLeast(MI.Holds, m.pcs, u);
    }
  }

  // ---- the coordination is kept ----

  /** What a step of the condition variable does to the tokens is what its echo does to them. */
  lemma WaitTokens(c: C.State, ca: C.Action)
    requires CA.Inv(c) && C.Enabled(c, ca) && OwnWait(c, ca)
    ensures var e := EchoOfWait(c, ca);
      forall u: nat :: u < |c.pcs| ==>
        (Handle(u) in C.Next(c, ca).ready <==>
          e == Some(M.StrayToken(u)) || (Handle(u) in c.ready && e != Some(M.StrayPark(u))))
    ensures C.Next(c, ca).holder == c.holder
  {
    assert CA.ThreadOk(c, ca.t);
  }

  lemma LockTokens(m: M.State, ma: M.Action)
    requires MI.Inv(m) && M.Enabled(m, ma) && !ma.StrayToken? && !ma.StrayPark?
    ensures var e := EchoOfLock(m, ma);
      forall u: nat :: u < |m.pcs| ==>
        (Handle(u) in M.Next(m, ma).ready <==>
          e == Some(C.StrayToken(u)) || (Handle(u) in m.ready && e != Some(C.StrayPark(u))))
  {
    assert MI.Safe(m, ma.t);
  }

  /** Where a thread goes in the condition variable's code while it is outside the mutex's. */
  lemma WaitTogether(c: C.State, t: nat, mp: M.Pc)
    requires C.WellFormed(c) && t < |c.pcs| && C.CanStep(c, t) && OwnWait(c, C.Step(t))
    requires !c.pcs[t].Notify? && !c.pcs[t].Deliver?
    requires Outside(mp) && Together(c.pcs[t], mp)
    ensures t < |C.StepOf(c, t).pcs| && Together(C.StepOf(c, t).pcs[t], mp)
  {}

  lemma NotifyTogether(c: C.State, t: nat, mp: M.Pc)
    requires C.WellFormed(c) && t < |c.pcs| && (c.pcs[t].Notify? || c.pcs[t].Deliver?)
    requires Together(c.pcs[t], mp)
    ensures t < |C.StepOf(c, t).pcs| && Together(C.StepOf(c, t).pcs[t], mp)
  {}

  lemma StepTogether(c: C.State, t: nat, mp: M.Pc)
    requires C.WellFormed(c) && t < |c.pcs| && C.CanStep(c, t) && OwnWait(c, C.Step(t))
    requires Outside(mp) && Together(c.pcs[t], mp)
    ensures t < |C.StepOf(c, t).pcs| && Together(C.StepOf(c, t).pcs[t], mp)
  {
    if c.pcs[t].Notify? || c.pcs[t].Deliver? { NotifyTogether(c, t, mp); } else { WaitTogether(c, t, mp); }
  }

  lemma CallTogether(c: C.State, ca: C.Action, mp: M.Pc)
    requires C.WellFormed(c) && C.Enabled(c, ca) && OwnWait(c, ca) && !ca.Step?
    requires Outside(mp) && Together(c.pcs[ca.t], mp)
    ensures ca.t < |C.Next(c, ca).pcs| && Together(C.Next(c, ca).pcs[ca.t], mp)
  {}

  lemma CoordWait(s: State, ca: C.Action)
    requires Inv(s) && Enabled(s, Wait(ca))
    ensures Coordinated(Next(s, Wait(ca)))
  {
    var s', t := Next(s, Wait(ca)), ca.t;
    WaitMoves(s.c, ca);
    WaitTokens(s.c, ca);
    if ca.Step? { StepTogether(s.c, t, s.m.pcs[t]); } else { CallTogether(s.c, ca, s.m.pcs[t]); }
    EchoTokens(s, ca);
    forall u: nat | u < |s.c.pcs| ensures Together(s'.c.pcs[u], s'.m.pcs[u]) {
      assert Together(s.c.pcs[u], s.m.pcs[u]);
    }
  }

  lemma EchoTokens(s: State, ca: C.Action)
    requires WellFormed(s) && Enabled(s, Wait(ca))
    ensures var e, m' := EchoOfWait(s.c, ca), OnMutex(s.m, EchoOfWait(s.c, ca));
      && m'.pcs == s.m.pcs
      && forall u: nat :: Handle(u) in m'.ready <==>
           e == Some(M.StrayToken(u)) || (Handle(u) in s.m.ready && e != Some(M.StrayPark(u)))
  {}

  lemma EchoOfLockTokens(s: State, ma: M.Action)
    requires WellFormed(s) && Enabled(s, Lock(ma))
    ensures var e, c' := EchoOfLock(s.m, ma), OnCondvar(s.c, EchoOfLock(s.m, ma));
      && c'.pcs == s.c.pcs && c'.holder == s.c.holder
      && forall u: nat :: Handle(u) in c'.ready <==>
           e == Some(C.StrayToken(u)) || (Handle(u) in s.c.ready && e != Some(C.StrayPark(u)))
  {}

  lemma LockTogether(m: M.State, ma: M.Action, cp: C.Pc)
    requires M.WellFormed(m) && M.Enabled(m, ma) && MayCall(cp, ma) && !Obtains(m, ma) && Together(cp, m.pcs[ma.t])
    ensures ma.t < |M.Next(m, ma).pcs| && Together(cp, M.Next(m, ma).pcs[ma.t])
    ensures HasGuard(M.Next(m, ma).pcs[ma.t]) <==> HasGuard(m.pcs[ma.t])
  {}

  lemma CoordLock(s: State, ma: M.Action)
    requires Inv(s) && Enabled(s, Lock(ma))
    ensures Coordinated(Next(s, Lock(ma)))
  {
    var s', t := Next(s, Lock(ma)), ma.t;
    LockMoves(s.m, ma);
    LockTokens(s.m, ma);
    assert Together(s.c.pcs[t], s.m.pcs[t]);
    LockTogether(s.m, ma, s.c.pcs[t]);
    EchoOfLockTokens(s, ma);
    forall u: nat | u < |s.c.pcs| ensures Together(s'.c.pcs[u], s'.m.pcs[u]) {
      assert Together(s.c.pcs[u], s.m.pcs[u]);
    }
  }

  lemma CoordObtain(s: State, ma: M.Action)
    requires Inv(s) && Enabled(s, Obtain(ma))
    ensures Coordinated(Next(s, Obtain(ma)))
  {
    var s', t := Next(s, Obtain(ma)), ma.t;
    LockMoves(s.m, ma);
    ObtainIsAdmitted(s, ma);
    WaitMoves(s.c, Obtained(s.c, t));
    forall u: nat | u < |s.c.pcs| ensures Together(s'.c.pcs[u], s'.m.pcs[u]) {
      assert Together(s.c.pcs[u], s.m.pcs[u]);
    }
  }

  lemma CoordRelease(s: State, t: nat)
    requires Inv(s) && Enabled(s, Release(t))
    ensures Coordinated(Next(s, Release(t)))
  {
    var s' := Next(s, Release(t));
    LockMoves(s.m, M.Drop(t));
    WaitMoves(s.c, Released(s.c, t));
    MI.HolderIsAlone(s.m, t);
    forall u: nat | u < |s.c.pcs| ensures Together(s'.c.pcs[u], s'.m.pcs[u]) {
      assert Together(s.c.pcs[u], s.m.pcs[u]);
      if u != t { assert MI.Holds(s.m.pcs[u]) == 0; }
    }
  }

  lemma InvNext(s: State, a: Action)
    requires Inv(s) && Enabled(s, a)
    ensures Inv(Next(s, a))
  {
    match a
    case Wait(ca) =>
      CA.InvNext(s.c, ca);
      if EchoOfWait(s.c, ca).Some? { MI.InvNext(s.m, EchoOfWait(s.c, ca).value); }
      CoordWait(s, ca);
    case Lock(ma) =>
      MI.InvNext(s.m, ma);
      if EchoOfLock(s.m, ma).Some? { CA.InvNext(s.c, EchoOfLock(s.m, ma).value); }
      CoordLock(s, ma);
    case Obtain(ma) =>
      MI.InvNext(s.m, ma);
      CA.InvNext(s.c, Obtained(s.c, ma.t));
      CoordObtain(s, ma);
    case Release(t) =>
      MI.InvNext(s.m, M.Drop(t));
      CA.InvNext(s.c, Released(s.c, t));
      CoordRelease(s, t);
  }
}
