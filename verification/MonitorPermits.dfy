/** The permits of a condition variable and its mutex together follow the law of Permits over two
    lists: whatever the contention for the mutex, a wait_block is paid for by its own pop. */
module MonitorPermits {
  import opened Parking
  import opened Sums
  import opened MonitorModel
  import opened MonitorInvariant
  import C = CondvarModel
  import M = MutexModel
  import CA = CondvarAccounting
  import MI = MutexInvariant
  import P = Permits

  /** The permit machine's numbers of the two lists of threads. */
  const WAITS: nat := 0
  const LOCKS: nat := 1

  /** No spurious wake, and no blocking wait with a deadline. */
  predicate Quiet(a: Action) {
    match a
    case Wait(ca) => !ca.Spurious? && (ca.CallWait? && ca.list == C.SYNC ==> !ca.timed)
    case Lock(ma) => !ma.Spurious?
    case _ => true
  }

  /** The same threads, once as numbers and once as entries of a condition variable's list. */
  predicate SameWaiters(handles: seq<nat>, list: seq<C.Waiter>) {
    |handles| == |list| && forall i :: 0 <= i < |list| ==> list[i].key == Handle(handles[i])
  }

  /** The thread is in wait_block between its push and the return of park. */
  predicate InWaitBlock(p: C.Pc) { (p.Listed? || p.Asleep?) && p.list == C.SYNC }

  predicate Untimed(p: C.Pc) {
    match p
    case Register(i, timed, _) => i == C.SYNC ==> !timed
    case Listed(i, _, timed, _) => i == C.SYNC ==> !timed
    case Asleep(i, _, timed, _) => i == C.SYNC ==> !timed
    case Missed(i, _, _) => i != C.SYNC
    case Expired(i, _, _) => i != C.SYNC
    case Check(_, _) => false
    case _ => true
  }

  /** The handles a thread has taken off either list and not yet unparked. */
  predicate InHand(cp: C.Pc, mp: M.Pc, handles: seq<nat>) {
    if mp.Taken? || mp.Waking? then
      if mp.list == M.SYNC then SameHandles(handles, mp.batch) else handles == [] && OnlyConts(mp.batch)
    else if cp.Deliver? && cp.list == C.SYNC then SameWaiters(handles, cp.batch)
    else handles == []
  }

  predicate InQueue(cp: C.Pc, mp: M.Pc, queued: Option<nat>) {
    queued == if InWaitBlock(cp) then Some(WAITS) else if M.Parks(mp) then Some(LOCKS) else None
  }

  predicate ThreadMatches(s: State, p: P.State, t: nat)
    requires t < |s.c.pcs| == |s.m.pcs| == |p.hands| == |p.queued|
  {
    && InHand(s.c.pcs[t], s.m.pcs[t], p.hands[t])
    && InQueue(s.c.pcs[t], s.m.pcs[t], p.queued[t])
    && Untimed(s.c.pcs[t])
  }

  ghost predicate Matches(s: State, p: P.State)
    requires WellFormed(s)
  {
    && |p.lists| == 2 && |p.queued| == |p.hands| == |s.c.pcs|
    && SameWaiters(p.lists[WAITS], s.c.lists[C.SYNC])
    && SameHandles(p.lists[LOCKS], s.m.lists[M.SYNC]) && OnlyConts(s.m.lists[M.ASYNC])
    && (forall t: nat :: t < |s.c.pcs| ==> ThreadMatches(s, p, t))
    && (forall t: nat :: t < |s.c.pcs| ==> (t in p.tokens <==> Handle(t) in s.m.ready))
  }

  // ---- what a step means for the permits ----

  function ImageOfWait(c: C.State, ca: C.Action): Option<P.Action>
    requires C.WellFormed(c) && C.Enabled(c, ca)
  {
    if !ca.Step? then None
    else
      match c.pcs[ca.t]
      case Register(i, _, _) => if i == C.SYNC then Some(P.Push(ca.t, WAITS)) else None
      case Asleep(i, _, _, _) => if i == C.SYNC then Some(P.ParkReturns(ca.t)) else None
      case Notify(i, all, _, _) =>
        if i != C.SYNC then None
        else if all then Some(P.Take(ca.t, WAITS))
        else if c.lists[C.SYNC] != [] then Some(P.Pop(ca.t, WAITS))
        else None
      case Deliver(i, batch, _, _, _) => if i == C.SYNC && batch != [] then Some(P.Unpark(ca.t)) else None
      case _ => None
  }

  function ImageOfLock(m: M.State, ma: M.Action): Option<P.Action>
    requires M.WellFormed(m) && M.Enabled(m, ma)
  {
    if !ma.Step? then None
    else
      match m.pcs[ma.t]
      case Push(i, _) => if i == M.SYNC then Some(P.Push(ma.t, LOCKS)) else None
      case Taking(i) => if i == M.SYNC then Some(P.Take(ma.t, LOCKS)) else None
      case Waking(i, batch) => if i == M.SYNC && batch != [] then Some(P.Unpark(ma.t)) else None
      case Asleep(i, _, _) => if i == M.SYNC then Some(P.ParkReturns(ma.t)) else None
      case _ => None
  }

  function Image(s: State, a: Action): Option<P.Action>
    requires WellFormed(s) && Enabled(s, a)
  {
    match a
    case Wait(ca) => ImageOfWait(s.c, ca)
    case Lock(ma) => ImageOfLock(s.m, ma)
    case _ => None
  }

  ghost predicate Follows(s: State, a: Action, p: P.State)
    requires WellFormed(s) && Enabled(s, a)
  {
    match Image(s, a)
    case None => WellFormed(Next(s, a)) && Matches(Next(s, a), p)
    case Some(b) => P.Enabled(p, b) && WellFormed(Next(s, a)) && Matches(Next(s, a), P.Next(p, b))
  }

  ghost predicate Moved(s: State, s': State, t: nat)
    requires WellFormed(s)
  {
    && |s'.c.pcs| == |s'.m.pcs| == |s.c.pcs|
    && forall u: nat :: u < |s.c.pcs| && u != t ==> s'.c.pcs[u] == s.c.pcs[u] && s'.m.pcs[u] == s.m.pcs[u]
  }

  ghost predicate PermitsMoved(p: P.State, p': P.State, t: nat) {
    && |p'.lists| == |p.lists| && |p'.queued| == |p.queued| && |p'.hands| == |p.hands|
    && forall u: nat :: u < |p.queued| && u < |p.hands| && u != t ==> p'.queued[u] == p.queued[u] && p'.hands[u] == p.hands[u]
  }

  /** It is enough to look at the lists, the tokens and the thread that moved. */
  lemma Conclude(s: State, s': State, t: nat, p: P.State, p': P.State)
    requires WellFormed(s) && Matches(s, p) && WellFormed(s') && Moved(s, s', t) && PermitsMoved(p, p', t)
    requires SameWaiters(p'.lists[WAITS], s'.c.lists[C.SYNC])
    requires SameHandles(p'.lists[LOCKS], s'.m.lists[M.SYNC]) && OnlyConts(s'.m.lists[M.ASYNC])
    requires forall u: nat :: u < |s.c.pcs| ==> (u in p'.tokens <==> Handle(u) in s'.m.ready)
    requires t < |s.c.pcs| ==> ThreadMatches(s', p', t)
    ensures Matches(s', p')
  {
    forall u: nat | u < |s.c.pcs| ensures ThreadMatches(s', p', u) {
      if u != t { assert ThreadMatches(s, p, u); }
    }
  }

  // ---- steps of the condition variable ----

  lemma WaitSteps(s: State, t: nat)
    requires Inv(s) && Enabled(s, Wait(C.Step(t)))
    ensures var s', e := Next(s, Wait(C.Step(t))), EchoOfWait(s.c, C.Step(t));
      && WellFormed(s') && Moved(s, s', t) && s'.m.pcs == s.m.pcs && s'.m.lists == s.m.lists
      && (forall u: nat :: Handle(u) in s'.m.ready <==>
            e == Some(M.StrayToken(u)) || (Handle(u) in s.m.ready && e != Some(M.StrayPark(u))))
  {
    InvNext(s, Wait(C.Step(t)));
    WaitMoves(s.c, C.Step(t));
    EchoTokens(s, C.Step(t));
  }

  lemma FollowsRegister(s: State, t: nat, p: P.State)
    requires Inv(s) && Matches(s, p) && Enabled(s, Wait(C.Step(t))) && s.c.pcs[t].Register?
    ensures Follows(s, Wait(C.Step(t)), p)
  {
    WaitSteps(s, t);
    assert ThreadMatches(s, p, t) && Together(s.c.pcs[t], s.m.pcs[t]);
    var s' := Next(s, Wait(C.Step(t)));
    if s.c.pcs[t].list == C.SYNC {
      Conclude(s, s', t, p, P.Next(p, P.Push(t, WAITS)));
    } else {
      Conclude(s, s', t, p, p);
    }
  }

  lemma FollowsTakeAll(s: State, t: nat, p: P.State)
    requires Inv(s) && Matches(s, p) && Enabled(s, Wait(C.Step(t))) && s.c.pcs[t].Notify? && s.c.pcs[t].all
    ensures Follows(s, Wait(C.Step(t)), p)
  {
    WaitSteps(s, t);
    assert ThreadMatches(s, p, t) && Together(s.c.pcs[t], s.m.pcs[t]);
    var s' := Next(s, Wait(C.Step(t)));
    if s.c.pcs[t].list == C.SYNC {
      Conclude(s, s', t, p, P.Next(p, P.Take(t, WAITS)));
    } else {
      Conclude(s, s', t, p, p);
    }
  }

  lemma FollowsPopOne(s: State, t: nat, p: P.State)
    requires Inv(s) && Matches(s, p) && Enabled(s, Wait(C.Step(t))) && s.c.pcs[t].Notify? && !s.c.pcs[t].all
    requires s.c.pcs[t].list == C.SYNC && s.c.lists[C.SYNC] != []
    ensures Follows(s, Wait(C.Step(t)), p)
  {
    WaitSteps(s, t);
    assert ThreadMatches(s, p, t) && Together(s.c.pcs[t], s.m.pcs[t]);
    Conclude(s, Next(s, Wait(C.Step(t))), t, p, P.Next(p, P.Pop(t, WAITS)));
  }

  lemma FollowsPass(s: State, t: nat, p: P.State)
    requires Inv(s) && Matches(s, p) && Enabled(s, Wait(C.Step(t))) && s.c.pcs[t].Notify? && !s.c.pcs[t].all
    requires s.c.pcs[t].list != C.SYNC || s.c.lists[C.SYNC] == []
    ensures Follows(s, Wait(C.Step(t)), p)
  {
    WaitSteps(s, t);
    assert ThreadMatches(s, p, t) && Together(s.c.pcs[t], s.m.pcs[t]);
    Conclude(s, Next(s, Wait(C.Step(t))), t, p, p);
  }

  lemma FollowsUnpark(s: State, t: nat, p: P.State)
    requires Inv(s) && Matches(s, p) && Enabled(s, Wait(C.Step(t)))
    requires s.c.pcs[t].Deliver? && s.c.pcs[t].list == C.SYNC && s.c.pcs[t].batch != []
    ensures Follows(s, Wait(C.Step(t)), p)
  {
    WaitSteps(s, t);
    assert ThreadMatches(s, p, t) && Together(s.c.pcs[t], s.m.pcs[t]);
    Conclude(s, Next(s, Wait(C.Step(t))), t, p, P.Next(p, P.Unpark(t)));
  }

  /** A flag or a continuation is set, or the batch is at its end. */
  lemma FollowsSet(s: State, t: nat, p: P.State)
    requires Inv(s) && Matches(s, p) && Enabled(s, Wait(C.Step(t)))
    requires s.c.pcs[t].Deliver? && (s.c.pcs[t].list != C.SYNC || s.c.pcs[t].batch == [])
    ensures Follows(s, Wait(C.Step(t)), p)
  {
    WaitSteps(s, t);
    assert ThreadMatches(s, p, t) && Together(s.c.pcs[t], s.m.pcs[t]) && CA.ThreadOk(s.c, t);
    if s.c.pcs[t].batch != [] {
      assert s.c.pcs[t].batch[0] in s.c.pcs[t].batch;
      assert CA.EntryOk(s.c, s.c.pcs[t].list, s.c.pcs[t].batch[0]);
    }
    Conclude(s, Next(s, Wait(C.Step(t))), t, p, p);
  }

  lemma FollowsWake(s: State, t: nat, p: P.State)
    requires Inv(s) && Matches(s, p) && Enabled(s, Wait(C.Step(t))) && s.c.pcs[t].Asleep?
    ensures Follows(s, Wait(C.Step(t)), p)
  {
    WaitSteps(s, t);
    assert ThreadMatches(s, p, t) && Together(s.c.pcs[t], s.m.pcs[t]) && CA.ThreadOk(s.c, t);
    var s' := Next(s, Wait(C.Step(t)));
    if s.c.pcs[t].list == C.SYNC {
      Conclude(s, s', t, p, P.Next(p, P.ParkReturns(t)));
    } else {
      Conclude(s, s', t, p, p);
    }
  }

  lemma FollowsOtherStep(s: State, t: nat, p: P.State)
    requires Inv(s) && Matches(s, p) && Enabled(s, Wait(C.Step(t)))
    requires s.c.pcs[t].Missed? || s.c.pcs[t].Expired? || s.c.pcs[t].Drain?
    ensures Follows(s, Wait(C.Step(t)), p)
  {
    WaitSteps(s, t);
    assert ThreadMatches(s, p, t) && Together(s.c.pcs[t], s.m.pcs[t]);
    Conclude(s, Next(s, Wait(C.Step(t))), t, p, p);
  }

  lemma FollowsCall(s: State, ca: C.Action, p: P.State)
    requires Inv(s) && Matches(s, p) && Enabled(s, Wait(ca)) && Quiet(Wait(ca)) && !ca.Step?
    ensures Follows(s, Wait(ca), p)
  {
    InvNext(s, Wait(ca));
    WaitMoves(s.c, ca);
    assert ThreadMatches(s, p, ca.t) && Together(s.c.pcs[ca.t], s.m.pcs[ca.t]);
    Conclude(s, Next(s, Wait(ca)), ca.t, p, p);
  }

  lemma FollowsStep(s: State, t: nat, p: P.State)
    requires Inv(s) && Matches(s, p) && Enabled(s, Wait(C.Step(t)))
    ensures Follows(s, Wait(C.Step(t)), p)
  {
    var q := s.c.pcs[t];
    assert ThreadMatches(s, p, t);
    if q.Register? {
      FollowsRegister(s, t, p);
    } else if q.Notify? {
      if q.all {
        FollowsTakeAll(s, t, p);
      } else if q.list == C.SYNC && s.c.lists[C.SYNC] != [] {
        FollowsPopOne(s, t, p);
      } else {
        FollowsPass(s, t, p);
      }
    } else if q.Deliver? {
      if q.list == C.SYNC && q.batch != [] { FollowsUnpark(s, t, p); } else { FollowsSet(s, t, p); }
    } else if q.Asleep? {
      FollowsWake(s, t, p);
    } else {
      FollowsOtherStep(s, t, p);
    }
  }

  // ---- steps of the mutex ----

  lemma LockSteps(s: State, ma: M.Action)
    requires Inv(s) && Enabled(s, Lock(ma))
    ensures var s' := Next(s, Lock(ma));
      && WellFormed(s') && Moved(s, s', ma.t) && s'.c.pcs == s.c.pcs && s'.c.lists == s.c.lists
      && s'.m == M.Next(s.m, ma)
  {
    InvNext(s, Lock(ma));
    LockMoves(s.m, ma);
  }

  lemma FollowsPush(s: State, t: nat, p: P.State)
    requires Inv(s) && Matches(s, p) && Enabled(s, Lock(M.Step(t))) && s.m.pcs[t].Push?
    ensures Follows(s, Lock(M.Step(t)), p)
  {
    LockSteps(s, M.Step(t));
    assert ThreadMatches(s, p, t) && Together(s.c.pcs[t], s.m.pcs[t]);
    var s' := Next(s, Lock(M.Step(t)));
    if s.m.pcs[t].list == M.SYNC {
      Conclude(s, s', t, p, P.Next(p, P.Push(t, LOCKS)));
    } else {
      Conclude(s, s', t, p, p);
    }
  }

  lemma FollowsTake(s: State, t: nat, p: P.State)
    requires Inv(s) && Matches(s, p) && Enabled(s, Lock(M.Step(t))) && s.m.pcs[t].Taking?
    ensures Follows(s, Lock(M.Step(t)), p)
  {
    LockSteps(s, M.Step(t));
    assert ThreadMatches(s, p, t) && Together(s.c.pcs[t], s.m.pcs[t]);
    var s' := Next(s, Lock(M.Step(t)));
    if s.m.pcs[t].list == M.SYNC {
      Conclude(s, s', t, p, P.Next(p, P.Take(t, LOCKS)));
    } else {
      Conclude(s, s', t, p, p);
    }
  }

  lemma FollowsUnlockWake(s: State, t: nat, p: P.State)
    requires Inv(s) && Matches(s, p) && Enabled(s, Lock(M.Step(t))) && s.m.pcs[t].Waking?
    ensures Follows(s, Lock(M.Step(t)), p)
  {
    LockSteps(s, M.Step(t));
    assert ThreadMatches(s, p, t) && Together(s.c.pcs[t], s.m.pcs[t]);
    var s' := Next(s, Lock(M.Step(t)));
    if s.m.pcs[t].list == M.SYNC && s.m.pcs[t].batch != [] {
      Conclude(s, s', t, p, P.Next(p, P.Unpark(t)));
    } else {
      Conclude(s, s', t, p, p);
    }
  }

  lemma FollowsResume(s: State, t: nat, p: P.State)
    requires Inv(s) && Matches(s, p) && Enabled(s, Lock(M.Step(t))) && s.m.pcs[t].Asleep?
    ensures Follows(s, Lock(M.Step(t)), p)
  {
    LockSteps(s, M.Step(t));
    assert ThreadMatches(s, p, t) && Together(s.c.pcs[t], s.m.pcs[t]) && MI.Safe(s.m, t);
    var s' := Next(s, Lock(M.Step(t)));
    if s.m.pcs[t].list == M.SYNC {
      Conclude(s, s', t, p, P.Next(p, P.ParkReturns(t)));
    } else {
      Conclude(s, s', t, p, p);
    }
  }

  /** Steps of the mutex that touch no list, no token and no batch. */
  predicate Plain(m: M.State, ma: M.Action)
    requires M.WellFormed(m) && M.Enabled(m, ma)
  {
    && !ma.Spurious? && !ma.StrayToken? && !ma.StrayPark?
    && (ma.Step? ==>
          var q := m.pcs[ma.t]; !q.Push? && !q.Taking? && !q.Waking? && !q.Asleep?)
  }

  lemma PlainLeaves(m: M.State, ma: M.Action)
    requires M.WellFormed(m) && M.Enabled(m, ma) && Plain(m, ma)
    ensures var m' := M.Next(m, ma);
      && m'.lists == m.lists && m'.ready == m.ready && ma.t < |m'.pcs|
      && M.Parks(m'.pcs[ma.t]) == M.Parks(m.pcs[ma.t])
      && ((m'.pcs[ma.t].Taken? || m'.pcs[ma.t].Waking?) <==> m.pcs[ma.t].Taken?)
      && (m.pcs[ma.t].Taken? ==>
            m'.pcs[ma.t].Waking? && m'.pcs[ma.t].list == m.pcs[ma.t].list && m'.pcs[ma.t].batch == m.pcs[ma.t].batch)
  {}

  lemma FollowsPlain(s: State, ma: M.Action, p: P.State)
    requires Inv(s) && Matches(s, p) && Enabled(s, Lock(ma)) && Plain(s.m, ma)
    ensures Follows(s, Lock(ma), p)
  {
    LockSteps(s, ma);
    PlainLeaves(s.m, ma);
    assert ThreadMatches(s, p, ma.t) && Together(s.c.pcs[ma.t], s.m.pcs[ma.t]);
    Conclude(s, Next(s, Lock(ma)), ma.t, p, p);
  }

  lemma FollowsLock(s: State, ma: M.Action, p: P.State)
    requires Inv(s) && Matches(s, p) && Enabled(s, Lock(ma)) && Quiet(Lock(ma))
    ensures Follows(s, Lock(ma), p)
  {
    if ma.Step? && s.m.pcs[ma.t].Push? {
      FollowsPush(s, ma.t, p);
    } else if ma.Step? && s.m.pcs[ma.t].Taking? {
      FollowsTake(s, ma.t, p);
    } else if ma.Step? && s.m.pcs[ma.t].Waking? {
      FollowsUnlockWake(s, ma.t, p);
    } else if ma.Step? && s.m.pcs[ma.t].Asleep? {
      FollowsResume(s, ma.t, p);
    } else {
      FollowsPlain(s, ma, p);
    }
  }

  // ---- steps of both ----

  lemma FollowsObtain(s: State, ma: M.Action, p: P.State)
    requires Inv(s) && Matches(s, p) && Enabled(s, Obtain(ma))
    ensures Follows(s, Obtain(ma), p)
  {
    InvNext(s, Obtain(ma));
    LockMoves(s.m, ma);
    ObtainIsAdmitted(s, ma);
    WaitMoves(s.c, Obtained(s.c, ma.t));
    PlainLeaves(s.m, ma);
    assert ThreadMatches(s, p, ma.t) && Together(s.c.pcs[ma.t], s.m.pcs[ma.t]);
    Conclude(s, Next(s, Obtain(ma)), ma.t, p, p);
  }

  lemma FollowsRelease(s: State, t: nat, p: P.State)
    requires Inv(s) && Matches(s, p) && Enabled(s, Release(t))
    ensures Follows(s, Release(t), p)
  {
    InvNext(s, Release(t));
    LockMoves(s.m, M.Drop(t));
    WaitMoves(s.c, Released(s.c, t));
    assert ThreadMatches(s, p, t);
    Conclude(s, Next(s, Release(t)), t, p, p);
  }

  /** Every step of a condition variable and its mutex is a move of the permit machine over both
      lists, or leaves it alone. */
  lemma FollowsAny(s: State, a: Action, p: P.State)
    requires Inv(s) && Matches(s, p) && Enabled(s, a) && Quiet(a)
    ensures Follows(s, a, p)
  {
    match a
    case Wait(ca) => if ca.Step? { FollowsStep(s, ca.t, p); } else { FollowsCall(s, ca, p); }
    case Lock(ma) => FollowsLock(s, ma, p);
    case Obtain(ma) => FollowsObtain(s, ma, p);
    case Release(t) => FollowsRelease(s, t, p);
  }
}
