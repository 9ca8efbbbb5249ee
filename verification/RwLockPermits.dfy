/** The park tokens of the reader-writer lock follow the law of Permits over its two lists of threads:
    every run without spurious wakes and foreign tokens, over any mix of acquisition paths. */
module RwLockPermits {
  import opened Parking
  import opened Sums
  import opened RwLockModel
  import opened RwLockInvariant
  import opened RwLockTheorems
  import P = Permits
  import W = RwLockWorkload

  /** Neither a spurious wake nor a token of another primitive. */
  predicate Own(a: Action) { !a.Spurious? && !a.StrayToken? && !a.StrayPark? }

  /** The permit machine's number of a list of threads. */
  function Slot(list: nat): nat { if list == SYNC_READ then 0 else 1 }

  predicate InHand(p: Pc, handles: seq<nat>) {
    if !p.Taken? && !p.Waking? then handles == []
    else if ForThreads(p.list) then SameHandles(handles, p.batch)
    else handles == [] && OnlyConts(p.batch)
  }

  predicate InQueue(p: Pc, queued: Option<nat>) {
    queued == if Parks(p) then Some(Slot(p.list)) else None
  }

  ghost predicate Matches(s: State, p: P.State)
    requires Shape(s)
  {
    && |p.lists| == 2
    && SameHandles(p.lists[0], s.lists[SYNC_READ]) && SameHandles(p.lists[1], s.lists[SYNC_WRITE])
    && OnlyConts(s.lists[ASYNC_READ]) && OnlyConts(s.lists[ASYNC_WRITE])
    && |p.queued| == |p.hands| == |s.pcs|
    && (forall t :: 0 <= t < |s.pcs| ==> InHand(s.pcs[t], p.hands[t]) && InQueue(s.pcs[t], p.queued[t]))
    && (forall t: nat :: t in p.tokens <==> Handle(t) in s.ready)
  }

  /** What a step means for the permits. */
  function Image(s: State, a: Action): Option<P.Action>
    requires WellFormed(s) && Enabled(s, a)
  {
    if !a.Step? then None
    else
      match s.pcs[a.t]
      case Push(i) => if ForThreads(i) then Some(P.Push(a.t, Slot(i))) else None
      case Taking(i) => if ForThreads(i) then Some(P.Take(a.t, Slot(i))) else None
      case Waking(i, batch) => if ForThreads(i) && batch != [] then Some(P.Unpark(a.t)) else None
      case Asleep(i, _) => if ForThreads(i) then Some(P.ParkReturns(a.t)) else None
      case _ => None
  }

  ghost predicate Follows(s: State, a: Action, p: P.State)
    requires WellFormed(s) && Enabled(s, a)
  {
    match Image(s, a)
    case None => WellFormed(Next(s, a)) && Matches(Next(s, a), p)
    case Some(b) => P.Enabled(p, b) && WellFormed(Next(s, a)) && Matches(Next(s, a), P.Next(p, b))
  }

  /** The threads that do not move keep matching. */
  lemma OthersMatch(s: State, s': State, t: nat, p: P.State)
    requires Shape(s) && Matches(s, p) && Moved(s, s', t)
    ensures forall u :: 0 <= u < |s.pcs| && u != t ==> InHand(s'.pcs[u], p.hands[u]) && InQueue(s'.pcs[u], p.queued[u])
  {
    forall u | 0 <= u < |s.pcs| && u != t ensures InHand(s'.pcs[u], p.hands[u]) && InQueue(s'.pcs[u], p.queued[u]) {
      assert InHand(s.pcs[u], p.hands[u]) && InQueue(s.pcs[u], p.queued[u]) && s'.pcs[u] == s.pcs[u];
    }
  }

  lemma FollowsPush(s: State, t: nat, p: P.State)
    requires WellFormed(s) && Matches(s, p) && t < |s.pcs| && s.pcs[t].Push?
    ensures Follows(s, Step(t), p)
  {
    assert InHand(s.pcs[t], p.hands[t]) && InQueue(s.pcs[t], p.queued[t]);
    OthersMatch(s, StepOf(s, t), t, p);
  }

  lemma FollowsTake(s: State, t: nat, p: P.State)
    requires WellFormed(s) && Matches(s, p) && t < |s.pcs| && s.pcs[t].Taking?
    ensures Follows(s, Step(t), p)
  {
    assert InHand(s.pcs[t], p.hands[t]) && InQueue(s.pcs[t], p.queued[t]);
    OthersMatch(s, StepOf(s, t), t, p);
  }

  lemma FollowsWake(s: State, t: nat, p: P.State)
    requires WellFormed(s) && Matches(s, p) && t < |s.pcs| && s.pcs[t].Waking?
    ensures Follows(s, Step(t), p)
  {
    assert InHand(s.pcs[t], p.hands[t]) && InQueue(s.pcs[t], p.queued[t]);
    OthersMatch(s, StepOf(s, t), t, p);
  }

  lemma FollowsResume(s: State, t: nat, p: P.State)
    requires Inv(s) && Matches(s, p) && t < |s.pcs| && s.pcs[t].Asleep? && CanStep(s, t)
    ensures Follows(s, Step(t), p)
  {
    assert InHand(s.pcs[t], p.hands[t]) && InQueue(s.pcs[t], p.queued[t]) && Safe(s, t);
    OthersMatch(s, StepOf(s, t), t, p);
  }

  /** A move that touches no list, no token and no batch. */
  lemma QuietMatches(s: State, s': State, t: nat, p: P.State)
    requires Shape(s) && Shape(s') && Matches(s, p) && Moved(s, s', t)
    requires s'.lists == s.lists && s'.ready == s.ready
    requires InHand(s.pcs[t], p.hands[t]) ==> InHand(s'.pcs[t], p.hands[t])
    requires InQueue(s.pcs[t], p.queued[t]) ==> InQueue(s'.pcs[t], p.queued[t])
    ensures Matches(s', p)
  {
    OthersMatch(s, s', t, p);
  }

  lemma FollowsQuiet(s: State, t: nat, p: P.State)
    requires Inv(s) && Matches(s, p) && t < |s.pcs| && CanStep(s, t)
    requires !s.pcs[t].Push? && !s.pcs[t].Taking? && !s.pcs[t].Waking? && !s.pcs[t].Asleep?
    ensures Matches(StepOf(s, t), p)
  {
    InvStep(s, t);
    QuietMatches(s, StepOf(s, t), t, p);
  }

  lemma FollowsCall(s: State, a: Action, p: P.State)
    requires Inv(s) && Matches(s, p) && Enabled(s, a) && !a.Step? && Own(a)
    ensures Matches(Next(s, a), p)
  {
    InvNext(s, a);
    QuietMatches(s, Next(s, a), a.t, p);
  }

  lemma FollowsAny(s: State, a: Action, p: P.State)
    requires Inv(s) && Matches(s, p) && Enabled(s, a) && Own(a)
    ensures Follows(s, a, p)
  {
    InvNext(s, a);
    if a.Step? && s.pcs[a.t].Push? {
      FollowsPush(s, a.t, p);
    } else if a.Step? && s.pcs[a.t].Taking? {
      FollowsTake(s, a.t, p);
    } else if a.Step? && s.pcs[a.t].Waking? {
      FollowsWake(s, a.t, p);
    } else if a.Step? && s.pcs[a.t].Asleep? {
      FollowsResume(s, a.t, p);
    } else if a.Step? {
      FollowsQuiet(s, a.t, p);
    } else {
      FollowsCall(s, a, p);
    }
  }

  lemma {:induction false} RunFollows(s: State, schedule: seq<Action>, p: P.State) returns (p': P.State)
    requires Inv(s) && Matches(s, p) && P.Conserved(p) && Run(s, schedule).Some?
    requires forall a :: a in schedule ==> Own(a)
    ensures Inv(Run(s, schedule).value) && Matches(Run(s, schedule).value, p') && P.Conserved(p')
    decreases |schedule|
  {
    p' := p;
    if schedule != [] {
      var a := schedule[0];
      assert a in schedule;
      InvNext(s, a);
      FollowsAny(s, a, p);
      var next := p;
      if Image(s, a).Some? {
        P.ConservedNext(p, Image(s, a).value);
        next := P.Next(p, Image(s, a).value);
      }
      p' := RunFollows(Next(s, a), schedule[1..], next);
    }
  }

  lemma SamePermits(s: State, p: P.State, t: nat)
    requires WellFormed(s) && Matches(s, p)
    ensures W.Permits(s, t) == P.PermitsOf(p, t)
  {
    SameCount(p.lists[0], s.lists[SYNC_READ], t);
    SameCount(p.lists[1], s.lists[SYNC_WRITE], t);
    forall u | 0 <= u < |s.pcs| ensures Carries(Handle(t))(s.pcs[u]) == P.Handles(t)(p.hands[u]) {
      assert InHand(s.pcs[u], p.hands[u]);
      if s.pcs[u].Taken? || s.pcs[u].Waking? {
        if ForThreads(s.pcs[u].list) {
          SameCount(p.hands[u], s.pcs[u].batch, t);
        } else {
          OccursIn(Handle(t), s.pcs[u].batch);
        }
      }
    }
    SumPointwise(Carries(Handle(t)), s.pcs, P.Handles(t), p.hands);
    SumPointwise(P.Handles(t), p.hands, Carries(Handle(t)), s.pcs);
    SumTwo(P.Handles(t), p.lists);
  }

  /** Without spurious wakes and foreign tokens a thread has exactly one permit over both lists of
      threads from its push to the return of park and none otherwise, in every run of blocking, async
      and spinning readers and writers. */
  lemma OnePermitEach(threads: nat, schedule: seq<Action>, t: nat)
    requires Run(Init(threads), schedule).Some?
    requires forall a :: a in schedule ==> Own(a)
    requires t < |Run(Init(threads), schedule).value.pcs|
    ensures var s := Run(Init(threads), schedule).value;
      Shape(s) && W.Permits(s, t) == Bit(Parks(s.pcs[t]))
  {
    InitInv(threads);
    P.InitConserved(threads, 2);
    var p := RunFollows(Init(threads), schedule, P.Init(threads, 2));
    var s := Run(Init(threads), schedule).value;
    SamePermits(s, p, t);
    assert P.OnePermit(p, t) && InQueue(s.pcs[t], p.queued[t]);
  }
}
