/** What the waits of a condition variable report when its mutex is contended: without spurious
    wakes, a wait that returns was popped. */
module MonitorHistory {
  import opened Parking
  import opened Sums
  import opened MonitorModel
  import opened MonitorInvariant
  import opened MonitorPermits
  import C = CondvarModel
  import M = MutexModel
  import CA = CondvarAccounting
  import MI = MutexInvariant
  import P = Permits

  /** wait_block's share of the history: no wait removes itself, and whoever is past its park, or has
      returned, was popped. */
  ghost predicate Paid(c: C.State)
    requires C.Shape(c)
  {
    && (forall w :: w in c.h.left && w < |c.h.kinds| ==> c.h.kinds[w] != C.SYNC)
    && (forall t: nat :: t < |c.pcs| ==> PastPark(c.h, c.pcs[t]))
    && (forall w :: w in c.h.outcomes && w < |c.h.kinds| && c.h.kinds[w] == C.SYNC ==> !c.h.outcomes[w] && w in c.h.popped)
  }

  predicate PastPark(h: C.History, p: C.Pc) {
    p.Relock? && p.list == C.SYNC ==> !p.timedOut && p.me.wait in h.popped
  }

  /** A thread in wait_block whose token is set has been popped: the token is its only permit. */
  lemma WokenWasPopped(s: State, t: nat, p: P.State)
    requires Inv(s) && Matches(s, p) && P.Conserved(p) && Paid(s.c)
    requires t < |s.c.pcs| && s.c.pcs[t].Asleep? && s.c.pcs[t].list == C.SYNC && s.c.pcs[t].me.key in s.c.ready
    ensures s.c.pcs[t].me.wait in s.c.h.popped
    ensures !C.OnList(s.c.pcs[t].me.key, s.c.lists[C.SYNC])
  {
    var me := s.c.pcs[t].me;
    assert CA.ThreadOk(s.c, t) && ThreadMatches(s, p, t) && P.OnePermit(p, t);
    SumAtLeast(P.Handles(t), p.lists, WAITS);
    OccursIn(t, p.lists[WAITS]);
    CA.NotListed(s.c, C.SYNC, me);
    assert CA.OnLists(s.c, me.wait) + Bit(me.wait in s.c.h.popped) + Bit(me.wait in s.c.h.left) == 1;
  }

  /** A step that leaves the records alone, or adds to what was popped. */
  lemma PaidKept(c: C.State, ca: C.Action)
    requires CA.Inv(c) && Paid(c) && C.Enabled(c, ca)
    requires C.Next(c, ca).h.kinds == c.h.kinds && C.Next(c, ca).h.left == c.h.left
    requires C.Next(c, ca).h.outcomes == c.h.outcomes && c.h.popped <= C.Next(c, ca).h.popped
    requires ca.t < |C.Next(c, ca).pcs| && PastPark(C.Next(c, ca).h, C.Next(c, ca).pcs[ca.t])
    ensures Paid(C.Next(c, ca))
  {
    WaitMoves(c, ca);
    forall u: nat | u < |c.pcs| ensures PastPark(C.Next(c, ca).h, C.Next(c, ca).pcs[u]) {
      assert PastPark(c.h, c.pcs[u]);
    }
  }

  lemma PaidRegister(c: C.State, t: nat)
    requires CA.Inv(c) && Paid(c) && t < |c.pcs| && c.pcs[t].Register?
    ensures Paid(C.StepOf(c, t))
  {
    var w, c' := |c.h.kinds|, C.StepOf(c, t);
    assert CA.OnLists(c, w) + Bit(w in c.h.popped) + Bit(w in c.h.left) == 0;
    forall u: nat | u < |c.pcs| ensures PastPark(c'.h, c'.pcs[u]) { assert PastPark(c.h, c.pcs[u]); }
  }

  lemma PaidReturn(c: C.State, t: nat)
    requires CA.Inv(c) && Paid(c) && t < |c.pcs| && c.pcs[t].Relock? && C.CanStep(c, t)
    ensures Paid(C.StepOf(c, t))
  {
    var c' := C.StepOf(c, t);
    assert CA.ThreadOk(c, t) && PastPark(c.h, c.pcs[t]);
    forall u: nat | u < |c.pcs| ensures PastPark(c'.h, c'.pcs[u]) { assert PastPark(c.h, c.pcs[u]); }
  }

  lemma PaidLeave(c: C.State, t: nat)
    requires CA.Inv(c) && Paid(c) && t < |c.pcs| && c.pcs[t].Expired? && c.pcs[t].list != C.SYNC
    ensures Paid(C.StepOf(c, t))
  {
    var c', i, me := C.StepOf(c, t), c.pcs[t].list, c.pcs[t].me;
    if C.OnList(me.key, c.lists[i]) {
      var e := c.lists[i][C.Position(me.key, c.lists[i])];
      assert e in c.lists[i] && CA.EntryOk(c, i, e);
    }
    forall u: nat | u < |c.pcs| ensures PastPark(c'.h, c'.pcs[u]) { assert PastPark(c.h, c.pcs[u]); }
  }

  lemma PaidOther(c: C.State, t: nat)
    requires CA.Inv(c) && Paid(c) && t < |c.pcs| && C.CanStep(c, t) && Untimed(c.pcs[t])
    requires !c.pcs[t].Register? && !c.pcs[t].Relock? && !c.pcs[t].Expired?
    requires c.pcs[t].Asleep? && c.pcs[t].list == C.SYNC ==> c.pcs[t].me.wait in c.h.popped
    ensures Paid(C.StepOf(c, t))
  {
    PaidKept(c, C.Step(t));
  }

  lemma PaidStep(c: C.State, t: nat)
    requires CA.Inv(c) && Paid(c) && t < |c.pcs| && C.CanStep(c, t) && Untimed(c.pcs[t])
    requires c.pcs[t].Asleep? && c.pcs[t].list == C.SYNC ==> c.pcs[t].me.wait in c.h.popped
    ensures Paid(C.StepOf(c, t))
  {
    var q := c.pcs[t];
    if q.Register? {
      PaidRegister(c, t);
    } else if q.Relock? {
      PaidReturn(c, t);
    } else if q.Expired? {
      PaidLeave(c, t);
    } else {
      PaidOther(c, t);
    }
  }

  lemma PaidCall(c: C.State, ca: C.Action)
    requires CA.Inv(c) && Paid(c) && C.Enabled(c, ca) && !ca.Step? && !ca.Spurious?
    ensures Paid(C.Next(c, ca))
  {
    assert PastPark(c.h, c.pcs[ca.t]);
    PaidKept(c, ca);
  }

  lemma PaidNext(s: State, a: Action, p: P.State)
    requires Inv(s) && Matches(s, p) && P.Conserved(p) && Paid(s.c) && Enabled(s, a) && Quiet(a)
    ensures C.Shape(Next(s, a).c) && Paid(Next(s, a).c)
  {
    InvNext(s, a);
    var e := WaitPart(s, a);
    if e.Some? {
      var t := e.value.t;
      assert ThreadMatches(s, p, t);
      if e.value.Step? {
        if s.c.pcs[t].Asleep? && s.c.pcs[t].list == C.SYNC { WokenWasPopped(s, t, p); }
        PaidStep(s.c, t);
      } else {
        PaidCall(s.c, e.value);
      }
    }
  }

  /** Everything that a run without spurious wakes keeps. */
  ghost predicate QuietInv(s: State, p: P.State) {
    Inv(s) && Matches(s, p) && P.Conserved(p) && Paid(s.c)
  }

  lemma QuietNext(s: State, a: Action, p: P.State) returns (p': P.State)
    requires QuietInv(s, p) && Enabled(s, a) && Quiet(a)
    ensures QuietInv(Next(s, a), p')
  {
    InvNext(s, a);
    FollowsAny(s, a, p);
    PaidNext(s, a, p);
    p' := p;
    if Image(s, a).Some? {
      P.ConservedNext(p, Image(s, a).value);
      p' := P.Next(p, Image(s, a).value);
    }
  }

  lemma {:induction false} QuietRun(s: State, schedule: seq<Action>, p: P.State) returns (p': P.State)
    requires QuietInv(s, p) && Run(s, schedule).Some? && forall a :: a in schedule ==> Quiet(a)
    ensures QuietInv(Run(s, schedule).value, p')
    decreases |schedule|
  {
    p' := p;
    if schedule != [] {
      assert schedule[0] in schedule;
      var next := QuietNext(s, schedule[0], p);
      p' := QuietRun(Next(s, schedule[0]), schedule[1..], next);
    }
  }
}
