/** Conservation of permits across all mutexes, reader-writer locks and condition variables. */
module Permits {

  // A blocking wait pushes the thread's handle on one list of threads - a mutex's, a lock's or a
  // condition variable's - and then parks until its token is set.  Other threads take whole lists
  // (did_unlock, notify_all) or pop one entry (notify_one) and unpark what they removed one by
  // one.  The thread itself does so between its push and its park: wait_block drops its guard
  // there.  Only the lists, the handles in transit and the tokens matter; whether a compare-exchange
  // succeeds does not.  There are no timed blocking calls and no spurious wake-ups here.

  import opened Parking
  import opened Sums

  /** `lists` holds thread numbers, one list for each primitive's list of threads; `queued[t]` is
      the list thread t has pushed itself on and not yet returned from; `hands[t]` are the handles t
      has removed and not yet unparked.  `removed` and `returned` record, as (list, thread), every
      removal of an entry and every return of park. */
  datatype State = State(
    lists: seq<seq<nat>>,
    tokens: set<nat>,
    queued: seq<Option<nat>>,
    hands: seq<seq<nat>>,
    removed: multiset<(nat, nat)>,
    returned: multiset<(nat, nat)>)

  datatype Action =
    | Push(t: nat, list: nat)       // lock_block, lock_block_read, lock_block_write, wait_block
    | Take(t: nat, list: nat)       // did_unlock, did_unlock_read, did_unlock_write, notify_all
    | Pop(t: nat, list: nat)        // notify_one
    | Unpark(t: nat)
    | ParkReturns(t: nat)

  function Init(threads: nat, lists: nat): State {
    State(seq(lists, _ => []), {}, seq(threads, _ => None), seq(threads, _ => []), multiset{}, multiset{})
  }

  predicate Enabled(s: State, a: Action) {
    && |s.queued| == |s.hands| && a.t < |s.queued|
    && match a
       case Push(t, list) => s.queued[t] == None && list < |s.lists|
       case Take(t, list) => s.hands[t] == [] && list < |s.lists|
       case Pop(t, list) => s.hands[t] == [] && list < |s.lists| && s.lists[list] != []
       case Unpark(t) => s.hands[t] != []
       case ParkReturns(t) => s.queued[t].Some? && t in s.tokens && s.hands[t] == []
  }

  /** The entries of a list as removals from it. */
  function Tagged(list: nat, handles: seq<nat>): multiset<(nat, nat)> {
    if handles == [] then multiset{} else multiset{(list, handles[0])} + Tagged(list, handles[1..])
  }

  function Remove(s: State, t: nat, list: nat, keep: nat): State
    requires list < |s.lists| && keep <= |s.lists[list]| && t < |s.hands|
  {
    var gone := s.lists[list][keep..];
    s.(lists := s.lists[list := s.lists[list][..keep]],
       hands := s.hands[t := gone],
       removed := s.removed + Tagged(list, gone))
  }

  function Next(s: State, a: Action): State
    requires Enabled(s, a)
  {
    match a
    case Push(t, list) =>
      s.(lists := s.lists[list := s.lists[list] + [t]], queued := s.queued[t := Some(list)])
    case Take(t, list) => Remove(s, t, list, 0)
    case Pop(t, list) => Remove(s, t, list, |s.lists[list]| - 1)
    case Unpark(t) =>
      s.(tokens := s.tokens + {s.hands[t][0]}, hands := s.hands[t := s.hands[t][1..]])
    case ParkReturns(t) =>
      s.(tokens := s.tokens - {t}, queued := s.queued[t := None],
         returned := s.returned + multiset{(s.queued[t].value, t)})
  }

  function Run(s: State, schedule: seq<Action>): Option<State>
    decreases |schedule|
  {
    if schedule == [] then Some(s)
    else if Enabled(s, schedule[0]) then Run(Next(s, schedule[0]), schedule[1..])
    else None
  }

  function Handles(t: nat): seq<nat> -> nat {
    (handles: seq<nat>) => Occurs(t, handles)
  }

  /** Every permit of thread t: entries over all lists, handles in transit, token. */
  ghost function PermitsOf(s: State, t: nat): nat {
    Sum(Handles(t), s.lists) + Sum(Handles(t), s.hands) + Bit(t in s.tokens)
  }

  /** Thread t has one permit from its push to the return of park, and none otherwise. */
  ghost predicate OnePermit(s: State, t: nat)
    requires t < |s.queued|
  {
    && PermitsOf(s, t) == Bit(s.queued[t].Some?)
    && (s.queued[t].Some? ==> s.queued[t].value < |s.lists|)
  }

  /** An entry is never stale: its thread waits on this very list. */
  predicate NotStale(s: State, t: nat, list: nat)
    requires list < |s.lists|
  {
    t in s.lists[list] ==> t < |s.queued| && s.queued[t] == Some(list)
  }

  /** Every finished wait of t on the list was paid for by one removal of its entry from it; the
      wait in progress has been removed or is still listed. */
  predicate Paid(s: State, t: nat, list: nat)
    requires t < |s.queued| && list < |s.lists|
  {
    s.removed[(list, t)] == s.returned[(list, t)] + Bit(s.queued[t] == Some(list) && t !in s.lists[list])
  }

  ghost predicate Conserved(s: State) {
    && |s.queued| == |s.hands|
    && (forall t: nat :: t < |s.queued| ==> OnePermit(s, t))
    && (forall t: nat, list: nat :: list < |s.lists| ==> NotStale(s, t, list))
    && (forall t: nat, list: nat :: list < |s.lists| && t < |s.queued| ==> Paid(s, t, list))
  }

  lemma {:induction false} TaggedCounts(list: nat, handles: seq<nat>, x: (nat, nat))
    ensures Tagged(list, handles)[x] == if x.0 == list then Occurs(x.1, handles) else 0
  {
    if handles != [] {
      TaggedCounts(list, handles[1..], x);
      OccursHead(x.1, handles);
    }
  }

  lemma PushConserves(s: State, t: nat, list: nat)
    requires Conserved(s) && Enabled(s, Push(t, list))
    ensures Conserved(Next(s, Push(t, list)))
  {
    var s' := Next(s, Push(t, list));
    forall u: nat | u < |s.queued| ensures OnePermit(s', u) {
      assert OnePermit(s, u);
      SumUpdate(Handles(u), s.lists, list, s'.lists[list]);
      OccursAppend(u, s.lists[list], [t]);
    }
    forall u: nat, l: nat | l < |s.lists| ensures NotStale(s', u, l) {
      assert NotStale(s, u, l);
    }
    forall u: nat, l: nat | l < |s.lists| && u < |s.queued| ensures Paid(s', u, l) {
      assert Paid(s, u, l) && NotStale(s, u, l);
    }
  }

  /** No thread is on a list twice, so a removal takes all of its entries or none. */
  lemma OnceListed(s: State, t: nat, list: nat)
    requires Conserved(s) && t < |s.queued| && list < |s.lists|
    ensures Occurs(t, s.lists[list]) <= 1
  {
    assert OnePermit(s, t);
    SumAtLeast(Handles(t), s.lists, list);
  }

  lemma RemovePays(s: State, t: nat, list: nat, keep: nat, u: nat, l: nat)
    requires Conserved(s) && t < |s.hands| && list < |s.lists| && keep <= |s.lists[list]|
    requires u < |s.queued| && l < |s.lists|
    ensures Paid(Remove(s, t, list, keep), u, l)
  {
    var kept, gone := s.lists[list][..keep], s.lists[list][keep..];
    assert s.lists[list] == kept + gone;
    assert Paid(s, u, l) && NotStale(s, u, l);
    TaggedCounts(list, gone, (l, u));
    OccursAppend(u, kept, gone);
    OnceListed(s, u, list);
  }

  lemma RemoveConserves(s: State, t: nat, list: nat, keep: nat)
    requires Conserved(s) && t < |s.hands| && s.hands[t] == [] && list < |s.lists| && keep <= |s.lists[list]|
    ensures Conserved(Remove(s, t, list, keep))
  {
    var s' := Remove(s, t, list, keep);
    var kept, gone := s.lists[list][..keep], s.lists[list][keep..];
    assert s.lists[list] == kept + gone;
    forall u: nat | u < |s.queued| ensures OnePermit(s', u) {
      assert OnePermit(s, u);
      SumUpdate(Handles(u), s.lists, list, kept);
      SumUpdate(Handles(u), s.hands, t, gone);
      OccursAppend(u, kept, gone);
    }
    forall u: nat, l: nat | l < |s.lists| ensures NotStale(s', u, l) {
      assert NotStale(s, u, l);
    }
    forall u: nat, l: nat | l < |s.lists| && u < |s.queued| ensures Paid(s', u, l) {
      RemovePays(s, t, list, keep, u, l);
    }
  }

  /** Unpark never meets a token that is already set. */
  lemma UnparkConserves(s: State, t: nat)
    requires Conserved(s) && Enabled(s, Unpark(t))
    ensures Conserved(Next(s, Unpark(t)))
  {
    var s' := Next(s, Unpark(t));
    forall u: nat | u < |s.queued| ensures OnePermit(s', u) {
      assert OnePermit(s, u);
      SumUpdate(Handles(u), s.hands, t, s'.hands[t]);
      SumAtLeast(Handles(u), s.hands, t);
      OccursHead(u, s.hands[t]);
    }
    forall u: nat, l: nat | l < |s.lists| ensures NotStale(s', u, l) {
      assert NotStale(s, u, l);
    }
    forall u: nat, l: nat | l < |s.lists| && u < |s.queued| ensures Paid(s', u, l) {
      assert Paid(s, u, l);
    }
  }

  /** When park returns, the token was the thread's only permit: nothing of it is left anywhere. */
  lemma ReturnConserves(s: State, t: nat)
    requires Conserved(s) && Enabled(s, ParkReturns(t))
    ensures Conserved(Next(s, ParkReturns(t)))
  {
    var s' := Next(s, ParkReturns(t));
    assert OnePermit(s, t);
    forall l: nat | l < |s.lists| ensures t !in s.lists[l] {
      SumAtLeast(Handles(t), s.lists, l);
      OccursIn(t, s.lists[l]);
    }
    forall u: nat | u < |s.queued| ensures OnePermit(s', u) {
      assert OnePermit(s, u);
    }
    forall u: nat, l: nat | l < |s.lists| ensures NotStale(s', u, l) {
      assert NotStale(s, u, l);
    }
    forall u: nat, l: nat | l < |s.lists| && u < |s.queued| ensures Paid(s', u, l) {
      assert Paid(s, u, l);
    }
  }

  lemma ConservedNext(s: State, a: Action)
    requires Conserved(s) && Enabled(s, a)
    ensures Conserved(Next(s, a))
  {
    match a
    case Push(t, list) => PushConserves(s, t, list);
    case Take(t, list) => RemoveConserves(s, t, list, 0);
    case Pop(t, list) => RemoveConserves(s, t, list, |s.lists[list]| - 1);
    case Unpark(t) => UnparkConserves(s, t);
    case ParkReturns(t) => ReturnConserves(s, t);
  }

  lemma {:induction false} RunConserves(s: State, schedule: seq<Action>)
    requires Conserved(s) && Run(s, schedule).Some?
    ensures Conserved(Run(s, schedule).value)
    decreases |schedule|
  {
    if schedule != [] {
      ConservedNext(s, schedule[0]);
      RunConserves(Next(s, schedule[0]), schedule[1..]);
    }
  }

  lemma InitConserved(threads: nat, lists: nat)
    ensures Conserved(Init(threads, lists))
  {
    var s := Init(threads, lists);
    forall t: nat ensures Sum(Handles(t), s.lists) == 0 && Sum(Handles(t), s.hands) == 0 {
      SumZero(Handles(t), s.lists);
      SumZero(Handles(t), s.hands);
    }
  }

  /** In every run of any number of threads over any number of primitives: a thread has exactly one
      permit from its push to the return of park and none otherwise, so no entry is stale and none
      is duplicated; and for every list, every return of a wait on it is paid for by exactly one
      removal of the thread's entry from that very list. */
  lemma PermitsAreConserved(threads: nat, lists: nat, schedule: seq<Action>)
    requires Run(Init(threads, lists), schedule).Some?
    ensures var s := Run(Init(threads, lists), schedule).value;
      && (forall t: nat :: t < |s.queued| ==> OnePermit(s, t))
      && (forall t: nat, list: nat :: list < |s.lists| ==> NotStale(s, t, list))
      && (forall t: nat, list: nat :: list < |s.lists| && t < |s.queued| ==> Paid(s, t, list))
  {
    InitConserved(threads, lists);
    RunConserves(Init(threads, lists), schedule);
  }

  // ---- notify_one releases at most one wait per call ----

  /** How many of the records are for list `list` and one of the first n threads. */
  function Total(records: multiset<(nat, nat)>, list: nat, n: nat): nat {
    if n == 0 then 0 else Total(records, list, n - 1) + records[(list, n - 1)]
  }

  function Pops(schedule: seq<Action>, list: nat): nat {
    if schedule == [] then 0
    else Bit(schedule[0].Pop? && schedule[0].list == list) + Pops(schedule[1..], list)
  }

  lemma {:induction false} TotalAtMost(a: multiset<(nat, nat)>, b: multiset<(nat, nat)>, list: nat, n: nat)
    requires forall t: nat :: t < n ==> a[(list, t)] <= b[(list, t)]
    ensures Total(a, list, n) <= Total(b, list, n)
  {
    if n > 0 { TotalAtMost(a, b, list, n - 1); }
  }

  lemma {:induction false} TotalPlusOne(a: multiset<(nat, nat)>, b: multiset<(nat, nat)>, list: nat, n: nat, who: nat)
    requires forall t: nat :: t < n ==> b[(list, t)] <= a[(list, t)] + Bit(t == who)
    ensures Total(b, list, n) <= Total(a, list, n) + Bit(who < n)
  {
    if n > 0 { TotalPlusOne(a, b, list, n - 1, who); }
  }

  lemma RemovalsGrow(s: State, a: Action, list: nat, n: nat)
    requires Conserved(s) && Enabled(s, a) && !(a.Take? && a.list == list)
    ensures Total(Next(s, a).removed, list, n) <= Total(s.removed, list, n) + Bit(a.Pop? && a.list == list)
  {
    var s' := Next(s, a);
    if a.Pop? && a.list == list {
      var gone := s.lists[list][|s.lists[list]| - 1..];
      forall t: nat | t < n ensures s'.removed[(list, t)] <= s.removed[(list, t)] + Bit(t == gone[0]) {
        TaggedCounts(list, gone, (list, t));
        OccursHead(t, gone);
      }
      TotalPlusOne(s.removed, s'.removed, list, n, gone[0]);
    } else {
      forall t: nat | t < n ensures s'.removed[(list, t)] <= s.removed[(list, t)] {
        if a.Take? { TaggedCounts(a.list, s.lists[a.list][0..], (list, t)); }
        if a.Pop? { TaggedCounts(a.list, s.lists[a.list][|s.lists[a.list]| - 1..], (list, t)); }
      }
      TotalAtMost(s'.removed, s.removed, list, n);
    }
  }

  lemma {:induction false} RunRemovals(s: State, schedule: seq<Action>, list: nat, n: nat)
    requires Conserved(s) && Run(s, schedule).Some?
    requires forall a :: a in schedule ==> !(a.Take? && a.list == list)
    ensures Total(Run(s, schedule).value.removed, list, n) <= Total(s.removed, list, n) + Pops(schedule, list)
    decreases |schedule|
  {
    if schedule != [] {
      assert schedule[0] in schedule;
      ConservedNext(s, schedule[0]);
      RemovalsGrow(s, schedule[0], list, n);
      RunRemovals(Next(s, schedule[0]), schedule[1..], list, n);
    }
  }

  lemma {:induction false} TotalOfNone(list: nat, n: nat)
    ensures Total(multiset{}, list, n) == 0
  {
    if n > 0 { TotalOfNone(list, n - 1); }
  }

  /** On a condition variable that is only notified by notify_one, the waits that have returned are
      no more than the entries its calls popped: k calls release at most k waits. */
  lemma NotifyOneReleasesAtMostOne(threads: nat, lists: nat, schedule: seq<Action>, list: nat)
    requires list < lists && Run(Init(threads, lists), schedule).Some?
    requires forall a :: a in schedule ==> !(a.Take? && a.list == list)
    ensures Total(Run(Init(threads, lists), schedule).value.returned, list, threads) <= Pops(schedule, list)
  {
    InitConserved(threads, lists);
    RunConserves(Init(threads, lists), schedule);
    RunRemovals(Init(threads, lists), schedule, list, threads);
    RunSizes(Init(threads, lists), schedule);
    TotalOfNone(list, threads);
    var s := Run(Init(threads, lists), schedule).value;
    forall t: nat | t < threads ensures s.returned[(list, t)] <= s.removed[(list, t)] {
      assert Paid(s, t, list);
    }
    TotalAtMost(s.returned, s.removed, list, threads);
  }

  lemma {:induction false} RunSizes(s: State, schedule: seq<Action>)
    requires Run(s, schedule).Some?
    ensures |Run(s, schedule).value.queued| == |s.queued| && |Run(s, schedule).value.lists| == |s.lists|
    decreases |schedule|
  {
    if schedule != [] { RunSizes(Next(s, schedule[0]), schedule[1..]); }
  }
}
