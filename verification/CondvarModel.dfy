/** The condition variable as a system of interleaved atomic steps.

    Each with_mut on a waiting list is one step: besides that list its closure touches at most the
    counter of ids or the wait's own continuation.  The user's mutex is the atomic lock that
    MutexHistory shows it to be; park tokens that its own wake-ups set or its own parks consume
    appear as StrayToken and StrayPark.
 */
module CondvarModel {
  import opened Parking
  import opened Sums

  /** The three waiting lists, in the order in which a notifier visits them. */
  const SPIN: nat := 0
  const SYNC: nat := 1
  const ASYNC: nat := 2

  /** An entry of a waiting list: the thread's handle, or the wait's own flag or continuation.
      `wait` numbers the wait the entry was pushed for; the code only ever compares keys. */
  datatype Waiter = Waiter(key: Key, wait: nat)

  datatype Pc =
    | Idle
    | Locked                                                   // holds the mutex's guard
    // wait_spin, wait_block, wait_async and their timed forms; `checked` if the caller saw its
    // predicate unset under this guard
    | Register(list: nat, timed: bool, checked: bool)          // about to push
    | Listed(list: nat, me: Waiter, timed: bool, checked: bool)  // pushed, about to drop the guard
    | Asleep(list: nat, me: Waiter, timed: bool, checked: bool)  // parked, spinning or awaiting
    | Missed(list: nat, me: Waiter, checked: bool)             // not yet woken, about to read the clock
    | Check(me: Waiter, checked: bool)                         // park_timeout returned: still listed?
    | Expired(list: nat, me: Waiter, checked: bool)            // deadline passed, about to remove itself
    | Drain(me: Waiter)                                        // popped: spins until the flag is set
    | Relock(list: nat, me: Waiter, timedOut: bool)            // about to re-acquire the mutex
    // notify_one, notify_all; `after` if called after the predicate was set, `back` if under the guard
    | Notify(list: nat, all: bool, after: bool, back: bool)    // about to pop from, or take, the list
    | Deliver(list: nat, batch: seq<Waiter>, all: bool, after: bool, back: bool)

  /** What happened so far; no step reads it.
      kinds, owners: the list and the thread of every wait, by its number
      popped:        the waits whose entry a notifier removed
      left:          the waits whose entry the waiter itself removed
      outcomes:      the waits that returned, with their timed_out()
      swept:         the lists taken by a notify_all called after the predicate was set
      ones, onePops, allPops: calls of notify_one, entries they popped, entries notify_all took */
  datatype History = History(
    kinds: seq<nat>,
    owners: seq<nat>,
    popped: set<nat>,
    left: set<nat>,
    outcomes: map<nat, bool>,
    swept: seq<bool>,
    ones: nat,
    onePops: nat,
    allPops: nat)

  datatype State = State(
    holder: Option<nat>,
    predicateSet: bool,
    lists: seq<seq<Waiter>>,
    ready: set<Key>,
    pcs: seq<Pc>,
    h: History)

  datatype Action =
    | Lock(t: nat)
    | Unlock(t: nat)
    | SetPredicate(t: nat)
    | CallWait(t: nat, list: nat, timed: bool, checked: bool)
    | CallNotify(t: nat, all: bool)
    | Step(t: nat)
    | Spurious(t: nat)                // park returns without a token
    | Expire(t: nat)                  // the clock has reached t's deadline
    | StrayToken(t: nat)              // somebody else unparks t
    | StrayPark(t: nat)               // t parks elsewhere and consumes its token

  function Init(threads: nat): State {
    State(None, false, [[], [], []], {}, seq(threads, _ => Idle),
          History([], [], {}, {}, map[], [false, false, false], 0, 0, 0))
  }

  predicate Shape(s: State) {
    |s.lists| == 3 && |s.h.swept| == 3 && |s.h.kinds| == |s.h.owners|
  }

  predicate InRange(p: Pc) {
    match p
    case Register(i, _, _) => i < 3
    case Listed(i, _, _, _) => i < 3
    case Asleep(i, _, _, _) => i < 3
    case Missed(i, _, _) => i < 3
    case Expired(i, _, _) => i < 3
    case Notify(i, _, _, _) => i < 3
    case Deliver(i, _, _, _, _) => i < 3
    case _ => true
  }

  predicate WellFormed(s: State) {
    Shape(s) && forall t :: 0 <= t < |s.pcs| ==> InRange(s.pcs[t])
  }

  predicate CanStep(s: State, t: nat)
    requires WellFormed(s) && t < |s.pcs|
  {
    match s.pcs[t]
    case Idle => false
    case Locked => false
    case Asleep(i, me, timed, _) => me.key in s.ready || (timed && i != SYNC)
    case Drain(me) => me.key in s.ready
    case Relock(_, _, _) => s.holder == None
    case _ => true
  }

  /** Between its registration and the end of its wait the thread parks nowhere else. */
  predicate Waiting(p: Pc) {
    p.Listed? || p.Asleep? || p.Missed? || p.Check? || p.Expired? || p.Drain?
  }

  predicate Enabled(s: State, a: Action)
    requires WellFormed(s)
  {
    a.t < |s.pcs| &&
    match a
    case Lock(t) => s.pcs[t].Idle? && s.holder == None
    case Unlock(t) => s.pcs[t].Locked?
    case SetPredicate(t) => s.pcs[t].Locked?
    case CallWait(t, list, _, checked) => s.pcs[t].Locked? && list < 3 && (checked ==> !s.predicateSet)
    case CallNotify(t, _) => s.pcs[t].Idle? || s.pcs[t].Locked?
    case Step(t) => CanStep(s, t)
    case Spurious(t) => s.pcs[t].Asleep? && s.pcs[t].list == SYNC
    case Expire(t) => s.pcs[t].Missed? || (s.pcs[t].Asleep? && s.pcs[t].list == SYNC && s.pcs[t].timed)
    case StrayToken(t) => true
    case StrayPark(t) => !Waiting(s.pcs[t])
  }

  function Goto(s: State, t: nat, p: Pc): State
    requires t < |s.pcs|
  {
    s.(pcs := s.pcs[t := p])
  }

  predicate OnList(k: Key, list: seq<Waiter>) {
    exists i :: 0 <= i < |list| && list[i].key == k
  }

  /** The first entry with the key, as `iter().position` finds it. */
  function Position(k: Key, list: seq<Waiter>): (i: nat)
    requires OnList(k, list)
    ensures i < |list| && list[i].key == k
    ensures forall j :: 0 <= j < i ==> list[j].key != k
  {
    if list[0].key == k then 0 else Position(k, list[1..]) + 1
  }

  function Push(s: State, t: nat, i: nat, timed: bool, checked: bool): State
    requires Shape(s) && t < |s.pcs| && i < 3
  {
    var w := |s.h.kinds|;
    var me := Waiter(if i == SYNC then Handle(t) else Cont(w), w);
    Goto(s.(lists := s.lists[i := s.lists[i] + [me]],
            h := s.h.(kinds := s.h.kinds + [i], owners := s.h.owners + [t])), t, Listed(i, me, timed, checked))
  }

  /** The wait notices its wake-up; a flag or a continuation that is still unset sends a timed
      wait to look at the clock. */
  function Wake(s: State, t: nat, i: nat, me: Waiter, timed: bool, checked: bool): State
    requires t < |s.pcs|
  {
    if i == SYNC then
      Goto(s.(ready := s.ready - {me.key}), t, if timed then Check(me, checked) else Relock(i, me, false))
    else if me.key in s.ready then Goto(s, t, Relock(i, me, false))
    else Goto(s, t, Missed(i, me, checked))
  }

  function CheckList(s: State, t: nat, me: Waiter, checked: bool): State
    requires Shape(s) && t < |s.pcs|
  {
    Goto(s, t, if OnList(me.key, s.lists[SYNC]) then Asleep(SYNC, me, true, checked) else Relock(SYNC, me, false))
  }

  /** The deadline passed: leave the list, or find oneself popped already. */
  function Leave(s: State, t: nat, i: nat, me: Waiter): State
    requires Shape(s) && t < |s.pcs| && i < 3
  {
    if OnList(me.key, s.lists[i]) then
      var at := Position(me.key, s.lists[i]);
      Goto(s.(lists := s.lists[i := s.lists[i][..at] + s.lists[i][at + 1..]],
              ready := if i == ASYNC then s.ready + {me.key} else s.ready,
              h := s.h.(left := s.h.left + {s.lists[i][at].wait})), t, Relock(i, me, true))
    else if i == SPIN then Goto(s, t, Drain(me))
    else Goto(s, t, Relock(i, me, i == ASYNC))
  }

  function Return(s: State, t: nat, me: Waiter, timedOut: bool): State
    requires t < |s.pcs|
  {
    Goto(s.(holder := Some(t), h := s.h.(outcomes := s.h.outcomes[me.wait := timedOut])), t, Locked)
  }

  function Waits(list: seq<Waiter>): set<nat> {
    set e | e in list :: e.wait
  }

  function Done(back: bool): Pc { if back then Locked else Idle }

  /** notify_all takes the whole list. */
  function TakeAll(s: State, t: nat, i: nat, after: bool, back: bool): State
    requires Shape(s) && t < |s.pcs| && i < 3
  {
    Goto(s.(lists := s.lists[i := []],
            h := s.h.(popped := s.h.popped + Waits(s.lists[i]),
                      swept := if after then s.h.swept[i := true] else s.h.swept,
                      allPops := s.h.allPops + |s.lists[i]|)),
         t, Deliver(i, s.lists[i], true, after, back))
  }

  /** notify_one pops the newest entry, or goes on to the next list. */
  function PopOne(s: State, t: nat, i: nat, after: bool, back: bool): State
    requires Shape(s) && t < |s.pcs| && i < 3
  {
    if s.lists[i] == [] then
      Goto(s, t, if i < ASYNC then Notify(i + 1, false, after, back) else Done(back))
    else
      var last := |s.lists[i]| - 1;
      Goto(s.(lists := s.lists[i := s.lists[i][..last]],
              h := s.h.(popped := s.h.popped + {s.lists[i][last].wait}, onePops := s.h.onePops + 1)),
           t, Deliver(i, [s.lists[i][last]], false, after, back))
  }

  /** Store the flag, unpark, or send; at the end of a batch notify_all goes on to the next list. */
  function DeliverNext(s: State, t: nat, i: nat, batch: seq<Waiter>, all: bool, after: bool, back: bool): State
    requires t < |s.pcs|
  {
    if batch != [] then Goto(s.(ready := s.ready + {batch[0].key}), t, Deliver(i, batch[1..], all, after, back))
    else Goto(s, t, if all && i < ASYNC then Notify(i + 1, true, after, back) else Done(back))
  }

  function StepOf(s: State, t: nat): State
    requires WellFormed(s) && t < |s.pcs| && CanStep(s, t)
  {
    match s.pcs[t]
    case Register(i, timed, checked) => Push(s, t, i, timed, checked)
    case Listed(i, me, timed, checked) => Goto(s.(holder := None), t, Asleep(i, me, timed, checked))
    case Asleep(i, me, timed, checked) => Wake(s, t, i, me, timed, checked)
    case Missed(i, me, checked) => Goto(s, t, Asleep(i, me, true, checked))
    case Check(me, checked) => CheckList(s, t, me, checked)
    case Expired(i, me, _) => Leave(s, t, i, me)
    case Drain(me) => Goto(s, t, Relock(SPIN, me, false))
    case Relock(_, me, timedOut) => Return(s, t, me, timedOut)
    case Notify(i, all, after, back) => if all then TakeAll(s, t, i, after, back) else PopOne(s, t, i, after, back)
    case Deliver(i, batch, all, after, back) => DeliverNext(s, t, i, batch, all, after, back)
    case _ => s
  }

  function Next(s: State, a: Action): State
    requires WellFormed(s) && Enabled(s, a)
  {
    match a
    case Lock(t) => Goto(s.(holder := Some(t)), t, Locked)
    case Unlock(t) => Goto(s.(holder := None), t, Idle)
    case SetPredicate(t) => s.(predicateSet := true)
    case CallWait(t, list, timed, checked) => Goto(s, t, Register(list, timed, checked))
    case CallNotify(t, all) =>
      Goto(if all then s else s.(h := s.h.(ones := s.h.ones + 1)),
           t, Notify(SPIN, all, s.predicateSet, s.pcs[t].Locked?))
    case Step(t) => StepOf(s, t)
    case Spurious(t) =>
      var p := s.pcs[t];
      Goto(s, t, if p.timed then Check(p.me, p.checked) else Relock(SYNC, p.me, false))
    case Expire(t) => Goto(s, t, Expired(s.pcs[t].list, s.pcs[t].me, s.pcs[t].checked))
    case StrayToken(t) => s.(ready := s.ready + {Handle(t)})
    case StrayPark(t) => s.(ready := s.ready - {Handle(t)})
  }

  /** Action a is possible in s and leads to s'. */
  ghost predicate Leads(s: State, a: Action, s': State) {
    WellFormed(s) && Enabled(s, a) && s' == Next(s, a)
  }

  function Run(s: State, schedule: seq<Action>): Option<State>
    decreases |schedule|
  {
    if schedule == [] then Some(s)
    else if WellFormed(s) && Enabled(s, schedule[0]) then Run(Next(s, schedule[0]), schedule[1..])
    else None
  }
}
