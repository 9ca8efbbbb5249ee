/** The reader-writer lock as a system of interleaved atomic steps. */
module RwLockModel {
  import opened Parking
  import opened Sums

  const UNLOCKED: nat := 0
  const LOCKED_WRITE: nat := 128

  /** The four waiting lists, in the order in which did_unlock_write visits them; did_unlock_read
      visits the last two. */
  const SYNC_READ: nat := 0
  const ASYNC_READ: nat := 1
  const SYNC_WRITE: nat := 2
  const ASYNC_WRITE: nat := 3

  predicate ForWriters(list: nat) { list >= SYNC_WRITE }

  predicate ForThreads(list: nat) { list == SYNC_READ || list == SYNC_WRITE }

  /** `Panicked.list` when try_lock_read panicked outside any with_mut. */
  const NOWHERE: nat := 4

  datatype Pc =
    | Idle
    // lock_block_read, lock_block_write, lock_async_read, lock_async_write
    | Start(list: nat)                    // about to swap the list's spinlock
    | Try(list: nat)                      // inside with_mut, about to try
    | Got(list: nat)                      // inside with_mut with the guard
    | Push(list: nat)                     // the attempt failed
    | Listed(list: nat, key: Key)         // pushed, still inside with_mut
    | Asleep(list: nat, key: Key)         // parked, or awaiting the continuation
    // lock_spin_read, lock_spin_write
    | Spin(writer: bool)
    // a ReadGuard or WriteGuard is live
    | Hold(writer: bool)
    // did_unlock_write, did_unlock_read
    | Visit(list: nat)
    | Taking(list: nat)
    | Taken(list: nat, batch: seq<Key>)
    | Waking(list: nat, batch: seq<Key>)
    // the panics of the source; a panic inside with_mut leaves the list's spinlock set
    | Panicked(list: nat)                 // "Too many readers"
    | AssertFailed                        // assert!(r > 0), assert!(old == LOCKED_WRITE)

  /** One acquisition of the lock, of either kind. */
  datatype Acquisition = Acquisition(t: nat, writer: bool)

  /** `acquired` only records the history: who acquired the lock, in order.  No step reads it. */
  datatype State = State(
    word: nat,
    locks: seq<bool>,
    lists: seq<seq<Key>>,
    ready: set<Key>,
    conts: nat,
    pcs: seq<Pc>,
    acquired: seq<Acquisition>)

  datatype Action =
    | CallLock(t: nat, list: nat)
    | CallSpin(t: nat, writer: bool)
    | CallTry(t: nat, writer: bool)       // try_lock_read, try_lock_write
    | Step(t: nat)
    | Spurious(t: nat)
    | Drop(t: nat)
    | StrayToken(t: nat)                  // another primitive unparks t
    | StrayPark(t: nat)                   // t parks elsewhere and consumes its token

  function Init(threads: nat): State {
    State(UNLOCKED, [false, false, false, false], [[], [], [], []], {}, 0, seq(threads, _ => Idle), [])
  }

  predicate Shape(s: State) {
    |s.locks| == 4 && |s.lists| == 4 && s.word < 256
  }

  predicate InRange(p: Pc) {
    match p
    case Start(i) => i < 4
    case Try(i) => i < 4
    case Got(i) => i < 4
    case Push(i) => i < 4
    case Listed(i, _) => i < 4
    case Asleep(i, _) => i < 4
    case Visit(i) => i < 4
    case Taking(i) => i < 4
    case Taken(i, _) => i < 4
    case Waking(i, _) => i < 4
    case _ => true
  }

  predicate WellFormed(s: State) {
    Shape(s) && forall t :: 0 <= t < |s.pcs| ==> InRange(s.pcs[t])
  }

  predicate CanStep(s: State, t: nat)
    requires WellFormed(s) && t < |s.pcs|
  {
    match s.pcs[t]
    case Idle => false
    case Start(i) => !s.locks[i]
    case Visit(i) => !s.locks[i]
    case Asleep(_, k) => k in s.ready
    case Hold(_) => false
    case Panicked(_) => false
    case AssertFailed => false
    case _ => true
  }

  /** The thread has pushed its handle and not yet returned from park. */
  predicate Parks(p: Pc) { (p.Listed? || p.Asleep?) && ForThreads(p.list) }

  predicate Enabled(s: State, a: Action)
    requires WellFormed(s)
  {
    a.t < |s.pcs| &&
    match a
    case CallLock(t, list) => s.pcs[t].Idle? && list < 4
    case CallSpin(t, _) => s.pcs[t].Idle?
    case CallTry(t, _) => s.pcs[t].Idle?
    case Step(t) => CanStep(s, t)
    case Spurious(t) => s.pcs[t].Asleep? && ForThreads(s.pcs[t].list)
    case Drop(t) => s.pcs[t].Hold?
    case StrayToken(t) => true
    case StrayPark(t) => !Parks(s.pcs[t])
  }

  function Goto(s: State, t: nat, p: Pc): State
    requires t < |s.pcs|
  {
    s.(pcs := s.pcs[t := p])
  }

  /** Bit 7 of the lock word. */
  predicate WriterBit(word: nat) { (word / 128) % 2 == 1 }

  /** What fetch_update's closure makes of the word. */
  datatype Update = Refuse | TooMany | Put(word: nat)

  function ReaderUpdate(f: nat): Update {
    if WriterBit(f) then Refuse
    else if f == LOCKED_WRITE - 1 then TooMany
    else Put(f + 1)
  }

  /** A successful attempt. */
  function Counted(s: State, word: nat, t: nat, writer: bool): State {
    s.(word := word, acquired := s.acquired + [Acquisition(t, writer)])
  }

  /** try_lock_read and try_lock_write. */
  function Acquire(s: State, t: nat, writer: bool, inside: nat, won: Pc, lost: Pc): State
    requires t < |s.pcs|
  {
    if writer then
      if s.word == UNLOCKED then Goto(Counted(s, LOCKED_WRITE, t, writer), t, won) else Goto(s, t, lost)
    else
      match ReaderUpdate(s.word)
      case Refuse => Goto(s, t, lost)
      case TooMany => Goto(s, t, Panicked(inside))
      case Put(word) => Goto(Counted(s, word, t, writer), t, won)
  }

  function LockList(s: State, t: nat, i: nat, p: Pc): State
    requires Shape(s) && t < |s.pcs| && i < 4
  {
    Goto(s.(locks := s.locks[i := true]), t, p)
  }

  function UnlockList(s: State, t: nat, i: nat, p: Pc): State
    requires Shape(s) && t < |s.pcs| && i < 4
  {
    Goto(s.(locks := s.locks[i := false]), t, p)
  }

  function PushSelf(s: State, t: nat, i: nat): State
    requires Shape(s) && t < |s.pcs| && i < 4
  {
    var key := if ForThreads(i) then Handle(t) else Cont(s.conts);
    Goto(s.(lists := s.lists[i := s.lists[i] + [key]],
            conts := if ForThreads(i) then s.conts else s.conts + 1), t, Listed(i, key))
  }

  function Resume(s: State, t: nat, i: nat, key: Key): State
    requires t < |s.pcs|
  {
    Goto(s.(ready := if key.Handle? then s.ready - {key} else s.ready), t, Start(i))
  }

  function TakeList(s: State, t: nat, i: nat): State
    requires Shape(s) && t < |s.pcs| && i < 4
  {
    Goto(s.(lists := s.lists[i := []]), t, Taken(i, s.lists[i]))
  }

  function WakeNext(s: State, t: nat, i: nat, batch: seq<Key>): State
    requires t < |s.pcs|
  {
    if batch != [] then Goto(s.(ready := s.ready + {batch[0]}), t, Waking(i, batch[1..]))
    else Goto(s, t, if i < ASYNC_WRITE then Visit(i + 1) else Idle)
  }

  function StepOf(s: State, t: nat): State
    requires WellFormed(s) && t < |s.pcs| && CanStep(s, t)
  {
    match s.pcs[t]
    case Start(i) => LockList(s, t, i, Try(i))
    case Try(i) => Acquire(s, t, ForWriters(i), i, Got(i), Push(i))
    case Got(i) => UnlockList(s, t, i, Hold(ForWriters(i)))
    case Push(i) => PushSelf(s, t, i)
    case Listed(i, key) => UnlockList(s, t, i, Asleep(i, key))
    case Asleep(i, key) => Resume(s, t, i, key)
    case Spin(writer) => Acquire(s, t, writer, NOWHERE, Hold(writer), Spin(writer))
    case Visit(i) => LockList(s, t, i, Taking(i))
    case Taking(i) => TakeList(s, t, i)
    case Taken(i, batch) => UnlockList(s, t, i, Waking(i, batch))
    case Waking(i, batch) => WakeNext(s, t, i, batch)
    case _ => s
  }

  /** ReadGuard::drop is a wrapping fetch_sub, WriteGuard::drop a swap; both assert on what was there. */
  function Release(s: State, t: nat, writer: bool): State
    requires t < |s.pcs|
  {
    if writer then
      Goto(s.(word := UNLOCKED), t, if s.word == LOCKED_WRITE then Visit(SYNC_READ) else AssertFailed)
    else
      Goto(s.(word := (s.word + 255) % 256), t, if s.word > 0 then Visit(SYNC_WRITE) else AssertFailed)
  }

  function Next(s: State, a: Action): State
    requires WellFormed(s) && Enabled(s, a)
  {
    match a
    case CallLock(t, list) => Goto(s, t, Start(list))
    case CallSpin(t, writer) => Goto(s, t, Spin(writer))
    case CallTry(t, writer) => Acquire(s, t, writer, NOWHERE, Hold(writer), Idle)
    case Step(t) => StepOf(s, t)
    case Spurious(t) => Goto(s, t, Start(s.pcs[t].list))
    case Drop(t) => Release(s, t, s.pcs[t].writer)
    case StrayToken(t) => s.(ready := s.ready + {Handle(t)})
    case StrayPark(t) => s.(ready := s.ready - {Handle(t)})
  }

  /** Action a is possible in s and leads to s'. */
  ghost predicate Leads(s: State, a: Action, s': State) {
    WellFormed(s) && Enabled(s, a) && s' == Next(s, a)
  }

  function Run(s: State, schedule: seq<Action>): Option<State>
    decreases |schedule|
  {
    if schedule == [] then Some(s)
    else if WellFormed(s) && Enabled(s, schedule[0]) then Run(Next(s, schedule[0]), schedule[1..])
    else None
  }
}
