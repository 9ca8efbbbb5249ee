/** The channel as a system of interleaved atomic steps: any number of threads and tasks using any
    number of Senders, and one Receiver that is always used from the same thread.

    The queue's mutex is the atomic lock that MutexHistory shows it to be; park tokens set or
    consumed by it appear as StrayToken and StrayPark.  Each with_mut on one of the condition
    variable's lists is one step.
 */
module ChannelModel {
  import opened Parking
  import opened Sums

  type Value(!new)

  /** The condition variable's lists, in the order in which a notifier visits them. */
  const SPIN: nat := 0
  const SYNC: nat := 1
  const ASYNC: nat := 2

  /** The handle of the receiver's thread. */
  const RX_THREAD: Key := Handle(0)

  const USIZE_MAX: nat := 0xFFFF_FFFF_FFFF_FFFF

  datatype Agent = Rx | Tx(i: nat)

  /** Where the receiver is; `list` is how the recv variant waits. */
  datatype RxPc =
    | RIdle
    | RLock(list: nat, timed: bool)                  // acquiring the queue's mutex
    | RPop(list: nat, timed: bool, trying: bool)     // holding it, about to pop_front
    | RGot(value: Value)                             // popped; about to drop the guard and return
    | RCount(list: nat, timed: bool, trying: bool)   // queue empty; about to load sender_count
    | RFail(disconnected: bool)                      // about to drop the guard and return an error
    | RRegister(list: nat, timed: bool)              // about to register with the condition variable
    | RListed(list: nat, key: Key, timed: bool)      // registered, about to drop the guard
    | RAsleep(list: nat, key: Key, timed: bool)
    | RCheck(key: Key)                               // park_timeout returned: still listed?
    | RDrain(key: Key)                               // popped at the deadline: awaits the flag
    | RRelock(list: nat, timed: bool, timedOut: bool)
    | RNotifyAll(list: nat)                          // Receiver::drop
    | RWakeAll(list: nat, batch: seq<Key>)
    | RGone

  /** Where a user of Senders is; `h` is the Sender borrowed or dropped. */
  datatype TxPc =
    | TIdle
    | TCheck(h: nat, value: Value)                   // about to load receiver_active
    | TLock(h: nat, value: Value)                    // acquiring the queue's mutex
    | TRecheck(h: nat, value: Value)                 // holding it, about to load receiver_active
    | TAbort(h: nat, value: Value)                   // about to drop the guard and return Err
    | TPush(h: nat, value: Value)                    // about to push_back
    | TRelease(h: nat, value: Value)                 // pushed, about to drop the guard
    | TNotify(h: nat, value: Value, list: nat)       // notify_one, about to pop from the list
    | TWake(h: nat, value: Value, key: Key)          // popped, about to wake
    | TDropping(h: nat)                              // Sender::drop, about to fetch_sub
    | TNotifyAll(list: nat)                          // the last Sender: about to take the list
    | TWakeAll(list: nat, batch: seq<Key>)

  datatype Sent = Sent(author: nat, value: Value)

  /** What happened so far; no step reads it.
      pushed:       every push_back, in the order of the queue's mutex
      received:     every value returned by a recv variant or try_recv
      oks:          for each user, the values of its sends that returned Ok
      disconnected: some call has found the queue empty and sender_count 0
      missed:       the last Sender's notify_all took a list while the receiver was between its
                    load of sender_count and its registration on that list
      ahead:        how many notify_one calls had yet to look at the receiver's list when it
                    registered there for its present wait
      diverted:     how many of them, and of those begun since, popped an entry that left the
                    receiver's key on its list */
  datatype History = History(
    pushed: seq<Sent>,
    received: seq<Value>,
    oks: seq<seq<Value>>,
    disconnected: bool,
    missed: bool,
    ahead: nat,
    diverted: nat)

  datatype State = State(
    queue: seq<Value>,
    holder: Option<Agent>,
    senderCount: nat,
    receiverActive: bool,
    lists: seq<seq<Key>>,
    ready: set<Key>,
    nextKey: nat,
    senders: set<nat>,       // the Senders that exist and are not being dropped
    nextSender: nat,
    rx: RxPc,
    tx: seq<TxPc>,
    h: History)

  datatype Action =
    | CallSend(i: nat, sender: nat, value: Value)
    | CallClone(i: nat, sender: nat)
    | CallDrop(i: nat, sender: nat)
    | TxStep(i: nat)
    | CallRecv(list: nat, timed: bool)
    | CallTryRecv
    | CallDropReceiver
    | RxStep
    | RxSpurious                       // the receiver's park returns without a token
    | RxExpire                         // the clock has reached its deadline
    | StrayToken                       // somebody else unparks the receiver's thread
    | StrayPark                        // it parks elsewhere and consumes its token

  function Init(users: nat): State {
    State([], None, 1, true, [[], [], []], {}, 0, {0}, 1, RIdle, seq(users, _ => TIdle),
          History([], [], seq(users, _ => []), false, false, 0, 0))
  }

  /** The Sender a user has borrowed. */
  predicate Borrows(p: TxPc, sender: nat) {
    match p
    case TIdle => false
    case TDropping(_) => false
    case TNotifyAll(_) => false
    case TWakeAll(_, _) => false
    case _ => p.h == sender
  }

  predicate TxInRange(p: TxPc) {
    match p
    case TNotify(_, _, l) => l < 3
    case TNotifyAll(l) => l < 3
    case TWakeAll(l, _) => l < 3
    case _ => true
  }

  predicate RxInRange(p: RxPc) {
    match p
    case RLock(l, _) => l < 3
    case RPop(l, _, _) => l < 3
    case RCount(l, _, _) => l < 3
    case RRegister(l, _) => l < 3
    case RListed(l, _, _) => l < 3
    case RAsleep(l, _, _) => l < 3
    case RRelock(l, _, _) => l < 3
    case RNotifyAll(l) => l < 3
    case RWakeAll(l, _) => l < 3
    case _ => true
  }

  predicate WellFormed(s: State) {
    && |s.lists| == 3 && |s.h.oks| == |s.tx| && RxInRange(s.rx)
    && forall i :: 0 <= i < |s.tx| ==> TxInRange(s.tx[i])
  }

  predicate RxCanStep(s: State) {
    match s.rx
    case RIdle => false
    case RGone => false
    case RLock(_, _) => s.holder == None
    case RRelock(_, _, _) => s.holder == None
    case RAsleep(_, key, _) => key in s.ready
    case RDrain(key) => key in s.ready
    case _ => true
  }

  predicate TxCanStep(s: State, i: nat)
    requires i < |s.tx|
  {
    match s.tx[i]
    case TIdle => false
    case TLock(_, _) => s.holder == None
    case _ => true
  }

  /** Receiver::drop has begun. */
  predicate Dropped(p: RxPc) { p.RNotifyAll? || p.RWakeAll? || p.RGone? }

  /** The receiver is in a wait of the condition variable. */
  predicate Waits(p: RxPc) { p.RListed? || p.RAsleep? || p.RCheck? }

  /** The list it waits on. */
  function WaitList(p: RxPc): nat
    requires Waits(p)
  {
    if p.RCheck? then SYNC else p.list
  }

  /** This user has pushed a value and its notify_one has yet to look at the list. */
  function Coming(list: nat): TxPc -> nat {
    (p: TxPc) => Bit(p.TRelease? || (p.TNotify? && p.list <= list))
  }

  /** Between its registration and the end of its wait the receiver's thread parks nowhere else. */
  predicate Waiting(p: RxPc) { p.RListed? || p.RAsleep? || p.RCheck? || p.RDrain? }

  predicate Enabled(s: State, a: Action)
    requires WellFormed(s)
  {
    match a
    case CallSend(i, sender, _) => i < |s.tx| && s.tx[i].TIdle? && sender in s.senders
    case CallClone(i, sender) => i < |s.tx| && s.tx[i].TIdle? && sender in s.senders
    case CallDrop(i, sender) =>
      i < |s.tx| && s.tx[i].TIdle? && sender in s.senders
      && forall j :: 0 <= j < |s.tx| ==> !Borrows(s.tx[j], sender)
    case TxStep(i) => i < |s.tx| && TxCanStep(s, i)
    case CallRecv(list, _) => s.rx.RIdle? && list < 3
    case CallTryRecv => s.rx.RIdle?
    case CallDropReceiver => s.rx.RIdle?
    case RxStep => RxCanStep(s)
    case RxSpurious => s.rx.RAsleep? && s.rx.list == SYNC
    case RxExpire => (s.rx.RLock? || s.rx.RAsleep?) && s.rx.timed
    case StrayToken => true
    case StrayPark => !Waiting(s.rx)
  }

  // ---- the receiver ----

  function PopFront(s: State, list: nat, timed: bool, trying: bool): State {
    if s.queue == [] then s.(rx := RCount(list, timed, trying))
    else s.(queue := s.queue[1..], rx := RGot(s.queue[0]))
  }

  function LoadCount(s: State, list: nat, timed: bool, trying: bool): State {
    if s.senderCount == 0 then s.(rx := RFail(true), h := s.h.(disconnected := true))
    else s.(rx := if trying then RFail(false) else RRegister(list, timed))
  }

  function Register(s: State, list: nat, timed: bool): State
    requires |s.lists| == 3 && list < 3
  {
    var key := if list == SYNC then RX_THREAD else Cont(s.nextKey);
    s.(lists := s.lists[list := s.lists[list] + [key]],
       nextKey := if list == SYNC then s.nextKey else s.nextKey + 1,
       rx := RListed(list, key, timed),
       h := s.h.(ahead := Sum(Coming(list), s.tx), diverted := 0))
  }

  function WakeRx(s: State, list: nat, key: Key, timed: bool): State {
    if list == SYNC then
      s.(ready := s.ready - {key}, rx := if timed then RCheck(key) else RRelock(list, timed, false))
    else s.(rx := RRelock(list, timed, false))
  }

  function Position(k: Key, list: seq<Key>): (i: nat)
    requires k in list
    ensures i < |list| && list[i] == k
  {
    if list[0] == k then 0 else Position(k, list[1..]) + 1
  }

  /** The deadline of a timed wait. */
  function Leave(s: State, list: nat, key: Key): State
    requires |s.lists| == 3 && list < 3
  {
    if key in s.lists[list] then
      var at := Position(key, s.lists[list]);
      s.(lists := s.lists[list := s.lists[list][..at] + s.lists[list][at + 1..]],
         ready := if list == ASYNC then s.ready + {key} else s.ready,
         rx := RRelock(list, true, true))
    else if list == SPIN then s.(rx := RDrain(key))
    else s.(rx := RRelock(list, true, list == ASYNC))
  }

  function RxStepOf(s: State): State
    requires WellFormed(s) && RxCanStep(s)
  {
    match s.rx
    case RLock(list, timed) => s.(holder := Some(Rx), rx := RPop(list, timed, false))
    case RPop(list, timed, trying) => PopFront(s, list, timed, trying)
    case RGot(v) => s.(holder := None, rx := RIdle, h := s.h.(received := s.h.received + [v]))
    case RCount(list, timed, trying) => LoadCount(s, list, timed, trying)
    case RFail(_) => s.(holder := None, rx := RIdle)
    case RRegister(list, timed) => Register(s, list, timed)
    case RListed(list, key, timed) => s.(holder := None, rx := RAsleep(list, key, timed))
    case RAsleep(list, key, timed) => WakeRx(s, list, key, timed)
    case RCheck(key) => s.(rx := if key in s.lists[SYNC] then RAsleep(SYNC, key, true) else RRelock(SYNC, true, false))
    case RDrain(_) => s.(rx := RRelock(SPIN, true, false))
    case RRelock(list, timed, timedOut) =>
      s.(holder := Some(Rx), rx := if timedOut then RFail(false) else RPop(list, timed, false))
    case RNotifyAll(list) => s.(lists := s.lists[list := []], rx := RWakeAll(list, s.lists[list]))
    case RWakeAll(list, batch) =>
      if batch != [] then s.(ready := s.ready + {batch[0]}, rx := RWakeAll(list, batch[1..]))
      else s.(rx := if list < ASYNC then RNotifyAll(list + 1) else RGone)
    case _ => s
  }

  // ---- the senders ----

  function Goto(s: State, i: nat, p: TxPc): State
    requires i < |s.tx|
  {
    s.(tx := s.tx[i := p])
  }

  function SendOk(s: State, i: nat, v: Value): State
    requires i < |s.tx| == |s.h.oks|
  {
    Goto(s.(h := s.h.(oks := s.h.oks[i := s.h.oks[i] + [v]])), i, TIdle)
  }

  function PushBack(s: State, i: nat, sender: nat, v: Value): State
    requires i < |s.tx|
  {
    Goto(s.(queue := s.queue + [v], h := s.h.(pushed := s.h.pushed + [Sent(i, v)])), i, TRelease(sender, v))
  }

  /** A notifier that has popped from `list`, which now holds `rest`, will look no further, although
      the receiver's key is still on this list or a later one. */
  predicate Diverts(s: State, list: nat, rest: seq<Key>)
    requires |s.lists| == 3 && RxInRange(s.rx)
  {
    Waits(s.rx) &&
    var l := WaitList(s.rx);
    list <= l && s.rx.key in if l == list then rest else s.lists[l]
  }

  /** notify_one's visit to one list. */
  function PopOne(s: State, i: nat, sender: nat, v: Value, list: nat): State
    requires WellFormed(s) && i < |s.tx| && list < 3
  {
    if s.lists[list] == [] then
      if list < ASYNC then Goto(s, i, TNotify(sender, v, list + 1)) else SendOk(s, i, v)
    else
      var last := |s.lists[list]| - 1;
      var rest := s.lists[list][..last];
      Goto(s.(lists := s.lists[list := rest], h := s.h.(diverted := s.h.diverted + Bit(Diverts(s, list, rest)))),
           i, TWake(sender, v, s.lists[list][last]))
  }

  /** Sender::drop's fetch_sub; the last one goes on to notify_all. */
  function SubCount(s: State, i: nat): State
    requires i < |s.tx|
  {
    Goto(s.(senderCount := if s.senderCount == 0 then USIZE_MAX else s.senderCount - 1),
         i, if s.senderCount == 1 then TNotifyAll(SPIN) else TIdle)
  }

  function TakeAll(s: State, i: nat, list: nat): State
    requires WellFormed(s) && i < |s.tx| && list < 3
  {
    var window := s.rx.RRegister? && s.rx.list == list;
    Goto(s.(lists := s.lists[list := []], h := s.h.(missed := s.h.missed || window)), i, TWakeAll(list, s.lists[list]))
  }

  function WakeAllNext(s: State, i: nat, list: nat, batch: seq<Key>): State
    requires i < |s.tx|
  {
    if batch != [] then Goto(s.(ready := s.ready + {batch[0]}), i, TWakeAll(list, batch[1..]))
    else Goto(s, i, if list < ASYNC then TNotifyAll(list + 1) else TIdle)
  }

  function TxStepOf(s: State, i: nat): State
    requires WellFormed(s) && i < |s.tx| && TxCanStep(s, i)
  {
    match s.tx[i]
    case TCheck(sender, v) => Goto(s, i, if s.receiverActive then TLock(sender, v) else TIdle)
    case TLock(sender, v) => Goto(s.(holder := Some(Tx(i))), i, TRecheck(sender, v))
    case TRecheck(sender, v) => Goto(s, i, if s.receiverActive then TPush(sender, v) else TAbort(sender, v))
    case TAbort(_, _) => Goto(s.(holder := None), i, TIdle)
    case TPush(sender, v) => PushBack(s, i, sender, v)
    case TRelease(sender, v) => Goto(s.(holder := None), i, TNotify(sender, v, SPIN))
    case TNotify(sender, v, list) => PopOne(s, i, sender, v, list)
    case TWake(_, v, key) => SendOk(s.(ready := s.ready + {key}), i, v)
    case TDropping(_) => SubCount(s, i)
    case TNotifyAll(list) => TakeAll(s, i, list)
    case TWakeAll(list, batch) => WakeAllNext(s, i, list, batch)
    case _ => s
  }

  function Next(s: State, a: Action): State
    requires WellFormed(s) && Enabled(s, a)
  {
    match a
    case CallSend(i, sender, v) => Goto(s, i, TCheck(sender, v))
    case CallClone(i, sender) =>
      s.(senderCount := s.senderCount + 1, senders := s.senders + {s.nextSender}, nextSender := s.nextSender + 1)
    case CallDrop(i, sender) => Goto(s.(senders := s.senders - {sender}), i, TDropping(sender))
    case TxStep(i) => TxStepOf(s, i)
    case CallRecv(list, timed) => s.(rx := RLock(list, timed))
    case CallTryRecv => if s.holder == None then s.(holder := Some(Rx), rx := RPop(SPIN, false, true)) else s
    case CallDropReceiver => s.(receiverActive := false, rx := RNotifyAll(SPIN))
    case RxStep => RxStepOf(s)
    case RxSpurious => s.(rx := if s.rx.timed then RCheck(s.rx.key) else RRelock(SYNC, false, false))
    case RxExpire => if s.rx.RLock? then s.(rx := RIdle) else Leave(s, s.rx.list, s.rx.key)
    case StrayToken => s.(ready := s.ready + {RX_THREAD})
    case StrayPark => s.(ready := s.ready - {RX_THREAD})
  }

  /** Action a is possible in s and leads to s'. */
  ghost predicate Leads(s: State, a: Action, s': State) {
    WellFormed(s) && Enabled(s, a) && s' == Next(s, a)
  }

  function Run(s: State, schedule: seq<Action>): Option<State>
    decreases |schedule|
  {
    if schedule == [] then Some(s)
    else if WellFormed(s) && Enabled(s, schedule[0]) then Run(Next(s, schedule[0]), schedule[1..])
    else None
  }
}
