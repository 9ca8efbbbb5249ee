/** The channel's shared state as an object updated in place: one method per atomic step of the
    source, each proved to be the corresponding move of ChannelModel and to keep what every run
    keeps.

    The receiver and the users of Senders are part of the object, because a step is always the step of
    one of them.  What only the proofs speak of, the values pushed, received and sent with Ok, is
    the ghost field `h`.
 */
module ChannelObject {
  import opened Parking
  import opened Sums
  import opened ChannelModel
  import opened ChannelOrder
  import opened ChannelLastSender
  import opened ChannelWake
  import opened ChannelCalls

  datatype Answer = Received(value: Value) | Disconnected | EmptyOrTimeout

  /** How far an untimed recv variant gets on its own. */
  datatype Progress = Got(value: Value) | Closed | FellAsleep | MutexHeld

  function Outcome(holder: Option<Agent>, queue: seq<Value>, senderCount: nat): Progress {
    if holder != None then MutexHeld
    else if queue != [] then Got(queue[0])
    else if senderCount == 0 then Closed
    else FellAsleep
  }

  /** What a call finds that has the mutex: a value, no Sender, or nothing yet. */
  function Finds(queue: seq<Value>, senderCount: nat): Answer {
    if queue != [] then Received(queue[0]) else if senderCount == 0 then Disconnected else EmptyOrTimeout
  }

  /** The list without its first occurrence of the key. */
  function Without(k: Key, list: seq<Key>): seq<Key> {
    if k in list then list[..Position(k, list)] + list[Position(k, list) + 1..] else list
  }

  lemma {:induction false} FirstOne(list: seq<Key>, k: Key)
    requires k in list
    ensures forall j :: 0 <= j < Position(k, list) ==> list[j] != k
  {
    if list[0] != k { FirstOne(list[1..], k); }
  }

  /** A key that comes last is the one that goes, unless it was there already. */
  lemma LastWithout(list: seq<Key>, k: Key)
    ensures k !in list ==> Without(k, list + [k]) == list
    ensures multiset(Without(k, list + [k])) == multiset(list)
  {
    var more := list + [k];
    assert more[|list|] == k;
    FirstOne(more, k);
    var at := Position(k, more);
    if k !in list { assert forall j :: 0 <= j < |list| ==> more[j] != k; }
    assert more == more[..at] + [k] + more[at + 1..];
    SameRest(more[..at], more[at + 1..], list, k);
  }

  lemma SameRest(before: seq<Key>, after: seq<Key>, list: seq<Key>, k: Key)
    requires before + [k] + after == list + [k]
    ensures multiset(before + after) == multiset(list)
  {
    assert multiset(before + [k] + after) == multiset(before + after) + multiset{k};
    assert multiset(list + [k]) == multiset(list) + multiset{k};
    forall x ensures multiset(before + after)[x] == multiset(list)[x] {
      assert (multiset(before + after) + multiset{k})[x] == (multiset(list) + multiset{k})[x];
    }
  }

  /** One list may have had its entries of the receiver's thread exchanged; the rest is as before. */
  predicate SameBut(list: nat, was: seq<seq<Key>>, now: seq<seq<Key>>)
    requires list < |was|
  {
    && |now| == |was| && now == was[list := now[list]] && multiset(now[list]) == multiset(was[list])
    && (list != SYNC || RX_THREAD !in was[list] ==> now == was)
  }

  predicate Resumes(p: RxPc) { (p.RLock? || (p.RRelock? && !p.timedOut)) && !p.timed }

  predicate SleepsOn(p: RxPc, list: nat) { p.RAsleep? && p.list == list && !p.timed }

  datatype SendOutcome = Accepted | Refused | Contended

  /** The key that a notify_one which starts at list i removes. */
  function Newest(lists: seq<seq<Key>>, i: nat): set<Key>
    requires i <= |lists|
  {
    var b := FirstBusy(lists, i);
    if b == |lists| then {} else {lists[b][|lists[b]| - 1]}
  }

  /** One value goes from the queue to the end of what the loop has yielded. */
  lemma OneMore(received: seq<Value>, messages: seq<Value>, queue: seq<Value>)
    requires queue != []
    ensures (messages + [queue[0]]) + queue[1..] == messages + queue
    ensures (received + messages) + [queue[0]] == received + (messages + [queue[0]])
  {
    assert queue == [queue[0]] + queue[1..];
  }

  lemma InitLast(users: nat)
    ensures LastInv(Init(users))
  {
    InitInv(users);
  }

  class Channel {
    var queue: seq<Value>
    /** the condition variable's three lists */
    var waiting: seq<seq<Key>>
    var senderCount: nat
    var receiverActive: bool

    /** The owner of the queue's mutex, the tokens and continuations, the Senders in existence, and
        the threads. */
    var holder: Option<Agent>
    var ready: set<Key>
    var nextKey: nat
    var senders: set<nat>
    var nextSender: nat
    var rx: RxPc
    var tx: seq<TxPc>

    ghost var h: History

    ghost function View(): State
      reads this
    {
      State(queue, holder, senderCount, receiverActive, waiting, ready, nextKey, senders, nextSender, rx, tx, h)
    }

    ghost predicate Valid()
      reads this
    {
      LastInv(View()) && ActiveOk(View()) && KeysOld(View())
    }

    constructor (users: nat)
      ensures Valid()
      ensures View() == Init(users)
    {
      queue, waiting, senderCount, receiverActive := [], [[], [], []], 1, true;
      holder, ready, nextKey, senders, nextSender := None, {}, 0, {0}, 1;
      rx, tx := RIdle, seq(users, _ => TIdle);
      h := Init(users).h;
      new;
      InitLast(users);
    }

    twostate lemma Kept(a: Action)
      requires old(Valid()) && Enabled(old(View()), a) && View() == Next(old(View()), a)
      ensures Valid()
    {
      LastNext(old(View()), a);
      ActiveNext(old(View()), a);
      KeysOldNext(old(View()), a);
    }

    // ---- Sender ----

    /** Entering send_spin, send_block, send_sync or send_async. */
    method BeginSend(i: nat, sender: nat, v: Value)
      requires Valid() && i < |tx| && tx[i].TIdle? && sender in senders
      modifies this`tx
      ensures Valid()
      ensures View() == Next(old(View()), CallSend(i, sender, v))
    {
      tx := tx[i := TCheck(sender, v)];
      Kept(CallSend(i, sender, v));
    }

    /** Sender::clone: fetch_add. */
    method CloneSender(i: nat, sender: nat) returns (sibling: nat)
      requires Valid() && i < |tx| && tx[i].TIdle? && sender in senders
      modifies this`senderCount, this`senders, this`nextSender
      ensures Valid()
      ensures View() == Next(old(View()), CallClone(i, sender))
      ensures sibling !in old(senders) && senders == old(senders) + {sibling}
      ensures senderCount == old(senderCount) + 1
    {
      sibling := nextSender;
      senderCount := senderCount + 1;
      senders := senders + {sibling};
      nextSender := nextSender + 1;
      Kept(CallClone(i, sender));
    }

    method BeginDropSender(i: nat, sender: nat)
      requires Valid() && Enabled(View(), CallDrop(i, sender))
      modifies this`senders, this`tx
      ensures Valid()
      ensures View() == Next(old(View()), CallDrop(i, sender))
    {
      senders := senders - {sender};
      tx := tx[i := TDropping(sender)];
      Kept(CallDrop(i, sender));
    }

    /** The load of receiver_active before and after the queue's mutex is taken. */
    method LoadActive(i: nat) returns (active: bool)
      requires Valid() && i < |tx| && (tx[i].TCheck? || tx[i].TRecheck?)
      modifies this`tx
      ensures Valid()
      ensures View() == Next(old(View()), TxStep(i))
      ensures active == receiverActive
    {
      active := receiverActive;
      var p := tx[i];
      if p.TCheck? {
        tx := tx[i := if active then TLock(p.h, p.value) else TIdle];
      } else {
        tx := tx[i := if active then TPush(p.h, p.value) else TAbort(p.h, p.value)];
      }
      Kept(TxStep(i));
    }

    method LockQueue(i: nat)
      requires Valid() && i < |tx| && tx[i].TLock? && holder == None
      modifies this`holder, this`tx
      ensures Valid()
      ensures View() == Next(old(View()), TxStep(i))
    {
      holder := Some(Tx(i));
      tx := tx[i := TRecheck(tx[i].h, tx[i].value)];
      Kept(TxStep(i));
    }

    /** push_back, by the owner of the queue's mutex and never after a Disconnected. */
    method PushBack(i: nat)
      requires Valid() && i < |tx| && tx[i].TPush?
      modifies this`queue, this`tx, this`h
      ensures Valid()
      ensures View() == Next(old(View()), TxStep(i))
      ensures queue == old(queue) + [old(tx[i]).value] && holder == Some(Tx(i)) && senderCount > 0
    {
      assert TxOk(View(), i);
      if senderCount == 0 { NobodySends(View(), i); }
      h := h.(pushed := h.pushed + [Sent(i, tx[i].value)]);
      queue := queue + [tx[i].value];
      tx := tx[i := TRelease(tx[i].h, tx[i].value)];
      Kept(TxStep(i));
    }

    method ReleaseQueue(i: nat)
      requires Valid() && i < |tx| && (tx[i].TRelease? || tx[i].TAbort?)
      modifies this`holder, this`tx
      ensures Valid()
      ensures View() == Next(old(View()), TxStep(i))
      ensures old(holder) == Some(Tx(i)) && holder == None
    {
      assert TxOk(View(), i);
      var p := tx[i];
      holder := None;
      tx := tx[i := if p.TAbort? then TIdle else TNotify(p.h, p.value, SPIN)];
      Kept(TxStep(i));
    }

    /** notify_one's pop from one list. */
    method PopWaiting(i: nat) returns (found: bool)
      requires Valid() && i < |tx| && tx[i].TNotify?
      modifies this`waiting, this`tx, this`h
      ensures Valid()
      ensures View() == Next(old(View()), TxStep(i))
      ensures found <==> old(waiting)[old(tx[i]).list] != []
    {
      var p := tx[i];
      var list := waiting[p.list];
      found := list != [];
      if found {
        var rest := list[..|list| - 1];
        h := h.(diverted := h.diverted + Bit(Diverts(View(), p.list, rest)));
        waiting := waiting[p.list := rest];
        tx := tx[i := TWake(p.h, p.value, list[|list| - 1])];
      } else if p.list < ASYNC {
        tx := tx[i := TNotify(p.h, p.value, p.list + 1)];
      } else {
        h := h.(oks := h.oks[i := h.oks[i] + [p.value]]);
        tx := tx[i := TIdle];
      }
      Kept(TxStep(i));
    }

    method WakePopped(i: nat)
      requires Valid() && i < |tx| && tx[i].TWake?
      modifies this`ready, this`tx, this`h
      ensures Valid()
      ensures View() == Next(old(View()), TxStep(i))
      ensures h.oks[i] == old(h.oks[i]) + [old(tx[i]).value]
    {
      h := h.(oks := h.oks[i := h.oks[i] + [tx[i].value]]);
      ready := ready + {tx[i].key};
      tx := tx[i := TIdle];
      Kept(TxStep(i));
    }

    /** Sender::drop's fetch_sub, which never wraps. */
    method SubtractSender(i: nat) returns (last: bool)
      requires Valid() && i < |tx| && tx[i].TDropping?
      modifies this`senderCount, this`tx
      ensures Valid()
      ensures View() == Next(old(View()), TxStep(i))
      ensures senderCount == old(senderCount) - 1
      ensures last <==> senderCount == 0
    {
      SumAtLeast(Dropping, tx, i);
      var oldCount := senderCount;
      senderCount := senderCount - 1;
      last := oldCount == 1;
      tx := tx[i := if last then TNotifyAll(SPIN) else TIdle];
      Kept(TxStep(i));
    }

    /** notify_all's mem::take of one list. */
    method TakeWaiting(i: nat)
      requires Valid() && i < |tx| && tx[i].TNotifyAll?
      modifies this`waiting, this`tx, this`h
      ensures Valid()
      ensures View() == Next(old(View()), TxStep(i))
      ensures tx[i] == TWakeAll(old(tx[i]).list, old(waiting)[old(tx[i]).list])
    {
      var list := tx[i].list;
      h := h.(missed := h.missed || (rx.RRegister? && rx.list == list));
      tx := tx[i := TWakeAll(list, waiting[list])];
      waiting := waiting[list := []];
      Kept(TxStep(i));
    }

    method WakeNext(i: nat)
      requires Valid() && i < |tx| && tx[i].TWakeAll?
      modifies this`ready, this`tx
      ensures Valid()
      ensures View() == Next(old(View()), TxStep(i))
    {
      var list, batch := tx[i].list, tx[i].batch;
      if batch != [] {
        ready := ready + {batch[0]};
        tx := tx[i := TWakeAll(list, batch[1..])];
      } else {
        tx := tx[i := if list < ASYNC then TNotifyAll(list + 1) else TIdle];
      }
      Kept(TxStep(i));
    }

    // ---- Receiver ----

    /** Entering a recv variant. */
    method BeginRecv(list: nat, timed: bool)
      requires Valid() && rx.RIdle? && list < 3
      modifies this`rx
      ensures Valid()
      ensures View() == Next(old(View()), CallRecv(list, timed))
    {
      rx := RLock(list, timed);
      Kept(CallRecv(list, timed));
    }

    /** try_recv's try_lock: on failure it reports Empty whatever the queue holds. */
    method BeginTryRecv() returns (locked: bool)
      requires Valid() && rx.RIdle?
      modifies this`holder, this`rx
      ensures Valid()
      ensures View() == Next(old(View()), CallTryRecv)
      ensures locked <==> old(holder) == None
      ensures !locked ==> rx.RIdle?
    {
      locked := holder == None;
      if locked {
        holder := Some(Rx);
        rx := RPop(SPIN, false, true);
      }
      Kept(CallTryRecv);
    }

    /** Receiver::drop's store. */
    method BeginDropReceiver()
      requires Valid() && rx.RIdle?
      modifies this`receiverActive, this`rx
      ensures Valid()
      ensures View() == Next(old(View()), CallDropReceiver)
    {
      receiverActive := false;
      rx := RNotifyAll(SPIN);
      Kept(CallDropReceiver);
    }

    method RxLockQueue()
      requires Valid() && (rx.RLock? || rx.RRelock?) && holder == None
      modifies this`holder, this`rx
      ensures Valid()
      ensures View() == Next(old(View()), RxStep)
    {
      holder := Some(Rx);
      rx := if rx.RRelock? && rx.timedOut then RFail(false) else RPop(rx.list, rx.timed, false);
      Kept(RxStep);
    }

    method PopFront() returns (front: Option<Value>)
      requires Valid() && rx.RPop?
      modifies this`queue, this`rx
      ensures Valid()
      ensures View() == Next(old(View()), RxStep)
      ensures front.Some? ==> old(queue) == [front.value] + queue
      ensures front == None ==> old(queue) == [] == queue
    {
      front := None;
      if queue == [] {
        rx := RCount(rx.list, rx.timed, rx.trying);
      } else {
        front := Some(queue[0]);
        rx := RGot(queue[0]);
        queue := queue[1..];
      }
      Kept(RxStep);
    }

    method LoadSenderCount() returns (disconnected: bool)
      requires Valid() && rx.RCount?
      modifies this`rx, this`h
      ensures Valid()
      ensures View() == Next(old(View()), RxStep)
      ensures disconnected <==> senderCount == 0
      ensures disconnected ==> h.disconnected && queue == []
      ensures var p := old(rx);
        rx == if disconnected then RFail(true) else if p.trying then RFail(false) else RRegister(p.list, p.timed)
    {
      disconnected := senderCount == 0;
      if disconnected {
        h := h.(disconnected := true);
        rx := RFail(true);
      } else {
        rx := if rx.trying then RFail(false) else RRegister(rx.list, rx.timed);
      }
      Kept(RxStep);
    }

    /** The guard is dropped and the call returns. */
    method Return() returns (answer: Answer)
      requires Valid() && (rx.RGot? || rx.RFail?)
      modifies this`holder, this`rx, this`h
      ensures Valid()
      ensures View() == Next(old(View()), RxStep)
      ensures old(rx).RGot? ==> answer == Received(old(rx).value)
      ensures old(rx).RFail? ==> answer == if old(rx).disconnected then Disconnected else EmptyOrTimeout
      ensures answer.Received? ==> h.received == old(h.received) + [answer.value]
      ensures !answer.Received? ==> h == old(h)
      ensures answer.Disconnected? ==> h.disconnected && queue == [] && h.received == Values(h.pushed)
    {
      if rx.RGot? { h := h.(received := h.received + [rx.value]); }
      answer := if rx.RGot? then Received(rx.value) else if rx.disconnected then Disconnected else EmptyOrTimeout;
      holder, rx := None, RIdle;
      Kept(RxStep);
    }

    /** Register with the condition variable while holding the queue's mutex. */
    method RegisterSelf()
      requires Valid() && rx.RRegister?
      modifies this`waiting, this`nextKey, this`rx, this`h
      ensures Valid()
      ensures View() == Next(old(View()), RxStep)
      ensures rx.RListed? && waiting[rx.list] == old(waiting)[rx.list] + [rx.key]
    {
      var list, key := rx.list, RX_THREAD;
      h := h.(ahead := Sum(Coming(list), tx), diverted := 0);
      if list != SYNC {
        key := Cont(nextKey);
        nextKey := nextKey + 1;
      }
      waiting := waiting[list := waiting[list] + [key]];
      rx := RListed(list, key, rx.timed);
      Kept(RxStep);
    }

    /** drop(guard) inside the wait. */
    method FallAsleep()
      requires Valid() && rx.RListed?
      modifies this`holder, this`rx
      ensures Valid()
      ensures View() == Next(old(View()), RxStep)
      ensures old(holder) == Some(Rx) && holder == None
    {
      holder := None;
      rx := RAsleep(rx.list, rx.key, rx.timed);
      Kept(RxStep);
    }

    method Awaken()
      requires Valid() && rx.RAsleep? && rx.key in ready
      modifies this`ready, this`rx
      ensures Valid()
      ensures View() == Next(old(View()), RxStep)
    {
      if rx.list == SYNC {
        ready := ready - {rx.key};
        rx := if rx.timed then RCheck(rx.key) else RRelock(SYNC, false, false);
      } else {
        rx := RRelock(rx.list, rx.timed, false);
      }
      Kept(RxStep);
    }

    method AwakenSpuriously()
      requires Valid() && rx.RAsleep? && rx.list == SYNC
      modifies this`rx
      ensures Valid()
      ensures View() == Next(old(View()), RxSpurious)
    {
      rx := if rx.timed then RCheck(rx.key) else RRelock(SYNC, false, false);
      Kept(RxSpurious);
    }

    /** After park_timeout: back to sleep while an entry of the thread is listed. */
    method WasNotified() returns (notified: bool)
      requires Valid() && rx.RCheck?
      modifies this`rx
      ensures Valid()
      ensures View() == Next(old(View()), RxStep)
      ensures notified <==> old(rx).key !in waiting[SYNC]
      ensures rx == if notified then RRelock(SYNC, true, false) else RAsleep(SYNC, old(rx).key, true)
    {
      notified := rx.key !in waiting[SYNC];
      rx := if notified then RRelock(SYNC, true, false) else RAsleep(SYNC, rx.key, true);
      Kept(RxStep);
    }

    method Drained()
      requires Valid() && rx.RDrain? && rx.key in ready
      modifies this`rx
      ensures Valid()
      ensures View() == Next(old(View()), RxStep)
    {
      rx := RRelock(SPIN, true, false);
      Kept(RxStep);
    }

    /** The deadline passes while the receiver waits for the queue's mutex. */
    method GiveUpLocking()
      requires Valid() && rx.RLock? && rx.timed
      modifies this`rx
      ensures Valid()
      ensures View() == Next(old(View()), RxExpire)
    {
      rx := RIdle;
      Kept(RxExpire);
    }

    /** The deadline passes in the condition variable: leave the list, or find the entry popped. */
    method GiveUpWaiting()
      requires Valid() && rx.RAsleep? && rx.timed
      modifies this`waiting, this`ready, this`rx
      ensures Valid()
      ensures View() == Next(old(View()), RxExpire)
    {
      var list, key := rx.list, rx.key;
      if key in waiting[list] {
        var at := Position(key, waiting[list]);
        waiting := waiting[list := waiting[list][..at] + waiting[list][at + 1..]];
        if list == ASYNC { ready := ready + {key}; }
        rx := RRelock(list, true, true);
      } else {
        rx := if list == SPIN then RDrain(key) else RRelock(list, true, list == ASYNC);
      }
      Kept(RxExpire);
    }

    /** Receiver::drop's notify_all. */
    method RxTakeWaiting()
      requires Valid() && rx.RNotifyAll?
      modifies this`waiting, this`rx
      ensures Valid()
      ensures View() == Next(old(View()), RxStep)
    {
      var list := rx.list;
      rx := RWakeAll(list, waiting[list]);
      waiting := waiting[list := []];
      Kept(RxStep);
    }

    method RxWakeNext()
      requires Valid() && rx.RWakeAll?
      modifies this`ready, this`rx
      ensures Valid()
      ensures View() == Next(old(View()), RxStep)
    {
      var list, batch := rx.list, rx.batch;
      if batch != [] {
        ready := ready + {batch[0]};
        rx := RWakeAll(list, batch[1..]);
      } else {
        rx := if list < ASYNC then RNotifyAll(list + 1) else RGone;
      }
      Kept(RxStep);
    }

    // ---- whole calls, as far as they get when nobody interferes ----

    /** The queue's mutex is taken and the receiver looks at the queue. */
    method LockAndPop() returns (front: Option<Value>)
      requires Valid() && Resumes(rx) && holder == None
      modifies this`queue, this`holder, this`rx
      ensures Valid() && holder == Some(Rx)
      ensures front.Some? ==> rx == RGot(front.value) && old(queue) == [front.value] + queue
      ensures front == None ==> rx == RCount(old(rx).list, false, false) && old(queue) == [] == queue
    {
      RxLockQueue();
      front := PopFront();
    }

    /** Condvar::wait_*, up to the point where the thread sleeps. */
    method Sleep()
      requires Valid() && rx.RRegister? && !rx.timed
      modifies this`waiting, this`nextKey, this`holder, this`rx, this`h
      ensures Valid() && holder == None
      ensures SleepsOn(rx, old(rx).list)
      ensures waiting == old(waiting)[old(rx).list := old(waiting)[old(rx).list] + [rx.key]]
      ensures h.received == old(h.received) && h.pushed == old(h.pushed)
    {
      RegisterSelf();
      FallAsleep();
    }

    /** The queue was empty: the call fails, or the receiver goes to sleep. */
    method CountAndSleep() returns (closed: bool)
      requires Valid() && rx.RCount? && !rx.timed && !rx.trying
      modifies this`waiting, this`nextKey, this`holder, this`rx, this`h
      ensures Valid() && holder == None && (closed <==> senderCount == 0)
      ensures closed ==> rx == RIdle && waiting == old(waiting) && h.received == Values(h.pushed)
      ensures !closed ==> SleepsOn(rx, old(rx).list)
      ensures !closed ==> waiting == old(waiting)[old(rx).list := old(waiting)[old(rx).list] + [rx.key]]
      ensures h.received == old(h.received) && h.pushed == old(h.pushed)
    {
      var none := LoadSenderCount();
      if none {
        var answer := Return();
        closed := answer.Disconnected?;
      } else {
        closed := false;
        Sleep();
      }
    }

    method ReturnValue() returns (answer: Answer)
      requires Valid() && rx.RGot?
      modifies this`holder, this`rx, this`h
      ensures Valid() && holder == None && rx.RIdle? && answer == Received(old(rx).value)
      ensures h.received == old(h.received) + [old(rx).value] && h.pushed == old(h.pushed)
    {
      answer := Return();
    }

    /** recv_spin, recv_block, recv_sync and recv_async from the point where they acquire the
        queue's mutex: the call returns the oldest value, or finds the channel closed, or goes to
        sleep, or has to wait for the mutex. */
    method Resume() returns (progress: Progress)
      requires Valid() && Resumes(rx)
      modifies this`queue, this`waiting, this`nextKey, this`holder, this`rx, this`h
      ensures Valid() && holder == old(holder) && h.pushed == old(h.pushed)
      ensures progress == Outcome(old(holder), old(queue), senderCount)
      ensures queue == if progress.Got? then old(queue)[1..] else old(queue)
      ensures h.received == if progress.Got? then old(h.received) + [progress.value] else old(h.received)
      ensures progress.Got? || progress.Closed? ==> rx.RIdle? && waiting == old(waiting)
      ensures progress.MutexHeld? ==> rx == old(rx) && waiting == old(waiting)
      ensures progress.FellAsleep? ==> SleepsOn(rx, old(rx).list)
      ensures progress.FellAsleep? ==>
                waiting == old(waiting)[old(rx).list := old(waiting)[old(rx).list] + [rx.key]]
      ensures progress.Closed? ==> h.received == Values(h.pushed)
    {
      if holder != None { return MutexHeld; }
      var front := LockAndPop();
      if front.Some? {
        var answer := ReturnValue();
        progress := Got(answer.value);
      } else {
        var closed := CountAndSleep();
        progress := if closed then Closed else FellAsleep;
      }
    }

    /** IntoIter::next, or any other call of an untimed recv variant. */
    method NextMessage(list: nat) returns (progress: Progress)
      requires Valid() && rx.RIdle? && list < 3
      modifies this`queue, this`waiting, this`nextKey, this`holder, this`rx, this`h
      ensures Valid() && holder == old(holder) && h.pushed == old(h.pushed)
      ensures progress == Outcome(old(holder), old(queue), senderCount)
      ensures queue == if progress.Got? then old(queue)[1..] else old(queue)
      ensures h.received == if progress.Got? then old(h.received) + [progress.value] else old(h.received)
      ensures progress.Got? || progress.Closed? ==> rx.RIdle? && waiting == old(waiting)
      ensures progress.MutexHeld? ==> rx == RLock(list, false) && waiting == old(waiting)
      ensures progress.FellAsleep? ==>
                SleepsOn(rx, list) && waiting == old(waiting)[list := old(waiting)[list] + [rx.key]]
      ensures progress.Closed? ==> h.received == Values(h.pushed)
    {
      BeginRecv(list, false);
      progress := Resume();
    }

    /** `for message in receiver` until it ends or has to wait: with the mutex free it yields
        everything that is queued, in order, and it ends exactly when no Sender is left; what it and
        the calls before it received is then every value ever sent. */
    method ReceiveRest(list: nat) returns (messages: seq<Value>, end: Progress)
      requires Valid() && rx.RIdle? && list < 3
      modifies this`queue, this`waiting, this`nextKey, this`holder, this`rx, this`h
      ensures Valid() && holder == old(holder) && h.pushed == old(h.pushed)
      ensures messages + queue == old(queue)
      ensures h.received == old(h.received) + messages
      ensures end == Outcome(holder, [], senderCount)
      ensures if end.MutexHeld? then messages == [] else queue == []
      ensures end.Closed? ==> rx.RIdle? && h.received == Values(h.pushed)
      ensures end.FellAsleep? ==> SleepsOn(rx, list) && waiting[list] == old(waiting)[list] + [rx.key]
    {
      messages := [];
      while true
        invariant Valid() && holder == old(holder) && h.pushed == old(h.pushed)
        invariant messages + queue == old(queue) && h.received == old(h.received) + messages
        invariant messages != [] ==> holder == None
        invariant rx.RIdle? && waiting == old(waiting)
        decreases |queue|
      {
        ghost var queued := queue;
        end := NextMessage(list);
        if !end.Got? { return; }
        OneMore(old(h.received), messages, queued);
        messages := messages + [end.value];
      }
    }

    /** A send that has the queue to itself appends its value. */
    method PushValue(i: nat)
      requires Valid() && i < |tx| && tx[i].TRecheck? && receiverActive
      modifies this`queue, this`tx, this`h
      ensures Valid()
      ensures queue == old(queue) + [old(tx[i]).value]
      ensures h == old(h).(pushed := old(h).pushed + [Sent(i, old(tx[i]).value)])
      ensures tx == old(tx)[i := TRelease(old(tx[i]).h, old(tx[i]).value)]
    {
      var active := LoadActive(i);
      PushBack(i);
    }

    method WakeNewest(i: nat)
      requires Valid() && i < |tx| && tx[i].TNotify? && waiting[tx[i].list] != []
      modifies this`waiting, this`ready, this`tx, this`h
      ensures Valid()
      ensures var p, list := old(tx[i]), old(waiting)[old(tx[i]).list];
        waiting == old(waiting)[p.list := list[..|list| - 1]] && ready == old(ready) + {list[|list| - 1]}
      ensures tx == old(tx)[i := TIdle]
      ensures h.pushed == old(h.pushed) && h.oks == old(h.oks)[i := old(h.oks[i]) + [old(tx[i]).value]]
    {
      var found := PopWaiting(i);
      WakePopped(i);
    }

    method PassOn(i: nat)
      requires Valid() && i < |tx| && tx[i].TNotify? && waiting[tx[i].list] == []
      modifies this`waiting, this`tx, this`h
      ensures Valid() && waiting == old(waiting)
      ensures var p := old(tx[i]);
        && tx == old(tx)[i := if p.list < ASYNC then TNotify(p.h, p.value, p.list + 1) else TIdle]
        && h.oks == (if p.list < ASYNC then old(h.oks) else old(h.oks)[i := old(h.oks[i]) + [p.value]])
      ensures h.pushed == old(h.pushed)
    {
      var found := PopWaiting(i);
    }

    /** The notify_one of a send: the newest entry of the first list from the present one on that is
        not empty is removed and woken. */
    method Search(i: nat)
      requires Valid() && i < |tx| && tx[i].TNotify?
      modifies this`waiting, this`ready, this`tx, this`h
      ensures Valid() && NewestGone(old(waiting), waiting, old(tx[i]).list)
      ensures ready == old(ready) + Newest(old(waiting), old(tx[i]).list)
      ensures tx == old(tx)[i := TIdle]
      ensures h.pushed == old(h.pushed) && h.oks == old(h.oks)[i := old(h.oks[i]) + [old(tx[i]).value]]
      decreases 3 - tx[i].list
    {
      if waiting[tx[i].list] != [] {
        WakeNewest(i);
      } else {
        var list := tx[i].list;
        PassOn(i);
        if list < ASYNC { Search(i); }
      }
    }

    /** From the acquisition of the queue's mutex to the end of the send. */
    method PushAndNotify(i: nat)
      requires Valid() && i < |tx| && tx[i].TRecheck? && receiverActive
      modifies this`queue, this`waiting, this`holder, this`ready, this`tx, this`h
      ensures Valid() && holder == None && queue == old(queue) + [old(tx[i]).value]
      ensures NewestGone(old(waiting), waiting, 0) && ready == old(ready) + Newest(old(waiting), 0)
      ensures tx == old(tx)[i := TIdle]
      ensures h.pushed == old(h.pushed) + [Sent(i, old(tx[i]).value)]
      ensures h.oks == old(h.oks)[i := old(h.oks[i]) + [old(tx[i]).value]]
    {
      PushValue(i);
      ReleaseQueue(i);
      Search(i);
    }

    method EnterSend(i: nat, sender: nat, v: Value) returns (active: bool)
      requires Valid() && i < |tx| && tx[i].TIdle? && sender in senders
      modifies this`tx
      ensures Valid() && active == receiverActive
      ensures tx == if active then old(tx)[i := TLock(sender, v)] else old(tx)
    {
      BeginSend(i, sender, v);
      active := LoadActive(i);
    }

    /** A whole send: refused without a receiver, held up by the queue's mutex, or accepted: then
        the value is at the back of the queue, exactly the newest entry of the first list that is
        not empty is gone, and exactly it is woken. */
    method Send(i: nat, sender: nat, v: Value) returns (outcome: SendOutcome)
      requires Valid() && i < |tx| && tx[i].TIdle? && sender in senders
      modifies this`queue, this`waiting, this`holder, this`ready, this`tx, this`h
      ensures Valid() && holder == old(holder)
      ensures outcome == if Dropped(rx) then Refused else if holder != None then Contended else Accepted
      ensures !outcome.Accepted? ==> queue == old(queue) && waiting == old(waiting) && ready == old(ready) && h == old(h)
      ensures tx == if outcome.Contended? then old(tx)[i := TLock(sender, v)] else old(tx)
      ensures outcome.Accepted? ==>
                && queue == old(queue) + [v]
                && h.pushed == old(h.pushed) + [Sent(i, v)]
                && h.oks == old(h.oks)[i := old(h.oks[i]) + [v]]
                && NewestGone(old(waiting), waiting, 0) && ready == old(ready) + Newest(old(waiting), 0)
    {
      var active := EnterSend(i, sender, v);
      if !active { return Refused; }
      if holder != None { return Contended; }
      LockQueue(i);
      PushAndNotify(i);
      outcome := Accepted;
    }

    method WakeHead(i: nat)
      requires Valid() && i < |tx| && tx[i].TWakeAll? && tx[i].batch != []
      modifies this`ready, this`tx
      ensures Valid() && ready == old(ready) + {old(tx[i]).batch[0]}
      ensures tx == old(tx)[i := TWakeAll(old(tx[i]).list, old(tx[i]).batch[1..])]
    {
      WakeNext(i);
    }

    method EndBatch(i: nat)
      requires Valid() && i < |tx| && tx[i].TWakeAll? && tx[i].batch == []
      modifies this`ready, this`tx
      ensures Valid() && ready == old(ready)
      ensures tx == old(tx)[i := if old(tx[i]).list < ASYNC then TNotifyAll(old(tx[i]).list + 1) else TIdle]
    {
      WakeNext(i);
    }

    /** The loop over a batch: everything in it is woken. */
    method WakeAll(i: nat)
      requires Valid() && i < |tx| && tx[i].TWakeAll?
      modifies this`ready, this`tx
      ensures Valid() && ready == old(ready) + Keys(old(tx[i]).batch)
      ensures tx == old(tx)[i := if old(tx[i]).list < ASYNC then TNotifyAll(old(tx[i]).list + 1) else TIdle]
    {
      ghost var p := tx[i];
      var batch := tx[i].batch;
      while batch != []
        invariant Valid() && tx == old(tx)[i := TWakeAll(p.list, batch)]
        invariant ready + Keys(batch) == old(ready) + Keys(p.batch)
      {
        KeysHead(batch);
        WakeHead(i);
        batch := batch[1..];
      }
      EndBatch(i);
    }

    method SweepList(i: nat)
      requires Valid() && i < |tx| && tx[i].TNotifyAll?
      modifies this`waiting, this`ready, this`tx, this`h
      ensures Valid() && h == old(h).(missed := h.missed)
      ensures waiting == old(waiting)[old(tx[i]).list := []]
      ensures ready == old(ready) + Keys(old(waiting)[old(tx[i]).list])
      ensures tx == old(tx)[i := if old(tx[i]).list < ASYNC then TNotifyAll(old(tx[i]).list + 1) else TIdle]
    {
      TakeWaiting(i);
      WakeAll(i);
    }

    /** notify_all from the present list on. */
    method SweepFrom(i: nat)
      requires Valid() && i < |tx| && tx[i].TNotifyAll?
      modifies this`waiting, this`ready, this`tx, this`h
      ensures Valid() && h == old(h).(missed := h.missed)
      ensures waiting == EmptiedFrom(old(waiting), old(tx[i]).list)
      ensures ready == old(ready) + KeysFrom(old(waiting), old(tx[i]).list)
      ensures tx == old(tx)[i := TIdle]
      decreases 3 - tx[i].list
    {
      var list := tx[i].list;
      KeysAfter(waiting, list, list + 1, []);
      SweepList(i);
      SetTwice(old(tx), i, tx[i], TIdle);
      if list < ASYNC { SweepFrom(i); }
    }

    /** The Sender is gone and the count is one lower. */
    method EndSender(i: nat, sender: nat) returns (last: bool)
      requires Valid() && Enabled(View(), CallDrop(i, sender))
      modifies this`senderCount, this`senders, this`tx
      ensures Valid() && tx == old(tx)[i := if last then TNotifyAll(SPIN) else TIdle]
      ensures senders == old(senders) - {sender} && i < |tx|
      ensures senderCount == old(senderCount) - 1 && (last <==> senderCount == 0)
    {
      BeginDropSender(i, sender);
      last := SubtractSender(i);
    }

    /** A whole Sender::drop: the count is one lower, and the last Sender empties the three lists and
        wakes exactly what was on them. */
    method DropSender(i: nat, sender: nat) returns (last: bool)
      requires Valid() && Enabled(View(), CallDrop(i, sender))
      modifies this`senderCount, this`senders, this`waiting, this`ready, this`tx, this`h
      ensures Valid() && tx == old(tx) && senders == old(senders) - {sender}
      ensures senderCount == old(senderCount) - 1 && (last <==> senderCount == 0)
      ensures waiting == if last then [[], [], []] else old(waiting)
      ensures ready == if last then old(ready) + KeysFrom(old(waiting), 0) else old(ready)
      ensures h == old(h).(missed := h.missed)
    {
      last := EndSender(i, sender);
      if last {
        SweepFrom(i);
        AllEmptied(old(waiting));
      }
    }

    // ---- try_recv, timed recv and Receiver::drop from start to end ----

    method ReturnError() returns (answer: Answer)
      requires Valid() && rx.RFail?
      modifies this`holder, this`rx, this`h
      ensures Valid() && holder == None && rx.RIdle? && h == old(h)
      ensures answer == if old(rx).disconnected then Disconnected else EmptyOrTimeout
      ensures answer.Disconnected? ==> h.received == Values(h.pushed)
    {
      answer := Return();
    }

    /** try_recv has found the queue empty. */
    method CountAndFail() returns (answer: Answer)
      requires Valid() && rx.RCount? && rx.trying
      modifies this`holder, this`rx, this`h
      ensures Valid() && holder == None && rx.RIdle?
      ensures answer == if senderCount == 0 then Disconnected else EmptyOrTimeout
      ensures h.received == old(h.received) && h.pushed == old(h.pushed)
      ensures answer.Disconnected? ==> h.received == Values(h.pushed)
    {
      var none := LoadSenderCount();
      answer := ReturnError();
    }

    /** try_recv has the mutex. */
    method TakeOrCount() returns (answer: Answer)
      requires Valid() && rx == RPop(SPIN, false, true)
      modifies this`queue, this`holder, this`rx, this`h
      ensures Valid() && rx.RIdle? && holder == None
      ensures answer == Finds(old(queue), senderCount)
      ensures queue == if answer.Received? then old(queue)[1..] else old(queue)
      ensures h.received == if answer.Received? then old(h.received) + [answer.value] else old(h.received)
      ensures h.pushed == old(h.pushed) && (answer.Disconnected? ==> h.received == Values(h.pushed))
    {
      var front := PopFront();
      if front.Some? { answer := ReturnValue(); } else { answer := CountAndFail(); }
    }

    /** try_recv, in any state of the channel: it returns at once, and Empty does not mean that the
        queue is empty when the mutex was held. */
    method TryReceive() returns (answer: Answer)
      requires Valid() && rx.RIdle?
      modifies this`queue, this`holder, this`rx, this`h
      ensures Valid() && rx.RIdle? && holder == old(holder)
      ensures answer == if holder != None then EmptyOrTimeout else Finds(old(queue), senderCount)
      ensures queue == if answer.Received? then old(queue)[1..] else old(queue)
      ensures h.received == if answer.Received? then old(h.received) + [answer.value] else old(h.received)
      ensures h.pushed == old(h.pushed) && (answer.Disconnected? ==> h.received == Values(h.pushed))
    {
      var locked := BeginTryRecv();
      if !locked { return EmptyOrTimeout; }
      answer := TakeOrCount();
    }

    /** A timed wait from its registration to its sleep. */
    method SleepTimed()
      requires Valid() && rx.RRegister? && rx.timed
      modifies this`waiting, this`nextKey, this`holder, this`rx, this`h
      ensures Valid() && holder == None
      ensures rx == RAsleep(old(rx).list, if old(rx).list == SYNC then RX_THREAD else Cont(old(nextKey)), true)
      ensures waiting == old(waiting)[old(rx).list := old(waiting)[old(rx).list] + [rx.key]]
      ensures h.received == old(h.received) && h.pushed == old(h.pushed)
    {
      RegisterSelf();
      FallAsleep();
    }

    /** The deadline passes in the sleep, and the receiver re-acquires the mutex to report it. */
    method ReportTimeout() returns (answer: Answer)
      requires Valid() && rx.RAsleep? && rx.timed && holder == None && rx.key in waiting[rx.list]
      modifies this`waiting, this`ready, this`holder, this`rx, this`h
      ensures Valid() && rx.RIdle? && holder == None && answer == EmptyOrTimeout && h == old(h)
      ensures waiting == old(waiting)[old(rx).list := Without(old(rx).key, old(waiting)[old(rx).list])]
    {
      GiveUpWaiting();
      RxLockQueue();
      answer := ReturnError();
    }

    /** The wait of a timed receiver to whom nobody sends. */
    method WaitInVain() returns (answer: Answer)
      requires Valid() && rx.RRegister? && rx.timed
      modifies this`waiting, this`nextKey, this`ready, this`holder, this`rx, this`h
      ensures Valid() && rx.RIdle? && holder == None && answer == EmptyOrTimeout
      ensures h.received == old(h.received) && h.pushed == old(h.pushed)
      ensures SameBut(old(rx).list, old(waiting), waiting)
    {
      FreshKey(rx.list);
      SleepTimed();
      LastWithout(old(waiting)[rx.list], rx.key);
      answer := ReportTimeout();
    }

    /** The key of the next wait on a list of flags or continuations is not on it. */
    lemma FreshKey(list: nat)
      requires WellFormed(View()) && KeysOld(View()) && list < 3
      ensures Cont(nextKey) !in waiting[list]
    {
      assert OldKeys(waiting[list], nextKey);
    }

    /** A timed receiver has found the queue empty. */
    method CountAndWait() returns (answer: Answer)
      requires Valid() && rx.RCount? && rx.timed && !rx.trying
      modifies this`waiting, this`nextKey, this`ready, this`holder, this`rx, this`h
      ensures Valid() && rx.RIdle? && holder == None
      ensures answer == if senderCount == 0 then Disconnected else EmptyOrTimeout
      ensures h.received == old(h.received) && h.pushed == old(h.pushed)
      ensures answer.Disconnected? ==> h.received == Values(h.pushed)
      ensures SameBut(old(rx).list, old(waiting), waiting)
    {
      var none := LoadSenderCount();
      if none { answer := ReturnError(); } else { answer := WaitInVain(); }
    }

    /** A timed receiver with the mutex looks at the queue and the count; if it has to wait, nobody
        sends, and it gives up at its deadline. */
    method ReceiveUntilDeadline() returns (answer: Answer)
      requires Valid() && rx.RPop? && rx.timed && !rx.trying
      modifies this`queue, this`waiting, this`nextKey, this`ready, this`holder, this`rx, this`h
      ensures Valid() && rx.RIdle? && holder == None
      ensures answer == Finds(old(queue), senderCount)
      ensures queue == if answer.Received? then old(queue)[1..] else old(queue)
      ensures h.received == if answer.Received? then old(h.received) + [answer.value] else old(h.received)
      ensures h.pushed == old(h.pushed) && (answer.Disconnected? ==> h.received == Values(h.pushed))
      ensures SameBut(old(rx).list, old(waiting), waiting)
    {
      var front := PopFront();
      if front.Some? { answer := ReturnValue(); } else { answer := CountAndWait(); }
    }

    /** recv_spin_timeout, recv_block_timeout and recv_async_timeout in any state of the channel, when
        nobody interferes and the deadline passes as soon as the call has to wait: a value if there is
        one, Disconnected if there is no Sender, and otherwise Timeout, with the lists as before. */
    method ReceiveTimeout(list: nat) returns (answer: Answer)
      requires Valid() && rx.RIdle? && list < 3
      modifies this`queue, this`waiting, this`nextKey, this`ready, this`holder, this`rx, this`h
      ensures Valid() && rx.RIdle? && holder == old(holder)
      ensures answer == if holder != None then EmptyOrTimeout else Finds(old(queue), senderCount)
      ensures queue == if answer.Received? then old(queue)[1..] else old(queue)
      ensures h.received == if answer.Received? then old(h.received) + [answer.value] else old(h.received)
      ensures h.pushed == old(h.pushed) && (answer.Disconnected? ==> h.received == Values(h.pushed))
      ensures SameBut(list, old(waiting), waiting)
    {
      BeginRecv(list, true);
      if holder != None {
        GiveUpLocking();
        return EmptyOrTimeout;
      }
      RxLockQueue();
      answer := ReceiveUntilDeadline();
    }

    method RxWakeHead()
      requires Valid() && rx.RWakeAll? && rx.batch != []
      modifies this`ready, this`rx
      ensures Valid() && ready == old(ready) + {old(rx).batch[0]}
      ensures rx == RWakeAll(old(rx).list, old(rx).batch[1..])
    {
      RxWakeNext();
    }

    /** The loop over a batch of the receiver's notify_all. */
    method RxWakeAll()
      requires Valid() && rx.RWakeAll?
      modifies this`ready, this`rx
      ensures Valid() && ready == old(ready) + Keys(old(rx).batch)
      ensures rx == if old(rx).list < ASYNC then RNotifyAll(old(rx).list + 1) else RGone
    {
      ghost var p := rx;
      var batch := rx.batch;
      while batch != []
        invariant Valid() && rx == RWakeAll(p.list, batch)
        invariant ready + Keys(batch) == old(ready) + Keys(p.batch)
      {
        KeysHead(batch);
        RxWakeHead();
        batch := batch[1..];
      }
      RxWakeNext();
    }

    /** The receiver's notify_all from the present list on. */
    method RxSweepFrom()
      requires Valid() && rx.RNotifyAll?
      modifies this`waiting, this`ready, this`rx
      ensures Valid() && rx.RGone?
      ensures waiting == EmptiedFrom(old(waiting), old(rx).list)
      ensures ready == old(ready) + KeysFrom(old(waiting), old(rx).list)
      decreases 3 - rx.list
    {
      var list := rx.list;
      RxTakeWaiting();
      RxWakeAll();
      KeysAfter(old(waiting), list, list + 1, []);
      if list < ASYNC { RxSweepFrom(); }
    }

    /** A whole Receiver::drop: receiver_active is false from then on, the three lists are empty and
        exactly what was on them is woken. */
    method DropReceiver()
      requires Valid() && rx.RIdle?
      modifies this`waiting, this`receiverActive, this`ready, this`rx
      ensures Valid() && rx.RGone? && !receiverActive
      ensures waiting == [[], [], []] && ready == old(ready) + KeysFrom(old(waiting), 0)
    {
      BeginDropReceiver();
      RxSweepFrom();
      AllEmptied(old(waiting));
    }
  }
}
