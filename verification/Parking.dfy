/** What a sleeping waiter waits for, and what the waiting lists hold. */
module Parking {

  // A list of `thread::Thread` holds Handle(t): waking it sets the park token of thread t, which
  // is idempotent and is consumed by t's next park.  A list of one-shot continuation senders holds
  // Cont(c): waking it completes continuation c for good.

  import opened Sums

  datatype Key = Handle(t: nat) | Cont(c: nat)

  datatype Option<+T> = None | Some(value: T)

  function Keys(list: seq<Key>): set<Key> { set k | k in list }

  lemma KeysHead(list: seq<Key>)
    requires list != []
    ensures Keys(list) == {list[0]} + Keys(list[1..])
  {
    assert list == [list[0]] + list[1..];
  }

  /** The first list from i on that is not empty, or |lists|. */
  function FirstBusy<T>(lists: seq<seq<T>>, i: nat): (b: nat)
    requires i <= |lists|
    ensures i <= b <= |lists|
    ensures forall j :: i <= j < b ==> lists[j] == []
    ensures b < |lists| ==> lists[b] != []
    decreases |lists| - i
  {
    if i == |lists| || lists[i] != [] then i else FirstBusy(lists, i + 1)
  }

  /** The newest entry of that list is removed, or there is none. */
  predicate NewestGone<T(==)>(was: seq<seq<T>>, now: seq<seq<T>>, i: nat)
    requires i <= |was|
  {
    var b := FirstBusy(was, i);
    if b == |was| then now == was else now == was[b := was[b][..|was[b]| - 1]]
  }

  lemma NoOpExactly<T>(was: seq<seq<T>>, now: seq<seq<T>>)
    requires |was| == 3 && NewestGone(was, now, 0)
    ensures now != was <==> FirstBusy(was, 0) < 3
    ensures now == was <==> was == [[], [], []]
  {
    var b := FirstBusy(was, 0);
    assert b < 3 ==> |now[b]| < |was[b]|;
  }

  function EmptiedFrom<T>(lists: seq<seq<T>>, i: nat): (r: seq<seq<T>>)
    requires i <= |lists|
    ensures |r| == |lists|
    decreases |lists| - i
  {
    if i == |lists| then lists else EmptiedFrom(lists[i := []], i + 1)
  }

  /** The keys on the lists from i on. */
  function KeysFrom(lists: seq<seq<Key>>, i: nat): set<Key>
    requires i <= |lists|
    decreases |lists| - i
  {
    if i == |lists| then {} else Keys(lists[i]) + KeysFrom(lists, i + 1)
  }

  lemma KeysAfter(lists: seq<seq<Key>>, i: nat, j: nat, list: seq<Key>)
    requires i < j <= |lists|
    ensures KeysFrom(lists[i := list], j) == KeysFrom(lists, j)
    decreases |lists| - j
  {
    if j < |lists| { KeysAfter(lists, i, j + 1, list); }
  }

  lemma AllEmptied<T>(lists: seq<seq<T>>)
    requires |lists| == 3
    ensures EmptiedFrom(lists, 0) == [[], [], []]
  {
    assert EmptiedFrom(lists[0 := []][1 := []], 2) == [[], [], []];
  }

  /** The same threads, once as numbers and once as the handles on a list. */
  predicate SameHandles(handles: seq<nat>, keys: seq<Key>) {
    |handles| == |keys| && forall i :: 0 <= i < |keys| ==> keys[i] == Handle(handles[i])
  }

  predicate OnlyConts(keys: seq<Key>) { forall i :: 0 <= i < |keys| ==> keys[i].Cont? }

  lemma {:induction false} SameCount(handles: seq<nat>, keys: seq<Key>, t: nat)
    requires SameHandles(handles, keys)
    ensures Occurs(t, handles) == Occurs(Handle(t), keys)
  {
    if keys != [] {
      OccursHead(t, handles);
      OccursHead(Handle(t), keys);
      SameCount(handles[1..], keys[1..], t);
    }
  }

  /** A list on which every thread occurs at most once is no longer than there are threads. */
  lemma {:induction false} ShortList(list: seq<Key>, n: nat)
    requires forall k :: k in list ==> k.Handle? && k.t < n
    requires forall t :: 0 <= t < n ==> Occurs(Handle(t), list) <= 1
    ensures |list| <= n
  {
    if n == 0 {
      assert forall i :: 0 <= i < |list| ==> list[i] in list;
    } else if Handle(n - 1) in list {
      var i :| 0 <= i < |list| && list[i] == Handle(n - 1);
      var rest := list[..i] + list[i + 1..];
      assert list == list[..i] + [list[i]] + list[i + 1..];
      assert multiset(list) == multiset(rest) + multiset{list[i]};
      assert Occurs(Handle(n - 1), rest) == 0;
      forall t | 0 <= t < n - 1 ensures Occurs(Handle(t), rest) <= 1 {
        assert Occurs(Handle(t), list) <= 1;
      }
      forall k | k in rest ensures k.Handle? && k.t < n - 1 {
        assert k in list;
        OccursIn(k, rest);
      }
      ShortList(rest, n - 1);
    } else {
      ShortList(list, n - 1);
    }
  }
}
