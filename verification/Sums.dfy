/** Totals over the threads of a system. */
module Sums {

  // "Exactly one thread holds the lock" or "some unlocker still has to visit this list" is
  // stated as the total of a 0/1 weight over all program counters.  One thread's step changes
  // one program counter, and SumUpdate says what that does to every such total.

  function Sum<T>(weight: T -> nat, s: seq<T>): nat {
    if s == [] then 0 else weight(s[0]) + Sum(weight, s[1..])
  }

  lemma {:induction false} SumUpdate<T>(weight: T -> nat, s: seq<T>, i: nat, x: T)
    requires i < |s|
    ensures Sum(weight, s[i := x]) + weight(s[i]) == Sum(weight, s) + weight(x)
  {
    var s' := s[i := x];
    if i == 0 {
      assert s'[1..] == s[1..];
    } else {
      assert s'[1..] == s[1..][i - 1 := x];
      SumUpdate(weight, s[1..], i - 1, x);
    }
  }

  lemma {:induction false} SumAppend<T>(weight: T -> nat, s: seq<T>, x: T)
    ensures Sum(weight, s + [x]) == Sum(weight, s) + weight(x)
  {
    if s == [] {
    } else {
      assert (s + [x])[1..] == s[1..] + [x];
      SumAppend(weight, s[1..], x);
    }
  }

  lemma {:induction false} SumConcat<T>(weight: T -> nat, s: seq<T>, s': seq<T>)
    ensures Sum(weight, s + s') == Sum(weight, s) + Sum(weight, s')
  {
    if s == [] {
      assert s + s' == s';
    } else {
      assert (s + s')[1..] == s[1..] + s';
      SumConcat(weight, s[1..], s');
    }
  }

  /** Taking one element out takes its weight out. */
  lemma SumRemove<T>(weight: T -> nat, s: seq<T>, i: nat)
    requires i < |s|
    ensures Sum(weight, s) == Sum(weight, s[..i] + s[i + 1..]) + weight(s[i])
  {
    SumConcat(weight, s[..i], s[i + 1..]);
    SumConcat(weight, s[..i], s[i..]);
    assert s == s[..i] + s[i..];
    assert s[i..][1..] == s[i + 1..];
  }

  lemma {:induction false} SumAtLeast<T>(weight: T -> nat, s: seq<T>, i: nat)
    requires i < |s|
    ensures weight(s[i]) <= Sum(weight, s)
  {
    if i > 0 {
      SumAtLeast(weight, s[1..], i - 1);
    }
  }

  /** Two different threads contribute both their weights. */
  lemma {:induction false} SumAtLeastTwo<T>(weight: T -> nat, s: seq<T>, i: nat, j: nat)
    requires i < j < |s|
    ensures weight(s[i]) + weight(s[j]) <= Sum(weight, s)
  {
    if i == 0 {
      SumAtLeast(weight, s[1..], j - 1);
    } else {
      SumAtLeastTwo(weight, s[1..], i - 1, j - 1);
    }
  }

  /** A positive total has a contributor. */
  lemma {:induction false} SumWitness<T>(weight: T -> nat, s: seq<T>) returns (i: nat)
    requires Sum(weight, s) > 0
    ensures i < |s| && weight(s[i]) > 0
  {
    if weight(s[0]) > 0 {
      i := 0;
    } else {
      var j := SumWitness(weight, s[1..]);
      i := j + 1;
    }
  }

  lemma {:induction false} SumZero<T>(weight: T -> nat, s: seq<T>)
    requires forall i :: 0 <= i < |s| ==> weight(s[i]) == 0
    ensures Sum(weight, s) == 0
  {
    if s != [] {
      SumZero(weight, s[1..]);
    }
  }

  function Members<T>(weight: T -> nat, s: seq<T>): set<int> {
    set i | 0 <= i < |s| && weight(s[i]) == 1
  }

  /** A 0/1 weight counts the members that have it. */
  lemma {:induction false} SumCounts<T>(weight: T -> nat, s: seq<T>)
    requires forall i :: 0 <= i < |s| ==> weight(s[i]) <= 1
    ensures Sum(weight, s) == |Members(weight, s)|
  {
    if s != [] {
      var n := |s| - 1;
      var init := s[..n];
      SumCounts(weight, init);
      assert s == init + [s[n]];
      SumAppend(weight, init, s[n]);
      assert Members(weight, s) == Members(weight, init) + if weight(s[n]) == 1 then {n} else {};
    }
  }

  lemma {:induction false} SumPointwise<T, U>(f: T -> nat, s: seq<T>, g: U -> nat, s': seq<U>)
    requires |s| == |s'|
    requires forall i :: 0 <= i < |s| ==> f(s[i]) <= g(s'[i])
    ensures Sum(f, s) <= Sum(g, s')
  {
    if s != [] { SumPointwise(f, s[1..], g, s'[1..]); }
  }

  lemma {:induction false} SumSplit<T, U, V>(f: T -> nat, s: seq<T>, g: U -> nat, s': seq<U>, h: V -> nat, s'': seq<V>)
    requires |s| == |s'| == |s''|
    requires forall i :: 0 <= i < |s| ==> f(s[i]) == g(s'[i]) + h(s''[i])
    ensures Sum(f, s) == Sum(g, s') + Sum(h, s'')
  {
    if s != [] { SumSplit(f, s[1..], g, s'[1..], h, s''[1..]); }
  }

  lemma SumTwo<T>(weight: T -> nat, s: seq<T>)
    requires |s| == 2
    ensures Sum(weight, s) == weight(s[0]) + weight(s[1])
  {
    var rest := s[1..];
    assert rest[0] == s[1] && rest[1..] == [];
    assert Sum(weight, rest) == weight(rest[0]) + Sum(weight, rest[1..]);
  }

  lemma SetTwice<T>(s: seq<T>, i: nat, x: T, y: T)
    requires i < |s|
    ensures s[i := x][i := y] == s[i := y]
  {}

  function Bit(b: bool): nat { if b then 1 else 0 }

  /** How often x occurs in s. */
  function Occurs<T(==)>(x: T, s: seq<T>): nat {
    multiset(s)[x]
  }

  lemma OccursIn<T>(x: T, s: seq<T>)
    ensures Occurs(x, s) > 0 <==> x in s
  {}

  lemma OccursAppend<T>(x: T, s: seq<T>, t: seq<T>)
    ensures Occurs(x, s + t) == Occurs(x, s) + Occurs(x, t)
  {}

  lemma OccursHead<T>(x: T, s: seq<T>)
    requires s != []
    ensures Occurs(x, s) == Bit(x == s[0]) + Occurs(x, s[1..])
  {
    assert s == [s[0]] + s[1..];
  }
}
