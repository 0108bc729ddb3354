// Sorting and bisection by an integer key, as the modelled programs do both.
module Sorting {
  function Insert<T>(xs: seq<T>, x: T, key: T -> int): seq<T> {
    if xs == [] || key(xs[|xs| - 1]) <= key(x) then xs + [x] else Insert(xs[..|xs| - 1], x, key) + [xs[|xs| - 1]]
  }

  function Sort<T>(xs: seq<T>, key: T -> int): seq<T> {
    if xs == [] then [] else Insert(Sort(xs[..|xs| - 1], key), xs[|xs| - 1], key)
  }

  predicate SortedBy<T>(xs: seq<T>, key: T -> int) { forall i, j :: 0 <= i <= j < |xs| ==> key(xs[i]) <= key(xs[j]) }

  lemma {:induction false} InsertOrdered<T>(xs: seq<T>, x: T, key: T -> int)
    requires SortedBy(xs, key)
    ensures SortedBy(Insert(xs, x, key), key)
    ensures forall i :: 0 <= i < |Insert(xs, x, key)| ==>
              key(Insert(xs, x, key)[i]) <= key(x) || (xs != [] && key(Insert(xs, x, key)[i]) <= key(xs[|xs| - 1]))
  {
    if xs != [] && key(xs[|xs| - 1]) > key(x) { InsertOrdered(xs[..|xs| - 1], x, key); }
  }

  lemma {:induction false} InsertKeeps<T>(xs: seq<T>, x: T, key: T -> int)
    ensures multiset(Insert(xs, x, key)) == multiset(xs) + multiset{x}
  {
    if xs != [] && key(xs[|xs| - 1]) > key(x) {
      assert xs == xs[..|xs| - 1] + [xs[|xs| - 1]];
      InsertKeeps(xs[..|xs| - 1], x, key);
    }
  }

  lemma {:induction false} SortMeans<T>(xs: seq<T>, key: T -> int)
    ensures SortedBy(Sort(xs, key), key) && multiset(Sort(xs, key)) == multiset(xs)
  {
    if xs != [] {
      var front, last := xs[..|xs| - 1], xs[|xs| - 1];
      assert xs == front + [last];
      SortMeans(front, key);
      InsertOrdered(Sort(front, key), last, key);
      InsertKeeps(Sort(front, key), last, key);
    }
  }

  // Numbers without repetition, in order.
  predicate Increasing(ts: seq<int>) { forall i, j :: 0 <= i < j < |ts| ==> ts[i] < ts[j] }

  predicate Has(ts: seq<int>, t: int) { exists i :: 0 <= i < |ts| && ts[i] == t }

  function Itself(t: int): int { t }

  lemma HasGrows(ts: seq<int>)
    requires ts != []
    ensures forall t :: Has(ts, t) <==> Has(ts[..|ts| - 1], t) || t == ts[|ts| - 1]
  {
    var n := |ts| - 1;
    forall t ensures Has(ts, t) <==> Has(ts[..n], t) || t == ts[n] {
      if Has(ts, t) && t != ts[n] {
        var i :| 0 <= i < |ts| && ts[i] == t;
        assert ts[..n][i] == t;
      }
      if Has(ts[..n], t) {
        var i :| 0 <= i < n && ts[..n][i] == t;
        assert ts[i] == t;
      }
    }
  }

  // Inserting a new number keeps the order and adds that number alone.
  lemma {:induction false} InsertNew(ts: seq<int>, t: int)
    requires Increasing(ts) && !Has(ts, t)
    ensures var r := Insert(ts, t, Itself);
            Increasing(r) && (forall x :: Has(r, x) <==> x == t || Has(ts, x)) && |r| == |ts| + 1
            && r[|ts|] == if ts != [] && ts[|ts| - 1] > t then ts[|ts| - 1] else t
  {
    var r := Insert(ts, t, Itself);
    if ts == [] || ts[|ts| - 1] <= t {
      assert ts != [] ==> ts[|ts| - 1] != t;
      HasGrows(r);
      assert r[..|r| - 1] == ts;
    } else {
      var front, last := ts[..|ts| - 1], ts[|ts| - 1];
      HasGrows(ts);
      InsertNew(front, t);
      HasGrows(r);
      assert r[..|r| - 1] == Insert(front, t, Itself);
      LastIsMost(Insert(front, t, Itself), last);
    }
  }

  lemma LastIsMost(ts: seq<int>, last: int)
    requires Increasing(ts) && (ts != [] ==> ts[|ts| - 1] < last)
    ensures Increasing(ts + [last])
  {
  }

  // ---------------------------------------------------------- sets and bisection

  lemma Pick<T>(s: set<T>) returns (y: T)
    requires s != {}
    ensures y in s
  {
    y :| y in s;
  }

  lemma {:induction false} Least(s: set<int>) returns (m: int)
    requires s != {}
    ensures m in s && forall x :: x in s ==> m <= x
    decreases s
  {
    m := Pick(s);
    var rest := s - {m};
    if rest != {} {
      assert forall x :: x in s <==> x == m || x in rest;
      var r := Least(rest);
      m := if m < r then m else r;
    } else {
      assert forall x :: x in s ==> x == m || x in rest;
    }
  }

  lemma MinExists(s: set<int>)
    requires s != {}
    ensures exists m :: m in s && forall x :: x in s ==> m <= x
  {
    var m := Least(s);
  }

  // The numbers of a set, in order.
  function Sorted(s: set<int>): (xs: seq<int>)
    ensures forall i, j :: 0 <= i < j < |xs| ==> xs[i] < xs[j]
    ensures forall x :: x in xs <==> x in s
    ensures forall i :: 0 <= i < |xs| ==> xs[i] in s
    decreases |s|
  {
    if s == {} then []
    else
      MinExists(s);
      var m :| m in s && forall x :: x in s ==> m <= x;
      [m] + Sorted(s - {m})
  }

  lemma SortedHas(xs: set<int>)
    ensures Increasing(Sorted(xs)) && forall t :: Has(Sorted(xs), t) <==> t in xs
  {
    forall t | t in xs ensures Has(Sorted(xs), t) {
      assert t in Sorted(xs);
    }
  }

  // How many of the ordered elements have a key up to a value.
  function BisectRight<T>(xs: seq<T>, key: T -> int, at: int): (n: nat)
    ensures n <= |xs|
  {
    if xs == [] then 0
    else if key(xs[|xs| - 1]) <= at then |xs| else BisectRight(xs[..|xs| - 1], key, at)
  }

  // How many of them have a key before it.
  function BisectLeft<T>(xs: seq<T>, key: T -> int, at: int): (n: nat)
    ensures n <= |xs|
  {
    BisectRight(xs, key, at - 1)
  }

  lemma {:induction false} BisectMeans<T>(xs: seq<T>, key: T -> int, at: int)
    requires SortedBy(xs, key)
    ensures forall i :: 0 <= i < |xs| ==> (key(xs[i]) <= at <==> i < BisectRight(xs, key, at))
  {
    if xs != [] && key(xs[|xs| - 1]) > at {
      var front := xs[..|xs| - 1];
      BisectMeans(front, key, at);
      forall i | 0 <= i < |xs| ensures key(xs[i]) <= at <==> i < BisectRight(xs, key, at) {
        if i < |front| { assert front[i] == xs[i]; }
      }
    }
  }

  lemma {:induction false} BisectIs<T>(xs: seq<T>, key: T -> int, at: int, n: nat)
    requires n <= |xs| && forall i :: 0 <= i < |xs| ==> (key(xs[i]) <= at <==> i < n)
    ensures BisectRight(xs, key, at) == n
  {
    if n < |xs| { BisectIs(xs[..|xs| - 1], key, at, n); }
  }
}
