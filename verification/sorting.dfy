/** Sorting of prices, standing in for `Array.prototype.sort` with the
    comparators `(a, b) => a - b` (ascending) and `(a, b) => b - a`
    (descending). Any correct sort gives the same sequence (SortedUnique), so
    the model uses insertion sort. */
module Sorting {

  /** `a` may come before `b` in the chosen direction. */
  predicate InOrder(a: real, b: real, desc: bool)
  {
    if desc then a >= b else a <= b
  }

  predicate Sorted(s: seq<real>, desc: bool)
  {
    forall i, j :: 0 <= i < j < |s| ==> InOrder(s[i], s[j], desc)
  }

  function Insert(x: real, s: seq<real>, desc: bool): (r: seq<real>)
    requires Sorted(s, desc)
    ensures Sorted(r, desc)
    ensures multiset(r) == multiset(s) + multiset{x}
    ensures |r| == |s| + 1
  {
    if |s| == 0 then [x]
    else if InOrder(x, s[0], desc) then [x] + s
    else
      var t := Insert(x, s[1..], desc);
      assert s == [s[0]] + s[1..];
      assert forall k :: 0 <= k < |t| ==> InOrder(s[0], t[k], desc) by {
        forall k | 0 <= k < |t|
          ensures InOrder(s[0], t[k], desc)
        {
          assert t[k] in multiset(t);
          assert t[k] in multiset(s[1..]) + multiset{x};
          if t[k] in multiset(s[1..]) {
            var j :| 0 <= j < |s[1..]| && s[1..][j] == t[k];
            assert s[j + 1] == t[k];
          }
        }
      }
      [s[0]] + t
  }

  function Sort(s: seq<real>, desc: bool): (r: seq<real>)
    ensures Sorted(r, desc)
    ensures multiset(r) == multiset(s)
    ensures |r| == |s|
  {
    if |s| == 0 then []
    else
      assert s == [s[0]] + s[1..];
      Insert(s[0], Sort(s[1..], desc), desc)
  }

  /** Two sorted arrangements of the same non-empty multiset start with the
      same value. */
  lemma SortedHeads(a: seq<real>, b: seq<real>, desc: bool)
    requires |a| > 0 && |b| > 0
    requires Sorted(a, desc) && Sorted(b, desc) && multiset(a) == multiset(b)
    ensures a[0] == b[0]
  {
    assert a[0] in multiset(b);
    assert b[0] in multiset(a);
    var i :| 0 <= i < |b| && b[i] == a[0];
    var j :| 0 <= j < |a| && a[j] == b[0];
    assert InOrder(b[0], a[0], desc) by {
      if i > 0 { assert InOrder(b[0], b[i], desc); }
    }
    assert InOrder(a[0], b[0], desc) by {
      if j > 0 { assert InOrder(a[0], a[j], desc); }
    }
  }

  /** Dropping the head removes one copy of it from the multiset. */
  lemma TailMultiset(a: seq<real>)
    requires |a| > 0
    ensures multiset(a[1..]) == multiset(a) - multiset{a[0]}
  {
    assert a == [a[0]] + a[1..];
  }

  /** Two sorted arrangements of the same values are the same sequence. */
  lemma {:induction false} SortedUnique(a: seq<real>, b: seq<real>, desc: bool)
    requires Sorted(a, desc) && Sorted(b, desc) && multiset(a) == multiset(b)
    ensures a == b
    decreases |a|
  {
    assert |a| == |multiset(a)| == |b|;
    if |a| > 0 {
      SortedHeads(a, b, desc);
      TailMultiset(a);
      TailMultiset(b);
      SortedUnique(a[1..], b[1..], desc);
      assert a == [a[0]] + a[1..];
      assert b == [b[0]] + b[1..];
    }
  }

  /** How many values satisfy `p`. */
  function Count(s: seq<real>, p: real -> bool): (n: nat)
    ensures n <= |s|
  {
    if |s| == 0 then 0 else (if p(s[0]) then 1 else 0) + Count(s[1..], p)
  }

  lemma {:induction false} CountAppend(a: seq<real>, b: seq<real>, p: real -> bool)
    ensures Count(a + b, p) == Count(a, p) + Count(b, p)
  {
    if |a| == 0 {
      assert a + b == b;
    } else {
      assert (a + b)[1..] == a[1..] + b;
      CountAppend(a[1..], b, p);
    }
  }

  lemma {:induction false} CountInsert(x: real, s: seq<real>, desc: bool, p: real -> bool)
    requires Sorted(s, desc)
    ensures Count(Insert(x, s, desc), p) == Count(s, p) + (if p(x) then 1 else 0)
  {
    if |s| > 0 && !InOrder(x, s[0], desc) {
      CountInsert(x, s[1..], desc, p);
    }
  }

  /** Sorting does not change how many values satisfy a predicate. */
  lemma {:induction false} CountSort(s: seq<real>, desc: bool, p: real -> bool)
    ensures Count(Sort(s, desc), p) == Count(s, p)
  {
    if |s| > 0 {
      CountSort(s[1..], desc, p);
      CountInsert(s[0], Sort(s[1..], desc), desc, p);
    }
  }

  lemma {:induction false} CountAll(s: seq<real>, p: real -> bool)
    requires forall i :: 0 <= i < |s| ==> p(s[i])
    ensures Count(s, p) == |s|
  {
    if |s| > 0 {
      CountAll(s[1..], p);
    }
  }

  lemma {:induction false} CountNone(s: seq<real>, p: real -> bool)
    requires forall i :: 0 <= i < |s| ==> !p(s[i])
    ensures Count(s, p) == 0
  {
    if |s| > 0 {
      CountNone(s[1..], p);
    }
  }

  /** The value strictly precedes `v` in the chosen direction. */
  function Before(v: real, desc: bool): real -> bool
  {
    x => if desc then x > v else x < v
  }

  /** The value is `v` or precedes it in the chosen direction. */
  function UpTo(v: real, desc: bool): real -> bool
  {
    x => if desc then x >= v else x <= v
  }

  /** The element at index k of the sorted values is an order statistic of the
      input: at most k values strictly precede it and at least k + 1 values
      are it or precede it. */
  lemma OrderStatistic(s: seq<real>, k: nat, desc: bool)
    requires k < |s|
    ensures var v := Sort(s, desc)[k];
      && v in s
      && Count(s, Before(v, desc)) <= k
      && Count(s, UpTo(v, desc)) >= k + 1
  {
    var t := Sort(s, desc);
    var v := t[k];
    assert v in multiset(s) by { assert v in multiset(t); }
    assert t == t[..k] + t[k..];
    assert t == t[..k + 1] + t[k + 1..];
    var tail := t[k..];
    CountAppend(t[..k], tail, Before(v, desc));
    CountNone(tail, Before(v, desc)) by {
      forall i | 0 <= i < |tail|
        ensures !Before(v, desc)(tail[i])
      {
        if i > 0 { assert InOrder(t[k], t[k + i], desc); }
      }
    }
    var head := t[..k + 1];
    CountAppend(head, t[k + 1..], UpTo(v, desc));
    CountAll(head, UpTo(v, desc)) by {
      forall i | 0 <= i < |head|
        ensures UpTo(v, desc)(head[i])
      {
        if i < k { assert InOrder(t[i], t[k], desc); }
      }
    }
    CountSort(s, desc, Before(v, desc));
    CountSort(s, desc, UpTo(v, desc));
  }
}
