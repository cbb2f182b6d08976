/**
 * Python's `sorted(xs, key=k)` and `xs.sort(key=k)` are stable sorts.  This module
 * models them as an insertion sort by a real-valued key and proves what callers of
 * the source rely on: the result is an ascending permutation of the input, elements
 * with equal keys keep their input order, and its head is the first element of the
 * input whose key is minimal.
 */
module StableSort {

  /** Stable ascending sort of s by key. */
  function SortBy<T>(s: seq<T>, key: T -> real): (r: seq<T>)
    ensures |r| == |s|
    ensures multiset(r) == multiset(s)
    decreases |s|
  {
    if |s| == 0 then []
    else
      assert s == s[..|s| - 1] + [s[|s| - 1]];
      InsertBy(SortBy(s[..|s| - 1], key), s[|s| - 1], key)
  }

  /** Inserts x after every trailing element of s whose key exceeds key(x) has been passed. */
  function InsertBy<T>(s: seq<T>, x: T, key: T -> real): (r: seq<T>)
    ensures |r| == |s| + 1
    ensures multiset(r) == multiset(s) + multiset{x}
  {
    if |s| == 0 then [x]
    else if key(s[|s| - 1]) <= key(x) then s + [x]
    else
      assert s == s[..|s| - 1] + [s[|s| - 1]];
      InsertBy(s[..|s| - 1], x, key) + [s[|s| - 1]]
  }

  ghost predicate SortedBy<T>(s: seq<T>, key: T -> real)
  {
    forall i, j :: 0 <= i < j < |s| ==> key(s[i]) <= key(s[j])
  }

  /** The elements of s whose key equals k, in their order in s. */
  function WithKey<T>(s: seq<T>, key: T -> real, k: real): (r: seq<T>)
    ensures |r| <= |s|
  {
    if |s| == 0 then []
    else (if key(s[0]) == k then [s[0]] else []) + WithKey(s[1..], key, k)
  }

  /** Index of the first element of s whose key is minimal. */
  function FirstMin<T>(s: seq<T>, key: T -> real): (i: nat)
    requires |s| > 0
    ensures i < |s|
    ensures forall j :: 0 <= j < |s| ==> key(s[i]) <= key(s[j])
    ensures forall j :: 0 <= j < i ==> key(s[j]) > key(s[i])
  {
    if |s| == 1 then 0
    else
      var j := 1 + FirstMin(s[1..], key);
      if key(s[0]) <= key(s[j]) then 0 else j
  }

  lemma {:induction false} WithKeyAppend<T>(a: seq<T>, b: seq<T>, key: T -> real, k: real)
    ensures WithKey(a + b, key, k) == WithKey(a, key, k) + WithKey(b, key, k)
    decreases |a|
  {
    if |a| == 0 {
      assert a + b == b;
    } else {
      var ab := a + b;
      assert ab[0] == a[0];
      assert ab[1..] == a[1..] + b;
      WithKeyAppend(a[1..], b, key, k);
      var h := if key(a[0]) == k then [a[0]] else [];
      calc {
        WithKey(ab, key, k);
        h + WithKey(ab[1..], key, k);
        h + (WithKey(a[1..], key, k) + WithKey(b, key, k));
        (h + WithKey(a[1..], key, k)) + WithKey(b, key, k);
        WithKey(a, key, k) + WithKey(b, key, k);
      }
    }
  }

  /** Every element of InsertBy(s, x) is x or an element of s. */
  lemma InsertByElements<T>(s: seq<T>, x: T, key: T -> real, i: nat)
    requires i < |s| + 1
    ensures InsertBy(s, x, key)[i] == x || InsertBy(s, x, key)[i] in s
  {
    var r := InsertBy(s, x, key);
    assert r[i] in multiset(r);
  }

  lemma {:induction false} InsertBySorted<T>(s: seq<T>, x: T, key: T -> real)
    requires SortedBy(s, key)
    ensures SortedBy(InsertBy(s, x, key), key)
    decreases |s|
  {
    if |s| > 0 && key(s[|s| - 1]) > key(x) {
      var init, last := s[..|s| - 1], s[|s| - 1];
      InsertBySorted(init, x, key);
      var ins := InsertBy(init, x, key);
      assert InsertBy(s, x, key) == ins + [last];
      forall i | 0 <= i < |ins| ensures key(ins[i]) <= key(last) {
        InsertByElements(init, x, key, i);
        if ins[i] != x {
          var j :| 0 <= j < |init| && init[j] == ins[i];
          assert key(s[j]) <= key(s[|s| - 1]);
        }
      }
    }
  }

  lemma {:induction false} InsertByWithKey<T>(s: seq<T>, x: T, key: T -> real, k: real)
    requires SortedBy(s, key)
    ensures WithKey(InsertBy(s, x, key), key, k) == WithKey(s, key, k) + WithKey([x], key, k)
    decreases |s|
  {
    if |s| == 0 {
    } else if key(s[|s| - 1]) <= key(x) {
      WithKeyAppend(s, [x], key, k);
    } else {
      var init, last := s[..|s| - 1], s[|s| - 1];
      assert s == init + [last];
      assert SortedBy(init, key) by {
        forall a, b | 0 <= a < b < |init| ensures key(init[a]) <= key(init[b]) {
          assert init[a] == s[a] && init[b] == s[b];
        }
      }
      InsertByWithKey(init, x, key, k);
      var ins := InsertBy(init, x, key);
      assert InsertBy(s, x, key) == ins + [last];
      InsertStep(init, last, x, ins, key, k);
    }
  }

  /** The step of InsertByWithKey where x goes before the last element. */
  lemma InsertStep<T>(init: seq<T>, last: T, x: T, ins: seq<T>, key: T -> real, k: real)
    requires WithKey(ins, key, k) == WithKey(init, key, k) + WithKey([x], key, k)
    requires key(last) > key(x)
    ensures WithKey(ins + [last], key, k) == WithKey(init + [last], key, k) + WithKey([x], key, k)
  {
    WithKeyAppend(ins, [last], key, k);
    WithKeyAppend(init, [last], key, k);
    var wx, wl := WithKey([x], key, k), WithKey([last], key, k);
    assert [x][1..] == [] && [last][1..] == [];
    assert wl == [] || wx == [];
  }

  /** The sort is ascending and stable: for every key value, the elements with that key
      appear in the output exactly as they appear in the input. */
  lemma {:induction false} SortBySortedAndStable<T>(s: seq<T>, key: T -> real)
    ensures SortedBy(SortBy(s, key), key)
    ensures forall k :: WithKey(SortBy(s, key), key, k) == WithKey(s, key, k)
    decreases |s|
  {
    if |s| > 0 {
      var init, last := s[..|s| - 1], s[|s| - 1];
      assert s == init + [last];
      SortBySortedAndStable(init, key);
      InsertBySorted(SortBy(init, key), last, key);
      forall k ensures WithKey(SortBy(s, key), key, k) == WithKey(s, key, k) {
        InsertByWithKey(SortBy(init, key), last, key, k);
        WithKeyAppend(init, [last], key, k);
      }
    }
  }

  lemma {:induction false} WithKeyFirst<T>(s: seq<T>, key: T -> real, i: nat)
    requires i < |s|
    requires forall j :: 0 <= j < i ==> key(s[j]) != key(s[i])
    ensures |WithKey(s, key, key(s[i]))| > 0 && WithKey(s, key, key(s[i]))[0] == s[i]
    decreases i
  {
    if i > 0 {
      WithKeyFirst(s[1..], key, i - 1);
    }
  }

  /** The head of the sorted sequence is the first element of the input with minimal key:
      `sorted(xs, key=k)[0]` picks the earliest best candidate. */
  lemma SortByHead<T>(s: seq<T>, key: T -> real)
    requires |s| > 0
    ensures SortBy(s, key)[0] == s[FirstMin(s, key)]
  {
    var r := SortBy(s, key);
    var i := FirstMin(s, key);
    SortBySortedAndStable(s, key);
    SortedHeadKey(r, s, key, i);
    var m := key(s[i]);
    assert WithKey(r, key, m) == WithKey(s, key, m);
    WithKeyFirst(r, key, 0);
    WithKeyFirst(s, key, i);
  }

  /** The head of an ascending permutation of s carries the minimal key of s. */
  lemma SortedHeadKey<T>(r: seq<T>, s: seq<T>, key: T -> real, i: nat)
    requires |r| > 0 && i < |s|
    requires SortedBy(r, key) && multiset(r) == multiset(s)
    requires forall j :: 0 <= j < |s| ==> key(s[i]) <= key(s[j])
    ensures key(r[0]) == key(s[i])
  {
    assert r[0] in multiset(s);
    var j0 :| 0 <= j0 < |s| && s[j0] == r[0];
    assert s[i] in multiset(r);
    var p :| 0 <= p < |r| && r[p] == s[i];
    assert key(r[0]) <= key(r[p]);
  }
}
