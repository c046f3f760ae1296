/**
 * `Array.prototype.sort(compare)` as the pages use it. ECMA-262 has required
 * this sort to be stable since its 2019 edition, so the model is an in-place
 * stable insertion sort driven by the source's own comparator: an element
 * moves left past its neighbour only while `compare(neighbour, x) > 0`.
 *
 * Every comparator in the source compares one sort key of the two elements:
 * a number by subtraction (`a.price - b.price`, `b.getTime() - a.getTime()`)
 * or a string by `localeCompare`. A `Key` carries that key, and
 * `Comparator` is the source's comparator on keys. `localeCompare` is
 * modelled by lexicographic order on character codes.
 */
module StableSort {
  import opened Common

  datatype Key = Number(n: real) | Text(s: string)

  /** Lexicographic three-way comparison of strings by character code. */
  function TextCompare(a: string, b: string): (r: int)
    ensures -1 <= r <= 1
  {
    if a == [] && b == [] then 0
    else if a == [] then -1
    else if b == [] then 1
    else if a[0] < b[0] then -1
    else if a[0] > b[0] then 1
    else TextCompare(a[1..], b[1..])
  }

  lemma {:induction false} TextCompareZero(a: string, b: string)
    ensures TextCompare(a, b) == 0 <==> a == b
  {
    if a != [] && b != [] && a[0] == b[0] {
      TextCompareZero(a[1..], b[1..]);
      assert a == [a[0]] + a[1..] && b == [b[0]] + b[1..];
    }
  }

  lemma {:induction false} TextCompareAntisymmetric(a: string, b: string)
    ensures TextCompare(a, b) == -TextCompare(b, a)
  {
    if a != [] && b != [] && a[0] == b[0] {
      TextCompareAntisymmetric(a[1..], b[1..]);
    }
  }

  lemma {:induction false} TextCompareTransitive(a: string, b: string, c: string)
    requires TextCompare(a, b) <= 0 && TextCompare(b, c) <= 0
    ensures TextCompare(a, c) <= 0
  {
    if a != [] && b != [] && c != [] && a[0] == b[0] == c[0] {
      TextCompareTransitive(a[1..], b[1..], c[1..]);
    }
  }

  /** The source's comparator, applied to the two elements' keys. The mixed
      cases never arise (one sort uses one kind of key); they are ordered
      numbers-first so that the comparator is total. */
  function Comparator(a: Key, b: Key): (r: real)
    // numbers ascend: negative, zero or positive as `a` is below, equal to or above `b`
    ensures a.Number? && b.Number? ==> (r < 0.0 <==> a.n < b.n) && (r > 0.0 <==> a.n > b.n)
    // strings give the three-way result of `TextCompare`
    ensures a.Text? && b.Text? ==> r in {-1.0, 0.0, 1.0}
    ensures a.Number? && b.Text? ==> r < 0.0
  {
    match (a, b)
    case (Number(x), Number(y)) => x - y
    case (Text(x), Text(y)) => TextCompare(x, y) as real
    case (Number(_), Text(_)) => -1.0
    case (Text(_), Number(_)) => 1.0
  }

  /** The comparator says "equal" exactly for equal keys. */
  lemma ComparatorZero(a: Key, b: Key)
    ensures Comparator(a, b) == 0.0 <==> a == b
  {
    if a.Text? && b.Text? {
      TextCompareZero(a.s, b.s);
    }
  }

  lemma ComparatorAntisymmetric(a: Key, b: Key)
    ensures Comparator(a, b) == -Comparator(b, a)
  {
    if a.Text? && b.Text? {
      TextCompareAntisymmetric(a.s, b.s);
    }
  }

  lemma ComparatorTransitive(a: Key, b: Key, c: Key)
    requires Comparator(a, b) <= 0.0 && Comparator(b, c) <= 0.0
    ensures Comparator(a, c) <= 0.0
  {
    if a.Text? && b.Text? && c.Text? {
      TextCompareTransitive(a.s, b.s, c.s);
    }
  }

  /** Every adjacent-or-not pair of `s` is in comparator order. */
  ghost predicate Sorted<T>(s: seq<T>, key: T -> Key)
  {
    forall i, j :: 0 <= i < j < |s| ==> Comparator(key(s[i]), key(s[j])) <= 0.0
  }

  /** Inserting `x` after the sorted prefix `t`: `x` moves left only past
      elements the comparator puts strictly after it. */
  function Insert<T>(t: seq<T>, x: T, key: T -> Key): (r: seq<T>)
    ensures |r| == |t| + 1
  {
    if t == [] then [x]
    else if Comparator(key(t[|t| - 1]), key(x)) > 0.0 then Insert(t[..|t| - 1], x, key) + [t[|t| - 1]]
    else t + [x]
  }

  /** The stable sort of `s`: insert its elements one at a time, left to right. */
  function Sort<T>(s: seq<T>, key: T -> Key): (r: seq<T>)
    ensures |r| == |s|
  {
    if s == [] then [] else Insert(Sort(s[..|s| - 1], key), s[|s| - 1], key)
  }

  /** The elements of `s` whose sort key is `k`, in order. */
  function WithKey<T>(s: seq<T>, key: T -> Key, k: Key): seq<T>
  {
    Filter(s, HasKey(key, k))
  }

  function HasKey<T>(key: T -> Key, k: Key): T -> bool
  {
    x => key(x) == k
  }

  lemma {:induction false} InsertPermutes<T>(t: seq<T>, x: T, key: T -> Key)
    ensures multiset(Insert(t, x, key)) == multiset(t) + multiset{x}
  {
    if t != [] && Comparator(key(t[|t| - 1]), key(x)) > 0.0 {
      var init, last := t[..|t| - 1], t[|t| - 1];
      InsertPermutes(init, x, key);
      assert Insert(t, x, key) == Insert(init, x, key) + [last];
      assert t == init + [last];
    }
  }

  /** The sort returns a permutation of its input. */
  lemma {:induction false} SortPermutes<T>(s: seq<T>, key: T -> Key)
    ensures multiset(Sort(s, key)) == multiset(s)
    ensures |Sort(s, key)| == |s|
  {
    if s != [] {
      var init, last := s[..|s| - 1], s[|s| - 1];
      var sorted := Sort(init, key);
      SortPermutes(init, key);
      InsertPermutes(sorted, last, key);
      assert Sort(s, key) == Insert(sorted, last, key);
      assert s == init + [last];
      assert multiset(s) == multiset(init) + multiset{last};
    }
  }

  lemma SortedSnoc<T>(u: seq<T>, y: T, key: T -> Key)
    requires Sorted(u, key)
    requires forall i :: 0 <= i < |u| ==> Comparator(key(u[i]), key(y)) <= 0.0
    ensures Sorted(u + [y], key)
  {
    var v := u + [y];
    forall i, j | 0 <= i < j < |v|
      ensures Comparator(key(v[i]), key(v[j])) <= 0.0
    {
      if j < |u| {
        assert v[i] == u[i] && v[j] == u[j];
      }
    }
  }

  /** Insertion adds only `x`, so a common upper bound of `t` and `x` bounds
      the result. */
  lemma InsertBounded<T>(t: seq<T>, x: T, y: T, key: T -> Key)
    requires forall i :: 0 <= i < |t| ==> Comparator(key(t[i]), key(y)) <= 0.0
    requires Comparator(key(x), key(y)) <= 0.0
    ensures forall i :: 0 <= i < |Insert(t, x, key)| ==> Comparator(key(Insert(t, x, key)[i]), key(y)) <= 0.0
  {
    var u := Insert(t, x, key);
    InsertPermutes(t, x, key);
    forall i | 0 <= i < |u|
      ensures Comparator(key(u[i]), key(y)) <= 0.0
    {
      assert u[i] in multiset(u);
      if u[i] != x {
        assert u[i] in multiset(t);
        var m :| 0 <= m < |t| && t[m] == u[i];
      }
    }
  }

  lemma {:induction false} InsertSorted<T>(t: seq<T>, x: T, key: T -> Key)
    requires Sorted(t, key)
    ensures Sorted(Insert(t, x, key), key)
  {
    if t != [] {
      var init, last := t[..|t| - 1], t[|t| - 1];
      assert forall i :: 0 <= i < |init| ==> init[i] == t[i];
      if Comparator(key(last), key(x)) > 0.0 {
        assert Sorted(init, key);
        InsertSorted(init, x, key);
        ComparatorAntisymmetric(key(last), key(x));
        InsertBounded(init, x, last, key);
        SortedSnoc(Insert(init, x, key), last, key);
      } else {
        forall i | 0 <= i < |t|
          ensures Comparator(key(t[i]), key(x)) <= 0.0
        {
          if i < |t| - 1 {
            ComparatorTransitive(key(t[i]), key(last), key(x));
          }
        }
        SortedSnoc(t, x, key);
      }
    }
  }

  /** The sort's result is ordered by the comparator. */
  lemma {:induction false} SortSorted<T>(s: seq<T>, key: T -> Key)
    ensures Sorted(Sort(s, key), key)
  {
    if s != [] {
      SortSorted(s[..|s| - 1], key);
      InsertSorted(Sort(s[..|s| - 1], key), s[|s| - 1], key);
    }
  }

  lemma WithKeySingle<T>(x: T, key: T -> Key, k: Key)
    ensures WithKey([x], key, k) == if key(x) == k then [x] else []
  {
    assert [x][..0] == [];
  }

  /** Two elements with different keys cannot both have key `k`, so their
      order does not matter to `WithKey`. */
  lemma WithKeySwap<T>(x: T, y: T, key: T -> Key, k: Key)
    requires key(x) != key(y)
    ensures WithKey([x], key, k) + WithKey([y], key, k) == WithKey([y], key, k) + WithKey([x], key, k)
  {
    WithKeySingle(x, key, k);
    WithKeySingle(y, key, k);
  }

  lemma {:induction false} InsertStable<T>(t: seq<T>, x: T, key: T -> Key, k: Key)
    ensures WithKey(Insert(t, x, key), key, k) == WithKey(t, key, k) + WithKey([x], key, k)
  {
    var p := HasKey(key, k);
    if t == [] {
      assert Insert(t, x, key) == [x];
      assert WithKey(t, key, k) == [];
    } else {
      var init, last := t[..|t| - 1], t[|t| - 1];
      if Comparator(key(last), key(x)) > 0.0 {
        ComparatorZero(key(last), key(x));
        assert t == init + [last];
        calc {
          WithKey(Insert(t, x, key), key, k);
          { assert Insert(t, x, key) == Insert(init, x, key) + [last]; }
          Filter(Insert(init, x, key) + [last], p);
          { FilterAppend(Insert(init, x, key), [last], p); }
          WithKey(Insert(init, x, key), key, k) + WithKey([last], key, k);
          { InsertStable(init, x, key, k); }
          WithKey(init, key, k) + (WithKey([x], key, k) + WithKey([last], key, k));
          { WithKeySwap(x, last, key, k); }
          (WithKey(init, key, k) + WithKey([last], key, k)) + WithKey([x], key, k);
          { FilterAppend(init, [last], p); }
          WithKey(t, key, k) + WithKey([x], key, k);
        }
      } else {
        assert Insert(t, x, key) == t + [x];
        FilterAppend(t, [x], p);
      }
    }
  }

  /** Stability: among elements with equal keys, the sort keeps the input
      order. */
  lemma {:induction false} SortStable<T>(s: seq<T>, key: T -> Key, k: Key)
    ensures WithKey(Sort(s, key), key, k) == WithKey(s, key, k)
  {
    if s != [] {
      var init, last := s[..|s| - 1], s[|s| - 1];
      SortStable(init, key, k);
      InsertStable(Sort(init, key), last, key, k);
      assert s == init + [last];
      FilterAppend(init, [last], HasKey(key, k));
    }
  }

  /** Moving `x` left past one element the comparator puts after it. */
  lemma InsertStep<T>(t: seq<T>, x: T, key: T -> Key, j: nat)
    requires 0 < j <= |t|
    requires Comparator(key(t[j - 1]), key(x)) > 0.0
    ensures Insert(t[..j], x, key) + t[j..] == Insert(t[..j - 1], x, key) + t[j - 1..]
  {
    var u := t[..j];
    assert u[..|u| - 1] == t[..j - 1];
    assert Insert(u, x, key) == Insert(t[..j - 1], x, key) + [t[j - 1]];
    assert t[j - 1..] == [t[j - 1]] + t[j..];
  }

  /** Where the insertion pass stops, `x` is in its final place. */
  lemma InsertLanded<T>(t: seq<T>, x: T, key: T -> Key, j: nat)
    requires j <= |t|
    requires Insert(t, x, key) == Insert(t[..j], x, key) + t[j..]
    requires j > 0 ==> Comparator(key(t[j - 1]), key(x)) <= 0.0
    ensures Insert(t, x, key) == t[..j] + [x] + t[j..]
  {
    var u := t[..j];
    if j == 0 {
      assert u == [];
    } else {
      assert u[|u| - 1] == t[j - 1];
      assert Insert(u, x, key) == u + [x];
    }
  }

  /** The array during an insertion pass: the prefix `t[..j]`, a hole at
      `j` holding `h`, the shifted `t[j..]`, then the untouched `rest`. */
  function WithHole<T>(t: seq<T>, j: nat, h: T, rest: seq<T>): seq<T>
    requires j <= |t|
  {
    t[..j] + [h] + t[j..] + rest
  }

  /** Copying the neighbour into the hole moves the hole one place left. */
  lemma ShiftHole<T>(t: seq<T>, j: nat, h: T, rest: seq<T>)
    requires 0 < j <= |t|
    ensures WithHole(t, j, h, rest)[j - 1] == t[j - 1]
    ensures WithHole(t, j, h, rest)[j := t[j - 1]] == WithHole(t, j - 1, t[j - 1], rest)
  {
    var u, v := WithHole(t, j, h, rest)[j := t[j - 1]], WithHole(t, j - 1, t[j - 1], rest);
    assert |u| == |v|;
    forall k | 0 <= k < |u|
      ensures u[k] == v[k]
    {
      if k < j - 1 {
      } else if k <= j {
      } else if k <= |t| {
        assert u[k] == t[k - 1] == v[k];
      } else {
        assert u[k] == rest[k - |t| - 1] == v[k];
      }
    }
  }

  /** Filling the hole with `x` leaves `W + rest` where `W` has length |t| + 1. */
  lemma FillHole<T>(t: seq<T>, j: nat, h: T, x: T, rest: seq<T>)
    requires j <= |t|
    ensures var w := t[..j] + [x] + t[j..];
      && WithHole(t, j, h, rest)[j := x] == w + rest
      && (w + rest)[..|t| + 1] == w && (w + rest)[|t| + 1..] == rest
  {
    var w := t[..j] + [x] + t[j..];
    var u := WithHole(t, j, h, rest)[j := x];
    assert |u| == |w + rest|;
    forall k | 0 <= k < |u|
      ensures u[k] == (w + rest)[k]
    {
    }
  }

  /** One pass of the insertion sort: `a[i]` moves left into the sorted
      prefix `a[..i]`. */
  method InsertInPlace<T>(a: array<T>, i: nat, key: T -> Key)
    requires i < a.Length
    modifies a
    ensures a[..i + 1] == Insert(old(a[..i]), old(a[i]), key)
    ensures a[i + 1..] == old(a[i + 1..])
  {
    var x := a[i];
    ghost var t, rest := a[..i], a[i + 1..];
    ghost var h := x;
    var j := i;
    assert a[..] == a[..i] + [a[i]] + a[i + 1..];
    assert t[..j] == t && t[j..] == [];
    while j > 0 && Comparator(key(a[j - 1]), key(x)) > 0.0
      invariant 0 <= j <= i == |t|
      invariant a[..] == WithHole(t, j, h, rest)
      invariant Insert(t, x, key) == Insert(t[..j], x, key) + t[j..]
    {
      ShiftHole(t, j, h, rest);
      InsertStep(t, x, key, j);
      ghost var before := a[..];
      a[j] := a[j - 1];
      assert a[..] == before[j := t[j - 1]];
      h := t[j - 1];
      j := j - 1;
    }
    if j > 0 {
      ShiftHole(t, j, h, rest);
    }
    InsertLanded(t, x, key, j);
    ghost var before := a[..];
    a[j] := x;
    assert a[..] == before[j := x];
    FillHole(t, j, h, x, rest);
  }

  /** `a.sort(compare)` in place. */
  method SortInPlace<T>(a: array<T>, key: T -> Key)
    modifies a
    ensures a[..] == Sort(old(a[..]), key)
  {
    ghost var s := a[..];
    var i := 0;
    while i < a.Length
      invariant 0 <= i <= a.Length
      invariant a[..i] == Sort(s[..i], key)
      invariant a[i..] == s[i..]
    {
      InsertInPlace(a, i, key);
      assert s[..i + 1][..i] == s[..i];
      i := i + 1;
    }
    assert s[..a.Length] == s;
  }
}
