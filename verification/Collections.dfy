/** Sums, multisets and sorting shared by the placement, preemption and ledger models. */
module Collections {

  datatype Option<+T> = None | Some(value: T)

  datatype Result<+T, +E> = Ok(value: T) | Err(error: E)

  // ---------- Sums over sequences ----------

  /** Sum of weight over s, from the left. */
  function Sum<T>(s: seq<T>, weight: T -> int): int {
    if s == [] then 0 else weight(s[0]) + Sum(s[1..], weight)
  }

  lemma {:induction false} SumConcat<T>(a: seq<T>, b: seq<T>, weight: T -> int)
    ensures Sum(a + b, weight) == Sum(a, weight) + Sum(b, weight)
  {
    if a == [] {
      assert a + b == b;
    } else {
      assert (a + b)[1..] == a[1..] + b;
      SumConcat(a[1..], b, weight);
    }
  }

  lemma SumAppend<T>(s: seq<T>, x: T, weight: T -> int)
    ensures Sum(s + [x], weight) == Sum(s, weight) + weight(x)
  {
    SumConcat(s, [x], weight);
  }

  /** The sum with position i taken out. */
  lemma SumRemove<T>(s: seq<T>, i: nat, weight: T -> int)
    requires i < |s|
    ensures Sum(s, weight) == weight(s[i]) + Sum(s[..i] + s[i + 1..], weight)
  {
    var before, x, after := s[..i], s[i], s[i + 1..];
    assert s == before + ([x] + after);
    SumConcat(before, [x] + after, weight);
    SumConcat(before, after, weight);
    assert ([x] + after)[1..] == after;
  }

  lemma MultisetRemove<T>(s: seq<T>, i: nat)
    requires i < |s|
    ensures multiset(s[..i] + s[i + 1..]) == multiset(s) - multiset{s[i]}
  {
    assert s == s[..i] + ([s[i]] + s[i + 1..]);
  }

  lemma CountAfterAppend<T>(s: seq<T>, x: T, y: T)
    ensures multiset(s + [x])[y] == multiset(s)[y] + (if x == y then 1 else 0)
  {
  }

  lemma IndexOfMember<T>(s: seq<T>, x: T) returns (i: nat)
    requires x in multiset(s)
    ensures i < |s| && s[i] == x
  {
    assert x in s;
    i :| 0 <= i < |s| && s[i] == x;
  }

  /** Without the first element of a, found again at position i of b, the two are still permutations. */
  lemma SameRest<T>(a: seq<T>, b: seq<T>) returns (i: nat, rest: seq<T>)
    requires multiset(a) == multiset(b) && a != []
    ensures i < |b| && b[i] == a[0] && rest == b[..i] + b[i + 1..]
    ensures multiset(a[1..]) == multiset(rest)
  {
    assert a[0] in multiset(a);
    i := IndexOfMember(b, a[0]);
    rest := b[..i] + b[i + 1..];
    MultisetRemove(a, 0);
    MultisetRemove(b, i);
    assert a[..0] + a[1..] == a[1..];
  }

  /** A sum depends only on how often each element occurs. */
  lemma {:induction false} SumOfPermutation<T>(a: seq<T>, b: seq<T>, weight: T -> int)
    requires multiset(a) == multiset(b)
    ensures Sum(a, weight) == Sum(b, weight)
    decreases |a|
  {
    if a == [] {
      assert |multiset(b)| == 0;
    } else {
      var i, rest := SameRest(a, b);
      SumOfPermutation(a[1..], rest, weight);
      SumRemove(b, i, weight);
    }
  }

  // ---------- Least sum: the sorted prefix ----------

  ghost predicate Ascending<T>(s: seq<T>, weight: T -> int) {
    forall i, j :: 0 <= i < j < |s| ==> weight(s[i]) <= weight(s[j])
  }

  /** Of all ways to choose k elements from an ascending sequence, the first k weigh least. */
  lemma {:induction false} PrefixIsLeast<T>(s: seq<T>, choice: seq<T>, weight: T -> int)
    requires Ascending(s, weight)
    requires multiset(choice) <= multiset(s)
    ensures |choice| <= |s|
    ensures Sum(s[..|choice|], weight) <= Sum(choice, weight)
    decreases |s|, 1
  {
    SubsetIsNoLonger(choice, s);
    if |choice| == |s| {
      SubsetOfSameSize(choice, s);
      SumOfPermutation(choice, s, weight);
      assert s[..|choice|] == s;
    } else {
      PrefixIsLeastStep(s[..|s| - 1], s[|s| - 1], s, choice, weight);
    }
  }

  lemma {:induction false} PrefixIsLeastStep<T>(init: seq<T>, x: T, s: seq<T>, choice: seq<T>, weight: T -> int)
    requires s == init + [x] && Ascending(s, weight)
    requires multiset(choice) <= multiset(s) && |choice| < |s|
    ensures Sum(s[..|choice|], weight) <= Sum(choice, weight)
    decreases |s|, 0
  {
    var k := |choice|;
    assert s[..k] == init[..k];
    assert Ascending(init, weight) by {
      assert forall i :: 0 <= i < |init| ==> s[i] == init[i];
    }
    if multiset(choice) <= multiset(init) {
      PrefixIsLeast(init, choice, weight);
    } else {
      var rest := ChoiceWithoutLast(init, x, choice, weight);
      PrefixIsLeast(init, rest, weight);
      TakeNext(init, k - 1, weight);
      assert init[k - 1] == s[k - 1] && s[|s| - 1] == x;
    }
  }

  /** A choice from init + [x] that is none from init uses x; without x it is one. */
  lemma ChoiceWithoutLast<T>(init: seq<T>, x: T, choice: seq<T>, weight: T -> int) returns (rest: seq<T>)
    requires multiset(choice) <= multiset(init + [x])
    requires !(multiset(choice) <= multiset(init))
    ensures multiset(rest) <= multiset(init) && |rest| == |choice| - 1
    ensures Sum(choice, weight) == weight(x) + Sum(rest, weight)
  {
    assert multiset(init + [x]) == multiset(init) + multiset{x};
    var i := IndexOfMember(choice, x);
    rest := choice[..i] + choice[i + 1..];
    MultisetRemove(choice, i);
    SumRemove(choice, i, weight);
  }

  lemma TakeNext<T>(s: seq<T>, k: nat, weight: T -> int)
    requires k < |s|
    ensures Sum(s[..k + 1], weight) == Sum(s[..k], weight) + weight(s[k])
  {
    assert s[..k + 1] == s[..k] + [s[k]];
    SumAppend(s[..k], s[k], weight);
  }

  lemma SubsetOfSameSize<T>(a: seq<T>, b: seq<T>)
    requires multiset(a) <= multiset(b) && |a| == |b|
    ensures multiset(a) == multiset(b)
  {
    var rest := multiset(b) - multiset(a);
    assert multiset(b) == multiset(a) + rest;
    assert |rest| == 0;
  }

  lemma SubsetIsNoLonger<T>(a: seq<T>, b: seq<T>)
    requires multiset(a) <= multiset(b)
    ensures |a| <= |b|
  {
    var rest := multiset(b) - multiset(a);
    assert multiset(b) == multiset(a) + rest;
    assert |multiset(a)| == |a| && |multiset(b)| == |b|;
  }

  // ---------- sort.Slice ----------

  /** What sort.Slice asks of its less function. */
  ghost predicate StrictWeakOrder<T(!new)>(less: (T, T) -> bool) {
    && (forall a, b :: less(a, b) ==> !less(b, a))
    && (forall a, b, c :: !less(b, a) && !less(c, b) ==> !less(c, a))
  }

  ghost predicate SortedBy<T>(s: seq<T>, less: (T, T) -> bool) {
    forall i, j :: 0 <= i < j < |s| ==> !less(s[j], s[i])
  }

  /** sort.Slice: some sorted permutation. Callers learn nothing about the order of equal elements. */
  method SortSlice<T(!new)>(s: seq<T>, less: (T, T) -> bool) returns (r: seq<T>)
    requires StrictWeakOrder(less)
    ensures multiset(r) == multiset(s) && |r| == |s|
    ensures SortedBy(r, less)
  {
    r := [];
    var i := 0;
    while i < |s|
      invariant 0 <= i <= |s|
      invariant multiset(r) == multiset(s[..i]) && |r| == i
      invariant SortedBy(r, less)
    {
      assert s[..i + 1] == s[..i] + [s[i]];
      r := Insert(r, s[i], less);
      i := i + 1;
    }
    assert s[..|s|] == s;
  }

  method Insert<T(!new)>(s: seq<T>, x: T, less: (T, T) -> bool) returns (r: seq<T>)
    requires StrictWeakOrder(less)
    requires SortedBy(s, less)
    ensures multiset(r) == multiset(s) + multiset{x} && |r| == |s| + 1
    ensures SortedBy(r, less)
  {
    var p := |s|;
    while 0 < p && less(x, s[p - 1])
      invariant 0 <= p <= |s|
      invariant forall i :: p <= i < |s| ==> less(x, s[i])
    {
      p := p - 1;
    }
    r := s[..p] + [x] + s[p..];
    assert s == s[..p] + s[p..];
    InsertKeepsSorted(s, p, x, less);
  }

  lemma InsertKeepsSorted<T(!new)>(s: seq<T>, p: nat, x: T, less: (T, T) -> bool)
    requires StrictWeakOrder(less) && SortedBy(s, less) && p <= |s|
    requires p > 0 ==> !less(x, s[p - 1])
    requires forall i :: p <= i < |s| ==> less(x, s[i])
    ensures SortedBy(s[..p] + [x] + s[p..], less)
  {
    var r := s[..p] + [x] + s[p..];
    forall i, j | 0 <= i < j < |r|
      ensures !less(r[j], r[i])
    {
      if j == p && i < p - 1 {
        assert !less(s[p - 1], s[i]);
      }
    }
  }

  // ---------- Sums over maps ----------

  /** Sum of all values of a map, taken in some order. */
  ghost function SumMap<K>(m: map<K, int>): int
    decreases |m|
  {
    if m == map[] then 0
    else
      var k :| k in m;
      m[k] + SumMap(m - {k})
  }

  lemma {:induction false} SumMapRemove<K>(m: map<K, int>, k: K)
    requires k in m
    ensures SumMap(m) == m[k] + SumMap(m - {k})
    decreases |m|
  {
    var c :| c in m && SumMap(m) == m[c] + SumMap(m - {c});
    if c != k {
      SumMapRemove(m - {c}, k);
      assert m - {c} - {k} == m - {k} - {c};
      SumMapRemove(m - {k}, c);
    }
  }

  lemma SumMapPut<K>(m: map<K, int>, k: K, v: int)
    ensures SumMap(m[k := v]) == v + SumMap(m - {k})
    ensures k !in m ==> SumMap(m[k := v]) == v + SumMap(m)
    ensures k in m ==> SumMap(m[k := v]) == SumMap(m) - m[k] + v
  {
    SumMapRemove(m[k := v], k);
    assert m[k := v] - {k} == m - {k};
    if k in m {
      SumMapRemove(m, k);
    } else {
      assert m - {k} == m;
    }
  }

  lemma {:induction false} SumMapNonNegative<K>(m: map<K, int>)
    requires forall k :: k in m ==> m[k] >= 0
    ensures SumMap(m) >= 0
    decreases |m|
  {
    if m != map[] {
      var c :| c in m && SumMap(m) == m[c] + SumMap(m - {c});
      SumMapNonNegative(m - {c});
    }
  }
}
