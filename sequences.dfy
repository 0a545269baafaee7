/** The Python list operations that the salary queries rely on: `itertools.product`,
    the slice `s[:n]` and the stable `list.sort(key=...)`. */
module Sequences {

  // ---------------------------------------------------------------------------
  // itertools.product
  // ---------------------------------------------------------------------------

  /** Every combination that takes one element from each list, in the order
      `itertools.product(*ls)` yields them: the first list varies slowest. */
  function Product<T>(ls: seq<seq<T>>): seq<seq<T>>
    decreases |ls|
  {
    if ls == [] then [[]] else Prepend(ls[0], Product(ls[1..]))
  }

  /** For each `x` of `xs` in turn, `x` put in front of every tail. */
  function Prepend<T>(xs: seq<T>, tails: seq<seq<T>>): seq<seq<T>>
    decreases |xs|
  {
    if xs == [] then []
    else seq(|tails|, k requires 0 <= k < |tails| => [xs[0]] + tails[k]) + Prepend(xs[1..], tails)
  }

  /** The product of the lengths of the lists. */
  function Count<T>(ls: seq<seq<T>>): nat
    decreases |ls|
  {
    if ls == [] then 1 else |ls[0]| * Count(ls[1..])
  }

  /** The combination of rank `i`: `i` written in the mixed radix whose digits have the
      list lengths as bases, the most significant digit selecting from the first list. */
  function Combination<T>(ls: seq<seq<T>>, i: nat): (c: seq<T>)
    requires i < Count(ls)
    ensures |c| == |ls|
    ensures forall j :: 0 <= j < |ls| ==> c[j] in ls[j]
    decreases |ls|
  {
    if ls == [] then []
    else
      var stride := Count(ls[1..]);
      DivBelow(i, |ls[0]|, stride);
      var c := [ls[0][i / stride]] + Combination(ls[1..], i % stride);
      assert forall j :: 1 <= j < |ls| ==> c[j] == Combination(ls[1..], i % stride)[j - 1];
      c
  }

  /** The number of combinations of four lists. */
  lemma CountOfFour<T>(ls: seq<seq<T>>)
    requires |ls| == 4
    ensures Count(ls) == |ls[0]| * (|ls[1]| * (|ls[2]| * |ls[3]|))
  {
    var l1 := ls[1..];
    var l2 := l1[1..];
    var l3 := l2[1..];
    assert l3[1..] == [];
    assert Count(l3) == |ls[3]|;
    assert Count(l2) == |ls[2]| * |ls[3]|;
  }

  /** The number of combinations of six lists. */
  lemma CountOfSix<T>(ls: seq<seq<T>>)
    requires |ls| == 6
    ensures Count(ls) == |ls[0]| * (|ls[1]| * (|ls[2]| * (|ls[3]| * (|ls[4]| * |ls[5]|))))
  {
    var l2 := ls[1..][1..];
    assert l2 == ls[2..];
    CountOfFour(l2);
  }

  /** Over a single list, the combinations are its elements one at a time. */
  lemma SingleCombination<T>(xs: seq<T>, i: nat)
    requires i < |xs|
    ensures Count([xs]) == |xs| && Combination([xs], i) == [xs[i]]
  {
    assert [xs][1..] == [];
  }

  lemma DivBelow(i: nat, n: nat, stride: nat)
    requires i < n * stride
    ensures stride > 0 && i / stride < n && i % stride < stride
  {
  }

  lemma DivStep(i: nat, stride: nat)
    requires stride > 0 && i >= stride
    ensures (i - stride) / stride == i / stride - 1
    ensures (i - stride) % stride == i % stride
  {
    var q, r := (i - stride) / stride, (i - stride) % stride;
    assert i == (q + 1) * stride + r;
    DivUnique(i, stride, q + 1, r);
  }

  lemma DivUnique(i: int, stride: int, q: int, r: int)
    requires stride > 0 && 0 <= r < stride && i == q * stride + r
    ensures i / stride == q && i % stride == r
  {
    var q', r' := i / stride, i % stride;
    assert (q - q') * stride == r' - r;
    if q > q' {
      StrideGap(q - q', stride);
    } else if q < q' {
      StrideGap(q' - q, stride);
    }
  }

  lemma StrideGap(d: int, s: int)
    requires d >= 1 && s > 0
    ensures d * s >= s
  {
  }

  lemma {:induction false} PrependLength<T>(xs: seq<T>, tails: seq<seq<T>>)
    ensures |Prepend(xs, tails)| == |xs| * |tails|
    decreases |xs|
  {
    if xs != [] {
      PrependLength(xs[1..], tails);
      assert |xs| * |tails| == |tails| + (|xs| - 1) * |tails|;
    }
  }

  /** The product has exactly one combination per choice of elements. */
  lemma {:induction false} ProductLength<T>(ls: seq<seq<T>>)
    ensures |Product(ls)| == Count(ls)
    decreases |ls|
  {
    if ls != [] {
      ProductLength(ls[1..]);
      PrependLength(ls[0], Product(ls[1..]));
    }
  }

  lemma {:induction false} PrependAt<T>(xs: seq<T>, tails: seq<seq<T>>, i: nat)
    requires i < |xs| * |tails|
    ensures |tails| > 0 && i / |tails| < |xs|
    ensures (PrependLength(xs, tails); Prepend(xs, tails)[i] == [xs[i / |tails|]] + tails[i % |tails|])
    decreases |xs|
  {
    DivBelow(i, |xs|, |tails|);
    PrependLength(xs, tails);
    var s := |tails|;
    if i >= s {
      DivStep(i, s);
      assert i - s < (|xs| - 1) * s;
      PrependAt(xs[1..], tails, i - s);
      PrependLength(xs[1..], tails);
      assert Prepend(xs, tails)[i] == Prepend(xs[1..], tails)[i - s];
    } else {
      DivUnique(i, s, 0, i);
    }
  }

  /** The i-th combination `itertools.product` yields is the combination of rank i. */
  lemma {:induction false} ProductAt<T>(ls: seq<seq<T>>, i: nat)
    requires i < Count(ls)
    ensures (ProductLength(ls); Product(ls)[i] == Combination(ls, i))
    decreases |ls|
  {
    ProductLength(ls);
    if ls != [] {
      var stride := Count(ls[1..]);
      ProductLength(ls[1..]);
      PrependAt(ls[0], Product(ls[1..]), i);
      DivBelow(i, |ls[0]|, stride);
      ProductAt(ls[1..], i % stride);
    }
  }

  /** The product is empty exactly when one of the lists is empty. */
  lemma {:induction false} CountZero<T>(ls: seq<seq<T>>)
    ensures Count(ls) == 0 <==> exists j :: 0 <= j < |ls| && ls[j] == []
    decreases |ls|
  {
    if ls != [] {
      CountZero(ls[1..]);
      if Count(ls[1..]) == 0 {
        var j :| 0 <= j < |ls[1..]| && ls[1..][j] == [];
        assert ls[j + 1] == [];
      }
      if ls[0] != [] && Count(ls[1..]) != 0 {
        assert Count(ls) > 0;
        forall j | 0 <= j < |ls| ensures ls[j] != [] {
          if j > 0 { assert ls[j] == ls[1..][j - 1]; }
        }
      }
    }
  }

  lemma {:induction false} PrependMember<T>(xs: seq<T>, tails: seq<seq<T>>, c: seq<T>)
    ensures c in Prepend(xs, tails) <==> |c| > 0 && c[0] in xs && c[1..] in tails
    decreases |xs|
  {
    if xs != [] {
      PrependMember(xs[1..], tails, c);
      var block := seq(|tails|, k requires 0 <= k < |tails| => [xs[0]] + tails[k]);
      if |c| > 0 && c[0] == xs[0] && c[1..] in tails {
        var k :| 0 <= k < |tails| && tails[k] == c[1..];
        assert block[k] == c;
      }
      if c in block {
        var k :| 0 <= k < |block| && block[k] == c;
        assert c[1..] == tails[k];
      }
    }
  }

  /** A sequence is a combination of the product exactly when it takes one element from
      each list: nothing is missing and nothing else appears. */
  lemma {:induction false} ProductMember<T>(ls: seq<seq<T>>, c: seq<T>)
    ensures c in Product(ls) <==> |c| == |ls| && forall j :: 0 <= j < |ls| ==> c[j] in ls[j]
    decreases |ls|
  {
    if ls == [] {
    } else {
      PrependMember(ls[0], Product(ls[1..]), c);
      if |c| > 0 {
        ProductMember(ls[1..], c[1..]);
      }
      if |c| == |ls| {
        if forall j :: 0 <= j < |ls| ==> c[j] in ls[j] {
          forall j | 0 <= j < |ls| - 1 ensures c[1..][j] in ls[1..][j] {
            assert c[1..][j] == c[j + 1] && ls[1..][j] == ls[j + 1];
          }
          assert c[1..] in Product(ls[1..]);
          assert c[0] in ls[0];
          assert c in Product(ls);
        }
        if c in Product(ls) {
          forall j | 0 <= j < |ls| ensures c[j] in ls[j] {
            if j > 0 {
              assert c[j] == c[1..][j - 1] && ls[j] == ls[1..][j - 1];
            }
          }
        }
      }
    }
  }

  /** Every combination has one element per list. */
  lemma ProductShape<T>(ls: seq<seq<T>>)
    ensures forall i :: 0 <= i < |Product(ls)| ==> |Product(ls)[i]| == |ls|
  {
    forall i | 0 <= i < |Product(ls)| ensures |Product(ls)[i]| == |ls| {
      ProductMember(ls, Product(ls)[i]);
    }
  }

  // ---------------------------------------------------------------------------
  // Slicing
  // ---------------------------------------------------------------------------

  function Min(a: int, b: int): int { if a <= b then a else b }

  function Max(a: int, b: int): int { if a <= b then b else a }

  /** Python's `s[:n]`: the first n elements; a negative n drops the last -n. */
  function Take<T>(s: seq<T>, n: int): (r: seq<T>)
    ensures |r| == if n >= 0 then Min(n, |s|) else Max(0, |s| + n)
    ensures r == s[..|r|]
  {
    if n >= |s| then s
    else if n >= 0 then s[..n]
    else if |s| + n > 0 then s[..|s| + n]
    else []
  }

  // ---------------------------------------------------------------------------
  // Stable sort by an integer key
  // ---------------------------------------------------------------------------

  predicate SortedBy<T>(s: seq<T>, key: T -> int) {
    forall i, j :: 0 <= i < j < |s| ==> key(s[i]) <= key(s[j])
  }

  /** The elements of `s` whose key is `k`, in their order in `s`. */
  function WithKey<T>(s: seq<T>, key: T -> int, k: int): seq<T>
    decreases |s|
  {
    if s == [] then []
    else (if key(s[0]) == k then [s[0]] else []) + WithKey(s[1..], key, k)
  }

  /** Puts `x` before the first element whose key is at least its own. */
  function InsertBy<T>(x: T, s: seq<T>, key: T -> int): seq<T>
    decreases |s|
  {
    if s == [] || key(x) <= key(s[0]) then [x] + s
    else [s[0]] + InsertBy(x, s[1..], key)
  }

  /** `list.sort(key=key)`: a stable sort, here by insertion from the back. */
  function SortBy<T>(s: seq<T>, key: T -> int): seq<T>
    decreases |s|
  {
    if s == [] then [] else InsertBy(s[0], SortBy(s[1..], key), key)
  }

  lemma {:induction false} InsertByPermutes<T>(x: T, s: seq<T>, key: T -> int)
    ensures multiset(InsertBy(x, s, key)) == multiset(s) + multiset{x}
    decreases |s|
  {
    if s != [] && key(x) > key(s[0]) {
      InsertByPermutes(x, s[1..], key);
      assert s == [s[0]] + s[1..];
    }
  }

  lemma {:induction false} InsertBySorted<T>(x: T, s: seq<T>, key: T -> int)
    requires SortedBy(s, key)
    ensures SortedBy(InsertBy(x, s, key), key)
    decreases |s|
  {
    if s != [] && key(x) > key(s[0]) {
      var t := InsertBy(x, s[1..], key);
      InsertBySorted(x, s[1..], key);
      InsertByPermutes(x, s[1..], key);
      forall i | 0 <= i < |t| ensures key(s[0]) <= key(t[i]) {
        assert t[i] in multiset(t);
        if t[i] != x {
          assert t[i] in multiset(s[1..]);
          var j :| 0 <= j < |s[1..]| && s[1..][j] == t[i];
          assert s[j + 1] == t[i];
        }
      }
      assert InsertBy(x, s, key) == [s[0]] + t;
    }
  }

  /** The result of `list.sort(key=key)` is ordered by key ... */
  lemma {:induction false} SortBySorted<T>(s: seq<T>, key: T -> int)
    ensures SortedBy(SortBy(s, key), key)
    ensures multiset(SortBy(s, key)) == multiset(s)
    ensures |SortBy(s, key)| == |s|
    decreases |s|
  {
    if s != [] {
      SortBySorted(s[1..], key);
      InsertBySorted(s[0], SortBy(s[1..], key), key);
      InsertByPermutes(s[0], SortBy(s[1..], key), key);
      assert s == [s[0]] + s[1..];
    }
  }

  lemma {:induction false} WithKeyAppend<T>(a: seq<T>, b: seq<T>, key: T -> int, k: int)
    ensures WithKey(a + b, key, k) == WithKey(a, key, k) + WithKey(b, key, k)
    decreases |a|
  {
    if a == [] {
      assert a + b == b;
    } else {
      var ab := a + b;
      assert ab[0] == a[0] && ab[1..] == a[1..] + b;
      WithKeyAppend(a[1..], b, key, k);
      var h := if key(a[0]) == k then [a[0]] else [];
      assert WithKey(ab, key, k) == h + WithKey(a[1..] + b, key, k);
      assert WithKey(a, key, k) == h + WithKey(a[1..], key, k);
    }
  }

  lemma {:induction false} InsertByKeepsKeyOrder<T>(x: T, s: seq<T>, key: T -> int, k: int)
    ensures WithKey(InsertBy(x, s, key), key, k) == WithKey([x] + s, key, k)
    decreases |s|
  {
    if s != [] && key(x) > key(s[0]) {
      InsertByKeepsKeyOrder(x, s[1..], key, k);
      WithKeyAppend([s[0]], InsertBy(x, s[1..], key), key, k);
      WithKeyAppend([x], s[1..], key, k);
      WithKeyAppend([s[0]], [x] + s[1..], key, k);
      WithKeyAppend([x], s, key, k);
      assert s == [s[0]] + s[1..];
      WithKeyAppend([s[0]], s[1..], key, k);
      assert [s[0]][1..] == [] && [x][1..] == [];
    }
  }

  /** ... and stable: the elements that share a key keep their original order. */
  lemma {:induction false} SortByStable<T>(s: seq<T>, key: T -> int, k: int)
    ensures WithKey(SortBy(s, key), key, k) == WithKey(s, key, k)
    decreases |s|
  {
    if s != [] {
      SortByStable(s[1..], key, k);
      InsertByKeepsKeyOrder(s[0], SortBy(s[1..], key), key, k);
      WithKeyAppend([s[0]], SortBy(s[1..], key), key, k);
      WithKeyAppend([s[0]], s[1..], key, k);
      assert s == [s[0]] + s[1..];
    }
  }

  /** `s.sort(key); s[:n]` keeps as many elements as the slice keeps of `s`. */
  lemma TakeSortedLength<T>(s: seq<T>, key: T -> int, n: int)
    ensures |Take(SortBy(s, key), n)| == if n >= 0 then Min(n, |s|) else Max(0, |s| + n)
  {
    SortBySorted(s, key);
  }

  /** The first n elements of a sorted list are in order of their keys. */
  lemma TakeSorted<T>(s: seq<T>, key: T -> int, n: int)
    ensures SortedBy(Take(SortBy(s, key), n), key)
  {
    SortBySorted(s, key);
  }

  /** Each of the first n elements of the sorted list is taken from the list. */
  lemma TakeSortedMembers<T>(s: seq<T>, key: T -> int, n: int, x: T)
    requires x in Take(SortBy(s, key), n)
    ensures x in s
  {
    SortBySorted(s, key);
    assert x in multiset(SortBy(s, key));
  }
}
