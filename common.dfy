/** Shared vocabulary of the model: optional values (JavaScript `undefined`
    and `null`) and the left-to-right `reduce` sums and `filter`s the
    dashboard uses to aggregate entries. */
module Common {

  /** A value that may be absent (`undefined`, `null`, a missing key). */
  datatype Option<+T> = None | Some(value: T)

  /** `xs.reduce((sum, x) => sum + f(x), 0)` over a sequence: folded from the
      left, so it is defined by peeling off the LAST element. */
  function Sum<T>(xs: seq<T>, f: T -> real): real
  {
    if xs == [] then 0.0 else Sum(xs[..|xs| - 1], f) + f(xs[|xs| - 1])
  }

  /** The same fold over integer values (share percentages are integers). */
  function SumInt<T>(xs: seq<T>, f: T -> int): int
  {
    if xs == [] then 0 else SumInt(xs[..|xs| - 1], f) + f(xs[|xs| - 1])
  }

  /** `xs.filter(p)`: keeps the elements that satisfy `p`, in order. */
  function Filter<T>(xs: seq<T>, p: T -> bool): (r: seq<T>)
    ensures |r| <= |xs|
    ensures forall i :: 0 <= i < |r| ==> r[i] in xs && p(r[i])
    ensures forall i :: 0 <= i < |xs| && p(xs[i]) ==> xs[i] in r
  {
    if xs == [] then []
    else Filter(xs[..|xs| - 1], p) + (if p(xs[|xs| - 1]) then [xs[|xs| - 1]] else [])
  }

  /** The sum of a concatenation is the sum of the parts. */
  lemma {:induction false} SumAppend<T>(a: seq<T>, b: seq<T>, f: T -> real)
    ensures Sum(a + b, f) == Sum(a, f) + Sum(b, f)
  {
    if b == [] {
      assert a + b == a;
    } else {
      var c := b[..|b| - 1];
      assert (a + b)[..|a + b| - 1] == a + c;
      assert (a + b)[|a + b| - 1] == b[|b| - 1];
      SumAppend(a, c, f);
    }
  }

  lemma {:induction false} SumIntAppend<T>(a: seq<T>, b: seq<T>, f: T -> int)
    ensures SumInt(a + b, f) == SumInt(a, f) + SumInt(b, f)
  {
    if b == [] {
      assert a + b == a;
    } else {
      var c := b[..|b| - 1];
      assert (a + b)[..|a + b| - 1] == a + c;
      assert (a + b)[|a + b| - 1] == b[|b| - 1];
      SumIntAppend(a, c, f);
    }
  }

  /** Replacing one element changes an integer sum by the difference. */
  lemma {:induction false} SumIntUpdate<T>(xs: seq<T>, i: nat, v: T, f: T -> int)
    requires i < |xs|
    ensures SumInt(xs[i := v], f) == SumInt(xs, f) - f(xs[i]) + f(v)
  {
    var n := |xs|;
    var ys := xs[i := v];
    if i == n - 1 {
      assert ys[..n - 1] == xs[..n - 1];
    } else {
      assert ys[..n - 1] == xs[..n - 1][i := v];
      SumIntUpdate(xs[..n - 1], i, v, f);
    }
  }

  /** When every element contributes `c`, the sum is `|xs| * c`. */
  lemma {:induction false} SumIntConstant<T>(xs: seq<T>, f: T -> int, c: int)
    requires forall i :: 0 <= i < |xs| ==> f(xs[i]) == c
    ensures SumInt(xs, f) == |xs| * c
  {
    if xs != [] {
      var n := |xs|;
      SumIntConstant(xs[..n - 1], f, c);
      assert (n - 1) * c + c == n * c;
    }
  }

  /** With non-negative values, a sum is at least zero. */
  lemma {:induction false} SumNonNegative<T>(xs: seq<T>, f: T -> real)
    requires forall x :: x in xs ==> f(x) >= 0.0
    ensures Sum(xs, f) >= 0.0
  {
    if xs != [] {
      SumNonNegative(xs[..|xs| - 1], f);
    }
  }

  lemma {:induction false} FilterAppend<T>(a: seq<T>, b: seq<T>, p: T -> bool)
    ensures Filter(a + b, p) == Filter(a, p) + Filter(b, p)
  {
    if b == [] {
      assert a + b == a;
    } else {
      var c := b[..|b| - 1];
      assert (a + b)[..|a + b| - 1] == a + c;
      assert (a + b)[|a + b| - 1] == b[|b| - 1];
      FilterAppend(a, c, p);
    }
  }

  /** Two filters with disjoint conditions select at most the whole sum when
      values are non-negative: `sum(filter p) + sum(filter q) <= sum`. */
  lemma {:induction false} DisjointFilterSums<T>(xs: seq<T>, p: T -> bool, q: T -> bool, f: T -> real)
    requires forall x :: x in xs ==> f(x) >= 0.0
    requires forall x :: x in xs ==> !(p(x) && q(x))
    ensures Sum(Filter(xs, p), f) + Sum(Filter(xs, q), f) <= Sum(xs, f)
  {
    if xs != [] {
      var init, last := xs[..|xs| - 1], xs[|xs| - 1];
      assert forall x :: x in init ==> x in xs;
      DisjointFilterSums(init, p, q, f);
      var lp := if p(last) then [last] else [];
      var lq := if q(last) then [last] else [];
      SumAppend(Filter(init, p), lp, f);
      SumAppend(Filter(init, q), lq, f);
      assert Sum(lp, f) == (if p(last) then f(last) else 0.0) by {
        if p(last) { assert lp[..0] == []; }
      }
      assert Sum(lq, f) == (if q(last) then f(last) else 0.0) by {
        if q(last) { assert lq[..0] == []; }
      }
    }
  }

  /** Conditions that cover every element split the sum exactly. */
  lemma {:induction false} ComplementFilterSums<T>(xs: seq<T>, p: T -> bool, f: T -> real)
    ensures Sum(Filter(xs, p), f) + Sum(Filter(xs, x => !p(x)), f) == Sum(xs, f)
  {
    if xs != [] {
      var init, last := xs[..|xs| - 1], xs[|xs| - 1];
      var np := x => !p(x);
      ComplementFilterSums(init, p, f);
      var lp := if p(last) then [last] else [];
      var lq := if np(last) then [last] else [];
      SumAppend(Filter(init, p), lp, f);
      SumAppend(Filter(init, np), lq, f);
      assert Sum(lp, f) == (if p(last) then f(last) else 0.0) by {
        if p(last) { assert lp[..0] == []; }
      }
      assert Sum(lq, f) == (if np(last) then f(last) else 0.0) by {
        if np(last) { assert lq[..0] == []; }
      }
    }
  }

  /** Dropping only elements worth 0 leaves the sum as it was. */
  lemma {:induction false} SumDropsZeros<T>(xs: seq<T>, p: T -> bool, f: T -> real)
    requires forall i :: 0 <= i < |xs| && !p(xs[i]) ==> f(xs[i]) == 0.0
    ensures Sum(Filter(xs, p), f) == Sum(xs, f)
  {
    if xs != [] {
      var init, last := xs[..|xs| - 1], xs[|xs| - 1];
      assert forall i :: 0 <= i < |init| ==> init[i] == xs[i];
      SumDropsZeros(init, p, f);
      var kept := if p(last) then [last] else [];
      assert Filter(xs, p) == Filter(init, p) + kept;
      assert Sum(xs, f) == Sum(init, f) + f(last);
      SumAppend(Filter(init, p), kept, f);
      if p(last) {
        assert kept[..0] == [];
        assert Sum(kept, f) == f(last);
      } else {
        assert Sum(kept, f) == 0.0 == f(last);
      }
    }
  }

  /** `filter` keeps the order: two kept elements come from positions in the
      same order. */
  lemma {:induction false} FilterKeepsOrder<T>(xs: seq<T>, p: T -> bool, i: int, j: int)
    requires 0 <= i < j < |Filter(xs, p)|
    ensures exists a, b :: 0 <= a < b < |xs| && xs[a] == Filter(xs, p)[i] && xs[b] == Filter(xs, p)[j]
  {
    var init, last := xs[..|xs| - 1], xs[|xs| - 1];
    var r := Filter(xs, p);
    var ri := Filter(init, p);
    assert r == ri + (if p(last) then [last] else []);
    if j < |ri| {
      FilterKeepsOrder(init, p, i, j);
      var a, b :| 0 <= a < b < |init| && init[a] == ri[i] && init[b] == ri[j];
      assert xs[a] == r[i] && xs[b] == r[j];
    } else {
      assert r[j] == last;
      assert ri[i] in init;
      var a :| 0 <= a < |init| && init[a] == ri[i];
      assert xs[a] == r[i] && xs[|xs| - 1] == r[j];
    }
  }

  // ---------------------------------------------------------------------
  // Grouping by a string key (`acc[key(x)] = (acc[key(x)] || 0) + amount(x)`)

  predicate HasKey<T>(xs: seq<T>, key: T -> string, k: string)
  {
    exists i :: 0 <= i < |xs| && key(xs[i]) == k
  }

  /** The total of the elements whose key is `k`. */
  function KeyTotal<T>(xs: seq<T>, key: T -> string, amount: T -> real, k: string): real
  {
    if xs == [] then 0.0
    else KeyTotal(xs[..|xs| - 1], key, amount, k) + (if key(xs[|xs| - 1]) == k then amount(xs[|xs| - 1]) else 0.0)
  }

  /** A key nobody has totals to zero. */
  lemma {:induction false} KeyTotalAbsent<T>(xs: seq<T>, key: T -> string, amount: T -> real, k: string)
    requires !HasKey(xs, key, k)
    ensures KeyTotal(xs, key, amount, k) == 0.0
  {
    if xs != [] {
      var init := xs[..|xs| - 1];
      assert forall i :: 0 <= i < |init| ==> init[i] == xs[i];
      KeyTotalAbsent(init, key, amount, k);
    }
  }

  /** The total of a key is the sum of the elements a `filter` on that key
      keeps. */
  lemma {:induction false} KeyTotalIsFilteredSum<T>(xs: seq<T>, key: T -> string, amount: T -> real, k: string, p: T -> bool)
    requires forall x :: p(x) == (key(x) == k)
    ensures KeyTotal(xs, key, amount, k) == Sum(Filter(xs, p), amount)
  {
    if xs != [] {
      var init, last := xs[..|xs| - 1], xs[|xs| - 1];
      KeyTotalIsFilteredSum(init, key, amount, k, p);
      var kept := if p(last) then [last] else [];
      SumAppend(Filter(init, p), kept, amount);
      if p(last) {
        assert kept[..0] == [];
      }
    }
  }

  /** The keys in order of first appearance, as `Object.entries` lists the
      keys of an accumulator object. */
  function DistinctKeys<T>(xs: seq<T>, key: T -> string): (ks: seq<string>)
    ensures forall i, j :: 0 <= i < j < |ks| ==> ks[i] != ks[j]
    ensures forall k :: k in ks <==> HasKey(xs, key, k)
  {
    if xs == [] then []
    else
      var init := xs[..|xs| - 1];
      var k := key(xs[|xs| - 1]);
      var ks := DistinctKeys(init, key);
      assert forall k' :: HasKey(init, key, k') ==> HasKey(xs, key, k') by {
        forall k' | HasKey(init, key, k')
          ensures HasKey(xs, key, k')
        {
          var i :| 0 <= i < |init| && key(init[i]) == k';
          assert key(xs[i]) == k';
        }
      }
      assert forall k' :: HasKey(xs, key, k') ==> HasKey(init, key, k') || k' == k by {
        forall k' | HasKey(xs, key, k')
          ensures HasKey(init, key, k') || k' == k
        {
          var i :| 0 <= i < |xs| && key(xs[i]) == k';
          if i < |init| {
            assert key(init[i]) == k';
          }
        }
      }
      assert HasKey(xs, key, k) by {
        assert key(xs[|xs| - 1]) == k;
      }
      if k in ks then ks else ks + [k]
  }

  /** The group totals of the keys `ks`, added up. */
  function SumKeyTotals<T>(ks: seq<string>, xs: seq<T>, key: T -> string, amount: T -> real): real
  {
    if ks == [] then 0.0
    else SumKeyTotals(ks[..|ks| - 1], xs, key, amount) + KeyTotal(xs, key, amount, ks[|ks| - 1])
  }

  /** Adding one element to the grouped list adds its amount to the total of
      the one key it has, if that key is listed (once). */
  lemma {:induction false} SumKeyTotalsStep<T>(ks: seq<string>, xs: seq<T>, key: T -> string, amount: T -> real)
    requires xs != []
    requires forall i, j :: 0 <= i < j < |ks| ==> ks[i] != ks[j]
    ensures var last := xs[|xs| - 1];
      SumKeyTotals(ks, xs, key, amount)
        == SumKeyTotals(ks, xs[..|xs| - 1], key, amount) + (if key(last) in ks then amount(last) else 0.0)
  {
    if ks != [] {
      var kinit := ks[..|ks| - 1];
      SumKeyTotalsStep(kinit, xs, key, amount);
      var last := xs[|xs| - 1];
      if key(last) == ks[|ks| - 1] {
        assert key(last) !in kinit;
      }
      assert key(last) in ks <==> key(last) in kinit || key(last) == ks[|ks| - 1];
    }
  }

  /** The group totals add up to the overall total: grouping loses and
      duplicates nothing. */
  lemma {:induction false} GroupTotalsSum<T>(xs: seq<T>, key: T -> string, amount: T -> real)
    ensures SumKeyTotals(DistinctKeys(xs, key), xs, key, amount) == Sum(xs, amount)
  {
    if xs != [] {
      var init, last := xs[..|xs| - 1], xs[|xs| - 1];
      var ks := DistinctKeys(init, key);
      GroupTotalsSum(init, key, amount);
      if key(last) in ks {
        SumKeyTotalsStep(ks, xs, key, amount);
      } else {
        var ks' := ks + [key(last)];
        assert ks'[..|ks'| - 1] == ks;
        SumKeyTotalsStep(ks, xs, key, amount);
        KeyTotalAbsent(init, key, amount, key(last));
      }
    }
  }

  /** Group totals are non-negative when amounts are. */
  lemma {:induction false} KeyTotalNonNegative<T>(xs: seq<T>, key: T -> string, amount: T -> real, k: string)
    requires forall i :: 0 <= i < |xs| ==> amount(xs[i]) >= 0.0
    ensures KeyTotal(xs, key, amount, k) >= 0.0
  {
    if xs != [] {
      var init := xs[..|xs| - 1];
      assert forall i :: 0 <= i < |init| ==> init[i] == xs[i];
      KeyTotalNonNegative(init, key, amount, k);
    }
  }

  lemma {:induction false} SumKeyTotalsOfNothing<T>(ks: seq<string>, key: T -> string, amount: T -> real)
    ensures SumKeyTotals(ks, [], key, amount) == 0.0
  {
    if ks != [] {
      SumKeyTotalsOfNothing(ks[..|ks| - 1], key, amount);
    }
  }

  /** Any list of distinct keys that covers every element's key splits the
      overall total exactly, whatever order the keys come in and whatever
      extra keys it lists. */
  lemma {:induction false} SumKeyTotalsCovering<T>(ks: seq<string>, xs: seq<T>, key: T -> string, amount: T -> real)
    requires forall i, j :: 0 <= i < j < |ks| ==> ks[i] != ks[j]
    requires forall i :: 0 <= i < |xs| ==> key(xs[i]) in ks
    ensures SumKeyTotals(ks, xs, key, amount) == Sum(xs, amount)
  {
    if xs == [] {
      SumKeyTotalsOfNothing(ks, key, amount);
    } else {
      var init := xs[..|xs| - 1];
      assert forall i :: 0 <= i < |init| ==> init[i] == xs[i];
      SumKeyTotalsCovering(ks, init, key, amount);
      SumKeyTotalsStep(ks, xs, key, amount);
    }
  }
}
