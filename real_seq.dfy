/** One-dimensional array arithmetic over exact reals: sums, dot products,
    maxima, gathers (`jnp.take`) and element-wise vector operations. */
module RealSeq {

  /** a * b as a function: a product named this way in a lemma's contract is
      matched against the same product elsewhere without arithmetic. */
  function Times(a: real, b: real): real {
    a * b
  }

  /** `jnp.sum` of a vector. Defined from the back so that a loop adding one
      element at a time keeps `total == Sum(s[..i])`. */
  function Sum(s: seq<real>): real {
    if |s| == 0 then 0.0 else Sum(s[..|s| - 1]) + s[|s| - 1]
  }

  lemma {:induction false} SumAppend(a: seq<real>, b: seq<real>)
    ensures Sum(a + b) == Sum(a) + Sum(b)
    decreases |b|
  {
    if |b| == 0 {
      assert a + b == a;
    } else {
      assert (a + b)[..|a + b| - 1] == a + b[..|b| - 1];
      SumAppend(a, b[..|b| - 1]);
    }
  }

  lemma SumSnoc(s: seq<real>, i: nat)
    requires i < |s|
    ensures Sum(s[..i + 1]) == Sum(s[..i]) + s[i]
  {
    assert s[..i + 1][..i] == s[..i];
  }

  lemma {:induction false} SumZero(s: seq<real>)
    requires forall i :: 0 <= i < |s| ==> s[i] == 0.0
    ensures Sum(s) == 0.0
  {
    if |s| > 0 {
      SumZero(s[..|s| - 1]);
    }
  }

  /** Sums of two sequences that agree element-wise agree. */
  lemma {:induction false} SumPointwise(a: seq<real>, b: seq<real>)
    requires |a| == |b|
    requires forall i :: 0 <= i < |a| ==> a[i] == b[i]
    ensures Sum(a) == Sum(b)
  {
    assert a == b;
  }

  /** Sum is linear: Sum(a) + c * Sum(b) == Sum(a + c b). */
  lemma {:induction false} SumLinear(a: seq<real>, b: seq<real>, c: real, r: seq<real>)
    requires |a| == |b| == |r|
    requires forall i :: 0 <= i < |r| ==> r[i] == a[i] + Times(c, b[i])
    ensures Sum(r) == Sum(a) + Times(c, Sum(b))
    decreases |r|
  {
    if |r| > 0 {
      var n := |r| - 1;
      SumLinear(a[..n], b[..n], c, r[..n]);
    }
  }

  /** Sum(s) * c == Sum(s with each element times c). */
  lemma {:induction false} SumScale(s: seq<real>, c: real, r: seq<real>)
    requires |s| == |r|
    requires forall i :: 0 <= i < |r| ==> r[i] == Times(s[i], c)
    ensures Sum(r) == Times(Sum(s), c)
    decreases |r|
  {
    if |r| > 0 {
      var n := |r| - 1;
      SumScale(s[..n], c, r[..n]);
    }
  }

  /** Replacing one entry changes the sum by the difference. */
  lemma {:induction false} SumReplace(s: seq<real>, e: nat, v: real)
    requires e < |s|
    ensures Sum(s[e := v]) == Sum(s) - s[e] + v
    decreases |s|
  {
    var n := |s| - 1;
    if e == n {
      assert s[e := v][..n] == s[..n];
    } else {
      assert s[e := v][..n] == s[..n][e := v];
      SumReplace(s[..n], e, v);
    }
  }

  /** Sum is additive over element-wise a - b + c. */
  lemma {:induction false} SumOfDifferences(a: seq<real>, b: seq<real>, c: seq<real>, r: seq<real>)
    requires |a| == |b| == |c| == |r|
    requires forall i :: 0 <= i < |r| ==> r[i] == a[i] - b[i] + c[i]
    ensures Sum(r) == Sum(a) - Sum(b) + Sum(c)
    decreases |r|
  {
    if |r| > 0 {
      var n := |r| - 1;
      SumOfDifferences(a[..n], b[..n], c[..n], r[..n]);
    }
  }

  /** A sum of non-negative terms is non-negative. */
  lemma {:induction false} SumNonNegative(s: seq<real>)
    requires forall i :: 0 <= i < |s| ==> s[i] >= 0.0
    ensures Sum(s) >= 0.0
  {
    if |s| > 0 {
      SumNonNegative(s[..|s| - 1]);
    }
  }

  /** Number of true entries (`np.sum` of a boolean mask). */
  function Count(b: seq<bool>): (n: nat)
    ensures n <= |b|
    ensures n == 0 <==> forall i :: 0 <= i < |b| ==> !b[i]
  {
    if |b| == 0 then 0
    else Count(b[..|b| - 1]) + (if b[|b| - 1] then 1 else 0)
  }

  /** Inner product. */
  function Dot(a: seq<real>, b: seq<real>): real
    requires |a| == |b|
  {
    if |a| == 0 then 0.0 else Dot(a[..|a| - 1], b[..|b| - 1]) + a[|a| - 1] * b[|b| - 1]
  }

  /** Against a vector of ones the inner product is the plain sum. */
  lemma {:induction false} DotOnes(a: seq<real>, ones: seq<real>)
    requires |ones| == |a| && forall i :: 0 <= i < |ones| ==> ones[i] == 1.0
    ensures Dot(a, ones) == Sum(a)
    decreases |a|
  {
    if |a| > 0 {
      DotOnes(a[..|a| - 1], ones[..|a| - 1]);
    }
  }

  /** Dot(a, x + c y) == Dot(a, x) + c Dot(a, y). */
  lemma {:induction false} DotLinear(a: seq<real>, x: seq<real>, y: seq<real>, c: real, r: seq<real>)
    requires |a| == |x| == |y| == |r|
    requires forall i :: 0 <= i < |r| ==> r[i] == x[i] + Times(c, y[i])
    ensures Dot(a, r) == Dot(a, x) + Times(c, Dot(a, y))
    decreases |r|
  {
    if |r| > 0 {
      var n := |r| - 1;
      DotLinear(a[..n], x[..n], y[..n], c, r[..n]);
      assert a[n] * r[n] == a[n] * x[n] + c * (a[n] * y[n]);
    }
  }

  /** Dot(a, c y) == c Dot(a, y). */
  lemma {:induction false} DotScale(a: seq<real>, y: seq<real>, c: real, r: seq<real>)
    requires |a| == |y| == |r|
    requires forall i :: 0 <= i < |r| ==> r[i] == Times(c, y[i])
    ensures Dot(a, r) == Times(c, Dot(a, y))
    decreases |r|
  {
    if |r| > 0 {
      var n := |r| - 1;
      DotScale(a[..n], y[..n], c, r[..n]);
      assert a[n] * r[n] == c * (a[n] * y[n]);
    }
  }

  /** Dot products of element-wise equal arguments are equal. */
  lemma DotPointwise(a: seq<real>, b: seq<real>, x: seq<real>, y: seq<real>)
    requires |a| == |b| == |x| == |y|
    requires forall i :: 0 <= i < |a| ==> a[i] == x[i] && b[i] == y[i]
    ensures Dot(a, b) == Dot(x, y)
  {
    assert a == x && b == y;
  }

  /** `jnp.max`: an element of the vector no element exceeds. */
  function Max(s: seq<real>): (m: real)
    requires |s| > 0
    ensures forall i :: 0 <= i < |s| ==> s[i] <= m
    ensures exists i :: 0 <= i < |s| && s[i] == m
  {
    if |s| == 1 then s[0]
    else
      var m0 := Max(s[..|s| - 1]);
      assert forall i :: 0 <= i < |s| - 1 ==> s[..|s| - 1][i] == s[i];
      if s[|s| - 1] > m0 then s[|s| - 1] else m0
  }

  /** `jnp.take(xs, idx)`: gather the entries of `xs` at the indices `idx`. */
  function Take<T>(xs: seq<T>, idx: seq<nat>): (r: seq<T>)
    requires InRange(idx, |xs|)
    ensures |r| == |idx|
  {
    seq(|idx|, k requires 0 <= k < |idx| => xs[idx[k]])
  }

  predicate InRange(idx: seq<nat>, n: nat) {
    forall k :: 0 <= k < |idx| ==> idx[k] < n
  }

  function Add(a: seq<real>, b: seq<real>): (r: seq<real>)
    requires |a| == |b|
    ensures |r| == |a|
  {
    seq(|a|, i requires 0 <= i < |a| => a[i] + b[i])
  }

  /** The sum of an element-wise sum is the sum of the sums. */
  lemma {:induction false} SumAdd(a: seq<real>, b: seq<real>)
    requires |a| == |b|
    ensures Sum(Add(a, b)) == Sum(a) + Sum(b)
    decreases |a|
  {
    if |a| > 0 {
      var n := |a| - 1;
      assert Add(a, b)[..n] == Add(a[..n], b[..n]);
      SumAdd(a[..n], b[..n]);
    }
  }

  function Scale(c: real, v: seq<real>): (r: seq<real>)
    ensures |r| == |v|
  {
    seq(|v|, i requires 0 <= i < |v| => c * v[i])
  }

  /** Every entry divided by 2. */
  function Halve(v: seq<real>): (r: seq<real>)
    ensures |r| == |v|
  {
    seq(|v|, i requires 0 <= i < |v| => v[i] / 2.0)
  }

  /** Halving every entry halves the sum. */
  lemma {:induction false} SumHalve(v: seq<real>)
    ensures Sum(Halve(v)) == Sum(v) / 2.0
    decreases |v|
  {
    if |v| > 0 {
      var n := |v| - 1;
      assert Halve(v)[..n] == Halve(v[..n]);
      SumHalve(v[..n]);
    }
  }

  function Mean(s: seq<real>): real
    requires |s| > 0
  {
    Sum(s) / (|s| as real)
  }

  /** `xs[mask]`: the entries whose mask entry is true, in order. */
  function Select<T>(xs: seq<T>, mask: seq<bool>): (r: seq<T>)
    requires |xs| == |mask|
    ensures |r| == Count(mask)
  {
    if |xs| == 0 then []
    else Select(xs[..|xs| - 1], mask[..|mask| - 1]) + (if mask[|mask| - 1] then [xs[|xs| - 1]] else [])
  }

  /** A mask that is true everywhere selects every entry. */
  lemma {:induction false} SelectAll<T>(xs: seq<T>, mask: seq<bool>)
    requires |xs| == |mask| && forall i :: 0 <= i < |mask| ==> mask[i]
    ensures Select(xs, mask) == xs
  {
    if |xs| > 0 {
      var n := |xs| - 1;
      SelectAll(xs[..n], mask[..n]);
    }
  }

  /** The mask `arange(n) != e` selects every entry but entry e. */
  lemma {:induction false} SelectAllBut<T>(xs: seq<T>, mask: seq<bool>, e: nat)
    requires |xs| == |mask| && e < |xs|
    requires forall i :: 0 <= i < |mask| ==> mask[i] == (i != e)
    ensures Select(xs, mask) == xs[..e] + xs[e + 1..]
  {
    var n := |xs| - 1;
    if e == n {
      SelectAll(xs[..n], mask[..n]);
    } else {
      SelectAllBut(xs[..n], mask[..n], e);
      assert xs[..n][..e] == xs[..e];
      assert xs[..n][e + 1..] + [xs[n]] == xs[e + 1..];
    }
  }

  /** Updating an entry before the split point updates the front part only. */
  lemma UpdateFront<T>(s: seq<T>, n: nat, e: nat, y: T)
    requires e < n <= |s|
    ensures s[e := y][..n] == s[..n][e := y] && s[e := y][n..] == s[n..]
  {
  }

  /** Updating an entry after the split point updates the back part only. */
  lemma UpdateBack<T>(s: seq<T>, n: nat, e: nat, y: T)
    requires n <= e < |s|
    ensures s[e := y][..n] == s[..n] && s[e := y][n..] == s[n..][e - n := y]
  {
  }

  /** The smaller of two lengths: how far `zip` pairs two lists. */
  function Min(a: nat, b: nat): nat {
    if a < b then a else b
  }
}
