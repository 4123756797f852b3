/** Sequence helpers shared by the evaluation and the fusion models:
    boolean-mask selection (`tensor[mask]`), gathers (`tensor[idx]`),
    cartesian products, sums and distinctness. */
module SeqUtil {

  /** `list(range(n))`. */
  function Range(n: nat): (r: seq<nat>)
    ensures |r| == n
    ensures forall i :: 0 <= i < n ==> r[i] == i
  {
    seq(n, i => i)
  }

  predicate StrictlyIncreasing(s: seq<nat>) {
    forall i, j :: 0 <= i < j < |s| ==> s[i] < s[j]
  }

  predicate Distinct<T(==)>(s: seq<T>) {
    forall i, j :: 0 <= i < j < |s| ==> s[i] != s[j]
  }

  predicate AllBelow(s: seq<nat>, n: nat) {
    forall i :: 0 <= i < |s| ==> s[i] < n
  }

  lemma StrictlyIncreasingIsDistinct(s: seq<nat>)
    requires StrictlyIncreasing(s)
    ensures Distinct(s)
  {
  }

  /** The element-wise negation `~mask`. */
  function Not(mask: seq<bool>): (r: seq<bool>)
    ensures |r| == |mask|
    ensures forall i :: 0 <= i < |mask| ==> r[i] == !mask[i]
  {
    seq(|mask|, i requires 0 <= i < |mask| => !mask[i])
  }

  /** The positions where a boolean mask holds, in increasing order: what
      `x[mask]` selects from a tensor `x` of the same length. */
  function Where(mask: seq<bool>): (r: seq<nat>)
    ensures |r| <= |mask|
    ensures forall k :: 0 <= k < |r| ==> r[k] < |mask| && mask[r[k]]
    ensures StrictlyIncreasing(r)
  {
    if mask == [] then []
    else Where(mask[..|mask| - 1]) + (if mask[|mask| - 1] then [|mask| - 1] else [])
  }

  /** Extending the mask by one position appends that position when it holds. */
  lemma WhereStep(mask: seq<bool>, i: nat)
    requires i < |mask|
    ensures Where(mask[..i + 1]) == Where(mask[..i]) + (if mask[i] then [i] else [])
  {
    assert mask[..i + 1][..i] == mask[..i];
  }

  /** Every position where the mask holds is selected. */
  lemma {:induction false} WhereComplete(mask: seq<bool>, i: nat)
    requires i < |mask| && mask[i]
    ensures i in Where(mask)
  {
    if i < |mask| - 1 {
      WhereComplete(mask[..|mask| - 1], i);
    }
  }

  /** `i in Where(mask)` exactly when the mask holds at `i`. */
  lemma WhereMember(mask: seq<bool>, i: nat)
    ensures i in Where(mask) <==> i < |mask| && mask[i]
  {
    if i < |mask| && mask[i] {
      WhereComplete(mask, i);
    }
  }

  /** A mask and its negation select complementary positions, so their
      counts add up to the length. */
  lemma {:induction false} WhereSplitCount(mask: seq<bool>)
    ensures |Where(mask)| + |Where(Not(mask))| == |mask|
  {
    if mask != [] {
      var init := mask[..|mask| - 1];
      assert Not(mask)[..|mask| - 1] == Not(init);
      WhereSplitCount(init);
    }
  }

  /** A mask that holds nowhere selects nothing. */
  lemma {:induction false} WhereNone(mask: seq<bool>)
    requires forall j :: 0 <= j < |mask| ==> !mask[j]
    ensures Where(mask) == []
  {
    if mask != [] {
      WhereNone(mask[..|mask| - 1]);
    }
  }

  /** A mask that holds at exactly one position selects that position alone. */
  lemma {:induction false} WhereSingleton(mask: seq<bool>, i: nat)
    requires i < |mask| && mask[i]
    requires forall j :: 0 <= j < |mask| && j != i ==> !mask[j]
    ensures Where(mask) == [i]
  {
    var init := mask[..|mask| - 1];
    if i == |mask| - 1 {
      WhereNone(init);
    } else {
      WhereSingleton(init, i);
    }
  }

  /** `xs[idx]` for an index tensor `idx`. */
  function Gather<T>(xs: seq<T>, idx: seq<nat>): (r: seq<T>)
    requires AllBelow(idx, |xs|)
    ensures |r| == |idx|
    ensures forall k :: 0 <= k < |idx| ==> r[k] == xs[idx[k]]
  {
    seq(|idx|, k requires 0 <= k < |idx| => xs[idx[k]])
  }

  /** Row-major cartesian product: for each `x` in order, every `y` in order. */
  function Pairs<A, B>(xs: seq<A>, ys: seq<B>): (r: seq<(A, B)>)
    ensures |r| == |xs| * |ys|
    ensures forall p :: p in r ==> p.0 in xs && p.1 in ys
  {
    if xs == [] then []
    else seq(|ys|, j requires 0 <= j < |ys| => (xs[0], ys[j])) + Pairs(xs[1..], ys)
  }

  /** Every combination of an `x` and a `y` occurs in the product. */
  lemma {:induction false} PairsComplete<A, B>(xs: seq<A>, ys: seq<B>, x: A, y: B)
    requires x in xs && y in ys
    ensures (x, y) in Pairs(xs, ys)
  {
    if xs[0] == x {
      var j :| 0 <= j < |ys| && ys[j] == y;
      var head := seq(|ys|, j requires 0 <= j < |ys| => (xs[0], ys[j]));
      assert head[j] == (x, y);
      assert Pairs(xs, ys)[j] == (x, y);
    } else {
      PairsComplete(xs[1..], ys, x, y);
      var rest := Pairs(xs[1..], ys);
      var k :| 0 <= k < |rest| && rest[k] == (x, y);
      assert Pairs(xs, ys)[|ys| + k] == (x, y);
    }
  }

  function Sum(xs: seq<real>): real {
    if xs == [] then 0.0 else Sum(xs[..|xs| - 1]) + xs[|xs| - 1]
  }

  /** A sum over a concatenation is the sum of the two sums. */
  lemma {:induction false} SumAppend(xs: seq<real>, ys: seq<real>)
    ensures Sum(xs + ys) == Sum(xs) + Sum(ys)
    decreases |ys|
  {
    if ys == [] {
      assert xs + ys == xs;
    } else {
      var init := ys[..|ys| - 1];
      assert (xs + ys)[..|xs + ys| - 1] == xs + init;
      assert (xs + ys)[|xs + ys| - 1] == ys[|ys| - 1];
      SumAppend(xs, init);
    }
  }

  /** Reordering the summands does not change the sum. */
  lemma {:induction false} SumPermutation(xs: seq<real>, ys: seq<real>)
    requires multiset(xs) == multiset(ys)
    ensures Sum(xs) == Sum(ys)
    decreases |xs|
  {
    if xs != [] {
      var n := |xs| - 1;
      assert xs[n] in multiset(ys);
      var k :| 0 <= k < |ys| && ys[k] == xs[n];
      RemoveMatching(xs, ys, k);
      SumPermutation(xs[..n], ys[..k] + ys[k + 1..]);
      SumRemoveAt(ys, k);
    }
  }

  /** Removing the last element of `xs` and a matching element of `ys`
      keeps the two multisets equal. */
  lemma RemoveMatching(xs: seq<real>, ys: seq<real>, k: nat)
    requires multiset(xs) == multiset(ys) && |xs| > 0
    requires k < |ys| && ys[k] == xs[|xs| - 1]
    ensures multiset(ys[..k] + ys[k + 1..]) == multiset(xs[..|xs| - 1])
  {
    var n := |xs| - 1;
    var x := xs[n];
    var rest := ys[..k] + ys[k + 1..];
    assert xs == xs[..n] + [x];
    assert ys == ys[..k] + [x] + ys[k + 1..];
    assert multiset(ys) == multiset(rest) + multiset{x};
    assert multiset(xs) == multiset(xs[..n]) + multiset{x};
    forall z ensures multiset(rest)[z] == multiset(xs[..n])[z] {
      assert multiset(ys)[z] == multiset(rest)[z] + multiset{x}[z];
      assert multiset(xs)[z] == multiset(xs[..n])[z] + multiset{x}[z];
    }
  }

  /** Taking one summand out of a sequence lowers the sum by that summand. */
  lemma SumRemoveAt(ys: seq<real>, k: nat)
    requires k < |ys|
    ensures Sum(ys) == Sum(ys[..k] + ys[k + 1..]) + ys[k]
  {
    var a, y, b := ys[..k], ys[k], ys[k + 1..];
    assert ys == (a + [y]) + b;
    SumAppend(a + [y], b);
    SumAppend(a, [y]);
    SumAppend(a, b);
    SumSingleton(y);
  }

  lemma SumSingleton(y: real)
    ensures Sum([y]) == y
  {
    assert [y][..0] == [];
  }

  /** Sum of a sequence whose elements all lie in [lo, hi]. */
  lemma {:induction false} SumBounds(xs: seq<real>, lo: real, hi: real)
    requires forall i :: 0 <= i < |xs| ==> lo <= xs[i] <= hi
    ensures |xs| as real * lo <= Sum(xs) <= |xs| as real * hi
  {
    if xs != [] {
      SumBounds(xs[..|xs| - 1], lo, hi);
    }
  }

  /** Sum of a non-empty sequence whose elements all lie strictly above lo. */
  lemma {:induction false} SumStrictlyAbove(xs: seq<real>, lo: real)
    requires |xs| > 0
    requires forall i :: 0 <= i < |xs| ==> lo < xs[i]
    ensures |xs| as real * lo < Sum(xs)
  {
    if |xs| > 1 {
      SumStrictlyAbove(xs[..|xs| - 1], lo);
    }
  }

  /** Flattens a sequence of sequences, keeping order (`itertools.chain`). */
  function Concat<T>(xss: seq<seq<T>>): (r: seq<T>)
  {
    if xss == [] then [] else Concat(xss[..|xss| - 1]) + xss[|xss| - 1]
  }

  lemma {:induction false} ConcatAppend<T>(xss: seq<seq<T>>, yss: seq<seq<T>>)
    ensures Concat(xss + yss) == Concat(xss) + Concat(yss)
  {
    if yss == [] {
      assert xss + yss == xss;
    } else {
      ConcatAppend(xss, yss[..|yss| - 1]);
      assert (xss + yss)[..|xss + yss| - 1] == xss + yss[..|yss| - 1];
    }
  }

  /** Lengths of each inner sequence. */
  function Lengths<T>(xss: seq<seq<T>>): (r: seq<nat>)
    ensures |r| == |xss| && forall i :: 0 <= i < |xss| ==> r[i] == |xss[i]|
  {
    seq(|xss|, i requires 0 <= i < |xss| => |xss[i]|)
  }

  function SumNat(xs: seq<nat>): nat {
    if xs == [] then 0 else SumNat(xs[..|xs| - 1]) + xs[|xs| - 1]
  }

  /** Where block `b` starts once blocks of the given lengths are laid end to end. */
  function Offset(lens: seq<nat>, b: nat): nat
    requires b <= |lens|
  {
    SumNat(lens[..b])
  }

  /** Block `b`'s elements sit at `Offset(b)` onward in the concatenation. */
  lemma {:induction false} ConcatIndex<T>(xss: seq<seq<T>>, b: nat, c: nat)
    requires b < |xss| && c < |xss[b]|
    ensures |Concat(xss)| == SumNat(Lengths(xss))
    ensures Offset(Lengths(xss), b) + c < |Concat(xss)|
    ensures Concat(xss)[Offset(Lengths(xss), b) + c] == xss[b][c]
    decreases |xss|
  {
    var n := |xss| - 1;
    var pre := xss[..n];
    assert Lengths(xss)[..n] == Lengths(pre);
    ConcatLength(pre);
    if b < n {
      ConcatIndex(pre, b, c);
      assert Lengths(xss)[..b] == Lengths(pre)[..b];
    }
  }

  lemma {:induction false} ConcatLength<T>(xss: seq<seq<T>>)
    ensures |Concat(xss)| == SumNat(Lengths(xss))
    decreases |xss|
  {
    if xss != [] {
      var n := |xss| - 1;
      ConcatLength(xss[..n]);
      assert Lengths(xss)[..n] == Lengths(xss[..n]);
    }
  }
}
