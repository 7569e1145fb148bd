/** Boolean row masks, used the way the categorisation code uses numpy boolean
    arrays: element-wise `&` and `~`, counting the true entries (`.sum()`),
    boolean indexing (`xs[mask]`) and the masked assignment `a[a] = sub`,
    which writes a shorter mask into the positions of `a` that are still true. */
module Masks {

  /** Number of true entries of a mask (numpy `mask.sum()`). */
  function Count(m: seq<bool>): (n: nat)
    ensures n <= |m|
  {
    if m == [] then 0 else (if m[0] then 1 else 0) + Count(m[1..])
  }

  /** The indices of a mask's true entries. */
  ghost function TrueIndices(m: seq<bool>): set<int>
  {
    set i | 0 <= i < |m| && m[i]
  }

  /** A mask of n true entries (`np.ones(n).astype(bool)`). */
  function AllTrue(n: nat): (m: seq<bool>)
    ensures |m| == n && forall i :: 0 <= i < n ==> m[i]
  {
    seq(n, i => true)
  }

  /** Element-wise `a & b`. */
  function And(a: seq<bool>, b: seq<bool>): (r: seq<bool>)
    requires |a| == |b|
    ensures |r| == |a| && forall i :: 0 <= i < |r| ==> r[i] == (a[i] && b[i])
  {
    seq(|a|, i requires 0 <= i < |a| => a[i] && b[i])
  }

  /** Element-wise `~a`. */
  function Not(a: seq<bool>): (r: seq<bool>)
    ensures |r| == |a| && forall i :: 0 <= i < |r| ==> r[i] == !a[i]
  {
    seq(|a|, i requires 0 <= i < |a| => !a[i])
  }

  /** Number of true entries strictly before position k: the position that
      row k takes in `xs[m]` when m[k] holds. */
  function Rank(m: seq<bool>, k: nat): (r: nat)
    requires k <= |m|
    ensures r <= k
  {
    Count(m[..k])
  }

  /** Boolean indexing `xs[m]`: the elements at the true positions, in order. */
  function Filter<T>(xs: seq<T>, m: seq<bool>): (r: seq<T>)
    requires |xs| == |m|
    ensures |r| == Count(m)
  {
    if xs == [] then [] else (if m[0] then [xs[0]] else []) + Filter(xs[1..], m[1..])
  }

  /** The result of `a[a] = s`: the entries of s, in order, at the true
      positions of a; the false positions stay false. */
  function Scatter(m: seq<bool>, s: seq<bool>): (r: seq<bool>)
    requires |s| == Count(m)
    ensures |r| == |m|
  {
    if m == [] then []
    else if m[0] then [s[0]] + Scatter(m[1..], s[1..])
    else [false] + Scatter(m[1..], s)
  }

  lemma {:induction false} CountAppend(a: seq<bool>, b: seq<bool>)
    ensures Count(a + b) == Count(a) + Count(b)
  {
    if a == [] {
      assert a + b == b;
    } else {
      assert (a + b)[1..] == a[1..] + b;
      CountAppend(a[1..], b);
    }
  }

  /** Count is the number of true positions. */
  lemma {:induction false} CountIsCardinality(m: seq<bool>)
    ensures Count(m) == |TrueIndices(m)|
  {
    if m != [] {
      var n := |m| - 1;
      var p := m[..n];
      assert m == p + [m[n]];
      CountAppend(p, [m[n]]);
      CountIsCardinality(p);
      if m[n] {
        assert TrueIndices(m) == TrueIndices(p) + {n};
      } else {
        assert TrueIndices(m) == TrueIndices(p);
      }
    }
  }

  /** One more position extends the rank by that position's entry. */
  lemma RankStep(m: seq<bool>, k: nat)
    requires k < |m|
    ensures Rank(m, k + 1) == Rank(m, k) + (if m[k] then 1 else 0)
  {
    assert m[..k + 1] == m[..k] + [m[k]];
    CountAppend(m[..k], [m[k]]);
  }

  /** Rank of a position one further in m is the rank in m[1..] plus m[0]. */
  lemma RankTail(m: seq<bool>, k: nat)
    requires 0 < k <= |m|
    ensures Rank(m, k) == (if m[0] then 1 else 0) + Rank(m[1..], k - 1)
  {
    assert m[..k][1..] == m[1..][..k - 1];
  }

  /** A row kept by boolean indexing sits at its rank in the result. */
  lemma {:induction false} FilterAt<T>(xs: seq<T>, m: seq<bool>, k: nat)
    requires |xs| == |m| && k < |m| && m[k]
    ensures Rank(m, k) < Count(m) && Filter(xs, m)[Rank(m, k)] == xs[k]
  {
    if k == 0 {
      assert m[..0] == [];
    } else {
      RankTail(m, k);
      FilterAt(xs[1..], m[1..], k - 1);
    }
  }

  /** What `a[a] = s` leaves at position k: false where a was false, and the
      entry of s at k's rank where a was true. */
  lemma {:induction false} ScatterAt(m: seq<bool>, s: seq<bool>, k: nat)
    requires |s| == Count(m) && k < |m|
    ensures m[k] ==> Rank(m, k) < |s|
    ensures Scatter(m, s)[k] == (if m[k] then s[Rank(m, k)] else false)
  {
    if k == 0 {
      assert m[..0] == [];
    } else {
      RankTail(m, k);
      if m[0] {
        ScatterAt(m[1..], s[1..], k - 1);
      } else {
        ScatterAt(m[1..], s, k - 1);
      }
    }
  }

  /** The masked assignment never sets a position that was false. */
  lemma ScatterSubset(m: seq<bool>, s: seq<bool>, k: nat)
    requires |s| == Count(m) && k < |m|
    ensures Scatter(m, s)[k] ==> m[k]
  {
    ScatterAt(m, s, k);
  }

  /** After `a[a] = s`, a has exactly as many true entries as s. */
  lemma {:induction false} ScatterCount(m: seq<bool>, s: seq<bool>)
    requires |s| == Count(m)
    ensures Count(Scatter(m, s)) == Count(s)
  {
    if m != [] {
      if m[0] {
        ScatterCount(m[1..], s[1..]);
        assert s == [s[0]] + s[1..];
      } else {
        ScatterCount(m[1..], s);
      }
    }
  }

  /** Selecting by the updated mask is selecting by the old mask and then by
      the shorter one: narrowing twice equals narrowing once in index space. */
  lemma {:induction false} FilterScatter<T>(xs: seq<T>, m: seq<bool>, s: seq<bool>)
    requires |xs| == |m| && |s| == Count(m)
    ensures Filter(xs, Scatter(m, s)) == Filter(Filter(xs, m), s)
  {
    if xs != [] {
      if m[0] {
        FilterScatter(xs[1..], m[1..], s[1..]);
        assert Filter(xs, m) == [xs[0]] + Filter(xs[1..], m[1..]);
        assert Filter(xs, m)[1..] == Filter(xs[1..], m[1..]);
      } else {
        FilterScatter(xs[1..], m[1..], s);
        assert Filter(xs, m) == Filter(xs[1..], m[1..]);
        assert Scatter(m, s)[1..] == Scatter(m[1..], s);
      }
    }
  }

  /** On a fresh all-true mask the masked assignment is plain assignment. */
  lemma {:induction false} ScatterAllTrue(s: seq<bool>)
    ensures Count(AllTrue(|s|)) == |s|
    ensures Scatter(AllTrue(|s|), s) == s
  {
    if s != [] {
      assert AllTrue(|s|)[1..] == AllTrue(|s| - 1);
      ScatterAllTrue(s[1..]);
    }
  }

  /** A mask with no true entry is all false, and writing the empty mask into
      it (what a stage on zero rows does) leaves it as it is. */
  lemma {:induction false} ScatterNone(m: seq<bool>)
    requires Count(m) == 0
    ensures forall k :: 0 <= k < |m| ==> !m[k]
    ensures Scatter(m, []) == m
  {
    if m != [] {
      ScatterNone(m[1..]);
    }
  }

  /** Selecting everything selects the whole sequence. */
  lemma {:induction false} FilterAllTrue<T>(xs: seq<T>)
    ensures Count(AllTrue(|xs|)) == |xs|
    ensures Filter(xs, AllTrue(|xs|)) == xs
  {
    if xs != [] {
      assert AllTrue(|xs|)[1..] == AllTrue(|xs| - 1);
      FilterAllTrue(xs[1..]);
    }
  }

  /** Boolean indexing only ever keeps elements of its argument. */
  lemma {:induction false} FilterIn<T>(xs: seq<T>, m: seq<bool>)
    requires |xs| == |m|
    ensures forall i :: 0 <= i < |Filter(xs, m)| ==> Filter(xs, m)[i] in xs
  {
    if xs != [] {
      FilterIn(xs[1..], m[1..]);
      var r := Filter(xs, m);
      assert r == (if m[0] then [xs[0]] else []) + Filter(xs[1..], m[1..]);
      forall i | 0 <= i < |r| ensures r[i] in xs {
        if !m[0] || i > 0 {
          assert r[i] in Filter(xs[1..], m[1..]);
        }
      }
    }
  }
}
