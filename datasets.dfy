/** CatData: one evaluation dataset, a feature matrix with its labels and
    dates row by row, plus counts carried along unchanged. */
module Datasets {
  import opened Masks

  /** `data` is the feature matrix (a numpy array of ncols columns),
      `areHurrActual` the ground truth per row, `dates` the row dates (as
      timestamps), `hurrCounts` an aggregate passed through untouched and
      `missedCount` the candidates that never became rows. */
  datatype CatData = CatData(
    data: seq<seq<real>>,
    ncols: nat,
    areHurrActual: seq<bool>,
    dates: seq<int>,
    hurrCounts: int,
    missedCount: nat)

  /** A two-dimensional array with row-aligned labels and dates. */
  ghost predicate WellFormed(cd: CatData)
  {
    && |cd.areHurrActual| == |cd.data|
    && |cd.dates| == |cd.data|
    && forall r :: 0 <= r < |cd.data| ==> |cd.data[r]| == cd.ncols
  }

  /** The dataset restricted to the rows a mask keeps:
      `CatData(data[m], are_hurr_actual[m], dates[m], hurr_counts, missed_count)`. */
  function Narrow(cd: CatData, m: seq<bool>): (r: CatData)
    requires WellFormed(cd) && |m| == |cd.data|
    ensures WellFormed(r) && |r.data| == Count(m)
    ensures r.ncols == cd.ncols && r.hurrCounts == cd.hurrCounts && r.missedCount == cd.missedCount
  {
    FilterIn(cd.data, m);
    CatData(Filter(cd.data, m), cd.ncols, Filter(cd.areHurrActual, m), Filter(cd.dates, m),
            cd.hurrCounts, cd.missedCount)
  }

  /** Narrowing keeps features, label and date of a row together: a kept row
      k appears, whole, at its rank in the narrowed dataset. */
  lemma NarrowAligned(cd: CatData, m: seq<bool>, k: nat)
    requires WellFormed(cd) && |m| == |cd.data| && k < |m| && m[k]
    ensures Rank(m, k) < |Narrow(cd, m).data|
    ensures Narrow(cd, m).data[Rank(m, k)] == cd.data[k]
    ensures Narrow(cd, m).areHurrActual[Rank(m, k)] == cd.areHurrActual[k]
    ensures Narrow(cd, m).dates[Rank(m, k)] == cd.dates[k]
  {
    FilterAt(cd.data, m, k);
    FilterAt(cd.areHurrActual, m, k);
    FilterAt(cd.dates, m, k);
  }

  /** Narrowing by an all-true mask changes nothing. */
  lemma NarrowAll(cd: CatData)
    requires WellFormed(cd)
    ensures Narrow(cd, AllTrue(|cd.data|)) == cd
  {
    FilterAllTrue(cd.data);
    FilterAllTrue(cd.areHurrActual);
    FilterAllTrue(cd.dates);
  }

  /** Narrowing by the mask `a[a] = s` produces narrowing by a, then by s. */
  lemma NarrowScatter(cd: CatData, m: seq<bool>, s: seq<bool>)
    requires WellFormed(cd) && |m| == |cd.data| && |s| == Count(m)
    ensures Narrow(cd, Scatter(m, s)) == Narrow(Narrow(cd, m), s)
  {
    FilterScatter(cd.data, m, s);
    FilterScatter(cd.areHurrActual, m, s);
    FilterScatter(cd.dates, m, s);
  }

  /** numpy accepts column i of an ncols-wide matrix for -ncols <= i < ncols. */
  predicate ValidColumns(ix: seq<int>, ncols: nat)
  {
    forall j :: 0 <= j < |ix| ==> -(ncols as int) <= ix[j] < ncols
  }

  /** The column a (possibly negative) numpy index designates. */
  function ColumnOf(i: int, ncols: nat): (c: nat)
    requires -(ncols as int) <= i < ncols
    ensures c < ncols && (i >= 0 ==> c == i) && (i < 0 ==> c == ncols + i)
  {
    if i < 0 then ncols + i else i
  }

  /** `row[ix]`: the selected columns of one row, in the order of ix. */
  function Project(row: seq<real>, ix: seq<int>): (r: seq<real>)
    requires ValidColumns(ix, |row|)
    ensures |r| == |ix|
  {
    seq(|ix|, j requires 0 <= j < |ix| => row[ColumnOf(ix[j], |row|)])
  }

  /** `data[:, ix]`. */
  function ProjectRows(cd: CatData, ix: seq<int>): (x: seq<seq<real>>)
    requires WellFormed(cd) && ValidColumns(ix, cd.ncols)
    ensures |x| == |cd.data|
    ensures forall r :: 0 <= r < |x| ==> x[r] == Project(cd.data[r], ix)
  {
    seq(|cd.data|, r requires 0 <= r < |cd.data| => Project(cd.data[r], ix))
  }
}
