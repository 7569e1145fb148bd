/** Scoring a prediction: the confusion-matrix counts of `compare`, with the
    candidates missed upstream counted as false negatives, and the derived
    sensitivity and positive predictive value of `calc_stats`. */
module Evaluation {
  import opened Masks

  datatype Counts = Counts(tp: nat, fp: nat, tn: nat, fn: nat)

  /** `compare(are_hurr_actual, are_hurr_pred)` with `missed_count` missed
      candidates. */
  function Compare(actual: seq<bool>, pred: seq<bool>, missed: nat): (c: Counts)
    requires |actual| == |pred|
    ensures c.fn >= missed
    ensures c.tp + c.fp + c.tn + c.fn == |actual| + missed
  {
    CellsPartition(actual, pred);
    Counts(
      Count(And(actual, pred)),
      Count(And(Not(actual), pred)),
      Count(And(Not(actual), Not(pred))),
      missed + Count(And(actual, Not(pred))))
  }

  /** Splitting a mask by a second mask splits its count. */
  lemma {:induction false} CountSplit(m: seq<bool>, x: seq<bool>)
    requires |m| == |x|
    ensures Count(And(m, x)) + Count(And(m, Not(x))) == Count(m)
  {
    if m != [] {
      assert And(m, x)[1..] == And(m[1..], x[1..]);
      assert Not(x)[1..] == Not(x[1..]);
      assert And(m, Not(x))[1..] == And(m[1..], Not(x[1..]));
      CountSplit(m[1..], x[1..]);
    }
  }

  /** Every position is true in a mask or in its negation. */
  lemma {:induction false} CountNot(m: seq<bool>)
    ensures Count(m) + Count(Not(m)) == |m|
  {
    if m != [] {
      assert Not(m)[1..] == Not(m[1..]);
      CountNot(m[1..]);
    }
  }

  /** Every row falls in exactly one cell of actual x predicted. */
  lemma CellsPartition(actual: seq<bool>, pred: seq<bool>)
    requires |actual| == |pred|
    ensures Count(And(actual, pred)) + Count(And(Not(actual), pred))
          + Count(And(Not(actual), Not(pred))) + Count(And(actual, Not(pred))) == |actual|
  {
    CountSplit(actual, pred);
    CountSplit(Not(actual), pred);
    CountNot(actual);
  }

  /** Each count is the number of rows in its cell; the missed candidates
      come on top of the false negatives. */
  lemma CompareCells(actual: seq<bool>, pred: seq<bool>, missed: nat)
    requires |actual| == |pred|
    ensures Compare(actual, pred, missed).tp == |set i | 0 <= i < |actual| && actual[i] && pred[i]|
    ensures Compare(actual, pred, missed).fp == |set i | 0 <= i < |actual| && !actual[i] && pred[i]|
    ensures Compare(actual, pred, missed).tn == |set i | 0 <= i < |actual| && !actual[i] && !pred[i]|
    ensures Compare(actual, pred, missed).fn
         == missed + |set i | 0 <= i < |actual| && actual[i] && !pred[i]|
  {
    CountIsCardinality(And(actual, pred));
    assert TrueIndices(And(actual, pred)) == set i | 0 <= i < |actual| && actual[i] && pred[i];
    CountIsCardinality(And(Not(actual), pred));
    assert TrueIndices(And(Not(actual), pred)) == set i | 0 <= i < |actual| && !actual[i] && pred[i];
    CountIsCardinality(And(Not(actual), Not(pred)));
    assert TrueIndices(And(Not(actual), Not(pred)))
        == set i | 0 <= i < |actual| && !actual[i] && !pred[i];
    CountIsCardinality(And(actual, Not(pred)));
    assert TrueIndices(And(actual, Not(pred))) == set i | 0 <= i < |actual| && actual[i] && !pred[i];
  }

  /** A ratio of counts; Undefined is the NaN numpy yields for 0/0. */
  datatype Stat = Undefined | Defined(value: real)

  function Ratio(num: nat, den: nat): (s: Stat)
    ensures s.Defined? <==> den > 0
    ensures s.Defined? ==> s.value * den as real == num as real
  {
    if den == 0 then Undefined else Defined(num as real / den as real)
  }

  /** A defined ratio of a part to a whole lies in [0, 1], and is 1 exactly
      when the part is the whole. */
  lemma RatioBounds(part: nat, rest: nat)
    requires part + rest > 0
    ensures Ratio(part, part + rest).Defined?
    ensures 0.0 <= Ratio(part, part + rest).value <= 1.0
    ensures Ratio(part, part + rest).value == 1.0 <==> rest == 0
  {
    var d := (part + rest) as real;
    var v := Ratio(part, part + rest).value;
    ScaleByPositive(v, d);
  }

  /** Multiplying by a positive number keeps sign, order against 1, and
      equality with 1. */
  lemma ScaleByPositive(x: real, y: real)
    requires y > 0.0
    ensures (x * y >= 0.0) == (x >= 0.0)
    ensures (x * y <= y) == (x <= 1.0)
    ensures (x * y == y) == (x == 1.0)
  {
    assert x * y - y == (x - 1.0) * y;
  }

  /** `sensitivity = tp / (tp + fn)`. */
  function Sensitivity(c: Counts): (s: Stat)
    ensures s.Defined? <==> c.tp + c.fn > 0
    ensures s.Defined? ==> 0.0 <= s.value <= 1.0 && (s.value == 1.0 <==> c.fn == 0)
  {
    if c.tp + c.fn > 0 then RatioBounds(c.tp, c.fn); Ratio(c.tp, c.tp + c.fn)
    else Ratio(c.tp, c.tp + c.fn)
  }

  /** `ppv = tp / (tp + fp)`. */
  function Ppv(c: Counts): (s: Stat)
    ensures s.Defined? <==> c.tp + c.fp > 0
    ensures s.Defined? ==> 0.0 <= s.value <= 1.0 && (s.value == 1.0 <==> c.fp == 0)
  {
    if c.tp + c.fp > 0 then RatioBounds(c.tp, c.fp); Ratio(c.tp, c.tp + c.fp)
    else Ratio(c.tp, c.tp + c.fp)
  }

  /** With any missed candidate the sensitivity is always defined. */
  lemma MissedDefinesSensitivity(actual: seq<bool>, pred: seq<bool>, missed: nat)
    requires |actual| == |pred| && missed > 0
    ensures Sensitivity(Compare(actual, pred, missed)).Defined?
    ensures Sensitivity(Compare(actual, pred, missed)).value < 1.0
  {
  }

  /** A mask with no true entry counts zero. */
  lemma {:induction false} CountNone(m: seq<bool>)
    requires forall i :: 0 <= i < |m| ==> !m[i]
    ensures Count(m) == 0
  {
    if m != [] {
      CountNone(m[1..]);
    }
  }

  /** A predictor that calls every row positive leaves exactly the missed
      candidates as false negatives, and no true negatives. */
  lemma AllPositive(actual: seq<bool>, missed: nat)
    ensures Compare(actual, AllTrue(|actual|), missed).fn == missed
    ensures Compare(actual, AllTrue(|actual|), missed).tn == 0
    ensures Compare(actual, AllTrue(|actual|), missed).tp + Compare(actual, AllTrue(|actual|), missed).fp
         == |actual|
  {
    var all := AllTrue(|actual|);
    CountNone(And(actual, Not(all)));
    CountNone(And(Not(actual), Not(all)));
  }

  /** Ten rows, the first three hurricanes, one candidate missed, rows 0, 1
      and 3 predicted: tp 2, fp 1, fn 1 + 1, tn 6. */
  lemma TenRowCounts()
    ensures Compare([true, true, true, false, false, false, false, false, false, false],
                    [true, true, false, true, false, false, false, false, false, false], 1)
         == Counts(2, 1, 6, 2)
  {
    var actual := [true, true, true, false, false, false, false, false, false, false];
    var pred := [true, true, false, true, false, false, false, false, false, false];
    TenRowCells(actual, pred);
    CountTail([true, true, false, false], 6);
    CountTail([false, false, false, true], 6);
    CountTail([false, false, true, false], 6);
    assert Count([true, true, false, false]) == 2;
    assert Count([false, false, false, true]) == 1;
    assert Count([false, false, true, false]) == 1;
  }

  /** The three cells of the ten-row scenario, position by position. */
  lemma TenRowCells(actual: seq<bool>, pred: seq<bool>)
    requires actual == [true, true, true, false, false, false, false, false, false, false]
    requires pred == [true, true, false, true, false, false, false, false, false, false]
    ensures And(actual, pred) == [true, true, false, false] + seq(6, _ => false)
    ensures And(Not(actual), pred) == [false, false, false, true] + seq(6, _ => false)
    ensures And(actual, Not(pred)) == [false, false, true, false] + seq(6, _ => false)
  {
  }

  /** A prefix followed by n false entries counts as the prefix. */
  lemma {:induction false} CountTail(p: seq<bool>, n: nat)
    ensures Count(p + seq(n, _ => false)) == Count(p)
  {
    if p == [] {
      assert p + seq(n, _ => false) == seq(n, _ => false);
      CountNone(seq(n, _ => false));
    } else {
      assert (p + seq(n, _ => false))[1..] == p[1..] + seq(n, _ => false);
      CountTail(p[1..], n);
    }
  }

  /** The same scenario scores a sensitivity of 1/2 and a ppv of 2/3. */
  lemma TenRowStats()
    ensures Sensitivity(Counts(2, 1, 6, 2)) == Defined(0.5)
    ensures Ppv(Counts(2, 1, 6, 2)) == Defined(2.0 / 3.0)
  {
  }
}
