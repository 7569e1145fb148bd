/** A single categoriser object: its fields and the methods that update them
    (`train`, `categorise`, `compare`, `calc_stats`, `try_cat`), each proved
    against the functions of module Predictors and module Evaluation. */
module Categorisers {
  import opened Options
  import opened Strings
  import opened Masks
  import opened Settings
  import opened Features
  import opened Datasets
  import opened Evaluation
  import opened Predictors

  /** `categorise` followed by `compare`: the counts `try_cat` stores, or the
      exception it raises. */
  function Score(cfg: Config, cd: CatData, learner: Learner): (r: Result<Counts>)
    requires WellFormed(cd)
    ensures r.Ok? ==> r.value.tp + r.value.fp + r.value.tn + r.value.fn == |cd.data| + cd.missedCount
    ensures r.Ok? ==> r.value.fn >= cd.missedCount
    ensures r.Err? <==> PredictError(cfg, cd.ncols).Some?
  {
    match Predict(cfg, cd, learner)
    case Err(e) => Err(e)
    case Ok(p) => Ok(Compare(cd.areHurrActual, p, cd.missedCount))
  }

  /** One pass of the cutoff loop: split the key, look the feature up, and
      for a lo/hi key compare its column with the cutoff. Any other suffix
      leaves the previous `mask` in place. */
  method CutoffMask(e: (string, Value), cd: CatData, bound: bool, mask: seq<bool>) returns (r: Result<seq<bool>>)
    requires WellFormed(cd) && (bound ==> |mask| == |cd.data|)
    ensures r.Err? <==> EntryError(e, cd.ncols, bound).Some?
    ensures r.Err? ==> r.error == EntryError(e, cd.ncols, bound).value
    ensures r.Ok? && IsLoHi(e.0) ==>
      |r.value| == |cd.data| && forall k :: 0 <= k < |cd.data| ==> r.value[k] == Passes(e, cd.data[k])
    ensures r.Ok? && !IsLoHi(e.0) ==> bound && r.value == mask && forall k :: 0 <= k < |cd.data| ==> Passes(e, cd.data[k])
  {
    var parts := Split(e.0, '_');
    if |parts| != 2 {
      return Err(BadCutoffKey(e.0));
    }
    var name, hilo := parts[0], parts[1];
    var index := FeatureIndex(name);
    if index.None? {
      return Err(UnknownFeature(name));
    }
    if hilo == "lo" || hilo == "hi" {
      if index.value >= cd.ncols {
        return Err(ColumnOutOfRange(index.value));
      }
      var c := CutoffNumber(e.1);
      if c.None? {
        return Err(NonNumericCutoff(e.0));
      }
      var col, n := index.value, |cd.data|;
      if hilo == "lo" {
        r := Ok(seq(n, k requires 0 <= k < n => cd.data[k][col] > c.value));
      } else {
        r := Ok(seq(n, k requires 0 <= k < n => cd.data[k][col] < c.value));
      }
    } else if !bound {
      return Err(MaskUnbound(e.0));
    } else {
      r := Ok(mask);
    }
  }

  /** Every categoriser but the chain: CutoffCategoriser and the four
      estimator classes, told apart by `kind`. */
  class Categoriser {
    const kind: Kind
    var isTrained: bool
    var settings: Entries
    var model: Option<Fitted>      // the estimator (for SGD with its scaler); None when absent or unfitted
    var missedCount: nat
    var arePred: seq<bool>         // `are_hurr_pred`, the last mask computed
    var res: Option<Counts>        // `res`, empty until `compare` fills it
    var sensitivity: Stat
    var ppv: Stat

    /** The fields predictions depend on. */
    ghost function State(): Config
      reads this`isTrained, this`settings, this`model
    {
      Config(kind, isTrained, settings, model)
    }

    constructor (kind: Kind)
      ensures this.kind == kind && State() == Config(kind, false, [], None)
      ensures missedCount == 0 && res == None && arePred == []
    {
      this.kind := kind;
      isTrained := false;
      settings := [];
      model := None;
      missedCount := 0;
      arePred := [];
      res := None;
      sensitivity := Undefined;
      ppv := Undefined;
    }

    /** `Categoriser.train`, which every subclass calls first: settings
        become kwargs plus `indices`, and the object counts as trained. */
    method TrainBase(indices: Option<Value>, kwargs: Entries)
      modifies this`isTrained, this`settings
      ensures isTrained && settings == BaseSettings(kwargs, indices)
    {
      settings := kwargs;
      isTrained := true;
      if indices.None? || !Truthy(indices.value) {
        settings := Put(settings, "indices", Indices(DefaultIndices()));
      } else {
        settings := Put(settings, "indices", indices.value);
      }
    }

    /** `train(cat_data, indices, **kwargs)`. */
    method Train(cd: CatData, indices: Option<Value>, kwargs: Entries) returns (o: Outcome)
      requires WellFormed(cd)
      modifies this`isTrained, this`settings, this`model
      ensures (State(), o) == TrainConfig(old(State()), cd, indices, kwargs)
    {
      TrainBase(indices, kwargs);
      if kind == Cutoff {
        var best := Get(settings, "best");
        if best.Some? && EqualsTrue(best.value) {
          settings := BestSoFar();
        }
        return Done;
      }
      var ix := Get(settings, "indices").value;
      assert ix == ResolvedIndices(indices);
      model := None;
      if ix.Indices? && ValidColumns(ix.ix, cd.ncols) {
        model := Some(Fitted(kind, kwargs, ProjectRows(cd, ix.ix), cd.areHurrActual));
        o := Done;
      } else {
        o := Fail(BadIndices);
      }
    }

    /** `categorise(cat_data)`: sets `are_hurr_pred` and returns it, or raises.
        CutoffCategoriser starts from an all-true mask and ANDs in one mask
        per settings entry, so a raise part-way leaves the entries done so far
        applied; the estimator classes replace the mask only on success. */
    method Categorise(cd: CatData, learner: Learner) returns (r: Result<seq<bool>>)
      requires WellFormed(cd)
      modifies this`arePred
      ensures r == Predict(State(), cd, learner)
      ensures r.Ok? ==> arePred == r.value
      ensures arePred == PredAfter(State(), cd, old(arePred), learner)
    {
      if !isTrained {
        return Err(NotTrained);
      }
      if kind == Cutoff {
        r := CategoriseCutoff(cd);
        CutoffPredict(settings, model, cd, learner);
        return;
      }
      var ix := Get(settings, "indices");
      if ix.None? {
        return Err(BadIndices);
      }
      if !(ix.value.Indices? && ValidColumns(ix.value.ix, cd.ncols)) {
        return Err(BadIndices);
      }
      if model.None? {
        return Err(NoModel);
      }
      var f, cols := model.value, ix.value.ix;
      arePred := seq(|cd.data|, k requires 0 <= k < |cd.data| => learner(f, Project(cd.data[k], cols)));
      r := Ok(arePred);
      var p := Predict(State(), cd, learner).value;
      forall k | 0 <= k < |cd.data| ensures p[k] == arePred[k] {
        assert p[k] == Accept(State(), cd.data[k], learner);
      }
      assert p == arePred;
    }

    /** The loop of CutoffCategoriser.categorise. */
    method CategoriseCutoff(cd: CatData) returns (r: Result<seq<bool>>)
      requires WellFormed(cd)
      modifies this`arePred
      ensures r == CutoffResult(settings, cd)
      ensures arePred == CutoffPartial(settings, cd)
    {
      var n := |cd.data|;
      arePred := AllTrue(n);
      var mask: seq<bool> := [];
      var bound := false;
      var i := 0;
      while i < |settings|
        invariant 0 <= i <= |settings|
        invariant CutoffCheckFrom(settings, 0, cd.ncols, false) == CutoffCheckFrom(settings, i, cd.ncols, bound)
        invariant |arePred| == n && forall k :: 0 <= k < n ==> arePred[k] == CutoffAccept(settings[..i], cd.data[k])
        invariant bound ==> |mask| == n && forall k :: 0 <= k < n && arePred[k] ==> mask[k]
      {
        var m := CutoffMask(settings[i], cd, bound, mask);
        if m.Err? {
          r := Err(m.error);
          EntryRaises(settings, i, cd.ncols, bound, m.error);
          PartialAt(settings, cd, i, arePred);
          return;
        }
        forall k | 0 <= k < n
          ensures (arePred[k] && m.value[k]) == CutoffAccept(settings[..i + 1], cd.data[k])
        {
          AcceptStep(settings, i, cd.data[k]);
        }
        bound := bound || IsLoHi(settings[i].0);
        mask := m.value;
        arePred := And(arePred, mask);
        i := i + 1;
      }
      PartialAt(settings, cd, i, arePred);
      r := Ok(arePred);
    }

    /** `compare(are_hurr_actual, are_hurr_pred)`, with this object's
        `missed_count`. */
    method CompareCounts(actual: seq<bool>, pred: seq<bool>) returns (c: Counts)
      requires |actual| == |pred|
      modifies this`res
      ensures c == Compare(actual, pred, missedCount) && res == Some(c)
    {
      c := Compare(actual, pred, missedCount);
      res := Some(c);
    }

    /** `calc_stats()`: raises (a KeyError) while `res` is still empty. */
    method CalcStats() returns (o: Outcome)
      modifies this`sensitivity, this`ppv
      ensures o.Done? <==> res.Some?
      ensures res.Some? ==> sensitivity == Sensitivity(res.value) && ppv == Ppv(res.value)
      ensures res.None? ==> sensitivity == old(sensitivity) && ppv == old(ppv)
    {
      if res.None? {
        return Fail(NoCounts);
      }
      sensitivity := Sensitivity(res.value);
      ppv := Ppv(res.value);
      o := Done;
    }

    /** `try_cat(cat_data)`: categorise, count, derive the statistics. */
    method TryCat(cd: CatData, learner: Learner) returns (o: Outcome)
      requires WellFormed(cd)
      modifies this`missedCount, this`arePred, this`res, this`sensitivity, this`ppv
      ensures missedCount == cd.missedCount
      ensures o.Done? <==> Score(State(), cd, learner).Ok?
      ensures o.Done? ==> && res == Some(Score(State(), cd, learner).value)
                          && sensitivity == Sensitivity(res.value) && ppv == Ppv(res.value)
                          && arePred == Predict(State(), cd, learner).value
      ensures o.Fail? ==> && o.error == Score(State(), cd, learner).error
                          && res == old(res) && sensitivity == old(sensitivity) && ppv == old(ppv)
                          && arePred == PredAfter(State(), cd, old(arePred), learner)
    {
      missedCount := cd.missedCount;
      var p := Categorise(cd, learner);
      if p.Err? {
        return Fail(p.error);
      }
      var _ := CompareCounts(cd.areHurrActual, arePred);
      o := CalcStats();
    }
  }
}
