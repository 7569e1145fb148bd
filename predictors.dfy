/** What a single categoriser computes, as functions of its state: what
    `train` records, which rows `categorise` marks as hurricanes, and which
    exception it raises instead. The state changes themselves are made by the
    class in module Categorisers, proved against these functions. */
module Predictors {
  import opened Options
  import opened Strings
  import opened Masks
  import opened Settings
  import opened Features
  import opened Datasets

  /** CutoffCategoriser and the four classes that wrap a learning library
      estimator (LDA, QDA, decision tree, SGD with a standard scaler). */
  datatype Kind = Cutoff | Lda | Qda | Dta | Sgd

  /** Only the LDA, QDA, DTA and SGD classes set `is_trainable`. */
  predicate Trainable(k: Kind)
  {
    k != Cutoff
  }

  /** A fitted estimator, known by what its `fit` was given: the class, the
      keyword arguments it was built with, and the training columns and labels.
      For SGD the standard scaler is fitted on the same columns and is part of
      the fitted state. */
  datatype Fitted = Fitted(kind: Kind, params: Entries, x: seq<seq<real>>, y: seq<bool>)

  /** The estimator's `predict` for one row of selected columns (for SGD,
      scaling with the stored scaler included). The library is not modelled:
      every result below holds for every such function. */
  type Learner = (Fitted, seq<real>) -> bool

  /** The state a categoriser's predictions depend on: `is_trained`,
      `settings` and the fitted estimator, if any. */
  datatype Config = Config(kind: Kind, trained: bool, settings: Entries, model: Option<Fitted>)

  /** The exceptions the modelled code raises. */
  datatype CatError =
    | NotTrained                       // Exception('Not yet trained')
    | BadCutoffKey(key: string)        // `var, hilo = cutoff.split('_')` on other than two parts
    | UnknownFeature(name: string)     // KeyError in SCATTER_ATTRS
    | ColumnOutOfRange(index: nat)     // IndexError on data[:, index]
    | MaskUnbound(key: string)         // UnboundLocalError: `mask` used before any lo/hi key
    | NonNumericCutoff(key: string)    // a cutoff that is neither a number nor a bool (modelled as raising)
    | NoModel                          // the estimator is missing or was never fitted
    | BadIndices                       // settings['indices'] missing or not columns of data
    | MissingStageOptions(key: string) // KeyError on kwargs['one'] etc. in a chain
    | StageOptionsNotDict(key: string) // TypeError: `**` on a non-mapping
    | NotTrainable                     // AttributeError: no `is_trainable`
    | NoCounts                         // KeyError: statistics asked for before `compare`

  datatype Result<T> = Ok(value: T) | Err(error: CatError)

  datatype Outcome = Done | Fail(error: CatError)

  /** `range(SCATTER_ATTRS['lon']['index'])`, written out: columns 0 to 12. */
  function DefaultIndices(): (ix: seq<int>)
    ensures |ix| == 13 && forall j :: 0 <= j < 13 ==> ix[j] == j
  {
    seq(13, j => j)
  }

  /** The default selection is every column before `lon` in the schema. */
  lemma DefaultIndicesBeforeLon()
    ensures FeatureIndex("lon") == Some(|DefaultIndices()|)
    ensures forall j :: 0 <= j < |DefaultIndices()| ==> DefaultIndices()[j] == j
  {
    LonLatColumns();
  }

  /** The `indices` that `Categoriser.train` records: the given ones, or the
      default when they are absent or falsy. */
  function ResolvedIndices(indices: Option<Value>): Value
  {
    if indices.Some? && Truthy(indices.value) then indices.value else Indices(DefaultIndices())
  }

  /** `Categoriser.train`: settings become a copy of kwargs with `indices` set. */
  function BaseSettings(kwargs: Entries, indices: Option<Value>): (s: Entries)
    ensures Get(s, "indices") == Some(ResolvedIndices(indices))
  {
    Put(kwargs, "indices", ResolvedIndices(indices))
  }

  /** Every key of kwargs but `indices` reaches the settings unchanged. */
  lemma BaseSettingsOther(kwargs: Entries, indices: Option<Value>, k: string)
    requires k != "indices"
    ensures Get(BaseSettings(kwargs, indices), k) == Get(kwargs, k)
  {
    PutOther(kwargs, "indices", ResolvedIndices(indices), k);
  }

  /** The settings have the keys of kwargs and `indices`; like a Python
      dictionary they hold each key once when kwargs does. */
  lemma BaseSettingsKeys(kwargs: Entries, indices: Option<Value>)
    ensures KeySet(BaseSettings(kwargs, indices)) == KeySet(kwargs) + {"indices"}
    ensures DistinctKeys(kwargs) ==> DistinctKeys(BaseSettings(kwargs, indices))
  {
    PutKeySet(kwargs, "indices", ResolvedIndices(indices));
    if DistinctKeys(kwargs) {
      PutDistinct(kwargs, "indices", ResolvedIndices(indices));
    }
  }

  /** The preset `best_so_far` installs. */
  function BestSoFar(): Entries
  {
    [("vort_lo", Num(0.000104)),
     ("t995_lo", Num(297.2)),
     ("t850_lo", Num(286.7)),
     ("maxwindspeed_lo", Num(16.1)),
     ("pambdiff_lo", Num(563.4))]
  }

  /** `'best' in self.settings and self.settings['best'] == True`. */
  predicate WantsBest(s: Entries)
  {
    Get(s, "best").Some? && EqualsTrue(Get(s, "best").value)
  }

  /** The new state after `train(cat_data, indices, **kwargs)`, and whether
      it raised. CutoffCategoriser only records settings (or the preset);
      the estimator classes build a fresh estimator and fit it on
      `data[:, settings['indices']]`, which raises when those are not columns
      of the data, after `is_trained` and `settings` have been set and leaving
      the fresh estimator unfitted. */
  function TrainConfig(cfg: Config, cd: CatData, indices: Option<Value>, kwargs: Entries): (r: (Config, Outcome))
    requires WellFormed(cd)
    ensures r.0.trained && r.0.kind == cfg.kind
  {
    var s := BaseSettings(kwargs, indices);
    if cfg.kind == Cutoff then
      (Config(Cutoff, true, if WantsBest(s) then BestSoFar() else s, cfg.model), Done)
    else
      var ix := ResolvedIndices(indices);
      if ix.Indices? && ValidColumns(ix.ix, cd.ncols) then
        (Config(cfg.kind, true, s, Some(Fitted(cfg.kind, kwargs, ProjectRows(cd, ix.ix), cd.areHurrActual))), Done)
      else
        (Config(cfg.kind, true, s, None), Fail(BadIndices))
  }

  // ---------------------------------------------------------------------
  // The cutoff rule

  /** `var, hilo = key.split('_')`, None when that unpacking raises. */
  function ParseKey(key: string): (r: Option<(string, string)>)
    ensures r.Some? ==> Split(key, '_') == [r.value.0, r.value.1]
  {
    var parts := Split(key, '_');
    if |parts| == 2 then Some((parts[0], parts[1])) else None
  }

  /** Whether a key names a bound the rule applies (`*_lo` or `*_hi`). */
  predicate IsLoHi(key: string)
  {
    ParseKey(key).Some? && (ParseKey(key).value.1 == "lo" || ParseKey(key).value.1 == "hi")
  }

  /** The number numpy compares the column with (True and False as 1 and 0). */
  function CutoffNumber(v: Value): Option<real>
  {
    match v
    case Num(x) => Some(x)
    case Flag(b) => Some(if b then 1.0 else 0.0)
    case _ => None
  }

  /** The exception raised at one settings entry, in the order the loop
      body evaluates: split, feature lookup, then for lo/hi the column and the
      comparison, otherwise the reuse of `mask`, which raises only when no
      earlier entry has bound it. */
  function EntryError(e: (string, Value), ncols: nat, bound: bool): Option<CatError>
  {
    match ParseKey(e.0)
    case None => Some(BadCutoffKey(e.0))
    case Some((name, hilo)) =>
      match FeatureIndex(name)
      case None => Some(UnknownFeature(name))
      case Some(index) =>
        if hilo == "lo" || hilo == "hi" then
          if index >= ncols then Some(ColumnOutOfRange(index))
          else if CutoffNumber(e.1).None? then Some(NonNumericCutoff(e.0))
          else None
        else if bound then None
        else Some(MaskUnbound(e.0))
  }

  /** The first failing entry at or after position i, with its exception. */
  function CutoffCheckFrom(es: Entries, i: nat, ncols: nat, bound: bool): (r: Option<(nat, CatError)>)
    requires i <= |es|
    ensures r.Some? ==> i <= r.value.0 < |es| && EntryError(es[r.value.0], ncols, false).Some?
    decreases |es| - i
  {
    if i == |es| then None
    else match EntryError(es[i], ncols, bound)
      case Some(err) => Some((i, err))
      case None => CutoffCheckFrom(es, i + 1, ncols, bound || IsLoHi(es[i].0))
  }

  /** How many entries the loop completes before raising (all, when none raises). */
  function CutoffStop(es: Entries, ncols: nat): (n: nat)
    ensures n <= |es|
  {
    match CutoffCheckFrom(es, 0, ncols, false)
    case None => |es|
    case Some((i, _)) => i
  }

  /** Whether a row passes one entry's own comparison: strictly above a `lo`
      cutoff, strictly below a `hi` cutoff. An entry that is not a lo/hi bound
      ANDs in the previous mask again, which changes nothing. */
  predicate Passes(e: (string, Value), row: seq<real>)
  {
    match ParseKey(e.0)
    case None => true
    case Some((name, hilo)) =>
      match FeatureIndex(name)
      case None => true
      case Some(index) =>
        if index < |row| && CutoffNumber(e.1).Some? then
          if hilo == "lo" then row[index] > CutoffNumber(e.1).value
          else if hilo == "hi" then row[index] < CutoffNumber(e.1).value
          else true
        else true
  }

  /** The row's entry of the mask after the loop has processed es: the
      all-true start ANDed with each entry's comparison in turn. */
  predicate CutoffAccept(es: Entries, row: seq<real>)
    decreases |es|
  {
    if es == [] then true else CutoffAccept(es[..|es| - 1], row) && Passes(es[|es| - 1], row)
  }

  // ---------------------------------------------------------------------
  // Predictions of any categoriser

  /** The exception `categorise` raises, if any; it depends on the state and
      the number of columns only, never on the rows. An estimator class
      evaluates `data[:, indices]` before its estimator's `predict` runs, so
      columns that do not fit the data raise before a missing fit does. */
  function PredictError(cfg: Config, ncols: nat): Option<CatError>
  {
    if !cfg.trained then Some(NotTrained)
    else if cfg.kind == Cutoff then
      match CutoffCheckFrom(cfg.settings, 0, ncols, false)
      case None => None
      case Some((_, err)) => Some(err)
    else
      match Get(cfg.settings, "indices")
      case None => Some(BadIndices)
      case Some(v) =>
        if !(v.Indices? && ValidColumns(v.ix, ncols)) then Some(BadIndices)
        else if cfg.model.None? then Some(NoModel)
        else None
  }

  /** Whether `categorise` marks one row as a hurricane. */
  predicate Accept(cfg: Config, row: seq<real>, learner: Learner)
  {
    if cfg.kind == Cutoff then CutoffAccept(cfg.settings, row)
    else
      match (Get(cfg.settings, "indices"), cfg.model)
      case (Some(Indices(ix)), Some(f)) => ValidColumns(ix, |row|) && learner(f, Project(row, ix))
      case _ => false
  }

  /** `categorise(cat_data)`: one prediction per row, or the exception. */
  function Predict(cfg: Config, cd: CatData, learner: Learner): (r: Result<seq<bool>>)
    requires WellFormed(cd)
    ensures r.Ok? ==> |r.value| == |cd.data|
  {
    match PredictError(cfg, cd.ncols)
    case Some(err) => Err(err)
    case None => Ok(seq(|cd.data|, r requires 0 <= r < |cd.data| => Accept(cfg, cd.data[r], learner)))
  }

  /** The mask CutoffCategoriser leaves in `are_hurr_pred`, also when it
      raises part-way: the entries completed so far, ANDed. */
  function CutoffPartial(es: Entries, cd: CatData): (m: seq<bool>)
    requires WellFormed(cd)
    ensures |m| == |cd.data|
  {
    var n := CutoffStop(es, cd.ncols);
    seq(|cd.data|, r requires 0 <= r < |cd.data| => CutoffAccept(es[..n], cd.data[r]))
  }

  /** What `categorise` leaves in `are_hurr_pred`, given the mask it held
      before: the prediction when it succeeds; for a trained
      CutoffCategoriser the mask of the entries completed, also when it
      raises part-way; otherwise the earlier mask. */
  function PredAfter(cfg: Config, cd: CatData, prev: seq<bool>, learner: Learner): (m: seq<bool>)
    requires WellFormed(cd)
    ensures Predict(cfg, cd, learner).Ok? ==> m == Predict(cfg, cd, learner).value
    ensures Predict(cfg, cd, learner).Err? && !(cfg.trained && cfg.kind == Cutoff) ==> m == prev
  {
    if cfg.trained && cfg.kind == Cutoff then
      CutoffPredict(cfg.settings, cfg.model, cd, learner);
      CutoffPartial(cfg.settings, cd)
    else
      match Predict(cfg, cd, learner)
      case Ok(p) => p
      case Err(_) => prev
  }

  /** What the cutoff loop returns: the full mask, or the first exception. */
  function CutoffResult(es: Entries, cd: CatData): (r: Result<seq<bool>>)
    requires WellFormed(cd)
  {
    match CutoffCheckFrom(es, 0, cd.ncols, false)
    case None => Ok(CutoffPartial(es, cd))
    case Some((_, err)) => Err(err)
  }

  /** One more entry ANDs in its own comparison. */
  lemma AcceptStep(es: Entries, i: nat, row: seq<real>)
    requires i < |es|
    ensures CutoffAccept(es[..i + 1], row) == (CutoffAccept(es[..i], row) && Passes(es[i], row))
  {
    assert es[..i + 1][..i] == es[..i];
  }

  /** A mask holding, row by row, the entries before the stop is the partial mask. */
  lemma PartialAt(es: Entries, cd: CatData, i: nat, m: seq<bool>)
    requires WellFormed(cd) && CutoffStop(es, cd.ncols) == i
    requires |m| == |cd.data| && forall k :: 0 <= k < |cd.data| ==> m[k] == CutoffAccept(es[..i], cd.data[k])
    ensures m == CutoffPartial(es, cd)
  {
  }

  /** An entry that raises, reached with no earlier raise, is where the loop stops. */
  lemma EntryRaises(es: Entries, i: nat, ncols: nat, bound: bool, err: CatError)
    requires i < |es| && EntryError(es[i], ncols, bound) == Some(err)
    requires CutoffCheckFrom(es, 0, ncols, false) == CutoffCheckFrom(es, i, ncols, bound)
    ensures CutoffCheckFrom(es, 0, ncols, false) == Some((i, err))
    ensures CutoffStop(es, ncols) == i
  {
  }

  /** The cutoff loop computes `categorise` of a trained CutoffCategoriser. */
  lemma CutoffPredict(es: Entries, model: Option<Fitted>, cd: CatData, learner: Learner)
    requires WellFormed(cd)
    ensures CutoffResult(es, cd) == Predict(Config(Cutoff, true, es, model), cd, learner)
  {
    if CutoffCheckFrom(es, 0, cd.ncols, false).None? {
      var cfg := Config(Cutoff, true, es, model);
      assert PredictError(cfg, cd.ncols).None?;
      var p := Predict(cfg, cd, learner).value;
      var m := CutoffPartial(es, cd);
      assert es[..|es|] == es;
      forall k | 0 <= k < |cd.data| ensures p[k] == m[k] {
        assert p[k] == Accept(cfg, cd.data[k], learner);
      }
      assert p == m;
    }
  }

  // ---------------------------------------------------------------------
  // Properties

  /** Before `train`, `categorise` raises "Not yet trained", whatever the kind. */
  lemma UntrainedRaises(cfg: Config, cd: CatData, learner: Learner)
    requires WellFormed(cd) && !cfg.trained
    ensures Predict(cfg, cd, learner) == Err(NotTrained)
  {
  }

  /** What `train` records: trained, same kind; CutoffCategoriser keeps the
      kwargs plus `indices`, or the preset when `best=True`; the estimator
      classes keep the kwargs plus `indices` and, when those select columns
      of the data, an estimator fitted on those columns with the kwargs,
      otherwise an unfitted one, and `categorise` on the same data raises
      the IndexError of `data[:, indices]`. */
  lemma TrainRecords(cfg: Config, cd: CatData, indices: Option<Value>, kwargs: Entries)
    requires WellFormed(cd)
    ensures var (c, o) := TrainConfig(cfg, cd, indices, kwargs);
      && c.trained && c.kind == cfg.kind
      && (cfg.kind == Cutoff ==> o == Done)
      && (cfg.kind == Cutoff && WantsBest(BaseSettings(kwargs, indices)) ==> c.settings == BestSoFar())
      && (cfg.kind == Cutoff && !WantsBest(BaseSettings(kwargs, indices)) ==>
            Get(c.settings, "indices") == Some(ResolvedIndices(indices)))
      && (cfg.kind != Cutoff ==> Get(c.settings, "indices") == Some(ResolvedIndices(indices)))
      && (cfg.kind != Cutoff && o == Done ==>
            c.model == Some(Fitted(cfg.kind, kwargs, ProjectRows(cd, ResolvedIndices(indices).ix), cd.areHurrActual)))
      && (o.Fail? ==> c.model.None? && PredictError(c, cd.ncols) == Some(BadIndices))
  {
  }

  /** The mask is the AND of every entry's own comparison. */
  lemma {:induction false} CutoffAcceptAll(es: Entries, row: seq<real>)
    ensures CutoffAccept(es, row) <==> forall j :: 0 <= j < |es| ==> Passes(es[j], row)
    decreases |es|
  {
    if es != [] {
      var init := es[..|es| - 1];
      CutoffAcceptAll(init, row);
      assert forall j :: 0 <= j < |init| ==> init[j] == es[j];
    }
  }

  /** A lo entry admits exactly the rows strictly above its cutoff in its
      feature's column; a hi entry those strictly below. */
  lemma PassesBound(key: string, v: Value, row: seq<real>, name: string, hilo: string, index: nat, c: real)
    requires ParseKey(key) == Some((name, hilo)) && FeatureIndex(name) == Some(index)
    requires index < |row| && CutoffNumber(v) == Some(c)
    ensures hilo == "lo" ==> (Passes((key, v), row) <==> row[index] > c)
    ensures hilo == "hi" ==> (Passes((key, v), row) <==> row[index] < c)
  {
  }

  /** With only lo/hi keys, the loop raises exactly when some entry is bad on
      its own (whatever came before it). */
  lemma {:induction false} CutoffCheckLoHi(es: Entries, i: nat, ncols: nat, bound: bool)
    requires i <= |es|
    requires forall j :: i <= j < |es| ==> IsLoHi(es[j].0)
    ensures CutoffCheckFrom(es, i, ncols, bound).None?
        <==> forall j :: i <= j < |es| ==> EntryError(es[j], ncols, true).None?
    decreases |es| - i
  {
    if i < |es| {
      LoHiIgnoresBound(es[i], ncols, bound);
      assert IsLoHi(es[i].0);
      CutoffCheckLoHi(es, i + 1, ncols, true);
      assert CutoffCheckFrom(es, i, ncols, bound).None?
          <==> EntryError(es[i], ncols, true).None? && CutoffCheckFrom(es, i + 1, ncols, true).None?;
      SplitFirst(es, i, ncols);
    }
  }

  /** Every entry from i on is free of errors exactly when entry i is and
      every entry from i + 1 on is. */
  lemma SplitFirst(es: Entries, i: nat, ncols: nat)
    requires i < |es|
    ensures (forall j :: i <= j < |es| ==> EntryError(es[j], ncols, true).None?)
        <==> EntryError(es[i], ncols, true).None?
             && forall j :: i + 1 <= j < |es| ==> EntryError(es[j], ncols, true).None?
  {
  }

  /** A lo/hi entry raises or not whether or not `mask` is bound. */
  lemma LoHiIgnoresBound(e: (string, Value), ncols: nat, bound: bool)
    requires IsLoHi(e.0)
    ensures EntryError(e, ncols, bound) == EntryError(e, ncols, true)
  {
  }

  /** Entries that are the same set, in any order, reject the same rows. */
  lemma SameEntriesAccept(s1: Entries, s2: Entries, row: seq<real>)
    requires forall e :: e in s1 <==> e in s2
    ensures CutoffAccept(s1, row) == CutoffAccept(s2, row)
  {
    CutoffAcceptAll(s1, row);
    CutoffAcceptAll(s2, row);
    if CutoffAccept(s1, row) {
      forall j | 0 <= j < |s2| ensures Passes(s2[j], row) {
        assert s2[j] in s1;
      }
    }
    if CutoffAccept(s2, row) {
      forall j | 0 <= j < |s1| ensures Passes(s1[j], row) {
        assert s1[j] in s2;
      }
    }
  }

  /** Entries that are the same set, all lo/hi, raise alike. */
  lemma SameEntriesRaise(s1: Entries, s2: Entries, ncols: nat)
    requires forall e :: e in s1 <==> e in s2
    requires forall j :: 0 <= j < |s1| ==> IsLoHi(s1[j].0)
    ensures CutoffCheckFrom(s1, 0, ncols, false).None? == CutoffCheckFrom(s2, 0, ncols, false).None?
  {
    forall j | 0 <= j < |s2| ensures IsLoHi(s2[j].0) {
      assert s2[j] in s1;
    }
    CutoffCheckLoHi(s1, 0, ncols, false);
    CutoffCheckLoHi(s2, 0, ncols, false);
    if forall j :: 0 <= j < |s1| ==> EntryError(s1[j], ncols, true).None? {
      forall j | 0 <= j < |s2| ensures EntryError(s2[j], ncols, true).None? {
        assert s2[j] in s1;
      }
    }
    if forall j :: 0 <= j < |s2| ==> EntryError(s2[j], ncols, true).None? {
      forall j | 0 <= j < |s1| ensures EntryError(s1[j], ncols, true).None? {
        assert s1[j] in s2;
      }
    }
  }

  /** The cutoff rule does not depend on the order of its settings: two
      settings with the same entries (lo/hi keys only) raise alike and, when
      they do not raise, give the same mask. */
  lemma CutoffOrderFree(s1: Entries, s2: Entries, model: Option<Fitted>, cd: CatData, learner: Learner)
    requires WellFormed(cd)
    requires forall e :: e in s1 <==> e in s2
    requires forall j :: 0 <= j < |s1| ==> IsLoHi(s1[j].0)
    ensures var p1 := Predict(Config(Cutoff, true, s1, model), cd, learner);
            var p2 := Predict(Config(Cutoff, true, s2, model), cd, learner);
            p1.Ok? == p2.Ok? && (p1.Ok? ==> p1 == p2)
  {
    SameEntriesRaise(s1, s2, cd.ncols);
    var p1 := Predict(Config(Cutoff, true, s1, model), cd, learner);
    var p2 := Predict(Config(Cutoff, true, s2, model), cd, learner);
    if p1.Ok? {
      forall r | 0 <= r < |cd.data| ensures p1.value[r] == p2.value[r] {
        SameEntriesAccept(s1, s2, cd.data[r]);
      }
      assert p1.value == p2.value;
    }
  }

  /** Empty settings mark every row. */
  lemma CutoffEmpty(model: Option<Fitted>, cd: CatData, learner: Learner)
    requires WellFormed(cd)
    ensures Predict(Config(Cutoff, true, [], model), cd, learner) == Ok(AllTrue(|cd.data|))
  {
    var cfg := Config(Cutoff, true, [], model);
    assert PredictError(cfg, cd.ncols) == None;
    var p := Predict(cfg, cd, learner).value;
    forall r | 0 <= r < |p| ensures p[r] {
      assert p[r] == Accept(cfg, cd.data[r], learner) == CutoffAccept([], cd.data[r]);
    }
    assert p == AllTrue(|cd.data|);
  }

  /** A key that does not split into two parts makes the loop raise, at that
      entry or before it. */
  lemma {:induction false} UnsplittableKeyRaises(es: Entries, i: nat, j: nat, ncols: nat, bound: bool)
    requires i <= j < |es| && ParseKey(es[j].0).None?
    ensures CutoffCheckFrom(es, i, ncols, bound).Some?
    ensures CutoffCheckFrom(es, i, ncols, bound).value.0 <= j
    decreases |es| - i
  {
    if i < j && EntryError(es[i], ncols, bound).None? {
      UnsplittableKeyRaises(es, i + 1, j, ncols, bound || IsLoHi(es[i].0));
    }
  }

  /** The `indices` entry that `train` adds does not split on '_'. */
  lemma IndicesKeyUnsplittable()
    ensures ParseKey("indices").None?
  {
    var k := "indices";
    assert forall c :: c in k ==> c != '_';
    SplitNoSep(k, '_');
  }

  /** A CutoffCategoriser trained without `best=True` can never categorise:
      the `indices` key that `train` records makes the loop raise. */
  lemma CutoffWithoutBestRaises(cfg: Config, cd: CatData, indices: Option<Value>, kwargs: Entries,
                                cd2: CatData, learner: Learner)
    requires WellFormed(cd) && WellFormed(cd2) && cfg.kind == Cutoff
    requires !WantsBest(BaseSettings(kwargs, indices))
    ensures Predict(TrainConfig(cfg, cd, indices, kwargs).0, cd2, learner).Err?
  {
    var s := BaseSettings(kwargs, indices);
    assert TrainConfig(cfg, cd, indices, kwargs).0.settings == s;
    var v := Get(s, "indices").value;
    GetFound(s, "indices");
    var j :| 0 <= j < |s| && s[j] == ("indices", v);
    IndicesKeyUnsplittable();
    UnsplittableKeyRaises(s, 0, j, cd2.ncols, false);
  }

  /** A key `name_hilo` with no '_' in either part parses into its parts. */
  lemma KeyParts(name: string, hilo: string)
    requires '_' !in name && '_' !in hilo
    ensures ParseKey(name + "_" + hilo) == Some((name, hilo))
  {
    SplitCons(name, '_', hilo);
    SplitNoSep(hilo, '_');
  }

  /** The names, columns and cutoffs of the `best_so_far` preset, in order. */
  const PresetNames: seq<string> := ["vort", "t995", "t850", "maxwindspeed", "pambdiff"]
  const PresetCols: seq<nat> := [0, 4, 5, 7, 2]
  const PresetCutoffs: seq<real> := [0.000104, 297.2, 286.7, 16.1, 563.4]

  /** Entry j of the preset is the lo bound of feature PresetNames[j]. */
  lemma PresetEntry(j: nat)
    requires j < 5
    ensures ParseKey(BestSoFar()[j].0) == Some((PresetNames[j], "lo"))
    ensures FeatureIndex(PresetNames[j]) == Some(PresetCols[j])
    ensures CutoffNumber(BestSoFar()[j].1) == Some(PresetCutoffs[j])
  {
    if j == 0 {
      PresetKey(0, "vort");
      VortColumn();
    } else if j == 1 {
      PresetKey(1, "t995");
      T995Column();
    } else if j == 2 {
      PresetKey(2, "t850");
      T850Column();
    } else if j == 3 {
      PresetKey(3, "maxwindspeed");
      MaxwindspeedColumn();
    } else {
      PresetKey(4, "pambdiff");
      PambdiffColumn();
    }
  }

  /** The key of preset entry j is `name_lo`. */
  lemma PresetKey(j: nat, name: string)
    requires j < 5 && '_' !in name && BestSoFar()[j].0 == name + "_" + "lo"
    ensures ParseKey(BestSoFar()[j].0) == Some((name, "lo"))
  {
    KeyParts(name, "lo");
  }

  /** Settings made of lo entries only, entry j bounding column cols[j] from
      below by cs[j]. */
  predicate LowerBounds(es: Entries, names: seq<string>, cols: seq<nat>, cs: seq<real>)
  {
    && |names| == |es| && |cols| == |es| && |cs| == |es|
    && forall j :: 0 <= j < |es| ==>
         ParseKey(es[j].0) == Some((names[j], "lo")) && FeatureIndex(names[j]) == Some(cols[j])
         && CutoffNumber(es[j].1) == Some(cs[j])
  }

  /** Lower bounds raise exactly when one of their columns is missing. */
  lemma LowerBoundsRaise(es: Entries, names: seq<string>, cols: seq<nat>, cs: seq<real>, ncols: nat)
    requires LowerBounds(es, names, cols, cs)
    ensures CutoffCheckFrom(es, 0, ncols, false).None? <==> forall j :: 0 <= j < |es| ==> cols[j] < ncols
  {
    CutoffCheckLoHi(es, 0, ncols, false);
  }

  /** Lower bounds admit exactly the rows strictly above every cutoff. */
  lemma LowerBoundsAccept(es: Entries, names: seq<string>, cols: seq<nat>, cs: seq<real>, row: seq<real>)
    requires LowerBounds(es, names, cols, cs)
    requires forall j :: 0 <= j < |es| ==> cols[j] < |row|
    ensures CutoffAccept(es, row) <==> forall j :: 0 <= j < |es| ==> row[cols[j]] > cs[j]
  {
    CutoffAcceptAll(es, row);
    forall j | 0 <= j < |es| ensures Passes(es[j], row) <==> row[cols[j]] > cs[j] {
      PassesBound(es[j].0, es[j].1, row, names[j], "lo", cols[j], cs[j]);
    }
  }

  /** The preset as lower bounds on columns 0, 4, 5, 7 and 2. */
  lemma PresetBounds()
    ensures LowerBounds(BestSoFar(), PresetNames, PresetCols, PresetCutoffs)
  {
    forall j | 0 <= j < 5
      ensures ParseKey(BestSoFar()[j].0) == Some((PresetNames[j], "lo"))
      ensures FeatureIndex(PresetNames[j]) == Some(PresetCols[j])
      ensures CutoffNumber(BestSoFar()[j].1) == Some(PresetCutoffs[j])
    {
      PresetEntry(j);
    }
  }

  /** Column 7 is the widest column of the preset. */
  lemma PresetWidest(ncols: nat)
    ensures (forall j :: 0 <= j < 5 ==> PresetCols[j] < ncols) <==> ncols > 7
  {
    assert PresetCols[3] == 7;
  }

  /** The five comparisons of the preset, written out. */
  lemma PresetComparisons(row: seq<real>)
    requires |row| > 7
    ensures (forall j :: 0 <= j < 5 ==> row[PresetCols[j]] > PresetCutoffs[j])
        <==> row[0] > 0.000104 && row[4] > 297.2 && row[5] > 286.7 && row[7] > 16.1 && row[2] > 563.4
  {
    var cols, cs := PresetCols, PresetCutoffs;
    assert cols[0] == 0 && cols[1] == 4 && cols[2] == 5 && cols[3] == 7 && cols[4] == 2;
    assert cs[0] == 0.000104 && cs[1] == 297.2 && cs[2] == 286.7 && cs[3] == 16.1 && cs[4] == 563.4;
    if row[0] > 0.000104 && row[4] > 297.2 && row[5] > 286.7 && row[7] > 16.1 && row[2] > 563.4 {
      forall j | 0 <= j < 5 ensures row[cols[j]] > cs[j] {
        assert j == 0 || j == 1 || j == 2 || j == 3 || j == 4;
      }
    }
  }

  /** Settings with the preset's bounds raise exactly when the data has no
      column 7 (the widest column they read, maximum wind speed). */
  lemma PresetRaises(es: Entries, names: seq<string>, ncols: nat)
    requires LowerBounds(es, names, PresetCols, PresetCutoffs)
    ensures CutoffCheckFrom(es, 0, ncols, false).None? <==> ncols > 7
  {
    LowerBoundsRaise(es, names, PresetCols, PresetCutoffs, ncols);
    PresetWidest(ncols);
  }

  /** Settings with the preset's bounds admit exactly the rows above all five
      cutoffs. */
  lemma PresetAccepts(es: Entries, names: seq<string>, row: seq<real>)
    requires LowerBounds(es, names, PresetCols, PresetCutoffs) && |row| > 7
    ensures CutoffAccept(es, row)
        <==> row[0] > 0.000104 && row[4] > 297.2 && row[5] > 286.7 && row[7] > 16.1 && row[2] > 563.4
  {
    PresetWidest(|row|);
    LowerBoundsAccept(es, names, PresetCols, PresetCutoffs, row);
    PresetComparisons(row);
  }

  /** A CutoffCategoriser trained with `best=True` categorises any data of
      more than seven columns, marking the rows above all five preset cutoffs,
      and raises on narrower data. */
  lemma CutoffBestRule(cfg: Config, cd: CatData, indices: Option<Value>, kwargs: Entries,
                       cd2: CatData, learner: Learner)
    requires WellFormed(cd) && WellFormed(cd2) && cfg.kind == Cutoff
    requires WantsBest(BaseSettings(kwargs, indices))
    ensures var p := Predict(TrainConfig(cfg, cd, indices, kwargs).0, cd2, learner);
      && (p.Ok? <==> cd2.ncols > 7)
      && (p.Ok? ==> forall r :: 0 <= r < |cd2.data| ==>
            (p.value[r] <==> var row := cd2.data[r];
               row[0] > 0.000104 && row[4] > 297.2 && row[5] > 286.7 && row[7] > 16.1 && row[2] > 563.4))
  {
    var c := TrainConfig(cfg, cd, indices, kwargs).0;
    PresetBounds();
    PresetRaises(c.settings, PresetNames, cd2.ncols);
    forall r | 0 <= r < |cd2.data| && cd2.ncols > 7
      ensures var row := cd2.data[r];
        CutoffAccept(c.settings, row)
        <==> row[0] > 0.000104 && row[4] > 297.2 && row[5] > 286.7 && row[7] > 16.1 && row[2] > 563.4
    {
      PresetAccepts(c.settings, PresetNames, cd2.data[r]);
    }
  }

  /** The default selection is valid on data of at least 13 columns and
      picks a row's first 13 values. */
  lemma DefaultColumns(ncols: nat, row: seq<real>)
    requires ncols >= 13
    ensures ValidColumns(DefaultIndices(), ncols)
    ensures |row| >= 13 ==> Project(row, DefaultIndices()) == row[..13]
  {
    var ix := DefaultIndices();
    if |row| >= 13 {
      var p := Project(row, ix);
      forall j | 0 <= j < 13 ensures p[j] == row[j] {
        assert ix[j] == j;
      }
    }
  }

  /** Training an estimator without indices on data of at least 13 columns
      fits it on those first 13 columns. */
  lemma TrainDefault(cfg: Config, cd: CatData, kwargs: Entries)
    requires WellFormed(cd) && cfg.kind != Cutoff && cd.ncols >= 13
    ensures TrainConfig(cfg, cd, None, kwargs)
         == (Config(cfg.kind, true, BaseSettings(kwargs, None),
                    Some(Fitted(cfg.kind, kwargs, ProjectRows(cd, DefaultIndices()), cd.areHurrActual))), Done)
  {
    DefaultColumns(cd.ncols, []);
  }

  /** A fitted estimator with the default selection raises on no data of at
      least 13 columns. */
  lemma DefaultNoError(c: Config, ncols: nat, kwargs: Entries, f: Fitted)
    requires c.kind != Cutoff && ncols >= 13
    requires c == Config(c.kind, true, BaseSettings(kwargs, None), Some(f))
    ensures PredictError(c, ncols) == None
  {
    DefaultColumns(ncols, []);
  }

  /** An estimator trained with the default columns on data of at least 13
      columns categorises any such data by asking the fitted estimator about
      each row's first 13 columns, the features before `lon`. */
  lemma LearnedDefaultColumns(cfg: Config, cd: CatData, kwargs: Entries, cd2: CatData, learner: Learner)
    requires WellFormed(cd) && WellFormed(cd2) && cfg.kind != Cutoff
    requires cd.ncols >= 13 && cd2.ncols >= 13
    ensures TrainConfig(cfg, cd, None, kwargs).1 == Done
    ensures Predict(TrainConfig(cfg, cd, None, kwargs).0, cd2, learner).Ok?
    ensures var f := Fitted(cfg.kind, kwargs, ProjectRows(cd, DefaultIndices()), cd.areHurrActual);
      forall r :: 0 <= r < |cd2.data| ==>
        Predict(TrainConfig(cfg, cd, None, kwargs).0, cd2, learner).value[r] == learner(f, cd2.data[r][..13])
  {
    var f := Fitted(cfg.kind, kwargs, ProjectRows(cd, DefaultIndices()), cd.areHurrActual);
    var c := Config(cfg.kind, true, BaseSettings(kwargs, None), Some(f));
    TrainDefault(cfg, cd, kwargs);
    DefaultNoError(c, cd2.ncols, kwargs, f);
    var p := Predict(c, cd2, learner).value;
    forall r | 0 <= r < |cd2.data| ensures p[r] == learner(f, cd2.data[r][..13]) {
      DefaultColumns(cd2.ncols, cd2.data[r]);
    }
  }
}
