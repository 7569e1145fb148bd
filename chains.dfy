/** CategoriserChain: categorisers applied one after another, each stage
    seeing only the rows every earlier stage accepted. The functions state what
    `train` and `categorise` compute; the class updates the chain and its
    stages and is proved against them. */
module Chains {
  import opened Options
  import opened Masks
  import opened Settings
  import opened Datasets
  import opened Evaluation
  import opened Predictors
  import opened Categorisers

  /** The stages from here on, given the rows still in play (`curr`) and the
      running mask over the original rows: each stage predicts on `curr`,
      the mask takes its answers where it was true (`a[a] = p`), and `curr`
      keeps the rows the stage accepted. */
  function ChainRun(cfgs: seq<Config>, curr: CatData, running: seq<bool>, learner: Learner): (r: Result<seq<bool>>)
    requires WellFormed(curr) && |curr.data| == Count(running)
    ensures r.Ok? ==> |r.value| == |running|
    decreases |cfgs|
  {
    if cfgs == [] then Ok(running)
    else match Predict(cfgs[0], curr, learner)
      case Err(e) => Err(e)
      case Ok(p) =>
        ScatterCount(running, p);
        ChainRun(cfgs[1..], Narrow(curr, p), Scatter(running, p), learner)
  }

  /** ChainRun from stage i of the whole list, as the object's loop runs
      it. */
  function ChainRunFrom(cfgs: seq<Config>, i: nat, curr: CatData, running: seq<bool>, learner: Learner)
    : (r: Result<seq<bool>>)
    requires WellFormed(curr) && |curr.data| == Count(running)
    ensures r.Ok? ==> |r.value| == |running|
    decreases |cfgs| - i
  {
    if i >= |cfgs| then Ok(running)
    else match Predict(cfgs[i], curr, learner)
      case Err(e) => Err(e)
      case Ok(p) =>
        ScatterCount(running, p);
        ChainRunFrom(cfgs, i + 1, Narrow(curr, p), Scatter(running, p), learner)
  }

  /** The loop from stage i runs the stages from i on. */
  lemma {:induction false} ChainRunFromIs(cfgs: seq<Config>, i: nat, curr: CatData, running: seq<bool>,
                                          learner: Learner)
    requires WellFormed(curr) && |curr.data| == Count(running) && i <= |cfgs|
    ensures ChainRunFrom(cfgs, i, curr, running, learner) == ChainRun(cfgs[i..], curr, running, learner)
    decreases |cfgs| - i
  {
    if i < |cfgs| {
      assert cfgs[i..][0] == cfgs[i] && cfgs[i..][1..] == cfgs[i + 1..];
      match Predict(cfgs[i], curr, learner)
      case Err(_) =>
      case Ok(p) =>
        ScatterCount(running, p);
        ChainRunFromIs(cfgs, i + 1, Narrow(curr, p), Scatter(running, p), learner);
    }
  }

  /** `CategoriserChain.categorise(cat_data)`. */
  function ChainPredict(trained: bool, cfgs: seq<Config>, cd: CatData, learner: Learner): (r: Result<seq<bool>>)
    requires WellFormed(cd)
    ensures r.Ok? ==> |r.value| == |cd.data|
  {
    FilterAllTrue(cd.data);
    if !trained then Err(NotTrained) else ChainRun(cfgs, cd, AllTrue(|cd.data|), learner)
  }

  /** `categorise` followed by `compare` for a chain: the counts `try_cat`
      stores, or the exception it raises. */
  function ChainScore(trained: bool, cfgs: seq<Config>, cd: CatData, learner: Learner): (r: Result<Counts>)
    requires WellFormed(cd)
    ensures r.Ok? ==> r.value.tp + r.value.fp + r.value.tn + r.value.fn == |cd.data| + cd.missedCount
    ensures r.Ok? ==> r.value.fn >= cd.missedCount
  {
    Scored(cd, ChainPredict(trained, cfgs, cd, learner))
  }

  /** `compare` on what `categorise` answered: the counts, or the exception
      `categorise` raised. */
  function Scored(cd: CatData, p: Result<seq<bool>>): (r: Result<Counts>)
    requires |cd.areHurrActual| == |cd.data| && (p.Ok? ==> |p.value| == |cd.data|)
    ensures r.Ok? <==> p.Ok?
    ensures r.Err? ==> r.error == p.error
    ensures r.Ok? ==> r.value.tp + r.value.fp + r.value.tn + r.value.fn == |cd.data| + cd.missedCount
    ensures r.Ok? ==> r.value.fn >= cd.missedCount
  {
    match p
    case Err(e) => Err(e)
    case Ok(v) => Ok(Compare(cd.areHurrActual, v, cd.missedCount))
  }

  /** The stages' masks after `categorise`: an untrained chain raises
      before any stage runs, a trained one runs the loop from the first
      stage. */
  function ChainPreds(trained: bool, cfgs: seq<Config>, cd: CatData, preds: seq<seq<bool>>, learner: Learner)
    : (r: seq<seq<bool>>)
    requires WellFormed(cd) && |preds| == |cfgs|
    ensures |r| == |cfgs|
    ensures !trained ==> r == preds
  {
    if trained then StagePredsFrom(cfgs, 0, cd, preds, learner) else preds
  }

  /** The `are_hurr_pred` of every stage once the `categorise` loop has run
      from stage i on, `curr` being the rows in play and `preds` the masks
      the stages held: each stage reached leaves what its own `categorise`
      leaves on the rows in play, and the loop ends at the first stage that
      raises. */
  function StagePredsFrom(cfgs: seq<Config>, i: nat, curr: CatData, preds: seq<seq<bool>>, learner: Learner)
    : (r: seq<seq<bool>>)
    requires WellFormed(curr) && |preds| == |cfgs|
    ensures |r| == |cfgs|
    decreases |cfgs| - i
  {
    if i >= |cfgs| then preds
    else
      var a := PredAfter(cfgs[i], curr, preds[i], learner);
      match Predict(cfgs[i], curr, learner)
      case Err(_) => preds[i := a]
      case Ok(p) => StagePredsFrom(cfgs, i + 1, Narrow(curr, p), preds[i := a], learner)
  }

  /** StagePredsFrom at a stage that is reached: that stage's mask, then the
      rest unless it raised. */
  lemma StagePredsAt(cfgs: seq<Config>, i: nat, curr: CatData, preds: seq<seq<bool>>, learner: Learner)
    requires WellFormed(curr) && |preds| == |cfgs| && i < |cfgs|
    ensures var a := PredAfter(cfgs[i], curr, preds[i], learner);
      var q := Predict(cfgs[i], curr, learner);
      && (q.Err? ==> StagePredsFrom(cfgs, i, curr, preds, learner) == preds[i := a])
      && (q.Ok? ==> StagePredsFrom(cfgs, i, curr, preds, learner)
                    == StagePredsFrom(cfgs, i + 1, Narrow(curr, q.value), preds[i := a], learner))
  {
  }

  /** The rows a chain accepts are as many as the last stage accepted among
      the rows it was shown. */
  lemma {:induction false} StagePredsLast(cfgs: seq<Config>, i: nat, curr: CatData, running: seq<bool>,
                                          preds: seq<seq<bool>>, learner: Learner)
    requires WellFormed(curr) && |curr.data| == Count(running) && |preds| == |cfgs| && i < |cfgs|
    requires ChainRun(cfgs[i..], curr, running, learner).Ok?
    ensures Count(ChainRun(cfgs[i..], curr, running, learner).value)
         == Count(StagePredsFrom(cfgs, i, curr, preds, learner)[|cfgs| - 1])
    decreases |cfgs| - i
  {
    assert cfgs[i..][0] == cfgs[i] && cfgs[i..][1..] == cfgs[i + 1..];
    var p := Predict(cfgs[i], curr, learner).value;
    ScatterCount(running, p);
    var next := Scatter(running, p);
    if i + 1 == |cfgs| {
      assert cfgs[i + 1..] == [];
    } else {
      StagePredsLast(cfgs, i + 1, Narrow(curr, p), next, preds[i := p], learner);
    }
  }

  /** The keyword arguments that carry each stage's training options. */
  const StageKeys: seq<string> := ["one", "two", "three"]

  /** One pass of the `train` loop: the stage's options are looked up under
      its key (a KeyError when absent, a TypeError when not a mapping), the
      stage trains on the rows in play and categorises them, and the rows it
      accepted are the next stage's. Yields the stage's new configuration,
      whether the pass raised, and the rows for the next stage. */
  function StageStep(key: string, cfg: Config, curr: CatData, kwargs: Entries, learner: Learner)
    : (r: (Config, Outcome, CatData))
    requires WellFormed(curr)
    ensures WellFormed(r.2) && r.2.ncols == curr.ncols
  {
    match Get(kwargs, key)
    case None => (cfg, Fail(MissingStageOptions(key)), curr)
    case Some(v) =>
      if !v.Dict? then (cfg, Fail(StageOptionsNotDict(key)), curr)
      else
        var t := TrainConfig(cfg, curr, Get(v.entries, "indices"), Remove(v.entries, "indices"));
        if t.1.Fail? then (t.0, t.1, curr)
        else match Predict(t.0, curr, learner)
          case Err(e) => (t.0, Fail(e), curr)
          case Ok(p) => (t.0, Done, Narrow(curr, p))
  }

  /** What one pass of the `train` loop leaves in its stage's
      `are_hurr_pred`: what the stage's `categorise` leaves on the rows in
      play when the pass gets that far, otherwise the earlier mask. */
  function StageStepPred(key: string, cfg: Config, curr: CatData, kwargs: Entries, prev: seq<bool>, learner: Learner)
    : (m: seq<bool>)
    requires WellFormed(curr)
    ensures StageStep(key, cfg, curr, kwargs, learner).1.Done? ==>
      m == Predict(StageStep(key, cfg, curr, kwargs, learner).0, curr, learner).value
  {
    match Get(kwargs, key)
    case None => prev
    case Some(v) =>
      if !v.Dict? then prev
      else
        var t := TrainConfig(cfg, curr, Get(v.entries, "indices"), Remove(v.entries, "indices"));
        if t.1.Fail? then prev else PredAfter(t.0, curr, prev, learner)
  }

  /** A pass that does not raise leaves its stage trained and able to
      categorise the rows it was trained on; the next stage's rows are those
      it accepted. A missing key leaves the stage as it was. */
  lemma StageStepDone(key: string, cfg: Config, curr: CatData, kwargs: Entries, learner: Learner)
    requires WellFormed(curr)
    ensures var r := StageStep(key, cfg, curr, kwargs, learner);
      && r.0.kind == cfg.kind
      && (r.1.Done? ==> && r.0.trained && Predict(r.0, curr, learner).Ok?
                        && r.2 == Narrow(curr, Predict(r.0, curr, learner).value))
      && (Get(kwargs, key).None? ==> r == (cfg, Fail(MissingStageOptions(key)), curr))
  {
  }

  /** The stage configurations after `CategoriserChain.train`, and whether it
      raised: stages are paired with keys as `zip` pairs them and stepped in
      order until one raises. */
  function ChainTrain(keys: seq<string>, cfgs: seq<Config>, curr: CatData, kwargs: Entries, learner: Learner)
    : (r: (seq<Config>, Outcome))
    requires WellFormed(curr)
    ensures |r.0| == |cfgs|
    decreases |cfgs|
  {
    if keys == [] || cfgs == [] then (cfgs, Done)
    else
      var s := StageStep(keys[0], cfgs[0], curr, kwargs, learner);
      if s.1.Fail? then ([s.0] + cfgs[1..], s.1)
      else
        var rest := ChainTrain(keys[1..], cfgs[1..], s.2, kwargs, learner);
        ([s.0] + rest.0, rest.1)
  }

  // ---------------------------------------------------------------------
  // Properties of categorise

  /** The chain only ever removes rows from the running mask. */
  lemma {:induction false} ChainSubset(cfgs: seq<Config>, curr: CatData, running: seq<bool>, learner: Learner)
    requires WellFormed(curr) && |curr.data| == Count(running)
    ensures var r := ChainRun(cfgs, curr, running, learner);
      r.Ok? ==> forall k :: 0 <= k < |running| && r.value[k] ==> running[k]
    decreases |cfgs|
  {
    if cfgs != [] && Predict(cfgs[0], curr, learner).Ok? {
      var p := Predict(cfgs[0], curr, learner).value;
      ScatterCount(running, p);
      ChainSubset(cfgs[1..], Narrow(curr, p), Scatter(running, p), learner);
      forall k | 0 <= k < |running| ensures Scatter(running, p)[k] ==> running[k] {
        ScatterSubset(running, p, k);
      }
    }
  }

  /** A chain accepts a row exactly when the row was still in play and every
      stage, asked about that row, accepts it: the chain is the conjunction of
      its stages. */
  lemma {:induction false} ChainConjunction(cfgs: seq<Config>, d: CatData, running: seq<bool>, learner: Learner)
    requires WellFormed(d) && |running| == |d.data|
    ensures var r := ChainRun(cfgs, Narrow(d, running), running, learner);
      r.Ok? ==> forall k :: 0 <= k < |running| ==>
        (r.value[k] <==> running[k] && forall i :: 0 <= i < |cfgs| ==> Accept(cfgs[i], d.data[k], learner))
    decreases |cfgs|
  {
    var curr := Narrow(d, running);
    if cfgs != [] && Predict(cfgs[0], curr, learner).Ok? {
      var p := Predict(cfgs[0], curr, learner).value;
      var next := Scatter(running, p);
      ScatterCount(running, p);
      NarrowScatter(d, running, p);
      ChainConjunction(cfgs[1..], d, next, learner);
      var r := ChainRun(cfgs, curr, running, learner);
      if r.Ok? {
        forall k | 0 <= k < |running|
          ensures r.value[k] <==> running[k] && forall i :: 0 <= i < |cfgs| ==> Accept(cfgs[i], d.data[k], learner)
        {
          ScatterAt(running, p, k);
          if running[k] {
            NarrowAligned(d, running, k);
          }
          forall i | 1 <= i < |cfgs| ensures cfgs[1..][i - 1] == cfgs[i] {
          }
          if forall i :: 0 <= i < |cfgs[1..]| ==> Accept(cfgs[1..][i], d.data[k], learner) {
            forall i | 0 <= i < |cfgs| ensures Accept(cfgs[i], d.data[k], learner) || i == 0 {
              if i > 0 {
                assert cfgs[1..][i - 1] == cfgs[i];
              }
            }
          }
        }
      }
    }
  }

  /** Whether a chain raises depends on its stages and the width of the data
      only; it raises the exception of the first stage that raises, even
      when no row is left in play by then. */
  lemma {:induction false} ChainRaises(cfgs: seq<Config>, curr: CatData, running: seq<bool>, learner: Learner)
    requires WellFormed(curr) && |curr.data| == Count(running)
    ensures var r := ChainRun(cfgs, curr, running, learner);
      && (r.Err? <==> exists i :: 0 <= i < |cfgs| && PredictError(cfgs[i], curr.ncols).Some?)
      && (r.Err? ==> exists i :: 0 <= i < |cfgs| && PredictError(cfgs[i], curr.ncols) == Some(r.error)
                        && forall j :: 0 <= j < i ==> PredictError(cfgs[j], curr.ncols).None?)
    decreases |cfgs|
  {
    if cfgs != [] {
      if Predict(cfgs[0], curr, learner).Ok? {
        var p := Predict(cfgs[0], curr, learner).value;
        ScatterCount(running, p);
        var next := Narrow(curr, p);
        ChainRaises(cfgs[1..], next, Scatter(running, p), learner);
        var r := ChainRun(cfgs, curr, running, learner);
        if exists i :: 0 <= i < |cfgs| && PredictError(cfgs[i], curr.ncols).Some? {
          var i :| 0 <= i < |cfgs| && PredictError(cfgs[i], curr.ncols).Some?;
          assert cfgs[1..][i - 1] == cfgs[i];
        }
        if r.Err? {
          var i :| 0 <= i < |cfgs[1..]| && PredictError(cfgs[1..][i], next.ncols) == Some(r.error)
                   && forall j :: 0 <= j < i ==> PredictError(cfgs[1..][j], next.ncols).None?;
          assert cfgs[i + 1] == cfgs[1..][i];
          forall j | 0 <= j < i + 1 ensures PredictError(cfgs[j], curr.ncols).None? {
            if j > 0 {
              assert cfgs[j] == cfgs[1..][j - 1];
            }
          }
        }
      }
    }
  }

  /** With no row in play, a chain that does not raise leaves the mask as it
      is, all false. */
  lemma ChainNoRows(cfgs: seq<Config>, curr: CatData, running: seq<bool>, learner: Learner)
    requires WellFormed(curr) && |curr.data| == Count(running) && Count(running) == 0
    ensures ChainRun(cfgs, curr, running, learner).Ok? ==> ChainRun(cfgs, curr, running, learner).value == running
    ensures forall k :: 0 <= k < |running| ==> !running[k]
  {
    ScatterNone(running);
    ChainSubset(cfgs, curr, running, learner);
    var r := ChainRun(cfgs, curr, running, learner);
    if r.Ok? {
      assert forall k :: 0 <= k < |running| ==> !r.value[k];
    }
  }

  // ---------------------------------------------------------------------
  // Properties of train

  /** Two stage lists of one length that agree from position n on. */
  ghost predicate SameFrom(a: seq<Config>, b: seq<Config>, n: nat)
  {
    |a| == |b| && forall i :: n <= i < |a| ==> a[i] == b[i]
  }

  lemma SameFromCons(x: Config, y: Config, a: seq<Config>, b: seq<Config>, m: nat)
    requires SameFrom(a, b, m)
    ensures SameFrom([x] + a, [y] + b, m + 1)
  {
    forall i | m + 1 <= i < |a| + 1 ensures ([x] + a)[i] == ([y] + b)[i] {
      assert ([x] + a)[i] == a[i - 1] && ([y] + b)[i] == b[i - 1];
    }
  }

  /** Stages beyond the keys are never trained, nor touched. */
  lemma {:induction false} ChainTrainUntouched(keys: seq<string>, cfgs: seq<Config>, curr: CatData,
                                               kwargs: Entries, learner: Learner)
    requires WellFormed(curr)
    ensures SameFrom(ChainTrain(keys, cfgs, curr, kwargs, learner).0, cfgs, |keys|)
    decreases |cfgs|
  {
    if keys != [] && cfgs != [] {
      var r := ChainTrain(keys, cfgs, curr, kwargs, learner);
      var s := StageStep(keys[0], cfgs[0], curr, kwargs, learner);
      assert cfgs == [cfgs[0]] + cfgs[1..];
      if s.1.Fail? {
        assert r.0 == [s.0] + cfgs[1..];
        SameFromCons(s.0, cfgs[0], cfgs[1..], cfgs[1..], |keys| - 1);
      } else {
        var rest := ChainTrain(keys[1..], cfgs[1..], s.2, kwargs, learner);
        assert r.0 == [s.0] + rest.0;
        ChainTrainUntouched(keys[1..], cfgs[1..], s.2, kwargs, learner);
        SameFromCons(s.0, cfgs[0], rest.0, cfgs[1..], |keys| - 1);
      }
    }
  }

  /** The first n stages (or all, when fewer) are trained. */
  ghost predicate TrainedUpTo(cfgs: seq<Config>, n: nat)
  {
    forall i :: 0 <= i < n && i < |cfgs| ==> cfgs[i].trained
  }

  /** A trained stage in front of stages trained up to m keeps them trained
      up to m + 1. */
  lemma TrainedCons(x: Config, rest: seq<Config>, m: nat)
    requires x.trained && TrainedUpTo(rest, m)
    ensures TrainedUpTo([x] + rest, m + 1)
  {
    forall i | 0 <= i < m + 1 && i < |rest| + 1 ensures ([x] + rest)[i].trained {
      if i > 0 {
        assert ([x] + rest)[i] == rest[i - 1];
      }
    }
  }

  /** A train that does not raise leaves every paired stage trained. */
  lemma {:induction false} ChainTrainTrains(keys: seq<string>, cfgs: seq<Config>, curr: CatData,
                                            kwargs: Entries, learner: Learner)
    requires WellFormed(curr)
    ensures ChainTrain(keys, cfgs, curr, kwargs, learner).1 == Done ==>
      TrainedUpTo(ChainTrain(keys, cfgs, curr, kwargs, learner).0, |keys|)
    decreases |cfgs|
  {
    if keys != [] && cfgs != [] {
      var r := ChainTrain(keys, cfgs, curr, kwargs, learner);
      var s := StageStep(keys[0], cfgs[0], curr, kwargs, learner);
      StageStepDone(keys[0], cfgs[0], curr, kwargs, learner);
      if s.1.Done? {
        var rest := ChainTrain(keys[1..], cfgs[1..], s.2, kwargs, learner);
        assert r == ([s.0] + rest.0, rest.1);
        ChainTrainTrains(keys[1..], cfgs[1..], s.2, kwargs, learner);
        if r.1 == Done {
          TrainedCons(s.0, rest.0, |keys| - 1);
        }
      } else {
        assert r.1 == s.1;
      }
    }
  }

  /** A train that does not raise trains a chain that categorises its own
      training data without raising, when every stage was paired with a key. */
  lemma {:induction false} ChainTrainThenRun(keys: seq<string>, cfgs: seq<Config>, curr: CatData, kwargs: Entries,
                                             running: seq<bool>, learner: Learner)
    requires WellFormed(curr) && |curr.data| == Count(running) && |cfgs| <= |keys|
    requires ChainTrain(keys, cfgs, curr, kwargs, learner).1 == Done
    ensures ChainRun(ChainTrain(keys, cfgs, curr, kwargs, learner).0, curr, running, learner).Ok?
    decreases |cfgs|
  {
    if cfgs != [] {
      var s := StageStep(keys[0], cfgs[0], curr, kwargs, learner);
      StageStepDone(keys[0], cfgs[0], curr, kwargs, learner);
      var p := Predict(s.0, curr, learner).value;
      var rest := ChainTrain(keys[1..], cfgs[1..], s.2, kwargs, learner);
      var trained := ChainTrain(keys, cfgs, curr, kwargs, learner).0;
      assert trained == [s.0] + rest.0;
      assert trained[1..] == rest.0;
      ScatterCount(running, p);
      ChainTrainThenRun(keys[1..], cfgs[1..], s.2, kwargs, Scatter(running, p), learner);
    }
  }

  /** `train` only pairs three stages with keys, so a fourth stage that was
      not trained beforehand stays untrained, and the chain then raises on
      every dataset. */
  lemma FourthStageRaises(cfgs: seq<Config>, cd: CatData, kwargs: Entries, cd2: CatData, learner: Learner)
    requires WellFormed(cd) && WellFormed(cd2) && |cfgs| >= 4 && !cfgs[3].trained
    ensures ChainPredict(true, ChainTrain(StageKeys, cfgs, cd, kwargs, learner).0, cd2, learner).Err?
  {
    var trained := ChainTrain(StageKeys, cfgs, cd, kwargs, learner).0;
    ChainTrainUntouched(StageKeys, cfgs, cd, kwargs, learner);
    assert trained[3] == cfgs[3];
    FilterAllTrue(cd2.data);
    ChainRaises(trained, cd2, AllTrue(|cd2.data|), learner);
    assert PredictError(trained[3], cd2.ncols).Some?;
  }

  // ---------------------------------------------------------------------
  // The chain object

  /** ChainTrain from stage i on: stage i steps, then the rest follow
      unless it raised. */
  lemma ChainTrainAt(keys: seq<string>, cfgs: seq<Config>, i: nat, curr: CatData, kwargs: Entries, learner: Learner)
    requires WellFormed(curr) && i < |keys| && i < |cfgs|
    ensures var s := StageStep(keys[i], cfgs[i], curr, kwargs, learner);
      var r := ChainTrain(keys[i..], cfgs[i..], curr, kwargs, learner);
      if s.1.Fail? then r == ([s.0] + cfgs[i + 1..], s.1)
      else r == ([s.0] + ChainTrain(keys[i + 1..], cfgs[i + 1..], s.2, kwargs, learner).0,
                 ChainTrain(keys[i + 1..], cfgs[i + 1..], s.2, kwargs, learner).1)
  {
    assert keys[i..][0] == keys[i] && cfgs[i..][0] == cfgs[i];
    assert keys[i..][1..] == keys[i + 1..] && cfgs[i..][1..] == cfgs[i + 1..];
  }

  /** The `train` loop as the object runs it: the stage list with stages
      before i already stepped, stepping from stage i on. */
  function ChainTrainFrom(keys: seq<string>, cfgs: seq<Config>, i: nat, curr: CatData, kwargs: Entries,
                          learner: Learner): (r: (seq<Config>, Outcome))
    requires WellFormed(curr)
    ensures |r.0| == |cfgs|
    decreases |cfgs| - i
  {
    if i >= |keys| || i >= |cfgs| then (cfgs, Done)
    else
      var s := StageStep(keys[i], cfgs[i], curr, kwargs, learner);
      if s.1.Fail? then (cfgs[i := s.0], s.1)
      else ChainTrainFrom(keys, cfgs[i := s.0], i + 1, s.2, kwargs, learner)
  }

  /** The stages' `are_hurr_pred` after the `train` loop has stepped from
      stage i on: stages before i and stages beyond the keys keep theirs. */
  function ChainTrainPredsFrom(keys: seq<string>, cfgs: seq<Config>, i: nat, curr: CatData, kwargs: Entries,
                               preds: seq<seq<bool>>, learner: Learner): (r: seq<seq<bool>>)
    requires WellFormed(curr) && |preds| == |cfgs|
    ensures |r| == |cfgs|
    decreases |cfgs| - i
  {
    if i >= |keys| || i >= |cfgs| then preds
    else
      var s := StageStep(keys[i], cfgs[i], curr, kwargs, learner);
      var a := StageStepPred(keys[i], cfgs[i], curr, kwargs, preds[i], learner);
      if s.1.Fail? then preds[i := a]
      else ChainTrainPredsFrom(keys, cfgs[i := s.0], i + 1, s.2, kwargs, preds[i := a], learner)
  }

  /** The `train` loop from stage i leaves the masks of the stages before i,
      and of the stages beyond the keys, as they were. */
  lemma {:induction false} ChainTrainPredsKeep(keys: seq<string>, cfgs: seq<Config>, i: nat, curr: CatData,
                                               kwargs: Entries, preds: seq<seq<bool>>, learner: Learner)
    requires WellFormed(curr) && |preds| == |cfgs|
    ensures forall j :: 0 <= j < |cfgs| && (j < i || j >= |keys|) ==>
      ChainTrainPredsFrom(keys, cfgs, i, curr, kwargs, preds, learner)[j] == preds[j]
    decreases |cfgs| - i
  {
    if i < |keys| && i < |cfgs| {
      var s := StageStep(keys[i], cfgs[i], curr, kwargs, learner);
      var a := StageStepPred(keys[i], cfgs[i], curr, kwargs, preds[i], learner);
      if s.1.Done? {
        ChainTrainPredsKeep(keys, cfgs[i := s.0], i + 1, s.2, kwargs, preds[i := a], learner);
      }
    }
  }

  /** Stepping from stage i on keeps the stages before i and steps the rest
      as ChainTrain does. */
  lemma {:induction false} ChainTrainFromIs(keys: seq<string>, cfgs: seq<Config>, i: nat, curr: CatData,
                                            kwargs: Entries, learner: Learner)
    requires WellFormed(curr) && i <= |keys| && i <= |cfgs|
    ensures ChainTrainFrom(keys, cfgs, i, curr, kwargs, learner).0
         == cfgs[..i] + ChainTrain(keys[i..], cfgs[i..], curr, kwargs, learner).0
    ensures ChainTrainFrom(keys, cfgs, i, curr, kwargs, learner).1
         == ChainTrain(keys[i..], cfgs[i..], curr, kwargs, learner).1
    decreases |cfgs| - i
  {
    if i == |keys| || i == |cfgs| {
      assert keys[i..] == [] || cfgs[i..] == [];
      SplitAt(cfgs, i);
    } else {
      var s := StageStep(keys[i], cfgs[i], curr, kwargs, learner);
      ChainTrainAt(keys, cfgs, i, curr, kwargs, learner);
      UpdateSplit(cfgs, i, s.0);
      if s.1.Done? {
        var c := cfgs[i := s.0];
        ChainTrainFromIs(keys, c, i + 1, s.2, kwargs, learner);
        ConsAssoc(cfgs[..i], s.0, ChainTrain(keys[i + 1..], cfgs[i + 1..], s.2, kwargs, learner).0);
      }
    }
  }

  lemma SplitAt<T>(a: seq<T>, i: nat)
    requires i <= |a|
    ensures a[..i] + a[i..] == a
  {
  }

  /** Replacing entry i splits a sequence around the new entry. */
  lemma UpdateSplit<T>(a: seq<T>, i: nat, x: T)
    requires i < |a|
    ensures a[i := x] == a[..i] + ([x] + a[i + 1..])
    ensures a[i := x][..i + 1] == a[..i] + [x] && a[i := x][i + 1..] == a[i + 1..]
  {
  }

  /** The object's loop, run from the first stage, is ChainTrain. */
  lemma ChainTrainFromStart(keys: seq<string>, cfgs: seq<Config>, curr: CatData, kwargs: Entries, learner: Learner)
    requires WellFormed(curr)
    ensures ChainTrainFrom(keys, cfgs, 0, curr, kwargs, learner) == ChainTrain(keys, cfgs, curr, kwargs, learner)
  {
    ChainTrainFromIs(keys, cfgs, 0, curr, kwargs, learner);
    var r := ChainTrain(keys, cfgs, curr, kwargs, learner);
    assert keys[0..] == keys && cfgs[0..] == cfgs && cfgs[..0] + r.0 == r.0;
  }

  lemma ConsAssoc<T>(a: seq<T>, x: T, b: seq<T>)
    ensures a + [x] + b == a + ([x] + b)
  {
  }

  /** One pass of the `train` loop on a stage object. */
  method TrainStage(stage: Categoriser, key: string, curr: CatData, kwargs: Entries, learner: Learner)
    returns (o: Outcome, next: CatData)
    requires WellFormed(curr)
    modifies stage`isTrained, stage`settings, stage`model, stage`arePred
    ensures (stage.State(), o, next) == StageStep(key, old(stage.State()), curr, kwargs, learner)
    ensures stage.arePred == StageStepPred(key, old(stage.State()), curr, kwargs, old(stage.arePred), learner)
  {
    next := curr;
    var opts := Get(kwargs, key);
    if opts.None? {
      return Fail(MissingStageOptions(key)), curr;
    }
    if !opts.value.Dict? {
      return Fail(StageOptionsNotDict(key)), curr;
    }
    o := stage.Train(curr, Get(opts.value.entries, "indices"), Remove(opts.value.entries, "indices"));
    if o.Fail? {
      return;
    }
    var p := stage.Categorise(curr, learner);
    if p.Err? {
      return Fail(p.error), curr;
    }
    next := Narrow(curr, p.value);
  }

  /** One pass of the `categorise` loop: the stage categorises the rows in
      play, the running mask takes its answers (`a[a] = p`) and the rows it
      accepted stay in play. */
  method CategoriseStage(stage: Categoriser, curr: CatData, running: array<bool>, learner: Learner)
    returns (p: Result<seq<bool>>, next: CatData)
    requires WellFormed(curr) && |curr.data| == Count(running[..])
    modifies stage`arePred, running
    ensures p == Predict(stage.State(), curr, learner)
    ensures stage.arePred == PredAfter(stage.State(), curr, old(stage.arePred), learner)
    ensures p.Err? ==> running[..] == old(running[..]) && next == curr
    ensures p.Ok? ==> && running[..] == Scatter(old(running[..]), p.value)
                      && next == Narrow(curr, p.value)
    ensures WellFormed(next) && |next.data| == Count(running[..]) && next.ncols == curr.ncols
  {
    next := curr;
    p := stage.Categorise(curr, learner);
    if p.Ok? {
      ScatterCount(running[..], p.value);
      MaskedAssign(running, p.value);
      next := Narrow(curr, p.value);
    }
  }

  /** `a[a] = s`: the true positions of a take the values of s in order. */
  method MaskedAssign(a: array<bool>, s: seq<bool>)
    requires |s| == Count(a[..])
    modifies a
    ensures a[..] == Scatter(old(a[..]), s)
  {
    ghost var m := a[..];
    forall k | 0 <= k < a.Length && a[k]
      ensures Rank(a[..], k) < |s|
    {
      ScatterAt(a[..], s, k);
    }
    forall k | 0 <= k < a.Length && a[k] {
      a[k] := s[Rank(a[..], k)];
    }
    forall k | 0 <= k < a.Length ensures a[k] == Scatter(m, s)[k] {
      ScatterAt(m, s, k);
    }
  }

  /** The state of each of a chain's stages, reading only the fields that
      make up that state. */
  ghost function StageStates(cs: seq<Categoriser>): (r: seq<Config>)
    reads cs`isTrained, cs`settings, cs`model
    ensures |r| == |cs| && forall j :: 0 <= j < |cs| ==> r[j] == cs[j].State()
  {
    if cs == [] then [] else [cs[0].State()] + StageStates(cs[1..])
  }

  /** The `are_hurr_pred` of each of a chain's stages, reading that field
      only. */
  ghost function StageMasks(cs: seq<Categoriser>): (r: seq<seq<bool>>)
    reads cs`arePred
    ensures |r| == |cs| && forall j :: 0 <= j < |cs| ==> r[j] == cs[j].arePred
  {
    if cs == [] then [] else [cs[0].arePred] + StageMasks(cs[1..])
  }

  class CategoriserChain {
    const cats: seq<Categoriser>
    var isTrained: bool
    var settings: Entries
    var missedCount: nat
    var arePred: seq<bool>
    var res: Option<Counts>
    var sensitivity: Stat
    var ppv: Stat

    /** Every stage is a distinct object. */
    ghost predicate Valid()
    {
      forall i, j :: 0 <= i < j < |cats| ==> cats[i] != cats[j]
    }

    /** The state of each stage, in order. */
    ghost function StageConfigs(): (cfgs: seq<Config>)
      reads cats`isTrained, cats`settings, cats`model
      ensures |cfgs| == |cats| && forall i :: 0 <= i < |cats| ==> cfgs[i] == cats[i].State()
    {
      StageStates(cats)
    }

    /** The `are_hurr_pred` of each stage, in order. */
    ghost function StagePreds(): (ps: seq<seq<bool>>)
      reads cats`arePred
      ensures |ps| == |cats| && forall i :: 0 <= i < |cats| ==> ps[i] == cats[i].arePred
    {
      StageMasks(cats)
    }

    constructor (cats: seq<Categoriser>)
      requires forall i, j :: 0 <= i < j < |cats| ==> cats[i] != cats[j]
      ensures this.cats == cats && Valid()
      ensures !isTrained && settings == [] && missedCount == 0 && res == None
    {
      this.cats := cats;
      isTrained := false;
      settings := [];
      missedCount := 0;
      arePred := [];
      res := None;
      sensitivity := Undefined;
      ppv := Undefined;
    }

    /** `train(cat_data, indices, **kwargs)`. */
    method Train(cd: CatData, indices: Option<Value>, kwargs: Entries, learner: Learner) returns (o: Outcome)
      requires WellFormed(cd) && Valid()
      modifies this`isTrained, this`settings, cats`isTrained, cats`settings, cats`model, cats`arePred
      ensures isTrained && settings == BaseSettings(kwargs, indices)
      ensures StageConfigs() == ChainTrain(StageKeys, old(StageConfigs()), cd, kwargs, learner).0
      ensures o == ChainTrain(StageKeys, old(StageConfigs()), cd, kwargs, learner).1
      ensures StagePreds() == ChainTrainPredsFrom(StageKeys, old(StageConfigs()), 0, cd, kwargs, old(StagePreds()), learner)
    {
      // The stages never read the chain's own fields, so recording the
      // settings after the loop leaves the same state as `train` does.
      ghost var cfgs0 := StageConfigs();
      o := TrainStages(StageKeys, cd, kwargs, learner);
      settings := BaseSettings(kwargs, indices);
      isTrained := true;
      ChainTrainFromStart(StageKeys, cfgs0, cd, kwargs, learner);
      SameStages(ChainTrain(StageKeys, cfgs0, cd, kwargs, learner).0);
    }

    /** The loop of `train`: the stages paired with `keys`, in order. */
    method TrainStages(keys: seq<string>, cd: CatData, kwargs: Entries, learner: Learner) returns (o: Outcome)
      requires WellFormed(cd) && Valid()
      modifies cats`isTrained, cats`settings, cats`model, cats`arePred
      ensures forall j :: 0 <= j < |cats| ==>
        cats[j].State() == ChainTrainFrom(keys, old(StageConfigs()), 0, cd, kwargs, learner).0[j]
      ensures o == ChainTrainFrom(keys, old(StageConfigs()), 0, cd, kwargs, learner).1
      ensures StagePreds() == ChainTrainPredsFrom(keys, old(StageConfigs()), 0, cd, kwargs, old(StagePreds()), learner)
    {
      ghost var cur := StageConfigs();
      ghost var ps := StagePreds();
      ghost var full := ChainTrainFrom(keys, cur, 0, cd, kwargs, learner);
      ghost var fullPreds := ChainTrainPredsFrom(keys, cur, 0, cd, kwargs, ps, learner);
      var curr := cd;
      var n := if |cats| < |keys| then |cats| else |keys|;
      var i := 0;
      while i < n
        invariant 0 <= i <= n && WellFormed(curr) && |cur| == |cats|
        invariant forall j :: 0 <= j < |cats| ==> cats[j].State() == cur[j]
        invariant ChainTrainFrom(keys, cur, i, curr, kwargs, learner) == full
        invariant |ps| == |cats| && forall j :: 0 <= j < |cats| ==> cats[j].arePred == ps[j]
        invariant ChainTrainPredsFrom(keys, cur, i, curr, kwargs, ps, learner) == fullPreds
      {
        var stage := cats[i];
        var t, next := TrainStage(stage, keys[i], curr, kwargs, learner);
        cur := cur[i := stage.State()];
        ps := ps[i := stage.arePred];
        forall j | 0 <= j < |cats| ensures cats[j].State() == cur[j] && cats[j].arePred == ps[j] {
          if j != i {
            assert cats[j] != stage;
          }
        }
        if t.Fail? {
          return t;
        }
        curr := next;
        i := i + 1;
      }
      o := Done;
    }

    /** `categorise(cat_data)`. */
    method Categorise(cd: CatData, learner: Learner) returns (r: Result<seq<bool>>)
      requires WellFormed(cd) && Valid()
      modifies this`arePred, cats`arePred
      ensures StageConfigs() == old(StageConfigs())
      ensures r == ChainPredict(isTrained, StageConfigs(), cd, learner)
      ensures r.Ok? ==> arePred == r.value
      ensures r.Err? ==> arePred == old(arePred)
      ensures StagePreds() == ChainPreds(isTrained, StageConfigs(), cd, old(StagePreds()), learner)
    {
      if !isTrained {
        return Err(NotTrained);
      }
      r := RunStages(cd, learner);
      if r.Ok? {
        arePred := r.value;
      }
    }

    /** The loop of `categorise`: each stage categorises the rows the
        earlier stages accepted, and the running mask takes its answers in
        place. */
    method RunStages(cd: CatData, learner: Learner) returns (r: Result<seq<bool>>)
      requires WellFormed(cd) && Valid()
      modifies cats`arePred
      ensures StageConfigs() == old(StageConfigs())
      ensures r == ChainPredict(true, old(StageConfigs()), cd, learner)
      ensures StagePreds() == StagePredsFrom(old(StageConfigs()), 0, cd, old(StagePreds()), learner)
    {
      ghost var cfgs := StageConfigs();
      ghost var fullPreds := StagePredsFrom(cfgs, 0, cd, StagePreds(), learner);
      FilterAllTrue(cd.data);
      ghost var full := ChainRun(cfgs, cd, AllTrue(|cd.data|), learner);
      ChainRunFromIs(cfgs, 0, cd, AllTrue(|cd.data|), learner);
      assert cfgs[0..] == cfgs;
      var curr := cd;
      var running := new bool[|cd.data|](_ => true);
      assert running[..] == AllTrue(|cd.data|);
      var i := 0;
      while i < |cats|
        invariant 0 <= i <= |cats| && running.Length == |cd.data|
        invariant WellFormed(curr) && |curr.data| == Count(running[..])
        invariant StageConfigs() == cfgs
        invariant ChainRunFrom(cfgs, i, curr, running[..], learner) == full
        invariant StagePredsFrom(cfgs, i, curr, StagePreds(), learner) == fullPreds
      {
        var p, next := RunStage(cats[i], cfgs, i, curr, running, learner);
        if p.Err? {
          return Err(p.error);
        }
        curr := next;
        i := i + 1;
      }
      r := Ok(running[..]);
    }

    /** One pass of the `categorise` loop on stage i: only that stage's
        mask and the running mask change, and the rest of the loop is
        left to do from stage i + 1 on the rows the stage accepted, or
        the stage raised and ends the loop. */
    method RunStage(stage: Categoriser, ghost cfgs: seq<Config>, i: nat, curr: CatData, running: array<bool>,
                    learner: Learner)
      returns (p: Result<seq<bool>>, next: CatData)
      requires Valid() && i < |cats| && stage == cats[i] && StageConfigs() == cfgs
      requires WellFormed(curr) && |curr.data| == Count(running[..])
      modifies stage`arePred, running
      ensures StageConfigs() == cfgs
      ensures WellFormed(next) && |next.data| == Count(running[..])
      ensures p.Err? ==> && ChainRunFrom(cfgs, i, curr, old(running[..]), learner) == Err(p.error)
                         && StagePredsFrom(cfgs, i, curr, old(StagePreds()), learner) == StagePreds()
      ensures p.Ok? ==> && ChainRunFrom(cfgs, i, curr, old(running[..]), learner)
                           == ChainRunFrom(cfgs, i + 1, next, running[..], learner)
                        && StagePredsFrom(cfgs, i, curr, old(StagePreds()), learner)
                           == StagePredsFrom(cfgs, i + 1, next, StagePreds(), learner)
    {
      ghost var ps := StagePreds();
      ghost var before := running[..];
      StagePredsAt(cfgs, i, curr, ps, learner);
      p, next := CategoriseStage(stage, curr, running, learner);
      forall j | 0 <= j < |cats| && j != i ensures cats[j].arePred == ps[j] {
        assert cats[j] != stage;
      }
      assert StagePreds() == ps[i := stage.arePred];
      if p.Ok? {
        ScatterCount(before, p.value);
      }
    }

    /** Stages whose states are those recorded earlier have the recorded
        configurations. */
    lemma SameStages(cfgs: seq<Config>)
      requires |cfgs| == |cats| && forall j :: 0 <= j < |cats| ==> cats[j].State() == cfgs[j]
      ensures StageConfigs() == cfgs
    {
    }

    /** `try_cat(cat_data)`: categorise, then `compare` and `calc_stats` as
        every categoriser does them. */
    method TryCat(cd: CatData, learner: Learner) returns (o: Outcome)
      requires WellFormed(cd) && Valid()
      modifies this`missedCount, this`arePred, this`res, this`sensitivity, this`ppv, cats`arePred
      ensures StageConfigs() == old(StageConfigs())
      ensures StagePreds() == ChainPreds(isTrained, StageConfigs(), cd, old(StagePreds()), learner)
      ensures missedCount == cd.missedCount
      ensures o.Done? <==> ChainScore(isTrained, StageConfigs(), cd, learner).Ok?
      ensures o.Done? ==> && res == Some(ChainScore(isTrained, StageConfigs(), cd, learner).value)
                          && sensitivity == Sensitivity(res.value) && ppv == Ppv(res.value)
                          && arePred == ChainPredict(isTrained, StageConfigs(), cd, learner).value
      ensures o.Fail? ==> && o.error == ChainScore(isTrained, StageConfigs(), cd, learner).error
                          && res == old(res) && sensitivity == old(sensitivity) && ppv == old(ppv)
                          && arePred == old(arePred)
    {
      // `categorise` does not read `missed_count`, so setting it after the
      // call leaves the same state as `try_cat` does.
      var p := Categorise(cd, learner);
      o := Record(cd, p);
    }

    /** The rest of `try_cat` once `categorise` has answered p: record the
        missed count, then `compare` and `calc_stats` unless p is the
        exception, which propagates. */
    method Record(cd: CatData, p: Result<seq<bool>>) returns (o: Outcome)
      requires |cd.areHurrActual| == |cd.data| && (p.Ok? ==> |p.value| == |cd.data|)
      modifies this`missedCount, this`res, this`sensitivity, this`ppv
      ensures missedCount == cd.missedCount
      ensures o.Done? <==> Scored(cd, p).Ok?
      ensures o.Done? ==> && res == Some(Scored(cd, p).value)
                          && sensitivity == Sensitivity(res.value) && ppv == Ppv(res.value)
      ensures o.Fail? ==> && o.error == Scored(cd, p).error
                          && res == old(res) && sensitivity == old(sensitivity) && ppv == old(ppv)
    {
      missedCount := cd.missedCount;
      if p.Err? {
        return Fail(p.error);
      }
      var c := Compare(cd.areHurrActual, p.value, missedCount);
      res := Some(c);
      sensitivity := Sensitivity(c);
      ppv := Ppv(c);
      o := Done;
    }
  }
}
