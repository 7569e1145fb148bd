/** CategoriserComparison: a list of categorisers trained and scored side by
    side on one calibration dataset. */
module Comparisons {
  import opened Options
  import opened Datasets
  import opened Evaluation
  import opened Predictors
  import opened Categorisers
  import opened Chains

  /** A member of the comparison: a single categoriser or a chain. */
  datatype Member = Single(cat: Categoriser) | Chained(chain: CategoriserChain)

  /** Only the LDA, QDA, DTA and SGD classes have `is_trainable`; reading it
      on a cutoff categoriser or a chain raises AttributeError. */
  predicate MemberTrainable(m: Member)
  {
    m.Single? && Trainable(m.cat.kind)
  }

  /** What `cat.train(cal_cd)` leaves in an estimator categoriser, and
      whether it raised. */
  function Learn(k: Kind, cd: CatData): (r: (Config, Outcome))
    requires WellFormed(cd)
    ensures r.0.kind == k && r.0.trained
  {
    TrainConfig(Config(k, false, [], None), cd, None, [])
  }

  /** Training an estimator without indices or options ignores its previous
      state. */
  lemma LearnFresh(cfg: Config, cd: CatData)
    requires WellFormed(cd) && Trainable(cfg.kind)
    ensures TrainConfig(cfg, cd, None, []) == Learn(cfg.kind, cd)
  {
  }

  /** The `train` loop from member i on: the number of members whose `train`
      was called, and whether the loop raised. */
  function TrainRun(ms: seq<Member>, i: nat, cd: CatData): (r: (nat, Outcome))
    requires WellFormed(cd) && i <= |ms|
    ensures i <= r.0 <= |ms|
    decreases |ms| - i
  {
    if i == |ms| then (i, Done)
    else if !MemberTrainable(ms[i]) then (i, Fail(NotTrainable))
    else if Learn(ms[i].cat.kind, cd).1.Fail? then (i + 1, Learn(ms[i].cat.kind, cd).1)
    else TrainRun(ms, i + 1, cd)
  }

  /** On data wide enough for the default columns, `train` succeeds exactly
      when every member is an estimator categoriser; otherwise it trains the
      members before the first other one and raises AttributeError there. */
  lemma {:induction false} TrainRunOutcome(ms: seq<Member>, i: nat, cd: CatData)
    requires WellFormed(cd) && cd.ncols >= 13 && i <= |ms|
    ensures var r := TrainRun(ms, i, cd);
      && (r.1 == Done <==> forall j :: i <= j < |ms| ==> MemberTrainable(ms[j]))
      && (r.1 == Done ==> r.0 == |ms|)
      && (r.1.Fail? ==> r.1.error == NotTrainable && r.0 < |ms| && !MemberTrainable(ms[r.0]))
      && forall j :: i <= j < r.0 ==> MemberTrainable(ms[j])
    decreases |ms| - i
  {
    if i < |ms| && MemberTrainable(ms[i]) {
      TrainDefault(Config(ms[i].cat.kind, false, [], None), cd, []);
      TrainRunOutcome(ms, i + 1, cd);
    }
  }

  /** Data narrower than the default columns makes the first estimator's
      `fit` raise, so `train` stops after it. */
  lemma NarrowDataStopsTrain(ms: seq<Member>, cd: CatData)
    requires WellFormed(cd) && cd.ncols < 13 && |ms| > 0 && MemberTrainable(ms[0])
    ensures TrainRun(ms, 0, cd) == (1, Fail(BadIndices))
  {
    assert !ValidColumns(DefaultIndices(), cd.ncols) by {
      assert DefaultIndices()[12] == 12;
    }
  }

  /** The `compare` loop over each member's score in order: the `res` it
      prints after each `try_cat`, stopping at the first that raises. */
  function CompareRun(scores: seq<Result<Counts>>): (r: (seq<Counts>, Outcome))
    ensures |r.0| <= |scores|
  {
    if scores == [] then ([], Done)
    else match scores[0]
      case Err(e) => ([], Fail(e))
      case Ok(c) => ([c] + CompareRun(scores[1..]).0, CompareRun(scores[1..]).1)
  }

  /** `compare` prints the counts of a leading run of members that score,
      and raises the exception of the first that does not. */
  lemma {:induction false} CompareRunSpec(scores: seq<Result<Counts>>)
    ensures var r := CompareRun(scores);
      && (r.1 == Done <==> forall j :: 0 <= j < |scores| ==> scores[j].Ok?)
      && (r.1 == Done ==> |r.0| == |scores|)
      && (r.1.Fail? ==> |r.0| < |scores| && scores[|r.0|] == Err(r.1.error))
      && forall j :: 0 <= j < |r.0| ==> scores[j] == Ok(r.0[j])
  {
    if scores != [] && scores[0].Ok? {
      var rest := CompareRun(scores[1..]);
      CompareRunSpec(scores[1..]);
      forall j | 0 <= j < |scores| && j > 0 ensures scores[j] == scores[1..][j - 1] {
      }
      assert CompareRun(scores) == ([scores[0].value] + rest.0, rest.1);
    }
  }

  /** CompareRun from position i: the head score, then the rest. */
  lemma CompareRunAt(scores: seq<Result<Counts>>, i: nat)
    requires i < |scores|
    ensures scores[i].Err? ==> CompareRun(scores[i..]) == ([], Fail(scores[i].error))
    ensures scores[i].Ok? ==>
      CompareRun(scores[i..]) == ([scores[i].value] + CompareRun(scores[i + 1..]).0, CompareRun(scores[i + 1..]).1)
  {
    assert scores[i..][0] == scores[i] && scores[i..][1..] == scores[i + 1..];
  }

  lemma AppendNil<T>(a: seq<T>)
    ensures a + [] == a
  {
  }

  lemma AppendAssoc<T>(a: seq<T>, x: T, b: seq<T>)
    ensures a + ([x] + b) == (a + [x]) + b
  {
  }

  /** The categorisers a member is made of: itself, or the chain's stages. */
  ghost function MemberCats(m: Member): set<Categoriser>
  {
    if m.Single? then {m.cat} else set c | c in m.chain.cats
  }

  /** The chain a member is, if any. */
  ghost function MemberChains(m: Member): set<CategoriserChain>
  {
    if m.Chained? then {m.chain} else {}
  }

  /** The objects a member's `try_cat` may update. */
  ghost function MemberObjects(m: Member): set<object>
  {
    MemberCats(m) + MemberChains(m)
  }

  /** What a member's score depends on: a categoriser's state, or a
      chain's flag and its stages' states. */
  datatype MemberState = SingleState(cfg: Config) | ChainState(trained: bool, cfgs: seq<Config>)

  /** The state of a member, read from its objects. */
  ghost function StateOf(m: Member): MemberState
    reads MemberCats(m)`isTrained, MemberCats(m)`settings, MemberCats(m)`model, MemberChains(m)`isTrained
  {
    match m
    case Single(c) => SingleState(c.State())
    case Chained(ch) =>
      assert forall c :: c in ch.cats ==> c in MemberCats(m);
      ChainState(ch.isTrained, StageStates(ch.cats))
  }

  /** `categorise` plus `compare` on a member in a given state. */
  function StateScore(s: MemberState, cd: CatData, learner: Learner): (r: Result<Counts>)
    requires WellFormed(cd)
    ensures r.Ok? ==> r.value.tp + r.value.fp + r.value.tn + r.value.fn == |cd.data| + cd.missedCount
  {
    match s
    case SingleState(cfg) => Score(cfg, cd, learner)
    case ChainState(trained, cfgs) => ChainScore(trained, cfgs, cd, learner)
  }

  /** A member's `categorise` plus `compare`: the counts `try_cat` stores,
      or the exception it raises. */
  ghost function MemberScore(m: Member, cd: CatData, learner: Learner): Result<Counts>
    requires WellFormed(cd)
    reads MemberCats(m)`isTrained, MemberCats(m)`settings, MemberCats(m)`model, MemberChains(m)`isTrained
  {
    StateScore(StateOf(m), cd, learner)
  }

  /** `try_cat` on a single categoriser, which changes no member's score. */
  method TrySingle(cat: Categoriser, ghost ms: seq<Member>, cd: CatData, learner: Learner)
    returns (t: Outcome, c: Counts)
    requires WellFormed(cd)
    modifies cat`missedCount, cat`arePred, cat`res, cat`sensitivity, cat`ppv
    ensures t.Done? <==> old(Score(cat.State(), cd, learner)).Ok?
    ensures t.Done? ==> c == old(Score(cat.State(), cd, learner)).value
    ensures t.Fail? ==> t.error == old(Score(cat.State(), cd, learner)).error
    ensures forall j :: 0 <= j < |ms| ==> StateOf(ms[j]) == old(StateOf(ms[j]))
  {
    c := Counts(0, 0, 0, 0);
    t := cat.TryCat(cd, learner);
    forall j | 0 <= j < |ms| ensures StateOf(ms[j]) == old(StateOf(ms[j])) {
      if ms[j].Chained? {
        var cs := ms[j].chain.cats;
        assert StageStates(cs) == old(StageStates(cs));
      }
    }
    if t.Done? {
      c := cat.res.value;
    }
  }

  /** `try_cat` on a chain, which changes no member's score. */
  method TryChain(ch: CategoriserChain, ghost ms: seq<Member>, cd: CatData, learner: Learner)
    returns (t: Outcome, c: Counts)
    requires WellFormed(cd) && ch.Valid()
    modifies ch`missedCount, ch`arePred, ch`res, ch`sensitivity, ch`ppv, ch.cats`arePred
    ensures t.Done? <==> old(ChainScore(ch.isTrained, ch.StageConfigs(), cd, learner)).Ok?
    ensures t.Done? ==> c == old(ChainScore(ch.isTrained, ch.StageConfigs(), cd, learner)).value
    ensures t.Fail? ==> t.error == old(ChainScore(ch.isTrained, ch.StageConfigs(), cd, learner)).error
    ensures forall j :: 0 <= j < |ms| ==> StateOf(ms[j]) == old(StateOf(ms[j]))
  {
    c := Counts(0, 0, 0, 0);
    t := ch.TryCat(cd, learner);
    forall j | 0 <= j < |ms| ensures StateOf(ms[j]) == old(StateOf(ms[j])) {
      if ms[j].Chained? {
        var cs := ms[j].chain.cats;
        assert StageStates(cs) == old(StageStates(cs));
      }
    }
    if t.Done? {
      c := ch.res.value;
    }
  }

  /** `try_cat` on one member: whether it raised, and the counts it stored.
      Only the fields `try_cat` writes change, so no member's score does. */
  method TryMember(m: Member, ghost ms: seq<Member>, cd: CatData, learner: Learner) returns (t: Outcome, c: Counts)
    requires WellFormed(cd) && (m.Chained? ==> m.chain.Valid())
    modifies MemberCats(m)`missedCount, MemberCats(m)`arePred, MemberCats(m)`res,
             MemberCats(m)`sensitivity, MemberCats(m)`ppv,
             MemberChains(m)`missedCount, MemberChains(m)`arePred, MemberChains(m)`res,
             MemberChains(m)`sensitivity, MemberChains(m)`ppv
    ensures t.Done? <==> old(MemberScore(m, cd, learner)).Ok?
    ensures t.Done? ==> c == old(MemberScore(m, cd, learner)).value
    ensures t.Fail? ==> t.error == old(MemberScore(m, cd, learner)).error
    ensures forall j :: 0 <= j < |ms| ==> StateOf(ms[j]) == old(StateOf(ms[j]))
  {
    match m
    case Single(cat) =>
      t, c := TrySingle(cat, ms, cd, learner);
    case Chained(ch) =>
      assert StageStates(ch.cats) == ch.StageConfigs();
      assert forall s :: s in ch.cats ==> s in MemberCats(m);
      t, c := TryChain(ch, ms, cd, learner);
  }

  /** The objects of a list of members. */
  ghost function AllObjects(ms: seq<Member>): set<object>
  {
    if ms == [] then {} else MemberObjects(ms[0]) + AllObjects(ms[1..])
  }

  lemma {:induction false} AllObjectsAt(ms: seq<Member>, i: nat)
    requires i < |ms|
    ensures MemberObjects(ms[i]) <= AllObjects(ms)
  {
    if i > 0 {
      AllObjectsAt(ms[1..], i - 1);
    }
  }

  /** The scores of a list of members, in order. */
  ghost function Scores(ms: seq<Member>, cd: CatData, learner: Learner): (r: seq<Result<Counts>>)
    requires WellFormed(cd)
    reads AllObjects(ms)
    ensures |r| == |ms| && forall j :: 0 <= j < |ms| ==> r[j] == MemberScore(ms[j], cd, learner)
  {
    if ms == [] then [] else [MemberScore(ms[0], cd, learner)] + Scores(ms[1..], cd, learner)
  }

  /** `cat.train(cal_cd)` on one member; the other categorisers keep their
      state. */
  method LearnMember(cat: Categoriser, ghost ms: seq<Member>, cd: CatData) returns (t: Outcome)
    requires WellFormed(cd) && Trainable(cat.kind)
    modifies cat`isTrained, cat`settings, cat`model
    ensures cat.State() == Learn(cat.kind, cd).0 && t == Learn(cat.kind, cd).1
    ensures forall j :: 0 <= j < |ms| && ms[j].Single? && ms[j].cat != cat ==>
      ms[j].cat.State() == old(ms[j].cat.State())
  {
    LearnFresh(cat.State(), cd);
    t := cat.Train(cd, None, []);
  }

  class CategoriserComparison {
    const calCd: CatData
    const valCd: CatData
    var cats: seq<Member>

    constructor (calCd: CatData, valCd: CatData)
      ensures this.calCd == calCd && this.valCd == valCd && cats == []
    {
      this.calCd := calCd;
      this.valCd := valCd;
      cats := [];
    }

    /** `add_cat(cat)`. */
    method AddCat(m: Member)
      modifies this`cats
      ensures cats == old(cats) + [m]
    {
      cats := cats + [m];
    }

    /** The single categorisers among the first n members. */
    ghost function TrainedCats(n: nat): set<Categoriser>
      reads this`cats
    {
      set j | 0 <= j < n && j < |cats| && cats[j].Single? :: cats[j].cat
    }

    /** `train()`: each member, in order, is trained on `cal_cd` without
        indices or options, until one raises. */
    method Train() returns (o: Outcome)
      requires WellFormed(calCd)
      modifies set j | 0 <= j < |cats| && cats[j].Single? :: cats[j].cat
      ensures o == TrainRun(cats, 0, calCd).1
      ensures forall j :: 0 <= j < TrainRun(cats, 0, calCd).0 ==>
        MemberTrainable(cats[j]) && cats[j].cat.State() == Learn(cats[j].cat.kind, calCd).0
      ensures forall j :: 0 <= j < |cats| && cats[j].Single? && cats[j].cat !in TrainedCats(TrainRun(cats, 0, calCd).0) ==>
        cats[j].cat.State() == old(cats[j].cat.State())
    {
      ghost var stop := TrainRun(cats, 0, calCd);
      var i := 0;
      while i < |cats|
        invariant 0 <= i <= |cats| && TrainRun(cats, i, calCd) == stop
        invariant forall j :: 0 <= j < i ==>
          MemberTrainable(cats[j]) && cats[j].cat.State() == Learn(cats[j].cat.kind, calCd).0
        invariant forall j :: 0 <= j < |cats| && cats[j].Single? && cats[j].cat !in TrainedCats(i) ==>
          cats[j].cat.State() == old(cats[j].cat.State())
      {
        var m := cats[i];
        if !(m.Single? && Trainable(m.cat.kind)) {
          return Fail(NotTrainable);
        }
        var t := LearnMember(m.cat, cats, calCd);
        assert TrainedCats(i + 1) == TrainedCats(i) + {m.cat};
        if t.Fail? {
          return t;
        }
        forall j | 0 <= j <= i
          ensures MemberTrainable(cats[j]) && cats[j].cat.State() == Learn(cats[j].cat.kind, calCd).0
        {
          if j < i && cats[j].cat != m.cat {
          }
        }
        i := i + 1;
      }
      o := Done;
    }

    /** `compare()`: each member, in order, runs `try_cat` on `cal_cd` (the
        calibration data, not `val_cd`) and its `res` is printed; the
        printed counts are returned. A raise stops the loop. */
    method Compare(learner: Learner) returns (printed: seq<Counts>, o: Outcome)
      requires WellFormed(calCd)
      requires forall j :: 0 <= j < |cats| && cats[j].Chained? ==> cats[j].chain.Valid()
      modifies AllObjects(cats)
      ensures (printed, o) == CompareRun(old(Scores(cats, calCd, learner)))
    {
      ghost var scores := Scores(cats, calCd, learner);
      var ms := cats;
      printed := [];
      var i := 0;
      assert scores[0..] == scores && [] + CompareRun(scores).0 == CompareRun(scores).0;
      while i < |ms|
        invariant 0 <= i <= |ms| && cats == ms
        invariant forall j :: 0 <= j < |ms| ==> MemberScore(ms[j], calCd, learner) == scores[j]
        invariant (printed + CompareRun(scores[i..]).0, CompareRun(scores[i..]).1) == CompareRun(scores)
      {
        CompareRunAt(scores, i);
        AllObjectsAt(ms, i);
        var t, c := TryMember(ms[i], ms, calCd, learner);
        if t.Fail? {
          AppendNil(printed);
          assert CompareRun(scores[i..]) == ([], t);
          return printed, t;
        }
        AppendAssoc(printed, c, CompareRun(scores[i + 1..]).0);
        printed := printed + [c];
        i := i + 1;
      }
      assert scores[i..] == [];
      AppendNil(printed);
      o := Done;
    }
  }
}
