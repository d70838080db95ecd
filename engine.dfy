/** `getAcc` (getUnbiasedAccuracy.py): the outer cross-validation loop that
    runs every learner over every outer fold, turns each learner's fold
    results into statistics, and adds a consensus of the usable learners.
    Sampling, tuning, training, prediction and scoring are collaborators
    given as functions in `World`. */
module Engine {
  import opened Common
  import opened Partition
  import opened Validator
  import opened FoldLabels
  import opened Statistics
  import opened Consensus

  // ---------------------------------------------------------------------
  // Collaborators

  /** What the weight step of one fold gave: the fold weight (the `optAcc`
      entry) and, for a self-optimising learner, the model it built while
      tuning (if any); or the external optimiser reported the learner as
      not optimised, which raises. */
  datatype Tuning = Tuned(acc: real, special: Option<nat>) | NotOptimized

  /** The collaborators: the sampler; a 5-fold cross-validated accuracy (CA
      or R2) of a learner on a training set; a self-optimising learner's
      `optimizePars` (its tuned accuracy and possibly a model); the external
      optimiser (None when it did not optimise the learner, else its tuned
      accuracy); training (a model handle); per-example prediction; the
      observed response of an example; the accuracy and confusion matrix
      of a list of class predictions; the training size a consensus
      reports; and the statistics' metrics and stability thresholds. */
  datatype World = World(
    sample: (seq<Example>, int) -> seq<int>,
    crossValidate: (LearnerSpec, seq<Example>) -> real,
    optimizePars: (LearnerSpec, seq<Example>) -> (real, Option<nat>),
    optParam: (LearnerSpec, seq<Example>) -> Option<real>,
    fit: (LearnerSpec, seq<Example>) -> nat,
    classify: (Model, Example) -> int,
    regress: (Model, Example) -> real,
    observed: Example -> real,
    classScore: (seq<Example>, seq<int>) -> (real, Matrix),
    consensusNTrain: seq<Model> -> int,
    metrics: Metrics,
    thresholds: Thresholds)

  /** A sampler's labelling: one label per example, each in 0..k. */
  predicate SampleOK(labels: seq<int>, n: nat, k: int)
  {
    |labels| == n && forall x :: x in labels ==> 0 <= x && (k >= 0 ==> x <= k)
  }

  ghost predicate SamplerSound(w: World)
  {
    forall xs: seq<Example>, k: int :: SampleOK(w.sample(xs, k), |xs|, k)
  }

  // ---------------------------------------------------------------------
  // Inputs

  /** `__areInputsOK`, without the checks against the learners' parameter
      configuration: a learner (and, for a single learner, parameters to
      tune), non-zero fold counts, a non-empty data set with a class, a
      known queue, and at least one example per outer fold. */
  predicate InputsOK(g: Getter)
  {
    && (match g.learners
        case One(_, params) => params != []
        case Many(specs) => specs != [])
    && g.nExtFolds != 0 && g.nInnerFolds != 0
    && g.data.examples != []
    && g.data.classVar.Some?
    && g.queueType in ["NoSGE", "batch.q", "quick.q"]
    && FloorDiv(|g.data.examples|, g.nExtFolds) >= 1
  }

  /** Accepted inputs have between 1 and |data| outer folds. */
  lemma InputsBound(g: Getter)
    requires InputsOK(g)
    ensures 1 <= g.nExtFolds <= |g.data.examples|
  {
    var q := FloorDiv(|g.data.examples|, g.nExtFolds);
    TimesAtLeastOne(q, g.nExtFolds);
  }

  /** Multiplying by a factor of at least one moves away from zero. */
  lemma TimesAtLeastOne(q: int, k: int)
    ensures q >= 1 && k < 0 ==> q * k <= k
    ensures q >= 1 && k >= 0 ==> q * k >= k
  {
    assert q * k - k == (q - 1) * k;
  }

  /** A positive factor can be divided out of a comparison. */
  lemma DivideOut(a: int, b: int, t: int)
    requires t > 0
    ensures a * t <= b * t ==> a <= b
    ensures a * t < b * t ==> a < b
  {
    assert b * t - a * t == (b - a) * t;
  }

  function ResponseOf(d: Dataset): ResponseType
  {
    if d.classVar.Some? && d.classVar.value.Discrete? then Classification else Regression
  }

  /** The class values of a discrete response (none otherwise). */
  function ClassValues(d: Dataset): seq<string>
  {
    if d.classVar.Some? && d.classVar.value.Discrete? then d.classVar.value.values else []
  }

  /** The `labels` argument of `createStatObj`: the class values, or None
      when there are none. */
  function LabelsArg(values: seq<string>): Option<seq<string>>
  {
    if values == [] then None else Some(values)
  }

  // ---------------------------------------------------------------------
  // Whether to optimise

  /** The inner training sets would hold fewer than 20 examples. */
  predicate ShortForInner(n: nat, nInner: int)
    requires nInner != 0
  {
    (n as real) * (1.0 - 1.0 / (nInner as real)) < 20.0
  }

  /** For a positive inner fold count the size test is an integer one. */
  lemma ShortForInnerInIntegers(n: nat, nInner: int)
    requires nInner > 0
    ensures ShortForInner(n, nInner) <==> n * (nInner - 1) < 20 * nInner
  {
    var k := nInner as real;
    var x := (n as real) * (1.0 - 1.0 / k);
    assert x * k == (n * (nInner - 1)) as real;
    if x < 20.0 {
      assert x * k < 20.0 * k;
    } else {
      assert x * k >= 20.0 * k;
    }
  }

  /** The inner training set: the training set without the inner sampler's
      fold 1. */
  function InnerTrain(w: World, train: seq<Example>, nInner: int): seq<Example>
    requires SamplerSound(w)
  {
    assert SampleOK(w.sample(train, nInner), |train|, nInner);
    Train(train, w.sample(train, nInner), 1)
  }

  /** `dontOptimize`: for a continuous response a training set too small for
      the inner folds skips optimisation outright; otherwise optimisation is
      skipped exactly when the inner training set fails the soft check. A
      discrete response never takes the size shortcut. */
  function DontOptimize(w: World, resp: ResponseType, train: seq<Example>, nInner: int, nClasses: nat): (r: bool)
    requires SamplerSound(w) && nInner != 0
    ensures resp == Regression && ShortForInner(|train|, nInner) ==> r
    ensures !(resp == Regression && ShortForInner(|train|, nInner)) ==>
              (r <==> !Sufficient(InnerTrain(w, train, nInner), resp, nClasses))
  {
    if resp != Classification && ShortForInner(|train|, nInner) then true
    else !Sufficient(InnerTrain(w, train, nInner), resp, nClasses)
  }

  /** The size shortcut in integers: a continuous response with
      |train| * (nInner - 1) < 20 * nInner is not optimised. */
  lemma SmallRegressionNotOptimised(w: World, train: seq<Example>, nInner: int, nClasses: nat)
    requires SamplerSound(w) && nInner > 0
    requires |train| * (nInner - 1) < 20 * nInner
    ensures DontOptimize(w, Regression, train, nInner, nClasses)
  {
    ShortForInnerInIntegers(|train|, nInner);
  }

  /** The fold weight and the tuning path. Without optimisation the weight
      is a plain cross-validated accuracy. A self-optimising learner
      (`specialType` 1) tunes itself: for a discrete response it returns
      its accuracy and may hand over its model; for a continuous one the
      weight is again cross-validated. Any other learner goes to the
      external optimiser, whose failure raises; for a discrete response its
      tuned accuracy is the weight, for a continuous one a cross-validated
      R2 is. */
  function Tune(w: World, resp: ResponseType, spec: LearnerSpec, train: seq<Example>, dont: bool): (t: Tuning)
    ensures dont ==> t == Tuned(w.crossValidate(spec, train), None)
    ensures t.NotOptimized? <==> !dont && spec.specialType != 1 && w.optParam(spec, train).None?
    ensures t.Tuned? && t.special.Some? ==> !dont && spec.specialType == 1 && resp == Classification
    ensures !dont && spec.specialType == 1 && resp == Classification ==>
              t == Tuned(w.optimizePars(spec, train).0, w.optimizePars(spec, train).1)
    ensures !dont && spec.specialType != 1 && resp == Classification && w.optParam(spec, train).Some? ==>
              t == Tuned(w.optParam(spec, train).value, None)
    ensures t.Tuned? && resp == Regression ==> t == Tuned(w.crossValidate(spec, train), None)
  {
    if dont then Tuned(w.crossValidate(spec, train), None)
    else if spec.specialType == 1 then
      if resp == Classification then
        var (acc, m) := w.optimizePars(spec, train);
        Tuned(acc, m)
      else Tuned(w.crossValidate(spec, train), None)
    else
      match w.optParam(spec, train)
      case None => NotOptimized
      case Some(acc) => Tuned(if resp == Classification then acc else w.crossValidate(spec, train), None)
  }

  // ---------------------------------------------------------------------
  // Learner order and progress

  /** Position of the first learner with the given name. */
  function IndexOfName(specs: seq<LearnerSpec>, name: string): (r: Option<nat>)
    ensures r.Some? ==> r.value < |specs| && specs[r.value].name == name &&
                        forall j :: 0 <= j < r.value ==> specs[j].name != name
    ensures r.None? ==> forall j :: 0 <= j < |specs| ==> specs[j].name != name
  {
    if specs == [] then None
    else if specs[0].name == name then Some(0)
    else match IndexOfName(specs[1..], name)
      case None => None
      case Some(i) => Some(i + 1)
  }

  /** The learners with "PLS" moved to the front, the others keeping their
      order. */
  function PlsFirst(specs: seq<LearnerSpec>): (r: seq<LearnerSpec>)
    ensures |r| == |specs| && multiset(r) == multiset(specs)
    ensures IndexOfName(specs, "PLS").None? ==> r == specs
    ensures IndexOfName(specs, "PLS").Some? ==>
              var i := IndexOfName(specs, "PLS").value;
              r[0].name == "PLS" && r[1..] == specs[..i] + specs[i + 1..]
  {
    match IndexOfName(specs, "PLS")
    case None => specs
    case Some(i) =>
      var rest := specs[..i] + specs[i + 1..];
      assert specs == specs[..i] + [specs[i]] + specs[i + 1..];
      assert multiset(specs) == multiset(specs[..i]) + multiset{specs[i]} + multiset(specs[i + 1..]);
      assert ([specs[i]] + rest)[1..] == rest;
      [specs[i]] + rest
  }

  /** The learners in the order `getAcc` runs them. */
  function LearnerOrder(ls: Learners): (r: seq<LearnerSpec>)
    ensures |r| == (match ls case One(_, _) => 1 case Many(specs) => |specs|)
  {
    match ls
    case One(spec, _) => PlsFirst([spec])
    case Many(specs) => PlsFirst(specs)
  }

  /** The percentage passed to the progress callback (integer division). */
  function Progress(steps: int, total: int): (p: int)
    requires total > 0
    ensures 0 <= steps <= total ==> 0 <= p <= 100
    ensures steps >= total ==> p >= 100
    ensures steps == total ==> p == 100
  {
    var q := FloorDiv(100 * steps, total);
    assert q * total + total == (q + 1) * total;
    DivideOut(q, 100, total);
    DivideOut(0, q + 1, total);
    DivideOut(100, q + 1, total);
    q
  }

  // ---------------------------------------------------------------------
  // One learner over the outer folds

  /** What one learner accumulates over the folds. `alert` lists the folds
      that were not optimised (the user alert). */
  datatype Lists = Lists(
    optAcc: seq<real>,
    models: seq<Model>,
    results: seq<FoldMetric>,
    expPred: seq<Pair>,
    nTrain: seq<int>,
    nTest: seq<int>,
    alert: seq<int>)

  const NoLists := Lists([], [], [], [], [], [], [])

  /** A learner's run so far: still going, failed (the lists as they were
      when it failed), or stopped by the progress callback. */
  datatype Run = Running(lists: Lists) | Failed(lists: Lists) | Cancelled

  /** Everything fixed for the run: the collaborators, the data and its
      (shifted) fold labels, the folds in visiting order, the response, the
      class values, the fold counts, the total number of steps and the
      progress callback. */
  datatype Ctx = Ctx(
    w: World,
    examples: seq<Example>,
    labels: seq<int>,
    folds: seq<int>,
    resp: ResponseType,
    nClasses: nat,
    values: seq<string>,
    nExt: nat,
    nInner: int,
    total: int,
    callback: Option<int -> bool>)

  ghost predicate CtxOK(c: Ctx)
  {
    && SamplerSound(c.w) && |c.labels| == |c.examples|
    && c.nInner != 0 && c.total > 0
    && (c.resp == Classification ==> ClassesBelow(c.examples, c.nClasses))
  }

  function Predictions(w: World, m: Model, test: seq<Example>): seq<int>
  {
    seq(|test|, j requires 0 <= j < |test| => w.classify(m, test[j]))
  }

  function Pairs(w: World, m: Model, test: seq<Example>): (r: seq<Pair>)
    ensures |r| == |test|
  {
    seq(|test|, j requires 0 <= j < |test| => (w.observed(test[j]), w.regress(m, test[j])))
  }

  /** The fold's evaluation of a model on the test set, appended. */
  function Evaluate(c: Ctx, m: Model, test: seq<Example>, l: Lists): (r: Lists)
  {
    if c.resp == Classification then
      var s := c.w.classScore(test, Predictions(c.w, m, test));
      l.(results := l.results + [ClassFold(s.0, s.1)])
    else
      var pairs := Pairs(c.w, m, test);
      l.(results := l.results + [RegFold(c.w.metrics.rmse(pairs), c.w.metrics.rsqrt(pairs))],
         expPred := l.expPred + pairs)
  }

  /** One fold of one learner: record the set sizes and the alert, tune,
      train (or take the model tuning built), evaluate, report progress. */
  function FoldStep(c: Ctx, spec: LearnerSpec, f: int, l: Lists, steps: nat): (Run, nat)
    requires CtxOK(c)
  {
    var train := Train(c.examples, c.labels, f);
    var test := Test(c.examples, c.labels, f);
    var dont := DontOptimize(c.w, c.resp, train, c.nInner, c.nClasses);
    var l1 := l.(nTrain := l.nTrain + [|train|], nTest := l.nTest + [|test|],
                 alert := l.alert + (if dont then [f] else []));
    match Tune(c.w, c.resp, spec, train, dont)
    case NotOptimized => (Failed(l1), steps)
    case Tuned(acc, special) =>
      var m := Model(spec.specialType, if special.Some? then special.value else c.w.fit(spec, train));
      var l2 := Evaluate(c, m, test, l1.(optAcc := l1.optAcc + [acc], models := l1.models + [m]));
      if c.callback.None? then (Running(l2), steps)
      else if c.callback.value(Progress(steps + 1, c.total)) then (Running(l2), steps + 1)
      else (Cancelled, steps + 1)
  }

  /** The learner's run over the first `k` folds. */
  function RunFolds(c: Ctx, spec: LearnerSpec, k: nat, steps0: nat): (Run, nat)
    requires CtxOK(c) && k <= |c.folds|
  {
    if k == 0 then (Running(NoLists), steps0)
    else
      var prev := RunFolds(c, spec, k - 1, steps0);
      if prev.0.Running? then FoldStep(c, spec, c.folds[k - 1], prev.0.lists, prev.1) else prev
  }

  /** What a run leaves after `k` folds: while it runs, one entry per fold
      in every list, and each fold's training and test sizes add up to the
      data with the test size the number of examples labelled with that
      fold; a learner that failed has fewer models than folds and one
      weight per model. */
  ghost predicate RunShape(c: Ctx, run: Run, k: nat)
    requires CtxOK(c) && k <= |c.folds|
  {
    && (run.Running? ==>
          && |run.lists.models| == k && |run.lists.optAcc| == k && |run.lists.results| == k
          && |run.lists.nTrain| == k && |run.lists.nTest| == k
          && forall j :: 0 <= j < k ==>
               run.lists.nTrain[j] + run.lists.nTest[j] == |c.examples| &&
               run.lists.nTest[j] == Count(c.labels, c.folds[j]))
    && (run.Failed? ==> |run.lists.models| < k && |run.lists.optAcc| == |run.lists.models|)
  }

  /** What one fold does to the lists: while the run goes on, one entry more
      in every list, the two set sizes adding up to the data; a failed fold
      adds no model and no weight. */
  ghost predicate StepShape(c: Ctx, f: int, l: Lists, run: Run)
  {
    && (run.Running? ==>
          && |run.lists.models| > |l.models| && run.lists.models == l.models + [run.lists.models[|l.models|]]
          && |run.lists.optAcc| > |l.optAcc| && run.lists.optAcc == l.optAcc + [run.lists.optAcc[|l.optAcc|]]
          && |run.lists.results| == |l.results| + 1
          && run.lists.nTrain == l.nTrain + [|c.examples| - Count(c.labels, f)]
          && run.lists.nTest == l.nTest + [Count(c.labels, f)])
    && (run.Failed? ==> run.lists.models == l.models && run.lists.optAcc == l.optAcc)
  }

  /** What a run leaves (`RunShape`); without a callback nothing is
      cancelled and no step is counted, and each fold counts at most one
      step. */
  lemma {:induction false} RunFoldsShape(c: Ctx, spec: LearnerSpec, k: nat, steps0: nat)
    requires CtxOK(c) && k <= |c.folds|
    ensures RunShape(c, RunFolds(c, spec, k, steps0).0, k)
    ensures c.callback.None? ==> !RunFolds(c, spec, k, steps0).0.Cancelled? && RunFolds(c, spec, k, steps0).1 == steps0
    ensures steps0 <= RunFolds(c, spec, k, steps0).1 <= steps0 + k
  {
    if k > 0 {
      RunFoldsShape(c, spec, k - 1, steps0);
      var prev := RunFolds(c, spec, k - 1, steps0);
      if prev.0.Running? {
        var step := FoldStep(c, spec, c.folds[k - 1], prev.0.lists, prev.1);
        FoldStepShape(c, spec, c.folds[k - 1], prev.0.lists, prev.1);
        assert RunFolds(c, spec, k, steps0) == step;
        ShapeStep(c, k, prev.0.lists, step.0);
      }
    }
  }

  /** The inductive step of `RunFoldsShape`, on the lists alone. */
  lemma ShapeStep(c: Ctx, k: nat, l: Lists, run: Run)
    requires CtxOK(c) && 0 < k <= |c.folds|
    requires RunShape(c, Running(l), k - 1) && StepShape(c, c.folds[k - 1], l, run)
    ensures RunShape(c, run, k)
  {
    if run.Running? {
      forall j | 0 <= j < k
        ensures run.lists.nTrain[j] + run.lists.nTest[j] == |c.examples| &&
                run.lists.nTest[j] == Count(c.labels, c.folds[j])
      {
        if j < k - 1 {
          assert run.lists.nTrain[j] == l.nTrain[j] && run.lists.nTest[j] == l.nTest[j];
        }
      }
    }
  }

  /** One fold adds one entry to every list while the run goes on, the two
      set sizes adding up to the data; a failed fold adds no model and no
      weight; without a callback no step is counted. */
  lemma FoldStepShape(c: Ctx, spec: LearnerSpec, f: int, l: Lists, steps: nat)
    requires CtxOK(c)
    ensures var (run, s) := FoldStep(c, spec, f, l, steps);
            && StepShape(c, f, l, run)
            && (c.callback.None? ==> !run.Cancelled? && s == steps)
            && steps <= s <= steps + 1
  {
    TrainTestPartition(c.examples, c.labels, f);
    TestSize(c.examples, c.labels, f);
  }

  /** The regression pairs of the first `k` folds, fold by fold: each
      fold's test set predicted by the model trained for that fold. */
  function PooledPairs(c: Ctx, models: seq<Model>, k: nat): (r: seq<Pair>)
    requires CtxOK(c) && k <= |models| && k <= |c.folds|
    ensures |r| == Sum(seq(k, j requires 0 <= j < k => Count(c.labels, c.folds[j])))
  {
    if k == 0 then []
    else
      var test := Test(c.examples, c.labels, c.folds[k - 1]);
      TestSize(c.examples, c.labels, c.folds[k - 1]);
      var prev := seq(k - 1, j requires 0 <= j < k - 1 => Count(c.labels, c.folds[j]));
      assert seq(k, j requires 0 <= j < k => Count(c.labels, c.folds[j]))[..k - 1] == prev;
      PooledPairs(c, models, k - 1) + Pairs(c.w, models[k - 1], test)
  }

  lemma {:induction false} PooledPairsPrefix(c: Ctx, models: seq<Model>, models': seq<Model>, k: nat)
    requires CtxOK(c) && k <= |models| && k <= |models'| && k <= |c.folds|
    requires models[..k] == models'[..k]
    ensures PooledPairs(c, models, k) == PooledPairs(c, models', k)
  {
    if k > 0 {
      assert models[..k - 1] == models'[..k - 1] by {
        assert models[..k - 1] == models[..k][..k - 1];
        assert models'[..k - 1] == models'[..k][..k - 1];
      }
      assert models[k - 1] == models[..k][k - 1];
      assert models'[k - 1] == models'[..k][k - 1];
      PooledPairsPrefix(c, models, models', k - 1);
    }
  }

  /** What the lists of a run that is still going after `k` folds pool:
      for regression, in fold order, each fold's test set predicted by that
      fold's model, with each fold's result the RMSE and R^2 of exactly
      those pairs; for classification, no pairs, and each fold's result
      the score of that fold's model's predictions on its test set. */
  ghost predicate PairsSoFar(c: Ctx, l: Lists, k: nat)
    requires CtxOK(c) && k <= |c.folds|
  {
    && |l.models| == k && |l.results| == k
    && (c.resp == Regression ==>
          && l.expPred == PooledPairs(c, l.models, k)
          && forall j :: 0 <= j < k ==>
               var pairs := Pairs(c.w, l.models[j], Test(c.examples, c.labels, c.folds[j]));
               l.results[j] == RegFold(c.w.metrics.rmse(pairs), c.w.metrics.rsqrt(pairs)))
    && (c.resp == Classification ==>
          && l.expPred == []
          && forall j :: 0 <= j < k ==>
               var test := Test(c.examples, c.labels, c.folds[j]);
               var score := c.w.classScore(test, Predictions(c.w, l.models[j], test));
               l.results[j] == ClassFold(score.0, score.1))
  }

  /** A regression run that is still going after `k` folds has pooled, in
      fold order, each fold's test set predicted by that fold's model, and
      its per-fold results are the RMSE and R^2 of exactly those pairs; a
      classification run pools nothing, and its per-fold results score each
      fold's model's predictions on that fold's test set. */
  lemma {:induction false} RunFoldsPairs(c: Ctx, spec: LearnerSpec, k: nat, steps0: nat)
    requires CtxOK(c) && k <= |c.folds|
    ensures var run := RunFolds(c, spec, k, steps0).0;
            run.Running? ==> |run.lists.models| == k && |run.lists.results| == k
    ensures var run := RunFolds(c, spec, k, steps0).0;
            run.Running? && c.resp == Regression ==>
              && run.lists.expPred == PooledPairs(c, run.lists.models, k)
              && forall j :: 0 <= j < k ==>
                   var pairs := Pairs(c.w, run.lists.models[j], Test(c.examples, c.labels, c.folds[j]));
                   run.lists.results[j] == RegFold(c.w.metrics.rmse(pairs), c.w.metrics.rsqrt(pairs))
    ensures var run := RunFolds(c, spec, k, steps0).0;
            run.Running? && c.resp == Classification ==>
              && run.lists.expPred == []
              && forall j :: 0 <= j < k ==>
                   var test := Test(c.examples, c.labels, c.folds[j]);
                   var score := c.w.classScore(test, Predictions(c.w, run.lists.models[j], test));
                   run.lists.results[j] == ClassFold(score.0, score.1)
  {
    RunFoldsPairsSoFar(c, spec, k, steps0);
  }

  lemma {:induction false} RunFoldsPairsSoFar(c: Ctx, spec: LearnerSpec, k: nat, steps0: nat)
    requires CtxOK(c) && k <= |c.folds|
    ensures RunFolds(c, spec, k, steps0).0.Running? ==> PairsSoFar(c, RunFolds(c, spec, k, steps0).0.lists, k)
  {
    if k > 0 {
      RunFoldsPairsSoFar(c, spec, k - 1, steps0);
      var prev := RunFolds(c, spec, k - 1, steps0);
      if prev.0.Running? {
        var l := prev.0.lists;
        var next := FoldStep(c, spec, c.folds[k - 1], l, prev.1).0;
        FoldStepPairs(c, spec, c.folds[k - 1], l, prev.1);
        assert RunFolds(c, spec, k, steps0).0 == next;
        if next.Running? {
          PairsStep(c, k, l, next.lists);
        }
      }
    }
  }

  /** The inductive step of `RunFoldsPairsSoFar`, on the lists alone. */
  lemma PairsStep(c: Ctx, k: nat, l: Lists, l': Lists)
    requires CtxOK(c) && 0 < k <= |c.folds|
    requires PairsSoFar(c, l, k - 1)
    requires |l'.models| == |l.models| + 1 && |l'.results| == |l.results| + 1
    requires l'.models[..|l.models|] == l.models
    requires c.resp == Classification ==>
               var test := Test(c.examples, c.labels, c.folds[k - 1]);
               var score := c.w.classScore(test, Predictions(c.w, l'.models[|l.models|], test));
               && l'.expPred == l.expPred
               && l'.results == l.results + [ClassFold(score.0, score.1)]
    requires c.resp == Regression ==>
               var pairs := Pairs(c.w, l'.models[|l.models|], Test(c.examples, c.labels, c.folds[k - 1]));
               && l'.expPred == l.expPred + pairs
               && l'.results == l.results + [RegFold(c.w.metrics.rmse(pairs), c.w.metrics.rsqrt(pairs))]
    ensures PairsSoFar(c, l', k)
  {
    if c.resp == Regression {
      assert l'.models[..k - 1] == l.models[..k - 1];
      PooledPairsPrefix(c, l.models, l'.models, k - 1);
      forall j | 0 <= j < k
        ensures var pairs := Pairs(c.w, l'.models[j], Test(c.examples, c.labels, c.folds[j]));
                l'.results[j] == RegFold(c.w.metrics.rmse(pairs), c.w.metrics.rsqrt(pairs))
      {
        if j < k - 1 {
          assert l'.models[j] == l.models[j];
          assert l'.results[j] == l.results[j];
        }
      }
    } else {
      forall j | 0 <= j < k
        ensures var test := Test(c.examples, c.labels, c.folds[j]);
                var score := c.w.classScore(test, Predictions(c.w, l'.models[j], test));
                l'.results[j] == ClassFold(score.0, score.1)
      {
        if j < k - 1 {
          assert l'.models[j] == l.models[j];
          assert l'.results[j] == l.results[j];
        }
      }
    }
  }

  /** One fold that goes on appends its model, and for regression that
      model's pairs on the fold's test set and their RMSE and R^2; a
      classification fold pools no pairs and appends the score of that
      model's predictions on the test set. */
  lemma FoldStepPairs(c: Ctx, spec: LearnerSpec, f: int, l: Lists, steps: nat)
    requires CtxOK(c)
    ensures var run := FoldStep(c, spec, f, l, steps).0;
            run.Running? ==>
              && |run.lists.models| == |l.models| + 1
              && |run.lists.results| == |l.results| + 1
              && run.lists.models[..|l.models|] == l.models
              && (c.resp == Classification ==>
                    var test := Test(c.examples, c.labels, f);
                    var score := c.w.classScore(test, Predictions(c.w, run.lists.models[|l.models|], test));
                    && run.lists.expPred == l.expPred
                    && run.lists.results == l.results + [ClassFold(score.0, score.1)])
              && (c.resp == Regression ==>
                    var pairs := Pairs(c.w, run.lists.models[|l.models|], Test(c.examples, c.labels, f));
                    && run.lists.expPred == l.expPred + pairs
                    && run.lists.results == l.results + [RegFold(c.w.metrics.rmse(pairs), c.w.metrics.rsqrt(pairs))])
  {
    var run := FoldStep(c, spec, f, l, steps).0;
    if run.Running? {
      assert run.lists.models[..|l.models|] == l.models;
    }
  }

  /** The statistics of a learner's run: those of `createStatObj` when the
      run completed and the statistics could be formed, the placeholder
      otherwise. */
  function LearnerStat(c: Ctx, run: Run): (s: StatObj)
    requires !run.Cancelled?
    ensures run.Failed? ==> s == Placeholder([])
    ensures run.Running? && StatObjOf(StatInputOf(c, run.lists), c.w.metrics, c.w.thresholds).Err? ==>
              s == Placeholder([])
    ensures run.Running? && StatObjOf(StatInputOf(c, run.lists), c.w.metrics, c.w.thresholds).Ok? ==>
              s == StatObjOf(StatInputOf(c, run.lists), c.w.metrics, c.w.thresholds).value &&
              s.responseType == Some(c.resp) && s.userAlert == run.lists.alert &&
              s.foldStat.nTestCmpds == Some(run.lists.nTest)
  {
    if run.Failed? then Placeholder([])
    else
      match StatObjOf(StatInputOf(c, run.lists), c.w.metrics, c.w.thresholds)
      case Ok(s) => s
      case Err(_) => Placeholder([])
  }

  /** The arguments a completed learner passes to `createStatObj`. */
  function StatInputOf(c: Ctx, l: Lists): (i: StatInput)
    ensures !Missing(i)
  {
    StatInput(Some(l.results), Some(l.expPred), Some(l.nTrain), Some(l.nTest), Some(c.resp),
              Some(c.nExt), l.alert, LabelsArg(c.values))
  }

  // ---------------------------------------------------------------------
  // All learners

  /** The state after some learners: their statistics, models and weights
      by learner name, the steps reported, and whether the callback
      stopped the run. */
  datatype Acc = Acc(
    stats: map<string, StatObj>,
    models: map<string, seq<Model>>,
    optAcc: map<string, seq<real>>,
    steps: nat,
    cancelled: bool)

  /** The first `k` learners of `order`, run one after the other. */
  function RunLearners(c: Ctx, order: seq<LearnerSpec>, k: nat): (a: Acc)
    requires CtxOK(c) && k <= |order|
  {
    if k == 0 then Acc(map[], map[], map[], 0, false)
    else
      var prev := RunLearners(c, order, k - 1);
      if prev.cancelled then prev
      else
        var spec := order[k - 1];
        var (run, s) := RunFolds(c, spec, |c.folds|, prev.steps);
        if run.Cancelled? then prev.(steps := s, cancelled := true)
        else Acc(prev.stats[spec.name := LearnerStat(c, run)],
                 prev.models[spec.name := run.lists.models],
                 prev.optAcc[spec.name := run.lists.optAcc], s, false)
  }

  /** Every learner run so far has statistics, models and weights, and no
      other name has; a learner has one weight per model. */
  lemma {:induction false} RunLearnersKeys(c: Ctx, order: seq<LearnerSpec>, k: nat)
    requires CtxOK(c) && k <= |order|
    ensures var a := RunLearners(c, order, k);
            !a.cancelled ==>
              && (forall n :: n in a.stats <==> exists j :: 0 <= j < k && order[j].name == n)
              && a.models.Keys == a.stats.Keys && a.optAcc.Keys == a.stats.Keys
              && forall n :: n in a.models ==> |a.optAcc[n]| == |a.models[n]|
  {
    if k > 0 {
      RunLearnersKeys(c, order, k - 1);
      var prev := RunLearners(c, order, k - 1);
      if !prev.cancelled {
        var spec := order[k - 1];
        var run := RunFolds(c, spec, |c.folds|, prev.steps).0;
        RunFoldsShape(c, spec, |c.folds|, prev.steps);
        if !run.Cancelled? {
          assert |run.lists.optAcc| == |run.lists.models|;
          var a := RunLearners(c, order, k);
          assert a.stats == prev.stats[spec.name := LearnerStat(c, run)];
          assert a.models == prev.models[spec.name := run.lists.models];
          assert a.optAcc == prev.optAcc[spec.name := run.lists.optAcc];
        }
      }
    }
  }

  /** Each learner keeps what its own run produced, whatever the learners
      after it do: its statistics, models and weights (its name naming no
      other learner, and nobody cancelling). */
  lemma {:induction false} LearnerKeepsOwnResult(c: Ctx, order: seq<LearnerSpec>, k: nat, i: nat)
    requires CtxOK(c) && i < k <= |order|
    requires forall j :: 0 <= j < |order| && j != i ==> order[j].name != order[i].name
    requires !RunLearners(c, order, k).cancelled
    requires !RunFolds(c, order[i], |c.folds|, RunLearners(c, order, i).steps).0.Cancelled?
    ensures var run := RunFolds(c, order[i], |c.folds|, RunLearners(c, order, i).steps).0;
            var a := RunLearners(c, order, k);
            && order[i].name in a.stats && order[i].name in a.models && order[i].name in a.optAcc
            && a.stats[order[i].name] == LearnerStat(c, run)
            && a.models[order[i].name] == run.lists.models
            && a.optAcc[order[i].name] == run.lists.optAcc
  {
    if k - 1 > i {
      assert order[k - 1].name != order[i].name;
      RunLearnersKeepsOthers(c, order, k);
      LearnerKeepsOwnResult(c, order, k - 1, i);
    } else {
      RunLearnersAddsLast(c, order, k);
    }
  }

  /** A learner run that nobody cancelled records the last learner's own
      run. */
  lemma RunLearnersAddsLast(c: Ctx, order: seq<LearnerSpec>, k: nat)
    requires CtxOK(c) && 0 < k <= |order|
    requires !RunLearners(c, order, k).cancelled
    ensures var run := RunFolds(c, order[k - 1], |c.folds|, RunLearners(c, order, k - 1).steps).0;
            var a := RunLearners(c, order, k);
            && !run.Cancelled?
            && order[k - 1].name in a.stats && order[k - 1].name in a.models && order[k - 1].name in a.optAcc
            && a.stats[order[k - 1].name] == LearnerStat(c, run)
            && a.models[order[k - 1].name] == run.lists.models
            && a.optAcc[order[k - 1].name] == run.lists.optAcc
  {
  }

  /** A learner run that nobody cancelled leaves every other name's entries
      as the earlier learners left them. */
  lemma RunLearnersKeepsOthers(c: Ctx, order: seq<LearnerSpec>, k: nat)
    requires CtxOK(c) && 0 < k <= |order|
    requires !RunLearners(c, order, k).cancelled
    ensures !RunLearners(c, order, k - 1).cancelled
    ensures var prev, a := RunLearners(c, order, k - 1), RunLearners(c, order, k);
            forall n :: n != order[k - 1].name ==>
              && (n in prev.stats ==> n in a.stats && a.stats[n] == prev.stats[n])
              && (n in prev.models ==> n in a.models && a.models[n] == prev.models[n])
              && (n in prev.optAcc ==> n in a.optAcc && a.optAcc[n] == prev.optAcc[n])
  {
  }

  /** A learner that fails on some fold gets the placeholder statistics (its
      name naming no other learner, and nobody cancelling). */
  lemma FailedLearnerGetsPlaceholder(c: Ctx, order: seq<LearnerSpec>, k: nat, i: nat)
    requires CtxOK(c) && i < k <= |order|
    requires forall j :: 0 <= j < |order| && j != i ==> order[j].name != order[i].name
    requires !RunLearners(c, order, k).cancelled
    requires RunFolds(c, order[i], |c.folds|, RunLearners(c, order, i).steps).0.Failed?
    ensures order[i].name in RunLearners(c, order, k).stats
    ensures RunLearners(c, order, k).stats[order[i].name] == Placeholder([])
  {
    LearnerKeepsOwnResult(c, order, k, i);
  }

  // ---------------------------------------------------------------------
  // The consensus folds

  /** What the consensus accumulates over its folds. */
  datatype CLists = CLists(results: seq<FoldMetric>, expPred: seq<Pair>, nTrain: seq<int>, nTest: seq<int>)

  function Ballots(w: World, ms: seq<Model>, ws: seq<real>, e: Example): seq<Ballot>
    requires |ms| == |ws|
  {
    seq(|ms|, i requires 0 <= i < |ms| => Ballot(w.classify(ms[i], e), ws[i]))
  }

  function Estimates(w: World, ms: seq<Model>, ws: seq<real>, e: Example): seq<Estimate>
    requires |ms| == |ws|
  {
    seq(|ms|, i requires 0 <= i < |ms| => Estimate(w.regress(ms[i], e), ws[i]))
  }

  /** The members have a model and a weight for consensus fold `foldN`. */
  predicate HasFold(members: seq<string>, models: map<string, seq<Model>>, optAcc: map<string, seq<real>>, foldN: nat)
  {
    forall n :: n in members ==> n in models && n in optAcc && foldN < |models[n]| && foldN < |optAcc[n]|
  }

  /** The members' models at position `foldN`, in member order. */
  function FoldModels(members: seq<string>, models: map<string, seq<Model>>,
                      optAcc: map<string, seq<real>>, foldN: nat): (ms: seq<Model>)
    requires HasFold(members, models, optAcc, foldN)
    ensures |ms| == |members| && forall i :: 0 <= i < |members| ==> ms[i] == models[members[i]][foldN]
  {
    seq(|members|, i requires 0 <= i < |members| => models[members[i]][foldN])
  }

  /** The members' weights (`optAcc`) at position `foldN`, in member order. */
  function FoldWeights(members: seq<string>, models: map<string, seq<Model>>,
                       optAcc: map<string, seq<real>>, foldN: nat): (ws: seq<real>)
    requires HasFold(members, models, optAcc, foldN)
    ensures |ws| == |members| && forall i :: 0 <= i < |members| ==> ws[i] == optAcc[members[i]][foldN]
  {
    seq(|members|, i requires 0 <= i < |members| => optAcc[members[i]][foldN])
  }

  /** Consensus fold `foldN` (position `foldN` of every member's models and
      weights, test set of label `foldN + 1`); None is an error that escapes
      `getAcc`: fewer than two class values, a member without a model or a
      weight for that position, or a test example whose weights add up to
      zero in the weighted average. */
  function ConsensusFold(c: Ctx, members: seq<string>, models: map<string, seq<Model>>,
                         optAcc: map<string, seq<real>>, foldN: nat, l: CLists): (r: Option<CLists>)
    requires CtxOK(c)
    ensures r.Some? ==> HasFold(members, models, optAcc, foldN)
    ensures r.Some? ==> r.value.nTest == l.nTest + [|Test(c.examples, c.labels, foldN + 1)|]
    ensures r.Some? ==> |r.value.results| == |l.results| + 1
    ensures r.Some? ==> r.value.nTrain == l.nTrain + [c.w.consensusNTrain(FoldModels(members, models, optAcc, foldN))]
  {
    if c.resp == Classification && |c.values| < 2 then None
    else if !HasFold(members, models, optAcc, foldN) then None
    else
      var ms := FoldModels(members, models, optAcc, foldN);
      var ws := FoldWeights(members, models, optAcc, foldN);
      var test := Test(c.examples, c.labels, foldN + 1);
      var l1 := l.(nTrain := l.nTrain + [c.w.consensusNTrain(ms)], nTest := l.nTest + [|test|]);
      if c.resp == Classification then
        var preds := seq(|test|, j requires 0 <= j < |test| => Vote(Ballots(c.w, ms, ws, test[j])));
        var s := c.w.classScore(test, preds);
        Some(l1.(results := l1.results + [ClassFold(s.0, s.1)]))
      else if exists j :: 0 <= j < |test| && Average(Estimates(c.w, ms, ws, test[j])).None? then None
      else
        var pairs := seq(|test|, j requires 0 <= j < |test| =>
                           (c.w.observed(test[j]), Average(Estimates(c.w, ms, ws, test[j])).value));
        Some(l1.(results := l1.results + [RegFold(c.w.metrics.rmse(pairs), c.w.metrics.rsqrt(pairs))],
                 expPred := l1.expPred + pairs))
  }

  /** What a consensus fold computes: it fails exactly with fewer than two
      class values, a member without a model or weight at position `foldN`,
      or (for regression) a test example whose weights add up to zero;
      otherwise each test example of label `foldN + 1` is predicted by the
      weighted vote, or the weighted average, of the members' position-`foldN`
      models weighted by their `optAcc` at that position, and the fold's
      result is scored on those predictions. */
  lemma ConsensusFoldOutcome(c: Ctx, members: seq<string>, models: map<string, seq<Model>>,
                             optAcc: map<string, seq<real>>, foldN: nat, l: CLists)
    requires CtxOK(c)
    ensures var r := ConsensusFold(c, members, models, optAcc, foldN, l);
            r.None? <==>
              || (c.resp == Classification && |c.values| < 2)
              || !HasFold(members, models, optAcc, foldN)
              || (c.resp == Regression &&
                  var ms, ws := FoldModels(members, models, optAcc, foldN), FoldWeights(members, models, optAcc, foldN);
                  var test := Test(c.examples, c.labels, foldN + 1);
                  exists j :: 0 <= j < |test| && WeightSum(Estimates(c.w, ms, ws, test[j])) == 0.0)
    ensures var r := ConsensusFold(c, members, models, optAcc, foldN, l);
            r.Some? && c.resp == Classification ==>
              var ms, ws := FoldModels(members, models, optAcc, foldN), FoldWeights(members, models, optAcc, foldN);
              var test := Test(c.examples, c.labels, foldN + 1);
              exists preds: seq<int> ::
                && |preds| == |test|
                && (forall j :: 0 <= j < |test| ==> preds[j] == Vote(Ballots(c.w, ms, ws, test[j])))
                && r.value.results == l.results + [ClassFold(c.w.classScore(test, preds).0, c.w.classScore(test, preds).1)]
                && r.value.expPred == l.expPred
    ensures var r := ConsensusFold(c, members, models, optAcc, foldN, l);
            r.Some? && c.resp == Regression ==>
              var ms, ws := FoldModels(members, models, optAcc, foldN), FoldWeights(members, models, optAcc, foldN);
              var test := Test(c.examples, c.labels, foldN + 1);
              exists pairs: seq<Pair> ::
                && |pairs| == |test|
                && (forall j :: 0 <= j < |test| ==>
                      Average(Estimates(c.w, ms, ws, test[j])).Some? &&
                      pairs[j] == (c.w.observed(test[j]), Average(Estimates(c.w, ms, ws, test[j])).value))
                && r.value.expPred == l.expPred + pairs
                && r.value.results == l.results + [RegFold(c.w.metrics.rmse(pairs), c.w.metrics.rsqrt(pairs))]
  {
    var r := ConsensusFold(c, members, models, optAcc, foldN, l);
    if r.Some? && HasFold(members, models, optAcc, foldN) {
      var ms, ws := FoldModels(members, models, optAcc, foldN), FoldWeights(members, models, optAcc, foldN);
      var test := Test(c.examples, c.labels, foldN + 1);
      if c.resp == Classification {
        var preds := seq(|test|, j requires 0 <= j < |test| => Vote(Ballots(c.w, ms, ws, test[j])));
        assert r.value.results == l.results + [ClassFold(c.w.classScore(test, preds).0, c.w.classScore(test, preds).1)];
      } else {
        var pairs := seq(|test|, j requires 0 <= j < |test| =>
                           (c.w.observed(test[j]), Average(Estimates(c.w, ms, ws, test[j])).value));
        assert r.value.expPred == l.expPred + pairs;
      }
    }
  }

  /** The first `k` consensus folds. */
  function ConsensusFolds(c: Ctx, members: seq<string>, models: map<string, seq<Model>>,
                          optAcc: map<string, seq<real>>, k: nat): (r: Option<CLists>)
    requires CtxOK(c)
    ensures r.Some? ==> |r.value.nTest| == k && |r.value.results| == k
    ensures r.Some? ==> forall j :: 0 <= j < k ==> HasFold(members, models, optAcc, j)
  {
    if k == 0 then Some(CLists([], [], [], []))
    else
      var prev := ConsensusFolds(c, members, models, optAcc, k - 1);
      if prev.None? then None else ConsensusFold(c, members, models, optAcc, k - 1, prev.value)
  }

  /** Every member of a consensus that completes has a model and a weight
      for every consensus fold, so at least `nExtFolds` models. */
  lemma ConsensusNeedsEveryFold(c: Ctx, members: seq<string>, models: map<string, seq<Model>>,
                                optAcc: map<string, seq<real>>, k: nat, n: string)
    requires CtxOK(c) && k > 0 && n in members
    requires ConsensusFolds(c, members, models, optAcc, k).Some?
    ensures n in models && |models[n]| >= k
  {
    assert HasFold(members, models, optAcc, k - 1);
  }

  /** The consensus stage: when at least two learners are usable, the
      consensus statistics are added under "Consensus", carrying the
      members' own statistics; otherwise the statistics are left as they
      are. Err is an error that escapes `getAcc`. */
  function ConsensusStage(c: Ctx, a: Acc, order: seq<string>): (r: Result<map<string, StatObj>, ()>)
    requires CtxOK(c)
    ensures Pool(a.stats, a.models).None? ==> r.Err?
    ensures Pool(a.stats, a.models).Some? && !BuildsConsensus(a.stats, a.models) ==> r == Ok(a.stats)
    ensures BuildsConsensus(a.stats, a.models) && r.Ok? ==>
              && r.value.Keys == a.stats.Keys + {"Consensus"}
              && (forall n :: n in a.stats && n != "Consensus" ==> r.value[n] == a.stats[n])
              && r.value["Consensus"].individual.Keys == Pool(a.stats, a.models).value
              && forall n :: n in Pool(a.stats, a.models).value ==> r.value["Consensus"].individual[n] == a.stats[n]
  {
    match Pool(a.stats, a.models)
    case None => Err(())
    case Some(pool) =>
    if |pool| < 2 then Ok(a.stats)
    else
      var members := InOrder(order, pool);
      match ConsensusFolds(c, members, a.models, a.optAcc, c.nExt)
      case None => Err(())
      case Some(cl) =>
        match StatObjOf(StatInput(Some(cl.results), Some(cl.expPred), Some(cl.nTrain), Some(cl.nTest), Some(c.resp),
                                  Some(c.nExt), [], LabelsArg(c.values)), c.w.metrics, c.w.thresholds)
        case Err(_) => Err(())
        case Ok(s) =>
          var stats := a.stats["Consensus" := s.(individual := map n | n in pool :: a.stats[n])];
          assert stats.Keys == a.stats.Keys + {"Consensus"};
          Ok(stats)
  }

  // ---------------------------------------------------------------------
  // getAcc

  /** What `getAcc` gives: None, an exception, the statistics of the only
      learner, or the statistics of every learner (and the consensus). */
  datatype AccResult = NoResult | Raised | Single(stat: StatObj) | Multiple(stats: map<string, StatObj>)

  /** The fold labels before the shift: the predefined ones, or the
      sampler's. */
  function SampledLabels(g: Getter, w: World): (labels: seq<int>)
    requires Built(g) && SamplerSound(w)
    ensures |labels| == |g.data.examples|
  {
    assert SampleOK(w.sample(g.data.examples, g.nExtFolds), |g.data.examples|, g.nExtFolds);
    if g.usePreDefFolds then g.preDefIndices else w.sample(g.data.examples, g.nExtFolds)
  }

  /** The estimator as construction leaves it; several learners come as a
      dictionary, so their names are distinct. */
  predicate Built(g: Getter)
  {
    && WellFormed(g.data)
    && (g.learners.Many? ==>
          forall j, k :: 0 <= j < k < |g.learners.specs| ==> g.learners.specs[j].name != g.learners.specs[k].name)
    && !(g.usePreDefFolds && g.useVarCtrlCV)
    && ((g.usePreDefFolds || g.useVarCtrlCV) ==> |g.preDefIndices| == |g.data.examples|)
  }

  /** The fold labels the learners use: as sampled, or, in group-controlled
      mode, after the shift into the train bias. The shift counts the moved
      examples in a list with one slot per distinct test label, indexed by
      the raw label; None is the IndexError that escapes `getAcc` when a
      moved example's label is not a valid index into it. */
  function UsedLabels(g: Getter, w: World): (r: Option<seq<int>>)
    requires Built(g) && SamplerSound(w)
    ensures var l0 := SampledLabels(g, w);
            r.None? <==> g.useVarCtrlCV && !ShiftFits(g.preDefIndices, l0, |Folds(l0)|)
    ensures r.Some? ==> |r.value| == |g.data.examples|
    ensures r.Some? && !g.useVarCtrlCV ==> r.value == SampledLabels(g, w)
    ensures r.Some? && g.useVarCtrlCV ==>
              forall i :: 0 <= i < |r.value| ==>
                r.value[i] == (if g.preDefIndices[i] == 0 then 0 else SampledLabels(g, w)[i])
  {
    var labels0 := SampledLabels(g, w);
    if !g.useVarCtrlCV then Some(labels0)
    else if ShiftFits(g.preDefIndices, labels0, |Folds(labels0)|) then Some(Shifted(g.preDefIndices, labels0))
    else None
  }

  function ContextOf(g: Getter, w: World, callback: Option<int -> bool>): (c: Ctx)
    requires Built(g) && InputsOK(g) && SamplerSound(w) && UsedLabels(g, w).Some?
    ensures CtxOK(c)
  {
    var d := g.data;
    var labels0 := SampledLabels(g, w);
    var labels := UsedLabels(g, w).value;
    var order := LearnerOrder(g.learners);
    InputsBound(g);
    TimesAtLeastOne(|order|, g.nExtFolds);
    Ctx(w, d.examples, labels, Folds(labels0), ResponseOf(d), NumClasses(d), ClassValues(d),
        g.nExtFolds, g.nInnerFolds, |order| * g.nExtFolds, callback)
  }

  /** `getAcc`, end to end. */
  function GetAccSpec(g: Getter, w: World, callback: Option<int -> bool>): AccResult
    requires Built(g) && SamplerSound(w)
  {
    if !InputsOK(g) then NoResult
    else if UsedLabels(g, w).None? then Raised
    else
      var c := ContextOf(g, w, callback);
      if !(forall f :: f in c.folds ==> Sufficient(Train(c.examples, c.labels, f), c.resp, c.nClasses)) then Raised
      else
        var order := LearnerOrder(g.learners);
        var a := RunLearners(c, order, |order|);
        if a.cancelled then NoResult
        else if |a.stats| > 1 then
          match ConsensusStage(c, a, seq(|order|, i requires 0 <= i < |order| => order[i].name))
          case Err(_) => Raised
          case Ok(s) => Multiple(s)
        else if order[|order| - 1].name in a.stats then Single(a.stats[order[|order| - 1].name])
        else NoResult
  }

  // ---------------------------------------------------------------------
  // The loops of getAcc

  /** The soft check of the inner training set, unless the size shortcut
      applies. */
  method DecideDontOptimize(c: Ctx, train: seq<Example>) returns (dont: bool)
    requires CtxOK(c) && forall e :: e in train ==> e in c.examples
    ensures dont == DontOptimize(c.w, c.resp, train, c.nInner, c.nClasses)
  {
    if c.resp != Classification && ShortForInner(|train|, c.nInner) {
      return true;
    }
    var inner := InnerTrain(c.w, train, c.nInner);
    var ok := CheckTrainData(inner, c.resp, c.nClasses, false);
    dont := !ok.value;
  }

  /** The (observed, predicted) pairs of a test set, one per example. */
  method GatherPairs(w: World, m: Model, test: seq<Example>) returns (pairs: seq<Pair>)
    ensures pairs == Pairs(w, m, test)
  {
    pairs := [];
    var n := 0;
    while n < |test|
      invariant 0 <= n <= |test| && |pairs| == n
      invariant forall j :: 0 <= j < n ==> pairs[j] == (w.observed(test[j]), w.regress(m, test[j]))
    {
      pairs := pairs + [(w.observed(test[n]), w.regress(m, test[n]))];
      n := n + 1;
    }
  }

  /** The evaluation of a fold's model on its test set, appended. */
  method EvaluateFold(c: Ctx, m: Model, test: seq<Example>, l: Lists) returns (l': Lists)
    ensures l' == Evaluate(c, m, test, l)
  {
    if c.resp == Classification {
      var score := c.w.classScore(test, Predictions(c.w, m, test));
      l' := l.(results := l.results + [ClassFold(score.0, score.1)]);
    } else {
      var pairs := GatherPairs(c.w, m, test);
      l' := l.(results := l.results + [RegFold(c.w.metrics.rmse(pairs), c.w.metrics.rsqrt(pairs))],
               expPred := l.expPred + pairs);
    }
  }

  /** One fold of one learner. */
  method RunFold(c: Ctx, spec: LearnerSpec, f: int, l0: Lists, steps0: nat) returns (run: Run, steps: nat)
    requires CtxOK(c)
    ensures (run, steps) == FoldStep(c, spec, f, l0, steps0)
  {
    var train := Train(c.examples, c.labels, f);
    var test := Test(c.examples, c.labels, f);
    var dont := DecideDontOptimize(c, train);
    var l := l0.(nTrain := l0.nTrain + [|train|], nTest := l0.nTest + [|test|],
                 alert := l0.alert + (if dont then [f] else []));
    steps := steps0;
    var t := Tune(c.w, c.resp, spec, train, dont);
    if t.NotOptimized? {
      return Failed(l), steps;
    }
    var m := Model(spec.specialType, if t.special.Some? then t.special.value else c.w.fit(spec, train));
    l := l.(optAcc := l.optAcc + [t.acc], models := l.models + [m]);
    l := EvaluateFold(c, m, test, l);
    if c.callback.Some? {
      steps := steps + 1;
      if !c.callback.value(Progress(steps, c.total)) {
        return Cancelled, steps;
      }
    }
    run := Running(l);
  }

  /** A run that failed or was cancelled stays so over the remaining folds. */
  lemma {:induction false} StoppedStays(c: Ctx, spec: LearnerSpec, k: nat, k': nat, steps0: nat)
    requires CtxOK(c) && k <= k' <= |c.folds|
    requires !RunFolds(c, spec, k, steps0).0.Running?
    ensures RunFolds(c, spec, k', steps0) == RunFolds(c, spec, k, steps0)
  {
    if k' > k {
      StoppedStays(c, spec, k, k' - 1, steps0);
    }
  }

  /** A fold that computes `FoldStep` from the run so far advances the run
      by one fold; when it stops the run, that is the run's outcome. */
  lemma RunFoldsNext(c: Ctx, spec: LearnerSpec, i: nat, steps0: nat, l: Lists, steps: nat, next: Run, s: nat)
    requires CtxOK(c) && i < |c.folds|
    requires RunFolds(c, spec, i, steps0) == (Running(l), steps)
    requires (next, s) == FoldStep(c, spec, c.folds[i], l, steps)
    ensures RunFolds(c, spec, i + 1, steps0) == (next, s)
    ensures !next.Running? ==> RunFolds(c, spec, |c.folds|, steps0) == (next, s)
  {
    if !next.Running? {
      StoppedStays(c, spec, i + 1, |c.folds|, steps0);
    }
  }

  /** One learner over every outer fold, appending to its lists. */
  method RunLearner(c: Ctx, spec: LearnerSpec, steps0: nat) returns (run: Run, steps: nat)
    requires CtxOK(c)
    ensures (run, steps) == RunFolds(c, spec, |c.folds|, steps0)
  {
    var l := NoLists;
    steps := steps0;
    var i := 0;
    while i < |c.folds|
      invariant 0 <= i <= |c.folds|
      invariant RunFolds(c, spec, i, steps0) == (Running(l), steps)
    {
      var next, s := RunFold(c, spec, c.folds[i], l, steps);
      RunFoldsNext(c, spec, i, steps0, l, steps, next, s);
      if !next.Running? {
        return next, s;
      }
      l, steps := next.lists, s;
      i := i + 1;
    }
    run := Running(l);
  }

  /** The hard check of every fold's training set before any learner runs;
      false is the exception it raises. */
  method PreFlight(c: Ctx) returns (ok: bool)
    requires CtxOK(c)
    ensures ok <==> forall f :: f in c.folds ==> Sufficient(Train(c.examples, c.labels, f), c.resp, c.nClasses)
  {
    var i := 0;
    while i < |c.folds|
      invariant 0 <= i <= |c.folds|
      invariant forall j :: 0 <= j < i ==> Sufficient(Train(c.examples, c.labels, c.folds[j]), c.resp, c.nClasses)
    {
      var r := CheckTrainData(Train(c.examples, c.labels, c.folds[i]), c.resp, c.nClasses, true);
      if r.Err? {
        return false;
      }
      i := i + 1;
    }
    return true;
  }

  /** A cancelled run stays as it was for the remaining learners. */
  lemma {:induction false} CancelledStays(c: Ctx, order: seq<LearnerSpec>, k: nat, k': nat)
    requires CtxOK(c) && k <= k' <= |order|
    requires RunLearners(c, order, k).cancelled
    ensures RunLearners(c, order, k') == RunLearners(c, order, k)
  {
    if k' > k {
      CancelledStays(c, order, k, k' - 1);
    }
  }

  /** The statistics of one learner's run, through `createStatObj`. */
  method StatOfRun(c: Ctx, run: Run) returns (s: StatObj)
    requires !run.Cancelled?
    ensures s == LearnerStat(c, run)
  {
    if run.Failed? {
      return Placeholder([]);
    }
    var r := CreateStatObj(StatInputOf(c, run.lists), c.w.metrics, c.w.thresholds);
    s := if r.Ok? then r.value else Placeholder([]);
  }

  /** Every learner in turn, filling the statistics, models and weights by
      name. */
  method RunAllLearners(c: Ctx, order: seq<LearnerSpec>) returns (a: Acc)
    requires CtxOK(c)
    ensures a == RunLearners(c, order, |order|)
  {
    var stats: map<string, StatObj> := map[];
    var models: map<string, seq<Model>> := map[];
    var optAcc: map<string, seq<real>> := map[];
    var steps: nat := 0;
    var k := 0;
    while k < |order|
      invariant 0 <= k <= |order|
      invariant RunLearners(c, order, k) == Acc(stats, models, optAcc, steps, false)
    {
      var spec := order[k];
      var run, s := RunLearner(c, spec, steps);
      if run.Cancelled? {
        CancelledStays(c, order, k + 1, |order|);
        return Acc(stats, models, optAcc, s, true);
      }
      var st := StatOfRun(c, run);
      stats := stats[spec.name := st];
      models := models[spec.name := run.lists.models];
      optAcc := optAcc[spec.name := run.lists.optAcc];
      steps := s;
      k := k + 1;
    }
    a := Acc(stats, models, optAcc, steps, false);
  }

  /** Once a consensus fold fails, the consensus has failed. */
  lemma {:induction false} ConsensusFailureStays(c: Ctx, members: seq<string>, models: map<string, seq<Model>>,
                                                  optAcc: map<string, seq<real>>, k: nat, k': nat)
    requires CtxOK(c) && k <= k'
    requires ConsensusFolds(c, members, models, optAcc, k).None?
    ensures ConsensusFolds(c, members, models, optAcc, k').None?
  {
    if k' > k {
      ConsensusFailureStays(c, members, models, optAcc, k, k' - 1);
    }
  }

  lemma ConsensusFoldsNext(c: Ctx, members: seq<string>, models: map<string, seq<Model>>,
                           optAcc: map<string, seq<real>>, k: nat, cl: CLists)
    requires CtxOK(c) && ConsensusFolds(c, members, models, optAcc, k) == Some(cl)
    ensures ConsensusFolds(c, members, models, optAcc, k + 1) == ConsensusFold(c, members, models, optAcc, k, cl)
  {
  }

  /** The consensus over folds 0..n-1, appending to its lists. */
  method RunConsensusFolds(c: Ctx, members: seq<string>, models: map<string, seq<Model>>,
                           optAcc: map<string, seq<real>>, n: nat) returns (r: Option<CLists>)
    requires CtxOK(c)
    ensures r == ConsensusFolds(c, members, models, optAcc, n)
  {
    var cl := CLists([], [], [], []);
    var foldN := 0;
    while foldN < n
      invariant 0 <= foldN <= n
      invariant ConsensusFolds(c, members, models, optAcc, foldN) == Some(cl)
    {
      var next := ConsensusFold(c, members, models, optAcc, foldN, cl);
      ConsensusFoldsNext(c, members, models, optAcc, foldN, cl);
      if next.None? {
        ConsensusFailureStays(c, members, models, optAcc, foldN + 1, n);
        return None;
      }
      cl := next.value;
      foldN := foldN + 1;
    }
    r := Some(cl);
  }

  /** The consensus stage after the learners. */
  method RunConsensus(c: Ctx, a: Acc, order: seq<string>) returns (r: Result<map<string, StatObj>, ()>)
    requires CtxOK(c)
    ensures r == ConsensusStage(c, a, order)
  {
    var p := Pool(a.stats, a.models);
    if p.None? {
      return Err(());
    }
    var pool := p.value;
    if |pool| < 2 {
      return Ok(a.stats);
    }
    var members := InOrder(order, pool);
    var cl := RunConsensusFolds(c, members, a.models, a.optAcc, c.nExt);
    if cl.None? {
      return Err(());
    }
    var l := cl.value;
    var s := CreateStatObj(StatInput(Some(l.results), Some(l.expPred), Some(l.nTrain), Some(l.nTest), Some(c.resp),
                                     Some(c.nExt), [], LabelsArg(c.values)), c.w.metrics, c.w.thresholds);
    if s.Err? {
      return Err(());
    }
    r := Ok(a.stats["Consensus" := s.value.(individual := map n | n in pool :: a.stats[n])]);
  }

  /** The fold labels of `getAcc`: the predefined ones or the sampler's,
      then, in group-controlled mode, the shift done in place. */
  method LabelFolds(g: Getter, w: World) returns (labels: Option<seq<int>>)
    requires Built(g) && SamplerSound(w) && InputsOK(g)
    ensures labels == UsedLabels(g, w)
  {
    var labels0 := SampledLabels(g, w);
    labels := Some(labels0);
    if g.useVarCtrlCV {
      var idxs := new int[|labels0|](i requires 0 <= i < |labels0| => labels0[i]);
      assert idxs[..] == labels0;
      var nShifted, failedAt := ShiftAsWritten(idxs, g.preDefIndices, |Folds(labels0)|);
      if failedAt.Some? {
        return None;
      }
      labels := Some(idxs[..]);
    }
  }

  /** `getAcc`: check the inputs, label the folds (shifting the examples
      that may not be tested into the train bias), check every fold's
      training set, run the learners, then the consensus. */
  method GetAcc(g: Getter, w: World, callback: Option<int -> bool>) returns (r: AccResult)
    requires Built(g) && SamplerSound(w)
    ensures r == GetAccSpec(g, w, callback)
    ensures !InputsOK(g) ==> r == NoResult
    ensures InputsOK(g) && UsedLabels(g, w).None? ==> r == Raised
    ensures InputsOK(g) && !r.Raised? && !r.NoResult? ==>
              UsedLabels(g, w).Some? &&
              var c := ContextOf(g, w, callback);
              forall f :: f in c.folds ==> Sufficient(Train(c.examples, c.labels, f), c.resp, c.nClasses)
  {
    if !InputsOK(g) {
      return NoResult;
    }
    InputsBound(g);
    var d := g.data;
    var folds := Folds(SampledLabels(g, w));
    var used := LabelFolds(g, w);
    if used.None? {
      return Raised;
    }
    var order := LearnerOrder(g.learners);
    var c := Ctx(w, d.examples, used.value, folds, ResponseOf(d), NumClasses(d), ClassValues(d),
                 g.nExtFolds, g.nInnerFolds, |order| * g.nExtFolds, callback);
    assert c == ContextOf(g, w, callback);
    var ok := PreFlight(c);
    if !ok {
      return Raised;
    }
    var a := RunAllLearners(c, order);
    if a.cancelled {
      return NoResult;
    }
    if |a.stats| > 1 {
      var cs := RunConsensus(c, a, seq(|order|, i requires 0 <= i < |order| => order[i].name));
      if cs.Err? {
        return Raised;
      }
      return Multiple(cs.value);
    }
    var last := order[|order| - 1].name;
    if last in a.stats {
      r := Single(a.stats[last]);
    } else {
      r := NoResult;
    }
  }

  /** With a single learner, checked folds and no callback, `getAcc`
      returns that learner's statistics: those of its completed run, or the
      placeholder when it failed. */
  lemma SingleLearnerResult(g: Getter, w: World, spec: LearnerSpec, params: seq<string>)
    requires Built(g) && SamplerSound(w) && InputsOK(g) && g.learners == One(spec, params)
    requires UsedLabels(g, w).Some?
    requires var c := ContextOf(g, w, None);
             forall f :: f in c.folds ==> Sufficient(Train(c.examples, c.labels, f), c.resp, c.nClasses)
    ensures var c := ContextOf(g, w, None);
            !RunFolds(c, spec, |c.folds|, 0).0.Cancelled?
    ensures var c := ContextOf(g, w, None);
            GetAccSpec(g, w, None) == Single(LearnerStat(c, RunFolds(c, spec, |c.folds|, 0).0))
  {
    var c := ContextOf(g, w, None);
    var order := LearnerOrder(g.learners);
    assert order == [spec] by {
      if spec.name == "PLS" {
        assert IndexOfName([spec], "PLS") == Some(0);
      }
    }
    RunFoldsShape(c, spec, |c.folds|, 0);
    var a := RunLearners(c, order, 1);
    assert RunLearners(c, order, 0) == Acc(map[], map[], map[], 0, false);
    assert a.stats == map[spec.name := LearnerStat(c, RunFolds(c, spec, |c.folds|, 0).0)];
  }
}
