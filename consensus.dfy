/** The consensus stage of `getAcc` (getUnbiasedAccuracy.py): which learners
    join the consensus, and the rules the consensus applies to its members'
    predictions, a weighted vote between the first two class values for a
    discrete response and a weighted average for a continuous one. The
    weights are the members' tuning accuracies of the fold. */
module Consensus {
  import opened Common
  import opened Statistics

  /** A trained model as the consensus sees it: the `specialType` of the
      learner that built it and an opaque handle. */
  datatype Model = Model(specialType: int, handle: nat)

  // ---------------------------------------------------------------------
  // The pool

  /** Learners whose statistics carry a stability value and say stable. */
  function StableSet(stats: map<string, StatObj>): (r: set<string>)
    ensures forall n :: n in r <==> n in stats && stats[n].stabilityValue.Some? && stats[n].stable
  {
    set n | n in stats && stats[n].stabilityValue.Some? && stats[n].stable
  }

  /** The stable learners when there are at least two of them, otherwise
      every learner. */
  function Candidates(stats: map<string, StatObj>): (r: set<string>)
    ensures r <= stats.Keys
    ensures |StableSet(stats)| >= 2 ==> r == StableSet(stats)
    ensures |StableSet(stats)| <= 1 ==> r == stats.Keys
  {
    var stable := StableSet(stats);
    if |stable| <= 1 then stats.Keys else stable
  }

  /** With two learners or more there are always at least two candidates. */
  lemma CandidatesAtLeastTwo(stats: map<string, StatObj>)
    requires |stats| >= 2
    ensures |Candidates(stats)| >= 2
  {
    assert |stats.Keys| == |stats|;
  }

  /** The special-type exclusion as written: it reads the `specialType` of
      each candidate's first fold model, so a candidate without any model
      (a learner that failed on its first fold) makes it fail. */
  function ExcludeSpecialAsWritten(pool: set<string>, models: map<string, seq<Model>>): (r: Option<set<string>>)
    ensures r.None? <==> exists n :: n in pool && (n !in models || models[n] == [])
    ensures r.Some? ==> forall n :: n in r.value <==> n in pool && models[n][0].specialType <= 0
  {
    if exists n :: n in pool && (n !in models || models[n] == []) then None
    else Some(set n | n in pool && models[n][0].specialType <= 0)
  }

  /** The exclusion as intended: candidates without a model cannot serve,
      and candidates built by a special-type learner are left out. */
  function ExcludeSpecial(pool: set<string>, models: map<string, seq<Model>>): (r: set<string>)
    ensures r <= pool
    ensures forall n :: n in r <==> n in pool && n in models && models[n] != [] && models[n][0].specialType <= 0
  {
    set n | n in pool && n in models && models[n] != [] && models[n][0].specialType <= 0
  }

  /** Wherever the exclusion as written succeeds, it agrees with the intended
      one. */
  lemma ExclusionAgrees(pool: set<string>, models: map<string, seq<Model>>)
    requires ExcludeSpecialAsWritten(pool, models).Some?
    ensures ExcludeSpecialAsWritten(pool, models).value == ExcludeSpecial(pool, models)
  {
  }

  /** The consensus members: the candidates whose first model is not of a
      special type. As written, the exclusion reads every candidate's first
      model, so a candidate without any model makes it fail (None). Where
      it succeeds it agrees with the intended exclusion. */
  function Pool(stats: map<string, StatObj>, models: map<string, seq<Model>>): (r: Option<set<string>>)
    ensures r.None? <==> exists n :: n in Candidates(stats) && (n !in models || models[n] == [])
    ensures r.Some? ==> forall n :: n in r.value <==>
              && n in stats && n in models && models[n] != [] && models[n][0].specialType <= 0
              && ((stats[n].stabilityValue.Some? && stats[n].stable) || |StableSet(stats)| <= 1)
    ensures r.Some? ==> r.value == ExcludeSpecial(Candidates(stats), models)
  {
    ExcludeSpecialAsWritten(Candidates(stats), models)
  }

  /** A consensus is built only from at least two members. */
  predicate BuildsConsensus(stats: map<string, StatObj>, models: map<string, seq<Model>>)
  {
    Pool(stats, models).Some? && |Pool(stats, models).value| >= 2
  }

  /** Two learners, neither stable, the first of which failed before its
      first model: the fallback takes both, and the exclusion as written
      fails on the first. */
  lemma FailedLearnerBreaksFallback(ok: StatObj)
    requires !ok.stable
    ensures var stats := map["A" := Placeholder([]), "B" := ok];
            var models := map["A" := [], "B" := [Model(0, 0)]];
            && Candidates(stats) == {"A", "B"}
            && ExcludeSpecialAsWritten(Candidates(stats), models).None?
            && Pool(stats, models).None?
            && ExcludeSpecial(Candidates(stats), models) == {"B"}
  {
    var stats := map["A" := Placeholder([]), "B" := ok];
    assert StableSet(stats) == {};
    assert stats.Keys == {"A", "B"};
    var models := map["A" := [], "B" := [Model(0, 0)]];
    assert "A" in Candidates(stats) && models["A"] == [];
  }

  /** The members in a given iteration order. */
  function InOrder(order: seq<string>, pool: set<string>): (r: seq<string>)
    ensures forall n :: n in r <==> n in order && n in pool
  {
    if order == [] then []
    else InOrder(order[..|order| - 1], pool) + (if order[|order| - 1] in pool then [order[|order| - 1]] else [])
  }

  // ---------------------------------------------------------------------
  // The weighted vote

  /** One member's class prediction (an index into the class values) and its
      weight. */
  datatype Ballot = Ballot(pred: int, weight: real)

  /** Number of members predicting class `c`. */
  function Support(ms: seq<Ballot>, c: nat): nat
  {
    if ms == [] then 0 else Support(ms[..|ms| - 1], c) + (if ms[|ms| - 1].pred == c then 1 else 0)
  }

  /** Total weight of the members predicting class `c`. */
  function SupportWeight(ms: seq<Ballot>, c: nat): real
  {
    if ms == [] then 0.0 else SupportWeight(ms[..|ms| - 1], c) + (if ms[|ms| - 1].pred == c then ms[|ms| - 1].weight else 0.0)
  }

  /** `IF0(n, 1)`: a count of zero is replaced by one. */
  function IfZeroOne(n: nat): (r: nat)
    ensures r >= 1 && (n > 0 ==> r == n)
  {
    if n == 0 then 1 else n
  }

  /** The score of a class: the mean weight of the members that predict it,
      0 when none does. */
  function Score(ms: seq<Ballot>, c: nat): real
  {
    SupportWeight(ms, c) / (IfZeroOne(Support(ms, c)) as real)
  }

  /** The consensus class: the first class value wins when its score is at
      least the second's, ties included; no other class can be chosen. */
  function Vote(ms: seq<Ballot>): (r: nat)
    ensures r == 0 || r == 1
    ensures r == 0 <==> Score(ms, 0) >= Score(ms, 1)
  {
    if Score(ms, 0) >= Score(ms, 1) then 0 else 1
  }

  lemma {:induction false} NoSupportNoWeight(ms: seq<Ballot>, c: nat)
    requires Support(ms, c) == 0
    ensures SupportWeight(ms, c) == 0.0
  {
    if ms != [] {
      NoSupportNoWeight(ms[..|ms| - 1], c);
    }
  }

  /** A class nobody predicts scores 0. */
  lemma ScoreWithoutSupport(ms: seq<Ballot>, c: nat)
    requires Support(ms, c) == 0
    ensures Score(ms, c) == 0.0
  {
    NoSupportNoWeight(ms, c);
  }

  /** The score of a predicted class is its supporters' mean weight. */
  lemma ScoreIsMeanWeight(ms: seq<Ballot>, c: nat)
    requires Support(ms, c) > 0
    ensures Score(ms, c) * (Support(ms, c) as real) == SupportWeight(ms, c)
  {
  }

  /** Equal scores go to the first class value. */
  lemma TieGoesToFirst(ms: seq<Ballot>)
    requires Score(ms, 0) == Score(ms, 1)
    ensures Vote(ms) == 0
  {
  }

  /** A member predicting neither of the first two class values does not
      change the outcome. */
  lemma {:induction false} OtherClassesIgnored(ms: seq<Ballot>, b: Ballot)
    requires b.pred != 0 && b.pred != 1
    ensures Vote(ms + [b]) == Vote(ms)
  {
    assert (ms + [b])[..|ms|] == ms;
    assert Support(ms + [b], 0) == Support(ms, 0) && Support(ms + [b], 1) == Support(ms, 1);
    assert SupportWeight(ms + [b], 0) == SupportWeight(ms, 0) && SupportWeight(ms + [b], 1) == SupportWeight(ms, 1);
  }

  lemma {:induction false} UnanimousSupport(ms: seq<Ballot>, c: nat, d: nat)
    requires forall k :: 0 <= k < |ms| ==> ms[k].pred == c && ms[k].weight > 0.0
    ensures Support(ms, c) == |ms|
    ensures ms != [] ==> SupportWeight(ms, c) > 0.0
    ensures d != c ==> Support(ms, d) == 0
  {
    if ms != [] {
      UnanimousSupport(ms[..|ms| - 1], c, d);
    }
  }

  /** When every member predicts the same one of the first two class values
      with a positive weight, the consensus predicts it too. */
  lemma UnanimousVote(ms: seq<Ballot>, c: nat)
    requires ms != [] && (c == 0 || c == 1)
    requires forall k :: 0 <= k < |ms| ==> ms[k].pred == c && ms[k].weight > 0.0
    ensures Vote(ms) == c
  {
    UnanimousSupport(ms, c, 1 - c);
    ScoreWithoutSupport(ms, 1 - c);
  }

  // ---------------------------------------------------------------------
  // The weighted average

  /** One member's numeric prediction and its weight. */
  datatype Estimate = Estimate(pred: real, weight: real)

  function WeightSum(ms: seq<Estimate>): real
  {
    if ms == [] then 0.0 else WeightSum(ms[..|ms| - 1]) + ms[|ms| - 1].weight
  }

  function WeightedSum(ms: seq<Estimate>): real
  {
    if ms == [] then 0.0 else WeightedSum(ms[..|ms| - 1]) + ms[|ms| - 1].weight * ms[|ms| - 1].pred
  }

  /** The weighted mean of the predictions, normalised by the fold's total
      weight; a total of zero is a division by zero (None). */
  function Average(ms: seq<Estimate>): (r: Option<real>)
    ensures r.None? <==> WeightSum(ms) == 0.0
    ensures r.Some? ==> r.value * WeightSum(ms) == WeightedSum(ms)
  {
    if WeightSum(ms) == 0.0 then None else Some(WeightedSum(ms) / WeightSum(ms))
  }

  lemma {:induction false} WeightedSumOfAgreeing(ms: seq<Estimate>, p: real)
    requires forall k :: 0 <= k < |ms| ==> ms[k].pred == p
    ensures WeightedSum(ms) == p * WeightSum(ms)
  {
    if ms != [] {
      WeightedSumOfAgreeing(ms[..|ms| - 1], p);
    }
  }

  /** Members that agree make the consensus agree with them. */
  lemma AverageOfAgreeing(ms: seq<Estimate>, p: real)
    requires forall k :: 0 <= k < |ms| ==> ms[k].pred == p
    requires WeightSum(ms) != 0.0
    ensures Average(ms) == Some(p)
  {
    WeightedSumOfAgreeing(ms, p);
    var w, r := WeightSum(ms), Average(ms).value;
    assert (r - p) * w == 0.0;
    Cancel(r - p, w);
  }

  lemma Cancel(a: real, w: real)
    requires w != 0.0 && a * w == 0.0
    ensures a == 0.0
  {
    calc {
      a;
      a * (w / w);
      (a * w) / w;
      0.0;
    }
  }

  lemma {:induction false} WeightedSumBounds(ms: seq<Estimate>, lo: real, hi: real)
    requires forall k :: 0 <= k < |ms| ==> ms[k].weight >= 0.0 && lo <= ms[k].pred <= hi
    ensures lo * WeightSum(ms) <= WeightedSum(ms) <= hi * WeightSum(ms)
  {
    if ms != [] {
      var front, last := ms[..|ms| - 1], ms[|ms| - 1];
      WeightedSumBounds(front, lo, hi);
      var w, s := WeightSum(front), WeightedSum(front);
      var w', s' := last.weight, last.weight * last.pred;
      assert WeightSum(ms) == w + w' && WeightedSum(ms) == s + s';
      ScaleMonotone(w', last.pred, s', lo, hi);
      AddBounds(lo, hi, w, s, w', s');
    }
  }

  lemma ScaleMonotone(w: real, p: real, x: real, lo: real, hi: real)
    requires w >= 0.0 && lo <= p <= hi && x == w * p
    ensures lo * w <= x <= hi * w
  {
    assert x - lo * w == w * (p - lo);
    assert hi * w - x == w * (hi - p);
  }

  lemma AddBounds(lo: real, hi: real, w: real, s: real, w': real, s': real)
    requires lo * w <= s <= hi * w && lo * w' <= s' <= hi * w'
    ensures lo * (w + w') <= s + s' <= hi * (w + w')
  {
    assert lo * (w + w') == lo * w + lo * w';
    assert hi * (w + w') == hi * w + hi * w';
  }

  /** A positive factor can be divided out of an inequality. */
  lemma CancelPositive(a: real, b: real, w: real)
    requires w > 0.0 && a * w <= b * w
    ensures a <= b
  {
  }

  /** With non-negative weights, the consensus lies between the smallest
      and the largest member prediction. */
  lemma AverageBetween(ms: seq<Estimate>, lo: real, hi: real)
    requires forall k :: 0 <= k < |ms| ==> ms[k].weight >= 0.0 && lo <= ms[k].pred <= hi
    requires WeightSum(ms) != 0.0
    ensures lo <= Average(ms).value <= hi
  {
    WeightedSumBounds(ms, lo, hi);
    NonNegWeights(ms);
    BetweenByRatio(lo, hi, Average(ms).value, WeightSum(ms), WeightedSum(ms));
  }

  /** A ratio `s / w` with `w` positive lies between `lo` and `hi` when `s`
      lies between `lo * w` and `hi * w`. */
  lemma BetweenByRatio(lo: real, hi: real, r: real, w: real, s: real)
    requires w > 0.0 && r * w == s && lo * w <= s <= hi * w
    ensures lo <= r <= hi
  {
    CancelPositive(lo, r, w);
    CancelPositive(r, hi, w);
  }

  lemma {:induction false} NonNegWeights(ms: seq<Estimate>)
    requires forall k :: 0 <= k < |ms| ==> ms[k].weight >= 0.0
    ensures WeightSum(ms) >= 0.0
  {
    if ms != [] {
      NonNegWeights(ms[..|ms| - 1]);
    }
  }
}
