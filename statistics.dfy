/** The statistics object of one learner (`createStatObj`,
    getUnbiasedAccuracy.py): the combined metrics over the outer folds, the
    per-fold breakdown and the stability verdict. The metric functions
    themselves (MCC, Q2, RMSE, the stability value) are not part of this
    model: they are given as functions. */
module Statistics {
  import opened Common

  type Matrix = seq<seq<int>>

  /** One fold's evaluation: (CA, confusion matrix) for a discrete response,
      (RMSE, Q2) for a continuous one. */
  datatype FoldMetric = ClassFold(ca: real, cm: Matrix) | RegFold(rmse: real, q2: real)

  /** An (observed, predicted) pair of a continuous response. */
  type Pair = (real, real)

  /** The metric functions the statistics use, and the configured stability
      thresholds (for a small and a large mean test set). */
  datatype Metrics = Metrics(
    mcc: Matrix -> real,
    stability: seq<real> -> Option<real>,
    rsqrt: seq<Pair> -> real,
    rmse: seq<Pair> -> real)

  datatype Thresholds = Thresholds(classL: real, classH: real, regL: real, regH: real)

  datatype FoldStat = FoldStat(
    nTrainCmpds: Option<seq<int>>,
    nTestCmpds: Option<seq<int>>,
    q2: Option<seq<real>>,
    rmse: Option<seq<real>>,
    cm: Option<seq<Matrix>>,
    ca: Option<seq<real>>,
    mcc: Option<seq<real>>)

  /** The statistics object. `userAlert` lists the folds whose training set
      was too small to optimise on; `individual` holds the member statistics
      of a consensus (empty otherwise). */
  datatype StatObj = StatObj(
    ca: Option<real>,
    cm: Option<Matrix>,
    mcc: Option<real>,
    labels: Option<seq<string>>,
    q2: Option<real>,
    rmse: Option<real>,
    stabilityValue: Option<real>,
    userAlert: seq<int>,
    selected: bool,
    stable: bool,
    responseType: Option<ResponseType>,
    foldStat: FoldStat,
    individual: map<string, StatObj>)

  /** The arguments of `createStatObj`; None stands for an argument left out. */
  datatype StatInput = StatInput(
    results: Option<seq<FoldMetric>>,
    expPred: Option<seq<Pair>>,
    nTrainCmpds: Option<seq<int>>,
    nTestCmpds: Option<seq<int>>,
    responseType: Option<ResponseType>,
    nExtFolds: Option<int>,
    userAlert: seq<int>,
    labels: Option<seq<string>>)

  /** Why `createStatObj` raises. */
  datatype StatError = NoFoldResults | WrongMetricShape | ZeroFolds | ConfusionShape | MeanOfEmpty

  const EmptyFoldStat := FoldStat(None, None, None, None, None, None, None)

  /** The object returned when an input is missing, and for a learner that
      failed: no metric, not stable, not selected, the alert kept. */
  function Placeholder(userAlert: seq<int>): (s: StatObj)
    ensures s.ca.None? && s.cm.None? && s.mcc.None? && s.labels.None?
    ensures s.q2.None? && s.rmse.None? && s.stabilityValue.None? && s.responseType.None?
    ensures !s.stable && !s.selected && s.userAlert == userAlert
    ensures s.foldStat == EmptyFoldStat && s.individual == map[]
  {
    StatObj(None, None, None, None, None, None, None, userAlert, false, false, None, EmptyFoldStat, map[])
  }

  predicate Missing(i: StatInput)
  {
    i.results.None? || i.expPred.None? || i.responseType.None? ||
    i.nExtFolds.None? || i.nTestCmpds.None? || i.nTrainCmpds.None?
  }

  // ---------------------------------------------------------------------
  // The combined confusion matrix

  /** Entry (row, col) of a matrix, 0 outside it. */
  function EntryOr0(m: Matrix, row: int, col: int): int
  {
    if 0 <= row < |m| && 0 <= col < |m[row]| then m[row][col] else 0
  }

  /** The sum over all fold matrices of their entry (row, col). */
  function EntrySum(cms: seq<Matrix>, row: int, col: int): int
  {
    if cms == [] then 0 else EntrySum(cms[..|cms| - 1], row, col) + EntryOr0(cms[|cms| - 1], row, col)
  }

  /** `m` can be added into `first` position by position without leaving it. */
  predicate FitsIn(m: Matrix, first: Matrix)
  {
    |m| <= |first| && forall row :: 0 <= row < |m| ==> |m[row]| <= |first[row]|
  }

  predicate SameShape(a: Matrix, b: Matrix)
  {
    |a| == |b| && forall row :: 0 <= row < |a| ==> |a[row]| == |b[row]|
  }

  /** The combined matrix: the shape of the first fold's matrix, each entry
      the sum of that entry over all folds. It does not exist (the loop
      raises an IndexError) when a later matrix reaches past the first. */
  function ConfusionSum(cms: seq<Matrix>): (r: Option<Matrix>)
    requires |cms| > 0
    ensures r.Some? <==> forall k :: 1 <= k < |cms| ==> FitsIn(cms[k], cms[0])
    ensures r.Some? ==> SameShape(r.value, cms[0])
    ensures r.Some? ==> forall row, col :: 0 <= row < |cms[0]| && 0 <= col < |cms[0][row]| ==>
                          r.value[row][col] == EntrySum(cms, row, col)
  {
    if forall k :: 1 <= k < |cms| ==> FitsIn(cms[k], cms[0]) then
      Some(seq(|cms[0]|, row requires 0 <= row < |cms[0]| =>
             seq(|cms[0][row]|, col requires 0 <= col < |cms[0][row]| => EntrySum(cms, row, col))))
    else None
  }

  lemma EntrySumStep(cms: seq<Matrix>, k: nat, row: int, col: int)
    requires k < |cms|
    ensures EntrySum(cms[..k + 1], row, col) == EntrySum(cms[..k], row, col) + EntryOr0(cms[k], row, col)
  {
    assert cms[..k + 1][..k] == cms[..k];
  }

  /** When every fold matrix has the shape of the first, the combined matrix
      has that shape and each entry is the plain sum of that entry over the
      folds. */
  lemma {:induction false} ConfusionSumOfSameShape(cms: seq<Matrix>, row: nat, col: nat)
    requires |cms| > 0 && forall k :: 0 <= k < |cms| ==> SameShape(cms[k], cms[0])
    requires row < |cms[0]| && col < |cms[0][row]|
    ensures ConfusionSum(cms).Some?
    ensures forall k :: 0 <= k < |cms| ==> row < |cms[k]| && col < |cms[k][row]|
    ensures ConfusionSum(cms).value[row][col] == SumAt(cms, row, col)
  {
    assert forall k :: 1 <= k < |cms| ==> FitsIn(cms[k], cms[0]);
    EntrySumIsSumAt(cms, row, col);
  }

  /** Sum of entry (row, col) over matrices that all have it. */
  function SumAt(cms: seq<Matrix>, row: nat, col: nat): int
    requires forall k :: 0 <= k < |cms| ==> row < |cms[k]| && col < |cms[k][row]|
  {
    if cms == [] then 0 else SumAt(cms[..|cms| - 1], row, col) + cms[|cms| - 1][row][col]
  }

  lemma {:induction false} EntrySumIsSumAt(cms: seq<Matrix>, row: nat, col: nat)
    requires forall k :: 0 <= k < |cms| ==> row < |cms[k]| && col < |cms[k][row]|
    ensures EntrySum(cms, row, col) == SumAt(cms, row, col)
  {
    if cms != [] {
      EntrySumIsSumAt(cms[..|cms| - 1], row, col);
    }
  }

  /** The nested loops that add every later fold matrix into a copy of the
      first, entry by entry; None is the IndexError of a later matrix that
      reaches past the first. */
  method SumConfusion(cms: seq<Matrix>) returns (r: Option<Matrix>)
    requires |cms| > 0
    ensures r == ConfusionSum(cms)
  {
    var acc := cms[0];
    assert cms[..1] == [cms[0]];
    var k := 1;
    while k < |cms|
      invariant 1 <= k <= |cms|
      invariant SameShape(acc, cms[0])
      invariant forall row, col :: 0 <= row < |acc| && 0 <= col < |acc[row]| ==>
                  acc[row][col] == EntrySum(cms[..k], row, col)
      invariant forall k' :: 1 <= k' < k ==> FitsIn(cms[k'], cms[0])
    {
      var m := cms[k];
      var row := 0;
      while row < |m|
        invariant 0 <= row <= |m|
        invariant SameShape(acc, cms[0])
        invariant row <= |acc|
        invariant forall r' :: 0 <= r' < row ==> |m[r']| <= |acc[r']|
        invariant forall r', col :: 0 <= r' < |acc| && 0 <= col < |acc[r']| ==>
                    acc[r'][col] == EntrySum(cms[..k], r', col) + (if r' < row then EntryOr0(m, r', col) else 0)
      {
        if row >= |acc| {
          assert !FitsIn(m, cms[0]);
          return None;
        }
        var col := 0;
        while col < |m[row]|
          invariant 0 <= col <= |m[row]|
          invariant SameShape(acc, cms[0])
          invariant col <= |acc[row]|
          invariant forall r', c :: 0 <= r' < |acc| && 0 <= c < |acc[r']| ==>
                      acc[r'][c] == EntrySum(cms[..k], r', c) +
                        (if r' < row || (r' == row && c < col) then EntryOr0(m, r', c) else 0)
        {
          if col >= |acc[row]| {
            assert !FitsIn(m, cms[0]);
            return None;
          }
          acc := acc[row := acc[row][col := acc[row][col] + m[row][col]]];
          col := col + 1;
        }
        assert forall c :: |m[row]| <= c < |acc[row]| ==> EntryOr0(m, row, c) == 0;
        row := row + 1;
      }
      forall r', c | 0 <= r' < |acc| && 0 <= c < |acc[r']|
        ensures acc[r'][c] == EntrySum(cms[..k + 1], r', c)
      {
        EntrySumStep(cms, k, r', c);
      }
      k := k + 1;
    }
    assert cms[..k] == cms;
    var want := ConfusionSum(cms).value;
    forall row | 0 <= row < |acc|
      ensures acc[row] == want[row]
    {
      assert |acc[row]| == |want[row]|;
    }
    assert acc == want;
    r := Some(acc);
  }

  // ---------------------------------------------------------------------
  // Combined accuracy and stability

  /** The combined accuracy as the source computes it: the summed fold
      accuracies divided by `nExtFolds`, whatever the number of folds. */
  function CAAsWritten(cas: seq<real>, nExtFolds: int): real
    requires nExtFolds != 0
  {
    SumReal(cas) / (nExtFolds as real)
  }

  /** The mean of the fold accuracies: the combined accuracy as intended. */
  function MeanCA(cas: seq<real>): real
    requires |cas| > 0
  {
    SumReal(cas) / (|cas| as real)
  }

  lemma {:induction false} SumRealConst(n: nat, c: real)
    ensures SumReal(seq(n, _ => c)) == (n as real) * c
  {
    if n > 0 {
      assert seq(n, _ => c)[..n - 1] == seq(n - 1, _ => c);
      SumRealConst(n - 1, c);
    }
  }

  /** When every fold has the same accuracy, the combined accuracy is that
      accuracy. */
  lemma MeanCAOfConstant(n: nat, c: real)
    requires n > 0
    ensures MeanCA(seq(n, _ => c)) == c
  {
    SumRealConst(n, c);
  }

  /** Dividing by `nExtFolds` instead of the number of fold results: two
      folds with accuracy 1.0 under `nExtFolds = 5` give 0.4. */
  lemma CAAsWrittenIsNotMean()
    ensures MeanCA([1.0, 1.0]) == 1.0
    ensures CAAsWritten([1.0, 1.0], 5) == 0.4
  {
    assert [1.0, 1.0][..1] == [1.0];
    assert [1.0][..0] == [];
  }

  /** With one fold result per outer fold (the sampler's labels 1..K), the
      combined accuracy as written is the mean. */
  lemma CAAsWrittenIsMeanOnEveryFold(cas: seq<real>, nExtFolds: int)
    requires |cas| == nExtFolds > 0
    ensures CAAsWritten(cas, nExtFolds) == MeanCA(cas)
  {
  }

  /** `statc.mean` of the test-set sizes. */
  function Mean(s: seq<int>): real
    requires |s| > 0
  {
    (Sum(s) as real) / (|s| as real)
  }

  /** The stability threshold: by response type, and by whether the mean test
      set holds more than 50 examples. */
  function Threshold(resp: ResponseType, meanTest: real, th: Thresholds): real
  {
    match resp
    case Classification => if meanTest > 50.0 then th.classL else th.classH
    case Regression => if meanTest > 50.0 then th.regL else th.regH
  }

  /** The stability verdict: a stability value exists and is below the
      threshold. None is the error of averaging an empty list of test sizes,
      which only happens when a stability value exists. */
  function Stable(sv: Option<real>, resp: ResponseType, nTest: seq<int>, th: Thresholds): (r: Option<bool>)
    ensures r.None? <==> sv.Some? && nTest == []
    ensures r == Some(true) <==> sv.Some? && nTest != [] && sv.value < Threshold(resp, Mean(nTest), th)
  {
    if sv.None? then Some(false)
    else if nTest == [] then None
    else Some(sv.value < Threshold(resp, Mean(nTest), th))
  }

  function Cas(rs: seq<FoldMetric>): (r: seq<real>)
    requires forall k :: 0 <= k < |rs| ==> rs[k].ClassFold?
    ensures |r| == |rs|
  {
    seq(|rs|, k requires 0 <= k < |rs| => rs[k].ca)
  }

  function Cms(rs: seq<FoldMetric>): (r: seq<Matrix>)
    requires forall k :: 0 <= k < |rs| ==> rs[k].ClassFold?
    ensures |r| == |rs|
  {
    seq(|rs|, k requires 0 <= k < |rs| => rs[k].cm)
  }

  function Q2s(rs: seq<FoldMetric>): seq<real>
    requires forall k :: 0 <= k < |rs| ==> rs[k].RegFold?
  {
    seq(|rs|, k requires 0 <= k < |rs| => rs[k].q2)
  }

  function Rmses(rs: seq<FoldMetric>): seq<real>
    requires forall k :: 0 <= k < |rs| ==> rs[k].RegFold?
  {
    seq(|rs|, k requires 0 <= k < |rs| => rs[k].rmse)
  }

  function MapMcc(m: Metrics, cms: seq<Matrix>): seq<real>
  {
    seq(|cms|, k requires 0 <= k < |cms| => m.mcc(cms[k]))
  }

  /** What `createStatObj` returns. */
  function StatObjOf(i: StatInput, m: Metrics, th: Thresholds): (r: Result<StatObj, StatError>)
    ensures !Missing(i) && r.Ok? && i.responseType == Some(Classification) ==>
              && (forall k :: 0 <= k < |i.results.value| ==> i.results.value[k].ClassFold?)
              && i.nExtFolds.value != 0
              && r.value.ca == Some(CAAsWritten(Cas(i.results.value), i.nExtFolds.value))
    ensures Missing(i) ==> r == Ok(Placeholder(i.userAlert))
    ensures !Missing(i) && r.Ok? ==>
              && r.value.responseType == i.responseType
              && r.value.userAlert == i.userAlert
              && !r.value.selected
              && r.value.foldStat.nTestCmpds == i.nTestCmpds
              && r.value.foldStat.nTrainCmpds == i.nTrainCmpds
              && (r.value.stable <==>
                    (r.value.stabilityValue.Some? && i.nTestCmpds.value != [] &&
                     r.value.stabilityValue.value < Threshold(i.responseType.value, Mean(i.nTestCmpds.value), th)))
  {
    if Missing(i) then Ok(Placeholder(i.userAlert))
    else
      var rs, resp, nTest := i.results.value, i.responseType.value, i.nTestCmpds.value;
      if resp == Classification then
        if !(forall k :: 0 <= k < |rs| ==> rs[k].ClassFold?) then Err(WrongMetricShape)
        else if i.nExtFolds.value == 0 then Err(ZeroFolds)
        else if rs == [] then Err(NoFoldResults)
        else
          var cms := Cms(rs);
          var sum := ConfusionSum(cms);
          if sum.None? then Err(ConfusionShape)
          else
            var sv := m.stability(Cas(rs));
            var st := Stable(sv, resp, nTest, th);
            if st.None? then Err(MeanOfEmpty)
            else
              Ok(StatObj(Some(CAAsWritten(Cas(rs), i.nExtFolds.value)), Some(sum.value), Some(m.mcc(sum.value)), i.labels,
                         None, None, sv, i.userAlert, false, st.value, Some(resp),
                         FoldStat(i.nTrainCmpds, i.nTestCmpds, None, None, Some(cms), Some(Cas(rs)), Some(MapMcc(m, cms))),
                         map[]))
      else
        if !(forall k :: 0 <= k < |rs| ==> rs[k].RegFold?) then Err(WrongMetricShape)
        else
          var ep := i.expPred.value;
          var sv := m.stability(Q2s(rs));
          var st := Stable(sv, resp, nTest, th);
          if st.None? then Err(MeanOfEmpty)
          else
            Ok(StatObj(None, None, None, None, Some(m.rsqrt(ep)), Some(m.rmse(ep)), sv, i.userAlert, false, st.value,
                       Some(resp), FoldStat(i.nTrainCmpds, i.nTestCmpds, Some(Q2s(rs)), Some(Rmses(rs)), None, None, None),
                       map[]))
  }

  /** `createStatObj`. With an input missing: the placeholder. Otherwise, for
      a discrete response, the combined CA is the sum of the fold CAs divided
      by `nExtFolds` (zero folds is a division by zero) and the combined matrix is the entry-wise sum of the fold matrices, whose
      own per-fold list is left as it was; for a continuous response, Q2 and
      RMSE come from the pooled prediction pairs. Stable holds exactly when
      the stability value exists and is below the threshold. */
  method CreateStatObj(i: StatInput, m: Metrics, th: Thresholds) returns (r: Result<StatObj, StatError>)
    ensures r == StatObjOf(i, m, th)
    ensures Missing(i) ==> r == Ok(Placeholder(i.userAlert))
    ensures !Missing(i) && r.Ok? && i.responseType == Some(Classification) ==>
              && i.results.value != []
              && r.value.foldStat.cm == Some(Cms(i.results.value))
              && i.nExtFolds.value != 0
              && r.value.ca == Some(SumReal(Cas(i.results.value)) / (i.nExtFolds.value as real))
              && r.value.cm.Some? && SameShape(r.value.cm.value, i.results.value[0].cm)
              && forall row, col :: 0 <= row < |r.value.cm.value| && 0 <= col < |r.value.cm.value[row]| ==>
                   r.value.cm.value[row][col] == EntrySum(Cms(i.results.value), row, col)
    ensures !Missing(i) && r.Ok? && i.responseType == Some(Regression) ==>
              r.value.q2 == Some(m.rsqrt(i.expPred.value)) && r.value.rmse == Some(m.rmse(i.expPred.value))
  {
    if Missing(i) {
      return Ok(Placeholder(i.userAlert));
    }
    var rs, resp, nTest := i.results.value, i.responseType.value, i.nTestCmpds.value;
    if resp == Classification {
      if !(forall k :: 0 <= k < |rs| ==> rs[k].ClassFold?) {
        return Err(WrongMetricShape);
      }
      if i.nExtFolds.value == 0 {
        return Err(ZeroFolds);
      }
      if rs == [] {
        return Err(NoFoldResults);
      }
      var cms := Cms(rs);
      var sum := SumConfusion(cms);
      if sum.None? {
        return Err(ConfusionShape);
      }
      var sv := m.stability(Cas(rs));
      var st := Stable(sv, resp, nTest, th);
      if st.None? {
        return Err(MeanOfEmpty);
      }
      r := Ok(StatObj(Some(CAAsWritten(Cas(rs), i.nExtFolds.value)), Some(sum.value), Some(m.mcc(sum.value)), i.labels,
                      None, None, sv, i.userAlert, false, st.value, Some(resp),
                      FoldStat(i.nTrainCmpds, i.nTestCmpds, None, None, Some(cms), Some(Cas(rs)), Some(MapMcc(m, cms))),
                      map[]));
    } else {
      if !(forall k :: 0 <= k < |rs| ==> rs[k].RegFold?) {
        return Err(WrongMetricShape);
      }
      var ep := i.expPred.value;
      var sv := m.stability(Q2s(rs));
      var st := Stable(sv, resp, nTest, th);
      if st.None? {
        return Err(MeanOfEmpty);
      }
      r := Ok(StatObj(None, None, None, None, Some(m.rsqrt(ep)), Some(m.rmse(ep)), sv, i.userAlert, false, st.value,
                      Some(resp), FoldStat(i.nTrainCmpds, i.nTestCmpds, Some(Q2s(rs)), Some(Rmses(rs)), None, None, None),
                      map[]));
    }
  }
}
