/** The training-set validator `__checkTrainData`
    (getUnbiasedAccuracy.py): a training set must hold at least 20 examples
    and, for a discrete response, at least 10 of every class value. */
module Validator {
  import opened Common

  const MinExamples := 20
  const MinPerClass := 10

  /** Number of examples of class `c`. */
  function CountClass(s: seq<Example>, c: int): nat
  {
    if s == [] then 0
    else CountClass(s[..|s| - 1], c) + (if s[|s| - 1].cls == c then 1 else 0)
  }

  /** The rule the validator enforces. */
  predicate Sufficient(train: seq<Example>, resp: ResponseType, nClasses: nat)
  {
    && |train| >= MinExamples
    && (resp == Classification ==> forall c :: 0 <= c < nClasses ==> CountClass(train, c) >= MinPerClass)
  }

  /** Class values with fewer than 10 examples among the first `k`, in class
      order; the size check comes first, so on a set that is too small no
      class is listed. */
  function LowClasses(train: seq<Example>, resp: ResponseType, k: nat): seq<nat>
  {
    if k == 0 || |train| < MinExamples || resp != Classification then []
    else LowClasses(train, resp, k - 1) + (if CountClass(train, k - 1) < MinPerClass then [k - 1] else [])
  }

  /** A class value is listed exactly when the set is large enough, the
      response discrete, and that class has fewer than 10 examples. */
  lemma {:induction false} LowClassesMembers(train: seq<Example>, resp: ResponseType, k: nat)
    ensures forall c :: c in LowClasses(train, resp, k) <==>
              |train| >= MinExamples && resp == Classification && 0 <= c < k && CountClass(train, c) < MinPerClass
  {
    if k > 0 && |train| >= MinExamples && resp == Classification {
      LowClassesMembers(train, resp, k - 1);
    }
  }

  /** A hard check that failed: the class values listed in its message. */
  datatype TooFewCompounds = TooFewCompounds(lowClasses: seq<nat>)

  /** `__checkTrainData(trainData, stopIfError)`. In the soft mode it answers
      whether the set is sufficient; in the hard mode a set that is not
      sufficient raises, naming the classes that fall short. */
  method CheckTrainData(train: seq<Example>, resp: ResponseType, nClasses: nat, stopIfError: bool)
    returns (r: Result<bool, TooFewCompounds>)
    requires resp == Classification ==> ClassesBelow(train, nClasses)
    ensures r.Ok? <==> (Sufficient(train, resp, nClasses) || !stopIfError)
    ensures r.Ok? ==> (r.value <==> Sufficient(train, resp, nClasses))
    ensures r.Err? ==> r.error.lowClasses == LowClasses(train, resp, nClasses)
  {
    var error := false;
    var low: seq<nat> := [];
    if |train| < MinExamples {
      error := true;
    } else if resp == Classification {
      var counts := CountClasses(train, nClasses);
      low := ClassesBelowMinimum(train, counts);
      NoLowClasses(train, nClasses);
    }
    error := error || low != [];
    if error {
      if stopIfError {
        r := Err(TooFewCompounds(low));
      } else {
        r := Ok(false);
      }
    } else {
      r := Ok(true);
    }
  }

  /** On a set of sufficient size, no class falls short exactly when every
      class value has at least 10 examples. */
  lemma NoLowClasses(train: seq<Example>, k: nat)
    requires |train| >= MinExamples
    ensures LowClasses(train, Classification, k) == [] <==> forall c :: 0 <= c < k ==> CountClass(train, c) >= MinPerClass
  {
    var low := LowClasses(train, Classification, k);
    LowClassesMembers(train, Classification, k);
    if low != [] {
      var c := low[0];
      assert c in low;
      assert 0 <= c < k && CountClass(train, c) < MinPerClass;
    } else {
      forall c | 0 <= c < k ensures CountClass(train, c) >= MinPerClass {
        assert c !in low;
      }
    }
  }

  /** The number of examples of each class value, in one pass. */
  method CountClasses(train: seq<Example>, nClasses: nat) returns (counts: seq<nat>)
    requires ClassesBelow(train, nClasses)
    ensures |counts| == nClasses
    ensures forall c :: 0 <= c < nClasses ==> counts[c] == CountClass(train, c)
  {
    counts := seq(nClasses, _ => 0);
    var i := 0;
    while i < |train|
      invariant 0 <= i <= |train|
      invariant |counts| == nClasses
      invariant forall c :: 0 <= c < nClasses ==> counts[c] == CountClass(train[..i], c)
    {
      assert train[..i + 1][..i] == train[..i];
      assert train[i] in train;
      var c := train[i].cls;
      counts := counts[c := counts[c] + 1];
      i := i + 1;
    }
    assert train[..i] == train;
  }

  /** The class values whose count is below 10, in class order. */
  method ClassesBelowMinimum(train: seq<Example>, counts: seq<nat>) returns (low: seq<nat>)
    requires |train| >= MinExamples
    requires forall c :: 0 <= c < |counts| ==> counts[c] == CountClass(train, c)
    ensures low == LowClasses(train, Classification, |counts|)
  {
    low := [];
    var v := 0;
    while v < |counts|
      invariant 0 <= v <= |counts|
      invariant low == LowClasses(train, Classification, v)
    {
      if counts[v] < MinPerClass {
        low := low + [v];
      }
      v := v + 1;
    }
  }

  /** Counting the classes of a set: every example has one class, so the
      per-class counts add up to the size of the set. */
  lemma {:induction false} ClassCountsSum(train: seq<Example>, nClasses: nat)
    requires ClassesBelow(train, nClasses)
    ensures Sum(seq(nClasses, c => CountClass(train, c))) == |train|
  {
    if train == [] {
      assert seq(nClasses, c => CountClass(train, c)) == seq(nClasses, _ => 0);
      SumZeros(nClasses);
    } else {
      var n := |train| - 1;
      var front := train[..n];
      assert forall e :: e in front ==> e in train;
      ClassCountsSum(front, nClasses);
      assert train[n] in train;
      var prev := seq(nClasses, c => CountClass(front, c));
      var k := train[n].cls;
      assert seq(nClasses, c => CountClass(train, c)) == prev[k := prev[k] + 1];
      SumIncrement(prev, k);
    }
  }
}
