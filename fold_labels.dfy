/** Construction of the estimator (`UnbiasedAccuracyGetter.__init__`,
    getUnbiasedAccuracy.py): the optional control attribute either marks
    which examples may be tested (group mode) or carries the fold label of
    each example (predefined mode); it is then removed from the data. */
module FoldLabels {
  import opened Common
  import opened Partition

  /** `testFilterVal`: absent, a list of permitted values, or anything else. */
  datatype FilterVal = NoFilterVal | FilterList(vals: seq<Value>) | OtherFilterVal

  /** A learner as the estimator sees it: its name and its `specialType`
      flag (1 for a self-optimising, structure-native learner). */
  datatype LearnerSpec = LearnerSpec(name: string, specialType: int)

  /** `learner`: one learner with the parameters to tune, or a dictionary of
      learners given in its iteration order. */
  datatype Learners = One(spec: LearnerSpec, paramList: seq<string>) | Many(specs: seq<LearnerSpec>)

  /** The built estimator: its configuration and the fold-label state that
      construction leaves behind. */
  datatype Getter = Getter(
    data: Dataset,
    nExtFolds: int,
    nInnerFolds: int,
    learners: Learners,
    queueType: string,
    preDefIndices: seq<int>,
    usePreDefFolds: bool,
    useVarCtrlCV: bool)

  /** Why construction fails: a control value that is not a number, or a
      filter given in a form neither mode accepts. */
  datatype InitError = InvalidFoldValue(text: string) | BadFilterFormat(attr: string)

  /** The number a value reads as (`float(str(value))`), if any. */
  function Reading(v: Value): Option<real>
  {
    match v
    case Num(x) => Some(x)
    case Str(_, reading) => reading
  }

  /** The text of a value as it appears in the error message. */
  function Text(v: Value): string
  {
    match v
    case Num(_) => "<number>"
    case Str(t, _) => t
  }

  /** Python's `int()` of a float: truncation toward zero. */
  function TruncToInt(x: real): (t: int)
    ensures x >= 0.0 ==> t as real <= x < t as real + 1.0
    ensures x < 0.0 ==> t as real - 1.0 < x <= t as real
  {
    if x >= 0.0 then x.Floor else -((-x).Floor)
  }

  /** Group mode: label 1 for an example whose control value is permitted in
      the test pool, 0 (the train bias) for every other example. */
  method GroupLabels(examples: seq<Example>, attr: string, permitted: seq<Value>) returns (labels: seq<int>)
    requires forall e :: e in examples ==> attr in e.attrs
    ensures |labels| == |examples|
    ensures forall i :: 0 <= i < |examples| ==>
              (labels[i] == 1 <==> examples[i].attrs[attr] in permitted) &&
              (labels[i] == 0 <==> examples[i].attrs[attr] !in permitted)
  {
    labels := [];
    var i := 0;
    while i < |examples|
      invariant 0 <= i <= |examples|
      invariant |labels| == i
      invariant forall j :: 0 <= j < i ==> labels[j] == if examples[j].attrs[attr] in permitted then 1 else 0
    {
      assert examples[i] in examples;
      if examples[i].attrs[attr] in permitted {
        labels := labels + [1];
      } else {
        labels := labels + [0];
      }
      i := i + 1;
    }
  }

  /** Sum of the counts of the given keys. */
  function SumCounts(counter: map<int, nat>, keys: seq<int>): int
    requires forall k :: k in keys ==> k in counter
  {
    if keys == [] then 0
    else
      var last := keys[|keys| - 1];
      assert last in keys;
      assert forall k :: k in keys[..|keys| - 1] ==> k in keys;
      SumCounts(counter, keys[..|keys| - 1]) + counter[last]
  }

  predicate Distinct(s: seq<int>)
  {
    forall j, k :: 0 <= j < k < |s| ==> s[j] != s[k]
  }

  /** What predefined mode produces: the label of every example, how many
      examples carry each label (`foldsCounter`), and the labels in the
      order they were first seen (the counter's keys). */
  datatype PredefFolds = PredefFolds(labels: seq<int>, counter: map<int, nat>, keys: seq<int>)

  /** Predefined mode: each example's control value, read as a number and
      truncated, is its fold label; the first value that is not a number
      aborts construction. */
  method PredefinedLabels(examples: seq<Example>, attr: string) returns (r: Result<PredefFolds, InitError>)
    requires forall e :: e in examples ==> attr in e.attrs
    ensures r.Ok? <==> forall i :: 0 <= i < |examples| ==> Reading(examples[i].attrs[attr]).Some?
    ensures r.Err? ==> exists i :: 0 <= i < |examples| && Reading(examples[i].attrs[attr]).None? &&
                         r.error == InvalidFoldValue(Text(examples[i].attrs[attr]))
    ensures r.Ok? ==> |r.value.labels| == |examples|
    ensures r.Ok? ==> forall i :: 0 <= i < |examples| ==>
              r.value.labels[i] == TruncToInt(Reading(examples[i].attrs[attr]).value)
    ensures r.Ok? ==> forall v :: v in r.value.counter <==> v in r.value.labels
    ensures r.Ok? ==> forall v :: v in r.value.counter ==> r.value.counter[v] == Count(r.value.labels, v)
    ensures r.Ok? ==> Distinct(r.value.keys) && forall v :: v in r.value.keys <==> v in r.value.counter
    ensures r.Ok? ==> SumCounts(r.value.counter, r.value.keys) == |examples|
  {
    var labels: seq<int> := [];
    var counter: map<int, nat> := map[];
    var keys: seq<int> := [];
    var i := 0;
    while i < |examples|
      invariant 0 <= i <= |examples|
      invariant |labels| == i
      invariant forall j :: 0 <= j < i ==> Reading(examples[j].attrs[attr]).Some?
      invariant forall j :: 0 <= j < i ==> labels[j] == TruncToInt(Reading(examples[j].attrs[attr]).value)
      invariant CounterOf(labels, counter, keys)
    {
      assert examples[i] in examples;
      var value := examples[i].attrs[attr];
      if Reading(value).None? {
        return Err(InvalidFoldValue(Text(value)));
      }
      var fold := TruncToInt(Reading(value).value);
      CounterStep(labels, counter, keys, fold);
      if fold !in counter {
        counter := counter[fold := 1];
        keys := keys + [fold];
      } else {
        counter := counter[fold := counter[fold] + 1];
      }
      assert forall j :: 0 <= j < i ==> (labels + [fold])[j] == labels[j];
      labels := labels + [fold];
      i := i + 1;
    }
    r := Ok(PredefFolds(labels, counter, keys));
  }

  /** The counter of a list of labels, its keys and their sum stay in step
      when one more label is counted. */
  ghost predicate CounterOf(labels: seq<int>, counter: map<int, nat>, keys: seq<int>)
  {
    && (forall v :: v in counter <==> v in labels)
    && (forall v :: v in counter ==> counter[v] == Count(labels, v))
    && Distinct(keys) && (forall v :: v in keys <==> v in counter)
    && SumCounts(counter, keys) == |labels|
  }

  lemma CounterStep(labels: seq<int>, counter: map<int, nat>, keys: seq<int>, fold: int)
    requires CounterOf(labels, counter, keys)
    ensures fold !in counter ==> CounterOf(labels + [fold], counter[fold := 1], keys + [fold])
    ensures fold in counter ==> CounterOf(labels + [fold], counter[fold := counter[fold] + 1], keys)
  {
    var n := if fold in counter then counter[fold] + 1 else 1;
    MembershipStep(labels, counter, fold, n);
    CountsStep(labels, counter, fold);
    if fold !in counter {
      KeysStepFresh(keys, counter, fold);
      SumCountsFresh(counter, keys, fold);
    } else {
      SumCountsBump(counter, keys, fold);
    }
  }

  lemma MembershipStep(labels: seq<int>, counter: map<int, nat>, fold: int, n: nat)
    requires forall v :: v in counter <==> v in labels
    ensures forall v :: v in counter[fold := n] <==> v in labels + [fold]
  {
    assert forall v :: v in labels + [fold] <==> v in labels || v == fold;
  }

  lemma CountsStep(labels: seq<int>, counter: map<int, nat>, fold: int)
    requires forall v :: v in counter <==> v in labels
    requires forall v :: v in counter ==> counter[v] == Count(labels, v)
    ensures var c2 := counter[fold := if fold in counter then counter[fold] + 1 else 1];
            forall v :: v in c2 ==> c2[v] == Count(labels + [fold], v)
  {
    var c2 := counter[fold := if fold in counter then counter[fold] + 1 else 1];
    forall v | v in c2 ensures c2[v] == Count(labels + [fold], v) {
      CountAppend(labels, fold, v);
      if v == fold && fold !in counter {
        CountPositive(labels, fold);
      }
    }
  }

  lemma KeysStepFresh(keys: seq<int>, counter: map<int, nat>, fold: int)
    requires Distinct(keys) && (forall v :: v in keys <==> v in counter) && fold !in counter
    ensures Distinct(keys + [fold]) && forall v :: v in keys + [fold] <==> v in counter[fold := 1]
  {
  }

  /** Adding a new key with count 1 adds 1 to the sum. */
  lemma {:induction false} SumCountsFresh(counter: map<int, nat>, keys: seq<int>, v: int)
    requires forall k :: k in keys ==> k in counter
    requires v !in keys
    ensures SumCounts(counter[v := 1], keys + [v]) == SumCounts(counter, keys) + 1
  {
    assert (keys + [v])[..|keys|] == keys;
    SumCountsOther(counter, keys, v, 1);
  }

  /** Changing the count of a key outside `keys` leaves their sum alone. */
  lemma {:induction false} SumCountsOther(counter: map<int, nat>, keys: seq<int>, v: int, n: nat)
    requires forall k :: k in keys ==> k in counter
    requires v !in keys
    ensures SumCounts(counter[v := n], keys) == SumCounts(counter, keys)
  {
    if keys != [] {
      SumCountsOther(counter, keys[..|keys| - 1], v, n);
    }
  }

  /** Adding one to the count of a key that occurs once in `keys` adds one to
      the sum. */
  lemma {:induction false} SumCountsBump(counter: map<int, nat>, keys: seq<int>, v: int)
    requires forall k :: k in keys ==> k in counter
    requires Distinct(keys) && v in keys
    ensures SumCounts(counter[v := counter[v] + 1], keys) == SumCounts(counter, keys) + 1
  {
    var n := |keys| - 1;
    var front := keys[..n];
    if keys[n] == v {
      assert v !in front;
      SumCountsOther(counter, front, v, counter[v] + 1);
    } else {
      assert v in front;
      SumCountsBump(counter, front, v);
    }
  }

  /** The data with one attribute removed (`attributeDeselectionData`):
      same examples in the same order, without that attribute. */
  function RemoveAttr(d: Dataset, attr: string): (r: Dataset)
    ensures attr !in r.domain && r.domain == d.domain - {attr}
    ensures |r.examples| == |d.examples|
    ensures forall i :: 0 <= i < |d.examples| ==>
              r.examples[i].cls == d.examples[i].cls && r.examples[i].attrs == d.examples[i].attrs - {attr}
    ensures r.classVar == d.classVar
  {
    Dataset(d.domain - {attr}, d.classVar,
            seq(|d.examples|, i requires 0 <= i < |d.examples| =>
                  Example(d.examples[i].cls, d.examples[i].attrs - {attr})))
  }

  /** `__init__`: with a control attribute in the data and a non-empty list
      of permitted values, group mode; with the attribute and no values,
      predefined mode; with the attribute and anything else, construction
      fails. Either mode removes the attribute. Without the attribute (or
      with an empty name) the estimator uses the sampler alone. */
  method Init(data: Dataset, attrFilter: Option<string>, filterVal: FilterVal,
              nExtFolds: int, nInnerFolds: int, learners: Learners, queueType: string)
    returns (r: Result<Getter, InitError>)
    requires WellFormed(data)
    ensures r.Ok? ==> r.value.nExtFolds == nExtFolds && r.value.nInnerFolds == nInnerFolds &&
                      r.value.learners == learners && r.value.queueType == queueType
    ensures r.Ok? ==> |r.value.data.examples| == |data.examples|
    ensures r.Ok? && (r.value.usePreDefFolds || r.value.useVarCtrlCV) ==> |r.value.preDefIndices| == |data.examples|
    ensures r.Ok? ==> WellFormed(r.value.data) && NumClasses(r.value.data) == NumClasses(data)
    ensures r.Ok? ==> !(r.value.usePreDefFolds && r.value.useVarCtrlCV)
    ensures (attrFilter.None? || attrFilter.value == "" || attrFilter.value !in data.domain) ==>
              r.Ok? && r.value.data == data && r.value.preDefIndices == [] &&
              !r.value.usePreDefFolds && !r.value.useVarCtrlCV
    ensures attrFilter.Some? && attrFilter.value != "" && attrFilter.value in data.domain ==>
              var a := attrFilter.value;
              && (r.Ok? ==> r.value.data == RemoveAttr(data, a))
              && (filterVal.FilterList? && filterVal.vals != [] ==>
                    r.Ok? && r.value.useVarCtrlCV &&
                    forall i :: 0 <= i < |data.examples| ==>
                      r.value.preDefIndices[i] == if data.examples[i].attrs[a] in filterVal.vals then 1 else 0)
              && (filterVal.NoFilterVal? ==>
                    (r.Ok? <==> forall i :: 0 <= i < |data.examples| ==> Reading(data.examples[i].attrs[a]).Some?) &&
                    (r.Ok? ==> (r.value.usePreDefFolds &&
                       forall i :: 0 <= i < |data.examples| ==>
                         r.value.preDefIndices[i] == TruncToInt(Reading(data.examples[i].attrs[a]).value))))
              && ((filterVal.OtherFilterVal? || filterVal == FilterList([])) ==> r == Err(BadFilterFormat(a)))
  {
    if attrFilter.Some? && attrFilter.value != "" && attrFilter.value in data.domain {
      var a := attrFilter.value;
      assert forall e :: e in data.examples ==> a in e.attrs;
      var preDef: seq<int>;
      var preDefFolds := false;
      var varCtrl := false;
      if filterVal.FilterList? && filterVal.vals != [] {
        varCtrl := true;
        preDef := GroupLabels(data.examples, a, filterVal.vals);
      } else if filterVal.NoFilterVal? {
        preDefFolds := true;
        var p := PredefinedLabels(data.examples, a);
        if p.Err? {
          return Err(p.error);
        }
        preDef := p.value.labels;
      } else {
        return Err(BadFilterFormat(a));
      }
      var d := RemoveAttr(data, a);
      assert forall e :: e in d.examples ==> e.cls < NumClasses(data) || !(d.classVar.Some? && d.classVar.value.Discrete?) by {
        forall e | e in d.examples
          ensures e.cls < NumClasses(data) || !(d.classVar.Some? && d.classVar.value.Discrete?)
        {
          var i :| 0 <= i < |d.examples| && d.examples[i] == e;
          assert data.examples[i] in data.examples;
        }
      }
      assert forall e :: e in d.examples ==> d.domain <= e.attrs.Keys by {
        forall e | e in d.examples ensures d.domain <= e.attrs.Keys {
          var i :| 0 <= i < |d.examples| && d.examples[i] == e;
          assert data.examples[i] in data.examples;
        }
      }
      r := Ok(Getter(d, nExtFolds, nInnerFolds, learners, queueType, preDef, preDefFolds, varCtrl));
    } else {
      r := Ok(Getter(data, nExtFolds, nInnerFolds, learners, queueType, [], false, false));
    }
  }
}
