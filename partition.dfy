/** Outer folds: the train/test split by fold label, the list of folds that
    are used, and the in-place shift of group-controlled cross-validation
    (getUnbiasedAccuracy.py, getAcc). Label 0 is the fixed train bias;
    every other label names a test fold. */
module Partition {
  import opened Common

  /** Positions whose label is `f` (or, with `negate`, is not `f`), ascending:
      the rows that `data.select(labels, f, negate)` keeps. */
  function Picked(labels: seq<int>, f: int, negate: bool): (r: seq<nat>)
    ensures forall i :: 0 <= i < |labels| ==> (i in r <==> (labels[i] == f) != negate)
    ensures forall k :: 0 <= k < |r| ==> r[k] < |labels|
    ensures forall j, k :: 0 <= j < k < |r| ==> r[j] < r[k]
  {
    if labels == [] then []
    else
      var n := |labels| - 1;
      Picked(labels[..n], f, negate) + (if (labels[n] == f) != negate then [n] else [])
  }

  /** The examples at the positions `Picked` keeps, in their original order. */
  function Select(examples: seq<Example>, labels: seq<int>, f: int, negate: bool): (r: seq<Example>)
    requires |labels| == |examples|
    ensures forall e :: e in r ==> e in examples
  {
    if examples == [] then []
    else
      var n := |examples| - 1;
      Select(examples[..n], labels[..n], f, negate) + (if (labels[n] == f) != negate then [examples[n]] else [])
  }

  /** Training set of fold `f`: every example whose label is not `f`. */
  function Train(examples: seq<Example>, labels: seq<int>, f: int): seq<Example>
    requires |labels| == |examples|
  {
    Select(examples, labels, f, true)
  }

  /** Test set of fold `f`: every example whose label is `f`. */
  function Test(examples: seq<Example>, labels: seq<int>, f: int): seq<Example>
    requires |labels| == |examples|
  {
    Select(examples, labels, f, false)
  }

  /** Number of occurrences of `v` (of a label among the labels, of an
      example in a data set). */
  function Count<T(==)>(labels: seq<T>, v: T): nat
  {
    if labels == [] then 0
    else Count(labels[..|labels| - 1], v) + (if labels[|labels| - 1] == v then 1 else 0)
  }

  /** Appending a label adds one to its own count and leaves the others. */
  lemma CountAppend<T>(labels: seq<T>, x: T, v: T)
    ensures Count(labels + [x], v) == Count(labels, v) + (if x == v then 1 else 0)
  {
    assert (labels + [x])[..|labels|] == labels;
  }

  /** A label is counted at least once exactly when it occurs. */
  lemma {:induction false} CountPositive<T>(labels: seq<T>, v: T)
    ensures Count(labels, v) > 0 <==> v in labels
  {
    if labels != [] {
      var n := |labels| - 1;
      CountPositive(labels[..n], v);
      assert labels == labels[..n] + [labels[n]];
    }
  }

  /** `Select` keeps exactly the examples at the positions `Picked` lists. */
  lemma {:induction false} SelectAt(examples: seq<Example>, labels: seq<int>, f: int, negate: bool)
    requires |labels| == |examples|
    ensures |Select(examples, labels, f, negate)| == |Picked(labels, f, negate)|
    ensures forall k :: 0 <= k < |Picked(labels, f, negate)| ==>
              Select(examples, labels, f, negate)[k] == examples[Picked(labels, f, negate)[k]]
  {
    if examples != [] {
      var n := |examples| - 1;
      SelectAt(examples[..n], labels[..n], f, negate);
    }
  }

  /** For every fold, train and test split the data: together they hold every
      example exactly as often as the data does. */
  lemma TrainTestPartition(examples: seq<Example>, labels: seq<int>, f: int)
    requires |labels| == |examples|
    ensures |Train(examples, labels, f)| + |Test(examples, labels, f)| == |examples|
    ensures forall e :: Count(Train(examples, labels, f), e) + Count(Test(examples, labels, f), e) == Count(examples, e)
  {
    TrainTestSizes(examples, labels, f);
    forall e ensures Count(Train(examples, labels, f), e) + Count(Test(examples, labels, f), e) == Count(examples, e) {
      TrainTestCount(examples, labels, f, e);
    }
  }

  lemma {:induction false} TrainTestSizes(examples: seq<Example>, labels: seq<int>, f: int)
    requires |labels| == |examples|
    ensures |Train(examples, labels, f)| + |Test(examples, labels, f)| == |examples|
  {
    if examples != [] {
      var n := |examples| - 1;
      TrainTestSizes(examples[..n], labels[..n], f);
    }
  }

  lemma {:induction false} TrainTestCount(examples: seq<Example>, labels: seq<int>, f: int, e: Example)
    requires |labels| == |examples|
    ensures Count(Train(examples, labels, f), e) + Count(Test(examples, labels, f), e) == Count(examples, e)
  {
    if examples != [] {
      var n := |examples| - 1;
      var front, x := examples[..n], examples[n];
      TrainTestCount(front, labels[..n], f, e);
      CountAppend(front, x, e);
      assert examples == front + [x];
      if labels[n] == f {
        assert Test(examples, labels, f) == Test(front, labels[..n], f) + [x];
        assert Train(examples, labels, f) == Train(front, labels[..n], f);
        CountAppend(Test(front, labels[..n], f), x, e);
      } else {
        assert Train(examples, labels, f) == Train(front, labels[..n], f) + [x];
        assert Test(examples, labels, f) == Test(front, labels[..n], f);
        CountAppend(Train(front, labels[..n], f), x, e);
      }
    }
  }

  /** The test set of fold `f` has one example per occurrence of label `f`. */
  lemma {:induction false} TestSize(examples: seq<Example>, labels: seq<int>, f: int)
    requires |labels| == |examples|
    ensures |Test(examples, labels, f)| == Count(labels, f)
  {
    if examples != [] {
      var n := |examples| - 1;
      TestSize(examples[..n], labels[..n], f);
    }
  }

  /** A bias example (label 0) is in the training set of every test fold and
      in none of the test sets. */
  lemma BiasAlwaysTrains(examples: seq<Example>, labels: seq<int>, f: int, i: nat)
    requires |labels| == |examples| && i < |labels| && labels[i] == 0 && f != 0
    ensures examples[i] in Train(examples, labels, f)
  {
    SelectAt(examples, labels, f, true);
    var p := Picked(labels, f, true);
    assert i in p;
    var k :| 0 <= k < |p| && p[k] == i;
    assert Train(examples, labels, f)[k] == examples[i];
  }

  predicate Increasing(s: seq<int>)
  {
    forall j, k :: 0 <= j < k < |s| ==> s[j] < s[k]
  }

  /** Inserts `v` into an ascending list without duplicating it. */
  function InsertSorted(s: seq<int>, v: int): (r: seq<int>)
    requires Increasing(s)
    ensures Increasing(r)
    ensures forall x :: x in r <==> x in s || x == v
  {
    if s == [] then [v]
    else if v < s[0] then [v] + s
    else if v == s[0] then s
    else
      var t := InsertSorted(s[1..], v);
      assert forall x :: x in t ==> s[0] < x by {
        forall x | x in t ensures s[0] < x {
          if x in s[1..] {
            var k :| 0 <= k < |s[1..]| && s[1..][k] == x;
            assert s[k + 1] == x;
          }
        }
      }
      var r := [s[0]] + t;
      assert Increasing(r) by {
        forall j, k | 0 <= j < k < |r| ensures r[j] < r[k] {
          assert r[k] == t[k - 1] && t[k - 1] in t;
          if j > 0 {
            assert r[j] == t[j - 1];
          }
        }
      }
      r
  }

  /** The test folds of a labelling: its distinct non-zero labels, ascending
      (`foldsN`, the keys of `dict.fromkeys(DataIdxs)` without 0). */
  function Folds(labels: seq<int>): (r: seq<int>)
    ensures Increasing(r)
    ensures forall x :: x in r <==> x != 0 && x in labels
  {
    if labels == [] then []
    else
      var n := |labels| - 1;
      var prev := Folds(labels[..n]);
      assert labels == labels[..n] + [labels[n]];
      if labels[n] == 0 then prev else InsertSorted(prev, labels[n])
  }

  /** When the labels are exactly 1..K, the folds are visited as 1, 2, .., K,
      so the i-th fold (from 0) has label i+1, which is what the consensus
      loop takes for granted when it pairs position `foldN` with label
      `foldN + 1`. */
  lemma {:induction false} FoldsOfOneToK(labels: seq<int>, k: nat)
    requires forall x :: x in labels ==> 0 <= x <= k
    requires forall x :: 1 <= x <= k ==> x in labels
    ensures Folds(labels) == seq(k, i => i + 1)
  {
    var r := Folds(labels);
    assert forall j :: 0 <= j < |r| ==> r[j] in r;
    IncreasingRange(r, k);
  }

  /** An ascending list whose elements are exactly 1..k is [1, .., k]. */
  lemma {:induction false} IncreasingRange(r: seq<int>, k: nat)
    requires Increasing(r)
    requires forall j :: 0 <= j < |r| ==> 1 <= r[j] <= k
    requires forall x :: 1 <= x <= k ==> x in r
    ensures r == seq(k, i => i + 1)
  {
    if k > 0 {
      assert k in r;
      var last :| 0 <= last < |r| && r[last] == k;
      assert r[|r| - 1] == k;
      var front := r[..|r| - 1];
      forall x | 1 <= x <= k - 1 ensures x in front {
        assert x in r;
        var j :| 0 <= j < |r| && r[j] == x;
        assert j != |r| - 1;
        assert front[j] == x;
      }
      IncreasingRange(front, k - 1);
      assert r == front + [k];
    } else {
      IncreasingBounded(r, 1, 0);
    }
  }

  /** An ascending list within [lo, hi] has at most hi - lo + 1 elements. */
  lemma {:induction false} IncreasingBounded(r: seq<int>, lo: int, hi: int)
    requires Increasing(r) && lo <= hi + 1
    requires forall j :: 0 <= j < |r| ==> lo <= r[j] <= hi
    ensures |r| <= hi - lo + 1
  {
    if |r| > 0 {
      IncreasingBounded(r[1..], r[0] + 1, hi);
    }
  }

  // ---------------------------------------------------------------------
  // Which test set goes with the models of one outer fold

  /** The consensus stage as written tests the models of the `k`-th outer
      fold (from 0) on the examples labelled `k + 1`. With the labels
      [2, 3] the folds are [2, 3]: the models of position 1 were trained on
      the first example (label 2, not 3), and the consensus test of position
      1 is exactly that example; position 0 tests nothing and the example
      labelled 3 is never tested. */
  lemma ConsensusPairingLeaks()
    ensures var ex := [Example(0, map[]), Example(1, map[])];
            var labels := [2, 3];
            && Folds(labels) == [2, 3]
            && ex[0] in Train(ex, labels, Folds(labels)[1])
            && Test(ex, labels, 1 + 1) == [ex[0]]
            && Test(ex, labels, 0 + 1) == []
            && ex[1] !in Test(ex, labels, 0 + 1) + Test(ex, labels, 1 + 1)
  {
    var ex := [Example(0, map[]), Example(1, map[])];
    FoldsOfTwoThree();
    SelectOfTwo(ex[0], ex[1], 2, 3, 3, true);
    SelectOfTwo(ex[0], ex[1], 2, 3, 2, false);
    SelectOfTwo(ex[0], ex[1], 2, 3, 1, false);
  }

  lemma FoldsOfTwoThree()
    ensures Folds([2, 3]) == [2, 3]
  {
    assert [2, 3][..1] == [2];
    assert [2][..0] == [];
    assert InsertSorted([], 2) == [2];
    assert Folds([2]) == [2];
    assert InsertSorted([2], 3) == [2] + InsertSorted([2][1..], 3);
    assert [2][1..] == [];
  }

  /** The selection from two examples, spelled out. */
  lemma SelectOfTwo(a: Example, b: Example, la: int, lb: int, f: int, negate: bool)
    ensures Select([a, b], [la, lb], f, negate) ==
              (if (la == f) != negate then [a] else []) + (if (lb == f) != negate then [b] else [])
  {
    assert [a, b][..1] == [a];
    assert [la, lb][..1] == [la];
    assert [a][..0] == [];
    assert [la][..0] == [];
    assert Select([a], [la], f, negate) == Select([], [], f, negate) + (if (la == f) != negate then [a] else []);
  }

  /** The test label that goes with the models of the `k`-th outer fold: the
      label those models were held out from. */
  function ConsensusTestLabel(labels: seq<int>, k: nat): (f: int)
    requires k < |Folds(labels)|
    ensures f != 0 && f in labels
    ensures forall i :: 0 <= i < |labels| && labels[i] == f ==> labels[i] !in Folds(labels)[..k]
  {
    assert Folds(labels)[k] in Folds(labels);
    Folds(labels)[k]
  }

  /** With the corrected pairing, every example outside the train bias is
      tested at exactly one position, never by models that were trained on
      it; when the labels are exactly 1..K the corrected label is `k + 1`, so
      the pairing as written is right there. */
  lemma {:induction false} ConsensusTestLabelSound(labels: seq<int>, k: nat, i: nat)
    requires i < |labels| && k < |Folds(labels)|
    ensures labels[i] == ConsensusTestLabel(labels, k) ==> i !in Picked(labels, Folds(labels)[k], true)
    ensures labels[i] != 0 ==> exists j :: 0 <= j < |Folds(labels)| && labels[i] == ConsensusTestLabel(labels, j)
    ensures forall j :: (0 <= j < |Folds(labels)| && labels[i] == ConsensusTestLabel(labels, j) &&
                         labels[i] == ConsensusTestLabel(labels, k)) ==> j == k
  {
    var r := Folds(labels);
    if labels[i] != 0 {
      assert labels[i] in r;
      var j :| 0 <= j < |r| && r[j] == labels[i];
      assert labels[i] == ConsensusTestLabel(labels, j);
    }
  }

  /** When the labels are exactly 1..K the corrected pairing is the one the
      consensus stage writes. */
  lemma ConsensusTestLabelOfOneToK(labels: seq<int>, n: nat, k: nat)
    requires forall x :: x in labels ==> 0 <= x <= n
    requires forall x :: 1 <= x <= n ==> x in labels
    requires k < n
    ensures k < |Folds(labels)| && ConsensusTestLabel(labels, k) == k + 1
  {
    FoldsOfOneToK(labels, n);
  }

  // ---------------------------------------------------------------------
  // The group-controlled shift (VarCtrlCV)

  /** The example at `i` is one the shift moves: not permitted in the test
      pool, yet the sampler put it in a test fold. */
  predicate Moves(preDef: seq<int>, labels: seq<int>, i: nat)
    requires |preDef| == |labels| && i < |labels|
  {
    preDef[i] == 0 && labels[i] != 0
  }

  /** The labelling after the shift: every non-permitted example is in the
      train bias, every other label is unchanged. */
  function Shifted(preDef: seq<int>, labels: seq<int>): (r: seq<int>)
    requires |preDef| == |labels|
  {
    seq(|labels|, i requires 0 <= i < |labels| => if preDef[i] == 0 then 0 else labels[i])
  }

  /** Number of examples the shift moves out of fold `label`. */
  function MovedFrom(preDef: seq<int>, labels: seq<int>, fold: int): nat
    requires |preDef| == |labels|
  {
    if labels == [] then 0
    else
      var n := |labels| - 1;
      MovedFrom(preDef[..n], labels[..n], fold) + (if Moves(preDef, labels, n) && labels[n] == fold then 1 else 0)
  }

  /** Number of examples the shift moves, over all folds. */
  function NumMoved(preDef: seq<int>, labels: seq<int>): nat
    requires |preDef| == |labels|
  {
    if labels == [] then 0
    else
      var n := |labels| - 1;
      NumMoved(preDef[..n], labels[..n]) + (if Moves(preDef, labels, n) then 1 else 0)
  }

  /** The entries the shift changes are exactly the moved ones. */
  lemma {:induction false} NumMovedIsChanged(preDef: seq<int>, labels: seq<int>)
    requires |preDef| == |labels|
    ensures NumMoved(preDef, labels) == |Picked(ChangedMarks(preDef, labels), 1, false)|
  {
    if labels != [] {
      var n := |labels| - 1;
      NumMovedIsChanged(preDef[..n], labels[..n]);
      assert ChangedMarks(preDef, labels)[..n] == ChangedMarks(preDef[..n], labels[..n]);
    }
  }

  /** 1 where the shift changes the label, 0 elsewhere. */
  function ChangedMarks(preDef: seq<int>, labels: seq<int>): (r: seq<int>)
    requires |preDef| == |labels|
    ensures |r| == |labels|
  {
    var s := Shifted(preDef, labels);
    seq(|labels|, i requires 0 <= i < |labels| => if s[i] != labels[i] then 1 else 0)
  }

  /** The slot `nShifted[label]` reaches in a Python list of `nFolds` slots
      (negative indices count from the end); None is an IndexError. */
  function Slot(v: int, nFolds: nat): (r: Option<nat>)
    ensures r.Some? ==> r.value < nFolds
  {
    if 0 <= v < nFolds then Some(v)
    else if -(nFolds as int) <= v < 0 then Some(v + nFolds)
    else None
  }

  /** The shift as written completes without an IndexError: every moved
      example's label is a valid index into `nShifted`. */
  predicate ShiftFits(preDef: seq<int>, labels: seq<int>, nFolds: nat)
    requires |preDef| == |labels|
  {
    forall i :: 0 <= i < |labels| && Moves(preDef, labels, i) ==> Slot(labels[i], nFolds).Some?
  }

  /** The shift as the source writes it: `nShifted` has one slot per test fold
      and is indexed by the raw fold label. On success `failedAt` is None; at
      the first moved example whose label is not a valid index it stops with
      that position (an IndexError escapes getAcc). */
  method ShiftAsWritten(idxs: array<int>, preDef: seq<int>, nFolds: nat)
    returns (nShifted: seq<int>, failedAt: Option<nat>)
    requires |preDef| == idxs.Length
    modifies idxs
    ensures failedAt.None? <==> ShiftFits(preDef, old(idxs[..]), nFolds)
    ensures failedAt.None? ==> idxs[..] == Shifted(preDef, old(idxs[..]))
    ensures failedAt.None? ==> |nShifted| == nFolds && Sum(nShifted) == NumMoved(preDef, old(idxs[..]))
    ensures failedAt.Some? ==>
              var i := failedAt.value;
              && i < idxs.Length && Moves(preDef, old(idxs[..]), i)
              && Slot(old(idxs[..])[i], nFolds).None?
              && ShiftFits(preDef[..i], old(idxs[..])[..i], nFolds)
  {
    ghost var orig := idxs[..];
    nShifted := seq(nFolds, _ => 0);
    SumZeros(nFolds);
    var i := 0;
    while i < idxs.Length
      invariant 0 <= i <= idxs.Length
      invariant |nShifted| == nFolds
      invariant forall j :: 0 <= j < i ==> idxs[j] == if preDef[j] == 0 then 0 else orig[j]
      invariant forall j :: i <= j < idxs.Length ==> idxs[j] == orig[j]
      invariant Sum(nShifted) == NumMoved(preDef[..i], orig[..i])
      invariant ShiftFits(preDef[..i], orig[..i], nFolds)
    {
      assert preDef[..i + 1][..i] == preDef[..i] && orig[..i + 1][..i] == orig[..i];
      ShiftStep(preDef, orig, i);
      assert idxs[i] == orig[i];
      if preDef[i] == 0 && idxs[i] != 0 {
        var slot := Slot(idxs[i], nFolds);
        if slot.None? {
          failedAt := Some(i);
          assert !ShiftFits(preDef, orig, nFolds);
          return;
        }
        SumIncrement(nShifted, slot.value);
        nShifted := nShifted[slot.value := nShifted[slot.value] + 1];
        idxs[i] := 0;
      }
      i := i + 1;
    }
    assert preDef[..i] == preDef && orig[..i] == orig;
    assert idxs[..] == Shifted(preDef, orig);
    failedAt := None;
  }

  /** Under the sampler's labelling 1..K there are K test folds, so a
      non-permitted example that the sampler put in fold K makes the shift
      as written fail: slot K does not exist. */
  lemma ShiftOverflowsOnLastFold(preDef: seq<int>, labels: seq<int>, k: nat, i: nat)
    requires |preDef| == |labels| && i < |labels|
    requires forall x :: x in labels ==> 0 <= x <= k
    requires forall x :: 1 <= x <= k ==> x in labels
    requires preDef[i] == 0 && labels[i] == k && k > 0
    ensures !ShiftFits(preDef, labels, |Folds(labels)|)
  {
    FoldsOfOneToK(labels, k);
    assert Moves(preDef, labels, i);
  }

  /** A concrete case: two examples, the first permitted in fold 1, the
      second not permitted and sampled into fold 2. */
  lemma ShiftOverflowExample()
    ensures |Folds([1, 2])| == 2
    ensures !ShiftFits([1, 0], [1, 2], 2)
  {
    FoldsOfOneToK([1, 2], 2);
    assert Moves([1, 0], [1, 2], 1);
  }

  /** The shift with one counter slot per fold label 0..nSlots-1 (the
      sampler's labels are 0..nExtFolds, so nSlots = nExtFolds + 1). Moves
      every non-permitted example of a test fold into the train bias and
      counts, per fold, how many were moved. */
  method Shift(idxs: array<int>, preDef: seq<int>, nSlots: nat) returns (nShifted: seq<int>)
    requires |preDef| == idxs.Length
    requires forall i :: 0 <= i < idxs.Length ==> 0 <= idxs[i] < nSlots
    modifies idxs
    ensures idxs[..] == Shifted(preDef, old(idxs[..]))
    ensures |nShifted| == nSlots
    ensures forall f :: 0 <= f < nSlots ==> nShifted[f] == MovedFrom(preDef, old(idxs[..]), f)
    ensures Sum(nShifted) == NumMoved(preDef, old(idxs[..]))
  {
    ghost var orig := idxs[..];
    nShifted := seq(nSlots, _ => 0);
    SumZeros(nSlots);
    var i := 0;
    while i < idxs.Length
      invariant 0 <= i <= idxs.Length
      invariant |nShifted| == nSlots
      invariant forall j :: 0 <= j < i ==> idxs[j] == if preDef[j] == 0 then 0 else orig[j]
      invariant forall j :: i <= j < idxs.Length ==> idxs[j] == orig[j]
      invariant forall f :: 0 <= f < nSlots ==> nShifted[f] == MovedFrom(preDef[..i], orig[..i], f)
      invariant Sum(nShifted) == NumMoved(preDef[..i], orig[..i])
    {
      ShiftStep(preDef, orig, i);
      assert idxs[i] == orig[i];
      if preDef[i] == 0 && idxs[i] != 0 {
        var f := idxs[i];
        SumIncrement(nShifted, f);
        nShifted := nShifted[f := nShifted[f] + 1];
        idxs[i] := 0;
      }
      i := i + 1;
    }
    assert preDef[..i] == preDef && orig[..i] == orig;
    assert idxs[..] == Shifted(preDef, orig);
  }

  /** How the shifted labels and the move counts of a prefix grow by one
      position. */
  lemma ShiftStep(preDef: seq<int>, labels: seq<int>, i: nat)
    requires |preDef| == |labels| && i < |labels|
    ensures Shifted(preDef[..i + 1], labels[..i + 1]) == Shifted(preDef[..i], labels[..i]) + [if preDef[i] == 0 then 0 else labels[i]]
    ensures forall f :: MovedFrom(preDef[..i + 1], labels[..i + 1], f) ==
              MovedFrom(preDef[..i], labels[..i], f) + (if Moves(preDef, labels, i) && labels[i] == f then 1 else 0)
    ensures NumMoved(preDef[..i + 1], labels[..i + 1]) == NumMoved(preDef[..i], labels[..i]) + (if Moves(preDef, labels, i) then 1 else 0)
  {
    assert preDef[..i + 1][..i] == preDef[..i] && labels[..i + 1][..i] == labels[..i];
  }

  /** After the shift no non-permitted example is in a test fold, and the
      permitted ones keep their labels. */
  lemma ShiftedKeepsPermitted(preDef: seq<int>, labels: seq<int>, f: int)
    requires |preDef| == |labels| && f != 0
    ensures forall i :: 0 <= i < |labels| && i in Picked(Shifted(preDef, labels), f, false) ==>
              preDef[i] != 0 && labels[i] == f
  {
  }
}
