/** Shared vocabulary of the unbiased-accuracy estimator: wrappers, the
    abstract dataset, and small sums used by the bookkeeping. */
module Common {

  datatype Option<T> = None | Some(value: T)

  datatype Result<T, E> = Ok(value: T) | Err(error: E)

  /** The value of an attribute of one example. A textual value carries the
      reading that the number parser gives of its text (None when the text is
      not a number); a continuous value is a number. */
  datatype Value = Str(text: string, reading: Option<real>) | Num(x: real)

  /** One example: the index of its class value (meaningful for a discrete
      response) and its attribute values by attribute name. */
  datatype Example = Example(cls: nat, attrs: map<string, Value>)

  datatype ClassVar = Discrete(values: seq<string>) | Continuous

  /** A dataset: its attribute names, its class variable (if any) and its
      examples in order. */
  datatype Dataset = Dataset(domain: set<string>, classVar: Option<ClassVar>, examples: seq<Example>)

  datatype ResponseType = Classification | Regression

  /** Every example has a value for every attribute of the domain, and a
      discrete class index is a valid index into the class values. */
  predicate WellFormed(d: Dataset)
  {
    && (forall e :: e in d.examples ==> d.domain <= e.attrs.Keys)
    && (d.classVar.Some? && d.classVar.value.Discrete? ==>
          forall e :: e in d.examples ==> e.cls < |d.classVar.value.values|)
  }

  /** Number of class values of a dataset (0 when the response is not discrete). */
  function NumClasses(d: Dataset): nat
  {
    if d.classVar.Some? && d.classVar.value.Discrete? then |d.classVar.value.values| else 0
  }

  /** Every class index in `s` is below `n`. */
  predicate ClassesBelow(s: seq<Example>, n: nat)
  {
    forall e :: e in s ==> e.cls < n
  }

  function Sum(s: seq<int>): int
  {
    if s == [] then 0 else Sum(s[..|s| - 1]) + s[|s| - 1]
  }

  function SumReal(s: seq<real>): real
  {
    if s == [] then 0.0 else SumReal(s[..|s| - 1]) + s[|s| - 1]
  }

  /** Adding one to one slot adds one to the total. */
  lemma {:induction false} SumIncrement(s: seq<int>, k: nat)
    requires k < |s|
    ensures Sum(s[k := s[k] + 1]) == Sum(s) + 1
  {
    var t := s[k := s[k] + 1];
    if k == |s| - 1 {
      assert t[..|t| - 1] == s[..|s| - 1];
    } else {
      assert t[..|t| - 1] == s[..|s| - 1][k := s[k] + 1];
      SumIncrement(s[..|s| - 1], k);
    }
  }

  lemma {:induction false} SumZeros(n: nat)
    ensures Sum(seq(n, _ => 0)) == 0
  {
    if n > 0 {
      assert seq(n, _ => 0)[..n - 1] == seq(n - 1, _ => 0);
      SumZeros(n - 1);
    }
  }

  lemma SumAppend(s: seq<int>, x: int)
    ensures Sum(s + [x]) == Sum(s) + x
  {
    assert (s + [x])[..|s|] == s;
  }

  /** Python's `//` (and Python 2's `/` on integers): rounds toward minus
      infinity, whatever the signs. */
  function FloorDiv(a: int, b: int): (q: int)
    requires b != 0
    ensures b > 0 ==> q * b <= a < q * b + b
    ensures b < 0 ==> q * b >= a > q * b + b
  {
    if b > 0 then a / b else (-a) / (-b)
  }
}
