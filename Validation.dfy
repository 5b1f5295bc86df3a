/** The argument validators and the constructor of the backend's
    `BaseGenerator` (backend/app/base_generator.py).

    A validator either returns or raises; the model returns an `Outcome`.
    Python values are the few kinds the validators distinguish: `bool`
    is a subclass of `int`, and a `float` may be infinite or NaN, for
    which every ordered comparison is false. */
module Validation {
  import opened Prelude
  import opened NumpyRandom
  import opened Stream

  /** An IEEE double, with its finite values as reals. */
  datatype Float = Finite(x: real) | Infinity(negative: bool) | NaN

  datatype PyValue =
    | PyNone
    | PyBool(b: bool)
    | PyInt(i: int)
    | PyFloat(f: Float)
    | PyStr(s: string)
    | PyTuple(items: seq<PyValue>)

  datatype Reason = NotPositiveInt | NotProbability | NotPositive | NotPair | MinAboveMax

  datatype PyError = ValueError(name: string, reason: Reason) | TypeError

  datatype Outcome = Accepted | Raised(error: PyError)

  /** `isinstance(v, int)`: booleans are integers. */
  predicate IsInt(v: PyValue) {
    v.PyInt? || v.PyBool?
  }

  /** `isinstance(v, (int, float))`. */
  predicate IsNumber(v: PyValue) {
    IsInt(v) || v.PyFloat?
  }

  function IntValue(v: PyValue): int
    requires IsInt(v)
  {
    if v.PyBool? then (if v.b then 1 else 0) else v.i
  }

  /** A number as the double Python compares it as (integers compare
      exactly, so they become finite values). */
  function NumberValue(v: PyValue): Float
    requires IsNumber(v)
  {
    if v.PyFloat? then v.f else Finite(IntValue(v) as real)
  }

  /** `a < b` on doubles: false whenever a NaN is involved. */
  predicate Less(a: Float, b: Float) {
    match (a, b)
    case (Finite(x), Finite(y)) => x < y
    case (Infinity(true), Finite(_)) => true
    case (Infinity(true), Infinity(false)) => true
    case (Finite(_), Infinity(false)) => true
    case _ => false
  }

  /** `a <= b` on doubles. */
  predicate LessOrEqual(a: Float, b: Float) {
    Less(a, b) || (a == b && !a.NaN?)
  }

  /** `_validate_positive_int`: rejects what is not an `int` or is not
      above zero. */
  function ValidatePositiveInt(v: PyValue, name: string): Outcome {
    if !IsInt(v) || IntValue(v) <= 0 then Raised(ValueError(name, NotPositiveInt))
    else Accepted
  }

  /** `_validate_probability`: rejects what is not a number or fails
      `0 <= v <= 1`. */
  function ValidateProbability(v: PyValue, name: string): Outcome {
    if !IsNumber(v) || !(LessOrEqual(Finite(0.0), NumberValue(v)) && LessOrEqual(NumberValue(v), Finite(1.0)))
    then Raised(ValueError(name, NotProbability))
    else Accepted
  }

  /** `_validate_positive_float`: rejects what is not a number or
      satisfies `v <= 0`. */
  function ValidatePositiveFloat(v: PyValue, name: string): Outcome {
    if !IsNumber(v) || LessOrEqual(NumberValue(v), Finite(0.0)) then Raised(ValueError(name, NotPositive))
    else Accepted
  }

  /** `a > b` for two range ends: numbers with numbers, strings with
      strings (code point by code point) and tuples with tuples (item by
      item); anything else raises `TypeError`. */
  function Greater(a: PyValue, b: PyValue): (r: Result<bool, PyError>)
    decreases a, 1, 0
    ensures !(a.PyTuple? && b.PyTuple?) ==> (r.Failure? <==> !((IsNumber(a) && IsNumber(b)) || (a.PyStr? && b.PyStr?)))
    ensures a.PyTuple? && b.PyTuple? && (|a.items| == 0 || |b.items| == 0) ==> r == Success(|a.items| > |b.items|)
  {
    if IsNumber(a) && IsNumber(b) then Success(Less(NumberValue(b), NumberValue(a)))
    else if a.PyStr? && b.PyStr? then Success(StringLess(b.s, a.s))
    else if a.PyTuple? && b.PyTuple? then TupleGreaterFrom(a, b, 0)
    else Failure(TypeError)
  }

  /** Tuple comparison from item `i` on: the first pair of items that are
      not equal decides with `>`; when one tuple runs out, the longer one
      is the greater. */
  function TupleGreaterFrom(a: PyValue, b: PyValue, i: nat): Result<bool, PyError>
    requires a.PyTuple? && b.PyTuple? && i <= |a.items| && i <= |b.items|
    decreases a, 0, |a.items| - i
  {
    if i == |a.items| || i == |b.items| then Success(|a.items| > |b.items|)
    else if Equal(a.items[i], b.items[i]) then TupleGreaterFrom(a, b, i + 1)
    else Greater(a.items[i], b.items[i])
  }

  /** `a == b`, which never raises: numbers by value (NaN equal to
      nothing), strings by content, tuples item by item, `None` to
      itself, values of different kinds never equal. */
  predicate Equal(a: PyValue, b: PyValue)
    decreases a
  {
    if IsNumber(a) && IsNumber(b) then NumberValue(a) == NumberValue(b) && !NumberValue(a).NaN?
    else if a.PyStr? && b.PyStr? then a.s == b.s
    else if a.PyTuple? && b.PyTuple? then
      |a.items| == |b.items| && forall i :: 0 <= i < |a.items| ==> Equal(a.items[i], b.items[i])
    else a.PyNone? && b.PyNone?
  }

  /** A value Python can order against itself: a number other than NaN,
      a string, or a tuple of such values. */
  predicate Orderable(v: PyValue) {
    match v
    case PyTuple(items) => forall i :: 0 <= i < |items| ==> Orderable(items[i])
    case _ => v.PyStr? || (IsNumber(v) && !NumberValue(v).NaN?)
  }

  lemma {:induction false} EqualReflexive(v: PyValue)
    requires Orderable(v)
    ensures Equal(v, v)
  {
    if v.PyTuple? {
      forall i | 0 <= i < |v.items|
        ensures Equal(v.items[i], v.items[i])
      {
        EqualReflexive(v.items[i]);
      }
    }
  }

  lemma {:induction false} TupleNotGreaterThanItself(v: PyValue, i: nat)
    requires v.PyTuple? && Orderable(v) && i <= |v.items|
    ensures TupleGreaterFrom(v, v, i) == Success(false)
    decreases |v.items| - i
  {
    if i < |v.items| {
      EqualReflexive(v.items[i]);
      TupleNotGreaterThanItself(v, i + 1);
    }
  }

  /** No orderable value is greater than itself, so a range whose two
      ends are the same number, string or tuple passes. */
  lemma EqualEndsAccepted(v: PyValue, name: string)
    requires Orderable(v)
    ensures Greater(v, v) == Success(false)
    ensures ValidateRange(PyTuple([v, v]), name) == Accepted
  {
    if v.PyTuple? {
      TupleNotGreaterThanItself(v, 0);
    } else if v.PyStr? {
      StringLessIrreflexive(v.s);
    }
  }

  /** Tuples are compared item by item: a pair of one-item tuples of
      integers passes exactly when its first item is not above the
      second, as `((1,), (2,))` does. */
  lemma NestedRangeAccepts(lo: int, hi: int, name: string)
    ensures ValidateRange(PyTuple([PyTuple([PyInt(lo)]), PyTuple([PyInt(hi)])]), name) == Accepted <==> lo <= hi
  {
    var a, b := PyTuple([PyInt(lo)]), PyTuple([PyInt(hi)]);
    assert TupleGreaterFrom(a, b, 1) == Success(false);
    assert Equal(PyInt(lo), PyInt(hi)) <==> lo == hi;
    assert Greater(PyInt(lo), PyInt(hi)) == Success(hi < lo);
    assert Greater(a, b) == TupleGreaterFrom(a, b, 0);
  }

  /** A tuple end against a number or a string raises `TypeError`. */
  lemma MixedRangeRaises(items: seq<PyValue>, x: int, name: string)
    ensures ValidateRange(PyTuple([PyTuple(items), PyInt(x)]), name) == Raised(TypeError)
  {
  }

  /** Python's string order: by code point, a proper prefix first. */
  predicate StringLess(s: string, t: string) {
    if |s| == 0 then |t| > 0
    else if |t| == 0 then false
    else if s[0] != t[0] then s[0] < t[0]
    else StringLess(s[1..], t[1..])
  }

  /** `_validate_range`: the value must be a 2-tuple whose first item is
      not greater than its second. */
  function ValidateRange(v: PyValue, name: string): Outcome {
    if !v.PyTuple? || |v.items| != 2 then Raised(ValueError(name, NotPair))
    else match Greater(v.items[0], v.items[1])
      case Failure(e) => Raised(e)
      case Success(greater) => if greater then Raised(ValueError(name, MinAboveMax)) else Accepted
  }

  /** Exactly the positive integers pass, `True` among them. */
  lemma PositiveIntAccepts(v: PyValue, name: string)
    ensures ValidatePositiveInt(v, name) == Accepted <==> (v.PyInt? && v.i > 0) || v == PyBool(true)
    ensures ValidatePositiveInt(v, name) != Accepted ==> ValidatePositiveInt(v, name) == Raised(ValueError(name, NotPositiveInt))
  {
  }

  /** Exactly the numbers in [0, 1], both ends included, pass: no
      infinity and no NaN. */
  lemma ProbabilityAccepts(v: PyValue, name: string)
    ensures ValidateProbability(v, name) == Accepted
      <==> IsNumber(v) && NumberValue(v).Finite? && 0.0 <= NumberValue(v).x <= 1.0
  {
  }

  /** Zero, negatives, negative infinity and non-numbers are rejected;
      since `NaN <= 0` is false, NaN passes along with positive infinity. */
  lemma PositiveFloatAccepts(v: PyValue, name: string)
    ensures ValidatePositiveFloat(v, name) == Accepted
      <==> IsNumber(v) && match NumberValue(v)
        case Finite(x) => x > 0.0
        case Infinity(negative) => !negative
        case NaN => true
  {
  }

  /** For a pair of integers the range passes exactly when `lo <= hi`. */
  lemma IntRangeAccepts(lo: int, hi: int, name: string)
    ensures ValidateRange(PyTuple([PyInt(lo), PyInt(hi)]), name) == Accepted <==> lo <= hi
    ensures lo > hi ==> ValidateRange(PyTuple([PyInt(lo), PyInt(hi)]), name) == Raised(ValueError(name, MinAboveMax))
  {
  }

  /** Anything but a 2-tuple is rejected before its items are compared. */
  lemma RangeNeedsPair(v: PyValue, name: string)
    requires !v.PyTuple? || |v.items| != 2
    ensures ValidateRange(v, name) == Raised(ValueError(name, NotPair))
  {
  }

  lemma {:induction false} StringLessIrreflexive(s: string)
    ensures !StringLess(s, s)
  {
    if |s| > 0 {
      StringLessIrreflexive(s[1..]);
    }
  }

  lemma {:induction false} StringLessAsymmetric(s: string, t: string)
    requires StringLess(s, t)
    ensures !StringLess(t, s)
  {
    if |s| > 0 && |t| > 0 && s[0] == t[0] {
      StringLessAsymmetric(s[1..], t[1..]);
    }
  }

  /** A range of two equal strings always passes, and of two strings
      one order or the other passes. */
  lemma StringRangeOrders(a: string, b: string, name: string)
    ensures ValidateRange(PyTuple([PyStr(a), PyStr(a)]), name) == Accepted
    ensures ValidateRange(PyTuple([PyStr(a), PyStr(b)]), name) == Accepted
      || ValidateRange(PyTuple([PyStr(b), PyStr(a)]), name) == Accepted
  {
    StringLessIrreflexive(a);
    if StringLess(b, a) {
      StringLessAsymmetric(b, a);
    }
  }

  /** The base of every backend generator: it keeps the seed it was given
      and owns a local generator seeded with it. */
  class BaseGenerator {
    const seed: int
    const rng: Generator

    constructor (seed: int, streams: int -> Draws, variates: Variates)
      ensures this.seed == seed && fresh(rng)
      ensures rng.seed == seed && rng.calls == 0 && rng.streams == streams
    {
      this.seed := seed;
      rng := new Generator(streams, variates, seed);
    }
  }
}
