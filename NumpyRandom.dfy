/** The numpy generator the Python backend draws from: the process-wide
    `np.random` state that every generator's constructor reseeds with
    `np.random.seed(seed)`, and the local `np.random.default_rng(seed)`.

    Numpy's bit generators and samplers are not modelled. After seeding
    with `s`, call number `k` is decided by the unknown value
    `streams(s)(k)` in [0, 1): `random` returns it, `randint`, `uniform`
    and `choice` map it onto their range, and the non-uniform samplers
    are unknown functions of it (`Variates`) of which only their range is
    used. A vectorised call of size `n` takes `n` consecutive values. */
module NumpyRandom {
  import opened Prelude
  import opened Stream

  /** The non-uniform samplers as functions of their parameters and the
      call's uniform value. */
  datatype Samplers = Samplers(
    poisson: (real, real) -> nat,
    gamma: (real, real, real) -> real,
    beta: (real, real, real) -> real,
    exponential: (real, real) -> real,
    normal: (real, real, real) -> real,
    binomial: (nat, real, real) -> nat)

  /** What numpy documents about their ranges: gamma variates are
      positive, beta variates lie strictly between 0 and 1, exponential
      variates are non-negative, a binomial count never exceeds its
      number of trials. */
  ghost predicate InRange(s: Samplers) {
    (forall a, b, u :: s.gamma(a, b, u) > 0.0)
    && (forall a, b, u :: 0.0 < s.beta(a, b, u) < 1.0)
    && (forall a, u :: s.exponential(a, u) >= 0.0)
    && (forall n, p, u :: s.binomial(n, p, u) <= n)
  }

  type Variates = s: Samplers | InRange(s)
    witness Samplers((l, u) => 0, (a, b, u) => 1.0, (a, b, u) => 0.5, (a, u) => 0.0, (m, d, u) => 0.0, (n, p, u) => 0)

  /** The running sum of the first `k` probabilities. */
  function Cum(p: seq<real>, k: nat): real
    requires k <= |p|
  {
    if k == 0 then 0.0 else Cum(p, k - 1) + p[k - 1]
  }

  /** `cdf.searchsorted(u, side='right')` from position `k`: the first
      index `j >= k` whose cumulative probability exceeds `u`, or `|p|`. */
  function SearchRight(p: seq<real>, u: real, k: nat): (j: nat)
    requires k <= |p|
    ensures k <= j <= |p|
    decreases |p| - k
  {
    if k == |p| then |p|
    else if u < Cum(p, k + 1) then k
    else SearchRight(p, u, k + 1)
  }

  predicate Probabilities(p: seq<real>) {
    |p| > 0 && (forall i | 0 <= i < |p| :: p[i] >= 0.0) && Cum(p, |p|) == 1.0
  }

  /** `choice(a, p=p)` decided by `u`: the index whose slice of the
      cumulative distribution holds `u`. */
  function WeightedIndex(p: seq<real>, u: real): (k: nat)
    requires Probabilities(p) && 0.0 <= u < 1.0
    ensures k < |p|
  {
    SearchRightBelow(p, u, 0);
    SearchRight(p, u, 0)
  }

  /** A value below the total is always placed before the end. */
  lemma {:induction false} SearchRightBelow(p: seq<real>, u: real, k: nat)
    requires k < |p| && u < Cum(p, |p|)
    ensures SearchRight(p, u, k) < |p|
    decreases |p| - k
  {
    if k + 1 < |p| && u >= Cum(p, k + 1) {
      SearchRightBelow(p, u, k + 1);
    }
  }

  lemma {:induction false} SearchRightFinds(p: seq<real>, u: real, k: nat)
    requires k <= |p| && Cum(p, k) <= u
    ensures var j := SearchRight(p, u, k);
      j == |p| || (Cum(p, j) <= u < Cum(p, j + 1))
    decreases |p| - k
  {
    if k < |p| && u >= Cum(p, k + 1) {
      SearchRightFinds(p, u, k + 1);
    }
  }

  /** The index chosen is the one whose interval `[Cum(p, k), Cum(p, k + 1))`
      holds the uniform value, so index `k` is chosen with probability
      `p[k]`. */
  lemma WeightedIndexInterval(p: seq<real>, u: real)
    requires Probabilities(p) && 0.0 <= u < 1.0
    ensures var k := WeightedIndex(p, u);
      Cum(p, k) <= u < Cum(p, k + 1)
  {
    SearchRightFinds(p, u, 0);
  }

  /** A width scaled by a draw. */
  function Scale(a: real, u: real): real {
    a * u
  }

  /** `uniform(lo, hi)` decided by `u`: `lo + (hi - lo) * u`, also when
      `hi < lo`. */
  function UniformFrom(lo: real, hi: real, u: real): real {
    lo + Scale(hi - lo, u)
  }

  lemma ScaleBounds(a: real, u: real)
    requires 0.0 <= u < 1.0
    ensures a >= 0.0 ==> 0.0 <= Scale(a, u) <= a
    ensures a > 0.0 ==> Scale(a, u) < a
    ensures a > 0.0 && u > 0.0 ==> 0.0 < Scale(a, u)
    ensures a < 0.0 ==> a < Scale(a, u) <= 0.0
  {
    if a >= 0.0 {
      MulMonotone(a, 0.0, u);
      MulMonotone(a, u, 1.0);
      if a > 0.0 {
        MulStrict(a, u, 1.0);
        if u > 0.0 {
          MulStrict(a, 0.0, u);
        }
      }
    } else {
      MulMonotone(-a, 0.0, u);
      MulStrict(-a, u, 1.0);
      assert (-a) * u == -(a * u);
    }
  }

  /** `uniform(lo, hi)` with `lo <= hi` lies in `[lo, hi]`: below `hi`
      when the range is not empty, above `lo` when its draw is not
      zero. */
  lemma UniformWithin(lo: real, hi: real, u: real)
    requires lo <= hi && 0.0 <= u < 1.0
    ensures lo <= UniformFrom(lo, hi, u) <= hi
    ensures lo < hi && u > 0.0 ==> lo < UniformFrom(lo, hi, u)
    ensures lo < hi ==> UniformFrom(lo, hi, u) < hi
  {
    ScaleBounds(hi - lo, u);
  }

  /** With `hi < lo`, `uniform(lo, hi)` lies in `(hi, lo]`. */
  lemma UniformReversed(lo: real, hi: real, u: real)
    requires hi < lo && 0.0 <= u < 1.0
    ensures hi < UniformFrom(lo, hi, u) <= lo
  {
    ScaleBounds(hi - lo, u);
  }

  class Generator {
    /** The uniform value behind every call after seeding with a seed. */
    const streams: int -> Draws
    const variates: Variates
    var seed: int
    var calls: nat

    constructor (streams: int -> Draws, variates: Variates, seed: int)
      ensures this.streams == streams && this.variates == variates && this.seed == seed && calls == 0
    {
      this.streams := streams;
      this.variates := variates;
      this.seed := seed;
      calls := 0;
    }

    /** The value that decides the call `k` places ahead. */
    function Ahead(k: nat): (u: real)
      reads this
      ensures 0.0 <= u < 1.0
    {
      streams(seed)(calls + k)
    }

    /** `np.random.seed(s)`: the sequence restarts. */
    method Seed(s: int)
      modifies this
      ensures seed == s && calls == 0
    {
      seed := s;
      calls := 0;
    }

    /** `random()`. */
    method Random() returns (u: real)
      modifies this
      ensures u == old(Ahead(0)) && 0.0 <= u < 1.0
      ensures seed == old(seed) && calls == old(calls) + 1
    {
      u := Ahead(0);
      calls := calls + 1;
    }

    /** `random(n)`. */
    method RandomVector(n: nat) returns (us: seq<real>)
      modifies this
      ensures |us| == n && forall i | 0 <= i < n :: us[i] == old(Ahead(i))
      ensures seed == old(seed) && calls == old(calls) + n
    {
      var draws, start := streams(seed), calls;
      us := seq(n, i requires 0 <= i < n => draws(start + i));
      calls := calls + n;
    }

    /** `randint(lo, hi)`: an integer in `[lo, hi)`; `ValueError` when
        the range is empty. */
    method RandInt(lo: int, hi: int) returns (r: Result<int, string>)
      modifies this
      ensures lo >= hi ==> r == Failure("low >= high") && calls == old(calls)
      ensures lo < hi ==> r == Success(lo + ScaledFloor(old(Ahead(0)), hi - lo)) && calls == old(calls) + 1
      ensures r.Success? ==> lo <= r.value < hi
      ensures seed == old(seed)
    {
      if lo >= hi {
        return Failure("low >= high");
      }
      var u := Random();
      r := Success(lo + ScaledFloor(u, hi - lo));
    }

    /** `uniform(lo, hi)`. */
    method Uniform(lo: real, hi: real) returns (v: real)
      modifies this
      ensures v == UniformFrom(lo, hi, old(Ahead(0)))
      ensures seed == old(seed) && calls == old(calls) + 1
    {
      var u := Random();
      v := UniformFrom(lo, hi, u);
    }

    /** `choice(a)` for a list of `n` items, as the index chosen;
        `ValueError` for an empty list. */
    method Choice(n: nat) returns (r: Result<nat, string>)
      modifies this
      ensures n == 0 ==> r == Failure("a cannot be empty unless no samples are taken") && calls == old(calls)
      ensures n > 0 ==> r == Success(ScaledFloor(old(Ahead(0)), n)) && calls == old(calls) + 1
      ensures r.Success? ==> r.value < n
      ensures seed == old(seed)
    {
      if n == 0 {
        return Failure("a cannot be empty unless no samples are taken");
      }
      var u := Random();
      r := Success(ScaledFloor(u, n));
    }

    /** `choice(a, p=p)`, as the index chosen. */
    method WeightedChoice(p: seq<real>) returns (k: nat)
      requires Probabilities(p)
      modifies this
      ensures k == WeightedIndex(p, old(Ahead(0))) && k < |p|
      ensures seed == old(seed) && calls == old(calls) + 1
    {
      var u := Random();
      k := WeightedIndex(p, u);
    }

    /** `choice(a, n)` for a list of `len` items, as the indices chosen;
        `ValueError` for an empty list unless nothing is drawn. */
    method ChoiceVector(len: nat, n: nat) returns (r: Result<seq<nat>, string>)
      modifies this
      ensures r.Success? <==> len > 0 || n == 0
      ensures r.Failure? ==> r.error == "a cannot be empty unless no samples are taken" && calls == old(calls)
      ensures r.Success? ==> |r.value| == n && calls == old(calls) + n
      ensures r.Success? ==> forall i | 0 <= i < n :: r.value[i] == ScaledFloor(old(Ahead(i)), len)
      ensures seed == old(seed)
    {
      if n == 0 {
        return Success([]);
      }
      if len == 0 {
        return Failure("a cannot be empty unless no samples are taken");
      }
      var us := RandomVector(n);
      r := Success(seq(n, i requires 0 <= i < n => ScaledFloor(us[i], len)));
    }

    /** `choice(a, n)` on a non-empty list: the `n` indices, each from
        the draw of its position in the stream. */
    method ChoiceIndices(len: nat, n: nat) returns (ks: seq<nat>)
      requires len > 0
      modifies this
      ensures seed == old(seed) && calls == old(calls) + n
      ensures |ks| == n && forall i | 0 <= i < n :: ks[i] == ScaledFloor(streams(seed)(old(calls) + i), len)
    {
      var r := ChoiceVector(len, n);
      ks := r.value;
    }

    /** `beta(a, b, n)`: `n` variates strictly between 0 and 1. */
    method BetaVector(a: real, b: real, n: nat) returns (bs: seq<real>)
      modifies this
      ensures |bs| == n && forall i | 0 <= i < n :: bs[i] == variates.beta(a, b, old(Ahead(i))) && 0.0 < bs[i] < 1.0
      ensures seed == old(seed) && calls == old(calls) + n
    {
      var us := RandomVector(n);
      bs := seq(n, i requires 0 <= i < n => variates.beta(a, b, us[i]));
    }

    /** `exponential(scale, n)`: `n` non-negative variates. */
    method ExponentialVector(scale: real, n: nat) returns (xs: seq<real>)
      modifies this
      ensures |xs| == n && forall i | 0 <= i < n :: xs[i] == variates.exponential(scale, streams(seed)(old(calls) + i)) && xs[i] >= 0.0
      ensures seed == old(seed) && calls == old(calls) + n
    {
      var us := RandomVector(n);
      xs := seq(n, i requires 0 <= i < n => variates.exponential(scale, us[i]));
    }

    /** `normal(mean, sd, n)`. */
    method NormalVector(mean: real, sd: real, n: nat) returns (xs: seq<real>)
      modifies this
      ensures |xs| == n && forall i | 0 <= i < n :: xs[i] == variates.normal(mean, sd, streams(seed)(old(calls) + i))
      ensures seed == old(seed) && calls == old(calls) + n
    {
      var us := RandomVector(n);
      xs := seq(n, i requires 0 <= i < n => variates.normal(mean, sd, us[i]));
    }

    /** `binomial(trials, p, n)`: `n` counts of at most `trials`;
        `ValueError` for a probability outside [0, 1], before drawing. */
    method BinomialVector(trials: nat, p: real, n: nat) returns (r: Result<seq<nat>, string>)
      modifies this
      ensures !(0.0 <= p <= 1.0) ==> r == Failure("p < 0, p > 1 or p is NaN") && calls == old(calls)
      ensures 0.0 <= p <= 1.0 ==> r.Success? && |r.value| == n && calls == old(calls) + n
      ensures r.Success? ==> forall i | 0 <= i < n ::
        r.value[i] == variates.binomial(trials, p, streams(seed)(old(calls) + i)) && r.value[i] <= trials
      ensures seed == old(seed)
    {
      if !(0.0 <= p <= 1.0) {
        return Failure("p < 0, p > 1 or p is NaN");
      }
      var us := RandomVector(n);
      r := Success(seq(n, i requires 0 <= i < n => variates.binomial(trials, p, us[i])));
    }

    /** `poisson(lam)`; `ValueError` for a negative rate. */
    method Poisson(lam: real) returns (r: Result<nat, string>)
      modifies this
      ensures lam < 0.0 ==> r == Failure("lam < 0") && calls == old(calls)
      ensures lam >= 0.0 ==> r == Success(variates.poisson(lam, old(Ahead(0)))) && calls == old(calls) + 1
      ensures seed == old(seed)
    {
      if lam < 0.0 {
        return Failure("lam < 0");
      }
      var u := Random();
      r := Success(variates.poisson(lam, u));
    }

    /** `gamma(shape, scale)`: a positive variate. */
    method Gamma(shape: real, scale: real) returns (g: real)
      modifies this
      ensures g == variates.gamma(shape, scale, old(Ahead(0))) && g > 0.0
      ensures seed == old(seed) && calls == old(calls) + 1
    {
      var u := Random();
      g := variates.gamma(shape, scale, u);
    }
  }
}
