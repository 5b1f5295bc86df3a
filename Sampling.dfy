/** The samplers of frontend/src/generators/utils.ts and its constant
    lists.

    Each sampler exists twice: as a function of the draw values it
    consumes (so that the generators can be specified for every sequence
    of draws), and as a method that pulls those draws from a
    `Mulberry32` stream and is proved to return that function's value. */
module Sampling {
  import opened Prelude
  import opened Stream
  import opened Text

  // ---------------------------------------------------------------
  // Samplers as functions of their draws
  // ---------------------------------------------------------------

  /** `randomInt(rng, min, max)` for the draw `u`:
      `floor(u * (max - min + 1)) + min`. */
  function IntFromDraw(u: real, lo: int, hi: int): (r: int)
    requires 0.0 <= u < 1.0
    ensures lo <= hi ==> lo <= r <= hi
  {
    if lo <= hi then ScaledFloor(u, hi - lo + 1) + lo
    else (u * (hi - lo + 1) as real).Floor + lo
  }

  /** The index `randomPick` reads: `floor(u * |arr|)`. */
  function PickIndex(u: real, n: int): (k: int)
    requires 0.0 <= u < 1.0 && n > 0
    ensures 0 <= k < n
  {
    ScaledFloor(u, n)
  }

  /** `randomPick(rng, arr)` for the draw `u`. */
  function PickFromDraw<T>(u: real, arr: seq<T>): (r: T)
    requires 0.0 <= u < 1.0 && |arr| > 0
    ensures r in arr
  {
    arr[PickIndex(u, |arr|)]
  }

  /** Month and day of `randomDate`: `floor(u * 12) + 1` and
      `floor(u * 28) + 1`. */
  function MonthFromDraw(u: real): (m: int)
    requires 0.0 <= u < 1.0
    ensures 1 <= m <= 12
  {
    ScaledFloor(u, 12) + 1
  }

  function DayFromDraw(u: real): (d: int)
    requires 0.0 <= u < 1.0
    ensures 1 <= d <= 28
  {
    ScaledFloor(u, 28) + 1
  }

  /** `${year}-${padNumber(month, 2)}-${padNumber(day, 2)}`. */
  function DateText(year: int, month: int, day: int): string {
    IntToString(year) + "-" + PadNumber(month, 2) + "-" + PadNumber(day, 2)
  }

  /** `randomDate(rng, year)` for its two draws. */
  function DateFromDraws(year: int, u1: real, u2: real): string
    requires 0.0 <= u1 < 1.0 && 0.0 <= u2 < 1.0
  {
    DateText(year, MonthFromDraw(u1), DayFromDraw(u2))
  }

  /** `randomDate(rng, year)` for the two draws from `q` on, and the
      position after them. */
  function DateAt(ds: Draws, q: nat, year: int): (string, nat) {
    (DateFromDraws(year, ds(q), ds(q + 1)), q + 2)
  }

  /** `rng() < 0.51 ? 'F' : 'M'`. */
  function SexFromDraw(u: real): string {
    if u < 0.51 then "F" else "M"
  }

  /** `rng() < 0.5 ? 'M' : 'F'`, the even split of the study generators. */
  function EvenSexFromDraw(u: real): string {
    if u < 0.5 then "M" else "F"
  }

  lemma NatToStringTwoDigits(n: nat)
    requires n < 100
    ensures |NatToString(n)| <= 2
  {
  }

  /** A date text for a month 1..12 and day 1..28 is YYYY-MM-DD: the year,
      then two-digit month and day that read back as the month and day. */
  lemma DateTextFields(year: int, month: int, day: int)
    requires 1 <= month <= 12 && 1 <= day <= 28
    ensures var t := DateText(year, month, day);
      var y := IntToString(year);
      |t| == |y| + 6 && t[..|y| + 1] == y + "-" && t[|y| + 3] == '-'
      && AllDigits(t[|y| + 1..|y| + 3]) && ParseNat(t[|y| + 1..|y| + 3]) == month
      && AllDigits(t[|y| + 4..]) && ParseNat(t[|y| + 4..]) == day
  {
    var y := IntToString(year);
    NatToStringTwoDigits(month);
    NatToStringTwoDigits(day);
    ParsePadNumber(month, 2);
    ParsePadNumber(day, 2);
    DateSlices(y, PadNumber(month, 2), PadNumber(day, 2));
  }

  /** `t` is a `YYYY-MM-DD` date of `year`: the year's digits, a dash,
      a month 1..12 and a day 1..28 in two digits each. */
  predicate DateInYear(t: string, year: int) {
    var y := IntToString(year);
    |t| == |y| + 6 && t[..|y| + 1] == y + "-" && t[|y| + 3] == '-'
    && AllDigits(t[|y| + 1..|y| + 3]) && 1 <= ParseNat(t[|y| + 1..|y| + 3]) <= 12
    && AllDigits(t[|y| + 4..]) && 1 <= ParseNat(t[|y| + 4..]) <= 28
  }

  /** `randomDate(rng, year)` always gives a date of that year. */
  lemma DrawnDateInYear(year: int, u1: real, u2: real)
    requires 0.0 <= u1 < 1.0 && 0.0 <= u2 < 1.0
    ensures DateInYear(DateFromDraws(year, u1, u2), year)
  {
    DateTextFields(year, MonthFromDraw(u1), DayFromDraw(u2));
  }

  /** Where the fields sit in `y-mm-dd` when `mm` and `dd` have two
      characters each. */
  lemma DateSlices(y: string, mm: string, dd: string)
    requires |mm| == 2 && |dd| == 2
    ensures var t := y + "-" + mm + "-" + dd;
      |t| == |y| + 6 && t[..|y| + 1] == y + "-" && t[|y| + 3] == '-'
      && t[|y| + 1..|y| + 3] == mm && t[|y| + 4..] == dd
  {
    var t := y + "-" + mm + "-" + dd;
    assert t == (y + "-") + mm + ("-" + dd);
  }

  /** `randomNormal(rng, mean, std)` (Box-Muller) for its two draws. */
  function NormalFromDraws(m: MathLib, u1: real, u2: real, mean: real, std: real): real {
    m.sqrt(-2.0 * m.ln(u1)) * m.cos(2.0 * PI * u2) * std + mean
  }

  /** A time that may be infinite, as a JavaScript division by zero
      makes it. */
  datatype Time = Finite(t: real) | Infinite

  /** `randomExponential(rng, lambda)` for its draw: `-ln(u) / lambda`.
      With a zero rate JavaScript divides the positive `-ln(u)` by zero
      and the time is `Infinity`. */
  function ExponentialFromDraw(m: MathLib, u: real, lambda: real): Time {
    if lambda == 0.0 then Infinite else Finite(-m.ln(u) / lambda)
  }

  // ---------------------------------------------------------------
  // Knuth's Poisson sampler
  // ---------------------------------------------------------------

  /** (1 - 2^-32)^k: no product of `k` draws exceeds it. */
  function Decay(k: nat): (r: real)
    ensures 0.0 < r <= 1.0
  {
    if k == 0 then 1.0 else Decay(k - 1) * 0.99999999976716935634613037109375
  }

  /** An upper bound on the number of factors the product can take
      while staying above `L`. */
  function PoissonBound(L: real): nat
    requires L > 0.0
  {
    ((1.0 / L) / Epsilon).Floor as nat + 1
  }

  /** Multiplying by one more draw stays under the next power. */
  lemma DecayStep(k: nat, p: real, u: real)
    requires 0.0 <= p <= Decay(k) && 0.0 <= u <= 1.0 - Epsilon
    ensures 0.0 <= p * u <= Decay(k + 1)
  {
    var c := 1.0 - Epsilon;
    var d := Decay(k);
    MulMonotone(p, 0.0, u);
    MulMonotone(p, u, c);
    MulMonotone(c, p, d);
    calc {
      p * u;
    <= p * c;
    == c * p;
    <= c * d;
    == d * c;
    == Decay(k + 1);
    }
  }

  /** 1 + k * 2^-32. */
  function Growth(k: nat): real {
    1.0 + k as real * Epsilon
  }

  /** Bernoulli's inequality: (1 - e)^k * (1 + k e) <= 1. */
  lemma {:induction false} DecayBernoulli(k: nat)
    ensures Decay(k) * Growth(k) <= 1.0
  {
    if k > 0 {
      DecayBernoulli(k - 1);
      var e := Epsilon;
      var d := Decay(k - 1);
      var a := Growth(k - 1);
      var b := Growth(k);
      assert (1.0 - e) * b == a - k as real * e * e;
      MulMonotone(d, (1.0 - e) * b, a);
      assert Decay(k) * b == d * ((1.0 - e) * b);
    }
  }

  /** While the product is above `L`, fewer than `PoissonBound(L)`
      factors have been taken. */
  lemma DecayBelowLimit(k: nat, p: real, L: real)
    requires L > 0.0 && p <= Decay(k) && p > L
    ensures k < PoissonBound(L)
  {
    LimitTimesGrowth(k, L);
    var x := k as real * Epsilon;
    BelowReciprocal(x, L);
    BelowQuotient(k as real, Epsilon, 1.0 / L);
  }

  lemma LimitTimesGrowth(k: nat, L: real)
    requires 0.0 < L < Decay(k)
    ensures L * (1.0 + k as real * Epsilon) < 1.0
  {
    DecayBernoulli(k);
    var d := Decay(k);
    var a := Growth(k);
    MulStrict(a, L, d);
    var la := L * a;
    var al := a * L;
    var ad := a * d;
    var da := d * a;
    assert la == al;
    assert al < ad;
    assert ad == da;
    assert da <= 1.0;
  }

  lemma BelowReciprocal(x: real, L: real)
    requires L > 0.0 && x >= 0.0 && L * (1.0 + x) < 1.0
    ensures x < 1.0 / L
  {
    var lx := L * x;
    var xl := x * L;
    assert L * (1.0 + x) == L + lx;
    assert lx == xl;
    assert xl < 1.0;
    BelowQuotient(x, L, 1.0);
  }

  lemma BelowQuotient(x: real, y: real, z: real)
    requires y > 0.0 && x * y < z
    ensures x < z / y
  {
  }

  /** The product of `n` draws from `pos`. */
  function Product(ds: Draws, pos: nat, n: nat): real
    decreases n
  {
    if n == 0 then 1.0 else Product(ds, pos, n - 1) * ds(pos + n - 1)
  }

  /** No product of `n` draws exceeds (1 - 2^-32)^n. */
  lemma {:induction false} ProductDecays(ds: Draws, pos: nat, n: nat)
    ensures 0.0 <= Product(ds, pos, n) <= Decay(n)
  {
    if n > 0 {
      ProductDecays(ds, pos, n - 1);
      DecayStep(n - 1, Product(ds, pos, n - 1), ds(pos + n - 1));
    }
  }

  /** The do-while loop of `randomPoisson` reading draws from `pos`, in
      the state after `k` draws whose running product is `p`: the sample
      and the position after the last draw read. */
  function PoissonLoop(ds: Draws, pos: nat, L: real, k: nat, p: real): (r: (int, nat))
    requires L > 0.0 && 0.0 <= p <= Decay(k)
    ensures r.0 >= k - 1 && r.1 == pos + r.0 + 1
    decreases PoissonBound(L) - k
  {
    if p > L then
      DecayBelowLimit(k, p, L);
      DecayStep(k, p, ds(pos + k));
      PoissonLoop(ds, pos, L, k + 1, p * ds(pos + k))
    else (k - 1, pos + k)
  }

  /** `randomPoisson(rng, lambda)` reading from position `pos`: the first
      draw is always taken, so the sample is `k - 1 >= 0` after `k >= 1`
      draws. */
  function PoissonFromDraws(m: MathLib, ds: Draws, pos: nat, lambda: real): (r: (int, nat))
    ensures r.0 >= 0 && r.1 == pos + r.0 + 1
  {
    PoissonBelow(ds, pos, m.exp(-lambda))
  }

  /** The loop with its limit `L = exp(-lambda)` already computed. */
  function PoissonBelow(ds: Draws, pos: nat, L: real): (r: (int, nat))
    requires L > 0.0
    ensures r.0 >= 0 && r.1 == pos + r.0 + 1
  {
    FirstDrawDecays(ds, pos);
    PoissonLoop(ds, pos, L, 1, ds(pos))
  }

  lemma FirstDrawDecays(ds: Draws, pos: nat)
    ensures 0.0 <= ds(pos) <= Decay(1) && ds(pos) == Product(ds, pos, 1)
  {
  }

  /** The sample is the number of draws whose running product stays above
      the limit: the product of the first `r` draws (and of every shorter
      prefix) is above `L`, and one more draw takes it to `L` or below. */
  lemma PoissonStopsAtLimit(m: MathLib, ds: Draws, pos: nat, lambda: real)
    ensures var L := m.exp(-lambda);
      var r := PoissonFromDraws(m, ds, pos, lambda).0;
      Product(ds, pos, r + 1) <= L
      && forall j | 1 <= j <= r :: Product(ds, pos, j) > L
  {
    FirstDrawDecays(ds, pos);
    assert AboveUpTo(ds, pos, m.exp(-lambda), 0);
    LoopStopsAtLimit(ds, pos, m.exp(-lambda), 1);
  }

  /** Every running product of 1 to `n` draws is above `L`. */
  ghost predicate AboveUpTo(ds: Draws, pos: nat, L: real, n: nat) {
    forall j | 1 <= j <= n :: Product(ds, pos, j) > L
  }

  lemma {:induction false} LoopStopsAtLimit(ds: Draws, pos: nat, L: real, k: nat)
    requires L > 0.0 && k >= 1
    requires 0.0 <= Product(ds, pos, k) <= Decay(k)
    requires AboveUpTo(ds, pos, L, k - 1)
    ensures var r := PoissonLoop(ds, pos, L, k, Product(ds, pos, k)).0;
      Product(ds, pos, r + 1) <= L && AboveUpTo(ds, pos, L, r)
    decreases PoissonBound(L) - k
  {
    var p := Product(ds, pos, k);
    if p > L {
      DecayBelowLimit(k, p, L);
      PoissonStep(ds, pos, L, k, p);
      ProductNext(ds, pos, k, p);
      assert AboveUpTo(ds, pos, L, k);
      LoopStopsAtLimit(ds, pos, L, k + 1);
    }
  }

  lemma ProductNext(ds: Draws, pos: nat, k: nat, p: real)
    requires p == Product(ds, pos, k)
    ensures Product(ds, pos, k + 1) == p * ds(pos + k)
  {
  }

  // ---------------------------------------------------------------
  // Samplers as methods on the stream
  // ---------------------------------------------------------------

  /** `randomInt(rng, min, max)`: one draw. */
  method RandomInt(rng: Mulberry32, lo: int, hi: int) returns (r: int)
    requires rng.Valid()
    modifies rng
    ensures rng.Valid() && rng.draws == old(rng.draws) + 1
    ensures r == IntFromDraw(rng.values(old(rng.draws)), lo, hi)
  {
    var u := rng.Next();
    r := IntFromDraw(u, lo, hi);
  }

  /** `randomPick(rng, arr)`: one draw. */
  method RandomPick<T>(rng: Mulberry32, arr: seq<T>) returns (r: T)
    requires rng.Valid() && |arr| > 0
    modifies rng
    ensures rng.Valid() && rng.draws == old(rng.draws) + 1
    ensures r == PickFromDraw(rng.values(old(rng.draws)), arr)
  {
    var u := rng.Next();
    r := PickFromDraw(u, arr);
  }

  /** `randomDate(rng, year)`: two draws. */
  method RandomDate(rng: Mulberry32, year: int) returns (r: string)
    requires rng.Valid()
    modifies rng
    ensures rng.Valid()
    ensures (r, rng.draws) == DateAt(rng.values, old(rng.draws), year)
  {
    var u1 := rng.Next();
    var u2 := rng.Next();
    r := DateFromDraws(year, u1, u2);
  }

  /** `randomNormal(rng, mean, std)`: two draws. */
  method RandomNormal(rng: Mulberry32, m: MathLib, mean: real, std: real) returns (r: real)
    requires rng.Valid()
    modifies rng
    ensures rng.Valid() && rng.draws == old(rng.draws) + 2
    ensures r == NormalFromDraws(m, rng.values(old(rng.draws)),
                                 rng.values(old(rng.draws) + 1), mean, std)
  {
    var u1 := rng.Next();
    var u2 := rng.Next();
    r := NormalFromDraws(m, u1, u2, mean, std);
  }

  /** `randomExponential(rng, lambda)`: one draw. */
  method RandomExponential(rng: Mulberry32, m: MathLib, lambda: real) returns (r: Time)
    requires rng.Valid()
    modifies rng
    ensures rng.Valid() && rng.draws == old(rng.draws) + 1
    ensures r == ExponentialFromDraw(m, rng.values(old(rng.draws)), lambda)
  {
    var u := rng.Next();
    r := ExponentialFromDraw(m, u, lambda);
  }

  /** `randomPoisson(rng, lambda)`: multiply draws until the product is
      at most `exp(-lambda)`; the sample is one less than the number of
      draws taken. */
  method RandomPoisson(rng: Mulberry32, m: MathLib, lambda: real) returns (r: int)
    requires rng.Valid()
    modifies rng
    ensures rng.Valid()
    ensures var sample := PoissonFromDraws(m, rng.values, old(rng.draws), lambda);
      r == sample.0 && rng.draws == sample.1
  {
    r := PoissonSample(rng, m.exp(-lambda));
  }

  /** The loop of `randomPoisson` once `L = exp(-lambda)` is computed:
      the do-while body runs once, then again while the product stays
      above `L`. */
  method PoissonSample(rng: Mulberry32, L: real) returns (r: int)
    requires rng.Valid() && L > 0.0
    modifies rng
    ensures rng.Valid()
    ensures var sample := PoissonBelow(rng.values, old(rng.draws), L);
      r == sample.0 && rng.draws == sample.1
  {
    ghost var start := rng.draws;
    var k, p := PoissonDraw(rng, start, L, 0, 1.0);
    ghost var sample := PoissonLoop(rng.values, start, L, k, p);
    while p > L
      invariant rng.Valid() && rng.draws == start + k && k >= 1
      invariant 0.0 <= p <= Decay(k)
      invariant sample == PoissonLoop(rng.values, start, L, k, p)
      decreases PoissonBound(L) - k
    {
      DecayBelowLimit(k, p, L);
      k, p := PoissonDraw(rng, start, L, k, p);
    }
    PoissonDone(rng.values, start, L, k, p);
    r := k - 1;
  }

  /** One pass of the do-while body, `k++; p *= rng()`: the product
      takes one more draw, and while it was above the limit the sample
      does not change. */
  method PoissonDraw(rng: Mulberry32, ghost start: nat, L: real, k: nat, p: real)
    returns (k': nat, p': real)
    requires rng.Valid() && rng.draws == start + k
    requires L > 0.0 && 0.0 <= p <= Decay(k)
    modifies rng
    ensures rng.Valid() && rng.draws == start + k'
    ensures k' == k + 1 && p' == p * rng.values(start + k)
    ensures 0.0 <= p' <= Decay(k')
    ensures p > L ==> PoissonLoop(rng.values, start, L, k, p) == PoissonLoop(rng.values, start, L, k', p')
  {
    var u := rng.Next();
    PoissonNext(rng.values, start, L, k, p);
    MulCongruence(p, u, rng.values(start + k));
    k', p' := k + 1, p * u;
  }

  /** Once the product is at or below the limit, the loop stops. */
  lemma PoissonDone(ds: Draws, pos: nat, L: real, k: nat, p: real)
    requires L > 0.0 && 0.0 <= p <= Decay(k) && p <= L
    ensures PoissonLoop(ds, pos, L, k, p) == (k - 1, pos + k)
  {
  }

  lemma PoissonStep(ds: Draws, pos: nat, L: real, k: nat, p: real)
    requires L > 0.0 && 0.0 <= p <= Decay(k) && p > L
    ensures 0.0 <= p * ds(pos + k) <= Decay(k + 1)
    ensures PoissonLoop(ds, pos, L, k, p) == PoissonLoop(ds, pos, L, k + 1, p * ds(pos + k))
  {
    DecayStep(k, p, ds(pos + k));
  }

  /** While the product is above the limit, the loop reads one more
      draw and nothing else changes. */
  lemma PoissonNext(ds: Draws, pos: nat, L: real, k: nat, p: real)
    requires L > 0.0 && 0.0 <= p <= Decay(k)
    ensures 0.0 <= p * ds(pos + k) <= Decay(k + 1)
    ensures p > L ==> PoissonLoop(ds, pos, L, k, p) == PoissonLoop(ds, pos, L, k + 1, p * ds(pos + k))
  {
    DecayStep(k, p, ds(pos + k));
    if p > L {
      PoissonStep(ds, pos, L, k, p);
    }
  }

  // ---------------------------------------------------------------
  // Constant lists
  // ---------------------------------------------------------------

  /** Chilean region codes '01'..'16'. */
  const Regions: seq<string> := ["01", "02", "03", "04", "05", "06", "07", "08",
    "09", "10", "11", "12", "13", "14", "15", "16"]

  const Cie10Codes: seq<string> := ["E11.0", "E11.9", "I10", "I21.0", "I25.1", "J44.9", "F32.9",
    "M54.5", "K21.0", "N18.9", "G20", "C50.9", "A00.0", "J18.9", "R10.4"]

  const InsuranceTypes: seq<string> := ["fonasa_a", "fonasa_b", "fonasa_c", "fonasa_d", "isapre"]

  const EncounterTypes: seq<string> := ["ambulatory", "emergency", "inpatient", "telehealth"]

  const SurveillanceDiseases: seq<string> := ["A00", "J09", "A90", "B05", "A39"]

  const CancerStages: seq<string> := ["I", "II", "III", "IV"]

  const SmokingStatus: seq<string> := ["never", "former", "current"]

  const SeverityLevels: seq<string> := ["mild", "moderate", "severe"]
}
