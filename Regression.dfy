/** frontend/src/generators/regression.ts: four generators of data with a
    known regression structure (linear, logistic, Poisson and Cox
    proportional hazards). Each loop draws one record per pass from the
    seeded stream. */
module Regression {
  import opened Prelude
  import opened Stream
  import opened Text
  import opened Sampling
  import opened Records
  import Survival

  /** `PREFIX-` and the 1-based index padded to six digits. */
  function RecordId(prefix: string, i: nat): string {
    prefix + PadNumber(i + 1, 6)
  }

  /** Within one generator the ids are pairwise distinct. */
  lemma RecordIdsDistinct(prefix: string, i: nat, j: nat)
    requires i != j
    ensures RecordId(prefix, i) != RecordId(prefix, j)
  {
    if RecordId(prefix, i) == RecordId(prefix, j) {
      PrefixedIdInjective(prefix, i + 1, j + 1, 6);
    }
  }

  // ---------------------------------------------------------------
  // Linear regression
  // ---------------------------------------------------------------

  datatype LinearParams = LinearParams(beta0: real, beta1: real, beta2: real, noise: real)

  function LinearParamsFrom(params: Record): LinearParams {
    LinearParams(
      RealParam(params, "beta0", 10.0),
      RealParam(params, "beta1", 2.5),
      RealParam(params, "beta2", -1.5),
      RealParam(params, "noise", 5.0))
  }

  datatype LinearRecord = LinearRecord(id: string, x1: real, x2: real, y: real)
  {
    function ToRecord(): Record {
      [("id", Str(id)), ("x1", Num(x1)), ("x2", Num(x2)), ("y", Num(y))]
    }
  }

  /** `beta0 + beta1 * x1 + beta2 * x2`. */
  function LinearPredictor(P: LinearParams, x1: real, x2: real): real {
    P.beta0 + P.beta1 * x1 + P.beta2 * x2
  }

  /** The unrounded outcome: the predictor plus the error `e`. */
  function LinearOutcome(P: LinearParams, x1: real, x2: real, e: real): real {
    LinearPredictor(P, x1, x2) + e
  }

  /** Record `i`, from the six draws at `pos`: x1 ~ N(50, 10),
      x2 ~ N(100, 20), then the error. */
  function LinearAt(m: MathLib, ds: Draws, pos: nat, i: nat, P: LinearParams): LinearRecord {
    var x1 := NormalFromDraws(m, ds(pos), ds(pos + 1), 50.0, 10.0);
    var x2 := NormalFromDraws(m, ds(pos + 2), ds(pos + 3), 100.0, 20.0);
    var e := NormalFromDraws(m, ds(pos + 4), ds(pos + 5), 0.0, P.noise);
    LinearRow(i, x1, x2, LinearOutcome(P, x1, x2, e))
  }

  /** The record of the unrounded values, rounded to two decimals. */
  function LinearRow(i: nat, x1: real, x2: real, y: real): LinearRecord {
    LinearRecord(RecordId("LIN-", i), RoundTo(x1, 100), RoundTo(x2, 100), RoundTo(y, 100))
  }

  function LinearFrom(m: MathLib, ds: Draws, count: int, P: LinearParams): seq<LinearRecord> {
    Tabulate((i: nat) => LinearAt(m, ds, 6 * i, i, P), Max(count, 0))
  }

  /** `count` records; record `i` is `LIN-` plus `i + 1` and is made from
      draws `6i .. 6i + 5` alone. */
  lemma LinearShape(m: MathLib, ds: Draws, count: int, P: LinearParams)
    ensures var data := LinearFrom(m, ds, count, P);
      |data| == Max(count, 0)
      && forall i | 0 <= i < |data| ::
           data[i] == LinearAt(m, ds, 6 * i, i, P) && data[i].id == RecordId("LIN-", i)
  {
    var data := LinearFrom(m, ds, count, P);
    forall i | 0 <= i < |data|
      ensures data[i] == LinearAt(m, ds, 6 * i, i, P)
    {
      TabulateIndex((i: nat) => LinearAt(m, ds, 6 * i, i, P), Max(count, 0), i);
    }
  }

  /** With no noise the error is 0 whatever the draws, so the outcome is
      exactly the linear predictor of the unrounded covariates. */
  lemma NoiselessLinear(m: MathLib, u1: real, u2: real, P: LinearParams, x1: real, x2: real)
    requires P.noise == 0.0
    ensures LinearOutcome(P, x1, x2, NormalFromDraws(m, u1, u2, 0.0, P.noise)) == LinearPredictor(P, x1, x2)
  {
    var a := m.sqrt(-2.0 * m.ln(u1)) * m.cos(2.0 * PI * u2);
    assert NormalFromDraws(m, u1, u2, 0.0, P.noise) == a * 0.0 + 0.0;
  }

  /** Two streams that agree on a record's six draws give the same
      record: nothing else is read. */
  lemma LinearReadsSixDraws(m: MathLib, ds: Draws, es: Draws, pos: nat, i: nat, P: LinearParams)
    requires forall k | pos <= k < pos + 6 :: ds(k) == es(k)
    ensures LinearAt(m, ds, pos, i, P) == LinearAt(m, es, pos, i, P)
  {
    assert ds(pos) == es(pos) && ds(pos + 1) == es(pos + 1) && ds(pos + 2) == es(pos + 2);
    assert ds(pos + 3) == es(pos + 3) && ds(pos + 4) == es(pos + 4) && ds(pos + 5) == es(pos + 5);
  }

  method NextLinear(rng: Mulberry32, m: MathLib, i: nat, P: LinearParams) returns (r: LinearRecord)
    requires rng.Valid()
    modifies rng
    ensures rng.Valid() && rng.draws == old(rng.draws) + 6
    ensures r == LinearAt(m, rng.values, old(rng.draws), i, P)
  {
    var x1 := RandomNormal(rng, m, 50.0, 10.0);
    var x2 := RandomNormal(rng, m, 100.0, 20.0);
    var e := RandomNormal(rng, m, 0.0, P.noise);
    var y := LinearOutcome(P, x1, x2, e);
    r := LinearRow(i, x1, x2, y);
  }

  /** `generateLinear(count, seed, params)`. */
  method GenerateLinear(count: int, seed: int, m: MathLib, P: LinearParams) returns (data: seq<LinearRecord>)
    ensures data == LinearFrom(m, StreamDraws(seed), count, P)
  {
    var rng := new Mulberry32(seed);
    ghost var rows := (i: nat) => LinearAt(m, rng.values, 6 * i, i, P);
    data := [];
    var i := 0;
    while i < count
      invariant 0 <= i <= Max(count, 0)
      invariant rng.Valid() && rng.draws == 6 * i && rng.values == StreamDraws(seed)
      invariant data == Tabulate(rows, i)
    {
      var r := NextLinear(rng, m, i, P);
      data := data + [r];
      i := i + 1;
    }
    assert i == Max(count, 0);
  }

  // ---------------------------------------------------------------
  // Logistic regression
  // ---------------------------------------------------------------

  datatype LogisticParams = LogisticParams(beta0: real, beta1: real, beta2: real)

  function LogisticParamsFrom(params: Record): LogisticParams {
    LogisticParams(
      RealParam(params, "beta0", -2.0),
      RealParam(params, "beta1", 0.05),
      RealParam(params, "beta2", 0.03))
  }

  datatype LogisticRecord = LogisticRecord(id: string, x1: real, x2: real, outcome: int, probability: real)
  {
    function ToRecord(): Record {
      [("id", Str(id)), ("x1", Num(x1)), ("x2", Num(x2)), ("outcome", Int(outcome)),
       ("probability", Num(probability))]
    }
  }

  /** The logistic function `1 / (1 + exp(-logOdds))`: a probability
      strictly between 0 and 1. */
  function Logistic(m: MathLib, logOdds: real): (p: real)
    ensures 0.0 < p < 1.0
  {
    var e := m.exp(-logOdds);
    assert 1.0 + e > 1.0;
    1.0 / (1.0 + e)
  }

  /** The outcome drawn with probability `p`: `u < p ? 1 : 0`. */
  function Bernoulli(u: real, p: real): int {
    if u < p then 1 else 0
  }

  /** Record `i`, from the five draws at `pos`: x1 and x2 as in the linear
      generator, then the outcome draw. */
  function LogisticAt(m: MathLib, ds: Draws, pos: nat, i: nat, P: LogisticParams): LogisticRecord {
    var x1 := NormalFromDraws(m, ds(pos), ds(pos + 1), 50.0, 10.0);
    var x2 := NormalFromDraws(m, ds(pos + 2), ds(pos + 3), 100.0, 20.0);
    var p := Logistic(m, LogOdds(P, x1, x2));
    LogisticRow(i, x1, x2, Bernoulli(ds(pos + 4), p), p)
  }

  /** `beta0 + beta1 * x1 + beta2 * x2`. */
  function LogOdds(P: LogisticParams, x1: real, x2: real): real {
    P.beta0 + P.beta1 * x1 + P.beta2 * x2
  }

  /** The record of the unrounded values; the probability is rounded to
      three decimals. */
  function LogisticRow(i: nat, x1: real, x2: real, outcome: int, p: real): LogisticRecord {
    LogisticRecord(RecordId("LOG-", i), RoundTo(x1, 100), RoundTo(x2, 100), outcome, RoundTo(p, 1000))
  }

  function LogisticFrom(m: MathLib, ds: Draws, count: int, P: LogisticParams): seq<LogisticRecord> {
    Tabulate((i: nat) => LogisticAt(m, ds, 5 * i, i, P), Max(count, 0))
  }

  /** `count` records; record `i` is `LOG-` plus `i + 1`, its outcome is 0
      or 1, and it is 1 exactly when the fifth draw of the record falls
      under the logistic probability of its unrounded covariates. */
  lemma LogisticShape(m: MathLib, ds: Draws, count: int, P: LogisticParams)
    ensures var data := LogisticFrom(m, ds, count, P);
      |data| == Max(count, 0)
      && forall i | 0 <= i < |data| ::
           var x1 := NormalFromDraws(m, ds(5 * i), ds(5 * i + 1), 50.0, 10.0);
           var x2 := NormalFromDraws(m, ds(5 * i + 2), ds(5 * i + 3), 100.0, 20.0);
           data[i].id == RecordId("LOG-", i)
           && (data[i].outcome == 0 || data[i].outcome == 1)
           && (data[i].outcome == 1 <==> ds(5 * i + 4) < Logistic(m, LogOdds(P, x1, x2)))
  {
    var data := LogisticFrom(m, ds, count, P);
    forall i | 0 <= i < |data|
      ensures data[i] == LogisticAt(m, ds, 5 * i, i, P)
    {
      TabulateIndex((i: nat) => LogisticAt(m, ds, 5 * i, i, P), Max(count, 0), i);
    }
  }

  /** A draw of 0 always gives the outcome 1 and no draw reaches 1, so a
      probability near 1 makes the outcome all but certain: the outcome
      is 1 for every draw at most the probability's distance from 0. */
  lemma BernoulliBounds(u: real, p: real)
    requires 0.0 <= u < 1.0 && 0.0 < p < 1.0
    ensures u == 0.0 ==> Bernoulli(u, p) == 1
    ensures Bernoulli(u, p) == 1 <==> u < p
  {
  }

  /** The probability of the record, computed on its own so that its
      division stays out of the record's proof. */
  method LogisticProbability(m: MathLib, logOdds: real) returns (p: real)
    ensures p == Logistic(m, logOdds)
  {
    p := 1.0 / (1.0 + m.exp(-logOdds));
  }

  method NextLogistic(rng: Mulberry32, m: MathLib, i: nat, P: LogisticParams) returns (r: LogisticRecord)
    requires rng.Valid()
    modifies rng
    ensures rng.Valid() && rng.draws == old(rng.draws) + 5
    ensures r == LogisticAt(m, rng.values, old(rng.draws), i, P)
  {
    var x1 := RandomNormal(rng, m, 50.0, 10.0);
    var x2 := RandomNormal(rng, m, 100.0, 20.0);
    var probability := LogisticProbability(m, LogOdds(P, x1, x2));
    var u := rng.Next();
    var outcome := Bernoulli(u, probability);
    r := LogisticRow(i, x1, x2, outcome, probability);
  }

  /** `generateLogistic(count, seed, params)`. */
  method GenerateLogistic(count: int, seed: int, m: MathLib, P: LogisticParams) returns (data: seq<LogisticRecord>)
    ensures data == LogisticFrom(m, StreamDraws(seed), count, P)
  {
    var rng := new Mulberry32(seed);
    ghost var rows := (i: nat) => LogisticAt(m, rng.values, 5 * i, i, P);
    data := [];
    var i := 0;
    while i < count
      invariant 0 <= i <= Max(count, 0)
      invariant rng.Valid() && rng.draws == 5 * i && rng.values == StreamDraws(seed)
      invariant data == Tabulate(rows, i)
    {
      var r := NextLogistic(rng, m, i, P);
      data := data + [r];
      i := i + 1;
    }
    assert i == Max(count, 0);
  }

  // ---------------------------------------------------------------
  // Poisson regression
  // ---------------------------------------------------------------

  datatype PoissonParams = PoissonParams(beta0: real, beta1: real)

  function PoissonParamsFrom(params: Record): PoissonParams {
    PoissonParams(RealParam(params, "beta0", 1.0), RealParam(params, "beta1", 0.3))
  }

  datatype PoissonRecord = PoissonRecord(id: string, exposure: int, x1: real, count: int, rate: real)
  {
    function ToRecord(): Record {
      [("id", Str(id)), ("exposure", Int(exposure)), ("x1", Num(x1)), ("count", Int(count)),
       ("rate", Num(rate))]
    }
  }

  /** The log-linear rate `exp(beta0 + beta1 * x1)`: always positive. */
  function EventRate(m: MathLib, P: PoissonParams, x1: real): (rate: real)
    ensures rate > 0.0
  {
    m.exp(P.beta0 + P.beta1 * x1)
  }

  /** The expected count `rate * exposure`. */
  function ExpectedCount(m: MathLib, P: PoissonParams, x1: real, exposure: int): real {
    EventRate(m, P, x1) * exposure as real
  }

  /** With at least one person-year at risk the expected count is at least
      the rate, and it grows with the exposure. */
  lemma ExpectedCountGrows(m: MathLib, P: PoissonParams, x1: real, e1: int, e2: int)
    requires 1 <= e1 <= e2
    ensures EventRate(m, P, x1) <= ExpectedCount(m, P, x1, e1) <= ExpectedCount(m, P, x1, e2)
  {
    var rate := EventRate(m, P, x1);
    MulMonotone(rate, 1.0, e1 as real);
    MulMonotone(rate, e1 as real, e2 as real);
  }

  /** Record `i`, from `pos`: the exposure draw, x1 ~ N(0, 1), then
      Knuth's sampler for the expected count; the second component is the
      next position. */
  function PoissonAt(m: MathLib, ds: Draws, pos: nat, i: nat, P: PoissonParams): (r: (PoissonRecord, nat))
    ensures r.1 > pos + 3
  {
    var exposure := IntFromDraw(ds(pos), 1, 10);
    var x1 := NormalFromDraws(m, ds(pos + 1), ds(pos + 2), 0.0, 1.0);
    var sample := PoissonFromDraws(m, ds, pos + 3, ExpectedCount(m, P, x1, exposure));
    (PoissonRow(i, exposure, x1, sample.0, EventRate(m, P, x1)), sample.1)
  }

  /** The record; x1 rounded to two decimals, the rate to three. */
  function PoissonRow(i: nat, exposure: int, x1: real, count: int, rate: real): PoissonRecord {
    PoissonRecord(RecordId("POI-", i), exposure, RoundTo(x1, 100), count, RoundTo(rate, 1000))
  }

  function PoissonStep(m: MathLib, ds: Draws, P: PoissonParams): (nat, nat) -> (PoissonRecord, nat) {
    (i: nat, pos: nat) => PoissonAt(m, ds, pos, i, P)
  }

  function PoissonFrom(m: MathLib, ds: Draws, count: int, P: PoissonParams): seq<PoissonRecord> {
    ThreadItems(PoissonStep(m, ds, P), Max(count, 0))
  }

  /** One record: its id, an exposure of 1 to 10 person-years, and a
      non-negative count drawn after the exposure and x1 with mean rate
      times exposure. */
  lemma PoissonFields(m: MathLib, ds: Draws, pos: nat, i: nat, P: PoissonParams)
    ensures var r := PoissonAt(m, ds, pos, i, P).0;
      var x1 := NormalFromDraws(m, ds(pos + 1), ds(pos + 2), 0.0, 1.0);
      r.id == RecordId("POI-", i)
      && 1 <= r.exposure <= 10 && r.count >= 0
      && r.count == PoissonFromDraws(m, ds, pos + 3, ExpectedCount(m, P, x1, r.exposure)).0
  {
  }

  /** `count` records, record `i` being `POI-` plus `i + 1`, each as
      `PoissonFields` describes. */
  lemma PoissonShape(m: MathLib, ds: Draws, count: int, P: PoissonParams)
    ensures var data := PoissonFrom(m, ds, count, P);
      |data| == Max(count, 0)
      && forall i | 0 <= i < |data| ::
           data[i].id == RecordId("POI-", i) && 1 <= data[i].exposure <= 10 && data[i].count >= 0
  {
    var step := PoissonStep(m, ds, P);
    var data := PoissonFrom(m, ds, count, P);
    forall i | 0 <= i < |data|
      ensures data[i].id == RecordId("POI-", i) && 1 <= data[i].exposure <= 10 && data[i].count >= 0
    {
      ThreadItemsIndex(step, Max(count, 0), i);
      PoissonFields(m, ds, ThreadPos(step, i), i, P);
    }
  }

  method NextPoisson(rng: Mulberry32, m: MathLib, i: nat, P: PoissonParams) returns (r: PoissonRecord)
    requires rng.Valid()
    modifies rng
    ensures rng.Valid()
    ensures (r, rng.draws) == PoissonAt(m, rng.values, old(rng.draws), i, P)
  {
    var exposure := RandomInt(rng, 1, 10);
    var x1 := RandomNormal(rng, m, 0.0, 1.0);
    var rate := EventRate(m, P, x1);
    var lambda := ExpectedCount(m, P, x1, exposure);
    var eventCount := RandomPoisson(rng, m, lambda);
    r := PoissonRow(i, exposure, x1, eventCount, rate);
  }

  /** `generatePoisson(count, seed, params)`. */
  method GeneratePoisson(count: int, seed: int, m: MathLib, P: PoissonParams) returns (data: seq<PoissonRecord>)
    ensures data == PoissonFrom(m, StreamDraws(seed), count, P)
  {
    var rng := new Mulberry32(seed);
    ghost var step := PoissonStep(m, rng.values, P);
    data := [];
    var i := 0;
    while i < count
      invariant 0 <= i <= Max(count, 0)
      invariant rng.Valid() && rng.draws == ThreadPos(step, i) && rng.values == StreamDraws(seed)
      invariant data == ThreadItems(step, i)
    {
      assert step(i, rng.draws) == PoissonAt(m, rng.values, rng.draws, i, P);
      var r := NextPoisson(rng, m, i, P);
      ThreadNext(step, i);
      data := data + [r];
      i := i + 1;
    }
    assert i == Max(count, 0);
  }

  // ---------------------------------------------------------------
  // Cox proportional hazards
  // ---------------------------------------------------------------

  datatype CoxParams = CoxParams(
    hazardRatioTreatment: real, hazardRatioAge: real, baselineSurvival: real,
    maxFollowup: int, censoringRate: real)

  function CoxParamsFrom(params: Record): CoxParams {
    CoxParams(
      RealParam(params, "hazardRatioTreatment", 0.6),
      RealParam(params, "hazardRatioAge", 1.02),
      RealParam(params, "baselineSurvival", 500.0),
      IntParam(params, "maxFollowup", 1000),
      RealParam(params, "censoringRate", 0.25))
  }

  datatype CoxRecord = CoxRecord(id: string, time: int, event: int, treatment: int, age: int)
  {
    function ToRecord(): Record {
      [("id", Str(id)), ("time", Int(time)), ("event", Int(event)), ("treatment", Int(treatment)),
       ("age", Int(age))]
    }
  }

  /** `Math.log(2) / baselineSurvival`, computed once before the loop. */
  function BaseLambda(m: MathLib, P: CoxParams): real
    requires P.baselineSurvival != 0.0
  {
    m.ln(2.0) / P.baselineSurvival
  }

  /** A subject's hazard: the baseline times the treatment's hazard ratio
      (1 for control) times `hazardRatioAge ^ (age - 60)`. */
  function Hazard(m: MathLib, P: CoxParams, baseLambda: real, treatment: int, age: int): real {
    baseLambda * ((if treatment == 1 then P.hazardRatioTreatment else 1.0) * m.pow(P.hazardRatioAge, (age - 60) as real))
  }

  /** Proportional hazards: at every age the treated subject's hazard is
      the control subject's times `hazardRatioTreatment`. */
  lemma ProportionalHazards(m: MathLib, P: CoxParams, baseLambda: real, age: int)
    ensures Hazard(m, P, baseLambda, 1, age) == P.hazardRatioTreatment * Hazard(m, P, baseLambda, 0, age)
  {
    var a := m.pow(P.hazardRatioAge, (age - 60) as real);
    assert baseLambda * (P.hazardRatioTreatment * a) == P.hazardRatioTreatment * (baseLambda * (1.0 * a));
  }

  /** `Math.pow(x, 0)` is 1 for every `x`, NaN included. */
  ghost predicate PowOfZeroIsOne(m: MathLib) {
    forall x :: m.pow(x, 0.0) == 1.0
  }

  /** Age 60 is the reference age: there the age term vanishes and the
      hazard is the baseline, times the treatment ratio for the treated. */
  lemma ReferenceAge(m: MathLib, P: CoxParams, baseLambda: real, treatment: int)
    requires PowOfZeroIsOne(m)
    ensures Hazard(m, P, baseLambda, treatment, 60)
         == baseLambda * (if treatment == 1 then P.hazardRatioTreatment else 1.0)
  {
    assert m.pow(P.hazardRatioAge, (60 - 60) as real) == 1.0;
  }

  /** `rng() < 0.5 ? 1 : 0`. */
  function TreatmentFromDraw(u: real): int {
    if u < 0.5 then 1 else 0
  }

  /** Treatment, age and the true event time, from the three draws at
      `pos`. */
  function CoxArmAt(m: MathLib, ds: Draws, pos: nat, P: CoxParams, baseLambda: real): (r: (int, int, Time))
    ensures r.0 == 0 || r.0 == 1
    ensures 40 <= r.1 <= 80
  {
    var treatment := TreatmentFromDraw(ds(pos));
    var age := IntFromDraw(ds(pos + 1), 40, 80);
    (treatment, age, CoxTimeAt(m, ds, pos + 2, P, baseLambda, treatment, age))
  }

  /** The true event time, exponential with the subject's hazard, from the
      draw at `pos`. */
  function CoxTimeAt(m: MathLib, ds: Draws, pos: nat, P: CoxParams, baseLambda: real, treatment: int, age: int): Time {
    ExponentialFromDraw(m, ds(pos), Hazard(m, P, baseLambda, treatment, age))
  }

  /** Record `i`, from `pos`: the arm, then the censoring draws of the
      survival generator. */
  function CoxAt(m: MathLib, ds: Draws, pos: nat, i: nat, P: CoxParams, baseLambda: real): (r: (CoxRecord, nat))
  {
    var arm := CoxArmAt(m, ds, pos, P, baseLambda);
    var censor := Survival.CensorAt(ds, pos + 3, P.censoringRate, P.maxFollowup);
    var observed := Survival.ObservedTime(arm.2, censor.1 as real, P.maxFollowup as real);
    (CoxRecord(RecordId("COX-", i), Round(observed),
               if Survival.EventSeen(arm.2, observed) then 1 else 0, arm.0, arm.1),
     censor.2)
  }

  function CoxStep(m: MathLib, ds: Draws, P: CoxParams, baseLambda: real): (nat, nat) -> (CoxRecord, nat) {
    (i: nat, pos: nat) => CoxAt(m, ds, pos, i, P, baseLambda)
  }

  function CoxFrom(m: MathLib, ds: Draws, count: int, P: CoxParams, baseLambda: real): seq<CoxRecord> {
    ThreadItems(CoxStep(m, ds, P, baseLambda), Max(count, 0))
  }

  /** One subject: treatment 0 or 1, age 40 to 80, a rounded time within
      follow-up, and an event exactly when the true time comes no later
      than the censoring time and the end of follow-up. */
  lemma CoxFields(m: MathLib, ds: Draws, pos: nat, i: nat, P: CoxParams, baseLambda: real)
    ensures var arm := CoxArmAt(m, ds, pos, P, baseLambda);
      var censor := Survival.CensorAt(ds, pos + 3, P.censoringRate, P.maxFollowup);
      var r := CoxAt(m, ds, pos, i, P, baseLambda).0;
      r.id == RecordId("COX-", i) && (r.treatment == 0 || r.treatment == 1) && 40 <= r.age <= 80
      && r.time <= P.maxFollowup && (r.event == 0 || r.event == 1)
      && (r.event == 1 <==>
            arm.2.Finite? && arm.2.t <= MinR(censor.1 as real, P.maxFollowup as real))
  {
    var arm := CoxArmAt(m, ds, pos, P, baseLambda);
    var censor := Survival.CensorAt(ds, pos + 3, P.censoringRate, P.maxFollowup);
    Survival.Censoring(arm.2, censor.1 as real, P.maxFollowup as real);
    Survival.RoundedBelow(Survival.ObservedTime(arm.2, censor.1 as real, P.maxFollowup as real), P.maxFollowup);
  }

  /** `count` records, record `i` being `COX-` plus `i + 1`, each within the
      bounds of `CoxFields`. */
  lemma CoxShape(m: MathLib, ds: Draws, count: int, P: CoxParams, baseLambda: real)
    ensures var data := CoxFrom(m, ds, count, P, baseLambda);
      |data| == Max(count, 0)
      && forall i | 0 <= i < |data| ::
           data[i].id == RecordId("COX-", i) && (data[i].treatment == 0 || data[i].treatment == 1)
           && 40 <= data[i].age <= 80 && data[i].time <= P.maxFollowup
           && (data[i].event == 0 || data[i].event == 1)
  {
    var step := CoxStep(m, ds, P, baseLambda);
    var data := CoxFrom(m, ds, count, P, baseLambda);
    forall i | 0 <= i < |data|
      ensures data[i].id == RecordId("COX-", i) && (data[i].treatment == 0 || data[i].treatment == 1)
           && 40 <= data[i].age <= 80 && data[i].time <= P.maxFollowup
           && (data[i].event == 0 || data[i].event == 1)
    {
      ThreadItemsIndex(step, Max(count, 0), i);
      CoxFields(m, ds, ThreadPos(step, i), i, P, baseLambda);
    }
  }

  /** The treatment, age and event time of one subject. */
  method NextCoxArm(rng: Mulberry32, m: MathLib, P: CoxParams, baseLambda: real)
    returns (treatment: int, age: int, t: Time)
    requires rng.Valid()
    modifies rng
    ensures rng.Valid() && rng.draws == old(rng.draws) + 3
    ensures treatment == CoxArmAt(m, rng.values, old(rng.draws), P, baseLambda).0
    ensures age == CoxArmAt(m, rng.values, old(rng.draws), P, baseLambda).1
    ensures t == CoxArmAt(m, rng.values, old(rng.draws), P, baseLambda).2
  {
    var u := rng.Next();
    treatment := TreatmentFromDraw(u);
    age := RandomInt(rng, 40, 80);
    t := NextCoxTime(rng, m, P, baseLambda, treatment, age);
  }

  method NextCoxTime(rng: Mulberry32, m: MathLib, P: CoxParams, baseLambda: real, treatment: int, age: int)
    returns (t: Time)
    requires rng.Valid()
    modifies rng
    ensures rng.Valid() && rng.draws == old(rng.draws) + 1
    ensures t == CoxTimeAt(m, rng.values, old(rng.draws), P, baseLambda, treatment, age)
  {
    t := RandomExponential(rng, m, Hazard(m, P, baseLambda, treatment, age));
  }

  method NextCox(rng: Mulberry32, m: MathLib, i: nat, P: CoxParams, baseLambda: real) returns (r: CoxRecord)
    requires rng.Valid()
    modifies rng
    ensures rng.Valid()
    ensures (r, rng.draws) == CoxAt(m, rng.values, old(rng.draws), i, P, baseLambda)
  {
    var treatment, age, trueEventTime := NextCoxArm(rng, m, P, baseLambda);
    var isCensored, censorTime := Survival.NextCensor(rng, P.censoringRate, P.maxFollowup);
    var observedTime := Survival.ObservedTime(trueEventTime, censorTime as real, P.maxFollowup as real);
    var event := if Survival.EventSeen(trueEventTime, observedTime) then 1 else 0;
    r := CoxRecord(RecordId("COX-", i), Round(observedTime), event, treatment, age);
  }

  method CoxBaseLambda(m: MathLib, P: CoxParams) returns (baseLambda: real)
    requires P.baselineSurvival != 0.0
    ensures baseLambda == BaseLambda(m, P)
  {
    baseLambda := m.ln(2.0) / P.baselineSurvival;
  }

  method CoxLoop(rng: Mulberry32, m: MathLib, count: int, P: CoxParams, baseLambda: real) returns (data: seq<CoxRecord>)
    requires rng.Valid() && rng.draws == 0
    modifies rng
    ensures data == CoxFrom(m, rng.values, count, P, baseLambda)
  {
    ghost var step := CoxStep(m, rng.values, P, baseLambda);
    data := [];
    var i := 0;
    while i < count
      invariant 0 <= i <= Max(count, 0)
      invariant rng.Valid() && rng.draws == ThreadPos(step, i)
      invariant data == ThreadItems(step, i)
    {
      assert step(i, rng.draws) == CoxAt(m, rng.values, rng.draws, i, P, baseLambda);
      var r := NextCox(rng, m, i, P, baseLambda);
      ThreadNext(step, i);
      data := data + [r];
      i := i + 1;
    }
    assert i == Max(count, 0);
  }

  /** `generateCox(count, seed, params)`. A zero baseline survival would
      make JavaScript divide by zero. */
  method GenerateCox(count: int, seed: int, m: MathLib, P: CoxParams) returns (data: seq<CoxRecord>)
    requires P.baselineSurvival != 0.0
    ensures data == CoxFrom(m, StreamDraws(seed), count, P, BaseLambda(m, P))
  {
    var baseLambda := CoxBaseLambda(m, P);
    var rng := new Mulberry32(seed);
    data := CoxLoop(rng, m, count, P, baseLambda);
  }
}
