/** frontend/src/generators/surveillance.ts: weekly case counts of one
    disease, with an optional seasonal baseline, an eight-week outbreak
    window and an alert rule. */
module Surveillance {
  import opened Prelude
  import opened Stream
  import opened Sampling
  import opened Records

  datatype SurveillanceParams = SurveillanceParams(
    weeks: int, startYear: int, baselineCases: real, alertThreshold: real,
    seasonal: bool, outbreakWeek: int, outbreakMultiplier: real)

  /** The parameter object, with the source's defaults; `weeks` defaults
      to the requested count. */
  function ParamsFrom(params: Record, count: int): SurveillanceParams {
    SurveillanceParams(
      IntParam(params, "weeks", count),
      IntParam(params, "startYear", 2024),
      RealParam(params, "baselineCases", 10.0),
      RealParam(params, "alertThreshold", 1.5),
      BoolParam(params, "seasonal", true),
      IntParam(params, "outbreakWeek", 0),
      RealParam(params, "outbreakMultiplier", 3.0))
  }

  datatype SurveillanceRecord = SurveillanceRecord(
    week: int, year: int, disease: string, cases: int, expected: real, alert: int)
  {
    function ToRecord(): Record {
      [("week", Int(week)), ("year", Int(year)), ("disease", Str(disease)),
       ("cases", Int(cases)), ("expected", Num(expected)), ("alert", Int(alert))]
    }
  }

  /** `(i % 52) + 1`. */
  function WeekNumber(i: nat): (w: int)
    ensures 1 <= w <= 52
  {
    i % 52 + 1
  }

  /** The expected count of a week, before any outbreak. */
  function Expected(m: MathLib, P: SurveillanceParams, week: int): real {
    if P.seasonal then P.baselineCases * (1.0 + 0.5 * m.sin(2.0 * PI * (week - 25) as real / 52.0))
    else P.baselineCases
  }

  /** The outbreak window: `outbreakWeek > 0` and the week among the eight
      starting at `outbreakWeek`. */
  predicate InOutbreak(P: SurveillanceParams, week: int) {
    P.outbreakWeek > 0 && P.outbreakWeek <= week < P.outbreakWeek + 8
  }

  /** The Poisson mean of a week. */
  function Lambda(m: MathLib, P: SurveillanceParams, week: int): real {
    var expected := Expected(m, P, week);
    if InOutbreak(P, week) then expected * P.outbreakMultiplier else expected
  }

  /** `startYear + Math.floor(i / 52)`. */
  function YearOf(startYear: int, i: nat): int {
    startYear + i / 52
  }

  /** The alert rule: more cases than the threshold times the expected
      count. */
  predicate Exceeds(cases: int, expected: real, threshold: real) {
    cases as real > expected * threshold
  }

  /** `cases > expected * alertThreshold ? 1 : 0`. */
  function AlertFor(cases: int, expected: real, threshold: real): int {
    if Exceeds(cases, expected, threshold) then 1 else 0
  }

  /** Week `i`, its cases drawn from position `pos + 1` (position 0 holds
      the disease pick); the second component is the next relative
      position. */
  function WeekAt(m: MathLib, ds: Draws, pos: nat, i: nat, P: SurveillanceParams, disease: string)
    : (r: (SurveillanceRecord, nat))
    ensures r.1 > pos
  {
    var week := WeekNumber(i);
    var expected := Expected(m, P, week);
    var sample := PoissonFromDraws(m, ds, pos + 1, Lambda(m, P, week));
    (SurveillanceRecord(week, YearOf(P.startYear, i), disease, sample.0, RoundTo(expected, 10),
                        AlertFor(sample.0, expected, P.alertThreshold)),
     sample.1 - 1)
  }

  /** One week's fields: its number and year, the disease, non-negative
      cases and the alert rule against the expected count. */
  lemma WeekFields(m: MathLib, ds: Draws, pos: nat, i: nat, P: SurveillanceParams, disease: string)
    ensures var r := WeekAt(m, ds, pos, i, P, disease).0;
      r.week == i % 52 + 1 && 1 <= r.week <= 52
      && r.year == P.startYear + i / 52
      && r.disease == disease && r.cases >= 0
      && (r.alert == 1 <==> Exceeds(r.cases, Expected(m, P, r.week), P.alertThreshold))
      && (r.alert == 0 || r.alert == 1)
  {
  }

  function WeekStep(m: MathLib, ds: Draws, P: SurveillanceParams, disease: string)
    : (nat, nat) -> (SurveillanceRecord, nat)
  {
    (i: nat, pos: nat) => WeekAt(m, ds, pos, i, P, disease)
  }

  function DiseaseFrom(ds: Draws, diseases: seq<string>): string
    requires |diseases| > 0
  {
    PickFromDraw(ds(0), diseases)
  }

  /** The whole series. */
  function SurveillanceFrom(m: MathLib, ds: Draws, P: SurveillanceParams, diseases: seq<string>)
    : seq<SurveillanceRecord>
    requires |diseases| > 0
  {
    ThreadItems(WeekStep(m, ds, P, DiseaseFrom(ds, diseases)), Max(P.weeks, 0))
  }

  // ---------------------------------------------------------------
  // Properties
  // ---------------------------------------------------------------

  /** `weeks` records; record `i` is week `(i mod 52) + 1` of year
      `startYear + i div 52`, carries the one disease picked before the
      loop, a non-negative case count, and an alert exactly when the cases
      exceed the threshold times the expected count. */
  lemma SurveillanceShape(m: MathLib, ds: Draws, P: SurveillanceParams, diseases: seq<string>)
    requires |diseases| > 0
    ensures var data := SurveillanceFrom(m, ds, P, diseases);
      |data| == Max(P.weeks, 0)
      && forall i | 0 <= i < |data| ::
           data[i].week == i % 52 + 1 && 1 <= data[i].week <= 52
           && data[i].year == P.startYear + i / 52
           && data[i].disease == DiseaseFrom(ds, diseases) && data[i].disease in diseases
           && data[i].cases >= 0
           && (data[i].alert == 1 <==>
                 Exceeds(data[i].cases, Expected(m, P, data[i].week), P.alertThreshold))
           && (data[i].alert == 0 || data[i].alert == 1)
  {
    var disease := DiseaseFrom(ds, diseases);
    var step := WeekStep(m, ds, P, disease);
    var data := SurveillanceFrom(m, ds, P, diseases);
    forall i | 0 <= i < |data|
      ensures data[i].week == i % 52 + 1 && 1 <= data[i].week <= 52
           && data[i].year == P.startYear + i / 52
           && data[i].disease == disease && data[i].disease in diseases
           && data[i].cases >= 0
           && (data[i].alert == 1 <==>
                 Exceeds(data[i].cases, Expected(m, P, data[i].week), P.alertThreshold))
           && (data[i].alert == 0 || data[i].alert == 1)
    {
      ThreadItemsIndex(step, Max(P.weeks, 0), i);
      WeekFields(m, ds, ThreadPos(step, i), i, P, disease);
    }
  }

  /** The outbreak changes the Poisson mean only: the expected count, and
      so the alert threshold, ignore the outbreak parameters. */
  lemma ExpectedIgnoresOutbreak(m: MathLib, P: SurveillanceParams, Q: SurveillanceParams, week: int)
    requires P.baselineCases == Q.baselineCases && P.seasonal == Q.seasonal
    ensures Expected(m, P, week) == Expected(m, Q, week)
    ensures !InOutbreak(P, week) ==> Lambda(m, P, week) == Expected(m, P, week)
    ensures InOutbreak(P, week) ==> Lambda(m, P, week) == Expected(m, P, week) * P.outbreakMultiplier
  {
  }

  /** With `outbreakWeek <= 0` no week is in the window; otherwise the
      window holds exactly the weeks `outbreakWeek .. outbreakWeek + 7`. */
  lemma OutbreakWindow(P: SurveillanceParams, week: int)
    ensures P.outbreakWeek <= 0 ==> !InOutbreak(P, week)
    ensures P.outbreakWeek > 0 ==>
      (InOutbreak(P, week) <==> week in {P.outbreakWeek, P.outbreakWeek + 1, P.outbreakWeek + 2,
                                          P.outbreakWeek + 3, P.outbreakWeek + 4, P.outbreakWeek + 5,
                                          P.outbreakWeek + 6, P.outbreakWeek + 7})
  {
  }

  /** Without seasonality the expected count is the baseline. */
  lemma FlatBaseline(m: MathLib, P: SurveillanceParams, week: int)
    requires !P.seasonal
    ensures Expected(m, P, week) == P.baselineCases
  {
  }

  // ---------------------------------------------------------------
  // The generator
  // ---------------------------------------------------------------

  /** The week's Poisson mean: the expected count, times the multiplier
      inside the outbreak window. */
  method OutbreakLambda(m: MathLib, P: SurveillanceParams, weekNum: int, expected: real) returns (lambda: real)
    requires expected == Expected(m, P, weekNum)
    ensures lambda == Lambda(m, P, weekNum)
  {
    lambda := expected;
    if P.outbreakWeek > 0 && weekNum >= P.outbreakWeek && weekNum < P.outbreakWeek + 8 {
      lambda := lambda * P.outbreakMultiplier;
    }
  }

  method NextWeek(rng: Mulberry32, m: MathLib, i: nat, P: SurveillanceParams, disease: string)
    returns (r: SurveillanceRecord)
    requires rng.Valid() && rng.draws > 0
    modifies rng
    ensures rng.Valid()
    ensures rng.draws == WeekAt(m, rng.values, old(rng.draws) - 1, i, P, disease).1 + 1
    ensures r == WeekAt(m, rng.values, old(rng.draws) - 1, i, P, disease).0
  {
    var weekNum := WeekNumber(i);
    var year := YearOf(P.startYear, i);
    var expected := Expected(m, P, weekNum);
    var lambda := OutbreakLambda(m, P, weekNum, expected);
    var cases := RandomPoisson(rng, m, lambda);
    r := SurveillanceRecord(weekNum, year, disease, cases, RoundTo(expected, 10),
                            AlertFor(cases, expected, P.alertThreshold));
  }

  /** The loop of `generateSurveillance`, after the disease pick. */
  method SurveillanceLoop(rng: Mulberry32, m: MathLib, P: SurveillanceParams, diseases: seq<string>)
    returns (data: seq<SurveillanceRecord>)
    requires rng.Valid() && rng.draws == 0 && |diseases| > 0
    modifies rng
    ensures data == SurveillanceFrom(m, rng.values, P, diseases)
  {
    var disease := RandomPick(rng, diseases);
    ghost var step := WeekStep(m, rng.values, P, disease);
    data := [];
    var i := 0;
    while i < P.weeks
      invariant 0 <= i <= Max(P.weeks, 0)
      invariant rng.Valid() && rng.draws == ThreadPos(step, i) + 1
      invariant data == ThreadItems(step, i)
    {
      ghost var expected := WeekAt(m, rng.values, rng.draws - 1, i, P, disease);
      assert step(i, rng.draws - 1) == expected;
      var r := NextWeek(rng, m, i, P, disease);
      ThreadNext(step, i);
      data := data + [r];
      i := i + 1;
    }
    assert i == Max(P.weeks, 0);
  }

  /** `generateSurveillance(count, seed, params)`. */
  method GenerateSurveillance(seed: int, m: MathLib, P: SurveillanceParams) returns (data: seq<SurveillanceRecord>)
    ensures data == SurveillanceFrom(m, StreamDraws(seed), P, SurveillanceDiseases)
  {
    var rng := new Mulberry32(seed);
    data := SurveillanceLoop(rng, m, P, SurveillanceDiseases);
  }
}
