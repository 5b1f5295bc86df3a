/** frontend/src/generators/seir.ts: the discrete-time SEIR compartment
    model. Every day after day 0 moves clamped flows S -> E -> I -> R,
    each optionally scaled by a factor drawn from the stream. */
module Seir {
  import opened Prelude
  import opened Stream
  import opened Records
  import Sir

  datatype SeirParams = SeirParams(
    beta: real, sigma: real, gamma: real, population: real,
    initialExposed: real, initialInfected: real, days: int, stochastic: bool)

  /** The parameter object, with the source's defaults; `days` defaults
      to the requested count. */
  function ParamsFrom(params: Record, count: int): SeirParams {
    SeirParams(
      RealParam(params, "beta", 0.3),
      RealParam(params, "sigma", 0.2),
      RealParam(params, "gamma", 0.1),
      RealParam(params, "population", 10000.0),
      RealParam(params, "initialExposed", 5.0),
      RealParam(params, "initialInfected", 5.0),
      IntParam(params, "days", count),
      BoolParam(params, "stochastic", false))
  }

  datatype SeirState = SeirState(s: real, e: real, i: real, r: real) {
    function Total(): real { s + e + i + r }
  }

  datatype SeirRecord = SeirRecord(
    day: int, susceptible: real, exposed: real, infected: real, recovered: real,
    newExposures: real, newInfections: real)
  {
    function ToRecord(): Record {
      [("day", Int(day)), ("susceptible", Num(susceptible)), ("exposed", Num(exposed)),
       ("infected", Num(infected)), ("recovered", Num(recovered)),
       ("new_exposures", Num(newExposures)), ("new_infections", Num(newInfections))]
    }
  }

  function Initial(P: SeirParams): SeirState {
    SeirState(P.population - P.initialExposed - P.initialInfected,
              P.initialExposed, P.initialInfected, 0.0)
  }

  /** `(beta * S * I) / N`; with `N = 0` JavaScript computes NaN, taken
      here as no flow. */
  function ExposureRate(beta: real, st: SeirState): real {
    var n := st.Total();
    if n == 0.0 then 0.0 else (beta * st.s * st.i) / n
  }

  /** The three flows of one day after scaling and clamping. */
  datatype Flows = Flows(toE: real, toI: real, toR: real)

  function DayFlows(P: SeirParams, st: SeirState, f1: real, f2: real, f3: real): Flows {
    Flows(MinR(ExposureRate(P.beta, st) * f1, st.s),
          MinR(P.sigma * st.e * f2, st.e),
          MinR(P.gamma * st.i * f3, st.i))
  }

  function Apply(st: SeirState, f: Flows): SeirState {
    SeirState(st.s - f.toE, st.e + f.toE - f.toI, st.i + f.toI - f.toR, st.r + f.toR)
  }

  /** The factors of step `k`: three draws when stochastic, none
      otherwise. */
  function FactorsAt(P: SeirParams, ds: Draws, k: nat): (real, real, real) {
    if P.stochastic then (Sir.Factor(ds(3 * k)), Sir.Factor(ds(3 * k + 1)), Sir.Factor(ds(3 * k + 2)))
    else (1.0, 1.0, 1.0)
  }

  function StepFlows(P: SeirParams, ds: Draws, k: nat, st: SeirState): Flows {
    var f := FactorsAt(P, ds, k);
    DayFlows(P, st, f.0, f.1, f.2)
  }

  /** The state on day `n`. */
  function StateAt(P: SeirParams, ds: Draws, n: nat): SeirState {
    if n == 0 then Initial(P)
    else
      var prev := StateAt(P, ds, n - 1);
      Apply(prev, StepFlows(P, ds, n - 1, prev))
  }

  /** The row of day `n`. */
  function DayRecord(P: SeirParams, ds: Draws, n: nat): SeirRecord {
    var st := StateAt(P, ds, n);
    if n == 0 then
      SeirRecord(0, Round(st.s) as real, Round(st.e) as real, Round(st.i) as real,
                 Round(st.r) as real, P.initialExposed, P.initialInfected)
    else
      var flow := StepFlows(P, ds, n - 1, StateAt(P, ds, n - 1));
      SeirRecord(n, Round(st.s) as real, Round(st.e) as real, Round(st.i) as real,
                 Round(st.r) as real, Round(flow.toE) as real, Round(flow.toI) as real)
  }

  function SeirFrom(P: SeirParams, ds: Draws): seq<SeirRecord> {
    Days(P, ds, Max(P.days, 1))
  }

  /** The rows of days 0 .. k - 1. */
  function Days(P: SeirParams, ds: Draws, k: nat): (s: seq<SeirRecord>)
    ensures |s| == k
  {
    if k == 0 then [] else Days(P, ds, k - 1) + [DayRecord(P, ds, k - 1)]
  }

  lemma {:induction false} DaysIndex(P: SeirParams, ds: Draws, k: nat, n: nat)
    requires n < k
    ensures Days(P, ds, k)[n] == DayRecord(P, ds, n)
  {
    if n < k - 1 {
      DaysIndex(P, ds, k - 1, n);
    }
  }

  /** The number of draws taken by the first `k` steps: three per step
      when stochastic, none otherwise. */
  function DrawsBefore(P: SeirParams, k: nat): nat {
    if P.stochastic then 3 * k else 0
  }

  function DrawsUsed(P: SeirParams): nat {
    DrawsBefore(P, Max(P.days, 1) - 1)
  }

  // ---------------------------------------------------------------
  // Properties
  // ---------------------------------------------------------------

  /** One row per simulated day, at least one, row `n` is day `n`; day 0
      carries the initial compartments and the initial counts as its new
      exposures and infections; every later day's counts are that day's
      clamped flows. */
  lemma SeirShape(P: SeirParams, ds: Draws)
    ensures var data := SeirFrom(P, ds);
      |data| == Max(P.days, 1)
      && (forall n | 0 <= n < |data| :: data[n].day == n)
      && data[0].susceptible == Round(P.population - P.initialExposed - P.initialInfected) as real
      && data[0].exposed == Round(P.initialExposed) as real
      && data[0].infected == Round(P.initialInfected) as real
      && data[0].recovered == 0.0
      && data[0].newExposures == P.initialExposed
      && data[0].newInfections == P.initialInfected
      && (forall n | 0 < n < |data| ::
            var flow := StepFlows(P, ds, n - 1, StateAt(P, ds, n - 1));
            data[n].newExposures == Round(flow.toE) as real
            && data[n].newInfections == Round(flow.toI) as real)
  {
    var data := SeirFrom(P, ds);
    DaysIndex(P, ds, Max(P.days, 1), 0);
    assert data[0] == DayRecord(P, ds, 0);
    forall n | 0 <= n < |data| ensures data[n] == DayRecord(P, ds, n) && data[n].day == n {
      DaysIndex(P, ds, Max(P.days, 1), n);
    }
  }

  /** S + E + I + R equals the population on every day. */
  lemma {:induction false} SeirConservation(P: SeirParams, ds: Draws, n: nat)
    ensures StateAt(P, ds, n).Total() == P.population
  {
    if n > 0 {
      SeirConservation(P, ds, n - 1);
    }
  }

  lemma RateNonNegative(beta: real, st: SeirState)
    requires beta >= 0.0 && st.s >= 0.0 && st.e >= 0.0 && st.i >= 0.0 && st.r >= 0.0
    ensures ExposureRate(beta, st) >= 0.0
  {
    var n := st.Total();
    if n != 0.0 {
      MulMonotone(beta, 0.0, st.s);
      MulMonotone(beta * st.s, 0.0, st.i);
    }
  }

  /** The clamped flows are non-negative and never exceed their source
      compartment. */
  lemma FlowsBounded(P: SeirParams, st: SeirState, f1: real, f2: real, f3: real)
    requires P.beta >= 0.0 && P.sigma >= 0.0 && P.gamma >= 0.0
    requires f1 >= 0.0 && f2 >= 0.0 && f3 >= 0.0
    requires st.s >= 0.0 && st.e >= 0.0 && st.i >= 0.0 && st.r >= 0.0
    ensures var f := DayFlows(P, st, f1, f2, f3);
      0.0 <= f.toE <= st.s && 0.0 <= f.toI <= st.e && 0.0 <= f.toR <= st.i
  {
    RateNonNegative(P.beta, st);
    MulMonotone(ExposureRate(P.beta, st), 0.0, f1);
    MulMonotone(P.sigma, 0.0, st.e);
    MulMonotone(P.sigma * st.e, 0.0, f2);
    MulMonotone(P.gamma, 0.0, st.i);
    MulMonotone(P.gamma * st.i, 0.0, f3);
  }

  /** With non-negative initial compartments and rates, all four
      compartments stay non-negative. */
  lemma {:induction false} SeirNonNegative(P: SeirParams, ds: Draws, n: nat)
    requires 0.0 <= P.initialExposed && 0.0 <= P.initialInfected
    requires P.initialExposed + P.initialInfected <= P.population
    requires P.beta >= 0.0 && P.sigma >= 0.0 && P.gamma >= 0.0
    ensures var st := StateAt(P, ds, n);
      st.s >= 0.0 && st.e >= 0.0 && st.i >= 0.0 && st.r >= 0.0
  {
    if n > 0 {
      SeirNonNegative(P, ds, n - 1);
      var prev := StateAt(P, ds, n - 1);
      var f := FactorsAt(P, ds, n - 1);
      FlowsBounded(P, prev, f.0, f.1, f.2);
    }
  }

  // ---------------------------------------------------------------
  // The generator
  // ---------------------------------------------------------------

  /** The three noise factors of step `k`, drawn only when stochastic. */
  method DrawFactors(rng: Mulberry32, P: SeirParams, ghost k: nat) returns (f1: real, f2: real, f3: real)
    requires rng.Valid() && rng.draws == DrawsBefore(P, k)
    modifies rng
    ensures rng.Valid() && rng.draws == DrawsBefore(P, k + 1)
    ensures (f1, f2, f3) == FactorsAt(P, rng.values, k)
  {
    f1, f2, f3 := 1.0, 1.0, 1.0;
    if P.stochastic {
      var u1 := rng.Next();
      f1 := Sir.Factor(u1);
      var u2 := rng.Next();
      f2 := Sir.Factor(u2);
      var u3 := rng.Next();
      f3 := Sir.Factor(u3);
    }
  }

  /** The flows of one day. */
  method DayStep(rng: Mulberry32, P: SeirParams, ghost k: nat, S: real, E: real, I: real, R: real)
    returns (dSE: real, dEI: real, dIR: real)
    requires rng.Valid() && rng.draws == DrawsBefore(P, k)
    modifies rng
    ensures rng.Valid() && rng.draws == DrawsBefore(P, k + 1)
    ensures dSE == StepFlows(P, rng.values, k, SeirState(S, E, I, R)).toE
    ensures dEI == StepFlows(P, rng.values, k, SeirState(S, E, I, R)).toI
    ensures dIR == StepFlows(P, rng.values, k, SeirState(S, E, I, R)).toR
  {
    dSE := ExposureRate(P.beta, SeirState(S, E, I, R));
    dEI := P.sigma * E;
    dIR := P.gamma * I;
    var f1, f2, f3 := DrawFactors(rng, P, k);
    dSE := MinR(dSE * f1, S);
    dEI := MinR(dEI * f2, E);
    dIR := MinR(dIR * f3, I);
  }

  lemma DayRecordStep(P: SeirParams, ds: Draws, n: nat, prev: SeirState, fl: Flows)
    requires n > 0 && prev == StateAt(P, ds, n - 1) && fl == StepFlows(P, ds, n - 1, prev)
    ensures var st := Apply(prev, fl);
      StateAt(P, ds, n) == st
      && DayRecord(P, ds, n) == SeirRecord(n, Round(st.s) as real, Round(st.e) as real,
                                           Round(st.i) as real, Round(st.r) as real,
                                           Round(fl.toE) as real, Round(fl.toI) as real)
  {
  }

  /** One pass of the day loop. */
  method NextDay(rng: Mulberry32, P: SeirParams, n: nat, S: real, E: real, I: real, R: real)
    returns (S': real, E': real, I': real, R': real, row: SeirRecord)
    requires n > 0 && rng.Valid() && rng.draws == DrawsBefore(P, n - 1)
    requires StateAt(P, rng.values, n - 1) == SeirState(S, E, I, R)
    modifies rng
    ensures rng.Valid() && rng.draws == DrawsBefore(P, n)
    ensures StateAt(P, rng.values, n) == SeirState(S', E', I', R')
    ensures row == DayRecord(P, rng.values, n)
  {
    var dSE, dEI, dIR := DayStep(rng, P, n - 1, S, E, I, R);
    DayRecordStep(P, rng.values, n, SeirState(S, E, I, R), Flows(dSE, dEI, dIR));
    S' := S - dSE;
    E' := E + dSE - dEI;
    I' := I + dEI - dIR;
    R' := R + dIR;
    row := SeirRecord(n, Round(S') as real, Round(E') as real, Round(I') as real,
                      Round(R') as real, Round(dSE) as real, Round(dEI) as real);
  }

  /** The loop of `generateSEIR`. */
  method SeirLoop(rng: Mulberry32, P: SeirParams) returns (data: seq<SeirRecord>)
    requires rng.Valid() && rng.draws == 0
    modifies rng
    ensures rng.Valid() && rng.draws == DrawsUsed(P)
    ensures data == SeirFrom(P, rng.values)
  {
    var S := P.population - P.initialExposed - P.initialInfected;
    var E := P.initialExposed;
    var I := P.initialInfected;
    var R := 0.0;
    data := [SeirRecord(0, Round(S) as real, Round(E) as real, Round(I) as real, Round(R) as real,
                        P.initialExposed, P.initialInfected)];
    assert data == Days(P, rng.values, 1);
    var day := 1;
    while day < P.days
      invariant 1 <= day <= Max(P.days, 1)
      invariant rng.Valid()
      invariant rng.draws == DrawsBefore(P, day - 1)
      invariant StateAt(P, rng.values, day - 1) == SeirState(S, E, I, R)
      invariant data == Days(P, rng.values, day)
    {
      var row;
      S, E, I, R, row := NextDay(rng, P, day, S, E, I, R);
      data := data + [row];
      day := day + 1;
    }
    assert day == Max(P.days, 1);
  }

  /** `generateSEIR(count, seed, params)`. */
  method GenerateSeir(seed: int, P: SeirParams) returns (data: seq<SeirRecord>)
    ensures data == SeirFrom(P, StreamDraws(seed))
  {
    var rng := new Mulberry32(seed);
    data := SeirLoop(rng, P);
  }
}
