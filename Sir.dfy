/** frontend/src/generators/sir.ts: the discrete-time SIR compartment
    model. Day 0 is the initial state; every later day moves a clamped
    flow from S to I and from I to R, each optionally scaled by a factor
    drawn from the stream. Compartments are reals; only the recorded
    values are rounded. */
module Sir {
  import opened Prelude
  import opened Stream
  import opened Records

  datatype SirParams = SirParams(
    beta: real, gamma: real, population: real, initialInfected: real,
    days: int, stochastic: bool)

  /** The parameter object, with the source's defaults; `days` defaults
      to the requested count. */
  function ParamsFrom(params: Record, count: int): SirParams {
    SirParams(
      RealParam(params, "beta", 0.3),
      RealParam(params, "gamma", 0.1),
      RealParam(params, "population", 10000.0),
      RealParam(params, "initialInfected", 10.0),
      IntParam(params, "days", count),
      BoolParam(params, "stochastic", false))
  }

  /** The compartments and the running total of infections. */
  datatype SirState = SirState(s: real, i: real, r: real, cumulative: real) {
    function Total(): real { s + i + r }
  }

  /** One output row. Every field is a JavaScript number: the day-0
      infection counts are the parameter itself, the others are rounded. */
  datatype SirRecord = SirRecord(
    day: int, susceptible: real, infected: real, recovered: real,
    newInfections: real, cumulativeInfections: real)
  {
    function ToRecord(): Record {
      [("day", Int(day)), ("susceptible", Num(susceptible)), ("infected", Num(infected)),
       ("recovered", Num(recovered)), ("new_infections", Num(newInfections)),
       ("cumulative_infections", Num(cumulativeInfections))]
    }
  }

  function Initial(P: SirParams): SirState {
    SirState(P.population - P.initialInfected, P.initialInfected, 0.0, P.initialInfected)
  }

  /** `1 + (rng() - 0.5) * 0.2`: a factor in [0.9, 1.1). */
  function Factor(u: real): (f: real)
    requires 0.0 <= u < 1.0
    ensures 0.9 <= f < 1.1
  {
    1.0 + (u - 0.5) * 0.2
  }

  /** `(beta * S * I) / N`; with `N = 0` JavaScript computes NaN, taken
      here as no flow. */
  function InfectionRate(beta: real, st: SirState): real {
    var n := st.Total();
    if n == 0.0 then 0.0 else (beta * st.s * st.i) / n
  }

  /** The two flows of one day after scaling and clamping. */
  datatype Flows = Flows(toI: real, toR: real)

  function DayFlows(P: SirParams, st: SirState, f1: real, f2: real): Flows {
    var dSI := InfectionRate(P.beta, st) * f1;
    var dIR := P.gamma * st.i * f2;
    Flows(MinR(dSI, st.s), MinR(dIR, st.i))
  }

  function Apply(st: SirState, f: Flows): SirState {
    SirState(st.s - f.toI, st.i + f.toI - f.toR, st.r + f.toR, st.cumulative + f.toI)
  }

  /** The factors of step `k` (the step that produces day `k + 1`): two
      draws when stochastic, none otherwise. */
  function FactorsAt(P: SirParams, ds: Draws, k: nat): (real, real) {
    if P.stochastic then (Factor(ds(2 * k)), Factor(ds(2 * k + 1))) else (1.0, 1.0)
  }

  /** The flows of step `k` from the state `st`. */
  function StepFlows(P: SirParams, ds: Draws, k: nat, st: SirState): Flows {
    var f := FactorsAt(P, ds, k);
    DayFlows(P, st, f.0, f.1)
  }

  /** The state on day `n`. */
  function StateAt(P: SirParams, ds: Draws, n: nat): SirState {
    if n == 0 then Initial(P)
    else
      var prev := StateAt(P, ds, n - 1);
      Apply(prev, StepFlows(P, ds, n - 1, prev))
  }

  /** The row of day `n`. */
  function DayRecord(P: SirParams, ds: Draws, n: nat): SirRecord {
    var st := StateAt(P, ds, n);
    if n == 0 then
      SirRecord(0, Round(st.s) as real, Round(st.i) as real, Round(st.r) as real,
                P.initialInfected, st.cumulative)
    else
      var flow := StepFlows(P, ds, n - 1, StateAt(P, ds, n - 1));
      SirRecord(n, Round(st.s) as real, Round(st.i) as real, Round(st.r) as real,
                Round(flow.toI) as real, Round(st.cumulative) as real)
  }

  /** The whole output: day 0 always, then days 1 .. days - 1. */
  function SirFrom(P: SirParams, ds: Draws): seq<SirRecord> {
    Days(P, ds, Max(P.days, 1))
  }

  /** The rows of days 0 .. k - 1. */
  function Days(P: SirParams, ds: Draws, k: nat): (s: seq<SirRecord>)
    ensures |s| == k
  {
    if k == 0 then [] else Days(P, ds, k - 1) + [DayRecord(P, ds, k - 1)]
  }

  lemma {:induction false} DaysIndex(P: SirParams, ds: Draws, k: nat, n: nat)
    requires n < k
    ensures Days(P, ds, k)[n] == DayRecord(P, ds, n)
  {
    if n < k - 1 {
      DaysIndex(P, ds, k - 1, n);
    }
  }

  /** The number of draws taken by the first `k` steps: two per step
      when stochastic, none otherwise. */
  function DrawsBefore(P: SirParams, k: nat): nat {
    if P.stochastic then 2 * k else 0
  }

  /** The number of draws the simulation takes. */
  function DrawsUsed(P: SirParams): nat {
    DrawsBefore(P, Max(P.days, 1) - 1)
  }

  // ---------------------------------------------------------------
  // Properties
  // ---------------------------------------------------------------

  /** The output has one row per simulated day, at least one, and row `n`
      is day `n`; day 0 carries the initial compartments. */
  lemma SirShape(P: SirParams, ds: Draws)
    ensures var data := SirFrom(P, ds);
      |data| == Max(P.days, 1)
      && (forall n | 0 <= n < |data| :: data[n].day == n)
      && data[0].susceptible == Round(P.population - P.initialInfected) as real
      && data[0].infected == Round(P.initialInfected) as real
      && data[0].recovered == 0.0
      && data[0].newInfections == P.initialInfected
      && data[0].cumulativeInfections == P.initialInfected
  {
    var data := SirFrom(P, ds);
    forall n | 0 <= n < |data| ensures data[n].day == n {
      DaysIndex(P, ds, Max(P.days, 1), n);
    }
    DaysIndex(P, ds, Max(P.days, 1), 0);
  }

  /** Every step moves people between compartments and so keeps the
      total: S + I + R equals the population on every day. */
  lemma {:induction false} SirConservation(P: SirParams, ds: Draws, n: nat)
    ensures StateAt(P, ds, n).Total() == P.population
  {
    if n > 0 {
      SirConservation(P, ds, n - 1);
    }
  }

  /** The clamped flows are non-negative and never exceed their source
      compartment, as long as the compartments, rates and factors are
      non-negative. */
  lemma FlowsBounded(P: SirParams, st: SirState, f1: real, f2: real)
    requires P.beta >= 0.0 && P.gamma >= 0.0 && f1 >= 0.0 && f2 >= 0.0
    requires st.s >= 0.0 && st.i >= 0.0 && st.r >= 0.0
    ensures var f := DayFlows(P, st, f1, f2);
      0.0 <= f.toI <= st.s && 0.0 <= f.toR <= st.i
  {
    var n := st.Total();
    if n != 0.0 {
      assert P.beta * st.s >= 0.0;
      assert P.beta * st.s * st.i >= 0.0;
      assert (P.beta * st.s * st.i) / n >= 0.0;
    }
    var rate := InfectionRate(P.beta, st);
    assert rate * f1 >= 0.0;
    assert P.gamma * st.i >= 0.0;
    assert P.gamma * st.i * f2 >= 0.0;
  }

  /** With a population at least the initial infections, both at least
      zero, and non-negative rates, no compartment ever goes negative, and
      the running infection total never decreases. */
  lemma {:induction false} SirNonNegative(P: SirParams, ds: Draws, n: nat)
    requires 0.0 <= P.initialInfected <= P.population
    requires P.beta >= 0.0 && P.gamma >= 0.0
    ensures var st := StateAt(P, ds, n);
      st.s >= 0.0 && st.i >= 0.0 && st.r >= 0.0 && st.cumulative >= P.initialInfected
  {
    if n > 0 {
      SirNonNegative(P, ds, n - 1);
      var prev := StateAt(P, ds, n - 1);
      var f := FactorsAt(P, ds, n - 1);
      FlowsBounded(P, prev, f.0, f.1);
    }
  }

  /** The running total grows by exactly the day's infections, which are
      non-negative: it never decreases. */
  lemma CumulativeGrows(P: SirParams, ds: Draws, n: nat)
    requires 0.0 <= P.initialInfected <= P.population
    requires P.beta >= 0.0 && P.gamma >= 0.0
    ensures var prev := StateAt(P, ds, n);
      var next := StateAt(P, ds, n + 1);
      next.cumulative == prev.cumulative + StepFlows(P, ds, n, prev).toI
      && next.cumulative >= prev.cumulative
  {
    SirNonNegative(P, ds, n);
    var prev := StateAt(P, ds, n);
    var f := FactorsAt(P, ds, n);
    FlowsBounded(P, prev, f.0, f.1);
  }

  /** Without noise no draw is read: the output does not depend on the
      seed. */
  lemma {:induction false} DeterministicStates(P: SirParams, ds1: Draws, ds2: Draws, n: nat)
    requires !P.stochastic
    ensures StateAt(P, ds1, n) == StateAt(P, ds2, n)
  {
    if n > 0 {
      DeterministicStates(P, ds1, ds2, n - 1);
    }
  }

  lemma Deterministic(P: SirParams, ds1: Draws, ds2: Draws)
    requires !P.stochastic
    ensures SirFrom(P, ds1) == SirFrom(P, ds2)
  {
    var a := SirFrom(P, ds1);
    var b := SirFrom(P, ds2);
    forall n | 0 <= n < |a| ensures a[n] == b[n] {
      DaysIndex(P, ds1, Max(P.days, 1), n);
      DaysIndex(P, ds2, Max(P.days, 1), n);
      DeterministicStates(P, ds1, ds2, n);
      if n > 0 {
        DeterministicStates(P, ds1, ds2, n - 1);
      }
    }
  }

  // ---------------------------------------------------------------
  // The generator
  // ---------------------------------------------------------------

  /** The flows of one day, drawing the two factors when stochastic. */
  method DayStep(rng: Mulberry32, P: SirParams, ghost k: nat, S: real, I: real, R: real, ghost c: real)
    returns (dSI: real, dIR: real)
    requires rng.Valid() && rng.draws == DrawsBefore(P, k)
    modifies rng
    ensures rng.Valid() && rng.draws == DrawsBefore(P, k + 1)
    ensures dSI == StepFlows(P, rng.values, k, SirState(S, I, R, c)).toI
    ensures dIR == StepFlows(P, rng.values, k, SirState(S, I, R, c)).toR
  {
    dSI := InfectionRate(P.beta, SirState(S, I, R, 0.0));
    dIR := P.gamma * I;
    var f1, f2 := 1.0, 1.0;
    if P.stochastic {
      var u1 := rng.Next();
      f1 := Factor(u1);
      var u2 := rng.Next();
      f2 := Factor(u2);
    }
    assert (f1, f2) == FactorsAt(P, rng.values, k);
    dSI := MinR(dSI * f1, S);
    dIR := MinR(dIR * f2, I);
  }

  /** Day `n`'s row, once its step's flows are known. */
  lemma DayRecordStep(P: SirParams, ds: Draws, n: nat, prev: SirState, fl: Flows)
    requires n > 0 && prev == StateAt(P, ds, n - 1) && fl == StepFlows(P, ds, n - 1, prev)
    ensures var st := Apply(prev, fl);
      StateAt(P, ds, n) == st
      && DayRecord(P, ds, n) == SirRecord(n, Round(st.s) as real, Round(st.i) as real,
                                          Round(st.r) as real, Round(fl.toI) as real,
                                          Round(st.cumulative) as real)
  {
  }

  /** One pass of the day loop: the flows, the updated compartments and
      the row pushed for day `n`. */
  method NextDay(rng: Mulberry32, P: SirParams, n: nat, S: real, I: real, R: real, cumulative: real)
    returns (S': real, I': real, R': real, cumulative': real, row: SirRecord)
    requires n > 0 && rng.Valid() && rng.draws == DrawsBefore(P, n - 1)
    requires StateAt(P, rng.values, n - 1) == SirState(S, I, R, cumulative)
    modifies rng
    ensures rng.Valid() && rng.draws == DrawsBefore(P, n)
    ensures StateAt(P, rng.values, n) == SirState(S', I', R', cumulative')
    ensures row == DayRecord(P, rng.values, n)
  {
    var dSI, dIR := DayStep(rng, P, n - 1, S, I, R, cumulative);
    DayRecordStep(P, rng.values, n, SirState(S, I, R, cumulative), Flows(dSI, dIR));
    S' := S - dSI;
    I' := I + dSI - dIR;
    R' := R + dIR;
    cumulative' := cumulative + dSI;
    row := SirRecord(n, Round(S') as real, Round(I') as real, Round(R') as real,
                     Round(dSI) as real, Round(cumulative') as real);
  }

  /** The loop of `generateSIR`: the compartments are variables updated
      in place each day, and one row is pushed per day. */
  method SirLoop(rng: Mulberry32, P: SirParams) returns (data: seq<SirRecord>)
    requires rng.Valid() && rng.draws == 0
    modifies rng
    ensures rng.Valid() && rng.draws == DrawsUsed(P)
    ensures data == SirFrom(P, rng.values)
  {
    var S := P.population - P.initialInfected;
    var I := P.initialInfected;
    var R := 0.0;
    var cumulative := P.initialInfected;
    data := [SirRecord(0, Round(S) as real, Round(I) as real, Round(R) as real,
                       P.initialInfected, cumulative)];
    assert data == Days(P, rng.values, 1);
    var day := 1;
    while day < P.days
      invariant 1 <= day <= Max(P.days, 1)
      invariant rng.Valid()
      invariant rng.draws == DrawsBefore(P, day - 1)
      invariant StateAt(P, rng.values, day - 1) == SirState(S, I, R, cumulative)
      invariant data == Days(P, rng.values, day)
    {
      var row;
      S, I, R, cumulative, row := NextDay(rng, P, day, S, I, R, cumulative);
      data := data + [row];
      day := day + 1;
    }
    assert day == Max(P.days, 1);
  }

  /** `generateSIR(count, seed, params)`. */
  method GenerateSir(seed: int, P: SirParams) returns (data: seq<SirRecord>)
    ensures data == SirFrom(P, StreamDraws(seed))
  {
    var rng := new Mulberry32(seed);
    data := SirLoop(rng, P);
  }
}
