/** The backend's numpy models (backend/app/epidemic_generators.py): the
    SIR and SEIR compartment models, whose columns are numpy arrays
    written day by day, and the Kaplan-Meier survival sample.

    Unlike the frontend simulators, these steps clamp nothing: a
    compartment can go negative. Numpy's samplers are the abstract
    `Variates` of the seeded generator; a division by a zero population
    (an IEEE infinity or NaN in numpy) is outside the model. */
module NumpyEpidemics {
  import opened Prelude
  import opened Stream
  import opened NumpyRandom

  /** `np.ones(n_days)` and friends with a negative size. */
  const NegativeDimensions: string := "negative dimensions are not allowed"

  /** The state after `day` one-day steps from `start`. */
  function Run<T>(step: T -> T, start: T, day: nat): T {
    if day == 0 then start else step(Run(step, start, day - 1))
  }

  // ---------------------------------------------------------------
  // SIR
  // ---------------------------------------------------------------

  datatype SirDay = SirDay(s: real, i: real, r: real)

  /** The compartments of day `day`: S = population, I = 10, R = 0 on
      day 0, then one explicit step per day, moving
      `beta * S * I / population` from S to I and `gamma * I` from I to R. */
  function SirAt(population: int, beta: real, gamma: real, day: nat): SirDay
    requires population != 0
  {
    Run(SirStepOf(population, beta, gamma), SirDay(population as real, 10.0, 0.0), day)
  }

  function SirStepOf(population: int, beta: real, gamma: real): SirDay -> SirDay
    requires population != 0
  {
    p => SirStep(p, population, beta, gamma)
  }

  /** One day of `sir`'s loop. */
  function SirStep(p: SirDay, population: int, beta: real, gamma: real): SirDay
    requires population != 0
  {
    var newInfected := beta * p.s * p.i / (population as real);
    var newRecovered := gamma * p.i;
    SirDay(p.s - newInfected, p.i + newInfected - newRecovered, p.r + newRecovered)
  }

  /** Every step moves people between compartments and nowhere else, so
      S + I + R stays at the population plus the 10 initial infected. */
  lemma {:induction false} SirConserved(population: int, beta: real, gamma: real, day: nat)
    requires population != 0
    ensures var d := SirAt(population, beta, gamma, day); d.s + d.i + d.r == population as real + 10.0
  {
    if day > 0 {
      SirConserved(population, beta, gamma, day - 1);
      assert SirAt(population, beta, gamma, day)
          == SirStep(SirAt(population, beta, gamma, day - 1), population, beta, gamma);
    }
  }

  /** Nothing is clamped: with population 10, R0 10 and gamma 1, day 1
      moves 100 people out of a susceptible compartment of 10. */
  lemma SirGoesNegative()
    ensures SirAt(10, 10.0 * 1.0, 1.0, 1).s == -90.0
  {
    assert SirAt(10, 10.0, 1.0, 0) == SirDay(10.0, 10.0, 0.0);
  }

  /** The columns of the returned frame. */
  datatype SirFrame = SirFrame(day: seq<int>, susceptible: seq<real>, infected: seq<real>, recovered: seq<real>)

  // ---------------------------------------------------------------
  // SEIR
  // ---------------------------------------------------------------

  datatype SeirDay = SeirDay(s: real, e: real, i: real, r: real)

  /** The compartments of day `day`: E starts at 0; each step moves
      `beta * S * I / population` from S to E, `sigma * E` from E to I
      and `gamma * I` from I to R. */
  function SeirAt(population: int, beta: real, sigma: real, gamma: real, day: nat): SeirDay
    requires population != 0
  {
    Run(SeirStepOf(population, beta, sigma, gamma), SeirDay(population as real, 0.0, 10.0, 0.0), day)
  }

  function SeirStepOf(population: int, beta: real, sigma: real, gamma: real): SeirDay -> SeirDay
    requires population != 0
  {
    p => SeirStep(p, population, beta, sigma, gamma)
  }

  /** One day of `seir`'s loop. */
  function SeirStep(p: SeirDay, population: int, beta: real, sigma: real, gamma: real): SeirDay
    requires population != 0
  {
    var newExposed := beta * p.s * p.i / (population as real);
    var newInfected := sigma * p.e;
    var newRecovered := gamma * p.i;
    SeirDay(p.s - newExposed, p.e + newExposed - newInfected, p.i + newInfected - newRecovered,
            p.r + newRecovered)
  }

  /** S + E + I + R stays at the population plus the 10 initial infected. */
  lemma {:induction false} SeirConserved(population: int, beta: real, sigma: real, gamma: real, day: nat)
    requires population != 0
    ensures var d := SeirAt(population, beta, sigma, gamma, day);
      d.s + d.e + d.i + d.r == population as real + 10.0
  {
    if day > 0 {
      SeirConserved(population, beta, sigma, gamma, day - 1);
      assert SeirAt(population, beta, sigma, gamma, day)
          == SeirStep(SeirAt(population, beta, sigma, gamma, day - 1), population, beta, sigma, gamma);
    }
  }

  datatype SeirFrame = SeirFrame(day: seq<int>, susceptible: seq<real>, exposed: seq<real>,
                                 infected: seq<real>, recovered: seq<real>)

  class EpidemicGenerator {
    const np: Generator

    /** `__init__`: reseeds the process-wide generator. */
    constructor (seed: int, np: Generator)
      modifies np
      ensures this.np == np && np.seed == seed && np.calls == 0
    {
      this.np := np;
      np.Seed(seed);
    }

    /** The columns of `sir`: `np.ones(n) * population`, `np.ones(n) * 10`
        and `np.zeros(n)`, then day `i` written from day `i - 1`. */
    static method SirColumns(n: nat, start: SirDay, step: SirDay -> SirDay)
      returns (S: array<real>, I: array<real>, R: array<real>)
      ensures fresh(S) && fresh(I) && fresh(R) && S.Length == n && I.Length == n && R.Length == n
      ensures forall d {:trigger S[d]} | 0 <= d < n :: SirDay(S[d], I[d], R[d]) == Run(step, start, d)
    {
      S := new real[n](_ => start.s);
      I := new real[n](_ => start.i);
      R := new real[n](_ => start.r);
      var i := 1;
      while i < n
        invariant 1 <= i && (n > 0 ==> i <= n)
        invariant forall d {:trigger S[d]} | 0 <= d < i && d < n :: SirDay(S[d], I[d], R[d]) == Run(step, start, d)
      {
        label Before:
        var next := step(SirDay(S[i - 1], I[i - 1], R[i - 1]));
        assert next == Run(step, start, i);
        S[i] := next.s;
        I[i] := next.i;
        R[i] := next.r;
        forall d | 0 <= d < i + 1 && d < n
          ensures SirDay(S[d], I[d], R[d]) == Run(step, start, d)
        {
          if d < i {
            assert S[d] == old@Before(S[d]) && I[d] == old@Before(I[d]) && R[d] == old@Before(R[d]);
          }
        }
        i := i + 1;
      }
    }

    /** The columns of `seir`, written the same way. */
    static method SeirColumns(n: nat, start: SeirDay, step: SeirDay -> SeirDay)
      returns (S: array<real>, E: array<real>, I: array<real>, R: array<real>)
      ensures fresh(S) && fresh(E) && fresh(I) && fresh(R)
      ensures S.Length == n && E.Length == n && I.Length == n && R.Length == n
      ensures forall d {:trigger S[d]} | 0 <= d < n :: SeirDay(S[d], E[d], I[d], R[d]) == Run(step, start, d)
    {
      S := new real[n](_ => start.s);
      E := new real[n](_ => start.e);
      I := new real[n](_ => start.i);
      R := new real[n](_ => start.r);
      var i := 1;
      while i < n
        invariant 1 <= i && (n > 0 ==> i <= n)
        invariant forall d {:trigger S[d]} | 0 <= d < i && d < n ::
          SeirDay(S[d], E[d], I[d], R[d]) == Run(step, start, d)
      {
        label Before:
        var next := step(SeirDay(S[i - 1], E[i - 1], I[i - 1], R[i - 1]));
        assert next == Run(step, start, i);
        S[i] := next.s;
        E[i] := next.e;
        I[i] := next.i;
        R[i] := next.r;
        forall d | 0 <= d < i + 1 && d < n
          ensures SeirDay(S[d], E[d], I[d], R[d]) == Run(step, start, d)
        {
          if d < i {
            assert S[d] == old@Before(S[d]) && E[d] == old@Before(E[d])
                && I[d] == old@Before(I[d]) && R[d] == old@Before(R[d]);
          }
        }
        i := i + 1;
      }
    }

    /** `sir`: `n_days` rows; `beta = R0 * gamma`. */
    method Sir(nDays: int, population: int, r0: real, gamma: real) returns (r: Result<SirFrame, string>)
      requires population != 0
      ensures r.Failure? <==> nDays < 0
      ensures r.Failure? ==> r.error == NegativeDimensions
      ensures r.Success? ==> var f := r.value;
        |f.day| == nDays && |f.susceptible| == nDays && |f.infected| == nDays && |f.recovered| == nDays
        && forall d | 0 <= d < nDays :: f.day[d] == d
             && SirDay(f.susceptible[d], f.infected[d], f.recovered[d]) == SirAt(population, r0 * gamma, gamma, d)
    {
      if nDays < 0 {
        return Failure(NegativeDimensions);
      }
      var S, I, R := SirColumns(nDays, SirDay(population as real, 10.0, 0.0), SirStepOf(population, r0 * gamma, gamma));
      r := Success(SirFrame(seq(nDays, d => d), S[..], I[..], R[..]));
    }

    /** `seir`: `n_days` rows; `beta = R0 * gamma`; `latent_period` is
        accepted and never read. */
    method Seir(nDays: int, population: int, r0: real, sigma: real, gamma: real, latentPeriod: int)
      returns (r: Result<SeirFrame, string>)
      requires population != 0
      ensures r.Failure? <==> nDays < 0
      ensures r.Failure? ==> r.error == NegativeDimensions
      ensures r.Success? ==> var f := r.value;
        |f.day| == nDays && |f.susceptible| == nDays && |f.exposed| == nDays
        && |f.infected| == nDays && |f.recovered| == nDays
        && forall d | 0 <= d < nDays :: f.day[d] == d
             && SeirDay(f.susceptible[d], f.exposed[d], f.infected[d], f.recovered[d])
                == SeirAt(population, r0 * gamma, sigma, gamma, d)
    {
      if nDays < 0 {
        return Failure(NegativeDimensions);
      }
      var S, E, I, R := SeirColumns(nDays, SeirDay(population as real, 0.0, 10.0, 0.0),
                                    SeirStepOf(population, r0 * gamma, sigma, gamma));
      r := Success(SeirFrame(seq(nDays, d => d), S[..], E[..], I[..], R[..]));
    }
  }

  // ---------------------------------------------------------------
  // Kaplan-Meier sample
  // ---------------------------------------------------------------

  /** `astype(int)`: truncation toward zero. */
  function Truncate(x: real): int {
    if x >= 0.0 then x.Floor else -((-x).Floor)
  }

  /** `np.clip(x, lo, hi)` with `lo <= hi`. */
  function Clip(x: int, lo: int, hi: int): int {
    if x < lo then lo else if x > hi then hi else x
  }

  datatype Subject = Subject(subjectId: int, age: int, sex: string, followupDays: real, event: nat, censored: int)

  /** Row `i` of a sample of `n` whose vectors start at draw `q`: the
      exponential times, then the binomial events, then the normal ages,
      then the sexes, each vector taking `n` consecutive draws. */
  function SubjectAt(v: Variates, ds: Draws, q: nat, n: nat, followupDays: int, eventRate: real, i: nat): Subject {
    SubjectRow(i, v.exponential(200.0, ds(q + i)), v.binomial(1, eventRate, ds(q + n + i)),
               v.normal(50.0, 15.0, ds(q + 2 * n + i)), ScaledFloor(ds(q + 3 * n + i), 2), followupDays)
  }

  /** Row `i` from its drawn time, event, normal age and sex index: the
      age truncated and clipped to [18, 85], the time capped at the study's
      follow-up and `censored` the complement of the event. */
  function SubjectRow(i: nat, time: real, event: nat, normal: real, sexIndex: nat, followupDays: int): Subject
    requires sexIndex < 2
  {
    Subject(i + 1, Clip(Truncate(normal), 18, 85), ["M", "F"][sexIndex], MinR(time, followupDays as real),
            event, 1 - event)
  }

  /** The frame `kaplan_meier` assembles from its four drawn columns. */
  function SubjectRows(times: seq<real>, events: seq<nat>, normals: seq<real>, sexes: seq<nat>, followupDays: int)
    : seq<Subject>
    requires |events| == |times| && |normals| == |times| && |sexes| == |times|
    requires forall i | 0 <= i < |sexes| :: sexes[i] < 2
  {
    seq(|times|, i requires 0 <= i < |times| =>
      SubjectRow(i, times[i], events[i], normals[i], sexes[i], followupDays))
  }

  /** The four columns, each taking `n` consecutive draws from `at`. */
  function TimesAt(v: Variates, ds: Draws, at: nat, n: nat): seq<real> {
    seq(n, i requires 0 <= i < n => v.exponential(200.0, ds(at + i)))
  }

  function EventsAt(v: Variates, ds: Draws, at: nat, n: nat, eventRate: real): seq<nat> {
    seq(n, i requires 0 <= i < n => v.binomial(1, eventRate, ds(at + i)))
  }

  function NormalsAt(v: Variates, ds: Draws, at: nat, n: nat): seq<real> {
    seq(n, i requires 0 <= i < n => v.normal(50.0, 15.0, ds(at + i)))
  }

  function SexesAt(ds: Draws, at: nat, n: nat): (sexes: seq<nat>)
    ensures |sexes| == n && forall i | 0 <= i < n :: sexes[i] < 2
  {
    var indices := seq(n, i requires 0 <= i < n => ScaledFloor(ds(at + i), 2));
    assert forall i | 0 <= i < n :: indices[i] == ScaledFloor(ds(at + i), 2);
    assert forall i | 0 <= i < n :: 0 <= indices[i] < 2;
    indices
  }

  /** Columns drawn from consecutive blocks of `n` draws assemble into
      the rows `SubjectAt` describes. */
  lemma AssembledRows(v: Variates, ds: Draws, q: nat, n: nat, followupDays: int, eventRate: real)
    ensures SubjectRows(TimesAt(v, ds, q, n), EventsAt(v, ds, q + n, n, eventRate), NormalsAt(v, ds, q + 2 * n, n),
                        SexesAt(ds, q + 3 * n, n), followupDays)
         == Subjects(v, ds, q, n, followupDays, eventRate)
  {
  }

  /** The `n` rows of a sample whose draws start at `q`. */
  function Subjects(v: Variates, ds: Draws, q: nat, n: nat, followupDays: int, eventRate: real): (rows: seq<Subject>)
    ensures |rows| == n && forall i | 0 <= i < n :: rows[i] == SubjectAt(v, ds, q, n, followupDays, eventRate, i)
  {
    seq(n, i requires 0 <= i < n => SubjectAt(v, ds, q, n, followupDays, eventRate, i))
  }

  /** Every row: ids count from 1, ages lie in [18, 85] and are the
      truncated normal draw when that is in range, the sex is M or F,
      the follow-up never exceeds the study's (and is not negative when
      that is not), the event is 0 or 1 and `censored` is its complement. */
  lemma SubjectRanges(v: Variates, ds: Draws, q: nat, n: nat, followupDays: int, eventRate: real, i: nat)
    ensures var row := SubjectAt(v, ds, q, n, followupDays, eventRate, i);
      row.subjectId == i + 1
      && 18 <= row.age <= 85
      && (var a := Truncate(v.normal(50.0, 15.0, ds(q + 2 * n + i))); 18 <= a <= 85 ==> row.age == a)
      && (row.sex == "M" || row.sex == "F")
      && row.followupDays <= followupDays as real
      && (followupDays >= 0 ==> row.followupDays >= 0.0)
      && row.event <= 1 && row.censored == 1 - row.event && row.event + row.censored == 1
      && (row.censored == 1 <==> row.event == 0)
  {
  }

  /** `Truncate` rounds toward zero. */
  lemma TruncateTowardZero(x: real)
    ensures x >= 0.0 ==> 0.0 <= Truncate(x) as real <= x < Truncate(x) as real + 1.0
    ensures x < 0.0 ==> Truncate(x) as real - 1.0 < x <= Truncate(x) as real <= 0.0
  {
  }

  class SurvivalGenerator {
    const np: Generator

    constructor (seed: int, np: Generator)
      modifies np
      ensures this.np == np && np.seed == seed && np.calls == 0
    {
      this.np := np;
      np.Seed(seed);
    }

    /** The follow-up times' exponential draws, then the events' binomial
        draws, which fail for a rate outside [0, 1]. */
    method DrawOutcomes(n: nat, eventRate: real) returns (times: seq<real>, events: Result<seq<nat>, string>)
      modifies np
      ensures np.seed == old(np.seed)
      ensures times == TimesAt(np.variates, np.streams(np.seed), old(np.calls), n)
      ensures events.Failure? <==> !(0.0 <= eventRate <= 1.0)
      ensures events.Failure? ==> events.error == "p < 0, p > 1 or p is NaN" && np.calls == old(np.calls) + n
      ensures events.Success? ==>
        events.value == EventsAt(np.variates, np.streams(np.seed), old(np.calls) + n, n, eventRate)
        && np.calls == old(np.calls) + 2 * n
    {
      times := np.ExponentialVector(200.0, n);
      events := np.BinomialVector(1, eventRate, n);
    }

    /** The ages' normal draws, then the sexes' choice between two. */
    method DrawCovariates(n: nat) returns (normals: seq<real>, sexes: seq<nat>)
      modifies np
      ensures np.seed == old(np.seed) && np.calls == old(np.calls) + 2 * n
      ensures normals == NormalsAt(np.variates, np.streams(np.seed), old(np.calls), n)
      ensures sexes == SexesAt(np.streams(np.seed), old(np.calls) + n, n)
    {
      normals := np.NormalVector(50.0, 15.0, n);
      label BeforeSexes:
      var choice := np.ChoiceVector(2, n);
      sexes := choice.value;
      forall i | 0 <= i < n
        ensures sexes[i] == ScaledFloor(np.streams(np.seed)(old(np.calls) + n + i), 2)
      {
        assert old@BeforeSexes(np.Ahead(i)) == np.streams(np.seed)(old(np.calls) + n + i);
      }
    }

    /** `kaplan_meier`: a negative size fails before any draw, an event
        rate outside [0, 1] after the times are drawn. */
    method KaplanMeier(nSubjects: int, followupDays: int, eventRate: real) returns (r: Result<seq<Subject>, string>)
      modifies np
      ensures np.seed == old(np.seed)
      ensures nSubjects < 0 ==> r == Failure(NegativeDimensions) && np.calls == old(np.calls)
      ensures nSubjects >= 0 && !(0.0 <= eventRate <= 1.0) ==>
        r == Failure("p < 0, p > 1 or p is NaN") && np.calls == old(np.calls) + nSubjects
      ensures nSubjects >= 0 && 0.0 <= eventRate <= 1.0 ==>
        r == Success(Subjects(np.variates, np.streams(np.seed), old(np.calls), nSubjects, followupDays, eventRate))
        && np.calls == old(np.calls) + 4 * nSubjects
    {
      if nSubjects < 0 {
        return Failure(NegativeDimensions);
      }
      var n: nat := nSubjects;
      ghost var ds, q := np.streams(np.seed), np.calls;
      var times, events := DrawOutcomes(n, eventRate);
      if events.Failure? {
        return Failure(events.error);
      }
      var normals, sexes := DrawCovariates(n);
      AssembledRows(np.variates, ds, q, n, followupDays, eventRate);
      var rows := SubjectRows(times, events.value, normals, sexes, followupDays);
      r := Success(rows);
    }
  }
}
