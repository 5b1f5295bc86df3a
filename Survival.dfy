/** frontend/src/generators/survival.ts: a right-censored survival
    cohort. Each subject's true event time is exponential with a rate set
    by its arm; the observed time is the least of that time, a censoring
    time and the end of follow-up. */
module Survival {
  import opened Prelude
  import opened Stream
  import opened Text
  import opened Sampling
  import opened Records

  datatype SurvivalParams = SurvivalParams(
    hazardRatio: real, medianSurvival: real, maxFollowup: int,
    treatmentProb: real, censoringRate: real)

  function ParamsFrom(params: Record): SurvivalParams {
    SurvivalParams(
      RealParam(params, "hazardRatio", 0.7),
      RealParam(params, "medianSurvival", 365.0),
      IntParam(params, "maxFollowup", 730),
      RealParam(params, "treatmentProb", 0.5),
      RealParam(params, "censoringRate", 0.2))
  }

  datatype SurvivalRecord = SurvivalRecord(
    patientId: string, age: int, sex: string, treatment: string, stage: string,
    followupDays: int, event: int, censored: int)
  {
    function ToRecord(): Record {
      [("patient_id", Str(patientId)), ("age", Int(age)), ("sex", Str(sex)),
       ("treatment", Str(treatment)), ("stage", Str(stage)),
       ("followup_days", Int(followupDays)), ("event", Int(event)), ("censored", Int(censored))]
    }
  }

  // ---------------------------------------------------------------
  // Right censoring (shared with the Cox generator)
  // ---------------------------------------------------------------

  /** `Math.min(trueEventTime, censorTime, maxFollowup)`; an infinite
      event time leaves the other two. */
  function ObservedTime(t: Time, censorTime: real, maxFollowup: real): real {
    match t
    case Finite(x) => MinR(MinR(x, censorTime), maxFollowup)
    case Infinite => MinR(censorTime, maxFollowup)
  }

  /** `trueEventTime <= observedTime`. */
  predicate EventSeen(t: Time, observed: real) {
    t.Finite? && t.t <= observed
  }

  /** The observed time never passes the end of follow-up, and the event
      is seen exactly when the true time comes no later than both the
      censoring time and the end of follow-up. */
  lemma Censoring(t: Time, censorTime: real, maxFollowup: real)
    ensures ObservedTime(t, censorTime, maxFollowup) <= maxFollowup
    ensures ObservedTime(t, censorTime, maxFollowup) <= censorTime
    ensures EventSeen(t, ObservedTime(t, censorTime, maxFollowup)) <==>
      t.Finite? && t.t <= MinR(censorTime, maxFollowup)
    ensures EventSeen(t, ObservedTime(t, censorTime, maxFollowup)) ==>
      ObservedTime(t, censorTime, maxFollowup) == t.t
  {
  }

  /** `isCensored ? randomInt(rng, 30, maxFollowup) : maxFollowup`. */
  function CensorTime(isCensored: bool, u: real, maxFollowup: int): (c: int)
    requires 0.0 <= u < 1.0
    ensures 30 <= maxFollowup ==> c <= maxFollowup
    ensures isCensored && 30 <= maxFollowup ==> 30 <= c
    ensures !isCensored ==> c == maxFollowup
  {
    if isCensored then IntFromDraw(u, 30, maxFollowup) else maxFollowup
  }

  // ---------------------------------------------------------------
  // One subject
  // ---------------------------------------------------------------

  /** The two arms' exponential rates, computed once before the loop. */
  datatype Rates = Rates(control: real, treatment: real)
  {
    /** The rate of the arm a subject was drawn into. */
    function Of(treated: bool): real {
      if treated then treatment else control
    }
  }

  /** `Math.log(2) / medianSurvival` for the control arm, that times the
      hazard ratio for the treatment arm. */
  function RatesFor(m: MathLib, P: SurvivalParams): (R: Rates)
    requires P.medianSurvival != 0.0
    ensures R.treatment == R.control * P.hazardRatio
  {
    var control := m.ln(2.0) / P.medianSurvival;
    Rates(control, control * P.hazardRatio)
  }

  /** The arm, the event time and the censoring of a subject, which
      take three or four draws. */
  datatype Course = Course(treated: bool, eventTime: Time, isCensored: bool, censorTime: int)

  /** The arm, drawn at `pos`, and the true event time of that arm,
      drawn at `pos + 1`. */
  function ArmAt(m: MathLib, ds: Draws, pos: nat, P: SurvivalParams, R: Rates): (bool, Time) {
    var treated := ds(pos) < P.treatmentProb;
    (treated, ExponentialFromDraw(m, ds(pos + 1), R.Of(treated)))
  }

  /** The censoring draw at `pos`, the censoring time's draw after it when
      it falls under the rate, and the next position. */
  function CensorAt(ds: Draws, pos: nat, censoringRate: real, maxFollowup: int): (r: (bool, int, nat))
    ensures r.2 == pos + (if r.0 then 2 else 1)
  {
    var isCensored := ds(pos) < censoringRate;
    (isCensored, CensorTime(isCensored, ds(pos + 1), maxFollowup), if isCensored then pos + 2 else pos + 1)
  }

  function CourseAt(m: MathLib, ds: Draws, pos: nat, P: SurvivalParams, R: Rates): (r: (Course, nat))
    ensures r.1 == pos + (if r.0.isCensored then 4 else 3)
  {
    var arm := ArmAt(m, ds, pos, P, R);
    var censor := CensorAt(ds, pos + 2, P.censoringRate, P.maxFollowup);
    (Course(arm.0, arm.1, censor.0, censor.1), censor.2)
  }

  /** `SRV-` and the 1-based index padded to six digits. */
  function SubjectId(i: nat): string {
    "SRV-" + PadNumber(i + 1, 6)
  }

  /** The record of subject `i` once its course is known; age, sex and
      stage take the three draws from `q`. */
  function CompleteAt(ds: Draws, q: nat, i: nat, c: Course, P: SurvivalParams): SurvivalRecord {
    var observed := ObservedTime(c.eventTime, c.censorTime as real, P.maxFollowup as real);
    var event := if EventSeen(c.eventTime, observed) then 1 else 0;
    SurvivalRecord(
      SubjectId(i), IntFromDraw(ds(q), 30, 85), EvenSexFromDraw(ds(q + 1)),
      if c.treated then "treatment" else "control",
      PickFromDraw(ds(q + 2), CancerStages),
      Round(observed), event, 1 - event)
  }

  function RecordAt(m: MathLib, ds: Draws, pos: nat, i: nat, P: SurvivalParams, R: Rates): (r: (SurvivalRecord, nat))
  {
    var c := CourseAt(m, ds, pos, P, R);
    (CompleteAt(ds, c.1, i, c.0, P), c.1 + 3)
  }

  function RecordStep(m: MathLib, ds: Draws, P: SurvivalParams, R: Rates): (nat, nat) -> (SurvivalRecord, nat)
  {
    (i: nat, pos: nat) => RecordAt(m, ds, pos, i, P, R)
  }

  function SurvivalFrom(m: MathLib, ds: Draws, count: int, P: SurvivalParams, R: Rates): seq<SurvivalRecord>
  {
    ThreadItems(RecordStep(m, ds, P, R), Max(count, 0))
  }

  // ---------------------------------------------------------------
  // Properties
  // ---------------------------------------------------------------

  /** Every subject: an `SRV-` id, an age in 30..85, a follow-up that is
      the rounded observed time and never passes `maxFollowup`, an event
      flag that is 1 exactly when the true time comes first, and
      `censored = 1 - event`. */
  lemma SubjectFields(m: MathLib, ds: Draws, pos: nat, i: nat, P: SurvivalParams, R: Rates)
    ensures var c := CourseAt(m, ds, pos, P, R).0;
      var r := RecordAt(m, ds, pos, i, P, R).0;
      var observed := ObservedTime(c.eventTime, c.censorTime as real, P.maxFollowup as real);
      r.patientId == SubjectId(i) && 30 <= r.age <= 85
      && r.sex in {"M", "F"} && r.treatment in {"treatment", "control"} && r.stage in CancerStages
      && r.followupDays == Round(observed) && observed <= P.maxFollowup as real
      && (r.event == 1 <==>
            c.eventTime.Finite? && c.eventTime.t <= MinR(c.censorTime as real, P.maxFollowup as real))
      && (r.event == 0 || r.event == 1) && r.censored == 1 - r.event
  {
    var c := CourseAt(m, ds, pos, P, R).0;
    Censoring(c.eventTime, c.censorTime as real, P.maxFollowup as real);
  }

  /** The censoring time is `maxFollowup` unless the censoring draw falls
      under the rate, and then lies in 30..maxFollowup. */
  lemma CensorTimeRange(m: MathLib, ds: Draws, pos: nat, P: SurvivalParams, R: Rates)
    ensures var c := CourseAt(m, ds, pos, P, R).0;
      (c.isCensored <==> ds(pos + 2) < P.censoringRate)
      && (!c.isCensored ==> c.censorTime == P.maxFollowup)
      && (c.isCensored && 30 <= P.maxFollowup ==> 30 <= c.censorTime <= P.maxFollowup)
  {
  }

  /** The ids `SRV-000001, SRV-000002, ...` are pairwise distinct. */
  lemma SubjectIdsDistinct(i: nat, j: nat)
    requires i != j
    ensures SubjectId(i) != SubjectId(j)
  {
    if SubjectId(i) == SubjectId(j) {
      PrefixedIdInjective("SRV-", i + 1, j + 1, 6);
    }
  }

  /** `count` records, record `i` being subject `i`. */
  lemma SurvivalShape(m: MathLib, ds: Draws, count: int, P: SurvivalParams, R: Rates)
    ensures var data := SurvivalFrom(m, ds, count, P, R);
      |data| == Max(count, 0)
      && forall i | 0 <= i < |data| ::
           data[i].patientId == SubjectId(i) && 30 <= data[i].age <= 85
           && data[i].censored == 1 - data[i].event && (data[i].event == 0 || data[i].event == 1)
           && data[i].followupDays <= P.maxFollowup
  {
    var step := RecordStep(m, ds, P, R);
    var data := SurvivalFrom(m, ds, count, P, R);
    forall i | 0 <= i < |data|
      ensures data[i].patientId == SubjectId(i) && 30 <= data[i].age <= 85
           && data[i].censored == 1 - data[i].event && (data[i].event == 0 || data[i].event == 1)
           && data[i].followupDays <= P.maxFollowup
    {
      ThreadItemsIndex(step, Max(count, 0), i);
      SubjectFields(m, ds, ThreadPos(step, i), i, P, R);
      var c := CourseAt(m, ds, ThreadPos(step, i), P, R).0;
      RoundedBelow(ObservedTime(c.eventTime, c.censorTime as real, P.maxFollowup as real), P.maxFollowup);
    }
  }

  /** Rounding a time at most an integer bound stays within it. */
  lemma RoundedBelow(x: real, bound: int)
    requires x <= bound as real
    ensures Round(x) <= bound
  {
  }

  // ---------------------------------------------------------------
  // The generator
  // ---------------------------------------------------------------

  /** The censoring draw, and the censoring time's draw when it falls
      under the rate. */
  method NextCensor(rng: Mulberry32, censoringRate: real, maxFollowup: int) returns (isCensored: bool, censorTime: int)
    requires rng.Valid()
    modifies rng
    ensures rng.Valid()
    ensures isCensored == CensorAt(rng.values, old(rng.draws), censoringRate, maxFollowup).0
    ensures censorTime == CensorAt(rng.values, old(rng.draws), censoringRate, maxFollowup).1
    ensures rng.draws == CensorAt(rng.values, old(rng.draws), censoringRate, maxFollowup).2
  {
    var v := rng.Next();
    isCensored := v < censoringRate;
    censorTime := maxFollowup;
    if isCensored {
      censorTime := RandomInt(rng, 30, maxFollowup);
    }
  }

  /** The arm and the true event time of one subject. */
  method NextArm(rng: Mulberry32, m: MathLib, P: SurvivalParams, R: Rates) returns (treated: bool, t: Time)
    requires rng.Valid()
    modifies rng
    ensures rng.Valid() && rng.draws == old(rng.draws) + 2
    ensures (treated, t) == ArmAt(m, rng.values, old(rng.draws), P, R)
  {
    var u := rng.Next();
    treated := u < P.treatmentProb;
    t := RandomExponential(rng, m, R.Of(treated));
  }

  method NextCourse(rng: Mulberry32, m: MathLib, P: SurvivalParams, R: Rates) returns (c: Course)
    requires rng.Valid()
    modifies rng
    ensures rng.Valid()
    ensures c == CourseAt(m, rng.values, old(rng.draws), P, R).0
    ensures rng.draws == CourseAt(m, rng.values, old(rng.draws), P, R).1
  {
    var treated, trueEventTime := NextArm(rng, m, P, R);
    var isCensored, censorTime := NextCensor(rng, P.censoringRate, P.maxFollowup);
    c := Course(treated, trueEventTime, isCensored, censorTime);
  }

  method NextComplete(rng: Mulberry32, i: nat, c: Course, P: SurvivalParams) returns (r: SurvivalRecord)
    requires rng.Valid()
    modifies rng
    ensures rng.Valid() && rng.draws == old(rng.draws) + 3
    ensures r == CompleteAt(rng.values, old(rng.draws), i, c, P)
  {
    var observedTime := ObservedTime(c.eventTime, c.censorTime as real, P.maxFollowup as real);
    var event := if EventSeen(c.eventTime, observedTime) then 1 else 0;
    var age := RandomInt(rng, 30, 85);
    var u := rng.Next();
    var stage := RandomPick(rng, CancerStages);
    r := SurvivalRecord(SubjectId(i), age, EvenSexFromDraw(u), if c.treated then "treatment" else "control",
                        stage, Round(observedTime), event, 1 - event);
  }

  method NextRecord(rng: Mulberry32, m: MathLib, i: nat, P: SurvivalParams, R: Rates) returns (r: SurvivalRecord)
    requires rng.Valid()
    modifies rng
    ensures rng.Valid()
    ensures r == RecordAt(m, rng.values, old(rng.draws), i, P, R).0
    ensures rng.draws == RecordAt(m, rng.values, old(rng.draws), i, P, R).1
  {
    var c := NextCourse(rng, m, P, R);
    r := NextComplete(rng, i, c, P);
  }

  method SurvivalLoop(rng: Mulberry32, m: MathLib, count: int, P: SurvivalParams, R: Rates)
    returns (data: seq<SurvivalRecord>)
    requires rng.Valid() && rng.draws == 0
    modifies rng
    ensures data == SurvivalFrom(m, rng.values, count, P, R)
  {
    ghost var step := RecordStep(m, rng.values, P, R);
    data := [];
    var i := 0;
    while i < count
      invariant 0 <= i <= Max(count, 0)
      invariant rng.Valid() && rng.draws == ThreadPos(step, i)
      invariant data == ThreadItems(step, i)
    {
      assert step(i, rng.draws) == RecordAt(m, rng.values, rng.draws, i, P, R);
      var r := NextRecord(rng, m, i, P, R);
      ThreadNext(step, i);
      data := data + [r];
      i := i + 1;
    }
    assert i == Max(count, 0);
  }

  /** The two rates, computed before the loop. */
  method ArmRates(m: MathLib, P: SurvivalParams) returns (R: Rates)
    requires P.medianSurvival != 0.0
    ensures R == RatesFor(m, P)
  {
    var lambdaControl := m.ln(2.0) / P.medianSurvival;
    var lambdaTreatment := lambdaControl * P.hazardRatio;
    R := Rates(lambdaControl, lambdaTreatment);
  }

  /** `generateSurvival(count, seed, params)`: the rates first, then the
      loop. A zero median survival would make JavaScript divide by zero. */
  method GenerateSurvival(count: int, seed: int, m: MathLib, P: SurvivalParams) returns (data: seq<SurvivalRecord>)
    requires P.medianSurvival != 0.0
    ensures data == SurvivalFrom(m, StreamDraws(seed), count, P, RatesFor(m, P))
  {
    var R := ArmRates(m, P);
    var rng := new Mulberry32(seed);
    data := SurvivalLoop(rng, m, count, P, R);
  }
}
