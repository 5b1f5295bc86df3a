/** frontend/src/generators/observations.ts: laboratory results for given
    patients. Each result is drawn in one of three bands (critical,
    abnormal, normal) against the adult reference range of a test, rounded,
    and interpreted with strict comparisons. */
module Observations {
  import opened Prelude
  import opened Stream
  import opened Text
  import opened Sampling
  import opened Keyed
  import LabTests

  /** The interpretation codes of `interpretValue`. */
  datatype Flag = N | L | H | LL | HH

  /** `interpretValue(value, refLow, refHigh, critLow, critHigh)`. */
  function InterpretValue(value: real, refLow: real, refHigh: real,
                          critLow: Option<real>, critHigh: Option<real>): Flag
  {
    if critLow.Some? && value < critLow.value then LL
    else if critHigh.Some? && value > critHigh.value then HH
    else if value < refLow then L
    else if value > refHigh then H
    else N
  }

  function InterpretRange(value: real, rr: LabTests.ReferenceRange): Flag {
    InterpretValue(value, rr.low, rr.high, rr.criticalLow, rr.criticalHigh)
  }

  /** A value strictly beyond a critical bound is critical (the low bound
      first); otherwise it is `L` below the reference range, `H` above it,
      and `N` exactly when it lies inside it. */
  lemma InterpretValueBands(value: real, rr: LabTests.ReferenceRange)
    ensures var f := InterpretRange(value, rr);
      var critical := (rr.criticalLow.Some? && value < rr.criticalLow.value)
                      || (rr.criticalHigh.Some? && value > rr.criticalHigh.value);
      (f == LL <==> rr.criticalLow.Some? && value < rr.criticalLow.value)
      && (f == N <==> !critical && rr.low <= value <= rr.high)
      && (f == L <==> !critical && value < rr.low)
      && (f == H <==> !critical && rr.low <= value && value > rr.high)
      && (f == HH <==> !(rr.criticalLow.Some? && value < rr.criticalLow.value)
                       && rr.criticalHigh.Some? && value > rr.criticalHigh.value)
  {
  }

  /** The generator's interpretation agrees with `interpretResult` of the
      catalog for every value except one lying exactly on a critical
      bound, where the catalog's inclusive test says critical and the
      generator's strict test does not. */
  lemma AgreesWithCatalog(test: LabTests.LabTest, rr: LabTests.ReferenceRange, value: real)
    ensures var f := InterpretRange(value, rr);
      var v := LabTests.InterpretInRange(test, rr, value);
      (rr.criticalLow.None? || value != rr.criticalLow.value)
      && (rr.criticalHigh.None? || value != rr.criticalHigh.value)
      ==> (f == LL <==> v.CriticalLow?) && (f == HH <==> v.CriticalHigh?)
          && (f == L <==> v == LabTests.L) && (f == H <==> v == LabTests.H)
          && (f == N <==> v == LabTests.N)
    ensures rr.criticalLow.Some? && value == rr.criticalLow.value
      ==> LabTests.InterpretInRange(test, rr, value).CriticalLow? && InterpretRange(value, rr) != LL
  {
  }

  datatype ObservationsParams = ObservationsParams(year: int, abnormalRatio: real, criticalRatio: real)

  const DefaultParams := ObservationsParams(2024, 0.25, 0.05)

  datatype ObservationRecord = ObservationRecord(
    observationId: string, patientId: string, encounterId: string,
    testName: string, loincCode: string, category: string, value: real, unit: string,
    referenceLow: real, referenceHigh: real, interpretation: Flag, date: string,
    specimen: string)

  /** The patient ids, the lab-test catalog, the transcendental functions
      behind `randomNormal`, and the parameters. The generator reads the
      fields of the looked-up range, so every test needs one. */
  datatype Inputs = Inputs(
    patientIds: seq<string>, tests: seq<LabTests.LabTest>, m: MathLib, P: ObservationsParams)
  {
    predicate Valid() {
      |patientIds| > 0 && |tests| > 0
      && forall t | t in tests :: |t.referenceRanges| > 0
    }
  }

  /** `getReferenceRange(test, 'Adultos')`. */
  function AdultRange(t: LabTests.LabTest): (rr: LabTests.ReferenceRange)
    requires |t.referenceRanges| > 0
    ensures rr in t.referenceRanges
  {
    LabTests.GetReferenceRange(t, LabTests.DefaultGroup).value
  }

  // ---------------------------------------------------------------
  // The value
  // ---------------------------------------------------------------

  /** The centre and the spread of the normal draw: the middle of the
      reference range and a quarter of its width. */
  function Mean(rr: LabTests.ReferenceRange): real { (rr.low + rr.high) / 2.0 }

  function Spread(rr: LabTests.ReferenceRange): real { (rr.high - rr.low) / 4.0 }

  /** `randomNormal(rng, (low + high) / 2, (high - low) / 4)` for the two
      draws from `q` on. */
  function NormalDrawAt(m: MathLib, ds: Draws, q: nat, rr: LabTests.ReferenceRange): real {
    NormalFromDraws(m, ds(q), ds(q + 1), Mean(rr), Spread(rr))
  }

  /** The four scalings of the last draw `u` away from a bound `b`. */
  function CriticalLowValue(b: real, u: real): real { b * (0.5 + u * 0.4) }
  function CriticalHighValue(b: real, u: real): real { b * (1.1 + u * 0.5) }
  function LowValue(b: real, u: real): real { b * (0.7 + u * 0.25) }
  function HighValue(b: real, u: real): real { b * (1.05 + u * 0.3) }

  /** A critical value for the draws from `q` on: a coin, then a value
      below the critical low bound when the coin goes low and there is
      one, else above the critical high bound when there is one, else a
      normal value. */
  function CriticalValueAt(m: MathLib, ds: Draws, q: nat, rr: LabTests.ReferenceRange): (r: (real, nat))
  {
    if ds(q) < 0.5 && rr.criticalLow.Some? then
      (CriticalLowValue(rr.criticalLow.value, ds(q + 1)), q + 2)
    else if rr.criticalHigh.Some? then
      (CriticalHighValue(rr.criticalHigh.value, ds(q + 1)), q + 2)
    else (NormalDrawAt(m, ds, q + 1, rr), q + 3)
  }

  /** An abnormal value for the draws from `q` on: a coin, then a value
      below or above the reference range. */
  function AbnormalValueAt(ds: Draws, q: nat, rr: LabTests.ReferenceRange): (r: (real, nat))
    ensures r.1 == q + 2
  {
    if ds(q) < 0.5 then (LowValue(rr.low, ds(q + 1)), q + 2)
    else (HighValue(rr.high, ds(q + 1)), q + 2)
  }

  /** `Math.max(low * 0.95, Math.min(high * 1.05, v))`. */
  function Clamped(rr: LabTests.ReferenceRange, v: real): real {
    MaxR(rr.low * 0.95, MinR(rr.high * 1.05, v))
  }

  /** A normal value clamped to `[0.95 low, 1.05 high]`: two draws. */
  function NormalValueAt(m: MathLib, ds: Draws, q: nat, rr: LabTests.ReferenceRange): (r: (real, nat))
    ensures r.1 == q + 2
  {
    (Clamped(rr, NormalDrawAt(m, ds, q, rr)), q + 2)
  }

  /** The value before rounding for the draws from `q` on, and the
      position after them: the roll at `q` picks the band. */
  function RawValueAt(m: MathLib, ds: Draws, q: nat, rr: LabTests.ReferenceRange, P: ObservationsParams)
    : (r: (real, nat))
  {
    if ds(q) < P.criticalRatio then CriticalValueAt(m, ds, q + 1, rr)
    else if ds(q) < P.abnormalRatio then AbnormalValueAt(ds, q + 1, rr)
    else NormalValueAt(m, ds, q + 1, rr)
  }

  /** `Math.round(value * 100) / 100`, then `Math.round` above 100. */
  function Rounded(v: real): real {
    var v1 := RoundTo(v, 100);
    if v1 > 100.0 then Round(v1) as real else v1
  }

  /** Rounding to two decimals moves a value by at most half a hundredth. */
  lemma RoundToNear(v: real)
    ensures v - 0.005 < RoundTo(v, 100) <= v + 0.005
  {
    var k := Round(v * 100.0);
    assert v * 100.0 - 0.5 < k as real <= v * 100.0 + 0.5;
    assert RoundTo(v, 100) == k as real / 100.0;
  }

  /** The stored value is within half a unit of the drawn one, and within
      half a hundredth when it stays at or below 100 after the first
      rounding. */
  lemma RoundedNear(v: real)
    ensures v - 0.505 < Rounded(v) <= v + 0.505
    ensures RoundTo(v, 100) <= 100.0 ==> v - 0.005 < Rounded(v) <= v + 0.005
    ensures RoundTo(v, 100) > 100.0 ==> v > 99.995
  {
    RoundToNear(v);
  }

  /** A normal roll keeps the value inside `[0.95 low, 1.05 high]` before
      rounding, when that interval is not empty. */
  lemma NormalValueClamped(m: MathLib, ds: Draws, q: nat, rr: LabTests.ReferenceRange, P: ObservationsParams)
    requires ds(q) >= P.criticalRatio && ds(q) >= P.abnormalRatio
    requires rr.low * 0.95 <= rr.high * 1.05
    ensures rr.low * 0.95 <= RawValueAt(m, ds, q, rr, P).0 <= rr.high * 1.05
  {
  }

  /** A value below 0.9 times a critical low bound of at least 0.05 is
      still below that bound once rounded: `LL`. */
  lemma BelowCriticalLow(v: real, rr: LabTests.ReferenceRange)
    requires rr.criticalLow.Some? && rr.criticalLow.value >= 0.05
    requires v < 0.9 * rr.criticalLow.value
    ensures InterpretRange(Rounded(v), rr) == LL
  {
    RoundedNear(v);
  }

  /** A value of at least 1.1 times a critical high bound of at least 0.05
      is still above that bound once rounded: `HH`, unless the critical
      low bound lies above the high one. */
  lemma AboveCriticalHigh(v: real, rr: LabTests.ReferenceRange)
    requires rr.criticalHigh.Some? && rr.criticalHigh.value >= 0.05
    requires rr.criticalLow.Some? ==> rr.criticalLow.value <= rr.criticalHigh.value
    requires v >= 1.1 * rr.criticalHigh.value
    ensures InterpretRange(Rounded(v), rr) == HH
  {
    RoundedNear(v);
  }

  /** A value below 0.95 times a low bound of at least 0.1 is still below
      it once rounded: `L`, or `LL` past the critical low bound. */
  lemma BelowReference(v: real, rr: LabTests.ReferenceRange)
    requires rr.low >= 0.1 && (rr.criticalHigh.Some? ==> rr.criticalHigh.value >= rr.low)
    requires v < 0.95 * rr.low
    ensures InterpretRange(Rounded(v), rr) in {L, LL}
  {
    RoundedNear(v);
  }

  /** A value of at least 1.05 times a high bound of at least 0.1 is still
      above it once rounded: `H`, or `HH` past the critical high bound. */
  lemma AboveReference(v: real, rr: LabTests.ReferenceRange)
    requires rr.high >= 0.1 && rr.low <= rr.high
    requires rr.criticalLow.Some? ==> rr.criticalLow.value <= rr.high
    requires v >= 1.05 * rr.high
    ensures InterpretRange(Rounded(v), rr) in {H, HH}
  {
    RoundedNear(v);
  }

  /** A critical roll whose coin goes low, against a critical low bound of
      at least 0.05, is flagged `LL`. */
  lemma CriticalLowIsFlagged(m: MathLib, ds: Draws, q: nat, rr: LabTests.ReferenceRange, P: ObservationsParams)
    requires ds(q) < P.criticalRatio && ds(q + 1) < 0.5
    requires rr.criticalLow.Some? && rr.criticalLow.value >= 0.05
    ensures InterpretRange(Rounded(RawValueAt(m, ds, q, rr, P).0), rr) == LL
  {
    var c := rr.criticalLow.value;
    var u := ds(q + 2);
    assert RawValueAt(m, ds, q, rr, P).0 == CriticalLowValue(c, u);
    MulStrict(c, 0.5 + u * 0.4, 0.9);
    BelowCriticalLow(CriticalLowValue(c, u), rr);
  }

  /** A critical roll that goes high, against a critical high bound of at
      least 0.05 and not below the critical low bound, is flagged `HH`. */
  lemma CriticalHighIsFlagged(m: MathLib, ds: Draws, q: nat, rr: LabTests.ReferenceRange, P: ObservationsParams)
    requires ds(q) < P.criticalRatio && (ds(q + 1) >= 0.5 || rr.criticalLow.None?)
    requires rr.criticalHigh.Some? && rr.criticalHigh.value >= 0.05
    requires rr.criticalLow.Some? ==> rr.criticalLow.value <= rr.criticalHigh.value
    ensures InterpretRange(Rounded(RawValueAt(m, ds, q, rr, P).0), rr) == HH
  {
    var c := rr.criticalHigh.value;
    var u := ds(q + 2);
    assert RawValueAt(m, ds, q, rr, P).0 == CriticalHighValue(c, u);
    MulMonotone(c, 1.1, 1.1 + u * 0.5);
    AboveCriticalHigh(CriticalHighValue(c, u), rr);
  }

  /** An abnormal roll that goes low, against a low bound of at least 0.1
      and not above the critical high bound, is flagged `L` or `LL`. */
  lemma AbnormalLowIsFlagged(m: MathLib, ds: Draws, q: nat, rr: LabTests.ReferenceRange, P: ObservationsParams)
    requires P.criticalRatio <= ds(q) < P.abnormalRatio && ds(q + 1) < 0.5
    requires rr.low >= 0.1 && (rr.criticalHigh.Some? ==> rr.criticalHigh.value >= rr.low)
    ensures InterpretRange(Rounded(RawValueAt(m, ds, q, rr, P).0), rr) in {L, LL}
  {
    var u := ds(q + 2);
    assert RawValueAt(m, ds, q, rr, P).0 == LowValue(rr.low, u);
    MulStrict(rr.low, 0.7 + u * 0.25, 0.95);
    BelowReference(LowValue(rr.low, u), rr);
  }

  /** An abnormal roll that goes high, against a high bound of at least
      0.1 and not below the critical low bound, is flagged `H` or `HH`. */
  lemma AbnormalHighIsFlagged(m: MathLib, ds: Draws, q: nat, rr: LabTests.ReferenceRange, P: ObservationsParams)
    requires P.criticalRatio <= ds(q) < P.abnormalRatio && ds(q + 1) >= 0.5
    requires rr.high >= 0.1 && rr.low <= rr.high
    requires rr.criticalLow.Some? ==> rr.criticalLow.value <= rr.high
    ensures InterpretRange(Rounded(RawValueAt(m, ds, q, rr, P).0), rr) in {H, HH}
  {
    var u := ds(q + 2);
    assert RawValueAt(m, ds, q, rr, P).0 == HighValue(rr.high, u);
    MulMonotone(rr.high, 1.05, 1.05 + u * 0.3);
    AboveReference(HighValue(rr.high, u), rr);
  }

  // ---------------------------------------------------------------
  // One observation
  // ---------------------------------------------------------------

  /** The values drawn for one observation. */
  datatype Drawn = Drawn(patientId: string, test: LabTests.LabTest, value: real, date: string)

  /** The patient, the test and the rounded value drawn from `pos` on,
      and the position of the date's draws after them. */
  function HeadAt(ds: Draws, pos: nat, I: Inputs): (r: (string, LabTests.LabTest, real, nat))
    requires I.Valid()
  {
    var t := PickFromDraw(ds(pos + 1), I.tests);
    var v := RawValueAt(I.m, ds, pos + 2, AdultRange(t), I.P);
    (PickFromDraw(ds(pos), I.patientIds), t, Rounded(v.0), v.1)
  }

  /** The values drawn from `pos` on: patient, test, the value (three or
      four draws), then the date (two). */
  function DrawnAt(ds: Draws, pos: nat, I: Inputs): (r: (Drawn, nat))
    requires I.Valid()
  {
    var h := HeadAt(ds, pos, I);
    var date := DateAt(ds, h.3, I.P.year);
    (Drawn(h.0, h.1, h.2, date.0), date.1)
  }


  /** A result takes seven draws, or eight when the critical band falls
      back on the normal draw. */
  lemma ObservationDraws(ds: Draws, pos: nat, I: Inputs)
    requires I.Valid()
    ensures var n := DrawnAt(ds, pos, I).1;
      n == pos + 7 || n == pos + 8
    ensures var t := PickFromDraw(ds(pos + 1), I.tests);
      DrawnAt(ds, pos, I).1 == pos + 8
      <==> ds(pos + 2) < I.P.criticalRatio
           && !(ds(pos + 3) < 0.5 && AdultRange(t).criticalLow.Some?) && AdultRange(t).criticalHigh.None?
  {
    var t := PickFromDraw(ds(pos + 1), I.tests);
    var v := RawValueAt(I.m, ds, pos + 2, AdultRange(t), I.P);
    assert HeadAt(ds, pos, I).3 == v.1;
    assert DrawnAt(ds, pos, I).1 == v.1 + 2;
    RawDraws(I.m, ds, pos + 2, AdultRange(t), I.P);
  }

  /** The value takes three draws, or four when the critical band falls
      back on the normal draw. */
  lemma RawDraws(m: MathLib, ds: Draws, q: nat, rr: LabTests.ReferenceRange, P: ObservationsParams)
    ensures var n := RawValueAt(m, ds, q, rr, P).1;
      (n == q + 3 || n == q + 4)
      && (n == q + 4 <==> ds(q) < P.criticalRatio
                           && !(ds(q + 1) < 0.5 && rr.criticalLow.Some?) && rr.criticalHigh.None?)
  {
  }

  function Build(i: nat, I: Inputs, d: Drawn): ObservationRecord
    requires |d.test.referenceRanges| > 0
  {
    var t := d.test;
    var rr := AdultRange(t);
    ObservationRecord(
      KeyedId("OBS", I.P.year, CodedKey(d.patientId, i, t.loincCode)), d.patientId,
      EncounterRef(I.P.year, d.patientId, i), t.name, t.loincCode, t.category, d.value,
      t.unit, rr.low, rr.high, InterpretRange(d.value, rr), d.date, t.specimen)
  }

  function ObservationAt(ds: Draws, pos: nat, i: nat, I: Inputs): (r: (ObservationRecord, nat))
    requires I.Valid()
  {
    var d := DrawnAt(ds, pos, I);
    (Build(i, I, d.0), d.1)
  }

  /** The record copies the test `t` and its adult range, and its
      interpretation is that of its own value against that range. */
  predicate FromTest(r: ObservationRecord, t: LabTests.LabTest)
    requires |t.referenceRanges| > 0
  {
    var rr := AdultRange(t);
    r.testName == t.name && r.loincCode == t.loincCode && r.category == t.category
    && r.unit == t.unit && r.specimen == t.specimen
    && r.referenceLow == rr.low && r.referenceHigh == rr.high
    && r.interpretation == InterpretRange(r.value, rr)
  }

  /** What every observation promises: a given patient, a test of the
      catalog with its adult range and the matching interpretation, a
      date in the year, and ids built from the patient and the index. */
  predicate WellFormed(r: ObservationRecord, i: nat, I: Inputs)
    requires I.Valid()
  {
    r.patientId in I.patientIds
    && (exists t | t in I.tests :: FromTest(r, t))
    && DateInYear(r.date, I.P.year)
    && r.encounterId == EncounterRef(I.P.year, r.patientId, i)
    && r.observationId == KeyedId("OBS", I.P.year, CodedKey(r.patientId, i, r.loincCode))
  }

  /** What the drawn values promise: a given patient, a catalog test,
      and a date in the year. */
  predicate DrawnValid(d: Drawn, I: Inputs) {
    d.patientId in I.patientIds && d.test in I.tests && DateInYear(d.date, I.P.year)
  }

  lemma DrawnAtValid(ds: Draws, pos: nat, I: Inputs)
    requires I.Valid()
    ensures DrawnValid(DrawnAt(ds, pos, I).0, I)
  {
    var h := HeadAt(ds, pos, I);
    DrawnDateInYear(I.P.year, ds(h.3), ds(h.3 + 1));
  }

  lemma BuildWellFormed(i: nat, I: Inputs, d: Drawn)
    requires I.Valid() && DrawnValid(d, I)
    ensures WellFormed(Build(i, I, d), i, I)
  {
    assert FromTest(Build(i, I, d), d.test);
  }

  lemma ObservationAtWellFormed(ds: Draws, pos: nat, i: nat, I: Inputs)
    requires I.Valid()
    ensures WellFormed(ObservationAt(ds, pos, i, I).0, i, I)
  {
    DrawnAtValid(ds, pos, I);
    BuildWellFormed(i, I, DrawnAt(ds, pos, I).0);
  }

  function ObservationStep(ds: Draws, I: Inputs): (nat, nat) -> (ObservationRecord, nat)
    requires I.Valid()
  {
    (i: nat, pos: nat) => ObservationAt(ds, pos, i, I)
  }

  function ObservationsFrom(ds: Draws, n: nat, I: Inputs): seq<ObservationRecord>
    requires I.Valid()
  {
    ThreadItems(ObservationStep(ds, I), n)
  }

  lemma ObservationsWellFormed(ds: Draws, n: nat, I: Inputs, k: nat)
    requires I.Valid() && k < n
    ensures WellFormed(ObservationsFrom(ds, n, I)[k], k, I)
  {
    ThreadItemsIndex(ObservationStep(ds, I), n, k);
    ObservationAtWellFormed(ds, ThreadPos(ObservationStep(ds, I), k), k, I);
  }

  // ---------------------------------------------------------------
  // The generator
  // ---------------------------------------------------------------

  method NextNormalDraw(rng: Mulberry32, m: MathLib, rr: LabTests.ReferenceRange) returns (value: real)
    requires rng.Valid()
    modifies rng
    ensures rng.Valid() && rng.draws == old(rng.draws) + 2
    ensures value == NormalDrawAt(m, rng.values, old(rng.draws), rr)
  {
    value := RandomNormal(rng, m, Mean(rr), Spread(rr));
  }

  method NextCritical(rng: Mulberry32, m: MathLib, rr: LabTests.ReferenceRange) returns (value: real)
    requires rng.Valid()
    modifies rng
    ensures rng.Valid()
    ensures (value, rng.draws) == CriticalValueAt(m, rng.values, old(rng.draws), rr)
  {
    ghost var q := rng.draws;
    var coin := rng.Next();
    if coin < 0.5 && rr.criticalLow.Some? {
      var u := rng.Next();
      value := CriticalLowValue(rr.criticalLow.value, u);
    } else if rr.criticalHigh.Some? {
      var u := rng.Next();
      value := CriticalHighValue(rr.criticalHigh.value, u);
    } else {
      value := NextNormalDraw(rng, m, rr);
      CriticalNormalIs(m, rng.values, q, rr);
    }
  }

  /** `CriticalValueAt` when neither critical bound is used: the normal
      draw after the coin. */
  lemma CriticalNormalIs(m: MathLib, ds: Draws, q: nat, rr: LabTests.ReferenceRange)
    requires !(ds(q) < 0.5 && rr.criticalLow.Some?) && rr.criticalHigh.None?
    ensures CriticalValueAt(m, ds, q, rr) == (NormalDrawAt(m, ds, q + 1, rr), q + 3)
  {
  }

  method NextAbnormal(rng: Mulberry32, rr: LabTests.ReferenceRange) returns (value: real)
    requires rng.Valid()
    modifies rng
    ensures rng.Valid()
    ensures (value, rng.draws) == AbnormalValueAt(rng.values, old(rng.draws), rr)
  {
    var coin := rng.Next();
    var u := rng.Next();
    if coin < 0.5 {
      value := LowValue(rr.low, u);
    } else {
      value := HighValue(rr.high, u);
    }
  }

  method NextNormal(rng: Mulberry32, m: MathLib, rr: LabTests.ReferenceRange) returns (value: real)
    requires rng.Valid()
    modifies rng
    ensures rng.Valid()
    ensures (value, rng.draws) == NormalValueAt(m, rng.values, old(rng.draws), rr)
  {
    value := NextNormalDraw(rng, m, rr);
    value := Clamped(rr, value);
  }

  /** The value block of the loop body, up to the rounding. */
  method NextValue(rng: Mulberry32, m: MathLib, rr: LabTests.ReferenceRange, P: ObservationsParams)
    returns (value: real)
    requires rng.Valid()
    modifies rng
    ensures rng.Valid()
    ensures (value, rng.draws) == RawValueAt(m, rng.values, old(rng.draws), rr, P)
  {
    ghost var q := rng.draws;
    var roll := rng.Next();
    ghost var start := rng.draws;
    if roll < P.criticalRatio {
      value := NextCritical(rng, m, rr);
    } else if roll < P.abnormalRatio {
      value := NextAbnormal(rng, rr);
    } else {
      value := NextNormal(rng, m, rr);
    }
    RawIs(m, rng.values, q, start, rr, P, (value, rng.draws));
  }

  /** `RawValueAt` from the value the band after the roll produced. */
  lemma RawIs(m: MathLib, ds: Draws, q: nat, start: nat, rr: LabTests.ReferenceRange,
              P: ObservationsParams, r: (real, nat))
    requires start == q + 1
    requires ds(q) < P.criticalRatio ==> r == CriticalValueAt(m, ds, start, rr)
    requires P.criticalRatio <= ds(q) < P.abnormalRatio ==> r == AbnormalValueAt(ds, start, rr)
    requires ds(q) >= P.criticalRatio && ds(q) >= P.abnormalRatio ==> r == NormalValueAt(m, ds, start, rr)
    ensures RawValueAt(m, ds, q, rr, P) == r
  {
  }

  /** The loop body up to the date: patient, test, and the rounded value. */
  method NextHead(rng: Mulberry32, I: Inputs) returns (patientId: string, test: LabTests.LabTest, value: real)
    requires rng.Valid() && I.Valid()
    modifies rng
    ensures rng.Valid()
    ensures (patientId, test, value, rng.draws) == HeadAt(rng.values, old(rng.draws), I)
  {
    ghost var pos := rng.draws;
    patientId := RandomPick(rng, I.patientIds);
    test := RandomPick(rng, I.tests);
    var rr := AdultRange(test);
    ghost var q := rng.draws;
    var raw := NextValue(rng, I.m, rr, I.P);
    value := RoundValue(raw);
    HeadIs(rng.values, pos, q, I, patientId, test, raw, value, rng.draws);
  }

  /** The rounding step of the loop body. */
  method RoundValue(raw: real) returns (value: real)
    ensures value == Rounded(raw)
  {
    value := RoundTo(raw, 100);
    if value > 100.0 {
      value := Round(value) as real;
    }
  }

  /** `HeadAt` from the values drawn one after the other. */
  lemma HeadIs(ds: Draws, pos: nat, q: nat, I: Inputs, patientId: string, test: LabTests.LabTest,
               raw: real, value: real, dateAt: nat)
    requires I.Valid() && q == pos + 2
    requires patientId == PickFromDraw(ds(pos), I.patientIds)
    requires test == PickFromDraw(ds(pos + 1), I.tests)
    requires (raw, dateAt) == RawValueAt(I.m, ds, q, AdultRange(test), I.P)
    requires value == Rounded(raw)
    ensures HeadAt(ds, pos, I) == (patientId, test, value, dateAt)
  {
  }

  method NextDrawn(rng: Mulberry32, I: Inputs) returns (d: Drawn)
    requires rng.Valid() && I.Valid()
    modifies rng
    ensures rng.Valid()
    ensures (d, rng.draws) == DrawnAt(rng.values, old(rng.draws), I)
  {
    ghost var pos := rng.draws;
    var patientId, test, value := NextHead(rng, I);
    ghost var dateAt := rng.draws;
    var date := RandomDate(rng, I.P.year);
    d := Drawn(patientId, test, value, date);
    DrawnIs(rng.values, pos, dateAt, I, d, rng.draws);
  }

  /** `DrawnAt` from the head and the date drawn after it. */
  lemma DrawnIs(ds: Draws, pos: nat, dateAt: nat, I: Inputs, d: Drawn, end: nat)
    requires I.Valid()
    requires HeadAt(ds, pos, I) == (d.patientId, d.test, d.value, dateAt)
    requires (d.date, end) == DateAt(ds, dateAt, I.P.year)
    ensures DrawnAt(ds, pos, I) == (d, end)
  {
  }

  method ObservationLoop(rng: Mulberry32, count: int, I: Inputs) returns (data: seq<ObservationRecord>)
    requires rng.Valid() && rng.draws == 0 && I.Valid()
    modifies rng
    ensures data == ObservationsFrom(rng.values, Max(count, 0), I)
  {
    ghost var step := ObservationStep(rng.values, I);
    data := [];
    var i := 0;
    while i < count
      invariant 0 <= i <= Max(count, 0)
      invariant rng.Valid() && rng.draws == ThreadPos(step, i)
      invariant data == ThreadItems(step, i)
    {
      ghost var expected := ObservationAt(rng.values, rng.draws, i, I);
      assert step(i, rng.draws) == expected;
      var d := NextDrawn(rng, I);
      var r := Build(i, I, d);
      ThreadNext(step, i);
      data := data + [r];
      i := i + 1;
    }
    assert i == Max(count, 0);
  }

  /** `generateObservations(patientIds, count, seed, params)`. */
  method GenerateObservations(patientIds: seq<string>, count: int, seed: int, P: ObservationsParams,
                              tests: seq<LabTests.LabTest>, m: MathLib)
    returns (data: seq<ObservationRecord>)
    requires Inputs(patientIds, tests, m, P).Valid()
    ensures data == ObservationsFrom(StreamDraws(seed), Max(count, 0), Inputs(patientIds, tests, m, P))
    ensures forall k | 0 <= k < |data| :: WellFormed(data[k], k, Inputs(patientIds, tests, m, P))
  {
    var I := Inputs(patientIds, tests, m, P);
    var rng := new Mulberry32(seed);
    data := ObservationLoop(rng, count, I);
    forall k | 0 <= k < |data|
      ensures WellFormed(data[k], k, I)
    {
      ObservationsWellFormed(StreamDraws(seed), Max(count, 0), I, k);
    }
  }
}
