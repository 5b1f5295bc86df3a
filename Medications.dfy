/** frontend/src/generators/medications.ts: prescriptions of ATC-coded
    medications for given patients, each chronic or acute, with a start
    date in the year and a duration that sets the end date. */
module Medications {
  import opened Prelude
  import opened Stream
  import opened Text
  import opened Sampling
  import opened Keyed

  /** The fields of a `Medication` of the catalog the generator copies
      (the ATC level-1 letter, brand examples and category are not read). */
  datatype Medication = Medication(
    atcCode: string, atcLevel1Name: string, genericName: string, dose: string,
    unit: string, frequency: string, route: string, ges: bool, formularioNacional: bool)

  datatype MedicationsParams = MedicationsParams(
    year: int, durationMin: int, durationMax: int, chronicRatio: real)

  const DefaultParams := MedicationsParams(2024, 7, 90, 0.3)

  datatype MedicationRecord = MedicationRecord(
    prescriptionId: string, patientId: string, encounterId: string,
    medicationName: string, atcCode: string, atcCategory: string,
    dose: string, unit: string, frequency: string, route: string,
    startDate: string, endDate: string, durationDays: int,
    formularioNacional: bool, ges: bool)

  /** What the generator reads besides the stream: the patient ids, the
      medication catalog, the calendar arithmetic of the end date, and the
      parameters. */
  datatype Inputs = Inputs(
    patientIds: seq<string>, catalog: seq<Medication>,
    addDays: (string, int) -> string, P: MedicationsParams)
  {
    predicate Valid() { |patientIds| > 0 && |catalog| > 0 }
  }

  /** The duration in days for the draw `u`: 180 plus up to 364 for a
      chronic prescription, otherwise `floor(u * (max - min)) + min`. */
  function DurationFromDraw(u: real, chronic: bool, P: MedicationsParams): int
    requires 0.0 <= u < 1.0
  {
    if chronic then ScaledFloor(u, 365) + 180
    else (u * (P.durationMax - P.durationMin) as real).Floor + P.durationMin
  }

  /** A chronic prescription lasts 180 to 544 days; an acute one at least
      the minimum and less than the maximum when the maximum is larger,
      and exactly the minimum when they are equal. */
  lemma DurationBounds(u: real, chronic: bool, P: MedicationsParams)
    requires 0.0 <= u < 1.0
    ensures var d := DurationFromDraw(u, chronic, P);
      (chronic ==> 180 <= d <= 544)
      && (!chronic && P.durationMin < P.durationMax ==> P.durationMin <= d < P.durationMax)
      && (!chronic && P.durationMin == P.durationMax ==> d == P.durationMin)
  {
    if !chronic && P.durationMin < P.durationMax {
      var k := P.durationMax - P.durationMin;
      assert DurationFromDraw(u, chronic, P) == ScaledFloor(u, k) + P.durationMin;
    }
  }

  /** The values drawn for one record, in the order they are drawn. */
  datatype Drawn = Drawn(
    patientId: string, medication: Medication, chronic: bool, startDate: string, duration: int)

  /** The values drawn for a record whose six draws start at `pos`:
      patient, medication, the chronic flag, the start date (two draws)
      and the duration. */
  function DrawnAt(ds: Draws, pos: nat, I: Inputs): (r: (Drawn, nat))
    requires I.Valid()
    ensures r.1 == pos + 6
  {
    var chronic := ds(pos + 2) < I.P.chronicRatio;
    (Drawn(PickFromDraw(ds(pos), I.patientIds), PickFromDraw(ds(pos + 1), I.catalog), chronic,
           DateFromDraws(I.P.year, ds(pos + 3), ds(pos + 4)),
           DurationFromDraw(ds(pos + 5), chronic, I.P)),
     pos + 6)
  }

  /** The record of index `i` built from its drawn values: the end date is
      the start date moved on by the duration. */
  function Build(i: nat, I: Inputs, d: Drawn): MedicationRecord {
    var m := d.medication;
    MedicationRecord(
      KeyedId("RX", I.P.year, CodedKey(d.patientId, i, m.atcCode)), d.patientId,
      EncounterRef(I.P.year, d.patientId, i), m.genericName, m.atcCode, m.atcLevel1Name,
      m.dose, m.unit, m.frequency, m.route, d.startDate,
      I.addDays(d.startDate, d.duration), d.duration, m.formularioNacional, m.ges)
  }

  function MedicationAt(ds: Draws, pos: nat, i: nat, I: Inputs): (r: (MedicationRecord, nat))
    requires I.Valid()
  {
    var d := DrawnAt(ds, pos, I);
    (Build(i, I, d.0), d.1)
  }

  /** What every record promises: its patient is one of the given ids; its
      medication fields are those of one catalog entry; it starts in the
      parameter year and ends the duration later; the duration is in its
      band; and both ids are built from the patient and the index. */
  predicate WellFormed(r: MedicationRecord, i: nat, I: Inputs) {
    r.patientId in I.patientIds
    && (exists m | m in I.catalog ::
          r.medicationName == m.genericName && r.atcCode == m.atcCode
          && r.atcCategory == m.atcLevel1Name && r.dose == m.dose && r.unit == m.unit
          && r.frequency == m.frequency && r.route == m.route
          && r.formularioNacional == m.formularioNacional && r.ges == m.ges)
    && DateInYear(r.startDate, I.P.year)
    && r.endDate == I.addDays(r.startDate, r.durationDays)
    && ((180 <= r.durationDays <= 544)
        || (I.P.durationMin < I.P.durationMax ==> I.P.durationMin <= r.durationDays < I.P.durationMax))
    && r.encounterId == EncounterRef(I.P.year, r.patientId, i)
    && r.prescriptionId == KeyedId("RX", I.P.year, CodedKey(r.patientId, i, r.atcCode))
  }

  /** What the drawn values promise, whatever the draws. */
  predicate DrawnValid(d: Drawn, I: Inputs) {
    d.patientId in I.patientIds && d.medication in I.catalog
    && DateInYear(d.startDate, I.P.year)
    && ((180 <= d.duration <= 544)
        || (I.P.durationMin < I.P.durationMax ==> I.P.durationMin <= d.duration < I.P.durationMax))
  }

  lemma DrawnDateValid(ds: Draws, pos: nat, I: Inputs)
    requires I.Valid()
    ensures DateInYear(DrawnAt(ds, pos, I).0.startDate, I.P.year)
  {
    DrawnDateInYear(I.P.year, ds(pos + 3), ds(pos + 4));
  }

  lemma DrawnDurationValid(ds: Draws, pos: nat, I: Inputs)
    requires I.Valid()
    ensures var d := DrawnAt(ds, pos, I).0;
      (180 <= d.duration <= 544)
      || (I.P.durationMin < I.P.durationMax ==> I.P.durationMin <= d.duration < I.P.durationMax)
  {
    var chronic := ds(pos + 2) < I.P.chronicRatio;
    DurationBounds(ds(pos + 5), chronic, I.P);
  }

  lemma DrawnAtValid(ds: Draws, pos: nat, I: Inputs)
    requires I.Valid()
    ensures DrawnValid(DrawnAt(ds, pos, I).0, I)
  {
    DrawnDateValid(ds, pos, I);
    DrawnDurationValid(ds, pos, I);
  }

  lemma BuildWellFormed(i: nat, I: Inputs, d: Drawn)
    requires I.Valid() && DrawnValid(d, I)
    ensures WellFormed(Build(i, I, d), i, I)
  {
    var r := Build(i, I, d);
    assert r.medicationName == d.medication.genericName && r.atcCode == d.medication.atcCode;
  }

  lemma MedicationAtWellFormed(ds: Draws, pos: nat, i: nat, I: Inputs)
    requires I.Valid()
    ensures WellFormed(MedicationAt(ds, pos, i, I).0, i, I)
  {
    DrawnAtValid(ds, pos, I);
    BuildWellFormed(i, I, DrawnAt(ds, pos, I).0);
  }

  /** A chronic prescription is one whose draw at `pos + 2` is under the
      chronic ratio, and it lasts at least 180 days. */
  lemma ChronicLastsLonger(ds: Draws, pos: nat, i: nat, I: Inputs)
    requires I.Valid() && ds(pos + 2) < I.P.chronicRatio
    ensures 180 <= MedicationAt(ds, pos, i, I).0.durationDays <= 544
  {
    DurationBounds(ds(pos + 5), true, I.P);
  }

  function MedicationStep(ds: Draws, I: Inputs): (nat, nat) -> (MedicationRecord, nat)
    requires I.Valid()
  {
    (i: nat, pos: nat) => MedicationAt(ds, pos, i, I)
  }

  function MedicationsFrom(ds: Draws, n: nat, I: Inputs): seq<MedicationRecord>
    requires I.Valid()
  {
    ThreadItems(MedicationStep(ds, I), n)
  }

  /** Every record of the generated list is well formed. */
  lemma MedicationsWellFormed(ds: Draws, n: nat, I: Inputs, k: nat)
    requires I.Valid() && k < n
    ensures WellFormed(MedicationsFrom(ds, n, I)[k], k, I)
  {
    ThreadItemsIndex(MedicationStep(ds, I), n, k);
    MedicationAtWellFormed(ds, ThreadPos(MedicationStep(ds, I), k), k, I);
  }

  /** Every record takes six draws, so record `k` reads the draws from
      `6 * k` on. */
  lemma MedicationPositions(ds: Draws, I: Inputs, k: nat)
    requires I.Valid()
    ensures ThreadPos(MedicationStep(ds, I), k) == 6 * k
  {
    forall j: nat, pos: nat
      ensures MedicationStep(ds, I)(j, pos).1 == pos + 6
    {
      assert MedicationStep(ds, I)(j, pos) == MedicationAt(ds, pos, j, I);
    }
    ThreadPosUniform(MedicationStep(ds, I), 6, k);
  }

  method NextDrawn(rng: Mulberry32, I: Inputs) returns (d: Drawn)
    requires rng.Valid() && I.Valid()
    modifies rng
    ensures rng.Valid() && rng.draws == old(rng.draws) + 6
    ensures d == DrawnAt(rng.values, old(rng.draws), I).0
  {
    var patientId := RandomPick(rng, I.patientIds);
    var medication := RandomPick(rng, I.catalog);
    var u := rng.Next();
    var isChronic := u < I.P.chronicRatio;
    var startDate := RandomDate(rng, I.P.year);
    var v := rng.Next();
    var duration := DurationFromDraw(v, isChronic, I.P);
    d := Drawn(patientId, medication, isChronic, startDate, duration);
  }

  method MedicationLoop(rng: Mulberry32, count: int, I: Inputs) returns (data: seq<MedicationRecord>)
    requires rng.Valid() && rng.draws == 0 && I.Valid()
    modifies rng
    ensures data == MedicationsFrom(rng.values, Max(count, 0), I)
  {
    ghost var step := MedicationStep(rng.values, I);
    data := [];
    var i := 0;
    while i < count
      invariant 0 <= i <= Max(count, 0)
      invariant rng.Valid() && rng.draws == ThreadPos(step, i)
      invariant data == ThreadItems(step, i)
    {
      ghost var expected := MedicationAt(rng.values, rng.draws, i, I);
      assert step(i, rng.draws) == expected;
      var d := NextDrawn(rng, I);
      var r := Build(i, I, d);
      ThreadNext(step, i);
      data := data + [r];
      i := i + 1;
    }
    assert i == Max(count, 0);
  }

  /** `generateMedications(patientIds, count, seed, params)`. */
  method GenerateMedications(patientIds: seq<string>, count: int, seed: int, P: MedicationsParams,
                             catalog: seq<Medication>, addDays: (string, int) -> string)
    returns (data: seq<MedicationRecord>)
    requires |patientIds| > 0 && |catalog| > 0
    ensures data == MedicationsFrom(StreamDraws(seed), Max(count, 0), Inputs(patientIds, catalog, addDays, P))
    ensures forall k | 0 <= k < |data| :: WellFormed(data[k], k, Inputs(patientIds, catalog, addDays, P))
  {
    var I := Inputs(patientIds, catalog, addDays, P);
    var rng := new Mulberry32(seed);
    data := MedicationLoop(rng, count, I);
    forall k | 0 <= k < |data|
      ensures WellFormed(data[k], k, I)
    {
      MedicationsWellFormed(StreamDraws(seed), Max(count, 0), I, k);
    }
  }
}
