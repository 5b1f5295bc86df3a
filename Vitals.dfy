/** frontend/src/generators/vitals.ts: vital-sign records of given
    patients. Age and sex come from the patients' map or, for a patient
    missing from it, from two draws; weight and height are piecewise in
    the age; the six signs are the reference generators of
    frontend/src/data/vital-ranges.ts plus a jitter read from a second
    stream seeded with `seed + i`. */
module Vitals {
  import opened Prelude
  import opened Stream
  import opened Text
  import opened Sampling
  import VR = VitalRanges

  datatype Sex = M | F

  /** What the patients' map holds for one patient. */
  datatype PatientInfo = PatientInfo(ageMeses: int, sex: Sex)

  datatype VitalsRecord = VitalsRecord(
    vitalId: string, patientId: string, encounterId: string, ageMonths: int,
    heartRate: real, respiratoryRate: real, systolicBp: real, diastolicBp: real,
    temperature: real, oxygenSaturation: real,
    weight: real, height: int, bmi: real, date: string)

  /** What the generator reads besides the stream: the patients, their
      ages, the table of reference ranges, the year, and the standard
      normal deviates `zs(i, signo)` that the reference generators take
      from `Math.random` for record `i`. */
  datatype Inputs = Inputs(
    patientIds: seq<string>, ages: map<string, PatientInfo>, table: seq<VR.RangoVital>,
    year: int, zs: (nat, VR.SignoVital) -> real)
  {
    predicate Valid() { |patientIds| > 0 }
  }

  // ---------------------------------------------------------------
  // Weight and height
  // ---------------------------------------------------------------

  /** `generateWeight(rng, ageMeses, sex)` for its one draw `u`. */
  function Weight(u: real, age: int, sex: Sex): real {
    var a := age as real;
    if age < 1 then 2.5 + u * 1.5
    else if age < 12 then 3.0 + a * 0.5 + u * 2.0
    else if age < 24 then 8.0 + u * 4.0
    else if age < 72 then 12.0 + (a / 12.0) * 2.0 + u * 4.0
    else if age < 144 then 20.0 + (a / 12.0) * 3.0 + u * 8.0
    else if age < 216 then 45.0 + u * 20.0
    else (if sex == M then 75.0 else 65.0) + (u - 0.5) * 30.0
  }

  /** `generateHeight(rng, ageMeses, sex)` for its one draw `u`. */
  function Height(u: real, age: int, sex: Sex): real {
    var a := age as real;
    if age < 1 then 48.0 + u * 4.0
    else if age < 12 then 50.0 + a * 2.0 + u * 3.0
    else if age < 24 then 70.0 + a + u * 5.0
    else if age < 72 then 85.0 + (a / 12.0) * 6.0 + u * 8.0
    else if age < 144 then 100.0 + (a / 12.0) * 5.0 + u * 10.0
    else if age < 216 then 150.0 + u * 20.0
    else (if sex == M then 172.0 else 160.0) + (u - 0.5) * 20.0
  }

  /** The weight band, in kilograms, of each age group (the two adult
      groups share one). */
  function WeightBand(g: VR.GrupoEtario, sex: Sex): (real, real) {
    match g
    case RecienNacido => (2.5, 4.0)
    case LactanteMenor => (3.5, 10.5)
    case LactanteMayor => (8.0, 12.0)
    case Preescolar => (16.0, 28.0)
    case Escolar => (38.0, 64.0)
    case Adolescente => (45.0, 65.0)
    case _ => if sex == M then (60.0, 90.0) else (50.0, 80.0)
  }

  /** The height band, in centimetres, of each age group. */
  function HeightBand(g: VR.GrupoEtario, sex: Sex): (real, real) {
    match g
    case RecienNacido => (48.0, 52.0)
    case LactanteMenor => (52.0, 75.0)
    case LactanteMayor => (82.0, 98.0)
    case Preescolar => (97.0, 129.0)
    case Escolar => (130.0, 170.0)
    case Adolescente => (150.0, 170.0)
    case _ => if sex == M then (162.0, 182.0) else (150.0, 170.0)
  }

  /** The weight thresholds are those of the age groups: a weight lies in
      the band of the patient's age group. */
  lemma WeightInBand(u: real, age: int, sex: Sex)
    requires 0.0 <= u < 1.0
    ensures var b := WeightBand(VR.GetGrupoEtario(age as real), sex);
      b.0 <= Weight(u, age, sex) < b.1
  {
  }

  lemma HeightInBand(u: real, age: int, sex: Sex)
    requires 0.0 <= u < 1.0
    ensures var b := HeightBand(VR.GetGrupoEtario(age as real), sex);
      b.0 <= Height(u, age, sex) < b.1
  {
  }

  /** Sex plays a part only from 216 months on. */
  lemma SexOnlyForAdults(u: real, age: int)
    requires age < 216
    ensures Weight(u, age, M) == Weight(u, age, F) && Height(u, age, M) == Height(u, age, F)
  {
  }

  /** Both grow with the draw. */
  lemma GrowWithDraw(u1: real, u2: real, age: int, sex: Sex)
    requires u1 <= u2
    ensures Weight(u1, age, sex) <= Weight(u2, age, sex)
    ensures Height(u1, age, sex) <= Height(u2, age, sex)
  {
  }

  /** `Math.round(generateHeight(...))`: from 48 to 182 centimetres, so
      the BMI never divides by zero. */
  function RoundedHeight(u: real, age: int, sex: Sex): (h: int)
    requires 0.0 <= u < 1.0
    ensures 48 <= h <= 182
  {
    HeightInBand(u, age, sex);
    Round(Height(u, age, sex))
  }

  /** `Math.round((weight / Math.pow(height / 100, 2)) * 10) / 10`. */
  function Bmi(weight: real, height: int): real
    requires height > 0
  {
    var m := height as real / 100.0;
    RoundTo(weight / (m * m), 10)
  }

  // ---------------------------------------------------------------
  // The signs
  // ---------------------------------------------------------------

  /** `Math.floor((v - 0.5) * width)`. */
  function Jitter(v: real, width: nat): int {
    ((v - 0.5) * width as real).Floor
  }

  /** For a draw in [0, 1) and each width the generator uses, the
      jitter is at least `-width / 2` and below `width / 2`. */
  lemma JitterRange(v: real, width: nat)
    requires 0.0 <= v < 1.0 && width in {4, 8, 10}
    ensures -(width / 2) <= Jitter(v, width) < width / 2
  {
    if width == 4 {
      assert -2.0 <= (v - 0.5) * 4.0 < 2.0;
    } else if width == 8 {
      assert -4.0 <= (v - 0.5) * 8.0 < 4.0;
    } else {
      assert -5.0 <= (v - 0.5) * 10.0 < 5.0;
    }
  }

  /** The six signs, in the order of the object literal. */
  datatype Signs = Signs(
    heartRate: real, respiratoryRate: real, systolicBp: real, diastolicBp: real,
    temperature: real, oxygenSaturation: real)

  /** The reference value of a sign for record `i` at age `age`. */
  function Reference(I: Inputs, signo: VR.SignoVital, age: int, i: nat): real
    requires VR.HasGenerator(signo)
  {
    VR.Generar(I.table, signo, age as real, I.zs(i, signo))
  }

  /** `generarFrecuenciaCardiaca(ageMeses)` and the five others. */
  function References(I: Inputs, age: int, i: nat): Signs {
    Signs(
      Reference(I, VR.FrecuenciaCardiaca, age, i), Reference(I, VR.FrecuenciaRespiratoria, age, i),
      Reference(I, VR.PresionSistolica, age, i), Reference(I, VR.PresionDiastolica, age, i),
      Reference(I, VR.Temperatura, age, i), Reference(I, VR.SaturacionO2, age, i))
  }

  /** The signs of a record: the reference values `g` moved by the jitter
      read from the record's own stream `vs`. */
  function SignsAt(vs: Draws, g: Signs): Signs {
    Jittered(vs(0), vs(1), vs(2), vs(3), vs(4), vs(5), g)
  }

  /** The reference values moved by the six draws of the second stream. */
  function Jittered(v0: real, v1: real, v2: real, v3: real, v4: real, v5: real, g: Signs): Signs {
    Signs(
      g.heartRate + Jitter(v0, 10) as real,
      g.respiratoryRate + Jitter(v1, 4) as real,
      g.systolicBp + Jitter(v2, 10) as real,
      g.diastolicBp + Jitter(v3, 8) as real,
      RoundTo(g.temperature + (v4 - 0.5) * 0.6, 10),
      MinR(100.0, MaxR(90.0, g.oxygenSaturation + Jitter(v5, 4) as real)))
  }

  /** Each sign stays near its reference value: heart rate and systolic
      pressure within -5..+4, respiratory rate within -2..+1, diastolic
      pressure within -4..+3, temperature within 0.35 degrees; and the
      saturation is always between 90 and 100. */
  lemma SignsNearReference(vs: Draws, g: Signs)
    ensures var s := SignsAt(vs, g);
      var hr := s.heartRate - g.heartRate;
      var rr := s.respiratoryRate - g.respiratoryRate;
      var sb := s.systolicBp - g.systolicBp;
      var db := s.diastolicBp - g.diastolicBp;
      var t := s.temperature - g.temperature;
      -5.0 <= hr <= 4.0 && -2.0 <= rr <= 1.0 && -5.0 <= sb <= 4.0 && -4.0 <= db <= 3.0
      && -0.35 < t <= 0.35 && 90.0 <= s.oxygenSaturation <= 100.0
  {
    JitterRange(vs(0), 10);
    JitterRange(vs(1), 4);
    JitterRange(vs(2), 10);
    JitterRange(vs(3), 8);
    RoundToTenth(g.temperature + (vs(4) - 0.5) * 0.6);
  }

  /** Rounding to one decimal moves a value by at most half a tenth. */
  lemma RoundToTenth(v: real)
    ensures v - 0.05 < RoundTo(v, 10) <= v + 0.05
  {
    var k := Round(v * 10.0);
    assert v * 10.0 - 0.5 < k as real <= v * 10.0 + 0.5;
    assert RoundTo(v, 10) == k as real / 10.0;
  }

  // ---------------------------------------------------------------
  // Records
  // ---------------------------------------------------------------

  /** `defaultAge()` for its two draws: 216 to 995 months, F below 0.51. */
  function DefaultAge(u1: real, u2: real): (p: PatientInfo)
    requires 0.0 <= u1 < 1.0
    ensures 216 <= p.ageMeses <= 995
    ensures p.sex == F <==> u2 < 0.51
  {
    PatientInfo(ScaledFloor(u1, 780) + 216, if u2 < 0.51 then F else M)
  }

  /** The patient of a record with its age and sex. */
  datatype Head = Head(patientId: string, info: PatientInfo)

  /** The pick, then the map entry (`patientAges.get(id) || defaultAge()`:
      the entry is an object, so the default is drawn only when the
      patient is absent), and where the weight draw sits. */
  function HeadAt(ds: Draws, pos: nat, I: Inputs): (r: (Head, nat))
    requires I.Valid()
    ensures r.0.patientId in I.patientIds
    ensures r.0.patientId in I.ages ==> r.0.info == I.ages[r.0.patientId] && r.1 == pos + 1
    ensures r.0.patientId !in I.ages ==> 216 <= r.0.info.ageMeses <= 995 && r.1 == pos + 3
  {
    var id := PickFromDraw(ds(pos), I.patientIds);
    if id in I.ages then (Head(id, I.ages[id]), pos + 1)
    else (Head(id, DefaultAge(ds(pos + 1), ds(pos + 2))), pos + 3)
  }

  /** Weight, height and BMI, from two draws. */
  datatype Body = Body(weight: real, height: int, bmi: real)

  function BodyAt(uw: real, uh: real, p: PatientInfo): (b: Body)
    requires 0.0 <= uh < 1.0
    ensures 48 <= b.height <= 182
  {
    var weight := RoundTo(Weight(uw, p.ageMeses, p.sex), 10);
    var height := RoundedHeight(uh, p.ageMeses, p.sex);
    Body(weight, height, Bmi(weight, height))
  }

  /** `${prefix}-${year}-${hash(`${patientId}-${i}`)}`. */
  function RecordId(prefix: string, year: int, patientId: string, i: nat): string {
    prefix + "-" + IntToString(year) + "-" + Hash(patientId + "-" + NatToString(i))
  }

  /** The two ids of a record differ only in their prefix. */
  lemma IdsShareHash(year: int, patientId: string, i: nat)
    ensures var v := RecordId("VIT", year, patientId, i);
      var e := RecordId("ENC", year, patientId, i);
      |v| == |e| >= 4 && v[..4] == "VIT-" && e[..4] == "ENC-" && v[4..] == e[4..]
  {
    var rest := IntToString(year) + "-" + Hash(patientId + "-" + NatToString(i));
    assert RecordId("VIT", year, patientId, i) == "VIT-" + rest;
    assert RecordId("ENC", year, patientId, i) == "ENC-" + rest;
  }

  function Assemble(h: Head, i: nat, year: int, b: Body, s: Signs, date: string): VitalsRecord {
    VitalsRecord(
      RecordId("VIT", year, h.patientId, i), h.patientId, RecordId("ENC", year, h.patientId, i),
      h.info.ageMeses, s.heartRate, s.respiratoryRate, s.systolicBp, s.diastolicBp,
      s.temperature, s.oxygenSaturation, b.weight, b.height, b.bmi, date)
  }

  /** Weight, height and BMI from the draws at `p` and `p + 1`, and the
      date from the two after them. */
  function BodyDateAt(ds: Draws, p: nat, info: PatientInfo, year: int): (Body, string) {
    (BodyAt(ds(p), ds(p + 1), info), DateFromDraws(year, ds(p + 2), ds(p + 3)))
  }

  /** The rest of record `i` once its head is known and its weight draw
      sits at `p`, the signs read from the stream seeded with `second`,
      and the position after it. */
  function Complete(ds: Draws, h: Head, p: nat, i: nat, second: int, I: Inputs): (VitalsRecord, nat) {
    var bd := BodyDateAt(ds, p, h.info, I.year);
    var s := SignsAt(StreamDraws(second), References(I, h.info.ageMeses, i));
    (Assemble(h, i, I.year, bd.0, s, bd.1), p + 4)
  }

  /** Record `i` when its draws from the main stream start at `pos`. */
  function VitalAt(ds: Draws, pos: nat, i: nat, seed: int, I: Inputs): (VitalsRecord, nat)
    requires I.Valid()
  {
    var h := HeadAt(ds, pos, I);
    Complete(ds, h.0, h.1, i, seed + i, I)
  }

  function VitalStep(ds: Draws, seed: int, I: Inputs): (nat, nat) -> (VitalsRecord, nat)
    requires I.Valid()
  {
    (i: nat, pos: nat) => VitalAt(ds, pos, i, seed, I)
  }

  /** The first `n` records. */
  function VitalsFrom(ds: Draws, n: nat, seed: int, I: Inputs): seq<VitalsRecord>
    requires I.Valid()
  {
    ThreadItems(VitalStep(ds, seed, I), n)
  }

  /** Every record: a patient of the list; the age of the map when the
      patient is in it, else an age of 216 to 995 months; a height of 48
      to 182 cm; the signs of the second stream seeded with `seed + i`
      near their references, the saturation within 90..100; a date of the
      year; and vital and encounter ids over the same hash. */
  lemma VitalAtFields(ds: Draws, pos: nat, i: nat, seed: int, I: Inputs)
    requires I.Valid()
    ensures var r := VitalAt(ds, pos, i, seed, I).0;
      r.patientId in I.patientIds
      && (r.patientId in I.ages ==> r.ageMonths == I.ages[r.patientId].ageMeses)
      && (r.patientId !in I.ages ==> 216 <= r.ageMonths <= 995)
      && r.vitalId == RecordId("VIT", I.year, r.patientId, i)
      && r.encounterId == RecordId("ENC", I.year, r.patientId, i)
      && 48 <= r.height <= 182 && 90.0 <= r.oxygenSaturation <= 100.0
      && DateInYear(r.date, I.year)
  {
    var h := HeadAt(ds, pos, I);
    SignsNearReference(StreamDraws(seed + i), References(I, h.0.info.ageMeses, i));
    DrawnDateInYear(I.year, ds(h.1 + 2), ds(h.1 + 3));
  }

  /** Draws from the main stream per record: five, and two more for a
      patient missing from the map. */
  lemma VitalAtDraws(ds: Draws, pos: nat, i: nat, seed: int, I: Inputs)
    requires I.Valid()
    ensures var id := HeadAt(ds, pos, I).0.patientId;
      VitalAt(ds, pos, i, seed, I).1 == pos + (if id in I.ages then 5 else 7)
  {
  }

  // ---------------------------------------------------------------
  // The generators
  // ---------------------------------------------------------------

  method NextHead(rng: Mulberry32, I: Inputs) returns (h: Head)
    requires rng.Valid() && I.Valid()
    modifies rng
    ensures rng.Valid() && (h, rng.draws) == HeadAt(rng.values, old(rng.draws), I)
  {
    var id := RandomPick(rng, I.patientIds);
    if id in I.ages {
      h := Head(id, I.ages[id]);
    } else {
      var u1 := rng.Next();
      var u2 := rng.Next();
      h := Head(id, DefaultAge(u1, u2));
    }
  }

  /** The signs, from a fresh stream seeded with `seed + i`. */
  method NextSigns(seed: int, g: Signs) returns (s: Signs)
    ensures s == SignsAt(StreamDraws(seed), g)
  {
    var vitalRng := new Mulberry32(seed);
    s := JitterFrom(vitalRng, g);
  }

  /** The six draws of a fresh stream applied to the reference values. */
  method JitterFrom(vitalRng: Mulberry32, g: Signs) returns (s: Signs)
    requires vitalRng.Valid() && vitalRng.draws == 0
    modifies vitalRng
    ensures s == SignsAt(vitalRng.values, g)
  {
    var v0, v1, v2 := NextThree(vitalRng);
    var v3, v4, v5 := NextThree(vitalRng);
    s := Jittered(v0, v1, v2, v3, v4, v5, g);
  }

  /** Three draws in a row. */
  method NextThree(rng: Mulberry32) returns (a: real, b: real, c: real)
    requires rng.Valid()
    modifies rng
    ensures rng.Valid() && rng.draws == old(rng.draws) + 3
    ensures a == rng.values(old(rng.draws)) && b == rng.values(old(rng.draws) + 1)
    ensures c == rng.values(old(rng.draws) + 2)
  {
    a := rng.Next();
    b := rng.Next();
    c := rng.Next();
  }

  method NextComplete(rng: Mulberry32, h: Head, i: nat, second: int, I: Inputs) returns (r: VitalsRecord)
    requires rng.Valid()
    modifies rng
    ensures rng.Valid() && (r, rng.draws) == Complete(rng.values, h, old(rng.draws), i, second, I)
  {
    var b, date := NextBodyDate(rng, h.info, I.year);
    var s := NextSigns(second, References(I, h.info.ageMeses, i));
    r := Assemble(h, i, I.year, b, s, date);
  }

  /** Weight and height, then the date: four draws of the main stream. */
  method NextBodyDate(rng: Mulberry32, info: PatientInfo, year: int) returns (b: Body, date: string)
    requires rng.Valid()
    modifies rng
    ensures rng.Valid() && rng.draws == old(rng.draws) + 4
    ensures (b, date) == BodyDateAt(rng.values, old(rng.draws), info, year)
  {
    var uw := rng.Next();
    var uh := rng.Next();
    b := BodyAt(uw, uh, info);
    date := RandomDate(rng, year);
  }

  /** One pass of the loop body. */
  method NextVital(rng: Mulberry32, i: nat, seed: int, I: Inputs) returns (r: VitalsRecord)
    requires rng.Valid() && I.Valid()
    modifies rng
    ensures rng.Valid() && (r, rng.draws) == VitalAt(rng.values, old(rng.draws), i, seed, I)
  {
    ghost var start := rng.draws;
    var h := NextHead(rng, I);
    ghost var p := rng.draws;
    r := NextComplete(rng, h, i, seed + i, I);
    assert VitalAt(rng.values, start, i, seed, I) == Complete(rng.values, h, p, i, seed + i, I);
  }

  method VitalsLoop(rng: Mulberry32, count: int, seed: int, I: Inputs) returns (data: seq<VitalsRecord>)
    requires rng.Valid() && rng.draws == 0 && I.Valid()
    modifies rng
    ensures data == VitalsFrom(rng.values, Max(count, 0), seed, I)
  {
    ghost var step := VitalStep(rng.values, seed, I);
    data := [];
    var i := 0;
    while i < count
      invariant 0 <= i <= Max(count, 0)
      invariant rng.Valid() && rng.draws == ThreadPos(step, i)
      invariant data == ThreadItems(step, i)
    {
      ghost var expected := VitalAt(rng.values, rng.draws, i, seed, I);
      assert step(i, rng.draws) == expected;
      var r := NextVital(rng, i, seed, I);
      ThreadNext(step, i);
      data := data + [r];
      i := i + 1;
    }
    assert i == Max(count, 0);
  }

  /** `generateVitals(patientIds, patientAges, count, seed, { year })`:
      `count` records (none for a count of zero or less). */
  method GenerateVitals(count: int, seed: int, I: Inputs) returns (data: seq<VitalsRecord>)
    requires I.Valid()
    ensures data == VitalsFrom(StreamDraws(seed), Max(count, 0), seed, I)
    ensures |data| == Max(count, 0)
  {
    var rng := new Mulberry32(seed);
    data := VitalsLoop(rng, count, seed, I);
  }

  /** `generateVitalsSimple`: `generateVitals` with an empty map. */
  method GenerateVitalsSimple(count: int, seed: int, I: Inputs) returns (data: seq<VitalsRecord>)
    requires I.Valid()
    ensures data == VitalsFrom(StreamDraws(seed), Max(count, 0), seed, I.(ages := map[]))
  {
    data := GenerateVitals(count, seed, I.(ages := map[]));
  }

  /** Every record of the generator has the fields of `VitalAtFields`. */
  lemma VitalsFromFields(ds: Draws, n: nat, seed: int, I: Inputs, k: nat)
    requires I.Valid() && k < n
    ensures var r := VitalsFrom(ds, n, seed, I)[k];
      r.patientId in I.patientIds && 48 <= r.height <= 182
      && 90.0 <= r.oxygenSaturation <= 100.0 && DateInYear(r.date, I.year)
      && (r.patientId !in I.ages ==> 216 <= r.ageMonths <= 995)
  {
    var step := VitalStep(ds, seed, I);
    ThreadItemsIndex(step, n, k);
    VitalAtFields(ds, ThreadPos(step, k), k, seed, I);
  }

  /** Without a map every age is a default one: 216 to 995 months. */
  lemma SimpleAgesAreDefault(ds: Draws, n: nat, seed: int, I: Inputs, k: nat)
    requires I.Valid() && k < n
    ensures 216 <= VitalsFrom(ds, n, seed, I.(ages := map[]))[k].ageMonths <= 995
  {
    VitalsFromFields(ds, n, seed, I.(ages := map[]), k);
  }
}
