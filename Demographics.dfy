/** frontend/src/generators/demographics.ts: patients with a birth date,
    a sex, a commune picked by population and a health-insurance
    scheme (previsión). The commune table is the parameter `cs`. */
module Demographics {
  import opened Prelude
  import opened Stream
  import opened Text
  import opened Sampling
  import opened Comunas

  /** The previsión values, with their display names. */
  datatype Prevision = FonasaA | FonasaB | FonasaC | FonasaD | Isapre | SinPrevision {
    function Name(): string {
      match this
      case FonasaA => "FONASA A"
      case FonasaB => "FONASA B"
      case FonasaC => "FONASA C"
      case FonasaD => "FONASA D"
      case Isapre => "ISAPRE"
      case SinPrevision => "Sin previsión"
    }

    /** The rank of a FONASA tier, A = 0 to D = 3. */
    function Tier(): nat
      requires IsFonasa()
    {
      match this
      case FonasaA => 0
      case FonasaB => 1
      case FonasaC => 2
      case FonasaD => 3
    }

    predicate IsFonasa() { FonasaA? || FonasaB? || FonasaC? || FonasaD? }
  }

  datatype FonasaDistribution = FonasaDistribution(a: real, b: real, c: real, d: real)

  datatype DemographicsParams = DemographicsParams(
    minBirthYear: int,
    maxBirthYear: int,
    femaleRatio: real,
    isapreRatio: real,
    fonasa: FonasaDistribution)

  /** The defaults of `generateDemographics`. */
  const DefaultParams := DemographicsParams(1940, 2024, 0.51, 0.17,
    FonasaDistribution(0.15, 0.35, 0.25, 0.25))

  const CurrentYear := 2025

  /** Assumed current month: mid-year. */
  const CurrentMonth := 6

  const HighIncomeComunas: seq<string> :=
    ["Las Condes", "Vitacura", "Lo Barnechea", "Providencia", "Ñuñoa"]

  datatype Demographic = Demographic(
    patientId: string,
    birthYear: int,
    age: int,
    ageMonths: int,
    sex: string,
    region: string,
    regionCode: string,
    comuna: string,
    comunaCode: string,
    ruralidad: Ruralidad,
    prevision: Prevision,
    insuranceType: string)

  // ---------------------------------------------------------------
  // weightedComunaPick
  // ---------------------------------------------------------------

  /** `weightedComunaPick`: the same scan as `getRandomComunaWeighted`,
      but falling back to the LAST commune. */
  method WeightedComunaPick(rng: Mulberry32, cs: seq<Comuna>) returns (c: Comuna)
    requires rng.Valid() && |cs| > 0
    modifies rng
    ensures rng.Valid() && rng.draws == old(rng.draws) + 1
    ensures c == WeightedPick(cs, rng.values(old(rng.draws)), cs[|cs| - 1])
  {
    var u := rng.Next();
    var found := ScanPopulation(cs, PickTarget(cs, u));
    c := if found.Some? then cs[found.value] else cs[|cs| - 1];
  }

  /** The pick is always a commune of the table; with non-negative
      populations it is the first whose cumulative population reaches
      `u * total`, so the fallback is never used. */
  lemma ComunaPickInTable(cs: seq<Comuna>, u: real)
    requires |cs| > 0 && 0.0 <= u < 1.0
    ensures WeightedPick(cs, u, cs[|cs| - 1]) in cs
    ensures (forall c | c in cs :: c.poblacion >= 0) ==>
      exists k | 0 <= k < |cs| :: WeightedPick(cs, u, cs[|cs| - 1]) == cs[k]
        && PopulationUpTo(cs, k + 1) as real >= PickTarget(cs, u)
        && forall j | 0 < j <= k :: (PopulationUpTo(cs, j) as real) < PickTarget(cs, u)
  {
    FirstReachingIsFirst(cs, PickTarget(cs, u), 0);
    if forall c | c in cs :: c.poblacion >= 0 {
      WeightedPickFinds(cs, u);
      var k := FirstReaching(cs, PickTarget(cs, u), 0).value;
      assert WeightedPick(cs, u, cs[|cs| - 1]) == cs[k];
    }
  }

  // ---------------------------------------------------------------
  // determinePrevision
  // ---------------------------------------------------------------

  /** `r < num / den` as JavaScript evaluates it: a zero denominator makes
      the quotient +Infinity (true), -Infinity or NaN (false). */
  predicate BelowRatio(r: real, num: real, den: real) {
    if den == 0.0 then num > 0.0 else r < num / den
  }

  /** The FONASA tier for the draw `r`: the first cumulative normalised
      threshold `r` falls under; tier A's weight is 1.5 times larger in a
      rural commune. */
  function FonasaTier(r: real, rural: bool, dist: FonasaDistribution): Prevision {
    var a := if rural then dist.a * 1.5 else dist.a;
    var total := a + dist.b + dist.c + dist.d;
    if BelowRatio(r, a, total) then FonasaA
    else if BelowRatio(r, a + dist.b, total) then FonasaB
    else if BelowRatio(r, a + dist.b + dist.c, total) then FonasaC
    else FonasaD
  }

  /** The tier boundaries: the cumulative weight below tier `k`. */
  function TierFloor(k: nat, a: real, dist: FonasaDistribution): real {
    if k == 0 then 0.0
    else if k == 1 then a
    else if k == 2 then a + dist.b
    else a + dist.b + dist.c
  }

  /** With non-negative weights and a positive total the tiers partition
      [0, 1): the tier picked is the one whose normalised interval holds
      `r`, so a larger draw never gives a lower tier. */
  lemma FonasaTierInterval(r: real, rural: bool, dist: FonasaDistribution)
    requires 0.0 <= r < 1.0
    requires dist.a >= 0.0 && dist.b >= 0.0 && dist.c >= 0.0 && dist.d >= 0.0
    requires dist.a + dist.b + dist.c + dist.d > 0.0
    ensures var p := FonasaTier(r, rural, dist);
      var a := if rural then dist.a * 1.5 else dist.a;
      var total := a + dist.b + dist.c + dist.d;
      p.IsFonasa()
      && TierFloor(p.Tier(), a, dist) / total <= r
      && (p.Tier() < 3 ==> r < TierFloor(p.Tier() + 1, a, dist) / total)
  {
    var a := if rural then dist.a * 1.5 else dist.a;
    var total := a + dist.b + dist.c + dist.d;
    assert a >= dist.a;
    assert total > 0.0;
    assert 0.0 / total == 0.0;
  }

  lemma FonasaTierMonotone(r1: real, r2: real, rural: bool, dist: FonasaDistribution)
    requires 0.0 <= r1 <= r2 < 1.0
    requires dist.a >= 0.0 && dist.b >= 0.0 && dist.c >= 0.0 && dist.d >= 0.0
    requires dist.a + dist.b + dist.c + dist.d > 0.0
    ensures FonasaTier(r1, rural, dist).Tier() <= FonasaTier(r2, rural, dist).Tier()
  {
    FonasaTierInterval(r1, rural, dist);
    FonasaTierInterval(r2, rural, dist);
    var a := if rural then dist.a * 1.5 else dist.a;
    var total := a + dist.b + dist.c + dist.d;
    var t1 := FonasaTier(r1, rural, dist).Tier();
    var t2 := FonasaTier(r2, rural, dist).Tier();
    if t2 < t1 {
      FloorsIncrease(t2 + 1, t1, a, dist, total);
    }
  }

  lemma FloorsIncrease(j: nat, k: nat, a: real, dist: FonasaDistribution, total: real)
    requires j <= k <= 3 && total > 0.0
    requires a >= 0.0 && dist.b >= 0.0 && dist.c >= 0.0
    ensures TierFloor(j, a, dist) / total <= TierFloor(k, a, dist) / total
  {
    assert TierFloor(j, a, dist) <= TierFloor(k, a, dist);
  }

  /** `determinePrevision` for the draws from `pos` on: the previsión and
      the number of draws it took (1, 2 or 3). */
  function PrevisionAt(ds: Draws, pos: nat, comuna: Comuna, isapreRatio: real, dist: FonasaDistribution)
    : (r: (Prevision, nat))
  {
    var highIncome := comuna.nombre in HighIncomeComunas;
    var adjusted := if highIncome then isapreRatio * 2.5 else isapreRatio;
    if ds(pos) < 0.02 then (SinPrevision, 1)
    else if ds(pos + 1) < adjusted then (Isapre, 2)
    else (FonasaTier(ds(pos + 2), comuna.ruralidad == Rural, dist), 3)
  }

  /** No coverage exactly when the first draw is under 0.02; otherwise
      ISAPRE exactly when the second draw is under the ISAPRE ratio, 2.5
      times larger in the five high-income communes; otherwise a FONASA
      tier from a third draw. */
  lemma PrevisionCascade(ds: Draws, pos: nat, comuna: Comuna, isapreRatio: real, dist: FonasaDistribution)
    ensures var (p, n) := PrevisionAt(ds, pos, comuna, isapreRatio, dist);
      var ratio := if comuna.nombre in HighIncomeComunas then isapreRatio * 2.5 else isapreRatio;
      (p == SinPrevision <==> ds(pos) < 0.02)
      && (p == Isapre <==> ds(pos) >= 0.02 && ds(pos + 1) < ratio)
      && (p.IsFonasa() <==> ds(pos) >= 0.02 && ds(pos + 1) >= ratio)
      && n == (if p == SinPrevision then 1 else if p == Isapre then 2 else 3)
  {
    var p := PrevisionAt(ds, pos, comuna, isapreRatio, dist).0;
    assert FonasaTier(ds(pos + 2), comuna.ruralidad == Rural, dist).IsFonasa();
  }

  method DeterminePrevision(rng: Mulberry32, comuna: Comuna, isapreRatio: real, dist: FonasaDistribution)
    returns (p: Prevision)
    requires rng.Valid()
    modifies rng
    ensures rng.Valid()
    ensures (p, rng.draws - old(rng.draws)) == PrevisionAt(rng.values, old(rng.draws), comuna, isapreRatio, dist)
  {
    var highIncome := comuna.nombre in HighIncomeComunas;
    var adjusted := if highIncome then isapreRatio * 2.5 else isapreRatio;
    var rural := comuna.ruralidad == Rural;
    var u1 := rng.Next();
    if u1 < 0.02 {
      return SinPrevision;
    }
    var u2 := rng.Next();
    if u2 < adjusted {
      return Isapre;
    }
    var r := rng.Next();
    p := FonasaTier(r, rural, dist);
  }

  /** `insurance_type`. */
  function InsuranceType(p: Prevision): (t: string)
    ensures t == "Privado" <==> p == Isapre
    ensures t == "Sin cobertura" <==> p == SinPrevision
    ensures t == "Público" <==> p.IsFonasa()
  {
    if p == Isapre then "Privado"
    else if p == SinPrevision then "Sin cobertura"
    else "Público"
  }

  // ---------------------------------------------------------------
  // One record and the list
  // ---------------------------------------------------------------

  /** Age in months at mid-year, never negative. */
  function AgeMonths(birthYear: int, birthMonth: int): int {
    Max(0, (CurrentYear - birthYear) * 12 + (CurrentMonth - birthMonth))
  }

  /** Birth year, birth month (1..12) and sex from the first three draws
      of a record. */
  function PersonAt(ds: Draws, pos: nat, P: DemographicsParams): (int, int, string) {
    (IntFromDraw(ds(pos), P.minBirthYear, P.maxBirthYear),
     IntFromDraw(ds(pos + 1), 1, 12),
     if ds(pos + 2) < P.femaleRatio then "F" else "M")
  }

  method DrawPerson(rng: Mulberry32, P: DemographicsParams) returns (birthYear: int, birthMonth: int, sex: string)
    requires rng.Valid()
    modifies rng
    ensures rng.Valid() && rng.draws == old(rng.draws) + 3
    ensures (birthYear, birthMonth, sex) == PersonAt(rng.values, old(rng.draws), P)
  {
    birthYear := RandomInt(rng, P.minBirthYear, P.maxBirthYear);
    birthMonth := RandomInt(rng, 1, 12);
    var u := rng.Next();
    sex := if u < P.femaleRatio then "F" else "M";
  }

  /** The record built from the values drawn for it. */
  function Assemble(i: nat, birthYear: int, birthMonth: int, sex: string, c: Comuna, p: Prevision): Demographic {
    Demographic(
      PatientId(birthYear, sex, c.regionCodigo, i),
      birthYear,
      CurrentYear - birthYear,
      AgeMonths(birthYear, birthMonth),
      sex,
      c.region, c.regionCodigo, c.nombre, c.codigo, c.ruralidad,
      p, InsuranceType(p))
  }

  /** Record `i` when its draws start at `pos`, and the position after
      it: birth year, birth month, sex, commune, then the previsión. */
  function DemographicAt(ds: Draws, pos: nat, i: nat, cs: seq<Comuna>, P: DemographicsParams)
    : (r: (Demographic, nat))
    requires |cs| > 0
    ensures pos + 5 <= r.1 <= pos + 7
  {
    var (birthYear, birthMonth, sex) := PersonAt(ds, pos, P);
    var c := WeightedPick(cs, ds(pos + 3), cs[|cs| - 1]);
    var (p, n) := PrevisionAt(ds, pos + 4, c, P.isapreRatio, P.fonasa);
    (Assemble(i, birthYear, birthMonth, sex, c, p), pos + 4 + n)
  }

  /** Every record: a birth year in the configured range, age
      `2025 - birthYear`, non-negative age in months, a sex of F or M,
      the patient id of its birth year, sex, region code and index, and
      the region, commune and rurality of one commune of the table. */
  lemma DemographicFields(ds: Draws, pos: nat, i: nat, cs: seq<Comuna>, P: DemographicsParams)
    requires |cs| > 0
    ensures var d := DemographicAt(ds, pos, i, cs, P).0;
      (P.minBirthYear <= P.maxBirthYear ==> P.minBirthYear <= d.birthYear <= P.maxBirthYear)
      && d.age == CurrentYear - d.birthYear
      && d.ageMonths >= 0
      && (d.sex == "F" || d.sex == "M")
      && d.patientId == PatientId(d.birthYear, d.sex, d.regionCode, i)
      && exists c | c in cs :: d.region == c.region && d.regionCode == c.regionCodigo
           && d.comuna == c.nombre && d.comunaCode == c.codigo && d.ruralidad == c.ruralidad
  {
    var c := WeightedPick(cs, ds(pos + 3), cs[|cs| - 1]);
    ComunaPickInTable(cs, ds(pos + 3));
    assert c in cs;
  }

  /** The age in months is `12 * age + 6 - month` for a birth month 1..12
      when the patient was born before the current year, hence at least 6. */
  lemma AgeMonthsExact(birthYear: int, birthMonth: int)
    requires birthYear < CurrentYear && 1 <= birthMonth <= 12
    ensures AgeMonths(birthYear, birthMonth) == 12 * (CurrentYear - birthYear) + 6 - birthMonth
    ensures AgeMonths(birthYear, birthMonth) >= 6
  {
  }

  function DemographicStep(ds: Draws, cs: seq<Comuna>, P: DemographicsParams): (nat, nat) -> (Demographic, nat)
    requires |cs| > 0
  {
    (i: nat, pos: nat) => DemographicAt(ds, pos, i, cs, P)
  }

  /** The first `n` records: each starts reading where the previous one
      stopped. */
  function DemographicsFrom(ds: Draws, n: nat, cs: seq<Comuna>, P: DemographicsParams): (rs: seq<Demographic>)
    requires |cs| > 0
  {
    ThreadItems(DemographicStep(ds, cs, P), n)
  }

  /** One pass of the loop body. */
  method NextDemographic(rng: Mulberry32, i: nat, cs: seq<Comuna>, P: DemographicsParams) returns (d: Demographic)
    requires rng.Valid() && |cs| > 0
    modifies rng
    ensures rng.Valid()
    ensures (d, rng.draws) == DemographicAt(rng.values, old(rng.draws), i, cs, P)
  {
    var birthYear, birthMonth, sex := DrawPerson(rng, P);
    var c := WeightedComunaPick(rng, cs);
    var p := DeterminePrevision(rng, c, P.isapreRatio, P.fonasa);
    d := Assemble(i, birthYear, birthMonth, sex, c, p);
  }

  /** The loop of `generateDemographics`. */
  method DemographicsLoop(rng: Mulberry32, count: int, cs: seq<Comuna>, P: DemographicsParams)
    returns (data: seq<Demographic>)
    requires rng.Valid() && rng.draws == 0 && |cs| > 0
    modifies rng
    ensures data == DemographicsFrom(rng.values, Max(count, 0), cs, P)
  {
    ghost var step := DemographicStep(rng.values, cs, P);
    data := [];
    var i := 0;
    while i < count
      invariant 0 <= i <= Max(count, 0)
      invariant rng.Valid() && rng.draws == ThreadPos(step, i)
      invariant data == ThreadItems(step, i)
    {
      ghost var expected := DemographicAt(rng.values, rng.draws, i, cs, P);
      assert step(i, rng.draws) == expected;
      var d := NextDemographic(rng, i, cs, P);
      ThreadNext(step, i);
      data := data + [d];
      i := i + 1;
    }
    assert i == Max(count, 0);
  }

  /** `generateDemographics(count, seed, params)` over the commune table
      `cs`. */
  method GenerateDemographics(count: int, seed: int, cs: seq<Comuna>, P: DemographicsParams)
    returns (data: seq<Demographic>)
    requires |cs| > 0
    ensures data == DemographicsFrom(StreamDraws(seed), Max(count, 0), cs, P)
  {
    var rng := new Mulberry32(seed);
    data := DemographicsLoop(rng, count, cs, P);
  }

  // ---------------------------------------------------------------
  // generateDemographicsLegacy
  // ---------------------------------------------------------------

  datatype LegacyDemographic = LegacyDemographic(
    patientId: string, age: int, sex: string, region: string, urban: string, insurance: string)

  /** The old previsión spelling: lower case, first space turned into `_`. */
  function LegacyInsurance(p: Prevision): string {
    ReplaceFirst(ToLower(p.Name()), ' ', "_")
  }

  function ToLegacy(d: Demographic): LegacyDemographic {
    LegacyDemographic(d.patientId, d.age, d.sex, d.regionCode,
      if d.ruralidad == Urbano then "urban" else "rural",
      LegacyInsurance(d.prevision))
  }

  /** The legacy spellings written out: the five insurance codes of the
      other generators, and `sin_previsión`. */
  function LegacyCode(p: Prevision): string {
    match p
    case FonasaA => "fonasa_a"
    case FonasaB => "fonasa_b"
    case FonasaC => "fonasa_c"
    case FonasaD => "fonasa_d"
    case Isapre => "isapre"
    case SinPrevision => "sin_previsión"
  }

  /** Lower-casing and replacing the first space gives exactly those
      spellings, so every legacy insurance other than `sin_previsión` is
      one of the insurance codes. */
  lemma LegacyInsuranceNames(p: Prevision)
    ensures LegacyInsurance(p) == LegacyCode(p)
    ensures p != SinPrevision ==> LegacyInsurance(p) in InsuranceTypes
  {
    if p.IsFonasa() {
      LegacyFonasa(p);
    } else if p == Isapre {
      LegacyIsapre();
    } else {
      LegacyNoCoverage();
    }
  }

  lemma LegacyFonasa(p: Prevision)
    requires p.IsFonasa()
    ensures LegacyInsurance(p) == LegacyCode(p) == InsuranceTypes[p.Tier()]
  {
    var x := match p case FonasaA => 'A' case FonasaB => 'B' case FonasaC => 'C' case FonasaD => 'D';
    assert p.Name() == "FONASA " + [x];
    FonasaSpelling(x);
    assert LegacyCode(p) == "fonasa_" + [LowerChar(x)];
    FonasaCode(p);
  }

  lemma FonasaCode(p: Prevision)
    requires p.IsFonasa()
    ensures LegacyCode(p) == InsuranceTypes[p.Tier()]
  {
    match p
    case FonasaA =>
    case FonasaB =>
    case FonasaC =>
    case FonasaD =>
  }

  lemma FonasaSpelling(x: char)
    requires 'A' <= x <= 'D'
    ensures ReplaceFirst(ToLower("FONASA " + [x]), ' ', "_") == "fonasa_" + [LowerChar(x)]
  {
    var s := "FONASA " + [x];
    var t := "fonasa " + [LowerChar(x)];
    assert forall i | 0 <= i < |s| :: t[i] == LowerChar(s[i]);
    LegacySpelling(s, t, 6, "fonasa_" + [LowerChar(x)]);
  }

  lemma LegacyIsapre()
    ensures LegacyInsurance(Isapre) == LegacyCode(Isapre) == InsuranceTypes[4]
  {
    var s, t := Isapre.Name(), "isapre";
    assert forall i | 0 <= i < |s| :: t[i] == LowerChar(s[i]);
    LegacySpelling(s, t, 6, LegacyCode(Isapre));
  }

  lemma LegacyNoCoverage()
    ensures LegacyInsurance(SinPrevision) == LegacyCode(SinPrevision)
  {
    var s, t := "Sin previsión", "sin previsión";
    assert s == SinPrevision.Name();
    assert LowerChar(s[0]) == t[0];
    assert forall i | 1 <= i < |s| :: LowerChar(s[i]) == t[i];
    LegacySpelling(s, t, 3, LegacyCode(SinPrevision));
  }

  /** `lower` is `name` lower-cased, with its first space at `k`, or
      none when `k` is its length. */
  lemma LegacySpelling(name: string, lower: string, k: nat, code: string)
    requires |lower| == |name| && forall i | 0 <= i < |name| :: lower[i] == LowerChar(name[i])
    requires k <= |lower| && ' ' !in lower[..k] && (k < |lower| ==> lower[k] == ' ')
    requires code == if k < |lower| then lower[..k] + "_" + lower[k + 1..] else lower
    ensures ReplaceFirst(ToLower(name), ' ', "_") == code
  {
    LowerLetters(name, lower);
    if k < |lower| {
      IndexOfFirst(lower, ' ', k);
    } else {
      assert lower[..k] == lower;
    }
  }

  /** `generateDemographicsLegacy`: the same records, mapped one to one. */
  method GenerateDemographicsLegacy(count: int, seed: int, cs: seq<Comuna>, P: DemographicsParams)
    returns (data: seq<LegacyDemographic>)
    requires |cs| > 0
    ensures var rs := DemographicsFrom(StreamDraws(seed), Max(count, 0), cs, P);
      |data| == |rs| && forall k | 0 <= k < |rs| :: data[k] == ToLegacy(rs[k])
  {
    var rs := GenerateDemographics(count, seed, cs, P);
    data := seq(|rs|, k requires 0 <= k < |rs| => ToLegacy(rs[k]));
  }

  /** `urban` is "urban" exactly for urban communes, and the identity
      fields carry over. */
  lemma LegacyFields(d: Demographic)
    ensures var l := ToLegacy(d);
      (l.urban == "urban" <==> d.ruralidad == Urbano)
      && l.patientId == d.patientId && l.age == d.age && l.sex == d.sex && l.region == d.regionCode
  {
  }
}
