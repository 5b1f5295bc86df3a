/** frontend/src/generators/immunizations.ts: vaccinations of the national
    immunization programme (PNI) for given patients. Each pass first draws
    whether the vaccination happened at all; a skipped pass pushes nothing
    but keeps its index, which the record ids carry. */
module Immunizations {
  import opened Prelude
  import opened Stream
  import opened Text
  import opened Sampling
  import opened Keyed

  /** The fields of a dose of the vaccine catalog the generator reads. */
  datatype VaccineDose = VaccineDose(doseNumber: int, doseSequence: string)

  /** The fields of a `Vaccine` of the catalog the generator reads (the
      campaign name is not). */
  datatype Vaccine = Vaccine(
    cvxCode: string, name: string, shortName: string, targetDiseases: seq<string>,
    doses: seq<VaccineDose>, route: string, site: string, pni: bool)

  const InSchedule: Vaccine -> bool := (v: Vaccine) => v.pni

  /** `vaccines.filter(v => v.pni)`. */
  function PniVaccines(catalog: seq<Vaccine>): seq<Vaccine> {
    Filter(catalog, InSchedule)
  }

  datatype ImmunizationsParams = ImmunizationsParams(year: int, coverageRate: real)

  const DefaultParams := ImmunizationsParams(2024, 0.85)

  const InjectionSites: seq<string> := [
    "Deltoides derecho", "Deltoides izquierdo", "Vasto lateral derecho",
    "Vasto lateral izquierdo", "Glúteo"]

  const Organizations: seq<string> := [
    "DEIS-401100", "DEIS-401101", "DEIS-401102", "DEIS-401103", "DEIS-401104",
    "DEIS-401105", "DEIS-401106", "DEIS-401107", "DEIS-401200", "DEIS-401201"]

  /** `'ABCDEFGHIJKLMNOPQRSTUVWXYZ'`. */
  const Letters: string := "ABCDEFGHIJKLMNOPQRSTUVWXYZ"

  datatype ImmunizationRecord = ImmunizationRecord(
    immunizationId: string, patientId: string, vaccineName: string,
    vaccineShortName: string, cvxCode: string, doseNumber: int, doseSequence: string,
    date: string, lotNumber: string, site: string, route: string,
    organizationId: string, pniSchedule: bool, targetDiseases: string)

  /** The patient ids, the vaccine catalog and the parameters. The
      generator dereferences the drawn vaccine and the drawn dose, so it
      needs at least one PNI vaccine and a dose for each of them. */
  datatype Inputs = Inputs(patientIds: seq<string>, catalog: seq<Vaccine>, P: ImmunizationsParams)
  {
    predicate Valid() {
      |patientIds| > 0 && |PniVaccines(catalog)| > 0
      && forall v | v in PniVaccines(catalog) :: |v.doses| > 0
    }
  }

  // ---------------------------------------------------------------
  // Lot numbers
  // ---------------------------------------------------------------

  /** `generateLotNumber(rng, year)` for its three draws: two capital
      letters, a number below 9999 padded to four digits, and the year. */
  function LotFromDraws(u1: real, u2: real, u3: real, year: int): string
    requires 0.0 <= u1 < 1.0 && 0.0 <= u2 < 1.0 && 0.0 <= u3 < 1.0
  {
    [PickFromDraw(u1, Letters), PickFromDraw(u2, Letters)]
    + PadNumber(ScaledFloor(u3, 9999), 4) + "-" + IntToString(year)
  }

  /** The shape of a lot number, read back field by field. */
  predicate LotShaped(t: string, year: int) {
    |t| == 7 + |IntToString(year)|
    && t[0] in Letters && t[1] in Letters
    && AllDigits(t[2..6]) && ParseNat(t[2..6]) < 9999
    && t[6] == '-' && t[7..] == IntToString(year)
  }

  lemma LotFromDrawsShaped(u1: real, u2: real, u3: real, year: int)
    requires 0.0 <= u1 < 1.0 && 0.0 <= u2 < 1.0 && 0.0 <= u3 < 1.0
    ensures LotShaped(LotFromDraws(u1, u2, u3, year), year)
  {
    var n := ScaledFloor(u3, 9999);
    var num := PadNumber(n, 4);
    PaddedFour(n);
    ParsePadNumber(n, 4);
    var a := PickFromDraw(u1, Letters);
    var b := PickFromDraw(u2, Letters);
    var y := IntToString(year);
    var t := [a, b] + num + "-" + y;
    assert t[2..6] == num;
    assert t[7..] == y;
    assert t[0] == a && t[1] == b;
  }

  method GenerateLotNumber(rng: Mulberry32, year: int) returns (lot: string)
    requires rng.Valid()
    modifies rng
    ensures rng.Valid() && rng.draws == old(rng.draws) + 3
    ensures lot == LotFromDraws(rng.values(old(rng.draws)), rng.values(old(rng.draws) + 1),
                                rng.values(old(rng.draws) + 2), year)
  {
    var letter1 := RandomPick(rng, Letters);
    var letter2 := RandomPick(rng, Letters);
    var u := rng.Next();
    var num := PadNumber(ScaledFloor(u, 9999), 4);
    lot := [letter1, letter2] + num + "-" + IntToString(year);
  }

  // ---------------------------------------------------------------
  // One vaccination
  // ---------------------------------------------------------------

  /** The values drawn for a vaccination that happened. */
  datatype Drawn = Drawn(
    patientId: string, vaccine: Vaccine, dose: VaccineDose, date: string,
    lotNumber: string, site: string, organization: string)

  /** `vaccine.site || randomPick(rng, INJECTION_SITES)`: a draw only for
      a vaccine without a site of its own. */
  function SiteAt(ds: Draws, q: nat, v: Vaccine): (r: (string, nat))
    ensures r.1 == if v.site == "" then q + 1 else q
  {
    if v.site == "" then (PickFromDraw(ds(q), InjectionSites), q + 1) else (v.site, q)
  }

  /** The values drawn from `pos` on: patient, vaccine, dose, date (two
      draws), lot number (three), the site when the vaccine has none, and
      the organization. */
  function DrawnAt(ds: Draws, pos: nat, I: Inputs): (r: (Drawn, nat))
    requires I.Valid()
    ensures r.1 == pos + 9 || r.1 == pos + 10
  {
    var v := PickFromDraw(ds(pos + 1), PniVaccines(I.catalog));
    var site := SiteAt(ds, pos + 8, v);
    (Drawn(PickFromDraw(ds(pos), I.patientIds), v, PickFromDraw(ds(pos + 2), v.doses),
           DateFromDraws(I.P.year, ds(pos + 3), ds(pos + 4)),
           LotFromDraws(ds(pos + 5), ds(pos + 6), ds(pos + 7), I.P.year),
           site.0, PickFromDraw(ds(site.1), Organizations)),
     site.1 + 1)
  }

  function Build(i: nat, I: Inputs, d: Drawn): ImmunizationRecord {
    var v := d.vaccine;
    ImmunizationRecord(
      KeyedId("IMM", I.P.year, CodedKey(d.patientId, i, v.cvxCode)), d.patientId,
      v.name, v.shortName, v.cvxCode, d.dose.doseNumber, d.dose.doseSequence,
      d.date, d.lotNumber, d.site, v.route, d.organization, v.pni,
      Join(v.targetDiseases, ", "))
  }

  /** Pass `i` starting at `pos`: a draw above the coverage rate skips the
      pass; otherwise the vaccination is drawn from `pos + 1` on. */
  function ImmunizationAt(ds: Draws, pos: nat, i: nat, I: Inputs): (r: (Option<ImmunizationRecord>, nat))
    requires I.Valid()
  {
    if ds(pos) > I.P.coverageRate then (None, pos + 1)
    else (Some(Build(i, I, DrawnAt(ds, pos + 1, I).0)), DrawnAt(ds, pos + 1, I).1)
  }

  /** A vaccination takes 10 or 11 draws, a skipped pass one. */
  lemma ImmunizationDraws(ds: Draws, pos: nat, i: nat, I: Inputs)
    requires I.Valid()
    ensures var r := ImmunizationAt(ds, pos, i, I);
      (r.0.None? <==> ds(pos) > I.P.coverageRate)
      && (r.0.None? ==> r.1 == pos + 1)
      && (r.0.Some? ==> r.1 == pos + 10 || r.1 == pos + 11)
  {
  }

  /** The record copies the fields of the vaccine `v`, one of its doses,
      and the schedule site of `v` or else one of the injection sites. */
  predicate FromVaccine(r: ImmunizationRecord, v: Vaccine) {
    r.vaccineName == v.name && r.vaccineShortName == v.shortName && r.cvxCode == v.cvxCode
    && r.route == v.route && r.pniSchedule == v.pni
    && r.targetDiseases == Join(v.targetDiseases, ", ")
    && (exists d | d in v.doses :: r.doseNumber == d.doseNumber && r.doseSequence == d.doseSequence)
    && (if v.site == "" then r.site in InjectionSites else r.site == v.site)
  }

  /** What every vaccination pushed at pass `i` promises: a given patient,
      a PNI vaccine of the catalog, a date in the year, a lot number of
      the documented shape, one of the organizations, and ids built from
      the patient and the pass index. */
  predicate WellFormed(r: ImmunizationRecord, i: nat, I: Inputs) {
    Sourced(r, I) && Shaped(r, I.P.year)
    && r.immunizationId == KeyedId("IMM", I.P.year, CodedKey(r.patientId, i, r.cvxCode))
  }

  /** The patient, the vaccine and the organization come from their lists. */
  predicate Sourced(r: ImmunizationRecord, I: Inputs) {
    r.patientId in I.patientIds
    && (exists v | v in I.catalog :: v.pni && FromVaccine(r, v))
    && r.pniSchedule
    && r.organizationId in Organizations
  }

  /** The date is in the year and the lot number has its shape. */
  predicate Shaped(r: ImmunizationRecord, year: int) {
    DateInYear(r.date, year) && LotShaped(r.lotNumber, year)
  }

  /** What the drawn values promise, whatever the draws. */
  predicate DrawnValid(d: Drawn, I: Inputs) {
    d.patientId in I.patientIds
    && d.vaccine in I.catalog && d.vaccine.pni && d.dose in d.vaccine.doses
    && DateInYear(d.date, I.P.year)
    && LotShaped(d.lotNumber, I.P.year)
    && (if d.vaccine.site == "" then d.site in InjectionSites else d.site == d.vaccine.site)
    && d.organization in Organizations
  }

  lemma DrawnAtValid(ds: Draws, pos: nat, I: Inputs)
    requires I.Valid()
    ensures DrawnValid(DrawnAt(ds, pos, I).0, I)
  {
    var v := DrawnAt(ds, pos, I).0.vaccine;
    FilterMembership(I.catalog, InSchedule, v);
    DrawnDateInYear(I.P.year, ds(pos + 3), ds(pos + 4));
    LotFromDrawsShaped(ds(pos + 5), ds(pos + 6), ds(pos + 7), I.P.year);
  }

  lemma BuildWellFormed(i: nat, I: Inputs, d: Drawn)
    requires DrawnValid(d, I)
    ensures WellFormed(Build(i, I, d), i, I)
  {
    var r := Build(i, I, d);
    assert FromVaccine(r, d.vaccine);
    assert Sourced(r, I) && Shaped(r, I.P.year);
  }

  lemma DrawnWellFormed(ds: Draws, pos: nat, i: nat, I: Inputs)
    requires I.Valid()
    ensures WellFormed(Build(i, I, DrawnAt(ds, pos, I).0), i, I)
  {
    DrawnAtValid(ds, pos, I);
    BuildWellFormed(i, I, DrawnAt(ds, pos, I).0);
  }

  /** What a pass pushes is well formed for the index of the pass. */
  lemma ImmunizationAtWellFormed(ds: Draws, pos: nat, i: nat, I: Inputs, r: ImmunizationRecord)
    requires I.Valid() && ImmunizationAt(ds, pos, i, I).0 == Some(r)
    ensures WellFormed(r, i, I)
  {
    DrawnWellFormed(ds, pos + 1, i, I);
  }

  function ImmunizationStep(ds: Draws, I: Inputs): (nat, nat) -> (Option<ImmunizationRecord>, nat)
    requires I.Valid()
  {
    (i: nat, pos: nat) => ImmunizationAt(ds, pos, i, I)
  }

  /** The outcome of each of the first `n` passes. */
  function ImmunizationPasses(ds: Draws, n: nat, I: Inputs): seq<Option<ImmunizationRecord>>
    requires I.Valid()
  {
    ThreadItems(ImmunizationStep(ds, I), n)
  }

  /** Pass `k` pushes a vaccination exactly when its first draw is within
      the coverage rate ... */
  lemma PassesCoverage(ds: Draws, n: nat, I: Inputs, k: nat)
    requires I.Valid() && k < n
    ensures ImmunizationPasses(ds, n, I)[k].Some?
            <==> ds(ThreadPos(ImmunizationStep(ds, I), k)) <= I.P.coverageRate
  {
    ThreadItemsIndex(ImmunizationStep(ds, I), n, k);
  }

  /** ... and what it pushes is well formed for index `k`. */
  lemma PassesWellFormed(ds: Draws, n: nat, I: Inputs, k: nat, r: ImmunizationRecord)
    requires I.Valid() && k < n && ImmunizationPasses(ds, n, I)[k] == Some(r)
    ensures WellFormed(r, k, I)
  {
    ThreadItemsIndex(ImmunizationStep(ds, I), n, k);
    ImmunizationAtWellFormed(ds, ThreadPos(ImmunizationStep(ds, I), k), k, I, r);
  }

  /** With a coverage rate of 1 or more no pass is skipped: `count`
      vaccinations. */
  lemma FullCoverage(ds: Draws, n: nat, I: Inputs)
    requires I.Valid() && I.P.coverageRate >= 1.0
    ensures |Present(ImmunizationPasses(ds, n, I))| == n
  {
    forall k | 0 <= k < n
      ensures ImmunizationPasses(ds, n, I)[k].Some?
    {
      PassesCoverage(ds, n, I, k);
    }
    PresentAll(ImmunizationPasses(ds, n, I));
  }

  // ---------------------------------------------------------------
  // The generator
  // ---------------------------------------------------------------

  method NextSite(rng: Mulberry32, v: Vaccine) returns (site: string)
    requires rng.Valid()
    modifies rng
    ensures rng.Valid()
    ensures site == SiteAt(rng.values, old(rng.draws), v).0
    ensures rng.draws == SiteAt(rng.values, old(rng.draws), v).1
  {
    site := v.site;
    if site == "" {
      site := RandomPick(rng, InjectionSites);
    }
  }

  method NextDrawn(rng: Mulberry32, I: Inputs) returns (d: Drawn)
    requires rng.Valid() && I.Valid()
    modifies rng
    ensures rng.Valid()
    ensures d == DrawnAt(rng.values, old(rng.draws), I).0
    ensures rng.draws == DrawnAt(rng.values, old(rng.draws), I).1
  {
    var patientId := RandomPick(rng, I.patientIds);
    var vaccine := RandomPick(rng, PniVaccines(I.catalog));
    var dose := RandomPick(rng, vaccine.doses);
    var date := RandomDate(rng, I.P.year);
    var lot := GenerateLotNumber(rng, I.P.year);
    var site := NextSite(rng, vaccine);
    var organization := RandomPick(rng, Organizations);
    d := Drawn(patientId, vaccine, dose, date, lot, site, organization);
  }

  /** One pass of the loop: the coverage draw, then the vaccination unless
      the pass is skipped. */
  method NextPass(rng: Mulberry32, i: nat, I: Inputs) returns (p: Option<ImmunizationRecord>)
    requires rng.Valid() && I.Valid()
    modifies rng
    ensures rng.Valid()
    ensures (p, rng.draws) == ImmunizationAt(rng.values, old(rng.draws), i, I)
  {
    ghost var pos := rng.draws;
    var u := rng.Next();
    if u > I.P.coverageRate {
      p := None;
    } else {
      ghost var start := rng.draws;
      var d := NextDrawn(rng, I);
      p := Some(Build(i, I, d));
      PassIs(rng.values, pos, start, i, I, d, rng.draws);
    }
  }

  /** `ImmunizationAt` for a pass that was not skipped, from its drawn
      values. */
  lemma PassIs(ds: Draws, pos: nat, start: nat, i: nat, I: Inputs, d: Drawn, q: nat)
    requires I.Valid() && ds(pos) <= I.P.coverageRate && start == pos + 1
    requires d == DrawnAt(ds, start, I).0 && q == DrawnAt(ds, start, I).1
    ensures ImmunizationAt(ds, pos, i, I) == (Some(Build(i, I, d)), q)
  {
  }

  method ImmunizationLoop(rng: Mulberry32, count: int, I: Inputs) returns (data: seq<ImmunizationRecord>)
    requires rng.Valid() && rng.draws == 0 && I.Valid()
    modifies rng
    ensures data == Present(ImmunizationPasses(rng.values, Max(count, 0), I))
  {
    ghost var step := ImmunizationStep(rng.values, I);
    data := [];
    var i := 0;
    while i < count
      invariant 0 <= i <= Max(count, 0)
      invariant rng.Valid() && rng.draws == ThreadPos(step, i)
      invariant data == Present(ThreadItems(step, i))
    {
      ghost var expected := ImmunizationAt(rng.values, rng.draws, i, I);
      assert step(i, rng.draws) == expected;
      ThreadNext(step, i);
      PresentNext(ThreadItems(step, i), expected.0);
      var p := NextPass(rng, i, I);
      assert (p, rng.draws) == expected;
      if p.Some? {
        data := data + [p.value];
      }
      i := i + 1;
    }
    assert i == Max(count, 0);
  }

  /** `generateImmunizations(patientIds, count, seed, params)`: the
      vaccinations of the passes that were not skipped, in order, each
      well formed for the index of its pass. */
  method GenerateImmunizations(patientIds: seq<string>, count: int, seed: int,
                               P: ImmunizationsParams, catalog: seq<Vaccine>)
    returns (data: seq<ImmunizationRecord>)
    requires Inputs(patientIds, catalog, P).Valid()
    ensures data == Present(ImmunizationPasses(StreamDraws(seed), Max(count, 0), Inputs(patientIds, catalog, P)))
    ensures |data| <= Max(count, 0)
    ensures forall r | r in data :: exists k | 0 <= k < Max(count, 0) :: WellFormed(r, k, Inputs(patientIds, catalog, P))
  {
    var I := Inputs(patientIds, catalog, P);
    var rng := new Mulberry32(seed);
    data := ImmunizationLoop(rng, count, I);
    ghost var passes := ImmunizationPasses(StreamDraws(seed), Max(count, 0), I);
    forall r | r in data
      ensures exists k | 0 <= k < Max(count, 0) :: WellFormed(r, k, I)
    {
      PresentMembership(passes, r);
      var k :| 0 <= k < |passes| && passes[k] == Some(r);
      PassesWellFormed(StreamDraws(seed), Max(count, 0), I, k, r);
    }
  }
}
