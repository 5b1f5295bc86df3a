/** frontend/src/generators/procedures.ts: FONASA procedures performed on
    given patients, with an outcome drawn from weights set by the
    complication rate, a note for complicated and failed ones, a date, a
    performer and an organization. */
module Procedures {
  import opened Prelude
  import opened Stream
  import opened Text
  import opened Sampling
  import opened Weighted
  import opened Keyed

  /** One `FonasaProcedure` of the catalog. */
  datatype FonasaProcedure = FonasaProcedure(
    fonasaCode: string, name: string, category: string, group: string,
    complexity: string, requiresHospitalization: bool, gesRelated: bool)

  datatype Outcome = Exitoso | Complicado | Fallido

  const Outcomes: seq<Outcome> := [Exitoso, Complicado, Fallido]

  /** `[1 - c, c * 0.875, c * 0.125]`: the complications split seven to
      one between complicated and failed. */
  function OutcomeWeights(complicationRate: real): seq<real> {
    [1.0 - complicationRate, complicationRate * 0.875, complicationRate * 0.125]
  }

  datatype ProceduresParams = ProceduresParams(year: int, complicationRate: real)

  const DefaultParams := ProceduresParams(2024, 0.08)

  datatype ProcedureRecord = ProcedureRecord(
    procedureId: string, patientId: string, encounterId: string,
    procedureName: string, fonasaCode: string, fonasaGroup: string,
    category: string, complexity: string, date: string,
    performerId: string, organizationId: string, outcome: Outcome,
    requiresHospitalization: bool, gesRelated: bool, notes: string)

  /** The fixed lists of the generator: organizations, the notes of a
      complicated and of a failed procedure, the performer professions. */
  datatype Lists = Lists(
    organizations: seq<string>, complications: seq<string>, failures: seq<string>,
    professions: seq<string>)
  {
    predicate Valid() {
      |organizations| > 0 && |complications| > 0 && |failures| > 0 && |professions| > 0
      && (forall t | t in complications :: t != "")
      && (forall t | t in failures :: t != "")
    }
  }

  const Standard := Lists(
    ["DEIS-101100", "DEIS-101101", "DEIS-101102", "DEIS-101103", "DEIS-101104",
     "DEIS-102100", "DEIS-103100", "DEIS-201100", "DEIS-701100", "DEIS-701101"],
    ["Sangrado menor controlado",
     "Reaccion alergica leve",
     "Dolor postoperatorio mayor a lo esperado",
     "Infeccion superficial de sitio quirurgico",
     "Hematoma en sitio de puncion"],
    ["Procedimiento suspendido por inestabilidad hemodinamica",
     "Anatomia desfavorable, derivado a centro de mayor complejidad",
     "Reaccion adversa severa, procedimiento interrumpido"],
    ["MED", "ENF", "KIN", "MAT", "TEC"])

  /** What the generator reads besides the stream. */
  datatype Inputs = Inputs(
    patientIds: seq<string>, catalog: seq<FonasaProcedure>, L: Lists, P: ProceduresParams)
  {
    predicate Valid() { |patientIds| > 0 && |catalog| > 0 && L.Valid() }
  }

  // ---------------------------------------------------------------
  // One record as a function of its draws
  // ---------------------------------------------------------------

  /** The outcome for the draw `u`: successful up to `1 - c`, complicated
      up to `1 - c/8`, failed above, whatever the rate `c`. */
  lemma OutcomeBands(u: real, c: real)
    requires 0.0 <= u < 1.0
    ensures WeightedFromDraw(u, Outcomes, OutcomeWeights(c))
      == if u <= 1.0 - c then Exitoso
         else if u <= 1.0 - c * 0.125 then Complicado
         else Fallido
  {
    var w := OutcomeWeights(c);
    assert w[..1] == [1.0 - c] && w[..2] == [1.0 - c, c * 0.875] && w[..3] == w;
    assert [1.0 - c][..0] == [] && [1.0 - c, c * 0.875][..1] == [1.0 - c] && w[..2] == w[..3][..2];
    assert Sum([1.0 - c]) == Sum([]) + (1.0 - c);
    assert Cum(w, 0) == 1.0 - c;
    assert Cum(w, 1) == 1.0 - c * 0.125;
    assert Cum(w, 2) == 1.0;
    assert Sum(w) == 1.0;
    assert Target(w, u) == u;
    assert FirstWithin(w, u, 2) == Some(2);
    assert FirstWithin(w, u, 1) == if u <= 1.0 - c * 0.125 then Some(1) else Some(2);
  }

  /** The note of the outcome, from the draw at `pos` for a complicated or
      failed procedure, and the position after it. */
  function NotesAt(ds: Draws, pos: nat, outcome: Outcome, L: Lists): (r: (string, nat))
    requires L.Valid()
    ensures outcome == Exitoso ==> r == ("", pos)
    ensures outcome == Complicado ==> r.0 in L.complications && r.1 == pos + 1
    ensures outcome == Fallido ==> r.0 in L.failures && r.1 == pos + 1
  {
    match outcome
    case Exitoso => ("", pos)
    case Complicado => (PickFromDraw(ds(pos), L.complications), pos + 1)
    case Fallido => (PickFromDraw(ds(pos), L.failures), pos + 1)
  }

  /** `generatePerformerId`: a profession, a dash and a five-digit number
      below 99999, from the draws at `q` and `q + 1`. */
  function PerformerAt(ds: Draws, q: nat, L: Lists): string
    requires L.Valid()
  {
    PerformerId(PickFromDraw(ds(q), L.professions), ds(q + 1))
  }

  /** `${profession}-${num}` for the number's draw `u`. */
  function PerformerId(profession: string, u: real): string
    requires 0.0 <= u < 1.0
  {
    profession + "-" + PadNumber(ScaledFloor(u, 99999), 5)
  }

  /** `profession-NNNNN`: a profession of the list, a dash, and five
      digits reading a number below 99999. */
  predicate PerformerShaped(t: string, professions: seq<string>) {
    |t| >= 6 && t[..|t| - 6] in professions && t[|t| - 6] == '-'
    && AllDigits(t[|t| - 5..]) && ParseNat(t[|t| - 5..]) < 99999
  }

  lemma PerformerAtShaped(ds: Draws, q: nat, L: Lists)
    requires L.Valid()
    ensures PerformerShaped(PerformerAt(ds, q, L), L.professions)
  {
    var p := PickFromDraw(ds(q), L.professions);
    var n := ScaledFloor(ds(q + 1), 99999);
    var digits := PadNumber(n, 5);
    PaddedFive(n);
    ParsePadNumber(n, 5);
    var t := p + "-" + digits;
    assert t == PerformerAt(ds, q, L);
    assert t[..|t| - 6] == p;
    assert t[|t| - 5..] == digits;
  }

  /** The values drawn for one record, in the order they are drawn. */
  datatype Drawn = Drawn(
    patientId: string, procedure: FonasaProcedure, outcome: Outcome, notes: string,
    date: string, performer: string, organization: string)

  /** The record of index `i` built from its drawn values. */
  function Build(i: nat, year: int, d: Drawn): ProcedureRecord {
    var p := d.procedure;
    ProcedureRecord(
      KeyedId("PROC", year, CodedKey(d.patientId, i, p.fonasaCode)), d.patientId,
      EncounterRef(year, d.patientId, i), p.name, p.fonasaCode, p.group, p.category,
      p.complexity, d.date, d.performer, d.organization, d.outcome,
      p.requiresHospitalization, p.gesRelated, d.notes)
  }

  /** The date, performer and organization drawn at `q`. */
  function TailAt(ds: Draws, q: nat, L: Lists, year: int): (string, string, string)
    requires L.Valid()
  {
    (DateFromDraws(year, ds(q), ds(q + 1)), PerformerAt(ds, q + 2, L),
     PickFromDraw(ds(q + 4), L.organizations))
  }

  /** The values drawn for a record whose draws start at `pos`, and where
      the next one starts: patient, procedure, outcome, note, then the
      date, the performer and the organization (in the order the record's
      fields are written). */
  function DrawnAt(ds: Draws, pos: nat, I: Inputs): (r: (Drawn, nat))
    requires I.Valid()
  {
    var patientId := PickFromDraw(ds(pos), I.patientIds);
    var p := PickFromDraw(ds(pos + 1), I.catalog);
    var outcome := WeightedFromDraw(ds(pos + 2), Outcomes, OutcomeWeights(I.P.complicationRate));
    var notes := NotesAt(ds, pos + 3, outcome, I.L);
    var tail := TailAt(ds, notes.1, I.L, I.P.year);
    (Drawn(patientId, p, outcome, notes.0, tail.0, tail.1, tail.2), notes.1 + 5)
  }

  /** Record `i` when its draws start at `pos`, and where the next one
      starts. */
  function ProcedureAt(ds: Draws, pos: nat, i: nat, I: Inputs): (r: (ProcedureRecord, nat))
    requires I.Valid()
  {
    var d := DrawnAt(ds, pos, I);
    (Build(i, I.P.year, d.0), d.1)
  }

  /** A record takes eight draws, nine with a note. */
  lemma ProcedureDraws(ds: Draws, pos: nat, i: nat, I: Inputs)
    requires I.Valid()
    ensures var c := ProcedureAt(ds, pos, i, I).0;
      ProcedureAt(ds, pos, i, I).1 == pos + (if c.outcome == Exitoso then 8 else 9)
  {
  }

  /** What every record promises: its patient is one of the given ids; its
      procedure fields are those of one catalog entry; a note exactly when
      the outcome is not successful, from the list of its outcome; a date
      of the year; a performer `profession-NNNNN`; an organization of the
      list; and both ids built from the patient and the record's index. */
  predicate WellFormed(r: ProcedureRecord, i: nat, I: Inputs) {
    r.patientId in I.patientIds
    && (exists p | p in I.catalog ::
          r.procedureName == p.name && r.fonasaCode == p.fonasaCode && r.fonasaGroup == p.group
          && r.category == p.category && r.complexity == p.complexity
          && r.requiresHospitalization == p.requiresHospitalization && r.gesRelated == p.gesRelated)
    && (r.notes == "" <==> r.outcome == Exitoso)
    && (r.outcome == Complicado ==> r.notes in I.L.complications)
    && (r.outcome == Fallido ==> r.notes in I.L.failures)
    && DateInYear(r.date, I.P.year)
    && PerformerShaped(r.performerId, I.L.professions)
    && r.organizationId in I.L.organizations
    && r.encounterId == EncounterRef(I.P.year, r.patientId, i)
    && r.procedureId == KeyedId("PROC", I.P.year, CodedKey(r.patientId, i, r.fonasaCode))
  }

  /** What the drawn values promise, whatever the draws. */
  predicate DrawnValid(d: Drawn, I: Inputs) {
    d.patientId in I.patientIds && d.procedure in I.catalog
    && (d.outcome == Exitoso ==> d.notes == "")
    && (d.outcome == Complicado ==> d.notes in I.L.complications)
    && (d.outcome == Fallido ==> d.notes in I.L.failures)
    && DateInYear(d.date, I.P.year)
    && PerformerShaped(d.performer, I.L.professions)
    && d.organization in I.L.organizations
  }

  lemma DrawnAtValid(ds: Draws, pos: nat, I: Inputs)
    requires I.Valid()
    ensures DrawnValid(DrawnAt(ds, pos, I).0, I)
  {
    var outcome := WeightedFromDraw(ds(pos + 2), Outcomes, OutcomeWeights(I.P.complicationRate));
    var notes := NotesAt(ds, pos + 3, outcome, I.L);
    TailAtValid(ds, notes.1, I.L, I.P.year);
  }

  /** The date is of the year, the performer `profession-NNNNN`, the
      organization one of the list. */
  predicate TailValid(t: (string, string, string), L: Lists, year: int) {
    DateInYear(t.0, year) && PerformerShaped(t.1, L.professions) && t.2 in L.organizations
  }

  lemma TailAtValid(ds: Draws, q: nat, L: Lists, year: int)
    requires L.Valid()
    ensures TailValid(TailAt(ds, q, L, year), L, year)
  {
    TailDate(ds, q, L, year);
    TailPerformer(ds, q, L, year);
  }

  lemma TailDate(ds: Draws, q: nat, L: Lists, year: int)
    requires L.Valid()
    ensures DateInYear(TailAt(ds, q, L, year).0, year)
  {
    DrawnDateInYear(year, ds(q), ds(q + 1));
  }

  lemma TailPerformer(ds: Draws, q: nat, L: Lists, year: int)
    requires L.Valid()
    ensures PerformerShaped(TailAt(ds, q, L, year).1, L.professions)
  {
    PerformerAtShaped(ds, q + 2, L);
  }

  lemma BuildWellFormed(i: nat, I: Inputs, d: Drawn)
    requires I.Valid() && DrawnValid(d, I)
    ensures WellFormed(Build(i, I.P.year, d), i, I)
  {
    var r := Build(i, I.P.year, d);
    assert r.notes == d.notes && r.outcome == d.outcome;
    var p := d.procedure;
    assert r.procedureName == p.name && r.fonasaCode == p.fonasaCode && r.fonasaGroup == p.group
      && r.category == p.category && r.complexity == p.complexity
      && r.requiresHospitalization == p.requiresHospitalization && r.gesRelated == p.gesRelated;
  }

  lemma ProcedureAtWellFormed(ds: Draws, pos: nat, i: nat, I: Inputs)
    requires I.Valid()
    ensures WellFormed(ProcedureAt(ds, pos, i, I).0, i, I)
  {
    DrawnAtValid(ds, pos, I);
    BuildWellFormed(i, I, DrawnAt(ds, pos, I).0);
  }

  // ---------------------------------------------------------------
  // The whole list
  // ---------------------------------------------------------------

  function ProcedureStep(ds: Draws, I: Inputs): (nat, nat) -> (ProcedureRecord, nat)
    requires I.Valid()
  {
    (i: nat, pos: nat) => ProcedureAt(ds, pos, i, I)
  }

  function ProceduresFrom(ds: Draws, n: nat, I: Inputs): seq<ProcedureRecord>
    requires I.Valid()
  {
    ThreadItems(ProcedureStep(ds, I), n)
  }

  lemma ProceduresWellFormed(ds: Draws, n: nat, I: Inputs, k: nat)
    requires I.Valid() && k < n
    ensures WellFormed(ProceduresFrom(ds, n, I)[k], k, I)
  {
    ThreadItemsIndex(ProcedureStep(ds, I), n, k);
    ProcedureAtWellFormed(ds, ThreadPos(ProcedureStep(ds, I), k), k, I);
  }

  // ---------------------------------------------------------------
  // The generator
  // ---------------------------------------------------------------

  method NextNotes(rng: Mulberry32, outcome: Outcome, L: Lists) returns (notes: string)
    requires rng.Valid() && L.Valid()
    modifies rng
    ensures rng.Valid()
    ensures notes == NotesAt(rng.values, old(rng.draws), outcome, L).0
    ensures rng.draws == NotesAt(rng.values, old(rng.draws), outcome, L).1
  {
    notes := "";
    if outcome == Complicado {
      notes := RandomPick(rng, L.complications);
    } else if outcome == Fallido {
      notes := RandomPick(rng, L.failures);
    }
  }

  /** `generatePerformerId(rng)`: two draws. */
  method GeneratePerformerId(rng: Mulberry32, L: Lists) returns (performer: string)
    requires rng.Valid() && L.Valid()
    modifies rng
    ensures rng.Valid() && rng.draws == old(rng.draws) + 2
    ensures performer == PerformerAt(rng.values, old(rng.draws), L)
  {
    var profession := RandomPick(rng, L.professions);
    var u := rng.Next();
    performer := PerformerId(profession, u);
  }

  method NextTail(rng: Mulberry32, L: Lists, year: int) returns (date: string, performer: string, organization: string)
    requires rng.Valid() && L.Valid()
    modifies rng
    ensures rng.Valid() && rng.draws == old(rng.draws) + 5
    ensures date == TailAt(rng.values, old(rng.draws), L, year).0
    ensures performer == TailAt(rng.values, old(rng.draws), L, year).1
    ensures organization == TailAt(rng.values, old(rng.draws), L, year).2
  {
    date := RandomDate(rng, year);
    performer := GeneratePerformerId(rng, L);
    organization := RandomPick(rng, L.organizations);
  }

  method NextDrawn(rng: Mulberry32, I: Inputs, weights: seq<real>) returns (d: Drawn)
    requires rng.Valid() && I.Valid() && weights == OutcomeWeights(I.P.complicationRate)
    modifies rng
    ensures rng.Valid()
    ensures rng.draws == DrawnAt(rng.values, old(rng.draws), I).1
    ensures d == DrawnAt(rng.values, old(rng.draws), I).0
  {
    var patientId := RandomPick(rng, I.patientIds);
    var p := RandomPick(rng, I.catalog);
    var outcome := WeightedPick(rng, Outcomes, weights);
    var notes := NextNotes(rng, outcome, I.L);
    var date, performer, organization := NextTail(rng, I.L, I.P.year);
    d := Drawn(patientId, p, outcome, notes, date, performer, organization);
  }

  method NextProcedure(rng: Mulberry32, i: nat, I: Inputs, weights: seq<real>) returns (r: ProcedureRecord)
    requires rng.Valid() && I.Valid() && weights == OutcomeWeights(I.P.complicationRate)
    modifies rng
    ensures rng.Valid()
    ensures rng.draws == ProcedureAt(rng.values, old(rng.draws), i, I).1
    ensures r == ProcedureAt(rng.values, old(rng.draws), i, I).0
  {
    var d := NextDrawn(rng, I, weights);
    r := Build(i, I.P.year, d);
  }

  method ProcedureLoop(rng: Mulberry32, count: int, I: Inputs) returns (data: seq<ProcedureRecord>)
    requires rng.Valid() && rng.draws == 0 && I.Valid()
    modifies rng
    ensures data == ProceduresFrom(rng.values, Max(count, 0), I)
  {
    ghost var step := ProcedureStep(rng.values, I);
    var adjustedWeights := OutcomeWeights(I.P.complicationRate);
    data := [];
    var i := 0;
    while i < count
      invariant 0 <= i <= Max(count, 0)
      invariant rng.Valid() && rng.draws == ThreadPos(step, i)
      invariant data == ThreadItems(step, i)
    {
      ghost var expected := ProcedureAt(rng.values, rng.draws, i, I);
      assert step(i, rng.draws) == expected;
      var r := NextProcedure(rng, i, I, adjustedWeights);
      ThreadNext(step, i);
      data := data + [r];
      i := i + 1;
    }
    assert i == Max(count, 0);
  }

  /** `generateProcedures(patientIds, count, seed, params)`. */
  method GenerateProcedures(patientIds: seq<string>, count: int, seed: int, P: ProceduresParams,
                            catalog: seq<FonasaProcedure>)
    returns (data: seq<ProcedureRecord>)
    requires |patientIds| > 0 && |catalog| > 0
    ensures data == ProceduresFrom(StreamDraws(seed), Max(count, 0), Inputs(patientIds, catalog, Standard, P))
    ensures forall k | 0 <= k < |data| :: WellFormed(data[k], k, Inputs(patientIds, catalog, Standard, P))
  {
    var I := Inputs(patientIds, catalog, Standard, P);
    assert Standard.Valid();
    var rng := new Mulberry32(seed);
    data := ProcedureLoop(rng, count, I);
    forall k | 0 <= k < |data|
      ensures WellFormed(data[k], k, I)
    {
      ProceduresWellFormed(StreamDraws(seed), Max(count, 0), I, k);
    }
  }
}
