/** frontend/src/generators/encounters.ts: one encounter per index, each
    built from seven draws of a stream seeded with `seed`. */
module Encounters {
  import opened Prelude
  import opened Stream
  import opened Text
  import opened Sampling
  import opened Records

  datatype Encounter = Encounter(
    encounterId: string,
    patientId: string,
    date: string,
    kind: string,
    primaryDx: string)
  {
    function ToRecord(): Record {
      [("encounter_id", Str(encounterId)), ("patient_id", Str(patientId)),
       ("date", Str(date)), ("type", Str(kind)), ("primary_dx", Str(primaryDx))]
    }
  }

  /** The lists the generator picks from. */
  datatype Vocabulary = Vocabulary(regions: seq<string>, types: seq<string>, codes: seq<string>) {
    predicate Valid() { |regions| > 0 && |types| > 0 && |codes| > 0 }
  }

  /** The lists of frontend/src/generators/utils.ts. */
  const Standard := Vocabulary(Regions, EncounterTypes, Cie10Codes)

  /** Draws taken per encounter: birth year, sex, region, two for the
      date, type, diagnosis. */
  const DrawsPerEncounter := 7

  /** `ENC-` and the 1-based index padded to eight digits. */
  function EncounterId(i: nat): string {
    "ENC-" + PadNumber(i + 1, 8)
  }

  /** Encounter number `i` when its draws start at `pos`. */
  function EncounterAt(ds: Draws, pos: nat, i: nat, year: int, V: Vocabulary): Encounter
    requires V.Valid()
  {
    var birthYear := IntFromDraw(ds(pos), 1940, 2020);
    var sex := SexFromDraw(ds(pos + 1));
    var region := PickFromDraw(ds(pos + 2), V.regions);
    Encounter(
      EncounterId(i),
      PatientId(birthYear, sex, region, i),
      DateFromDraws(year, ds(pos + 3), ds(pos + 4)),
      PickFromDraw(ds(pos + 5), V.types),
      PickFromDraw(ds(pos + 6), V.codes))
  }

  /** Every encounter: an `ENC-` id whose eight digits read back as
      `i + 1`, a patient id for a birth year in 1940..2020 and a region
      code, a date in `year`, and a type and diagnosis from the lists. */
  lemma EncounterFields(ds: Draws, pos: nat, i: nat, year: int, V: Vocabulary)
    requires V.Valid()
    ensures var e := EncounterAt(ds, pos, i, year, V);
      e.encounterId == EncounterId(i)
      && e.kind in V.types && e.primaryDx in V.codes
      && exists y, s, r | 1940 <= y <= 2020 && s in ["F", "M"] && r in V.regions ::
           e.patientId == PatientId(y, s, r, i)
  {
    var e := EncounterAt(ds, pos, i, year, V);
    var y := IntFromDraw(ds(pos), 1940, 2020);
    var s := SexFromDraw(ds(pos + 1));
    var r := PickFromDraw(ds(pos + 2), V.regions);
    assert e.patientId == PatientId(y, s, r, i);
  }

  /** An encounter id is `ENC-` and at least eight digits that read
      back as `i + 1`, so distinct indices give distinct ids. */
  lemma EncounterIdReadsBack(i: nat)
    ensures var id := EncounterId(i);
      |id| >= 12 && id[..4] == "ENC-" && AllDigits(id[4..]) && ParseNat(id[4..]) == i + 1
  {
    PrefixedIdReadsBack("ENC-", i + 1, 8);
  }

  lemma EncounterIdsDistinct(i: nat, j: nat)
    requires i != j
    ensures EncounterId(i) != EncounterId(j)
  {
    if EncounterId(i) == EncounterId(j) {
      PrefixedIdInjective("ENC-", i + 1, j + 1, 8);
    }
  }

  /** The date is `year`, a dash, then month and day fields in range. */
  lemma EncounterDateInYear(ds: Draws, pos: nat, i: nat, year: int, V: Vocabulary)
    requires V.Valid()
    ensures var d := EncounterAt(ds, pos, i, year, V).date;
      var y := IntToString(year);
      d[..|y| + 1] == y + "-" && |d| == |y| + 6
      && 1 <= ParseNat(d[|y| + 1..|y| + 3]) <= 12 && 1 <= ParseNat(d[|y| + 4..]) <= 28
  {
    DateTextFields(year, MonthFromDraw(ds(pos + 3)), DayFromDraw(ds(pos + 4)));
  }

  /** One pass of the loop body, in the order the object literal
      evaluates its fields. */
  method NextEncounter(rng: Mulberry32, i: nat, year: int, V: Vocabulary) returns (e: Encounter)
    requires rng.Valid() && V.Valid()
    modifies rng
    ensures rng.Valid() && rng.draws == old(rng.draws) + DrawsPerEncounter
    ensures e == EncounterAt(rng.values, old(rng.draws), i, year, V)
  {
    var birthYear := RandomInt(rng, 1940, 2020);
    var u := rng.Next();
    var sex := SexFromDraw(u);
    var region := RandomPick(rng, V.regions);
    var date := RandomDate(rng, year);
    var kind := RandomPick(rng, V.types);
    var dx := RandomPick(rng, V.codes);
    e := Encounter(EncounterId(i), PatientId(birthYear, sex, region, i), date, kind, dx);
  }

  /** The first `n` encounters, encounter `i` taken from draws
      `7i .. 7i + 6`. */
  function EncountersFrom(ds: Draws, n: nat, year: int, V: Vocabulary): (es: seq<Encounter>)
    requires V.Valid()
  {
    Tabulate((i: nat) => EncounterAt(ds, 7 * i, i, year, V), n)
  }

  /** `generateEncounters(count, seed, { year })`: `count` encounters
      (none for a count of zero or less) from the stream seeded with
      `seed`. */
  method GenerateEncounters(count: int, seed: int, year: int) returns (data: seq<Encounter>)
    ensures data == EncountersFrom(StreamDraws(seed), Max(count, 0), year, Standard)
  {
    var rng := new Mulberry32(seed);
    data := EncounterLoop(rng, count, year, Standard);
  }

  /** The loop of `generateEncounters`, reading the lists `V`. */
  method EncounterLoop(rng: Mulberry32, count: int, year: int, V: Vocabulary) returns (data: seq<Encounter>)
    requires rng.Valid() && rng.draws == 0 && V.Valid()
    modifies rng
    ensures data == EncountersFrom(rng.values, Max(count, 0), year, V)
  {
    data := [];
    var i := 0;
    while i < count
      invariant 0 <= i <= Max(count, 0)
      invariant rng.Valid() && rng.draws == 7 * i
      invariant data == EncountersFrom(rng.values, i, year, V)
    {
      var e := NextEncounter(rng, i, year, V);
      data := data + [e];
      i := i + 1;
    }
    assert i == Max(count, 0);
  }

  /** The registered generator reads `year` from the parameters, 2024 by
      default. */
  function YearParam(params: Record): int {
    IntParam(params, "year", 2024)
  }
}
