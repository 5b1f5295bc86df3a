/** frontend/src/generators/cie10.ts: diagnosis codes with optional
    data-quality errors (a space before the dot, lower case, the part
    after the dot dropped, an invalid code), each for a patient. */
module Cie10 {
  import opened Prelude
  import opened Stream
  import opened Text
  import opened Sampling
  import opened Records

  datatype Cie10Record = Cie10Record(patientId: string, codigo: string, fecha: string) {
    function ToRecord(): Record {
      [("patient_id", Str(patientId)), ("codigo", Str(codigo)), ("fecha", Str(fecha))]
    }
  }

  datatype Cie10Params = Cie10Params(
    addSpaces: bool, addLowercase: bool, addTruncated: bool, addInvalid: bool,
    spaceRate: real, lowercaseRate: real, truncatedRate: real, invalidRate: real)

  /** The parameters with the defaults of `generateCIE10` filled in. */
  function ParamsFrom(params: Record): Cie10Params {
    Cie10Params(
      BoolParam(params, "addSpaces", true),
      BoolParam(params, "addLowercase", true),
      BoolParam(params, "addTruncated", false),
      BoolParam(params, "addInvalid", false),
      RealParam(params, "spaceRate", 0.1),
      RealParam(params, "lowercaseRate", 0.1),
      RealParam(params, "truncatedRate", 0.05),
      RealParam(params, "invalidRate", 0.03))
  }

  /** The code and region lists the generator picks from, and the year
      of every record's date. */
  datatype Lists = Lists(codes: seq<string>, regions: seq<string>, year: int) {
    predicate Valid() { |codes| > 0 && |regions| > 0 }
  }

  const Standard := Lists(Cie10Codes, Regions, 2024)

  const InvalidCode := "Z99.X"

  // ---------------------------------------------------------------
  // The error transformations
  // ---------------------------------------------------------------

  /** `code.replace('.', ' .')`: a space before the first dot. */
  function AddSpace(code: string): string {
    ReplaceFirst(code, '.', " .")
  }

  /** `code.split('.')[0]`. */
  function Truncate(code: string): string {
    BeforeFirst(code, '.')
  }

  /** The four data-quality errors, in the order they are applied. */
  datatype Defect = Spaces | Lowercase | Truncated | Invalid

  function Apply(e: Defect, code: string): string {
    match e
    case Spaces => AddSpace(code)
    case Lowercase => ToLower(code)
    case Truncated => Truncate(code)
    case Invalid => InvalidCode
  }

  /** `if (flag && rng() < rate) code = <e applied to code>`: the draw at
      `pos` is read only when the flag is on. */
  function Guarded(on: bool, rate: real, ds: Draws, pos: nat, code: string, e: Defect)
    : (r: (string, nat))
    ensures r.1 == pos + (if on then 1 else 0)
    ensures r.0 == code || r.0 == Apply(e, code)
  {
    if !on then (code, pos)
    else if ds(pos) < rate then (Apply(e, code), pos + 1)
    else (code, pos + 1)
  }

  /** The code of one record and the position after its transformations:
      the pick, then spaces, lower case, truncation and invalid, in that
      order. */
  function CodeAt(ds: Draws, pos: nat, codes: seq<string>, P: Cie10Params): (r: (string, nat))
    requires |codes| > 0
  {
    var c0 := PickFromDraw(ds(pos), codes);
    var (c1, p1) := Guarded(P.addSpaces, P.spaceRate, ds, pos + 1, c0, Spaces);
    var (c2, p2) := Guarded(P.addLowercase, P.lowercaseRate, ds, p1, c1, Lowercase);
    var (c3, p3) := Guarded(P.addTruncated, P.truncatedRate, ds, p2, c2, Truncated);
    Guarded(P.addInvalid, P.invalidRate, ds, p3, c3, Invalid)
  }

  /** The number of transformations switched on. */
  function FlagCount(P: Cie10Params): nat {
    (if P.addSpaces then 1 else 0) + (if P.addLowercase then 1 else 0)
    + (if P.addTruncated then 1 else 0) + (if P.addInvalid then 1 else 0)
  }

  /** A transformation takes a draw only when its flag is on, so each code
      takes one draw for the pick and one per flag. With every flag off
      the code is one of the list. */
  lemma CodeDraws(ds: Draws, pos: nat, codes: seq<string>, P: Cie10Params)
    requires |codes| > 0
    ensures CodeAt(ds, pos, codes, P).1 == pos + 1 + FlagCount(P)
    ensures FlagCount(P) == 0 ==> CodeAt(ds, pos, codes, P).0 in codes
  {
  }

  /** The invalid code replaces whatever the earlier steps made: when its
      flag is on and its draw is under the rate, the code is `Z99.X`;
      otherwise a truncated code keeps no dot. */
  lemma InvalidWins(ds: Draws, pos: nat, codes: seq<string>, P: Cie10Params)
    requires |codes| > 0
    ensures var (c, q) := CodeAt(ds, pos, codes, P);
      (P.addInvalid && ds(q - 1) < P.invalidRate ==> c == InvalidCode)
      && (!P.addInvalid ==> c == CodeBeforeInvalid(ds, pos, codes, P).0)
  {
  }

  /** The code after the first three steps, and the position after them. */
  function CodeBeforeInvalid(ds: Draws, pos: nat, codes: seq<string>, P: Cie10Params): (string, nat)
    requires |codes| > 0
  {
    var c0 := PickFromDraw(ds(pos), codes);
    var (c1, p1) := Guarded(P.addSpaces, P.spaceRate, ds, pos + 1, c0, Spaces);
    var (c2, p2) := Guarded(P.addLowercase, P.lowercaseRate, ds, p1, c1, Lowercase);
    Guarded(P.addTruncated, P.truncatedRate, ds, p2, c2, Truncated)
  }

  /** When truncation applies and no invalid code replaces it, the code
      has no dot. */
  lemma TruncatedHasNoDot(ds: Draws, pos: nat, codes: seq<string>, P: Cie10Params)
    requires |codes| > 0
    requires !P.addInvalid
    requires var c0 := PickFromDraw(ds(pos), codes);
      var p1 := Guarded(P.addSpaces, P.spaceRate, ds, pos + 1, c0, Spaces).1;
      var p2 := Guarded(P.addLowercase, P.lowercaseRate, ds, p1, c0, Lowercase).1;
      P.addTruncated && ds(p2) < P.truncatedRate
    ensures '.' !in CodeAt(ds, pos, codes, P).0
  {
  }

  /** A space added before the dot survives truncation: `E11.0` with both
      errors becomes `E11 `, with a trailing space. */
  lemma SpaceThenTruncate(code: string)
    requires '.' in code
    ensures Truncate(AddSpace(code)) == Truncate(code) + " "
  {
    var k := IndexOf(code, '.').value;
    var s := code[..k] + " ." + code[k + 1..];
    assert s[k + 1] == '.';
    assert s[..k + 1] == code[..k] + " ";
    IndexOfFirst(s, '.', k + 1);
  }

  // ---------------------------------------------------------------
  // Records
  // ---------------------------------------------------------------

  /** The patient of record `i` from three draws at `q`: birth year
      1940..2020, sex, region. */
  function PatientAt(ds: Draws, q: nat, i: nat, regions: seq<string>): string
    requires |regions| > 0
  {
    var birthYear := IntFromDraw(ds(q), 1940, 2020);
    var sex := SexFromDraw(ds(q + 1));
    PatientId(birthYear, sex, PickFromDraw(ds(q + 2), regions), i)
  }

  /** Record `i` with the code `code` when the draws after the code
      start at `q`: the patient from three draws, then a date in the
      year from two. */
  function CompleteAt(ds: Draws, q: nat, i: nat, code: string, L: Lists): Cie10Record
    requires L.Valid()
  {
    Cie10Record(PatientAt(ds, q, i, L.regions), code, DateFromDraws(L.year, ds(q + 3), ds(q + 4)))
  }

  /** Record `i` when its draws start at `pos`, and where the next one
      starts: the code, then the patient and the date. */
  function RecordAt(ds: Draws, pos: nat, i: nat, L: Lists, P: Cie10Params): (r: (Cie10Record, nat))
    requires L.Valid()
    ensures r.1 == pos + 6 + FlagCount(P)
  {
    CodeDraws(ds, pos, L.codes, P);
    var c := CodeAt(ds, pos, L.codes, P);
    (CompleteAt(ds, c.1, i, c.0, L), c.1 + 5)
  }

  /** Every record's patient id is that of a birth year in 1940..2020, a
      sex and a region of the list, and the record's index. */
  lemma RecordPatient(ds: Draws, q: nat, i: nat, regions: seq<string>)
    requires |regions| > 0
    ensures exists y, s, g | 1940 <= y <= 2020 && s in ["F", "M"] && g in regions ::
      PatientAt(ds, q, i, regions) == PatientId(y, s, g, i)
  {
    var y := IntFromDraw(ds(q), 1940, 2020);
    var s := SexFromDraw(ds(q + 1));
    var g := PickFromDraw(ds(q + 2), regions);
    assert PatientAt(ds, q, i, regions) == PatientId(y, s, g, i);
  }

  /** Every record's date is in the year of the lists, with a month
      1..12 and a day 1..28. */
  lemma RecordDate(ds: Draws, q: nat, i: nat, code: string, L: Lists)
    requires L.Valid()
    ensures DateInYear(CompleteAt(ds, q, i, code, L).fecha, L.year)
  {
    DrawnDateInYear(L.year, ds(q + 3), ds(q + 4));
  }

  function RecordStep(ds: Draws, L: Lists, P: Cie10Params): (nat, nat) -> (Cie10Record, nat)
    requires L.Valid()
  {
    (i: nat, pos: nat) => RecordAt(ds, pos, i, L, P)
  }

  function RecordsFrom(ds: Draws, n: nat, L: Lists, P: Cie10Params): seq<Cie10Record>
    requires L.Valid()
  {
    ThreadItems(RecordStep(ds, L, P), n)
  }

  /** Every record takes the same number of draws, so record `i` starts at
      `i * (6 + flags)`. */
  lemma RecordStarts(ds: Draws, n: nat, L: Lists, P: Cie10Params)
    requires L.Valid()
    ensures ThreadPos(RecordStep(ds, L, P), n) == n * (6 + FlagCount(P))
  {
    forall i: nat, pos: nat
      ensures RecordStep(ds, L, P)(i, pos).1 == pos + (6 + FlagCount(P))
    {
      assert RecordStep(ds, L, P)(i, pos) == RecordAt(ds, pos, i, L, P);
    }
    ThreadPosUniform(RecordStep(ds, L, P), 6 + FlagCount(P), n);
  }

  /** With every flag off, each code of the list comes from the list. */
  lemma PlainCodes(ds: Draws, n: nat, L: Lists, P: Cie10Params, k: nat)
    requires L.Valid() && FlagCount(P) == 0 && k < n
    ensures RecordsFrom(ds, n, L, P)[k].codigo in L.codes
  {
    ThreadItemsIndex(RecordStep(ds, L, P), n, k);
    CodeDraws(ds, ThreadPos(RecordStep(ds, L, P), k), L.codes, P);
  }

  // ---------------------------------------------------------------
  // The generator
  // ---------------------------------------------------------------

  method GuardedDraw(rng: Mulberry32, on: bool, rate: real, code: string, e: Defect) returns (c: string)
    requires rng.Valid()
    modifies rng
    ensures rng.Valid()
    ensures c == Guarded(on, rate, rng.values, old(rng.draws), code, e).0
    ensures rng.draws == Guarded(on, rate, rng.values, old(rng.draws), code, e).1
  {
    c := code;
    if on {
      var u := rng.Next();
      if u < rate {
        c := Apply(e, code);
      }
    }
  }

  method NextCode(rng: Mulberry32, codes: seq<string>, P: Cie10Params) returns (code: string)
    requires rng.Valid() && |codes| > 0
    modifies rng
    ensures rng.Valid()
    ensures code == CodeAt(rng.values, old(rng.draws), codes, P).0
    ensures rng.draws == CodeAt(rng.values, old(rng.draws), codes, P).1
  {
    code := RandomPick(rng, codes);
    code := GuardedDraw(rng, P.addSpaces, P.spaceRate, code, Spaces);
    code := GuardedDraw(rng, P.addLowercase, P.lowercaseRate, code, Lowercase);
    code := GuardedDraw(rng, P.addTruncated, P.truncatedRate, code, Truncated);
    code := GuardedDraw(rng, P.addInvalid, P.invalidRate, code, Invalid);
  }

  method NextPatient(rng: Mulberry32, i: nat, regions: seq<string>) returns (patientId: string)
    requires rng.Valid() && |regions| > 0
    modifies rng
    ensures rng.Valid() && rng.draws == old(rng.draws) + 3
    ensures patientId == PatientAt(rng.values, old(rng.draws), i, regions)
  {
    var birthYear := RandomInt(rng, 1940, 2020);
    var u := rng.Next();
    var sex := SexFromDraw(u);
    var region := RandomPick(rng, regions);
    patientId := PatientId(birthYear, sex, region, i);
  }

  method NextComplete(rng: Mulberry32, i: nat, code: string, L: Lists) returns (r: Cie10Record)
    requires rng.Valid() && L.Valid()
    modifies rng
    ensures rng.Valid() && rng.draws == old(rng.draws) + 5
    ensures r.patientId == CompleteAt(rng.values, old(rng.draws), i, code, L).patientId
    ensures r.codigo == code
    ensures r.fecha == CompleteAt(rng.values, old(rng.draws), i, code, L).fecha
  {
    var patientId := NextPatient(rng, i, L.regions);
    var fecha := RandomDate(rng, L.year);
    r := Cie10Record(patientId, code, fecha);
  }

  method NextRecord(rng: Mulberry32, i: nat, L: Lists, P: Cie10Params) returns (r: Cie10Record)
    requires rng.Valid() && L.Valid()
    modifies rng
    ensures rng.Valid()
    ensures rng.draws == RecordAt(rng.values, old(rng.draws), i, L, P).1
    ensures r.patientId == RecordAt(rng.values, old(rng.draws), i, L, P).0.patientId
    ensures r.codigo == RecordAt(rng.values, old(rng.draws), i, L, P).0.codigo
    ensures r.fecha == RecordAt(rng.values, old(rng.draws), i, L, P).0.fecha
  {
    var code := NextCode(rng, L.codes, P);
    r := NextComplete(rng, i, code, L);
  }

  lemma SameRecord(r: Cie10Record, s: Cie10Record)
    requires r.patientId == s.patientId && r.codigo == s.codigo && r.fecha == s.fecha
    ensures r == s
  {
  }

  method RecordLoop(rng: Mulberry32, count: int, L: Lists, P: Cie10Params) returns (data: seq<Cie10Record>)
    requires rng.Valid() && rng.draws == 0 && L.Valid()
    modifies rng
    ensures data == RecordsFrom(rng.values, Max(count, 0), L, P)
  {
    ghost var step := RecordStep(rng.values, L, P);
    data := [];
    var i := 0;
    while i < count
      invariant 0 <= i <= Max(count, 0)
      invariant rng.Valid() && rng.draws == ThreadPos(step, i)
      invariant data == ThreadItems(step, i)
    {
      ghost var expected := RecordAt(rng.values, rng.draws, i, L, P);
      assert step(i, rng.draws) == expected;
      var r := NextRecord(rng, i, L, P);
      SameRecord(r, expected.0);
      ThreadNext(step, i);
      data := data + [r];
      i := i + 1;
    }
    assert i == Max(count, 0);
  }

  /** `generateCIE10(count, seed, params)`. */
  method GenerateCie10(count: int, seed: int, P: Cie10Params) returns (data: seq<Cie10Record>)
    ensures data == RecordsFrom(StreamDraws(seed), Max(count, 0), Standard, P)
  {
    var rng := new Mulberry32(seed);
    data := RecordLoop(rng, count, Standard, P);
  }
}
