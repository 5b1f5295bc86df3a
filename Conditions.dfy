/** frontend/src/generators/conditions.ts: diagnosed conditions of given
    patients, each a GES pathology with one of its CIE-10 codes, a GES
    flag, a chronic or acute course with its status, and a severity. */
module Conditions {
  import opened Prelude
  import opened Stream
  import opened Text
  import opened Sampling
  import opened Weighted
  import opened GesPathologies
  import opened Keyed

  datatype Status = Activo | Resuelto | Remision {
    function Label(): string {
      match this
      case Activo => "activo"
      case Resuelto => "resuelto"
      case Remision => "remisión"
    }
  }

  datatype Severity = Leve | Moderado | Grave

  const Severities: seq<Severity> := [Leve, Moderado, Grave]
  /** More mild than severe. */
  const SeverityWeights: seq<real> := [0.5, 0.35, 0.15]

  datatype ConditionsParams = ConditionsParams(
    year: int, gesRatio: real, chronicRatio: real, resolvedRatio: real)

  const DefaultParams := ConditionsParams(2024, 0.4, 0.3, 0.3)

  datatype Condition = Condition(
    conditionId: string, patientId: string, encounterId: string,
    conditionName: string, cie10Code: string,
    gesNumber: Option<int>, gesName: Option<string>,
    onsetDate: string, resolutionDate: Option<string>,
    status: Status, severity: Severity, category: string)

  /** What the generator reads besides the stream: the patient ids, the
      GES catalog, the calendar arithmetic `addDays(date, days)` of the
      resolution date, and the parameters. */
  datatype Inputs = Inputs(
    patientIds: seq<string>, catalog: seq<GesPathology>,
    addDays: (string, int) -> string, P: ConditionsParams)
  {
    predicate Valid() {
      |patientIds| > 0 && |catalog| > 0 && forall g | g in catalog :: |g.cie10Codes| > 0
    }
  }

  // ---------------------------------------------------------------
  // One record as a function of its draws
  // ---------------------------------------------------------------

  datatype Flags = Flags(isGes: bool, isChronic: bool, isResolved: bool)

  /** The GES, chronic and resolved flags from the draws at `pos + 2`,
      `pos + 3` and, for an acute condition only, `pos + 4`. */
  function FlagsAt(ds: Draws, pos: nat, P: ConditionsParams): (f: Flags)
    ensures f.isResolved ==> !f.isChronic
  {
    var chronic := ds(pos + 3) < P.chronicRatio;
    Flags(ds(pos + 2) < P.gesRatio, chronic, !chronic && ds(pos + 4) < P.resolvedRatio)
  }

  /** The year of the onset date: the parameter year, or for a chronic
      condition up to nine years before it (the draw at `pos + 4`). */
  function OnsetYear(ds: Draws, pos: nat, P: ConditionsParams, f: Flags): (y: int)
    ensures f.isChronic ==> P.year - 9 <= y <= P.year
    ensures !f.isChronic ==> y == P.year
  {
    if f.isChronic then P.year - ScaledFloor(ds(pos + 4), 10) else P.year
  }

  /** The onset date: the date drawn at `pos + 5` in the onset year. */
  function OnsetAt(ds: Draws, pos: nat, P: ConditionsParams, f: Flags): string {
    DateFromDraws(OnsetYear(ds, pos, P, f), ds(pos + 5), ds(pos + 6))
  }

  /** The status and resolution date, reading the draw at `pos + 7` for
      a resolved or a chronic condition, and the position after them. */
  function OutcomeAt(ds: Draws, pos: nat, f: Flags, onset: string, addDays: (string, int) -> string)
    : (r: (Status, Option<string>, nat))
    ensures r.1.Some? <==> r.0 == Resuelto
    ensures r.0 == Resuelto <==> f.isResolved
    ensures r.0 == Remision ==> f.isChronic
    ensures r.2 == pos + (if f.isResolved || f.isChronic then 8 else 7)
  {
    if f.isResolved then
      (Resuelto, Some(addDays(onset, ScaledFloor(ds(pos + 7), 180) + 7)), pos + 8)
    else if f.isChronic then
      (if ds(pos + 7) < 0.2 then Remision else Activo, None, pos + 8)
    else
      (Activo, None, pos + 7)
  }

  /** The record built from one pathology, one code and the rest. */
  function Build(i: nat, P: ConditionsParams, patientId: string, g: GesPathology, f: Flags,
                 onset: string, status: Status, resolution: Option<string>, code: string,
                 severity: Severity): Condition
  {
    Condition(
      KeyedId("COND", P.year, CodedKey(patientId, i, code)), patientId,
      EncounterRef(P.year, patientId, i), g.name, code,
      if f.isGes then Some(g.gesNumber) else None,
      if f.isGes then Some(g.name) else None,
      onset, resolution, status, severity, g.category)
  }

  /** The values drawn before the code and the severity. */
  datatype Head = Head(
    patientId: string, g: GesPathology, f: Flags, onset: string,
    status: Status, resolution: Option<string>)

  /** The head of a record whose draws start at `pos`, and where the code
      draw sits: patient, pathology, the flags, the onset and the outcome. */
  function HeadAt(ds: Draws, pos: nat, I: Inputs): (r: (Head, nat))
    requires I.Valid()
    ensures r.0.g in I.catalog
  {
    var patientId := PickFromDraw(ds(pos), I.patientIds);
    var g := PickFromDraw(ds(pos + 1), I.catalog);
    var f := FlagsAt(ds, pos, I.P);
    var onset := OnsetAt(ds, pos, I.P, f);
    var outcome := OutcomeAt(ds, pos, f, onset, I.addDays);
    (Head(patientId, g, f, onset, outcome.0, outcome.1), outcome.2)
  }

  /** The record completed from its head and the position `p` of the
      code draw: the code of the pathology, then the severity. */
  function Complete(ds: Draws, h: Head, p: nat, i: nat, P: ConditionsParams): (r: (Condition, nat))
    requires |h.g.cie10Codes| > 0
  {
    var code := PickFromDraw(ds(p), h.g.cie10Codes);
    var severity := WeightedFromDraw(ds(p + 1), Severities, SeverityWeights);
    (Build(i, P, h.patientId, h.g, h.f, h.onset, h.status, h.resolution, code, severity), p + 2)
  }

  /** Record `i` when its draws start at `pos`, and where the next one
      starts: the head, then the code of the pathology and the severity. */
  function ConditionAt(ds: Draws, pos: nat, i: nat, I: Inputs): (r: (Condition, nat))
    requires I.Valid()
  {
    var h := HeadAt(ds, pos, I);
    Complete(ds, h.0, h.1, i, I.P)
  }

  /** The severity bands of the weights: mild up to a draw of 0.5,
      moderate up to 0.85, severe above. */
  lemma SeverityBands(u: real)
    requires 0.0 <= u < 1.0
    ensures WeightedFromDraw(u, Severities, SeverityWeights)
      == if u <= 0.5 then Leve else if u <= 0.85 then Moderado else Grave
  {
    var w := SeverityWeights;
    assert w[..1] == [0.5] && w[..2] == [0.5, 0.35] && w[..3] == w;
    assert [0.5][..0] == [] && [0.5, 0.35][..1] == [0.5] && w[..2] == w[..3][..2];
    assert Cum(w, 0) == 0.5;
    assert Cum(w, 1) == 0.85;
    assert Cum(w, 2) == 1.0;
    assert Sum(w) == 1.0;
    assert Target(w, u) == u;
  }

  /** A record takes nine draws, ten when it is chronic or resolved. */
  lemma ConditionDraws(ds: Draws, pos: nat, i: nat, I: Inputs)
    requires I.Valid()
    ensures var f := FlagsAt(ds, pos, I.P);
      ConditionAt(ds, pos, i, I).1 == pos + (if f.isChronic || f.isResolved then 10 else 9)
  {
  }

  /** What every record promises: its patient is one of the given ids; its
      name, category and code come from one pathology of the catalog and
      its GES number and name are both present or both absent, and those
      of that pathology; a resolution date exactly when it is resolved; a
      resolved condition began in the parameter year and any other in the
      nine years before it at the earliest; and both ids are built from
      the patient and the record's index. */
  predicate WellFormed(c: Condition, i: nat, I: Inputs) {
    c.patientId in I.patientIds
    && (exists g | g in I.catalog ::
          c.conditionName == g.name && c.category == g.category && c.cie10Code in g.cie10Codes
          && (c.gesNumber.Some? ==> c.gesNumber.value == g.gesNumber))
    && (c.gesNumber.Some? <==> c.gesName.Some?)
    && (c.gesName.Some? ==> c.gesName.value == c.conditionName)
    && (c.resolutionDate.Some? <==> c.status == Resuelto)
    && (c.status == Resuelto ==> DateInYear(c.onsetDate, I.P.year))
    && (exists y | I.P.year - 9 <= y <= I.P.year :: DateInYear(c.onsetDate, y))
    && c.encounterId == EncounterRef(I.P.year, c.patientId, i)
    && c.conditionId == KeyedId("COND", I.P.year, CodedKey(c.patientId, i, c.cie10Code))
  }

  lemma ConditionAtWellFormed(ds: Draws, pos: nat, i: nat, I: Inputs)
    requires I.Valid()
    ensures WellFormed(ConditionAt(ds, pos, i, I).0, i, I)
  {
    var c := ConditionAt(ds, pos, i, I).0;
    var g := PickFromDraw(ds(pos + 1), I.catalog);
    var f := FlagsAt(ds, pos, I.P);
    var y := OnsetYear(ds, pos, I.P, f);
    DrawnDateInYear(y, ds(pos + 5), ds(pos + 6));
    assert c.onsetDate == DateFromDraws(y, ds(pos + 5), ds(pos + 6));
    assert I.P.year - 9 <= y <= I.P.year;
    assert c.conditionName == g.name && c.category == g.category && c.cie10Code in g.cie10Codes;
  }

  /** The course drawn for a record decides its status: remission only
      for a chronic condition (draw at `pos + 3` under the chronic ratio),
      resolved only for an acute one. */
  lemma StatusFollowsCourse(ds: Draws, pos: nat, i: nat, I: Inputs)
    requires I.Valid()
    ensures var c := ConditionAt(ds, pos, i, I).0;
      (c.status == Remision ==> ds(pos + 3) < I.P.chronicRatio)
      && (c.status == Resuelto ==>
            !(ds(pos + 3) < I.P.chronicRatio) && ds(pos + 4) < I.P.resolvedRatio)
      && (c.gesNumber.Some? <==> ds(pos + 2) < I.P.gesRatio)
  {
  }

  // ---------------------------------------------------------------
  // The whole list
  // ---------------------------------------------------------------

  function ConditionStep(ds: Draws, I: Inputs): (nat, nat) -> (Condition, nat)
    requires I.Valid()
  {
    (i: nat, pos: nat) => ConditionAt(ds, pos, i, I)
  }

  function ConditionsFrom(ds: Draws, n: nat, I: Inputs): seq<Condition>
    requires I.Valid()
  {
    ThreadItems(ConditionStep(ds, I), n)
  }

  /** Every generated record is well formed for its index. */
  lemma ConditionsWellFormed(ds: Draws, n: nat, I: Inputs, k: nat)
    requires I.Valid() && k < n
    ensures WellFormed(ConditionsFrom(ds, n, I)[k], k, I)
  {
    ThreadItemsIndex(ConditionStep(ds, I), n, k);
    ConditionAtWellFormed(ds, ThreadPos(ConditionStep(ds, I), k), k, I);
  }

  // ---------------------------------------------------------------
  // The generator
  // ---------------------------------------------------------------

  method NextFlags(rng: Mulberry32, ghost pos: nat, P: ConditionsParams) returns (f: Flags)
    requires rng.Valid() && rng.draws == pos + 2
    modifies rng
    ensures rng.Valid()
    ensures f == FlagsAt(rng.values, pos, P)
    ensures rng.draws == pos + (if f.isChronic then 4 else 5)
  {
    var u1 := rng.Next();
    var isGes := u1 < P.gesRatio;
    var u2 := rng.Next();
    var isChronic := u2 < P.chronicRatio;
    var isResolved := false;
    if !isChronic {
      var u3 := rng.Next();
      isResolved := u3 < P.resolvedRatio;
    }
    f := Flags(isGes, isChronic, isResolved);
  }

  lemma OnsetIs(ds: Draws, pos: nat, P: ConditionsParams, f: Flags, y: int, onset: string, end: nat)
    requires y == OnsetYear(ds, pos, P, f) && (onset, end) == DateAt(ds, pos + 5, y)
    ensures onset == OnsetAt(ds, pos, P, f) && end == pos + 7
  {
  }

  method NextOnsetYear(rng: Mulberry32, ghost pos: nat, P: ConditionsParams, f: Flags) returns (y: int)
    requires rng.Valid() && rng.draws == pos + (if f.isChronic then 4 else 5)
    modifies rng
    ensures rng.Valid() && rng.draws == pos + 5
    ensures y == OnsetYear(rng.values, pos, P, f)
  {
    y := P.year;
    if f.isChronic {
      var u := rng.Next();
      y := P.year - ScaledFloor(u, 10);
    }
  }

  method NextOnset(rng: Mulberry32, ghost pos: nat, P: ConditionsParams, f: Flags) returns (onset: string)
    requires rng.Valid() && rng.draws == pos + (if f.isChronic then 4 else 5)
    modifies rng
    ensures rng.Valid() && rng.draws == pos + 7
    ensures onset == OnsetAt(rng.values, pos, P, f)
  {
    var y := NextOnsetYear(rng, pos, P, f);
    onset := RandomDate(rng, y);
    OnsetIs(rng.values, pos, P, f, y, onset, rng.draws);
  }

  method NextOutcome(rng: Mulberry32, ghost pos: nat, f: Flags, onset: string,
                     addDays: (string, int) -> string) returns (status: Status, resolution: Option<string>)
    requires rng.Valid() && rng.draws == pos + 7
    modifies rng
    ensures rng.Valid()
    ensures status == OutcomeAt(rng.values, pos, f, onset, addDays).0
    ensures resolution == OutcomeAt(rng.values, pos, f, onset, addDays).1
    ensures rng.draws == OutcomeAt(rng.values, pos, f, onset, addDays).2
  {
    resolution := None;
    status := Activo;
    if f.isResolved {
      var u := rng.Next();
      resolution := Some(addDays(onset, ScaledFloor(u, 180) + 7));
      status := Resuelto;
    } else if f.isChronic {
      var u := rng.Next();
      if u < 0.2 {
        status := Remision;
      }
    }
  }

  method NextHead(rng: Mulberry32, I: Inputs) returns (h: Head)
    requires rng.Valid() && I.Valid()
    modifies rng
    ensures rng.Valid()
    ensures (h, rng.draws) == HeadAt(rng.values, old(rng.draws), I)
  {
    ghost var pos := rng.draws;
    var patientId := RandomPick(rng, I.patientIds);
    var g := RandomPick(rng, I.catalog);
    var f := NextFlags(rng, pos, I.P);
    var onset := NextOnset(rng, pos, I.P, f);
    var status, resolution := NextOutcome(rng, pos, f, onset, I.addDays);
    h := Head(patientId, g, f, onset, status, resolution);
  }

  method NextCondition(rng: Mulberry32, i: nat, I: Inputs) returns (c: Condition)
    requires rng.Valid() && I.Valid()
    modifies rng
    ensures rng.Valid()
    ensures (c, rng.draws) == ConditionAt(rng.values, old(rng.draws), i, I)
  {
    ghost var start := rng.draws;
    var h := NextHead(rng, I);
    ghost var p := rng.draws;
    c := NextComplete(rng, h, i, I.P);
    ConditionAtIs(rng.values, start, i, I, h, p);
  }

  method NextComplete(rng: Mulberry32, h: Head, i: nat, P: ConditionsParams) returns (c: Condition)
    requires rng.Valid() && |h.g.cie10Codes| > 0
    modifies rng
    ensures rng.Valid()
    ensures (c, rng.draws) == Complete(rng.values, h, old(rng.draws), i, P)
  {
    var code := RandomPick(rng, h.g.cie10Codes);
    var severity := WeightedPick(rng, Severities, SeverityWeights);
    c := Build(i, P, h.patientId, h.g, h.f, h.onset, h.status, h.resolution, code, severity);
  }

  /** `ConditionAt` from its head. */
  lemma ConditionAtIs(ds: Draws, pos: nat, i: nat, I: Inputs, h: Head, p: nat)
    requires I.Valid() && (h, p) == HeadAt(ds, pos, I)
    ensures ConditionAt(ds, pos, i, I) == Complete(ds, h, p, i, I.P)
  {
  }

  method ConditionLoop(rng: Mulberry32, count: int, I: Inputs) returns (data: seq<Condition>)
    requires rng.Valid() && rng.draws == 0 && I.Valid()
    modifies rng
    ensures data == ConditionsFrom(rng.values, Max(count, 0), I)
  {
    ghost var step := ConditionStep(rng.values, I);
    data := [];
    var i := 0;
    while i < count
      invariant 0 <= i <= Max(count, 0)
      invariant rng.Valid() && rng.draws == ThreadPos(step, i)
      invariant data == ThreadItems(step, i)
    {
      ghost var expected := ConditionAt(rng.values, rng.draws, i, I);
      assert step(i, rng.draws) == expected;
      var c := NextCondition(rng, i, I);
      ThreadNext(step, i);
      data := data + [c];
      i := i + 1;
    }
    assert i == Max(count, 0);
  }

  /** `generateConditions(patientIds, count, seed, params)`. */
  method GenerateConditions(patientIds: seq<string>, count: int, seed: int, P: ConditionsParams,
                            catalog: seq<GesPathology>, addDays: (string, int) -> string)
    returns (data: seq<Condition>)
    requires Inputs(patientIds, catalog, addDays, P).Valid()
    ensures data == ConditionsFrom(StreamDraws(seed), Max(count, 0), Inputs(patientIds, catalog, addDays, P))
    ensures forall k | 0 <= k < |data| :: WellFormed(data[k], k, Inputs(patientIds, catalog, addDays, P))
  {
    var I := Inputs(patientIds, catalog, addDays, P);
    var rng := new Mulberry32(seed);
    data := ConditionLoop(rng, count, I);
    forall k | 0 <= k < |data|
      ensures WellFormed(data[k], k, I)
    {
      ConditionsWellFormed(StreamDraws(seed), Max(count, 0), I, k);
    }
  }
}
