/** The backend's clinical encounters (backend/app/patient_id.py,
    `EncounterGenerator`): a counter that numbers every encounter ever
    made by the generator, and encounters drawn from the process-wide
    numpy generator for a given list of patients.

    The date range is given as its start and its length in days; the
    encounter date is kept as its offset from the start (turning
    `YYYY-MM-DD` strings into timestamps and back is pandas). */
module ClinicalEncounters {
  import opened Prelude
  import opened Text
  import opened NumpyRandom
  import opened Stream

  const EncounterTypes: seq<string> := ["ambulatory", "emergency", "inpatient", "telehealth"]
  const EncounterWeights: seq<real> := [0.55, 0.2, 0.1, 0.15]

  /** `_random_cie10`'s list of common codes. */
  const CommonCodes: seq<string> := ["I10", "E11.9", "J06.9", "M54.5", "K29.7",
                                     "F32.9", "J44.9", "I25.1", "E78.5", "N39.0",
                                     "R10.4", "J18.9", "K21.0", "G43.9", "L30.9"]

  /** `_random_procedure`'s list of procedure codes. */
  const ProcedureCodes: seq<string> := ["99213", "99214", "99215", "36415", "80053",
                                        "85025", "81001", "71046", "93000", "90715"]

  lemma TypeWeights()
    ensures Probabilities(EncounterWeights)
  {
    assert Cum(EncounterWeights, 4) == 1.0;
  }

  // ---------------------------------------------------------------
  // What the draws of one encounter decide
  // ---------------------------------------------------------------

  /** The first five draws of an encounter: the patient's index, the day
      offset, the type's index, the facility and the provider number. */
  datatype Head = Head(patient: nat, day: nat, kind: nat, facility: nat, provider: nat)

  /** `choice(patient_ids)`, `randint(0, days)`, the weighted type,
      `randint(1, 100)` and `randint(1, 500)`, decided by five uniform
      values. */
  function HeadFrom(u0: real, u1: real, u2: real, u3: real, u4: real, patients: nat, days: int): (h: Head)
    requires 0.0 <= u0 < 1.0 && 0.0 <= u1 < 1.0 && 0.0 <= u2 < 1.0 && 0.0 <= u3 < 1.0 && 0.0 <= u4 < 1.0
    requires patients > 0 && days > 0
    ensures h.patient < patients && h.day < days && h.kind < |EncounterTypes|
    ensures 1 <= h.facility <= 99 && 1 <= h.provider <= 499
  {
    TypeWeights();
    Head(ScaledFloor(u0, patients), ScaledFloor(u1, days), WeightedIndex(EncounterWeights, u2),
      1 + ScaledFloor(u3, 99), 1 + ScaledFloor(u4, 499))
  }

  function HeadAt(ds: Draws, pos: nat, patients: nat, days: int): Head
    requires patients > 0 && days > 0
  {
    HeadFrom(ds(pos), ds(pos + 1), ds(pos + 2), ds(pos + 3), ds(pos + 4), patients, days)
  }

  /** The diagnoses from position `q`: with diagnoses on, a primary code,
      then `random() < 0.4` decides whether a secondary code is drawn.
      Gives the two code indices and the position after them. */
  function DiagnosesAt(ds: Draws, q: nat, on: bool): (r: (Option<nat>, Option<nat>, nat))
    ensures r.0.Some? <==> on
    ensures r.1.Some? ==> on
    ensures r.0.Some? ==> r.0.value < |CommonCodes|
    ensures r.1.Some? ==> r.1.value < |CommonCodes|
    ensures q <= r.2 <= q + 3
  {
    if !on then (None, None, q)
    else
      var primary := ScaledFloor(ds(q), |CommonCodes|);
      if ds(q + 1) < 0.4 then (Some(primary), Some(ScaledFloor(ds(q + 2), |CommonCodes|)), q + 3)
      else (Some(primary), None, q + 2)
  }

  /** The procedure from position `q`: with procedures on,
      `random() < 0.3` decides whether a code is drawn. */
  function ProcedureAt(ds: Draws, q: nat, on: bool): (r: (Option<nat>, nat))
    ensures r.0.Some? ==> on && r.0.value < |ProcedureCodes|
    ensures q <= r.1 <= q + 2
  {
    if !on then (None, q)
    else if ds(q) < 0.3 then (Some(ScaledFloor(ds(q + 1), |ProcedureCodes|)), q + 2)
    else (None, q + 1)
  }

  /** Everything the draws of one encounter decide. */
  datatype Drawn = Drawn(head: Head, primary: Option<nat>, secondary: Option<nat>, procedure: Option<nat>)

  /** The indices an encounter's row is built from are in range. */
  predicate Renderable(d: Drawn, patients: nat) {
    d.head.patient < patients && d.head.kind < |EncounterTypes|
    && (d.primary.Some? ==> d.primary.value < |CommonCodes|)
    && (d.secondary.Some? ==> d.secondary.value < |CommonCodes|)
    && (d.procedure.Some? ==> d.procedure.value < |ProcedureCodes|)
  }

  /** Everything an encounter's draws can decide is in range. */
  predicate DrawnIn(d: Drawn, patients: nat, days: int) {
    Renderable(d, patients) && d.head.day < days && 1 <= d.head.facility <= 99 && 1 <= d.head.provider <= 499
  }

  /** One encounter from the head's draws on, completed by its diagnoses
      and procedure. */
  function Complete(ds: Draws, h: Head, q: nat, dx: bool, px: bool): (Drawn, nat) {
    var (primary, secondary, q1) := DiagnosesAt(ds, q, dx);
    var (procedure, q2) := ProcedureAt(ds, q1, px);
    (Drawn(h, primary, secondary, procedure), q2)
  }

  /** The encounter whose draws start at `pos`, and the position after
      them. */
  function EncounterAt(ds: Draws, pos: nat, patients: nat, days: int, dx: bool, px: bool): (r: (Drawn, nat))
    requires patients > 0 && days > 0
    ensures DrawnIn(r.0, patients, days)
    ensures pos + 5 <= r.1 <= pos + 10
    ensures r.0.primary.Some? <==> dx
    ensures r.0.secondary.Some? ==> dx
    ensures r.0.procedure.Some? ==> px
  {
    Complete(ds, HeadAt(ds, pos, patients, days), pos + 5, dx, px)
  }

  /** The first `n` encounters of a call whose draws start at `pos`. */
  function EncountersAt(ds: Draws, pos: nat, n: nat, patients: nat, days: int, dx: bool, px: bool): (r: (seq<Drawn>, nat))
    requires patients > 0 && days > 0
    ensures |r.0| == n && pos <= r.1
    ensures forall j | 0 <= j < n :: DrawnIn(r.0[j], patients, days)
    ensures forall j | 0 <= j < n :: (r.0[j].primary.Some? <==> dx) && (r.0[j].secondary.Some? ==> dx)
    ensures forall j | 0 <= j < n :: r.0[j].procedure.Some? ==> px
  {
    if n == 0 then ([], pos)
    else
      var (front, q) := EncountersAt(ds, pos, n - 1, patients, days, dx, px);
      var (d, q') := EncounterAt(ds, q, patients, days, dx, px);
      (front + [d], q')
  }

  lemma EncountersAtNext(ds: Draws, pos: nat, n: nat, patients: nat, days: int, dx: bool, px: bool)
    requires patients > 0 && days > 0
    ensures var (front, q) := EncountersAt(ds, pos, n, patients, days, dx, px);
      var (d, q') := EncounterAt(ds, q, patients, days, dx, px);
      EncountersAt(ds, pos, n + 1, patients, days, dx, px) == (front + [d], q')
  {
  }

  // ---------------------------------------------------------------
  // The records
  // ---------------------------------------------------------------

  /** One row of `generate_encounters`. The diagnosis columns exist only
      with diagnoses on and the procedure column only with procedures
      on; an absent column and a `None` cell are both `None` here. */
  datatype ClinicalEncounter = ClinicalEncounter(
    encounterId: string, patientId: string, dayOffset: nat, encounterType: string,
    facilityId: string, providerId: string,
    primaryDx: Option<string>, secondaryDx: Option<string>, procedureCode: Option<string>)

  /** `f"ENC-{counter:08d}"`. */
  function EncounterId(counter: nat): string {
    "ENC-" + PadNumber(counter, 8)
  }

  function CodeOf(codes: seq<string>, k: Option<nat>): Option<string>
    requires k.Some? ==> k.value < |codes|
  {
    if k.Some? then Some(codes[k.value]) else None
  }

  /** The row made with the counter at `counter` from what was drawn. */
  function Record(patientIds: seq<string>, counter: nat, d: Drawn): ClinicalEncounter
    requires Renderable(d, |patientIds|)
  {
    ClinicalEncounter(EncounterId(counter), patientIds[d.head.patient], d.head.day, EncounterTypes[d.head.kind],
      "FAC-" + PadNumber(d.head.facility, 3), "PROV-" + PadNumber(d.head.provider, 4),
      CodeOf(CommonCodes, d.primary), CodeOf(CommonCodes, d.secondary), CodeOf(ProcedureCodes, d.procedure))
  }

  /** The rows of a call whose counter started at `c0`: row `j` was made
      with the counter at `c0 + j + 1`. */
  function Render(patientIds: seq<string>, c0: nat, draws: seq<Drawn>): (rows: seq<ClinicalEncounter>)
    requires forall j | 0 <= j < |draws| :: Renderable(draws[j], |patientIds|)
    ensures |rows| == |draws|
  {
    seq(|draws|, j requires 0 <= j < |draws| => Record(patientIds, c0 + j + 1, draws[j]))
  }

  lemma RenderNext(patientIds: seq<string>, c0: nat, draws: seq<Drawn>, d: Drawn)
    requires forall j | 0 <= j < |draws| :: Renderable(draws[j], |patientIds|)
    requires Renderable(d, |patientIds|)
    ensures Render(patientIds, c0, draws + [d]) == Render(patientIds, c0, draws) + [Record(patientIds, c0 + |draws| + 1, d)]
  {
    var long := Render(patientIds, c0, draws + [d]);
    var short := Render(patientIds, c0, draws);
    assert forall j | 0 <= j < |draws| :: long[j] == short[j];
  }

  /** The identifiers of a call read back as the counter values
      `c0 + 1`, ..., `c0 + n` in order: unique, strictly increasing, and
      above every identifier of earlier calls. */
  lemma EncounterIdsCount(patientIds: seq<string>, c0: nat, draws: seq<Drawn>, j: nat)
    requires forall k | 0 <= k < |draws| :: Renderable(draws[k], |patientIds|)
    requires j < |draws|
    ensures var id := Render(patientIds, c0, draws)[j].encounterId;
      |id| >= 12 && id[..4] == "ENC-" && AllDigits(id[4..]) && ParseNat(id[4..]) == c0 + j + 1
  {
    PrefixedIdReadsBack("ENC-", c0 + j + 1, 8);
  }

  /** A row refers to a patient of the list and has one of the four
      types; it has a primary diagnosis exactly when diagnoses are on, a
      secondary one only then, a procedure only when procedures are on,
      each from its list. */
  lemma RecordShape(patientIds: seq<string>, counter: nat, d: Drawn, days: int, dx: bool, px: bool)
    requires DrawnIn(d, |patientIds|, days)
    requires (d.primary.Some? <==> dx) && (d.secondary.Some? ==> dx) && (d.procedure.Some? ==> px)
    ensures var e := Record(patientIds, counter, d);
      e.patientId in patientIds && e.encounterType in EncounterTypes && e.dayOffset < days
      && (e.primaryDx.Some? <==> dx) && (e.primaryDx.Some? ==> e.primaryDx.value in CommonCodes)
      && (e.secondaryDx.Some? ==> dx && e.secondaryDx.value in CommonCodes)
      && (e.procedureCode.Some? ==> px && e.procedureCode.value in ProcedureCodes)
  {
  }

  /** A row's facility reads back as `FAC-` and a number from 1 to 99,
      its provider as `PROV-` and a number from 1 to 499. */
  lemma RecordNumbers(patientIds: seq<string>, counter: nat, d: Drawn, days: int)
    requires DrawnIn(d, |patientIds|, days)
    ensures var f := Record(patientIds, counter, d).facilityId;
      |f| >= 7 && f[..4] == "FAC-" && AllDigits(f[4..]) && 1 <= ParseNat(f[4..]) <= 99
    ensures var p := Record(patientIds, counter, d).providerId;
      |p| >= 9 && p[..5] == "PROV-" && AllDigits(p[5..]) && 1 <= ParseNat(p[5..]) <= 499
  {
    PrefixedIdReadsBack("FAC-", d.head.facility, 3);
    PrefixedIdReadsBack("PROV-", d.head.provider, 4);
  }

  /** Every row of a call has the shape of `RecordShape` and
      `RecordNumbers`. */
  lemma RowsShape(patientIds: seq<string>, c0: nat, ds: Draws, pos: nat, n: nat, days: int, dx: bool, px: bool, j: nat)
    requires |patientIds| > 0 && days > 0 && j < n
    ensures var draws := EncountersAt(ds, pos, n, |patientIds|, days, dx, px).0;
      Render(patientIds, c0, draws)[j] == Record(patientIds, c0 + j + 1, draws[j])
      && DrawnIn(draws[j], |patientIds|, days)
      && (draws[j].primary.Some? <==> dx) && (draws[j].secondary.Some? ==> dx) && (draws[j].procedure.Some? ==> px)
  {
  }

  /** An encounter's type is `EncounterTypes[k]` for the draw whose slice
      `[Cum(k), Cum(k + 1))` of the weights holds it, so with
      probabilities 0.55, 0.2, 0.1 and 0.15. */
  lemma TypeFollowsWeights(ds: Draws, pos: nat, patients: nat, days: int, dx: bool, px: bool)
    requires patients > 0 && days > 0
    ensures var k := EncounterAt(ds, pos, patients, days, dx, px).0.head.kind;
      Cum(EncounterWeights, k) <= ds(pos + 2) < Cum(EncounterWeights, k + 1)
  {
    TypeWeights();
    WeightedIndexInterval(EncounterWeights, ds(pos + 2));
  }

  /** A secondary diagnosis is drawn exactly when the draw after the
      primary one is below 0.4, and a procedure exactly when its first
      draw is below 0.3. */
  lemma OptionalCodes(ds: Draws, q: nat)
    ensures DiagnosesAt(ds, q, true).1.Some? <==> ds(q + 1) < 0.4
    ensures ProcedureAt(ds, q, true).0.Some? <==> ds(q) < 0.3
  {
  }

  // ---------------------------------------------------------------
  // The generator
  // ---------------------------------------------------------------

  class EncounterGenerator {
    const np: Generator
    /** How many encounters were made (or started) so far. */
    var counter: nat

    /** `__init__`: reseeds the process-wide generator. */
    constructor (seed: int, np: Generator)
      modifies np
      ensures this.np == np && counter == 0
      ensures np.seed == seed && np.calls == 0
    {
      this.np := np;
      counter := 0;
      np.Seed(seed);
    }

    /** The first five draws of an encounter. `choice` of an empty list
        raises before drawing; `randint(0, days)` raises for an empty
        range after the patient was drawn. */
    method DrawHead(patients: nat, days: int, ghost ds: Draws, ghost pos: nat) returns (r: Result<Head, string>)
      requires ds == np.streams(np.seed) && np.calls == pos
      modifies np
      ensures np.seed == old(np.seed)
      ensures patients == 0 ==> r == Failure("a cannot be empty unless no samples are taken") && np.calls == pos
      ensures patients > 0 && days <= 0 ==> r == Failure("low >= high") && np.calls == pos + 1
      ensures patients > 0 && days > 0 ==> r == Success(HeadAt(ds, pos, patients, days)) && np.calls == pos + 5
    {
      if patients == 0 {
        return Failure("a cannot be empty unless no samples are taken");
      }
      var patientDraw := np.Random();
      assert patientDraw == ds(pos);
      if days <= 0 {
        return Failure("low >= high");
      }
      var dayDraw := np.Random();
      assert dayDraw == ds(pos + 1);
      var typeDraw := np.Random();
      assert typeDraw == ds(pos + 2);
      var facilityDraw := np.Random();
      assert facilityDraw == ds(pos + 3);
      var providerDraw := np.Random();
      assert providerDraw == ds(pos + 4);
      r := Success(HeadFrom(patientDraw, dayDraw, typeDraw, facilityDraw, providerDraw, patients, days));
    }

    /** `primary_dx` and `secondary_dx`, when diagnoses are on. */
    method DrawDiagnoses(on: bool, ghost ds: Draws, ghost q: nat) returns (primary: Option<nat>, secondary: Option<nat>)
      requires ds == np.streams(np.seed) && np.calls == q
      modifies np
      ensures np.seed == old(np.seed)
      ensures (primary, secondary, np.calls) == DiagnosesAt(ds, q, on)
    {
      if !on {
        return None, None;
      }
      var code := np.Choice(|CommonCodes|);
      assert code.value == ScaledFloor(ds(q), |CommonCodes|);
      primary := Some(code.value);
      var coin := np.Random();
      assert coin == ds(q + 1);
      if coin < 0.4 {
        var second := np.Choice(|CommonCodes|);
        assert second.value == ScaledFloor(ds(q + 2), |CommonCodes|);
        secondary := Some(second.value);
      } else {
        secondary := None;
      }
    }

    /** `procedure_code`, when procedures are on. */
    method DrawProcedure(on: bool, ghost ds: Draws, ghost q: nat) returns (procedure: Option<nat>)
      requires ds == np.streams(np.seed) && np.calls == q
      modifies np
      ensures np.seed == old(np.seed)
      ensures (procedure, np.calls) == ProcedureAt(ds, q, on)
    {
      if !on {
        return None;
      }
      var coin := np.Random();
      assert coin == ds(q);
      if coin < 0.3 {
        var code := np.Choice(|ProcedureCodes|);
        assert code.value == ScaledFloor(ds(q + 1), |ProcedureCodes|);
        procedure := Some(code.value);
      } else {
        procedure := None;
      }
    }

    /** The draws of one encounter. */
    method NextEncounter(patients: nat, days: int, dx: bool, px: bool, ghost ds: Draws, ghost pos: nat)
      returns (r: Result<Drawn, string>)
      requires ds == np.streams(np.seed) && np.calls == pos
      modifies np
      ensures np.seed == old(np.seed)
      ensures patients == 0 ==> r == Failure("a cannot be empty unless no samples are taken")
      ensures patients > 0 && days <= 0 ==> r == Failure("low >= high")
      ensures patients > 0 && days > 0 ==> r.Success? && (r.value, np.calls) == EncounterAt(ds, pos, patients, days, dx, px)
    {
      var head := DrawHead(patients, days, ds, pos);
      if head.Failure? {
        return Failure(head.error);
      }
      ghost var q := pos + 5;
      var primary, secondary := DrawDiagnoses(dx, ds, q);
      ghost var q1 := np.calls;
      var procedure := DrawProcedure(px, ds, q1);
      r := Success(Drawn(head.value, primary, secondary, procedure));
    }

    /** One turn of `generate_encounters`' loop after `|draws|` turns:
        the counter goes up first, then the encounter is drawn and its
        row appended. */
    method EncounterStep(patientIds: seq<string>, rows: seq<ClinicalEncounter>, days: int, dx: bool, px: bool,
                         ghost draws: seq<Drawn>, ghost ds: Draws, ghost pos: nat, ghost c0: nat)
      returns (r: Result<seq<ClinicalEncounter>, string>, ghost draws': seq<Drawn>)
      requires ds == np.streams(np.seed) && counter == c0 + |draws|
      requires |draws| > 0 ==> |patientIds| > 0 && days > 0
      requires |draws| > 0 ==> (draws, np.calls) == EncountersAt(ds, pos, |draws|, |patientIds|, days, dx, px)
      requires |draws| > 0 ==> rows == Render(patientIds, c0, draws)
      requires |draws| == 0 ==> np.calls == pos && rows == []
      modifies this, np
      ensures np.seed == old(np.seed) && counter == old(counter) + 1
      ensures |patientIds| == 0 ==> r == Failure("a cannot be empty unless no samples are taken")
      ensures |patientIds| > 0 && days <= 0 ==> r == Failure("low >= high")
      ensures |patientIds| > 0 && days > 0 ==> r.Success? && |draws'| == |draws| + 1
      ensures |patientIds| > 0 && days > 0 ==> (draws', np.calls) == EncountersAt(ds, pos, |draws'|, |patientIds|, days, dx, px)
      ensures r.Success? ==> r.value == Render(patientIds, c0, draws')
    {
      counter := counter + 1;
      ghost var at := np.calls;
      var d := NextEncounter(|patientIds|, days, dx, px, ds, at);
      if d.Failure? {
        return Failure(d.error), draws;
      }
      ghost var k := |draws|;
      EncountersAtNext(ds, pos, k, |patientIds|, days, dx, px);
      RenderNext(patientIds, c0, draws, d.value);
      r := Success(rows + [Record(patientIds, counter, d.value)]);
      draws' := draws + [d.value];
    }

    /** `generate_encounters`: `n` encounters, each numbered with the
        counter. An empty patient list or an empty date range raises on
        the first encounter, after the counter has moved. */
    method GenerateEncounters(patientIds: seq<string>, n: int, days: int, dx: bool, px: bool)
      returns (r: Result<seq<ClinicalEncounter>, string>)
      modifies this, np
      ensures np.seed == old(np.seed)
      ensures n <= 0 ==> r == Success([]) && counter == old(counter) && np.calls == old(np.calls)
      ensures n > 0 && |patientIds| == 0 ==>
        r == Failure("a cannot be empty unless no samples are taken") && counter == old(counter) + 1
      ensures n > 0 && |patientIds| > 0 && days <= 0 ==> r == Failure("low >= high") && counter == old(counter) + 1
      ensures n > 0 && |patientIds| > 0 && days > 0 ==>
        var (draws, end) := EncountersAt(np.streams(np.seed), old(np.calls), n, |patientIds|, days, dx, px);
        r == Success(Render(patientIds, old(counter), draws)) && np.calls == end && counter == old(counter) + n
    {
      ghost var ds, pos, c0 := np.streams(np.seed), np.calls, counter;
      var rows: seq<ClinicalEncounter> := [];
      ghost var draws: seq<Drawn> := [];
      var k := 0;
      while k < n
        invariant k == |draws| && (k <= n || k == 0)
        invariant ds == np.streams(np.seed) && np.seed == old(np.seed) && counter == c0 + k
        invariant k > 0 ==> |patientIds| > 0 && days > 0
        invariant k > 0 ==> (draws, np.calls) == EncountersAt(ds, pos, k, |patientIds|, days, dx, px)
        invariant k > 0 ==> rows == Render(patientIds, c0, draws)
        invariant k == 0 ==> np.calls == pos && rows == []
      {
        var next;
        next, draws := EncounterStep(patientIds, rows, days, dx, px, draws, ds, pos, c0);
        if next.Failure? {
          return Failure(next.error);
        }
        rows := next.value;
        k := k + 1;
      }
      r := Success(rows);
    }
  }
}
