/** The backend's laboratory results (backend/app/patient_id.py,
    `LaboratoryGenerator`): for each result a patient and a panel are
    drawn, and every test of the panel gets a value, normal with
    probability 0.8 and otherwise below or above the normal range, and a
    flag saying where the value lies.

    The test date is kept as the number of days before the day of the
    call (reading the clock and formatting the date is pandas). */
module LabResults {
  import opened Prelude
  import opened NumpyRandom
  import opened Stream

  /** One row of the panel table: the test, its normal range, its unit
      and the range abnormal values are drawn from. */
  datatype TestDef = TestDef(name: string, lowNorm: real, highNorm: real, unit: string, lowRange: real, highRange: real)

  const Chemistry: seq<TestDef> := [
    TestDef("glucose", 70.0, 100.0, "mg/dL", 80.0, 200.0),
    TestDef("creatinine", 0.7, 1.3, "mg/dL", 0.5, 5.0),
    TestDef("bun", 7.0, 20.0, "mg/dL", 5.0, 50.0),
    TestDef("sodium", 136.0, 145.0, "mEq/L", 130.0, 155.0),
    TestDef("potassium", 3.5, 5.0, "mEq/L", 3.0, 6.5)]

  const Hematology: seq<TestDef> := [
    TestDef("hemoglobin", 12.0, 17.0, "g/dL", 8.0, 20.0),
    TestDef("hematocrit", 36.0, 50.0, "%", 25.0, 55.0),
    TestDef("wbc", 4.5, 11.0, "K/uL", 2.0, 25.0),
    TestDef("platelets", 150.0, 400.0, "K/uL", 50.0, 600.0)]

  const Lipid: seq<TestDef> := [
    TestDef("total_cholesterol", 0.0, 200.0, "mg/dL", 100.0, 350.0),
    TestDef("ldl", 0.0, 100.0, "mg/dL", 40.0, 250.0),
    TestDef("hdl", 40.0, 60.0, "mg/dL", 20.0, 100.0),
    TestDef("triglycerides", 0.0, 150.0, "mg/dL", 50.0, 500.0)]

  /** The panels used when none are given. */
  const DefaultPanels: seq<string> := ["chemistry", "hematology", "lipid"]

  /** `lab_definitions.get(panel, [])`: an unknown panel has no tests. */
  function TestsOf(panel: string): (tests: seq<TestDef>)
    ensures tests == [] <==> panel !in DefaultPanels
  {
    if panel == "chemistry" then Chemistry
    else if panel == "hematology" then Hematology
    else if panel == "lipid" then Lipid
    else []
  }

  /** `randint(0, 365 * 3)`: how many days before the call the test was
      taken. */
  const DaysBack: nat := 365 * 3

  // ---------------------------------------------------------------
  // What the draws of one test decide
  // ---------------------------------------------------------------

  /** `"L" if value < low_norm else ("H" if value > high_norm else "N")`. */
  function Flag(value: real, lowNorm: real, highNorm: real): string {
    if value < lowNorm then "L" else if value > highNorm then "H" else "N"
  }

  /** The value of a test whose draws start at `q`, and the position
      after them: `random() < 0.8` keeps it in the normal range;
      otherwise `random() < 0.5` draws it from `lowRange` to `lowNorm`,
      else from `highNorm` to `highRange`. */
  function ValueAt(ds: Draws, q: nat, t: TestDef): (r: (real, nat))
    ensures r.1 == q + 2 || r.1 == q + 3
  {
    if ds(q) < 0.8 then (UniformFrom(t.lowNorm, t.highNorm, ds(q + 1)), q + 2)
    else if ds(q + 1) < 0.5 then (UniformFrom(t.lowRange, t.lowNorm, ds(q + 2)), q + 3)
    else (UniformFrom(t.highNorm, t.highRange, ds(q + 2)), q + 3)
  }

  /** A test's unrounded value and the days back of its date. */
  datatype Measured = Measured(value: real, daysAgo: nat)

  /** The value, then the date's `randint`. */
  function TestAt(ds: Draws, q: nat, t: TestDef): (r: (Measured, nat))
    ensures r.0.daysAgo < DaysBack
    ensures r.1 == q + 3 || r.1 == q + 4
  {
    var (value, q1) := ValueAt(ds, q, t);
    (Measured(value, ScaledFloor(ds(q1), DaysBack)), q1 + 1)
  }

  /** The first `k` tests of a panel, from position `q`. */
  function TestsAt(ds: Draws, q: nat, tests: seq<TestDef>, k: nat): (r: (seq<Measured>, nat))
    requires k <= |tests|
    ensures |r.0| == k && q <= r.1
    ensures forall i | 0 <= i < k :: r.0[i].daysAgo < DaysBack
  {
    if k == 0 then ([], q)
    else
      var (front, q1) := TestsAt(ds, q, tests, k - 1);
      var (m, q2) := TestAt(ds, q1, tests[k - 1]);
      (front + [m], q2)
  }

  lemma TestsAtNext(ds: Draws, q: nat, tests: seq<TestDef>, k: nat)
    requires k < |tests|
    ensures var (front, q1) := TestsAt(ds, q, tests, k);
      var (m, q2) := TestAt(ds, q1, tests[k]);
      TestsAt(ds, q, tests, k + 1) == (front + [m], q2)
  {
  }

  /** What the draws of one result decide: the patient's index, the
      panel's index and the panel's measurements. */
  datatype LabDraw = LabDraw(patient: nat, panel: nat, tests: seq<Measured>)

  /** The indices of a result are in range and it measured every test of
      its panel. */
  predicate Fits(d: LabDraw, patients: nat, panels: seq<string>) {
    d.patient < patients && d.panel < |panels| && |d.tests| == |TestsOf(panels[d.panel])|
  }

  /** `choice(patient_ids)`, `choice(lab_panels)`, then the panel's
      tests. */
  function ResultAt(ds: Draws, pos: nat, patients: nat, panels: seq<string>): (r: (LabDraw, nat))
    requires patients > 0 && |panels| > 0
    ensures Fits(r.0, patients, panels) && pos + 2 <= r.1
  {
    var panel := ScaledFloor(ds(pos + 1), |panels|);
    var (ms, q) := TestsAt(ds, pos + 2, TestsOf(panels[panel]), |TestsOf(panels[panel])|);
    (LabDraw(ScaledFloor(ds(pos), patients), panel, ms), q)
  }

  /** The first `n` results of a call whose draws start at `pos`. */
  function ResultsAt(ds: Draws, pos: nat, n: nat, patients: nat, panels: seq<string>): (r: (seq<LabDraw>, nat))
    requires n > 0 ==> patients > 0 && |panels| > 0
    ensures |r.0| == n && pos <= r.1
    ensures forall j | 0 <= j < n :: Fits(r.0[j], patients, panels)
  {
    if n == 0 then ([], pos)
    else
      var (front, q) := ResultsAt(ds, pos, n - 1, patients, panels);
      var (d, q') := ResultAt(ds, q, patients, panels);
      (front + [d], q')
  }

  lemma ResultsAtNext(ds: Draws, pos: nat, n: nat, patients: nat, panels: seq<string>)
    requires patients > 0 && |panels| > 0
    ensures var (front, q) := ResultsAt(ds, pos, n, patients, panels);
      var (d, q') := ResultAt(ds, q, patients, panels);
      ResultsAt(ds, pos, n + 1, patients, panels) == (front + [d], q')
  {
  }

  // ---------------------------------------------------------------
  // The rows
  // ---------------------------------------------------------------

  /** One row of `generate_labs`, with the value before `round(value, 2)`. */
  datatype LabResult = LabResult(
    patientId: string, daysAgo: nat, panel: string, testName: string, value: real,
    unit: string, lowNormal: real, highNormal: real, abnormalFlag: string)

  function Row(patientId: string, panel: string, t: TestDef, m: Measured): LabResult {
    LabResult(patientId, m.daysAgo, panel, t.name, m.value, t.unit, t.lowNorm, t.highNorm,
      Flag(m.value, t.lowNorm, t.highNorm))
  }

  /** The rows of one result, one per test of its panel, in the panel's
      order. */
  function PanelRows(patientId: string, panel: string, tests: seq<TestDef>, ms: seq<Measured>): (rows: seq<LabResult>)
    requires |ms| == |tests|
    ensures |rows| == |tests|
  {
    seq(|tests|, i requires 0 <= i < |tests| => Row(patientId, panel, tests[i], ms[i]))
  }

  lemma PanelRowsNext(patientId: string, panel: string, tests: seq<TestDef>, ms: seq<Measured>, k: nat, m: Measured)
    requires k < |tests| && |ms| == k
    ensures PanelRows(patientId, panel, tests[..k + 1], ms + [m])
      == PanelRows(patientId, panel, tests[..k], ms) + [Row(patientId, panel, tests[k], m)]
  {
    var long := PanelRows(patientId, panel, tests[..k + 1], ms + [m]);
    var short := PanelRows(patientId, panel, tests[..k], ms);
    assert forall i | 0 <= i < k :: long[i] == short[i];
  }

  /** How many tests the results' panels hold together. */
  function TestCount(panels: seq<string>, draws: seq<LabDraw>): nat
    requires forall j | 0 <= j < |draws| :: draws[j].panel < |panels|
  {
    if draws == [] then 0
    else TestCount(panels, draws[..|draws| - 1]) + |TestsOf(panels[draws[|draws| - 1].panel])|
  }

  /** The rows of all results, result by result. */
  function LabRows(patientIds: seq<string>, panels: seq<string>, draws: seq<LabDraw>): (rows: seq<LabResult>)
    requires forall j | 0 <= j < |draws| :: Fits(draws[j], |patientIds|, panels)
  {
    if draws == [] then []
    else
      var d := draws[|draws| - 1];
      assert Fits(d, |patientIds|, panels);
      LabRows(patientIds, panels, draws[..|draws| - 1])
        + PanelRows(patientIds[d.patient], panels[d.panel], TestsOf(panels[d.panel]), d.tests)
  }

  lemma LabRowsNext(patientIds: seq<string>, panels: seq<string>, draws: seq<LabDraw>, d: LabDraw)
    requires forall j | 0 <= j < |draws| :: Fits(draws[j], |patientIds|, panels)
    requires Fits(d, |patientIds|, panels)
    ensures LabRows(patientIds, panels, draws + [d])
      == LabRows(patientIds, panels, draws) + PanelRows(patientIds[d.patient], panels[d.panel], TestsOf(panels[d.panel]), d.tests)
  {
    assert (draws + [d])[..|draws|] == draws;
  }

  // ---------------------------------------------------------------
  // Properties
  // ---------------------------------------------------------------

  /** A call makes one row per test of each drawn panel. */
  lemma {:induction false} LabRowsCount(patientIds: seq<string>, panels: seq<string>, draws: seq<LabDraw>)
    requires forall j | 0 <= j < |draws| :: Fits(draws[j], |patientIds|, panels)
    ensures forall j | 0 <= j < |draws| :: draws[j].panel < |panels|
    ensures |LabRows(patientIds, panels, draws)| == TestCount(panels, draws)
  {
    if draws != [] {
      LabRowsCount(patientIds, panels, draws[..|draws| - 1]);
    }
  }

  /** A value drawn in the normal branch is inside the normal range and
      flagged `N`. */
  lemma NormalBranch(ds: Draws, q: nat, t: TestDef)
    requires t.lowNorm <= t.highNorm && ds(q) < 0.8
    ensures var v := ValueAt(ds, q, t).0;
      t.lowNorm <= v <= t.highNorm && Flag(v, t.lowNorm, t.highNorm) == "N"
  {
    assert ValueAt(ds, q, t).0 == UniformFrom(t.lowNorm, t.highNorm, ds(q + 1));
    UniformWithin(t.lowNorm, t.highNorm, ds(q + 1));
  }

  /** The abnormal-low branch is flagged `L` exactly when the test's
      abnormal range starts below its normal range. */
  lemma LowBranch(ds: Draws, q: nat, t: TestDef)
    requires t.lowNorm <= t.highNorm && t.lowRange <= t.highNorm
    requires ds(q) >= 0.8 && ds(q + 1) < 0.5
    ensures var v := ValueAt(ds, q, t).0;
      Flag(v, t.lowNorm, t.highNorm) == "L" <==> t.lowRange < t.lowNorm
  {
    var u := ds(q + 2);
    assert ValueAt(ds, q, t).0 == UniformFrom(t.lowRange, t.lowNorm, u);
    if t.lowRange <= t.lowNorm {
      UniformWithin(t.lowRange, t.lowNorm, u);
    } else {
      UniformReversed(t.lowRange, t.lowNorm, u);
    }
  }

  /** The abnormal-high branch is flagged `H` unless its draw is exactly
      zero. */
  lemma HighBranch(ds: Draws, q: nat, t: TestDef)
    requires t.lowNorm <= t.highNorm < t.highRange && ds(q) >= 0.8 && ds(q + 1) >= 0.5
    ensures var v := ValueAt(ds, q, t).0;
      Flag(v, t.lowNorm, t.highNorm) == "H" <==> ds(q + 2) > 0.0
  {
    assert ValueAt(ds, q, t).0 == UniformFrom(t.highNorm, t.highRange, ds(q + 2));
    UniformWithin(t.highNorm, t.highRange, ds(q + 2));
  }

  /** Of the thirteen tests, glucose and three lipid tests have an
      abnormal range starting above their normal lower bound, so their
      abnormal-low branch never gives an `L`; for glucose the value lies
      in (70, 80] and is flagged `N`. */
  lemma LowBranchNeverLow(ds: Draws, q: nat)
    ensures forall t | t in Chemistry + Hematology + Lipid ::
      t.lowNorm <= t.lowRange <==> t.name in ["glucose", "total_cholesterol", "ldl", "triglycerides"]
    ensures ds(q) >= 0.8 && ds(q + 1) < 0.5 ==>
      var v := ValueAt(ds, q, Chemistry[0]).0;
      70.0 < v <= 80.0 && Flag(v, 70.0, 100.0) == "N"
  {
    if ds(q) >= 0.8 && ds(q + 1) < 0.5 {
      assert ValueAt(ds, q, Chemistry[0]).0 == UniformFrom(80.0, 70.0, ds(q + 2));
      UniformReversed(80.0, 70.0, ds(q + 2));
    }
  }

  // ---------------------------------------------------------------
  // The generator
  // ---------------------------------------------------------------

  class LaboratoryGenerator {
    const np: Generator

    /** `__init__`: reseeds the process-wide generator. */
    constructor (seed: int, np: Generator)
      modifies np
      ensures this.np == np && np.seed == seed && np.calls == 0
    {
      this.np := np;
      np.Seed(seed);
    }

    /** The draws of one test's value. */
    method DrawValue(t: TestDef, ghost ds: Draws, ghost q: nat) returns (value: real)
      requires ds == np.streams(np.seed) && np.calls == q
      modifies np
      ensures np.seed == old(np.seed)
      ensures (value, np.calls) == ValueAt(ds, q, t)
    {
      var coin := np.Random();
      assert coin == ds(q);
      if coin < 0.8 {
        value := np.Uniform(t.lowNorm, t.highNorm);
      } else {
        var side := np.Random();
        assert side == ds(q + 1);
        if side < 0.5 {
          value := np.Uniform(t.lowRange, t.lowNorm);
        } else {
          value := np.Uniform(t.highNorm, t.highRange);
        }
      }
    }

    /** One test: its value, then its date. */
    method MeasureTest(t: TestDef, ghost ds: Draws, ghost q: nat) returns (m: Measured)
      requires ds == np.streams(np.seed) && np.calls == q
      modifies np
      ensures np.seed == old(np.seed)
      ensures (m, np.calls) == TestAt(ds, q, t)
    {
      var value := DrawValue(t, ds, q);
      ghost var q1 := np.calls;
      var days := np.RandInt(0, DaysBack);
      assert days.value == ScaledFloor(ds(q1), DaysBack);
      m := Measured(value, days.value);
    }

    /** The inner loop: one row per test of the panel. */
    method MeasurePanel(patientId: string, panel: string, tests: seq<TestDef>, ghost ds: Draws, ghost q: nat)
      returns (rows: seq<LabResult>, ghost ms: seq<Measured>)
      requires ds == np.streams(np.seed) && np.calls == q
      modifies np
      ensures np.seed == old(np.seed)
      ensures (ms, np.calls) == TestsAt(ds, q, tests, |tests|)
      ensures rows == PanelRows(patientId, panel, tests, ms)
    {
      rows, ms := [], [];
      var k := 0;
      while k < |tests|
        invariant k <= |tests| && |ms| == k
        invariant ds == np.streams(np.seed) && np.seed == old(np.seed)
        invariant (ms, np.calls) == TestsAt(ds, q, tests, k)
        invariant rows == PanelRows(patientId, panel, tests[..k], ms)
      {
        ghost var at := np.calls;
        var m := MeasureTest(tests[k], ds, at);
        TestsAtNext(ds, q, tests, k);
        PanelRowsNext(patientId, panel, tests, ms, k, m);
        rows := rows + [Row(patientId, panel, tests[k], m)];
        ms := ms + [m];
        k := k + 1;
      }
      assert tests[..k] == tests;
    }

    /** One result: the patient, the panel and the panel's rows. An empty
        patient list raises before drawing, an empty panel list after the
        patient was drawn. */
    method NextResult(patientIds: seq<string>, panels: seq<string>, ghost ds: Draws, ghost pos: nat)
      returns (r: Result<seq<LabResult>, string>, ghost d: LabDraw)
      requires ds == np.streams(np.seed) && np.calls == pos
      modifies np
      ensures np.seed == old(np.seed)
      ensures |patientIds| == 0 ==> r == Failure("a cannot be empty unless no samples are taken")
      ensures |patientIds| > 0 && |panels| == 0 ==> r == Failure("a cannot be empty unless no samples are taken")
      ensures |patientIds| > 0 && |panels| > 0 ==> r.Success? && (d, np.calls) == ResultAt(ds, pos, |patientIds|, panels)
      ensures |patientIds| > 0 && |panels| > 0 ==>
        r.value == PanelRows(patientIds[d.patient], panels[d.panel], TestsOf(panels[d.panel]), d.tests)
    {
      d := LabDraw(0, 0, []);
      var patient := np.Choice(|patientIds|);
      if patient.Failure? {
        return Failure(patient.error), d;
      }
      assert patient.value == ScaledFloor(ds(pos), |patientIds|);
      var panel := np.Choice(|panels|);
      if panel.Failure? {
        return Failure(panel.error), d;
      }
      assert panel.value == ScaledFloor(ds(pos + 1), |panels|);
      var tests := TestsOf(panels[panel.value]);
      var rows, ms := MeasurePanel(patientIds[patient.value], panels[panel.value], tests, ds, pos + 2);
      d := LabDraw(patient.value, panel.value, ms);
      r := Success(rows);
    }

    /** One turn of `generate_labs`' outer loop after `|draws|` turns. */
    method ResultStep(patientIds: seq<string>, panels: seq<string>, rows: seq<LabResult>,
                      ghost draws: seq<LabDraw>, ghost ds: Draws, ghost pos: nat)
      returns (r: Result<seq<LabResult>, string>, ghost draws': seq<LabDraw>)
      requires ds == np.streams(np.seed)
      requires |draws| > 0 ==> |patientIds| > 0 && |panels| > 0
      requires (draws, np.calls) == ResultsAt(ds, pos, |draws|, |patientIds|, panels)
      requires rows == LabRows(patientIds, panels, draws)
      modifies np
      ensures np.seed == old(np.seed)
      ensures |patientIds| == 0 || |panels| == 0 ==> r == Failure("a cannot be empty unless no samples are taken")
      ensures |patientIds| > 0 && |panels| > 0 ==> r.Success? && |draws'| == |draws| + 1
      ensures |patientIds| > 0 && |panels| > 0 ==> (draws', np.calls) == ResultsAt(ds, pos, |draws'|, |patientIds|, panels)
      ensures r.Success? ==> r.value == LabRows(patientIds, panels, draws')
    {
      ghost var at := np.calls;
      var next, d := NextResult(patientIds, panels, ds, at);
      if next.Failure? {
        return Failure(next.error), draws;
      }
      ResultsAtNext(ds, pos, |draws|, |patientIds|, panels);
      LabRowsNext(patientIds, panels, draws, d);
      r := Success(rows + next.value);
      draws' := draws + [d];
    }

    /** `generate_labs`' outer loop over the chosen panels. */
    method LabLoop(patientIds: seq<string>, n: int, panels: seq<string>)
      returns (r: Result<seq<LabResult>, string>)
      modifies np
      ensures np.seed == old(np.seed)
      ensures n <= 0 ==> r == Success([]) && np.calls == old(np.calls)
      ensures n > 0 && (|patientIds| == 0 || |panels| == 0) ==> r == Failure("a cannot be empty unless no samples are taken")
      ensures n > 0 && |patientIds| > 0 && |panels| > 0 ==>
        var (draws, end) := ResultsAt(np.streams(np.seed), old(np.calls), n, |patientIds|, panels);
        r == Success(LabRows(patientIds, panels, draws)) && np.calls == end
    {
      ghost var ds, pos := np.streams(np.seed), np.calls;
      var rows: seq<LabResult> := [];
      ghost var draws: seq<LabDraw> := [];
      var k := 0;
      while k < n
        invariant k == |draws| && (k <= n || k == 0)
        invariant ds == np.streams(np.seed) && np.seed == old(np.seed)
        invariant k > 0 ==> |patientIds| > 0 && |panels| > 0
        invariant (draws, np.calls) == ResultsAt(ds, pos, k, |patientIds|, panels)
        invariant rows == LabRows(patientIds, panels, draws)
      {
        var next;
        next, draws := ResultStep(patientIds, panels, rows, draws, ds, pos);
        if next.Failure? {
          return Failure(next.error);
        }
        rows := next.value;
        k := k + 1;
      }
      r := Success(rows);
    }

    /** `generate_labs`: `n` results, each expanded into its panel's
        rows; the three panels when none are given. */
    method GenerateLabs(patientIds: seq<string>, n: int, labPanels: Option<seq<string>>)
      returns (r: Result<seq<LabResult>, string>)
      modifies np
      ensures np.seed == old(np.seed)
      ensures n <= 0 ==> r == Success([]) && np.calls == old(np.calls)
      ensures n > 0 && (|patientIds| == 0 || |labPanels.GetOr(DefaultPanels)| == 0) ==>
        r == Failure("a cannot be empty unless no samples are taken")
      ensures n > 0 && |patientIds| > 0 && |labPanels.GetOr(DefaultPanels)| > 0 ==>
        var panels := labPanels.GetOr(DefaultPanels);
        var (draws, end) := ResultsAt(np.streams(np.seed), old(np.calls), n, |patientIds|, panels);
        r == Success(LabRows(patientIds, panels, draws)) && np.calls == end
    {
      var panels := if labPanels.None? then DefaultPanels else labPanels.value;
      r := LabLoop(patientIds, n, panels);
    }
  }
}
