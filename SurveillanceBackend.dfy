/** The backend's surveillance generators (backend/app/surveillance.py):
    the daily alert system over days, regions and diseases with its
    alert levels, the delays of a propagated outbreak with their
    generations, and the clipping of a simulated incidence series.

    Dates are kept as day indices (the clock, `timedelta` and ISO weeks
    are the standard library); `sin` and `sqrt` are the abstract
    functions of a `MathLib`. */
module SurveillanceBackend {
  import opened Prelude
  import opened Text
  import opened NumpyRandom
  import opened Stream

  // ---------------------------------------------------------------
  // Alert levels
  // ---------------------------------------------------------------

  const AlertLevels: seq<string> := ["GREEN", "YELLOW", "ORANGE", "RED"]

  /** `_determine_alert`: the first threshold the z-score reaches. */
  function DetermineAlert(zscore: real): string {
    if zscore >= 3.0 then "RED"
    else if zscore >= 2.0 then "ORANGE"
    else if zscore >= 1.5 then "YELLOW"
    else "GREEN"
  }

  /** The rank of a level in `AlertLevels`. */
  function Rank(level: string): nat {
    if level == "RED" then 3 else if level == "ORANGE" then 2 else if level == "YELLOW" then 1 else 0
  }

  /** Each level is given on exactly its band of z-scores. */
  lemma AlertBands(zscore: real)
    ensures DetermineAlert(zscore) in AlertLevels
    ensures DetermineAlert(zscore) == "RED" <==> zscore >= 3.0
    ensures DetermineAlert(zscore) == "ORANGE" <==> 2.0 <= zscore < 3.0
    ensures DetermineAlert(zscore) == "YELLOW" <==> 1.5 <= zscore < 2.0
    ensures DetermineAlert(zscore) == "GREEN" <==> zscore < 1.5
  {
  }

  /** A higher z-score never gives a lower level. */
  lemma AlertMonotone(z1: real, z2: real)
    requires z1 <= z2
    ensures Rank(DetermineAlert(z1)) <= Rank(DetermineAlert(z2))
    ensures AlertLevels[Rank(DetermineAlert(z1))] == DetermineAlert(z1)
  {
  }

  // ---------------------------------------------------------------
  // The alert system: what the draws of one cell decide
  // ---------------------------------------------------------------

  /** `np.pi`. */
  const Pi: real := 3.141592653589793

  /** `disease.startswith("J")`. */
  predicate Respiratory(disease: string) {
    |disease| > 0 && disease[0] == 'J'
  }

  /** The seasonal factor: `1 + 0.5 sin(2 pi (day - 180) / 365)` for
      respiratory codes, 1 otherwise. */
  function Seasonal(m: Transcendentals, disease: string, day: nat): real {
    if Respiratory(disease) then 1.0 + 0.5 * m.sin(2.0 * Pi * (day as real - 180.0) / 365.0) else 1.0
  }

  /** `base * seasonal_factor * outbreak_factor`. */
  function Expected(base: real, seasonal: real, factor: real): real {
    base * seasonal * factor
  }

  /** `(cases - base) / sqrt(base) if base > 0 else 0`; the square root
      of a positive number is positive, so the quotient is taken only
      where the abstract `sqrt` says so. */
  function ZScore(m: Transcendentals, cases: nat, base: real): real {
    if base > 0.0 && m.sqrt(base) > 0.0 then (cases as real - base) / m.sqrt(base) else 0.0
  }

  /** What stays fixed across the cells of one call. */
  datatype Setting = Setting(diseases: seq<string>, regions: int, baselines: map<string, real>,
                             outbreakProbability: real, m: Transcendentals, poisson: (real, real) -> nat)

  /** `baseline_incidence.get(disease, 1.0)`. */
  function BaseOf(s: Setting, disease: string): real {
    if disease in s.baselines then s.baselines[disease] else 1.0
  }

  /** One day, region and disease: the outbreak factor, the expected
      count and, when `poisson` accepts that rate, the cases. */
  datatype Cell = Cell(day: nat, region: nat, disease: string, base: real, factor: real, expected: real,
                       cases: Option<nat>)

  /** How one cell is drawn: from the stream position, the day, the
      region and the disease, the cell and the position after it. */
  type CellDraw = (nat, nat, nat, string) -> (Cell, nat)

  /** The outbreak draws at `q`: `random() < p` decides an outbreak,
      whose factor is `uniform(2, 5)`; the factor and the next position. */
  function OutbreakAt(ds: Draws, q: nat, p: real): (r: (real, nat))
    ensures r.1 == q + 1 || r.1 == q + 2
  {
    if ds(q) < p then (UniformFrom(2.0, 5.0, ds(q + 1)), q + 2) else (1.0, q + 1)
  }

  /** `poisson(expected)` at `q`, which raises for a negative rate
      before drawing. */
  function CasesAt(ds: Draws, q: nat, s: Setting, expected: real): (r: (Option<nat>, nat))
    ensures r.0.None? <==> expected < 0.0
    ensures r.1 == if expected < 0.0 then q else q + 1
  {
    if expected < 0.0 then (None, q) else (Some(s.poisson(expected, ds(q))), q + 1)
  }

  /** The cell whose draws start at `q`. */
  function CellAt(ds: Draws, q: nat, s: Setting, day: nat, region: nat, disease: string): (r: (Cell, nat))
    ensures r.0.cases.None? <==> r.0.expected < 0.0
    ensures q + 1 <= r.1 <= q + 3
  {
    var base := BaseOf(s, disease);
    var o := OutbreakAt(ds, q, s.outbreakProbability);
    var expected := Expected(base, Seasonal(s.m, disease, day), o.0);
    var k := CasesAt(ds, o.1, s, expected);
    (Cell(day, region, disease, base, o.0, expected, k.0), k.1)
  }

  /** `CellAt` over the stream `ds` and the setting `s`. */
  function CellOf(ds: Draws, s: Setting): CellDraw {
    (q: nat, day: nat, region: nat, disease: string) => CellAt(ds, q, s, day, region, disease)
  }

  /** The cells of the first `k` diseases of one day and region. */
  function DiseaseCells(cell: CellDraw, s: Setting, q: nat, day: nat, region: nat, k: nat): (r: (seq<Cell>, nat))
    requires k <= |s.diseases|
    ensures |r.0| == k
  {
    if k == 0 then ([], q)
    else
      var front := DiseaseCells(cell, s, q, day, region, k - 1);
      var c := cell(front.1, day, region, s.diseases[k - 1]);
      (front.0 + [c.0], c.1)
  }

  /** The cells of regions 1 to `r` of one day. */
  function RegionCells(cell: CellDraw, s: Setting, q: nat, day: nat, r: nat): (seq<Cell>, nat) {
    if r == 0 then ([], q)
    else
      var front := RegionCells(cell, s, q, day, r - 1);
      var cs := DiseaseCells(cell, s, front.1, day, r, |s.diseases|);
      (front.0 + cs.0, cs.1)
  }

  /** The cells of days 0 to `d - 1`. */
  function DayCells(cell: CellDraw, s: Setting, q: nat, d: nat): (seq<Cell>, nat) {
    if d == 0 then ([], q)
    else
      var front := DayCells(cell, s, q, d - 1);
      var cs := RegionCells(cell, s, front.1, d - 1, Max(s.regions, 0));
      (front.0 + cs.0, cs.1)
  }

  lemma DiseaseCellsNext(cell: CellDraw, s: Setting, q: nat, day: nat, region: nat, k: nat)
    requires k < |s.diseases|
    ensures var front := DiseaseCells(cell, s, q, day, region, k);
      var c := cell(front.1, day, region, s.diseases[k]);
      DiseaseCells(cell, s, q, day, region, k + 1) == (front.0 + [c.0], c.1)
  {
  }

  lemma RegionCellsNext(cell: CellDraw, s: Setting, q: nat, day: nat, r: nat)
    ensures var front := RegionCells(cell, s, q, day, r);
      var cs := DiseaseCells(cell, s, front.1, day, r + 1, |s.diseases|);
      RegionCells(cell, s, q, day, r + 1) == (front.0 + cs.0, cs.1)
  {
  }

  lemma DayCellsNext(cell: CellDraw, s: Setting, q: nat, d: nat)
    ensures var front := DayCells(cell, s, q, d);
      var cs := RegionCells(cell, s, front.1, d, Max(s.regions, 0));
      DayCells(cell, s, q, d + 1) == (front.0 + cs.0, cs.1)
  {
  }

  lemma MulNext(a: nat, b: nat)
    ensures a * b + b == (a + 1) * b
  {
  }

  /** One cell per region and disease of a day. */
  lemma {:induction false} RegionCellsCount(cell: CellDraw, s: Setting, q: nat, day: nat, r: nat)
    ensures |RegionCells(cell, s, q, day, r).0| == r * |s.diseases|
  {
    if r > 0 {
      RegionCellsCount(cell, s, q, day, r - 1);
      RegionCellsNext(cell, s, q, day, r - 1);
      MulNext(r - 1, |s.diseases|);
    }
  }

  /** One cell per day, region and disease. */
  lemma {:induction false} DayCellsCount(cell: CellDraw, s: Setting, q: nat, d: nat, perDay: nat)
    requires perDay == Max(s.regions, 0) * |s.diseases|
    ensures |DayCells(cell, s, q, d).0| == d * perDay
  {
    if d > 0 {
      DayCellsCount(cell, s, q, d - 1, perDay);
      DayCellsNext(cell, s, q, d - 1);
      RegionCellsCount(cell, s, DayCells(cell, s, q, d - 1).1, d - 1, Max(s.regions, 0));
      MulNext(d - 1, perDay);
    }
  }

  /** Every cell's rate was accepted; stated on the last cell so that
      the solver unfolds it one step at a time. */
  predicate AllDrawn(cells: seq<Cell>)
    decreases |cells|
  {
    |cells| == 0 || (AllDrawn(cells[..|cells| - 1]) && cells[|cells| - 1].cases.Some?)
  }

  lemma {:induction false} DrawnAt(cells: seq<Cell>, i: nat)
    requires AllDrawn(cells) && i < |cells|
    ensures cells[i].cases.Some?
    decreases |cells|
  {
    if i < |cells| - 1 {
      DrawnAt(cells[..|cells| - 1], i);
    }
  }

  lemma {:induction false} AllDrawnAppend(a: seq<Cell>, b: seq<Cell>)
    ensures AllDrawn(a + b) <==> AllDrawn(a) && AllDrawn(b)
    decreases |b|
  {
    if |b| == 0 {
      assert a + b == a;
    } else {
      var front := b[..|b| - 1];
      assert (a + b)[..|a + b| - 1] == a + front;
      assert (a + b)[|a + b| - 1] == b[|b| - 1];
      AllDrawnAppend(a, front);
    }
  }

  // ---------------------------------------------------------------
  // The alert system: records
  // ---------------------------------------------------------------

  /** One row of `generate_alert_system`, with the expected count and
      the z-score before rounding. */
  datatype AlertRecord = AlertRecord(day: nat, region: string, diseaseCode: string, cases: nat,
                                     expectedCases: real, zscore: real, alertLevel: string, outbreakFlag: bool)

  /** The row of a cell whose rate was accepted; only such cells are
      ever recorded (`AllDrawn` in every contract that builds rows), and
      the 0 for a cell without cases is never read. */
  function Record(m: Transcendentals, c: Cell): AlertRecord {
    var cases := if c.cases.Some? then c.cases.value else 0;
    var z := ZScore(m, cases, c.base);
    AlertRecord(c.day, "R" + PadNumber(c.region, 2), c.disease, cases, c.expected, z,
      DetermineAlert(z), c.factor > 1.0)
  }

  function RecordOf(m: Transcendentals): Cell -> AlertRecord {
    c => Record(m, c)
  }

  /** One row per cell, in order. */
  function Rows(rec: Cell -> AlertRecord, cells: seq<Cell>): (rows: seq<AlertRecord>)
    ensures |rows| == |cells|
  {
    seq(|cells|, i requires 0 <= i < |cells| => rec(cells[i]))
  }

  /** The rows of cells whose rates were all accepted. */
  function Records(m: Transcendentals, cells: seq<Cell>): (rows: seq<AlertRecord>)
    requires AllDrawn(cells)
    ensures |rows| == |cells|
  {
    Rows(RecordOf(m), cells)
  }

  lemma RowsAppend(rec: Cell -> AlertRecord, a: seq<Cell>, b: seq<Cell>)
    ensures Rows(rec, a + b) == Rows(rec, a) + Rows(rec, b)
  {
    var ab := a + b;
    var joined := Rows(rec, a) + Rows(rec, b);
    forall i | 0 <= i < |ab|
      ensures Rows(rec, ab)[i] == joined[i]
    {
      if i < |a| {
        assert ab[i] == a[i];
      } else {
        assert ab[i] == b[i - |a|];
      }
    }
  }

  lemma RecordsAppend(m: Transcendentals, a: seq<Cell>, b: seq<Cell>)
    requires AllDrawn(a) && AllDrawn(b)
    ensures AllDrawn(a + b)
    ensures Records(m, a + b) == Records(m, a) + Records(m, b)
  {
    AllDrawnAppend(a, b);
    RowsAppend(RecordOf(m), a, b);
  }

  /** Appending the cells of an inner loop to a run that was all drawn. */
  lemma Extended(m: Transcendentals, cells: seq<Cell>, more: seq<Cell>, rows: seq<AlertRecord>, inner: seq<AlertRecord>)
    requires AllDrawn(cells) && rows == Records(m, cells)
    ensures AllDrawn(cells + more) <==> AllDrawn(more)
    ensures AllDrawn(more) && inner == Records(m, more) ==> rows + inner == Records(m, cells + more)
  {
    AllDrawnAppend(cells, more);
    if AllDrawn(more) {
      RecordsAppend(m, cells, more);
    }
  }

  // ---------------------------------------------------------------
  // Prefixes: a run that stops early ran the start of the full one
  // ---------------------------------------------------------------

  /** A run whose cells were all drawn ran every shorter run whole. */
  lemma {:induction false} DiseaseCellsDrawn(cell: CellDraw, s: Setting, q: nat, day: nat, region: nat, k: nat, n: nat)
    requires k <= n <= |s.diseases|
    ensures AllDrawn(DiseaseCells(cell, s, q, day, region, n).0) ==> AllDrawn(DiseaseCells(cell, s, q, day, region, k).0)
  {
    if k < n {
      DiseaseCellsDrawn(cell, s, q, day, region, k, n - 1);
      DiseaseCellsNext(cell, s, q, day, region, n - 1);
      var p := DiseaseCells(cell, s, q, day, region, n - 1);
      AllDrawnAppend(p.0, [cell(p.1, day, region, s.diseases[n - 1]).0]);
    }
  }

  lemma {:induction false} RegionCellsDrawn(cell: CellDraw, s: Setting, q: nat, day: nat, r: nat, n: nat)
    requires r <= n
    ensures AllDrawn(RegionCells(cell, s, q, day, n).0) ==> AllDrawn(RegionCells(cell, s, q, day, r).0)
  {
    if r < n {
      RegionCellsDrawn(cell, s, q, day, r, n - 1);
      RegionCellsNext(cell, s, q, day, n - 1);
      var p := RegionCells(cell, s, q, day, n - 1);
      AllDrawnAppend(p.0, DiseaseCells(cell, s, p.1, day, n, |s.diseases|).0);
    }
  }

  lemma {:induction false} DayCellsDrawn(cell: CellDraw, s: Setting, q: nat, d: nat, n: nat)
    requires d <= n
    ensures AllDrawn(DayCells(cell, s, q, n).0) ==> AllDrawn(DayCells(cell, s, q, d).0)
  {
    if d < n {
      DayCellsDrawn(cell, s, q, d, n - 1);
      DayCellsNext(cell, s, q, n - 1);
      var p := DayCells(cell, s, q, n - 1);
      AllDrawnAppend(p.0, RegionCells(cell, s, p.1, n - 1, Max(s.regions, 0)).0);
    }
  }

  // ---------------------------------------------------------------
  // Properties of the cells
  // ---------------------------------------------------------------

  /** What every cell of a call satisfies: it belongs to one of the days,
      regions and diseases, uses the disease's baseline, and its
      outbreak factor is 1 or in [2, 5). */
  predicate CellIn(s: Setting, days: nat, c: Cell) {
    c.day < days && 1 <= c.region <= s.regions && c.disease in s.diseases
    && c.base == BaseOf(s, c.disease)
    && c.expected == Expected(c.base, Seasonal(s.m, c.disease, c.day), c.factor)
    && (c.factor == 1.0 || 2.0 <= c.factor < 5.0)
  }

  /** An outbreak is flagged exactly when its draw fell below the
      outbreak probability, and then the factor lies in [2, 5). */
  lemma CellOutbreak(ds: Draws, q: nat, s: Setting, day: nat, region: nat, disease: string)
    ensures var c := CellAt(ds, q, s, day, region, disease).0;
      (c.factor > 1.0 <==> ds(q) < s.outbreakProbability)
      && (c.factor == 1.0 || 2.0 <= c.factor < 5.0)
  {
    UniformWithin(2.0, 5.0, ds(q + 1));
  }

  /** A cell drawn for a day, region and disease of the call is in it,
      and it belongs to that day, region and disease. */
  ghost predicate DrawsIn(cell: CellDraw, s: Setting, days: nat) {
    forall q: nat, day: nat, region: nat, disease: string
      | day < days && 1 <= region <= s.regions && disease in s.diseases ::
      var c := cell(q, day, region, disease).0;
      CellIn(s, days, c) && c.day == day && c.region == region && c.disease == disease
  }

  lemma CellOfIn(ds: Draws, s: Setting, days: nat)
    ensures DrawsIn(CellOf(ds, s), s, days)
  {
    forall q: nat, day: nat, region: nat, disease: string
      | day < days && 1 <= region <= s.regions && disease in s.diseases
      ensures CellIn(s, days, CellAt(ds, q, s, day, region, disease).0)
    {
      CellOutbreak(ds, q, s, day, region, disease);
    }
  }

  /** `CellIn` for every cell, unfolded one cell at a time. */
  predicate CellsIn(s: Setting, days: nat, cells: seq<Cell>)
    decreases |cells|
  {
    |cells| == 0 || (CellsIn(s, days, cells[..|cells| - 1]) && CellIn(s, days, cells[|cells| - 1]))
  }

  lemma {:induction false} CellsInAt(s: Setting, days: nat, cells: seq<Cell>, i: nat)
    requires CellsIn(s, days, cells) && i < |cells|
    ensures CellIn(s, days, cells[i])
    decreases |cells|
  {
    if i < |cells| - 1 {
      CellsInAt(s, days, cells[..|cells| - 1], i);
    }
  }

  lemma {:induction false} CellsInAppend(s: Setting, days: nat, a: seq<Cell>, b: seq<Cell>)
    requires CellsIn(s, days, a) && CellsIn(s, days, b)
    ensures CellsIn(s, days, a + b)
    decreases |b|
  {
    if |b| == 0 {
      assert a + b == a;
    } else {
      var front := b[..|b| - 1];
      assert (a + b)[..|a + b| - 1] == a + front;
      assert (a + b)[|a + b| - 1] == b[|b| - 1];
      CellsInAppend(s, days, a, front);
    }
  }

  lemma {:induction false} DiseaseCellsIn(cell: CellDraw, s: Setting, q: nat, days: nat, day: nat, region: nat, k: nat)
    requires DrawsIn(cell, s, days)
    requires k <= |s.diseases| && day < days && 1 <= region <= s.regions
    ensures CellsIn(s, days, DiseaseCells(cell, s, q, day, region, k).0)
  {
    if k > 0 {
      DiseaseCellsIn(cell, s, q, days, day, region, k - 1);
      DiseaseCellsNext(cell, s, q, day, region, k - 1);
      var p := DiseaseCells(cell, s, q, day, region, k - 1);
      var c := cell(p.1, day, region, s.diseases[k - 1]).0;
      assert CellIn(s, days, c);
      CellsInAppend(s, days, p.0, [c]);
    }
  }

  lemma {:induction false} RegionCellsIn(cell: CellDraw, s: Setting, q: nat, days: nat, day: nat, r: nat)
    requires DrawsIn(cell, s, days)
    requires day < days && r <= Max(s.regions, 0)
    ensures CellsIn(s, days, RegionCells(cell, s, q, day, r).0)
  {
    if r > 0 {
      RegionCellsIn(cell, s, q, days, day, r - 1);
      RegionCellsNext(cell, s, q, day, r - 1);
      var p := RegionCells(cell, s, q, day, r - 1);
      DiseaseCellsIn(cell, s, p.1, days, day, r, |s.diseases|);
      CellsInAppend(s, days, p.0, DiseaseCells(cell, s, p.1, day, r, |s.diseases|).0);
    }
  }

  lemma {:induction false} DayCellsIn(cell: CellDraw, s: Setting, q: nat, d: nat, days: nat)
    requires DrawsIn(cell, s, days)
    requires d <= days
    ensures CellsIn(s, days, DayCells(cell, s, q, d).0)
  {
    if d > 0 {
      DayCellsIn(cell, s, q, d - 1, days);
      DayCellsNext(cell, s, q, d - 1);
      var p := DayCells(cell, s, q, d - 1);
      RegionCellsIn(cell, s, p.1, days, d - 1, Max(s.regions, 0));
      CellsInAppend(s, days, p.0, RegionCells(cell, s, p.1, d - 1, Max(s.regions, 0)).0);
    }
  }

  /** Every cell of a call over `days` days lies in its days, regions
      and diseases, with the disease's baseline, the expected count
      built from it, and an outbreak factor of 1 or in [2, 5); there are
      `days * regions * |diseases|` of them. */
  lemma AlertCellsIn(ds: Draws, s: Setting, q: nat, days: nat)
    ensures var cells := DayCells(CellOf(ds, s), s, q, days).0;
      |cells| == days * (Max(s.regions, 0) * |s.diseases|)
      && forall i | 0 <= i < |cells| :: CellIn(s, days, cells[i])
  {
    var cell := CellOf(ds, s);
    var cells := DayCells(cell, s, q, days).0;
    DayCellsCount(cell, s, q, days, Max(s.regions, 0) * |s.diseases|);
    CellOfIn(ds, s, days);
    DayCellsIn(cell, s, q, days, days);
    forall i | 0 <= i < |cells|
      ensures CellIn(s, days, cells[i])
    {
      CellsInAt(s, days, cells, i);
    }
  }

  /** What a row says about its cell: a day of the call, a listed code,
      a region label `R` followed by digits, the z-score
      `(cases - base) / sqrt(base)` of the disease's baseline (0 for a
      baseline that is not positive), one of the four levels, the level
      its z-score calls for, and without an outbreak the expected count
      is the baseline times the seasonal factor. */
  predicate RowIn(s: Setting, days: nat, row: AlertRecord) {
    var base := BaseOf(s, row.diseaseCode);
    row.day < days && row.diseaseCode in s.diseases
    && (base > 0.0 && s.m.sqrt(base) > 0.0 ==> row.zscore == (row.cases as real - base) / s.m.sqrt(base))
    && (base <= 0.0 ==> row.zscore == 0.0)
    && |row.region| >= 3 && row.region[0] == 'R' && AllDigits(row.region[1..])
    && row.alertLevel in AlertLevels && row.alertLevel == DetermineAlert(row.zscore)
    && (!row.outbreakFlag ==>
          row.expectedCases == BaseOf(s, row.diseaseCode) * Seasonal(s.m, row.diseaseCode, row.day))
  }

  /** The region label of a row is `R` followed by at least two digits. */
  lemma RecordLabel(m: Transcendentals, c: Cell)
    ensures var tag := Record(m, c).region;
      |tag| >= 3 && tag[0] == 'R' && AllDigits(tag[1..])
  {
    var digits := PadNumber(c.region, 2);
    assert Record(m, c).region[1..] == digits;
  }

  /** The row of a well-formed cell satisfies `RowIn`, carries the
      cell's case count and expected count, and is flagged exactly for
      an outbreak, whose factor then lies in [2, 5). */
  lemma RecordIn(s: Setting, days: nat, c: Cell)
    requires CellIn(s, days, c)
    ensures RowIn(s, days, Record(s.m, c))
    ensures c.cases.Some? ==> Record(s.m, c).cases == c.cases.value
    ensures Record(s.m, c).expectedCases == c.expected
    ensures Record(s.m, c).outbreakFlag <==> c.factor > 1.0
    ensures Record(s.m, c).outbreakFlag ==> 2.0 <= c.factor < 5.0
  {
    RecordLabel(s.m, c);
    AlertBands(Record(s.m, c).zscore);
  }

  /** Every row of a completed call satisfies `RowIn`. */
  lemma AlertRows(ds: Draws, s: Setting, q: nat, days: nat, i: nat)
    requires var cells := DayCells(CellOf(ds, s), s, q, days).0; AllDrawn(cells) && i < |cells|
    ensures RowIn(s, days, Records(s.m, DayCells(CellOf(ds, s), s, q, days).0)[i])
  {
    var cells := DayCells(CellOf(ds, s), s, q, days).0;
    AlertCellsIn(ds, s, q, days);
    RecordIn(s, days, cells[i]);
    assert Records(s.m, cells)[i] == Record(s.m, cells[i]);
  }

  /** The seasonal factor differs from 1 only for respiratory codes. */
  lemma SeasonalOnlyRespiratory(m: Transcendentals, disease: string, day: nat)
    ensures Seasonal(m, disease, day) != 1.0 ==> |disease| > 0 && disease[0] == 'J'
  {
  }

  /** With `sin` in [-1, 1] and no negative baseline, no rate is
      negative, so `poisson` never raises. */
  lemma NoNegativeRate(s: Setting, days: nat, c: Cell)
    requires CellIn(s, days, c)
    requires forall x :: -1.0 <= s.m.sin(x) <= 1.0
    requires forall d | d in s.baselines :: s.baselines[d] >= 0.0
    ensures c.expected >= 0.0
  {
    var seasonal := Seasonal(s.m, c.disease, c.day);
    assert seasonal >= 0.5;
    MulMonotone(c.base, 0.0, seasonal);
    MulMonotone(c.factor, 0.0, c.base * seasonal);
    assert c.expected == (c.base * seasonal) * c.factor;
  }

  /** The z-score is 0 for a baseline that is not positive. */
  lemma ZScoreWithoutBase(m: Transcendentals, cases: nat, base: real)
    requires base <= 0.0
    ensures ZScore(m, cases, base) == 0.0 && DetermineAlert(ZScore(m, cases, base)) == "GREEN"
  {
  }

  // ---------------------------------------------------------------
  // Default baselines
  // ---------------------------------------------------------------

  /** `{d: uniform(0.5, 10.0) for d in diseases}` over the first `k`
      diseases, whose draws start at `pos`; a repeated code keeps its
      last draw. */
  function BaselinesAt(ds: Draws, pos: nat, diseases: seq<string>, k: nat): (b: map<string, real>)
    requires k <= |diseases|
    ensures b.Keys == set i | 0 <= i < k :: diseases[i]
  {
    if k == 0 then map[]
    else BaselinesAt(ds, pos, diseases, k - 1)[diseases[k - 1] := UniformFrom(0.5, 10.0, ds(pos + k - 1))]
  }

  /** Every default baseline lies in [0.5, 10). */
  lemma {:induction false} BaselinesRange(ds: Draws, pos: nat, diseases: seq<string>, k: nat)
    requires k <= |diseases|
    ensures forall d | d in BaselinesAt(ds, pos, diseases, k) :: 0.5 <= BaselinesAt(ds, pos, diseases, k)[d] < 10.0
  {
    if k > 0 {
      BaselinesRange(ds, pos, diseases, k - 1);
      UniformWithin(0.5, 10.0, ds(pos + k - 1));
    }
  }

  /** A code's baseline comes from the draw of its last occurrence. */
  lemma {:induction false} BaselineLastWins(ds: Draws, pos: nat, diseases: seq<string>, k: nat, j: nat)
    requires j < k <= |diseases|
    requires forall i | j < i < k :: diseases[i] != diseases[j]
    ensures BaselinesAt(ds, pos, diseases, k)[diseases[j]] == UniformFrom(0.5, 10.0, ds(pos + j))
  {
    if j < k - 1 {
      BaselineLastWins(ds, pos, diseases, k - 1, j);
    }
  }

  // ---------------------------------------------------------------
  // The alert-system generator
  // ---------------------------------------------------------------

  class SurveillanceGenerator {
    const np: Generator
    var alertCounter: nat

    /** `__init__`: reseeds the process-wide generator. */
    constructor (seed: int, np: Generator)
      modifies np
      ensures this.np == np && alertCounter == 0
      ensures np.seed == seed && np.calls == 0
    {
      this.np := np;
      alertCounter := 0;
      np.Seed(seed);
    }

    /** The default baselines, one draw per listed code. */
    method DrawBaselines(diseases: seq<string>, ghost ds: Draws, ghost pos: nat) returns (b: map<string, real>)
      requires ds == np.streams(np.seed) && np.calls == pos
      modifies np
      ensures np.seed == old(np.seed)
      ensures b == BaselinesAt(ds, pos, diseases, |diseases|) && np.calls == pos + |diseases|
    {
      b := map[];
      for k := 0 to |diseases|
        invariant ds == np.streams(np.seed) && np.seed == old(np.seed)
        invariant b == BaselinesAt(ds, pos, diseases, k) && np.calls == pos + k
      {
        var u := np.Uniform(0.5, 10.0);
        b := b[diseases[k] := u];
      }
    }

    method DrawOutbreak(p: real, ghost ds: Draws, ghost q: nat) returns (factor: real)
      requires ds == np.streams(np.seed) && np.calls == q
      modifies np
      ensures np.seed == old(np.seed)
      ensures (factor, np.calls) == OutbreakAt(ds, q, p)
    {
      var coin := np.Random();
      factor := 1.0;
      if coin < p {
        factor := np.Uniform(2.0, 5.0);
      }
    }

    method DrawCases(s: Setting, expected: real, ghost ds: Draws, ghost q: nat) returns (cases: Option<nat>)
      requires ds == np.streams(np.seed) && np.calls == q && s.poisson == np.variates.poisson
      modifies np
      ensures np.seed == old(np.seed)
      ensures (cases, np.calls) == CasesAt(ds, q, s, expected)
    {
      var r := np.Poisson(expected);
      cases := if r.Success? then Some(r.value) else None;
    }

    /** One cell; a negative rate stops before the `poisson` draw. */
    method DrawCell(s: Setting, day: nat, region: nat, disease: string, ghost ds: Draws, ghost q: nat) returns (c: Cell)
      requires ds == np.streams(np.seed) && np.calls == q && s.poisson == np.variates.poisson
      modifies np
      ensures np.seed == old(np.seed)
      ensures (c, np.calls) == CellAt(ds, q, s, day, region, disease)
    {
      var base := if disease in s.baselines then s.baselines[disease] else 1.0;
      var factor := DrawOutbreak(s.outbreakProbability, ds, q);
      var expected := Expected(base, Seasonal(s.m, disease, day), factor);
      var cases := DrawCases(s, expected, ds, np.calls);
      c := Cell(day, region, disease, base, factor, expected, cases);
    }

    /** One pass of the innermost loop; `false` when `poisson` raised,
        which ends the whole call. */
    method DiseaseStep(s: Setting, day: nat, region: nat, k: nat, rows: seq<AlertRecord>,
                       ghost ds: Draws, ghost q: nat, ghost cells: seq<Cell>)
      returns (ok: bool, rows': seq<AlertRecord>, ghost cells': seq<Cell>)
      requires k < |s.diseases| && ds == np.streams(np.seed) && s.poisson == np.variates.poisson
      requires (cells, np.calls) == DiseaseCells(CellOf(ds, s), s, q, day, region, k)
      requires AllDrawn(cells) && rows == Records(s.m, cells)
      modifies np
      ensures np.seed == old(np.seed)
      ensures ok ==> ((cells', np.calls) == DiseaseCells(CellOf(ds, s), s, q, day, region, k + 1)
                      && AllDrawn(cells') && rows' == Records(s.m, cells'))
      ensures !ok ==> !AllDrawn(DiseaseCells(CellOf(ds, s), s, q, day, region, |s.diseases|).0)
    {
      var c := DrawCell(s, day, region, s.diseases[k], ds, np.calls);
      DiseaseCellsNext(CellOf(ds, s), s, q, day, region, k);
      ghost var one := [c];
      Extended(s.m, cells, one, rows, if c.cases.Some? then [Record(s.m, c)] else []);
      if c.cases.None? {
        assert !AllDrawn(one) by { assert one[0] == c; }
        DiseaseCellsDrawn(CellOf(ds, s), s, q, day, region, k + 1, |s.diseases|);
        return false, rows, cells;
      }
      ok, rows', cells' := true, rows + [Record(s.m, c)], cells + one;
    }

    /** The innermost loop: one cell per disease. */
    method DiseaseLoop(s: Setting, day: nat, region: nat, ghost ds: Draws, ghost q: nat)
      returns (ok: bool, rows: seq<AlertRecord>)
      requires ds == np.streams(np.seed) && np.calls == q && s.poisson == np.variates.poisson
      modifies np
      ensures np.seed == old(np.seed)
      ensures var run := DiseaseCells(CellOf(ds, s), s, q, day, region, |s.diseases|);
        (ok <==> AllDrawn(run.0)) && (ok ==> rows == Records(s.m, run.0) && np.calls == run.1)
    {
      rows := [];
      ghost var cells: seq<Cell> := [];
      for k := 0 to |s.diseases|
        invariant ds == np.streams(np.seed) && np.seed == old(np.seed)
        invariant (cells, np.calls) == DiseaseCells(CellOf(ds, s), s, q, day, region, k)
        invariant AllDrawn(cells) && rows == Records(s.m, cells)
      {
        ok, rows, cells := DiseaseStep(s, day, region, k, rows, ds, q, cells);
        if !ok {
          return;
        }
      }
      ok := true;
    }

    /** One pass of the middle loop: the cells of one region. */
    method RegionStep(s: Setting, day: nat, region: nat, rows: seq<AlertRecord>,
                      ghost ds: Draws, ghost q: nat, ghost cells: seq<Cell>)
      returns (ok: bool, rows': seq<AlertRecord>, ghost cells': seq<Cell>)
      requires 1 <= region <= s.regions && ds == np.streams(np.seed) && s.poisson == np.variates.poisson
      requires (cells, np.calls) == RegionCells(CellOf(ds, s), s, q, day, region - 1)
      requires AllDrawn(cells) && rows == Records(s.m, cells)
      modifies np
      ensures np.seed == old(np.seed)
      ensures ok ==> ((cells', np.calls) == RegionCells(CellOf(ds, s), s, q, day, region)
                      && AllDrawn(cells') && rows' == Records(s.m, cells'))
      ensures !ok ==> !AllDrawn(RegionCells(CellOf(ds, s), s, q, day, Max(s.regions, 0)).0)
    {
      ghost var at := np.calls;
      var inner;
      ok, inner := DiseaseLoop(s, day, region, ds, at);
      ghost var run := DiseaseCells(CellOf(ds, s), s, at, day, region, |s.diseases|);
      RegionCellsNext(CellOf(ds, s), s, q, day, region - 1);
      Extended(s.m, cells, run.0, rows, inner);
      if !ok {
        RegionCellsDrawn(CellOf(ds, s), s, q, day, region, Max(s.regions, 0));
        return false, rows, cells;
      }
      rows', cells' := rows + inner, cells + run.0;
    }

    /** The middle loop: regions 1 to `regions`. */
    method RegionLoop(s: Setting, day: nat, ghost ds: Draws, ghost q: nat)
      returns (ok: bool, rows: seq<AlertRecord>)
      requires ds == np.streams(np.seed) && np.calls == q && s.poisson == np.variates.poisson
      modifies np
      ensures np.seed == old(np.seed)
      ensures var run := RegionCells(CellOf(ds, s), s, q, day, Max(s.regions, 0));
        (ok <==> AllDrawn(run.0)) && (ok ==> rows == Records(s.m, run.0) && np.calls == run.1)
    {
      rows := [];
      ghost var cells: seq<Cell> := [];
      for region := 1 to Max(s.regions, 0) + 1
        invariant ds == np.streams(np.seed) && np.seed == old(np.seed)
        invariant (cells, np.calls) == RegionCells(CellOf(ds, s), s, q, day, region - 1)
        invariant AllDrawn(cells) && rows == Records(s.m, cells)
      {
        ok, rows, cells := RegionStep(s, day, region, rows, ds, q, cells);
        if !ok {
          return;
        }
      }
      ok := true;
    }

    /** One pass of the outer loop: the cells of one day. */
    method DayStep(s: Setting, day: nat, days: int, rows: seq<AlertRecord>,
                   ghost ds: Draws, ghost q: nat, ghost cells: seq<Cell>)
      returns (ok: bool, rows': seq<AlertRecord>, ghost cells': seq<Cell>)
      requires day < days && ds == np.streams(np.seed) && s.poisson == np.variates.poisson
      requires (cells, np.calls) == DayCells(CellOf(ds, s), s, q, day)
      requires AllDrawn(cells) && rows == Records(s.m, cells)
      modifies np
      ensures np.seed == old(np.seed)
      ensures ok ==> ((cells', np.calls) == DayCells(CellOf(ds, s), s, q, day + 1)
                      && AllDrawn(cells') && rows' == Records(s.m, cells'))
      ensures !ok ==> !AllDrawn(DayCells(CellOf(ds, s), s, q, Max(days, 0)).0)
    {
      ghost var at := np.calls;
      var inner;
      ok, inner := RegionLoop(s, day, ds, at);
      ghost var run := RegionCells(CellOf(ds, s), s, at, day, Max(s.regions, 0));
      DayCellsNext(CellOf(ds, s), s, q, day);
      Extended(s.m, cells, run.0, rows, inner);
      if !ok {
        DayCellsDrawn(CellOf(ds, s), s, q, day + 1, Max(days, 0));
        return false, rows, cells;
      }
      rows', cells' := rows + inner, cells + run.0;
    }

    /** The outer loop: days 0 to `days - 1`. */
    method DayLoop(s: Setting, days: int, ghost ds: Draws, ghost q: nat) returns (r: Result<seq<AlertRecord>, string>)
      requires ds == np.streams(np.seed) && np.calls == q && s.poisson == np.variates.poisson
      modifies np
      ensures np.seed == old(np.seed)
      ensures var run := DayCells(CellOf(ds, s), s, q, Max(days, 0));
        (r.Success? <==> AllDrawn(run.0)) && (r.Failure? ==> r.error == "lam < 0")
        && (r.Success? ==> r.value == Records(s.m, run.0) && np.calls == run.1)
    {
      var rows: seq<AlertRecord> := [];
      ghost var cells: seq<Cell> := [];
      for day := 0 to Max(days, 0)
        invariant ds == np.streams(np.seed) && np.seed == old(np.seed)
        invariant (cells, np.calls) == DayCells(CellOf(ds, s), s, q, day)
        invariant AllDrawn(cells) && rows == Records(s.m, cells)
      {
        var ok;
        ok, rows, cells := DayStep(s, day, days, rows, ds, q, cells);
        if !ok {
          return Failure("lam < 0");
        }
      }
      r := Success(rows);
    }

    /** `generate_alert_system`: the default baselines when none are
        given, then one row per day, region and disease; a negative rate
        makes `poisson` raise. */
    method GenerateAlertSystem(m: Transcendentals, diseases: seq<string>, regions: int, days: int,
                               baselineIncidence: Option<map<string, real>>, outbreakProbability: real)
      returns (r: Result<seq<AlertRecord>, string>)
      modifies np
      ensures np.seed == old(np.seed)
      ensures var ds := np.streams(np.seed);
        var start := AlertStart(ds, old(np.calls), m, diseases, regions, baselineIncidence,
                                outbreakProbability, np.variates.poisson);
        var run := DayCells(CellOf(ds, start.0), start.0, start.1, Max(days, 0));
        (r.Success? <==> AllDrawn(run.0)) && (r.Failure? ==> r.error == "lam < 0")
        && (r.Success? ==> r.value == Records(m, run.0) && np.calls == run.1)
    {
      ghost var ds := np.streams(np.seed);
      ghost var start := AlertStart(ds, np.calls, m, diseases, regions, baselineIncidence,
                                    outbreakProbability, np.variates.poisson);
      var baselines: map<string, real>;
      if baselineIncidence.None? {
        baselines := DrawBaselines(diseases, ds, np.calls);
      } else {
        baselines := baselineIncidence.value;
      }
      var s := Setting(diseases, regions, baselines, outbreakProbability, m, np.variates.poisson);
      assert s == start.0 && np.calls == start.1;
      r := DayLoop(s, days, ds, np.calls);
    }
  }

  /** The setting of a call and the position of its first cell draw:
      the default baselines take one draw per listed code. */
  function AlertStart(ds: Draws, calls: nat, m: Transcendentals, diseases: seq<string>, regions: int,
                      baselineIncidence: Option<map<string, real>>, outbreakProbability: real,
                      poisson: (real, real) -> nat): (r: (Setting, nat))
    ensures baselineIncidence.Some? ==> r.0.baselines == baselineIncidence.value && r.1 == calls
    ensures baselineIncidence.None? ==> r.0.baselines.Keys == set i | 0 <= i < |diseases| :: diseases[i]
    ensures baselineIncidence.None? ==> r.1 == calls + |diseases|
  {
    if baselineIncidence.Some? then
      (Setting(diseases, regions, baselineIncidence.value, outbreakProbability, m, poisson), calls)
    else
      (Setting(diseases, regions, BaselinesAt(ds, calls, diseases, |diseases|), outbreakProbability, m, poisson),
       calls + |diseases|)
  }

  // ---------------------------------------------------------------
  // Propagated outbreaks
  // ---------------------------------------------------------------

  /** `_assign_generation`: `delay // 5` for a propagated outbreak, 0
      for any other type. */
  function AssignGeneration(delay: real, outbreakType: string): int {
    if outbreakType != "propagated" then 0 else (delay / 5.0).Floor
  }

  /** The generation of a propagated case is the number of whole
      five-day intervals in its delay. */
  lemma GenerationBand(delay: real)
    ensures var g := AssignGeneration(delay, "propagated");
      5.0 * g as real <= delay < 5.0 * (g as real + 1.0)
    ensures delay >= 0.0 ==> AssignGeneration(delay, "propagated") >= 0
  {
  }

  lemma GenerationOtherTypes(delay: real, outbreakType: string)
    requires outbreakType != "propagated"
    ensures AssignGeneration(delay, outbreakType) == 0
  {
  }

  class OutbreakGenerator {
    const np: Generator

    constructor (seed: int, np: Generator)
      modifies np
      ensures this.np == np && np.seed == seed && np.calls == 0
    {
      this.np := np;
      np.Seed(seed);
    }

    /** The secondary cases of one infector: `poisson(2.5)` cases are
        drawn for, and appended until the list holds `n`; each is the
        infector's delay plus a `gamma(5, 1)` interval. */
    method Secondaries(infector: real, n: int, delays: seq<real>)
      returns (delays': seq<real>, added: seq<real>, ghost drawn: nat)
      requires |delays| <= Max(n, 0)
      modifies np
      ensures np.seed == old(np.seed)
      ensures delays' == delays + added && |added| == Min(drawn, Max(n, 0) - |delays|)
      ensures forall k | 0 <= k < |added| :: added[k] > infector
    {
      delays', added := delays, [];
      var count := np.Poisson(2.5);
      drawn := count.value;
      for i := 0 to count.value
        invariant np.seed == old(np.seed)
        invariant delays' == delays + added && |added| == Min(i, Max(n, 0) - |delays|)
        invariant forall k | 0 <= k < |added| :: added[k] > infector
      {
        if |delays'| >= n {
          break;
        }
        var g := np.Gamma(5.0, 1.0);
        var delay := infector + g;
        delays' := delays' + [delay];
        added := added + [delay];
      }
    }

    /** `_generate_propagated_delays`: generation after generation, each
        case of the last one infects its secondaries, from an index case
        at delay 0, until `n` delays are made or a generation is empty;
        every delay is positive. */
    method PropagatedDelays(n: int) returns (delays: seq<real>)
      modifies np
      ensures np.seed == old(np.seed)
      ensures |delays| <= Max(n, 0)
      ensures forall k | 0 <= k < |delays| :: delays[k] > 0.0
    {
      delays := [];
      var current: seq<real> := [0.0];
      var generation := 0;
      while |delays| < n
        invariant |delays| <= Max(n, 0) && np.seed == old(np.seed)
        invariant forall k | 0 <= k < |delays| :: delays[k] > 0.0
        invariant forall j | 0 <= j < |current| :: current[j] >= 0.0
        decreases Max(n, 0) - |delays|
      {
        generation := generation + 1;
        var start := |delays|;
        var next: seq<real> := [];
        for j := 0 to |current|
          invariant start <= |delays| <= Max(n, 0) && np.seed == old(np.seed)
          invariant |next| == |delays| - start
          invariant forall k | 0 <= k < |delays| :: delays[k] > 0.0
          invariant forall k | 0 <= k < |next| :: next[k] > 0.0
        {
          var added; ghost var drawn;
          delays, added, drawn := Secondaries(current[j], n, delays);
          next := next + added;
        }
        current := next;
        if |current| == 0 {
          break;
        }
      }
    }
  }

  // ---------------------------------------------------------------
  // Incidence series
  // ---------------------------------------------------------------

  /** `np.maximum(incidence, 0)`: negative values become 0, the others
      stay, so `poisson` accepts every rate. */
  function ClipIncidence(incidence: seq<real>): (clipped: seq<real>)
    ensures |clipped| == |incidence|
    ensures forall i | 0 <= i < |incidence| :: clipped[i] >= 0.0 && !(clipped[i] < 0.0)
    ensures forall i | 0 <= i < |incidence| :: incidence[i] >= 0.0 ==> clipped[i] == incidence[i]
    ensures forall i | 0 <= i < |incidence| :: incidence[i] < 0.0 ==> clipped[i] == 0.0
  {
    seq(|incidence|, i requires 0 <= i < |incidence| => MaxR(incidence[i], 0.0))
  }
}
