/** frontend/src/generators/casecontrol.ts: a case-control study. The
    cases come first, then the controls; the cases' exposure probability
    is set so that the odds ratio of exposure between cases and controls
    is the requested one. */
module CaseControl {
  import opened Prelude
  import opened Stream
  import opened Text
  import opened Sampling
  import opened Records

  datatype CaseControlParams = CaseControlParams(oddsRatio: real, exposurePrevalence: real, controlsPerCase: real)

  function ParamsFrom(params: Record): CaseControlParams {
    CaseControlParams(
      RealParam(params, "oddsRatio", 2.5),
      RealParam(params, "exposurePrevalence", 0.3),
      RealParam(params, "controlsPerCase", 1.0))
  }

  datatype CaseControlRecord = CaseControlRecord(
    subjectId: string, isCase: int, exposed: int, age: int, sex: string, smoking: string)
  {
    function ToRecord(): Record {
      [("subject_id", Str(subjectId)), ("case", Int(isCase)), ("exposed", Int(exposed)),
       ("age", Int(age)), ("sex", Str(sex)), ("smoking", Str(smoking))]
    }
  }

  // ---------------------------------------------------------------
  // The split and the exposure probabilities
  // ---------------------------------------------------------------

  /** `nCases = Math.floor(count / (1 + controlsPerCase))` and
      `nControls = count - nCases`. */
  function Split(count: int, controlsPerCase: real): (r: (int, int))
    requires 1.0 + controlsPerCase != 0.0
    ensures r.0 + r.1 == count
  {
    var nCases := (count as real / (1.0 + controlsPerCase)).Floor;
    (nCases, count - nCases)
  }

  /** With a non-negative count and at least zero controls per case the
      split is into two non-negative parts, so exactly `count` subjects
      are generated. */
  lemma SplitExact(count: int, controlsPerCase: real)
    requires count >= 0 && controlsPerCase >= 0.0
    ensures var r := Split(count, controlsPerCase);
      0 <= r.0 <= count && 0 <= r.1 <= count && Max(r.0, 0) + Max(r.1, 0) == count
  {
    var d := 1.0 + controlsPerCase;
    var q := count as real / d;
    assert q * d == count as real;
    MulMonotone(q, 1.0, d);
    assert 0.0 <= q <= count as real by {
      if q < 0.0 {
        MulMonotone(-q, 0.0, d);
      }
    }
  }

  /** A draw is compared with a probability; JavaScript may make that
      probability NaN or minus infinity, and then no draw falls under it. */
  datatype Threshold = Level(p: real) | Unreachable

  /** `u < threshold`. */
  predicate Below(u: real, t: Threshold) {
    t.Level? && u < t.p
  }

  /** `oddsControl = p / (1 - p)`, `oddsCase = oddsControl * oddsRatio`,
      `exposureProbCase = oddsCase / (1 + oddsCase)`. With `p = 1` the
      control odds are infinite and the probability is NaN; with case odds
      of -1 it is minus infinity. */
  function CaseThreshold(p: real, oddsRatio: real): Threshold {
    if p == 1.0 then Unreachable
    else
      var oddsCase := p / (1.0 - p) * oddsRatio;
      if 1.0 + oddsCase == 0.0 then Unreachable else Level(oddsCase / (1.0 + oddsCase))
  }

  /** An odds ratio of 1 gives the cases the controls' probability. */
  lemma OddsRatioOne(p: real)
    requires p != 1.0
    ensures CaseThreshold(p, 1.0) == Level(p)
  {
    var o := p / (1.0 - p);
    assert o * (1.0 - p) == p;
    assert 1.0 + o == 1.0 / (1.0 - p) by {
      assert (1.0 + o) * (1.0 - p) == 1.0;
    }
    assert o / (1.0 + o) == p by {
      assert p * (1.0 + o) == o by {
        assert p * (1.0 + o) == p + p * o;
        assert p * o == o - p by {
          assert o - p * o == o * (1.0 - p);
        }
      }
    }
  }

  /** The cases' probability has exactly `oddsRatio` times the controls'
      odds: the odds ratio between the groups is the requested one. */
  lemma OddsRecovered(p: real, oddsRatio: real)
    requires CaseThreshold(p, oddsRatio).Level?
    ensures var q := CaseThreshold(p, oddsRatio).p;
      q != 1.0 && q / (1.0 - q) == oddsRatio * (p / (1.0 - p))
  {
    var oc := p / (1.0 - p) * oddsRatio;
    var q := oc / (1.0 + oc);
    assert q * (1.0 + oc) == oc;
    assert (1.0 - q) * (1.0 + oc) == 1.0;
    assert q / (1.0 - q) == oc by {
      assert oc * (1.0 - q) == q by {
        assert oc * (1.0 - q) * (1.0 + oc) == oc;
      }
    }
  }

  /** An odds ratio above 1 makes cases more likely exposed than controls,
      one below 1 (but positive) less likely. */
  lemma CasesMoreExposed(p: real, oddsRatio: real)
    requires 0.0 < p < 1.0 && oddsRatio > 0.0
    ensures CaseThreshold(p, oddsRatio).Level?
    ensures oddsRatio > 1.0 ==> CaseThreshold(p, oddsRatio).p > p
    ensures oddsRatio < 1.0 ==> CaseThreshold(p, oddsRatio).p < p
  {
    var o := p / (1.0 - p);
    PositiveQuotient(p, 1.0 - p);
    ScaledOdds(o, oddsRatio);
    OddsFractionOrder(o, oddsRatio);
    OddsRatioOne(p);
  }

  /** Scaling positive odds up or down moves `odds / (1 + odds)` the
      same way. */
  lemma OddsFractionOrder(o: real, oddsRatio: real)
    requires o > 0.0 && oddsRatio > 0.0
    ensures oddsRatio > 1.0 ==> o / (1.0 + o) < (o * oddsRatio) / (1.0 + o * oddsRatio)
    ensures oddsRatio < 1.0 ==> (o * oddsRatio) / (1.0 + o * oddsRatio) < o / (1.0 + o)
  {
    ScaledOdds(o, oddsRatio);
    var scaled := o * oddsRatio;
    if oddsRatio > 1.0 {
      FractionGrows(o, scaled);
    } else if oddsRatio < 1.0 {
      FractionGrows(scaled, o);
    }
  }

  /** Positive odds scaled by a positive ratio stay positive, and grow or
      shrink with the ratio. */
  lemma ScaledOdds(o: real, oddsRatio: real)
    requires o > 0.0 && oddsRatio > 0.0
    ensures o * oddsRatio > 0.0
    ensures oddsRatio > 1.0 ==> o < o * oddsRatio
    ensures oddsRatio < 1.0 ==> o * oddsRatio < o
  {
    MulStrict(o, 0.0, oddsRatio);
    if oddsRatio > 1.0 {
      MulStrict(o, 1.0, oddsRatio);
    } else if oddsRatio < 1.0 {
      MulStrict(o, oddsRatio, 1.0);
    }
  }

  /** `x / (1 + x)` grows with `x >= 0`. */
  lemma FractionGrows(x: real, y: real)
    requires 0.0 <= x < y
    ensures x / (1.0 + x) < y / (1.0 + y)
  {
    var a := x / (1.0 + x);
    assert a * (1.0 + x) == x;
    assert x * (1.0 + y) < y * (1.0 + x) by {
      assert x * (1.0 + y) == x + x * y;
      assert y * (1.0 + x) == y + x * y;
    }
    assert a * (1.0 + y) < y by {
      assert a * (1.0 + y) * (1.0 + x) == x * (1.0 + y);
      if a * (1.0 + y) >= y {
        MulMonotone(1.0 + x, y, a * (1.0 + y));
      }
    }
    BelowQuotient(a, 1.0 + y, y);
  }

  // ---------------------------------------------------------------
  // The subjects
  // ---------------------------------------------------------------

  /** `CC-` and the running counter, padded to six digits. */
  function SubjectId(n: nat): string {
    "CC-" + PadNumber(n, 6)
  }

  /** Subject `k` (0-based), from the four draws at `pos`: the exposure,
      the age, the sex and the smoking status. */
  function SubjectAt(ds: Draws, pos: nat, k: nat, isCase: bool, t: Threshold): CaseControlRecord {
    CaseControlRecord(SubjectId(k + 1), if isCase then 1 else 0, if Below(ds(pos), t) then 1 else 0,
                      IntFromDraw(ds(pos + 1), 40, 80), EvenSexFromDraw(ds(pos + 2)),
                      PickFromDraw(ds(pos + 3), SmokingStatus))
  }

  /** All subjects: the first `nCases` are cases, compared with
      `caseT`, the rest controls, compared with `controlT`. */
  function CaseControlFrom(ds: Draws, nCases: int, nControls: int, caseT: Threshold, controlT: Threshold)
    : seq<CaseControlRecord>
  {
    Subjects(ds, Max(nCases, 0) + Max(nControls, 0), nCases, caseT, controlT)
  }

  /** The first `n` subjects. */
  function Subjects(ds: Draws, n: nat, nCases: int, caseT: Threshold, controlT: Threshold): seq<CaseControlRecord> {
    Tabulate((k: nat) => RowAt(ds, k, nCases, caseT, controlT), n)
  }

  /** Subject `k` among all of them, from draws `4k .. 4k + 3`. */
  function RowAt(ds: Draws, k: nat, nCases: int, caseT: Threshold, controlT: Threshold): CaseControlRecord {
    SubjectAt(ds, 4 * k, k, k < nCases, if k < nCases then caseT else controlT)
  }

  /** Subjects `1 .. nCases` are cases and the others controls; ids run
      `CC-000001` upwards; each subject is exposed exactly when its first
      draw falls under its group's probability; ages lie in 40..80. */
  lemma CaseControlShape(ds: Draws, nCases: int, nControls: int, caseT: Threshold, controlT: Threshold)
    ensures var data := CaseControlFrom(ds, nCases, nControls, caseT, controlT);
      |data| == Max(nCases, 0) + Max(nControls, 0)
      && forall k | 0 <= k < |data| ::
           data[k].subjectId == SubjectId(k + 1)
           && (data[k].isCase == 1 <==> k < nCases) && (data[k].isCase == 0 || data[k].isCase == 1)
           && (data[k].exposed == 1 <==> Below(ds(4 * k), if k < nCases then caseT else controlT))
           && (data[k].exposed == 0 || data[k].exposed == 1)
           && 40 <= data[k].age <= 80 && data[k].sex in {"M", "F"} && data[k].smoking in SmokingStatus
  {
    var rows := (k: nat) => RowAt(ds, k, nCases, caseT, controlT);
    var data := CaseControlFrom(ds, nCases, nControls, caseT, controlT);
    forall k | 0 <= k < |data|
      ensures data[k] == RowAt(ds, k, nCases, caseT, controlT)
    {
      TabulateIndex(rows, Max(nCases, 0) + Max(nControls, 0), k);
    }
  }

  /** The subject ids are pairwise distinct. */
  lemma SubjectIdsDistinct(k: nat, l: nat)
    requires k != l
    ensures SubjectId(k + 1) != SubjectId(l + 1)
  {
    if SubjectId(k + 1) == SubjectId(l + 1) {
      PrefixedIdInjective("CC-", k + 1, l + 1, 6);
    }
  }

  // ---------------------------------------------------------------
  // The generator
  // ---------------------------------------------------------------

  /** The cases' exposure probability, computed once. */
  method CaseExposureThreshold(p: real, oddsRatio: real) returns (t: Threshold)
    ensures t == CaseThreshold(p, oddsRatio)
  {
    if p == 1.0 {
      return Unreachable;
    }
    var oddsControl := p / (1.0 - p);
    var oddsCase := oddsControl * oddsRatio;
    if 1.0 + oddsCase == 0.0 {
      return Unreachable;
    }
    t := Level(oddsCase / (1.0 + oddsCase));
  }

  /** One pass of either loop: `++id`, then the four draws. */
  method NextSubject(rng: Mulberry32, id: nat, isCase: bool, t: Threshold) returns (r: CaseControlRecord)
    requires rng.Valid()
    modifies rng
    ensures rng.Valid() && rng.draws == old(rng.draws) + 4
    ensures r == SubjectAt(rng.values, old(rng.draws), id, isCase, t)
  {
    var u := rng.Next();
    var exposed := if Below(u, t) then 1 else 0;
    var age := RandomInt(rng, 40, 80);
    var v := rng.Next();
    var smoking := RandomPick(rng, SmokingStatus);
    r := CaseControlRecord(SubjectId(id + 1), if isCase then 1 else 0, exposed, age, EvenSexFromDraw(v), smoking);
  }

  /** The two loops of `generateCaseControl`, sharing the `id` counter. */
  method CaseControlLoops(rng: Mulberry32, nCases: int, nControls: int, caseT: Threshold, controlT: Threshold)
    returns (data: seq<CaseControlRecord>)
    requires rng.Valid() && rng.draws == 0
    modifies rng
    ensures data == CaseControlFrom(rng.values, nCases, nControls, caseT, controlT)
  {
    var id;
    data, id := CasesLoop(rng, nCases, caseT, controlT);
    data := ControlsLoop(rng, data, id, nCases, nControls, caseT, controlT);
  }

  /** The first loop: `nCases` cases. */
  method CasesLoop(rng: Mulberry32, nCases: int, caseT: Threshold, ghost controlT: Threshold)
    returns (data: seq<CaseControlRecord>, id: nat)
    requires rng.Valid() && rng.draws == 0
    modifies rng
    ensures rng.Valid() && id == Max(nCases, 0) && rng.draws == 4 * id
    ensures data == Subjects(rng.values, id, nCases, caseT, controlT)
  {
    data := [];
    id := 0;
    var i := 0;
    while i < nCases
      invariant 0 <= i <= Max(nCases, 0) && id == i
      invariant rng.Valid() && rng.draws == 4 * id
      invariant data == Subjects(rng.values, id, nCases, caseT, controlT)
    {
      var r := NextSubject(rng, id, true, caseT);
      assert r == RowAt(rng.values, id, nCases, caseT, controlT);
      data := data + [r];
      id := id + 1;
      i := i + 1;
    }
  }

  /** The second loop: `nControls` controls, numbered after the cases. */
  method ControlsLoop(rng: Mulberry32, data0: seq<CaseControlRecord>, id0: nat, nCases: int, nControls: int,
                      ghost caseT: Threshold, controlT: Threshold)
    returns (data: seq<CaseControlRecord>)
    requires rng.Valid() && id0 == Max(nCases, 0) && rng.draws == 4 * id0
    requires data0 == Subjects(rng.values, id0, nCases, caseT, controlT)
    modifies rng
    ensures data == Subjects(rng.values, id0 + Max(nControls, 0), nCases, caseT, controlT)
  {
    data := data0;
    var id := id0;
    var j := 0;
    while j < nControls
      invariant 0 <= j <= Max(nControls, 0) && id == id0 + j
      invariant rng.Valid() && rng.draws == 4 * id
      invariant data == Subjects(rng.values, id, nCases, caseT, controlT)
    {
      var r := NextSubject(rng, id, false, controlT);
      assert r == RowAt(rng.values, id, nCases, caseT, controlT);
      data := data + [r];
      id := id + 1;
      j := j + 1;
    }
    assert j == Max(nControls, 0);
  }

  /** `generateCaseControl(count, seed, params)`. With
      `controlsPerCase = -1` JavaScript divides by zero and the case loop
      does not end for a positive count. */
  method GenerateCaseControl(count: int, seed: int, P: CaseControlParams) returns (data: seq<CaseControlRecord>)
    requires 1.0 + P.controlsPerCase != 0.0
    ensures var split := Split(count, P.controlsPerCase);
      data == CaseControlFrom(StreamDraws(seed), split.0, split.1,
                              CaseThreshold(P.exposurePrevalence, P.oddsRatio), Level(P.exposurePrevalence))
  {
    var split := CaseSplit(count, P.controlsPerCase);
    var caseT := CaseExposureThreshold(P.exposurePrevalence, P.oddsRatio);
    var rng := new Mulberry32(seed);
    data := CaseControlLoops(rng, split.0, split.1, caseT, Level(P.exposurePrevalence));
  }

  method CaseSplit(count: int, controlsPerCase: real) returns (r: (int, int))
    requires 1.0 + controlsPerCase != 0.0
    ensures r == Split(count, controlsPerCase)
  {
    var nCases := (count as real / (1.0 + controlsPerCase)).Floor;
    r := (nCases, count - nCases);
  }
}
