/** frontend/src/generators/outbreak.ts: a branching process. An index
    case starts generation 0; every case of a generation infects a
    Knuth-Poisson number of secondary cases in the next one, each with
    an onset some days after its infector's; the simulation stops at the
    requested count, at the generation cap, or when a generation is
    empty. */
module Outbreak {
  import opened Prelude
  import opened Stream
  import opened Text
  import opened Sampling
  import opened Records

  datatype OutbreakParams = OutbreakParams(
    startDate: string, r0: real, serialInterval: real, maxGenerations: int)

  /** The parameter object, with the source's defaults. */
  function ParamsFrom(params: Record): (P: OutbreakParams)
    ensures params == [] ==> P == OutbreakParams("2024-01-15", 2.5, 5.0, 6)
    ensures Get(params, "maxGenerations").None? ==> P.maxGenerations == 6
  {
    OutbreakParams(
      StrParam(params, "startDate", "2024-01-15"),
      RealParam(params, "r0", 2.5),
      RealParam(params, "serialInterval", 5.0),
      IntParam(params, "maxGenerations", 6))
  }

  datatype OutbreakCase = OutbreakCase(
    caseId: string, generation: nat, infectorId: Option<string>, onsetDate: string,
    age: int, sex: string, severity: string)
  {
    function ToRecord(): Record {
      [("case_id", Str(caseId)), ("generation", Int(generation)),
       ("infector_id", if infectorId.Some? then Str(infectorId.value) else Null),
       ("onset_date", Str(onsetDate)), ("age", Int(age)), ("sex", Str(sex)),
       ("severity", Str(severity))]
    }
  }

  /** `OB-` and the 1-based position padded to six digits (`++caseNum`). */
  function CaseId(k: nat): string {
    "OB-" + PadNumber(k + 1, 6)
  }

  /** Distinct positions give distinct case ids. */
  lemma CaseIdsDistinct(j: nat, k: nat)
    requires j != k
    ensures CaseId(j) != CaseId(k)
  {
    if CaseId(j) == CaseId(k) {
      PrefixedIdInjective("OB-", j + 1, k + 1, 6);
    }
  }

  /** `Math.max(1, Math.round(serialInterval + (rng() - 0.5) * 4))`. */
  function DaysFromInfector(u: real, serialInterval: real): (d: int)
    ensures d >= 1
  {
    Max(1, Round(serialInterval + (u - 0.5) * 4.0))
  }

  /** For a whole serial interval of three days or more, the offset stays
      within two days of it. */
  lemma DaysNearSerial(u: real, s: int)
    requires 0.0 <= u < 1.0 && s >= 3
    ensures s - 2 <= DaysFromInfector(u, s as real) <= s + 2
  {
    var x := s as real + (u - 0.5) * 4.0;
    assert s as real - 2.0 <= x < s as real + 2.0;
    RoundWithinTwo(x, s);
  }

  lemma RoundWithinTwo(x: real, s: int)
    requires s as real - 2.0 <= x < s as real + 2.0
    ensures s - 2 <= Round(x) <= s + 2
  {
  }

  // ---------------------------------------------------------------
  // What every output satisfies
  // ---------------------------------------------------------------

  /** The index case: `OB-000001`, generation 0, no infector, the start
      date as onset, an age of 20 to 60. */
  predicate IsIndexCase(c: OutbreakCase, P: OutbreakParams) {
    c.caseId == CaseId(0) && c.generation == 0 && c.infectorId.None?
    && c.onsetDate == P.startDate && 20 <= c.age <= 60
    && c.sex in ["M", "F"] && c.severity in SeverityLevels
  }

  /** A secondary case's drawn fields. */
  predicate SecondaryDrawn(c: OutbreakCase) {
    5 <= c.age <= 85 && c.sex in ["M", "F"] && c.severity in SeverityLevels
  }

  /** Case `k` was infected by the earlier case `j`: its infector id is
      `j`'s case id, it is one generation later, and its onset is `j`'s
      moved by the offset of some draw in [0, 1). */
  ghost predicate InfectedBy(data: seq<OutbreakCase>, k: nat, j: nat, serialInterval: real,
                             addDays: (string, int) -> string)
    requires j < k < |data|
  {
    data[k].infectorId == Some(data[j].caseId)
    && data[k].generation == data[j].generation + 1
    && exists u: real | 0.0 <= u < 1.0 ::
         data[k].onsetDate == addDays(data[j].onsetDate, DaysFromInfector(u, serialInterval))
  }

  /** The state the loops keep: `parent[k]` is the position of case
      `k`'s infector, and every generation is at most `g`. */
  ghost predicate Spread(data: seq<OutbreakCase>, parent: seq<nat>, g: nat, count: int,
                         P: OutbreakParams, addDays: (string, int) -> string)
  {
    1 <= |data| <= Max(count, 1) && |parent| == |data|
    && IsIndexCase(data[0], P)
    && (forall k | 0 <= k < |data| :: data[k].caseId == CaseId(k) && data[k].generation <= g)
    && (forall k | 1 <= k < |data| :: SecondaryDrawn(data[k]) && parent[k] < k)
    && (forall k | 1 <= k < |data| :: parent[k] < k && InfectedBy(data, k, parent[k], P.serialInterval, addDays))
    && (forall a, b | 0 <= a < b < |data| :: data[a].generation <= data[b].generation)
  }

  /** A state of the cases so far is a state for every later
      generation too. */
  lemma SpreadRaise(data: seq<OutbreakCase>, parent: seq<nat>, g: nat, count: int,
                    P: OutbreakParams, addDays: (string, int) -> string)
    requires Spread(data, parent, g, count, P, addDays)
    ensures Spread(data, parent, g + 1, count, P, addDays)
  {
  }

  /** The cases of each generation, by position: what
      `casesByGeneration` holds (by id; ids and positions correspond
      one to one). */
  predicate Generations(byGen: seq<seq<nat>>, data: seq<OutbreakCase>) {
    forall g, t | 0 <= g < |byGen| && 0 <= t < |byGen[g]| ::
      byGen[g][t] < |data| && data[byGen[g][t]].generation == g
  }

  /** Pushing one more case keeps the state. */
  lemma PushKeeps(data: seq<OutbreakCase>, parent: seq<nat>, g: nat, count: int, P: OutbreakParams,
                  addDays: (string, int) -> string, c: OutbreakCase, j: nat, u: real)
    requires Spread(data, parent, g, count, P, addDays) && |data| < count
    requires j < |data| && data[j].generation + 1 == g
    requires c.caseId == CaseId(|data|) && c.generation == g && c.infectorId == Some(data[j].caseId)
    requires 0.0 <= u < 1.0 && SecondaryDrawn(c)
    requires c.onsetDate == addDays(data[j].onsetDate, DaysFromInfector(u, P.serialInterval))
    ensures Spread(data + [c], parent + [j], g, count, P, addDays)
  {
    var data' := data + [c];
    PushInfected(data, parent, c, j, u, P.serialInterval, addDays);
    PushFields(data, c, g);
    assert data'[0] == data[0];
  }

  /** The ids, generation bounds, drawn fields and generation order of
      the earlier cases stay, and the new case fits them. */
  lemma PushFields(data: seq<OutbreakCase>, c: OutbreakCase, g: nat)
    requires forall k | 0 <= k < |data| :: data[k].caseId == CaseId(k) && data[k].generation <= g
    requires forall k | 1 <= k < |data| :: SecondaryDrawn(data[k])
    requires forall a, b | 0 <= a < b < |data| :: data[a].generation <= data[b].generation
    requires c.caseId == CaseId(|data|) && c.generation == g && SecondaryDrawn(c)
    ensures forall k | 0 <= k < |data| + 1 :: (data + [c])[k].caseId == CaseId(k) && (data + [c])[k].generation <= g
    ensures forall k | 1 <= k < |data| + 1 :: SecondaryDrawn((data + [c])[k])
    ensures forall a, b | 0 <= a < b < |data| + 1 :: (data + [c])[a].generation <= (data + [c])[b].generation
  {
  }

  /** The links of the earlier cases stay, and the new case is linked to
      its infector. */
  lemma PushInfected(data: seq<OutbreakCase>, parent: seq<nat>, c: OutbreakCase, j: nat, u: real,
                     serial: real, addDays: (string, int) -> string)
    requires |parent| == |data| && j < |data|
    requires forall k | 1 <= k < |data| :: parent[k] < k && InfectedBy(data, k, parent[k], serial, addDays)
    requires c.infectorId == Some(data[j].caseId) && c.generation == data[j].generation + 1
    requires 0.0 <= u < 1.0 && c.onsetDate == addDays(data[j].onsetDate, DaysFromInfector(u, serial))
    ensures forall k | 1 <= k < |data| + 1 ::
      (parent + [j])[k] < k && InfectedBy(data + [c], k, (parent + [j])[k], serial, addDays)
  {
    var data' := data + [c];
    var parent' := parent + [j];
    assert data'[|data|].onsetDate == addDays(data'[j].onsetDate, DaysFromInfector(u, serial));
    assert InfectedBy(data', |data|, j, serial, addDays);
    forall k | 1 <= k < |data'|
      ensures parent'[k] < k && InfectedBy(data', k, parent'[k], serial, addDays)
    {
      if k < |data| {
        InfectedKept(data, c, k, parent[k], serial, addDays);
      }
    }
  }

  /** Appending a case keeps an earlier link. */
  lemma InfectedKept(data: seq<OutbreakCase>, c: OutbreakCase, k: nat, j: nat, serial: real,
                     addDays: (string, int) -> string)
    requires j < k < |data| && InfectedBy(data, k, j, serial, addDays)
    ensures InfectedBy(data + [c], k, j, serial, addDays)
  {
    var e :| 0.0 <= e < 1.0 && data[k].onsetDate == addDays(data[j].onsetDate, DaysFromInfector(e, serial));
    assert (data + [c])[k].onsetDate == addDays((data + [c])[j].onsetDate, DaysFromInfector(e, serial));
  }

  /** The infector lookup `data.find(c => c.case_id === infectorId)` finds
      the case at the infector's position, since the ids are distinct. */
  lemma FindByIdIsPosition(data: seq<OutbreakCase>, j: nat)
    requires j < |data| && forall k | 0 <= k < |data| :: data[k].caseId == CaseId(k)
    ensures Find(data, (c: OutbreakCase) => c.caseId == data[j].caseId) == Some(data[j])
  {
    var test := (c: OutbreakCase) => c.caseId == data[j].caseId;
    FindFirst(data, test);
    assert test(data[j]);
    var k :| 0 <= k < |data| && Find(data, test).value == data[k] && test(data[k])
      && forall i | 0 <= i < k :: !test(data[i]);
    if k != j {
      CaseIdsDistinct(k, j);
    }
  }

  // ---------------------------------------------------------------
  // The simulation
  // ---------------------------------------------------------------

  /** One secondary case of the case at `infector`: the onset offset,
      age, sex and severity, four draws. */
  method NextCase(rng: Mulberry32, data: seq<OutbreakCase>, infector: nat, generation: nat,
                  P: OutbreakParams, addDays: (string, int) -> string)
    returns (c: OutbreakCase, ghost u: real)
    requires rng.Valid() && infector < |data|
    modifies rng
    ensures rng.Valid() && rng.draws == old(rng.draws) + 4
    ensures c.caseId == CaseId(|data|) && c.generation == generation
    ensures c.infectorId == Some(data[infector].caseId)
    ensures 0.0 <= u < 1.0 && SecondaryDrawn(c)
    ensures c.onsetDate == addDays(data[infector].onsetDate, DaysFromInfector(u, P.serialInterval))
  {
    var caseId := CaseId(|data|);
    var w := rng.Next();
    var days := DaysFromInfector(w, P.serialInterval);
    var infectorCase := data[infector];
    var onset := addDays(infectorCase.onsetDate, days);
    var age := RandomInt(rng, 5, 85);
    var v := rng.Next();
    var severity := RandomPick(rng, SeverityLevels);
    c := OutbreakCase(caseId, generation, Some(infectorCase.caseId), onset, age, EvenSexFromDraw(v), severity);
    u := w;
  }

  /** The innermost loop: up to `n` secondary cases of the case at
      `infector`, while the output is short of `count`. */
  method Secondaries(rng: Mulberry32, data0: seq<OutbreakCase>, ghost parent0: seq<nat>,
                     current0: seq<nat>, infector: nat, n: int, generation: nat, count: int,
                     P: OutbreakParams, addDays: (string, int) -> string)
    returns (data: seq<OutbreakCase>, ghost parent: seq<nat>, current: seq<nat>)
    requires rng.Valid() && Spread(data0, parent0, generation, count, P, addDays)
    requires infector < |data0| && data0[infector].generation + 1 == generation
    requires forall t | 0 <= t < |current0| :: current0[t] < |data0| && data0[current0[t]].generation == generation
    modifies rng
    ensures rng.Valid() && Spread(data, parent, generation, count, P, addDays)
    ensures |data0| <= |data| && data[..|data0|] == data0
    ensures forall t | 0 <= t < |current| :: current[t] < |data| && data[current[t]].generation == generation
  {
    data, parent, current := data0, parent0, current0;
    var i := 0;
    while i < n && |data| < count
      invariant rng.Valid() && Spread(data, parent, generation, count, P, addDays)
      invariant |data0| <= |data| && data[..|data0|] == data0
      invariant forall t | 0 <= t < |current| :: current[t] < |data| && data[current[t]].generation == generation
      decreases n - i
    {
      var c, u := NextCase(rng, data, infector, generation, P, addDays);
      PushKeeps(data, parent, generation, count, P, addDays, c, infector, u);
      data, parent := data + [c], parent + [infector];
      current := current + [|data| - 1];
      i := i + 1;
    }
  }

  /** The secondary cases of one infector: a Poisson count with mean
      `r0`, drawn by Knuth's method against `exp(-r0)`. */
  method InfectFrom(rng: Mulberry32, m: MathLib, data0: seq<OutbreakCase>, ghost parent0: seq<nat>,
                    current0: seq<nat>, infector: nat, generation: nat, count: int,
                    P: OutbreakParams, addDays: (string, int) -> string)
    returns (data: seq<OutbreakCase>, ghost parent: seq<nat>, current: seq<nat>)
    requires rng.Valid() && Spread(data0, parent0, generation, count, P, addDays)
    requires infector < |data0| && data0[infector].generation + 1 == generation
    requires forall t | 0 <= t < |current0| :: current0[t] < |data0| && data0[current0[t]].generation == generation
    modifies rng
    ensures rng.Valid() && Spread(data, parent, generation, count, P, addDays)
    ensures |data0| <= |data| && data[..|data0|] == data0
    ensures forall t | 0 <= t < |current| :: current[t] < |data| && data[current[t]].generation == generation
  {
    var nSecondary := PoissonSample(rng, m.exp(-P.r0));
    data, parent, current :=
      Secondaries(rng, data0, parent0, current0, infector, nSecondary, generation, count, P, addDays);
  }

  /** `for (const infectorId of previousGen)`: each case of the previous
      generation draws its Poisson number of secondary cases, until the
      output reaches `count`. */
  method GenerationPass(rng: Mulberry32, m: MathLib, data0: seq<OutbreakCase>, ghost parent0: seq<nat>,
                        previousGen: seq<nat>, generation: nat, count: int,
                        P: OutbreakParams, addDays: (string, int) -> string)
    returns (data: seq<OutbreakCase>, ghost parent: seq<nat>, current: seq<nat>)
    requires rng.Valid() && generation >= 1
    requires Spread(data0, parent0, generation - 1, count, P, addDays)
    requires forall t | 0 <= t < |previousGen| ::
      previousGen[t] < |data0| && data0[previousGen[t]].generation == generation - 1
    modifies rng
    ensures rng.Valid() && Spread(data, parent, generation, count, P, addDays)
    ensures |data0| <= |data| && data[..|data0|] == data0
    ensures forall t | 0 <= t < |current| :: current[t] < |data| && data[current[t]].generation == generation
  {
    data, parent, current := data0, parent0, [];
    SpreadRaise(data, parent, generation - 1, count, P, addDays);
    var j := 0;
    while j < |previousGen|
      invariant 0 <= j <= |previousGen|
      invariant rng.Valid() && Spread(data, parent, generation, count, P, addDays)
      invariant |data0| <= |data| && data[..|data0|] == data0
      invariant forall t | 0 <= t < |current| :: current[t] < |data| && data[current[t]].generation == generation
    {
      if |data| >= count {
        break;
      }
      var infector := previousGen[j];
      assert data[infector] == data0[infector];
      ghost var before := data;
      data, parent, current := InfectFrom(rng, m, data, parent, current, infector, generation, count, P, addDays);
      assert data[..|data0|] == before[..|data0|];
      j := j + 1;
    }
  }

  /** The index case, three draws: age, sex, severity. */
  method NextIndexCase(rng: Mulberry32, P: OutbreakParams) returns (c: OutbreakCase)
    requires rng.Valid()
    modifies rng
    ensures rng.Valid() && IsIndexCase(c, P)
  {
    var age := RandomInt(rng, 20, 60);
    var u := rng.Next();
    var severity := RandomPick(rng, SeverityLevels);
    c := OutbreakCase(CaseId(0), 0, None, P.startDate, age, EvenSexFromDraw(u), severity);
  }

  /** Appending cases leaves the earlier generations' lists valid. */
  lemma GenerationsKept(byGen: seq<seq<nat>>, before: seq<OutbreakCase>, data: seq<OutbreakCase>)
    requires Generations(byGen, before)
    requires |before| <= |data| && data[..|before|] == before
    ensures Generations(byGen, data)
  {
    forall g, t | 0 <= g < |byGen| && 0 <= t < |byGen[g]|
      ensures byGen[g][t] < |data| && data[byGen[g][t]].generation == g
    {
      assert data[byGen[g][t]] == before[byGen[g][t]];
    }
  }

  /** The list of the generation just run joins the others. */
  lemma GenerationsPush(byGen: seq<seq<nat>>, data: seq<OutbreakCase>, current: seq<nat>)
    requires Generations(byGen, data)
    requires forall t | 0 <= t < |current| :: current[t] < |data| && data[current[t]].generation == |byGen|
    ensures Generations(byGen + [current], data)
  {
    var byGen' := byGen + [current];
    forall g, t | 0 <= g < |byGen'| && 0 <= t < |byGen'[g]|
      ensures byGen'[g][t] < |data| && data[byGen'[g][t]].generation == g
    {
      if g < |byGen| {
        assert byGen'[g] == byGen[g];
      }
    }
  }

  /** Case `k` has an earlier infector. */
  ghost predicate HasInfector(data: seq<OutbreakCase>, k: nat, serialInterval: real,
                              addDays: (string, int) -> string)
    requires k < |data|
  {
    exists j | 0 <= j < k :: InfectedBy(data, k, j, serialInterval, addDays)
  }

  /** The index case alone starts the state. */
  lemma SpreadStart(c: OutbreakCase, count: int, P: OutbreakParams, addDays: (string, int) -> string)
    requires IsIndexCase(c, P)
    ensures Spread([c], [0], 0, count, P, addDays)
  {
  }

  /** What the loops' state says about the finished output. */
  lemma SpreadLinks(data: seq<OutbreakCase>, parent: seq<nat>, g: nat, count: int,
                    P: OutbreakParams, addDays: (string, int) -> string)
    requires Spread(data, parent, g, count, P, addDays)
    ensures 1 <= |data| <= Max(count, 1) && IsIndexCase(data[0], P)
    ensures forall k | 0 <= k < |data| :: data[k].caseId == CaseId(k) && data[k].generation <= g
    ensures forall k | 1 <= k < |data| :: SecondaryDrawn(data[k]) && HasInfector(data, k, P.serialInterval, addDays)
    ensures forall a, b | 0 <= a < b < |data| :: data[a].generation <= data[b].generation
  {
    forall k | 1 <= k < |data|
      ensures HasInfector(data, k, P.serialInterval, addDays)
    {
      assert InfectedBy(data, k, parent[k], P.serialInterval, addDays);
    }
  }

  /** One pass of the outer loop: the next generation, from the
      non-empty list of the previous one. */
  method NextGeneration(rng: Mulberry32, m: MathLib, data0: seq<OutbreakCase>, ghost parent0: seq<nat>,
                        byGen0: seq<seq<nat>>, generation: nat, count: int,
                        P: OutbreakParams, addDays: (string, int) -> string)
    returns (data: seq<OutbreakCase>, ghost parent: seq<nat>, byGen: seq<seq<nat>>)
    requires rng.Valid() && generation >= 1 && |byGen0| == generation
    requires Spread(data0, parent0, generation - 1, count, P, addDays)
    requires Generations(byGen0, data0)
    modifies rng
    ensures rng.Valid() && Spread(data, parent, generation, count, P, addDays)
    ensures Generations(byGen, data) && |byGen| == generation + 1
  {
    var current;
    data, parent, current := GenerationPass(rng, m, data0, parent0, byGen0[generation - 1], generation, count, P, addDays);
    GenerationsKept(byGen0, data0, data);
    GenerationsPush(byGen0, data, current);
    byGen := byGen0 + [current];
  }

  /** The outer loop, from the index case: generation after generation
      while the output is short of `count`, the cap `maxGenerations` is
      not passed and the previous generation has cases. */
  method Simulate(rng: Mulberry32, m: MathLib, index: OutbreakCase, count: int,
                  P: OutbreakParams, addDays: (string, int) -> string)
    returns (data: seq<OutbreakCase>, ghost parent: seq<nat>, ghost last: nat)
    requires rng.Valid() && IsIndexCase(index, P)
    modifies rng
    ensures Spread(data, parent, last, count, P, addDays) && last <= Max(P.maxGenerations, 0)
  {
    data := [index];
    parent := [0];
    SpreadStart(index, count, P, addDays);
    var casesByGeneration: seq<seq<nat>> := [[0]];
    assert Generations(casesByGeneration, data);
    var generation := 1;
    while |data| < count && generation <= P.maxGenerations
      invariant 1 <= generation && |casesByGeneration| == generation
      invariant generation - 1 <= Max(P.maxGenerations, 0)
      invariant rng.Valid() && Spread(data, parent, generation - 1, count, P, addDays)
      invariant Generations(casesByGeneration, data)
      decreases P.maxGenerations - generation
    {
      var previousGen := casesByGeneration[generation - 1];
      if |previousGen| == 0 {
        break;
      }
      data, parent, casesByGeneration :=
        NextGeneration(rng, m, data, parent, casesByGeneration, generation, count, P, addDays);
      generation := generation + 1;
    }
    last := generation - 1;
  }

  /** `generateOutbreak(count, seed, params)`. JavaScript's date
      arithmetic on the onset dates is the parameter `addDays`. */
  method GenerateOutbreak(count: int, seed: int, m: MathLib, P: OutbreakParams,
                          addDays: (string, int) -> string)
    returns (data: seq<OutbreakCase>)
    ensures 1 <= |data| <= Max(count, 1)
    ensures IsIndexCase(data[0], P)
    ensures forall k | 0 <= k < |data| :: data[k].caseId == CaseId(k)
    ensures forall k | 1 <= k < |data| :: SecondaryDrawn(data[k]) && HasInfector(data, k, P.serialInterval, addDays)
    ensures forall a, b | 0 <= a < b < |data| :: data[a].generation <= data[b].generation
    ensures forall k | 0 <= k < |data| :: data[k].generation <= Max(P.maxGenerations, 0)
  {
    var rng := new Mulberry32(seed);
    var index := NextIndexCase(rng, P);
    ghost var parent, last;
    data, parent, last := Simulate(rng, m, index, count, P, addDays);
    SpreadLinks(data, parent, last, count, P, addDays);
  }

  /** A case of generation `g` appears at or before position `k`. */
  ghost predicate GenerationReached(data: seq<OutbreakCase>, k: nat, g: nat)
    requires k < |data|
  {
    exists i | 0 <= i <= k :: data[i].generation == g
  }

  /** Since every secondary case's infector comes earlier and is one
      generation before it, the generations have no gaps: every
      generation up to case `k`'s has a case at or before `k`. */
  lemma {:induction false} GenerationsHaveNoGaps(data: seq<OutbreakCase>, serial: real,
                                                   addDays: (string, int) -> string, k: nat)
    requires k < |data| && data[0].generation == 0
    requires forall i | 1 <= i < |data| :: HasInfector(data, i, serial, addDays)
    ensures forall g | 0 <= g <= data[k].generation :: GenerationReached(data, k, g)
    decreases k
  {
    if k > 0 {
      assert HasInfector(data, k, serial, addDays);
      var j :| 0 <= j < k && InfectedBy(data, k, j, serial, addDays);
      GenerationsHaveNoGaps(data, serial, addDays, j);
      forall g | 0 <= g <= data[k].generation
        ensures GenerationReached(data, k, g)
      {
        if g == data[k].generation {
          assert data[k].generation == g;
        } else {
          assert GenerationReached(data, j, g);
          var i :| 0 <= i <= j && data[i].generation == g;
          assert 0 <= i <= k;
        }
      }
    } else {
      forall g | 0 <= g <= data[k].generation
        ensures GenerationReached(data, k, g)
      {
        assert data[0].generation == g;
      }
    }
  }
}
