/** The commune helpers of frontend/src/data/comunas.ts: the filter by
    region and the population-weighted pick. The 346-entry table itself
    is a parameter `cs`. */
module Comunas {
  import opened Prelude
  import opened Stream

  datatype Ruralidad = Urbano | Rural | Mixto {
    function Name(): string {
      match this
      case Urbano => "Urbano"
      case Rural => "Rural"
      case Mixto => "Mixto"
    }
  }

  datatype Comuna = Comuna(
    codigo: string,
    nombre: string,
    region: string,
    regionCodigo: string,
    provincia: string,
    poblacion: int,
    ruralidad: Ruralidad)

  /** `getComunasByRegion(regionCodigo)`. */
  function ComunasByRegion(cs: seq<Comuna>, regionCodigo: string): seq<Comuna> {
    Filter(cs, (c: Comuna) => c.regionCodigo == regionCodigo)
  }

  /** The result holds exactly the communes of that region, in table
      order. */
  lemma ComunasByRegionExact(cs: seq<Comuna>, cs': seq<Comuna>, regionCodigo: string, c: Comuna)
    ensures c in ComunasByRegion(cs, regionCodigo) <==> c in cs && c.regionCodigo == regionCodigo
    ensures ComunasByRegion(cs + cs', regionCodigo)
         == ComunasByRegion(cs, regionCodigo) + ComunasByRegion(cs', regionCodigo)
  {
    FilterMembership(cs, (c: Comuna) => c.regionCodigo == regionCodigo, c);
    FilterAppend(cs, cs', (c: Comuna) => c.regionCodigo == regionCodigo);
  }

  // ---------------------------------------------------------------
  // Population-weighted pick
  // ---------------------------------------------------------------

  /** The population of the first `k` communes. */
  function PopulationUpTo(cs: seq<Comuna>, k: nat): int
    requires k <= |cs|
  {
    if k == 0 then 0 else PopulationUpTo(cs, k - 1) + cs[k - 1].poblacion
  }

  /** `comunas.reduce((sum, c) => sum + c.poblacion, 0)`. */
  function TotalPopulation(cs: seq<Comuna>): int {
    PopulationUpTo(cs, |cs|)
  }

  /** The scan of the loop from commune `j` on: the first commune at which
      the running remainder `target - PopulationUpTo(j + 1)` reaches 0. */
  function FirstReaching(cs: seq<Comuna>, target: real, j: nat): (r: Option<nat>)
    requires j <= |cs|
    ensures r.Some? ==> j <= r.value < |cs|
    decreases |cs| - j
  {
    if j == |cs| then None
    else if target - PopulationUpTo(cs, j + 1) as real <= 0.0 then Some(j)
    else FirstReaching(cs, target, j + 1)
  }

  /** The scan finds the first commune whose cumulative population
      reaches the target, and finds nothing exactly when no prefix does. */
  lemma {:induction false} FirstReachingIsFirst(cs: seq<Comuna>, target: real, j: nat)
    requires j <= |cs|
    ensures FirstReaching(cs, target, j).None? <==>
      forall i | j < i <= |cs| :: (PopulationUpTo(cs, i) as real) < target
    ensures FirstReaching(cs, target, j).Some? ==>
      var k := FirstReaching(cs, target, j).value;
      j <= k < |cs| && PopulationUpTo(cs, k + 1) as real >= target
      && forall i | j < i <= k :: (PopulationUpTo(cs, i) as real) < target
    decreases |cs| - j
  {
    if j < |cs| {
      FirstReachingIsFirst(cs, target, j + 1);
      if target - PopulationUpTo(cs, j + 1) as real <= 0.0 {
        assert !((PopulationUpTo(cs, j + 1) as real) < target);
      } else {
        assert (PopulationUpTo(cs, j + 1) as real) < target;
      }
    }
  }

  /** `random() * totalPoblacion`. */
  function PickTarget(cs: seq<Comuna>, u: real): real {
    (TotalPopulation(cs) as real) * u
  }

  /** The commune picked for the draw `u`: the first one whose cumulative
      population reaches `u * total`, else `fallback`. */
  function WeightedPick(cs: seq<Comuna>, u: real, fallback: Comuna): Comuna {
    var found := FirstReaching(cs, PickTarget(cs, u), 0);
    if found.Some? then cs[found.value] else fallback
  }

  /** With non-negative populations the scan always ends on a commune: the
      last cumulative sum is the total, which `u * total` never exceeds.
      So neither fallback is ever taken for a non-empty table. */
  lemma WeightedPickFinds(cs: seq<Comuna>, u: real)
    requires |cs| > 0 && 0.0 <= u < 1.0
    requires forall c | c in cs :: c.poblacion >= 0
    ensures FirstReaching(cs, PickTarget(cs, u), 0).Some?
  {
    PopulationNonNegative(cs, |cs|);
    var t := TotalPopulation(cs) as real;
    var ut := PickTarget(cs, u);
    MulMonotone(t, u, 1.0);
    assert ut <= t;
    FirstReachingIsFirst(cs, ut, 0);
    assert (PopulationUpTo(cs, |cs|) as real) >= ut;
  }

  lemma {:induction false} PopulationNonNegative(cs: seq<Comuna>, k: nat)
    requires k <= |cs| && forall c | c in cs :: c.poblacion >= 0
    ensures PopulationUpTo(cs, k) >= 0
  {
    if k > 0 {
      PopulationNonNegative(cs, k - 1);
      assert cs[k - 1] in cs;
    }
  }

  /** The loop `r -= comuna.poblacion; if (r <= 0) return comuna` from
      `target`: the index it stops at, if any. */
  method ScanPopulation(cs: seq<Comuna>, target: real) returns (found: Option<nat>)
    ensures found == FirstReaching(cs, target, 0)
  {
    var r := target;
    var j := 0;
    while j < |cs|
      invariant 0 <= j <= |cs|
      invariant r == target - PopulationUpTo(cs, j) as real
      invariant FirstReaching(cs, target, 0) == FirstReaching(cs, target, j)
    {
      r := r - cs[j].poblacion as real;
      if r <= 0.0 {
        return Some(j);
      }
      j := j + 1;
    }
    return None;
  }

  /** `getRandomComunaWeighted(random)`: one draw; falls back to the
      first commune. */
  method RandomComunaWeighted(rng: Mulberry32, cs: seq<Comuna>) returns (c: Comuna)
    requires rng.Valid() && |cs| > 0
    modifies rng
    ensures rng.Valid() && rng.draws == old(rng.draws) + 1
    ensures c == WeightedPick(cs, rng.values(old(rng.draws)), cs[0])
  {
    var u := rng.Next();
    var found := ScanPopulation(cs, PickTarget(cs, u));
    c := if found.Some? then cs[found.value] else cs[0];
  }
}
