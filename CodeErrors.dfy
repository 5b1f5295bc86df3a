/** The backend's CIE-10 code generator with error injection and its
    demographics generator (backend/app/generators.py).

    Both reseed the process-wide numpy generator when constructed. The
    `codigo` column of the generated table is an array that the error
    injection rewrites in place, one error type at a time, under a mask
    drawn afresh for each type. */
module CodeErrors {
  import opened Prelude
  import opened Text
  import opened NumpyRandom
  import opened Stream

  /** The codes the generator picks from, in their listed order. */
  const ValidCodes: seq<string> := [
    "A00.0", "A01.0", "A15.0", "I21.0", "I25.1", "I50.9", "E11.0", "E11.9", "J44.9",
    "G20", "G30.9", "C50.9", "N18.9", "M54.5", "F32.9", "R10.4", "S06.0"]

  /** The values of the `ErrorType` enumeration (backend/app/models.py);
      the dictionary of error probabilities is keyed by them. */
  const Spaces := "spaces"
  const Lowercase := "lowercase"
  const Truncated := "truncated"
  const Invalid := "invalid"
  const PrefixSuffix := "prefix_suffix"

  // ---------------------------------------------------------------
  // The string transforms
  // ---------------------------------------------------------------

  /** Where the regular expression `(.)(.)` first matches from `k`: two
      consecutive characters neither of which is a newline. */
  function PairAt(s: string, k: nat): (r: Option<nat>)
    requires k <= |s|
    ensures r.Some? ==> k <= r.value && r.value + 1 < |s| && s[r.value] != '\n' && s[r.value + 1] != '\n'
    decreases |s| - k
  {
    if k + 1 >= |s| then None
    else if s[k] != '\n' && s[k + 1] != '\n' then Some(k)
    else PairAt(s, k + 1)
  }

  /** `re.sub(r"(.)(.)", r"\1 \2", s, count=1)`: a space between the
      characters of the first match. */
  function InsertSpace(s: string): string {
    match PairAt(s, 0)
    case None => s
    case Some(i) => s[..i + 1] + " " + s[i + 1..]
  }

  /** What one error type does to one code; `invalid`, `prefix_suffix`
      and unknown keys change nothing. */
  function Corrupt(kind: string, code: string): string {
    if kind == Spaces then InsertSpace(code)
    else if kind == Lowercase then ToLower(code)
    else if kind == Truncated then BeforeFirst(code, '.')
    else code
  }

  /** `df.loc[mask, "codigo"] = …`: the masked codes are transformed. */
  function Masked(codes: seq<string>, kind: string, mask: seq<bool>): (r: seq<string>)
    requires |mask| == |codes|
  {
    seq(|codes|, i requires 0 <= i < |codes| => if mask[i] then Corrupt(kind, codes[i]) else codes[i])
  }

  /** `np.random.random(len(df)) < prob` with the draws from `pos` on. */
  function MaskFrom(ds: Draws, pos: nat, n: nat, prob: real): (mask: seq<bool>)
    ensures |mask| == n
  {
    seq(n, i requires 0 <= i < n => ds(pos + i) < prob)
  }

  /** The whole injection: the error types in the dictionary's order, each
      with a probability above zero drawing a mask of its own. */
  function ApplyAll(codes: seq<string>, errors: seq<(string, real)>, ds: Draws, pos: nat): seq<string>
    decreases |errors|
  {
    if |errors| == 0 then codes
    else if errors[0].1 <= 0.0 then ApplyAll(codes, errors[1..], ds, pos)
    else ApplyAll(Masked(codes, errors[0].0, MaskFrom(ds, pos, |codes|, errors[0].1)), errors[1..], ds, pos + |codes|)
  }

  /** The number of draws the injection takes: one per row for each type
      with a probability above zero. */
  function DrawsUsed(n: nat, errors: seq<(string, real)>): nat
    decreases |errors|
  {
    if |errors| == 0 then 0
    else (if errors[0].1 <= 0.0 then 0 else n) + DrawsUsed(n, errors[1..])
  }

  // ---------------------------------------------------------------
  // Properties of the transforms
  // ---------------------------------------------------------------

  /** A code without newlines and of two characters or more gets its
      space after the first character; a shorter one is left alone. */
  lemma {:induction false} InsertSpaceShape(s: string)
    requires '\n' !in s
    ensures |s| >= 2 ==> InsertSpace(s) == s[..1] + " " + s[1..]
    ensures |s| < 2 ==> InsertSpace(s) == s
  {
    if |s| >= 2 {
      assert s[0] in s && s[1] in s;
    }
  }

  /** Removing the inserted space gives the code back: the transform
      loses nothing. */
  lemma InsertSpaceRemovable(s: string)
    ensures |InsertSpace(s)| == |s| + (if PairAt(s, 0).Some? then 1 else 0)
    ensures PairAt(s, 0).Some? ==> var i := PairAt(s, 0).value;
      InsertSpace(s)[i + 1] == ' ' && InsertSpace(s)[..i + 1] + InsertSpace(s)[i + 2..] == s
  {
    if PairAt(s, 0).Some? {
      var i := PairAt(s, 0).value;
      var t := InsertSpace(s);
      assert t[..i + 1] == s[..i + 1];
      assert t[i + 2..] == s[i + 1..];
    }
  }

  /** Lower-casing twice is lower-casing once. */
  lemma {:induction false} LowercaseIdempotent(s: string)
    ensures ToLower(ToLower(s)) == ToLower(s)
  {
    var t := ToLower(s);
    LowerLetters(t, t);
  }

  /** Truncation leaves a prefix without a '.', so truncating again
      changes nothing. */
  lemma TruncatedIdempotent(s: string)
    ensures var t := Corrupt(Truncated, s); '.' !in t && t <= s && Corrupt(Truncated, t) == t
  {
    var t := BeforeFirst(s, '.');
    assert IndexOf(t, '.').None?;
  }

  /** The error types the code does not implement leave every code as it
      is, whatever the mask. */
  lemma OtherKindsUnchanged(codes: seq<string>, kind: string, mask: seq<bool>)
    requires |mask| == |codes| && kind != Spaces && kind != Lowercase && kind != Truncated
    ensures Masked(codes, kind, mask) == codes
  {
  }

  /** Codes outside the mask are untouched. */
  lemma UnmaskedUntouched(codes: seq<string>, kind: string, mask: seq<bool>, i: nat)
    requires |mask| == |codes| && i < |codes| && !mask[i]
    ensures Masked(codes, kind, mask)[i] == codes[i]
  {
  }

  /** Types whose probability is not above zero are skipped and draw
      nothing: if every type is such, the codes come back unchanged. */
  lemma {:induction false} NonPositiveSkipped(codes: seq<string>, errors: seq<(string, real)>, ds: Draws, pos: nat)
    requires forall e | e in errors :: e.1 <= 0.0
    ensures ApplyAll(codes, errors, ds, pos) == codes && DrawsUsed(|codes|, errors) == 0
    decreases |errors|
  {
    if |errors| > 0 {
      assert errors[0] in errors;
      assert forall e | e in errors[1..] :: e in errors;
      NonPositiveSkipped(codes, errors[1..], ds, pos);
    }
  }

  /** A probability of one or more masks every row: the type is applied
      to every code. */
  lemma CertainErrorAppliesEverywhere(codes: seq<string>, kind: string, prob: real, ds: Draws, pos: nat)
    requires prob >= 1.0
    ensures ApplyAll(codes, [(kind, prob)], ds, pos) == seq(|codes|, i requires 0 <= i < |codes| => Corrupt(kind, codes[i]))
  {
    assert [(kind, prob)][1..] == [];
  }

  // ---------------------------------------------------------------
  // The generator
  // ---------------------------------------------------------------

  datatype CodeTable = CodeTable(ids: seq<int>, codes: seq<string>)

  /** `np.arange(1, n + 1)`. */
  function Ids(n: nat): (ids: seq<int>)
    ensures |ids| == n
  {
    seq(n, i requires 0 <= i < n => i + 1)
  }

  /** The masked rows of the `codigo` column rewritten in place. */
  method RewriteMasked(codes: array<string>, kind: string, mask: seq<bool>)
    requires |mask| == codes.Length
    modifies codes
    ensures codes[..] == Masked(old(codes[..]), kind, mask)
  {
    ghost var before := codes[..];
    var i := 0;
    while i < codes.Length
      invariant 0 <= i <= codes.Length
      invariant forall j | 0 <= j < i :: codes[j] == Masked(before, kind, mask)[j]
      invariant forall j | i <= j < codes.Length :: codes[j] == before[j]
    {
      if mask[i] {
        codes[i] := Corrupt(kind, codes[i]);
      }
      i := i + 1;
    }
  }

  /** The table `generate` returns from the draws at `pos` on: `n` codes
      picked from the list, then every error type applied in turn. */
  function Table(ds: Draws, pos: nat, n: nat, errors: seq<(string, real)>): seq<string> {
    ApplyAll(Picked(ds, pos, n), errors, ds, pos + n)
  }

  /** A column of codes read from the picked indices is `Picked`. */
  lemma PickedIs(ds: Draws, pos: nat, ks: seq<nat>, codes: seq<string>)
    requires |codes| == |ks|
    requires forall i | 0 <= i < |ks| :: ks[i] == ScaledFloor(ds(pos + i), |ValidCodes|)
    requires forall i | 0 <= i < |ks| :: ks[i] < |ValidCodes| && codes[i] == ValidCodes[ks[i]]
    ensures codes == Picked(ds, pos, |ks|)
  {
  }

  /** `np.random.choice(valid_codes, n)` with the draws from `pos` on. */
  function Picked(ds: Draws, pos: nat, n: nat): (codes: seq<string>)
    ensures |codes| == n && forall i | 0 <= i < n :: codes[i] in ValidCodes
  {
    var codes := seq(n, i requires 0 <= i < n => ValidCodes[ScaledFloor(ds(pos + i), |ValidCodes|)]);
    assert forall i | 0 <= i < n :: codes[i] in ValidCodes by {
      forall i | 0 <= i < n ensures codes[i] in ValidCodes {
        var k := ScaledFloor(ds(pos + i), |ValidCodes|);
        assert codes[i] == ValidCodes[k];
      }
    }
    codes
  }

  /** Its `valid_codes` are always `ValidCodes`. */
  class Cie10Generator {
    const np: Generator

    constructor (seed: int, np: Generator)
      modifies np
      ensures this.np == np
      ensures np.seed == seed && np.calls == 0
    {
      this.np := np;
      np.Seed(seed);
    }

    /** One error type: a fresh mask over all rows, and when it masks any
        row, the masked codes rewritten. */
    method ApplyError(codes: array<string>, kind: string, prob: real)
      requires prob > 0.0
      modifies codes, np
      ensures codes[..] == Masked(old(codes[..]), kind, MaskFrom(np.streams(np.seed), old(np.calls), codes.Length, prob))
      ensures np.seed == old(np.seed) && np.calls == old(np.calls) + codes.Length
    {
      ghost var before := codes[..];
      ghost var expected := MaskFrom(np.streams(np.seed), np.calls, codes.Length, prob);
      var us := np.RandomVector(codes.Length);
      var mask := seq(codes.Length, i requires 0 <= i < codes.Length => us[i] < prob);
      assert mask == expected;
      if exists i | 0 <= i < codes.Length :: mask[i] {
        RewriteMasked(codes, kind, mask);
      } else {
        assert Masked(before, kind, mask) == before;
      }
    }
    /** `_apply_errors`: every error type in order, each with a
        probability above zero drawing its own mask. */
    method ApplyErrors(codes: array<string>, errors: seq<(string, real)>)
      modifies codes, np
      ensures codes[..] == ApplyAll(old(codes[..]), errors, np.streams(np.seed), old(np.calls))
      ensures np.seed == old(np.seed) && np.calls == old(np.calls) + DrawsUsed(codes.Length, errors)
    {
      ghost var ds := np.streams(np.seed);
      ghost var whole := ApplyAll(codes[..], errors, ds, np.calls);
      ghost var start := np.calls;
      var e := 0;
      while e < |errors|
        invariant 0 <= e <= |errors| && np.seed == old(np.seed)
        invariant whole == ApplyAll(codes[..], errors[e..], ds, np.calls)
        invariant np.calls + DrawsUsed(codes.Length, errors[e..]) == start + DrawsUsed(codes.Length, errors)
      {
        assert errors[e..][1..] == errors[e + 1..];
        var (kind, prob) := errors[e];
        if prob > 0.0 {
          ApplyError(codes, kind, prob);
        }
        e := e + 1;
      }
    }

    /** `np.random.choice(valid_codes, n)` as a new `codigo` column. */
    method PickCodes(n: nat) returns (codes: array<string>)
      modifies np
      ensures fresh(codes) && codes[..] == Picked(np.streams(np.seed), old(np.calls), n)
      ensures np.seed == old(np.seed) && np.calls == old(np.calls) + n
    {
      ghost var ds, c0 := np.streams(np.seed), np.calls;
      var picked := np.ChoiceIndices(|ValidCodes|, n);
      codes := new string[n](i requires 0 <= i < n => ValidCodes[picked[i]]);
      PickedIs(ds, c0, picked, codes[..]);
    }

    /** `generate(n, error_types)`: ids 1..n and a code drawn from the
        list for each, then the errors if any were asked for; numpy
        rejects a negative `n`. */
    method Generate(n: int, errors: seq<(string, real)>) returns (r: Result<CodeTable, string>)
      modifies np
      ensures r.Success? <==> n >= 0
      ensures r.Failure? ==> np.calls == old(np.calls)
      ensures r.Success? ==> r.value == CodeTable(Ids(n), Table(np.streams(np.seed), old(np.calls), n, errors))
      ensures np.seed == old(np.seed)
    {
      if n < 0 {
        return Failure("negative dimensions are not allowed");
      }
      var codes := PickCodes(n);
      if |errors| > 0 {
        ApplyErrors(codes, errors);
      }
      r := Success(CodeTable(Ids(n), codes[..]));
    }
  }

  /** Error types the code does not implement (`invalid`,
      `prefix_suffix`) draw their masks but leave the codes unchanged, so
      generated codes stay valid. */
  lemma {:induction false} OnlyOtherKindsKeepCodes(codes: seq<string>, errors: seq<(string, real)>, ds: Draws, pos: nat)
    requires forall e | e in errors :: e.0 != Spaces && e.0 != Lowercase && e.0 != Truncated
    ensures ApplyAll(codes, errors, ds, pos) == codes
    decreases |errors|
  {
    if |errors| > 0 {
      assert errors[0] in errors;
      assert forall e | e in errors[1..] :: e in errors;
      if errors[0].1 > 0.0 {
        OtherKindsUnchanged(codes, errors[0].0, MaskFrom(ds, pos, |codes|, errors[0].1));
        OnlyOtherKindsKeepCodes(codes, errors[1..], ds, pos + |codes|);
      } else {
        OnlyOtherKindsKeepCodes(codes, errors[1..], ds, pos);
      }
    }
  }

  /** Truncation keeps what comes before the first '.': `A00.0` becomes
      `A00`, while `G20` has no '.' and stays as it is. */
  lemma TruncateAtDot(p: string, q: string)
    requires '.' !in p
    ensures Corrupt(Truncated, p + "." + q) == p
    ensures Corrupt(Truncated, p) == p
  {
    IndexOfFirst(p + "." + q, '.', |p|);
    assert (p + "." + q)[..|p|] == p;
  }

  // ---------------------------------------------------------------
  // Demographics
  // ---------------------------------------------------------------

  datatype Person = Person(id: int, age: int, gender: string, region: string)

  /** `R01` … `R15`. */
  const Regions: seq<string> := seq(15, i requires 0 <= i < 15 => "R" + PadNumber(i + 1, 2))

  const Genders: seq<string> := ["M", "F"]

  /** `int(b * 90 + 5)` for a beta variate `b`. */
  function AgeFromBeta(b: real): (age: int)
    requires 0.0 < b < 1.0
    ensures 5 <= age <= 94
  {
    (b * 90.0 + 5.0).Floor
  }

  /** The region names are `R` and two digits that read back as 1..15. */
  lemma RegionNames(k: nat)
    requires k < 15
    ensures |Regions[k]| == 3 && Regions[k][0] == 'R' && ParseNat(Regions[k][1..]) == k + 1
  {
    assert Regions[k] == "R" + PadNumber(k + 1, 2);
    PrefixedIdReadsBack("R", k + 1, 2);
    NatToStringLength(k + 1);
    NatToStringLength((k + 1) / 10);
  }

  /** The people drawn from `pos` on: the `n` beta variates first, then
      the `n` gender picks, then the `n` region picks. */
  function PeopleFrom(v: Variates, ds: Draws, pos: nat, n: nat): (r: seq<Person>)
    ensures |r| == n
  {
    seq(n, i requires 0 <= i < n =>
      Person(i + 1, AgeFromBeta(v.beta(2.0, 5.0, ds(pos + i))),
             Genders[ScaledFloor(ds(pos + n + i), 2)], Regions[ScaledFloor(ds(pos + 2 * n + i), 15)]))
  }

  /** Person `i` has id `i + 1`, an age in 5..94 from the `i`-th beta
      draw, a gender from draw `n + i` and a region from draw `2n + i`,
      each an entry of its list. */
  lemma PersonFields(v: Variates, ds: Draws, pos: nat, n: nat, i: nat)
    requires i < n
    ensures var p := PeopleFrom(v, ds, pos, n)[i];
      && p.id == i + 1 && 5 <= p.age <= 94
      && p.age == AgeFromBeta(v.beta(2.0, 5.0, ds(pos + i)))
      && p.gender == Genders[ScaledFloor(ds(pos + n + i), 2)] && p.gender in Genders
      && p.region == Regions[ScaledFloor(ds(pos + 2 * n + i), 15)] && p.region in Regions
  {
    var age := AgeFromBeta(v.beta(2.0, 5.0, ds(pos + i)));
    assert PeopleFrom(v, ds, pos, n)[i]
        == Person(i + 1, age, Genders[ScaledFloor(ds(pos + n + i), 2)], Regions[ScaledFloor(ds(pos + 2 * n + i), 15)]);
  }

  /** `pd.DataFrame` of the four columns: row `i` takes item `i` of each;
      the gender and region columns hold indices into their lists. */
  function Columns(betas: seq<real>, gs: seq<nat>, rs: seq<nat>): (people: seq<Person>)
    requires |gs| == |rs| == |betas|
    requires forall i | 0 <= i < |betas| :: 0.0 < betas[i] < 1.0 && gs[i] < 2 && rs[i] < 15
    ensures |people| == |betas|
  {
    seq(|betas|, i requires 0 <= i < |betas| =>
      Person(i + 1, AgeFromBeta(betas[i]), Genders[gs[i]], Regions[rs[i]]))
  }

  /** The three columns drawn one after the other assemble into
      `PeopleFrom`. */
  lemma Assembled(v: Variates, ds: Draws, pos: nat, n: nat, betas: seq<real>, gs: seq<nat>, rs: seq<nat>)
    requires |betas| == |gs| == |rs| == n
    requires forall i | 0 <= i < n :: betas[i] == v.beta(2.0, 5.0, ds(pos + i))
    requires forall i | 0 <= i < n :: gs[i] == ScaledFloor(ds(pos + n + i), 2)
    requires forall i | 0 <= i < n :: rs[i] == ScaledFloor(ds(pos + 2 * n + i), 15)
    ensures forall i | 0 <= i < n :: 0.0 < betas[i] < 1.0 && gs[i] < 2 && rs[i] < 15
    ensures Columns(betas, gs, rs) == PeopleFrom(v, ds, pos, n)
  {
  }

  class DemographicsGenerator {
    const np: Generator

    constructor (seed: int, np: Generator)
      modifies np
      ensures this.np == np && np.seed == seed && np.calls == 0
    {
      this.np := np;
      np.Seed(seed);
    }

    /** `generate(n)`: ids 1..n, ages from `beta(2, 5)`, genders and
        regions drawn uniformly, each column a vectorised call; numpy
        rejects a negative `n`. */
    method Generate(n: int) returns (r: Result<seq<Person>, string>)
      modifies np
      ensures r.Success? <==> n >= 0
      ensures r.Success? ==> np.calls == old(np.calls) + 3 * n
      ensures r.Success? ==> r.value == PeopleFrom(np.variates, np.streams(np.seed), old(np.calls), n)
      ensures np.seed == old(np.seed)
    {
      if n < 0 {
        return Failure("negative dimensions are not allowed");
      }
      ghost var ds, c0 := np.streams(np.seed), np.calls;
      var betas := np.BetaVector(2.0, 5.0, n);
      assert forall i | 0 <= i < n :: betas[i] == np.variates.beta(2.0, 5.0, ds(c0 + i));
      var genders := np.ChoiceIndices(2, n);
      var regions := np.ChoiceIndices(15, n);
      Assembled(np.variates, ds, c0, n, betas, genders, regions);
      return Success(Columns(betas, genders, regions));
    }
  }
}
