/** frontend/src/data/lab-tests.ts: laboratory tests with reference
    ranges per population group, the range lookup and the interpretation
    of a result. The catalog itself is a parameter. */
module LabTests {
  import opened Prelude
  import opened Text

  datatype ReferenceRange = ReferenceRange(
    group: string, low: real, high: real, criticalLow: Option<real>, criticalHigh: Option<real>)

  /** The texts of `interpretation`; `LL` and `HH` are optional. */
  datatype Interpretation = Interpretation(L: string, N: string, H: string, LL: Option<string>, HH: Option<string>)

  /** One `LabTest`; the short name is left out. */
  datatype LabTest = LabTest(
    loincCode: string, name: string, category: string, unit: string, specimen: string,
    referenceRanges: seq<ReferenceRange>, interpretation: Interpretation)

  /** `getLabTestByLOINC(code)`: the first test with that code. */
  function GetLabTestByLoinc(tests: seq<LabTest>, loincCode: string): (r: Option<LabTest>)
    ensures r.Some? ==> r.value in tests && r.value.loincCode == loincCode
    ensures r.None? <==> forall i | 0 <= i < |tests| :: tests[i].loincCode != loincCode
  {
    FindFirst(tests, (t: LabTest) => t.loincCode == loincCode);
    Find(tests, (t: LabTest) => t.loincCode == loincCode)
  }

  /** `getLabTestsByCategory(category)`: an order-preserving filter. */
  function GetLabTestsByCategory(tests: seq<LabTest>, category: string): seq<LabTest> {
    Filter(tests, (t: LabTest) => t.category == category)
  }

  /** The category filter keeps exactly the tests of that category. */
  lemma LabTestsByCategoryMembers(tests: seq<LabTest>, category: string, t: LabTest)
    ensures t in GetLabTestsByCategory(tests, category) <==> t in tests && t.category == category
  {
    FilterMembership(tests, (x: LabTest) => x.category == category, t);
  }

  /** The test of `getReferenceRange`: the range's group, lower-cased,
      contains the query, lower-cased. */
  predicate GroupMatches(r: ReferenceRange, group: string) {
    Contains(ToLower(r.group), ToLower(group))
  }

  /** `getReferenceRange(test, group)`: the first range whose group matches,
      else the first range; nothing (`undefined`) when the test has no
      ranges. */
  function GetReferenceRange(test: LabTest, group: string): (r: Option<ReferenceRange>)
    ensures r.None? <==> |test.referenceRanges| == 0
    ensures r.Some? ==> r.value in test.referenceRanges
  {
    match Find(test.referenceRanges, (rr: ReferenceRange) => GroupMatches(rr, group))
    case Some(rr) => Some(rr)
    case None => if |test.referenceRanges| == 0 then None else Some(test.referenceRanges[0])
  }

  /** The lookup takes the first matching range, and falls back to the
      first range only when no range matches. */
  lemma ReferenceRangeFirst(test: LabTest, group: string)
    requires |test.referenceRanges| > 0
    ensures var rs := test.referenceRanges;
      var r := GetReferenceRange(test, group).value;
      (exists k | 0 <= k < |rs| :: r == rs[k] && GroupMatches(rs[k], group)
         && forall i | 0 <= i < k :: !GroupMatches(rs[i], group))
      || (r == rs[0] && forall i | 0 <= i < |rs| :: !GroupMatches(rs[i], group))
  {
    FindFirst(test.referenceRanges, (rr: ReferenceRange) => GroupMatches(rr, group));
  }

  /** What `interpretResult` returns: `L`, `N`, `H`, or a critical text. */
  datatype Verdict = L | N | H | CriticalLow(text: string) | CriticalHigh(text: string)

  /** `a || b` on an optional text: the text unless it is missing or empty. */
  function OrDefault(t: Option<string>, default: string): string {
    if t.Some? && t.value != "" then t.value else default
  }

  /** The verdict against one range: the critical bounds first and
      inclusively, then the normal range strictly. */
  function InterpretInRange(test: LabTest, range: ReferenceRange, value: real): Verdict {
    if range.criticalLow.Some? && value <= range.criticalLow.value then
      CriticalLow(OrDefault(test.interpretation.LL, "Crítico bajo"))
    else if range.criticalHigh.Some? && value >= range.criticalHigh.value then
      CriticalHigh(OrDefault(test.interpretation.HH, "Crítico alto"))
    else if value < range.low then L
    else if value > range.high then H
    else N
  }

  /** `interpretResult(test, value, group)`; a test without ranges makes
      the source read a property of `undefined` and throw, here `None`. */
  function InterpretResult(test: LabTest, value: real, group: string): (v: Option<Verdict>)
    ensures v.None? <==> |test.referenceRanges| == 0
  {
    match GetReferenceRange(test, group)
    case None => None
    case Some(range) => Some(InterpretInRange(test, range, value))
  }

  /** The default group of `interpretResult`. */
  const DefaultGroup := "Adultos"

  /** The interpretation is inclusive at the critical bounds and strict
      at the normal bounds; between the critical bounds the normal-range
      verdict decides, and `N` means exactly "inside the normal range". */
  lemma InterpretBounds(test: LabTest, range: ReferenceRange, value: real)
    ensures range.criticalLow.Some? && value <= range.criticalLow.value
      ==> InterpretInRange(test, range, value).CriticalLow?
    ensures (range.criticalLow.None? || value > range.criticalLow.value)
      && range.criticalHigh.Some? && value >= range.criticalHigh.value
      ==> InterpretInRange(test, range, value).CriticalHigh?
    ensures InterpretInRange(test, range, value) == N <==>
      (range.criticalLow.None? || value > range.criticalLow.value)
      && (range.criticalHigh.None? || value < range.criticalHigh.value)
      && range.low <= value <= range.high
  {
  }

  /** A critical text falls back to the generic one when the test has
      none. */
  lemma CriticalText(test: LabTest, range: ReferenceRange, value: real)
    requires range.criticalLow.Some? && value <= range.criticalLow.value
    ensures var v := InterpretInRange(test, range, value);
      test.interpretation.LL.None? ==> v == CriticalLow("Crítico bajo")
  {
  }
}
