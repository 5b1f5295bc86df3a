/** The backend's patient identifiers (backend/app/patient_id.py,
    `PatientIDGenerator`): a counter, a registry of the patients made so
    far, identifiers of the form `PREFIX-YYYY-SEX-REGION-HASH6`, cohorts
    drawn from the process-wide numpy generator, and encounters added to
    a cohort.

    sha256, uuid5 and the parsing of `YYYY-MM-DD` dates are library calls
    and are parameters (`Foreign`); the clock is the parameter `today`. */
module PatientIds {
  import opened Prelude
  import opened Text
  import opened NumpyRandom
  import opened Stream

  predicate IsLowerHexDigit(c: char) { '0' <= c <= '9' || 'a' <= c <= 'f' }

  /** A sha256 `hexdigest()`: 64 lower-case hexadecimal digits. */
  type HexDigest = s: string | |s| == 64 && forall i | 0 <= i < |s| :: IsLowerHexDigit(s[i])
    witness Repeat('0', 64)

  datatype Date = Date(year: int, month: int, day: int)

  /** `hashlib.sha256(data).hexdigest()`, `uuid.uuid5(NAMESPACE_DNS, name)`
      and `datetime.strptime(s, "%Y-%m-%d")`, which fails with `None`. */
  datatype Foreign = Foreign(sha256: string -> HexDigest, uuid5: string -> string, parseDate: string -> Option<Date>)

  /** What the date parser is known to do: a four-digit year, a month and
      a day that exists in every month, written `YYYY-MM-DD`, parse. */
  ghost predicate ParsesIsoDates(f: Foreign) {
    forall y, m, d | 1000 <= y <= 9999 && 1 <= m <= 12 && 1 <= d <= 28 ::
      f.parseDate(IsoDate(y, m, d)) == Some(Date(y, m, d))
  }

  /** `f"{year}-{month:02d}-{day:02d}"`. */
  function IsoDate(year: int, month: int, day: int): string {
    IntToString(year) + "-" + PadNumber(month, 2) + "-" + PadNumber(day, 2)
  }

  // ---------------------------------------------------------------
  // Identifiers
  // ---------------------------------------------------------------

  /** `hexdigest()[:6].upper()`. */
  function Hash6(digest: HexDigest): (h: string)
    ensures |h| == 6 && AllUpperHex(h)
  {
    ToUpper(digest[..6])
  }

  /** What is hashed for a patient: `f"{birth_date}{sex}{region}{salt}{counter}"`
      with the empty salt. */
  function HashInput(birthDate: string, sex: string, region: string, counter: nat): string {
    birthDate + sex + region + "" + NatToString(counter)
  }

  /** `f"{prefix}-{birth_date[:4]}-{sex}-{region}-{hash}"`. */
  function MakeId(prefix: string, birthDate: string, sex: string, region: string, hash: string): string {
    prefix + "-" + Take(birthDate, 4) + "-" + sex + "-" + region + "-" + hash
  }

  /** What `generate_patient` is asked for. */
  datatype PatientInput = PatientInput(birthDate: string, sex: string, region: string, comuna: Option<string>)

  /** The identifier of the patient made when the counter reaches `counter`. */
  function IdFor(f: Foreign, prefix: string, p: PatientInput, counter: nat): string {
    MakeId(prefix, p.birthDate, p.sex, p.region, Hash6(f.sha256(HashInput(p.birthDate, p.sex, p.region, counter))))
  }

  /** Its uuid: uuid5 of `f"{patient_id}-{counter}"`. */
  function UuidFor(f: Foreign, prefix: string, p: PatientInput, counter: nat): string {
    f.uuid5(IdFor(f, prefix, p, counter) + "-" + NatToString(counter))
  }

  /** The default prefix, a four-character birth date year, a one-letter
      sex and a two-character region make a 21-character identifier whose
      last six characters are the upper-case hash. */
  lemma DefaultIdShape(f: Foreign, p: PatientInput, counter: nat)
    requires |p.birthDate| >= 4 && |p.sex| == 1 && |p.region| == 2
    ensures var id := IdFor(f, "SHDB", p, counter);
      |id| == 21 && id[..5] == "SHDB-" && id[5..9] == p.birthDate[..4]
      && id[15..] == Hash6(f.sha256(HashInput(p.birthDate, p.sex, p.region, counter)))
      && AllUpperHex(id[15..])
  {
  }

  /** With the birth date, sex and region of fixed widths, the counter
      ends the hashed text, so different counters hash different texts. */
  lemma HashInputsDistinct(b1: string, s1: string, r1: string, c1: nat, b2: string, s2: string, r2: string, c2: nat)
    requires |b1| == |b2| && |s1| == |s2| && |r1| == |r2| && c1 != c2
    ensures HashInput(b1, s1, r1, c1) != HashInput(b2, s2, r2, c2)
  {
    var k := |b1| + |s1| + |r1|;
    if HashInput(b1, s1, r1, c1) == HashInput(b2, s2, r2, c2) {
      assert HashInput(b1, s1, r1, c1)[k..] == NatToString(c1);
      assert HashInput(b2, s2, r2, c2)[k..] == NatToString(c2);
      NatToStringInjective(c1, c2);
    }
  }

  /** Without fixed widths the texts can coincide: region `1` at counter
      12 and region `11` at counter 2 hash the same text. */
  lemma HashInputsCanCoincide()
    ensures HashInput("2000-01-01", "M", "1", 12) == HashInput("2000-01-01", "M", "11", 2)
  {
    assert NatToString(12) == "12" by {
      assert NatToString(1) == "1";
    }
  }

  // ---------------------------------------------------------------
  // Age
  // ---------------------------------------------------------------

  /** `(today.month, today.day) < (birth_month, birth_day)`. */
  predicate BeforeInYear(today: Date, month: int, day: int) {
    today.month < month || (today.month == month && today.day < day)
  }

  /** `_calculate_age`. */
  function Age(today: Date, birth: Date): int {
    today.year - birth.year - (if BeforeInYear(today, birth.month, birth.day) then 1 else 0)
  }

  /** Dates in calendar order. */
  predicate DateBefore(a: Date, b: Date) {
    a.year < b.year || (a.year == b.year && BeforeInYear(a, b.month, b.day))
  }

  /** The age is the number of birthdays reached: the birthday of that
      many years is not after today, the next one is. */
  lemma AgeCountsBirthdays(today: Date, birth: Date)
    ensures var a := Age(today, birth);
      !DateBefore(today, Date(birth.year + a, birth.month, birth.day))
      && DateBefore(today, Date(birth.year + a + 1, birth.month, birth.day))
  {
  }

  // ---------------------------------------------------------------
  // Records and the registry
  // ---------------------------------------------------------------

  /** A `PatientRecord` (its `created_at` clock reading is left out). */
  datatype PatientRecord = PatientRecord(patientId: string, uuid: string, birthDate: Date, sex: string, region: string, comuna: Option<string>)

  /** The dictionary `generate_patient` returns. */
  datatype PatientRow = PatientRow(patientId: string, uuid: string, birthDate: string, sex: string, region: string, comuna: Option<string>, age: int)

  function RecordFor(f: Foreign, prefix: string, p: PatientInput, counter: nat): PatientRecord
    requires f.parseDate(p.birthDate).Some?
  {
    PatientRecord(IdFor(f, prefix, p, counter), UuidFor(f, prefix, p, counter), f.parseDate(p.birthDate).value, p.sex, p.region, p.comuna)
  }

  function RowFor(f: Foreign, prefix: string, p: PatientInput, counter: nat, today: Date): PatientRow
    requires f.parseDate(p.birthDate).Some?
  {
    PatientRow(IdFor(f, prefix, p, counter), UuidFor(f, prefix, p, counter), p.birthDate, p.sex, p.region, p.comuna,
      Age(today, f.parseDate(p.birthDate).value))
  }

  /** Setting a key of a Python dictionary: a new key goes last, an
      existing one keeps its place. */
  function AddKey(order: seq<string>, k: string): (r: seq<string>)
    ensures k in r && forall x :: x in r <==> x in order || x == k
  {
    if k in order then order else order + [k]
  }

  predicate Distinct(s: seq<string>) {
    forall i, j | 0 <= i < j < |s| :: s[i] != s[j]
  }

  lemma {:induction false} DistinctCardinality(s: seq<string>)
    requires Distinct(s)
    ensures |set x | x in s| == |s|
  {
    if |s| > 0 {
      var t := s[..|s| - 1];
      assert Distinct(t);
      DistinctCardinality(t);
      assert (set x | x in s) == (set x | x in t) + {s[|s| - 1]};
      assert s[|s| - 1] !in t;
    }
  }

  /** A row of `get_registry` (its `created_at` is left out). */
  datatype RegistryRow = RegistryRow(patientId: string, uuid: string, birthDate: Date, sex: string, region: string, comuna: Option<string>)

  function RowOfRecord(r: PatientRecord): RegistryRow {
    RegistryRow(r.patientId, r.uuid, r.birthDate, r.sex, r.region, r.comuna)
  }

  /** `f"{i:02d}"` for 1..16. */
  const DefaultRegions: seq<string> := seq(16, i requires 0 <= i < 16 => PadNumber(i + 1, 2))

  // ---------------------------------------------------------------
  // Cohorts
  // ---------------------------------------------------------------

  /** The draws behind one cohort member. */
  datatype Demo = Demo(age: int, month: int, day: int, sex: string, region: string)

  /** The member decided by five uniform values: `randint(lo, hi + 1)`
      for the age, `randint(1, 13)`, `randint(1, 29)`, `random() <
      sex_ratio` for a woman, and `choice(regions)`. */
  function DemoFrom(u0: real, u1: real, u2: real, u3: real, u4: real,
                    ageLo: int, ageHi: int, sexRatio: real, regions: seq<string>): (d: Demo)
    requires 0.0 <= u0 < 1.0 && 0.0 <= u1 < 1.0 && 0.0 <= u2 < 1.0 && 0.0 <= u4 < 1.0
    requires ageLo <= ageHi && |regions| > 0
    ensures ageLo <= d.age <= ageHi && 1 <= d.month <= 12 && 1 <= d.day <= 28
    ensures d.region in regions && (d.sex == "F" || d.sex == "M")
  {
    Demo(ageLo + ScaledFloor(u0, ageHi + 1 - ageLo), 1 + ScaledFloor(u1, 12), 1 + ScaledFloor(u2, 28),
      if u3 < sexRatio then "F" else "M", regions[ScaledFloor(u4, |regions|)])
  }

  /** The member drawn from position `pos`. */
  function CohortDemo(ds: Draws, pos: nat, ageLo: int, ageHi: int, sexRatio: real, regions: seq<string>): (d: Demo)
    requires ageLo <= ageHi && |regions| > 0
  {
    DemoFrom(ds(pos), ds(pos + 1), ds(pos + 2), ds(pos + 3), ds(pos + 4), ageLo, ageHi, sexRatio, regions)
  }

  /** The birth date `f"{now.year - age}-{month:02d}-{day:02d}"` and the
      rest of what `generate_patient` is asked for. */
  function CohortInput(today: Date, d: Demo): PatientInput {
    PatientInput(IsoDate(today.year - d.age, d.month, d.day), d.sex, d.region, None)
  }

  /** Member `i` of a cohort whose draws start at `pos`. */
  function MemberInput(ds: Draws, pos: nat, i: nat, ageLo: int, ageHi: int, sexRatio: real, regions: seq<string>, today: Date): PatientInput
    requires ageLo <= ageHi && |regions| > 0
  {
    CohortInput(today, CohortDemo(ds, pos + 5 * i, ageLo, ageHi, sexRatio, regions))
  }

  lemma MemberInputAt(ds: Draws, pos: nat, i: nat, at: nat, ageLo: int, ageHi: int, sexRatio: real, regions: seq<string>, today: Date)
    requires ageLo <= ageHi && |regions| > 0 && at == pos + 5 * i
    ensures MemberInput(ds, pos, i, ageLo, ageHi, sexRatio, regions, today) == CohortInput(today, CohortDemo(ds, at, ageLo, ageHi, sexRatio, regions))
  {
    assert CohortDemo(ds, at, ageLo, ageHi, sexRatio, regions) == CohortDemo(ds, pos + 5 * i, ageLo, ageHi, sexRatio, regions);
  }

  /** The results of `g(0)`, ..., `g(n - 1)` in order, or `None` from
      the first that fails: a loop that stops at its first error. */
  function Collect<T>(g: nat -> Option<T>, n: nat): (r: Option<seq<T>>)
    ensures r.Some? ==> |r.value| == n
  {
    if n == 0 then Some([])
    else match Collect(g, n - 1)
      case None => None
      case Some(front) => if g(n - 1).None? then None else Some(front + [g(n - 1).value])
  }

  /** Item `i` of a collection that succeeds is the result of `g(i)`. */
  lemma {:induction false} CollectAt<T>(g: nat -> Option<T>, n: nat, i: nat)
    requires i < n && Collect(g, n).Some?
    ensures g(i).Some? && Collect(g, n).value[i] == g(i).value
  {
    if i < n - 1 {
      CollectAt(g, n - 1, i);
    }
  }

  /** A collection fails exactly when one of its steps fails. */
  lemma {:induction false} CollectFails<T>(g: nat -> Option<T>, n: nat)
    ensures Collect(g, n).None? <==> exists i | 0 <= i < n :: g(i).None?
  {
    if n > 0 {
      CollectFails(g, n - 1);
      if g(n - 1).None? {
        assert exists i | 0 <= i < n :: g(i).None?;
      }
    }
  }

  /** Member `i` of a cohort whose draws start at `pos` and whose counter
      starts at `c0`: `None` when its birth date does not parse. */
  function MemberRow(f: Foreign, prefix: string, ds: Draws, pos: nat, c0: nat,
                     ageLo: int, ageHi: int, sexRatio: real, regions: seq<string>, today: Date, i: nat): Option<PatientRow>
    requires ageLo <= ageHi && |regions| > 0
  {
    var p := MemberInput(ds, pos, i, ageLo, ageHi, sexRatio, regions, today);
    if f.parseDate(p.birthDate).None? then None else Some(RowFor(f, prefix, p, c0 + i + 1, today))
  }

  /** The first `n` members of a cohort, or `None` when a birth date does
      not parse. */
  function CohortRows(f: Foreign, prefix: string, ds: Draws, pos: nat, c0: nat, n: nat,
                      ageLo: int, ageHi: int, sexRatio: real, regions: seq<string>, today: Date): (r: Option<seq<PatientRow>>)
    requires ageLo <= ageHi && |regions| > 0
  {
    Collect((i: nat) => MemberRow(f, prefix, ds, pos, c0, ageLo, ageHi, sexRatio, regions, today, i), n)
  }

  /** One more turn of the cohort loop: the cohort of `k + 1` members
      is the cohort of `k` with member `k` appended, unless either fails. */
  lemma CohortRowsNext(f: Foreign, prefix: string, ds: Draws, pos: nat, c0: nat, k: nat,
                       ageLo: int, ageHi: int, sexRatio: real, regions: seq<string>, today: Date)
    requires ageLo <= ageHi && |regions| > 0
    ensures var front := CohortRows(f, prefix, ds, pos, c0, k, ageLo, ageHi, sexRatio, regions, today);
      var row := MemberRow(f, prefix, ds, pos, c0, ageLo, ageHi, sexRatio, regions, today, k);
      CohortRows(f, prefix, ds, pos, c0, k + 1, ageLo, ageHi, sexRatio, regions, today)
        == if front.None? || row.None? then None else Some(front.value + [row.value])
  {
  }

  /** A cohort that succeeds has `n` rows, row `i` being member `i`,
      registered when the counter reached `c0 + i + 1`. */
  lemma CohortRowAt(f: Foreign, prefix: string, ds: Draws, pos: nat, c0: nat, n: nat,
                    ageLo: int, ageHi: int, sexRatio: real, regions: seq<string>, today: Date, i: nat)
    requires ageLo <= ageHi && |regions| > 0 && i < n
    requires CohortRows(f, prefix, ds, pos, c0, n, ageLo, ageHi, sexRatio, regions, today).Some?
    ensures |CohortRows(f, prefix, ds, pos, c0, n, ageLo, ageHi, sexRatio, regions, today).value| == n
    ensures var p := MemberInput(ds, pos, i, ageLo, ageHi, sexRatio, regions, today);
      f.parseDate(p.birthDate).Some?
      && CohortRows(f, prefix, ds, pos, c0, n, ageLo, ageHi, sexRatio, regions, today).value[i] == RowFor(f, prefix, p, c0 + i + 1, today)
  {
    CollectAt((j: nat) => MemberRow(f, prefix, ds, pos, c0, ageLo, ageHi, sexRatio, regions, today, j), n, i);
  }

  /** A cohort fails exactly when some member's birth date does not
      parse. */
  lemma CohortRowsFail(f: Foreign, prefix: string, ds: Draws, pos: nat, c0: nat, n: nat,
                       ageLo: int, ageHi: int, sexRatio: real, regions: seq<string>, today: Date)
    requires ageLo <= ageHi && |regions| > 0
    ensures CohortRows(f, prefix, ds, pos, c0, n, ageLo, ageHi, sexRatio, regions, today).None?
      <==> exists i | 0 <= i < n :: MemberRow(f, prefix, ds, pos, c0, ageLo, ageHi, sexRatio, regions, today, i).None?
  {
    var g := (j: nat) => MemberRow(f, prefix, ds, pos, c0, ageLo, ageHi, sexRatio, regions, today, j);
    CollectFails(g, n);
    assert forall j: nat :: g(j) == MemberRow(f, prefix, ds, pos, c0, ageLo, ageHi, sexRatio, regions, today, j);
  }

  /** Birth dates built from an age leaving a four-digit year parse. */
  lemma MemberParses(f: Foreign, ds: Draws, pos: nat, i: nat, ageLo: int, ageHi: int, sexRatio: real, regions: seq<string>, today: Date)
    requires ageLo <= ageHi && |regions| > 0
    ensures ParsesIsoDates(f) && 1000 <= today.year - ageHi && today.year - ageLo <= 9999 ==>
      var d := CohortDemo(ds, pos + 5 * i, ageLo, ageHi, sexRatio, regions);
      f.parseDate(MemberInput(ds, pos, i, ageLo, ageHi, sexRatio, regions, today).birthDate) == Some(Date(today.year - d.age, d.month, d.day))
  {
  }

  /** The age reported for a member is the drawn age, or one less when
      the drawn birthday is still ahead this year. */
  lemma ReportedAge(f: Foreign, prefix: string, d: Demo, counter: nat, today: Date)
    requires ParsesIsoDates(f) && 1000 <= today.year - d.age <= 9999 && 1 <= d.month <= 12 && 1 <= d.day <= 28
    ensures f.parseDate(CohortInput(today, d).birthDate).Some?
    ensures RowFor(f, prefix, CohortInput(today, d), counter, today).age
      == d.age - (if BeforeInYear(today, d.month, d.day) then 1 else 0)
  {
  }

  /** So a cohort asked for ages 18 to 85 can report a 17-year-old: on
      1 January, a member drawn at 18 with a February birthday. */
  lemma CohortAgeBelowRange(f: Foreign, prefix: string, counter: nat)
    requires ParsesIsoDates(f)
    ensures var today := Date(2026, 1, 1);
      RowFor(f, prefix, CohortInput(today, Demo(18, 2, 10, "F", "01")), counter, today).age == 17
  {
    ReportedAge(f, prefix, Demo(18, 2, 10, "F", "01"), counter, Date(2026, 1, 1));
  }

  /** The birth year that makes the reported age the drawn one: a year
      earlier when the birthday is still ahead. */
  function IntendedBirthYear(today: Date, age: int, month: int, day: int): int {
    today.year - age - (if BeforeInYear(today, month, day) then 1 else 0)
  }

  /** With it every member's reported age is the drawn age, inside the
      requested range. */
  lemma IntendedBirthYearAge(today: Date, age: int, month: int, day: int)
    ensures Age(today, Date(IntendedBirthYear(today, age, month, day), month, day)) == age
  {
  }

  /** With a date parser that reads every ISO date with a four-digit
      year, a cohort whose birth years stay in 1000..9999 never fails. */
  lemma CohortRowsSucceed(f: Foreign, prefix: string, ds: Draws, pos: nat, c0: nat, n: nat,
                          ageLo: int, ageHi: int, sexRatio: real, regions: seq<string>, today: Date)
    requires ageLo <= ageHi && |regions| > 0
    requires ParsesIsoDates(f) && 1000 <= today.year - ageHi && today.year - ageLo <= 9999
    ensures CohortRows(f, prefix, ds, pos, c0, n, ageLo, ageHi, sexRatio, regions, today).Some?
  {
    CohortRowsFail(f, prefix, ds, pos, c0, n, ageLo, ageHi, sexRatio, regions, today);
    forall i | 0 <= i < n
      ensures MemberRow(f, prefix, ds, pos, c0, ageLo, ageHi, sexRatio, regions, today, i).Some?
    {
      MemberParses(f, ds, pos, i, ageLo, ageHi, sexRatio, regions, today);
    }
  }

  /** Every reported age is in the requested range or one below it. */
  lemma CohortAges(f: Foreign, prefix: string, ds: Draws, pos: nat, c0: nat, n: nat,
                   ageLo: int, ageHi: int, sexRatio: real, regions: seq<string>, today: Date, i: nat)
    requires ageLo <= ageHi && |regions| > 0 && i < n
    requires ParsesIsoDates(f) && 1000 <= today.year - ageHi && today.year - ageLo <= 9999
    ensures CohortRows(f, prefix, ds, pos, c0, n, ageLo, ageHi, sexRatio, regions, today).Some?
    ensures ageLo - 1 <= CohortRows(f, prefix, ds, pos, c0, n, ageLo, ageHi, sexRatio, regions, today).value[i].age <= ageHi
  {
    CohortRowsSucceed(f, prefix, ds, pos, c0, n, ageLo, ageHi, sexRatio, regions, today);
    CohortRowAt(f, prefix, ds, pos, c0, n, ageLo, ageHi, sexRatio, regions, today, i);
    var d := CohortDemo(ds, pos + 5 * i, ageLo, ageHi, sexRatio, regions);
    ReportedAge(f, prefix, d, c0 + i + 1, today);
  }

  // ---------------------------------------------------------------
  // Encounters of a cohort
  // ---------------------------------------------------------------

  const CohortEncounterTypes: seq<string> := ["ambulatory", "emergency", "inpatient", "telehealth"]
  const CohortEncounterWeights: seq<real> := [0.6, 0.15, 0.1, 0.15]

  lemma CohortWeights()
    ensures Probabilities(CohortEncounterWeights)
  {
    assert Cum(CohortEncounterWeights, 4) == 1.0;
  }

  datatype CohortEncounter = CohortEncounter(patientId: string, encounterId: string, daysAgo: int, encounterType: string)

  /** `s[-6:]`. */
  function Last6(s: string): (r: string)
    ensures |r| == Min(6, |s|) && r <= s[|s| - |r|..]
  {
    if |s| >= 6 then s[|s| - 6..] else s
  }

  /** `f"ENC-{patient_id[-6:]}-{i+1:04d}"`. */
  function CohortEncounterId(patientId: string, i: nat): string {
    "ENC-" + Last6(patientId) + "-" + PadNumber(i + 1, 4)
  }

  /** What the two draws of one encounter decide: a day offset from
      `randint(0, 365 * 5)` and the index of a weighted type. */
  function DrawPair(u1: real, u2: real): (d: (nat, nat))
    requires 0.0 <= u1 < 1.0 && 0.0 <= u2 < 1.0
    ensures d.0 < 365 * 5 && d.1 < |CohortEncounterTypes|
  {
    CohortWeights();
    (ScaledFloor(u1, 365 * 5), WeightedIndex(CohortEncounterWeights, u2))
  }

  /** `randint(lo, hi + 1)` encounters; a negative count makes none. */
  function EncounterCount(u: real, lo: int, hi: int): (c: nat)
    requires 0.0 <= u < 1.0 && lo <= hi
    ensures Max(lo, 0) <= c <= Max(hi, 0)
  {
    var drawn := lo + ScaledFloor(u, hi + 1 - lo);
    if drawn < 0 then 0 else drawn
  }

  /** The draws of a patient's first `n` encounters, two per encounter
      from position `start`. */
  function EncounterDraws(ds: Draws, start: nat, n: nat): (r: seq<(nat, nat)>)
    ensures |r| == n
    ensures forall j | 0 <= j < n :: r[j].0 < 365 * 5 && r[j].1 < |CohortEncounterTypes|
  {
    if n == 0 then []
    else EncounterDraws(ds, start, n - 1) + [DrawPair(ds(start + 2 * (n - 1)), ds(start + 2 * (n - 1) + 1))]
  }

  lemma EncounterDrawsExtend(ds: Draws, start: nat, n: nat, d: (nat, nat))
    requires d == DrawPair(ds(start + 2 * n), ds(start + 2 * n + 1))
    ensures EncounterDraws(ds, start, n + 1) == EncounterDraws(ds, start, n) + [d]
  {
  }

  /** The encounter records of a patient made from their draws: the
      `j`-th is numbered `j + 1`. */
  function Render(patientId: string, draws: seq<(nat, nat)>): (block: seq<CohortEncounter>)
    requires forall j | 0 <= j < |draws| :: draws[j].1 < |CohortEncounterTypes|
    ensures |block| == |draws|
  {
    seq(|draws|, j requires 0 <= j < |draws| =>
      CohortEncounter(patientId, CohortEncounterId(patientId, j), draws[j].0, CohortEncounterTypes[draws[j].1]))
  }

  /** One patient's encounters from position `pos`, and where the next
      patient's draws start. */
  function PatientBlock(ds: Draws, pos: nat, patientId: string, lo: int, hi: int): (seq<CohortEncounter>, nat)
    requires lo <= hi
  {
    var count := EncounterCount(ds(pos), lo, hi);
    (Render(patientId, EncounterDraws(ds, pos + 1, count)), pos + 1 + 2 * count)
  }

  lemma PatientBlockUnfold(ds: Draws, pos: nat, patientId: string, lo: int, hi: int)
    requires lo <= hi
    ensures var count := EncounterCount(ds(pos), lo, hi);
      PatientBlock(ds, pos, patientId, lo, hi) == (Render(patientId, EncounterDraws(ds, pos + 1, count)), pos + 1 + 2 * count)
  {
  }

  /** The encounters of the patients `ids` in order. */
  function CohortEncounters(ds: Draws, pos: nat, ids: seq<string>, lo: int, hi: int): (seq<CohortEncounter>, nat)
    requires lo <= hi
    decreases |ids|
  {
    if |ids| == 0 then ([], pos)
    else
      var (front, next) := CohortEncounters(ds, pos, ids[..|ids| - 1], lo, hi);
      var (block, after) := PatientBlock(ds, next, ids[|ids| - 1], lo, hi);
      (front + block, after)
  }

  lemma CohortEncountersExtend(ds: Draws, pos: nat, ids: seq<string>, k: nat, lo: int, hi: int)
    requires lo <= hi && k < |ids|
    ensures var (front, next) := CohortEncounters(ds, pos, ids[..k], lo, hi);
      var (block, after) := PatientBlock(ds, next, ids[k], lo, hi);
      CohortEncounters(ds, pos, ids[..k + 1], lo, hi) == (front + block, after)
  {
    assert ids[..k + 1][..k] == ids[..k];
  }

  function IdsOf(rows: seq<PatientRow>): (ids: seq<string>)
    ensures |ids| == |rows|
  {
    seq(|rows|, i requires 0 <= i < |rows| => rows[i].patientId)
  }

  /** Every patient gets between `lo` and `hi` encounters (none when the
      bound is negative), numbered from 1, each with the patient's id, a
      day offset under five years and one of the four types. */
  lemma PatientBlockShape(ds: Draws, pos: nat, patientId: string, lo: int, hi: int)
    requires lo <= hi
    ensures var block := PatientBlock(ds, pos, patientId, lo, hi).0;
      Max(lo, 0) <= |block| <= Max(hi, 0)
      && (forall j | 0 <= j < |block| :: block[j].patientId == patientId && block[j].encounterId == CohortEncounterId(patientId, j))
      && (forall j | 0 <= j < |block| :: 0 <= block[j].daysAgo < 365 * 5 && block[j].encounterType in CohortEncounterTypes)
  {
  }

  /** A patient's encounter ids are distinct. */
  lemma CohortEncounterIdsDistinct(patientId: string, i: nat, j: nat)
    requires CohortEncounterId(patientId, i) == CohortEncounterId(patientId, j)
    ensures i == j
  {
    PrefixedIdInjective("ENC-" + Last6(patientId) + "-", i + 1, j + 1, 4);
  }

  /** For a default-shaped patient id, the encounter id carries the
      patient's hash. */
  lemma CohortEncounterIdCarriesHash(f: Foreign, p: PatientInput, counter: nat, i: nat)
    requires |p.birthDate| >= 4 && |p.sex| == 1 && |p.region| == 2
    ensures var id := IdFor(f, "SHDB", p, counter);
      CohortEncounterId(id, i) == "ENC-" + Hash6(f.sha256(HashInput(p.birthDate, p.sex, p.region, counter))) + "-" + PadNumber(i + 1, 4)
  {
    DefaultIdShape(f, p, counter);
  }

  /** A row of the left merge: the patient, with one of its encounters or
      with none. */
  datatype MergedRow = MergedRow(patient: PatientRow, encounter: Option<CohortEncounter>)

  datatype Cohort = Patients(rows: seq<PatientRow>) | WithEncounters(merged: seq<MergedRow>)

  function MergedFor(row: PatientRow, encounters: seq<CohortEncounter>): (m: seq<MergedRow>)
    ensures |m| >= 1
  {
    var matches := Filter(encounters, (e: CohortEncounter) => e.patientId == row.patientId);
    if |matches| == 0 then [MergedRow(row, None)]
    else seq(|matches|, i requires 0 <= i < |matches| => MergedRow(row, Some(matches[i])))
  }

  /** `df.merge(enc_df, on="patient_id", how="left")`: each patient in
      order, once per matching encounter, or once without one. */
  function LeftMerge(rows: seq<PatientRow>, encounters: seq<CohortEncounter>): seq<MergedRow>
    decreases |rows|
  {
    if |rows| == 0 then [] else MergedFor(rows[0], encounters) + LeftMerge(rows[1..], encounters)
  }

  /** The merge keeps every patient, at least once, and pairs patients
      only with their own encounters. */
  lemma {:induction false} LeftMergeKeepsPatients(rows: seq<PatientRow>, encounters: seq<CohortEncounter>)
    ensures |LeftMerge(rows, encounters)| >= |rows|
    ensures forall m | m in LeftMerge(rows, encounters) :: m.patient in rows
    ensures forall m | m in LeftMerge(rows, encounters) ::
      (m.encounter.Some? ==> m.encounter.value in encounters && m.encounter.value.patientId == m.patient.patientId)
    decreases |rows|
  {
    if |rows| > 0 {
      LeftMergeKeepsPatients(rows[1..], encounters);
      var keep := (e: CohortEncounter) => e.patientId == rows[0].patientId;
      forall m | m in MergedFor(rows[0], encounters)
        ensures m.patient in rows
        ensures m.encounter.Some? ==> m.encounter.value in encounters && m.encounter.value.patientId == m.patient.patientId
      {
        if m.encounter.Some? {
          FilterMembership(encounters, keep, m.encounter.value);
        }
      }
    }
  }

  class PatientIdGenerator {
    const np: Generator
    const foreign: Foreign
    const prefix: string
    var counter: nat
    var registry: map<string, PatientRecord>
    /** The registry's keys in the order they were first set. */
    var order: seq<string>

    ghost predicate Valid()
      reads this
    {
      Distinct(order)
      && (forall k :: k in registry <==> k in order)
      && (forall k | k in registry :: registry[k].patientId == k)
    }

    constructor (seed: int, prefix: string, np: Generator, foreign: Foreign)
      modifies np
      ensures Valid() && this.np == np && this.foreign == foreign && this.prefix == prefix
      ensures counter == 0 && registry == map[] && order == []
      ensures np.seed == seed && np.calls == 0
    {
      this.np := np;
      this.foreign := foreign;
      this.prefix := prefix;
      counter := 0;
      registry := map[];
      order := [];
      np.Seed(seed);
    }

    /** `generate_patient`: the counter goes up first, then the identifier
        is made and registered, overwriting a patient with the same
        identifier; a birth date that does not parse raises after the
        counter has moved and before anything is registered. */
    method GeneratePatient(p: PatientInput, today: Date) returns (r: Result<PatientRow, string>)
      requires Valid()
      modifies this
      ensures Valid() && counter == old(counter) + 1
      ensures foreign.parseDate(p.birthDate).None? ==>
        r == Failure("time data does not match format '%Y-%m-%d'") && registry == old(registry) && order == old(order)
      ensures foreign.parseDate(p.birthDate).Some? ==>
        r == Success(RowFor(foreign, prefix, p, counter, today))
        && registry == old(registry)[IdFor(foreign, prefix, p, counter) := RecordFor(foreign, prefix, p, counter)]
        && order == AddKey(old(order), IdFor(foreign, prefix, p, counter))
    {
      counter := counter + 1;
      var hash := Hash6(foreign.sha256(HashInput(p.birthDate, p.sex, p.region, counter)));
      var id := MakeId(prefix, p.birthDate, p.sex, p.region, hash);
      var uuid := foreign.uuid5(id + "-" + NatToString(counter));
      var parsed := foreign.parseDate(p.birthDate);
      if parsed.None? {
        return Failure("time data does not match format '%Y-%m-%d'");
      }
      var record := PatientRecord(id, uuid, parsed.value, p.sex, p.region, p.comuna);
      if id !in registry {
        order := order + [id];
      }
      registry := registry[id := record];
      r := Success(PatientRow(id, uuid, p.birthDate, p.sex, p.region, p.comuna, Age(today, parsed.value)));
    }

    /** The rows `get_registry` returns, in the registry's order. */
    function RegistryRows(): (rows: seq<RegistryRow>)
      requires Valid()
      reads this
      ensures |rows| == |order|
    {
      var keys, entries := order, registry;
      seq(|keys|, i requires 0 <= i < |keys| => RowOfRecord(entries[keys[i]]))
    }

    /** `get_registry`: one row per registry entry. */
    method GetRegistry() returns (rows: seq<RegistryRow>)
      requires Valid()
      ensures rows == RegistryRows()
    {
      rows := [];
      for i := 0 to |order|
        invariant rows == RegistryRows()[..i]
      {
        rows := rows + [RowOfRecord(registry[order[i]])];
      }
    }

    /** There are as many registry rows as registered identifiers, each
        row holds the record registered under its identifier, and an
        identifier registered twice has one row: the later record. */
    lemma RegistryRowsAreEntries()
      requires Valid()
      ensures |RegistryRows()| == |registry.Keys|
      ensures forall i | 0 <= i < |order| :: RegistryRows()[i].patientId == order[i]
      ensures forall i | 0 <= i < |order| :: RegistryRows()[i] == RowOfRecord(registry[order[i]])
    {
      DistinctCardinality(order);
      assert registry.Keys == set x | x in order;
    }

    /** The five draws behind one cohort member: `randint(lo, hi + 1)`
        for the age, a month, a day, the sex and `choice(regions)`; numpy
        raises on an empty age range (before drawing) and on an empty
        region list (after four draws). */
    method DrawDemo(ageLo: int, ageHi: int, sexRatio: real, regions: seq<string>, ghost ds: Draws, ghost pos: nat)
      returns (r: Result<Demo, string>)
      requires ds == np.streams(np.seed) && np.calls == pos
      modifies np
      ensures np.seed == old(np.seed)
      ensures ageLo > ageHi ==> r == Failure("low >= high") && np.calls == pos
      ensures ageLo <= ageHi && |regions| == 0 ==> r.Failure?
      ensures ageLo <= ageHi && |regions| > 0 ==>
        r == Success(CohortDemo(ds, pos, ageLo, ageHi, sexRatio, regions)) && np.calls == pos + 5
    {
      if ageLo > ageHi {
        return Failure("low >= high");
      }
      var ageDraw := np.Random();
      assert ageDraw == ds(pos);
      var monthDraw := np.Random();
      assert monthDraw == ds(pos + 1);
      var dayDraw := np.Random();
      assert dayDraw == ds(pos + 2);
      var sexDraw := np.Random();
      assert sexDraw == ds(pos + 3);
      if |regions| == 0 {
        return Failure("a cannot be empty unless no samples are taken");
      }
      var regionDraw := np.Random();
      assert regionDraw == ds(pos + 4);
      r := Success(DemoFrom(ageDraw, monthDraw, dayDraw, sexDraw, regionDraw, ageLo, ageHi, sexRatio, regions));
    }

    /** One turn of `generate_cohort`'s loop: member `k` of the cohort. */
    method NextMember(ageLo: int, ageHi: int, sexRatio: real, regions: seq<string>, today: Date,
                      ghost k: nat, ghost ds: Draws, ghost pos0: nat, ghost c0: nat)
      returns (r: Result<PatientRow, string>)
      requires Valid() && ds == np.streams(np.seed) && np.calls == pos0 + 5 * k && counter == c0 + k
      modifies this, np
      ensures Valid() && np.seed == old(np.seed) && old(registry).Keys <= registry.Keys
      ensures !(ageLo <= ageHi && |regions| > 0) ==> r.Failure?
      ensures ageLo <= ageHi && |regions| > 0 ==> np.calls == pos0 + 5 * (k + 1) && counter == c0 + k + 1
      ensures ageLo <= ageHi && |regions| > 0 ==>
        var row := MemberRow(foreign, prefix, ds, pos0, c0, ageLo, ageHi, sexRatio, regions, today, k);
        (r.Failure? <==> row.None?) && (r.Success? ==> r.value == row.value)
      ensures r.Success? ==> r.value.patientId in registry
    {
      ghost var at := pos0 + 5 * k;
      var demo := DrawDemo(ageLo, ageHi, sexRatio, regions, ds, at);
      if demo.Failure? {
        return Failure(demo.error);
      }
      MemberInputAt(ds, pos0, k, at, ageLo, ageHi, sexRatio, regions, today);
      var p := CohortInput(today, demo.value);
      r := GeneratePatient(p, today);
    }

    /** One turn of the loop of `generate_cohort`, from the `k` members
        made so far: the next member is appended, or the loop stops with
        the error that the rest of the cohort cannot avoid. */
    method CohortStep(rows: seq<PatientRow>, n: int, ageLo: int, ageHi: int, sexRatio: real, regions: seq<string>, today: Date,
                      ghost ds: Draws, ghost pos0: nat, ghost c0: nat)
      returns (r: Result<seq<PatientRow>, string>)
      requires Valid() && ds == np.streams(np.seed) && |rows| < n
      requires np.calls == pos0 + 5 * |rows| && counter == c0 + |rows|
      requires |rows| > 0 ==> ageLo <= ageHi && |regions| > 0
      requires forall i | 0 <= i < |rows| :: rows[i].patientId in registry
      requires ageLo <= ageHi && |regions| > 0 ==>
        CohortRows(foreign, prefix, ds, pos0, c0, |rows|, ageLo, ageHi, sexRatio, regions, today) == Some(rows)
      modifies this, np
      ensures Valid() && np.seed == old(np.seed) && old(registry).Keys <= registry.Keys
      ensures r.Failure? && ageLo <= ageHi && |regions| > 0 ==>
        CohortRows(foreign, prefix, ds, pos0, c0, n, ageLo, ageHi, sexRatio, regions, today).None?
      ensures r.Success? ==> ageLo <= ageHi && |regions| > 0 && |r.value| == |rows| + 1
      ensures r.Success? ==> counter == c0 + |r.value| && np.calls == pos0 + 5 * |r.value|
      ensures r.Success? ==>
        CohortRows(foreign, prefix, ds, pos0, c0, |r.value|, ageLo, ageHi, sexRatio, regions, today) == Some(r.value)
      ensures r.Success? ==> forall i | 0 <= i < |r.value| :: r.value[i].patientId in registry
    {
      ghost var k := |rows|;
      var row := NextMember(ageLo, ageHi, sexRatio, regions, today, k, ds, pos0, c0);
      if ageLo <= ageHi && |regions| > 0 {
        CohortRowsNext(foreign, prefix, ds, pos0, c0, k, ageLo, ageHi, sexRatio, regions, today);
      }
      if row.Failure? {
        if ageLo <= ageHi && |regions| > 0 {
          ghost var k1 := k + 1;
          CohortRowsFail(foreign, prefix, ds, pos0, c0, k1, ageLo, ageHi, sexRatio, regions, today);
          CohortRowsFail(foreign, prefix, ds, pos0, c0, n, ageLo, ageHi, sexRatio, regions, today);
        }
        return Failure(row.error);
      }
      r := Success(rows + [row.value]);
    }

    /** The loop of `generate_cohort`: `n` members, each registered. */
    method CohortPatients(n: int, ageLo: int, ageHi: int, sexRatio: real, regions: seq<string>, today: Date)
      returns (r: Result<seq<PatientRow>, string>)
      requires Valid()
      modifies this, np
      ensures Valid() && np.seed == old(np.seed) && old(registry).Keys <= registry.Keys
      ensures n <= 0 ==> r == Success([]) && counter == old(counter) && np.calls == old(np.calls)
      ensures n > 0 && !(ageLo <= ageHi && |regions| > 0) ==> r.Failure?
      ensures n > 0 && ageLo <= ageHi && |regions| > 0 ==>
        var rows := CohortRows(foreign, prefix, np.streams(np.seed), old(np.calls), old(counter), n, ageLo, ageHi, sexRatio, regions, today);
        (r.Success? <==> rows.Some?) && (r.Success? ==> r.value == rows.value)
      ensures r.Success? ==> |r.value| == Max(n, 0) && counter == old(counter) + |r.value| && np.calls == old(np.calls) + 5 * |r.value|
      ensures r.Success? ==> forall i | 0 <= i < |r.value| :: r.value[i].patientId in registry
    {
      ghost var ds, pos0, c0 := np.streams(np.seed), np.calls, counter;
      var rows: seq<PatientRow> := [];
      while |rows| < n
        invariant |rows| <= n || |rows| == 0
        invariant Valid() && np.seed == old(np.seed) && ds == np.streams(np.seed) && old(registry).Keys <= registry.Keys
        invariant counter == c0 + |rows| && np.calls == pos0 + 5 * |rows|
        invariant |rows| > 0 ==> ageLo <= ageHi && |regions| > 0
        invariant forall i | 0 <= i < |rows| :: rows[i].patientId in registry
        invariant ageLo <= ageHi && |regions| > 0 ==>
          CohortRows(foreign, prefix, ds, pos0, c0, |rows|, ageLo, ageHi, sexRatio, regions, today) == Some(rows)
        decreases n - |rows|
      {
        var next := CohortStep(rows, n, ageLo, ageHi, sexRatio, regions, today, ds, pos0, c0);
        if next.Failure? {
          return Failure(next.error);
        }
        rows := next.value;
      }
      r := Success(rows);
    }

    /** One encounter's draws in `_add_encounters`: a day offset from
        `randint(0, 365 * 5)`, then a weighted type. */
    method NextDraws(ghost ds: Draws, ghost start: nat, ghost i: nat) returns (d: (nat, nat))
      requires ds == np.streams(np.seed) && np.calls == start + 2 * i
      modifies np
      ensures d == DrawPair(ds(start + 2 * i), ds(start + 2 * i + 1))
      ensures np.seed == old(np.seed) && np.calls == start + 2 * (i + 1)
    {
      var dayDraw := np.Random();
      var kindDraw := np.Random();
      d := DrawPair(dayDraw, kindDraw);
    }

    /** The draws of a patient's `count` encounters, two each. */
    method DrawEncounters(count: nat, ghost ds: Draws, ghost start: nat) returns (draws: seq<(nat, nat)>)
      requires ds == np.streams(np.seed) && np.calls == start
      modifies np
      ensures draws == EncounterDraws(ds, start, count)
      ensures np.seed == old(np.seed) && np.calls == start + 2 * count
    {
      draws := [];
      var i := 0;
      while i < count
        invariant 0 <= i <= count && np.seed == old(np.seed) && ds == np.streams(np.seed) && np.calls == start + 2 * i
        invariant draws == EncounterDraws(ds, start, i)
      {
        var d := NextDraws(ds, start, i);
        EncounterDrawsExtend(ds, start, i, d);
        draws := draws + [d];
        i := i + 1;
      }
    }

    /** One patient's encounters in `_add_encounters`: a count from
        `randint(lo, hi + 1)`, then a day offset and a type for each. */
    method EncountersFor(patientId: string, lo: int, hi: int, ghost ds: Draws, ghost pos: nat) returns (block: seq<CohortEncounter>)
      requires lo <= hi && ds == np.streams(np.seed) && np.calls == pos
      modifies np
      ensures (block, np.calls) == PatientBlock(ds, pos, patientId, lo, hi)
      ensures np.seed == old(np.seed)
    {
      var countDraw := np.Random();
      var count := EncounterCount(countDraw, lo, hi);
      assert count == EncounterCount(ds(pos), lo, hi);
      ghost var start := pos + 1;
      var draws := DrawEncounters(count, ds, start);
      block := Render(patientId, draws);
      PatientBlockUnfold(ds, pos, patientId, lo, hi);
    }

    /** The loop of `_add_encounters`: every patient's encounters in
        order. */
    method AllEncounters(ids: seq<string>, lo: int, hi: int, ghost ds: Draws, ghost pos: nat) returns (encounters: seq<CohortEncounter>)
      requires lo <= hi && ds == np.streams(np.seed) && np.calls == pos
      modifies np
      ensures (encounters, np.calls) == CohortEncounters(ds, pos, ids, lo, hi)
      ensures np.seed == old(np.seed)
    {
      encounters := [];
      var k := 0;
      while k < |ids|
        invariant 0 <= k <= |ids| && np.seed == old(np.seed) && ds == np.streams(np.seed)
        invariant (encounters, np.calls) == CohortEncounters(ds, pos, ids[..k], lo, hi)
      {
        CohortEncountersExtend(ds, pos, ids, k, lo, hi);
        ghost var at := np.calls;
        var block := EncountersFor(ids[k], lo, hi, ds, at);
        encounters := encounters + block;
        k := k + 1;
      }
      assert ids[..|ids|] == ids;
    }

    /** `_add_encounters`: the encounters of every patient in order, then
        a left merge on `patient_id`, which raises `KeyError` when there
        are no encounters at all. */
    method AddEncounters(rows: seq<PatientRow>, lo: int, hi: int) returns (r: Result<seq<MergedRow>, string>)
      modifies np
      ensures np.seed == old(np.seed)
      ensures |rows| > 0 && lo > hi ==> r == Failure("low >= high") && np.calls == old(np.calls)
      ensures |rows| == 0 ==> r == Failure("KeyError: 'patient_id'") && np.calls == old(np.calls)
      ensures r.Success? ==> |r.value| >= |rows|
      ensures |rows| > 0 && lo <= hi ==>
        var (encounters, next) := CohortEncounters(np.streams(np.seed), old(np.calls), IdsOf(rows), lo, hi);
        np.calls == next
        && (|encounters| == 0 ==> r == Failure("KeyError: 'patient_id'"))
        && (|encounters| > 0 ==> r == Success(LeftMerge(rows, encounters)))
    {
      if |rows| == 0 {
        return Failure("KeyError: 'patient_id'");
      }
      if lo > hi {
        return Failure("low >= high");
      }
      ghost var ds, pos := np.streams(np.seed), np.calls;
      var encounters := AllEncounters(IdsOf(rows), lo, hi, ds, pos);
      if |encounters| == 0 {
        return Failure("KeyError: 'patient_id'");
      }
      LeftMergeKeepsPatients(rows, encounters);
      r := Success(LeftMerge(rows, encounters));
    }

    /** `generate_cohort`: the members, then their encounters when asked
        for; `None` regions mean "01" to "16". */
    method GenerateCohort(n: int, ageRange: (int, int), sexRatio: real, regions: Option<seq<string>>,
                          withEncounters: bool, encountersRange: (int, int), today: Date)
      returns (r: Result<Cohort, string>)
      requires Valid()
      modifies this, np
      ensures Valid() && np.seed == old(np.seed)
      ensures r.Success? && !withEncounters ==> r.value.Patients? && |r.value.rows| == Max(n, 0)
      ensures r.Success? && withEncounters ==> r.value.WithEncounters? && |r.value.merged| >= Max(n, 0)
    {
      var regs := if regions.None? then DefaultRegions else regions.value;
      var patients := CohortPatients(n, ageRange.0, ageRange.1, sexRatio, regs, today);
      if patients.Failure? {
        return Failure(patients.error);
      }
      if !withEncounters {
        return Success(Patients(patients.value));
      }
      var merged := AddEncounters(patients.value, encountersRange.0, encountersRange.1);
      if merged.Failure? {
        return Failure(merged.error);
      }
      r := Success(WithEncounters(merged.value));
    }
  }
}
