# Synthetic health database generators in Dafny

This project models the generation engine of a synthetic health-data
application, which produces tabular datasets of Chilean patients,
encounters, diagnoses and epidemics for teaching and testing, reproducible
from a seed except for the vital signs' reference values (see "## Left out").
It covers two halves.

The TypeScript frontend (`frontend/src/generators`):
- `Stream` is the Mulberry32 generator: 32-bit state with wrap-around, one output per call in [0, 1).
- `Sampling`, `Weighted` and `Text` are the samplers and formatting helpers: integers, picks, weighted picks, Box-Muller normals, exponentials, Knuth's Poisson sampler, dates and padded numbers.
- The domain generators each have a module:
  - demographics, with population-weighted communes and FONASA/ISAPRE coverage;
  - CIE-10 diagnoses, encounters, conditions, procedures, medications, observations, vitals, immunizations and organizations;
  - the SIR and SEIR models;
  - the branching outbreak;
  - weekly surveillance;
  - survival, case-control and the four regression datasets.
- `Registry` is the registry behind `generate`.
- `Records` and `Joins` are the join layer, which builds 1:1 and 1:N related tables and flattens them.
- The catalog tables (`Comunas`, `GesPathologies`, `LabTests`, `VitalRanges`) carry the lookup functions the generators use.

The Python backend (`backend/app`):
- `NumpyRandom` models numpy's process-wide generator as a seeded stream with a call counter.
- The generators drawing from it each have a module:
  - the CIE-10 error injector and demographics generator (`CodeErrors`);
  - the patient identifier registry and cohorts (`PatientIds`);
  - the linked encounter and laboratory generators (`ClinicalEncounters`, `LabResults`);
  - the alert system and propagated outbreak delays (`SurveillanceBackend`);
  - the numpy SIR, SEIR and Kaplan-Meier generators (`NumpyEpidemics`);
  - the base generator's validation (`Validation`).

How the model is built:
- Each generator that loops is a method proved against a specification function of the stream's draws. The specification function says which draws decide which field. Lemmas then state what every record satisfies: ranges, identifiers, links to parent keys, conservation laws, and the exact conditions under which the source raises.
- Objects whose fields the source updates in place are classes: the Mulberry32 state, numpy's generator, and the counters and registries of the Python generators.
- Pure code is functions and lemmas.

Where the system's design description and its code differ, the model follows the code:
- 1:N children are seeded with `seed + recordIndex`.
- Multi-table children are seeded with `seed` plus a draw from the parent stream.
- The numpy SIR and SEIR models clamp nothing.
- The frontend SIR and SEIR models clamp each flow to its source compartment.

## Model

| member | source | states |
|---|---|---|
| Stream.Output | frontend/src/generators/utils.ts:10 | the tempered word, taken unsigned and divided by 2^32, lies in [0, 1 - 2^-32] |
| Stream.Draw | frontend/src/generators/utils.ts:5-11 | the value of call number k of the stream seeded with `seed` lies in [0, 1 - 2^-32] |
| Stream.DrawDependsOnSeedModulo | frontend/src/generators/utils.ts:7 | the state is a 32-bit word, so seeds equal modulo 2^32 yield the same sequence |
| Stream.StateDependsOnSeedModulo | frontend/src/generators/utils.ts:7 | the state after k increments depends only on the seed modulo 2^32 |
| Stream.Mulberry32.constructor | frontend/src/generators/utils.ts:5 | a fresh closure starts at call 0 of the sequence fixed by its seed |
| Stream.Mulberry32.Next | frontend/src/generators/utils.ts:6-11 | one call returns the next value of the seed's sequence, in [0, 1), and advances the call count by one |
| Text.Hash | frontend/src/generators/utils.ts:17-24 | the hash is always exactly six upper-case hexadecimal characters |
| Text.ComputeHash | frontend/src/generators/utils.ts:17-24 | the loop over the code units computes `Hash(s)` |
| Text.HashStepWraps | frontend/src/generators/utils.ts:20-21 | `(h << 5) - h + c` followed by a bitwise or with 0 is 31 * h + c wrapped to a signed 32-bit integer |
| Text.Wrap32 | frontend/src/generators/utils.ts:21 | a bitwise or with 0 gives a value that differs from x by a multiple of 2^32 |
| Text.CharCodeUnits | frontend/src/generators/utils.ts:20 | `charCodeAt` yields one or two UTF-16 code units per character, each below 0x10000 |
| Text.CodeUnits | frontend/src/generators/utils.ts:19-20 | the loop reads at least one code unit per character |
| Text.NatToHex | frontend/src/generators/utils.ts:23 | `toString(16).toUpperCase()` is a non-empty string of upper-case hex digits |
| Text.PatientId | frontend/src/generators/utils.ts:29-36 | the id is `SHDB-`, the year, sex and region separated by dashes, then a six-character hex hash, with exactly that length |
| Text.PadNumber | frontend/src/generators/utils.ts:41-43 | a non-negative number padded is all digits, as long as the wider of its rendering and the width |
| Text.PadStartShape | frontend/src/generators/utils.ts:42 | `padStart` leaves a string at least `width` long alone and otherwise prefixes zeros up to exactly `width` |
| Text.ParsePadNumber | frontend/src/generators/utils.ts:41-43 | a padded non-negative number reads back as itself |
| Text.PadNumberInjective | frontend/src/generators/utils.ts:41-43 | distinct numbers padded to the same width are distinct strings |
| Text.PrefixedIdInjective | frontend/src/generators/utils.ts:41-43 | a prefix followed by a padded number is distinct for distinct numbers |
| Text.PrefixedIdReadsBack | frontend/src/generators/utils.ts:41-43 | a prefixed padded id is the prefix, then at least `width` digits that read back as the number |
| Text.ParseNatToString | frontend/src/generators/utils.ts:42 | `String(n)` of a natural number reads back as n |
| Text.NatToStringInjective | frontend/src/generators/utils.ts:42 | distinct numbers render as distinct strings |
| Sampling.IntFromDraw | frontend/src/generators/utils.ts:64-66 | `randomInt(min, max)` lies in [min, max] whenever min <= max |
| Sampling.PickIndex | frontend/src/generators/utils.ts:58 | the index `floor(u * length)` is a valid index of a non-empty array |
| Sampling.PickFromDraw | frontend/src/generators/utils.ts:57-59 | `randomPick` returns an element of the array |
| Sampling.MonthFromDraw | frontend/src/generators/utils.ts:49 | the month lies in 1..12 |
| Sampling.DayFromDraw | frontend/src/generators/utils.ts:50 | the day lies in 1..28 |
| Sampling.DateTextFields | frontend/src/generators/utils.ts:51 | the date text is the year, a dash, two digits reading back as the month, a dash, two digits reading back as the day |
| Sampling.DrawnDateInYear | frontend/src/generators/utils.ts:48-52 | `randomDate(rng, year)` always yields a valid YYYY-MM-DD date of that year |
| Sampling.ProductDecays | frontend/src/generators/utils.ts:92-95 | a running product of n draws never exceeds (1 - 2^-32)^n |
| Sampling.DecayBelowLimit | frontend/src/generators/utils.ts:95 | while the product stays above `L`, fewer than a bound fixed by `L` draws have been taken: the loop terminates |
| Sampling.PoissonLoop | frontend/src/generators/utils.ts:92-96 | the do-while loop returns at least k - 1 and leaves the stream one draw past the sample |
| Sampling.PoissonFromDraws | frontend/src/generators/utils.ts:88-97 | `randomPoisson` is a non-negative count and takes exactly sample + 1 draws |
| Sampling.PoissonBelow | frontend/src/generators/utils.ts:90-96 | the same, once `L = exp(-lambda)` is computed |
| Sampling.PoissonStopsAtLimit | frontend/src/generators/utils.ts:88-97 | the sample r is the number of draws whose running product stays above `exp(-lambda)`: every product of 1..r draws is above it, the product of r + 1 is not |
| Sampling.LoopStopsAtLimit | frontend/src/generators/utils.ts:92-95 | the loop started after k draws stops exactly at the first product at or below `L` |
| Sampling.PoissonDone | frontend/src/generators/utils.ts:95-96 | once the product is at or below the limit the loop returns k - 1 |
| Sampling.PoissonNext | frontend/src/generators/utils.ts:92-95 | while the product is above the limit the loop reads one more draw and nothing else changes |
| Sampling.RandomInt | frontend/src/generators/utils.ts:64-66 | one draw; the result is `IntFromDraw` of that draw |
| Sampling.RandomPick | frontend/src/generators/utils.ts:57-59 | one draw; the result is `PickFromDraw` of that draw |
| Sampling.RandomDate | frontend/src/generators/utils.ts:48-52 | two draws; the result is the date `DateAt` describes |
| Sampling.RandomNormal | frontend/src/generators/utils.ts:78-83 | two draws; the Box-Muller value of those two draws scaled by `std` and shifted by `mean` |
| Sampling.RandomExponential | frontend/src/generators/utils.ts:71-73 | one draw; `-ln(u) / lambda` of that draw |
| Sampling.RandomPoisson | frontend/src/generators/utils.ts:88-97 | the sample and the number of draws taken are those of `PoissonFromDraws` |
| Sampling.PoissonSample | frontend/src/generators/utils.ts:90-96 | the do-while loop returns `PoissonBelow` and leaves the stream where it says |
| Sampling.PoissonDraw | frontend/src/generators/utils.ts:93-94 | one pass multiplies the product by the next draw, keeps it under the decay bound, and does not change the loop's result while the product was above the limit |
| Encounters.EncounterFields | frontend/src/generators/encounters.ts:35-46 | every encounter has the `ENC-` id of its index, a patient id for a birth year in 1940..2020, sex F or M and a listed region, and a listed type and diagnosis |
| Encounters.EncounterIdReadsBack | frontend/src/generators/encounters.ts:41 | an encounter id is `ENC-` followed by at least eight digits that read back as i + 1 |
| Encounters.EncounterIdsDistinct | frontend/src/generators/encounters.ts:41 | distinct indices give distinct encounter ids |
| Encounters.EncounterDateInYear | frontend/src/generators/encounters.ts:43 | the date is in the requested year, with month 1..12 and day 1..28 |
| Encounters.NextEncounter | frontend/src/generators/encounters.ts:36-46 | one pass takes seven draws, in the order the fields are evaluated, and yields `EncounterAt` of those draws |
| Encounters.GenerateEncounters | frontend/src/generators/encounters.ts:25-50 | `count` encounters (none for a count of zero or less) from the stream seeded with `seed`, the year defaulting to 2024 |
| Encounters.EncounterLoop | frontend/src/generators/encounters.ts:35-47 | the loop pushes encounter i for i in 0..count-1 |
| Records.Keys | frontend/src/generators/index.ts:133 | `Object.keys` lists the record's keys in insertion order, which is its order for the non-numeric keys the generators use |
| Records.IndexIn | frontend/src/generators/index.ts:136 | the position found holds the key; no position is found exactly when the key is absent |
| Records.IndexInFirst | frontend/src/generators/index.ts:136 | no earlier position holds the key |
| Records.IndexInAppend | frontend/src/generators/joins.ts:62-65 | appending a key changes where no other key is found |
| Records.KeyIndex | frontend/src/generators/index.ts:136 | `record[key]` reads the first entry stored under the key, and finds none exactly when the key is absent |
| Records.Get | frontend/src/generators/index.ts:136 | `record[key]` is defined exactly when the key is among the record's keys |
| Records.GetFound | frontend/src/generators/index.ts:136 | the value read is the one stored with the first occurrence of the key |
| Records.Set | frontend/src/generators/joins.ts:207 | after `record[key] = v`, reading the key gives v |
| Records.SetOther | frontend/src/generators/joins.ts:207 | setting one key leaves every other key's value unchanged |
| Records.SetKeys | frontend/src/generators/joins.ts:62-65 | overwriting an existing key keeps the key order; a new key goes last |
| Records.IntParam | frontend/src/generators/joins.ts:48 | a destructured integer parameter takes its default exactly as JavaScript does when absent or `undefined`, and is the stored integer otherwise |
| Records.RealParam | frontend/src/generators/joins.ts:48 | a real parameter takes its default when absent |
| Records.StrParam | frontend/src/generators/joins.ts:48 | a string parameter takes its default when absent |
| Records.BoolParam | frontend/src/generators/joins.ts:48 | a boolean parameter takes its default when absent |
| Records.DoubleQuotes | frontend/src/generators/index.ts:139 | doubling the quotes never shortens a string |
| Records.UndoubleDoubled | frontend/src/generators/index.ts:139 | undoubling the doubled quotes gives back the original string |
| Records.FieldReadsBack | frontend/src/generators/index.ts:136-141 | a string field holding a comma or a quote is wrapped in quotes and reads back as the original; any other string is written as is |
| Records.RowFields | frontend/src/generators/index.ts:135-142 | a row has one field per header, each the field of the record's value under that header |
| Records.Rows | frontend/src/generators/index.ts:134-143 | one row per record, each the record's fields in header order |
| Records.EmptyCsv | frontend/src/generators/index.ts:131 | no records give the empty text |
| Records.RowReadsHeadersOnly | frontend/src/generators/index.ts:133-142 | only the first record's keys are read: records that agree on them give the same row, so extra keys are dropped |
| Records.MissingKeyIsEmpty | frontend/src/generators/index.ts:141 | a key missing from a record is an empty field |
| Records.CsvLineCount | frontend/src/generators/index.ts:145 | when no key or field holds a line break, the text has exactly one newline per record |
| Records.CountJoin | frontend/src/generators/index.ts:145 | joining line-free parts adds the separator's newlines once between each pair of parts |
| Records.CountJoin1 | frontend/src/generators/index.ts:142 | joining newline-free fields with a comma adds no newline |
| Registry.KeyOf | frontend/src/generators/index.ts:88-109 | every generator is registered under one of the thirteen keys |
| Registry.Lookup | frontend/src/generators/index.ts:120 | the lookup finds a generator exactly for the thirteen keys, and the one registered under that key |
| Registry.LookupKeyOf | frontend/src/generators/index.ts:88-109 | each key names its own generator: keys and generators correspond one to one |
| Registry.KeysDistinct | frontend/src/generators/index.ts:88-109 | there are thirteen distinct keys |
| Registry.Generate | frontend/src/generators/index.ts:114-125 | `generate` fails exactly for an unregistered id, with `Unknown schema: <id>`, and otherwise returns the schema registered under the id |
| Registry.ErrorNamesSchema | frontend/src/generators/index.ts:122 | two unknown ids give two different error messages |
| Registry.UnregisteredIds | frontend/src/generators/index.ts:88-109 | the generators of patient-linked records and organizations, and the un-underscored survival and case-control names, are not reachable through `generate` |
| Registry.LookupAsWritten | frontend/src/generators/index.ts:120 | the plain-object lookup as written also finds the inherited `Object.prototype` members |
| Registry.GenerateAsWritten | frontend/src/generators/index.ts:120-124 | as written, no error is thrown for a registered key or an inherited member |
| Registry.InheritedKeyEscapes | frontend/src/generators/index.ts:120-123 | `toString` is not a schema, yet the lookup as written throws no error for it; the corrected `Generate` fails with `Unknown schema: toString` |
| Registry.AsWrittenAgrees | frontend/src/generators/index.ts:120-124 | away from the inherited names the two lookups agree |
| Keyed.KeyedId | frontend/src/generators/conditions.ts:89 | a record id is the prefix, a dash, the year, a dash and six upper-case hex digits, with exactly that length |
| Keyed.SameRowSameHash | frontend/src/generators/conditions.ts:91 | records built for the same patient at the same loop index share their hash whatever their prefix, so a condition and a procedure of the same patient and index point to the same `ENC-` id |
| Weighted.FirstWithin | frontend/src/generators/conditions.ts:37-40 | the scan from index j stops inside the list, or not at all |
| Weighted.WeightedIndex | frontend/src/generators/conditions.ts:34-42 | the index picked is always valid |
| Weighted.WeightedFromDraw | frontend/src/generators/conditions.ts:34-42 | the item picked is one of the items |
| Weighted.FirstWithinIsFirst | frontend/src/generators/conditions.ts:37-40 | the scan stops at the first index whose cumulative weight reaches the target, and finds none only when no prefix reaches it |
| Weighted.WeightedIndexFirst | frontend/src/generators/conditions.ts:34-42 | the picked index is the first whose cumulative weight is at least `u * total`; the last index is the fallback only when none reaches it |
| Weighted.WeightedIndexFinds | frontend/src/generators/conditions.ts:35-41 | with non-negative weights and a draw below 1 the fallback is never needed |
| Weighted.ScanWeights | frontend/src/generators/conditions.ts:37-40 | the loop computes `FirstWithin` from index 0 |
| Weighted.WeightedPick | frontend/src/generators/conditions.ts:34-42 | one draw; the item is `WeightedFromDraw` of that draw |
| Comunas.ComunasByRegionExact | frontend/src/data/comunas.ts:238-240 | the filter keeps exactly the communes of that region, in table order |
| Comunas.FirstReaching | frontend/src/data/comunas.ts:246-249 | the scan from commune j stops inside the table, or not at all |
| Comunas.FirstReachingIsFirst | frontend/src/data/comunas.ts:246-249 | the scan stops at the first commune whose cumulative population reaches `u * total`, and finds none exactly when no prefix reaches it |
| Comunas.WeightedPickFinds | frontend/src/data/comunas.ts:243-251 | with non-negative populations and a non-empty table the fallback to the first commune is never taken |
| Comunas.ScanPopulation | frontend/src/data/comunas.ts:246-249 | the loop computes `FirstReaching` from the first commune |
| Comunas.RandomComunaWeighted | frontend/src/data/comunas.ts:243-251 | one draw; the commune picked by population, the first commune when the scan finds none |
| GesPathologies.GetGesByNumber | frontend/src/data/ges-pathologies.ts:826-828 | the pathology found has that number; none is found exactly when no pathology has it |
| GesPathologies.GesByCie10Members | frontend/src/data/ges-pathologies.ts:830-834 | the code lookup returns exactly the pathologies one of whose codes, without its first dot and cut to three characters, starts the given code |
| GesPathologies.GesByCie10Order | frontend/src/data/ges-pathologies.ts:830-834 | the result keeps catalog order |
| GesPathologies.CodePrefixDropsFirstDot | frontend/src/data/ges-pathologies.ts:832 | `replace('.', '')` removes only the first dot before the first three characters are taken |
| GesPathologies.CodePrefixWithoutDot | frontend/src/data/ges-pathologies.ts:832 | a code without a dot keeps its own first three characters |
| GesPathologies.GesByCategoryMembers | frontend/src/data/ges-pathologies.ts:836-838 | the category lookup keeps exactly the pathologies of the category |
| LabTests.GetLabTestByLoinc | frontend/src/data/lab-tests.ts:618-620 | the test found has that LOINC code; none is found exactly when no test has it |
| LabTests.LabTestsByCategoryMembers | frontend/src/data/lab-tests.ts:622-624 | the category filter keeps exactly the tests of the category |
| LabTests.GetReferenceRange | frontend/src/data/lab-tests.ts:627-630 | a range of the test is returned, and none exactly when the test has no ranges |
| LabTests.ReferenceRangeFirst | frontend/src/data/lab-tests.ts:627-630 | the first range whose group contains the requested group, ignoring case for ASCII and Latin-1 letters, or the first range when none does |
| LabTests.InterpretResult | frontend/src/data/lab-tests.ts:633-645 | a verdict exists exactly when the test has ranges; without ranges the source throws |
| LabTests.InterpretBounds | frontend/src/data/lab-tests.ts:636-644 | critical bounds are inclusive and checked first, normal bounds strict; `N` means exactly "not critical and inside [low, high]" |
| LabTests.CriticalText | frontend/src/data/lab-tests.ts:636-638 | a critical-low result without a test-specific text reads `Crítico bajo` |
| VitalRanges.GetRangoVitalFirst | frontend/src/data/vital-ranges.ts:764-775 | the lookup gives the first row for the sign whose age interval [min, max) holds the age and whose sex applies (either sex, the given one, or none given), and nothing exactly when no row applies |
| VitalRanges.GrupoEtarioInterval | frontend/src/data/vital-ranges.ts:777-786 | an age is in a group exactly when it lies in the group's interval [start, end), the newborn group open below and the last group open above |
| VitalRanges.GrupoEtarioMonotone | frontend/src/data/vital-ranges.ts:777-786 | an older age never falls in a younger group |
| VitalRanges.EvaluarSignoVital | frontend/src/data/vital-ranges.ts:788-806 | the verdict is `Desconocido` exactly when no range row applies |
| VitalRanges.EvaluarMonotone | frontend/src/data/vital-ranges.ts:797-805 | on an ordered row the verdict's severity rises with the value, and `Normal` means exactly inside [min, max] |
| VitalRanges.CriticalInclusive | frontend/src/data/vital-ranges.ts:797-799 | a value equal to the critical-low bound is critical, whatever the normal range says |
| VitalRanges.GenerarValorNormal | frontend/src/data/vital-ranges.ts:808-839 | a value is generated exactly when a range row applies |
| VitalRanges.GeneratedInRange | frontend/src/data/vital-ranges.ts:818-838 | whatever the deviate, the clamped and rounded value stays inside an integral normal range, within 0.05 of it for temperature and BMI |
| VitalRanges.RoundBetweenIntegers | frontend/src/data/vital-ranges.ts:837 | `Math.round` of a value between two integers stays between them |
| VitalRanges.Generar | frontend/src/data/vital-ranges.ts:841-863 | the sign's generator returns its fixed fallback (75, 16, 120, 80, 36.8, 98) exactly when no row applies, and the generated normal value otherwise |
| Demographics.WeightedComunaPick | frontend/src/generators/demographics.ts:38-48 | one draw; the commune picked by population, falling back to the LAST commune |
| Demographics.ComunaPickInTable | frontend/src/generators/demographics.ts:38-48 | the pick is a commune of the table; with non-negative populations it is the first whose cumulative population reaches `u * total`, so the fallback is never used |
| Demographics.FonasaTierInterval | frontend/src/generators/demographics.ts:69-76 | with non-negative weights and a positive total the tiers partition [0, 1): the tier picked is the one whose normalised interval holds the draw, tier A's weight multiplied by 1.5 for rural communes |
| Demographics.FonasaTierMonotone | frontend/src/generators/demographics.ts:73-76 | a larger draw never gives a lower FONASA tier |
| Demographics.PrevisionCascade | frontend/src/generators/demographics.ts:58-76 | no coverage exactly when the first draw is under 0.02; otherwise ISAPRE exactly when the second draw is under the ratio, 2.5 times larger in the five high-income communes; otherwise a FONASA tier from a third draw; 1, 2 or 3 draws accordingly |
| Demographics.DeterminePrevision | frontend/src/generators/demographics.ts:51-77 | the previsión and the number of draws taken are those of `PrevisionAt` |
| Demographics.InsuranceType | frontend/src/generators/demographics.ts:123-125 | `Privado` exactly for ISAPRE, `Sin cobertura` exactly without coverage, `Público` exactly for a FONASA tier |
| Demographics.DrawPerson | frontend/src/generators/demographics.ts:96-98 | three draws: birth year, birth month and sex, as `PersonAt` gives them |
| Demographics.DemographicAt | frontend/src/generators/demographics.ts:95-126 | one record takes five to seven draws |
| Demographics.DemographicFields | frontend/src/generators/demographics.ts:96-126 | every record: birth year in the configured range, age `2025 - birthYear`, non-negative age in months, sex F or M, the patient id of its birth year, sex, region code and index, and the region, commune and rurality of one commune of the table |
| Demographics.AgeMonthsExact | frontend/src/generators/demographics.ts:107-115 | for a birth before 2025 the age in months is `12 * age + 6 - month`, hence at least 6 |
| Demographics.NextDemographic | frontend/src/generators/demographics.ts:96-126 | one pass yields `DemographicAt` of the draws it reads and advances the stream past them |
| Demographics.DemographicsLoop | frontend/src/generators/demographics.ts:95-127 | the loop pushes record i for i in 0..count-1 |
| Demographics.GenerateDemographics | frontend/src/generators/demographics.ts:79-130 | `count` records (none for zero or less) from the stream seeded with `seed` |
| Demographics.LegacyInsuranceNames | frontend/src/generators/demographics.ts:145 | lower-casing and replacing the first space gives `fonasa_a`..`fonasa_d`, `isapre` and `sin_previsión`; all but the last are insurance codes of the shared list |
| Demographics.LegacyFonasa | frontend/src/generators/demographics.ts:145 | a FONASA tier's legacy name is the insurance code of its tier |
| Demographics.LegacyIsapre | frontend/src/generators/demographics.ts:145 | ISAPRE's legacy name is `isapre` |
| Demographics.LegacyNoCoverage | frontend/src/generators/demographics.ts:145 | no coverage's legacy name is `sin_previsión` |
| Demographics.GenerateDemographicsLegacy | frontend/src/generators/demographics.ts:133-147 | the same records as `generateDemographics`, mapped one to one |
| Demographics.LegacyFields | frontend/src/generators/demographics.ts:139-145 | `urban` is `urban` exactly for urban communes; id, age, sex and region code carry over |
| Cie10.Guarded | frontend/src/generators/cie10.ts:51-62 | one optional error: a draw is read exactly when the flag is on, and the code is either kept or transformed |
| Cie10.CodeDraws | frontend/src/generators/cie10.ts:48-62 | a code takes one draw for the pick and one per enabled flag; with every flag off the code is one of the list |
| Cie10.InvalidWins | frontend/src/generators/cie10.ts:60-62 | when the invalid flag is on and its draw is under the rate the code is `Z99.X`, whatever came before; with the flag off the code is that of the earlier steps |
| Cie10.TruncatedHasNoDot | frontend/src/generators/cie10.ts:57-59 | a truncated code, not replaced by the invalid one, contains no dot |
| Cie10.SpaceThenTruncate | frontend/src/generators/cie10.ts:51-59 | a space inserted before the dot survives truncation as a trailing space |
| Cie10.RecordAt | frontend/src/generators/cie10.ts:47-72 | each record takes exactly `6 + flags` draws |
| Cie10.RecordPatient | frontend/src/generators/cie10.ts:64-69 | every patient id is that of a birth year in 1940..2020, sex F or M, a region of the list and the record's index |
| Cie10.RecordDate | frontend/src/generators/cie10.ts:71 | every date lies in 2024, month 1..12, day 1..28 |
| Cie10.RecordStarts | frontend/src/generators/cie10.ts:47-72 | record `i` starts at draw `i * (6 + flags)` |
| Cie10.PlainCodes | frontend/src/generators/cie10.ts:48 | with every flag off each code comes from the list |
| Cie10.GuardedDraw | frontend/src/generators/cie10.ts:51-62 | the imperative guard takes the draw and yields the code `Guarded` gives |
| Cie10.NextCode | frontend/src/generators/cie10.ts:48-62 | the pick and the four guarded errors yield `CodeAt` and advance the stream past its draws |
| Cie10.NextPatient | frontend/src/generators/cie10.ts:64-69 | three draws give the patient id `PatientAt` gives |
| Cie10.NextComplete | frontend/src/generators/cie10.ts:64-72 | five draws give the record's patient and date |
| Cie10.NextRecord | frontend/src/generators/cie10.ts:48-72 | one iteration yields `RecordAt` and advances the stream past it |
| Cie10.RecordLoop | frontend/src/generators/cie10.ts:45-75 | the loop yields the first `max(count, 0)` records of the thread |
| Cie10.GenerateCie10 | frontend/src/generators/cie10.ts:28-76 | `generateCIE10(count, seed, params)` is the first `max(count, 0)` records drawn from the stream seeded with `seed`, with the defaults of lines 33-42 |
| Organizations.FilterByMembership | frontend/src/generators/organizations.ts:50-58 | one filter step keeps exactly the establishments whose field passes the filter, an absent or empty list passing everything |
| Organizations.FilteredMembership | frontend/src/generators/organizations.ts:48-58 | an establishment survives the three filters exactly when it is in the catalog and passes the type, level and region filters |
| Organizations.UnfilteredKeepsAll | frontend/src/generators/organizations.ts:48-58 | without filters, or with empty lists, the whole catalog is kept in order |
| Organizations.Phone | frontend/src/generators/organizations.ts:77 | the phone is null exactly when it is missing or empty, else the catalog's phone |
| Organizations.Beds | frontend/src/generators/organizations.ts:79 | the bed count is null exactly when it is missing or zero, else the catalog's count |
| Organizations.OrganizationsFrom | frontend/src/generators/organizations.ts:63-81 | `n` records |
| Organizations.OrganizationsIndex | frontend/src/generators/organizations.ts:63-81 | record `k` is the pick of draw `k` from the filtered list |
| Organizations.GeneratedPassFilters | frontend/src/generators/organizations.ts:50-80 | every generated record is the record of a catalog establishment passing every applied filter, with its DEIS code as id |
| Organizations.GeneratedCount | frontend/src/generators/organizations.ts:63-64 | a failure exactly when the count is positive and the filtered list is empty (the pick is undefined and reading its code throws); otherwise `max(count, 0)` records |
| Organizations.OrganizationLoop | frontend/src/generators/organizations.ts:61-83 | the loop yields the first `max(count, 0)` records |
| Organizations.GenerateOrganizations | frontend/src/generators/organizations.ts:34-84 | `generateOrganizations(count, seed, params)` is the filtered pick sequence drawn from the stream seeded with `seed`, or the failure |
| Organizations.AllOrganizations | frontend/src/generators/organizations.ts:87-103 | every catalog entry once, in catalog order, as the same record the generator builds |
| Organizations.AllOrganizationsIdsDistinct | frontend/src/generators/organizations.ts:87-103 | a catalog of distinct DEIS codes gives records of distinct ids |
| Conditions.FlagsAt | frontend/src/generators/conditions.ts:64-66 | the GES, chronic and resolved flags; a resolved condition is never chronic |
| Conditions.OnsetYear | frontend/src/generators/conditions.ts:69 | the onset year is the parameter year, or for a chronic condition up to nine years before it |
| Conditions.OutcomeAt | frontend/src/generators/conditions.ts:72-83 | a resolution date exactly when the status is resolved, resolved exactly when the resolved flag is set, remission only for a chronic condition; the draw count of lines 75-83 |
| Conditions.HeadAt | frontend/src/generators/conditions.ts:61-83 | the pathology picked is one of the catalog |
| Conditions.SeverityBands | frontend/src/generators/conditions.ts:31-42 | the weighted pick of severities is mild up to a draw of 0.5, moderate up to 0.85, severe above |
| Conditions.ConditionDraws | frontend/src/generators/conditions.ts:60-101 | a record takes nine draws, ten when it is chronic or resolved |
| Conditions.ConditionAtWellFormed | frontend/src/generators/conditions.ts:61-101 | every record is well formed: a patient of the list; name, category and code of one catalog pathology with its GES number; a GES name exactly with a GES number; a resolution date exactly when resolved; an onset in the last ten years, in the parameter year when resolved; encounter and condition ids keyed by patient, index and code |
| Conditions.StatusFollowsCourse | frontend/src/generators/conditions.ts:64-83 | remission only when the chronic draw is under the ratio; resolved only when it is not and the resolved draw is under its ratio; a GES number exactly when the GES draw is under its ratio |
| Conditions.ConditionsWellFormed | frontend/src/generators/conditions.ts:60-102 | every generated record is well formed for its index |
| Conditions.NextFlags | frontend/src/generators/conditions.ts:64-66 | the flags of `FlagsAt`, reading the resolved draw only for an acute condition |
| Conditions.NextOnsetYear | frontend/src/generators/conditions.ts:69 | the onset year, reading a draw only for a chronic condition |
| Conditions.NextOnset | frontend/src/generators/conditions.ts:69 | the onset date of `OnsetAt` |
| Conditions.OnsetIs | frontend/src/generators/conditions.ts:69 | the date drawn in the onset year is `OnsetAt` and ends two draws later |
| Conditions.NextOutcome | frontend/src/generators/conditions.ts:72-83 | status and resolution date of `OutcomeAt`, with its draw count |
| Conditions.NextHead | frontend/src/generators/conditions.ts:61-83 | the imperative head is `HeadAt` |
| Conditions.NextComplete | frontend/src/generators/conditions.ts:86-101 | the code pick, ids and severity complete the head as `Complete` gives |
| Conditions.ConditionAtIs | frontend/src/generators/conditions.ts:61-101 | a record is its head completed |
| Conditions.NextCondition | frontend/src/generators/conditions.ts:61-101 | one iteration yields `ConditionAt` and advances the stream past it |
| Conditions.ConditionLoop | frontend/src/generators/conditions.ts:58-104 | the loop yields the first `max(count, 0)` records |
| Conditions.GenerateConditions | frontend/src/generators/conditions.ts:44-105 | `generateConditions(patientIds, count, seed, params)` is the first `max(count, 0)` records drawn from the stream seeded with `seed`, each well formed |
| Procedures.OutcomeBands | frontend/src/generators/procedures.ts:39-80 | the outcome pick with the adjusted weights: successful up to a draw of `1 - c`, complicated up to `1 - c/8`, failed above |
| Procedures.NotesAt | frontend/src/generators/procedures.ts:82-99 | no note and no draw for a success; one draw picking a complication note or a failure note otherwise |
| Procedures.PerformerAtShaped | frontend/src/generators/procedures.ts:49-54 | a performer id is a profession of the list, a dash and five digits reading a number below 99999 |
| Procedures.ProcedureDraws | frontend/src/generators/procedures.ts:77-117 | a record takes eight draws, nine with a note |
| Procedures.DrawnAtValid | frontend/src/generators/procedures.ts:78-112 | the drawn parts: a patient of the list, a procedure of the catalog, the note matching the outcome, a date in the year, a well-shaped performer and an organization of the list |
| Procedures.TailAtValid | frontend/src/generators/procedures.ts:110-112 | date, performer and organization drawn at the end of a record are valid |
| Procedures.TailDate | frontend/src/generators/procedures.ts:110 | the date lies in the parameter year |
| Procedures.TailPerformer | frontend/src/generators/procedures.ts:111 | the performer id is well shaped |
| Procedures.BuildWellFormed | frontend/src/generators/procedures.ts:101-117 | valid drawn parts build a well-formed record: the procedure's catalog fields, an empty note exactly for a success, the encounter id keyed by patient and index |
| Procedures.ProcedureAtWellFormed | frontend/src/generators/procedures.ts:77-117 | every record is well formed |
| Procedures.ProceduresWellFormed | frontend/src/generators/procedures.ts:77-120 | every generated record is well formed for its index |
| Procedures.NextNotes | frontend/src/generators/procedures.ts:82-99 | the note and draw count of `NotesAt` |
| Procedures.GeneratePerformerId | frontend/src/generators/procedures.ts:49-54 | `generatePerformerId` takes two draws and gives `PerformerAt` |
| Procedures.NextTail | frontend/src/generators/procedures.ts:110-112 | five draws give the date, performer and organization of `TailAt` |
| Procedures.NextDrawn | frontend/src/generators/procedures.ts:78-112 | the imperative draws are `DrawnAt` |
| Procedures.NextProcedure | frontend/src/generators/procedures.ts:78-117 | one iteration yields `ProcedureAt` and advances the stream past it |
| Procedures.ProcedureLoop | frontend/src/generators/procedures.ts:68-120 | the loop yields the first `max(count, 0)` records |
| Procedures.GenerateProcedures | frontend/src/generators/procedures.ts:56-121 | `generateProcedures(patientIds, count, seed, params)` is the first `max(count, 0)` records drawn from the stream seeded with `seed`, each well formed |
| Immunizations.LotFromDrawsShaped | frontend/src/generators/immunizations.ts:44-50 | a lot number is two capital letters, four digits reading a number below 9999, a dash and the year |
| Immunizations.GenerateLotNumber | frontend/src/generators/immunizations.ts:44-50 | `generateLotNumber` takes three draws and gives `LotFromDraws` of them |
| Immunizations.SiteAt | frontend/src/generators/immunizations.ts:91 | a site draw is taken exactly when the vaccine has no site of its own |
| Immunizations.DrawnAt | frontend/src/generators/immunizations.ts:73-93 | a vaccination's values take nine or ten draws |
| Immunizations.ImmunizationDraws | frontend/src/generators/immunizations.ts:69-97 | a pass is skipped exactly when its first draw exceeds the coverage rate, and then takes one draw; otherwise it takes 10 or 11 |
| Immunizations.DrawnAtValid | frontend/src/generators/immunizations.ts:73-93 | the drawn values: a patient of the list, a PNI vaccine with one of its doses, a date in the year, a well-shaped lot, the vaccine's own site or one of the injection sites, an organization of the list |
| Immunizations.BuildWellFormed | frontend/src/generators/immunizations.ts:81-96 | valid values build a well-formed record, its id keyed by patient, index and CVX code |
| Immunizations.DrawnWellFormed | frontend/src/generators/immunizations.ts:73-96 | the record built from the drawn values is well formed |
| Immunizations.ImmunizationAtWellFormed | frontend/src/generators/immunizations.ts:69-96 | what a pass pushes is well formed for the index of the pass |
| Immunizations.PassesCoverage | frontend/src/generators/immunizations.ts:71 | pass `k` pushes a vaccination exactly when its first draw is within the coverage rate |
| Immunizations.PassesWellFormed | frontend/src/generators/immunizations.ts:69-97 | what pass `k` pushes is well formed for index `k` |
| Immunizations.FullCoverage | frontend/src/generators/immunizations.ts:71 | with a coverage rate of 1 or more no pass is skipped and there are `count` vaccinations |
| Immunizations.NextSite | frontend/src/generators/immunizations.ts:91 | the site and draw count of `SiteAt` |
| Immunizations.NextDrawn | frontend/src/generators/immunizations.ts:73-93 | the imperative draws are `DrawnAt` |
| Immunizations.NextPass | frontend/src/generators/immunizations.ts:69-97 | one pass is `ImmunizationAt`: the coverage draw, then the vaccination unless skipped |
| Immunizations.PassIs | frontend/src/generators/immunizations.ts:71-96 | a pass that is not skipped pushes the record built from its drawn values |
| Immunizations.ImmunizationLoop | frontend/src/generators/immunizations.ts:64-99 | the loop yields the vaccinations of the first `max(count, 0)` passes that were not skipped, in order |
| Immunizations.GenerateImmunizations | frontend/src/generators/immunizations.ts:52-100 | `generateImmunizations(patientIds, count, seed, params)`: at most `max(count, 0)` vaccinations, those of the passes not skipped, each well formed for the index of its pass |
| Medications.DurationBounds | frontend/src/generators/medications.ts:57-59 | a chronic prescription lasts 180 to 544 days; an acute one at least the minimum and below the maximum when the maximum is larger, exactly the minimum when they are equal |
| Medications.DrawnAt | frontend/src/generators/medications.ts:51-59 | a record takes six draws |
| Medications.DrawnDateValid | frontend/src/generators/medications.ts:56 | the start date lies in the parameter year |
| Medications.DrawnDurationValid | frontend/src/generators/medications.ts:57-59 | the duration is chronic (180..544) or within the acute bounds |
| Medications.DrawnAtValid | frontend/src/generators/medications.ts:51-59 | the drawn values: a patient of the list, a medication of the catalog, a date in the year and a bounded duration |
| Medications.BuildWellFormed | frontend/src/generators/medications.ts:62-83 | valid values build a well-formed record: the medication's catalog fields, the end date the start plus the duration, ids keyed by patient, index and ATC code |
| Medications.MedicationAtWellFormed | frontend/src/generators/medications.ts:51-83 | every record is well formed |
| Medications.ChronicLastsLonger | frontend/src/generators/medications.ts:53-58 | a record whose chronic draw is under the ratio lasts 180 to 544 days |
| Medications.MedicationsWellFormed | frontend/src/generators/medications.ts:50-86 | every generated record is well formed for its index |
| Medications.MedicationPositions | frontend/src/generators/medications.ts:50-84 | record `k` reads the draws from `6 * k` on |
| Medications.NextDrawn | frontend/src/generators/medications.ts:51-59 | six draws give `DrawnAt` |
| Medications.MedicationLoop | frontend/src/generators/medications.ts:48-86 | the loop yields the first `max(count, 0)` records |
| Medications.GenerateMedications | frontend/src/generators/medications.ts:34-87 | `generateMedications(patientIds, count, seed, params)` is the first `max(count, 0)` records drawn from the stream seeded with `seed`, each well formed |
| Observations.InterpretValueBands | frontend/src/generators/observations.ts:32-44 | `LL` exactly below a critical low bound; `HH` exactly above a critical high bound and not `LL`; otherwise `L` exactly below the reference range, `H` exactly above it and `N` exactly inside it |
| Observations.AgreesWithCatalog | frontend/src/generators/observations.ts:32-44 | the generator's interpretation agrees with the catalog's `interpretResult` for every value not lying exactly on a critical bound; on the critical low bound the catalog says critical and the generator does not |
| Observations.AdultRange | frontend/src/generators/observations.ts:66 | the range used is one of the test's ranges |
| Observations.AbnormalValueAt | frontend/src/generators/observations.ts:88-94 | an abnormal value takes two draws: a coin and the factor |
| Observations.NormalValueAt | frontend/src/generators/observations.ts:95-100 | a normal value takes two draws |
| Observations.RoundToNear | frontend/src/generators/observations.ts:103 | rounding to two decimals moves a value by at most half a hundredth |
| Observations.RoundedNear | frontend/src/generators/observations.ts:103-104 | the stored value is within 0.505 of the drawn one, within half a hundredth when it stays at or below 100 after the first rounding |
| Observations.NormalValueClamped | frontend/src/generators/observations.ts:95-100 | a normal roll lies in `[0.95 low, 1.05 high]` before rounding when that interval is not empty |
| Observations.BelowCriticalLow | frontend/src/generators/observations.ts:82 | a value below 0.9 times a critical low bound of at least 0.05 is flagged `LL` once rounded |
| Observations.AboveCriticalHigh | frontend/src/generators/observations.ts:84 | a value of at least 1.1 times a critical high bound of at least 0.05 is flagged `HH` once rounded |
| Observations.BelowReference | frontend/src/generators/observations.ts:91 | a value below 0.95 times a low bound of at least 0.1 is flagged `L` or `LL` once rounded |
| Observations.AboveReference | frontend/src/generators/observations.ts:93 | a value of at least 1.05 times a high bound of at least 0.1 is flagged `H` or `HH` once rounded |
| Observations.CriticalLowIsFlagged | frontend/src/generators/observations.ts:79-82 | a critical roll going low is flagged `LL` |
| Observations.CriticalHighIsFlagged | frontend/src/generators/observations.ts:79-84 | a critical roll going high is flagged `HH` |
| Observations.AbnormalLowIsFlagged | frontend/src/generators/observations.ts:88-91 | an abnormal roll going low is flagged `L` or `LL` |
| Observations.AbnormalHighIsFlagged | frontend/src/generators/observations.ts:88-93 | an abnormal roll going high is flagged `H` or `HH` |
| Observations.ObservationDraws | frontend/src/generators/observations.ts:61-128 | a result takes seven draws, eight exactly when a critical roll finds no critical bound to use and falls back on the normal draw |
| Observations.RawDraws | frontend/src/generators/observations.ts:77-100 | the value takes three draws, four exactly in that fallback |
| Observations.DrawnAtValid | frontend/src/generators/observations.ts:62-126 | a patient of the list, a test of the catalog, a date in the year |
| Observations.BuildWellFormed | frontend/src/generators/observations.ts:106-128 | valid values build a well-formed record: the test's fields and adult reference bounds, the interpretation of the stored value, ids keyed by patient, index and LOINC code |
| Observations.ObservationAtWellFormed | frontend/src/generators/observations.ts:61-128 | every record is well formed |
| Observations.ObservationsWellFormed | frontend/src/generators/observations.ts:61-131 | every generated record is well formed for its index |
| Observations.NextNormalDraw | frontend/src/generators/observations.ts:86 | `randomNormal` around the range's centre takes two draws |
| Observations.NextCritical | frontend/src/generators/observations.ts:81-87 | the critical band is `CriticalValueAt` |
| Observations.CriticalNormalIs | frontend/src/generators/observations.ts:81-87 | with no critical bound to use the critical band is the normal draw after the coin |
| Observations.NextAbnormal | frontend/src/generators/observations.ts:90-94 | the abnormal band is `AbnormalValueAt` |
| Observations.NextNormal | frontend/src/generators/observations.ts:97-99 | the normal band is `NormalValueAt` |
| Observations.NextValue | frontend/src/generators/observations.ts:77-100 | the value block is `RawValueAt` |
| Observations.RawIs | frontend/src/generators/observations.ts:77-100 | the roll selects the band |
| Observations.RoundValue | frontend/src/generators/observations.ts:103-104 | the rounding step is `Rounded` |
| Observations.NextHead | frontend/src/generators/observations.ts:62-104 | patient, test and rounded value are `HeadAt` |
| Observations.HeadIs | frontend/src/generators/observations.ts:62-104 | `HeadAt` from the values drawn one after the other |
| Observations.NextDrawn | frontend/src/generators/observations.ts:62-126 | the imperative draws are `DrawnAt` |
| Observations.DrawnIs | frontend/src/generators/observations.ts:62-126 | `DrawnAt` from the head and the date drawn after it |
| Observations.ObservationLoop | frontend/src/generators/observations.ts:59-131 | the loop yields the first `max(count, 0)` records |
| Observations.GenerateObservations | frontend/src/generators/observations.ts:46-132 | `generateObservations(patientIds, count, seed, params)` is the first `max(count, 0)` records drawn from the stream seeded with `seed`, each well formed |
| Vitals.WeightInBand | frontend/src/generators/vitals.ts:38-48 | the weight lies in the band of the patient's age group and sex |
| Vitals.HeightInBand | frontend/src/generators/vitals.ts:51-61 | the height lies in the band of the patient's age group and sex |
| Vitals.SexOnlyForAdults | frontend/src/generators/vitals.ts:38-61 | below 216 months sex plays no part in weight or height |
| Vitals.GrowWithDraw | frontend/src/generators/vitals.ts:38-61 | weight and height grow with the draw |
| Vitals.RoundedHeight | frontend/src/generators/vitals.ts:84 | the rounded height lies in 48..182 cm, so the BMI never divides by zero |
| Vitals.SignsNearReference | frontend/src/generators/vitals.ts:97-102 | each sign stays near its age reference (heart rate and systolic pressure -5..+4, respiratory rate -2..+1, diastolic pressure -4..+3, temperature within 0.35 degrees) and the saturation lies in 90..100 |
| Vitals.RoundToTenth | frontend/src/generators/vitals.ts:83 | rounding to one decimal moves a value by at most half a tenth |
| Vitals.DefaultAge | frontend/src/generators/vitals.ts:76 | a default age is 216 to 995 months, female exactly when the second draw is under 0.51 |
| Vitals.HeadAt | frontend/src/generators/vitals.ts:79-81 | a patient of the list; the age of the map and one draw when the patient is in it, otherwise a default age and three draws |
| Vitals.BodyAt | frontend/src/generators/vitals.ts:83-85 | the height lies in 48..182 cm |
| Vitals.IdsShareHash | frontend/src/generators/vitals.ts:93-95 | the vital and encounter ids of a record differ only in their prefix |
| Vitals.VitalAtFields | frontend/src/generators/vitals.ts:78-107 | every record: a patient of the list, the map's age or a default age, ids over the same hash, a height of 48..182 cm, a saturation in 90..100, a date in the year |
| Vitals.VitalAtDraws | frontend/src/generators/vitals.ts:78-107 | a record takes five draws of the main stream, seven for a patient missing from the map |
| Vitals.NextHead | frontend/src/generators/vitals.ts:79-81 | the imperative head is `HeadAt` |
| Vitals.NextSigns | frontend/src/generators/vitals.ts:89-102 | the signs come from a fresh stream seeded with `seed + i` |
| Vitals.JitterFrom | frontend/src/generators/vitals.ts:97-102 | the six draws of the fresh stream applied to the reference values |
| Vitals.NextThree | frontend/src/generators/vitals.ts:83-84 | three consecutive draws |
| Vitals.NextBodyDate | frontend/src/generators/vitals.ts:83-106 | weight, height and date take four draws of the main stream |
| Vitals.NextComplete | frontend/src/generators/vitals.ts:83-107 | the rest of a record is `Complete` of its head |
| Vitals.NextVital | frontend/src/generators/vitals.ts:79-107 | one iteration yields `VitalAt` and advances the stream past it |
| Vitals.VitalsLoop | frontend/src/generators/vitals.ts:73-110 | the loop yields the first `max(count, 0)` records |
| Vitals.GenerateVitals | frontend/src/generators/vitals.ts:63-111 | `generateVitals` yields exactly `max(count, 0)` records drawn from the stream seeded with `seed` and the normal deviates `zs` of the reference values |
| Vitals.GenerateVitalsSimple | frontend/src/generators/vitals.ts:114-122 | `generateVitalsSimple` is `generateVitals` with an empty map |
| Vitals.VitalsFromFields | frontend/src/generators/vitals.ts:78-110 | every generated record has the fields of `VitalAtFields` |
| Vitals.SimpleAgesAreDefault | frontend/src/generators/vitals.ts:114-122 | without a map every age is a default one of 216..995 months |
| CaseControl.Split | frontend/src/generators/casecontrol.ts:42-43 | cases and controls add up to the count |
| CaseControl.SplitExact | frontend/src/generators/casecontrol.ts:42-43 | with a non-negative count and at least zero controls per case both parts lie in 0..count, so exactly `count` subjects are generated |
| CaseControl.OddsRatioOne | frontend/src/generators/casecontrol.ts:48-50 | an odds ratio of 1 gives the cases the controls' probability |
| CaseControl.OddsRecovered | frontend/src/generators/casecontrol.ts:46-50 | the cases' probability has exactly `oddsRatio` times the controls' odds, the relation the comment of lines 46-47 solves for |
| CaseControl.CasesMoreExposed | frontend/src/generators/casecontrol.ts:48-50 | for a prevalence strictly between 0 and 1 and a positive ratio, a ratio above 1 makes cases more likely exposed, one below 1 less likely |
| CaseControl.OddsFractionOrder | frontend/src/generators/casecontrol.ts:49-50 | scaling positive odds up or down moves `odds / (1 + odds)` the same way |
| CaseControl.ScaledOdds | frontend/src/generators/casecontrol.ts:49 | positive odds scaled by a positive ratio stay positive and grow or shrink with it |
| CaseControl.FractionGrows | frontend/src/generators/casecontrol.ts:50 | `x / (1 + x)` grows strictly with `x >= 0` |
| CaseControl.CaseControlShape | frontend/src/generators/casecontrol.ts:52-80 | `max(nCases, 0) + max(nControls, 0)` subjects; the first `nCases` are cases; ids `CC-000001` upwards; exposed exactly when the first draw is under the group's probability; age 40..80, sex M or F, a smoking status of the list |
| CaseControl.SubjectIdsDistinct | frontend/src/generators/casecontrol.ts:58-71 | the subject ids are pairwise distinct |
| CaseControl.CaseExposureThreshold | frontend/src/generators/casecontrol.ts:48-50 | the cases' probability computed once is `CaseThreshold` |
| CaseControl.NextSubject | frontend/src/generators/casecontrol.ts:56-64 | one pass takes four draws and yields `SubjectAt` |
| CaseControl.CasesLoop | frontend/src/generators/casecontrol.ts:55-65 | the first loop yields the `max(nCases, 0)` cases and leaves `id` at their number |
| CaseControl.ControlsLoop | frontend/src/generators/casecontrol.ts:68-78 | the second loop appends the controls, numbered after the cases |
| CaseControl.CaseControlLoops | frontend/src/generators/casecontrol.ts:52-78 | the two loops together yield `CaseControlFrom` |
| CaseControl.CaseSplit | frontend/src/generators/casecontrol.ts:42-43 | the split computed in place is `Split` |
| CaseControl.GenerateCaseControl | frontend/src/generators/casecontrol.ts:27-81 | `generateCaseControl(count, seed, params)` is the cases then the controls drawn from the stream seeded with `seed`, with the case probability of the odds ratio |
| Survival.Censoring | frontend/src/generators/survival.ts:67-69 | the observed time never passes the censoring time or the end of follow-up; the event is seen exactly when the true time comes no later than both, and then the observed time is the true time |
| Survival.CensorTime | frontend/src/generators/survival.ts:63-65 | the censoring time is `maxFollowup` when not censored, otherwise in 30..maxFollowup when `maxFollowup >= 30` |
| Survival.RatesFor | frontend/src/generators/survival.ts:47-49 | the treatment arm's rate is the control rate times the hazard ratio |
| Survival.CensorAt | frontend/src/generators/survival.ts:62-65 | the censoring decision takes one draw, two when censored |
| Survival.CourseAt | frontend/src/generators/survival.ts:55-69 | the arm, the true time and the censoring take three draws, four when censored |
| Survival.SubjectFields | frontend/src/generators/survival.ts:54-80 | every subject: an `SRV-` id, age 30..85, sex, arm and a stage of the list, a follow-up that is the rounded observed time, the event flag 1 exactly when the true time comes first, `censored = 1 - event` |
| Survival.CensorTimeRange | frontend/src/generators/survival.ts:62-65 | censored exactly when the censoring draw falls under the rate; the censoring time is then in 30..maxFollowup, else `maxFollowup` |
| Survival.SubjectIdsDistinct | frontend/src/generators/survival.ts:72 | the subject ids are pairwise distinct |
| Survival.SurvivalShape | frontend/src/generators/survival.ts:52-83 | `max(count, 0)` records, record `i` being subject `i`, with the bounds of `SubjectFields` and a follow-up never past `maxFollowup` |
| Survival.RoundedBelow | frontend/src/generators/survival.ts:77 | rounding a time at most an integer bound stays within it |
| Survival.NextCensor | frontend/src/generators/survival.ts:62-65 | the imperative censoring is `CensorAt` |
| Survival.NextArm | frontend/src/generators/survival.ts:55-59 | the arm and true event time take two draws |
| Survival.NextCourse | frontend/src/generators/survival.ts:55-69 | the imperative course is `CourseAt` |
| Survival.NextComplete | frontend/src/generators/survival.ts:71-80 | age, sex and stage take three draws and complete the record |
| Survival.NextRecord | frontend/src/generators/survival.ts:55-80 | one iteration yields `RecordAt` and advances the stream past it |
| Survival.SurvivalLoop | frontend/src/generators/survival.ts:52-83 | the loop yields the first `max(count, 0)` records |
| Survival.ArmRates | frontend/src/generators/survival.ts:47-49 | the rates computed before the loop are `RatesFor` |
| Survival.GenerateSurvival | frontend/src/generators/survival.ts:34-84 | `generateSurvival(count, seed, params)` is the records drawn from the stream seeded with `seed` with the rates of the parameters |
| Surveillance.WeekNumber | frontend/src/generators/surveillance.ts:54 | the week number lies in 1..52 |
| Surveillance.WeekAt | frontend/src/generators/surveillance.ts:53-86 | every week takes at least one draw |
| Surveillance.WeekFields | frontend/src/generators/surveillance.ts:54-85 | one week: number `i mod 52 + 1`, year `startYear + i div 52`, the disease, non-negative cases, and an alert exactly when the cases exceed the threshold times the expected count |
| Surveillance.SurveillanceShape | frontend/src/generators/surveillance.ts:49-88 | `max(weeks, 0)` records, each with the fields of `WeekFields` and the one disease of the list picked before the loop |
| Surveillance.ExpectedIgnoresOutbreak | frontend/src/generators/surveillance.ts:59-76 | the outbreak scales the Poisson mean by the multiplier inside the window and leaves it equal to the expected count outside; the expected count, and so the alert threshold, ignore the outbreak |
| Surveillance.OutbreakWindow | frontend/src/generators/surveillance.ts:68 | with `outbreakWeek <= 0` no week is in the window; otherwise exactly the weeks `outbreakWeek .. outbreakWeek + 7` |
| Surveillance.FlatBaseline | frontend/src/generators/surveillance.ts:59-64 | without seasonality the expected count is the baseline |
| Surveillance.OutbreakLambda | frontend/src/generators/surveillance.ts:67-70 | the week's Poisson mean computed in place is `Lambda` |
| Surveillance.NextWeek | frontend/src/generators/surveillance.ts:54-85 | one iteration yields `WeekAt` and advances the stream past it |
| Surveillance.SurveillanceLoop | frontend/src/generators/surveillance.ts:51-88 | the disease pick and the loop yield `SurveillanceFrom` |
| Surveillance.GenerateSurveillance | frontend/src/generators/surveillance.ts:34-89 | `generateSurveillance` is the weeks drawn from the stream seeded with `seed` over the disease list |
| Outbreak.ParamsFrom | frontend/src/generators/outbreak.ts:35-40 | the defaults: start `2024-01-15`, `r0` 2.5, serial interval 5, six generations |
| Outbreak.CaseIdsDistinct | frontend/src/generators/outbreak.ts:53-87 | distinct positions give distinct case ids |
| Outbreak.DaysFromInfector | frontend/src/generators/outbreak.ts:90 | the onset comes at least one day after the infector's |
| Outbreak.DaysNearSerial | frontend/src/generators/outbreak.ts:90 | for a whole serial interval of three days or more the offset stays within two days of it |
| Outbreak.RoundWithinTwo | frontend/src/generators/outbreak.ts:90 | rounding a value within two of an integer stays within two of it |
| Outbreak.SpreadRaise | frontend/src/generators/outbreak.ts:66-113 | the loop state of the cases so far holds for every later generation |
| Outbreak.PushKeeps | frontend/src/generators/outbreak.ts:86-108 | pushing a secondary case of a case of the previous generation keeps the state |
| Outbreak.FindByIdIsPosition | frontend/src/generators/outbreak.ts:91 | `data.find` by the infector's id finds the case at the infector's position, the ids being distinct |
| Outbreak.NextCase | frontend/src/generators/outbreak.ts:87-106 | one secondary case: four draws, the next case id, the generation, the infector's id, an onset the drawn offset after the infector's |
| Outbreak.Secondaries | frontend/src/generators/outbreak.ts:86-109 | the innermost loop keeps the state, extends the output and lists only cases of the generation |
| Outbreak.InfectFrom | frontend/src/generators/outbreak.ts:76-109 | a Knuth-Poisson number of secondary cases against `exp(-r0)`, keeping the state |
| Outbreak.GenerationPass | frontend/src/generators/outbreak.ts:73-110 | one generation: each case of the previous one infects, until the output reaches `count` |
| Outbreak.NextIndexCase | frontend/src/generators/outbreak.ts:53-62 | the index case: `OB-000001`, generation 0, no infector, the start date, age 20..60 |
| Outbreak.GenerationsKept | frontend/src/generators/outbreak.ts:71-108 | appending cases leaves the earlier generations' lists valid |
| Outbreak.GenerationsPush | frontend/src/generators/outbreak.ts:71-108 | the list of the generation just run joins the others |
| Outbreak.SpreadStart | frontend/src/generators/outbreak.ts:53-63 | the index case alone starts the state |
| Outbreak.SpreadLinks | frontend/src/generators/outbreak.ts:53-115 | the finished output: one to `max(count, 1)` cases, the index case first, ids by position, every later case drawn with an infector one generation before it and an onset the offset after its infector's, generations in order |
| Outbreak.NextGeneration | frontend/src/generators/outbreak.ts:67-112 | one pass of the outer loop keeps the state and adds the generation's list |
| Outbreak.Simulate | frontend/src/generators/outbreak.ts:66-113 | the outer loop stops with the state holding and no generation past `maxGenerations` |
| Outbreak.GenerateOutbreak | frontend/src/generators/outbreak.ts:30-116 | `generateOutbreak`: one to `max(count, 1)` cases, the index case first, ids by position, each later case linked to an earlier infector one generation before, generations non-decreasing and never past `maxGenerations` |
| Outbreak.GenerationsHaveNoGaps | frontend/src/generators/outbreak.ts:66-113 | every generation up to case `k`'s has a case at or before `k` |
| Sir.Factor | frontend/src/generators/sir.ts:68-69 | a noise factor lies in [0.9, 1.1) |
| Sir.Days | frontend/src/generators/sir.ts:59-90 | `k` rows |
| Sir.DaysIndex | frontend/src/generators/sir.ts:59-90 | row `n` is day `n`'s record |
| Sir.SirShape | frontend/src/generators/sir.ts:44-90 | one row per simulated day and at least one; row `n` is day `n`; day 0 holds the rounded initial compartments and the unrounded initial infections |
| Sir.SirConservation | frontend/src/generators/sir.ts:76-79 | S + I + R equals the population on every day |
| Sir.FlowsBounded | frontend/src/generators/sir.ts:63-74 | with non-negative compartments, rates and factors the clamped flows are non-negative and never exceed their source compartment |
| Sir.SirNonNegative | frontend/src/generators/sir.ts:44-80 | with `0 <= initialInfected <= population` and non-negative rates no compartment goes negative and the running total stays at least the initial infections |
| Sir.CumulativeGrows | frontend/src/generators/sir.ts:80 | the running total grows by exactly the day's infections and never decreases |
| Sir.DeterministicStates | frontend/src/generators/sir.ts:67-70 | without noise every day's state is independent of the draws |
| Sir.Deterministic | frontend/src/generators/sir.ts:67-70 | without noise the output does not depend on the seed |
| Sir.DayStep | frontend/src/generators/sir.ts:60-74 | one day's flows, drawing two factors exactly when stochastic |
| Sir.DayRecordStep | frontend/src/generators/sir.ts:76-89 | day `n`'s state applies the flows to day `n - 1`'s, and its row rounds the compartments, the day's infections and the running total |
| Sir.NextDay | frontend/src/generators/sir.ts:60-89 | one pass updates the compartments in place to day `n`'s state and pushes day `n`'s row |
| Sir.SirLoop | frontend/src/generators/sir.ts:44-92 | the loop yields `SirFrom` and reads exactly the draws the days use |
| Sir.GenerateSir | frontend/src/generators/sir.ts:27-93 | `generateSIR` is `SirFrom` of the stream seeded with `seed` |
| Seir.Days | frontend/src/generators/seir.ts:67-102 | `k` rows |
| Seir.DaysIndex | frontend/src/generators/seir.ts:67-102 | row `n` is day `n`'s record |
| Seir.SeirShape | frontend/src/generators/seir.ts:51-102 | one row per simulated day and at least one; row `n` is day `n`; day 0 holds the rounded initial compartments and the initial counts as its new exposures and infections; every later day's counts are that day's rounded clamped flows |
| Seir.SeirConservation | frontend/src/generators/seir.ts:87-91 | S + E + I + R equals the population on every day |
| Seir.RateNonNegative | frontend/src/generators/seir.ts:71 | the exposure flow is non-negative for non-negative compartments and rate |
| Seir.FlowsBounded | frontend/src/generators/seir.ts:71-85 | the clamped flows are non-negative and never exceed their source compartment |
| Seir.SeirNonNegative | frontend/src/generators/seir.ts:51-91 | with non-negative initial compartments within the population and non-negative rates all four compartments stay non-negative |
| Seir.DrawFactors | frontend/src/generators/seir.ts:76-80 | three noise factors, drawn exactly when stochastic |
| Seir.DayStep | frontend/src/generators/seir.ts:68-85 | one day's clamped flows are `StepFlows` |
| Seir.DayRecordStep | frontend/src/generators/seir.ts:87-101 | day `n`'s state applies the flows to day `n - 1`'s, and its row rounds the compartments and the day's flows |
| Seir.NextDay | frontend/src/generators/seir.ts:68-101 | one pass updates the compartments in place to day `n`'s state and pushes day `n`'s row |
| Seir.SeirLoop | frontend/src/generators/seir.ts:51-104 | the loop yields `SeirFrom` and reads exactly the draws the days use |
| Seir.GenerateSeir | frontend/src/generators/seir.ts:32-105 | `generateSEIR` is `SeirFrom` of the stream seeded with `seed` |
| Regression.RecordIdsDistinct | frontend/src/generators/regression.ts:53 | within one generator the ids are pairwise distinct |
| Regression.LinearShape | frontend/src/generators/regression.ts:44-60 | `max(count, 0)` records; record `i` is `LIN-` plus `i + 1` and is made from draws `6i .. 6i + 5` |
| Regression.NoiselessLinear | frontend/src/generators/regression.ts:48-50 | with zero noise the outcome is exactly the linear predictor of the unrounded covariates |
| Regression.LinearReadsSixDraws | frontend/src/generators/regression.ts:48-57 | two streams agreeing on a record's six draws give the same record |
| Regression.NextLinear | frontend/src/generators/regression.ts:48-57 | one iteration takes six draws and yields `LinearAt` |
| Regression.GenerateLinear | frontend/src/generators/regression.ts:32-61 | `generateLinear` is `LinearFrom` of the stream seeded with `seed` |
| Regression.Logistic | frontend/src/generators/regression.ts:104 | the logistic probability lies strictly between 0 and 1 |
| Regression.LogisticShape | frontend/src/generators/regression.ts:95-116 | `max(count, 0)` records with ids `LOG-` plus `i + 1`; the outcome is 0 or 1, and 1 exactly when the record's fifth draw falls under the logistic probability of its unrounded covariates |
| Regression.BernoulliBounds | frontend/src/generators/regression.ts:105 | the outcome is 1 exactly when the draw is under the probability, and always for a draw of 0 |
| Regression.LogisticProbability | frontend/src/generators/regression.ts:103-104 | the probability computed in place is `Logistic` |
| Regression.NextLogistic | frontend/src/generators/regression.ts:99-113 | one iteration takes five draws and yields `LogisticAt` |
| Regression.GenerateLogistic | frontend/src/generators/regression.ts:84-117 | `generateLogistic` is `LogisticFrom` of the stream seeded with `seed` |
| Regression.EventRate | frontend/src/generators/regression.ts:156-157 | the log-linear rate is positive |
| Regression.ExpectedCountGrows | frontend/src/generators/regression.ts:160 | with at least one person-year the expected count is at least the rate and grows with the exposure |
| Regression.PoissonAt | frontend/src/generators/regression.ts:152-169 | a record takes more than three draws |
| Regression.PoissonFields | frontend/src/generators/regression.ts:152-169 | one record: its id, an exposure of 1..10 person-years, and a non-negative count drawn by Knuth's method with mean rate times exposure |
| Regression.PoissonShape | frontend/src/generators/regression.ts:148-172 | `max(count, 0)` records with ids `POI-` plus `i + 1`, each as `PoissonFields` says |
| Regression.NextPoisson | frontend/src/generators/regression.ts:152-169 | one iteration yields `PoissonAt` and advances the stream past it |
| Regression.GeneratePoisson | frontend/src/generators/regression.ts:138-173 | `generatePoisson` is `PoissonFrom` of the stream seeded with `seed` |
| Regression.ProportionalHazards | frontend/src/generators/regression.ts:222-226 | at every age a treated subject's hazard is the control's times `hazardRatioTreatment` |
| Regression.ReferenceAge | frontend/src/generators/regression.ts:222-226 | since `Math.pow(x, 0)` is 1, a subject aged 60 has exactly the baseline hazard, times `hazardRatioTreatment` when treated |
| Regression.CoxArmAt | frontend/src/generators/regression.ts:220-229 | treatment 0 or 1 and age 40..80 |
| Regression.CoxFields | frontend/src/generators/regression.ts:220-246 | one subject: its id, treatment 0 or 1, age 40..80, a rounded time within follow-up, an event exactly when the true time comes no later than the censoring time and the end of follow-up |
| Regression.CoxShape | frontend/src/generators/regression.ts:213-249 | `max(count, 0)` records with ids `COX-` plus `i + 1`, within the bounds of `CoxFields` |
| Regression.NextCoxArm | frontend/src/generators/regression.ts:220-229 | three draws give `CoxArmAt` |
| Regression.NextCoxTime | frontend/src/generators/regression.ts:222-229 | one draw gives the exponential event time of the subject's hazard |
| Regression.NextCox | frontend/src/generators/regression.ts:220-246 | one iteration yields `CoxAt` and advances the stream past it |
| Regression.CoxBaseLambda | frontend/src/generators/regression.ts:217 | the baseline rate computed once is `BaseLambda` |
| Regression.CoxLoop | frontend/src/generators/regression.ts:214-249 | the loop yields `CoxFrom` |
| Regression.GenerateCox | frontend/src/generators/regression.ts:200-250 | `generateCox` is `CoxFrom` of the stream seeded with `seed` with the baseline rate of the parameters |
| Joins.Read | frontend/src/generators/joins.ts:54 | `record[key]` is undefined only for a missing key or a stored undefined |
| Joins.ParentKeys | frontend/src/generators/joins.ts:53-55 | at most one key per parent, none of them undefined or null |
| Joins.ParentKeysMembership | frontend/src/generators/joins.ts:53-55 | a value is a parent key exactly when some parent holds it and it is neither undefined nor null |
| Joins.ParentKeysAllPresent | frontend/src/generators/joins.ts:53-55 | when every parent has a key, the parent keys are theirs, in order |
| Joins.StampAll | frontend/src/generators/joins.ts:75-81 | stamping keeps the number of records |
| Joins.StampAllKey | frontend/src/generators/joins.ts:75-81 | every stamped record reads the parent's key under the join key |
| Joins.StampOneToOne | frontend/src/generators/joins.ts:61-66 | the 1:1 stamping keeps the number of generated records |
| Joins.FailureSticks | frontend/src/generators/joins.ts:71-82 | once a `generate` call throws, the 1:N join has failed with that error |
| Joins.ManyUnfold | frontend/src/generators/joins.ts:71-82 | a successful join of `n` parents is that of the first `n - 1` followed by the stamped children of parent `n`, generated with the seed `seed + recordIndex` |
| Joins.ManyExtend | frontend/src/generators/joins.ts:71-82 | one more parent adds its call's error, or its stamped children |
| Joins.ManyKeysFromParents | frontend/src/generators/joins.ts:71-82 | referential integrity: every 1:N child carries the key of one of the parents |
| Joins.KeyedByAppend | frontend/src/generators/joins.ts:75-81 | concatenating keyed records keeps them keyed |
| Joins.ManyCounts | frontend/src/generators/joins.ts:71-82 | with a generator returning what it is asked for and `0 <= min <= max`, the join succeeds and holds exactly the children the parents drew |
| Joins.DrawnTotalBounds | frontend/src/generators/joins.ts:72 | each parent draws between `min` and `max` children |
| Joins.SubSeed | frontend/src/generators/joins.ts:69-81 | parent `n`'s children are generated with the seed `seed +` the number of children its earlier siblings drew |
| Joins.OneToOneStamps | frontend/src/generators/joins.ts:57-66 | 1:1 with a generator returning one record per parent key: child `i` is generated record `i` with the join key overwritten by parent key `i`, every other field kept |
| Joins.JoinedErrors | frontend/src/generators/joins.ts:57-83 | 1:1 fails exactly as its one `generate` call does; 1:N with no parent key makes no call and returns nothing |
| Joins.JoinedKeysFromParents | frontend/src/generators/joins.ts:57-83 | every record of a successful join, 1:1 with no more records than parent keys or 1:N, carries one of the parents' keys |
| Joins.PushStamped | frontend/src/generators/joins.ts:75-81 | pushing the stamped children appends them and counts them in `recordIndex` |
| Joins.ManyParent | frontend/src/generators/joins.ts:71-82 | one pass draws the count, generates and stamps the children, as `ManyUpTo` gives |
| Joins.ManyLoop | frontend/src/generators/joins.ts:69-82 | the 1:N loop is `ManyUpTo` over every parent key |
| Joins.OneToOneLoop | frontend/src/generators/joins.ts:61-66 | the 1:1 `forEach` is `StampOneToOne` |
| Joins.GenerateJoinedDataset | frontend/src/generators/joins.ts:43-86 | `generateJoinedDataset(parentData, config, seed)` is `Joined` of the stream seeded with `seed` |
| Joins.DetectPrimaryKey | frontend/src/generators/joins.ts:152-177 | `id` for no data; otherwise a key of the first record, `undefined` exactly when it has no key |
| Joins.DetectPriority | frontend/src/generators/joins.ts:159-169 | the first priority key the first record has wins |
| Joins.DetectFallback | frontend/src/generators/joins.ts:171-176 | without a priority key, the first key ending in `_id`, and without one of those the first key |
| Joins.PropertyKey | frontend/src/generators/joins.ts:119 | a present key is used as itself |
| Joins.Or | frontend/src/generators/joins.ts:114 | the default, or the string when it is present and not empty |
| Joins.ChildSeed | frontend/src/generators/joins.ts:124 | a child's seed lies in `seed .. seed + 999999` |
| Joins.ChildJoins | frontend/src/generators/joins.ts:122-143 | one join per configuration after the first |
| Joins.ChildJoinsOf | frontend/src/generators/joins.ts:122-143 | the child joins are those of the loop, each with its drawn seed |
| Joins.AssembleShape | frontend/src/generators/joins.ts:106-145 | the datasets: the base first, then every child's join, each named the name, else the schema id |
| Joins.ChildrenShape | frontend/src/generators/joins.ts:122-143 | the first `n` child datasets are the first `n` joins with their names |
| Joins.RelatedShape | frontend/src/generators/joins.ts:91-146 | one dataset per configuration, in order, named the name, else the schema id: the base data first, then child `i` joined against it with the base's primary key unless told otherwise and the seed of draw `i - 1` |
| Joins.ChildrenFailureSticks | frontend/src/generators/joins.ts:122-143 | once a child join throws, the whole call has failed with that error |
| Joins.JoinChild | frontend/src/generators/joins.ts:123-137 | one pass draws the child's seed and joins the child against the base data |
| Joins.ChildrenLoop | frontend/src/generators/joins.ts:122-143 | the loop over the child configurations gives `ChildrenUpTo` |
| Joins.GenerateRelatedDatasets | frontend/src/generators/joins.ts:91-146 | `generateRelatedDatasets(configs, baseCount, seed)` is `Related` of the stream seeded with `seed` |
| Joins.MergedRecords | frontend/src/generators/joins.ts:193-215 | one merged record per base record |
| Joins.MergeShape | frontend/src/generators/joins.ts:183-218 | the merge keeps the base's length and order: record `i` is base record `i` with the other datasets' fields added |
| Joins.PrefixDistinct | frontend/src/generators/joins.ts:204-207 | distinct names stay distinct under a common prefix |
| Joins.CopyFieldOther | frontend/src/generators/joins.ts:205-209 | copying one field leaves every other name untouched |
| Joins.CopyUntouched | frontend/src/generators/joins.ts:205-209 | a field the copy never writes keeps its value |
| Joins.CopyCopies | frontend/src/generators/joins.ts:205-209 | every field of the matching record but the join key lands under its prefixed name |
| Joins.MergeOneSkips | frontend/src/generators/joins.ts:200-211 | a dataset with no match, or with several, adds nothing |
| Joins.MergeKeepsUnprefixed | frontend/src/generators/joins.ts:198-212 | a field whose name starts with none of the prefixes `name_` keeps its base value |
| Joins.CopyEntries | frontend/src/generators/joins.ts:205-209 | the inner copy loop is `CopyPrefixed` |
| Joins.MergeRecord | frontend/src/generators/joins.ts:194-212 | the loop over the other datasets is `MergeAll` on the record's own key value |
| Joins.MergeBase | frontend/src/generators/joins.ts:193-215 | the loop over the base records is `MergedRecords` |
| Joins.MergeDatasets | frontend/src/generators/joins.ts:183-218 | `mergeDatasets(datasets, joinKey)` is `Merge` |
| Validation.Greater | backend/app/base_generator.py:48 | `a > b` on two ends that are not both tuples raises `TypeError` exactly when they are not both numbers or both strings; tuples compare item by item, and an empty tuple is greater only than a shorter one |
| Validation.EqualEndsAccepted | backend/app/base_generator.py:44-49 | no number but NaN, no string and no tuple of such values is greater than itself, so a range with two equal ends of those kinds passes |
| Validation.NestedRangeAccepts | backend/app/base_generator.py:48-49 | a pair of one-item integer tuples passes exactly when the first item is not above the second, as `((1,), (2,))` does |
| Validation.MixedRangeRaises | backend/app/base_generator.py:48 | a tuple end compared with an integer end raises `TypeError` |
| Validation.PositiveIntAccepts | backend/app/base_generator.py:29-32 | exactly the positive integers pass, `True` among them; anything else raises the positive-integer `ValueError` |
| Validation.ProbabilityAccepts | backend/app/base_generator.py:34-37 | exactly the finite numbers in [0, 1] pass, both ends included |
| Validation.PositiveFloatAccepts | backend/app/base_generator.py:39-42 | zero, negatives, negative infinity and non-numbers are rejected; positive numbers, positive infinity and NaN pass |
| Validation.IntRangeAccepts | backend/app/base_generator.py:44-49 | a pair of integers passes exactly when `lo <= hi`, and otherwise raises the min-above-max `ValueError` |
| Validation.RangeNeedsPair | backend/app/base_generator.py:46-47 | anything but a 2-tuple raises the pair `ValueError` before its items are compared |
| Validation.StringLessIrreflexive | backend/app/base_generator.py:48 | no string is less than itself |
| Validation.StringLessAsymmetric | backend/app/base_generator.py:48 | string order is asymmetric |
| Validation.StringRangeOrders | backend/app/base_generator.py:44-49 | a range of two equal strings passes, and of two strings one order or the other passes |
| Validation.BaseGenerator.constructor | backend/app/base_generator.py:19-27 | the generator keeps its seed and owns a fresh numpy stream seeded with it and not yet drawn from |
| CodeErrors.PairAt | backend/app/generators.py:62-64 | where `(.)(.)` first matches: two consecutive characters, neither a newline |
| CodeErrors.MaskFrom | backend/app/generators.py:57 | one mask entry per row |
| CodeErrors.InsertSpaceShape | backend/app/generators.py:62-64 | a code without newlines of two characters or more gets a space after its first character; a shorter one is left alone |
| CodeErrors.InsertSpaceRemovable | backend/app/generators.py:62-64 | the space goes exactly where the pattern matched, and removing it gives the code back |
| CodeErrors.LowercaseIdempotent | backend/app/generators.py:66 | lower-casing twice is lower-casing once |
| CodeErrors.TruncatedIdempotent | backend/app/generators.py:68 | truncation leaves a prefix without a dot, so truncating again changes nothing |
| CodeErrors.TruncateAtDot | backend/app/generators.py:68 | truncation keeps what comes before the first dot, and leaves a code without one as it is |
| CodeErrors.OtherKindsUnchanged | backend/app/generators.py:61-68 | the error types with no branch leave every code as it is |
| CodeErrors.UnmaskedUntouched | backend/app/generators.py:61-68 | codes outside the mask are untouched |
| CodeErrors.NonPositiveSkipped | backend/app/generators.py:53-55 | types whose probability is not above zero are skipped and draw nothing |
| CodeErrors.CertainErrorAppliesEverywhere | backend/app/generators.py:57-68 | a probability of one or more applies the type to every code |
| CodeErrors.OnlyOtherKindsKeepCodes | backend/app/generators.py:53-70 | error types without a branch draw their masks but leave the codes unchanged |
| CodeErrors.Ids | backend/app/generators.py:39 | `n` ids |
| CodeErrors.RewriteMasked | backend/app/generators.py:61-68 | the masked rows of the code column are rewritten in place, the others kept |
| CodeErrors.Picked | backend/app/generators.py:40 | `n` codes, each from the valid list |
| CodeErrors.Cie10Generator.constructor | backend/app/generators.py:10-12 | seeds the shared numpy stream |
| CodeErrors.Cie10Generator.ApplyError | backend/app/generators.py:56-68 | one error type draws a mask over all rows and rewrites the masked codes |
| CodeErrors.Cie10Generator.ApplyErrors | backend/app/generators.py:49-70 | `_apply_errors` applies every type in order, each with a positive probability drawing its own mask |
| CodeErrors.Cie10Generator.PickCodes | backend/app/generators.py:40 | `np.random.choice(valid_codes, n)` draws `n` codes |
| CodeErrors.Cie10Generator.Generate | backend/app/generators.py:37-47 | succeeds exactly for `n >= 0`: ids 1..n and the drawn codes with the errors applied; a negative `n` draws nothing |
| CodeErrors.AgeFromBeta | backend/app/generators.py:84-85 | an age from a beta variate lies in 5..94 |
| CodeErrors.RegionNames | backend/app/generators.py:91 | the region names are `R` and two digits reading 1..15 |
| CodeErrors.DemographicsGenerator.constructor | backend/app/generators.py:76-77 | seeds the shared numpy stream |
| CodeErrors.DemographicsGenerator.Generate | backend/app/generators.py:79-96 | succeeds exactly for `n >= 0`, taking `3n` draws: the people of `PeopleFrom`, drawn column by column from the stream position before the call |
| CodeErrors.PersonFields | backend/app/generators.py:81-92 | person `i` has id `i + 1`, the age `int(beta(2, 5) * 90 + 5)` of the `i`-th beta draw, in 5..94, the gender picked by draw `n + i` and the region picked by draw `2n + i`, each an entry of its list |
| CodeErrors.Assembled | backend/app/generators.py:84-96 | the three columns, each drawn by one vectorised call after the previous one, assemble row by row into `PeopleFrom` |
| PatientIds.Hash6 | backend/app/patient_id.py:47-52 | the hash part is six upper-case hexadecimal characters |
| PatientIds.DefaultIdShape | backend/app/patient_id.py:71-75 | with the default prefix, a one-letter sex and a two-character region the id has 21 characters: `SHDB-`, the birth year, and the six-character hash at the end |
| PatientIds.HashInputsDistinct | backend/app/patient_id.py:50 | with fixed-width fields, different counters give different hashed texts |
| PatientIds.HashInputsCanCoincide | backend/app/patient_id.py:50 | without fixed widths two different calls can hash the same text (region 1 at counter 12 and region 11 at counter 2) |
| PatientIds.AgeCountsBirthdays | backend/app/patient_id.py:103-109 | `_calculate_age` counts the birthdays reached: the one of that many years is not after today and the next one is |
| PatientIds.AddKey | backend/app/patient_id.py:91 | assigning a dictionary key keeps the old keys and adds the new one |
| PatientIds.DistinctCardinality | backend/app/patient_id.py:209-222 | a registry key order without repeats has as many keys as entries |
| PatientIds.DemoFrom | backend/app/patient_id.py:139-146 | a member's drawn age lies in the requested range, the month in 1..12, the day in 1..28, the region in the list and the sex F or M |
| PatientIds.MemberInputAt | backend/app/patient_id.py:137-148 | member `i` of the cohort loop is made from the five draws starting at position `5 * i` |
| PatientIds.Collect | backend/app/patient_id.py:137-149 | a loop that collects `n` results collects exactly `n` |
| PatientIds.CollectAt | backend/app/patient_id.py:137-149 | item `i` of a collected run is the `i`-th step's result |
| PatientIds.CollectFails | backend/app/patient_id.py:137-149 | the loop fails exactly when one of its steps fails |
| PatientIds.CohortRowsNext | backend/app/patient_id.py:137-149 | one more turn of the cohort loop appends member `k` |
| PatientIds.CohortRowAt | backend/app/patient_id.py:137-149 | row `i` of a cohort is member `i`, registered with counter `c0 + i + 1` |
| PatientIds.CohortRowsFail | backend/app/patient_id.py:137-149 | the cohort fails exactly when some member's birth date does not parse |
| PatientIds.MemberParses | backend/app/patient_id.py:140-143 | a birth date built from a four-digit year parses back to that date |
| PatientIds.ReportedAge | backend/app/patient_id.py:100-109 | the reported age is the drawn age, or one less when the drawn birthday is still ahead in the current year |
| PatientIds.CohortAgeBelowRange | backend/app/patient_id.py:139-143 | as written: on 1 January a member drawn at 18 with a February birthday is reported as 17, below an 18..85 range |
| PatientIds.IntendedBirthYearAge | backend/app/patient_id.py:139-143 | corrected: a birth year one earlier when the birthday is still ahead gives back exactly the drawn age |
| PatientIds.CohortRowsSucceed | backend/app/patient_id.py:137-149 | with birth years in 1000..9999 a cohort never fails |
| PatientIds.CohortAges | backend/app/patient_id.py:137-149 | every reported age lies in the requested range or one below it |
| PatientIds.CohortWeights | backend/app/patient_id.py:179-181 | the encounter type weights 0.6, 0.15, 0.1, 0.15 form a probability vector |
| PatientIds.Last6 | backend/app/patient_id.py:177 | `s[-6:]` is the last six characters, or the whole string when shorter |
| PatientIds.DrawPair | backend/app/patient_id.py:171-181 | an encounter's day offset lies in 0..1824 and its type index names one of the four types |
| PatientIds.EncounterCount | backend/app/patient_id.py:165-170 | a patient gets between `lo` and `hi` encounters, none when the bound is negative |
| PatientIds.EncounterDraws | backend/app/patient_id.py:170-182 | a patient's encounter draws number `n`, each in range |
| PatientIds.EncounterDrawsExtend | backend/app/patient_id.py:170-182 | one more encounter appends its two draws |
| PatientIds.Render | backend/app/patient_id.py:175-182 | one encounter record per draw |
| PatientIds.PatientBlockUnfold | backend/app/patient_id.py:165-182 | a patient's block is the count draw followed by two draws per encounter |
| PatientIds.CohortEncountersExtend | backend/app/patient_id.py:164-182 | the encounters of `k + 1` patients are those of `k` followed by patient `k`'s block |
| PatientIds.IdsOf | backend/app/patient_id.py:164 | one id per row |
| PatientIds.PatientBlockShape | backend/app/patient_id.py:165-182 | each patient has `lo`..`hi` encounters (none for a negative bound) carrying the patient's id, numbered from 1, with an offset under five years and one of the four types |
| PatientIds.CohortEncounterIdsDistinct | backend/app/patient_id.py:177 | a patient's encounter ids are distinct |
| PatientIds.CohortEncounterIdCarriesHash | backend/app/patient_id.py:177 | for a default-shaped patient id the encounter id is `ENC-`, the patient's hash and the four-digit number |
| PatientIds.MergedFor | backend/app/patient_id.py:185 | a left merge keeps at least one row per patient |
| PatientIds.LeftMergeKeepsPatients | backend/app/patient_id.py:185 | the left merge on `patient_id` keeps every patient and pairs each only with its own encounters |
| PatientIds.PatientIdGenerator.constructor | backend/app/patient_id.py:36-45 | seeds the numpy stream, counter 0 and an empty registry |
| PatientIds.PatientIdGenerator.GeneratePatient | backend/app/patient_id.py:54-101 | the counter goes up by one first; a birth date that does not parse fails and leaves the registry alone; otherwise the id is registered, overwriting an equal id, and the row with its age is returned |
| PatientIds.PatientIdGenerator.RegistryRows | backend/app/patient_id.py:209-222 | one row per registry key |
| PatientIds.PatientIdGenerator.GetRegistry | backend/app/patient_id.py:209-222 | `get_registry` returns the registry rows in key order |
| PatientIds.PatientIdGenerator.RegistryRowsAreEntries | backend/app/patient_id.py:209-222 | there are as many rows as registered ids, each holding the record last registered under its id |
| PatientIds.PatientIdGenerator.DrawDemo | backend/app/patient_id.py:139-146 | five draws per member; an empty age range fails before drawing and an empty region list fails after four |
| PatientIds.PatientIdGenerator.NextMember | backend/app/patient_id.py:137-149 | one turn of the cohort loop makes member `k` and registers it |
| PatientIds.PatientIdGenerator.CohortStep | backend/app/patient_id.py:137-149 | one turn of the loop appends the next member or stops with the failure that the whole cohort cannot avoid |
| PatientIds.PatientIdGenerator.CohortPatients | backend/app/patient_id.py:132-150 | `n` members, each registered, matching the specification of the loop; no members and no draws for `n <= 0` |
| PatientIds.PatientIdGenerator.NextDraws | backend/app/patient_id.py:171-181 | one encounter's two draws |
| PatientIds.PatientIdGenerator.DrawEncounters | backend/app/patient_id.py:170-182 | a patient's encounter draws, two each |
| PatientIds.PatientIdGenerator.EncountersFor | backend/app/patient_id.py:165-182 | one patient's encounters match their specification and consume their draws |
| PatientIds.PatientIdGenerator.AllEncounters | backend/app/patient_id.py:164-182 | every patient's encounters in order |
| PatientIds.PatientIdGenerator.AddEncounters | backend/app/patient_id.py:158-185 | the encounters of all patients left-merged on `patient_id`; an empty encounter table raises `KeyError`; an empty encounter range raises before drawing |
| PatientIds.PatientIdGenerator.GenerateCohort | backend/app/patient_id.py:111-156 | `n` patient rows (none for `n <= 0`), or at least that many merged rows with encounters; default regions `01`..`16` |
| ClinicalEncounters.TypeWeights | backend/app/patient_id.py:268-270 | the type weights 0.55, 0.2, 0.1, 0.15 form a probability vector |
| ClinicalEncounters.HeadFrom | backend/app/patient_id.py:259-272 | the patient index is in the list, the day offset in `0..days-1`, the type one of four, the facility in 1..99 and the provider in 1..499 |
| ClinicalEncounters.DiagnosesAt | backend/app/patient_id.py:275-277 | a primary code exactly when diagnoses are on, a secondary only then, both from the fifteen common codes |
| ClinicalEncounters.ProcedureAt | backend/app/patient_id.py:279-280 | a procedure only when procedures are on, from the ten codes |
| ClinicalEncounters.EncounterAt | backend/app/patient_id.py:259-280 | one encounter consumes five to ten draws and respects the bounds and the diagnosis and procedure switches |
| ClinicalEncounters.EncountersAt | backend/app/patient_id.py:257-282 | `n` encounters, each within bounds and switches |
| ClinicalEncounters.EncountersAtNext | backend/app/patient_id.py:257-282 | one more turn appends one encounter drawn where the previous ones stopped |
| ClinicalEncounters.Render | backend/app/patient_id.py:264-282 | one row per drawn encounter |
| ClinicalEncounters.RenderNext | backend/app/patient_id.py:258-282 | the row appended by a turn is numbered with the counter after its increment |
| ClinicalEncounters.EncounterIdsCount | backend/app/patient_id.py:258-265 | encounter id `j` of a call reads back as `ENC-` and the number `c0 + j + 1`, so ids are unique, increasing and above those of earlier calls |
| ClinicalEncounters.RecordShape | backend/app/patient_id.py:259-280 | a row refers to a patient of the list, has one of the four types, and carries diagnoses and procedure codes only as switched on, each from its list |
| ClinicalEncounters.RecordNumbers | backend/app/patient_id.py:271-272 | the facility id reads back as `FAC-` and 1..99, the provider as `PROV-` and 1..499 |
| ClinicalEncounters.RowsShape | backend/app/patient_id.py:257-282 | every row of a call has that shape and is numbered by its turn |
| ClinicalEncounters.TypeFollowsWeights | backend/app/patient_id.py:268-270 | type `k` is chosen exactly when the draw falls in the `k`-th slice of the cumulative weights |
| ClinicalEncounters.OptionalCodes | backend/app/patient_id.py:277-280 | a secondary diagnosis is drawn exactly when its draw is below 0.4, a procedure exactly when its draw is below 0.3 |
| ClinicalEncounters.EncounterGenerator.constructor | backend/app/patient_id.py:228-230 | reseeds the numpy stream, counter 0 |
| ClinicalEncounters.EncounterGenerator.DrawHead | backend/app/patient_id.py:259-272 | the first five draws; an empty patient list fails before drawing and an empty date range after one draw |
| ClinicalEncounters.EncounterGenerator.DrawDiagnoses | backend/app/patient_id.py:275-277 | the diagnosis draws agree with their specification |
| ClinicalEncounters.EncounterGenerator.DrawProcedure | backend/app/patient_id.py:279-280 | the procedure draws agree with their specification |
| ClinicalEncounters.EncounterGenerator.NextEncounter | backend/app/patient_id.py:259-280 | one encounter's draws agree with their specification, or the error numpy raises |
| ClinicalEncounters.EncounterGenerator.EncounterStep | backend/app/patient_id.py:257-282 | one turn: the counter goes up first, then the encounter is drawn and its row appended |
| ClinicalEncounters.EncounterGenerator.GenerateEncounters | backend/app/patient_id.py:232-284 | `n` rows numbered from the counter, as specified; none for `n <= 0`; an empty patient list or date range fails on the first turn after the counter moved |
| LabResults.TestsOf | backend/app/patient_id.py:328-356 | an unknown panel has no tests, a known one has some |
| LabResults.ValueAt | backend/app/patient_id.py:359-366 | a value takes two draws in the normal branch and three in an abnormal one |
| LabResults.TestAt | backend/app/patient_id.py:359-372 | the date offset is under three years |
| LabResults.TestsAt | backend/app/patient_id.py:356-380 | `k` tests of a panel, each dated within three years |
| LabResults.TestsAtNext | backend/app/patient_id.py:356-380 | one more test continues where the previous stopped |
| LabResults.ResultAt | backend/app/patient_id.py:353-356 | the patient and the panel are drawn from their lists |
| LabResults.ResultsAt | backend/app/patient_id.py:352-380 | `n` results, each drawn from the lists |
| LabResults.ResultsAtNext | backend/app/patient_id.py:352-380 | one more result continues where the previous stopped |
| LabResults.PanelRows | backend/app/patient_id.py:356-380 | one row per test of the panel |
| LabResults.PanelRowsNext | backend/app/patient_id.py:356-380 | the inner loop appends the next test's row |
| LabResults.LabRowsNext | backend/app/patient_id.py:352-380 | the outer loop appends the rows of the next result |
| LabResults.LabRowsCount | backend/app/patient_id.py:352-380 | a call makes one row per test of each drawn panel |
| LabResults.NormalBranch | backend/app/patient_id.py:360-361 | a value from the normal branch lies in the normal range and is flagged `N` |
| LabResults.LowBranch | backend/app/patient_id.py:363-364 | the abnormal-low branch is flagged `L` exactly when the abnormal range starts below the normal one |
| LabResults.HighBranch | backend/app/patient_id.py:365-366 | the abnormal-high branch is flagged `H` unless its draw is exactly zero |
| LabResults.LowBranchNeverLow | backend/app/patient_id.py:329-346 | glucose, total cholesterol, LDL and triglycerides never get an `L`; a low-branch glucose lies in (70, 80] and is flagged `N` |
| LabResults.LaboratoryGenerator.constructor | backend/app/patient_id.py:307-308 | reseeds the numpy stream |
| LabResults.LaboratoryGenerator.DrawValue | backend/app/patient_id.py:359-366 | the value draws agree with their specification |
| LabResults.LaboratoryGenerator.MeasureTest | backend/app/patient_id.py:359-372 | the value, then the date |
| LabResults.LaboratoryGenerator.MeasurePanel | backend/app/patient_id.py:356-380 | the inner loop makes one row per test, as specified |
| LabResults.LaboratoryGenerator.NextResult | backend/app/patient_id.py:353-380 | one result's rows as specified; an empty patient list fails before drawing, an empty panel list after one draw |
| LabResults.LaboratoryGenerator.ResultStep | backend/app/patient_id.py:352-380 | one turn of the outer loop appends the next result's rows |
| LabResults.LaboratoryGenerator.LabLoop | backend/app/patient_id.py:352-382 | `n` results expanded into rows, as specified |
| LabResults.LaboratoryGenerator.GenerateLabs | backend/app/patient_id.py:310-382 | the three panels by default; none for `n <= 0`; an empty patient or panel list fails |
| SurveillanceBackend.AlertBands | backend/app/surveillance.py:102-110 | `_determine_alert` gives one of the four levels, each on exactly its band: RED from 3, ORANGE from 2 to 3, YELLOW from 1.5 to 2, GREEN below 1.5 |
| SurveillanceBackend.AlertMonotone | backend/app/surveillance.py:102-110 | a higher z-score never gives a lower level |
| SurveillanceBackend.OutbreakAt | backend/app/surveillance.py:75-78 | the outbreak decision takes one draw, and one more when an outbreak happens |
| SurveillanceBackend.CasesAt | backend/app/surveillance.py:82 | `poisson` raises exactly for a negative rate, before drawing |
| SurveillanceBackend.CellAt | backend/app/surveillance.py:66-82 | a cell has no case count exactly when its rate is negative, and takes one to three draws |
| SurveillanceBackend.DiseaseCells | backend/app/surveillance.py:65-98 | one cell per disease |
| SurveillanceBackend.DiseaseCellsNext | backend/app/surveillance.py:65-98 | the innermost loop appends the next disease's cell |
| SurveillanceBackend.RegionCellsNext | backend/app/surveillance.py:64-98 | the middle loop appends the next region's cells |
| SurveillanceBackend.DayCellsNext | backend/app/surveillance.py:61-98 | the outer loop appends the next day's cells |
| SurveillanceBackend.RegionCellsCount | backend/app/surveillance.py:64-98 | a day has one cell per region and disease |
| SurveillanceBackend.DayCellsCount | backend/app/surveillance.py:61-98 | a call has `days * regions * len(diseases)` cells |
| SurveillanceBackend.DrawnAt | backend/app/surveillance.py:82 | every cell of a completed run has its case count |
| SurveillanceBackend.AllDrawnAppend | backend/app/surveillance.py:61-98 | a run is complete exactly when both of its parts are |
| SurveillanceBackend.Rows | backend/app/surveillance.py:88-98 | one row per cell, in order |
| SurveillanceBackend.Records | backend/app/surveillance.py:88-98 | one record per cell of a completed run |
| SurveillanceBackend.RowsAppend | backend/app/surveillance.py:88-98 | the rows of joined cells are the joined rows |
| SurveillanceBackend.RecordsAppend | backend/app/surveillance.py:88-98 | the records of joined complete runs are the joined records |
| SurveillanceBackend.Extended | backend/app/surveillance.py:61-98 | appending an inner loop's records to a complete run gives the records of the longer run |
| SurveillanceBackend.DiseaseCellsDrawn | backend/app/surveillance.py:65-98 | a complete run of diseases ran every shorter run whole |
| SurveillanceBackend.RegionCellsDrawn | backend/app/surveillance.py:64-98 | a complete run of regions ran every shorter run whole |
| SurveillanceBackend.DayCellsDrawn | backend/app/surveillance.py:61-98 | a complete run of days ran every shorter run whole |
| SurveillanceBackend.CellOutbreak | backend/app/surveillance.py:75-78 | the outbreak flag is set exactly when its draw fell below the outbreak probability, and then the factor lies in [2, 5) |
| SurveillanceBackend.CellOfIn | backend/app/surveillance.py:61-98 | every drawn cell lies in its day, region and disease |
| SurveillanceBackend.CellsInAt | backend/app/surveillance.py:61-98 | every cell of a well-formed run is well formed |
| SurveillanceBackend.CellsInAppend | backend/app/surveillance.py:61-98 | joining well-formed runs keeps them well formed |
| SurveillanceBackend.DiseaseCellsIn | backend/app/surveillance.py:65-98 | the cells of one region are well formed |
| SurveillanceBackend.RegionCellsIn | backend/app/surveillance.py:64-98 | the cells of one day are well formed |
| SurveillanceBackend.DayCellsIn | backend/app/surveillance.py:61-98 | the cells of a run of days are well formed |
| SurveillanceBackend.AlertCellsIn | backend/app/surveillance.py:61-98 | a call has `days * regions * len(diseases)` cells, each in its day, region and disease, with its baseline (1.0 when missing), the expected count built from it and an outbreak factor of 1 or in [2, 5) |
| SurveillanceBackend.RecordLabel | backend/app/surveillance.py:91 | the region label is `R` followed by at least two digits |
| SurveillanceBackend.RecordIn | backend/app/surveillance.py:85-97 | a well-formed cell gives a row with the cell's case and expected counts, whose z-score is `(cases - base) / sqrt(base)` for a positive base and 0 otherwise, whose level comes from that z-score, and whose flag is set exactly for an outbreak, whose factor then lies in [2, 5) |
| SurveillanceBackend.AlertRows | backend/app/surveillance.py:61-98 | every row of a completed call is such a row |
| SurveillanceBackend.SeasonalOnlyRespiratory | backend/app/surveillance.py:69-72 | the seasonal factor differs from 1 only for codes starting with `J` |
| SurveillanceBackend.NoNegativeRate | backend/app/surveillance.py:66-82 | with `sin` in [-1, 1] and no negative baseline, no rate is negative, so `poisson` never raises |
| SurveillanceBackend.ZScoreWithoutBase | backend/app/surveillance.py:85-86 | the z-score is 0, and the level GREEN, for a baseline that is not positive |
| SurveillanceBackend.BaselinesAt | backend/app/surveillance.py:55-56 | the default baselines have one entry per listed disease |
| SurveillanceBackend.BaselinesRange | backend/app/surveillance.py:56 | every default baseline lies in [0.5, 10) |
| SurveillanceBackend.BaselineLastWins | backend/app/surveillance.py:56 | a repeated code keeps the draw of its last occurrence |
| SurveillanceBackend.SurveillanceGenerator.constructor | backend/app/surveillance.py:32-34 | reseeds the numpy stream, alert counter 0 |
| SurveillanceBackend.SurveillanceGenerator.DrawBaselines | backend/app/surveillance.py:55-56 | the default baselines, one draw per listed code |
| SurveillanceBackend.SurveillanceGenerator.DrawOutbreak | backend/app/surveillance.py:75-78 | the outbreak draws agree with their specification |
| SurveillanceBackend.SurveillanceGenerator.DrawCases | backend/app/surveillance.py:82 | the case draw agrees with its specification |
| SurveillanceBackend.SurveillanceGenerator.DrawCell | backend/app/surveillance.py:66-82 | one cell; a negative rate stops before the `poisson` draw |
| SurveillanceBackend.SurveillanceGenerator.DiseaseStep | backend/app/surveillance.py:65-98 | one pass of the innermost loop, or the failure that ends the call |
| SurveillanceBackend.SurveillanceGenerator.DiseaseLoop | backend/app/surveillance.py:65-98 | the innermost loop succeeds exactly when all its rates are accepted, and then yields their records |
| SurveillanceBackend.SurveillanceGenerator.RegionStep | backend/app/surveillance.py:64-98 | one pass of the middle loop |
| SurveillanceBackend.SurveillanceGenerator.RegionLoop | backend/app/surveillance.py:64-98 | the middle loop over regions 1 to `regions` |
| SurveillanceBackend.SurveillanceGenerator.DayStep | backend/app/surveillance.py:61-98 | one pass of the outer loop |
| SurveillanceBackend.SurveillanceGenerator.DayLoop | backend/app/surveillance.py:61-98 | the outer loop succeeds exactly when every rate is accepted, with one record per cell; otherwise it fails with `lam < 0` |
| SurveillanceBackend.SurveillanceGenerator.GenerateAlertSystem | backend/app/surveillance.py:36-100 | the default baselines when none are given, then one record per day, region and disease, as specified; a negative rate makes `poisson` raise |
| SurveillanceBackend.AlertStart | backend/app/surveillance.py:55-56 | given baselines are used as they are and draw nothing; the default ones take one draw per listed code |
| SurveillanceBackend.GenerationBand | backend/app/surveillance.py:263-267 | a propagated case's generation is the number of whole five-day intervals in its delay, never negative for a non-negative delay |
| SurveillanceBackend.GenerationOtherTypes | backend/app/surveillance.py:265-266 | every other outbreak type is generation 0 |
| SurveillanceBackend.OutbreakGenerator.constructor | backend/app/surveillance.py:183-184 | reseeds the numpy stream |
| SurveillanceBackend.OutbreakGenerator.Secondaries | backend/app/surveillance.py:247-255 | an infector's secondaries are appended until the list holds `n`, each later than the infector |
| SurveillanceBackend.OutbreakGenerator.PropagatedDelays | backend/app/surveillance.py:236-261 | at most `n` delays, each positive |
| SurveillanceBackend.ClipIncidence | backend/app/surveillance.py:327 | `np.maximum(incidence, 0)` keeps the length, zeroes the negative values, keeps the others and leaves no negative rate |
| NumpyRandom.WeightedIndex | backend/app/patient_id.py:179-181 | `choice(a, p=p)` picks an index of the list |
| NumpyRandom.WeightedIndexInterval | backend/app/patient_id.py:179-181 | index `k` is chosen exactly when the uniform value falls in `[Cum(p, k), Cum(p, k + 1))`, so with probability `p[k]` |
| NumpyRandom.UniformWithin | backend/app/surveillance.py:56 | `uniform(lo, hi)` lies in `[lo, hi]`, below `hi` for a non-empty range and above `lo` unless its draw is zero |
| NumpyRandom.UniformReversed | backend/app/patient_id.py:364 | with `hi < lo` (the glucose low branch, 80 to 70) `uniform(lo, hi)` lies in `(hi, lo]` |
| NumpyRandom.Generator.Seed | backend/app/patient_id.py:42 | `np.random.seed` restarts the stream of the given seed |
| NumpyRandom.Generator.Random | backend/app/patient_id.py:145 | `random()` is the next value of the stream, in [0, 1), and uses one draw |
| NumpyRandom.Generator.RandomVector | backend/app/generators.py:57 | `random(n)` is the next `n` values of the stream |
| NumpyRandom.Generator.RandInt | backend/app/patient_id.py:139 | `randint(lo, hi)` lies in `[lo, hi)` and uses one draw; an empty range raises before drawing |
| NumpyRandom.Generator.Uniform | backend/app/surveillance.py:76 | `uniform(lo, hi)` is decided by the next draw |
| NumpyRandom.Generator.Choice | backend/app/patient_id.py:146 | `choice(a)` picks an index of the list with one draw; an empty list raises before drawing |
| NumpyRandom.Generator.WeightedChoice | backend/app/patient_id.py:179-181 | `choice(a, p=p)` picks the index whose slice holds the next draw |
| NumpyRandom.Generator.ChoiceVector | backend/app/generators.py:40 | `choice(a, n)` picks `n` indices, one draw each; an empty list raises unless nothing is drawn |
| NumpyRandom.Generator.BetaVector | backend/app/generators.py:84 | `beta(a, b, n)` gives `n` values strictly between 0 and 1 |
| NumpyRandom.Generator.ExponentialVector | backend/app/epidemic_generators.py:80 | `exponential(scale, n)` gives `n` non-negative values |
| NumpyRandom.Generator.NormalVector | backend/app/epidemic_generators.py:84 | `normal(mean, sd, n)` gives `n` values, one draw each |
| NumpyRandom.Generator.BinomialVector | backend/app/epidemic_generators.py:81 | `binomial(trials, p, n)` gives `n` counts of at most `trials`; a probability outside [0, 1] raises before drawing |
| NumpyRandom.Generator.Poisson | backend/app/surveillance.py:82 | `poisson(lam)` uses one draw; a negative rate raises before drawing |
| NumpyRandom.Generator.Gamma | backend/app/surveillance.py:253 | `gamma(shape, scale)` is positive |
| NumpyEpidemics.SirConserved | backend/app/epidemic_generators.py:21-27 | each SIR step only moves people between compartments, so S + I + R is the population plus the 10 initial infected on every day |
| NumpyEpidemics.SirGoesNegative | backend/app/epidemic_generators.py:22-25 | nothing is clamped: population 10, R0 10 and gamma 1 give a susceptible count of -90 on day 1 |
| NumpyEpidemics.SeirConserved | backend/app/epidemic_generators.py:49-57 | S + E + I + R is the population plus 10 on every day |
| NumpyEpidemics.EpidemicGenerator.constructor | backend/app/epidemic_generators.py:9-10 | reseeds the numpy stream |
| NumpyEpidemics.EpidemicGenerator.SirColumns | backend/app/epidemic_generators.py:17-27 | the three arrays have `n_days` entries and day `d` holds the `d`-th step from the start |
| NumpyEpidemics.EpidemicGenerator.SeirColumns | backend/app/epidemic_generators.py:44-57 | the four arrays have `n_days` entries and day `d` holds the `d`-th step from the start |
| NumpyEpidemics.EpidemicGenerator.Sir | backend/app/epidemic_generators.py:12-31 | `n_days` rows numbered from 0, row `d` being day `d` of the model with `beta = R0 * gamma` started at (population, 10, 0); a negative `n_days` fails as numpy does |
| NumpyEpidemics.EpidemicGenerator.Seir | backend/app/epidemic_generators.py:33-67 | `n_days` rows, row `d` being day `d` of the model started at (population, 0, 10, 0); a negative `n_days` fails |
| NumpyEpidemics.SexesAt | backend/app/epidemic_generators.py:86 | `n` indices into `["M", "F"]` |
| NumpyEpidemics.AssembledRows | backend/app/epidemic_generators.py:80-97 | the columns drawn from four consecutive blocks of `n` draws assemble into the specified rows |
| NumpyEpidemics.Subjects | backend/app/epidemic_generators.py:88-97 | `n` rows, row `i` the specified subject |
| NumpyEpidemics.SubjectRanges | backend/app/epidemic_generators.py:80-97 | ids count from 1, ages lie in [18, 85] (the truncated normal draw when in range), the sex is M or F, the follow-up never exceeds the study's, the event is 0 or 1 and `censored = 1 - event` |
| NumpyEpidemics.TruncateTowardZero | backend/app/epidemic_generators.py:84 | `astype(int)` truncates toward zero |
| NumpyEpidemics.SurvivalGenerator.constructor | backend/app/epidemic_generators.py:73-74 | reseeds the numpy stream |
| NumpyEpidemics.SurvivalGenerator.DrawOutcomes | backend/app/epidemic_generators.py:80-81 | the exponential draws, then the binomial draws, which fail for a rate outside [0, 1] after the times were drawn |
| NumpyEpidemics.SurvivalGenerator.DrawCovariates | backend/app/epidemic_generators.py:84-86 | the normal draws for the ages, then the choice between two sexes |
| NumpyEpidemics.SurvivalGenerator.KaplanMeier | backend/app/epidemic_generators.py:76-97 | the rows of the draws as specified; a negative size fails before drawing and a rate outside [0, 1] after the times |

## Left out

- Floating point: JavaScript and numpy doubles are modelled as exact reals, so sums and conservation laws hold exactly in the model and only up to rounding in the source. `Math.round` is modelled as `floor(x + 0.5)`.
- Transcendental functions (`Math.log`, `exp`, `sqrt`, `sin`, `cos`, `pow`) are fields of a `Transcendentals` parameter. Only `exp(x) > 0` is assumed of them, through the `MathLib` subset type, where the Poisson sampler needs it to stop.
- `toJSON`, `downloadFile`, `downloadCSV` and `downloadJSON` (structured text and browser downloads), the pages and the node builder are outside the generation engine; `toCSV` is modelled by Records.ToCsv.
- Stream: the closure adds the increment to a JavaScript double; the model is exact only while `|seed| + k * 0x6d2b79f5` stays below 2^53 after k calls, beyond which the sum rounds and its low 32 bits no longer follow 32-bit addition. Every contract about "the stream seeded with `seed`" holds below that bound.
- Registry.Generate: dispatch is modelled as returning the registered schema; running the generator is modelled by each generator's own members, not through this lookup.
- Vitals: the reference value of every vital sign comes from `generarValorNormal`, which draws from the unseeded `Math.random()`; the model takes those normal deviates as a parameter `zs`, so in the source the vital signs are not a function of `seed`, only the weight, height, date and jitter are.
- Conditions and Medications: the local-time `Date` arithmetic (`new Date(date)`, `setDate(getDate() + days)` and `toISOString`) is an abstract parameter `addDays` of the date and the number of days; the calendar itself is not modelled.
- Clocks: `new Date()`, `datetime.now()` and `pd.Timestamp.now()` are a `today` parameter, or dates are kept as day offsets.
- Conditions.GenerateConditions: requires a non-empty patient list; with none, JavaScript emits the id `undefined`, which the model does not represent.
- Procedures.GenerateProcedures: requires a non-empty patient list, for the same reason as conditions.
- Immunizations.GenerateImmunizations: requires a non-empty patient list, a PNI vaccine and at least one dose per PNI vaccine; with no dose JavaScript reads a field of `undefined` and throws, which the model does not represent.
- Medications.GenerateMedications: requires a non-empty patient list, for the same reason as conditions.
- Medications.DrawnDurationValid: says nothing of an acute duration when `durationMax` is below `durationMin`, where the duration falls between the two.
- Observations.GenerateObservations: requires a non-empty patient list, for the same reason as conditions.
- Vitals.GenerateVitals: requires a non-empty patient list; with none, JavaScript looks up `undefined` in the map and emits the id `undefined`, which the model does not represent.
- CaseControl.GenerateCaseControl: requires `controlsPerCase != -1`; there JavaScript divides by zero and, for a non-zero count, one of the loops never ends.
- Survival.GenerateSurvival: requires a non-zero median survival; with zero JavaScript divides by zero and the exponential times become 0 or NaN, which the model does not represent.
- Surveillance.GenerateSurveillance: takes the resolved `weeks` parameter; its default, the `count` argument, is applied by the caller.
- Outbreak.GenerateOutbreak: states what every output satisfies (ids, links, onsets, generation order and bounds), not the exact cases drawn for a seed.
- Sir.DayStep: a day whose total N is zero moves no one; JavaScript divides by zero there and the compartments become NaN.
- Sir.GenerateSir: takes the resolved `days` parameter; its default, the `count` argument, is applied by the caller.
- Seir.DayStep: a day whose total N is zero exposes no one; JavaScript divides by zero there.
- Seir.GenerateSeir: takes the resolved `days` parameter; its default, the `count` argument, is applied by the caller.
- Regression.GenerateCox: requires a non-zero baseline survival; with zero JavaScript divides by zero.
- Validation.Equal: Python compares tuple items with an identity shortcut, so a tuple holding the very same NaN object at the position compared counts it as equal; the model treats NaN as equal to nothing.
- Text.ToLower: only ASCII and Latin-1 capitals are lower-cased; `toLowerCase` also maps other letters, such as U+212A KELVIN SIGN to `k` and the Greek and Latin Extended capitals.
- Text.ToUpper: only ASCII and Latin-1 small letters are upper-cased; `toUpperCase` also maps `ÿ` to `Ÿ`, `µ` to `Μ`, `ß` to `SS` (two characters) and the Greek and Latin Extended small letters.
- LabTests.ReferenceRangeFirst: the group match ignores case only for ASCII and Latin-1 letters, so a query with other letters can match a group in the source and not in the model.
- Records.IntParam: a parameter holding a non-integral number, `null`, a string or a boolean falls back to the default in the model. JavaScript applies a destructuring default only to a missing or `undefined` value and uses any other value as it is, coerced by `<` and `+` (`generateSIR(100, 1, {days: 10.5})` simulates days 0 to 10). The integer parameters of Sir, Seir, Surveillance, Outbreak, Survival, Regression.GenerateCox and Encounters therefore do not represent such values.
- `generateBaseDataset` (joins.ts lines 28-35) only forwards to `generate`, whose lookup as written is `Registry.GenerateAsWritten`; `Registry.Generate` is the corrected lookup of the findings below.
- Joins: the generators behind `generate` are a parameter `gen` of the join functions, so a join's properties hold for any generator, the one the application passes (`generate` as written, `Registry.GenerateAsWritten`) and the corrected `Registry.Generate` alike. For an inherited name such as `toString` the lookup as written returns a function that is not a generator; what the join then does with its result is not modelled.
- BaseGenerator.generate: abstract in the source; each concrete generator is modelled on its own.
- CodeErrors.DemographicsGenerator.Generate: the `age_dist` argument is unused in the source and is not modelled.
- PatientIds: `link_datasets` (a chain of pandas outer merges) is not modelled; DataFrame merges other than the left merge of `_add_encounters` are out of scope.
- PatientIds: sha256 and uuid5 are abstract functions of a `Foreign` parameter, as is the `strptime` date parser; `datetime.now()` is a `today` parameter and `created_at` is not modelled.
- PatientIds.PatientIdGenerator.GenerateCohort: states the row counts only; the rows themselves are stated by CohortPatients and AddEncounters, which it calls.
- ClinicalEncounters: the dates are day offsets from the range start; `pd.Timestamp` arithmetic and formatting are not modelled.
- LabResults: values are not rounded to two decimals, and the flag is computed on the unrounded value as in the source; test dates are day offsets before today.
- SurveillanceBackend: `generate_notifiable_diseases`, `generate_outbreak` (beyond its propagated delays and generations) and the time-series generator (beyond its clipping) are not modelled; they are pandas table assembly around numpy draws.
- SurveillanceBackend: dates and `epi_week` (`isocalendar`) are not modelled; a record carries its day index. `round(…, 2)` of the expected count and the z-score is not modelled.
- SurveillanceBackend: `sin`, `sqrt` and `pi` are parameters of a `Transcendentals` record; `poisson` is an abstract function of the rate and a uniform draw.
- SurveillanceBackend.SurveillanceGenerator.constructor: the alert counter is set but never used by the source.
- SurveillanceBackend.OutbreakGenerator.PropagatedDelays: states the count bound and that each delay is positive; the infection tree (which delay is whose infector) and the stop on an empty generation are not stated as a postcondition. Secondaries states that each child delay exceeds its infector's.
- NumpyEpidemics.EpidemicGenerator.Sir: requires a non-zero population; with population 0 numpy divides by zero and fills the columns with infinities and NaN, which real arithmetic cannot represent.
- NumpyEpidemics.EpidemicGenerator.Seir: requires a non-zero population for the same reason; `latent_period` is accepted and never read, as in the source.
- NumpyEpidemics: floating-point rounding of the SIR and SEIR steps is not modelled; the compartments are exact reals, so conservation holds exactly in the model and only up to rounding in the source.
- NumpyRandom: numpy's generator is modelled as a stream of uniform values per seed with a call counter; the distributions (beta, exponential, normal, binomial, poisson, gamma) are abstract functions of a `Variates` parameter with only the range facts numpy documents.

## Findings

| source | as written | input that shows it | evidently intended | confidence | as-written member | corrected member |
|---|---|---|---|---|---|---|
| frontend/src/generators/index.ts:120-124 | `generators[schemaId]` on a plain object also finds the members inherited from `Object.prototype`, so `if (!generator)` never throws for them | `generate("toString", 10, 42)` passes the `if (!generator)` guard and calls `Object.prototype.toString` instead of throwing `Unknown schema: toString` | only the thirteen registered schemas are accepted; any other id throws `Unknown schema` | high, by reading; not executed | Registry.InheritedKeyEscapes | Registry.Generate |
| backend/app/patient_id.py:139-143 | the birth year is `now().year - age` with a random month and day, and `_calculate_age` then subtracts one when that birthday is still ahead this year | on 1 January, `age_range=(18, 85)`, a member drawn at 18 with a February birthday is reported as 17 | documented behaviour rather than an outright defect: backend/tests/test_patient_id.py:51-58 accepts ages one year outside `age_range` "for date calculation"; a birth year one earlier when the birthday is still ahead would report the drawn age itself | low as a defect, since the test tolerates it; by reading; not executed | PatientIds.CohortAgeBelowRange | PatientIds.IntendedBirthYearAge |
