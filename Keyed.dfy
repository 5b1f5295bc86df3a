/** The identifiers shared by the generators that attach records to
    given patient ids (conditions, procedures, immunizations,
    medications, observations, vitals in frontend/src/generators/):
    `${PREFIX}-${year}-${hash(key)}`, where the key starts with
    `${patientId}-${i}`. */
module Keyed {
  import opened Prelude
  import opened Text

  /** `${patientId}-${i}`. */
  function RowKey(patientId: string, i: int): string {
    patientId + "-" + IntToString(i)
  }

  /** `${RowKey}-${code}`, the key of a record id that also names the
      drawn catalog entry. */
  function CodedKey(patientId: string, i: int, code: string): string {
    RowKey(patientId, i) + "-" + code
  }

  /** `${prefix}-${year}-${hash(key)}`: the prefix, the year, and six
      upper-case hex digits. */
  function KeyedId(prefix: string, year: int, key: string): (r: string)
    ensures |r| == |prefix| + |IntToString(year)| + 8
    ensures r[..|prefix| + 1] == prefix + "-"
    ensures AllUpperHex(r[|r| - 6..])
  {
    var h := Hash(key);
    var r := prefix + "-" + IntToString(year) + "-" + h;
    assert r[|r| - 6..] == h;
    assert r[..|prefix| + 1] == prefix + "-";
    r
  }

  /** The encounter reference every patient-keyed record carries:
      `ENC-${year}-${hash(`${patientId}-${i}`)}`. */
  function EncounterRef(year: int, patientId: string, i: int): string {
    KeyedId("ENC", year, RowKey(patientId, i))
  }

  /** Two records built for the same patient at the same loop index
      share their hash, whichever prefix their ids carry. */
  lemma SameRowSameHash(p1: string, p2: string, year: int, patientId: string, i: int)
    ensures var a := KeyedId(p1, year, RowKey(patientId, i));
      var b := KeyedId(p2, year, RowKey(patientId, i));
      a[|a| - 6..] == b[|b| - 6..]
  {
    var a := KeyedId(p1, year, RowKey(patientId, i));
    var b := KeyedId(p2, year, RowKey(patientId, i));
    var h := Hash(RowKey(patientId, i));
    assert a == p1 + "-" + IntToString(year) + "-" + h;
    assert a[|a| - 6..] == h;
    assert b[|b| - 6..] == h;
  }
}
