/** Generic records and the CSV serialiser of
    frontend/src/generators/index.ts (`GeneratedRecord`, `toCSV`).

    A record is a JavaScript object: its keys in insertion order, each
    with a value. A missing key reads as `undefined`, written `None`. */
module Records {
  import opened Prelude
  import opened Text

  /** The values the generators put into records. `Num` is a JavaScript
      number that is not known to be integral; `Undefined` is a key
      stored with the value `undefined`. */
  datatype Value = Str(s: string) | Int(i: int) | Num(x: real) | Bool(b: bool) | Null | Undefined

  type Record = seq<(string, Value)>

  /** `Object.keys(record)`. */
  function Keys(r: Record): (ks: seq<string>)
    ensures |ks| == |r| && forall i | 0 <= i < |r| :: ks[i] == r[i].0
  {
    if |r| == 0 then [] else [r[0].0] + Keys(r[1..])
  }

  /** The position of the first `key` in `ks`. */
  function IndexIn(ks: seq<string>, key: string): (i: Option<nat>)
    ensures i.Some? ==> i.value < |ks| && ks[i.value] == key
    ensures i.None? <==> key !in ks
  {
    if |ks| == 0 then None
    else if ks[0] == key then Some(0)
    else
      assert ks == [ks[0]] + ks[1..];
      match IndexIn(ks[1..], key)
      case Some(j) => Some(j + 1)
      case None => None
  }

  /** No earlier position holds the key. */
  lemma {:induction false} IndexInFirst(ks: seq<string>, key: string)
    requires IndexIn(ks, key).Some?
    ensures forall j | 0 <= j < IndexIn(ks, key).value :: ks[j] != key
  {
    if ks[0] != key {
      IndexInFirst(ks[1..], key);
      forall j | 0 <= j < IndexIn(ks, key).value
        ensures ks[j] != key
      {
        if j > 0 {
          assert ks[j] == ks[1..][j - 1];
        }
      }
    }
  }

  /** Appending a key changes where no other key is found. */
  lemma {:induction false} IndexInAppend(ks: seq<string>, key: string, k: string)
    ensures IndexIn(ks + [key], k) == if k in ks then IndexIn(ks, k) else if k == key then Some(|ks|) else None
  {
    if |ks| > 0 {
      assert (ks + [key])[1..] == ks[1..] + [key];
      IndexInAppend(ks[1..], key, k);
      assert ks == [ks[0]] + ks[1..];
    }
  }

  /** The entry `record[key]` reads: the first one stored under `key`. */
  function KeyIndex(r: Record, key: string): (i: Option<nat>)
    ensures i.Some? ==> i.value < |r| && r[i.value].0 == key
    ensures i.None? <==> key !in Keys(r)
  {
    IndexIn(Keys(r), key)
  }

  /** `record[key]`: the value stored under `key`, or `undefined`. */
  function Get(r: Record, key: string): (v: Option<Value>)
    ensures v.Some? <==> key in Keys(r)
  {
    match KeyIndex(r, key)
    case Some(i) => Some(r[i].1)
    case None => None
  }

  /** The value read is the one stored with the first occurrence of the
      key. */
  lemma GetFound(r: Record, key: string)
    requires key in Keys(r)
    ensures exists i | 0 <= i < |r| ::
      r[i] == (key, Get(r, key).value) && forall j | 0 <= j < i :: r[j].0 != key
  {
    var i := KeyIndex(r, key).value;
    IndexInFirst(Keys(r), key);
    forall j | 0 <= j < i
      ensures r[j].0 != key
    {
      assert Keys(r)[j] == r[j].0;
    }
    assert r[i] == (key, Get(r, key).value);
  }

  /** `record[key] = v`: overwrite in place when present (the key keeps
      its position), append otherwise. */
  function Set(r: Record, key: string, v: Value): (r': Record)
    ensures Get(r', key) == Some(v)
  {
    match KeyIndex(r, key)
    case Some(i) =>
      assert Keys(r[i := (key, v)]) == Keys(r);
      r[i := (key, v)]
    case None =>
      assert Keys(r + [(key, v)]) == Keys(r) + [key];
      IndexInAppend(Keys(r), key, key);
      r + [(key, v)]
  }

  /** Setting one key leaves every other key as it was. */
  lemma SetOther(r: Record, key: string, v: Value, k: string)
    requires k != key
    ensures Get(Set(r, key, v), k) == Get(r, k)
  {
    if KeyIndex(r, key).None? {
      assert Keys(r + [(key, v)]) == Keys(r) + [key];
      IndexInAppend(Keys(r), key, k);
    } else {
      var i := KeyIndex(r, key).value;
      assert Keys(r[i := (key, v)]) == Keys(r);
    }
  }

  /** Overwriting keeps the key order; a new key goes last. */
  lemma SetKeys(r: Record, key: string, v: Value)
    ensures key in Keys(r) ==> Keys(Set(r, key, v)) == Keys(r)
    ensures key !in Keys(r) ==> Keys(Set(r, key, v)) == Keys(r) + [key]
  {
    if KeyIndex(r, key).None? {
      assert Keys(r + [(key, v)]) == Keys(r) + [key];
    } else {
      var i := KeyIndex(r, key).value;
      assert Keys(r[i := (key, v)]) == Keys(r);
    }
  }

  /** A numeric parameter read from a parameter object: the integer
      stored under the key, or `default` when the key is absent or holds
      `undefined` (where a destructuring default applies) or any value
      other than an integer. */
  function IntParam(params: Record, key: string, default: int): (v: int)
    ensures Get(params, key).None? || Get(params, key) == Some(Undefined) ==> v == default
    ensures Get(params, key).Some? && Get(params, key).value.Int? ==> v == Get(params, key).value.i
  {
    match Get(params, key)
    case Some(Int(i)) => i
    case _ => default
  }

  /** A real parameter: integers and other numbers are both read. */
  function RealParam(params: Record, key: string, default: real): (v: real)
    ensures Get(params, key).None? ==> v == default
  {
    match Get(params, key)
    case Some(Int(i)) => i as real
    case Some(Num(x)) => x
    case _ => default
  }

  /** A string parameter. */
  function StrParam(params: Record, key: string, default: string): (v: string)
    ensures Get(params, key).None? ==> v == default
  {
    match Get(params, key)
    case Some(Str(t)) => t
    case _ => default
  }

  function BoolParam(params: Record, key: string, default: bool): (v: bool)
    ensures Get(params, key).None? ==> v == default
  {
    match Get(params, key)
    case Some(Bool(b)) => b
    case _ => default
  }

  // ---------------------------------------------------------------
  // CSV
  // ---------------------------------------------------------------

  /** `s.replace(/"/g, '""')`. */
  function DoubleQuotes(s: string): (r: string)
    ensures |r| >= |s|
  {
    if |s| == 0 then ""
    else if s[0] == '"' then "\"\"" + DoubleQuotes(s[1..])
    else [s[0]] + DoubleQuotes(s[1..])
  }

  /** The reading of a quoted field's inside by a CSV reader: `""` is one
      quote. */
  function UndoubleQuotes(s: string): string
    decreases |s|
  {
    if |s| >= 2 && s[0] == '"' && s[1] == '"' then "\"" + UndoubleQuotes(s[2..])
    else if |s| == 0 then ""
    else [s[0]] + UndoubleQuotes(s[1..])
  }

  lemma {:induction false} UndoubleDoubled(s: string)
    ensures UndoubleQuotes(DoubleQuotes(s)) == s
  {
    if |s| > 0 {
      UndoubleDoubled(s[1..]);
      if s[0] == '"' {
        assert ("\"\"" + DoubleQuotes(s[1..]))[2..] == DoubleQuotes(s[1..]);
      } else {
        var d := [s[0]] + DoubleQuotes(s[1..]);
        assert d[1..] == DoubleQuotes(s[1..]);
        if |d| >= 2 && d[1] == '"' {
          assert d[0] != '"';
        }
      }
    }
  }

  /** A string value needs quoting when it holds a comma or a quote. */
  predicate NeedsQuotes(s: string) { ',' in s || '"' in s }

  /** One CSV field: a string holding a comma or a quote is wrapped in
      quotes with every quote doubled; `null` and `undefined` are empty;
      anything else is `String(val)`. `show` renders a non-integral
      number. */
  function Field(v: Option<Value>, show: real -> string): string {
    match v
    case None => ""
    case Some(Null) => ""
    case Some(Undefined) => ""
    case Some(Str(s)) => if NeedsQuotes(s) then "\"" + DoubleQuotes(s) + "\"" else s
    case Some(Int(i)) => IntToString(i)
    case Some(Num(x)) => show(x)
    case Some(Bool(b)) => if b then "true" else "false"
  }

  /** A quoted field reads back as the original string. */
  lemma FieldReadsBack(s: string, show: real -> string)
    ensures var f := Field(Some(Str(s)), show);
      if NeedsQuotes(s) then
        |f| >= 2 && f[0] == '"' && f[|f| - 1] == '"' && UndoubleQuotes(f[1..|f| - 1]) == s
      else f == s
  {
    if NeedsQuotes(s) {
      var f := Field(Some(Str(s)), show);
      assert f[1..|f| - 1] == DoubleQuotes(s);
      UndoubleDoubled(s);
    }
  }

  /** The fields of one record in header order. */
  function RowFields(headers: seq<string>, r: Record, show: real -> string): (fs: seq<string>)
    ensures |fs| == |headers|
    ensures forall j | 0 <= j < |headers| :: fs[j] == Field(Get(r, headers[j]), show)
  {
    if |headers| == 0 then []
    else [Field(Get(r, headers[0]), show)] + RowFields(headers[1..], r, show)
  }

  function Row(headers: seq<string>, r: Record, show: real -> string): string {
    Join(RowFields(headers, r, show), ",")
  }

  /** `toCSV(records)`: empty for no records; otherwise the first
      record's keys, then one row per record, joined by newlines. */
  function ToCsv(records: seq<Record>, show: real -> string): string {
    if |records| == 0 then ""
    else
      var headers := Keys(records[0]);
      Join([Join(headers, ",")] + Rows(headers, records, show), "\n")
  }

  function Rows(headers: seq<string>, records: seq<Record>, show: real -> string): (rows: seq<string>)
    ensures |rows| == |records|
    ensures forall i | 0 <= i < |records| :: rows[i] == Row(headers, records[i], show)
  {
    if |records| == 0 then []
    else [Row(headers, records[0], show)] + Rows(headers, records[1..], show)
  }

  // ---------------------------------------------------------------
  // Properties of the CSV text
  // ---------------------------------------------------------------

  lemma EmptyCsv(show: real -> string)
    ensures ToCsv([], show) == ""
  {
  }

  /** Only the header keys are read: two records that agree on every
      header key give the same row, so extra keys are dropped and a
      missing key is an empty field. */
  lemma RowReadsHeadersOnly(headers: seq<string>, r: Record, r': Record, show: real -> string)
    requires forall h | h in headers :: Get(r, h) == Get(r', h)
    ensures Row(headers, r, show) == Row(headers, r', show)
  {
    var a := RowFields(headers, r, show);
    var b := RowFields(headers, r', show);
    assert forall j | 0 <= j < |headers| :: a[j] == b[j] by {
      forall j | 0 <= j < |headers| ensures a[j] == b[j] {
        assert headers[j] in headers;
      }
    }
    assert a == b;
  }

  lemma MissingKeyIsEmpty(r: Record, key: string, show: real -> string)
    requires key !in Keys(r)
    ensures Field(Get(r, key), show) == ""
  {
  }

  /** Number of occurrences of `c` in `s`. */
  function Count(s: string, c: char): nat {
    if |s| == 0 then 0 else (if s[0] == c then 1 else 0) + Count(s[1..], c)
  }

  lemma {:induction false} CountAppend(a: string, b: string, c: char)
    ensures Count(a + b, c) == Count(a, c) + Count(b, c)
  {
    if |a| == 0 {
      assert a + b == b;
    } else {
      assert (a + b)[1..] == a[1..] + b;
      CountAppend(a[1..], b, c);
    }
  }

  lemma {:induction false} CountJoin(parts: seq<string>, sep: string, c: char)
    requires |parts| > 0
    requires forall i | 0 <= i < |parts| :: Count(parts[i], c) == 0
    ensures Count(Join(parts, sep), c) == (|parts| - 1) * Count(sep, c)
  {
    if |parts| > 1 {
      CountJoin(parts[1..], sep, c);
      CountAppend(parts[0] + sep, Join(parts[1..], sep), c);
      CountAppend(parts[0], sep, c);
    }
  }

  /** A value is free of the character `c` when its field text is. */
  predicate FieldFree(v: Option<Value>, c: char, show: real -> string) {
    Count(Field(v, show), c) == 0
  }

  /** When neither the keys nor any field holds a line break, the text
      has exactly one line per record after the header: as many newline
      characters as records. */
  lemma CsvLineCount(records: seq<Record>, show: real -> string)
    requires |records| > 0
    requires forall k | k in Keys(records[0]) :: Count(k, '\n') == 0
    requires forall i, k | 0 <= i < |records| && k in Keys(records[0]) ::
      FieldFree(Get(records[i], k), '\n', show)
    ensures Count(ToCsv(records, show), '\n') == |records|
  {
    var headers := Keys(records[0]);
    CountJoin1(headers, ",");
    var rows := Rows(headers, records, show);
    forall i | 0 <= i < |rows| ensures Count(rows[i], '\n') == 0 {
      var fs := RowFields(headers, records[i], show);
      forall j | 0 <= j < |fs| ensures Count(fs[j], '\n') == 0 {
        assert headers[j] in headers;
        assert FieldFree(Get(records[i], headers[j]), '\n', show);
      }
      CountJoin1(fs, ",");
    }
    var lines := [Join(headers, ",")] + rows;
    assert forall i | 0 <= i < |lines| :: Count(lines[i], '\n') == 0;
    CountJoin(lines, "\n", '\n');
  }

  /** Joining newline-free parts with a comma adds no newline. */
  lemma CountJoin1(parts: seq<string>, sep: string)
    requires sep == ","
    requires forall i | 0 <= i < |parts| :: Count(parts[i], '\n') == 0
    ensures Count(Join(parts, sep), '\n') == 0
  {
    if |parts| > 0 {
      CountJoin(parts, sep, '\n');
    }
  }
}
