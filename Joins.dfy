/** frontend/src/generators/joins.ts: related datasets. A child dataset is
    generated against the records of a parent one and stamped with the
    parent's join key, one child per parent (1:1) or a drawn number of
    children per parent (1:N); a chain of configurations yields a base
    dataset and its children; `mergeDatasets` flattens the children that
    match a base record exactly once into it under prefixed names.

    `generate` (the registry call, with whatever generator it reaches) is
    the parameter `gen`: it returns the generated records or the error it
    throws, and an error ends the whole operation. */
module Joins {
  import opened Prelude
  import opened Stream
  import opened Text
  import opened Sampling
  import opened Records

  /** `generate(schemaId, count, seed, params)`. */
  type Generate = (string, int, int, Record) -> Result<seq<Record>, string>

  datatype JoinType = OneToOne | OneToMany

  /** `JoinConfig`; a missing `minRecords` or `maxRecords` is `None`. */
  datatype JoinConfig = JoinConfig(
    schemaId: string, joinType: JoinType, joinKey: string,
    minRecords: Option<int>, maxRecords: Option<int>, params: Record)

  /** `record[key]`, `undefined` for a missing key. */
  function Read(r: Record, key: string): (v: Value)
    ensures v.Undefined? ==> Get(r, key).None? || Get(r, key) == Some(Undefined)
  {
    match Get(r, key)
    case None => Undefined
    case Some(v) => v
  }

  /** A join-key value that survives `key !== undefined && key !== null`. */
  predicate Present(v: Value) {
    !v.Undefined? && !v.Null?
  }

  // ---------------------------------------------------------------
  // Parent keys
  // ---------------------------------------------------------------

  /** The parents' join-key values in order, undefined and null dropped. */
  function ParentKeys(parents: seq<Record>, key: string): (ks: seq<Value>)
    ensures |ks| <= |parents|
    ensures forall v | v in ks :: Present(v)
  {
    if |parents| == 0 then []
    else
      var v := Read(parents[0], key);
      (if Present(v) then [v] else []) + ParentKeys(parents[1..], key)
  }

  /** A value is a parent key exactly when some parent holds it and it
      is neither undefined nor null. */
  lemma {:induction false} ParentKeysMembership(parents: seq<Record>, key: string, v: Value)
    ensures v in ParentKeys(parents, key)
      <==> Present(v) && exists i | 0 <= i < |parents| :: Read(parents[i], key) == v
  {
    if |parents| > 0 {
      ParentKeysMembership(parents[1..], key, v);
      if exists i | 0 <= i < |parents| :: Read(parents[i], key) == v {
        var i :| 0 <= i < |parents| && Read(parents[i], key) == v;
        if i > 0 {
          assert Read(parents[1..][i - 1], key) == v;
        }
      }
      if exists i | 0 <= i < |parents| - 1 :: Read(parents[1..][i], key) == v {
        var i :| 0 <= i < |parents| - 1 && Read(parents[1..][i], key) == v;
        assert Read(parents[i + 1], key) == v;
      }
    }
  }

  /** When every parent has a key, the parent keys are theirs, in order. */
  lemma {:induction false} ParentKeysAllPresent(parents: seq<Record>, key: string)
    requires forall i | 0 <= i < |parents| :: Present(Read(parents[i], key))
    ensures var ks := ParentKeys(parents, key);
      |ks| == |parents| && forall i | 0 <= i < |parents| :: ks[i] == Read(parents[i], key)
  {
    if |parents| > 0 {
      ParentKeysAllPresent(parents[1..], key);
      var ks := ParentKeys(parents, key);
      forall i | 0 <= i < |parents|
        ensures ks[i] == Read(parents[i], key)
      {
        if i > 0 {
          assert parents[1..][i - 1] == parents[i];
        }
      }
    }
  }

  // ---------------------------------------------------------------
  // Stamping
  // ---------------------------------------------------------------

  /** `{ ...record, [key]: v }` for every record. */
  function StampAll(rs: seq<Record>, key: string, v: Value): (out: seq<Record>)
    ensures |out| == |rs|
  {
    seq(|rs|, i requires 0 <= i < |rs| => Set(rs[i], key, v))
  }

  /** Every stamped record reads `v` under the key. */
  lemma StampAllKey(rs: seq<Record>, key: string, v: Value, keys: seq<Value>)
    requires v in keys
    ensures KeyedBy(StampAll(rs, key, v), key, keys)
  {
    var out := StampAll(rs, key, v);
    forall r | r in out
      ensures Read(r, key) in keys
    {
      var i :| 0 <= i < |out| && out[i] == r;
      assert r == Set(rs[i], key, v);
    }
  }

  /** `parentKeys[index]`, `undefined` past the end. */
  function KeyAt(keys: seq<Value>, i: nat): Value {
    if i < |keys| then keys[i] else Undefined
  }

  /** The 1:1 stamping: record `i` gets the key of parent `i`. */
  function StampOneToOne(base: seq<Record>, keys: seq<Value>, key: string): (out: seq<Record>)
    ensures |out| == |base|
  {
    seq(|base|, i requires 0 <= i < |base| => Set(base[i], key, KeyAt(keys, i)))
  }

  // ---------------------------------------------------------------
  // 1:N
  // ---------------------------------------------------------------

  /** `minRecords = 1, maxRecords = 5`. */
  function Bounds(c: JoinConfig): (int, int) {
    (if c.minRecords.Some? then c.minRecords.value else 1,
     if c.maxRecords.Some? then c.maxRecords.value else 5)
  }

  /** The number of children parent `k` asks for: one draw. */
  function ChildCount(ds: Draws, k: nat, c: JoinConfig): int {
    IntFromDraw(ds(k), Bounds(c).0, Bounds(c).1)
  }

  /** One parent of a 1:N join: unless an earlier call threw, parent `k`
      generates its children with the seed `seed + ` the number of records
      emitted so far and stamps them with its key. */
  function ManyStep(prev: Result<seq<Record>, string>, ds: Draws, keys: seq<Value>, c: JoinConfig, seed: int,
                    gen: Generate, k: nat)
    : Result<seq<Record>, string>
    requires k < |keys|
  {
    match prev
    case Failure(e) => Failure(e)
    case Success(out) =>
      match gen(c.schemaId, ChildCount(ds, k, c), seed + |out|, c.params)
      case Failure(e) => Failure(e)
      case Success(children) => Success(out + StampAll(children, c.joinKey, keys[k]))
  }

  /** The output after the first `n` parents of a 1:N join. */
  function ManyUpTo(ds: Draws, keys: seq<Value>, c: JoinConfig, seed: int, gen: Generate, n: nat)
    : Result<seq<Record>, string>
    requires n <= |keys|
  {
    if n == 0 then Success([])
    else ManyStep(ManyUpTo(ds, keys, c, seed, gen, n - 1), ds, keys, c, seed, gen, n - 1)
  }

  /** Once a call throws, the join has failed with that error. */
  lemma {:induction false} FailureSticks(ds: Draws, keys: seq<Value>, c: JoinConfig, seed: int, gen: Generate,
                                         n: nat, m: nat)
    requires n <= m <= |keys| && ManyUpTo(ds, keys, c, seed, gen, n).Failure?
    ensures ManyUpTo(ds, keys, c, seed, gen, m) == ManyUpTo(ds, keys, c, seed, gen, n)
    decreases m
  {
    if m > n {
      FailureSticks(ds, keys, c, seed, gen, n, m - 1);
    }
  }

  /** A successful join of `n` parents is the successful join of the
      first `n - 1` followed by the stamped children of parent `n`. */
  lemma ManyUnfold(ds: Draws, keys: seq<Value>, c: JoinConfig, seed: int, gen: Generate, n: nat)
    returns (out: seq<Record>, children: seq<Record>)
    requires 0 < n <= |keys| && ManyUpTo(ds, keys, c, seed, gen, n).Success?
    ensures ManyUpTo(ds, keys, c, seed, gen, n - 1) == Success(out)
    ensures gen(c.schemaId, ChildCount(ds, n - 1, c), seed + |out|, c.params) == Success(children)
    ensures ManyUpTo(ds, keys, c, seed, gen, n) == Success(out + StampAll(children, c.joinKey, keys[n - 1]))
  {
    var prev := ManyUpTo(ds, keys, c, seed, gen, n - 1);
    assert ManyUpTo(ds, keys, c, seed, gen, n) == ManyStep(prev, ds, keys, c, seed, gen, n - 1);
    out := prev.value;
    children := gen(c.schemaId, ChildCount(ds, n - 1, c), seed + |out|, c.params).value;
  }

  /** One more parent, forwards: its call's error, or its stamped
      children appended. */
  lemma ManyExtend(ds: Draws, keys: seq<Value>, c: JoinConfig, seed: int, gen: Generate, n: nat,
                   out: seq<Record>, children: Result<seq<Record>, string>)
    requires n < |keys| && ManyUpTo(ds, keys, c, seed, gen, n) == Success(out)
    requires gen(c.schemaId, ChildCount(ds, n, c), seed + |out|, c.params) == children
    ensures children.Failure? ==> ManyUpTo(ds, keys, c, seed, gen, n + 1) == Failure(children.error)
    ensures children.Success? ==>
      ManyUpTo(ds, keys, c, seed, gen, n + 1) == Success(out + StampAll(children.value, c.joinKey, keys[n]))
  {
    assert ManyUpTo(ds, keys, c, seed, gen, n + 1) == ManyStep(Success(out), ds, keys, c, seed, gen, n);
  }

  /** Referential integrity: every 1:N child carries the key of one of
      the parents. */
  lemma {:induction false} ManyKeysFromParents(ds: Draws, keys: seq<Value>, c: JoinConfig, seed: int,
                                               gen: Generate, n: nat)
    requires n <= |keys| && ManyUpTo(ds, keys, c, seed, gen, n).Success?
    ensures KeyedBy(ManyUpTo(ds, keys, c, seed, gen, n).value, c.joinKey, keys)
  {
    if n > 0 {
      var out, children := ManyUnfold(ds, keys, c, seed, gen, n);
      ManyKeysFromParents(ds, keys, c, seed, gen, n - 1);
      StampAllKey(children, c.joinKey, keys[n - 1], keys);
      KeyedByAppend(out, StampAll(children, c.joinKey, keys[n - 1]), c.joinKey, keys);
    }
  }

  /** Every record reads one of `keys` under `key`. */
  ghost predicate KeyedBy(rs: seq<Record>, key: string, keys: seq<Value>) {
    forall r | r in rs :: Read(r, key) in keys
  }

  lemma KeyedByAppend(a: seq<Record>, b: seq<Record>, key: string, keys: seq<Value>)
    requires KeyedBy(a, key, keys) && KeyedBy(b, key, keys)
    ensures KeyedBy(a + b, key, keys)
  {
  }

  /** `gen` returns exactly the number of records asked for, for this
      schema and parameters, whatever the seed. */
  ghost predicate ExactCounts(gen: Generate, id: string, params: Record) {
    forall n: int, s: int | n >= 0 :: gen(id, n, s, params).Success? && |gen(id, n, s, params).value| == n
  }

  /** The children asked for by the first `n` parents. */
  function DrawnTotal(ds: Draws, n: nat, c: JoinConfig): int {
    if n == 0 then 0 else DrawnTotal(ds, n - 1, c) + ChildCount(ds, n - 1, c)
  }

  /** With a generator that returns what it is asked for and bounds
      `0 <= min <= max`, the first `n` parents emit exactly the children
      they drew, between `min` and `max` each; and parent `n`'s children
      are generated with the seed `seed + ` all the children its earlier
      siblings drew. */
  lemma {:induction false} ManyCounts(ds: Draws, keys: seq<Value>, c: JoinConfig, seed: int, gen: Generate, n: nat)
    requires n <= |keys| && ExactCounts(gen, c.schemaId, c.params)
    requires 0 <= Bounds(c).0 <= Bounds(c).1
    ensures ManyUpTo(ds, keys, c, seed, gen, n).Success?
    ensures |ManyUpTo(ds, keys, c, seed, gen, n).value| == DrawnTotal(ds, n, c)
  {
    if n > 0 {
      ManyCounts(ds, keys, c, seed, gen, n - 1);
      var k := ChildCount(ds, n - 1, c);
      var prev := ManyUpTo(ds, keys, c, seed, gen, n - 1);
      assert 0 <= k;
      assert ManyUpTo(ds, keys, c, seed, gen, n) == ManyStep(prev, ds, keys, c, seed, gen, n - 1);
      var children := gen(c.schemaId, k, seed + |prev.value|, c.params);
      assert children.Success? && |children.value| == k;
    }
  }

  /** Each parent draws between `min` and `max` children. */
  lemma {:induction false} DrawnTotalBounds(ds: Draws, c: JoinConfig, n: nat)
    requires Bounds(c).0 <= Bounds(c).1
    ensures Bounds(c).0 * n <= DrawnTotal(ds, n, c) <= Bounds(c).1 * n
  {
    if n > 0 {
      DrawnTotalBounds(ds, c, n - 1);
      var (lo, hi) := Bounds(c);
      assert lo * n == lo * (n - 1) + lo;
      assert hi * n == hi * (n - 1) + hi;
    }
  }

  /** Parent `n`'s children are generated with the seed `seed + ` all
      the children its earlier siblings drew. */
  lemma SubSeed(ds: Draws, keys: seq<Value>, c: JoinConfig, seed: int, gen: Generate, n: nat, out: seq<Record>)
    requires n < |keys| && ExactCounts(gen, c.schemaId, c.params)
    requires 0 <= Bounds(c).0 <= Bounds(c).1
    requires ManyUpTo(ds, keys, c, seed, gen, n) == Success(out)
    ensures |out| == DrawnTotal(ds, n, c)
    ensures ManyUpTo(ds, keys, c, seed, gen, n + 1)
      == Success(out + StampAll(gen(c.schemaId, ChildCount(ds, n, c), seed + DrawnTotal(ds, n, c), c.params).value,
                                c.joinKey, keys[n]))
  {
    ManyCounts(ds, keys, c, seed, gen, n);
    var children := gen(c.schemaId, ChildCount(ds, n, c), seed + |out|, c.params);
    assert children.Success?;
    ManyExtend(ds, keys, c, seed, gen, n, out, children);
  }

  // ---------------------------------------------------------------
  // generateJoinedDataset
  // ---------------------------------------------------------------

  /** What `generateJoinedDataset(parents, config, seed)` returns or
      throws, for the draws `ds` of its stream. */
  function Joined(ds: Draws, parents: seq<Record>, c: JoinConfig, seed: int, gen: Generate)
    : Result<seq<Record>, string>
  {
    var keys := ParentKeys(parents, c.joinKey);
    match c.joinType
    case OneToOne =>
      (match gen(c.schemaId, |keys|, seed, c.params)
       case Failure(e) => Failure(e)
       case Success(base) => Success(StampOneToOne(base, keys, c.joinKey)))
    case OneToMany => ManyUpTo(ds, keys, c, seed, gen, |keys|)
  }

  /** 1:1 with a generator that returns one record per parent: child `i`
      is generated record `i` with the join key overwritten by parent key
      `i`, every other field kept. */
  lemma OneToOneStamps(ds: Draws, parents: seq<Record>, c: JoinConfig, seed: int, gen: Generate)
    requires c.joinType == OneToOne
    requires var keys := ParentKeys(parents, c.joinKey);
      gen(c.schemaId, |keys|, seed, c.params).Success?
      && |gen(c.schemaId, |keys|, seed, c.params).value| == |keys|
    ensures var keys := ParentKeys(parents, c.joinKey);
      var base := gen(c.schemaId, |keys|, seed, c.params).value;
      var r := Joined(ds, parents, c, seed, gen);
      r.Success? && |r.value| == |keys|
      && forall i | 0 <= i < |keys| ::
           Read(r.value[i], c.joinKey) == keys[i]
           && forall k | k != c.joinKey :: Get(r.value[i], k) == Get(base[i], k)
  {
    var keys := ParentKeys(parents, c.joinKey);
    var base := gen(c.schemaId, |keys|, seed, c.params).value;
    var out := StampOneToOne(base, keys, c.joinKey);
    assert Joined(ds, parents, c, seed, gen) == Success(out);
    forall i, k | 0 <= i < |keys| && k != c.joinKey
      ensures Get(out[i], k) == Get(base[i], k)
    {
      SetOther(base[i], c.joinKey, keys[i], k);
    }
  }

  /** Which calls throw: 1:1 calls `generate` even with no parent keys,
      1:N calls it once per parent key and not at all without one. */
  lemma JoinedErrors(ds: Draws, parents: seq<Record>, c: JoinConfig, seed: int, gen: Generate)
    ensures var keys := ParentKeys(parents, c.joinKey);
      (c.joinType == OneToOne && gen(c.schemaId, |keys|, seed, c.params).Failure?) ==>
        Joined(ds, parents, c, seed, gen) == Failure(gen(c.schemaId, |keys|, seed, c.params).error)
    ensures (c.joinType == OneToMany && |ParentKeys(parents, c.joinKey)| == 0) ==>
      Joined(ds, parents, c, seed, gen) == Success([])
  {
  }

  /** Every joined record, 1:1 with as many records as parent keys or
      1:N, carries one of the parents' keys. */
  lemma JoinedKeysFromParents(ds: Draws, parents: seq<Record>, c: JoinConfig, seed: int, gen: Generate)
    requires Joined(ds, parents, c, seed, gen).Success?
    requires c.joinType == OneToOne ==>
      |gen(c.schemaId, |ParentKeys(parents, c.joinKey)|, seed, c.params).value| <= |ParentKeys(parents, c.joinKey)|
    ensures forall r | r in Joined(ds, parents, c, seed, gen).value ::
      Present(Read(r, c.joinKey))
      && exists p | p in parents :: Read(p, c.joinKey) == Read(r, c.joinKey)
  {
    var keys := ParentKeys(parents, c.joinKey);
    var out := Joined(ds, parents, c, seed, gen).value;
    if c.joinType == OneToMany {
      ManyKeysFromParents(ds, keys, c, seed, gen, |keys|);
    }
    forall r | r in out
      ensures Present(Read(r, c.joinKey)) && exists p | p in parents :: Read(p, c.joinKey) == Read(r, c.joinKey)
    {
      var v := Read(r, c.joinKey);
      if c.joinType == OneToOne {
        var i :| 0 <= i < |out| && out[i] == r;
        assert v == keys[i];
      }
      assert v in keys;
      ParentKeysMembership(parents, c.joinKey, v);
      var i :| 0 <= i < |parents| && Read(parents[i], c.joinKey) == v;
      assert parents[i] in parents;
    }
  }

  /** `records.forEach(r => joinedData.push({ ...r, [joinKey]: v }))`,
      with `recordIndex++` per record. */
  method PushStamped(joined0: seq<Record>, children: seq<Record>, key: string, v: Value)
    returns (joined: seq<Record>, recordIndex: int)
    ensures joined == joined0 + StampAll(children, key, v) && recordIndex == |joined|
  {
    joined, recordIndex := joined0, |joined0|;
    var t := 0;
    while t < |children|
      invariant 0 <= t <= |children| && |joined| == |joined0| + t && recordIndex == |joined|
      invariant joined[..|joined0|] == joined0
      invariant forall i | 0 <= i < t :: joined[|joined0| + i] == Set(children[i], key, v)
    {
      joined := joined + [Set(children[t], key, v)];
      recordIndex := recordIndex + 1;
      t := t + 1;
    }
    assert joined == joined0 + StampAll(children, key, v);
  }

  /** One pass of the 1:N loop: draw the number of children, generate
      them with the seed `seed + recordIndex`, stamp and push them. */
  method ManyParent(rng: Mulberry32, keys: seq<Value>, c: JoinConfig, seed: int, gen: Generate, j: nat,
                    joined: seq<Record>, recordIndex: int)
    returns (r: Result<seq<Record>, string>, recordIndex': int)
    requires j < |keys| && rng.Valid() && rng.draws == j && recordIndex == |joined|
    requires ManyUpTo(rng.values, keys, c, seed, gen, j) == Success(joined)
    modifies rng
    ensures rng.Valid() && rng.draws == j + 1
    ensures r == ManyUpTo(rng.values, keys, c, seed, gen, j + 1)
    ensures r.Success? ==> recordIndex' == |r.value|
  {
    var (lo, hi) := Bounds(c);
    var parentKey := keys[j];
    var numRecords := RandomInt(rng, lo, hi);
    var childRecords := gen(c.schemaId, numRecords, seed + recordIndex, c.params);
    ManyExtend(rng.values, keys, c, seed, gen, j, joined, childRecords);
    if childRecords.Failure? {
      return Failure(childRecords.error), recordIndex;
    }
    var joined';
    joined', recordIndex' := PushStamped(joined, childRecords.value, c.joinKey, parentKey);
    r := Success(joined');
  }

  /** The 1:N loop over the parent keys. */
  method ManyLoop(rng: Mulberry32, keys: seq<Value>, c: JoinConfig, seed: int, gen: Generate)
    returns (r: Result<seq<Record>, string>)
    requires rng.Valid() && rng.draws == 0
    modifies rng
    ensures r == ManyUpTo(rng.values, keys, c, seed, gen, |keys|)
  {
    var joined: seq<Record> := [];
    var recordIndex := 0;
    var j := 0;
    while j < |keys|
      invariant 0 <= j <= |keys| && rng.Valid() && rng.draws == j
      invariant ManyUpTo(rng.values, keys, c, seed, gen, j) == Success(joined)
      invariant recordIndex == |joined|
    {
      var step;
      step, recordIndex := ManyParent(rng, keys, c, seed, gen, j, joined, recordIndex);
      if step.Failure? {
        FailureSticks(rng.values, keys, c, seed, gen, j + 1, |keys|);
        return step;
      }
      joined := step.value;
      j := j + 1;
    }
    r := Success(joined);
  }

  /** The 1:1 `forEach` over the generated records. */
  method OneToOneLoop(base: seq<Record>, keys: seq<Value>, key: string) returns (joined: seq<Record>)
    ensures joined == StampOneToOne(base, keys, key)
  {
    joined := [];
    var index := 0;
    while index < |base|
      invariant 0 <= index <= |base| && |joined| == index
      invariant forall i | 0 <= i < index :: joined[i] == Set(base[i], key, KeyAt(keys, i))
    {
      joined := joined + [Set(base[index], key, KeyAt(keys, index))];
      index := index + 1;
    }
  }

  /** `generateJoinedDataset(parentData, config, seed)`. */
  method GenerateJoinedDataset(parents: seq<Record>, c: JoinConfig, seed: int, gen: Generate)
    returns (r: Result<seq<Record>, string>)
    ensures r == Joined(StreamDraws(seed), parents, c, seed, gen)
  {
    var rng := new Mulberry32(seed);
    var parentKeys := ParentKeys(parents, c.joinKey);
    if c.joinType == OneToOne {
      var baseData := gen(c.schemaId, |parentKeys|, seed, c.params);
      if baseData.Failure? {
        return Failure(baseData.error);
      }
      var joined := OneToOneLoop(baseData.value, parentKeys, c.joinKey);
      r := Success(joined);
    } else {
      r := ManyLoop(rng, parentKeys, c, seed, gen);
    }
  }

  // ---------------------------------------------------------------
  // detectPrimaryKey
  // ---------------------------------------------------------------

  const PriorityKeys: seq<string> := ["patient_id", "subject_id", "case_id", "encounter_id", "id"]

  predicate IdLike(k: string) {
    EndsWith(k, "_id")
  }

  /** `detectPrimaryKey(data)`: `id` for no data; otherwise, among the
      first record's keys, the first priority key present, else the first
      key ending in `_id`, else the first key (`undefined`, written
      `None`, for a record without keys). */
  function DetectPrimaryKey(data: seq<Record>): (k: Option<string>)
    ensures |data| == 0 ==> k == Some("id")
    ensures |data| > 0 ==> (k.None? <==> |data[0]| == 0)
    ensures |data| > 0 && k.Some? ==> k.value in Keys(data[0])
  {
    if |data| == 0 then Some("id")
    else
      var keys := Keys(data[0]);
      match Find(PriorityKeys, (p: string) => p in keys)
      case Some(p) => Some(p)
      case None =>
        match Find(keys, IdLike)
        case Some(k) => Some(k)
        case None => if |keys| > 0 then Some(keys[0]) else None
  }

  /** The priority order: the first listed key the first record has wins,
      whatever else it has. */
  lemma DetectPriority(data: seq<Record>, i: nat)
    requires |data| > 0 && i < |PriorityKeys| && PriorityKeys[i] in Keys(data[0])
    requires forall j | 0 <= j < i :: PriorityKeys[j] !in Keys(data[0])
    ensures DetectPrimaryKey(data) == Some(PriorityKeys[i])
  {
    var keys := Keys(data[0]);
    var test := (p: string) => p in keys;
    FindFirst(PriorityKeys, test);
    var k :| 0 <= k < |PriorityKeys| && Find(PriorityKeys, test).value == PriorityKeys[k] && test(PriorityKeys[k])
      && forall j | 0 <= j < k :: !test(PriorityKeys[j]);
    assert k == i;
  }

  /** Without a priority key, the first key ending in `_id`, and without
      one of those the first key. */
  lemma DetectFallback(data: seq<Record>)
    requires |data| > 0 && forall p | p in PriorityKeys :: p !in Keys(data[0])
    ensures var keys := Keys(data[0]);
      (exists j | 0 <= j < |keys| :: IdLike(keys[j])) ==>
        exists j | 0 <= j < |keys| :: DetectPrimaryKey(data) == Some(keys[j]) && IdLike(keys[j])
          && forall i | 0 <= i < j :: !IdLike(keys[i])
    ensures var keys := Keys(data[0]);
      (forall j | 0 <= j < |keys| :: !IdLike(keys[j])) && |keys| > 0 ==>
        DetectPrimaryKey(data) == Some(keys[0])
  {
    var keys := Keys(data[0]);
    var test := (p: string) => p in keys;
    FindFirst(PriorityKeys, test);
    FindFirst(keys, IdLike);
  }

  /** A missing key used as a property name: JavaScript reads
      `record[undefined]` as `record["undefined"]`. */
  function PropertyKey(k: Option<string>): (s: string)
    ensures k.Some? ==> s == k.value
  {
    if k.Some? then k.value else "undefined"
  }

  // ---------------------------------------------------------------
  // generateRelatedDatasets
  // ---------------------------------------------------------------

  datatype RelatedConfig = RelatedConfig(
    schemaId: string, name: Option<string>, joinType: Option<JoinType>, joinKey: Option<string>,
    minRecords: Option<int>, maxRecords: Option<int>, params: Record)

  datatype Dataset = Dataset(name: string, data: seq<Record>)

  /** `s || d` on an optional string: the empty string is falsy too. */
  function Or(s: Option<string>, d: string): (r: string)
    ensures r == d || (s.Some? && r == s.value && r != "")
  {
    if s.Some? && s.value != "" then s.value else d
  }

  function NameOf(c: RelatedConfig): string {
    Or(c.name, c.schemaId)
  }

  /** `firstConfig.joinKey || detectPrimaryKey(baseData)`. */
  function PrimaryKey(first: RelatedConfig, baseData: seq<Record>): string {
    if first.joinKey.Some? && first.joinKey.value != "" then first.joinKey.value
    else PropertyKey(DetectPrimaryKey(baseData))
  }

  /** The configuration child `i` is joined with: 1:1 unless told
      otherwise, the base's primary key unless told otherwise. */
  function ChildConfig(c: RelatedConfig, primaryKey: string): JoinConfig {
    JoinConfig(c.schemaId, if c.joinType.Some? then c.joinType.value else OneToOne,
               Or(c.joinKey, primaryKey), c.minRecords, c.maxRecords, c.params)
  }

  /** `seed + Math.floor(rng() * 1000000)`. */
  function ChildSeed(seed: int, u: real): (s: int)
    requires 0.0 <= u < 1.0
    ensures seed <= s < seed + 1000000
  {
    seed + ScaledFloor(u, 1000000)
  }

  /** Child `i + 1`: the base data joined with configuration `i + 1` and
      the seed drawn by draw `i`. */
  function ChildJoin(ds: Draws, configs: seq<RelatedConfig>, baseData: seq<Record>, primaryKey: string,
                     seed: int, gen: Generate, i: nat)
    : Result<seq<Record>, string>
    requires i < |configs| - 1
  {
    Joined(StreamDraws(ChildSeed(seed, ds(i))), baseData, ChildConfig(configs[i + 1], primaryKey),
           ChildSeed(seed, ds(i)), gen)
  }

  /** Every child's join, in order. */
  function ChildJoins(ds: Draws, configs: seq<RelatedConfig>, baseData: seq<Record>, primaryKey: string,
                      seed: int, gen: Generate)
    : (js: seq<Result<seq<Record>, string>>)
    requires |configs| >= 1
    ensures |js| == |configs| - 1
  {
    seq(|configs| - 1, i requires 0 <= i < |configs| - 1 => ChildJoin(ds, configs, baseData, primaryKey, seed, gen, i))
  }

  /** `joins` lists every child's join. */
  ghost predicate JoinsOf(joins: seq<Result<seq<Record>, string>>, ds: Draws, configs: seq<RelatedConfig>,
                          baseData: seq<Record>, primaryKey: string, seed: int, gen: Generate)
  {
    |joins| == |configs| - 1
    && forall i {:trigger ChildJoin(ds, configs, baseData, primaryKey, seed, gen, i)} | 0 <= i < |joins| ::
         joins[i] == ChildJoin(ds, configs, baseData, primaryKey, seed, gen, i)
  }

  lemma ChildJoinsOf(ds: Draws, configs: seq<RelatedConfig>, baseData: seq<Record>, primaryKey: string,
                     seed: int, gen: Generate)
    requires |configs| >= 1
    ensures JoinsOf(ChildJoins(ds, configs, baseData, primaryKey, seed, gen), ds, configs, baseData, primaryKey,
                    seed, gen)
  {
  }

  /** The first `n` child datasets, named `name || schemaId`; the first
      join that throws ends the loop with its error. */
  function ChildrenUpTo(joins: seq<Result<seq<Record>, string>>, configs: seq<RelatedConfig>, n: nat)
    : Result<seq<Dataset>, string>
    requires n <= |joins| < |configs|
  {
    if n == 0 then Success([])
    else
      match ChildrenUpTo(joins, configs, n - 1)
      case Failure(e) => Failure(e)
      case Success(children) =>
        match joins[n - 1]
        case Failure(e) => Failure(e)
        case Success(data) => Success(children + [Dataset(NameOf(configs[n]), data)])
  }

  /** What `generateRelatedDatasets(configs, baseCount, seed)` returns or
      throws. */
  function Related(ds: Draws, configs: seq<RelatedConfig>, baseCount: int, seed: int, gen: Generate)
    : Result<seq<Dataset>, string>
  {
    if |configs| == 0 then Success([])
    else
      match gen(configs[0].schemaId, baseCount, seed, configs[0].params)
      case Failure(e) => Failure(e)
      case Success(baseData) =>
        Assemble(configs, baseData, ChildJoins(ds, configs, baseData, PrimaryKey(configs[0], baseData), seed, gen))
  }

  /** The base dataset followed by the children, or the first child's
      error. */
  function Assemble(configs: seq<RelatedConfig>, baseData: seq<Record>, joins: seq<Result<seq<Record>, string>>)
    : Result<seq<Dataset>, string>
    requires |joins| == |configs| - 1 && |configs| >= 1
  {
    match ChildrenUpTo(joins, configs, |joins|)
    case Failure(e) => Failure(e)
    case Success(children) => Success([Dataset(NameOf(configs[0]), baseData)] + children)
  }

  lemma AssembleShape(configs: seq<RelatedConfig>, baseData: seq<Record>, joins: seq<Result<seq<Record>, string>>)
    requires |joins| == |configs| - 1 && |configs| >= 1 && Assemble(configs, baseData, joins).Success?
    ensures var out := Assemble(configs, baseData, joins).value;
      |out| == |configs| && out[0].data == baseData
      && (forall i | 0 <= i < |configs| :: out[i].name == NameOf(configs[i]))
      && forall i | 1 <= i < |configs| :: Success(out[i].data) == joins[i - 1]
  {
    ChildrenShape(joins, configs, |joins|);
    var out := Assemble(configs, baseData, joins).value;
    forall i | 1 <= i < |configs|
      ensures out[i].name == NameOf(configs[i])
      ensures Success(out[i].data) == joins[i - 1]
    {
      assert out[i] == ChildrenUpTo(joins, configs, |joins|).value[i - 1];
    }
  }

  lemma {:induction false} ChildrenShape(joins: seq<Result<seq<Record>, string>>, configs: seq<RelatedConfig>,
                                         n: nat)
    requires n <= |joins| < |configs| && ChildrenUpTo(joins, configs, n).Success?
    ensures var cs := ChildrenUpTo(joins, configs, n).value;
      |cs| == n && forall i | 0 <= i < n :: cs[i].name == NameOf(configs[i + 1]) && Success(cs[i].data) == joins[i]
  {
    if n > 0 {
      ChildrenShape(joins, configs, n - 1);
    }
  }

  /** One dataset per configuration, in order, named `name || schemaId`:
      the base data first, then child `i` joined against it with its
      configuration, the base's primary key unless told otherwise, and
      the seed drawn by draw `i - 1`; no configurations, no datasets. */
  lemma RelatedShape(ds: Draws, configs: seq<RelatedConfig>, baseCount: int, seed: int, gen: Generate)
    requires Related(ds, configs, baseCount, seed, gen).Success?
    ensures var out := Related(ds, configs, baseCount, seed, gen).value;
      |out| == |configs|
      && (|configs| > 0 ==>
            Success(out[0].data) == gen(configs[0].schemaId, baseCount, seed, configs[0].params)
            && (forall i | 0 <= i < |configs| :: out[i].name == NameOf(configs[i]))
            && forall i | 1 <= i < |configs| ::
                 Success(out[i].data)
                   == ChildJoin(ds, configs, out[0].data, PrimaryKey(configs[0], out[0].data), seed, gen, i - 1))
  {
    if |configs| > 0 {
      var baseData := gen(configs[0].schemaId, baseCount, seed, configs[0].params).value;
      var primaryKey := PrimaryKey(configs[0], baseData);
      var joins := ChildJoins(ds, configs, baseData, primaryKey, seed, gen);
      AssembleShape(configs, baseData, joins);
      ChildJoinsOf(ds, configs, baseData, primaryKey, seed, gen);
      var out := Related(ds, configs, baseCount, seed, gen).value;
      assert out == Assemble(configs, baseData, joins).value;
      forall i | 1 <= i < |configs|
        ensures Success(out[i].data) == ChildJoin(ds, configs, out[0].data, primaryKey, seed, gen, i - 1)
      {
        assert Success(out[i].data) == joins[i - 1];
      }
    }
  }

  lemma {:induction false} ChildrenFailureSticks(joins: seq<Result<seq<Record>, string>>, configs: seq<RelatedConfig>,
                                                 n: nat, m: nat)
    requires n <= m <= |joins| < |configs| && ChildrenUpTo(joins, configs, n).Failure?
    ensures ChildrenUpTo(joins, configs, m) == ChildrenUpTo(joins, configs, n)
    decreases m
  {
    if m > n {
      ChildrenFailureSticks(joins, configs, n, m - 1);
    }
  }

  /** One pass of the loop over the child configurations: draw the
      child's seed and join it against the base data. */
  method JoinChild(rng: Mulberry32, configs: seq<RelatedConfig>, baseData: seq<Record>, primaryKey: string,
                   seed: int, gen: Generate, i: nat, ghost joins: seq<Result<seq<Record>, string>>)
    returns (joinedData: Result<seq<Record>, string>)
    requires rng.Valid() && rng.draws == i && i < |configs| - 1
    requires JoinsOf(joins, rng.values, configs, baseData, primaryKey, seed, gen)
    modifies rng
    ensures rng.Valid() && rng.draws == i + 1
    ensures joinedData == joins[i]
  {
    var u := rng.Next();
    var childSeed := ChildSeed(seed, u);
    joinedData := GenerateJoinedDataset(baseData, ChildConfig(configs[i + 1], primaryKey), childSeed, gen);
    assert joinedData == ChildJoin(rng.values, configs, baseData, primaryKey, seed, gen, i);
  }

  /** The loop over the child configurations. */
  method ChildrenLoop(rng: Mulberry32, configs: seq<RelatedConfig>, baseData: seq<Record>, primaryKey: string,
                      seed: int, gen: Generate, ghost joins: seq<Result<seq<Record>, string>>)
    returns (r: Result<seq<Dataset>, string>)
    requires rng.Valid() && rng.draws == 0 && |configs| >= 1
    requires JoinsOf(joins, rng.values, configs, baseData, primaryKey, seed, gen)
    modifies rng
    ensures r == ChildrenUpTo(joins, configs, |configs| - 1)
  {
    var datasets: seq<Dataset> := [];
    var i := 1;
    while i < |configs|
      invariant 1 <= i <= |configs| && rng.Valid() && rng.draws == i - 1
      invariant ChildrenUpTo(joins, configs, i - 1) == Success(datasets)
    {
      var joinedData := JoinChild(rng, configs, baseData, primaryKey, seed, gen, i - 1, joins);
      if joinedData.Failure? {
        ChildrenFailureSticks(joins, configs, i, |configs| - 1);
        return Failure(joinedData.error);
      }
      datasets := datasets + [Dataset(NameOf(configs[i]), joinedData.value)];
      i := i + 1;
    }
    r := Success(datasets);
  }

  /** `generateRelatedDatasets(configs, baseCount, seed)`. */
  method GenerateRelatedDatasets(configs: seq<RelatedConfig>, baseCount: int, seed: int, gen: Generate)
    returns (r: Result<seq<Dataset>, string>)
    ensures r == Related(StreamDraws(seed), configs, baseCount, seed, gen)
  {
    if |configs| == 0 {
      return Success([]);
    }
    var rng := new Mulberry32(seed);
    var firstConfig := configs[0];
    var baseData := gen(firstConfig.schemaId, baseCount, seed, firstConfig.params);
    if baseData.Failure? {
      return Failure(baseData.error);
    }
    var primaryKey := PrimaryKey(firstConfig, baseData.value);
    ghost var joins := ChildJoins(rng.values, configs, baseData.value, primaryKey, seed, gen);
    ChildJoinsOf(rng.values, configs, baseData.value, primaryKey, seed, gen);
    var children := ChildrenLoop(rng, configs, baseData.value, primaryKey, seed, gen, joins);
    if children.Failure? {
      return Failure(children.error);
    }
    r := Success([Dataset(NameOf(firstConfig), baseData.value)] + children.value);
  }

  // ---------------------------------------------------------------
  // mergeDatasets
  // ---------------------------------------------------------------

  /** JavaScript's `===` on record values: numbers compare by value
      whether or not they are known to be integral. */
  predicate StrictEquals(a: Value, b: Value) {
    match (a, b)
    case (Str(x), Str(y)) => x == y
    case (Int(x), Int(y)) => x == y
    case (Int(x), Num(y)) => x as real == y
    case (Num(x), Int(y)) => x == y as real
    case (Num(x), Num(y)) => x == y
    case (Bool(x), Bool(y)) => x == y
    case (Null, Null) => true
    case (Undefined, Undefined) => true
    case _ => false
  }

  /** `dataset.data.filter(r => r[joinKey] === keyValue)`. */
  function Matching(data: seq<Record>, key: string, v: Value): seq<Record> {
    Filter(data, (r: Record) => StrictEquals(Read(r, key), v))
  }

  /** One entry of the copy: every field but the join key is written
      under `prefix + key`. */
  function CopyField(rec: Record, e: (string, Value), prefix: string, joinKey: string): Record {
    if e.0 != joinKey then Set(rec, prefix + e.0, e.1) else rec
  }

  /** `for (const [key, value] of Object.entries(match))`. */
  function CopyPrefixed(rec: Record, entries: Record, prefix: string, joinKey: string): Record
    decreases |entries|
  {
    if |entries| == 0 then rec
    else CopyPrefixed(CopyField(rec, entries[0], prefix, joinKey), entries[1..], prefix, joinKey)
  }

  /** One dataset's contribution: copied only when exactly one of its
      records matches. */
  function MergeOne(rec: Record, d: Dataset, keyValue: Value, joinKey: string): Record {
    var m := Matching(d.data, joinKey, keyValue);
    if |m| == 1 then CopyPrefixed(rec, m[0], d.name + "_", joinKey) else rec
  }

  /** The datasets after the base, in order. */
  function MergeAll(rec: Record, others: seq<Dataset>, keyValue: Value, joinKey: string): Record
    decreases |others|
  {
    if |others| == 0 then rec
    else MergeAll(MergeOne(rec, others[0], keyValue, joinKey), others[1..], keyValue, joinKey)
  }

  /** Every merged record, matched on the base record's own key value. */
  function MergedRecords(base: seq<Record>, others: seq<Dataset>, joinKey: string): (out: seq<Record>)
    ensures |out| == |base|
  {
    seq(|base|, i requires 0 <= i < |base| => MergeAll(base[i], others, Read(base[i], joinKey), joinKey))
  }

  /** `mergeDatasets(datasets, joinKey)`. */
  function Merge(datasets: seq<Dataset>, joinKey: string): seq<Record> {
    if |datasets| == 0 then []
    else if |datasets| == 1 then datasets[0].data
    else MergedRecords(datasets[0].data, datasets[1..], joinKey)
  }

  /** The merge keeps the base's length and order: record `i` is base
      record `i` with the other datasets' fields added. */
  lemma MergeShape(datasets: seq<Dataset>, joinKey: string)
    requires |datasets| > 0
    ensures |Merge(datasets, joinKey)| == |datasets[0].data|
    ensures |datasets| > 1 ==> forall i | 0 <= i < |datasets[0].data| ::
      Merge(datasets, joinKey)[i]
        == MergeAll(datasets[0].data[i], datasets[1..], Read(datasets[0].data[i], joinKey), joinKey)
  {
  }

  /** Distinct names stay distinct under a common prefix. */
  lemma PrefixDistinct(prefix: string, a: string, b: string)
    requires a != b
    ensures prefix + a != prefix + b
  {
    assert (prefix + a)[|prefix|..] == a;
    assert (prefix + b)[|prefix|..] == b;
  }

  lemma CopyFieldOther(rec: Record, e: (string, Value), prefix: string, joinKey: string, k: string)
    requires e.0 == joinKey || prefix + e.0 != k
    ensures Get(CopyField(rec, e, prefix, joinKey), k) == Get(rec, k)
  {
    if e.0 != joinKey {
      SetOther(rec, prefix + e.0, e.1, k);
    }
  }

  /** A field the copy never writes keeps its value: one not of the form
      `prefix + key` for a copied key. */
  lemma {:induction false} CopyUntouched(rec: Record, entries: Record, prefix: string, joinKey: string, k: string)
    requires forall j | 0 <= j < |entries| :: entries[j].0 == joinKey || prefix + entries[j].0 != k
    ensures Get(CopyPrefixed(rec, entries, prefix, joinKey), k) == Get(rec, k)
    decreases |entries|
  {
    if |entries| > 0 {
      CopyFieldOther(rec, entries[0], prefix, joinKey, k);
      var rest := entries[1..];
      forall j | 0 <= j < |rest|
        ensures rest[j].0 == joinKey || prefix + rest[j].0 != k
      {
        assert rest[j] == entries[j + 1];
      }
      CopyUntouched(CopyField(rec, entries[0], prefix, joinKey), rest, prefix, joinKey, k);
    }
  }

  /** Keys appear once in a record. */
  predicate DistinctKeys(r: Record) {
    forall i, j | 0 <= i < j < |r| :: r[i].0 != r[j].0
  }

  /** Every field of the matching record but the join key lands under its
      prefixed name. */
  lemma {:induction false} CopyCopies(rec: Record, entries: Record, prefix: string, joinKey: string, j: nat)
    requires DistinctKeys(entries) && j < |entries| && entries[j].0 != joinKey
    ensures Get(CopyPrefixed(rec, entries, prefix, joinKey), prefix + entries[j].0) == Some(entries[j].1)
    decreases |entries|
  {
    var rec' := CopyField(rec, entries[0], prefix, joinKey);
    var rest := entries[1..];
    if j == 0 {
      forall i | 0 <= i < |rest|
        ensures rest[i].0 == joinKey || prefix + rest[i].0 != prefix + entries[0].0
      {
        assert rest[i] == entries[i + 1];
        PrefixDistinct(prefix, rest[i].0, entries[0].0);
      }
      CopyUntouched(rec', rest, prefix, joinKey, prefix + entries[0].0);
    } else {
      assert rest[j - 1] == entries[j];
      assert DistinctKeys(rest) by {
        forall a, b | 0 <= a < b < |rest|
          ensures rest[a].0 != rest[b].0
        {
          assert rest[a] == entries[a + 1] && rest[b] == entries[b + 1];
        }
      }
      CopyCopies(rec', rest, prefix, joinKey, j - 1);
    }
  }

  /** A dataset with no match, or with several, adds nothing. */
  lemma MergeOneSkips(rec: Record, d: Dataset, keyValue: Value, joinKey: string)
    requires |Matching(d.data, joinKey, keyValue)| != 1
    ensures MergeOne(rec, d, keyValue, joinKey) == rec
  {
  }

  /** A field whose name starts with none of the prefixes `name_` of the
      merged datasets keeps its base value. */
  lemma {:induction false} MergeKeepsUnprefixed(rec: Record, others: seq<Dataset>, keyValue: Value,
                                                joinKey: string, k: string)
    requires forall i | 0 <= i < |others| :: !(others[i].name + "_" <= k)
    ensures Get(MergeAll(rec, others, keyValue, joinKey), k) == Get(rec, k)
    decreases |others|
  {
    if |others| > 0 {
      var d := others[0];
      var m: seq<Record> := Matching(d.data, joinKey, keyValue);
      if |m| == 1 {
        var prefix := d.name + "_";
        forall j | 0 <= j < |m[0]|
          ensures m[0][j].0 == joinKey || prefix + m[0][j].0 != k
        {
          assert prefix <= prefix + m[0][j].0;
        }
        CopyUntouched(rec, m[0], prefix, joinKey, k);
      }
      forall i | 0 <= i < |others| - 1
        ensures !(others[1..][i].name + "_" <= k)
      {
        assert others[1..][i] == others[i + 1];
      }
      MergeKeepsUnprefixed(MergeOne(rec, d, keyValue, joinKey), others[1..], keyValue, joinKey, k);
    }
  }

  /** The inner `for (const [key, value] of Object.entries(...))` loop. */
  method CopyEntries(rec0: Record, entries: Record, prefix: string, joinKey: string) returns (rec: Record)
    ensures rec == CopyPrefixed(rec0, entries, prefix, joinKey)
  {
    rec := rec0;
    var t := 0;
    while t < |entries|
      invariant 0 <= t <= |entries|
      invariant CopyPrefixed(rec0, entries, prefix, joinKey) == CopyPrefixed(rec, entries[t..], prefix, joinKey)
    {
      assert entries[t..][1..] == entries[t + 1..];
      var (key, value) := entries[t];
      if key != joinKey {
        rec := Set(rec, prefix + key, value);
      }
      t := t + 1;
    }
  }

  /** The loop over the datasets after the base, for one base record. */
  method MergeRecord(baseRecord: Record, others: seq<Dataset>, joinKey: string) returns (rec: Record)
    ensures rec == MergeAll(baseRecord, others, Read(baseRecord, joinKey), joinKey)
  {
    var keyValue := Read(baseRecord, joinKey);
    rec := baseRecord;
    var i := 0;
    while i < |others|
      invariant 0 <= i <= |others|
      invariant MergeAll(baseRecord, others, keyValue, joinKey) == MergeAll(rec, others[i..], keyValue, joinKey)
    {
      assert others[i..][1..] == others[i + 1..];
      var dataset := others[i];
      var matchingRecords := Matching(dataset.data, joinKey, keyValue);
      if |matchingRecords| == 1 {
        rec := CopyEntries(rec, matchingRecords[0], dataset.name + "_", joinKey);
      }
      i := i + 1;
    }
  }

  /** The loop over the base records: each is merged on its own key
      value. */
  method MergeBase(baseData: seq<Record>, others: seq<Dataset>, joinKey: string) returns (merged: seq<Record>)
    ensures merged == MergedRecords(baseData, others, joinKey)
  {
    ghost var spec := MergedRecords(baseData, others, joinKey);
    merged := [];
    var b := 0;
    while b < |baseData|
      invariant 0 <= b <= |baseData| && merged == spec[..b]
    {
      var mergedRecord := MergeRecord(baseData[b], others, joinKey);
      assert mergedRecord == spec[b];
      merged := merged + [mergedRecord];
      b := b + 1;
    }
    assert spec[..b] == spec;
  }

  /** `mergeDatasets(datasets, joinKey)`. */
  method MergeDatasets(datasets: seq<Dataset>, joinKey: string) returns (merged: seq<Record>)
    ensures merged == Merge(datasets, joinKey)
  {
    if |datasets| == 0 {
      return [];
    }
    if |datasets| == 1 {
      return datasets[0].data;
    }
    merged := MergeBase(datasets[0].data, datasets[1..], joinKey);
  }
}
