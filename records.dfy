/** DAS records (src/mongo/mongo.go): string-keyed maps of dynamically typed
    values, and the dotted-path lookups GetStringValue, GetIntValue and
    GetInt64Value. */
module Records {
  import opened Wrappers
  import opened GoStrings

  /** The dynamic values a DAS record holds. `Null` is Go's nil, which is also
      what indexing a map at a missing key yields. JSON numbers decode to
      float64; the model keeps only integral ones (`Float`). `Int` and `Int64`
      are the Go types int and int64, kept apart because the lookups below
      assert one exact type. */
  datatype Value =
    | Null
    | Str(s: string)
    | Int(i: int)
    | Int64(i64: int)
    | Float(f: int)
    | Bool(b: bool)
    | Rec(fields: map<string, Value>)        // a nested mongo.DASRecord
    | RecList(recs: seq<map<string, Value>>) // []mongo.DASRecord
    | List(items: seq<Value>)                // []interface{}
    | StrList(strs: seq<string>)             // []string

  /** mongo.DASRecord */
  type Record = map<string, Value>

  /** rec[key] in Go: nil for a missing key. */
  function Get(rec: Record, key: string): Value {
    if key in rec then rec[key] else Null
  }

  /** Where a dotted key leads: the value found at its last segment (and that
      segment), or a type-assertion panic because an intermediate segment did
      not hold a nested record. */
  datatype Resolution = Leaf(value: Value, key: string) | NotRecord(segment: string)

  /** What the typed lookups return: the value, the error they build, or the
      panic of the failed `rec[keys[0]].(DASRecord)` assertion. */
  datatype Lookup<+T> = Found(value: T) | CastError(message: string) | AssertPanic(segment: string)

  function CastMessage(key: string): string {
    "Unable to cast value for key '" + key + "'"
  }

  /** The text after the first '.' of a key is shorter than the key. */
  lemma RestOfKey(key: string)
    requires |Split(key, ".")| > 1
    ensures IndexOf(key, ".").Some?
    ensures Join(Split(key, ".")[1..], ".") == key[IndexOf(key, ".").value + 1..]
    ensures |Split(key, ".")| == 2 ==> Split(key, ".")[1] == Join(Split(key, ".")[1..], ".")
  {
    var i := IndexOf(key, ".").value;
    SplitJoin(key[i + 1..], ".");
  }

  /** The shared descent of GetStringValue, GetIntValue and GetInt64Value:
      split the key at '.', assert that the first segment holds a nested
      record, and continue with the rest of the key (the segment itself when
      two are left, the re-joined remainder otherwise). */
  function Resolve(rec: Record, key: string): Resolution
    decreases |key|
  {
    var keys := Split(key, ".");
    if |keys| > 1 then
      var head := Get(rec, keys[0]);
      if head.Rec? then
        RestOfKey(key);
        if |keys| == 2 then Resolve(head.fields, keys[1])
        else Resolve(head.fields, Join(keys[1..], "."))
      else NotRecord(keys[0])
    else Leaf(Get(rec, key), key)
  }

  function GetStringValue(rec: Record, key: string): (r: Lookup<string>)
    ensures r.AssertPanic? <==> Resolve(rec, key).NotRecord?
    ensures r.Found? <==> Resolve(rec, key).Leaf? && Resolve(rec, key).value.Str?
    ensures r.Found? ==> Resolve(rec, key).value == Str(r.value)
    ensures r.CastError? ==> r.message == CastMessage(Resolve(rec, key).key)
  {
    match Resolve(rec, key)
    case NotRecord(seg) => AssertPanic(seg)
    case Leaf(Str(s), _) => Found(s)
    case Leaf(_, k) => CastError(CastMessage(k))
  }

  function GetIntValue(rec: Record, key: string): (r: Lookup<int>)
    ensures r.AssertPanic? <==> Resolve(rec, key).NotRecord?
    ensures r.Found? <==> Resolve(rec, key).Leaf? && Resolve(rec, key).value.Int?
    ensures r.Found? ==> Resolve(rec, key).value == Int(r.value)
    ensures r.CastError? ==> r.message == CastMessage(Resolve(rec, key).key)
  {
    match Resolve(rec, key)
    case NotRecord(seg) => AssertPanic(seg)
    case Leaf(Int(n), _) => Found(n)
    case Leaf(_, k) => CastError(CastMessage(k))
  }

  function GetInt64Value(rec: Record, key: string): (r: Lookup<int>)
    ensures r.AssertPanic? <==> Resolve(rec, key).NotRecord?
    ensures r.Found? <==> Resolve(rec, key).Leaf? && Resolve(rec, key).value.Int64?
    ensures r.Found? ==> Resolve(rec, key).value == Int64(r.value)
    ensures r.CastError? ==> r.message == CastMessage(Resolve(rec, key).key)
  {
    match Resolve(rec, key)
    case NotRecord(seg) => AssertPanic(seg)
    case Leaf(Int64(n), _) => Found(n)
    case Leaf(_, k) => CastError(CastMessage(k))
  }

  /** Reference definition: follow a list of path segments one record at a
      time. */
  function Walk(rec: Record, segments: seq<string>): Resolution
    requires |segments| > 0
    decreases |segments|
  {
    if |segments| == 1 then Leaf(Get(rec, segments[0]), segments[0])
    else if Get(rec, segments[0]).Rec? then Walk(Get(rec, segments[0]).fields, segments[1..])
    else NotRecord(segments[0])
  }

  /** The recursive descent on the dotted key is the walk along its
      '.'-separated segments. */
  lemma {:induction false} ResolveIsWalk(rec: Record, key: string)
    ensures Resolve(rec, key) == Walk(rec, Split(key, "."))
    decreases |key|
  {
    var keys := Split(key, ".");
    if |keys| > 1 {
      RestOfKey(key);
      var i := IndexOf(key, ".").value;
      var rest := key[i + 1..];
      SplitTail(key, ".", i);
      if Get(rec, keys[0]).Rec? {
        ResolveIsWalk(Get(rec, keys[0]).fields, rest);
      }
    } else {
      assert keys[0] == key by { SplitJoin(key, "."); }
    }
  }

  /** A key without '.' is a single segment. */
  lemma SingleSegment(rec: Record, key: string)
    requires '.' !in key
    ensures Resolve(rec, key) == Leaf(Get(rec, key), key)
  {
    SplitLacking(key, '.');
  }

  /** "a.rest": the lookup continues with "rest" in the record held at "a",
      and panics when "a" does not hold a record. */
  lemma DottedKey(rec: Record, a: string, rest: string)
    requires '.' !in a
    ensures Resolve(rec, a + "." + rest) ==
      if Get(rec, a).Rec? then Resolve(Get(rec, a).fields, rest) else NotRecord(a)
  {
    var key := a + "." + rest;
    IndexAfterChar(a, '.', rest);
    SplitTail(key, ".", |a|);
    assert key[..|a|] == a;
    assert key[|a| + 1..] == rest;
    RestOfKey(key);
  }

  /** A single-segment key holding a string yields it; anything else yields
      the cast error naming the key, without a panic. */
  lemma StringLookupSingle(rec: Record, key: string)
    requires '.' !in key
    ensures Get(rec, key).Str? ==> GetStringValue(rec, key) == Found(Get(rec, key).s)
    ensures !Get(rec, key).Str? ==> GetStringValue(rec, key) == CastError(CastMessage(key))
  {
    SingleSegment(rec, key);
  }

  /** GetStringValue on "a.rest" is GetStringValue on "rest" in rec["a"],
      and a type-assertion panic when rec["a"] is not a nested record. */
  lemma StringLookupDotted(rec: Record, a: string, rest: string)
    requires '.' !in a
    ensures Get(rec, a).Rec? ==> GetStringValue(rec, a + "." + rest) == GetStringValue(Get(rec, a).fields, rest)
    ensures !Get(rec, a).Rec? ==> GetStringValue(rec, a + "." + rest) == AssertPanic(a)
  {
    DottedKey(rec, a, rest);
  }

  /** GetIntValue finds only Go ints and GetInt64Value only int64s: the
      other numeric types at the same place are cast errors. */
  lemma ExactIntTypes(rec: Record, key: string)
    ensures GetIntValue(rec, key).Found? <==> (Resolve(rec, key).Leaf? && Resolve(rec, key).value.Int?)
    ensures GetInt64Value(rec, key).Found? <==> (Resolve(rec, key).Leaf? && Resolve(rec, key).value.Int64?)
    ensures Resolve(rec, key).Leaf? && Resolve(rec, key).value.Int64? ==> GetIntValue(rec, key).CastError?
    ensures Resolve(rec, key).Leaf? && Resolve(rec, key).value.Int? ==> GetInt64Value(rec, key).CastError?
    ensures Resolve(rec, key).Leaf? && Resolve(rec, key).value.Float? ==>
      GetIntValue(rec, key).CastError? && GetInt64Value(rec, key).CastError?
  {
  }
}
