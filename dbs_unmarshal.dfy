/** DBSUnmarshal (services/dbs.go): the per-API reshaping of the records a
    DBS reply decodes to. JSON decoding itself (loadDBSData) is not
    modelled: the input is the decoded record list, or the panic
    loadDBSData raises on malformed data. */
module DbsUnmarshal {
  import opened Wrappers
  import opened GoStrings
  import opened Records

  /** The message of a failed type assertion. */
  const ConversionPanic := "interface conversion"

  /** rec[to] = rec[from]; delete(rec, from). A missing `from` yields nil. */
  function Rename(rec: Record, from: string, to: string): Record {
    rec[to := Get(rec, from)] - {from}
  }

  function DatasetAsName(rec: Record): Record { Rename(rec, "dataset", "name") }

  function PhysicsGroupAsName(rec: Record): Record { Rename(rec, "physics_group_name", "name") }

  /** The site4dataset row: the origin site as `name`, and the dataset. */
  function SiteRow(rec: Record): Record {
    map["name" := Get(rec, "origin_site_name"), "dataset" := Get(rec, "dataset")]
  }

  /** `f` applied to every record, in order. */
  function MapRecords(records: seq<Record>, f: Record -> Record): seq<Record> {
    if |records| == 0 then []
    else MapRecords(records[..|records| - 1], f) + [f(records[|records| - 1])]
  }

  /** The fileparents conversion: v.(string). */
  function ParentName(v: Value): Option<Value> {
    if v.Str? then Some(v) else None
  }

  /** The runs conversion: fmt.Sprintf("%d", int(v.(float64))). */
  function RunNumber(v: Value): Option<Value> {
    if v.Float? then Some(Str(DecimalString(v.f))) else None
  }

  /** One single-key row per list item, each holding the converted item;
      a panic at the first item the conversion refuses. */
  function ItemRows(items: seq<Value>, outKey: string, conv: Value -> Option<Value>): Outcome<seq<Record>> {
    if |items| == 0 then Ok([])
    else match ItemRows(items[..|items| - 1], outKey, conv)
      case Panic(why) => Panic(why)
      case Ok(rows) =>
        match conv(items[|items| - 1])
        case None => Panic(ConversionPanic)
        case Some(v) => Ok(rows + [map[outKey := v]])
  }

  /** The rows one record explodes into: its `field` must hold a list. */
  function RowsOf(rec: Record, field: string, outKey: string, conv: Value -> Option<Value>): Outcome<seq<Record>> {
    match Get(rec, field)
    case List(items) => ItemRows(items, outKey, conv)
    case _ => Panic(ConversionPanic)
  }

  /** Every record exploded in order, the rows concatenated. */
  function Explode(records: seq<Record>, field: string, outKey: string, conv: Value -> Option<Value>): Outcome<seq<Record>> {
    if |records| == 0 then Ok([])
    else match Explode(records[..|records| - 1], field, outKey, conv)
      case Panic(why) => Panic(why)
      case Ok(rows) =>
        match RowsOf(records[|records| - 1], field, outKey, conv)
        case Panic(why) => Panic(why)
        case Ok(more) => Ok(rows + more)
  }

  predicate IsDatasetApi(api: string) {
    api == "dataset_info" || api == "datasets" || api == "datasetlist"
  }

  predicate IsRunsApi(api: string) {
    api == "runs_via_dataset" || api == "runs"
  }

  predicate IsReshapedApi(api: string) {
    IsDatasetApi(api) || api == "physicsgroup" || api == "site4dataset" || api == "fileparents" || IsRunsApi(api)
  }

  /** The records DBSUnmarshal returns for an API. */
  function Unmarshal(api: string, decoded: Outcome<seq<Record>>): (r: Outcome<seq<Record>>)
    ensures decoded.Panic? ==> r == decoded
    ensures decoded.Ok? && !IsReshapedApi(api) ==> r == decoded
  {
    match decoded
    case Panic(why) => Panic(why)
    case Ok(records) =>
      if IsDatasetApi(api) then Ok(MapRecords(records, DatasetAsName))
      else if api == "physicsgroup" then Ok(MapRecords(records, PhysicsGroupAsName))
      else if api == "site4dataset" then Ok(MapRecords(records, SiteRow))
      else if api == "fileparents" then Explode(records, "parent_logical_file_name", "name", ParentName)
      else if IsRunsApi(api) then Explode(records, "run_num", "run_number", RunNumber)
      else Ok(records)
  }

  /** The rename and site loops: one output record per input record. */
  method MapLoop(records: seq<Record>, f: Record -> Record) returns (out: seq<Record>)
    ensures out == MapRecords(records, f)
  {
    out := [];
    for i := 0 to |records|
      invariant out == MapRecords(records[..i], f)
    {
      assert records[..i + 1][..i] == records[..i];
      out := out + [f(records[i])];
    }
    assert records[..|records|] == records;
  }

  /** The fileparents and runs loops: an inner loop over the list held at
      `field`, appending one converted row per item. */
  method ExplodeLoop(records: seq<Record>, field: string, outKey: string, conv: Value -> Option<Value>)
    returns (out: Outcome<seq<Record>>)
    ensures out == Explode(records, field, outKey, conv)
  {
    var acc: seq<Record> := [];
    for i := 0 to |records|
      invariant Explode(records[..i], field, outKey, conv) == Ok(acc)
    {
      assert records[..i + 1][..i] == records[..i];
      assert records[..i + 1] + records[i + 1..] == records;
      var v := Get(records[i], field);
      if !v.List? {
        ExplodePrefixPanic(records[..i + 1], records[i + 1..], field, outKey, conv);
        return Panic(ConversionPanic);
      }
      var items := v.items;
      ghost var before := acc;
      ghost var rows: seq<Record> := [];
      for j := 0 to |items|
        invariant ItemRows(items[..j], outKey, conv) == Ok(rows)
        invariant acc == before + rows
      {
        assert items[..j + 1][..j] == items[..j];
        var c := conv(items[j]);
        if c.None? {
          assert items[..j + 1] + items[j + 1..] == items;
          ItemRowsPrefixPanic(items[..j + 1], items[j + 1..], outKey, conv);
          ExplodePrefixPanic(records[..i + 1], records[i + 1..], field, outKey, conv);
          return Panic(ConversionPanic);
        }
        acc := acc + [map[outKey := c.value]];
        rows := rows + [map[outKey := c.value]];
      }
      assert items[..|items|] == items;
    }
    assert records[..|records|] == records;
    out := Ok(acc);
  }

  /** A panic in a prefix of the items is a panic of the whole list. */
  lemma {:induction false} ItemRowsPrefixPanic(pre: seq<Value>, post: seq<Value>, outKey: string, conv: Value -> Option<Value>)
    requires ItemRows(pre, outKey, conv) == Panic(ConversionPanic)
    ensures ItemRows(pre + post, outKey, conv) == Panic(ConversionPanic)
    decreases |post|
  {
    if |post| > 0 {
      var all := pre + post;
      assert all[..|all| - 1] == pre + post[..|post| - 1];
      ItemRowsPrefixPanic(pre, post[..|post| - 1], outKey, conv);
    } else {
      assert pre + post == pre;
    }
  }

  /** A panic in a prefix of the records is a panic of the whole explode. */
  lemma {:induction false} ExplodePrefixPanic(pre: seq<Record>, post: seq<Record>, field: string, outKey: string,
                                              conv: Value -> Option<Value>)
    requires Explode(pre, field, outKey, conv) == Panic(ConversionPanic)
    ensures Explode(pre + post, field, outKey, conv) == Panic(ConversionPanic)
    decreases |post|
  {
    if |post| > 0 {
      var all := pre + post;
      assert all[..|all| - 1] == pre + post[..|post| - 1];
      ExplodePrefixPanic(pre, post[..|post| - 1], field, outKey, conv);
    } else {
      assert pre + post == pre;
    }
  }

  /** DBSUnmarshal: the per-API branch over the decoded records. */
  method DBSUnmarshal(api: string, decoded: Outcome<seq<Record>>) returns (out: Outcome<seq<Record>>)
    ensures out == Unmarshal(api, decoded)
  {
    if decoded.Panic? {
      return decoded;
    }
    var records := decoded.value;
    if IsDatasetApi(api) {
      var renamed := MapLoop(records, DatasetAsName);
      out := Ok(renamed);
    } else if api == "physicsgroup" {
      var renamed := MapLoop(records, PhysicsGroupAsName);
      out := Ok(renamed);
    } else if api == "site4dataset" {
      var rows := MapLoop(records, SiteRow);
      out := Ok(rows);
    } else if api == "fileparents" {
      out := ExplodeLoop(records, "parent_logical_file_name", "name", ParentName);
    } else if IsRunsApi(api) {
      out := ExplodeLoop(records, "run_num", "run_number", RunNumber);
    } else {
      out := decoded;
    }
  }

  /** MapRecords keeps the number and the order of the records. */
  lemma {:induction false} MapRecordsAt(records: seq<Record>, f: Record -> Record)
    ensures |MapRecords(records, f)| == |records|
    ensures forall i :: 0 <= i < |records| ==> MapRecords(records, f)[i] == f(records[i])
  {
    if |records| > 0 {
      MapRecordsAt(records[..|records| - 1], f);
    }
  }

  /** After a rename, `to` holds what `from` held (nil when it was missing),
      `from` is gone and every other field is as it was. */
  lemma RenameFields(rec: Record, from: string, to: string)
    requires from != to
    ensures Rename(rec, from, to).Keys == rec.Keys - {from} + {to}
    ensures Rename(rec, from, to)[to] == Get(rec, from)
    ensures forall k :: k in rec && k != from && k != to ==> Rename(rec, from, to)[k] == rec[k]
  {
  }

  /** dataset_info, datasets and datasetlist move `dataset` to `name`, and
      physicsgroup moves `physics_group_name` to `name`, record by record,
      keeping every other field. */
  lemma RenamedApis(api: string, records: seq<Record>, i: nat)
    requires IsDatasetApi(api) || api == "physicsgroup"
    requires i < |records|
    ensures Unmarshal(api, Ok(records)).Ok?
    ensures |Unmarshal(api, Ok(records)).value| == |records|
    ensures
      var from := if IsDatasetApi(api) then "dataset" else "physics_group_name";
      var out := Unmarshal(api, Ok(records)).value[i];
      && out.Keys == records[i].Keys - {from} + {"name"}
      && out["name"] == Get(records[i], from)
      && forall k :: k in records[i] && k != from && k != "name" ==> out[k] == records[i][k]
  {
    var f := if IsDatasetApi(api) then DatasetAsName else PhysicsGroupAsName;
    var from := if IsDatasetApi(api) then "dataset" else "physics_group_name";
    MapRecordsAt(records, f);
    RenameFields(records[i], from, "name");
  }

  /** site4dataset rows have exactly the keys `name` and `dataset`. */
  lemma SiteRows(records: seq<Record>, i: nat)
    requires i < |records|
    ensures Unmarshal("site4dataset", Ok(records)).Ok?
    ensures |Unmarshal("site4dataset", Ok(records)).value| == |records|
    ensures Unmarshal("site4dataset", Ok(records)).value[i].Keys == {"name", "dataset"}
    ensures Unmarshal("site4dataset", Ok(records)).value[i]["name"] == Get(records[i], "origin_site_name")
    ensures Unmarshal("site4dataset", Ok(records)).value[i]["dataset"] == Get(records[i], "dataset")
  {
    MapRecordsAt(records, SiteRow);
  }

  /** A list explodes without a panic exactly when every item converts, and
      then into one row per item holding just the converted item. */
  lemma {:induction false} ItemRowsAt(items: seq<Value>, outKey: string, conv: Value -> Option<Value>)
    ensures ItemRows(items, outKey, conv).Ok? <==> forall k :: 0 <= k < |items| ==> conv(items[k]).Some?
    ensures ItemRows(items, outKey, conv).Ok? ==>
      && |ItemRows(items, outKey, conv).value| == |items|
      && forall k :: 0 <= k < |items| ==> ItemRows(items, outKey, conv).value[k] == map[outKey := conv(items[k]).value]
  {
    if |items| > 0 {
      var pre := items[..|items| - 1];
      ItemRowsAt(pre, outKey, conv);
      assert forall k :: 0 <= k < |pre| ==> pre[k] == items[k];
    }
  }

  /** Total number of list items held at `field` across the records. */
  function TotalItems(records: seq<Record>, field: string): nat {
    if |records| == 0 then 0
    else TotalItems(records[..|records| - 1], field) + ListLength(Get(records[|records| - 1], field))
  }

  function ListLength(v: Value): nat {
    if v.List? then |v.items| else 0
  }

  /** An explode that does not panic yields one single-key row per list
      item: the count is the total of the list lengths. */
  lemma {:induction false} ExplodeCount(records: seq<Record>, field: string, outKey: string, conv: Value -> Option<Value>)
    requires Explode(records, field, outKey, conv).Ok?
    ensures |Explode(records, field, outKey, conv).value| == TotalItems(records, field)
    ensures forall r :: r in Explode(records, field, outKey, conv).value ==> r.Keys == {outKey}
  {
    if |records| > 0 {
      var last := records[|records| - 1];
      ExplodeCount(records[..|records| - 1], field, outKey, conv);
      ItemRowsAt(Get(last, field).items, outKey, conv);
    }
  }

  /** An explode does not panic exactly when every record holds a list at
      `field` whose items all convert. */
  lemma {:induction false} ExplodeSucceeds(records: seq<Record>, field: string, outKey: string, conv: Value -> Option<Value>)
    ensures Explode(records, field, outKey, conv).Ok? <==>
      forall i :: 0 <= i < |records| ==> RowsOf(records[i], field, outKey, conv).Ok?
  {
    if |records| > 0 {
      var pre := records[..|records| - 1];
      ExplodeSucceeds(pre, field, outKey, conv);
      assert forall i :: 0 <= i < |pre| ==> pre[i] == records[i];
    }
  }

  /** fileparents: one `name` row per parent file name, as many rows as
      there are parent names in all. */
  lemma FileParents(records: seq<Record>)
    requires Unmarshal("fileparents", Ok(records)).Ok?
    ensures |Unmarshal("fileparents", Ok(records)).value| == TotalItems(records, "parent_logical_file_name")
    ensures forall r :: r in Unmarshal("fileparents", Ok(records)).value ==> r.Keys == {"name"} && r["name"].Str?
  {
    var rows := Unmarshal("fileparents", Ok(records)).value;
    ExplodeCount(records, "parent_logical_file_name", "name", ParentName);
    ExplodeShape(records, "parent_logical_file_name", "name", ParentName);
  }

  /** Every value an explode stores is one the conversion produced. */
  lemma {:induction false} ExplodeShape(records: seq<Record>, field: string, outKey: string, conv: Value -> Option<Value>)
    requires Explode(records, field, outKey, conv).Ok?
    ensures forall r :: r in Explode(records, field, outKey, conv).value ==>
      outKey in r && exists v :: conv(v) == Some(r[outKey])
  {
    if |records| > 0 {
      var last := records[|records| - 1];
      ExplodeShape(records[..|records| - 1], field, outKey, conv);
      var items := Get(last, field).items;
      ItemRowsAt(items, outKey, conv);
      forall r | r in ItemRows(items, outKey, conv).value
        ensures outKey in r && exists v :: conv(v) == Some(r[outKey])
      {
        var k :| 0 <= k < |items| && ItemRows(items, outKey, conv).value[k] == r;
        assert conv(items[k]) == Some(r[outKey]);
      }
    }
  }

  /** runs: each run number of a record becomes a `run_number` row whose
      decimal text reads back as that run number. */
  lemma RunsOfRecord(rec: Record)
    requires Get(rec, "run_num").List?
    requires forall k :: 0 <= k < |Get(rec, "run_num").items| ==> Get(rec, "run_num").items[k].Float?
    ensures RowsOf(rec, "run_num", "run_number", RunNumber).Ok?
    ensures
      var items := Get(rec, "run_num").items;
      var rows := RowsOf(rec, "run_num", "run_number", RunNumber).value;
      && |rows| == |items|
      && forall k :: 0 <= k < |rows| ==>
        && rows[k].Keys == {"run_number"}
        && rows[k]["run_number"].Str?
        && ParseDecimal(rows[k]["run_number"].s) == Some(items[k].f)
  {
    var items := Get(rec, "run_num").items;
    ItemRowsAt(items, "run_number", RunNumber);
    forall k | 0 <= k < |items| ensures ParseDecimal(DecimalString(items[k].f)) == Some(items[k].f) {
      DecimalRoundTrip(items[k].f);
    }
  }
}
