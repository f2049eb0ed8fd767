/** file_run_lumi and the record side of OrderByRunLumis
    (services/helpers.go): reshape filelumis records into DAS rows holding
    file, run and lumi sub-records, and, when exactly the run and the lumi
    keys are asked for, merge the rows into one record per run. */
module HelpersShape {
  import opened Wrappers
  import opened Records
  import opened DbsUnmarshal
  import opened RunLumis
  import opened HelpersPlan
  import opened Fetch
  import opened HelpersJoin

  // ---------------------------------------------------------------------
  // Rows

  /** The row field and the inner key a filelumis key is stored under. */
  function FieldOf(key: string): Option<(string, string)> {
    if key == "run_num" then Some(("run", "run_number"))
    else if key == "lumi_section_num" then Some(("lumi", "number"))
    else if key == "logical_file_name" then Some(("file", "name"))
    else None
  }

  /** []mongo.DASRecord{mongo.DASRecord{inner: v}} */
  function Wrapped(inner: string, v: Value): Value {
    RecList([map[inner := v]])
  }

  /** The row built from one filelumis record for the requested keys. */
  function RowOf(rec: Record, keys: seq<string>): Record {
    if |keys| == 0 then map[]
    else
      var row := RowOf(rec, keys[..|keys| - 1]);
      var key := keys[|keys| - 1];
      match FieldOf(key)
      case None => row
      case Some((field, inner)) => row[field := Wrapped(inner, Get(rec, key))]
  }

  function RowFor(keys: seq<string>): Record -> Record {
    rec => RowOf(rec, keys)
  }

  /** The inner loop of file_run_lumi over the keys. */
  method RowLoop(rec: Record, keys: seq<string>) returns (row: Record)
    ensures row == RowOf(rec, keys)
  {
    row := map[];
    for i := 0 to |keys|
      invariant row == RowOf(rec, keys[..i])
    {
      var key := keys[i];
      assert keys[..i + 1][..i] == keys[..i];
      if key == "run_num" {
        row := row["run" := RecList([map["run_number" := Get(rec, key)]])];
      } else if key == "lumi_section_num" {
        row := row["lumi" := RecList([map["number" := Get(rec, key)]])];
      } else if key == "logical_file_name" {
        row := row["file" := RecList([map["name" := Get(rec, key)]])];
      }
    }
    assert keys[..|keys|] == keys;
  }

  /** The outer loop of file_run_lumi: one row per filelumis record. */
  method Rows(filelumis: seq<Record>, keys: seq<string>) returns (out: seq<Record>)
    ensures out == MapRecords(filelumis, RowFor(keys))
  {
    out := [];
    for i := 0 to |filelumis|
      invariant out == MapRecords(filelumis[..i], RowFor(keys))
    {
      assert filelumis[..i + 1][..i] == filelumis[..i];
      var row := RowLoop(filelumis[i], keys);
      out := out + [row];
    }
    assert filelumis[..|filelumis|] == filelumis;
  }

  /** The field a key maps to determines the key. */
  lemma FieldOfInjective(a: string, b: string)
    requires FieldOf(a).Some? && FieldOf(b).Some? && FieldOf(a).value.0 == FieldOf(b).value.0
    ensures a == b
  {
  }

  /** A row has a field exactly for each requested key that maps to one. */
  lemma {:induction false} RowOfDomain(rec: Record, keys: seq<string>)
    ensures forall f :: f in RowOf(rec, keys) <==>
      exists i :: 0 <= i < |keys| && FieldOf(keys[i]).Some? && FieldOf(keys[i]).value.0 == f
  {
    if |keys| > 0 {
      var pre := keys[..|keys| - 1];
      var last := |keys| - 1;
      RowOfDomain(rec, pre);
      forall f ensures f in RowOf(rec, keys) <==>
        exists i :: 0 <= i < |keys| && FieldOf(keys[i]).Some? && FieldOf(keys[i]).value.0 == f
      {
        if exists i :: 0 <= i < |keys| && FieldOf(keys[i]).Some? && FieldOf(keys[i]).value.0 == f {
          var i :| 0 <= i < |keys| && FieldOf(keys[i]).Some? && FieldOf(keys[i]).value.0 == f;
          if i < last {
            assert pre[i] == keys[i];
          }
        }
        if f in RowOf(rec, pre) {
          var i :| 0 <= i < |pre| && FieldOf(pre[i]).Some? && FieldOf(pre[i]).value.0 == f;
          assert pre[i] == keys[i];
        }
      }
    }
  }

  /** Each field of a row wraps the record's value at the key it came from. */
  lemma {:induction false} RowOfValues(rec: Record, keys: seq<string>)
    ensures forall i :: 0 <= i < |keys| && FieldOf(keys[i]).Some? ==>
      FieldOf(keys[i]).value.0 in RowOf(rec, keys) &&
      RowOf(rec, keys)[FieldOf(keys[i]).value.0] == Wrapped(FieldOf(keys[i]).value.1, Get(rec, keys[i]))
  {
    if |keys| > 0 {
      var pre := keys[..|keys| - 1];
      var last := |keys| - 1;
      RowOfValues(rec, pre);
      forall i | 0 <= i < |keys| && FieldOf(keys[i]).Some?
        ensures FieldOf(keys[i]).value.0 in RowOf(rec, keys)
        ensures RowOf(rec, keys)[FieldOf(keys[i]).value.0] == Wrapped(FieldOf(keys[i]).value.1, Get(rec, keys[i]))
      {
        if i < last {
          assert pre[i] == keys[i];
          if FieldOf(keys[last]).Some? && FieldOf(keys[last]).value.0 == FieldOf(keys[i]).value.0 {
            FieldOfInjective(keys[last], keys[i]);
          }
        }
      }
    }
  }

  // ---------------------------------------------------------------------
  // OrderByRunLumis on records

  /** mongo.GetValue on a two-segment key "a.b" (GetValue is not part of this
      model): the value at b in the record held at a, a list of records
      standing for its first element; nil when there is none. */
  function GetValue2(rec: Record, a: string, b: string): (v: Value)
    ensures v != Null ==> Get(rec, a).Rec? || (Get(rec, a).RecList? && |Get(rec, a).recs| > 0)
  {
    match Get(rec, a)
    case Rec(inner) => Get(inner, b)
    case RecList(recs) => if |recs| > 0 then Get(recs[0], b) else Null
    case _ => Null
  }

  /** v.(float64) on every element of a list. */
  function FloatsOf(items: seq<Value>): (r: Option<seq<int>>)
    ensures r.Some? <==> forall k :: 0 <= k < |items| ==> items[k].Float?
    ensures r.Some? ==> |r.value| == |items| && forall k :: 0 <= k < |items| ==> r.value[k] == items[k].f
  {
    if |items| == 0 then Some([])
    else
      var pre := items[..|items| - 1];
      assert forall k :: 0 <= k < |pre| ==> pre[k] == items[k];
      match FloatsOf(pre)
      case None => None
      case Some(ns) =>
        match items[|items| - 1]
        case Float(f) => Some(ns + [f])
        case _ => None
  }

  /** The run and the lumi list of one row, or the panic of a failed type
      assertion. */
  function ExtractRunLumi(row: Record): Outcome<RunLumi> {
    match GetValue2(row, "lumi", "number")
    case List(items) =>
      (match GetValue2(row, "run", "run_number")
       case Float(run) =>
         (match FloatsOf(items)
          case Some(lumis) => Ok((run, lumis))
          case None => Panic(ConversionPanic))
       case _ => Panic(ConversionPanic))
    case _ => Panic(ConversionPanic)
  }

  function ExtractAll(rows: seq<Record>): Outcome<seq<RunLumi>> {
    if |rows| == 0 then Ok([])
    else match ExtractAll(rows[..|rows| - 1])
      case Panic(why) => Panic(why)
      case Ok(pairs) =>
        match ExtractRunLumi(rows[|rows| - 1])
        case Panic(why) => Panic(why)
        case Ok(p) => Ok(pairs + [p])
  }

  function FloatList(ns: seq<int>): (vs: seq<Value>)
    ensures |vs| == |ns| && forall k :: 0 <= k < |ns| ==> vs[k] == Float(ns[k])
  {
    if |ns| == 0 then [] else FloatList(ns[..|ns| - 1]) + [Float(ns[|ns| - 1])]
  }

  /** {"run": {"run_number": run}, "lumi": {"number": lumis}} */
  function GroupRecord(p: RunLumi): Record {
    map["run" := Rec(map["run_number" := Float(p.0)]), "lumi" := Rec(map["number" := List(FloatList(p.1))])]
  }

  function GroupRecords(groups: seq<RunLumi>): (out: seq<Record>)
    ensures |out| == |groups| && forall k :: 0 <= k < |groups| ==> out[k] == GroupRecord(groups[k])
  {
    if |groups| == 0 then [] else GroupRecords(groups[..|groups| - 1]) + [GroupRecord(groups[|groups| - 1])]
  }

  /** The per-item conversion loop. */
  method FloatsLoop(items: seq<Value>) returns (out: Option<seq<int>>)
    ensures out == FloatsOf(items)
  {
    var lumis: seq<int> := [];
    for i := 0 to |items|
      invariant FloatsOf(items[..i]) == Some(lumis)
    {
      assert items[..i + 1][..i] == items[..i];
      var v := items[i];
      if !v.Float? {
        assert FloatsOf(items[..i + 1]).None?;
        FloatsPrefix(items, i + 1);
        return None;
      }
      lumis := lumis + [v.f];
    }
    assert items[..|items|] == items;
    out := Some(lumis);
  }

  /** A prefix that fails the conversion makes the whole list fail. */
  lemma FloatsPrefix(items: seq<Value>, n: nat)
    requires n <= |items| && FloatsOf(items[..n]).None?
    ensures FloatsOf(items).None?
  {
    var k :| 0 <= k < n && !items[..n][k].Float?;
    assert !items[k].Float?;
  }

  /** A prefix that fails the extraction makes the whole list fail. */
  lemma {:induction false} ExtractPrefix(rows: seq<Record>, n: nat)
    requires n <= |rows| && ExtractAll(rows[..n]).Panic?
    ensures ExtractAll(rows) == Panic(ConversionPanic)
    decreases |rows| - n
  {
    ExtractPanicReason(rows[..n]);
    if n < |rows| {
      assert rows[..n + 1][..n] == rows[..n];
      ExtractPrefix(rows, n + 1);
    } else {
      assert rows[..n] == rows;
    }
  }

  lemma {:induction false} ExtractPanicReason(rows: seq<Record>)
    ensures ExtractAll(rows).Panic? ==> ExtractAll(rows) == Panic(ConversionPanic)
  {
    if |rows| > 0 {
      ExtractPanicReason(rows[..|rows| - 1]);
    }
  }

  /** OrderByRunLumis: extract each row's run and lumis (a failed type
      assertion panics), group them by run, and emit one record per run. */
  method OrderByRunLumiRecords(records: seq<Record>) returns (out: Outcome<seq<Record>>)
    ensures ExtractAll(records).Panic? ==> out == Panic(ConversionPanic)
    ensures ExtractAll(records).Ok? ==>
      out.Ok? && exists grouped :: IsGrouping(ExtractAll(records).value, grouped) && out.value == GroupRecords(grouped)
  {
    var pairs: seq<RunLumi> := [];
    for i := 0 to |records|
      invariant ExtractAll(records[..i]) == Ok(pairs)
    {
      assert records[..i + 1][..i] == records[..i];
      var r := records[i];
      var lumiList := GetValue2(r, "lumi", "number");
      var run := GetValue2(r, "run", "run_number");
      if !lumiList.List? || !run.Float? {
        ExtractPrefix(records, i + 1);
        return Panic(ConversionPanic);
      }
      var lumis := FloatsLoop(lumiList.items);
      if lumis.None? {
        ExtractPrefix(records, i + 1);
        return Panic(ConversionPanic);
      }
      pairs := pairs + [(run.f, lumis.value)];
    }
    assert records[..|records|] == records;
    var grouped := OrderByRunLumis(pairs);
    var recs: seq<Record> := [];
    for k := 0 to |grouped|
      invariant recs == GroupRecords(grouped[..k])
    {
      assert grouped[..k + 1][..k] == grouped[..k];
      var (run, lumis) := grouped[k];
      recs := recs + [map["run" := Rec(map["run_number" := Float(run)]), "lumi" := Rec(map["number" := List(FloatList(lumis))])]];
    }
    assert grouped[..|grouped|] == grouped;
    out := Ok(recs);
  }

  // ---------------------------------------------------------------------
  // file_run_lumi

  /** Exactly the run and the lumi keys, in either order. */
  predicate Groups(keys: seq<string>) {
    |keys| == 2 &&
      ((keys[0] == "run_num" && keys[1] == "lumi_section_num") ||
       (keys[0] == "lumi_section_num" && keys[1] == "run_num"))
  }

  /** file_run_lumi over the records processUrls returned for the filelumis
      URLs: the rows, merged by run when exactly run and lumi were asked. */
  method FileRunLumi(filelumis: seq<Record>, keys: seq<string>) returns (out: Outcome<seq<Record>>)
    ensures !Groups(keys) ==> out == Ok(MapRecords(filelumis, RowFor(keys)))
    ensures Groups(keys) && ExtractAll(MapRecords(filelumis, RowFor(keys))).Panic? ==> out == Panic(ConversionPanic)
    ensures Groups(keys) && ExtractAll(MapRecords(filelumis, RowFor(keys))).Ok? ==>
      out.Ok? && exists grouped :: IsGrouping(ExtractAll(MapRecords(filelumis, RowFor(keys))).value, grouped)
                                    && out.value == GroupRecords(grouped)
  {
    var rows := Rows(filelumis, keys);
    if |keys| == 2 {
      if keys[0] == "run_num" && keys[1] == "lumi_section_num" {
        out := OrderByRunLumiRecords(rows);
        return;
      } else if keys[0] == "lumi_section_num" && keys[1] == "run_num" {
        out := OrderByRunLumiRecords(rows);
        return;
      }
    }
    out := Ok(rows);
  }

  /** A filelumis record whose run is a number and whose lumis are a list of
      numbers gives a row that extracts back to that run and those lumis. */
  lemma RowExtracts(rec: Record, keys: seq<string>)
    requires Groups(keys)
    requires Get(rec, "run_num").Float?
    requires Get(rec, "lumi_section_num").List?
    requires forall k :: 0 <= k < |Get(rec, "lumi_section_num").items| ==> Get(rec, "lumi_section_num").items[k].Float?
    ensures ExtractRunLumi(RowOf(rec, keys)) ==
      Ok((Get(rec, "run_num").f, FloatsOf(Get(rec, "lumi_section_num").items).value))
  {
    RowOfValues(rec, keys);
    var run := if keys[0] == "run_num" then 0 else 1;
    assert FieldOf(keys[run]) == Some(("run", "run_number"));
    assert FieldOf(keys[1 - run]) == Some(("lumi", "number"));
  }

  /** A filelumis record without a list of lumis makes the merge panic. */
  lemma RowWithoutLumisPanics(rec: Record, keys: seq<string>)
    requires Groups(keys)
    requires !Get(rec, "lumi_section_num").List?
    ensures ExtractRunLumi(RowOf(rec, keys)).Panic?
  {
    RowOfValues(rec, keys);
    var lumi := if keys[0] == "lumi_section_num" then 0 else 1;
    assert FieldOf(keys[lumi]) == Some(("lumi", "number"));
  }

  /** When every filelumis record carries a numeric run and numeric lumis,
      the merge extracts exactly the records' runs and lumis, in order. */
  lemma {:induction false} RowsExtract(filelumis: seq<Record>, keys: seq<string>)
    requires Groups(keys)
    requires forall i :: 0 <= i < |filelumis| ==>
      Get(filelumis[i], "run_num").Float? && Get(filelumis[i], "lumi_section_num").List?
      && FloatsOf(Get(filelumis[i], "lumi_section_num").items).Some?
    ensures ExtractAll(MapRecords(filelumis, RowFor(keys))).Ok?
    ensures var pairs := ExtractAll(MapRecords(filelumis, RowFor(keys))).value;
      && |pairs| == |filelumis|
      && forall i :: 0 <= i < |filelumis| ==>
           pairs[i] == (Get(filelumis[i], "run_num").f, FloatsOf(Get(filelumis[i], "lumi_section_num").items).value)
  {
    if |filelumis| > 0 {
      var pre := filelumis[..|filelumis| - 1];
      var last := filelumis[|filelumis| - 1];
      assert forall i :: 0 <= i < |pre| ==> pre[i] == filelumis[i];
      RowsExtract(pre, keys);
      var rows := MapRecords(filelumis, RowFor(keys));
      assert rows[..|rows| - 1] == MapRecords(pre, RowFor(keys));
      RowExtracts(last, keys);
    }
  }

  // ---------------------------------------------------------------------
  // The whole of file_run_lumi

  /** PhEDEx decoding is not used for DBS replies. */
  function NoPhedex(api: string, data: string): Outcome<seq<Record>> { Ok([]) }

  /** file_run_lumi: plan the filelumis URLs (dbs_urls), join the replies
      that arrive in `responses` (processUrls with loadDBSData's decoding
      `decode`), then shape them. `complete` says whether every planned URL
      was answered; when it is false the source keeps waiting. */
  method FileRunLumiQuery(q: DASQuery, load: Loader, list2Set: seq<string> -> seq<string>,
                          responses: seq<ResponseType>, decode: string -> Outcome<seq<Record>>,
                          keys: seq<string>)
    returns (out: Outcome<seq<Record>>, consumed: nat, complete: bool)
    ensures consumed <= |responses|
    ensures PlannedUrls(q, "filelumis", load).Panic? ==> out == Panic(PlannedUrls(q, "filelumis", load).reason)
    ensures PlannedUrls(q, "filelumis", load).Ok? ==>
      var urls := list2Set(PlannedUrls(q, "filelumis", load).value);
      var got := Collect("dbs3", "filelumis", responses[..consumed], decode, NoPhedex);
      && (got.Panic? ==> out == Panic(got.reason))
      && (got.Ok? ==> (complete <==> Pending(Keys(urls), responses[..consumed]) == {}))
      && (got.Ok? && !Groups(keys) ==> out == Ok(MapRecords(got.value, RowFor(keys))))
      && (got.Ok? && Groups(keys) && ExtractAll(MapRecords(got.value, RowFor(keys))).Panic? ==>
            out == Panic(ConversionPanic))
      && (got.Ok? && Groups(keys) && ExtractAll(MapRecords(got.value, RowFor(keys))).Ok? ==>
            out.Ok? && exists grouped :: IsGrouping(ExtractAll(MapRecords(got.value, RowFor(keys))).value, grouped)
                                          && out.value == GroupRecords(grouped))
  {
    var api := "filelumis";
    var urls := DbsUrls(q, api, load, list2Set);
    if urls.Panic? {
      return Panic(urls.reason), 0, true;
    }
    var filelumis;
    filelumis, consumed, complete := ProcessUrls("dbs3", api, urls.value, responses, decode, NoPhedex);
    if filelumis.Panic? {
      return Panic(filelumis.reason), consumed, complete;
    }
    out := FileRunLumi(filelumis.value, keys);
  }
}
