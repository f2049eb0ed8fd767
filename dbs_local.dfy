/** The local DBS3 APIs of services/dbs.go: answers DAS derives from other
    DBS calls by splitting names on '#', '/' and "block_name=", and by
    filtering lumis and tiers. Each API that goes through file_run_lumi or
    processUrls is modelled over the records processUrls returned. */
module DbsLocal {
  import opened Wrappers
  import opened GoStrings
  import opened UrlEscape
  import opened Records
  import opened DbsUnmarshal
  import opened HelpersPlan
  import opened HelpersSite
  import opened HelpersShape
  import opened Dedups
  import opened UrlLiterals

  /** The message of Go's index-out-of-range runtime panic. */
  const IndexPanic := "index out of range"

  /** The message of url.QueryUnescape's error. */
  const EscapePanic := "invalid URL escape"

  // ---------------------------------------------------------------------
  // dataset4block

  /** L_dbs3_dataset4block: the one record {dataset: [{name}]} naming the
      dataset of the query's block. */
  function Dataset4Block(q: DASQuery): (r: Outcome<seq<Record>>)
    ensures !Get(q.spec, "block").Str? <==> r == Panic(ConversionPanic)
    ensures Get(q.spec, "block").Str? ==>
      var block := Get(q.spec, "block").s;
      && r.Ok? && |r.value| == 1
      && r.value[0].Keys == {"dataset"}
      && r.value[0]["dataset"] == RecList([map["name" := Str(DatasetOfBlock(block))]])
  {
    match Get(q.spec, "block")
    case Str(block) => Ok([NameRecord("dataset", Split(block, "#")[0])])
    case _ => Panic(ConversionPanic)
  }

  /** The dataset named is the block's text before its first '#', or the
      whole block when it has none. */
  lemma Dataset4BlockName(q: DASQuery, d: string, x: string)
    requires '#' !in d
    ensures Get(q.spec, "block") == Str(d + "#" + x) ==>
      Dataset4Block(q) == Ok([NameRecord("dataset", d)])
    ensures Get(q.spec, "block") == Str(d) ==>
      Dataset4Block(q) == Ok([NameRecord("dataset", d)])
  {
    DatasetOfBlockPrefix(d, x);
  }

  // ---------------------------------------------------------------------
  // The file_run_lumi dispatchers

  /** The keys each local API passes to file_run_lumi. */
  function KeysOf(api: string): Option<seq<string>> {
    if api == "run_lumi4dataset" || api == "run_lumi4block" then Some(["run_num", "lumi_section_num"])
    else if api == "file_lumi4dataset" || api == "file_lumi4block" then Some(["logical_file_name", "lumi_section_num"])
    else if api == "file_run_lumi4dataset" || api == "file_run_lumi4block" then
      Some(["logical_file_name", "run_num", "lumi_section_num"])
    else if api == "lumi4block_run" then Some(["lumi_section_num"])
    else None
  }

  /** Only the run_lumi APIs merge their rows by run; the rows of the others
      hold exactly the sub-records of their keys. */
  lemma DispatchShapes(api: string, rec: Record)
    requires KeysOf(api).Some?
    ensures Groups(KeysOf(api).value) <==> api == "run_lumi4dataset" || api == "run_lumi4block"
    ensures (api == "file_lumi4dataset" || api == "file_lumi4block") ==>
      RowOf(rec, KeysOf(api).value) ==
        map["file" := Wrapped("name", Get(rec, "logical_file_name")),
            "lumi" := Wrapped("number", Get(rec, "lumi_section_num"))]
    ensures (api == "file_run_lumi4dataset" || api == "file_run_lumi4block") ==>
      RowOf(rec, KeysOf(api).value) ==
        map["file" := Wrapped("name", Get(rec, "logical_file_name")),
            "run" := Wrapped("run_number", Get(rec, "run_num")),
            "lumi" := Wrapped("number", Get(rec, "lumi_section_num"))]
    ensures api == "lumi4block_run" ==>
      RowOf(rec, KeysOf(api).value) == map["lumi" := Wrapped("number", Get(rec, "lumi_section_num"))]
  {
    var file, run, lumi := "logical_file_name", "run_num", "lumi_section_num";
    RowOfSnoc(rec, [], lumi);
    RowOfSnoc(rec, [], file);
    RowOfSnoc(rec, [file], lumi);
    RowOfSnoc(rec, [file], run);
    RowOfSnoc(rec, [file, run], lumi);
    assert [] + [lumi] == [lumi] && [] + [file] == [file];
    assert [file] + [lumi] == [file, lumi] && [file] + [run] == [file, run];
    assert [file, run] + [lumi] == [file, run, lumi];
  }

  lemma RowOfSnoc(rec: Record, keys: seq<string>, key: string)
    ensures RowOf(rec, keys + [key]) ==
      match FieldOf(key)
      case None => RowOf(rec, keys)
      case Some((field, inner)) => RowOf(rec, keys)[field := Wrapped(inner, Get(rec, key))]
  {
    assert (keys + [key])[..|keys|] == keys;
  }

  // ---------------------------------------------------------------------
  // block_run_lumi4dataset

  /** The block name as the source takes it from a provenance URL: the text
      between the first and the second "block_name=" of the unescaped URL. */
  function BlockOfUrlAsWritten(rurl: string): (r: Outcome<string>)
    ensures QueryUnescape(rurl).None? <==> r == Panic(EscapePanic)
    ensures QueryUnescape(rurl).Some? ==>
      (r.Ok? <==> Contains(QueryUnescape(rurl).value, "block_name="))
    ensures QueryUnescape(rurl).Some? && !Contains(QueryUnescape(rurl).value, "block_name=") ==>
      r == Panic(IndexPanic)
  {
    match QueryUnescape(rurl)
    case None => Panic(EscapePanic)
    case Some(u) =>
      var arr := Split(u, "block_name=");
      if |arr| < 2 then Panic(IndexPanic) else Ok(arr[1])
  }

  /** The block name read as the block_name query parameter. */
  function BlockOfUrl(rurl: string): Outcome<string> {
    Ok(QueryGet(rurl, "block_name"))
  }

  /** One block_run_lumi4dataset row: the block of the record's URL, its run
      and its lumis, each wrapped as a one-record list. */
  function BlockRow(rec: Record, blockOf: string -> Outcome<string>): Outcome<Record> {
    match Get(rec, "url")
    case Str(rurl) =>
      (match blockOf(rurl)
       case Panic(why) => Panic(why)
       case Ok(blk) =>
         Ok(map["block" := Wrapped("name", Str(blk)),
                "run" := Wrapped("run_number", Get(rec, "run_num")),
                "lumi" := Wrapped("number", Get(rec, "lumi_section_num"))]))
    case _ => Panic(ConversionPanic)
  }

  function BlockRows(filelumis: seq<Record>, blockOf: string -> Outcome<string>): Outcome<seq<Record>> {
    if |filelumis| == 0 then Ok([])
    else match BlockRows(filelumis[..|filelumis| - 1], blockOf)
      case Panic(why) => Panic(why)
      case Ok(rows) =>
        match BlockRow(filelumis[|filelumis| - 1], blockOf)
        case Panic(why) => Panic(why)
        case Ok(row) => Ok(rows + [row])
  }

  lemma {:induction false} BlockRowsPrefix(filelumis: seq<Record>, n: nat, blockOf: string -> Outcome<string>)
    requires n <= |filelumis| && BlockRows(filelumis[..n], blockOf).Panic?
    ensures BlockRows(filelumis, blockOf) == BlockRows(filelumis[..n], blockOf)
    decreases |filelumis| - n
  {
    if n < |filelumis| {
      assert filelumis[..n + 1][..n] == filelumis[..n];
      BlockRowsPrefix(filelumis, n + 1, blockOf);
    } else {
      assert filelumis[..n] == filelumis;
    }
  }

  /** The key loop of block_run_lumi4dataset for one record. */
  method BlockRowLoop(rec: Record) returns (out: Outcome<Record>)
    ensures out == BlockRow(rec, BlockOfUrl)
  {
    var keys := ["block_name", "run_num", "lumi_section_num"];
    var row: Record := map[];
    for j := 0 to |keys|
      invariant j >= 1 ==> Get(rec, "url").Str?
      invariant row.Keys == (if j >= 1 then {"block"} else {}) + (if j >= 2 then {"run"} else {}) + (if j >= 3 then {"lumi"} else {})
      invariant j >= 1 ==> row["block"] == Wrapped("name", Str(QueryGet(Get(rec, "url").s, "block_name")))
      invariant j >= 2 ==> row["run"] == Wrapped("run_number", Get(rec, "run_num"))
      invariant j >= 3 ==> row["lumi"] == Wrapped("number", Get(rec, "lumi_section_num"))
    {
      var key := keys[j];
      if key == "run_num" {
        row := row["run" := RecList([map["run_number" := Get(rec, key)]])];
      } else if key == "lumi_section_num" {
        row := row["lumi" := RecList([map["number" := Get(rec, key)]])];
      } else if key == "block_name" {
        var rurl := Get(rec, "url");
        if !rurl.Str? {
          return Panic(ConversionPanic);
        }
        var blk := QueryGet(rurl.s, "block_name");
        row := row["block" := RecList([map["name" := Str(blk)]])];
      }
    }
    var expected := map["block" := Wrapped("name", Str(QueryGet(Get(rec, "url").s, "block_name"))),
                        "run" := Wrapped("run_number", Get(rec, "run_num")),
                        "lumi" := Wrapped("number", Get(rec, "lumi_section_num"))];
    assert row.Keys == expected.Keys;
    assert row == expected;
    out := Ok(row);
  }

  /** L_dbs3_block_run_lumi4dataset over the filelumis records, reading the
      block as the block_name parameter of each record's URL. */
  method BlockRunLumi4Dataset(filelumis: seq<Record>) returns (out: Outcome<seq<Record>>)
    ensures out == BlockRows(filelumis, BlockOfUrl)
  {
    var rows: seq<Record> := [];
    for i := 0 to |filelumis|
      invariant BlockRows(filelumis[..i], BlockOfUrl) == Ok(rows)
    {
      assert filelumis[..i + 1][..i] == filelumis[..i];
      var row := BlockRowLoop(filelumis[i]);
      if row.Panic? {
        BlockRowsPrefix(filelumis, i + 1, BlockOfUrl);
        return Panic(row.reason);
      }
      rows := rows + [row.value];
    }
    assert filelumis[..|filelumis|] == filelumis;
    out := Ok(rows);
  }

  /** For every URL dbs_urls builds, the block_name parameter is the block. */
  lemma BlockOfPlannedUrl(inst: string, api: string, blk: string, runs: seq<string>, valid: bool)
    requires '?' !in inst && '?' !in api
    requires IsBytes(blk)
    requires forall k :: 0 <= k < |runs| ==> PlainRun(runs[k])
    ensures BlockOfUrl(BlockUrl(inst, api, blk, RunNumArgs(runs), valid)) == Ok(blk)
  {
    BlockUrlQuery(inst, api, blk, runs, valid);
  }

  /** A character absent from every run and from "&run_num=" is absent from
      the run arguments. */
  lemma {:induction false} RunArgsLack(runs: seq<string>, c: char)
    requires c !in "&run_num="
    requires forall k :: 0 <= k < |runs| ==> c !in runs[k]
    ensures c !in RunNumArgs(runs)
  {
    if |runs| > 0 {
      RunArgsLack(runs[..|runs| - 1], c);
      assert runs[|runs| - 1] == runs[|runs| - 1];
    }
  }

  /** The URL as written, unescaped: the escaped block comes back, the rest
      is plain. */
  lemma AsWrittenUnescape(pre: string, blk: string, tail: string)
    requires '%' !in pre && '+' !in pre && '%' !in tail && '+' !in tail
    requires IsBytes(blk)
    ensures QueryUnescape(pre + QueryEscape(blk) + tail) == Some(pre + (blk + tail))
  {
    assert pre + QueryEscape(blk) + tail == pre + (QueryEscape(blk) + tail);
    UnescapePlainPrefix(pre, QueryEscape(blk) + tail);
    UnescapeEscapedPrefix(blk, tail);
    UnescapePlain(tail);
  }

  /** Splitting at "block_name=" when it occurs once, right after `pre`. */
  lemma AsWrittenSplit(pre: string, rest: string)
    requires '=' !in pre && 'k' !in rest
    ensures Split(pre + "block_name=" + rest, "block_name=") == [pre, rest]
  {
    var sep := "block_name=";
    var u := pre + sep + rest;
    IndexAfter(pre, sep, rest);
    SplitTail(u, sep, |pre|);
    assert u[..|pre|] == pre;
    assert u[|pre| + |sep|..] == rest;
    assert sep[4] == 'k';
    MissingCharNotContained(rest, sep, 4);
  }

  lemma ConcatLacks(a: string, b: string, c: char)
    requires c !in a && c !in b
    ensures c !in a + b
  {
    assert forall i :: 0 <= i < |a + b| ==> (a + b)[i] == if i < |a| then a[i] else b[i - |a|];
  }

  /** A character absent from the instance and the API, and from the URL's
      literal parts, is absent from the head of a dbs_urls URL. */
  lemma HeadLacks(inst: string, api: string, c: char)
    requires c !in "https://cmsweb.cern.ch/dbs/" && c !in "/DBSReader" && c != '/' && c != '?'
    requires c !in inst && c !in api
    ensures c !in DbsUrl(inst) + "/" + api + "?"
  {
    ConcatLacks("https://cmsweb.cern.ch/dbs/", inst, c);
    ConcatLacks("https://cmsweb.cern.ch/dbs/" + inst, "/DBSReader", c);
    ConcatLacks(DbsUrl(inst), "/", c);
    ConcatLacks(DbsUrl(inst) + "/", api, c);
    ConcatLacks(DbsUrl(inst) + "/" + api, "?", c);
  }

  /** A character absent from the runs and from the literal parts is absent
      from the tail of a dbs_urls URL. */
  lemma TailLacks(runs: seq<string>, valid: bool, c: char)
    requires c !in "&run_num=" && c !in ValidFlag
    requires forall k :: 0 <= k < |runs| ==> c !in runs[k]
    ensures c !in RunNumArgs(runs) + (if valid then ValidFlag else "")
  {
    RunArgsLack(runs, c);
    ConcatLacks(RunNumArgs(runs), if valid then ValidFlag else "", c);
  }

  /** As written, the block taken from a URL whose only "block_name=" is
      followed by the escaped block and a plain tail. */
  lemma AsWrittenAt(head: string, blk: string, tail: string)
    requires '%' !in head && '+' !in head && '=' !in head
    requires '%' !in tail && '+' !in tail && 'k' !in tail
    requires IsBytes(blk) && 'k' !in blk
    ensures BlockOfUrlAsWritten(head + "block_name=" + QueryEscape(blk) + tail) == Ok(blk + tail)
  {
    var pre := head + "block_name=";
    ConcatLacks(head, "block_name=", '%');
    ConcatLacks(head, "block_name=", '+');
    AsWrittenUnescape(pre, blk, tail);
    ConcatLacks(blk, tail, 'k');
    AsWrittenSplit(head, blk + tail);
  }

  /** A dbs_urls URL, cut at its "block_name=". */
  lemma BlockUrlShape(inst: string, api: string, blk: string, runsArgs: string, valid: bool)
    ensures BlockUrl(inst, api, blk, runsArgs, valid) ==
      (DbsUrl(inst) + "/" + api + "?") + "block_name=" + QueryEscape(blk) + (runsArgs + (if valid then ValidFlag else ""))
  {
    var h := DbsUrl(inst) + "/" + api;
    assert "?block_name=" == "?" + "block_name=";
    assert h + "?block_name=" == h + "?" + "block_name=";
  }

  /** As written, the block taken from a planned URL carries the URL's run
      arguments and validFileOnly flag after the block name. */
  lemma AsWrittenTail(inst: string, api: string, blk: string, runs: seq<string>, valid: bool)
    requires '%' !in inst && '+' !in inst && '=' !in inst
    requires '%' !in api && '+' !in api && '=' !in api
    requires IsBytes(blk) && 'k' !in blk
    requires forall k :: 0 <= k < |runs| ==> PlainRun(runs[k]) && 'k' !in runs[k]
    ensures BlockOfUrlAsWritten(BlockUrl(inst, api, blk, RunNumArgs(runs), valid)) ==
      Ok(blk + (RunNumArgs(runs) + (if valid then ValidFlag else "")))
  {
    LiteralsPlain();
    HeadLacks(inst, api, '%');
    HeadLacks(inst, api, '+');
    HeadLacks(inst, api, '=');
    TailLacks(runs, valid, '%');
    TailLacks(runs, valid, '+');
    TailLacks(runs, valid, 'k');
    BlockUrlShape(inst, api, blk, RunNumArgs(runs), valid);
    AsWrittenAt(DbsUrl(inst) + "/" + api + "?", blk, RunNumArgs(runs) + (if valid then ValidFlag else ""));
  }

  /** With run arguments or the validFileOnly flag in the URL, the block the
      source takes is not the block the URL was built for. */
  lemma AsWrittenWrongBlock(inst: string, api: string, blk: string, runs: seq<string>, valid: bool)
    requires '%' !in inst && '+' !in inst && '=' !in inst
    requires '%' !in api && '+' !in api && '=' !in api
    requires '?' !in inst && '?' !in api
    requires IsBytes(blk) && 'k' !in blk
    requires forall k :: 0 <= k < |runs| ==> PlainRun(runs[k]) && 'k' !in runs[k]
    requires |runs| > 0 || valid
    ensures BlockOfUrlAsWritten(BlockUrl(inst, api, blk, RunNumArgs(runs), valid)) != Ok(blk)
    ensures BlockOfUrl(BlockUrl(inst, api, blk, RunNumArgs(runs), valid)) == Ok(blk)
  {
    AsWrittenTail(inst, api, blk, runs, valid);
    BlockOfPlannedUrl(inst, api, blk, runs, valid);
    var flag := if valid then ValidFlag else "";
    if |runs| > 0 {
      assert |RunNumArgs(runs)| >= 9;
    } else {
      assert |flag| == 16;
    }
    assert |blk + (RunNumArgs(runs) + flag)| > |blk|;
  }
}
