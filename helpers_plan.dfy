/** URL planning in services/helpers.go: the DBS base URL, the run and
    status arguments of a query, the blocks a query covers (find_blocks) and
    the per-block URLs of dbs_urls. A DBS call is the parameter `load`: the
    records loadDBSData decodes from the reply FetchResponse gives for a
    URL, or the panic it raises on malformed data. */
module HelpersPlan {
  import opened Wrappers
  import opened GoStrings
  import opened UrlEscape
  import opened Records
  import opened DbsUnmarshal

  /** dasql.DASQuery as these helpers use it: the query's key/value spec and
      the DBS instance. */
  datatype DASQuery = DASQuery(spec: Record, instance: string)

  /** What a DBS call yields for a URL. */
  type Loader = string -> Outcome<seq<Record>>

  /** dbsUrl */
  function DbsUrl(inst: string): string {
    "https://cmsweb.cern.ch/dbs/" + inst + "/DBSReader"
  }

  /** phedexUrl */
  const PhedexUrl := "https://cmsweb.cern.ch/phedex/datasvc/json/prod"

  // ---------------------------------------------------------------------
  // runArgs

  /** The run arguments for a list of run values: "&run_num=" and the value,
      for each value in order. */
  function RunNumArgs(runs: seq<string>): string {
    if |runs| == 0 then ""
    else RunNumArgs(runs[..|runs| - 1]) + "&run_num=" + runs[|runs| - 1]
  }

  /** The run values a query names: none, a []string, or a single string;
      None for any other type. */
  function RunValues(spec: Record): Option<seq<string>> {
    match Get(spec, "run")
    case Null => Some([])
    case StrList(vs) => Some(vs)
    case Str(v) => Some([v])
    case _ => None
  }

  const RunsPanic := "Unknown type for runs"

  /** runArgs: the "&run_num=" arguments of the query's runs; a panic for a
      run value of another type. */
  method RunArgs(q: DASQuery) returns (out: Outcome<string>)
    ensures RunValues(q.spec).Some? ==> out == Ok(RunNumArgs(RunValues(q.spec).value))
    ensures RunValues(q.spec).None? ==> out == Panic(RunsPanic)
  {
    var runs := Get(q.spec, "run");
    var runsArgs := "";
    if !runs.Null? {
      match runs {
        case StrList(value) =>
          for i := 0 to |value|
            invariant runsArgs == RunNumArgs(value[..i])
          {
            assert value[..i + 1][..i] == value[..i];
            runsArgs := runsArgs + "&run_num=" + value[i];
          }
          assert value[..|value|] == value;
        case Str(value) =>
          assert [value][..0] == [];
          runsArgs := runsArgs + "&run_num=" + value;
        case _ =>
          return Panic(RunsPanic);
      }
    }
    out := Ok(runsArgs);
  }

  // ---------------------------------------------------------------------
  // fileStatus

  /** fileStatus: a present status must be a string (the assertion panics
      otherwise) and selects valid files exactly when it reads "valid" in
      any mix of ASCII case. */
  function FileStatus(spec: Record): (r: Outcome<bool>)
    ensures r.Panic? <==> !(Get(spec, "status").Null? || Get(spec, "status").Str?)
    ensures r == Ok(true) <==>
      && Get(spec, "status").Str?
      && |Get(spec, "status").s| == 5
      && forall i :: 0 <= i < 5 ==> LowerChar(Get(spec, "status").s[i]) == "valid"[i]
  {
    match Get(spec, "status")
    case Null => Ok(false)
    case Str(v) =>
      assert |ToLower(v)| == 5 && (forall i :: 0 <= i < 5 ==> ToLower(v)[i] == "valid"[i]) ==> ToLower(v) == "valid";
      Ok(ToLower(v) == "valid")
    case _ => Panic(ConversionPanic)
  }

  // ---------------------------------------------------------------------
  // find_blocks

  /** The string each record holds under `field`, in order; the assertion
      rec[field].(string) panics at the first record without one. */
  function NamesOf(records: seq<Record>, field: string): (r: Outcome<seq<string>>)
    ensures r.Panic? ==> r == Panic(ConversionPanic)
  {
    if |records| == 0 then Ok([])
    else match NamesOf(records[..|records| - 1], field)
      case Panic(why) => Panic(why)
      case Ok(names) =>
        match Get(records[|records| - 1], field)
        case Str(s) => Ok(names + [s])
        case _ => Panic(ConversionPanic)
  }

  /** The URL of the DBS blocks call for a dataset. */
  function BlocksUrl(inst: string, dataset: string): string {
    DbsUrl(inst) + "/blocks?dataset=" + dataset
  }

  /** The blocks of a query: the block it names, or the block names DBS
      lists for the dataset it names. */
  function BlocksOf(q: DASQuery, load: Loader): Outcome<seq<string>> {
    match Get(q.spec, "block")
    case Null =>
      (match Get(q.spec, "dataset")
       case Str(dataset) =>
         (match Unmarshal("blocks", load(BlocksUrl(q.instance, dataset)))
          case Panic(why) => Panic(why)
          case Ok(records) => NamesOf(records, "block_name"))
       case _ => Panic(ConversionPanic))
    case Str(b) => Ok([b])
    case _ => Panic(ConversionPanic)
  }

  /** find_blocks */
  method FindBlocks(q: DASQuery, load: Loader) returns (out: Outcome<seq<string>>)
    ensures out == BlocksOf(q, load)
  {
    var blk := Get(q.spec, "block");
    if !blk.Null? {
      if !blk.Str? {
        return Panic(ConversionPanic);
      }
      return Ok([blk.s]);
    }
    var dataset := Get(q.spec, "dataset");
    if !dataset.Str? {
      return Panic(ConversionPanic);
    }
    var api := "blocks";
    var furl := DbsUrl(q.instance) + "/" + api + "?dataset=" + dataset.s;
    assert furl == BlocksUrl(q.instance, dataset.s);
    var records := DBSUnmarshal(api, load(furl));
    if records.Panic? {
      return Panic(records.reason);
    }
    var names: seq<string> := [];
    for i := 0 to |records.value|
      invariant NamesOf(records.value[..i], "block_name") == Ok(names)
    {
      assert records.value[..i + 1][..i] == records.value[..i];
      var name := Get(records.value[i], "block_name");
      if !name.Str? {
        NamesOfAt(records.value, "block_name");
        return Panic(ConversionPanic);
      }
      names := names + [name.s];
    }
    assert records.value[..|records.value|] == records.value;
    out := Ok(names);
  }

  /** NamesOf succeeds exactly when every record holds a string under the
      field, and then lists those strings in record order. */
  lemma {:induction false} NamesOfAt(records: seq<Record>, field: string)
    ensures NamesOf(records, field).Ok? <==> forall k :: 0 <= k < |records| ==> Get(records[k], field).Str?
    ensures NamesOf(records, field).Ok? ==>
      && |NamesOf(records, field).value| == |records|
      && forall k :: 0 <= k < |records| ==> NamesOf(records, field).value[k] == Get(records[k], field).s
  {
    if |records| > 0 {
      var pre := records[..|records| - 1];
      NamesOfAt(pre, field);
      assert forall k :: 0 <= k < |pre| ==> pre[k] == records[k];
    }
  }

  /** find_blocks: a named block is the answer whatever DBS holds; without
      one, the answer is the block_name of every record DBS returns for the
      named dataset, in order. */
  lemma FindBlocksCases(q: DASQuery, load: Loader)
    ensures Get(q.spec, "block").Str? ==> BlocksOf(q, load) == Ok([Get(q.spec, "block").s])
    ensures Get(q.spec, "block").Null? && Get(q.spec, "dataset").Str? ==>
      var loaded := load(BlocksUrl(q.instance, Get(q.spec, "dataset").s));
      && (loaded.Panic? ==> BlocksOf(q, load) == Panic(loaded.reason))
      && (loaded.Ok? && (forall k :: 0 <= k < |loaded.value| ==> Get(loaded.value[k], "block_name").Str?) ==>
            && BlocksOf(q, load).Ok?
            && |BlocksOf(q, load).value| == |loaded.value|
            && forall k :: 0 <= k < |loaded.value| ==>
                 BlocksOf(q, load).value[k] == Get(loaded.value[k], "block_name").s)
    ensures !Get(q.spec, "block").Null? && !Get(q.spec, "block").Str? ==> BlocksOf(q, load).Panic?
  {
    if Get(q.spec, "block").Null? && Get(q.spec, "dataset").Str? {
      var loaded := load(BlocksUrl(q.instance, Get(q.spec, "dataset").s));
      if loaded.Ok? {
        NamesOfAt(loaded.value, "block_name");
      }
    }
  }

  // ---------------------------------------------------------------------
  // dbs_urls

  const ValidFlag := "&validFileOnly=1"

  /** The URL dbs_urls builds for one block. */
  function BlockUrl(inst: string, api: string, blk: string, runsArgs: string, valid: bool): string {
    DbsUrl(inst) + "/" + api + "?block_name=" + QueryEscape(blk) + runsArgs + (if valid then ValidFlag else "")
  }

  function BlockUrls(inst: string, api: string, blocks: seq<string>, runsArgs: string, valid: bool): seq<string> {
    if |blocks| == 0 then []
    else BlockUrls(inst, api, blocks[..|blocks| - 1], runsArgs, valid)
         + [BlockUrl(inst, api, blocks[|blocks| - 1], runsArgs, valid)]
  }

  /** The URLs dbs_urls builds before handing them to List2Set, or the
      first panic among runArgs, fileStatus and find_blocks. */
  function PlannedUrls(q: DASQuery, api: string, load: Loader): Outcome<seq<string>> {
    match RunValues(q.spec)
    case None => Panic(RunsPanic)
    case Some(runs) =>
      match FileStatus(q.spec)
      case Panic(why) => Panic(why)
      case Ok(valid) =>
        match BlocksOf(q, load)
        case Panic(why) => Panic(why)
        case Ok(blocks) => Ok(BlockUrls(q.instance, api, blocks, RunNumArgs(runs), valid))
  }

  /** dbs_urls. utils.List2Set is not part of this model and is the
      parameter `list2Set`. */
  method DbsUrls(q: DASQuery, api: string, load: Loader, list2Set: seq<string> -> seq<string>)
    returns (out: Outcome<seq<string>>)
    ensures PlannedUrls(q, api, load).Panic? ==> out == PlannedUrls(q, api, load)
    ensures PlannedUrls(q, api, load).Ok? ==> out == Ok(list2Set(PlannedUrls(q, api, load).value))
  {
    var runsArgs := RunArgs(q);
    if runsArgs.Panic? {
      return Panic(runsArgs.reason);
    }
    var validFile := FileStatus(q.spec);
    if validFile.Panic? {
      return Panic(validFile.reason);
    }
    var blocks := FindBlocks(q, load);
    if blocks.Panic? {
      return Panic(blocks.reason);
    }
    var urls: seq<string> := [];
    for i := 0 to |blocks.value|
      invariant urls == BlockUrls(q.instance, api, blocks.value[..i], runsArgs.value, validFile.value)
    {
      assert blocks.value[..i + 1][..i] == blocks.value[..i];
      var myurl := DbsUrl(q.instance) + "/" + api + "?block_name=" + QueryEscape(blocks.value[i]);
      ghost var base := myurl;
      if |runsArgs.value| > 0 {
        myurl := myurl + runsArgs.value;
      } else {
        assert myurl == base + runsArgs.value;
      }
      if validFile.value {
        myurl := myurl + ValidFlag;
      } else {
        assert myurl == myurl + "";
      }
      assert myurl == BlockUrl(q.instance, api, blocks.value[i], runsArgs.value, validFile.value);
      urls := urls + [myurl];
    }
    assert blocks.value[..|blocks.value|] == blocks.value;
    out := Ok(list2Set(urls));
  }

  lemma {:induction false} BlockUrlsAt(inst: string, api: string, blocks: seq<string>, runsArgs: string, valid: bool)
    ensures |BlockUrls(inst, api, blocks, runsArgs, valid)| == |blocks|
    ensures forall k :: 0 <= k < |blocks| ==>
      BlockUrls(inst, api, blocks, runsArgs, valid)[k] == BlockUrl(inst, api, blocks[k], runsArgs, valid)
  {
    if |blocks| > 0 {
      BlockUrlsAt(inst, api, blocks[..|blocks| - 1], runsArgs, valid);
    }
  }

  // ---------------------------------------------------------------------
  // Reading a planned URL back with net/url

  /** The query pieces of the run arguments. */
  function RunPieces(runs: seq<string>): seq<string> {
    if |runs| == 0 then []
    else RunPieces(runs[..|runs| - 1]) + ["run_num=" + runs[|runs| - 1]]
  }

  function RunPairs(runs: seq<string>): seq<(string, string)> {
    if |runs| == 0 then []
    else RunPairs(runs[..|runs| - 1]) + [("run_num", runs[|runs| - 1])]
  }

  /** A run value that survives a round trip through a query string as is. */
  predicate PlainRun(r: string) {
    '&' !in r && '%' !in r && '+' !in r && ';' !in r
  }

  lemma {:induction false} RunArgsJoin(p: string, runs: seq<string>)
    ensures p + RunNumArgs(runs) == Join([p] + RunPieces(runs), "&")
  {
    if |runs| > 0 {
      var pre := runs[..|runs| - 1];
      var r := runs[|runs| - 1];
      RunArgsJoin(p, pre);
      assert [p] + RunPieces(runs) == ([p] + RunPieces(pre)) + ["run_num=" + r];
      JoinSnoc([p] + RunPieces(pre), "run_num=" + r, "&");
      assert p + RunNumArgs(runs) == (p + RunNumArgs(pre)) + "&" + ("run_num=" + r);
    } else {
      assert [p] + RunPieces(runs) == [p];
      assert p + "" == p;
    }
  }

  lemma {:induction false} RunPiecesAt(runs: seq<string>)
    ensures |RunPieces(runs)| == |runs|
    ensures forall k :: 0 <= k < |runs| ==> RunPieces(runs)[k] == "run_num=" + runs[k]
  {
    if |runs| > 0 {
      RunPiecesAt(runs[..|runs| - 1]);
    }
  }

  lemma {:induction false} ParsePairsConcat(a: seq<string>, b: seq<string>)
    ensures ParsePairs(a + b) == ParsePairs(a) + ParsePairs(b)
  {
    if a != [] {
      assert (a + b)[0] == a[0] && (a + b)[1..] == a[1..] + b;
      ParsePairsConcat(a[1..], b);
      var head := match ParsePair(a[0]) case None => [] case Some(kv) => [kv];
      assert ParsePairs(a + b) == head + ParsePairs(a[1..] + b);
      assert ParsePairs(a) == head + ParsePairs(a[1..]);
    } else {
      assert a + b == b;
    }
  }

  lemma {:induction false} ValuesOfConcat(a: seq<(string, string)>, b: seq<(string, string)>, key: string)
    ensures ValuesOf(a + b, key) == ValuesOf(a, key) + ValuesOf(b, key)
  {
    if a != [] {
      assert (a + b)[0] == a[0] && (a + b)[1..] == a[1..] + b;
      ValuesOfConcat(a[1..], b, key);
    } else {
      assert a + b == b;
    }
  }

  lemma {:induction false} RunPiecesParse(runs: seq<string>)
    requires forall k :: 0 <= k < |runs| ==> PlainRun(runs[k])
    ensures ParsePairs(RunPieces(runs)) == RunPairs(runs)
  {
    if |runs| > 0 {
      var pre := runs[..|runs| - 1];
      var r := runs[|runs| - 1];
      assert PlainRun(r);
      RunPiecesParse(pre);
      ParsePairsConcat(RunPieces(pre), ["run_num=" + r]);
      RunPieceParse(r);
    }
  }

  lemma RunPieceParse(r: string)
    requires PlainRun(r)
    ensures ParsePairs(["run_num=" + r]) == [("run_num", r)]
  {
    UnescapePlain(r);
    ParseSingle("run_num", r);
    assert "run_num" + "=" + r == "run_num=" + r;
  }

  lemma {:induction false} RunPairsValues(runs: seq<string>, key: string)
    ensures ValuesOf(RunPairs(runs), key) == if key == "run_num" then runs else []
  {
    if |runs| > 0 {
      var pre := runs[..|runs| - 1];
      RunPairsValues(pre, key);
      ValuesOfConcat(RunPairs(pre), [("run_num", runs[|runs| - 1])], key);
      assert [("run_num", runs[|runs| - 1])][1..] == [];
      assert pre + [runs[|runs| - 1]] == runs;
    }
  }

  /** The query pieces of a block URL. */
  function BlockPieces(blk: string, runs: seq<string>, valid: bool): seq<string> {
    ["block_name=" + QueryEscape(blk)] + RunPieces(runs) + (if valid then ["validFileOnly=1"] else [])
  }

  /** The raw query of a block URL is everything after "?". */
  lemma BlockUrlRawQuery(inst: string, api: string, blk: string, runsArgs: string, valid: bool)
    requires '?' !in inst && '?' !in api
    ensures RawQuery(BlockUrl(inst, api, blk, runsArgs, valid))
         == "block_name=" + QueryEscape(blk) + runsArgs + (if valid then ValidFlag else "")
  {
    var pre := DbsUrl(inst) + "/" + api;
    var query := "block_name=" + QueryEscape(blk) + runsArgs + (if valid then ValidFlag else "");
    assert BlockUrl(inst, api, blk, runsArgs, valid) == pre + ['?'] + query;
    assert '?' !in pre;
    IndexAfterChar(pre, '?', query);
    assert (pre + ['?'] + query)[|pre| + 1..] == query;
  }

  /** Joining a first piece, the run pieces and the optional flag with "&". */
  lemma FlagQueryJoin(first: string, runs: seq<string>, valid: bool)
    ensures first + RunNumArgs(runs) + (if valid then ValidFlag else "")
         == Join([first] + RunPieces(runs) + (if valid then ["validFileOnly=1"] else []), "&")
  {
    RunArgsJoin(first, runs);
    var ps := [first] + RunPieces(runs);
    if valid {
      JoinSnoc(ps, "validFileOnly=1", "&");
      assert ValidFlag == "&" + "validFileOnly=1";
    } else {
      assert ps + [] == ps;
    }
  }

  lemma BlockQueryJoin(blk: string, runs: seq<string>, valid: bool)
    ensures "block_name=" + QueryEscape(blk) + RunNumArgs(runs) + (if valid then ValidFlag else "")
         == Join(BlockPieces(blk, runs, valid), "&")
  {
    FlagQueryJoin("block_name=" + QueryEscape(blk), runs, valid);
  }

  lemma BlockPiecesLackAmp(blk: string, runs: seq<string>, valid: bool)
    requires forall k :: 0 <= k < |runs| ==> PlainRun(runs[k])
    ensures forall k :: 0 <= k < |BlockPieces(blk, runs, valid)| ==> '&' !in BlockPieces(blk, runs, valid)[k]
  {
    var pieces := BlockPieces(blk, runs, valid);
    EscapedLacksDelimiters(blk);
    RunPiecesAt(runs);
    forall k | 0 <= k < |pieces| ensures '&' !in pieces[k] {
      if k == 0 {
        assert pieces[0] == "block_name=" + QueryEscape(blk);
      } else if k <= |runs| {
        assert pieces[k] == "run_num=" + runs[k - 1];
        assert PlainRun(runs[k - 1]);
      } else {
        assert pieces[k] == "validFileOnly=1";
      }
    }
  }

  lemma BlockUrlSplits(inst: string, api: string, blk: string, runs: seq<string>, valid: bool)
    requires '?' !in inst && '?' !in api
    requires forall k :: 0 <= k < |runs| ==> PlainRun(runs[k])
    ensures Split(RawQuery(BlockUrl(inst, api, blk, RunNumArgs(runs), valid)), "&") == BlockPieces(blk, runs, valid)
  {
    BlockUrlRawQuery(inst, api, blk, RunNumArgs(runs), valid);
    BlockQueryJoin(blk, runs, valid);
    BlockPiecesLackAmp(blk, runs, valid);
    JoinSplit(BlockPieces(blk, runs, valid), '&');
  }

  function FlagPairs(valid: bool): seq<(string, string)> {
    if valid then [("validFileOnly", "1")] else []
  }

  /** The pairs net/url reads from a block URL's query. */
  function BlockPairs(blk: string, runs: seq<string>, valid: bool): seq<(string, string)> {
    [("block_name", blk)] + RunPairs(runs) + FlagPairs(valid)
  }

  lemma BlockPieceParse(blk: string)
    requires IsBytes(blk)
    ensures ParsePairs(["block_name=" + QueryEscape(blk)]) == [("block_name", blk)]
  {
    EscapedLacksDelimiters(blk);
    EscapeRoundTrip(blk);
    BlockValueParse(QueryEscape(blk), blk);
  }

  /** A block_name piece parses to the value its text unescapes to. */
  lemma BlockValueParse(v: string, blk: string)
    requires ';' !in v && QueryUnescape(v) == Some(blk)
    ensures ParsePairs(["block_name=" + v]) == [("block_name", blk)]
  {
    ParseSingle("block_name", v);
    assert "block_name" + "=" + v == "block_name=" + v;
  }

  lemma FlagPieceParse(valid: bool)
    ensures ParsePairs(if valid then ["validFileOnly=1"] else []) == FlagPairs(valid)
  {
    if valid {
      UnescapePlain("1");
      ParseSingle("validFileOnly", "1");
      assert "validFileOnly" + "=" + "1" == "validFileOnly=1";
    }
  }

  lemma BlockPiecesParse(blk: string, runs: seq<string>, valid: bool)
    requires IsBytes(blk)
    requires forall k :: 0 <= k < |runs| ==> PlainRun(runs[k])
    ensures ParsePairs(BlockPieces(blk, runs, valid)) == BlockPairs(blk, runs, valid)
  {
    var first := ["block_name=" + QueryEscape(blk)];
    var flag: seq<string> := if valid then ["validFileOnly=1"] else [];
    BlockPieceParse(blk);
    FlagPieceParse(valid);
    RunPiecesParse(runs);
    ParsePairsConcat(first, RunPieces(runs));
    ParsePairsConcat(first + RunPieces(runs), flag);
    assert BlockPieces(blk, runs, valid) == first + RunPieces(runs) + flag;
  }

  lemma BlockPairsValues(blk: string, runs: seq<string>, valid: bool, key: string)
    ensures ValuesOf(BlockPairs(blk, runs, valid), key)
         == (if key == "block_name" then [blk] else [])
          + (if key == "run_num" then runs else [])
          + (if key == "validFileOnly" && valid then ["1"] else [])
  {
    var head := [("block_name", blk)];
    ValuesOfConcat(head + RunPairs(runs), FlagPairs(valid), key);
    ValuesOfConcat(head, RunPairs(runs), key);
    RunPairsValues(runs, key);
    assert head[1..] == [];
    if valid {
      assert FlagPairs(valid)[1..] == [];
    }
  }

  /** Reading a block URL's query back with net/url gives the block name
      (QueryEscape is inverted), the run values and the validFileOnly flag
      dbs_urls put in, provided the run values hold no query delimiter or
      escape character. */
  lemma BlockUrlQuery(inst: string, api: string, blk: string, runs: seq<string>, valid: bool)
    requires '?' !in inst && '?' !in api
    requires IsBytes(blk)
    requires forall k :: 0 <= k < |runs| ==> PlainRun(runs[k])
    ensures var url := BlockUrl(inst, api, blk, RunNumArgs(runs), valid);
      && QueryValues(url, "block_name") == [blk]
      && QueryValues(url, "run_num") == runs
      && QueryValues(url, "validFileOnly") == (if valid then ["1"] else [])
      && QueryGet(url, "block_name") == blk
  {
    BlockUrlSplits(inst, api, blk, runs, valid);
    BlockPiecesParse(blk, runs, valid);
    BlockPairsValues(blk, runs, valid, "block_name");
    BlockPairsValues(blk, runs, valid, "run_num");
    BlockPairsValues(blk, runs, valid, "validFileOnly");
  }

  /** Every URL dbs_urls plans names one block of the query, in block order,
      and reads back (through net/url) as that block, the query's runs and
      its validFileOnly flag. */
  lemma PlannedUrlsRead(q: DASQuery, api: string, load: Loader)
    requires PlannedUrls(q, api, load).Ok?
    requires '?' !in q.instance && '?' !in api
    requires forall k :: 0 <= k < |RunValues(q.spec).value| ==> PlainRun(RunValues(q.spec).value[k])
    requires forall k :: 0 <= k < |BlocksOf(q, load).value| ==> IsBytes(BlocksOf(q, load).value[k])
    ensures var urls := PlannedUrls(q, api, load).value;
      && |urls| == |BlocksOf(q, load).value|
      && forall k :: 0 <= k < |urls| ==>
           && QueryGet(urls[k], "block_name") == BlocksOf(q, load).value[k]
           && QueryValues(urls[k], "run_num") == RunValues(q.spec).value
           && QueryValues(urls[k], "validFileOnly") == (if FileStatus(q.spec).value then ["1"] else [])
  {
    var runs := RunValues(q.spec).value;
    var valid := FileStatus(q.spec).value;
    var blocks := BlocksOf(q, load).value;
    BlockUrlsAt(q.instance, api, blocks, RunNumArgs(runs), valid);
    forall k | 0 <= k < |blocks|
      ensures var url := BlockUrl(q.instance, api, blocks[k], RunNumArgs(runs), valid);
        && QueryGet(url, "block_name") == blocks[k]
        && QueryValues(url, "run_num") == runs
        && QueryValues(url, "validFileOnly") == (if valid then ["1"] else [])
    {
      BlockUrlQuery(q.instance, api, blocks[k], runs, valid);
    }
  }
}
