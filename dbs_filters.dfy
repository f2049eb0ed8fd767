/** The two local DBS3 APIs of services/dbs.go that filter what another DBS
    call returned: the files holding one lumi section
    (L_dbs3_file4dataset_run_lumi) and the blocks of one data tier created
    between two dates (L_dbs3_blocks4tier_dates). */
module DbsFilters {
  import opened Wrappers
  import opened GoStrings
  import opened Records
  import opened DbsUnmarshal
  import opened HelpersPlan
  import opened HelpersShape
  import opened HelpersSite
  import opened Dedups
  import opened DbsLocal

  // ---------------------------------------------------------------------
  // file4dataset_run_lumi

  /** strconv.ParseFloat(spec["lumi"], 64) with its error discarded: the
      number the text spells, or 0 when it spells none. */
  function LumiOf(text: string): (n: int)
    ensures ParseDecimal(text).Some? ==> n == ParseDecimal(text).value
    ensures ParseDecimal(text).None? ==> n == 0
  {
    match ParseDecimal(text)
    case Some(n) => n
    case None => 0
  }

  /** The decimal text of a lumi number reads back as that number. */
  lemma LumiOfDecimal(n: int)
    ensures LumiOf(DecimalString(n)) == n
  {
    DecimalRoundTrip(n);
  }

  /** The keys L_dbs3_file4dataset_run_lumi passes to file_run_lumi. */
  const LumiKeys := ["logical_file_name", "lumi_section_num"]

  /** The records each element contributes, appended in order; the first
      panic ends the walk. */
  function ConcatMap<T>(xs: seq<T>, f: T -> Outcome<seq<Record>>): Outcome<seq<Record>> {
    if |xs| == 0 then Ok([])
    else match ConcatMap(xs[..|xs| - 1], f)
      case Panic(why) => Panic(why)
      case Ok(acc) =>
        match f(xs[|xs| - 1])
        case Panic(why) => Panic(why)
        case Ok(more) => Ok(acc + more)
  }

  /** A prefix that panics makes the whole walk panic the same way. */
  lemma {:induction false} ConcatMapPrefix<T>(xs: seq<T>, n: nat, f: T -> Outcome<seq<Record>>)
    requires n <= |xs| && ConcatMap(xs[..n], f).Panic?
    ensures ConcatMap(xs, f) == ConcatMap(xs[..n], f)
    decreases |xs| - n
  {
    if n < |xs| {
      assert xs[..n + 1][..n] == xs[..n];
      ConcatMapPrefix(xs, n + 1, f);
    } else {
      assert xs[..n] == xs;
    }
  }

  /** The innermost test: `lumi == val.(float64)`, keeping {file} on a hit. */
  function ValHit(lumi: int, file: Value, v: Value): Outcome<seq<Record>> {
    match v
    case Float(x) => Ok(if x == lumi then [map["file" := file]] else [])
    case _ => Panic(ConversionPanic)
  }

  function ValHitOf(lumi: int, file: Value): Value -> Outcome<seq<Record>> {
    v => ValHit(lumi, file, v)
  }

  /** One lumi row: `row["number"].([]interface{})`, then every value. */
  function RowHit(lumi: int, file: Value, row: Record): Outcome<seq<Record>> {
    match Get(row, "number")
    case List(vs) => ConcatMap(vs, ValHitOf(lumi, file))
    case _ => Panic(ConversionPanic)
  }

  function RowHitOf(lumi: int, file: Value): Record -> Outcome<seq<Record>> {
    row => RowHit(lumi, file, row)
  }

  /** One file_run_lumi record: `rec["lumi"].([]mongo.DASRecord)`, then every
      row, each hit naming the record's file. */
  function RecHit(lumi: int, rec: Record): Outcome<seq<Record>> {
    match Get(rec, "lumi")
    case RecList(rows) => ConcatMap(rows, RowHitOf(lumi, Get(rec, "file")))
    case _ => Panic(ConversionPanic)
  }

  function RecHitOf(lumi: int): Record -> Outcome<seq<Record>> {
    rec => RecHit(lumi, rec)
  }

  /** L_dbs3_file4dataset_run_lumi over the filelumis records: the query's
      lumi must be a string; file_run_lumi shapes the records by file and
      lumi, and every value equal to the lumi yields one {file} record. */
  function File4DatasetRunLumiOf(q: DASQuery, filelumis: seq<Record>): Outcome<seq<Record>> {
    match Get(q.spec, "lumi")
    case Str(text) => ConcatMap(MapRecords(filelumis, RowFor(LumiKeys)), RecHitOf(LumiOf(text)))
    case _ => Panic(ConversionPanic)
  }

  /** The loop over the values of one lumi row. */
  method ValLoop(lumi: int, file: Value, vals: seq<Value>) returns (out: Outcome<seq<Record>>)
    ensures out == ConcatMap(vals, ValHitOf(lumi, file))
  {
    var hits: seq<Record> := [];
    for i := 0 to |vals|
      invariant ConcatMap(vals[..i], ValHitOf(lumi, file)) == Ok(hits)
    {
      assert vals[..i + 1][..i] == vals[..i];
      var val := vals[i];
      if !val.Float? {
        ConcatMapPrefix(vals, i + 1, ValHitOf(lumi, file));
        return Panic(ConversionPanic);
      }
      if lumi == val.f {
        hits := hits + [map["file" := file]];
      } else {
        assert hits + [] == hits;
      }
    }
    assert vals[..|vals|] == vals;
    out := Ok(hits);
  }

  /** The loop over the lumi rows of one record. */
  method LumiRowsLoop(lumi: int, file: Value, rows: seq<Record>) returns (out: Outcome<seq<Record>>)
    ensures out == ConcatMap(rows, RowHitOf(lumi, file))
  {
    var hits: seq<Record> := [];
    for i := 0 to |rows|
      invariant ConcatMap(rows[..i], RowHitOf(lumi, file)) == Ok(hits)
    {
      assert rows[..i + 1][..i] == rows[..i];
      var lumis := Get(rows[i], "number");
      if !lumis.List? {
        ConcatMapPrefix(rows, i + 1, RowHitOf(lumi, file));
        return Panic(ConversionPanic);
      }
      var more := ValLoop(lumi, file, lumis.items);
      if more.Panic? {
        ConcatMapPrefix(rows, i + 1, RowHitOf(lumi, file));
        return more;
      }
      hits := hits + more.value;
    }
    assert rows[..|rows|] == rows;
    out := Ok(hits);
  }

  /** L_dbs3_file4dataset_run_lumi, given the records processUrls returned for
      the filelumis URLs. */
  method File4DatasetRunLumi(q: DASQuery, filelumis: seq<Record>) returns (out: Outcome<seq<Record>>)
    ensures out == File4DatasetRunLumiOf(q, filelumis)
  {
    var text := Get(q.spec, "lumi");
    if !text.Str? {
      return Panic(ConversionPanic);
    }
    var lumi := LumiOf(text.s);
    var keys := LumiKeys;
    assert !Groups(keys);
    var shaped := FileRunLumi(filelumis, keys);
    var records := shaped.value;
    var hits: seq<Record> := [];
    for i := 0 to |records|
      invariant ConcatMap(records[..i], RecHitOf(lumi)) == Ok(hits)
    {
      assert records[..i + 1][..i] == records[..i];
      var rec := records[i];
      var rows := Get(rec, "lumi");
      if !rows.RecList? {
        ConcatMapPrefix(records, i + 1, RecHitOf(lumi));
        return Panic(ConversionPanic);
      }
      var more := LumiRowsLoop(lumi, Get(rec, "file"), rows.recs);
      if more.Panic? {
        ConcatMapPrefix(records, i + 1, RecHitOf(lumi));
        return more;
      }
      hits := hits + more.value;
    }
    assert records[..|records|] == records;
    out := Ok(hits);
  }

  // ---------------------------------------------------------------------
  // What file4dataset_run_lumi answers

  /** How often n occurs in ns. */
  function Count(n: int, ns: seq<int>): nat {
    if |ns| == 0 then 0
    else Count(n, ns[..|ns| - 1]) + (if ns[|ns| - 1] == n then 1 else 0)
  }

  function Repeat(r: Record, n: nat): (rs: seq<Record>)
    ensures |rs| == n && forall k :: 0 <= k < n ==> rs[k] == r
  {
    if n == 0 then [] else Repeat(r, n - 1) + [r]
  }

  /** The lumi numbers a filelumis record lists, or none when its
      lumi_section_num is not a list of numbers. */
  function NumbersOf(v: Value): seq<int> {
    if v.List? && FloatsOf(v.items).Some? then FloatsOf(v.items).value else []
  }

  /** Every filelumis record lists its lumis as numbers. */
  predicate NumericLumis(filelumis: seq<Record>) {
    forall i :: 0 <= i < |filelumis| ==>
      var v := Get(filelumis[i], "lumi_section_num");
      v.List? && FloatsOf(v.items).Some?
  }

  /** The {file: [{name}]} record of a filelumis record. */
  function FileRecord(rec: Record): Record {
    map["file" := Wrapped("name", Get(rec, "logical_file_name"))]
  }

  /** The reference answer: each file once per occurrence of the lumi in its
      lumi list, in the order of the filelumis records. */
  function FilesWithLumi(filelumis: seq<Record>, lumi: int): seq<Record> {
    if |filelumis| == 0 then []
    else
      var last := filelumis[|filelumis| - 1];
      FilesWithLumi(filelumis[..|filelumis| - 1], lumi)
        + Repeat(FileRecord(last), Count(lumi, NumbersOf(Get(last, "lumi_section_num"))))
  }

  /** Count is positive exactly when n occurs. */
  lemma {:induction false} CountPositive(n: int, ns: seq<int>)
    ensures Count(n, ns) > 0 <==> n in ns
  {
    if |ns| > 0 {
      var pre := ns[..|ns| - 1];
      CountPositive(n, pre);
      assert ns == pre + [ns[|ns| - 1]];
    }
  }

  /** Over a list of numbers, the value loop keeps the file once per
      occurrence of the lumi. */
  lemma {:induction false} ValHitsCount(lumi: int, file: Value, vs: seq<Value>)
    requires forall k :: 0 <= k < |vs| ==> vs[k].Float?
    ensures FloatsOf(vs).Some?
    ensures ConcatMap(vs, ValHitOf(lumi, file)) == Ok(Repeat(map["file" := file], Count(lumi, FloatsOf(vs).value)))
  {
    if |vs| > 0 {
      var pre := vs[..|vs| - 1];
      ValHitsCount(lumi, file, pre);
      var ns := FloatsOf(vs).value;
      assert ns[..|ns| - 1] == FloatsOf(pre).value;
      var r := map["file" := file];
      var c := Count(lumi, FloatsOf(pre).value);
      if vs[|vs| - 1].f == lumi {
        assert Repeat(r, c + 1) == Repeat(r, c) + [r];
      } else {
        assert Repeat(r, c) + [] == Repeat(r, c);
      }
    }
  }

  /** A value that is not a number makes the value loop panic. */
  lemma ValHitsPanic(lumi: int, file: Value, vs: seq<Value>, k: nat)
    requires k < |vs| && !vs[k].Float?
    ensures ConcatMap(vs, ValHitOf(lumi, file)).Panic?
  {
    assert vs[..k + 1][..k] == vs[..k];
    ConcatMapPrefix(vs, k + 1, ValHitOf(lumi, file));
  }

  /** The shaped record of a filelumis record with numeric lumis yields its
      file once per occurrence of the lumi. */
  lemma RecHitCount(lumi: int, rec: Record)
    requires Get(rec, "lumi_section_num").List? && FloatsOf(Get(rec, "lumi_section_num").items).Some?
    ensures RecHit(lumi, RowOf(rec, LumiKeys)) ==
      Ok(Repeat(FileRecord(rec), Count(lumi, NumbersOf(Get(rec, "lumi_section_num")))))
  {
    DispatchShapes("file_lumi4dataset", rec);
    var v := Get(rec, "lumi_section_num");
    var file := Wrapped("name", Get(rec, "logical_file_name"));
    var row := map["number" := v];
    ValHitsCount(lumi, file, v.items);
    var shaped := RowOf(rec, LumiKeys);
    assert shaped == map["file" := file, "lumi" := Wrapped("number", v)];
    assert Get(shaped, "lumi") == RecList([row]) && Get(shaped, "file") == file;
    assert [row][..0] == [];
    var hits := Repeat(map["file" := file], Count(lumi, NumbersOf(v)));
    assert RowHit(lumi, file, row) == Ok(hits);
    assert ConcatMap([row], RowHitOf(lumi, file)) == Ok([] + hits);
    assert [] + hits == hits;
    assert map["file" := file] == FileRecord(rec);
  }

  /** The shaped record of a filelumis record whose lumis are not a list of
      numbers makes the filter panic. */
  lemma RecHitPanics(lumi: int, rec: Record)
    requires !(Get(rec, "lumi_section_num").List? && FloatsOf(Get(rec, "lumi_section_num").items).Some?)
    ensures RecHit(lumi, RowOf(rec, LumiKeys)).Panic?
  {
    DispatchShapes("file_lumi4dataset", rec);
    var v := Get(rec, "lumi_section_num");
    var file := Wrapped("name", Get(rec, "logical_file_name"));
    var row := map["number" := v];
    assert [row][..0] == [];
    if v.List? {
      var k :| 0 <= k < |v.items| && !v.items[k].Float?;
      ValHitsPanic(lumi, file, v.items, k);
    }
  }

  /** Over numeric filelumis records the filter answers the reference. */
  lemma {:induction false} FilterIsFilesWithLumi(filelumis: seq<Record>, lumi: int)
    requires NumericLumis(filelumis)
    ensures ConcatMap(MapRecords(filelumis, RowFor(LumiKeys)), RecHitOf(lumi)) == Ok(FilesWithLumi(filelumis, lumi))
  {
    if |filelumis| > 0 {
      var pre := filelumis[..|filelumis| - 1];
      var last := filelumis[|filelumis| - 1];
      assert forall i :: 0 <= i < |pre| ==> pre[i] == filelumis[i];
      FilterIsFilesWithLumi(pre, lumi);
      var shaped := MapRecords(filelumis, RowFor(LumiKeys));
      assert shaped[..|shaped| - 1] == MapRecords(pre, RowFor(LumiKeys));
      assert Get(last, "lumi_section_num") == Get(filelumis[|filelumis| - 1], "lumi_section_num");
      RecHitCount(lumi, last);
    }
  }

  /** A filelumis record whose lumis are not a list of numbers makes the
      filter panic. */
  lemma FilterPanics(filelumis: seq<Record>, lumi: int, i: nat)
    requires i < |filelumis|
    requires !(Get(filelumis[i], "lumi_section_num").List? && FloatsOf(Get(filelumis[i], "lumi_section_num").items).Some?)
    ensures ConcatMap(MapRecords(filelumis, RowFor(LumiKeys)), RecHitOf(lumi)).Panic?
  {
    var shaped := MapRecords(filelumis, RowFor(LumiKeys));
    MapRecordsPrefix(filelumis, i + 1, RowFor(LumiKeys));
    LastPanics(filelumis[..i + 1], lumi);
    ConcatMapPrefix(shaped, i + 1, RecHitOf(lumi));
  }

  lemma LastPanics(upto: seq<Record>, lumi: int)
    requires |upto| > 0
    requires var v := Get(upto[|upto| - 1], "lumi_section_num"); !(v.List? && FloatsOf(v.items).Some?)
    ensures ConcatMap(MapRecords(upto, RowFor(LumiKeys)), RecHitOf(lumi)).Panic?
  {
    var n := |upto| - 1;
    RecHitPanics(lumi, upto[n]);
    ConcatMapSnocPanics(MapRecords(upto[..n], RowFor(LumiKeys)), RowOf(upto[n], LumiKeys), RecHitOf(lumi));
  }

  lemma ConcatMapSnocPanics<T>(xs: seq<T>, y: T, f: T -> Outcome<seq<Record>>)
    requires f(y).Panic?
    ensures ConcatMap(xs + [y], f).Panic?
  {
    assert (xs + [y])[..|xs|] == xs;
  }

  lemma {:induction false} MapRecordsPrefix(records: seq<Record>, n: nat, f: Record -> Record)
    requires n <= |records|
    ensures n <= |MapRecords(records, f)| && MapRecords(records, f)[..n] == MapRecords(records[..n], f)
    decreases |records|
  {
    MapRecordsAt(records, f);
    if n < |records| {
      var pre := records[..|records| - 1];
      MapRecordsAt(pre, f);
      MapRecordsPrefix(pre, n, f);
      assert pre[..n] == records[..n];
    } else {
      assert records[..n] == records;
    }
  }

  /** The reference holds exactly the files that list the lumi. */
  lemma {:induction false} FilesWithLumiMembers(filelumis: seq<Record>, lumi: int)
    ensures forall r :: r in FilesWithLumi(filelumis, lumi) <==>
      exists i :: 0 <= i < |filelumis| && r == FileRecord(filelumis[i])
                  && lumi in NumbersOf(Get(filelumis[i], "lumi_section_num"))
  {
    if |filelumis| > 0 {
      var pre := filelumis[..|filelumis| - 1];
      var last := filelumis[|filelumis| - 1];
      FilesWithLumiMembers(pre, lumi);
      CountPositive(lumi, NumbersOf(Get(last, "lumi_section_num")));
      assert forall i :: 0 <= i < |pre| ==> pre[i] == filelumis[i];
      forall r
        ensures r in FilesWithLumi(filelumis, lumi) <==>
          exists i :: 0 <= i < |filelumis| && r == FileRecord(filelumis[i])
                      && lumi in NumbersOf(Get(filelumis[i], "lumi_section_num"))
      {
        var reps := Repeat(FileRecord(last), Count(lumi, NumbersOf(Get(last, "lumi_section_num"))));
        assert r in reps <==> r == FileRecord(last) && |reps| > 0 by {
          if r in reps {
            var k :| 0 <= k < |reps| && reps[k] == r;
          }
          if r == FileRecord(last) && |reps| > 0 {
            assert reps[0] == r;
          }
        }
        if r in FilesWithLumi(filelumis, lumi) && r !in FilesWithLumi(pre, lumi) {
          assert r in reps;
          var i := |filelumis| - 1;
          assert filelumis[i] == last;
        }
      }
    }
  }

  /** The whole query: a lumi given as decimal text and numeric filelumis
      records give the files listing that lumi, each once per listing; a
      lumi that is not a string panics. */
  lemma File4DatasetRunLumiCases(q: DASQuery, filelumis: seq<Record>, n: int)
    ensures !Get(q.spec, "lumi").Str? ==> File4DatasetRunLumiOf(q, filelumis) == Panic(ConversionPanic)
    ensures Get(q.spec, "lumi") == Str(DecimalString(n)) && NumericLumis(filelumis) ==>
      File4DatasetRunLumiOf(q, filelumis) == Ok(FilesWithLumi(filelumis, n))
  {
    DecimalRoundTrip(n);
    if NumericLumis(filelumis) {
      FilterIsFilesWithLumi(filelumis, n);
    }
  }

  // ---------------------------------------------------------------------
  // blocks4tier_dates

  /** The tier of a block: the fourth '/'-separated part of its dataset
      (the text before '#'), or an index panic when there are fewer. */
  function TierOf(blk: string): Outcome<string> {
    var parts := Split(DatasetOfBlock(blk), "/");
    if |parts| < 4 then Panic(IndexPanic) else Ok(parts[3])
  }

  /** The blocks of the records whose tier is `tier`, repeats included; a
      record without a string block_name, or with a short dataset, panics. */
  function TierMatches(records: seq<Record>, tier: string): Outcome<seq<string>> {
    if |records| == 0 then Ok([])
    else match TierMatches(records[..|records| - 1], tier)
      case Panic(why) => Panic(why)
      case Ok(blocks) =>
        match Get(records[|records| - 1], "block_name")
        case Str(blk) =>
          (match TierOf(blk)
           case Panic(why) => Panic(why)
           case Ok(t) => Ok(if t == tier then blocks + [blk] else blocks))
        case _ => Panic(ConversionPanic)
  }

  /** The blocks URL: tier and the two dates as Unix seconds. */
  function TierUrl(inst: string, tier: string, mind: int, maxd: int): string {
    DbsUrl(inst) + "/blocks?data_tier_name=" + tier + "&min_cdate=" + DecimalString(mind)
      + "&max_cdate=" + DecimalString(maxd)
  }

  /** L_dbs3_blocks4tier_dates: the tier must be a string and the dates a
      []string of at least two; `unixTime` is utils.UnixTime (not part of
      this model). The answer is one {block: [{name}]} per distinct block of
      the tier, first seen first. */
  function Blocks4TierDatesOf(q: DASQuery, load: Loader, unixTime: string -> int): Outcome<seq<Record>> {
    match Get(q.spec, "tier")
    case Str(tier) =>
      (match Get(q.spec, "date")
       case StrList(dates) =>
         if |dates| < 2 then Panic(IndexPanic)
         else
           var furl := TierUrl(q.instance, tier, unixTime(dates[0]), unixTime(dates[1]));
           (match Unmarshal("blocks", load(furl))
            case Panic(why) => Panic(why)
            case Ok(records) =>
              match TierMatches(records, tier)
              case Panic(why) => Panic(why)
              case Ok(blocks) => Ok(NameRecords("block", Dedup(blocks))))
       case _ => Panic(ConversionPanic))
    case _ => Panic(ConversionPanic)
  }

  lemma {:induction false} TierMatchesPrefix(records: seq<Record>, n: nat, tier: string)
    requires n <= |records| && TierMatches(records[..n], tier).Panic?
    ensures TierMatches(records, tier) == TierMatches(records[..n], tier)
    decreases |records| - n
  {
    if n < |records| {
      assert records[..n + 1][..n] == records[..n];
      TierMatchesPrefix(records, n + 1, tier);
    } else {
      assert records[..n] == records;
    }
  }

  /** One record of the matching walk, when it names a block with a tier. */
  lemma TierStep(records: seq<Record>, i: nat, tier: string, matched: seq<string>)
    requires i < |records| && TierMatches(records[..i], tier) == Ok(matched)
    requires Get(records[i], "block_name").Str? && TierOf(Get(records[i], "block_name").s).Ok?
    ensures var blk := Get(records[i], "block_name").s;
      TierMatches(records[..i + 1], tier) == Ok(if TierOf(blk).value == tier then matched + [blk] else matched)
  {
    assert records[..i + 1][..i] == records[..i];
  }

  lemma DedupSnoc(xs: seq<string>, x: string)
    ensures Dedup(xs + [x]) == if x in Dedup(xs) then Dedup(xs) else Dedup(xs) + [x]
  {
    assert (xs + [x])[..|xs|] == xs;
  }

  method Blocks4TierDates(q: DASQuery, load: Loader, unixTime: string -> int) returns (out: Outcome<seq<Record>>)
    ensures out == Blocks4TierDatesOf(q, load, unixTime)
  {
    var tierValue := Get(q.spec, "tier");
    if !tierValue.Str? {
      return Panic(ConversionPanic);
    }
    var tier := tierValue.s;
    var dateValue := Get(q.spec, "date");
    if !dateValue.StrList? {
      return Panic(ConversionPanic);
    }
    var dates := dateValue.strs;
    if |dates| < 2 {
      return Panic(IndexPanic);
    }
    var mind := unixTime(dates[0]);
    var maxd := unixTime(dates[1]);
    var furl := DbsUrl(q.instance) + "/blocks?data_tier_name=" + tier + "&min_cdate=" + DecimalString(mind)
      + "&max_cdate=" + DecimalString(maxd);
    var decoded := Unmarshal("blocks", load(furl));
    if decoded.Panic? {
      return Panic(decoded.reason);
    }
    var records := decoded.value;
    var blocks: seq<string> := [];
    ghost var matched: seq<string> := [];
    for i := 0 to |records|
      invariant TierMatches(records[..i], tier) == Ok(matched)
      invariant blocks == Dedup(matched)
    {
      assert records[..i + 1][..i] == records[..i];
      var blkValue := Get(records[i], "block_name");
      if !blkValue.Str? {
        TierMatchesPrefix(records, i + 1, tier);
        return Panic(ConversionPanic);
      }
      var blk := blkValue.s;
      var dataset := Split(blk, "#")[0];
      var parts := Split(dataset, "/");
      if |parts| < 4 {
        TierMatchesPrefix(records, i + 1, tier);
        return Panic(IndexPanic);
      }
      var tierName := parts[3];
      TierStep(records, i, tier, matched);
      if tierName == tier {
        DedupSnoc(matched, blk);
        matched := matched + [blk];
        if blk !in blocks {
          blocks := blocks + [blk];
        }
      }
    }
    assert records[..|records|] == records;
    out := NameRecordsLoop(blocks);
  }

  /** The loop that wraps each block as {block: [{name}]}. */
  method NameRecordsLoop(blocks: seq<string>) returns (out: Outcome<seq<Record>>)
    ensures out == Ok(NameRecords("block", blocks))
  {
    var recs: seq<Record> := [];
    for i := 0 to |blocks|
      invariant recs == NameRecords("block", blocks[..i])
    {
      assert blocks[..i + 1][..i] == blocks[..i];
      var row: Record := map["name" := Str(blocks[i])];
      var rec: Record := map["block" := RecList([row])];
      recs := recs + [rec];
    }
    assert blocks[..|blocks|] == blocks;
    out := Ok(recs);
  }

  // ---------------------------------------------------------------------
  // What blocks4tier_dates answers

  /** Every record names a block whose dataset has at least four
      '/'-separated parts. */
  predicate WellFormedBlocks(records: seq<Record>) {
    forall i :: 0 <= i < |records| ==>
      Get(records[i], "block_name").Str? && TierOf(Get(records[i], "block_name").s).Ok?
  }

  /** The matching walk succeeds exactly over well-formed records. */
  lemma {:induction false} TierMatchesOk(records: seq<Record>, tier: string)
    ensures TierMatches(records, tier).Ok? <==> WellFormedBlocks(records)
  {
    if |records| > 0 {
      var pre := records[..|records| - 1];
      TierMatchesOk(pre, tier);
      assert forall i :: 0 <= i < |pre| ==> pre[i] == records[i];
      if !WellFormedBlocks(pre) {
        var i :| 0 <= i < |pre| && !(Get(pre[i], "block_name").Str? && TierOf(Get(pre[i], "block_name").s).Ok?);
        assert records[i] == pre[i];
      }
    }
  }

  /** Over well-formed records the walk holds exactly the blocks of the
      tier. */
  lemma {:induction false} TierMatchesMembers(records: seq<Record>, tier: string)
    requires WellFormedBlocks(records)
    ensures TierMatches(records, tier).Ok?
    ensures forall x :: x in TierMatches(records, tier).value <==> OfTier(records, tier, x)
  {
    TierMatchesOk(records, tier);
    if |records| > 0 {
      var n := |records| - 1;
      var pre := records[..n];
      assert forall i :: 0 <= i < |pre| ==> pre[i] == records[i];
      TierMatchesMembers(pre, tier);
      TierStep(records, n, tier, TierMatches(pre, tier).value);
      assert records[..n + 1] == records;
      OfTierSnoc(records, tier);
    }
  }

  lemma OfTierSnoc(records: seq<Record>, tier: string)
    requires |records| > 0
    ensures forall x :: OfTier(records, tier, x) <==>
      OfTier(records[..|records| - 1], tier, x)
      || (Get(records[|records| - 1], "block_name") == Str(x) && TierOf(x) == Ok(tier))
  {
    var n := |records| - 1;
    var pre := records[..n];
    forall x
      ensures OfTier(records, tier, x) <==> OfTier(pre, tier, x) || (Get(records[n], "block_name") == Str(x) && TierOf(x) == Ok(tier))
    {
      if OfTier(records, tier, x) {
        var i :| 0 <= i < |records| && Get(records[i], "block_name") == Str(x) && TierOf(x) == Ok(tier);
        if i < n {
          assert pre[i] == records[i];
        }
      }
      if OfTier(pre, tier, x) {
        var i :| 0 <= i < |pre| && Get(pre[i], "block_name") == Str(x) && TierOf(x) == Ok(tier);
        assert pre[i] == records[i];
      }
    }
  }

  /** Some record names the block x, and x is of the tier. */
  ghost predicate OfTier(records: seq<Record>, tier: string, x: string) {
    exists i :: 0 <= i < |records| && Get(records[i], "block_name") == Str(x) && TierOf(x) == Ok(tier)
  }

  /** names lists distinct elements of xs in the order of their first
      occurrence there. */
  predicate FirstSeenOrder(names: seq<string>, xs: seq<string>) {
    && NoRepeats(names)
    && (forall x :: x in names ==> x in xs)
    && (forall i, j :: 0 <= i < j < |names| ==> FirstIndex(xs, names[i]) < FirstIndex(xs, names[j]))
  }

  /** What the answer names for well-formed records: distinct blocks, first
      seen first, each a block of the tier, and every block of the tier. */
  ghost predicate TierAnswer(records: seq<Record>, tier: string, names: seq<string>) {
    && TierMatches(records, tier).Ok?
    && FirstSeenOrder(names, TierMatches(records, tier).value)
    && (forall x :: x in names <==> OfTier(records, tier, x))
  }

  lemma TierAnswerHolds(records: seq<Record>, tier: string)
    requires WellFormedBlocks(records)
    ensures TierMatches(records, tier).Ok?
    ensures TierAnswer(records, tier, Dedup(TierMatches(records, tier).value))
  {
    TierMatchesMembers(records, tier);
    var matched := TierMatches(records, tier).value;
    DedupSet(matched);
    DedupFirstSeen(matched);
  }

  /** The panics of the type assertions and of the missing second date. */
  lemma Blocks4TierDatesPanics(q: DASQuery, load: Loader, unixTime: string -> int)
    ensures !Get(q.spec, "tier").Str? ==> Blocks4TierDatesOf(q, load, unixTime) == Panic(ConversionPanic)
    ensures Get(q.spec, "tier").Str? && !Get(q.spec, "date").StrList? ==>
      Blocks4TierDatesOf(q, load, unixTime) == Panic(ConversionPanic)
    ensures Get(q.spec, "tier").Str? && Get(q.spec, "date").StrList? && |Get(q.spec, "date").strs| < 2 ==>
      Blocks4TierDatesOf(q, load, unixTime) == Panic(IndexPanic)
  {
  }

  /** The answer when the tier and the dates are present and every block
      record the blocks API returns is well formed: one record per distinct
      block of the tier, first seen first. */
  lemma Blocks4TierDatesAnswer(q: DASQuery, load: Loader, unixTime: string -> int, tier: string, dates: seq<string>)
    requires Get(q.spec, "tier") == Str(tier) && Get(q.spec, "date") == StrList(dates) && |dates| >= 2
    requires load(TierUrl(q.instance, tier, unixTime(dates[0]), unixTime(dates[1]))).Ok?
    requires WellFormedBlocks(load(TierUrl(q.instance, tier, unixTime(dates[0]), unixTime(dates[1]))).value)
    ensures exists names: seq<string> ::
      Blocks4TierDatesOf(q, load, unixTime) == Ok(NameRecords("block", names))
      && TierAnswer(load(TierUrl(q.instance, tier, unixTime(dates[0]), unixTime(dates[1]))).value, tier, names)
  {
    var records := load(TierUrl(q.instance, tier, unixTime(dates[0]), unixTime(dates[1]))).value;
    TierAnswerHolds(records, tier);
    var names := Dedup(TierMatches(records, tier).value);
    assert Blocks4TierDatesOf(q, load, unixTime) == Ok(NameRecords("block", names));
  }

  lemma Assoc(a: string, b: string, c: string)
    ensures a + b + c == a + (b + c)
  {
  }

  /** A block of the usual /primary/processed/tier#uuid form has the tier its
      dataset names. */
  lemma TierOfDataset(p: string, s: string, t: string, x: string)
    requires '/' !in p && '/' !in s && '/' !in t
    requires '#' !in p && '#' !in s && '#' !in t
    ensures TierOf("/" + p + "/" + s + "/" + t + "#" + x) == Ok(t)
  {
    var st := s + "/" + t;
    var pst := p + "/" + st;
    var d := "/" + p + "/" + s + "/" + t;
    Assoc("/" + p + "/" + s, "/", t);
    Assoc("/" + p + "/", s, "/" + t);
    Assoc(s, "/", t);
    Assoc("/" + p, "/", st);
    Assoc("/", p, "/" + st);
    Assoc(p, "/", st);
    assert d == "/" + pst;
    assert '#' !in "/";
    ConcatLacks(s, "/", '#');
    ConcatLacks(s + "/", t, '#');
    ConcatLacks(p, "/", '#');
    ConcatLacks(p + "/", st, '#');
    ConcatLacks("/", pst, '#');
    DatasetOfBlockPrefix(d, x);
    assert "" + "/" + pst == "/" + pst;
    SplitAfterChar("", '/', pst);
    SplitAfterChar(p, '/', st);
    SplitAfterChar(s, '/', t);
    SplitLacking(t, '/');
  }
}
