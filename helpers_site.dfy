/** dataset4release, phedexNode and dataset4site_release
    (services/helpers.go): datasets of a release from DBS, the PhEDEx node
    argument of a site, and the datasets hosted at a site, all de-duplicated
    in first-seen order. */
module HelpersSite {
  import opened Wrappers
  import opened GoStrings
  import opened Records
  import opened DbsUnmarshal
  import opened HelpersPlan
  import opened Dedups
  import opened Fetch
  import opened HelpersJoin

  // ---------------------------------------------------------------------
  // Shared shapes

  /** The dataset a block belongs to: its name up to the first '#'. */
  function DatasetOfBlock(block: string): string {
    Split(block, "#")[0]
  }

  lemma DatasetOfBlockPrefix(d: string, x: string)
    requires '#' !in d
    ensures DatasetOfBlock(d + "#" + x) == d
    ensures DatasetOfBlock(d) == d
  {
    SplitAfterChar(d, '#', x);
    SplitLacking(d, '#');
  }

  /** The one-row record {field: [{name: name}]}. */
  function NameRecord(field: string, name: string): Record {
    map[field := RecList([map["name" := Str(name)]])]
  }

  function NameRecords(field: string, names: seq<string>): (out: seq<Record>)
    ensures |out| == |names|
    ensures forall k :: 0 <= k < |names| ==> out[k] == NameRecord(field, names[k])
  {
    if |names| == 0 then []
    else NameRecords(field, names[..|names| - 1]) + [NameRecord(field, names[|names| - 1])]
  }

  /** The loop that wraps each name as {field: [{name}]}. */
  method WrapNames(field: string, names: seq<string>) returns (out: seq<Record>)
    ensures out == NameRecords(field, names)
  {
    out := [];
    for i := 0 to |names|
      invariant out == NameRecords(field, names[..i])
    {
      assert names[..i + 1][..i] == names[..i];
      out := out + [NameRecord(field, names[i])];
    }
    assert names[..|names|] == names;
  }

  // ---------------------------------------------------------------------
  // dataset4release

  /** A query argument appended when the spec value is present; a present
      value must be a string. */
  function WithArg(furl: Outcome<string>, v: Value, key: string): Outcome<string> {
    match furl
    case Panic(why) => Panic(why)
    case Ok(u) =>
      match v
      case Null => Ok(u)
      case Str(arg) => Ok(u + (key + arg))
      case _ => Panic(ConversionPanic)
  }

  /** The DBS datasets URL of a query: the release, then the parent and the
      status when given. */
  function DatasetsUrl(q: DASQuery): Outcome<string> {
    match Get(q.spec, "release")
    case Str(release) =>
      var furl := DbsUrl(q.instance) + "/datasets?release_version=" + release;
      WithArg(WithArg(Ok(furl), Get(q.spec, "parent"), "&parent_dataset="), Get(q.spec, "status"), "&dataset_access_type=")
    case _ => Panic(ConversionPanic)
  }

  /** The datasets of a query's release: the renamed `name` of every record
      DBS returns, de-duplicated. */
  function DatasetsOf(q: DASQuery, load: Loader): Outcome<seq<string>> {
    match DatasetsUrl(q)
    case Panic(why) => Panic(why)
    case Ok(furl) =>
      match Unmarshal("datasets", load(furl))
      case Panic(why) => Panic(why)
      case Ok(records) =>
        match NamesOf(records, "name")
        case Panic(why) => Panic(why)
        case Ok(names) => Ok(Dedup(names))
  }

  /** The first-seen de-duplication loop over the names in `records`. */
  method DedupNames(records: seq<Record>, field: string) returns (out: Outcome<seq<string>>)
    ensures NamesOf(records, field).Panic? ==> out == Panic(ConversionPanic)
    ensures NamesOf(records, field).Ok? ==> out == Ok(Dedup(NamesOf(records, field).value))
  {
    var names: seq<string> := [];
    ghost var all: seq<string> := [];
    for i := 0 to |records|
      invariant NamesOf(records[..i], field) == Ok(all)
      invariant names == Dedup(all)
    {
      assert records[..i + 1][..i] == records[..i];
      var name := Get(records[i], field);
      if !name.Str? {
        NamesOfAt(records, field);
        return Panic(ConversionPanic);
      }
      DedupStep(all + [name.s], |all|);
      assert (all + [name.s])[..|all|] == all;
      assert (all + [name.s])[..|all| + 1] == all + [name.s];
      if !(name.s in names) {
        names := names + [name.s];
      }
      all := all + [name.s];
    }
    assert records[..|records|] == records;
    out := Ok(names);
  }

  /** dataset4release */
  method Dataset4Release(q: DASQuery, load: Loader) returns (out: Outcome<seq<string>>)
    ensures out == DatasetsOf(q, load)
  {
    var release := Get(q.spec, "release");
    if !release.Str? {
      return Panic(ConversionPanic);
    }
    var api := "datasets";
    var furl := DbsUrl(q.instance) + "/" + api + "?release_version=" + release.s;
    assert furl == DbsUrl(q.instance) + "/datasets?release_version=" + release.s;
    ghost var url := WithArg(Ok(DbsUrl(q.instance) + "/datasets?release_version=" + release.s), Get(q.spec, "parent"), "&parent_dataset=");
    var parent := Get(q.spec, "parent");
    if !parent.Null? {
      if !parent.Str? {
        return Panic(ConversionPanic);
      }
      furl := furl + "&parent_dataset=" + parent.s;
      assert furl == DbsUrl(q.instance) + "/datasets?release_version=" + release.s + ("&parent_dataset=" + parent.s);
    }
    assert url == Ok(furl);
    var status := Get(q.spec, "status");
    if !status.Null? {
      if !status.Str? {
        return Panic(ConversionPanic);
      }
      furl := furl + "&dataset_access_type=" + status.s;
      assert furl == url.value + ("&dataset_access_type=" + status.s);
    }
    assert DatasetsUrl(q) == Ok(furl);
    var records := DBSUnmarshal(api, load(furl));
    if records.Panic? {
      return Panic(records.reason);
    }
    out := DedupNames(records.value, "name");
  }

  /** dataset4release lists, without repeats and in first-seen order, the
      `dataset` value of every record DBS returns for the release URL. */
  lemma DatasetsOfRelease(q: DASQuery, load: Loader)
    requires DatasetsUrl(q).Ok? && load(DatasetsUrl(q).value).Ok?
    requires var records := load(DatasetsUrl(q).value).value;
      forall k :: 0 <= k < |records| ==> Get(records[k], "dataset").Str?
    ensures var records := load(DatasetsUrl(q).value).value;
      && DatasetsOf(q, load).Ok?
      && NoRepeats(DatasetsOf(q, load).value)
      && (forall x :: x in DatasetsOf(q, load).value <==>
            exists k :: 0 <= k < |records| && Get(records[k], "dataset") == Str(x))
  {
    var records := load(DatasetsUrl(q).value).value;
    var renamed := Unmarshal("datasets", Ok(records)).value;
    MapRecordsAt(records, DatasetAsName);
    assert |renamed| == |records|;
    forall k | 0 <= k < |records|
      ensures Get(renamed[k], "name") == Get(records[k], "dataset")
    {
      RenamedApis("datasets", records, k);
    }
    NamesOfAt(renamed, "name");
    var names := NamesOf(renamed, "name").value;
    DedupSet(names);
    forall x ensures x in Dedup(names) <==> exists k :: 0 <= k < |records| && Get(records[k], "dataset") == Str(x) {
      if x in names {
        var k :| 0 <= k < |names| && names[k] == x;
        assert Get(records[k], "dataset") == Str(x);
      }
      if exists k :: 0 <= k < |records| && Get(records[k], "dataset") == Str(x) {
        var k :| 0 <= k < |records| && Get(records[k], "dataset") == Str(x);
        assert names[k] == x;
      }
    }
  }

  /** The URL of a query with any parent and status given as strings: the
      release, then each present argument in turn. */
  lemma DatasetsUrlShape(q: DASQuery)
    requires Get(q.spec, "release").Str?
    requires Get(q.spec, "parent").Null? || Get(q.spec, "parent").Str?
    requires Get(q.spec, "status").Null? || Get(q.spec, "status").Str?
    ensures DatasetsUrl(q).Ok?
    ensures DatasetsUrl(q).value ==
      DbsUrl(q.instance) + "/datasets?release_version=" + Get(q.spec, "release").s
      + (if Get(q.spec, "parent").Str? then "&parent_dataset=" + Get(q.spec, "parent").s else "")
      + (if Get(q.spec, "status").Str? then "&dataset_access_type=" + Get(q.spec, "status").s else "")
  {
    var base := DbsUrl(q.instance) + "/datasets?release_version=" + Get(q.spec, "release").s;
    var p := if Get(q.spec, "parent").Str? then "&parent_dataset=" + Get(q.spec, "parent").s else "";
    var st := if Get(q.spec, "status").Str? then "&dataset_access_type=" + Get(q.spec, "status").s else "";
    assert base + "" == base;
    assert base + p + "" == base + p;
    assert WithArg(Ok(base), Get(q.spec, "parent"), "&parent_dataset=") == Ok(base + p);
    assert WithArg(Ok(base + p), Get(q.spec, "status"), "&dataset_access_type=") == Ok(base + p + st);
  }

  // ---------------------------------------------------------------------
  // phedexNode

  predicate Upper(c: char) { 'A' <= c <= 'Z' }

  predicate Lower(c: char) { 'a' <= c <= 'z' }

  /** Every character of s in [from, to) is an upper-case letter. */
  predicate UpperRun(s: string, from: nat, to: nat) {
    forall i :: from <= i < to && i < |s| ==> Upper(s[i])
  }

  /** The site matches ^T[0-9]_[A-Z]+(_)[A-Z]+ (a prefix match): upper-case
      letters from index 3 up to an underscore at j, and one more after it. */
  predicate NodePattern(site: string) {
    && |site| >= 6 && site[0] == 'T' && IsDigit(site[1]) && site[2] == '_'
    && exists j :: 4 <= j < |site| - 1 && site[j] == '_' && UpperRun(site, 3, j) && UpperRun(site, j + 1, j + 2)
  }

  /** The site matches ^[a-z]+(\.)[a-z]+(\.) (a prefix match). */
  predicate SePattern(site: string) {
    exists j, k :: 0 < j && j + 1 < k < |site| && site[j] == '.' && site[k] == '.'
      && (forall i :: 0 <= i < j ==> Lower(site[i]))
      && (forall i :: j < i < k ==> Lower(site[i]))
  }

  const NodePrefix := "node="

  /** phedexNode: the PhEDEx node argument of a site. A node name gives
      node=<site> ending in '*', a storage element gives se=<site>, and any
      other site is fatal. */
  function PhedexNode(site: string): (r: Outcome<string>)
    ensures NodePattern(site) ==>
      && r.Ok? && HasPrefix(r.value, NodePrefix) && HasSuffix(r.value, "*")
      && (r.value[|NodePrefix|..] == site || r.value[|NodePrefix|..] == site + "*")
      && (HasSuffix(site, "*") ==> r.value[|NodePrefix|..] == site)
    ensures !NodePattern(site) && SePattern(site) ==> r == Ok("se=" + site)
    ensures !NodePattern(site) && !SePattern(site) ==> r == Panic("ERROR: unable to match site name " + site)
  {
    if NodePattern(site) then
      var node := NodePrefix + site;
      assert node[|NodePrefix|..] == site;
      assert node[|node| - 1] == site[|site| - 1];
      assert HasSuffix(node, "*") <==> HasSuffix(site, "*");
      if HasSuffix(node, "*") then Ok(node)
      else
        assert (node + "*")[|NodePrefix|..] == site + "*";
        Ok(node + "*")
    else if SePattern(site) then Ok("se=" + site)
    else Panic("ERROR: unable to match site name " + site)
  }

  /** A site cannot be both a node name and a storage element. */
  lemma PatternsDisjoint(site: string)
    ensures !(NodePattern(site) && SePattern(site))
  {
    if NodePattern(site) {
      assert !Lower(site[0]);
    }
  }

  // ---------------------------------------------------------------------
  // dataset4site_release

  function ReplicaUrl(dataset: string, node: string): string {
    PhedexUrl + "/blockReplicas?dataset=" + dataset + "&" + node
  }

  function ReplicaUrlList(datasets: seq<string>, node: string): (urls: seq<string>)
    ensures |urls| == |datasets|
    ensures forall k :: 0 <= k < |datasets| ==> urls[k] == ReplicaUrl(datasets[k], node)
  {
    if |datasets| == 0 then []
    else ReplicaUrlList(datasets[..|datasets| - 1], node) + [ReplicaUrl(datasets[|datasets| - 1], node)]
  }

  /** The blockReplicas URLs dataset4site_release plans: one per dataset of
      the release, with the site's node argument, de-duplicated. */
  function ReplicaUrlsOf(q: DASQuery, load: Loader): Outcome<seq<string>> {
    match Get(q.spec, "site")
    case Str(site) =>
      (match PhedexNode(site)
       case Panic(why) => Panic(why)
       case Ok(node) =>
         match DatasetsOf(q, load)
         case Panic(why) => Panic(why)
         case Ok(datasets) => Ok(Dedup(ReplicaUrlList(datasets, node))))
    case _ => Panic(ConversionPanic)
  }

  /** The planning half of dataset4site_release. */
  method ReplicaUrls(q: DASQuery, load: Loader) returns (out: Outcome<seq<string>>)
    ensures out == ReplicaUrlsOf(q, load)
  {
    var site := Get(q.spec, "site");
    if !site.Str? {
      return Panic(ConversionPanic);
    }
    var node := PhedexNode(site.s);
    if node.Panic? {
      return Panic(node.reason);
    }
    var datasets := Dataset4Release(q, load);
    if datasets.Panic? {
      return Panic(datasets.reason);
    }
    var urls := ReplicaUrlLoop(datasets.value, node.value);
    out := Ok(urls);
  }

  /** The planning loop: one URL per dataset, each kept once. */
  method ReplicaUrlLoop(datasets: seq<string>, node: string) returns (urls: seq<string>)
    ensures urls == Dedup(ReplicaUrlList(datasets, node))
  {
    var api := "blockReplicas";
    urls := [];
    for i := 0 to |datasets|
      invariant urls == Dedup(ReplicaUrlList(datasets[..i], node))
    {
      ReplicaUrlStep(datasets, node, i);
      var furl := PhedexUrl + "/" + api + "?dataset=" + datasets[i] + "&" + node;
      assert furl == ReplicaUrl(datasets[i], node);
      if !(furl in urls) {
        urls := urls + [furl];
      }
    }
    assert datasets[..|datasets|] == datasets;
  }

  /** One step of the planning loop. */
  lemma ReplicaUrlStep(datasets: seq<string>, node: string, i: nat)
    requires i < |datasets|
    ensures var prev := Dedup(ReplicaUrlList(datasets[..i], node));
      var u := ReplicaUrl(datasets[i], node);
      Dedup(ReplicaUrlList(datasets[..i + 1], node)) == if u in prev then prev else prev + [u]
  {
    var all := ReplicaUrlList(datasets[..i + 1], node);
    assert datasets[..i + 1][..i] == datasets[..i];
    DedupStep(all, i);
    assert all[..i] == ReplicaUrlList(datasets[..i], node);
    assert all[..i + 1] == all;
  }

  /** The datasets of the blocks a site hosts, without repeats. */
  function DatasetsOfBlocks(blocks: seq<string>): (ds: seq<string>)
    ensures |ds| == |blocks|
    ensures forall k :: 0 <= k < |blocks| ==> ds[k] == DatasetOfBlock(blocks[k])
  {
    if |blocks| == 0 then []
    else DatasetsOfBlocks(blocks[..|blocks| - 1]) + [DatasetOfBlock(blocks[|blocks| - 1])]
  }

  /** The records dataset4site_release returns for the joined blockReplicas
      records: one {dataset: [{name}]} per distinct dataset, first seen
      first. */
  function SiteDatasetsOf(replicas: seq<Record>): Outcome<seq<Record>> {
    match NamesOf(replicas, "name")
    case Panic(why) => Panic(why)
    case Ok(blocks) => Ok(NameRecords("dataset", Dedup(DatasetsOfBlocks(blocks))))
  }

  /** The shaping half of dataset4site_release, over the records processUrls
      returned for the planned URLs. */
  method SiteDatasets(replicas: seq<Record>) returns (out: Outcome<seq<Record>>)
    ensures out == SiteDatasetsOf(replicas)
  {
    var datasets: seq<string> := [];
    ghost var blocks: seq<string> := [];
    for i := 0 to |replicas|
      invariant NamesOf(replicas[..i], "name") == Ok(blocks)
      invariant datasets == Dedup(DatasetsOfBlocks(blocks))
    {
      assert replicas[..i + 1][..i] == replicas[..i];
      var block := Get(replicas[i], "name");
      if !block.Str? {
        NamesOfPanics(replicas, "name", i);
        return Panic(ConversionPanic);
      }
      var dataset := Split(block.s, "#")[0];
      SiteDatasetStep(blocks, block.s);
      if !(dataset in datasets) {
        datasets := datasets + [dataset];
      }
      blocks := blocks + [block.s];
    }
    assert replicas[..|replicas|] == replicas;
    var records := WrapNames("dataset", datasets);
    out := Ok(records);
  }

  /** One step of the shaping loop. */
  lemma SiteDatasetStep(blocks: seq<string>, b: string)
    ensures var prev := Dedup(DatasetsOfBlocks(blocks));
      var d := DatasetOfBlock(b);
      Dedup(DatasetsOfBlocks(blocks + [b])) == if d in prev then prev else prev + [d]
  {
    var all := DatasetsOfBlocks(blocks + [b]);
    DedupStep(all, |blocks|);
    assert (blocks + [b])[..|blocks|] == blocks;
    assert all[..|blocks|] == DatasetsOfBlocks(blocks);
    assert all[..|blocks| + 1] == all;
  }

  /** A record without a string under the field makes NamesOf panic. */
  lemma NamesOfPanics(records: seq<Record>, field: string, i: nat)
    requires i < |records| && !Get(records[i], field).Str?
    ensures NamesOf(records, field) == Panic(ConversionPanic)
  {
    NamesOfAt(records, field);
  }

  /** The DBS decoding is not used for PhEDEx replies. */
  function NoDecode(data: string): Outcome<seq<Record>> { Ok([]) }

  /** dataset4site_release: plan the blockReplicas URLs, join the replies
      that arrive in `responses` (decoded by `phedex`, PhedexUnmarshal) and
      shape the datasets of the blocks. `consumed` counts the replies taken
      and `complete` says whether every planned URL was answered; when it is
      false the source keeps waiting. */
  method Dataset4SiteRelease(q: DASQuery, load: Loader, responses: seq<ResponseType>,
                             phedex: (string, string) -> Outcome<seq<Record>>)
    returns (out: Outcome<seq<Record>>, consumed: nat, complete: bool)
    ensures consumed <= |responses|
    ensures ReplicaUrlsOf(q, load).Panic? ==> out == Panic(ReplicaUrlsOf(q, load).reason)
    ensures ReplicaUrlsOf(q, load).Ok? ==>
      var urls := ReplicaUrlsOf(q, load).value;
      var got := Collect("phedex", "blockReplicas", responses[..consumed], NoDecode, phedex);
      && (got.Panic? ==> out == Panic(got.reason))
      && (got.Ok? ==> out == SiteDatasetsOf(got.value)
                      && (complete <==> Pending(Keys(urls), responses[..consumed]) == {}))
    ensures ReplicaUrlsOf(q, load).Ok? ==> HashUrlsStay(ReplicaUrlsOf(q, load).value, responses, consumed)
  {
    var urls := ReplicaUrls(q, load);
    if urls.Panic? {
      return Panic(urls.reason), 0, true;
    }
    var replicas;
    replicas, consumed, complete := ProcessUrls("phedex", "blockReplicas", urls.value, responses, NoDecode, phedex);
    ghost var got := Collect("phedex", "blockReplicas", responses[..consumed], NoDecode, phedex);
    assert replicas == got;
    if replicas.Panic? {
      return Panic(replicas.reason), consumed, complete;
    }
    out := SiteDatasets(replicas.value);
    assert out == SiteDatasetsOf(got.value);
  }

  /** dataset4site_release names each dataset once, in the order its first
      block appears, and exactly the datasets of the blocks received. */
  lemma SiteDatasetsShape(replicas: seq<Record>)
    requires forall k :: 0 <= k < |replicas| ==> Get(replicas[k], "name").Str?
    ensures SiteDatasetsOf(replicas).Ok?
    ensures var out := SiteDatasetsOf(replicas).value;
      var ds := Dedup(DatasetsOfBlocks(NamesOf(replicas, "name").value));
      && |out| == |ds|
      && NoRepeats(ds)
      && (forall k :: 0 <= k < |out| ==> out[k] == NameRecord("dataset", ds[k]))
      && (forall d :: d in ds <==>
            exists k :: 0 <= k < |replicas| && d == DatasetOfBlock(Get(replicas[k], "name").s))
  {
    NamesOfAt(replicas, "name");
    var blocks := NamesOf(replicas, "name").value;
    var all := DatasetsOfBlocks(blocks);
    DedupSet(all);
    forall d ensures d in all <==> exists k :: 0 <= k < |replicas| && d == DatasetOfBlock(Get(replicas[k], "name").s) {
      if exists k :: 0 <= k < |replicas| && d == DatasetOfBlock(Get(replicas[k], "name").s) {
        var k :| 0 <= k < |replicas| && d == DatasetOfBlock(Get(replicas[k], "name").s);
        assert all[k] == d;
      }
    }
  }
}
