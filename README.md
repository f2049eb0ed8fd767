# das2go core in Dafny

This project models the core of das2go, the Go server of the CMS Data
Aggregation System (DAS). It covers four parts:

- **The fetch layer** (`utils/fetch.go`). This is the queue of pending URL
  requests, kept as a binary min-heap on the request timestamp. It also
  covers the worker that hands requests to fetches while fewer than
  `UrlQueueLimit` are in flight, `FetchResponse` building a `ResponseType`,
  the retry loop, `system`, `Response` and the certificate cache of
  `TLSCertsManager`.
- **The service helpers** (`services/helpers.go`). `find_blocks`, `runArgs`,
  `fileStatus` and `dbs_urls` plan the DBS URLs of a query. `processUrls`
  joins the responses back into records. Also covered: `file_run_lumi`,
  `OrderByRunLumis`, `dataset4release`, `phedexNode`,
  `dataset4site_release`, and the day-long PhEDEx node cache `PhedexNodes`
  with its `Nodes` and `NodeType` methods.
- **The DBS adapter** (`services/dbs.go`). This is `DBSUnmarshal`, which
  renames and explodes the fields of each API's records. It then covers
  the DAS local APIs built on the helpers: `dataset4block`, the
  run/file/lumi dispatchers, `block_run_lumi4dataset`,
  `file4dataset_run_lumi`, `blocks4tier_dates` and `lumi4block_run`.
- **The typed record lookups** of `src/mongo/mongo.go`. These are
  `GetStringValue`, `GetIntValue` and `GetInt64Value` on dotted keys.

A DAS record (`mongo.DASRecord`) is a `map<string, Value>`. `Value` is a
datatype holding the JSON shapes the code switches on: strings, string
lists, float64 numbers, int and int64, nested records and lists of records.

A Go `panic` is the `Panic(reason)` case of `Outcome`. This applies both to
a failed type assertion and to an index out of range. Each local API is
therefore a total function whose error paths can be stated.

These are parameters of the operations:
- What the network returns: the records a URL decodes to (`Loader`), or the
  stream of responses on a channel.
- The clock.
- The pattern check of `validateUrl`.
- The helpers from other packages: `List2Set`, `UnixTime` and
  `PhedexUnmarshal`.

Stateful entities are classes whose methods are proved against
specification functions. These are the request queue, the certificate
cache and the node cache. Loops in the Go code are `while` loops proved
against recursive specification functions. Lemmas state what those
functions mean.

Modules, in dependency order:

- `Wrappers` holds `Option` and `Outcome`.
- `GoStrings` holds `strings.Split/Join/Index/Replace`, the ASCII part of
  `strings.ToLower`, and decimal text.
- `UrlEscape` holds `url.QueryEscape/QueryUnescape` and query parsing.
- `Records` holds DAS records and the mongo lookups.
- `Sets` and `Dedups` hold `InList`-style deduplication.
- `DbsUnmarshal`.
- `FetchQueue`, `Fetch` and `TlsCerts`.
- `HelpersPlan`, `HelpersJoin`, `HelpersShape`, `RunLumis`, `HelpersSite`
  and `PhedexCache`.
- `UrlLiterals`, `DbsLocal` and `DbsFilters`.

## Model

| member | source | states |
|---|---|---|
| FetchQueue.UrlFetchQueue.Len | utils/fetch.go:238 | the queue length is the number of queued requests |
| FetchQueue.UrlFetchQueue.Swap | utils/fetch.go:244 | exchanges exactly the two entries and keeps the multiset of requests |
| FetchQueue.UrlFetchQueue.Push | utils/fetch.go:247-250 | appends the request at the end and changes nothing else |
| FetchQueue.UrlFetchQueue.Pop | utils/fetch.go:253-258 | removes and returns the last entry |
| FetchQueue.UrlFetchQueue.Up | utils/fetch.go:241 | sifting an entry up by the `ts` order of Less leaves a heap-ordered permutation |
| FetchQueue.UrlFetchQueue.Down | utils/fetch.go:241 | sifting the root down within the first n entries restores heap order there, keeps the rest and the multiset |
| FetchQueue.UrlFetchQueue.HeapPush | utils/fetch.go:294 | heap.Push keeps heap order, grows the queue by one and adds exactly the new request |
| FetchQueue.UrlFetchQueue.HeapPop | utils/fetch.go:298-300 | heap.Pop returns a request with the smallest timestamp, removes exactly it and keeps heap order |
| FetchQueue.RootIsMin | utils/fetch.go:241 | in a heap-ordered queue the root has the smallest timestamp |
| FetchQueue.UrlFetchQueue.Dispatch | utils/fetch.go:282-307 | the worker takes a request iff the queue is non-empty and UrlQueueSize < UrlQueueLimit; what it takes is the oldest request, and otherwise the queue is unchanged |
| Fetch.FetchResponse | utils/fetch.go:312-451 | '#' is rewritten to "%23" in the reported URL; an invalid URL gives only "Invalid URL"; POST with args, else GET; the data and error are those of the exchange, the gzip error or the read error; recvBytes is the data length |
| Fetch.FetchWithRetry | utils/fetch.go:489-522 | at most UrlRetry+1 attempts, stopping at the first without error, every earlier attempt failed, and exactly one response is sent: the last attempt's |
| Fetch.Fetch | utils/fetch.go:478-485 | with a positive UrlQueueLimit the request is queued (heap order kept) and nothing is sent; otherwise the queue is untouched and the one response sent is the first error-free call among at most UrlRetry+1, every earlier call having failed, or the last call when all fail |
| Fetch.System | utils/fetch.go:454-474 | the answer is one of the known system names or "combined" |
| Fetch.SystemFirstMatch | utils/fetch.go:454-474 | system answers the first name contained in the URL, and "combined" iff none is contained |
| Fetch.Response | utils/fetch.go:537-548 | the JSON text wraps the URL and the data, 21 characters longer than both |
| TlsCerts.FirstParsed | utils/fetch.go:101-111 | the first certificate whose leaf parses, with every earlier one unparsable, or none parses |
| TlsCerts.CertExpire | utils/fetch.go:101-111 | the NotAfter of the first parsable certificate, or the zero time |
| TlsCerts.TLSCertsManager.GetCerts | utils/fetch.go:71-98 | non-nil certificates are reused until the renew interval has passed; a reload stamps the time and stores what tlsCerts returned, nil included, so nil certificates are reloaded on every call; a failed reload keeps the old ones and sets a grace period when they expire later than it; with nil certificates a failed load is fatal |
| HelpersPlan.RunArgs | services/helpers.go:110-128 | a string or string list gives "&run_num=" per run, nil gives "", any other type panics |
| HelpersPlan.FileStatus | services/helpers.go:131-141 | true iff the status is a string equal to "valid" ignoring case; a non-string status panics |
| HelpersPlan.FindBlocks | services/helpers.go:47-65 | equals the specification BlocksOf |
| HelpersPlan.FindBlocksCases | services/helpers.go:47-65 | a block in the spec gives itself; a dataset gives the block_name of every loaded record, in order; a fetch panic propagates; a block of another type panics |
| HelpersPlan.NamesOfAt | services/helpers.go:60-63 | collecting a field succeeds iff every record holds a string there, and then yields those strings in order |
| HelpersPlan.DbsUrls | services/helpers.go:144-163 | the List2Set of one URL per block, or the panic of planning |
| HelpersPlan.BlockUrlsAt | services/helpers.go:150-161 | the k-th planned URL is the URL of the k-th block |
| HelpersPlan.BlockUrlQuery | services/helpers.go:152-159 | parsing a planned URL's query gives back the block name, the runs in order and validFileOnly=1 exactly when the status is valid |
| HelpersPlan.PlannedUrlsRead | services/helpers.go:144-163 | every planned URL reads back as its block, the query's runs and the file-status flag |
| HelpersJoin.ProcessUrls | services/helpers.go:69-107 | the records collected from the responses taken, in arrival order; it stops when no planned URL is pending and takes no response after that; when not complete it has taken every response. Corrected (see Findings): pending is keyed by the URL each response reports; with the keys as written, every planned URL holding '#' stays pending |
| HelpersJoin.PendingStep | services/helpers.go:94 | each response removes exactly its URL from the pending set |
| HelpersJoin.AllAnsweredCompletes | services/helpers.go:72-75 | once every planned URL has a response carrying the URL FetchResponse reports for it, nothing is pending |
| HelpersJoin.HashUrlNeverAnswered | services/helpers.go:72-75 | with the map keyed as written, a planned URL holding '#' stays pending for ever, because no response URL holds '#' |
| HelpersJoin.HashUrlsPending | services/helpers.go:72-75 | as written, with no response URL holding '#', every planned URL holding '#' is pending after any number of responses |
| HelpersJoin.KeysWithoutHash | services/helpers.go:72-75 | for URLs without '#' the corrected keys are the planned URLs |
| HelpersJoin.CollectTagged | services/helpers.go:89-92 | every collected record carries the "url" of the response it came from |
| HelpersJoin.CollectCount | services/helpers.go:84-92 | the number of collected records is the number of decoded records |
| HelpersJoin.OtherSystemEmpty | services/helpers.go:84-88 | a system other than dbs, dbs3 and phedex collects no records |
| HelpersShape.Rows | services/helpers.go:170-186 | one row per file-lumi record, built from the keys |
| HelpersShape.RowOfDomain | services/helpers.go:175-185 | a row's fields are exactly those named by the keys |
| HelpersShape.RowOfValues | services/helpers.go:175-185 | each field wraps the record's value under its inner name (file.name, run.run_number, lumi.number, block.name) |
| HelpersShape.FileRunLumi | services/helpers.go:166-196 | without run and lumi keys the rows are the answer; with them the rows are grouped by run, or a conversion panic |
| HelpersShape.FileRunLumiQuery | services/helpers.go:166-196 | file_run_lumi end to end: a planning panic, a decoding panic, or the shaped rows of the collected records; for the run and lumi keys a conversion panic or a grouping of their (run, lumis) pairs by run; completeness as in processUrls |
| HelpersShape.OrderByRunLumiRecords | services/helpers.go:199-224 | a conversion panic when a row lacks a float run or a float lumi list, else one record per run carrying that run's lumis |
| HelpersShape.GetValue2 | services/helpers.go:203-204 | a two-segment lookup finds a value only under a nested record or a non-empty list of records |
| HelpersShape.FloatsOf | services/helpers.go:206-216 | succeeds iff every item is a float64, and then yields their values |
| HelpersShape.RowsExtract | services/helpers.go:199-224 | rows of well-typed records extract to their (run, lumis) pairs in order |
| HelpersShape.RowWithoutLumisPanics | services/helpers.go:203 | a row whose lumi field is not a list makes the extraction panic |
| RunLumis.OrderByRunLumis | services/helpers.go:199-224 | the output is a grouping of the input pairs: distinct runs covering exactly the input runs, each with the concatenated lumis of its run in input order |
| RunLumis.EmitGroups | services/helpers.go:219-222 | one output entry per map key, with distinct runs and that key's lumis |
| RunLumis.Conservation | services/helpers.go:199-224 | grouping keeps the total number of lumis and yields one entry per distinct run |
| RunLumis.GroupingsAgree | services/helpers.go:219-222 | any two groupings of the same input hold the same entries; only their order, the map order, differs |
| HelpersSite.Dataset4Release | services/helpers.go:227-251 | equals the specification DatasetsOf |
| HelpersSite.DatasetsOfRelease | services/helpers.go:227-251 | the answer has no repeats and holds exactly the dataset names of the loaded records |
| HelpersSite.DatasetsUrlShape | services/helpers.go:232-241 | the URL asks the datasets API for the release version |
| HelpersSite.PhedexNode | services/helpers.go:254-269 | a node name gives "node=" plus the name with one trailing '*'; a storage element gives "se=" plus it; anything else panics with the site name |
| HelpersSite.PatternsDisjoint | services/helpers.go:254-269 | no site is both a node name and a storage element |
| HelpersSite.ReplicaUrls | services/helpers.go:277-283 | one blockReplicas URL per dataset and node, first occurrence kept |
| HelpersSite.SiteDatasets | services/helpers.go:284-298 | equals the specification SiteDatasetsOf |
| HelpersSite.SiteDatasetsShape | services/helpers.go:284-298 | one dataset record per distinct dataset of the block names, without repeats |
| HelpersSite.Dataset4SiteRelease | services/helpers.go:272-299 | dataset4site_release end to end: the replica URLs, the collected replicas and their distinct datasets; `complete` uses the corrected keys (see Findings), and with the keys as written every replica URL holding '#' stays pending, so the source never returns |
| HelpersSite.DatasetOfBlockPrefix | services/helpers.go:286 | the text before '#' of a block name is its dataset |
| HelpersSite.NameRecords | services/helpers.go:291-297 | one {field: [{name: x}]} record per name, in order |
| PhedexCache.PhedexNodes.Nodes | services/helpers.go:309-319 | the cached list is returned while non-empty and under a day old; otherwise the fetched list replaces it and is stamped, staying fresh for a day; a failed decode panics and leaves the cache |
| PhedexCache.PhedexNodes.NodeType | services/helpers.go:322-352 | the kind of the first cached node that describes the site by name or storage element, or "" |
| PhedexCache.FirstKindIsFirstMatch | services/helpers.go:322-352 | the kind answered is that of the first describing record, and "" iff none describes the site |
| PhedexCache.UnmatchedSiteHasNoKind | services/helpers.go:322-352 | a site matching neither pattern has kind "" |
| PhedexCache.FirstMatch | services/helpers.go:327-349 | the first describing record, with none before it |
| DbsUnmarshal.DBSUnmarshal | services/dbs.go:34-77 | equals the specification Unmarshal |
| DbsUnmarshal.Unmarshal | services/dbs.go:34-77 | a decoding panic propagates and APIs without reshaping pass the records through |
| DbsUnmarshal.RenamedApis | services/dbs.go:37-50 | dataset APIs rename "dataset" and physicsgroup renames "physics_group_name" to "name", keeping every other field |
| DbsUnmarshal.SiteRows | services/dbs.go:51-56 | site4dataset records become {name: origin_site_name, dataset} |
| DbsUnmarshal.FileParents | services/dbs.go:57-65 | fileparents yields one {name} string record per parent file |
| DbsUnmarshal.RunsOfRecord | services/dbs.go:66-74 | runs yields one {run_number} record per float run, whose text parses back to the run |
| DbsUnmarshal.ExplodeSucceeds | services/dbs.go:57-74 | exploding a field succeeds iff every record's items convert |
| DbsUnmarshal.ExplodeCount | services/dbs.go:57-74 | an explode yields one single-key row per list item |
| DbsUnmarshal.ItemRowsAt | services/dbs.go:58-63 | each list item becomes the single-field row of its converted value, in order |
| DbsUnmarshal.MapRecordsAt | services/dbs.go:37-50 | a per-record rewrite keeps the count and rewrites each record in place |
| DbsLocal.Dataset4Block | services/dbs.go:84-95 | a string block gives one record {dataset: [{name: text before '#'}]}, anything else panics |
| DbsLocal.Dataset4BlockName | services/dbs.go:84-95 | the block "d#x" and the bare name "d" both answer dataset d |
| DbsLocal.DispatchShapes | services/dbs.go:97-122 | each run/file/lumi API (and lumi4block_run, services/dbs.go:206-209) asks file_run_lumi for exactly its fields, and only the run_lumi APIs group by run |
| DbsLocal.BlockRunLumi4Dataset | services/dbs.go:123-153 | one row per file-lumi record with its block, run and lumi. Corrected (see Findings): the block is the block_name parameter of the record's URL, not the split at services/dbs.go:145-146 |
| DbsLocal.BlockOfUrlAsWritten | services/dbs.go:140-146 | as written: an invalid escape panics; otherwise the read succeeds iff the unescaped URL contains "block_name=", and an index panic otherwise |
| DbsLocal.BlockOfPlannedUrl | services/dbs.go:139-147 | the corrected read of a planned URL gives back exactly its block name |
| DbsLocal.AsWrittenTail | services/dbs.go:139-147 | the split as written yields the block name followed by the run and status arguments |
| DbsLocal.AsWrittenWrongBlock | services/dbs.go:139-147 | with a run or the valid flag, the block read as written differs from the block queried, while the corrected read gives it back |
| DbsFilters.File4DatasetRunLumi | services/dbs.go:154-173 | equals the specification File4DatasetRunLumiOf |
| DbsFilters.LumiOf | services/dbs.go:157 | the number a decimal lumi text spells, 0 for any other text |
| DbsFilters.LumiOfDecimal | services/dbs.go:157 | the decimal text of a lumi number reads back as that number |
| DbsFilters.File4DatasetRunLumiCases | services/dbs.go:154-173 | a non-string lumi panics; a decimal lumi n over well-typed records gives FilesWithLumi n |
| DbsFilters.FilterIsFilesWithLumi | services/dbs.go:160-171 | the nested filter emits, record by record, one file record per occurrence of the lumi |
| DbsFilters.FilesWithLumiMembers | services/dbs.go:160-171 | a file is answered iff some record of it lists the lumi |
| DbsFilters.FilterPanics | services/dbs.go:161-164 | a record whose lumi list is missing or not all float64 makes the filter panic |
| DbsFilters.ValHitsCount | services/dbs.go:163-169 | a list of float64 lumis yields one hit per equal lumi |
| DbsFilters.ValHitsPanic | services/dbs.go:164 | a non-float64 lumi panics |
| DbsFilters.CountPositive | services/dbs.go:163-169 | a lumi is counted at least once iff it occurs |
| DbsFilters.Blocks4TierDates | services/dbs.go:175-205 | equals the specification Blocks4TierDatesOf |
| DbsFilters.Blocks4TierDatesPanics | services/dbs.go:179-182 | a non-string tier, a non-list date or fewer than two dates panic |
| DbsFilters.Blocks4TierDatesAnswer | services/dbs.go:175-205 | over well-formed replies the answer holds each block of the tier once, in first-seen order, and nothing else |
| DbsFilters.TierMatchesOk | services/dbs.go:189-196 | the tier scan succeeds iff every block name is a string with at least four '/'-parts |
| DbsFilters.TierMatchesMembers | services/dbs.go:189-196 | the scan keeps exactly the block names whose tier is the one asked |
| DbsFilters.TierOfDataset | services/dbs.go:191-192 | the tier of "/p/s/t#x" is t |
| Records.GetStringValue | src/mongo/mongo.go:24-40 | found exactly when the key resolves to a string, an assertion panic exactly when a segment is not a record, else the cast error naming the last segment |
| Records.GetIntValue | src/mongo/mongo.go:42-58 | found exactly when the key resolves to an int, with the same panic and cast error |
| Records.GetInt64Value | src/mongo/mongo.go:60-75 | found exactly when the key resolves to an int64, with the same panic and cast error |
| Records.ResolveIsWalk | src/mongo/mongo.go:24-40 | a dotted key walks the nested records segment by segment |
| Records.SingleSegment | src/mongo/mongo.go:24-40 | a key without '.' reads the field itself |
| Records.DottedKey | src/mongo/mongo.go:24-40 | "a.rest" descends into the record at a, or fails at a when it is not a record |
| Records.StringLookupSingle | src/mongo/mongo.go:24-40 | a string field is found, any other value gives the cast error naming the key |
| Records.StringLookupDotted | src/mongo/mongo.go:24-40 | a dotted lookup descends into a nested record and panics on another value |
| Records.ExactIntTypes | src/mongo/mongo.go:42-75 | GetIntValue finds only int and GetInt64Value only int64; each rejects the other and float64 |
| GoStrings.ToLower | services/helpers.go:136 | lowers each character independently and leaves no ASCII upper-case letter |
| GoStrings.SplitJoin | services/dbs.go:145 | strings.Join of strings.Split gives back the text |
| GoStrings.DecimalRoundTrip | services/dbs.go:70 | the decimal text of an integer parses back to it |
| GoStrings.ReplaceIsCharwise | utils/fetch.go:321-323 | replacing '#' by "%23" rewrites each character independently |
| UrlEscape.EscapeLength | services/helpers.go:153 | an escaped value is at least as long as the input and at most three times as long |
| UrlEscape.UnescapeLength | services/dbs.go:140 | an unescape is never longer than its input, and a text without '%' always unescapes, to one of the same length |
| UrlEscape.EscapeRoundTrip | services/dbs.go:140 | QueryUnescape of QueryEscape gives back the byte string |
| UrlEscape.EscapedLacksDelimiters | services/helpers.go:152 | an escaped value holds no '&', '=', '#', '?' or ';' |
| Dedups.DedupSet | services/helpers.go:244-249 | deduplication keeps exactly the elements, without repeats |
| Dedups.DedupFirstSeen | services/helpers.go:244-249 | deduplication keeps first-seen order |

## Left out

- Networking: the HTTP client, TLS setup, the DNS cache, headers, gzip
  decompression and the token file. The reply of an exchange is the
  parameter `reply`, and the gzip outcome is part of it.
- Goroutines, channels and sleeps. The responses on the channel are a
  sequence in arrival order. The worker's polling loop is one dispatch step
  (`Dispatch`).
- JSON decoding and `json.Marshal`. The decoded records are parameters, so
  `L_dbs3_datasetlist` (services/dbs.go:211-224), which re-marshals its
  input, is not part of this model.
- These helpers are parameters, because their packages are not part of
  this model:
  - `utils.List2Set`.
  - `utils.UnixTime`.
  - `PhedexUnmarshal`.
  - The regular expression `PatternUrl` of validateUrl.
  - `loadDBSData`'s decoding.
- MongoDB access in src/mongo/mongo.go beyond the three typed lookups.
- The `Time` bookkeeping of ResponseType and the logging.
- The certificate mutex: a fresh local mutex per call excludes nothing.
- float64 is modelled as integers (`Float(f: int)`). Run and lumi numbers
  are whole numbers.
- HelpersShape.GetValue2: a dotted lookup on the decoded record. It is not
  the mongo GetValue itself, which is not part of this model.
- The request counters: FetchResponse's ±1 update of `UrlQueueSize` and
  the `TotalGetCalls`/`TotalPostCalls` counts (utils/fetch.go:315-316,
  345, 354) are not modelled. Dispatch takes `UrlQueueSize` as a
  parameter.
- HelpersSite.Dataset4Release: dataset4release ignores `resp.Error` and
  hands the empty data of a failed fetch to DBSUnmarshal, where
  loadDBSData panics (services/dbs.go:25-28). The `Panic` answer of the
  Loader stands for that panic.
- HelpersPlan.FileStatus: GoStrings.ToLower lowers ASCII letters only.
  Go's `strings.ToLower` is Unicode-aware: for the status "VALİD" (with
  U+0130) Go answers true and the model false. Strings are byte sequences
  here, so multi-byte runes are not decoded.
- DbsFilters.LumiOf: the spec's lumi text is read as a decimal integer,
  and any other text as 0. Go's `strconv.ParseFloat` gives 0 only on a
  parse error. It reads fractional text ("2.5") as its float value, and
  it reads exponent, signed and hexadecimal forms: "1e2" is 100, "+5" is
  5 and "0x1p4" is 16. The model reads each of these as 0, so it matches
  lumi 0 where Go matches the number the text spells.
- HelpersJoin.ProcessUrls: when some planned URL is never answered, the
  code polls for ever. The model reports `complete = false` after the last
  response instead. The pending set is keyed by the URL each response
  reports (the corrected behaviour of the second finding). The keys as
  written are stated by the clause built on HashUrlsPending.
- HelpersSite.Dataset4SiteRelease: `complete` inherits the corrected keys
  of ProcessUrls. For the keys as written, the contract states that every
  replica URL holding '#' stays pending.
- DbsLocal.BlockRunLumi4Dataset: the block is read as the block_name query
  parameter (the corrected behaviour of the first finding). The read as
  written, `Split(rurl, "block_name=")[1]`, is DbsLocal.BlockOfUrlAsWritten.
- RunLumis.OrderByRunLumis: the order of the output is that of Go's map
  iteration, which is unspecified. The contract states the set of groups,
  not an order.
- DbsFilters.File4DatasetRunLumi: it takes the collected filelumis records
  as input. The source converts the spec's lumi before fetching, and a
  non-string lumi panics there; the model gives the same panic.
- TlsCerts.TLSCertsManager.GetCerts: `log.Fatal` is a panic here, and the
  state it leaves is not stated. The reading of files and environment
  variables is the parameter `load`. The cache is refreshed once
  `now - expire` exceeds the interval, so at exactly the interval the
  cached value is still used.
- Revisions: services/helpers.go calls `utils.FetchResponse(furl, "")` and
  `utils.Fetch(furl, "", out)` without an HTTP client. utils/fetch.go
  comes from a later revision whose FetchResponse and Fetch take the
  client first. The fetch layer follows that revision, and the client is
  part of the network left out. The second finding combines helpers.go's
  processUrls with that revision's '#' rewrite of the response URL.

## Findings

| source | as written | input that shows it | evidently intended | confidence | as-written member | corrected member |
|---|---|---|---|---|---|---|
| services/dbs.go:139-148 | the block name is everything after "block_name=" in the unescaped URL, so the "&run_num=…" and "&validFileOnly=1" arguments that dbs_urls appends end up in it | a block_run_lumi4dataset query with run "5": the row's block becomes "/p/s/t#1&run_num=5" | the block name alone, the value of the block_name query parameter | medium, not executed | DbsLocal.AsWrittenWrongBlock | DbsLocal.BlockOfPlannedUrl |
| services/helpers.go:72-75,94 with utils/fetch.go:321-323 | umap is keyed by the planned URL, but each response reports the URL with '#' rewritten to "%23", so a planned URL holding '#' is never deleted and the loop never exits | dataset4site_release for a release whose DBS reply holds a dataset name with '#' | key umap by the URL the response will report | low, not executed; the two files come from different revisions | HelpersJoin.HashUrlNeverAnswered | HelpersJoin.AllAnsweredCompletes |
