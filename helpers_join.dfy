/** processUrls (services/helpers.go): fire one fetch per URL, then take
    responses off the channel, unmarshal each and tag its records with the
    response URL, until every planned URL has been answered. The goroutines
    and the channel are the sequence `responses`, in arrival order; the
    polling sleep of the default branch is not modelled. */
module HelpersJoin {
  import opened Wrappers
  import opened GoStrings
  import opened Records
  import opened DbsUnmarshal
  import opened Fetch
  import opened Sets

  /** The record lists a response decodes to: loadDBSData's decoding is
      `decode` and PhedexUnmarshal (not part of this model) is `phedex`. */
  function RecordsOf(system: string, api: string, r: ResponseType,
                     decode: string -> Outcome<seq<Record>>,
                     phedex: (string, string) -> Outcome<seq<Record>>): Outcome<seq<Record>> {
    if system == "dbs3" || system == "dbs" then Unmarshal(api, decode(r.data))
    else if system == "phedex" then phedex(api, r.data)
    else Ok([])
  }

  /** rec["url"] = url */
  function TagWith(url: string): Record -> Record {
    rec => rec["url" := Str(url)]
  }

  /** The records collected from a run of responses, in arrival order. */
  function Collect(system: string, api: string, rs: seq<ResponseType>,
                   decode: string -> Outcome<seq<Record>>,
                   phedex: (string, string) -> Outcome<seq<Record>>): Outcome<seq<Record>> {
    if |rs| == 0 then Ok([])
    else match Collect(system, api, rs[..|rs| - 1], decode, phedex)
      case Panic(why) => Panic(why)
      case Ok(out) =>
        match RecordsOf(system, api, rs[|rs| - 1], decode, phedex)
        case Panic(why) => Panic(why)
        case Ok(records) => Ok(out + MapRecords(records, TagWith(rs[|rs| - 1].url)))
  }

  /** The URLs the responses report. */
  function Answered(rs: seq<ResponseType>): set<string> {
    if |rs| == 0 then {} else Answered(rs[..|rs| - 1]) + {rs[|rs| - 1].url}
  }

  /** The planned URLs not yet answered. */
  function Pending(keys: set<string>, rs: seq<ResponseType>): set<string> {
    keys - Answered(rs)
  }

  /** The umap keys as the code writes them: the planned URLs themselves. */
  function KeysAsWritten(urls: seq<string>): set<string> {
    set u | u in urls
  }

  /** The URL FetchResponse will report for a planned URL. */
  function FetchKey(u: string): string {
    ReplaceEach(u, '#', "%23")
  }

  /** The umap keys corrected: the URL each response will carry. */
  function Keys(urls: seq<string>): set<string> {
    set u | u in urls :: FetchKey(u)
  }

  /** processUrls with the umap keyed by the URL each fetch reports.
      `consumed` counts the responses taken off the channel and `complete`
      says whether every planned URL was answered: when it is false, the
      code as written keeps polling the empty channel for ever. */
  method ProcessUrls(system: string, api: string, urls: seq<string>, responses: seq<ResponseType>,
                     decode: string -> Outcome<seq<Record>>,
                     phedex: (string, string) -> Outcome<seq<Record>>)
    returns (out: Outcome<seq<Record>>, consumed: nat, complete: bool)
    ensures consumed <= |responses|
    ensures out == Collect(system, api, responses[..consumed], decode, phedex)
    ensures forall k :: 0 <= k < consumed ==> Pending(Keys(urls), responses[..k]) != {}
    ensures out.Ok? ==> (complete <==> Pending(Keys(urls), responses[..consumed]) == {})
    ensures out.Ok? && !complete ==> consumed == |responses|
    ensures HashUrlsStay(urls, responses, consumed)
  {
    var umap := set furl | furl in urls :: FetchKey(furl);
    var outRecords: seq<Record> := [];
    var i := 0;
    while i < |responses| && umap != {}
      invariant 0 <= i <= |responses|
      invariant umap == Pending(Keys(urls), responses[..i])
      invariant Collect(system, api, responses[..i], decode, phedex) == Ok(outRecords)
      invariant forall k :: 0 <= k < i ==> Pending(Keys(urls), responses[..k]) != {}
    {
      var r := responses[i];
      CollectStep(system, api, responses, i, decode, phedex, outRecords);
      PendingStep(Keys(urls), responses, i);
      var records: Outcome<seq<Record>> := Ok([]);
      if system == "dbs3" || system == "dbs" {
        records := DBSUnmarshal(api, decode(r.data));
      } else if system == "phedex" {
        records := phedex(api, r.data);
      }
      assert records == RecordsOf(system, api, r, decode, phedex);
      if records.Panic? {
        HashUrlsPending(urls, responses, i + 1);
        return Panic(records.reason), i + 1, false;
      }
      var tagged := MapLoop(records.value, TagWith(r.url));
      outRecords := outRecords + tagged;
      umap := umap - {r.url};
      i := i + 1;
    }
    out, consumed := Ok(outRecords), i;
    complete := umap == {};
    HashUrlsPending(urls, responses, i);
  }

  lemma CollectStep(system: string, api: string, rs: seq<ResponseType>, i: nat,
                    decode: string -> Outcome<seq<Record>>,
                    phedex: (string, string) -> Outcome<seq<Record>>, sofar: seq<Record>)
    requires i < |rs|
    requires Collect(system, api, rs[..i], decode, phedex) == Ok(sofar)
    ensures Collect(system, api, rs[..i + 1], decode, phedex) ==
      match RecordsOf(system, api, rs[i], decode, phedex)
      case Panic(why) => Panic(why)
      case Ok(records) => Ok(sofar + MapRecords(records, TagWith(rs[i].url)))
  {
    assert rs[..i + 1][..i] == rs[..i];
  }

  lemma PendingStep(keys: set<string>, rs: seq<ResponseType>, i: nat)
    requires i < |rs|
    ensures Pending(keys, rs[..i + 1]) == Pending(keys, rs[..i]) - {rs[i].url}
  {
    assert rs[..i + 1][..i] == rs[..i];
  }

  // ---------------------------------------------------------------------
  // Properties

  lemma {:induction false} AnsweredAt(rs: seq<ResponseType>)
    ensures forall u :: u in Answered(rs) <==> exists k :: 0 <= k < |rs| && rs[k].url == u
  {
    if |rs| > 0 {
      var pre := rs[..|rs| - 1];
      AnsweredAt(pre);
      assert forall k :: 0 <= k < |pre| ==> pre[k] == rs[k];
    }
  }

  /** Corrected join: once every planned URL has a response carrying the
      URL FetchResponse reports for it, nothing is pending. */
  lemma AllAnsweredCompletes(urls: seq<string>, rs: seq<ResponseType>)
    requires forall u :: u in urls ==> exists k :: 0 <= k < |rs| && rs[k].url == FetchKey(u)
    ensures Pending(Keys(urls), rs) == {}
  {
    AnsweredAt(rs);
    forall x ensures x !in Pending(Keys(urls), rs) {
      if x in Keys(urls) {
        var u :| u in urls && FetchKey(u) == x;
        var k :| 0 <= k < |rs| && rs[k].url == FetchKey(u);
        assert x in Answered(rs);
      }
    }
    EmptyIfNoElement(Pending(Keys(urls), rs));
  }

  /** As written: a planned URL holding '#' is never removed from umap,
      because every response reports the URL with '#' rewritten to "%23";
      the collection loop then never sees an empty umap. */
  lemma HashUrlNeverAnswered(urls: seq<string>, rs: seq<ResponseType>, u: string)
    requires u in urls && '#' in u
    requires forall k :: 0 <= k < |rs| ==> '#' !in rs[k].url
    ensures u in Pending(KeysAsWritten(urls), rs)
    ensures Pending(KeysAsWritten(urls), rs) != {}
  {
    AnsweredAt(rs);
    forall k | 0 <= k < |rs| ensures rs[k].url != u {
      assert '#' !in rs[k].url;
    }
    assert u in KeysAsWritten(urls);
  }

  /** As written, over the first n responses of a stream in which no
      response URL holds '#': every planned URL holding '#' is pending. */
  ghost predicate HashUrlsStay(urls: seq<string>, rs: seq<ResponseType>, n: nat)
    requires n <= |rs|
  {
    (forall k :: 0 <= k < |rs| ==> '#' !in rs[k].url) ==>
      forall u :: u in urls && '#' in u ==> u in Pending(KeysAsWritten(urls), rs[..n])
  }

  lemma HashUrlsPending(urls: seq<string>, rs: seq<ResponseType>, n: nat)
    requires n <= |rs|
    ensures HashUrlsStay(urls, rs, n)
  {
    if forall k :: 0 <= k < |rs| ==> '#' !in rs[k].url {
      forall u | u in urls && '#' in u ensures u in Pending(KeysAsWritten(urls), rs[..n]) {
        HashUrlNeverAnswered(urls, rs[..n], u);
      }
    }
  }

  /** For URLs without '#', the URLs that dbs_urls and dataset4site_release
      build, the corrected keys are the planned URLs. */
  lemma KeysWithoutHash(urls: seq<string>)
    requires forall k :: 0 <= k < |urls| ==> '#' !in urls[k]
    ensures Keys(urls) == KeysAsWritten(urls)
  {
    forall u | u in urls ensures FetchKey(u) == u {
      ReplaceEachLacking(u, '#', "%23");
    }
  }

  /** Every collected record is a decoded record tagged with the URL of the
      response it came from. */
  lemma {:induction false} CollectTagged(system: string, api: string, rs: seq<ResponseType>,
                                         decode: string -> Outcome<seq<Record>>,
                                         phedex: (string, string) -> Outcome<seq<Record>>)
    requires Collect(system, api, rs, decode, phedex).Ok?
    ensures forall rec: Record :: rec in Collect(system, api, rs, decode, phedex).value ==>
      "url" in rec && rec["url"].Str? && exists k :: 0 <= k < |rs| && rec["url"].s == rs[k].url
  {
    if |rs| > 0 {
      var pre := rs[..|rs| - 1];
      var last := rs[|rs| - 1];
      CollectTagged(system, api, pre, decode, phedex);
      var records := RecordsOf(system, api, last, decode, phedex).value;
      MapRecordsAt(records, TagWith(last.url));
      var tagged := MapRecords(records, TagWith(last.url));
      forall rec: Record | rec in Collect(system, api, rs, decode, phedex).value
        ensures "url" in rec && rec["url"].Str? && exists k :: 0 <= k < |rs| && rec["url"].s == rs[k].url
      {
        if rec in Collect(system, api, pre, decode, phedex).value {
          var k :| 0 <= k < |pre| && rec["url"].s == pre[k].url;
          assert rs[k] == pre[k];
        } else {
          assert rec in tagged;
          var j :| 0 <= j < |tagged| && tagged[j] == rec;
          assert rec == records[j]["url" := Str(last.url)];
          assert rs[|rs| - 1] == last;
        }
      }
    }
  }

  /** Nothing is lost or invented: the collected records are, in order,
      as many as the responses decode to. */
  function DecodedCount(system: string, api: string, rs: seq<ResponseType>,
                        decode: string -> Outcome<seq<Record>>,
                        phedex: (string, string) -> Outcome<seq<Record>>): nat {
    if |rs| == 0 then 0
    else DecodedCount(system, api, rs[..|rs| - 1], decode, phedex)
         + match RecordsOf(system, api, rs[|rs| - 1], decode, phedex)
           case Ok(records) => |records|
           case Panic(_) => 0
  }

  lemma {:induction false} CollectCount(system: string, api: string, rs: seq<ResponseType>,
                                        decode: string -> Outcome<seq<Record>>,
                                        phedex: (string, string) -> Outcome<seq<Record>>)
    requires Collect(system, api, rs, decode, phedex).Ok?
    ensures |Collect(system, api, rs, decode, phedex).value| == DecodedCount(system, api, rs, decode, phedex)
  {
    if |rs| > 0 {
      var pre := rs[..|rs| - 1];
      var last := rs[|rs| - 1];
      CollectCount(system, api, pre, decode, phedex);
      MapRecordsAt(RecordsOf(system, api, last, decode, phedex).value, TagWith(last.url));
    }
  }

  /** A system other than DBS and PhEDEx contributes no records. */
  lemma {:induction false} OtherSystemEmpty(system: string, api: string, rs: seq<ResponseType>,
                                            decode: string -> Outcome<seq<Record>>,
                                            phedex: (string, string) -> Outcome<seq<Record>>)
    requires system != "dbs3" && system != "dbs" && system != "phedex"
    ensures Collect(system, api, rs, decode, phedex) == Ok([])
  {
    if |rs| > 0 {
      OtherSystemEmpty(system, api, rs[..|rs| - 1], decode, phedex);
      assert MapRecords([], TagWith(rs[|rs| - 1].url)) == [];
      assert RecordsOf(system, api, rs[|rs| - 1], decode, phedex) == Ok([]);
      assert [] + MapRecords([], TagWith(rs[|rs| - 1].url)) == [];
    }
  }
}
