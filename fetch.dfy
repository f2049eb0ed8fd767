/** The request layer of utils/fetch.go: building a ResponseType for one URL
    call, the retry loop around it, the choice between queueing and a direct
    call, the system classifier and the JSON envelope. The HTTP exchange
    itself is a parameter: the reply the remote side gave. */
module Fetch {
  import opened Wrappers
  import opened GoStrings
  import FetchQueue

  /** ResponseType without its Time field (clock readings are not modelled);
      `error` is None for a nil error and Some(message) otherwise. */
  datatype ResponseType = ResponseType(
    url: string,
    data: string,
    error: Option<string>,
    params: string,
    httpMethod: string,
    sendBytes: int,
    recvBytes: int)

  /** What client.Do and the body read produced for a request: either the
      transport error, or a reply whose body was (maybe) gzip-encoded, with
      the error of opening the gzip stream, the bytes read and the read
      error. */
  datatype Reply =
    | DoError(err: string)
    | Body(gzipEncoded: bool, gzipError: Option<string>, body: string, readError: Option<string>)

  const GzipMessage := "Unable to read gzipped content"

  /** validateUrl: a non-empty URL that the configured URL pattern accepts. */
  predicate ValidateUrl(rurl: string, matchesPattern: string -> bool) {
    |rurl| > 0 && matchesPattern(rurl)
  }

  /** FetchResponse, filling the response field by field as the code does.
      `matchesPattern` stands for PatternUrl and `reply` for the outcome of
      the HTTP exchange; the DNS cache, the headers and the clock are not
      modelled. */
  method FetchResponse(rurl0: string, args: string, matchesPattern: string -> bool, reply: Reply)
    returns (response: ResponseType)
    ensures response.url == ReplaceEach(rurl0, '#', "%23")
    ensures '#' !in response.url
    ensures '#' !in rurl0 ==> response.url == rurl0
    ensures response.params == ""
    ensures response.recvBytes == |response.data|
    ensures !ValidateUrl(response.url, matchesPattern) ==>
      response == ResponseType(response.url, "", Some("Invalid URL"), "", "", 0, 0)
    ensures ValidateUrl(response.url, matchesPattern) ==>
      && response.httpMethod == (if |args| > 0 then "POST" else "GET")
      && response.sendBytes == (if |args| > 0 then |args| else 0)
    ensures ValidateUrl(response.url, matchesPattern) && reply.DoError? ==>
      response.error == Some(reply.err) && response.data == ""
    ensures ValidateUrl(response.url, matchesPattern) && reply.Body? && reply.gzipEncoded && reply.gzipError.Some? ==>
      response.data == GzipMessage && response.error == reply.gzipError
    ensures ValidateUrl(response.url, matchesPattern) && reply.Body? && !(reply.gzipEncoded && reply.gzipError.Some?) ==>
      response.data == reply.body && response.error == reply.readError
  {
    var rurl := rurl0;
    response := ResponseType("", "", None, "", "", 0, 0);
    if Contains(rurl, "#") {
      rurl := Replace(rurl, "#", "%23");
    }
    ReplaceIsCharwise(rurl0, '#', "%23");
    ReplaceRemoves(rurl0, '#', "%23");
    if !Contains(rurl0, "#") {
      forall k | 0 <= k < |rurl0| ensures rurl0[k] != '#' {
        assert !IsAt(rurl0, "#", k);
        assert rurl0[k..k + 1] == [rurl0[k]];
      }
      ReplaceIdentity(rurl0, '#', "%23");
    }
    response := response.(url := rurl);
    if !ValidateUrl(rurl, matchesPattern) {
      response := response.(error := Some("Invalid URL"));
      return;
    }
    if |args| > 0 {
      response := response.(httpMethod := "POST", sendBytes := |args|);
    } else {
      response := response.(httpMethod := "GET");
    }
    if reply.DoError? {
      response := response.(error := Some(reply.err));
      return;
    }
    var err: Option<string>;
    if reply.gzipEncoded {
      if reply.gzipError.Some? {
        response := response.(data := GzipMessage);
        err := reply.gzipError;
      } else {
        response := response.(data := reply.body);
        err := reply.readError;
      }
    } else {
      response := response.(data := reply.body);
      err := reply.readError;
    }
    response := response.(recvBytes := |response.data|);
    if err.Some? {
      response := response.(error := err);
    }
  }

  /** fetch: one call, then up to urlRetry more while the calls fail, each
      retry after a growing sleep. `attempt(k)` is the response of call
      number k (0 for the first). `sent` is what goes on the reply channel
      and `made` the number of calls. */
  method FetchWithRetry(attempt: nat -> ResponseType, urlRetry: int)
    returns (sent: seq<ResponseType>, made: nat)
    ensures |sent| == 1
    ensures 1 <= made <= (if urlRetry > 0 then urlRetry else 0) + 1
    ensures sent[0] == attempt(made - 1)
    ensures forall k :: 0 <= k < made - 1 ==> attempt(k).error.Some?
    ensures sent[0].error.Some? ==> made == (if urlRetry > 0 then urlRetry else 0) + 1
  {
    var resp := attempt(0);
    made := 1;
    if resp.error.None? {
      sent := [resp];
      return;
    }
    var i := 1;
    while i <= urlRetry
      invariant 1 <= i && made == i
      invariant i <= (if urlRetry > 0 then urlRetry else 0) + 1
      invariant resp == attempt(made - 1) && resp.error.Some?
      invariant forall k :: 0 <= k < made ==> attempt(k).error.Some?
    {
      resp := attempt(i);
      made := made + 1;
      if resp.error.None? {
        sent := [resp];
        return;
      }
      i := i + 1;
    }
    sent := [resp];
  }

  /** What fetch sends when it made `made` calls: the response of the last
      call, every earlier call having failed, and with an error only when
      every allowed call failed. */
  predicate RetriedAt(attempt: nat -> ResponseType, urlRetry: int, resp: ResponseType, made: nat) {
    && 1 <= made <= (if urlRetry > 0 then urlRetry else 0) + 1
    && resp == attempt(made - 1)
    && (forall k :: 0 <= k < made - 1 ==> attempt(k).error.Some?)
    && (resp.error.Some? ==> made == (if urlRetry > 0 then urlRetry else 0) + 1)
  }

  /** What fetch sends after its retries, for some number of calls. */
  ghost predicate RetriedResponse(attempt: nat -> ResponseType, urlRetry: int, resp: ResponseType) {
    exists made: nat :: RetriedAt(attempt, urlRetry, resp, made)
  }

  /** Fetch: with a positive queue limit the request, stamped with the
      current time, goes to the worker's queue (the channel hand-off and the
      worker's heap.Push are one step here) and nothing is sent yet;
      otherwise fetch runs at once. */
  method Fetch(queue: FetchQueue.UrlFetchQueue, urlQueueLimit: int, rurl: string, args: string,
               now: int, attempt: nat -> ResponseType, urlRetry: int)
    returns (sent: seq<ResponseType>)
    requires FetchQueue.HeapOrdered(queue.items)
    modifies queue
    ensures FetchQueue.HeapOrdered(queue.items)
    ensures urlQueueLimit > 0 ==>
      && sent == []
      && multiset(queue.items) == multiset(old(queue.items)) + multiset{FetchQueue.UrlRequest(rurl, args, now)}
    ensures urlQueueLimit <= 0 ==>
      && queue.items == old(queue.items)
      && |sent| == 1
      && RetriedResponse(attempt, urlRetry, sent[0])
  {
    if urlQueueLimit > 0 {
      queue.HeapPush(FetchQueue.UrlRequest(rurl, args, now));
      sent := [];
    } else {
      var made;
      sent, made := FetchWithRetry(attempt, urlRetry);
      assert RetriedAt(attempt, urlRetry, sent[0], made);
    }
  }

  /** The systems that `system` recognises, in the order it tests them. */
  const SystemNames: seq<string> :=
    ["dbs", "rucio", "reqmgr", "mcm", "conddb", "phedex", "runregistry", "dashboard"]

  /** system: the first known system whose name occurs in the URL, or
      "combined" when none does. */
  function System(rurl: string): (r: string)
    ensures r in SystemNames || r == "combined"
  {
    if Contains(rurl, "dbs") then "dbs"
    else if Contains(rurl, "rucio") then "rucio"
    else if Contains(rurl, "reqmgr") then "reqmgr"
    else if Contains(rurl, "mcm") then "mcm"
    else if Contains(rurl, "conddb") then "conddb"
    else if Contains(rurl, "phedex") then "phedex"
    else if Contains(rurl, "runregistry") then "runregistry"
    else if Contains(rurl, "dashboard") then "dashboard"
    else "combined"
  }

  /** Response: the pieces `{"url":`, the URL, `,`, `"data":`, the data and
      `}` joined with single spaces. */
  function Response(rurl: string, data: string): (r: string)
    ensures r == "{\"url\": " + rurl + " , \"data\": " + data + " }"
    ensures |r| == |rurl| + |data| + 21
  {
    var tail := ["\"data\":", data, "}"];
    JoinCons("\"data\":", [data, "}"], " ");
    JoinCons(data, ["}"], " ");
    JoinCons(",", tail, " ");
    JoinCons(rurl, [","] + tail, " ");
    JoinCons("{\"url\":", [rurl, ","] + tail, " ");
    assert [rurl, ","] + tail == [rurl] + ([","] + tail);
    assert ["{\"url\":", rurl, ",", "\"data\":", data, "}"] == ["{\"url\":"] + ([rurl, ","] + tail);
    Join(["{\"url\":", rurl, ",", "\"data\":", data, "}"], " ")
  }

  /** system picks the first name in SystemNames that occurs in the URL, and
      "combined" exactly when none occurs; a URL mentioning both "dbs" and
      "rucio" is a DBS URL. */
  lemma SystemFirstMatch(rurl: string)
    ensures forall k ::
      (0 <= k < |SystemNames| && Contains(rurl, SystemNames[k]) &&
       forall j :: 0 <= j < k ==> !Contains(rurl, SystemNames[j]))
      ==> System(rurl) == SystemNames[k]
    ensures System(rurl) == "combined" <==> forall k :: 0 <= k < |SystemNames| ==> !Contains(rurl, SystemNames[k])
  {
    var n := SystemNames;
    assert n[0] == "dbs" && n[1] == "rucio" && n[2] == "reqmgr" && n[3] == "mcm";
    assert n[4] == "conddb" && n[5] == "phedex" && n[6] == "runregistry" && n[7] == "dashboard";
  }
}
