/** PhedexNodes (services/helpers.go): a cache of the PhEDEx nodes list,
    refreshed when it is empty or a day old, and the lookup of a site's
    node kind in it. The clock is the parameter `now` (Unix seconds) and
    the decoded reply of the nodes API (PhedexUnmarshal, not part of this
    model) is the parameter `fetched`. */
module PhedexCache {
  import opened Wrappers
  import opened Records
  import opened HelpersSite

  /** 24*60*60 seconds. */
  const CacheLifetime := 86400

  /** The cached list is used when it is non-empty and less than a day old. */
  predicate Fresh(nodes: seq<Record>, tstamp: int, now: int) {
    |nodes| != 0 && now - tstamp < CacheLifetime
  }

  /** A string field, or "" for any other value (the type switches of
      NodeType). */
  function StrField(rec: Record, key: string): string {
    match Get(rec, key)
    case Str(s) => s
    case _ => ""
  }

  /** The record describes `site`: by node name when the site looks like a
      node, by storage element when it looks like one. */
  predicate Describes(site: string, rec: Record) {
    (NodePattern(site) && StrField(rec, "name") == site) || (SePattern(site) && StrField(rec, "se") == site)
  }

  /** The kind of the first record that describes `site`, or "" when none
      does. */
  function FirstKind(site: string, nodes: seq<Record>): string {
    if |nodes| == 0 then ""
    else if Describes(site, nodes[0]) then StrField(nodes[0], "kind")
    else FirstKind(site, nodes[1..])
  }

  class PhedexNodes {
    var nodes: seq<Record>
    var tstamp: int

    constructor ()
      ensures nodes == [] && tstamp == 0
    {
      nodes := [];
      tstamp := 0;
    }

    /** Nodes: the cached list while it is fresh; otherwise the fetched list,
        stamped with `now`. A fetch that fails to decode panics and leaves
        the cache as it was. */
    method Nodes(now: int, fetched: Outcome<seq<Record>>) returns (out: Outcome<seq<Record>>)
      modifies this
      ensures Fresh(old(nodes), old(tstamp), now) ==> out == Ok(old(nodes)) && nodes == old(nodes) && tstamp == old(tstamp)
      ensures !Fresh(old(nodes), old(tstamp), now) && fetched.Ok? ==>
        out == Ok(fetched.value) && nodes == fetched.value && tstamp == now
      ensures !Fresh(old(nodes), old(tstamp), now) && fetched.Ok? && |fetched.value| != 0 ==>
        forall later :: now <= later < now + CacheLifetime ==> Fresh(nodes, tstamp, later)
      ensures !Fresh(old(nodes), old(tstamp), now) && fetched.Panic? ==>
        out == Panic(fetched.reason) && nodes == old(nodes) && tstamp == old(tstamp)
    {
      if |nodes| != 0 && now - tstamp < 24 * 60 * 60 {
        return Ok(nodes);
      }
      if fetched.Panic? {
        return Panic(fetched.reason);
      }
      nodes := fetched.value;
      tstamp := now;
      out := Ok(nodes);
    }

    /** NodeType: the kind of the first cached node that describes the site,
        or "" when none does. */
    method NodeType(site: string, now: int, fetched: Outcome<seq<Record>>) returns (out: Outcome<string>)
      modifies this
      ensures Fresh(old(nodes), old(tstamp), now) ==> nodes == old(nodes) && tstamp == old(tstamp)
      ensures !Fresh(old(nodes), old(tstamp), now) && fetched.Ok? ==> nodes == fetched.value && tstamp == now
      ensures !Fresh(old(nodes), old(tstamp), now) && fetched.Panic? ==>
        out == Panic(fetched.reason) && nodes == old(nodes) && tstamp == old(tstamp)
      ensures Fresh(old(nodes), old(tstamp), now) || fetched.Ok? ==> out == Ok(FirstKind(site, nodes))
    {
      var nodeMatch := NodePattern(site);
      var seMatch := SePattern(site);
      var list := Nodes(now, fetched);
      if list.Panic? {
        return Panic(list.reason);
      }
      var recs := list.value;
      var i := 0;
      while i < |recs|
        invariant 0 <= i <= |recs|
        invariant FirstKind(site, recs) == FirstKind(site, recs[i..])
      {
        var rec := recs[i];
        var seName := StrField(rec, "se");
        var siteName := StrField(rec, "name");
        var kind := StrField(rec, "kind");
        assert recs[i..][1..] == recs[i + 1..];
        if nodeMatch && siteName == site {
          return Ok(kind);
        } else if seMatch && seName == site {
          return Ok(kind);
        }
        i := i + 1;
      }
      out := Ok("");
    }
  }

  // ---------------------------------------------------------------------
  // Properties

  /** The position of the first record that describes the site. */
  function FirstMatch(site: string, nodes: seq<Record>): (i: nat)
    requires exists k :: 0 <= k < |nodes| && Describes(site, nodes[k])
    ensures i < |nodes| && Describes(site, nodes[i])
    ensures forall k :: 0 <= k < i ==> !Describes(site, nodes[k])
  {
    if Describes(site, nodes[0]) then 0
    else
      assert exists k :: 0 <= k < |nodes[1..]| && Describes(site, nodes[1..][k]) by {
        var k :| 0 <= k < |nodes| && Describes(site, nodes[k]);
        assert nodes[1..][k - 1] == nodes[k];
      }
      FirstMatch(site, nodes[1..]) + 1
  }

  /** NodeType answers the kind of the first describing record, and "" when
      no record describes the site. */
  lemma {:induction false} FirstKindIsFirstMatch(site: string, nodes: seq<Record>)
    ensures (exists k :: 0 <= k < |nodes| && Describes(site, nodes[k])) ==>
      FirstKind(site, nodes) == StrField(nodes[FirstMatch(site, nodes)], "kind")
    ensures (forall k :: 0 <= k < |nodes| ==> !Describes(site, nodes[k])) ==> FirstKind(site, nodes) == ""
  {
    if |nodes| > 0 {
      FirstKindIsFirstMatch(site, nodes[1..]);
      assert forall k :: 1 <= k < |nodes| ==> nodes[1..][k - 1] == nodes[k];
    }
  }

  /** A site that is neither a node name nor a storage element has kind "". */
  lemma UnmatchedSiteHasNoKind(site: string, nodes: seq<Record>)
    requires !NodePattern(site) && !SePattern(site)
    ensures FirstKind(site, nodes) == ""
  {
    FirstKindIsFirstMatch(site, nodes);
  }
}
