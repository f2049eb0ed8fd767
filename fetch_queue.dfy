/** The URL request queue of utils/fetch.go: a slice of requests that
    implements heap.Interface ordered by submission time, driven by the
    container/heap sift-up and sift-down, and the admission test of
    URLFetchWorker's dispatch loop. */
module FetchQueue {
  import opened Wrappers

  /** UrlRequest: the URL, the POST body and the submission timestamp. The
      reply channel and the HTTP client travel with the request but play no
      part in the ordering, so they are not modelled. */
  datatype UrlRequest = UrlRequest(rurl: string, args: string, ts: int)

  /** Index of the parent of a non-root node, (j - 1) / 2 in Go. */
  function Parent(j: nat): nat
    requires j > 0
  {
    (j - 1) / 2
  }

  /** Every non-root element of the first n is not earlier than its parent. */
  ghost predicate HeapPrefix(s: seq<UrlRequest>, n: nat)
    requires n <= |s|
  {
    forall j :: 0 < j < n ==> s[Parent(j)].ts <= s[j].ts
  }

  ghost predicate HeapOrdered(s: seq<UrlRequest>) {
    HeapPrefix(s, |s|)
  }

  /** The root of a heap-ordered queue has the smallest timestamp. */
  lemma {:induction false} RootIsMin(s: seq<UrlRequest>, k: nat)
    requires HeapOrdered(s)
    requires k < |s|
    ensures s[0].ts <= s[k].ts
    decreases k
  {
    if k > 0 {
      RootIsMin(s, Parent(k));
    }
  }

  /** Swapping two positions keeps the multiset of requests. */
  lemma SwapPreserves(s: seq<UrlRequest>, i: nat, j: nat)
    requires i < |s| && j < |s|
    ensures multiset(s[i := s[j]][j := s[i]]) == multiset(s)
  {
    if i != j {
      var t := s[i := s[j]];
      assert multiset(t) == multiset(s) - multiset{s[i]} + multiset{s[j]};
      assert multiset(t[j := s[i]]) == multiset(t) - multiset{s[j]} + multiset{s[i]};
    }
  }

  /** The first n elements are heap-ordered except below position i, and
      the children of i are not earlier than the parent of i. */
  ghost predicate HoleAt(s: seq<UrlRequest>, n: nat, i: nat)
    requires n <= |s|
  {
    && (forall j :: 0 < j < n && Parent(j) != i ==> s[Parent(j)].ts <= s[j].ts)
    && (i > 0 ==> forall c :: 0 < c < n && Parent(c) == i ==> s[Parent(i)].ts <= s[c].ts)
  }

  /** One step of the sift-down: swapping i with its earlier child j, which
      is earlier than i, moves the hole down to j. */
  lemma DownStep(s: seq<UrlRequest>, n: nat, i: nat, j: nat)
    requires n <= |s| && i < j < n
    requires j == 2 * i + 1 || j == 2 * i + 2
    requires HoleAt(s, n, i)
    requires s[j].ts < s[i].ts
    requires 2 * i + 2 < n ==> s[j].ts <= s[2 * i + 1].ts && s[j].ts <= s[2 * i + 2].ts
    ensures HoleAt(s[i := s[j]][j := s[i]], n, j)
  {
    var t := s[i := s[j]][j := s[i]];
    assert Parent(j) == i;
    forall k | 0 < k < n && Parent(k) != j
      ensures t[Parent(k)].ts <= t[k].ts
    {
      if k == j {
      } else if Parent(k) == i {
        assert k == 2 * i + 1 || k == 2 * i + 2;
      } else if k == i {
        assert t[k] == s[j];
      }
    }
    forall c | 0 < c < n && Parent(c) == j
      ensures t[Parent(j)].ts <= t[c].ts
    {
      assert t[c] == s[c];
    }
  }

  /** UrlFetchQueue, a slice of request pointers updated in place. */
  class UrlFetchQueue {
    var items: seq<UrlRequest>

    constructor ()
      ensures items == []
    {
      items := [];
    }

    function Len(): (n: nat)
      reads this
      ensures n == |items|
    {
      |items|
    }

    /** Less orders by submission timestamp only. */
    predicate Less(i: nat, j: nat)
      reads this
      requires i < |items| && j < |items|
    {
      items[i].ts < items[j].ts
    }

    method Swap(i: nat, j: nat)
      requires i < |items| && j < |items|
      modifies this
      ensures items == old(items)[i := old(items)[j]][j := old(items)[i]]
      ensures |items| == |old(items)|
      ensures multiset(items) == multiset(old(items))
    {
      SwapPreserves(items, i, j);
      items := items[i := items[j]][j := items[i]];
    }

    /** heap.Interface Push: append at the end. */
    method Push(x: UrlRequest)
      modifies this
      ensures items == old(items) + [x]
    {
      items := items + [x];
    }

    /** heap.Interface Pop: remove and return the last element. */
    method Pop() returns (x: UrlRequest)
      requires |items| > 0
      modifies this
      ensures x == old(items)[|old(items)| - 1]
      ensures items == old(items)[..|old(items)| - 1]
    {
      x := items[|items| - 1];
      items := items[..|items| - 1];
    }

    /** container/heap up: move the element at j towards the root while it
        is earlier than its parent. Go's (j - 1) / 2 is 0 at j == 0, where
        the loop stops because the parent equals j. */
    method Up(j0: nat)
      requires j0 < |items|
      requires forall j :: 0 < j < |items| && j != j0 ==> items[Parent(j)].ts <= items[j].ts
      requires j0 > 0 ==> forall c :: 0 < c < |items| && Parent(c) == j0 ==> items[Parent(j0)].ts <= items[c].ts
      modifies this
      ensures |items| == |old(items)|
      ensures HeapOrdered(items)
      ensures multiset(items) == multiset(old(items))
    {
      var j: nat := j0;
      while true
        invariant j < |items| == |old(items)|
        invariant multiset(items) == multiset(old(items))
        invariant forall k :: 0 < k < |items| && k != j ==> items[Parent(k)].ts <= items[k].ts
        invariant j > 0 ==> forall c :: 0 < c < |items| && Parent(c) == j ==> items[Parent(j)].ts <= items[c].ts
        decreases j
      {
        var i: nat := if j == 0 then 0 else Parent(j);
        if i == j || !Less(j, i) {
          break;
        }
        Swap(i, j);
        j := i;
      }
    }

    /** container/heap down from the root over the first n elements: move the
        element at the root towards the leaves while a child is earlier. */
    method Down(n: nat)
      requires n <= |items|
      requires forall j :: 0 < j < n && Parent(j) != 0 ==> items[Parent(j)].ts <= items[j].ts
      modifies this
      ensures |items| == |old(items)|
      ensures HeapPrefix(items, n)
      ensures items[n..] == old(items)[n..]
      ensures multiset(items) == multiset(old(items))
    {
      var i: nat := 0;
      while true
        invariant i < n || (i == 0 && n == 0)
        invariant n <= |items| == |old(items)|
        invariant items[n..] == old(items)[n..]
        invariant multiset(items) == multiset(old(items))
        invariant HoleAt(items, n, i)
        decreases n - i
      {
        var j1 := 2 * i + 1;
        if j1 >= n {
          break;
        }
        var j := j1;
        var j2 := j1 + 1;
        if j2 < n && Less(j2, j1) {
          j := j2;
        }
        if !Less(j, i) {
          break;
        }
        ghost var before := items;
        DownStep(items, n, i, j);
        Swap(i, j);
        assert items[n..] == before[n..];
        i := j;
      }
    }

    /** heap.Push: append, then sift the new element up. */
    method HeapPush(x: UrlRequest)
      requires HeapOrdered(items)
      modifies this
      ensures HeapOrdered(items)
      ensures |items| == |old(items)| + 1
      ensures multiset(items) == multiset(old(items)) + multiset{x}
    {
      Push(x);
      assert forall j :: 0 < j < |items| - 1 ==> items[Parent(j)].ts <= items[j].ts;
      Up(|items| - 1);
    }

    /** heap.Pop: swap the root with the last element, sift the new root
        down over the others, then remove the last element, which is the
        earliest request of the queue. */
    method HeapPop() returns (x: UrlRequest)
      requires HeapOrdered(items)
      requires |items| > 0
      modifies this
      ensures HeapOrdered(items)
      ensures |items| == |old(items)| - 1
      ensures multiset(items) + multiset{x} == multiset(old(items))
      ensures x in old(items)
      ensures forall k :: 0 <= k < |old(items)| ==> x.ts <= old(items)[k].ts
    {
      forall k | 0 <= k < |items| ensures items[0].ts <= items[k].ts {
        RootIsMin(items, k);
      }
      var n := |items| - 1;
      ghost var root := items[0];
      Swap(0, n);
      Down(n);
      assert items[n] == root;
      ghost var full := items;
      x := Pop();
      assert full == items + [x];
      assert multiset(full) == multiset(items) + multiset{x};
      assert x in multiset(old(items));
    }

    /** One pass of the dispatch loop's default branch: a request is taken
        from the queue only when the queue is non-empty and fewer requests
        are running than the limit allows; otherwise nothing changes. */
    method Dispatch(urlQueueSize: int, urlQueueLimit: int) returns (taken: Option<UrlRequest>)
      requires HeapOrdered(items)
      modifies this
      ensures taken.Some? <==> |old(items)| > 0 && urlQueueSize < urlQueueLimit
      ensures taken.None? ==> items == old(items)
      ensures HeapOrdered(items)
      ensures taken.Some? ==> |items| == |old(items)| - 1
      ensures taken.Some? ==> multiset(items) + multiset{taken.value} == multiset(old(items))
      ensures taken.Some? ==> forall k :: 0 <= k < |old(items)| ==> taken.value.ts <= old(items)[k].ts
    {
      if Len() > 0 && urlQueueSize < urlQueueLimit {
        var r := HeapPop();
        taken := Some(r);
      } else {
        taken := None;
      }
    }
  }
}
