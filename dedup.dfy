/** The first-seen de-duplication the helpers write inline:
    `if !utils.InList(x, out) { out = append(out, x) }` over a list.
    utils.InList is read as list membership. */
module Dedups {

  /** The elements of xs without repeats, each kept where it first occurs. */
  function Dedup<T(==)>(xs: seq<T>): seq<T> {
    if |xs| == 0 then []
    else
      var prev := Dedup(xs[..|xs| - 1]);
      if xs[|xs| - 1] in prev then prev else prev + [xs[|xs| - 1]]
  }

  /** The position where x first occurs in xs. */
  function FirstIndex<T(==)>(xs: seq<T>, x: T): (i: nat)
    requires x in xs
    ensures i < |xs| && xs[i] == x
    ensures forall j :: 0 <= j < i ==> xs[j] != x
  {
    var pre := xs[..|xs| - 1];
    if x in pre then
      var i := FirstIndex(pre, x);
      assert forall j :: 0 <= j <= i ==> pre[j] == xs[j];
      i
    else
      assert forall j :: 0 <= j < |pre| ==> pre[j] == xs[j];
      |xs| - 1
  }

  predicate NoRepeats<T(==)>(xs: seq<T>) {
    forall i, j :: 0 <= i < j < |xs| ==> xs[i] != xs[j]
  }

  /** One step of the inline loop. */
  lemma DedupStep<T>(xs: seq<T>, i: nat)
    requires i < |xs|
    ensures Dedup(xs[..i + 1]) == if xs[i] in Dedup(xs[..i]) then Dedup(xs[..i]) else Dedup(xs[..i]) + [xs[i]]
  {
    assert xs[..i + 1][..i] == xs[..i];
  }

  /** The result has no repeats, and holds exactly the elements of the input. */
  lemma {:induction false} DedupSet<T>(xs: seq<T>)
    ensures NoRepeats(Dedup(xs))
    ensures forall x :: x in Dedup(xs) <==> x in xs
  {
    if |xs| > 0 {
      var pre := xs[..|xs| - 1];
      DedupSet(pre);
      assert forall x :: x in xs <==> x in pre || x == xs[|xs| - 1];
    }
  }

  /** The result lists the elements in the order of their first occurrence. */
  lemma {:induction false} DedupFirstSeen<T>(xs: seq<T>)
    ensures forall x :: x in Dedup(xs) ==> x in xs
    ensures forall i, j :: 0 <= i < j < |Dedup(xs)| ==>
      FirstIndex(xs, Dedup(xs)[i]) < FirstIndex(xs, Dedup(xs)[j])
  {
    DedupSet(xs);
    if |xs| > 0 {
      var pre := xs[..|xs| - 1];
      var last := xs[|xs| - 1];
      DedupFirstSeen(pre);
      DedupSet(pre);
      var d := Dedup(xs);
      forall i, j | 0 <= i < j < |d|
        ensures FirstIndex(xs, d[i]) < FirstIndex(xs, d[j])
      {
        var dp := Dedup(pre);
        assert d[i] in dp;
        if j < |dp| {
          assert d[j] in dp && d[i] == dp[i] && d[j] == dp[j];
          assert FirstIndex(xs, d[i]) == FirstIndex(pre, d[i]);
          assert FirstIndex(xs, d[j]) == FirstIndex(pre, d[j]);
        } else {
          assert d[j] == last && last !in pre;
          assert FirstIndex(xs, d[i]) == FirstIndex(pre, d[i]);
        }
      }
    }
  }
}
