/** OrderByRunLumis (services/helpers.go): group (run, lumi list) pairs by
    run, concatenating the lumi lists of the same run in input order. The
    float64 run and lumi numbers are integers here. */
module RunLumis {
  import opened Sets

  /** One input row: its run number and its lumi section numbers. */
  type RunLumi = (int, seq<int>)

  /** The set of runs that occur in the rows. */
  function RunSet(rows: seq<RunLumi>): set<int> {
    set i | 0 <= i < |rows| :: rows[i].0
  }

  /** The lumis of `run`, concatenated in input order, duplicates kept. */
  function LumisOf(rows: seq<RunLumi>, run: int): seq<int> {
    if |rows| == 0 then []
    else LumisOf(rows[..|rows| - 1], run) + (if rows[|rows| - 1].0 == run then rows[|rows| - 1].1 else [])
  }

  /** Total number of lumis in the rows. */
  function Total(rows: seq<RunLumi>): nat {
    if |rows| == 0 then 0 else Total(rows[..|rows| - 1]) + |rows[|rows| - 1].1|
  }

  /** No run occurs twice. */
  predicate DistinctRuns(out: seq<RunLumi>) {
    forall i, j :: 0 <= i < j < |out| ==> out[i].0 != out[j].0
  }

  /** `out` groups `rows`: one entry per run that occurs, each run once,
      holding that run's lumis in input order. */
  predicate IsGrouping(rows: seq<RunLumi>, out: seq<RunLumi>) {
    && DistinctRuns(out)
    && (forall k :: 0 <= k < |out| ==> out[k].0 in RunSet(rows))
    && (forall run :: run in RunSet(rows) ==> exists k :: 0 <= k < |out| && out[k].0 == run)
    && (forall k :: 0 <= k < |out| ==> out[k].1 == LumisOf(rows, out[k].0))
  }

  /** A run that occurs nowhere has no lumis. */
  lemma {:induction false} LumisOfAbsent(rows: seq<RunLumi>, run: int)
    requires run !in RunSet(rows)
    ensures LumisOf(rows, run) == []
  {
    if |rows| > 0 {
      var pre := rows[..|rows| - 1];
      assert RunSet(pre) <= RunSet(rows) by {
        forall x | x in RunSet(pre) ensures x in RunSet(rows) {
          var i :| 0 <= i < |pre| && pre[i].0 == x;
          assert rows[i].0 == x;
        }
      }
      LumisOfAbsent(pre, run);
      assert rows[|rows| - 1].0 in RunSet(rows);
    }
  }

  lemma RunSetStep(rows: seq<RunLumi>)
    requires |rows| > 0
    ensures RunSet(rows) == RunSet(rows[..|rows| - 1]) + {rows[|rows| - 1].0}
  {
    var pre := rows[..|rows| - 1];
    forall x | x in RunSet(rows) ensures x in RunSet(pre) + {rows[|rows| - 1].0} {
      var i :| 0 <= i < |rows| && rows[i].0 == x;
      if i < |pre| { assert pre[i].0 == x; }
    }
    forall x | x in RunSet(pre) ensures x in RunSet(rows) {
      var i :| 0 <= i < |pre| && pre[i].0 == x;
      assert rows[i].0 == x;
    }
  }

  /** OrderByRunLumis: accumulate the lumis per run in a map, then emit one
      row per map entry. Go ranges over the map in an unspecified order;
      the model picks the next run arbitrarily. */
  method OrderByRunLumis(rows: seq<RunLumi>) returns (out: seq<RunLumi>)
    ensures IsGrouping(rows, out)
  {
    var rmap: map<int, seq<int>> := map[];
    for i := 0 to |rows|
      invariant rmap.Keys == RunSet(rows[..i])
      invariant forall run :: run in rmap ==> rmap[run] == LumisOf(rows[..i], run)
    {
      var (run, lumiList) := rows[i];
      GroupStep(rows, i, rmap);
      if run in rmap {
        rmap := rmap[run := rmap[run] + lumiList];
      } else {
        rmap := rmap[run := lumiList];
      }
    }
    assert rows[..|rows|] == rows;
    out := EmitGroups(rmap);
  }

  /** The emission loop: one row per map entry, in an arbitrary order. */
  method EmitGroups(rmap: map<int, seq<int>>) returns (out: seq<RunLumi>)
    ensures DistinctRuns(out)
    ensures forall k :: 0 <= k < |out| ==> out[k].0 in rmap && out[k].1 == rmap[out[k].0]
    ensures forall run :: run in rmap ==> exists k :: 0 <= k < |out| && out[k].0 == run
  {
    out := [];
    var remaining := rmap.Keys;
    while remaining != {}
      invariant remaining <= rmap.Keys
      invariant DistinctRuns(out)
      invariant forall k :: 0 <= k < |out| ==> out[k].0 in rmap && out[k].0 !in remaining
      invariant forall run :: run in rmap && run !in remaining ==> exists k :: 0 <= k < |out| && out[k].0 == run
      invariant forall k :: 0 <= k < |out| ==> out[k].1 == rmap[out[k].0]
      decreases |remaining|
    {
      ghost var some := Member(remaining);
      var next :| next in remaining;
      ghost var before := out;
      out := out + [(next, rmap[next])];
      assert forall k :: 0 <= k < |before| ==> out[k] == before[k];
      ghost var left := remaining;
      remaining := remaining - {next};
      forall r | r in rmap && r !in remaining
        ensures exists k :: 0 <= k < |out| && out[k].0 == r
      {
        if r == next {
          assert out[|before|].0 == next;
        } else {
          assert r !in left;
          var k :| 0 <= k < |before| && before[k].0 == r;
          assert out[k].0 == r;
        }
      }
    }
  }

  /** One step of the accumulation loop: the map stays the grouping of
      the rows seen so far. */
  lemma GroupStep(rows: seq<RunLumi>, i: nat, rmap: map<int, seq<int>>)
    requires i < |rows|
    requires rmap.Keys == RunSet(rows[..i])
    requires forall run :: run in rmap ==> rmap[run] == LumisOf(rows[..i], run)
    ensures
      var (x, lumis) := rows[i];
      var next := if x in rmap then rmap[x := rmap[x] + lumis] else rmap[x := lumis];
      && next.Keys == RunSet(rows[..i + 1])
      && forall run :: run in next ==> next[run] == LumisOf(rows[..i + 1], run)
  {
    assert rows[..i + 1][..i] == rows[..i];
    RunSetStep(rows[..i + 1]);
    if rows[i].0 !in rmap {
      LumisOfAbsent(rows[..i], rows[i].0);
    }
  }

  /** The runs of the output rows, in output order. */
  function RunsOf(out: seq<RunLumi>): seq<int> {
    if |out| == 0 then [] else RunsOf(out[..|out| - 1]) + [out[|out| - 1].0]
  }

  /** Sum, over a list of runs, of the number of lumis each run has. */
  function SumOver(rows: seq<RunLumi>, runs: seq<int>): nat {
    if |runs| == 0 then 0
    else SumOver(rows, runs[..|runs| - 1]) + |LumisOf(rows, runs[|runs| - 1])|
  }

  lemma {:induction false} SumOverEmpty(runs: seq<int>)
    ensures SumOver([], runs) == 0
  {
    if |runs| > 0 {
      SumOverEmpty(runs[..|runs| - 1]);
    }
  }

  /** Adding a row adds its lumi count to the sum exactly when its run is
      in the (repetition-free) list. */
  lemma {:induction false} SumOverStep(rows: seq<RunLumi>, runs: seq<int>)
    requires |rows| > 0
    requires forall i, j :: 0 <= i < j < |runs| ==> runs[i] != runs[j]
    ensures SumOver(rows, runs) ==
      SumOver(rows[..|rows| - 1], runs) + (if rows[|rows| - 1].0 in runs then |rows[|rows| - 1].1| else 0)
  {
    if |runs| > 0 {
      var pre := runs[..|runs| - 1];
      SumOverStep(rows, pre);
      var x := rows[|rows| - 1].0;
      if runs[|runs| - 1] == x {
        assert x !in pre;
      }
      assert x in runs <==> x in pre || runs[|runs| - 1] == x;
    }
  }

  /** Summing the grouped lumi counts over a repetition-free list that
      covers every run gives the total lumi count. */
  lemma {:induction false} SumOverCovering(rows: seq<RunLumi>, runs: seq<int>)
    requires forall i, j :: 0 <= i < j < |runs| ==> runs[i] != runs[j]
    requires forall i :: 0 <= i < |rows| ==> rows[i].0 in runs
    ensures SumOver(rows, runs) == Total(rows)
  {
    if |rows| == 0 {
      SumOverEmpty(runs);
    } else {
      SumOverCovering(rows[..|rows| - 1], runs);
      SumOverStep(rows, runs);
    }
  }

  lemma {:induction false} RunsOfAt(out: seq<RunLumi>)
    ensures |RunsOf(out)| == |out|
    ensures forall k :: 0 <= k < |out| ==> RunsOf(out)[k] == out[k].0
  {
    if |out| > 0 {
      RunsOfAt(out[..|out| - 1]);
    }
  }

  lemma {:induction false} TotalIsSum(rows: seq<RunLumi>, out: seq<RunLumi>)
    requires forall k :: 0 <= k < |out| ==> out[k].1 == LumisOf(rows, out[k].0)
    ensures Total(out) == SumOver(rows, RunsOf(out))
  {
    if |out| > 0 {
      var pre := out[..|out| - 1];
      TotalIsSum(rows, pre);
      var x := out[|out| - 1].0;
      assert RunsOf(out) == RunsOf(pre) + [x];
      assert (RunsOf(pre) + [x])[..|RunsOf(pre)|] == RunsOf(pre);
    }
  }

  /** Every output the grouping may produce holds as many lumis as the
      input, and each distinct run exactly once. */
  lemma Conservation(rows: seq<RunLumi>, out: seq<RunLumi>)
    requires IsGrouping(rows, out)
    ensures Total(out) == Total(rows)
    ensures |out| == |RunSet(rows)|
  {
    RunsOfAt(out);
    var runs := RunsOf(out);
    forall i | 0 <= i < |rows| ensures rows[i].0 in runs {
      assert rows[i].0 in RunSet(rows);
      var k :| 0 <= k < |out| && out[k].0 == rows[i].0;
      assert runs[k] == rows[i].0;
    }
    SumOverCovering(rows, runs);
    TotalIsSum(rows, out);
    DistinctCount(runs, RunSet(rows));
  }

  /** A repetition-free list whose elements are exactly a set has the
      set's size. */
  lemma {:induction false} DistinctCount(runs: seq<int>, s: set<int>)
    requires forall i, j :: 0 <= i < j < |runs| ==> runs[i] != runs[j]
    requires forall x :: x in s <==> x in runs
    ensures |runs| == |s|
  {
    if |runs| > 0 {
      var last := runs[|runs| - 1];
      var pre := runs[..|runs| - 1];
      assert last !in pre;
      forall x ensures x in s - {last} <==> x in pre {
        if x in runs && x != last {
          var i :| 0 <= i < |runs| && runs[i] == x;
          assert i < |pre|;
          assert pre[i] == x;
        }
      }
      DistinctCount(pre, s - {last});
    } else {
      assert forall x :: x !in s;
      assert s == {};
    }
  }

  /** The grouping is determined up to order: any two groupings of the same
      rows hold the same entries. */
  lemma GroupingsAgree(rows: seq<RunLumi>, a: seq<RunLumi>, b: seq<RunLumi>)
    requires IsGrouping(rows, a) && IsGrouping(rows, b)
    ensures |a| == |b|
    ensures forall x :: x in a <==> x in b
  {
    Conservation(rows, a);
    Conservation(rows, b);
    forall x | x in a ensures x in b {
      var i :| 0 <= i < |a| && a[i] == x;
      var k :| 0 <= k < |b| && b[k].0 == x.0;
    }
    forall x | x in b ensures x in a {
      var i :| 0 <= i < |b| && b[i] == x;
      var k :| 0 <= k < |a| && a[k].0 == x.0;
    }
  }
}
