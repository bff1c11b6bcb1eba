/**
 * The shared timestamp axis of the FFT charts: a rolling window of integer
 * timestamps that only accepts a timestamp later than its newest entry, and
 * the way a series is aligned to it for plotting (Python's `ts[-n:]`).
 */
module TimestampAxis {
  import opened RollingWindow

  predicate Increasing(ts: seq<int>) {
    forall i, j :: 0 <= i < j < |ts| ==> ts[i] < ts[j]
  }

  /** The monotonicity filter: the axis is empty or `t` is later than its newest entry. */
  predicate IsNewer(t: int, ts: seq<int>) {
    ts == [] || t > ts[|ts| - 1]
  }

  /** One step of the filter: append `t` to the bounded axis only when it is newer. */
  function AppendIfNewer(ts: seq<int>, cap: nat, t: int): (r: seq<int>)
    requires |ts| <= cap
    ensures |r| <= cap
    ensures !IsNewer(t, ts) ==> r == ts
    ensures IsNewer(t, ts) && cap > 0 ==> r != [] && r[|r| - 1] == t
  {
    if IsNewer(t, ts) then Append(ts, cap, t) else ts
  }

  /** A suffix of an increasing sequence is increasing. */
  lemma IncreasingSuffix(s: seq<int>, k: nat)
    requires Increasing(s) && k <= |s|
    ensures Increasing(s[k..])
  {
    forall i, j | 0 <= i < j < |s| - k ensures s[k..][i] < s[k..][j] {
      assert s[k..][i] == s[k + i] && s[k..][j] == s[k + j];
    }
  }

  /** Appending a newer timestamp to an increasing bounded axis keeps it increasing. */
  lemma IncreasingAfterNewer(ts: seq<int>, cap: nat, t: int)
    requires |ts| <= cap && IsNewer(t, ts)
    ensures Increasing(ts) ==> Increasing(Append(ts, cap, t))
  {
    if Increasing(ts) {
      var s := ts + [t];
      assert Increasing(s) by {
        forall i, j | 0 <= i < j < |s| ensures s[i] < s[j] {
          assert s[i] == ts[i];
          if j < |ts| {
            assert s[j] == ts[j];
          } else if i < |ts| - 1 {
            assert ts[i] < ts[|ts| - 1];
          }
        }
      }
      var r := Append(ts, cap, t);
      assert r == s[|s| - |r|..];
      IncreasingSuffix(s, |s| - |r|);
    }
  }

  /** Offering the timestamps `xs` to the axis one at a time, first to last. */
  function FoldNewer(ts: seq<int>, cap: nat, xs: seq<int>): (r: seq<int>)
    requires |ts| <= cap
    ensures |r| <= cap
    decreases |xs|
  {
    if xs == [] then ts
    else AppendIfNewer(FoldNewer(ts, cap, xs[..|xs| - 1]), cap, xs[|xs| - 1])
  }

  /** The filter keeps the axis strictly increasing, whatever order the timestamps arrive in. */
  lemma {:induction false} FoldNewerIncreasing(ts: seq<int>, cap: nat, xs: seq<int>)
    requires |ts| <= cap && Increasing(ts)
    ensures Increasing(FoldNewer(ts, cap, xs))
    decreases |xs|
  {
    if xs != [] {
      var p := FoldNewer(ts, cap, xs[..|xs| - 1]);
      FoldNewerIncreasing(ts, cap, xs[..|xs| - 1]);
      if IsNewer(xs[|xs| - 1], p) {
        IncreasingAfterNewer(p, cap, xs[|xs| - 1]);
      }
    }
  }

  /**
   * `xs[i]` is a record: later than the axis' newest entry and strictly
   * later than every timestamp offered before it.
   */
  predicate IsRecord(ts: seq<int>, xs: seq<int>, i: int)
    requires 0 <= i < |xs|
  {
    (ts == [] || xs[i] > ts[|ts| - 1]) && forall j :: 0 <= j < i ==> xs[j] < xs[i]
  }

  /** The records among `xs`, in order: an independent description of what the filter admits. */
  function Records(ts: seq<int>, xs: seq<int>): seq<int>
    decreases |xs|
  {
    if xs == [] then []
    else Records(ts, xs[..|xs| - 1]) + (if IsRecord(ts, xs, |xs| - 1) then [xs[|xs| - 1]] else [])
  }

  /** The newest entry of the axis extended by the records bounds every offered timestamp and comes from the axis or from `xs`. */
  lemma {:induction false} RecordsTop(ts: seq<int>, xs: seq<int>)
    ensures var s := ts + Records(ts, xs);
      && (s == [] <==> ts == [] && xs == [])
      && (s != [] ==> forall j :: 0 <= j < |xs| ==> xs[j] <= s[|s| - 1])
      && (s != [] && ts != [] ==> s[|s| - 1] >= ts[|ts| - 1])
      && (s != [] ==> (Records(ts, xs) == [] && s[|s| - 1] == ts[|ts| - 1])
                      || (exists j :: 0 <= j < |xs| && xs[j] == s[|s| - 1]))
    decreases |xs|
  {
    if xs != [] {
      var n := |xs| - 1;
      var init := xs[..n];
      RecordsTop(ts, init);
      var r0 := Records(ts, init);
      var s0 := ts + r0;
      var s := ts + Records(ts, xs);
      // an offered timestamp above the top of the axis so far is a record
      if IsNewer(xs[n], s0) {
        forall j | 0 <= j < n ensures xs[j] < xs[n] {
          assert xs[j] == init[j];
        }
      }
      if IsRecord(ts, xs, n) {
        assert Records(ts, xs) == r0 + [xs[n]];
        assert s == s0 + [xs[n]];
        assert s[|s| - 1] == xs[n];
        forall j | 0 <= j < |xs| ensures xs[j] <= s[|s| - 1] {
          if j < n { assert xs[j] == init[j]; }
        }
      } else {
        assert Records(ts, xs) == r0;
        assert s == s0;
        assert s0 != [] && xs[n] <= s0[|s0| - 1];
        forall j | 0 <= j < |xs| ensures xs[j] <= s[|s| - 1] {
          if j < n { assert xs[j] == init[j]; }
        }
        if r0 != [] {
          var j :| 0 <= j < |init| && init[j] == s0[|s0| - 1];
          assert xs[j] == s[|s| - 1];
        }
      }
    }
  }

  /** The filter's test on the axis so far is exactly the record test on the offered sequence. */
  lemma IsNewerIsRecord(ts: seq<int>, xs: seq<int>)
    requires xs != []
    ensures IsNewer(xs[|xs| - 1], ts + Records(ts, xs[..|xs| - 1])) <==> IsRecord(ts, xs, |xs| - 1)
  {
    var n := |xs| - 1;
    var init := xs[..n];
    var s := ts + Records(ts, init);
    RecordsTop(ts, init);
    if IsNewer(xs[n], s) {
      forall j | 0 <= j < n ensures xs[j] < xs[n] {
        assert xs[j] == init[j];
      }
    }
    if IsRecord(ts, xs, n) && s != [] {
      if Records(ts, init) == [] && s[|s| - 1] == ts[|ts| - 1] {
      } else {
        var j :| 0 <= j < |init| && init[j] == s[|s| - 1];
        assert xs[j] == init[j];
      }
    }
  }

  /**
   * After offering `xs`, the axis holds the last `cap` entries of the old axis
   * followed by the records of `xs`: a timestamp is kept exactly when it is
   * later than everything before it.
   */
  lemma {:induction false} FoldNewerIsLastOfRecords(ts: seq<int>, cap: nat, xs: seq<int>)
    requires |ts| <= cap && cap > 0
    ensures FoldNewer(ts, cap, xs) == Last(ts + Records(ts, xs), cap)
    decreases |xs|
  {
    if xs == [] {
      assert ts + Records(ts, xs) == ts;
    } else {
      var n := |xs| - 1;
      var init, x := xs[..n], xs[n];
      var r0 := Records(ts, init);
      var s := ts + r0;
      assert s + [x] == ts + (r0 + [x]);
      FoldNewerIsLastOfRecords(ts, cap, init);
      var p := FoldNewer(ts, cap, init);
      assert p == Last(s, cap);
      assert IsNewer(x, p) <==> IsNewer(x, s) by {
        if s != [] {
          assert p != [] && p[|p| - 1] == s[|s| - 1];
        }
      }
      IsNewerIsRecord(ts, xs);
      if IsRecord(ts, xs, n) {
        assert Records(ts, xs) == r0 + [x];
        LastOfAppend(s, cap, x);
      } else {
        assert Records(ts, xs) == r0;
      }
    }
  }

  /**
   * The x-axis for a series of `n` points: `ts[-n:]` in Python, which is the
   * whole list when `n` is 0 or at least `|ts|`.
   */
  function AlignedTimes(ts: seq<int>, n: nat): (r: seq<int>)
    ensures |r| <= |ts| && r == ts[|ts| - |r|..]
    ensures n == 0 ==> r == ts
    ensures n > 0 ==> r == Last(ts, n)
    ensures n > 0 ==> |r| == if n <= |ts| then n else |ts|
    ensures Increasing(ts) ==> Increasing(r)
  {
    if n == 0 || n >= |ts| then ts else ts[|ts| - n..]
  }
}
