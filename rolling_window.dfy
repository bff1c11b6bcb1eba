/**
 * A fixed-capacity rolling window: the behaviour of a `deque(maxlen=cap)`
 * that is only ever appended to. Appending to a full window evicts the
 * oldest element, so the window always holds the last `cap` elements ever
 * appended, in arrival order.
 */
module RollingWindow {

  /** The last `n` elements of `s` (all of `s` when it is shorter): the reference definition of a window. */
  function Last<T>(s: seq<T>, n: nat): (r: seq<T>)
    ensures |r| <= n && |r| <= |s|
    ensures |s| <= n ==> r == s
    ensures |s| >= n ==> |r| == n
  {
    if |s| <= n then s else s[|s| - n..]
  }

  /**
   * `deque.append` on a deque with `maxlen == cap`: when the deque is full the
   * leftmost (oldest) element is dropped first. A deque never holds more than
   * its `maxlen`, hence the precondition.
   */
  function Append<T>(w: seq<T>, cap: nat, x: T): (r: seq<T>)
    requires |w| <= cap
    ensures |r| <= cap
    ensures r == Last(w + [x], cap)
    ensures cap > 0 ==> r[|r| - 1] == x
  {
    if |w| < cap then w + [x]
    else if cap == 0 then []
    else w[1..] + [x]
  }

  /** Appending the elements of `xs` one at a time, first to last. */
  function FoldWindow<T>(w: seq<T>, cap: nat, xs: seq<T>): (r: seq<T>)
    requires |w| <= cap
    ensures |r| <= cap
    decreases |xs|
  {
    if xs == [] then w
    else Append(FoldWindow(w, cap, xs[..|xs| - 1]), cap, xs[|xs| - 1])
  }

  /** Trimming to the last `n` elements before or after an append gives the same window. */
  lemma LastOfAppend<T>(s: seq<T>, n: nat, x: T)
    ensures Last(Last(s, n) + [x], n) == Last(s + [x], n)
  {
    if |s| > n {
      var t := s[|s| - n..];
      assert Last(s, n) == t;
      if n == 0 {
        assert Last(t + [x], n) == [] == Last(s + [x], n);
      } else {
        assert Last(t + [x], n) == (t + [x])[1..];
        assert Last(s + [x], n) == (s + [x])[|s| + 1 - n..];
        assert (t + [x])[1..] == s[|s| + 1 - n..] + [x];
        assert (s + [x])[|s| + 1 - n..] == s[|s| + 1 - n..] + [x];
      }
    }
  }

  /**
   * Folding a drained batch into a window keeps exactly the last `cap`
   * elements of the old window followed by the batch: nothing is reordered,
   * duplicated or lost except by oldest-first eviction.
   */
  lemma {:induction false} FoldWindowIsLast<T>(w: seq<T>, cap: nat, xs: seq<T>)
    requires |w| <= cap
    ensures FoldWindow(w, cap, xs) == Last(w + xs, cap)
    decreases |xs|
  {
    if xs == [] {
      assert w + xs == w;
    } else {
      var init, x := xs[..|xs| - 1], xs[|xs| - 1];
      calc {
        FoldWindow(w, cap, xs);
        Append(FoldWindow(w, cap, init), cap, x);
        Last(FoldWindow(w, cap, init) + [x], cap);
        { FoldWindowIsLast(w, cap, init); }
        Last(Last(w + init, cap) + [x], cap);
        { LastOfAppend(w + init, cap, x); }
        Last(w + init + [x], cap);
        { assert w + init + [x] == w + xs by { assert init + [x] == xs; } }
        Last(w + xs, cap);
      }
    }
  }

  /**
   * Trimming before appending a batch does not change the trimmed result:
   * draining in several ticks leaves the same window as draining once.
   */
  lemma {:induction false} LastOfConcat<T>(s: seq<T>, n: nat, ys: seq<T>)
    ensures Last(Last(s, n) + ys, n) == Last(s + ys, n)
    decreases |ys|
  {
    if ys != [] {
      var init, y := ys[..|ys| - 1], ys[|ys| - 1];
      LastOfConcat(s, n, init);
      calc {
        Last(Last(s, n) + ys, n);
        { assert Last(s, n) + ys == Last(s, n) + init + [y]; }
        Last(Last(s, n) + init + [y], n);
        { LastOfAppend(Last(s, n) + init, n, y); }
        Last(Last(Last(s, n) + init, n) + [y], n);
        Last(Last(s + init, n) + [y], n);
        { LastOfAppend(s + init, n, y); }
        Last(s + init + [y], n);
        { assert s + init + [y] == s + ys; }
        Last(s + ys, n);
      }
    } else {
      assert Last(s, n) + ys == Last(s, n);
      assert s + ys == s;
      if |s| > n { assert |Last(s, n)| == n; }
    }
  }
}
