/** The per-gesture stabilisation filter: a bounded FIFO window of the most
    recent raw signal values and a boolean latched with two thresholds
    (a Schmitt trigger). `StableScore` is the object the detector mutates;
    `Filter`, `Step` and `Run` are its value-level specification. */
module Stabilizer {

  /** The observable state of one filter: its capacity, the window contents
      (oldest first) and the latched boolean. */
  datatype Filter = Filter(capacity: nat, history: seq<real>, state: bool)

  /** A filter whose window respects its (positive) capacity. */
  predicate WellFormed(f: Filter) {
    0 < f.capacity && |f.history| <= f.capacity
  }

  /** A filter as built: an empty window and the latch off. */
  function Fresh(capacity: nat): Filter {
    Filter(capacity, [], false)
  }

  /** Left-to-right sum, as `sum` adds the window's elements. */
  function Sum(s: seq<real>): real {
    if s == [] then 0.0 else Sum(s[..|s| - 1]) + s[|s| - 1]
  }

  /** The arithmetic mean of a non-empty window. */
  function Mean(s: seq<real>): (m: real)
    requires s != []
    ensures m * (|s| as real) == Sum(s)
  {
    Sum(s) / (|s| as real)
  }

  /** The last min(|s|, n) elements of s, in order. */
  function LastN(s: seq<real>, n: nat): (r: seq<real>)
    ensures |r| == if |s| <= n then |s| else n
  {
    if |s| <= n then s else s[|s| - n..]
  }

  /** Appending to a window bounded by n: when it is full the oldest value
      is evicted. The result is the last n values of the window extended
      with x. */
  function Push(window: seq<real>, n: nat, x: real): (r: seq<real>)
    requires 0 < n && |window| <= n
    ensures r == LastN(window + [x], n)
    ensures |r| <= n && r != [] && r[|r| - 1] == x
  {
    if |window| < n then window + [x] else window[1..] + [x]
  }

  /** The hysteresis rule: switch on only from off and strictly above
      `high`, switch off only from on and strictly below `low`. */
  function Latch(state: bool, smoothed: real, high: real, low: real): (r: bool)
    ensures !state ==> (r <==> smoothed > high)
    ensures state ==> (!r <==> smoothed < low)
  {
    if !state && smoothed > high then true
    else if state && smoothed < low then false
    else state
  }

  /** One update of a filter: push the value, average the window and apply
      the hysteresis rule to that average. */
  function Step(f: Filter, x: real, high: real, low: real): (r: Filter)
    requires WellFormed(f)
    ensures WellFormed(r) && r.capacity == f.capacity && r.history != []
    ensures r.history == LastN(f.history + [x], f.capacity)
    ensures r.state == Latch(f.state, Mean(r.history), high, low)
  {
    var window := Push(f.history, f.capacity, x);
    Filter(f.capacity, window, Latch(f.state, Mean(window), high, low))
  }

  /** A run of updates with fixed thresholds, oldest value first. */
  function Run(f: Filter, xs: seq<real>, high: real, low: real): (r: Filter)
    requires WellFormed(f)
    ensures WellFormed(r) && r.capacity == f.capacity
    decreases |xs|
  {
    if xs == [] then f
    else Run(Step(f, xs[0], high, low), xs[1..], high, low)
  }

  /** Every element of s lies in [lo, hi]. */
  predicate InRange(s: seq<real>, lo: real, hi: real) {
    forall i :: 0 <= i < |s| ==> lo <= s[i] <= hi
  }

  /** Every element of s lies strictly above lo. */
  predicate Above(s: seq<real>, lo: real) {
    forall i :: 0 <= i < |s| ==> lo < s[i]
  }

  /** Cutting a window to its last n values before appending more loses
      nothing once the result is cut to n again. */
  lemma LastNAppend(s: seq<real>, t: seq<real>, n: nat)
    requires 0 < n
    ensures LastN(LastN(s, n) + t, n) == LastN(s + t, n)
  {
    var w := LastN(s, n);
    var lhs := LastN(w + t, n);
    var rhs := LastN(s + t, n);
    assert |lhs| == |rhs|;
    forall k | 0 <= k < |lhs| ensures lhs[k] == rhs[k] {
      var j := |w + t| - |lhs| + k;
      if j >= |w| {
        assert lhs[k] == t[j - |w|];
        assert rhs[k] == (s + t)[|s + t| - |rhs| + k];
      } else {
        assert lhs[k] == w[j];
        assert rhs[k] == s[|s| + |t| - |rhs| + k];
      }
    }
  }

  /** Window bound: after any run of updates the window holds exactly the
      last `capacity` values of everything it has seen, oldest first. */
  lemma {:induction false} RunWindow(f: Filter, xs: seq<real>, high: real, low: real)
    requires WellFormed(f)
    ensures Run(f, xs, high, low).history == LastN(f.history + xs, f.capacity)
    decreases |xs|
  {
    if xs == [] {
      assert f.history + xs == f.history;
    } else {
      var f1 := Step(f, xs[0], high, low);
      RunWindow(f1, xs[1..], high, low);
      LastNAppend(f.history + [xs[0]], xs[1..], f.capacity);
      ConsAppend(f.history, xs);
    }
  }

  /** Appending a non-empty sequence is appending its head, then its tail. */
  lemma ConsAppend(h: seq<real>, xs: seq<real>)
    requires xs != []
    ensures h + [xs[0]] + xs[1..] == h + xs
  {
    assert [xs[0]] + xs[1..] == xs;
  }

  /** Bounds on the sum of values that all lie in [lo, hi]. */
  lemma {:induction false} SumBounds(s: seq<real>, lo: real, hi: real)
    requires InRange(s, lo, hi)
    ensures (|s| as real) * lo <= Sum(s) <= (|s| as real) * hi
    decreases |s|
  {
    if s != [] {
      var init := s[..|s| - 1];
      var n := |init| as real;
      assert InRange(init, lo, hi) by {
        forall i | 0 <= i < |init| ensures lo <= init[i] <= hi {
          assert init[i] == s[i];
        }
      }
      SumBounds(init, lo, hi);
      assert Sum(s) == Sum(init) + s[|s| - 1];
      assert (|s| as real) * lo == n * lo + lo && (|s| as real) * hi == n * hi + hi;
    }
  }

  /** The mean of values that all lie in [lo, hi] lies in [lo, hi]. */
  lemma MeanBounds(s: seq<real>, lo: real, hi: real)
    requires s != [] && InRange(s, lo, hi)
    ensures lo <= Mean(s) <= hi
  {
    SumBounds(s, lo, hi);
    var n := |s| as real;
    assert Mean(s) * n == Sum(s);
  }

  /** The sum of values all strictly above lo exceeds |s| * lo. */
  lemma {:induction false} SumAbove(s: seq<real>, lo: real)
    requires s != [] && Above(s, lo)
    ensures (|s| as real) * lo < Sum(s)
    decreases |s|
  {
    if |s| > 1 {
      SumAbove(s[..|s| - 1], lo);
    } else {
      assert Sum(s) == Sum(s[..0]) + s[0];
    }
  }

  /** A window whose values are all above a threshold averages above it. */
  lemma MeanAbove(s: seq<real>, lo: real)
    requires s != [] && Above(s, lo)
    ensures lo < Mean(s)
  {
    SumAbove(s, lo);
    var n := |s| as real;
    assert Mean(s) * n == Sum(s);
  }

  /** An update whose window, old values and the new one, lies above
      `high` switches the latch on (or keeps it on if `high >= low`). */
  lemma StepAbove(f: Filter, x: real, high: real, low: real)
    requires WellFormed(f) && Above(f.history, high) && high < x && low <= high
    ensures Step(f, x, high, low).state
  {
    var window := Push(f.history, f.capacity, x);
    forall i | 0 <= i < |window| ensures high < window[i] {
      if i == |window| - 1 {
      } else if |f.history| < f.capacity {
        assert window[i] == f.history[i];
      } else {
        assert window[i] == f.history[i + 1];
      }
    }
    MeanAbove(window, high);
  }

  /** No chatter: while every value in the window stays within
      [low, high], no update flips the latch, whichever way it points. */
  lemma {:induction false} NoChatter(f: Filter, xs: seq<real>, high: real, low: real)
    requires WellFormed(f) && InRange(f.history, low, high) && InRange(xs, low, high)
    ensures Run(f, xs, high, low).state == f.state
    ensures InRange(Run(f, xs, high, low).history, low, high)
    decreases |xs|
  {
    if xs != [] {
      StepInRange(f, xs[0], high, low);
      assert InRange(xs[1..], low, high) by {
        forall i | 0 <= i < |xs[1..]| ensures low <= xs[1..][i] <= high {
          assert xs[1..][i] == xs[i + 1];
        }
      }
      NoChatter(Step(f, xs[0], high, low), xs[1..], high, low);
    }
  }

  /** One update with a value in [low, high] of a filter whose window lies
      in [low, high]: the latch keeps its state and the window stays in range. */
  lemma StepInRange(g: Filter, x: real, high: real, low: real)
    requires WellFormed(g) && InRange(g.history, low, high) && low <= x <= high
    ensures Step(g, x, high, low).state == g.state
    ensures InRange(Step(g, x, high, low).history, low, high)
  {
    var window := Push(g.history, g.capacity, x);
    forall i | 0 <= i < |window| ensures low <= window[i] <= high {
      if i == |window| - 1 {
      } else if |g.history| < g.capacity {
        assert window[i] == g.history[i];
      } else {
        assert window[i] == g.history[i + 1];
      }
    }
    MeanBounds(window, low, high);
  }

  /** Every element of s is at least lo. */
  predicate AtLeast(s: seq<real>, lo: real) {
    forall i :: 0 <= i < |s| ==> lo <= s[i]
  }

  /** Every element of s is at most hi. */
  predicate AtMost(s: seq<real>, hi: real) {
    forall i :: 0 <= i < |s| ==> s[i] <= hi
  }

  /** The sum of values all at least lo is at least |s| * lo. */
  lemma {:induction false} SumAtLeast(s: seq<real>, lo: real)
    requires AtLeast(s, lo)
    ensures (|s| as real) * lo <= Sum(s)
    decreases |s|
  {
    if s != [] {
      var init := s[..|s| - 1];
      assert AtLeast(init, lo) by {
        forall i | 0 <= i < |init| ensures lo <= init[i] {
          assert init[i] == s[i];
        }
      }
      SumAtLeast(init, lo);
      assert (|s| as real) * lo == (|init| as real) * lo + lo;
    }
  }

  /** The sum of values all at most hi is at most |s| * hi. */
  lemma {:induction false} SumAtMost(s: seq<real>, hi: real)
    requires AtMost(s, hi)
    ensures Sum(s) <= (|s| as real) * hi
    decreases |s|
  {
    if s != [] {
      var init := s[..|s| - 1];
      assert AtMost(init, hi) by {
        forall i | 0 <= i < |init| ensures init[i] <= hi {
          assert init[i] == s[i];
        }
      }
      SumAtMost(init, hi);
      assert (|s| as real) * hi == (|init| as real) * hi + hi;
    }
  }

  /** A window whose values are all at least lo averages at least lo. */
  lemma MeanAtLeast(s: seq<real>, lo: real)
    requires s != [] && AtLeast(s, lo)
    ensures lo <= Mean(s)
  {
    SumAtLeast(s, lo);
    var n := |s| as real;
    assert Mean(s) * n == Sum(s);
  }

  /** A window whose values are all at most hi averages at most hi. */
  lemma MeanAtMost(s: seq<real>, hi: real)
    requires s != [] && AtMost(s, hi)
    ensures Mean(s) <= hi
  {
    SumAtMost(s, hi);
    var n := |s| as real;
    assert Mean(s) * n == Sum(s);
  }

  /** One update of a latched filter whose window and new value are all at
      least `low`: the latch stays on and the window stays at least `low`. */
  lemma StepStaysOn(f: Filter, x: real, high: real, low: real)
    requires WellFormed(f) && f.state && AtLeast(f.history, low) && low <= x
    ensures Step(f, x, high, low).state
    ensures AtLeast(Step(f, x, high, low).history, low)
  {
    var window := Push(f.history, f.capacity, x);
    forall i | 0 <= i < |window| ensures low <= window[i] {
      if i == |window| - 1 {
      } else if |f.history| < f.capacity {
        assert window[i] == f.history[i];
      } else {
        assert window[i] == f.history[i + 1];
      }
    }
    MeanAtLeast(window, low);
  }

  /** One update of a released filter whose window and new value are all at
      most `high`: the latch stays off and the window stays at most `high`. */
  lemma StepStaysOff(f: Filter, x: real, high: real, low: real)
    requires WellFormed(f) && !f.state && AtMost(f.history, high) && x <= high
    ensures !Step(f, x, high, low).state
    ensures AtMost(Step(f, x, high, low).history, high)
  {
    var window := Push(f.history, f.capacity, x);
    forall i | 0 <= i < |window| ensures window[i] <= high {
      if i == |window| - 1 {
      } else if |f.history| < f.capacity {
        assert window[i] == f.history[i];
      } else {
        assert window[i] == f.history[i + 1];
      }
    }
    MeanAtMost(window, high);
  }

  /** No release without crossing `low`: a latched filter fed values that
      are all at least `low` (its window included, so also right after
      the crossing above `high`) stays on, whatever `high` is. */
  lemma {:induction false} StaysOn(f: Filter, xs: seq<real>, high: real, low: real)
    requires WellFormed(f) && f.state && AtLeast(f.history, low) && AtLeast(xs, low)
    ensures Run(f, xs, high, low).state
    ensures AtLeast(Run(f, xs, high, low).history, low)
    decreases |xs|
  {
    if xs != [] {
      StepStaysOn(f, xs[0], high, low);
      assert AtLeast(xs[1..], low) by {
        forall i | 0 <= i < |xs[1..]| ensures low <= xs[1..][i] {
          assert xs[1..][i] == xs[i + 1];
        }
      }
      StaysOn(Step(f, xs[0], high, low), xs[1..], high, low);
    }
  }

  /** No latch without crossing `high`: a released filter fed values that
      are all at most `high` (its window included) stays off. */
  lemma {:induction false} StaysOff(f: Filter, xs: seq<real>, high: real, low: real)
    requires WellFormed(f) && !f.state && AtMost(f.history, high) && AtMost(xs, high)
    ensures !Run(f, xs, high, low).state
    ensures AtMost(Run(f, xs, high, low).history, high)
    decreases |xs|
  {
    if xs != [] {
      StepStaysOff(f, xs[0], high, low);
      assert AtMost(xs[1..], high) by {
        forall i | 0 <= i < |xs[1..]| ensures xs[1..][i] <= high {
          assert xs[1..][i] == xs[i + 1];
        }
      }
      StaysOff(Step(f, xs[0], high, low), xs[1..], high, low);
    }
  }

  /** The no-chatter scenario with high 0.5 and low 0.35: a five-value
      filter fed 0.6 crosses above 0.5 and latches; the seven values 0.4,
      0.45, ... that follow, all in [0.35, 0.5], leave it on. */
  lemma CrossThenHold()
    ensures Step(Fresh(5), 0.6, 0.5, 0.35) == Filter(5, [0.6], true)
    ensures Run(Filter(5, [0.6], true), [0.4, 0.45, 0.4, 0.45, 0.4, 0.45, 0.4], 0.5, 0.35).state
  {
    assert [0.6][..0] == [];
    var xs := [0.4, 0.45, 0.4, 0.45, 0.4, 0.45, 0.4];
    assert AtLeast(xs, 0.35);
    StaysOn(Filter(5, [0.6], true), xs, 0.5, 0.35);
  }

  /** The smoothing lag of a five-value window fed 0, 0, 0, 0.6, 0.6, 0.6
      with high 0.5 and low 0.35, one update at a time. While the window
      fills, its averages (FillMeans) stay at or below 0.15 and the latch
      stays off. */
  lemma SmoothingLagFill()
    ensures Step(Fresh(5), 0.0, 0.5, 0.35) == Filter(5, [0.0], false)
    ensures Step(Filter(5, [0.0], false), 0.0, 0.5, 0.35) == Filter(5, [0.0, 0.0], false)
    ensures Step(Filter(5, [0.0, 0.0], false), 0.0, 0.5, 0.35) == Filter(5, [0.0, 0.0, 0.0], false)
    ensures Step(Filter(5, [0.0, 0.0, 0.0], false), 0.6, 0.5, 0.35) == Filter(5, [0.0, 0.0, 0.0, 0.6], false)
  {
    FillMeans();
    QuietStep([], 0.0, [0.0]);
    QuietStep([0.0], 0.0, [0.0, 0.0]);
    QuietStep([0.0, 0.0], 0.0, [0.0, 0.0, 0.0]);
    QuietStep([0.0, 0.0, 0.0], 0.6, [0.0, 0.0, 0.0, 0.6]);
  }

  /** The rest of the same run: the fifth update fills the window, the
      sixth drops its oldest value, the averages (SlideMeans) are 0.24 and
      0.36, and although the last three inputs are above 0.5 the latch is
      still off. */
  lemma SmoothingLagSlide()
    ensures Step(Filter(5, [0.0, 0.0, 0.0, 0.6], false), 0.6, 0.5, 0.35) == Filter(5, [0.0, 0.0, 0.0, 0.6, 0.6], false)
    ensures Step(Filter(5, [0.0, 0.0, 0.0, 0.6, 0.6], false), 0.6, 0.5, 0.35) == Filter(5, [0.0, 0.0, 0.6, 0.6, 0.6], false)
  {
    SlideMeans();
    QuietStep([0.0, 0.0, 0.0, 0.6], 0.6, [0.0, 0.0, 0.0, 0.6, 0.6]);
    assert [0.0, 0.0, 0.0, 0.6, 0.6][1..] + [0.6] == [0.0, 0.0, 0.6, 0.6, 0.6];
    QuietStep([0.0, 0.0, 0.0, 0.6, 0.6], 0.6, [0.0, 0.0, 0.6, 0.6, 0.6]);
  }

  /** One update of a five-value filter that is off, with high 0.5 and
      low 0.35, whose new window averages at most 0.5: the latch stays off. */
  lemma QuietStep(h: seq<real>, x: real, window: seq<real>)
    requires |h| <= 5 && window == Push(h, 5, x) && Mean(window) <= 0.5
    ensures Step(Filter(5, h, false), x, 0.5, 0.35) == Filter(5, window, false)
  {
  }

  /** The averages of the windows met in SmoothingLagFill: 0 for the
      first three, then 0.15. */
  lemma FillMeans()
    ensures Mean([0.0]) == 0.0 && Mean([0.0, 0.0]) == 0.0 && Mean([0.0, 0.0, 0.0]) == 0.0
    ensures Mean([0.0, 0.0, 0.0, 0.6]) == 0.15
  {
    assert [0.0, 0.0][..1] == [0.0];
    assert [0.0, 0.0, 0.0][..2] == [0.0, 0.0];
    assert [0.0, 0.0, 0.0, 0.6][..3] == [0.0, 0.0, 0.0];
  }

  /** The averages of the windows met in SmoothingLagSlide: 0.24 and 0.36. */
  lemma SlideMeans()
    ensures Mean([0.0, 0.0, 0.0, 0.6, 0.6]) == 0.24
    ensures Mean([0.0, 0.0, 0.6, 0.6, 0.6]) == 0.36
  {
    assert [0.0][..0] == [];
    assert [0.0, 0.0][..1] == [0.0];
    assert [0.0, 0.0, 0.0][..2] == [0.0, 0.0];
    assert [0.0, 0.0, 0.0, 0.6][..3] == [0.0, 0.0, 0.0];
    assert [0.0, 0.0, 0.0, 0.6, 0.6][..4] == [0.0, 0.0, 0.0, 0.6];
    assert [0.0, 0.0, 0.6][..2] == [0.0, 0.0];
    assert [0.0, 0.0, 0.6, 0.6][..3] == [0.0, 0.0, 0.6];
    assert [0.0, 0.0, 0.6, 0.6, 0.6][..4] == [0.0, 0.0, 0.6, 0.6];
  }

  /** One gesture's filter, updated in place. `pushed` records every value
      ever pushed, so that the window's contents can be stated. */
  class StableScore {
    const windowSize: nat
    var history: seq<real>
    var state: bool
    ghost var pushed: seq<real>

    ghost predicate Valid()
      reads this
    {
      0 < windowSize && history == LastN(pushed, windowSize)
    }

    /** The filter as a value. */
    function Value(): Filter
      reads this
    {
      Filter(windowSize, history, state)
    }

    constructor (windowSize: nat)
      requires 0 < windowSize
      ensures this.windowSize == windowSize && history == [] && !state && pushed == []
    {
      this.windowSize := windowSize;
      history := [];
      state := false;
      pushed := [];
    }

    /** Push `newValue`, average the window and latch on that average;
        return the latch and the average. */
    method Update(newValue: real, high: real, low: real) returns (latched: bool, smoothed: real)
      requires Valid()
      modifies this
      ensures Valid() && pushed == old(pushed) + [newValue]
      ensures Value() == Step(old(Value()), newValue, high, low)
      ensures history != [] && smoothed == Mean(history) && latched == state
    {
      LastNAppend(pushed, [newValue], windowSize);
      history := Push(history, windowSize, newValue);
      pushed := pushed + [newValue];
      smoothed := Sum(history) / (|history| as real);
      if !state && smoothed > high {
        state := true;
      } else if state && smoothed < low {
        state := false;
      }
      latched := state;
    }
  }
}
