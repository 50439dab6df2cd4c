/**
 The scale's sample filter: a ring buffer of the last readings and the mean of
 what is left when the lowest and highest fifth are cut off.
*/
module ScaleFilter {
  const MAXIMUM_WINDOW: nat := 32

  // ---------------------------------------------------------------- sorting

  function Insert(x: int, s: seq<int>): (r: seq<int>)
    ensures |r| == |s| + 1
  {
    if s == [] then [x]
    else if s[|s| - 1] <= x then s + [x]
    else Insert(x, s[..|s| - 1]) + [s[|s| - 1]]
  }

  function Sorted(s: seq<int>): (r: seq<int>)
    ensures |r| == |s|
  {
    if s == [] then [] else Insert(s[|s| - 1], Sorted(s[..|s| - 1]))
  }

  predicate Ascending(s: seq<int>) {
    forall i, j :: 0 <= i < j < |s| ==> s[i] <= s[j]
  }

  lemma {:induction false} InsertAscends(x: int, s: seq<int>)
    requires Ascending(s)
    ensures Ascending(Insert(x, s)) && multiset(Insert(x, s)) == multiset(s) + multiset{x}
  {
    if s == [] {
    } else if s[|s| - 1] <= x {
    } else {
      var n := |s| - 1;
      InsertAscends(x, s[..n]);
      assert s == s[..n] + [s[n]];
      AppendAscends(s[..n], x, Insert(x, s[..n]), s[n]);
    }
  }

  lemma AppendAscends(s: seq<int>, x: int, r: seq<int>, last: int)
    requires Ascending(r) && multiset(r) == multiset(s) + multiset{x} && x <= last
    requires forall i :: 0 <= i < |s| ==> s[i] <= last
    ensures Ascending(r + [last])
  {
    forall i | 0 <= i < |r| ensures r[i] <= last {
      assert r[i] in multiset(r);
      assert r[i] in multiset(s) || r[i] == x;
    }
  }

  lemma {:induction false} SortedAscends(s: seq<int>)
    ensures Ascending(Sorted(s)) && multiset(Sorted(s)) == multiset(s)
  {
    if s != [] {
      var n := |s| - 1;
      SortedAscends(s[..n]);
      InsertAscends(s[n], Sorted(s[..n]));
      assert s == s[..n] + [s[n]];
    }
  }

  // ---------------------------------------------------------------- the trimmed mean

  function Sum(s: seq<int>): int {
    if s == [] then 0 else Sum(s[..|s| - 1]) + s[|s| - 1]
  }

  function Trim(n: nat): nat { if n >= 5 then n / 5 else 0 }

  datatype Statistics = Statistics(mean: real, minimum: int, maximum: int)

  /** What is left of the sorted samples, its mean and its ends. */
  function Kept(s: seq<int>): (r: seq<int>)
    ensures s != [] ==> r != []
  {
    Sorted(s)[Trim(|s|)..|s| - Trim(|s|)]
  }

  function Describe(s: seq<int>): Statistics {
    if s == [] then Statistics(0.0, 0, 0)
    else
      var kept := Kept(s);
      Statistics(Sum(kept) as real / |kept| as real, kept[0], kept[|kept| - 1])
  }

  // ---------------------------------------------------------------- robustness

  function Below(s: seq<int>, x: int): nat {
    if s == [] then 0 else Below(s[..|s| - 1], x) + (if s[|s| - 1] < x then 1 else 0)
  }

  function Above(s: seq<int>, x: int): nat {
    if s == [] then 0 else Above(s[..|s| - 1], x) + (if s[|s| - 1] > x then 1 else 0)
  }

  lemma {:induction false} InsertCounts(y: int, s: seq<int>, x: int)
    ensures Below(Insert(y, s), x) == Below(s, x) + (if y < x then 1 else 0)
    ensures Above(Insert(y, s), x) == Above(s, x) + (if y > x then 1 else 0)
  {
    if s == [] {
    } else if s[|s| - 1] <= y {
      assert (s + [y])[..|s|] == s;
    } else {
      var n := |s| - 1;
      InsertCounts(y, s[..n], x);
      assert (Insert(y, s[..n]) + [s[n]])[..n + 1] == Insert(y, s[..n]);
    }
  }

  lemma {:induction false} SortedCounts(s: seq<int>, x: int)
    ensures Below(Sorted(s), x) == Below(s, x) && Above(Sorted(s), x) == Above(s, x)
  {
    if s != [] {
      var n := |s| - 1;
      SortedCounts(s[..n], x);
      InsertCounts(s[n], Sorted(s[..n]), x);
    }
  }

  /** In ascending order the samples below `x` come first, those above it last. */
  lemma {:induction false} AscendingCounts(s: seq<int>, x: int, k: nat)
    requires Ascending(s) && k < |s|
    ensures s[k] < x ==> Below(s, x) > k
    ensures s[k] > x ==> Above(s, x) >= |s| - k
  {
    var n := |s| - 1;
    if k < n {
      AscendingCounts(s[..n], x, k);
    } else if n > 0 {
      if s[k] < x { AscendingCounts(s[..n], x, n - 1); }
    }
  }

  lemma {:induction false} SumBetween(s: seq<int>, low: int, high: int)
    requires forall k :: 0 <= k < |s| ==> low <= s[k] <= high
    ensures low * |s| <= Sum(s) <= high * |s|
  {
    if s != [] {
      var n := |s| - 1;
      SumBetween(s[..n], low, high);
      assert low * (n + 1) == low * n + low && high * (n + 1) == high * n + high;
    }
  }

  lemma MeanBetween(total: int, n: nat, low: int, high: int)
    requires n > 0 && low * n <= total <= high * n
    ensures low as real <= total as real / n as real <= high as real
  {
    var q := total as real / n as real;
    assert q * n as real == total as real;
    assert (low * n) as real == low as real * n as real && (high * n) as real == high as real * n as real;
    assert q < low as real ==> q * n as real < low as real * n as real;
    assert q > high as real ==> q * n as real > high as real * n as real;
  }

  /** If at most a fifth of the samples lie below `low` and at most a fifth
      above `high`, everything that is kept, and its mean, lies between them. */
  lemma TrimmedMeanIsRobust(s: seq<int>, low: int, high: int)
    requires s != [] && Below(s, low) <= |s| / 5 && Above(s, high) <= |s| / 5
    ensures var d := Describe(s);
            low as real <= d.mean <= high as real && low <= d.minimum <= d.maximum <= high
  {
    KeptBetween(s, low, high);
    hide Kept; hide Below; hide Above;
    var kept := Kept(s);
    SumBetween(kept, low, high);
    MeanBetween(Sum(kept), |kept|, low, high);
    KeptAscends(s);
  }

  /** The mean is the mean of what is left when a fifth of the samples, the
      lowest, and a fifth, the highest, are cut off. */
  lemma TrimmedMeanIsExact(s: seq<int>)
    requires s != []
    ensures var t := |s| / 5;
            var low, kept, high := Sorted(s)[..t], Kept(s), Sorted(s)[|s| - t..];
            && multiset(s) == multiset(low) + multiset(kept) + multiset(high)
            && |low| == |high| == t && |kept| == |s| - 2 * t && Ascending(low + kept + high)
            && Describe(s).mean * |kept| as real == Sum(kept) as real
            && Describe(s).minimum == kept[0] && Describe(s).maximum == kept[|kept| - 1]
  {
    hide Sorted; hide Sum; hide Ascending; hide Kept; hide Describe;
    SortedAscends(s);
    KeptIsMiddle(s);
    InThree(Sorted(s), |s| / 5);
    DescribeIsMean(s);
  }

  lemma KeptIsMiddle(s: seq<int>)
    ensures Kept(s) == Sorted(s)[|s| / 5..|s| - |s| / 5]
  {
    hide Sorted;
  }

  lemma InThree(r: seq<int>, t: nat)
    requires 2 * t <= |r|
    ensures r[..t] + r[t..|r| - t] + r[|r| - t..] == r
    ensures multiset(r) == multiset(r[..t]) + multiset(r[t..|r| - t]) + multiset(r[|r| - t..])
  {
    assert r[..t] + r[t..|r| - t] + r[|r| - t..] == r;
  }

  lemma DescribeIsMean(s: seq<int>)
    requires s != []
    ensures var kept := Kept(s);
            && Describe(s).mean * |kept| as real == Sum(kept) as real
            && Describe(s).minimum == kept[0] && Describe(s).maximum == kept[|kept| - 1]
  {
    hide Sum; hide Kept;
    var total, n := Sum(Kept(s)) as real, |Kept(s)| as real;
    assert total / n * n == total;
  }

  lemma KeptBetween(s: seq<int>, low: int, high: int)
    requires s != [] && Below(s, low) <= |s| / 5 && Above(s, high) <= |s| / 5
    ensures forall k :: 0 <= k < |Kept(s)| ==> low <= Kept(s)[k] <= high
  {
    SortedAscends(s);
    SortedCounts(s, low);
    SortedCounts(s, high);
    hide Sorted; hide Below; hide Above;
    var r := Sorted(s);
    forall k | 0 <= k < |Kept(s)| ensures low <= Kept(s)[k] <= high {
      var j := Trim(|s|) + k;
      assert Kept(s)[k] == r[j];
      AscendingCounts(r, low, j);
      AscendingCounts(r, high, j);
    }
  }

  lemma KeptAscends(s: seq<int>)
    requires s != []
    ensures Kept(s)[0] <= Kept(s)[|Kept(s)| - 1]
  {
    SortedAscends(s);
    hide Sorted;
    var r, t := Sorted(s), Trim(|s|);
    assert Kept(s)[0] == r[t] && Kept(s)[|Kept(s)| - 1] == r[|s| - t - 1];
  }

  lemma {:induction false} OutlierCounts(s: seq<int>, bad: set<nat>, low: int, high: int)
    requires forall i :: 0 <= i < |s| && i !in bad ==> low <= s[i] <= high
    ensures Below(s, low) <= |bad| && Above(s, high) <= |bad|
  {
    if s != [] {
      var n := |s| - 1;
      if n in bad {
        OutlierCounts(s[..n], bad - {n}, low, high);
      } else {
        OutlierCounts(s[..n], bad, low, high);
      }
    }
  }

  /** At most a fifth of the window may read anything at all: the filter's
      value stays within the range of the other samples. */
  lemma FifthMayBeWrong(s: seq<int>, bad: set<nat>, low: int, high: int)
    requires s != [] && |bad| <= |s| / 5
    requires forall i :: 0 <= i < |s| && i !in bad ==> low <= s[i] <= high
    ensures low as real <= Describe(s).mean <= high as real
    ensures low <= Describe(s).minimum <= Describe(s).maximum <= high
  {
    OutlierCounts(s, bad, low, high);
    TrimmedMeanIsRobust(s, low, high);
  }

  /** Sorting leaves an ascending sequence alone. */
  lemma {:induction false} AscendingIsSorted(s: seq<int>)
    requires Ascending(s)
    ensures Sorted(s) == s
  {
    if s != [] {
      var n := |s| - 1;
      AscendingIsSorted(s[..n]);
      assert n > 0 ==> s[..n][n - 1] <= s[n];
      hide Ascending;
      assert Insert(s[n], s[..n]) == s[..n] + [s[n]];
    }
  }

  /** The bound is tight: one wrong sample more can pull the value away. */
  lemma OneMoreIsTooMany()
    ensures var s := [0, 0, 0, 9, 9];
            && |{3, 4}| == |s| / 5 + 1 && (forall i :: 0 <= i < |s| && i !in {3, 4} ==> s[i] == 0)
            && Describe(s).mean > 0.0
  {
    var s := [0, 0, 0, 9, 9];
    assert s[0] == 0 && s[1] == 0 && s[2] == 0 && s[3] == 9 && s[4] == 9;
    AscendingIsSorted(s);
    hide Sorted; hide Sum;
    SumOfThree(0, 0, 9);
    assert Kept(s) == [0, 0, 9];
  }

  lemma SumOfThree(a: int, b: int, c: int)
    ensures Sum([a, b, c]) == a + b + c
  {
    assert [a, b, c][..2] == [a, b] && [a, b][..1] == [a];
    assert Sum([a]) == a && Sum([a, b]) == a + b;
  }

  // ---------------------------------------------------------------- the ring buffer

  function Last(history: seq<int>, n: nat): seq<int> {
    if |history| <= n then history else history[|history| - n..]
  }

  /** A buffer of one window, the place of the next sample, and all samples so far. */
  predicate Ring(buffer: seq<int>, next: nat, history: seq<int>) {
    next < |buffer| &&
    if |history| < |buffer| then
      next == |history| && buffer[..next] == history
    else
      // the oldest sample is the next to be overwritten
      buffer[next..] + buffer[..next] == Last(history, |buffer|)
  }

  lemma RingPush(buffer: seq<int>, next: nat, history: seq<int>, raw: int)
    requires Ring(buffer, next, history)
    ensures next < |buffer|
    ensures Ring(buffer[next := raw], if next + 1 == |buffer| then 0 else next + 1, history + [raw])
  {
    var w := |buffer|;
    var after := buffer[next := raw];
    assert after[..next] == buffer[..next] && after[next + 1..] == buffer[next + 1..];
    assert after[..next + 1] == buffer[..next] + [raw];
    if |history| + 1 < w {
    } else if |history| + 1 == w {
      assert next + 1 == w && after == history + [raw];
      assert after[0..] + after[..0] == after;
    } else {
      RotatePush(buffer, next, history, raw);
    }
  }

  function NextPlace(place: nat, window: nat): (next: nat)
    requires place < window
    ensures next == if place + 1 == window then 0 else place + 1
  {
    (place + 1) % window
  }

  lemma RotatePush(buffer: seq<int>, next: nat, history: seq<int>, raw: int)
    requires next < |buffer| <= |history| && buffer[next..] + buffer[..next] == Last(history, |buffer|)
    ensures var after := buffer[next := raw];
            var n := if next + 1 == |buffer| then 0 else next + 1;
            after[n..] + after[..n] == Last(history + [raw], |buffer|)
  {
    var after := buffer[next := raw];
    var last := Last(history, |buffer|);
    assert Last(history + [raw], |buffer|) == last[1..] + [raw];
    assert last[1..] == buffer[next + 1..] + buffer[..next];
    if next + 1 == |buffer| {
      assert buffer[next + 1..] == [];
      assert after == buffer[..next] + [raw];
      assert after[0..] + after[..0] == after;
    } else {
      assert after[next + 1..] == buffer[next + 1..] && after[..next + 1] == buffer[..next] + [raw];
      assert buffer[next + 1..] + (buffer[..next] + [raw]) == (buffer[next + 1..] + buffer[..next]) + [raw];
    }
  }

  class Filter {
    const samples: array<int>
    const window: nat
    var nextSample: nat
    var sampleCount: nat
    /** Every sample since the last reset. */
    ghost var history: seq<int>

    ghost predicate Valid()
      reads this, samples
    {
      && samples.Length == MAXIMUM_WINDOW && 3 <= window <= MAXIMUM_WINDOW
      && sampleCount == (if |history| < window then |history| else window)
      && Ring(samples[..window], nextSample, history)
    }

    constructor (window: nat)
      requires 3 <= window <= MAXIMUM_WINDOW
      ensures Valid() && history == [] && this.window == window && fresh(samples)
    {
      this.window := window;
      samples := new int[MAXIMUM_WINDOW](_ => 0);
      nextSample, sampleCount, history := 0, 0, [];
    }

    method Reset()
      requires Valid()
      modifies this, samples
      ensures Valid() && history == []
    {
      forall i | 0 <= i < samples.Length { samples[i] := 0; }
      nextSample, sampleCount, history := 0, 0, [];
    }

    method PushSample(raw: int)
      requires Valid()
      modifies this, samples
      ensures Valid() && history == old(history) + [raw]
      ensures sampleCount == if |history| < window then |history| else window
    {
      hide Ring; hide Last; hide NextPlace;
      RingPush(samples[..window], nextSample, history, raw);
      PutSample(raw);
      nextSample := NextPlace(nextSample, window);
      sampleCount := if sampleCount + 1 < window then sampleCount + 1 else window;
      history := history + [raw];
    }

    method PutSample(raw: int)
      requires Valid() && nextSample < window
      modifies samples
      ensures samples[..window] == old(samples[..window])[nextSample := raw]
    {
      hide Ring;
      samples[nextSample] := raw;
    }

    /** Sorts a copy and averages what the trim leaves: the result describes
        exactly the last samples since the reset, at most a window of them. */
    method FilterStatistics() returns (d: Statistics)
      requires Valid()
      ensures d == Describe(samples[..sampleCount])
      ensures multiset(samples[..sampleCount]) == multiset(Last(history, window))
    {
      BufferHoldsTheLast();
      if sampleCount == 0 { return Statistics(0.0, 0, 0); }
      var taken := samples[..sampleCount];
      d := DescribeSamples(taken);
    }

    /** The buffer's order is not the order of arrival, but its contents are
        the last samples. */
    lemma BufferHoldsTheLast()
      requires Valid()
      ensures multiset(samples[..sampleCount]) == multiset(Last(history, window))
    {
      var ring := samples[..window];
      if |history| >= window {
        assert ring == ring[..nextSample] + ring[nextSample..];
      } else {
        assert samples[..sampleCount] == ring[..nextSample];
      }
    }
  }

  method DescribeSamples(taken: seq<int>) returns (d: Statistics)
    requires taken != []
    ensures d == Describe(taken)
  {
    var sorted := SortSamples(taken);
    hide Sorted;
    var trim := if |taken| >= 5 then |taken| / 5 else 0;
    var begin, end := trim, |taken| - trim;
    ghost var kept := Kept(taken);
    var total := 0;
    for index := begin to end
      invariant total == Sum(kept[..index - begin])
    {
      assert kept[..index - begin + 1][..index - begin] == kept[..index - begin];
      total := total + sorted[index];
    }
    assert kept[..end - begin] == kept;
    d := Statistics(total as real / (end - begin) as real, sorted[begin], sorted[end - 1]);
  }

  method SortSamples(s: seq<int>) returns (r: seq<int>)
    ensures r == Sorted(s)
  {
    r := [];
    for i := 0 to |s|
      invariant r == Sorted(s[..i])
    {
      assert s[..i + 1][..i] == s[..i];
      r := Insert(s[i], r);
    }
    assert s[..|s|] == s;
  }
}
