/** The waveform bucketizer of the note list items: a metering history of N
    samples is reduced to exactly `NumLines` bars, bar `i` being the mean of
    the samples in the window `[floor(i*N/K), ceil((i+1)*N/K))`. */
module Waveform {
  import opened Wrappers

  /** Number of bars drawn for every note (`numLines`). */
  const NumLines: nat := 60

  // ---------------------------------------------------------------------
  // Window arithmetic
  // ---------------------------------------------------------------------

  /** First sample of window `i` (`Math.floor(i * N / K)`). */
  function Start(i: nat, n: nat, k: nat): (s: nat)
    requires k > 0
    ensures i <= k ==> s <= n
  {
    var s := i * n / k;
    if i <= k then
      MulRightMono(i, k, n);
      assert s * k <= i * n <= n * k;
      MulLeftWeak(s, n, k);
      s
    else s
  }

  /** One past the last sample of window `i` (`Math.ceil((i + 1) * N / K)`),
      written as the integer ceiling of the exact quotient. */
  function End(i: nat, n: nat, k: nat): (e: nat)
    requires k > 0
    ensures i < k ==> e <= n
  {
    var x := (i + 1) * n + k - 1;
    var e := x / k;
    if i < k then
      MulRightMono(i + 1, k, n);
      assert e * k <= x < (n + 1) * k;
      MulLeftStrict(e, n + 1, k);
      e
    else e
  }

  /** `Start` is the floor of `i*n/k`: the largest multiple of `k` not above `i*n`. */
  lemma StartIsFloor(i: nat, n: nat, k: nat)
    requires k > 0
    ensures Start(i, n, k) * k <= i * n < Start(i, n, k) * k + k
  {
    var x := i * n;
    assert x == (x / k) * k + x % k;
  }

  /** `End` is the ceiling of `(i+1)*n/k`: the smallest multiple of `k` not below `(i+1)*n`. */
  lemma EndIsCeiling(i: nat, n: nat, k: nat)
    requires k > 0
    ensures (i + 1) * n <= End(i, n, k) * k < (i + 1) * n + k
  {
    var x := (i + 1) * n + k - 1;
    assert x == (x / k) * k + x % k;
  }

  lemma MulLeftStrict(a: int, b: int, k: int)
    requires k > 0 && a * k < b * k
    ensures a < b
  {
  }

  lemma MulLeftWeak(a: int, b: int, k: int)
    requires k > 0 && a * k <= b * k
    ensures a <= b
  {
  }

  lemma MulRightMono(a: int, b: int, c: nat)
    requires a <= b
    ensures a * c <= b * c
  {
  }

  /** Every window lies inside the metering array: `0 <= start <= end <= n`. */
  lemma WindowBounds(i: nat, n: nat, k: nat)
    requires k > 0 && i < k
    ensures 0 <= Start(i, n, k) <= End(i, n, k) <= n
  {
    StartIsFloor(i, n, k);
    EndIsCeiling(i, n, k);
    var s, e := Start(i, n, k), End(i, n, k);
    var lo, hi := i * n, (i + 1) * n;
    MulRightMono(i, i + 1, n);
    assert s * k <= lo <= hi <= e * k;
    MulLeftWeak(s, e, k);
    // (i+1)*n <= k*n, so the ceiling is at most n
    MulRightMono(i + 1, k, n);
    assert e * k < (n + 1) * k;
    MulLeftStrict(e, n + 1, k);
  }

  /** A window is empty exactly when the metering array is: when `n >= 1`
      every bucket has a sample to average, and when `n == 0` none has. */
  lemma WindowNonEmptyIff(i: nat, n: nat, k: nat)
    requires k > 0 && i < k
    ensures Start(i, n, k) < End(i, n, k) <==> n >= 1
  {
    StartIsFloor(i, n, k);
    EndIsCeiling(i, n, k);
    var s, e := Start(i, n, k), End(i, n, k);
    if n >= 1 {
      assert (i + 1) * n == i * n + n;
      MulLeftStrict(s, e, k);
    } else {
      assert e * k < k;
      MulLeftStrict(e, 1, k);
    }
  }

  /** The first window starts at 0 and the last one ends at `n`. */
  lemma WindowsSpanArray(n: nat, k: nat)
    requires k > 0
    ensures Start(0, n, k) == 0
    ensures End(k - 1, n, k) == n
  {
    EndIsCeiling(k - 1, n, k);
    var e := End(k - 1, n, k);
    assert k * n <= e * k < k * n + k;
    MulLeftWeak(n, e, k);
    MulLeftStrict(e, n + 1, k);
  }

  /** Consecutive windows leave no gap: window `i` ends at or after the
      start of window `i + 1`, and the starts never go backwards. */
  lemma WindowsNoGap(i: nat, n: nat, k: nat)
    requires k > 0 && i + 1 < k
    ensures Start(i, n, k) <= Start(i + 1, n, k) <= End(i, n, k)
  {
    StartsAscend(i, n, k);
    NextStartWithinEnd(i, n, k);
  }

  lemma StartsAscend(i: nat, n: nat, k: nat)
    requires k > 0
    ensures Start(i, n, k) <= Start(i + 1, n, k)
  {
    StartIsFloor(i, n, k);
    StartIsFloor(i + 1, n, k);
    var s0, s1 := Start(i, n, k), Start(i + 1, n, k);
    var lo, hi := i * n, (i + 1) * n;
    MulRightMono(i, i + 1, n);
    assert s0 * k <= lo <= hi < s1 * k + k;
    var t := s1 + 1;
    assert s1 * k + k == t * k;
    MulLeftStrict(s0, t, k);
  }

  lemma NextStartWithinEnd(i: nat, n: nat, k: nat)
    requires k > 0
    ensures Start(i + 1, n, k) <= End(i, n, k)
  {
    StartIsFloor(i + 1, n, k);
    EndIsCeiling(i, n, k);
    var s1, e := Start(i + 1, n, k), End(i, n, k);
    var hi := (i + 1) * n;
    assert s1 * k <= hi <= e * k;
    MulLeftWeak(s1, e, k);
  }

  /** The bar `j*k/n` chosen for sample `j` satisfies `bar*n <= j*k < bar*n + n`. */
  lemma CoveringBar(j: nat, n: nat, k: nat) returns (bar: nat)
    requires k > 0 && j < n
    ensures bar == j * k / n
    ensures bar * n <= j * k < bar * n + n
    ensures bar < k
  {
    var x := j * k;
    bar := x / n;
    var bn := bar * n;
    assert x == bn + x % n && 0 <= x % n < n;
    MulRightMono(j + 1, n, k);
    assert (j + 1) * k == x + k;
    assert bn < k * n;
    MulLeftStrict(bar, k, n);
  }

  /** Every sample falls in the window of some bucket: window
      `j*k/n` contains sample `j`. */
  lemma SampleCovered(j: nat, n: nat, k: nat)
    requires k > 0 && j < n
    ensures var b := j * k / n;
      b < k && Start(b, n, k) <= j < End(b, n, k)
  {
    var b := CoveringBar(j, n, k);
    var x, bn := j * k, b * n;
    // Start(b) <= j, because Start(b)*k <= b*n <= j*k
    StartIsFloor(b, n, k);
    var s := Start(b, n, k);
    assert s * k <= x;
    MulLeftWeak(s, j, k);
    // End(b) > j, because End(b)*k >= (b+1)*n > j*k
    EndIsCeiling(b, n, k);
    var e := End(b, n, k);
    assert (b + 1) * n == bn + n;
    assert x < e * k;
    MulLeftStrict(j, e, k);
  }

  /** With exactly one sample per bar, window `i` is `[i, i + 1)`. */
  lemma WindowsIdentity(i: nat, k: nat)
    requires k > 0
    ensures Start(i, k, k) == i && End(i, k, k) == i + 1
  {
    StartIsFloor(i, k, k);
    EndIsCeiling(i, k, k);
    var s, e := Start(i, k, k), End(i, k, k);
    assert i * k == k * i;
    MulLeftWeak(s, i, k);
    MulLeftStrict(i, s + 1, k);
    assert (i + 1) * k == k * (i + 1);
    MulLeftWeak(i + 1, e, k);
    MulLeftStrict(e, i + 2, k);
  }

  // ---------------------------------------------------------------------
  // Averages
  // ---------------------------------------------------------------------

  /** `values.reduce((acc, curr) => acc + curr, 0)`: a left fold from 0. */
  function Sum(values: seq<real>): (r: real)
    ensures |values| == 1 ==> r == values[0]
  {
    if |values| == 0 then 0.0 else Sum(values[..|values| - 1]) + values[|values| - 1]
  }

  /** The mean of a slice; `None` stands for the NaN that `0 / 0` gives on an
      empty slice. */
  function Average(values: seq<real>): (r: Option<real>)
    ensures r.Some? <==> |values| > 0
  {
    if |values| == 0 then None else Some(Sum(values) / (|values| as real))
  }

  /** If every value lies in `[lo, hi]`, the sum lies in `[|values|*lo, |values|*hi]`. */
  lemma SumBounds(values: seq<real>, lo: real, hi: real)
    requires forall j :: 0 <= j < |values| ==> lo <= values[j] <= hi
    ensures (|values| as real) * lo <= Sum(values) <= (|values| as real) * hi
  {
    SumAtLeast(values, lo);
    SumAtMost(values, hi);
  }

  lemma {:induction false} SumAtLeast(values: seq<real>, lo: real)
    requires forall j :: 0 <= j < |values| ==> lo <= values[j]
    ensures (|values| as real) * lo <= Sum(values)
  {
    if |values| > 0 {
      var init, last := values[..|values| - 1], values[|values| - 1];
      assert forall j :: 0 <= j < |init| ==> init[j] == values[j];
      SumAtLeast(init, lo);
      var len := |init| as real;
      assert (|values| as real) == len + 1.0;
      assert (len + 1.0) * lo == len * lo + lo;
    }
  }

  lemma {:induction false} SumAtMost(values: seq<real>, hi: real)
    requires forall j :: 0 <= j < |values| ==> values[j] <= hi
    ensures Sum(values) <= (|values| as real) * hi
  {
    if |values| > 0 {
      var init, last := values[..|values| - 1], values[|values| - 1];
      assert forall j :: 0 <= j < |init| ==> init[j] == values[j];
      SumAtMost(init, hi);
      var len := |init| as real;
      assert (|values| as real) == len + 1.0;
      assert (len + 1.0) * hi == len * hi + hi;
    }
  }

  /** Smallest element of a non-empty slice. */
  function Min(values: seq<real>): (m: real)
    requires |values| > 0
    ensures m in values
    ensures forall j :: 0 <= j < |values| ==> m <= values[j]
  {
    if |values| == 1 then values[0]
    else
      var rest := Min(values[1..]);
      assert forall j :: 1 <= j < |values| ==> values[j] == values[1..][j - 1];
      if values[0] <= rest then values[0] else rest
  }

  /** Largest element of a non-empty slice. */
  function Max(values: seq<real>): (m: real)
    requires |values| > 0
    ensures m in values
    ensures forall j :: 0 <= j < |values| ==> values[j] <= m
  {
    if |values| == 1 then values[0]
    else
      var rest := Max(values[1..]);
      assert forall j :: 1 <= j < |values| ==> values[j] == values[1..][j - 1];
      if values[0] >= rest then values[0] else rest
  }

  lemma QuotientBounds(sum: real, len: real, lo: real, hi: real)
    requires len > 0.0 && len * lo <= sum <= len * hi
    ensures lo <= sum / len <= hi
  {
    assert sum / len * len == sum;
  }

  lemma MeanBounds(values: seq<real>, lo: real, hi: real)
    requires |values| > 0
    requires (|values| as real) * lo <= Sum(values) <= (|values| as real) * hi
    ensures lo <= Sum(values) / (|values| as real) <= hi
  {
    QuotientBounds(Sum(values), |values| as real, lo, hi);
  }

  /** The mean of a non-empty slice lies between its minimum and its maximum. */
  lemma AverageWithinRange(values: seq<real>)
    requires |values| > 0
    ensures Average(values).Some?
    ensures Min(values) <= Average(values).value <= Max(values)
  {
    var lo, hi := Min(values), Max(values);
    SumBounds(values, lo, hi);
    MeanBounds(values, lo, hi);
  }

  /** The mean of a single sample is that sample. */
  lemma AverageSingleton(x: real)
    ensures Average([x]) == Some(x)
  {
    assert [x][..0] == [];
    assert Sum([x]) == Sum([]) + x;
  }

  // ---------------------------------------------------------------------
  // Buckets
  // ---------------------------------------------------------------------

  /** The slice of `metering` that bar `i` averages. */
  function Window(metering: seq<real>, i: nat): (w: seq<real>)
    requires i < NumLines
    ensures |w| == End(i, |metering|, NumLines) - Start(i, |metering|, NumLines)
  {
    WindowBounds(i, |metering|, NumLines);
    var start, end := Start(i, |metering|, NumLines), End(i, |metering|, NumLines);
    metering[start..end]
  }

  /** Bar `i`: the mean of its window. */
  function Bucket(metering: seq<real>, i: nat): (r: Option<real>)
    requires i < NumLines
    ensures |metering| == 0 ==> r.None?
  {
    Average(Window(metering, i))
  }

  /** The bucketization loop: one bar pushed per iteration, `NumLines` in all,
      bar `i` being the mean of window `i`. */
  method Bucketize(metering: seq<real>) returns (lines: seq<Option<real>>)
    ensures |lines| == NumLines
    ensures forall i :: 0 <= i < NumLines ==> lines[i] == Bucket(metering, i)
  {
    lines := [];
    var numLines := NumLines;
    var i := 0;
    while i < numLines
      invariant 0 <= i <= numLines
      invariant |lines| == i
      invariant forall j :: 0 <= j < i ==> lines[j] == Bucket(metering, j)
    {
      var meteringIndex := (i * |metering|) / numLines;
      var nextMeteringIndex := ((i + 1) * |metering| + numLines - 1) / numLines;
      WindowBounds(i, |metering|, numLines);
      var values := metering[meteringIndex..nextMeteringIndex];
      var average := Average(values);
      lines := lines + [average];
      i := i + 1;
    }
  }

  /** Every bar is defined exactly when some metering was recorded; only an
      empty recording yields the `0 / 0` bars. */
  lemma BucketDefinedIff(metering: seq<real>, i: nat)
    requires i < NumLines
    ensures Bucket(metering, i).Some? <==> |metering| >= 1
  {
    WindowNonEmptyIff(i, |metering|, NumLines);
  }

  /** A defined bar lies between the smallest and the largest sample of its window. */
  lemma BucketWithinWindow(metering: seq<real>, i: nat)
    requires i < NumLines && |metering| >= 1
    ensures Bucket(metering, i).Some?
    ensures Min(Window(metering, i)) <= Bucket(metering, i).value <= Max(Window(metering, i))
  {
    WindowNonEmptyIff(i, |metering|, NumLines);
    AverageWithinRange(Window(metering, i));
  }

  /** With exactly `NumLines` samples the bars are the samples themselves. */
  lemma BucketIdentity(metering: seq<real>, i: nat)
    requires |metering| == NumLines && i < NumLines
    ensures Bucket(metering, i) == Some(metering[i])
  {
    WindowsIdentity(i, NumLines);
    assert Window(metering, i) == [metering[i]];
    AverageSingleton(metering[i]);
  }
}
