/** Request-latency quantiles from cumulative histograms, computed on what changed since the previous scrape. */
module Metrics {
  import opened Options

  /** The upper bound of a bucket; the last bucket has none. */
  datatype Bound = Finite(le: real) | Infinite

  type Counts = map<Bound, real>

  function Count(counts: Counts, bound: Bound): real {
    if bound in counts then counts[bound] else 0.0
  }

  // ------------------------------------------------------------------- samples

  datatype Sample = Sample(bound: Bound, count: real)

  function SumFor(samples: seq<Sample>, bound: Bound): real {
    if samples == [] then 0.0
    else SumFor(samples[..|samples| - 1], bound) +
         (if samples[|samples| - 1].bound == bound then samples[|samples| - 1].count else 0.0)
  }

  /** Each sampled bound with the sum of its samples. */
  function Accumulated(samples: seq<Sample>): Counts {
    map i | 0 <= i < |samples| :: samples[i].bound := SumFor(samples, samples[i].bound)
  }

  /** Adds up the matching lines of a scrape: each bucket holds the sum of its samples and nothing is lost. */
  method Accumulate(samples: seq<Sample>) returns (buckets: Counts)
    ensures buckets == Accumulated(samples)
    ensures forall bound :: Count(buckets, bound) == SumFor(samples, bound)
  {
    buckets := map[];
    for i := 0 to |samples|
      invariant forall bound :: Count(buckets, bound) == SumFor(samples[..i], bound)
      invariant forall bound :: bound in buckets <==> exists j :: 0 <= j < i && samples[j].bound == bound
    {
      assert samples[..i + 1][..i] == samples[..i];
      buckets := buckets[samples[i].bound := Count(buckets, samples[i].bound) + samples[i].count];
    }
    assert samples[..|samples|] == samples;
    forall bound | bound in buckets ensures buckets[bound] == SumFor(samples, bound) {
      assert Count(buckets, bound) == buckets[bound];
    }
  }

  /** Every sample adds its count to its own bound, in whatever pieces the scrape is read. */
  lemma {:induction false} SamplesAddUp(first: seq<Sample>, second: seq<Sample>, bound: Bound)
    ensures Count(Accumulated(first + second), bound) ==
      Count(Accumulated(first), bound) + Count(Accumulated(second), bound)
    ensures |second| == 1 ==>
      Count(Accumulated(second), bound) == if second[0].bound == bound then second[0].count else 0.0
  {
    SumsAddUp(first, second, bound);
    AccumulatedCounts(first, bound);
    AccumulatedCounts(second, bound);
    AccumulatedCounts(first + second, bound);
  }

  lemma {:induction false} AccumulatedCounts(samples: seq<Sample>, bound: Bound)
    ensures Count(Accumulated(samples), bound) == SumFor(samples, bound)
  {
    if samples != [] {
      var earlier := samples[..|samples| - 1];
      AccumulatedCounts(earlier, bound);
      assert samples == earlier + [samples[|samples| - 1]];
    }
  }

  lemma {:induction false} SumsAddUp(first: seq<Sample>, second: seq<Sample>, bound: Bound)
    ensures SumFor(first + second, bound) == SumFor(first, bound) + SumFor(second, bound)
  {
    if second == [] {
      assert first + second == first;
    } else {
      assert (first + second)[..|first + second| - 1] == first + second[..|second| - 1];
      SumsAddUp(first, second[..|second| - 1], bound);
    }
  }

  // -------------------------------------------------------------------- deltas

  predicate Reset(now: Counts, before: Counts) {
    exists bound | bound in before :: Count(now, bound) < before[bound]
  }

  function Delta(now: Counts, before: Counts, bound: Bound): real {
    if Reset(now, before) then Count(now, bound)
    else if Count(now, bound) - Count(before, bound) > 0.0 then Count(now, bound) - Count(before, bound)
    else 0.0
  }

  function Deltas(now: Counts, before: Counts): Counts {
    map bound | bound in now :: Delta(now, before, bound)
  }

  predicate NonNegative(counts: Counts) {
    forall bound | bound in counts :: counts[bound] >= 0.0
  }

  /** Without a reset the clamp at zero never acts, and a bucket that disappeared was empty. */
  lemma NoClampWithoutReset(now: Counts, before: Counts, bound: Bound)
    requires NonNegative(now) && NonNegative(before) && !Reset(now, before)
    ensures Count(Deltas(now, before), bound) == Count(now, bound) - Count(before, bound)
  {
    if bound in before {
      assert Count(now, bound) >= before[bound];
    }
  }

  /** A delta is what came on top, unless some bucket fell below its saved count: then the process began again and every
      count is new. */
  lemma DeltasMean(now: Counts, before: Counts, bound: Bound)
    requires NonNegative(now) && NonNegative(before)
    ensures bound in Deltas(now, before) <==> bound in now
    ensures bound in now ==>
      var began := exists b | b in before :: (if b in now then now[b] else 0.0) < before[b];
      Deltas(now, before)[bound] == (if began || bound !in before then now[bound] else now[bound] - before[bound])
  {
    if !Reset(now, before) && bound in now {
      NoClampWithoutReset(now, before, bound);
    }
  }

  function PreviousOf(scrapes: seq<Counts>): Counts {
    if scrapes == [] then map[] else scrapes[|scrapes| - 1]
  }

  /** The deltas of one bucket, added up over a run that began without a saved state. */
  function TotalDelta(scrapes: seq<Counts>, bound: Bound): real {
    if scrapes == [] then 0.0
    else
      var earlier := scrapes[..|scrapes| - 1];
      TotalDelta(earlier, bound) + Count(Deltas(scrapes[|scrapes| - 1], PreviousOf(earlier)), bound)
  }

  /** What the bucket had reached at the end of each life of the process but the last: just before each reset. */
  function EarlierLives(scrapes: seq<Counts>, bound: Bound): real {
    if scrapes == [] then 0.0
    else
      var earlier := scrapes[..|scrapes| - 1];
      EarlierLives(earlier, bound) +
      (if Reset(scrapes[|scrapes| - 1], PreviousOf(earlier)) then Count(PreviousOf(earlier), bound) else 0.0)
  }

  /** Over any run the deltas of a bucket add up to the counts reached in each life of the process. */
  lemma {:induction false} DeltasTelescope(scrapes: seq<Counts>, bound: Bound)
    requires forall counts | counts in scrapes :: NonNegative(counts)
    ensures TotalDelta(scrapes, bound) == EarlierLives(scrapes, bound) + Count(PreviousOf(scrapes), bound)
  {
    if scrapes != [] {
      var earlier, now := scrapes[..|scrapes| - 1], scrapes[|scrapes| - 1];
      assert now in scrapes && forall counts | counts in earlier :: counts in scrapes;
      DeltasTelescope(earlier, bound);
      if !Reset(now, PreviousOf(earlier)) {
        NoClampWithoutReset(now, PreviousOf(earlier), bound);
      }
    }
  }

  predicate ResetFree(scrapes: seq<Counts>) {
    forall i | 0 < i < |scrapes| :: !Reset(scrapes[i], scrapes[i - 1])
  }

  /** Without a reset they add up to the last count. */
  lemma {:induction false} DeltasSumToLastCount(scrapes: seq<Counts>, bound: Bound)
    requires scrapes != [] && ResetFree(scrapes) && forall counts | counts in scrapes :: NonNegative(counts)
    ensures TotalDelta(scrapes, bound) == Count(scrapes[|scrapes| - 1], bound)
  {
    DeltasTelescope(scrapes, bound);
    NoEarlierLives(scrapes, bound);
  }

  lemma {:induction false} NoEarlierLives(scrapes: seq<Counts>, bound: Bound)
    requires ResetFree(scrapes)
    ensures EarlierLives(scrapes, bound) == 0.0
  {
    if scrapes != [] {
      var earlier := scrapes[..|scrapes| - 1];
      assert ResetFree(earlier);
      NoEarlierLives(earlier, bound);
      if earlier != [] {
        assert PreviousOf(earlier) == scrapes[|scrapes| - 2];
      }
    }
  }

  // ------------------------------------------------------------------ quantile

  predicate Less(a: Bound, b: Bound) {
    a.Finite? && (b.Infinite? || a.le < b.le)
  }

  predicate Ascends(order: seq<Bound>) {
    forall i, j | 0 <= i < j < |order| :: Less(order[i], order[j])
  }

  /** The keys of the deltas in ascending order, as sorted() lists them. */
  ghost predicate Lists(order: seq<Bound>, deltas: Counts) {
    && Ascends(order)
    && (forall bound :: bound in deltas <==> bound in order)
  }

  /** The bound and the count that precede position i. */
  function LowerBound(order: seq<Bound>, i: nat): Bound
    requires i <= |order|
  {
    if i == 0 then Finite(0.0) else order[i - 1]
  }

  function LowerCount(order: seq<Bound>, deltas: Counts, i: nat): real
    requires i <= |order|
  {
    if i == 0 then 0.0 else Count(deltas, order[i - 1])
  }

  /** The point at height rank on the straight line from (low, previous) to (high, count). */
  function Interpolated(low: real, high: real, previous: real, count: real, rank: real): real
    requires previous != count
  {
    low + (high - low) * ((rank - previous) / (count - previous))
  }

  /** The value reported when position i is the first whose count reaches the rank. */
  function ValueAt(order: seq<Bound>, deltas: Counts, rank: real, i: nat): Bound
    requires i < |order|
  {
    var lower, previous, count := LowerBound(order, i), LowerCount(order, deltas, i), Count(deltas, order[i]);
    if order[i].Infinite? || lower.Infinite? then lower
    else if count - previous <= 0.0 then order[i]
    else Finite(Interpolated(lower.le, order[i].le, previous, count, rank))
  }

  predicate IsFirst(order: seq<Bound>, deltas: Counts, rank: real, i: nat) {
    i < |order| && Count(deltas, order[i]) >= rank && forall j | 0 <= j < i :: Count(deltas, order[j]) < rank
  }

  predicate Reached(order: seq<Bound>, deltas: Counts, rank: real) {
    exists i :: 0 <= i < |order| && Count(deltas, order[i]) >= rank
  }

  /** The first position whose count reaches the rank decides; with none, the last bound is reported. */
  ghost predicate IsQuantile(order: seq<Bound>, deltas: Counts, rank: real, value: Bound) {
    if Reached(order, deltas, rank)
    then exists i: nat :: IsFirst(order, deltas, rank, i) && value == ValueAt(order, deltas, rank, i)
    else value == LowerBound(order, |order|)
  }

  /** The loop over the ascending bounds. */
  method Quantile(order: seq<Bound>, deltas: Counts, rank: real) returns (value: Bound)
    requires Lists(order, deltas)
    ensures IsQuantile(order, deltas, rank, value)
  {
    var previousBound, previousCount := Finite(0.0), 0.0;
    for i := 0 to |order|
      invariant previousBound == LowerBound(order, i) && previousCount == LowerCount(order, deltas, i)
      invariant forall j | 0 <= j < i :: Count(deltas, order[j]) < rank
    {
      var bound := order[i];
      var count := deltas[bound];
      if count >= rank {
        assert IsFirst(order, deltas, rank, i);
        if bound.Infinite? {
          return previousBound;
        }
        assert i > 0 ==> Less(order[i - 1], order[i]);
        var bucketCount := count - previousCount;
        if bucketCount <= 0.0 {
          return bound;
        }
        var fraction := (rank - previousCount) / bucketCount;
        return Finite(previousBound.le + (bound.le - previousBound.le) * fraction);
      }
      previousBound, previousCount := bound, count;
    }
    value := previousBound;
  }

  /** Where a bound goes in an ascending list. */
  method Insert(order: seq<Bound>, bound: Bound) returns (longer: seq<Bound>)
    requires Ascends(order) && bound !in order
    ensures Ascends(longer) && forall b :: b in longer <==> b in order || b == bound
  {
    var i := 0;
    while i < |order| && Less(order[i], bound)
      invariant 0 <= i <= |order|
      invariant forall j | 0 <= j < i :: Less(order[j], bound)
    {
      i := i + 1;
    }
    longer := order[..i] + [bound] + order[i..];
    assert i < |order| ==> Less(bound, order[i]);
    InsertAscends(order, bound, i);
    assert order == order[..i] + order[i..];
  }

  lemma InsertAscends(order: seq<Bound>, bound: Bound, i: nat)
    requires Ascends(order) && i <= |order| && (i < |order| ==> Less(bound, order[i]))
    requires forall j | 0 <= j < i :: Less(order[j], bound)
    ensures Ascends(order[..i] + [bound] + order[i..])
  {
    forall j | i <= j < |order| ensures Less(bound, order[j]) {
      if i < j {
        assert Less(order[i], order[j]);
      }
    }
  }

  /** sorted(): the keys in ascending order. */
  method Sorted(deltas: Counts) returns (order: seq<Bound>)
    ensures Lists(order, deltas)
  {
    order := [];
    var rest := deltas.Keys;
    while rest != {}
      invariant rest <= deltas.Keys && Ascends(order)
      invariant forall bound :: bound in order <==> bound in deltas && bound !in rest
    {
      var bound :| bound in rest;
      order := Insert(order, bound);
      rest := rest - {bound};
    }
  }

  /** The same keys are listed in one way only, so the percentile below depends on the deltas alone. */
  lemma {:induction false} ListedOnce(a: seq<Bound>, b: seq<Bound>)
    requires Ascends(a) && Ascends(b) && forall bound :: bound in a <==> bound in b
    ensures a == b
    decreases |a|
  {
    if a == [] {
      NothingListed(b);
    } else {
      assert a[0] in a && b[0] in b;
      FirstIsLeast(a, b[0]);
      FirstIsLeast(b, a[0]);
      forall bound ensures bound in a[1..] <==> bound in b[1..] {
        RestOf(a, bound);
        RestOf(b, bound);
      }
      ListedOnce(a[1..], b[1..]);
      assert a == [a[0]] + a[1..] && b == [b[0]] + b[1..];
    }
  }

  lemma NothingListed(order: seq<Bound>)
    ensures order == [] <==> forall bound :: bound !in order
  {
    if order != [] {
      assert order[0] in order;
    }
  }

  lemma FirstIsLeast(order: seq<Bound>, bound: Bound)
    requires Ascends(order) && bound in order
    ensures bound == order[0] || Less(order[0], bound)
  {
    var i :| 0 <= i < |order| && order[i] == bound;
  }

  lemma RestOf(order: seq<Bound>, bound: Bound)
    requires Ascends(order) && order != []
    ensures bound in order[1..] <==> bound in order && bound != order[0]
  {
    if bound in order && bound != order[0] {
      var i :| 0 <= i < |order| && order[i] == bound;
      assert order[1..][i - 1] == bound;
    }
  }

  /** The 95th percentile of the requests counted by these deltas; None when there were none. */
  ghost predicate IsP95(deltas: Counts, p95: Option<Bound>) {
    && (p95.None? <==> Count(deltas, Infinite) <= 0.0)
    && (p95.Some? ==> forall order | Lists(order, deltas) ::
          IsQuantile(order, deltas, Count(deltas, Infinite) * 0.95, p95.value))
  }

  method RequestP95(deltas: Counts) returns (p95: Option<Bound>)
    ensures IsP95(deltas, p95)
  {
    hide IsQuantile;
    var total := Count(deltas, Infinite);
    if total <= 0.0 {
      return None;
    }
    var order := Sorted(deltas);
    var value := Quantile(order, deltas, total * 0.95);
    forall other | Lists(other, deltas) ensures IsQuantile(other, deltas, total * 0.95, value) {
      ListedOnce(order, other);
    }
    p95 := Some(value);
  }

  /** The request histogram with its state file; None when the file is missing or cannot be read. */
  class RequestHistogram {
    var file: Option<Counts>

    constructor ()
      ensures file == None
    {
      file := None;
    }

    /** One scrape: the counts are saved, and the percentile is that of what changed since the last one. */
    method Scrape(samples: seq<Sample>) returns (p95: Option<Bound>)
      modifies this
      ensures file == Some(Accumulated(samples))
      ensures IsP95(Deltas(Accumulated(samples), if old(file).Some? then old(file).value else map[]), p95)
    {
      hide IsP95, Accumulated;
      var buckets := Accumulate(samples);
      var previous: Counts := map[];
      if file.Some? {
        previous := file.value;
      }
      var reset := exists bound | bound in previous :: Count(buckets, bound) < previous[bound];
      var deltas := map bound | bound in buckets ::
        if reset then buckets[bound]
        else if buckets[bound] - Count(previous, bound) > 0.0 then buckets[bound] - Count(previous, bound)
        else 0.0;
      assert deltas == Deltas(buckets, previous);
      file := Some(buckets);
      p95 := RequestP95(deltas);
    }
  }

  /** A histogram to measure: ascending positive bounds ending in +Inf, and a rank within the total. */
  ghost predicate Measurable(order: seq<Bound>, deltas: Counts, rank: real) {
    && Lists(order, deltas)
    && (forall bound | bound in order && bound.Finite? :: bound.le > 0.0)
    && 0.0 < rank <= Count(deltas, Infinite)
  }

  lemma LowerIsBelow(order: seq<Bound>, deltas: Counts, rank: real, i: nat)
    requires Measurable(order, deltas, rank) && i < |order|
    ensures LowerBound(order, i).Finite? && LowerBound(order, i).le >= 0.0
    ensures order[i].Finite? ==> LowerBound(order, i).le < order[i].le
  {
    if i > 0 {
      assert Less(order[i - 1], order[i]);
      assert order[i - 1] in order;
    }
    assert order[i] in order;
  }

  /** The line between two points passes each height once: the point lies between them and has the height asked for. */
  lemma Interpolation(low: real, high: real, previous: real, count: real, rank: real)
    requires low < high && previous < rank <= count
    ensures low < Interpolated(low, high, previous, count, rank) <= high
    ensures Interpolated(previous, count, low, high, Interpolated(low, high, previous, count, rank)) == rank
  {
    hide Interpolated;
    InterpolatedIsBetween(low, high, previous, count, rank);
    InterpolatedHeight(low, high, previous, count, rank);
  }

  lemma InterpolatedIsBetween(low: real, high: real, previous: real, count: real, rank: real)
    requires low < high && previous < rank <= count
    ensures low < Interpolated(low, high, previous, count, rank) <= high
  {
    var fraction := (rank - previous) / (count - previous);
    Fraction(rank - previous, count - previous);
    Scaled(high - low, fraction);
    assert Interpolated(low, high, previous, count, rank) == low + (high - low) * fraction;
  }

  lemma InterpolatedHeight(low: real, high: real, previous: real, count: real, rank: real)
    requires low < high && previous < rank <= count
    ensures Interpolated(previous, count, low, high, Interpolated(low, high, previous, count, rank)) == rank
  {
    var fraction, width := (rank - previous) / (count - previous), high - low;
    Fraction(rank - previous, count - previous);
    Scaled(width, fraction);
    var value := low + width * fraction;
    assert (value - low) / width == fraction;
    assert Interpolated(previous, count, low, high, value) == previous + (count - previous) * fraction;
    Unscaled(rank - previous, count - previous);
  }

  lemma Unscaled(x: real, y: real)
    requires y > 0.0
    ensures y * (x / y) == x
  {
  }

  lemma Fraction(x: real, y: real)
    requires 0.0 < x <= y
    ensures 0.0 < x / y <= 1.0
  {
  }

  lemma Scaled(width: real, fraction: real)
    requires width > 0.0 && 0.0 < fraction <= 1.0
    ensures 0.0 < width * fraction <= width && (width * fraction) / width == fraction
  {
  }

  lemma InterpolationIsMonotone(low: real, high: real, previous: real, count: real, rank: real, greater: real)
    requires low < high && previous < rank <= greater <= count
    ensures Interpolated(low, high, previous, count, rank) <= Interpolated(low, high, previous, count, greater)
  {
    var f, g := (rank - previous) / (count - previous), (greater - previous) / (count - previous);
    QuotientIsMonotone(rank - previous, greater - previous, count - previous);
    ScaledIsMonotone(high - low, f, g);
  }

  lemma QuotientIsMonotone(x: real, y: real, divisor: real)
    requires x <= y && divisor > 0.0
    ensures x / divisor <= y / divisor
  {
  }

  lemma ScaledIsMonotone(width: real, f: real, g: real)
    requires width > 0.0 && f <= g
    ensures width * f <= width * g
  {
  }

  /** The value that position i reports lies above the previous bound and at most at its own, and the straight line
      through the two cumulative counts has the rank as its height there. */
  ghost predicate InBucket(order: seq<Bound>, deltas: Counts, rank: real, i: nat, value: Bound)
    requires i < |order|
  {
    var lower, count, previous := LowerBound(order, i), Count(deltas, order[i]), LowerCount(order, deltas, i);
    && lower.Finite? && value.Finite?
    && previous < rank <= count
    && (order[i].Infinite? ==> value == lower)
    && (order[i].Finite? ==>
          && lower.le < value.le <= order[i].le
          && Interpolated(previous, count, lower.le, order[i].le, value.le) == rank)
  }

  lemma FirstIsInBucket(order: seq<Bound>, deltas: Counts, rank: real, i: nat)
    requires Measurable(order, deltas, rank) && IsFirst(order, deltas, rank, i)
    ensures InBucket(order, deltas, rank, i, ValueAt(order, deltas, rank, i))
  {
    hide Lists, Interpolated;
    LowerIsBelow(order, deltas, rank, i);
    assert LowerCount(order, deltas, i) < rank;
    if order[i].Finite? {
      Interpolation(LowerBound(order, i).le, order[i].le, LowerCount(order, deltas, i), Count(deltas, order[i]), rank);
    }
  }

  lemma MeasurableIsReached(order: seq<Bound>, deltas: Counts, rank: real)
    requires Measurable(order, deltas, rank)
    ensures Reached(order, deltas, rank)
  {
    assert Infinite in deltas;
    var last :| 0 <= last < |order| && order[last] == Infinite;
  }

  /** On a measurable histogram some position always reaches the rank; the first one decides, its bucket is never empty,
      a finite result lies in (lower bound, bound], and reading the histogram back at the result gives the rank. */
  lemma QuantileIsInBucket(order: seq<Bound>, deltas: Counts, rank: real, value: Bound)
    requires Measurable(order, deltas, rank) && IsQuantile(order, deltas, rank, value)
    ensures exists i: nat :: IsFirst(order, deltas, rank, i) && InBucket(order, deltas, rank, i, value)
  {
    hide Measurable, Reached, InBucket, ValueAt, LowerBound;
    MeasurableIsReached(order, deltas, rank);
    var i: nat :| IsFirst(order, deltas, rank, i) && value == ValueAt(order, deltas, rank, i);
    FirstIsInBucket(order, deltas, rank, i);
  }

  lemma FirstsAscend(order: seq<Bound>, deltas: Counts, rank: real, i: nat, greater: real, j: nat)
    requires IsFirst(order, deltas, rank, i) && IsFirst(order, deltas, greater, j) && rank <= greater
    ensures i <= j
  {
  }

  lemma BoundsAscend(order: seq<Bound>, deltas: Counts, i: nat, j: nat)
    requires Lists(order, deltas) && i < j < |order|
    ensures order[i].Finite? && LowerBound(order, j).Finite? && order[i].le <= LowerBound(order, j).le
  {
    assert Less(order[i], order[j]) && Less(order[j - 1], order[j]);
    if i < j - 1 {
      assert Less(order[i], order[j - 1]);
    }
  }

  /** A higher rank never gives a lower quantile. */
  lemma QuantileIsMonotone(order: seq<Bound>, deltas: Counts, rank: real, value: Bound, greater: real, value': Bound)
    requires Measurable(order, deltas, rank) && IsQuantile(order, deltas, rank, value)
    requires Measurable(order, deltas, greater) && IsQuantile(order, deltas, greater, value')
    requires rank <= greater
    ensures value.Finite? && value'.Finite? && value.le <= value'.le
  {
    hide Measurable, Reached, InBucket, ValueAt, LowerBound;
    MeasurableIsReached(order, deltas, rank);
    MeasurableIsReached(order, deltas, greater);
    var i: nat :| IsFirst(order, deltas, rank, i) && value == ValueAt(order, deltas, rank, i);
    var j: nat :| IsFirst(order, deltas, greater, j) && value' == ValueAt(order, deltas, greater, j);
    FirstsAreMonotone(order, deltas, rank, i, greater, j);
  }

  lemma FirstsAreMonotone(order: seq<Bound>, deltas: Counts, rank: real, i: nat, greater: real, j: nat)
    requires Measurable(order, deltas, rank) && IsFirst(order, deltas, rank, i)
    requires Measurable(order, deltas, greater) && IsFirst(order, deltas, greater, j)
    requires rank <= greater
    ensures i < |order| && j < |order|
    ensures ValueAt(order, deltas, rank, i).Finite? && ValueAt(order, deltas, greater, j).Finite?
    ensures ValueAt(order, deltas, rank, i).le <= ValueAt(order, deltas, greater, j).le
  {
    hide Lists, Interpolated;
    FirstsAscend(order, deltas, rank, i, greater, j);
    FirstIsInBucket(order, deltas, rank, i);
    FirstIsInBucket(order, deltas, greater, j);
    if i < j {
      BoundsAscend(order, deltas, i, j);
    } else if order[i].Finite? {
      LowerIsBelow(order, deltas, rank, i);
      InterpolationIsMonotone(
        LowerBound(order, i).le, order[i].le, LowerCount(order, deltas, i), Count(deltas, order[i]),
        rank, greater);
    }
  }

  /** Every scrape that saw a request reports a percentile, and it is the value at 95 in 100 of them. */
  lemma P95IsMeasurable(order: seq<Bound>, deltas: Counts)
    requires Lists(order, deltas) && Count(deltas, Infinite) > 0.0
    requires forall bound | bound in order && bound.Finite? :: bound.le > 0.0
    ensures Measurable(order, deltas, Count(deltas, Infinite) * 0.95)
  {
  }

  /** What the reported percentile means: 95 of 100 requests took at most that long, reading the histogram as straight
      lines between its bounds; or it is the last finite bound, when fewer than that are counted within it. */
  lemma P95MeansNinetyFiveInHundred(order: seq<Bound>, deltas: Counts, p95: Option<Bound>, rank: real)
    requires Lists(order, deltas) && Count(deltas, Infinite) > 0.0 && IsP95(deltas, p95)
    requires forall bound | bound in order && bound.Finite? :: bound.le > 0.0
    requires rank == Count(deltas, Infinite) * 95.0 / 100.0
    ensures p95.Some? && p95.value.Finite?
    ensures exists i: nat :: IsFirst(order, deltas, rank, i) && InBucket(order, deltas, rank, i, p95.value)
  {
    P95IsMeasurable(order, deltas);
    assert rank == Count(deltas, Infinite) * 0.95;
    hide Lists, Measurable, IsQuantile, InBucket;
    QuantileIsInBucket(order, deltas, rank, p95.value);
    var i: nat :| IsFirst(order, deltas, rank, i) && InBucket(order, deltas, rank, i, p95.value);
    InBucketIsFinite(order, deltas, rank, i, p95.value);
  }

  lemma InBucketIsFinite(order: seq<Bound>, deltas: Counts, rank: real, i: nat, value: Bound)
    requires i < |order| && InBucket(order, deltas, rank, i, value)
    ensures value.Finite?
  {
  }
}
