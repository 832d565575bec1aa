/** The equity curve built on portfolio snapshots: drawdown and downsampling. */
module EquityCurve {
  import opened Common
  import opened Sorting

  // ---- Maximum drawdown -------------------------------------------------------------------

  /** Percentage by which `value` lies below `peak`. */
  function Decline(peak: real, value: real): real
    requires peak > 0.0
  {
    (peak - value) / peak * 100.0
  }

  /** The highest point up to and including index `j`. */
  ghost function PeakAt(points: seq<real>, j: nat): real
    requires j < |points|
  {
    if j == 0 then points[0] else if points[j] > PeakAt(points, j - 1) then points[j] else PeakAt(points, j - 1)
  }

  lemma {:induction false} PeakIsHighest(points: seq<real>, i: nat, j: nat)
    requires i <= j < |points|
    ensures points[i] <= PeakAt(points, j)
    ensures exists k :: 0 <= k <= j && points[k] == PeakAt(points, j)
  {
    if j > 0 {
      PeakIsHighest(points, if i < j then i else j - 1, j - 1);
      if points[j] <= PeakAt(points, j - 1) {
        var k :| 0 <= k <= j - 1 && points[k] == PeakAt(points, j - 1);
        assert points[k] == PeakAt(points, j);
      } else {
        assert points[j] == PeakAt(points, j);
      }
    } else {
      assert points[0] == PeakAt(points, 0);
    }
  }

  /** Some prefix maximum is positive exactly when some point is. */
  ghost predicate EverPositive(points: seq<real>) {
    exists i :: 0 <= i < |points| && points[i] > 0.0
  }

  /** The deepest decline from the running peak; every positive peak competes. */
  ghost predicate IsMaxDrawdown(points: seq<real>, m: real) {
    && (forall j :: 0 <= j < |points| && PeakAt(points, j) > 0.0 ==> Decline(PeakAt(points, j), points[j]) <= m)
    && (exists j :: 0 <= j < |points| && DrawdownAt(points, j, m))
  }

  ghost predicate DrawdownAt(points: seq<real>, j: nat, m: real)
    requires j < |points|
  {
    PeakAt(points, j) > 0.0 && Decline(PeakAt(points, j), points[j]) == m
  }

  /** The result over the first `n` points, as the loop builds it up. */
  ghost predicate DrawdownSoFar(points: seq<real>, n: nat, m: real)
    requires n <= |points|
  {
    && (forall j :: 0 <= j < n && PeakAt(points, j) > 0.0 ==> Decline(PeakAt(points, j), points[j]) <= m)
    && (exists j :: 0 <= j < n && DrawdownAt(points, j, m))
  }

  lemma DrawdownGrows(points: seq<real>, n: nat, m: real)
    requires n < |points| && PeakAt(points, n) > 0.0 && m >= 0.0
    requires if n > 0 && PeakAt(points, n - 1) > 0.0 then DrawdownSoFar(points, n, m) else m == 0.0
    requires forall j :: 0 <= j < n && PeakAt(points, j) > 0.0 ==> PeakAt(points, n - 1) > 0.0
    ensures var d := Decline(PeakAt(points, n), points[n]);
            d >= 0.0 && DrawdownSoFar(points, n + 1, if d > m then d else m)
  {
    var peak := PeakAt(points, n);
    var d := Decline(peak, points[n]);
    PeakIsHighest(points, n, n);
    assert (peak - points[n]) / peak >= 0.0;
    var next := if d > m then d else m;
    if d >= m {
      assert DrawdownAt(points, n, next);
    } else {
      var j :| 0 <= j < n && DrawdownAt(points, j, m);
      assert DrawdownAt(points, j, next);
    }
  }

  lemma {:induction false} PeaksOnlyRise(points: seq<real>, i: nat, j: nat)
    requires i <= j < |points|
    ensures PeakAt(points, i) <= PeakAt(points, j)
  {
    if i < j {
      PeaksOnlyRise(points, i, j - 1);
    }
  }

  method ComputeMaxDrawdownPct(points: seq<real>) returns (r: Option<real>)
    ensures r.None? <==> !EverPositive(points)
    ensures r.Some? ==> IsMaxDrawdown(points, r.value)
  {
    if points == [] {
      return None;
    }
    var peak := points[0];
    var maxDrawdown := 0.0;
    var peakWasPositive := false;
    for n := 0 to |points|
      invariant peak == if n == 0 then points[0] else PeakAt(points, n - 1)
      invariant peakWasPositive <==> n > 0 && peak > 0.0
      invariant maxDrawdown >= 0.0
      invariant if peakWasPositive then DrawdownSoFar(points, n, maxDrawdown) else maxDrawdown == 0.0
    {
      forall j | 0 <= j < n ensures PeakAt(points, j) <= PeakAt(points, n - 1) {
        PeaksOnlyRise(points, j, n - 1);
      }
      if points[n] > peak {
        peak := points[n];
      }
      assert peak == PeakAt(points, n);
      if peak > 0.0 {
        DrawdownGrows(points, n, maxDrawdown);
        peakWasPositive := true;
        var drawdown := (peak - points[n]) / peak * 100.0;
        if drawdown > maxDrawdown {
          maxDrawdown := drawdown;
        }
      }
    }
    PeakIsPositiveSomewhere(points);
    return if peakWasPositive then Some(maxDrawdown) else None;
  }

  lemma PeakIsPositiveSomewhere(points: seq<real>)
    requires points != []
    ensures PeakAt(points, |points| - 1) > 0.0 <==> EverPositive(points)
  {
    PeakIsHighest(points, 0, |points| - 1);
    forall i | 0 <= i < |points| ensures points[i] <= PeakAt(points, |points| - 1) {
      PeakIsHighest(points, i, |points| - 1);
    }
  }

  ghost predicate NonNegative(points: seq<real>) {
    forall i :: 0 <= i < |points| ==> points[i] >= 0.0
  }

  /** A fall from a point to a later one. */
  ghost predicate Fall(points: seq<real>, i: nat, j: nat) {
    i <= j < |points| && points[i] > 0.0
  }

  /** The brute-force reading: the worst decline over all pairs of points. */
  ghost predicate IsWorstFall(points: seq<real>, m: real) {
    && (forall i: nat, j: nat :: Fall(points, i, j) ==> Decline(points[i], points[j]) <= m)
    && (exists i: nat, j: nat :: Fall(points, i, j) && Decline(points[i], points[j]) == m)
  }

  lemma Cancel(a: real, b: real, k: real)
    requires k > 0.0
    ensures a <= b <==> a * k <= b * k
  {
    if a <= b {
      assert (b - a) * k >= 0.0;
    } else {
      assert (a - b) * k > 0.0;
    }
  }

  lemma DeclineIsComplement(peak: real, value: real)
    requires peak > 0.0
    ensures Decline(peak, value) == (1.0 - value / peak) * 100.0
  {
    var q, r := (peak - value) / peak, value / peak;
    assert q * peak == peak - value && r * peak == value;
    assert (1.0 - r) * peak == peak - r * peak;
    Cancel(q, 1.0 - r, peak);
    Cancel(1.0 - r, q, peak);
  }

  lemma ScaleReals(a: real, b: real, k: real)
    requires a <= b && k >= 0.0
    ensures k * a <= k * b
  {
    assert k * (b - a) >= 0.0;
  }

  lemma LowerShare(low: real, high: real, value: real, a: real, b: real)
    requires 0.0 < low <= high && value >= 0.0 && a * low == value && b * high == value
    ensures b <= a
  {
    Cancel(0.0, b, high);
    ScaleReals(low, high, b);
    Cancel(b, a, low);
  }

  lemma HigherPeakDeeperDecline(low: real, high: real, value: real)
    requires 0.0 < low <= high && value >= 0.0
    ensures Decline(low, value) <= Decline(high, value)
  {
    DeclineIsComplement(low, value);
    DeclineIsComplement(high, value);
    LowerShare(low, high, value, value / low, value / high);
  }

  /** A fall that does not go below zero never beats the running peak at its end. */
  lemma FallAboveZeroIsMatched(points: seq<real>, i: nat, j: nat)
    requires Fall(points, i, j) && points[j] >= 0.0
    ensures PeakAt(points, j) > 0.0 && Decline(points[i], points[j]) <= Decline(PeakAt(points, j), points[j])
  {
    PeakIsHighest(points, i, j);
    HigherPeakDeeperDecline(points[i], PeakAt(points, j), points[j]);
  }

  lemma PeakIsSomeFall(points: seq<real>, j: nat) returns (k: nat)
    requires j < |points| && PeakAt(points, j) > 0.0
    ensures Fall(points, k, j) && Decline(points[k], points[j]) == Decline(PeakAt(points, j), points[j])
  {
    PeakIsHighest(points, j, j);
    k :| 0 <= k <= j && points[k] == PeakAt(points, j);
  }

  /** On a non-negative series the one-pass result is the worst fall over all pairs. */
  lemma RunningPeakFindsWorstFall(points: seq<real>, m: real)
    requires NonNegative(points)
    ensures IsMaxDrawdown(points, m) <==> IsWorstFall(points, m)
  {
    if IsMaxDrawdown(points, m) {
      forall i: nat, j: nat | Fall(points, i, j) ensures Decline(points[i], points[j]) <= m {
        FallAboveZeroIsMatched(points, i, j);
      }
      var j :| 0 <= j < |points| && DrawdownAt(points, j, m);
      var k := PeakIsSomeFall(points, j);
      assert Fall(points, k, j) && Decline(points[k], points[j]) == m;
    }
    if IsWorstFall(points, m) {
      WorstFallIsDrawdown(points, m);
    }
  }

  lemma WorstFallIsDrawdown(points: seq<real>, m: real)
    requires NonNegative(points) && IsWorstFall(points, m)
    ensures IsMaxDrawdown(points, m)
  {
    forall j: nat | j < |points| && PeakAt(points, j) > 0.0
      ensures Decline(PeakAt(points, j), points[j]) <= m
    {
      var k := PeakIsSomeFall(points, j);
    }
    var i: nat, j: nat :| Fall(points, i, j) && Decline(points[i], points[j]) == m;
    FallAboveZeroIsMatched(points, i, j);
    assert DrawdownAt(points, j, m);
  }

  /** Some running decline is at least as deep as the fall from `i` to `j`. */
  ghost predicate Matched(points: seq<real>, i: nat, j: nat) {
    Fall(points, i, j) ==>
      exists k: nat :: k < |points| && PeakAt(points, k) > 0.0
                       && Decline(PeakAt(points, k), points[k]) >= Decline(points[i], points[j])
  }

  /** Every fall below zero is matched by the running peak. */
  ghost predicate NegativeFallsMatched(points: seq<real>) {
    forall i: nat, j: nat :: Fall(points, i, j) && points[j] < 0.0 ==> Matched(points, i, j)
  }

  lemma MatchedFallsAreBounded(points: seq<real>, m: real, i: nat, j: nat)
    requires IsMaxDrawdown(points, m) && Fall(points, i, j) && (points[j] < 0.0 ==> Matched(points, i, j))
    ensures Decline(points[i], points[j]) <= m
  {
    if points[j] >= 0.0 {
      FallAboveZeroIsMatched(points, i, j);
    }
  }

  /** For any series: the one-pass result is the worst fall over all pairs exactly when no fall
      below zero is deeper than every running decline; a smaller baseline can make it so. */
  lemma RunningPeakFindsWorstFallExactly(points: seq<real>, m: real)
    requires IsMaxDrawdown(points, m)
    ensures IsWorstFall(points, m) <==> NegativeFallsMatched(points)
  {
    var d: nat :| d < |points| && DrawdownAt(points, d, m);
    var p := PeakIsSomeFall(points, d);
    assert Fall(points, p, d) && Decline(points[p], points[d]) == m;
    if NegativeFallsMatched(points) {
      forall i: nat, j: nat | Fall(points, i, j) ensures Decline(points[i], points[j]) <= m {
        MatchedFallsAreBounded(points, m, i, j);
      }
    }
    if IsWorstFall(points, m) {
      forall i: nat, j: nat | Fall(points, i, j) && points[j] < 0.0 ensures Matched(points, i, j) {
        assert Decline(PeakAt(points, d), points[d]) >= Decline(points[i], points[j]);
      }
    }
  }

  /** The condition does fail: here the smaller first point falls by 200%, the running peak by 150%. */
  lemma NegativeValuesHideTheWorstFall()
    ensures IsMaxDrawdown([1.0, 2.0, -1.0], 150.0) && !NegativeFallsMatched([1.0, 2.0, -1.0])
  {
    var points := [1.0, 2.0, -1.0];
    assert PeakAt(points, 0) == 1.0 && PeakAt(points, 1) == 2.0 && PeakAt(points, 2) == 2.0;
    assert DrawdownAt(points, 2, 150.0);
    assert Fall(points, 0, 2) && Decline(points[0], points[2]) == 200.0;
    assert !Matched(points, 0, 2);
  }

  /** A drawdown of a non-negative series is a percentage, and zero exactly for a series that never falls. */
  lemma DrawdownIsAPercentage(points: seq<real>, m: real)
    requires NonNegative(points) && IsMaxDrawdown(points, m)
    ensures 0.0 <= m <= 100.0
    ensures m == 0.0 <==> forall i, j :: 0 <= i <= j < |points| ==> points[i] <= points[j]
  {
    RunningPeakFindsWorstFall(points, m);
    var a: nat, b: nat :| Fall(points, a, b) && Decline(points[a], points[b]) == m;
    assert Fall(points, a, a) && Decline(points[a], points[a]) == 0.0;
    forall i: nat, j: nat | Fall(points, i, j)
      ensures Decline(points[i], points[j]) <= 100.0
      ensures Decline(points[i], points[j]) <= 0.0 <==> points[i] <= points[j]
    {
      DeclineSign(points[i], points[j]);
    }
    if m == 0.0 {
      forall i, j | 0 <= i <= j < |points| ensures points[i] <= points[j] {
        if points[i] > 0.0 {
          assert Fall(points, i, j);
        }
      }
    }
  }

  lemma DeclineSign(peak: real, value: real)
    requires peak > 0.0 && value >= 0.0
    ensures Decline(peak, value) <= 100.0
    ensures Decline(peak, value) <= 0.0 <==> peak <= value
  {
    DeclineIsComplement(peak, value);
    var ratio := value / peak;
    assert ratio * peak == value;
    Cancel(0.0, ratio, peak);
    Cancel(1.0, ratio, peak);
  }

  // ---- Buckets -------------------------------------------------------------------------------

  const MICROS_PER_MINUTE := 60_000_000

  /** `at` counts microseconds from the epoch and may lie before it. */
  datatype Snapshot = Snapshot(at: int, value: real)

  /** The start of the interval that contains `now`: seconds are dropped first, then whole minutes. */
  function BucketTimestamp(now: int, intervalMinutes: int): int
    requires intervalMinutes > 0
  {
    BucketStart(now / MICROS_PER_MINUTE / intervalMinutes, intervalMinutes)
  }

  function BucketStart(k: int, intervalMinutes: int): int { k * intervalMinutes * MICROS_PER_MINUTE }

  lemma ScaleLe(a: int, b: int, c: int)
    requires a <= b && c > 0
    ensures a * c <= b * c
  {
  }

  lemma FloorTwice(now: int, unit: int, n: int)
    requires unit > 0 && n > 0
    ensures var k := now / unit / n; k * n * unit <= now < k * n * unit + n * unit
  {
    var minute := now / unit;
    var k := minute / n;
    assert minute * unit <= now < minute * unit + unit;
    assert n * k <= minute <= n * k + n - 1;
    ScaleLe(n * k, minute, unit);
    ScaleLe(minute, n * k + n - 1, unit);
    assert (n * k + n - 1) * unit == n * k * unit + n * unit - unit;
  }

  lemma GridStep(i: int, j: int, n: int)
    requires n > 0 && i < j
    ensures BucketStart(i, n) + n * MICROS_PER_MINUTE <= BucketStart(j, n)
  {
    ScaleLe(i + 1, j, n);
    assert (i + 1) * n == i * n + n;
  }

  /** The bucket is the one grid interval around the instant, also before the epoch. */
  lemma BucketSurrounds(now: int, n: int, k: int)
    requires n > 0
    ensures BucketTimestamp(now, n) == BucketStart(k, n)
            <==> BucketStart(k, n) <= now < BucketStart(k, n) + n * MICROS_PER_MINUTE
    ensures BucketStart(k, n) == k * n * 60_000_000
    ensures BucketTimestamp(now, n) <= now < BucketTimestamp(now, n) + n * 60_000_000
  {
    var i := now / MICROS_PER_MINUTE / n;
    FloorTwice(now, MICROS_PER_MINUTE, n);
    if i < k {
      GridStep(i, k, n);
    } else if k < i {
      GridStep(k, i, n);
    }
  }

  lemma BucketsAscend(a: int, b: int, n: int)
    requires n > 0 && a <= b
    ensures BucketTimestamp(a, n) <= BucketTimestamp(b, n)
  {
    var i, j := a / MICROS_PER_MINUTE / n, b / MICROS_PER_MINUTE / n;
    BucketSurrounds(a, n, i);
    BucketSurrounds(b, n, j);
    if j < i {
      GridStep(j, i, n);
    }
  }

  /** Buckets of a multiple are unions of buckets. */
  lemma CoarserBucketsNest(a: int, b: int, n: int, times: int)
    requires n > 0 && times > 0 && BucketTimestamp(a, n) == BucketTimestamp(b, n)
    ensures n * times > 0 && BucketTimestamp(a, n * times) == BucketTimestamp(b, n * times)
  {
    assert n * times > 0;
    var x, y := a / MICROS_PER_MINUTE, b / MICROS_PER_MINUTE;
    SameStartSameBucket(x / n, y / n, n);
    DivideTwice(x, n, times);
    DivideTwice(y, n, times);
  }

  lemma SameStartSameBucket(i: int, j: int, n: int)
    requires n > 0 && BucketStart(i, n) == BucketStart(j, n)
    ensures i == j
  {
    if i < j {
      GridStep(i, j, n);
    } else if j < i {
      GridStep(j, i, n);
    }
  }

  /** At most one multiple of `n` lies in a half-open window of length `n`. */
  lemma OneMultiple(i: int, j: int, n: int, x: int)
    requires n > 0 && i * n <= x < i * n + n && j * n <= x < j * n + n
    ensures i == j
  {
    ScaleLt(i, j, n);
    ScaleLt(j, i, n);
  }

  lemma ScaleLt(a: int, b: int, c: int)
    requires c > 0
    ensures a < b ==> a * c + c <= b * c
  {
    if a < b {
      ScaleLe(a + 1, b, c);
      assert (a + 1) * c == a * c + c;
    }
  }

  lemma DivideTwice(x: int, n: int, times: int)
    requires n > 0 && times > 0 && n * times > 0
    ensures x / (n * times) == x / n / times
  {
    FloorTwice(x, n, times);
    var k, q, m := x / n / times, x / (n * times), n * times;
    assert q * m <= x < q * m + m;
    assert k * times * n == k * m;
    OneMultiple(q, k, m, x);
  }

  // ---- Keeping the last element per key ------------------------------------------------------------

  type Key = Snapshot -> int

  /** A new snapshot replaces the kept one of its key, or opens a new key. */
  function Keep(kept: seq<Snapshot>, x: Snapshot, key: Key): seq<Snapshot> {
    if kept != [] && key(kept[|kept| - 1]) == key(x) then kept[..|kept| - 1] + [x] else kept + [x]
  }

  function KeepLast(s: seq<Snapshot>, key: Key): seq<Snapshot> {
    if s == [] then [] else Keep(KeepLast(s[..|s| - 1], key), s[|s| - 1], key)
  }

  ghost predicate Increasing(s: seq<Snapshot>, key: Key) {
    forall i, j :: 0 <= i < j < |s| ==> key(s[i]) < key(s[j])
  }

  lemma KeepLastSnoc(s: seq<Snapshot>, x: Snapshot, key: Key)
    ensures KeepLast(s + [x], key) == Keep(KeepLast(s, key), x, key)
  {
    assert (s + [x])[..|s|] == s;
  }

  lemma AscendingFront(s: seq<Snapshot>, key: Key)
    requires s != [] && Ascending(s, key)
    ensures Ascending(s[..|s| - 1], key)
    ensures |s| > 1 ==> key(s[|s| - 2]) <= key(s[|s| - 1])
  {
  }

  ghost predicate NewestBelow(kept: seq<Snapshot>, x: Snapshot, key: Key) {
    kept != [] ==> key(kept[|kept| - 1]) <= key(x)
  }

  lemma KeepIncreases(kept: seq<Snapshot>, x: Snapshot, key: Key)
    requires Increasing(kept, key) && NewestBelow(kept, x, key)
    ensures Increasing(Keep(kept, x, key), key)
  {
    var r := Keep(kept, x, key);
    forall i, j | 0 <= i < j < |r| ensures key(r[i]) < key(r[j]) {
      if j < |r| - 1 || |r| == |kept| {
        assert key(kept[i]) < key(kept[j]);
      } else if i < |kept| - 1 {
        assert key(kept[i]) < key(kept[|kept| - 1]);
      }
    }
  }

  /** Keys of kept snapshots increase strictly, and the newest snapshot is kept last. */
  lemma {:induction false} KeptKeysIncrease(s: seq<Snapshot>, key: Key)
    requires Ascending(s, key)
    ensures s != [] ==> var r := KeepLast(s, key); r != [] && r[|r| - 1] == s[|s| - 1]
    ensures Increasing(KeepLast(s, key), key)
  {
    if s != [] {
      var front, x := s[..|s| - 1], s[|s| - 1];
      assert Increasing(KeepLast(front, key), key) && NewestBelow(KeepLast(front, key), x, key) by {
        AscendingFront(s, key);
        KeptKeysIncrease(front, key);
      }
      KeepIncreases(KeepLast(front, key), x, key);
    }
  }

  /** The kept snapshots by position: those after which their key does not occur again. */
  ghost predicate LastOfKey(s: seq<Snapshot>, i: nat, key: Key)
    requires i < |s|
  {
    forall j :: i < j < |s| ==> key(s[j]) != key(s[i])
  }

  ghost function LastOnes(s: seq<Snapshot>, upTo: nat, key: Key): seq<Snapshot>
    requires upTo <= |s|
  {
    if upTo == 0 then []
    else LastOnes(s, upTo - 1, key) + if LastOfKey(s, upTo - 1, key) then [s[upTo - 1]] else []
  }

  lemma LastOfPrefix(s: seq<Snapshot>, x: Snapshot, i: nat, key: Key)
    requires Ascending(s + [x], key) && i < |s|
    ensures LastOfKey(s + [x], i, key) <==> LastOfKey(s, i, key) && !(i == |s| - 1 && key(s[i]) == key(x))
  {
    var t := s + [x];
    assert t[|s|] == x && t[i] == s[i] && key(t[i]) <= key(t[|s| - 1]) <= key(x);
    assert forall j :: i < j < |s| ==> t[j] == s[j];
    if LastOfKey(s, i, key) && !(i == |s| - 1 && key(s[i]) == key(x)) {
      assert i < |s| - 1 ==> key(s[|s| - 1]) != key(s[i]);
      forall j | i < j < |t| ensures key(t[j]) != key(t[i]) {
      }
    }
  }

  lemma {:induction false} LastOnesOfPrefix(s: seq<Snapshot>, x: Snapshot, upTo: nat, key: Key)
    requires Ascending(s + [x], key) && upTo <= |s|
    ensures LastOnes(s + [x], upTo, key)
         == if upTo == |s| && s != [] && key(s[|s| - 1]) == key(x) then LastOnes(s, upTo - 1, key)
            else LastOnes(s, upTo, key)
  {
    if upTo > 0 {
      LastOnesOfPrefix(s, x, upTo - 1, key);
      LastOfPrefix(s, x, upTo - 1, key);
    }
  }

  /** On ascending keys the kept snapshots are exactly the last of each key, in order. */
  lemma {:induction false} KeepsLastOfEachKey(s: seq<Snapshot>, key: Key)
    requires Ascending(s, key)
    ensures KeepLast(s, key) == LastOnes(s, |s|, key)
  {
    if s != [] {
      var front, x := s[..|s| - 1], s[|s| - 1];
      assert s == front + [x];
      AscendingFront(s, key);
      KeepsLastOfEachKey(front, key);
      KeptKeysIncrease(front, key);
      LastOnesOfPrefix(front, x, |front|, key);
      assert LastOfKey(s, |s| - 1, key);
      if front != [] {
        assert LastOfKey(front, |front| - 1, key);
      }
    }
  }

  /** No key that occurs is lost. */
  lemma {:induction false} EveryKeyIsKept(s: seq<Snapshot>, x: Snapshot, key: Key) returns (k: nat)
    requires x in s
    ensures k < |KeepLast(s, key)| && key(KeepLast(s, key)[k]) == key(x)
  {
    var front, last := s[..|s| - 1], s[|s| - 1];
    if key(last) == key(x) {
      k := |KeepLast(s, key)| - 1;
    } else {
      assert x in front;
      k := EveryKeyIsKept(front, x, key);
    }
  }

  ghost predicate Refines(s: seq<Snapshot>, fine: Key, coarse: Key) {
    forall x, y :: x in s && y in s && fine(x) == fine(y) ==> coarse(x) == coarse(y)
  }

  lemma {:induction false} KeptAreMembers(s: seq<Snapshot>, key: Key)
    ensures forall x :: x in KeepLast(s, key) ==> x in s
  {
    if s != [] {
      KeptAreMembers(s[..|s| - 1], key);
      forall x | x in KeepLast(s, key) ensures x in s {
        assert x in KeepLast(s[..|s| - 1], key) || x == s[|s| - 1];
      }
    }
  }

  /** Keeping by a finer key first makes no difference. */
  lemma {:induction false} CoarseAfterFine(s: seq<Snapshot>, fine: Key, coarse: Key)
    requires Refines(s, fine, coarse)
    ensures KeepLast(KeepLast(s, fine), coarse) == KeepLast(s, coarse)
  {
    if s != [] {
      var front, x := s[..|s| - 1], s[|s| - 1];
      CoarseAfterFine(front, fine, coarse);
      var r := KeepLast(front, fine);
      if r != [] && fine(r[|r| - 1]) == fine(x) {
        var base, y := r[..|r| - 1], r[|r| - 1];
        KeptAreMembers(front, fine);
        assert y in r && y in s && x in s;
        KeepLastSnoc(base, x, coarse);
        ReplacedTwice(KeepLast(base, coarse), y, x, coarse);
      } else {
        KeepLastSnoc(r, x, coarse);
      }
    }
  }

  lemma ReplacedTwice(kept: seq<Snapshot>, y: Snapshot, x: Snapshot, key: Key)
    requires key(y) == key(x)
    ensures Keep(Keep(kept, y, key), x, key) == Keep(kept, x, key)
  {
  }

  // ---- Downsampling -----------------------------------------------------------------------------

  function At(s: Snapshot): int { s.at }

  function BucketOf(n: int): Key
    requires n > 0
  {
    (x: Snapshot) => BucketTimestamp(x.at, n)
  }

  function Downsampled(s: seq<Snapshot>, n: int): seq<Snapshot> {
    if n <= 0 then s else KeepLast(s, BucketOf(n))
  }

  lemma BucketsOfAscending(s: seq<Snapshot>, n: int)
    requires n > 0 && Ascending(s, At)
    ensures Ascending(s, BucketOf(n))
  {
    forall i, j | 0 <= i < j < |s| ensures BucketOf(n)(s[i]) <= BucketOf(n)(s[j]) {
      assert At(s[i]) <= At(s[j]);
      BucketsAscend(s[i].at, s[j].at, n);
    }
  }

  /** Keeps the last snapshot of every bucket; the dictionary is its map and its keys in insertion order. */
  method Downsample(snapshots: seq<Snapshot>, bucketMinutes: int) returns (r: seq<Snapshot>)
    requires Ascending(snapshots, At)
    ensures r == Downsampled(snapshots, bucketMinutes)
  {
    if bucketMinutes <= 0 {
      return snapshots;
    }
    var key := BucketOf(bucketMinutes);
    BucketsOfAscending(snapshots, bucketMinutes);
    var buckets: map<int, Snapshot> := map[];
    var keys: seq<int> := [];
    for i := 0 to |snapshots|
      invariant Holds(buckets, keys, KeepLast(snapshots[..i], key), key)
    {
      var snapshot := snapshots[i];
      var bucketKey := key(snapshot);
      StoreKeeps(buckets, keys, snapshots, i, key);
      if bucketKey !in buckets {
        keys := keys + [bucketKey];
      }
      buckets := buckets[bucketKey := snapshot];
    }
    assert snapshots[..|snapshots|] == snapshots;
    r := Collect(buckets, SortedKeys(keys), KeepLast(snapshots, key), key) by {
      KeptKeysIncrease(snapshots, key);
      StoredKeysAreSorted(buckets, keys, KeepLast(snapshots, key), key);
    }
  }

  /** The final list comprehension over the sorted keys. */
  method Collect(buckets: map<int, Snapshot>, sortedKeys: seq<int>, ghost kept: seq<Snapshot>, key: Key)
    returns (r: seq<Snapshot>)
    requires Holds(buckets, sortedKeys, kept, key)
    ensures r == kept
  {
    r := [];
    for j := 0 to |sortedKeys|
      invariant r == kept[..j]
    {
      r := r + [buckets[sortedKeys[j]]];
    }
  }

  function SortedKeys(keys: seq<int>): seq<int> { SortBy(keys, (k: int) => k) }

  lemma StoredKeysAreSorted(buckets: map<int, Snapshot>, keys: seq<int>, kept: seq<Snapshot>, key: Key)
    requires Holds(buckets, keys, kept, key) && Increasing(kept, key)
    ensures SortedKeys(keys) == keys
  {
    var identity := (k: int) => k;
    forall i, j | 0 <= i < j < |keys| ensures identity(keys[i]) <= identity(keys[j]) {
      assert key(kept[i]) < key(kept[j]);
    }
    SortByFixesAscending(keys, identity);
  }

  ghost predicate Holds(buckets: map<int, Snapshot>, keys: seq<int>, kept: seq<Snapshot>, key: Key) {
    && |keys| == |kept|
    && (forall j :: 0 <= j < |keys| ==> keys[j] == key(kept[j]) && keys[j] in buckets && buckets[keys[j]] == kept[j])
    && (forall k :: k in buckets ==> k in keys)
  }

  /** Storing the next snapshot of an ascending list: its key is new, or the newest. */
  lemma StoreKeeps(buckets: map<int, Snapshot>, keys: seq<int>, s: seq<Snapshot>, i: nat, key: Key)
    requires Ascending(s, key) && i < |s| && Holds(buckets, keys, KeepLast(s[..i], key), key)
    ensures Holds(buckets[key(s[i]) := s[i]], if key(s[i]) in buckets then keys else keys + [key(s[i])],
                  KeepLast(s[..i + 1], key), key)
  {
    var kept, x := KeepLast(s[..i], key), s[i];
    assert s[..i + 1] == s[..i] + [x];
    KeepLastSnoc(s[..i], x, key);
    KeptKeysIncrease(s[..i], key);
    if i > 0 {
      assert kept[|kept| - 1] == s[..i][i - 1] == s[i - 1];
      assert key(s[i - 1]) <= key(s[i]);
    }
    StoreIntoKept(buckets, keys, kept, x, key);
  }

  lemma StoreIntoKept(buckets: map<int, Snapshot>, keys: seq<int>, kept: seq<Snapshot>, x: Snapshot, key: Key)
    requires Holds(buckets, keys, kept, key) && Increasing(kept, key)
    requires kept != [] ==> key(kept[|kept| - 1]) <= key(x)
    ensures Holds(buckets[key(x) := x], if key(x) in buckets then keys else keys + [key(x)], Keep(kept, x, key), key)
  {
    var k := key(x);
    var after := buckets[k := x];
    if k in buckets {
      assert k in keys;
      var j :| 0 <= j < |keys| && keys[j] == k;
      assert key(kept[j]) == k && key(kept[j]) <= key(kept[|kept| - 1]);
      forall i | 0 <= i < |keys| - 1 ensures keys[i] != key(x) {
        assert key(kept[i]) < key(kept[|kept| - 1]);
      }
    } else {
      forall k | k in after ensures k in keys + [key(x)] {
        assert k in keys || k == key(x);
      }
    }
  }

  /** One point per bucket that has any, the last one there; strictly increasing buckets; the newest point stays. */
  lemma DownsamplingKeepsLastOfEachBucket(s: seq<Snapshot>, n: int)
    requires n > 0 && Ascending(s, At)
    ensures var r := Downsampled(s, n);
            && r == LastOnes(s, |s|, BucketOf(n))
            && Increasing(r, BucketOf(n))
            && (forall x :: x in s ==> 
                  exists k :: 0 <= k < |r| && BucketTimestamp(r[k].at, n) == BucketTimestamp(x.at, n))
            && (s != [] ==> r != [] && r[|r| - 1] == s[|s| - 1])
  {
    var r := Downsampled(s, n);
    BucketsOfAscending(s, n);
    KeepsLastOfEachKey(s, BucketOf(n));
    KeptKeysIncrease(s, BucketOf(n));
    forall x | x in s
      ensures exists k :: 0 <= k < |r| && BucketTimestamp(r[k].at, n) == BucketTimestamp(x.at, n)
    {
      var k := EveryKeyIsKept(s, x, BucketOf(n));
      assert BucketTimestamp(r[k].at, n) == BucketTimestamp(x.at, n);
    }
  }

  /** Downsampling by a divisor first makes no difference. */
  lemma CoarserDownsamplingAbsorbsFiner(s: seq<Snapshot>, n: int, times: int)
    requires n > 0 && times > 0
    ensures Downsampled(Downsampled(s, n), n * times) == Downsampled(s, n * times)
  {
    assert n * times > 0;
    var fine, coarse := BucketOf(n), BucketOf(n * times);
    forall x, y | x in s && y in s && fine(x) == fine(y) ensures coarse(x) == coarse(y) {
      CoarserBucketsNest(x.at, y.at, n, times);
    }
    CoarseAfterFine(s, fine, coarse);
  }

  // ---- Downsampling and drawdown ------------------------------------------------------------------

  function Values(s: seq<Snapshot>): (r: seq<real>)
    ensures |r| == |s| && forall i :: 0 <= i < |s| ==> r[i] == s[i].value
  {
    if s == [] then [] else Values(s[..|s| - 1]) + [s[|s| - 1].value]
  }

  /** Where the elements of a subsequence came from. */
  ghost predicate Traces(sub: seq<Snapshot>, s: seq<Snapshot>, origin: seq<nat>) {
    && |origin| == |sub|
    && (forall k :: 0 <= k < |sub| ==> origin[k] < |s| && s[origin[k]] == sub[k])
    && (forall k, l :: 0 <= k < l < |sub| ==> origin[k] < origin[l])
  }

  lemma TracesOneMore(sub: seq<Snapshot>, front: seq<Snapshot>, x: Snapshot, origin: seq<nat>)
    requires Traces(sub, front, origin)
    ensures Traces(sub + [x], front + [x], origin + [|front|])
  {
  }

  lemma TracesOneLess(sub: seq<Snapshot>, s: seq<Snapshot>, origin: seq<nat>)
    requires Traces(sub, s, origin) && sub != []
    ensures Traces(sub[..|sub| - 1], s, origin[..|origin| - 1])
  {
  }

  lemma {:induction false} KeptIsSubsequence(s: seq<Snapshot>, key: Key) returns (origin: seq<nat>)
    ensures Traces(KeepLast(s, key), s, origin)
  {
    if s == [] {
      origin := [];
    } else {
      var front, x := s[..|s| - 1], s[|s| - 1];
      origin := KeptIsSubsequence(front, key);
      var r := KeepLast(front, key);
      if Keep(r, x, key) != r + [x] {
        TracesOneLess(r, front, origin);
        r, origin := r[..|r| - 1], origin[..|origin| - 1];
      }
      TracesOneMore(r, front, x, origin);
      assert s == front + [x];
      origin := origin + [|front|];
    }
  }

  /** Fewer points can only hide a fall: on non-negative values the drawdown never grows. */
  lemma DownsamplingNeverDeepensDrawdown(s: seq<Snapshot>, n: int, fine: real, coarse: real)
    requires NonNegative(Values(s))
    requires IsMaxDrawdown(Values(s), fine) && IsMaxDrawdown(Values(Downsampled(s, n)), coarse)
    ensures coarse <= fine
  {
    if n > 0 {
      var origin := KeptIsSubsequence(s, BucketOf(n));
      SubsequenceFallsLess(s, Downsampled(s, n), origin, fine, coarse);
    } else {
      RunningPeakFindsWorstFall(Values(s), fine);
      RunningPeakFindsWorstFall(Values(s), coarse);
    }
  }

  lemma SubsequenceFallsLess(s: seq<Snapshot>, sub: seq<Snapshot>, origin: seq<nat>, fine: real, coarse: real)
    requires Traces(sub, s, origin) && NonNegative(Values(s))
    requires IsMaxDrawdown(Values(s), fine) && IsMaxDrawdown(Values(sub), coarse)
    ensures coarse <= fine
  {
    var values, points := Values(s), Values(sub);
    assert NonNegative(points) by {
      forall k | 0 <= k < |points| ensures points[k] >= 0.0 {
        assert points[k] == values[origin[k]];
      }
    }
    RunningPeakFindsWorstFall(values, fine);
    RunningPeakFindsWorstFall(points, coarse);
    var i: nat, j: nat :| Fall(points, i, j) && Decline(points[i], points[j]) == coarse;
    assert points[i] == values[origin[i]] && points[j] == values[origin[j]];
    assert Fall(values, origin[i], origin[j]);
  }
}
