/**
 * The indicator engine of `analyze` and `calc_rsi`: the latest close, the
 * 5- and 20-bar simple moving averages of the close, the last two volumes
 * and the 14-period RSI computed with simple (not exponential) averages.
 * Bars arrive in ascending date order, as the data fetch leaves them.
 */
module Indicators {
  import opened Wrappers

  /** One daily bar; the date only orders the sequence and is not kept. */
  datatype Bar = Bar(open: real, high: real, low: real, close: real, volume: real)

  /** The minimum number of bars `analyze` accepts. */
  const MinBars: nat := 20

  /** The RSI window: 14 day-over-day changes. */
  const RsiPeriod: nat := 14

  function Closes(bars: seq<Bar>): (c: seq<real>)
    ensures |c| == |bars|
    ensures forall i :: 0 <= i < |bars| ==> c[i] == bars[i].close
  {
    seq(|bars|, i requires 0 <= i < |bars| => bars[i].close)
  }

  function Sum(s: seq<real>): real
  {
    if s == [] then 0.0 else s[0] + Sum(s[1..])
  }

  /** The arithmetic mean (pandas `Series.mean`). */
  function Mean(s: seq<real>): real
    requires |s| > 0
  {
    Sum(s) / |s| as real
  }

  /** The last `k` elements (`iloc[-k:]`). */
  function Last<T>(s: seq<T>, k: nat): (r: seq<T>)
    requires k <= |s|
    ensures |r| == k
  {
    s[|s| - k..]
  }

  lemma {:induction false} SumAppend(a: seq<real>, b: seq<real>)
    ensures Sum(a + b) == Sum(a) + Sum(b)
  {
    if a == [] {
      assert a + b == b;
    } else {
      assert (a + b)[1..] == a[1..] + b;
      SumAppend(a[1..], b);
    }
  }

  /** A sum of terms within [lo, hi] lies within [n*lo, n*hi]. */
  lemma {:induction false} SumWithin(s: seq<real>, lo: real, hi: real)
    requires forall i :: 0 <= i < |s| ==> lo <= s[i] <= hi
    ensures |s| as real * lo <= Sum(s) <= |s| as real * hi
  {
    if s != [] {
      SumWithin(s[1..], lo, hi);
    }
  }

  /** A mean lies between the smallest and the largest term. */
  lemma MeanWithin(s: seq<real>, lo: real, hi: real)
    requires |s| > 0
    requires forall i :: 0 <= i < |s| ==> lo <= s[i] <= hi
    ensures lo <= Mean(s) <= hi
  {
    SumWithin(s, lo, hi);
    var n := |s| as real;
    assert n * lo <= Sum(s) <= n * hi;
    assert Mean(s) == Sum(s) / n;
  }

  /** A sum of non-negative terms is zero exactly when every term is. */
  lemma {:induction false} SumZeroIffAllZero(s: seq<real>)
    requires forall i :: 0 <= i < |s| ==> s[i] >= 0.0
    ensures Sum(s) >= 0.0
    ensures Sum(s) == 0.0 <==> forall i :: 0 <= i < |s| ==> s[i] == 0.0
  {
    if s != [] {
      SumZeroIffAllZero(s[1..]);
      assert forall i :: 1 <= i < |s| ==> s[i] == s[1..][i - 1];
    }
  }

  // ---------------------------------------------------------------------
  // RSI (calc_rsi)
  // ---------------------------------------------------------------------

  /** Day-over-day changes (`series.diff()` without its leading NaN). */
  function Deltas(c: seq<real>): (d: seq<real>)
    requires |c| >= 1
    ensures |d| == |c| - 1
    ensures forall i :: 0 <= i < |d| ==> d[i] == c[i + 1] - c[i]
  {
    seq(|c| - 1, i requires 0 <= i < |c| - 1 => c[i + 1] - c[i])
  }

  /** `delta.clip(lower=0)`. */
  function Gain(x: real): (g: real)
    ensures g >= 0.0 && g >= x
    ensures g == x || g == 0.0
  {
    if x > 0.0 then x else 0.0
  }

  /** `-delta.clip(upper=0)`. */
  function Loss(x: real): (l: real)
    ensures l >= 0.0 && l >= -x
    ensures Gain(x) - l == x
  {
    if x < 0.0 then -x else 0.0
  }

  function Gains(d: seq<real>): (g: seq<real>)
    ensures |g| == |d|
    ensures forall i :: 0 <= i < |d| ==> g[i] == Gain(d[i])
  {
    seq(|d|, i requires 0 <= i < |d| => Gain(d[i]))
  }

  function Losses(d: seq<real>): (l: seq<real>)
    ensures |l| == |d|
    ensures forall i :: 0 <= i < |d| ==> l[i] == Loss(d[i])
  {
    seq(|d|, i requires 0 <= i < |d| => Loss(d[i]))
  }

  /** The last 14 day-over-day changes: those among the last 15 closes. */
  function RsiWindow(c: seq<real>): (w: seq<real>)
    requires |c| > RsiPeriod
    ensures |w| == RsiPeriod
    ensures forall k :: 0 <= k < RsiPeriod ==>
              w[k] == c[|c| - RsiPeriod + k] - c[|c| - RsiPeriod + k - 1]
  {
    Deltas(Last(c, RsiPeriod + 1))
  }

  /**
   * The window is what the source's rolling mean sees at the last bar: the
   * last 14 entries of the whole change series.
   */
  lemma RsiWindowIsRollingWindow(c: seq<real>)
    requires |c| > RsiPeriod
    ensures RsiWindow(c) == Last(Deltas(c), RsiPeriod)
  {
    var a, b := Last(Deltas(c), RsiPeriod), RsiWindow(c);
    assert forall k :: 0 <= k < RsiPeriod ==> a[k] == b[k];
  }

  lemma MeanOfFourteen(w: seq<real>)
    requires |w| == 14
    ensures 14.0 * Mean(w) == Sum(w)
  {
  }

  /** The 14-period simple mean of gains at the last bar. */
  function AverageGain(c: seq<real>): (g: real)
    requires |c| > RsiPeriod
    ensures g >= 0.0
    ensures 14.0 * g == Sum(Gains(RsiWindow(c)))
  {
    SumZeroIffAllZero(Gains(RsiWindow(c)));
    MeanOfFourteen(Gains(RsiWindow(c)));
    Mean(Gains(RsiWindow(c)))
  }

  /** The 14-period simple mean of losses at the last bar. */
  function AverageLoss(c: seq<real>): (l: real)
    requires |c| > RsiPeriod
    ensures l >= 0.0
    ensures 14.0 * l == Sum(Losses(RsiWindow(c)))
  {
    SumZeroIffAllZero(Losses(RsiWindow(c)));
    MeanOfFourteen(Losses(RsiWindow(c)));
    Mean(Losses(RsiWindow(c)))
  }

  /**
   * `calc_rsi(closes)` at the last bar: undefined (NaN in the source) when
   * fewer than 15 closes leave the 14-wide rolling window incomplete, or
   * when the average loss is zero; otherwise 100 - 100 / (1 + RS) with
   * RS = average gain / average loss, which is the share of the gains,
   * 100 * G / (G + L), and lies in [0, 100).
   */
  function Rsi(closes: seq<real>): (r: Option<real>)
    ensures r.Some? ==> |closes| > RsiPeriod && AverageLoss(closes) > 0.0
    ensures r.Some? ==> 0.0 <= r.value < 100.0
    ensures r.Some? ==> var g, l := AverageGain(closes), AverageLoss(closes);
                        r.value == 100.0 * g / (g + l)
  {
    if |closes| <= RsiPeriod then None
    else
      var avgGain, avgLoss := AverageGain(closes), AverageLoss(closes);
      if avgLoss == 0.0 then None
      else
        var rs := avgGain / avgLoss;
        RsIsGainShare(avgGain, avgLoss);
        Some(100.0 - 100.0 / (1.0 + rs))
  }

  lemma QuotientUnique(x: real, y: real, z: real)
    requires y > 0.0 && x * y == z
    ensures x == z / y
  {
  }

  /** 100 - 100 / (1 + G/L) is 100 * G / (G + L), in [0, 100). */
  lemma RsIsGainShare(g: real, l: real)
    requires g >= 0.0 && l > 0.0
    ensures 1.0 + g / l > 0.0
    ensures 100.0 - 100.0 / (1.0 + g / l) == 100.0 * g / (g + l)
    ensures 0.0 <= 100.0 * g / (g + l) < 100.0
  {
    var d := 1.0 + g / l;
    assert d * l == l + g;
    var q := 100.0 / d;
    assert q * d == 100.0;
    assert q * (g + l) == 100.0 * l by {
      assert q * (g + l) == q * (d * l) == (q * d) * l;
    }
    var r := 100.0 * g / (g + l);
    assert r * (g + l) == 100.0 * g;
    assert (100.0 - q) * (g + l) == 100.0 * g;
    QuotientUnique(100.0 - q, g + l, 100.0 * g);
    assert r < 100.0 by {
      assert 100.0 * g < 100.0 * (g + l);
    }
  }

  /** The average loss is zero exactly when no change in the window is a fall. */
  lemma NoLossIffNoFall(w: seq<real>)
    requires |w| > 0
    ensures Mean(Losses(w)) == 0.0 <==> forall k :: 0 <= k < |w| ==> w[k] >= 0.0
  {
    var losses := Losses(w);
    SumZeroIffAllZero(losses);
    assert Mean(losses) == 0.0 <==> Sum(losses) == 0.0;
  }

  /**
   * RSI is undefined exactly when there are fewer than 15 closes or the
   * close never fell during the last 14 changes.
   */
  lemma RsiUndefinedIffNoLoss(closes: seq<real>)
    ensures Rsi(closes).None? <==>
              |closes| <= RsiPeriod ||
              forall i :: |closes| - RsiPeriod <= i < |closes| ==> closes[i - 1] <= closes[i]
  {
    if |closes| > RsiPeriod {
      NoLossIffNoFall(RsiWindow(closes));
      NoFallInWindow(closes);
    }
  }

  /** A fall in the RSI window is a fall among the last 15 closes. */
  lemma NoFallInWindow(closes: seq<real>)
    requires |closes| > RsiPeriod
    ensures (forall k :: 0 <= k < RsiPeriod ==> RsiWindow(closes)[k] >= 0.0) <==>
            (forall i :: |closes| - RsiPeriod <= i < |closes| ==> closes[i - 1] <= closes[i])
  {
    var base := |closes| - RsiPeriod;
    var w := RsiWindow(closes);
    if !(forall i :: base <= i < |closes| ==> closes[i - 1] <= closes[i]) {
      var i :| base <= i < |closes| && closes[i - 1] > closes[i];
      assert w[i - base] < 0.0;
    }
  }

  /** Only the last 15 closes matter to the RSI. */
  lemma RsiUsesLastFifteen(prefix: seq<real>, closes: seq<real>)
    requires |closes| > RsiPeriod
    ensures Rsi(prefix + closes) == Rsi(closes)
  {
    assert Last(prefix + closes, RsiPeriod + 1) == Last(closes, RsiPeriod + 1);
  }

  // ---------------------------------------------------------------------
  // The snapshot of analyze
  // ---------------------------------------------------------------------

  /** The indicator values `analyze` reports. */
  datatype Snapshot = Snapshot(
    close: real,
    ma5: real,
    ma20: real,
    volumeToday: real,
    volumePrev: real,
    rsi: Option<real>)

  /**
   * The indicators of a bar sequence that passed the 20-bar check: latest
   * close, means of the last 5 and last 20 closes, the last two volumes and
   * the RSI of all closes.
   */
  function SnapshotOf(bars: seq<Bar>): (s: Snapshot)
    requires |bars| >= MinBars
    ensures s.close == bars[|bars| - 1].close
    ensures s.volumeToday == bars[|bars| - 1].volume && s.volumePrev == bars[|bars| - 2].volume
    ensures 5.0 * s.ma5 == Sum(Last(Closes(bars), 5))
    ensures 20.0 * s.ma20 == Sum(Last(Closes(bars), 20))
    ensures s.rsi == Rsi(Closes(bars))
  {
    var closes := Closes(bars);
    Snapshot(
      closes[|closes| - 1],
      Mean(Last(closes, 5)),
      Mean(Last(closes, 20)),
      bars[|bars| - 1].volume,
      bars[|bars| - 2].volume,
      Rsi(closes))
  }

  /** Earlier history never changes the snapshot. */
  lemma SnapshotIgnoresHistory(prefix: seq<Bar>, bars: seq<Bar>)
    requires |bars| >= MinBars
    ensures SnapshotOf(prefix + bars) == SnapshotOf(bars)
  {
    var all := prefix + bars;
    var ca, cb := Closes(all), Closes(bars);
    assert ca == Closes(prefix) + cb;
    assert Last(ca, 5) == Last(cb, 5);
    assert Last(ca, 20) == Last(cb, 20);
    RsiUsesLastFifteen(Closes(prefix), cb);
  }

  /** Each moving average lies within the range of the closes it covers. */
  lemma MovingAveragesWithinRange(bars: seq<Bar>, lo: real, hi: real)
    requires |bars| >= MinBars
    requires forall i :: |bars| - 20 <= i < |bars| ==> lo <= bars[i].close <= hi
    ensures lo <= SnapshotOf(bars).ma5 <= hi
    ensures lo <= SnapshotOf(bars).ma20 <= hi
  {
    var c := Closes(bars);
    MeanWithin(Last(c, 5), lo, hi);
    MeanWithin(Last(c, 20), lo, hi);
  }

  /**
   * The 20-bar average is made of the 5-bar average and the 15 closes
   * before those five.
   */
  lemma Ma20ContainsMa5(bars: seq<Bar>)
    requires |bars| >= MinBars
    ensures var c := Closes(bars);
      20.0 * SnapshotOf(bars).ma20 == 5.0 * SnapshotOf(bars).ma5 + Sum(c[|c| - 20..|c| - 5])
  {
    var c := Closes(bars);
    var n := |c|;
    assert Last(c, 20) == c[n - 20..n - 5] + Last(c, 5);
    SumAppend(c[n - 20..n - 5], Last(c, 5));
  }
}
