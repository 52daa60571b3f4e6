/** The level-mode signal synthesizer of the technical analyzer.

    Every bar gets four category scores in {-1, 0, 1} (trend, momentum,
    volume, candlestick pattern), a weighted combination of them and an
    action.  The weights 0.4, 0.3, 0.2 and 0.1 are kept exactly by holding the
    combined score in tenths: `4T + 3M + 2V + P`, so that "combined > 0.5"
    becomes "tenths > 5".  The indicator arrays are inputs (they come from an
    indicator library); the analyzer object caches them in `indicators`. */
module Analysis {
  import opened Common

  /** Indicator arrays by name, as the analyzer collects them. Candlestick
      pattern arrays hold their integer strengths as reals. */
  type IndicatorSet = map<string, seq<Option<real>>>

  /** Every array is aligned with the `n` bars of the frame. */
  predicate Aligned(ind: IndicatorSet, n: nat) {
    forall name :: name in ind ==> |ind[name]| == n
  }

  /** `indicators.get(name, np.full(n, default))`: the stored array, or the
      fallback array the source substitutes for a missing name. */
  function Column(ind: IndicatorSet, name: string, n: nat, default: real): (r: seq<Option<real>>)
    requires Aligned(ind, n)
    ensures |r| == n
    ensures name in ind ==> r == ind[name]
    ensures name !in ind ==> forall i :: 0 <= i < n ==> r[i] == Some(default)
  {
    if name in ind then ind[name] else seq(n, _ => Some(default))
  }

  datatype Action = BUY | SELL | HOLD

  function Mirror(a: Action): Action {
    match a
    case BUY => SELL
    case SELL => BUY
    case HOLD => HOLD
  }

  /** One row of the signal frame.  `combined` is the weighted score in
      tenths. */
  datatype SignalRow = SignalRow(trend: int, momentum: int, volume: int,
                                 pattern: int, combined: int, action: Action)

  predicate IsScore(x: int) {
    x == -1 || x == 0 || x == 1
  }

  /** Bullish when SMA10 is above SMA20 and the close above SMA10, bearish in
      the mirrored case. */
  function TrendScore(sma10: Option<real>, sma20: Option<real>, close: real): int {
    if Gt(sma10, sma20) && Gt(Some(close), sma10) then 1
    else if Lt(sma10, sma20) && Lt(Some(close), sma10) then -1
    else 0
  }

  /** Bullish when RSI is oversold and MACD above its signal line, bearish
      when RSI is overbought and MACD below it. */
  function MomentumScore(rsi: Option<real>, macd: Option<real>, macdSignal: Option<real>): int {
    if Lt(rsi, Some(30.0)) && Gt(macd, macdSignal) then 1
    else if Gt(rsi, Some(70.0)) && Lt(macd, macdSignal) then -1
    else 0
  }

  /** OBV against its 10-bar mean. */
  function VolumeScore(obv: Option<real>, obvMean: Option<real>): int {
    if Gt(obv, obvMean) then 1 else if Lt(obv, obvMean) then -1 else 0
  }

  /** Bullish pattern total above zero wins; otherwise a bearish total below
      zero; otherwise no pattern. */
  function PatternScore(bullish: Option<real>, bearish: Option<real>): int {
    if Gt(bullish, Some(0.0)) then 1
    else if Lt(bearish, Some(0.0)) then -1
    else 0
  }

  /** The weighted score in tenths. */
  function Combined(t: int, m: int, v: int, p: int): (c: int)
    requires IsScore(t) && IsScore(m) && IsScore(v) && IsScore(p)
    ensures -10 <= c <= 10
    ensures c == 10 <==> t == 1 && m == 1 && v == 1 && p == 1
    ensures c == -10 <==> t == -1 && m == -1 && v == -1 && p == -1
  {
    4 * t + 3 * m + 2 * v + p
  }

  /** The threshold on the score in tenths. */
  function ActionOf(c: int): Action {
    if c > 5 then BUY else if c < -5 then SELL else HOLD
  }

  /** The score as the source writes it, with real weights. */
  function WeightedScore(t: int, m: int, v: int, p: int): real {
    t as real * 0.4 + m as real * 0.3 + v as real * 0.2 + p as real * 0.1
  }

  /** The thresholds as the source writes them. */
  function ActionOfWeighted(x: real): Action {
    if x > 0.5 then BUY else if x < -0.5 then SELL else HOLD
  }

  /** Sum of `xs[lo..hi]`, undefined as soon as one term is. */
  function WindowSum(xs: seq<Option<real>>, lo: nat, hi: nat): Option<real>
    requires lo <= hi <= |xs|
    decreases hi - lo
  {
    if lo == hi then Some(0.0) else Plus(WindowSum(xs, lo, hi - 1), xs[hi - 1])
  }

  /** The trailing `period`-bar mean at bar `i` (the moving average the
      analyzer takes of OBV): undefined during the first `period - 1` bars
      and wherever the window holds an undefined value. */
  function TrailingMean(xs: seq<Option<real>>, period: nat, i: nat): Option<real>
    requires 1 <= period && i < |xs|
  {
    if i + 1 < period then None
    else
      match WindowSum(xs, i + 1 - period, i + 1)
      case None => None
      case Some(s) => Some(s / period as real)
  }

  function BullishTotal(ind: IndicatorSet, n: nat, i: nat): Option<real>
    requires Aligned(ind, n) && i < n
  {
    Plus(Plus(Column(ind, "HAMMER", n, 0.0)[i], Column(ind, "MORNING_STAR", n, 0.0)[i]),
         Column(ind, "ENGULFING", n, 0.0)[i])
  }

  function BearishTotal(ind: IndicatorSet, n: nat, i: nat): Option<real>
    requires Aligned(ind, n) && i < n
  {
    Plus(Plus(Column(ind, "SHOOTING_STAR", n, 0.0)[i], Column(ind, "EVENING_STAR", n, 0.0)[i]),
         Column(ind, "DARK_CLOUD", n, 0.0)[i])
  }

  /** The signal row of bar `i`. */
  function RowAt(close: seq<real>, ind: IndicatorSet, i: nat): SignalRow
    requires Aligned(ind, |close|) && i < |close|
  {
    var n := |close|;
    var t := TrendScore(Column(ind, "SMA_10", n, 0.0)[i], Column(ind, "SMA_20", n, 0.0)[i], close[i]);
    var m := MomentumScore(Column(ind, "RSI", n, 50.0)[i], Column(ind, "MACD", n, 0.0)[i],
                           Column(ind, "MACD_Signal", n, 0.0)[i]);
    var obv := Column(ind, "OBV", n, 0.0);
    var v := VolumeScore(obv[i], TrailingMean(obv, 10, i));
    var p := PatternScore(BullishTotal(ind, n, i), BearishTotal(ind, n, i));
    var c := Combined(t, m, v, p);
    SignalRow(t, m, v, p, c, ActionOf(c))
  }

  /** The signal frame: one row per bar, on the same index. */
  function Signals(close: seq<real>, ind: IndicatorSet): (rows: seq<SignalRow>)
    requires Aligned(ind, |close|)
    ensures |rows| == |close|
    ensures forall i :: 0 <= i < |close| ==> rows[i] == RowAt(close, ind, i)
  {
    seq(|close|, i requires 0 <= i < |close| => RowAt(close, ind, i))
  }

  // ---------------------------------------------------------------------
  // Properties of one row

  /** Every row holds scores in {-1, 0, 1}, a combined score in [-1, 1]
      (tenths in [-10, 10]) and the action the source's real-valued
      weighting and thresholds give. */
  lemma RowIsWellFormed(close: seq<real>, ind: IndicatorSet, i: nat)
    requires Aligned(ind, |close|) && i < |close|
    ensures var r := RowAt(close, ind, i);
      && IsScore(r.trend) && IsScore(r.momentum) && IsScore(r.volume) && IsScore(r.pattern)
      && -10 <= r.combined <= 10
      && r.combined as real / 10.0 == WeightedScore(r.trend, r.momentum, r.volume, r.pattern)
      && r.action == ActionOfWeighted(WeightedScore(r.trend, r.momentum, r.volume, r.pattern))
  {
    var r := RowAt(close, ind, i);
    WeightsInTenths(r.trend, r.momentum, r.volume, r.pattern);
  }

  /** Tenths and real weights agree, and so do the two thresholds. */
  lemma WeightsInTenths(t: int, m: int, v: int, p: int)
    requires IsScore(t) && IsScore(m) && IsScore(v) && IsScore(p)
    ensures Combined(t, m, v, p) as real / 10.0 == WeightedScore(t, m, v, p)
    ensures ActionOf(Combined(t, m, v, p)) == ActionOfWeighted(WeightedScore(t, m, v, p))
  {
  }

  /** The trend rule: +1 and -1 exactly under their conditions, which never
      hold together. */
  lemma TrendRule(sma10: Option<real>, sma20: Option<real>, close: real)
    ensures var t := TrendScore(sma10, sma20, close);
      && IsScore(t)
      && (t == 1 <==> Gt(sma10, sma20) && Gt(Some(close), sma10))
      && (t == -1 <==> Lt(sma10, sma20) && Lt(Some(close), sma10))
      && !(Gt(sma10, sma20) && Lt(sma10, sma20))
  {
  }

  /** The momentum rule, both directions. */
  lemma MomentumRule(rsi: Option<real>, macd: Option<real>, macdSignal: Option<real>)
    ensures var m := MomentumScore(rsi, macd, macdSignal);
      && IsScore(m)
      && (m == 1 <==> Lt(rsi, Some(30.0)) && Gt(macd, macdSignal))
      && (m == -1 <==> Gt(rsi, Some(70.0)) && Lt(macd, macdSignal))
  {
  }

  /** The volume rule: 0 when the two are equal or either is undefined. */
  lemma VolumeRule(obv: Option<real>, obvMean: Option<real>)
    ensures var v := VolumeScore(obv, obvMean);
      && IsScore(v)
      && (v == 1 <==> Gt(obv, obvMean))
      && (v == -1 <==> Lt(obv, obvMean))
      && (obv.None? || obvMean.None? || obv == obvMean ==> v == 0)
  {
  }

  /** The pattern rule: a bullish total wins even when a bearish total is
      present on the same bar. */
  lemma PatternRule(bullish: Option<real>, bearish: Option<real>)
    ensures var p := PatternScore(bullish, bearish);
      && IsScore(p)
      && (p == 1 <==> Gt(bullish, Some(0.0)))
      && (p == -1 <==> !Gt(bullish, Some(0.0)) && Lt(bearish, Some(0.0)))
  {
  }

  /** The threshold splits the scores into exactly one action: BUY needs a
      bullish trend backed by at least two tenths more, or every other
      category bullish; SELL is the mirror image. */
  lemma BuySellCases(t: int, m: int, v: int, p: int)
    requires IsScore(t) && IsScore(m) && IsScore(v) && IsScore(p)
    ensures ActionOf(Combined(t, m, v, p)) == BUY <==>
              (t == 1 && 3 * m + 2 * v + p >= 2) || (t == 0 && m == 1 && v == 1 && p == 1)
    ensures ActionOf(Combined(t, m, v, p)) == SELL <==>
              (t == -1 && 3 * m + 2 * v + p <= -2) || (t == 0 && m == -1 && v == -1 && p == -1)
  {
  }

  /** The combinations whose weighted score is exactly 0.5 are HOLD. */
  lemma HalfIsHold(t: int, m: int, v: int, p: int)
    requires IsScore(t) && IsScore(m) && IsScore(v) && IsScore(p)
    requires WeightedScore(t, m, v, p) == 0.5 || WeightedScore(t, m, v, p) == -0.5
    ensures ActionOf(Combined(t, m, v, p)) == HOLD
  {
    WeightsInTenths(t, m, v, p);
  }

  /** Negating the four scores negates the combined score and mirrors the
      action. */
  lemma NegationMirrors(t: int, m: int, v: int, p: int)
    requires IsScore(t) && IsScore(m) && IsScore(v) && IsScore(p)
    ensures Combined(-t, -m, -v, -p) == -Combined(t, m, v, p)
    ensures ActionOf(Combined(-t, -m, -v, -p)) == Mirror(ActionOf(Combined(t, m, v, p)))
  {
  }

  // ---------------------------------------------------------------------
  // The trailing mean

  lemma {:induction false} WindowSumDefined(xs: seq<Option<real>>, lo: nat, hi: nat)
    requires lo <= hi <= |xs|
    ensures WindowSum(xs, lo, hi).Some? <==> forall j :: lo <= j < hi ==> xs[j].Some?
    decreases hi - lo
  {
    if lo < hi {
      WindowSumDefined(xs, lo, hi - 1);
    }
  }

  lemma {:induction false} WindowSumPrefix(xs: seq<Option<real>>, k: nat, lo: nat, hi: nat)
    requires lo <= hi <= k <= |xs|
    ensures WindowSum(xs[..k], lo, hi) == WindowSum(xs, lo, hi)
    decreases hi - lo
  {
    if lo < hi {
      WindowSumPrefix(xs, k, lo, hi - 1);
    }
  }

  lemma {:induction false} WindowSumOfZeros(xs: seq<Option<real>>, lo: nat, hi: nat)
    requires lo <= hi <= |xs|
    requires forall j :: lo <= j < hi ==> xs[j] == Some(0.0)
    ensures WindowSum(xs, lo, hi) == Some(0.0)
    decreases hi - lo
  {
    if lo < hi {
      WindowSumOfZeros(xs, lo, hi - 1);
    }
  }

  /** The trailing mean is defined exactly from bar `period - 1` on where the
      whole window is defined. */
  lemma TrailingMeanDefined(xs: seq<Option<real>>, period: nat, i: nat)
    requires 1 <= period && i < |xs|
    ensures TrailingMean(xs, period, i).Some? <==>
              i + 1 >= period && forall j :: i + 1 - period <= j <= i ==> xs[j].Some?
  {
    if i + 1 >= period {
      WindowSumDefined(xs, i + 1 - period, i + 1);
    }
  }

  /** An undefined indicator scores 0: every comparison with it is false. */
  lemma UndefinedScoresZero(close: seq<real>, ind: IndicatorSet, i: nat)
    requires Aligned(ind, |close|) && i < |close|
    ensures var n := |close|; var r := RowAt(close, ind, i);
      && (Column(ind, "SMA_10", n, 0.0)[i].None? || Column(ind, "SMA_20", n, 0.0)[i].None? ==> r.trend == 0)
      && ((Column(ind, "RSI", n, 50.0)[i].None? || Column(ind, "MACD", n, 0.0)[i].None?
           || Column(ind, "MACD_Signal", n, 0.0)[i].None?) ==> r.momentum == 0)
      && ((i < 9 || exists j :: i - 9 <= j <= i && Column(ind, "OBV", n, 0.0)[j].None?) ==> r.volume == 0)
      && (BullishTotal(ind, n, i).None? && BearishTotal(ind, n, i).None? ==> r.pattern == 0)
  {
    var obv := Column(ind, "OBV", |close|, 0.0);
    TrailingMeanDefined(obv, 10, i);
  }

  /** Without an OBV array the source compares a zero array with its zero
      mean (undefined for the first nine bars): the volume score is 0 on every
      bar. */
  lemma MissingObvScoresZero(close: seq<real>, ind: IndicatorSet, i: nat)
    requires Aligned(ind, |close|) && i < |close|
    requires "OBV" !in ind
    ensures RowAt(close, ind, i).volume == 0
  {
    var obv := Column(ind, "OBV", |close|, 0.0);
    if i >= 9 {
      WindowSumOfZeros(obv, i - 9, i + 1);
    }
  }

  /** Without an RSI array the source uses 50, which is neither oversold nor
      overbought: the momentum score is 0 on every bar. */
  lemma MissingRsiScoresZero(close: seq<real>, ind: IndicatorSet, i: nat)
    requires Aligned(ind, |close|) && i < |close|
    requires "RSI" !in ind
    ensures RowAt(close, ind, i).momentum == 0
  {
  }

  // ---------------------------------------------------------------------
  // No look-ahead

  /** The indicator arrays cut to their first `k` bars. */
  function Prefix(ind: IndicatorSet, n: nat, k: nat): (r: IndicatorSet)
    requires Aligned(ind, n) && k <= n
    ensures Aligned(r, k) && r.Keys == ind.Keys
  {
    map name | name in ind :: ind[name][..k]
  }

  lemma ColumnPrefix(ind: IndicatorSet, n: nat, k: nat, name: string, default: real)
    requires Aligned(ind, n) && k <= n
    ensures Column(Prefix(ind, n, k), name, k, default) == Column(ind, name, n, default)[..k]
  {
  }

  /** A row depends only on the bars up to and including its own. */
  lemma RowUsesNoLaterBars(close: seq<real>, ind: IndicatorSet, k: nat, i: nat)
    requires Aligned(ind, |close|) && i < k <= |close|
    ensures RowAt(close[..k], Prefix(ind, |close|, k), i) == RowAt(close, ind, i)
  {
    var n := |close|;
    var pre := Prefix(ind, n, k);
    ColumnPrefix(ind, n, k, "SMA_10", 0.0);
    ColumnPrefix(ind, n, k, "SMA_20", 0.0);
    ColumnPrefix(ind, n, k, "RSI", 50.0);
    ColumnPrefix(ind, n, k, "MACD", 0.0);
    ColumnPrefix(ind, n, k, "MACD_Signal", 0.0);
    ColumnPrefix(ind, n, k, "OBV", 0.0);
    ColumnPrefix(ind, n, k, "HAMMER", 0.0);
    ColumnPrefix(ind, n, k, "MORNING_STAR", 0.0);
    ColumnPrefix(ind, n, k, "ENGULFING", 0.0);
    ColumnPrefix(ind, n, k, "SHOOTING_STAR", 0.0);
    ColumnPrefix(ind, n, k, "EVENING_STAR", 0.0);
    ColumnPrefix(ind, n, k, "DARK_CLOUD", 0.0);
    var obv := Column(ind, "OBV", n, 0.0);
    if i + 1 >= 10 {
      WindowSumPrefix(obv, k, i + 1 - 10, i + 1);
    }
    assert TrailingMean(Column(pre, "OBV", k, 0.0), 10, i) == TrailingMean(obv, 10, i);
  }

  /** The signal frame of the first `k` bars is the first `k` rows of the
      whole frame: no row looks ahead. */
  lemma SignalsUseNoLaterBars(close: seq<real>, ind: IndicatorSet, k: nat)
    requires Aligned(ind, |close|) && k <= |close|
    ensures Signals(close[..k], Prefix(ind, |close|, k)) == Signals(close, ind)[..k]
  {
    var before := Signals(close[..k], Prefix(ind, |close|, k));
    var whole := Signals(close, ind);
    forall i | 0 <= i < k
      ensures before[i] == whole[i]
    {
      RowUsesNoLaterBars(close, ind, k, i);
    }
    assert before == whole[..k];
  }

  // ---------------------------------------------------------------------
  // The analyzer object

  /** The outputs of the five indicator groups of one run of the library. */
  datatype Computed = Computed(trend: IndicatorSet, momentum: IndicatorSet,
                               volatility: IndicatorSet, volume: IndicatorSet,
                               patterns: IndicatorSet)

  predicate ComputedAligned(c: Computed, n: nat) {
    Aligned(c.trend, n) && Aligned(c.momentum, n) && Aligned(c.volatility, n)
    && Aligned(c.volume, n) && Aligned(c.patterns, n)
  }

  /** The five groups merged in order; a later group overrides an earlier one
      on a shared name, as `dict.update` does. */
  function Merged(c: Computed): IndicatorSet {
    c.trend + c.momentum + c.volatility + c.volume + c.patterns
  }

  lemma MergedAligned(c: Computed, n: nat)
    requires ComputedAligned(c, n)
    ensures Aligned(Merged(c), n)
    ensures Merged(c).Keys == c.trend.Keys + c.momentum.Keys + c.volatility.Keys
                              + c.volume.Keys + c.patterns.Keys
  {
  }

  class TechnicalAnalyzer {
    const bars: seq<Bar>
    var indicators: IndicatorSet

    ghost predicate Valid()
      reads this
    {
      Aligned(indicators, |bars|)
    }

    constructor (data: seq<Bar>)
      ensures bars == data && indicators == map[] && Valid()
    {
      bars := data;
      indicators := map[];
    }

    /** Collects the five groups into one mapping and caches it. */
    method CalculateAllIndicators(c: Computed) returns (all: IndicatorSet)
      requires ComputedAligned(c, |bars|)
      modifies this
      ensures all == Merged(c) && indicators == all && Valid()
    {
      all := map[];
      all := all + c.trend;
      all := all + c.momentum;
      all := all + c.volatility;
      all := all + c.volume;
      all := all + c.patterns;
      assert all == Merged(c);
      MergedAligned(c, |bars|);
      indicators := all;
    }

    /** Computes the indicators first when none are cached, then the signal
        frame. */
    method GenerateTradingSignals(c: Computed) returns (rows: seq<SignalRow>)
      requires Valid() && ComputedAligned(c, |bars|)
      modifies this
      ensures Valid()
      ensures indicators == if old(indicators) == map[] then Merged(c) else old(indicators)
      ensures rows == Signals(Closes(bars), indicators)
    {
      if indicators == map[] {
        var all := CalculateAllIndicators(c);
      }
      rows := Signals(Closes(bars), indicators);
    }
  }
}
