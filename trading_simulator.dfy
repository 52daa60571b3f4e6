/** The edge-mode trigger generator of the trading simulator.

    From bar 20 on, a bar triggers BUY when SMA10 crosses above SMA20, or
    when RSI falls below 30 on the bar where MACD crosses above its signal
    line; otherwise it triggers SELL on the mirrored conditions with RSI
    rising above 70.  Each trigger becomes a signal record with an ATR-based
    stop and target.  The simulator object keeps the generated signals per
    ticker, turns them into webhook payloads and summarises a whole run. */
module Simulator {
  import opened Common

  /** The indicator arrays the simulator adds to a ticker's frame; they come
      from an indicator library and are inputs here. */
  datatype Indicators = Indicators(sma10: seq<Option<real>>, sma20: seq<Option<real>>,
                                   rsi: seq<Option<real>>, macd: seq<Option<real>>,
                                   macdSignal: seq<Option<real>>, atr: seq<Option<real>>)

  predicate Aligned(ind: Indicators, n: nat) {
    |ind.sma10| == n && |ind.sma20| == n && |ind.rsi| == n
    && |ind.macd| == n && |ind.macdSignal| == n && |ind.atr| == n
  }

  /** The first bar the strategy examines. */
  const WarmUp: nat := 20

  predicate IsBar(ind: Indicators, i: nat) {
    1 <= i && Aligned(ind, |ind.sma10|) && i < |ind.sma10|
  }

  predicate SmaCrossover(ind: Indicators, i: nat)
    requires IsBar(ind, i)
  {
    Gt(ind.sma10[i], ind.sma20[i]) && Le(ind.sma10[i - 1], ind.sma20[i - 1])
  }

  /** RSI below 30 now and at least 30 on the bar before: RSI falling into
      the oversold zone. */
  predicate RsiOversold(ind: Indicators, i: nat)
    requires IsBar(ind, i)
  {
    Lt(ind.rsi[i], Some(30.0)) && Ge(ind.rsi[i - 1], Some(30.0))
  }

  predicate MacdBullish(ind: Indicators, i: nat)
    requires IsBar(ind, i)
  {
    Gt(ind.macd[i], ind.macdSignal[i]) && Le(ind.macd[i - 1], ind.macdSignal[i - 1])
  }

  predicate SmaCrossunder(ind: Indicators, i: nat)
    requires IsBar(ind, i)
  {
    Lt(ind.sma10[i], ind.sma20[i]) && Ge(ind.sma10[i - 1], ind.sma20[i - 1])
  }

  /** RSI above 70 now and at most 70 on the bar before. */
  predicate RsiOverbought(ind: Indicators, i: nat)
    requires IsBar(ind, i)
  {
    Gt(ind.rsi[i], Some(70.0)) && Le(ind.rsi[i - 1], Some(70.0))
  }

  predicate MacdBearish(ind: Indicators, i: nat)
    requires IsBar(ind, i)
  {
    Lt(ind.macd[i], ind.macdSignal[i]) && Ge(ind.macd[i - 1], ind.macdSignal[i - 1])
  }

  predicate BuyAt(ind: Indicators, i: nat)
    requires IsBar(ind, i)
  {
    SmaCrossover(ind, i) || (RsiOversold(ind, i) && MacdBullish(ind, i))
  }

  predicate SellAt(ind: Indicators, i: nat)
    requires IsBar(ind, i)
  {
    SmaCrossunder(ind, i) || (RsiOverbought(ind, i) && MacdBearish(ind, i))
  }

  /** Bar `i` produces a signal. */
  predicate Fires(ind: Indicators, i: nat)
    requires IsBar(ind, i)
  {
    BuyAt(ind, i) || SellAt(ind, i)
  }

  datatype Side = BUY | SELL

  /** The signal record the strategy emits. */
  datatype TradeSignal = TradeSignal(signal: Side, ticker: string, timestamp: string,
                                     entryPrice: real, stopLoss: Option<real>,
                                     takeProfit: Option<real>, rsi: Option<real>,
                                     atr: Option<real>, strategy: string,
                                     riskAmount: real, tradingMode: string)

  /** `entry + k * atr`, undefined when ATR is. */
  function Offset(entry: real, atr: Option<real>, k: real): Option<real> {
    if atr.Some? then Some(entry + k * atr.value) else None
  }

  /** The record for a firing bar: BUY takes precedence over SELL. */
  function SignalAt(ticker: string, bars: seq<Bar>, ind: Indicators, i: nat): TradeSignal
    requires Aligned(ind, |bars|) && WarmUp <= i < |bars| && Fires(ind, i)
  {
    var entry := bars[i].close;
    var atr := ind.atr[i];
    if BuyAt(ind, i) then
      TradeSignal(BUY, ticker, bars[i].timestamp, entry, Offset(entry, atr, -2.0),
                  Offset(entry, atr, 3.0), ind.rsi[i], atr, "sma_rsi_macd", 100.0, "Paper")
    else
      TradeSignal(SELL, ticker, bars[i].timestamp, entry, Offset(entry, atr, 2.0),
                  Offset(entry, atr, -3.0), ind.rsi[i], atr, "sma_rsi_macd", 100.0, "Paper")
  }

  /** The signals of bars `WarmUp .. k-1`, in bar order. */
  function SignalsUpTo(ticker: string, bars: seq<Bar>, ind: Indicators, k: nat): seq<TradeSignal>
    requires Aligned(ind, |bars|) && k <= |bars|
  {
    if k <= WarmUp then []
    else SignalsUpTo(ticker, bars, ind, k - 1)
         + (if Fires(ind, k - 1) then [SignalAt(ticker, bars, ind, k - 1)] else [])
  }

  /** The bars among `WarmUp .. k-1` that produce a signal. */
  function TriggersUpTo(bars: seq<Bar>, ind: Indicators, k: nat): seq<nat>
    requires Aligned(ind, |bars|) && k <= |bars|
  {
    if k <= WarmUp then []
    else TriggersUpTo(bars, ind, k - 1) + (if Fires(ind, k - 1) then [k - 1] else [])
  }

  /** All signals of a ticker's frame. */
  function EdgeSignals(ticker: string, bars: seq<Bar>, ind: Indicators): seq<TradeSignal>
    requires Aligned(ind, |bars|)
  {
    SignalsUpTo(ticker, bars, ind, |bars|)
  }

  /** The firing bars among `WarmUp .. k-1` are exactly the bars whose
      conditions hold there, listed in strictly increasing order: at most one
      signal per bar. */
  lemma {:induction false} TriggersAreFiringBars(bars: seq<Bar>, ind: Indicators, k: nat)
    requires Aligned(ind, |bars|) && k <= |bars|
    ensures var ts := TriggersUpTo(bars, ind, k);
      && (forall j :: 0 <= j < |ts| ==> WarmUp <= ts[j] < k && Fires(ind, ts[j]))
      && (forall j, l :: 0 <= j < l < |ts| ==> ts[j] < ts[l])
      && (forall i :: WarmUp <= i < k && Fires(ind, i) ==> i in ts)
  {
    if k > WarmUp {
      TriggersAreFiringBars(bars, ind, k - 1);
      var prev := TriggersUpTo(bars, ind, k - 1);
      var ts := TriggersUpTo(bars, ind, k);
      assert forall j :: 0 <= j < |prev| ==> ts[j] == prev[j];
    }
  }

  /** The j-th signal is the record of the j-th firing bar. */
  lemma {:induction false} SignalsFollowTriggers(ticker: string, bars: seq<Bar>, ind: Indicators, k: nat)
    requires Aligned(ind, |bars|) && k <= |bars|
    ensures var ss := SignalsUpTo(ticker, bars, ind, k);
            var ts := TriggersUpTo(bars, ind, k);
      && |ss| == |ts|
      && forall j :: 0 <= j < |ts| ==>
           (WarmUp <= ts[j] < |bars| && Fires(ind, ts[j]) && ss[j] == SignalAt(ticker, bars, ind, ts[j]))
  {
    if k > WarmUp {
      SignalsFollowTriggers(ticker, bars, ind, k - 1);
      TriggersAreFiringBars(bars, ind, k);
    }
  }

  /** A frame of 20 bars or fewer yields no signal. */
  lemma ShortFrameHasNoSignals(ticker: string, bars: seq<Bar>, ind: Indicators)
    requires Aligned(ind, |bars|) && |bars| <= WarmUp
    ensures EdgeSignals(ticker, bars, ind) == []
  {
  }

  /** BUY exactly on the buy conditions; SELL only when they fail and the
      sell conditions hold. A cross-over and a cross-under never share a bar. */
  lemma SideRule(ticker: string, bars: seq<Bar>, ind: Indicators, i: nat)
    requires Aligned(ind, |bars|) && WarmUp <= i < |bars| && Fires(ind, i)
    ensures SignalAt(ticker, bars, ind, i).signal == BUY <==> BuyAt(ind, i)
    ensures SignalAt(ticker, bars, ind, i).signal == SELL <==> !BuyAt(ind, i) && SellAt(ind, i)
    ensures !(SmaCrossover(ind, i) && SmaCrossunder(ind, i))
  {
  }

  /** The stop sits two ATRs and the target three ATRs from the entry, on
      the side that limits the loss; with a positive ATR a BUY has
      stop < entry < target and a SELL target < entry < stop. */
  lemma StopsAndTargets(ticker: string, bars: seq<Bar>, ind: Indicators, i: nat)
    requires Aligned(ind, |bars|) && WarmUp <= i < |bars| && Fires(ind, i)
    requires ind.atr[i].Some?
    ensures var s := SignalAt(ticker, bars, ind, i); var a := ind.atr[i].value;
      && s.entryPrice == bars[i].close
      && s.stopLoss.Some? && s.takeProfit.Some?
      && (s.signal == BUY ==> s.stopLoss.value == s.entryPrice - 2.0 * a
                              && s.takeProfit.value == s.entryPrice + 3.0 * a)
      && (s.signal == SELL ==> s.stopLoss.value == s.entryPrice + 2.0 * a
                               && s.takeProfit.value == s.entryPrice - 3.0 * a)
      && (a > 0.0 && s.signal == BUY ==> s.stopLoss.value < s.entryPrice < s.takeProfit.value)
      && (a > 0.0 && s.signal == SELL ==> s.takeProfit.value < s.entryPrice < s.stopLoss.value)
  {
  }

  /** Every signal carries the ticker, the bar's timestamp and the fixed
      strategy, risk and mode. */
  lemma SignalConstants(ticker: string, bars: seq<Bar>, ind: Indicators)
    requires Aligned(ind, |bars|)
    ensures forall s :: s in EdgeSignals(ticker, bars, ind) ==>
      s.ticker == ticker && s.strategy == "sma_rsi_macd" && s.riskAmount == 100.0
      && s.tradingMode == "Paper"
  {
    var ss := EdgeSignals(ticker, bars, ind);
    SignalsFollowTriggers(ticker, bars, ind, |bars|);
    forall s | s in ss
      ensures s.ticker == ticker && s.strategy == "sma_rsi_macd" && s.riskAmount == 100.0
              && s.tradingMode == "Paper"
    {
      var j :| 0 <= j < |ss| && ss[j] == s;
    }
  }

  // ---------------------------------------------------------------------
  // Webhook payloads

  /** The JSON a signal is sent as. */
  datatype WebhookPayload = WebhookPayload(signal: Side, ticker: string, tradingMode: string,
                                           riskAmount: real, entryPrice: real,
                                           stopLoss: Option<real>, takeProfit: Option<real>,
                                           strategy: string, timeframe: string,
                                           timestamp: string, tickerGroup: string,
                                           rsi: Option<real>, atr: Option<real>)

  function ToPayload(s: TradeSignal): WebhookPayload {
    WebhookPayload(s.signal, s.ticker, s.tradingMode, s.riskAmount, s.entryPrice,
                   s.stopLoss, s.takeProfit, s.strategy, "1d", s.timestamp,
                   "Group_1_NYSE", s.rsi, s.atr)
  }

  /** The payload keeps every field of the signal and adds the daily
      timeframe and the ticker group. */
  lemma PayloadKeepsSignal(s: TradeSignal)
    ensures var p := ToPayload(s);
      && p.signal == s.signal && p.ticker == s.ticker && p.tradingMode == s.tradingMode
      && p.riskAmount == s.riskAmount && p.entryPrice == s.entryPrice
      && p.stopLoss == s.stopLoss && p.takeProfit == s.takeProfit
      && p.strategy == s.strategy && p.timestamp == s.timestamp
      && p.rsi == s.rsi && p.atr == s.atr
      && p.timeframe == "1d" && p.tickerGroup == "Group_1_NYSE"
  {
  }

  // ---------------------------------------------------------------------
  // Summary of a run

  datatype Summary = Summary(tickersProcessed: nat, totalSignals: nat, buySignals: nat,
                             sellSignals: nat, webhookPayloads: nat,
                             mplfinanceCharts: nat, plotlyCharts: nat)

  function CountSide(ss: seq<TradeSignal>, side: Side): nat {
    if ss == [] then 0
    else CountSide(ss[..|ss| - 1], side) + (if ss[|ss| - 1].signal == side then 1 else 0)
  }

  /** The number of tickers of the list that have data (a ticker listed
      twice counts twice, as the source's list comprehension counts it). */
  function CountWithData(tickers: seq<string>, data: map<string, seq<Bar>>): nat {
    if tickers == [] then 0
    else CountWithData(tickers[..|tickers| - 1], data)
         + (if tickers[|tickers| - 1] in data then 1 else 0)
  }

  lemma {:induction false} CountSideSplits(ss: seq<TradeSignal>)
    ensures CountSide(ss, BUY) + CountSide(ss, SELL) == |ss|
  {
    if ss != [] {
      CountSideSplits(ss[..|ss| - 1]);
    }
  }

  function Summarize(processed: nat, all: seq<TradeSignal>, webhooks: nat): (s: Summary)
    ensures s.buySignals + s.sellSignals == s.totalSignals
    ensures s.totalSignals == |all| && s.webhookPayloads == webhooks
  {
    CountSideSplits(all);
    Summary(processed, |all|, CountSide(all, BUY), CountSide(all, SELL), webhooks,
            processed, processed)
  }

  /** The signals of the listed tickers that have data, in list order. */
  function AllSignals(tickers: seq<string>, data: map<string, seq<Bar>>,
                      ind: map<string, Indicators>): seq<TradeSignal>
    requires IndicatorsFor(data, ind)
  {
    if tickers == [] then []
    else
      var t := tickers[|tickers| - 1];
      AllSignals(tickers[..|tickers| - 1], data, ind)
      + (if t in data then EdgeSignals(t, data[t], ind[t]) else [])
  }

  /** Indicator arrays exist for every ticker with data. */
  predicate IndicatorsFor(data: map<string, seq<Bar>>, ind: map<string, Indicators>) {
    forall t :: t in data ==> t in ind && Aligned(ind[t], |data[t]|)
  }

  const DefaultTickers: seq<string> :=
    ["AAPL", "MSFT", "GOOGL", "AMZN", "TSLA", "META", "NVDA", "JPM", "JNJ", "V"]

  class TradingSimulator {
    const tickers: seq<string>
    /** The fetched frames per ticker (fetching is outside the model). */
    const data: map<string, seq<Bar>>
    var signals: map<string, seq<TradeSignal>>

    /** An empty ticker list falls back to the default list. */
    constructor (tickerList: seq<string>, fetched: map<string, seq<Bar>>)
      ensures tickers == (if tickerList == [] then DefaultTickers else tickerList)
      ensures data == fetched && signals == map[]
    {
      tickers := if tickerList == [] then DefaultTickers else tickerList;
      data := fetched;
      signals := map[];
    }

    /** Scans bars 20 .. n-1 of the ticker's frame; stores and returns the
        signals.  An unknown ticker gives no signals and changes nothing. */
    method GenerateTradingSignals(ticker: string, ind: Indicators) returns (result: seq<TradeSignal>)
      requires ticker in data ==> Aligned(ind, |data[ticker]|)
      modifies this
      ensures ticker !in data ==> result == [] && signals == old(signals)
      ensures ticker in data ==> result == EdgeSignals(ticker, data[ticker], ind)
                                 && signals == old(signals)[ticker := result]
    {
      if ticker !in data {
        return [];
      }
      var bars := data[ticker];
      result := [];
      var i := WarmUp;
      while i < |bars|
        invariant WarmUp <= i && (i <= |bars| || |bars| < WarmUp)
        invariant result == SignalsUpTo(ticker, bars, ind, if i <= |bars| then i else |bars|)
      {
        var smaCrossover := Gt(ind.sma10[i], ind.sma20[i]) && Le(ind.sma10[i - 1], ind.sma20[i - 1]);
        var rsiOversold := Lt(ind.rsi[i], Some(30.0)) && Ge(ind.rsi[i - 1], Some(30.0));
        var macdBullish := Gt(ind.macd[i], ind.macdSignal[i]) && Le(ind.macd[i - 1], ind.macdSignal[i - 1]);
        var smaCrossunder := Lt(ind.sma10[i], ind.sma20[i]) && Ge(ind.sma10[i - 1], ind.sma20[i - 1]);
        var rsiOverbought := Gt(ind.rsi[i], Some(70.0)) && Le(ind.rsi[i - 1], Some(70.0));
        var macdBearish := Lt(ind.macd[i], ind.macdSignal[i]) && Ge(ind.macd[i - 1], ind.macdSignal[i - 1]);
        var entry := bars[i].close;
        var atr := ind.atr[i];
        if smaCrossover || (rsiOversold && macdBullish) {
          result := result + [TradeSignal(BUY, ticker, bars[i].timestamp, entry,
                                          Offset(entry, atr, -2.0), Offset(entry, atr, 3.0),
                                          ind.rsi[i], atr, "sma_rsi_macd", 100.0, "Paper")];
        } else if smaCrossunder || (rsiOverbought && macdBearish) {
          result := result + [TradeSignal(SELL, ticker, bars[i].timestamp, entry,
                                          Offset(entry, atr, 2.0), Offset(entry, atr, -3.0),
                                          ind.rsi[i], atr, "sma_rsi_macd", 100.0, "Paper")];
        }
        i := i + 1;
      }
      signals := signals[ticker := result];
    }

    /** One payload per stored signal of the ticker, in order (none for a
        ticker without stored signals). */
    method SimulatePineScriptWebhook(ticker: string) returns (payloads: seq<WebhookPayload>)
      ensures var stored := if ticker in signals then signals[ticker] else [];
        && |payloads| == |stored|
        && forall j :: 0 <= j < |stored| ==> payloads[j] == ToPayload(stored[j])
    {
      var stored := if ticker in signals then signals[ticker] else [];
      payloads := [];
      var j := 0;
      while j < |stored|
        invariant 0 <= j <= |stored|
        invariant |payloads| == j
        invariant forall l :: 0 <= l < j ==> payloads[l] == ToPayload(stored[l])
      {
        payloads := payloads + [ToPayload(stored[j])];
        j := j + 1;
      }
    }

    /** Generates and stores the signals and payloads of every listed ticker
        that has data, and counts them. */
    method RunFullSimulation(ind: map<string, Indicators>) returns (summary: Summary)
      requires IndicatorsFor(data, ind)
      modifies this
      ensures summary == Summarize(CountWithData(tickers, data), AllSignals(tickers, data, ind),
                                   |AllSignals(tickers, data, ind)|)
      ensures summary.buySignals + summary.sellSignals == summary.totalSignals
      ensures summary.webhookPayloads == summary.totalSignals
      ensures forall t :: t in tickers && t in data ==>
                t in signals && signals[t] == EdgeSignals(t, data[t], ind[t])
      ensures forall t :: t in old(signals) && !(t in tickers && t in data) ==>
                t in signals && signals[t] == old(signals)[t]
      ensures forall t :: t in signals ==> t in old(signals) || (t in tickers && t in data)
    {
      var allSignals: seq<TradeSignal> := [];
      var webhookCount := 0;
      var i := 0;
      while i < |tickers|
        invariant 0 <= i <= |tickers|
        invariant allSignals == AllSignals(tickers[..i], data, ind)
        invariant webhookCount == |allSignals|
        invariant forall t :: t in tickers[..i] && t in data ==>
                    t in signals && signals[t] == EdgeSignals(t, data[t], ind[t])
        invariant forall t :: t in old(signals) && !(t in tickers[..i] && t in data) ==>
                    t in signals && signals[t] == old(signals)[t]
        invariant forall t :: t in signals ==> t in old(signals) || (t in tickers[..i] && t in data)
      {
        var ticker := tickers[i];
        assert tickers[..i + 1][..i] == tickers[..i];
        if ticker in data {
          var generated := GenerateTradingSignals(ticker, ind[ticker]);
          allSignals := allSignals + generated;
          var webhooks := SimulatePineScriptWebhook(ticker);
          webhookCount := webhookCount + |webhooks|;
        }
        i := i + 1;
      }
      assert tickers[..i] == tickers;
      summary := Summarize(CountWithData(tickers, data), allSignals, webhookCount);
    }
  }
}
