/** The signal counting and the webhook payloads of the comprehensive
    analysis run: the analyzer's signal frame is counted by action, and
    every BUY or SELL row becomes a payload with fixed-percent stop and
    target. */
module Runner {
  import opened Common
  import A = Analysis

  /** The number of rows with action `a`. */
  function Count(rows: seq<A.SignalRow>, a: A.Action): nat {
    if rows == [] then 0
    else Count(rows[..|rows| - 1], a) + (if rows[|rows| - 1].action == a then 1 else 0)
  }

  /** The three action counts partition the rows. */
  lemma {:induction false} CountsPartition(rows: seq<A.SignalRow>)
    ensures Count(rows, A.BUY) + Count(rows, A.SELL) + Count(rows, A.HOLD) == |rows|
  {
    if rows != [] {
      CountsPartition(rows[..|rows| - 1]);
    }
  }

  datatype SignalStats = SignalStats(totalSignals: nat, buySignals: nat, sellSignals: nat,
                                     holdSignals: nat, frequencyPct: real)

  /** The trading-signal part of the summary, for a frame of `days` bars
      with one row per bar: the trades are BUY plus SELL rows, and their
      frequency is a percentage of the bars (0 on an empty frame). */
  function Stats(rows: seq<A.SignalRow>, days: nat): (s: SignalStats)
    requires |rows| == days
    ensures s.totalSignals == s.buySignals + s.sellSignals
    ensures s.buySignals + s.sellSignals + s.holdSignals == days
    ensures s.buySignals == Count(rows, A.BUY) && s.sellSignals == Count(rows, A.SELL)
    ensures 0.0 <= s.frequencyPct <= 100.0
    ensures days == 0 ==> s.frequencyPct == 0.0
    ensures days > 0 ==> s.frequencyPct * days as real == s.totalSignals as real * 100.0
  {
    CountsPartition(rows);
    var buy := Count(rows, A.BUY);
    var sell := Count(rows, A.SELL);
    FrequencyBounds(buy + sell, days);
    SignalStats(buy + sell, buy, sell, Count(rows, A.HOLD), Frequency(buy + sell, days))
  }

  /** `total / days * 100`, or 0 without days. */
  function Frequency(total: nat, days: nat): real {
    if days > 0 then total as real / days as real * 100.0 else 0.0
  }

  lemma FrequencyBounds(total: nat, days: nat)
    requires total <= days
    ensures 0.0 <= Frequency(total, days) <= 100.0
    ensures days > 0 ==> Frequency(total, days) * days as real == total as real * 100.0
  {
    if days > 0 {
      var q := total as real / days as real;
      assert q * days as real == total as real;
      assert q <= 1.0 by {
        if q > 1.0 {
          assert q * days as real > 1.0 * days as real;
        }
      }
    }
  }

  /** The payload a BUY or SELL row is sent as. */
  datatype SimPayload = SimPayload(signal: A.Action, ticker: string, tradingMode: string,
                                   riskAmount: real, entryPrice: real, stopLoss: real,
                                   takeProfit: real, strategy: string, timeframe: string,
                                   timestamp: string, rsi: Option<real>, atr: Option<real>)

  /** The indicator at bar `i`, or the fixed fallback when the name is
      absent. */
  function IndicatorOr(ind: A.IndicatorSet, name: string, i: nat, fallback: real): (r: Option<real>)
    requires name in ind ==> i < |ind[name]|
    ensures name in ind ==> r == ind[name][i]
    ensures name !in ind ==> r == Some(fallback)
  {
    if name in ind then ind[name][i] else Some(fallback)
  }

  predicate IsTrade(row: A.SignalRow) {
    row.action == A.BUY || row.action == A.SELL
  }

  /** The payload of a trade row: stop 2% and target 5% away from the
      close, on the side that limits the loss. */
  function PayloadAt(ticker: string, bars: seq<Bar>, rows: seq<A.SignalRow>,
                     ind: A.IndicatorSet, i: nat): SimPayload
    requires |rows| == |bars| && A.Aligned(ind, |bars|) && i < |bars|
  {
    var close := bars[i].close;
    var buy := rows[i].action == A.BUY;
    SimPayload(rows[i].action, ticker, "Paper", 100.0, close,
               close * (if buy then 0.98 else 1.02), close * (if buy then 1.05 else 0.95),
               "comprehensive_analysis", "1d", bars[i].timestamp,
               IndicatorOr(ind, "RSI", i, 50.0), IndicatorOr(ind, "ATR", i, 1.0))
  }

  /** The payloads of rows `0 .. k-1`, in row order. */
  function PayloadsUpTo(ticker: string, bars: seq<Bar>, rows: seq<A.SignalRow>,
                        ind: A.IndicatorSet, k: nat): seq<SimPayload>
    requires |rows| == |bars| && A.Aligned(ind, |bars|) && k <= |bars|
  {
    if k == 0 then []
    else PayloadsUpTo(ticker, bars, rows, ind, k - 1)
         + (if IsTrade(rows[k - 1]) then [PayloadAt(ticker, bars, rows, ind, k - 1)] else [])
  }

  /** The trade rows among `0 .. k-1`, in increasing order. */
  function TradeRowsUpTo(rows: seq<A.SignalRow>, k: nat): seq<nat>
    requires k <= |rows|
  {
    if k == 0 then []
    else TradeRowsUpTo(rows, k - 1) + (if IsTrade(rows[k - 1]) then [k - 1] else [])
  }

  /** Builds the payload list row by row. */
  method WebhookPayloads(ticker: string, bars: seq<Bar>, rows: seq<A.SignalRow>,
                         ind: A.IndicatorSet) returns (payloads: seq<SimPayload>)
    requires |rows| == |bars| && A.Aligned(ind, |bars|)
    ensures payloads == PayloadsUpTo(ticker, bars, rows, ind, |bars|)
    ensures |payloads| == Count(rows, A.BUY) + Count(rows, A.SELL)
  {
    payloads := [];
    var k := 0;
    while k < |rows|
      invariant 0 <= k <= |rows|
      invariant payloads == PayloadsUpTo(ticker, bars, rows, ind, k)
    {
      var row := rows[k];
      if row.action == A.BUY || row.action == A.SELL {
        var close := bars[k].close;
        var payload := SimPayload(row.action, ticker, "Paper", 100.0, close,
                                  close * (if row.action == A.BUY then 0.98 else 1.02),
                                  close * (if row.action == A.BUY then 1.05 else 0.95),
                                  "comprehensive_analysis", "1d", bars[k].timestamp,
                                  if "RSI" in ind then ind["RSI"][k] else Some(50.0),
                                  if "ATR" in ind then ind["ATR"][k] else Some(1.0));
        payloads := payloads + [payload];
      }
      k := k + 1;
    }
    PayloadCount(ticker, bars, rows, ind, |rows|);
    assert rows[..|rows|] == rows;
  }

  /** One payload per trade row: their number is the BUY count plus the
      SELL count of the rows scanned. */
  lemma {:induction false} PayloadCount(ticker: string, bars: seq<Bar>, rows: seq<A.SignalRow>,
                                        ind: A.IndicatorSet, k: nat)
    requires |rows| == |bars| && A.Aligned(ind, |bars|) && k <= |bars|
    ensures |PayloadsUpTo(ticker, bars, rows, ind, k)|
            == Count(rows[..k], A.BUY) + Count(rows[..k], A.SELL)
  {
    if k > 0 {
      PayloadCount(ticker, bars, rows, ind, k - 1);
      assert rows[..k][..k - 1] == rows[..k - 1];
    }
  }

  /** The j-th payload is that of the j-th trade row; the trade rows are
      exactly the BUY and SELL rows, in increasing order, so HOLD rows give
      no payload. */
  lemma {:induction false} PayloadsFollowTradeRows(ticker: string, bars: seq<Bar>,
                                                   rows: seq<A.SignalRow>, ind: A.IndicatorSet, k: nat)
    requires |rows| == |bars| && A.Aligned(ind, |bars|) && k <= |bars|
    ensures var ps := PayloadsUpTo(ticker, bars, rows, ind, k);
            var ts := TradeRowsUpTo(rows, k);
      && |ps| == |ts|
      && (forall j :: 0 <= j < |ts| ==>
            (ts[j] < k && IsTrade(rows[ts[j]]) && ps[j] == PayloadAt(ticker, bars, rows, ind, ts[j])))
      && (forall j, l :: 0 <= j < l < |ts| ==> ts[j] < ts[l])
      && (forall i :: 0 <= i < k && IsTrade(rows[i]) ==> i in ts)
  {
    if k > 0 {
      PayloadsFollowTradeRows(ticker, bars, rows, ind, k - 1);
      var prev := TradeRowsUpTo(rows, k - 1);
      var ts := TradeRowsUpTo(rows, k);
      assert forall j :: 0 <= j < |prev| ==> ts[j] == prev[j];
    }
  }

  /** The payload's prices and constants: for a BUY the stop is 98% and the
      target 105% of the close, for a SELL 102% and 95%; with a positive
      close the entry lies strictly between them. */
  lemma PayloadPrices(ticker: string, bars: seq<Bar>, rows: seq<A.SignalRow>,
                      ind: A.IndicatorSet, i: nat)
    requires |rows| == |bars| && A.Aligned(ind, |bars|) && i < |bars| && IsTrade(rows[i])
    ensures var p := PayloadAt(ticker, bars, rows, ind, i); var c := bars[i].close;
      && p.signal == rows[i].action && p.entryPrice == c && p.ticker == ticker
      && p.tradingMode == "Paper" && p.riskAmount == 100.0
      && p.strategy == "comprehensive_analysis" && p.timeframe == "1d"
      && (p.signal == A.BUY ==> p.stopLoss == c * 0.98 && p.takeProfit == c * 1.05)
      && (p.signal == A.SELL ==> p.stopLoss == c * 1.02 && p.takeProfit == c * 0.95)
      && (c > 0.0 && p.signal == A.BUY ==> p.stopLoss < p.entryPrice < p.takeProfit)
      && (c > 0.0 && p.signal == A.SELL ==> p.takeProfit < p.entryPrice < p.stopLoss)
  {
  }

  /** Without RSI or ATR arrays the payload carries 50 and 1. */
  lemma PayloadFallbacks(ticker: string, bars: seq<Bar>, rows: seq<A.SignalRow>,
                         ind: A.IndicatorSet, i: nat)
    requires |rows| == |bars| && A.Aligned(ind, |bars|) && i < |bars|
    ensures "RSI" !in ind ==> PayloadAt(ticker, bars, rows, ind, i).rsi == Some(50.0)
    ensures "ATR" !in ind ==> PayloadAt(ticker, bars, rows, ind, i).atr == Some(1.0)
    ensures "RSI" in ind ==> PayloadAt(ticker, bars, rows, ind, i).rsi == ind["RSI"][i]
  {
  }
}
