/** The trading back end: the fixed-risk position sizer, the order that a
    signal turns into, and the webhook endpoint that validates a signal,
    records it and records the outcome of its execution.

    A JSON payload is a map from keys to text or numbers; Python's run-time
    errors on a value of the wrong kind (a missing key, `.lower()` on a
    number, arithmetic on text) become error results.  The broker is seen
    only through whether its client is configured and through the reply it
    gives to a submitted order, which is a parameter. */
module Backend {
  import opened Common

  datatype Field = Text(s: string) | Number(x: real)

  type Payload = map<string, Field>

  /** Python truthiness of a JSON value. */
  predicate Truthy(f: Field) {
    match f
    case Text(s) => s != ""
    case Number(x) => x != 0.0
  }


  function Abs(x: real): real {
    if x < 0.0 then -x else x
  }

  // ---------------------------------------------------------------------
  // Position sizing on numbers

  /** A zero or negative stop is replaced by a stop 2% below the entry,
      whichever side the trade is on. */
  function EffectiveStop(entry: real, stop: real): real {
    if stop <= 0.0 then entry * 0.98 else stop
  }

  function RiskPerShare(entry: real, stop: real): real {
    Abs(entry - EffectiveStop(entry, stop))
  }

  /** The number of shares whose loss at the stop is the fixed risk amount,
      truncated toward zero; zero when the stop equals the entry. */
  function PositionSize(risk: real, entry: real, stop: real): (n: int)
    ensures RiskPerShare(entry, stop) <= 0.0 ==> n == 0
    ensures risk >= 0.0 ==> n >= 0
    ensures risk < 0.0 ==> n <= 0
  {
    var riskPerShare := RiskPerShare(entry, stop);
    if riskPerShare <= 0.0 then 0 else Trunc(risk / riskPerShare)
  }

  /** With a non-negative risk, the position never risks more than the risk
      amount and one more share would. */
  lemma SizeWithinRisk(risk: real, entry: real, stop: real)
    requires risk >= 0.0
    ensures var rps := RiskPerShare(entry, stop); var n := PositionSize(risk, entry, stop);
      && n >= 0
      && n as real * rps <= risk
      && (rps > 0.0 ==> risk < (n + 1) as real * rps)
  {
    var rps := RiskPerShare(entry, stop);
    var n := PositionSize(risk, entry, stop);
    if rps > 0.0 {
      var q := risk / rps;
      if q < 0.0 {
        MultiplyMonotoneStrict(q, 0.0, rps);
      }
      assert n == Trunc(q);
      TruncBounds(n, q, rps, risk);
    }
  }

  /** The step from the quotient's bounds to the product's. */
  lemma TruncBounds(n: int, q: real, rps: real, risk: real)
    requires rps > 0.0 && q == risk / rps
    requires n as real <= q < (n + 1) as real
    ensures n as real * rps <= risk < (n + 1) as real * rps
  {
    assert q * rps == risk;
    MultiplyMonotone(n as real, q, rps);
    MultiplyMonotoneStrict(q, (n + 1) as real, rps);
  }

  lemma MultiplyMonotone(a: real, b: real, c: real)
    requires a <= b && c > 0.0
    ensures a * c <= b * c
  {
  }

  lemma MultiplyMonotoneStrict(a: real, b: real, c: real)
    requires a < b && c > 0.0
    ensures a * c < b * c
  {
  }

  /** The fallback stop, and the size of the documented examples: a risk of
      100 on an entry of 100 with a stop of 98 (given or by fallback) buys
      50 shares; a stop at the entry, or a missing entry and stop, buy none. */
  lemma SizingExamples()
    ensures forall entry: real, stop: real :: stop <= 0.0 ==> EffectiveStop(entry, stop) == entry * 0.98
    ensures PositionSize(100.0, 100.0, 98.0) == 50
    ensures PositionSize(100.0, 100.0, 0.0) == 50
    ensures PositionSize(100.0, 100.0, -5.0) == 50
    ensures PositionSize(100.0, 100.0, 100.0) == 0
    ensures PositionSize(100.0, 0.0, 0.0) == 0
  {
    assert 100.0 / 2.0 == 50.0;
  }

  /** A payload with no stop is sized against a stop 2% below the entry
      whatever its signal type: as a SELL it plans the same quantity as the
      same payload as a BUY, only the side differs. */
  lemma FallbackIgnoresSide(paperApi: bool, liveApi: bool, p: Payload)
    requires "stop_loss" !in p
    requires "entry_price" in p && p["entry_price"].Number? && p["entry_price"].x > 0.0
    ensures var entry := p["entry_price"].x;
      && RiskPerShare(entry, 0.0) == entry * 0.02
      && EffectiveStop(entry, 0.0) < entry
    ensures var sell := Plan(paperApi, liveApi, p["signal_type" := Text("SELL")]);
            var buy := Plan(paperApi, liveApi, p["signal_type" := Text("BUY")]);
      && (sell.Ok? <==> buy.Ok?)
      && (sell.Ok? ==>
            && sell.value.1.side == "sell" && buy.value.1.side == "buy"
            && sell.value.1.qty == buy.value.1.qty
            && "risk_amount" in p
            && SizeOf(p["risk_amount"], p["entry_price"], Number(0.0)) == Ok(sell.value.1.qty))
  {
    assert Upper("SELL") == "SELL";
    assert Upper("BUY") == "BUY";
  }

  // ---------------------------------------------------------------------
  // Position sizing on payload values

  datatype Error =
    | KeyError(key: string)              // a required key is absent
    | AttributeError(key: string)        // `.lower()`/`.upper()` on a non-string
    | TypeError                          // arithmetic or comparison on text
    | ApiNotConfigured(mode: string)     // no client for the selected mode
    | InvalidPositionSize
    | BrokerError(message: string)       // submit_order raised

  datatype Result<T> = Ok(value: T) | Err(error: Error)

  /** `calculate_position_size` applied to payload values: an empty text
      stop counts as missing, any other text operand is a type error, except
      that the risk amount is never touched when the risk per share is 0. */
  function SizeOf(risk: Field, entry: Field, stop: Field): (r: Result<int>)
    ensures risk.Number? && entry.Number? && stop.Number? ==>
              r == Ok(PositionSize(risk.x, entry.x, stop.x))
    ensures entry.Text? ==> r == Err(TypeError)
    ensures stop.Text? && stop.s != "" ==> r == Err(TypeError)
    ensures r.Err? ==> r.error == TypeError
  {
    if stop.Text? && stop.s != "" then Err(TypeError)
    else if entry.Text? then Err(TypeError)
    else
      var stopValue := if stop.Text? then 0.0 else stop.x;
      var riskPerShare := RiskPerShare(entry.x, stopValue);
      if riskPerShare <= 0.0 then Ok(0)
      else if risk.Text? then Err(TypeError)
      else Ok(Trunc(risk.x / riskPerShare))
  }

  // ---------------------------------------------------------------------
  // Orders

  datatype Venue = PaperVenue | LiveVenue

  /** The keyword arguments of `submit_order`; the optional stop and take
      profit carry the payload's raw values. */
  datatype OrderRequest = OrderRequest(symbol: Field, qty: int, side: string,
                                       orderType: string, timeInForce: string,
                                       stopPrice: Option<Field>, limitPrice: Option<Field>)

  /** What the broker does with a submitted order. */
  datatype BrokerReply = Accepted(orderId: string, status: string) | Raised(message: string)

  datatype ExecResult = Success(orderId: string, status: string, quantity: int) | Failure(error: Error)

  /** A value the payload carries only when it is truthy. */
  function Attached(p: Payload, key: string): (r: Option<Field>)
    ensures r.Some? <==> key in p && Truthy(p[key])
    ensures r.Some? ==> r.value == p[key]
  {
    if key in p && Truthy(p[key]) then Some(p[key]) else None
  }

  /** The decision part of `execute_trade`: which client, and which order,
      or the error raised before an order is submitted.  The checks run in
      the source's order: mode, client, size, side, symbol. */
  function Plan(paperApi: bool, liveApi: bool, p: Payload): Result<(Venue, OrderRequest)> {
    if "trading_mode" !in p then Err(KeyError("trading_mode"))
    else if !p["trading_mode"].Text? then Err(AttributeError("trading_mode"))
    else
      var mode := p["trading_mode"].s;
      var venue := if Lower(mode) == "paper" then PaperVenue else LiveVenue;
      var configured := if venue == PaperVenue then paperApi else liveApi;
      if !configured then Err(ApiNotConfigured(mode))
      else if "risk_amount" !in p then Err(KeyError("risk_amount"))
      else
        var size := SizeOf(p["risk_amount"], Get(p, "entry_price", Number(0.0)),
                           Get(p, "stop_loss", Number(0.0)));
        if size.Err? then Err(size.error)
        else if size.value <= 0 then Err(InvalidPositionSize)
        else if "signal_type" !in p then Err(KeyError("signal_type"))
        else if !p["signal_type"].Text? then Err(AttributeError("signal_type"))
        else if "ticker" !in p then Err(KeyError("ticker"))
        else
          var side := if Upper(p["signal_type"].s) == "BUY" then "buy" else "sell";
          Ok((venue, OrderRequest(p["ticker"], size.value, side, "market", "day",
                                  Attached(p, "stop_loss"), Attached(p, "take_profit"))))
  }

  /** The result `execute_trade` returns once the broker has answered. */
  function Outcome(plan: Result<(Venue, OrderRequest)>, reply: BrokerReply): ExecResult {
    if plan.Err? then Failure(plan.error)
    else match reply
      case Accepted(id, status) => Success(id, status, plan.value.1.qty)
      case Raised(message) => Failure(BrokerError(message))
  }

  /** The paper client serves exactly the modes that lower-case to "paper";
      a mode whose client is missing fails with that mode in the error. */
  lemma VenueRule(paperApi: bool, liveApi: bool, p: Payload)
    requires "trading_mode" in p && p["trading_mode"].Text?
    ensures var mode := p["trading_mode"].s;
            var plan := Plan(paperApi, liveApi, p);
      && (plan.Ok? ==> (plan.value.0 == PaperVenue <==> Lower(mode) == "paper"))
      && (Lower(mode) == "paper" && !paperApi ==> plan == Err(ApiNotConfigured(mode)))
      && (Lower(mode) != "paper" && !liveApi ==> plan == Err(ApiNotConfigured(mode)))
  {
  }

  /** An order is only ever planned for a positive size, which is the sized
      quantity; a size of zero or less fails without an order. */
  lemma OrderHasPositiveSize(paperApi: bool, liveApi: bool, p: Payload)
    ensures var plan := Plan(paperApi, liveApi, p);
      plan.Ok? ==>
        && "risk_amount" in p
        && SizeOf(p["risk_amount"], Get(p, "entry_price", Number(0.0)), Get(p, "stop_loss", Number(0.0)))
             == Ok(plan.value.1.qty)
        && plan.value.1.qty > 0
    ensures var plan := Plan(paperApi, liveApi, p);
      ("trading_mode" in p && p["trading_mode"].Text? && "risk_amount" in p
       && (if Lower(p["trading_mode"].s) == "paper" then paperApi else liveApi)
       && SizeOf(p["risk_amount"], Get(p, "entry_price", Number(0.0)), Get(p, "stop_loss", Number(0.0)))
            == Ok(0))
      ==> plan == Err(InvalidPositionSize)
  {
  }

  /** A missing entry price and stop mean a size of zero: no order. */
  lemma MissingPricesGiveNoOrder(paperApi: bool, liveApi: bool, p: Payload)
    requires "entry_price" !in p && "stop_loss" !in p
    ensures Plan(paperApi, liveApi, p).Err?
  {
    OrderHasPositiveSize(paperApi, liveApi, p);
    if "risk_amount" in p {
      ZeroPricesZeroSize(p["risk_amount"]);
    }
  }

  lemma ZeroPricesZeroSize(risk: Field)
    ensures SizeOf(risk, Number(0.0), Number(0.0)) == Ok(0)
  {
    assert RiskPerShare(0.0, 0.0) == 0.0;
  }

  /** A planned order is a day market order for the payload's ticker, on the
      buy side exactly when the signal type upper-cases to "BUY", and it
      carries the stop and the take profit exactly when they are truthy. */
  lemma OrderShape(paperApi: bool, liveApi: bool, p: Payload)
    requires Plan(paperApi, liveApi, p).Ok?
    ensures var o := Plan(paperApi, liveApi, p).value.1;
      && "ticker" in p && o.symbol == p["ticker"]
      && o.orderType == "market" && o.timeInForce == "day"
      && "signal_type" in p && p["signal_type"].Text?
      && (o.side == "buy" <==> Upper(p["signal_type"].s) == "BUY")
      && (o.side == "buy" || o.side == "sell")
      && (o.stopPrice.Some? <==> "stop_loss" in p && Truthy(p["stop_loss"]))
      && (o.stopPrice.Some? ==> o.stopPrice.value == p["stop_loss"])
      && (o.limitPrice.Some? <==> "take_profit" in p && Truthy(p["take_profit"]))
      && (o.limitPrice.Some? ==> o.limitPrice.value == p["take_profit"])
  {
  }

  /** A success reports the order's quantity and the broker's id and status;
      a failed plan fails whatever the broker would have said. */
  lemma OutcomeRule(plan: Result<(Venue, OrderRequest)>, reply: BrokerReply)
    ensures plan.Err? ==> Outcome(plan, reply) == Failure(plan.error)
    ensures Outcome(plan, reply).Success? <==> plan.Ok? && reply.Accepted?
    ensures Outcome(plan, reply).Success? ==>
              Outcome(plan, reply) == Success(reply.orderId, reply.status, plan.value.1.qty)
  {
  }

  // ---------------------------------------------------------------------
  // The engine and the webhook

  class TradingEngine {
    /** Whether the paper and the live clients exist. */
    const paperApi: bool
    const liveApi: bool

    /** A client exists exactly when both its key and its secret are set
        (an unset variable is the empty text here). */
    constructor (paperKey: string, paperSecret: string, liveKey: string, liveSecret: string)
      ensures paperApi <==> paperKey != "" && paperSecret != ""
      ensures liveApi <==> liveKey != "" && liveSecret != ""
    {
      paperApi := paperKey != "" && paperSecret != "";
      liveApi := liveKey != "" && liveSecret != "";
    }

    /** Picks the client, sizes the position, builds the order step by step
        and submits it; raised errors become the failure result. */
    method ExecuteTrade(signalData: Payload, reply: BrokerReply) returns (result: ExecResult)
      ensures result == Outcome(Plan(paperApi, liveApi, signalData), reply)
    {
      if "trading_mode" !in signalData {
        return Failure(KeyError("trading_mode"));
      }
      if !signalData["trading_mode"].Text? {
        return Failure(AttributeError("trading_mode"));
      }
      var mode := signalData["trading_mode"].s;
      var api := if Lower(mode) == "paper" then paperApi else liveApi;
      if !api {
        return Failure(ApiNotConfigured(mode));
      }
      if "risk_amount" !in signalData {
        return Failure(KeyError("risk_amount"));
      }
      var size := SizeOf(signalData["risk_amount"], Get(signalData, "entry_price", Number(0.0)),
                         Get(signalData, "stop_loss", Number(0.0)));
      if size.Err? {
        return Failure(size.error);
      }
      var positionSize := size.value;
      if positionSize <= 0 {
        return Failure(InvalidPositionSize);
      }
      if "signal_type" !in signalData {
        return Failure(KeyError("signal_type"));
      }
      if !signalData["signal_type"].Text? {
        return Failure(AttributeError("signal_type"));
      }
      var side := if Upper(signalData["signal_type"].s) == "BUY" then "buy" else "sell";
      if "ticker" !in signalData {
        return Failure(KeyError("ticker"));
      }
      var order := OrderRequest(signalData["ticker"], positionSize, side, "market", "day", None, None);
      if "stop_loss" in signalData && Truthy(signalData["stop_loss"]) {
        order := order.(stopPrice := Some(signalData["stop_loss"]));
      }
      if "take_profit" in signalData && Truthy(signalData["take_profit"]) {
        order := order.(limitPrice := Some(signalData["take_profit"]));
      }
      match reply {
        case Accepted(id, status) =>
          result := Success(id, status, order.qty);
        case Raised(message) =>
          result := Failure(BrokerError(message));
      }
    }
  }

  const RequiredFields: seq<string> := ["ticker", "signal_type", "trading_mode", "risk_amount"]

  /** The first required field the payload lacks, if any. */
  method FirstMissingField(p: Payload) returns (missing: Option<string>)
    ensures missing.None? <==> forall f :: f in RequiredFields ==> f in p
    ensures missing.Some? ==>
      exists k :: 0 <= k < |RequiredFields| && RequiredFields[k] == missing.value
                  && missing.value !in p
                  && forall j :: 0 <= j < k ==> RequiredFields[j] in p
  {
    var k := 0;
    while k < |RequiredFields|
      invariant 0 <= k <= |RequiredFields|
      invariant forall j :: 0 <= j < k ==> RequiredFields[j] in p
    {
      if RequiredFields[k] !in p {
        return Some(RequiredFields[k]);
      }
      k := k + 1;
    }
    missing := None;
  }

  /** The stored signal row; the optional columns are `get` lookups. */
  datatype SignalRecord = SignalRecord(id: nat, ticker: Field, signalType: Field,
                                       tradingMode: Field, riskAmount: Field,
                                       entryPrice: Option<Field>, stopLoss: Option<Field>,
                                       takeProfit: Option<Field>, strategy: Option<Field>,
                                       timeframe: Option<Field>, rawPayload: Payload)

  /** The stored execution row. */
  datatype ExecutionRecord = ExecutionRecord(signalId: nat, orderId: Option<string>,
                                             status: string, quantity: int)

  function Lookup(p: Payload, key: string): Option<Field> {
    if key in p then Some(p[key]) else None
  }

  /** The execution row of a result: a failure is recorded as "failed" with
      no order and quantity 0. */
  function ExecutionOf(signalId: nat, r: ExecResult): (e: ExecutionRecord)
    ensures e.signalId == signalId
    ensures r.Failure? ==> e.status == "failed" && e.quantity == 0 && e.orderId.None?
    ensures r.Success? ==> e.status == r.status && e.quantity == r.quantity
                           && e.orderId == Some(r.orderId)
  {
    match r
    case Success(id, status, quantity) => ExecutionRecord(signalId, Some(id), status, quantity)
    case Failure(_) => ExecutionRecord(signalId, None, "failed", 0)
  }

  datatype ResponseBody = ErrorBody(message: string) | Processed(signalId: nat, execution: ExecResult)

  datatype Response = Response(code: int, body: ResponseBody)

  /** The webhook endpoint with the two tables it writes. */
  class WebhookService {
    const engine: TradingEngine
    var signals: seq<SignalRecord>
    var executions: seq<ExecutionRecord>

    /** Each signal row has one execution row, and ids count from 1. */
    ghost predicate Valid()
      reads this
    {
      && |executions| == |signals|
      && (forall i :: 0 <= i < |signals| ==> signals[i].id == i + 1)
      && (forall i :: 0 <= i < |executions| ==> executions[i].signalId == i + 1)
    }

    constructor (engine: TradingEngine)
      ensures this.engine == engine && signals == [] && executions == [] && Valid()
    {
      this.engine := engine;
      signals := [];
      executions := [];
    }

    /** Rejects an absent or empty payload and the first missing required
        field with 400; otherwise stores the signal, executes it, stores the
        execution and answers 200 with the execution result. */
    method HandleTradingSignal(payload: Option<Payload>, reply: BrokerReply) returns (response: Response)
      requires Valid()
      modifies this
      ensures Valid()
      ensures payload.None? || payload.value == map[] ==>
                response == Response(400, ErrorBody("No JSON data received"))
                && signals == old(signals) && executions == old(executions)
      ensures payload.Some? && payload.value != map[]
              && !(forall f :: f in RequiredFields ==> f in payload.value) ==>
                (exists k :: 0 <= k < |RequiredFields| && RequiredFields[k] !in payload.value
                   && (forall j :: 0 <= j < k ==> RequiredFields[j] in payload.value)
                   && response == Response(400, ErrorBody("Missing required field: " + RequiredFields[k])))
                && signals == old(signals) && executions == old(executions)
      ensures payload.Some? && payload.value != map[]
              && (forall f :: f in RequiredFields ==> f in payload.value) ==>
                var p := payload.value;
                var id := |old(signals)| + 1;
                var outcome := Outcome(Plan(engine.paperApi, engine.liveApi, p), reply);
                && signals == old(signals)
                     + [SignalRecord(id, p["ticker"], p["signal_type"], p["trading_mode"],
                                     p["risk_amount"], Lookup(p, "entry_price"),
                                     Lookup(p, "stop_loss"), Lookup(p, "take_profit"),
                                     Lookup(p, "strategy"), Lookup(p, "timeframe"), p)]
                && executions == old(executions) + [ExecutionOf(id, outcome)]
                && response == Response(200, Processed(id, outcome))
    {
      if payload.None? || payload.value == map[] {
        return Response(400, ErrorBody("No JSON data received"));
      }
      var p := payload.value;
      var missing := FirstMissingField(p);
      if missing.Some? {
        return Response(400, ErrorBody("Missing required field: " + missing.value));
      }
      assert forall f :: f in RequiredFields ==> f in p;
      var id := |signals| + 1;
      signals := signals + [SignalRecord(id, p["ticker"], p["signal_type"], p["trading_mode"],
                                         p["risk_amount"], Lookup(p, "entry_price"),
                                         Lookup(p, "stop_loss"), Lookup(p, "take_profit"),
                                         Lookup(p, "strategy"), Lookup(p, "timeframe"), p)];
      var executionResult := engine.ExecuteTrade(p, reply);
      executions := executions + [ExecutionOf(id, executionResult)];
      response := Response(200, Processed(id, executionResult));
    }
  }
}
