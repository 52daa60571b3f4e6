# tvTrading core in Dafny

This project models the decision logic of tvTrading, a TradingView-style
trading simulator, in Dafny. Market data and indicator arrays go in. Per-bar
trading decisions come out, and those become webhook payloads and broker
orders. Next to that chain sits a multi-team development router that splits a
project's requirements among teams by keyword.

The model has six modules, one per file:

- `Common` (`common.dfy`) holds the shared pieces:
  - indicator values as `Option<real>`, where `None` is the library's warm-up
    NaN and every comparison with it is false;
  - Python's `int()` truncation;
  - ASCII `lower()`/`upper()`;
  - the substring test behind Python's `in` on strings.
- `Analysis` (`technical_analyzer.dfy`) is the level-mode signal synthesizer of
  `TechnicalAnalyzer`. It gives four category scores per bar, a weighted
  combination and a BUY/SELL/HOLD action. The weights 0.4/0.3/0.2/0.1 are kept
  exactly by holding the combined score in tenths (`4T+3M+2V+P`, BUY iff > 5,
  SELL iff < -5). The analyzer object caches its merged indicator map.
- `Simulator` (`trading_simulator.dfy`) is the edge-mode trigger loop of
  `TradingSimulator`. It covers:
  - SMA/RSI/MACD cross edges from bar 20 on, with BUY taking precedence;
  - stops and targets at 2 and 3 ATR from the entry;
  - the per-ticker signal store, the Pine Script webhook mapping and the
    simulation summary counts.
- `Backend` (`app.py` → `app.dfy`) covers:
  - fixed-risk position sizing;
  - the decision part of `execute_trade`: client choice, size check, side,
    and order fields with conditional stop and target;
  - required-field validation in the webhook endpoint;
  - the signal and execution rows the endpoint stores.
- `Runner` (`run_simulation.dfy`) is the comprehensive-analysis script. It
  counts actions, computes the signal frequency and builds the fixed-percent
  webhook payloads.
- `Teams` (`team_router.dfy`) is the team router. It covers the keyword
  classifier, the agents' task-list/status state machine and synchronous
  message routing into a history. The same code ships twice
  (`src/backend/team-router-with-output.py` and `team-router-with-output.py`,
  byte-identical), so the model has one module and the rows below cite both
  copies.

Where the code and its documentation disagree, the model follows the code:

- The "oversold" edge of the trigger loop fires when RSI *falls* below 30
  (`< 30` now, `>= 30` on the bar before).
- The fallback stop is always `entry * 0.98`, even for a SELL.
- A negative (truthy) stop is still attached to the order, although sizing
  ignored it.
- A position size of 0 arises whenever the risk amount is below one share's
  risk, not only when stop and entry coincide.
- "Build user authentication system" goes to the frontend team, because
  "build" contains "ui".

Stateful code is modelled as classes: `TechnicalAnalyzer`,
`TradingSimulator`, `TradingEngine`, `WebhookService`, `TeamAgent` and
`MultiTeamRouter`. Each method is proved against a function of the old state,
and the properties are proved as lemmas about those functions.

## Model

| member | source | states |
|---|---|---|
| Common.Get | src/backend/app.py:142-143 | `dict.get(key, default)`: the stored value when the key is present, else the default (also used for message data at src/backend/team-router-with-output.py:75, 99, 113) |
| Common.Trunc | src/backend/app.py:123 | `int()` of a real truncates toward zero: for x ≥ 0 the result is the largest integer ≤ x, for x < 0 the smallest ≥ x |
| Common.Plus | src/analytics/technical_analyzer.py:287-297 | adding two indicator values is defined exactly when both are, and is then their sum (NaN propagates) |
| Common.Closes | src/analytics/technical_analyzer.py:32 | the close array has one entry per bar, the bar's close |
| Common.Lower | src/backend/team-router-with-output.py:233 | lower-casing keeps the length and maps every character through the ASCII case map |
| Common.Upper | src/backend/app.py:150 | upper-casing keeps the length and maps every character through the ASCII case map |
| Common.ContainsIff | src/backend/team-router-with-output.py:233 | the substring test holds exactly when the keyword occurs at some position of the text |
| Common.ContainsAcrossSpace | team-router-with-output.py:233 | a keyword without spaces occurs in `x + " " + y` exactly when it occurs in x or in y |
| Common.LowerAppend | team-router-with-output.py:233 | lower-casing distributes over concatenation |
| Analysis.Column | src/analytics/technical_analyzer.py:259-270 | `indicators.get(name, default array)`: the stored array when present, otherwise a frame-long array of the default |
| Analysis.Combined | src/analytics/technical_analyzer.py:305-310 | the combined score in tenths lies in [-10, 10], i.e. the weighted score in [-1, 1]; it is 10 (-10) exactly when all four scores are 1 (-1) |
| Analysis.Signals | src/analytics/technical_analyzer.py:248 | one signal row per input bar, on the same index, each computed from that bar |
| Analysis.RowIsWellFormed | src/analytics/technical_analyzer.py:262-316 | every row has scores in {-1,0,1}, combined tenths in [-10,10] equal to ten times the real weighted score, and the action that the source's real thresholds give |
| Analysis.WeightsInTenths | src/analytics/technical_analyzer.py:305-316 | the tenths and the 0.4/0.3/0.2/0.1 real weighting agree, and so do the thresholds "> 0.5" / "< -0.5" and "> 5" / "< -5" |
| Analysis.TrendRule | src/analytics/technical_analyzer.py:262-265 | trend is +1 iff sma10 > sma20 and close > sma10, -1 iff sma10 < sma20 and close < sma10, else 0; the two never hold together |
| Analysis.MomentumRule | src/analytics/technical_analyzer.py:272-275 | momentum is +1 iff rsi < 30 and macd > signal, -1 iff rsi > 70 and macd < signal, else 0 |
| Analysis.VolumeRule | src/analytics/technical_analyzer.py:278-284 | volume is +1 iff obv > obv_sma, -1 iff obv < obv_sma, 0 when equal or either is undefined |
| Analysis.PatternRule | src/analytics/technical_analyzer.py:287-302 | pattern is +1 iff the bullish total is > 0, -1 iff it is not but the bearish total is < 0, else 0: bullish wins when both hold |
| Analysis.BuySellCases | src/analytics/technical_analyzer.py:313-316 | BUY exactly for a bullish trend backed by two more tenths, or for every non-trend category bullish; SELL is the mirror image; all else is HOLD |
| Analysis.HalfIsHold | src/analytics/technical_analyzer.py:313-316 | combinations whose weighted score is exactly ±0.5 (e.g. T=1, P=1) are HOLD |
| Analysis.NegationMirrors | src/analytics/technical_analyzer.py:305-316 | negating the four scores negates the combined score and swaps BUY and SELL |
| Analysis.WindowSumDefined | src/analytics/technical_analyzer.py:279 | a window sum is defined exactly when every value in the window is |
| Analysis.WindowSumPrefix | src/analytics/technical_analyzer.py:279 | a window sum depends only on the values up to the window's end |
| Analysis.WindowSumOfZeros | src/analytics/technical_analyzer.py:278-279 | a window of zeros sums to zero |
| Analysis.TrailingMeanDefined | src/analytics/technical_analyzer.py:279 | the 10-bar mean of OBV is defined exactly from bar 9 on, when its whole window is defined (for OBV series whose undefined values all come first, this is when the moving average is defined) |
| Analysis.UndefinedScoresZero | src/analytics/technical_analyzer.py:262-302 | an undefined input for a category (warm-up NaN) makes that category score 0 on that bar |
| Analysis.MissingObvScoresZero | src/analytics/technical_analyzer.py:278-284 | without an OBV array (zeros substituted) the volume score is 0 on every bar |
| Analysis.MissingRsiScoresZero | src/analytics/technical_analyzer.py:268-275 | without an RSI array (50 substituted) the momentum score is 0 on every bar |
| Analysis.Prefix | src/analytics/technical_analyzer.py:259-297 | cutting every indicator array to its first k bars keeps the names and aligns them with k bars |
| Analysis.ColumnPrefix | src/analytics/technical_analyzer.py:259-297 | the lookup with defaults commutes with cutting to a prefix |
| Analysis.RowUsesNoLaterBars | src/analytics/technical_analyzer.py:262-316 | a bar's row depends only on bars up to it: computing on a prefix gives the same row |
| Analysis.SignalsUseNoLaterBars | src/analytics/technical_analyzer.py:248-316 | the signal frame of a prefix of the data is the prefix of the signal frame |
| Analysis.MergedAligned | src/analytics/technical_analyzer.py:225-232 | the merged indicator map is aligned with the bars and has exactly the names of the five groups |
| Analysis.TechnicalAnalyzer.constructor | src/analytics/technical_analyzer.py:22-35 | a new analyzer holds the bars and an empty indicator cache |
| Analysis.TechnicalAnalyzer.CalculateAllIndicators | src/analytics/technical_analyzer.py:218-238 | the five groups are merged in order, a later group overriding an earlier one as `dict.update` does, and the result is cached and returned |
| Analysis.TechnicalAnalyzer.GenerateTradingSignals | src/analytics/technical_analyzer.py:240-323 | indicators are computed first only when the cache is empty; the frame returned is the signal frame of the closes and the cached indicators |
| Simulator.TriggersAreFiringBars | src/backend/trading_simulator.py:145-186 | the bars that emit a signal are exactly the bars from 20 on whose buy or sell conditions hold, in strictly increasing order, at most one signal per bar |
| Simulator.SignalsFollowTriggers | src/backend/trading_simulator.py:145-203 | the j-th signal is the record built at the j-th firing bar |
| Simulator.ShortFrameHasNoSignals | src/backend/trading_simulator.py:145 | a series of 20 bars or fewer gives no signal |
| Simulator.SideRule | src/backend/trading_simulator.py:148-186 | BUY iff an SMA cross-over, or RSI falling below 30 with a MACD cross-up; SELL only when BUY fails and an SMA cross-under or RSI rising above 70 with a MACD cross-down holds; cross-over and cross-under never share a bar |
| Simulator.StopsAndTargets | src/backend/trading_simulator.py:167-196 | entry is the close; BUY stop = entry − 2·ATR, target = entry + 3·ATR; SELL mirrored; with ATR > 0 a BUY has stop < entry < target and a SELL target < entry < stop |
| Simulator.SignalConstants | src/backend/trading_simulator.py:170-202 | every signal carries its ticker, strategy "sma_rsi_macd", risk 100.0 and mode "Paper" |
| Simulator.PayloadKeepsSignal | src/backend/trading_simulator.py:471-485 | the webhook payload copies every field of the signal and adds timeframe "1d" and ticker group "Group_1_NYSE" |
| Simulator.CountSideSplits | src/backend/trading_simulator.py:535-537 | the BUY and SELL counts of a signal list add up to its length |
| Simulator.Summarize | src/backend/trading_simulator.py:532-543 | the summary's buy and sell counts add up to the total, which is the number of signals |
| Simulator.TradingSimulator.constructor | src/backend/trading_simulator.py:29-35 | an empty ticker list falls back to the ten default tickers; the signal store starts empty |
| Simulator.TradingSimulator.GenerateTradingSignals | src/backend/trading_simulator.py:126-207 | an unknown ticker gives no signals and changes nothing; otherwise the loop returns the edge signals of the ticker's bars and the store of that ticker is replaced by exactly that list |
| Simulator.TradingSimulator.SimulatePineScriptWebhook | src/backend/trading_simulator.py:461-486 | one payload per stored signal of the ticker, in order, none for a ticker without stored signals |
| Simulator.TradingSimulator.RunFullSimulation | src/backend/trading_simulator.py:498-543 | the summary counts the listed tickers with data and their signals; buy + sell = total = webhook payloads; each processed ticker stores its edge signals, other stored tickers keep theirs, and no other ticker is added |
| Backend.PositionSize | src/backend/app.py:110-125 | zero when the risk per share is not positive; the size has the sign of the risk amount |
| Backend.SizeWithinRisk | src/backend/app.py:115-125 | with a non-negative risk, the shares times the risk per share never exceed the risk, and one more share would |
| Backend.SizingExamples | src/backend/app.py:115-123 | a zero or negative stop becomes entry·0.98; risk 100 on entry 100 with stop 98 (given, zero or negative) buys 50; stop at the entry, or no entry and stop, buys 0 |
| Backend.FallbackIgnoresSide | src/backend/app.py:115-123 | with no stop, the order is sized against a stop 2% below the entry: a SELL plans the same quantity as the same payload as a BUY, only the side differs |
| Backend.SizeOf | src/backend/app.py:110-125 | on numbers the payload size is the position size; a text entry or a non-empty text stop is a type error, and the only error is a type error |
| Backend.Attached | src/backend/app.py:161-166 | a value is attached exactly when the key is present with a truthy value, and is that value |
| Backend.VenueRule | src/backend/app.py:134-137 | the paper client is used exactly for modes that lower-case to "paper"; a missing client fails with that mode |
| Backend.OrderHasPositiveSize | src/backend/app.py:140-147 | an order is planned only with the sized quantity and only when it is positive; a size of 0 fails with "invalid position size" |
| Backend.MissingPricesGiveNoOrder | src/backend/app.py:140-147 | without entry price and stop (both default to 0) no order is planned |
| Backend.ZeroPricesZeroSize | src/backend/app.py:115-121 | entry 0 and stop 0 size to 0 whatever the risk value |
| Backend.OrderShape | src/backend/app.py:150-166 | the order is a day market order for the ticker; side "buy" iff the signal type upper-cases to "BUY", else "sell"; stop and target attached iff truthy |
| Backend.OutcomeRule | src/backend/app.py:169-185 | success iff the plan holds and the broker accepts; success reports the broker's id and status and the sized quantity; a failed plan fails whatever the broker says |
| Backend.TradingEngine.constructor | src/backend/app.py:89-106 | a client exists exactly when both its key and its secret are set |
| Backend.TradingEngine.ExecuteTrade | src/backend/app.py:127-185 | the method's step-by-step checks and order building give exactly the planned outcome |
| Backend.FirstMissingField | src/backend/app.py:206-209 | none is missing iff all four required fields are present; otherwise the one reported is absent and every field before it is present |
| Backend.ExecutionOf | src/backend/app.py:232-237 | a failure is stored as status "failed", quantity 0 and no order id; a success stores its order id, status and quantity |
| Backend.WebhookService.constructor | src/backend/app.py:187-188 | the endpoint starts with the engine and two empty tables |
| Backend.WebhookService.HandleTradingSignal | src/backend/app.py:190-249 | an absent or empty payload gives 400 "No JSON data received"; the first missing required field gives 400 "Missing required field: …"; neither stores anything; otherwise the signal row and its execution row are appended under the next id and 200 returns the execution result |
| Runner.CountsPartition | bin/run_simulation.py:100-102 | the BUY, SELL and HOLD counts partition the rows |
| Runner.Stats | bin/run_simulation.py:100-106 | total = buy + sell; buy + sell + hold = number of bars; the frequency is total/bars·100 (0 without bars) and lies in [0, 100] |
| Runner.FrequencyBounds | bin/run_simulation.py:106 | the frequency of at most as many signals as bars is in [0, 100] and times the bars gives total·100 |
| Runner.IndicatorOr | bin/run_simulation.py:162-163 | the indicator value at the bar when the array exists, else the fixed fallback |
| Runner.WebhookPayloads | bin/run_simulation.py:147-165 | the loop builds the payloads of the trade rows in row order, as many as BUY plus SELL rows |
| Runner.PayloadCount | bin/run_simulation.py:149-165 | the number of payloads is the number of BUY plus SELL rows scanned |
| Runner.PayloadsFollowTradeRows | bin/run_simulation.py:149-165 | the j-th payload is that of the j-th BUY/SELL row; those rows are all BUY/SELL rows, in increasing order; HOLD rows give none |
| Runner.PayloadPrices | bin/run_simulation.py:151-160 | payload constants "Paper", 100.0, "comprehensive_analysis", "1d"; BUY stop close·0.98 / target close·1.05, SELL close·1.02 / close·0.95; the entry lies between them for a positive close |
| Runner.PayloadFallbacks | bin/run_simulation.py:162-163 | RSI defaults to 50 and ATR to 1 when absent; a present RSI is copied |
| Teams.Classify | src/backend/team-router-with-output.py:233-242 | the classifier always picks one of the four registered teams, never the coordinator |
| Teams.ClassifyIgnoresCase | team-router-with-output.py:233-240 | a requirement, its lower-case and its upper-case forms go to the same team |
| Teams.ClassifyOrder | src/backend/team-router-with-output.py:233-242 | the first keyword group (frontend, backend, trading, devops) with a substring match decides; frontend when none matches |
| Teams.AuthenticationGoesToFrontend | src/backend/team-router-with-output.py:233-234 | "Build user authentication system" goes to frontend, since "build" contains "ui" |
| Teams.ContainsInWords | team-router-with-output.py:233-241 | a keyword without spaces occurs in words joined by spaces exactly when it occurs in one of the words |
| Teams.LowerJoinWords | team-router-with-output.py:233 | lower-casing joined words joins the lower-cased words |
| Teams.PipelineLowered | team-router-with-output.py:288 | "Set up deployment pipeline for trading platform" lower-cases to its lower-case words joined by spaces |
| Teams.NotInPipeline | team-router-with-output.py:233-237 | a space-free keyword in none of the words of that requirement is not in it |
| Teams.PipelineHasNoFrontendKeyword | team-router-with-output.py:233 | that requirement contains no frontend keyword |
| Teams.PipelineHasNoBackendKeyword | team-router-with-output.py:235 | that requirement contains no backend keyword |
| Teams.DeploymentPipelineGoesToTrading | team-router-with-output.py:233-241 | "Set up deployment pipeline for trading platform" goes to trading analytics, not devops |
| Teams.FirstIndex | src/backend/team-router-with-output.py:85 | the position of the first occurrence of a pending task |
| Teams.RemoveFirst | src/backend/team-router-with-output.py:84-85 | `remove` guarded by `in`: an absent task changes nothing; for a present one the result is the list with its first occurrence cut out, the other tasks in their order (so one occurrence fewer) |
| Teams.ReceiveRule | src/backend/team-router-with-output.py:61-119 | only task assignments, resource requests and coordination requests act; only an assignment changes the agent; replies are status updates from the team to the sender, exactly for resource and coordination requests |
| Teams.CoordinationAcknowledged | src/backend/team-router-with-output.py:111-119 | a coordination request is answered with its action ("sync" by default) and the agent's status |
| Teams.AssignmentAppends | src/backend/team-router-with-output.py:73-77 | an assignment appends the named task ("Unknown task" by default) after the pending ones and sets the agent working |
| Teams.CompletePreservesInv | src/backend/team-router-with-output.py:82-88 | completion keeps "idle exactly when no task is pending", cuts the first occurrence of a pending task out of the list keeping the rest in order, and changes nothing for a task not pending |
| Teams.ReceivePreservesInv | team-router-with-output.py:61-80 | receiving any message keeps the agent invariant |
| Teams.RouteRecordsFirst | src/backend/team-router-with-output.py:194-208 | routing appends the message to the history before anything its delivery adds (at most one reply) and keeps the projects and registered teams |
| Teams.RoutePreservesInv | team-router-with-output.py:194-208 | routing keeps every agent's invariant |
| Teams.RepliesAlwaysRouted | src/backend/team-router-with-output.py:104-119 | every reply an agent sends is itself routed |
| Teams.AssignmentRoute | src/backend/team-router-with-output.py:244-253 | an assignment is recorded and appends the requirement to the chosen team's tasks, setting it working |
| Teams.Assignments | src/backend/team-router-with-output.py:247-253 | one task-assignment message per requirement, in order, from the coordinator to the classified team |
| Teams.AssignAllHistory | src/backend/team-router-with-output.py:225-226 | assigning records exactly the requirements' assignments, in order |
| Teams.AssignAllTasks | team-router-with-output.py:225-226 | each team's tasks grow by the requirements classified to it, in order; a team that received one is working, the others keep their status |
| Teams.AssignAllStep | team-router-with-output.py:225-226 | one more requirement records its assignment and adds it to its team's tasks |
| Teams.StartProjectEffect | src/backend/team-router-with-output.py:219-226 | start_project records the project and routes exactly one assignment per requirement; each team's tasks grow by its requirements |
| Teams.TeamAgent.constructor | src/backend/team-router-with-output.py:42-46 | a new agent is idle with no tasks |
| Teams.TeamAgent.ProcessTaskAssignment | team-router-with-output.py:73-77 | the agent's new state is the assignment's effect |
| Teams.TeamAgent.CompleteTask | src/backend/team-router-with-output.py:82-95 | the new state is the completion's effect and the report is a completion report to the requester |
| Teams.TeamAgent.ProcessResourceRequest | src/backend/team-router-with-output.py:97-109 | the reply names the resource ("Unknown resource" by default) and the given availability |
| Teams.TeamAgent.ProcessCoordination | team-router-with-output.py:111-119 | the reply acknowledges the action with the agent's status |
| Teams.TeamAgent.ReceiveMessage | src/backend/team-router-with-output.py:61-71 | dispatch on the message type; new state and reply are those of the value model |
| Teams.MultiTeamRouter.constructor | src/backend/team-router-with-output.py:175-184 | four idle agents under their own types, empty history and projects |
| Teams.MultiTeamRouter.RouteMessage | src/backend/team-router-with-output.py:194-208 | the new state is that of the value model of routing |
| Teams.MultiTeamRouter.AnalyzeAndAssignTask | team-router-with-output.py:228-253 | the requirement's assignment is routed to its classified team |
| Teams.MultiTeamRouter.StartProject | team-router-with-output.py:219-226 | the new state is that of recording the project and assigning the requirements in order |
| Teams.MultiTeamRouter.CompleteTask | team-router-with-output.py:82-95 | the agent completes the task, then its report to the requester is routed |
| Teams.MultiTeamRouter.CompleteAt | team-router-with-output.py:82-88 | only the completing agent changes, by the completion's effect on its state, and the report is the completion report to the requester |

## Left out

- Indicator computation (SMA, EMA, RSI, MACD, Bollinger bands, ATR, OBV, stochastics, candlestick patterns) is done by the TA-Lib library, whose code is not part of this model. Its outputs are inputs here; only the 10-bar OBV mean is defined, as a trailing-mean function.
- Analysis.TrailingMean: TA-Lib's moving average keeps a running sum, so after an undefined value in the middle of the OBV array every later mean is undefined. `TrailingMean` is defined again once the undefined value has left its 10-bar window. The two agree on OBV arrays whose undefined values all come first, which is the warm-up case.
- Floating point is not modelled; prices are exact reals. Two consequences:
  - At the ±0.5 threshold the source's doubles give 0.4·1 + 0.3·0 + 0.2·1 + 0.1·(-1) = 0.5000000000000001. That is BUY in the source for (T,M,V,P) = (1,0,1,-1), and SELL for the mirror (-1,0,-1,1). The model gives HOLD for both.
  - The `BB_Width` division is not computed.
- Simulator.TradingSimulator.GenerateTradingSignals does not model `round(…, 2)` of entry, stop, target, RSI and ATR.
- Runner.Stats does not model the `round(…, 2)` of the frequency percentage.
- Columns whose length differs from the frame are dropped by the trigger loop, and a missing required column raises there. The model requires aligned indicators instead.
- The analyzer's `except` branch is left out. Two inputs reach it:
  - a frame with no bars;
  - an OBV array that is entirely NaN.

  In both cases the 10-bar mean of OBV raises. The source then returns its frame with the volume, pattern and combined columns still 0 and no action column. `Analysis.Signals` gives every bar a full row instead, with its volume score taken as 0 where the mean is undefined.
- Date formatting is not modelled. A bar's timestamp is one opaque text, but the callers format it differently:
  - the trigger loop with `strftime('%Y-%m-%d %H:%M:%S')`;
  - the analysis script with `isoformat()`.

  The simulation summary's `simulation_date` (the clock at run time) is also not part of `Summary`.
- Charts are left out: the mplfinance and Plotly generators and `chart_generators.py`. The summary's chart counts are the counts of processed tickers.
- Left out as I/O:
  - the market-data fetch, where fetched data is a constructor parameter;
  - JSON and file writes, directory creation, printing and logging.
- The Flask routing and the SQLAlchemy models are not modelled; the two stored tables are sequences.
- The Alpaca REST clients are not modelled, beyond a configured flag per client. The broker's answer to `submit_order` is a parameter.
- The 500 error path of the webhook endpoint is not modelled.
- JSON values other than text and numbers (booleans, null, lists, objects) are not modelled.
- Case mapping is ASCII only.
- `calculate_support_resistance` and `get_latest_analysis` (pandas projections) are not modelled.
- `multi-team-coordinator.py` (container orchestration) is not modelled.
- Team router runtime effects are not modelled:
  - The timer that completes a task after two seconds: completing is the separate operation `Teams.MultiTeamRouter.CompleteTask`. Assignments and completion reports route with no resource availability drawn.
  - The random resource availability, which is a parameter.
  - `time.sleep`, and the clock-based message ids and timestamps.
- Agents send their replies through the router from inside their handlers. The model returns the reply to the router, which routes it next; the history order is the same because sending is each handler's last step.
- The per-team log lines in the task-assignment overrides are left out. So is the trading team's `.lower()` on the task, which would fail on a non-text task; non-text tasks are kept as values.
- `request_team_coordination`, `get_team_status` (logging only) and the demonstration driver are not modelled.
- Teams.DeploymentPipelineGoesToTrading states the example for the requirement given as its seven words joined by spaces (`JoinWords`). Equality with the single 47-character literal is not stated.
