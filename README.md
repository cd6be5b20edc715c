# XRP futures bot — a Dafny model of its decision and control logic

The bot trades XRP perpetual futures on CoinDCX. Each cycle:

- It refreshes its position globals from the exchange.
- If a position is already open, it waits for that position to close.
- Otherwise it runs a one-shot signal engine on the Binance five-minute kline stream. The engine stops at the first MACD crossover whose rolling-maximum ATR passes a volatility filter.
- On a BUY or SELL it places a market order and confirms that a position appeared.
- It then computes take-profit and stop-loss prices from the ATR and a fee offset, falling back to static offsets when that computation raises.
- It sets those levels, verifies them and resends any missing side until a deadline.
- Finally it waits until five consecutive readings show the position closed.

The model has five modules, one per file:

- `common.dfy` (`Common`) holds `Option`, `Result`, the trading side `Signal` and `Float`. A `Float` is a real or NaN, and every comparison with NaN is false, as in Python. It also holds `Round4`, which is Python's `round(x, 4)` on reals (round half to even at four decimals).
- `position_data.dfy` (`PositionData`) models `get_xrp_data` without its signed HTTP calls. The two replies (the positions list and the ticker list) are inputs; a call that raises is `Failed`. Their normalisation into the eight-key record is `XrpRecord`. The imperative `GetXrpData` fills the record key by key, with the ticker scan as a loop (`ScanXrpPrice`), and is proved equal to `XrpRecord`.
- `signal_engine.dfy` (`SignalEngine`) models the engine as a class `DataEngine` whose fields are updated in place by `OnMessage`. `Step` and `Run` specify it. The indicator library is an uninterpreted function of the candle window (`Indicators`), so the classification, the filter and the latch are exact.
- `tpsl.dfy` (`TpSl`) holds the fee offset and the ATR-banded take-profit / stop-loss computation.
- `trade_bot.dfy` (`TradeBot`) holds the controller. The class `Bot` carries the five position globals and the exchange it talks to, which is scripted:
  - `feed` holds the outcomes of successive `get_xrp_data` calls: raise, or return a record;
  - `gateway` holds whether successive order / TP-SL calls return or raise;
  - `sent` logs every request made, in order.

  Each method is proved equal to a functional specification over that state: `Update`, `Confirm`, `Verify`, `Wait` and `Cycle`. The properties are proved about those functions.
  - `Confirm` is a sequence of `ConfirmAttempt`s (one order, then one refresh). `AttemptState` gives the state before attempt k, so the lemmas can name the first confirming attempt.
  - `RefreshReadings` is the trace of successive `Update`s of the exchange. The readings of `Wait` are proved to be that trace, so each one is tied to the record the exchange returned.

## Model

| member | source | states |
|---|---|---|
| Common.Round4 | Xrp_bot_code/CDXMainbotxrp.py:137-140 | `round(x, 4)` lands on the four-decimal grid, within half a unit of the last place of `x`, and a tie goes to the even last digit |
| Common.Round4Monotone | Xrp_bot_code/CDXMainbotxrp.py:232-237 | rounding to four decimals preserves `<=` |
| Common.Round4OnGrid | Xrp_bot_code/CDXMainbotxrp.py:137-140 | a value already on the four-decimal grid is unchanged by rounding |
| PositionData.FirstBad | CDX_Support_File/CDXPOdata.py:65-72 | the index of the first copied field whose `float()` raises: every earlier field converts, and that one does not |
| PositionData.ToFloat | CDX_Support_File/CDXPOdata.py:66-72 | `float()` of a JSON value raises exactly on null and on a string it cannot parse; a number is returned unchanged and a parsable string gives the value it parses to |
| PositionData.CopyFields | CDX_Support_File/CDXPOdata.py:65-73 | the copies inside one `try` keep the record's keys and leave every key they do not target unchanged |
| PositionData.ReadPositions | CDX_Support_File/CDXPOdata.py:49-74 | after the positions part the record has exactly the eight default keys, and the price is still 0.0 |
| PositionData.PriceFallback | CDX_Support_File/CDXPOdata.py:87-92 | the fallback changes only the current price and keeps the key set |
| PositionData.XrpRecord | CDX_Support_File/CDXPOdata.py:48-94 | the returned record always has the same eight keys, including every copied key |
| PositionData.ScanXrpPrice | CDX_Support_File/CDXPOdata.py:77-85 | the `for`/`break` ticker loop assigns exactly the price `ScanTickers` defines, or nothing |
| PositionData.GetXrpData | CDX_Support_File/CDXPOdata.py:48-94 | the in-place construction of the record equals `XrpRecord` of the two replies |
| PositionData.FailedFetchReadsFlat | CDX_Support_File/CDXPOdata.py:61-74 | a failed or empty positions reply leaves every position field at 0.0, and the price is the ticker price or 0.0 |
| PositionData.OnlyFirstPositionRead | CDX_Support_File/CDXPOdata.py:64-65 | positions after the first do not affect the record |
| PositionData.CopyFieldsExact | CDX_Support_File/CDXPOdata.py:66-73 | each field before the first failing conversion holds its converted value, and every other key keeps its old value |
| PositionData.WellFormedPositionCopied | CDX_Support_File/CDXPOdata.py:65-72 | when every field converts, each record field is the first position's value, with a missing key giving 0.0 |
| PositionData.PositionFieldOfRecord | CDX_Support_File/CDXPOdata.py:76-92 | the ticker scan and the fallback leave every position field as the positions part set it |
| PositionData.BadFieldStopsCopy | CDX_Support_File/CDXPOdata.py:66-74 | a field whose conversion raises keeps the copies before it and leaves it and every later field at 0.0 |
| PositionData.ScanReachesFirstMatch | CDX_Support_File/CDXPOdata.py:80-83 | the price comes from the first XRP-market ticker when every ticker before it has a non-XRP market |
| PositionData.ScanPriceFromFirstMatch | CDX_Support_File/CDXPOdata.py:80-83 | conversely, any assigned price comes from such a first XRP-market ticker |
| PositionData.TickerPriceChoice | CDX_Support_File/CDXPOdata.py:82 | `TickerPrice`: a truthy `last_price` (number or non-empty string) is converted; when it is falsy a truthy `lastPrice` is converted; when both are falsy the price is 0.0; the conversion raises only on an unparsable non-empty string |
| PositionData.CurrentPriceRule | CDX_Support_File/CDXPOdata.py:76-92 | the current price is the ticker price if positive, else the positive average price, else the positive stop loss, else the ticker price or 0.0 |
| PositionData.PositiveTickerPriceKept | CDX_Support_File/CDXPOdata.py:88 | a positive ticker price is never overwritten |
| SignalEngine.Classify | CDX_Support_File/xrp_Bye_Sell_atr_signal.py:118-123 | BUY iff macd > signal and previous macd <= previous signal; SELL iff the mirror holds; NaN compares false |
| SignalEngine.Slide | CDX_Support_File/xrp_Bye_Sell_atr_signal.py:97-98 | the oldest row is dropped and the new candle is last; the length is kept for a non-empty window |
| SignalEngine.Step | CDX_Support_File/xrp_Bye_Sell_atr_signal.py:77-140 | a done engine or an unclosed candle changes nothing; otherwise the window slides, and the engine becomes done exactly when the window classifies BUY/SELL with MAX_ATR not <= 0.005, recording the verdict, the last close and MAX_ATR |
| SignalEngine.Run | CDX_Support_File/xrp_Bye_Sell_atr_signal.py:155-169 | feeding a stream never un-sets done, and a run that ends unfinished leaves the final signal, price and ATR as they were |
| SignalEngine.TooCalmIsAtMostMinAtr | CDX_Support_File/xrp_Bye_Sell_atr_signal.py:127-129 | `TooCalm`: the filter rejects exactly an ATR <= 0.005; a NaN ATR is not rejected |
| SignalEngine.QualifiesIff | CDX_Support_File/xrp_Bye_Sell_atr_signal.py:115-132 | `Qualifies`: a window qualifies iff it has two rows, its last rows cross BUY or SELL, and MAX_ATR is not <= 0.005 |
| SignalEngine.DataEngine.constructor | CDX_Support_File/xrp_Bye_Sell_atr_signal.py:33-41 | a new engine is not done, and its final signal, price and ATR are None |
| SignalEngine.DataEngine.LoadHistorical | CDX_Support_File/xrp_Bye_Sell_atr_signal.py:44-72 | the historical candles become the window; nothing else changes |
| SignalEngine.DataEngine.OnMessage | CDX_Support_File/xrp_Bye_Sell_atr_signal.py:77-140 | the in-place handler updates the fields exactly as `Step` |
| SignalEngine.DataEngine.GetNextSignal | CDX_Support_File/xrp_Bye_Sell_atr_signal.py:155-169 | feeds the stream until done or exhausted, leaving the engine as `Run` over the whole stream, and returns the latched triple |
| SignalEngine.CrossoversExclusive | CDX_Support_File/xrp_Bye_Sell_atr_signal.py:119-123 | the BUY and SELL conditions never hold together |
| SignalEngine.RunAfterDone | CDX_Support_File/xrp_Bye_Sell_atr_signal.py:79-80 | once done, every later message leaves the engine unchanged |
| SignalEngine.RunAppend | CDX_Support_File/xrp_Bye_Sell_atr_signal.py:155-166 | feeding two streams in turn is feeding their concatenation |
| SignalEngine.LatchIsFinal | CDX_Support_File/xrp_Bye_Sell_atr_signal.py:134-140 | a latched result is never changed by later messages |
| SignalEngine.FirstQualifyingWins | CDX_Support_File/xrp_Bye_Sell_atr_signal.py:125-140 | the first message that sets done was closed and qualified, and it alone decides the result |
| SignalEngine.RunConsistent | CDX_Support_File/xrp_Bye_Sell_atr_signal.py:134-139 | a done engine holds a BUY/SELL, a price and an ATR that passed the filter; an unfinished one holds three Nones |
| SignalEngine.NextSignalOutcome | CDX_Support_File/xrp_Bye_Sell_atr_signal.py:155-169 | `get_next_signal` on a fresh engine gives (None, None, None) when the run ends unfinished, else a BUY or SELL with a price and a filtered ATR; `NoQualifyingMeansNone` gives the unfinished case for a stream without a qualifying candle |
| SignalEngine.RunDoneHasFirst | CDX_Support_File/xrp_Bye_Sell_atr_signal.py:77-140 | a run that ends done from an unfinished engine has a first message that made it done, so `FirstQualifyingWins` applies to every finished run |
| SignalEngine.NoQualifyingMeansNone | CDX_Support_File/xrp_Bye_Sell_atr_signal.py:155-169 | a stream with no closed candle whose window qualifies leaves a fresh engine unfinished, and `get_next_signal` returns (None, None, None) |
| SignalEngine.WindowLengthKept | CDX_Support_File/xrp_Bye_Sell_atr_signal.py:97-98 | a non-empty window keeps its length through any stream |
| TpSl.FeeMove | Xrp_bot_code/CDXMainbotxrp.py:189-203 | raises exactly when leverage is 0; is 0.0001 when quantity or FX is 0; otherwise equals roe·price·(1/leverage + 0.0005·1.18) |
| TpSl.FeeMoveAlgebra | Xrp_bot_code/CDXMainbotxrp.py:197-202 | the step-by-step fee computation divided by quantity and FX equals the closed form |
| TpSl.BotFeeMove | Xrp_bot_code/CDXMainbotxrp.py:227 | with the bot's quantity, leverage, FX and ROE the offset is the closed form |
| TpSl.SlMult | Xrp_bot_code/CDXMainbotxrp.py:219-224 | the multiplier is 1.0 exactly when ATR > 0.08, and 1.5 otherwise |
| TpSl.ComputeTpSl | Xrp_bot_code/CDXMainbotxrp.py:205-249 | raises exactly on a None/NaN ATR or a side other than BUY/SELL; BUY gives tp = round(entry + tp_move), sl = round(entry − sl_move); SELL gives the mirror |
| TpSl.FeeMovePositive | Xrp_bot_code/CDXMainbotxrp.py:189-203 | the offset is strictly positive for positive inputs |
| TpSl.FeeMoveLinearInRoe | Xrp_bot_code/CDXMainbotxrp.py:197-202 | the offset is linear in ROE |
| TpSl.FeeMoveIgnoresQtyAndFx | Xrp_bot_code/CDXMainbotxrp.py:197-202 | the offset does not depend on a non-zero quantity or FX rate |
| TpSl.TpSlBands | Xrp_bot_code/CDXMainbotxrp.py:219-230 | ATR <= 0.08 gives multipliers 1.5 / 2.5 and above gives 1.0 / 5/3; sl_move = sl_mult·atr; tp_move = tp_mult·atr + fee_move |
| TpSl.SideMirror | Xrp_bot_code/CDXMainbotxrp.py:229-237 | BUY and SELL use the same distances in opposite directions |
| TpSl.DistancesPositive | Xrp_bot_code/CDXMainbotxrp.py:226-230 | for a positive ATR and entry both distances are positive |
| TpSl.BuyLevelsBracketEntry | Xrp_bot_code/CDXMainbotxrp.py:232-234 | for ATR > 0 a BUY has sl < entry < tp before rounding and sl <= round(entry) <= tp after |
| TpSl.SellLevelsBracketEntry | Xrp_bot_code/CDXMainbotxrp.py:235-237 | for ATR > 0 a SELL has tp < entry < sl before rounding and tp <= round(entry) <= sl after |
| TpSl.BuyAt062Atr004 | Xrp_bot_code/CDXMainbotxrp.py:205-249 | BUY at 0.62 with ATR 0.04: multipliers 1.5 / 2.5, stop loss 0.56, take profit 0.7207 |
| TradeBot.FirstReturned | Xrp_bot_code/CDXMainbotxrp.py:133-151 | the attempt that returns a record is the first returned outcome among at most five calls |
| TradeBot.FirstReturnedIs | Xrp_bot_code/CDXMainbotxrp.py:133-151 | an outcome preceded only by raised ones is the first returned one |
| TradeBot.FirstReturnedSkips | Xrp_bot_code/CDXMainbotxrp.py:133-151 | every outcome before the first returned one raised |
| TradeBot.SnapshotOfRounds | Xrp_bot_code/CDXMainbotxrp.py:136-140 | `SnapshotOf`: the position size is the record's as is; each price is on the four-decimal grid within half a unit of the record's; a missing size reads flat |
| TradeBot.UpdateFacts | Xrp_bot_code/CDXMainbotxrp.py:126-152 | `Update`: succeeds iff one of the first five outcomes returned; then the globals are the snapshot of the first returned record and the outcomes up to it are consumed; otherwise five raised outcomes are consumed and the globals are kept |
| TradeBot.ResendFor | Xrp_bot_code/CDXMainbotxrp.py:281-290 | nothing to resend iff both levels are present (magnitude >= 0.00001); otherwise the wanted price for each missing side and 0.0 for the present one |
| TradeBot.EntryPrice | Xrp_bot_code/CDXMainbotxrp.py:383 | the exchange's average price when positive, else the signal price |
| TradeBot.ProtectiveLevels | Xrp_bot_code/CDXMainbotxrp.py:386-393 | the static ±0.02 / ∓0.0085 offsets are used exactly when the computation raises (NaN ATR or HOLD) |
| TradeBot.AtrForLevels | Xrp_bot_code/CDXMainbotxrp.py:384 | a present signal ATR is used as is; a missing one is replaced by `MIN_MAX_ATR_ENTRY` (0.005); so any ATR that passed the filter or was missing is NaN or at least that floor |
| TradeBot.StaticLevels | Xrp_bot_code/CDXMainbotxrp.py:388-392 | the fallback levels are on the grid within half a unit of entry ± 0.02 and entry ∓ 0.0085, so a BUY has sl < entry < tp and any other side the mirror |
| TradeBot.ConfirmAttempt | Xrp_bot_code/CDXMainbotxrp.py:168-182 | one attempt logs exactly one market order for the side; a confirmed attempt has refreshed globals holding a position |
| TradeBot.Confirm | Xrp_bot_code/CDXMainbotxrp.py:167-184 | a confirmation means a position is held; each attempt sends one order, so at least one and at most `attempts` are sent |
| TradeBot.Bot.constructor | Xrp_bot_code/CDXMainbotxrp.py:113-117 | the five globals start at 0.0 and nothing has been sent |
| TradeBot.Bot.FetchPosition | Xrp_bot_code/CDXMainbotxrp.py:135 | one call consumes one scripted outcome, or raises when the script is exhausted; the globals are untouched |
| TradeBot.Bot.SendRequest | Xrp_bot_code/CDXMainbotxrp.py:169 | one gateway call logs the request and consumes one outcome |
| TradeBot.Bot.StoreRecord | Xrp_bot_code/CDXMainbotxrp.py:136-140 | the globals become the record's position size and its four prices rounded to four decimals |
| TradeBot.Bot.UpdatePositionGlobals | Xrp_bot_code/CDXMainbotxrp.py:126-152 | up to five calls; the first returned record sets the globals; when all raise, the globals are unchanged and it reports the re-raise |
| TradeBot.Bot.AttemptSetTpsl | Xrp_bot_code/CDXMainbotxrp.py:254-265 | one TP/SL request, reporting whether the call returned |
| TradeBot.Bot.PlaceMarketOrderAndConfirm | Xrp_bot_code/CDXMainbotxrp.py:154-184 | the attempt loop leaves the state and result of `Confirm` with five attempts |
| TradeBot.Bot.VerifyAndRetryTpsl | Xrp_bot_code/CDXMainbotxrp.py:267-298 | the polling loop leaves the state and result of `Verify` over the given rounds |
| TradeBot.Bot.WaitForPositionClose | Xrp_bot_code/CDXMainbotxrp.py:303-328 | the counter loop leaves the state and result of `Wait` from a zero counter |
| TradeBot.Bot.RunCycle | Xrp_bot_code/CDXMainbotxrp.py:336-409 | one pass of `main`'s body leaves the state and outcome of `Cycle` |
| TradeBot.TrailingIsFinalRun | Xrp_bot_code/CDXMainbotxrp.py:310-325 | the trailing count is the length of the final run of successful flat readings, and the reading before that run is not one |
| TradeBot.TrailingSnoc | Xrp_bot_code/CDXMainbotxrp.py:319-325 | a flat successful reading extends the run by one, and any other resets it to 0 |
| TradeBot.CountAfterTrailing | Xrp_bot_code/CDXMainbotxrp.py:310-325 | counting on from the run at the end of earlier readings gives the run at the end of all of them |
| TradeBot.CountFromZero | Xrp_bot_code/CDXMainbotxrp.py:309-325 | from a zero counter, the counter is the trailing run of flat readings |
| TradeBot.WaitClosedIffCount | Xrp_bot_code/CDXMainbotxrp.py:309-328 | the wait takes at most one reading per round, one per round unless it closes, and reports closed iff its counter reaches five |
| TradeBot.WaitNoEarlierCount | Xrp_bot_code/CDXMainbotxrp.py:310 | no proper prefix of the readings brought the counter to five |
| TradeBot.WaitClosedAfterFlatRun | Xrp_bot_code/CDXMainbotxrp.py:303-328 | closed only after five consecutive successful flat readings; a fetch error or an open reading resets the run |
| TradeBot.WaitStopsAtFirstRun | Xrp_bot_code/CDXMainbotxrp.py:310-328 | the wait ends at the first such run of five |
| TradeBot.WaitSendsNothing | Xrp_bot_code/CDXMainbotxrp.py:303-328 | close detection sends no request |
| TradeBot.WaitReadsRefreshes | Xrp_bot_code/CDXMainbotxrp.py:309-328 | the wait's readings are the outcomes of successive refreshes of the exchange from the start state |
| TradeBot.WaitEndsAfterRefreshes | Xrp_bot_code/CDXMainbotxrp.py:309-328 | the wait ends in the state after as many successive refreshes as it took readings |
| TradeBot.WaitReadingsFromExchange | Xrp_bot_code/CDXMainbotxrp.py:311-317 | reading i is missing iff the i-th refresh raised; otherwise it holds the globals that refresh set from the first record it got back |
| TradeBot.WaitNeverClosesOnRaises | Xrp_bot_code/CDXMainbotxrp.py:311-317 | an exchange whose calls all raise never lets the wait close: every round reads nothing |
| TradeBot.FailedFetchReadsFlatWithoutLevels | CDX_Support_File/CDXPOdata.py:61-74 | a swallowed positions error gives globals that read flat, not active, with both levels missing |
| TradeBot.ThresholdGap | Xrp_bot_code/CDXMainbotxrp.py:319 | a position of magnitude exactly 0.00001 is flat to `main` and to the entry check, but not closed to the close detector |
| TradeBot.ConfirmSendsOnlyOrders | Xrp_bot_code/CDXMainbotxrp.py:167-184 | only market orders for the side are sent: at least one and at most one per attempt, exactly five on failure; success means the refreshed globals hold a position |
| TradeBot.ConfirmAttemptFacts | Xrp_bot_code/CDXMainbotxrp.py:169-175 | an attempt confirms iff the gateway returns, the refresh after it returns a record, and that record's size is active; then the state is that refresh's |
| TradeBot.ConfirmStopsAtFirst | Xrp_bot_code/CDXMainbotxrp.py:167-175 | if attempt k is the first to confirm, the loop returns True with exactly k + 1 orders sent |
| TradeBot.ConfirmOutcome | Xrp_bot_code/CDXMainbotxrp.py:167-184 | success is the first confirming attempt; failure is the state after all attempts, none of which confirmed |
| TradeBot.ConfirmedByFreshRefresh | Xrp_bot_code/CDXMainbotxrp.py:169-175 | success means some first confirming attempt k whose order call returned, whose following refresh set the globals from a returned record, which holds a position, with k + 1 orders sent |
| TradeBot.VerifyRoundFacts | Xrp_bot_code/CDXMainbotxrp.py:274-295 | a failed refresh sends nothing; both levels present finishes with nothing sent; otherwise exactly the `ResendFor` pair is sent |
| TradeBot.VerifyResendsOnlyMissing | Xrp_bot_code/CDXMainbotxrp.py:273-295 | verification appends at most one request per round, each a resend of the missing sides |
| TradeBot.VerifiedMeansBothPresent | Xrp_bot_code/CDXMainbotxrp.py:281-286 | verification reports success only when the refreshed globals hold both levels; `VerifyOutcome` gives both directions of the result |
| TradeBot.VerifyStopsAtFirst | Xrp_bot_code/CDXMainbotxrp.py:273-286 | if round k is the first whose refresh shows both levels, verification returns True with that round's result, and that round sent nothing |
| TradeBot.VerifyOutcome | Xrp_bot_code/CDXMainbotxrp.py:273-298 | `Verify`: True is the result of the first round that shows both levels; False means every round ran and none showed both, ending in the state after all of them |
| TradeBot.VerifyTimedOut | Xrp_bot_code/CDXMainbotxrp.py:273-298 | a verification that times out had, in every round, a refresh that raised or globals missing a level |
| TradeBot.CycleSendsNothingWithoutSignal | Xrp_bot_code/CDXMainbotxrp.py:336-371 | the initial-check failure and the monitoring branch are taken exactly when the refresh fails or finds a position; those, a history failure and a non-trade result send nothing; the non-trade result is None |
| TradeBot.CycleMonitorsExisting | Xrp_bot_code/CDXMainbotxrp.py:346-349 | a position found by the initial refresh goes straight to the close detector from the refreshed state, and the cycle reports its state and verdict |
| TradeBot.CycleOrdersOnlyWhenFlat | Xrp_bot_code/CDXMainbotxrp.py:338-376 | a cycle that sends anything read the account flat, loaded history, and got a BUY or SELL |
| TradeBot.CycleEntersOnSignal | Xrp_bot_code/CDXMainbotxrp.py:361-376 | an entry attempt happens only on a latched BUY/SELL with a price and a filtered ATR, which are handed to it; `CycleEntersWhenFlatWithSignal` is the converse |
| TradeBot.CycleBranches | Xrp_bot_code/CDXMainbotxrp.py:352-372 | `Cycle`: the history failure happens iff the account read flat and the download raised; the no-trade result iff it read flat, the history loaded and the engine returned no BUY or SELL; both leave the initial refresh's state |
| TradeBot.CycleEntersWhenFlatWithSignal | Xrp_bot_code/CDXMainbotxrp.py:347-376 | a flat account with loaded history and a BUY or SELL from the engine always reaches the entry, with that signal, its price and its ATR |
| TradeBot.Enter | Xrp_bot_code/CDXMainbotxrp.py:375-405 | an entry attempt ends as a failed entry or a trade for the signalled side, and a trade keeps the signal price |
| TradeBot.EnterTradedIff | Xrp_bot_code/CDXMainbotxrp.py:375-405 | `Enter`: trades iff the confirmation with five attempts succeeds; a failed entry keeps the confirmation's state; a trade records the confirmed entry, the entry and levels derived from it, and the state and results of protecting at those levels |
| TradeBot.EntryFailedSendsOnlyOrders | Xrp_bot_code/CDXMainbotxrp.py:376-380 | a failed entry sends five market orders and no TP/SL |
| TradeBot.TradedLevels | Xrp_bot_code/CDXMainbotxrp.py:382-393 | a trade's entry is the positive average price or the signal price; its levels are the ATR-based ones, or the static ones exactly when the ATR is NaN |
| TradeBot.ProtectionRequests | Xrp_bot_code/CDXMainbotxrp.py:397-405 | after the entry the computed TP/SL is sent once, then only resends, and monitoring adds nothing |
| TradeBot.ProtectFacts | Xrp_bot_code/CDXMainbotxrp.py:397-405 | `Protect`: after the one TP/SL request, the reported verification is `Verify`'s result, and the close detector starts from the state verification ends in and decides the final state and the closed flag |
| TradeBot.ConfirmThenProtect | Xrp_bot_code/CDXMainbotxrp.py:375-405 | confirming with n attempts and then protecting sends one to n market orders for the side, then the TP/SL request, then only resends |
| TradeBot.TradedRequests | Xrp_bot_code/CDXMainbotxrp.py:375-405 | a trade's requests are 1 to 5 market orders for the side, then the computed TP/SL, then only resends |

## Left out

- The indicator maths (MACD, EMA, ATR and its rolling maximum, computed by pandas / pandas_ta) is an uninterpreted function of the window. NaN warm-up values are kept as the `NaN` case of `Float`.
- The transport is not modelled: the Binance REST download and websocket, and the `on_open` / `on_close` / `on_error` handlers.
  - The history download is an input, with `None` when it raises.
  - The stream is a finite sequence of kline events. A connection that fails or closes early is a stream that ends, so `get_next_signal` returns three Nones. The `except` branch of `main` at lines 363-366 is therefore not reached in the model.
- A message whose JSON does not parse, or lacks `"k"`, is not modelled.
- When the window has fewer than two rows, reading the previous row raises inside the websocket callback. The model leaves such a message with the window slid and the engine not done.
- HMAC signing and the HTTP calls of `get_xrp_data` are replaced by the two replies. `place_orders` and `set_tpsl` are replaced by the scripted gateway. CDcreateworking.py and CDcreate_tp_sl.py are not part of this model.
- Mainrunbots.py is not part of this model: the Flask health endpoint, thread start-up and `.env` / `sys.path` set-up.
- Sleeps and clocks are not modelled.
  - The 120-second verification timeout becomes a number of polling rounds.
  - The open-ended wait for closure becomes a number of polling rounds.
- TradeBot.Bot.WaitForPositionClose: reports `false` when its rounds run out, whereas the source never returns until the position is confirmed closed. `WaitClosedIffCount` and `WaitClosedAfterFlatRun` state what holds in either case.
- TradeBot.Bot.RunCycle: models one pass of `main`'s body. The outer `while True`, the sleeps between passes and the catch-all handler at lines 411-416 are not modelled. No modelled step raises past its own handler.
- An exhausted exchange script reads as a call that raises, so every loop stays total.
- Floats are exact reals, except that the ATR and the indicator values carry NaN explicitly, since the ATR filter and `compute_tpsl_from_atr_and_fee` behave differently on it. `round(x, 4)` is `Round4` on reals.
- `float()` on a JSON value is modelled by the value's kind: a string carries what `float()` makes of it, or that it raises.
- JSON booleans, lists and objects are not modelled as field values: a value is null, a number or a string. So `float(True)` giving 1.0, and `float()` raising on a list or an object, are not captured.
- Console colouring, timestamps and logging are not modelled.
- The `is_initial_check` flag of `update_position_globals` only changes a log line.
- The `side` argument of `verify_and_retry_tpsl` is unused in the source. It is kept in the method's signature.
- Configuration the controller never reads is not modelled: `BASE_STEP`, `STEP_INCREMENT`, `PROFIT_TARGET`, `ATR_PERIOD` in the controller, `CDX_cumulative_pnl` and `cycle_step`.
