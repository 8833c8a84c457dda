# Control plane of the scalping bot, modelled in Dafny

This project models the control plane of a forex scalping bot. It covers the parts of the bot
that do not trade by themselves but decide, record and gate what the trading loop may do:

- **the command queue**: `commands`, a table with an audit log;
- **the command executor** that claims and runs queued commands: pause and resume, closing one
  pair, the CLOSE_ALL kill switch, and reloading parameters;
- **the paused-pair state**;
- **the trade ledger**: signals, trades, open positions and daily stats;
- **the paper broker**, which opens and closes simulated positions and settles take-profit and
  stop-loss against a price bar;
- **the strategy-parameter profiles**: the presets, seeding, upsert, activation and listing, plus
  the in-memory snapshot cache;
- **validation of parameter payloads** from the operator API;
- **the alert service**: sanitising, deduplication, secret filtering and fan-out to providers;
- **the session and news filters**;
- **the heartbeat staleness check**.

Each source file is one Dafny module. Four small helper modules support them:

| module | what it holds |
|---|---|
| `Wrappers` | `Option`, `Result`, `Outcome` |
| `Json` | JSON-like values and Python truthiness |
| `Text` | ASCII case mapping, substring search, and the lexicographic order with its order laws |
| `Sorting` | insertion sort by a total preorder, proved to be sorted and a permutation |

`Config` holds the pair-to-strategy map.

**How the source's tables and state are represented:**
- The SQLite tables are sequences held in classes, and the methods reassign them:
  - `Commands.CommandQueue` holds `commands` and `audit`;
  - `Ledger.TradeStore` holds `signals`, `trades` and `positions`, with `dailyStats` as a map;
  - `StrategyParams.ParamsTable` holds `rows`.
- Row ids are positions in those sequences.
- The parameter cache of `StrategyParams.StrategyParamsService` and the dedupe memory of
  `Alerts.AlertService` are fields updated in place.

**Time and injected dependencies:**
- Wall-clock time is a parameter `now` (whole seconds; a `real` for the alert service's monotonic
  clock).
- Reading an ISO timestamp is a parameter `parse`.
- The live-close callback, the reload callback and the alert renderer (`json.dumps`, `str`) are
  parameters given as data.
- An exception is a `Failure` carrying its message.

## Model

Rows whose third column starts with "example:" check one concrete input against the general
contracts above them. They illustrate those contracts and add no property of their own.

The rows list the members that carry contracts. The functions that define the modelled
operations, such as `SessionFilter.IsSessionActive`, `RuntimeOps.IsHeartbeatStale`,
`NewsFilter.BlockingEvent`, `ParamsValidation.ParamErrors` and `CommandExecutor.WantsLive`, have
no row of their own: they are the definitions those contracts refer to.

| member | source | states |
|---|---|---|
| Config.ConfiguredPairs | config/pairs.py:3-7 | the configured pairs are exactly EUR_USD, GBP_USD and USD_JPY |
| Commands.NewestFirstIsPreorder | storage/commands.py:262 | ordering by (created, id) descending is a total preorder |
| Commands.NextPendingIndex | storage/commands.py:117-131 | the index found is a PENDING row no newer than every PENDING row; none exactly when no row is PENDING |
| Commands.KeyIndex | storage/commands.py:73-76 | the index found holds the idempotency key; none exactly when no row holds it |
| Commands.StaleIds | storage/commands.py:239-244 | an id is selected iff some row with it is RUNNING and started strictly before the cutoff |
| Commands.StaleIdsExact | storage/commands.py:240-244 | a row's id is selected iff it is RUNNING with a start time strictly before the cutoff; the ids are ids of the table |
| Commands.Claimed | storage/commands.py:139-146 | a claimed row is RUNNING, started now, handled by the claimant |
| Commands.Running_ | storage/commands.py:179-188 | the row is RUNNING; an existing start time and handler are kept (COALESCE) |
| Commands.Finished | storage/commands.py:205-212 | the row carries the terminal status, the finish time and the result |
| Commands.Swept | storage/commands.py:238-253 | exactly the stale rows become FAILED with the timeout error; every other row is unchanged |
| Commands.StaleAudit | storage/commands.py:245-252 | one COMMAND_COMPLETED audit row per stale id, in order, with consecutive audit ids |
| Commands.FinishIdsStep | storage/commands.py:245-252 | finishing one more id updates exactly that row and keeps its actor |
| Commands.FinishIdsAll | storage/commands.py:238-253 | finishing the selected ids one by one equals the sweep of the stale rows |
| Commands.StaleAuditStep | storage/commands.py:245-252 | the audit of one more id is the previous audit plus that id's entry |
| Commands.CommandQueue.constructor | storage/commands.py:10-25 | an empty queue satisfies the table invariant |
| Commands.CommandQueue.WriteAuditLog | storage/commands.py:44-58 | appends exactly one audit row with the next id; commands unchanged |
| Commands.CommandQueue.Enqueue | storage/commands.py:61-98 | an unknown type fails with "Unsupported command type" and writes nothing; a known idempotency key returns the existing id and writes nothing; otherwise one PENDING row and one COMMAND_ENQUEUED audit row |
| Commands.CommandQueue.FetchNextPending | storage/commands.py:117-131 | the row returned is PENDING and no newer than any PENDING row; none iff nothing is PENDING |
| Commands.CommandQueue.ClaimIfPending | storage/commands.py:139-165 | the conditional update claims iff the row is still PENDING, then writes COMMAND_CLAIMED and COMMAND_EXECUTION_STARTED; otherwise changes nothing |
| Commands.CommandQueue.ClaimNextPending | storage/commands.py:134-176 | claims the row fetch_next_pending sees, or returns none with nothing changed when no row is PENDING |
| Commands.CommandQueue.MarkRunning | storage/commands.py:179-188 | sets the row RUNNING, keeping an existing start and handler; no audit row |
| Commands.CommandQueue.MarkFinished | storage/commands.py:191-220 | a non-terminal status fails with "Invalid terminal status" and changes nothing; otherwise the row is finished and one COMMAND_COMPLETED row is written with the actor, else the row's actor, else "unknown" |
| Commands.CommandQueue.MarkDone | storage/commands.py:223-224 | finishing as SUCCEEDED |
| Commands.CommandQueue.MarkFailed | storage/commands.py:227-235 | finishing as FAILED with the error added to a copy of the result |
| Commands.CommandQueue.FinishEach | storage/commands.py:245-252 | the loop of fail_stale_running_commands finishes each id and audits it in order |
| Commands.CommandQueue.FailStaleRunning | storage/commands.py:238-253 | returns exactly the stale ids; exactly those rows become FAILED; one audit row per id |
| Commands.CommandQueue.ListRecent | storage/commands.py:256-267 | at most `limit` rows (all for a negative limit), newest first, drawn from the table, and no row left out is newer than a row returned |
| Commands.ExclusiveClaim | storage/commands.py:139-149 | two workers racing for the same fetched row: the first claims it, the second gets nothing |
| ControlState.PairOf | execution/control_state.py:20-21 | a pair is read only when it is a non-empty string |
| ControlState.ApplyPauseCommand | execution/control_state.py:13-37 | PAUSE_PAIR adds and RESUME_PAIR removes the pair and touches no other; a missing pair changes nothing; PAUSE_ALL gives every configured pair; RESUME_ALL gives none; other types copy the set |
| ControlState.PauseCommandIdempotent | execution/control_state.py:13-37 | applying the same pause command twice equals applying it once |
| ControlState.PauseThenResume | execution/control_state.py:19-29 | pausing a pair that was not paused and then resuming it restores the set |
| Ledger.GateFlag | execution/trade_store.py:113-118 | a gate is stored as 1 exactly when it was given as true, otherwise 0 |
| Ledger.NewestOpenTrade | execution/trade_store.py:213-217 | the trade found is an open trade of the pair with no later open trade of the pair; none iff the pair has no open trade |
| Ledger.RemovePairMembers | execution/trade_store.py:229-230 | what is left is exactly the positions of other pairs |
| Ledger.RemoveAbsentPair | execution/trade_store.py:229-230 | deleting an absent pair changes nothing |
| Ledger.RemovePairDistinct | execution/trade_store.py:229-230 | deletion keeps one position per pair |
| Ledger.SamePairSameRow | execution/trade_store.py:229-230 | with one position per pair, two rows of the same pair are the same row |
| Ledger.DistinctOnce | execution/trade_store.py:229-230 | with one position per pair, no row occurs twice |
| Ledger.TwiceCounted | execution/trade_store.py:268-277 | a row at two indices is counted at least twice |
| Ledger.DistinctPermutation | execution/trade_store.py:268-277 | a reordering of a table with one position per pair still has one position per pair |
| Ledger.AppendOtherKeepsNewest | execution/trade_store.py:167-176 | inserting a trade of another pair does not change a pair's newest open trade |
| Ledger.UpdateOtherKeepsNewest | execution/trade_store.py:221-228 | updating a trade of another pair does not change a pair's newest open trade |
| Ledger.OpenKeepsMirror | execution/trade_store.py:165-193 | opening keeps every position equal to the newest open trade of its pair |
| Ledger.CloseKeepsMirror | execution/trade_store.py:211-230 | closing keeps every position equal to the newest open trade of its pair |
| Ledger.CloseTrades | execution/trade_store.py:213-228 | only the pair's newest open trade changes, getting the close time, exit, result, pnl and meta; with no open trade nothing changes |
| Ledger.TradeStore.constructor | execution/trade_store.py:22-25 | a fresh store is empty and satisfies the ledger invariant |
| Ledger.TradeStore.GetOpenPosition | execution/trade_store.py:254-266 | returns an open position row of the pair, or none iff there is none |
| Ledger.TradeStore.ListOpenPositions | execution/trade_store.py:268-277 | exactly the open rows, as a permutation, ordered by open time |
| Ledger.TradeStore.GetDailyStats | execution/trade_store.py:301-312 | the stored stats of the date, none iff the date has none |
| Ledger.TradeStore.InsertSignal | execution/trade_store.py:107-143 | appends one signal with the next id, gates as 0/1, defaults HOLD and BLOCK, meta `{}`; nothing else changes |
| Ledger.TradeStore.OpenPosition | execution/trade_store.py:145-199 | appends an open trade with the next id and replaces the pair's position by it (INSERT OR REPLACE); the pair now has that open position |
| Ledger.TradeStore.ClosePosition | execution/trade_store.py:201-252 | closes the pair's newest open trade with defaults CLOSED and 0.0; the pair has no position afterwards; no open trade means no change |
| Ledger.TradeStore.UpsertDailyStats | execution/trade_store.py:279-299 | the date's stats are replaced by the given ones; nothing else changes |
| Ledger.TradeStore.SetHalted | execution/trade_store.py:314-325 | only the halted flag of the date changes; a new date starts at zero balances; other dates untouched |
| Ledger.FindOpen | execution/trade_store.py:254-266 | an open position row of the pair, none iff there is none |
| Ledger.FindOpenLast | execution/trade_store.py:177-193 | after replacing a pair's row, the lookup finds the new row |
| Ledger.FindOpenAbsent | execution/trade_store.py:262-264 | no row for the pair means the lookup returns none |
| Ledger.OpenRows | execution/trade_store.py:272-273 | the rows with is_open set, exactly |
| Ledger.AtMostOnePositionPerPair | execution/trade_store.py:179-181 | the positions table holds at most one row per pair |
| Broker.PipSize | execution/paper_broker.py:17-18 | 0.01 for a JPY-quoted pair, 0.0001 otherwise |
| Broker.PnlPips | execution/paper_broker.py:66 | pips times pip size is the price move in the trade's favour |
| Broker.PnlQuoteIsMoveTimesUnits | execution/paper_broker.py:66-67 | quote pnl is the favourable move times the units |
| Broker.PnlSign | execution/paper_broker.py:66 | the pnl is positive iff the move favours the direction; SELL is the negation of BUY |
| Broker.ExitForBar | execution/paper_broker.py:99-110 | BUY: stop-loss iff low <= sl, else take-profit iff high >= tp; SELL mirrored with the stop checked first; otherwise no exit |
| Broker.NoExitInsideLevels | execution/paper_broker.py:99-110 | a bar strictly inside the levels closes nothing |
| Broker.BuyExitsHaveTheExpectedSign | execution/paper_broker.py:99-103 | for a BUY, a stop-loss exit loses and a take-profit exit gains |
| Broker.BuyTakeProfitExample | execution/paper_broker.py:99-103 | example: a concrete EUR_USD bar through the target closes at TP with 8 pips |
| Broker.CloseSummary | execution/paper_broker.py:53-85 | the summary names the pair, result and exit, and its pnl follows the favourable move |
| Broker.KillSwitchPrice | execution/paper_broker.py:117-118 | the given exit price of the pair, else the entry price |
| Broker.PaperBroker.constructor | execution/paper_broker.py:12-14 | keeps the store and the export flag |
| Broker.PaperBroker.HasOpenPosition | execution/paper_broker.py:20-21 | true iff the pair has an open position row |
| Broker.PaperBroker.PlaceMarketOrder | execution/paper_broker.py:23-51 | a direction other than BUY/SELL fails with ValueError's message and changes nothing; otherwise entry at ask for BUY and bid for SELL, one open trade appended, and the pair has an open position |
| Broker.PaperBroker.ClosePositionAt | execution/paper_broker.py:53-85 | closes the pair's trade with the summary's pnl and removes its position |
| Broker.PaperBroker.UpdatePositionsFromBar | execution/paper_broker.py:87-110 | at most one close; none without a position or without an exit; otherwise the exit of ExitForBar with reason meta, and the pair has no position afterwards |
| Broker.PaperBroker.CloseAllPositions | execution/paper_broker.py:112-120 | every open position is closed in open-time order at its kill-switch price with meta the lower-cased reason; no position is left |
| Broker.PaperBroker.CloseEach | execution/paper_broker.py:115-119 | the loop closes each listed position in order |
| Broker.PaperBroker.CloseStep | execution/paper_broker.py:116-119 | one iteration closes position i and extends the trade and position state by it |
| Broker.KillSwitchSummariesStep | execution/paper_broker.py:119 | the summaries of one more position end with its summary |
| Broker.PairsContains | execution/paper_broker.py:115-116 | every listed position's pair is among the pairs closed |
| Broker.PositionsAreOpen | execution/trade_store.py:181 | every position row is open |
| Broker.WithoutOneMore | execution/trade_store.py:229-230 | deleting one more pair's rows equals deleting the larger set |
| Broker.RemovePairConcat | execution/trade_store.py:229-230 | deletion distributes over concatenation |
| Broker.WithoutMembers | execution/trade_store.py:229-230 | after deleting a set of pairs, a row is left iff it was there and its pair is not in the set |
| Broker.PairsMembers | execution/trade_store.py:229-230 | a pair of the listed rows is the pair of some listed row |
| Broker.WithoutAll | execution/paper_broker.py:115-119 | after closing every listed pair, no position remains |
| Broker.WithoutNothing | execution/paper_broker.py:115 | deleting no pairs changes nothing |
| Broker.KillSwitchSummaries | execution/paper_broker.py:113-120 | one summary per listed position |
| Broker.KillSwitchSummariesAt | execution/paper_broker.py:113-120 | the k-th summary closes the k-th position at its kill-switch price |
| Broker.FindOpenAbsentAfterRemove | execution/trade_store.py:229-230 | after deleting a pair, it has no open position |
| CommandExecutor.Modes | execution/command_executor.py:91-92 | falsy modes mean PAPER and LIVE; an int, float or boolean raises the TypeError naming its type; a list gives the upper-cased string items |
| CommandExecutor.LivePairs | execution/command_executor.py:105-106 | falsy pairs mean none; an int, float or boolean raises the TypeError naming its type; a string iterates its characters |
| CommandExecutor.NotIterableExamples | execution/command_executor.py:91-92 | example: `1` raises the int TypeError, `1.0` and `2.5` the float one, `true` the bool one |
| CommandExecutor.Chars | execution/command_executor.py:106 | iterating a string yields its one-character strings |
| CommandExecutor.StringItems | execution/command_executor.py:106 | a pair is listed iff it is a string item of the list |
| CommandExecutor.StringItemsOne | execution/command_executor.py:106 | one item yields its string, or nothing when it is not a string |
| CommandExecutor.StringItemsConcat | execution/command_executor.py:106 | the items of a concatenation are those of each part in order, repetitions kept |
| CommandExecutor.AggregateConcat | execution/command_executor.py:94-112 | folding the status over two lists of legs equals folding over their concatenation |
| CommandExecutor.AggregateSkippedIff | execution/command_executor.py:101-112 | with only SUCCEEDED/SKIPPED legs, the aggregate is SKIPPED iff some leg is SKIPPED, SUCCEEDED iff all are |
| CommandExecutor.Results | execution/command_executor.py:93-115 | the results list holds each leg's result in order |
| CommandExecutor.AppendsTrans | execution/command_executor.py:26-31 | appending non-completion audit rows composes |
| CommandExecutor.AppendsOne | execution/command_executor.py:26-31 | one more non-completion row keeps the audit an extension without completions |
| CommandExecutor.LegAuditAppends | execution/command_executor.py:26-31 | a handler's leg audit rows are all non-completion rows |
| CommandExecutor.LegAuditExtend | execution/command_executor.py:99-107 | one more leg with its audit row extends the leg audit |
| CommandExecutor.Audit | execution/command_executor.py:26-31 | appends exactly one audit row for the command |
| CommandExecutor.PaperOutcome | execution/command_executor.py:35-45 | the paper leg names its pair; it is SKIPPED iff the pair has no open position and SUCCEEDED iff it has one |
| CommandExecutor.ClosePaperPair | execution/command_executor.py:34-45 | no open position: SKIPPED with "position already closed", a POSITION_CLOSE_SKIPPED row and an unchanged ledger; otherwise the pair's newest open trade is closed at the position's entry price as MANUAL_CLOSE with meta `{"command_id": id}`, the position row is deleted, SUCCEEDED with a POSITION_CLOSED row |
| CommandExecutor.CloseLivePair | execution/command_executor.py:48-60 | live trading disabled: SKIPPED with LIVE_CLOSE_SKIPPED and no callback; no callback set: raises, nothing written; otherwise exactly one callback for the pair, and its reply (or `{}`) is recorded with BROKER_CLOSE_CALLED, or its raise propagates with nothing written |
| CommandExecutor.HandleClosePair | execution/command_executor.py:63-79 | a missing pair is FAILED "pair is required" with nothing written and no callback; mode LIVE (case-insensitive) is the live close, with only that pair's callback and an unchanged ledger; anything else is the paper close of the pair, with no callback |
| CommandExecutor.ListingFacts | execution/trade_store.py:268-277 | under the ledger invariant the open listing holds every position row, once each, one per pair, all open |
| CommandExecutor.OpenRowsAll | execution/trade_store.py:272-273 | when every row is open the filter keeps them all |
| CommandExecutor.StillOpen | execution/command_executor.py:96-99 | a listed position is still the open row of its pair after the earlier listed pairs were closed |
| CommandExecutor.CloseListed | execution/command_executor.py:97-99 | closing the next listed position is SUCCEEDED at its entry price; the ledger reaches the state with one more listed position closed |
| CommandExecutor.PaperStep | execution/command_executor.py:97-102 | one loop iteration adds the next listed position's SUCCEEDED leg and keeps the loop invariant |
| CommandExecutor.PaperDone | execution/command_executor.py:96-102 | after the last listed position the positions table is empty, every listed position has its MANUAL_CLOSE, and the legs are those of the listing |
| CommandExecutor.PaperLegs | execution/command_executor.py:96-102 | over the open listing: one SUCCEEDED leg per listed position in order, each audited; no position is left; the trades are the listing's MANUAL_CLOSE closes applied in order |
| CommandExecutor.PaperProgressStep | execution/command_executor.py:97-102 | the leg and audit part of the loop invariant is kept by one iteration |
| CommandExecutor.LiveLeg | execution/command_executor.py:48-60 | a live close that returns names its pair, SUCCEEDED when live trading is enabled and SKIPPED otherwise |
| CommandExecutor.LiveCallsStep | execution/command_executor.py:106-107 | the callbacks for one more pair are those for the earlier pairs followed by that pair's |
| CommandExecutor.LiveStep | execution/command_executor.py:106-112 | one live leg is the live close of the pair, with exactly its callbacks |
| CommandExecutor.LiveLegs | execution/command_executor.py:104-112 | it returns iff no pair's close raises; then one leg per pair in order, each audited, and one callback per pair in order (none while live trading is disabled); on a raise, the callbacks stop after the first raising pair and its message propagates |
| CommandExecutor.LiveProgressStep | execution/command_executor.py:106-112 | the live loop invariant is kept by one iteration |
| CommandExecutor.PaperPart | execution/command_executor.py:96-102 | without PAPER nothing is written and the ledger is unchanged; with it the paper loop over the open listing empties the positions table |
| CommandExecutor.LivePart | execution/command_executor.py:104-112 | without LIVE nothing happens; unreadable pairs raise with no callback; otherwise the live loop's legs follow the paper legs and its callbacks are the loop's |
| CommandExecutor.Summarize | execution/command_executor.py:114-115 | the CLOSE_ALL_SUMMARY row carrying every result in order is written after the legs' rows |
| CommandExecutor.HandleCloseAll | execution/command_executor.py:82-115 | unreadable modes raise with nothing written; it returns iff modes and pairs are readable and no live close raises; PAPER closes every listed position and leaves none, no PAPER leaves the ledger unchanged, without LIVE no callback is made; legs are the paper legs then the live legs, results in order, status SKIPPED iff some leg skipped, CLOSE_ALL_SUMMARY row last |
| CommandExecutor.CloseAllRun | execution/command_executor.py:93-112 | both branches give the ledger and callback effect, return iff nothing raises, and then the legs with their audit rows and aggregated status |
| CommandExecutor.CloseAllJoin | execution/command_executor.py:93-112 | the paper and live branches together make up the CLOSE_ALL effect, legs and status |
| CommandExecutor.CloseAllStatus | execution/command_executor.py:94-112 | the aggregate over paper and live legs is SKIPPED iff some leg is SKIPPED, else SUCCEEDED |
| CommandExecutor.LegAuditConcat | execution/command_executor.py:96-112 | leg audits of consecutive parts compose |
| CommandExecutor.Dispatch | execution/command_executor.py:135-196 | pause commands update the paused set with no callback; a CLOSE_PAIR without a pair is FAILED, a paper one returns the outcome for the positions it started from (SUCCEEDED with the closed details iff the pair had an open position, else SKIPPED), a live one the live close's outcome; a CLOSE_ALL returns iff it completes, and then SKIPPED iff some leg of the listing's paper legs and the live legs is skipped, with every leg's result in order; both closes have the handlers' ledger effects and callbacks; RELOAD_PARAMS is SKIPPED with no callback without a handler, else calls it exactly once; anything else is FAILED "unsupported command type"; every type other than the two closes leaves the audit and the ledger unchanged |
| CommandExecutor.DispatchClosePair | execution/command_executor.py:153-154 | the CLOSE_PAIR branch reports the handler's outcome, paper or live, with its ledger effect and callbacks |
| CommandExecutor.DispatchCloseAll | execution/command_executor.py:168-169 | the CLOSE_ALL branch returns iff the handler completes, with the outcome of the completed legs, its ledger effect and callbacks |
| CommandExecutor.CompletedLegsUnique | execution/command_executor.py:93-115 | the legs of a completed CLOSE_ALL are fixed by its payload, the open listing and the live replies |
| CommandExecutor.Report | execution/command_executor.py:197-198 | a raised exception becomes FAILED with its message as the error |
| CommandExecutor.RunClaimed | execution/command_executor.py:135-200 | the claimed row ends in the reported status and result, with one COMMAND_COMPLETED row last; for the closes that result is the paper or live CLOSE_PAIR outcome and the completed CLOSE_ALL outcome, as for Dispatch; the handler's ledger effect and callbacks are passed on, and a type other than the two closes adds only the completion row |
| CommandExecutor.FinishClaimed | execution/command_executor.py:139-199 | the single finish sets the row's terminal status and result and appends the completion row last |
| CommandExecutor.FinishAuditIntro | execution/command_executor.py:139-199 | handler rows followed by the completion row form the finishing audit |
| CommandExecutor.ProcessNextCommand | execution/command_executor.py:118-200 | no PENDING row: nothing changes and no callback; otherwise the oldest PENDING row is claimed and finished with its handler's outcome (for the closes, the paper or live CLOSE_PAIR outcome and the completed CLOSE_ALL outcome, as for Dispatch), the audit is claim, start, handler rows, then one completion, and the handler's ledger effect and callbacks hold (no callback for pause commands, the reload exactly once when configured, no live callback while live trading is disabled) |
| CommandExecutor.ProcessClaimed | execution/command_executor.py:131-200 | running a claimed command finishes it with its handler's outcome, including the close outcomes stated for Dispatch, completes its lifecycle audit, and passes on the handler's ledger effect and callbacks |
| CommandExecutor.ProcessCompose | execution/command_executor.py:127-200 | claim followed by finish composes to the lifecycle of the command |
| StrategyParams.FindRow | storage/strategy_params.py:116-119 | the row found has the strategy and profile; none iff no row has both |
| StrategyParams.ActiveCount | storage/strategy_params.py:68-72 | zero iff the strategy has no active row |
| StrategyParams.ActivateNormal | storage/strategy_params.py:72-76 | the strategy's rows are made active exactly when their profile is normal; other rows untouched |
| StrategyParams.InsertIgnoreFacts | storage/strategy_params.py:56-66 | INSERT OR IGNORE adds the row iff its key is new, keeps keys unique and loses no key |
| StrategyParams.InsertPresetsFacts | storage/strategy_params.py:52-66 | seeding a strategy's profiles keeps old rows as they were; added rows are presets; every profile has a row |
| StrategyParams.HasActiveOfPrefix | storage/strategy_params.py:67-72 | adding rows keeps an existing active row |
| StrategyParams.InsertedIntro | storage/strategy_params.py:52-66 | the inserted rows satisfy the insertion facts |
| StrategyParams.ActivatedKeeps | storage/strategy_params.py:67-76 | activating normal changes only flags of the strategy that had no active row |
| StrategyParams.ActivatedActive | storage/strategy_params.py:67-76 | activating normal leaves exactly the normal row active |
| StrategyParams.KeptKeeps | storage/strategy_params.py:67-72 | a strategy that already had an active row keeps its flags |
| StrategyParams.KeptActive | storage/strategy_params.py:67-72 | a strategy that already had an active row still has one |
| StrategyParams.SeedStrategyFacts | storage/strategy_params.py:51-76 | seeding one strategy keeps unique keys, touches no other strategy, moves flags only when none was active, and leaves every profile present with an active row |
| StrategyParams.OtherActive | storage/strategy_params.py:51-76 | seeding one strategy does not change whether another has an active row |
| StrategyParams.SeededComposeKeeps | storage/strategy_params.py:51-76 | successive strategy seedings keep old rows and add only preset rows |
| StrategyParams.SeededComposeFlags | storage/strategy_params.py:51-76 | across successive seedings a flag moves only for a strategy that had no active row |
| StrategyParams.SeededComposeActive | storage/strategy_params.py:51-76 | after successive seedings every seeded strategy has all profiles and an active row |
| StrategyParams.SeedFromFacts | storage/strategy_params.py:49-77 | seeding a list of distinct strategies keeps keys unique and satisfies the seeding facts for each |
| StrategyParams.SeededCompose | storage/strategy_params.py:51-76 | the seeding facts of the first strategy and of the rest combine |
| StrategyParams.SeedDefaultsFacts | storage/strategy_params.py:49-77 | after seeding, keys are unique, user rows are kept, every preset strategy has every profile and an active row, and only normal is active where nothing was |
| StrategyParams.SeedCanLeaveTwoActive | storage/strategy_params.py:56-76 | an active custom row inserted before the presets stays active and normal is activated too |
| StrategyParams.UpsertIndex | storage/strategy_params.py:101-111 | after the upsert the key is found at its old index, or at the end when new |
| StrategyParams.UpsertFacts | storage/strategy_params.py:93-112 | after the upsert keys are unique; the row holds the new params and stamp; a new row is inactive; an existing row keeps its flag; other rows unchanged |
| StrategyParams.UpsertKeepsActive | storage/strategy_params.py:93-112 | an upsert never changes which strategies have an active row |
| StrategyParams.SetActiveRows | storage/strategy_params.py:123-126 | every row of the strategy gets active iff it is the profile, and the stamp; other rows untouched |
| StrategyParams.ActiveCountOne | storage/strategy_params.py:123-126 | when exactly the chosen profile's row is active, this strategy has exactly one active row |
| StrategyParams.SetActiveFacts | storage/strategy_params.py:115-127 | fails iff the profile row does not exist; on success one active row, params kept, the stamp set, other strategies unchanged |
| StrategyParams.ProfilesOf | storage/strategy_params.py:88 | the profiles map has exactly the strategy's profile names as keys |
| StrategyParams.ProfilesOfValue | storage/strategy_params.py:88 | each profile maps to its row's parameters |
| StrategyParams.ListStrategyParams | storage/strategy_params.py:80-90 | KeyError iff the strategy has no rows; the profiles of the strategy; the active profile is normal if none is active, else an active profile that is least in SQL text order |
| StrategyParams.ParamsTable.constructor | storage/strategy_params.py:54 | an empty table with unique keys |
| StrategyParams.ParamsTable.SeedDefaults | storage/strategy_params.py:49-77 | the rows become the seeding of every preset strategy, with the seeding facts |
| StrategyParams.ParamsTable.SeedStrategyRows | storage/strategy_params.py:51-76 | the inner loop seeds one strategy as the function `SeedStrategy` does, and keeps keys unique |
| StrategyParams.ParamsTable.UpsertProfileParams | storage/strategy_params.py:93-112 | the rows become the upsert of the key |
| StrategyParams.ParamsTable.SetActiveProfile | storage/strategy_params.py:115-127 | a missing profile fails with "unknown profile" and changes nothing; otherwise the rows become the activation |
| StrategyParams.ActiveRows | storage/strategy_params.py:143-145 | exactly the active rows |
| StrategyParams.LastActiveRow | storage/strategy_params.py:151-158 | the last active row of a strategy in table order is what the cache holds for it |
| StrategyParams.WithPresets | storage/strategy_params.py:160-166 | the cache keeps its entries and gains the normal preset for every missing preset strategy |
| StrategyParams.StrategyParamsService.constructor | storage/strategy_params.py:131-136 | the service starts with a reload |
| StrategyParams.StrategyParamsService.Reload | storage/strategy_params.py:137-170 | readable table: seed, then cache the active rows and fill missing presets; unreadable: cache only the normal presets |
| StrategyParams.StrategyParamsService.CacheRows | storage/strategy_params.py:151-158 | the caching loop builds the cache of the active rows |
| StrategyParams.StrategyParamsService.FillPresets | storage/strategy_params.py:160-166 | the fill loop adds the normal preset of every missing preset strategy |
| StrategyParams.StrategyParamsService.Get | storage/strategy_params.py:171-180 | KeyError iff the strategy is neither cached nor a preset; a cached snapshot wins over the normal preset |
| StrategyParams.ReloadCache | storage/strategy_params.py:137-180 | after a reload every preset strategy is cached, as its last active row when readable, as the normal preset when not |
| ParamsValidation.ValidateStrategyAndProfile | api/strategy_params_validation.py:26-32 | no errors iff both are known; the strategy error iff the strategy is unknown; the profile error iff the profile is unknown |
| ParamsValidation.Schema | api/strategy_params_validation.py:8-23 | a schema exists iff the strategy is a preset strategy |
| ParamsValidation.SchemaKeysDistinct | api/strategy_params_validation.py:8-23 | each schema names a key once |
| ParamsValidation.Lookup | api/strategy_params_validation.py:54 | the value found is the key's; none iff the key is absent |
| ParamsValidation.ToNumber | api/strategy_params_validation.py:55-57 | an int or a float converts to its value; null, lists and objects raise |
| ParamsValidation.ValidateParams | api/strategy_params_validation.py:35-74 | returns the error list of `ParamErrors`: unknown keys, then missing keys, then value errors, then the cross check |
| ParamsValidation.UnknownKeyLoop | api/strategy_params_validation.py:42-44 | the first loop's errors |
| ParamsValidation.MissingLoop | api/strategy_params_validation.py:46-48 | the second loop's errors |
| ParamsValidation.ValueLoop | api/strategy_params_validation.py:50-62 | the third loop's errors |
| ParamsValidation.UnknownKeyIff | api/strategy_params_validation.py:42-44 | an unknown-key error for a key iff the payload has it and the schema does not |
| ParamsValidation.MissingIff | api/strategy_params_validation.py:46-48 | a missing-key error for a key iff the schema has it and the payload does not |
| ParamsValidation.ValueErrorFrom | api/strategy_params_validation.py:50-62 | every value error comes from one schema entry |
| ParamsValidation.ValueErrorTo | api/strategy_params_validation.py:50-62 | every schema entry's error is reported |
| ParamsValidation.ValueErrorsOf | api/strategy_params_validation.py:50-62 | errors for a key come only from that key's entry |
| ParamsValidation.ValueErrorIff | api/strategy_params_validation.py:50-62 | "Must be a number" iff present and not convertible; "Must be between" iff convertible and out of the closed range; at most one per key |
| ParamsValidation.CrossCheckIff | api/strategy_params_validation.py:64-72 | for vwap_rsi the cross error iff both are present, convertible, and buy >= sell |
| ParamsValidation.ParamErrorsSplit | api/strategy_params_validation.py:40-74 | an error is reported iff one of the four checks reports it |
| ParamsValidation.KeyErrorsIff | api/strategy_params_validation.py:42-48 | unknown and missing key errors of the whole validation, both directions |
| ParamsValidation.BetweenDistinct | api/strategy_params_validation.py:44-70 | the range message differs from every other message |
| ParamsValidation.ValueMessages | api/strategy_params_validation.py:50-62 | value checks never produce key or cross-check messages |
| ParamsValidation.ValueErrorsIff | api/strategy_params_validation.py:50-62 | value errors of the whole validation, both directions |
| ParamsValidation.UnknownStrategyAlone | api/strategy_params_validation.py:36-38 | an unknown strategy yields exactly one error |
| ParamsValidation.NoUnknownKeys | api/strategy_params_validation.py:42-44 | a payload of schema keys has no unknown-key errors |
| ParamsValidation.NoMissingKeys | api/strategy_params_validation.py:46-48 | a payload with every schema key has no missing-key errors |
| ParamsValidation.NoValueErrors | api/strategy_params_validation.py:50-62 | no entry error means no value errors |
| ParamsValidation.AcceptedWhenValid | api/strategy_params_validation.py:35-74 | a payload passing every check is accepted |
| ParamsValidation.BoundariesAccepted | api/strategy_params_validation.py:61 | example: both range bounds are accepted |
| ParamsValidation.CrossCheckExample | api/strategy_params_validation.py:64-70 | example: rsi_buy_max 70 with rsi_sell_min 30 is rejected |
| ParamsValidation.OutOfRangeRejected | api/strategy_params_validation.py:61-62 | example: 1.1 for vwap_atr_tolerance gives "Must be between 0.0 and 1.0" |
| Alerts.Sanitize | execution/alerts.py:119-128 | the clean payload holds exactly the whitelisted keys with non-null values, with their values |
| Alerts.Sanitized | execution/alerts.py:119-128 | the same, as a value |
| Alerts.SanitizeIsSanitized | execution/alerts.py:119-128 | the sanitised payload is unique |
| Alerts.SecretIgnoresCase | execution/alerts.py:131-133 | secret detection does not depend on letter case |
| Alerts.SecretExamples | execution/alerts.py:131-133 | example: "API_KEY=1" and "a Token" are detected as secrets |
| Alerts.Truncate | execution/alerts.py:163-164 | a body within 2000 characters is kept; a longer one is its first 2000 characters plus the truncation marker |
| Alerts.SubjectCore | execution/alerts.py:160 | the pair if truthy, else the service if truthy, else "bot" |
| Alerts.RecentAfter | execution/alerts.py:155-158 | a duplicate leaves the memory unchanged; otherwise only the fingerprint is set to now |
| Alerts.Fanout | execution/alerts.py:169-174 | one delivery per provider, in order, with the same subject and body |
| Alerts.RepeatWithinWindow | execution/alerts.py:155-158 | after a send is recorded, the same alert is a duplicate within the window and not after it |
| Alerts.DeliveredIff | execution/alerts.py:151-174 | delivered iff not a recent duplicate and neither body nor subject contains a secret pattern |
| Alerts.SubjectShape | execution/alerts.py:160-161 | the subject starts with "[env][event] " and ends with the pair when there is one |
| Alerts.SanitizeDropsSecrets | execution/alerts.py:29-35 | token and password fields never survive sanitising |
| Alerts.AlertService.constructor | execution/alerts.py:137-149 | empty dedupe memory, the given providers, environment and window |
| Alerts.AlertService.Send | execution/alerts.py:151-174 | returns true iff delivered, updates the dedupe memory even when the alert is then dropped for a secret, and calls every provider once only when delivered |
| Alerts.AlertService.Notify | execution/alerts.py:169-174 | every provider is called, in order; the dedupe memory is unchanged |
| SessionFilter.SessionOf | filters/session_filter.py:7-11 | a session exists iff the pair is one of the three configured pairs |
| SessionFilter.HourOf | filters/session_filter.py:24 | the UTC hour is in 0..23 |
| SessionFilter.HourOfTime | filters/session_filter.py:24 | the hour of a time within hour h of any day is h |
| SessionFilter.SessionByHour | filters/session_filter.py:14-26 | an unknown pair is inactive; otherwise active iff start <= hour < end |
| SessionFilter.SessionBoundaries | filters/session_filter.py:8-26 | example: EUR_USD is active at 08:00, inactive at 17:00; an unknown pair is inactive |
| NewsFilter.PairCurrencies | filters/news_filter.py:8-12 | currencies exist iff the pair is configured, two each |
| NewsFilter.GetBlockingNewsEvent | filters/news_filter.py:24-62 | the loop returns the first blocking event, none, or the raised error, as the function `BlockingEvent` defines them |
| NewsFilter.FirstBlockingIsFirst | filters/news_filter.py:41-62 | a blocking event found is an event that blocks, and every earlier one is skipped; none iff every event is skipped; a raise comes from the first event not skipped |
| NewsFilter.BlocksIff | filters/news_filter.py:42-60 | an event blocks iff its impact is High, its currency is the pair's, its time string reads, and it lies within the window both ends included |
| NewsFilter.IsNewsClear | filters/news_filter.py:65-83 | a failed fetch counts as clear; otherwise clear iff no event blocks; a raise is passed on |
| NewsFilter.ClearIffNoneBlocks | filters/news_filter.py:65-83 | with an explicit event list the pair is clear iff every event is skipped |
| NewsFilter.NewsExamples | filters/news_filter.py:24-62 | example: a USD High event ten minutes away blocks EUR_USD; forty minutes away, Low impact, or another currency does not |
| RuntimeOps.StaleThresholdSeconds | execution/runtime_ops.py:12-13 | 30 unless configured |
| RuntimeOps.StaleIff | execution/runtime_ops.py:16-25 | stale iff the heartbeat is missing, empty or unreadable, or older than the threshold; exactly at the threshold it is not stale |
| RuntimeOps.DefaultThreshold | execution/runtime_ops.py:16-25 | example: with the default threshold, 31 seconds is stale, 30 is not, and a missing heartbeat is stale |

## Left out

- SQLite itself is not modelled: connections, transactions, commits, the locks around the service and the working directory. Each SQL statement is one state change of a sequence; ids are 1 + position in the table.
- Timestamps are whole seconds, not ISO strings. In the source, lexicographic order of ISO strings equals time order only when all strings share one format.
- JSON encoding and decoding of `payload_json`, `result_json`, `details_json`, `meta_json` and the parameter columns is not modelled. Values are stored as decoded objects, so the round-trip is the identity.
- The CSV export of the trade store (`_append_csv`) is not modelled, nor its fallback on `sqlite3.Error`. A database error is not modelled apart from the reload of strategy parameters.
- `init_db` and the schema creation are not modelled.
- The alerts that `process_next_command` sends after finishing a command are not modelled. The alert service is a separate module here.
- The traceback text in the FAILED result is not modelled. It is a parameter of the report.
- `str(item)` on non-string items of `modes` and `pairs`, and non-string `pair` or `mode` values, are not modelled. Only JSON strings are interpreted.
- The strategy-parameter registry `get_strategy_params_service` (storage/strategy_params.py:183-192) is a process-wide cache keyed by path, and is not modelled.
- EmailProvider, load_email_config and build_alert_service are not modelled: they do SMTP I/O and read configuration.
- The alert service's logging is not modelled. A provider that raises is recorded as called, because the source swallows the exception.
- fetch_forexfactory_calendar uses the network and is not modelled. Its outcome is a parameter of `IsNewsClear`.
- The SQLite backups in runtime_ops.py (28-73) are file I/O and are not modelled.
- `float()` of a string is a parameter `parse`. NaN and infinity are not modelled: Dafny reals have neither.
- `str.lower()` and `str.upper()` act on ASCII letters only.
- Only UTC datetimes are modelled:
  - time zones other than UTC in `is_session_active` are not modelled;
  - the TypeError from comparing naive and aware datetimes in the news filter and the heartbeat check is not modelled.
- News events that are not dictionaries are not modelled (an AttributeError in the source).
- `int(os.getenv(...))` raising ValueError on a malformed setting is not modelled.
- Commands.StaleIds: the order of the ids returned follows the table order. The source's SELECT has no ORDER BY, so the source does not promise an order.
- The `STATUS_FAILED` branch at execution/command_executor.py:109-110 is kept in `CommandExecutor.LiveLegs`, but it can never run. `_close_live_pair` returns SKIPPED or SUCCEEDED, or raises. A raise aborts `_handle_close_all`; the outer `except` then finishes the command FAILED without a CLOSE_ALL_SUMMARY row. The audit rows of the earlier legs stay.
- Ledger.GateFlag: only booleans are modelled as gate values. The source's `int(bool(...))` also takes other truthy values, such as 1 or a non-empty string, as 1.
- Ledger.TradeStore.InsertSignal: an explicit `signal=None` or `decision=None` is stored as HOLD or BLOCK. The source's `kwargs.get("signal", "HOLD")` stores None in that case.
- StrategyParams.LastActiveRow: of two active rows for one strategy, the cache keeps the one later in table order. The source's `SELECT ... WHERE is_active = 1` (storage/strategy_params.py:142-144) has no ORDER BY, so the source leaves open which row is cached. Two active rows can arise, as `StrategyParams.SeedCanLeaveTwoActive` shows.
- ParamsValidation.Lookup: a payload is a sequence of key/value pairs in insertion order, and the model does not require its keys to be distinct. With a repeated key, `Lookup` takes the first value. A decoded JSON object has distinct keys, so this case does not arise in the source.
