# Paper-trading engine of the AI trading terminal

This project models the trading core of the terminal in `App.tsx`. It is a
paper-trading simulator. A live ticker feed updates per-coin prices and a short
price history. Market orders, placed by hand or by an AI agent, are checked
against a simulated cash and coin ledger. Each accepted order is recorded as an
immutable FILLED order. Prices and amounts are Dafny `real`.

Modules, one per part of the core:

- `Types` (`types.dfy`): the records of `types.ts`: coin symbols, sides,
  statuses, orders, assets, the portfolio, market data and AI decisions.
- `Constants` (`constants.dfy`): the supported coins, the starting cash and the
  mock history length of `constants.ts`.
- `Market` (`market.dfy`): the per-symbol market state and how one ticker update
  is merged into a symbol's price history.
- `Ledger` (`ledger.dfy`): the funds and asset check, the fill (cash, balance and
  volume-weighted entry price), and the portfolio value and P&L figures.
- `Automation` (`automation.dfy`): one AI cycle's gate and sizing as a pure
  plan, plus the capped activity log.
- `App` (`app.dfy`): class `TradingApp`, which holds the state that `App.tsx`
  keeps in React state (market data, cash, assets, orders, AI log, connection
  status). Its methods are the handlers that update it: `OnTick`,
  `ExecuteOrder` (built from `Commit` and `RecordOrder`), `AddAiLog`,
  `SetAiEnabled` and `RunAiCycle`. Each method runs as one atomic step. Each is
  proved against the pure functions of the modules above, and those functions
  carry the lemmas.

Modelling choices to know when reading the contracts:

- JavaScript can divide by zero in two places, and both are made explicit. The
  average entry price is `EntryPrice = Finite(real) | NotFinite`: when a BUY
  leaves the new balance at 0 (App.tsx:216) the source computes 0/0 or x/0,
  and a non-finite average stays non-finite on later buys. An AI BUY at price 0
  sizes `budget / 0`, whose notional is NaN. NaN fails the `> 5` test, so no
  order is placed.
- `executeOrder` (App.tsx:187-247) checks nothing about `amount` or `price`.
  The model checks nothing either. Non-negativity is proved only when
  `amount >= 0` and `price >= 0`. `Ledger.NegativePriceBreaksSolvency` shows a
  SELL at a negative price that is accepted and drives cash negative.
- Appending to the history evicts only the single oldest point (App.tsx:160).
  A series that starts above 50 points therefore never shrinks. The bound
  proved is `|new| <= max(|old|, 50)`, and `<= 50` only for series that start
  within the cap. Nothing in the code trims a longer series back to 50 or drops
  prices that are not positive, and the model follows the code.
- The branch at App.tsx:163-165 replaces an empty history by one point. It can
  never run, because both earlier branches leave at least one point. The
  `OnTick` body keeps it. `MergeTick`'s contract proves that the merged series
  is never empty.
- The AI action `'BUY' | 'SELL' | 'HOLD'` is `AiAction = Trade(side) | HOLD`,
  so the cast `decision.action as OrderSide` (App.tsx:290) becomes structural.

## Model

| member | source | states |
|---|---|---|
| Constants.SupportedCoinsExact | constants.ts:3 | the supported list contains every `CoinSymbol`, with no duplicates |
| Market.InitialMarket | App.tsx:14-25 | every coin has a market record at price 0, change 0 and empty history, keyed by its own symbol |
| Market.MergeTick | App.tsx:153-165 | after a tick the history is non-empty, its last point is `(time, price)`, and its length is at most `max(old length, 50)` |
| Market.MergeTickShape | App.tsx:153-161 | a same-bucket tick keeps the length and all earlier points; any other tick adds one point up to the cap, otherwise keeps the length, and keeps the newest suffix of the old series |
| Market.MergeTicksBounded | App.tsx:146-176 | after any run of ticks the length is at most `max(starting length, 50)` |
| Market.MergeTicksEndsInLatest | App.tsx:153-165 | after a non-empty run of ticks the series ends in the latest tick |
| Market.CappedSeriesStaysCapped | App.tsx:158-161 | a series starting at 50 points or fewer never exceeds 50 |
| Market.HistoryCapIsMockLength | App.tsx:160 | the history cap literal equals the mock history length constant (50) |
| Ledger.InitialPortfolio | App.tsx:27-30 | the starting portfolio has cash 100000, every coin at balance 0 and average 0, keyed by its symbol, and is solvent |
| Ledger.Check | App.tsx:193-203 | an order is accepted exactly when a BUY costs at most the cash on hand and a SELL sells at most the balance held; a refusal for funds happens only on a BUY and one for assets only on a SELL |
| Ledger.WeightedEntry | App.tsx:216 | the new average is finite exactly when the old one is and the new balance is non-zero, and then the average times the new balance equals the old cost basis plus the order total |
| Ledger.Fill | App.tsx:207-228 | a fill keeps the set of coins and the traded asset's symbol, and cash plus the traded coin's holding at the fill price is the same before and after |
| Ledger.FillExact | App.tsx:207-228 | a BUY lowers cash by amount×price, raises the balance by amount and sets the weighted average (non-finite when the new balance is 0, and staying non-finite once it is); a SELL raises cash by amount×price, lowers the balance and keeps the average |
| Ledger.FillOnlyTouchesSymbol | App.tsx:211-227 | a fill leaves every other coin's asset unchanged and keeps the portfolio total over the coins |
| Ledger.FillPreservesSolvency | App.tsx:193-228 | an accepted order with amount ≥ 0 and price ≥ 0 keeps cash and all balances non-negative |
| Ledger.NegativePriceBreaksSolvency | App.tsx:187-203 | without a price check, a SELL at a negative price passes validation and makes cash negative |
| Ledger.BuyThenSellRestores | App.tsx:209-228 | for any amount, including a negative one, a BUY and then a SELL of the same amount at the same price passes the asset check and restores cash and balance exactly |
| Ledger.WeightedEntryBetween | App.tsx:216 | buying a positive amount onto a non-negative position gives a finite average between the old average and the fill price, equal to the fill price when nothing was held |
| Ledger.HoldingsNonnegative | App.tsx:315 | the summed holdings of coins with non-negative balances at non-negative prices are non-negative |
| Ledger.PortfolioValue | App.tsx:315 | a solvent portfolio at non-negative prices is worth at least its cash, which is non-negative |
| Ledger.TotalPnl | App.tsx:316 | the P&L is positive exactly when the value is above the starting cash, and negative exactly when it is below |
| Ledger.PnlPercent | App.tsx:317 | the percentage is the P&L per 100000 of starting cash times 100, positive exactly when the P&L is |
| Ledger.HoldingsChangeAt | App.tsx:315 | changing one coin's balance changes the summed holdings by the balance change times that coin's price |
| Ledger.ValueChangeAt | App.tsx:315 | portfolios that differ only at one coin differ in value by the cash change plus that coin's balance change at its price |
| Ledger.ValueKeptAtQuote | App.tsx:315 | moving value between cash and one coin at that coin's quoted price, with every other balance unchanged, leaves the portfolio value unchanged |
| Ledger.FillAtQuotePreservesValue | App.tsx:315 | a fill at the coin's current price leaves the portfolio value unchanged |
| Ledger.EmptyHoldingsAreWorthless | App.tsx:315 | coins with zero balance add nothing to the portfolio value |
| Ledger.InitialValueIsInitialCash | App.tsx:315-317 | in the starting state the value equals the starting cash, and P&L and P&L percent are 0, for all prices |
| Ledger.BuyThenPartialSellScenario | App.tsx:209-228 | BUY 1 BTC at 50000 then SELL 0.5 at 60000 leaves cash 80000, 0.5 BTC and average 50000 |
| Ledger.OversizedBuyScenario | App.tsx:193-197 | a BUY costing 200000 against 100000 cash is refused for insufficient funds |
| Automation.PlanCycle | App.tsx:266-293 | there is no plan exactly when the history is empty; the agent holds exactly when the action is HOLD or the confidence is at most 65; a placed order has the decision's side, confidence above 65 and a notional above 5 |
| Automation.PlanPlacesExactlyWhen | App.tsx:266-293 | an order is placed iff there is history, the action is not HOLD, confidence > 65, and the notional is > 5 (a tenth of cash for BUY at a non-zero price, half the holding times price for SELL) |
| Automation.PlanSizing | App.tsx:279-287 | a placed BUY has notional 0.10×cash; a placed SELL has amount 0.5×holding |
| Automation.PlacedOrderPassesCheck | App.tsx:279-290 | an order sized from a solvent snapshot passes the funds or asset check of that snapshot |
| Automation.PlanIgnoresSuggestedAmount | App.tsx:279-290 | the decision's suggested amount never changes the plan |
| Automation.GateScenarios | App.tsx:279-293 | a BUY at confidence 50 is held; a BUY at confidence 90 with notional 3 is ignored as below the minimum |
| Automation.AddLog | App.tsx:253-255 | the new entry is at index 0, older entries shift down by one, and the log holds at most 50 entries |
| App.SizeAiOrder | App.tsx:279-289 | the agent's step-by-step sizing returns exactly the plan `PlanCycle` defines |
| App.PrependFreshOrder | App.tsx:232-245 | a fresh FILLED order with the next id at the head keeps order ids unique and newest-first |
| App.TradingApp.constructor | App.tsx:13-37 | the state starts with every coin at price 0 and empty history, the starting portfolio, no orders, no log, the agent off, connection "connecting" |
| App.TradingApp.SelectSymbol | App.tsx:379 | selects the coin that the agent trades |
| App.TradingApp.OnTick | App.tsx:146-176 | the connection becomes live, and only the ticked coin's price, 24h change and history (merged by `MergeTick`) change |
| App.TradingApp.OnSocketClose | App.tsx:179 | the connection becomes "disconnected" |
| App.TradingApp.AddAiLog | App.tsx:253-255 | the log becomes `AddLog` of the old log and the new entry |
| App.TradingApp.Commit | App.tsx:207-230 | the ledger becomes `Fill` of the old ledger, and the class invariant is kept |
| App.TradingApp.RecordOrder | App.tsx:232-245 | exactly one order is put at the head of the order list, and the id counter advances by one |
| App.TradingApp.ExecuteOrder | App.tsx:187-247 | refusal follows `Check` and changes nothing; otherwise the ledger becomes `Fill`, one FILLED order with total amount×price, the isAi flag and the reason is prepended, an automated fill is logged, and solvency is kept for non-negative amount and price |
| App.TradingApp.SetAiEnabled | App.tsx:257-311 | switching the agent logs "activated" or "deactivated"; setting it to its current value changes nothing |
| App.TradingApp.RunAiCycle | App.tsx:261-297 | without history nothing changes; otherwise the analysis is logged and the `PlanCycle` plan is carried out; an order placed from a solvent state is never refused |
| App.TradingApp.ActOnPlan | App.tsx:279-296 | a hold or an undersized signal is only logged; a placed order has `ExecuteOrder`'s effect with `isAi = true` and the decision's reason |

## Left out

- Rendering and layout: the JSX, the resize handlers and `resetLayout` (App.tsx:56-121, App.tsx:320-598), and the chart components. They are presentation only.
- The display-time sort of order history (components/OrderHistory.tsx:11). The model keeps orders newest first, as App.tsx:245 does.
- Network collaborators. The REST and WebSocket clients are replaced by the `OnTick`/`OnSocketClose` inputs. The decision-policy call is replaced by an arbitrary `AiDecision` input. The mock broker call `placeBinanceOrder` (App.tsx:205) is dropped.
- Concurrency. The source runs the check against `portfolioRef` and then, after an `await`, commits on the latest state. The model treats check and commit as one atomic step, so the check-then-act race is not modelled. The snapshot refs (App.tsx:45-53, 249-250) are not modelled either. The agent cycle has a second gap of the same kind: it reads its portfolio and market snapshot (App.tsx:262-264), waits on the policy call (`await analyzeMarket`, App.tsx:272), sizes the order from the old snapshot (App.tsx:282-286), and `executeOrder` then checks the newer `portfolioRef.current` (App.tsx:189-191). In the program an order sized from a solvent snapshot can therefore still be refused, for example after manual trades made while the policy call runs. The model runs the cycle as one step, so the clause of `App.TradingApp.RunAiCycle` that an order placed from a solvent state is never refused, and `Automation.PlacedOrderPassesCheck`, hold only for that atomic cycle.
- Timers. `setInterval`/`clearInterval` (App.tsx:299-310) are not modelled. Each cycle is an explicit `RunAiCycle` call, including the one started right after enabling.
- The mount-time run of the agent effect, which logs "AI Agent Deactivated." once at start-up. `SetAiEnabled` logs only real changes.
- The seed-history load (App.tsx:124-142). It stores `CandleData` records but reads `.price` from them, so its types are inconsistent. The model's histories hold `{time, price}` points, as written at App.tsx:157 and App.tsx:159. The merge lemmas hold for any starting length. The `CandleData` type (types.ts:39-45) is not modelled.
- Floating point. Values are exact `real`. NaN/Infinity are modelled only for the average entry price and for a BUY sized at price 0. `toFixed`, `toLocaleString` and log message text are not modelled. Log messages are a datatype.
- Time labels are opaque strings compared only by equality, as in the source. The two-digit minute format is not modelled, so the order of the time labels in a series is not stated.
- Ids and clocks. `Math.random` order ids are replaced by a fresh-id counter, and `Date.now()` by a timestamp parameter.
- The manual-rejection `alert` (App.tsx:195, App.tsx:200) is not modelled. `ExecuteOrder` returns the `Rejection` instead.
- `isLoading` and the manual BUY/SELL buttons' sizing (App.tsx:505, App.tsx:513). Buttons are UI that calls `ExecuteOrder` with a caller-supplied amount and price.
