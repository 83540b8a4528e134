/** The AI agent: the per-cycle decision gate and position sizing, and the
    capped activity log it writes. */
module Automation {
  import opened Types
  import opened Ledger

  /** A decision must be strictly more confident than this to be acted upon. */
  const ConfidenceThreshold: real := 65.0
  /** A sized order must be worth strictly more than this (USDT) to be placed. */
  const MinNotional: real := 5.0
  /** A BUY spends this fraction of the cash balance. */
  const BuyCashFraction: real := 0.10
  /** A SELL sells this fraction of the current holding. */
  const SellHoldingFraction: real := 0.5
  /** The activity log keeps at most this many entries. */
  const AiLogCap: nat := 50

  /** The outcome of one automation cycle, before the order reaches the ledger. */
  datatype Plan =
    | NoData                                 // the symbol has no price history yet
    | Hold                                   // HOLD, or a trade at or below the confidence threshold
    | BelowMinimum                           // a trade signal whose sized notional is too small
    | Place(side: OrderSide, amount: real)   // an automated market order to submit

  /** One cycle's decision gate and sizing. A BUY at price 0 sizes an infinite
      amount whose notional is NaN, so the minimum-notional test fails. The
      policy's suggested amount is not used. */
  function PlanCycle(d: AiDecision, data: MarketData, cash: real, holding: real): (r: Plan)
    ensures r == NoData <==> |data.history| == 0
    ensures r == Hold <==> |data.history| > 0 && (d.action == HOLD || d.confidence <= ConfidenceThreshold)
    ensures r.Place? ==> d.action == Trade(r.side) && d.confidence > ConfidenceThreshold
                         && r.amount * data.price > MinNotional
  {
    if |data.history| == 0 then NoData
    else
      match d.action
      case HOLD => Hold
      case Trade(side) =>
        if d.confidence <= ConfidenceThreshold then Hold
        else
          match side
          case BUY =>
            if data.price == 0.0 then BelowMinimum
            else
              var amount := cash * BuyCashFraction / data.price;
              if amount * data.price > MinNotional then Place(BUY, amount) else BelowMinimum
          case SELL =>
            var amount := holding * SellHoldingFraction;
            if amount * data.price > MinNotional then Place(SELL, amount) else BelowMinimum
  }

  /** An order is placed exactly when there is history, the action is a trade,
      the confidence is above 65 and the notional is above 5, where a BUY's
      notional is a tenth of the cash and a SELL's is half the holding at the
      current price. */
  lemma PlanPlacesExactlyWhen(d: AiDecision, data: MarketData, cash: real, holding: real)
    ensures PlanCycle(d, data, cash, holding).Place? <==>
            && |data.history| > 0
            && d.action.Trade?
            && d.confidence > ConfidenceThreshold
            && (d.action.side == BUY ==> data.price != 0.0 && cash * BuyCashFraction > MinNotional)
            && (d.action.side == SELL ==> holding * SellHoldingFraction * data.price > MinNotional)
  {
    if |data.history| > 0 && d.action == Trade(BUY) && data.price != 0.0 {
      BuyNotional(cash, data.price);
    }
  }

  /** The sizing rule: a placed BUY spends a tenth of the cash, a placed SELL
      sells half the holding, both at the current price. */
  lemma PlanSizing(d: AiDecision, data: MarketData, cash: real, holding: real)
    ensures match PlanCycle(d, data, cash, holding)
            case Place(BUY, amount) =>
              data.price != 0.0 && amount * data.price == cash * BuyCashFraction && d.action == Trade(BUY)
            case Place(SELL, amount) =>
              amount == holding * SellHoldingFraction && d.action == Trade(SELL)
            case _ => true
  {
    if |data.history| > 0 && d.action == Trade(BUY) && data.price != 0.0 {
      BuyNotional(cash, data.price);
    }
  }

  lemma BuyNotional(cash: real, price: real)
    requires price != 0.0
    ensures cash * BuyCashFraction / price * price == cash * BuyCashFraction
  {
  }

  /** An order sized by the agent against a solvent snapshot always passes the
      funds or asset check of that same snapshot. */
  lemma PlacedOrderPassesCheck(d: AiDecision, data: MarketData, p: Portfolio, symbol: CoinSymbol)
    requires symbol in p.assets && Solvent(p)
    requires PlanCycle(d, data, p.cashBalance, p.assets[symbol].balance).Place?
    ensures var plan := PlanCycle(d, data, p.cashBalance, p.assets[symbol].balance);
            Check(p, symbol, plan.side, plan.amount, data.price) == None
  {
    PlanSizing(d, data, p.cashBalance, p.assets[symbol].balance);
  }

  /** The suggested amount in a decision never affects the plan. */
  lemma PlanIgnoresSuggestedAmount(d: AiDecision, data: MarketData, cash: real, holding: real, suggested: Option<real>)
    ensures PlanCycle(d.(suggestedAmount := suggested), data, cash, holding) == PlanCycle(d, data, cash, holding)
  {
  }

  /** A BUY at confidence 50 is held; a confident BUY whose notional would be 3
      is ignored as below the minimum size. */
  lemma GateScenarios(data: MarketData)
    requires |data.history| > 0 && data.price == 100.0
    ensures PlanCycle(AiDecision(Trade(BUY), 50.0, "", None), data, 100000.0, 0.0) == Hold
    ensures PlanCycle(AiDecision(Trade(BUY), 90.0, "", None), data, 30.0, 0.0) == BelowMinimum
  {
    BuyNotional(30.0, data.price);
  }

  datatype Sentiment = Neutral | Positive | Negative

  /** The messages the agent logs; their text formatting is not modelled. */
  datatype LogMessage =
    | Activated
    | Deactivated
    | Analyzing(symbol: CoinSymbol)
    | Executed(side: OrderSide, symbol: CoinSymbol, price: real)
    | LowBalance(action: AiAction)
    | Holding(symbol: CoinSymbol, reason: string)

  datatype LogEntry = LogEntry(time: string, msg: LogMessage, sentiment: Sentiment)

  /** The log after adding one entry: newest first, at most AiLogCap entries,
      the older entries shifted down by one and the oldest dropped when full. */
  function AddLog(logs: seq<LogEntry>, entry: LogEntry): (r: seq<LogEntry>)
    ensures |r| == (if |logs| + 1 > AiLogCap then AiLogCap else |logs| + 1)
    ensures r[0] == entry
    ensures forall i :: 1 <= i < |r| ==> r[i] == logs[i - 1]
  {
    var all := [entry] + logs;
    if |all| > AiLogCap then all[..AiLogCap] else all
  }
}
