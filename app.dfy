/** The trading terminal's mutable state and the handlers that change it: the
    ticker callback, order execution, the AI log, the agent toggle and one
    automation cycle. Each handler runs as one atomic step. */
module App {
  import opened Types
  import opened Constants
  import opened Market
  import opened Ledger
  import opened Automation

  datatype ConnectionStatus = Connected | Connecting | Disconnected

  /** The order list holds FILLED records with ids below `nextId` and strictly
      decreasing from newest to oldest, so no two orders share an id. */
  ghost predicate OrderLogValid(orders: seq<Order>, nextId: nat)
  {
    && (forall i :: 0 <= i < |orders| ==> orders[i].id < nextId && orders[i].status == FILLED)
    && (forall i, j :: 0 <= i < j < |orders| ==> orders[i].id > orders[j].id)
  }

  /** Putting a fresh FILLED order at the head keeps the order list valid. */
  lemma PrependFreshOrder(orders: seq<Order>, nextId: nat, o: Order)
    requires OrderLogValid(orders, nextId)
    requires o.id == nextId && o.status == FILLED
    ensures OrderLogValid([o] + orders, nextId + 1)
  {
    var r := [o] + orders;
    forall i, j | 0 <= i < j < |r| ensures r[i].id > r[j].id {
      assert r[j] == orders[j - 1];
      if i > 0 { assert r[i] == orders[i - 1]; }
    }
  }

  class TradingApp {
    var activeSymbol: CoinSymbol
    var market: map<CoinSymbol, MarketData>
    var cash: real
    var assets: map<CoinSymbol, Asset>
    var orders: seq<Order>        // newest first
    var aiEnabled: bool
    var aiLogs: seq<LogEntry>     // newest first
    var connection: ConnectionStatus
    var nextId: nat               // the next fresh order id

    /** The ledger as a Portfolio value. */
    function CurrentPortfolio(): Portfolio
      reads this
    {
      Portfolio(cash, assets)
    }

    ghost predicate Valid()
      reads this
    {
      Complete(market) && WellFormed(CurrentPortfolio()) && OrderLogValid(orders, nextId) && |aiLogs| <= AiLogCap
    }

    /** The state before any data arrives. */
    constructor ()
      ensures Valid()
      ensures activeSymbol == BTC && market == InitialMarket()
      ensures CurrentPortfolio() == InitialPortfolio()
      ensures orders == [] && !aiEnabled && aiLogs == [] && connection == Connecting && nextId == 0
    {
      activeSymbol := BTC;
      market := InitialMarket();
      cash := InitialCash;
      assets := InitialPortfolio().assets;
      orders := [];
      aiEnabled := false;
      aiLogs := [];
      connection := Connecting;
      nextId := 0;
    }

    method SelectSymbol(symbol: CoinSymbol)
      requires Valid()
      modifies this`activeSymbol
      ensures Valid() && activeSymbol == symbol
    {
      activeSymbol := symbol;
    }

    /** One ticker update: the connection is marked live, and only the ticked
        symbol's price, 24h change and history change. */
    method OnTick(symbol: CoinSymbol, price: real, change24h: real, time: string)
      requires Valid()
      modifies this`market, this`connection
      ensures Valid() && connection == Connected
      ensures market == old(market)[symbol := MarketData(symbol, price, change24h,
                                                         MergeTick(old(market)[symbol].history, time, price))]
    {
      connection := Connected;
      var current := market[symbol];
      var newHistory := current.history;
      if |newHistory| > 0 && newHistory[|newHistory| - 1].time == time {
        newHistory := newHistory[|newHistory| - 1 := newHistory[|newHistory| - 1].(price := price)];
      } else {
        newHistory := newHistory + [PricePoint(time, price)];
        if |newHistory| > HistoryCap {
          newHistory := newHistory[1..];
        }
      }
      if |newHistory| == 0 {
        newHistory := [PricePoint(time, price)];
      }
      assert newHistory == MergeTick(current.history, time, price);
      market := market[symbol := current.(price := price, change24h := change24h, history := newHistory)];
    }

    method OnSocketClose()
      requires Valid()
      modifies this`connection
      ensures Valid() && connection == Disconnected
    {
      connection := Disconnected;
    }

    /** Adds one entry at the head of the activity log, keeping at most AiLogCap. */
    method AddAiLog(time: string, msg: LogMessage, sentiment: Sentiment)
      requires Valid()
      modifies this`aiLogs
      ensures Valid()
      ensures aiLogs == AddLog(old(aiLogs), LogEntry(time, msg, sentiment))
    {
      var all := [LogEntry(time, msg, sentiment)] + aiLogs;
      aiLogs := if |all| > AiLogCap then all[..AiLogCap] else all;
    }

    /** The commit step of an accepted order (the portfolio updater): the
        ledger takes the fill without further validation. */
    method Commit(symbol: CoinSymbol, side: OrderSide, amount: real, price: real)
      requires Valid()
      modifies this`cash, this`assets
      ensures Valid()
      ensures CurrentPortfolio() == Fill(old(CurrentPortfolio()), symbol, side, amount, price)
    {
      var total := amount * price;
      var held := assets[symbol];
      ghost var before := CurrentPortfolio();
      if side == BUY {
        cash := cash - total;
        assets := assets[symbol := held.(balance := held.balance + amount,
                                         averageEntryPrice := WeightedEntry(held.balance, held.averageEntryPrice, amount, total))];
      } else {
        cash := cash + total;
        assets := assets[symbol := held.(balance := held.balance - amount)];
      }
      FillOnlyTouchesSymbol(before, symbol, side, amount, price);
    }

    /** Puts a freshly minted order at the head of the order list. */
    method RecordOrder(order: Order)
      requires Valid() && order.id == nextId && order.status == FILLED
      modifies this`orders, this`nextId
      ensures Valid()
      ensures orders == [order] + old(orders) && nextId == old(nextId) + 1
    {
      PrependFreshOrder(orders, nextId, order);
      orders := [order] + orders;
      nextId := nextId + 1;
    }

    /** A market order. It is refused, changing nothing, when a BUY costs more
        than the cash or a SELL sells more than is held. Otherwise the ledger
        takes the fill, exactly one FILLED order is put at the head of the
        order list, and an automated fill is also logged. */
    method ExecuteOrder(symbol: CoinSymbol, side: OrderSide, amount: real, price: real,
                        isAi: bool, reason: Option<string>, now: int, time: string)
      returns (rejection: Option<Rejection>)
      requires Valid()
      modifies this`cash, this`assets, this`orders, this`nextId, this`aiLogs
      ensures Valid()
      ensures rejection == Check(old(CurrentPortfolio()), symbol, side, amount, price)
      ensures rejection.Some? ==>
                && CurrentPortfolio() == old(CurrentPortfolio())
                && orders == old(orders) && nextId == old(nextId) && aiLogs == old(aiLogs)
      ensures rejection.None? ==>
                && CurrentPortfolio() == Fill(old(CurrentPortfolio()), symbol, side, amount, price)
                && orders == [Order(old(nextId), symbol, side, price, amount, amount * price, now,
                                    FILLED, isAi, reason)] + old(orders)
                && nextId == old(nextId) + 1
                && aiLogs == (if isAi
                              then AddLog(old(aiLogs), LogEntry(time, Executed(side, symbol, price),
                                                                if side == BUY then Positive else Negative))
                              else old(aiLogs))
      ensures amount >= 0.0 && price >= 0.0 && Solvent(old(CurrentPortfolio())) ==> Solvent(CurrentPortfolio())
    {
      var total := amount * price;
      var userBalance := assets[symbol].balance;
      var cashBalance := cash;
      if side == BUY {
        if total > cashBalance {
          return Some(InsufficientFunds);
        }
      } else {
        if amount > userBalance {
          return Some(InsufficientAsset);
        }
      }

      ghost var before := CurrentPortfolio();
      Commit(symbol, side, amount, price);
      if amount >= 0.0 && price >= 0.0 && Solvent(before) {
        FillPreservesSolvency(before, symbol, side, amount, price);
      }

      RecordOrder(Order(nextId, symbol, side, price, amount, total, now, FILLED, isAi, reason));
      if isAi {
        AddAiLog(time, Executed(side, symbol, price), if side == BUY then Positive else Negative);
      }
      rejection := None;
    }

    /** Switching the agent on or off logs the change; setting it to its
        current value does nothing. */
    method SetAiEnabled(on: bool, time: string)
      requires Valid()
      modifies this`aiEnabled, this`aiLogs
      ensures Valid() && aiEnabled == on
      ensures aiLogs == if on == old(aiEnabled) then old(aiLogs)
                        else AddLog(old(aiLogs), LogEntry(time, if on then Activated else Deactivated, Neutral))
    {
      if on != aiEnabled {
        aiEnabled := on;
        AddAiLog(time, if on then Activated else Deactivated, Neutral);
      }
    }

    /** One automation cycle on the active symbol with the policy's decision as
        input. Without history nothing happens; otherwise the analysis is logged
        and the plan of PlanCycle is carried out: an order goes through
        ExecuteOrder as automated, anything else is only logged. */
    method RunAiCycle(decision: AiDecision, now: int, time: string)
      returns (plan: Plan, rejection: Option<Rejection>)
      requires Valid()
      modifies this`cash, this`assets, this`orders, this`nextId, this`aiLogs
      ensures Valid()
      ensures var sym := old(activeSymbol);
              plan == PlanCycle(decision, old(market)[sym], old(cash), old(assets)[sym].balance)
      ensures plan == NoData ==>
                CurrentPortfolio() == old(CurrentPortfolio()) && orders == old(orders) &&
                nextId == old(nextId) && aiLogs == old(aiLogs) && rejection == None
      ensures plan != NoData ==>
                var sym := old(activeSymbol);
                ActedOn(plan, decision, sym, old(market)[sym].price, now, time,
                        AddLog(old(aiLogs), LogEntry(time, Analyzing(sym), Neutral)),
                        old(CurrentPortfolio()), old(orders), old(nextId), rejection)
      ensures plan.Place? && Solvent(old(CurrentPortfolio())) ==> rejection == None
    {
      var currentSymbol := activeSymbol;
      var data := market[currentSymbol];
      ghost var snapshot := CurrentPortfolio();
      rejection := None;
      plan := SizeAiOrder(decision, data, cash, assets[currentSymbol].balance);
      if plan == NoData {
        return;
      }
      AddAiLog(time, Analyzing(currentSymbol), Neutral);
      if plan.Place? && Solvent(snapshot) {
        PlacedOrderPassesCheck(decision, data, snapshot, currentSymbol);
      }
      rejection := ActOnPlan(plan, decision, currentSymbol, data.price, now, time);
    }

    /** The state after acting on `plan` from the given prior state: a hold or
        an undersized signal is only logged; a placed order has the effect of
        ExecuteOrder with the automated flag and the decision's reason. */
    ghost predicate ActedOn(plan: Plan, decision: AiDecision, symbol: CoinSymbol, price: real, now: int, time: string,
                            logs0: seq<LogEntry>, p0: Portfolio, orders0: seq<Order>, id0: nat,
                            rejection: Option<Rejection>)
      reads this
      requires plan != NoData && symbol in p0.assets
    {
      match plan
      case Hold =>
        && CurrentPortfolio() == p0 && orders == orders0 && nextId == id0 && rejection == None
        && aiLogs == AddLog(logs0, LogEntry(time, Holding(symbol, decision.reason), Neutral))
      case BelowMinimum =>
        && CurrentPortfolio() == p0 && orders == orders0 && nextId == id0 && rejection == None
        && aiLogs == AddLog(logs0, LogEntry(time, LowBalance(decision.action), Neutral))
      case Place(side, amount) =>
        && rejection == Check(p0, symbol, side, amount, price)
        && (rejection.Some? ==>
              CurrentPortfolio() == p0 && orders == orders0 && nextId == id0 && aiLogs == logs0)
        && (rejection.None? ==>
              && CurrentPortfolio() == Fill(p0, symbol, side, amount, price)
              && |orders| == |orders0| + 1 && orders[1..] == orders0
              && orders[0] == Order(id0, symbol, side, price, amount, amount * price, now,
                                  FILLED, true, Some(decision.reason))
              && nextId == id0 + 1
              && aiLogs == AddLog(logs0, LogEntry(time, Executed(side, symbol, price),
                                                  if side == BUY then Positive else Negative)))
    }

    /** Carries out a plan other than NoData: logs a hold or an undersized
        signal, or submits the order as automated. */
    method ActOnPlan(plan: Plan, decision: AiDecision, symbol: CoinSymbol, price: real, now: int, time: string)
      returns (rejection: Option<Rejection>)
      requires Valid() && plan != NoData
      modifies this`cash, this`assets, this`orders, this`nextId, this`aiLogs
      ensures Valid()
      ensures ActedOn(plan, decision, symbol, price, now, time,
                      old(aiLogs), old(CurrentPortfolio()), old(orders), old(nextId), rejection)
    {
      match plan
      case Hold =>
        AddAiLog(time, Holding(symbol, decision.reason), Neutral);
        rejection := None;
      case BelowMinimum =>
        AddAiLog(time, LowBalance(decision.action), Neutral);
        rejection := None;
      case Place(side, amount) =>
        rejection := ExecuteOrder(symbol, side, amount, price, true, Some(decision.reason), now, time);
    }
  }

  /** The sizing step of a cycle as the agent computes it, proved to agree with
      PlanCycle: returns NoData without history, Hold for HOLD or low
      confidence, otherwise sizes the trade and keeps it only above the
      minimum notional. */
  method SizeAiOrder(decision: AiDecision, data: MarketData, cash: real, holding: real) returns (plan: Plan)
    ensures plan == PlanCycle(decision, data, cash, holding)
  {
    if |data.history| == 0 {
      return NoData;
    }
    if decision.action.Trade? && decision.confidence > ConfidenceThreshold {
      var side := decision.action.side;
      var amount := 0.0;
      var finite := true;
      if side == BUY {
        var budget := cash * BuyCashFraction;
        if data.price == 0.0 {
          finite := false;   // budget / 0 is not a finite number and fails every comparison
        } else {
          amount := budget / data.price;
        }
      } else {
        amount := holding * SellHoldingFraction;
      }
      if finite && amount * data.price > MinNotional {
        plan := Place(side, amount);
      } else {
        plan := BelowMinimum;
      }
    } else {
      plan := Hold;
    }
  }
}
