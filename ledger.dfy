/** The paper-trading ledger: the funds and asset check of an order, the
    balance update of a fill, and the portfolio valuation shown in the header. */
module Ledger {
  import opened Types
  import opened Constants
  import opened Market

  datatype Rejection = InsufficientFunds | InsufficientAsset

  /** Every coin has an asset record, keyed by its own symbol. */
  predicate WellFormed(p: Portfolio)
  {
    forall c: CoinSymbol :: c in p.assets && p.assets[c].symbol == c
  }

  /** No cash and no coin balance is negative. */
  predicate Solvent(p: Portfolio)
  {
    p.cashBalance >= 0.0 && forall c :: c in p.assets ==> p.assets[c].balance >= 0.0
  }

  /** The starting portfolio: all cash, every coin at balance 0 and average 0. */
  function InitialPortfolio(): (p: Portfolio)
    ensures WellFormed(p) && Solvent(p)
    ensures p.cashBalance == InitialCash
    ensures forall c: CoinSymbol :: p.assets[c] == Asset(c, 0.0, Finite(0.0))
  {
    SupportedCoinsExact();
    Portfolio(InitialCash, map c | c in SupportedCoins :: Asset(c, 0.0, Finite(0.0)))
  }

  /** The validation step of an order: a BUY must not cost more than the cash
      on hand, a SELL must not sell more than is held. Amount and price are
      not validated. */
  function Check(p: Portfolio, symbol: CoinSymbol, side: OrderSide, amount: real, price: real): (r: Option<Rejection>)
    requires symbol in p.assets
    ensures r.None? <==> (side == BUY ==> amount * price <= p.cashBalance)
                         && (side == SELL ==> amount <= p.assets[symbol].balance)
    ensures r == Some(InsufficientFunds) ==> side == BUY
    ensures r == Some(InsufficientAsset) ==> side == SELL
  {
    match side
    case BUY => if amount * price > p.cashBalance then Some(InsufficientFunds) else None
    case SELL => if amount > p.assets[symbol].balance then Some(InsufficientAsset) else None
  }

  /** The volume-weighted average entry price after buying `amount` for `total`,
      computed as JavaScript does: a zero new balance divides by zero, and a
      non-finite average stays non-finite. */
  function WeightedEntry(balance: real, avg: EntryPrice, amount: real, total: real): (r: EntryPrice)
    ensures r.Finite? <==> avg.Finite? && balance + amount != 0.0
    ensures r.Finite? ==> r.value * (balance + amount) == balance * avg.value + total
  {
    match avg
    case NotFinite => NotFinite
    case Finite(a) =>
      if balance + amount == 0.0 then NotFinite
      else Finite((balance * a + total) / (balance + amount))
  }

  /** The commit step of an accepted order, applied without further validation. */
  function Fill(p: Portfolio, symbol: CoinSymbol, side: OrderSide, amount: real, price: real): (r: Portfolio)
    requires symbol in p.assets
    ensures r.assets.Keys == p.assets.Keys
    ensures r.assets[symbol].symbol == p.assets[symbol].symbol
    ensures r.cashBalance + r.assets[symbol].balance * price == p.cashBalance + p.assets[symbol].balance * price
  {
    var total := amount * price;
    var held := p.assets[symbol];
    match side
    case BUY =>
      Portfolio(p.cashBalance - total,
                p.assets[symbol := held.(balance := held.balance + amount,
                                         averageEntryPrice := WeightedEntry(held.balance, held.averageEntryPrice, amount, total))])
    case SELL =>
      Portfolio(p.cashBalance + total, p.assets[symbol := held.(balance := held.balance - amount)])
  }

  /** The exact effect of a fill on cash and on the traded asset. */
  lemma FillExact(p: Portfolio, symbol: CoinSymbol, side: OrderSide, amount: real, price: real)
    requires symbol in p.assets
    ensures var q := Fill(p, symbol, side, amount, price);
            var before, after := p.assets[symbol], q.assets[symbol];
            && after.symbol == before.symbol
            && (side == BUY ==>
                  && q.cashBalance == p.cashBalance - amount * price
                  && after.balance == before.balance + amount
                  && (before.averageEntryPrice.Finite? && before.balance + amount != 0.0 ==>
                        after.averageEntryPrice ==
                          Finite((before.balance * before.averageEntryPrice.value + amount * price) / (before.balance + amount)))
                  && (before.balance + amount == 0.0 ==> after.averageEntryPrice == NotFinite)
                  && (before.averageEntryPrice.NotFinite? ==> after.averageEntryPrice == NotFinite))
            && (side == SELL ==>
                  && q.cashBalance == p.cashBalance + amount * price
                  && after.balance == before.balance - amount
                  && after.averageEntryPrice == before.averageEntryPrice)
  {
  }

  /** A fill touches only the traded symbol and keeps the portfolio's shape. */
  lemma FillOnlyTouchesSymbol(p: Portfolio, symbol: CoinSymbol, side: OrderSide, amount: real, price: real)
    requires symbol in p.assets
    ensures var q := Fill(p, symbol, side, amount, price);
            && q.assets.Keys == p.assets.Keys
            && (forall c :: c in p.assets && c != symbol ==> q.assets[c] == p.assets[c])
            && (WellFormed(p) ==> WellFormed(q))
  {
  }

  /** An accepted order with a non-negative amount at a non-negative price keeps
      cash and every balance non-negative. */
  lemma FillPreservesSolvency(p: Portfolio, symbol: CoinSymbol, side: OrderSide, amount: real, price: real)
    requires symbol in p.assets
    requires Solvent(p) && amount >= 0.0 && price >= 0.0
    requires Check(p, symbol, side, amount, price) == None
    ensures Solvent(Fill(p, symbol, side, amount, price))
  {
    MulNonneg(amount, price);
  }

  /** Without the price precondition solvency fails: selling at a negative price
      is accepted and drives cash below zero. */
  lemma NegativePriceBreaksSolvency()
    ensures var p := InitialPortfolio().(cashBalance := 0.0);
            var p1 := p.(assets := p.assets[BTC := Asset(BTC, 1.0, Finite(0.0))]);
            && Solvent(p1)
            && Check(p1, BTC, SELL, 1.0, -1.0) == None
            && !Solvent(Fill(p1, BTC, SELL, 1.0, -1.0))
  {
  }

  /** Buying and then selling the same amount at the same price is always
      accepted on the way back and restores cash and balance exactly; the
      average entry price keeps the value set by the buy. */
  lemma BuyThenSellRestores(p: Portfolio, symbol: CoinSymbol, amount: real, price: real)
    requires symbol in p.assets
    requires p.assets[symbol].balance >= 0.0
    ensures var q := Fill(p, symbol, BUY, amount, price);
            var r := Fill(q, symbol, SELL, amount, price);
            && Check(q, symbol, SELL, amount, price) == None
            && r.cashBalance == p.cashBalance
            && r.assets.Keys == p.assets.Keys
            && r.assets[symbol].balance == p.assets[symbol].balance
            && r.assets[symbol].averageEntryPrice == q.assets[symbol].averageEntryPrice
            && (forall c :: c in p.assets && c != symbol ==> r.assets[c] == p.assets[c])
  {
  }

  function Min(a: real, b: real): real { if a < b then a else b }
  function MaxReal(a: real, b: real): real { if a < b then b else a }

  /** Buying a positive amount at a non-negative price onto a non-negative
      position gives a finite average that lies between the old average and the
      fill price (and equals the fill price when nothing was held). */
  lemma WeightedEntryBetween(balance: real, avg: real, amount: real, price: real)
    requires balance >= 0.0 && amount > 0.0
    ensures var r := WeightedEntry(balance, Finite(avg), amount, amount * price);
            && r.Finite?
            && Min(avg, price) <= r.value <= MaxReal(avg, price)
            && (balance == 0.0 ==> r.value == price)
  {
    var d := balance + amount;
    var x := (balance * avg + amount * price) / d;
    var lo, hi := Min(avg, price), MaxReal(avg, price);
    if balance == 0.0 {
      QuotientOfScaled(amount, price);
      assert x == amount * price / amount;
    } else {
      MulMono(lo, avg, balance);
      MulMono(avg, hi, balance);
      MulMono(lo, price, amount);
      MulMono(price, hi, amount);
      QuotientBounds(balance * avg + amount * price, d, lo, hi);
    }
  }

  lemma QuotientOfScaled(a: real, b: real)
    requires a != 0.0
    ensures (0.0 * 0.0 + a * b) / (0.0 + a) == b
  {
  }

  lemma QuotientBounds(n: real, d: real, lo: real, hi: real)
    requires d > 0.0 && lo * d <= n <= hi * d
    ensures lo <= n / d <= hi
  {
    var x := n / d;
    assert x * d == n;
    ScaleCancels(lo, x, d);
    ScaleCancels(x, hi, d);
  }

  lemma MulNonnegIf(a: real, b: real)
    ensures a >= 0.0 && b >= 0.0 ==> a * b >= 0.0
  {
    if a >= 0.0 && b >= 0.0 {
      MulNonneg(a, b);
    }
  }

  lemma MulNonneg(a: real, b: real)
    requires a >= 0.0 && b >= 0.0
    ensures a * b >= 0.0
  {
  }

  lemma MulMono(a: real, b: real, c: real)
    requires a <= b && c >= 0.0
    ensures a * c <= b * c
  {
  }

  lemma ScaleCancels(a: real, b: real, d: real)
    requires d > 0.0 && a * d <= b * d
    ensures a <= b
  {
  }

  /** The sum of balance times current price over `coins`. */
  function Holdings(p: Portfolio, market: map<CoinSymbol, MarketData>, coins: seq<CoinSymbol>): (r: real)
    requires forall c :: c in coins ==> c in p.assets && c in market
  {
    if coins == [] then 0.0
    else p.assets[coins[0]].balance * market[coins[0]].price + Holdings(p, market, coins[1..])
  }

  /** Non-negative balances at non-negative prices are worth a non-negative amount. */
  lemma {:induction false} HoldingsNonnegative(p: Portfolio, market: map<CoinSymbol, MarketData>, coins: seq<CoinSymbol>)
    requires forall c :: c in coins ==> c in p.assets && c in market
    ensures NonnegativeAt(p, market, coins) ==> Holdings(p, market, coins) >= 0.0
  {
    if coins != [] {
      MulNonnegIf(p.assets[coins[0]].balance, market[coins[0]].price);
      HoldingsNonnegative(p, market, coins[1..]);
    }
  }

  /** Every listed coin has a non-negative balance and a non-negative price. */
  predicate NonnegativeAt(p: Portfolio, market: map<CoinSymbol, MarketData>, coins: seq<CoinSymbol>)
    requires forall c :: c in coins ==> c in p.assets && c in market
  {
    forall c :: c in coins ==> p.assets[c].balance >= 0.0 && market[c].price >= 0.0
  }

  /** Cash plus the market value of every supported coin. */
  function PortfolioValue(p: Portfolio, market: map<CoinSymbol, MarketData>): (r: real)
    requires WellFormed(p) && Complete(market)
    ensures Solvent(p) && (forall c: CoinSymbol :: market[c].price >= 0.0) ==> r >= p.cashBalance >= 0.0
  {
    HoldingsNonnegative(p, market, SupportedCoins);
    p.cashBalance + Holdings(p, market, SupportedCoins)
  }

  /** Profit and loss against the starting cash, absolute and in percent. */
  function TotalPnl(p: Portfolio, market: map<CoinSymbol, MarketData>): (r: real)
    requires WellFormed(p) && Complete(market)
    ensures r > 0.0 <==> PortfolioValue(p, market) > InitialCash
    ensures r < 0.0 <==> PortfolioValue(p, market) < InitialCash
  {
    PortfolioValue(p, market) - InitialCash
  }

  function PnlPercent(p: Portfolio, market: map<CoinSymbol, MarketData>): (r: real)
    requires WellFormed(p) && Complete(market)
    ensures r * InitialCash == TotalPnl(p, market) * 100.0
    ensures r > 0.0 <==> TotalPnl(p, market) > 0.0
  {
    TotalPnl(p, market) / InitialCash * 100.0
  }

  /** Coins with no balance contribute nothing, whatever their price. */
  lemma {:induction false} EmptyHoldingsAreWorthless(p: Portfolio, market: map<CoinSymbol, MarketData>, coins: seq<CoinSymbol>)
    requires forall c :: c in coins ==> c in p.assets && c in market
    requires forall c :: c in coins ==> p.assets[c].balance == 0.0
    ensures Holdings(p, market, coins) == 0.0
  {
    if coins != [] {
      EmptyHoldingsAreWorthless(p, market, coins[1..]);
    }
  }

  /** Two portfolios that agree on the balances of `coins` hold the same value. */
  lemma {:induction false} HoldingsAgree(p: Portfolio, q: Portfolio, market: map<CoinSymbol, MarketData>, coins: seq<CoinSymbol>)
    requires forall c :: c in coins ==> c in p.assets && c in q.assets && c in market
    requires forall c :: c in coins ==> p.assets[c].balance == q.assets[c].balance
    ensures Holdings(p, market, coins) == Holdings(q, market, coins)
  {
    if coins != [] {
      HoldingsAgree(p, q, market, coins[1..]);
    }
  }

  /** Changing the balance of one coin that occurs once in `coins` changes the
      held value by the balance change times that coin's price. */
  lemma {:induction false} HoldingsChangeAt(p: Portfolio, q: Portfolio, market: map<CoinSymbol, MarketData>,
                                            coins: seq<CoinSymbol>, symbol: CoinSymbol)
    requires forall c :: c in coins ==> c in p.assets && c in q.assets && c in market
    requires NoDuplicates(coins) && symbol in coins
    requires forall c :: c in coins && c != symbol ==> p.assets[c].balance == q.assets[c].balance
    ensures Holdings(q, market, coins) ==
            Holdings(p, market, coins) + (q.assets[symbol].balance - p.assets[symbol].balance) * market[symbol].price
  {
    var pr := market[symbol].price;
    var pb, qb := p.assets[symbol].balance, q.assets[symbol].balance;
    if coins[0] == symbol {
      assert symbol !in coins[1..] by {
        forall i | 0 <= i < |coins[1..]| ensures coins[1..][i] != symbol {
          assert coins[1..][i] == coins[i + 1];
        }
      }
      HoldingsAgree(p, q, market, coins[1..]);
      assert qb * pr == pb * pr + (qb - pb) * pr;
    } else {
      assert NoDuplicates(coins[1..]) by {
        forall i, j | 0 <= i < j < |coins[1..]| ensures coins[1..][i] != coins[1..][j] {
          assert coins[1..][i] == coins[i + 1] && coins[1..][j] == coins[j + 1];
        }
      }
      HoldingsChangeAt(p, q, market, coins[1..], symbol);
    }
  }

  /** The value of a portfolio that differs from another only at `symbol`
      differs by the change in cash plus the balance change at its price. */
  lemma ValueChangeAt(p: Portfolio, q: Portfolio, market: map<CoinSymbol, MarketData>, symbol: CoinSymbol)
    requires WellFormed(p) && WellFormed(q) && Complete(market)
    requires forall c :: c != symbol ==> p.assets[c].balance == q.assets[c].balance
    ensures PortfolioValue(q, market) == PortfolioValue(p, market) + (q.cashBalance - p.cashBalance) +
            (q.assets[symbol].balance - p.assets[symbol].balance) * market[symbol].price
  {
    SupportedCoinsExact();
    HoldingsChangeAt(p, q, market, SupportedCoins, symbol);
  }

  /** A fill at the quoted price of its symbol leaves the portfolio value
      unchanged: cash and holdings move by the same notional. */
  lemma FillAtQuotePreservesValue(p: Portfolio, market: map<CoinSymbol, MarketData>,
                                  symbol: CoinSymbol, side: OrderSide, amount: real)
    requires WellFormed(p) && Complete(market)
    ensures var q := Fill(p, symbol, side, amount, market[symbol].price);
            WellFormed(q) && PortfolioValue(q, market) == PortfolioValue(p, market)
  {
    var price := market[symbol].price;
    var q := Fill(p, symbol, side, amount, price);
    FillOnlyTouchesSymbol(p, symbol, side, amount, price);
    ValueKeptAtQuote(p, q, market, symbol);
  }

  /** Moving value between cash and one coin at that coin's quoted price leaves
      the portfolio value unchanged. */
  lemma ValueKeptAtQuote(p: Portfolio, q: Portfolio, market: map<CoinSymbol, MarketData>, symbol: CoinSymbol)
    requires WellFormed(p) && WellFormed(q) && Complete(market)
    requires forall c :: c != symbol ==> p.assets[c].balance == q.assets[c].balance
    requires q.cashBalance + q.assets[symbol].balance * market[symbol].price ==
             p.cashBalance + p.assets[symbol].balance * market[symbol].price
    ensures PortfolioValue(q, market) == PortfolioValue(p, market)
  {
    ValueChangeAt(p, q, market, symbol);
    var pb, qb, price := p.assets[symbol].balance, q.assets[symbol].balance, market[symbol].price;
    assert (qb - pb) * price == qb * price - pb * price;
  }

  /** In the starting state the portfolio is worth exactly the starting cash,
      so both P&L figures are zero, whatever the prices. */
  lemma InitialValueIsInitialCash(market: map<CoinSymbol, MarketData>)
    requires Complete(market)
    ensures PortfolioValue(InitialPortfolio(), market) == InitialCash
    ensures TotalPnl(InitialPortfolio(), market) == 0.0
    ensures PnlPercent(InitialPortfolio(), market) == 0.0
  {
    EmptyHoldingsAreWorthless(InitialPortfolio(), market, SupportedCoins);
  }

  /** Buying 1 BTC at 50000 from the starting state and then selling 0.5 BTC at
      60000 leaves 80000 cash and 0.5 BTC with the entry price still 50000. */
  lemma BuyThenPartialSellScenario()
    ensures var p0 := InitialPortfolio();
            var p1 := Fill(p0, BTC, BUY, 1.0, 50000.0);
            var p2 := Fill(p1, BTC, SELL, 0.5, 60000.0);
            && Check(p0, BTC, BUY, 1.0, 50000.0) == None
            && p1.cashBalance == 50000.0 && p1.assets[BTC] == Asset(BTC, 1.0, Finite(50000.0))
            && Check(p1, BTC, SELL, 0.5, 60000.0) == None
            && p2.cashBalance == 80000.0 && p2.assets[BTC] == Asset(BTC, 0.5, Finite(50000.0))
  {
  }

  /** A BUY whose notional is twice the starting cash is refused for funds. */
  lemma OversizedBuyScenario()
    ensures Check(InitialPortfolio(), BTC, BUY, 4.0, 50000.0) == Some(InsufficientFunds)
  {
  }
}
