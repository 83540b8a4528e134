/** The fixed configuration of the terminal. */
module Constants {
  import opened Types

  /** The coins listed in the sidebar, in display order. */
  const SupportedCoins: seq<CoinSymbol> := [BTC, ETH, SOL, DOGE]

  /** The paper-trading cash balance every session starts with (USDT). */
  const InitialCash: real := 100000.0

  /** The length of the simulated history series. */
  const MockHistoryLength: nat := 50

  predicate NoDuplicates(coins: seq<CoinSymbol>)
  {
    forall i, j :: 0 <= i < j < |coins| ==> coins[i] != coins[j]
  }

  /** The supported list names every coin, and each exactly once. */
  lemma SupportedCoinsExact()
    ensures forall c: CoinSymbol :: c in SupportedCoins
    ensures NoDuplicates(SupportedCoins)
  {
    forall c: CoinSymbol ensures c in SupportedCoins {
      var k := match c case BTC => 0 case ETH => 1 case SOL => 2 case DOGE => 3;
      assert SupportedCoins[k] == c;
    }
  }
}
