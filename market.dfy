/** Per-symbol market state and the merge of one ticker update into a
    symbol's price history (the ticker callback of App.tsx). */
module Market {
  import opened Types
  import opened Constants

  /** The largest length the ticker callback lets a series grow to by appending. */
  const HistoryCap: nat := 50

  function Max(a: nat, b: nat): nat { if a < b then b else a }

  /** Every coin has a market record, keyed by its own symbol. */
  predicate Complete(m: map<CoinSymbol, MarketData>)
  {
    forall c: CoinSymbol :: c in m && m[c].symbol == c
  }

  /** The market as it stands before any data arrives: every coin at price 0
      with no change and an empty history. */
  function InitialMarket(): (m: map<CoinSymbol, MarketData>)
    ensures Complete(m)
    ensures forall c: CoinSymbol :: m[c] == MarketData(c, 0.0, 0.0, [])
  {
    SupportedCoinsExact();
    map c | c in SupportedCoins :: MarketData(c, 0.0, 0.0, [])
  }

  /** True when a tick labelled `time` belongs to the last point of `h`. */
  predicate SameBucket(h: seq<PricePoint>, time: string)
  {
    |h| > 0 && h[|h| - 1].time == time
  }

  /** The history after one tick. A tick in the same time bucket as the last
      point overwrites that point's price; any other tick is appended and the
      oldest point is dropped when the series would then exceed HistoryCap. */
  function MergeTick(h: seq<PricePoint>, time: string, price: real): (r: seq<PricePoint>)
    ensures |r| >= 1 && r[|r| - 1] == PricePoint(time, price)
    ensures |r| <= Max(|h|, HistoryCap)
  {
    if SameBucket(h, time) then
      h[|h| - 1 := h[|h| - 1].(price := price)]
    else
      var appended := h + [PricePoint(time, price)];
      if |appended| > HistoryCap then appended[1..] else appended
  }

  /** A same-bucket tick keeps the length and every earlier point; any other
      tick grows the series by one until the cap and otherwise keeps its
      length, and what stays of the old series is its newest suffix. */
  lemma MergeTickShape(h: seq<PricePoint>, time: string, price: real)
    ensures var r := MergeTick(h, time, price);
            && (SameBucket(h, time) ==> |r| == |h| && r[..|r| - 1] == h[..|h| - 1])
            && (!SameBucket(h, time) ==>
                  && |r| == (if |h| + 1 > HistoryCap then |h| else |h| + 1)
                  && r[..|r| - 1] == h[|h| + 1 - |r|..])
  {
    var r := MergeTick(h, time, price);
    if !SameBucket(h, time) && |h| + 1 > HistoryCap {
      assert r == (h + [PricePoint(time, price)])[1..];
      assert r[..|r| - 1] == h[1..];
    }
  }

  /** The history after a run of ticks, oldest tick first. */
  function MergeTicks(h: seq<PricePoint>, ticks: seq<PricePoint>): seq<PricePoint>
    decreases |ticks|
  {
    if ticks == [] then h
    else MergeTicks(MergeTick(h, ticks[0].time, ticks[0].price), ticks[1..])
  }

  /** However many ticks arrive, a series never grows past the larger of its
      starting length and HistoryCap. */
  lemma {:induction false} MergeTicksBounded(h: seq<PricePoint>, ticks: seq<PricePoint>)
    ensures |MergeTicks(h, ticks)| <= Max(|h|, HistoryCap)
    decreases |ticks|
  {
    if ticks != [] {
      var h' := MergeTick(h, ticks[0].time, ticks[0].price);
      assert |h'| <= Max(|h|, HistoryCap);
      MergeTicksBounded(h', ticks[1..]);
    }
  }

  /** After at least one tick, the series ends in the latest tick. */
  lemma {:induction false} MergeTicksEndsInLatest(h: seq<PricePoint>, ticks: seq<PricePoint>)
    requires ticks != []
    ensures var r := MergeTicks(h, ticks); |r| >= 1 && r[|r| - 1] == ticks[|ticks| - 1]
    decreases |ticks|
  {
    var h' := MergeTick(h, ticks[0].time, ticks[0].price);
    if |ticks| > 1 {
      MergeTicksEndsInLatest(h', ticks[1..]);
      assert ticks[1..][|ticks| - 2] == ticks[|ticks| - 1];
    }
  }

  /** A series seeded at or below the cap stays at or below it. */
  lemma CappedSeriesStaysCapped(h: seq<PricePoint>, ticks: seq<PricePoint>)
    requires |h| <= HistoryCap
    ensures |MergeTicks(h, ticks)| <= HistoryCap
  {
    MergeTicksBounded(h, ticks);
  }

  /** The cap in the ticker callback has the value of the mock history length. */
  lemma HistoryCapIsMockLength()
    ensures HistoryCap == MockHistoryLength
  {
  }
}
