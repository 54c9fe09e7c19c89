/**
 * The (price, volume delta, timestamp) triple that the tick path hands to both
 * aggregators, and the sums and extremes over runs of such ticks that the
 * candle and VWAP specifications are stated with.
 */
module Ticks {

  datatype Tick = Tick(price: real, volume: int, timestamp: int)

  function Max(a: real, b: real): real { if a >= b then a else b }
  function Min(a: real, b: real): real { if a <= b then a else b }

  function MaxPrice(ticks: seq<Tick>): real
    requires ticks != []
  {
    if |ticks| == 1 then ticks[0].price else Max(MaxPrice(ticks[..|ticks| - 1]), ticks[|ticks| - 1].price)
  }

  function MinPrice(ticks: seq<Tick>): real
    requires ticks != []
  {
    if |ticks| == 1 then ticks[0].price else Min(MinPrice(ticks[..|ticks| - 1]), ticks[|ticks| - 1].price)
  }

  function TotalVolume(ticks: seq<Tick>): int
  {
    if ticks == [] then 0 else TotalVolume(ticks[..|ticks| - 1]) + ticks[|ticks| - 1].volume
  }

  lemma {:induction false} PriceBounds(ticks: seq<Tick>)
    requires ticks != []
    ensures forall i :: 0 <= i < |ticks| ==> MinPrice(ticks) <= ticks[i].price <= MaxPrice(ticks)
  {
    if |ticks| > 1 {
      PriceBounds(ticks[..|ticks| - 1]);
      forall i | 0 <= i < |ticks| - 1
        ensures MinPrice(ticks) <= ticks[i].price <= MaxPrice(ticks)
      {
        assert ticks[..|ticks| - 1][i] == ticks[i];
      }
    }
  }
}
