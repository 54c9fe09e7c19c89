/**
 * The put-call ratio of an option-chain snapshot and the signal drawn from it
 * (`calculate_pcr` and the rule in `background_signal_check`, main.py).
 */
module OptionSignal {
  import opened Wrappers

  /** The `"ce"` or `"pe"` entry of a strike; its `"oi"` key may be missing. */
  datatype Leg = Leg(oi: Option<int>)

  /** One strike's entry; either leg may be missing. */
  datatype Strike = Strike(ce: Option<Leg>, pe: Option<Leg>)

  /** The `"data"` block; `oc` lists the values of the strike dictionary in iteration order, and may be missing. */
  datatype ChainData = ChainData(oc: Option<seq<Strike>>)

  /** An option-chain response; its `"data"` block may be missing. */
  datatype ChainResponse = ChainResponse(data: Option<ChainData>)

  datatype Signal = BuyCall | BuyPut

  /** `leg.get("oi", 0)` on `values.get(side, {})`. */
  function LegOi(leg: Option<Leg>): int
  {
    if leg.Some? && leg.value.oi.Some? then leg.value.oi.value else 0
  }

  /** `response.get("data", {}).get("oc", {})`. */
  function Strikes(response: ChainResponse): seq<Strike>
  {
    if response.data.Some? && response.data.value.oc.Some? then response.data.value.oc.value else []
  }

  function TotalCallOi(strikes: seq<Strike>): int
  {
    if strikes == [] then 0 else TotalCallOi(strikes[..|strikes| - 1]) + LegOi(strikes[|strikes| - 1].ce)
  }

  function TotalPutOi(strikes: seq<Strike>): int
  {
    if strikes == [] then 0 else TotalPutOi(strikes[..|strikes| - 1]) + LegOi(strikes[|strikes| - 1].pe)
  }

  /** The put-call ratio: total put open interest over total call open interest, or 0 without call open interest. */
  function Pcr(response: ChainResponse): (pcr: real)
    ensures var calls, puts := TotalCallOi(Strikes(response)) as real, TotalPutOi(Strikes(response)) as real;
      (calls != 0.0 ==> pcr * calls == puts) && (calls == 0.0 ==> pcr == 0.0)
  {
    var calls, puts := TotalCallOi(Strikes(response)), TotalPutOi(Strikes(response));
    if calls == 0 then 0.0 else puts as real / calls as real
  }

  /** `calculate_pcr`: sums both legs' open interest over the strikes, then divides. */
  method CalculatePcr(response: ChainResponse) returns (pcr: real)
    ensures pcr == Pcr(response)
  {
    var strikes := Strikes(response);
    var totalPutOi := 0;
    var totalCallOi := 0;
    for i := 0 to |strikes|
      invariant totalCallOi == TotalCallOi(strikes[..i])
      invariant totalPutOi == TotalPutOi(strikes[..i])
    {
      assert strikes[..i + 1][..i] == strikes[..i];
      totalCallOi := totalCallOi + LegOi(strikes[i].ce);
      totalPutOi := totalPutOi + LegOi(strikes[i].pe);
    }
    assert strikes[..|strikes|] == strikes;
    if totalCallOi == 0 {
      return 0.0;
    }
    pcr := totalPutOi as real / totalCallOi as real;
  }

  /** `"BUY CALL" if pcr > 1.0 else "BUY PUT"`. */
  function SignalFor(pcr: real): (s: Signal)
    ensures s == BuyCall <==> pcr > 1.0
  {
    if pcr > 1.0 then BuyCall else BuyPut
  }

  /**
   * With positive call open interest the signal is to buy calls exactly when
   * puts outweigh calls; without call open interest it is always to buy puts.
   */
  lemma {:induction false} SignalFromTotals(response: ChainResponse)
    ensures var calls, puts := TotalCallOi(Strikes(response)), TotalPutOi(Strikes(response));
      (calls > 0 ==> (SignalFor(Pcr(response)) == BuyCall <==> puts > calls))
      && (calls == 0 ==> Pcr(response) == 0.0 && SignalFor(Pcr(response)) == BuyPut)
  {
    var calls, puts := TotalCallOi(Strikes(response)), TotalPutOi(Strikes(response));
    if calls > 0 {
      RatioAboveOne(puts as real, calls as real);
    }
  }

  /** A quotient by a positive number exceeds 1 exactly when the dividend exceeds the divisor. */
  lemma RatioAboveOne(p: real, c: real)
    requires c > 0.0
    ensures p / c > 1.0 <==> p > c
  {
    var q := p / c;
    assert q * c == p;
    assert p - c == (q - 1.0) * c;
  }

  /** Put open interest 150 against call open interest 100 gives a ratio of 1.5 and a call signal. */
  lemma PcrExample()
    ensures var response := ChainResponse(Some(ChainData(Some([
        Strike(Some(Leg(Some(60))), Some(Leg(Some(90)))),
        Strike(Some(Leg(Some(40))), Some(Leg(Some(60))))]))));
      Pcr(response) == 1.5 && SignalFor(Pcr(response)) == BuyCall
  {
    var strikes := [Strike(Some(Leg(Some(60))), Some(Leg(Some(90)))), Strike(Some(Leg(Some(40))), Some(Leg(Some(60))))];
    assert strikes[..1][..0] == [];
    assert TotalCallOi(strikes) == 100 && TotalPutOi(strikes) == 150;
  }

  /** A chain with no call open interest (here: legs with no `"oi"` key) gives a ratio of 0 and a put signal. */
  lemma NoCallOiExample()
    ensures var response := ChainResponse(Some(ChainData(Some([Strike(Some(Leg(None)), Some(Leg(Some(70))))]))));
      Pcr(response) == 0.0 && SignalFor(Pcr(response)) == BuyPut
  {
    var strikes := [Strike(Some(Leg(None)), Some(Leg(Some(70))))];
    assert strikes[..0] == [];
  }
}
