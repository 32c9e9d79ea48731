/** How much is reserved for a request and how much it can cost: `frontier_rates` and
    `actual_cost_sats` in src/router/selector.rs, `estimate_reserve_msats` in src/proxy/vault.rs.
    Costs are exact here; the source computes the actual cost in f64. */
module Reserve {
  import opened Common
  import opened Selector

  datatype Rates = Rates(input: u64, output: u64, baseFee: u64)

  function RatesOf(p: Provider): Rates {
    Rates(p.inputRate, p.outputRate, p.baseFee)
  }

  function MaxOf(s: seq<nat>, f: nat -> u64): (m: u64)
    ensures forall i :: i in s ==> f(i) <= m
    ensures s != [] ==> exists i :: i in s && f(i) == m
  {
    if s == [] then 0
    else
      var rest := MaxOf(s[1..], f);
      assert s[0] in s;
      if f(s[0]) >= rest || |s| == 1 then f(s[0])
      else (assert forall i :: i in s[1..] ==> i in s; rest)
  }

  function InputRate(p: Provider): u64 { p.inputRate }
  function OutputRate(p: Provider): u64 { p.outputRate }
  function BaseFee(p: Provider): u64 { p.baseFee }

  function MaxRate(ps: seq<Provider>, model: string, rate: Provider -> u64): u64 {
    MaxOf(ServingModel(ps, model), (i: nat) => if i < |ps| then rate(ps[i]) else 0)
  }

  // The dearest rates for a model, each maximum taken on its own.
  function FrontierRates(ps: seq<Provider>, model: string): (r: Option<Rates>) {
    if ServingModel(ps, model) == [] then None
    else Some(Rates(MaxRate(ps, model, InputRate), MaxRate(ps, model, OutputRate), MaxRate(ps, model, BaseFee)))
  }

  // ----- the reservation, in wrapping 64-bit arithmetic

  function TokenMsats(tokens: u32, rate: u64): u64 {
    Mul64(Mul64(tokens, rate), 1000) / 1000
  }

  function EstimateReserveMsats(inTokens: u32, outTokens: u32, r: Rates): u64 {
    Add64(Add64(TokenMsats(inTokens, r.input), TokenMsats(outTokens, r.output)), Mul64(r.baseFee, 1000))
  }

  // The price of a request, in msats.
  function PriceMsats(inTokens: nat, outTokens: nat, r: Rates): nat {
    inTokens * r.input + outTokens * r.output + 1000 * r.baseFee
  }

  lemma WrapIsBelow(x: nat)
    ensures x % TWO_TO_THE_64 <= x
    ensures x % TWO_TO_THE_64 == x <==> x < TWO_TO_THE_64
  {
  }

  // One term never exceeds the product, and equals it exactly when the product in
  // thousandths fits.
  lemma TokenMsatsExactIff(tokens: u32, rate: u64)
    ensures TokenMsats(tokens, rate) <= tokens * rate
    ensures TokenMsats(tokens, rate) == tokens * rate <==> tokens * rate * 1000 < TWO_TO_THE_64
  {
    var x := tokens * rate;
    WrapIsBelow(x);
    var y := Mul64(tokens, rate);
    WrapIsBelow(y * 1000);
    assert TokenMsats(tokens, rate) == ((y * 1000) % TWO_TO_THE_64) / 1000;
  }

  /** The reservation is the exact price at the given rates if and only if nothing overflows:
      neither token term, counted in thousandths of a msat, nor the total. */
  lemma ReserveExactIff(inTokens: u32, outTokens: u32, r: Rates)
    ensures EstimateReserveMsats(inTokens, outTokens, r) == PriceMsats(inTokens, outTokens, r) <==>
      && inTokens * r.input * 1000 < TWO_TO_THE_64
      && outTokens * r.output * 1000 < TWO_TO_THE_64
      && PriceMsats(inTokens, outTokens, r) < TWO_TO_THE_64
    ensures PriceMsats(inTokens, outTokens, r) == inTokens * r.input + outTokens * r.output + 1000 * r.baseFee
  {
    TokenMsatsExactIff(inTokens, r.input);
    TokenMsatsExactIff(outTokens, r.output);
    var a, b := TokenMsats(inTokens, r.input), TokenMsats(outTokens, r.output);
    assert inTokens * r.input >= 0 && outTokens * r.output >= 0;
    WrapIsBelow(a + b);
    WrapIsBelow(1000 * r.baseFee);
    WrapIsBelow(Add64(a, b) + Mul64(r.baseFee, 1000));
  }

  const RATE_LIMIT: nat := 4_294_967

  lemma ProductsGrow(a: nat, b: nat, a': nat, b': nat)
    requires a <= a' && b <= b'
    ensures a * b <= a' * b'
  {
    assert a * b <= a * b' <= a' * b';
  }

  lemma ProductBound(t: nat, rate: nat)
    requires t < TWO_TO_THE_32 && rate <= RATE_LIMIT
    ensures t * rate <= (TWO_TO_THE_32 - 1) * RATE_LIMIT
  {
    ProductsGrow(t, rate, TWO_TO_THE_32 - 1, RATE_LIMIT);
  }

  /** Rates and fee up to RATE_LIMIT are safe for every token count; the next rate is not. */
  lemma RateLimitIsSafeAndTight(inTokens: u32, outTokens: u32, r: Rates)
    ensures r.input <= RATE_LIMIT && r.output <= RATE_LIMIT && r.baseFee <= RATE_LIMIT ==>
      EstimateReserveMsats(inTokens, outTokens, r) == PriceMsats(inTokens, outTokens, r)
    ensures TokenMsats(TWO_TO_THE_32 - 1, RATE_LIMIT + 1) < (TWO_TO_THE_32 - 1) * (RATE_LIMIT + 1)
  {
    if r.input <= RATE_LIMIT && r.output <= RATE_LIMIT && r.baseFee <= RATE_LIMIT {
      ProductBound(inTokens, r.input);
      ProductBound(outTokens, r.output);
      ReserveExactIff(inTokens, outTokens, r);
    }
    TokenMsatsExactIff(TWO_TO_THE_32 - 1, RATE_LIMIT + 1);
  }

  // ----- the actual cost

  function ActualCostSats(inTokens: nat, outTokens: nat, r: Rates): real {
    (inTokens as real * r.input as real + outTokens as real * r.output as real) / 1000.0 + r.baseFee as real
  }

  // `(c * 1000.0) as u64`, a cast that saturates.
  function ToMsats(sats: real): u64 {
    var msats := (sats * 1000.0).Floor;
    if msats < 0 then 0 else if msats < TWO_TO_THE_64 then msats else TWO_TO_THE_64 - 1
  }

  /** The charge is the price, as long as a u64 holds it. */
  lemma ActualCostIsPrice(inTokens: nat, outTokens: nat, r: Rates)
    ensures var price := PriceMsats(inTokens, outTokens, r);
      ToMsats(ActualCostSats(inTokens, outTokens, r)) == if price < TWO_TO_THE_64 then price else TWO_TO_THE_64 - 1
  {
    var a, b := inTokens * r.input, outTokens * r.output;
    assert inTokens as real * r.input as real == a as real;
    assert outTokens as real * r.output as real == b as real;
    assert a >= 0 && b >= 0;
    assert ActualCostSats(inTokens, outTokens, r) * 1000.0 == (a + b + 1000 * r.baseFee) as real;
  }

  lemma PriceIsMonotone(a: nat, b: nat, a': nat, b': nat, r: Rates, r': Rates)
    requires a <= a' && b <= b' && r.input <= r'.input && r.output <= r'.output && r.baseFee <= r'.baseFee
    ensures PriceMsats(a, b, r) <= PriceMsats(a', b', r')
  {
    ProductsGrow(a, r.input, a', r'.input);
    ProductsGrow(b, r.output, b', r'.output);
  }

  lemma MaxRateSpec(ps: seq<Provider>, model: string, rate: Provider -> u64)
    ensures forall i: nat :: i < |ps| && Serves(ps[i], model) ==> rate(ps[i]) <= MaxRate(ps, model, rate)
    ensures ServingModel(ps, model) != [] ==>
      exists i: nat :: i < |ps| && Serves(ps[i], model) && rate(ps[i]) == MaxRate(ps, model, rate)
  {
    var s := ServingModel(ps, model);
    var f := (i: nat) => if i < |ps| then rate(ps[i]) else 0;
    assert MaxRate(ps, model, rate) == MaxOf(s, f);
    forall i: nat | i < |ps| && Serves(ps[i], model) ensures rate(ps[i]) <= MaxOf(s, f) {
      assert i in s && f(i) <= MaxOf(s, f);
    }
    if s != [] {
      var i: nat :| i in s && f(i) == MaxOf(s, f);
      assert i < |ps| && Serves(ps[i], model);
    }
  }

  /** The worst case is a real one: the frontier rates are the least that no provider of the model
      exceeds, each charged by one of them. */
  lemma FrontierIsDearest(ps: seq<Provider>, model: string)
    ensures FrontierRates(ps, model).Some? <==> exists i: nat :: i < |ps| && Serves(ps[i], model)
    ensures FrontierRates(ps, model).Some? ==> var f := FrontierRates(ps, model).value;
      && (forall i: nat :: i < |ps| && Serves(ps[i], model) ==>
           ps[i].inputRate <= f.input && ps[i].outputRate <= f.output && ps[i].baseFee <= f.baseFee)
      && (exists i: nat :: i < |ps| && Serves(ps[i], model) && ps[i].inputRate == f.input)
      && (exists i: nat :: i < |ps| && Serves(ps[i], model) && ps[i].outputRate == f.output)
      && (exists i: nat :: i < |ps| && Serves(ps[i], model) && ps[i].baseFee == f.baseFee)
  {
    MaxRateSpec(ps, model, InputRate);
    MaxRateSpec(ps, model, OutputRate);
    MaxRateSpec(ps, model, BaseFee);
    assert forall i: nat :: i < |ps| && Serves(ps[i], model) ==> i in ServingModel(ps, model);
  }

  /** The reservation covers the cost. Whatever policy and tier the candidates were selected under,
      and whichever of them answers: with token counts not above the estimates the charge is at most
      the amount reserved at the frontier rates, provided the reservation did not overflow. The
      frontier rates exist, so the fallback to the first candidate's rates is never taken. */
  lemma ReservationCoversCost(
    ps: seq<Provider>, q: Query, maxTier: Option<Tier>, list: seq<nat>, k: nat,
    estIn: u32, estOut: u32, inTokens: u32, outTokens: u32)
    requires Select(ps, q, maxTier) == Ok(list) && k < |list|
    requires inTokens <= estIn && outTokens <= estOut
    ensures FrontierRates(ps, q.model).Some?
    ensures var f := FrontierRates(ps, q.model).value;
      EstimateReserveMsats(estIn, estOut, f) == PriceMsats(estIn, estOut, f) ==>
        ToMsats(ActualCostSats(inTokens, outTokens, RatesOf(ps[list[k]])))
          == PriceMsats(inTokens, outTokens, RatesOf(ps[list[k]])) <= EstimateReserveMsats(estIn, estOut, f)
  {
    SelectedAreEligible(ps, q, maxTier, list);
    assert Eligible(ps, q, maxTier, list[k]);
    FrontierIsDearest(ps, q.model);
    var f := FrontierRates(ps, q.model).value;
    PriceIsMonotone(inTokens, outTokens, estIn, estOut, RatesOf(ps[list[k]]), f);
    ActualCostIsPrice(inTokens, outTokens, RatesOf(ps[list[k]]));
  }

  /** When the reservation overflows, the estimate itself, spent at the very rates it was made with,
      costs more than was reserved. */
  lemma OverflowUnderReserves(inTokens: u32, outTokens: u32, r: Rates)
    ensures var reserved, price := EstimateReserveMsats(inTokens, outTokens, r), PriceMsats(inTokens, outTokens, r);
      && reserved <= price
      && reserved <= ToMsats(ActualCostSats(inTokens, outTokens, r))
      && (reserved != price && price < TWO_TO_THE_64 ==> reserved < ToMsats(ActualCostSats(inTokens, outTokens, r)))
  {
    TokenMsatsExactIff(inTokens, r.input);
    TokenMsatsExactIff(outTokens, r.output);
    ActualCostIsPrice(inTokens, outTokens, r);
    var a, b := TokenMsats(inTokens, r.input), TokenMsats(outTokens, r.output);
    WrapIsBelow(a + b);
    WrapIsBelow(1000 * r.baseFee);
    WrapIsBelow(Add64(a, b) + Mul64(r.baseFee, 1000));
  }
}
