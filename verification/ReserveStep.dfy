/** The vault step between resolution and routing, in `chat_completions` of src/proxy/handlers.rs,
    with `reserve` of src/proxy/vault.rs and `estimate_tokens` of src/proxy/types.rs. */
module ReserveStep {
  import opened Common
  import opened Selector
  import opened Reserve
  import ResolveCandidates

  datatype ReserveReply = Replied(status: nat, id: Option<string>) | NoReply(connection: bool)

  datatype VaultSetup = VaultSetup(backpressured: bool, defaultReserveTokens: u32)

  // The request as far as billing is concerned; `chars` is the length of its messages.
  datatype Ask = Ask(token: Option<string>, chars: nat, maxTokens: Option<u32>)

  // The reservation to route with, or the status the request is refused with.
  datatype Funds = Free | Held(id: string) | Refused(status: nat)

  function InputEstimate(chars: nat): u32 {
    (if chars / 4 > 1 then chars / 4 else 1) % TWO_TO_THE_32
  }

  function RefusalStatus(r: ReserveReply): nat {
    match r
    case NoReply(connection) => if connection then 503 else 500
    case Replied(status, _) =>
      if status in {402, 403, 429} then status
      else if 500 <= status < 600 then 503
      else 500
  }

  predicate Granted(r: ReserveReply) {
    r.Replied? && 200 <= r.status < 300 && r.id.Some?
  }

  // The price of a quarter token a character, at least one, and of the token limit, where that fits 64 bits.
  predicate IsAmountDue(ask: Ask, setup: VaultSetup, r: Rates, amount: u64) {
    var input := (if ask.chars < 8 then 1 else ask.chars / 4) % 0x1_0000_0000;
    var output := if ask.maxTokens.Some? then ask.maxTokens.value else setup.defaultReserveTokens;
    var price := input * r.input + output * r.output + 1000 * r.baseFee;
    amount == price <==>
      price < TWO_TO_THE_64 && input * r.input * 1000 < TWO_TO_THE_64 && output * r.output * 1000 < TWO_TO_THE_64
  }

  lemma AmountIsDue(ask: Ask, setup: VaultSetup, r: Rates)
    ensures IsAmountDue(ask, setup, r, EstimateReserveMsats(InputEstimate(ask.chars),
                          if ask.maxTokens.Some? then ask.maxTokens.value else setup.defaultReserveTokens, r))
  {
    ReserveExactIff(InputEstimate(ask.chars),
                    if ask.maxTokens.Some? then ask.maxTokens.value else setup.defaultReserveTokens, r);
    assert ask.chars >= 8 <==> ask.chars / 4 > 1;
  }

  // 402, 403 and 429 are passed on, server errors and a vault out of reach are 503, all else is 500.
  predicate IsRefusal(status: nat, r: ReserveReply) {
    if r.Replied? && r.status in {402, 403, 429} then status == r.status
    else if r.Replied? then status == if 500 <= r.status <= 599 then 503 else 500
    else status == if r.connection then 503 else 500
  }

  lemma RefusalIs(r: ReserveReply)
    ensures IsRefusal(RefusalStatus(r), r)
  {
  }

  /** The step. The vault is asked at most once, and only for a request with a token while there is no
      backpressure; what it is asked for is the worst case over all providers of the model, whatever
      candidates were resolved, because the fallback to the first candidate's rates is dead. A request
      that goes on with a reservation carries a token limit, the one the amount was computed with. */
  method ReserveFunds(
    ps: seq<Provider>, q: Query, maxTier: Tier, permit: Tier -> nat -> ResolveCandidates.Permit,
    resolved: ResolveCandidates.Resolved, vault: Option<VaultSetup>, ask: Ask, reply: ReserveReply)
    returns (funds: Funds, amount: Option<u64>, maxTokens: Option<u32>)
    requires ResolveCandidates.IsResolution(ps, ResolveCandidates.AnswersOf(ps, q), maxTier, permit, Ok(resolved))
    ensures vault.None? ==> funds == Free && maxTokens == ask.maxTokens
    ensures amount.Some? <==> vault.Some? && !vault.value.backpressured && ask.token.Some?
    ensures funds.Held? <==> amount.Some? && Granted(reply)
    ensures funds.Held? ==> reply.id == Some(funds.id)
    ensures amount.Some? ==>
      && maxTokens == Some(if ask.maxTokens.Some? then ask.maxTokens.value else vault.value.defaultReserveTokens)
      && FrontierRates(ps, q.model).Some?
      && amount == Some(EstimateReserveMsats(InputEstimate(ask.chars), maxTokens.value,
                                             FrontierRates(ps, q.model).value))
    ensures amount.Some? ==> IsAmountDue(ask, vault.value, FrontierRates(ps, q.model).value, amount.value)
    ensures vault.Some? ==> !funds.Free?
    ensures funds.Refused? && amount.None? ==> funds.status == if vault.value.backpressured then 503 else 401
    ensures funds.Refused? && amount.Some? ==> funds.status == RefusalStatus(reply)
    ensures funds.Refused? && amount.Some? ==> IsRefusal(funds.status, reply)
  {
    maxTokens, amount := ask.maxTokens, None;
    if vault.None? {
      return Free, amount, maxTokens;
    }
    if vault.value.backpressured {
      return Refused(503), amount, maxTokens;
    }
    if ask.token.None? {
      return Refused(401), amount, maxTokens;
    }
    if maxTokens.None? {
      maxTokens := Some(vault.value.defaultReserveTokens);
    }
    ResolveCandidates.ResolvedAreEligible(ps, q, maxTier, permit, resolved);
    var fallback := RatesOf(ps[resolved.candidates[0]]);
    var frontier := FrontierRates(ps, q.model);
    var rates := if frontier.Some? then frontier.value else fallback;
    assert Eligible(ps, q, Some(resolved.tier), resolved.candidates[0]);
    FrontierIsDearest(ps, q.model);
    amount := Some(EstimateReserveMsats(InputEstimate(ask.chars), maxTokens.value, rates));
    AmountIsDue(ask, vault.value, rates);
    RefusalIs(reply);
    match reply {
      case Replied(status, id) =>
        if 200 <= status < 300 && id.Some? {
          funds := Held(id.value);
        } else {
          funds := Refused(RefusalStatus(reply));
        }
      case NoReply(_) =>
        funds := Refused(RefusalStatus(reply));
    }
  }
}
