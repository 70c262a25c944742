/** Exact prices of scripts/a4-credential-broker.py. A price string has at most six decimals, so it
    is a whole number of micro-USD per million tokens, and one nano-USD is a thousandth of a
    micro-USD per thousand tokens. */
module Pricing {

  const MESSAGE_OVERHEAD_TOKENS: nat := 16
  const REQUEST_OVERHEAD_TOKENS: nat := 32
  const MAX_PROMPT_BYTES: nat := 16000 // a selected-browser call may add encoded images to that

  /** Micro-USD per million tokens. */
  datatype Price = Price(input: nat, cachedInput: nat, cacheWrite: nat, output: nat)

  /** The token counts a provider reports; `settle_usage` refuses more cached than prompt tokens. */
  datatype Usage = Usage(prompt: nat, cached: nat, completion: nat)

  /** `nano_cost`: the least whole number of nano-USD that covers the exact price. */
  function NanoCost(tokens: nat, micro: nat): (nano: nat)
    ensures tokens * micro <= 1000 * nano < tokens * micro + 1000
  {
    (tokens * micro + 999) / 1000
  }

  /** The higher of the input and cache-write rates. */
  function RateIn(p: Price): nat {
    if p.input >= p.cacheWrite then p.input else p.cacheWrite
  }

  function PromptBound(promptBytes: nat): nat {
    promptBytes + MESSAGE_OVERHEAD_TOKENS + REQUEST_OVERHEAD_TOKENS
  }

  /** `worst_case`: tokens and nano-USD reserved before a call. */
  function WorstCaseTokens(promptBytes: nat, maxOutput: nat): nat {
    PromptBound(promptBytes) + maxOutput
  }

  function WorstCaseNano(promptBytes: nat, maxOutput: nat, p: Price): nat {
    NanoCost(PromptBound(promptBytes), RateIn(p)) + NanoCost(maxOutput, p.output)
  }

  /** What `settle_usage` charges for a usage report. */
  function SettledNano(u: Usage, p: Price): nat
    requires u.cached <= u.prompt
  {
    NanoCost(u.cached, p.cachedInput) + NanoCost(u.prompt - u.cached, RateIn(p)) + NanoCost(u.completion, p.output)
  }

  /** The provider stays within the token counts the reservation allowed for. */
  predicate WithinBounds(u: Usage, promptBytes: nat, maxOutput: nat) {
    u.cached <= u.prompt <= PromptBound(promptBytes) && u.completion <= maxOutput
  }

  /** A cached token never costs more than the charged input rate. */
  predicate CheapCache(p: Price) {
    p.cachedInput <= RateIn(p)
  }

  /** A whole number of thousandths lies between the cached rate and the charged input rate, so that
      rounding up a cached part never costs more than charging it at the input rate would have. In
      particular every price in at most three decimals is such a price. */
  predicate AbsorbsRounding(p: Price) {
    CheapCache(p) && (p.cachedInput % 1000 == 0 || p.cachedInput / 1000 < RateIn(p) / 1000)
  }

  /** No usage within the worst-case token counts, of any call whose prompt has at most `cap` bytes, costs
      more than its reservation and `slack` nano-USD. */
  ghost predicate NeverOverBy(p: Price, cap: nat, slack: nat) {
    forall promptBytes: nat, maxOutput: nat, u {:trigger WithinBounds(u, promptBytes, maxOutput)} ::
      promptBytes <= cap && WithinBounds(u, promptBytes, maxOutput) ==>
        SettledNano(u, p) <= WorstCaseNano(promptBytes, maxOutput, p) + slack
  }

  lemma ProductsGrow(tokens: nat, more: nat, micro: nat, dearer: nat)
    requires tokens <= more && micro <= dearer
    ensures tokens * micro <= more * dearer
  {
    assert more * micro == tokens * micro + (more - tokens) * micro;
    assert more * dearer == more * micro + more * (dearer - micro);
  }

  lemma Monotone(tokens: nat, more: nat, micro: nat, dearer: nat)
    requires tokens <= more && micro <= dearer
    ensures NanoCost(tokens, micro) <= NanoCost(more, dearer)
  {
    ProductsGrow(tokens, more, micro, dearer);
  }

  /** Splitting a token count between two rates costs at most one nano-USD of extra rounding. */
  lemma SplitRounding(cached: nat, uncached: nat, cachedRate: nat, rate: nat)
    requires cachedRate <= rate
    ensures NanoCost(cached, cachedRate) + NanoCost(uncached, rate) <= NanoCost(cached + uncached, rate) + 1
    ensures cached == 0 ==> NanoCost(cached, cachedRate) + NanoCost(uncached, rate) <= NanoCost(cached + uncached, rate)
  {
    ProductsGrow(cached, cached, cachedRate, rate);
    assert (cached + uncached) * rate == cached * rate + uncached * rate;
  }

  /** A price with at most three decimals needs no rounding at all. */
  lemma Exact(tokens: nat, micro: nat)
    requires micro % 1000 == 0
    ensures 1000 * NanoCost(tokens, micro) == tokens * micro
  {
    var k := micro / 1000;
    assert tokens * micro == 1000 * (tokens * k) by {
      assert micro == 1000 * k;
      assert tokens * (1000 * k) == 1000 * (tokens * k);
    }
  }

  /** With a whole number of thousandths between the two rates, splitting costs nothing extra. */
  lemma SplitAbsorbed(cached: nat, uncached: nat, cachedRate: nat, between: nat, rate: nat)
    requires cachedRate <= between <= rate && between % 1000 == 0
    ensures NanoCost(cached, cachedRate) + NanoCost(uncached, rate) <= NanoCost(cached + uncached, rate)
  {
    Monotone(cached, cached, cachedRate, between);
    Exact(cached, between);
    ProductsGrow(cached, cached, between, rate);
    assert (cached + uncached) * rate == cached * rate + uncached * rate;
  }

  /** The whole number of thousandths that `AbsorbsRounding` speaks of. */
  lemma RateBetween(cachedRate: nat, rate: nat) returns (between: nat)
    requires cachedRate <= rate && (cachedRate % 1000 == 0 || cachedRate / 1000 < rate / 1000)
    ensures cachedRate <= between <= rate && between % 1000 == 0
  {
    between := if cachedRate % 1000 == 0 then cachedRate else 1000 * (rate / 1000);
  }

  /** A partly cached prompt, against a bound on it charged at the input rate. */
  lemma PromptCost(cached: nat, prompt: nat, bound: nat, cachedRate: nat, rate: nat)
    requires cached <= prompt <= bound && cachedRate <= rate
    ensures NanoCost(cached, cachedRate) + NanoCost(prompt - cached, rate) <= NanoCost(bound, rate) + 1
    ensures cached == 0 ==> NanoCost(cached, cachedRate) + NanoCost(prompt - cached, rate) <= NanoCost(bound, rate)
  {
    Monotone(prompt, bound, rate, rate);
    SplitRounding(cached, prompt - cached, cachedRate, rate);
  }

  lemma PromptCostAbsorbed(cached: nat, prompt: nat, bound: nat, cachedRate: nat, rate: nat)
    requires cached <= prompt <= bound && cachedRate <= rate
    requires cachedRate % 1000 == 0 || cachedRate / 1000 < rate / 1000
    ensures NanoCost(cached, cachedRate) + NanoCost(prompt - cached, rate) <= NanoCost(bound, rate)
  {
    var between := RateBetween(cachedRate, rate);
    Monotone(prompt, bound, rate, rate);
    SplitAbsorbed(cached, prompt - cached, cachedRate, between, rate);
  }

  /** The rounding bound: a provider that stays within the worst-case token counts, at a cached rate
      no higher than the charged input rate, overshoots the reserved tokens never and the reserved
      cost by at most one nano-USD, and not even by that when nothing was cached or when the price
      absorbs the rounding. */
  lemma SettlementWithinReservation(promptBytes: nat, maxOutput: nat, p: Price, u: Usage)
    requires WithinBounds(u, promptBytes, maxOutput) && CheapCache(p)
    ensures u.prompt + u.completion <= WorstCaseTokens(promptBytes, maxOutput)
    ensures SettledNano(u, p) <= WorstCaseNano(promptBytes, maxOutput, p) + 1
    ensures u.cached == 0 || AbsorbsRounding(p) ==> SettledNano(u, p) <= WorstCaseNano(promptBytes, maxOutput, p)
  {
    PromptCost(u.cached, u.prompt, PromptBound(promptBytes), p.cachedInput, RateIn(p));
    if AbsorbsRounding(p) {
      PromptCostAbsorbed(u.cached, u.prompt, PromptBound(promptBytes), p.cachedInput, RateIn(p));
    }
    Monotone(u.completion, maxOutput, p.output, p.output);
  }

  /** The extra nano-USD is real at every other price with a cheap cache: of a thousand prompt tokens,
      one cached token rounds up on its own while the other 999 cost no less. */
  lemma RoundingIsTight(p: Price) returns (promptBytes: nat, u: Usage)
    requires CheapCache(p) && !AbsorbsRounding(p)
    ensures promptBytes == 952 && u == Usage(1000, 1, 1) && WithinBounds(u, promptBytes, 1)
    ensures SettledNano(u, p) == WorstCaseNano(promptBytes, 1, p) + 1
  {
    OneOfAThousand(p.cachedInput, RateIn(p));
    promptBytes, u := 952, Usage(1000, 1, 1);
  }

  lemma OneOfAThousand(cachedRate: nat, rate: nat)
    requires cachedRate % 1000 != 0 && cachedRate <= rate && cachedRate / 1000 == rate / 1000
    ensures NanoCost(1, cachedRate) + NanoCost(999, rate) == NanoCost(1000, rate) + 1
  {
    var thousandths, rest := rate / 1000, rate % 1000;
    assert NanoCost(1, cachedRate) == thousandths + 1;
    assert 999 * rate + 999 == 1000 * (rate - thousandths) + (999 - rest);
    assert NanoCost(999, rate) == rate - thousandths;
    WholeThousands(1, rate);
  }

  /** At every price whose cached rate is above the charged input rate, a prompt that is all cached passes
      its reservation by one nano-USD for each thousand tokens, at least. */
  lemma DearCacheOvershoots(p: Price, bound: nat) returns (promptBytes: nat, u: Usage)
    requires !CheapCache(p)
    ensures PromptBound(promptBytes) == 1000 * (bound + 1)
    ensures u == Usage(PromptBound(promptBytes), PromptBound(promptBytes), 1) && WithinBounds(u, promptBytes, 1)
    ensures SettledNano(u, p) > WorstCaseNano(promptBytes, 1, p) + bound
  {
    var thousands := bound + 1;
    promptBytes, u := 1000 * thousands - 48, Usage(1000 * thousands, 1000 * thousands, 1);
    DearThousands(thousands, RateIn(p), p.cachedInput);
    assert PromptBound(promptBytes) == 1000 * thousands;
    assert NanoCost(0, RateIn(p)) == 0;
  }

  lemma WholeThousands(thousands: nat, micro: nat)
    ensures NanoCost(1000 * thousands, micro) == thousands * micro
  {
    assert (1000 * thousands) * micro == 1000 * (thousands * micro);
  }

  lemma DearThousands(thousands: nat, micro: nat, dearer: nat)
    requires micro < dearer
    ensures NanoCost(1000 * thousands, dearer) >= NanoCost(1000 * thousands, micro) + thousands
  {
    WholeThousands(thousands, dearer);
    WholeThousands(thousands, micro);
    assert thousands * dearer == thousands * micro + thousands * (dearer - micro);
    ProductsGrow(thousands, thousands, 1, dearer - micro);
  }

  /** Two rates on the same tokens, against their sum. */
  lemma RatesAdd(tokens: nat, micro: nat, more: nat)
    ensures NanoCost(tokens, micro + more) <= NanoCost(tokens, micro) + NanoCost(tokens, more)
    ensures NanoCost(tokens, micro) + NanoCost(tokens, more) <= NanoCost(tokens, micro + more) + 1
  {
    assert tokens * (micro + more) == tokens * micro + tokens * more;
  }

  /** What a dear cache costs beyond the reservation, to within one nano-USD: the whole prompt at the
      difference of the two rates. */
  lemma DearCacheExcess(promptBytes: nat, maxOutput: nat, p: Price, u: Usage)
    requires WithinBounds(u, promptBytes, maxOutput) && !CheapCache(p)
    ensures var excess := NanoCost(PromptBound(promptBytes), p.cachedInput - RateIn(p));
      && SettledNano(u, p) <= WorstCaseNano(promptBytes, maxOutput, p) + excess + 1
      && (u == Usage(PromptBound(promptBytes), PromptBound(promptBytes), maxOutput) ==>
            SettledNano(u, p) + 1 >= WorstCaseNano(promptBytes, maxOutput, p) + excess)
  {
    var bound, rate, more := PromptBound(promptBytes), RateIn(p), p.cachedInput - RateIn(p);
    RatesAdd(u.cached, rate, more);
    Monotone(u.cached, bound, more, more);
    PromptCost(u.cached, u.prompt, bound, rate, rate);
    Monotone(u.completion, maxOutput, p.output, p.output);
    RatesAdd(bound, rate, more);
    assert NanoCost(0, rate) == 0;
  }

  /** Exactly the prices at which no settlement ever passes its reservation, at the smallest cap the broker
      knows and at every larger one. */
  lemma NeverOverReservation(p: Price, cap: nat)
    requires cap >= MAX_PROMPT_BYTES
    ensures NeverOverBy(p, cap, 0) <==> AbsorbsRounding(p)
  {
    if AbsorbsRounding(p) {
      forall promptBytes: nat, maxOutput: nat, u | WithinBounds(u, promptBytes, maxOutput)
        ensures SettledNano(u, p) <= WorstCaseNano(promptBytes, maxOutput, p)
      {
        SettlementWithinReservation(promptBytes, maxOutput, p, u);
      }
    } else if CheapCache(p) {
      var promptBytes, u := RoundingIsTight(p);
    } else {
      var promptBytes, u := DearCacheOvershoots(p, 0);
    }
  }

  /** Exactly the prices at which every settlement stays within one nano-USD of its reservation. The same
      prices, and no others, for any larger slack that is below a thousandth of the longest prompt. */
  lemma NeverOverByMoreThanRounding(p: Price, cap: nat, slack: nat)
    requires slack >= 1 && PromptBound(cap) >= 1000 * (slack + 1)
    ensures NeverOverBy(p, cap, slack) <==> CheapCache(p)
  {
    if CheapCache(p) {
      forall promptBytes: nat, maxOutput: nat, u | WithinBounds(u, promptBytes, maxOutput)
        ensures SettledNano(u, p) <= WorstCaseNano(promptBytes, maxOutput, p) + slack
      {
        SettlementWithinReservation(promptBytes, maxOutput, p, u);
      }
    } else {
      var promptBytes, u := DearCacheOvershoots(p, slack);
    }
  }

  /** With a dear cache the least slack for a cap is known to within one nano-USD, whatever the cap. */
  lemma LeastSlack(p: Price, cap: nat, slack: nat)
    requires !CheapCache(p)
    ensures var excess := NanoCost(PromptBound(cap), p.cachedInput - RateIn(p));
      (slack > excess ==> NeverOverBy(p, cap, slack)) && (slack + 1 < excess ==> !NeverOverBy(p, cap, slack))
  {
    var more := p.cachedInput - RateIn(p);
    var excess := NanoCost(PromptBound(cap), more);
    if slack > excess {
      forall promptBytes: nat, maxOutput: nat, u | promptBytes <= cap && WithinBounds(u, promptBytes, maxOutput)
        ensures SettledNano(u, p) <= WorstCaseNano(promptBytes, maxOutput, p) + slack
      {
        DearCacheExcess(promptBytes, maxOutput, p, u);
        Monotone(PromptBound(promptBytes), PromptBound(cap), more, more);
      }
    }
    var u := Usage(PromptBound(cap), PromptBound(cap), 1);
    assert WithinBounds(u, cap, 1);
    DearCacheExcess(cap, 1, p, u);
  }
}
