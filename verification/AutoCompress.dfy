/**
 When a conversation is compressed by itself: a cascade of price, provider, configuration and context-limit
 rules, as a function of the tokens in use.
 */
module AutoCompress {
  import opened Text

  const MIN_FALLBACK_INPUT_BUDGET := 8192

  /** What is known about the model. `price` is the input price at a number of tokens; `requestedOutput` is
      what a request would ask for, known from the model itself or only from its provider. */
  datatype Model = Model(contextLimit: Option<int>, price: int -> real, priced: bool,
                         requestedOutput: int, outputKnown: bool, providerOutputKnown: bool)

  /** `providerThreshold` is not positive where the provider has none. */
  datatype Rules = Rules(enabled: bool, serverCompacts: bool, claudeCompacts: bool,
                         providerThreshold: int, tokenThreshold: int, thresholdTokens: int, triggerPercent: nat)

  datatype Usage = Usage(outputTokens: int, assistantMessages: int)

  datatype Decision = Nothing | Run(reason: Reason, threshold: int) | WarnUnknownContext

  datatype Reason = PricingCliff | ProviderThreshold | TokenThreshold | ThresholdTokens | LocalThreshold

  function AverageOutput(u: Usage): (r: nat) {
    if u.outputTokens <= 0 then 0 else u.outputTokens / Max(u.assistantMessages, 1)
  }

  /** The price rises above that of an empty context, now or with one more answer. */
  predicate PastCliff(m: Model, tokens: int, u: Usage) {
    && tokens > 0 && m.priced
    && (m.price(tokens) > m.price(0) || m.price(tokens + AverageOutput(u)) > m.price(tokens))
  }

  predicate FallbackLeavesRoom(limit: int, output: int) {
    limit > 0 && output > 0 && limit - output > 0 && limit - output >= Max(limit / 10, MIN_FALLBACK_INPUT_BUDGET)
  }

  function RequestedOutput(m: Model, limit: int): Option<int> {
    if m.outputKnown then Some(m.requestedOutput)
    else if m.providerOutputKnown && FallbackLeavesRoom(limit, m.requestedOutput) then Some(m.requestedOutput)
    else None
  }

  /** Not positive when it does not apply. */
  function HeadroomThreshold(m: Model, limit: int): int {
    if limit <= 0 || RequestedOutput(m, limit).None? || m.requestedOutput <= 0 then 0
    else Max(limit - m.requestedOutput, 1)
  }

  function LocalThreshold(m: Model, r: Rules): Option<int> {
    if m.contextLimit.None? || m.contextLimit.value <= 0 then None
    else
      var limit := m.contextLimit.value;
      var percent := limit * (if r.triggerPercent == 0 then 80 else r.triggerPercent) / 100;
      var headroom := HeadroomThreshold(m, limit);
      Some(if 0 < headroom < percent then headroom else percent)
  }

  function Decide(m: Model, r: Rules, u: Usage, tokens: int): Decision {
    if !r.enabled || r.serverCompacts then Nothing
    else if PastCliff(m, tokens, u) then Run(PricingCliff, 0)
    else if r.providerThreshold > 0 then
      if tokens < r.providerThreshold then Nothing else Run(ProviderThreshold, r.providerThreshold)
    else if r.claudeCompacts then Nothing
    else if r.tokenThreshold > 0 && tokens >= r.tokenThreshold then Run(TokenThreshold, r.tokenThreshold)
    else if r.thresholdTokens > 0 then
      if tokens < r.thresholdTokens then Nothing else Run(ThresholdTokens, r.thresholdTokens)
    else match LocalThreshold(m, r)
         case None => WarnUnknownContext
         case Some(t) => if tokens < t then Nothing else Run(Reason.LocalThreshold, t)
  }

  /** No price is below that of an empty context, and a price once above it stays above it. Rising prices are of
      this kind, and so are prices that vary above the cliff. */
  ghost predicate Tiered(m: Model) { NeverBelow(m) && StaysAbove(m) }

  ghost predicate NeverBelow(m: Model) { forall a: nat :: m.price(a) >= m.price(0) }

  ghost predicate StaysAbove(m: Model) { forall a: nat, b: nat | a <= b && m.price(a) > m.price(0) :: m.price(b) > m.price(0) }

  /** Then the two tests of the cliff are one, on the tokens expected after the next answer. */
  lemma CliffIsOneTest(m: Model, tokens: nat, u: Usage)
    requires Tiered(m)
    ensures PastCliff(m, tokens, u) <==> tokens > 0 && m.priced && m.price(tokens + AverageOutput(u)) > m.price(0)
  {
    var later: nat := tokens + AverageOutput(u);
    assert m.price(tokens) >= m.price(0) && m.price(later) >= m.price(0);
  }

  /** Once a number of tokens starts a compression, every larger number does. */
  lemma MoreTokensStillRun(m: Model, r: Rules, u: Usage, tokens: nat, more: nat)
    requires Tiered(m) && tokens <= more && Decide(m, r, u, tokens).Run?
    ensures Decide(m, r, u, more).Run?
  {
    CliffIsOneTest(m, tokens, u);
    CliffIsOneTest(m, more, u);
    var a: nat, b: nat := tokens + AverageOutput(u), more + AverageOutput(u);
    assert a <= b;
    hide PastCliff, AverageOutput;
  }

  lemma {:induction false} LeastRun(m: Model, r: Rules, u: Usage, tokens: nat) returns (least: nat)
    requires Tiered(m) && Decide(m, r, u, tokens).Run?
    ensures Decide(m, r, u, least).Run? && forall t: nat | t < least :: !Decide(m, r, u, t).Run?
  {
    if tokens == 0 || !Decide(m, r, u, tokens - 1).Run? {
      least := tokens;
      forall t: nat | t < tokens ensures !Decide(m, r, u, t).Run? {
        if Decide(m, r, u, t).Run? { MoreTokensStillRun(m, r, u, t, tokens - 1); }
      }
    } else {
      least := LeastRun(m, r, u, tokens - 1);
    }
  }

  /** The cascade is one threshold: it runs from some number of tokens on, or never. */
  lemma CascadeIsOneThreshold(m: Model, r: Rules, u: Usage) returns (threshold: Option<nat>)
    requires Tiered(m)
    ensures forall tokens: nat :: Decide(m, r, u, tokens).Run? <==> threshold.Some? && tokens >= threshold.value
  {
    if some: nat :| Decide(m, r, u, some).Run? {
      var least := LeastRun(m, r, u, some);
      forall tokens: nat ensures Decide(m, r, u, tokens).Run? <==> tokens >= least {
        if tokens >= least { MoreTokensStillRun(m, r, u, least, tokens); }
      }
      threshold := Some(least);
    } else {
      threshold := None;
    }
  }

  /** Whatever the rules and the answers so far, more tokens still run. */
  ghost predicate NoGap(m: Model, r: Rules, u: Usage, tokens: nat, more: nat) {
    tokens <= more && Decide(m, r, u, tokens).Run? ==> Decide(m, r, u, more).Run?
  }

  /** A price that comes back down to the empty context's leaves a gap: the larger context is not compressed while
      the smaller one is. */
  lemma FallingPricesLeaveAGap(m: Model, a: nat, b: nat) returns (r: Rules, u: Usage)
    requires m.priced && a <= b && m.price(a) > m.price(0) >= m.price(b)
    ensures Decide(m, r, u, a).Run? && !Decide(m, r, u, b).Run? && !NoGap(m, r, u, a, b)
  {
    r, u := Rules(true, false, true, 0, 0, 0, 0), Usage(0, 0);
  }

  /** The cascade has no gap for any rules exactly when prices stay above the empty context's once they are. */
  lemma NoGapExactly(m: Model)
    requires m.priced && NeverBelow(m)
    ensures (forall r: Rules, u: Usage, tokens: nat, more: nat :: NoGap(m, r, u, tokens, more)) <==> StaysAbove(m)
  {
    if StaysAbove(m) {
      forall r: Rules, u: Usage, tokens: nat, more: nat ensures NoGap(m, r, u, tokens, more) {
        if tokens <= more && Decide(m, r, u, tokens).Run? { MoreTokensStillRun(m, r, u, tokens, more); }
      }
    } else {
      var a: nat, b: nat :| a <= b && m.price(a) > m.price(0) && m.price(b) <= m.price(0);
      var r, u := FallingPricesLeaveAGap(m, a, b);
    }
  }

  /** Where only the context limit decides and the output limit is known and smaller, not compressing leaves room
      for the whole output of the next request. */
  lemma NotRunningLeavesHeadroom(m: Model, r: Rules, u: Usage, tokens: int)
    requires r.enabled && !r.serverCompacts && r.providerThreshold <= 0 && !r.claudeCompacts && r.thresholdTokens <= 0
    requires m.contextLimit.Some? && RequestedOutput(m, m.contextLimit.value).Some?
    requires 0 < m.requestedOutput < m.contextLimit.value
    requires !Decide(m, r, u, tokens).Run?
    ensures tokens + m.requestedOutput < m.contextLimit.value
  {
  }
}
