/** Token budgets: when one is valid, what fits it, and the stricter budget of an overflow retry. */
module ContextBudget {
  import opened Prelude

  datatype BudgetError =
    | ContextTooSmall | NegativeOutput | NegativeInput | NegativeMargin | BadCharsPerToken | NoRoom

  datatype Budget = Budget(
    maxContextTokens: int,
    reservedOutputTokens: int,
    reservedInputTokens: int,
    safetyMarginTokens: int,
    charsPerToken: real
  ) {
    function InputTokens(): int {
      maxContextTokens - reservedOutputTokens - reservedInputTokens - safetyMarginTokens
    }

    predicate Valid() {
      maxContextTokens >= 1 && reservedOutputTokens >= 0 && reservedInputTokens >= 0 &&
      safetyMarginTokens >= 0 && charsPerToken > 0.0 && InputTokens() >= 1
    }

    /** The first check that fails decides the error. */
    function Checked(): (r: Result<Budget, BudgetError>)
      ensures r.Ok? <==> Valid()
      ensures r.Ok? ==> r.value == this
    {
      if maxContextTokens < 1 then Err(ContextTooSmall)
      else if reservedOutputTokens < 0 then Err(NegativeOutput)
      else if reservedInputTokens < 0 then Err(NegativeInput)
      else if safetyMarginTokens < 0 then Err(NegativeMargin)
      else if charsPerToken <= 0.0 then Err(BadCharsPerToken)
      else if InputTokens() < 1 then Err(NoRoom)
      else Ok(this)
    }
  }

  function Tokens(chars: nat, charsPerToken: real): int
    requires charsPerToken > 0.0
  {
    Ceil(chars as real / charsPerToken)
  }

  /** An encoded list of `chars` characters is within the budget. */
  predicate Within(chars: nat, b: Budget)
    requires b.Valid()
  {
    Tokens(chars, b.charsPerToken) <= b.InputTokens()
  }

  const OVERFLOW_RETRY_CHARS_PER_TOKEN := 2.5
  const OVERFLOW_RETRY_MARGIN_MULTIPLIER := 4
  const OVERFLOW_RETRY_MIN_MARGIN_TOKENS := 16_000

  /** The agent's own limits, fixed at construction. */
  datatype Limits = Limits(
    maxContextTokens: int, maxTokens: int, safetyMarginTokens: int, charsPerToken: real)

  function BudgetFor(l: Limits, reservedInput: nat, overflowRetry: bool): Budget {
    if overflowRetry then
      var wanted := Max(l.safetyMarginTokens * OVERFLOW_RETRY_MARGIN_MULTIPLIER,
                        OVERFLOW_RETRY_MIN_MARGIN_TOKENS);
      var most := l.maxContextTokens - l.maxTokens - reservedInput - 1;
      Budget(l.maxContextTokens, l.maxTokens, reservedInput, Min(wanted, Max(0, most)),
             if l.charsPerToken <= OVERFLOW_RETRY_CHARS_PER_TOKEN then l.charsPerToken
             else OVERFLOW_RETRY_CHARS_PER_TOKEN)
    else
      Budget(l.maxContextTokens, l.maxTokens, reservedInput, l.safetyMarginTokens, l.charsPerToken)
  }

  /** One budget is at most as generous as another in every respect that decides what fits. */
  predicate Stricter(tight: Budget, loose: Budget) {
    tight.Valid() && loose.Valid() &&
    tight.InputTokens() <= loose.InputTokens() && tight.charsPerToken <= loose.charsPerToken
  }

  /** A valid first budget makes the retry budget valid too, and stricter; it is strictly smaller
      unless the first one already was the single token every budget must leave; and both in plain numbers. */
  lemma RetryIsStricter(l: Limits, reservedInput: nat)
    requires BudgetFor(l, reservedInput, false).Valid()
    ensures Stricter(BudgetFor(l, reservedInput, true), BudgetFor(l, reservedInput, false))
    ensures var first := BudgetFor(l, reservedInput, false).InputTokens();
            var retry := BudgetFor(l, reservedInput, true).InputTokens();
            (retry == first) <==> (first == 1)
    ensures var room := l.maxContextTokens - l.maxTokens - reservedInput;
            var wanted := if 4 * l.safetyMarginTokens > 16_000 then 4 * l.safetyMarginTokens else 16_000;
            BudgetFor(l, reservedInput, false).InputTokens() == room - l.safetyMarginTokens &&
            BudgetFor(l, reservedInput, true).InputTokens() == (if room - wanted > 1 then room - wanted else 1) &&
            BudgetFor(l, reservedInput, false).charsPerToken == l.charsPerToken &&
            BudgetFor(l, reservedInput, true).charsPerToken == (if l.charsPerToken > 2.5 then 2.5 else l.charsPerToken)
  {
  }

  /** x / d is the only quotient: it is bounded by any q with x <= q * d. */
  lemma QuotientBound(x: real, d: real, q: real)
    requires d > 0.0 && x <= q * d
    ensures x / d <= q
  {
    assert (q - x / d) * d == q * d - x;
  }

  /** What fits a stricter budget, or is shorter, also fits. */
  lemma WithinMonotone(chars: nat, fewer: nat, tight: Budget, loose: Budget)
    requires Stricter(tight, loose) && fewer <= chars && Within(chars, tight)
    ensures Within(fewer, loose)
  {
    var q := chars as real / tight.charsPerToken;
    assert q * tight.charsPerToken == chars as real && q >= 0.0;
    assert q * tight.charsPerToken <= q * loose.charsPerToken;
    QuotientBound(fewer as real, loose.charsPerToken, q);
  }
}
