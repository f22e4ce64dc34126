/** The token accountant (src/token-counter.ts): an estimate of a text's
    token count and the classification of a running total against the
    per-session limit. The ratio the source computes in floating point is
    computed here exactly, by cross-multiplying. */
module Tokens {
  import opened Wrappers
  import opened Text
  import opened Records

  /** A per-session token limit. */
  type Limit = m: int | m > 0 witness 15000

  /** A `TokenCounter`: both fields are set by the constructor and never
      change afterwards. `warningThreshold` is stored but read by nothing. */
  datatype TokenCounter = TokenCounter(maxTokens: Limit, warningThreshold: int)

  /** `new TokenCounter()` */
  const DefaultCounter := TokenCounter(15000, 12000)

  // ---------------------------------------------------------------------
  // countTokens

  /** The estimate used when the tokenizer throws: the text's JavaScript
      length divided by four, rounded up. */
  function FallbackEstimate(text: string): (n: nat)
    ensures 4 * n - 4 < Utf16Length(text) <= 4 * n
  {
    (Utf16Length(text) + 3) / 4
  }

  /** `countTokens(text)`. The tokenizer is foreign: `encode` gives the
      length of its encoding of a text, or `None` where it throws. */
  function CountTokens(encode: string -> Option<nat>, text: string): (n: nat)
    ensures encode(text).Some? ==> n == encode(text).value
    ensures encode(text).None? ==> 4 * n - 4 < Utf16Length(text) <= 4 * n
  {
    match encode(text)
    case Some(k) => k
    case None => FallbackEstimate(text)
  }

  /** The fallback gives 0 exactly for the empty text and at least one
      token for any other. */
  lemma FallbackZeroIffEmpty(text: string)
    ensures FallbackEstimate(text) == 0 <==> text == []
    ensures text != [] ==> FallbackEstimate(text) >= 1
  {
  }

  /** A longer text never gets a smaller fallback estimate. */
  lemma FallbackMonotone(short: string, long: string)
    requires Utf16Length(short) <= Utf16Length(long)
    ensures FallbackEstimate(short) <= FallbackEstimate(long)
  {
  }

  // ---------------------------------------------------------------------
  // getUsage

  /** `Math.round(current / limit * 100)`: the integer nearest to the exact
      percentage, halves rounded up. */
  function RoundedPercent(current: int, limit: Limit): (p: int)
    ensures 2 * limit * p - limit <= 200 * current < 2 * limit * p + limit
  {
    RoundedQuotient(100 * current, limit)
  }

  /** The band of `current / limit * 100`, compared unrounded against 60
      and 80 (the comparison `c / m * 100 < k` is `100 * c < k * m`). */
  function Band(current: int, limit: Limit): Suggestion {
    if 100 * current < 60 * limit then Continue
    else if 100 * current < 80 * limit then Warn
    else Break
  }

  /** `getUsage(currentTokens)`: the total and the limit echoed, the
      rounded percentage and the band of the unrounded one. */
  function GetUsage(counter: TokenCounter, current: int): (u: TokenUsage)
    ensures u.current == current && u.limit == counter.maxTokens
    ensures u.suggestion == Continue <==> 100 * current < 60 * counter.maxTokens
    ensures u.suggestion == Warn <==> 60 * counter.maxTokens <= 100 * current < 80 * counter.maxTokens
    ensures u.suggestion == Break <==> 80 * counter.maxTokens <= 100 * current
    ensures 2 * counter.maxTokens * u.percentage - counter.maxTokens <= 200 * current
    ensures 200 * current < 2 * counter.maxTokens * u.percentage + counter.maxTokens
  {
    TokenUsage(current, counter.maxTokens,
               RoundedPercent(current, counter.maxTokens), Band(current, counter.maxTokens))
  }

  /** The order of the bands. */
  function Rank(s: Suggestion): nat {
    match s
    case Continue => 0
    case Warn => 1
    case Break => 2
  }

  /** The warning threshold has no effect on the usage report. */
  lemma UsageIgnoresWarningThreshold(maxTokens: Limit, w1: int, w2: int, current: int)
    ensures GetUsage(TokenCounter(maxTokens, w1), current) == GetUsage(TokenCounter(maxTokens, w2), current)
  {
  }

  /** More tokens never move the report to a lower band. */
  lemma BandMonotone(counter: TokenCounter, fewer: int, more: int)
    requires fewer <= more
    ensures Rank(GetUsage(counter, fewer).suggestion) <= Rank(GetUsage(counter, more).suggestion)
  {
  }

  lemma MulMonotone(m: int, a: int, b: int)
    requires m > 0 && a <= b
    ensures m * a <= m * b
  {
  }

  /** The reported percentage and the band agree up to rounding: a
      percentage of 59 or less is always `Continue` and one of 81 or more is
      always `Break`, while `Continue` may report 60 and `Warn` may report
      80, because the band is taken before rounding. */
  lemma PercentageAgreesWithBand(counter: TokenCounter, current: int)
    ensures var u := GetUsage(counter, current);
      && (u.suggestion == Continue ==> u.percentage <= 60)
      && (u.suggestion == Warn ==> 60 <= u.percentage <= 80)
      && (u.suggestion == Break ==> u.percentage >= 80)
      && (u.percentage <= 59 ==> u.suggestion == Continue)
      && (u.percentage >= 81 ==> u.suggestion == Break)
  {
    var u := GetUsage(counter, current);
    var m, p := counter.maxTokens, u.percentage;
    // 2mp - m <= 200c < 2mp + m, so the exact percentage lies in [p - 1/2, p + 1/2)
    if u.suggestion == Continue && p > 60 {
      MulMonotone(2 * m, 61, p);
    }
    if u.suggestion != Continue && p < 60 {
      MulMonotone(2 * m, p, 59);
    }
    if u.suggestion == Break && p < 80 {
      MulMonotone(2 * m, p, 79);
    }
    if u.suggestion != Break && p > 80 {
      MulMonotone(2 * m, 81, p);
    }
  }

  /** Between no usage and the full limit the percentage stays in 0..100. */
  lemma PercentageInRange(counter: TokenCounter, current: int)
    requires 0 <= current <= counter.maxTokens
    ensures 0 <= GetUsage(counter, current).percentage <= 100
  {
    var m, p := counter.maxTokens, GetUsage(counter, current).percentage;
    if p > 100 {
      MulMonotone(2 * m, 101, p);
    }
  }

  /** The boundary cases of the default 15000-token limit. */
  lemma DefaultLimitExamples()
    ensures GetUsage(DefaultCounter, 0) == TokenUsage(0, 15000, 0, Continue)
    ensures GetUsage(DefaultCounter, 5000) == TokenUsage(5000, 15000, 33, Continue)
    ensures GetUsage(DefaultCounter, 8999) == TokenUsage(8999, 15000, 60, Continue)
    ensures GetUsage(DefaultCounter, 9000) == TokenUsage(9000, 15000, 60, Warn)
    ensures GetUsage(DefaultCounter, 10000) == TokenUsage(10000, 15000, 67, Warn)
    ensures GetUsage(DefaultCounter, 12000) == TokenUsage(12000, 15000, 80, Break)
    ensures GetUsage(DefaultCounter, 13000) == TokenUsage(13000, 15000, 87, Break)
  {
  }

  // ---------------------------------------------------------------------
  // shouldSuggestBreak

  const EndSessionSummary := "Consider ending this session to maintain context quality"
  const CheckpointSummary := "Consider creating a checkpoint or preparing to end session"

  /** `shouldSuggestBreak(currentTokens)`: nothing in the `Continue` band,
      a checkpoint in the `Warn` band, ending the session in the `Break`
      band; the reason quotes the rounded percentage. */
  function ShouldSuggestBreak(counter: TokenCounter, current: int): (r: Option<BreakSuggestion>)
    ensures var u := GetUsage(counter, current);
      && (r.None? <==> u.suggestion == Continue)
      && (u.suggestion == Warn ==> r == Some(BreakSuggestion(
            "High token usage (" + IntToString(u.percentage) + "% used)",
            current, CreateCheckpoint, CheckpointSummary)))
      && (u.suggestion == Break ==> r == Some(BreakSuggestion(
            "Approaching token limit (" + IntToString(u.percentage) + "% used)",
            current, EndSession, EndSessionSummary)))
  {
    var usage := GetUsage(counter, current);
    if usage.suggestion == Break then
      Some(BreakSuggestion("Approaching token limit (" + IntToString(usage.percentage) + "% used)",
                           current, EndSession, EndSessionSummary))
    else if usage.suggestion == Warn then
      Some(BreakSuggestion("High token usage (" + IntToString(usage.percentage) + "% used)",
                           current, CreateCheckpoint, CheckpointSummary))
    else None
  }

  /** The suggested action rises with the token total: once ending the
      session is suggested, more tokens never suggest less. */
  lemma SuggestionMonotone(counter: TokenCounter, fewer: int, more: int)
    requires fewer <= more
    ensures ShouldSuggestBreak(counter, fewer).Some? ==> ShouldSuggestBreak(counter, more).Some?
    ensures ShouldSuggestBreak(counter, fewer).Some? && ShouldSuggestBreak(counter, fewer).value.suggestedAction == EndSession
            ==> ShouldSuggestBreak(counter, more).value.suggestedAction == EndSession
  {
    BandMonotone(counter, fewer, more);
  }
}
