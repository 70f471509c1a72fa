/** Token accounting: the per-response delta read from a usage report, its merge
    with the costs priced for it ("current"), and the running session sum. */
module Ledger {
  import opened Wrappers
  import opened Events

  /** Token counts of one response before pricing. The input counts are a
      difference that nothing clamps, so they are signed. */
  datatype TokenCounts = TokenCounts(
    audioInputTokens: int,
    textInputTokens: int,
    cachedInputTokens: int,
    audioOutputTokens: int,
    textOutputTokens: int)

  /** What the cost calculator returns. */
  datatype Costs = Costs(inputCost: real, outputCost: real, totalCost: real)

  /** The per-token rate table handed to the cost calculator. */
  datatype Pricing = Pricing(
    audioInputCost: real,
    audioOutputCost: real,
    cachedAudioCost: real,
    textInputCost: real,
    textOutputCost: real)

  /** The cost calculator. Its definition is not part of this model, so every
      operation that prices a delta takes it as a parameter. */
  type CostFn = (TokenCounts, Pricing) -> Costs

  /** Token counts together with their costs: one response ("current") or the
      session total. */
  datatype Stats = Stats(
    audioInputTokens: int,
    textInputTokens: int,
    cachedInputTokens: int,
    audioOutputTokens: int,
    textOutputTokens: int,
    inputCost: real,
    outputCost: real,
    totalCost: real)

  /** `initialStats`: every count and every cost zero. */
  const Zero: Stats := Stats(0, 0, 0, 0, 0, 0.0, 0.0, 0.0)

  function Counts(s: Stats): TokenCounts
  {
    TokenCounts(s.audioInputTokens, s.textInputTokens, s.cachedInputTokens,
                s.audioOutputTokens, s.textOutputTokens)
  }

  function CostsOf(s: Stats): Costs
  {
    Costs(s.inputCost, s.outputCost, s.totalCost)
  }

  /** `{ ...newStats, ...costs }`: the counts and the costs side by side; both
      can be read back unchanged. */
  function Merge(d: TokenCounts, c: Costs): (r: Stats)
    ensures Counts(r) == d
    ensures CostsOf(r) == c
  {
    Stats(d.audioInputTokens, d.textInputTokens, d.cachedInputTokens,
          d.audioOutputTokens, d.textOutputTokens,
          c.inputCost, c.outputCost, c.totalCost)
  }

  /** Splitting a record into counts and costs and merging them loses nothing. */
  lemma MergeOfParts(s: Stats)
    ensures Merge(Counts(s), CostsOf(s)) == s
  {
  }

  /** Field-wise sum of all eight fields. */
  function Add(a: Stats, b: Stats): Stats
  {
    Stats(a.audioInputTokens + b.audioInputTokens,
          a.textInputTokens + b.textInputTokens,
          a.cachedInputTokens + b.cachedInputTokens,
          a.audioOutputTokens + b.audioOutputTokens,
          a.textOutputTokens + b.textOutputTokens,
          a.inputCost + b.inputCost,
          a.outputCost + b.outputCost,
          a.totalCost + b.totalCost)
  }

  lemma AddZero(a: Stats)
    ensures Add(a, Zero) == a
    ensures Add(Zero, a) == a
  {
  }

  lemma AddAssociative(a: Stats, b: Stats, c: Stats)
    ensures Add(Add(a, b), c) == Add(a, Add(b, c))
  {
  }

  /** Sum of a sequence of records, Zero for none. */
  function Sum(xs: seq<Stats>): Stats
  {
    if xs == [] then Zero else Add(xs[0], Sum(xs[1..]))
  }

  /** Summing in two chunks gives the sum of the whole. */
  lemma {:induction false} SumAppend(xs: seq<Stats>, ys: seq<Stats>)
    ensures Sum(xs + ys) == Add(Sum(xs), Sum(ys))
  {
    if xs == [] {
      assert xs + ys == ys;
      AddZero(Sum(ys));
    } else {
      assert (xs + ys)[1..] == xs[1..] + ys;
      SumAppend(xs[1..], ys);
      AddAssociative(xs[0], Sum(xs[1..]), Sum(ys));
    }
  }

  /** `cached_tokens_details`, or zeros when the report leaves it out. */
  function CachedBreakdown(d: InputDetails): CachedDetails
  {
    d.cachedDetails.GetOr(CachedDetails(0, 0))
  }

  /** The delta of one usage report: fresh input is the reported input minus its
      cached part, a missing cached count is zero, output is copied. */
  function Extract(u: Usage): (r: TokenCounts)
    ensures r.audioInputTokens + CachedBreakdown(u.input).audioTokens == u.input.audioTokens
    ensures r.textInputTokens + CachedBreakdown(u.input).textTokens == u.input.textTokens
    ensures u.input.cachedTokens.None? ==> r.cachedInputTokens == 0
    ensures u.input.cachedTokens.Some? ==> r.cachedInputTokens == u.input.cachedTokens.value
    ensures r.audioOutputTokens == u.output.audioTokens
    ensures r.textOutputTokens == u.output.textTokens
  {
    var cached := CachedBreakdown(u.input);
    TokenCounts(u.input.audioTokens - cached.audioTokens,
                u.input.textTokens - cached.textTokens,
                u.input.cachedTokens.GetOr(0),
                u.output.audioTokens,
                u.output.textTokens)
  }

  /** Without a cached breakdown the fresh input is the whole reported input. */
  lemma ExtractWithoutBreakdown(u: Usage)
    requires u.input.cachedDetails.None?
    ensures Extract(u).audioInputTokens == u.input.audioTokens
    ensures Extract(u).textInputTokens == u.input.textTokens
  {
  }

  /** A cached count above the reported count yields a negative delta: the
      subtraction is not clamped. */
  lemma ExtractCanGoNegative(u: Usage)
    ensures CachedBreakdown(u.input).audioTokens > u.input.audioTokens ==> Extract(u).audioInputTokens < 0
    ensures CachedBreakdown(u.input).textTokens > u.input.textTokens ==> Extract(u).textInputTokens < 0
  {
  }
}
