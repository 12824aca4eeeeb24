// The compaction policy and what validating it guarantees to a pass.
module Config {
  import opened Core

  datatype Config = Config(
    modelContextTokens: int,
    softFraction: real,
    hardFraction: real,
    freshTailMessages: int,
    freshTailTokens: int,
    leafChunkTokens: int,
    leafTargetTokens: int,
    condensedTargetTokens: int,
    condenseFanout: int,
    condenseChunkTokens: int,
    maxDepth: int,
    truncateTokens: int,
    largeFileThreshold: int,
    maxIterations: int)
  {
    // The conversion to int truncates; the fraction and the budget are positive in a valid policy.
    function Soft(): int {
      (softFraction * modelContextTokens as real).Floor
    }

    function Validate(): Option<string> {
      var budget := ValidateBudget();
      if budget.Some? then budget
      else
        var chunking := ValidateChunking();
        if chunking.Some? then chunking else ValidateBounds()
    }

    function ValidateBudget(): Option<string> {
      if modelContextTokens <= 0 then Some("engine: model context tokens must be positive")
      else if softFraction <= 0.0 || softFraction >= 1.0 then Some("engine: soft fraction must be between 0 and 1")
      else if hardFraction <= softFraction || hardFraction > 1.0 then
        Some("engine: hard fraction must be greater than soft fraction and at most 1")
      else if leafTargetTokens >= Soft() || condensedTargetTokens >= Soft() then
        Some("engine: summary targets must be smaller than the soft budget")
      else None
    }

    function ValidateChunking(): Option<string> {
      if leafChunkTokens <= 0 || leafTargetTokens <= 0 || leafTargetTokens >= leafChunkTokens then
        Some("engine: leaf target must be positive and smaller than leaf chunk")
      else if condenseChunkTokens <= 0 || condensedTargetTokens <= 0
              || condensedTargetTokens >= condenseChunkTokens then
        Some("engine: condensed target must be positive and smaller than condensed chunk")
      else if truncateTokens <= 0 || truncateTokens >= Min(leafChunkTokens, condenseChunkTokens) then
        Some("engine: truncate tokens must be positive and smaller than both chunk limits")
      else None
    }

    function ValidateBounds(): Option<string> {
      if freshTailMessages < 0 || freshTailTokens < 0 || largeFileThreshold < 0 then
        Some("engine: fresh-tail and large-file limits cannot be negative")
      else if condenseFanout < 2 || condenseFanout > MAX_CONDENSE_FANOUT then
        Some("engine: condense fanout out of range")
      else if maxDepth <= 0 || maxDepth > MAX_SUMMARY_DEPTH then Some("engine: max depth out of range")
      else if maxIterations <= 0 || maxIterations > MAX_ITERATIONS then Some("engine: max iterations out of range")
      else None
    }

    predicate Valid() {
      Validate().None?
    }
  }

  // The limits of an accepted policy, group by group.
  predicate BudgetInside(c: Config) {
    && 0 < c.modelContextTokens && 0.0 < c.softFraction < c.hardFraction <= 1.0
    && c.leafTargetTokens < c.Soft() && c.condensedTargetTokens < c.Soft()
  }

  predicate ChunksInside(c: Config) {
    && 0 < c.leafTargetTokens < c.leafChunkTokens && 0 < c.condensedTargetTokens < c.condenseChunkTokens
    && 0 < c.truncateTokens && c.truncateTokens < c.leafChunkTokens && c.truncateTokens < c.condenseChunkTokens
  }

  predicate WorkBounded(c: Config) {
    && 0 <= c.freshTailMessages && 0 <= c.freshTailTokens && 0 <= c.largeFileThreshold
    && 2 <= c.condenseFanout <= MAX_CONDENSE_FANOUT
    && 0 < c.maxDepth <= MAX_SUMMARY_DEPTH && 0 < c.maxIterations <= MAX_ITERATIONS
  }

  lemma BudgetExactly(c: Config)
    ensures c.ValidateBudget().None? <==> BudgetInside(c)
  {
  }

  lemma ChunksExactly(c: Config)
    ensures c.ValidateChunking().None? <==> ChunksInside(c)
  {
  }

  lemma BoundsExactly(c: Config)
    ensures c.ValidateBounds().None? <==> WorkBounded(c)
  {
  }

  // The checks, which stop at the first that fails, accept exactly the policies
  // inside all limits.
  lemma ValidExactly(c: Config)
    ensures c.Valid() <==> BudgetInside(c) && ChunksInside(c) && WorkBounded(c)
  {
    BudgetExactly(c);
    ChunksExactly(c);
    BoundsExactly(c);
  }

  // Under an accepted policy the soft budget has room for more than a summary and
  // leaves some of the model's context.
  lemma SoftBudgetInside(c: Config)
    requires c.Valid()
    ensures Max(c.leafTargetTokens, c.condensedTargetTokens) < c.Soft() < c.modelContextTokens
    ensures c.truncateTokens < c.leafChunkTokens && 1 < c.Soft()
    ensures c.Soft() as real <= c.softFraction * c.modelContextTokens as real < (c.Soft() + 1) as real
  {
    ValidExactly(c);
    FractionBelow(c.softFraction, c.modelContextTokens);
  }

  lemma FractionBelow(fraction: real, n: int)
    requires 0 < n && 0.0 < fraction < 1.0
    ensures 0 <= (fraction * n as real).Floor < n
  {
    assert fraction * n as real < 1.0 * n as real;
  }

  const MAX_CONDENSE_FANOUT := 64
  const MAX_SUMMARY_DEPTH := 32
  const MAX_ITERATIONS := 10_000
}
