/**
  * The scrambling-method state (ScramblingMethodBase), the meta record a scramble produces, and
  * the boundary to the plan that builds the scrambled table.
  */
module Scrambling {
  import opened Values

  /** A per-tier cumulative probability distribution: one entry per block of the tier. */
  type Distribution = seq<real>

  /** The concrete method a coordinator instantiates. */
  datatype MethodKind =
    | Uniform
    | FastConverge(scratchpadSchema: string, primaryColumn: Option<string>)

  /** The distribution stored for a tier; None where the Java map answers null. */
  function StoredFor(stored: map<int32, Distribution>, tier: int32): (r: Option<Distribution>)
    ensures r.Some? <==> tier in stored
    ensures r.Some? ==> r.value == stored[tier]
  {
    if tier in stored then Some(stored[tier]) else None
  }

  /**
    * The store/get laws of the tier map: nothing is stored at first, the last store for a tier
    * wins, and a store leaves every other tier as it was.
    */
  lemma StoredForLaws(stored: map<int32, Distribution>, tier: int32, other: int32, first: Distribution,
                      second: Distribution)
    ensures StoredFor(map[], tier).None?
    ensures StoredFor(stored[tier := first][tier := second], tier) == Some(second)
    ensures other != tier ==> StoredFor(stored[tier := first], other) == StoredFor(stored, other)
  {
  }

  /**
    * The persisted description of one scrambled table: where it is, where it came from, the
    * block and tier columns with their counts, and each tier's cumulative distribution.
    */
  datatype ScrambleMeta = ScrambleMeta(
    newSchema: string,
    newTable: string,
    originalSchema: string,
    originalTable: string,
    blockColumn: string,
    blockCount: int32,
    tierColumn: string,
    tierCount: int32,
    cumulativeDistributions: map<int32, Option<Distribution>>)

  /** What a concrete method decides while the plan runs: its counts and per-tier distributions. */
  datatype Decision = Decision(blockCount: int32, tierCount: int32, distributions: map<int32, Distribution>)

  /** The method a plan is built for: which one, with which block size. */
  datatype MethodConfig = MethodConfig(kind: MethodKind, blockSize: long)

  /** The arguments ScramblingPlan.create receives. */
  datatype PlanRequest = PlanRequest(
    newSchema: string,
    newTable: string,
    originalSchema: string,
    originalTable: string,
    scramblingMethod: MethodConfig,
    options: map<string, string>)

  /** How building and running the plan ends: either step may throw. */
  datatype PlanRun =
    | PlanCreationFails(reason: string)
    | RunFails(reason: string)
    | RunCompletes(decision: Decision)

  /**
    * ScramblingMethodBase with the concrete method it belongs to. `maxBlockCount` and
    * `relativeSize` are fixed at construction; `blockSize` and the stored distributions are not.
    */
  class ScramblingMethod {
    const kind: MethodKind
    var blockSize: long
    const maxBlockCount: int32
    const relativeSize: real
    var storedProbDist: map<int32, Distribution>
    /** The counts the concrete methods keep, answered by getBlockCount and getTierCount. */
    var blockCount: int32
    var tierCount: int32

    constructor (kind: MethodKind, blockSize: long, maxBlockCount: int32, relativeSize: real)
      ensures this.kind == kind && this.blockSize == blockSize
      ensures this.maxBlockCount == maxBlockCount && this.relativeSize == relativeSize
      ensures storedProbDist == map[]
      ensures forall tier :: GetStoredCumulativeProbabilityDistributionForTier(tier).None?
    {
      this.kind := kind;
      this.blockSize := blockSize;
      this.maxBlockCount := maxBlockCount;
      this.relativeSize := relativeSize;
      storedProbDist := map[];
      blockCount, tierCount := 0, 0;
    }

    function GetBlockSize(): (r: long)
      reads this
      ensures r == blockSize
    {
      blockSize
    }

    /** Stores `dist` for `tier`, replacing what was there; every other tier keeps its own. */
    method StoreCumulativeProbabilityDistribution(tier: int32, dist: Distribution)
      modifies this`storedProbDist
      ensures storedProbDist == old(storedProbDist)[tier := dist]
      ensures GetStoredCumulativeProbabilityDistributionForTier(tier) == Some(dist)
      ensures forall t :: t != tier ==>
        GetStoredCumulativeProbabilityDistributionForTier(t) == old(GetStoredCumulativeProbabilityDistributionForTier(t))
    {
      storedProbDist := storedProbDist[tier := dist];
    }

    /** The distribution last stored for `tier`, or None if nothing was stored for it. */
    function GetStoredCumulativeProbabilityDistributionForTier(tier: int32): (r: Option<Distribution>)
      reads this
      ensures r.Some? <==> tier in storedProbDist
      ensures r.Some? ==> r.value == storedProbDist[tier]
    {
      StoredFor(storedProbDist, tier)
    }

    /**
      * The effect the concrete method's decision has on this object while the plan runs (that
      * code is not part of this model): the counts are set and the tiers' distributions stored.
      */
    method RecordDecision(d: Decision)
      modifies this`blockCount, this`tierCount, this`storedProbDist
      ensures blockCount == d.blockCount && tierCount == d.tierCount
      ensures storedProbDist == old(storedProbDist) + d.distributions
    {
      blockCount, tierCount := d.blockCount, d.tierCount;
      storedProbDist := storedProbDist + d.distributions;
    }
  }
}
