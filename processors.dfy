/**
 * Processor tiers of the research tool: the fixed list of accepted tiers,
 * the substitution of the default tier for anything else, and the cost and
 * time tables shown to the user when approval is requested.
 */
module Processors {

  /** The tiers `research_architecture_decision` accepts, in the order it lists them. */
  const ValidProcessors: seq<string> :=
    ["lite", "base", "core", "core2x", "pro", "ultra", "ultra2x", "ultra4x", "ultra8x"]

  /** The tier used when the requested one is not in the list (also the tool's default argument). */
  const DefaultProcessor: string := "pro"

  /** What a table lookup shows when the tier has no entry. */
  const Unknown: string := "unknown"

  /** API cost per 1,000 queries, by tier. */
  const CostMap: map<string, string> := map[
    "lite" := "$5",
    "base" := "$10",
    "core" := "$30",
    "core2x" := "$60",
    "pro" := "$100",
    "ultra" := "$300",
    "ultra2x" := "$600",
    "ultra4x" := "$1,200",
    "ultra8x" := "$2,400"
  ]

  /** Expected completion time, by tier. */
  const TimeMap: map<string, string> := map[
    "lite" := "5-60s",
    "base" := "15-100s",
    "core" := "1-5min",
    "core2x" := "1-5min",
    "pro" := "3-9min",
    "ultra" := "5-25min",
    "ultra2x" := "5-25min",
    "ultra4x" := "8-30min",
    "ultra8x" := "8-30min"
  ]

  /**
   * The tier the tool actually uses for a requested one: a listed tier is
   * kept, anything else is replaced by the default.
   */
  function NormaliseProcessor(requested: string): (p: string)
    ensures p in ValidProcessors
    ensures requested in ValidProcessors ==> p == requested
    ensures requested !in ValidProcessors ==> p == DefaultProcessor
  {
    if requested in ValidProcessors then requested else DefaultProcessor
  }

  /** Normalising an already normalised tier changes nothing. */
  lemma NormaliseIdempotent(requested: string)
    ensures NormaliseProcessor(NormaliseProcessor(requested)) == NormaliseProcessor(requested)
  {
  }

  /** `dict.get(key, "unknown")` on one of the two tables. */
  function Lookup(table: map<string, string>, key: string): string {
    if key in table then table[key] else Unknown
  }

  /** Every accepted tier has an entry in both tables. */
  lemma EstimatesCoverEveryTier(p: string)
    requires p in ValidProcessors
    ensures p in CostMap && p in TimeMap
    ensures CostMap[p] != Unknown && TimeMap[p] != Unknown
  {
  }

  /** The facts the approval prompt shows about a pending research task. */
  datatype ApprovalRequest = ApprovalRequest(
    query: string,
    processor: string,
    estimatedTime: string,
    apiCost: string
  )

  function ApprovalRequestFor(query: string, processor: string): ApprovalRequest {
    ApprovalRequest(query, processor, Lookup(TimeMap, processor), Lookup(CostMap, processor))
  }

  /**
   * Once the requested tier is normalised, the prompt always shows the
   * table entries for it and never falls back to "unknown".
   */
  lemma ApprovalEstimatesKnown(query: string, requested: string)
    ensures var r := ApprovalRequestFor(query, NormaliseProcessor(requested));
      && r.query == query
      && r.processor in ValidProcessors
      && r.processor in TimeMap && r.estimatedTime == TimeMap[r.processor]
      && r.processor in CostMap && r.apiCost == CostMap[r.processor]
      && r.estimatedTime != Unknown && r.apiCost != Unknown
  {
    EstimatesCoverEveryTier(NormaliseProcessor(requested));
  }
}
