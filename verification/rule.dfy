/** The rule that turns a correlated scalar-aggregation subquery under a
    lateral join into a plain join. It fires on LateralJoin nodes, checks a
    chain of guards, delegates the rewrite, and refuses a rewrite that makes
    no progress. */
module Rule {
  import opened Wrappers
  import opened Plan
  import opened Memo
  import opened Searcher

  /** The cardinality oracle `isScalar(node, lookup)`; its definition is not
      part of this model, so the rule is proved for every oracle. */
  type ScalarOracle = (PlanNode, Lookup) -> bool

  /** What the rewriter hands back: the new subtree and the allocator state
      after it drew fresh node ids and symbols. */
  datatype Rewritten = Rewritten(node: PlanNode, allocators: Allocators)

  /** `rewriteScalarAggregation(lateralJoin, aggregation)`, with the session's
      allocators made explicit; its definition is not part of this model. */
  type AggregationRewriter = (PlanNode, PlanNode, Allocators) -> Rewritten

  /** A rule pattern: the kind of node the engine may offer the rule. */
  datatype Pattern = NodeOfKind(kind: NodeKind)

  const PATTERN: Pattern := NodeOfKind(LateralJoinKind)

  predicate Matches(pattern: Pattern, node: PlanNode) {
    KindOf(node) == pattern.kind
  }

  /** The engine offers the rule lateral joins and nothing else. */
  lemma PatternSelectsLateralJoins(node: PlanNode)
    ensures Matches(PATTERN, node) <==> node.LateralJoin?
  {
  }

  /** The rule's answer: a replacement (None = not applicable) and the
      allocator state afterwards. */
  datatype RuleResult = RuleResult(replacement: Option<PlanNode>, allocators: Allocators)

  /** What the rewriter is entitled to assume about its arguments, in terms of
      the walk rather than the search: a correlated lateral join over a scalar
      subquery, and an ungrouped Aggregation reached from the resolved
      subquery through wrappers only. */
  ghost predicate RewriterPrecondition(lookup: Lookup, isScalar: ScalarOracle,
                                       lateralJoin: PlanNode, aggregation: PlanNode)
  {
    && lateralJoin.LateralJoin?
    && |lateralJoin.correlation| > 0
    && isScalar(Resolve(lookup, lateralJoin.subquery), lookup)
    && aggregation.Aggregation?
    && |aggregation.groupingKeys| == 0
    && ReachableThroughWrappers(lookup, Resolve(lookup, lateralJoin.subquery), aggregation)
  }

  /** The guard chain of `apply`: the aggregation to rewrite, or None when the
      node is not a lateral join, has no correlation, has a non-scalar
      subquery, or has no ungrouped aggregation below its subquery. */
  function RewriteTarget(lookup: Lookup, isScalar: ScalarOracle, node: PlanNode): (r: Option<PlanNode>)
    requires WellFormed(lookup)
    requires node.LateralJoin? ==> Closed(lookup, node.subquery)
    ensures r.Some? ==>
              && node.LateralJoin? && |node.correlation| > 0
              && isScalar(Resolve(lookup, node.subquery), lookup)
              && r.value.Aggregation? && |r.value.groupingKeys| == 0
              && Closed(lookup, r.value)
  {
    if !node.LateralJoin? then None
    else
      var subquery := Resolve(lookup, node.subquery);
      if |node.correlation| == 0 || !isScalar(subquery, lookup) then None
      else
        var aggregation := FindAggregation(lookup, subquery);
        if !(aggregation.Some? && |aggregation.value.groupingKeys| == 0) then None
        else aggregation
  }

  /** The call into the rewriter; its requires are the facts the guard chain
      has established by the time `apply` calls it, and together they give the
      rewriter its precondition: the aggregation is ungrouped and reached from
      the resolved subquery through wrappers only. */
  function RewriteScalarAggregation(rewriter: AggregationRewriter, lookup: Lookup, isScalar: ScalarOracle,
                                    lateralJoin: PlanNode, aggregation: PlanNode, allocators: Allocators): Rewritten
    requires WellFormed(lookup)
    requires lateralJoin.LateralJoin? && Closed(lookup, lateralJoin.subquery)
    requires |lateralJoin.correlation| > 0
    requires isScalar(Resolve(lookup, lateralJoin.subquery), lookup)
    requires FindAggregation(lookup, Resolve(lookup, lateralJoin.subquery)) == Some(aggregation)
    requires aggregation.Aggregation? && |aggregation.groupingKeys| == 0
    ensures RewriterPrecondition(lookup, isScalar, lateralJoin, aggregation)
  {
    FindAggregationFinds(lookup, Resolve(lookup, lateralJoin.subquery), aggregation);
    rewriter(lateralJoin, aggregation, allocators)
  }

  /** The guard chain lets exactly the rewriter's precondition through. */
  lemma RewriteTargetSpec(lookup: Lookup, isScalar: ScalarOracle, node: PlanNode)
    requires WellFormed(lookup)
    requires node.LateralJoin? ==> Closed(lookup, node.subquery)
    ensures forall aggregation :: RewriteTarget(lookup, isScalar, node) == Some(aggregation) <==>
              RewriterPrecondition(lookup, isScalar, node, aggregation)
  {
    forall aggregation
      ensures RewriteTarget(lookup, isScalar, node) == Some(aggregation) <==>
                RewriterPrecondition(lookup, isScalar, node, aggregation)
    {
      if node.LateralJoin? {
        FindAggregationFinds(lookup, Resolve(lookup, node.subquery), aggregation);
      }
    }
  }

  /** `apply(node, lookup, idAllocator, symbolAllocator, session)`. */
  function Apply(node: PlanNode, lookup: Lookup, isScalar: ScalarOracle,
                 rewriter: AggregationRewriter, allocators: Allocators): (r: RuleResult)
    requires WellFormed(lookup)
    requires node.LateralJoin? ==> Closed(lookup, node.subquery)
    // the guards: each failure answers "not applicable" and draws no ids or symbols
    ensures !Matches(PATTERN, node) ==> r == RuleResult(None, allocators)
    ensures node.LateralJoin? && |node.correlation| == 0 ==> r == RuleResult(None, allocators)
    ensures node.LateralJoin? && !isScalar(Resolve(lookup, node.subquery), lookup) ==>
              r == RuleResult(None, allocators)
    ensures node.LateralJoin? ==>
              var found := FindAggregation(lookup, Resolve(lookup, node.subquery));
              (found.None? || |found.value.groupingKeys| > 0) ==> r == RuleResult(None, allocators)
    // a replacement is never a lateral join, and comes from a rewriter call
    // whose precondition held
    ensures r.replacement.Some? ==> !r.replacement.value.LateralJoin?
    ensures r.replacement.Some? ==>
              exists aggregation :: RewriterPrecondition(lookup, isScalar, node, aggregation)
                && r.replacement.value == rewriter(node, aggregation, allocators).node
    // once the guards pass, the rewriter's output is returned as is unless it
    // is again a lateral join; either way its allocator state is kept
    ensures forall aggregation :: RewriterPrecondition(lookup, isScalar, node, aggregation) ==>
              && r.allocators == rewriter(node, aggregation, allocators).allocators
              && (rewriter(node, aggregation, allocators).node.LateralJoin? ==> r.replacement.None?)
              && (!rewriter(node, aggregation, allocators).node.LateralJoin? ==>
                    r.replacement == Some(rewriter(node, aggregation, allocators).node))
  {
    RewriteTargetSpec(lookup, isScalar, node);
    match RewriteTarget(lookup, isScalar, node)
    case None =>
      RuleResult(None, allocators)
    case Some(aggregation) =>
      var rewritten := RewriteScalarAggregation(rewriter, lookup, isScalar, node, aggregation, allocators);
      if rewritten.node.LateralJoin? then RuleResult(None, rewritten.allocators)
      else RuleResult(Some(rewritten.node), rewritten.allocators)
  }

  /** A replacement is never a lateral join, so the rule cannot fire on the
      root of its own replacement. The guard looks at the root only: see
      `GuardSeesOnlyTheRoot`. */
  lemma NoRefiring(node: PlanNode, lookup: Lookup, isScalar: ScalarOracle,
                   rewriter: AggregationRewriter, allocators: Allocators,
                   isScalar': ScalarOracle, rewriter': AggregationRewriter, allocators': Allocators)
    requires WellFormed(lookup)
    requires node.LateralJoin? ==> Closed(lookup, node.subquery)
    ensures var r := Apply(node, lookup, isScalar, rewriter, allocators);
            r.replacement.Some? ==>
              Apply(r.replacement.value, lookup, isScalar', rewriter', allocators') == RuleResult(None, allocators')
  {
  }

  /** A lateral join correlated on `k` whose subquery is group 3 of the memo:
      a projection over a single-row check over an ungrouped count. */
  function CorrelatedCount(): PlanNode {
    LateralJoin(1, Other(2, "TableScan", []), GroupReference(3), ["k"], LeftLateral)
  }

  /** The count subquery is decorrelated: the rewriter receives the lateral
      join and the count aggregation, and its output replaces the node. */
  lemma DecorrelatesWrappedCount(isScalar: ScalarOracle, rewriter: AggregationRewriter, allocators: Allocators)
    requires isScalar(WrappedCountMemo().groups[3], WrappedCountMemo())
    requires !rewriter(CorrelatedCount(), WrappedCountMemo().groups[1], allocators).node.LateralJoin?
    ensures WellFormed(WrappedCountMemo())
    ensures Apply(CorrelatedCount(), WrappedCountMemo(), isScalar, rewriter, allocators)
              == RuleResult(Some(rewriter(CorrelatedCount(), WrappedCountMemo().groups[1], allocators).node),
                            rewriter(CorrelatedCount(), WrappedCountMemo().groups[1], allocators).allocators)
  {
    ResolvesThroughMemo();
  }

  /** A rewriter that hands the lateral join back unchanged makes no progress;
      the rule then reports "not applicable" and the plan is kept. */
  lemma NoProgressKeepsPlan(isScalar: ScalarOracle, allocators: Allocators)
    requires isScalar(WrappedCountMemo().groups[3], WrappedCountMemo())
    ensures WellFormed(WrappedCountMemo())
    ensures Apply(CorrelatedCount(), WrappedCountMemo(), isScalar,
                  (lateralJoin, aggregation, a) => Rewritten(lateralJoin, a), allocators)
              == RuleResult(None, allocators)
  {
    ResolvesThroughMemo();
  }

  /** A rewriter that only wraps the lateral join in a projection. */
  function WrappingRewriter(): AggregationRewriter {
    (lateralJoin, aggregation, a) => Rewritten(Project(99, lateralJoin, map[]), a)
  }

  /** The no-progress guard tests the root of the rewriter's output only: a
      lateral join wrapped in a projection passes it, and the rule then fires
      again on the lateral join below the projection. */
  lemma GuardSeesOnlyTheRoot(isScalar: ScalarOracle, allocators: Allocators)
    requires isScalar(WrappedCountMemo().groups[3], WrappedCountMemo())
    ensures WellFormed(WrappedCountMemo())
    ensures Apply(CorrelatedCount(), WrappedCountMemo(), isScalar, WrappingRewriter(), allocators).replacement
              == Some(Project(99, CorrelatedCount(), map[]))
    ensures var r := Apply(CorrelatedCount(), WrappedCountMemo(), isScalar, WrappingRewriter(), allocators);
            Apply(Source(r.replacement.value), WrappedCountMemo(), isScalar,
                  WrappingRewriter(), allocators).replacement.Some?
  {
    ResolvesThroughMemo();
  }
}
