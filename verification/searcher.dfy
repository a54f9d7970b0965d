/** The bounded search behind `findAggregation`: starting at the subquery root,
    resolve each node through the lookup; stop with a match at the first
    Aggregation, step into the single input of a Project or EnforceSingleRow,
    and give up at any other node. */
module Searcher {
  import opened Wrappers
  import opened Plan
  import opened Memo

  /** Independent description of the walk: `path` lists the resolved nodes met
      from `root` downwards, every node but the last being a transparent
      wrapper whose resolved input is the next one. */
  ghost predicate WrapperPath(lookup: Lookup, root: PlanNode, path: seq<PlanNode>) {
    && |path| >= 1
    && path[0] == Resolve(lookup, root)
    && forall i :: 0 <= i < |path| - 1 ==>
         IsTransparent(path[i]) && path[i + 1] == Resolve(lookup, Source(path[i]))
  }

  function Last(path: seq<PlanNode>): PlanNode
    requires |path| >= 1
  {
    path[|path| - 1]
  }

  /** `target` is reached from `root` through transparent wrappers only. */
  ghost predicate ReachableThroughWrappers(lookup: Lookup, root: PlanNode, target: PlanNode) {
    exists path :: WrapperPath(lookup, root, path) && Last(path) == target
  }

  /** The walk from `root` ends at a node that is neither an Aggregation nor a
      wrapper. */
  ghost predicate BlockedThroughWrappers(lookup: Lookup, root: PlanNode) {
    exists path :: WrapperPath(lookup, root, path) && IsBlocker(Last(path))
  }

  /** The search below one node, where every reference in `node` is below
      `bound`; `bound` shrinks each time a reference is resolved. */
  function FindFirst(lookup: Lookup, node: PlanNode, bound: nat): (r: Option<PlanNode>)
    requires WellFormed(lookup) && bound <= |lookup.groups| && RefsBelow(node, bound)
    ensures r.Some? ==> r.value.Aggregation? && Closed(lookup, r.value)
    decreases bound, node
  {
    var resolved := Resolve(lookup, node);
    ResolveWithin(lookup, node, bound);
    RefsBelowMonotonic(resolved, InnerBound(node, bound), |lookup.groups|);
    if resolved.Aggregation? then Some(resolved)
    else if IsTransparent(resolved) then FindFirst(lookup, Source(resolved), InnerBound(node, bound))
    else None
  }

  /** `findAggregation(rootNode, lookup)`: the nearest Aggregation below the
      root, passing only through Project and EnforceSingleRow. */
  function FindAggregation(lookup: Lookup, root: PlanNode): (r: Option<PlanNode>)
    requires WellFormed(lookup) && Closed(lookup, root)
    ensures r.Some? ==> r.value.Aggregation? && Closed(lookup, r.value)
  {
    FindFirst(lookup, root, |lookup.groups|)
  }

  lemma {:induction false} FindFirstSound(lookup: Lookup, node: PlanNode, bound: nat)
    requires WellFormed(lookup) && bound <= |lookup.groups| && RefsBelow(node, bound)
    ensures FindFirst(lookup, node, bound).Some? ==>
              ReachableThroughWrappers(lookup, node, FindFirst(lookup, node, bound).value)
    ensures FindFirst(lookup, node, bound).None? ==> BlockedThroughWrappers(lookup, node)
    decreases bound, node
  {
    var resolved := Resolve(lookup, node);
    ResolveWithin(lookup, node, bound);
    if resolved.Aggregation? {
      assert WrapperPath(lookup, node, [resolved]);
    } else if IsTransparent(resolved) {
      var inner := Source(resolved);
      var b := InnerBound(node, bound);
      FindFirstSound(lookup, inner, b);
      var tail: seq<PlanNode>;
      if FindFirst(lookup, inner, b).Some? {
        tail :| WrapperPath(lookup, inner, tail) && Last(tail) == FindFirst(lookup, inner, b).value;
      } else {
        tail :| WrapperPath(lookup, inner, tail) && IsBlocker(Last(tail));
      }
      var path := [resolved] + tail;
      assert WrapperPath(lookup, node, path) by {
        forall i | 0 <= i < |path| - 1
          ensures IsTransparent(path[i]) && path[i + 1] == Resolve(lookup, Source(path[i]))
        {
          if i > 0 {
            assert path[i] == tail[i - 1] && path[i + 1] == tail[i];
          }
        }
      }
      assert Last(path) == Last(tail);
    } else {
      assert WrapperPath(lookup, node, [resolved]);
    }
  }

  lemma {:induction false} FindFirstComplete(lookup: Lookup, node: PlanNode, bound: nat, path: seq<PlanNode>)
    requires WellFormed(lookup) && bound <= |lookup.groups| && RefsBelow(node, bound)
    requires WrapperPath(lookup, node, path)
    ensures Last(path).Aggregation? ==> FindFirst(lookup, node, bound) == Some(Last(path))
    ensures IsBlocker(Last(path)) ==> FindFirst(lookup, node, bound).None?
    decreases |path|
  {
    var resolved := Resolve(lookup, node);
    ResolveWithin(lookup, node, bound);
    if |path| > 1 {
      assert IsTransparent(path[0]) && path[1] == Resolve(lookup, Source(path[0]));
      var tail := path[1..];
      assert WrapperPath(lookup, Source(resolved), tail) by {
        forall i | 0 <= i < |tail| - 1
          ensures IsTransparent(tail[i]) && tail[i + 1] == Resolve(lookup, Source(tail[i]))
        {
          assert tail[i] == path[i + 1] && tail[i + 1] == path[i + 2];
        }
      }
      assert Last(tail) == Last(path);
      FindFirstComplete(lookup, Source(resolved), InnerBound(node, bound), tail);
    }
  }

  /** A found aggregation is reached from the root through wrappers only. */
  lemma FindAggregationSound(lookup: Lookup, root: PlanNode)
    requires WellFormed(lookup) && Closed(lookup, root)
    ensures FindAggregation(lookup, root).Some? ==>
              ReachableThroughWrappers(lookup, root, FindAggregation(lookup, root).value)
    ensures FindAggregation(lookup, root).None? ==> BlockedThroughWrappers(lookup, root)
  {
    FindFirstSound(lookup, root, |lookup.groups|);
  }

  /** Every aggregation reached through wrappers is the one found (so it is the
      first and only one), and a walk that hits any other node finds nothing. */
  lemma FindAggregationComplete(lookup: Lookup, root: PlanNode, path: seq<PlanNode>)
    requires WellFormed(lookup) && Closed(lookup, root)
    requires WrapperPath(lookup, root, path)
    ensures Last(path).Aggregation? ==> FindAggregation(lookup, root) == Some(Last(path))
    ensures IsBlocker(Last(path)) ==> FindAggregation(lookup, root).None?
  {
    FindFirstComplete(lookup, root, |lookup.groups|, path);
  }

  /** The search finds `agg` exactly when `agg` is an Aggregation reached
      through wrappers. */
  lemma FindAggregationFinds(lookup: Lookup, root: PlanNode, agg: PlanNode)
    requires WellFormed(lookup) && Closed(lookup, root)
    ensures FindAggregation(lookup, root) == Some(agg) <==>
              agg.Aggregation? && ReachableThroughWrappers(lookup, root, agg)
  {
    FindAggregationSound(lookup, root);
    if agg.Aggregation? && ReachableThroughWrappers(lookup, root, agg) {
      var path :| WrapperPath(lookup, root, path) && Last(path) == agg;
      FindAggregationComplete(lookup, root, path);
    }
  }

  /** The search finds nothing exactly when the walk is blocked by a node that
      is neither an Aggregation nor a wrapper. */
  lemma FindAggregationMisses(lookup: Lookup, root: PlanNode)
    requires WellFormed(lookup) && Closed(lookup, root)
    ensures FindAggregation(lookup, root).None? <==> BlockedThroughWrappers(lookup, root)
  {
    FindAggregationSound(lookup, root);
    if BlockedThroughWrappers(lookup, root) {
      var path :| WrapperPath(lookup, root, path) && IsBlocker(Last(path));
      FindAggregationComplete(lookup, root, path);
    }
  }

  /** A Join is not a wrapper: an Aggregation below it is not found. */
  lemma JoinBlocksSearch(lookup: Lookup, id: PlanNodeId, joinType: JoinType,
                         left: PlanNode, right: PlanNode, criteria: seq<(Symbol, Symbol)>)
    requires WellFormed(lookup) && Closed(lookup, left) && Closed(lookup, right)
    requires left.Aggregation?
    ensures FindAggregation(lookup, Join(id, joinType, left, right, criteria)).None?
  {
  }

  /** Project and EnforceSingleRow are passed through to the Aggregation below. */
  lemma WrappersAreSkipped(lookup: Lookup, projectId: PlanNodeId, assignments: map<Symbol, Expression>,
                           enforceId: PlanNodeId, agg: PlanNode)
    requires WellFormed(lookup) && Closed(lookup, agg) && agg.Aggregation?
    ensures FindAggregation(lookup, Project(projectId, EnforceSingleRow(enforceId, agg), assignments)) == Some(agg)
  {
    var n := |lookup.groups|;
    assert FindFirst(lookup, EnforceSingleRow(enforceId, agg), n) == Some(agg);
  }

  /** The search stops at the first Aggregation and does not look below it. */
  lemma StopsAtFirstAggregation(lookup: Lookup, agg: PlanNode)
    requires WellFormed(lookup) && Closed(lookup, agg) && agg.Aggregation? && agg.source.Aggregation?
    ensures FindAggregation(lookup, agg) == Some(agg)
  {
  }

  /** A memo holding a scan, an ungrouped count over it, a single-row check
      and a projection, each group referring to the one before it. */
  function WrappedCountMemo(): Lookup {
    Lookup([
      Other(10, "TableScan", []),
      Aggregation(11, GroupReference(0), map["c" := AggregateCall("count", [], None)], []),
      EnforceSingleRow(12, GroupReference(1)),
      Project(13, GroupReference(2), map["c2" := SymbolReference("c")])
    ])
  }

  /** The search resolves each group reference on its way down. */
  lemma ResolvesThroughMemo()
    ensures WellFormed(WrappedCountMemo())
    ensures FindAggregation(WrappedCountMemo(), GroupReference(3)) == Some(WrappedCountMemo().groups[1])
    ensures FindAggregation(WrappedCountMemo(), WrappedCountMemo().groups[3]) == Some(WrappedCountMemo().groups[1])
  {
    var lookup := WrappedCountMemo();
    assert WellFormed(lookup) by {
      forall g | 0 <= g < |lookup.groups|
        ensures !lookup.groups[g].GroupReference? && RefsBelow(lookup.groups[g], g)
      {
        assert RefsBelow(lookup.groups[0], 0);
      }
    }
    assert FindFirst(lookup, GroupReference(1), 2) == Some(lookup.groups[1]);
    assert FindFirst(lookup, GroupReference(2), 3) == Some(lookup.groups[1]);
    assert FindFirst(lookup, GroupReference(2), 4) == Some(lookup.groups[1]);
  }
}
