# Decorrelation of correlated scalar aggregations — applicability model

This project models the optimizer rule `TransformCorrelatedScalarAggregationToJoin`
of the Presto query planner. The rule is offered `LateralJoin` nodes by the
iterative optimizer. It decides whether a correlated scalar subquery (a per-row
aggregate computed through a lateral join) can be handed to the scalar-aggregation
rewriter, which turns it into a plain join. It also refuses a rewrite that makes no
progress.

The model is pure and functional:

- `plan.dfy` (module `Plan`): the immutable plan-node tree. It has LateralJoin,
  Aggregation, Project, EnforceSingleRow, Join, an opaque `Other` node, and
  `GroupReference`, a child held by the memo. It also defines the node kinds a
  pattern compares against and the wrapper kinds the search may pass through.
- `memo.dfy` (module `Memo`): the `Lookup`, a memo of groups. `Resolve` replaces a
  group reference by the node its group holds. A well-formed memo stores only
  concrete nodes, and a group refers only to earlier groups. So resolution never
  dangles and never cycles.
- `searcher.dfy` (module `Searcher`): `findAggregation`, the bounded search as the
  rule configures it. It matches an Aggregation and passes only through Project and
  EnforceSingleRow. It is specified independently by `WrapperPath`, the list of
  resolved nodes the walk meets, and proved equivalent in both directions.
- `rule.dfy` (module `Rule`): `PATTERN`, the guard chain of `apply`, the call into
  the rewriter, and `Apply` itself.

Collaborators whose code is not part of this model are parameters. The rule is
proved for every choice of them:

- `isScalar(node, lookup)` is a `ScalarOracle` function value.
- `rewriteScalarAggregation` is an `AggregationRewriter` function value.
  It takes the lateral join, the aggregation and the session's allocators, and it
  returns the new subtree and the advanced allocators.
- The call goes through `Rule.RewriteScalarAggregation`, whose `requires` lists
  what the guards have established when `apply` calls the rewriter. Dafny checks
  them at the call site.

The memo requirement (`WellFormed` lookup, no dangling group reference under the
subquery) is a requires of the search and of `Apply`. The Java code does not check
it. A cyclic memo would make its search loop, and a missing group would make it fail.

In the no-progress case (the rewriter returned a lateral join again,
TransformCorrelatedScalarAggregationToJoin.java:76-80) the rewriter has already
run, so the node ids and symbols it drew stay drawn: `Apply` returns the
rewriter's allocators in that case. Allocators stay untouched only when a guard
fails before the rewriter is called.

The no-progress guard tests only the root of the rewriter's output
(TransformCorrelatedScalarAggregationToJoin.java:78). `Rule.NoRefiring` shows the rule cannot fire on the root of its own
replacement. `Rule.GuardSeesOnlyTheRoot` shows a rewriter that wraps the lateral
join in a projection passes the guard, and the rule then fires again below it.

## Model

| member | source | states |
|---|---|---|
| `Memo.Resolve` | presto-main/src/main/java/com/facebook/presto/sql/planner/iterative/rule/TransformCorrelatedScalarAggregationToJoin.java:63 | A concrete node resolves to itself. A reference resolves to the node its group holds. In a well-formed memo the result is concrete and has no dangling references. |
| `Memo.ResolveIdempotent` | presto-main/src/main/java/com/facebook/presto/sql/planner/iterative/rule/TransformCorrelatedScalarAggregationToJoin.java:63 | Resolving an already resolved node changes nothing, so resolving the subquery and then searching from it agrees with the search's own resolution. |
| `Searcher.FindFirst` | presto-main/src/main/java/com/facebook/presto/sql/planner/iterative/rule/TransformCorrelatedScalarAggregationToJoin.java:85-90 | The search below a node yields only an Aggregation that is free of dangling references. It terminates because every resolved reference leads to an earlier group or to a smaller subtree. |
| `Searcher.FindAggregation` | presto-main/src/main/java/com/facebook/presto/sql/planner/iterative/rule/TransformCorrelatedScalarAggregationToJoin.java:85-90 | `findAggregation` returns only Aggregation nodes. |
| `Searcher.FindAggregationSound` | presto-main/src/main/java/com/facebook/presto/sql/planner/iterative/rule/TransformCorrelatedScalarAggregationToJoin.java:85-90 | A found aggregation ends a walk from the root whose earlier nodes are all Project or EnforceSingleRow. When nothing is found, the walk ends at a node that is neither an Aggregation nor a wrapper. |
| `Searcher.FindAggregationComplete` | presto-main/src/main/java/com/facebook/presto/sql/planner/iterative/rule/TransformCorrelatedScalarAggregationToJoin.java:85-90 | Any Aggregation that ends a wrapper-only walk is the one returned, so the first one met is returned and nothing below it is searched. A walk ending at any other kind of node gives no result. |
| `Searcher.FindAggregationFinds` | presto-main/src/main/java/com/facebook/presto/sql/planner/iterative/rule/TransformCorrelatedScalarAggregationToJoin.java:85-90 | The search returns `agg` if and only if `agg` is an Aggregation reached from the root through wrappers only. |
| `Searcher.FindAggregationMisses` | presto-main/src/main/java/com/facebook/presto/sql/planner/iterative/rule/TransformCorrelatedScalarAggregationToJoin.java:87-90 | The search returns nothing if and only if the wrapper-only walk is stopped by a node that is neither an Aggregation nor a wrapper, such as a Join. |
| `Searcher.JoinBlocksSearch` | presto-main/src/main/java/com/facebook/presto/sql/planner/iterative/rule/TransformCorrelatedScalarAggregationToJoin.java:89-90 | An Aggregation sitting under a Join is not found, because a Join is not a wrapper. |
| `Searcher.WrappersAreSkipped` | presto-main/src/main/java/com/facebook/presto/sql/planner/iterative/rule/TransformCorrelatedScalarAggregationToJoin.java:89-90 | An Aggregation under a Project over an EnforceSingleRow is found. |
| `Searcher.StopsAtFirstAggregation` | presto-main/src/main/java/com/facebook/presto/sql/planner/iterative/rule/TransformCorrelatedScalarAggregationToJoin.java:88-90 | When an Aggregation sits directly over another Aggregation, the upper one is returned. |
| `Searcher.ResolvesThroughMemo` | presto-main/src/main/java/com/facebook/presto/sql/planner/iterative/rule/TransformCorrelatedScalarAggregationToJoin.java:87-90 | Through a memo of four groups (projection, single-row check, count, scan), the search follows each reference and finds the count. |
| `Rule.PatternSelectsLateralJoins` | presto-main/src/main/java/com/facebook/presto/sql/planner/iterative/rule/TransformCorrelatedScalarAggregationToJoin.java:40-46 | The rule's pattern matches a node if and only if the node is a LateralJoin. |
| `Rule.RewriteTarget` | presto-main/src/main/java/com/facebook/presto/sql/planner/iterative/rule/TransformCorrelatedScalarAggregationToJoin.java:58-72 | The guard chain of `apply`. It yields an aggregation only for a lateral join with a non-empty correlation list and a scalar resolved subquery, and the aggregation it yields is ungrouped. Otherwise it yields None. |
| `Rule.RewriteScalarAggregation` | presto-main/src/main/java/com/facebook/presto/sql/planner/iterative/rule/TransformCorrelatedScalarAggregationToJoin.java:74-76 | The rewriter is called only when all of these hold: the node is a lateral join, its correlation list is non-empty, its resolved subquery is scalar, and the search found this aggregation and it is ungrouped. Its ensures shows that these facts give the rewriter its precondition: the aggregation is reached from the resolved subquery through wrappers only. |
| `Rule.RewriteTargetSpec` | presto-main/src/main/java/com/facebook/presto/sql/planner/iterative/rule/TransformCorrelatedScalarAggregationToJoin.java:58-72 | The guard chain yields an aggregation if and only if all of these hold: the node is a lateral join, its correlation list is non-empty, its resolved subquery is scalar, and the aggregation is ungrouped and reached from the subquery through wrappers only. |
| `Rule.Apply` | presto-main/src/main/java/com/facebook/presto/sql/planner/iterative/rule/TransformCorrelatedScalarAggregationToJoin.java:55-83 | The rule answers "not applicable" and leaves the allocators untouched when the node is not a LateralJoin, when the correlation list is empty, when the subquery is not scalar, or when the search finds nothing or a grouped aggregation. A replacement is never a LateralJoin. A replacement always comes from a rewriter call whose precondition held. Once the guards pass, the rewriter's output is returned unchanged unless it is a LateralJoin, in which case the answer is "not applicable". |
| `Rule.NoRefiring` | presto-main/src/main/java/com/facebook/presto/sql/planner/iterative/rule/TransformCorrelatedScalarAggregationToJoin.java:78-82 | Applying the rule to the root of its own replacement is always "not applicable". |
| `Rule.GuardSeesOnlyTheRoot` | presto-main/src/main/java/com/facebook/presto/sql/planner/iterative/rule/TransformCorrelatedScalarAggregationToJoin.java:76-82 | The no-progress guard tests only the root: a rewriter that wraps the lateral join in a projection has its output accepted, and the rule fires again on the lateral join inside it. |
| `Rule.DecorrelatesWrappedCount` | presto-main/src/main/java/com/facebook/presto/sql/planner/iterative/rule/TransformCorrelatedScalarAggregationToJoin.java:58-82 | A lateral join correlated on one symbol, over a projection over a single-row check over an ungrouped count, is replaced by the rewriter's output when that output is not a lateral join. |
| `Rule.NoProgressKeepsPlan` | presto-main/src/main/java/com/facebook/presto/sql/planner/iterative/rule/TransformCorrelatedScalarAggregationToJoin.java:76-80 | If the rewriter hands back the lateral join, the rule answers "not applicable" and the plan is kept. |

## Left out

- The internals of the scalar-aggregation rewriter are not part of this model: regrouping by the correlation symbols, the left join, and the empty-group defaults (count gives 0, other aggregates give null). It is a function parameter, so nothing is proved about its output beyond what the rule does with it.
- `isScalar` (the cardinality oracle) is not part of this model. It is a function parameter.
- The generic `PlanNodeSearcher` is not part of this model. Only the configuration this rule uses is modelled: match an Aggregation, pass through Project and EnforceSingleRow.
- The memo's normalisation and group replacement are left out. `Lookup` is a fixed sequence of groups numbered in a topological order (a group refers only to lower-numbered groups), which is how the model expresses acyclicity; any acyclic memo can be renumbered into this form.
- Aggregation grouping keys are a plain symbol list. The source derives them from grouping sets, which this rule never inspects.
- The function registry and the session are left out. The rule only passes them through: the registry, the allocators and the lookup go to the rewriter's constructor, so the rewriter parameter is taken as already bound to the lookup. The node-id and symbol allocators are reduced to two counters threaded through the rewriter.
- Query execution, and the run-time failure of EnforceSingleRow, are outside this rule.
- The engine's fixpoint loop and pattern dispatch are left out, except for `PATTERN` matching LateralJoin.
- No lemma states that asking the rule twice gives the same answer: `Apply` is a pure function, so this holds by construction.
