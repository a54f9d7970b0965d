/** The plan-node tree the optimizer rewrites. Nodes are immutable values; a
    child held by the memo is a `GroupReference` that the lookup resolves. */
module Plan {
  import opened Wrappers

  type Symbol = string
  type PlanNodeId = nat
  type GroupId = nat

  datatype LateralJoinType = InnerLateral | LeftLateral

  datatype JoinType = InnerJoin | LeftJoin | RightJoin | FullJoin

  /** Projection expressions are opaque to the rule: it never inspects them. */
  datatype Expression = SymbolReference(name: Symbol) | OpaqueExpression(text: string)

  /** One aggregate function call of an Aggregation node. */
  datatype AggregateCall = AggregateCall(functionName: string, arguments: seq<Symbol>, mask: Option<Symbol>)

  datatype PlanNode =
    | GroupReference(group: GroupId)
    | LateralJoin(id: PlanNodeId, input: PlanNode, subquery: PlanNode,
                  correlation: seq<Symbol>, lateralType: LateralJoinType)
    | Aggregation(id: PlanNodeId, source: PlanNode,
                  aggregations: map<Symbol, AggregateCall>, groupingKeys: seq<Symbol>)
    | Project(id: PlanNodeId, source: PlanNode, assignments: map<Symbol, Expression>)
    | EnforceSingleRow(id: PlanNodeId, source: PlanNode)
    | Join(id: PlanNodeId, joinType: JoinType, left: PlanNode, right: PlanNode,
           criteria: seq<(Symbol, Symbol)>)
    | Other(id: PlanNodeId, name: string, sources: seq<PlanNode>)

  /** The tag a rule pattern compares against (the node's class in the engine). */
  datatype NodeKind =
    | GroupReferenceKind | LateralJoinKind | AggregationKind | ProjectKind
    | EnforceSingleRowKind | JoinKind | OtherKind

  function KindOf(node: PlanNode): NodeKind {
    match node
    case GroupReference(_) => GroupReferenceKind
    case LateralJoin(_, _, _, _, _) => LateralJoinKind
    case Aggregation(_, _, _, _) => AggregationKind
    case Project(_, _, _) => ProjectKind
    case EnforceSingleRow(_, _) => EnforceSingleRowKind
    case Join(_, _, _, _, _) => JoinKind
    case Other(_, _, _) => OtherKind
  }

  /** The unary wrappers the aggregation search may pass through. */
  predicate IsTransparent(node: PlanNode) {
    node.Project? || node.EnforceSingleRow?
  }

  /** A node where the aggregation search stops without a match. */
  predicate IsBlocker(node: PlanNode) {
    !node.Aggregation? && !IsTransparent(node)
  }

  /** The single input of a transparent wrapper. */
  function Source(node: PlanNode): (s: PlanNode)
    requires IsTransparent(node)
    ensures s < node
  {
    node.source
  }

  /** Node-id and symbol counters of one planning session. */
  datatype Allocators = Allocators(nextNodeId: nat, nextSymbol: nat)
}
