/** The lookup: a memo of groups, each holding one concrete plan node whose
    children may in turn be references to other groups. */
module Memo {
  import opened Plan

  datatype Lookup = Lookup(groups: seq<PlanNode>)

  /** Every group reference inside `node` names a group below `bound`. */
  predicate RefsBelow(node: PlanNode, bound: nat)
    decreases node
  {
    match node
    case GroupReference(g) => g < bound
    case LateralJoin(_, input, subquery, _, _) => RefsBelow(input, bound) && RefsBelow(subquery, bound)
    case Aggregation(_, source, _, _) => RefsBelow(source, bound)
    case Project(_, source, _) => RefsBelow(source, bound)
    case EnforceSingleRow(_, source) => RefsBelow(source, bound)
    case Join(_, _, left, right, _) => RefsBelow(left, bound) && RefsBelow(right, bound)
    case Other(_, _, sources) => forall s :: s in sources ==> RefsBelow(s, bound)
  }

  /** A well-formed memo stores concrete nodes only, and its groups are numbered
      in a topological order: a group refers only to lower-numbered groups, so
      resolution never dangles and never cycles. Any acyclic memo can be
      renumbered into this form. */
  predicate WellFormed(lookup: Lookup) {
    forall g :: 0 <= g < |lookup.groups| ==>
      !lookup.groups[g].GroupReference? && RefsBelow(lookup.groups[g], g)
  }

  /** A node that mentions no dangling group of `lookup`. */
  predicate Closed(lookup: Lookup, node: PlanNode) {
    RefsBelow(node, |lookup.groups|)
  }

  lemma {:induction false} RefsBelowMonotonic(node: PlanNode, bound: nat, bound': nat)
    ensures RefsBelow(node, bound) && bound <= bound' ==> RefsBelow(node, bound')
    decreases node
  {
    if !(RefsBelow(node, bound) && bound <= bound') {
      return;
    }
    match node
    case GroupReference(_) =>
    case LateralJoin(_, input, subquery, _, _) =>
      RefsBelowMonotonic(input, bound, bound');
      RefsBelowMonotonic(subquery, bound, bound');
    case Aggregation(_, source, _, _) => RefsBelowMonotonic(source, bound, bound');
    case Project(_, source, _) => RefsBelowMonotonic(source, bound, bound');
    case EnforceSingleRow(_, source) => RefsBelowMonotonic(source, bound, bound');
    case Join(_, _, left, right, _) =>
      RefsBelowMonotonic(left, bound, bound');
      RefsBelowMonotonic(right, bound, bound');
    case Other(_, _, sources) =>
      forall s | s in sources
        ensures RefsBelow(s, bound')
      {
        RefsBelowMonotonic(s, bound, bound');
      }
  }

  /** `lookup.resolve`: a reference becomes the node its group holds; a concrete
      node, or a reference to a group the memo does not hold, is returned as is. */
  function Resolve(lookup: Lookup, node: PlanNode): (r: PlanNode)
    ensures !node.GroupReference? ==> r == node
    ensures node.GroupReference? && node.group < |lookup.groups| ==> r == lookup.groups[node.group]
    ensures WellFormed(lookup) && Closed(lookup, node) ==> !r.GroupReference? && Closed(lookup, r)
  {
    match node
    case GroupReference(g) =>
      if g < |lookup.groups| then
        // the lemma call is a proof step only; it costs nothing at run time
        RefsBelowMonotonic(lookup.groups[g], g, |lookup.groups|);
        lookup.groups[g]
      else node
    case _ => node
  }

  /** Resolution is idempotent: resolving a resolved node changes nothing. */
  lemma ResolveIdempotent(lookup: Lookup, node: PlanNode)
    requires WellFormed(lookup)
    ensures Resolve(lookup, Resolve(lookup, node)) == Resolve(lookup, node)
  {
  }

  /** The bound on group references that holds below the resolved node: a
      resolved reference to group g leaves only references below g. */
  function InnerBound(node: PlanNode, bound: nat): (b: nat)
    requires RefsBelow(node, bound)
    ensures b <= bound
    ensures node.GroupReference? ==> b < bound
  {
    if node.GroupReference? then node.group else bound
  }

  lemma ResolveWithin(lookup: Lookup, node: PlanNode, bound: nat)
    requires WellFormed(lookup) && bound <= |lookup.groups| && RefsBelow(node, bound)
    ensures !Resolve(lookup, node).GroupReference?
    ensures RefsBelow(Resolve(lookup, node), InnerBound(node, bound))
  {
  }
}
