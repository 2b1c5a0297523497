/** Per-instance node visibility (rendera-reference/Model-node-visibility.ts): a set of
    individually disabled node names, kept in the insertion order a JavaScript `Set`
    iterates in, plus an "all nodes disabled" flag that overrides it. */
module NodeVisibility {
  import opened Common

  datatype NodeVisibility = NodeVisibility(disabledNodes: seq<string>, allNodesDisabled: bool)

  /** What the handle's constructor starts with: nothing disabled. */
  const Initial := NodeVisibility([], false)

  /** The disabled names form a set. */
  ghost predicate Valid(v: NodeVisibility) {
    Distinct(v.disabledNodes)
  }

  /** `Set.add`: an element already present keeps its place. */
  function SetAdd(s: seq<string>, x: string): (r: seq<string>)
    ensures forall y :: y in r <==> y in s || y == x
    ensures Distinct(s) ==> Distinct(r)
  {
    if x in s then s else s + [x]
  }

  /** `Set.delete`: the others keep their order. */
  function SetDelete(s: seq<string>, x: string): (r: seq<string>)
    ensures forall y :: y in r <==> y in s && y != x
    ensures Distinct(s) ==> Distinct(r)
    ensures x !in s ==> r == s
    decreases |s|
  {
    if |s| == 0 then []
    else if s[0] == x then SetDelete(s[1..], x)
    else
      var rest := SetDelete(s[1..], x);
      assert [s[0]] + s[1..] == s;
      DistinctCons(s[0], s[1..]);
      DistinctCons(s[0], rest);
      [s[0]] + rest
  }

  /** `isNodeEnabled`: the flag hides everything; otherwise a node is hidden exactly
      when it was disabled by name. */
  predicate IsNodeEnabled(v: NodeVisibility, nodeName: string) {
    !v.allNodesDisabled && nodeName !in v.disabledNodes
  }

  function EnableAllNodes(v: NodeVisibility): (r: NodeVisibility)
    ensures forall n :: IsNodeEnabled(r, n)
    ensures r.disabledNodes == [] && !r.allNodesDisabled
  {
    NodeVisibility([], false)
  }

  /** Sets the flag only: the names disabled one by one are remembered underneath. */
  function DisableAllNodes(v: NodeVisibility): (r: NodeVisibility)
    ensures forall n :: !IsNodeEnabled(r, n)
    ensures r.disabledNodes == v.disabledNodes
  {
    v.(allNodesDisabled := true)
  }

  /** Removes the name from the disabled set and clears the flag: every node that was
      not disabled by name becomes visible again, not only the named one. */
  function EnableNode(v: NodeVisibility, nodeName: string): (r: NodeVisibility)
    ensures IsNodeEnabled(r, nodeName) && !r.allNodesDisabled
    ensures forall n :: n != nodeName ==> (IsNodeEnabled(r, n) <==> n !in v.disabledNodes)
    ensures Valid(v) ==> Valid(r)
  {
    NodeVisibility(SetDelete(v.disabledNodes, nodeName), false)
  }

  function DisableNode(v: NodeVisibility, nodeName: string): (r: NodeVisibility)
    ensures !IsNodeEnabled(r, nodeName)
    ensures forall n :: n != nodeName ==> IsNodeEnabled(r, n) == IsNodeEnabled(v, n)
    ensures r.allNodesDisabled == v.allNodesDisabled
    ensures Valid(v) ==> Valid(r)
  {
    v.(disabledNodes := SetAdd(v.disabledNodes, nodeName))
  }

  /** The debugging listing: `["*"]` for "all disabled", otherwise the disabled names
      in insertion order. The two readings coincide when the one name disabled is "*". */
  function GetDisabledNodes(v: NodeVisibility): (r: seq<string>)
    ensures v.allNodesDisabled ==> r == ["*"]
    ensures !v.allNodesDisabled ==> forall n :: n in r <==> !IsNodeEnabled(v, n)
    ensures r == ["*"] <==> v.allNodesDisabled || v.disabledNodes == ["*"]
    ensures Valid(v) ==> Distinct(r)
  {
    if v.allNodesDisabled then ["*"] else v.disabledNodes
  }

  /** A fresh handle shows every node. */
  lemma InitialShowsAll(nodeName: string)
    ensures IsNodeEnabled(Initial, nodeName)
  {
  }

  lemma EnableAllIsIdempotent(v: NodeVisibility)
    ensures EnableAllNodes(EnableAllNodes(v)) == EnableAllNodes(v)
  {
  }

  /** Disabling everything and then enabling one node shows that node and every node
      not disabled by name beforehand, so a second node is visible again. */
  lemma EnableOneAfterDisableAll(v: NodeVisibility, a: string, b: string)
    requires a != b && b !in v.disabledNodes
    ensures var w := EnableNode(DisableAllNodes(v), a);
            IsNodeEnabled(w, a) && IsNodeEnabled(w, b)
  {
  }

  /** Disabling and then enabling one node restores that node's visibility to what
      `enableNode` promises, and leaves the rest as `disableNode` found them. */
  lemma DisableThenEnable(v: NodeVisibility, n: string, other: string)
    requires !v.allNodesDisabled && other != n
    ensures IsNodeEnabled(EnableNode(DisableNode(v, n), n), n)
    ensures IsNodeEnabled(EnableNode(DisableNode(v, n), n), other) == IsNodeEnabled(v, other)
  {
  }
}
