/** Node filtering at render time (rendera-reference/InstanceManager-node-filtering.ts):
    the per-node skip in the render loop, the `'0'/'1'` visibility key of an instance,
    its decoding back to a node list, and the grouping of instances into render batches
    by key. */
module NodeFiltering {
  import opened Common
  import opened Decimal
  import opened ModelAssets
  import opened NodeVisibility

  /** The name a node is looked up by: its own name, or `node_<index>` when unnamed. */
  function LookupName(node: RenderableNode): (r: string)
    ensures node.name != "" ==> r == node.name
    ensures node.name == "" ==> r == "node_" + NatToString(node.nodeIndex)
  {
    if node.name != "" then node.name else "node_" + NatToString(node.nodeIndex)
  }

  /** Two unnamed nodes with different indices are looked up by different names. */
  lemma UnnamedNodesHaveDistinctNames(a: RenderableNode, b: RenderableNode)
    requires a.name == "" && b.name == "" && a.nodeIndex != b.nodeIndex
    ensures LookupName(a) != LookupName(b)
  {
    if LookupName(a) == LookupName(b) {
      assert LookupName(a)[5..] == NatToString(a.nodeIndex);
      assert LookupName(b)[5..] == NatToString(b.nodeIndex);
      PrintingIsInjective(a.nodeIndex, b.nodeIndex);
    }
  }

  predicate NodeShown(v: NodeVisibility, node: RenderableNode) {
    IsNodeEnabled(v, LookupName(node))
  }

  /** `createVisibilityKey`: one character per renderable node, `'1'` for a shown node. */
  function CreateVisibilityKey(v: NodeVisibility, nodes: seq<RenderableNode>): (key: string)
    ensures |key| == |nodes|
    ensures forall i :: 0 <= i < |nodes| ==> (key[i] == '1' <==> NodeShown(v, nodes[i]))
    ensures forall i :: 0 <= i < |nodes| ==> (key[i] == '0' <==> !NodeShown(v, nodes[i]))
    decreases |nodes|
  {
    if |nodes| == 0 then ""
    else [if NodeShown(v, nodes[0]) then '1' else '0'] + CreateVisibilityKey(v, nodes[1..])
  }

  /** The nodes among the first `n` whose key character is `'1'`, in order. */
  function Marked(key: string, nodes: seq<RenderableNode>, n: nat): (r: seq<RenderableNode>)
    requires n <= |key| && n <= |nodes|
    ensures |r| <= n
  {
    if n == 0 then []
    else Marked(key, nodes, n - 1) + (if key[n - 1] == '1' then [nodes[n - 1]] else [])
  }

  function Min(a: int, b: int): int {
    if a < b then a else b
  }

  /** `parseVisibilityKey`: scans the first min(|key|, |nodes|) positions and keeps the
      nodes marked `'1'`, in their original order. */
  method ParseVisibilityKey(visKey: string, nodes: seq<RenderableNode>) returns (enabledNodes: seq<RenderableNode>)
    ensures enabledNodes == Marked(visKey, nodes, Min(|visKey|, |nodes|))
  {
    enabledNodes := [];
    var i := 0;
    while i < |nodes| && i < |visKey|
      invariant i <= |nodes| && i <= |visKey|
      invariant enabledNodes == Marked(visKey, nodes, i)
    {
      if visKey[i] == '1' {
        enabledNodes := enabledNodes + [nodes[i]];
      }
      i := i + 1;
    }
  }

  /** The shown nodes, in order: the reference for what a key decodes to. */
  function ShownNodes(v: NodeVisibility, nodes: seq<RenderableNode>): seq<RenderableNode>
    decreases |nodes|
  {
    if |nodes| == 0 then []
    else (if NodeShown(v, nodes[0]) then [nodes[0]] else []) + ShownNodes(v, nodes[1..])
  }

  lemma {:induction false} ShownNodesSnoc(v: NodeVisibility, nodes: seq<RenderableNode>, x: RenderableNode)
    ensures ShownNodes(v, nodes + [x]) == ShownNodes(v, nodes) + (if NodeShown(v, x) then [x] else [])
    decreases |nodes|
  {
    if |nodes| > 0 {
      assert (nodes + [x])[1..] == nodes[1..] + [x];
      ShownNodesSnoc(v, nodes[1..], x);
    } else {
      assert nodes + [x] == [x];
    }
  }

  /** Round trip: decoding the key built for an instance gives exactly the nodes that
      instance shows, in order. */
  lemma {:induction false} KeyRoundTrip(v: NodeVisibility, nodes: seq<RenderableNode>)
    ensures Marked(CreateVisibilityKey(v, nodes), nodes, |nodes|) == ShownNodes(v, nodes)
  {
    MarkedPrefix(CreateVisibilityKey(v, nodes), v, nodes, |nodes|);
    assert nodes[..|nodes|] == nodes;
  }

  lemma {:induction false} MarkedPrefix(key: string, v: NodeVisibility, nodes: seq<RenderableNode>, n: nat)
    requires |key| == |nodes| && n <= |nodes|
    requires forall i :: 0 <= i < |nodes| ==> (key[i] == '1' <==> NodeShown(v, nodes[i]))
    ensures Marked(key, nodes, n) == ShownNodes(v, nodes[..n])
  {
    if n == 0 {
      assert nodes[..0] == [];
    } else {
      MarkedPrefix(key, v, nodes, n - 1);
      var (prefix, x) := (nodes[..n - 1], nodes[n - 1]);
      assert key[n - 1] == '1' <==> NodeShown(v, x);
      assert nodes[..n] == prefix + [x];
      ShownNodesSnoc(v, prefix, x);
    }
  }

  datatype RenderBatch = RenderBatch(modelId: string, instances: seq<int>, renderableNodes: seq<RenderableNode>)

  /** One entry of the key -> instances map, in insertion order. */
  datatype VisibilityGroup = VisibilityGroup(key: string, members: seq<int>)

  ghost predicate KeysDistinct(g: seq<VisibilityGroup>) {
    forall a, b :: 0 <= a < |g| && 0 <= b < |g| && a != b ==> g[a].key != g[b].key
  }

  /** Every member of a group has that group's key. */
  ghost predicate Homogeneous(g: seq<VisibilityGroup>, keyOf: map<int, string>) {
    forall a, x :: 0 <= a < |g| && x in g[a].members ==> x in keyOf && keyOf[x] == g[a].key
  }

  ghost predicate MembersDistinct(g: seq<VisibilityGroup>) {
    forall a :: 0 <= a < |g| ==> Distinct(g[a].members) && |g[a].members| > 0
  }

  ghost predicate MembersDisjoint(g: seq<VisibilityGroup>) {
    forall a, b, x :: 0 <= a < |g| && 0 <= b < |g| && x in g[a].members && x in g[b].members ==> a == b
  }

  ghost function Members(g: seq<VisibilityGroup>): set<int> {
    set a, x | 0 <= a < |g| && x in g[a].members :: x
  }

  function IndexOfKey(g: seq<VisibilityGroup>, key: string): (r: int)
    ensures -1 <= r < |g|
    ensures r >= 0 ==> g[r].key == key
    ensures r < 0 ==> forall a :: 0 <= a < |g| ==> g[a].key != key
    decreases |g|
  {
    if |g| == 0 then -1
    else if g[|g| - 1].key == key then |g| - 1
    else IndexOfKey(g[..|g| - 1], key)
  }

  /** `visibilityGroups.get(key).add(id)`, creating the group when the key is new. */
  function AddToGroup(g: seq<VisibilityGroup>, key: string, id: int): (r: seq<VisibilityGroup>)
    ensures KeysDistinct(g) ==> KeysDistinct(r)
    ensures forall keyOf :: Homogeneous(g, keyOf) && id in keyOf && keyOf[id] == key ==> Homogeneous(r, keyOf)
    ensures MembersDistinct(g) && id !in Members(g) ==> MembersDistinct(r)
    ensures MembersDisjoint(g) && id !in Members(g) ==> MembersDisjoint(r)
    ensures Members(r) == Members(g) + {id}
  {
    var a := IndexOfKey(g, key);
    if a >= 0 then
      ExtendGroupMembers(g, a, id);
      ExtendGroupShape(g, a, id);
      g[a := g[a].(members := g[a].members + [id])]
    else
      AppendGroupMembers(g, key, id);
      g + [VisibilityGroup(key, [id])]
  }

  lemma ExtendGroupMembers(g: seq<VisibilityGroup>, a: int, id: int)
    requires 0 <= a < |g|
    ensures Members(g[a := g[a].(members := g[a].members + [id])]) == Members(g) + {id}
  {
    var r := g[a := g[a].(members := g[a].members + [id])];
    forall x | x in Members(r) ensures x in Members(g) + {id} {
      var b :| 0 <= b < |r| && x in r[b].members;
      if b != a { assert x in g[b].members; }
      else if x != id { assert x in g[a].members; }
    }
    forall x | x in Members(g) + {id} ensures x in Members(r) {
      if x == id { assert x in r[a].members; }
      else {
        var b :| 0 <= b < |g| && x in g[b].members;
        assert x in r[b].members;
      }
    }
  }

  lemma ExtendGroupShape(g: seq<VisibilityGroup>, a: int, id: int)
    requires 0 <= a < |g|
    ensures var r := g[a := g[a].(members := g[a].members + [id])];
            && (MembersDistinct(g) && id !in Members(g) ==> MembersDistinct(r))
            && (MembersDisjoint(g) && id !in Members(g) ==> MembersDisjoint(r))
  {
    var r := g[a := g[a].(members := g[a].members + [id])];
    if MembersDistinct(g) && id !in Members(g) {
      assert id !in g[a].members;
      DistinctSnoc(g[a].members, id);
    }
    if MembersDisjoint(g) && id !in Members(g) {
      forall b | 0 <= b < |r| && b != a ensures id !in r[b].members {
        assert r[b] == g[b];
      }
      forall b, c, x | 0 <= b < |r| && 0 <= c < |r| && x in r[b].members && x in r[c].members
        ensures b == c
      {
        if x != id {
          assert x in g[b].members && x in g[c].members;
        }
      }
    }
  }

  lemma AppendGroupMembers(g: seq<VisibilityGroup>, key: string, id: int)
    ensures Members(g + [VisibilityGroup(key, [id])]) == Members(g) + {id}
    ensures MembersDisjoint(g) && id !in Members(g) ==> MembersDisjoint(g + [VisibilityGroup(key, [id])])
  {
    var r := g + [VisibilityGroup(key, [id])];
    forall x | x in Members(r) ensures x in Members(g) + {id} {
      var b :| 0 <= b < |r| && x in r[b].members;
      if b < |g| { assert x in g[b].members; }
    }
    forall x | x in Members(g) + {id} ensures x in Members(r) {
      if x == id { assert x in r[|g|].members; }
      else {
        var b :| 0 <= b < |g| && x in g[b].members;
        assert x in r[b].members;
      }
    }
    if MembersDisjoint(g) && id !in Members(g) {
      forall b, c, x | 0 <= b < |r| && 0 <= c < |r| && x in r[b].members && x in r[c].members
        ensures b == c
      {
        if b < |g| { assert x in g[b].members; }
        if c < |g| { assert x in g[c].members; }
      }
    }
  }

  /** The visibility key of every instance that has a handle. */
  ghost function KeyTable(models: map<int, NodeVisibility>, nodes: seq<RenderableNode>): map<int, string> {
    map id | id in models :: CreateVisibilityKey(models[id], nodes)
  }

  /** Groups the instances of `instanceGroup` that have a handle by visibility key. */
  method GroupByKey(instanceGroup: seq<int>, models: map<int, NodeVisibility>, nodes: seq<RenderableNode>)
    returns (groups: seq<VisibilityGroup>)
    requires Distinct(instanceGroup)
    ensures KeysDistinct(groups) && MembersDistinct(groups) && MembersDisjoint(groups)
    ensures Homogeneous(groups, KeyTable(models, nodes))
    ensures Members(groups) == set id | id in instanceGroup && id in models
  {
    ghost var keyOf := KeyTable(models, nodes);
    groups := [];
    var i := 0;
    while i < |instanceGroup|
      invariant i <= |instanceGroup|
      invariant KeysDistinct(groups) && MembersDistinct(groups) && MembersDisjoint(groups)
      invariant Homogeneous(groups, keyOf)
      invariant Members(groups) == set id | id in instanceGroup[..i] && id in models
    {
      var id := instanceGroup[i];
      if id in models {
        var visKey := CreateVisibilityKey(models[id], nodes);
        assert id !in instanceGroup[..i];
        groups := AddToGroup(groups, visKey, id);
      }
      assert instanceGroup[..i + 1] == instanceGroup[..i] + [id];
      i := i + 1;
    }
    assert instanceGroup[..i] == instanceGroup;
  }

  /** The batch built from one visibility group: its members, and its key decoded. */
  function BatchOf(modelId: string, group: VisibilityGroup, nodes: seq<RenderableNode>): RenderBatch {
    RenderBatch(modelId, group.members, Marked(group.key, nodes, Min(|group.key|, |nodes|)))
  }

  ghost predicate BuiltFrom(batches: seq<RenderBatch>, modelId: string, groups: seq<VisibilityGroup>, nodes: seq<RenderableNode>) {
    |batches| == |groups| && forall j :: 0 <= j < |groups| ==> batches[j] == BatchOf(modelId, groups[j], nodes)
  }

  /** One batch per group, in the order the groups were created. */
  method BatchesFromGroups(modelId: string, groups: seq<VisibilityGroup>, nodes: seq<RenderableNode>)
    returns (batches: seq<RenderBatch>)
    ensures BuiltFrom(batches, modelId, groups, nodes)
  {
    batches := [];
    var k := 0;
    while k < |groups|
      invariant k <= |groups|
      invariant |batches| == k
      invariant forall j :: 0 <= j < k ==> batches[j] == BatchOf(modelId, groups[j], nodes)
    {
      var enabledNodes := ParseVisibilityKey(groups[k].key, nodes);
      batches := batches + [RenderBatch(modelId, groups[k].members, enabledNodes)];
      k := k + 1;
    }
  }

  /** Every instance with a handle lands in exactly one batch, and nothing else does. */
  lemma BatchesPartition(batches: seq<RenderBatch>, modelId: string, groups: seq<VisibilityGroup>,
                         nodes: seq<RenderableNode>, instanceGroup: seq<int>, models: map<int, NodeVisibility>)
    requires BuiltFrom(batches, modelId, groups, nodes)
    requires MembersDisjoint(groups)
    requires Members(groups) == set id | id in instanceGroup && id in models
    ensures forall id :: (id in instanceGroup && id in models) <==>
                         exists i :: 0 <= i < |batches| && id in batches[i].instances
    ensures forall i, j, id :: (0 <= i < |batches| && 0 <= j < |batches| &&
              id in batches[i].instances && id in batches[j].instances) ==> i == j
  {
    forall id | id in instanceGroup && id in models
      ensures exists i :: 0 <= i < |batches| && id in batches[i].instances
    {
      assert id in Members(groups);
      var i :| 0 <= i < |groups| && id in groups[i].members;
      assert id in batches[i].instances;
    }
    forall id, i | 0 <= i < |batches| && id in batches[i].instances
      ensures id in instanceGroup && id in models
    {
      assert id in groups[i].members;
      assert id in Members(groups);
    }
    forall i, j, id | 0 <= i < |batches| && 0 <= j < |batches| &&
        id in batches[i].instances && id in batches[j].instances
      ensures i == j
    {
      assert id in groups[i].members && id in groups[j].members;
    }
  }

  /** Each batch draws exactly the nodes its instances show, and two batches never share a key. */
  lemma BatchesFollowKeys(batches: seq<RenderBatch>, modelId: string, groups: seq<VisibilityGroup>,
                          nodes: seq<RenderableNode>, models: map<int, NodeVisibility>)
    requires BuiltFrom(batches, modelId, groups, nodes)
    requires KeysDistinct(groups) && Homogeneous(groups, KeyTable(models, nodes))
    ensures forall i, id :: 0 <= i < |batches| && id in batches[i].instances ==>
              id in models && batches[i].renderableNodes == ShownNodes(models[id], nodes)
    ensures forall i, j, x, y :: (0 <= i < |batches| && 0 <= j < |batches| && i != j &&
              x in batches[i].instances && y in batches[j].instances) ==>
              x in models && y in models &&
              CreateVisibilityKey(models[x], nodes) != CreateVisibilityKey(models[y], nodes)
  {
    var keyOf := KeyTable(models, nodes);
    forall i, id | 0 <= i < |batches| && id in batches[i].instances
      ensures id in models && batches[i].renderableNodes == ShownNodes(models[id], nodes)
    {
      assert id in groups[i].members;
      assert id in keyOf && keyOf[id] == groups[i].key;
      KeyRoundTrip(models[id], nodes);
    }
    forall i, j, x, y | 0 <= i < |batches| && 0 <= j < |batches| && i != j &&
        x in batches[i].instances && y in batches[j].instances
      ensures x in models && y in models && CreateVisibilityKey(models[x], nodes) != CreateVisibilityKey(models[y], nodes)
    {
      assert x in groups[i].members && y in groups[j].members;
      assert x in keyOf && keyOf[x] == groups[i].key;
      assert y in keyOf && keyOf[y] == groups[j].key;
    }
  }

  /** `createRenderBatches`: no batch when the model is not loaded; otherwise one batch per
      distinct key, whose node list is the key decoded. */
  method CreateRenderBatches(modelId: string, instanceGroup: seq<int>, loader: Loader, models: map<int, NodeVisibility>)
    returns (batches: seq<RenderBatch>)
    requires Distinct(instanceGroup)
    ensures modelId !in loader ==> batches == []
    ensures forall i :: 0 <= i < |batches| ==> batches[i].modelId == modelId
    ensures forall i :: 0 <= i < |batches| ==> Distinct(batches[i].instances) && |batches[i].instances| > 0
    ensures modelId in loader ==>
              forall id :: (id in instanceGroup && id in models) <==>
                           exists i :: 0 <= i < |batches| && id in batches[i].instances
    ensures forall i, j, id :: (0 <= i < |batches| && 0 <= j < |batches| &&
              id in batches[i].instances && id in batches[j].instances) ==> i == j
    ensures modelId in loader ==>
              forall i, id :: 0 <= i < |batches| && id in batches[i].instances ==>
                id in models && batches[i].renderableNodes == ShownNodes(models[id], loader[modelId].renderableNodes)
    ensures modelId in loader ==>
              forall i, j, x, y :: (0 <= i < |batches| && 0 <= j < |batches| && i != j &&
                x in batches[i].instances && y in batches[j].instances) ==>
                x in models && y in models &&
                CreateVisibilityKey(models[x], loader[modelId].renderableNodes) !=
                CreateVisibilityKey(models[y], loader[modelId].renderableNodes)
  {
    if modelId !in loader {
      return [];
    }
    var nodes := loader[modelId].renderableNodes;
    var groups := GroupByKey(instanceGroup, models, nodes);
    batches := BatchesFromGroups(modelId, groups, nodes);
    BatchesPartition(batches, modelId, groups, nodes, instanceGroup, models);
    BatchesFollowKeys(batches, modelId, groups, nodes, models);
  }

  /** One draw call: instance, node position, primitive position. */
  datatype Draw = Draw(instanceId: int, node: nat, primitive: nat)

  /** The indexed primitives among the first `n` of a node's primitives. */
  function PrimitiveDraws(id: int, node: nat, prims: seq<Primitive>, n: nat): (r: seq<Draw>)
    requires n <= |prims|
    ensures forall d :: d in r <==>
              d.instanceId == id && d.node == node && d.primitive < n && prims[d.primitive].hasIndexBuffer
  {
    if n == 0 then []
    else PrimitiveDraws(id, node, prims, n - 1) + (if prims[n - 1].hasIndexBuffer then [Draw(id, node, n - 1)] else [])
  }

  /** The draws of one instance over the first `n` renderable nodes, skipping hidden nodes. */
  function NodeDraws(id: int, v: NodeVisibility, nodes: seq<RenderableNode>, n: nat): (r: seq<Draw>)
    requires n <= |nodes|
    ensures forall d :: d in r <==>
              && d.instanceId == id && d.node < n
              && NodeShown(v, nodes[d.node])
              && d.primitive < |nodes[d.node].primitives|
              && nodes[d.node].primitives[d.primitive].hasIndexBuffer
  {
    if n == 0 then []
    else
      NodeDraws(id, v, nodes, n - 1) +
      (if NodeShown(v, nodes[n - 1]) then PrimitiveDraws(id, n - 1, nodes[n - 1].primitives, |nodes[n - 1].primitives|) else [])
  }

  /** The filtering render loop over the first `n` instances of a group: unknown
      instances are skipped, hidden nodes are skipped, and only indexed primitives are drawn. */
  function RenderDraws(instanceGroup: seq<int>, live: set<int>, models: map<int, NodeVisibility>,
                       nodes: seq<RenderableNode>, n: nat): (r: seq<Draw>)
    requires n <= |instanceGroup|
    requires forall id :: id in instanceGroup && id in live ==> id in models
    ensures forall d :: d in r <==>
              && d.instanceId in instanceGroup[..n] && d.instanceId in live
              && d.node < |nodes|
              && NodeShown(models[d.instanceId], nodes[d.node])
              && d.primitive < |nodes[d.node].primitives|
              && nodes[d.node].primitives[d.primitive].hasIndexBuffer
  {
    if n == 0 then []
    else
      var id := instanceGroup[n - 1];
      assert instanceGroup[..n] == instanceGroup[..n - 1] + [id];
      RenderDraws(instanceGroup, live, models, nodes, n - 1) +
      (if id in live then NodeDraws(id, models[id], nodes, |nodes|) else [])
  }
}
