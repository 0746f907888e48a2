/** The client-side graph store: the nodes and edges of the canvas, the uploaded table's metadata,
    the trained flag, the evidence and the posterior distributions, plus the messages and counters
    the interface watches. Every action replaces some fields and keeps the others. The xyflow
    helpers that apply drag, select and delete changes are parameters. */
module FlowStore {
  import opened Wrappers
  import opened Text

  /** A distribution over state names. */
  type Dist = map<string, real>

  /** A prior over state names. */
  type Prior = map<string, real>

  datatype Position = Position(x: int, y: int)

  /** A canvas node; the label always repeats the id, the node's name. CSV nodes are not manual and
      have no prior. */
  datatype Node = Node(
    id: string,
    position: Position,
    labelText: string,
    states: seq<string>,
    distribution: Option<Dist>,
    isManual: bool,
    prior: Option<Prior>)

  /** A directed edge; its id is "source-target". */
  datatype Edge = Edge(id: string, source: string, target: string)

  datatype Connection = Connection(source: string, target: string)

  /** The upload response kept as metadata. */
  datatype Metadata = Metadata(
    columns: seq<string>,
    metaInfo: map<string, seq<string>>,
    rowCount: nat,
    columnCount: nat)

  /** What getNodeDefinitions hands to build_from_priors. */
  datatype NodeDefinition = NodeDefinition(name: string, states: seq<string>, prior: Option<Prior>)

  /** Every field of the store. */
  datatype StoreState = StoreState(
    nodes: seq<Node>,
    edges: seq<Edge>,
    metadata: Option<Metadata>,
    modelTrained: bool,
    evidence: map<string, string>,
    distributions: map<string, Dist>,
    isLoading: bool,
    error: Option<string>,
    successMessage: Option<string>,
    autoLayoutTrigger: nat)

  const InitialState := StoreState([], [], None, false, map[], map[], false, None, None, 0)

  /** The state setError(e) leaves: the error set, loading ended, any success message gone. */
  function AfterSetError(s: StoreState, e: Option<string>): StoreState {
    s.(error := e, isLoading := false, successMessage := None)
  }

  /** The state setLoading(b) leaves. */
  function AfterSetLoading(s: StoreState, b: bool): StoreState {
    s.(isLoading := b)
  }

  const StartX := 50
  const StartY := 50
  const GapX := 200
  const GapY := 120

  // ---------------------------------------------------------------- grid placement

  function SqrtSearch(n: nat, r: nat): (s: nat)
    requires r == 0 || (r - 1) * (r - 1) < n
    ensures n <= s * s
    ensures s == 0 || (s - 1) * (s - 1) < n
    decreases n - r
  {
    if n <= r * r then r
    else
      assert r <= r * r;
      SqrtSearch(n, r + 1)
  }

  /** Math.ceil(Math.sqrt(n)): the least r with n <= r * r. */
  function CeilSqrt(n: nat): (r: nat)
    ensures n <= r * r
    ensures r == 0 || (r - 1) * (r - 1) < n
  {
    SqrtSearch(n, 0)
  }

  lemma CeilSqrtPositive(n: nat)
    requires n > 0
    ensures CeilSqrt(n) > 0
  {
  }

  /** The slot of the index-th node in a grid perRow nodes wide. */
  function GridSlot(index: nat, perRow: nat): (p: Position)
    requires perRow > 0
    ensures p.x >= StartX && p.y >= StartY
    ensures p.x < StartX + perRow * GapX
  {
    Position(StartX + (index % perRow) * GapX, StartY + (index / perRow) * GapY)
  }

  lemma MulMonotone(r: nat, a: nat, b: nat)
    requires a <= b
    ensures r * a <= r * b
  {
  }

  /** Below r * r, the quotient by r stays below r. */
  lemma DivBelowSquare(i: nat, r: nat)
    requires r > 0 && i < r * r
    ensures i / r < r
  {
    var q := i / r;
    assert r * q + i % r == i;
    MulMonotone(r, r, if q < r then r else q);
  }

  /** Different indices get different slots. */
  lemma GridSlotsDistinct(i: nat, j: nat, perRow: nat)
    requires perRow > 0 && i != j
    ensures GridSlot(i, perRow) != GridSlot(j, perRow)
  {
    assert i == perRow * (i / perRow) + i % perRow;
    assert j == perRow * (j / perRow) + j % perRow;
  }

  /** n nodes placed r = ceil(sqrt(n)) to a row fill at most r rows. */
  lemma GridSlotWithinSquare(i: nat, n: nat)
    requires i < n
    ensures var r := CeilSqrt(n);
      r > 0 && GridSlot(i, r).y < StartY + r * GapY
  {
    var r := CeilSqrt(n);
    DivBelowSquare(i, r);
  }

  /** calculateNodePositions followed by setNodesFromCSV's states: one node per column, in column
      order, named by the column, with the column's states when the metadata has them. */
  function ImportNodes(columns: seq<string>, metaInfo: map<string, seq<string>>): (nodes: seq<Node>)
    ensures |nodes| == |columns|
    ensures forall i :: 0 <= i < |columns| ==>
      && nodes[i].id == columns[i] && nodes[i].labelText == columns[i]
      && nodes[i].states == (if columns[i] in metaInfo then metaInfo[columns[i]] else [])
      && nodes[i].position == GridSlot(i, CeilSqrt(|columns|))
      && nodes[i].distribution == None && !nodes[i].isManual && nodes[i].prior == None
  {
    if |columns| == 0 then []
    else
      var perRow := CeilSqrt(|columns|);
      seq(|columns|, i requires 0 <= i < |columns| =>
        Node(columns[i], GridSlot(i, perRow), columns[i],
             if columns[i] in metaInfo then metaInfo[columns[i]] else [], None, false, None))
  }

  /** Imported nodes never share a position. */
  lemma ImportedPositionsDistinct(columns: seq<string>, metaInfo: map<string, seq<string>>, i: nat, j: nat)
    requires i < |columns| && j < |columns| && i != j
    ensures ImportNodes(columns, metaInfo)[i].position != ImportNodes(columns, metaInfo)[j].position
  {
    GridSlotsDistinct(i, j, CeilSqrt(|columns|));
  }

  /** The slot addManualNode gives a node appended after `count` nodes. */
  function ManualSlot(count: nat): (p: Position) {
    var root := CeilSqrt(count + 1);
    GridSlot(count, if root < 2 then 2 else root)
  }

  // ---------------------------------------------------------------- edges

  /** The id of the edge from source to target. */
  function EdgeId(source: string, target: string): string {
    source + "-" + target
  }

  /** getEdgeList: the (source, target) pairs of the edges, in order. */
  function EdgeList(edges: seq<Edge>): (pairs: seq<Connection>)
    ensures |pairs| == |edges|
    ensures forall i :: 0 <= i < |edges| ==> pairs[i] == Connection(edges[i].source, edges[i].target)
  {
    seq(|edges|, i requires 0 <= i < |edges| => Connection(edges[i].source, edges[i].target))
  }

  /** setEdgesFromLearned's edges: one per learned pair, in order, each with its "source-target"
      id, so that getEdgeList gives the learned pairs back. */
  function EdgesFromLearned(learned: seq<Connection>): (edges: seq<Edge>)
    ensures |edges| == |learned|
    ensures forall i :: 0 <= i < |learned| ==> edges[i].id == EdgeId(learned[i].source, learned[i].target)
    ensures EdgeList(edges) == learned
  {
    seq(|learned|, i requires 0 <= i < |learned| =>
      Edge(EdgeId(learned[i].source, learned[i].target), learned[i].source, learned[i].target))
  }

  /** The edge onConnect builds for a connection. */
  function ConnectionEdge(c: Connection): Edge {
    Edge(EdgeId(c.source, c.target), c.source, c.target)
  }

  // ---------------------------------------------------------------- removal

  /** nodes.filter(n => n.id !== id). */
  function NodesWithout(nodes: seq<Node>, id: string): (kept: seq<Node>)
    ensures |kept| <= |nodes|
    ensures forall n :: n in kept <==> n in nodes && n.id != id
  {
    if nodes == [] then []
    else (if nodes[0].id == id then [] else [nodes[0]]) + NodesWithout(nodes[1..], id)
  }

  /** edges.filter(e => e.source !== id && e.target !== id). */
  function EdgesAvoiding(edges: seq<Edge>, id: string): (kept: seq<Edge>)
    ensures |kept| <= |edges|
    ensures forall e :: e in kept <==> e in edges && e.source != id && e.target != id
  {
    if edges == [] then []
    else (if edges[0].source == id || edges[0].target == id then [] else [edges[0]]) + EdgesAvoiding(edges[1..], id)
  }

  /** Filtering a concatenation filters each part in place: the survivors keep their order. */
  lemma {:induction false} NodesWithoutAppend(a: seq<Node>, b: seq<Node>, id: string)
    ensures NodesWithout(a + b, id) == NodesWithout(a, id) + NodesWithout(b, id)
  {
    if a != [] {
      assert (a + b)[1..] == a[1..] + b;
      NodesWithoutAppend(a[1..], b, id);
    } else {
      assert a + b == b;
    }
  }

  lemma {:induction false} EdgesAvoidingAppend(a: seq<Edge>, b: seq<Edge>, id: string)
    ensures EdgesAvoiding(a + b, id) == EdgesAvoiding(a, id) + EdgesAvoiding(b, id)
  {
    if a != [] {
      assert (a + b)[1..] == a[1..] + b;
      EdgesAvoidingAppend(a[1..], b, id);
    } else {
      assert a + b == b;
    }
  }

  /** Removing an id no node has keeps every node. */
  lemma {:induction false} NodesWithoutAbsent(nodes: seq<Node>, id: string)
    requires forall i :: 0 <= i < |nodes| ==> nodes[i].id != id
    ensures NodesWithout(nodes, id) == nodes
  {
    if nodes != [] {
      NodesWithoutAbsent(nodes[1..], id);
    }
  }

  /** Removing an id no edge touches keeps every edge. */
  lemma {:induction false} EdgesAvoidingUntouched(edges: seq<Edge>, id: string)
    requires forall i :: 0 <= i < |edges| ==> edges[i].source != id && edges[i].target != id
    ensures EdgesAvoiding(edges, id) == edges
  {
    if edges != [] {
      EdgesAvoidingUntouched(edges[1..], id);
    }
  }

  function CountId(nodes: seq<Node>, id: string): nat {
    if nodes == [] then 0 else (if nodes[0].id == id then 1 else 0) + CountId(nodes[1..], id)
  }

  /** Exactly the nodes with the id are removed. */
  lemma {:induction false} NodesWithoutCount(nodes: seq<Node>, id: string)
    ensures |NodesWithout(nodes, id)| + CountId(nodes, id) == |nodes|
  {
    if nodes != [] {
      NodesWithoutCount(nodes[1..], id);
    }
  }

  // ---------------------------------------------------------------- evidence

  /** setEvidence's new map: clicking the state already chosen removes the entry, any other click
      sets it. */
  function Toggle(evidence: map<string, string>, node: string, state: string): (r: map<string, string>)
    ensures node in evidence && evidence[node] == state ==> node !in r
    ensures !(node in evidence && evidence[node] == state) ==> node in r && r[node] == state
    ensures forall k :: k != node ==> (k in r <==> k in evidence) && (k in r ==> r[k] == evidence[k])
  {
    if node in evidence && evidence[node] == state then evidence - {node} else evidence[node := state]
  }

  /** Clicking the same state twice restores the evidence when the node had no entry or already had
      that state. */
  lemma ToggleTwice(evidence: map<string, string>, node: string, state: string)
    requires node !in evidence || evidence[node] == state
    ensures Toggle(Toggle(evidence, node, state), node, state) == evidence
  {
    var once := Toggle(evidence, node, state);
    var twice := Toggle(once, node, state);
    if node in evidence {
      assert node !in once;
      assert twice == once[node := state];
    } else {
      assert twice == evidence - {node};
    }
    assert twice.Keys == evidence.Keys;
  }

  // ---------------------------------------------------------------- node projections

  /** updateNodePrior's nodes: the nodes with the id get the prior, nothing else changes. */
  function WithPrior(nodes: seq<Node>, id: string, prior: Option<Prior>): (r: seq<Node>)
    ensures |r| == |nodes|
    ensures forall i :: 0 <= i < |nodes| ==>
      r[i] == if nodes[i].id == id then nodes[i].(prior := prior) else nodes[i]
  {
    seq(|nodes|, i requires 0 <= i < |nodes| => if nodes[i].id == id then nodes[i].(prior := prior) else nodes[i])
  }

  /** updateDistributions' nodes: each node's distribution is its entry, or none. */
  function WithDistributions(nodes: seq<Node>, dists: map<string, Dist>): (r: seq<Node>)
    ensures |r| == |nodes|
    ensures forall i :: 0 <= i < |nodes| ==>
      r[i] == nodes[i].(distribution := if nodes[i].id in dists then Some(dists[nodes[i].id]) else None)
  {
    seq(|nodes|, i requires 0 <= i < |nodes| =>
      nodes[i].(distribution := if nodes[i].id in dists then Some(dists[nodes[i].id]) else None))
  }

  /** Replacing distributions never changes which nodes there are or their order. */
  lemma WithDistributionsKeepsIds(nodes: seq<Node>, dists: map<string, Dist>)
    ensures forall i :: 0 <= i < |nodes| ==> WithDistributions(nodes, dists)[i].id == nodes[i].id
    ensures forall i :: 0 <= i < |nodes| ==>
      WithDistributions(nodes, dists)[i].(distribution := nodes[i].distribution) == nodes[i]
  {
  }

  /** getNodeDefinitions: name, states and prior of each node, in order. */
  function NodeDefinitions(nodes: seq<Node>): (defs: seq<NodeDefinition>)
    ensures |defs| == |nodes|
    ensures forall i :: 0 <= i < |nodes| ==>
      defs[i] == NodeDefinition(nodes[i].id, nodes[i].states, nodes[i].prior)
  {
    seq(|nodes|, i requires 0 <= i < |nodes| => NodeDefinition(nodes[i].id, nodes[i].states, nodes[i].prior))
  }

  /** hasManualNodes: some node was added by hand. */
  function HasManualNodes(nodes: seq<Node>): (b: bool)
    ensures b <==> exists i :: 0 <= i < |nodes| && nodes[i].isManual
  {
    if nodes == [] then false
    else
      assert forall i :: 0 < i < |nodes| ==> nodes[1..][i - 1] == nodes[i];
      nodes[0].isManual || HasManualNodes(nodes[1..])
  }

  /** A freshly imported canvas has no manual node. */
  lemma ImportedNodesAreNotManual(columns: seq<string>, metaInfo: map<string, seq<string>>)
    ensures !HasManualNodes(ImportNodes(columns, metaInfo))
  {
  }

  // ---------------------------------------------------------------- the store

  class Store {
    var nodes: seq<Node>
    var edges: seq<Edge>
    var metadata: Option<Metadata>
    var modelTrained: bool
    var evidence: map<string, string>
    var distributions: map<string, Dist>
    var isLoading: bool
    var error: Option<string>
    var successMessage: Option<string>
    var autoLayoutTrigger: nat

    function Snapshot(): StoreState
      reads this
    {
      StoreState(nodes, edges, metadata, modelTrained, evidence, distributions,
                 isLoading, error, successMessage, autoLayoutTrigger)
    }

    constructor ()
      ensures Snapshot() == InitialState
    {
      nodes := [];
      edges := [];
      metadata := None;
      modelTrained := false;
      evidence := map[];
      distributions := map[];
      isLoading := false;
      error := None;
      successMessage := None;
      autoLayoutTrigger := 0;
    }

    /** onNodesChange: the xyflow helper applies drags, selections and deletions to the nodes;
        the trained flag stays. */
    method OnNodesChange<C>(changes: seq<C>, applyNodeChanges: (seq<C>, seq<Node>) -> seq<Node>)
      modifies this
      ensures Snapshot() == old(Snapshot()).(nodes := applyNodeChanges(changes, old(nodes)))
    {
      nodes := applyNodeChanges(changes, nodes);
    }

    /** onEdgesChange: the xyflow helper applies the changes to the edges; the model is stale. */
    method OnEdgesChange<C>(changes: seq<C>, applyEdgeChanges: (seq<C>, seq<Edge>) -> seq<Edge>)
      modifies this
      ensures Snapshot() == old(Snapshot()).(edges := applyEdgeChanges(changes, old(edges)), modelTrained := false)
    {
      edges := applyEdgeChanges(changes, edges);
      modelTrained := false;
    }

    /** onConnect: the "source-target" edge is handed to xyflow's addEdge; the model is stale. */
    method OnConnect(c: Connection, addEdge: (Edge, seq<Edge>) -> seq<Edge>)
      modifies this
      ensures Snapshot() == old(Snapshot()).(edges := addEdge(ConnectionEdge(c), old(edges)), modelTrained := false)
    {
      edges := addEdge(ConnectionEdge(c), edges);
      modelTrained := false;
    }

    /** setNodesFromCSV: the canvas becomes the table's columns, without edges. */
    method SetNodesFromCsv(response: Metadata)
      modifies this
      ensures Snapshot() == old(Snapshot()).(
        nodes := ImportNodes(response.columns, response.metaInfo), edges := [],
        metadata := Some(response), error := None, modelTrained := false)
    {
      nodes := ImportNodes(response.columns, response.metaInfo);
      edges := [];
      metadata := Some(response);
      error := None;
      modelTrained := false;
    }

    /** setEdgesFromLearned: the edges become the learned ones and the layout is asked for once
        more. */
    method SetEdgesFromLearned(learned: seq<Connection>)
      modifies this
      ensures Snapshot() == old(Snapshot()).(
        edges := EdgesFromLearned(learned), modelTrained := false, autoLayoutTrigger := old(autoLayoutTrigger) + 1)
      ensures EdgeList(edges) == learned
    {
      edges := EdgesFromLearned(learned);
      modelTrained := false;
      autoLayoutTrigger := autoLayoutTrigger + 1;
    }

    method ClearEdges()
      modifies this
      ensures Snapshot() == old(Snapshot()).(edges := [], modelTrained := false)
    {
      edges := [];
      modelTrained := false;
    }

    method SetModelTrained(trained: bool)
      modifies this
      ensures Snapshot() == old(Snapshot()).(modelTrained := trained)
    {
      modelTrained := trained;
    }

    method SetLoading(loading: bool)
      modifies this
      ensures Snapshot() == AfterSetLoading(old(Snapshot()), loading)
    {
      isLoading := loading;
    }

    /** setError: the error replaces any success message and ends loading, even when it is null. */
    method SetError(e: Option<string>)
      modifies this
      ensures Snapshot() == AfterSetError(old(Snapshot()), e)
    {
      error := e;
      isLoading := false;
      successMessage := None;
    }

    /** setSuccess: the message replaces any error. */
    method SetSuccess(message: Option<string>)
      modifies this
      ensures Snapshot() == old(Snapshot()).(successMessage := message, error := None)
    {
      successMessage := message;
      error := None;
    }

    /** addManualNode: one manual node appended at the next grid slot; no name is checked. */
    method AddManualNode(name: string, states: seq<string>, prior: Option<Prior>)
      modifies this
      ensures Snapshot() == old(Snapshot()).(
        nodes := old(nodes) + [Node(name, ManualSlot(|old(nodes)|), name, states, None, true, prior)],
        modelTrained := false)
      ensures HasManualNodes(nodes)
    {
      var slot := ManualSlot(|nodes|);
      nodes := nodes + [Node(name, slot, name, states, None, true, prior)];
      modelTrained := false;
      assert nodes[|nodes| - 1].isManual;
    }

    /** updateNodePrior: the prior of the nodes with the id; the model is stale. */
    method UpdateNodePrior(id: string, prior: Option<Prior>)
      modifies this
      ensures Snapshot() == old(Snapshot()).(nodes := WithPrior(old(nodes), id, prior), modelTrained := false)
    {
      nodes := WithPrior(nodes, id, prior);
      modelTrained := false;
    }

    /** clearCanvas: back to the initial state, except that loading and the layout counter stay. */
    method ClearCanvas()
      modifies this
      ensures Snapshot() == InitialState.(isLoading := old(isLoading), autoLayoutTrigger := old(autoLayoutTrigger))
    {
      nodes := [];
      edges := [];
      metadata := None;
      error := None;
      modelTrained := false;
      successMessage := None;
      evidence := map[];
      distributions := map[];
    }

    /** removeNode: the node and every edge touching it go; the model is stale. */
    method RemoveNode(id: string)
      modifies this
      ensures Snapshot() == old(Snapshot()).(
        nodes := NodesWithout(old(nodes), id), edges := EdgesAvoiding(old(edges), id), modelTrained := false)
    {
      nodes := NodesWithout(nodes, id);
      edges := EdgesAvoiding(edges, id);
      modelTrained := false;
    }

    method ClearMessages()
      modifies this
      ensures Snapshot() == old(Snapshot()).(error := None, successMessage := None)
    {
      error := None;
      successMessage := None;
    }

    method TriggerAutoLayout()
      modifies this
      ensures Snapshot() == old(Snapshot()).(autoLayoutTrigger := old(autoLayoutTrigger) + 1)
    {
      autoLayoutTrigger := autoLayoutTrigger + 1;
    }

    /** setEvidence: toggles the node's entry; nothing else changes. */
    method SetEvidence(node: string, state: string)
      modifies this
      ensures Snapshot() == old(Snapshot()).(evidence := Toggle(old(evidence), node, state))
    {
      var updated := evidence;
      if node in updated && updated[node] == state {
        updated := updated - {node};
      } else {
        updated := updated[node := state];
      }
      evidence := updated;
    }

    /** clearEvidence: no evidence and no distributions. */
    method ClearEvidence()
      modifies this
      ensures Snapshot() == old(Snapshot()).(evidence := map[], distributions := map[])
    {
      evidence := map[];
      distributions := map[];
    }

    /** updateDistributions: stores the distributions and copies each node's entry onto it. */
    method UpdateDistributions(dists: map<string, Dist>)
      modifies this
      ensures Snapshot() == old(Snapshot()).(distributions := dists, nodes := WithDistributions(old(nodes), dists))
    {
      distributions := dists;
      nodes := WithDistributions(nodes, dists);
    }
  }
}
