/** The backend's Bayesian-network engine: its lifecycle (data, structure, fitted flag and
    inference engine), the DAG check, the conversion of evidence strings to model states,
    queries, and the construction of a network from user priors. pgmpy's estimators and
    inference and networkx's cycle enumeration are parameters. */
module Engine {
  import opened Wrappers
  import opened Text
  import opened Data

  /** An edge as (parent, child). */
  type Pair = (string, string)

  /** A distribution over the string forms of a node's states. */
  type Dist = map<string, real>

  const CyclePrefix := "Cycle detected: "

  /** Checks that every consecutive pair of w is an edge. */
  ghost predicate IsWalk(edges: seq<Pair>, w: seq<string>) {
    forall i :: 0 <= i < |w| - 1 ==> (w[i], w[i + 1]) in edges
  }

  /** c lists the nodes of a directed cycle: a walk from c[0] to its last node, closed by an edge. */
  ghost predicate IsCycle(edges: seq<Pair>, c: seq<string>) {
    |c| >= 1 && IsWalk(edges, c) && (c[|c| - 1], c[0]) in edges
  }

  ghost predicate HasCycle(edges: seq<Pair>) {
    exists c :: IsCycle(edges, c)
  }

  /** What networkx's simple_cycles promises: it lists only cycles, and at least one when the
      graph has any. */
  ghost predicate SimpleCyclesOf(edges: seq<Pair>, cycles: seq<seq<string>>) {
    && (forall k :: 0 <= k < |cycles| ==> IsCycle(edges, cycles[k]))
    && (HasCycle(edges) ==> cycles != [])
  }

  datatype DagCheck = DagCheck(isValid: bool, message: string)

  /** The path reported for a cycle: its nodes, then its first node again. */
  function ReportedPath(c: seq<string>): seq<string>
    requires |c| >= 1
  {
    c + [c[0]]
  }

  /** validate_dag. `cycles` is simple_cycles of the graph the edges make. */
  function ValidateDag(edges: seq<Pair>, cycles: seq<seq<string>>): (r: DagCheck)
    requires SimpleCyclesOf(edges, cycles)
    ensures r.isValid <==> !HasCycle(edges)
    ensures r.isValid ==> r.message == ""
    ensures edges == [] ==> r == DagCheck(true, "")
    ensures !r.isValid ==> |cycles| > 0 && r.message == CyclePrefix + Join(ReportedPath(cycles[0]), " -> ")
  {
    if edges == [] then
      assert forall c :: !IsCycle(edges, c);
      DagCheck(true, "")
    else if cycles != [] then
      assert IsCycle(edges, cycles[0]);
      DagCheck(false, CyclePrefix + Join(ReportedPath(cycles[0]), " -> "))
    else DagCheck(true, "")
  }

  /** The reported path is a closed walk of the graph: it ends at the node it starts from. */
  lemma ReportedPathIsClosedWalk(edges: seq<Pair>, c: seq<string>)
    requires IsCycle(edges, c)
    ensures var p := ReportedPath(c);
      |p| >= 2 && p[0] == p[|p| - 1] && IsWalk(edges, p)
  {
    var p := ReportedPath(c);
    forall i | 0 <= i < |p| - 1 ensures (p[i], p[i + 1]) in edges {
      if i < |c| - 1 {
        assert p[i] == c[i] && p[i + 1] == c[i + 1];
      }
    }
  }

  // ---------------------------------------------------------------- networks

  /** A conditional probability table: one row per state of `variable`, one column per
      combination of the parents' states. */
  datatype Cpd = Cpd(variable: string, states: seq<Value>, values: seq<seq<real>>, parents: seq<string>)

  /** A network: nodes and edges in insertion order (no repeats) and the tables added so far. */
  datatype Network = Network(nodes: seq<string>, edges: seq<Pair>, cpds: map<string, Cpd>)

  /** A node definition as build_from_priors receives it. */
  datatype NodeDef = NodeDef(name: string, states: seq<string>, prior: Option<map<string, real>>)

  datatype Estimator = MaximumLikelihood | Bayesian

  datatype FitSummary = FitSummary(success: bool, nodes: nat, edges: nat, estimator: string)

  datatype BuildSummary = BuildSummary(success: bool, nodes: nat, edges: nat)

  datatype EngineError =
    | StructureNotSet
    | DataNotSet
    | NodesNotInData(missing: seq<string>)
    | NotFitted
    | DivisionByZero
    | NodeNotInGraph

  /** The text of the exception, as str(e) gives it. */
  function ErrorText(e: EngineError): string {
    match e
    case StructureNotSet => "Model structure not set. Call set_structure first."
    case DataNotSet => "Data not set. Call set_data first."
    case NodesNotInData(missing) => "Nodes not found in data: " + SetRepr(missing)
    case NotFitted => "Model not fitted. Call fit first."
    case DivisionByZero => "float division by zero"
    case NodeNotInGraph => "Node not present in the Directed Graph"
  }

  /** Python's repr of a set of names. */
  function SetRepr(names: seq<string>): string {
    "{" + Join(seq(|names|, i requires 0 <= i < |names| => "'" + names[i] + "'"), ", ") + "}"
  }

  /** s with x appended unless x is already in it. */
  function AppendNew<T(==,!new)>(s: seq<T>, x: T): (r: seq<T>)
    ensures forall y :: y in r <==> y in s || y == x
  {
    if x in s then s else s + [x]
  }

  predicate NoRepeats<T(==)>(s: seq<T>) {
    forall i, j :: 0 <= i < j < |s| ==> s[i] != s[j]
  }

  lemma AppendNewNoRepeats<T(!new)>(s: seq<T>, x: T)
    requires NoRepeats(s)
    ensures NoRepeats(AppendNew(s, x))
  {
  }

  /** DiscreteBayesianNetwork(edges): each edge adds its endpoints, then itself, unless present. */
  function FromEdges(edges: seq<Pair>): Network
  {
    if edges == [] then Network([], [], map[])
    else
      var net := FromEdges(edges[..|edges| - 1]);
      var e := edges[|edges| - 1];
      Network(AppendNew(AppendNew(net.nodes, e.0), e.1), AppendNew(net.edges, e), map[])
  }

  /** The network of an edge list lists each node and each edge once, with no tables. */
  lemma {:induction false} FromEdgesNoRepeats(edges: seq<Pair>)
    ensures NoRepeats(FromEdges(edges).nodes) && NoRepeats(FromEdges(edges).edges)
    ensures FromEdges(edges).cpds == map[]
  {
    if edges != [] {
      var net := FromEdges(edges[..|edges| - 1]);
      var e := edges[|edges| - 1];
      FromEdgesNoRepeats(edges[..|edges| - 1]);
      AppendNewNoRepeats(net.nodes, e.0);
      AppendNewNoRepeats(AppendNew(net.nodes, e.0), e.1);
      AppendNewNoRepeats(net.edges, e);
    }
  }

  /** The network of an edge list has exactly the listed edges. */
  lemma {:induction false} FromEdgesEdges(edges: seq<Pair>)
    ensures forall e :: e in FromEdges(edges).edges <==> e in edges
  {
    if edges != [] {
      FromEdgesEdges(edges[..|edges| - 1]);
      assert edges == edges[..|edges| - 1] + [edges[|edges| - 1]];
    }
  }

  /** The names the edges mention. */
  function Endpoints(edges: seq<Pair>): set<string> {
    if edges == [] then {}
    else Endpoints(edges[..|edges| - 1]) + {edges[|edges| - 1].0, edges[|edges| - 1].1}
  }

  /** The network of an edge list has exactly the endpoints of its edges as nodes. */
  lemma {:induction false} FromEdgesNodes(edges: seq<Pair>, n: string)
    ensures n in FromEdges(edges).nodes <==> n in Endpoints(edges)
  {
    if edges != [] {
      FromEdgesNodes(edges[..|edges| - 1], n);
    }
  }

  /** The model nodes that are not data columns, in node order. */
  function MissingNodes(nodes: seq<string>, columns: seq<string>): (missing: seq<string>)
    ensures forall n :: n in missing <==> n in nodes && n !in columns
  {
    if nodes == [] then []
    else (if nodes[0] in columns then [] else [nodes[0]]) + MissingNodes(nodes[1..], columns)
  }

  function EstimatorFor(name: string): Estimator {
    if name == "bayes" then Bayesian else MaximumLikelihood
  }

  // ---------------------------------------------------------------- evidence conversion

  /** The first state whose string form is s. */
  function FirstStringMatch(states: seq<Value>, s: string): (r: Option<Value>)
    ensures r.None? <==> forall j :: 0 <= j < |states| ==> ValueToString(states[j]) != s
    ensures r.Some? ==> r.value in states && ValueToString(r.value) == s
  {
    if states == [] then None
    else if ValueToString(states[0]) == s then Some(states[0])
    else FirstStringMatch(states[1..], s)
  }

  lemma {:induction false} FirstStringMatchAt(states: seq<Value>, s: string, k: nat)
    requires k < |states| && ValueToString(states[k]) == s
    requires forall j :: 0 <= j < k ==> ValueToString(states[j]) != s
    ensures FirstStringMatch(states, s) == Some(states[k])
  {
    if k > 0 {
      FirstStringMatchAt(states[1..], s, k - 1);
    }
  }

  /** The state an evidence string stands for: the first state with that string form, else the
      integer it spells when that is a state, else the string itself. */
  function ConvertState(states: seq<Value>, s: string): Value {
    match FirstStringMatch(states, s)
    case Some(v) => v
    case None =>
      match ParseInt(s)
      case Some(i) => if Int(i) in states then Int(i) else Str(s)
      case None => Str(s)
  }

  /** The conversion of one evidence entry: nodes without a table keep their string. */
  function ConvertEntry(net: Network, node: string, s: string): Value {
    if node in net.cpds then ConvertState(net.cpds[node].states, s) else Str(s)
  }

  /** A network is false in Python when it has no nodes; the evidence is then left as strings. */
  predicate Converts(model: Option<Network>) {
    model.Some? && model.value.nodes != []
  }

  /** Every evidence key names a node of the network, as the table lookup of each key demands. */
  predicate EvidenceKnown(model: Option<Network>, evidence: map<string, string>) {
    Converts(model) ==> forall n :: n in evidence ==> n in model.value.nodes
  }

  /** The converted evidence: the same keys, each value converted against the node's table; a
      key outside a non-empty network makes the table lookup raise. */
  function ConvertEvidence(model: Option<Network>, evidence: map<string, string>): (r: Result<map<string, Value>, EngineError>)
    ensures r.Err? <==> !EvidenceKnown(model, evidence)
    ensures r.Err? ==> r.error == NodeNotInGraph
    ensures r.Ok? ==> r.value.Keys == evidence.Keys
    ensures r.Ok? && !Converts(model) ==> forall n :: n in r.value ==> r.value[n] == Str(evidence[n])
    ensures r.Ok? && Converts(model) ==> forall n :: n in r.value ==>
      r.value[n] == ConvertEntry(model.value, n, evidence[n])
  {
    if !Converts(model) then Ok(map n | n in evidence :: Str(evidence[n]))
    else if EvidenceKnown(model, evidence) then Ok(map n | n in evidence :: ConvertEntry(model.value, n, evidence[n]))
    else Err(NodeNotInGraph)
  }

  /** A converted evidence value is a state of the node or the original string; when it is the
      original string, no state of the node has that string form. */
  lemma ConvertStateIsStateOrString(states: seq<Value>, s: string)
    ensures var v := ConvertState(states, s);
      (v in states && (ValueToString(v) == s || v.Int?)) || v == Str(s)
    ensures ConvertState(states, s) !in states ==> forall j :: 0 <= j < |states| ==> ValueToString(states[j]) != s
  {
  }

  /** The number a state string spells is found even when no state has that exact string form,
      such as "+5" for the state 5. */
  lemma ConvertStateFindsIntegers(states: seq<Value>, i: int, s: string)
    requires ParseInt(s) == Some(i) && Int(i) in states
    requires forall j :: 0 <= j < |states| ==> ValueToString(states[j]) != s
    ensures ConvertState(states, s) == Int(i)
  {
  }

  // ---------------------------------------------------------------- prior-built tables

  function Sum(xs: seq<real>): real {
    if xs == [] then 0.0 else xs[0] + Sum(xs[1..])
  }

  function Product(xs: seq<nat>): nat {
    if xs == [] then 1 else xs[0] * Product(xs[1..])
  }

  /** Whether build_from_priors uses the prior: present, non-empty and with one entry per state. */
  predicate UsesPrior(states: seq<string>, prior: Option<map<string, real>>) {
    prior.Some? && |prior.value| > 0 && |prior.value| == |states|
  }

  /** prior.get(s, 1/k) for each state s. */
  function PriorValues(states: seq<string>, prior: map<string, real>): (vs: seq<real>)
    requires |states| > 0
    ensures |vs| == |states|
    ensures forall i :: 0 <= i < |states| ==>
      vs[i] == if states[i] in prior then prior[states[i]] else 1.0 / (|states| as real)
  {
    seq(|states|, i requires 0 <= i < |states| =>
      if states[i] in prior then prior[states[i]] else 1.0 / (|states| as real))
  }

  function Scale(xs: seq<real>, t: real): (ys: seq<real>)
    requires t != 0.0
    ensures |ys| == |xs| && forall i :: 0 <= i < |xs| ==> ys[i] == xs[i] / t
  {
    seq(|xs|, i requires 0 <= i < |xs| => xs[i] / t)
  }

  lemma {:induction false} SumOfScale(xs: seq<real>, t: real)
    requires t != 0.0
    ensures Sum(Scale(xs, t)) == Sum(xs) / t
  {
    if xs != [] {
      SumOfScale(xs[1..], t);
      assert Scale(xs, t)[1..] == Scale(xs[1..], t);
    }
  }

  function Uniform(k: nat): (vs: seq<real>)
    requires k > 0
    ensures |vs| == k && forall i :: 0 <= i < k ==> vs[i] == 1.0 / (k as real)
  {
    seq(k, i => 1.0 / (k as real))
  }

  lemma {:induction false} SumOfConstant(xs: seq<real>, c: real)
    requires forall i :: 0 <= i < |xs| ==> xs[i] == c
    ensures Sum(xs) == (|xs| as real) * c
  {
    if xs != [] {
      SumOfConstant(xs[1..], c);
    }
  }

  /** The distribution a node's table repeats in every column: the normalised prior when it is
      used, else uniform. Both divide, so no states, or a prior summing to zero, is an error. */
  function BaseVector(states: seq<string>, prior: Option<map<string, real>>): (r: Result<seq<real>, EngineError>)
    ensures r.Err? <==> |states| == 0 || (UsesPrior(states, prior) && Sum(PriorValues(states, prior.value)) == 0.0)
    ensures r.Ok? ==> |r.value| == |states|
  {
    if UsesPrior(states, prior) then
      var vs := PriorValues(states, prior.value);
      var total := Sum(vs);
      if total == 0.0 then Err(DivisionByZero) else Ok(Scale(vs, total))
    else if |states| == 0 then Err(DivisionByZero)
    else Ok(Uniform(|states|))
  }

  /** Whatever prior is given, a base vector that is built sums to one; without a usable prior
      every entry is 1/k. */
  lemma BaseVectorSumsToOne(states: seq<string>, prior: Option<map<string, real>>)
    requires BaseVector(states, prior).Ok?
    ensures Sum(BaseVector(states, prior).value) == 1.0
    ensures !UsesPrior(states, prior) ==>
      forall i :: 0 <= i < |states| ==> BaseVector(states, prior).value[i] == 1.0 / (|states| as real)
  {
    if UsesPrior(states, prior) {
      var vs := PriorValues(states, prior.value);
      var total := Sum(vs);
      assert BaseVector(states, prior).value == Scale(vs, total);
      SumOfScale(vs, total);
      assert total / total == 1.0;
    } else {
      SumOfConstant(Uniform(|states|), 1.0 / (|states| as real));
    }
  }

  /** The table: row i repeats base[i] once per parent-state combination. */
  function Table(base: seq<real>, combos: nat): (t: seq<seq<real>>)
    ensures |t| == |base|
    ensures forall i :: 0 <= i < |base| ==> |t[i]| == combos
    ensures forall i, c :: 0 <= i < |base| && 0 <= c < combos ==> t[i][c] == base[i]
  {
    seq(|base|, i requires 0 <= i < |base| => seq(combos, c => base[i]))
  }

  function ColumnOf(t: seq<seq<real>>, c: nat): seq<real>
    requires forall i :: 0 <= i < |t| ==> c < |t[i]|
  {
    seq(|t|, i requires 0 <= i < |t| => t[i][c])
  }

  /** Each column of a built table is the base vector, so it sums to one. */
  lemma TableColumnsSumToOne(states: seq<string>, prior: Option<map<string, real>>, combos: nat, c: nat)
    requires BaseVector(states, prior).Ok? && c < combos
    ensures var t := Table(BaseVector(states, prior).value, combos);
      Sum(ColumnOf(t, c)) == 1.0
  {
    var base := BaseVector(states, prior).value;
    assert ColumnOf(Table(base, combos), c) == base;
    BaseVectorSumsToOne(states, prior);
  }

  /** The states each name was last defined with. */
  function StatesByName(defs: seq<NodeDef>): map<string, seq<string>> {
    if defs == [] then map[]
    else StatesByName(defs[..|defs| - 1])[defs[|defs| - 1].name := defs[|defs| - 1].states]
  }

  /** The definition each name was last given. */
  function DefsByName(defs: seq<NodeDef>): map<string, NodeDef> {
    if defs == [] then map[]
    else DefsByName(defs[..|defs| - 1])[defs[|defs| - 1].name := defs[|defs| - 1]]
  }

  lemma {:induction false} StatesByNameKeys(defs: seq<NodeDef>)
    ensures forall n :: n in StatesByName(defs) <==> exists d :: d in defs && d.name == n
  {
    if defs != [] {
      StatesByNameKeys(defs[..|defs| - 1]);
      assert defs == defs[..|defs| - 1] + [defs[|defs| - 1]];
    }
  }

  /** The names of the definitions, in order, each once. */
  function DefNames(defs: seq<NodeDef>): seq<string> {
    if defs == [] then [] else AppendNew(DefNames(defs[..|defs| - 1]), defs[|defs| - 1].name)
  }

  /** get_parents: the sources of the edges into child, in edge order, each once. */
  function Parents(edges: seq<Pair>, child: string): (ps: seq<string>)
    ensures forall p :: p in ps <==> (p, child) in edges
  {
    if edges == [] then []
    else
      var ps := Parents(edges[..|edges| - 1], child);
      var e := edges[|edges| - 1];
      assert edges == edges[..|edges| - 1] + [e];
      if e.1 == child then AppendNew(ps, e.0) else ps
  }

  predicate EdgesWithinDefs(defs: seq<NodeDef>, edges: seq<Pair>) {
    forall e :: e in edges ==> (exists d :: d in defs && d.name == e.0) && (exists d :: d in defs && d.name == e.1)
  }

  /** Every parent named by an edge has known states. */
  predicate ParentsKnown(edges: seq<Pair>, nodeStates: map<string, seq<string>>) {
    forall e :: e in edges ==> e.0 in nodeStates
  }

  lemma ParentsKnownFromDefs(defs: seq<NodeDef>, edges: seq<Pair>)
    requires EdgesWithinDefs(defs, edges)
    ensures ParentsKnown(edges, StatesByName(defs))
  {
    StatesByNameKeys(defs);
  }

  function Cards(parents: seq<string>, nodeStates: map<string, seq<string>>): (cs: seq<nat>)
    requires forall p :: p in parents ==> p in nodeStates
    ensures |cs| == |parents|
  {
    seq(|parents|, i requires 0 <= i < |parents| => |nodeStates[parents[i]]|)
  }

  function AsValues(states: seq<string>): (vs: seq<Value>)
    ensures |vs| == |states| && forall i :: 0 <= i < |states| ==> vs[i] == Str(states[i])
  {
    seq(|states|, i requires 0 <= i < |states| => Str(states[i]))
  }

  /** The table build_from_priors makes for one definition, given the edges and the states of
      every name. */
  function NodeCpd(d: NodeDef, edges: seq<Pair>, nodeStates: map<string, seq<string>>): (r: Result<Cpd, EngineError>)
    requires ParentsKnown(edges, nodeStates)
    ensures r.Err? <==> BaseVector(d.states, d.prior).Err?
  {
    var parents := Parents(edges, d.name);
    match BaseVector(d.states, d.prior)
    case Err(e) => Err(e)
    case Ok(base) =>
      Ok(Cpd(d.name, AsValues(d.states), Table(base, Product(Cards(parents, nodeStates))), parents))
  }

  /** The shape build_from_priors promises: k rows, each with one identical entry per combination
      of the parents' states, each column a distribution. */
  lemma NodeCpdShape(d: NodeDef, edges: seq<Pair>, nodeStates: map<string, seq<string>>, c: nat)
    requires ParentsKnown(edges, nodeStates)
    requires NodeCpd(d, edges, nodeStates).Ok?
    ensures var cpd := NodeCpd(d, edges, nodeStates).value;
      var combos := Product(Cards(cpd.parents, nodeStates));
      && cpd.variable == d.name
      && |cpd.values| == |d.states|
      && (forall i :: 0 <= i < |d.states| ==> |cpd.values[i]| == combos)
      && (forall i, c' :: 0 <= i < |d.states| && 0 <= c' < combos ==>
            cpd.values[i][c'] == BaseVector(d.states, d.prior).value[i])
      && (c < combos ==> Sum(ColumnOf(cpd.values, c)) == 1.0)
  {
    var cpd := NodeCpd(d, edges, nodeStates).value;
    var combos := Product(Cards(cpd.parents, nodeStates));
    if c < combos {
      TableColumnsSumToOne(d.states, d.prior, combos, c);
    }
  }

  /** The tables of the first n definitions, later definitions of a name replacing earlier ones.
      A definition whose table cannot be made adds none (a build stops there). */
  function CpdsPrefix(defs: seq<NodeDef>, n: nat, edges: seq<Pair>, nodeStates: map<string, seq<string>>): map<string, Cpd>
    requires n <= |defs|
    requires ParentsKnown(edges, nodeStates)
  {
    if n == 0 then map[]
    else
      var prev := CpdsPrefix(defs, n - 1, edges, nodeStates);
      match NodeCpd(defs[n - 1], edges, nodeStates)
      case Ok(cpd) => prev[defs[n - 1].name := cpd]
      case Err(_) => prev
  }

  /** Every one of the first n definitions has a table that can be made. */
  predicate BasesOk(defs: seq<NodeDef>, n: nat)
    requires n <= |defs|
  {
    forall i :: 0 <= i < n ==> BaseVector(defs[i].states, defs[i].prior).Ok?
  }

  /** The index of the first definition whose table cannot be made, or |defs| when there is none. */
  function FirstFailure(defs: seq<NodeDef>, from: nat := 0): (k: nat)
    requires from <= |defs| && BasesOk(defs, from)
    ensures from <= k <= |defs| && BasesOk(defs, k)
    ensures k < |defs| ==> BaseVector(defs[k].states, defs[k].prior).Err?
    decreases |defs| - from
  {
    if from == |defs| || BaseVector(defs[from].states, defs[from].prior).Err? then from
    else FirstFailure(defs, from + 1)
  }

  /** No definition before the first failure fails. */
  lemma FirstFailureAtLeast(defs: seq<NodeDef>, i: nat)
    requires i <= |defs| && BasesOk(defs, i)
    ensures i <= FirstFailure(defs)
  {
  }

  /** A failing definition after only buildable ones is the first failure. */
  lemma FirstFailureAt(defs: seq<NodeDef>, i: nat)
    requires i < |defs| && BasesOk(defs, i) && BaseVector(defs[i].states, defs[i].prior).Err?
    ensures FirstFailure(defs) == i
  {
    FirstFailureAtLeast(defs, i);
  }

  /** Where the buildable definitions stop is the first failure. */
  lemma FirstFailureIs(defs: seq<NodeDef>, i: nat)
    requires i <= |defs| && BasesOk(defs, i)
    requires i < |defs| ==> BaseVector(defs[i].states, defs[i].prior).Err?
    ensures FirstFailure(defs) == i
    ensures i < |defs| <==> exists j :: 0 <= j < |defs| && BaseVector(defs[j].states, defs[j].prior).Err?
  {
    if i < |defs| {
      FirstFailureAt(defs, i);
    } else {
      FirstFailureAtLeast(defs, i);
    }
    FirstFailureExists(defs);
  }

  /** Some definition fails exactly when the first failure is a definition. */
  lemma FirstFailureExists(defs: seq<NodeDef>)
    ensures FirstFailure(defs) < |defs| <==> exists i :: 0 <= i < |defs| && BaseVector(defs[i].states, defs[i].prior).Err?
  {
    var k := FirstFailure(defs);
    if k == |defs| {
      assert BasesOk(defs, |defs|);
    }
  }

  /** One more definition adds its table to those of the prefix. */
  lemma CpdsPrefixStep(defs: seq<NodeDef>, n: nat, edges: seq<Pair>, nodeStates: map<string, seq<string>>)
    requires n < |defs|
    requires ParentsKnown(edges, nodeStates)
    requires BaseVector(defs[n].states, defs[n].prior).Ok?
    ensures CpdsPrefix(defs, n + 1, edges, nodeStates) ==
      CpdsPrefix(defs, n, edges, nodeStates)[defs[n].name := NodeCpd(defs[n], edges, nodeStates).value]
  {
  }

  /** A definition that no later one overrides owns the table under its name. */
  lemma {:induction false} CpdsPrefixAt(defs: seq<NodeDef>, n: nat, edges: seq<Pair>, nodeStates: map<string, seq<string>>, j: nat)
    requires n <= |defs|
    requires ParentsKnown(edges, nodeStates)
    requires j < n && BaseVector(defs[j].states, defs[j].prior).Ok?
    requires forall i :: j < i < n ==> defs[i].name != defs[j].name
    ensures defs[j].name in CpdsPrefix(defs, n, edges, nodeStates)
    ensures CpdsPrefix(defs, n, edges, nodeStates)[defs[j].name] == NodeCpd(defs[j], edges, nodeStates).value
  {
    if j == n - 1 {
      CpdsPrefixStep(defs, j, edges, nodeStates);
    } else {
      CpdsPrefixAt(defs, n - 1, edges, nodeStates, j);
      var prev := CpdsPrefix(defs, n - 1, edges, nodeStates);
      assert defs[n - 1].name != defs[j].name;
      match NodeCpd(defs[n - 1], edges, nodeStates)
      case Ok(cpd) =>
        assert CpdsPrefix(defs, n, edges, nodeStates) == prev[defs[n - 1].name := cpd];
      case Err(_) =>
        assert CpdsPrefix(defs, n, edges, nodeStates) == prev;
    }
  }

  // ---------------------------------------------------------------- the engine

  class BNEngine {
    var model: Option<Network>
    var data: Option<Frame>
    var isFitted: bool
    /** The network the inference engine was built over, when there is one. */
    var inference: Option<Network>
    var manualNodes: map<string, NodeDef>

    /** The lifecycle invariant: an inference engine exists exactly when the model is fitted,
        and a fitted engine has a model. */
    ghost predicate Valid()
      reads this
    {
      (isFitted <==> inference.Some?) && (isFitted ==> model.Some?)
    }

    constructor ()
      ensures Valid()
      ensures model == None && data == None && !isFitted && inference == None && manualNodes == map[]
    {
      model := None;
      data := None;
      isFitted := false;
      inference := None;
      manualNodes := map[];
    }

    /** set_data: new data discards the model and everything fitted. */
    method SetData(df: Frame)
      modifies this
      ensures Valid()
      ensures data == Some(df) && model == None && !isFitted && inference == None
      ensures manualNodes == old(manualNodes)
    {
      data := Some(df);
      model := None;
      isFitted := false;
      inference := None;
    }

    /** set_structure: the network of the edges, not fitted. pgmpy refuses a cyclic edge list, so
        callers check the edges first. */
    method SetStructure(edges: seq<Pair>)
      requires !HasCycle(edges)
      modifies this
      ensures Valid()
      ensures model == Some(FromEdges(edges)) && !isFitted && inference == None
      ensures data == old(data) && manualNodes == old(manualNodes)
    {
      model := Some(FromEdges(edges));
      isFitted := false;
      inference := None;
    }

    /** fit. `estimate` stands for pgmpy's estimator: the tables it learns for a network from data. */
    method Fit(estimator: string, estimate: (Network, Frame, Estimator) -> map<string, Cpd>)
      returns (r: Result<FitSummary, EngineError>)
      requires Valid()
      modifies this
      ensures Valid()
      ensures old(model).None? ==> r == Err(StructureNotSet)
      ensures old(model).Some? && data.None? ==> r == Err(DataNotSet)
      ensures old(model).Some? && data.Some? && MissingNodes(old(model).value.nodes, data.value.columns) != [] ==>
        r == Err(NodesNotInData(MissingNodes(old(model).value.nodes, data.value.columns)))
      ensures r.Err? ==> model == old(model) && isFitted == old(isFitted) && inference == old(inference)
      ensures r.Ok? <==> old(model).Some? && data.Some? && MissingNodes(old(model).value.nodes, data.value.columns) == []
      ensures r.Ok? ==>
        && isFitted
        && model == Some(old(model).value.(cpds := estimate(old(model).value, data.value, EstimatorFor(estimator))))
        && inference == model
        && r.value == FitSummary(true, |old(model).value.nodes|, |old(model).value.edges|, estimator)
      ensures data == old(data) && manualNodes == old(manualNodes)
    {
      if model.None? {
        return Err(StructureNotSet);
      }
      if data.None? {
        return Err(DataNotSet);
      }
      var net := model.value;
      var missing := MissingNodes(net.nodes, data.value.columns);
      if missing != [] {
        return Err(NodesNotInData(missing));
      }
      var fitted := net.(cpds := estimate(net, data.value, EstimatorFor(estimator)));
      model := Some(fitted);
      isFitted := true;
      inference := model;
      return Ok(FitSummary(true, |net.nodes|, |net.edges|, estimator));
    }

    /** get_cpd: nothing before fitting; a name outside the network makes the lookup raise;
        otherwise the node's table, or nothing when it has none. */
    function GetCpd(node: string): (r: Result<Option<Cpd>, EngineError>)
      reads this
      requires Valid()
      ensures !isFitted ==> r == Ok(None)
      ensures isFitted && node !in model.value.nodes ==> r == Err(NodeNotInGraph)
      ensures isFitted && node in model.value.nodes && node in model.value.cpds ==>
        r == Ok(Some(model.value.cpds[node]))
      ensures isFitted && node in model.value.nodes && node !in model.value.cpds ==> r == Ok(None)
    {
      if !isFitted then Ok(None)
      else if node !in model.value.nodes then Err(NodeNotInGraph)
      else if node in model.value.cpds then Ok(Some(model.value.cpds[node]))
      else Ok(None)
    }

    /** _convert_evidence_types: without a non-empty network the strings are kept; otherwise each
        key is looked up in the network, which raises for an unknown one, and its value is
        converted against the node's table. */
    method ConvertEvidenceTypes(evidence: map<string, string>) returns (r: Result<map<string, Value>, EngineError>)
      ensures r == ConvertEvidence(model, evidence)
    {
      if !Converts(model) {
        return Ok(map n | n in evidence :: Str(evidence[n]));
      }
      var net := model.value;
      var converted: map<string, Value> := map[];
      var pending := evidence.Keys;
      while pending != {}
        invariant pending <= evidence.Keys
        invariant converted.Keys == evidence.Keys - pending
        invariant forall n :: n in converted ==> n in net.nodes && converted[n] == ConvertEntry(net, n, evidence[n])
        decreases pending
      {
        var n :| n in pending;
        if n !in net.nodes {
          return Err(NodeNotInGraph);
        }
        var v := ConvertOne(n, evidence[n]);
        converted := converted[n := v];
        pending := pending - {n};
      }
      assert EvidenceKnown(model, evidence);
      assert converted == map n | n in evidence :: ConvertEntry(net, n, evidence[n]);
      return Ok(converted);
    }

    /** The conversion of one entry: the first state whose string form matches, else the integer
        the string spells if that is a state, else the string. */
    method ConvertOne(n: string, s: string) returns (v: Value)
      requires model.Some?
      ensures v == ConvertEntry(model.value, n, s)
    {
      v := Str(s);
      if n in model.value.cpds {
        var states := model.value.cpds[n].states;
        var matched := false;
        var k := 0;
        while k < |states| && !matched
          invariant 0 <= k <= |states|
          invariant matched ==> FirstStringMatch(states, s) == Some(v)
          invariant !matched ==> v == Str(s) && forall j :: 0 <= j < k ==> ValueToString(states[j]) != s
        {
          if ValueToString(states[k]) == s {
            FirstStringMatchAt(states, s, k);
            v := states[k];
            matched := true;
          }
          k := k + 1;
        }
        if !matched {
          var parsed := ParseInt(s);
          if parsed.Some? && Int(parsed.value) in states {
            v := Int(parsed.value);
          }
        }
      }
    }

    /** query. `posterior` stands for variable elimination on the inference network. Without
        targets every model node that is not evidence is queried; evidence targets get
        probability 1 on the given state, the others their posterior given the converted
        evidence. */
    method Query(evidence: map<string, string>, targets: seq<string>,
                 posterior: (Network, string, map<string, Value>) -> Dist)
      returns (r: Result<map<string, Dist>, EngineError>)
      requires Valid()
      ensures !isFitted <==> r == Err(NotFitted)
      ensures isFitted && !EvidenceKnown(model, evidence) ==> r == Err(NodeNotInGraph)
      ensures r.Ok? <==> isFitted && EvidenceKnown(model, evidence)
      ensures r.Ok? ==> forall t :: t in r.value <==> t in QueryTargets(model.value.nodes, evidence, targets)
      ensures r.Ok? ==> forall t :: t in r.value && t in evidence ==> r.value[t] == map[evidence[t] := 1.0]
      ensures r.Ok? ==> forall t :: t in r.value && t !in evidence ==>
        r.value[t] == posterior(inference.value, t, ConvertEvidence(model, evidence).value)
    {
      if !isFitted {
        return Err(NotFitted);
      }
      var conversion := ConvertEvidenceTypes(evidence);
      if conversion.Err? {
        return Err(conversion.error);
      }
      var converted := conversion.value;
      var ts := QueryTargets(model.value.nodes, evidence, targets);
      var results: map<string, Dist> := map[];
      var k := 0;
      while k < |ts|
        invariant 0 <= k <= |ts|
        invariant forall t :: t in results <==> t in ts[..k]
        invariant forall t :: t in results && t in evidence ==> results[t] == map[evidence[t] := 1.0]
        invariant forall t :: t in results && t !in evidence ==> results[t] == posterior(inference.value, t, converted)
      {
        var t := ts[k];
        if t in converted {
          results := results[t := map[evidence[t] := 1.0]];
        } else {
          results := results[t := posterior(inference.value, t, converted)];
        }
        assert ts[..k + 1] == ts[..k] + [t];
        k := k + 1;
      }
      assert ts[..k] == ts;
      return Ok(results);
    }

    /** The loop of build_from_priors: the table of each definition in turn is added to the
        network, stopping at the first one that cannot be made. */
    method AddCpds(defs: seq<NodeDef>, edges: seq<Pair>, nodeStates: map<string, seq<string>>, net: Network)
      returns (r: Result<(), EngineError>)
      requires ParentsKnown(edges, nodeStates)
      requires model == Some(net) && net.cpds == map[]
      modifies this`model
      ensures model == Some(net.(cpds := CpdsPrefix(defs, FirstFailure(defs), edges, nodeStates)))
      ensures r.Err? <==> exists i :: 0 <= i < |defs| && BaseVector(defs[i].states, defs[i].prior).Err?
      ensures r.Err? <==> FirstFailure(defs) < |defs|
      ensures r.Err? ==> r.error == DivisionByZero
      ensures r.Ok? ==> BasesOk(defs, |defs|)
      ensures r.Ok? ==> model == Some(net.(cpds := CpdsPrefix(defs, |defs|, edges, nodeStates)))
    {
      var cpds: map<string, Cpd> := map[];
      var i := 0;
      r := Ok(());
      while i < |defs|
        invariant 0 <= i <= |defs|
        invariant BasesOk(defs, i)
        invariant cpds == CpdsPrefix(defs, i, edges, nodeStates)
        invariant r == Ok(())
      {
        var cpd := NodeCpd(defs[i], edges, nodeStates);
        if cpd.Err? {
          r := Err(cpd.error);
          break;
        }
        CpdsPrefixStep(defs, i, edges, nodeStates);
        cpds := cpds[defs[i].name := cpd.value];
        i := i + 1;
      }
      model := Some(net.(cpds := cpds));
      FirstFailureIs(defs, i);
    }

    /** build_from_priors. The definitions are stored and a new network of their names and the
        edges replaces the model before any table is made; a table that cannot be made (a node
        without states, a prior summing to zero) stops the build there, leaving the fitted flag
        and the inference engine as they were. */
    method BuildFromPriors(defs: seq<NodeDef>, edges: seq<Pair>) returns (r: Result<BuildSummary, EngineError>)
      requires Valid()
      requires EdgesWithinDefs(defs, edges)
      modifies this
      ensures Valid()
      ensures manualNodes == DefsByName(defs) && data == old(data)
      ensures model.Some? && model.value.nodes == DefNames(defs) && model.value.edges == FromEdges(edges).edges
      ensures r.Err? <==> exists i :: 0 <= i < |defs| && BaseVector(defs[i].states, defs[i].prior).Err?
      ensures r.Err? ==> r.error == DivisionByZero && isFitted == old(isFitted) && inference == old(inference)
      ensures r.Ok? ==> isFitted && inference == model
      ensures r.Ok? ==> r.value == BuildSummary(true, |DefNames(defs)|, |FromEdges(edges).edges|)
      ensures ParentsKnown(edges, StatesByName(defs))
      ensures model.value.cpds == CpdsPrefix(defs, FirstFailure(defs), edges, StatesByName(defs))
      ensures r.Ok? ==> FirstFailure(defs) == |defs|
    {
      manualNodes := DefsByName(defs);
      var nodeStates := StatesByName(defs);
      ParentsKnownFromDefs(defs, edges);
      var net := Network(DefNames(defs), FromEdges(edges).edges, map[]);
      model := Some(net);
      var added := AddCpds(defs, edges, nodeStates, net);
      if added.Err? {
        return Err(added.error);
      }
      isFitted := true;
      inference := model;
      return Ok(BuildSummary(true, |net.nodes|, |net.edges|));
    }
  }

  /** The nodes a query covers: the targets given, or else every model node without evidence. */
  function QueryTargets(nodes: seq<string>, evidence: map<string, string>, targets: seq<string>): seq<string> {
    if targets == [] then DefaultTargets(nodes, evidence) else targets
  }

  /** The model nodes that carry no evidence, in node order. */
  function DefaultTargets(nodes: seq<string>, evidence: map<string, string>): (ts: seq<string>)
    ensures forall t :: t in ts <==> t in nodes && t !in evidence
  {
    if nodes == [] then []
    else (if nodes[0] in evidence then [] else [nodes[0]]) + DefaultTargets(nodes[1..], evidence)
  }
}
