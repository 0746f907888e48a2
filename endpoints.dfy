/** The backend's HTTP handlers: the manual-node registry behind add_node and get_nodes, and the
    checks each handler makes before it reaches the engine. A handler's HTTPException is an
    HttpError result; structure learning, pgmpy's inference and Python's float formatting are
    parameters. */
module Endpoints {
  import opened Wrappers
  import opened Text
  import opened Data
  import opened Engine

  datatype HttpError = HttpError(status: nat, detail: string)

  datatype EdgeRequest = EdgeRequest(source: string, target: string)

  const NotCsvDetail := "只支持 CSV 文件格式"
  const EncodingDetail := "无法解析文件编码，请使用 UTF-8 或 GBK 编码"
  const NoDataDetail := "请先上传 CSV 数据"
  const NotFittedDetail := "模型尚未训练。请先训练模型。"
  const InferFailedPrefix := "推理失败: "
  const NoNodesDetail := "至少需要 1 个节点"
  const BuildFailedPrefix := "构建失败: "
  const TooFewStatesDetail := "节点必须至少有 2 个状态"
  const PriorSumPrefix := "Prior 概率和必须为 1.0，当前为 "
  const DefaultScoring := "k2"
  const PreviewRows := 10

  /** The (source, target) pairs of the request's edges. */
  function Pairs(edges: seq<EdgeRequest>): (ps: seq<Pair>)
    ensures |ps| == |edges|
    ensures forall i :: 0 <= i < |edges| ==> ps[i] == (edges[i].source, edges[i].target)
  {
    seq(|edges|, i requires 0 <= i < |edges| => (edges[i].source, edges[i].target))
  }

  // ---------------------------------------------------------------- upload_csv

  datatype UploadResponse = UploadResponse(
    columns: seq<string>,
    metaInfo: map<string, seq<string>>,
    preview: seq<map<string, Cell>>,
    rowCount: nat,
    columnCount: nat)

  /** Whether the validator accepts a parsed table. */
  predicate Accepted(parsed: Result<Frame, string>)
    requires parsed.Ok? ==> WellFormed(parsed.value)
  {
    parsed.Ok? && !IsEmpty(parsed.value) && InvalidColumns(parsed.value) == []
  }

  /** The validator's message for a table it refuses. */
  function Rejection(parsed: Result<Frame, string>): string
    requires parsed.Ok? ==> WellFormed(parsed.value)
  {
    if parsed.Err? then ParseFailurePrefix + parsed.error
    else if IsEmpty(parsed.value) then EmptyMessage
    else TooManyValuesPrefix + Join(InvalidColumns(parsed.value), ", ")
  }

  /** upload_csv. `decoded` is the file decoded as UTF-8, else as GBK, None when neither works;
      `parsed` is pandas' reading of it. Only an accepted table reaches the engine. */
  method UploadCsv(engine: BNEngine, filename: string, decoded: Option<string>, parsed: Result<Frame, string>)
    returns (r: Result<UploadResponse, HttpError>)
    requires engine.Valid()
    requires parsed.Ok? ==> WellFormed(parsed.value)
    modifies engine
    ensures engine.Valid()
    ensures !EndsWith(filename, ".csv") ==> r == Err(HttpError(400, NotCsvDetail))
    ensures EndsWith(filename, ".csv") && decoded.None? ==> r == Err(HttpError(400, EncodingDetail))
    ensures EndsWith(filename, ".csv") && decoded.Some? && !Accepted(parsed) ==> r == Err(HttpError(400, Rejection(parsed)))
    ensures r.Ok? <==> EndsWith(filename, ".csv") && decoded.Some? && Accepted(parsed)
    ensures r.Err? ==> unchanged(engine)
    ensures r.Ok? ==>
      && engine.data == Some(parsed.value) && engine.model == None && !engine.isFitted
      && engine.manualNodes == old(engine.manualNodes)
      && r.value.columns == parsed.value.columns
      && r.value.metaInfo == MetaInfo(parsed.value)
      && r.value.rowCount == |parsed.value.rows| && r.value.columnCount == |parsed.value.columns|
      && |r.value.preview| == (if |parsed.value.rows| < PreviewRows then |parsed.value.rows| else PreviewRows)
      && forall i :: 0 <= i < |r.value.preview| ==>
           r.value.preview[i] == Record(parsed.value.columns, parsed.value.rows[i])
  {
    if !EndsWith(filename, ".csv") {
      return Err(HttpError(400, NotCsvDetail));
    }
    if decoded.None? {
      return Err(HttpError(400, EncodingDetail));
    }
    var processor := new DataProcessor(decoded.value);
    var ok, message := processor.ValidateAndProcess(parsed);
    if !ok {
      return Err(HttpError(400, message));
    }
    engine.SetData(processor.df.value);
    return Ok(UploadResponse(processor.Columns(), processor.metaInfo, processor.Preview(PreviewRows),
                             processor.RowCount(), processor.ColumnCount()));
  }

  // ---------------------------------------------------------------- structure

  /** validate_structure: the DAG check of the request's edges. */
  function ValidateStructure(edges: seq<EdgeRequest>, cycles: seq<seq<string>>): (r: DagCheck)
    requires SimpleCyclesOf(Pairs(edges), cycles)
    ensures r.isValid <==> !HasCycle(Pairs(edges))
    ensures r.isValid ==> r.message == ""
  {
    ValidateDag(Pairs(edges), cycles)
  }

  datatype LearnStructureResponse = LearnStructureResponse(edges: seq<EdgeRequest>, edgeCount: nat)

  /** learn_structure. `learn` is the structure learner with a scoring name; a missing request
      body means the "k2" score. Without data nothing is learned. */
  function LearnStructure(engine: BNEngine, scoring: Option<string>, learn: (Frame, string) -> Result<seq<Pair>, string>)
    : (r: Result<LearnStructureResponse, HttpError>)
    reads engine
    ensures engine.data.None? ==> r == Err(HttpError(400, NoDataDetail))
    ensures engine.data.Some? && learn(engine.data.value, scoring.GetOr(DefaultScoring)).Err? ==>
      r == Err(HttpError(500, "结构学习失败: " + learn(engine.data.value, scoring.GetOr(DefaultScoring)).error))
    ensures r.Ok? ==>
      engine.data.Some? &&
      (var learned := learn(engine.data.value, scoring.GetOr(DefaultScoring));
       learned.Ok? && Pairs(r.value.edges) == learned.value && r.value.edgeCount == |learned.value|)
  {
    if engine.data.None? then Err(HttpError(400, NoDataDetail))
    else
      match learn(engine.data.value, scoring.GetOr(DefaultScoring))
      case Err(e) => Err(HttpError(500, "结构学习失败: " + e))
      case Ok(learned) =>
        var edges := seq(|learned|, i requires 0 <= i < |learned| => EdgeRequest(learned[i].0, learned[i].1));
        assert Pairs(edges) == learned;
        Ok(LearnStructureResponse(edges, |edges|))
  }

  datatype LearnParametersResponse = LearnParametersResponse(
    success: bool, nodes: nat, edges: nat, estimator: string, message: string)

  /** learn_parameters: refuses without data or with cyclic edges, leaving the engine alone;
      otherwise sets the structure and fits it, a fitting error becoming a 400. */
  method LearnParameters(engine: BNEngine, edges: seq<EdgeRequest>, estimator: string, cycles: seq<seq<string>>,
                         estimate: (Network, Frame, Estimator) -> map<string, Cpd>)
    returns (r: Result<LearnParametersResponse, HttpError>)
    requires engine.Valid()
    requires SimpleCyclesOf(Pairs(edges), cycles)
    modifies engine
    ensures engine.Valid()
    ensures old(engine.data).None? ==> r == Err(HttpError(400, NoDataDetail)) && unchanged(engine)
    ensures old(engine.data).Some? && HasCycle(Pairs(edges)) ==>
      r == Err(HttpError(400, ValidateDag(Pairs(edges), cycles).message)) && unchanged(engine)
    ensures r.Ok? <==> && old(engine.data).Some? && !HasCycle(Pairs(edges))
                       && MissingNodes(FromEdges(Pairs(edges)).nodes, old(engine.data).value.columns) == []
    ensures old(engine.data).Some? && !HasCycle(Pairs(edges)) && r.Err? ==>
      var missing := MissingNodes(FromEdges(Pairs(edges)).nodes, old(engine.data).value.columns);
      && r == Err(HttpError(400, ErrorText(NodesNotInData(missing))))
      && engine.model == Some(FromEdges(Pairs(edges))) && !engine.isFitted && engine.inference == None
    ensures r.Ok? ==>
      var net := FromEdges(Pairs(edges));
      && engine.isFitted
      && engine.model == Some(net.(cpds := estimate(net, old(engine.data).value, EstimatorFor(estimator))))
      && engine.inference == engine.model
    ensures r.Ok? ==> r.value == LearnParametersResponse(true, |FromEdges(Pairs(edges)).nodes|,
                                                         |FromEdges(Pairs(edges)).edges|, estimator, "模型训练完成")
    ensures engine.data == old(engine.data) && engine.manualNodes == old(engine.manualNodes)
  {
    if engine.data.None? {
      return Err(HttpError(400, NoDataDetail));
    }
    var pairs := Pairs(edges);
    var check := ValidateDag(pairs, cycles);
    if !check.isValid {
      return Err(HttpError(400, check.message));
    }
    engine.SetStructure(pairs);
    var fitted := engine.Fit(estimator, estimate);
    match fitted {
      case Err(e) =>
        return Err(HttpError(400, ErrorText(e)));
      case Ok(summary) =>
        return Ok(LearnParametersResponse(summary.success, summary.nodes, summary.edges, summary.estimator, "模型训练完成"));
    }
  }

  // ---------------------------------------------------------------- manual nodes

  /** The sum of a dictionary's values. */
  ghost function MapSum(m: map<string, real>): real
    decreases |m|
  {
    if m == map[] then 0.0
    else
      var k :| k in m;
      m[k] + MapSum(m - {k})
  }

  /** The sum does not depend on which key is taken out first. */
  lemma {:induction false} MapSumRemove(m: map<string, real>, k: string)
    requires k in m
    ensures MapSum(m) == m[k] + MapSum(m - {k})
    decreases |m|
  {
    var j :| j in m && MapSum(m) == m[j] + MapSum(m - {j});
    if j != k {
      var both := m - {j} - {k};
      assert (m - {j}) - {k} == both;
      assert (m - {k}) - {j} == both;
      assert |m - {j}| < |m|;
      MapSumRemove(m - {j}, k);
      assert |m - {k}| < |m|;
      MapSumRemove(m - {k}, j);
    }
  }

  /** sum(prior.values()). */
  method SumValues(m: map<string, real>) returns (total: real)
    ensures total == MapSum(m)
  {
    total := 0.0;
    var rest := m;
    while rest != map[]
      invariant total + MapSum(rest) == MapSum(m)
      decreases |rest|
    {
      var k :| k in rest;
      MapSumRemove(rest, k);
      total := total + rest[k];
      rest := rest - {k};
    }
  }

  /** abs(total - 1.0) > 0.01. */
  predicate OffByMoreThanTolerance(total: real) {
    total - 1.0 > 0.01 || 1.0 - total > 0.01
  }

  /** add_node's prior check: a non-empty prior whose values do not sum to 1 within 0.01. */
  ghost predicate PriorRejected(prior: Option<map<string, real>>) {
    prior.Some? && |prior.value| > 0 && OffByMoreThanTolerance(MapSum(prior.value))
  }

  function DuplicateDetail(name: string): string {
    "节点 '" + name + "' 已存在"
  }

  /** A stored node: its states and prior. */
  datatype ManualEntry = ManualEntry(states: seq<string>, prior: Option<map<string, real>>)

  datatype AddNodeResponse = AddNodeResponse(success: bool, name: string, states: seq<string>, message: string)

  /** The module-level dictionary of manually added nodes: names in insertion order, each once. */
  class Registry {
    var names: seq<string>
    var entries: map<string, ManualEntry>

    ghost predicate Valid()
      reads this
    {
      NoRepeats(names) && forall n :: n in entries <==> n in names
    }

    constructor ()
      ensures Valid() && names == [] && entries == map[]
    {
      names := [];
      entries := map[];
    }

    /** get_nodes: one entry per registered name, in registration order. */
    function Nodes(): (r: seq<NodeDef>)
      requires Valid()
      reads this
      ensures |r| == |names|
      ensures forall i :: 0 <= i < |r| ==>
        r[i].name == names[i] && r[i].states == entries[names[i]].states && r[i].prior == entries[names[i]].prior
      ensures forall i, j :: 0 <= i < j < |r| ==> r[i].name != r[j].name
    {
      var ns := names;
      var es := entries;
      seq(|ns|, i requires 0 <= i < |ns| && ns[i] in es => NodeDef(ns[i], es[ns[i]].states, es[ns[i]].prior))
    }

    /** add_node. A known name is refused first, then fewer than two states, then a non-empty
        prior off 1 by more than 0.01; `showReal` is Python's text of a float. A refused request
        changes nothing; an accepted one is registered at the end. */
    method AddNode(name: string, states: seq<string>, prior: Option<map<string, real>>, showReal: real -> string)
      returns (r: Result<AddNodeResponse, HttpError>)
      requires Valid()
      modifies this
      ensures Valid()
      ensures name in old(entries) ==> r == Err(HttpError(400, DuplicateDetail(name)))
      ensures name !in old(entries) && |states| < 2 ==> r == Err(HttpError(400, TooFewStatesDetail))
      ensures name !in old(entries) && |states| >= 2 && PriorRejected(prior) ==>
        r == Err(HttpError(400, PriorSumPrefix + showReal(MapSum(prior.value))))
      ensures r.Ok? <==> name !in old(entries) && |states| >= 2 && !PriorRejected(prior)
      ensures r.Err? ==> names == old(names) && entries == old(entries)
      ensures r.Ok? ==>
        && names == old(names) + [name]
        && entries == old(entries)[name := ManualEntry(states, prior)]
        && Nodes() == old(Nodes()) + [NodeDef(name, states, prior)]
        && r.value == AddNodeResponse(true, name, states, "节点 '" + name + "' 添加成功")
    {
      if name in entries {
        return Err(HttpError(400, DuplicateDetail(name)));
      }
      if |states| < 2 {
        return Err(HttpError(400, TooFewStatesDetail));
      }
      if prior.Some? && |prior.value| > 0 {
        var total := SumValues(prior.value);
        if OffByMoreThanTolerance(total) {
          return Err(HttpError(400, PriorSumPrefix + showReal(total)));
        }
      }
      names := names + [name];
      entries := entries[name := ManualEntry(states, prior)];
      return Ok(AddNodeResponse(true, name, states, "节点 '" + name + "' 添加成功"));
    }
  }

  // ---------------------------------------------------------------- build_from_priors

  datatype BuildResponse = BuildResponse(success: bool, nodes: nat, edges: nat, message: string)

  function UndefinedEdgeDetail(e: Pair): string {
    "Edge (" + e.0 + " -> " + e.1 + ") references undefined node"
  }

  predicate Defined(nodes: seq<NodeDef>, name: string) {
    exists d :: d in nodes && d.name == name
  }

  predicate EdgeDefined(nodes: seq<NodeDef>, e: Pair) {
    Defined(nodes, e.0) && Defined(nodes, e.1)
  }

  /** The index of the first edge naming an undefined node, or |pairs| when there is none. */
  function FirstUndefinedEdge(nodes: seq<NodeDef>, pairs: seq<Pair>, from: nat := 0): (k: nat)
    requires from <= |pairs| && forall j :: 0 <= j < from ==> EdgeDefined(nodes, pairs[j])
    ensures from <= k <= |pairs|
    ensures forall j :: 0 <= j < k ==> EdgeDefined(nodes, pairs[j])
    ensures k < |pairs| ==> !EdgeDefined(nodes, pairs[k])
    decreases |pairs| - from
  {
    if from == |pairs| || !EdgeDefined(nodes, pairs[from]) then from
    else FirstUndefinedEdge(nodes, pairs, from + 1)
  }

  /** The edges stay within the definitions exactly when no edge is undefined. */
  lemma FirstUndefinedEdgeWithin(nodes: seq<NodeDef>, pairs: seq<Pair>)
    ensures FirstUndefinedEdge(nodes, pairs) == |pairs| <==> EdgesWithinDefs(nodes, pairs)
  {
    var k := FirstUndefinedEdge(nodes, pairs);
    if k < |pairs| {
      assert pairs[k] in pairs && !EdgeDefined(nodes, pairs[k]);
    } else {
      forall e | e in pairs
        ensures (exists d :: d in nodes && d.name == e.0) && (exists d :: d in nodes && d.name == e.1)
      {
        var j :| 0 <= j < |pairs| && pairs[j] == e;
        assert EdgeDefined(nodes, pairs[j]);
      }
    }
  }

  /** build_from_priors: no nodes, cyclic edges and an edge naming an undefined node are refused,
      in that order, before the engine is touched; an engine failure is a 500. */
  method BuildFromPriors(engine: BNEngine, nodes: seq<NodeDef>, edges: seq<EdgeRequest>, cycles: seq<seq<string>>)
    returns (r: Result<BuildResponse, HttpError>)
    requires engine.Valid()
    requires SimpleCyclesOf(Pairs(edges), cycles)
    modifies engine
    ensures engine.Valid()
    ensures |nodes| < 1 ==> r == Err(HttpError(400, NoNodesDetail)) && unchanged(engine)
    ensures |nodes| >= 1 && HasCycle(Pairs(edges)) ==>
      r == Err(HttpError(400, ValidateDag(Pairs(edges), cycles).message)) && unchanged(engine)
    ensures |nodes| >= 1 && !HasCycle(Pairs(edges)) && !EdgesWithinDefs(nodes, Pairs(edges)) ==>
      var k := FirstUndefinedEdge(nodes, Pairs(edges));
      && unchanged(engine) && k < |edges| && r == Err(HttpError(400, UndefinedEdgeDetail(Pairs(edges)[k])))
    ensures r.Ok? <==> && |nodes| >= 1 && !HasCycle(Pairs(edges)) && EdgesWithinDefs(nodes, Pairs(edges))
                       && forall i :: 0 <= i < |nodes| ==> BaseVector(nodes[i].states, nodes[i].prior).Ok?
    ensures |nodes| >= 1 && !HasCycle(Pairs(edges)) && EdgesWithinDefs(nodes, Pairs(edges)) ==>
      && engine.manualNodes == DefsByName(nodes)
      && engine.model.Some? && engine.model.value.nodes == DefNames(nodes)
      && engine.model.value.edges == FromEdges(Pairs(edges)).edges
      && ParentsKnown(Pairs(edges), StatesByName(nodes))
      && engine.model.value.cpds == CpdsPrefix(nodes, FirstFailure(nodes), Pairs(edges), StatesByName(nodes))
    ensures |nodes| >= 1 && !HasCycle(Pairs(edges)) && EdgesWithinDefs(nodes, Pairs(edges)) && r.Err? ==>
      && r == Err(HttpError(500, BuildFailedPrefix + ErrorText(DivisionByZero)))
      && engine.isFitted == old(engine.isFitted) && engine.inference == old(engine.inference)
    ensures r.Ok? ==> engine.isFitted && engine.inference == engine.model
    ensures r.Ok? ==> r.value == BuildResponse(true, |DefNames(nodes)|, |FromEdges(Pairs(edges)).edges|,
                                               "模型从先验概率构建完成，可以进行推理")
    ensures engine.data == old(engine.data)
  {
    if |nodes| < 1 {
      return Err(HttpError(400, NoNodesDetail));
    }
    var pairs := Pairs(edges);
    if pairs != [] {
      var check := ValidateDag(pairs, cycles);
      if !check.isValid {
        return Err(HttpError(400, check.message));
      }
    } else {
      assert !HasCycle(pairs) by { assert ValidateDag(pairs, cycles).isValid; }
    }
    FirstUndefinedEdgeWithin(nodes, pairs);
    var k := 0;
    while k < |pairs|
      invariant 0 <= k <= |pairs|
      invariant forall j :: 0 <= j < k ==> EdgeDefined(nodes, pairs[j])
      invariant k <= FirstUndefinedEdge(nodes, pairs)
    {
      if !Defined(nodes, pairs[k].0) || !Defined(nodes, pairs[k].1) {
        return Err(HttpError(400, UndefinedEdgeDetail(pairs[k])));
      }
      k := k + 1;
    }
    var built := engine.BuildFromPriors(nodes, pairs);
    match built {
      case Err(e) =>
        return Err(HttpError(500, BuildFailedPrefix + ErrorText(e)));
      case Ok(summary) =>
        return Ok(BuildResponse(summary.success, summary.nodes, summary.edges, "模型从先验概率构建完成，可以进行推理"));
    }
  }

  // ---------------------------------------------------------------- infer

  datatype InferResponse = InferResponse(success: bool, distributions: map<string, Dist>, message: string)

  /** The string forms of a table's states. */
  function StateStrings(states: seq<Value>): (ss: seq<string>)
    ensures |ss| == |states| && forall i :: 0 <= i < |states| ==> ss[i] == ValueToString(states[i])
  {
    seq(|states|, i requires 0 <= i < |states| => ValueToString(states[i]))
  }

  /** The distribution that is certain of the observed state: 1.0 on the state whose string is the
      observation, 0.0 on every other state. */
  function OneHot(states: seq<Value>, observed: string): (d: Dist)
    ensures forall s :: s in d <==> exists i :: 0 <= i < |states| && ValueToString(states[i]) == s
    ensures forall s :: s in d ==> d[s] == if s == observed then 1.0 else 0.0
  {
    var ss := StateStrings(states);
    map s | s in ss :: if s == observed then 1.0 else 0.0
  }

  /** The entries of all rows, row after row (numpy's flatten). */
  function Flatten(rows: seq<seq<real>>): seq<real> {
    if rows == [] then [] else rows[0] + Flatten(rows[1..])
  }

  /** dict(zip(keys, values)): pairs up to the shorter length, a later key replacing an earlier one. */
  function Zip(keys: seq<string>, values: seq<real>): (d: Dist)
    ensures forall s :: s in d <==> exists i :: 0 <= i < |keys| && i < |values| && keys[i] == s
    decreases |keys|
  {
    if keys == [] || values == [] then map[]
    else
      var n := if |keys| < |values| then |keys| else |values|;
      var d := Zip(keys[..n - 1], values[..n - 1]);
      assert forall i :: 0 <= i < n - 1 ==> keys[..n - 1][i] == keys[i];
      d[keys[n - 1] := values[n - 1]]
  }

  /** The distribution infer reports for a node when there is no evidence: a root's own table, read
      off directly, or else the marginal computed by the inference engine, which fails with the
      text of its exception (a node the inference engine does not know, say). */
  function PriorDistribution(net: Network, inference: Network, node: string,
                             marginal: (Network, string) -> Result<Dist, string>): Result<Dist, string>
  {
    if node in net.cpds && net.cpds[node].parents == [] then
      Ok(Zip(StateStrings(net.cpds[node].states), Flatten(net.cpds[node].values)))
    else marginal(inference, node)
  }

  /** Every node of the model has a prior distribution to report. */
  predicate PriorsOk(net: Network, inference: Network, marginal: (Network, string) -> Result<Dist, string>) {
    forall i :: 0 <= i < |net.nodes| ==> PriorDistribution(net, inference, net.nodes[i], marginal).Ok?
  }

  /** infer. Refused unless fitted. Without evidence every model node gets its prior distribution;
      with evidence the engine's query answers, and then every evidence node of the model that has
      a table is overwritten with the certain distribution on its observed state. */
  method Infer(engine: BNEngine, evidence: map<string, string>,
               posterior: (Network, string, map<string, Value>) -> Dist,
               marginal: (Network, string) -> Result<Dist, string>)
    returns (r: Result<InferResponse, HttpError>)
    requires engine.Valid()
    ensures !engine.isFitted <==> r == Err(HttpError(400, NotFittedDetail))
    ensures engine.isFitted && evidence != map[] && !EvidenceKnown(engine.model, evidence) ==>
      r == Err(HttpError(500, InferFailedPrefix + ErrorText(NodeNotInGraph)))
    ensures engine.isFitted && evidence == map[] && r.Err? ==>
      var net := engine.model.value;
      exists i :: && 0 <= i < |net.nodes|
                  && (forall j :: 0 <= j < i ==> PriorDistribution(net, engine.inference.value, net.nodes[j], marginal).Ok?)
                  && PriorDistribution(net, engine.inference.value, net.nodes[i], marginal).Err?
                  && r == Err(HttpError(500, InferFailedPrefix +
                                             PriorDistribution(net, engine.inference.value, net.nodes[i], marginal).error))
    ensures r.Ok? <==> && engine.isFitted
                       && (evidence == map[] ==> PriorsOk(engine.model.value, engine.inference.value, marginal))
                       && (evidence != map[] ==> EvidenceKnown(engine.model, evidence))
    ensures r.Ok? && evidence == map[] ==>
      && r.value.message == "先验分布"
      && (forall n :: n in r.value.distributions <==> n in engine.model.value.nodes)
      && forall n :: n in r.value.distributions ==>
           Ok(r.value.distributions[n]) == PriorDistribution(engine.model.value, engine.inference.value, n, marginal)
    ensures r.Ok? && evidence != map[] ==>
      var net := engine.model.value;
      && r.value.message == "推理完成，使用 " + IntToString(|evidence|) + " 条证据"
      && (forall n :: n in r.value.distributions <==>
            n in net.nodes && (n !in evidence || n in net.cpds))
      && (forall n :: n in net.nodes && n !in evidence ==>
            r.value.distributions[n] == posterior(engine.inference.value, n, ConvertEvidence(engine.model, evidence).value))
      && (forall n :: n in net.nodes && n in evidence && n in net.cpds ==>
            r.value.distributions[n] == OneHot(net.cpds[n].states, evidence[n]))
  {
    if !engine.isFitted {
      return Err(HttpError(400, NotFittedDetail));
    }
    var net := engine.model.value;
    var allNodes := net.nodes;
    if evidence == map[] {
      var distributions: map<string, Dist> := map[];
      var i := 0;
      while i < |allNodes|
        invariant 0 <= i <= |allNodes|
        invariant forall j :: 0 <= j < i ==> PriorDistribution(net, engine.inference.value, allNodes[j], marginal).Ok?
        invariant forall n :: n in distributions <==> n in allNodes[..i]
        invariant forall n :: n in distributions ==>
          Ok(distributions[n]) == PriorDistribution(net, engine.inference.value, n, marginal)
      {
        var node := allNodes[i];
        var prior := PriorDistribution(net, engine.inference.value, node, marginal);
        if prior.Err? {
          return Err(HttpError(500, InferFailedPrefix + prior.error));
        }
        distributions := distributions[node := prior.value];
        assert allNodes[..i + 1] == allNodes[..i] + [node];
        i := i + 1;
      }
      assert allNodes[..i] == allNodes;
      return Ok(InferResponse(true, distributions, "先验分布"));
    }
    var queried := engine.Query(evidence, [], posterior);
    if queried.Err? {
      return Err(HttpError(500, InferFailedPrefix + ErrorText(queried.error)));
    }
    var distributions := queried.value;
    assert forall n :: n in distributions <==> n in net.nodes && n !in evidence;
    var pending := evidence.Keys;
    while pending != {}
      invariant pending <= evidence.Keys
      invariant forall n :: n in distributions <==>
        (n in net.nodes && n !in evidence) || (n in evidence - pending && n in net.nodes && n in net.cpds)
      invariant forall n :: n in net.nodes && n !in evidence ==>
        distributions[n] == posterior(engine.inference.value, n, ConvertEvidence(engine.model, evidence).value)
      invariant forall n :: n in evidence - pending && n in net.nodes && n in net.cpds ==>
        distributions[n] == OneHot(net.cpds[n].states, evidence[n])
      decreases pending
    {
      var node :| node in pending;
      if node in allNodes && node in net.cpds {
        distributions := distributions[node := OneHot(net.cpds[node].states, evidence[node])];
      }
      pending := pending - {node};
    }
    return Ok(InferResponse(true, distributions, "推理完成，使用 " + IntToString(|evidence|) + " 条证据"));
  }
}
