/** The canvas node component: whether a node is observed or shows a posterior, the widths of its
    probability bars, the percentages it prints, which body it shows, and the click that sets
    evidence. */
module CustomNode {
  import opened Wrappers
  import opened FlowStore

  /** The node is an evidence node: the evidence has an entry for its id. */
  predicate IsEvidence(evidence: map<string, string>, id: string) {
    id in evidence
  }

  /** The state the node is observed in, if any. */
  function EvidenceState(evidence: map<string, string>, id: string): (r: Option<string>)
    ensures r.Some? <==> IsEvidence(evidence, id)
    ensures r.Some? ==> r.value == evidence[id]
  {
    if id in evidence then Some(evidence[id]) else None
  }

  /** The node shows a posterior: some node is observed, but not this one. */
  predicate IsPosterior(evidence: map<string, string>, id: string) {
    |evidence| > 0 && !IsEvidence(evidence, id)
  }

  /** With any evidence every node is either observed or a posterior, never both; without
      evidence no node is either. */
  lemma EvidenceOrPosterior(evidence: map<string, string>, id: string)
    ensures !(IsEvidence(evidence, id) && IsPosterior(evidence, id))
    ensures |evidence| > 0 ==> IsEvidence(evidence, id) || IsPosterior(evidence, id)
    ensures |evidence| == 0 ==> !IsEvidence(evidence, id) && !IsPosterior(evidence, id)
  {
    if |evidence| == 0 {
      assert evidence == map[];
    }
  }

  /** A state row is highlighted: the node is observed in that state. */
  predicate IsActive(evidence: map<string, string>, id: string, state: string) {
    EvidenceState(evidence, id) == Some(state)
  }

  /** A click in trained mode flips the clicked row's highlight and leaves no other row of the node
      highlighted. */
  lemma ClickFlipsActive(evidence: map<string, string>, id: string, state: string, other: string)
    ensures IsActive(Toggle(evidence, id, state), id, state) <==> !IsActive(evidence, id, state)
    ensures other != state ==> !IsActive(Toggle(evidence, id, state), id, other)
  {
  }

  function Max(a: real, b: real): real {
    if a >= b then a else b
  }

  /** getBarWidth, as a percentage: at least 5 for a state with a probability, an equal share of
      100 without one, 50 for a node without states. */
  function BarWidth(distribution: Option<Dist>, states: seq<string>, state: string): (w: real)
    ensures w > 0.0
    ensures distribution.Some? && state in distribution.value ==> w >= 5.0
  {
    if distribution.Some? && state in distribution.value then Max(5.0, distribution.value[state] * 100.0)
    else if |states| > 0 then 100.0 / (|states| as real)
    else 50.0
  }

  /** A probability gives a bar of at most the full width. */
  lemma BarWidthAtMostFull(distribution: Option<Dist>, states: seq<string>, state: string)
    requires distribution.Some? && state in distribution.value ==> distribution.value[state] <= 1.0
    ensures BarWidth(distribution, states, state) <= 100.0
  {
  }

  /** The widths of the bars of the listed states. */
  function TotalWidth(distribution: Option<Dist>, states: seq<string>, shown: seq<string>): real {
    if shown == [] then 0.0
    else BarWidth(distribution, states, shown[0]) + TotalWidth(distribution, states, shown[1..])
  }

  lemma {:induction false} TotalUniformWidth(states: seq<string>, shown: seq<string>)
    requires |states| > 0
    ensures TotalWidth(None, states, shown) == (|shown| as real) * (100.0 / (|states| as real))
  {
    if shown != [] {
      TotalUniformWidth(states, shown[1..]);
    }
  }

  /** Before any distribution arrives the bars of a node share the full width equally. */
  lemma UniformBarsFillTheRow(states: seq<string>)
    requires |states| > 0
    ensures TotalWidth(None, states, states) == 100.0
  {
    TotalUniformWidth(states, states);
  }

  /** getProb: the percentage of a state with a probability, else nothing. */
  function Prob(distribution: Option<Dist>, state: string): (r: Option<real>)
    ensures r.None? <==> !(distribution.Some? && state in distribution.value)
  {
    if distribution.Some? && state in distribution.value then Some(distribution.value[state] * 100.0) else None
  }

  /** A printed percentage and its bar agree: the bar is the percentage, but never below 5. */
  lemma ProbMatchesBar(distribution: Option<Dist>, states: seq<string>, state: string)
    ensures Prob(distribution, state).Some? ==>
      BarWidth(distribution, states, state) == Max(5.0, Prob(distribution, state).value)
  {
  }

  /** The state rows show only in trained mode, for a node with states. */
  predicate ShowsStateRows(modelTrained: bool, states: seq<string>) {
    modelTrained && |states| > 0
  }

  /** The state count shows only in edit mode, for a node with states. */
  predicate ShowsStateCount(modelTrained: bool, states: seq<string>) {
    !modelTrained && |states| > 0
  }

  /** A node with states shows exactly one of the two bodies. */
  lemma OneBody(modelTrained: bool, states: seq<string>)
    ensures !(ShowsStateRows(modelTrained, states) && ShowsStateCount(modelTrained, states))
    ensures |states| > 0 ==> ShowsStateRows(modelTrained, states) || ShowsStateCount(modelTrained, states)
  {
  }

  /** handleStateClick: the evidence toggles only in trained mode. */
  method HandleStateClick(store: Store, id: string, state: string)
    modifies store
    ensures old(store.modelTrained) ==>
      store.Snapshot() == old(store.Snapshot()).(evidence := Toggle(old(store.evidence), id, state))
    ensures !old(store.modelTrained) ==> store.Snapshot() == old(store.Snapshot())
  {
    if store.modelTrained {
      store.SetEvidence(id, state);
    }
  }

  // ---------------------------------------------------------------- property lookup as written

  /** The names every plain JavaScript object inherits from Object.prototype. */
  const ObjectPrototypeKeys: set<string> := {
    "constructor", "hasOwnProperty", "isPrototypeOf", "propertyIsEnumerable", "toLocaleString",
    "toString", "valueOf", "__proto__", "__defineGetter__", "__defineSetter__",
    "__lookupGetter__", "__lookupSetter__"}

  /** `evidence[id] !== undefined` on a plain object: an own entry, or an inherited member. */
  predicate IsEvidenceAsWritten(evidence: map<string, string>, id: string) {
    id in evidence || id in ObjectPrototypeKeys
  }

  predicate IsPosteriorAsWritten(evidence: map<string, string>, id: string) {
    |evidence| > 0 && !IsEvidenceAsWritten(evidence, id)
  }

  /** A node named "toString" is shown as observed before anything is observed, and never as a
      posterior once something is. */
  lemma PrototypeNameCountsAsEvidence(other: string, state: string)
    requires other != "toString"
    ensures IsEvidenceAsWritten(map[], "toString") && !IsEvidence(map[], "toString")
    ensures !IsPosteriorAsWritten(map[other := state], "toString")
    ensures IsPosterior(map[other := state], "toString")
  {
    assert "toString" in ObjectPrototypeKeys;
  }

  /** For every other name the lookup as written and the own-entry test agree. */
  lemma AsWrittenAgreesOffPrototype(evidence: map<string, string>, id: string)
    requires id !in ObjectPrototypeKeys
    ensures IsEvidenceAsWritten(evidence, id) <==> IsEvidence(evidence, id)
    ensures IsPosteriorAsWritten(evidence, id) <==> IsPosterior(evidence, id)
  {
  }
}
