/** The workflow sidebar: the add-node form, the resizable width, the three pipeline steps and the
    handlers that call the backend and update the store. A backend call is returned as a request;
    its outcome is a parameter. */
module Sidebar {
  import opened Wrappers
  import opened Text
  import opened FlowStore

  // ---------------------------------------------------------------- the add-node form

  const DefaultStates := "True, False"
  const NameRequiredMessage := "Node name is required"
  const TooFewStatesMessage := "At least 2 states required"

  /** The trimmed pieces, with the empty ones dropped. */
  function Clean(parts: seq<string>): (states: seq<string>)
    ensures |states| <= |parts|
    ensures forall i :: 0 <= i < |states| ==> states[i] != [] && IsTrimmed(states[i])
  {
    if parts == [] then []
    else
      var t := Trim(parts[0]);
      (if t == [] then [] else [t]) + Clean(parts[1..])
  }

  /** The state list typed into the form: split on commas, trimmed, empty pieces dropped. */
  function ParseStates(s: string): seq<string> {
    Clean(Split(s, ','))
  }

  /** A list of states the form can produce: non-empty, trimmed, without commas. */
  predicate ValidState(x: string) {
    x != [] && IsTrimmed(x) && ',' !in x
  }

  predicate ValidStates(xs: seq<string>) {
    forall i :: 0 <= i < |xs| ==> ValidState(xs[i])
  }

  lemma TrimKeepsOut(p: string, c: char)
    requires c !in p
    ensures c !in Trim(p)
  {
    var t := TrimStart(p);
    var k := |p| - |t|;
    assert t == p[k..];
    var r := TrimEnd(t);
    assert r == Trim(p) && r == t[..|r|];
    forall i | 0 <= i < |r|
      ensures r[i] != c
    {
      assert r[i] == t[i] == p[k + i];
    }
  }

  lemma {:induction false} CleanKeepsOut(parts: seq<string>, c: char)
    requires forall i :: 0 <= i < |parts| ==> c !in parts[i]
    ensures forall i :: 0 <= i < |Clean(parts)| ==> c !in Clean(parts)[i]
  {
    if parts != [] {
      TrimKeepsOut(parts[0], c);
      CleanKeepsOut(parts[1..], c);
    }
  }

  /** Whatever is typed, the parsed states are valid. */
  lemma ParsedStatesValid(s: string)
    ensures ValidStates(ParseStates(s))
  {
    CleanKeepsOut(Split(s, ','), ',');
  }

  lemma CleanCons(p: string, ps: seq<string>)
    ensures Clean([p] + ps) == (if Trim(p) == [] then [] else [Trim(p)]) + Clean(ps)
  {
    assert ([p] + ps)[1..] == ps;
  }

  lemma NoCommaInPadded(w: string, x: string)
    requires AllWhitespace(w) && ',' !in x
    ensures ',' !in w + x
  {
    assert forall i :: 0 <= i < |w| ==> w[i] != ',';
    forall i | 0 <= i < |w + x|
      ensures (w + x)[i] != ','
    {
      if i >= |w| {
        assert (w + x)[i] == x[i - |w|];
      }
    }
  }

  lemma Regroup(a: string, b: string, r: string)
    ensures a + (b + ", " + r) == (a + b) + [','] + (" " + r)
  {
    var lhs := a + (b + ", " + r);
    var rhs := (a + b) + [','] + (" " + r);
    assert |lhs| == |rhs|;
    forall i | 0 <= i < |lhs|
      ensures lhs[i] == rhs[i]
    {
      if i < |a| + |b| {
      } else if i == |a| + |b| {
      } else {
      }
    }
  }

  lemma PaddedJoin(w: string, xs: seq<string>)
    requires |xs| >= 2
    ensures w + Join(xs, ", ") == (w + xs[0]) + [','] + (" " + Join(xs[1..], ", "))
  {
    var rest := Join(xs[1..], ", ");
    assert Join(xs, ", ") == xs[0] + ", " + rest;
    Regroup(w, xs[0], rest);
  }

  /** A non-blank piece before a comma is the first state. */
  lemma ParseStep(p: string, t: string)
    requires ',' !in p && Trim(p) != []
    ensures ParseStates(p + [','] + t) == [Trim(p)] + ParseStates(t)
  {
    SplitAfterPiece(p, ',', t);
    CleanCons(p, Split(t, ','));
  }

  lemma ParseLast(p: string)
    requires ',' !in p && Trim(p) != []
    ensures ParseStates(p) == [Trim(p)]
  {
    SplitWithoutSeparator(p, ',');
    CleanCons(p, []);
  }

  lemma SpaceIsWhitespace()
    ensures AllWhitespace(" ")
  {
  }

  lemma ValidTail(xs: seq<string>)
    requires |xs| >= 1 && ValidStates(xs)
    ensures ValidState(xs[0]) && ValidStates(xs[1..])
  {
    assert forall i :: 0 <= i < |xs[1..]| ==> xs[1..][i] == xs[i + 1];
  }

  /** One state after white space parses to itself. */
  lemma ParsePaddedLast(w: string, x: string)
    requires AllWhitespace(w) && ValidState(x)
    ensures ParseStates(w + Join([x], ", ")) == [x]
  {
    NoCommaInPadded(w, x);
    TrimOfPadded(w, x);
    assert w + Join([x], ", ") == w + x;
    ParseLast(w + x);
  }

  /** The first state after white space is split off, given the parse of the rest. */
  lemma ParsePaddedStep(w: string, xs: seq<string>)
    requires AllWhitespace(w) && |xs| >= 2 && ValidState(xs[0])
    requires ParseStates(" " + Join(xs[1..], ", ")) == xs[1..]
    ensures ParseStates(w + Join(xs, ", ")) == xs
  {
    NoCommaInPadded(w, xs[0]);
    TrimOfPadded(w, xs[0]);
    PaddedJoin(w, xs);
    ParseStep(w + xs[0], " " + Join(xs[1..], ", "));
    assert xs == [xs[0]] + xs[1..];
  }

  lemma {:induction false} ParsePadded(w: string, xs: seq<string>)
    requires AllWhitespace(w)
    requires |xs| >= 1 && ValidStates(xs)
    ensures ParseStates(w + Join(xs, ", ")) == xs
    decreases |xs|
  {
    ValidTail(xs);
    if |xs| == 1 {
      ParsePaddedLast(w, xs[0]);
      assert xs == [xs[0]];
    } else {
      SpaceIsWhitespace();
      ParsePadded(" ", xs[1..]);
      ParsePaddedStep(w, xs);
    }
  }

  /** Parsing a valid list written out with ", " gives the list back. */
  lemma ParseJoinRoundTrip(xs: seq<string>)
    requires ValidStates(xs)
    ensures ParseStates(Join(xs, ", ")) == xs
  {
    if xs == [] {
      assert Split("", ',') == [""];
    } else {
      ParsePadded("", xs);
      assert "" + Join(xs, ", ") == Join(xs, ", ");
    }
  }

  /** The form's initial states are the two states True and False. */
  lemma DefaultStatesParse()
    ensures ParseStates(DefaultStates) == ["True", "False"]
  {
    var xs := ["True", "False"];
    assert Join(xs, ", ") == DefaultStates;
    ParseJoinRoundTrip(xs);
  }

  datatype NewNode = NewNode(name: string, states: seq<string>)

  /** What a submit of the form decides: the node to add, or the error to show. */
  datatype Submission = Accept(node: NewNode) | Refuse(message: string)

  /** A name and at least two states are required; the name is checked first. */
  function Submit(nodeName: string, states: string): (r: Submission)
    ensures r.Refuse? <==> Trim(nodeName) == [] || |ParseStates(states)| < 2
    ensures Trim(nodeName) == [] ==> r == Refuse(NameRequiredMessage)
    ensures Trim(nodeName) != [] && |ParseStates(states)| < 2 ==> r == Refuse(TooFewStatesMessage)
    ensures r.Accept? ==> r.node == NewNode(Trim(nodeName), ParseStates(states))
  {
    var name := Trim(nodeName);
    if name == [] then Refuse(NameRequiredMessage)
    else
      var stateList := ParseStates(states);
      if |stateList| < 2 then Refuse(TooFewStatesMessage)
      else Accept(NewNode(name, stateList))
  }

  /** An accepted node has a non-empty trimmed name and at least two valid states. */
  lemma AcceptedNodeValid(nodeName: string, states: string)
    requires Submit(nodeName, states).Accept?
    ensures var node := Submit(nodeName, states).node;
      node.name != [] && IsTrimmed(node.name) && |node.states| >= 2 && ValidStates(node.states)
  {
    ParsedStatesValid(states);
  }

  /** The contents of the add-node form: its two inputs and its error line. */
  datatype FormState = FormState(nodeName: string, states: string, error: string)

  /** The form as it opens. */
  const EmptyForm := FormState("", DefaultStates, "")

  /** handleSubmit on values: the form afterwards, and the node handed over when accepted. */
  function SubmitForm(f: FormState): (r: (FormState, Option<NewNode>))
    ensures r.1.Some? <==> Submit(f.nodeName, f.states).Accept?
    ensures r.1.None? ==>
      r.0 == f.(error := Submit(f.nodeName, f.states).message)
    ensures r.1.Some? ==> r.0 == EmptyForm && r.1.value == Submit(f.nodeName, f.states).node
  {
    match Submit(f.nodeName, f.states)
    case Refuse(message) => (f.(error := message), None)
    case Accept(node) => (EmptyForm, Some(node))
  }

  /** A refused entry stays in the form with its error; an accepted one leaves an empty form. */
  lemma SubmitFormOutcome(f: FormState)
    ensures var (g, added) := SubmitForm(f);
      (Trim(f.nodeName) == [] ==>
         added == None && g == f.(error := NameRequiredMessage)) &&
      (Trim(f.nodeName) != [] && |ParseStates(f.states)| < 2 ==>
         added == None && g == f.(error := TooFewStatesMessage)) &&
      (Trim(f.nodeName) != [] && |ParseStates(f.states)| >= 2 ==>
         g == EmptyForm && added == Some(NewNode(Trim(f.nodeName), ParseStates(f.states))))
  {
  }

  /** The add-node form. */
  class AddNodeForm {
    var nodeName: string
    var states: string
    var error: string

    function Contents(): (f: FormState)
      reads this
      ensures f.nodeName == nodeName && f.states == states && f.error == error
    {
      FormState(nodeName, states, error)
    }

    constructor ()
      ensures Contents() == EmptyForm
    {
      nodeName := "";
      states := DefaultStates;
      error := "";
    }

    /** handleSubmit: a refused entry shows its error and stays in the form; an accepted one is
        handed over and the form is reset. */
    method HandleSubmit() returns (added: Option<NewNode>)
      modifies this
      ensures (Contents(), added) == SubmitForm(old(Contents()))
    {
      var (g, a) := SubmitForm(Contents());
      nodeName, states, error, added := g.nodeName, g.states, g.error, a;
    }
  }

  // ---------------------------------------------------------------- the sidebar

  const InitialWidth := 260
  const MinWidth := 200
  const MaxWidth := 400

  /** The width a drag to clientX gives the sidebar. */
  function Clamp(clientX: int): (w: int)
    ensures MinWidth <= w <= MaxWidth
    ensures MinWidth <= clientX <= MaxWidth ==> w == clientX
    ensures clientX < MinWidth ==> w == MinWidth
    ensures clientX > MaxWidth ==> w == MaxWidth
  {
    if clientX < MinWidth then MinWidth else if clientX > MaxWidth then MaxWidth else clientX
  }

  datatype Step = DataStep | StructureStep | InferenceStep

  /** A call the sidebar makes to the backend. */
  datatype Request =
    | UploadCsv(filename: string)
    | LearnStructure(scoring: string)
    | ValidateStructure(edges: seq<Connection>)
    | LearnParameters(edges: seq<Connection>, estimator: string)

  /** The outcome of a backend call: its reply, or the message of the error it threw. */
  datatype Remote<+T> = Reply(value: T) | Failed(message: string)

  datatype LearnedStructure = LearnedStructure(edges: seq<Connection>, edgeCount: int)

  datatype Validation = Validation(isValid: bool, message: string)

  const CsvOnlyMessage := "Only CSV files are supported"
  const UploadFallback := "Upload failed"
  const NoDataMessage := "Please upload data first for auto-learning"
  const AutoLearnFallback := "Auto learn failed"
  const NoEdgesMessage := "Please add edges first"
  const TrainFallback := "Training failed"
  const TrainedMessage := "Model trained successfully"
  const DefaultScoring := "k2"
  const DefaultEstimator := "mle"

  /** `err.message || fallback`: the thrown message unless it is empty. */
  function Shown(message: string, fallback: string): (r: string)
    ensures message != [] ==> r == message
    ensures message == [] ==> r == fallback
    ensures r != [] <==> message != [] || fallback != []
  {
    if message == [] then fallback else message
  }

  function DuplicateMessage(name: string): string {
    "Node \"" + name + "\" already exists"
  }

  /** The name a node is listed under: its label, or its id when the label is empty. */
  function DisplayName(n: Node): string {
    if n.labelText != [] then n.labelText else n.id
  }

  function DisplayNames(nodes: seq<Node>): (names: seq<string>)
    ensures |names| == |nodes|
    ensures forall i :: 0 <= i < |nodes| ==> names[i] == DisplayName(nodes[i])
  {
    if nodes == [] then [] else [DisplayName(nodes[0])] + DisplayNames(nodes[1..])
  }

  predicate NamesDistinct(nodes: seq<Node>) {
    forall i, j :: 0 <= i < j < |nodes| ==> DisplayName(nodes[i]) != DisplayName(nodes[j])
  }

  /** The node addManualNode appends is listed under the name it was given. */
  lemma ManualNodeDisplayName(name: string, slot: Position, states: seq<string>, prior: Option<Prior>)
    ensures DisplayName(Node(name, slot, name, states, None, true, prior)) == name
  {
  }

  /** Appending a node under a name not yet listed keeps the listed names distinct. */
  lemma AppendFreshName(nodes: seq<Node>, n: Node)
    requires NamesDistinct(nodes)
    requires DisplayName(n) !in DisplayNames(nodes)
    ensures NamesDistinct(nodes + [n])
  {
    var all := nodes + [n];
    forall i, j | 0 <= i < j < |all|
      ensures DisplayName(all[i]) != DisplayName(all[j])
    {
      if j == |nodes| {
        assert DisplayNames(nodes)[i] == DisplayName(all[i]);
      } else {
        assert all[i] == nodes[i] && all[j] == nodes[j];
      }
    }
  }

  /** The Processing spinner shows on the data step while the store is loading. */
  predicate ShowsSpinner(step: Step, s: StoreState) {
    step == DataStep && s.isLoading
  }

  /** The start of an upload as written: loading is switched on, then the error is cleared. */
  function UploadStartAsWritten(s: StoreState): StoreState {
    AfterSetError(AfterSetLoading(s, true), None)
  }

  /** Clearing the error also ends loading, so the spinner never shows during an upload. */
  lemma SpinnerNeverShowsAsWritten(step: Step, s: StoreState)
    ensures !ShowsSpinner(step, UploadStartAsWritten(s))
  {
  }

  /** The start of an upload with the two calls in the other order. */
  function UploadStart(s: StoreState): StoreState {
    AfterSetLoading(AfterSetError(s, None), true)
  }

  /** Cleared messages and the spinner showing; the two orders differ only in the loading flag. */
  lemma UploadStartShowsSpinner(s: StoreState)
    ensures ShowsSpinner(DataStep, UploadStart(s))
    ensures UploadStart(s).error == None && UploadStart(s).successMessage == None
    ensures UploadStart(s).(isLoading := false) == UploadStartAsWritten(s)
  {
  }

  /** The sidebar's own state. */
  datatype PanelState = PanelState(
    activeStep: Step,
    isAutoLearning: bool,
    isTraining: bool,
    sidebarWidth: int,
    isResizing: bool,
    showAddNode: bool)

  class SidebarPanel {
    const store: Store
    var activeStep: Step
    var isAutoLearning: bool
    var isTraining: bool
    var sidebarWidth: int
    var isResizing: bool
    var showAddNode: bool

    function Panel(): PanelState
      reads this
    {
      PanelState(activeStep, isAutoLearning, isTraining, sidebarWidth, isResizing, showAddNode)
    }

    /** The width always lies within the drag limits. */
    predicate WidthInRange()
      reads this
    {
      MinWidth <= sidebarWidth <= MaxWidth
    }

    constructor (store: Store)
      ensures this.store == store
      ensures Panel() == PanelState(DataStep, false, false, InitialWidth, false, false)
      ensures WidthInRange()
    {
      this.store := store;
      activeStep := DataStep;
      isAutoLearning := false;
      isTraining := false;
      sidebarWidth := InitialWidth;
      isResizing := false;
      showAddNode := false;
    }

    method ResizeStart()
      modifies this
      ensures Panel() == old(Panel()).(isResizing := true)
    {
      isResizing := true;
    }

    /** A mouse move resizes only during a drag, and never beyond the limits. */
    method ResizeMove(clientX: int)
      modifies this
      ensures old(isResizing) ==> Panel() == old(Panel()).(sidebarWidth := Clamp(clientX))
      ensures !old(isResizing) ==> Panel() == old(Panel())
      ensures old(WidthInRange()) ==> WidthInRange()
    {
      if isResizing {
        sidebarWidth := Clamp(clientX);
      }
    }

    method ResizeEnd()
      modifies this
      ensures Panel() == old(Panel()).(isResizing := false)
    {
      isResizing := false;
    }

    /** A click on a step header: the data step always opens, the structure step only once there
        are nodes, the inference step only for a trained model. */
    method SelectStep(step: Step)
      modifies this
      ensures Panel() == old(Panel()).(activeStep :=
        if step == DataStep
           || (step == StructureStep && |store.nodes| > 0)
           || (step == InferenceStep && store.modelTrained)
        then step else old(activeStep))
    {
      if step == DataStep || (step == StructureStep && |store.nodes| > 0) || (step == InferenceStep && store.modelTrained) {
        activeStep := step;
      }
    }

    method OpenAddNode()
      modifies this
      ensures Panel() == old(Panel()).(showAddNode := true)
    {
      showAddNode := true;
    }

    method CloseAddNode()
      modifies this
      ensures Panel() == old(Panel()).(showAddNode := false)
    {
      showAddNode := false;
    }

    /** handleUpload: nothing without a file, an error without a call for a name not ending in
        ".csv", otherwise one upload whose reply replaces the canvas; loading always ends. */
    method HandleUpload(file: Option<string>, upload: Remote<Metadata>) returns (requests: seq<Request>)
      modifies this, store
      ensures file.None? ==>
        requests == [] && store.Snapshot() == old(store.Snapshot()) && Panel() == old(Panel())
      ensures file.Some? && !EndsWith(file.value, ".csv") ==>
        requests == [] && Panel() == old(Panel()) &&
        store.Snapshot() == AfterSetError(old(store.Snapshot()), Some(CsvOnlyMessage))
      ensures file.Some? && EndsWith(file.value, ".csv") ==>
        requests == [UploadCsv(file.value)] && !store.isLoading
      ensures file.Some? && EndsWith(file.value, ".csv") && upload.Reply? ==>
        Panel() == old(Panel()).(activeStep := StructureStep) &&
        store.Snapshot() == AfterSetError(old(store.Snapshot()), None).(
          nodes := ImportNodes(upload.value.columns, upload.value.metaInfo), edges := [],
          metadata := Some(upload.value), modelTrained := false)
      ensures file.Some? && EndsWith(file.value, ".csv") && upload.Failed? ==>
        Panel() == old(Panel()) &&
        store.Snapshot() == AfterSetError(old(store.Snapshot()), Some(Shown(upload.message, UploadFallback)))
    {
      if file.None? {
        return [];
      }
      if !EndsWith(file.value, ".csv") {
        store.SetError(Some(CsvOnlyMessage));
        return [];
      }
      store.SetError(None);
      store.SetLoading(true);
      assert store.Snapshot() == UploadStart(old(store.Snapshot()));
      requests := [UploadCsv(file.value)];
      match upload {
        case Reply(result) =>
          store.SetNodesFromCsv(result);
          activeStep := StructureStep;
        case Failed(message) =>
          store.SetError(Some(Shown(message, UploadFallback)));
      }
      store.SetLoading(false);
    }

    /** handleAddNode: a name already listed is refused; otherwise one manual node is added under
        it and the structure step opens. */
    method HandleAddNode(name: string, states: seq<string>)
      modifies this, store
      ensures name in DisplayNames(old(store.nodes)) ==>
        Panel() == old(Panel()) &&
        store.Snapshot() == AfterSetError(old(store.Snapshot()), Some(DuplicateMessage(name)))
      ensures name !in DisplayNames(old(store.nodes)) ==>
        Panel() == old(Panel()).(activeStep := StructureStep) &&
        store.Snapshot() == old(store.Snapshot()).(
          nodes := old(store.nodes) + [Node(name, ManualSlot(|old(store.nodes)|), name, states, None, true, None)],
          modelTrained := false, successMessage := Some("Added node: " + name), error := None)
      ensures NamesDistinct(old(store.nodes)) ==> NamesDistinct(store.nodes)
    {
      if name in DisplayNames(store.nodes) {
        store.SetError(Some(DuplicateMessage(name)));
        return;
      }
      ghost var before := store.nodes;
      store.AddManualNode(name, states, None);
      ManualNodeDisplayName(name, ManualSlot(|before|), states, None);
      if NamesDistinct(before) {
        AppendFreshName(before, Node(name, ManualSlot(|before|), name, states, None, true, None));
      }
      store.SetSuccess(Some("Added node: " + name));
      activeStep := StructureStep;
    }

    /** What the sidebar does with the outcome of a submit: nothing for a refused entry; an
        accepted one goes through handleAddNode and the form closes. */
    method ApplySubmitted(added: Option<NewNode>)
      modifies this, store
      ensures added.None? ==> Panel() == old(Panel()) && store.Snapshot() == old(store.Snapshot())
      ensures added.Some? && added.value.name in DisplayNames(old(store.nodes)) ==>
        && Panel() == old(Panel()).(showAddNode := false)
        && store.Snapshot() == AfterSetError(old(store.Snapshot()), Some(DuplicateMessage(added.value.name)))
      ensures added.Some? && added.value.name !in DisplayNames(old(store.nodes)) ==>
        var name := added.value.name;
        && Panel() == old(Panel()).(activeStep := StructureStep, showAddNode := false)
        && store.Snapshot() == old(store.Snapshot()).(
             nodes := old(store.nodes) + [Node(name, ManualSlot(|old(store.nodes)|), name, added.value.states,
                                                None, true, None)],
             modelTrained := false, successMessage := Some("Added node: " + name), error := None)
      ensures NamesDistinct(old(store.nodes)) ==> NamesDistinct(store.nodes)
    {
      if added.Some? {
        HandleAddNode(added.value.name, added.value.states);
        showAddNode := false;
      }
    }

    /** A submit of the add-node form: the form ends as SubmitForm leaves it (SubmitFormOutcome
        says when an entry is refused and what node an accepted one yields), and the sidebar then
        applies the outcome as ApplySubmitted states. */
    method SubmitAddNode(form: AddNodeForm)
      modifies this, store, form
      ensures form.Contents() == SubmitForm(old(form.Contents())).0
      ensures SubmitForm(old(form.Contents())).1.None? ==>
        Panel() == old(Panel()) && store.Snapshot() == old(store.Snapshot())
      ensures SubmitForm(old(form.Contents())).1.None? <==>
        Trim(old(form.nodeName)) == [] || |ParseStates(old(form.states))| < 2
      ensures SubmitForm(old(form.Contents())).1.None? ==>
        && form.nodeName == old(form.nodeName) && form.states == old(form.states)
        && form.error == Submit(old(form.nodeName), old(form.states)).message
      ensures SubmitForm(old(form.Contents())).1.Some? ==>
        && !showAddNode && form.Contents() == EmptyForm
        && SubmitForm(old(form.Contents())).1.value == NewNode(Trim(old(form.nodeName)), ParseStates(old(form.states)))
      ensures var added := SubmitForm(old(form.Contents())).1;
        added.Some? && added.value.name in DisplayNames(old(store.nodes)) ==>
        && Panel() == old(Panel()).(showAddNode := false)
        && store.Snapshot() == AfterSetError(old(store.Snapshot()), Some(DuplicateMessage(added.value.name)))
      ensures var added := SubmitForm(old(form.Contents())).1;
        added.Some? && added.value.name !in DisplayNames(old(store.nodes)) ==>
        var name := added.value.name;
        && Panel() == old(Panel()).(activeStep := StructureStep, showAddNode := false)
        && store.Snapshot() == old(store.Snapshot()).(
             nodes := old(store.nodes) + [Node(name, ManualSlot(|old(store.nodes)|), name, added.value.states,
                                                None, true, None)],
             modelTrained := false, successMessage := Some("Added node: " + name), error := None)
      ensures NamesDistinct(old(store.nodes)) ==> NamesDistinct(store.nodes)
    {
      SubmitFormOutcome(form.Contents());
      var added := form.HandleSubmit();
      ApplySubmitted(added);
    }

    /** handleAutoLearn: refused without uploaded data; otherwise one structure-learning call
        whose edges replace the canvas's. */
    method HandleAutoLearn(learn: Remote<LearnedStructure>) returns (requests: seq<Request>)
      modifies this, store
      ensures old(store.metadata).None? ==>
        requests == [] && Panel() == old(Panel()) &&
        store.Snapshot() == AfterSetError(old(store.Snapshot()), Some(NoDataMessage))
      ensures old(store.metadata).Some? ==>
        requests == [LearnStructure(DefaultScoring)] && Panel() == old(Panel()).(isAutoLearning := false)
      ensures old(store.metadata).Some? && learn.Reply? ==>
        store.Snapshot() == AfterSetError(old(store.Snapshot()), None).(
          edges := EdgesFromLearned(learn.value.edges), modelTrained := false,
          autoLayoutTrigger := old(store.autoLayoutTrigger) + 1,
          successMessage := Some("Learned " + IntToString(learn.value.edgeCount) + " edges"))
      ensures old(store.metadata).Some? && learn.Reply? ==> EdgeList(store.edges) == learn.value.edges
      ensures old(store.metadata).Some? && learn.Failed? ==>
        store.Snapshot() == AfterSetError(old(store.Snapshot()), Some(Shown(learn.message, AutoLearnFallback)))
    {
      if store.metadata.None? {
        store.SetError(Some(NoDataMessage));
        return [];
      }
      isAutoLearning := true;
      store.SetError(None);
      requests := [LearnStructure(DefaultScoring)];
      match learn {
        case Reply(result) =>
          store.SetEdgesFromLearned(result.edges);
          store.SetSuccess(Some("Learned " + IntToString(result.edgeCount) + " edges"));
        case Failed(message) =>
          store.SetError(Some(Shown(message, AutoLearnFallback)));
      }
      isAutoLearning := false;
    }

    /** handleTrain: refused without edges; otherwise the structure is validated and, only when
        it is a DAG, the parameters are learned; the model counts as trained only when that
        learning reports success. */
    method HandleTrain(validation: Remote<Validation>, learn: Remote<bool>) returns (requests: seq<Request>)
      modifies this, store
      ensures old(store.edges) == [] ==>
        requests == [] && Panel() == old(Panel()) &&
        store.Snapshot() == AfterSetError(old(store.Snapshot()), Some(NoEdgesMessage))
      ensures old(store.edges) != [] && !(validation.Reply? && validation.value.isValid) ==>
        requests == [ValidateStructure(EdgeList(old(store.edges)))] &&
        Panel() == old(Panel()).(isTraining := false) &&
        store.Snapshot() == AfterSetError(old(store.Snapshot()), Some(
          if validation.Failed? then Shown(validation.message, TrainFallback) else validation.value.message))
      ensures old(store.edges) != [] && validation.Reply? && validation.value.isValid ==>
        requests == [ValidateStructure(EdgeList(old(store.edges))),
                     LearnParameters(EdgeList(old(store.edges)), DefaultEstimator)]
      ensures old(store.edges) != [] && validation.Reply? && validation.value.isValid && learn.Failed? ==>
        Panel() == old(Panel()).(isTraining := false) &&
        store.Snapshot() == AfterSetError(old(store.Snapshot()), Some(Shown(learn.message, TrainFallback)))
      ensures old(store.edges) != [] && validation.Reply? && validation.value.isValid && learn == Reply(false) ==>
        Panel() == old(Panel()).(isTraining := false) &&
        store.Snapshot() == AfterSetError(old(store.Snapshot()), None)
      ensures old(store.edges) != [] && validation.Reply? && validation.value.isValid && learn == Reply(true) ==>
        Panel() == old(Panel()).(isTraining := false, activeStep := InferenceStep) &&
        store.Snapshot() == AfterSetError(old(store.Snapshot()), None).(
          modelTrained := true, successMessage := Some(TrainedMessage))
      ensures store.modelTrained ==>
        old(store.modelTrained) || (validation.Reply? && validation.value.isValid && learn == Reply(true))
    {
      var edgeList := EdgeList(store.edges);
      if |edgeList| == 0 {
        store.SetError(Some(NoEdgesMessage));
        return [];
      }
      isTraining := true;
      store.SetError(None);
      requests := [ValidateStructure(edgeList)];
      match validation {
        case Failed(message) =>
          store.SetError(Some(Shown(message, TrainFallback)));
        case Reply(v) =>
          if !v.isValid {
            store.SetError(Some(v.message));
            isTraining := false;
            return;
          }
          requests := requests + [LearnParameters(edgeList, DefaultEstimator)];
          match learn {
            case Failed(message) =>
              store.SetError(Some(Shown(message, TrainFallback)));
            case Reply(success) =>
              if success {
                store.SetModelTrained(true);
                store.SetSuccess(Some(TrainedMessage));
                activeStep := InferenceStep;
              }
          }
      }
      isTraining := false;
    }

    /** handleClearEdges: the edges go and the model is stale. */
    method HandleClearEdges()
      modifies store
      ensures store.Snapshot() == old(store.Snapshot()).(
        edges := [], modelTrained := false, successMessage := Some("Edges cleared"), error := None)
    {
      store.ClearEdges();
      store.SetSuccess(Some("Edges cleared"));
    }

    /** The inference step's Reset Evidence button. */
    method ResetEvidence()
      modifies store
      ensures store.Snapshot() == old(store.Snapshot()).(
        evidence := map[], distributions := map[], successMessage := Some("Evidence cleared"), error := None)
    {
      store.ClearEvidence();
      store.SetSuccess(Some("Evidence cleared"));
    }
  }
}
