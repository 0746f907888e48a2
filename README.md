# causal-flow, modelled in Dafny

causal-flow is a browser editor for discrete Bayesian networks. A user uploads a CSV table or
adds nodes by hand, then draws or learns the edges. The backend fits or builds the probability
tables. Clicking a state on the canvas sets it as evidence, and the canvas shows the resulting
distributions.

This project models the core of that system and proves what it promises:

- **`FlowStore`** (`flow_store.dfy`): the client-side graph store, as a class with one field per
  store field. It covers:
  - grid placement of imported and manual nodes;
  - edge ids, and the edge-list round trip;
  - node removal cascading to edges;
  - the evidence toggle;
  - projections for the backend.
- **`Sidebar`** (`sidebar.dfy`): the add-node form and the sidebar's handlers. The form parses a
  comma-separated state list and rejects empty names and fewer than two states. The handlers
  cover upload, duplicate-name check, auto-learn, the train pipeline and resize. A backend call
  appears as a returned request, and its outcome is a parameter.
- **`CustomNode`** (`custom_node.dfy`): a canvas node's derived view. It covers:
  - evidence and posterior flags;
  - bar widths and percentages;
  - which body the node shows;
  - the trained-only click.
- **`Engine`** (`bn_engine.dfy`): the backend's network engine. It covers:
  - the lifecycle of data, structure, fitted flag and inference engine;
  - the DAG check;
  - evidence-value matching;
  - the shape and normalisation of prior-built probability tables.
- **`Endpoints`** (`endpoints.dfy`): the HTTP handlers. It covers:
  - the manual-node registry, with its duplicate, state-count and prior-sum checks;
  - the pre-checks of the upload, learning, build and inference handlers;
  - the one-hot overwrite of evidence nodes.
- **`Data`** (`data_processor.dfy`): the CSV validator. A column with more than 15 distinct values
  is refused. The module also extracts the sorted state lists and provides the table getters.
- **`Text`** and **`Wrappers`**: JavaScript's trim, split and endsWith, Python's `str`/`int` on
  integers, and Option/Result.

The model abstracts foreign libraries as parameters:

- xyflow's `applyNodeChanges`, `applyEdgeChanges` and `addEdge` are function parameters.
- networkx's `simple_cycles` is a list of cycles. A precondition says it lists only cycles, and
  at least one when there is a cycle.
- pgmpy's estimation, variable elimination and marginals are function parameters. The marginal
  answers with a distribution or with the text of the exception it raised.
- pandas' `read_csv` is a parsed table or an error message.
- The structure learner is a function parameter.
- Probabilities are `real`.

Where the code and the system's design notes differ, the model follows the code:

- The store has no duplicate-name check. Only the sidebar checks names.
- No edge is refused for being a self-loop.
- Topology edits do not clear evidence or distributions.
- The prior-sum tolerance, 0.01, exists only in the backend's add-node handler.
- Inference responses carry no sequence token.
- In the CSV validator, the zero-column branch cannot be reached. A frame without columns is
  already empty, so the model has one check for both cases.

## Model

| member | source | states |
|---|---|---|
| FlowStore.CeilSqrt | frontend/src/hooks/useFlowStore.js:7 | `Math.ceil(Math.sqrt(n))` for a natural n: the least r with n <= r*r |
| FlowStore.GridSlot | frontend/src/hooks/useFlowStore.js:11-14 | slot i of a row width r lies at or right of (50, 50) and inside r columns of 200 |
| FlowStore.GridSlotsDistinct | frontend/src/hooks/useFlowStore.js:6-14 | two different indices never share a grid slot |
| FlowStore.GridSlotWithinSquare | frontend/src/hooks/useFlowStore.js:6-14 | with r = ceil(sqrt(n)), every slot of n nodes lies inside the r-by-r grid |
| FlowStore.ImportNodes | frontend/src/hooks/useFlowStore.js:86-96 | one node per column, in column order: id = label = column, states = meta_info entry or empty, not manual, no distribution, at its grid slot |
| FlowStore.ImportedPositionsDistinct | frontend/src/hooks/useFlowStore.js:6-21 | imported nodes never overlap |
| FlowStore.EdgeList | frontend/src/hooks/useFlowStore.js:131-136 | getEdgeList: the (source, target) of every edge, in order |
| FlowStore.EdgesFromLearned | frontend/src/hooks/useFlowStore.js:108-119 | each learned pair becomes an edge with id "source-target", and getEdgeList gives the learned list back |
| FlowStore.NodesWithout | frontend/src/hooks/useFlowStore.js:233 | keeps exactly the nodes whose id differs |
| FlowStore.EdgesAvoiding | frontend/src/hooks/useFlowStore.js:234 | keeps exactly the edges touching neither end |
| FlowStore.NodesWithoutAppend | frontend/src/hooks/useFlowStore.js:233 | the node filter keeps relative order: it distributes over concatenation |
| FlowStore.EdgesAvoidingAppend | frontend/src/hooks/useFlowStore.js:234 | the edge filter keeps relative order: it distributes over concatenation |
| FlowStore.NodesWithoutAbsent | frontend/src/hooks/useFlowStore.js:230-237 | removing an absent id leaves the nodes as they are |
| FlowStore.EdgesAvoidingUntouched | frontend/src/hooks/useFlowStore.js:234 | removing a node no edge touches leaves the edges as they are |
| FlowStore.NodesWithoutCount | frontend/src/hooks/useFlowStore.js:233 | exactly the nodes carrying the id are removed |
| FlowStore.Toggle | frontend/src/hooks/useFlowStore.js:248-260 | the entry is deleted when it already holds the state, set otherwise; other keys are untouched |
| FlowStore.ToggleTwice | frontend/src/hooks/useFlowStore.js:248-260 | toggling the same (node, state) twice restores the evidence |
| FlowStore.WithPrior | frontend/src/hooks/useFlowStore.js:193-199 | the nodes with the id get the prior; everything else is unchanged |
| FlowStore.WithDistributions | frontend/src/hooks/useFlowStore.js:270-276 | each node's distribution becomes its entry or none |
| FlowStore.WithDistributionsKeepsIds | frontend/src/hooks/useFlowStore.js:266-279 | updateDistributions keeps node ids, order and everything but the distribution |
| FlowStore.NodeDefinitions | frontend/src/hooks/useFlowStore.js:204-210 | one definition per node: name = id, its states and prior |
| FlowStore.HasManualNodes | frontend/src/hooks/useFlowStore.js:213-215 | holds iff some node is manual |
| FlowStore.ImportedNodesAreNotManual | frontend/src/hooks/useFlowStore.js:86-105 | a canvas imported from CSV has no manual node |
| FlowStore.Store.constructor | frontend/src/hooks/useFlowStore.js:24-44 | the initial state: empty, untrained, no messages, trigger 0 |
| FlowStore.Store.OnNodesChange | frontend/src/hooks/useFlowStore.js:53-57 | nodes become the helper's result; modelTrained and all else unchanged |
| FlowStore.Store.OnEdgesChange | frontend/src/hooks/useFlowStore.js:60-65 | edges become the helper's result and modelTrained false |
| FlowStore.Store.OnConnect | frontend/src/hooks/useFlowStore.js:68-83 | the edge "source-target" is added through addEdge and modelTrained false |
| FlowStore.Store.SetNodesFromCsv | frontend/src/hooks/useFlowStore.js:86-105 | nodes = imported columns, edges empty, metadata stored, error cleared, untrained; evidence untouched |
| FlowStore.Store.SetEdgesFromLearned | frontend/src/hooks/useFlowStore.js:108-125 | edges replaced by the learned ones, untrained, layout trigger + 1, and getEdgeList returns the learned list |
| FlowStore.Store.ClearEdges | frontend/src/hooks/useFlowStore.js:128 | no edges, untrained |
| FlowStore.Store.SetModelTrained | frontend/src/hooks/useFlowStore.js:139 | only the flag changes |
| FlowStore.Store.SetLoading | frontend/src/hooks/useFlowStore.js:142 | only isLoading changes |
| FlowStore.Store.SetError | frontend/src/hooks/useFlowStore.js:145-152 | error set, loading ended and success message cleared, also for null |
| FlowStore.Store.SetSuccess | frontend/src/hooks/useFlowStore.js:155-162 | success message set and error cleared |
| FlowStore.Store.AddManualNode | frontend/src/hooks/useFlowStore.js:165-190 | exactly one manual node appended at slot len with row width max(2, ceil(sqrt(len+1))); existing nodes untouched, no duplicate check, untrained |
| FlowStore.Store.UpdateNodePrior | frontend/src/hooks/useFlowStore.js:193-201 | the prior of the matching nodes changes and the model is untrained |
| FlowStore.Store.ClearCanvas | frontend/src/hooks/useFlowStore.js:218-227 | the initial state again, except isLoading and the layout trigger |
| FlowStore.Store.RemoveNode | frontend/src/hooks/useFlowStore.js:230-237 | nodes with the id and every edge touching it are removed, order kept, untrained |
| FlowStore.Store.ClearMessages | frontend/src/hooks/useFlowStore.js:240 | both messages cleared, nothing else |
| FlowStore.Store.TriggerAutoLayout | frontend/src/hooks/useFlowStore.js:243 | the trigger grows by exactly one |
| FlowStore.Store.SetEvidence | frontend/src/hooks/useFlowStore.js:248-260 | evidence toggled; modelTrained and all else unchanged |
| FlowStore.Store.ClearEvidence | frontend/src/hooks/useFlowStore.js:263 | only evidence and distributions are emptied |
| FlowStore.Store.UpdateDistributions | frontend/src/hooks/useFlowStore.js:266-279 | distributions stored and copied onto the nodes; modelTrained unchanged |
| CustomNode.EvidenceState | frontend/src/components/Canvas/CustomNode.jsx:11-12 | present iff the node is evidence, and then the node's entry |
| CustomNode.EvidenceOrPosterior | frontend/src/components/Canvas/CustomNode.jsx:11-17 | evidence and posterior exclude each other; with evidence every node is one of them, without none is |
| CustomNode.ClickFlipsActive | frontend/src/components/Canvas/CustomNode.jsx:63 | a click flips the clicked row's highlight and leaves no other row of the node highlighted |
| CustomNode.BarWidth | frontend/src/components/Canvas/CustomNode.jsx:27-36 | the width is positive, and at least 5 for a state with a probability |
| CustomNode.BarWidthAtMostFull | frontend/src/components/Canvas/CustomNode.jsx:27-36 | a probability of at most 1 never gives a bar wider than 100 |
| CustomNode.TotalUniformWidth | frontend/src/components/Canvas/CustomNode.jsx:32-34 | without a distribution, m bars of a k-state node take m * 100/k |
| CustomNode.UniformBarsFillTheRow | frontend/src/components/Canvas/CustomNode.jsx:32-34 | without a distribution the bars of a node add up to exactly 100 |
| CustomNode.Prob | frontend/src/components/Canvas/CustomNode.jsx:39-44 | none exactly when the state has no distribution entry |
| CustomNode.ProbMatchesBar | frontend/src/components/Canvas/CustomNode.jsx:27-44 | a printed percentage and its bar agree: the bar is max(5, percentage) |
| CustomNode.OneBody | frontend/src/components/Canvas/CustomNode.jsx:60-89 | state rows and state count exclude each other, and a node with states shows one |
| CustomNode.HandleStateClick | frontend/src/components/Canvas/CustomNode.jsx:20-24 | trained: the evidence is toggled; untrained: the store is unchanged |
| CustomNode.PrototypeNameCountsAsEvidence | frontend/src/components/Canvas/CustomNode.jsx:11-17 | as written, a node named "toString" is evidence with no evidence at all, and never a posterior |
| CustomNode.AsWrittenAgreesOffPrototype | frontend/src/components/Canvas/CustomNode.jsx:11-17 | for any other name the lookup as written and the own-entry test agree |
| Sidebar.Clean | frontend/src/components/Sidebar/Sidebar.jsx:109 | every kept piece is non-empty and trimmed, and there are no more of them than pieces |
| Sidebar.ParsedStatesValid | frontend/src/components/Sidebar/Sidebar.jsx:109 | whatever is typed, the parsed states are non-empty, trimmed and comma-free |
| Sidebar.ParseJoinRoundTrip | frontend/src/components/Sidebar/Sidebar.jsx:109 | parsing a valid list written with ", " gives the list back |
| Sidebar.DefaultStatesParse | frontend/src/components/Sidebar/Sidebar.jsx:93 | the form's default "True, False" parses to the two states True and False |
| Sidebar.Submit | frontend/src/components/Sidebar/Sidebar.jsx:103-119 | refused iff the trimmed name is empty or fewer than 2 states parse, with the name checked first; an accepted entry is the trimmed name with the parsed states |
| Sidebar.AcceptedNodeValid | frontend/src/components/Sidebar/Sidebar.jsx:105-113 | an accepted node has a non-empty trimmed name and at least two states, all non-empty, trimmed and comma-free |
| Sidebar.SubmitForm | frontend/src/components/Sidebar/Sidebar.jsx:103-119 | a refused entry keeps the inputs and shows the refusal; an accepted one hands the node over and leaves the empty form |
| Sidebar.SubmitFormOutcome | frontend/src/components/Sidebar/Sidebar.jsx:103-119 | the three outcomes of a submit: name required, too few states, or the node with the form reset |
| Sidebar.AddNodeForm.constructor | frontend/src/components/Sidebar/Sidebar.jsx:92-94 | the empty form: name '', states 'True, False', no error |
| Sidebar.AddNodeForm.HandleSubmit | frontend/src/components/Sidebar/Sidebar.jsx:103-119 | the form and the node handed over are those of Sidebar.SubmitForm on the form's contents |
| Sidebar.Clamp | frontend/src/components/Sidebar/Sidebar.jsx:197 | the width lies in [200, 400] and equals the pointer inside that range |
| Sidebar.Shown | frontend/src/components/Sidebar/Sidebar.jsx:232 | the thrown message when non-empty, else the fallback |
| Sidebar.DisplayNames | frontend/src/components/Sidebar/Sidebar.jsx:241 | each node's label, or its id when the label is empty |
| Sidebar.ManualNodeDisplayName | frontend/src/components/Sidebar/Sidebar.jsx:241 | a manually added node is listed under the name it was given |
| Sidebar.AppendFreshName | frontend/src/components/Sidebar/Sidebar.jsx:239-249 | adding under an unlisted name keeps listed names distinct |
| Sidebar.SpinnerNeverShowsAsWritten | frontend/src/components/Sidebar/Sidebar.jsx:224-225 | as written, the state after starting an upload never shows the spinner |
| Sidebar.UploadStartShowsSpinner | frontend/src/components/Sidebar/Sidebar.jsx:224-225 | in the other order the spinner shows with both messages cleared, and that is the only difference |
| Sidebar.SidebarPanel.constructor | frontend/src/components/Sidebar/Sidebar.jsx:159-165 | data step, nothing running, width 260, modal closed |
| Sidebar.SidebarPanel.ResizeStart | frontend/src/components/Sidebar/Sidebar.jsx:189-192 | a drag starts |
| Sidebar.SidebarPanel.ResizeMove | frontend/src/components/Sidebar/Sidebar.jsx:195-199 | the width follows the pointer, clamped, only during a drag; the width stays in range |
| Sidebar.SidebarPanel.ResizeEnd | frontend/src/components/Sidebar/Sidebar.jsx:201-203 | the drag ends |
| Sidebar.SidebarPanel.SelectStep | frontend/src/components/Sidebar/Sidebar.jsx:359-518 | the data step always opens, the structure step only with nodes, the inference step only when trained |
| Sidebar.SidebarPanel.OpenAddNode | frontend/src/components/Sidebar/Sidebar.jsx:428 | the modal opens |
| Sidebar.SidebarPanel.CloseAddNode | frontend/src/components/Sidebar/Sidebar.jsx:563-564 | the modal closes |
| Sidebar.SidebarPanel.HandleUpload | frontend/src/components/Sidebar/Sidebar.jsx:217-236 | no file: nothing; a non-.csv name: an error and no call; otherwise one upload call whose reply replaces the canvas and opens the structure step; loading is false at the end |
| Sidebar.SidebarPanel.HandleAddNode | frontend/src/components/Sidebar/Sidebar.jsx:239-249 | a listed name only sets the duplicate error; otherwise exactly one manual node is added, a success is shown and distinct names stay distinct |
| Sidebar.SidebarPanel.ApplySubmitted | frontend/src/components/Sidebar/Sidebar.jsx:239-249 | a refused submit changes neither panel nor store; an accepted one closes the modal and then acts as handleAddNode: for a listed name only the duplicate error, otherwise the appended manual node, the structure step and the success message |
| Sidebar.SidebarPanel.SubmitAddNode | frontend/src/components/Sidebar/Sidebar.jsx:562-566 | the form ends as SubmitForm leaves it; a refused entry keeps its inputs, shows its error line and changes neither panel nor store; an accepted one closes the modal and, for a listed name, sets the store error `Node "<name>" already exists`, otherwise appends the manual node, opens the structure step and reports it added |
| Sidebar.SidebarPanel.HandleAutoLearn | frontend/src/components/Sidebar/Sidebar.jsx:252-269 | without metadata: an error and no call; otherwise one "k2" call whose edges replace the canvas's, with "Learned N edges" |
| Sidebar.SidebarPanel.HandleTrain | frontend/src/components/Sidebar/Sidebar.jsx:272-301 | no edges: an error and no call; an invalid structure: its message and no learning call; trained only after a valid structure and a successful learning result |
| Sidebar.SidebarPanel.HandleClearEdges | frontend/src/components/Sidebar/Sidebar.jsx:304-307 | edges cleared, untrained, "Edges cleared" |
| Sidebar.SidebarPanel.ResetEvidence | frontend/src/components/Sidebar/Sidebar.jsx:535-538 | evidence and distributions emptied, "Evidence cleared" |
| Text.Trim | frontend/src/components/Sidebar/Sidebar.jsx:105 | the result has no white space at either end |
| Text.TrimOfPadded | frontend/src/components/Sidebar/Sidebar.jsx:109 | trimming removes exactly a white-space padding in front of a trimmed string |
| Text.Split | frontend/src/components/Sidebar/Sidebar.jsx:109 | at least one piece, none holds the separator, and joining them with it gives the input back |
| Text.SplitAfterPiece | frontend/src/components/Sidebar/Sidebar.jsx:109 | a separator-free piece before a separator is the first piece |
| Text.EndsWith | frontend/src/components/Sidebar/Sidebar.jsx:219 | holds iff some suffix of the string is the given one |
| Text.NatToString | frontend/src/components/Sidebar/Sidebar.jsx:263 | decimal digits without leading zeros |
| Text.ParseNatToString | backend/app/core/bn_engine.py:145 | reading the digits of n gives n |
| Text.IntToStringRoundTrip | backend/app/core/bn_engine.py:138-147 | int(str(i)) == i, so an integer state is found by either of the two matches |
| Data.LessIsStrictTotalOrder | backend/app/core/data_processor.py:66 | the order sorted() uses on a column is a strict total order |
| Data.InsertSorted | backend/app/core/data_processor.py:66 | insertion keeps a strictly sorted list and adds exactly the value |
| Data.SortDistinct | backend/app/core/data_processor.py:65-66 | strictly increasing, with exactly the values of the input |
| Data.Column | backend/app/core/data_processor.py:48 | one cell per row |
| Data.PresentValues | backend/app/core/data_processor.py:65 | dropna: exactly the present values |
| Data.InvalidPrefixMembers | backend/app/core/data_processor.py:46-50 | the reported names are exactly the columns with more than 15 distinct values |
| Data.InvalidColumnBoundary | backend/app/core/data_processor.py:47-50 | a column is reported iff it has at least 16 distinct values, so 15 passes |
| Data.ColumnStates | backend/app/core/data_processor.py:65-66 | one state per distinct present value |
| Data.MetaPrefixKeys | backend/app/core/data_processor.py:63-66 | one meta-info key per column |
| Data.MetaPrefixAt | backend/app/core/data_processor.py:63-66 | each column's entry is its states |
| Data.ColumnStatesSorted | backend/app/core/data_processor.py:65-66 | the states are the distinct present values in increasing order, made strings |
| Data.Head | backend/app/core/data_processor.py:78 | pandas head(n): a prefix of at most n rows, or all but the last -n |
| Data.DataProcessor.constructor | backend/app/core/data_processor.py:13-23 | content kept, no frame, empty meta info and invalid list |
| Data.DataProcessor.ValidateAndProcess | backend/app/core/data_processor.py:25-59 | parse failure, empty table and too-many-values each give (False, message), the last naming exactly the invalid columns joined by ", "; the invalid list is reset each call; meta info is filled only on success |
| Data.DataProcessor.ExtractMetaInfo | backend/app/core/data_processor.py:61-66 | every column's states are added to the meta info |
| Data.DataProcessor.Columns | backend/app/core/data_processor.py:68-70 | the columns in order |
| Data.DataProcessor.ColumnCount | backend/app/core/data_processor.py:85-87 | the number of columns |
| Data.DataProcessor.RowCount | backend/app/core/data_processor.py:81-83 | the number of rows |
| Data.DataProcessor.Preview | backend/app/core/data_processor.py:76-79 | exactly the rows `head(rows)` keeps (the first `rows`, or all but the last `-rows` for a negative count), each as a record of its row |
| Engine.ValidateDag | backend/app/core/bn_engine.py:41-63 | valid iff the graph has no cycle; (True, "") for no edges; otherwise "Cycle detected: " and the first cycle closed at its first node |
| Engine.ReportedPathIsClosedWalk | backend/app/core/bn_engine.py:58 | the reported path is a walk of the graph that ends where it starts |
| Engine.FromEdgesNoRepeats | backend/app/core/bn_engine.py:37 | the network of an edge list lists each node and edge once, with no tables |
| Engine.FromEdgesEdges | backend/app/core/bn_engine.py:37 | its edges are exactly the listed ones |
| Engine.FromEdgesNodes | backend/app/core/bn_engine.py:37 | its nodes are exactly the edges' endpoints |
| Engine.MissingNodes | backend/app/core/bn_engine.py:81-86 | exactly the model nodes that are not data columns |
| Engine.FirstStringMatch | backend/app/core/bn_engine.py:136-141 | the first state with that string form; none iff no state has it |
| Engine.FirstStringMatchAt | backend/app/core/bn_engine.py:136-141 | the first matching index decides the result |
| Engine.ConvertEvidence | backend/app/core/bn_engine.py:129-155 | fails with "Node not present in the Directed Graph" exactly when a non-empty network lacks an evidence key; otherwise keeps every key, leaves values as strings when the network is empty, and otherwise matches each value against its node's states |
| Engine.ConvertStateIsStateOrString | backend/app/core/bn_engine.py:133-152 | a converted value is a state or the original string, and the string only when no state has that form |
| Engine.ConvertStateFindsIntegers | backend/app/core/bn_engine.py:142-148 | an integer state is found from its digits when no state string matches |
| Engine.PriorValues | backend/app/core/bn_engine.py:254 | prior.get(s, 1/k) for each state |
| Engine.Scale | backend/app/core/bn_engine.py:257 | each value divided by the total |
| Engine.SumOfScale | backend/app/core/bn_engine.py:256-257 | the scaled values sum to the sum divided by the total |
| Engine.Uniform | backend/app/core/bn_engine.py:259 | k entries of 1/k |
| Engine.BaseVector | backend/app/core/bn_engine.py:283-288 | fails exactly on no states or a usable prior summing to 0; otherwise one entry per state |
| Engine.BaseVectorSumsToOne | backend/app/core/bn_engine.py:251-259 | a built base vector sums to 1; without a usable prior it is uniform |
| Engine.Table | backend/app/core/bn_engine.py:290-294 | k rows, each repeating its base entry once per parent combination |
| Engine.TableColumnsSumToOne | backend/app/core/bn_engine.py:290-294 | every column of a built table sums to 1 |
| Engine.StatesByNameKeys | backend/app/core/bn_engine.py:233-236 | states are known exactly for the defined names |
| Engine.Parents | backend/app/core/bn_engine.py:249 | exactly the sources of the edges into the node |
| Engine.ParentsKnownFromDefs | backend/app/core/bn_engine.py:271-274 | with edges inside the definitions, every parent's states are known |
| Engine.Cards | backend/app/core/bn_engine.py:269-274 | one cardinality per parent |
| Engine.AsValues | backend/app/core/bn_engine.py:265 | the state names as table states |
| Engine.NodeCpd | backend/app/core/bn_engine.py:243-305 | a node's table fails exactly when its base vector does |
| Engine.NodeCpdShape | backend/app/core/bn_engine.py:267-305 | k rows of product-of-parent-cardinalities identical columns, each column summing to 1; parents in edge order |
| Engine.CpdsPrefixStep | backend/app/core/bn_engine.py:243-307 | a definition whose table can be made adds exactly that table under its name |
| Engine.CpdsPrefixAt | backend/app/core/bn_engine.py:243-307 | each name's table is that of its last definition |
| Engine.FirstFailure | backend/app/core/bn_engine.py:243-307 | the index of the first definition whose base table cannot be made, every earlier one made, or the count when all are made |
| Engine.FirstFailureIs | backend/app/core/bn_engine.py:243-307 | where the buildable definitions stop is the first failure, and it is a definition exactly when some definition's table cannot be made |
| Engine.DefaultTargets | backend/app/core/bn_engine.py:174-175 | exactly the model nodes without evidence |
| Engine.BNEngine.constructor | backend/app/core/bn_engine.py:15-21 | nothing set, not fitted, no manual nodes |
| Engine.BNEngine.SetData | backend/app/core/bn_engine.py:23-28 | data stored; model, fitted flag and inference engine cleared |
| Engine.BNEngine.SetStructure | backend/app/core/bn_engine.py:30-39 | for an acyclic edge list (pgmpy's constructor refuses a cycle, and the only caller checks first), the edges' network, never fitted, no inference engine |
| Engine.BNEngine.Fit | backend/app/core/bn_engine.py:65-103 | no structure, no data, missing nodes each fail in that order and change nothing fitted; success fits and reports node and edge counts |
| Engine.BNEngine.GetCpd | backend/app/core/bn_engine.py:105-119 | none before fitting; for a name outside the network the pgmpy error; for a node with a table that table, for one without none |
| Engine.BNEngine.ConvertEvidenceTypes | backend/app/core/bn_engine.py:121-155 | the loop yields exactly ConvertEvidence, the error included |
| Engine.BNEngine.ConvertOne | backend/app/core/bn_engine.py:131-154 | the loop over the states yields the entry's conversion |
| Engine.BNEngine.Query | backend/app/core/bn_engine.py:157-194 | not fitted gives the not-fitted error; an evidence key outside the network gives the pgmpy error; otherwise covers exactly the targets (default: nodes without evidence), evidence targets get {state: 1.0}, others the posterior given the converted evidence |
| Engine.BNEngine.AddCpds | backend/app/core/bn_engine.py:243-307 | fails iff some definition's table cannot be made, with a division by zero; the network then holds the tables of the definitions before the first failing one; on success the tables of all definitions; nodes and edges unchanged |
| Engine.BNEngine.BuildFromPriors | backend/app/core/bn_engine.py:208-319 | definitions stored, network of their names and the edges, every parent known, tables of the definitions before the first failing one; fails iff some base vector fails, then leaving fitted flag and inference engine alone; on success fitted with the tables of every definition |
| Endpoints.Pairs | backend/app/api/endpoints.py:87 | one (source, target) per requested edge |
| Endpoints.UploadCsv | backend/app/api/endpoints.py:25-74 | non-.csv name, undecodable content and rejected table each give 400 and leave the engine unchanged; success stores the data and returns columns, meta info, the first min(10, rows) rows as records, and counts |
| Endpoints.ValidateStructure | backend/app/api/endpoints.py:85-93 | valid iff acyclic, with an empty message when valid |
| Endpoints.LearnStructure | backend/app/api/endpoints.py:102-125 | 400 without data; 500 when learning fails; otherwise the learned edges and their count |
| Endpoints.LearnParameters | backend/app/api/endpoints.py:134-173 | 400 without data or for cyclic edges, the engine untouched; missing nodes give 400 after the structure is set, unfitted and without inference engine; success holds the structure's network with the estimator's tables, fitted, with inference on that model, and returns counts and estimator |
| Endpoints.MapSumRemove | backend/app/api/endpoints.py:212 | a dictionary's sum is any entry plus the sum of the rest |
| Endpoints.SumValues | backend/app/api/endpoints.py:212 | the loop computes the sum of the prior's values |
| Endpoints.Registry.constructor | backend/app/api/endpoints.py:185 | the registry starts empty |
| Endpoints.Registry.Nodes | backend/app/api/endpoints.py:292-299 | one entry per registered name, in registration order, with its states and prior |
| Endpoints.Registry.AddNode | backend/app/api/endpoints.py:194-230 | duplicate, then fewer than 2 states, then a prior off 1 by more than 0.01 are refused, leaving the registry unchanged; success stores {states, prior} under the name |
| Endpoints.FirstUndefinedEdge | backend/app/api/endpoints.py:258-265 | the index of the first edge naming an undefined node, every earlier edge defined, or the count when none is |
| Endpoints.FirstUndefinedEdgeWithin | backend/app/api/endpoints.py:258-265 | no edge is undefined exactly when every edge stays within the definitions |
| Endpoints.BuildFromPriors | backend/app/api/endpoints.py:239-284 | no nodes and cyclic edges are refused; the first edge naming an undefined node is reported with 400; all before building, the engine untouched; once built, the engine holds the definitions, their network and the tables before the first failing one; a failing table gives 500 "构建失败: " with the division-by-zero text and leaves fitted flag and inference alone; success fits with inference on the model |
| Endpoints.StateStrings | backend/app/api/endpoints.py:363 | str of each state |
| Endpoints.OneHot | backend/app/api/endpoints.py:363 | keys are the state strings; 1.0 on the observed one, 0.0 elsewhere |
| Endpoints.Zip | backend/app/api/endpoints.py:335-337 | keys are the states that have a value |
| Endpoints.Infer | backend/app/api/endpoints.py:313-375 | 400 iff not fitted; an evidence key outside a non-empty network gives 500 "推理失败: " with the pgmpy message; without evidence every node gets its prior distribution (a root's own table, else the engine's marginal), and the first node in model order whose marginal fails gives 500 "推理失败: " with the exception's text; with evidence the query result, evidence nodes of the model overwritten one-hot |

## Left out

- The three-second timers that clear `error` and `successMessage` are left out. They are timer-driven.
- The asynchronous interleaving of the sidebar handlers is left out. Each handler is modelled as
  one uninterrupted run, with each remote outcome given as a parameter.
- The canvas editor's effects that request inference and apply responses are not part of this
  model. Neither are its gates on connecting and on inference.
- The HTTP client is not part of this model. An error reaching a handler is its message, and an
  empty message falls back to the handler's own text.
- The upload panel component, the structure learner's search, the application shells and the
  request schemas are not part of this model. Only the schemas' defaults "k2" and "mle" appear.
- Floating point is left out:
  - probabilities are `real`;
  - `toFixed(1)` formatting is not modelled;
  - float rounding in prior normalisation is not modelled;
  - `float(...)` conversions of posteriors are not modelled.
- Engine.BNEngine.BuildFromPriors: pgmpy's `check_model` is not modelled. What it asserts about
  the built tables is proved as Engine.TableColumnsSumToOne.
- Engine.ValidateDag: the "Graph validation error" branch for an exception inside networkx is
  not modelled. `simple_cycles` is taken not to fail.
- Engine.BNEngine.Query: the `{"error": ...}` entry that a failing per-target query produces is
  not modelled. The posterior oracle always answers.
- Engine.BNEngine.Fit: the missing nodes in "Nodes not found in data" are listed in node order.
  Python prints a set, whose order is unspecified.
- Text.ParseInt: Python's `int()` also accepts surrounding white space and digit-group
  underscores. Only an optional sign and ASCII digits are modelled.
- Data: float CSV columns are left out. Cells are integers or strings. A column with a decimal
  number, or an integer column with a missing cell, is read by pandas as floats; such tables are
  outside Data.WellFormed, even when they have at most 15 distinct values and pass the validator.
- Endpoints.LearnParameters: the 500 "参数学习失败: " answer for a non-ValueError exception inside
  fitting is not modelled. The estimator oracle always answers.
- Edge styling (colour, marker, animation) and node `type` are left out. They are pure
  presentation.
- Only `CustomNode.jsx:11` is modelled as written with inherited Object.prototype members. Other
  plain-object lookups by user-chosen names are modelled as own-key lookups:
  - `meta_info[node.id]` in the store;
  - `distributions[node.id]` in the store;
  - `distribution[state]` in the node component;
  - assignments to a key named `__proto__`.
- The node and edge getters of the engine are not modelled. No handler in the core uses them.

## Findings

| source | as written | input that shows it | evidently intended | confidence | as-written member | corrected member |
|---|---|---|---|---|---|---|
| frontend/src/components/Canvas/CustomNode.jsx:11 | `evidence[id] !== undefined` also finds members every object inherits | a node named `toString` with no evidence set is drawn as an evidence node, and never as a posterior once another node is observed | a node is evidence only when the evidence map has its own entry for it | not executed | CustomNode.PrototypeNameCountsAsEvidence | CustomNode.EvidenceOrPosterior |
| frontend/src/components/Sidebar/Sidebar.jsx:224-225 | `setLoading(true)` is followed by `setError(null)`, and setError also sets `isLoading` to false | any upload of a `.csv` file: the Processing spinner at Sidebar.jsx:374 never appears while the upload runs | clear the error first, then switch loading on | not executed | Sidebar.SpinnerNeverShowsAsWritten | Sidebar.UploadStartShowsSpinner |

The model's `IsEvidence` and `HandleUpload` follow the corrected behaviour. For the upload, the
final state is the same either way. The only difference is the loading flag while the request is
pending.
