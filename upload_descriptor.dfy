/**
 * lg_document_upload_agent.py: the constant descriptor of the document
 * upload workflow, the rules that make such a descriptor well formed, and
 * its agreement with the graph that graph.py builds by hand.  Python
 * dictionaries whose keys are names become maps; lists stay sequences.
 */
module UploadDescriptor {
  import opened Wrappers
  import UploadSteps

  datatype Metadata = Metadata(
    name: string, description: string, sourceTemplate: string, targetAgent: string, workflowType: string)

  datatype Configuration = Configuration(graphName: string, osUrl: string, defaultFileName: string, note: string)

  /** One entry of `additional_fields`; a `None` default is `None`. */
  datatype FieldDecl = FieldDecl(typeName: string, default: Option<string>, description: string)

  datatype StateModifications = StateModifications(additionalFields: map<string, FieldDecl>, note: string)

  datatype FunctionDecl = FunctionDecl(
    description: string, parameters: seq<string>, returnType: string, logic: string,
    setsFields: seq<string>, implementationNote: string)

  datatype ParamValue = IntParam(n: int) | TextParam(s: string)

  /** One node of a subgraph; `parameters` is absent on the `special` node. */
  datatype NodeDesc = NodeDesc(
    functionName: string, kind: string, description: string,
    parameters: Option<map<string, ParamValue>>, order: int)

  datatype SubgraphDesc = SubgraphDesc(name: string, kind: string, description: string, nodes: seq<NodeDesc>)

  datatype MainGraphFlow = MainGraphFlow(kind: string, subgraphOrder: seq<string>, note: string)

  datatype GenerationInstructions = GenerationInstructions(
    templateBase: string, modificationsNeeded: seq<string>, actionTypesAvailable: seq<string>,
    linearFlowImplementation: string)

  datatype Descriptor = Descriptor(
    metadata: Metadata,
    configuration: Configuration,
    stateModifications: StateModifications,
    additionalFunctions: map<string, FunctionDecl>,
    subgraphs: map<string, SubgraphDesc>,
    mainGraphFlow: MainGraphFlow,
    generationInstructions: GenerationInstructions)

  const METADATA: Metadata :=
    Metadata("lgDocumentUpload", "Document Upload Workflow - Test Case", "LG-blank", "LG-document-upload", "linear")

  const CONFIGURATION: Configuration :=
    Configuration("lgDocumentUpload", "https://fintor-ec2-test.ngrok.app", "test_document.pdf",
      "Simple workflow for testing graph.py functionality")

  const ADDITIONAL_FIELDS: map<string, FieldDecl> := map[
    "file_name" := FieldDecl("str", Some("test_document.pdf"), "Name of file to upload"),
    "upload_url" := FieldDecl("Union[str, None]", None, "URL where file was uploaded")]

  const ADDITIONAL_FUNCTIONS: map<string, FunctionDecl> := map[
    "validate_file" := FunctionDecl(
      "Validate file exists and is PDF format", ["state", "config"], "State",
      "Check if file exists and has .pdf extension", ["file_name", "current_node", "status"],
      "Return error if file invalid")]

  const UPLOAD_NODES: seq<NodeDesc> := [
    NodeDesc("validate_file", "special", "Validate input file", None, 1),
    NodeDesc("click_documents", "click", "Click Documents tab", Some(map["x" := IntParam(120), "y" := IntParam(50)]), 2),
    NodeDesc("wait_1s", "wait", "Wait for tab to load", Some(map["duration" := IntParam(1)]), 3),
    NodeDesc("click_upload", "click", "Click Upload button", Some(map["x" := IntParam(200), "y" := IntParam(150)]), 4),
    NodeDesc("input_filename", "input", "Enter filename", Some(map["text" := TextParam("state.file_name")]), 5),
    NodeDesc("click_submit", "click", "Click Submit button", Some(map["x" := IntParam(180), "y" := IntParam(220)]), 6),
    NodeDesc("wait_3s", "wait", "Wait for upload", Some(map["duration" := IntParam(3)]), 7)]

  const CONFIRMATION_NODES: seq<NodeDesc> := [
    NodeDesc("check_success", "click", "Check success message", Some(map["x" := IntParam(150), "y" := IntParam(300)]), 1),
    NodeDesc("click_close", "click", "Close upload dialog", Some(map["x" := IntParam(350), "y" := IntParam(50)]), 2)]

  const SUBGRAPHS: map<string, SubgraphDesc> := map[
    "upload_workflow" := SubgraphDesc("upload_workflow", "linear", "Basic document upload sequence", UPLOAD_NODES),
    "confirmation_workflow" := SubgraphDesc("confirmation_workflow", "linear", "Confirm upload success", CONFIRMATION_NODES)]

  const SUBGRAPH_ORDER: seq<string> := ["upload_workflow", "confirmation_workflow"]

  const ACTION_TYPES: seq<string> := [
    "click - uses click_action function",
    "wait - uses wait_action function",
    "input - uses input_action function",
    "special - custom function implementation"]

  const GENERATION_INSTRUCTIONS: GenerationInstructions :=
    GenerationInstructions(
      "LG-blank/src/agent/graph.py",
      ["Add validate_file function",
       "Update State model with file_name field",
       "Update OS_URL if different from template",
       "Create node functions for upload workflow",
       "Create node functions for confirmation workflow",
       "Update graph name to 'lgDocumentUpload'"],
      ACTION_TYPES,
      "Each node connects to next in sequence within subgraph")

  /** `generate_document_upload_config`: the descriptor, field for field. */
  function GenerateDocumentUploadConfig(): Descriptor {
    Descriptor(
      METADATA,
      CONFIGURATION,
      StateModifications(ADDITIONAL_FIELDS, "Basic state tracking for document upload"),
      ADDITIONAL_FUNCTIONS,
      SUBGRAPHS,
      MainGraphFlow("linear", SUBGRAPH_ORDER, "Simple linear flow: upload then confirm"),
      GENERATION_INSTRUCTIONS)
  }

  // ----- well-formedness -----

  /** The keys graph.py's `State` already has. */
  const BUILTIN_FIELDS: set<string> := {"user_input", "current_node", "status"}

  /** An `action_types_available` entry names `kind` when it reads "kind - ...". */
  predicate Names(entry: string, kind: string) {
    kind + " - " <= entry
  }

  /** A node type is available when some `action_types_available` entry names it. */
  predicate KindAvailable(types: seq<string>, kind: string) {
    exists i :: 0 <= i < |types| && Names(types[i], kind)
  }

  /** The node orders of a subgraph are 1, 2, ..., n in list order. */
  predicate OrdersContiguous(nodes: seq<NodeDesc>) {
    forall i :: 0 <= i < |nodes| ==> nodes[i].order == i + 1
  }

  /** Every node's type is available, and every `special` node's function is declared. */
  predicate NodesDeclared(nodes: seq<NodeDesc>, types: seq<string>, functions: map<string, FunctionDecl>) {
    forall i :: 0 <= i < |nodes| ==>
      KindAvailable(types, nodes[i].kind) && (nodes[i].kind == "special" ==> nodes[i].functionName in functions)
  }

  /** `subgraph_order` names every subgraph exactly once and nothing else. */
  predicate OrderListsEachSubgraphOnce(d: Descriptor) {
    var o := d.mainGraphFlow.subgraphOrder;
    && (forall i, j :: 0 <= i < j < |o| ==> o[i] != o[j])
    && (forall k :: k in d.subgraphs ==> k in o)
    && (forall i :: 0 <= i < |o| ==> o[i] in d.subgraphs)
  }

  predicate NamesMatchKeys(d: Descriptor) {
    forall k :: k in d.subgraphs ==> d.subgraphs[k].name == k
  }

  predicate NoBuiltinCollision(d: Descriptor) {
    forall f :: f in d.stateModifications.additionalFields ==> f !in BUILTIN_FIELDS
  }

  predicate WellFormed(d: Descriptor) {
    && (forall k :: k in d.subgraphs ==> OrdersContiguous(d.subgraphs[k].nodes))
    && (forall k :: k in d.subgraphs ==>
          NodesDeclared(d.subgraphs[k].nodes, d.generationInstructions.actionTypesAvailable, d.additionalFunctions))
    && OrderListsEachSubgraphOnce(d)
    && NamesMatchKeys(d)
    && NoBuiltinCollision(d)
  }

  // ----- from descriptor to graph -----

  function IntArg(params: Option<map<string, ParamValue>>, key: string): Option<int> {
    if params.Some? && key in params.value && params.value[key].IntParam? then Some(params.value[key].n) else None
  }

  function TextArg(params: Option<map<string, ParamValue>>, key: string): Option<string> {
    if params.Some? && key in params.value && params.value[key].TextParam? then Some(params.value[key].s) else None
  }

  /**
   * The graph.py node a descriptor node stands for: a `click`, `wait` or
   * `input` node calls that action with its parameters and order, and the
   * `special` node `validate_file` is `validate_file`.  Anything else has no
   * counterpart.
   */
  function ToAction(n: NodeDesc): (a: Option<UploadSteps.Action>)
    ensures a.Some? && !a.value.Validate? ==> UploadSteps.OrderOf(a.value) == n.order
    ensures a == Some(UploadSteps.Validate) <==> n.kind == "special" && n.functionName == "validate_file"
  {
    if n.kind == "special" then
      if n.functionName == "validate_file" then Some(UploadSteps.Validate) else None
    else if n.kind == "click" then
      var x, y := IntArg(n.parameters, "x"), IntArg(n.parameters, "y");
      if x.Some? && y.Some? then Some(UploadSteps.Click(x.value, y.value, n.order)) else None
    else if n.kind == "wait" then
      var t := IntArg(n.parameters, "duration");
      if t.Some? then Some(UploadSteps.Wait(t.value, n.order)) else None
    else if n.kind == "input" then
      var t := TextArg(n.parameters, "text");
      if t.Some? then Some(UploadSteps.Input(t.value, n.order)) else None
    else None
  }

  /** The chain a subgraph's node list stands for, when every node has a counterpart; list order is edge order. */
  function ToChain(nodes: seq<NodeDesc>): (w: Option<seq<UploadSteps.Node>>)
    ensures w.Some? <==> forall i :: 0 <= i < |nodes| ==> ToAction(nodes[i]).Some?
    ensures w.Some? ==> |w.value| == |nodes| && forall i :: 0 <= i < |nodes| ==>
      w.value[i].name == nodes[i].functionName && Some(w.value[i].action) == ToAction(nodes[i])
  {
    if forall i :: 0 <= i < |nodes| ==> ToAction(nodes[i]).Some? then
      Some(seq(|nodes|, i requires 0 <= i < |nodes| => UploadSteps.Node(nodes[i].functionName, ToAction(nodes[i]).value)))
    else None
  }

  /** The stages `subgraph_order` lists, in that order, when each names a subgraph that compiles. */
  function ToStages(d: Descriptor): (s: Option<seq<UploadSteps.Stage>>)
    ensures s.Some? <==> forall i :: 0 <= i < |d.mainGraphFlow.subgraphOrder| ==>
      d.mainGraphFlow.subgraphOrder[i] in d.subgraphs &&
      ToChain(d.subgraphs[d.mainGraphFlow.subgraphOrder[i]].nodes).Some?
    ensures s.Some? ==> |s.value| == |d.mainGraphFlow.subgraphOrder|
    ensures s.Some? ==> forall i :: 0 <= i < |s.value| ==>
      var name := d.mainGraphFlow.subgraphOrder[i];
      name in d.subgraphs && ToChain(d.subgraphs[name].nodes).Some? &&
      s.value[i] == UploadSteps.Subgraph(name, ToChain(d.subgraphs[name].nodes).value)
  {
    var o := d.mainGraphFlow.subgraphOrder;
    if forall i :: 0 <= i < |o| ==> o[i] in d.subgraphs && ToChain(d.subgraphs[o[i]].nodes).Some? then
      Some(seq(|o|, i requires 0 <= i < |o| && o[i] in d.subgraphs && ToChain(d.subgraphs[o[i]].nodes).Some? =>
        UploadSteps.Subgraph(o[i], ToChain(d.subgraphs[o[i]].nodes).value)))
    else None
  }

  /** The main graph a descriptor describes: its subgraphs in `subgraph_order`, then `finalize_state`. */
  function ToMainGraph(d: Descriptor): (g: Option<seq<UploadSteps.Stage>>)
    ensures g.Some? <==> forall i :: 0 <= i < |d.mainGraphFlow.subgraphOrder| ==>
      d.mainGraphFlow.subgraphOrder[i] in d.subgraphs &&
      ToChain(d.subgraphs[d.mainGraphFlow.subgraphOrder[i]].nodes).Some?
    ensures g.Some? ==> |g.value| == |d.mainGraphFlow.subgraphOrder| + 1 && g.value[|g.value| - 1].Finalize?
    ensures g.Some? ==> forall i :: 0 <= i < |d.mainGraphFlow.subgraphOrder| ==>
      var name := d.mainGraphFlow.subgraphOrder[i];
      name in d.subgraphs && ToChain(d.subgraphs[name].nodes).Some? &&
      g.value[i] == UploadSteps.Subgraph(name, ToChain(d.subgraphs[name].nodes).value)
  {
    var stages := ToStages(d);
    if stages.None? then None else Some(stages.value + [UploadSteps.Finalize])
  }

  /** Total number of nodes over the subgraphs `order` lists. */
  function NodeCount(d: Descriptor, order: seq<string>): nat
    decreases |order|
  {
    if order == [] then 0
    else (if order[0] in d.subgraphs then |d.subgraphs[order[0]].nodes| else 0) + NodeCount(d, order[1..])
  }

  // ----- properties -----

  /**
   * A chain compiled from contiguously numbered nodes has graph.py's cursor
   * values 1..n exactly when `validate_file`, which always writes 1, occurs
   * only first.
   */
  lemma {:induction false} CompiledOrdersContiguous(nodes: seq<NodeDesc>)
    requires OrdersContiguous(nodes)
    requires ToChain(nodes).Some?
    ensures UploadSteps.OrdersAreContiguous(ToChain(nodes).value) <==>
      forall i :: 0 < i < |nodes| ==> ToAction(nodes[i]) != Some(UploadSteps.Validate)
  {
    var w := ToChain(nodes).value;
    forall i | 0 <= i < |w| && !w[i].action.Validate? ensures UploadSteps.OrderOf(w[i].action) == i + 1 {
      assert Some(w[i].action) == ToAction(nodes[i]);
    }
    if !UploadSteps.OrdersAreContiguous(w) {
      var i :| 0 <= i < |w| && UploadSteps.OrderOf(w[i].action) != i + 1;
      assert i > 0 && w[i].action.Validate?;
      assert ToAction(nodes[i]) == Some(w[i].action);
    }
  }

  /** The four node types graph.py's wrappers use. */
  predicate KnownKind(kind: string) {
    kind == "click" || kind == "wait" || kind == "input" || kind == "special"
  }

  lemma {:induction false} ActionTypesNamed()
    ensures forall kind :: KnownKind(kind) ==> KindAvailable(ACTION_TYPES, kind)
  {
    assert Names(ACTION_TYPES[0], "click");
    assert Names(ACTION_TYPES[1], "wait");
    assert Names(ACTION_TYPES[2], "input");
    assert Names(ACTION_TYPES[3], "special");
  }

  lemma {:induction false} UploadNodesDeclared()
    ensures OrdersContiguous(UPLOAD_NODES)
    ensures NodesDeclared(UPLOAD_NODES, ACTION_TYPES, ADDITIONAL_FUNCTIONS)
  {
    assert forall i :: 0 <= i < |UPLOAD_NODES| ==> KnownKind(UPLOAD_NODES[i].kind);
    assert forall i :: 0 <= i < |UPLOAD_NODES| && UPLOAD_NODES[i].kind == "special" ==> i == 0;
    ActionTypesNamed();
  }

  lemma {:induction false} ConfirmationNodesDeclared()
    ensures OrdersContiguous(CONFIRMATION_NODES)
    ensures NodesDeclared(CONFIRMATION_NODES, ACTION_TYPES, ADDITIONAL_FUNCTIONS)
  {
    assert forall i :: 0 <= i < |CONFIRMATION_NODES| ==> CONFIRMATION_NODES[i].kind == "click";
    ActionTypesNamed();
  }

  /** Each subgraph's orders are contiguous and its nodes declared. */
  lemma {:induction false} SubgraphsDeclared()
    ensures forall k :: k in SUBGRAPHS ==> OrdersContiguous(SUBGRAPHS[k].nodes)
    ensures forall k :: k in SUBGRAPHS ==> NodesDeclared(SUBGRAPHS[k].nodes, ACTION_TYPES, ADDITIONAL_FUNCTIONS)
    ensures forall k :: k in SUBGRAPHS ==> SUBGRAPHS[k].name == k
  {
    UploadNodesDeclared();
    ConfirmationNodesDeclared();
  }

  /** `subgraph_order` lists the two subgraph keys once each. */
  lemma {:induction false} SubgraphOrderExact()
    ensures forall i, j :: 0 <= i < j < |SUBGRAPH_ORDER| ==> SUBGRAPH_ORDER[i] != SUBGRAPH_ORDER[j]
    ensures forall k :: k in SUBGRAPHS ==> k in SUBGRAPH_ORDER
    ensures forall i :: 0 <= i < |SUBGRAPH_ORDER| ==> SUBGRAPH_ORDER[i] in SUBGRAPHS
  {
    assert SUBGRAPH_ORDER[0] == "upload_workflow" && SUBGRAPH_ORDER[1] == "confirmation_workflow";
  }

  /** The descriptor satisfies every well-formedness rule. */
  lemma {:induction false} ConfigIsWellFormed()
    ensures WellFormed(GenerateDocumentUploadConfig())
  {
    SubgraphsDeclared();
    SubgraphOrderExact();
  }

  /**
   * The descriptor's constants are graph.py's: OS URL and default file name;
   * the declared `file_name` field defaults to that same name.
   */
  lemma {:induction false} ConfigMatchesConstants()
    ensures var d := GenerateDocumentUploadConfig();
      && d.configuration.osUrl == UploadSteps.OS_URL
      && d.configuration.defaultFileName == UploadSteps.DEFAULT_FILE_NAME
      && "file_name" in d.stateModifications.additionalFields
      && d.stateModifications.additionalFields["file_name"].default == Some(d.configuration.defaultFileName)
      && d.configuration.graphName == d.metadata.name
  {
  }

  /** Each upload node stands for the action, with the arguments, that graph.py's wrapper of the same name passes. */
  lemma {:induction false} UploadActionsMatch()
    ensures forall i :: 0 <= i < 7 ==>
      ToAction(UPLOAD_NODES[i]) == Some(UploadSteps.CreateUploadWorkflow()[i].action) &&
      UPLOAD_NODES[i].functionName == UploadSteps.CreateUploadWorkflow()[i].name
  {
    var w := UploadSteps.CreateUploadWorkflow();
    assert ToAction(UPLOAD_NODES[0]) == Some(w[0].action);
    assert ToAction(UPLOAD_NODES[1]) == Some(w[1].action);
    assert ToAction(UPLOAD_NODES[2]) == Some(w[2].action);
    assert ToAction(UPLOAD_NODES[3]) == Some(w[3].action);
    assert ToAction(UPLOAD_NODES[4]) == Some(w[4].action);
    assert ToAction(UPLOAD_NODES[5]) == Some(w[5].action);
    assert ToAction(UPLOAD_NODES[6]) == Some(w[6].action);
  }

  lemma {:induction false} UploadChainMatches()
    ensures ToChain(UPLOAD_NODES) == Some(UploadSteps.CreateUploadWorkflow())
  {
    var w := UploadSteps.CreateUploadWorkflow();
    UploadActionsMatch();
    assert |UPLOAD_NODES| == 7;
    assert ToChain(UPLOAD_NODES).Some?;
    assert ToChain(UPLOAD_NODES).value == w;
  }

  lemma {:induction false} ConfirmationChainMatches()
    ensures ToChain(CONFIRMATION_NODES) == Some(UploadSteps.CreateConfirmationWorkflow())
  {
    var w := UploadSteps.CreateConfirmationWorkflow();
    assert ToAction(CONFIRMATION_NODES[0]) == Some(w[0].action);
    assert ToAction(CONFIRMATION_NODES[1]) == Some(w[1].action);
    assert ToChain(CONFIRMATION_NODES).Some?;
    assert ToChain(CONFIRMATION_NODES).value == w;
  }

  lemma {:induction false} ConfigStagesMatch()
    ensures ToStages(GenerateDocumentUploadConfig()) ==
      Some([UploadSteps.Subgraph("upload_workflow", UploadSteps.CreateUploadWorkflow()),
            UploadSteps.Subgraph("confirmation_workflow", UploadSteps.CreateConfirmationWorkflow())])
  {
    UploadChainMatches();
    ConfirmationChainMatches();
    var d := GenerateDocumentUploadConfig();
    var o := SUBGRAPH_ORDER;
    assert d.mainGraphFlow.subgraphOrder == o && d.subgraphs == SUBGRAPHS;
    assert o[0] == "upload_workflow" && SUBGRAPHS[o[0]].nodes == UPLOAD_NODES;
    assert o[1] == "confirmation_workflow" && SUBGRAPHS[o[1]].nodes == CONFIRMATION_NODES;
    assert ToStages(d).Some?;
    var st := ToStages(d).value;
    assert st[0] == UploadSteps.Subgraph("upload_workflow", UploadSteps.CreateUploadWorkflow());
    assert st[1] == UploadSteps.Subgraph("confirmation_workflow", UploadSteps.CreateConfirmationWorkflow());
    assert |st| == 2 && st == [st[0], st[1]];
  }

  /** Compiled, the descriptor is exactly the graph graph.py builds, node for node and in the same order. */
  lemma {:induction false} ConfigMatchesGraph()
    ensures ToMainGraph(GenerateDocumentUploadConfig()) == Some(UploadSteps.CreateMainGraph())
  {
    ConfigStagesMatch();
    var g := UploadSteps.CreateMainGraph();
    assert g == [g[0], g[1]] + [UploadSteps.Finalize];
  }

  /** The main graph runs 7 + 2 = 9 nodes, one per node graph.py's chains add. */
  lemma {:induction false} ConfigNodeCount()
    ensures var d := GenerateDocumentUploadConfig();
      NodeCount(d, d.mainGraphFlow.subgraphOrder) == 9 ==
        |UploadSteps.CreateUploadWorkflow()| + |UploadSteps.CreateConfirmationWorkflow()|
  {
    var d := GenerateDocumentUploadConfig();
    var o := SUBGRAPH_ORDER;
    assert o[1..][1..] == [];
    assert NodeCount(d, o[1..]) == |CONFIRMATION_NODES| + NodeCount(d, o[1..][1..]);
  }
}
