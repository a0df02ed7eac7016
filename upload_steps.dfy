/**
 * The document-upload graph of graph.py, on values.
 *
 * The record threaded through the graph has five keys, each of which may be
 * absent.  Every node is a function from the record before it ran to the
 * record after it (or to the exception it raised).  A workflow is the list of
 * its nodes, run in list order; the main graph runs the upload workflow, then
 * the confirmation workflow, then `finalize_state`.  The class in module
 * UploadGraph performs the same steps by updating fields in place and is
 * proved against these functions.
 */
module UploadSteps {
  import opened Wrappers

  const DEFAULT_FILE_NAME: string := "test_document.pdf"
  const OS_URL: string := "https://fintor-ec2-test.ngrok.app"

  const SUCCESS: string := "Success"
  const ERROR: string := "Error"
  const COMPLETED: string := "Completed"

  /** The literal an input node uses to mean "type the current file name". */
  const FILE_NAME_REF: string := "state.file_name"

  /** What `state["current_node"]` raises when the key is absent. */
  const MISSING_CURRENT_NODE: string := "KeyError: 'current_node'"

  /** `user_input`: None, a text, or a dictionary. */
  datatype UserInput = NoInput | TextInput(text: string) | DictInput(entries: map<string, string>)

  /** `upload_url`: None or a text. */
  datatype UploadUrl = NoUrl | UrlText(url: string)

  /** The state dictionary; `None` stands for a key that is absent. */
  datatype Record = Record(
    userInput: Option<UserInput>,
    currentNode: Option<int>,
    status: Option<string>,
    fileName: Option<string>,
    uploadUrl: Option<UploadUrl>)

  /** `name.endswith('.pdf')`. */
  predicate EndsWithPdf(name: string) {
    |name| >= 4 && name[|name| - 4..] == ".pdf"
  }

  /** The file name `validate_file` checks: the stored one, or the default. */
  function CandidateFile(r: Record): string {
    r.fileName.GetOr(DEFAULT_FILE_NAME)
  }

  /**
   * `validate_file`.  The cursor becomes 1 on every path; the status is
   * "Success" exactly when the candidate name ends in ".pdf" and the file
   * exists, and only then is the name stored.
   */
  function ValidateFile(r: Record, fileExists: string -> bool): (out: Record)
    ensures out.currentNode == Some(1)
    ensures out.status == Some(SUCCESS) <==> EndsWithPdf(CandidateFile(r)) && fileExists(CandidateFile(r))
    ensures out.status == Some(ERROR) <==> !(EndsWithPdf(CandidateFile(r)) && fileExists(CandidateFile(r)))
    ensures out.fileName == if out.status == Some(SUCCESS) then Some(CandidateFile(r)) else r.fileName
    ensures out.userInput == r.userInput && out.uploadUrl == r.uploadUrl
  {
    var name := CandidateFile(r);
    if !EndsWithPdf(name) then
      r.(status := Some(ERROR), currentNode := Some(1))
    else if !fileExists(name) then
      r.(status := Some(ERROR), currentNode := Some(1))
    else
      r.(fileName := Some(name), currentNode := Some(1), status := Some(SUCCESS))
  }

  /**
   * What `click_action`, `wait_action` and `input_action` share:
   * `state["current_node"] = kwargs.get("order", state["current_node"])`
   * followed by `state["status"] = "Success"`.  The default argument of `get`
   * is evaluated first, so an absent `current_node` raises even when an order
   * is passed.
   */
  function MarkVisited(r: Record, order: Option<int>): Result<Record> {
    if r.currentNode.None? then Raised(MISSING_CURRENT_NODE)
    else Ok(r.(currentNode := Some(order.GetOr(r.currentNode.value)), status := Some(SUCCESS)))
  }

  /** `click_action`; the coordinates are accepted and ignored, so they are not parameters here. */
  function ClickAction(r: Record, order: Option<int>): Result<Record> {
    MarkVisited(r, order)
  }

  /** `wait_action`; the duration is accepted and ignored. */
  function WaitAction(r: Record, order: Option<int>): Result<Record> {
    MarkVisited(r, order)
  }

  /** The text `input_action` resolves: the current file name (or its default) for the reference literal. */
  function ResolveText(r: Record, text: Option<string>): string {
    var t := text.GetOr("");
    if t == FILE_NAME_REF then r.fileName.GetOr(DEFAULT_FILE_NAME) else t
  }

  /** `input_action`: the text is resolved (see `ResolveText`) and then discarded, so only the cursor and status change. */
  function InputAction(r: Record, text: Option<string>, order: Option<int>): Result<Record> {
    MarkVisited(r, order)
  }

  /** What `input_action` does is the same whatever text it is given to type. */
  lemma InputIgnoresText(r: Record, text: Option<string>, other: Option<string>, order: Option<int>)
    ensures InputAction(r, text, order) == InputAction(r, other, order)
  {
  }

  /** `finalize_state`. */
  function FinalizeState(r: Record): Record {
    r.(status := Some(COMPLETED))
  }

  /** The three common node effects: the cursor takes the given order, the status becomes "Success", nothing else changes. */
  lemma ActionEffect(r: Record, text: Option<string>, order: Option<int>)
    ensures ClickAction(r, order).Raised? <==> r.currentNode.None?
    ensures WaitAction(r, order) == ClickAction(r, order)
    ensures InputAction(r, text, order) == ClickAction(r, order)
    ensures ClickAction(r, order).Raised? ==> ClickAction(r, order).exception == MISSING_CURRENT_NODE
    ensures ClickAction(r, order).Ok? ==>
      var out := ClickAction(r, order).value;
      && out.currentNode == Some(order.GetOr(r.currentNode.value))
      && out.status == Some(SUCCESS)
      && out.userInput == r.userInput
      && out.fileName == r.fileName
      && out.uploadUrl == r.uploadUrl
  {
  }

  /** A name that does not end in ".pdf" is an error whatever the existence oracle says, and the name is not stored. */
  lemma ValidateNonPdf(r: Record, fileExists: string -> bool, otherOracle: string -> bool)
    requires !EndsWithPdf(CandidateFile(r))
    ensures ValidateFile(r, fileExists) == ValidateFile(r, otherOracle)
    ensures ValidateFile(r, fileExists) == r.(status := Some(ERROR), currentNode := Some(1))
  {
  }

  /** For a ".pdf" name the oracle decides: a missing file is an error, an existing one is stored. */
  lemma ValidatePdf(r: Record, fileExists: string -> bool)
    requires EndsWithPdf(CandidateFile(r))
    ensures !fileExists(CandidateFile(r)) ==>
      ValidateFile(r, fileExists) == r.(status := Some(ERROR), currentNode := Some(1))
    ensures fileExists(CandidateFile(r)) ==>
      ValidateFile(r, fileExists) ==
        r.(fileName := Some(CandidateFile(r)), currentNode := Some(1), status := Some(SUCCESS))
  {
  }

  /** One node of a workflow; the numbers are the keyword arguments its wrapper passes. */
  datatype Action =
    | Validate
    | Click(x: int, y: int, order: int)
    | Wait(duration: int, order: int)
    | Input(text: string, order: int)

  /** A named node, as added with `add_node`. */
  datatype Node = Node(name: string, action: Action)

  /** The cursor value a node leaves behind (`validate_file` always writes 1). */
  function OrderOf(a: Action): int {
    match a
    case Validate => 1
    case Click(_, _, order) => order
    case Wait(_, order) => order
    case Input(_, order) => order
  }

  function RunNode(a: Action, r: Record, fileExists: string -> bool): Result<Record> {
    match a
    case Validate => Ok(ValidateFile(r, fileExists))
    case Click(_, _, order) => ClickAction(r, Some(order))
    case Wait(_, order) => WaitAction(r, Some(order))
    case Input(text, order) => InputAction(r, Some(text), Some(order))
  }

  /** Invoking a linear workflow: each node gets the record the previous one returned; an exception stops the run. */
  function RunChain(w: seq<Node>, r: Record, fileExists: string -> bool): Result<Record>
    decreases |w|
  {
    if w == [] then Ok(r)
    else
      match RunNode(w[0].action, r, fileExists)
      case Raised(e) => Raised(e)
      case Ok(next) => RunChain(w[1..], next, fileExists)
  }

  /** The node orders of a workflow are 1, 2, ..., n in list order. */
  predicate OrdersAreContiguous(w: seq<Node>) {
    forall i :: 0 <= i < |w| ==> OrderOf(w[i].action) == i + 1
  }

  /** `create_upload_workflow` with its seven node wrappers (`validate_file_node` through `wait_3s`). */
  function CreateUploadWorkflow(): (w: seq<Node>)
    ensures |w| == 7 && OrdersAreContiguous(w)
    ensures w[0].action == Validate
  {
    [ Node("validate_file", Validate),
      Node("click_documents", Click(120, 50, 2)),
      Node("wait_1s", Wait(1, 3)),
      Node("click_upload", Click(200, 150, 4)),
      Node("input_filename", Input(FILE_NAME_REF, 5)),
      Node("click_submit", Click(180, 220, 6)),
      Node("wait_3s", Wait(3, 7)) ]
  }

  /** `create_confirmation_workflow` with its two node wrappers. */
  function CreateConfirmationWorkflow(): (w: seq<Node>)
    ensures |w| == 2 && OrdersAreContiguous(w)
  {
    [ Node("check_success", Click(150, 300, 1)),
      Node("click_close", Click(350, 50, 2)) ]
  }

  /** One node of the main graph: a nested workflow run as a single node, or `finalize_state`. */
  datatype Stage = Subgraph(name: string, body: seq<Node>) | Finalize

  function RunStage(st: Stage, r: Record, fileExists: string -> bool): Result<Record> {
    match st
    case Subgraph(_, body) => RunChain(body, r, fileExists)
    case Finalize => Ok(FinalizeState(r))
  }

  function RunStages(stages: seq<Stage>, r: Record, fileExists: string -> bool): Result<Record>
    decreases |stages|
  {
    if stages == [] then Ok(r)
    else
      match RunStage(stages[0], r, fileExists)
      case Raised(e) => Raised(e)
      case Ok(next) => RunStages(stages[1..], next, fileExists)
  }

  /** `create_main_graph`, a fresh description on every call instead of the module-level compiled graph. */
  function CreateMainGraph(): (g: seq<Stage>)
    ensures |g| == 3 && g[2] == Finalize
    ensures g[0].Subgraph? && g[0].body == CreateUploadWorkflow()
    ensures g[1].Subgraph? && g[1].body == CreateConfirmationWorkflow()
  {
    [ Subgraph("upload_workflow", CreateUploadWorkflow()),
      Subgraph("confirmation_workflow", CreateConfirmationWorkflow()),
      Finalize ]
  }

  /** `lgDocumentUpload.invoke(state)`. */
  function InvokeMainGraph(r: Record, fileExists: string -> bool): Result<Record> {
    RunStages(CreateMainGraph(), r, fileExists)
  }

  // ----- properties of linear workflows -----

  /** Running `a + b` is running `a`, then running `b` on what `a` returned. */
  lemma {:induction false} ChainAppend(a: seq<Node>, b: seq<Node>, r: Record, fileExists: string -> bool)
    ensures RunChain(a + b, r, fileExists) ==
      match RunChain(a, r, fileExists)
      case Raised(e) => Raised(e)
      case Ok(mid) => RunChain(b, mid, fileExists)
    decreases |a|
  {
    if a == [] {
      assert a + b == b;
    } else {
      assert (a + b)[0] == a[0];
      assert (a + b)[1..] == a[1..] + b;
      match RunNode(a[0].action, r, fileExists)
      case Raised(e) =>
      case Ok(next) => ChainAppend(a[1..], b, next, fileExists);
    }
  }

  /**
   * A workflow raises exactly when `current_node` is absent on entry and the
   * first node is not `validate_file`; every node writes the cursor, so no
   * later node can raise.
   */
  lemma {:induction false} ChainRaisesIff(w: seq<Node>, r: Record, fileExists: string -> bool)
    ensures RunChain(w, r, fileExists).Raised? <==>
      (r.currentNode.None? && |w| > 0 && !w[0].action.Validate?)
    ensures RunChain(w, r, fileExists).Raised? ==>
      RunChain(w, r, fileExists).exception == MISSING_CURRENT_NODE
    decreases |w|
  {
    if w != [] {
      match RunNode(w[0].action, r, fileExists)
      case Raised(e) =>
      case Ok(next) =>
        assert next.currentNode.Some?;
        ChainRaisesIff(w[1..], next, fileExists);
    }
  }

  /**
   * No node of a workflow writes `user_input` or `upload_url`; `file_name`
   * changes only when it was absent, and then to the default name.
   */
  lemma {:induction false} ChainFrame(w: seq<Node>, r: Record, fileExists: string -> bool)
    ensures RunChain(w, r, fileExists).Ok? ==>
      var out := RunChain(w, r, fileExists).value;
      && out.userInput == r.userInput
      && out.uploadUrl == r.uploadUrl
      && (out.fileName == r.fileName || (r.fileName.None? && out.fileName == Some(DEFAULT_FILE_NAME)))
    decreases |w|
  {
    if w != [] {
      match RunNode(w[0].action, r, fileExists)
      case Raised(e) =>
      case Ok(next) =>
        assert next.fileName == r.fileName || (r.fileName.None? && next.fileName == Some(DEFAULT_FILE_NAME));
        ChainFrame(w[1..], next, fileExists);
    }
  }

  /**
   * The last node always decides the cursor, and, unless it is
   * `validate_file`, sets the status to "Success" whatever earlier nodes
   * reported.
   */
  lemma {:induction false} ChainLastWriterWins(w: seq<Node>, r: Record, fileExists: string -> bool)
    requires |w| > 0
    ensures RunChain(w, r, fileExists).Ok? ==>
      RunChain(w, r, fileExists).value.currentNode == Some(OrderOf(w[|w| - 1].action))
    ensures RunChain(w, r, fileExists).Ok? && !w[|w| - 1].action.Validate? ==>
      RunChain(w, r, fileExists).value.status == Some(SUCCESS)
    decreases |w|
  {
    match RunNode(w[0].action, r, fileExists)
    case Raised(e) =>
    case Ok(next) =>
      if |w| > 1 {
        ChainLastWriterWins(w[1..], next, fileExists);
        assert w[1..][|w| - 2] == w[|w| - 1];
      }
  }

  /** A workflow whose orders are 1..n leaves the cursor at n. */
  lemma CursorEqualsLength(w: seq<Node>, r: Record, fileExists: string -> bool)
    requires |w| > 0 && OrdersAreContiguous(w)
    requires RunChain(w, r, fileExists).Ok?
    ensures RunChain(w, r, fileExists).value.currentNode == Some(|w|)
  {
    ChainLastWriterWins(w, r, fileExists);
  }

  /**
   * The upload workflow never raises and ends with cursor 7 and status
   * "Success" whatever `validate_file` reported; everything else is as
   * `validate_file` left it.
   */
  lemma UploadOutcome(r: Record, fileExists: string -> bool)
    ensures RunChain(CreateUploadWorkflow(), r, fileExists) ==
      Ok(ValidateFile(r, fileExists).(currentNode := Some(7), status := Some(SUCCESS)))
  {
    var w := CreateUploadWorkflow();
    var v := ValidateFile(r, fileExists);
    ChainRaisesIff(w, r, fileExists);
    ChainLastWriterWins(w, r, fileExists);
    assert RunChain(w, r, fileExists) == RunChain(w[1..], v, fileExists);
    ChainFrame(w[1..], v, fileExists);
    ChainRaisesIff(w[1..], v, fileExists);
  }

  /**
   * The confirmation workflow raises when `current_node` is absent, and
   * otherwise ends with cursor 2 (its own last order) and status "Success".
   */
  lemma ConfirmationOutcome(r: Record, fileExists: string -> bool)
    ensures RunChain(CreateConfirmationWorkflow(), r, fileExists) ==
      if r.currentNode.None? then Raised(MISSING_CURRENT_NODE)
      else Ok(r.(currentNode := Some(2), status := Some(SUCCESS)))
  {
  }

  /**
   * The main graph never raises.  It ends with status "Completed" and cursor
   * 2: the cursor is one shared field, so the confirmation workflow's last
   * order overwrites the upload workflow's 7.  Only `validate_file` may have
   * written `file_name`; `user_input` and `upload_url` are as the caller gave them.
   */
  lemma MainGraphOutcome(r: Record, fileExists: string -> bool)
    ensures InvokeMainGraph(r, fileExists) ==
      Ok(ValidateFile(r, fileExists).(currentNode := Some(2), status := Some(COMPLETED)))
    ensures InvokeMainGraph(r, fileExists).Ok?
    ensures InvokeMainGraph(r, fileExists).value.status == Some(COMPLETED)
    ensures InvokeMainGraph(r, fileExists).value.currentNode == Some(2)
    ensures InvokeMainGraph(r, fileExists).value.uploadUrl == r.uploadUrl
    ensures InvokeMainGraph(r, fileExists).value.userInput == r.userInput
  {
    var g := CreateMainGraph();
    var afterUpload := ValidateFile(r, fileExists).(currentNode := Some(7), status := Some(SUCCESS));
    UploadOutcome(r, fileExists);
    ConfirmationOutcome(afterUpload, fileExists);
    assert RunStages(g, r, fileExists) == RunStages(g[1..], afterUpload, fileExists);
    var afterConfirm := afterUpload.(currentNode := Some(2), status := Some(SUCCESS));
    assert RunStages(g[1..], afterUpload, fileExists) == RunStages(g[2..], afterConfirm, fileExists);
  }

  /**
   * After any workflow that starts with `validate_file`, the reference text
   * "state.file_name" resolves to the name `validate_file` checked, whether
   * validation passed or failed.
   */
  lemma ResolvesCheckedName(w: seq<Node>, r: Record, fileExists: string -> bool)
    requires |w| > 0 && w[0].action == Validate
    ensures RunChain(w, r, fileExists).Ok?
    ensures ResolveText(RunChain(w, r, fileExists).value, Some(FILE_NAME_REF)) == CandidateFile(r)
  {
    ChainRaisesIff(w, r, fileExists);
    var v := ValidateFile(r, fileExists);
    assert RunChain(w, r, fileExists) == RunChain(w[1..], v, fileExists);
    ChainRaisesIff(w[1..], v, fileExists);
    ChainFrame(w[1..], v, fileExists);
  }

  /**
   * `input_filename` resolves "state.file_name" when it runs, against the
   * record the first four upload nodes left: the name it types is the one
   * `validate_file` checked.
   */
  lemma InputFilenameTypesCheckedName(r: Record, fileExists: string -> bool)
    ensures var mid := RunChain(CreateUploadWorkflow()[..4], r, fileExists);
      && mid.Ok?
      && CreateUploadWorkflow()[4].action == Input(FILE_NAME_REF, 5)
      && ResolveText(mid.value, Some(FILE_NAME_REF)) == CandidateFile(r)
  {
    ResolvesCheckedName(CreateUploadWorkflow()[..4], r, fileExists);
  }

  /** `finalize_state` reports completion whatever status came before it. */
  lemma FinalizeWins(r: Record)
    ensures FinalizeState(r).status == Some(COMPLETED)
    ensures FinalizeState(r).(status := r.status) == r
  {
  }
}
