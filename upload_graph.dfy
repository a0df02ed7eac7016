/**
 * graph.py as it runs: one state object whose fields the nodes overwrite in
 * place.  Each node method's frame names exactly the fields that node writes,
 * and its postcondition ties the new state to the matching function of
 * module UploadSteps.  The workflows are the node calls in the order of
 * their `add_edge` chains; an exception stops the workflow and is reported in
 * `raised`.
 */
module UploadGraph {
  import opened Wrappers
  import UploadSteps

  /** The result a method reports: the returned state, or the exception it raised. */
  predicate Finished(expected: Result<UploadSteps.Record>, raised: Option<string>, now: UploadSteps.Record) {
    match expected
    case Ok(r) => raised.None? && now == r
    case Raised(e) => raised == Some(e)
  }

  /** The `State` dictionary; an absent key is `None`. */
  class State {
    var userInput: Option<UploadSteps.UserInput>
    var currentNode: Option<int>
    var status: Option<string>
    var fileName: Option<string>
    var uploadUrl: Option<UploadSteps.UploadUrl>

    function Value(): UploadSteps.Record
      reads this
    {
      UploadSteps.Record(userInput, currentNode, status, fileName, uploadUrl)
    }

    constructor (init: UploadSteps.Record)
      ensures Value() == init
    {
      userInput := init.userInput;
      currentNode := init.currentNode;
      status := init.status;
      fileName := init.fileName;
      uploadUrl := init.uploadUrl;
    }

    /** `validate_file`: writes the cursor and the status, and the file name on success. */
    method ValidateFile(fileExists: string -> bool)
      modifies this`fileName, this`currentNode, this`status
      ensures Value() == UploadSteps.ValidateFile(old(Value()), fileExists)
    {
      var name := fileName.GetOr(UploadSteps.DEFAULT_FILE_NAME);
      if !UploadSteps.EndsWithPdf(name) {
        status := Some(UploadSteps.ERROR);
        currentNode := Some(1);
        return;
      }
      if !fileExists(name) {
        status := Some(UploadSteps.ERROR);
        currentNode := Some(1);
        return;
      }
      fileName := Some(name);
      currentNode := Some(1);
      status := Some(UploadSteps.SUCCESS);
    }

    /** The cursor and status update shared by the click, wait and input actions. */
    method MarkVisited(order: Option<int>) returns (raised: Option<string>)
      modifies this`currentNode, this`status
      ensures Finished(UploadSteps.MarkVisited(old(Value()), order), raised, Value())
      ensures raised.Some? ==> Value() == old(Value())
    {
      if currentNode.None? {
        return Some(UploadSteps.MISSING_CURRENT_NODE);
      }
      currentNode := Some(order.GetOr(currentNode.value));
      status := Some(UploadSteps.SUCCESS);
      raised := None;
    }

    /** `click_action`. */
    method ClickAction(order: Option<int>) returns (raised: Option<string>)
      modifies this`currentNode, this`status
      ensures Finished(UploadSteps.ClickAction(old(Value()), order), raised, Value())
      ensures raised.Some? ==> Value() == old(Value())
    {
      raised := MarkVisited(order);
    }

    /** `wait_action`. */
    method WaitAction(order: Option<int>) returns (raised: Option<string>)
      modifies this`currentNode, this`status
      ensures Finished(UploadSteps.WaitAction(old(Value()), order), raised, Value())
      ensures raised.Some? ==> Value() == old(Value())
    {
      raised := MarkVisited(order);
    }

    /** `input_action`: the text is resolved against the current fields, then the cursor and status are written. */
    method InputAction(text: Option<string>, order: Option<int>) returns (raised: Option<string>)
      modifies this`currentNode, this`status
      ensures Finished(UploadSteps.InputAction(old(Value()), text, order), raised, Value())
      ensures raised.Some? ==> Value() == old(Value())
    {
      var resolved := text.GetOr("");
      if resolved == UploadSteps.FILE_NAME_REF {
        resolved := fileName.GetOr(UploadSteps.DEFAULT_FILE_NAME);
      }
      raised := MarkVisited(order);
    }

    /** `finalize_state`: writes the status only. */
    method FinalizeState()
      modifies this`status
      ensures Value() == UploadSteps.FinalizeState(old(Value()))
    {
      status := Some(UploadSteps.COMPLETED);
    }
  }

  /** `upload_workflow_node`: the seven upload nodes, `validate_file` to `wait_3s`. */
  method RunUploadWorkflow(s: State, fileExists: string -> bool) returns (raised: Option<string>)
    modifies s
    ensures Finished(UploadSteps.RunChain(UploadSteps.CreateUploadWorkflow(), old(s.Value()), fileExists), raised, s.Value())
  {
    ghost var start := s.Value();
    s.ValidateFile(fileExists);
    raised := s.ClickAction(Some(2));
    if raised.None? { raised := s.WaitAction(Some(3)); }
    if raised.None? { raised := s.ClickAction(Some(4)); }
    if raised.None? { raised := s.InputAction(Some(UploadSteps.FILE_NAME_REF), Some(5)); }
    if raised.None? { raised := s.ClickAction(Some(6)); }
    if raised.None? { raised := s.WaitAction(Some(7)); }
    UploadSteps.UploadOutcome(start, fileExists);
  }

  /** `confirmation_workflow_node`: `check_success`, then `click_close`. */
  method RunConfirmationWorkflow(s: State, fileExists: string -> bool) returns (raised: Option<string>)
    modifies s
    ensures Finished(UploadSteps.RunChain(UploadSteps.CreateConfirmationWorkflow(), old(s.Value()), fileExists), raised, s.Value())
  {
    ghost var start := s.Value();
    raised := s.ClickAction(Some(1));
    if raised.None? { raised := s.ClickAction(Some(2)); }
    UploadSteps.ConfirmationOutcome(start, fileExists);
  }

  /** `lgDocumentUpload.invoke(state)`: upload, confirmation, then `finalize_state`. */
  method InvokeMainGraph(s: State, fileExists: string -> bool) returns (raised: Option<string>)
    modifies s
    ensures Finished(UploadSteps.InvokeMainGraph(old(s.Value()), fileExists), raised, s.Value())
    ensures raised.None?
    ensures s.status == Some(UploadSteps.COMPLETED) && s.currentNode == Some(2)
    ensures s.uploadUrl == old(s.uploadUrl) && s.userInput == old(s.userInput)
  {
    ghost var start := s.Value();
    raised := RunUploadWorkflow(s, fileExists);
    if raised.None? { raised := RunConfirmationWorkflow(s, fileExists); }
    if raised.None? { s.FinalizeState(); }
    UploadSteps.MainGraphOutcome(start, fileExists);
  }
}
