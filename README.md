# Document-upload workflow agents, modelled in Dafny

This project models three pieces of a small LangGraph-based UI-automation repository.

- **`graph.py`: the document-upload graph.** There is one state dictionary with five keys:
  - `user_input`
  - `current_node`, the progress cursor
  - `status`
  - `file_name`
  - `upload_url`

  Node functions overwrite that dictionary in place. Two linear workflows run inside a main graph:
  - the seven-node upload workflow: `validate_file`, `click_documents`, `wait_1s`, `click_upload`, `input_filename`, `click_submit`, `wait_3s`;
  - the two-node confirmation workflow: `check_success`, `click_close`.

  The main graph runs them in that order, then `finalize_state`.
  - Module `UploadSteps` gives each node as a function on a value `Record`, the `State` dictionary of graph.py:12-17 (absent keys are `None`). It also gives the chains and the main graph, and proves how they behave.
  - Module `UploadGraph` is the same graph with a `State` class. Each node is a method that changes exactly the fields that node writes. Each method is proved equal to the corresponding `UploadSteps` function.

- **`langgraph_agent.py`: a two-node validation and processing workflow.**
  - `input_validation` checks the `name`, `email` and `age` fields of a dictionary, or of a JSON text, and collects error messages.
  - `data_processing` derives `processed_data` from what passed, or skips when validation failed.

  Module `ValidationAgent` works in two layers:
  - Its state is the datatype `WorkflowState`, the dictionary of langgraph_agent.py:8-13.
  - It states the field rules declaratively: `Validate` and `Process`.
  - It then builds the results step by step in the methods `InputValidation` and `DataProcessing`, which are proved equal to `Validate` and `Process`.

  The email regular expression is decided by a direct procedure, `CoreMatch`. That procedure is proved equivalent to the pattern's meaning, `PatternCore`.

- **`lg_document_upload_agent.py`: the descriptor.** `generate_document_upload_config` returns a constant document that describes the same upload graph.
  - Module `UploadDescriptor` holds that descriptor as a datatype value.
  - It defines the well-formedness rules a generator relies on: contiguous orders, declared node types and special functions, and subgraph order naming each subgraph once. It proves that the descriptor meets them.
  - It compiles the descriptor to `UploadSteps` and proves the result is exactly the graph `graph.py` builds.

Module `AsciiText` supplies the Python string operations used: `strip`, `lower`, `title` and `split`. Module `Wrappers` supplies `Option` and `Result`. Here `Raised` stands for a Python exception.

External collaborators are parameters:
- `os.path.exists` is the oracle `fileExists: string -> bool`;
- `json.loads` is `parse: string -> Option<Json>`, where `None` means a `JSONDecodeError`;
- the built-in `hash` of the stringified validated record is `hashText: Validated -> string`.

Three facts about the code that the model follows:
- **Nodes can raise.** `click_action`, `wait_action` and `input_action` evaluate `state["current_node"]` as the default argument of `kwargs.get`, even when an `order` is passed. So they raise `KeyError` when the cursor key is absent. `MarkVisited` models this, and `ChainRaisesIff` says exactly when a workflow raises.
- **Declared defaults are not filled in when the state is created.** `validate_file` and `input_action` fall back to `DEFAULT_FILE_NAME` through `get`. `validate_file` writes that default into `file_name` only when validation succeeds (`ChainFrame`). The `upload_url` default the descriptor declares is never written.
- **The main graph's cursor ends at 2.** Each workflow of N nodes with orders 1..N that does not raise leaves the cursor at N (`CursorEqualsLength`). But the main graph ends with cursor 2, not 7, because the confirmation workflow reuses the same field (`MainGraphOutcome`).

Python's `bool` is a subclass of `int`, so `isinstance(True, int)` holds. The age rule therefore accepts a boolean `age` and stores it as 0 or 1 (`ValidationAgent.AgeRule`).

## Model

| member | source | states |
|---|---|---|
| UploadSteps.ValidateFile | graph.py:19-35 | The cursor becomes 1 on every path. The status is "Success" exactly when the stored file name (or `DEFAULT_FILE_NAME`) ends in ".pdf" and exists, and "Error" otherwise. The name is stored only on success. `user_input` and `upload_url` are untouched. |
| UploadSteps.ValidateNonPdf | graph.py:20-25 | A name not ending in ".pdf" gives an error whatever the file-existence oracle says, and the record is otherwise unchanged. |
| UploadSteps.ValidatePdf | graph.py:27-35 | For a ".pdf" name, a missing file gives an error and an existing one is stored with "Success". |
| UploadSteps.ActionEffect | graph.py:37-54 | Click, wait and input raise `KeyError` exactly when `current_node` is absent. Otherwise the cursor takes the passed order (or keeps its value), the status becomes "Success", and nothing else changes. The three actions have the same effect. |
| UploadSteps.ResolvesCheckedName | graph.py:19-54 | After any workflow that starts with `validate_file`, the text "state.file_name" resolves to the name `validate_file` checked, whether validation passed or failed, and the workflow has not raised. |
| UploadSteps.InputFilenameTypesCheckedName | graph.py:47-99 | `input_filename` resolves "state.file_name" when it runs, against the record the four nodes before it left. The name it types is the one `validate_file` checked. |
| UploadSteps.CreateUploadWorkflow | graph.py:55-103 | The upload chain has seven nodes, starts with `validate_file`, and its orders are 1..7 in list order; the list order is the entry point and edge order of `create_upload_workflow`. |
| UploadSteps.CreateConfirmationWorkflow | graph.py:77-115 | The confirmation chain has two nodes with orders 1..2, in the entry point and edge order of `create_confirmation_workflow` (lines 105-115; the node functions are lines 77-81). |
| UploadSteps.CreateMainGraph | graph.py:129-141 | The main graph runs the upload workflow, then the confirmation workflow, then `finalize_state`. |
| UploadSteps.ChainAppend | graph.py:94-101 | Running a concatenated chain is running the first part, then the second part on its result. An exception stops the run. |
| UploadSteps.ChainRaisesIff | graph.py:37-54 | A workflow raises if and only if `current_node` is absent on entry and the first node is not `validate_file`. The exception is always the `KeyError`. |
| UploadSteps.ChainFrame | graph.py:19-54 | No workflow writes `user_input` or `upload_url`. `file_name` changes only from absent to the default name. |
| UploadSteps.ChainLastWriterWins | graph.py:94-101 | The last node decides the cursor, and sets status "Success" unless it is `validate_file`, whatever earlier nodes reported. |
| UploadSteps.CursorEqualsLength | graph.py:83-115 | A workflow with orders 1..n that does not raise leaves the cursor at n. |
| UploadSteps.UploadOutcome | graph.py:83-103 | The upload workflow never raises. It ends as `validate_file` left the state, except cursor 7 and status "Success", even after a validation error. |
| UploadSteps.ConfirmationOutcome | graph.py:105-115 | The confirmation workflow raises if `current_node` is absent. Otherwise it ends with cursor 2 and status "Success". |
| UploadSteps.MainGraphOutcome | graph.py:117-141 | The main graph never raises. It ends with status "Completed" and cursor 2. Only `validate_file` may have changed `file_name`, and `user_input` and `upload_url` are as given. |
| UploadSteps.FinalizeWins | graph.py:125-127 | `finalize_state` sets status "Completed" and changes nothing else. |
| UploadSteps.EndsWithPdf | graph.py:22 | No contract of its own. `name.endswith('.pdf')`, case-sensitive; used by `ValidateFile`, `ValidateNonPdf` and `ValidatePdf`. |
| UploadSteps.CandidateFile | graph.py:20 | No contract of its own. The stored file name, or `DEFAULT_FILE_NAME` when the key is absent; used by `ValidateFile`. |
| UploadSteps.MarkVisited | graph.py:38-39 | No contract of its own; stated by `ActionEffect`. The eager `state["current_node"]` default raises `KeyError` when the key is absent. Otherwise the cursor takes the order and the status becomes "Success". |
| UploadSteps.ClickAction | graph.py:37-40 | No contract of its own; stated by `ActionEffect`. The coordinates are ignored. |
| UploadSteps.WaitAction | graph.py:42-45 | No contract of its own; stated by `ActionEffect`, which proves it equal to `ClickAction`. The duration is ignored. |
| UploadSteps.ResolveText | graph.py:48-50 | No contract of its own; stated by `ResolvesCheckedName` and `InputFilenameTypesCheckedName`. |
| UploadSteps.InputAction | graph.py:47-54 | No contract of its own; stated by `ActionEffect` and `InputIgnoresText`. |
| UploadSteps.InputIgnoresText | graph.py:47-54 | The result of `input_action` is the same whatever text it is given: the resolved text is discarded. |
| UploadSteps.FinalizeState | graph.py:125-127 | No contract of its own; stated by `FinalizeWins`. |
| UploadSteps.RunNode | graph.py:56-81 | No contract of its own. Each node wrapper calls its action with its keyword arguments. |
| UploadSteps.RunChain | graph.py:94-101 | No contract of its own; stated by `ChainAppend`, `ChainRaisesIff`, `ChainFrame`, `ChainLastWriterWins` and `CursorEqualsLength`. Each node receives the record the previous node returned, and an exception stops the run. |
| UploadSteps.RunStage | graph.py:117-123 | No contract of its own. A subgraph stage runs its whole chain as one node; the final stage applies `finalize_state` and cannot raise; stated by `MainGraphOutcome`. |
| UploadSteps.RunStages | graph.py:117-123 | No contract of its own. A subgraph stage runs its chain on the parent's record, and its final record is passed on. Stated through `MainGraphOutcome`. |
| UploadSteps.InvokeMainGraph | graph.py:136-143 | No contract of its own; stated by `MainGraphOutcome`. |
| UploadGraph.State.constructor | graph.py:12-17 | The state object holds exactly the given record. |
| UploadGraph.State.ValidateFile | graph.py:19-35 | Writes only `file_name`, `current_node` and `status`. The new state is `UploadSteps.ValidateFile` of the old one. |
| UploadGraph.State.MarkVisited | graph.py:38-39 | Writes only the cursor and the status. The result is `UploadSteps.MarkVisited` of the old state, and a raise leaves the state unchanged. |
| UploadGraph.State.ClickAction | graph.py:37-40 | Same as `UploadSteps.ClickAction`, written in place on the cursor and status. A raise changes nothing. |
| UploadGraph.State.WaitAction | graph.py:42-45 | Same as `UploadSteps.WaitAction`, written in place on the cursor and status. A raise changes nothing. |
| UploadGraph.State.InputAction | graph.py:47-54 | Same as `UploadSteps.InputAction`. The resolved text is computed and discarded. A raise changes nothing. |
| UploadGraph.State.FinalizeState | graph.py:125-127 | Writes only the status, which becomes "Completed". |
| UploadGraph.RunUploadWorkflow | graph.py:83-103 | Calling the seven node methods in edge order gives the result of the upload chain, or its exception. |
| UploadGraph.RunConfirmationWorkflow | graph.py:105-115 | Calling the two node methods in edge order gives the result of the confirmation chain, or its exception. |
| UploadGraph.InvokeMainGraph | graph.py:117-143 | The in-place run equals `UploadSteps.InvokeMainGraph`. It never raises, and ends with status "Completed" and cursor 2, with `upload_url` and `user_input` unchanged. |
| AsciiText.Strip | langgraph_agent.py:38-39 | `strip()` is the slice left after cutting whitespace from both ends. It is empty exactly when the text is all whitespace, and otherwise starts and ends with a non-space character. |
| AsciiText.StripTrimmed | langgraph_agent.py:38-39 | A text with no whitespace at either end is its own strip. |
| AsciiText.Lower | langgraph_agent.py:49 | `lower()` keeps the length and lowers each character. |
| AsciiText.LowerAround | langgraph_agent.py:49 | Lowering around a non-letter keeps that character in place and creates no other copy of it. |
| AsciiText.Title | langgraph_agent.py:84 | `title()` keeps the length and every non-letter. Every letter stays the same letter up to case. A letter becomes upper-case exactly when it starts a word, meaning it is first or follows a non-letter; otherwise it becomes lower-case. |
| AsciiText.IndexOf | langgraph_agent.py:88 | Gives the position of the first occurrence of a character. |
| AsciiText.Split | langgraph_agent.py:88 | `split(sep)` gives at least one part. No part contains the separator, and joining the parts with it gives back the text. |
| AsciiText.SplitOnce | langgraph_agent.py:88 | A text with exactly one separator splits into the text before it and the text after it. |
| ValidationAgent.CoreMatchIff | langgraph_agent.py:47-48 | The direct decision procedure holds exactly when the text splits as local part, '@', domain part, '.', and two or more letters, which is the pattern's meaning. |
| ValidationAgent.MatchHasOneAt | langgraph_agent.py:47-48 | A matching address contains exactly one '@'. |
| ValidationAgent.EmailDomainIsAfterAt | langgraph_agent.py:47-49 | For a matching address, the part after '@' is the domain the pattern accepted. |
| ValidationAgent.AssembledAddressMatches | langgraph_agent.py:47 | Any local part, domain label and top-level label of two or more letters, put together, match the pattern. |
| ValidationAgent.CoreMatch | langgraph_agent.py:47-48 | No contract of its own. Decides the pattern body without search: a non-empty local part before the first '@', then a domain whose last '.' is not first and is followed by two or more letters; proved equal to the pattern's meaning by `CoreMatchIff`. |
| ValidationAgent.EmailMatches | langgraph_agent.py:47-48 | No contract of its own. The pattern without `$` matches the text, or the text minus one final newline; stated by `CoreMatchIff` and `MatchHasOneAt`. |
| ValidationAgent.Truthy | langgraph_agent.py:21 | No contract of its own. Python truthiness of the input; used by `FalsyInput` and `OtherInputErrors`. |
| ValidationAgent.ParseInput | langgraph_agent.py:29-33 | No contract of its own; stated by `TextInputErrors` and `DictInputOutcome`. |
| ValidationAgent.FieldErrors | langgraph_agent.py:35-58 | No contract of its own. The name, email and age errors in that order; stated by `DictInputOutcome`, `LaterErrors`, `MissingNameOutcome` and `BadNameOutcome`. |
| ValidationAgent.FieldValues | langgraph_agent.py:35-58 | No contract of its own. The fields that passed, each stored even when another failed; stated by `DictInputOutcome`, `GoodNameOutcome` and `FieldValuesWellFormed`. |
| ValidationAgent.NameRule | langgraph_agent.py:36-43 | No contract of its own; stated by `GoodNameOutcome`, `MissingNameOutcome`, `BadNameOutcome` and `CheckName`. |
| ValidationAgent.EmailRule | langgraph_agent.py:45-51 | No contract of its own; stated by `StoredEmailSplits`, `EmailDomainOutcome` and `CheckEmail`. |
| ValidationAgent.AgeRule | langgraph_agent.py:53-58 | No contract of its own; stated by `ValidatedIsWellFormed` (a stored age is in 0..150) and `CheckAge`. A boolean is an `int` in Python, so it passes as 0 or 1. |
| ValidationAgent.InitialState | langgraph_agent.py:128-134 | No contract of its own. Empty `validated_data`, `processed_data` and `errors`, with status "initialized"; used by `WorkflowOutcome`. |
| ValidationAgent.RunWorkflow | langgraph_agent.py:124-137 | No contract of its own; stated by `WorkflowOutcome` and `DocumentedExample`. |
| ValidationAgent.Validate | langgraph_agent.py:15-69 | The status is "validation_passed" exactly when no error was recorded, and "validation_failed" otherwise. `input_data` and `processed_data` are kept. |
| ValidationAgent.CheckName | langgraph_agent.py:36-43 | Appends exactly the name rule's error, if any, and stores exactly its stripped name, if any. |
| ValidationAgent.CheckEmail | langgraph_agent.py:45-51 | Appends exactly the email rule's error, if any, and stores exactly its lowered address, if any. |
| ValidationAgent.CheckAge | langgraph_agent.py:53-58 | Appends exactly the age rule's error, if any, and stores exactly its age, if any. |
| ValidationAgent.InputValidation | langgraph_agent.py:15-69 | The step-by-step validation equals `Validate`. |
| ValidationAgent.FalsyInput | langgraph_agent.py:21-27 | A falsy input records only "No input data provided" with status "validation_failed". The rest of the state is kept. |
| ValidationAgent.DictInputOutcome | langgraph_agent.py:35-58 | For a dictionary, given directly or as JSON text, the errors are the name, email and age errors in that order. Every field that passed is stored even when another failed. |
| ValidationAgent.GoodNameOutcome | langgraph_agent.py:38-39 | A non-blank text name is stored stripped and adds no name error. |
| ValidationAgent.MissingNameOutcome | langgraph_agent.py:42-43 | A missing name is the first error, and no name is stored. |
| ValidationAgent.BadNameOutcome | langgraph_agent.py:40-41 | A non-text or blank name is the first error, reported once, and nothing is stored. |
| ValidationAgent.TextInputErrors | langgraph_agent.py:29-33 | A text that does not parse records "Invalid JSON format" and then the not-a-dictionary error. A text that parses to a non-dictionary records only the latter. |
| ValidationAgent.OtherInputErrors | langgraph_agent.py:59-60 | Any other truthy non-dictionary input records only the not-a-dictionary error. |
| ValidationAgent.ValidatedIsWellFormed | langgraph_agent.py:35-58 | Whatever a truthy input validates to has a stripped non-blank name, an address with one '@', and an age in 0..150. |
| ValidationAgent.AgeGroup | langgraph_agent.py:92-98 | "minor" exactly below 18, "adult" exactly for 18..64, "senior" exactly from 65. |
| ValidationAgent.Process | langgraph_agent.py:71-109 | Only `processed_data` and `status` change. The status is "processing_skipped" exactly after a failed validation, and "processing_completed" otherwise. It raises `IndexError` exactly when a stored address has no '@'. |
| ValidationAgent.DataProcessing | langgraph_agent.py:71-109 | The step-by-step processing equals `Process`. |
| ValidationAgent.ProcessingSkipped | langgraph_agent.py:73-78 | A failed validation empties `processed_data` and sets "processing_skipped". Nothing else changes. |
| ValidationAgent.EmailDomainOutcome | langgraph_agent.py:87-89 | For an address that passed, `email_domain` is the lowered text after its only '@', and `email_normalized` is the stored address. |
| ValidationAgent.WorkflowOutcome | langgraph_agent.py:111-137 | The workflow never raises. It ends "processing_skipped" exactly when validation recorded an error, and "processing_completed" otherwise. |
| ValidationAgent.ExampleValidation | langgraph_agent.py:139-146 | The example input passes validation. It stores "john doe", "john.doe@example.com" and 30. |
| ValidationAgent.ExampleProcessing | langgraph_agent.py:83-103 | The validated example gives "John Doe", name length 8, domain "example.com", age group "adult", and the fixed timestamp. |
| ValidationAgent.DocumentedExample | langgraph_agent.py:139-146 | The example run ends "processing_completed" with no errors and the derived fields above. |
| UploadDescriptor.ToAction | lg_document_upload_agent.py:56-127 | The special node named `validate_file` compiles to `validate_file`, and no other node does. Every other compiled node keeps the descriptor's order as its cursor value. `validate_file` always writes cursor 1, whatever its declared order. |
| UploadDescriptor.ToChain | lg_document_upload_agent.py:56-127 | A node list compiles exactly when every node does, and then keeps the list's names, order and length. |
| UploadDescriptor.ToStages | lg_document_upload_agent.py:129-133 | Compiles exactly when every `subgraph_order` entry names a declared subgraph whose nodes compile. Then it gives one stage per entry, in that order: stage i is the subgraph named by entry i, with that subgraph's compiled chain. |
| UploadDescriptor.ToMainGraph | lg_document_upload_agent.py:129-133 | Compiles exactly when every `subgraph_order` entry names a declared subgraph whose nodes compile. Then it gives the subgraph named by each entry, in order, with its compiled chain, followed by one final `finalize_state` stage. |
| UploadDescriptor.CompiledOrdersContiguous | lg_document_upload_agent.py:56-127 | Contiguous descriptor orders give contiguous cursor values exactly when `validate_file` can only be first. |
| UploadDescriptor.ActionTypesNamed | lg_document_upload_agent.py:144-149 | Each of the click, wait, input and special types is listed as available. |
| UploadDescriptor.UploadNodesDeclared | lg_document_upload_agent.py:56-104 | The upload nodes are numbered 1..7, their types are available, and the special node's function is declared. |
| UploadDescriptor.ConfirmationNodesDeclared | lg_document_upload_agent.py:111-126 | The confirmation nodes are numbered 1..2 and their types are available. |
| UploadDescriptor.SubgraphOrderExact | lg_document_upload_agent.py:129-133 | `subgraph_order` names each subgraph key exactly once, and nothing else. |
| UploadDescriptor.ConfigIsWellFormed | lg_document_upload_agent.py:12-152 | The descriptor meets every well-formedness rule: contiguous orders, declared node types and special functions, subgraph names that match their keys, `subgraph_order` naming each subgraph once, and added fields that do not collide with the built-in ones. |
| UploadDescriptor.ConfigMatchesConstants | lg_document_upload_agent.py:12-30 | The OS URL and the default file name are the ones `graph.py` uses. The declared `file_name` field exists and defaults to the configured default file name. The configured graph name equals the metadata name. |
| UploadDescriptor.UploadChainMatches | lg_document_upload_agent.py:56-104 | The upload nodes compile to exactly `graph.py`'s upload chain, arguments included. |
| UploadDescriptor.ConfirmationChainMatches | lg_document_upload_agent.py:111-126 | The confirmation nodes compile to exactly `graph.py`'s confirmation chain. |
| UploadDescriptor.ConfigMatchesGraph | lg_document_upload_agent.py:51-133 | Compiled, the descriptor is exactly the main graph `graph.py` builds. |
| UploadDescriptor.ConfigNodeCount | lg_document_upload_agent.py:51-133 | The main graph runs 9 nodes: the sum of the two subgraphs' node counts. |
| UploadDescriptor.GenerateDocumentUploadConfig | lg_document_upload_agent.py:9-154 | No contract of its own; stated by `ConfigIsWellFormed`, `ConfigMatchesConstants`, `ConfigMatchesGraph` and `ConfigNodeCount`. |
| UploadDescriptor.WellFormed | lg_document_upload_agent.py:51-133 | No contract of its own; the constant meets it by `ConfigIsWellFormed`. Orders in each subgraph are 1..n, node types are listed as available, special functions are declared, subgraph names match their keys, `subgraph_order` names each subgraph exactly once, and added fields do not collide with the built-in fields. |

## Left out

- **LangGraph machinery:** `StateGraph`, `compile` and `invoke` are left out, and so is the module-level compiled graph at graph.py:143. Each graph is the list of its nodes, and invoking it is running that list in order. LangGraph's merging of a node's returned dictionary into the channel state is taken to be replacement.
- **Filesystem:** `os.path.exists` is the `fileExists` parameter, because the filesystem is outside the model.
- **JSON parsing:** `json.loads` is the `parse` parameter, and JSON floats are not modelled. Because ages are whole numbers, the `int(age)` truncation of a float age is also left out.
- **Hashing:** Python's `hash` of `str(validated_data)` is the `hashText` parameter, because its value is salted per process.
- **Dictionary key order:** insertion order of keys is not modelled anywhere.
  - `validated_data` and `processed_data` are records with optional fields.
  - In the descriptor, `subgraphs`, `additional_fields`, `additional_functions` and each node's `parameters` are maps.
  Only their contents are used. Order that matters, such as node lists and `subgraph_order`, is kept as sequences.
- **Input values:** in the upload graph, `user_input`'s values are texts, because they are only carried through and never read.
- **Unicode:** `strip`, `lower`, `title` and the character classes of the email pattern are defined on ASCII. Python's Unicode tables are not modelled.
- **Printing:** the output of both `__main__` blocks is left out, because it is printing only: `json.dumps` at lg_document_upload_agent.py:156-159 and `print` at langgraph_agent.py:147-151.
- **Ignored arguments:** the click coordinates and wait durations are carried in the node values but have no effect, as in the source. No UI driver is modelled.
- **Descriptor prose:** the descriptor's descriptive texts (descriptions, notes, instructions) are held in the value but nothing is proved about them.
- **Other files:** fruit_vegetable_agent.py and sample.py are not part of this model.
