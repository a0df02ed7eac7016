/**
 * The two-node validation and processing workflow of langgraph_agent.py.
 *
 * `Validate` and `Process` state the field rules declaratively; the methods
 * `InputValidation` and `DataProcessing` build the error list and the
 * output records step by step, as the Python functions do, and are proved
 * equal to them.  Neither touches the incoming state: each returns a new
 * record (`{**state, ...}`).
 */
module ValidationAgent {
  import opened Wrappers
  import opened AsciiText

  const NO_INPUT: string := "No input data provided"
  const INVALID_JSON: string := "Invalid JSON format"
  const NOT_A_DICT: string := "Input data must be a dictionary or valid JSON string"
  const NAME_MISSING: string := "Missing required field: name"
  const NAME_INVALID: string := "Name must be a non-empty string"
  const EMAIL_INVALID: string := "Invalid email format"
  const AGE_INVALID: string := "Age must be a number between 0 and 150"

  const INITIALIZED: string := "initialized"
  const VALIDATION_PASSED: string := "validation_passed"
  const VALIDATION_FAILED: string := "validation_failed"
  const PROCESSING_SKIPPED: string := "processing_skipped"
  const PROCESSING_COMPLETED: string := "processing_completed"

  const PROCESSING_TIMESTAMP: string := "2024-01-01T00:00:00Z"
  const INDEX_ERROR: string := "IndexError: list index out of range"

  /** A Python value as `json.loads` returns it (floats left out). */
  datatype Json =
    | JNull
    | JBool(b: bool)
    | JInt(n: int)
    | JStr(s: string)
    | JList(items: seq<Json>)
    | JObject(fields: map<string, Json>)

  /** Python truthiness: None, False, 0 and empty texts, lists and dictionaries are falsy. */
  predicate Truthy(j: Json) {
    match j
    case JNull => false
    case JBool(b) => b
    case JInt(n) => n != 0
    case JStr(s) => s != []
    case JList(items) => items != []
    case JObject(fields) => fields != map[]
  }

  /** `validated_data`: only the keys name, email and age can occur. */
  datatype Validated = Validated(name: Option<string>, email: Option<string>, age: Option<int>)

  const NO_VALIDATED: Validated := Validated(None, None, None)

  /** `processed_data`; `record_id` carries the text of Python's `hash`, which is given as a parameter. */
  datatype Processed = Processed(
    fullName: Option<string>,
    nameLength: Option<int>,
    emailDomain: Option<string>,
    emailNormalized: Option<string>,
    ageGroup: Option<string>,
    age: Option<int>,
    processingTimestamp: Option<string>,
    recordId: Option<string>)

  const NO_PROCESSED: Processed := Processed(None, None, None, None, None, None, None, None)

  /** `WorkflowState`; an absent `input_data` reads as None, so it is `JNull` here. */
  datatype WorkflowState = WorkflowState(
    inputData: Json,
    validatedData: Validated,
    processedData: Processed,
    errors: seq<string>,
    status: string)

  // ----- the email pattern ^[a-zA-Z0-9._%+-]+@[a-zA-Z0-9.-]+\.[a-zA-Z]{2,}$ -----

  predicate IsLocalChar(c: char) {
    IsLetter(c) || IsDigit(c) || c == '.' || c == '_' || c == '%' || c == '+' || c == '-'
  }

  predicate IsDomainChar(c: char) {
    IsLetter(c) || IsDigit(c) || c == '.' || c == '-'
  }

  /**
   * The pattern without its final `$`, read as the regular expression says:
   * some split of `s` into a local part, '@', a domain label, '.', and at
   * least two letters.
   */
  ghost predicate PatternCore(s: string) {
    exists i, j :: 0 < i && i + 1 < j && j + 3 <= |s| &&
      AllChars(s[..i], IsLocalChar) && s[i] == '@' && AllChars(s[i + 1..j], IsDomainChar) &&
      s[j] == '.' && AllChars(s[j + 1..], IsLetter)
  }

  /** The domain after '@': domain characters, the last '.' not first, and two or more letters after it. */
  predicate DomainMatch(d: string) {
    '.' in d && AllChars(d, IsDomainChar) &&
    var j := LastIndexOf(d, '.');
    0 < j && j + 3 <= |d| && AllChars(d[j + 1..], IsLetter)
  }

  /** The pattern without `$`, decided without search: the '@' can only be the first one. */
  predicate CoreMatch(s: string) {
    '@' in s &&
    var i := IndexOf(s, '@');
    0 < i && AllChars(s[..i], IsLocalChar) && DomainMatch(s[i + 1..])
  }

  /** `re.match(email_pattern, s)`: Python's `$` also matches just before one final newline. */
  predicate EmailMatches(s: string) {
    CoreMatch(s) || (|s| > 0 && s[|s| - 1] == '\n' && CoreMatch(s[..|s| - 1]))
  }

  /** The direct decision procedure agrees with the regular expression's meaning. */
  lemma {:induction false} CoreMatchIff(s: string)
    ensures CoreMatch(s) <==> PatternCore(s)
  {
    if CoreMatch(s) {
      CoreMatchSound(s);
    }
    if PatternCore(s) {
      var i, j :| 0 < i && i + 1 < j && j + 3 <= |s| &&
        AllChars(s[..i], IsLocalChar) && s[i] == '@' && AllChars(s[i + 1..j], IsDomainChar) &&
        s[j] == '.' && AllChars(s[j + 1..], IsLetter);
      CoreMatchComplete(s, i, j);
    }
  }

  lemma {:induction false} CoreMatchSound(s: string)
    requires CoreMatch(s)
    ensures PatternCore(s)
  {
    var i := IndexOf(s, '@');
    var d := s[i + 1..];
    var jd := LastIndexOf(d, '.');
    var j := i + 1 + jd;
    assert s[i + 1..j] == d[..jd];
    assert s[j + 1..] == d[jd + 1..];
    assert forall k :: 0 <= k < jd ==> d[..jd][k] == d[k];
    assert 0 < i && i + 1 < j && j + 3 <= |s|;
    assert AllChars(s[..i], IsLocalChar) && s[i] == '@';
    assert AllChars(s[i + 1..j], IsDomainChar) && s[j] == '.';
    assert AllChars(s[j + 1..], IsLetter);
  }

  lemma {:induction false} CoreMatchComplete(s: string, i: int, j: int)
    requires 0 < i && i + 1 < j && j + 3 <= |s|
    requires AllChars(s[..i], IsLocalChar) && s[i] == '@' && AllChars(s[i + 1..j], IsDomainChar)
    requires s[j] == '.' && AllChars(s[j + 1..], IsLetter)
    ensures CoreMatch(s)
  {
    var at := IndexOf(s, '@');
    forall k | 0 <= k < i ensures s[k] != '@' {
      assert s[k] == s[..i][k];
    }
    assert at == i;
    var d := s[i + 1..];
    var jd := j - i - 1;
    assert d[..jd] == s[i + 1..j];
    assert d[jd + 1..] == s[j + 1..];
    DomainComplete(d, jd);
  }

  lemma {:induction false} DomainComplete(d: string, jd: int)
    requires 0 < jd && jd + 3 <= |d|
    requires AllChars(d[..jd], IsDomainChar) && d[jd] == '.' && AllChars(d[jd + 1..], IsLetter)
    ensures DomainMatch(d)
  {
    forall k | 0 <= k < |d| ensures IsDomainChar(d[k]) {
      if k < jd { assert d[k] == d[..jd][k]; }
      else if k > jd { assert d[k] == d[jd + 1..][k - jd - 1]; }
    }
    var last := LastIndexOf(d, '.');
    forall k | jd < k < |d| ensures d[k] != '.' {
      assert d[k] == d[jd + 1..][k - jd - 1];
    }
    assert last == jd;
  }

  /** Local part and domain exclude '@', so a matching address has exactly one '@'. */
  lemma {:induction false} MatchHasOneAt(s: string)
    requires EmailMatches(s)
    ensures '@' in s
    ensures forall k :: IndexOf(s, '@') < k < |s| ==> s[k] != '@'
  {
    if CoreMatch(s) {
      CoreHasOneAt(s);
    } else {
      var core := s[..|s| - 1];
      CoreHasOneAt(core);
      var i := IndexOf(core, '@');
      assert s[i] == core[i];
      forall k | 0 <= k < i ensures s[k] != '@' {
        assert s[k] == core[k];
      }
      assert IndexOf(s, '@') == i;
      forall k | i < k < |s| ensures s[k] != '@' {
        if k < |s| - 1 { assert s[k] == core[k]; }
      }
    }
  }

  lemma {:induction false} CoreHasOneAt(s: string)
    requires CoreMatch(s)
    ensures '@' in s
    ensures forall k :: IndexOf(s, '@') < k < |s| ==> s[k] != '@'
  {
    var i := IndexOf(s, '@');
    var d := s[i + 1..];
    assert DomainMatch(d);
    forall k | i < k < |s| ensures s[k] != '@' {
      assert s[k] == d[k - i - 1];
    }
  }

  /**
   * The stored address splits at '@' into exactly two parts; the second,
   * `email_domain`, is the lowered text after the address's only '@'.
   */
  lemma {:induction false} EmailDomainIsAfterAt(s: string)
    requires EmailMatches(s)
    ensures '@' in s
    ensures Split(Lower(s), '@') == [Lower(s[..IndexOf(s, '@')]), Lower(s[IndexOf(s, '@') + 1..])]
  {
    MatchHasOneAt(s);
    var i := IndexOf(s, '@');
    var a, b := s[..i], s[i + 1..];
    assert s == a + ['@'] + b;
    assert '@' !in b by {
      forall k | 0 <= k < |b| ensures b[k] != '@' { assert b[k] == s[i + 1 + k]; }
    }
    LowerAround(a, b, '@');
    SplitOnce(Lower(a), Lower(b), '@');
  }

  // ----- the field rules -----

  /** How one field's rule ended: stored, rejected with a message, or the key was not there. */
  datatype Check<T> = Accepted(value: T) | Rejected(message: string) | NotGiven

  function ErrorOf<T>(c: Check<T>): seq<string> {
    if c.Rejected? then [c.message] else []
  }

  function ValueOf<T>(c: Check<T>): Option<T> {
    if c.Accepted? then Some(c.value) else None
  }

  /** `name` is required, and must be a text that is not blank; it is stored stripped. */
  function NameRule(fields: map<string, Json>): Check<string> {
    if "name" !in fields then Rejected(NAME_MISSING)
    else if fields["name"].JStr? && |Strip(fields["name"].s)| > 0 then Accepted(Strip(fields["name"].s))
    else Rejected(NAME_INVALID)
  }

  /** `email` is optional, must match the pattern, and is stored lowered. */
  function EmailRule(fields: map<string, Json>): Check<string> {
    if "email" !in fields then NotGiven
    else if fields["email"].JStr? && EmailMatches(fields["email"].s) then Accepted(Lower(fields["email"].s))
    else Rejected(EMAIL_INVALID)
  }

  /** `age` is optional and must be a number in 0..150; a bool is an int in Python, so it passes as 0 or 1. */
  function AgeRule(fields: map<string, Json>): Check<int> {
    if "age" !in fields then NotGiven
    else match fields["age"]
      case JInt(n) => if 0 <= n <= 150 then Accepted(n) else Rejected(AGE_INVALID)
      case JBool(b) => Accepted(if b then 1 else 0)
      case _ => Rejected(AGE_INVALID)
  }

  /** The errors of a dictionary input, in field order: name, email, age. */
  function FieldErrors(fields: map<string, Json>): seq<string> {
    ErrorOf(NameRule(fields)) + ErrorOf(EmailRule(fields)) + ErrorOf(AgeRule(fields))
  }

  /** Every field that passed its rule, whatever happened to the others. */
  function FieldValues(fields: map<string, Json>): Validated {
    Validated(ValueOf(NameRule(fields)), ValueOf(EmailRule(fields)), ValueOf(AgeRule(fields)))
  }

  /** A text input goes through `json.loads` (the `parse` oracle); a parse failure is recorded and the text kept. */
  function ParseInput(input: Json, parse: string -> Option<Json>): (Json, seq<string>) {
    if !input.JStr? then (input, [])
    else match parse(input.s)
      case Some(j) => (j, [])
      case None => (input, [INVALID_JSON])
  }

  /** `input_validation`.  The status is "validation_passed" exactly when no error was recorded. */
  function Validate(st: WorkflowState, parse: string -> Option<Json>): (r: WorkflowState)
    ensures r.status == VALIDATION_PASSED <==> r.errors == []
    ensures r.status == VALIDATION_PASSED || r.status == VALIDATION_FAILED
    ensures r.inputData == st.inputData && r.processedData == st.processedData
  {
    if !Truthy(st.inputData) then
      st.(errors := [NO_INPUT], status := VALIDATION_FAILED)
    else
      var parsed := ParseInput(st.inputData, parse);
      var data := parsed.0;
      var errors := if data.JObject? then parsed.1 + FieldErrors(data.fields) else parsed.1 + [NOT_A_DICT];
      var validated := if data.JObject? then FieldValues(data.fields) else NO_VALIDATED;
      st.(validatedData := validated, errors := errors,
          status := if errors == [] then VALIDATION_PASSED else VALIDATION_FAILED)
  }

  /** The `name` check of `input_validation`: stores the stripped name or appends one error. */
  method CheckName(fields: map<string, Json>, errors: seq<string>, validated: Validated)
    returns (errors': seq<string>, validated': Validated)
    requires validated.name.None?
    ensures errors' == errors + ErrorOf(NameRule(fields))
    ensures validated' == validated.(name := ValueOf(NameRule(fields)))
  {
    errors', validated' := errors, validated;
    if "name" in fields {
      var name := fields["name"];
      if name.JStr? && |Strip(name.s)| > 0 {
        validated' := validated'.(name := Some(Strip(name.s)));
      } else {
        errors' := errors' + [NAME_INVALID];
      }
    } else {
      errors' := errors' + [NAME_MISSING];
    }
  }

  /** The `email` check of `input_validation`: stores the lowered address or appends one error. */
  method CheckEmail(fields: map<string, Json>, errors: seq<string>, validated: Validated)
    returns (errors': seq<string>, validated': Validated)
    requires validated.email.None?
    ensures errors' == errors + ErrorOf(EmailRule(fields))
    ensures validated' == validated.(email := ValueOf(EmailRule(fields)))
  {
    errors', validated' := errors, validated;
    if "email" in fields {
      var email := fields["email"];
      if email.JStr? && EmailMatches(email.s) {
        validated' := validated'.(email := Some(Lower(email.s)));
      } else {
        errors' := errors' + [EMAIL_INVALID];
      }
    }
  }

  /** The `age` check of `input_validation`: stores the age or appends one error. */
  method CheckAge(fields: map<string, Json>, errors: seq<string>, validated: Validated)
    returns (errors': seq<string>, validated': Validated)
    requires validated.age.None?
    ensures errors' == errors + ErrorOf(AgeRule(fields))
    ensures validated' == validated.(age := ValueOf(AgeRule(fields)))
  {
    errors', validated' := errors, validated;
    if "age" in fields {
      var age := fields["age"];
      if age.JInt? && 0 <= age.n <= 150 {
        validated' := validated'.(age := Some(age.n));
      } else if age.JBool? {
        validated' := validated'.(age := Some(if age.b then 1 else 0));
      } else {
        errors' := errors' + [AGE_INVALID];
      }
    }
  }

  /** `input_validation`, building `errors` and `validated_data` one field at a time. */
  method InputValidation(state: WorkflowState, parse: string -> Option<Json>) returns (out: WorkflowState)
    ensures out == Validate(state, parse)
  {
    var inputData := state.inputData;
    var errors: seq<string> := [];
    var validated := NO_VALIDATED;

    if !Truthy(inputData) {
      errors := errors + [NO_INPUT];
      return state.(errors := errors, status := VALIDATION_FAILED);
    }

    if inputData.JStr? {
      var parsed := parse(inputData.s);
      if parsed.Some? {
        inputData := parsed.value;
      } else {
        errors := errors + [INVALID_JSON];
      }
    }
    assert inputData == ParseInput(state.inputData, parse).0;
    assert errors == ParseInput(state.inputData, parse).1;

    if inputData.JObject? {
      var fields := inputData.fields;
      errors, validated := CheckName(fields, errors, validated);
      errors, validated := CheckEmail(fields, errors, validated);
      errors, validated := CheckAge(fields, errors, validated);
      assert errors == ParseInput(state.inputData, parse).1 + FieldErrors(fields);
    } else {
      errors := errors + [NOT_A_DICT];
    }

    var status := if |errors| > 0 then VALIDATION_FAILED else VALIDATION_PASSED;
    out := state.(validatedData := validated, errors := errors, status := status);
  }

  // ----- processing -----

  /** The age bands: under 18, 18 to 64, 65 and over. */
  function AgeGroup(age: int): (g: string)
    ensures g == "minor" <==> age < 18
    ensures g == "adult" <==> 18 <= age < 65
    ensures g == "senior" <==> 65 <= age
  {
    if age < 18 then "minor" else if age < 65 then "adult" else "senior"
  }

  /**
   * `data_processing`.  A failed validation skips processing; otherwise each
   * validated field yields its derived values.  `split("@")[1]` raises when
   * the stored email has no '@'.
   */
  function Process(st: WorkflowState, hashText: Validated -> string): (r: Result<WorkflowState>)
    ensures r.Ok? ==> r.value.(processedData := st.processedData, status := st.status) == st
    ensures r.Ok? ==> (r.value.status == PROCESSING_SKIPPED <==> st.status == VALIDATION_FAILED)
    ensures r.Ok? ==> (r.value.status == PROCESSING_COMPLETED <==> st.status != VALIDATION_FAILED)
    ensures r.Raised? <==>
      st.status != VALIDATION_FAILED && st.validatedData.email.Some? && '@' !in st.validatedData.email.value
  {
    if st.status == VALIDATION_FAILED then
      Ok(st.(processedData := NO_PROCESSED, status := PROCESSING_SKIPPED))
    else
      var v := st.validatedData;
      var parts := if v.email.Some? then Split(v.email.value, '@') else [];
      if v.email.Some? && |parts| < 2 then
        assert JoinWith(parts, '@') == parts[0];
        Raised(INDEX_ERROR)
      else
        assert v.email.Some? ==> '@' in v.email.value by {
          if v.email.Some? { assert JoinWith(parts, '@') == parts[0] + ['@'] + JoinWith(parts[1..], '@'); }
        }
        Ok(st.(processedData := Processed(
            fullName := if v.name.Some? then Some(Title(v.name.value)) else None,
            nameLength := if v.name.Some? then Some(|v.name.value|) else None,
            emailDomain := if v.email.Some? then Some(parts[1]) else None,
            emailNormalized := v.email,
            ageGroup := if v.age.Some? then Some(AgeGroup(v.age.value)) else None,
            age := v.age,
            processingTimestamp := Some(PROCESSING_TIMESTAMP),
            recordId := Some("user_" + hashText(v))),
          status := PROCESSING_COMPLETED))
  }

  /** `data_processing`, filling `processed_data` one key at a time. */
  method DataProcessing(state: WorkflowState, hashText: Validated -> string) returns (result: Result<WorkflowState>)
    ensures result == Process(state, hashText)
  {
    if state.status == VALIDATION_FAILED {
      return Ok(state.(processedData := NO_PROCESSED, status := PROCESSING_SKIPPED));
    }

    var v := state.validatedData;
    var processed := NO_PROCESSED;

    if v.name.Some? {
      processed := processed.(fullName := Some(Title(v.name.value)));
      processed := processed.(nameLength := Some(|v.name.value|));
    }

    if v.email.Some? {
      var parts := Split(v.email.value, '@');
      if |parts| < 2 {
        return Raised(INDEX_ERROR);
      }
      processed := processed.(emailDomain := Some(parts[1]));
      processed := processed.(emailNormalized := Some(v.email.value));
    }

    if v.age.Some? {
      var age := v.age.value;
      if age < 18 {
        processed := processed.(ageGroup := Some("minor"));
      } else if age < 65 {
        processed := processed.(ageGroup := Some("adult"));
      } else {
        processed := processed.(ageGroup := Some("senior"));
      }
      processed := processed.(age := Some(age));
    }

    processed := processed.(processingTimestamp := Some(PROCESSING_TIMESTAMP));
    processed := processed.(recordId := Some("user_" + hashText(v)));

    result := Ok(state.(processedData := processed, status := PROCESSING_COMPLETED));
  }

  // ----- the workflow -----

  /** The state `run_workflow` starts from. */
  function InitialState(inputData: Json): WorkflowState {
    WorkflowState(inputData, NO_VALIDATED, NO_PROCESSED, [], INITIALIZED)
  }

  /** `run_workflow`: validation, then processing. */
  function RunWorkflow(inputData: Json, parse: string -> Option<Json>, hashText: Validated -> string): Result<WorkflowState> {
    Process(Validate(InitialState(inputData), parse), hashText)
  }

  // ----- properties -----

  /** A falsy input is one error and a failed status; `validated_data` stays as it came in. */
  lemma {:induction false} FalsyInput(st: WorkflowState, parse: string -> Option<Json>)
    requires !Truthy(st.inputData)
    ensures Validate(st, parse) == st.(errors := [NO_INPUT], status := VALIDATION_FAILED)
  {
  }

  /** The dictionary an input amounts to once a text has been parsed, if it is one. */
  predicate IsDictInput(input: Json, parse: string -> Option<Json>, fields: map<string, Json>) {
    Truthy(input) && ParseInput(input, parse).0 == JObject(fields)
  }

  /**
   * For a dictionary input (given directly or as JSON text) the errors are
   * the name, email and age errors in that order, and every field that passed
   * is stored even when another failed.
   */
  lemma {:induction false} DictInputOutcome(st: WorkflowState, parse: string -> Option<Json>, fields: map<string, Json>)
    requires IsDictInput(st.inputData, parse, fields)
    ensures Validate(st, parse).errors == ErrorOf(NameRule(fields)) + ErrorOf(EmailRule(fields)) + ErrorOf(AgeRule(fields))
    ensures Validate(st, parse).validatedData == FieldValues(fields)
  {
  }

  /** The email and age rules can only record their own messages. */
  lemma {:induction false} LaterErrors(fields: map<string, Json>)
    ensures var rest := ErrorOf(EmailRule(fields)) + ErrorOf(AgeRule(fields));
      FieldErrors(fields) == ErrorOf(NameRule(fields)) + rest &&
      forall k :: 0 <= k < |rest| ==> rest[k] == EMAIL_INVALID || rest[k] == AGE_INVALID
  {
  }

  /** A name that is a text with something besides whitespace is stored stripped and adds no name error. */
  lemma {:induction false} GoodNameOutcome(fields: map<string, Json>)
    requires "name" in fields && fields["name"].JStr? && |Strip(fields["name"].s)| > 0
    ensures FieldValues(fields).name == Some(Strip(fields["name"].s))
    ensures NAME_INVALID !in FieldErrors(fields) && NAME_MISSING !in FieldErrors(fields)
  {
    LaterErrors(fields);
  }

  /** A missing name is the first error, and no other name error is recorded. */
  lemma {:induction false} MissingNameOutcome(fields: map<string, Json>)
    requires "name" !in fields
    ensures FieldValues(fields).name.None?
    ensures |FieldErrors(fields)| > 0 && FieldErrors(fields)[0] == NAME_MISSING
    ensures NAME_INVALID !in FieldErrors(fields)
  {
    LaterErrors(fields);
  }

  /** A name that is not a text, or is blank, is the first error and is reported exactly once. */
  lemma {:induction false} BadNameOutcome(fields: map<string, Json>)
    requires "name" in fields && !(fields["name"].JStr? && |Strip(fields["name"].s)| > 0)
    ensures FieldValues(fields).name.None?
    ensures |FieldErrors(fields)| > 0 && FieldErrors(fields)[0] == NAME_INVALID
    ensures NAME_INVALID !in FieldErrors(fields)[1..] && NAME_MISSING !in FieldErrors(fields)
  {
    LaterErrors(fields);
  }

  /** Text that fails to parse records both errors, in this order; text that parses to a non-dictionary records only the second. */
  lemma {:induction false} TextInputErrors(st: WorkflowState, parse: string -> Option<Json>)
    requires st.inputData.JStr? && st.inputData.s != []
    ensures parse(st.inputData.s).None? ==>
      Validate(st, parse).errors == [INVALID_JSON, NOT_A_DICT] && Validate(st, parse).validatedData == NO_VALIDATED
    ensures parse(st.inputData.s).Some? && !parse(st.inputData.s).value.JObject? ==>
      Validate(st, parse).errors == [NOT_A_DICT]
  {
  }

  /** Any other truthy input that is not a dictionary records only the type error. */
  lemma {:induction false} OtherInputErrors(st: WorkflowState, parse: string -> Option<Json>)
    requires Truthy(st.inputData) && !st.inputData.JStr? && !st.inputData.JObject?
    ensures Validate(st, parse).errors == [NOT_A_DICT]
    ensures Validate(st, parse).status == VALIDATION_FAILED
  {
  }

  /** A failed validation makes processing skip: `processed_data` is emptied and everything else kept. */
  lemma {:induction false} ProcessingSkipped(st: WorkflowState, hashText: Validated -> string)
    requires st.status == VALIDATION_FAILED
    ensures Process(st, hashText) == Ok(st.(processedData := NO_PROCESSED, status := PROCESSING_SKIPPED))
  {
  }

  /** A stored name is its own strip and is not empty. */
  predicate NameWellFormed(name: Option<string>) {
    name.Some? ==> name.value != [] && Strip(name.value) == name.value
  }

  /** A stored address has exactly one '@', so it splits into two parts. */
  predicate EmailWellFormed(email: Option<string>) {
    email.Some? ==> |Split(email.value, '@')| == 2
  }

  /** A stored age is in 0..150. */
  predicate AgeWellFormed(age: Option<int>) {
    age.Some? ==> 0 <= age.value <= 150
  }

  /** What validation stores: a stripped non-blank name, an address with exactly one '@', an age in 0..150. */
  predicate WellFormedValidated(v: Validated) {
    NameWellFormed(v.name) && EmailWellFormed(v.email) && AgeWellFormed(v.age)
  }

  lemma {:induction false} StoredNameTrimmed(fields: map<string, Json>)
    ensures NameWellFormed(ValueOf(NameRule(fields)))
  {
    if NameRule(fields).Accepted? {
      StripTrimmed(NameRule(fields).value);
    }
  }

  lemma {:induction false} StoredEmailSplits(fields: map<string, Json>)
    ensures EmailWellFormed(ValueOf(EmailRule(fields)))
  {
    if EmailRule(fields).Accepted? {
      EmailDomainIsAfterAt(fields["email"].s);
    }
  }

  /** The fields a dictionary validates to are well formed. */
  lemma {:induction false} FieldValuesWellFormed(fields: map<string, Json>)
    ensures WellFormedValidated(FieldValues(fields))
  {
    StoredNameTrimmed(fields);
    StoredEmailSplits(fields);
  }

  /** Every record a truthy input validates to is well formed. */
  lemma {:induction false} ValidatedIsWellFormed(st: WorkflowState, parse: string -> Option<Json>)
    requires Truthy(st.inputData)
    ensures WellFormedValidated(Validate(st, parse).validatedData)
  {
    var data := ParseInput(st.inputData, parse).0;
    if data.JObject? {
      FieldValuesWellFormed(data.fields);
    }
  }

  /**
   * The workflow never raises.  It ends "processing_skipped" exactly when
   * validation recorded an error, and "processing_completed" otherwise.
   */
  lemma {:induction false} WorkflowOutcome(inputData: Json, parse: string -> Option<Json>, hashText: Validated -> string)
    ensures RunWorkflow(inputData, parse, hashText).Ok?
    ensures var r := RunWorkflow(inputData, parse, hashText).value;
      && r.errors == Validate(InitialState(inputData), parse).errors
      && (r.status == PROCESSING_SKIPPED <==> r.errors != [])
      && (r.status == PROCESSING_COMPLETED <==> r.errors == [])
  {
    var v := Validate(InitialState(inputData), parse);
    if Truthy(inputData) {
      ValidatedIsWellFormed(InitialState(inputData), parse);
    }
  }

  /**
   * For a passing state whose stored address came from a matching `email`,
   * `email_domain` is the lowered text after that address's only '@' and
   * `email_normalized` is the stored address itself.
   */
  lemma {:induction false} EmailDomainOutcome(st: WorkflowState, hashText: Validated -> string, email: string)
    requires st.status != VALIDATION_FAILED && EmailMatches(email)
    requires st.validatedData.email == Some(Lower(email))
    ensures '@' in email
    ensures Process(st, hashText).Ok?
    ensures Process(st, hashText).value.processedData.emailDomain == Some(Lower(email[IndexOf(email, '@') + 1..]))
    ensures Process(st, hashText).value.processedData.emailNormalized == Some(Lower(email))
  {
    EmailDomainIsAfterAt(email);
  }

  /** "JOHN.DOE@EXAMPLE.COM", written as its local part, '@', domain label, '.' and top-level label. */
  const EXAMPLE_EMAIL: string := "JOHN.DOE" + "@" + "EXAMPLE" + "." + "COM"

  const EXAMPLE_FIELDS: map<string, Json> := map["name" := JStr("john doe"), "email" := JStr(EXAMPLE_EMAIL), "age" := JInt(30)]

  /** The input of the example run at the end of langgraph_agent.py. */
  const EXAMPLE_INPUT: Json := JObject(EXAMPLE_FIELDS)

  /** An address put together from a local part, a domain label and a top-level label of two or more letters matches. */
  lemma {:induction false} AssembledAddressMatches(user: string, host: string, top: string)
    requires user != [] && AllChars(user, IsLocalChar)
    requires host != [] && AllChars(host, IsDomainChar)
    requires |top| >= 2 && AllChars(top, IsLetter)
    ensures CoreMatch(user + "@" + host + "." + top)
  {
    var s := user + "@" + host + "." + top;
    var i, j := |user|, |user| + 1 + |host|;
    assert s[..i] == user;
    assert s[i + 1..j] == host;
    assert s[j + 1..] == top;
    CoreMatchComplete(s, i, j);
  }

  /** The example address matches the pattern. */
  lemma {:induction false} ExampleEmailMatches()
    ensures EmailMatches(EXAMPLE_EMAIL)
  {
    assert AllChars("JOHN.DOE", IsLocalChar);
    assert AllChars("EXAMPLE", IsDomainChar);
    assert AllChars("COM", IsLetter);
    AssembledAddressMatches("JOHN.DOE", "EXAMPLE", "COM");
  }

  lemma {:induction false} ExampleNamePasses()
    ensures NameRule(EXAMPLE_FIELDS) == Accepted("john doe")
  {
    StripTrimmed("john doe");
  }

  lemma {:induction false} ExampleEmailLowered()
    ensures Lower(EXAMPLE_EMAIL) == "john.doe@example.com"
  {
  }

  lemma {:induction false} ExampleEmailPasses()
    ensures EmailRule(EXAMPLE_FIELDS) == Accepted("john.doe@example.com")
  {
    ExampleEmailMatches();
    ExampleEmailLowered();
  }

  lemma {:induction false} ExampleAgePasses()
    ensures AgeRule(EXAMPLE_FIELDS) == Accepted(30)
  {
  }

  /** What the example input validates to. */
  const EXAMPLE_VALIDATED: Validated := Validated(Some("john doe"), Some("john.doe@example.com"), Some(30))

  /** The example input passes validation with every field stored. */
  lemma {:induction false} ExampleValidation(parse: string -> Option<Json>)
    ensures Validate(InitialState(EXAMPLE_INPUT), parse) ==
      WorkflowState(EXAMPLE_INPUT, EXAMPLE_VALIDATED, NO_PROCESSED, [], VALIDATION_PASSED)
  {
    assert "name" in EXAMPLE_FIELDS;
    DictInputOutcome(InitialState(EXAMPLE_INPUT), parse, EXAMPLE_FIELDS);
    ExampleNamePasses();
    ExampleEmailPasses();
    ExampleAgePasses();
  }

  lemma {:induction false} ExampleTitle()
    ensures Title("john doe") == "John Doe"
  {
    var r := Title("john doe");
    assert r[0] == 'J' && r[1] == 'o' && r[2] == 'h' && r[3] == 'n';
    assert r[4] == ' ' && r[5] == 'D' && r[6] == 'o' && r[7] == 'e';
  }

  lemma {:induction false} ExampleDomain()
    ensures Split("john.doe@example.com", '@') == ["john.doe", "example.com"]
  {
    SplitOnce("john.doe", "example.com", '@');
    assert "john.doe" + ['@'] + "example.com" == "john.doe@example.com";
  }

  /** Processing the validated example derives every output field. */
  lemma {:induction false} ExampleProcessing(hashText: Validated -> string)
    ensures var st := WorkflowState(EXAMPLE_INPUT, EXAMPLE_VALIDATED, NO_PROCESSED, [], VALIDATION_PASSED);
      Process(st, hashText) == Ok(st.(processedData := Processed(
        Some("John Doe"), Some(8), Some("example.com"), Some("john.doe@example.com"), Some("adult"), Some(30),
        Some(PROCESSING_TIMESTAMP), Some("user_" + hashText(EXAMPLE_VALIDATED))), status := PROCESSING_COMPLETED))
  {
    ExampleTitle();
    ExampleDomain();
  }

  /** The example run at the end of langgraph_agent.py. */
  lemma {:induction false} DocumentedExample(parse: string -> Option<Json>, hashText: Validated -> string)
    ensures var r := RunWorkflow(EXAMPLE_INPUT, parse, hashText);
      && r.Ok?
      && r.value.errors == []
      && r.value.validatedData == EXAMPLE_VALIDATED
      && r.value.processedData.fullName == Some("John Doe")
      && r.value.processedData.nameLength == Some(8)
      && r.value.processedData.emailDomain == Some("example.com")
      && r.value.processedData.ageGroup == Some("adult")
      && r.value.status == PROCESSING_COMPLETED
  {
    ExampleValidation(parse);
    ExampleProcessing(hashText);
  }
}
