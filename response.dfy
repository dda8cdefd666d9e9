/** Classification of an HTTP response (handle_response) and the check of the
    tool calls in a decoded chat completion (validate_tool_calls). */
module Response {
  import opened Errors
  import opened Text
  import opened ChatTypes

  /** reqwest's StatusCode holds a three-digit code. */
  type StatusCode = s: nat | 100 <= s <= 999 witness 200

  /** StatusCode::is_success: the 2xx range. */
  predicate IsSuccess(status: StatusCode) {
    200 <= status <= 299
  }

  /** A received response: its status and the outcome of reading its body as
      text (`response.text().await`). */
  datatype HttpResponse = HttpResponse(status: StatusCode, text: Fallible<string>)

  const EmptyBodyMessage := "Empty response body"

  function DecodeFailureMessage(reason: string, body: string): string {
    "Failed to decode JSON: " + reason + ". Body was: " + body
  }

  predicate EndsWith(s: string, suffix: string) {
    |suffix| <= |s| && s[|s| - |suffix|..] == suffix
  }

  /** handle_response: reads the body, then rejects a non-2xx status with the
      body as message, then a blank body, then decodes with `decode`. Every
      failure after the body is read carries the status code. */
  function HandleResponse<T>(status: StatusCode, body: Fallible<string>, decode: string -> Fallible<T>): (r: Result<T>)
    ensures body.Failure? ==> r == Err(HttpError(body.reason))
    ensures r.Ok? <==>
      body.Success? && IsSuccess(status) && !IsBlank(body.value) && decode(body.value).Success?
    ensures r.Ok? ==> decode(body.value) == Success(r.value)
    ensures body.Success? && r.Err? ==> r.error.ApiError? && r.error.code == status
    ensures body.Success? && !IsSuccess(status) ==> r == Err(ApiError(status, body.value))
    ensures body.Success? && IsSuccess(status) && IsBlank(body.value) ==>
      r == Err(ApiError(status, EmptyBodyMessage))
    ensures body.Success? && IsSuccess(status) && !IsBlank(body.value) && r.Err? ==>
      EndsWith(r.error.message, body.value)
  {
    match body
    case Failure(e) => Err(HttpError(e))
    case Success(text) =>
      if !IsSuccess(status) then
        Err(ApiError(status, text))
      else if Trim(text) == [] then
        Err(ApiError(status, EmptyBodyMessage))
      else
        match decode(text)
        case Failure(e) => Err(ApiError(status, DecodeFailureMessage(e, text)))
        case Success(v) => Ok(v)
  }

  /** The decoder is consulted only for a 2xx response whose body is not blank:
      otherwise any two decoders give the same classification. */
  lemma DecodeOnlyNonBlankSuccess<T>(status: StatusCode, body: Fallible<string>,
                                     d1: string -> Fallible<T>, d2: string -> Fallible<T>)
    requires body.Failure? || !IsSuccess(status) || IsBlank(body.value)
    ensures HandleResponse(status, body, d1) == HandleResponse(status, body, d2)
  {
  }

  const InvalidKindPrefix := "Invalid tool call kind: "
  const InvalidKindSuffix := ". Expected 'function'"

  function InvalidKindMessage(kind: string): string {
    InvalidKindPrefix + kind + InvalidKindSuffix
  }

  /** Every tool call of a choice has kind "function". */
  predicate ChoiceCallsAreFunctions(c: Choice) {
    forall j :: 0 <= j < |CallsOf(c)| ==> CallsOf(c)[j].kind == FunctionKind
  }

  predicate AllToolCallsAreFunctions(choices: seq<Choice>) {
    forall i :: 0 <= i < |choices| ==> ChoiceCallsAreFunctions(choices[i])
  }

  /** Call `j` of choice `i` is the first call whose kind is not "function",
      scanning choices in order and, within a choice, calls in order. */
  predicate IsFirstInvalid(choices: seq<Choice>, i: int, j: int) {
    0 <= i < |choices| && 0 <= j < |CallsOf(choices[i])|
    && CallsOf(choices[i])[j].kind != FunctionKind
    && (forall k :: 0 <= k < i ==> ChoiceCallsAreFunctions(choices[k]))
    && (forall k :: 0 <= k < j ==> CallsOf(choices[i])[k].kind == FunctionKind)
  }

  /** At most one call is the first invalid one. */
  lemma FirstInvalidUnique(choices: seq<Choice>, i1: int, j1: int, i2: int, j2: int)
    requires IsFirstInvalid(choices, i1, j1) && IsFirstInvalid(choices, i2, j2)
    ensures i1 == i2 && j1 == j2
  {
  }

  /** The kind of the first call in `calls` that is not "function", if any. */
  function FirstInvalidCallKind(calls: seq<ToolCall>): (r: Option<string>)
    ensures r.None? <==> forall k :: 0 <= k < |calls| ==> calls[k].kind == FunctionKind
  {
    if calls == [] then None
    else if calls[0].kind != FunctionKind then Some(calls[0].kind)
    else FirstInvalidCallKind(calls[1..])
  }

  /** The kind of the first call, over all choices in order, that is not
      "function", if any. */
  function FirstInvalidKind(choices: seq<Choice>): (r: Option<string>)
    ensures r.None? <==> AllToolCallsAreFunctions(choices)
  {
    if choices == [] then None
    else match FirstInvalidCallKind(CallsOf(choices[0]))
      case Some(kind) => Some(kind)
      case None => FirstInvalidKind(choices[1..])
  }

  /** A kind FirstInvalidCallKind finds belongs to the first offending call. */
  lemma {:induction false} FirstInvalidCallKindIsFirst(calls: seq<ToolCall>)
    ensures FirstInvalidCallKind(calls).Some? ==>
              exists j :: 0 <= j < |calls| && calls[j].kind != FunctionKind
                && calls[j].kind == FirstInvalidCallKind(calls).value
                && forall k :: 0 <= k < j ==> calls[k].kind == FunctionKind
  {
    if calls != [] && calls[0].kind == FunctionKind {
      var rest := calls[1..];
      FirstInvalidCallKindIsFirst(rest);
      if FirstInvalidCallKind(rest).Some? {
        var j :| 0 <= j < |rest| && rest[j].kind != FunctionKind
                 && rest[j].kind == FirstInvalidCallKind(rest).value
                 && forall k :: 0 <= k < j ==> rest[k].kind == FunctionKind;
        assert calls[j + 1] == rest[j];
        assert forall k :: 0 < k < j + 1 ==> calls[k] == rest[k - 1];
      }
    }
  }

  /** A kind FirstInvalidKind finds is that of the first offending call,
      scanning choices in order and then calls in order. */
  lemma {:induction false} FirstInvalidKindIsFirst(choices: seq<Choice>)
    ensures FirstInvalidKind(choices).Some? ==>
              exists i, j :: IsFirstInvalid(choices, i, j) &&
                CallsOf(choices[i])[j].kind == FirstInvalidKind(choices).value
  {
    if choices != [] {
      var rest := choices[1..];
      FirstInvalidCallKindIsFirst(CallsOf(choices[0]));
      if FirstInvalidCallKind(CallsOf(choices[0])).Some? {
        var j :| 0 <= j < |CallsOf(choices[0])| && CallsOf(choices[0])[j].kind != FunctionKind
                 && CallsOf(choices[0])[j].kind == FirstInvalidKind(choices).value
                 && forall k :: 0 <= k < j ==> CallsOf(choices[0])[k].kind == FunctionKind;
        assert IsFirstInvalid(choices, 0, j);
      } else {
        FirstInvalidKindIsFirst(rest);
        assert forall k :: 0 < k < |choices| ==> choices[k] == rest[k - 1];
        if FirstInvalidKind(rest).Some? {
          var i, j :| IsFirstInvalid(rest, i, j) &&
                      CallsOf(rest[i])[j].kind == FirstInvalidKind(rest).value;
          assert IsFirstInvalid(choices, i + 1, j);
        }
      }
    }
  }

  /** validate_tool_calls: succeeds exactly when every tool call of every
      choice has kind "function"; otherwise reports the kind FirstInvalidKind
      finds, the one of the first offending call. */
  method ValidateToolCalls(response: ChatCompletionResponse) returns (r: Result<()>)
    ensures r.Ok? <==> AllToolCallsAreFunctions(response.choices)
    ensures r.Err? ==>
              FirstInvalidKind(response.choices).Some? &&
              r.error == SchemaValidationError(InvalidKindMessage(FirstInvalidKind(response.choices).value))
  {
    var choices := response.choices;
    var i := 0;
    while i < |choices|
      invariant 0 <= i <= |choices|
      invariant FirstInvalidKind(choices[i..]) == FirstInvalidKind(choices)
    {
      var choice := choices[i];
      assert choices[i..][0] == choice && choices[i..][1..] == choices[i + 1..];
      if choice.message.toolCalls.Some? {
        var toolCalls := choice.message.toolCalls.value;
        var j := 0;
        while j < |toolCalls|
          invariant 0 <= j <= |toolCalls|
          invariant FirstInvalidCallKind(toolCalls[j..]) == FirstInvalidCallKind(toolCalls)
        {
          assert toolCalls[j..][0] == toolCalls[j] && toolCalls[j..][1..] == toolCalls[j + 1..];
          if toolCalls[j].kind != FunctionKind {
            return Err(SchemaValidationError(InvalidKindMessage(toolCalls[j].kind)));
          }
          j := j + 1;
        }
      }
      i := i + 1;
    }
    return Ok(());
  }
}
