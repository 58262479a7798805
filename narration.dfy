/**
 * Narration of tool results by the language model: a diagnosis for an error
 * result, a summary for any other result.
 *
 * The model is an oracle from a narration request to a reply. A request
 * carries the values the prompt template is filled with; the template text
 * itself is not modelled. A diagnosis never fails (a model failure falls back
 * to the bare error message), whereas a failed summary raises.
 */
module Narration {
  import opened Wrappers
  import opened Strings
  import opened Models
  import opened Executor

  /** A reply of the language model: text, a connection failure, or an API status error. */
  datatype GenReply = Generated(text: string) | ConnectionFailure(detail: string) | StatusFailure(message: string)

  /** The values a narration prompt is filled with. */
  datatype NarrationRequest =
    | Diagnosis(operation: string, resourceType: string, errorMessage: string, errorCode: string)
    | Summary(toolName: string, resultJson: string, question: string)

  type Narrator = NarrationRequest -> GenReply

  /** The error code placeholder used when a result carries no (or an empty) code. */
  const NoErrorCode: string := "Not provided"

  /** The text a missing optional value is rendered as inside a prompt or message. */
  const NoneText: string := "None"

  /** A diagnosis request; a missing or empty error code is replaced by a placeholder. */
  function DiagnosisRequest(operation: string, resourceType: string, errorMessage: string,
                            errorCode: Option<string>): (d: NarrationRequest)
    ensures d.Diagnosis? && d.operation == operation && d.resourceType == resourceType
    ensures d.errorMessage == errorMessage
    ensures Truthy(errorCode) ==> d.errorCode == errorCode.value
    ensures !Truthy(errorCode) ==> d.errorCode == NoErrorCode
  {
    Diagnosis(operation, resourceType, errorMessage, if Truthy(errorCode) then errorCode.value else NoErrorCode)
  }

  /**
   * Asks the model to explain an error. Any model failure yields the error
   * message itself, prefixed with "Error: ".
   */
  function DiagnoseError(narrator: Narrator, operation: string, resourceType: string,
                         errorMessage: string, errorCode: Option<string>): (text: string)
    ensures var reply := narrator(DiagnosisRequest(operation, resourceType, errorMessage, errorCode));
      && (reply.Generated? ==> text == reply.text)
      && (!reply.Generated? ==> text == "Error: " + errorMessage)
  {
    match narrator(DiagnosisRequest(operation, resourceType, errorMessage, errorCode))
    case Generated(t) => t
    case _ => "Error: " + errorMessage
  }

  /** Whether a tool result reports an error (an unknown-tool result has no status, so it does not). */
  predicate IsErrorResult(r: ToolResult) {
    match r
    case OperationOutput(op) => op.status == StatusError
    case LogsOutput(logs) => logs.status == StatusError
    case UnknownToolOutput(_) => false
  }

  /** What an error result tells the diagnosis: operation, resource type, error message and error code. */
  datatype ErrorReport = ErrorReport(operation: string, resourceType: string, errorMessage: string,
                                     errorCode: Option<string>)

  /**
   * The error report of an error result. A log-query result has no
   * operation, resource type or provider error text, so "unknown" and no
   * code stand in for them; an absent error renders as "None".
   */
  function ErrorReportOf(r: ToolResult): (e: ErrorReport)
    requires IsErrorResult(r)
    ensures r.OperationOutput? ==>
      && e.operation == OperationName(r.op.operation) && e.resourceType == r.op.resourceType
      && e.errorCode == r.op.awsError
      && (r.op.error.Some? ==> e.errorMessage == r.op.error.value)
    ensures r.LogsOutput? ==>
      && e.operation == "unknown" && e.resourceType == "unknown" && e.errorCode == None
      && (r.logs.error.Some? ==> e.errorMessage == r.logs.error.value)
  {
    match r
    case OperationOutput(op) => ErrorReport(OperationName(op.operation), op.resourceType, op.error.GetOr(NoneText), op.awsError)
    case LogsOutput(logs) => ErrorReport("unknown", "unknown", logs.error.GetOr(NoneText), None)
  }

  /**
   * The narration of a tool result. An error result is diagnosed and never
   * raises; any other result is summarised from its indented JSON, and a
   * model failure then raises a tool execution error.
   */
  function GenerateSummary(narrator: Narrator, dumpsIndented: ToolResult -> string,
                           toolName: string, result: ToolResult, question: string): (r: Result<string, Fault>)
    ensures IsErrorResult(result) ==> r.Ok?
    ensures !IsErrorResult(result) ==>
      var reply := narrator(Summary(toolName, dumpsIndented(result), question));
      && (r.Ok? <==> reply.Generated?)
      && (reply.Generated? ==> r.value == reply.text)
      && (reply.ConnectionFailure? ==> r == Err(ToolExecutionError("Failed to connect to Anthropic API: " + reply.detail)))
      && (reply.StatusFailure? ==> r == Err(ToolExecutionError("Anthropic API error: " + reply.message)))
  {
    if IsErrorResult(result) then
      var e := ErrorReportOf(result);
      Ok(DiagnoseError(narrator, e.operation, e.resourceType, e.errorMessage, e.errorCode))
    else
      match narrator(Summary(toolName, dumpsIndented(result), question))
      case Generated(t) => Ok(t)
      case ConnectionFailure(detail) => Err(ToolExecutionError("Failed to connect to Anthropic API: " + detail))
      case StatusFailure(message) => Err(ToolExecutionError("Anthropic API error: " + message))
  }

  /**
   * The narration of an error result is exactly its diagnosis: the model's
   * text for the diagnosis request, or "Error: " and the result's error.
   */
  lemma ErrorResultIsDiagnosed(narrator: Narrator, dumpsIndented: ToolResult -> string,
                               toolName: string, result: ToolResult, question: string)
    requires IsErrorResult(result)
    ensures var e := ErrorReportOf(result);
      GenerateSummary(narrator, dumpsIndented, toolName, result, question) ==
        Ok(match narrator(DiagnosisRequest(e.operation, e.resourceType, e.errorMessage, e.errorCode))
           case Generated(t) => t
           case _ => "Error: " + e.errorMessage)
  {
  }

  /** A narration failure that escapes names the model API as its cause, and only a summary can fail. */
  lemma SummaryFailureNamesApi(narrator: Narrator, dumpsIndented: ToolResult -> string,
                               toolName: string, result: ToolResult, question: string)
    requires GenerateSummary(narrator, dumpsIndented, toolName, result, question).Err?
    ensures !IsErrorResult(result)
    ensures !narrator(Summary(toolName, dumpsIndented(result), question)).Generated?
    ensures var f := GenerateSummary(narrator, dumpsIndented, toolName, result, question).error;
      f.ToolExecutionError? &&
      (StartsWith(f.message, "Failed to connect to Anthropic API: ") || StartsWith(f.message, "Anthropic API error: "))
  {
    var reply := narrator(Summary(toolName, dumpsIndented(result), question));
    if reply.ConnectionFailure? {
      AffixesOfConcat("Failed to connect to Anthropic API: ", reply.detail);
    } else {
      AffixesOfConcat("Anthropic API error: ", reply.message);
    }
  }
}
