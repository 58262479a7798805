/**
 * Tool dispatch: runs one tool call the language model asked for and returns
 * its result together with the text it contributes to the final response.
 *
 * The two tools are the Cloud Control operation tool and the log-query tool;
 * any other name yields an unknown-tool result. Every external service is a
 * capability passed in: the Cloud Control client of each region, the log
 * service, the narrating model, and the two JSON serialisations of a result.
 */
module Dispatcher {
  import opened Wrappers
  import opened Strings
  import opened Models
  import opened Executor
  import opened Narration

  /** Reply of filter-log-events: the matching events in provider order, or a client fault. */
  datatype LogsReply = Events(events: seq<LogEvent>) | LogsFault(fault: ClientFault)

  /** The external services one tool call can use. */
  datatype Capabilities = Capabilities(
    clients: string -> CloudControl,       // the Cloud Control client of a region
    logs: (string, int) -> LogsReply,      // error events of a log group over the last hours
    narrator: Narrator,
    dumps: ToolResult -> string,           // compact JSON
    dumpsIndented: ToolResult -> string)   // JSON indented by two spaces

  const CloudControlTool: string := "aws_cloud_control"
  const LogsTool: string := "cloudwatch_logs"

  /** The number of error events a log-query result lists. */
  const MaxLogEntries: nat := 10

  /** The default look-back window of a log query, in hours. */
  const DefaultHoursBack: int := 1

  function LogGroupName(functionName: string): string {
    "/aws/lambda/" + functionName
  }

  /**
   * Queries the error events of a Lambda function's log group. On success
   * the count is of all matching events while the list holds at most the
   * first ten, in provider order; on a fault the result carries the
   * provider's message.
   */
  function QueryCloudWatchLogs(logs: (string, int) -> LogsReply, functionName: string, hoursBack: int): (r: CloudWatchResult)
    ensures r.functionName == functionName
    ensures var reply := logs(LogGroupName(functionName), hoursBack);
      && (r.status == StatusSuccess <==> reply.Events?)
      && (reply.Events? ==>
            && r.hoursBack == Some(hoursBack)
            && r.errorCount == Some(|reply.events|)
            && r.errorLogs.Some?
            && |r.errorLogs.value| == Min(|reply.events|, MaxLogEntries)
            && r.errorLogs.value == reply.events[..|r.errorLogs.value|]
            && r.error.None?)
      && (reply.LogsFault? ==>
            r == CloudWatchResult(StatusError, functionName, None, None, None, Some(reply.fault.message)))
  {
    match logs(LogGroupName(functionName), hoursBack)
    case Events(events) =>
      var kept := events[..Min(|events|, MaxLogEntries)];
      CloudWatchResult(StatusSuccess, functionName, Some(hoursBack), Some(|events|), Some(kept), None)
    case LogsFault(f) =>
      CloudWatchResult(StatusError, functionName, None, None, None, Some(f.message))
  }

  /** A query that matches at most ten events lists all of them. */
  lemma FewEventsAllListed(logs: (string, int) -> LogsReply, functionName: string, hoursBack: int)
    requires logs(LogGroupName(functionName), hoursBack).Events?
    requires |logs(LogGroupName(functionName), hoursBack).events| <= MaxLogEntries
    ensures QueryCloudWatchLogs(logs, functionName, hoursBack).errorLogs ==
      Some(logs(LogGroupName(functionName), hoursBack).events)
  {
    var events := logs(LogGroupName(functionName), hoursBack).events;
    assert events[..|events|] == events;
  }

  /**
   * The log-query arguments, as the query's keyword parameters accept them:
   * a string function_name, an optional integer hours_back, and nothing else.
   */
  function LogsArguments(input: ToolInput): (r: Option<(string, int)>)
    ensures r.Some? <==>
      && (forall k :: k in input ==> k == "function_name" || k == "hours_back")
      && "function_name" in input && input["function_name"].Str?
      && ("hours_back" in input ==> input["hours_back"].Int?)
    ensures r.Some? ==> r.value.0 == input["function_name"].s
    ensures r.Some? ==> r.value.1 == if "hours_back" in input then input["hours_back"].i else DefaultHoursBack
  {
    if && (forall k :: k in input ==> k == "function_name" || k == "hours_back")
       && "function_name" in input && input["function_name"].Str?
       && ("hours_back" in input ==> input["hours_back"].Int?)
    then
      Some((input["function_name"].s, if "hours_back" in input then input["hours_back"].i else DefaultHoursBack))
    else
      None
  }

  /** The rendering of a validation failure: the failing fields, comma-separated. */
  function JoinFields(fields: seq<string>): string {
    if fields == [] then ""
    else if |fields| == 1 then fields[0]
    else fields[0] + ", " + JoinFields(fields[1..])
  }

  /**
   * The error result for input that failed validation, built from the raw
   * arguments: operation "unknown" when absent, resource type "unknown" when
   * absent. The result record itself only accepts an operation name and a
   * string resource type, so any other raw value cannot be recorded (None).
   */
  function ValidationErrorResult(input: ToolInput, fields: seq<string>): (r: Option<OperationResult>)
    ensures r.Some? <==>
      && Get(input, "operation").Some? && Get(input, "operation").value.Str?
      && ParseOperation(Get(input, "operation").value.s).Some?
      && (Get(input, "resource_type").None? || Get(input, "resource_type").value.Str?)
    ensures r.Some? ==>
      && WellFormed(r.value)
      && r.value.status == StatusError
      && OperationName(r.value.operation) == input["operation"].s
      && r.value.resourceType == (if "resource_type" in input then input["resource_type"].s else "unknown")
      && r.value.error == Some("Validation error: " + JoinFields(fields))
  {
    var rt := match Get(input, "resource_type")
              case None => Some("unknown")
              case Some(Str(s)) => Some(s)
              case Some(_) => None;
    match Get(input, "operation")
    case Some(Str(s)) =>
      (match ParseOperation(s)
       case Some(op) =>
         if rt.Some? then
           Some(NewResult(StatusError, op, rt.value).(error := Some("Validation error: " + JoinFields(fields))))
         else None
       case None => None)
    case _ => None
  }

  /** What one tool call produced: its result, its text for the response, and the provider requests made. */
  datatype ToolOutcome = ToolOutcome(result: ToolResult, text: string, calls: seq<Request>)

  const SummaryHeader: string := "\n\nAI Summary:\n"
  const LogsHeader: string := "\n\nCloudWatch Logs Result:\n"

  function UnknownToolText(name: string): string {
    "\n\nError: Unknown tool '" + name + "'"
  }

  /** The result of the Cloud Control tool before narration: validated and executed, or the validation error. */
  function CloudControlResult(caps: Capabilities, input: ToolInput): (r: Result<Executed, Fault>)
    ensures r.Ok? ==> WellFormed(r.value.result) && |r.value.calls| <= 1
    ensures ValidateResourceInput(input).Err? ==>
      && (r.Ok? ==> r.value.calls == [] && r.value.result.status == StatusError)
      && (r.Err? <==> ValidationErrorResult(input, ValidateResourceInput(input).error).None?)
      && (r.Err? ==> r.error == ResultValidationError)
    ensures ValidateResourceInput(input).Ok? ==>
      var v := ValidateResourceInput(input).value;
      && r.Ok?
      && r.value.result.operation == v.operation
      && r.value.result.resourceType == v.resourceType
      && (NeedsIdentifier(v.operation) && v.identifier.None? ==> r.value.calls == [])
  ensures ValidateResourceInput(input).Ok? ==>
      var v := ValidateResourceInput(input).value;
      r == Ok(Execute(caps.clients(v.region), v.operation, v.resourceType, v.identifier, v.properties,
                      v.maxResults, v.nextToken))
  {
    match ValidateResourceInput(input)
    case Ok(v) =>
      Ok(Execute(caps.clients(v.region), v.operation, v.resourceType, v.identifier, v.properties,
                 v.maxResults, v.nextToken))
    case Err(fields) =>
      match ValidationErrorResult(input, fields)
      case Some(res) => Ok(Executed(res, []))
      case None => Err(ResultValidationError)
  }

  /**
   * Runs one tool call. The Cloud Control tool validates its input and
   * executes the operation; the log-query tool queries the logs and also
   * shows the indented result. Both narrate their result after it. Any
   * other tool name gives an unknown-tool result, without using any service.
   */
  function ExecuteTool(caps: Capabilities, name: string, input: ToolInput, question: string): (r: Result<ToolOutcome, Fault>)
    ensures name != CloudControlTool && name != LogsTool ==>
      r == Ok(ToolOutcome(UnknownToolOutput("Unknown tool: " + name), UnknownToolText(name), []))
    ensures name == LogsTool && LogsArguments(input).None? ==> r == Err(ArgumentError)
    ensures name == CloudControlTool && CloudControlResult(caps, input).Ok? ==>
      var e := CloudControlResult(caps, input).value;
      var n := GenerateSummary(caps.narrator, caps.dumpsIndented, name, OperationOutput(e.result), question);
      && (r.Ok? <==> n.Ok?)
      && (r.Ok? ==> r.value == ToolOutcome(OperationOutput(e.result), SummaryHeader + n.value, e.calls))
      && (r.Err? ==> r.error == n.error)
    ensures name == CloudControlTool && CloudControlResult(caps, input).Err? ==>
      r == Err(CloudControlResult(caps, input).error)
    ensures name == LogsTool && LogsArguments(input).Some? ==>
      var args := LogsArguments(input).value;
      var result := LogsOutput(QueryCloudWatchLogs(caps.logs, args.0, args.1));
      var n := GenerateSummary(caps.narrator, caps.dumpsIndented, name, result, question);
      && (r.Ok? <==> n.Ok?)
      && (r.Ok? ==> r.value == ToolOutcome(result, LogsHeader + caps.dumpsIndented(result) + SummaryHeader + n.value, []))
      && (r.Err? ==> r.error == n.error)
    ensures r.Ok? && r.value.result.OperationOutput? ==>
      name == CloudControlTool && StartsWith(r.value.text, SummaryHeader)
    ensures r.Ok? && r.value.result.LogsOutput? ==> name == LogsTool && StartsWith(r.value.text, LogsHeader)
    ensures r.Ok? && name == CloudControlTool ==> r.value.result.OperationOutput? && WellFormed(r.value.result.op)
    ensures r.Ok? ==> |r.value.calls| <= 1
  {
    if name == CloudControlTool then
      match CloudControlResult(caps, input)
      case Err(f) => Err(f)
      case Ok(e) =>
        var result := OperationOutput(e.result);
        match GenerateSummary(caps.narrator, caps.dumpsIndented, name, result, question)
        case Err(f) => Err(f)
        case Ok(summary) =>
          AffixesOfConcat(SummaryHeader, summary);
          Ok(ToolOutcome(result, SummaryHeader + summary, e.calls))
    else if name == LogsTool then
      match LogsArguments(input)
      case None => Err(ArgumentError)
      case Some(args) =>
        var result := LogsOutput(QueryCloudWatchLogs(caps.logs, args.0, args.1));
        match GenerateSummary(caps.narrator, caps.dumpsIndented, name, result, question)
        case Err(f) => Err(f)
        case Ok(summary) =>
          AffixesOfConcat(LogsHeader, caps.dumpsIndented(result) + SummaryHeader + summary);
          Ok(ToolOutcome(result, LogsHeader + caps.dumpsIndented(result) + SummaryHeader + summary, []))
    else
      Ok(ToolOutcome(UnknownToolOutput("Unknown tool: " + name), UnknownToolText(name), []))
  }

  // ---------------------------------------------------------------------
  // Properties of tool dispatch
  // ---------------------------------------------------------------------

  /** An unknown tool uses no service: its outcome is the same whatever the capabilities are. */
  lemma UnknownToolIgnoresServices(caps1: Capabilities, caps2: Capabilities, name: string, input: ToolInput, question: string)
    requires name != CloudControlTool && name != LogsTool
    ensures ExecuteTool(caps1, name, input, question) == ExecuteTool(caps2, name, input, question)
    ensures var r := ExecuteTool(caps1, name, input, question);
      r.Ok? && EndsWith(r.value.text, "'") && r.value.calls == []
  {
    AffixesOfConcat("\n\nError: Unknown tool '" + name, "'");
  }

  /**
   * Input that fails validation never reaches the provider: the call either
   * returns a validation-error result naming every failing field, or raises
   * because that error result cannot be built from the raw arguments.
   */
  lemma InvalidInputMakesNoProviderCall(caps: Capabilities, input: ToolInput, question: string)
    requires ValidateResourceInput(input).Err?
    ensures var r := ExecuteTool(caps, CloudControlTool, input, question);
      && (r.Ok? ==>
            && r.value.calls == []
            && r.value.result.op.status == StatusError
            && r.value.result.op.error == Some("Validation error: " + JoinFields(ValidateResourceInput(input).error)))
      && (r == Err(ResultValidationError) <==> ValidationErrorResult(input, ValidateResourceInput(input).error).None?)
  {
  }

  /**
   * A missing operation makes the tool call raise: the stand-in "unknown" is
   * not an operation the result record accepts.
   */
  lemma MissingOperationRaises(caps: Capabilities, input: ToolInput, question: string)
    requires "operation" !in input
    ensures ExecuteTool(caps, CloudControlTool, input, question) == Err(ResultValidationError)
  {
    assert CheckOperation(Get(input, "operation")).Err?;
  }

  /**
   * The only fault a Cloud Control tool call raises for a valid input is a
   * failed summary, and only for a successful operation.
   */
  lemma ValidCallRaisesOnlyOnSummary(caps: Capabilities, input: ToolInput, question: string)
    requires ValidateResourceInput(input).Ok?
    requires ExecuteTool(caps, CloudControlTool, input, question).Err?
    ensures ExecuteTool(caps, CloudControlTool, input, question).error.ToolExecutionError?
    ensures var v := ValidateResourceInput(input).value;
      Execute(caps.clients(v.region), v.operation, v.resourceType, v.identifier, v.properties,
              v.maxResults, v.nextToken).result.status == StatusSuccess
  {
    var v := ValidateResourceInput(input).value;
    var e := Execute(caps.clients(v.region), v.operation, v.resourceType, v.identifier, v.properties,
                     v.maxResults, v.nextToken);
    assert CloudControlResult(caps, input) == Ok(e);
    assert GenerateSummary(caps.narrator, caps.dumpsIndented, CloudControlTool, OperationOutput(e.result), question).Err?;
    SummaryFailureNamesApi(caps.narrator, caps.dumpsIndented, CloudControlTool, OperationOutput(e.result), question);
  }

  /**
   * A validated list request reaches the provider with exactly the page size
   * asked for, in the region asked for: validation already keeps the size
   * within the provider's maximum.
   */
  lemma ValidatedListSendsRequestedSize(caps: Capabilities, input: ToolInput)
    requires ValidateResourceInput(input).Ok? && ValidateResourceInput(input).value.operation == List
    ensures var v := ValidateResourceInput(input).value;
      && v.region in ValidRegions
      && CloudControlResult(caps, input).Ok?
      && CloudControlResult(caps, input).value.calls ==
           [ListResources(v.resourceType, v.maxResults, if Truthy(v.nextToken) then v.nextToken else None)]
  {
    ValidatedInputBounds(input);
  }
}
