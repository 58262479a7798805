# AWS agentic agent — a Dafny model

This project models the core of an agent that manages AWS infrastructure
through natural language. A user's request goes to a language model. The
model may ask for tools; the agent runs them and sends their results back.
It repeats this until the model stops asking for tools or an iteration
budget runs out.

The modelled parts:

- **Input models** (`models.dfy`): validation of a Cloud Control tool call.
  - Whitespace is stripped from string fields.
  - The operation name must be one of the five.
  - The resource type must have the shape `AWS::Service::Resource` and a length of 5 to 100.
  - An identifier must use safe characters and be at most 2048 long.
  - The region must be one of 19 listed codes.
  - The page size must be 1 to 100.
  - Chat messages and requests have their own bounds.
- **Result records** (`models.dfy`): operation results, log-query results,
  progress records and their statuses.
- **Executor** (`executor.dfy`): the five Cloud Control operations and their routing.
  - Read, update and delete without an identifier fail before any provider call.
  - An update without properties also fails before any provider call.
  - The list page size is clamped.
  - An update becomes a "replace" patch per top-level key.
  - Cloud Control client errors (`ClientError`) and replies without the expected
    ProgressEvent or token become error results.
- **Poller** (`poller.dfy`): polls an asynchronous request.
  - Backoff grows by 1.5 and is capped at 30 s.
  - A terminal status returns at once.
  - A fault returns FAILED.
  - When the wait budget is spent, it returns IN_PROGRESS with a retry hint.
- **Narration** (`narration.dfy`): the language model explains error results
  and summarises other results. A diagnosis falls back to the bare error
  text. A failed summary raises.
- **Dispatcher** (`dispatcher.dfy`): runs one tool call.
  - The Cloud Control tool validates its input, then executes.
  - The log-query tool queries a Lambda log group; it reports every error
    event in the count but lists only the first ten.
  - Any other name gives an unknown-tool result.
- **Agent loop** (`agent.dfy`): `process_request`, with its lazily loaded tool definitions.
  The walk over a reply and the loop are stated for any tool runner (a
  function from a tool's name and input to its outcome or fault); a request
  runs them with the agent's own dispatch, `Runner`, which is `ExecuteTool`
  with the request's question.

Every external service is a parameter: the Cloud Control client of each
region, the log service, the language model, and JSON serialisation. Each
executor function returns the provider requests it made, so "no provider
call" is a provable statement. The conversation history is an object that
the request method extends in place. The tool-definition cache is an object
shared by all agents.

Behaviours of the code worth noting (`src/agentic_aws/agent.py`):

- The soft-timeout retry hint is the delay after growth. With a 5-second
  budget and a 10-second initial delay, one pending poll sleeps 10 seconds
  and gives a hint of 15 (`Poller.RetryAfterIsGrownDelay`).
- The log query keeps the first ten events in the order the provider returns
  them (`Dispatcher.QueryCloudWatchLogs`).
- A successful update or delete may carry no request token: the provider's
  token is passed through as it is. A create with no properties submits an
  empty document.
- A Cloud Control tool call that fails validation raises when its raw
  operation is missing or not one of the five names, or when its raw resource
  type is present but not a string: the error record is built from those raw
  values (`Dispatcher.MissingOperationRaises`). The exception reaches the
  caller of `process_request`.

## Model

| member | source | states |
|---|---|---|
| Strings.Strip | src/agentic_aws/models.py:41 | the stripped string is a slice of the input with only whitespace removed before and after it; it has no whitespace at either end, and it is empty exactly when the input is all whitespace |
| Strings.TrimmedSlice | src/agentic_aws/models.py:41 | trimming the start and then the end leaves a slice of the input with only whitespace outside it |
| Models.ParseRole | src/agentic_aws/models.py:8 | a role parses exactly from "user" or "assistant", and the parsed role's name is the input |
| Models.ParseOperation | src/agentic_aws/models.py:10 | an operation parses exactly from one of the five names, and to the operation of that name |
| Models.OperationNameRoundTrip | src/agentic_aws/models.py:10 | every operation's name parses back to the operation |
| Models.ResourceTypePatternCorrect | src/agentic_aws/models.py:12 | the resource-type scanner accepts exactly "AWS::" + non-empty alphanumeric service + "::" + non-empty alphanumeric resource |
| Models.ResourceTypePatternSound | src/agentic_aws/models.py:12 | every string the scanner accepts has the AWS::Service::Resource shape |
| Models.ResourceTypePatternComplete | src/agentic_aws/models.py:12 | every string of the AWS::Service::Resource shape is accepted by the scanner |
| Models.ResourceTypeShapeLength | src/agentic_aws/models.py:12 | a string of that shape is at least 9 characters long |
| Models.SafeIdentifierPatternCorrect | src/agentic_aws/models.py:13 | the identifier scanner accepts exactly non-empty strings of letters, digits and `_-:./` |
| Models.RegionListFacts | src/agentic_aws/models.py:75-95 | there are 19 distinct regions, and the default region is one of them |
| Models.CheckOperation | src/agentic_aws/models.py:43 | the operation field is valid exactly when it is a string naming one of the five operations |
| Models.CheckResourceType | src/agentic_aws/models.py:44-60 | the resource type is valid exactly when its stripped value has length 5 to 100 and the `AWS::Service::Resource` shape; the value kept is the stripped one |
| Models.CheckIdentifier | src/agentic_aws/models.py:62-70 | an absent or null identifier is accepted as none; a string is accepted, stripped, exactly when the stripped value is 1 to 2048 safe characters |
| Models.CheckProperties | src/agentic_aws/models.py:48 | properties are valid exactly when absent, null or a mapping |
| Models.CheckRegion | src/agentic_aws/models.py:72-98 | an absent region defaults to us-east-1; a string is accepted exactly when its stripped value is a listed region |
| Models.CheckMaxResults | src/agentic_aws/models.py:50-52 | an absent page size defaults to 20; an integer is accepted exactly when it is 1 to 100 |
| Models.CheckNextToken | src/agentic_aws/models.py:53 | an absent or null token is none; a string is accepted, stripped |
| Models.ValidateResourceInput | src/agentic_aws/models.py:38-98 | input validates exactly when every field check passes; the validated input is built from the field values; a failure names at least one field |
| Models.ValidatedInputBounds | src/agentic_aws/models.py:38-98 | a validated input has a well-shaped resource type, a safe identifier, a listed region and a page size of 1 to 100 that the provider clamp leaves unchanged |
| Models.ValidateChatMessage | src/agentic_aws/models.py:16-22 | a message is accepted exactly with a known role and stripped content of at most 50000 characters |
| Models.ValidateHistory | src/agentic_aws/models.py:31-35 | a history is accepted exactly when every message is; the accepted history keeps each message in place |
| Models.ValidateEachExact | src/agentic_aws/models.py:31-35 | element-wise validation accepts a sequence exactly when every element passes, and keeps each validated element in its place |
| Models.ValidateEach | src/agentic_aws/models.py:31-35 | an accepted sequence has as many validated elements as the input |
| Models.ValidateChatRequest | src/agentic_aws/models.py:25-35 | a request is accepted exactly with a stripped message of 1 to 10000 characters and a valid history of at most 100 messages; the accepted history holds each validated message in its place |
| Executor.FaultResult | src/agentic_aws/agent.py:174-183 | a provider fault becomes an error result carrying the handler's prefix, the provider's message and the fault text |
| Executor.HandleCreate | src/agentic_aws/agent.py:132-183 | a create sends one request with the properties or an empty document; it succeeds exactly when the reply carries a non-empty token, which the result keeps; a missing event or token and a fault each give their own error |
| Executor.ClampMaxResults | src/agentic_aws/agent.py:196 | the page size sent is the one asked for, or 100 when more is asked |
| Executor.ParseDescriptions | src/agentic_aws/agent.py:212 | there is one document per description, in order; a missing Properties key gives "{}" |
| Executor.ListMessageMarksMore | src/agentic_aws/agent.py:214 | the list message ends with " (more available)" exactly when the provider returned a next-page token |
| Executor.HandleList | src/agentic_aws/agent.py:185-227 | a list sends one request with the clamped size and any non-empty token; on success the count equals the number of resources, and the provider's next token is passed through |
| Executor.HandleRead | src/agentic_aws/agent.py:229-262 | a read sends one request and succeeds exactly when the provider describes the resource; the result keeps its properties |
| Executor.PatchDocumentExact | src/agentic_aws/agent.py:282 | the patch has one "replace" of "/key" per property, in key order, with the property's value |
| Executor.HandleUpdate | src/agentic_aws/agent.py:264-323 | an update without properties fails with no provider call; otherwise it sends the patch and succeeds exactly when the reply has a ProgressEvent |
| Executor.HandleDelete | src/agentic_aws/agent.py:325-371 | a delete sends one request and succeeds exactly when the reply has a ProgressEvent |
| Executor.Execute | src/agentic_aws/agent.py:71-119 | every result is well formed and matches the operation and type asked for; read, update and delete with no identifier fail with no call; otherwise the operation's handler decides |
| Executor.ExecuteCallsProvider | src/agentic_aws/agent.py:91-112 | exactly one provider call is made when the identifier and properties checks pass, and none otherwise |
| Executor.MissingIdentifierMessage | src/agentic_aws/agent.py:106-112 | the missing-identifier error names the operation and says that it requires an identifier |
| Executor.CreateCarriesProviderToken | src/agentic_aws/agent.py:155-172 | a create whose reply carries a non-empty token succeeds with exactly that token |
| Executor.UpdatePatchOnePerKey | src/agentic_aws/agent.py:282-288 | an update sends a patch with one replace operation per property key |
| Poller.ObservedStatus | src/agentic_aws/agent.py:401-404 | a missing event or status counts as PENDING; otherwise the reported status is used |
| Poller.NextDelay | src/agentic_aws/agent.py:423 | the next delay is exactly the smaller of 1.5 times the current one and the 30 s ceiling; it stays positive and never shrinks below a delay within the ceiling |
| Poller.DelayAfterBounds | src/agentic_aws/agent.py:394-423 | every delay stays positive; after the first growth, every delay is within 30 s |
| Poller.DelaysNonDecreasing | src/agentic_aws/agent.py:423 | from an initial delay within the ceiling, the delays never decrease |
| Poller.PollOperationStatus | src/agentic_aws/agent.py:373-442 | the polling loop returns exactly the record, time slept and poll count of the recursive poller specification |
| Poller.PollFromOutcome | src/agentic_aws/agent.py:398-442 | a run ends either terminal or failed before the budget is spent, after only non-terminal polls, or it times out after sleeping past the budget with retry_after equal to the grown delay; it never oversleeps by more than one delay |
| Poller.PollFromEnding | src/agentic_aws/agent.py:398-434 | a run that makes no poll times out; a run that ends before the budget returns the record of its last reply: FAILED with "Failed to poll status: " and the fault's message and code, or the terminal status with the provider's type, identifier, message and code |
| Poller.PollOutcome | src/agentic_aws/agent.py:394-442 | the same facts from the initial state; the time slept is the sum of the delays; a retry hint after any poll is at most 30; an early end returns the record of the last reply |
| Poller.TerminalReturnsAtOnce | src/agentic_aws/agent.py:411-419 | a terminal first status is returned at once with the provider's type, identifier, message and code, without sleeping |
| Poller.FaultFailsAtOnce | src/agentic_aws/agent.py:425-434 | a status-query fault gives FAILED with "Failed to poll status: " and the provider's message and code, after one query |
| Poller.NeverTerminalTimesOut | src/agentic_aws/agent.py:436-442 | a request that never becomes terminal ends in the IN_PROGRESS soft timeout, with retry_after the last computed delay |
| Poller.RetryAfterIsGrownDelay | src/agentic_aws/agent.py:421-441 | with a 5 s budget and a 10 s initial delay, one pending poll sleeps 10 s and gives retry_after 15 |
| Poller.NoBudgetNoPoll | src/agentic_aws/agent.py:398-442 | with no budget, no query is made, and the hint is the initial delay, truncated |
| Narration.DiagnosisRequest | src/agentic_aws/agent.py:506-511 | the diagnosis prompt gets the operation, type and message unchanged; a present non-empty code is passed unchanged, and a missing or empty code becomes "Not provided" |
| Narration.DiagnoseError | src/agentic_aws/agent.py:487-523 | a diagnosis is the model's text, or on any model failure exactly "Error: " followed by the error message |
| Narration.ErrorReportOf | src/agentic_aws/agent.py:527-533 | an operation error is reported with its operation, type, error and provider error text; a log-query error with "unknown" fields and no code |
| Narration.GenerateSummary | src/agentic_aws/agent.py:525-553 | an error result never raises; any other result is summarised from its indented JSON, and a connection or status failure raises with its own prefix |
| Narration.ErrorResultIsDiagnosed | src/agentic_aws/agent.py:527-533 | the narration of an error result is exactly its diagnosis, or the "Error: " fallback |
| Narration.SummaryFailureNamesApi | src/agentic_aws/agent.py:550-553 | only a failed summary of a non-error result raises, and it raises a tool execution error naming the model API |
| Dispatcher.QueryCloudWatchLogs | src/agentic_aws/agent.py:444-485 | the query reads the function's log group; success counts every event and lists the first min(10, count) in provider order; a fault gives an error result with the provider's message |
| Dispatcher.FewEventsAllListed | src/agentic_aws/agent.py:476 | when at most ten events match, all are listed |
| Dispatcher.LogsArguments | src/agentic_aws/agent.py:444 | log-query arguments are accepted exactly as a string function_name, an optional integer hours_back defaulting to 1, and no other key |
| Dispatcher.ValidationErrorResult | src/agentic_aws/agent.py:573-579 | a validation-error result can be built exactly when the raw operation is a valid name and the raw resource type is absent or a string; it carries "Validation error: " and the failing fields |
| Dispatcher.CloudControlResult | src/agentic_aws/agent.py:561-579 | a valid input is executed with exactly its validated operation, type, identifier, properties, page size and token, by the client of its region; an invalid one makes no provider call, and raises exactly when its error result cannot be built |
| Dispatcher.ExecuteTool | src/agentic_aws/agent.py:555-588 | an unknown tool gives its error text with no call; bad log arguments raise; an operation outcome is the executed result with "AI Summary" and its narration; a log outcome is the query of the named function over hours_back, shown as indented JSON after the log header and followed by "AI Summary" and its narration; either tool raises exactly when its narration fails, with that fault |
| Dispatcher.UnknownToolIgnoresServices | src/agentic_aws/agent.py:588 | an unknown tool's outcome does not depend on any service and makes no call |
| Dispatcher.InvalidInputMakesNoProviderCall | src/agentic_aws/agent.py:562-579 | input that fails validation makes no provider call; it returns the validation error, or raises exactly when the error record cannot be built |
| Dispatcher.MissingOperationRaises | src/agentic_aws/agent.py:574-579 | a call without an operation raises, because "unknown" is not an operation the result accepts |
| Dispatcher.ValidCallRaisesOnlyOnSummary | src/agentic_aws/agent.py:561-581 | a valid call raises only with a tool execution error, and only after a successful operation |
| Dispatcher.ValidatedListSendsRequestedSize | src/agentic_aws/agent.py:563-572 | a validated list request reaches the provider with exactly the page size asked for, in a listed region |
| AgentLoop.Kept | src/agentic_aws/agent.py:627-663 | the assistant content keeps no block other than text and tool use |
| AgentLoop.KeptConcat | src/agentic_aws/agent.py:627-663 | the kept blocks of two runs of blocks are those of the first, then those of the second |
| AgentLoop.KeptIdentity | src/agentic_aws/agent.py:627-663 | a run with only text and tool-use blocks is kept whole, unchanged and in order |
| AgentLoop.Step | src/agentic_aws/agent.py:627-663 | one block fails only when it is a tool call whose tool raises, with that fault; otherwise it keeps a text or tool-use block and adds a result id exactly for a tool call; a text block adds its text, a tool call adds the tool's text and one result holding the compact JSON of the tool's result; any other block changes nothing |
| AgentLoop.LoopStep | src/agentic_aws/agent.py:611-670 | one iteration within the budget: a model failure or a raising tool ends the run at once; a reply that does not ask for tools ends it with the reply's turns; otherwise the loop goes on from the extended history |
| AgentLoop.WalkShape | src/agentic_aws/agent.py:627-663 | a completed walk keeps the text and tool-use blocks in order and adds one result per tool call, in order |
| AgentLoop.WalkKept | src/agentic_aws/agent.py:627-663 | the assistant content of a completed walk is the kept blocks, in order |
| AgentLoop.WalkIds | src/agentic_aws/agent.py:644-663 | the results of a completed walk answer its tool calls' ids, in order |
| AgentLoop.WalkContent | src/agentic_aws/agent.py:627-663 | a completed walk's text is each block's text in order, a tool's text in place of its call, and its results are the compact JSON of each tool's result under its call's id |
| AgentLoop.ReplyContent | src/agentic_aws/agent.py:627-663 | the response text and the tool results of a reply whose tools do not raise |
| AgentLoop.ReplyPaired | src/agentic_aws/agent.py:644-663 | the tool results of a reply answer its tool calls one to one, in order |
| AgentLoop.WalkFailure | src/agentic_aws/agent.py:644-645 | a walk fails only with the fault of one of the reply's tool calls |
| AgentLoop.TextOnlyWalk | src/agentic_aws/agent.py:627-636 | a reply without tool calls never fails, and its text is the concatenation of its text blocks |
| AgentLoop.ReplyExchange | src/agentic_aws/agent.py:665-668 | a processed reply appends one exchange: the assistant turn, then a results turn exactly when tools were called |
| AgentLoop.LoopOutcome | src/agentic_aws/agent.py:611-693 | the loop runs at most the budget; a natural stop has a reason other than tool_use; the note is added exactly when the budget is used up; a model failure returns "Error: ..." text; a tool fault is raised |
| AgentLoop.LoopHistory | src/agentic_aws/agent.py:606-670 | a request only appends to the history: well-paired exchanges, one per processed reply |
| AgentLoop.ZeroBudget | src/agentic_aws/agent.py:606-684 | with no budget, the model is not asked, the history gains the user's message, and the response is the note |
| AgentLoop.ImmediateAnswer | src/agentic_aws/agent.py:606-684 | a text-only end_turn reply ends after one iteration with that text; with a budget of one, the note is added even so |
| AgentLoop.UnknownToolSpendsBudget | src/agentic_aws/agent.py:611-684 | a model that keeps calling an unknown tool uses all three iterations; seven turns are appended and the last tool text gets the note |
| AgentLoop.Conversation.AppendReply | src/agentic_aws/agent.py:665-668 | the history is extended in place by the reply's turns: the assistant turn, then the tool results turn when there are results |
| AgentLoop.ToolCache.FormatTools | src/agentic_aws/agent.py:61-69 | the cached definitions are returned when present; otherwise the file is read, cached and returned; the file is read at most once |
| AgentLoop.AgenticAgent.RunTools | src/agentic_aws/agent.py:623-663 | the block loop computes exactly the walk specification of the reply, for the tool runner it is given |
| AgentLoop.AgenticAgent.RunLoop | src/agentic_aws/agent.py:607-693 | the loop's new history and its outcome are exactly those of the loop specification from an empty response and no iteration; the tool cache stays consistent and is filled at most once |
| AgentLoop.AgenticAgent.ProcessRequest | src/agentic_aws/agent.py:590-693 | the history becomes, and the outcome is, that of the request specification: the user's message appended, then the loop with the agent's own tool dispatch |

## Left out

- Logging, the system prompt text and the prompt templates are left out. A narration request carries the values a template is filled with.
- Provider calls are oracles. JSON parsing of provider documents is left out; a document is kept as its JSON text.
  - A malformed Properties document, which would make `json.loads` raise, is not modelled.
  - A get-resource reply without ResourceDescription, which would raise KeyError, is not modelled.
- Session creation is left out. So are its ClientError path ("AWS API error: ...") and the agent's start-up connection test (`__init__`, `_test_aws_connection`); these are configuration, outside the core.
- The "Unknown operation" branch of `_execute_aws_operation` is not modelled. An operation is one of five values, and each is routed, so the branch cannot be reached.
- Log timestamps stay milliseconds since the epoch. Their rendering as local ISO times is not modelled. The look-back window is passed to the log service as hours rather than as start and end times.
- Dispatcher.LogsArguments: a non-string function_name or a non-integer hours_back is treated as an argument error before the query. The source may run the query first and fail only when it builds the result, and may accept a float hours_back.
- Dispatcher.JoinFields: the text of a validation error is the comma-separated list of failing fields. Pydantic's own message wording is not modelled.
- Models.ValidateResourceInput: pydantic's lax coercions are not modelled, for example a numeric string as max_results or an integer-valued float. Only exact types are accepted.
- Strings.Strip: Unicode White_Space characters are stripped. Normalisation and other categories Python may treat as whitespace are not modelled.
- The tool-definitions file is read once into the cache. A read or JSON failure of that file is not modelled.
- The language model's reply to the loop is a function of the conversation and the tool definitions. Its replies to narration requests come from a separate oracle. The real order of these calls is interleaved and is not observable in the model.
- Sleeping is modelled by the time it adds to the elapsed time. Times are exact reals rather than floating-point numbers.
- PollOperationStatus requires a positive initial delay. With a zero delay, a request that stays pending would be polled forever.
- Only botocore `ClientError` is caught by the Cloud Control and log handlers (`src/agentic_aws/agent.py:174`, 218, 252, 313, 361, 425, 479). Other client exceptions, such as connection, timeout or credential errors, escape to the caller of `process_request`; the provider oracles have no way to produce them, so they are not modelled.
- Models.Props: a property mapping is a sequence of key/value pairs; that its keys are distinct is not required.
- The default budget of ten iterations of `process_request` is a caller's choice: every entry point takes the budget as a parameter, and the properties hold for every budget.
- An exception from `process_request` is the Raised outcome. The model covers tool execution errors, result validation errors and argument errors.
