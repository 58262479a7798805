/**
 * The request and response models: the enumerations, the tool-input
 * validator for Cloud Control operations (resource-type shape, safe
 * identifier characters, region allow-list, result-count bounds), the chat
 * request bounds, and the result records the agent builds.
 *
 * Every string field of a validated model is stripped of surrounding
 * whitespace before its length bounds and its validator are applied, and the
 * stripped value is what the model keeps.
 */
module Models {
  import opened Wrappers
  import opened Strings

  // ---------------------------------------------------------------------
  // Enumerations
  // ---------------------------------------------------------------------

  datatype Role = User | Assistant

  /** Status of an operation result: "success" or "error". */
  datatype ResultStatus = StatusSuccess | StatusError

  datatype Operation = Create | Read | Update | Delete | List

  /** The six statuses Cloud Control reports for an asynchronous request. */
  datatype ProgressStatus = Pending | InProgress | Success | Failed | CancelInProgress | CancelComplete

  function RoleName(r: Role): string {
    match r
    case User => "user"
    case Assistant => "assistant"
  }

  function ParseRole(s: string): (r: Option<Role>)
    ensures r.Some? <==> (s == "user" || s == "assistant")
    ensures r.Some? ==> RoleName(r.value) == s
  {
    if s == "user" then Some(User)
    else if s == "assistant" then Some(Assistant)
    else None
  }

  function OperationName(op: Operation): string {
    match op
    case Create => "create"
    case Read => "read"
    case Update => "update"
    case Delete => "delete"
    case List => "list"
  }

  const OperationNames: seq<string> := ["create", "read", "update", "delete", "list"]

  function ParseOperation(s: string): (r: Option<Operation>)
    ensures r.Some? <==> s in OperationNames
    ensures r.Some? ==> OperationName(r.value) == s
  {
    if s == "create" then Some(Create)
    else if s == "read" then Some(Read)
    else if s == "update" then Some(Update)
    else if s == "delete" then Some(Delete)
    else if s == "list" then Some(List)
    else None
  }

  /** Every operation's name is accepted, and parsing gives the operation back. */
  lemma OperationNameRoundTrip(op: Operation)
    ensures OperationName(op) in OperationNames
    ensures ParseOperation(OperationName(op)) == Some(op)
  {
  }

  // ---------------------------------------------------------------------
  // Tool arguments and documents
  // ---------------------------------------------------------------------

  /** A JSON value inside a property document, kept as its serialisation. */
  datatype Value = Value(json: string)

  /** One top-level key of a property document, in the document's key order. */
  datatype Prop = Prop(key: string, value: Value)

  /**
   * A property mapping as its key/value pairs in key order. A mapping has
   * distinct keys; the sequence does not enforce this, and every operation
   * on it treats the pairs one by one in order.
   */
  type Props = seq<Prop>

  /** A property document returned by the provider, after JSON parsing. */
  datatype Document = Document(json: string)

  /** A tool argument as the text-generation service sends it. */
  datatype Arg = Str(s: string) | Int(i: int) | Obj(props: Props) | Null | OtherJson(json: string)

  type ToolInput = map<string, Arg>

  function Get(input: ToolInput, key: string): (r: Option<Arg>)
    ensures r.Some? <==> key in input
    ensures r.Some? ==> r.value == input[key]
  {
    if key in input then Some(input[key]) else None
  }

  // ---------------------------------------------------------------------
  // Character classes of the two patterns
  // ---------------------------------------------------------------------

  predicate IsAsciiAlnum(c: char) {
    ('a' <= c <= 'z') || ('A' <= c <= 'Z') || ('0' <= c <= '9')
  }

  /** Letters, digits, '_', '-', ':', '.' and '/'. */
  predicate IsSafeIdentifierChar(c: char) {
    IsAsciiAlnum(c) || c == '_' || c == '-' || c == ':' || c == '.' || c == '/'
  }

  predicate AllAsciiAlnum(s: string) {
    forall i :: 0 <= i < |s| ==> IsAsciiAlnum(s[i])
  }

  /** The pattern `AWS::[A-Za-z0-9]+::[A-Za-z0-9]+`, matched over the whole string by scanning. */
  predicate MatchesResourceTypePattern(s: string) {
    && StartsWith(s, "AWS::")
    && var j := RunEnd(s, 5, IsAsciiAlnum);
    && 5 < j && j + 2 <= |s| && s[j..j + 2] == "::"
    && var k := RunEnd(s, j + 2, IsAsciiAlnum);
    && j + 2 < k && k == |s|
  }

  /** The resource-type shape, stated declaratively: AWS::<Service>::<Resource>. */
  ghost predicate IsResourceTypeShape(s: string) {
    exists service: string, resource: string
      | service != [] && resource != [] && AllAsciiAlnum(service) && AllAsciiAlnum(resource)
      :: s == "AWS::" + service + "::" + resource
  }

  /** The scanner accepts exactly the strings of the declarative shape. */
  lemma ResourceTypePatternCorrect(s: string)
    ensures MatchesResourceTypePattern(s) <==> IsResourceTypeShape(s)
  {
    if MatchesResourceTypePattern(s) {
      ResourceTypePatternSound(s);
    }
    if IsResourceTypeShape(s) {
      ResourceTypePatternComplete(s);
    }
  }

  /** A string the scanner accepts splits into AWS::, a service, :: and a resource name. */
  lemma ResourceTypePatternSound(s: string)
    requires MatchesResourceTypePattern(s)
    ensures IsResourceTypeShape(s)
  {
    var j := RunEnd(s, 5, IsAsciiAlnum);
    var service, resource := s[5..j], s[j + 2..];
    assert AllAsciiAlnum(service);
    assert AllAsciiAlnum(resource) by {
      forall i | 0 <= i < |resource| ensures IsAsciiAlnum(resource[i]) {
        assert resource[i] == s[j + 2 + i];
      }
    }
    assert s == "AWS::" + service + "::" + resource;
  }

  /** Every string of the declarative shape is accepted by the scanner. */
  lemma ResourceTypePatternComplete(s: string)
    requires IsResourceTypeShape(s)
    ensures MatchesResourceTypePattern(s)
  {
    var service: string, resource: string :|
      service != [] && resource != [] && AllAsciiAlnum(service) && AllAsciiAlnum(resource)
      && s == "AWS::" + service + "::" + resource;
    var j := 5 + |service|;
    assert s[..5] == "AWS::";
    forall k | 5 <= k < j ensures IsAsciiAlnum(s[k]) {
      assert s[k] == service[k - 5];
    }
    assert s[j] == ':';
    RunEndAt(s, 5, j, IsAsciiAlnum);
    assert s[j..j + 2] == "::";
    forall k | j + 2 <= k < |s| ensures IsAsciiAlnum(s[k]) {
      assert s[k] == resource[k - j - 2];
    }
    RunEndAt(s, j + 2, |s|, IsAsciiAlnum);
  }

  /** Every string of the resource-type shape is at least nine characters long. */
  lemma ResourceTypeShapeLength(s: string)
    requires IsResourceTypeShape(s)
    ensures |s| >= 9
  {
    var service: string, resource: string :|
      service != [] && resource != [] && AllAsciiAlnum(service) && AllAsciiAlnum(resource)
      && s == "AWS::" + service + "::" + resource;
  }

  /** The pattern `[a-zA-Z0-9_\-:./]+`, matched over the whole string by scanning. */
  predicate MatchesSafeIdentifierPattern(s: string) {
    s != [] && RunEnd(s, 0, IsSafeIdentifierChar) == |s|
  }

  lemma SafeIdentifierPatternCorrect(s: string)
    ensures MatchesSafeIdentifierPattern(s)
      <==> (s != [] && forall i :: 0 <= i < |s| ==> IsSafeIdentifierChar(s[i]))
  {
    if s != [] && forall i :: 0 <= i < |s| ==> IsSafeIdentifierChar(s[i]) {
      RunEndAt(s, 0, |s|, IsSafeIdentifierChar);
    }
  }

  // ---------------------------------------------------------------------
  // Field bounds of the Cloud Control tool input
  // ---------------------------------------------------------------------

  const ResourceTypeMinLength: nat := 5
  const ResourceTypeMaxLength: nat := 100
  const IdentifierMaxLength: nat := 2048
  const MaxResultsLow: int := 1
  const MaxResultsHigh: int := 100
  const DefaultMaxResults: int := 20
  const DefaultRegion: string := "us-east-1"

  const ValidRegions: seq<string> := [
    "us-east-1", "us-east-2", "us-west-1", "us-west-2",
    "eu-west-1", "eu-west-2", "eu-west-3", "eu-central-1", "eu-north-1",
    "ap-northeast-1", "ap-northeast-2", "ap-northeast-3",
    "ap-southeast-1", "ap-southeast-2", "ap-south-1",
    "sa-east-1", "ca-central-1", "me-south-1", "af-south-1"
  ]

  /** The allow-list has nineteen distinct codes, and the default region is one of them. */
  lemma RegionListFacts()
    ensures |ValidRegions| == 19
    ensures DefaultRegion in ValidRegions
    ensures forall i, j :: 0 <= i < j < |ValidRegions| ==> ValidRegions[i] != ValidRegions[j]
  {
  }

  ghost predicate ValidResourceType(t: string) {
    ResourceTypeMinLength <= |t| <= ResourceTypeMaxLength && IsResourceTypeShape(t)
  }

  predicate ValidIdentifier(t: string) {
    t != [] && |t| <= IdentifierMaxLength
    && forall i :: 0 <= i < |t| ==> IsSafeIdentifierChar(t[i])
  }

  // Each field check takes the argument as given (None when the key is
  // absent) and yields the field's value or, on a validation failure, the
  // field's name.

  function CheckOperation(a: Option<Arg>): (r: Result<Operation, string>)
    ensures r.Ok? <==> (a.Some? && a.value.Str? && a.value.s in OperationNames)
    ensures r.Ok? ==> OperationName(r.value) == a.value.s
  {
    match a
    case Some(Str(s)) =>
      (match ParseOperation(s)
       case Some(op) => Ok(op)
       case None => Err("operation"))
    case _ => Err("operation")
  }

  function CheckResourceType(a: Option<Arg>): (r: Result<string, string>)
    ensures r.Ok? <==> (a.Some? && a.value.Str? && ValidResourceType(Strip(a.value.s)))
    ensures r.Ok? ==> r.value == Strip(a.value.s)
  {
    match a
    case Some(Str(s)) =>
      var t := Strip(s);
      ResourceTypePatternCorrect(t);
      if ResourceTypeMinLength <= |t| <= ResourceTypeMaxLength && MatchesResourceTypePattern(t)
      then Ok(t) else Err("resource_type")
    case _ => Err("resource_type")
  }

  function CheckIdentifier(a: Option<Arg>): (r: Result<Option<string>, string>)
    ensures (a.None? || a == Some(Null)) ==> r == Ok(None)
    ensures a.Some? && a.value.Str? ==>
      (r.Ok? <==> ValidIdentifier(Strip(a.value.s)))
      && (r.Ok? ==> r.value == Some(Strip(a.value.s)))
    ensures a.Some? && !a.value.Str? && !a.value.Null? ==> r.Err?
  {
    match a
    case None => Ok(None)
    case Some(Null) => Ok(None)
    case Some(Str(s)) =>
      var t := Strip(s);
      SafeIdentifierPatternCorrect(t);
      if |t| <= IdentifierMaxLength && MatchesSafeIdentifierPattern(t)
      then Ok(Some(t)) else Err("identifier")
    case _ => Err("identifier")
  }

  function CheckProperties(a: Option<Arg>): (r: Result<Option<Props>, string>)
    ensures r.Ok? <==> (a.None? || a.value.Null? || a.value.Obj?)
    ensures r.Ok? ==> r.value == (if a.Some? && a.value.Obj? then Some(a.value.props) else None)
  {
    match a
    case None => Ok(None)
    case Some(Null) => Ok(None)
    case Some(Obj(p)) => Ok(Some(p))
    case _ => Err("properties")
  }

  function CheckRegion(a: Option<Arg>): (r: Result<string, string>)
    ensures a.None? ==> r == Ok(DefaultRegion)
    ensures a.Some? ==> (r.Ok? <==> a.value.Str? && Strip(a.value.s) in ValidRegions)
    ensures a.Some? && r.Ok? ==> r.value == Strip(a.value.s)
    ensures r.Ok? ==> r.value in ValidRegions
  {
    match a
    case None => Ok(DefaultRegion)
    case Some(Str(s)) =>
      var t := Strip(s);
      if t in ValidRegions then Ok(t) else Err("region")
    case _ => Err("region")
  }

  function CheckMaxResults(a: Option<Arg>): (r: Result<int, string>)
    ensures a.None? ==> r == Ok(DefaultMaxResults)
    ensures a.Some? ==> (r.Ok? <==> a.value.Int? && MaxResultsLow <= a.value.i <= MaxResultsHigh)
    ensures a.Some? && r.Ok? ==> r.value == a.value.i
    ensures r.Ok? ==> MaxResultsLow <= r.value <= MaxResultsHigh
  {
    match a
    case None => Ok(DefaultMaxResults)
    case Some(Int(i)) => if MaxResultsLow <= i <= MaxResultsHigh then Ok(i) else Err("max_results")
    case _ => Err("max_results")
  }

  function CheckNextToken(a: Option<Arg>): (r: Result<Option<string>, string>)
    ensures r.Ok? <==> (a.None? || a.value.Null? || a.value.Str?)
    ensures r.Ok? ==> r.value == (if a.Some? && a.value.Str? then Some(Strip(a.value.s)) else None)
  {
    match a
    case None => Ok(None)
    case Some(Null) => Ok(None)
    case Some(Str(s)) => Ok(Some(Strip(s)))
    case _ => Err("next_token")
  }

  /** A validated Cloud Control tool input. */
  datatype ResourceInput = ResourceInput(
    operation: Operation,
    resourceType: string,
    identifier: Option<string>,
    properties: Option<Props>,
    region: string,
    maxResults: int,
    nextToken: Option<string>)

  function ErrorName<T>(r: Result<T, string>): seq<string> {
    if r.Err? then [r.error] else []
  }

  /**
   * Validates the raw tool input. Keys other than the seven fields are
   * ignored; on failure the result names every failing field, in the
   * order the fields are declared.
   */
  function ValidateResourceInput(input: ToolInput): (r: Result<ResourceInput, seq<string>>)
    ensures r.Ok? <==>
      && CheckOperation(Get(input, "operation")).Ok?
      && CheckResourceType(Get(input, "resource_type")).Ok?
      && CheckIdentifier(Get(input, "identifier")).Ok?
      && CheckProperties(Get(input, "properties")).Ok?
      && CheckRegion(Get(input, "region")).Ok?
      && CheckMaxResults(Get(input, "max_results")).Ok?
      && CheckNextToken(Get(input, "next_token")).Ok?
    ensures r.Ok? ==> r.value == ResourceInput(
      CheckOperation(Get(input, "operation")).value,
      CheckResourceType(Get(input, "resource_type")).value,
      CheckIdentifier(Get(input, "identifier")).value,
      CheckProperties(Get(input, "properties")).value,
      CheckRegion(Get(input, "region")).value,
      CheckMaxResults(Get(input, "max_results")).value,
      CheckNextToken(Get(input, "next_token")).value)
    ensures r.Err? ==> r.error != []
  {
    var op := CheckOperation(Get(input, "operation"));
    var rt := CheckResourceType(Get(input, "resource_type"));
    var id := CheckIdentifier(Get(input, "identifier"));
    var props := CheckProperties(Get(input, "properties"));
    var region := CheckRegion(Get(input, "region"));
    var maxResults := CheckMaxResults(Get(input, "max_results"));
    var token := CheckNextToken(Get(input, "next_token"));
    var errors := ErrorName(op) + ErrorName(rt) + ErrorName(id) + ErrorName(props)
      + ErrorName(region) + ErrorName(maxResults) + ErrorName(token);
    if errors == [] then
      Ok(ResourceInput(op.value, rt.value, id.value, props.value, region.value, maxResults.value, token.value))
    else
      Err(errors)
  }

  /** What every validated input satisfies, whatever the raw arguments were. */
  lemma ValidatedInputBounds(input: ToolInput)
    requires ValidateResourceInput(input).Ok?
    ensures var v := ValidateResourceInput(input).value;
      && ValidResourceType(v.resourceType)
      && (v.identifier.Some? ==> ValidIdentifier(v.identifier.value))
      && v.region in ValidRegions
      && MaxResultsLow <= v.maxResults <= MaxResultsHigh
      && Min(v.maxResults, 100) == v.maxResults
  {
  }

  // ---------------------------------------------------------------------
  // Chat request bounds
  // ---------------------------------------------------------------------

  const MessageMaxLength: nat := 10000
  const ContentMaxLength: nat := 50000
  const HistoryMaxLength: nat := 100

  datatype RawMessage = RawMessage(role: string, content: string)
  datatype ChatMessage = ChatMessage(role: Role, content: string)
  datatype ChatRequest = ChatRequest(message: string, history: seq<ChatMessage>)

  function ValidateChatMessage(m: RawMessage): (r: Option<ChatMessage>)
    ensures r.Some? <==> (m.role == "user" || m.role == "assistant") && |Strip(m.content)| <= ContentMaxLength
    ensures r.Some? ==> RoleName(r.value.role) == m.role && r.value.content == Strip(m.content)
  {
    var content := Strip(m.content);
    match ParseRole(m.role)
    case Some(role) => if |content| <= ContentMaxLength then Some(ChatMessage(role, content)) else None
    case None => None
  }

  /** Validates each element in turn with `check`; one rejected element rejects the whole sequence. */
  function ValidateEach<A, B>(check: A -> Option<B>, h: seq<A>): (r: Option<seq<B>>)
    ensures r.Some? ==> |r.value| == |h|
  {
    if h == [] then Some([])
    else
      var first := check(h[0]);
      var rest := ValidateEach(check, h[1..]);
      if first.Some? && rest.Some? then Some([first.value] + rest.value) else None
  }

  /** A sequence is accepted exactly when every element is, and each accepted element stays in its place. */
  lemma {:induction false} ValidateEachExact<A, B>(check: A -> Option<B>, h: seq<A>)
    ensures ValidateEach(check, h).Some? <==> forall i :: 0 <= i < |h| ==> check(h[i]).Some?
    ensures ValidateEach(check, h).Some? ==>
      forall i :: 0 <= i < |h| ==> ValidateEach(check, h).value[i] == check(h[i]).value
  {
    if h != [] {
      ValidateEachExact(check, h[1..]);
      assert forall i :: 1 <= i < |h| ==> h[i] == h[1..][i - 1];
    }
  }

  /** A chat history is validated message by message. */
  function ValidateHistory(h: seq<RawMessage>): (r: Option<seq<ChatMessage>>)
    ensures r.Some? <==> forall i :: 0 <= i < |h| ==> ValidateChatMessage(h[i]).Some?
    ensures r.Some? ==> |r.value| == |h| && forall i :: 0 <= i < |h| ==> r.value[i] == ValidateChatMessage(h[i]).value
  {
    ValidateEachExact(ValidateChatMessage, h);
    ValidateEach(ValidateChatMessage, h)
  }

  /** A chat request: message of 1..10000 characters once stripped, at most 100 valid history entries. */
  function ValidateChatRequest(message: string, history: seq<RawMessage>): (r: Option<ChatRequest>)
    ensures r.Some? <==>
      && 1 <= |Strip(message)| <= MessageMaxLength
      && |history| <= HistoryMaxLength
      && forall i :: 0 <= i < |history| ==> ValidateChatMessage(history[i]).Some?
    ensures r.Some? ==> r.value.message == Strip(message) && |r.value.history| == |history|
    ensures r.Some? ==> forall i :: 0 <= i < |history| ==> r.value.history[i] == ValidateChatMessage(history[i]).value
  {
    var m := Strip(message);
    if 1 <= |m| <= MessageMaxLength && |history| <= HistoryMaxLength then
      match ValidateHistory(history)
      case Some(h) => Some(ChatRequest(m, h))
      case None => None
    else None
  }

  // ---------------------------------------------------------------------
  // Result records
  // ---------------------------------------------------------------------

  /** The result of one Cloud Control operation; fields not set by a path are None. */
  datatype OperationResult = OperationResult(
    status: ResultStatus,
    operation: Operation,
    resourceType: string,
    identifier: Option<string>,
    requestToken: Option<string>,
    message: Option<string>,
    count: Option<int>,
    resources: Option<seq<Document>>,
    properties: Option<Document>,
    nextToken: Option<string>,
    error: Option<string>,
    awsResponse: Option<string>,
    awsError: Option<string>)

  function NewResult(status: ResultStatus, op: Operation, resourceType: string): OperationResult {
    OperationResult(status, op, resourceType, None, None, None, None, None, None, None, None, None, None)
  }

  /**
   * The shape every result the executor builds has: an error result carries a
   * non-empty error and a success result none, and each operation's success
   * carries its own fields (a create its non-empty token, a read the resource
   * properties, a list the resources and their count).
   */
  predicate WellFormed(r: OperationResult) {
    && (r.status == StatusError ==> r.error.Some? && r.error.value != "")
    && (r.status == StatusSuccess ==> r.error.None?)
    && (r.status == StatusSuccess && r.operation == Create ==>
          r.requestToken.Some? && r.requestToken.value != "")
    && (r.status == StatusSuccess && r.operation == Read ==> r.identifier.Some? && r.properties.Some?)
    && (r.status == StatusSuccess && r.operation == List ==>
          r.resources.Some? && r.count == Some(|r.resources.value|))
    && (r.status == StatusSuccess && (r.operation == Update || r.operation == Delete) ==> r.identifier.Some?)
  }

  /** One log event as the log service returns it (time in milliseconds since the epoch). */
  datatype LogEvent = LogEvent(timestamp: int, message: string, logStreamName: string)

  datatype CloudWatchResult = CloudWatchResult(
    status: ResultStatus,
    functionName: string,
    hoursBack: Option<int>,
    errorCount: Option<int>,
    errorLogs: Option<seq<LogEvent>>,
    error: Option<string>)

  /** Progress of an asynchronous Cloud Control request. */
  datatype OperationProgress = OperationProgress(
    requestToken: string,
    operationStatus: ProgressStatus,
    resourceType: string,
    identifier: Option<string>,
    statusMessage: Option<string>,
    errorCode: Option<string>,
    retryAfter: Option<int>)

  /** What a tool call produced, before it is serialised into the conversation. */
  datatype ToolResult =
    | OperationOutput(op: OperationResult)
    | LogsOutput(logs: CloudWatchResult)
    | UnknownToolOutput(error: string)

  /** Exceptions that escape a tool call. */
  datatype Fault =
    | ToolExecutionError(message: string)  // narration of a successful result failed
    | ResultValidationError                 // an error result could not itself be built
    | ArgumentError                         // log-query arguments did not fit its parameters
}
