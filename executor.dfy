/**
 * The resource operation executor: routes a Cloud Control operation to its
 * handler, rejects a missing identifier or empty update properties before
 * any provider call, clamps the list page size, builds the update patch
 * document, and turns provider faults and malformed replies into error
 * results.
 *
 * The Cloud Control client of one region is an oracle: one function per API
 * call, each answering with a reply or a client fault. Every executor
 * function also returns the requests it sent, in order, so that "no provider
 * call was made" is a statement about that trace.
 */
module Executor {
  import opened Wrappers
  import opened Strings
  import opened Models

  // ---------------------------------------------------------------------
  // Provider interface
  // ---------------------------------------------------------------------

  /** A provider fault: the error message (or the exception text when there is none), the error code if any, and the exception text. */
  datatype ClientFault = ClientFault(message: string, code: Option<string>, text: string)

  /** The ProgressEvent part of a Cloud Control reply; each key may be absent. */
  datatype ProgressEvent = ProgressEvent(
    requestToken: Option<string>,
    operationStatus: Option<ProgressStatus>,
    typeName: Option<string>,
    identifier: Option<string>,
    statusMessage: Option<string>,
    errorCode: Option<string>)

  /** Reply to create, update and delete; `raw` is the reply's printed form. */
  datatype MutationReply = Accepted(event: Option<ProgressEvent>, raw: string) | MutationFault(fault: ClientFault)

  /** Reply to get-resource: the resource's property document as JSON text. */
  datatype ReadReply = Described(properties: string, raw: string) | ReadFault(fault: ClientFault)

  /** One entry of ResourceDescriptions; its Properties key may be absent. */
  datatype Description = Description(properties: Option<string>)

  /** Reply to list-resources; ResourceDescriptions and NextToken may be absent. */
  datatype ListReply =
    | Listed(descriptions: Option<seq<Description>>, nextToken: Option<string>, raw: string)
    | ListFault(fault: ClientFault)

  /** One element of an update patch document. */
  datatype PatchOp = PatchOp(op: string, path: string, value: Value)

  /** A request sent to the provider. */
  datatype Request =
    | CreateResource(typeName: string, desiredState: Props)
    | GetResource(typeName: string, identifier: string)
    | UpdateResource(typeName: string, identifier: string, patchDocument: seq<PatchOp>)
    | DeleteResource(typeName: string, identifier: string)
    | ListResources(typeName: string, maxResults: int, nextToken: Option<string>)

  /** The Cloud Control client of one region. */
  datatype CloudControl = CloudControl(
    create: (string, Props) -> MutationReply,
    get: (string, string) -> ReadReply,
    update: (string, string, seq<PatchOp>) -> MutationReply,
    delete: (string, string) -> MutationReply,
    list: (string, int, Option<string>) -> ListReply)

  /** A result together with the provider requests made to obtain it. */
  datatype Executed = Executed(result: OperationResult, calls: seq<Request>)

  const ProviderMaxResults: int := 100
  const InvalidResponse: string := "Invalid response from AWS Cloud Control API"

  /** Python truthiness of an optional string: present and non-empty. */
  predicate Truthy(s: Option<string>) {
    s.Some? && s.value != ""
  }

  function TokenOf(event: Option<ProgressEvent>): Option<string> {
    if event.Some? then event.value.requestToken else None
  }

  function FaultResult(op: Operation, rt: string, id: Option<string>, what: string, f: ClientFault): (r: OperationResult)
    ensures r.status == StatusError && r.operation == op && r.resourceType == rt && r.identifier == id
    ensures r.error == Some(what + f.message) && r.awsError == Some(f.text)
  {
    NewResult(StatusError, op, rt).(identifier := id, error := Some(what + f.message), awsError := Some(f.text))
  }

  // ---------------------------------------------------------------------
  // Handlers
  // ---------------------------------------------------------------------

  /** Create: submits the desired state (an empty document when none is given) and requires a request token back. */
  function HandleCreate(cc: CloudControl, rt: string, props: Option<Props>): (e: Executed)
    ensures e.calls == [CreateResource(rt, props.GetOr([]))]
    ensures WellFormed(e.result) && e.result.operation == Create && e.result.resourceType == rt
    ensures var reply := cc.create(rt, props.GetOr([]));
      && (e.result.status == StatusSuccess <==> reply.Accepted? && Truthy(TokenOf(reply.event)))
      && (e.result.status == StatusSuccess ==> e.result.requestToken == TokenOf(reply.event))
      && (reply.Accepted? && reply.event.None? ==> e.result.error == Some(InvalidResponse))
      && (reply.Accepted? && reply.event.Some? && !Truthy(TokenOf(reply.event)) ==>
            e.result.error == Some("No request token received from AWS"))
      && (reply.MutationFault? ==> e.result.error == Some("Failed to create resource: " + reply.fault.message))
  {
    var desired := props.GetOr([]);
    var calls := [CreateResource(rt, desired)];
    match cc.create(rt, desired)
    case MutationFault(f) =>
      Executed(FaultResult(Create, rt, None, "Failed to create resource: ", f), calls)
    case Accepted(event, raw) =>
      if event.None? then
        Executed(NewResult(StatusError, Create, rt).(error := Some(InvalidResponse), awsResponse := Some(raw)), calls)
      else if !Truthy(event.value.requestToken) then
        Executed(NewResult(StatusError, Create, rt).(
          error := Some("No request token received from AWS"), awsResponse := Some(raw)), calls)
      else
        Executed(NewResult(StatusSuccess, Create, rt).(
          requestToken := event.value.requestToken,
          message := Some("Creating " + rt + "..."),
          awsResponse := Some(raw)), calls)
  }

  /** The page size sent to the provider: the requested size, capped at the provider's maximum. */
  function ClampMaxResults(maxResults: int): (n: int)
    ensures n <= ProviderMaxResults
    ensures n == maxResults || (maxResults > ProviderMaxResults && n == ProviderMaxResults)
  {
    Min(maxResults, ProviderMaxResults)
  }

  /** The parsed property document of each description; a missing Properties key parses as "{}". */
  function ParseDescriptions(ds: seq<Description>): (docs: seq<Document>)
    ensures |docs| == |ds|
    ensures forall i :: 0 <= i < |ds| ==> docs[i] == Document(ds[i].properties.GetOr("{}"))
  {
    if ds == [] then []
    else [Document(ds[0].properties.GetOr("{}"))] + ParseDescriptions(ds[1..])
  }

  const MoreAvailable: string := " (more available)"

  function ListMessage(count: nat, nextToken: Option<string>): string {
    "Retrieved " + NatToString(count) + " resources" + (if Truthy(nextToken) then MoreAvailable else "")
  }

  /** The list message ends with "(more available)" exactly when the provider returned a next-page token. */
  lemma ListMessageMarksMore(count: nat, nextToken: Option<string>)
    ensures EndsWith(ListMessage(count, nextToken), MoreAvailable) <==> Truthy(nextToken)
  {
    var m := ListMessage(count, nextToken);
    if !Truthy(nextToken) {
      assert m[|m| - 1] == 's';
      assert MoreAvailable[|MoreAvailable| - 1] == ')';
    }
  }

  /** List: one page of resources, with the next-page token passed through. */
  function HandleList(cc: CloudControl, rt: string, maxResults: int, nextToken: Option<string>): (e: Executed)
    ensures e.calls == [ListResources(rt, ClampMaxResults(maxResults), if Truthy(nextToken) then nextToken else None)]
    ensures WellFormed(e.result) && e.result.operation == List && e.result.resourceType == rt
    ensures var reply := cc.list(rt, ClampMaxResults(maxResults), if Truthy(nextToken) then nextToken else None);
      && (e.result.status == StatusSuccess <==> reply.Listed?)
      && (reply.Listed? ==>
            var ds := reply.descriptions.GetOr([]);
            && e.result.count == Some(|ds|)
            && e.result.resources == Some(ParseDescriptions(ds))
            && e.result.nextToken == reply.nextToken
            && e.result.message == Some(ListMessage(|ds|, reply.nextToken)))
      && (reply.ListFault? ==> e.result.error == Some("Failed to list resources: " + reply.fault.message))
  {
    var token := if Truthy(nextToken) then nextToken else None;
    var calls := [ListResources(rt, ClampMaxResults(maxResults), token)];
    match cc.list(rt, ClampMaxResults(maxResults), token)
    case ListFault(f) =>
      Executed(FaultResult(List, rt, None, "Failed to list resources: ", f), calls)
    case Listed(descriptions, responseToken, raw) =>
      var ds := descriptions.GetOr([]);
      Executed(NewResult(StatusSuccess, List, rt).(
        count := Some(|ds|),
        resources := Some(ParseDescriptions(ds)),
        nextToken := responseToken,
        message := Some(ListMessage(|ds|, responseToken)),
        awsResponse := Some(raw)), calls)
  }

  /** Read: the resource's current properties. */
  function HandleRead(cc: CloudControl, rt: string, id: string): (e: Executed)
    ensures e.calls == [GetResource(rt, id)]
    ensures WellFormed(e.result) && e.result.operation == Read && e.result.resourceType == rt
    ensures e.result.identifier == Some(id)
    ensures var reply := cc.get(rt, id);
      && (e.result.status == StatusSuccess <==> reply.Described?)
      && (reply.Described? ==> e.result.properties == Some(Document(reply.properties)))
      && (reply.ReadFault? ==> e.result.error == Some("Failed to read resource: " + reply.fault.message))
  {
    var calls := [GetResource(rt, id)];
    match cc.get(rt, id)
    case ReadFault(f) => Executed(FaultResult(Read, rt, Some(id), "Failed to read resource: ", f), calls)
    case Described(properties, raw) =>
      Executed(NewResult(StatusSuccess, Read, rt).(
        identifier := Some(id),
        properties := Some(Document(properties)),
        awsResponse := Some(raw)), calls)
  }

  /** The update patch document: one "replace" of "/<key>" per top-level property, in key order. */
  function PatchDocument(props: Props): seq<PatchOp> {
    if props == [] then []
    else [PatchOp("replace", "/" + props[0].key, props[0].value)] + PatchDocument(props[1..])
  }

  lemma {:induction false} PatchDocumentExact(props: Props)
    ensures |PatchDocument(props)| == |props|
    ensures forall i :: 0 <= i < |props| ==>
      PatchDocument(props)[i] == PatchOp("replace", "/" + props[i].key, props[i].value)
  {
    if props != [] {
      PatchDocumentExact(props[1..]);
      assert forall i :: 1 <= i < |props| ==> props[i] == props[1..][i - 1];
    }
  }

  function HasProperties(props: Option<Props>): bool {
    props.Some? && props.value != []
  }

  /** Update: requires non-empty properties, then sends the patch document; the reply need not carry a token. */
  function HandleUpdate(cc: CloudControl, rt: string, id: string, props: Option<Props>): (e: Executed)
    ensures !HasProperties(props) ==>
      e == Executed(NewResult(StatusError, Update, rt).(
        identifier := Some(id), error := Some("Properties are required for update operations")), [])
    ensures HasProperties(props) ==> e.calls == [UpdateResource(rt, id, PatchDocument(props.value))]
    ensures WellFormed(e.result) && e.result.operation == Update && e.result.resourceType == rt
    ensures e.result.identifier == Some(id)
    ensures HasProperties(props) ==>
      var reply := cc.update(rt, id, PatchDocument(props.value));
      && (e.result.status == StatusSuccess <==> reply.Accepted? && reply.event.Some?)
      && (e.result.status == StatusSuccess ==> e.result.requestToken == TokenOf(reply.event))
      && (reply.Accepted? && reply.event.None? ==> e.result.error == Some(InvalidResponse))
      && (reply.MutationFault? ==> e.result.error == Some("Failed to update resource: " + reply.fault.message))
  {
    if !HasProperties(props) then
      Executed(NewResult(StatusError, Update, rt).(
        identifier := Some(id), error := Some("Properties are required for update operations")), [])
    else
      var patch := PatchDocument(props.value);
      var calls := [UpdateResource(rt, id, patch)];
      match cc.update(rt, id, patch)
      case MutationFault(f) =>
        Executed(FaultResult(Update, rt, Some(id), "Failed to update resource: ", f), calls)
      case Accepted(event, raw) =>
        if event.None? then
          Executed(NewResult(StatusError, Update, rt).(
            identifier := Some(id), error := Some(InvalidResponse), awsResponse := Some(raw)), calls)
        else
          Executed(NewResult(StatusSuccess, Update, rt).(
            identifier := Some(id),
            requestToken := event.value.requestToken,
            message := Some("Updating " + rt + " (" + id + ")..."),
            awsResponse := Some(raw)), calls)
  }

  /** Delete: the reply need not carry a token. */
  function HandleDelete(cc: CloudControl, rt: string, id: string): (e: Executed)
    ensures e.calls == [DeleteResource(rt, id)]
    ensures WellFormed(e.result) && e.result.operation == Delete && e.result.resourceType == rt
    ensures e.result.identifier == Some(id)
    ensures var reply := cc.delete(rt, id);
      && (e.result.status == StatusSuccess <==> reply.Accepted? && reply.event.Some?)
      && (e.result.status == StatusSuccess ==> e.result.requestToken == TokenOf(reply.event))
      && (reply.Accepted? && reply.event.None? ==> e.result.error == Some(InvalidResponse))
      && (reply.MutationFault? ==> e.result.error == Some("Failed to delete resource: " + reply.fault.message))
  {
    var calls := [DeleteResource(rt, id)];
    match cc.delete(rt, id)
    case MutationFault(f) =>
      Executed(FaultResult(Delete, rt, Some(id), "Failed to delete resource: ", f), calls)
    case Accepted(event, raw) =>
      if event.None? then
        Executed(NewResult(StatusError, Delete, rt).(
          identifier := Some(id), error := Some(InvalidResponse), awsResponse := Some(raw)), calls)
      else
        Executed(NewResult(StatusSuccess, Delete, rt).(
          identifier := Some(id),
          requestToken := event.value.requestToken,
          message := Some("Deleting " + rt + " (" + id + ")..."),
          awsResponse := Some(raw)), calls)
  }

  // ---------------------------------------------------------------------
  // Routing
  // ---------------------------------------------------------------------

  predicate NeedsIdentifier(op: Operation) {
    op == Read || op == Update || op == Delete
  }

  function MissingIdentifierError(op: Operation): string {
    "Operation '" + OperationName(op) + "' requires an identifier"
  }

  /**
   * Executes one operation against the region's client. Read, update and
   * delete without a (non-empty) identifier fail before any provider call;
   * every other path makes exactly the one call of its handler.
   */
  function Execute(cc: CloudControl, op: Operation, rt: string, id: Option<string>, props: Option<Props>,
                   maxResults: int, nextToken: Option<string>): (e: Executed)
    ensures WellFormed(e.result) && e.result.operation == op && e.result.resourceType == rt
    ensures |e.calls| <= 1
    ensures NeedsIdentifier(op) && !Truthy(id) ==>
      e == Executed(NewResult(StatusError, op, rt).(error := Some(MissingIdentifierError(op))), [])
    ensures op == Create ==> e == HandleCreate(cc, rt, props)
    ensures op == List ==> e == HandleList(cc, rt, maxResults, nextToken)
    ensures op == Read && Truthy(id) ==> e == HandleRead(cc, rt, id.value)
    ensures op == Update && Truthy(id) ==> e == HandleUpdate(cc, rt, id.value, props)
    ensures op == Delete && Truthy(id) ==> e == HandleDelete(cc, rt, id.value)
  {
    if op == Create then HandleCreate(cc, rt, props)
    else if op == List then HandleList(cc, rt, maxResults, nextToken)
    else if op == Read && Truthy(id) then HandleRead(cc, rt, id.value)
    else if op == Update && Truthy(id) then HandleUpdate(cc, rt, id.value, props)
    else if op == Delete && Truthy(id) then HandleDelete(cc, rt, id.value)
    else Executed(NewResult(StatusError, op, rt).(error := Some(MissingIdentifierError(op))), [])
  }

  /** A provider call is made exactly when the request passes the identifier and properties checks. */
  lemma ExecuteCallsProvider(cc: CloudControl, op: Operation, rt: string, id: Option<string>, props: Option<Props>,
                             maxResults: int, nextToken: Option<string>)
    ensures var e := Execute(cc, op, rt, id, props, maxResults, nextToken);
      |e.calls| == 1 <==>
        (!NeedsIdentifier(op) || Truthy(id)) && (op == Update ==> HasProperties(props))
  {
  }

  /** The missing-identifier message names the operation and mentions the identifier. */
  lemma MissingIdentifierMessage(op: Operation)
    requires NeedsIdentifier(op)
    ensures StartsWith(MissingIdentifierError(op), "Operation '" + OperationName(op) + "'")
    ensures EndsWith(MissingIdentifierError(op), "requires an identifier")
  {
    AffixesOfConcat("Operation '" + OperationName(op) + "' ", "requires an identifier");
    assert MissingIdentifierError(op) == "Operation '" + OperationName(op) + "' " + "requires an identifier";
    AffixesOfConcat("Operation '" + OperationName(op) + "'", " requires an identifier");
  }

  /** A successful create carries exactly the token the provider returned. */
  lemma CreateCarriesProviderToken(cc: CloudControl, rt: string, props: Option<Props>, token: string, raw: string,
                                   event: ProgressEvent)
    requires token != "" && event.requestToken == Some(token)
    requires cc.create(rt, props.GetOr([])) == Accepted(Some(event), raw)
    ensures Execute(cc, Create, rt, None, props, 20, None).result.status == StatusSuccess
    ensures Execute(cc, Create, rt, None, props, 20, None).result.requestToken == Some(token)
  {
  }

  /** The update patch document holds one replace per property key, in key order. */
  lemma UpdatePatchOnePerKey(cc: CloudControl, rt: string, id: string, props: Props)
    requires id != "" && props != []
    ensures var e := Execute(cc, Update, rt, Some(id), Some(props), 20, None);
      && e.calls == [UpdateResource(rt, id, PatchDocument(props))]
      && |e.calls[0].patchDocument| == |props|
      && forall i :: 0 <= i < |props| ==>
           e.calls[0].patchDocument[i] == PatchOp("replace", "/" + props[i].key, props[i].value)
  {
    PatchDocumentExact(props);
  }
}
