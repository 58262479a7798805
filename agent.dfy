/**
 * The agent loop: sends the conversation to the language model, runs every
 * tool call of each reply, appends the reply and the tool results to the
 * conversation, and repeats while the model asks for tools, within a budget
 * of iterations.
 *
 * The language model is an oracle from the conversation and the tool
 * definitions sent with it to a reply. The conversation is an object the
 * loop updates in place; the tool definitions are loaded once into a cache
 * shared by every agent.
 */
module AgentLoop {
  import opened Wrappers
  import opened Strings
  import opened Models
  import opened Executor
  import opened Narration
  import opened Dispatcher

  /** One content block of a model reply. */
  datatype Block =
    | TextBlock(text: string)
    | ToolUseBlock(id: string, name: string, input: ToolInput)
    | OtherBlock                                   // any other block type, which the loop skips

  /** One tool result sent back to the model, with the id of the tool call it answers. */
  datatype ToolResultEntry = ToolResultEntry(toolUseId: string, content: string)

  datatype Content = Plain(text: string) | Blocks(blocks: seq<Block>) | Results(results: seq<ToolResultEntry>)

  /** One message of the conversation. */
  datatype Turn = Turn(role: Role, content: Content)

  /** One tool definition, as JSON text. */
  datatype ToolDef = ToolDef(json: string)

  /** A reply of the language model to one loop request. */
  datatype ModelReply =
    | Response(stopReason: string, blocks: seq<Block>)
    | ApiConnectionFailure(detail: string)
    | ApiStatusFailure(message: string)

  type Model = (seq<Turn>, seq<ToolDef>) -> ModelReply

  /** How a request ends for its caller: with a response text, or with an exception. */
  datatype RequestOutcome = Returned(text: string) | Raised(fault: Fault)

  const EndTurn: string := "end_turn"
  const ToolUse: string := "tool_use"
  const BudgetNote: string := "\n\n(Note: Maximum processing steps reached)"

  // ---------------------------------------------------------------------
  // One reply: its blocks, walked in order
  // ---------------------------------------------------------------------

  /** The blocks the loop keeps of a reply: its text and tool-use blocks, in order. */
  function Kept(blocks: seq<Block>): (r: seq<Block>)
    ensures |r| <= |blocks|
    ensures forall i :: 0 <= i < |r| ==> !r[i].OtherBlock?
  {
    if blocks == [] then []
    else (if blocks[0].OtherBlock? then [] else [blocks[0]]) + Kept(blocks[1..])
  }

  /** Keeping distributes over concatenation: the kept blocks of two runs of blocks, one after the other. */
  lemma {:induction false} KeptConcat(a: seq<Block>, b: seq<Block>)
    ensures Kept(a + b) == Kept(a) + Kept(b)
  {
    if a != [] {
      assert (a + b)[0] == a[0] && (a + b)[1..] == a[1..] + b;
      KeptConcat(a[1..], b);
    } else {
      assert a + b == b;
    }
  }

  /** Blocks with no skipped block among them are all kept, unchanged and in order. */
  lemma {:induction false} KeptIdentity(blocks: seq<Block>)
    requires forall i :: 0 <= i < |blocks| ==> !blocks[i].OtherBlock?
    ensures Kept(blocks) == blocks
  {
    if blocks != [] {
      KeptIdentity(blocks[1..]);
      assert [blocks[0]] + blocks[1..] == blocks;
    }
  }

  /** The ids of the tool-use blocks, in order. */
  function ToolUseIds(blocks: seq<Block>): seq<string> {
    if blocks == [] then []
    else (if blocks[0].ToolUseBlock? then [blocks[0].id] else []) + ToolUseIds(blocks[1..])
  }

  /** The concatenated text of the text blocks. */
  function Texts(blocks: seq<Block>): string {
    if blocks == [] then ""
    else (if blocks[0].TextBlock? then blocks[0].text else "") + Texts(blocks[1..])
  }

  function ResultIds(results: seq<ToolResultEntry>): (ids: seq<string>)
    ensures |ids| == |results|
    ensures forall i :: 0 <= i < |results| ==> ids[i] == results[i].toolUseId
  {
    seq(|results|, i requires 0 <= i < |results| => results[i].toolUseId)
  }

  /** The text one block adds to the response: its own text, a tool's text, or nothing. */
  function BlockText(runTool: ToolRunner, b: Block): string {
    match b
    case TextBlock(t) => t
    case ToolUseBlock(_, name, input) => if runTool(name, input).Ok? then runTool(name, input).value.text else ""
    case OtherBlock => ""
  }

  /** The tool result one block adds: for a tool call, the compact JSON of the tool's result under the call's id. */
  function BlockAnswer(dumps: ToolResult -> string, runTool: ToolRunner, b: Block): seq<ToolResultEntry> {
    if b.ToolUseBlock? && runTool(b.name, b.input).Ok? then
      [ToolResultEntry(b.id, dumps(runTool(b.name, b.input).value.result))]
    else []
  }

  /** The response text of a run of blocks: each block's text, in order. */
  function Narrated(runTool: ToolRunner, blocks: seq<Block>): string {
    if blocks == [] then "" else BlockText(runTool, blocks[0]) + Narrated(runTool, blocks[1..])
  }

  /** The tool results of a run of blocks: each tool call's answer, in order. */
  function Answers(dumps: ToolResult -> string, runTool: ToolRunner, blocks: seq<Block>): seq<ToolResultEntry> {
    if blocks == [] then [] else BlockAnswer(dumps, runTool, blocks[0]) + Answers(dumps, runTool, blocks[1..])
  }

  /** What the walk over a reply's blocks gathers: the assistant content, the tool results and the response text. */
  datatype Walk = Walk(assistant: seq<Block>, results: seq<ToolResultEntry>, text: string)

  /** How the loop runs one tool call: from the tool's name and input to its outcome, or the fault it raises. */
  type ToolRunner = (string, ToolInput) -> Result<ToolOutcome, Fault>

  /** The agent's own tool dispatch, for a request asking `question`. */
  function Runner(caps: Capabilities, question: string): ToolRunner {
    (name, input) => ExecuteTool(caps, name, input, question)
  }

  /**
   * One block applied to what the walk has gathered: a text block adds its
   * text; a tool-use block runs the tool, adds the tool's text and one tool
   * result; any other block is skipped. A tool that raises gives its fault.
   */
  function Step(dumps: ToolResult -> string, runTool: ToolRunner, b: Block, acc: Walk): (r: Result<Walk, Fault>)
    ensures r.Err? <==> b.ToolUseBlock? && runTool(b.name, b.input).Err?
    ensures r.Err? ==> r.error == runTool(b.name, b.input).error
    ensures r.Ok? ==> r.value.assistant == acc.assistant + (if b.OtherBlock? then [] else [b])
    ensures r.Ok? ==> ResultIds(r.value.results) == ResultIds(acc.results) + (if b.ToolUseBlock? then [b.id] else [])
    ensures r.Ok? ==> r.value.text == acc.text + BlockText(runTool, b)
    ensures r.Ok? ==> r.value.results == acc.results + BlockAnswer(dumps, runTool, b)
    ensures b.OtherBlock? ==> r == Ok(acc)
  {
    match b
    case TextBlock(t) => Ok(Walk(acc.assistant + [b], acc.results, acc.text + t))
    case ToolUseBlock(id, name, input) =>
      (match runTool(name, input)
       case Err(f) => Err(f)
       case Ok(o) =>
         var results := acc.results + [ToolResultEntry(id, dumps(o.result))];
         assert ResultIds(results) == ResultIds(acc.results) + [id];
         Ok(Walk(acc.assistant + [b], results, acc.text + o.text)))
    case OtherBlock => Ok(acc)
  }

  /** The walk over a reply's blocks from block j on; the first fault ends it. */
  function WalkFrom(dumps: ToolResult -> string, runTool: ToolRunner, blocks: seq<Block>, j: nat, acc: Walk): Result<Walk, Fault>
    requires j <= |blocks|
    decreases |blocks| - j
  {
    if j == |blocks| then Ok(acc)
    else
      match Step(dumps, runTool, blocks[j], acc)
      case Err(f) => Err(f)
      case Ok(next) => WalkFrom(dumps, runTool, blocks, j + 1, next)
  }

  function WalkReply(dumps: ToolResult -> string, runTool: ToolRunner, blocks: seq<Block>): Result<Walk, Fault> {
    WalkFrom(dumps, runTool, blocks, 0, Walk([], [], ""))
  }

  /**
   * A completed walk keeps exactly the text and tool-use blocks, in order,
   * and answers the tool-use blocks with one result each, in the same order.
   */
  lemma WalkShape(dumps: ToolResult -> string, runTool: ToolRunner, blocks: seq<Block>, j: nat, acc: Walk)
    requires j <= |blocks|
    requires WalkFrom(dumps, runTool, blocks, j, acc).Ok?
    ensures var w := WalkFrom(dumps, runTool, blocks, j, acc).value;
      && w.assistant == acc.assistant + Kept(blocks[j..])
      && ResultIds(w.results) == ResultIds(acc.results) + ToolUseIds(blocks[j..])
  {
    WalkKept(dumps, runTool, blocks, j, acc);
    WalkIds(dumps, runTool, blocks, j, acc);
  }

  /** The assistant content of a completed walk: the blocks it keeps, in order. */
  lemma {:induction false} WalkKept(dumps: ToolResult -> string, runTool: ToolRunner, blocks: seq<Block>, j: nat, acc: Walk)
    requires j <= |blocks|
    requires WalkFrom(dumps, runTool, blocks, j, acc).Ok?
    ensures WalkFrom(dumps, runTool, blocks, j, acc).value.assistant == acc.assistant + Kept(blocks[j..])
    decreases |blocks| - j
  {
    if j < |blocks| {
      var b := blocks[j];
      var kept := if b.OtherBlock? then [] else [b];
      var next := Step(dumps, runTool, b, acc).value;
      assert WalkFrom(dumps, runTool, blocks, j, acc) == WalkFrom(dumps, runTool, blocks, j + 1, next);
      WalkKept(dumps, runTool, blocks, j + 1, next);
      Unroll(blocks, j);
      assert acc.assistant + kept + Kept(blocks[j + 1..]) == acc.assistant + (kept + Kept(blocks[j + 1..]));
    } else {
      assert blocks[j..] == [];
    }
  }

  /** The ids the results of a completed walk answer: those of its tool calls, in order. */
  lemma {:induction false} WalkIds(dumps: ToolResult -> string, runTool: ToolRunner, blocks: seq<Block>, j: nat, acc: Walk)
    requires j <= |blocks|
    requires WalkFrom(dumps, runTool, blocks, j, acc).Ok?
    ensures ResultIds(WalkFrom(dumps, runTool, blocks, j, acc).value.results) == ResultIds(acc.results) + ToolUseIds(blocks[j..])
    decreases |blocks| - j
  {
    if j < |blocks| {
      var b := blocks[j];
      var ids := if b.ToolUseBlock? then [b.id] else [];
      var next := Step(dumps, runTool, b, acc).value;
      assert WalkFrom(dumps, runTool, blocks, j, acc) == WalkFrom(dumps, runTool, blocks, j + 1, next);
      WalkIds(dumps, runTool, blocks, j + 1, next);
      Unroll(blocks, j);
      assert ResultIds(acc.results) + ids + ToolUseIds(blocks[j + 1..]) == ResultIds(acc.results) + (ids + ToolUseIds(blocks[j + 1..]));
    } else {
      assert blocks[j..] == [];
    }
  }

  /**
   * A completed walk adds to the response the text of every block in order,
   * a tool's text in place of its call, and adds one result per tool call:
   * the compact JSON of that tool's result, under the call's id.
   */
  lemma {:induction false} WalkContent(dumps: ToolResult -> string, runTool: ToolRunner, blocks: seq<Block>, j: nat, acc: Walk)
    requires j <= |blocks|
    requires WalkFrom(dumps, runTool, blocks, j, acc).Ok?
    ensures var w := WalkFrom(dumps, runTool, blocks, j, acc).value;
      && w.text == acc.text + Narrated(runTool, blocks[j..])
      && w.results == acc.results + Answers(dumps, runTool, blocks[j..])
    decreases |blocks| - j
  {
    if j < |blocks| {
      var b := blocks[j];
      var tail := blocks[j + 1..];
      var next := Step(dumps, runTool, b, acc).value;
      assert WalkFrom(dumps, runTool, blocks, j, acc) == WalkFrom(dumps, runTool, blocks, j + 1, next);
      WalkContent(dumps, runTool, blocks, j + 1, next);
      assert blocks[j..][0] == b && blocks[j..][1..] == tail;
      assert acc.text + BlockText(runTool, b) + Narrated(runTool, tail)
          == acc.text + (BlockText(runTool, b) + Narrated(runTool, tail));
      assert acc.results + BlockAnswer(dumps, runTool, b) + Answers(dumps, runTool, tail)
          == acc.results + (BlockAnswer(dumps, runTool, b) + Answers(dumps, runTool, tail));
    } else {
      assert blocks[j..] == [];
    }
  }

  /** The kept blocks and the tool-use ids from block j on: block j's own, then those of the rest. */
  lemma Unroll(blocks: seq<Block>, j: nat)
    requires j < |blocks|
    ensures Kept(blocks[j..]) == (if blocks[j].OtherBlock? then [] else [blocks[j]]) + Kept(blocks[j + 1..])
    ensures ToolUseIds(blocks[j..]) == (if blocks[j].ToolUseBlock? then [blocks[j].id] else []) + ToolUseIds(blocks[j + 1..])
  {
    assert blocks[j..][0] == blocks[j] && blocks[j..][1..] == blocks[j + 1..];
  }

  /** Dropping the skipped blocks drops no tool-use block. */
  lemma {:induction false} KeptToolUseIds(blocks: seq<Block>)
    ensures ToolUseIds(Kept(blocks)) == ToolUseIds(blocks)
  {
    if blocks != [] {
      KeptToolUseIds(blocks[1..]);
      var head := if blocks[0].OtherBlock? then [] else [blocks[0]];
      ToolUseIdsConcat(head, Kept(blocks[1..]));
    }
  }

  lemma {:induction false} ToolUseIdsConcat(a: seq<Block>, b: seq<Block>)
    ensures ToolUseIds(a + b) == ToolUseIds(a) + ToolUseIds(b)
  {
    if a != [] {
      assert (a + b)[0] == a[0] && (a + b)[1..] == a[1..] + b;
      ToolUseIdsConcat(a[1..], b);
    } else {
      assert a + b == b;
    }
  }

  /** The tool results of a reply answer its tool calls one to one, in order. */
  lemma ReplyPaired(dumps: ToolResult -> string, runTool: ToolRunner, blocks: seq<Block>)
    requires WalkReply(dumps, runTool, blocks).Ok?
    ensures var w := WalkReply(dumps, runTool, blocks).value;
      && w.assistant == Kept(blocks)
      && ResultIds(w.results) == ToolUseIds(blocks)
      && ResultIds(w.results) == ToolUseIds(w.assistant)
  {
    WalkShape(dumps, runTool, blocks, 0, Walk([], [], ""));
    assert blocks[0..] == blocks;
    KeptToolUseIds(blocks);
  }

  /** The response text and tool results a reply contributes, when none of its tool calls raises. */
  lemma ReplyContent(dumps: ToolResult -> string, runTool: ToolRunner, blocks: seq<Block>)
    requires WalkReply(dumps, runTool, blocks).Ok?
    ensures var w := WalkReply(dumps, runTool, blocks).value;
      && w.text == Narrated(runTool, blocks)
      && w.results == Answers(dumps, runTool, blocks)
  {
    WalkContent(dumps, runTool, blocks, 0, Walk([], [], ""));
    assert blocks[0..] == blocks;
  }

  /** A walk fails only with the fault of one of the reply's tool calls. */
  lemma {:induction false} WalkFailure(dumps: ToolResult -> string, runTool: ToolRunner, blocks: seq<Block>, j: nat, acc: Walk)
    requires j <= |blocks|
    requires WalkFrom(dumps, runTool, blocks, j, acc).Err?
    ensures exists i :: (j <= i < |blocks| && blocks[i].ToolUseBlock? &&
      runTool(blocks[i].name, blocks[i].input) == Err(WalkFrom(dumps, runTool, blocks, j, acc).error))
    decreases |blocks| - j
  {
    match Step(dumps, runTool, blocks[j], acc)
    case Err(_) =>
      assert j <= j < |blocks|;
    case Ok(next) =>
      WalkFailure(dumps, runTool, blocks, j + 1, next);
  }

  /** A reply without tool calls never fails: its response text is the concatenation of its text blocks. */
  lemma {:induction false} TextOnlyWalk(dumps: ToolResult -> string, runTool: ToolRunner, blocks: seq<Block>, j: nat, acc: Walk)
    requires j <= |blocks|
    requires forall i :: j <= i < |blocks| ==> !blocks[i].ToolUseBlock?
    ensures WalkFrom(dumps, runTool, blocks, j, acc) ==
      Ok(Walk(acc.assistant + Kept(blocks[j..]), acc.results, acc.text + Texts(blocks[j..])))
    decreases |blocks| - j
  {
    if j < |blocks| {
      assert blocks[j..][0] == blocks[j] && blocks[j..][1..] == blocks[j + 1..];
      match blocks[j]
      case TextBlock(t) =>
        TextOnlyWalk(dumps, runTool, blocks, j + 1, Walk(acc.assistant + [blocks[j]], acc.results, acc.text + t));
        assert Kept(blocks[j..]) == [blocks[j]] + Kept(blocks[j + 1..]);
        assert Texts(blocks[j..]) == t + Texts(blocks[j + 1..]);
        assert (acc.text + t) + Texts(blocks[j + 1..]) == acc.text + (t + Texts(blocks[j + 1..]));
        assert (acc.assistant + [blocks[j]]) + Kept(blocks[j + 1..]) == acc.assistant + ([blocks[j]] + Kept(blocks[j + 1..]));
        assert WalkFrom(dumps, runTool, blocks, j, acc) ==
          WalkFrom(dumps, runTool, blocks, j + 1, Walk(acc.assistant + [blocks[j]], acc.results, acc.text + t));
      case OtherBlock =>
        TextOnlyWalk(dumps, runTool, blocks, j + 1, acc);
        assert Kept(blocks[j..]) == Kept(blocks[j + 1..]);
        assert Texts(blocks[j..]) == Texts(blocks[j + 1..]);
    } else {
      assert blocks[j..] == [];
      assert acc.assistant + [] == acc.assistant && acc.text + "" == acc.text;
    }
  }

  // ---------------------------------------------------------------------
  // The loop
  // ---------------------------------------------------------------------

  /** The turns one reply adds: the assistant turn, then the tool results turn if there are results. */
  function ReplyTurns(w: Walk): seq<Turn> {
    [Turn(Assistant, Blocks(w.assistant))] + (if w.results != [] then [Turn(User, Results(w.results))] else [])
  }

  /** Why the loop stopped. */
  datatype Ending = Finished(stopReason: string) | BudgetSpent | ApiFailure | ToolFault

  /**
   * A run of the loop: the conversation after it, the outcome for the caller,
   * the iterations started, why it stopped, and the response text before any
   * budget note.
   */
  datatype LoopRun = LoopRun(turns: seq<Turn>, outcome: RequestOutcome, iterations: nat, ending: Ending, response: string)

  /** The description of a failed model call. */
  function ApiFailureText(reply: ModelReply): string
    requires !reply.Response?
  {
    match reply
    case ApiConnectionFailure(detail) => "Failed to connect to Anthropic API: " + detail
    case ApiStatusFailure(message) => "Anthropic API error: " + message
  }

  /** The response text of a request whose model call failed. */
  function ApiErrorText(reply: ModelReply): string
    requires !reply.Response?
  {
    "Error: " + ApiFailureText(reply)
  }

  /** The response with the budget note appended once the budget is used up. */
  function WithNote(response: string, iterations: nat, maxIterations: int): string {
    if iterations >= maxIterations then response + BudgetNote else response
  }

  /**
   * The loop from a given state: `iteration` iterations already done and
   * `response` the latest response text. The response is replaced, not
   * extended, by every reply. A stop reason other than tool_use ends the
   * loop; so does a model failure (reported as text) and a tool fault
   * (raised). The budget note is added whenever the budget is used up, also
   * when the last reply ended the conversation by itself.
   */
  function LoopFrom(dumps: ToolResult -> string, runTool: ToolRunner, model: Model, tools: seq<ToolDef>, maxIterations: int,
                    turns: seq<Turn>, iteration: nat, response: string): LoopRun
    decreases maxIterations - iteration
  {
    if iteration >= maxIterations then
      LoopRun(turns, Returned(response + BudgetNote), iteration, BudgetSpent, response)
    else
      var it := iteration + 1;
      var reply := model(turns, tools);
      if !reply.Response? then
        LoopRun(turns, Returned(ApiErrorText(reply)), it, ApiFailure, response)
      else
        match WalkReply(dumps, runTool, reply.blocks)
        case Err(f) => LoopRun(turns, Raised(f), it, ToolFault, response)
        case Ok(w) =>
          var next := turns + ReplyTurns(w);
          if reply.stopReason != ToolUse then
            LoopRun(next, Returned(WithNote(w.text, it, maxIterations)), it, Finished(reply.stopReason), w.text)
          else
            LoopFrom(dumps, runTool, model, tools, maxIterations, next, it, w.text)
  }

  /** One iteration of the loop, when the budget allows one. */
  lemma LoopStep(dumps: ToolResult -> string, runTool: ToolRunner, model: Model, tools: seq<ToolDef>, maxIterations: int,
                 turns: seq<Turn>, iteration: nat, response: string)
    requires iteration < maxIterations
    ensures var reply := model(turns, tools);
      var run := LoopFrom(dumps, runTool, model, tools, maxIterations, turns, iteration, response);
      && (!reply.Response? ==> run == LoopRun(turns, Returned(ApiErrorText(reply)), iteration + 1, ApiFailure, response))
      && (reply.Response? && WalkReply(dumps, runTool, reply.blocks).Err? ==>
            run == LoopRun(turns, Raised(WalkReply(dumps, runTool, reply.blocks).error), iteration + 1, ToolFault, response))
      && (reply.Response? && WalkReply(dumps, runTool, reply.blocks).Ok? ==>
            var w := WalkReply(dumps, runTool, reply.blocks).value;
            var next := turns + ReplyTurns(w);
            if reply.stopReason != ToolUse
            then run == LoopRun(next, Returned(WithNote(w.text, iteration + 1, maxIterations)), iteration + 1,
                                Finished(reply.stopReason), w.text)
            else run == LoopFrom(dumps, runTool, model, tools, maxIterations, next, iteration + 1, w.text))
  {
  }

  /** A request: the user's message is appended to the history, then the loop runs from scratch. */
  function Process(caps: Capabilities, model: Model, tools: seq<ToolDef>, question: string, maxIterations: int,
                   history: seq<Turn>): LoopRun
  {
    LoopFrom(caps.dumps, Runner(caps, question), model, tools, maxIterations, history + [Turn(User, Plain(question))], 0, "")
  }

  // ---------------------------------------------------------------------
  // Conversation shape
  // ---------------------------------------------------------------------

  /**
   * A sequence of exchanges: each an assistant turn of text and tool-use
   * blocks, followed, when it calls tools, by a user turn answering each
   * call in order.
   */
  predicate Exchanges(ts: seq<Turn>)
    decreases |ts|
  {
    if ts == [] then true
    else
      && ts[0].role == Assistant && ts[0].content.Blocks?
      && (forall i :: 0 <= i < |ts[0].content.blocks| ==> !ts[0].content.blocks[i].OtherBlock?)
      && var ids := ToolUseIds(ts[0].content.blocks);
         if ids == [] then Exchanges(ts[1..])
         else
           && |ts| >= 2 && ts[1].role == User && ts[1].content.Results?
           && ResultIds(ts[1].content.results) == ids
           && Exchanges(ts[2..])
  }

  /** The number of assistant turns. */
  function AssistantTurns(ts: seq<Turn>): nat {
    if ts == [] then 0 else (if ts[0].role == Assistant then 1 else 0) + AssistantTurns(ts[1..])
  }

  /** The turns of a completed reply form one exchange in front of any further exchanges. */
  lemma ReplyExchange(dumps: ToolResult -> string, runTool: ToolRunner, blocks: seq<Block>, rest: seq<Turn>)
    requires WalkReply(dumps, runTool, blocks).Ok?
    requires Exchanges(rest)
    ensures var ts := ReplyTurns(WalkReply(dumps, runTool, blocks).value) + rest;
      Exchanges(ts) && AssistantTurns(ts) == 1 + AssistantTurns(rest)
  {
    var w := WalkReply(dumps, runTool, blocks).value;
    ReplyPaired(dumps, runTool, blocks);
    var ts := ReplyTurns(w) + rest;
    if w.results == [] {
      assert ts[1..] == rest;
    } else {
      assert ts[2..] == rest;
      assert ts[1..][1..] == rest;
    }
  }

  /**
   * What every run of the loop satisfies: it stops within the budget; a
   * natural stop has a reason other than tool_use; the budget note is added
   * exactly when the budget is used up; a model failure is reported as an
   * "Error: " text and a tool fault is raised.
   */
  lemma {:induction false} LoopOutcome(dumps: ToolResult -> string, runTool: ToolRunner, model: Model, tools: seq<ToolDef>,
                                       maxIterations: int, turns: seq<Turn>, iteration: nat, response: string)
    ensures var run := LoopFrom(dumps, runTool, model, tools, maxIterations, turns, iteration, response);
      && iteration <= run.iterations
      && (iteration < maxIterations ==> iteration < run.iterations <= maxIterations)
      && (iteration >= maxIterations ==> run.iterations == iteration && run.ending == BudgetSpent)
      && (run.ending == BudgetSpent ==> run.iterations >= maxIterations)
      && (run.ending.Finished? ==> run.ending.stopReason != ToolUse)
      && (run.ending.Finished? || run.ending == BudgetSpent ==>
            run.outcome == Returned(if run.iterations >= maxIterations then run.response + BudgetNote else run.response))
      && (run.ending == ApiFailure ==> run.outcome.Returned? && StartsWith(run.outcome.text, "Error: "))
      && (run.ending == ToolFault <==> run.outcome.Raised?)
    decreases maxIterations - iteration
  {
    if iteration < maxIterations {
      var reply := model(turns, tools);
      if !reply.Response? {
        AffixesOfConcat("Error: ", ApiFailureText(reply));
      } else if WalkReply(dumps, runTool, reply.blocks).Ok? && reply.stopReason == ToolUse {
        var w := WalkReply(dumps, runTool, reply.blocks).value;
        LoopOutcome(dumps, runTool, model, tools, maxIterations, turns + ReplyTurns(w), iteration + 1, w.text);
      }
    }
  }

  /**
   * Every run only appends to the conversation, and what it appends is a
   * sequence of well-paired exchanges, one per reply the loop processed: one
   * per iteration, except a final iteration whose model call failed or whose
   * tool raised.
   */
  lemma {:induction false} LoopHistory(dumps: ToolResult -> string, runTool: ToolRunner, model: Model, tools: seq<ToolDef>,
                                       maxIterations: int, turns: seq<Turn>, iteration: nat, response: string)
    ensures var run := LoopFrom(dumps, runTool, model, tools, maxIterations, turns, iteration, response);
      AppendsExchanges(turns, run.turns,
        run.iterations - iteration - (if run.ending == ApiFailure || run.ending == ToolFault then 1 else 0))
    decreases maxIterations - iteration
  {
    var run := LoopFrom(dumps, runTool, model, tools, maxIterations, turns, iteration, response);
    if iteration >= maxIterations {
      NothingAppended(turns);
    } else {
      var reply := model(turns, tools);
      LoopStep(dumps, runTool, model, tools, maxIterations, turns, iteration, response);
      if !reply.Response? || WalkReply(dumps, runTool, reply.blocks).Err? {
        assert run.turns == turns && run.iterations == iteration + 1 && (run.ending == ApiFailure || run.ending == ToolFault);
        NothingAppended(turns);
      } else {
        var w := WalkReply(dumps, runTool, reply.blocks).value;
        var next := turns + ReplyTurns(w);
        if reply.stopReason != ToolUse {
          assert run.turns == next && run.iterations == iteration + 1 && run.ending.Finished?;
          NothingAppended(next);
          ChainExchange(dumps, runTool, reply.blocks, turns, run.turns, 0);
        } else {
          assert run == LoopFrom(dumps, runTool, model, tools, maxIterations, next, iteration + 1, w.text);
          LoopHistory(dumps, runTool, model, tools, maxIterations, next, iteration + 1, w.text);
          ChainExchange(dumps, runTool, reply.blocks, turns, run.turns,
            run.iterations - (iteration + 1) - (if run.ending == ApiFailure || run.ending == ToolFault then 1 else 0));
        }
      }
    }
  }

  /** `all` is `turns` followed by well-paired exchanges, with `n` assistant turns among them. */
  predicate AppendsExchanges(turns: seq<Turn>, all: seq<Turn>, n: int) {
    && |turns| <= |all|
    && all[..|turns|] == turns
    && Exchanges(all[|turns|..])
    && AssistantTurns(all[|turns|..]) == n
  }

  /** A conversation left as it is has no exchanges appended. */
  lemma NothingAppended(turns: seq<Turn>)
    ensures AppendsExchanges(turns, turns, 0)
  {
    assert turns[|turns|..] == [];
  }

  /** Exchanges appended after one reply's turns are, with that reply's exchange, appended to the turns before it. */
  lemma ChainExchange(dumps: ToolResult -> string, runTool: ToolRunner, blocks: seq<Block>,
                      turns: seq<Turn>, all: seq<Turn>, n: int)
    requires WalkReply(dumps, runTool, blocks).Ok?
    requires AppendsExchanges(turns + ReplyTurns(WalkReply(dumps, runTool, blocks).value), all, n)
    ensures AppendsExchanges(turns, all, n + 1)
  {
    var next := turns + ReplyTurns(WalkReply(dumps, runTool, blocks).value);
    var rest := all[|next|..];
    assert all == next + rest;
    Appended(turns, ReplyTurns(WalkReply(dumps, runTool, blocks).value), rest);
    ReplyExchange(dumps, runTool, blocks, rest);
  }

  /** What is appended to a conversation is what follows its old turns. */
  lemma Appended(turns: seq<Turn>, mid: seq<Turn>, rest: seq<Turn>)
    ensures (turns + mid + rest)[..|turns|] == turns
    ensures (turns + mid + rest)[|turns|..] == mid + rest
  {
  }

  /** With no budget the model is never asked: the history gains the user's message and the note is the response. */
  lemma ZeroBudget(caps: Capabilities, model: Model, tools: seq<ToolDef>, question: string, maxIterations: int,
                   history: seq<Turn>)
    requires maxIterations <= 0
    ensures Process(caps, model, tools, question, maxIterations, history) ==
      LoopRun(history + [Turn(User, Plain(question))], Returned(BudgetNote), 0, BudgetSpent, "")
  {
    assert "" + BudgetNote == BudgetNote;
  }

  /**
   * A model that answers with text alone ends the request after one
   * iteration with that text; with a budget of exactly one iteration the
   * budget note is added all the same.
   */
  lemma ImmediateAnswer(caps: Capabilities, model: Model, tools: seq<ToolDef>, question: string, maxIterations: int,
                        history: seq<Turn>, answer: string)
    requires maxIterations >= 1
    requires model(history + [Turn(User, Plain(question))], tools) == Response(EndTurn, [TextBlock(answer)])
    ensures Process(caps, model, tools, question, maxIterations, history) ==
      LoopRun(history + [Turn(User, Plain(question)), Turn(Assistant, Blocks([TextBlock(answer)]))],
              Returned(if maxIterations == 1 then answer + BudgetNote else answer), 1, Finished(EndTurn), answer)
  {
    var blocks := [TextBlock(answer)];
    TextOnlyWalk(caps.dumps, Runner(caps, question), blocks, 0, Walk([], [], ""));
    assert blocks[0..] == blocks;
    assert blocks[1..] == [];
    assert Kept(blocks) == blocks;
    assert Texts(blocks) == answer + "" == answer;
    assert [] + blocks == blocks && "" + answer == answer;
    var w := Walk(blocks, [], answer);
    assert WalkReply(caps.dumps, Runner(caps, question), blocks) == Ok(w);
    assert ReplyTurns(w) == [Turn(Assistant, Blocks(blocks))];
    var t0 := history + [Turn(User, Plain(question))];
    assert t0 + ReplyTurns(w) == history + [Turn(User, Plain(question)), Turn(Assistant, Blocks(blocks))];
  }

  /**
   * A model that keeps calling a tool that does not exist uses up the whole
   * budget: with three iterations the conversation gains the user's message
   * and three exchanges, and the response is the last unknown-tool text with
   * the budget note.
   */
  lemma UnknownToolSpendsBudget(caps: Capabilities, model: Model, tools: seq<ToolDef>, question: string,
                                history: seq<Turn>, id: string, name: string, input: ToolInput)
    requires name != CloudControlTool && name != LogsTool
    requires forall ts: seq<Turn> :: model(ts, tools) == Response(ToolUse, [ToolUseBlock(id, name, input)])
    ensures var run := Process(caps, model, tools, question, 3, history);
      && run.outcome == Returned(UnknownToolText(name) + BudgetNote)
      && run.iterations == 3
      && run.ending == BudgetSpent
      && |run.turns| == |history| + 7
  {
    var runTool := Runner(caps, question);
    var blocks := [ToolUseBlock(id, name, input)];
    var w := UnknownToolWalk(caps, question, id, name, input);
    ThreeToolReplies(caps.dumps, runTool, model, tools, history + [Turn(User, Plain(question))], blocks, w);
    assert |ReplyTurns(w)| == 2;
  }

  /** The walk over a single call of an unknown tool: the call, its one result and the unknown-tool text. */
  lemma UnknownToolWalk(caps: Capabilities, question: string, id: string, name: string, input: ToolInput)
    returns (w: Walk)
    requires name != CloudControlTool && name != LogsTool
    ensures WalkReply(caps.dumps, Runner(caps, question), [ToolUseBlock(id, name, input)]) == Ok(w)
    ensures w.text == UnknownToolText(name) && w.results != []
  {
    var runTool := Runner(caps, question);
    var blocks := [ToolUseBlock(id, name, input)];
    var o := ToolOutcome(UnknownToolOutput("Unknown tool: " + name), UnknownToolText(name), []);
    assert ExecuteTool(caps, name, input, question) == Ok(o);
    assert runTool(name, input) == Ok(o);
    w := Walk([] + [blocks[0]], [] + [ToolResultEntry(id, caps.dumps(o.result))], "" + o.text);
    assert WalkFrom(caps.dumps, runTool, blocks, 1, w) == Ok(w);
    assert WalkReply(caps.dumps, runTool, blocks) == WalkFrom(caps.dumps, runTool, blocks, 1, w);
  }

  /** A model that always asks for the same tool calls, which never raise, spends a budget of three. */
  lemma ThreeToolReplies(dumps: ToolResult -> string, runTool: ToolRunner, model: Model, tools: seq<ToolDef>,
                         t0: seq<Turn>, blocks: seq<Block>, w: Walk)
    requires forall ts: seq<Turn> :: model(ts, tools) == Response(ToolUse, blocks)
    requires WalkReply(dumps, runTool, blocks) == Ok(w)
    ensures LoopFrom(dumps, runTool, model, tools, 3, t0, 0, "") ==
      LoopRun(t0 + ReplyTurns(w) + ReplyTurns(w) + ReplyTurns(w), Returned(w.text + BudgetNote), 3, BudgetSpent, w.text)
  {
    var t1 := t0 + ReplyTurns(w);
    var t2 := t1 + ReplyTurns(w);
    var t3 := t2 + ReplyTurns(w);
    assert LoopFrom(dumps, runTool, model, tools, 3, t3, 3, w.text) ==
      LoopRun(t3, Returned(w.text + BudgetNote), 3, BudgetSpent, w.text);
    assert LoopFrom(dumps, runTool, model, tools, 3, t2, 2, w.text) ==
      LoopFrom(dumps, runTool, model, tools, 3, t3, 3, w.text);
    assert LoopFrom(dumps, runTool, model, tools, 3, t1, 1, w.text) ==
      LoopFrom(dumps, runTool, model, tools, 3, t2, 2, w.text);
    assert LoopFrom(dumps, runTool, model, tools, 3, t0, 0, "") ==
      LoopFrom(dumps, runTool, model, tools, 3, t1, 1, w.text);
  }

  // ---------------------------------------------------------------------
  // State: the tool cache, the conversation and the agent
  // ---------------------------------------------------------------------

  /** The tool definitions, read from their file on first use and kept for every later use. */
  class ToolCache {
    const source: seq<ToolDef>       // the content of the definitions file
    var tools: Option<seq<ToolDef>>
    var loads: nat                   // how often the file was read

    ghost predicate Valid()
      reads this
    {
      loads == (if tools.None? then 0 else 1)
    }

    constructor(source: seq<ToolDef>)
      ensures this.source == source && tools == None && loads == 0
      ensures Valid()
    {
      this.source := source;
      tools := None;
      loads := 0;
    }

    /** The tool definitions: the cached ones, or the file's content, which is then cached; the file is read at most once. */
    method FormatTools() returns (defs: seq<ToolDef>)
      requires Valid()
      modifies this
      ensures Valid()
      ensures defs == old(tools).GetOr(source)
      ensures tools == Some(defs)
      ensures loads <= 1
      ensures loads == old(loads) + (if old(tools).None? then 1 else 0)
    {
      if tools.Some? {
        return tools.value;
      }
      loads := loads + 1;
      tools := Some(source);
      defs := source;
    }
  }

  /** A conversation history, which the agent extends in place. */
  class Conversation {
    var turns: seq<Turn>

    constructor(turns: seq<Turn>)
      ensures this.turns == turns
    {
      this.turns := turns;
    }

    /** Appends the assistant turn of a walked reply and, when it called tools, the turn of their results. */
    method AppendReply(w: Walk)
      modifies this
      ensures turns == old(turns) + ReplyTurns(w)
    {
      turns := turns + [Turn(Assistant, Blocks(w.assistant))];
      if w.results != [] {
        turns := turns + [Turn(User, Results(w.results))];
      }
    }
  }

  class AgenticAgent {
    const caps: Capabilities
    const model: Model
    const cache: ToolCache

    constructor(caps: Capabilities, model: Model, cache: ToolCache)
      ensures this.caps == caps && this.model == model && this.cache == cache
    {
      this.caps := caps;
      this.model := model;
      this.cache := cache;
    }

    /**
     * Runs the blocks of one reply in order: gathers the text, runs each
     * tool call and collects its result, skips any other block. A tool that
     * raises stops the walk with its fault.
     */
    method RunTools(runTool: ToolRunner, blocks: seq<Block>) returns (walked: Result<Walk, Fault>)
      ensures walked == WalkReply(caps.dumps, runTool, blocks)
    {
      var assistant: seq<Block> := [];
      var results: seq<ToolResultEntry> := [];
      var text := "";
      var j := 0;
      while j < |blocks|
        invariant 0 <= j <= |blocks|
        invariant WalkFrom(caps.dumps, runTool, blocks, j, Walk(assistant, results, text)) ==
          WalkReply(caps.dumps, runTool, blocks)
      {
        match blocks[j] {
          case TextBlock(t) =>
            text := text + t;
            assistant := assistant + [blocks[j]];
          case ToolUseBlock(id, name, input) =>
            var r := runTool(name, input);
            if r.Err? {
              return Err(r.error);
            }
            text := text + r.value.text;
            assistant := assistant + [blocks[j]];
            results := results + [ToolResultEntry(id, caps.dumps(r.value.result))];
          case OtherBlock =>
        }
        j := j + 1;
      }
      return Ok(Walk(assistant, results, text));
    }

    /**
     * The loop of a request, on a history that already ends with the
     * user's message: asks the model, walks its reply, extends the history in
     * place, and repeats while the model asks for tools and the budget
     * allows. The outcome and the new history are those of LoopFrom.
     */
    method RunLoop(runTool: ToolRunner, history: Conversation, maxIterations: int)
      returns (outcome: RequestOutcome)
      requires cache.Valid()
      modifies history, cache
      ensures cache.Valid()
      ensures var run := LoopFrom(caps.dumps, runTool, model, old(cache.tools).GetOr(cache.source), maxIterations,
                                  old(history.turns), 0, "");
        history.turns == run.turns && outcome == run.outcome
      ensures cache.tools == old(cache.tools) || cache.tools == Some(old(cache.tools).GetOr(cache.source))
    {
      ghost var tools := cache.tools.GetOr(cache.source);
      ghost var initial := cache.tools;
      ghost var run := LoopFrom(caps.dumps, runTool, model, tools, maxIterations, history.turns, 0, "");
      var response := "";
      var iteration: nat := 0;
      var done := false;
      while iteration < maxIterations && !done
        invariant cache.Valid()
        invariant iteration == 0 ==> cache.tools == initial
        invariant iteration > 0 ==> cache.tools == Some(tools)
        invariant !done ==> LoopFrom(caps.dumps, runTool, model, tools, maxIterations, history.turns, iteration, response) == run
        invariant done ==> run.turns == history.turns && run.outcome == Returned(WithNote(response, iteration, maxIterations))
        decreases maxIterations - iteration
      {
        LoopStep(caps.dumps, runTool, model, tools, maxIterations, history.turns, iteration, response);
        iteration := iteration + 1;
        var defs := cache.FormatTools();
        var reply := model(history.turns, defs);
        if !reply.Response? {
          return Returned(ApiErrorText(reply));
        }
        var walked := RunTools(runTool, reply.blocks);
        if walked.Err? {
          return Raised(walked.error);
        }
        history.AppendReply(walked.value);
        response := walked.value.text;
        if reply.stopReason != ToolUse {
          done := true;
        }
      }
      if iteration >= maxIterations {
        response := response + BudgetNote;
      }
      return Returned(response);
    }

    /**
     * Processes one user request: appends the user's message to the
     * history, then runs the loop with the agent's own tool dispatch. The
     * outcome and the new history are those of Process.
     */
    method ProcessRequest(userInput: string, history: Conversation, maxIterations: int)
      returns (outcome: RequestOutcome)
      requires cache.Valid()
      modifies history, cache
      ensures cache.Valid()
      ensures var run := Process(caps, model, old(cache.tools).GetOr(cache.source), userInput, maxIterations,
                                 old(history.turns));
        history.turns == run.turns && outcome == run.outcome
      ensures cache.tools == old(cache.tools) || cache.tools == Some(old(cache.tools).GetOr(cache.source))
    {
      history.turns := history.turns + [Turn(User, Plain(userInput))];
      outcome := RunLoop(Runner(caps, userInput), history, maxIterations);
    }
  }
}
