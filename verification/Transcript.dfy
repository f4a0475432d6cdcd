// The transcript one turn is projected into, and the pure per-turn rules of
// src/app-server/session-projection.ts.

module Transcript {
  import opened Wrappers
  import opened Events
  import opened OutputCap

  const MAX_LIVE_OUTPUT_LINES: nat := 400

  datatype ProseKind = Message | Thought

  // An item's key inside its turn. ItemIds.Render gives the string the source uses.
  datatype ItemId =
    | User(ordinal: nat)
    | Prose(kind: ProseKind, step: nat)
    | Context(technique: string)
    | Tool(callId: string)

  datatype ItemStatus = InProgress | Completed | Failed

  datatype LineKind = Log | Error

  datatype Line = Line(kind: LineKind, text: string)

  datatype Item =
    | UserMessage(id: ItemId, text: string)
    | AgentMessage(id: ItemId, text: string)
    | Reasoning(id: ItemId, content: seq<string>)
    | CommandExecution(id: ItemId, command: string, status: ItemStatus,
                       output: Option<string>, exitCode: Option<int>)
    | FileChange(id: ItemId, changes: seq<Json>, status: ItemStatus, durationMs: Option<int>)
    | DynamicToolCall(id: ItemId, tool: string, arguments: Json, status: ItemStatus,
                      result: Option<Json>, error: Option<string>, live: Option<seq<Line>>)
    | ContextManagement(id: ItemId, status: ItemStatus,
                        savedChars: Option<int>, savedTokens: Option<int>, report: ContextReport)

  datatype TurnStatus = Running | Done | Interrupted | Broken

  datatype Turn = Turn(
    status: TurnStatus,
    items: seq<Item>,
    step: nat,
    stepHasTool: bool,
    stepProseOpen: bool,
    error: Option<string>)

  const NEW_TURN := Turn(Running, [], 0, false, false, None)

  // ---- The ordered item table -------------------------------------------------

  function IndexOf(items: seq<Item>, id: ItemId): (i: nat)
    ensures i <= |items|
    ensures i < |items| ==> items[i].id == id
    ensures forall j :: 0 <= j < i ==> items[j].id != id
  {
    if items == [] then 0
    else if items[0].id == id then 0
    else 1 + IndexOf(items[1..], id)
  }

  predicate Holds(items: seq<Item>, id: ItemId) {
    IndexOf(items, id) < |items|
  }

  // A table keeps the place of a key it already has and appends a new one.
  function Put(items: seq<Item>, item: Item): (r: seq<Item>)
    ensures Holds(items, item.id) ==> r == items[IndexOf(items, item.id) := item]
    ensures !Holds(items, item.id) ==> r == items + [item]
  {
    var i := IndexOf(items, item.id);
    if i < |items| then items[i := item] else items + [item]
  }

  function Users(items: seq<Item>): nat {
    if items == [] then 0
    else (if items[|items| - 1].id.User? then 1 else 0) + Users(items[..|items| - 1])
  }

  // ---- Building items ---------------------------------------------------------

  function CommandOf(args: Json): string {
    TextProperty(Some(args), "cmd").GetOr("")
  }

  function ArgumentsOf(args: Json): Json {
    if args.Object? then args else Object([])
  }

  function ToolItem(call: ToolCall, status: ItemStatus): Item {
    if call.name == "bash" then
      CommandExecution(Tool(call.id), CommandOf(call.args), status, None, None)
    else if call.changes.Some? then
      FileChange(Tool(call.id), call.changes.value, status, None)
    else
      DynamicToolCall(Tool(call.id), call.name, ArgumentsOf(call.args), status, None, None, None)
  }

  function Outcome(result: ToolResult): ItemStatus {
    if result.Ok() then Completed else Failed
  }

  // Standard output then standard error, when the result carries either.
  function PrintedOutput(output: Option<Json>): Option<string> {
    var out := TextProperty(output, "stdout");
    var err := TextProperty(output, "stderr");
    if out.Some? || err.Some? then Some(out.GetOr("") + err.GetOr("")) else None
  }

  function ErrorText(error: Option<Json>): Option<string> {
    var m := TextProperty(error, "message");
    if m.Some? && m.value != "" then m else None
  }

  function OrElse<T>(first: Option<T>, second: Option<T>): Option<T> {
    if first.Some? then first else second
  }

  function CompleteToolItem(existing: Option<Item>, call: ToolCall, result: ToolResult): Item {
    var item := existing.GetOr(ToolItem(call, Outcome(result)));
    match item
    case CommandExecution(_, _, _, output, exitCode) =>
      item.(status := Outcome(result),
            output := OrElse(PrintedOutput(result.Get("output")), output),
            exitCode := OrElse(NumberProperty(result.Get("output"), "exitCode"), exitCode))
    case FileChange(_, changes, _, _) =>
      item.(status := Outcome(result),
            changes := if result.Ok() && result.refined.Some? && result.refined.value != []
                       then result.refined.value else changes,
            durationMs := if result.Get("durationMs").Some? && result.Get("durationMs").value.Number?
                          then Some(result.Get("durationMs").value.n) else None)
    case DynamicToolCall(_, _, _, _, _, error, _) =>
      item.(status := Outcome(result),
            result := result.Get("output"),
            error := OrElse(ErrorText(result.Get("error")), error))
    case _ => item
  }

  function SetItemFailed(item: Item, message: string): Item {
    match item
    case CommandExecution(id, command, _, output, exitCode) =>
      CommandExecution(id, command, Failed, output, exitCode)
    case FileChange(id, changes, _, durationMs) => FileChange(id, changes, Failed, durationMs)
    case DynamicToolCall(id, tool, arguments, _, result, _, live) =>
      DynamicToolCall(id, tool, arguments, Failed, result, Some(message), live)
    case _ => item
  }

  function SumField(prior: Option<int>, next: Option<int>): Option<int> {
    if prior.None? && next.None? then None else Some(prior.GetOr(0) + next.GetOr(0))
  }

  function ContextItem(existing: Option<Item>, report: ContextReport): Item {
    var row := if existing.Some? && existing.value.ContextManagement? then existing else None;
    var chars := if row.Some? then row.value.savedChars else None;
    var tokens := if row.Some? then row.value.savedTokens else None;
    ContextManagement(
      Context(report.technique),
      match report.phase case Begun => InProgress case Faulted => Failed case Finished => Completed,
      SumField(chars, report.savedChars),
      SumField(tokens, report.savedTokens),
      report)
  }

  // Live sandbox output: a chunk joins the last line when that line is of the same
  // kind and still open; only the newest lines are kept.
  function AppendLive(lines: seq<Line>, kind: LineKind, text: string): (r: seq<Line>)
    ensures 0 < |r|
    ensures |r| <= MAX_LIVE_OUTPUT_LINES || |r| <= |lines|
  {
    var n := |lines|;
    var grown :=
      if n > 0 && lines[n - 1].kind == kind && !EndsWithNewline(lines[n - 1].text)
      then lines[n - 1 := Line(kind, lines[n - 1].text + text)]
      else lines + [Line(kind, text)];
    if |grown| > MAX_LIVE_OUTPUT_LINES then grown[|grown| - MAX_LIVE_OUTPUT_LINES..] else grown
  }

  function KindOf(stream: Stream): LineKind {
    if stream == Stderr then Error else Log
  }

  // ---- Notifications ----------------------------------------------------------

  datatype Body =
    | ThreadAnnounced(metadata: Json)
    | StatusChanged(status: string)
    | Closed
    | Queued
    | InterruptNoted
    | TurnBegan
    | ItemStarted(item: Item)
    | ItemCompleted(item: Item)
    | MessageText(id: ItemId, delta: string)
    | ReasoningText(id: ItemId, delta: string)
    | CommandOutput(id: ItemId, delta: string, stream: Stream)
    | LiveOutput(id: ItemId, tool: string, text: string, kind: LineKind)
    | TurnEnded(outcome: TurnStatus, items: seq<Item>, error: Option<string>)
    | UsageUpdated(totalInput: nat, totalOutput: nat, lastInput: nat, lastOutput: nat)
    | VerificationNoted(verdict: Json)
    | PlanNoted(steps: seq<Json>)
    | TodoNoted(entries: seq<Json>)
    | Passed(topic: string, payload: seq<Field>)

  // ---- One turn, one event ----------------------------------------------------

  datatype Effect = Effect(turn: Turn, notes: seq<Body>)

  // Prose that follows a tool call opens the next step, unless a message is still open.
  function BeginProseStep(t: Turn): Turn {
    if !t.stepHasTool || t.stepProseOpen then t
    else t.(step := t.step + 1, stepHasTool := false)
  }

  function Find(items: seq<Item>, id: ItemId): (r: Option<Item>)
    ensures r.Some? <==> Holds(items, id)
    ensures r.Some? ==> r.value == items[IndexOf(items, id)] && r.value.id == id
  {
    var i := IndexOf(items, id);
    if i < |items| then Some(items[i]) else None
  }

  function OnUserMessage(turn: Turn, text: string): Effect {
    var t := BeginProseStep(turn);
    var ordinal := Users(t.items);
    var item := Item.UserMessage(User(ordinal), text);
    Effect(t.(items := Put(t.items, item)), if ordinal == 0 then [] else [ItemStarted(item)])
  }

  // Every item placed before the turn began, started and completed in place order.
  function Announce(items: seq<Item>): seq<Body> {
    if items == [] then []
    else Announce(items[..|items| - 1])
         + [ItemStarted(items[|items| - 1]), ItemCompleted(items[|items| - 1])]
  }

  function OnTurnStarted(t: Turn): Effect {
    Effect(t.(status := Running), [TurnBegan] + Announce(t.items))
  }

  function OnMessageDelta(turn: Turn, text: string): Effect {
    var t := BeginProseStep(turn);
    var id := Prose(Message, t.step);
    var existing := Find(t.items, id);
    var item := if existing.Some? && existing.value.AgentMessage? then existing.value
                else AgentMessage(id, "");
    Effect(
      t.(stepProseOpen := true, items := Put(t.items, AgentMessage(id, item.text + text))),
      (if existing.Some? then [] else [ItemStarted(item)]) + [MessageText(id, text)])
  }

  function OnMessageCompleted(turn: Turn, text: string): Effect {
    var t := BeginProseStep(turn);
    var id := Prose(Message, t.step);
    var existing := Find(t.items, id);
    var held := if existing.Some? && existing.value.AgentMessage? then existing.value.text else "";
    var item := AgentMessage(id, if text != "" then text else held);
    Effect(t.(stepProseOpen := false, items := Put(t.items, item)), [ItemCompleted(item)])
  }

  function OnReasoningDelta(turn: Turn, text: string): Effect {
    var t := BeginProseStep(turn);
    var id := Prose(Thought, t.step);
    var existing := Find(t.items, id);
    var item := if existing.Some? && existing.value.Reasoning? then existing.value
                else Reasoning(id, []);
    Effect(
      t.(items := Put(t.items, Reasoning(id, item.content + [text]))),
      (if existing.Some? then [] else [ItemStarted(item)]) + [ReasoningText(id, text)])
  }

  function OnReasoningCompleted(turn: Turn, text: string): Effect {
    var t := BeginProseStep(turn);
    var id := Prose(Thought, t.step);
    var existing := Find(t.items, id);
    var held := if existing.Some? && existing.value.Reasoning? then existing.value.content else [];
    var item := Reasoning(id, if text != "" then [text] else held);
    Effect(t.(items := Put(t.items, item)), [ItemCompleted(item)])
  }

  function OnToolStarted(t: Turn, call: ToolCall): Effect {
    var item := ToolItem(call, InProgress);
    Effect(t.(stepHasTool := true, items := Put(t.items, item)), [ItemStarted(item)])
  }

  function OnOutput(t: Turn, callId: string, stream: Stream, text: string): Effect {
    var existing := Find(t.items, Tool(callId));
    if existing.Some? && existing.value.CommandExecution? then
      var item := existing.value.(output := Some(Cap(existing.value.output.GetOr("") + text)));
      Effect(t.(items := Put(t.items, item)), [CommandOutput(Tool(callId), text, stream)])
    else if existing.Some? && existing.value.DynamicToolCall? then
      var item := existing.value.(live := Some(AppendLive(existing.value.live.GetOr([]), KindOf(stream), text)));
      Effect(t.(items := Put(t.items, item)),
             [LiveOutput(Tool(callId), existing.value.tool, text, KindOf(stream))])
    else
      Effect(t, [])
  }

  function OnToolCompleted(t: Turn, call: ToolCall, result: ToolResult): Effect {
    var item := CompleteToolItem(Find(t.items, Tool(call.id)), call, result);
    Effect(t.(items := Put(t.items, item)), [ItemCompleted(item)])
  }

  function OnToolFailed(t: Turn, call: ToolCall, message: string): Effect {
    var item := SetItemFailed(Find(t.items, Tool(call.id)).GetOr(ToolItem(call, Failed)), message);
    Effect(t.(items := Put(t.items, item)), [ItemCompleted(item)])
  }

  function OnContext(t: Turn, report: ContextReport): Effect {
    var item := ContextItem(Find(t.items, Context(report.technique)), report);
    Effect(t.(items := Put(t.items, item)),
           [if item.status == InProgress then ItemStarted(item) else ItemCompleted(item)])
  }

  function OnTurnEnd(t: Turn, status: TurnStatus, error: Option<string>): Effect {
    if t.status == status && error.None? then Effect(t, [])
    else
      var u := t.(status := status, error := if error.Some? then error else t.error);
      Effect(u, [TurnEnded(u.status, u.items, u.error)])
  }

  // The events whose projection goes through the turn table.
  predicate TouchesTurn(e: Event) {
    e.UserMessage? || e.TurnStarted? || e.MessageDelta? || e.MessageCompleted? || e.ReasoningDelta?
    || e.ReasoningCompleted? || e.ToolStarted? || e.OutputDelta? || e.ToolCompleted? || e.ToolFailed?
    || e.ContextUpdated? || e.TurnCompleted? || e.TurnAborted? || e.TurnFailed?
  }

  // An empty failure message is no error at all: the source tests it for truth.
  function Failure(message: string): Option<string> {
    if message == "" then None else Some(message)
  }

  function StepTurn(t: Turn, e: Event): Effect
    requires TouchesTurn(e)
  {
    match e
    case UserMessage(text) => OnUserMessage(t, text)
    case TurnStarted => OnTurnStarted(t)
    case MessageDelta(text) => OnMessageDelta(t, text)
    case MessageCompleted(text) => OnMessageCompleted(t, text)
    case ReasoningDelta(text) => OnReasoningDelta(t, text)
    case ReasoningCompleted(text) => OnReasoningCompleted(t, text)
    case ToolStarted(call) => OnToolStarted(t, call)
    case OutputDelta(callId, stream, text) => OnOutput(t, callId, stream, text)
    case ToolCompleted(call, result) => OnToolCompleted(t, call, result)
    case ToolFailed(call, _, message) => OnToolFailed(t, call, message)
    case ContextUpdated(report) => OnContext(t, report)
    case TurnCompleted(_) => OnTurnEnd(t, Done, None)
    case TurnAborted(_) => OnTurnEnd(t, Interrupted, None)
    case TurnFailed(_, message) => OnTurnEnd(t, Broken, Failure(message))
  }
}
