// What an item holds: after one event, and after any run of a turn's events
// (src/app-server/session-projection.ts). Everything here is said of StepTurn and RunTurn
// in terms of the event's own fields.

module TranscriptMeaning {
  import opened Wrappers
  import opened Events
  import opened OutputCap
  import opened Strings
  import opened Transcript
  import opened TranscriptOrder

  // ---- The table --------------------------------------------------------------

  lemma PutShows(items: seq<Item>, item: Item, id: ItemId)
    ensures Find(Put(items, item), id) == if id == item.id then Some(item) else Find(items, id)
  {
    var r := Put(items, item);
    PutKeepsPlaces(items, item);
    if Holds(items, id) {
      KeptKeyKeepsIndex(items, r, id);
    } else if Holds(r, id) {
      HoldsIffPresent(items, item.id);
      assert r[|items|] == item && r[IndexOf(r, id)] == item;
    }
  }

  // ---- Tool calls -------------------------------------------------------------

  // The item a call gives by itself, its status aside.
  ghost predicate Built(call: ToolCall, item: Item) {
    item.id == Tool(call.id)
    && match item
       case CommandExecution(_, command, _, output, exitCode) =>
         && call.name == "bash" && output.None? && exitCode.None?
         && if exists s :: Reads(Some(call.args), "cmd", Text(s)) then Reads(Some(call.args), "cmd", Text(command))
            else command == ""
       case FileChange(_, changes, _, durationMs) =>
         call.name != "bash" && call.changes == Some(changes) && durationMs.None?
       case DynamicToolCall(_, tool, arguments, _, result, error, live) =>
         && call.name != "bash" && call.changes.None? && tool == call.name
         && arguments == (if call.args.Object? then call.args else Object([]))
         && result.None? && error.None? && live.None?
       case _ => false
  }

  // The item of a call when news of the call comes in: the one on show, if there is one.
  ghost predicate Current(t: Turn, call: ToolCall, item: Item) {
    match Find(t.items, Tool(call.id))
    case Some(shown) => item == shown
    case None => Built(call, item)
  }

  // What a result makes of the item.
  predicate AsCompleted(held: Item, result: ToolResult, item: Item) {
    var status := if Lookup(result.fields, "ok") == Some(Bool(true)) then ItemStatus.Completed else ItemStatus.Failed;
    var output := Lookup(result.fields, "output");
    match held
    case CommandExecution(id, command, _, printed, exitCode) =>
      && item.CommandExecution? && item.id == id && item.command == command && item.status == status
      && item.output == (match (TextProperty(output, "stdout"), TextProperty(output, "stderr"))
                         case (None, None) => printed
                         case (Some(out), None) => Some(out)
                         case (None, Some(err)) => Some(err)
                         case (Some(out), Some(err)) => Some(out + err))
      && item.exitCode == (match NumberProperty(output, "exitCode") case None => exitCode case Some(n) => Some(n))
    case FileChange(id, changes, _, _) =>
      && item.FileChange? && item.id == id && item.status == status
      && item.changes == (match result.refined
                          case None => changes
                          case Some(refined) => if status == Completed && refined != [] then refined else changes)
      && item.durationMs == (match Lookup(result.fields, "durationMs") case Some(Number(n)) => Some(n) case _ => None)
    case DynamicToolCall(id, tool, arguments, _, _, error, live) =>
      && item.DynamicToolCall? && item.id == id && item.tool == tool && item.arguments == arguments
      && item.status == status && item.result == output && item.live == live
      && item.error == (match TextProperty(Lookup(result.fields, "error"), "message")
                        case None => error
                        case Some(message) => if message == "" then error else Some(message))
    case _ => false
  }

  // What a failure makes of it.
  predicate AsFailed(held: Item, message: string, item: Item) {
    match held
    case CommandExecution(id, command, _, output, exitCode) =>
      item == CommandExecution(id, command, ItemStatus.Failed, output, exitCode)
    case FileChange(id, changes, _, durationMs) => item == FileChange(id, changes, ItemStatus.Failed, durationMs)
    case DynamicToolCall(id, tool, arguments, _, result, _, live) =>
      item == DynamicToolCall(id, tool, arguments, ItemStatus.Failed, result, Some(message), live)
    case _ => false
  }

  // The event files this one item and says so by this one note.
  predicate Tells(t: Turn, r: Effect, item: Item, note: Body) {
    r.turn.items == Put(t.items, item) && Find(r.turn.items, item.id) == Some(item) && r.notes == [note]
  }

  lemma ToolItemIsBuilt(call: ToolCall, status: ItemStatus)
    ensures Built(call, ToolItem(call, status)) && ToolItem(call, status).status == status
  {
    forall s ensures TextProperty(Some(call.args), "cmd") == Some(s) <==> Reads(Some(call.args), "cmd", Text(s)) {
      PropertyReads(Some(call.args), "cmd", Text(s));
    }
  }

  // A call that starts is in progress, and shows as the kind its name and changes say.
  lemma CallStarts(t: Turn, call: ToolCall) returns (item: Item)
    ensures Built(call, item) && item.status == InProgress
    ensures var r := StepTurn(t, ToolStarted(call));
            && Tells(t, r, item, ItemStarted(item))
            && r.turn == t.(items := r.turn.items, stepHasTool := true)
  {
    item := ToolItem(call, InProgress);
    ToolItemIsBuilt(call, InProgress);
    PutShows(t.items, item, item.id);
  }

  predicate IsToolItem(item: Item) {
    item.CommandExecution? || item.FileChange? || item.DynamicToolCall?
  }

  lemma ResultIsTaken(held: Item, call: ToolCall, result: ToolResult)
    requires IsToolItem(held)
    ensures AsCompleted(held, result, CompleteToolItem(Some(held), call, result))
    ensures CompleteToolItem(Some(held), call, result).id == held.id
  {
    var out := TextProperty(result.Get("output"), "stdout").GetOr("");
    var err := TextProperty(result.Get("output"), "stderr").GetOr("");
    assert out + "" == out && "" + err == err;
  }

  lemma FailureIsTaken(held: Item, message: string)
    requires IsToolItem(held)
    ensures AsFailed(held, message, SetItemFailed(held, message)) && SetItemFailed(held, message).id == held.id
  {
  }

  lemma ShownToolItem(t: Turn, callId: string)
    requires WellPlaced(t)
    ensures Find(t.items, Tool(callId)).Some? ==> IsToolItem(Find(t.items, Tool(callId)).value)
  {
    if Find(t.items, Tool(callId)).Some? {
      assert Kinded(Find(t.items, Tool(callId)).value);
    }
  }

  // A call that completes is completed if its result is ok and failed if not, and holds what
  // the result says.
  lemma CallCompletes(t: Turn, call: ToolCall, result: ToolResult) returns (held: Item, item: Item)
    requires WellPlaced(t)
    ensures Current(t, call, held) && AsCompleted(held, result, item) && item.id == Tool(call.id)
    ensures var r := StepTurn(t, ToolCompleted(call, result));
            Tells(t, r, item, ItemCompleted(item)) && r.turn == t.(items := r.turn.items)
  {
    var shown := Find(t.items, Tool(call.id));
    held := if shown.Some? then shown.value else ToolItem(call, Outcome(result));
    item := CompleteToolItem(Some(held), call, result);
    ToolItemIsBuilt(call, Outcome(result));
    ShownToolItem(t, call.id);
    ResultIsTaken(held, call, result);
    assert CompleteToolItem(shown, call, result) == item;
    hide AsCompleted, CompleteToolItem, WellPlaced;
    PutShows(t.items, item, item.id);
  }

  lemma CallFails(t: Turn, call: ToolCall, name: string, message: string) returns (held: Item, item: Item)
    requires WellPlaced(t)
    ensures Current(t, call, held) && AsFailed(held, message, item) && item.id == Tool(call.id)
    ensures var r := StepTurn(t, ToolFailed(call, name, message));
            Tells(t, r, item, ItemCompleted(item)) && r.turn == t.(items := r.turn.items)
  {
    var shown := Find(t.items, Tool(call.id));
    held := if shown.Some? then shown.value else ToolItem(call, ItemStatus.Failed);
    item := SetItemFailed(held, message);
    ToolItemIsBuilt(call, ItemStatus.Failed);
    ShownToolItem(t, call.id);
    FailureIsTaken(held, message);
    hide WellPlaced, AsFailed, ToolItem;
    assert StepTurn(t, ToolFailed(call, name, message)) == Effect(t.(items := Put(t.items, item)), [ItemCompleted(item)]);
    PutShows(t.items, item, item.id);
  }

  // ---- Output while a call runs -----------------------------------------------

  function Joined(held: Option<string>, text: string): string {
    match held case None => text case Some(before) => before + text
  }

  // A chunk adds to the output of a command, up to the cap, and to the live lines of any
  // other tool; a file change and an unknown call ignore it.
  lemma OutputArrives(t: Turn, callId: string, stream: Stream, text: string)
    requires WellPlaced(t)
    ensures var r := StepTurn(t, OutputDelta(callId, stream, text));
            match Find(t.items, Tool(callId))
            case Some(CommandExecution(id, command, status, output, exitCode)) =>
              Tells(t, r, CommandExecution(id, command, status, Some(Cap(Joined(output, text))), exitCode),
                    CommandOutput(id, text, stream))
            case Some(DynamicToolCall(id, tool, arguments, status, result, error, live)) =>
              var kind := match stream case Stdout => Log case Stderr => LineKind.Error;
              var lines := AppendLive(match live case None => [] case Some(held) => held, kind, text);
              Tells(t, r, DynamicToolCall(id, tool, arguments, status, result, error, Some(lines)),
                    LiveOutput(id, tool, text, kind))
            case _ => r == Effect(t, [])
    ensures var u := StepTurn(t, OutputDelta(callId, stream, text)).turn; u == t.(items := u.items)
  {
    var item := Find(StepTurn(t, OutputDelta(callId, stream, text)).turn.items, Tool(callId));
    match Find(t.items, Tool(callId))
    case Some(CommandExecution(id, command, status, output, exitCode)) =>
      assert output.GetOr("") + text == Joined(output, text);
      PutShows(t.items, CommandExecution(id, command, status, Some(Cap(Joined(output, text))), exitCode), id);
    case Some(DynamicToolCall(id, tool, arguments, status, result, error, live)) =>
      var kind := match stream case Stdout => Log case Stderr => LineKind.Error;
      var lines := AppendLive(match live case None => [] case Some(held) => held, kind, text);
      PutShows(t.items, DynamicToolCall(id, tool, arguments, status, result, error, Some(lines)), id);
    case _ =>
  }

  // A chunk joins the last line if that is of its kind and still open and is a line of its own
  // otherwise. The newest 400 lines stay.
  lemma LinesGrow(lines: seq<Line>, kind: LineKind, text: string) returns (grown: seq<Line>)
    ensures if lines != [] && lines[|lines| - 1].kind == kind
               && (lines[|lines| - 1].text == "" || lines[|lines| - 1].text[|lines[|lines| - 1].text| - 1] != '\n')
            then grown == lines[..|lines| - 1] + [Line(kind, lines[|lines| - 1].text + text)]
            else grown == lines + [Line(kind, text)]
    ensures AppendLive(lines, kind, text) == if |grown| <= 400 then grown else grown[|grown| - 400..]
  {
    var n := |lines|;
    if n > 0 && lines[n - 1].kind == kind && !EndsWithNewline(lines[n - 1].text) {
      grown := lines[..n - 1] + [Line(kind, lines[n - 1].text + text)];
      assert lines[n - 1 := Line(kind, lines[n - 1].text + text)] == grown;
    } else {
      grown := lines + [Line(kind, text)];
    }
  }

  // ---- Prose ------------------------------------------------------------------

  // The step prose is filed under, by the turn's own flags.
  function ProseStep(t: Turn): nat {
    if t.stepHasTool && !t.stepProseOpen then t.step + 1 else t.step
  }

  // Nothing but the items, the step and the open message changes.
  predicate ProseFiled(t: Turn, u: Turn, open: bool) {
    && u.status == t.status && u.error == t.error && u.step == ProseStep(t)
    && u.stepHasTool == (t.stepHasTool && t.stepProseOpen) && u.stepProseOpen == open
  }

  lemma ShownProse(t: Turn, id: ItemId)
    requires WellPlaced(t) && id.Prose?
    ensures match Find(t.items, id)
            case None => true
            case Some(item) => if id.kind == Message then item.AgentMessage? else item.Reasoning?
  {
    if Find(t.items, id).Some? {
      assert Kinded(Find(t.items, id).value);
    }
  }

  lemma MessageGrows(t: Turn, text: string)
    requires WellPlaced(t)
    ensures var id := Prose(Message, ProseStep(t));
            var r := StepTurn(t, Event.MessageDelta(text));
            ProseFiled(t, r.turn, true)
            && match Find(t.items, id)
               case Some(AgentMessage(_, held)) => Tells(t, r, AgentMessage(id, held + text), MessageText(id, text))
               case _ =>
                 && Find(t.items, id).None? && r.turn.items == t.items + [AgentMessage(id, text)]
                 && Find(r.turn.items, id) == Some(AgentMessage(id, text))
                 && r.notes == [ItemStarted(AgentMessage(id, "")), MessageText(id, text)]
  {
    var id := Prose(Message, ProseStep(t));
    var held := match Find(t.items, id) case Some(AgentMessage(_, held)) => held case _ => "";
    assert "" + text == text;
    PutShows(t.items, AgentMessage(id, held + text), id);
  }

  // A message that is complete holds exactly the text it was completed with, or what had
  // been streamed if that is empty.
  lemma MessageCloses(t: Turn, text: string)
    requires WellPlaced(t)
    ensures var id := Prose(Message, ProseStep(t));
            var r := StepTurn(t, Event.MessageCompleted(text));
            ProseFiled(t, r.turn, false)
            && match Find(t.items, id)
               case Some(AgentMessage(_, held)) =>
                 var item := AgentMessage(id, if text == "" then held else text);
                 Tells(t, r, item, ItemCompleted(item))
               case _ => Tells(t, r, AgentMessage(id, text), ItemCompleted(AgentMessage(id, text)))
  {
    var id := Prose(Message, ProseStep(t));
    var held := match Find(t.items, id) case Some(AgentMessage(_, held)) => held case _ => "";
    PutShows(t.items, AgentMessage(id, if text == "" then held else text), id);
  }

  lemma ThoughtGrows(t: Turn, text: string)
    requires WellPlaced(t)
    ensures var id := Prose(Thought, ProseStep(t));
            var r := StepTurn(t, Event.ReasoningDelta(text));
            ProseFiled(t, r.turn, t.stepProseOpen)
            && match Find(t.items, id)
               case Some(Reasoning(_, held)) => Tells(t, r, Reasoning(id, held + [text]), ReasoningText(id, text))
               case _ =>
                 && Find(t.items, id).None? && r.turn.items == t.items + [Reasoning(id, [text])]
                 && Find(r.turn.items, id) == Some(Reasoning(id, [text]))
                 && r.notes == [ItemStarted(Reasoning(id, [])), ReasoningText(id, text)]
  {
    var id := Prose(Thought, ProseStep(t));
    var held := match Find(t.items, id) case Some(Reasoning(_, held)) => held case _ => [];
    assert [] + [text] == [text];
    ShownProse(t, id);
    hide WellPlaced;
    PutShows(t.items, Reasoning(id, held + [text]), id);
  }

  lemma ThoughtCloses(t: Turn, text: string)
    requires WellPlaced(t)
    ensures var id := Prose(Thought, ProseStep(t));
            var r := StepTurn(t, Event.ReasoningCompleted(text));
            var held := match Find(t.items, id) case Some(Reasoning(_, held)) => held case _ => [];
            var item := Reasoning(id, if text == "" then held else [text]);
            ProseFiled(t, r.turn, t.stepProseOpen) && Tells(t, r, item, ItemCompleted(item))
  {
    var id := Prose(Thought, ProseStep(t));
    var held := match Find(t.items, id) case Some(Reasoning(_, held)) => held case _ => [];
    PutShows(t.items, Reasoning(id, if text == "" then held else [text]), id);
  }

  // The opening message of a turn is not told; every later one is.
  lemma UserMessageTold(t: Turn, text: string)
    requires WellPlaced(t)
    ensures var r := StepTurn(t, Event.UserMessage(text));
            && ProseFiled(t, r.turn, t.stepProseOpen)
            && |r.turn.items| == |t.items| + 1 && r.turn.items[..|t.items|] == t.items
            && var item := r.turn.items[|t.items|];
               && item.UserMessage? && item.text == text
               && (if exists i :: 0 <= i < |t.items| && t.items[i].UserMessage?
                   then r.notes == [ItemStarted(item)] else r.notes == [])
  {
    UserMessageAppends(t, text);
    if exists i :: 0 <= i < |t.items| && t.items[i].UserMessage? {
      var i :| 0 <= i < |t.items| && t.items[i].UserMessage?;
      assert Kinded(t.items[i]);
      assert t.items[i].id.ordinal < Users(t.items);
    }
    if Users(t.items) > 0 {
      HoldsIffPresent(t.items, User(0));
      var i :| 0 <= i < |t.items| && t.items[i].id == User(0);
      assert Kinded(t.items[i]);
    }
  }

  // ---- Context management and the turn's boundaries ---------------------------

  // The savings of one technique add up over a turn; the rest is the latest report's.
  lemma ContextAddsUp(t: Turn, report: ContextReport)
    requires WellPlaced(t)
    ensures var id := Context(report.technique);
            var status := match report.phase case Begun => InProgress case Finished => ItemStatus.Completed
                                             case Faulted => ItemStatus.Failed;
            var r := StepTurn(t, ContextUpdated(report));
            r.turn == t.(items := r.turn.items)
            && match Find(t.items, id)
               case Some(ContextManagement(_, _, chars, tokens, _)) =>
                 var item := ContextManagement(id, status, Total(chars, report.savedChars), Total(tokens, report.savedTokens), report);
                 Tells(t, r, item, if status == InProgress then ItemStarted(item) else ItemCompleted(item))
               case _ =>
                 var item := ContextManagement(id, status, report.savedChars, report.savedTokens, report);
                 Tells(t, r, item, if status == InProgress then ItemStarted(item) else ItemCompleted(item))
  {
    var id := Context(report.technique);
    PutShows(t.items, ContextItem(Find(t.items, id), report), id);
  }

  function Total(a: Option<int>, b: Option<int>): Option<int> {
    match (a, b)
    case (None, None) => None
    case (Some(x), None) => Some(x)
    case (None, Some(y)) => Some(y)
    case (Some(x), Some(y)) => Some(x + y)
  }

  lemma {:induction false} AnnouncedInPairs(items: seq<Item>)
    ensures |Announce(items)| == 2 * |items|
    ensures forall i :: 0 <= i < |items| ==>
              Announce(items)[2 * i] == ItemStarted(items[i]) && Announce(items)[2 * i + 1] == ItemCompleted(items[i])
  {
    if items != [] {
      AnnouncedInPairs(items[..|items| - 1]);
    }
  }

  // The turn's start tells every item it already holds, as started and completed, in order.
  lemma TurnBegins(t: Turn)
    ensures var r := StepTurn(t, TurnStarted);
            && r.turn == t.(status := Running)
            && |r.notes| == 1 + 2 * |t.items| && r.notes[0] == TurnBegan
            && forall i :: 0 <= i < |t.items| ==>
                 r.notes[2 * i + 1] == ItemStarted(t.items[i]) && r.notes[2 * i + 2] == ItemCompleted(t.items[i])
  {
    AnnouncedInPairs(t.items);
    forall i | 0 <= i < |t.items|
      ensures StepTurn(t, TurnStarted).notes[2 * i + 1] == ItemStarted(t.items[i])
      ensures StepTurn(t, TurnStarted).notes[2 * i + 2] == ItemCompleted(t.items[i])
    {
      assert Announce(t.items)[2 * i + 1] == ItemCompleted(t.items[i]);
    }
  }

  // The status a boundary leaves, and the message of a failure that has one.
  predicate Boundary(e: Event, status: TurnStatus) {
    match status
    case Running => e.TurnStarted?
    case Done => e.TurnCompleted?
    case Interrupted => e.TurnAborted?
    case Broken => e.TurnFailed?
  }

  predicate Blames(e: Event) {
    e.TurnFailed? && e.message != ""
  }

  // An end that says nothing new is not told.
  lemma TurnEnds(t: Turn, e: Event, status: TurnStatus)
    requires Boundary(e, status) && status != Running
    ensures var r := StepTurn(t, e);
            && r.turn == t.(status := status, error := if Blames(e) then Some(e.message) else t.error)
            && r.notes == if t.status == status && !Blames(e) then []
                          else [TurnEnded(status, t.items, if Blames(e) then Some(e.message) else t.error)]
  {
  }

  // ---- Whole runs -------------------------------------------------------------

  lemma {:induction false} RunInParts(t: Turn, first: seq<Event>, rest: seq<Event>)
    requires forall e :: e in first + rest ==> TouchesTurn(e)
    ensures forall e :: e in first ==> TouchesTurn(e)
    ensures forall e :: e in rest ==> TouchesTurn(e)
    ensures RunTurn(t, first + rest) == RunTurn(RunTurn(t, first), rest)
    decreases first
  {
    assert forall e :: e in first ==> e in first + rest;
    assert forall e :: e in rest ==> e in first + rest;
    if first == [] {
      assert first + rest == rest;
    } else {
      assert (first + rest)[0] == first[0] && (first + rest)[1..] == first[1..] + rest;
      RunInParts(StepTurn(t, first[0]).turn, first[1..], rest);
    }
  }

  predicate AboutCall(e: Event, callId: string) {
    match e
    case ToolStarted(call) => call.id == callId
    case ToolCompleted(call, _) => call.id == callId
    case ToolFailed(call, _, _) => call.id == callId
    case OutputDelta(id, _, _) => id == callId
    case _ => false
  }

  // An event files its item under its own key and leaves the others as they are.
  lemma StepFiles(t: Turn, e: Event, id: ItemId)
    requires WellPlaced(t) && TouchesTurn(e) && KeyOf(t, e) != Some(id)
    requires e.OutputDelta? ==> id != Tool(e.toolCallId)
    ensures Find(StepTurn(t, e).turn.items, id) == Find(t.items, id)
  {
    hide Kinded, OrdinalsDense;
    var u := StepTurn(t, e).turn;
    var key := if e.OutputDelta? then Tool(e.toolCallId) else if KeyOf(t, e).Some? then KeyOf(t, e).value else id;
    if u.items != t.items {
      var item := Find(u.items, key);
      FiledUnder(t, e, key);
      PutShows(t.items, item.value, id);
    }
  }

  // u comes from t by filing one item under the key, or is t as far as items go.
  predicate Filed(t: Turn, u: Turn, key: ItemId) {
    u.items == t.items || (Find(u.items, key).Some? && u.items == Put(t.items, Find(u.items, key).value))
  }

  lemma FiledUnder(t: Turn, e: Event, key: ItemId)
    requires WellPlaced(t) && TouchesTurn(e)
    requires KeyOf(t, e) == Some(key) || (e.OutputDelta? && key == Tool(e.toolCallId))
    ensures Filed(t, StepTurn(t, e).turn, key)
  {
    if e.UserMessage? {
      UserMessageAppends(t, e.text);
      PutShows(t.items, Item.UserMessage(key, e.text), key);
    } else if IsProse(e, Message) || IsProse(e, Thought) {
      ProseFiledUnder(t, e, key);
    } else if e.ContextUpdated? {
      ContextAddsUp(t, e.report);
    } else {
      CallFiledUnder(t, e);
    }
  }

  lemma ProseFiledUnder(t: Turn, e: Event, key: ItemId)
    requires WellPlaced(t) && (IsProse(e, Message) || IsProse(e, Thought)) && KeyOf(t, e) == Some(key)
    ensures Filed(t, StepTurn(t, e).turn, key)
  {
    hide StepTurn, WellPlaced;
    match e
    case MessageDelta(text) => MessageGrows(t, text);
    case MessageCompleted(text) => MessageCloses(t, text);
    case ReasoningDelta(text) => ThoughtGrows(t, text);
    case ReasoningCompleted(text) => ThoughtCloses(t, text);
  }

  lemma CallFiledUnder(t: Turn, e: Event)
    requires WellPlaced(t) && (e.ToolStarted? || e.ToolCompleted? || e.ToolFailed? || e.OutputDelta?)
    ensures Filed(t, StepTurn(t, e).turn, Tool(if e.OutputDelta? then e.toolCallId else e.call.id))
  {
    hide StepTurn, WellPlaced, AsCompleted, AsFailed, Current;
    match e
    case ToolStarted(call) => var item := CallStarts(t, call);
    case ToolCompleted(call, result) => var held, item := CallCompletes(t, call, result);
    case ToolFailed(call, name, message) => var held, item := CallFails(t, call, name, message);
    case OutputDelta(id, stream, text) => OutputArrives(t, id, stream, text);
  }

  lemma {:induction false} CallsLeftAlone(t: Turn, events: seq<Event>, callId: string)
    requires WellPlaced(t)
    requires forall e :: e in events ==> TouchesTurn(e) && !AboutCall(e, callId)
    ensures Find(RunTurn(t, events).items, Tool(callId)) == Find(t.items, Tool(callId))
    decreases events
  {
    if events != [] {
      StepAdvances(t, events[0]);
      StepFiles(t, events[0], Tool(callId));
      CallsLeftAlone(StepTurn(t, events[0]).turn, events[1..], callId);
    }
  }

  // The last word on a call stands: whatever else happens in the turn, the call shows what
  // its completion or its failure made of it.
  lemma LastWordStands(t: Turn, before: seq<Event>, last: Event, after: seq<Event>)
    returns (held: Item, item: Item)
    requires WellPlaced(t) && (last.ToolCompleted? || last.ToolFailed?)
    requires forall e :: e in before + [last] + after ==> TouchesTurn(e)
    requires forall e :: e in after ==> !AboutCall(e, last.call.id)
    ensures forall e :: e in before ==> TouchesTurn(e)
    ensures Current(RunTurn(t, before), last.call, held)
    ensures if last.ToolCompleted? then AsCompleted(held, last.result, item) else AsFailed(held, last.message, item)
    ensures Find(RunTurn(t, before + [last] + after).items, Tool(last.call.id)) == Some(item)
  {
    hide WellPlaced, AsCompleted, AsFailed, Current;
    assert before + [last] + after == before + ([last] + after);
    assert ([last] + after)[0] == last && ([last] + after)[1..] == after;
    RunInParts(t, before, [last] + after);
    var u := RunTurn(t, before);
    RunKeepsPlaces(t, before);
    if last.ToolCompleted? {
      held, item := CallCompletes(u, last.call, last.result);
    } else {
      held, item := CallFails(u, last.call, last.name, last.message);
    }
    StepAdvances(u, last);
    CallsLeftAlone(StepTurn(u, last).turn, after, last.call.id);
  }

  // ---- The output of a running call -------------------------------------------

  // The call's chunks on one stream, or on both, joined.
  function Chunks(events: seq<Event>, callId: string, streams: set<Stream>): string {
    if events == [] then ""
    else
      (if events[0].OutputDelta? && events[0].toolCallId == callId && events[0].stream in streams then events[0].text
       else "") + Chunks(events[1..], callId, streams)
  }

  predicate Printed(events: seq<Event>, callId: string) {
    exists e :: e in events && AboutCall(e, callId)
  }

  lemma PrintedLater(events: seq<Event>, callId: string)
    requires events != []
    ensures Printed(events, callId) <==> AboutCall(events[0], callId) || Printed(events[1..], callId)
  {
    assert forall e :: e in events <==> e == events[0] || e in events[1..];
  }

  lemma {:induction false} NoChunks(events: seq<Event>, callId: string, streams: set<Stream>)
    requires !Printed(events, callId)
    ensures Chunks(events, callId, streams) == ""
  {
    if events != [] {
      PrintedLater(events, callId);
      NoChunks(events[1..], callId, streams);
    }
  }

  predicate OnlyPrints(events: seq<Event>, callId: string) {
    forall e :: e in events ==> TouchesTurn(e) && (AboutCall(e, callId) ==> e.OutputDelta?)
  }

  // Capped chunk by chunk.
  function Grown(held: Option<string>, events: seq<Event>, callId: string): Option<string>
    decreases events
  {
    if events == [] then held
    else if events[0].OutputDelta? && events[0].toolCallId == callId
    then Grown(Some(Cap(Joined(held, events[0].text))), events[1..], callId)
    else Grown(held, events[1..], callId)
  }

  lemma CappedTwice(held: Option<string>, text: string, more: string)
    ensures Cap(Joined(Some(Cap(Joined(held, text))), more)) == Cap(Joined(held, text + more))
  {
    CapAbsorbs(Joined(held, text), more);
    if held.Some? {
      Regrouped(held.value, text, more);
    }
  }

  lemma ChunksLater(events: seq<Event>, callId: string)
    requires OnlyPrints(events, callId) && events != []
    ensures Chunks(events, callId, {Stdout, Stderr})
         == (if AboutCall(events[0], callId) then events[0].text else "") + Chunks(events[1..], callId, {Stdout, Stderr})
  {
    var e := events[0];
    assert AboutCall(e, callId) ==> e.stream == Stdout || e.stream == Stderr;
  }

  lemma {:induction false} GrownIsCapOfWhole(held: Option<string>, events: seq<Event>, callId: string)
    requires OnlyPrints(events, callId)
    ensures Grown(held, events, callId) == if Printed(events, callId)
                                           then Some(Cap(Joined(held, Chunks(events, callId, {Stdout, Stderr})))) else held
    decreases events
  {
    if events != [] {
      var e, rest := events[0], events[1..];
      var more := Chunks(rest, callId, {Stdout, Stderr});
      PrintedLater(events, callId);
      ChunksLater(events, callId);
      if AboutCall(e, callId) {
        var printed := Some(Cap(Joined(held, e.text)));
        GrownIsCapOfWhole(printed, rest, callId);
        CappedTwice(held, e.text, more);
        CapIdempotent(Joined(held, e.text));
        if !Printed(rest, callId) {
          NoChunks(rest, callId, {Stdout, Stderr});
          hide Cap, Printed, Chunks;
          assert e.text + "" == e.text;
        }
      } else {
        GrownIsCapOfWhole(held, rest, callId);
        hide Cap, Printed, Chunks;
        assert "" + more == more;
      }
    }
  }

  lemma {:induction false} CommandGrows(t: Turn, events: seq<Event>, callId: string, command: string,
                                        status: ItemStatus, held: Option<string>, exitCode: Option<int>)
    requires WellPlaced(t) && OnlyPrints(events, callId)
    requires Find(t.items, Tool(callId)) == Some(CommandExecution(Tool(callId), command, status, held, exitCode))
    ensures Find(RunTurn(t, events).items, Tool(callId))
         == Some(CommandExecution(Tool(callId), command, status, Grown(held, events, callId), exitCode))
    decreases events
  {
    if events != [] {
      var e, rest := events[0], events[1..];
      var u := StepTurn(t, e).turn;
      StepAdvances(t, e);
      hide WellPlaced, StepTurn, Find, Put, Cap, Stepped, Joined;
      if AboutCall(e, callId) {
        OutputArrives(t, callId, e.stream, e.text);
        CommandGrows(u, rest, callId, command, status, Some(Cap(Joined(held, e.text))), exitCode);
      } else {
        StepFiles(t, e, Tool(callId));
        CommandGrows(u, rest, callId, command, status, held, exitCode);
      }
    }
  }

  // However the chunks of a command come, and whatever happens in between, it shows what it
  // showed before with the chunks joined to it, up to the cap.
  lemma CommandShowsItsChunks(t: Turn, events: seq<Event>, callId: string, command: string,
                              status: ItemStatus, held: Option<string>, exitCode: Option<int>)
    requires WellPlaced(t) && OnlyPrints(events, callId) && Printed(events, callId)
    requires Find(t.items, Tool(callId)) == Some(CommandExecution(Tool(callId), command, status, held, exitCode))
    ensures var output := Cap(Joined(held, Chunks(events, callId, {Stdout, Stderr})));
            Find(RunTurn(t, events).items, Tool(callId))
              == Some(CommandExecution(Tool(callId), command, status, Some(output), exitCode))
  {
    hide WellPlaced, Find, RunTurn;
    CommandGrows(t, events, callId, command, status, held, exitCode);
    GrownIsCapOfWhole(held, events, callId);
  }

  // ---- The live lines of a running call ---------------------------------------

  // What the lines of one kind say, joined.
  function Said(lines: seq<Line>, kind: LineKind): string {
    if lines == [] then "" else (if lines[0].kind == kind then lines[0].text else "") + Said(lines[1..], kind)
  }

  lemma {:induction false} SaidInParts(a: seq<Line>, b: seq<Line>, kind: LineKind)
    ensures Said(a + b, kind) == Said(a, kind) + Said(b, kind)
  {
    if a == [] {
      assert a + b == b;
    } else {
      assert (a + b)[0] == a[0] && (a + b)[1..] == a[1..] + b;
      SaidInParts(a[1..], b, kind);
    }
  }

  lemma SaidByOne(line: Line, kind: LineKind)
    ensures Said([line], kind) == if line.kind == kind then line.text else ""
  {
    assert [line][1..] == [];
  }

  lemma JoinedLineSays(before: seq<Line>, line: Line, text: string, k: LineKind)
    ensures Said(before + [Line(line.kind, line.text + text)], k)
         == Said(before + [line], k) + if k == line.kind then text else ""
  {
    SaidInParts(before, [line], k);
    SaidInParts(before, [Line(line.kind, line.text + text)], k);
    SaidByOne(line, k);
    SaidByOne(Line(line.kind, line.text + text), k);
    assert Said(before, k) + (line.text + text) == Said(before, k) + line.text + text;
  }

  lemma LaterLinesSay(lines: seq<Line>, n: nat, k: LineKind)
    requires n <= |lines|
    ensures EndsWith(Said(lines, k), Said(lines[n..], k))
  {
    assert lines == lines[..n] + lines[n..];
    SaidInParts(lines[..n], lines[n..], k);
  }

  // A chunk adds its text to its own kind and to no other; what the limit drops is the oldest.
  lemma LiveLinesSay(lines: seq<Line>, kind: LineKind, text: string, k: LineKind)
    ensures var r := AppendLive(lines, kind, text);
            var said := Said(lines, k) + if k == kind then text else "";
            EndsWith(said, Said(r, k)) && (|r| < 400 ==> |lines| < 400 && Said(r, k) == said)
  {
    hide Said, AppendLive, EndsWith;
    var grown := LinesGrow(lines, kind, text);
    if grown == lines + [Line(kind, text)] {
      SaidInParts(lines, [Line(kind, text)], k);
      SaidByOne(Line(kind, text), k);
    } else {
      var n := |lines| - 1;
      assert lines == lines[..n] + [lines[n]];
      JoinedLineSays(lines[..n], lines[n], text, k);
    }
    LaterLinesSay(grown, if |grown| <= 400 then 0 else |grown| - 400, k);
    assert grown[0..] == grown;
  }

  function LinesGrown(lines: seq<Line>, events: seq<Event>, callId: string): seq<Line>
    decreases events
  {
    if events == [] then lines
    else if events[0].OutputDelta? && events[0].toolCallId == callId
    then LinesGrown(AppendLive(lines, if events[0].stream == Stderr then LineKind.Error else Log, events[0].text),
                    events[1..], callId)
    else LinesGrown(lines, events[1..], callId)
  }

  lemma EndsWithMore(said: string, end: string, more: string)
    requires EndsWith(said, end)
    ensures EndsWith(said + more, end + more)
  {
    assert (said + more)[|said| - |end|..] == end + more;
  }

  lemma EndsWithinEnds(s: string, t: string, u: string)
    requires EndsWith(s, t) && EndsWith(t, u)
    ensures EndsWith(s, u)
  {
    assert s[|s| - |t|..][|t| - |u|..] == s[|s| - |u|..];
  }

  function StreamsOf(kind: LineKind): set<Stream> {
    match kind case Error => {Stderr} case Log => {Stdout}
  }

  // What is said next follows on what was said before.
  predicate Follows(whole: string, said: string, exact: bool) {
    EndsWith(whole, said) && (exact ==> said == whole)
  }

  lemma FollowsOn(before: string, text: string, more: string, next: string, said: string, early: bool, exact: bool)
    requires Follows(before + text, next, early) && Follows(next + more, said, exact) && (exact ==> early)
    ensures Follows(before + (text + more), said, exact)
  {
    EndsWithMore(before + text, next, more);
    EndsWithinEnds(before + text + more, next + more, said);
    assert before + text + more == before + (text + more);
  }

  // Standard error ends up in the error lines and standard output in the others: each kind
  // says the end of its stream, and all of it while there are fewer than 400 lines.
  lemma {:induction false} LinesSayTheirChunks(lines: seq<Line>, events: seq<Event>, callId: string, kind: LineKind)
    ensures var r := LinesGrown(lines, events, callId);
            && Follows(Said(lines, kind) + Chunks(events, callId, StreamsOf(kind)), Said(r, kind), |r| < 400)
            && (|r| < 400 ==> |lines| < 400)
    decreases events
  {
    if events == [] {
      assert Said(lines, kind) + "" == Said(lines, kind);
    } else {
      var e, rest := events[0], events[1..];
      var more := Chunks(rest, callId, StreamsOf(kind));
      if e.OutputDelta? && e.toolCallId == callId {
        var k := if e.stream == Stderr then LineKind.Error else Log;
        var next := AppendLive(lines, k, e.text);
        var text := if kind == k then e.text else "";
        assert Chunks(events, callId, StreamsOf(kind)) == text + more;
        hide Said, AppendLive, Follows, Chunks, StreamsOf;
        LiveLinesFollow(lines, k, e.text, kind);
        LinesSayTheirChunks(next, rest, callId, kind);
        var r := LinesGrown(next, rest, callId);
        FollowsOn(Said(lines, kind), text, more, Said(next, kind), Said(r, kind), |next| < 400, |r| < 400);
      } else {
        LinesSayTheirChunks(lines, rest, callId, kind);
        assert "" + more == more;
      }
    }
  }

  lemma LiveLinesFollow(lines: seq<Line>, kind: LineKind, text: string, k: LineKind)
    ensures var r := AppendLive(lines, kind, text);
            && Follows(Said(lines, k) + (if k == kind then text else ""), Said(r, k), |r| < 400)
            && (|r| < 400 ==> |lines| < 400)
  {
    hide Said, AppendLive;
    LiveLinesSay(lines, kind, text, k);
  }

  // The live lines of a call of any other tool, over any run of the turn.
  lemma {:induction false} LiveCallGrows(t: Turn, events: seq<Event>, callId: string, held: Item)
    requires WellPlaced(t) && OnlyPrints(events, callId)
    requires held.DynamicToolCall? && Find(t.items, Tool(callId)) == Some(held)
    ensures var lines := LinesGrown(held.live.GetOr([]), events, callId);
            var shown := Find(RunTurn(t, events).items, Tool(callId));
            if Printed(events, callId) then shown == Some(held.(live := Some(lines))) else shown == Some(held)
    decreases events
  {
    if events != [] {
      var e, rest := events[0], events[1..];
      var u := StepTurn(t, e).turn;
      StepAdvances(t, e);
      PrintedLater(events, callId);
      hide WellPlaced, StepTurn, Find, Put, AppendLive, Stepped, Printed;
      if AboutCall(e, callId) {
        var kind := if e.stream == Stderr then LineKind.Error else Log;
        OutputArrives(t, callId, e.stream, e.text);
        LiveCallGrows(u, rest, callId, held.(live := Some(AppendLive(held.live.GetOr([]), kind, e.text))));
        if !Printed(rest, callId) {
          NothingGrows(AppendLive(held.live.GetOr([]), kind, e.text), rest, callId);
        }
      } else {
        StepFiles(t, e, Tool(callId));
        LiveCallGrows(u, rest, callId, held);
      }
    }
  }

  lemma {:induction false} NothingGrows(lines: seq<Line>, events: seq<Event>, callId: string)
    requires !Printed(events, callId)
    ensures LinesGrown(lines, events, callId) == lines
  {
    if events != [] {
      PrintedLater(events, callId);
      NothingGrows(lines, events[1..], callId);
    }
  }

  // ---- A message in pieces ----------------------------------------------------

  function Streamed(events: seq<Event>): string {
    if events == [] then ""
    else (if events[0].MessageDelta? then events[0].text else "") + Streamed(events[1..])
  }

  // Until it is completed, an open message shows its pieces joined, whatever else happens in
  // between: tools, reasoning, messages of the user.
  lemma {:induction false} OpenMessageShowsItsPieces(t: Turn, events: seq<Event>, held: string)
    requires WellPlaced(t) && t.stepProseOpen
    requires Find(t.items, Prose(Message, t.step)) == Some(AgentMessage(Prose(Message, t.step), held))
    requires forall e :: e in events ==> TouchesTurn(e) && !e.MessageCompleted?
    ensures var u := RunTurn(t, events);
            && u.stepProseOpen && u.step == t.step
            && Find(u.items, Prose(Message, t.step)) == Some(AgentMessage(Prose(Message, t.step), held + Streamed(events)))
    decreases events
  {
    if events == [] {
      assert held + "" == held;
    } else {
      var e, rest := events[0], events[1..];
      var u := StepTurn(t, e).turn;
      var text := if e.MessageDelta? then e.text else "";
      OpenMessageGrows(t, e, held);
      StreamedLater(events, held);
      hide Streamed, WellPlaced, StepTurn, Find;
      OpenMessageShowsItsPieces(u, rest, held + text);
    }
  }

  lemma StreamedLater(events: seq<Event>, held: string)
    requires events != []
    ensures held + Streamed(events)
         == held + (if events[0].MessageDelta? then events[0].text else "") + Streamed(events[1..])
  {
    Regrouped(held, if events[0].MessageDelta? then events[0].text else "", Streamed(events[1..]));
  }

  lemma Regrouped(a: string, b: string, c: string)
    ensures a + (b + c) == a + b + c
  {
  }

  lemma OpenMessageGrows(t: Turn, e: Event, held: string)
    requires WellPlaced(t) && t.stepProseOpen && TouchesTurn(e) && !e.MessageCompleted?
    requires Find(t.items, Prose(Message, t.step)) == Some(AgentMessage(Prose(Message, t.step), held))
    ensures var u := StepTurn(t, e).turn;
            && WellPlaced(u) && u.stepProseOpen && u.step == t.step
            && Find(u.items, Prose(Message, t.step))
               == Some(AgentMessage(Prose(Message, t.step), held + if e.MessageDelta? then e.text else ""))
  {
    StepAdvances(t, e);
    OpenMessageStaysOpen(t, e);
    hide WellPlaced, StepTurn, Find, Put, Stepped;
    if e.MessageDelta? {
      MessageGrows(t, e.text);
    } else {
      StepFiles(t, e, Prose(Message, t.step));
      assert held + "" == held;
    }
  }

  lemma OpenMessageStaysOpen(t: Turn, e: Event)
    requires t.stepProseOpen && TouchesTurn(e) && !e.MessageCompleted?
    ensures StepTurn(t, e).turn.stepProseOpen && StepTurn(t, e).turn.step == t.step
  {
  }

  // A message that was streamed and then completed holds the text it was completed with, or,
  // if that is empty, all its pieces.
  lemma StreamedMessage(t: Turn, first: string, between: seq<Event>, text: string)
    requires WellPlaced(t) && !t.stepProseOpen && !Holds(t.items, Prose(Message, ProseStep(t)))
    requires forall e :: e in between ==> TouchesTurn(e) && !e.MessageCompleted?
    ensures var id := Prose(Message, ProseStep(t));
            var u := StepTurn(RunTurn(StepTurn(t, Event.MessageDelta(first)).turn, between), Event.MessageCompleted(text)).turn;
            Find(u.items, id) == Some(AgentMessage(id, if text == "" then first + Streamed(between) else text))
            && !u.stepProseOpen
  {
    var u := StepTurn(t, Event.MessageDelta(first)).turn;
    StepAdvances(t, Event.MessageDelta(first));
    MessageGrows(t, first);
    OpenMessageShowsItsPieces(u, between, first);
    RunKeepsPlaces(u, between);
    MessageCloses(RunTurn(u, between), text);
  }

  // ---- How a turn stands ------------------------------------------------------

  predicate IsBoundary(e: Event) {
    e.TurnStarted? || e.TurnCompleted? || e.TurnAborted? || e.TurnFailed?
  }

  // A turn's status is what its last boundary says, and its error the message of the last
  // failure that had one.
  lemma {:induction false} LastBoundaryDecides(t: Turn, events: seq<Event>, i: nat, status: TurnStatus)
    requires forall e :: e in events ==> TouchesTurn(e)
    requires i < |events| && Boundary(events[i], status) && forall j :: i < j < |events| ==> !IsBoundary(events[j])
    ensures RunTurn(t, events).status == status
    decreases events
  {
    if i == 0 {
      StatusStays(StepTurn(t, events[0]).turn, events[1..]);
    } else {
      LastBoundaryDecides(StepTurn(t, events[0]).turn, events[1..], i - 1, status);
    }
  }

  lemma {:induction false} StatusStays(t: Turn, events: seq<Event>)
    requires forall e :: e in events ==> TouchesTurn(e) && !IsBoundary(e)
    ensures RunTurn(t, events).status == t.status
    decreases events
  {
    if events != [] {
      StatusStays(StepTurn(t, events[0]).turn, events[1..]);
    }
  }

  lemma {:induction false} LastFailureIsShown(t: Turn, events: seq<Event>, i: nat)
    requires forall e :: e in events ==> TouchesTurn(e)
    requires i < |events| && Blames(events[i]) && forall j :: i < j < |events| ==> !Blames(events[j])
    ensures RunTurn(t, events).error == Some(events[i].message)
    decreases events
  {
    if i == 0 {
      ErrorStays(StepTurn(t, events[0]).turn, events[1..]);
    } else {
      LastFailureIsShown(StepTurn(t, events[0]).turn, events[1..], i - 1);
    }
  }

  lemma {:induction false} ErrorStays(t: Turn, events: seq<Event>)
    requires forall e :: e in events ==> TouchesTurn(e) && !Blames(e)
    ensures RunTurn(t, events).error == t.error
    decreases events
  {
    if events != [] {
      ErrorStays(StepTurn(t, events[0]).turn, events[1..]);
    }
  }
}
