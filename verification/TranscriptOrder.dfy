// Where items sit in a turn: unique keys, fixed places, prose after the tools it follows.

module TranscriptOrder {
  import opened Wrappers
  import opened Events
  import opened Transcript
  import opened OutputCap

  // An item's type always matches the kind of its key.
  predicate Kinded(item: Item) {
    match item.id
    case User(_) => item.UserMessage?
    case Prose(Message, _) => item.AgentMessage?
    case Prose(Thought, _) => item.Reasoning?
    case Context(_) => item.ContextManagement?
    case Tool(_) => item.CommandExecution? || item.FileChange? || item.DynamicToolCall?
  }

  predicate DistinctKeys(items: seq<Item>) {
    forall i, j :: 0 <= i < j < |items| ==> items[i].id != items[j].id
  }

  // User messages carry exactly the ordinals 0, 1, ... up to their number.
  predicate OrdinalsDense(items: seq<Item>) {
    && (forall i :: 0 <= i < |items| && items[i].id.User? ==> items[i].id.ordinal < Users(items))
    && (forall o: nat :: o < Users(items) ==> Holds(items, User(o)))
  }

  predicate WellPlaced(t: Turn) {
    && DistinctKeys(t.items)
    && (forall i :: 0 <= i < |t.items| ==> Kinded(t.items[i]))
    && (forall i :: 0 <= i < |t.items| && t.items[i].id.Prose? ==> t.items[i].id.step <= t.step)
    && OrdinalsDense(t.items)
  }

  // after extends before: every place keeps its key, and at most one item is new.
  predicate KeepsPlaces(before: seq<Item>, after: seq<Item>) {
    && |before| <= |after|
    && forall i :: 0 <= i < |before| ==> after[i].id == before[i].id
  }

  lemma {:induction false} UsersOfUpdate(items: seq<Item>, i: nat, item: Item)
    requires i < |items| && items[i].id == item.id
    ensures Users(items[i := item]) == Users(items)
  {
    var n := |items| - 1;
    if i == n {
      assert items[i := item][..n] == items[..n];
    } else {
      UsersOfUpdate(items[..n], i, item);
      assert items[i := item][..n] == items[..n][i := item];
    }
  }

  lemma UsersOfAppend(items: seq<Item>, item: Item)
    ensures Users(items + [item]) == Users(items) + if item.id.User? then 1 else 0
  {
    assert (items + [item])[..|items|] == items;
  }

  lemma HoldsIffPresent(items: seq<Item>, id: ItemId)
    ensures Holds(items, id) <==> exists i :: 0 <= i < |items| && items[i].id == id
  {
    if Holds(items, id) {
      assert items[IndexOf(items, id)].id == id;
    }
  }

  lemma PutKeepsPlaces(items: seq<Item>, item: Item)
    ensures KeepsPlaces(items, Put(items, item))
    ensures |Put(items, item)| <= |items| + 1
    ensures forall id :: Holds(Put(items, item), id) <==> id == item.id || Holds(items, id)
  {
    var r := Put(items, item);
    forall id ensures Holds(r, id) <==> id == item.id || Holds(items, id) {
      HoldsIffPresent(items, id);
      HoldsIffPresent(r, id);
      if Holds(items, item.id) {
        var k := IndexOf(items, item.id);
        assert forall i :: 0 <= i < |items| ==> r[i].id == items[i].id;
        assert r[k].id == item.id;
      } else {
        assert r[|items|].id == item.id;
        assert forall i :: 0 <= i < |items| ==> r[i] == items[i];
      }
    }
  }

  // A user message is put under the next free ordinal, so it never overwrites one.
  predicate FreshOrdinal(items: seq<Item>, id: ItemId) {
    id.User? ==> id.ordinal == Users(items)
  }

  lemma PutKeepsKeysDistinct(items: seq<Item>, item: Item)
    requires DistinctKeys(items)
    ensures DistinctKeys(Put(items, item))
  {
    HoldsIffPresent(items, item.id);
  }

  lemma PutKeepsOrdinalsDense(items: seq<Item>, item: Item)
    requires OrdinalsDense(items) && FreshOrdinal(items, item.id)
    ensures OrdinalsDense(Put(items, item))
    ensures item.id.User? ==> Put(items, item) == items + [item]
  {
    var r := Put(items, item);
    PutKeepsPlaces(items, item);
    if Holds(items, item.id) {
      UsersOfUpdate(items, IndexOf(items, item.id), item);
    } else {
      UsersOfAppend(items, item);
    }
    forall o: nat | o < Users(r) ensures Holds(r, User(o)) {
      assert o < Users(items) || User(o) == item.id;
    }
  }

  lemma PutWellPlaced(t: Turn, item: Item)
    requires WellPlaced(t) && Kinded(item)
    requires item.id.Prose? ==> item.id.step <= t.step
    requires FreshOrdinal(t.items, item.id)
    ensures WellPlaced(t.(items := Put(t.items, item)))
    ensures item.id.User? ==> Put(t.items, item) == t.items + [item]
  {
    var r := Put(t.items, item);
    PutKeepsKeysDistinct(t.items, item);
    PutKeepsOrdinalsDense(t.items, item);
    assert forall i :: 0 <= i < |r| ==> r[i] == item || (i < |t.items| && r[i] == t.items[i]);
  }

  lemma CompletedItemKinded(existing: Option<Item>, call: ToolCall, result: ToolResult, message: string)
    requires existing.Some? ==> Kinded(existing.value) && existing.value.id == Tool(call.id)
    ensures var item := CompleteToolItem(existing, call, result);
            Kinded(item) && item.id == Tool(call.id)
    ensures var item := SetItemFailed(existing.GetOr(ToolItem(call, Failed)), message);
            Kinded(item) && item.id == Tool(call.id)
  {
  }

  // The step the next piece of prose will be filed under.
  function NextStep(t: Turn): nat {
    BeginProseStep(t).step
  }

  predicate IsProse(e: Event, kind: ProseKind) {
    match kind
    case Message => e.MessageDelta? || e.MessageCompleted?
    case Thought => e.ReasoningDelta? || e.ReasoningCompleted?
  }

  // u comes from t by putting one item under the key: every invariant holds again, no
  // item moved, and an item that is new stands last.
  predicate Advances(t: Turn, u: Turn, key: ItemId) {
    && WellPlaced(u)
    && KeepsPlaces(t.items, u.items)
    && Holds(u.items, key)
    && (if Holds(t.items, key) then |u.items| == |t.items|
        else |u.items| == |t.items| + 1 && u.items[|t.items|].id == key)
  }

  lemma Placed(t: Turn, item: Item, u: Turn)
    requires WellPlaced(t) && Kinded(item)
    requires item.id.Prose? ==> item.id.step <= t.step
    requires FreshOrdinal(t.items, item.id)
    requires u.items == Put(t.items, item) && u.step == t.step
    ensures Advances(t, u, item.id)
  {
    PutWellPlaced(t, item);
    PutKeepsPlaces(t.items, item);
  }

  // The key an event files its item under; output chunks file nothing new.
  function KeyOf(t: Turn, e: Event): Option<ItemId> {
    match e
    case UserMessage(_) => Some(User(Users(t.items)))
    case MessageDelta(_) => Some(Prose(Message, NextStep(t)))
    case MessageCompleted(_) => Some(Prose(Message, NextStep(t)))
    case ReasoningDelta(_) => Some(Prose(Thought, NextStep(t)))
    case ReasoningCompleted(_) => Some(Prose(Thought, NextStep(t)))
    case ToolStarted(call) => Some(Tool(call.id))
    case ToolCompleted(call, _) => Some(Tool(call.id))
    case ToolFailed(call, _, _) => Some(Tool(call.id))
    case ContextUpdated(report) => Some(Context(report.technique))
    case _ => None
  }

  // What one event may do to a turn that files its item under key, if it files one.
  predicate Stepped(t: Turn, u: Turn, key: Option<ItemId>) {
    if key.Some? then Advances(t, u, key.value)
    else WellPlaced(u) && KeepsPlaces(t.items, u.items) && |u.items| == |t.items|
  }

  lemma UserMessageSteps(t: Turn, e: Event)
    requires WellPlaced(t) && e.UserMessage?
    ensures Stepped(t, StepTurn(t, e).turn, KeyOf(t, e))
  {
    Placed(BeginProseStep(t), Item.UserMessage(User(Users(t.items)), e.text), OnUserMessage(t, e.text).turn);
  }

  lemma MessageSteps(t: Turn, e: Event)
    requires WellPlaced(t) && IsProse(e, Message)
    ensures Stepped(t, StepTurn(t, e).turn, KeyOf(t, e))
  {
    var b := BeginProseStep(t);
    var id := Prose(Message, b.step);
    var existing := Find(b.items, id);
    var held := if existing.Some? && existing.value.AgentMessage? then existing.value.text else "";
    var text := if e.MessageDelta? then held + e.text else if e.text != "" then e.text else held;
    Placed(b, AgentMessage(id, text), StepTurn(t, e).turn);
  }

  lemma ReasoningSteps(t: Turn, e: Event)
    requires WellPlaced(t) && IsProse(e, Thought)
    ensures Stepped(t, StepTurn(t, e).turn, KeyOf(t, e))
  {
    var b := BeginProseStep(t);
    var id := Prose(Thought, b.step);
    var existing := Find(b.items, id);
    var held := if existing.Some? && existing.value.Reasoning? then existing.value.content else [];
    var content := if e.ReasoningDelta? then held + [e.text] else if e.text != "" then [e.text] else held;
    Placed(b, Reasoning(id, content), StepTurn(t, e).turn);
  }

  lemma OutputSteps(t: Turn, e: Event)
    requires WellPlaced(t) && e.OutputDelta?
    ensures Stepped(t, StepTurn(t, e).turn, KeyOf(t, e))
  {
    var existing := Find(t.items, Tool(e.toolCallId));
    var u := StepTurn(t, e).turn;
    if existing.Some? && existing.value.CommandExecution? {
      var item := existing.value.(output := Some(Cap(existing.value.output.GetOr("") + e.text)));
      Placed(t, item, u);
    } else if existing.Some? && existing.value.DynamicToolCall? {
      var item := existing.value.(live := Some(AppendLive(existing.value.live.GetOr([]), KindOf(e.stream), e.text)));
      Placed(t, item, u);
    }
  }

  lemma ToolStartedSteps(t: Turn, e: Event)
    requires WellPlaced(t) && e.ToolStarted?
    ensures Stepped(t, StepTurn(t, e).turn, KeyOf(t, e))
  {
    Placed(t, ToolItem(e.call, InProgress), StepTurn(t, e).turn);
  }

  lemma ToolCompletedSteps(t: Turn, e: Event)
    requires WellPlaced(t) && e.ToolCompleted?
    ensures Stepped(t, StepTurn(t, e).turn, KeyOf(t, e))
  {
    var existing := Find(t.items, Tool(e.call.id));
    CompletedItemKinded(existing, e.call, e.result, "");
    Placed(t, CompleteToolItem(existing, e.call, e.result), StepTurn(t, e).turn);
  }

  lemma ToolFailedSteps(t: Turn, e: Event)
    requires WellPlaced(t) && e.ToolFailed?
    ensures Stepped(t, StepTurn(t, e).turn, KeyOf(t, e))
  {
    var existing := Find(t.items, Tool(e.call.id));
    CompletedItemKinded(existing, e.call, ToolResult([], None), e.message);
    Placed(t, SetItemFailed(existing.GetOr(ToolItem(e.call, Failed)), e.message), StepTurn(t, e).turn);
  }

  lemma ContextSteps(t: Turn, e: Event)
    requires WellPlaced(t) && e.ContextUpdated?
    ensures Stepped(t, StepTurn(t, e).turn, KeyOf(t, e))
  {
    Placed(t, ContextItem(Find(t.items, Context(e.report.technique)), e.report), StepTurn(t, e).turn);
  }

  lemma BoundarySteps(t: Turn, e: Event)
    requires WellPlaced(t) && (e.TurnStarted? || e.TurnCompleted? || e.TurnAborted? || e.TurnFailed?)
    ensures Stepped(t, StepTurn(t, e).turn, KeyOf(t, e))
  {
    assert StepTurn(t, e).turn.items == t.items;
  }

  // Every event keeps the turn well placed, moves no item, and puts a new item last.
  lemma StepAdvances(t: Turn, e: Event)
    requires WellPlaced(t) && TouchesTurn(e)
    ensures Stepped(t, StepTurn(t, e).turn, KeyOf(t, e))
  {
    if e.UserMessage? {
      UserMessageSteps(t, e);
    } else if IsProse(e, Message) {
      MessageSteps(t, e);
    } else if IsProse(e, Thought) {
      ReasoningSteps(t, e);
    } else if e.OutputDelta? {
      OutputSteps(t, e);
    } else if e.ToolStarted? {
      ToolStartedSteps(t, e);
    } else if e.ToolCompleted? {
      ToolCompletedSteps(t, e);
    } else if e.ToolFailed? {
      ToolFailedSteps(t, e);
    } else if e.ContextUpdated? {
      ContextSteps(t, e);
    } else {
      BoundarySteps(t, e);
    }
  }

  // ---- Whole runs of one turn -------------------------------------------------

  function RunTurn(t: Turn, events: seq<Event>): Turn
    requires forall e :: e in events ==> TouchesTurn(e)
    decreases events
  {
    if events == [] then t else RunTurn(StepTurn(t, events[0]).turn, events[1..])
  }

  // From the first event of a turn on, keys stay unique, ordinals dense and places fixed.
  lemma {:induction false} RunKeepsPlaces(t: Turn, events: seq<Event>)
    requires WellPlaced(t)
    requires forall e :: e in events ==> TouchesTurn(e)
    ensures WellPlaced(RunTurn(t, events))
    ensures KeepsPlaces(t.items, RunTurn(t, events).items)
    decreases events
  {
    if events != [] {
      StepAdvances(t, events[0]);
      RunKeepsPlaces(StepTurn(t, events[0]).turn, events[1..]);
    }
  }

  // A user message is always a new last item: none is ever overwritten.
  lemma UserMessageAppends(t: Turn, text: string)
    requires WellPlaced(t)
    ensures var u := StepTurn(t, Event.UserMessage(text)).turn;
            u.items == t.items + [Item.UserMessage(User(Users(t.items)), text)]
            && !Holds(t.items, User(Users(t.items)))
  {
    PutWellPlaced(BeginProseStep(t), Item.UserMessage(User(Users(t.items)), text));
    HoldsIffPresent(t.items, User(Users(t.items)));
  }

  // ---- Prose after a tool -----------------------------------------------------

  // No prose of this kind has been filed under the next step, or under any later one.
  predicate FreshProse(t: Turn, kind: ProseKind) {
    forall i :: 0 <= i < |t.items| && t.items[i].id.Prose? && t.items[i].id.kind == kind
                ==> t.items[i].id.step < NextStep(t)
  }

  lemma ToolMakesProseFresh(t: Turn, call: ToolCall, kind: ProseKind)
    requires WellPlaced(t) && !t.stepProseOpen
    ensures WellPlaced(OnToolStarted(t, call).turn) && FreshProse(OnToolStarted(t, call).turn, kind)
    ensures Holds(OnToolStarted(t, call).turn.items, Tool(call.id))
  {
    StepAdvances(t, ToolStarted(call));
    OnlyTheLastKeyIsNew(t, ToolStarted(call));
    assert NextStep(OnToolStarted(t, call).turn) == t.step + 1;
  }

  // The new key, if there is one, is the last one.
  lemma OnlyTheLastKeyIsNew(t: Turn, e: Event)
    requires WellPlaced(t) && TouchesTurn(e)
    ensures var before := t.items; var after := StepTurn(t, e).turn.items;
            && KeepsPlaces(before, after)
            && (|after| == |before|
                || (|after| == |before| + 1 && KeyOf(t, e) == Some(after[|before|].id)))
  {
    StepAdvances(t, e);
  }

  lemma OthersKeepProseFresh(t: Turn, e: Event, kind: ProseKind)
    requires WellPlaced(t) && FreshProse(t, kind) && TouchesTurn(e) && !IsProse(e, kind)
    ensures FreshProse(StepTurn(t, e).turn, kind)
  {
    OnlyTheLastKeyIsNew(t, e);
    NextStepNeverFalls(t, e);
  }

  lemma NextStepNeverFalls(t: Turn, e: Event)
    requires TouchesTurn(e)
    ensures NextStep(t) <= NextStep(StepTurn(t, e).turn)
  {
  }

  lemma {:induction false} ProseStaysFresh(t: Turn, events: seq<Event>, kind: ProseKind)
    requires WellPlaced(t) && FreshProse(t, kind)
    requires forall e :: e in events ==> TouchesTurn(e) && !IsProse(e, kind)
    ensures FreshProse(RunTurn(t, events), kind)
    decreases events
  {
    if events != [] {
      StepAdvances(t, events[0]);
      OthersKeepProseFresh(t, events[0], kind);
      ProseStaysFresh(StepTurn(t, events[0]).turn, events[1..], kind);
    }
  }

  lemma FreshProseGoesLast(t: Turn, kind: ProseKind, prose: Event)
    requires WellPlaced(t) && FreshProse(t, kind) && TouchesTurn(prose) && IsProse(prose, kind)
    ensures var v := StepTurn(t, prose).turn;
            && !Holds(t.items, Prose(kind, NextStep(t)))
            && KeepsPlaces(t.items, v.items)
            && |v.items| == |t.items| + 1 && v.items[|t.items|].id == Prose(kind, NextStep(t))
  {
    HoldsIffPresent(t.items, Prose(kind, NextStep(t)));
    StepAdvances(t, prose);
  }

  // A tool starts while no message is open. Whatever happens in between, the next prose
  // of either kind gets a key that was never used, and so stands last: after that tool.
  lemma ProseFollowsItsTool(t: Turn, call: ToolCall, between: seq<Event>, kind: ProseKind, prose: Event)
    requires WellPlaced(t) && !t.stepProseOpen
    requires forall e :: e in between ==> TouchesTurn(e) && !IsProse(e, kind)
    requires TouchesTurn(prose) && IsProse(prose, kind)
    ensures var u := RunTurn(OnToolStarted(t, call).turn, between);
            var v := StepTurn(u, prose).turn;
            var id := Prose(kind, NextStep(u));
            && !Holds(u.items, id)
            && |v.items| == |u.items| + 1 && v.items[|u.items|].id == id
            && IndexOf(v.items, Tool(call.id)) < |u.items|
  {
    var tool := OnToolStarted(t, call).turn;
    var u := RunTurn(tool, between);
    ToolMakesProseFresh(t, call, kind);
    RunKeepsPlaces(tool, between);
    ProseStaysFresh(tool, between, kind);
    FreshProseGoesLast(u, kind, prose);
    KeptKeyKeepsIndex(tool.items, StepTurn(u, prose).turn.items, Tool(call.id));
  }

  lemma KeptKeyKeepsIndex(before: seq<Item>, after: seq<Item>, id: ItemId)
    requires KeepsPlaces(before, after) && Holds(before, id)
    ensures IndexOf(after, id) == IndexOf(before, id)
  {
    var i := IndexOf(before, id);
    assert after[i].id == id;
    assert forall j :: 0 <= j < i ==> after[j].id == before[j].id;
  }

  // A message that is still open keeps its item: the tool call does not split it.
  lemma OpenMessageKeepsItsItem(t: Turn, call: ToolCall, text: string)
    requires WellPlaced(t) && t.stepProseOpen && Holds(t.items, Prose(Message, t.step))
    ensures var u := OnToolStarted(t, call).turn;
            var v := OnMessageDelta(u, text).turn;
            && |v.items| == |u.items|
            && Find(t.items, Prose(Message, t.step)).value.AgentMessage?
            && Find(v.items, Prose(Message, t.step))
               == Some(AgentMessage(Prose(Message, t.step), Find(t.items, Prose(Message, t.step)).value.text + text))
  {
    var id := Prose(Message, t.step);
    var u := OnToolStarted(t, call).turn;
    StepAdvances(t, ToolStarted(call));
    KeptKeyKeepsIndex(t.items, u.items, id);
    StepAdvances(u, Event.MessageDelta(text));
    KeptKeyKeepsIndex(u.items, OnMessageDelta(u, text).turn.items, id);
  }
}
