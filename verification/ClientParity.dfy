// The client's fold of notifications (web/shared/src/thread-store.ts), and its agreement
// with the server's own transcript.

module ClientParity {
  import opened Wrappers
  import opened Events
  import opened OutputCap
  import opened Transcript
  import opened TranscriptOrder
  import opened SessionProjection

  datatype ClientTurn = ClientTurn(status: TurnStatus, items: seq<Item>, error: Option<string>)

  const NEW_CLIENT_TURN := ClientTurn(Running, [], None)

  datatype Client = Client(turns: map<string, ClientTurn>, latestSequence: nat, usage: (nat, nat))

  const NO_CLIENT := Client(map[], 0, (0, 0))

  // ---- The client's reducer ---------------------------------------------------

  // Like AppendLive, except that every line it writes is capped.
  function ClientAppendLive(lines: seq<Line>, kind: LineKind, text: string): seq<Line> {
    var n := |lines|;
    var grown :=
      if n > 0 && lines[n - 1].kind == kind && !EndsWithNewline(lines[n - 1].text)
      then lines[n - 1 := Line(kind, Cap(lines[n - 1].text + text))]
      else lines + [Line(kind, Cap(text))];
    if |grown| > MAX_LIVE_OUTPUT_LINES then grown[|grown| - MAX_LIVE_OUTPUT_LINES..] else grown
  }

  function ApplyMessageText(items: seq<Item>, id: ItemId, delta: string): seq<Item> {
    var existing := Find(items, id);
    var held := if existing.Some? && existing.value.AgentMessage? then existing.value.text else "";
    Put(items, AgentMessage(id, held + delta))
  }

  function ApplyReasoningText(items: seq<Item>, id: ItemId, delta: string): seq<Item> {
    var existing := Find(items, id);
    var held := if existing.Some? && existing.value.Reasoning? then existing.value.content else [];
    Put(items, Reasoning(id, held + [delta]))
  }

  function ApplyCommandOutput(items: seq<Item>, id: ItemId, delta: string): seq<Item> {
    var existing := Find(items, id);
    var base := if existing.Some? && existing.value.CommandExecution? then existing.value
                else CommandExecution(id, "", InProgress, None, None);
    Put(items, base.(output := Some(Cap(base.output.GetOr("") + delta))))
  }

  function ApplyLiveOutput(items: seq<Item>, id: ItemId, tool: string, text: string, kind: LineKind): seq<Item> {
    var existing := Find(items, id);
    if existing.None? || id == Tool("") then items
    else
      var base := if existing.value.DynamicToolCall? then existing.value
                  else DynamicToolCall(id, tool, Object([]), InProgress, None, None, None);
      Put(items, base.(live := Some(ClientAppendLive(base.live.GetOr([]), kind, text))))
  }

  function ApplyToTurn(c: ClientTurn, body: Body): ClientTurn {
    match body
    case TurnBegan => ClientTurn(Running, [], None)
    case TurnEnded(status, items, error) => ClientTurn(status, items, error)
    case ItemStarted(item) => c.(items := Put(c.items, item))
    case ItemCompleted(item) => c.(items := Put(c.items, item))
    case MessageText(id, delta) => c.(items := ApplyMessageText(c.items, id, delta))
    case ReasoningText(id, delta) => c.(items := ApplyReasoningText(c.items, id, delta))
    case CommandOutput(id, delta, _) => c.(items := ApplyCommandOutput(c.items, id, delta))
    case LiveOutput(id, tool, text, kind) => c.(items := ApplyLiveOutput(c.items, id, tool, text, kind))
    case _ => c
  }

  function ApplyAll(c: ClientTurn, bodies: seq<Body>): ClientTurn {
    if bodies == [] then c
    else ApplyToTurn(ApplyAll(c, bodies[..|bodies| - 1]), bodies[|bodies| - 1])
  }

  function ClientTurnOf(c: Client, id: string): ClientTurn {
    if id in c.turns then c.turns[id] else NEW_CLIENT_TURN
  }

  // The notifications that make the client write a turn.
  predicate WritesTurn(body: Body) {
    body.Queued? || body.InterruptNoted? || body.TurnBegan? || body.ItemStarted? || body.ItemCompleted?
    || body.MessageText? || body.ReasoningText? || body.CommandOutput? || body.LiveOutput? || body.TurnEnded?
  }

  function ApplyNote(client: Client, n: Note): Client {
    var c := client.(latestSequence := if n.sequence > client.latestSequence then n.sequence
                                       else client.latestSequence);
    if n.body.UsageUpdated? then c.(usage := (n.body.totalInput, n.body.totalOutput))
    else if WritesTurn(n.body) && n.turnId.Some? then
      c.(turns := c.turns[n.turnId.value := ApplyToTurn(ClientTurnOf(c, n.turnId.value), n.body)])
    else c
  }

  function ApplyNotes(c: Client, notes: seq<Note>): Client {
    if notes == [] then c
    else ApplyNote(ApplyNotes(c, notes[..|notes| - 1]), notes[|notes| - 1])
  }

  function RunClient(ds: seq<Delivery>): Client {
    if ds == [] then NO_CLIENT
    else ApplyNotes(RunClient(ds[..|ds| - 1]), ProjectRecord(RunServer(ds[..|ds| - 1]), ds[|ds| - 1]).notes)
  }

  // A chunk for an item the client does not hold starts one, except for live output, which
  // is dropped.
  lemma UnknownItemsStart(items: seq<Item>, id: ItemId, tool: string, text: string, kind: LineKind)
    requires !Holds(items, id)
    ensures ApplyMessageText(items, id, text) == items + [AgentMessage(id, text)]
    ensures ApplyReasoningText(items, id, text) == items + [Reasoning(id, [text])]
    ensures ApplyCommandOutput(items, id, text)
         == items + [CommandExecution(id, "", InProgress, Some(Cap(text)), None)]
    ensures ApplyLiveOutput(items, id, tool, text, kind) == items
  {
    assert "" + text == text && [] + [text] == [text];
  }

  // The client remembers the highest sequence it was told, whatever the notifications say,
  // and the totals it was told last.
  lemma {:induction false} HighestIsRemembered(c: Client, notes: seq<Note>)
    ensures var d := ApplyNotes(c, notes);
            && c.latestSequence <= d.latestSequence
            && (forall n :: n in notes ==> n.sequence <= d.latestSequence)
            && (d.latestSequence == c.latestSequence || exists n :: n in notes && n.sequence == d.latestSequence)
  {
    if notes != [] {
      HighestIsRemembered(c, notes[..|notes| - 1]);
      assert notes[|notes| - 1] in notes && forall n :: n in notes[..|notes| - 1] ==> n in notes;
      assert forall n :: n in notes ==> n in notes[..|notes| - 1] || n == notes[|notes| - 1];
    }
  }

  lemma {:induction false} LastTotalsAreShown(c: Client, notes: seq<Note>, i: nat)
    requires i < |notes| && notes[i].body.UsageUpdated?
    requires forall j :: i < j < |notes| ==> !notes[j].body.UsageUpdated?
    ensures ApplyNotes(c, notes).usage == (notes[i].body.totalInput, notes[i].body.totalOutput)
  {
    var n := |notes| - 1;
    if i < n {
      LastTotalsAreShown(c, notes[..n], i);
    }
  }

  // ---- Agreement --------------------------------------------------------------

  predicate LineAgrees(s: Line, c: Line) {
    s.kind == c.kind && Cap(s.text) == Cap(c.text)
  }

  predicate LinesAgree(s: seq<Line>, c: seq<Line>) {
    |s| == |c| && forall i :: 0 <= i < |s| ==> LineAgrees(s[i], c[i])
  }

  predicate LiveAgrees(s: Option<seq<Line>>, c: Option<seq<Line>>) {
    s.Some? == c.Some? && (s.Some? ==> LinesAgree(s.value, c.value))
  }

  // Equal, except that live sandbox lines need only look alike once capped. Those of the
  // tool call without an id may differ altogether if some of them were lost.
  predicate ItemAlike(s: Item, c: Item, lost: bool) {
    if s.DynamicToolCall? && c.DynamicToolCall? then
      s.id == c.id && s.tool == c.tool && s.arguments == c.arguments && s.status == c.status
      && s.result == c.result && s.error == c.error && (LiveAgrees(s.live, c.live) || (lost && s.id == Tool("")))
    else s == c
  }

  predicate ItemsAlike(s: seq<Item>, c: seq<Item>, lost: bool) {
    |s| == |c| && forall i :: 0 <= i < |s| ==> ItemAlike(s[i], c[i], lost)
  }

  predicate ItemsAgree(s: seq<Item>, c: seq<Item>) {
    ItemsAlike(s, c, false)
  }

  lemma AgreeingKeysSitTogether(s: seq<Item>, c: seq<Item>, id: ItemId, lost: bool)
    requires ItemsAlike(s, c, lost)
    ensures IndexOf(s, id) == IndexOf(c, id)
    ensures Holds(s, id) ==> ItemAlike(Find(s, id).value, Find(c, id).value, lost)
  {
    assert forall i :: 0 <= i < |s| ==> s[i].id == c[i].id;
    var i, j := IndexOf(s, id), IndexOf(c, id);
    assert i < |s| ==> c[i].id == id;
    assert j < |c| ==> s[j].id == id;
  }

  lemma PutAgrees(s: seq<Item>, c: seq<Item>, si: Item, ci: Item, lost: bool)
    requires ItemsAlike(s, c, lost) && ItemAlike(si, ci, lost)
    ensures ItemsAlike(Put(s, si), Put(c, ci), lost)
  {
    AgreeingKeysSitTogether(s, c, si.id, lost);
    assert si.id == ci.id;
  }

  lemma LongerLineAgrees(s: Line, c: Line, text: string)
    requires LineAgrees(s, c)
    ensures EndsWithNewline(s.text) == EndsWithNewline(c.text)
    ensures LineAgrees(Line(s.kind, s.text + text), Line(c.kind, Cap(c.text + text)))
  {
    CapKeepsLineEnd(s.text);
    CapKeepsLineEnd(c.text);
    CapCongruence(s.text, c.text, text);
    CapIdempotent(c.text + text);
  }

  lemma NewLineAgrees(s: seq<Line>, c: seq<Line>, kind: LineKind, text: string)
    requires LinesAgree(s, c)
    ensures |s| == |c| && LinesAgree(s + [Line(kind, text)], c + [Line(kind, Cap(text))])
  {
    CapIdempotent(text);
  }

  lemma LastLineAgrees(s: seq<Line>, c: seq<Line>, text: string)
    requires LinesAgree(s, c) && s != []
    ensures |s| == |c|
    ensures var n := |s| - 1;
            && s[n].kind == c[n].kind && EndsWithNewline(s[n].text) == EndsWithNewline(c[n].text)
            && LinesAgree(s[n := Line(s[n].kind, s[n].text + text)], c[n := Line(c[n].kind, Cap(c[n].text + text))])
  {
    LongerLineAgrees(s[|s| - 1], c[|s| - 1], text);
  }

  lemma LinesAgreeAfter(s: seq<Line>, c: seq<Line>, from: seq<Line>, from': seq<Line>, kept: nat)
    requires LinesAgree(s, c)
    requires from == (if |s| > kept then s[|s| - kept..] else s) && from' == (if |c| > kept then c[|c| - kept..] else c)
    ensures LinesAgree(from, from')
  {
  }

  lemma AppendLiveAgrees(s: seq<Line>, c: seq<Line>, kind: LineKind, text: string)
    requires LinesAgree(s, c)
    ensures LinesAgree(AppendLive(s, kind, text), ClientAppendLive(c, kind, text))
  {
    hide Cap, EndsWithNewline, LinesAgree;
    var n := |s|;
    NewLineAgrees(s, c, kind, text);
    var grown, grown' := s + [Line(kind, text)], c + [Line(kind, Cap(text))];
    if n > 0 {
      LastLineAgrees(s, c, text);
      if s[n - 1].kind == kind && !EndsWithNewline(s[n - 1].text) {
        grown := s[n - 1 := Line(kind, s[n - 1].text + text)];
        grown' := c[n - 1 := Line(kind, Cap(c[n - 1].text + text))];
      }
    }
    LinesAgreeAfter(grown, grown', AppendLive(s, kind, text), ClientAppendLive(c, kind, text), MAX_LIVE_OUTPUT_LINES);
  }

  // ---- Folding lists of notifications -----------------------------------------

  lemma ApplyNone(c: ClientTurn)
    ensures ApplyAll(c, []) == c
  {
  }

  lemma ApplyOne(c: ClientTurn, body: Body)
    ensures ApplyAll(c, [body]) == ApplyToTurn(c, body)
  {
    assert [body][..0] == [];
  }

  lemma ApplyTwo(c: ClientTurn, first: Body, second: Body)
    ensures ApplyAll(c, [first, second]) == ApplyToTurn(ApplyToTurn(c, first), second)
  {
    assert [first, second][..1] == [first];
    ApplyOne(c, first);
  }

  lemma {:induction false} ApplyConcat(c: ClientTurn, first: seq<Body>, second: seq<Body>)
    ensures ApplyAll(c, first + second) == ApplyAll(ApplyAll(c, first), second)
  {
    if second == [] {
      assert first + second == first;
    } else {
      var n := |second| - 1;
      ApplyConcat(c, first, second[..n]);
      assert (first + second)[..|first + second| - 1] == first + second[..n];
    }
  }

  lemma PutLastAgain(items: seq<Item>)
    requires items != [] && DistinctKeys(items)
    ensures var n := |items| - 1;
            Put(items[..n], items[n]) == items && Put(items, items[n]) == items
  {
    var n := |items| - 1;
    HoldsIffPresent(items[..n], items[n].id);
    HoldsIffPresent(items, items[n].id);
    assert items[..n] + [items[n]] == items;
    assert IndexOf(items, items[n].id) == n;
  }

  // Announcing the items of a turn to an emptied client turn rebuilds them in order.
  lemma {:induction false} AnnounceRebuilds(items: seq<Item>)
    requires DistinctKeys(items)
    ensures ApplyAll(NEW_CLIENT_TURN, Announce(items)) == NEW_CLIENT_TURN.(items := items)
  {
    if items != [] {
      var n := |items| - 1;
      var last := items[n];
      AnnounceRebuilds(items[..n]);
      ApplyConcat(NEW_CLIENT_TURN, Announce(items[..n]), [ItemStarted(last), ItemCompleted(last)]);
      ApplyTwo(NEW_CLIENT_TURN.(items := items[..n]), ItemStarted(last), ItemCompleted(last));
      PutLastAgain(items);
    }
  }

  lemma TurnStartResyncs(t: Turn, c: ClientTurn)
    requires DistinctKeys(t.items)
    ensures ApplyAll(c, OnTurnStarted(t).notes) == ClientTurn(Running, t.items, None)
  {
    ApplyConcat(c, [TurnBegan], Announce(t.items));
    ApplyOne(c, TurnBegan);
    AnnounceRebuilds(t.items);
  }

  // ---- One event --------------------------------------------------------------

  // The client shows the server's status and items, and never a wrong error.
  predicate Agrees(t: Turn, c: ClientTurn, lost: bool) {
    c.status == t.status && ItemsAlike(t.items, c.items, lost) && ErrorAgrees(t, c)
  }

  predicate ErrorAgrees(t: Turn, c: ClientTurn) {
    c.error.Some? ==> c.error == t.error
  }

  // The opening user message: the one item that is placed without being notified.
  predicate OpensSilently(t: Turn, e: Event) {
    e.UserMessage? && Users(t.items) == 0
  }

  lemma AnnouncedItemAgrees(t: Turn, c: ClientTurn, item: Item, lost: bool)
    requires Agrees(t, c, lost)
    ensures ItemsAlike(Put(t.items, item), ApplyAll(c, [ItemStarted(item)]).items, lost)
    ensures ItemsAlike(Put(t.items, item), ApplyAll(c, [ItemCompleted(item)]).items, lost)
  {
    ApplyOne(c, ItemStarted(item));
    ApplyOne(c, ItemCompleted(item));
    PutAgrees(t.items, c.items, item, item, lost);
  }

  // Putting an item and then another under the same key leaves just the second.
  lemma PutTwice(items: seq<Item>, first: Item, second: Item)
    requires first.id == second.id
    ensures Put(Put(items, first), second) == Put(items, second)
    ensures Find(Put(items, first), first.id) == Some(first)
  {
    var once := Put(items, first);
    PutKeepsPlaces(items, first);
    if Holds(items, first.id) {
      KeptKeyKeepsIndex(items, once, first.id);
    } else {
      HoldsIffPresent(items, first.id);
      assert once[|items|].id == first.id;
      assert forall i :: 0 <= i < |items| ==> once[i].id != first.id;
    }
  }

  lemma MessageTextAgrees(s: seq<Item>, c: seq<Item>, id: ItemId, text: string, lost: bool)
    requires ItemsAlike(s, c, lost)
    ensures var held := if Holds(s, id) && Find(s, id).value.AgentMessage? then Find(s, id).value.text else "";
            ItemsAlike(Put(s, AgentMessage(id, held + text)), ApplyMessageText(c, id, text), lost)
    ensures !Holds(s, id) ==>
            ItemsAlike(Put(s, AgentMessage(id, "" + text)),
                       ApplyMessageText(Put(c, AgentMessage(id, "")), id, text), lost)
  {
    AgreeingKeysSitTogether(s, c, id, lost);
    var held := if Holds(s, id) && Find(s, id).value.AgentMessage? then Find(s, id).value.text else "";
    PutAgrees(s, c, AgentMessage(id, held + text), AgentMessage(id, held + text), lost);
    PutTwice(c, AgentMessage(id, ""), AgentMessage(id, "" + text));
  }

  lemma MessageDeltaAgrees(t: Turn, c: ClientTurn, text: string, lost: bool)
    requires Agrees(t, c, lost)
    ensures Agrees(OnMessageDelta(t, text).turn, ApplyAll(c, OnMessageDelta(t, text).notes), lost)
  {
    hide ItemsAlike, Put, Find, Holds, ApplyMessageText, ApplyReasoningText, ApplyAll;
    var id := Prose(Message, BeginProseStep(t).step);
    MessageTextAgrees(t.items, c.items, id, text, lost);
    var delta, first := MessageText(id, text), ItemStarted(AgentMessage(id, ""));
    if Holds(t.items, id) {
      assert [] + [delta] == [delta];
      ApplyOne(c, delta);
    } else {
      assert [first] + [delta] == [first, delta];
      ApplyTwo(c, first, delta);
    }
  }

  lemma ReasoningTextAgrees(s: seq<Item>, c: seq<Item>, id: ItemId, text: string, lost: bool)
    requires ItemsAlike(s, c, lost)
    ensures var held := if Holds(s, id) && Find(s, id).value.Reasoning? then Find(s, id).value.content else [];
            ItemsAlike(Put(s, Reasoning(id, held + [text])), ApplyReasoningText(c, id, text), lost)
    ensures !Holds(s, id) ==>
            ItemsAlike(Put(s, Reasoning(id, [] + [text])),
                       ApplyReasoningText(Put(c, Reasoning(id, [])), id, text), lost)
  {
    AgreeingKeysSitTogether(s, c, id, lost);
    var held := if Holds(s, id) && Find(s, id).value.Reasoning? then Find(s, id).value.content else [];
    PutAgrees(s, c, Reasoning(id, held + [text]), Reasoning(id, held + [text]), lost);
    PutTwice(c, Reasoning(id, []), Reasoning(id, [] + [text]));
  }

  lemma ReasoningDeltaAgrees(t: Turn, c: ClientTurn, text: string, lost: bool)
    requires Agrees(t, c, lost)
    ensures Agrees(OnReasoningDelta(t, text).turn, ApplyAll(c, OnReasoningDelta(t, text).notes), lost)
  {
    hide ItemsAlike, Put, Find, Holds, ApplyMessageText, ApplyReasoningText, ApplyAll;
    var id := Prose(Thought, BeginProseStep(t).step);
    ReasoningTextAgrees(t.items, c.items, id, text, lost);
    var delta, first := ReasoningText(id, text), ItemStarted(Reasoning(id, []));
    if Holds(t.items, id) {
      assert [] + [delta] == [delta];
      ApplyOne(c, delta);
    } else {
      assert [first] + [delta] == [first, delta];
      ApplyTwo(c, first, delta);
    }
  }

  lemma CommandOutputAgrees(s: seq<Item>, c: seq<Item>, id: ItemId, text: string, lost: bool)
    requires ItemsAlike(s, c, lost) && Holds(s, id) && Find(s, id).value.CommandExecution?
    ensures var item := Find(s, id).value.(output := Some(Cap(Find(s, id).value.output.GetOr("") + text)));
            ItemsAlike(Put(s, item), ApplyCommandOutput(c, id, text), lost)
  {
    AgreeingKeysSitTogether(s, c, id, lost);
    var item := Find(s, id).value.(output := Some(Cap(Find(s, id).value.output.GetOr("") + text)));
    PutAgrees(s, c, item, item, lost);
  }

  lemma LiveOutputAgrees(s: seq<Item>, c: seq<Item>, id: ItemId, tool: string, text: string, kind: LineKind, lost: bool)
    requires ItemsAlike(s, c, lost) && Holds(s, id) && Find(s, id).value.DynamicToolCall? && id != Tool("")
    ensures var item := Find(s, id).value.(live := Some(AppendLive(Find(s, id).value.live.GetOr([]), kind, text)));
            ItemsAlike(Put(s, item), ApplyLiveOutput(c, id, tool, text, kind), lost)
  {
    AgreeingKeysSitTogether(s, c, id, lost);
    var si, ci := Find(s, id).value, Find(c, id).value;
    AppendLiveAgrees(si.live.GetOr([]), ci.live.GetOr([]), kind, text);
    PutAgrees(s, c,
              si.(live := Some(AppendLive(si.live.GetOr([]), kind, text))),
              ci.(live := Some(ClientAppendLive(ci.live.GetOr([]), kind, text))), lost);
  }

  lemma CommandChunkAgrees(t: Turn, c: ClientTurn, e: Event, lost: bool)
    requires Agrees(t, c, lost) && e.OutputDelta?
    requires Holds(t.items, Tool(e.toolCallId)) && Find(t.items, Tool(e.toolCallId)).value.CommandExecution?
    ensures Agrees(StepTurn(t, e).turn, ApplyAll(c, StepTurn(t, e).notes), lost)
  {
    CommandOutputAgrees(t.items, c.items, Tool(e.toolCallId), e.text, lost);
    ApplyOne(c, CommandOutput(Tool(e.toolCallId), e.text, e.stream));
  }

  lemma LiveChunkAgrees(t: Turn, c: ClientTurn, e: Event, lost: bool)
    requires Agrees(t, c, lost) && e.OutputDelta?
    requires Holds(t.items, Tool(e.toolCallId)) && Find(t.items, Tool(e.toolCallId)).value.DynamicToolCall?
    requires e.toolCallId != ""
    ensures Agrees(StepTurn(t, e).turn, ApplyAll(c, StepTurn(t, e).notes), lost)
  {
    var id := Tool(e.toolCallId);
    var existing := Find(t.items, id);
    LiveOutputAgrees(t.items, c.items, id, existing.value.tool, e.text, KindOf(e.stream), lost);
    ApplyOne(c, LiveOutput(id, existing.value.tool, e.text, KindOf(e.stream)));
  }

  // Whatever the client held before, the end of a turn hands it the whole turn.
  lemma TurnEndResyncs(t: Turn, c: ClientTurn, status: TurnStatus, error: Option<string>)
    requires OnTurnEnd(t, status, error).notes != []
    ensures var u := OnTurnEnd(t, status, error).turn;
            ApplyAll(c, OnTurnEnd(t, status, error).notes) == ClientTurn(u.status, u.items, u.error)
  {
    var u := OnTurnEnd(t, status, error).turn;
    ApplyOne(c, TurnEnded(u.status, u.items, u.error));
  }

  predicate EndsTurn(e: Event) {
    e.TurnCompleted? || e.TurnAborted? || e.TurnFailed?
  }

  lemma EndAgrees(t: Turn, c: ClientTurn, e: Event)
    requires EndsTurn(e) && c.status == t.status && ErrorAgrees(t, c)
    ensures var u := StepTurn(t, e); var d := ApplyAll(c, u.notes);
            && d.status == u.turn.status && ErrorAgrees(u.turn, d)
            && (if u.notes != [] then d.items == u.turn.items else d == c && u.turn == t)
  {
    var status := match e case TurnCompleted(_) => Done case TurnAborted(_) => Interrupted case _ => Broken;
    var error := if e.TurnFailed? then Failure(e.message) else None;
    if OnTurnEnd(t, status, error).notes != [] {
      TurnEndResyncs(t, c, status, error);
    }
  }

  // The events answered by the one item they put, in one notification.
  predicate AnnouncesOneItem(t: Turn, e: Event) {
    e.MessageCompleted? || e.ReasoningCompleted? || e.ToolStarted? || e.ToolCompleted? || e.ToolFailed?
    || e.ContextUpdated? || (e.UserMessage? && Users(t.items) != 0)
  }

  // Live output of a tool call whose id is empty: the server parks it, the client drops it.
  predicate LosesOutput(t: Turn, e: Event) {
    && e.OutputDelta? && e.toolCallId == ""
    && Holds(t.items, Tool("")) && Find(t.items, Tool("")).value.DynamicToolCall?
  }

  // That tool call is announced whole, with what was lost.
  predicate MakesUp(e: Event) {
    (e.ToolStarted? || e.ToolCompleted? || e.ToolFailed?) && e.call.id == ""
  }

  // The events after which the client has the whole turn, whatever it had before.
  predicate Resyncs(t: Turn, e: Event) {
    e.TurnStarted? || (EndsTurn(e) && StepTurn(t, e).notes != [])
  }

  // Whether the client lacks output it dropped.
  predicate LostAfter(t: Turn, e: Event, lost: bool) {
    !Resyncs(t, e) && !MakesUp(e) && (lost || LosesOutput(t, e))
  }

  lemma WholeItemMakesUp(s: seq<Item>, c: seq<Item>, item: Item, lost: bool)
    requires ItemsAlike(s, c, lost) && DistinctKeys(s) && item.id == Tool("")
    ensures ItemsAlike(Put(s, item), Put(c, item), false)
  {
    AgreeingKeysSitTogether(s, c, item.id, lost);
    HoldsIffPresent(s, item.id);
  }

  lemma WholeItemAgrees(t: Turn, c: ClientTurn, e: Event, lost: bool)
    requires Agrees(t, c, lost) && TouchesTurn(e) && AnnouncesOneItem(t, e)
    ensures Agrees(StepTurn(t, e).turn, ApplyAll(c, StepTurn(t, e).notes), lost)
  {
    var body := StepTurn(t, e).notes[0];
    AnnouncedItemAgrees(t, c, body.item, lost);
    ApplyOne(c, body);
  }

  lemma NamelessItemMakesUp(t: Turn, c: ClientTurn, e: Event, lost: bool)
    requires DistinctKeys(t.items) && Agrees(t, c, lost) && MakesUp(e)
    ensures Agrees(StepTurn(t, e).turn, ApplyAll(c, StepTurn(t, e).notes), false)
  {
    var body := StepTurn(t, e).notes[0];
    NamelessItemIsFiled(t, e);
    WholeItemMakesUp(t.items, c.items, body.item, lost);
    hide StepTurn, ItemsAlike;
    ApplyOne(c, body);
  }

  lemma NamelessItemIsFiled(t: Turn, e: Event)
    requires MakesUp(e)
    ensures var r := StepTurn(t, e);
            && |r.notes| == 1 && (r.notes[0].ItemStarted? || r.notes[0].ItemCompleted?)
            && r.notes[0].item.id == Tool("")
            && r.turn == t.(items := Put(t.items, r.notes[0].item), stepHasTool := r.turn.stepHasTool)
  {
  }

  lemma ChunkIsLost(t: Turn, c: ClientTurn, e: Event, lost: bool)
    requires Agrees(t, c, lost) && LosesOutput(t, e)
    ensures ApplyAll(c, StepTurn(t, e).notes) == c
    ensures Agrees(StepTurn(t, e).turn, c, true)
  {
    var id := Tool("");
    var item := Find(t.items, id).value;
    ApplyOne(c, LiveOutput(id, item.tool, e.text, KindOf(e.stream)));
    AgreeingKeysSitTogether(t.items, c.items, id, lost);
    var grown := item.(live := Some(AppendLive(item.live.GetOr([]), KindOf(e.stream), e.text)));
    assert StepTurn(t, e).turn.items == t.items[IndexOf(t.items, id) := grown];
  }

  lemma StartAgrees(t: Turn, c: ClientTurn)
    requires DistinctKeys(t.items)
    ensures Agrees(OnTurnStarted(t).turn, ApplyAll(c, OnTurnStarted(t).notes), false)
  {
    TurnStartResyncs(t, c);
  }

  lemma EndStaysAlike(t: Turn, c: ClientTurn, e: Event, lost: bool)
    requires EndsTurn(e) && Agrees(t, c, lost)
    ensures Agrees(StepTurn(t, e).turn, ApplyAll(c, StepTurn(t, e).notes), LostAfter(t, e, lost))
  {
    EndAgrees(t, c, e);
  }

  // Agreement survives every event but the silent opening message. Output of a nameless tool
  // call is lost, and made up for when that call is announced whole or the turn is.
  lemma StepAgrees(t: Turn, c: ClientTurn, e: Event, lost: bool)
    requires DistinctKeys(t.items) && Agrees(t, c, lost) && TouchesTurn(e) && !OpensSilently(t, e)
    ensures Agrees(StepTurn(t, e).turn, ApplyAll(c, StepTurn(t, e).notes), LostAfter(t, e, lost))
  {
    hide ItemsAlike, ErrorAgrees, ApplyAll, DistinctKeys, OnMessageDelta, OnReasoningDelta, Cap, AppendLive;
    if LosesOutput(t, e) {
      ChunkIsLost(t, c, e, lost);
    } else if MakesUp(e) {
      NamelessItemMakesUp(t, c, e, lost);
    } else if AnnouncesOneItem(t, e) {
      WholeItemAgrees(t, c, e, lost);
    } else if e.TurnStarted? {
      StartAgrees(t, c);
    } else if e.MessageDelta? {
      MessageDeltaAgrees(t, c, e.text, lost);
    } else if e.ReasoningDelta? {
      ReasoningDeltaAgrees(t, c, e.text, lost);
    } else if EndsTurn(e) {
      EndStaysAlike(t, c, e, lost);
    } else if StepTurn(t, e).notes != [] {
      if Find(t.items, Tool(e.toolCallId)).value.CommandExecution? {
        CommandChunkAgrees(t, c, e, lost);
      } else {
        LiveChunkAgrees(t, c, e, lost);
      }
    } else {
      ApplyNone(c);
    }
  }

  // What is lost shows, unless appending it changes nothing that a capped line shows; a
  // first chunk always does.
  lemma LostOutputShows(t: Turn, c: ClientTurn, e: Event)
    requires DistinctKeys(t.items) && Agrees(t, c, false) && LosesOutput(t, e)
    ensures ApplyAll(c, StepTurn(t, e).notes) == c
    ensures var held := Find(t.items, Tool("")).value.live;
            Agrees(StepTurn(t, e).turn, c, false)
            <==> held.Some? && LinesAgree(AppendLive(held.value, KindOf(e.stream), e.text), held.value)
  {
    var id := Tool("");
    var item := Find(t.items, id).value;
    ChunkIsLost(t, c, e, false);
    AgreeingKeysSitTogether(t.items, c.items, id, false);
    var i := IndexOf(t.items, id);
    var grown := item.(live := Some(AppendLive(item.live.GetOr([]), KindOf(e.stream), e.text)));
    assert StepTurn(t, e).turn.items == t.items[i := grown];
    assert StepTurn(t, e).turn.items[i] == grown;
  }

  // ---- The one item a client can lack -----------------------------------------

  predicate Misses(t: Turn, c: ClientTurn) {
    Holds(t.items, User(0)) && !Holds(c.items, User(0))
  }

  function KeyOfBody(body: Body): Option<ItemId> {
    match body
    case ItemStarted(item) => Some(item.id)
    case ItemCompleted(item) => Some(item.id)
    case MessageText(id, _) => Some(id)
    case ReasoningText(id, _) => Some(id)
    case CommandOutput(id, _, _) => Some(id)
    case LiveOutput(id, _, _, _) => Some(id)
    case _ => None
  }

  lemma ApplyAddsItsKeyOnly(c: ClientTurn, body: Body, id: ItemId)
    requires !Holds(c.items, id) && KeyOfBody(body) != Some(id)
    requires !body.TurnBegan? && !body.TurnEnded?
    ensures !Holds(ApplyToTurn(c, body).items, id)
    ensures ApplyToTurn(c, body).status == c.status && ApplyToTurn(c, body).error == c.error
  {
    var after := ApplyToTurn(c, body).items;
    if KeyOfBody(body).Some? && Holds(after, KeyOfBody(body).value) {
      PutKeepsPlaces(c.items, Find(after, KeyOfBody(body).value).value);
    }
  }

  lemma {:induction false} ApplyKeepsMissing(c: ClientTurn, bodies: seq<Body>, id: ItemId)
    requires !Holds(c.items, id)
    requires forall b :: b in bodies ==> KeyOfBody(b) != Some(id) && !b.TurnBegan? && !b.TurnEnded?
    ensures !Holds(ApplyAll(c, bodies).items, id)
    ensures ApplyAll(c, bodies).status == c.status && ApplyAll(c, bodies).error == c.error
  {
    if bodies != [] {
      ApplyKeepsMissing(c, bodies[..|bodies| - 1], id);
      ApplyAddsItsKeyOnly(ApplyAll(c, bodies[..|bodies| - 1]), bodies[|bodies| - 1], id);
    }
  }

  predicate NamesOther(bodies: seq<Body>) {
    forall b :: b in bodies ==> KeyOfBody(b) != Some(User(0)) && !b.TurnBegan? && !b.TurnEnded?
  }

  lemma ToolNotesNeverNameTheOpening(t: Turn, e: Event)
    requires e.ToolStarted? || e.ToolCompleted? || e.ToolFailed? || e.OutputDelta?
    ensures NamesOther(StepTurn(t, e).notes)
    ensures StepTurn(t, e).turn.status == t.status && StepTurn(t, e).turn.error == t.error
  {
  }

  lemma NotesNeverNameTheOpening(t: Turn, e: Event)
    requires TouchesTurn(e) && Users(t.items) > 0 && !Resyncs(t, e)
    ensures NamesOther(StepTurn(t, e).notes)
    ensures StepTurn(t, e).turn.status == t.status && StepTurn(t, e).turn.error == t.error
  {
    if e.ToolStarted? || e.ToolCompleted? || e.ToolFailed? || e.OutputDelta? {
      ToolNotesNeverNameTheOpening(t, e);
    }
  }

  lemma OpeningStays(t: Turn, e: Event)
    requires WellPlaced(t) && TouchesTurn(e) && Holds(t.items, User(0))
    ensures Users(t.items) > 0 && Holds(StepTurn(t, e).turn.items, User(0))
  {
    assert t.items[IndexOf(t.items, User(0))].id.ordinal < Users(t.items);
    OnlyTheLastKeyIsNew(t, e);
    KeptKeyKeepsIndex(t.items, StepTurn(t, e).turn.items, User(0));
  }

  // ---- Whole runs -------------------------------------------------------------

  // Whether the client has been told of every item of the turn: not between the silent
  // opening message and the next start or announced end of that turn.
  predicate SyncAfter(t: Turn, e: Event, synced: bool) {
    if Resyncs(t, e) then true else if OpensSilently(t, e) then false else synced
  }

  predicate Follows(t: Turn, c: ClientTurn, synced: bool, lost: bool) {
    && WellPlaced(t)
    && c.status == t.status
    && ErrorAgrees(t, c)
    && (if synced then ItemsAlike(t.items, c.items, lost) else Misses(t, c))
  }

  lemma SilentOpeningIsMissed(t: Turn, c: ClientTurn, e: Event, lost: bool)
    requires WellPlaced(t) && TouchesTurn(e) && OpensSilently(t, e) && ItemsAlike(t.items, c.items, lost)
    ensures StepTurn(t, e).notes == [] && Misses(StepTurn(t, e).turn, c)
    ensures StepTurn(t, e).turn.status == t.status && StepTurn(t, e).turn.error == t.error
  {
    UserMessageAppends(t, e.text);
    AgreeingKeysSitTogether(t.items, c.items, User(0), lost);
    HoldsIffPresent(StepTurn(t, e).turn.items, User(0));
    assert StepTurn(t, e).turn.items[|t.items|].id == User(0);
  }

  lemma MissingFollows(t: Turn, c: ClientTurn, e: Event)
    requires WellPlaced(t) && TouchesTurn(e) && Misses(t, c) && !Resyncs(t, e)
    ensures Misses(StepTurn(t, e).turn, ApplyAll(c, StepTurn(t, e).notes))
    ensures StepTurn(t, e).turn.status == t.status && StepTurn(t, e).turn.error == t.error
    ensures ApplyAll(c, StepTurn(t, e).notes).status == c.status
    ensures ApplyAll(c, StepTurn(t, e).notes).error == c.error
  {
    OpeningStays(t, e);
    NotesNeverNameTheOpening(t, e);
    ApplyKeepsMissing(c, StepTurn(t, e).notes, User(0));
  }

  lemma ResyncFollows(t: Turn, c: ClientTurn, e: Event)
    requires WellPlaced(t) && TouchesTurn(e) && Resyncs(t, e) && c.status == t.status && ErrorAgrees(t, c)
    ensures Agrees(StepTurn(t, e).turn, ApplyAll(c, StepTurn(t, e).notes), false)
  {
    if e.TurnStarted? {
      TurnStartResyncs(t, c);
    } else {
      EndAgrees(t, c, e);
    }
  }

  lemma StepFollows(t: Turn, c: ClientTurn, e: Event, synced: bool, lost: bool)
    requires Follows(t, c, synced, lost) && TouchesTurn(e)
    ensures Follows(StepTurn(t, e).turn, ApplyAll(c, StepTurn(t, e).notes), SyncAfter(t, e, synced), LostAfter(t, e, lost))
  {
    StepKeepsWellPlaced(t, e);
    if Resyncs(t, e) {
      ResyncFollows(t, c, e);
    } else if !synced {
      MissingFollows(t, c, e);
      OpeningStays(t, e);
    } else if OpensSilently(t, e) {
      SilentOpeningIsMissed(t, c, e, lost);
    } else {
      StepAgrees(t, c, e, lost);
    }
  }

  lemma StepKeepsWellPlaced(t: Turn, e: Event)
    requires WellPlaced(t) && TouchesTurn(e)
    ensures WellPlaced(StepTurn(t, e).turn)
  {
    StepAdvances(t, e);
  }

  // The turn part of a list of stamped notifications is the turn's own fold.
  lemma {:induction false} StampedNotesReachTheirTurn(client: Client, r: Record, bodies: seq<Body>, id: string)
    requires r.turnId.Some?
    requires forall b :: b in bodies ==> WritesTurn(b)
    ensures ClientTurnOf(ApplyNotes(client, Stamp(r, bodies)), id)
            == (if id == r.turnId.value then ApplyAll(ClientTurnOf(client, id), bodies)
                else ClientTurnOf(client, id))
    ensures ApplyNotes(client, Stamp(r, bodies)).usage == client.usage
  {
    var notes := Stamp(r, bodies);
    if bodies == [] {
      assert notes == [];
    } else {
      var n := |bodies| - 1;
      assert notes[..n] == Stamp(r, bodies[..n]);
      StampedNotesReachTheirTurn(client, r, bodies[..n], id);
      assert notes[n] == Note(r.turnId, r.sequence, bodies[n]);
      assert WritesTurn(bodies[n]);
    }
  }

  lemma TurnNotesWriteTurns(t: Turn, e: Event)
    requires TouchesTurn(e)
    ensures forall b :: b in StepTurn(t, e).notes ==> WritesTurn(b)
  {
    AnnounceIsStable(t.items);
  }

  // Records that bypass the turn table leave every client turn as it is.
  lemma ThreadNotesLeaveTurns(s: State, client: Client, d: Delivery, id: string)
    requires !TouchesTurn(d.record.event)
    requires client.usage == (s.inputTokens, s.outputTokens)
    ensures var after := ApplyNotes(client, ProjectRecord(s, d).notes);
            && ClientTurnOf(after, id) == ClientTurnOf(client, id)
            && after.usage == (ProjectRecord(s, d).state.inputTokens, ProjectRecord(s, d).state.outputTokens)
            && TurnOf(ProjectRecord(s, d).state, id) == TurnOf(s, id)
  {
    hide StepTurn, Put, Cap, ApplyMessageText, ApplyReasoningText, ApplyCommandOutput, ApplyLiveOutput;
    var notes := ProjectRecord(s, d).notes;
    assert |notes| == 1;
    assert notes[..0] == [];
  }

  predicate Synced(ds: seq<Delivery>, id: string) {
    if ds == [] then true
    else
      var before := ds[..|ds| - 1];
      var r := ds[|ds| - 1].record;
      if r.turnId == Some(id) && TouchesTurn(r.event)
      then SyncAfter(TurnOf(RunServer(before), id), r.event, Synced(before, id))
      else Synced(before, id)
  }

  // Output of the turn's nameless tool call was lost, and neither the call nor the turn has
  // been announced whole since.
  predicate Lost(ds: seq<Delivery>, id: string) {
    if ds == [] then false
    else
      var before := ds[..|ds| - 1];
      var r := ds[|ds| - 1].record;
      if r.turnId == Some(id) && TouchesTurn(r.event)
      then LostAfter(TurnOf(RunServer(before), id), r.event, Lost(before, id))
      else Lost(before, id)
  }

  // Not so when every tool call has an id.
  lemma {:induction false} NothingNamedIsLost(ds: seq<Delivery>, id: string)
    requires forall i :: 0 <= i < |ds| && ds[i].record.event.OutputDelta? ==> ds[i].record.event.toolCallId != ""
    ensures !Lost(ds, id)
  {
    if ds != [] {
      var n := |ds| - 1;
      assert forall i :: 0 <= i < n ==> ds[..n][i] == ds[i];
      NothingNamedIsLost(ds[..n], id);
    }
  }

  lemma {:induction false} RunFollows(ds: seq<Delivery>, id: string)
    ensures Follows(TurnOf(RunServer(ds), id), ClientTurnOf(RunClient(ds), id), Synced(ds, id), Lost(ds, id))
    ensures RunClient(ds).usage == (RunServer(ds).inputTokens, RunServer(ds).outputTokens)
  {
    if ds != [] {
      var before := ds[..|ds| - 1];
      var d := ds[|ds| - 1];
      var r := d.record;
      var s, client := RunServer(before), RunClient(before);
      RunFollows(before, id);
      if !TouchesTurn(r.event) {
        ThreadNotesLeaveTurns(s, client, d, id);
      } else if r.turnId.Some? {
        var t := TurnOf(s, r.turnId.value);
        TurnNotesWriteTurns(t, r.event);
        StampedNotesReachTheirTurn(client, r, StepTurn(t, r.event).notes, id);
        if r.turnId.value == id {
          StepFollows(t, ClientTurnOf(client, id), r.event, Synced(before, id), Lost(before, id));
        }
      }
    }
  }

  // After any run, the client's turn shows the server's items, in the server's order,
  // exactly when the turn is synced, but for output of a nameless tool call that it lost; it
  // always shows the server's status, never shows a wrong error, and its token totals are
  // the server's.
  lemma ClientShowsTheTranscript(ds: seq<Delivery>, id: string)
    ensures var t, c := TurnOf(RunServer(ds), id), ClientTurnOf(RunClient(ds), id);
            && (ItemsAlike(t.items, c.items, true) <==> Synced(ds, id))
            && (!Lost(ds, id) ==> (ItemsAgree(t.items, c.items) <==> Synced(ds, id)))
            && c.status == t.status
            && (c.error.Some? ==> c.error == t.error)
    ensures RunClient(ds).usage == (RunServer(ds).inputTokens, RunServer(ds).outputTokens)
  {
    RunFollows(ds, id);
    var t, c := TurnOf(RunServer(ds), id), ClientTurnOf(RunClient(ds), id);
    if ItemsAlike(t.items, c.items, true) {
      AgreeingKeysSitTogether(t.items, c.items, User(0), true);
    }
  }

  // What a snapshot tells a client that asks for one is what clients hold that followed the
  // notifications: it lists each turn some record was about, once, with the status they
  // show, and with the items they show exactly if the turn is synced.
  lemma SnapshotIsWhatClientsHold(ds: seq<Delivery>, id: string)
    ensures Ordered(RunServer(ds))
    ensures var snapshot, c := Snapshot(RunServer(ds)), ClientTurnOf(RunClient(ds), id);
            && (forall i, j :: 0 <= i < j < |snapshot| ==> snapshot[i].id != snapshot[j].id)
            && ((exists i :: 0 <= i < |snapshot| && snapshot[i].id == id)
                <==> exists k :: 0 <= k < |ds| && Touches(ds[k], id))
            && forall i :: 0 <= i < |snapshot| && snapshot[i].id == id ==>
                 && snapshot[i].status == c.status
                 && (!Lost(ds, id) ==> (ItemsAgree(snapshot[i].items, c.items) <==> Synced(ds, id)))
  {
    RunKeepsTurnOrder(ds);
    TouchedTurnsAreListed(ds, id);
    ClientShowsTheTranscript(ds, id);
    var s := RunServer(ds);
    if id in s.turns {
      var i :| 0 <= i < |s.order| && s.order[i] == id;
      assert Snapshot(s)[i].id == id;
    }
  }

  predicate At(ds: seq<Delivery>, i: nat, id: string) {
    i < |ds| && ds[i].record.turnId == Some(id)
  }

  // What one record does to one turn.
  lemma ProjectSteps(s: State, d: Delivery, id: string)
    ensures TurnOf(ProjectRecord(s, d).state, id)
            == (if d.record.turnId == Some(id) && TouchesTurn(d.record.event)
                then StepTurn(TurnOf(s, id), d.record.event).turn else TurnOf(s, id))
  {
  }

  lemma {:induction false} RunIsWellPlaced(ds: seq<Delivery>, id: string)
    ensures WellPlaced(TurnOf(RunServer(ds), id))
  {
    if ds != [] {
      var r := ds[|ds| - 1].record;
      RunIsWellPlaced(ds[..|ds| - 1], id);
      ProjectSteps(RunServer(ds[..|ds| - 1]), ds[|ds| - 1], id);
      if r.turnId == Some(id) && TouchesTurn(r.event) {
        StepKeepsWellPlaced(TurnOf(RunServer(ds[..|ds| - 1]), id), r.event);
      }
    }
  }

  lemma OpenedStaysOpened(t: Turn, e: Event)
    requires WellPlaced(t) && TouchesTurn(e) && Users(t.items) > 0
    ensures Users(StepTurn(t, e).turn.items) > 0
  {
    OpeningStays(t, e);
    StepKeepsWellPlaced(t, e);
    var u := StepTurn(t, e).turn;
    assert u.items[IndexOf(u.items, User(0))].id.ordinal < Users(u.items);
  }

  lemma {:induction false} OpenedHasUsers(ds: seq<Delivery>, id: string, openedAt: nat)
    requires At(ds, openedAt, id) && ds[openedAt].record.event.UserMessage?
    ensures Users(TurnOf(RunServer(ds), id).items) > 0
  {
    var n := |ds| - 1;
    var t := TurnOf(RunServer(ds[..n]), id);
    var r := ds[n].record;
    RunIsWellPlaced(ds[..n], id);
    ProjectSteps(RunServer(ds[..n]), ds[n], id);
    if openedAt == n {
      UserMessageAppends(t, r.event.text);
      UsersOfAppend(t.items, Item.UserMessage(User(Users(t.items)), r.event.text));
    } else {
      OpenedHasUsers(ds[..n], id, openedAt);
      if TouchesTurn(r.event) && r.turnId == Some(id) {
        OpenedStaysOpened(t, r.event);
      }
    }
  }

  // Once an opening message has been followed by the start of its turn, the turn is synced
  // for good: the condition the engine meets for every turn it runs.
  lemma {:induction false} OpenedThenStartedIsSynced(ds: seq<Delivery>, id: string, openedAt: nat, startedAt: nat)
    requires openedAt < startedAt && At(ds, openedAt, id) && At(ds, startedAt, id)
    requires ds[openedAt].record.event.UserMessage? && ds[startedAt].record.event.TurnStarted?
    ensures Synced(ds, id)
  {
    var n := |ds| - 1;
    if startedAt < n {
      OpenedThenStartedIsSynced(ds[..n], id, openedAt, startedAt);
      OpenedHasUsers(ds[..n], id, openedAt);
    }
  }
}
