// The event records that flow from a thread's bus to its clients
// (src/app-server/event-bus.ts, src/runtime/events.ts).

module Events {
  import opened Wrappers

  // A JSON value, as carried by tool arguments, tool results and advisory payloads.
  datatype Json =
    | Null
    | Bool(b: bool)
    | Number(n: int)
    | Text(s: string)
    | List(items: seq<Json>)
    | Object(fields: seq<Field>)

  datatype Field = Field(key: string, value: Json)

  function Lookup(fields: seq<Field>, key: string): Option<Json> {
    if fields == [] then None
    else if fields[0].key == key then Some(fields[0].value)
    else Lookup(fields[1..], key)
  }

  // A property read on a value that may not be an object at all.
  function Property(v: Option<Json>, key: string): Option<Json> {
    if v.Some? && v.value.Object? then Lookup(v.value.fields, key) else None
  }

  function TextProperty(v: Option<Json>, key: string): Option<string> {
    var p := Property(v, key);
    if p.Some? && p.value.Text? then Some(p.value.s) else None
  }

  function NumberProperty(v: Option<Json>, key: string): Option<int> {
    var p := Property(v, key);
    if p.Some? && p.value.Number? then Some(p.value.n) else None
  }

  // An object's property is the value of the first field with its key.
  lemma {:induction false} LookupFindsTheFirst(fields: seq<Field>, key: string)
    ensures match Lookup(fields, key)
            case None => forall i :: 0 <= i < |fields| ==> fields[i].key != key
            case Some(v) => exists i :: 0 <= i < |fields| && fields[i] == Field(key, v)
                              && forall j :: 0 <= j < i ==> fields[j].key != key
  {
    if fields != [] && fields[0].key != key {
      LookupFindsTheFirst(fields[1..], key);
      if Lookup(fields, key).Some? {
        var v := Lookup(fields, key).value;
        var i :| 0 <= i < |fields| - 1 && fields[1..][i] == Field(key, v)
              && forall j :: 0 <= j < i ==> fields[1..][j].key != key;
        assert fields[i + 1] == Field(key, v);
        assert forall j :: 0 < j < i + 1 ==> fields[j] == fields[1..][j - 1];
      } else {
        assert forall i :: 0 < i < |fields| ==> fields[i] == fields[1..][i - 1];
      }
    }
  }

  // The value is an object whose property of that name is v.
  predicate Reads(value: Option<Json>, key: string, v: Json) {
    match value
    case Some(Object(fields)) => Lookup(fields, key) == Some(v)
    case _ => false
  }

  // A property is read as text, or as a number, exactly if it is one.
  lemma PropertyReads(value: Option<Json>, key: string, v: Json)
    ensures v.Text? ==> (Reads(value, key, v) <==> TextProperty(value, key) == Some(v.s))
    ensures v.Number? ==> (Reads(value, key, v) <==> NumberProperty(value, key) == Some(v.n))
  {
  }

  // `changes` is what the diff module derives from the call's name and arguments:
  // Some exactly when the tool is one that changes files.
  datatype ToolCall = ToolCall(id: string, name: string, args: Json, changes: Option<seq<Json>>)

  // `refined` is what the diff module derives once the output is known as well.
  datatype ToolResult = ToolResult(fields: seq<Field>, refined: Option<seq<Json>>) {
    function Get(key: string): Option<Json> {
      Lookup(fields, key)
    }

    predicate Ok() {
      Get("ok") == Some(Bool(true))
    }
  }

  datatype Stream = Stdout | Stderr

  datatype Phase = Begun | Finished | Faulted

  datatype ContextReport = ContextReport(
    phase: Phase,
    technique: string,
    savedChars: Option<int>,
    savedTokens: Option<int>,
    messagesBefore: Option<int>,
    messagesAfter: Option<int>,
    usedTokens: Option<int>,
    softCap: Option<int>,
    detail: Option<string>,
    reason: Option<string>)

  // `Forwarded` stands for the events that turn into one notification and touch no
  // state: background output, approvals, warnings and errors.
  datatype Event =
    | ThreadStarted
    | ThreadStatusChanged(status: string)
    | ThreadClosed
    | TurnQueued
    | UserMessage(text: string)
    | InterruptRequested
    | TurnStarted
    | TurnCompleted(assistantMessage: string)
    | TurnAborted(reason: string)
    | TurnFailed(name: string, message: string)
    | MessageDelta(text: string)
    | MessageCompleted(text: string)
    | ReasoningDelta(text: string)
    | ReasoningCompleted(text: string)
    | ToolStarted(call: ToolCall)
    | ToolCompleted(call: ToolCall, result: ToolResult)
    | ToolFailed(call: ToolCall, name: string, message: string)
    | OutputDelta(toolCallId: string, stream: Stream, text: string)
    | ContextUpdated(report: ContextReport)
    | TokenUsage(inputTokens: nat, outputTokens: nat)
    | PlanUpdated(steps: seq<Json>)
    | TodoUpdated(entries: seq<Json>)
    | VerificationStarted(verdict: Json)
    | VerificationCompleted(verdict: Json)
    | Forwarded(topic: string, payload: seq<Field>)

  datatype Record = Record(sequence: nat, turnId: Option<string>, event: Event)
}
