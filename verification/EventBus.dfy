// The bounded replay log of one thread (src/app-server/event-bus.ts).

module EventBus {
  import opened Wrappers
  import opened Events
  import opened Strings

  // ---- The size estimate ------------------------------------------------------

  const RECORD_OVERHEAD: nat := 200

  // The characters of every string inside a value.
  function TextSize(v: Json): nat {
    match v
    case Text(s) => |s|
    case List(items) => ItemsSize(items)
    case Object(fields) => FieldsSize(fields)
    case _ => 0
  }

  function ItemsSize(items: seq<Json>): nat {
    if items == [] then 0 else ItemsSize(items[..|items| - 1]) + TextSize(items[|items| - 1])
  }

  function FieldsSize(fields: seq<Field>): nat {
    if fields == [] then 0 else FieldsSize(fields[..|fields| - 1]) + TextSize(fields[|fields| - 1].value)
  }

  // The values an event carries under text, content, delta, result, error and message.
  function Measured(e: Event): seq<Json> {
    match e
    case UserMessage(text) => [Text(text)]
    case MessageDelta(text) => [Text(text)]
    case MessageCompleted(text) => [Text(text)]
    case ReasoningDelta(text) => [Text(text)]
    case ReasoningCompleted(text) => [Text(text)]
    case OutputDelta(_, _, text) => [Text(text)]
    case ToolCompleted(_, result) => [Object(result.fields)]
    case ToolFailed(_, name, message) => [Object([Field("name", Text(name)), Field("message", Text(message))])]
    case TurnFailed(name, message) => [Object([Field("name", Text(name)), Field("message", Text(message))])]
    case Forwarded(_, payload) =>
      Present(payload, "text") + Present(payload, "content") + Present(payload, "delta")
      + Present(payload, "result") + Present(payload, "error") + Present(payload, "message")
    case _ => []
  }

  function Present(payload: seq<Field>, key: string): seq<Json> {
    var v := Lookup(payload, key);
    if v.Some? then [v.value] else []
  }

  function ByteSize(r: Record): nat {
    RECORD_OVERHEAD + ItemsSize(Measured(r.event))
  }

  // The accumulating walk of the source.
  method Add(size: nat, v: Json) returns (grown: nat)
    ensures grown == size + TextSize(v)
    decreases v
  {
    grown := size;
    match v {
      case Text(s) => grown := grown + |s|;
      case List(items) =>
        for i := 0 to |items|
          invariant grown == size + ItemsSize(items[..i])
        {
          assert items[..i + 1][..i] == items[..i];
          grown := Add(grown, items[i]);
        }
        assert items[..|items|] == items;
      case Object(fields) =>
        for i := 0 to |fields|
          invariant grown == size + FieldsSize(fields[..i])
        {
          assert fields[..i + 1][..i] == fields[..i];
          grown := Add(grown, fields[i].value);
        }
        assert fields[..|fields|] == fields;
      case _ =>
    }
  }

  method EventByteSize(r: Record) returns (size: nat)
    ensures size == ByteSize(r)
  {
    var measured := Measured(r.event);
    size := RECORD_OVERHEAD;
    for i := 0 to |measured|
      invariant size == RECORD_OVERHEAD + ItemsSize(measured[..i])
    {
      assert measured[..i + 1][..i] == measured[..i];
      size := Add(size, measured[i]);
    }
    assert measured[..|measured|] == measured;
  }

  // ---- What the estimate measures ---------------------------------------------

  // Every string inside a value, in order; the keys of objects are not among them.
  function StringsIn(v: Json): seq<string>
    decreases v, 0
  {
    match v
    case Text(s) => [s]
    case List(items) => StringsInItems(items)
    case Object(fields) => StringsInFields(fields)
    case Null => []
    case Bool(_) => []
    case Number(_) => []
  }

  function StringsInItems(items: seq<Json>): seq<string>
    decreases items, 1
  {
    if items == [] then [] else StringsIn(items[0]) + StringsInItems(items[1..])
  }

  function StringsInFields(fields: seq<Field>): seq<string>
    decreases fields, 1
  {
    if fields == [] then [] else StringsIn(fields[0].value) + StringsInFields(fields[1..])
  }

  // A text as long as all the strings of the value together.
  function TextIn(v: Json): string {
    Join(StringsIn(v), "")
  }

  lemma {:induction false} JoinInParts(a: seq<string>, b: seq<string>)
    ensures Join(a + b, "") == Join(a, "") + Join(b, "")
  {
    if a == [] {
      assert a + b == b;
    } else {
      JoinInParts(a[1..], b);
      assert (a + b)[0] == a[0] && (a + b)[1..] == a[1..] + b;
      JoinFirst(a);
      JoinFirst(a + b);
    }
  }

  lemma JoinFirst(parts: seq<string>)
    requires parts != []
    ensures Join(parts, "") == parts[0] + Join(parts[1..], "")
  {
    if |parts| == 1 {
      assert parts[0] + "" == parts[0];
    }
  }

  lemma {:induction false} ItemsSizeInParts(items: seq<Json>)
    requires items != []
    ensures ItemsSize(items) == TextSize(items[0]) + ItemsSize(items[1..])
  {
    var n := |items| - 1;
    if n > 0 {
      ItemsSizeInParts(items[..n]);
      assert items[..n][1..] == items[1..][..n - 1];
    }
  }

  lemma {:induction false} FieldsSizeInParts(fields: seq<Field>)
    requires fields != []
    ensures FieldsSize(fields) == TextSize(fields[0].value) + FieldsSize(fields[1..])
  {
    var n := |fields| - 1;
    if n > 0 {
      FieldsSizeInParts(fields[..n]);
      assert fields[..n][1..] == fields[1..][..n - 1];
    }
  }

  // The walk counts the characters of every string in the value once.
  lemma {:induction false} SizeIsTheText(v: Json)
    ensures TextSize(v) == |TextIn(v)|
    decreases v, 0
  {
    match v
    case Text(s) =>
    case List(items) => ItemsSizeIsTheText(items);
    case Object(fields) => FieldsSizeIsTheText(fields);
    case _ =>
  }

  lemma {:induction false} ItemsSizeIsTheText(items: seq<Json>)
    ensures ItemsSize(items) == |Join(StringsInItems(items), "")|
    decreases items, 1
  {
    if items != [] {
      SizeIsTheText(items[0]);
      ItemsSizeIsTheText(items[1..]);
      ItemsSizeInParts(items);
      JoinInParts(StringsIn(items[0]), StringsInItems(items[1..]));
    }
  }

  lemma {:induction false} FieldsSizeIsTheText(fields: seq<Field>)
    ensures FieldsSize(fields) == |Join(StringsInFields(fields), "")|
    decreases fields, 1
  {
    if fields != [] {
      SizeIsTheText(fields[0].value);
      FieldsSizeIsTheText(fields[1..]);
      FieldsSizeInParts(fields);
      JoinInParts(StringsIn(fields[0].value), StringsInFields(fields[1..]));
    }
  }

  // The text a record's event carries under text, content, delta, result, error and message.
  function Carried(e: Event): string {
    match e
    case UserMessage(text) => text
    case MessageDelta(text) => text
    case MessageCompleted(text) => text
    case ReasoningDelta(text) => text
    case ReasoningCompleted(text) => text
    case OutputDelta(_, _, text) => text
    case ToolCompleted(_, result) => Join(StringsInFields(result.fields), "")
    case ToolFailed(_, name, message) => name + message
    case TurnFailed(name, message) => name + message
    case Forwarded(_, payload) =>
      Under(payload, "text") + Under(payload, "content") + Under(payload, "delta")
      + Under(payload, "result") + Under(payload, "error") + Under(payload, "message")
    case _ => ""
  }

  function Under(payload: seq<Field>, key: string): string {
    match Lookup(payload, key) case None => "" case Some(v) => TextIn(v)
  }

  lemma SizeOfOne(v: Json)
    ensures ItemsSize([v]) == |TextIn(v)|
  {
    assert [v][..0] == [];
    SizeIsTheText(v);
  }

  lemma SizeOfText(text: string)
    ensures ItemsSize([Text(text)]) == |text|
  {
    assert [Text(text)][..0] == [];
  }

  lemma {:induction false} SizeInParts(a: seq<Json>, b: seq<Json>)
    ensures ItemsSize(a + b) == ItemsSize(a) + ItemsSize(b)
  {
    if b == [] {
      assert a + b == a;
    } else {
      var n := |b| - 1;
      assert (a + b)[..|a| + n] == a + b[..n];
      SizeInParts(a, b[..n]);
    }
  }

  lemma FailureSize(name: string, message: string)
    ensures ItemsSize([Object([Field("name", Text(name)), Field("message", Text(message))])]) == |name + message|
  {
    var fields := [Field("name", Text(name)), Field("message", Text(message))];
    assert [Object(fields)][..0] == [] && fields[1..][1..] == [];
    FieldsSizeInParts(fields);
    FieldsSizeInParts(fields[1..]);
  }

  lemma PayloadSize(payload: seq<Field>, key: string)
    ensures ItemsSize(Present(payload, key)) == |Under(payload, key)|
  {
    if Lookup(payload, key).Some? {
      SizeOfOne(Lookup(payload, key).value);
    }
  }

  // 200 for the record itself, and one for each character of the text its event carries:
  // the same estimate, said without the walk.
  lemma SizeIsTheTextCarried(r: Record)
    ensures ByteSize(r) == 200 + |Carried(r.event)|
  {
    assert ItemsSize([]) == 0;
    hide ItemsSize;
    match r.event
    case ToolCompleted(_, result) => SizeOfOne(Object(result.fields));
    case ToolFailed(_, name, message) => FailureSize(name, message);
    case TurnFailed(name, message) => FailureSize(name, message);
    case Forwarded(_, payload) => ForwardedSize(payload);
    case UserMessage(text) => SizeOfText(text);
    case MessageDelta(text) => SizeOfText(text);
    case MessageCompleted(text) => SizeOfText(text);
    case ReasoningDelta(text) => SizeOfText(text);
    case ReasoningCompleted(text) => SizeOfText(text);
    case OutputDelta(_, _, text) => SizeOfText(text);
    case _ =>
  }

  lemma ForwardedSize(payload: seq<Field>)
    ensures ItemsSize(Measured(Forwarded("", payload))) == |Carried(Forwarded("", payload))|
  {
    var text, content, delta := Present(payload, "text"), Present(payload, "content"), Present(payload, "delta");
    var result, error, message := Present(payload, "result"), Present(payload, "error"), Present(payload, "message");
    hide Present, Under, ItemsSize;
    PayloadSize(payload, "text");
    PayloadSize(payload, "content");
    PayloadSize(payload, "delta");
    PayloadSize(payload, "result");
    PayloadSize(payload, "error");
    PayloadSize(payload, "message");
    SizeInParts(text, content);
    SizeInParts(text + content, delta);
    SizeInParts(text + content + delta, result);
    SizeInParts(text + content + delta + result, error);
    SizeInParts(text + content + delta + result + error, message);
  }

  // All the text of a list of records.
  function TextOf(records: seq<Record>): string {
    if records == [] then "" else Carried(records[0].event) + TextOf(records[1..])
  }

  lemma {:induction false} BytesAreTheText(records: seq<Record>)
    ensures Bytes(records) == 200 * |records| + |TextOf(records)|
  {
    if records != [] {
      SizeIsTheTextCarried(records[0]);
      BytesAreTheText(records[1..]);
    }
  }

  // What a bus that keeps more than one record retains: the text of its records and 200 more
  // for each is within the bound, and if a record is gone, it went because the count was full
  // or because with it the bound would have been passed.
  lemma RetainedTextIsBounded(bus: ThreadEventBus)
    requires bus.Valid()
    ensures |bus.records| > 1 ==> |TextOf(bus.records)| + 200 * |bus.records| <= bus.maxReplayBytes
    ensures var n := |bus.records|;
            n < |bus.history| ==>
              || n == bus.maxReplayEvents
              || |TextOf(bus.history[|bus.history| - n - 1..])| + 200 * (n + 1) > bus.maxReplayBytes
  {
    var n := |bus.records|;
    BytesAreTheText(bus.records);
    if n < |bus.history| {
      BytesAreTheText(Suffix(bus.history, n + 1));
      assert !Fits(Suffix(bus.history, n + 1), bus.maxReplayEvents, bus.maxReplayBytes);
    }
  }

  // ---- What is retained -------------------------------------------------------

  function Bytes(records: seq<Record>): nat {
    if records == [] then 0 else ByteSize(records[0]) + Bytes(records[1..])
  }

  lemma {:induction false} BytesOfAppend(records: seq<Record>, r: Record)
    ensures Bytes(records + [r]) == Bytes(records) + ByteSize(r)
  {
    if records == [] {
      assert [r][1..] == [];
    } else {
      BytesOfAppend(records[1..], r);
      assert (records + [r])[1..] == records[1..] + [r];
    }
  }

  // The two bounds: a single record is kept however large it is.
  predicate Fits(records: seq<Record>, maxEvents: nat, maxBytes: nat) {
    |records| <= maxEvents && (Bytes(records) <= maxBytes || |records| <= 1)
  }

  function Suffix(history: seq<Record>, k: nat): seq<Record>
    requires k <= |history|
  {
    history[|history| - k..]
  }

  // records is the longest suffix of the history that fits both bounds.
  predicate LongestFitting(records: seq<Record>, history: seq<Record>, maxEvents: nat, maxBytes: nat) {
    && |records| <= |history|
    && records == Suffix(history, |records|)
    && Fits(records, maxEvents, maxBytes)
    && NoLongerFits(history, |records|, maxEvents, maxBytes)
  }

  // Dropping from the front is the only way back under a bound: what did not fit before
  // does not fit with one more record.
  lemma UnfitStaysUnfit(records: seq<Record>, r: Record, maxEvents: nat, maxBytes: nat)
    requires !Fits(records, maxEvents, maxBytes)
    ensures !Fits(records + [r], maxEvents, maxBytes)
  {
    BytesOfAppend(records, r);
  }

  lemma OnlyShorterSuffixesCanFit(records: seq<Record>, history: seq<Record>, r: Record, maxEvents: nat, maxBytes: nat)
    requires LongestFitting(records, history, maxEvents, maxBytes)
    ensures NoLongerFits(history + [r], |records| + 1, maxEvents, maxBytes)
    ensures records + [r] == Suffix(history + [r], |records| + 1)
  {
    forall k | |records| + 1 < k <= |history| + 1
      ensures !Fits(Suffix(history + [r], k), maxEvents, maxBytes)
    {
      SuffixGrows(history, r, k - 1);
      UnfitStaysUnfit(Suffix(history, k - 1), r, maxEvents, maxBytes);
    }
    SuffixGrows(history, r, |records|);
  }

  lemma SuffixGrows(history: seq<Record>, r: Record, k: nat)
    requires k <= |history|
    ensures Suffix(history + [r], k + 1) == Suffix(history, k) + [r]
  {
  }

  // No suffix of more than n records fits.
  predicate NoLongerFits(history: seq<Record>, n: nat, maxEvents: nat, maxBytes: nat) {
    forall k :: n < k <= |history| ==> !Fits(Suffix(history, k), maxEvents, maxBytes)
  }

  lemma DropFirst(history: seq<Record>, n: nat, maxEvents: nat, maxBytes: nat)
    requires 1 < n <= |history| && NoLongerFits(history, n, maxEvents, maxBytes)
    requires !Fits(Suffix(history, n), maxEvents, maxBytes)
    ensures Suffix(history, n)[1..] == Suffix(history, n - 1)
    ensures Bytes(Suffix(history, n)) == ByteSize(Suffix(history, n)[0]) + Bytes(Suffix(history, n - 1))
    ensures NoLongerFits(history, n - 1, maxEvents, maxBytes)
  {
    assert Suffix(history, n)[1..] == Suffix(history, n - 1);
  }

  predicate Numbered(history: seq<Record>) {
    forall i :: 0 <= i < |history| ==> history[i].sequence == i + 1
  }

  // ---- Replay -----------------------------------------------------------------

  const MAX_SAFE_INTEGER: int := 0x1F_FFFF_FFFF_FFFF

  datatype Replay = Replay(events: seq<Record>, earliest: nat, latest: nat, truncated: bool)

  function Normalized(after: int): nat {
    if 0 <= after <= MAX_SAFE_INTEGER then after else 0
  }

  // How many leading records of the history a replay leaves out when `kept` are retained.
  function Skipped(total: nat, kept: nat, after: int): (k: nat)
    requires kept <= total
    ensures k <= total
  {
    var wanted := if Normalized(after) <= total then Normalized(after) else total;
    if wanted < total - kept then total - kept else wanted
  }

  function ReplayOf(history: seq<Record>, kept: nat, after: int): Replay
    requires kept <= |history|
  {
    var earliest := |history| - kept + 1;
    Replay(
      history[Skipped(|history|, kept, after)..],
      earliest,
      |history|,
      0 < Normalized(after) && Normalized(after) < earliest - 1)
  }

  // A replay from an offset has, in order, every retained record numbered higher, and says
  // which are retained. An offset that is negative or no safe integer counts as 0. The flag
  // is raised if the record after a positive offset is gone.
  lemma ReplayIsWhatIsKept(history: seq<Record>, kept: nat, after: int)
    requires Numbered(history) && kept <= |history|
    ensures var r := ReplayOf(history, kept, after);
            var offset := if 0 <= after <= 9007199254740991 then after else 0;
            && |r.events| <= |history| && r.events == history[|history| - |r.events|..]
            && (forall i :: 0 <= i < |history| ==>
                  (i >= |history| - |r.events| <==> i >= |history| - kept && history[i].sequence > offset))
            && r.earliest == |history| - kept + 1 && r.latest == |history|
            && (r.truncated <==> 0 < offset && offset < |history| - kept)
  {
  }

  // A replay from a real offset owns up to missing records exactly when it misses some.
  lemma TruncatedMeansIncomplete(history: seq<Record>, kept: nat, after: int)
    requires kept <= |history| && 0 < after <= |history| && after <= MAX_SAFE_INTEGER
    ensures ReplayOf(history, kept, after).truncated <==> ReplayOf(history, kept, after).events != history[after..]
  {
    if ReplayOf(history, kept, after).truncated {
      assert |ReplayOf(history, kept, after).events| != |history[after..]|;
    }
  }

  // From offset 0 the flag stays down even when records are gone: there the replay is
  // complete exactly when nothing has been evicted.
  lemma ReplayFromZero(history: seq<Record>, kept: nat, after: int)
    requires kept <= |history| && Normalized(after) == 0
    ensures !ReplayOf(history, kept, after).truncated
    ensures ReplayOf(history, kept, after).events == history <==> kept == |history|
  {
    if kept != |history| {
      assert |ReplayOf(history, kept, after).events| != |history|;
    } else {
      assert ReplayOf(history, kept, after).events == history;
    }
  }

  // The eviction loop: drops the oldest record until both bounds hold.
  method Evicted(grown: seq<Record>, grownBytes: int, ghost history: seq<Record>, maxEvents: nat, maxBytes: nat)
    returns (records: seq<Record>, retainedBytes: int)
    requires 1 <= maxEvents && 1 <= |grown| <= |history| && grown == Suffix(history, |grown|)
    requires grownBytes == Bytes(grown) && NoLongerFits(history, |grown|, maxEvents, maxBytes)
    ensures LongestFitting(records, history, maxEvents, maxBytes) && records != []
    ensures retainedBytes == Bytes(records)
  {
    records, retainedBytes := grown, grownBytes;
    while |records| > maxEvents || (retainedBytes > maxBytes && |records| > 1)
      invariant 1 <= |records| <= |history| && records == Suffix(history, |records|)
      invariant retainedBytes == Bytes(records)
      invariant NoLongerFits(history, |records|, maxEvents, maxBytes)
      decreases |records|
    {
      DropFirst(history, |records|, maxEvents, maxBytes);
      var dropped := records[0];
      records := records[1..];
      var size := EventByteSize(dropped);
      retainedBytes := retainedBytes - size;
      // The correction for an overshooting estimate never has anything to correct.
      assert retainedBytes >= 0;
      retainedBytes := if retainedBytes < 0 then 0 else retainedBytes;
    }
  }

  // `records.filter` over the retained suffix.
  method After(records: seq<Record>, normalized: nat, ghost base: nat) returns (events: seq<Record>)
    requires forall i :: 0 <= i < |records| ==> records[i].sequence == base + i + 1
    ensures events == records[if normalized <= base then 0
                              else if normalized - base <= |records| then normalized - base else |records|..]
  {
    events := [];
    for i := 0 to |records|
      invariant events == (if normalized >= base + i then []
                           else records[if normalized <= base then 0 else normalized - base..i])
    {
      if records[i].sequence > normalized {
        events := events + [records[i]];
      }
    }
  }

  // ---- The bus ----------------------------------------------------------------

  class ThreadEventBus {
    const maxReplayEvents: nat
    const maxReplayBytes: nat
    var records: seq<Record>
    var subscribers: seq<string>
    var nextSequence: nat
    var retainedBytes: int
    // Everything ever published.
    ghost var history: seq<Record>

    ghost predicate Valid()
      reads this
    {
      && 1 <= maxReplayEvents
      && nextSequence == |history| + 1
      && Numbered(history)
      && LongestFitting(records, history, maxReplayEvents, maxReplayBytes)
      && retainedBytes == Bytes(records)
      && (history != [] ==> records != [])
      && (forall i, j :: 0 <= i < j < |subscribers| ==> subscribers[i] != subscribers[j])
    }

    constructor (maxReplayEvents: nat, maxReplayBytes: nat)
      requires 1 <= maxReplayEvents && 1 <= maxReplayBytes
      ensures Valid() && history == [] && subscribers == []
      ensures this.maxReplayEvents == maxReplayEvents && this.maxReplayBytes == maxReplayBytes
    {
      this.maxReplayEvents, this.maxReplayBytes := maxReplayEvents, maxReplayBytes;
      records, subscribers, nextSequence, retainedBytes := [], [], 1, 0;
      history := [];
    }

    // Records the event, evicts oldest-first until both bounds hold, and hands the record
    // to every subscriber in subscription order.
    method Publish(event: Event, turnId: Option<string>) returns (record: Record, delivered: seq<string>)
      requires Valid()
      modifies this
      ensures Valid()
      ensures record == Record(old(nextSequence), if turnId == Some("") then None else turnId, event)
      ensures history == old(history) + [record]
      ensures subscribers == old(subscribers) && delivered == subscribers
    {
      hide Bytes, ByteSize, Fits, NoLongerFits;
      record := Record(nextSequence, if turnId == Some("") then None else turnId, event);
      OnlyShorterSuffixesCanFit(records, history, record, maxReplayEvents, maxReplayBytes);
      BytesOfAppend(records, record);
      var size := EventByteSize(record);
      var kept, bytes := Evicted(records + [record], retainedBytes + size, history + [record],
                                 maxReplayEvents, maxReplayBytes);
      nextSequence, records, retainedBytes := nextSequence + 1, kept, bytes;
      history := history + [record];
      delivered := Notified();
    }

    // Who hears of a record, in order.
    method Notified() returns (delivered: seq<string>)
      ensures delivered == subscribers
    {
      delivered := [];
      for i := 0 to |subscribers|
        invariant delivered == subscribers[..i]
      {
        delivered := delivered + [subscribers[i]];
      }
    }

    // A known subscriber is replaced in place; a new one is served last.
    method Subscribe(subscriberId: string)
      requires Valid()
      modifies this`subscribers
      ensures Valid()
      ensures subscribers == (if subscriberId in old(subscribers) then old(subscribers)
                              else old(subscribers) + [subscriberId])
    {
      if subscriberId !in subscribers {
        subscribers := subscribers + [subscriberId];
      }
    }

    method Unsubscribe(subscriberId: string)
      requires Valid()
      modifies this`subscribers
      ensures Valid()
      ensures subscriberId !in subscribers
      ensures forall s :: s != subscriberId ==> (s in subscribers <==> s in old(subscribers))
    {
      var kept: seq<string> := [];
      for i := 0 to |subscribers|
        invariant forall s :: s in kept <==> s != subscriberId && s in subscribers[..i]
        invariant forall j, k :: 0 <= j < k < |kept| ==> kept[j] != kept[k]
      {
        assert subscribers[..i + 1] == subscribers[..i] + [subscribers[i]];
        assert subscribers[i] !in subscribers[..i];
        if subscribers[i] != subscriberId {
          kept := kept + [subscribers[i]];
        }
      }
      assert subscribers[..|subscribers|] == subscribers;
      subscribers := kept;
    }

    method ReplayAfter(after: int) returns (replay: Replay)
      requires Valid()
      ensures replay == ReplayOf(history, |records|, after)
    {
      var earliest := if records != [] then records[0].sequence else nextSequence;
      var latest := if records != [] then records[|records| - 1].sequence else nextSequence - 1;
      var normalized := Normalized(after);
      var events := After(records, normalized, |history| - |records|);
      replay := Replay(events, earliest, latest, 0 < normalized && normalized < earliest - 1);
    }
  }
}
