// The thread projection: runtime events in, transcript and notifications out
// (src/app-server/session-projection.ts).

module SessionProjection {
  import opened Wrappers
  import opened Events
  import opened OutputCap
  import opened Transcript

  // A notification as it leaves the projection, stamped with its record's turn and sequence.
  datatype Note = Note(turnId: Option<string>, sequence: nat, body: Body)

  datatype State = State(
    turns: map<string, Turn>,
    order: seq<string>,
    inputTokens: nat,
    outputTokens: nat,
    plan: Option<seq<Json>>,
    todo: Option<seq<Json>>,
    verification: Option<Json>)

  const EMPTY := State(map[], [], 0, 0, None, None, None)

  // One record handed to the projection, with the thread's metadata at that moment.
  datatype Delivery = Delivery(record: Record, metadata: Json)

  datatype Projected = Projected(state: State, notes: seq<Note>)

  function TurnOf(s: State, id: string): Turn {
    if id in s.turns then s.turns[id] else NEW_TURN
  }

  function Stamp(r: Record, bodies: seq<Body>): (notes: seq<Note>)
    ensures |notes| == |bodies|
    ensures forall i :: 0 <= i < |notes| ==> notes[i] == Note(r.turnId, r.sequence, bodies[i])
  {
    seq(|bodies|, i requires 0 <= i < |bodies| => Note(r.turnId, r.sequence, bodies[i]))
  }

  // The turn table keeps insertion order; writing a known turn leaves its place alone.
  function WithTurn(s: State, id: string, t: Turn): State {
    s.(turns := s.turns[id := t], order := if id in s.turns then s.order else s.order + [id])
  }

  function ProjectRecord(s: State, d: Delivery): Projected {
    var r := d.record;
    if TouchesTurn(r.event) then
      if r.turnId.None? then Projected(s, [])
      else
        var effect := StepTurn(TurnOf(s, r.turnId.value), r.event);
        Projected(WithTurn(s, r.turnId.value, effect.turn), Stamp(r, effect.notes))
    else
      match r.event
      case ThreadStarted => Projected(s, Stamp(r, [ThreadAnnounced(d.metadata)]))
      case ThreadStatusChanged(status) => Projected(s, Stamp(r, [StatusChanged(status)]))
      case ThreadClosed => Projected(s, Stamp(r, [Closed]))
      case TurnQueued => Projected(s, Stamp(r, [Queued]))
      case InterruptRequested => Projected(s, Stamp(r, [InterruptNoted]))
      case TokenUsage(input, output) =>
        var u := s.(inputTokens := s.inputTokens + input, outputTokens := s.outputTokens + output);
        Projected(u, Stamp(r, [UsageUpdated(u.inputTokens, u.outputTokens, input, output)]))
      case PlanUpdated(steps) => Projected(s.(plan := Some(steps)), Stamp(r, [PlanNoted(steps)]))
      case TodoUpdated(entries) => Projected(s.(todo := Some(entries)), Stamp(r, [TodoNoted(entries)]))
      case VerificationStarted(verdict) => Projected(s, Stamp(r, [VerificationNoted(verdict)]))
      case VerificationCompleted(verdict) =>
        Projected(s.(verification := Some(verdict)), Stamp(r, [VerificationNoted(verdict)]))
      case Forwarded(topic, payload) => Projected(s, Stamp(r, [Passed(topic, payload)]))
  }

  // The notifications that may be kept for a later replay of the same record.
  predicate ReplayStable(notes: seq<Note>) {
    forall n :: n in notes ==> !n.body.ThreadAnnounced?
  }

  // Only thread.started reads the metadata, only it is unstable, and it changes no state:
  // every other record projects to the same notifications whatever the metadata is.
  lemma OnlyThreadStartedIsUnstable(s: State, d: Delivery, other: Json)
    ensures ReplayStable(ProjectRecord(s, d).notes) <==> !d.record.event.ThreadStarted?
    ensures d.record.event.ThreadStarted? ==> ProjectRecord(s, d).state == s
    ensures !d.record.event.ThreadStarted? ==> ProjectRecord(s, d.(metadata := other)) == ProjectRecord(s, d)
    ensures ProjectRecord(s, d.(metadata := other)).state == ProjectRecord(s, d).state
  {
    var r := d.record;
    var notes := ProjectRecord(s, d).notes;
    if TouchesTurn(r.event) && r.turnId.Some? {
      var effect := StepTurn(TurnOf(s, r.turnId.value), r.event);
      TurnNotesAreStable(TurnOf(s, r.turnId.value), r.event);
      forall n | n in notes ensures !n.body.ThreadAnnounced? {
        var i :| 0 <= i < |notes| && notes[i] == n;
        assert n.body == effect.notes[i];
      }
    } else if r.event.ThreadStarted? {
      assert notes[0].body.ThreadAnnounced?;
    }
  }

  lemma {:induction false} AnnounceIsStable(items: seq<Item>)
    ensures forall b :: b in Announce(items) ==> b.ItemStarted? || b.ItemCompleted?
  {
    if items != [] {
      AnnounceIsStable(items[..|items| - 1]);
    }
  }

  lemma TurnNotesAreStable(t: Turn, e: Event)
    requires TouchesTurn(e)
    ensures forall b :: b in StepTurn(t, e).notes ==> !b.ThreadAnnounced?
  {
    AnnounceIsStable(t.items);
  }

  function RunServer(ds: seq<Delivery>): State {
    if ds == [] then EMPTY
    else ProjectRecord(RunServer(ds[..|ds| - 1]), ds[|ds| - 1]).state
  }

  // Every turn in the table keeps its keys unique and its places fixed, over whole runs.
  predicate Ordered(s: State) {
    && (forall i :: 0 <= i < |s.order| ==> s.order[i] in s.turns)
    && (forall id :: id in s.turns ==> id in s.order)
    && (forall i, j :: 0 <= i < j < |s.order| ==> s.order[i] != s.order[j])
  }

  lemma {:induction false} RunKeepsTurnOrder(ds: seq<Delivery>)
    ensures Ordered(RunServer(ds))
  {
    if ds != [] {
      var before := RunServer(ds[..|ds| - 1]);
      RunKeepsTurnOrder(ds[..|ds| - 1]);
      var r := ds[|ds| - 1].record;
      if TouchesTurn(r.event) && r.turnId.Some? && r.turnId.value !in before.turns {
        var after := RunServer(ds);
        assert after.order == before.order + [r.turnId.value];
      }
    }
  }

  predicate Touches(d: Delivery, id: string) {
    TouchesTurn(d.record.event) && d.record.turnId == Some(id)
  }

  // The table lists exactly the turns some record was about.
  lemma {:induction false} TouchedTurnsAreListed(ds: seq<Delivery>, id: string)
    ensures id in RunServer(ds).turns <==> exists i :: 0 <= i < |ds| && Touches(ds[i], id)
  {
    if ds != [] {
      var n := |ds| - 1;
      TouchedTurnsAreListed(ds[..n], id);
      assert forall i :: 0 <= i < n ==> ds[..n][i] == ds[i];
      assert id in RunServer(ds).turns <==> id in RunServer(ds[..n]).turns || Touches(ds[n], id);
    }
  }

  // A turn as clients are shown it.
  datatype AppTurn = AppTurn(id: string, status: TurnStatus, items: seq<Item>, error: Option<string>)

  function Snapshot(s: State): (snapshot: seq<AppTurn>)
    requires Ordered(s)
    ensures |snapshot| == |s.order| && forall i :: 0 <= i < |s.order| ==> snapshot[i].id == s.order[i]
  {
    seq(|s.order|, i requires 0 <= i < |s.order| =>
      var t := s.turns[s.order[i]];
      AppTurn(s.order[i], t.status, t.items, t.error))
  }

  // ---- History read back from disk --------------------------------------------

  function FirstUserText(items: seq<Item>): Option<string> {
    if items == [] then None
    else if items[0].UserMessage? then Some(items[0].text)
    else FirstUserText(items[1..])
  }

  // What makes two turns the same turn: the opening text, when there is any.
  function Fingerprint(items: seq<Item>): Option<string> {
    var text := FirstUserText(items);
    if text.Some? && text.value != "" then text else None
  }

  predicate Known(t: AppTurn, ids: set<string>, prints: set<string>) {
    t.id in ids || (Fingerprint(t.items).Some? && Fingerprint(t.items).value in prints)
  }

  function AddPrint(prints: set<string>, t: AppTurn): set<string> {
    if Fingerprint(t.items).Some? then prints + {Fingerprint(t.items).value} else prints
  }

  // The history turns that are taken over, in order: each new by id and by fingerprint.
  function Taken(history: seq<AppTurn>, ids: set<string>, prints: set<string>): seq<AppTurn>
    decreases history
  {
    if history == [] then []
    else if Known(history[0], ids, prints) then Taken(history[1..], ids, prints)
    else [history[0]] + Taken(history[1..], ids + {history[0].id}, AddPrint(prints, history[0]))
  }

  function Prints(s: State): set<string> {
    set id | id in s.turns && Fingerprint(s.turns[id].items).Some? :: Fingerprint(s.turns[id].items).value
  }

  function Settled(t: AppTurn): Turn {
    Turn(t.status, t.items, 0, false, false, t.error)
  }

  function Prepend(s: State, history: seq<AppTurn>): State
    decreases history
  {
    if history == [] then s
    else
      var last := history[|history| - 1];
      Prepend(s.(turns := s.turns[last.id := Settled(last)], order := [last.id] + s.order),
              history[..|history| - 1])
  }

  function Hydrated(s: State, history: seq<AppTurn>): State {
    Prepend(s, Taken(history, s.turns.Keys, Prints(s)))
  }

  predicate FreshIds(taken: seq<AppTurn>, ids: set<string>) {
    && (forall i :: 0 <= i < |taken| ==> taken[i].id !in ids)
    && (forall i, j :: 0 <= i < j < |taken| ==> taken[i].id != taken[j].id)
  }

  lemma {:induction false} TakenIsFresh(history: seq<AppTurn>, ids: set<string>, prints: set<string>)
    ensures FreshIds(Taken(history, ids, prints), ids)
    decreases history
  {
    if history != [] {
      if Known(history[0], ids, prints) {
        TakenIsFresh(history[1..], ids, prints);
      } else {
        TakenIsFresh(history[1..], ids + {history[0].id}, AddPrint(prints, history[0]));
      }
    }
  }

  function IdsOf(taken: seq<AppTurn>): seq<string> {
    if taken == [] then [] else IdsOf(taken[..|taken| - 1]) + [taken[|taken| - 1].id]
  }

  // Taking history over puts it in front, in its own order.
  lemma {:induction false} PrependPutsInFront(s: State, taken: seq<AppTurn>)
    ensures Prepend(s, taken).order == IdsOf(taken) + s.order
    decreases taken
  {
    if taken != [] {
      var n := |taken| - 1;
      var s' := s.(turns := s.turns[taken[n].id := Settled(taken[n])], order := [taken[n].id] + s.order);
      PrependPutsInFront(s', taken[..n]);
    }
  }

  // It leaves every turn that was already there alone.
  lemma {:induction false} PrependKeepsLiveTurns(s: State, taken: seq<AppTurn>)
    requires FreshIds(taken, s.turns.Keys)
    ensures var r := Prepend(s, taken);
            && (forall id :: id in s.turns ==> id in r.turns && r.turns[id] == s.turns[id])
            && (forall t :: t in taken ==> t.id in r.turns && r.turns[t.id] == Settled(t))
    decreases taken
  {
    if taken != [] {
      var n := |taken| - 1;
      var last := taken[n];
      var s' := s.(turns := s.turns[last.id := Settled(last)], order := [last.id] + s.order);
      PrependKeepsLiveTurns(s', taken[..n]);
      assert last.id in s'.turns && s'.turns[last.id] == Settled(last);
      assert forall t :: t in taken ==> t in taken[..n] || t == last;
    }
  }

  lemma HydrationKeepsLiveTurns(s: State, history: seq<AppTurn>)
    ensures var r := Hydrated(s, history);
            && |s.order| <= |r.order| && r.order[|r.order| - |s.order|..] == s.order
            && (forall id :: id in s.turns ==> id in r.turns && r.turns[id] == s.turns[id])
  {
    var taken := Taken(history, s.turns.Keys, Prints(s));
    TakenIsFresh(history, s.turns.Keys, Prints(s));
    PrependKeepsLiveTurns(s, taken);
    PrependPutsInFront(s, taken);
  }

  // Everything in the history is known once what was taken from it is.
  lemma {:induction false} TakenMakesKnown(history: seq<AppTurn>, ids: set<string>, prints: set<string>,
                                           ids': set<string>, prints': set<string>)
    requires ids <= ids' && prints <= prints'
    requires forall t :: t in Taken(history, ids, prints) ==> t.id in ids' && AddPrint({}, t) <= prints'
    ensures Taken(history, ids', prints') == []
    decreases history
  {
    if history != [] {
      if Known(history[0], ids, prints) {
        TakenMakesKnown(history[1..], ids, prints, ids', prints');
      } else {
        assert history[0] in Taken(history, ids, prints);
        TakenMakesKnown(history[1..], ids + {history[0].id}, AddPrint(prints, history[0]), ids', prints');
      }
    }
  }

  // Every read of a thread hydrates it again; the second time changes nothing.
  lemma HydrationIsIdempotent(s: State, history: seq<AppTurn>)
    ensures Hydrated(Hydrated(s, history), history) == Hydrated(s, history)
  {
    var ids, prints := s.turns.Keys, Prints(s);
    var taken := Taken(history, ids, prints);
    var r := Hydrated(s, history);
    TakenIsFresh(history, ids, prints);
    PrependKeepsLiveTurns(s, taken);
    forall t | t in taken ensures t.id in r.turns.Keys && AddPrint({}, t) <= Prints(r) {
      assert r.turns[t.id] == Settled(t);
    }
    forall p | p in prints ensures p in Prints(r) {
      var id :| id in s.turns && Fingerprint(s.turns[id].items) == Some(p);
      assert r.turns[id] == s.turns[id];
    }
    TakenMakesKnown(history, ids, prints, r.turns.Keys, Prints(r));
  }

  // ---- The projection object --------------------------------------------------

  class SessionProjection {
    var turns: map<string, Turn>
    var order: seq<string>
    var inputTokens: nat
    var outputTokens: nat
    var plan: Option<seq<Json>>
    var todo: Option<seq<Json>>
    var verification: Option<Json>

    function View(): State
      reads this
    {
      State(turns, order, inputTokens, outputTokens, plan, todo, verification)
    }

    constructor ()
      ensures View() == EMPTY
    {
      turns, order := map[], [];
      inputTokens, outputTokens := 0, 0;
      plan, todo, verification := None, None, None;
    }

    method EnsureTurn(id: string) returns (t: Turn)
      modifies this`turns, this`order
      ensures t == TurnOf(old(View()), id)
      ensures View() == WithTurn(old(View()), id, t)
    {
      if id !in turns {
        turns, order := turns[id := NEW_TURN], order + [id];
      }
      t := turns[id];
    }

    method AnnounceItems(items: seq<Item>) returns (bodies: seq<Body>)
      ensures bodies == Announce(items)
    {
      bodies := [];
      for i := 0 to |items|
        invariant bodies == Announce(items[..i])
      {
        assert items[..i + 1][..i] == items[..i];
        bodies := bodies + [ItemStarted(items[i]), ItemCompleted(items[i])];
      }
      assert items[..|items|] == items;
    }

    method Project(d: Delivery) returns (notes: seq<Note>)
      modifies this
      ensures Projected(View(), notes) == ProjectRecord(old(View()), d)
    {
      var r := d.record;
      if TouchesTurn(r.event) {
        if r.turnId.None? {
          return [];
        }
        var t := EnsureTurn(r.turnId.value);
        var effect: Effect;
        if r.event.TurnStarted? {
          var announced := AnnounceItems(t.items);
          effect := Effect(t.(status := Running), [TurnBegan] + announced);
        } else {
          effect := StepTurn(t, r.event);
        }
        turns := turns[r.turnId.value := effect.turn];
        return Stamp(r, effect.notes);
      }
      match r.event {
        case TokenUsage(input, output) =>
          inputTokens := inputTokens + input;
          outputTokens := outputTokens + output;
          notes := Stamp(r, [UsageUpdated(inputTokens, outputTokens, input, output)]);
        case PlanUpdated(steps) =>
          plan := Some(steps);
          notes := Stamp(r, [PlanNoted(steps)]);
        case TodoUpdated(entries) =>
          todo := Some(entries);
          notes := Stamp(r, [TodoNoted(entries)]);
        case VerificationCompleted(verdict) =>
          verification := Some(verdict);
          notes := Stamp(r, [VerificationNoted(verdict)]);
        case VerificationStarted(verdict) => notes := Stamp(r, [VerificationNoted(verdict)]);
        case ThreadStarted => notes := Stamp(r, [ThreadAnnounced(d.metadata)]);
        case ThreadStatusChanged(status) => notes := Stamp(r, [StatusChanged(status)]);
        case ThreadClosed => notes := Stamp(r, [Closed]);
        case TurnQueued => notes := Stamp(r, [Queued]);
        case InterruptRequested => notes := Stamp(r, [InterruptNoted]);
        case Forwarded(topic, payload) => notes := Stamp(r, [Passed(topic, payload)]);
      }
    }

    method Hydrate(history: seq<AppTurn>)
      modifies this
      ensures View() == Hydrated(old(View()), history)
    {
      var ids, prints := turns.Keys, Prints(View());
      var prepend: seq<AppTurn> := [];
      for i := 0 to |history|
        invariant prepend + Taken(history[i..], ids, prints)
                  == Taken(history, old(View()).turns.Keys, Prints(old(View())))
      {
        var t := history[i];
        assert history[i..][0] == t && history[i..][1..] == history[i + 1..];
        if !Known(t, ids, prints) {
          prepend := prepend + [t];
          ids, prints := ids + {t.id}, AddPrint(prints, t);
        }
      }
      assert history[|history|..] == [];
      assert prepend == Taken(history, old(View()).turns.Keys, Prints(old(View())));
      var n := |prepend|;
      assert prepend[..n] == prepend;
      while n > 0
        invariant 0 <= n <= |prepend|
        invariant Prepend(View(), prepend[..n]) == Prepend(old(View()), prepend)
      {
        n := n - 1;
        assert prepend[..n + 1][..n] == prepend[..n];
        turns, order := turns[prepend[n].id := Settled(prepend[n])], [prepend[n].id] + order;
      }
    }

    method SnapshotTurns() returns (snapshot: seq<AppTurn>)
      requires Ordered(View())
      ensures snapshot == Snapshot(View())
    {
      snapshot := seq(|order|, i requires 0 <= i < |order| && order[i] in turns reads this =>
        AppTurn(order[i], turns[order[i]].status, turns[order[i]].items, turns[order[i]].error));
    }
  }
}
