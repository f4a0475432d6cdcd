// What a thread's projection holds and tells after a run of records, and what reading its
// history takes over (src/app-server/session-projection.ts).

module SessionMeaning {
  import opened Wrappers
  import opened Events
  import opened Transcript
  import opened TranscriptOrder
  import opened SessionProjection
  import M = TranscriptMeaning

  // ---- Turns ------------------------------------------------------------------

  // The events of one turn, in order.
  function EventsOf(ds: seq<Delivery>, id: string): (events: seq<Event>)
    ensures forall e :: e in events ==> TouchesTurn(e)
  {
    if ds == [] then []
    else EventsOf(ds[..|ds| - 1], id) + if Touches(ds[|ds| - 1], id) then [ds[|ds| - 1].record.event] else []
  }

  lemma TurnMoves(s: State, d: Delivery, id: string)
    ensures var turns := ProjectRecord(s, d).state.turns;
            if Touches(d, id) then id in turns && turns[id] == StepTurn(TurnOf(s, id), d.record.event).turn
            else (id in turns <==> id in s.turns) && (id in turns ==> turns[id] == s.turns[id])
  {
    hide StepTurn;
  }

  // A turn is what its own events make of an empty one: no other record has a part in it.
  lemma {:induction false} TurnIsItsEvents(ds: seq<Delivery>, id: string)
    ensures id in RunServer(ds).turns <==> EventsOf(ds, id) != []
    ensures id in RunServer(ds).turns ==>
              RunServer(ds).turns[id] == RunTurn(Turn(Running, [], 0, false, false, None), EventsOf(ds, id))
  {
    if ds != [] {
      var n := |ds| - 1;
      var before, e := EventsOf(ds[..n], id), ds[n].record.event;
      TurnIsItsEvents(ds[..n], id);
      TurnMoves(RunServer(ds[..n]), ds[n], id);
      hide StepTurn, ProjectRecord;
      if Touches(ds[n], id) {
        M.RunInParts(NEW_TURN, before, [e]);
        OneEvent(RunTurn(NEW_TURN, before), e);
        assert before == [] ==> TurnOf(RunServer(ds[..n]), id) == NEW_TURN == RunTurn(NEW_TURN, before);
      } else {
        assert before + [] == before;
      }
    }
  }

  lemma OneEvent(t: Turn, e: Event)
    requires TouchesTurn(e)
    ensures RunTurn(t, [e]) == StepTurn(t, e).turn
  {
    assert [e][1..] == [];
  }

  // ---- The thread -------------------------------------------------------------

  // What each record tells, and under which turn and number.
  lemma RecordIsTold(s: State, d: Delivery)
    ensures var r := d.record;
            var notes := ProjectRecord(s, d).notes;
            && (forall n :: n in notes ==> n.turnId == r.turnId && n.sequence == r.sequence)
            && match r.event
               case ThreadStarted => Only(notes, ThreadAnnounced(d.metadata))
               case ThreadStatusChanged(status) => Only(notes, StatusChanged(status))
               case ThreadClosed => Only(notes, Closed)
               case TurnQueued => Only(notes, Queued)
               case InterruptRequested => Only(notes, InterruptNoted)
               case TokenUsage(input, output) =>
                 Only(notes, UsageUpdated(s.inputTokens + input, s.outputTokens + output, input, output))
               case PlanUpdated(steps) => Only(notes, PlanNoted(steps))
               case TodoUpdated(entries) => Only(notes, TodoNoted(entries))
               case VerificationStarted(verdict) => Only(notes, VerificationNoted(verdict))
               case VerificationCompleted(verdict) => Only(notes, VerificationNoted(verdict))
               case Forwarded(topic, payload) => Only(notes, Passed(topic, payload))
               case _ =>
                 && |notes| == |TurnNotes(s, r)|
                 && forall i :: 0 <= i < |notes| ==> notes[i].body == TurnNotes(s, r)[i]
  {
    var notes := ProjectRecord(s, d).notes;
    forall n | n in notes
      ensures n.turnId == d.record.turnId && n.sequence == d.record.sequence
    {
      var i :| 0 <= i < |notes| && notes[i] == n;
    }
  }

  predicate Only(notes: seq<Note>, body: Body) {
    |notes| == 1 && notes[0].body == body
  }

  // What a turn's step tells; a record that names no turn tells nothing.
  function TurnNotes(s: State, r: Record): seq<Body>
    requires TouchesTurn(r.event)
  {
    match r.turnId
    case None => []
    case Some(id) =>
      StepTurn(if id in s.turns then s.turns[id] else Turn(Running, [], 0, false, false, None), r.event).notes
  }

  function InputTokens(ds: seq<Delivery>): nat {
    if ds == [] then 0
    else (if ds[0].record.event.TokenUsage? then ds[0].record.event.inputTokens else 0) + InputTokens(ds[1..])
  }

  function OutputTokens(ds: seq<Delivery>): nat {
    if ds == [] then 0
    else (if ds[0].record.event.TokenUsage? then ds[0].record.event.outputTokens else 0) + OutputTokens(ds[1..])
  }

  lemma {:induction false} TokensInParts(ds: seq<Delivery>, more: seq<Delivery>)
    ensures InputTokens(ds + more) == InputTokens(ds) + InputTokens(more)
    ensures OutputTokens(ds + more) == OutputTokens(ds) + OutputTokens(more)
    decreases ds
  {
    if ds == [] {
      assert ds + more == more;
    } else {
      assert (ds + more)[0] == ds[0] && (ds + more)[1..] == ds[1..] + more;
      TokensInParts(ds[1..], more);
    }
  }

  // The running totals are the sums of what the records report.
  lemma {:induction false} UsageAddsUp(ds: seq<Delivery>)
    ensures RunServer(ds).inputTokens == InputTokens(ds)
    ensures RunServer(ds).outputTokens == OutputTokens(ds)
  {
    if ds != [] {
      var n := |ds| - 1;
      UsageAddsUp(ds[..n]);
      TokensInParts(ds[..n], [ds[n]]);
      assert ds == ds[..n] + [ds[n]];
      assert [ds[n]][1..] == [];
    }
  }

  datatype Report = PlanReport | TodoReport | VerdictReport

  predicate Reports(d: Delivery, report: Report) {
    match report
    case PlanReport => d.record.event.PlanUpdated?
    case TodoReport => d.record.event.TodoUpdated?
    case VerdictReport => d.record.event.VerificationCompleted?
  }

  // The last report of its kind: none comes after it.
  predicate Latest(ds: seq<Delivery>, i: int, report: Report) {
    0 <= i < |ds| && Reports(ds[i], report) && forall j :: i < j < |ds| ==> !Reports(ds[j], report)
  }

  lemma LatestNow(ds: seq<Delivery>, i: int, report: Report)
    requires ds != []
    ensures var n := |ds| - 1;
            Latest(ds, i, report) <==> if Reports(ds[n], report) then i == n else Latest(ds[..n], i, report)
  {
    assert forall j :: 0 <= j < |ds| - 1 ==> ds[..|ds| - 1][j] == ds[j];
    if Latest(ds[..|ds| - 1], i, report) && !Reports(ds[|ds| - 1], report) {
      forall j | i < j < |ds|
        ensures !Reports(ds[j], report)
      {
        assert j == |ds| - 1 || ds[..|ds| - 1][j] == ds[j];
      }
    }
  }

  // Plan, to-do list and verdict are those of the latest report of their kind. A verification
  // that has only started leaves the verdict as it was.
  predicate HeldIs(s: State, d: Delivery, report: Report)
    requires Reports(d, report)
  {
    match report
    case PlanReport => s.plan == Some(d.record.event.steps)
    case TodoReport => s.todo == Some(d.record.event.entries)
    case VerdictReport => s.verification == Some(d.record.event.verdict)
  }

  predicate NoneHeld(s: State, report: Report) {
    match report
    case PlanReport => s.plan.None?
    case TodoReport => s.todo.None?
    case VerdictReport => s.verification.None?
  }

  lemma {:induction false} LatestIsHeld(ds: seq<Delivery>, report: Report)
    ensures forall i :: Latest(ds, i, report) ==> HeldIs(RunServer(ds), ds[i], report)
    ensures (forall d :: d in ds ==> !Reports(d, report)) ==> NoneHeld(RunServer(ds), report)
  {
    if ds != [] {
      var n := |ds| - 1;
      LatestIsHeld(ds[..n], report);
      ReportMoves(RunServer(ds[..n]), ds[n], report);
      hide ProjectRecord;
      forall i | Latest(ds, i, report)
        ensures HeldIs(RunServer(ds), ds[i], report)
      {
        LatestNow(ds, i, report);
      }
    }
  }

  lemma ReportMoves(s: State, d: Delivery, report: Report)
    ensures Reports(d, report) ==> HeldIs(ProjectRecord(s, d).state, d, report)
    ensures !Reports(d, report) ==>
              match report
              case PlanReport => ProjectRecord(s, d).state.plan == s.plan
              case TodoReport => ProjectRecord(s, d).state.todo == s.todo
              case VerdictReport => ProjectRecord(s, d).state.verification == s.verification
  {
    hide StepTurn;
  }

  // ---- What history adds ------------------------------------------------------

  // The text a turn opens with, if it has one.
  ghost predicate OpensWith(items: seq<Item>, text: string) {
    text != "" && exists i :: 0 <= i < |items| && items[i].UserMessage? && items[i].text == text
                              && forall j :: 0 <= j < i ==> !items[j].UserMessage?
  }

  lemma {:induction false} FirstUserTextIsFirst(items: seq<Item>, text: string)
    ensures FirstUserText(items) == Some(text) <==>
              exists i :: 0 <= i < |items| && items[i].UserMessage? && items[i].text == text
                          && forall j :: 0 <= j < i ==> !items[j].UserMessage?
  {
    if items != [] && !items[0].UserMessage? {
      FirstUserTextIsFirst(items[1..], text);
      if FirstUserText(items) == Some(text) {
        var i :| 0 <= i < |items| - 1 && items[1..][i].UserMessage? && items[1..][i].text == text
              && forall j :: 0 <= j < i ==> !items[1..][j].UserMessage?;
        assert items[i + 1].UserMessage?;
        assert forall j :: 0 < j < i + 1 ==> items[j] == items[1..][j - 1];
      }
      if i :| 0 <= i < |items| && items[i].UserMessage? && items[i].text == text
              && forall j :: 0 <= j < i ==> !items[j].UserMessage? {
        assert items[1..][i - 1] == items[i];
        assert forall j :: 0 <= j < i - 1 ==> items[1..][j] == items[j + 1];
      }
    }
  }

  lemma FingerprintIsTheOpening(items: seq<Item>, text: string)
    ensures Fingerprint(items) == Some(text) <==> OpensWith(items, text)
  {
    FirstUserTextIsFirst(items, text);
  }

  // The turns are one and the same: by id, or by the text they open with.
  ghost predicate SameTurn(id: string, items: seq<Item>, t: AppTurn) {
    id == t.id || exists text :: OpensWith(items, text) && OpensWith(t.items, text)
  }

  lemma KnownMeansSame(t: AppTurn, ids: set<string>, prints: set<string>)
    ensures Known(t, ids, prints) <==> t.id in ids || exists text :: OpensWith(t.items, text) && text in prints
  {
    if Known(t, ids, prints) && t.id !in ids {
      FingerprintIsTheOpening(t.items, Fingerprint(t.items).value);
    }
    if text :| OpensWith(t.items, text) && text in prints {
      FingerprintIsTheOpening(t.items, text);
    }
  }

  // Places in a list's tail, counted in the list.
  function Shifted(picks: seq<nat>): (r: seq<nat>)
    ensures |r| == |picks| && forall k :: 0 <= k < |picks| ==> r[k] == picks[k] + 1
  {
    seq(|picks|, k requires 0 <= k < |picks| => picks[k] + 1)
  }

  predicate Increasing(picks: seq<nat>, bound: nat) {
    && (forall k :: 0 <= k < |picks| ==> picks[k] < bound)
    && (forall k, l :: 0 <= k < l < |picks| ==> picks[k] < picks[l])
  }

  ghost predicate SameAsPicked(history: seq<AppTurn>, picks: seq<nat>, i: nat)
    requires i < |history|
  {
    exists j: nat :: j in picks && j < i && SameTurn(history[j].id, history[j].items, history[i])
  }

  ghost predicate PicksUnknown(history: seq<AppTurn>, ids: set<string>, prints: set<string>, picks: seq<nat>) {
    && Increasing(picks, |history|)
    && forall i: nat :: i < |history| ==>
         (i in picks <==> !Known(history[i], ids, prints) && !SameAsPicked(history, picks, i))
  }

  lemma KnownOnceTaken(t: AppTurn, ids: set<string>, prints: set<string>, taken: AppTurn)
    ensures Known(t, ids + {taken.id}, AddPrint(prints, taken))
       <==> Known(t, ids, prints) || SameTurn(taken.id, taken.items, t)
  {
    if Fingerprint(t.items).Some? {
      FingerprintIsTheOpening(t.items, Fingerprint(t.items).value);
      FingerprintIsTheOpening(taken.items, Fingerprint(t.items).value);
    }
    if text :| OpensWith(taken.items, text) && OpensWith(t.items, text) {
      FingerprintIsTheOpening(t.items, text);
      FingerprintIsTheOpening(taken.items, text);
    }
  }

  lemma InShifted(picks: seq<nat>, i: nat)
    ensures i in Shifted(picks) <==> i > 0 && i - 1 in picks
  {
    if i > 0 && i - 1 in picks {
      var k :| 0 <= k < |picks| && picks[k] == i - 1;
      assert Shifted(picks)[k] == i;
    }
  }

  lemma {:induction false} TakenIsPicked(history: seq<AppTurn>, ids: set<string>, prints: set<string>)
    returns (picks: seq<nat>)
    ensures PicksUnknown(history, ids, prints, picks)
    ensures |Taken(history, ids, prints)| == |picks|
    ensures forall k :: 0 <= k < |picks| ==> Taken(history, ids, prints)[k] == history[picks[k]]
    decreases history
  {
    if history == [] {
      picks := [];
    } else if Known(history[0], ids, prints) {
      var later := TakenIsPicked(history[1..], ids, prints);
      picks := Shifted(later);
      PickedLater(history, ids, prints, later);
    } else {
      var later := TakenIsPicked(history[1..], ids + {history[0].id}, AddPrint(prints, history[0]));
      picks := [0] + Shifted(later);
      PickedFirst(history, ids, prints, later);
      hide PicksUnknown, Known, AddPrint;
      FirstPicked(history, Taken(history[1..], ids + {history[0].id}, AddPrint(prints, history[0])), later);
    }
  }

  lemma FirstPicked(history: seq<AppTurn>, rest: seq<AppTurn>, later: seq<nat>)
    requires history != [] && |rest| == |later|
    requires forall k :: 0 <= k < |later| ==> later[k] < |history| - 1 && rest[k] == history[1..][later[k]]
    ensures var taken, picks := [history[0]] + rest, [0] + Shifted(later);
            |taken| == |picks| && forall k :: 0 <= k < |picks| ==> taken[k] == history[picks[k]]
  {
  }

  lemma PickedLater(history: seq<AppTurn>, ids: set<string>, prints: set<string>, later: seq<nat>)
    requires history != [] && Known(history[0], ids, prints)
    requires PicksUnknown(history[1..], ids, prints, later)
    ensures PicksUnknown(history, ids, prints, Shifted(later))
  {
    var picks := Shifted(later);
    hide Known, SameTurn;
    forall i: nat | i < |history|
      ensures i in picks <==> !Known(history[i], ids, prints) && !SameAsPicked(history, picks, i)
    {
      InShifted(later, i);
      if i > 0 {
        SameAsPickedLater(history, later, picks, i);
      }
    }
  }

  lemma SameAsPickedLater(history: seq<AppTurn>, later: seq<nat>, picks: seq<nat>, i: nat)
    requires 0 < i < |history| && (picks == Shifted(later) || picks == [0] + Shifted(later))
    ensures SameAsPicked(history, picks, i) <==>
              || SameAsPicked(history[1..], later, i - 1)
              || (0 in picks && SameTurn(history[0].id, history[0].items, history[i]))
  {
    hide SameTurn;
    InShifted(later, 0);
    if j: nat :| j in picks && j < i && SameTurn(history[j].id, history[j].items, history[i]) {
      InShifted(later, j);
      assert j > 0 ==> history[1..][j - 1] == history[j];
    }
    if j: nat :| j in later && j < i - 1 && SameTurn(history[1..][j].id, history[1..][j].items, history[1..][i - 1]) {
      InShifted(later, j + 1);
      assert history[j + 1] == history[1..][j];
    }
  }

  lemma PickedFirst(history: seq<AppTurn>, ids: set<string>, prints: set<string>, later: seq<nat>)
    requires history != [] && !Known(history[0], ids, prints)
    requires PicksUnknown(history[1..], ids + {history[0].id}, AddPrint(prints, history[0]), later)
    ensures PicksUnknown(history, ids, prints, [0] + Shifted(later))
  {
    var picks := [0] + Shifted(later);
    hide Known, SameTurn;
    assert picks[0] == 0;
    forall i: nat | i < |history|
      ensures i in picks <==> !Known(history[i], ids, prints) && !SameAsPicked(history, picks, i)
    {
      InShifted(later, i);
      if i > 0 {
        SameAsPickedLater(history, later, picks, i);
        KnownOnceTaken(history[i], ids, prints, history[0]);
      }
    }
  }

  // picks are the places of the history turns that are taken over, in order: those that are
  // none of the live turns and none of those picked before them.
  ghost predicate Picks(s: State, history: seq<AppTurn>, picks: seq<nat>) {
    && Increasing(picks, |history|)
    && forall i: nat :: i < |history| ==>
         (i in picks <==> (forall id :: id in s.turns ==> !SameTurn(id, s.turns[id].items, history[i]))
                          && !SameAsPicked(history, picks, i))
  }

  lemma KnownMeansLive(s: State, t: AppTurn)
    ensures Known(t, s.turns.Keys, Prints(s)) <==> exists id :: id in s.turns && SameTurn(id, s.turns[id].items, t)
  {
    KnownMeansSame(t, s.turns.Keys, Prints(s));
    forall id, text | id in s.turns
      ensures Fingerprint(s.turns[id].items) == Some(text) <==> OpensWith(s.turns[id].items, text)
    {
      FingerprintIsTheOpening(s.turns[id].items, text);
    }
    if text :| OpensWith(t.items, text) && text in Prints(s) {
      var id :| id in s.turns && Fingerprint(s.turns[id].items) == Some(text);
      assert SameTurn(id, s.turns[id].items, t);
    }
    if id :| id in s.turns && SameTurn(id, s.turns[id].items, t) {
      if id != t.id {
        var text :| OpensWith(s.turns[id].items, text) && OpensWith(t.items, text);
        assert Fingerprint(s.turns[id].items) == Some(text);
      }
    }
  }

  lemma HistoryIsPicked(s: State, history: seq<AppTurn>) returns (picks: seq<nat>)
    ensures Picks(s, history, picks)
    ensures var taken := Taken(history, s.turns.Keys, Prints(s));
            |taken| == |picks| && forall k :: 0 <= k < |picks| ==> taken[k] == history[picks[k]]
  {
    picks := TakenIsPicked(history, s.turns.Keys, Prints(s));
    forall i: nat | i < |history|
      ensures Known(history[i], s.turns.Keys, Prints(s))
         <==> exists id :: id in s.turns && SameTurn(id, s.turns[id].items, history[i])
    {
      KnownMeansLive(s, history[i]);
    }
  }

  predicate StandsFirst(s: State, taken: seq<AppTurn>, r: State) {
    && |r.order| == |taken| + |s.order| && r.order[|taken|..] == s.order
    && (forall k :: 0 <= k < |taken| ==>
          && r.order[k] == taken[k].id && taken[k].id in r.turns
          && r.turns[taken[k].id] == Turn(taken[k].status, taken[k].items, 0, false, false, taken[k].error))
    && (forall id :: id in s.turns ==> id in r.turns && r.turns[id] == s.turns[id])
    && (forall id :: id in r.turns ==> id in s.turns || exists k :: 0 <= k < |taken| && taken[k].id == id)
    && r == s.(turns := r.turns, order := r.order)
  }

  lemma TakenStandsFirst(s: State, taken: seq<AppTurn>)
    requires FreshIds(taken, s.turns.Keys)
    ensures StandsFirst(s, taken, Prepend(s, taken))
  {
    PrependKeepsLiveTurns(s, taken);
    PrependPutsInFront(s, taken);
    IdsInOrder(taken);
    PrependAddsNoOther(s, taken);
    hide FreshIds, Prepend;
    assert forall k :: 0 <= k < |taken| ==> taken[k] in taken;
  }

  // Reading the history takes over exactly the turns that are not there yet: they stand before
  // the live ones in their own order, as the history has them, and the live ones are untouched.
  lemma HistoryIsTakenOver(s: State, history: seq<AppTurn>) returns (picks: seq<nat>, taken: seq<AppTurn>)
    ensures Picks(s, history, picks)
    ensures |taken| == |picks| && forall k :: 0 <= k < |picks| ==> taken[k] == history[picks[k]]
    ensures StandsFirst(s, taken, Hydrated(s, history))
  {
    hide Picks, StandsFirst;
    taken := Taken(history, s.turns.Keys, Prints(s));
    picks := HistoryIsPicked(s, history);
    TakenIsFresh(history, s.turns.Keys, Prints(s));
    TakenStandsFirst(s, taken);
  }

  lemma {:induction false} IdsInOrder(taken: seq<AppTurn>)
    ensures |IdsOf(taken)| == |taken| && forall k :: 0 <= k < |taken| ==> IdsOf(taken)[k] == taken[k].id
  {
    if taken != [] {
      IdsInOrder(taken[..|taken| - 1]);
    }
  }

  lemma {:induction false} PrependAddsNoOther(s: State, taken: seq<AppTurn>)
    ensures var r := Prepend(s, taken);
            && r == s.(turns := r.turns, order := r.order)
            && forall id :: id in r.turns ==> id in s.turns || exists k :: 0 <= k < |taken| && taken[k].id == id
    decreases taken
  {
    if taken != [] {
      var n := |taken| - 1;
      var s' := s.(turns := s.turns[taken[n].id := Settled(taken[n])], order := [taken[n].id] + s.order);
      PrependAddsNoOther(s', taken[..n]);
      var r := Prepend(s, taken);
      forall id | id in r.turns && id !in s.turns
        ensures exists k :: 0 <= k < |taken| && taken[k].id == id
      {
        if id in s'.turns {
          assert taken[n].id == id;
        } else {
          var k :| 0 <= k < n && taken[..n][k].id == id;
          assert taken[k].id == id;
        }
      }
    }
  }
}
