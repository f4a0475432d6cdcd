// The thread's history, read back from disk and put in front of the live turns before every
// snapshot and subscription (src/app-server/message-processor.ts:834-843, 863).

module Hydration {
  import opened Wrappers
  import opened Events
  import opened Transcript
  import opened SessionProjection
  import opened ClientParity
  import M = SessionMeaning

  // What happens to a projection: history is put in front, or a record is folded.
  datatype Move = Hydrate(history: seq<AppTurn>) | Fold(d: Delivery)

  function After(moves: seq<Move>): State {
    if moves == [] then EMPTY
    else
      match moves[|moves| - 1]
      case Hydrate(history) => Hydrated(After(moves[..|moves| - 1]), history)
      case Fold(d) => ProjectRecord(After(moves[..|moves| - 1]), d).state
  }

  // The records among them.
  function Folds(moves: seq<Move>): seq<Delivery> {
    if moves == [] then []
    else
      Folds(moves[..|moves| - 1])
      + match moves[|moves| - 1] case Hydrate(_) => [] case Fold(d) => [d]
  }

  predicate Lists(history: seq<AppTurn>, id: string) {
    exists i :: 0 <= i < |history| && history[i].id == id
  }

  predicate Past(moves: seq<Move>, id: string) {
    exists i :: 0 <= i < |moves| && moves[i].Hydrate? && Lists(moves[i].history, id)
  }

  // No record is about a turn of a history read before: those are named apart.
  ghost predicate Apart(moves: seq<Move>) {
    forall j, id | 0 <= j < |moves| && moves[j].Fold? && Touches(moves[j].d, id) :: !Past(moves[..j], id)
  }

  // h is s with other turns in front.
  predicate Over(h: State, s: State) {
    && EndsWith(h.order, s.order)
    && (forall id :: id in s.turns ==> id in h.turns && h.turns[id] == s.turns[id])
    && h.(turns := map[], order := []) == s.(turns := map[], order := [])
  }

  lemma {:induction false} TakenIsListed(history: seq<AppTurn>, ids: set<string>, prints: set<string>)
    ensures forall t :: t in Taken(history, ids, prints) ==> t in history
    decreases history
  {
    if history != [] {
      if Known(history[0], ids, prints) {
        TakenIsListed(history[1..], ids, prints);
      } else {
        TakenIsListed(history[1..], ids + {history[0].id}, AddPrint(prints, history[0]));
      }
    }
  }

  lemma {:induction false} PrependAddsOnlyThose(s: State, taken: seq<AppTurn>, id: string)
    requires id in Prepend(s, taken).turns && id !in s.turns
    ensures Lists(taken, id)
    decreases taken
  {
    var n := |taken| - 1;
    var last := taken[n];
    var next := s.(turns := s.turns[last.id := Settled(last)], order := [last.id] + s.order);
    if last.id != id {
      PrependAddsOnlyThose(next, taken[..n], id);
      var i :| 0 <= i < n && taken[..n][i].id == id;
      assert taken[i].id == id;
    } else {
      assert taken[n].id == id;
    }
  }

  lemma {:induction false} PrependKeepsTheRest(s: State, taken: seq<AppTurn>)
    ensures Prepend(s, taken).(turns := map[], order := []) == s.(turns := map[], order := [])
    decreases taken
  {
    if taken != [] {
      var last := taken[|taken| - 1];
      PrependKeepsTheRest(s.(turns := s.turns[last.id := Settled(last)], order := [last.id] + s.order),
                          taken[..|taken| - 1]);
    }
  }

  lemma HydratedIsOver(h: State, s: State, history: seq<AppTurn>)
    requires Over(h, s)
    ensures Over(Hydrated(h, history), s)
    ensures forall id :: id in Hydrated(h, history).turns ==> id in h.turns || Lists(history, id)
  {
    var taken := Taken(history, h.turns.Keys, Prints(h));
    HydrationKeepsLiveTurns(h, history);
    PrependKeepsTheRest(h, taken);
    TakenIsListed(history, h.turns.Keys, Prints(h));
    forall id | id in Hydrated(h, history).turns && id !in h.turns
      ensures Lists(history, id)
    {
      PrependAddsOnlyThose(h, taken, id);
      var i :| 0 <= i < |taken| && taken[i].id == id;
      assert taken[i] in history;
    }
  }

  lemma WrittenOver(h: State, s: State, id: string, t: Turn)
    requires Over(h, s) && (id in h.turns ==> id in s.turns)
    ensures Over(WithTurn(h, id, t), WithTurn(s, id, t))
  {
    assert id in h.turns <==> id in s.turns;
    EndsAlike(h.order, s.order, id);
  }

  predicate EndsWith(h: seq<string>, s: seq<string>) {
    |s| <= |h| && h[|h| - |s|..] == s
  }

  lemma EndsAlike(h: seq<string>, s: seq<string>, id: string)
    requires EndsWith(h, s)
    ensures EndsWith(h + [id], s + [id])
  {
    var m := |h| - |s|;
    assert (h + [id])[m..] == h[m..] + [id];
  }

  // Turns in front do not change what a record about another turn does, or is answered with.
  lemma FoldsAlike(h: State, s: State, d: Delivery)
    requires Over(h, s)
    requires forall id :: Touches(d, id) && id in h.turns ==> id in s.turns
    ensures Over(ProjectRecord(h, d).state, ProjectRecord(s, d).state)
    ensures ProjectRecord(h, d).notes == ProjectRecord(s, d).notes
  {
    hide StepTurn, WithTurn;
    var r := d.record;
    if TouchesTurn(r.event) && r.turnId.Some? {
      var id := r.turnId.value;
      assert Touches(d, id);
      assert TurnOf(h, id) == TurnOf(s, id);
      WrittenOver(h, s, id, StepTurn(TurnOf(s, id), r.event).turn);
    }
  }

  lemma FoldedTurns(s: State, d: Delivery)
    ensures forall id :: id in ProjectRecord(s, d).state.turns <==> id in s.turns || Touches(d, id)
  {
    hide StepTurn;
  }

  lemma PastGoesOn(moves: seq<Move>, n: nat, id: string)
    requires n <= |moves| && Past(moves[..n], id)
    ensures Past(moves, id)
  {
    var i :| 0 <= i < n && moves[..n][i].Hydrate? && Lists(moves[..n][i].history, id);
    assert moves[i] == moves[..n][i];
  }

  // However often and whenever history is read: the live turns are what the records alone
  // make them, last and in their order, and the turns before them are history.
  lemma {:induction false} LiveTurnsAreUntouched(moves: seq<Move>)
    requires Apart(moves)
    ensures Over(After(moves), RunServer(Folds(moves)))
    ensures forall id :: id in After(moves).turns ==> id in RunServer(Folds(moves)).turns || Past(moves, id)
  {
    if moves != [] {
      var n := |moves| - 1;
      var before := moves[..n];
      FrontIsApart(moves);
      LiveTurnsAreUntouched(before);
      var h, s := After(before), RunServer(Folds(before));
      match moves[n] {
        case Hydrate(history) =>
          assert Folds(moves) == Folds(before);
          HydratedIsOver(h, s, history);
        case Fold(d) =>
          FoldedLast(moves, d);
          FoldsAlike(h, s, d);
          FoldedTurns(h, d);
          FoldedTurns(s, d);
      }
      forall id | id in After(moves).turns && id !in RunServer(Folds(moves)).turns
        ensures Past(moves, id)
      {
        if Past(before, id) {
          PastGoesOn(moves, n, id);
        } else {
          assert moves[n].Hydrate? && Lists(moves[n].history, id);
        }
      }
    }
  }

  lemma FrontIsApart(moves: seq<Move>)
    requires moves != [] && Apart(moves)
    ensures Apart(moves[..|moves| - 1])
  {
    var before := moves[..|moves| - 1];
    forall j, id | 0 <= j < |before| && before[j].Fold? && Touches(before[j].d, id)
      ensures !Past(before[..j], id)
    {
      assert before[..j] == moves[..j] && before[j] == moves[j];
    }
  }

  lemma FoldedLast(moves: seq<Move>, d: Delivery)
    requires moves != [] && moves[|moves| - 1] == Fold(d) && Apart(moves)
    ensures RunServer(Folds(moves)) == ProjectRecord(RunServer(Folds(moves[..|moves| - 1])), d).state
    ensures forall id :: Touches(d, id) ==> !Past(moves[..|moves| - 1], id)
  {
    var before := Folds(moves[..|moves| - 1]);
    assert Folds(moves) == before + [d] && (before + [d])[..|before|] == before;
  }

  // So clients, who are told only of records, are told the same.
  lemma ReadingHistoryTellsNothing(moves: seq<Move>, d: Delivery)
    requires Apart(moves + [Fold(d)])
    ensures ProjectRecord(After(moves), d).notes == ProjectRecord(RunServer(Folds(moves)), d).notes
  {
    var all := moves + [Fold(d)];
    assert all[..|all| - 1] == moves;
    FrontIsApart(all);
    FoldedLast(all, d);
    LiveTurnsAreUntouched(moves);
    FoldsAlike(After(moves), RunServer(Folds(moves)), d);
  }

  lemma {:induction false} MovesKeepTurnOrder(moves: seq<Move>)
    ensures Ordered(After(moves))
  {
    if moves != [] {
      var h := After(moves[..|moves| - 1]);
      MovesKeepTurnOrder(moves[..|moves| - 1]);
      match moves[|moves| - 1] {
        case Hydrate(history) => HydratedKeepsTurnOrder(h, history);
        case Fold(d) => FoldKeepsTurnOrder(h, d);
      }
    }
  }

  lemma FoldKeepsTurnOrder(h: State, d: Delivery)
    requires Ordered(h)
    ensures Ordered(ProjectRecord(h, d).state)
  {
    hide StepTurn;
  }

  lemma HydratedKeepsTurnOrder(h: State, history: seq<AppTurn>)
    requires Ordered(h)
    ensures Ordered(Hydrated(h, history))
  {
    TakenIsFresh(history, h.turns.Keys, Prints(h));
    PrependKeepsTurnOrder(h, Taken(history, h.turns.Keys, Prints(h)));
  }

  function InFront(h: State, last: AppTurn): State {
    h.(turns := h.turns[last.id := Settled(last)], order := [last.id] + h.order)
  }

  lemma InFrontKeepsTurnOrder(h: State, last: AppTurn)
    requires Ordered(h) && last.id !in h.turns
    ensures Ordered(InFront(h, last))
  {
    var next := InFront(h, last);
    forall id | id in next.turns
      ensures id in next.order
    {
      if id == last.id {
        assert next.order[0] == id;
      } else {
        var i :| 0 <= i < |h.order| && h.order[i] == id;
        assert next.order[i + 1] == id;
      }
    }
    forall i, j | 0 <= i < j < |next.order|
      ensures next.order[i] != next.order[j]
    {
      assert next.order[j] == h.order[j - 1];
    }
  }

  lemma {:induction false} PrependKeepsTurnOrder(h: State, taken: seq<AppTurn>)
    requires Ordered(h) && FreshIds(taken, h.turns.Keys)
    ensures Ordered(Prepend(h, taken))
    decreases taken
  {
    hide Ordered;
    if taken != [] {
      var n := |taken| - 1;
      InFrontKeepsTurnOrder(h, taken[n]);
      assert InFront(h, taken[n]).turns.Keys == h.turns.Keys + {taken[n].id};
      PrependKeepsTurnOrder(InFront(h, taken[n]), taken[..n]);
    }
  }

  // A snapshot shows history first, turns no record was about, and then what it would show
  // without any: what clients hold.
  lemma SnapshotIsHistoryThenLive(moves: seq<Move>)
    requires Apart(moves)
    ensures Ordered(After(moves)) && Ordered(RunServer(Folds(moves)))
    ensures var snapshot, live := Snapshot(After(moves)), Snapshot(RunServer(Folds(moves)));
            var m := |snapshot| - |live|;
            && 0 <= m && snapshot[m..] == live
            && forall i, k :: 0 <= i < m && 0 <= k < |Folds(moves)| ==> !Touches(Folds(moves)[k], snapshot[i].id)
  {
    var h, s := After(moves), RunServer(Folds(moves));
    LiveTurnsAreUntouched(moves);
    MovesKeepTurnOrder(moves);
    RunKeepsTurnOrder(Folds(moves));
    EndOfSnapshot(h, s);
    forall i, k | 0 <= i < |h.order| - |s.order| && 0 <= k < |Folds(moves)|
      ensures !Touches(Folds(moves)[k], Snapshot(h)[i].id)
    {
      TouchedTurnsAreListed(Folds(moves), h.order[i]);
      FrontIsNotLive(h, s, i);
    }
  }

  lemma EndAt(h: seq<string>, s: seq<string>, j: nat)
    requires EndsWith(h, s) && j < |s|
    ensures h[|h| - |s| + j] == s[j]
  {
    assert h[|h| - |s|..][j] == s[j];
  }

  function Entry(s: State, id: string): AppTurn {
    AppTurn(id, TurnOf(s, id).status, TurnOf(s, id).items, TurnOf(s, id).error)
  }

  lemma EntryAt(s: State, i: nat)
    requires Ordered(s) && i < |s.order|
    ensures Snapshot(s)[i] == Entry(s, s.order[i]) && s.order[i] in s.turns
  {
  }

  lemma LiveEntry(h: State, s: State, j: nat)
    requires Over(h, s) && Ordered(h) && Ordered(s) && j < |s.order|
    ensures Snapshot(h)[|h.order| - |s.order| + j] == Snapshot(s)[j]
  {
    hide Snapshot, Ordered;
    EndAt(h.order, s.order, j);
    EntryAt(s, j);
    EntryAt(h, |h.order| - |s.order| + j);
  }

  lemma EndOfSnapshot(h: State, s: State)
    requires Over(h, s) && Ordered(h) && Ordered(s)
    ensures Snapshot(h)[|h.order| - |s.order|..] == Snapshot(s)
  {
    hide Snapshot, Ordered;
    forall j | 0 <= j < |s.order|
      ensures Snapshot(h)[|h.order| - |s.order| + j] == Snapshot(s)[j]
    {
      LiveEntry(h, s, j);
    }
  }

  lemma FrontIsNotLive(h: State, s: State, i: nat)
    requires Over(h, s) && Ordered(h) && Ordered(s) && i < |h.order| - |s.order|
    ensures h.order[i] !in s.turns
  {
    forall j | 0 <= j < |s.order|
      ensures s.order[j] != h.order[i]
    {
      EndAt(h.order, s.order, j);
    }
  }

  // ---- What reading it adds ---------------------------------------------------

  // Reading history takes over exactly the turns that are not there yet.
  lemma ReadingTakesOver(moves: seq<Move>, history: seq<AppTurn>) returns (picks: seq<nat>, taken: seq<AppTurn>)
    ensures M.Picks(After(moves), history, picks)
    ensures |taken| == |picks| && forall k :: 0 <= k < |picks| ==> taken[k] == history[picks[k]]
    ensures M.StandsFirst(After(moves), taken, After(moves + [Hydrate(history)]))
  {
    assert (moves + [Hydrate(history)])[..|moves|] == moves;
    picks, taken := M.HistoryIsTakenOver(After(moves), history);
  }

  // And a turn, taken over or not, stays as it is until a record is about it, however often
  // history is read again.
  lemma {:induction false} TurnStays(before: seq<Move>, after: seq<Move>, id: string)
    requires id in After(before).turns
    requires forall i :: 0 <= i < |after| && after[i].Fold? ==> !Touches(after[i].d, id)
    ensures id in After(before + after).turns && After(before + after).turns[id] == After(before).turns[id]
    decreases after
  {
    if after == [] {
      assert before + after == before;
    } else {
      var n := |after| - 1;
      assert (before + after)[..|before + after| - 1] == before + after[..n];
      TurnStays(before, after[..n], id);
      var s := After(before + after[..n]);
      match after[n] {
        case Hydrate(history) => HydrationKeepsLiveTurns(s, history);
        case Fold(d) => M.TurnMoves(s, d, id);
      }
    }
  }
}
