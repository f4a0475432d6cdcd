// One thread: its turns, and the tool approvals a turn waits on
// (src/app-server/managed-thread.ts). Each method below is one synchronous stretch; what
// follows an await is a method of its own.

module ManagedThread {
  import opened Wrappers

  datatype Decision = Approved | Denied | Cancelled | TimedOut

  datatype AbortReason = Interrupted | Fault(message: string)

  datatype Blocker = Blocker(code: string, message: string, stopsShort: bool)

  datatype RunnerResult = Returned(message: string, blockers: seq<Blocker>) | Threw(name: string, message: string)

  datatype Outcome = Completed(message: string) | Aborted | Failed(name: string, message: string)

  datatype Active = Active(turnId: string, abort: Option<AbortReason>, executing: bool)

  // The saves queued on the persistence chain, by what runs once they are written.
  datatype Save = OnStart(turnId: string) | OnFinish(turnId: string, outcome: Outcome) | OnClose | Other

  // `Noted` stands for every event that is not one of the thread's own turn boundaries.
  datatype Event = Queued(turnId: string) | Ended(turnId: string, outcome: Outcome) | Noted

  // `pending` maps an approval to the turn that waits on it; `settled` holds the approvals
  // whose promises have been resolved. `accepted` and `outcomes` list the turns accepted
  // and finished so far.
  datatype Thread = Thread(
    active: Option<Active>,
    closed: bool,
    pending: map<string, string>,
    settled: map<string, Decision>,
    chain: seq<Save>,
    published: seq<Event>,
    accepted: seq<string>,
    outcomes: seq<Outcome>)

  const NEW_THREAD := Thread(None, false, map[], map[], [], [], [], [])

  // ---- How a turn ends --------------------------------------------------------

  function FirstStop(blockers: seq<Blocker>): Option<Blocker> {
    if blockers == [] then None
    else if blockers[0].stopsShort then Some(blockers[0])
    else FirstStop(blockers[1..])
  }

  function Verdict(abort: Option<AbortReason>, result: RunnerResult): Outcome {
    if abort.Some? || (result.Threw? && result.name == "AbortError") then
      if abort.Some? && abort.value.Fault? then Failed("run_fault", abort.value.message) else Aborted
    else match result
      case Threw(name, message) => Failed(name, message)
      case Returned(message, blockers) =>
        var stop := FirstStop(blockers);
        if stop.Some? then Failed(stop.value.code, stop.value.message) else Completed(message)
  }

  // ---- Settling approvals -----------------------------------------------------

  function Settle(t: Thread, id: string, d: Decision): Thread {
    if id in t.pending then t.(pending := t.pending - {id}, settled := t.settled[id := d]) else t
  }

  function SettleAll(t: Thread, ids: set<string>, d: Decision): Thread {
    t.(pending := t.pending - ids, settled := t.settled + map id | id in ids && id in t.pending :: d)
  }

  function CancelAll(t: Thread): Thread {
    SettleAll(t, t.pending.Keys, Cancelled)
  }

  // ---- The stretches ----------------------------------------------------------

  datatype Refusal = InvalidPrompt | ThreadClosed | TurnInProgress

  function StartRefusal(t: Thread, blankPrompt: bool): Option<Refusal> {
    if blankPrompt then Some(InvalidPrompt)
    else if t.closed then Some(ThreadClosed)
    else if t.active.Some? then Some(TurnInProgress)
    else None
  }

  function AfterStart(t: Thread, turnId: string, blankPrompt: bool): Thread {
    if StartRefusal(t, blankPrompt).Some? then t
    else t.(active := Some(Active(turnId, None, false)),
            accepted := t.accepted + [turnId],
            chain := t.chain + [OnStart(turnId)])
  }

  // The first queued save is on disk; its continuation runs.
  function AfterSave(t: Thread): Thread
    requires t.chain != []
  {
    var rest := t.(chain := t.chain[1..]);
    match t.chain[0]
    case OnStart(turnId) =>
      rest.(published := t.published + [Queued(turnId), Noted, Noted],
            active := if t.active.Some? then Some(t.active.value.(executing := true)) else None)
    case OnFinish(turnId, outcome) => rest.(published := t.published + [Ended(turnId, outcome), Noted])
    case OnClose => rest.(published := t.published + [Noted, Noted])
    case Other => rest
  }

  // A signal keeps the reason of its first abort.
  function AfterAbort(t: Thread, reason: AbortReason): Thread {
    if t.active.Some? && t.active.value.abort.None?
    then t.(active := Some(t.active.value.(abort := Some(reason))))
    else t
  }

  function AfterInterrupt(t: Thread, turnId: Option<string>): Thread {
    if t.active.None? || (turnId.Some? && turnId.value != "" && turnId.value != t.active.value.turnId) then t
    else AfterAbort(CancelAll(t.(published := t.published + [Noted])), Interrupted)
  }

  function AfterRunner(t: Thread, result: RunnerResult): Thread
    requires t.active.Some? && t.active.value.executing
  {
    var a := t.active.value;
    var outcome := Verdict(a.abort, result);
    CancelAll(t).(active := None, closed := false,
                  outcomes := t.outcomes + [outcome],
                  chain := t.chain + [OnFinish(a.turnId, outcome)])
  }

  // close(), after its wait for the turn: whether or not the turn has ended by then.
  function AfterClose(t: Thread): Thread {
    CancelAll(t).(closed := true, chain := t.chain + [OnClose])
  }

  predicate WouldWait(t: Thread, signalAborted: bool) {
    t.active.Some? && t.active.value.abort.None? && !signalAborted
  }

  function AfterRequest(t: Thread, id: string, signalAborted: bool): Thread {
    if !WouldWait(t, signalAborted) then t.(settled := t.settled[id := Cancelled])
    else t.(pending := t.pending[id := t.active.value.turnId])
  }

  datatype Step =
    | Start(turnId: string, blankPrompt: bool)
    | SaveLands
    | InterruptTurn(only: Option<string>)
    | RunFaults(message: string)
    | RunnerEnds(result: RunnerResult)
    | CloseFinishes
    | Publish
    | SaveOther
    | AskApproval(id: string, signalAborted: bool)
    | SettleOne(id: string, decision: Decision)

  // Approval ids are unique in a run.
  predicate Enabled(t: Thread, s: Step) {
    match s
    case SaveLands => t.chain != []
    case RunnerEnds(_) => t.active.Some? && t.active.value.executing
    case AskApproval(id, _) => id !in t.pending && id !in t.settled
    case _ => true
  }

  function Next(t: Thread, s: Step): Thread
    requires Enabled(t, s)
  {
    match s
    case Start(turnId, blank) => AfterStart(t, turnId, blank)
    case SaveLands => AfterSave(t)
    case InterruptTurn(only) => AfterInterrupt(t, only)
    case RunFaults(message) => AfterAbort(t, Fault(message))
    case RunnerEnds(result) => AfterRunner(t, result)
    case CloseFinishes => AfterClose(t)
    case Publish => t.(published := t.published + [Noted])
    case SaveOther => t.(chain := t.chain + [Other])
    case AskApproval(id, signalAborted) => AfterRequest(t, id, signalAborted)
    case SettleOne(id, decision) => Settle(t, id, decision)
  }

  // ---- The thread object ------------------------------------------------------

  class ManagedReaperThread {
    var activeTurn: Option<Active>
    var closed: bool
    var pendingApprovals: map<string, string>
    var settled: map<string, Decision>
    var chain: seq<Save>
    var published: seq<Event>
    ghost var accepted: seq<string>
    ghost var outcomes: seq<Outcome>

    ghost function View(): Thread
      reads this
    {
      Thread(activeTurn, closed, pendingApprovals, settled, chain, published, accepted, outcomes)
    }

    constructor ()
      ensures View() == NEW_THREAD
    {
      activeTurn, closed, pendingApprovals, settled := None, false, map[], map[];
      chain, published, accepted, outcomes := [], [], [], [];
    }

    method StartTurn(turnId: string, blankPrompt: bool) returns (refusal: Option<Refusal>)
      modifies this
      ensures View() == AfterStart(old(View()), turnId, blankPrompt)
      ensures refusal == StartRefusal(old(View()), blankPrompt)
    {
      if blankPrompt {
        return Some(InvalidPrompt);
      }
      if closed {
        return Some(ThreadClosed);
      }
      if activeTurn.Some? {
        return Some(TurnInProgress);
      }
      activeTurn := Some(Active(turnId, None, false));
      accepted := accepted + [turnId];
      chain := chain + [OnStart(turnId)];
      return None;
    }

    method SaveLands()
      requires chain != []
      modifies this
      ensures View() == AfterSave(old(View()))
    {
      var save := chain[0];
      chain := chain[1..];
      match save {
        case OnStart(turnId) =>
          published := published + [Queued(turnId), Noted, Noted];
          if activeTurn.Some? {
            activeTurn := Some(activeTurn.value.(executing := true));
          }
        case OnFinish(turnId, outcome) => published := published + [Ended(turnId, outcome), Noted];
        case OnClose => published := published + [Noted, Noted];
        case Other =>
      }
    }

    method SettleApproval(id: string, decision: Decision) returns (found: bool)
      modifies this`pendingApprovals, this`settled
      ensures View() == Settle(old(View()), id, decision)
      ensures found <==> id in old(pendingApprovals)
    {
      if id !in pendingApprovals {
        return false;
      }
      pendingApprovals := pendingApprovals - {id};
      settled := settled[id := decision];
      return true;
    }

    method CancelPendingApprovals(decision: Decision)
      modifies this`pendingApprovals, this`settled
      ensures View() == SettleAll(old(View()), old(pendingApprovals).Keys, decision)
    {
      ghost var start := View();
      var todo := pendingApprovals.Keys;
      ghost var ended: set<string> := {};
      SettleNone(start, decision);
      while todo != {}
        invariant todo == start.pending.Keys - ended
        invariant View() == SettleAll(start, ended, decision)
        decreases |todo|
      {
        var id :| id in todo;
        SettleMore(start, ended, id, decision);
        var found := SettleApproval(id, decision);
        todo, ended := todo - {id}, ended + {id};
      }
      SettleRest(start, ended, decision);
    }

    method Interrupt(turnId: Option<string>) returns (interrupted: bool)
      modifies this
      ensures View() == AfterInterrupt(old(View()), turnId)
      ensures interrupted <==>
                old(activeTurn).Some? && (turnId.None? || turnId.value in {"", old(activeTurn).value.turnId})
    {
      if activeTurn.None? || (turnId.Some? && turnId.value != "" && activeTurn.value.turnId != turnId.value) {
        return false;
      }
      published := published + [Noted];
      CancelPendingApprovals(Cancelled);
      Abort(Interrupted);
      return true;
    }

    method Abort(reason: AbortReason)
      modifies this`activeTurn
      ensures View() == AfterAbort(old(View()), reason)
    {
      if activeTurn.Some? && activeTurn.value.abort.None? {
        activeTurn := Some(activeTurn.value.(abort := Some(reason)));
      }
    }

    // executeTurn after the runner has settled, and the synchronous part of finishTurn.
    method RunnerSettles(result: RunnerResult)
      requires activeTurn.Some? && activeTurn.value.executing
      modifies this
      ensures View() == AfterRunner(old(View()), result)
    {
      var turn := activeTurn.value;
      var outcome: Outcome;
      var byUser := turn.abort.Some? || (result.Threw? && result.name == "AbortError");
      if byUser {
        outcome := if turn.abort.Some? && turn.abort.value.Fault?
                   then Failed("run_fault", turn.abort.value.message) else Aborted;
      } else if result.Threw? {
        outcome := Failed(result.name, result.message);
      } else {
        var i := 0;
        while i < |result.blockers| && !result.blockers[i].stopsShort
          invariant 0 <= i <= |result.blockers|
          invariant FirstStop(result.blockers) == FirstStop(result.blockers[i..])
        {
          assert result.blockers[i..][1..] == result.blockers[i + 1..];
          i := i + 1;
        }
        outcome := if i < |result.blockers|
                   then Failed(result.blockers[i].code, result.blockers[i].message)
                   else Completed(result.message);
      }
      CancelPendingApprovals(Cancelled);
      activeTurn, closed := None, false;
      outcomes := outcomes + [outcome];
      chain := chain + [OnFinish(turn.turnId, outcome)];
    }

    method CloseEnds()
      modifies this
      ensures View() == AfterClose(old(View()))
    {
      CancelPendingApprovals(Cancelled);
      closed := true;
      chain := chain + [OnClose];
    }

    method RequestApproval(id: string, signalAborted: bool) returns (waits: bool)
      requires id !in pendingApprovals && id !in settled
      modifies this`pendingApprovals, this`settled
      ensures View() == AfterRequest(old(View()), id, signalAborted)
      ensures waits <==> WouldWait(old(View()), signalAborted)
    {
      if activeTurn.None? || activeTurn.value.abort.Some? || signalAborted {
        settled := settled[id := Cancelled];
        return false;
      }
      pendingApprovals := pendingApprovals[id := activeTurn.value.turnId];
      return true;
    }
  }

  lemma SettleNone(t: Thread, d: Decision)
    ensures SettleAll(t, {}, d) == t
  {
    assert t.pending - {} == t.pending;
    assert (map id | id in {} && id in t.pending :: d) == map[];
    assert t.settled + map[] == t.settled;
  }

  lemma SettleMore(t: Thread, ids: set<string>, id: string, d: Decision)
    requires id !in ids && id in t.pending
    ensures Settle(SettleAll(t, ids, d), id, d) == SettleAll(t, ids + {id}, d)
  {
    assert t.pending - ids - {id} == t.pending - (ids + {id});
    var before := t.settled + map i | i in ids && i in t.pending :: d;
    assert before[id := d] == t.settled + map i | i in ids + {id} && i in t.pending :: d;
  }

  lemma SettleRest(t: Thread, ids: set<string>, d: Decision)
    requires t.pending.Keys - ids == {}
    ensures SettleAll(t, ids, d) == SettleAll(t, t.pending.Keys, d)
  {
    forall id | id in t.pending
      ensures id in ids
    {
      assert id !in t.pending.Keys - ids;
    }
    assert t.pending - ids == t.pending - t.pending.Keys;
    assert (map id | id in ids && id in t.pending :: d)
        == (map id | id in t.pending.Keys && id in t.pending :: d);
  }

  // ---- What every stretch keeps -----------------------------------------------

  // The boundaries of a list of turns, the last of which may still be running.
  function Story(accepted: seq<string>, outcomes: seq<Outcome>): seq<Event>
    requires |outcomes| <= |accepted| <= |outcomes| + 1
  {
    if accepted == [] then []
    else
      var n := |accepted| - 1;
      if |outcomes| == |accepted| then
        Story(accepted[..n], outcomes[..n]) + [Queued(accepted[n]), Ended(accepted[n], outcomes[n])]
      else Story(accepted[..n], outcomes) + [Queued(accepted[n])]
  }

  function Boundaries(published: seq<Event>): seq<Event> {
    if published == [] then []
    else
      var n := |published| - 1;
      Boundaries(published[..n]) + if published[n].Noted? then [] else [published[n]]
  }

  // What the queued saves will still publish.
  function Due(chain: seq<Save>): seq<Event> {
    if chain == [] then []
    else
      (match chain[0]
       case OnStart(turnId) => [Queued(turnId)]
       case OnFinish(turnId, outcome) => [Ended(turnId, outcome)]
       case _ => [])
      + Due(chain[1..])
  }

  predicate NoStart(chain: seq<Save>) {
    forall s :: s in chain ==> !s.OnStart?
  }

  // The start of the active turn is still being saved: the last turn save in the queue.
  predicate StartQueued(chain: seq<Save>, turnId: string) {
    exists i :: 0 <= i < |chain| && chain[i] == OnStart(turnId) && NoStart(chain[..i]) && NoStart(chain[i + 1..])
  }

  // Approvals belong to the active turn, wait or are settled but never both, and an
  // interrupted turn waits on nothing any more.
  predicate WaitsInOrder(t: Thread) {
    && (t.active.None? ==> t.pending == map[])
    && (t.active.Some? ==> forall id :: id in t.pending ==> t.pending[id] == t.active.value.turnId)
    && (forall id :: id in t.pending ==> id !in t.settled)
    && (t.active.Some? && t.active.value.abort == Some(Interrupted) ==> t.pending == map[])
  }

  // Whether a start is still queued matches the state of the active turn.
  predicate StartTracked(t: Thread) {
    if t.active.Some? && !t.active.value.executing then StartQueued(t.chain, t.active.value.turnId)
    else NoStart(t.chain)
  }

  // Turns come one at a time, and what has been published about them, followed by what
  // the queued saves will publish, tells their story in order.
  predicate TurnsInOrder(t: Thread) {
    && |t.accepted| == |t.outcomes| + (if t.active.Some? then 1 else 0)
    && (t.active.Some? ==> t.accepted[|t.accepted| - 1] == t.active.value.turnId)
    && StartTracked(t)
    && Boundaries(t.published) + Due(t.chain) == Story(t.accepted, t.outcomes)
  }

  lemma WaitsStayInOrder(t: Thread, s: Step)
    requires WaitsInOrder(t) && Enabled(t, s)
    ensures WaitsInOrder(Next(t, s))
  {
    match s
    case InterruptTurn(only) => CancelsEverything(t);
    case RunnerEnds(_) => CancelsEverything(t);
    case CloseFinishes => CancelsEverything(t);
    case _ =>
  }

  lemma CancelsEverything(t: Thread)
    ensures CancelAll(t).pending == map[]
  {
  }

  lemma {:induction false} BoundariesOfAppend(a: seq<Event>, b: seq<Event>)
    ensures Boundaries(a + b) == Boundaries(a) + Boundaries(b)
  {
    if b == [] {
      assert a + b == a;
    } else {
      var n := |b| - 1;
      assert (a + b)[..|a + b| - 1] == a + b[..n];
      BoundariesOfAppend(a, b[..n]);
    }
  }

  lemma {:induction false} DueOfAppend(a: seq<Save>, b: seq<Save>)
    ensures Due(a + b) == Due(a) + Due(b)
  {
    if a == [] {
      assert a + b == b;
    } else {
      assert (a + b)[1..] == a[1..] + b;
      DueOfAppend(a[1..], b);
    }
  }

  lemma StoryBegins(accepted: seq<string>, outcomes: seq<Outcome>, turnId: string)
    requires |accepted| == |outcomes|
    ensures Story(accepted + [turnId], outcomes) == Story(accepted, outcomes) + [Queued(turnId)]
  {
    assert (accepted + [turnId])[..|accepted|] == accepted;
  }

  lemma StoryEnds(accepted: seq<string>, outcomes: seq<Outcome>, outcome: Outcome)
    requires |accepted| == |outcomes| + 1
    ensures Story(accepted, outcomes + [outcome])
         == Story(accepted, outcomes) + [Ended(accepted[|outcomes|], outcome)]
  {
    assert (outcomes + [outcome])[..|outcomes|] == outcomes;
  }

  lemma StartKeepsOrder(t: Thread, turnId: string, blankPrompt: bool)
    requires TurnsInOrder(t)
    ensures TurnsInOrder(AfterStart(t, turnId, blankPrompt))
  {
    if StartRefusal(t, blankPrompt).None? {
      var u := AfterStart(t, turnId, blankPrompt);
      StoryBegins(t.accepted, t.outcomes, turnId);
      DueOfAppend(t.chain, [OnStart(turnId)]);
      assert u.chain[..|t.chain|] == t.chain && u.chain[|t.chain| + 1..] == [];
    }
  }

  lemma SaveKeepsStart(chain: seq<Save>, turnId: string)
    requires chain != [] && StartQueued(chain, turnId)
    ensures if chain[0].OnStart? then chain[0].turnId == turnId && NoStart(chain[1..])
            else StartQueued(chain[1..], turnId)
  {
    var i :| 0 <= i < |chain| && chain[i] == OnStart(turnId) && NoStart(chain[..i]) && NoStart(chain[i + 1..]);
    if i > 0 {
      assert chain[0] in chain[..i];
      var rest := chain[1..];
      assert rest[i - 1] == OnStart(turnId);
      assert forall s :: s in rest[..i - 1] ==> s in chain[..i];
      assert rest[i..] == chain[i + 1..];
    }
  }

  lemma {:induction false} NotesSayNothing(notes: seq<Event>)
    requires forall e :: e in notes ==> e.Noted?
    ensures Boundaries(notes) == []
  {
    if notes != [] {
      NotesSayNothing(notes[..|notes| - 1]);
    }
  }

  lemma BoundaryAmongNotes(e: Event, notes: seq<Event>)
    requires !e.Noted? && forall n :: n in notes ==> n.Noted?
    ensures Boundaries([e] + notes) == [e]
  {
    BoundariesOfAppend([e], notes);
    NotesSayNothing(notes);
    assert [e][..0] == [];
  }

  // What the save at the head of the queue publishes.
  function Said(save: Save): seq<Event> {
    match save
    case OnStart(turnId) => [Queued(turnId)] + [Noted, Noted]
    case OnFinish(turnId, outcome) => [Ended(turnId, outcome)] + [Noted]
    case OnClose => [Noted, Noted]
    case Other => []
  }

  lemma SaidIsDue(save: Save, rest: seq<Save>)
    ensures Boundaries(Said(save)) + Due(rest) == Due([save] + rest)
  {
    assert ([save] + rest)[1..] == rest;
    match save
    case OnStart(turnId) => BoundaryAmongNotes(Queued(turnId), [Noted, Noted]);
    case OnFinish(turnId, outcome) => BoundaryAmongNotes(Ended(turnId, outcome), [Noted]);
    case OnClose => NotesSayNothing([Noted, Noted]);
    case Other =>
  }

  lemma SavePublishes(t: Thread)
    requires t.chain != []
    ensures AfterSave(t).published == t.published + Said(t.chain[0]) && AfterSave(t).chain == t.chain[1..]
    ensures AfterSave(t).accepted == t.accepted && AfterSave(t).outcomes == t.outcomes
  {
  }

  lemma SaveSaysWhatIsDue(t: Thread)
    requires t.chain != []
    ensures Boundaries(AfterSave(t).published) + Due(AfterSave(t).chain) == Boundaries(t.published) + Due(t.chain)
  {
    hide AfterSave, Said;
    SavePublishes(t);
    var said, rest := Boundaries(Said(t.chain[0])), t.chain[1..];
    BoundariesOfAppend(t.published, Said(t.chain[0]));
    SaidIsDue(t.chain[0], rest);
    assert [t.chain[0]] + rest == t.chain;
    assert Boundaries(t.published) + said + Due(rest) == Boundaries(t.published) + (said + Due(rest));
  }

  lemma SaveKeepsTracking(t: Thread)
    requires StartTracked(t) && t.chain != []
    ensures StartTracked(AfterSave(t))
  {
    assert t.chain[0] in t.chain;
    if t.active.Some? && !t.active.value.executing {
      SaveKeepsStart(t.chain, t.active.value.turnId);
    }
  }

  lemma SaveKeepsOrder(t: Thread)
    requires TurnsInOrder(t) && t.chain != []
    ensures TurnsInOrder(AfterSave(t))
  {
    SavePublishes(t);
    SaveSaysWhatIsDue(t);
    SaveKeepsTracking(t);
  }

  lemma AppendKeepsStart(chain: seq<Save>, save: Save, turnId: string)
    requires StartQueued(chain, turnId) && !save.OnStart?
    ensures StartQueued(chain + [save], turnId)
  {
    var i :| 0 <= i < |chain| && chain[i] == OnStart(turnId) && NoStart(chain[..i]) && NoStart(chain[i + 1..]);
    var longer := chain + [save];
    assert longer[i] == OnStart(turnId) && longer[..i] == chain[..i];
    assert longer[i + 1..] == chain[i + 1..] + [save];
  }

  // A save that publishes no turn boundary joins the queue.
  lemma QueueKeepsOrder(t: Thread, save: Save)
    requires TurnsInOrder(t) && (save.OnClose? || save.Other?)
    ensures TurnsInOrder(t.(chain := t.chain + [save]))
  {
    DueOfAppend(t.chain, [save]);
    if t.active.Some? && !t.active.value.executing {
      AppendKeepsStart(t.chain, save, t.active.value.turnId);
    }
  }

  lemma RunnerKeepsOrder(t: Thread, result: RunnerResult)
    requires TurnsInOrder(t) && t.active.Some? && t.active.value.executing
    ensures TurnsInOrder(AfterRunner(t, result))
  {
    var outcome := Verdict(t.active.value.abort, result);
    DueOfAppend(t.chain, [OnFinish(t.active.value.turnId, outcome)]);
    StoryEnds(t.accepted, t.outcomes, outcome);
  }

  lemma NoteKeepsOrder(t: Thread)
    requires TurnsInOrder(t)
    ensures TurnsInOrder(t.(published := t.published + [Noted]))
  {
    BoundariesOfAppend(t.published, [Noted]);
    assert Boundaries([Noted]) == [];
  }

  // Approvals and the abort reason do not matter to the order of turns.
  lemma OrderIgnoresTheRest(t: Thread, u: Thread)
    requires TurnsInOrder(t)
    requires u.chain == t.chain && u.published == t.published && u.accepted == t.accepted && u.outcomes == t.outcomes
    requires u.active.Some? <==> t.active.Some?
    requires u.active.Some? ==> u.active.value == t.active.value.(abort := u.active.value.abort)
    ensures TurnsInOrder(u)
  {
  }

  lemma InterruptKeepsOrder(t: Thread, only: Option<string>)
    requires TurnsInOrder(t)
    ensures TurnsInOrder(AfterInterrupt(t, only))
  {
    NoteKeepsOrder(t);
    var u := AfterInterrupt(t, only);
    if u != t {
      OrderIgnoresTheRest(t.(published := t.published + [Noted]), u);
    }
  }

  lemma CloseKeepsOrder(t: Thread)
    requires TurnsInOrder(t)
    ensures TurnsInOrder(AfterClose(t))
  {
    QueueKeepsOrder(t, OnClose);
    OrderIgnoresTheRest(t.(chain := t.chain + [OnClose]), AfterClose(t));
  }

  lemma TurnsStayInOrder(t: Thread, s: Step)
    requires TurnsInOrder(t) && Enabled(t, s)
    ensures TurnsInOrder(Next(t, s))
  {
    match s
    case Start(turnId, blank) => StartKeepsOrder(t, turnId, blank);
    case SaveLands => SaveKeepsOrder(t);
    case InterruptTurn(only) => InterruptKeepsOrder(t, only);
    case RunFaults(_) => OrderIgnoresTheRest(t, Next(t, s));
    case RunnerEnds(result) => RunnerKeepsOrder(t, result);
    case CloseFinishes => CloseKeepsOrder(t);
    case Publish => NoteKeepsOrder(t);
    case SaveOther => QueueKeepsOrder(t, Other);
    case AskApproval(_, _) => OrderIgnoresTheRest(t, Next(t, s));
    case SettleOne(_, _) => OrderIgnoresTheRest(t, Next(t, s));
  }

  // ---- Whole runs -------------------------------------------------------------

  predicate Run(t: Thread, steps: seq<Step>, u: Thread)
    decreases steps
  {
    if steps == [] then t == u
    else Enabled(t, steps[0]) && Run(Next(t, steps[0]), steps[1..], u)
  }

  predicate Sound(t: Thread) {
    WaitsInOrder(t) && TurnsInOrder(t)
  }

  // u is a later state of t: nothing accepted, published, ended or settled is taken back,
  // and an approval that was waiting waits for the same turn or has been settled.
  predicate Later(t: Thread, u: Thread) {
    && t.accepted <= u.accepted && t.outcomes <= u.outcomes && t.published <= u.published
    && (forall id :: id in t.settled ==> id in u.settled && u.settled[id] == t.settled[id])
    && (forall id :: id in t.pending ==> id in u.settled || (id in u.pending && u.pending[id] == t.pending[id]))
  }

  lemma StepIsLater(t: Thread, s: Step)
    requires WaitsInOrder(t) && Enabled(t, s)
    ensures Later(t, Next(t, s))
  {
  }

  lemma LaterIsTransitive(t: Thread, u: Thread, v: Thread)
    requires Later(t, u) && Later(u, v)
    ensures Later(t, v)
  {
  }

  lemma {:induction false} RunStaysSound(t: Thread, steps: seq<Step>, u: Thread)
    requires Sound(t) && Run(t, steps, u)
    ensures Sound(u) && Later(t, u)
    decreases steps
  {
    if steps != [] {
      var next := Next(t, steps[0]);
      WaitsStayInOrder(t, steps[0]);
      TurnsStayInOrder(t, steps[0]);
      StepIsLater(t, steps[0]);
      RunStaysSound(next, steps[1..], u);
      LaterIsTransitive(t, next, u);
    }
  }

  lemma {:induction false} StoryTold(accepted: seq<string>, outcomes: seq<Outcome>, k: nat)
    requires |outcomes| <= |accepted| <= |outcomes| + 1 && k < |accepted|
    ensures var story := Story(accepted, outcomes);
            && |story| == |accepted| + |outcomes|
            && story[2 * k] == Queued(accepted[k])
            && (k < |outcomes| ==> story[2 * k + 1] == Ended(accepted[k], outcomes[k]))
    decreases |accepted|
  {
    var n := |accepted| - 1;
    var before := if |outcomes| == |accepted| then outcomes[..n] else outcomes;
    if k < n {
      StoryTold(accepted[..n], before, k);
    } else if n > 0 {
      StoryTold(accepted[..n], before, 0);
    }
  }

  // Every accepted turn is queued and then ended exactly once, before the next one begins,
  // and only the last may not have ended yet. No start succeeds in between.
  lemma TurnsRunOneAtATime(steps: seq<Step>, u: Thread, k: nat)
    requires Run(NEW_THREAD, steps, u) && Due(u.chain) == [] && k < |u.accepted|
    ensures |u.outcomes| == |u.accepted| - (if u.active.Some? then 1 else 0)
    ensures var told := Boundaries(u.published);
            && |told| == |u.accepted| + |u.outcomes|
            && told[2 * k] == Queued(u.accepted[k])
            && (k < |u.outcomes| ==> told[2 * k + 1] == Ended(u.accepted[k], u.outcomes[k]))
    ensures u.active.Some? ==> forall blank :: StartRefusal(u, blank).Some?
    ensures u.active.None? ==> u.pending == map[]
  {
    RunStaysSound(NEW_THREAD, steps, u);
    StoryTold(u.accepted, u.outcomes, k);
  }

  // ---- What a turn's outcome means --------------------------------------------

  lemma {:induction false} FirstStopIsFirst(blockers: seq<Blocker>)
    ensures match FirstStop(blockers)
            case None => forall i :: 0 <= i < |blockers| ==> !blockers[i].stopsShort
            case Some(b) => exists i :: 0 <= i < |blockers| && blockers[i] == b && b.stopsShort
                              && forall j :: 0 <= j < i ==> !blockers[j].stopsShort
  {
    if blockers != [] && !blockers[0].stopsShort {
      FirstStopIsFirst(blockers[1..]);
      if FirstStop(blockers).Some? {
        var b := FirstStop(blockers).value;
        var i :| 0 <= i < |blockers| - 1 && blockers[1..][i] == b && b.stopsShort
              && forall j :: 0 <= j < i ==> !blockers[1..][j].stopsShort;
        assert blockers[i + 1] == b;
        assert forall j :: 0 < j < i + 1 ==> blockers[j] == blockers[1..][j - 1];
      } else {
        assert forall i :: 0 < i < |blockers| ==> blockers[i] == blockers[1..][i - 1];
      }
    }
  }

  // A turn completes only if nothing stopped it, and a fault is never reported as a stop
  // the user asked for.
  lemma VerdictMeaning(abort: Option<AbortReason>, result: RunnerResult)
    ensures Verdict(abort, result).Completed?
        <==> abort.None? && result.Returned? && forall i :: 0 <= i < |result.blockers| ==> !result.blockers[i].stopsShort
    ensures Verdict(abort, result).Aborted?
        <==> abort == Some(Interrupted) || (abort.None? && result.Threw? && result.name == "AbortError")
    ensures abort.Some? && abort.value.Fault? ==> Verdict(abort, result) == Failed("run_fault", abort.value.message)
  {
    if result.Returned? {
      FirstStopIsFirst(result.blockers);
    }
  }

  // The first abort of a turn decides how it ends: the turn is still active with that
  // reason, or it has ended with the verdict the reason fixes.
  predicate DecidedBy(reason: AbortReason, nth: nat, u: Thread) {
    if |u.outcomes| <= nth then |u.outcomes| == nth && u.active.Some? && u.active.value.abort == Some(reason)
    else u.outcomes[nth] == if reason.Fault? then Failed("run_fault", reason.message) else Aborted
  }

  lemma StepKeepsDecision(t: Thread, s: Step, reason: AbortReason, nth: nat)
    requires Enabled(t, s) && DecidedBy(reason, nth, t)
    ensures DecidedBy(reason, nth, Next(t, s))
  {
  }

  lemma {:induction false} FirstAbortDecides(t: Thread, steps: seq<Step>, u: Thread, reason: AbortReason, nth: nat)
    requires Run(t, steps, u) && DecidedBy(reason, nth, t)
    ensures DecidedBy(reason, nth, u)
    decreases steps
  {
    if steps != [] {
      StepKeepsDecision(t, steps[0], reason, nth);
      FirstAbortDecides(Next(t, steps[0]), steps[1..], u, reason, nth);
    }
  }

  // ---- What each stretch comes to ---------------------------------------------

  // Every approval that waited is settled as cancelled; the others keep their settlement.
  predicate AllCancelled(t: Thread, u: Thread) {
    && u.pending == map[]
    && (u.settled.Keys == t.settled.Keys + t.pending.Keys)
    && (forall id :: id in t.pending ==> u.settled[id] == Cancelled)
    && (forall id :: id in t.settled && id !in t.pending ==> u.settled[id] == t.settled[id])
  }

  // A start is refused for a blank prompt, on a closed thread, and while a turn runs, and
  // leaves the thread as it is; any other is taken, its save queued.
  lemma StartIsTaken(t: Thread, turnId: string, blankPrompt: bool)
    ensures StartRefusal(t, blankPrompt) == if blankPrompt then Some(InvalidPrompt)
                                            else if t.closed then Some(ThreadClosed)
                                            else if t.active.Some? then Some(TurnInProgress) else None
    ensures var u := Next(t, Start(turnId, blankPrompt));
            if blankPrompt || t.closed || t.active.Some? then u == t
            else u == t.(active := Some(Active(turnId, None, false)), accepted := t.accepted + [turnId],
                         chain := t.chain + [OnStart(turnId)])
  {
  }

  // An interrupt reaches the turn that runs, unless it names another: every approval that
  // waited is cancelled, the turn is aborted as interrupted unless it was aborted before, and
  // the interrupt is published. It changes nothing else.
  lemma InterruptReaches(t: Thread, only: Option<string>)
    ensures var u := Next(t, InterruptTurn(only));
            match t.active
            case None => u == t
            case Some(turn) =>
              if only.None? || only.value == "" || only.value == turn.turnId then
                && AllCancelled(t, u) && u.published == t.published + [Noted]
                && u.active == Some(turn.(abort := if turn.abort.None? then Some(Interrupted) else turn.abort))
                && u == t.(pending := u.pending, settled := u.settled, published := u.published, active := u.active)
              else u == t
  {
  }

  lemma FaultReaches(t: Thread, message: string)
    ensures var u := Next(t, RunFaults(message));
            match t.active
            case None => u == t
            case Some(turn) =>
              u == t.(active := Some(turn.(abort := if turn.abort.None? then Some(Fault(message)) else turn.abort)))
  {
  }

  // What a turn that was not aborted reports: the runner's message, or the first blocker that
  // stops a turn short, or what the runner threw.
  lemma RunnerReports(t: Thread, result: RunnerResult)
    requires Enabled(t, RunnerEnds(result))
    ensures var turn := t.active.value;
            var u := Next(t, RunnerEnds(result));
            && AllCancelled(t, u) && u.active.None? && !u.closed && u.published == t.published && u.accepted == t.accepted
            && |u.outcomes| == |t.outcomes| + 1 && u.outcomes[..|t.outcomes|] == t.outcomes
            && u.chain == t.chain + [OnFinish(turn.turnId, u.outcomes[|t.outcomes|])]
            && Reported(turn.abort, result, u.outcomes[|t.outcomes|])
  {
    if result.Returned? {
      FirstStopIsFirst(result.blockers);
    }
  }

  ghost predicate Reported(abort: Option<AbortReason>, result: RunnerResult, outcome: Outcome) {
    match abort
    case Some(Interrupted) => outcome == Aborted
    case Some(Fault(message)) => outcome == Failed("run_fault", message)
    case None =>
      match result
      case Threw(name, message) => outcome == if name == "AbortError" then Aborted else Failed(name, message)
      case Returned(message, blockers) =>
        if exists i :: 0 <= i < |blockers| && blockers[i].stopsShort
        then exists i :: 0 <= i < |blockers| && blockers[i].stopsShort
                         && outcome == Failed(blockers[i].code, blockers[i].message)
                         && forall j :: 0 <= j < i ==> !blockers[j].stopsShort
        else outcome == Completed(message)
  }

  // Closing cancels what waits, whether or not the turn has ended; an approval waits exactly
  // if a turn runs that is not aborted, and settles once.
  lemma CloseEnds(t: Thread)
    ensures var u := Next(t, CloseFinishes);
            && AllCancelled(t, u) && u.closed && u.chain == t.chain + [OnClose]
            && u == t.(pending := u.pending, settled := u.settled, closed := true, chain := u.chain)
  {
  }

  lemma ApprovalWaits(t: Thread, id: string, signalAborted: bool, d: Decision)
    requires Enabled(t, AskApproval(id, signalAborted))
    ensures var u := Next(t, AskApproval(id, signalAborted));
            match t.active
            case Some(Active(turnId, None, _)) =>
              if signalAborted then u == t.(settled := t.settled[id := Cancelled])
              else u == t.(pending := t.pending[id := turnId])
            case _ => u == t.(settled := t.settled[id := Cancelled])
    ensures var u := Next(t, SettleOne(id, d)); u == t
    ensures forall other :: other in t.pending ==>
              Next(t, SettleOne(other, d)) == t.(pending := t.pending - {other}, settled := t.settled[other := d])
  {
  }

  // What the save at the head of the queue brings about once it is written.
  lemma SaveBringsAbout(t: Thread)
    requires Enabled(t, SaveLands)
    ensures var u := Next(t, SaveLands);
            match t.chain[0]
            case OnStart(turnId) =>
              && u.published == t.published + [Queued(turnId), Noted, Noted]
              && u == t.(chain := t.chain[1..], published := u.published, active := u.active)
              && (match t.active case None => u.active.None? case Some(turn) => u.active == Some(turn.(executing := true)))
            case OnFinish(turnId, outcome) =>
              u == t.(chain := t.chain[1..], published := t.published + [Ended(turnId, outcome), Noted])
            case OnClose => u == t.(chain := t.chain[1..], published := t.published + [Noted, Noted])
            case Other => u == t.(chain := t.chain[1..])
  {
  }

  // ---- What an abort comes to, over any run -----------------------------------

  predicate Reaches(t: Thread, only: Option<string>) {
    t.active.Some? && (only.None? || only.value == "" || only.value == t.active.value.turnId)
  }

  // Whatever follows an interrupt of a turn that was not aborted before, that turn ends as
  // aborted, has nothing wait in the meantime, and what waited stays cancelled.
  lemma InterruptedTurnAborts(t: Thread, only: Option<string>, steps: seq<Step>, u: Thread)
    requires Sound(t) && Reaches(t, only) && t.active.value.abort.None?
    requires Run(t, [InterruptTurn(only)] + steps, u)
    ensures if |u.outcomes| > |t.outcomes| then u.outcomes[|t.outcomes|] == Aborted
            else u.active.Some? && u.active.value.turnId == t.active.value.turnId && u.pending == map[]
    ensures forall id :: id in t.pending ==> id in u.settled && u.settled[id] == Cancelled
  {
    var next := Next(t, InterruptTurn(only));
    InterruptReaches(t, only);
    assert ([InterruptTurn(only)] + steps)[1..] == steps;
    WaitsStayInOrder(t, InterruptTurn(only));
    TurnsStayInOrder(t, InterruptTurn(only));
    FirstAbortDecides(next, steps, u, Interrupted, |t.outcomes|);
    RunStaysSound(next, steps, u);
    hide Next, Run, TurnsInOrder;
  }

  // A fault of the run that comes first makes it fail with the fault's message, whatever the
  // user or the runner does afterwards.
  lemma FaultedTurnFails(t: Thread, message: string, steps: seq<Step>, u: Thread)
    requires Sound(t) && t.active.Some? && t.active.value.abort.None?
    requires Run(t, [RunFaults(message)] + steps, u)
    ensures if |u.outcomes| > |t.outcomes| then u.outcomes[|t.outcomes|] == Failed("run_fault", message)
            else u.active.Some? && u.active.value.turnId == t.active.value.turnId
  {
    var next := Next(t, RunFaults(message));
    FaultReaches(t, message);
    assert ([RunFaults(message)] + steps)[1..] == steps;
    WaitsStayInOrder(t, RunFaults(message));
    TurnsStayInOrder(t, RunFaults(message));
    FirstAbortDecides(next, steps, u, Fault(message), |t.outcomes|);
    RunStaysSound(next, steps, u);
  }

  predicate Aborts(s: Step) {
    s.InterruptTurn? || s.RunFaults?
  }

  // A turn nobody aborts ends, if it does, with what its runner reported.
  lemma {:induction false} UndisturbedTurnReports(t: Thread, steps: seq<Step>, u: Thread)
    requires t.active.Some? && t.active.value.abort.None? && Run(t, steps, u)
    requires forall s :: s in steps ==> !Aborts(s)
    ensures if |u.outcomes| > |t.outcomes|
            then exists s :: s in steps && s.RunnerEnds? && Reported(None, s.result, u.outcomes[|t.outcomes|])
            else u.outcomes == t.outcomes && Undisturbed(t, u)
    decreases steps
  {
    if steps != [] {
      var s, rest := steps[0], steps[1..];
      var next := Next(t, s);
      assert s in steps && forall r :: r in rest ==> r in steps;
      if s.RunnerEnds? {
        RunnerReports(t, s.result);
        OutcomesStay(next, rest, u);
        hide Next, Enabled, Run, Reported;
        assert u.outcomes[|t.outcomes|] == next.outcomes[|t.outcomes|];
      } else {
        StepLeavesUndisturbed(t, s);
        UndisturbedTurnReports(next, rest, u);
        hide Next, Enabled, Run, Reported;
      }
    }
  }

  // The turn of t still runs, not aborted.
  predicate Undisturbed(t: Thread, u: Thread)
    requires t.active.Some?
  {
    u.active.Some? && u.active.value.turnId == t.active.value.turnId && u.active.value.abort.None?
  }

  lemma StepLeavesUndisturbed(t: Thread, s: Step)
    requires t.active.Some? && t.active.value.abort.None? && Enabled(t, s) && !Aborts(s) && !s.RunnerEnds?
    ensures Undisturbed(t, Next(t, s)) && Next(t, s).outcomes == t.outcomes
  {
  }

  lemma {:induction false} OutcomesStay(t: Thread, steps: seq<Step>, u: Thread)
    requires Run(t, steps, u)
    ensures t.outcomes <= u.outcomes
    decreases steps
  {
    if steps != [] {
      OutcomesStay(Next(t, steps[0]), steps[1..], u);
    }
  }
}
