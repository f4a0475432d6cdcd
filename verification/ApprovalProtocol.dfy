// A tool approval from the agent's question to its settlement: the thread that waits, the
// router that carries the question to a reviewer, and the message processor's handler in
// between (src/app-server/message-processor.ts). Approval ids and request ids are unique
// in a run.

module ApprovalProtocol {
  import opened Wrappers
  import T = ManagedThread
  import R = OutgoingRouter

  // Where the handler of an approval stands: waiting on its request, about to tell the
  // thread its decision (for good, or with one more try if that throws), or done.
  datatype Handler = AwaitingReply(request: string) | Settling(decision: T.Decision, last: bool) | Finished

  datatype Route = Route(request: string, reviewer: string)

  // A request to start a turn, by where it stands: on its way to the thread, refused, running
  // as the thread's nth turn, or running on another thread object (this one was unloaded).
  datatype Phase = Reaching | Refused | Running(nth: nat) | Elsewhere

  datatype Start = Start(connection: string, turnId: string, phase: Phase)

  // `starts` holds the requests that are not done with. `routed` remembers where each approval was sent, `answeredInTime` those whose response
  // came while the thread was still waiting.
  datatype World = World(
    thread: T.Thread,
    router: R.Router,
    owners: map<string, string>,
    starts: map<string, Start>,
    outstanding: map<string, Route>,
    handlers: map<string, Handler>,
    routed: map<string, Route>,
    answeredInTime: set<string>)

  const NEW_WORLD := World(T.NEW_THREAD, R.Router({}, map[], map[]), map[], map[], map[], map[], map[], {})

  // What telling the thread comes to: the manager finds this thread object, another one
  // (it was unloaded in between), or throws.
  datatype Finding = ThisThread | AnotherThread | Throws

  datatype Step =
    | ThreadStep(step: T.Step)
    | Ask(id: string, signalAborted: bool, request: string, sent: bool)
    | Respond(connection: string, request: string, answer: R.Answer)
    | RequestTimesOut(request: string)
    | OtherRequest(request: string, connection: string, sent: bool)
    | Connect(connection: string)
    | Disconnect(connection: string)
    | Shutdown
    | RequestStart(call: string, connection: string, turnId: string)
    | ReachThread(call: string, blankPrompt: bool)
    | MissThread(call: string, found: bool)
    | RefusalLands(call: string, turnId: string)
    | EndLands(call: string, connection: string, turnId: string)
    | Wake(id: string)
    | Tell(id: string, finding: Finding)

  // ---- The reviewer's answer --------------------------------------------------

  const ACCEPTING: set<string> := {"accept", "acceptForSession", "approved"}
  const DECLINING: set<string> := {"decline", "denied"}
  const CANCELLING: set<string> := {"cancel", "cancelled"}

  // An answer the handler can read; anything else makes it throw.
  predicate Readable(outcome: R.Outcome) {
    && outcome.Resolved?
    && (outcome.answer.ErrorReply?
        || (outcome.answer.Decided? && outcome.answer.word in ACCEPTING + DECLINING + CANCELLING))
  }

  function Reading(outcome: R.Outcome): T.Decision {
    if outcome.Resolved? && outcome.answer.Decided? then
      if outcome.answer.word in ACCEPTING then T.Approved
      else if outcome.answer.word in DECLINING then T.Denied
      else T.Cancelled
    else T.Cancelled
  }

  // ---- The steps --------------------------------------------------------------

  // The thread moves; it reports every approval it settles, which takes the prompt off the desk.
  function ThreadMoves(w: World, thread: T.Thread): World {
    w.(thread := thread, outstanding := w.outstanding - (w.thread.pending.Keys - thread.pending.Keys))
  }

  function AfterAsk(w: World, id: string, signalAborted: bool, request: string, sent: bool): World {
    var thread := T.AfterRequest(w.thread, id, signalAborted);
    if !T.WouldWait(w.thread, signalAborted) then w.(thread := thread)
    else
      var turnId := w.thread.active.value.turnId;
      if turnId !in w.owners then
        w.(thread := thread, handlers := w.handlers[id := Settling(T.Cancelled, true)])
      else
        var route := Route(request, w.owners[turnId]);
        var router := R.Request(w.router, request, route.reviewer, sent);
        w.(thread := thread, router := router,
           outstanding := if request in router.pending then w.outstanding[id := route] else w.outstanding,
           handlers := w.handlers[id := AwaitingReply(request)],
           routed := w.routed[id := route])
  }

  function AfterRespond(w: World, connection: string, request: string, answer: R.Answer): World {
    w.(router := R.ResolveResponse(w.router, connection, request, answer),
       answeredInTime := w.answeredInTime +
         if !R.Accepts(w.router, connection, request) then {}
         else set id | id in w.thread.pending && id in w.routed && w.routed[id].request == request)
  }

  function AfterWake(w: World, id: string): World
    requires id in w.handlers && w.handlers[id].AwaitingReply? && w.handlers[id].request in w.router.outcomes
  {
    var outcome := w.router.outcomes[w.handlers[id].request];
    w.(outstanding := w.outstanding - {id},
       handlers := w.handlers[id := Settling(Reading(outcome), !Readable(outcome))])
  }

  function AfterTell(w: World, id: string, finding: Finding): World
    requires id in w.handlers && w.handlers[id].Settling?
  {
    var h := w.handlers[id];
    match finding
    case ThisThread => ThreadMoves(w, T.Settle(w.thread, id, h.decision)).(handlers := w.handlers[id := Finished])
    case AnotherThread => w.(handlers := w.handlers[id := Finished])
    case Throws =>
      if h.last then w.(handlers := w.handlers[id := Finished])
      else w.(outstanding := w.outstanding - {id}, handlers := w.handlers[id := Settling(T.Cancelled, true)])
  }

  // A request to start a turn makes its connection the turn's owner before anything else.
  function AfterRequestStart(w: World, call: string, connection: string, turnId: string): World {
    w.(owners := w.owners[turnId := connection], starts := w.starts[call := Start(connection, turnId, Reaching)])
  }

  // The thread takes the turn or refuses it.
  function AfterReachThread(w: World, call: string, blankPrompt: bool): World
    requires call in w.starts
  {
    var start := w.starts[call];
    var phase := if T.StartRefusal(w.thread, blankPrompt).Some? then Refused else Running(|w.thread.accepted|);
    ThreadMoves(w, T.AfterStart(w.thread, start.turnId, blankPrompt)).(starts := w.starts[call := start.(phase := phase)])
  }

  // The turn is over, its summary saved; another connection's claim stays.
  function AfterEnd(w: World, call: string, connection: string, turnId: string): World {
    w.(owners := if turnId in w.owners && w.owners[turnId] == connection then w.owners - {turnId} else w.owners,
       starts := w.starts - {call})
  }

  // Nothing the thread does by itself approves anything: its timer and a signal's abort
  // settle as timed out or cancelled.
  predicate Quiet(s: T.Step) {
    && !s.AskApproval?
    && (s.SettleOne? ==> s.decision in {T.Cancelled, T.TimedOut})
  }

  // Turns are started by requests only.
  predicate OwnMove(s: T.Step) {
    Quiet(s) && !s.Start?
  }

  predicate Stands(w: World, call: string, connection: string, turnId: string) {
    call in w.starts && w.starts[call].connection == connection && w.starts[call].turnId == turnId
  }

  predicate Enabled(w: World, s: Step) {
    match s
    case ThreadStep(step) => OwnMove(step) && T.Enabled(w.thread, step)
    case Ask(id, signalAborted, request, _) =>
      T.Enabled(w.thread, T.AskApproval(id, signalAborted)) && R.Fresh(w.router, request)
    case OtherRequest(request, _, _) => R.Fresh(w.router, request)
    case Wake(id) => id in w.handlers && w.handlers[id].AwaitingReply? && w.handlers[id].request in w.router.outcomes
    case Tell(id, _) => id in w.handlers && w.handlers[id].Settling?
    case Respond(_, _, _) => true
    case RequestTimesOut(_) => true
    case Connect(_) => true
    case Disconnect(_) => true
    case Shutdown => true
    case RequestStart(call, _, _) => call !in w.starts
    case ReachThread(call, _) => call in w.starts && w.starts[call].phase.Reaching?
    case MissThread(call, _) => call in w.starts && w.starts[call].phase.Reaching?
    case RefusalLands(call, turnId) =>
      call in w.starts && w.starts[call].turnId == turnId && w.starts[call].phase.Refused?
    case EndLands(call, connection, turnId) =>
      Stands(w, call, connection, turnId)
      && match w.starts[call].phase
         case Running(nth) => nth < |w.thread.outcomes|
         case Elsewhere => true
         case _ => false
  }

  function Next(w: World, s: Step): World
    requires Enabled(w, s)
  {
    match s
    case ThreadStep(step) => ThreadMoves(w, T.Next(w.thread, step))
    case Ask(id, signalAborted, request, sent) => AfterAsk(w, id, signalAborted, request, sent)
    case Respond(connection, request, answer) => AfterRespond(w, connection, request, answer)
    case RequestTimesOut(request) => w.(router := R.TimeOut(w.router, request))
    case OtherRequest(request, connection, sent) => w.(router := R.Request(w.router, request, connection, sent))
    case Connect(connection) => w.(router := R.AddConnection(w.router, connection))
    case Disconnect(connection) =>
      w.(router := R.RemoveConnection(w.router, connection), owners := OwnedByOthers(w.owners, connection))
    case Shutdown => w.(router := R.CloseAll(w.router))
    case RequestStart(call, connection, turnId) => AfterRequestStart(w, call, connection, turnId)
    case ReachThread(call, blank) => AfterReachThread(w, call, blank)
    case MissThread(call, found) =>
      w.(starts := w.starts[call := w.starts[call].(phase := if found then Elsewhere else Refused)])
    case RefusalLands(call, turnId) => w.(owners := w.owners - {turnId}, starts := w.starts - {call})
    case EndLands(call, connection, turnId) => AfterEnd(w, call, connection, turnId)
    case Wake(id) => AfterWake(w, id)
    case Tell(id, finding) => AfterTell(w, id, finding)
  }

  function OwnedByOthers(owners: map<string, string>, connection: string): map<string, string> {
    map turnId | turnId in owners && owners[turnId] != connection :: owners[turnId]
  }

  // ---- The processor's side of it ---------------------------------------------

  // The message processor with the thread and the router it works between.
  class ApprovalDesk {
    const thread: T.ManagedReaperThread
    const router: R.AppServerOutgoingRouter
    var turnOwners: map<string, string>
    // The requests still running as continuations.
    ghost var starts: map<string, Start>
    var outstanding: map<string, Route>
    var handlers: map<string, Handler>
    ghost var routed: map<string, Route>
    ghost var answeredInTime: set<string>

    ghost function View(): World
      reads this, thread, router
    {
      World(thread.View(), router.View(), turnOwners, starts, outstanding, handlers, routed, answeredInTime)
    }

    constructor ()
      ensures View() == NEW_WORLD && fresh(thread) && fresh(router)
    {
      thread := new T.ManagedReaperThread();
      router := new R.AppServerOutgoingRouter();
      turnOwners, starts, outstanding, handlers := map[], map[], map[], map[];
      routed, answeredInTime := map[], {};
    }

    // turn/start up to its await.
    method StartRequested(ghost call: string, connection: string, turnId: string)
      modifies this`turnOwners, this`starts
      ensures View() == AfterRequestStart(old(View()), call, connection, turnId)
    {
      turnOwners := turnOwners[turnId := connection];
      starts := starts[call := Start(connection, turnId, Reaching)];
    }

    method StartReachesThread(ghost call: string, turnId: string, blankPrompt: bool) returns (refused: bool)
      requires call in starts && starts[call].turnId == turnId
      modifies this`starts, this`outstanding, thread
      ensures View() == AfterReachThread(old(View()), call, blankPrompt)
      ensures refused <==> starts[call].phase.Refused?
    {
      ghost var nth := |thread.View().accepted|;
      var before := thread.pendingApprovals.Keys;
      var refusal := thread.StartTurn(turnId, blankPrompt);
      HandleApprovalsSettled(before);
      refused := refusal.Some?;
      starts := starts[call := starts[call].(phase := if refused then Refused else Running(nth))];
    }

    // The catch of turn/start.
    method StartRefused(ghost call: string, turnId: string)
      requires Enabled(View(), RefusalLands(call, turnId))
      modifies this`turnOwners, this`starts
      ensures View() == Next(old(View()), RefusalLands(call, turnId))
    {
      turnOwners := turnOwners - {turnId};
      starts := starts - {call};
    }

    // What turn/start hung on the turn's completion.
    method TurnCompleted(ghost call: string, connection: string, turnId: string)
      requires Enabled(View(), EndLands(call, connection, turnId))
      modifies this`turnOwners, this`starts
      ensures View() == Next(old(View()), EndLands(call, connection, turnId))
    {
      if turnId in turnOwners && turnOwners[turnId] == connection {
        turnOwners := turnOwners - {turnId};
      }
      starts := starts - {call};
    }

    // The thread asks, and the synchronous part of handleApprovalRequest runs.
    method AskReviewer(id: string, signalAborted: bool, request: string, sent: bool)
      requires Enabled(View(), Ask(id, signalAborted, request, sent))
      modifies this, thread, router
      ensures View() == AfterAsk(old(View()), id, signalAborted, request, sent)
    {
      var waits := thread.RequestApproval(id, signalAborted);
      if !waits {
        return;
      }
      var turnId := thread.activeTurn.value.turnId;
      if turnId !in turnOwners {
        handlers := handlers[id := Settling(T.Cancelled, true)];
        return;
      }
      var owner := turnOwners[turnId];
      router.Send(request, owner, sent);
      if request in router.pending {
        outstanding := outstanding[id := Route(request, owner)];
      }
      handlers := handlers[id := AwaitingReply(request)];
      routed := routed[id := Route(request, owner)];
    }

    // A response message came in on a connection.
    method HandleResponse(connection: string, request: string, answer: R.Answer) returns (known: bool)
      modifies this`answeredInTime, router
      ensures View() == AfterRespond(old(View()), connection, request, answer)
      ensures known == R.Accepts(old(router.View()), connection, request)
    {
      known := router.Resolve(connection, request, answer);
      if known {
        answeredInTime := answeredInTime
          + set id | id in thread.pendingApprovals && id in routed && routed[id].request == request;
      }
    }

    // handleApprovalRequest after its await.
    method ReplyArrived(id: string)
      requires Enabled(View(), Wake(id))
      modifies this`outstanding, this`handlers
      ensures View() == AfterWake(old(View()), id)
    {
      var outcome := router.outcomes[handlers[id].request];
      outstanding := outstanding - {id};
      var decision := T.Cancelled;
      if outcome.Resolved? && outcome.answer.Decided? {
        if outcome.answer.word in ACCEPTING {
          decision := T.Approved;
        } else if outcome.answer.word in DECLINING {
          decision := T.Denied;
        }
      }
      handlers := handlers[id := Settling(decision, !Readable(outcome))];
    }

    // handleApprovalSettled, for every approval the thread settled since `before`.
    method HandleApprovalsSettled(before: set<string>)
      modifies this`outstanding
      ensures outstanding == old(outstanding) - (before - thread.pendingApprovals.Keys)
    {
      outstanding := outstanding - (before - thread.pendingApprovals.Keys);
    }

    method TellThread(id: string, finding: Finding)
      requires Enabled(View(), Tell(id, finding))
      modifies this`outstanding, this`handlers, thread
      ensures View() == AfterTell(old(View()), id, finding)
    {
      match finding {
        case ThisThread =>
          var before := thread.pendingApprovals.Keys;
          var found := thread.SettleApproval(id, handlers[id].decision);
          HandleApprovalsSettled(before);
          handlers := handlers[id := Finished];
        case AnotherThread =>
          handlers := handlers[id := Finished];
        case Throws =>
          if handlers[id].last {
            handlers := handlers[id := Finished];
          } else {
            outstanding := outstanding - {id};
            handlers := handlers[id := Settling(T.Cancelled, true)];
          }
      }
    }

    method InterruptTurn(only: Option<string>) returns (interrupted: bool)
      modifies this`outstanding, thread
      ensures View() == Next(old(View()), ThreadStep(T.InterruptTurn(only)))
    {
      var before := thread.pendingApprovals.Keys;
      interrupted := thread.Interrupt(only);
      HandleApprovalsSettled(before);
    }

    method RemoveConnection(connection: string)
      modifies this`turnOwners, router
      ensures View() == Next(old(View()), Disconnect(connection))
    {
      router.Remove(connection);
      turnOwners := OwnedByOthers(turnOwners, connection);
    }
  }

  // ---- What every step keeps --------------------------------------------------

  // The reviewer an approval was sent to has answered d.
  predicate Answered(w: World, id: string, d: T.Decision) {
    && id in w.routed
    && w.routed[id].request in w.router.outcomes
    && var outcome := w.router.outcomes[w.routed[id].request];
    && outcome.Resolved?
    && outcome.sender == w.routed[id].reviewer
    && Reading(outcome) == d
  }

  // A request that carried an approval is waiting on its reviewer or has ended, and only
  // that reviewer's response can have ended it with an answer.
  predicate RoutesHold(w: World) {
    forall id :: id in w.routed ==> RouteHolds(w.router, w.routed[id])
  }

  predicate RouteHolds(router: R.Router, route: Route) {
    if route.request in router.pending then router.pending[route.request] == route.reviewer
    else
      && route.request in router.outcomes
      && (router.outcomes[route.request].Resolved? ==> router.outcomes[route.request].sender == route.reviewer)
  }

  // What a handler is about to tell the thread is what the reviewer said.
  predicate HandlersHold(w: World) {
    forall id :: id in w.handlers ==>
      && (w.handlers[id].AwaitingReply? ==> id in w.routed && w.routed[id].request == w.handlers[id].request)
      && (w.handlers[id].Settling? ==>
            || w.handlers[id].decision == T.Cancelled
            || (w.handlers[id].decision != T.TimedOut && Answered(w, id, w.handlers[id].decision)))
  }

  predicate Resolved(router: R.Router, request: string) {
    request in router.outcomes && router.outcomes[request].Resolved?
  }

  // Only a timely answer of the reviewer approves or denies.
  predicate SettlementsHold(w: World) {
    && (forall id :: id in w.thread.settled && w.thread.settled[id] in {T.Approved, T.Denied} ==>
          Answered(w, id, w.thread.settled[id]) && id in w.answeredInTime)
    && (forall id :: id in w.routed && id in w.thread.pending && Resolved(w.router, w.routed[id].request) ==>
          id in w.answeredInTime)
  }

  // Every approval the thread waits on has a handler, and a prompt stays on a reviewer's
  // screen only while the thread is waiting on it.
  predicate DeskHolds(w: World) {
    && (forall id :: id in w.thread.pending ==> id in w.handlers)
    && (forall id :: id in w.handlers ==> id in w.thread.pending || id in w.thread.settled)
    && (forall id :: id in w.routed ==> id in w.thread.pending || id in w.thread.settled)
    && (forall id :: id in w.outstanding ==>
          id in w.thread.pending && id in w.routed && w.outstanding[id] == w.routed[id])
  }

  predicate Sound(w: World) {
    && T.WaitsInOrder(w.thread) && R.OneEnding(w.router)
    && RoutesHold(w) && HandlersHold(w) && SettlementsHold(w) && DeskHolds(w)
  }

  // The thread moves on: it adds no approval, and settles none as approved or denied
  // without the reviewer's timely answer.
  lemma ThreadMovesSoundly(w: World, thread: T.Thread)
    requires Sound(w) && T.WaitsInOrder(thread) && T.Later(w.thread, thread)
    requires thread.pending.Keys <= w.thread.pending.Keys
    requires forall id :: id in thread.settled && thread.settled[id] in {T.Approved, T.Denied} ==>
               Answered(w, id, thread.settled[id]) && id in w.answeredInTime
    ensures Sound(ThreadMoves(w, thread))
  {
  }

  lemma OwnMoveSettlesQuietly(t: T.Thread, s: T.Step, id: string)
    requires T.Enabled(t, s) && Quiet(s)
    requires id in T.Next(t, s).settled && T.Next(t, s).settled[id] in {T.Approved, T.Denied}
    ensures id in t.settled && t.settled[id] == T.Next(t, s).settled[id]
  {
  }

  lemma OwnMoveAsksNothing(t: T.Thread, s: T.Step)
    requires T.Enabled(t, s) && Quiet(s)
    ensures T.Next(t, s).pending.Keys <= t.pending.Keys
  {
  }

  lemma ThreadStepSound(w: World, s: T.Step)
    requires Sound(w) && Quiet(s) && T.Enabled(w.thread, s)
    ensures Sound(ThreadMoves(w, T.Next(w.thread, s)))
  {
    var thread := T.Next(w.thread, s);
    T.WaitsStayInOrder(w.thread, s);
    T.StepIsLater(w.thread, s);
    OwnMoveAsksNothing(w.thread, s);
    forall id | id in thread.settled && thread.settled[id] in {T.Approved, T.Denied}
      ensures Answered(w, id, thread.settled[id]) && id in w.answeredInTime
    {
      OwnMoveSettlesQuietly(w.thread, s, id);
    }
    ThreadMovesSoundly(w, thread);
  }

  lemma LaterKeepsRoute(r: R.Router, s: R.Router, route: Route)
    requires R.Later(r, s) && R.OneEnding(s) && RouteHolds(r, route)
    ensures RouteHolds(s, route)
  {
  }

  lemma LaterKeepsAnswer(w: World, router: R.Router, id: string, d: T.Decision)
    requires R.Later(w.router, router) && Answered(w, id, d)
    ensures Answered(w.(router := router), id, d)
  {
  }

  // The router moves on, and every approval whose request it resolves counts as answered
  // in time if the thread still waits.
  lemma RouterMovesSoundly(w: World, router: R.Router, timely: set<string>)
    requires Sound(w) && R.OneEnding(router) && R.Later(w.router, router)
    requires forall id :: id in w.routed && id in w.thread.pending && Resolved(router, w.routed[id].request) ==>
               Resolved(w.router, w.routed[id].request) || id in timely
    ensures Sound(w.(router := router, answeredInTime := w.answeredInTime + timely))
  {
    var v := w.(router := router, answeredInTime := w.answeredInTime + timely);
    forall id | id in w.routed
      ensures RouteHolds(router, w.routed[id])
    {
      LaterKeepsRoute(w.router, router, w.routed[id]);
    }
    forall id, d | Answered(w, id, d)
      ensures Answered(v, id, d)
    {
      LaterKeepsAnswer(w, router, id, d);
    }
  }

  lemma RespondSound(w: World, connection: string, request: string, answer: R.Answer)
    requires Sound(w)
    ensures Sound(AfterRespond(w, connection, request, answer))
  {
    R.ResponseIsLater(w.router, connection, request, answer);
    var v := AfterRespond(w, connection, request, answer);
    var timely := if !R.Accepts(w.router, connection, request) then {}
                  else set id | id in w.thread.pending && id in w.routed && w.routed[id].request == request;
    RouterMovesSoundly(w, v.router, timely);
  }

  lemma QuietRouterSound(w: World, router: R.Router)
    requires Sound(w) && R.OneEnding(router) && R.Later(w.router, router)
    requires forall request :: Resolved(router, request) ==> Resolved(w.router, request)
    ensures Sound(w.(router := router))
  {
    RouterMovesSoundly(w, router, {});
    assert w.answeredInTime + {} == w.answeredInTime;
  }

  // A new approval goes on the desk, its request having been handed to the router.
  function OnDesk(w: World, id: string, route: Route, shown: bool): World {
    w.(thread := T.AfterRequest(w.thread, id, false),
       outstanding := if shown then w.outstanding[id := route] else w.outstanding,
       handlers := w.handlers[id := AwaitingReply(route.request)],
       routed := w.routed[id := route])
  }

  lemma DeskStaysInOrder(w: World, id: string, route: Route, shown: bool)
    requires Sound(w) && T.Enabled(w.thread, T.AskApproval(id, false)) && T.WouldWait(w.thread, false)
    requires RouteHolds(w.router, route)
    ensures T.WaitsInOrder(OnDesk(w, id, route, shown).thread)
    ensures RoutesHold(OnDesk(w, id, route, shown)) && DeskHolds(OnDesk(w, id, route, shown))
  {
    T.WaitsStayInOrder(w.thread, T.AskApproval(id, false));
    assert id !in w.outstanding;
  }

  lemma DeskKeepsHandlers(w: World, id: string, route: Route, shown: bool)
    requires Sound(w) && id !in w.routed && id !in w.handlers
    ensures HandlersHold(OnDesk(w, id, route, shown))
  {
    hide T.WaitsInOrder, R.OneEnding, RoutesHold, SettlementsHold, DeskHolds, T.AfterRequest;
  }

  lemma DeskKeepsSettlements(w: World, id: string, route: Route, shown: bool)
    requires Sound(w) && T.WouldWait(w.thread, false) && id !in w.routed && !Resolved(w.router, route.request)
    ensures SettlementsHold(OnDesk(w, id, route, shown))
  {
    hide T.WaitsInOrder, R.OneEnding, RoutesHold, HandlersHold, DeskHolds;
  }

  lemma RoutedAskSound(w: World, id: string, route: Route, shown: bool)
    requires Sound(w) && T.Enabled(w.thread, T.AskApproval(id, false)) && T.WouldWait(w.thread, false)
    requires RouteHolds(w.router, route) && !Resolved(w.router, route.request)
    ensures Sound(OnDesk(w, id, route, shown))
  {
    DeskStaysInOrder(w, id, route, shown);
    assert id !in w.routed && id !in w.handlers;
    DeskKeepsHandlers(w, id, route, shown);
    DeskKeepsSettlements(w, id, route, shown);
    hide T.WaitsInOrder, RoutesHold, HandlersHold, SettlementsHold, DeskHolds;
  }

  lemma UnroutedAskSound(w: World, id: string, signalAborted: bool, request: string, sent: bool)
    requires Sound(w) && Enabled(w, Ask(id, signalAborted, request, sent))
    requires T.WouldWait(w.thread, signalAborted) ==> w.thread.active.value.turnId !in w.owners
    ensures Sound(AfterAsk(w, id, signalAborted, request, sent))
  {
    T.WaitsStayInOrder(w.thread, T.AskApproval(id, signalAborted));
    assert id !in w.routed && id !in w.handlers && id !in w.outstanding;
  }

  lemma AskSound(w: World, id: string, signalAborted: bool, request: string, sent: bool)
    requires Sound(w) && Enabled(w, Ask(id, signalAborted, request, sent))
    ensures Sound(AfterAsk(w, id, signalAborted, request, sent))
  {
    if T.WouldWait(w.thread, signalAborted) && w.thread.active.value.turnId in w.owners {
      var route := Route(request, w.owners[w.thread.active.value.turnId]);
      var router := R.Request(w.router, request, route.reviewer, sent);
      R.RequestIsLater(w.router, request, route.reviewer, sent);
      QuietRouterSound(w, router);
      RoutedAskSound(w.(router := router), id, route, request in router.pending);
    } else {
      UnroutedAskSound(w, id, signalAborted, request, sent);
    }
  }

  lemma WakeSound(w: World, id: string)
    requires Sound(w) && Enabled(w, Wake(id))
    ensures Sound(AfterWake(w, id))
  {
    var route := w.routed[id];
    assert RouteHolds(w.router, route);
    assert w.handlers[id].request == route.request;
  }

  lemma TellThisThreadSound(w: World, id: string)
    requires Sound(w) && Enabled(w, Tell(id, ThisThread))
    ensures Sound(ThreadMoves(w, T.Settle(w.thread, id, w.handlers[id].decision)))
  {
    var d := w.handlers[id].decision;
    var thread := T.Settle(w.thread, id, d);
    T.WaitsStayInOrder(w.thread, T.SettleOne(id, d));
    T.StepIsLater(w.thread, T.SettleOne(id, d));
    assert id in w.thread.pending && d in {T.Approved, T.Denied} ==>
        Answered(w, id, d) && Resolved(w.router, w.routed[id].request);
    ThreadMovesSoundly(w, thread);
  }

  lemma PromptGoesSoundly(w: World, id: string)
    requires Sound(w)
    ensures Sound(w.(outstanding := w.outstanding - {id}))
  {
    hide T.WaitsInOrder, R.OneEnding, RouteHolds;
  }

  // Where a handler stands matters only while it has something to tell.
  lemma HandlerMovesSoundly(w: World, id: string, h: Handler)
    requires Sound(w) && id in w.handlers && (h.Finished? || h == Settling(T.Cancelled, true))
    ensures Sound(w.(handlers := w.handlers[id := h]))
    ensures Sound(w.(outstanding := w.outstanding - {id}, handlers := w.handlers[id := h]))
  {
    hide Sound;
    HandlerSteps(w, id, h);
    PromptGoesSoundly(w.(handlers := w.handlers[id := h]), id);
  }

  lemma HandlerSteps(w: World, id: string, h: Handler)
    requires Sound(w) && id in w.handlers && (h.Finished? || h == Settling(T.Cancelled, true))
    ensures Sound(w.(handlers := w.handlers[id := h]))
  {
    hide T.WaitsInOrder, R.OneEnding, RouteHolds;
  }

  lemma TellSound(w: World, id: string, finding: Finding)
    requires Sound(w) && Enabled(w, Tell(id, finding))
    ensures Sound(AfterTell(w, id, finding))
  {
    if finding.ThisThread? {
      TellThisThreadSound(w, id);
      HandlerMovesSoundly(ThreadMoves(w, T.Settle(w.thread, id, w.handlers[id].decision)), id, Finished);
    } else {
      HandlerMovesSoundly(w, id, Finished);
      HandlerMovesSoundly(w, id, Settling(T.Cancelled, true));
    }
  }

  lemma ReachSound(w: World, call: string, blankPrompt: bool)
    requires Sound(w) && call in w.starts
    ensures Sound(AfterReachThread(w, call, blankPrompt))
  {
    ThreadStepSound(w, T.Start(w.starts[call].turnId, blankPrompt));
  }

  predicate MovesRouter(s: Step) {
    s.RequestTimesOut? || s.OtherRequest? || s.Connect? || s.Disconnect? || s.Shutdown?
  }

  lemma RouterStepSound(w: World, s: Step)
    requires Sound(w) && Enabled(w, s) && MovesRouter(s)
    ensures Sound(w.(router := Next(w, s).router))
  {
    hide T.WaitsInOrder, RoutesHold, HandlersHold, SettlementsHold, DeskHolds;
    match s
    case RequestTimesOut(request) =>
      R.TimeOutIsLater(w.router, request);
      QuietRouterSound(w, R.TimeOut(w.router, request));
    case OtherRequest(request, connection, sent) =>
      R.RequestIsLater(w.router, request, connection, sent);
      QuietRouterSound(w, R.Request(w.router, request, connection, sent));
    case Connect(connection) => QuietRouterSound(w, R.AddConnection(w.router, connection));
    case Disconnect(connection) =>
      R.RemovalIsLater(w.router, connection);
      QuietRouterSound(w, R.RemoveConnection(w.router, connection));
    case Shutdown =>
      R.ClosingIsLater(w.router);
      QuietRouterSound(w, R.CloseAll(w.router));
  }

  // Who owns a turn, and which requests to start one are about, does not matter to this.
  lemma OwnersMoveSoundly(w: World, owners: map<string, string>, starts: map<string, Start>)
    requires Sound(w)
    ensures Sound(w.(owners := owners, starts := starts))
  {
    hide T.WaitsInOrder, R.OneEnding, RouteHolds;
  }

  lemma StepSound(w: World, s: Step)
    requires Sound(w) && Enabled(w, s)
    ensures Sound(Next(w, s))
  {
    hide Sound;
    if MovesRouter(s) {
      var moved := w.(router := Next(w, s).router);
      RouterStepSound(w, s);
      OwnersMoveSoundly(moved, Next(w, s).owners, w.starts);
      return;
    }
    OwnersMoveSoundly(w, Next(w, s).owners, Next(w, s).starts);
    match s
    case ThreadStep(step) => ThreadStepSound(w, step);
    case Ask(id, signalAborted, request, sent) => AskSound(w, id, signalAborted, request, sent);
    case Respond(connection, request, answer) => RespondSound(w, connection, request, answer);
    case ReachThread(call, blank) => ReachSound(w, call, blank);
    case Wake(id) => WakeSound(w, id);
    case Tell(id, finding) => TellSound(w, id, finding);
    case _ =>
  }

  // ---- Whole runs -------------------------------------------------------------

  predicate Run(w: World, steps: seq<Step>, v: World)
    decreases steps
  {
    if steps == [] then w == v
    else Enabled(w, steps[0]) && Run(Next(w, steps[0]), steps[1..], v)
  }

  lemma RouterStepIsLater(w: World, s: Step)
    requires R.OneEnding(w.router) && Enabled(w, s)
    ensures R.Later(w.router, Next(w, s).router)
  {
    match s
    case Ask(_, _, request, sent) =>
      if w.thread.active.Some? && w.thread.active.value.turnId in w.owners {
        R.RequestIsLater(w.router, request, w.owners[w.thread.active.value.turnId], sent);
      }
    case Respond(connection, request, answer) => R.ResponseIsLater(w.router, connection, request, answer);
    case RequestTimesOut(request) => R.TimeOutIsLater(w.router, request);
    case OtherRequest(request, connection, sent) => R.RequestIsLater(w.router, request, connection, sent);
    case Disconnect(connection) => R.RemovalIsLater(w.router, connection);
    case Shutdown => R.ClosingIsLater(w.router);
    case _ =>
  }

  lemma ThreadStepIsLater(w: World, s: Step)
    requires T.WaitsInOrder(w.thread) && Enabled(w, s)
    ensures T.Later(w.thread, Next(w, s).thread)
  {
    hide T.AfterStart, T.AfterSave, T.AfterInterrupt, T.AfterAbort, T.AfterRunner, T.AfterClose, T.AfterRequest, T.Settle;
    match s
    case ThreadStep(step) => T.StepIsLater(w.thread, step);
    case Ask(id, signalAborted, _, _) => T.StepIsLater(w.thread, T.AskApproval(id, signalAborted));
    case ReachThread(call, blank) => T.StepIsLater(w.thread, T.Start(w.starts[call].turnId, blank));
    case Tell(id, finding) => T.StepIsLater(w.thread, T.SettleOne(id, w.handlers[id].decision));
    case _ =>
  }

  // Whatever happens next, settlements stay what they are, and a request that has ended,
  // or was sent to one connection, is not ended again or by another.
  lemma {:induction false} RunStaysSound(w: World, steps: seq<Step>, v: World)
    requires Sound(w) && Run(w, steps, v)
    ensures Sound(v) && T.Later(w.thread, v.thread) && R.Later(w.router, v.router)
    decreases steps
  {
    if steps != [] {
      var next := Next(w, steps[0]);
      StepSound(w, steps[0]);
      ThreadStepIsLater(w, steps[0]);
      RouterStepIsLater(w, steps[0]);
      RunStaysSound(next, steps[1..], v);
      T.LaterIsTransitive(w.thread, next.thread, v.thread);
      R.LaterIsTransitive(w.router, next.router, v.router);
    }
  }

  // An approval settles once: whatever happens after it has settled, a late answer among
  // it, the decision stays.
  lemma SettledForGood(before: seq<Step>, w: World, after: seq<Step>, v: World, id: string)
    requires Run(NEW_WORLD, before, w) && Run(w, after, v) && id in w.thread.settled
    ensures id in v.thread.settled && v.thread.settled[id] == w.thread.settled[id] && id !in v.thread.pending
  {
    RunStaysSound(NEW_WORLD, before, w);
    RunStaysSound(w, after, v);
  }

  // The reviewer's response, as the router keeps it, is this word.
  predicate Replied(w: World, id: string, word: string) {
    && id in w.routed && id in w.answeredInTime
    && w.routed[id].request in w.router.outcomes
    && w.router.outcomes[w.routed[id].request] == R.Resolved(w.routed[id].reviewer, R.Decided(word))
  }

  lemma AnsweredByWord(w: World, id: string, d: T.Decision)
    requires Answered(w, id, d) && id in w.answeredInTime
    ensures d == T.Approved ==>
              Replied(w, id, "accept") || Replied(w, id, "acceptForSession") || Replied(w, id, "approved")
    ensures d == T.Denied ==> Replied(w, id, "decline") || Replied(w, id, "denied")
  {
    var outcome := w.router.outcomes[w.routed[id].request];
    if d != T.Cancelled {
      assert outcome == R.Resolved(w.routed[id].reviewer, R.Decided(outcome.answer.word));
    }
  }

  // An approval is granted only if the connection it was sent to, the owner of the turn at
  // that moment, answered "accept", "acceptForSession" or "approved" while the thread was still
  // waiting, and denied only if it answered "decline" or "denied".
  lemma OnlyTheReviewerApproves(steps: seq<Step>, w: World, id: string)
    requires Run(NEW_WORLD, steps, w) && id in w.thread.settled
    ensures w.thread.settled[id] == T.Approved ==>
              Replied(w, id, "accept") || Replied(w, id, "acceptForSession") || Replied(w, id, "approved")
    ensures w.thread.settled[id] == T.Denied ==> Replied(w, id, "decline") || Replied(w, id, "denied")
  {
    RunStaysSound(NEW_WORLD, steps, w);
    assert SettlementsHold(w);
    hide Sound, Run, Replied, Answered;
    if w.thread.settled[id] in {T.Approved, T.Denied} {
      AnsweredByWord(w, id, w.thread.settled[id]);
    }
  }

  // An approval is routed once, when it is asked for: to the connection that owns its turn
  // at that moment.
  lemma RoutedToTheOwner(w: World, s: Step, id: string)
    requires Sound(w) && Enabled(w, s) && id in Next(w, s).routed
    ensures id in w.routed ==> Next(w, s).routed[id] == w.routed[id]
    ensures id !in w.routed ==>
              && id in Next(w, s).thread.pending
              && Next(w, s).thread.pending[id] in w.owners
              && Next(w, s).routed[id].reviewer == w.owners[Next(w, s).thread.pending[id]]
  {
    hide Next, Enabled;
    if s.Ask? {
      AskRoutes(w, s, id);
    } else {
      OnlyAskRoutes(w, s);
    }
  }

  lemma OnlyAskRoutes(w: World, s: Step)
    requires Enabled(w, s) && !s.Ask?
    ensures Next(w, s).routed == w.routed
  {
  }

  lemma RoutedOnce(w: World)
    requires Sound(w)
    ensures forall id :: id in w.routed ==> id in w.thread.pending || id in w.thread.settled
  {
  }

  lemma AskRoutes(w: World, s: Step, id: string)
    requires Sound(w) && Enabled(w, s) && s.Ask? && id in Next(w, s).routed
    ensures id in w.routed ==> Next(w, s).routed[id] == w.routed[id]
    ensures id !in w.routed ==>
              && id in Next(w, s).thread.pending
              && Next(w, s).thread.pending[id] in w.owners
              && Next(w, s).routed[id].reviewer == w.owners[Next(w, s).thread.pending[id]]
  {
    hide Sound, R.Request;
    RoutedOnce(w);
  }

  // When no turn is running, every approval that was ever asked for has been settled and
  // no prompt is left on any screen.
  lemma NothingIsLeftWaiting(steps: seq<Step>, w: World)
    requires Run(NEW_WORLD, steps, w) && w.thread.active.None?
    ensures forall id :: id in w.handlers ==> id in w.thread.settled
    ensures w.outstanding == map[]
  {
    RunStaysSound(NEW_WORLD, steps, w);
    assert forall id :: id !in w.outstanding;
  }

  // A prompt on a screen belongs to an approval the thread is waiting on, and shows the
  // request that went to its reviewer.
  lemma PromptsAreLive(steps: seq<Step>, w: World, id: string)
    requires Run(NEW_WORLD, steps, w) && id in w.outstanding
    ensures id in w.thread.pending && id !in w.thread.settled
    ensures w.thread.active.Some? && w.thread.pending[id] == w.thread.active.value.turnId
    ensures id in w.routed && w.outstanding[id] == w.routed[id]
  {
    RunStaysSound(NEW_WORLD, steps, w);
  }

  lemma {:induction false} RunInParts(w: World, before: seq<Step>, u: World, after: seq<Step>, v: World)
    requires Run(w, before, u)
    ensures Run(w, before + after, v) <==> Run(u, after, v)
    decreases before
  {
    if before == [] {
      assert before + after == after;
    } else {
      assert (before + after)[1..] == before[1..] + after;
      RunInParts(Next(w, before[0]), before[1..], u, after, v);
    }
  }

  // Nobody can answer for somebody else: a response from a connection the request was not
  // sent to, or to a request that has ended, can be put into a run at any point or left out
  // of it, and the run ends the same.
  lemma ForeignAnswersChangeNothing(before: seq<Step>, u: World, connection: string, request: string,
                                    answer: R.Answer, after: seq<Step>, v: World)
    requires Run(NEW_WORLD, before, u)
    requires request in u.router.pending ==> u.router.pending[request] != connection
    ensures Run(NEW_WORLD, before + ([Respond(connection, request, answer)] + after), v)
       <==> Run(NEW_WORLD, before + after, v)
  {
    var s := Respond(connection, request, answer);
    assert u.answeredInTime + {} == u.answeredInTime;
    assert Next(u, s) == u;
    assert ([s] + after)[0] == s && ([s] + after)[1..] == after;
    RunInParts(NEW_WORLD, before, u, [s] + after, v);
    RunInParts(NEW_WORLD, before, u, after, v);
  }

  // ---- Whose turn it is -------------------------------------------------------

  predicate Owns(w: World, turnId: string, c: string) {
    turnId in w.owners && w.owners[turnId] == c
  }

  predicate Claims(s: Step, turnId: string, c: string) {
    s.RequestStart? && s.turnId == turnId && s.connection == c
  }

  // Takes the turn from c if c has it: a request of another connection to start it, any
  // refusal to, the end of c's own, and c's disconnect.
  predicate Releases(s: Step, turnId: string, c: string) {
    || (s.RequestStart? && s.turnId == turnId && s.connection != c)
    || (s.RefusalLands? && s.turnId == turnId)
    || (s.EndLands? && s.turnId == turnId && s.connection == c)
    || s == Disconnect(c)
  }

  predicate KeptFrom(steps: seq<Step>, k: nat, turnId: string, c: string) {
    forall j :: k <= j < |steps| ==> !Releases(steps[j], turnId, c)
  }

  // Some step claims the turn for c, and no later one takes it away.
  predicate ClaimedForGood(steps: seq<Step>, turnId: string, c: string) {
    exists k :: 0 <= k < |steps| && Claims(steps[k], turnId, c) && KeptFrom(steps, k + 1, turnId, c)
  }

  lemma OwnerMoves(w: World, s: Step, turnId: string, c: string)
    requires Enabled(w, s)
    ensures Owns(Next(w, s), turnId, c) <==> Claims(s, turnId, c) || (Owns(w, turnId, c) && !Releases(s, turnId, c))
  {
    hide T.Next, T.AfterStart, T.AfterRequest, T.Settle, R.Request, R.ResolveResponse, R.TimeOut, R.RemoveConnection, R.CloseAll;
  }

  lemma KeptLater(steps: seq<Step>, k: nat, turnId: string, c: string)
    requires steps != []
    ensures KeptFrom(steps, k + 1, turnId, c) <==> KeptFrom(steps[1..], k, turnId, c)
  {
    assert forall j :: 0 <= j < |steps| - 1 ==> steps[1..][j] == steps[j + 1];
    if KeptFrom(steps[1..], k, turnId, c) {
      forall j | k + 1 <= j < |steps|
        ensures !Releases(steps[j], turnId, c)
      {
        assert !Releases(steps[1..][j - 1], turnId, c);
      }
    }
  }

  lemma ClaimedLater(steps: seq<Step>, turnId: string, c: string)
    requires steps != []
    ensures ClaimedForGood(steps, turnId, c)
       <==> ClaimedForGood(steps[1..], turnId, c) || (Claims(steps[0], turnId, c) && KeptFrom(steps[1..], 0, turnId, c))
  {
    var rest := steps[1..];
    if ClaimedForGood(rest, turnId, c) {
      var k :| 0 <= k < |rest| && Claims(rest[k], turnId, c) && KeptFrom(rest, k + 1, turnId, c);
      KeptLater(steps, k + 1, turnId, c);
      assert Claims(steps[k + 1], turnId, c) && KeptFrom(steps, k + 2, turnId, c);
    }
    if Claims(steps[0], turnId, c) && KeptFrom(rest, 0, turnId, c) {
      KeptLater(steps, 0, turnId, c);
      assert Claims(steps[0], turnId, c) && KeptFrom(steps, 1, turnId, c);
    }
    if ClaimedForGood(steps, turnId, c) {
      var k :| 0 <= k < |steps| && Claims(steps[k], turnId, c) && KeptFrom(steps, k + 1, turnId, c);
      KeptLater(steps, k, turnId, c);
      if k > 0 {
        assert Claims(rest[k - 1], turnId, c) && KeptFrom(rest, k, turnId, c);
      }
    }
  }

  // After any run c owns the turn exactly if some step claimed it for c, or c owned it to
  // begin with, and none has taken it away since.
  lemma {:induction false} OwnerExactly(w: World, steps: seq<Step>, v: World, turnId: string, c: string)
    requires Run(w, steps, v)
    ensures Owns(v, turnId, c)
       <==> ClaimedForGood(steps, turnId, c) || (Owns(w, turnId, c) && KeptFrom(steps, 0, turnId, c))
    decreases steps
  {
    if steps != [] {
      var next := Next(w, steps[0]);
      hide Next, Enabled, Releases, Claims;
      OwnerMoves(w, steps[0], turnId, c);
      OwnerExactly(next, steps[1..], v, turnId, c);
      ClaimedLater(steps, turnId, c);
      KeptLater(steps, 0, turnId, c);
      assert KeptFrom(steps, 0, turnId, c) <==> !Releases(steps[0], turnId, c) && KeptFrom(steps, 1, turnId, c);
    }
  }

  // The request that started the turn now running.
  predicate Started(w: World, call: string) {
    && call in w.starts && w.starts[call].phase == Running(|w.thread.outcomes|)
    && w.thread.active.Some? && w.starts[call].turnId == w.thread.active.value.turnId
  }

  // Requests that run are turns the thread took, each its own; the one of the running turn
  // is still there.
  ghost predicate StartsHold(w: World) {
    && T.TurnsInOrder(w.thread)
    && (forall call :: call in w.starts && w.starts[call].phase.Running? ==>
          var nth := w.starts[call].phase.nth;
          nth < |w.thread.accepted| && w.thread.accepted[nth] == w.starts[call].turnId)
    && (w.thread.active.Some? ==> exists call :: Started(w, call))
  }

  // A thread's own move takes no turn; it may end one.
  lemma OwnMoveStartsNothing(t: T.Thread, s: T.Step)
    requires T.Enabled(t, s) && !s.Start?
    ensures T.Next(t, s).accepted == t.accepted
    ensures T.Next(t, s).active.Some? ==>
              && t.active.Some? && T.Next(t, s).active.value.turnId == t.active.value.turnId
              && T.Next(t, s).outcomes == t.outcomes
  {
  }

  lemma ThreadMoveKeepsStarts(w: World, s: T.Step, v: World)
    requires StartsHold(w) && T.Enabled(w.thread, s) && !s.Start?
    requires v.thread == T.Next(w.thread, s) && v.starts == w.starts
    ensures StartsHold(v)
  {
    T.TurnsStayInOrder(w.thread, s);
    OwnMoveStartsNothing(w.thread, s);
    if v.thread.active.Some? {
      var call :| Started(w, call);
      assert Started(v, call);
    }
  }

  lemma StartKeepsStarts(w: World, call: string, blankPrompt: bool)
    requires StartsHold(w) && Enabled(w, ReachThread(call, blankPrompt))
    ensures StartsHold(AfterReachThread(w, call, blankPrompt))
  {
    var v := AfterReachThread(w, call, blankPrompt);
    T.StartKeepsOrder(w.thread, w.starts[call].turnId, blankPrompt);
    if T.StartRefusal(w.thread, blankPrompt).None? {
      assert |w.thread.accepted| == |w.thread.outcomes|;
      assert Started(v, call);
    } else if w.thread.active.Some? {
      var c :| Started(w, c);
      assert Started(v, c);
    }
  }

  // The rest leaves the thread and running requests alone, save those whose turn is over.
  lemma OtherStepKeepsStarts(w: World, v: World)
    requires StartsHold(w) && v.thread == w.thread
    requires forall call :: call in v.starts && v.starts[call].phase.Running? ==> call in w.starts && v.starts[call] == w.starts[call]
    requires forall call :: call in w.starts && w.starts[call].phase == Running(|w.thread.outcomes|) ==>
               call in v.starts && v.starts[call] == w.starts[call]
    ensures StartsHold(v)
  {
    if v.thread.active.Some? {
      var call :| Started(w, call);
      assert Started(v, call);
    }
  }

  predicate LeavesThread(s: Step) {
    !s.ThreadStep? && !s.Ask? && !s.ReachThread? && !s.Tell?
  }

  lemma DeskStepKeepsStarts(w: World, s: Step)
    requires StartsHold(w) && Enabled(w, s) && LeavesThread(s)
    ensures StartsHold(Next(w, s))
  {
    hide StartsHold, R.Request, R.ResolveResponse, R.TimeOut, R.RemoveConnection, R.CloseAll, OwnedByOthers;
    OtherStepKeepsStarts(w, Next(w, s));
  }

  lemma TellKeepsStarts(w: World, id: string, finding: Finding)
    requires StartsHold(w) && Enabled(w, Tell(id, finding))
    ensures StartsHold(AfterTell(w, id, finding))
  {
    hide StartsHold;
    if finding.ThisThread? {
      ThreadMoveKeepsStarts(w, T.SettleOne(id, w.handlers[id].decision), AfterTell(w, id, finding));
    } else {
      OtherStepKeepsStarts(w, AfterTell(w, id, finding));
    }
  }

  lemma AskKeepsStarts(w: World, s: Step)
    requires StartsHold(w) && Enabled(w, s) && s.Ask?
    ensures StartsHold(Next(w, s))
  {
    hide StartsHold, R.Request;
    ThreadMoveKeepsStarts(w, T.AskApproval(s.id, s.signalAborted), Next(w, s));
  }

  lemma StepKeepsStarts(w: World, s: Step)
    requires StartsHold(w) && Enabled(w, s)
    ensures StartsHold(Next(w, s))
  {
    hide StartsHold;
    if LeavesThread(s) {
      DeskStepKeepsStarts(w, s);
    } else if s.Ask? {
      AskKeepsStarts(w, s);
    } else if s.Tell? {
      TellKeepsStarts(w, s.id, s.finding);
    } else if s.ReachThread? {
      StartKeepsStarts(w, s.call, s.blankPrompt);
    } else {
      ThreadMoveKeepsStarts(w, s.step, Next(w, s));
    }
  }

  lemma {:induction false} RunKeepsStarts(w: World, steps: seq<Step>, v: World)
    requires StartsHold(w) && Run(w, steps, v)
    ensures StartsHold(v)
    decreases steps
  {
    if steps != [] {
      StepKeepsStarts(w, steps[0]);
      RunKeepsStarts(Next(w, steps[0]), steps[1..], v);
    }
  }

  // While a turn runs there is a request that started it. Its connection is shown the turn's
  // next approval exactly if, since the last time it asked to start that turn, no other
  // connection has asked to, no request to has been refused, and it has not disconnected.
  lemma StarterIsAsked(steps: seq<Step>, w: World, id: string, request: string, sent: bool)
    requires Run(NEW_WORLD, steps, w) && T.WouldWait(w.thread, false)
    requires Enabled(w, Ask(id, false, request, sent)) && id !in w.routed
    ensures exists call :: Started(w, call)
    ensures var turnId := w.thread.active.value.turnId;
            var asked := Next(w, Ask(id, false, request, sent));
            forall call :: Started(w, call) ==>
              var c := w.starts[call].connection;
              (id in asked.routed && asked.routed[id].reviewer == c <==> ClaimedForGood(steps, turnId, c))
  {
    RunKeepsStarts(NEW_WORLD, steps, w);
    var turnId := w.thread.active.value.turnId;
    forall call | Started(w, call)
      ensures Owns(w, turnId, w.starts[call].connection) <==> ClaimedForGood(steps, turnId, w.starts[call].connection)
    {
      OwnerExactly(NEW_WORLD, steps, w, turnId, w.starts[call].connection);
    }
  }

  // A second request to start the running turn, by anybody, is refused, and that leaves the
  // turn without an owner: its next approval is cancelled and shown to nobody.
  lemma RefusedStartLosesTheOwner(w: World, call: string, other: string, blank: bool,
                                  id: string, request: string, sent: bool) returns (v: World)
    requires T.WouldWait(w.thread, false) && call !in w.starts
    requires Enabled(w, Ask(id, false, request, sent)) && id !in w.routed
    ensures var turnId := w.thread.active.value.turnId;
            Run(w, [RequestStart(call, other, turnId), ReachThread(call, blank), RefusalLands(call, turnId)], v)
    ensures v.thread == w.thread && w.thread.active.value.turnId !in v.owners
    ensures Enabled(v, Ask(id, false, request, sent))
    ensures var asked := Next(v, Ask(id, false, request, sent));
            asked.handlers[id] == Settling(T.Cancelled, true) && id !in asked.routed && asked.outstanding == w.outstanding
  {
    var turnId := w.thread.active.value.turnId;
    v := w.(owners := w.owners[turnId := other] - {turnId},
            starts := w.starts[call := Start(other, turnId, Refused)] - {call});
    SecondStartIsRefused(w, call, other, turnId, blank);
    UnownedAskIsCancelled(v, id, request, sent);
  }

  lemma SecondStartIsRefused(w: World, call: string, other: string, turnId: string, blank: bool)
    requires w.thread.active.Some? && call !in w.starts
    ensures Run(w, [RequestStart(call, other, turnId), ReachThread(call, blank), RefusalLands(call, turnId)],
                w.(owners := w.owners[turnId := other] - {turnId},
                   starts := w.starts[call := Start(other, turnId, Refused)] - {call}))
  {
    var one := AfterRequestStart(w, call, other, turnId);
    var two := one.(starts := w.starts[call := Start(other, turnId, Refused)]);
    var v := w.(owners := w.owners[turnId := other] - {turnId}, starts := two.starts - {call});
    hide Next, Enabled;
    StartIsRequested(w, call, other, turnId);
    RunningTurnRefuses(one, call, blank);
    assert one.starts[call := Start(other, turnId, Refused)] == two.starts;
    RefusalIsLanded(two, call, turnId);
    ThreeSteps(w, RequestStart(call, other, turnId), one, ReachThread(call, blank), two, RefusalLands(call, turnId), v);
  }

  lemma StartIsRequested(w: World, call: string, connection: string, turnId: string)
    requires call !in w.starts
    ensures Enabled(w, RequestStart(call, connection, turnId))
    ensures Next(w, RequestStart(call, connection, turnId)) == AfterRequestStart(w, call, connection, turnId)
  {
  }

  lemma RefusalIsLanded(w: World, call: string, turnId: string)
    requires call in w.starts && w.starts[call].turnId == turnId && w.starts[call].phase.Refused?
    ensures Enabled(w, RefusalLands(call, turnId))
    ensures Next(w, RefusalLands(call, turnId)) == w.(owners := w.owners - {turnId}, starts := w.starts - {call})
  {
  }

  // The thread refuses every start while a turn runs, and is as before.
  lemma RunningTurnRefuses(w: World, call: string, blank: bool)
    requires w.thread.active.Some? && call in w.starts && w.starts[call].phase.Reaching?
    ensures Enabled(w, ReachThread(call, blank))
    ensures Next(w, ReachThread(call, blank)) == w.(starts := w.starts[call := w.starts[call].(phase := Refused)])
  {
    assert T.StartRefusal(w.thread, blank).Some?;
    assert w.thread.pending.Keys - w.thread.pending.Keys == {};
    assert w.outstanding - {} == w.outstanding;
  }

  lemma UnownedAskIsCancelled(v: World, id: string, request: string, sent: bool)
    requires T.WouldWait(v.thread, false) && v.thread.active.value.turnId !in v.owners
    requires Enabled(v, Ask(id, false, request, sent)) && id !in v.routed
    ensures var asked := Next(v, Ask(id, false, request, sent));
            && id in asked.handlers && asked.handlers[id] == Settling(T.Cancelled, true)
            && id !in asked.routed && asked.outstanding == v.outstanding
  {
  }

  lemma ThreeSteps(w: World, s: Step, u: World, t: Step, v: World, r: Step, x: World)
    requires Enabled(w, s) && Next(w, s) == u && Enabled(u, t) && Next(u, t) == v && Enabled(v, r) && Next(v, r) == x
    ensures Run(w, [s, t, r], x)
  {
    hide Enabled, Next;
    assert [s, t, r][1..] == [t, r] && [t, r][1..] == [r] && [r][1..] == [];
    assert Run(x, [], x);
    assert Run(v, [r], x);
    assert Run(u, [t, r], x);
  }

  // ---- What an answer comes to ------------------------------------------------

  // The decision an answer stands for, word by word.
  predicate Means(answer: R.Answer, d: T.Decision) {
    match d
    case Approved => answer in {R.Decided("accept"), R.Decided("acceptForSession"), R.Decided("approved")}
    case Denied => answer in {R.Decided("decline"), R.Decided("denied")}
    case Cancelled => answer.ErrorReply? || answer.Malformed?
                      || answer.word !in {"accept", "acceptForSession", "approved", "decline", "denied"}
    case TimedOut => false
  }

  // An answer the schema does not know: the handler's own attempt to cancel is the last.
  predicate Unknown(answer: R.Answer) {
    answer.Malformed?
    || (answer.Decided? && answer.word !in {"accept", "acceptForSession", "approved", "decline", "denied",
                                            "cancel", "cancelled"})
  }

  lemma EveryAnswerMeansOneThing(answer: R.Answer, d: T.Decision, e: T.Decision)
    ensures Means(answer, T.Approved) || Means(answer, T.Denied) || Means(answer, T.Cancelled)
    ensures Means(answer, d) && Means(answer, e) ==> d == e
  {
  }

  lemma WakeReads(w: World, id: string)
    requires Enabled(w, Wake(id))
    ensures var v := Next(w, Wake(id));
            && v == w.(outstanding := w.outstanding - {id}, handlers := w.handlers[id := v.handlers[id]])
            && v.handlers[id].Settling?
            && match w.router.outcomes[w.handlers[id].request]
               case Resolved(_, answer) => Means(answer, v.handlers[id].decision) && v.handlers[id].last == Unknown(answer)
               case Rejected(_) => v.handlers[id] == Settling(T.Cancelled, true)
  {
  }

  // What the handler tells settles the approval if the thread still waits on it, and nothing
  // if not; if telling fails, the handler tries once more, to cancel.
  lemma TellSettles(w: World, id: string, finding: Finding)
    requires Enabled(w, Tell(id, finding))
    ensures var v := Next(w, Tell(id, finding));
            var h := w.handlers[id];
            match finding
            case ThisThread =>
              && v == w.(thread := v.thread, outstanding := v.outstanding, handlers := w.handlers[id := Finished])
              && (if id in w.thread.pending
                  then v.thread == w.thread.(pending := w.thread.pending - {id}, settled := w.thread.settled[id := h.decision])
                       && v.outstanding == w.outstanding - {id}
                  else v.thread == w.thread && v.outstanding == w.outstanding)
            case AnotherThread => v == w.(handlers := w.handlers[id := Finished])
            case Throws =>
              if h.last then v == w.(handlers := w.handlers[id := Finished])
              else v == w.(outstanding := w.outstanding - {id}, handlers := w.handlers[id := Settling(T.Cancelled, true)])
  {
    if finding.ThisThread? && id in w.thread.pending {
      assert w.thread.pending.Keys - (w.thread.pending - {id}).Keys == {id};
    } else if finding.ThisThread? {
      assert w.thread.pending.Keys - w.thread.pending.Keys == {};
      assert w.outstanding - {} == w.outstanding;
    }
  }

  // The reviewer's response reaches the router while the thread waits.
  lemma TimelyResponse(w: World, id: string, answer: R.Answer)
    requires Sound(w) && id in w.thread.pending && id in w.handlers && w.handlers[id].AwaitingReply?
    requires w.handlers[id].request in w.router.pending
    ensures var request := w.handlers[id].request;
            var u := Next(w, Respond(w.router.pending[request], request, answer));
            && id in w.routed && w.routed[id] == Route(request, w.router.pending[request])
            && u == w.(router := u.router, answeredInTime := u.answeredInTime) && id in u.answeredInTime
            && Enabled(u, Wake(id)) && u.router.outcomes[request] == R.Resolved(w.router.pending[request], answer)
  {
    assert RouteHolds(w.router, w.routed[id]);
  }

  // A timely answer goes through, word by word: unless something else settles the approval
  // first, the thread settles it as the reviewer said, and nothing else about it changes.
  lemma TimelyAnswersCount(steps: seq<Step>, w: World, id: string, answer: R.Answer) returns (d: T.Decision, v: World)
    requires Run(NEW_WORLD, steps, w) && id in w.thread.pending && id in w.handlers && w.handlers[id].AwaitingReply?
    requires w.handlers[id].request in w.router.pending
    ensures Means(answer, d)
    ensures var request := w.handlers[id].request;
            var reviewer := w.router.pending[request];
            && id in w.routed && w.routed[id] == Route(request, reviewer)
            && Run(w, [Respond(reviewer, request, answer), Wake(id), Tell(id, ThisThread)], v)
            && v.thread == w.thread.(pending := w.thread.pending - {id}, settled := w.thread.settled[id := d])
            && request in v.router.outcomes && v.router.outcomes[request] == R.Resolved(reviewer, answer)
            && id in v.answeredInTime && id in v.handlers && v.handlers[id] == Finished && id !in v.outstanding
  {
    RunStaysSound(NEW_WORLD, steps, w);
    d, v := AnswerGoesThrough(w, id, answer);
  }

  lemma AnswerGoesThrough(w: World, id: string, answer: R.Answer) returns (d: T.Decision, v: World)
    requires Sound(w) && id in w.thread.pending && id in w.handlers && w.handlers[id].AwaitingReply?
    requires w.handlers[id].request in w.router.pending
    ensures Means(answer, d)
    ensures var request := w.handlers[id].request;
            var reviewer := w.router.pending[request];
            && id in w.routed && w.routed[id] == Route(request, reviewer)
            && Run(w, [Respond(reviewer, request, answer), Wake(id), Tell(id, ThisThread)], v)
            && v.thread == w.thread.(pending := w.thread.pending - {id}, settled := w.thread.settled[id := d])
            && request in v.router.outcomes && v.router.outcomes[request] == R.Resolved(reviewer, answer)
            && id in v.answeredInTime && id in v.handlers && v.handlers[id] == Finished && id !in v.outstanding
  {
    hide Next, Enabled, Means;
    TimelyResponse(w, id, answer);
    hide Sound;
    var reply := Respond(w.router.pending[w.handlers[id].request], w.handlers[id].request, answer);
    Responds(w, reply);
    var u := Next(w, reply);
    WakeReads(u, id);
    var x := Next(u, Wake(id));
    WokenTells(u, id);
    TellSettles(x, id, ThisThread);
    d, v := x.handlers[id].decision, Next(x, Tell(id, ThisThread));
    ThreeSteps(w, reply, u, Wake(id), x, Tell(id, ThisThread), v);
  }

  lemma Responds(w: World, s: Step)
    ensures s.Respond? ==> Enabled(w, s)
  {
  }

  lemma WokenTells(w: World, id: string)
    requires Enabled(w, Wake(id))
    ensures Enabled(Next(w, Wake(id)), Tell(id, ThisThread)) && id in Next(w, Wake(id)).handlers
  {
  }

  // What becomes of an approval the agent asks for: it is cancelled at once if no turn waits
  // for it, it is to be cancelled if the turn has no owner, and it is sent to the owner if it
  // has one; the prompt is on the owner's screen if the owner took the message.
  lemma AskGoesToTheOwner(w: World, id: string, signalAborted: bool, request: string, sent: bool)
    requires Enabled(w, Ask(id, signalAborted, request, sent))
    ensures var v := Next(w, Ask(id, signalAborted, request, sent));
            match w.thread.active
            case None => v == w.(thread := w.thread.(settled := w.thread.settled[id := T.Cancelled]))
            case Some(active) =>
              if active.abort.Some? || signalAborted
              then v == w.(thread := w.thread.(settled := w.thread.settled[id := T.Cancelled]))
              else
                && v.thread == w.thread.(pending := w.thread.pending[id := active.turnId])
                && if active.turnId !in w.owners
                   then v == w.(thread := v.thread, handlers := w.handlers[id := Settling(T.Cancelled, true)])
                   else
                     var owner := w.owners[active.turnId];
                     && v.routed == w.routed[id := Route(request, owner)]
                     && v.handlers == w.handlers[id := AwaitingReply(request)]
                     && v.owners == w.owners && v.starts == w.starts && v.answeredInTime == w.answeredInTime
                     && R.SameBut(w.router, v.router, {request})
                     && if owner in w.router.connections && sent
                        then request in v.router.pending && v.router.pending[request] == owner
                             && v.outstanding == w.outstanding[id := Route(request, owner)]
                        else R.Ended(v.router, request, R.Rejected(if owner in w.router.connections then R.NotSent
                                                                   else R.NotConnected))
                             && v.outstanding == w.outstanding
  {
  }

  // Where a request to start a turn goes from step to step. It owns the turn from the start; the
  // thread refuses it exactly for a blank prompt, on a closed thread and while a turn runs. On
  // a thread that is not loaded here it runs elsewhere, and if there is none it is refused.
  lemma StartGoesOn(w: World, call: string, connection: string, turnId: string, blank: bool, found: bool)
    ensures Enabled(w, RequestStart(call, connection, turnId)) ==>
              Next(w, RequestStart(call, connection, turnId))
                == w.(owners := w.owners[turnId := connection],
                      starts := w.starts[call := Start(connection, turnId, Reaching)])
    ensures Enabled(w, MissThread(call, found)) ==>
              var start := w.starts[call];
              Next(w, MissThread(call, found))
                == w.(starts := w.starts[call := Start(start.connection, start.turnId, if found then Elsewhere else Refused)])
    ensures Enabled(w, ReachThread(call, blank)) ==>
              var start, v := w.starts[call], Next(w, ReachThread(call, blank));
              && v == w.(thread := v.thread, starts := v.starts)
              && (if blank || w.thread.closed || w.thread.active.Some? then
                    && v.thread == w.thread
                    && v.starts == w.starts[call := Start(start.connection, start.turnId, Refused)]
                  else
                    && v.thread.active == Some(T.Active(start.turnId, None, false))
                    && v.starts == w.starts[call := Start(start.connection, start.turnId, Running(|w.thread.accepted|))])
  {
    assert w.thread.pending.Keys - w.thread.pending.Keys == {};
    assert w.outstanding - {} == w.outstanding;
  }

  // Its refusal takes the turn from whoever owns it; its end only from the connection it came
  // from.
  lemma StartIsDoneWith(w: World, call: string, connection: string, turnId: string)
    ensures Enabled(w, RefusalLands(call, turnId)) ==>
              Next(w, RefusalLands(call, turnId)) == w.(owners := w.owners - {turnId}, starts := w.starts - {call})
    ensures Enabled(w, EndLands(call, connection, turnId)) ==>
              var v := Next(w, EndLands(call, connection, turnId));
              && v == w.(owners := v.owners, starts := w.starts - {call})
              && v.owners == if Owns(w, turnId, connection) then w.owners - {turnId} else w.owners
  {
  }
}
