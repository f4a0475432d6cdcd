// Requests the server sends to a client and waits on (src/app-server/outgoing-router.ts).
// The pairing of request and response by id is section 5 of the JSON-RPC 2.0 specification.

module OutgoingRouter {
  import opened Wrappers

  // What came back: an error object, a result that does not parse, or a decision word.
  datatype Answer = ErrorReply | Malformed | Decided(word: string)

  datatype Refusal = NotConnected | NotSent | TimedOut | Disconnected | ShuttingDown

  // How a request's promise ended. `sender` is the connection whose response ended it.
  datatype Outcome = Resolved(sender: string, answer: Answer) | Rejected(why: Refusal)

  // `pending` maps a request id to the connection it was sent to; `outcomes` holds the
  // promises that have ended.
  datatype Router = Router(connections: set<string>, pending: map<string, string>, outcomes: map<string, Outcome>)

  function Awaiting(pending: map<string, string>, connection: string): set<string> {
    set id | id in pending && pending[id] == connection
  }

  function RejectAll(r: Router, ids: set<string>, why: Refusal): Router {
    Router(r.connections, r.pending - ids, r.outcomes + map id | id in ids :: Rejected(why))
  }

  lemma RejectNone(r: Router, why: Refusal)
    ensures RejectAll(r, {}, why) == r
  {
    assert r.pending - {} == r.pending;
    assert r.outcomes + map[] == r.outcomes;
  }

  lemma RejectOne(r: Router, id: string, why: Refusal)
    ensures RejectAll(r, {id}, why) == Router(r.connections, r.pending - {id}, r.outcomes[id := Rejected(why)])
  {
    var ids := {id};
    assert (map i | i in ids :: Rejected(why)) == map[id := Rejected(why)];
  }

  lemma RejectMore(r: Router, ids: set<string>, id: string, why: Refusal)
    ensures RejectAll(RejectAll(r, ids, why), {id}, why) == RejectAll(r, ids + {id}, why)
  {
    RejectOne(RejectAll(r, ids, why), id, why);
    assert r.pending - ids - {id} == r.pending - (ids + {id});
    OutcomesGrow(r.outcomes, ids, id, Rejected(why));
  }

  lemma OutcomesGrow(outcomes: map<string, Outcome>, ids: set<string>, id: string, rejected: Outcome)
    ensures (outcomes + map i | i in ids :: rejected)[id := rejected]
         == outcomes + map i | i in ids + {id} :: rejected
  {
  }

  function AddConnection(r: Router, connection: string): Router {
    r.(connections := r.connections + {connection})
  }

  function RemoveConnection(r: Router, connection: string): Router {
    RejectAll(r.(connections := r.connections - {connection}), Awaiting(r.pending, connection), Disconnected)
  }

  function Request(r: Router, id: string, connection: string, sent: bool): Router {
    if connection !in r.connections then RejectAll(r, {id}, NotConnected)
    else if !sent then RejectAll(r, {id}, NotSent)
    else r.(pending := r.pending[id := connection])
  }

  function TimeOut(r: Router, id: string): Router {
    if id in r.pending then RejectAll(r, {id}, TimedOut) else r
  }

  predicate Accepts(r: Router, connection: string, id: string) {
    id in r.pending && r.pending[id] == connection
  }

  function ResolveResponse(r: Router, connection: string, id: string, answer: Answer): Router {
    if !Accepts(r, connection, id) then r
    else Router(r.connections, r.pending - {id}, r.outcomes[id := Resolved(connection, answer)])
  }

  function CloseAll(r: Router): Router {
    RejectAll(r.(connections := {}), r.pending.Keys, ShuttingDown)
  }

  class AppServerOutgoingRouter {
    var connections: set<string>
    var pending: map<string, string>
    var outcomes: map<string, Outcome>

    function View(): Router
      reads this
    {
      Router(connections, pending, outcomes)
    }

    constructor ()
      ensures View() == Router({}, map[], map[])
    {
      connections, pending, outcomes := {}, map[], map[];
    }

    method Add(connection: string)
      modifies this
      ensures View() == AddConnection(old(View()), connection)
    {
      connections := connections + {connection};
    }

    method Reject(id: string, why: Refusal)
      modifies this`pending, this`outcomes
      ensures View() == RejectAll(old(View()), {id}, why)
    {
      pending, outcomes := pending - {id}, outcomes[id := Rejected(why)];
      RejectOne(old(View()), id, why);
    }

    // Rejects the given requests one by one.
    method RejectEach(ids: set<string>, why: Refusal)
      modifies this`pending, this`outcomes
      ensures View() == RejectAll(old(View()), ids, why)
    {
      var todo := ids;
      ghost var ended: set<string> := {};
      RejectNone(View(), why);
      while todo != {}
        invariant ended + todo == ids
        invariant View() == RejectAll(old(View()), ended, why)
        decreases |todo|
      {
        var id :| id in todo;
        RejectMore(old(View()), ended, id, why);
        Reject(id, why);
        todo, ended := todo - {id}, ended + {id};
      }
      assert ended == ids;
    }

    method Remove(connection: string)
      modifies this
      ensures View() == RemoveConnection(old(View()), connection)
    {
      connections := connections - {connection};
      RejectEach(Awaiting(pending, connection), Disconnected);
    }

    // `sent` is whether the connection took the message.
    method Send(id: string, connection: string, sent: bool)
      modifies this
      ensures View() == Request(old(View()), id, connection, sent)
    {
      if connection !in connections {
        Reject(id, NotConnected);
        return;
      }
      if !sent {
        Reject(id, NotSent);
        return;
      }
      pending := pending[id := connection];
    }

    method FireTimer(id: string)
      modifies this
      ensures View() == TimeOut(old(View()), id)
    {
      if id in pending {
        Reject(id, TimedOut);
      }
    }

    method Resolve(connection: string, id: string, answer: Answer) returns (known: bool)
      modifies this
      ensures View() == ResolveResponse(old(View()), connection, id, answer)
      ensures known == Accepts(old(View()), connection, id)
    {
      if id !in pending || pending[id] != connection {
        return false;
      }
      pending := pending - {id};
      outcomes := outcomes[id := Resolved(connection, answer)];
      return true;
    }

    method Shutdown()
      modifies this
      ensures View() == CloseAll(old(View()))
    {
      connections := {};
      RejectEach(pending.Keys, ShuttingDown);
    }
  }

  // ---- Exactly one ending per request -----------------------------------------

  // A request is waiting or has ended, never both.
  predicate OneEnding(r: Router) {
    forall id :: id in r.pending ==> id !in r.outcomes
  }

  // s is a later state of r: endings are final, a request that was waiting is still
  // waiting on the same connection or has ended, and if a response ended it, the response
  // came from the connection the request had been sent to.
  predicate Later(r: Router, s: Router) {
    && (forall id :: id in r.outcomes ==> id in s.outcomes && s.outcomes[id] == r.outcomes[id])
    && (forall id :: id in r.pending ==>
          if id in s.pending then s.pending[id] == r.pending[id]
          else id in s.outcomes && (s.outcomes[id].Resolved? ==> s.outcomes[id].sender == r.pending[id]))
  }

  predicate Fresh(r: Router, id: string) {
    id !in r.pending && id !in r.outcomes
  }

  lemma RequestIsLater(r: Router, id: string, connection: string, sent: bool)
    requires OneEnding(r) && Fresh(r, id)
    ensures OneEnding(Request(r, id, connection, sent)) && Later(r, Request(r, id, connection, sent))
  {
  }

  lemma RemovalIsLater(r: Router, connection: string)
    requires OneEnding(r)
    ensures OneEnding(RemoveConnection(r, connection)) && Later(r, RemoveConnection(r, connection))
    ensures forall id :: id in r.pending && r.pending[id] == connection
              ==> RemoveConnection(r, connection).outcomes[id] == Rejected(Disconnected)
  {
  }

  lemma TimeOutIsLater(r: Router, id: string)
    requires OneEnding(r)
    ensures OneEnding(TimeOut(r, id)) && Later(r, TimeOut(r, id))
  {
  }

  lemma ResponseIsLater(r: Router, connection: string, id: string, answer: Answer)
    requires OneEnding(r)
    ensures OneEnding(ResolveResponse(r, connection, id, answer))
    ensures Later(r, ResolveResponse(r, connection, id, answer))
  {
  }

  lemma ClosingIsLater(r: Router)
    requires OneEnding(r)
    ensures OneEnding(CloseAll(r)) && Later(r, CloseAll(r)) && CloseAll(r).pending == map[]
  {
  }

  lemma LaterIsTransitive(r: Router, s: Router, t: Router)
    requires Later(r, s) && Later(s, t) && OneEnding(t)
    ensures Later(r, t)
  {
  }

  // ---- What ends a request, and how -------------------------------------------

  // Apart from these requests the routers are the same.
  ghost predicate SameBut(r: Router, s: Router, ids: set<string>) {
    forall id :: id !in ids ==>
      && (id in s.pending <==> id in r.pending) && (id in r.pending ==> s.pending[id] == r.pending[id])
      && (id in s.outcomes <==> id in r.outcomes) && (id in r.outcomes ==> s.outcomes[id] == r.outcomes[id])
  }

  predicate Ended(r: Router, id: string, outcome: Outcome) {
    id !in r.pending && id in r.outcomes && r.outcomes[id] == outcome
  }

  // A request waits on its connection exactly if that is there and took the message; if not,
  // it is rejected on the spot.
  lemma RequestWaits(r: Router, id: string, connection: string, sent: bool)
    ensures var s := Request(r, id, connection, sent);
            && s.connections == r.connections && SameBut(r, s, {id})
            && if connection !in r.connections then Ended(s, id, Rejected(NotConnected))
               else if !sent then Ended(s, id, Rejected(NotSent))
               else id in s.pending && s.pending[id] == connection && s.outcomes == r.outcomes
  {
  }

  // Only a request that still waits times out.
  lemma TimeOutRejects(r: Router, id: string)
    ensures var s := TimeOut(r, id);
            if id in r.pending then Ended(s, id, Rejected(TimedOut)) && SameBut(r, s, {id}) && s.connections == r.connections
            else s == r
  {
  }

  // A response ends the request it answers if it comes from the connection asked, and is
  // ignored if not.
  lemma ResponseEnds(r: Router, connection: string, id: string, answer: Answer)
    ensures var s := ResolveResponse(r, connection, id, answer);
            if id in r.pending && r.pending[id] == connection
            then Ended(s, id, Resolved(connection, answer)) && SameBut(r, s, {id}) && s.connections == r.connections
            else s == r
  {
  }

  // A disconnect rejects what that connection was asked and nothing else; the shutdown
  // rejects everything.
  lemma RemovalRejects(r: Router, connection: string)
    ensures var s := RemoveConnection(r, connection);
            && s.connections == r.connections - {connection}
            && (forall id :: id in r.pending && r.pending[id] == connection ==> Ended(s, id, Rejected(Disconnected)))
            && SameBut(r, s, set id | id in r.pending && r.pending[id] == connection)
  {
  }

  lemma ShutdownRejects(r: Router)
    ensures var s := CloseAll(r);
            && s.connections == {} && s.pending == map[]
            && (forall id :: id in r.pending ==> Ended(s, id, Rejected(ShuttingDown)))
            && SameBut(r, s, r.pending.Keys)
  {
  }

  // ---- Whole runs of the router -----------------------------------------------

  datatype Step =
    | Connect(connection: string)
    | Disconnect(connection: string)
    | Ask(id: string, connection: string, sent: bool)
    | Respond(connection: string, id: string, answer: Answer)
    | Expire(id: string)
    | Shutdown

  // Request ids are unique in a run.
  predicate Enabled(r: Router, s: Step) {
    s.Ask? ==> Fresh(r, s.id)
  }

  function Next(r: Router, s: Step): Router {
    match s
    case Connect(connection) => AddConnection(r, connection)
    case Disconnect(connection) => RemoveConnection(r, connection)
    case Ask(id, connection, sent) => Request(r, id, connection, sent)
    case Respond(connection, id, answer) => ResolveResponse(r, connection, id, answer)
    case Expire(id) => TimeOut(r, id)
    case Shutdown => CloseAll(r)
  }

  predicate Run(r: Router, steps: seq<Step>, s: Router)
    decreases steps
  {
    if steps == [] then r == s else Enabled(r, steps[0]) && Run(Next(r, steps[0]), steps[1..], s)
  }

  // The step ends the request, which the connection was asked, in this way.
  predicate Ends(s: Step, id: string, connection: string, outcome: Outcome) {
    match s
    case Respond(sender, request, answer) => request == id && sender == connection && outcome == Resolved(connection, answer)
    case Disconnect(gone) => gone == connection && outcome == Rejected(Disconnected)
    case Expire(request) => request == id && outcome == Rejected(TimedOut)
    case Shutdown => outcome == Rejected(ShuttingDown)
    case _ => false
  }

  lemma StepEnds(r: Router, s: Step, id: string, connection: string)
    requires OneEnding(r) && Enabled(r, s) && id in r.pending && r.pending[id] == connection
    ensures var t := Next(r, s);
            if exists o :: Ends(s, id, connection, o) then forall o :: Ends(s, id, connection, o) ==> Ended(t, id, o)
            else id in t.pending && t.pending[id] == connection
  {
    match s
    case Respond(_, _, answer) => assert Ends(s, id, connection, Resolved(connection, answer)) || s.id != id || s.connection != connection;
    case Disconnect(_) => assert Ends(s, id, connection, Rejected(Disconnected)) || s.connection != connection;
    case Expire(_) => assert Ends(s, id, connection, Rejected(TimedOut)) || s.id != id;
    case Shutdown => assert Ends(s, id, connection, Rejected(ShuttingDown));
    case _ =>
  }

  lemma StepKeepsOneEnding(r: Router, s: Step)
    requires OneEnding(r) && Enabled(r, s)
    ensures OneEnding(Next(r, s)) && forall id :: id in r.outcomes ==> id in Next(r, s).outcomes && Next(r, s).outcomes[id] == r.outcomes[id]
  {
  }

  lemma {:induction false} EndedForGood(r: Router, steps: seq<Step>, s: Router, id: string)
    requires OneEnding(r) && Run(r, steps, s) && id in r.outcomes
    ensures Ended(s, id, r.outcomes[id])
    decreases steps
  {
    if steps != [] {
      StepKeepsOneEnding(r, steps[0]);
      EndedForGood(Next(r, steps[0]), steps[1..], s, id);
    }
  }

  // A request that waits ends by the first step that ends it, in the way that step does, and
  // waits on if there is none: its reviewer's response, its timer, the reviewer's disconnect
  // or the shutdown.
  lemma {:induction false} FirstEndCounts(r: Router, steps: seq<Step>, s: Router, id: string, connection: string)
    requires OneEnding(r) && Run(r, steps, s) && id in r.pending && r.pending[id] == connection
    ensures if exists i, o :: 0 <= i < |steps| && Ends(steps[i], id, connection, o)
            then exists i, o :: 0 <= i < |steps| && Ends(steps[i], id, connection, o) && Ended(s, id, o)
                   && forall j, p :: 0 <= j < i ==> !Ends(steps[j], id, connection, p)
            else id in s.pending && s.pending[id] == connection
    decreases steps
  {
    if steps != [] {
      var next, rest := Next(r, steps[0]), steps[1..];
      StepKeepsOneEnding(r, steps[0]);
      StepEnds(r, steps[0], id, connection);
      hide Next, Enabled, Ends, OneEnding;
      if o :| Ends(steps[0], id, connection, o) {
        assert Ended(next, id, o);
        EndedForGood(next, rest, s, id);
        assert Ended(s, id, o);
      } else {
        FirstEndCounts(next, rest, s, id, connection);
        assert forall i :: 0 <= i < |rest| ==> rest[i] == steps[i + 1];
        if i, o :| 0 <= i < |rest| && Ends(rest[i], id, connection, o) && Ended(s, id, o)
                   && forall j, p :: 0 <= j < i ==> !Ends(rest[j], id, connection, p) {
          assert Ends(steps[i + 1], id, connection, o);
          forall j, p | 0 <= j < i + 1
            ensures !Ends(steps[j], id, connection, p)
          {
            assert j > 0 ==> rest[j - 1] == steps[j];
          }
        }
      }
    }
  }
}
