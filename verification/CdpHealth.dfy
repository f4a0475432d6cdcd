// The sweep that looks for pages whose renderer has stopped answering, and the connect that
// falls back on it (src/browser/cdp-health.ts). What the clock and the browser say are
// parameters.

module CdpHealth {
  import opened Wrappers

  // ---- A worker over many items, a few at a time ------------------------------

  // What one runner is waiting for: the result of an item, or nothing any more.
  datatype Runner = Idle | Busy(index: nat)

  // `out` has a place for every item. `failed` holds the items whose worker threw, and
  // `started` lists the items in the order the worker was called.
  datatype Pool<R> = Pool(
    limit: nat,
    cursor: nat,
    runners: seq<Runner>,
    out: seq<Option<R>>,
    failed: set<nat>,
    started: seq<nat>)

  // Runner r goes round its loop: it takes the item under the cursor, or ends.
  function TakeNext<R>(p: Pool<R>, r: nat): Pool<R>
    requires r < |p.runners|
  {
    if p.cursor < |p.out| then
      p.(cursor := p.cursor + 1, runners := p.runners[r := Busy(p.cursor)], started := p.started + [p.cursor])
    else p.(runners := p.runners[r := Idle])
  }

  // The worker of runner r is done, with a result or by throwing.
  function Resume<R>(p: Pool<R>, r: nat, result: Option<R>): Pool<R>
    requires r < |p.runners| && p.runners[r].Busy? && p.runners[r].index < |p.out|
  {
    var i := p.runners[r].index;
    if result.Some? then TakeNext(p.(out := p.out[i := result]), r)
    else p.(runners := p.runners[r := Idle], failed := p.failed + {i})
  }

  function FirstRunners(m: nat): seq<Runner> {
    seq(m, r requires 0 <= r < m => Busy(r))
  }

  function FirstItems(m: nat): seq<nat> {
    seq(m, i requires 0 <= i < m => i)
  }

  // All runners have been launched, and each has taken an item.
  function Launched<R>(count: nat, limit: nat): Pool<R> {
    var m := if limit < count then limit else count;
    Pool(limit, m, FirstRunners(m), seq(count, _ => None), {}, FirstItems(m))
  }

  class LimitedMap<R> {
    const limit: nat
    const out: array<Option<R>>
    var cursor: nat
    var runners: seq<Runner>
    ghost var failed: set<nat>
    ghost var started: seq<nat>

    ghost function View(): Pool<R>
      reads this, out
    {
      Pool(limit, cursor, runners, out[..], failed, started)
    }

    constructor (count: nat, limit: nat)
      ensures View() == Launched<R>(count, limit) && fresh(out)
    {
      this.limit := limit;
      out := new Option<R>[count](_ => None);
      cursor, runners, failed, started := 0, [], {}, [];
      new;
      var m := if limit < count then limit else count;
      while |runners| < m
        invariant cursor == |runners| <= m && failed == {}
        invariant runners == FirstRunners(cursor) && started == FirstItems(cursor)
        invariant out[..] == seq(count, _ => None)
      {
        runners := runners + [Idle];
        LoopOn(|runners| - 1);
      }
    }

    method LoopOn(r: nat)
      requires r < |runners|
      modifies this
      ensures View() == TakeNext(old(View()), r)
    {
      if cursor < out.Length {
        var index := cursor;
        cursor := cursor + 1;
        runners := runners[r := Busy(index)];
        started := started + [index];
      } else {
        runners := runners[r := Idle];
      }
    }

    method WorkerDone(r: nat, result: Option<R>)
      requires r < |runners| && runners[r].Busy? && runners[r].index < out.Length
      modifies this, out
      ensures View() == Resume(old(View()), r, result)
    {
      var index := runners[r].index;
      if result.Some? {
        out[index] := result;
        LoopOn(r);
      } else {
        runners := runners[r := Idle];
        failed := failed + {index};
      }
    }
  }

  // Items are taken in order, each by one runner; it is then in flight, has its result in
  // its place, or has failed. A runner rests only when no item is left or its worker threw.
  ghost predicate Sound<R>(p: Pool<R>, fits: (nat, R) -> bool) {
    && |p.runners| <= p.limit && p.cursor <= |p.out|
    && p.started == FirstItems(p.cursor)
    && (forall r, q :: 0 <= r < q < |p.runners| && p.runners[r].Busy? ==> p.runners[r] != p.runners[q])
    && (forall r :: 0 <= r < |p.runners| && p.runners[r].Busy? ==>
          p.runners[r].index < p.cursor && p.out[p.runners[r].index].None? && p.runners[r].index !in p.failed)
    && (forall i :: 0 <= i < p.cursor ==> Busy(i) in p.runners || p.out[i].Some? || i in p.failed)
    && (forall i :: i in p.failed ==> i < p.cursor && p.out[i].None?)
    && (forall i :: 0 <= i < |p.out| && p.out[i].Some? ==> i < p.cursor && fits(i, p.out[i].value))
    && (p.failed == {} && p.cursor < |p.out| ==>
          p.runners != [] && forall r :: 0 <= r < |p.runners| ==> p.runners[r].Busy?)
  }

  lemma LaunchedSound<R>(count: nat, limit: nat, fits: (nat, R) -> bool)
    requires 1 <= limit
    ensures Sound(Launched<R>(count, limit), fits)
  {
    var p := Launched<R>(count, limit);
    forall i | 0 <= i < p.cursor
      ensures Busy(i) in p.runners
    {
      assert p.runners[i] == Busy(i);
    }
  }

  // The item a runner gives up, and the one it takes, change hands; the others do not.
  lemma StillAccounted(runners: seq<Runner>, r: nat, next: Runner, i: nat)
    requires r < |runners| && Busy(i) in runners && runners[r] != Busy(i)
    ensures Busy(i) in runners[r := next]
  {
    var q :| 0 <= q < |runners| && runners[q] == Busy(i);
    assert runners[r := next][q] == Busy(i);
  }

  lemma ResultSound<R>(p: Pool<R>, r: nat, value: R, fits: (nat, R) -> bool)
    requires Sound(p, fits) && r < |p.runners| && p.runners[r].Busy? && fits(p.runners[r].index, value)
    ensures Sound(Resume(p, r, Some(value)), fits)
  {
    var done := p.runners[r].index;
    var q := Resume(p, r, Some(value));
    forall i | 0 <= i < q.cursor
      ensures Busy(i) in q.runners || q.out[i].Some? || i in q.failed
    {
      if i == p.cursor {
        assert q.runners[r] == Busy(i);
      } else if Busy(i) in p.runners && i != done {
        StillAccounted(p.runners, r, q.runners[r], i);
      }
    }
  }

  lemma FailureSound<R>(p: Pool<R>, r: nat, fits: (nat, R) -> bool)
    requires Sound(p, fits) && r < |p.runners| && p.runners[r].Busy?
    ensures Sound(Resume(p, r, None), fits)
  {
    var done := p.runners[r].index;
    var q := Resume(p, r, None);
    forall i | 0 <= i < q.cursor
      ensures Busy(i) in q.runners || q.out[i].Some? || i in q.failed
    {
      if Busy(i) in p.runners && i != done {
        StillAccounted(p.runners, r, Idle, i);
      }
    }
  }

  datatype Event<R> = Event(runner: nat, result: Option<R>)

  // Worker results come in any order; `fits` says what results an item's worker may give.
  ghost predicate Run<R>(p: Pool<R>, events: seq<Event<R>>, fits: (nat, R) -> bool, q: Pool<R>)
    decreases events
  {
    if events == [] then p == q
    else
      var e := events[0];
      && e.runner < |p.runners| && p.runners[e.runner].Busy? && p.runners[e.runner].index < |p.out|
      && (e.result.Some? ==> fits(p.runners[e.runner].index, e.result.value))
      && Run(Resume(p, e.runner, e.result), events[1..], fits, q)
  }

  lemma {:induction false} RunStaysSound<R>(p: Pool<R>, events: seq<Event<R>>, fits: (nat, R) -> bool, q: Pool<R>)
    requires Sound(p, fits) && Run(p, events, fits, q)
    ensures Sound(q, fits) && |q.out| == |p.out| && q.limit == p.limit
    ensures |q.runners| == |p.runners| && p.failed <= q.failed
    decreases events
  {
    if events != [] {
      var e := events[0];
      if e.result.Some? {
        ResultSound(p, e.runner, e.result.value, fits);
      } else {
        FailureSound(p, e.runner, fits);
      }
      RunStaysSound(Resume(p, e.runner, e.result), events[1..], fits, q);
    }
  }

  predicate AllRest<R>(p: Pool<R>) {
    forall r :: 0 <= r < |p.runners| ==> p.runners[r].Idle?
  }

  // Under every interleaving the worker is called for the items in order, each at most
  // once, with at most `limit` of them in flight. When all runners rest and none failed,
  // every item has been worked on once and its own result stands at its index.
  lemma EveryItemOnce<R>(count: nat, limit: nat, events: seq<Event<R>>, fits: (nat, R) -> bool, q: Pool<R>)
    requires 1 <= limit && Run(Launched<R>(count, limit), events, fits, q)
    ensures q.started == FirstItems(q.cursor) && q.cursor <= count
    ensures |q.runners| <= limit
    ensures AllRest(q) && q.failed == {} ==>
              && q.cursor == count == |q.out|
              && forall i :: 0 <= i < count ==> q.out[i].Some? && fits(i, q.out[i].value)
  {
    LaunchedSound<R>(count, limit, fits);
    RunStaysSound(Launched<R>(count, limit), events, fits, q);
    if AllRest(q) && q.failed == {} {
      assert q.runners != [] ==> q.runners[0].Idle?;
      forall i | 0 <= i < count
        ensures q.out[i].Some?
      {
        assert Busy(i) !in q.runners;
      }
    }
  }

  // How much is left to do: it shrinks with every result, so no run goes on for ever.
  function BusyCount(runners: seq<Runner>): nat {
    if runners == [] then 0 else (if runners[0].Busy? then 1 else 0) + BusyCount(runners[1..])
  }

  lemma {:induction false} BusyCountChanges(runners: seq<Runner>, r: nat, next: Runner)
    requires r < |runners| && runners[r].Busy?
    ensures BusyCount(runners[r := next]) == BusyCount(runners) - if next.Busy? then 0 else 1
    decreases r
  {
    if r > 0 {
      assert runners[r := next][1..] == runners[1..][r - 1 := next];
      BusyCountChanges(runners[1..], r - 1, next);
    } else {
      assert runners[r := next][1..] == runners[1..];
    }
  }

  lemma {:induction false} RunsEnd<R>(p: Pool<R>, events: seq<Event<R>>, fits: (nat, R) -> bool, q: Pool<R>)
    requires Run(p, events, fits, q) && p.cursor <= |p.out|
    ensures |events| <= (|p.out| - p.cursor) + BusyCount(p.runners)
    decreases events
  {
    if events != [] {
      var e := events[0];
      var next := Resume(p, e.runner, e.result);
      BusyCountChanges(p.runners, e.runner, next.runners[e.runner]);
      assert next.runners == p.runners[e.runner := next.runners[e.runner]];
      RunsEnd(next, events[1..], fits, q);
    }
  }

  // ---- Commands and replies ---------------------------------------------------

  // What a command comes to: a result, with or without a session in it, an error, or the
  // time-out that stands for no reply.
  datatype Reply = Result(session: bool) | ErrorReply | NoReply

  // `nextId` names the next command; `pending` holds those that are waited for, `settled`
  // what the others came to.
  datatype Link = Link(nextId: nat, pending: set<nat>, settled: map<nat, Reply>)

  const NEW_LINK := Link(1, {}, map[])

  datatype Action = Issue | Arrives(id: nat, reply: Reply) | Expires(id: nat)

  // What an action says about a command.
  function Word(a: Action, id: nat): Option<Reply> {
    if a.Arrives? && a.id == id then Some(a.reply) else if a.Expires? && a.id == id then Some(NoReply) else None
  }

  function Act(l: Link, a: Action): Link {
    match a
    case Issue => l.(nextId := l.nextId + 1, pending := l.pending + {l.nextId})
    case Arrives(id, reply) => Settled(l, id, reply)
    case Expires(id) => Settled(l, id, NoReply)
  }

  // A command that is no longer waited for takes no other word.
  function Settled(l: Link, id: nat, reply: Reply): Link {
    if id in l.pending then l.(pending := l.pending - {id}, settled := l.settled[id := reply]) else l
  }

  class CdpSocket {
    var nextId: nat
    var pending: set<nat>
    var settled: map<nat, Reply>

    function View(): Link
      reads this
    {
      Link(nextId, pending, settled)
    }

    constructor ()
      ensures View() == NEW_LINK
    {
      nextId, pending, settled := 1, {}, map[];
    }

    method Send() returns (id: nat)
      modifies this
      ensures View() == Act(old(View()), Issue)
      ensures id == old(nextId) && id in pending
    {
      id := nextId;
      nextId := nextId + 1;
      pending := pending + {id};
    }

    method OnMessage(id: nat, reply: Reply)
      modifies this
      ensures View() == Act(old(View()), Arrives(id, reply))
    {
      if id !in pending {
        return;
      }
      pending := pending - {id};
      settled := settled[id := reply];
    }

    method OnTimer(id: nat)
      modifies this
      ensures View() == Act(old(View()), Expires(id))
    {
      if id in pending {
        pending := pending - {id};
        settled := settled[id := NoReply];
      }
    }
  }

  // Every command issued is waited for or has come to something, never both.
  predicate LinkSound(l: Link) {
    && (forall id :: id in l.pending ==> id < l.nextId && id !in l.settled)
    && (forall id :: id in l.settled ==> id < l.nextId)
  }

  function ActAll(l: Link, actions: seq<Action>): Link
    decreases actions
  {
    if actions == [] then l else ActAll(Act(l, actions[0]), actions[1..])
  }

  // The first word about a command.
  function FirstWord(actions: seq<Action>, id: nat): Option<Reply>
    decreases actions
  {
    if actions == [] then None
    else if Word(actions[0], id).Some? then Word(actions[0], id) else FirstWord(actions[1..], id)
  }

  // Whatever arrives, in whatever order, and whenever timers fire: a command comes to the
  // first word about it, and to nothing else ever after.
  lemma {:induction false} FirstWordCounts(l: Link, actions: seq<Action>, id: nat)
    requires LinkSound(l)
    ensures LinkSound(ActAll(l, actions))
    ensures id in l.settled ==>
              id in ActAll(l, actions).settled && ActAll(l, actions).settled[id] == l.settled[id]
    ensures id in l.pending ==>
              var m, word := ActAll(l, actions), FirstWord(actions, id);
              if word.None? then id in m.pending else id in m.settled && m.settled[id] == word.value
    decreases actions
  {
    if actions != [] {
      FirstWordCounts(Act(l, actions[0]), actions[1..], id);
    }
  }

  // ---- Probing a target -------------------------------------------------------

  // A probe: the commands it issues, and what it says: nothing learnt, an answer, or none.
  datatype Probed = Probed(link: Link, answered: Option<bool>)

  // A probe over a link on which anything else may go on: `during` passes while it waits to
  // be attached, `after` while it waits for the evaluation. An attach that failed says
  // nothing about the renderer, and nothing is evaluated; an evaluation that came back as an
  // error counts as no answer. Either way it detaches.
  function Probe(l: Link, during: seq<Action>, after: seq<Action>): Probed {
    var attached := ActAll(Act(l, Issue), during);
    if l.nextId !in attached.settled || attached.settled[l.nextId] != Result(true) then Probed(attached, None)
    else
      var done := ActAll(Act(attached, Issue), after);
      Probed(Act(done, Issue), Some(attached.nextId in done.settled && done.settled[attached.nextId].Result?))
  }

  // It says "no answer" exactly when the first word about the attach was a session and the
  // first about the evaluation was its timer or an error. A late or foreign reply never
  // counts, and without a session nothing more is issued.
  lemma ProbeHearsItsOwn(l: Link, during: seq<Action>, after: seq<Action>)
    requires LinkSound(l) && FirstWord(during, l.nextId).Some?
    requires FirstWord(during, l.nextId) == Some(Result(true)) ==>
               FirstWord(after, ActAll(Act(l, Issue), during).nextId).Some?
    ensures var probed := Probe(l, during, after);
            var word, evaluation := FirstWord(during, l.nextId), FirstWord(after, ActAll(Act(l, Issue), during).nextId);
            && LinkSound(probed.link)
            && (probed.answered == Some(false)
                <==> word == Some(Result(true)) && evaluation in {Some(ErrorReply), Some(NoReply)})
            && (probed.answered == Some(true) <==> word == Some(Result(true)) && evaluation.value.Result?)
            && probed.link == (if word != Some(Result(true)) then ActAll(Act(l, Issue), during)
                               else Act(ActAll(Act(ActAll(Act(l, Issue), during), Issue), after), Issue))
  {
    var attaching := Act(l, Issue);
    var attached := ActAll(attaching, during);
    FirstWordCounts(attaching, during, l.nextId);
    FirstWordCounts(Act(attached, Issue), after, attached.nextId);
  }

  // One round of the retry loop: when the clock was read, and what a probe then gave.
  datatype Round = Round(checkedAt: int, answered: Option<bool>)

  // The rest of a target's trial, and the time it is decided at.
  datatype Trial = Trial(rounds: seq<Round>, decidedAt: int)

  function Wedged(rounds: seq<Round>, deadline: int): bool {
    if rounds == [] || rounds[0].checkedAt >= deadline then true
    else if rounds[0].answered != Some(false) then false
    else Wedged(rounds[1..], deadline)
  }

  // How many of the rounds are probes that were made: up to the first late look at the
  // clock, or the first sign of life.
  function Asked(rounds: seq<Round>, deadline: int): (n: nat)
    ensures n <= |rounds|
  {
    if rounds == [] || rounds[0].checkedAt >= deadline then 0
    else 1 + if rounds[0].answered != Some(false) then 0 else Asked(rounds[1..], deadline)
  }

  // The retry loop over one suspect, and the probes it makes.
  method Retest(trial: Trial, attempts: nat, deadline: int) returns (hung: bool, asked: nat)
    requires attempts >= 1 && |trial.rounds| == attempts - 1
    ensures hung <==> Wedged(trial.rounds, deadline) && trial.decidedAt < deadline
    ensures asked == Asked(trial.rounds, deadline)
  {
    var wedged := true;
    var attempt := 1;
    asked := 0;
    while attempt < attempts
      invariant 1 <= attempt <= attempts && wedged && asked == attempt - 1
      invariant Wedged(trial.rounds, deadline) == Wedged(trial.rounds[attempt - 1..], deadline)
      invariant Asked(trial.rounds, deadline) == asked + Asked(trial.rounds[attempt - 1..], deadline)
    {
      ghost var rest := trial.rounds[attempt - 1..];
      assert rest[1..] == trial.rounds[attempt..];
      var round := trial.rounds[attempt - 1];
      if round.checkedAt >= deadline {
        break;
      }
      asked := asked + 1;
      if round.answered != Some(false) {
        wedged := false;
        break;
      }
      attempt := attempt + 1;
    }
    hung := wedged && trial.decidedAt < deadline;
  }

  // The clock does not run backwards during a trial.
  predicate Monotone(trial: Trial) {
    && (forall i, j :: 0 <= i < j < |trial.rounds| ==> trial.rounds[i].checkedAt <= trial.rounds[j].checkedAt)
    && (forall i :: 0 <= i < |trial.rounds| ==> trial.rounds[i].checkedAt <= trial.decidedAt)
  }

  predicate AllSilent(rounds: seq<Round>) {
    forall i :: 0 <= i < |rounds| ==> rounds[i].answered == Some(false)
  }

  lemma {:induction false} WedgedInTime(rounds: seq<Round>, deadline: int)
    requires forall i :: 0 <= i < |rounds| ==> rounds[i].checkedAt < deadline
    ensures Wedged(rounds, deadline) <==> AllSilent(rounds)
  {
    if rounds != [] {
      WedgedInTime(rounds[1..], deadline);
      assert AllSilent(rounds) <==> rounds[0].answered == Some(false) && AllSilent(rounds[1..]) by {
        assert forall i :: 0 < i < |rounds| ==> rounds[i] == rounds[1..][i - 1];
      }
    }
  }

  // Whatever the clock does: a suspect stays one exactly if each probe that was made failed.
  lemma {:induction false} WedgedByWhatWasAsked(rounds: seq<Round>, deadline: int)
    ensures Wedged(rounds, deadline) <==> AllSilent(rounds[..Asked(rounds, deadline)])
  {
    if rounds != [] && rounds[0].checkedAt < deadline && rounds[0].answered == Some(false) {
      var rest := rounds[1..];
      WedgedByWhatWasAsked(rest, deadline);
      assert rounds[..Asked(rounds, deadline)] == [rounds[0]] + rest[..Asked(rest, deadline)];
      assert AllSilent([rounds[0]] + rest[..Asked(rest, deadline)]) <==> AllSilent(rest[..Asked(rest, deadline)]) by {
        assert forall i :: 0 <= i < Asked(rest, deadline) ==>
            ([rounds[0]] + rest[..Asked(rest, deadline)])[i + 1] == rest[..Asked(rest, deadline)][i];
      }
    } else if rounds != [] && rounds[0].checkedAt < deadline {
      assert rounds[..1][0] == rounds[0];
    }
  }

  predicate InTime(rounds: seq<Round>, deadline: int) {
    forall i :: 0 <= i < |rounds| ==> rounds[i].checkedAt < deadline
  }

  // And it has been probed as often as it should exactly if every look at the clock was in
  // time.
  lemma {:induction false} AllAskedInTime(rounds: seq<Round>, deadline: int)
    requires Wedged(rounds, deadline)
    ensures Asked(rounds, deadline) == |rounds| <==> InTime(rounds, deadline)
  {
    if rounds != [] && rounds[0].checkedAt < deadline {
      AllAskedInTime(rounds[1..], deadline);
      assert forall i :: 0 < i < |rounds| ==> rounds[i] == rounds[1..][i - 1];
    }
  }

  // A clock that does not run backwards has looked in time whenever it decides in time.
  lemma HungMeansSilent(trial: Trial, deadline: int)
    requires Monotone(trial)
    ensures trial.decidedAt < deadline ==> InTime(trial.rounds, deadline)
    ensures Wedged(trial.rounds, deadline) && trial.decidedAt < deadline
       <==> AllSilent(trial.rounds) && trial.decidedAt < deadline
  {
    if trial.decidedAt < deadline {
      WedgedInTime(trial.rounds, deadline);
    }
  }

  // ---- The sweep --------------------------------------------------------------

  // Target k was suspected in the first pass and found hung in the second.
  predicate FoundHung(first: seq<Option<bool>>, trials: seq<Trial>, deadline: int, k: nat)
    requires |first| == |trials| && k < |first|
  {
    first[k] == Some(false) && Wedged(trials[k].rounds, deadline) && trials[k].decidedAt < deadline
  }

  function HungUpTo(first: seq<Option<bool>>, trials: seq<Trial>, deadline: int, n: nat): seq<nat>
    requires |first| == |trials| && n <= |first|
  {
    if n == 0 then []
    else HungUpTo(first, trials, deadline, n - 1) + if FoundHung(first, trials, deadline, n - 1) then [n - 1] else []
  }

  // The second pass over the suspects of the first. Targets go by their place in the list.
  method FindUnresponsive(first: seq<Option<bool>>, trials: seq<Trial>, attempts: nat, deadline: int)
      returns (hung: seq<nat>)
    requires attempts >= 1 && |first| == |trials|
    requires forall k :: 0 <= k < |trials| ==> |trials[k].rounds| == attempts - 1
    ensures hung == HungUpTo(first, trials, deadline, |first|)
  {
    hung := [];
    var k := 0;
    while k < |first|
      invariant 0 <= k <= |first| && hung == HungUpTo(first, trials, deadline, k)
    {
      if first[k] == Some(false) {
        var stuck, asked := Retest(trials[k], attempts, deadline);
        if stuck {
          hung := hung + [k];
        }
      }
      k := k + 1;
    }
  }

  lemma {:induction false} HungIsFound(first: seq<Option<bool>>, trials: seq<Trial>, deadline: int, n: nat, k: nat)
    requires |first| == |trials| && n <= |first|
    ensures k in HungUpTo(first, trials, deadline, n) <==> k < n && FoundHung(first, trials, deadline, k)
  {
    if n > 0 {
      HungIsFound(first, trials, deadline, n - 1, k);
    }
  }

  // They are listed once each, in the order of the targets.
  lemma {:induction false} HungInOrder(first: seq<Option<bool>>, trials: seq<Trial>, deadline: int, n: nat)
    requires |first| == |trials| && n <= |first|
    ensures Ascending(HungUpTo(first, trials, deadline, n), n)
  {
    if n > 0 {
      HungInOrder(first, trials, deadline, n - 1);
      AscendingGrows(HungUpTo(first, trials, deadline, n - 1), n - 1);
    }
  }

  predicate Ascending(s: seq<nat>, bound: nat) {
    && (forall i :: 0 <= i < |s| ==> s[i] < bound)
    && (forall i, j :: 0 <= i < j < |s| ==> s[i] < s[j])
  }

  lemma AscendingGrows(s: seq<nat>, bound: nat)
    requires Ascending(s, bound)
    ensures Ascending(s + [bound], bound + 1) && Ascending(s + [], bound + 1)
  {
    assert s + [] == s;
  }

  // A target is reported exactly when all of its `attempts` probes failed and it was decided
  // before the deadline. An answer, or an attach that failed, clears it.
  lemma ReportedMeansSilent(first: seq<Option<bool>>, trials: seq<Trial>, deadline: int, k: nat)
    requires |first| == |trials| && k < |first| && Monotone(trials[k])
    ensures k in HungUpTo(first, trials, deadline, |first|)
       <==> first[k] == Some(false) && AllSilent(trials[k].rounds) && trials[k].decidedAt < deadline
  {
    HungIsFound(first, trials, deadline, |first|, k);
    HungMeansSilent(trials[k], deadline);
  }

  // With any clock: a target is reported exactly when each probe made of it failed and the
  // clock read before the deadline at the end. It has then had all its probes exactly if the
  // clock did at every look in between.
  lemma ReportedOnWhatWasAsked(first: seq<Option<bool>>, trials: seq<Trial>, deadline: int, k: nat)
    requires |first| == |trials| && k < |first|
    ensures var rounds := trials[k].rounds;
            && (k in HungUpTo(first, trials, deadline, |first|)
                <==> first[k] == Some(false) && AllSilent(rounds[..Asked(rounds, deadline)]) && trials[k].decidedAt < deadline)
            && (k in HungUpTo(first, trials, deadline, |first|) ==>
                  (Asked(rounds, deadline) == |rounds| <==> InTime(rounds, deadline)))
  {
    HungIsFound(first, trials, deadline, |first|, k);
    WedgedByWhatWasAsked(trials[k].rounds, deadline);
    if Wedged(trials[k].rounds, deadline) {
      AllAskedInTime(trials[k].rounds, deadline);
    }
  }

  // With a clock set back between the first look and the last, a suspect is reported that
  // was not probed again at all.
  lemma ClockSetBackSkipsProbes(first: seq<Option<bool>>, trials: seq<Trial>, deadline: int, k: nat)
    requires |first| == |trials| && k < |first| && first[k] == Some(false) && trials[k].rounds != []
    requires trials[k].decidedAt < deadline <= trials[k].rounds[0].checkedAt
    ensures k in HungUpTo(first, trials, deadline, |first|) && Asked(trials[k].rounds, deadline) == 0
  {
    HungIsFound(first, trials, deadline, |first|, k);
  }

  // ---- Connecting -------------------------------------------------------------

  datatype Call = Connect(ok: bool) | Close(target: nat)

  // What a sweep would find, whether the browser can then be reached to close what was found,
  // and which closes it grants.
  datatype Sweep = Sweep(
    first: seq<Option<bool>>, trials: seq<Trial>, deadline: int, reached: bool, granted: set<nat>)

  function Hung(sweep: Sweep): seq<nat>
    requires |sweep.first| == |sweep.trials|
  {
    HungUpTo(sweep.first, sweep.trials, sweep.deadline, |sweep.first|)
  }

  function Closes(targets: seq<nat>): seq<Call> {
    seq(|targets|, i requires 0 <= i < |targets| => Close(targets[i]))
  }

  lemma ClosesNameTheTargets(targets: seq<nat>)
    ensures forall k :: Close(k) in Closes(targets) <==> k in targets
  {
    forall k | k in targets
      ensures Close(k) in Closes(targets)
    {
      var i :| 0 <= i < |targets| && targets[i] == k;
      assert Closes(targets)[i] == Close(k);
    }
  }

  // Connects, and after a failure sweeps and connects once more. `sweep` is nothing if the
  // sweep cannot run. Each hung target found is closed, in order, and no other.
  method ConnectWithRecovery(firstTry: bool, sweep: Option<Sweep>, attempts: nat, secondTry: bool)
      returns (connected: bool, calls: seq<Call>, closed: seq<nat>)
    requires attempts >= 1
    requires sweep.Some? ==> |sweep.value.first| == |sweep.value.trials|
    requires sweep.Some? ==> forall t :: t in sweep.value.trials ==> |t.rounds| == attempts - 1
    ensures connected == (firstTry || secondTry)
    ensures firstTry ==> calls == [Connect(true)] && closed == []
    ensures !firstTry ==>
              calls == [Connect(false)]
                       + (if sweep.Some? && sweep.value.reached then Closes(Hung(sweep.value)) else [])
                       + [Connect(secondTry)]
    ensures forall k :: k in closed <==> sweep.Some? && Close(k) in calls && k in sweep.value.granted
  {
    calls, closed := [Connect(firstTry)], [];
    if firstTry {
      return true, calls, closed;
    }
    if sweep.Some? {
      var hung := FindUnresponsive(sweep.value.first, sweep.value.trials, attempts, sweep.value.deadline);
      if sweep.value.reached {
        var i := 0;
        while i < |hung|
          invariant 0 <= i <= |hung| && calls == [Connect(false)] + Closes(hung[..i])
          invariant forall k :: k in closed <==> k in hung[..i] && k in sweep.value.granted
        {
          assert hung[..i + 1] == hung[..i] + [hung[i]];
          assert Closes(hung[..i + 1]) == Closes(hung[..i]) + [Close(hung[i])];
          calls := calls + [Close(hung[i])];
          if hung[i] in sweep.value.granted {
            closed := closed + [hung[i]];
          }
          i := i + 1;
        }
        assert hung[..i] == hung;
        ClosesNameTheTargets(hung);
      }
    }
    assert sweep.Some? ==> forall k :: k in closed <==> Close(k) in calls && k in sweep.value.granted;
    calls := calls + [Connect(secondTry)];
    connected := secondTry;
  }
}
