// One stateful projection per thread, shared by every connection, with the notifications
// of each record memoized by sequence number (sendThreadEvent in
// src/app-server/message-processor.ts).

module ProjectionCache {
  import opened Wrappers
  import opened Events
  import opened Transcript
  import opened SessionProjection
  import opened ClientParity

  const CACHE_LIMIT: nat := 2000

  // `order` lists the cached sequences, oldest entry first.
  datatype Gateway = Gateway(state: State, cache: map<nat, seq<Note>>, order: seq<nat>)

  const NEW_GATEWAY := Gateway(EMPTY, map[], [])

  datatype Sent = Sent(gateway: Gateway, notes: seq<Note>)

  // The last `CACHE_LIMIT` keys.
  function Window(keys: seq<nat>): seq<nat> {
    if |keys| > CACHE_LIMIT then keys[|keys| - CACHE_LIMIT..] else keys
  }

  function Send(g: Gateway, d: Delivery): Sent {
    var s := d.record.sequence;
    if s in g.cache then Sent(g, g.cache[s])
    else
      var p := ProjectRecord(g.state, d);
      if !ReplayStable(p.notes) then Sent(g.(state := p.state), p.notes)
      else
        var order := Window(g.order + [s]);
        var all := g.cache[s := p.notes];
        Sent(Gateway(p.state, map k | k in all && k in order :: all[k], order), p.notes)
  }

  function RunGateway(ds: seq<Delivery>): Gateway {
    if ds == [] then NEW_GATEWAY
    else Send(RunGateway(ds[..|ds| - 1]), ds[|ds| - 1]).gateway
  }

  // The processor's part for one thread, over the projection object.
  class ThreadGateway {
    const projection: SessionProjection
    var cache: map<nat, seq<Note>>
    var order: seq<nat>

    function View(): Gateway
      reads this, projection
    {
      Gateway(projection.View(), cache, order)
    }

    ghost predicate Valid()
      reads this
    {
      && (forall k :: k in cache <==> k in order)
      && (forall i, j :: 0 <= i < j < |order| ==> order[i] != order[j])
      && |order| <= CACHE_LIMIT
    }

    constructor ()
      ensures Valid() && View() == NEW_GATEWAY && fresh(projection)
    {
      projection := new SessionProjection();
      cache, order := map[], [];
    }

    method SendThreadEvent(d: Delivery) returns (notes: seq<Note>)
      requires Valid()
      modifies this, projection
      ensures Valid()
      ensures Sent(View(), notes) == Send(old(View()), d)
    {
      var s := d.record.sequence;
      if s in cache {
        return cache[s];
      }
      notes := projection.Project(d);
      if ReplayStable(notes) {
        cache, order := Trimmed(cache[s := notes], order + [s]);
      }
    }
  }

  // The loop that drops the oldest entries until the cache is within its limit.
  method Trimmed(cache: map<nat, seq<Note>>, order: seq<nat>)
    returns (kept: map<nat, seq<Note>>, keptOrder: seq<nat>)
    requires forall k :: k in cache <==> k in order
    requires forall i, j :: 0 <= i < j < |order| ==> order[i] != order[j]
    ensures keptOrder == Window(order)
    ensures kept == map k | k in cache && k in keptOrder :: cache[k]
  {
    kept, keptOrder := cache, order;
    ghost var dropped := 0;
    while |keptOrder| > CACHE_LIMIT
      invariant dropped <= |order| && keptOrder == order[dropped..]
      invariant dropped == 0 || |keptOrder| >= CACHE_LIMIT
      invariant kept == map k | k in cache && k in keptOrder :: cache[k]
      decreases |keptOrder|
    {
      var oldest := keptOrder[0];
      assert oldest !in keptOrder[1..];
      kept, keptOrder := kept - {oldest}, keptOrder[1..];
      dropped := dropped + 1;
    }
  }

  // An answer that may be kept joins the others, of which the newest 2000 stay; one that may
  // not is worked out each time.
  lemma NewestStay(g: Gateway, d: Delivery)
    ensures var s := d.record.sequence;
            var sent := Send(g, d);
            if s in g.cache then sent == Sent(g, g.cache[s])
            else
              var p := ProjectRecord(g.state, d);
              && sent.notes == p.notes && sent.gateway.state == p.state
              && if d.record.event.ThreadStarted? then sent.gateway.cache == g.cache && sent.gateway.order == g.order
                 else
                   var keys := g.order + [s];
                   && sent.gateway.order == (if |keys| > 2000 then keys[|keys| - 2000..] else keys)
                   && sent.gateway.cache == map k | k in g.cache[s := p.notes] && k in sent.gateway.order :: g.cache[s := p.notes][k]
  {
    OnlyThreadStartedIsUnstable(g.state, d, d.metadata);
    hide ProjectRecord;
  }

  // ---- What is delivered first ------------------------------------------------

  predicate Delivered(ds: seq<Delivery>, s: nat) {
    exists i :: 0 <= i < |ds| && ds[i].record.sequence == s
  }

  // Records are not altered once published: a sequence always names the same record.
  predicate Consistent(ds: seq<Delivery>) {
    forall i, j :: 0 <= i < j < |ds| && ds[i].record.sequence == ds[j].record.sequence
                   ==> ds[i].record == ds[j].record
  }

  function Firsts(ds: seq<Delivery>): seq<Delivery> {
    if ds == [] then []
    else
      var before := ds[..|ds| - 1];
      var d := ds[|ds| - 1];
      Firsts(before) + if Delivered(before, d.record.sequence) then [] else [d]
  }

  function StableKeys(fs: seq<Delivery>): seq<nat> {
    if fs == [] then []
    else
      var d := fs[|fs| - 1];
      StableKeys(fs[..|fs| - 1]) + if d.record.event.ThreadStarted? then [] else [d.record.sequence]
  }

  // Every repeated record is repeated while it is still among the last CACHE_LIMIT
  // memoized ones.
  predicate Recent(ds: seq<Delivery>) {
    if ds == [] then true
    else
      var before := ds[..|ds| - 1];
      Recent(before) && StillRemembered(before, ds[|ds| - 1].record)
  }

  predicate StillRemembered(before: seq<Delivery>, r: Record) {
    Delivered(before, r.sequence) && !r.event.ThreadStarted?
    ==> r.sequence in Window(StableKeys(Firsts(before)))
  }

  // What the k-th first delivery was answered with.
  function FirstNotes(fs: seq<Delivery>, k: nat): seq<Note>
    requires k < |fs|
  {
    ProjectRecord(RunServer(fs[..k]), fs[k]).notes
  }

  ghost predicate Exact(g: Gateway, fs: seq<Delivery>) {
    && g.state == RunServer(fs)
    && g.order == Window(StableKeys(fs))
    && (forall s :: s in g.cache <==> s in g.order)
    && (forall k :: 0 <= k < |fs| && fs[k].record.sequence in g.cache
                    ==> g.cache[fs[k].record.sequence] == FirstNotes(fs, k))
  }

  lemma {:induction false} FirstsAreTheDelivered(ds: seq<Delivery>)
    ensures forall d :: d in Firsts(ds) ==> d in ds
    ensures forall s :: Delivered(ds, s)
              <==> (exists k :: 0 <= k < |Firsts(ds)| && Firsts(ds)[k].record.sequence == s)
    ensures forall i, j :: 0 <= i < j < |Firsts(ds)| ==> Firsts(ds)[i].record.sequence != Firsts(ds)[j].record.sequence
  {
    if ds != [] {
      var before := ds[..|ds| - 1];
      var d := ds[|ds| - 1];
      FirstsAreTheDelivered(before);
      forall s ensures Delivered(ds, s) <==> exists k :: 0 <= k < |Firsts(ds)| && Firsts(ds)[k].record.sequence == s {
        if Delivered(before, s) {
          var k :| 0 <= k < |Firsts(before)| && Firsts(before)[k].record.sequence == s;
          assert Firsts(ds)[k].record.sequence == s;
        } else if s == d.record.sequence {
          assert Firsts(ds)[|Firsts(before)|].record.sequence == s;
        }
      }
    }
  }

  lemma {:induction false} StableKeysAreKeys(fs: seq<Delivery>)
    ensures forall s :: s in StableKeys(fs) ==>
              exists k :: 0 <= k < |fs| && fs[k].record.sequence == s && !fs[k].record.event.ThreadStarted?
  {
    if fs != [] {
      var n := |fs| - 1;
      StableKeysAreKeys(fs[..n]);
      forall s | s in StableKeys(fs)
        ensures exists k :: 0 <= k < |fs| && fs[k].record.sequence == s && !fs[k].record.event.ThreadStarted?
      {
        if s in StableKeys(fs[..n]) {
          var k :| 0 <= k < n && fs[..n][k].record.sequence == s && !fs[..n][k].record.event.ThreadStarted?;
          assert fs[k] == fs[..n][k];
        } else {
          assert fs[n].record.sequence == s;
        }
      }
    }
  }

  lemma RememberedKeysWereDelivered(fs: seq<Delivery>, s: nat)
    requires s in Window(StableKeys(fs))
    ensures exists k :: 0 <= k < |fs| && fs[k].record.sequence == s && !fs[k].record.event.ThreadStarted?
  {
    StableKeysAreKeys(fs);
    assert s in StableKeys(fs);
  }

  lemma WindowOfAppend(keys: seq<nat>, s: nat)
    ensures Window(Window(keys) + [s]) == Window(keys + [s])
  {
  }

  // ---- One delivery -----------------------------------------------------------

  lemma FirstKept(fs: seq<Delivery>, d: Delivery, k: nat)
    requires k < |fs|
    ensures FirstNotes(fs + [d], k) == FirstNotes(fs, k)
  {
    assert (fs + [d])[..k] == fs[..k];
  }

  lemma KeysOfAppend(fs: seq<Delivery>, d: Delivery)
    ensures StableKeys(fs + [d])
            == StableKeys(fs) + if d.record.event.ThreadStarted? then [] else [d.record.sequence]
  {
    assert (fs + [d])[..|fs|] == fs;
  }

  lemma NewestOfAppend(fs: seq<Delivery>, d: Delivery)
    ensures RunServer(fs + [d]) == ProjectRecord(RunServer(fs), d).state
    ensures FirstNotes(fs + [d], |fs|) == ProjectRecord(RunServer(fs), d).notes
  {
    assert (fs + [d])[..|fs|] == fs;
  }

  lemma FirstOfAppend(fs: seq<Delivery>, d: Delivery)
    ensures RunServer(fs + [d]) == ProjectRecord(RunServer(fs), d).state
    ensures FirstNotes(fs + [d], |fs|) == ProjectRecord(RunServer(fs), d).notes
    ensures forall k :: 0 <= k < |fs| ==> FirstNotes(fs + [d], k) == FirstNotes(fs, k)
    ensures StableKeys(fs + [d])
            == StableKeys(fs) + if d.record.event.ThreadStarted? then [] else [d.record.sequence]
  {
    NewestOfAppend(fs, d);
    KeysOfAppend(fs, d);
    forall k | 0 <= k < |fs| ensures FirstNotes(fs + [d], k) == FirstNotes(fs, k) {
      FirstKept(fs, d, k);
    }
  }

  // Remembering a new answer keeps every older one that stays within the window.
  lemma AnswersStayExact(g: Gateway, fs: seq<Delivery>, d: Delivery)
    requires Exact(g, fs) && d.record.sequence !in g.cache
    requires forall k :: 0 <= k < |fs| ==> fs[k].record.sequence != d.record.sequence
    ensures var h := Send(g, d).gateway; var fs' := fs + [d];
            forall k :: 0 <= k < |fs'| && fs'[k].record.sequence in h.cache
              ==> h.cache[fs'[k].record.sequence] == FirstNotes(fs', k)
  {
    var h := Send(g, d).gateway;
    var fs' := fs + [d];
    FirstOfAppend(fs, d);
    OnlyThreadStartedIsUnstable(g.state, d, d.metadata);
    forall k | 0 <= k < |fs'| && fs'[k].record.sequence in h.cache
      ensures h.cache[fs'[k].record.sequence] == FirstNotes(fs', k)
    {
      if k < |fs| {
        assert fs'[k] == fs[k];
      }
    }
  }

  lemma CacheHoldsTheOrder(g: Gateway, d: Delivery)
    requires forall s :: s in g.cache <==> s in g.order
    ensures var h := Send(g, d).gateway; forall s :: s in h.cache <==> s in h.order
  {
    hide ProjectRecord, ReplayStable;
  }

  // A record nobody was sent before is folded once, and its answer remembered.
  lemma FirstDeliveryExact(g: Gateway, fs: seq<Delivery>, d: Delivery)
    requires Exact(g, fs)
    requires forall k :: 0 <= k < |fs| ==> fs[k].record.sequence != d.record.sequence
    ensures Exact(Send(g, d).gateway, fs + [d])
    ensures Send(g, d).notes == FirstNotes(fs + [d], |fs|)
  {
    hide ProjectRecord, RunServer, FirstNotes, StableKeys, Window;
    if d.record.sequence in g.order {
      RememberedKeysWereDelivered(fs, d.record.sequence);
    }
    FirstOfAppend(fs, d);
    WindowOfAppend(StableKeys(fs), d.record.sequence);
    OnlyThreadStartedIsUnstable(g.state, d, d.metadata);
    AnswersStayExact(g, fs, d);
    CacheHoldsTheOrder(g, d);
    assert StableKeys(fs) + [] == StableKeys(fs);
  }

  // A repeated record that is still remembered changes nothing and gets its first answer.
  lemma RepeatIsAnsweredFromCache(g: Gateway, fs: seq<Delivery>, d: Delivery, k: nat)
    requires Exact(g, fs) && k < |fs| && fs[k].record == d.record
    requires d.record.sequence in Window(StableKeys(fs))
    ensures Send(g, d) == Sent(g, FirstNotes(fs, k))
  {
  }

  // A repeated thread.started is projected afresh and changes nothing.
  lemma RepeatedStartIsRecomputed(g: Gateway, fs: seq<Delivery>, d: Delivery)
    requires Exact(g, fs) && d.record.event.ThreadStarted?
    requires forall k :: 0 <= k < |fs| && fs[k].record.sequence == d.record.sequence ==> fs[k].record == d.record
    ensures Send(g, d) == Sent(g, Stamp(d.record, [ThreadAnnounced(d.metadata)]))
  {
    if d.record.sequence in g.order {
      RememberedKeysWereDelivered(fs, d.record.sequence);
    }
    OnlyThreadStartedIsUnstable(g.state, d, d.metadata);
  }

  // ---- Whole runs -------------------------------------------------------------

  lemma FirstsOfAppend(before: seq<Delivery>, d: Delivery)
    ensures Firsts(before + [d])
            == Firsts(before) + if Delivered(before, d.record.sequence) then [] else [d]
    ensures Recent(before + [d]) <==> Recent(before) && StillRemembered(before, d.record)
    ensures RunGateway(before + [d]) == Send(RunGateway(before), d).gateway
    ensures Consistent(before + [d]) ==> Consistent(before)
  {
    var all := before + [d];
    assert all[..|all| - 1] == before;
    if Consistent(all) {
      assert forall i :: 0 <= i < |before| ==> all[i] == before[i];
    }
  }

  // The first delivery of a repeated record was of the same record.
  lemma FirstsAgree(before: seq<Delivery>, d: Delivery)
    requires Consistent(before + [d])
    ensures forall j :: 0 <= j < |Firsts(before)| && Firsts(before)[j].record.sequence == d.record.sequence
              ==> Firsts(before)[j].record == d.record
  {
    var all := before + [d];
    FirstsAreTheDelivered(before);
    forall j | 0 <= j < |Firsts(before)| && Firsts(before)[j].record.sequence == d.record.sequence
      ensures Firsts(before)[j].record == d.record
    {
      assert Firsts(before)[j] in before;
      var i :| 0 <= i < |before| && before[i] == Firsts(before)[j];
      assert all[i] == before[i] && all[|before|] == d;
    }
  }

  lemma NewRecordIsNotAmongFirsts(before: seq<Delivery>, s: nat)
    requires !Delivered(before, s)
    ensures forall k :: 0 <= k < |Firsts(before)| ==> Firsts(before)[k].record.sequence != s
  {
    FirstsAreTheDelivered(before);
  }

  lemma RepeatIsAmongFirsts(before: seq<Delivery>, s: nat) returns (k: nat)
    requires Delivered(before, s)
    ensures k < |Firsts(before)| && Firsts(before)[k].record.sequence == s
    ensures forall j :: 0 <= j < |Firsts(before)| && Firsts(before)[j].record.sequence == s ==> j == k
  {
    FirstsAreTheDelivered(before);
    k :| 0 <= k < |Firsts(before)| && Firsts(before)[k].record.sequence == s;
  }

  // One delivery after a run whose first deliveries were fs: g stays exact, and the answer
  // is the first answer (thread.started alone is recomputed).
  lemma DeliveryExact(before: seq<Delivery>, fs: seq<Delivery>, g: Gateway, d: Delivery)
    requires Consistent(before + [d]) && StillRemembered(before, d.record)
    requires fs == Firsts(before) && Exact(g, fs)
    ensures var fs' := fs + if Delivered(before, d.record.sequence) then [] else [d];
            Exact(Send(g, d).gateway, fs')
  {
    if !Delivered(before, d.record.sequence) {
      NewRecordIsNotAmongFirsts(before, d.record.sequence);
      FirstDeliveryExact(g, fs, d);
    } else {
      RepeatChangesNothing(before, fs, g, d);
      assert fs + [] == fs;
    }
  }

  lemma RepeatChangesNothing(before: seq<Delivery>, fs: seq<Delivery>, g: Gateway, d: Delivery)
    requires Consistent(before + [d]) && StillRemembered(before, d.record)
    requires fs == Firsts(before) && Exact(g, fs) && Delivered(before, d.record.sequence)
    ensures Send(g, d).gateway == g
    ensures forall k :: 0 <= k < |fs| && fs[k].record.sequence == d.record.sequence
              ==> Send(g, d).notes == (if d.record.event.ThreadStarted?
                                       then Stamp(d.record, [ThreadAnnounced(d.metadata)])
                                       else FirstNotes(fs, k))
  {
    var k := RepeatIsAmongFirsts(before, d.record.sequence);
    FirstsAgree(before, d);
    if d.record.event.ThreadStarted? {
      RepeatedStartIsRecomputed(g, fs, d);
    } else {
      RepeatIsAnsweredFromCache(g, fs, d, k);
    }
  }

  // Every record is folded into the projection exactly once, in the order of its first
  // delivery, and the cache holds the first answers.
  lemma {:induction false} EachRecordFoldsOnce(ds: seq<Delivery>)
    requires Consistent(ds) && Recent(ds)
    ensures Exact(RunGateway(ds), Firsts(ds))
  {
    if ds != [] {
      var before := ds[..|ds| - 1];
      var d := ds[|ds| - 1];
      assert ds == before + [d];
      FirstsOfAppend(before, d);
      EachRecordFoldsOnce(before);
      DeliveryExact(before, Firsts(before), RunGateway(before), d);
    }
  }

  // What the delivery after a run is answered with: the answer its record got first,
  // whoever asks and however often; thread.started alone is recomputed.
  lemma AnswersNeverChange(ds: seq<Delivery>, d: Delivery, k: nat)
    requires Consistent(ds + [d]) && Recent(ds + [d])
    requires k < |Firsts(ds + [d])| && Firsts(ds + [d])[k].record.sequence == d.record.sequence
    ensures Send(RunGateway(ds), d).notes
            == (if d.record.event.ThreadStarted? then Stamp(d.record, [ThreadAnnounced(d.metadata)])
                else FirstNotes(Firsts(ds + [d]), k))
  {
    var g, fs := RunGateway(ds), Firsts(ds);
    FirstsOfAppend(ds, d);
    EachRecordFoldsOnce(ds);
    if Delivered(ds, d.record.sequence) {
      assert Firsts(ds + [d]) == fs;
      RepeatChangesNothing(ds, fs, g, d);
    } else {
      assert Firsts(ds + [d]) == fs + [d];
      NewRecordIsNotAmongFirsts(ds, d.record.sequence);
      NewAnswer(g, fs, d, k);
    }
  }

  lemma NewAnswer(g: Gateway, fs: seq<Delivery>, d: Delivery, k: nat)
    requires Exact(g, fs) && k < |fs + [d]| && (fs + [d])[k].record.sequence == d.record.sequence
    requires forall j :: 0 <= j < |fs| ==> fs[j].record.sequence != d.record.sequence
    ensures k == |fs|
    ensures Send(g, d).notes == FirstNotes(fs + [d], k)
    ensures d.record.event.ThreadStarted? ==> Send(g, d).notes == Stamp(d.record, [ThreadAnnounced(d.metadata)])
  {
    assert forall j :: 0 <= j < |fs| ==> (fs + [d])[j] == fs[j];
    FirstDeliveryExact(g, fs, d);
  }

  // ---- End to end -------------------------------------------------------------

  // The notifications the delivery at index i of a run was answered with.
  function AnswerAt(ds: seq<Delivery>, i: nat): seq<Note>
    requires i < |ds|
  {
    Send(RunGateway(ds[..i]), ds[i]).notes
  }

  // What a client holds that was sent the deliveries at the given places.
  function Seen(ds: seq<Delivery>, places: seq<nat>): Client
    requires forall i :: 0 <= i < |places| ==> places[i] < |ds|
  {
    if places == [] then NO_CLIENT
    else ApplyNotes(Seen(ds, places[..|places| - 1]), AnswerAt(ds, places[|places| - 1]))
  }

  // The connection behind `places` was sent the first n records of the thread, in order.
  predicate CaughtUp(ds: seq<Delivery>, places: seq<nat>, n: nat) {
    && |places| == n <= |Firsts(ds)|
    && (forall i :: 0 <= i < |places| ==> places[i] < |ds|)
    && (forall i :: 0 <= i < |places| ==> ds[places[i]].record.sequence == Firsts(ds)[i].record.sequence)
  }

  lemma {:induction false} FirstsExtend(ds: seq<Delivery>, m: nat)
    requires m <= |ds|
    ensures |Firsts(ds[..m])| <= |Firsts(ds)| && Firsts(ds)[..|Firsts(ds[..m])|] == Firsts(ds[..m])
    decreases |ds|
  {
    if m == |ds| {
      assert ds[..m] == ds;
    } else {
      var before := ds[..|ds| - 1];
      FirstsExtend(before, m);
      assert before[..m] == ds[..m];
    }
  }

  lemma {:induction false} RecentPrefix(ds: seq<Delivery>, m: nat)
    requires m <= |ds| && Recent(ds) && Consistent(ds)
    ensures Recent(ds[..m]) && Consistent(ds[..m])
    decreases |ds|
  {
    if m == |ds| {
      assert ds[..m] == ds;
    } else {
      RecentPrefix(ds[..|ds| - 1], m);
      assert ds[..|ds| - 1][..m] == ds[..m];
    }
  }

  // The answer at any place is, as far as a client can see, the first answer.
  lemma AnswerIsFirstAnswer(ds: seq<Delivery>, p: nat, k: nat, c: Client)
    requires Consistent(ds) && Recent(ds) && p < |ds| && k < |Firsts(ds)|
    requires Firsts(ds)[k].record.sequence == ds[p].record.sequence
    ensures ApplyNotes(c, AnswerAt(ds, p)) == ApplyNotes(c, FirstNotes(Firsts(ds), k))
  {
    var before, d := ds[..p], ds[p];
    assert ds[..p + 1] == before + [d];
    RecentPrefix(ds, p + 1);
    FirstIsAlreadyThere(ds, p, k);
    var fs := Firsts(before + [d]);
    AnswersNeverChange(before, d, k);
    assert Firsts(ds)[..k] == fs[..k];
    if d.record.event.ThreadStarted? {
      FirstsAgree(ds[..p + 1], d);
      AnnouncementsLookAlike(c, d.record, d.metadata, fs[k].metadata);
    }
  }

  // By the time a record is delivered, its first delivery has its final place.
  lemma FirstIsAlreadyThere(ds: seq<Delivery>, p: nat, k: nat)
    requires p < |ds| && k < |Firsts(ds)| && Firsts(ds)[k].record.sequence == ds[p].record.sequence
    ensures k < |Firsts(ds[..p + 1])| <= |Firsts(ds)|
    ensures Firsts(ds[..p + 1]) == Firsts(ds)[..|Firsts(ds[..p + 1])|]
  {
    FirstsExtend(ds, p + 1);
    FirstsAreTheDelivered(ds);
    assert ds[..p + 1][p] == ds[p];
    var j := RepeatIsAmongFirsts(ds[..p + 1], ds[p].record.sequence);
    assert Firsts(ds)[j] == Firsts(ds[..p + 1])[j];
  }

  lemma AnnouncementsLookAlike(c: Client, r: Record, m: Json, m': Json)
    ensures ApplyNotes(c, Stamp(r, [ThreadAnnounced(m)])) == ApplyNotes(c, Stamp(r, [ThreadAnnounced(m')]))
  {
    assert Stamp(r, [ThreadAnnounced(m)])[..0] == Stamp(r, [ThreadAnnounced(m')])[..0] == [];
  }

  // However late a client subscribes and however its replay was assembled, once it has
  // been sent the thread's records in order it holds what a client present from the start
  // would hold.
  lemma {:induction false} LateClientsCatchUp(ds: seq<Delivery>, places: seq<nat>, n: nat)
    requires Consistent(ds) && Recent(ds) && CaughtUp(ds, places, n)
    ensures Seen(ds, places) == RunClient(Firsts(ds)[..n])
  {
    if n > 0 {
      var k := n - 1;
      var fs := Firsts(ds);
      assert CaughtUp(ds, places[..k], k);
      LateClientsCatchUp(ds, places[..k], k);
      AnswerIsFirstAnswer(ds, places[k], k, Seen(ds, places[..k]));
      assert fs[..n][..k] == fs[..k];
    }
  }

  // So every client that has been sent everything agrees with the server's projection,
  // turn by turn, whenever the turn has been announced.
  lemma EveryClientAgreesWithTheServer(ds: seq<Delivery>, places: seq<nat>, id: string)
    requires Consistent(ds) && Recent(ds) && CaughtUp(ds, places, |Firsts(ds)|)
    ensures var t, c := TurnOf(RunGateway(ds).state, id), ClientTurnOf(Seen(ds, places), id);
            && c.status == t.status
            && (!Lost(Firsts(ds), id) ==> (ItemsAgree(t.items, c.items) <==> Synced(Firsts(ds), id)))
  {
    assert Firsts(ds)[..|Firsts(ds)|] == Firsts(ds);
    LateClientsCatchUp(ds, places, |Firsts(ds)|);
    EachRecordFoldsOnce(ds);
    ClientShowsTheTranscript(Firsts(ds), id);
  }
}
