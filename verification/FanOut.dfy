// One thread's bus, all its subscribers and the projection cache they share, as one machine
// (src/app-server/message-processor.ts:858-930, src/app-server/event-bus.ts:113-190).

module FanOut {
  import opened Wrappers
  import opened Events
  import opened EventBus
  import opened Transcript
  import opened SessionProjection
  import opened ClientParity
  import opened ProjectionCache
  import Feeds = Delivery

  // ---- The machine ------------------------------------------------------------

  // `first` is how many leading records a subscription leaves out. One that is no longer
  // open hears of nothing new, but still flushes what it has.
  datatype Subscription = Subscription(first: nat, feed: Feeds.Feed, open: bool)

  // A record handed to sendThreadEvent for the subscription `to`.
  datatype Sending = Sending(to: nat, delivery: Delivery)

  datatype World = World(history: seq<Record>, kept: nat, subs: seq<Subscription>, log: seq<Sending>)

  const START := World([], 0, [], [])

  datatype Bounds = Bounds(maxEvents: nat, maxBytes: nat)

  // `metadata` is the thread's at that moment. `kept` is how many records the bus retains.
  datatype Step =
    | Publish(event: Event, turnId: Option<string>, kept: nat, metadata: Json)
    | Register(after: int)
    | Flush(sub: nat, metadata: Json)
    | Leave(sub: nat)

  predicate Shaped(w: World) {
    && w.kept <= |w.history|
    && forall i :: 0 <= i < |w.subs| ==>
         && w.subs[i].feed.kept <= |w.subs[i].feed.history|
         && !w.subs[i].feed.phase.Unsubscribed?
         && (w.subs[i].open ==> w.subs[i].feed.history == w.history)
  }

  predicate Retains(b: Bounds, history: seq<Record>, kept: nat) {
    kept <= |history| && LongestFitting(Suffix(history, kept), history, b.maxEvents, b.maxBytes)
  }

  predicate Enabled(b: Bounds, w: World, s: Step) {
    && Shaped(w)
    && match s
       case Publish(event, turnId, kept, _) => Retains(b, w.history + [NewRecord(w, event, turnId)], kept)
       case Register(_) => true
       case Flush(i, _) => i < |w.subs| && w.subs[i].feed.phase.Replaying?
       case Leave(i) => i < |w.subs|
  }

  function NewRecord(w: World, event: Event, turnId: Option<string>): Record {
    Record(|w.history| + 1, turnId, event)
  }

  function Heard(sub: Subscription, s: Step): Subscription
    requires s.Publish? && sub.feed.kept <= |sub.feed.history|
    requires sub.open ==> s.kept <= |sub.feed.history| + 1
  {
    if sub.open then sub.(feed := Feeds.Next(sub.feed, Feeds.Publish(s.event, s.turnId, s.kept))) else sub
  }

  // Who is handed a record as it is published. One that takes the place of another of its
  // connection stands for a Leave and a Register in one.
  function Listeners(subs: seq<Subscription>): seq<nat> {
    if subs == [] then []
    else
      var n := |subs| - 1;
      Listeners(subs[..n]) + if subs[n].open && subs[n].feed.phase.Live? then [n] else []
  }

  function ToAll(listeners: seq<nat>, d: Delivery): seq<Sending> {
    seq(|listeners|, k requires 0 <= k < |listeners| => Sending(listeners[k], d))
  }

  function ToOne(i: nat, records: seq<Record>, metadata: Json): seq<Sending> {
    seq(|records|, k requires 0 <= k < |records| => Sending(i, Delivery(records[k], metadata)))
  }

  // The replay, and what was buffered meanwhile and is newer.
  function Flushed(f: Feeds.Feed): seq<Record>
    requires f.phase.Replaying?
  {
    f.phase.replay.events + Feeds.Newer(f.phase.buffered, f.phase.replay.latest)
  }

  function Registered(w: World, after: int): Subscription
    requires w.kept <= |w.history|
  {
    Subscription(Skipped(|w.history|, w.kept, after),
                 Feeds.Next(Feeds.Feed(w.history, w.kept, Feeds.Unsubscribed, []), Feeds.Register(after)), true)
  }

  function Next(b: Bounds, w: World, s: Step): World
    requires Enabled(b, w, s)
  {
    match s
    case Publish(event, turnId, kept, metadata) =>
      var r := NewRecord(w, event, turnId);
      World(w.history + [r], kept, seq(|w.subs|, i requires 0 <= i < |w.subs| => Heard(w.subs[i], s)),
            w.log + ToAll(Listeners(w.subs), Delivery(r, metadata)))
    case Register(after) => w.(subs := w.subs + [Registered(w, after)])
    case Flush(i, metadata) =>
      var sub := w.subs[i];
      w.(subs := w.subs[i := sub.(feed := Feeds.Next(sub.feed, Feeds.Flush))],
         log := w.log + ToOne(i, Flushed(sub.feed), metadata))
    case Leave(i) => w.(subs := w.subs[i := w.subs[i].(open := false)])
  }

  predicate Run(b: Bounds, w: World, steps: seq<Step>, v: World)
    decreases steps
  {
    if steps == [] then w == v
    else Enabled(b, w, steps[0]) && Run(b, Next(b, w, steps[0]), steps[1..], v)
  }

  // What sendThreadEvent is called with, in order.
  function Sent(log: seq<Sending>): seq<Delivery> {
    seq(|log|, k requires 0 <= k < |log| => log[k].delivery)
  }

  // ---- Folding once -----------------------------------------------------------

  // The records the projection is given, thread.started aside, which changes no state.
  function Folded(ds: seq<Delivery>): seq<nat> {
    if ds == [] then []
    else
      var before, d := ds[..|ds| - 1], ds[|ds| - 1];
      Folded(before)
      + if d.record.sequence in RunGateway(before).cache || d.record.event.ThreadStarted? then []
        else [d.record.sequence]
  }

  predicate NoDuplicates(keys: seq<nat>) {
    forall i, j :: 0 <= i < j < |keys| ==> keys[i] != keys[j]
  }

  lemma FoldedOfAppend(before: seq<Delivery>, d: Delivery)
    ensures Folded(before + [d])
         == Folded(before)
            + if d.record.sequence in RunGateway(before).cache || d.record.event.ThreadStarted? then []
              else [d.record.sequence]
  {
    assert (before + [d])[..|before|] == before;
  }

  lemma {:induction false} CacheIsDelivered(ds: seq<Delivery>)
    ensures forall s :: s in RunGateway(ds).cache ==> Delivered(ds, s)
  {
    if ds != [] {
      var before, d := ds[..|ds| - 1], ds[|ds| - 1];
      CacheIsDelivered(before);
      forall s | s in RunGateway(ds).cache
        ensures Delivered(ds, s)
      {
        if s == d.record.sequence {
          assert ds[|ds| - 1].record.sequence == s;
        } else {
          assert s in RunGateway(before).cache;
          var i :| 0 <= i < |before| && before[i].record.sequence == s;
          assert ds[i].record.sequence == s;
        }
      }
    }
  }

  // The stable records delivered so far, each once.
  function KnownKeys(ds: seq<Delivery>): (keys: seq<nat>) {
    StableKeys(Firsts(ds))
  }

  lemma KnownOfAppend(ds: seq<Delivery>, d: Delivery)
    ensures KnownKeys(ds + [d])
         == KnownKeys(ds) + if Delivered(ds, d.record.sequence) || d.record.event.ThreadStarted? then []
                        else [d.record.sequence]
  {
    hide Firsts, StableKeys, Recent, RunGateway, Delivered, Consistent;
    FirstsOfAppend(ds, d);
    KeysOfAppend(Firsts(ds), d);
    assert Firsts(ds) + [] == Firsts(ds) && KnownKeys(ds) + [] == KnownKeys(ds);
  }

  lemma NothingIsKnown()
    ensures KnownKeys([]) == []
  {
  }

  lemma {:induction false} KnownWasDelivered(ds: seq<Delivery>, s: nat)
    requires s in KnownKeys(ds)
    ensures Delivered(ds, s)
  {
    hide KnownKeys;
    NothingIsKnown();
    var before, d := ds[..|ds| - 1], ds[|ds| - 1];
    assert ds == before + [d];
    KnownOfAppend(before, d);
    DeliveredOfAppend(before, d, s);
    if s in KnownKeys(before) {
      KnownWasDelivered(before, s);
    }
  }

  lemma {:induction false} KnownIfStable(ds: seq<Delivery>, i: nat)
    requires Consistent(ds) && i < |ds|
    ensures ds[i].record.sequence in KnownKeys(ds) <==> !ds[i].record.event.ThreadStarted?
    decreases |ds|
  {
    hide KnownKeys, Recent, RunGateway;
    var before, d := ds[..|ds| - 1], ds[|ds| - 1];
    assert ds == before + [d];
    KnownOfAppend(before, d);
    FirstsOfAppend(before, d);
    if i < |before| {
      assert before[i] == ds[i];
      KnownIfStable(before, i);
    } else if Delivered(before, d.record.sequence) {
      var j :| 0 <= j < |before| && before[j].record.sequence == d.record.sequence;
      assert ds[j] == before[j] && ds[j].record == d.record;
      KnownIfStable(before, j);
    } else if d.record.sequence in KnownKeys(before) {
      KnownWasDelivered(before, d.record.sequence);
    }
  }

  lemma {:induction false} KnownAreDistinct(ds: seq<Delivery>)
    ensures NoDuplicates(KnownKeys(ds))
  {
    hide KnownKeys;
    if ds == [] {
      NothingIsKnown();
    } else {
      var before, d := ds[..|ds| - 1], ds[|ds| - 1];
      assert ds == before + [d];
      KnownAreDistinct(before);
      KnownOfAppend(before, d);
      if d.record.sequence in KnownKeys(before) {
        KnownWasDelivered(before, d.record.sequence);
      }
    }
  }

  lemma KnownIsDelivered(ds: seq<Delivery>)
    requires Consistent(ds)
    ensures forall i :: 0 <= i < |ds| ==> (ds[i].record.sequence in KnownKeys(ds) <==> !ds[i].record.event.ThreadStarted?)
    ensures forall s :: s in KnownKeys(ds) ==> Delivered(ds, s)
    ensures NoDuplicates(KnownKeys(ds))
  {
    hide KnownKeys, NoDuplicates, Delivered;
    KnownAreDistinct(ds);
    forall i | 0 <= i < |ds|
      ensures ds[i].record.sequence in KnownKeys(ds) <==> !ds[i].record.event.ThreadStarted?
    {
      KnownIfStable(ds, i);
    }
    forall s | s in KnownKeys(ds)
      ensures Delivered(ds, s)
    {
      KnownWasDelivered(ds, s);
    }
  }

  lemma RepeatIsHit(before: seq<Delivery>, d: Delivery)
    requires Consistent(before + [d]) && Recent(before) && !d.record.event.ThreadStarted?
    ensures d.record.sequence in RunGateway(before).cache <==> d.record.sequence in Window(KnownKeys(before))
  {
    FirstsOfAppend(before, d);
    EachRecordFoldsOnce(before);
  }

  // As long as every repeat is remembered, what is folded is what is delivered first. One
  // that is not makes the projection fold a record it was given before.
  lemma {:induction false} FoldsFollowFirsts(ds: seq<Delivery>)
    requires Consistent(ds)
    ensures Recent(ds) ==> Folded(ds) == KnownKeys(ds)
    ensures !Recent(ds) ==> !NoDuplicates(Folded(ds)) && |Folded(ds)| > |KnownKeys(ds)|
    decreases |ds|
  {
    if ds != [] {
      var before, d := ds[..|ds| - 1], ds[|ds| - 1];
      assert ds == before + [d];
      FirstsOfAppend(before, d);
      FoldsFollowFirsts(before);
      if Recent(before) {
        NextFoldFollows(before, d);
      } else {
        FoldedOfAppend(before, d);
        KnownOfAppend(before, d);
        CacheIsDelivered(before);
        DuplicatesStay(Folded(before), Folded(ds));
      }
    }
  }

  lemma NextFoldFollows(before: seq<Delivery>, d: Delivery)
    requires Consistent(before + [d]) && Recent(before) && Folded(before) == KnownKeys(before)
    ensures StillRemembered(before, d.record) ==> Folded(before + [d]) == KnownKeys(before + [d])
    ensures !StillRemembered(before, d.record) ==>
              !NoDuplicates(Folded(before + [d])) && |Folded(before + [d])| > |KnownKeys(before + [d])|
  {
    hide RunGateway, StableKeys, Firsts, Window, Recent, Folded;
    var s := d.record.sequence;
    FirstsOfAppend(before, d);
    FoldedOfAppend(before, d);
    KnownOfAppend(before, d);
    KnownIsDelivered(before);
    CacheIsDelivered(before);
    if !d.record.event.ThreadStarted? {
      RepeatIsHit(before, d);
      if Delivered(before, s) && s !in Window(KnownKeys(before)) {
        var i :| 0 <= i < |before| && before[i].record.sequence == s;
        assert (before + [d])[i] == before[i] && (before + [d])[|before|] == d;
        var j :| 0 <= j < |KnownKeys(before)| && KnownKeys(before)[j] == s;
        assert Folded(before + [d])[j] == s && Folded(before + [d])[|KnownKeys(before)|] == s;
      }
    }
  }

  lemma DuplicatesStay(keys: seq<nat>, more: seq<nat>)
    requires !NoDuplicates(keys) && keys <= more
    ensures !NoDuplicates(more)
  {
    var i, j :| 0 <= i < j < |keys| && keys[i] == keys[j];
    assert more[i] == more[j];
  }

  // Each stable record reaches the projection once, exactly when every repeat comes while
  // the record is still among the last ones remembered.
  lemma OnceMeansRecent(ds: seq<Delivery>)
    requires Consistent(ds)
    ensures NoDuplicates(Folded(ds)) <==> Recent(ds)
  {
    FoldsFollowFirsts(ds);
    KnownIsDelivered(ds);
  }

  // ---- When a repeat is remembered --------------------------------------------

  // How many keys follow s.
  function Since(keys: seq<nat>, s: nat): nat {
    if keys == [] || keys[|keys| - 1] == s then 0 else 1 + Since(keys[..|keys| - 1], s)
  }

  lemma {:induction false} SinceCounts(keys: seq<nat>, s: nat, p: nat)
    requires NoDuplicates(keys) && p < |keys| && keys[p] == s
    ensures Since(keys, s) == |keys| - 1 - p
  {
    if p < |keys| - 1 {
      SinceCounts(keys[..|keys| - 1], s, p);
    }
  }

  lemma {:induction false} SinceOfAppend(keys: seq<nat>, more: seq<nat>, s: nat)
    requires s !in more
    ensures Since(keys + more, s) == Since(keys, s) + |more|
  {
    if more == [] {
      assert keys + more == keys;
    } else {
      var n := |more| - 1;
      assert (keys + more)[..|keys + more| - 1] == keys + more[..n] && (keys + more)[|keys + more| - 1] == more[n];
      SinceOfAppend(keys, more[..n], s);
    }
  }

  lemma RememberedIfFewCame(keys: seq<nat>, s: nat)
    requires NoDuplicates(keys) && s in keys
    ensures s in Window(keys) <==> Since(keys, s) < CACHE_LIMIT
  {
    var p :| 0 <= p < |keys| && keys[p] == s;
    SinceCounts(keys, s, p);
    if |keys| > CACHE_LIMIT {
      var from := |keys| - CACHE_LIMIT;
      if p >= from {
        assert Window(keys)[p - from] == s;
      }
    }
  }

  function Deliveries(records: seq<Record>, metadata: Json): seq<Delivery> {
    seq(|records|, k requires 0 <= k < |records| => Delivery(records[k], metadata))
  }

  // The stable ones among the records that are delivered for the first time.
  function Fresh(ds: seq<Delivery>, records: seq<Record>): seq<nat> {
    if records == [] then []
    else
      var r := records[|records| - 1];
      Fresh(ds, records[..|records| - 1])
      + if Delivered(ds, r.sequence) || r.event.ThreadStarted? then [] else [r.sequence]
  }

  // The k-th of some records delivered after ds is new, or few stable records have been
  // delivered for the first time since it was.
  predicate Timely(ds: seq<Delivery>, records: seq<Record>, k: nat)
    requires k < |records|
  {
    Delivered(ds, records[k].sequence) && !records[k].event.ThreadStarted?
    ==> Since(KnownKeys(ds), records[k].sequence) + |Fresh(ds, records[..k])| < CACHE_LIMIT
  }

  predicate AllTimely(ds: seq<Delivery>, records: seq<Record>) {
    forall k :: 0 <= k < |records| ==> Timely(ds, records, k)
  }

  predicate DistinctRecords(records: seq<Record>) {
    forall i, j :: 0 <= i < j < |records| ==> records[i].sequence != records[j].sequence
  }

  lemma {:induction false} FreshAreNew(ds: seq<Delivery>, records: seq<Record>)
    ensures forall s :: s in Fresh(ds, records) ==> !Delivered(ds, s)
  {
    if records != [] {
      FreshAreNew(ds, records[..|records| - 1]);
    }
  }

  lemma DeliveredOfAppend(ds: seq<Delivery>, d: Delivery, s: nat)
    ensures Delivered(ds + [d], s) <==> Delivered(ds, s) || d.record.sequence == s
  {
    var all := ds + [d];
    if Delivered(ds, s) {
      var i :| 0 <= i < |ds| && ds[i].record.sequence == s;
      assert all[i].record.sequence == s;
    }
    assert all[|ds|] == d;
    if Delivered(all, s) {
      var i :| 0 <= i < |all| && all[i].record.sequence == s;
      assert i < |ds| ==> ds[i].record.sequence == s;
    }
  }

  predicate Among(records: seq<Record>, s: nat) {
    exists k :: 0 <= k < |records| && records[k].sequence == s
  }

  lemma AmongOfLast(records: seq<Record>, s: nat)
    requires records != []
    ensures Among(records, s) <==> Among(records[..|records| - 1], s) || records[|records| - 1].sequence == s
  {
    var n := |records| - 1;
    assert forall k :: 0 <= k < n ==> records[..n][k] == records[k];
  }

  lemma {:induction false} BatchIsDelivered(ds: seq<Delivery>, records: seq<Record>, metadata: Json, s: nat)
    ensures Delivered(ds + Deliveries(records, metadata), s) <==> Delivered(ds, s) || Among(records, s)
  {
    if records == [] {
      assert ds + Deliveries(records, metadata) == ds;
    } else {
      var n := |records| - 1;
      var before, d := ds + Deliveries(records[..n], metadata), Delivery(records[n], metadata);
      assert ds + Deliveries(records, metadata) == before + [d];
      BatchIsDelivered(ds, records[..n], metadata, s);
      DeliveredOfAppend(before, d, s);
      AmongOfLast(records, s);
    }
  }

  lemma {:induction false} BatchIsKnown(ds: seq<Delivery>, records: seq<Record>, metadata: Json)
    requires DistinctRecords(records)
    ensures KnownKeys(ds + Deliveries(records, metadata)) == KnownKeys(ds) + Fresh(ds, records)
  {
    hide KnownKeys;
    if records == [] {
      assert ds + Deliveries(records, metadata) == ds;
    } else {
      var n := |records| - 1;
      var before, d := ds + Deliveries(records[..n], metadata), Delivery(records[n], metadata);
      assert ds + Deliveries(records, metadata) == before + [d];
      BatchIsKnown(ds, records[..n], metadata);
      BatchIsDelivered(ds, records[..n], metadata, records[n].sequence);
      KnownOfAppend(before, d);
    }
  }

  // Some records sent in one go: their repeats are remembered exactly if each is timely.
  lemma {:induction false} BatchIsRecent(ds: seq<Delivery>, records: seq<Record>, metadata: Json)
    requires DistinctRecords(records) && Consistent(ds + Deliveries(records, metadata))
    ensures Recent(ds + Deliveries(records, metadata)) <==> Recent(ds) && AllTimely(ds, records)
  {
    if records == [] {
      assert ds + Deliveries(records, metadata) == ds;
    } else {
      var n := |records| - 1;
      var before, d := ds + Deliveries(records[..n], metadata), Delivery(records[n], metadata);
      assert ds + Deliveries(records, metadata) == before + [d];
      FirstsOfAppend(before, d);
      BatchIsRecent(ds, records[..n], metadata);
      LastIsTimely(ds, records, metadata);
      AllTimelyOfLast(ds, records);
    }
  }

  lemma AllTimelyOfLast(ds: seq<Delivery>, records: seq<Record>)
    requires records != []
    ensures AllTimely(ds, records) <==> AllTimely(ds, records[..|records| - 1]) && Timely(ds, records, |records| - 1)
  {
    var front := records[..|records| - 1];
    forall k | 0 <= k < |front|
      ensures Timely(ds, records, k) <==> Timely(ds, front, k)
    {
      assert front[..k] == records[..k];
    }
  }

  lemma LastIsTimely(ds: seq<Delivery>, records: seq<Record>, metadata: Json)
    requires records != [] && DistinctRecords(records) && Consistent(ds + Deliveries(records, metadata))
    ensures var n := |records| - 1;
            StillRemembered(ds + Deliveries(records[..n], metadata), records[n]) <==> Timely(ds, records, n)
  {
    var n := |records| - 1;
    var r := records[n];
    var before := ds + Deliveries(records[..n], metadata);
    BatchIsKnown(ds, records[..n], metadata);
    BatchIsDelivered(ds, records[..n], metadata, r.sequence);
    FreshAreNew(ds, records[..n]);
    if Delivered(ds, r.sequence) && !r.event.ThreadStarted? {
      PrefixIsConsistent(ds, records, metadata);
      KnownIsDelivered(ds);
      KnownIsDelivered(before);
      RepeatIsKnown(ds, records, metadata);
      SinceOfAppend(KnownKeys(ds), Fresh(ds, records[..n]), r.sequence);
      RememberedIfFewCame(KnownKeys(before), r.sequence);
    }
  }

  lemma PrefixIsConsistent(ds: seq<Delivery>, records: seq<Record>, metadata: Json)
    requires records != [] && Consistent(ds + Deliveries(records, metadata))
    ensures Consistent(ds) && Consistent(ds + Deliveries(records[..|records| - 1], metadata))
  {
    var all := ds + Deliveries(records, metadata);
    var before := ds + Deliveries(records[..|records| - 1], metadata);
    assert forall i :: 0 <= i < |before| ==> before[i] == all[i];
    assert forall i :: 0 <= i < |ds| ==> ds[i] == all[i];
  }

  lemma RepeatIsKnown(ds: seq<Delivery>, records: seq<Record>, metadata: Json)
    requires records != [] && Consistent(ds + Deliveries(records, metadata)) && Consistent(ds)
    requires var r := records[|records| - 1]; Delivered(ds, r.sequence) && !r.event.ThreadStarted?
    ensures records[|records| - 1].sequence in KnownKeys(ds)
  {
    var all, n := ds + Deliveries(records, metadata), |records| - 1;
    var i :| 0 <= i < |ds| && ds[i].record.sequence == records[n].sequence;
    assert all[i] == ds[i] && all[|ds| + n].record == records[n];
    KnownIsDelivered(ds);
  }

  function Copies(d: Delivery, n: nat): seq<Delivery> {
    seq(n, _ => d)
  }

  // A new record handed to everyone at once is always remembered.
  lemma {:induction false} CopiesAreRecent(ds: seq<Delivery>, d: Delivery, n: nat)
    requires !Delivered(ds, d.record.sequence)
    ensures Recent(ds + Copies(d, n)) <==> Recent(ds)
    ensures n > 0 && !d.record.event.ThreadStarted? ==> KnownKeys(ds + Copies(d, n)) == KnownKeys(ds) + [d.record.sequence]
    ensures Delivered(ds + Copies(d, n), d.record.sequence) <==> n > 0
  {
    if n == 0 {
      assert ds + Copies(d, n) == ds;
    } else {
      var before := ds + Copies(d, n - 1);
      assert ds + Copies(d, n) == before + [d];
      CopiesAreRecent(ds, d, n - 1);
      FirstsOfAppend(before, d);
      KnownOfAppend(before, d);
      DeliveredOfAppend(before, d, d.record.sequence);
      assert n == 1 ==> before == ds;
      if n > 1 && !d.record.event.ThreadStarted? {
        var keys := KnownKeys(before);
        assert Window(keys)[|Window(keys)| - 1] == d.record.sequence;
      }
    }
  }

  // ---- What every step keeps --------------------------------------------------

  // What a subscription has been sent.
  function Received(log: seq<Sending>, i: nat): seq<Record> {
    if log == [] then []
    else
      var last := log[|log| - 1];
      Received(log[..|log| - 1], i) + if last.to == i then [last.delivery.record] else []
  }

  predicate FromHistory(history: seq<Record>, r: Record) {
    1 <= r.sequence <= |history| && r == history[r.sequence - 1]
  }

  predicate LogHolds(history: seq<Record>, log: seq<Sending>) {
    forall k :: 0 <= k < |log| ==> FromHistory(history, log[k].delivery.record)
  }

  // Every subscription is in step with what it heard of the history, and has been sent what
  // its feed says.
  predicate SubHolds(w: World, i: nat)
    requires i < |w.subs|
  {
    && Feeds.InStep(w.subs[i].feed, w.subs[i].first)
    && w.subs[i].feed.history <= w.history
    && Received(w.log, i) == w.subs[i].feed.sent
  }

  predicate Sound(w: World) {
    && Shaped(w)
    && Numbered(w.history)
    && LogHolds(w.history, w.log)
    && (forall k :: 0 <= k < |w.log| ==> w.log[k].to < |w.subs|)
    && (forall i :: 0 <= i < |w.subs| ==> SubHolds(w, i))
  }

  predicate Ascending(s: seq<nat>) {
    forall i, j :: 0 <= i < j < |s| ==> s[i] < s[j]
  }

  lemma {:induction false} ListenerIsLive(subs: seq<Subscription>, i: nat)
    ensures i in Listeners(subs) <==> i < |subs| && subs[i].open && subs[i].feed.phase.Live?
  {
    if subs != [] {
      ListenerIsLive(subs[..|subs| - 1], i);
    }
  }

  lemma {:induction false} ListenersAscend(subs: seq<Subscription>)
    ensures Ascending(Listeners(subs))
    ensures forall k :: 0 <= k < |Listeners(subs)| ==> Listeners(subs)[k] < |subs|
  {
    if subs != [] {
      ListenersAscend(subs[..|subs| - 1]);
    }
  }

  lemma ReceivedOfAppend(log: seq<Sending>, s: Sending, i: nat)
    ensures Received(log + [s], i) == Received(log, i) + if s.to == i then [s.delivery.record] else []
  {
    assert (log + [s])[..|log|] == log;
  }

  lemma {:induction false} ReceivedOfAll(log: seq<Sending>, listeners: seq<nat>, d: Delivery, i: nat)
    requires Ascending(listeners)
    ensures Received(log + ToAll(listeners, d), i) == Received(log, i) + if i in listeners then [d.record] else []
  {
    if listeners == [] {
      assert log + ToAll(listeners, d) == log;
    } else {
      var n := |listeners| - 1;
      var before, s := log + ToAll(listeners[..n], d), Sending(listeners[n], d);
      assert log + ToAll(listeners, d) == before + [s];
      ReceivedOfAll(log, listeners[..n], d, i);
      ReceivedOfAppend(before, s, i);
      assert i in listeners <==> i in listeners[..n] || i == listeners[n];
    }
  }

  lemma {:induction false} ReceivedOfOne(log: seq<Sending>, j: nat, records: seq<Record>, metadata: Json, i: nat)
    ensures Received(log + ToOne(j, records, metadata), i) == Received(log, i) + if i == j then records else []
  {
    if records == [] {
      assert log + ToOne(j, records, metadata) == log;
    } else {
      var n := |records| - 1;
      var before, s := log + ToOne(j, records[..n], metadata), Sending(j, Delivery(records[n], metadata));
      assert log + ToOne(j, records, metadata) == before + [s];
      ReceivedOfOne(log, j, records[..n], metadata, i);
      ReceivedOfAppend(before, s, i);
      assert records[..n] + [records[n]] == records;
    }
  }

  lemma {:induction false} NobodyReceived(log: seq<Sending>, i: nat)
    requires forall k :: 0 <= k < |log| ==> log[k].to != i
    ensures Received(log, i) == []
  {
    if log != [] {
      NobodyReceived(log[..|log| - 1], i);
    }
  }

  lemma LogOfAppend(history: seq<Record>, log: seq<Sending>, more: seq<Sending>)
    requires LogHolds(history, log) && LogHolds(history, more)
    ensures LogHolds(history, log + more)
  {
  }

  lemma LogOfLonger(history: seq<Record>, r: Record, log: seq<Sending>)
    requires LogHolds(history, log)
    ensures LogHolds(history + [r], log)
  {
  }

  lemma PublishSound(b: Bounds, w: World, s: Step)
    requires Sound(w) && s.Publish? && Enabled(b, w, s)
    ensures Sound(Next(b, w, s))
  {
    assert s.kept <= |w.history| + 1;
    hide Received, Feeds.InStep, Feeds.Next, Listeners, Retains;
    var v := Next(b, w, s);
    PublishedLogHolds(w, s);
    assert Numbered(v.history);
    forall i | 0 <= i < |v.subs|
      ensures SubHolds(v, i) && v.subs[i].feed.kept <= |v.subs[i].feed.history|
      ensures !v.subs[i].feed.phase.Unsubscribed? && (v.subs[i].open ==> v.subs[i].feed.history == v.history)
    {
      HeardInStep(w, s, i);
    }
  }

  lemma PublishedLogHolds(w: World, s: Step)
    requires Sound(w) && s.Publish?
    ensures var r := NewRecord(w, s.event, s.turnId);
            var log := w.log + ToAll(Listeners(w.subs), Delivery(r, s.metadata));
            LogHolds(w.history + [r], log) && forall k :: 0 <= k < |log| ==> log[k].to < |w.subs|
  {
    var r := NewRecord(w, s.event, s.turnId);
    ListenersAscend(w.subs);
    LogOfLonger(w.history, r, w.log);
    assert FromHistory(w.history + [r], r);
    LogOfAppend(w.history + [r], w.log, ToAll(Listeners(w.subs), Delivery(r, s.metadata)));
  }

  lemma HeardInStep(w: World, s: Step, i: nat)
    requires Sound(w) && s.Publish? && s.kept <= |w.history| + 1 && i < |w.subs|
    ensures var r := NewRecord(w, s.event, s.turnId);
            var sub := Heard(w.subs[i], s);
            && sub.open == w.subs[i].open && sub.feed.kept <= |sub.feed.history|
            && !sub.feed.phase.Unsubscribed? && (sub.open ==> sub.feed.history == w.history + [r])
            && Feeds.InStep(sub.feed, sub.first) && sub.feed.history <= w.history + [r]
            && Received(w.log + ToAll(Listeners(w.subs), Delivery(r, s.metadata)), i) == sub.feed.sent
  {
    var r := NewRecord(w, s.event, s.turnId);
    assert SubHolds(w, i);
    ListenersAscend(w.subs);
    ListenerIsLive(w.subs, i);
    ReceivedOfAll(w.log, Listeners(w.subs), Delivery(r, s.metadata), i);
    if w.subs[i].open {
      Feeds.PublishInStep(w.subs[i].feed, Feeds.Publish(s.event, s.turnId, s.kept), w.subs[i].first);
    }
  }

  // A flush sends what the feed's history holds from the subscription's first record on.
  lemma FlushedIsHistory(w: World, i: nat)
    requires Sound(w) && i < |w.subs| && w.subs[i].feed.phase.Replaying?
    ensures w.subs[i].first <= |w.subs[i].feed.history| <= |w.history|
    ensures Flushed(w.subs[i].feed) == w.history[w.subs[i].first..|w.subs[i].feed.history|]
    ensures Feeds.InStep(Feeds.Next(w.subs[i].feed, Feeds.Flush), w.subs[i].first)
  {
    var sub := w.subs[i];
    assert SubHolds(w, i);
    Feeds.FlushInStep(sub.feed, sub.first);
    var done := Feeds.Next(sub.feed, Feeds.Flush);
    assert done.sent == [] + Flushed(sub.feed) == Flushed(sub.feed);
    assert sub.feed.history[sub.first..] == w.history[sub.first..|sub.feed.history|];
  }

  lemma FlushedSubHolds(w: World, i: nat, metadata: Json)
    requires Sound(w) && i < |w.subs| && w.subs[i].feed.phase.Replaying?
    ensures var feed := Feeds.Next(w.subs[i].feed, Feeds.Flush);
            && feed.phase.Live? && feed.history == w.subs[i].feed.history && feed.kept == w.subs[i].feed.kept
            && Feeds.InStep(feed, w.subs[i].first)
            && Received(w.log + ToOne(i, Flushed(w.subs[i].feed), metadata), i) == feed.sent
  {
    FlushedIsHistory(w, i);
    ReceivedOfOne(w.log, i, Flushed(w.subs[i].feed), metadata, i);
    assert SubHolds(w, i);
  }

  lemma FlushSound(b: Bounds, w: World, s: Step)
    requires Sound(w) && s.Flush? && Enabled(b, w, s)
    ensures Sound(Next(b, w, s))
  {
    var v := Next(b, w, s);
    var records := Flushed(w.subs[s.sub].feed);
    FlushedSubHolds(w, s.sub, s.metadata);
    FlushedIsHistory(w, s.sub);
    assert LogHolds(w.history, ToOne(s.sub, records, s.metadata));
    LogOfAppend(w.history, w.log, ToOne(s.sub, records, s.metadata));
    hide Received, Feeds.InStep, Feeds.Next, Flushed, LogHolds, Numbered;
    forall i | 0 <= i < |v.subs|
      ensures SubHolds(v, i)
    {
      assert SubHolds(w, i);
      ReceivedOfOne(w.log, s.sub, records, s.metadata, i);
    }
  }

  lemma RegisterSound(b: Bounds, w: World, s: Step)
    requires Sound(w) && s.Register? && Enabled(b, w, s)
    ensures Sound(Next(b, w, s))
  {
    var v := Next(b, w, s);
    Feeds.RegisterInStep(Feeds.Feed(w.history, w.kept, Feeds.Unsubscribed, []), s.after);
    NobodyReceived(w.log, |w.subs|);
    forall i | 0 <= i < |v.subs|
      ensures SubHolds(v, i)
    {
      if i < |w.subs| {
        assert SubHolds(w, i) && v.subs[i] == w.subs[i];
      }
    }
  }

  lemma StepSound(b: Bounds, w: World, s: Step)
    requires Sound(w) && Enabled(b, w, s)
    ensures Sound(Next(b, w, s))
  {
    match s
    case Publish(_, _, _, _) => PublishSound(b, w, s);
    case Register(_) => RegisterSound(b, w, s);
    case Flush(_, _) => FlushSound(b, w, s);
    case Leave(i) =>
      var v := Next(b, w, s);
      forall j | 0 <= j < |v.subs|
        ensures SubHolds(v, j)
      {
        assert SubHolds(w, j) && v.subs[j].feed == w.subs[j].feed;
      }
  }

  // ---- Whole runs -------------------------------------------------------------

  // Each record this flush sends again is sent while fewer than CACHE_LIMIT stable records
  // have gone out for the first time since it did.
  predicate Held(w: World, i: nat)
    requires i < |w.subs| && w.subs[i].feed.phase.Replaying?
  {
    AllTimely(Sent(w.log), Flushed(w.subs[i].feed))
  }

  predicate EveryFlushHeld(b: Bounds, w: World, steps: seq<Step>, v: World)
    requires Run(b, w, steps, v)
    decreases steps
  {
    steps != [] ==>
      && (steps[0].Flush? ==> Held(w, steps[0].sub))
      && EveryFlushHeld(b, Next(b, w, steps[0]), steps[1..], v)
  }

  lemma LogIsConsistent(w: World)
    requires Sound(w)
    ensures Consistent(Sent(w.log))
  {
    forall i, j | 0 <= i < j < |w.log| && Sent(w.log)[i].record.sequence == Sent(w.log)[j].record.sequence
      ensures Sent(w.log)[i].record == Sent(w.log)[j].record
    {
      assert FromHistory(w.history, w.log[i].delivery.record) && FromHistory(w.history, w.log[j].delivery.record);
    }
  }

  lemma NewIsUndelivered(w: World, s: nat)
    requires Sound(w) && s > |w.history|
    ensures !Delivered(Sent(w.log), s)
  {
    forall k | 0 <= k < |w.log|
      ensures Sent(w.log)[k].record.sequence != s
    {
      assert FromHistory(w.history, w.log[k].delivery.record);
    }
  }

  lemma StepStaysRecent(b: Bounds, w: World, s: Step)
    requires Sound(w) && Enabled(b, w, s)
    ensures Recent(Sent(Next(b, w, s).log)) <==> Recent(Sent(w.log)) && (s.Flush? ==> Held(w, s.sub))
  {
    var v := Next(b, w, s);
    match s
    case Publish(event, turnId, _, metadata) =>
      var d := Delivery(NewRecord(w, event, turnId), metadata);
      NewIsUndelivered(w, d.record.sequence);
      CopiesAreRecent(Sent(w.log), d, |Listeners(w.subs)|);
      assert Sent(v.log) == Sent(w.log) + Copies(d, |Listeners(w.subs)|);
    case Flush(i, metadata) =>
      var records := Flushed(w.subs[i].feed);
      FlushedIsHistory(w, i);
      StepSound(b, w, s);
      LogIsConsistent(v);
      assert Sent(v.log) == Sent(w.log) + Deliveries(records, metadata);
      BatchIsRecent(Sent(w.log), records, metadata);
    case _ =>
  }

  lemma {:induction false} RunStaysSound(b: Bounds, w: World, steps: seq<Step>, v: World)
    requires Sound(w) && Run(b, w, steps, v)
    ensures Sound(v)
    ensures Recent(Sent(v.log)) <==> Recent(Sent(w.log)) && EveryFlushHeld(b, w, steps, v)
    decreases steps
  {
    if steps != [] {
      StepSound(b, w, steps[0]);
      StepStaysRecent(b, w, steps[0]);
      RunStaysSound(b, Next(b, w, steps[0]), steps[1..], v);
    }
  }

  // Over every run of the bus, its subscribers and the cache they share, the projection is
  // given each record once, exactly when at every flush each record sent again is still
  // remembered. Then its state is one fold of the records in the order they first went out.
  lemma EachRecordFoldsOnceIfHeld(b: Bounds, steps: seq<Step>, v: World)
    requires Run(b, START, steps, v)
    ensures NoDuplicates(Folded(Sent(v.log))) <==> EveryFlushHeld(b, START, steps, v)
    ensures EveryFlushHeld(b, START, steps, v) ==> Exact(RunGateway(Sent(v.log)), Firsts(Sent(v.log)))
  {
    RunStaysSound(b, START, steps, v);
    LogIsConsistent(v);
    OnceMeansRecent(Sent(v.log));
    assert Sent(START.log) == [];
    if EveryFlushHeld(b, START, steps, v) {
      EachRecordFoldsOnce(Sent(v.log));
    }
  }

  // ---- When records first go out in order -------------------------------------

  // What this flush sends for the first time is newer than all that was sent before.
  predicate InOrder(w: World, i: nat)
    requires i < |w.subs| && w.subs[i].feed.phase.Replaying?
  {
    forall r, k :: r in Flushed(w.subs[i].feed) && 0 <= k < |w.log| && !Delivered(Sent(w.log), r.sequence)
                   ==> w.log[k].delivery.record.sequence < r.sequence
  }

  predicate EveryFlushInOrder(b: Bounds, w: World, steps: seq<Step>, v: World)
    requires Run(b, w, steps, v)
    decreases steps
  {
    steps != [] ==>
      && (steps[0].Flush? ==> InOrder(w, steps[0].sub))
      && EveryFlushInOrder(b, Next(b, w, steps[0]), steps[1..], v)
  }

  // While a client is live that has been sent everything from its first record on, flushes
  // that start no earlier send nothing for the first time.
  lemma LiveClientKeepsOrder(w: World, j: nat, i: nat)
    requires Sound(w) && j < |w.subs| && w.subs[j].open && w.subs[j].feed.phase.Live?
    requires i < |w.subs| && w.subs[i].feed.phase.Replaying? && w.subs[j].first <= w.subs[i].first
    ensures InOrder(w, i)
  {
    FlushedIsHistory(w, i);
    assert SubHolds(w, j);
    forall r | r in Flushed(w.subs[i].feed)
      ensures Delivered(Sent(w.log), r.sequence)
    {
      var k :| 0 <= k < |Flushed(w.subs[i].feed)| && Flushed(w.subs[i].feed)[k] == r;
      assert r == w.history[w.subs[i].first + k];
      assert r == w.subs[j].feed.sent[w.subs[i].first + k - w.subs[j].first];
      ReceivedIsDelivered(w.log, j, r);
    }
  }

  lemma {:induction false} ReceivedIsDelivered(log: seq<Sending>, i: nat, r: Record)
    requires r in Received(log, i)
    ensures Delivered(Sent(log), r.sequence)
  {
    var n := |log| - 1;
    if log[n].to == i && log[n].delivery.record == r {
      assert Sent(log)[n].record.sequence == r.sequence;
    } else {
      ReceivedIsDelivered(log[..n], i, r);
      var k :| 0 <= k < n && Sent(log[..n])[k].record.sequence == r.sequence;
      assert Sent(log)[k] == Sent(log[..n])[k];
    }
  }

  predicate Orderly(ds: seq<Delivery>) {
    forall i, j :: 0 <= i < j < |Firsts(ds)| ==> Firsts(ds)[i].record.sequence < Firsts(ds)[j].record.sequence
  }

  lemma NewestStaysOrderly(ds: seq<Delivery>, d: Delivery)
    requires Orderly(ds)
    requires Delivered(ds, d.record.sequence) || forall k :: 0 <= k < |ds| ==> ds[k].record.sequence < d.record.sequence
    ensures Orderly(ds + [d])
  {
    FirstsOfAppend(ds, d);
    FirstsAreTheDelivered(ds);
    if !Delivered(ds, d.record.sequence) {
      forall i | 0 <= i < |Firsts(ds)|
        ensures Firsts(ds)[i].record.sequence < d.record.sequence
      {
        assert Firsts(ds)[i] in ds;
      }
    }
  }

  lemma {:induction false} CopiesStayOrderly(ds: seq<Delivery>, d: Delivery, n: nat)
    requires Orderly(ds) && forall k :: 0 <= k < |ds| ==> ds[k].record.sequence < d.record.sequence
    ensures Orderly(ds + Copies(d, n))
  {
    if n == 0 {
      assert ds + Copies(d, n) == ds;
    } else {
      var before := ds + Copies(d, n - 1);
      assert ds + Copies(d, n) == before + [d];
      CopiesStayOrderly(ds, d, n - 1);
      if n > 1 {
        assert before[|before| - 1] == d;
      } else {
        assert before == ds;
      }
      NewestStaysOrderly(before, d);
    }
  }

  predicate AscendingRecords(records: seq<Record>) {
    forall i, j :: 0 <= i < j < |records| ==> records[i].sequence < records[j].sequence
  }

  // Some records, oldest first: those that are new are newer than all that went before.
  predicate NewOnesAreNewest(ds: seq<Delivery>, records: seq<Record>) {
    forall i, k :: 0 <= i < |records| && 0 <= k < |ds| && !Delivered(ds, records[i].sequence)
                   ==> ds[k].record.sequence < records[i].sequence
  }

  lemma {:induction false} BatchStaysOrderly(ds: seq<Delivery>, records: seq<Record>, metadata: Json)
    requires Orderly(ds) && AscendingRecords(records) && NewOnesAreNewest(ds, records)
    ensures Orderly(ds + Deliveries(records, metadata))
  {
    if records == [] {
      assert ds + Deliveries(records, metadata) == ds;
    } else {
      var n := |records| - 1;
      var before, d := ds + Deliveries(records[..n], metadata), Delivery(records[n], metadata);
      assert ds + Deliveries(records, metadata) == before + [d];
      BatchStaysOrderly(ds, records[..n], metadata);
      BatchIsDelivered(ds, records[..n], metadata, d.record.sequence);
      NewestStaysOrderly(before, d);
    }
  }

  lemma LogIsBounded(w: World)
    requires Sound(w)
    ensures forall k :: 0 <= k < |Sent(w.log)| ==> 1 <= Sent(w.log)[k].record.sequence <= |w.history|
  {
    assert forall k :: 0 <= k < |w.log| ==> FromHistory(w.history, w.log[k].delivery.record);
  }

  lemma FlushedAscends(w: World, i: nat)
    requires Sound(w) && i < |w.subs| && w.subs[i].feed.phase.Replaying?
    ensures AscendingRecords(Flushed(w.subs[i].feed))
    ensures InOrder(w, i) ==> NewOnesAreNewest(Sent(w.log), Flushed(w.subs[i].feed))
  {
    FlushedIsHistory(w, i);
    if InOrder(w, i) {
      var records := Flushed(w.subs[i].feed);
      forall j, k | 0 <= j < |records| && 0 <= k < |Sent(w.log)| && !Delivered(Sent(w.log), records[j].sequence)
        ensures Sent(w.log)[k].record.sequence < records[j].sequence
      {
        assert records[j] in records;
      }
    }
  }

  lemma StepStaysOrderly(b: Bounds, w: World, s: Step)
    requires Sound(w) && Enabled(b, w, s) && Orderly(Sent(w.log)) && (s.Flush? ==> InOrder(w, s.sub))
    ensures Orderly(Sent(Next(b, w, s).log))
  {
    var v := Next(b, w, s);
    LogIsBounded(w);
    match s
    case Publish(event, turnId, _, metadata) =>
      var d := Delivery(NewRecord(w, event, turnId), metadata);
      CopiesStayOrderly(Sent(w.log), d, |Listeners(w.subs)|);
      assert Sent(v.log) == Sent(w.log) + Copies(d, |Listeners(w.subs)|);
    case Flush(i, metadata) =>
      FlushedAscends(w, i);
      BatchStaysOrderly(Sent(w.log), Flushed(w.subs[i].feed), metadata);
      assert Sent(v.log) == Sent(w.log) + Deliveries(Flushed(w.subs[i].feed), metadata);
    case _ =>
  }

  lemma {:induction false} RunStaysOrderly(b: Bounds, w: World, steps: seq<Step>, v: World)
    requires Sound(w) && Orderly(Sent(w.log)) && Run(b, w, steps, v) && EveryFlushInOrder(b, w, steps, v)
    ensures Sound(v) && Orderly(Sent(v.log))
    decreases steps
  {
    if steps != [] {
      StepSound(b, w, steps[0]);
      StepStaysOrderly(b, w, steps[0]);
      RunStaysOrderly(b, Next(b, w, steps[0]), steps[1..], v);
    }
  }

  // ---- The bound --------------------------------------------------------------

  // How many keys are beyond x.
  function Beyond(keys: seq<nat>, x: nat): (n: nat)
    ensures n <= |keys|
  {
    if keys == [] then 0 else Beyond(keys[..|keys| - 1], x) + if keys[|keys| - 1] > x then 1 else 0
  }

  lemma {:induction false} NoneBeyond(keys: seq<nat>, x: nat)
    requires forall i :: 0 <= i < |keys| ==> keys[i] <= x
    ensures Beyond(keys, x) == 0
  {
    if keys != [] {
      NoneBeyond(keys[..|keys| - 1], x);
    }
  }

  lemma {:induction false} SinceIsBeyond(keys: seq<nat>, s: nat)
    requires Ascending(keys) && s in keys
    ensures Since(keys, s) == Beyond(keys, s)
  {
    if keys[|keys| - 1] == s {
      NoneBeyond(keys[..|keys| - 1], s);
    } else {
      SinceIsBeyond(keys[..|keys| - 1], s);
    }
  }

  lemma {:induction false} FewerBeyond(keys: seq<nat>, x: nat, s: nat)
    requires x <= s
    ensures Beyond(keys, s) <= Beyond(keys, x)
    ensures x < s && s in keys ==> Beyond(keys, s) < Beyond(keys, x)
  {
    if keys != [] {
      FewerBeyond(keys[..|keys| - 1], x, s);
    }
  }

  // The first key beyond x has all the others beyond x behind it.
  lemma {:induction false} FirstBeyond(keys: seq<nat>, x: nat, other: nat) returns (s: nat)
    requires Ascending(keys) && other in keys && other > x
    ensures s in keys && x < s <= other && Beyond(keys, s) == Beyond(keys, x) - 1
  {
    var n := |keys| - 1;
    if Beyond(keys[..n], x) == 0 {
      s := keys[n];
      NoneBeyond(keys, s);
      if other in keys[..n] {
        FewerBeyond(keys[..n], x, other);
      }
    } else {
      var inner := other;
      if other == keys[n] {
        inner := SomeBeyond(keys[..n], x);
      }
      s := FirstBeyond(keys[..n], x, inner);
      assert s in keys[..n];
    }
  }

  lemma {:induction false} SomeBeyond(keys: seq<nat>, x: nat) returns (s: nat)
    requires Beyond(keys, x) > 0
    ensures s in keys && s > x
  {
    var n := |keys| - 1;
    if keys[n] > x {
      s := keys[n];
    } else {
      s := SomeBeyond(keys[..n], x);
      assert s in keys[..n];
    }
  }

  lemma {:induction false} BeyondIsBounded(keys: seq<nat>, x: nat, top: nat)
    requires Ascending(keys) && x <= top && forall i :: 0 <= i < |keys| ==> keys[i] <= top
    ensures Beyond(keys, x) <= top - x
  {
    if keys != [] {
      var n := |keys| - 1;
      if keys[n] > x {
        BeyondIsBounded(keys[..n], x, keys[n] - 1);
      } else {
        NoneBeyond(keys, x);
      }
    }
  }

  lemma {:induction false} StableKeysAscend(fs: seq<Delivery>)
    requires forall i, j :: 0 <= i < j < |fs| ==> fs[i].record.sequence < fs[j].record.sequence
    ensures Ascending(StableKeys(fs))
    ensures fs != [] ==> forall s :: s in StableKeys(fs) ==> s <= fs[|fs| - 1].record.sequence
  {
    if fs != [] {
      var n := |fs| - 1;
      StableKeysAscend(fs[..n]);
      assert forall j :: 0 <= j < |StableKeys(fs[..n])| ==> StableKeys(fs[..n])[j] in StableKeys(fs[..n]);
      assert n > 0 ==> fs[n - 1].record.sequence < fs[n].record.sequence;
    }
  }

  // The stable records sent so far that come after the subscription's start.
  function Newer(w: World, i: nat): nat
    requires i < |w.subs|
  {
    Beyond(KnownKeys(Sent(w.log)), w.subs[i].first)
  }

  // The flush sends something again that the cache is meant to remember.
  predicate Repeats(w: World, i: nat)
    requires i < |w.subs|
  {
    exists s :: s in KnownKeys(Sent(w.log)) && w.subs[i].first < s <= |w.subs[i].feed.history|
  }

  // When records first go out in order, the cache keeps up with a flush exactly when it
  // repeats nothing, or the stable records sent since its start number at most CACHE_LIMIT.
  lemma HeldExactlyIfFew(w: World, i: nat)
    requires Sound(w) && Orderly(Sent(w.log))
    requires i < |w.subs| && w.subs[i].feed.phase.Replaying? && InOrder(w, i)
    ensures Held(w, i) <==> !Repeats(w, i) || Newer(w, i) <= CACHE_LIMIT
  {
    if Repeats(w, i) {
      FirstRepeatDecides(w, i);
    }
    if !Repeats(w, i) || Newer(w, i) <= CACHE_LIMIT {
      forall k | 0 <= k < |Flushed(w.subs[i].feed)|
        ensures Timely(Sent(w.log), Flushed(w.subs[i].feed), k)
      {
        LaterRepeatsAreTimely(w, i, k);
      }
    }
  }

  lemma FirstRepeatDecides(w: World, i: nat)
    requires Sound(w) && Orderly(Sent(w.log))
    requires i < |w.subs| && w.subs[i].feed.phase.Replaying? && InOrder(w, i) && Repeats(w, i)
    ensures Held(w, i) ==> Newer(w, i) <= CACHE_LIMIT
  {
    hide KnownKeys, Since, Flushed, InOrder, Sound, Orderly, Timely;
    KnownAscends(w);
    var keys := KnownKeys(Sent(w.log));
    var other :| other in keys && w.subs[i].first < other <= |w.subs[i].feed.history|;
    var s := FirstBeyond(keys, w.subs[i].first, other);
    RepeatIsTimely(w, i, s);
  }

  lemma LaterRepeatsAreTimely(w: World, i: nat, k: nat)
    requires Sound(w) && Orderly(Sent(w.log))
    requires i < |w.subs| && w.subs[i].feed.phase.Replaying? && InOrder(w, i)
    requires k < |Flushed(w.subs[i].feed)| && (!Repeats(w, i) || Newer(w, i) <= CACHE_LIMIT)
    ensures Timely(Sent(w.log), Flushed(w.subs[i].feed), k)
  {
    var r := Flushed(w.subs[i].feed)[k];
    FlushedIsHistory(w, i);
    assert r == w.history[w.subs[i].first + k];
    hide KnownKeys, Since, Flushed, InOrder, Orderly;
    if Delivered(Sent(w.log), r.sequence) && !r.event.ThreadStarted? {
      SentRecordIsKnown(w, r);
      RepeatIsTimely(w, i, r.sequence);
      FewerBeyond(KnownKeys(Sent(w.log)), w.subs[i].first, r.sequence);
    }
  }

  lemma KnownAscends(w: World)
    requires Sound(w) && Orderly(Sent(w.log))
    ensures Ascending(KnownKeys(Sent(w.log)))
  {
    StableKeysAscend(Firsts(Sent(w.log)));
  }

  lemma SentRecordIsKnown(w: World, r: Record)
    requires Sound(w) && FromHistory(w.history, r) && Delivered(Sent(w.log), r.sequence)
    ensures r.sequence in KnownKeys(Sent(w.log)) <==> !r.event.ThreadStarted?
  {
    LogIsConsistent(w);
    KnownIsDelivered(Sent(w.log));
    var k :| 0 <= k < |Sent(w.log)| && Sent(w.log)[k].record.sequence == r.sequence;
    assert FromHistory(w.history, w.log[k].delivery.record);
  }

  // For a record sent again, only the records after it count.
  lemma RepeatIsTimely(w: World, i: nat, s: nat)
    requires Sound(w) && Orderly(Sent(w.log))
    requires i < |w.subs| && w.subs[i].feed.phase.Replaying? && InOrder(w, i)
    requires s in KnownKeys(Sent(w.log)) && w.subs[i].first < s <= |w.subs[i].feed.history|
    ensures s - 1 - w.subs[i].first < |Flushed(w.subs[i].feed)|
    ensures Timely(Sent(w.log), Flushed(w.subs[i].feed), s - 1 - w.subs[i].first)
       <==> Beyond(KnownKeys(Sent(w.log)), s) < CACHE_LIMIT
  {
    hide KnownKeys, Since, Flushed, Orderly, InOrder;
    var records := Flushed(w.subs[i].feed);
    var k := s - 1 - w.subs[i].first;
    KnownAscends(w);
    FlushedIsHistory(w, i);
    FlushedAscends(w, i);
    assert records[k] == w.history[s - 1] && records[k].sequence == s;
    KnownWasSent(w, s);
    SentRecordIsKnown(w, records[k]);
    SinceIsBeyond(KnownKeys(Sent(w.log)), s);
    NothingFreshBefore(Sent(w.log), records, k);
  }

  lemma KnownWasSent(w: World, s: nat)
    requires Sound(w) && s in KnownKeys(Sent(w.log))
    ensures Delivered(Sent(w.log), s)
  {
    LogIsConsistent(w);
    KnownIsDelivered(Sent(w.log));
  }

  lemma NothingFreshBefore(ds: seq<Delivery>, records: seq<Record>, k: nat)
    requires AscendingRecords(records) && NewOnesAreNewest(ds, records)
    requires k < |records| && Delivered(ds, records[k].sequence)
    ensures Fresh(ds, records[..k]) == []
  {
    var m :| 0 <= m < |ds| && ds[m].record.sequence == records[k].sequence;
    forall j | 0 <= j < k
      ensures Delivered(ds, records[j].sequence)
    {
      assert records[j].sequence < ds[m].record.sequence;
    }
    AllDeliveredNoneFresh(ds, records[..k]);
  }

  lemma {:induction false} AllDeliveredNoneFresh(ds: seq<Delivery>, records: seq<Record>)
    requires forall j :: 0 <= j < |records| ==> Delivered(ds, records[j].sequence)
    ensures Fresh(ds, records) == []
  {
    if records != [] {
      AllDeliveredNoneFresh(ds, records[..|records| - 1]);
    }
  }

  predicate EveryFlushFits(b: Bounds, w: World, steps: seq<Step>, v: World)
    requires Run(b, w, steps, v)
    decreases steps
  {
    steps != [] ==>
      && (steps[0].Flush? ==> !Repeats(w, steps[0].sub) || Newer(w, steps[0].sub) <= CACHE_LIMIT)
      && EveryFlushFits(b, Next(b, w, steps[0]), steps[1..], v)
  }

  lemma {:induction false} HeldIsFitting(b: Bounds, w: World, steps: seq<Step>, v: World)
    requires Sound(w) && Orderly(Sent(w.log)) && Run(b, w, steps, v) && EveryFlushInOrder(b, w, steps, v)
    ensures EveryFlushHeld(b, w, steps, v) <==> EveryFlushFits(b, w, steps, v)
    decreases steps
  {
    if steps != [] {
      if steps[0].Flush? {
        HeldExactlyIfFew(w, steps[0].sub);
      }
      StepSound(b, w, steps[0]);
      StepStaysOrderly(b, w, steps[0]);
      HeldIsFitting(b, Next(b, w, steps[0]), steps[1..], v);
    }
  }

  // Over every run in which records first go out in order, each record is folded once
  // exactly when at every flush that repeats some record, the stable records sent since the
  // subscription's start number at most CACHE_LIMIT.
  lemma EachRecordFoldsOnceIfFew(b: Bounds, steps: seq<Step>, v: World)
    requires Run(b, START, steps, v) && EveryFlushInOrder(b, START, steps, v)
    ensures NoDuplicates(Folded(Sent(v.log))) <==> EveryFlushFits(b, START, steps, v)
  {
    assert Sent(START.log) == [];
    HeldIsFitting(b, START, steps, v);
    EachRecordFoldsOnceIfHeld(b, steps, v);
  }

  // What counts against the limit is at most the replay and what was published since it was
  // taken, and is all of it when all of it has gone out and none of it was thread.started.
  lemma ReplayAndGapBoundIt(w: World, i: nat)
    requires Sound(w) && Orderly(Sent(w.log)) && i < |w.subs| && w.subs[i].feed.phase.Replaying? && w.subs[i].open
    ensures Newer(w, i) <= |w.subs[i].feed.phase.replay.events| + |w.subs[i].feed.phase.buffered|
    ensures (forall s :: w.subs[i].first < s <= |w.history| ==> s in KnownKeys(Sent(w.log))) ==>
              Newer(w, i) == |w.subs[i].feed.phase.replay.events| + |w.subs[i].feed.phase.buffered|
  {
    var keys, first := KnownKeys(Sent(w.log)), w.subs[i].first;
    assert SubHolds(w, i);
    assert |w.subs[i].feed.phase.replay.events| + |w.subs[i].feed.phase.buffered| == |w.history| - first;
    KnownAscends(w);
    forall k | 0 <= k < |keys|
      ensures keys[k] <= |w.history|
    {
      assert keys[k] in keys;
      KnownWasSent(w, keys[k]);
      LogIsBounded(w);
    }
    BeyondIsBounded(keys, first, |w.history|);
    if forall s :: first < s <= |w.history| ==> s in keys {
      BeyondInFull(keys, first, |w.history|);
    }
  }

  lemma {:induction false} BeyondInFull(keys: seq<nat>, x: nat, top: nat)
    requires x <= top && forall s :: x < s <= top ==> s in keys
    ensures Beyond(keys, x) >= top - x
    decreases top - x
  {
    if x < top {
      BeyondInFull(keys, x + 1, top);
      FewerBeyond(keys, x, x + 1);
    }
  }

  // ---- Every client agrees ----------------------------------------------------

  // Where in the log a subscription's records stand.
  function Places(log: seq<Sending>, i: nat): (places: seq<nat>)
    ensures forall k :: 0 <= k < |places| ==> places[k] < |log|
  {
    if log == [] then []
    else Places(log[..|log| - 1], i) + if log[|log| - 1].to == i then [|log| - 1] else []
  }

  lemma {:induction false} PlacesHoldTheReceived(log: seq<Sending>, i: nat)
    ensures |Places(log, i)| == |Received(log, i)|
    ensures forall k :: 0 <= k < |Places(log, i)| ==> log[Places(log, i)[k]].delivery.record == Received(log, i)[k]
  {
    if log != [] {
      PlacesHoldTheReceived(log[..|log| - 1], i);
    }
  }

  function Sequences(ds: seq<Delivery>): seq<nat> {
    seq(|ds|, k requires 0 <= k < |ds| => ds[k].record.sequence)
  }

  lemma {:induction false} AscendingRange(keys: seq<nat>, a: nat, n: nat)
    requires a <= n && Ascending(keys) && forall s :: s in keys <==> a < s <= n
    ensures |keys| == n - a && forall k :: 0 <= k < |keys| ==> keys[k] == a + 1 + k
    decreases n
  {
    assert keys != [] ==> keys[0] in keys;
    if a < n {
      assert n in keys;
      var p :| 0 <= p < |keys| && keys[p] == n;
      assert keys[|keys| - 1] in keys;
      assert p == |keys| - 1;
      var front := keys[..p];
      forall s
        ensures s in front <==> a < s <= n - 1
      {
        if s in keys && s != n {
          var q :| 0 <= q < |keys| && keys[q] == s;
          assert front[q] == s;
        }
        if s in front {
          var q :| 0 <= q < |front| && front[q] == s;
          assert keys[q] == s && s in keys;
        }
      }
      AscendingRange(front, a, n - 1);
    }
  }

  // Nobody was sent anything older than what subscription i starts with.
  predicate StartsFirst(w: World, i: nat)
    requires i < |w.subs|
  {
    forall k :: 0 <= k < |w.log| ==> w.log[k].delivery.record.sequence > w.subs[i].first
  }

  lemma FirstIsLogged(w: World, k: nat) returns (p: nat)
    requires Sound(w) && k < |Firsts(Sent(w.log))|
    ensures p < |w.log| && w.log[p].delivery == Firsts(Sent(w.log))[k]
    ensures FromHistory(w.history, w.log[p].delivery.record)
  {
    var ds := Sent(w.log);
    FirstsAreTheDelivered(ds);
    assert Firsts(ds)[k] in ds;
    p :| 0 <= p < |ds| && ds[p] == Firsts(ds)[k];
  }

  lemma EverythingSinceWentOut(w: World, i: nat, s: nat)
    requires Sound(w) && i < |w.subs| && w.subs[i].open && w.subs[i].feed.phase.Live?
    requires w.subs[i].first < s <= |w.history|
    ensures s in Sequences(Firsts(Sent(w.log)))
  {
    var fs := Firsts(Sent(w.log));
    assert SubHolds(w, i);
    assert w.subs[i].feed.sent[s - 1 - w.subs[i].first] == w.history[s - 1];
    ReceivedIsDelivered(w.log, i, w.history[s - 1]);
    FirstsAreTheDelivered(Sent(w.log));
    var k :| 0 <= k < |fs| && fs[k].record.sequence == s;
    assert Sequences(fs)[k] == s;
  }

  // Then the records in the order they first went out are the history from there on.
  lemma FirstsAreTheHistory(w: World, i: nat)
    requires Sound(w) && Orderly(Sent(w.log))
    requires i < |w.subs| && w.subs[i].open && w.subs[i].feed.phase.Live? && StartsFirst(w, i)
    ensures var fs := Firsts(Sent(w.log));
            && w.subs[i].first <= |w.history| && |fs| == |w.history| - w.subs[i].first
            && forall k :: 0 <= k < |fs| ==> fs[k].record == w.history[w.subs[i].first + k]
  {
    var first, fs := w.subs[i].first, Firsts(Sent(w.log));
    var keys := Sequences(fs);
    assert first <= |w.history| by {
      assert SubHolds(w, i);
    }
    hide Firsts, Sound;
    forall s
      ensures s in keys <==> first < s <= |w.history|
    {
      if first < s <= |w.history| {
        EverythingSinceWentOut(w, i, s);
      }
      if s in keys {
        var k :| 0 <= k < |keys| && keys[k] == s;
        var p := FirstIsLogged(w, k);
      }
    }
    AscendingRange(keys, first, |w.history|);
    forall k | 0 <= k < |fs|
      ensures fs[k].record == w.history[first + k]
    {
      var p := FirstIsLogged(w, k);
      assert keys[k] == first + 1 + k;
    }
  }

  lemma LiveClientIsCaughtUp(w: World, i: nat)
    requires Sound(w) && Orderly(Sent(w.log))
    requires i < |w.subs| && w.subs[i].open && w.subs[i].feed.phase.Live? && StartsFirst(w, i)
    ensures CaughtUp(Sent(w.log), Places(w.log, i), |Firsts(Sent(w.log))|)
  {
    var ds, places := Sent(w.log), Places(w.log, i);
    FirstsAreTheHistory(w, i);
    PlacesHoldTheReceived(w.log, i);
    assert SubHolds(w, i);
    forall k | 0 <= k < |places|
      ensures ds[places[k]].record.sequence == Firsts(ds)[k].record.sequence
    {
      assert ds[places[k]].record == Received(w.log, i)[k] == w.history[w.subs[i].first + k];
    }
  }

  // The three together: in every such run, whoever is live and was there for the oldest
  // record sent, however late it registered and whatever was published meanwhile, has been
  // sent the history from its start on without a gap, and shows the turns the server's one
  // projection holds.
  lemma LiveClientsAgree(b: Bounds, steps: seq<Step>, w: World, i: nat, id: string)
    requires Run(b, START, steps, w) && EveryFlushInOrder(b, START, steps, w) && EveryFlushFits(b, START, steps, w)
    requires i < |w.subs| && w.subs[i].open && w.subs[i].feed.phase.Live? && StartsFirst(w, i)
    ensures w.subs[i].first <= |w.history| && Received(w.log, i) == w.history[w.subs[i].first..]
    ensures var ds := Sent(w.log);
            var t, c := TurnOf(RunGateway(ds).state, id), ClientTurnOf(Seen(ds, Places(w.log, i)), id);
            && RunGateway(ds).state == RunServer(Firsts(ds))
            && c.status == t.status
            && (!Lost(Firsts(ds), id) ==> (ItemsAgree(t.items, c.items) <==> Synced(Firsts(ds), id)))
  {
    assert Sent(START.log) == [];
    RunStaysOrderly(b, START, steps, w);
    HeldIsFitting(b, START, steps, w);
    RunStaysSound(b, START, steps, w);
    LogIsConsistent(w);
    assert SubHolds(w, i);
    LiveClientIsCaughtUp(w, i);
    EachRecordFoldsOnce(Sent(w.log));
    EveryClientAgreesWithTheServer(Sent(w.log), Places(w.log, i), id);
  }

  // ---- A ring of 2000 is not enough -------------------------------------------

  const REPORT: Event := TokenUsage(1, 0)

  predicate ReportsOnly(ds: seq<Delivery>) {
    forall i :: 0 <= i < |ds| ==> ds[i].record.event == REPORT
  }

  lemma {:induction false} ServerCountsReports(fs: seq<Delivery>)
    requires ReportsOnly(fs)
    ensures RunServer(fs).inputTokens == |StableKeys(fs)|
  {
    if fs != [] {
      ServerCountsReports(fs[..|fs| - 1]);
    }
  }

  lemma {:induction false} GatewayCountsFolds(ds: seq<Delivery>)
    requires ReportsOnly(ds)
    ensures RunGateway(ds).state.inputTokens == |Folded(ds)|
  {
    if ds != [] {
      GatewayCountsFolds(ds[..|ds| - 1]);
    }
  }

  lemma FirstsAreReports(ds: seq<Delivery>)
    requires ReportsOnly(ds)
    ensures ReportsOnly(Firsts(ds))
  {
    FirstsAreTheDelivered(ds);
    forall i | 0 <= i < |Firsts(ds)|
      ensures Firsts(ds)[i].record.event == REPORT
    {
      assert Firsts(ds)[i] in ds;
    }
  }

  // For a thread of usage reports the totals tell: they are right exactly when each report
  // was folded once.
  lemma TotalsTell(ds: seq<Delivery>)
    requires Consistent(ds) && ReportsOnly(ds)
    ensures RunGateway(ds).state == RunServer(Firsts(ds)) <==> NoDuplicates(Folded(ds))
    ensures !NoDuplicates(Folded(ds)) ==> RunGateway(ds).state.inputTokens > RunServer(Firsts(ds)).inputTokens
  {
    hide RunGateway, RunServer, Firsts, StableKeys, Folded, Recent, Window;
    OnceMeansRecent(ds);
    FoldsFollowFirsts(ds);
    GatewayCountsFolds(ds);
    FirstsAreReports(ds);
    ServerCountsReports(Firsts(ds));
    if Recent(ds) {
      EachRecordFoldsOnce(ds);
    }
  }

  // The bus as it is configured.
  const DEFAULT_BOUNDS := Bounds(2000, 8 * 1024 * 1024)

  function Reports(n: nat): seq<Record> {
    seq(n, k requires 0 <= k < n => Record(k + 1, None, REPORT))
  }

  function Ring(n: nat): nat {
    if n < 2000 then n else 2000
  }

  // One live client, there from the start, and n reports published.
  function Fed(n: nat): World {
    World(Reports(n), Ring(n), [Subscription(0, Feeds.Feed(Reports(n), Ring(n), Feeds.Live, Reports(n)), true)],
          ToOne(0, Reports(n), Null))
  }

  function Report(n: nat): Step {
    Publish(REPORT, None, Ring(n), Null)
  }

  function ReportSteps(m: nat, n: nat): seq<Step>
    requires m <= n
  {
    seq(n - m, k requires 0 <= k < n - m => Report(m + k + 1))
  }

  lemma {:induction false} ReportBytes(records: seq<Record>)
    requires forall i :: 0 <= i < |records| ==> records[i].event == REPORT
    ensures Bytes(records) == 200 * |records|
  {
    if records != [] {
      ReportBytes(records[1..]);
    }
  }

  lemma RingRetains(n: nat)
    ensures Retains(DEFAULT_BOUNDS, Reports(n), Ring(n))
  {
    ReportBytes(Suffix(Reports(n), Ring(n)));
  }

  lemma OneMoreReport(n: nat)
    ensures Enabled(DEFAULT_BOUNDS, Fed(n), Report(n + 1))
    ensures Next(DEFAULT_BOUNDS, Fed(n), Report(n + 1)) == Fed(n + 1)
  {
    hide Retains;
    var w := Fed(n);
    var r := Record(n + 1, None, REPORT);
    RingRetains(n + 1);
    assert Reports(n) + [r] == Reports(n + 1);
    FedIsHeard(n);
    OneListener(w.subs);
    assert w.log + ToAll([0], Delivery(r, Null)) == Fed(n + 1).log;
    assert Next(DEFAULT_BOUNDS, w, Report(n + 1)).subs == [Heard(w.subs[0], Report(n + 1))];
  }

  lemma FedIsHeard(n: nat)
    ensures Heard(Fed(n).subs[0], Report(n + 1)) == Fed(n + 1).subs[0]
  {
    assert Reports(n) + [Record(n + 1, None, REPORT)] == Reports(n + 1);
  }

  lemma OneListener(subs: seq<Subscription>)
    requires |subs| >= 1 && subs[0].open && subs[0].feed.phase.Live?
    requires forall i :: 1 <= i < |subs| ==> subs[i].feed.phase.Replaying?
    ensures Listeners(subs) == [0]
  {
    if |subs| == 1 {
      assert subs[..0] == [] && Listeners(subs[..0]) == [];
    } else {
      OneListener(subs[..|subs| - 1]);
    }
  }

  lemma {:induction false} ReportsRun(m: nat, n: nat)
    requires m <= n
    ensures Run(DEFAULT_BOUNDS, Fed(m), ReportSteps(m, n), Fed(n))
    decreases n - m
  {
    hide Fed, Report, Enabled, Next;
    if m < n {
      OneMoreReport(m);
      assert ReportSteps(m, n)[0] == Report(m + 1) && ReportSteps(m, n)[1..] == ReportSteps(m + 1, n);
      ReportsRun(m + 1, n);
    }
  }

  lemma {:induction false} RunOfAppend(b: Bounds, w: World, steps: seq<Step>, u: World, more: seq<Step>, v: World)
    requires Run(b, w, steps, u) && Run(b, u, more, v)
    ensures Run(b, w, steps + more, v)
    decreases steps
  {
    hide Enabled, Next;
    if steps == [] {
      assert steps + more == more;
    } else {
      assert (steps + more)[0] == steps[0] && (steps + more)[1..] == steps[1..] + more;
      RunOfAppend(b, Next(b, w, steps[0]), steps[1..], u, more, v);
    }
  }

  // The first client subscribes, and n reports go out to it.
  function Opening(n: nat): seq<Step> {
    [Register(0), Flush(0, Null)] + ReportSteps(0, n)
  }

  lemma OpeningRun(n: nat)
    ensures Run(DEFAULT_BOUNDS, START, Opening(n), Fed(n))
  {
    var one := START.(subs := [Registered(START, 0)]);
    assert Next(DEFAULT_BOUNDS, START, Register(0)) == one;
    assert Next(DEFAULT_BOUNDS, one, Flush(0, Null)) == Fed(0);
    TwoSteps(DEFAULT_BOUNDS, START, Register(0), one, Flush(0, Null), Fed(0));
    ReportsRun(0, n);
    RunOfAppend(DEFAULT_BOUNDS, START, [Register(0), Flush(0, Null)], Fed(0), ReportSteps(0, n), Fed(n));
  }

  // Then a second one registers, and one more report goes out before its replay does.
  function Crowded(n: nat): World {
    var first := Fed(n + 1);
    first.(subs := [first.subs[0],
                    Subscription(Skipped(n, Ring(n), 0),
                                 Feeds.Feed(Reports(n + 1), Ring(n + 1),
                                            Feeds.Replaying(ReplayOf(Reports(n), Ring(n), 0), [Record(n + 1, None, REPORT)]),
                                            []),
                                 true)])
  }

  lemma CrowdedRun(n: nat)
    ensures Run(DEFAULT_BOUNDS, START, Opening(n) + [Register(0), Report(n + 1)], Crowded(n))
  {
    OpeningRun(n);
    SecondComes(n);
    RunOfAppend(DEFAULT_BOUNDS, START, Opening(n), Fed(n), [Register(0), Report(n + 1)], Crowded(n));
  }

  lemma SecondRegisters(n: nat)
    ensures Enabled(DEFAULT_BOUNDS, Fed(n), Register(0))
    ensures Next(DEFAULT_BOUNDS, Fed(n), Register(0)) == Fed(n).(subs := Fed(n).subs + [Registered(Fed(n), 0)])
  {
  }

  lemma SecondComes(n: nat)
    ensures Run(DEFAULT_BOUNDS, Fed(n), [Register(0), Report(n + 1)], Crowded(n))
  {
    hide Fed, Crowded, Registered, Enabled, Next, Run, Report;
    SecondRegisters(n);
    SecondHears(n);
    TwoSteps(DEFAULT_BOUNDS, Fed(n), Register(0), Next(DEFAULT_BOUNDS, Fed(n), Register(0)), Report(n + 1), Crowded(n));
  }

  lemma TwoSteps(b: Bounds, w: World, s: Step, u: World, t: Step, v: World)
    requires Enabled(b, w, s) && Next(b, w, s) == u && Enabled(b, u, t) && Next(b, u, t) == v
    ensures Run(b, w, [s, t], v)
  {
    hide Enabled, Next;
    assert [s, t][1..] == [t] && [t][1..] == [];
    assert Run(b, v, [], v);
    assert Run(b, u, [t], v);
  }

  lemma SecondHears(n: nat)
    ensures var two := Fed(n).(subs := Fed(n).subs + [Registered(Fed(n), 0)]);
            Enabled(DEFAULT_BOUNDS, two, Report(n + 1)) && Next(DEFAULT_BOUNDS, two, Report(n + 1)) == Crowded(n)
  {
    hide Retains, ReplayOf, Skipped;
    var w := Fed(n);
    var two := w.(subs := w.subs + [Registered(w, 0)]);
    var r := Record(n + 1, None, REPORT);
    RingRetains(n + 1);
    assert Reports(n) + [r] == Reports(n + 1);
    FedIsHeard(n);
    OneListener(two.subs);
    assert w.log + ToAll([0], Delivery(r, Null)) == Fed(n + 1).log;
    assert [] + [r] == [r];
    assert Heard(two.subs[1], Report(n + 1)) == Crowded(n).subs[1];
    assert Next(DEFAULT_BOUNDS, two, Report(n + 1)).subs
        == [Heard(two.subs[0], Report(n + 1)), Heard(two.subs[1], Report(n + 1))];
  }

  // The record is told from its key, so the reports sent so far are numbered through.
  lemma {:induction false} ReportsAreKnown(n: nat)
    ensures KnownKeys(Deliveries(Reports(n), Null)) == seq(n, k requires 0 <= k < n => k + 1)
    ensures forall s: nat :: Delivered(Deliveries(Reports(n), Null), s) <==> 1 <= s <= n
  {
    if n > 0 {
      var before, d := Deliveries(Reports(n - 1), Null), Delivery(Record(n, None, REPORT), Null);
      assert Deliveries(Reports(n), Null) == before + [d];
      ReportsAreKnown(n - 1);
      KnownOfAppend(before, d);
      forall s: nat
        ensures Delivered(before + [d], s) <==> 1 <= s <= n
      {
        DeliveredOfAppend(before, d, s);
      }
    }
  }

  // With the ring as it is configured, one report published between taking a replay of 2000
  // and sending it is enough: the replay's first report is folded again, and the totals of
  // the one projection all clients share are wrong.
  lemma OnePublishInTheGapCountsTwice()
    ensures var steps := Opening(2000) + [Register(0), Report(2001)];
            && Run(DEFAULT_BOUNDS, START, steps, Crowded(2000))
            && Enabled(DEFAULT_BOUNDS, Crowded(2000), Flush(1, Null))
            && var ds := Sent(Next(DEFAULT_BOUNDS, Crowded(2000), Flush(1, Null)).log);
               && !NoDuplicates(Folded(ds))
               && RunGateway(ds).state != RunServer(Firsts(ds))
               && RunGateway(ds).state.inputTokens > RunServer(Firsts(ds)).inputTokens
  {
    var w := Crowded(2000);
    var v := Next(DEFAULT_BOUNDS, w, Flush(1, Null));
    CrowdedRun(2000);
    assert Sent(START.log) == [];
    RunStaysSound(DEFAULT_BOUNDS, START, Opening(2000) + [Register(0), Report(2001)], w);
    StepSound(DEFAULT_BOUNDS, w, Flush(1, Null));
    FirstIsForgotten();
    StepStaysRecent(DEFAULT_BOUNDS, w, Flush(1, Null));
    LogIsConsistent(v);
    OnceMeansRecent(Sent(v.log));
    OnlyReportsSent(v);
    TotalsTell(Sent(v.log));
  }

  lemma OnlyReportsSent(w: World)
    requires Sound(w) && forall i :: 0 <= i < |w.history| ==> w.history[i].event == REPORT
    ensures ReportsOnly(Sent(w.log))
  {
    assert forall k :: 0 <= k < |w.log| ==> FromHistory(w.history, w.log[k].delivery.record);
  }

  lemma FirstIsForgotten()
    requires Sound(Crowded(2000))
    ensures !Held(Crowded(2000), 1)
  {
    var w := Crowded(2000);
    var ds := Sent(w.log);
    var records := Flushed(w.subs[1].feed);
    assert ds == Deliveries(Reports(2001), Null);
    ReportsAreKnown(2001);
    FlushedIsHistory(w, 1);
    assert records[0] == Reports(2001)[0];
    SinceCounts(KnownKeys(ds), 1, 0);
    assert !Timely(ds, records, 0);
  }
}
