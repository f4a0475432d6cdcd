// Handing a thread's events to one connection: the replay, what arrives while the replay
// is still on its way, and the live stream (subscribeConnection in
// src/app-server/message-processor.ts, subscribe in src/app-server/thread-manager.ts).

module Delivery {
  import opened Wrappers
  import opened Events
  import opened EventBus

  // The records newer than the replay: the test every buffered record has to pass.
  function Newer(buffered: seq<Record>, latest: nat): seq<Record> {
    if buffered == [] then []
    else
      var rest := Newer(buffered[..|buffered| - 1], latest);
      var last := buffered[|buffered| - 1];
      if last.sequence > latest then rest + [last] else rest
  }

  // ---- Every interleaving of publishes with one subscription ------------------

  // Registering takes the replay and enters the subscriber table in one stretch; the
  // replay is flushed in a later one.
  datatype Phase = Unsubscribed | Replaying(replay: Replay, buffered: seq<Record>) | Live

  datatype Feed = Feed(history: seq<Record>, kept: nat, phase: Phase, sent: seq<Record>)

  // `kept` is how many records the bus still retains afterwards: whatever its bounds.
  datatype Step =
    | Publish(event: Event, turnId: Option<string>, kept: nat)
    | Register(after: int)
    | Flush

  predicate Enabled(f: Feed, s: Step) {
    match s
    case Publish(_, _, kept) => kept <= |f.history| + 1
    case Register(_) => f.phase.Unsubscribed?
    case Flush => f.phase.Replaying?
  }

  function Next(f: Feed, s: Step): Feed
    requires f.kept <= |f.history| && Enabled(f, s)
  {
    match s
    case Publish(event, turnId, kept) =>
      var r := Record(|f.history| + 1, turnId, event);
      f.(history := f.history + [r], kept := kept,
         phase := if f.phase.Replaying? then f.phase.(buffered := f.phase.buffered + [r]) else f.phase,
         sent := if f.phase.Live? then f.sent + [r] else f.sent)
    case Register(after) =>
      f.(phase := Replaying(ReplayOf(f.history, f.kept, after), []))
    case Flush =>
      f.(phase := Live, sent := f.sent + f.phase.replay.events + Newer(f.phase.buffered, f.phase.replay.latest))
  }

  predicate Run(f: Feed, steps: seq<Step>, g: Feed)
    decreases steps
  {
    if steps == [] then f == g
    else f.kept <= |f.history| && Enabled(f, steps[0]) && Run(Next(f, steps[0]), steps[1..], g)
  }

  // Before the flush nothing is sent and the buffer holds exactly what came after the
  // replay was taken; from the flush on, everything from `first` on has been sent, in
  // order, with nothing missing and nothing twice.
  predicate InStep(f: Feed, first: nat) {
    && f.kept <= |f.history|
    && Numbered(f.history)
    && (match f.phase
        case Unsubscribed => f.sent == []
        case Replaying(replay, buffered) =>
          f.sent == [] && first <= replay.latest <= |f.history|
          && replay.events == f.history[first..replay.latest]
          && buffered == f.history[replay.latest..]
        case Live => first <= |f.history| && f.sent == f.history[first..])
  }

  lemma {:induction false} NewerKeepsAll(buffered: seq<Record>, latest: nat)
    requires forall i :: 0 <= i < |buffered| ==> buffered[i].sequence > latest
    ensures Newer(buffered, latest) == buffered
  {
    if buffered != [] {
      NewerKeepsAll(buffered[..|buffered| - 1], latest);
    }
  }

  lemma SuffixOfAppend(history: seq<Record>, r: Record, from: nat)
    requires from <= |history|
    ensures (history + [r])[from..] == history[from..] + [r]
    ensures (history + [r])[..from] == history[..from]
  {
  }

  lemma PublishInStep(f: Feed, s: Step, first: nat)
    requires InStep(f, first) && s.Publish? && Enabled(f, s)
    ensures InStep(Next(f, s), first)
  {
    var r := Record(|f.history| + 1, s.turnId, s.event);
    if f.phase.Live? {
      SuffixOfAppend(f.history, r, first);
    } else if f.phase.Replaying? {
      var latest := f.phase.replay.latest;
      SuffixOfAppend(f.history, r, latest);
      assert (f.history + [r])[first..latest] == f.history[first..latest];
    }
  }

  lemma FlushInStep(f: Feed, first: nat)
    requires InStep(f, first) && f.phase.Replaying?
    ensures InStep(Next(f, Flush), first)
  {
    var latest := f.phase.replay.latest;
    NewerKeepsAll(f.phase.buffered, latest);
    assert f.history[first..latest] + f.history[latest..] == f.history[first..];
  }

  lemma RegisterInStep(f: Feed, after: int)
    requires InStep(f, 0) && f.phase.Unsubscribed?
    ensures InStep(Next(f, Register(after)), Skipped(|f.history|, f.kept, after))
  {
    var first := Skipped(|f.history|, f.kept, after);
    assert f.history[first..] == f.history[first..|f.history|];
  }

  lemma {:induction false} RunInStep(f: Feed, steps: seq<Step>, g: Feed, first: nat)
    requires InStep(f, first) && !f.phase.Unsubscribed? && Run(f, steps, g)
    ensures InStep(g, first) && !g.phase.Unsubscribed?
    decreases steps
  {
    if steps != [] {
      if steps[0].Publish? {
        PublishInStep(f, steps[0], first);
      } else {
        FlushInStep(f, first);
      }
      RunInStep(Next(f, steps[0]), steps[1..], g, first);
    }
  }

  // A subscriber that comes at any moment, with any offset, followed by any interleaving
  // of publishes and its flush: once flushed it has been sent every record from its first
  // one on, as one contiguous run, and the filter on the buffer has dropped nothing.
  lemma DeliveryIsGapFree(f: Feed, after: int, steps: seq<Step>, g: Feed)
    requires InStep(f, 0) && f.phase.Unsubscribed?
    requires Run(Next(f, Register(after)), steps, g)
    ensures var first := Skipped(|f.history|, f.kept, after);
            && |f.history| <= |g.history| && g.history[..|f.history|] == f.history
            && (g.phase.Live? ==> g.sent == g.history[first..])
            && (!g.phase.Live? ==> g.sent == [])
            && (forall i :: 0 <= i < |g.sent| ==> g.sent[i].sequence == first + i + 1)
            && (g.phase.Replaying? ==> Newer(g.phase.buffered, g.phase.replay.latest) == g.phase.buffered)
  {
    var first := Skipped(|f.history|, f.kept, after);
    RegisterInStep(f, after);
    RunInStep(Next(f, Register(after)), steps, g, first);
    HistoryOnlyGrows(Next(f, Register(after)), steps, g);
    if g.phase.Replaying? {
      NewerKeepsAll(g.phase.buffered, g.phase.replay.latest);
    }
  }

  lemma {:induction false} HistoryOnlyGrows(f: Feed, steps: seq<Step>, g: Feed)
    requires Run(f, steps, g)
    ensures |f.history| <= |g.history| && g.history[..|f.history|] == f.history
    decreases steps
  {
    if steps != [] {
      var n := Next(f, steps[0]);
      HistoryOnlyGrows(n, steps[1..], g);
      assert n.history[..|f.history|] == f.history;
    }
  }

  // Where a subscription starts: right after the offset, or at the oldest retained record
  // if that is later, or at the next record when the offset is beyond the end.
  lemma WhereDeliveryStarts(history: seq<Record>, kept: nat, after: int)
    requires kept <= |history| && Numbered(history) && 0 <= after <= MAX_SAFE_INTEGER
    ensures var first := Skipped(|history|, kept, after);
            && (after >= |history| ==> first == |history|)
            && (|history| - kept <= after <= |history| ==> first == after)
            && (after < |history| - kept ==> first == |history| - kept)
  {
  }

  // ---- The subscription object ------------------------------------------------

  // The closure state of one subscription. `sent` is what has been handed on, in order;
  // `feed` is the run so far, of the bus and this subscription together.
  class Subscription {
    var replaying: bool
    var buffered: seq<Record>
    var sent: seq<Record>
    ghost var feed: Feed
    ghost const first: nat

    ghost predicate Valid()
      reads this
    {
      && InStep(feed, first) && !feed.phase.Unsubscribed?
      && sent == feed.sent
      && replaying == feed.phase.Replaying?
      && (replaying ==> buffered == feed.phase.buffered)
    }

    // Registered with the bus at f.
    constructor (ghost f: Feed, ghost after: int)
      requires InStep(f, 0) && f.phase.Unsubscribed?
      ensures Valid() && feed == Next(f, Register(after)) && first == Skipped(|f.history|, f.kept, after)
    {
      replaying, buffered, sent := true, [], [];
      feed, first := Next(f, Register(after)), Skipped(|f.history|, f.kept, after);
      new;
      RegisterInStep(f, after);
    }

    // The bus publishes r. A live subscription has then been sent the history to its end.
    method OnEvent(r: Record, ghost s: Step)
      requires Valid() && s.Publish? && Enabled(feed, s) && r == Record(|feed.history| + 1, s.turnId, s.event)
      modifies this
      ensures Valid() && feed == Next(old(feed), s)
      ensures !replaying ==> sent == feed.history[first..] && sent != [] && sent[|sent| - 1] == r
    {
      PublishInStep(feed, s, first);
      if replaying {
        buffered := buffered + [r];
      } else {
        sent := sent + [r];
      }
      feed := Next(feed, s);
    }

    // However much was published meanwhile, what has been sent is the history from the
    // subscription's first record on.
    method Flush(replay: Replay)
      requires Valid() && feed.phase.Replaying? && replay == feed.phase.replay
      modifies this
      ensures Valid() && feed == Next(old(feed), Step.Flush)
      ensures !replaying && sent == feed.history[first..]
    {
      FlushInStep(feed, first);
      for i := 0 to |replay.events|
        invariant sent == replay.events[..i] && buffered == old(buffered) && feed == old(feed)
      {
        sent := sent + [replay.events[i]];
      }
      replaying := false;
      for i := 0 to |buffered|
        invariant !replaying && buffered == old(buffered) && feed == old(feed)
        invariant sent == replay.events + Newer(buffered[..i], replay.latest)
      {
        assert buffered[..i + 1][..i] == buffered[..i];
        if buffered[i].sequence > replay.latest {
          sent := sent + [buffered[i]];
        }
      }
      assert buffered[..|buffered|] == buffered;
      assert [] + replay.events == replay.events;
      feed := Next(feed, Step.Flush);
    }
  }
}
