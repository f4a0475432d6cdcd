// The permits that bound how many turns run at once (AsyncSemaphore in
// src/app-server/thread-manager.ts). A ticket names one call of `run`: the promise it
// waits on, and the release function it is handed.

module Semaphore {
  import opened Wrappers

  // `granted` lists the tickets in the order they got a permit; `released` holds those
  // whose release function has run; `rejected` those whose signal aborted in time.
  datatype Permits = Permits(
    limit: nat,
    active: int,
    waiters: seq<nat>,
    granted: seq<nat>,
    released: set<nat>,
    rejected: set<nat>)

  datatype Step =
    | Acquire(ticket: nat, aborted: bool)
    | Abort(ticket: nat)
    | Release(ticket: nat)

  // A ticket acquires once; only a ticket that was granted has a release function.
  predicate Enabled(p: Permits, s: Step) {
    match s
    case Acquire(t, _) => t !in p.waiters && t !in p.granted && t !in p.rejected
    case Abort(_) => true
    case Release(t) => t in p.granted
  }

  function Without(s: seq<nat>, t: nat): seq<nat> {
    if s == [] then [] else if s[0] == t then s[1..] else [s[0]] + Without(s[1..], t)
  }

  function Next(p: Permits, s: Step): Permits
    requires Enabled(p, s)
  {
    match s
    case Acquire(t, aborted) =>
      if aborted then p.(rejected := p.rejected + {t})
      else if p.active < p.limit then p.(active := p.active + 1, granted := p.granted + [t])
      else p.(waiters := p.waiters + [t])
    case Abort(t) =>
      if t in p.waiters then p.(waiters := Without(p.waiters, t), rejected := p.rejected + {t})
      else p
    case Release(t) =>
      if t in p.released then p
      else if p.waiters == [] then p.(active := p.active - 1, released := p.released + {t})
      else p.(waiters := p.waiters[1..], granted := p.granted + [p.waiters[0]], released := p.released + {t})
  }

  // ---- The semaphore object ---------------------------------------------------

  class AsyncSemaphore {
    const limit: nat
    var active: int
    var waiters: seq<nat>
    var granted: seq<nat>
    var released: set<nat>
    var rejected: set<nat>

    function View(): Permits
      reads this
    {
      Permits(limit, active, waiters, granted, released, rejected)
    }

    constructor (limit: nat)
      requires 1 <= limit
      ensures View() == Permits(limit, 0, [], [], {}, {})
    {
      this.limit := limit;
      active, waiters, granted, released, rejected := 0, [], [], {}, {};
    }

    method Acquire(ticket: nat, aborted: bool)
      requires Enabled(View(), Step.Acquire(ticket, aborted))
      modifies this
      ensures View() == Next(old(View()), Step.Acquire(ticket, aborted))
    {
      if aborted {
        rejected := rejected + {ticket};
        return;
      }
      if active < limit {
        active := active + 1;
        granted := granted + [ticket];
        return;
      }
      waiters := waiters + [ticket];
    }

    // The abort listener of a waiter: it takes itself out of the queue. A ticket that has
    // been handed a permit has no listener any more.
    method Abort(ticket: nat)
      modifies this
      ensures View() == Next(old(View()), Step.Abort(ticket))
    {
      var index := IndexOf(waiters, ticket);
      if index < |waiters| {
        SpliceIsWithout(waiters, ticket, index);
        waiters := waiters[..index] + waiters[index + 1..];
        rejected := rejected + {ticket};
      }
    }

    // The release function: it hands the permit to the first waiter, or gives it back.
    method Release(ticket: nat)
      requires ticket in granted
      modifies this
      ensures View() == Next(old(View()), Step.Release(ticket))
    {
      if ticket in released {
        return;
      }
      released := released + {ticket};
      if waiters == [] {
        active := active - 1;
        return;
      }
      var waiter := waiters[0];
      waiters := waiters[1..];
      granted := granted + [waiter];
    }
  }

  method IndexOf(s: seq<nat>, t: nat) returns (index: nat)
    ensures index <= |s|
    ensures t in s <==> index < |s|
    ensures index < |s| ==> s[index] == t && t !in s[..index]
  {
    index := 0;
    while index < |s| && s[index] != t
      invariant index <= |s| && t !in s[..index]
    {
      index := index + 1;
    }
  }

  lemma {:induction false} SpliceIsWithout(s: seq<nat>, t: nat, index: nat)
    requires index < |s| && s[index] == t && t !in s[..index]
    ensures s[..index] + s[index + 1..] == Without(s, t)
    decreases index
  {
    if index > 0 {
      assert s[0] in s[..index];
      assert s[1..][..index - 1] == s[1..index];
      assert forall x :: x in s[1..index] ==> x in s[..index];
      SpliceIsWithout(s[1..], t, index - 1);
      assert s[..index] + s[index + 1..] == [s[0]] + (s[1..][..index - 1] + s[1..][index..]);
    }
  }

  // ---- What every step keeps --------------------------------------------------

  predicate NoDuplicates(s: seq<nat>) {
    forall i, j :: 0 <= i < j < |s| ==> s[i] != s[j]
  }

  // The tickets that hold a permit: granted and not yet released.
  function Holders(p: Permits): set<nat> {
    (set t | t in p.granted) - p.released
  }

  // Every permit that is out is held by exactly one ticket, there are never more than the
  // limit, and nobody waits while one is free.
  predicate Sound(p: Permits) {
    && 1 <= p.limit
    && p.active == |Holders(p)| <= p.limit
    && (p.waiters != [] ==> p.active == p.limit)
    && Tidy(p)
  }

  lemma {:induction false} WithoutDrops(s: seq<nat>, t: nat)
    requires NoDuplicates(s)
    ensures NoDuplicates(Without(s, t))
    ensures forall x :: x in Without(s, t) <==> x in s && x != t
    ensures t in s ==> |Without(s, t)| == |s| - 1
  {
    if s != [] {
      var rest := s[1..];
      assert forall i :: 0 <= i < |rest| ==> rest[i] == s[i + 1];
      assert s[0] !in rest;
      assert forall x :: x in s <==> x == s[0] || x in rest;
      if s[0] != t {
        WithoutDrops(rest, t);
      }
    }
  }

  // A ticket that holds nothing yet is handed a permit.
  function Granted(p: Permits, t: nat): Permits {
    p.(granted := p.granted + [t])
  }

  predicate Tidy(p: Permits) {
    && NoDuplicates(p.waiters) && NoDuplicates(p.granted)
    && (forall t :: t in p.waiters ==> t !in p.granted && t !in p.rejected)
    && (forall t :: t in p.granted ==> t !in p.rejected)
    && (forall t :: t in p.released ==> t in p.granted)
  }

  lemma GrantTidy(p: Permits, t: nat)
    requires Tidy(p) && t !in p.granted && t !in p.waiters && t !in p.rejected
    ensures Tidy(Granted(p, t))
    ensures Holders(Granted(p, t)) == Holders(p) + {t} && t !in Holders(p)
  {
  }

  lemma AcquireSound(p: Permits, s: Step)
    requires Sound(p) && s.Acquire? && Enabled(p, s)
    ensures Sound(Next(p, s))
  {
    if s.aborted {
      assert Holders(Next(p, s)) == Holders(p);
    } else if p.active < p.limit {
      GrantTidy(p, s.ticket);
      assert Holders(Next(p, s)) == Holders(Granted(p, s.ticket));
    } else {
      assert Holders(Next(p, s)) == Holders(p);
    }
  }

  lemma AbortSound(p: Permits, s: Step)
    requires Sound(p) && s.Abort?
    ensures Sound(Next(p, s))
  {
    WithoutDrops(p.waiters, s.ticket);
    assert Holders(Next(p, s)) == Holders(p);
  }

  lemma ReleaseSound(p: Permits, s: Step)
    requires Sound(p) && s.Release? && Enabled(p, s)
    ensures Sound(Next(p, s))
  {
    if s.ticket !in p.released {
      var freed := p.(released := p.released + {s.ticket});
      assert Holders(freed) == Holders(p) - {s.ticket};
      if p.waiters != [] {
        var head := p.waiters[0];
        var served := freed.(waiters := p.waiters[1..]);
        HeadServed(p, freed);
        GrantTidy(served, head);
        assert Holders(Next(p, s)) == Holders(served) + {head} && Holders(served) == Holders(freed);
        hide Tidy, Holders;
      } else {
        assert Holders(Next(p, s)) == Holders(freed);
        hide Holders;
      }
    }
  }

  lemma HeadServed(p: Permits, freed: Permits)
    requires Tidy(p) && p.waiters != [] && freed == p.(released := freed.released)
    requires forall t :: t in freed.released ==> t in p.granted
    ensures Tidy(freed.(waiters := p.waiters[1..]))
    ensures p.waiters[0] !in p.waiters[1..] && p.waiters[0] !in p.granted && p.waiters[0] !in p.rejected
  {
    assert p.waiters[0] in p.waiters;
    assert forall i :: 0 <= i < |p.waiters| - 1 ==> p.waiters[1..][i] == p.waiters[i + 1];
  }

  lemma StepSound(p: Permits, s: Step)
    requires Sound(p) && Enabled(p, s)
    ensures Sound(Next(p, s))
  {
    match s
    case Acquire(_, _) => AcquireSound(p, s);
    case Abort(_) => AbortSound(p, s);
    case Release(_) => ReleaseSound(p, s);
  }

  // Running a release function a second time has no effect.
  lemma DoubleReleaseIsHarmless(p: Permits, t: nat)
    requires Enabled(p, Release(t))
    ensures var q := Next(p, Release(t)); Enabled(q, Release(t)) && Next(q, Release(t)) == q
  {
  }

  // ---- Whole runs -------------------------------------------------------------

  predicate Run(p: Permits, steps: seq<Step>, q: Permits)
    decreases steps
  {
    if steps == [] then p == q
    else Enabled(p, steps[0]) && Run(Next(p, steps[0]), steps[1..], q)
  }

  // In every reachable state the permits in use are exactly the unreleased ones, at most
  // `limit` turns run, a turn waits only while all permits are out, and a ticket whose
  // signal aborted in time holds no permit and never will.
  lemma {:induction false} PermitsAreConserved(p: Permits, steps: seq<Step>, q: Permits)
    requires Sound(p) && Run(p, steps, q)
    ensures Sound(q)
    ensures p.rejected <= q.rejected && q.limit == p.limit
    ensures forall t :: t in p.rejected ==> t !in q.granted && t !in q.waiters
    decreases steps
  {
    if steps != [] {
      StepSound(p, steps[0]);
      PermitsAreConserved(Next(p, steps[0]), steps[1..], q);
    }
  }

  lemma StartsSound(limit: nat)
    requires 1 <= limit
    ensures Sound(Permits(limit, 0, [], [], {}, {}))
  {
    assert Holders(Permits(limit, 0, [], [], {}, {})) == {};
  }

  // ---- First come, first served -----------------------------------------------

  // x stands before y in s.
  predicate Before(s: seq<nat>, x: nat, y: nat) {
    exists i, j :: 0 <= i < j < |s| && s[i] == x && s[j] == y
  }

  // Whenever b gets its permit, a has had its own before, or has given up.
  predicate Ahead(p: Permits, a: nat, b: nat) {
    || Before(p.waiters, a, b)
    || (a in p.granted && b !in p.granted)
    || Before(p.granted, a, b)
    || a in p.rejected
    || b in p.rejected
  }

  lemma BeforeOfAppend(s: seq<nat>, x: nat, y: nat, t: nat)
    requires Before(s, x, y)
    ensures Before(s + [t], x, y)
  {
    var i, j :| 0 <= i < j < |s| && s[i] == x && s[j] == y;
    assert (s + [t])[i] == x && (s + [t])[j] == y;
  }

  lemma LastIsAfter(s: seq<nat>, x: nat, y: nat)
    requires x in s
    ensures Before(s + [y], x, y)
  {
    var i :| 0 <= i < |s| && s[i] == x;
    assert (s + [y])[i] == x && (s + [y])[|s|] == y;
  }

  lemma {:induction false} BeforeOfWithout(s: seq<nat>, x: nat, y: nat, t: nat)
    requires Before(s, x, y) && t != x && t != y
    ensures Before(Without(s, t), x, y)
  {
    var i, j :| 0 <= i < j < |s| && s[i] == x && s[j] == y;
    if s[0] == t {
      assert s[1..][i - 1] == x && s[1..][j - 1] == y;
    } else if i == 0 {
      InWithout(s[1..], y, t, j - 1);
      var k :| 0 <= k < |Without(s[1..], t)| && Without(s[1..], t)[k] == y;
      assert Without(s, t)[0] == x && Without(s, t)[k + 1] == y;
    } else {
      assert s[1..][i - 1] == x && s[1..][j - 1] == y;
      BeforeOfWithout(s[1..], x, y, t);
      var k, l :| 0 <= k < l < |Without(s[1..], t)| && Without(s[1..], t)[k] == x && Without(s[1..], t)[l] == y;
      assert Without(s, t)[k + 1] == x && Without(s, t)[l + 1] == y;
    }
  }

  lemma {:induction false} InWithout(s: seq<nat>, y: nat, t: nat, j: nat)
    requires j < |s| && s[j] == y && t != y
    ensures y in Without(s, t)
  {
    if s[0] == t {
      assert s[1..][j - 1] == y;
    } else if j > 0 {
      InWithout(s[1..], y, t, j - 1);
    }
  }

  lemma StepKeepsAhead(p: Permits, s: Step, a: nat, b: nat)
    requires Sound(p) && Enabled(p, s) && Ahead(p, a, b)
    ensures Ahead(Next(p, s), a, b)
  {
    var q := Next(p, s);
    if Before(p.granted, a, b) {
      if q.granted != p.granted {
        BeforeOfAppend(p.granted, a, b, q.granted[|p.granted|]);
      }
    } else if a in p.granted && b !in p.granted {
      if b in q.granted {
        LastIsAfter(p.granted, a, b);
      }
    } else if Before(p.waiters, a, b) {
      WaitingStaysAhead(p, s, a, b);
    }
  }

  lemma WaitingStaysAhead(p: Permits, s: Step, a: nat, b: nat)
    requires Sound(p) && Enabled(p, s) && Before(p.waiters, a, b)
    ensures Ahead(Next(p, s), a, b)
  {
    var q := Next(p, s);
    var i, j :| 0 <= i < j < |p.waiters| && p.waiters[i] == a && p.waiters[j] == b;
    match s
    case Acquire(t, aborted) =>
      if q.waiters != p.waiters {
        BeforeOfAppend(p.waiters, a, b, t);
      }
    case Abort(t) =>
      if t in p.waiters && t != a && t != b {
        BeforeOfWithout(p.waiters, a, b, t);
      }
    case Release(t) =>
      if q.waiters != p.waiters {
        if i == 0 {
          assert q.granted[|p.granted|] == a;
          assert b in p.waiters;
        } else {
          assert p.waiters[1..][i - 1] == a && p.waiters[1..][j - 1] == b;
        }
      }
  }

  lemma {:induction false} RunKeepsAhead(p: Permits, steps: seq<Step>, q: Permits, a: nat, b: nat)
    requires Sound(p) && Run(p, steps, q) && Ahead(p, a, b)
    ensures Sound(q) && Ahead(q, a, b)
    decreases steps
  {
    if steps != [] {
      StepSound(p, steps[0]);
      StepKeepsAhead(p, steps[0], a, b);
      RunKeepsAhead(Next(p, steps[0]), steps[1..], q, a, b);
    }
  }

  // Hand-over is first come, first served: of two waiting tickets the later one gets a
  // permit only after the earlier one has had its own, or has aborted.
  lemma WaitersAreServedInOrder(p: Permits, steps: seq<Step>, q: Permits, a: nat, b: nat)
    requires Sound(p) && Run(p, steps, q) && Before(p.waiters, a, b)
    ensures b in q.granted ==> a in q.rejected || Before(q.granted, a, b)
  {
    RunKeepsAhead(p, steps, q, a, b);
    assert Before(q.waiters, a, b) ==> b in q.waiters;
  }

  // ---- Turns under a permit ---------------------------------------------------

  // The runners of all threads: each waits for its permit, runs its turn, and gives the
  // permit back when the turn has returned or thrown. `running` holds those in their turn.
  datatype Runners = Runners(permits: Permits, running: set<nat>)

  datatype Act = Enter(ticket: nat, aborted: bool) | Cancel(ticket: nat) | Begin(ticket: nat) | Finish(ticket: nat)

  predicate Possible(r: Runners, a: Act) {
    match a
    case Enter(t, aborted) => Enabled(r.permits, Acquire(t, aborted))
    case Cancel(_) => true
    case Begin(t) => t in r.permits.granted && t !in r.permits.released && t !in r.running
    case Finish(t) => t in r.running && t in r.permits.granted
  }

  function After(r: Runners, a: Act): Runners
    requires Possible(r, a)
  {
    match a
    case Enter(t, aborted) => r.(permits := Next(r.permits, Acquire(t, aborted)))
    case Cancel(t) => r.(permits := Next(r.permits, Abort(t)))
    case Begin(t) => r.(running := r.running + {t})
    case Finish(t) => Runners(Next(r.permits, Release(t)), r.running - {t})
  }

  predicate Course(r: Runners, acts: seq<Act>, q: Runners)
    decreases acts
  {
    if acts == [] then r == q
    else Possible(r, acts[0]) && Course(After(r, acts[0]), acts[1..], q)
  }

  // Whoever runs holds a permit.
  predicate Permitted(r: Runners) {
    Sound(r.permits) && r.running <= Holders(r.permits)
  }

  lemma ActKeepsPermits(r: Runners, a: Act)
    requires Permitted(r) && Possible(r, a)
    ensures Permitted(After(r, a)) && After(r, a).permits.limit == r.permits.limit
  {
    match a
    case Enter(t, aborted) =>
      StepSound(r.permits, Acquire(t, aborted));
      assert Holders(r.permits) <= Holders(After(r, a).permits);
    case Cancel(t) =>
      StepSound(r.permits, Abort(t));
      assert Holders(r.permits) == Holders(After(r, a).permits);
    case Begin(t) =>
    case Finish(t) =>
      StepSound(r.permits, Release(t));
      assert Holders(r.permits) - {t} <= Holders(After(r, a).permits);
  }

  lemma {:induction false} CourseKeepsPermits(r: Runners, acts: seq<Act>, q: Runners)
    requires Permitted(r) && Course(r, acts, q)
    ensures Permitted(q) && q.permits.limit == r.permits.limit
    decreases acts
  {
    if acts != [] {
      ActKeepsPermits(r, acts[0]);
      CourseKeepsPermits(After(r, acts[0]), acts[1..], q);
    }
  }

  lemma SubsetIsNoLarger(a: set<nat>, b: set<nat>)
    requires a <= b
    ensures |a| <= |b|
  {
    assert b == a + (b - a);
  }

  // At any moment at most `limit` turns run over all threads, and while a runner waits for
  // a permit all permits are out.
  lemma AtMostLimitRun(limit: nat, acts: seq<Act>, q: Runners)
    requires 1 <= limit && Course(Runners(Permits(limit, 0, [], [], {}, {}), {}), acts, q)
    ensures |q.running| <= |Holders(q.permits)| == q.permits.active <= limit
    ensures forall t :: t in q.running ==> t in q.permits.granted && t !in q.permits.released
    ensures q.permits.waiters != [] ==> |Holders(q.permits)| == limit
  {
    StartsSound(limit);
    CourseKeepsPermits(Runners(Permits(limit, 0, [], [], {}, {}), {}), acts, q);
    SubsetIsNoLarger(q.running, Holders(q.permits));
  }

  // ---- What a step comes to ---------------------------------------------------

  // A call whose signal has aborted is turned away; any other gets a permit at once while
  // fewer than the limit are held, and waits behind those who wait already if not.
  lemma AcquireGetsOrWaits(p: Permits, t: nat, aborted: bool)
    requires Sound(p) && Enabled(p, Acquire(t, aborted))
    ensures var q := Next(p, Acquire(t, aborted));
            if aborted then q == p.(rejected := p.rejected + {t})
            else if |Holders(p)| < p.limit then
              q == p.(active := q.active, granted := p.granted + [t]) && Holders(q) == Holders(p) + {t}
            else q == p.(waiters := p.waiters + [t])
  {
    if !aborted && p.active < p.limit {
      GrantTidy(p, t);
      assert Holders(Next(p, Acquire(t, aborted))) == Holders(Granted(p, t));
    }
  }

  // A permit that is given back goes to the first who waits; if nobody waits it is free.
  lemma ReleaseHandsOver(p: Permits, t: nat)
    requires Sound(p) && t in Holders(p)
    ensures Enabled(p, Release(t))
    ensures var q := Next(p, Release(t));
            && q.released == p.released + {t} && q.rejected == p.rejected
            && if p.waiters == [] then q.granted == p.granted && q.waiters == [] && Holders(q) == Holders(p) - {t}
               else
                 && q.granted == p.granted + [p.waiters[0]] && q.waiters == p.waiters[1..]
                 && Holders(q) == Holders(p) - {t} + {p.waiters[0]}
  {
    if p.waiters != [] {
      assert p.waiters[0] in p.waiters;
      HoldersAfter(p, t, p.waiters[0], Next(p, Release(t)));
    }
    hide Tidy;
  }

  lemma HoldersAfter(p: Permits, t: nat, next: nat, q: Permits)
    requires next !in p.released && t in Holders(p) && next !in p.granted
    requires q.granted == p.granted + [next] && q.released == p.released + {t}
    ensures Holders(q) == Holders(p) - {t} + {next}
  {
  }

  // An abort takes a waiter out of the queue and turns it away; whoever holds a permit or is
  // unknown is not touched.
  lemma AbortTurnsAway(p: Permits, t: nat)
    requires Sound(p)
    ensures var q := Next(p, Abort(t));
            if t in p.waiters then
              q == p.(waiters := q.waiters, rejected := p.rejected + {t})
              && exists i :: 0 <= i < |p.waiters| && p.waiters[i] == t && q.waiters == p.waiters[..i] + p.waiters[i + 1..]
            else q == p
  {
    if t in p.waiters {
      var i :| 0 <= i < |p.waiters| && p.waiters[i] == t;
      assert t !in p.waiters[..i];
      SpliceIsWithout(p.waiters, t, i);
    }
  }

  predicate TurnsAway(s: Step, t: nat) {
    s == Acquire(t, true) || s == Abort(t)
  }

  lemma StepAccounts(p: Permits, s: Step, t: nat)
    requires Sound(p) && Enabled(p, s)
    ensures var q := Next(p, s);
            && (t in p.granted ==> t in q.granted) && (t in p.rejected ==> t in q.rejected)
            && (t in q.rejected ==> t in p.rejected || TurnsAway(s, t))
            && ((s.Acquire? && s.ticket == t) || t in p.waiters ==> t in q.granted || t in q.waiters || t in q.rejected)
  {
    WithoutDrops(p.waiters, if s.Abort? then s.ticket else t);
    if p.waiters != [] {
      assert t in p.waiters ==> t == p.waiters[0] || t in p.waiters[1..];
    }
  }

  // Over any run, nobody who asks is lost: each holds or has held a permit, waits, or was
  // turned away, and that only by an abort of its own signal.
  lemma {:induction false} NobodyIsLost(p: Permits, steps: seq<Step>, q: Permits, t: nat)
    requires Sound(p) && Run(p, steps, q)
    ensures t in p.granted ==> t in q.granted
    ensures t in p.rejected ==> t in q.rejected
    ensures t in q.rejected ==> t in p.rejected || exists s :: s in steps && TurnsAway(s, t)
    ensures (exists s :: s in steps && s.Acquire? && s.ticket == t) || t in p.waiters ==>
              t in q.granted || t in q.waiters || t in q.rejected
    decreases steps
  {
    if steps != [] {
      var next := Next(p, steps[0]);
      StepSound(p, steps[0]);
      StepAccounts(p, steps[0], t);
      hide Sound, Enabled, Next;
      NobodyIsLost(next, steps[1..], q, t);
      assert forall s :: s in steps <==> s == steps[0] || s in steps[1..];
    }
  }

  lemma SomeoneHolds(p: Permits) returns (t: nat)
    requires Sound(p) && p.waiters != []
    ensures t in Holders(p)
  {
    t :| t in Holders(p);
  }

  // A waiter gets its permit once as many permits have been given back as stand before it,
  // and one more, whoever gives them back.
  lemma {:induction false} WaiterGetsItsTurn(p: Permits, i: nat) returns (steps: seq<Step>, q: Permits)
    requires Sound(p) && i < |p.waiters|
    ensures Run(p, steps, q) && |steps| == i + 1 && (forall s :: s in steps ==> s.Release?)
    ensures p.waiters[i] in Holders(q)
    decreases i
  {
    var t := SomeoneHolds(p);
    ReleaseHandsOver(p, t);
    StepSound(p, Release(t));
    hide Tidy, Holders, Sound;
    var next := Next(p, Release(t));
    if i == 0 {
      steps, q := [Release(t)], next;
      assert [Release(t)][1..] == [];
    } else {
      var rest: seq<Step>;
      rest, q := WaiterGetsItsTurn(next, i - 1);
      steps := [Release(t)] + rest;
      assert steps[1..] == rest;
    }
  }
}
