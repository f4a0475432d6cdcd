// Who may drive a thread's browser: the leases that refuse an agent action decided before a
// handoff (src/browser/control-lease.ts).

module ControlLease {
  import opened Wrappers

  datatype Owner = Agent | Human

  datatype Lease = Lease(owner: Owner, generation: nat)

  datatype Answer = Admitted | HumanControl | StaleGeneration

  const FRESH := Lease(Agent, 0)

  // The lease a thread has, or would be given on asking.
  function LeaseOf(leases: map<string, Lease>, thread: string): Lease {
    if thread in leases then leases[thread] else FRESH
  }

  function Check(lease: Lease, expected: Option<nat>): Answer {
    if lease.owner == Human then HumanControl
    else if expected.Some? && expected.value != lease.generation then StaleGeneration
    else Admitted
  }

  datatype Step =
    | Ask(thread: string)
    | Take(thread: string)
    | Return(thread: string)
    | Act(thread: string, expected: Option<nat>)
    | Forget(thread: string)

  function Next(leases: map<string, Lease>, s: Step): map<string, Lease> {
    var lease := LeaseOf(leases, s.thread);
    match s
    case Ask(t) => leases[t := lease]
    case Take(t) => leases[t := Lease(Human, lease.generation + 1)]
    case Return(t) => leases[t := Lease(Agent, lease.generation + 1)]
    case Act(t, _) => leases[t := lease]
    case Forget(t) => leases - {t}
  }

  class BrowserControlRegistry {
    var leases: map<string, Lease>

    constructor ()
      ensures leases == map[]
    {
      leases := map[];
    }

    method GetLease(thread: string) returns (lease: Lease)
      modifies this
      ensures leases == Next(old(leases), Ask(thread)) && lease == LeaseOf(old(leases), thread)
    {
      if thread in leases {
        assert leases[thread := leases[thread]] == leases;
        return leases[thread];
      }
      lease := FRESH;
      leases := leases[thread := lease];
    }

    method TakeControl(thread: string) returns (lease: Lease)
      modifies this
      ensures leases == Next(old(leases), Take(thread)) && lease == LeaseOf(leases, thread)
    {
      var current := GetLease(thread);
      lease := Lease(Human, current.generation + 1);
      leases := leases[thread := lease];
    }

    method ReturnControl(thread: string) returns (lease: Lease)
      modifies this
      ensures leases == Next(old(leases), Return(thread)) && lease == LeaseOf(leases, thread)
    {
      var current := GetLease(thread);
      lease := Lease(Agent, current.generation + 1);
      leases := leases[thread := lease];
    }

    method CheckAgentAction(thread: string, expected: Option<nat>) returns (answer: Answer)
      modifies this
      ensures leases == Next(old(leases), Act(thread, expected))
      ensures answer == Check(LeaseOf(old(leases), thread), expected)
    {
      var lease := GetLease(thread);
      if lease.owner == Human {
        return HumanControl;
      }
      if expected.Some? && expected.value != lease.generation {
        return StaleGeneration;
      }
      return Admitted;
    }

    method ForgetThread(thread: string)
      modifies this
      ensures leases == Next(old(leases), Forget(thread))
    {
      leases := leases - {thread};
    }
  }

  // ---- Whole runs -------------------------------------------------------------

  function Run(leases: map<string, Lease>, steps: seq<Step>): map<string, Lease>
    decreases |steps|
  {
    if steps == [] then leases else Run(Next(leases, steps[0]), steps[1..])
  }

  predicate Handoff(s: Step, thread: string) {
    s.thread == thread && (s.Take? || s.Return?)
  }

  function Handoffs(steps: seq<Step>, thread: string): nat {
    if steps == [] then 0 else (if Handoff(steps[0], thread) then 1 else 0) + Handoffs(steps[1..], thread)
  }

  predicate Forgotten(steps: seq<Step>, thread: string) {
    Forget(thread) in steps
  }

  // The steps after the thread was last forgotten.
  function SinceForgotten(steps: seq<Step>, thread: string): seq<Step> {
    if Forgotten(steps, thread) then SinceForgotten(steps[1..], thread) else steps
  }

  // What one thread's lease goes through does not depend on the others.
  lemma OthersDoNotMatter(leases: map<string, Lease>, s: Step, thread: string)
    requires s.thread != thread
    ensures LeaseOf(Next(leases, s), thread) == LeaseOf(leases, thread)
  {
  }

  function OwnSteps(steps: seq<Step>, thread: string): seq<Step> {
    if steps == [] then []
    else (if steps[0].thread == thread then [steps[0]] else []) + OwnSteps(steps[1..], thread)
  }

  // The whole run could have left the other threads out.
  lemma {:induction false} ThreadsAreIndependent(a: map<string, Lease>, b: map<string, Lease>, steps: seq<Step>, thread: string)
    requires LeaseOf(a, thread) == LeaseOf(b, thread)
    ensures LeaseOf(Run(a, steps), thread) == LeaseOf(Run(b, OwnSteps(steps, thread)), thread)
    decreases steps
  {
    if steps != [] {
      var own := OwnSteps(steps, thread);
      if steps[0].thread == thread {
        assert own == [steps[0]] + OwnSteps(steps[1..], thread);
        assert own[1..] == OwnSteps(steps[1..], thread);
        ThreadsAreIndependent(Next(a, steps[0]), Next(b, steps[0]), steps[1..], thread);
      } else {
        OthersDoNotMatter(a, steps[0], thread);
        assert own == OwnSteps(steps[1..], thread);
        ThreadsAreIndependent(Next(a, steps[0]), b, steps[1..], thread);
      }
    }
  }

  // While a thread is not forgotten, its generation counts its handoffs.
  lemma {:induction false} GenerationCountsHandoffs(leases: map<string, Lease>, steps: seq<Step>, thread: string)
    requires !Forgotten(steps, thread)
    ensures LeaseOf(Run(leases, steps), thread).generation
         == LeaseOf(leases, thread).generation + Handoffs(steps, thread)
    ensures Handoffs(steps, thread) == 0 ==> LeaseOf(Run(leases, steps), thread) == LeaseOf(leases, thread)
    decreases steps
  {
    if steps != [] {
      assert steps[0] in steps;
      GenerationCountsHandoffs(Next(leases, steps[0]), steps[1..], thread);
    }
  }

  // An action carrying the generation it was decided under is admitted exactly when the
  // agent held the browser then and control of it has not changed hands since.
  lemma AdmittedIfUntouched(leases: map<string, Lease>, steps: seq<Step>, thread: string)
    requires !Forgotten(steps, thread)
    ensures var decided := LeaseOf(leases, thread);
            (Check(LeaseOf(Run(leases, steps), thread), Some(decided.generation)) == Admitted)
            <==> (decided.owner == Agent && Handoffs(steps, thread) == 0)
  {
    GenerationCountsHandoffs(leases, steps, thread);
  }

  lemma {:induction false} RunInParts(leases: map<string, Lease>, a: seq<Step>, b: seq<Step>)
    ensures Run(leases, a + b) == Run(Run(leases, a), b)
    decreases a
  {
    if a == [] {
      assert a + b == b;
    } else {
      assert (a + b)[1..] == a[1..] + b;
      RunInParts(Next(leases, a[0]), a[1..], b);
    }
  }

  // A thread that was forgotten starts over: its generation counts the handoffs since.
  lemma {:induction false} ForgettingStartsOver(leases: map<string, Lease>, steps: seq<Step>, thread: string)
    requires Forgotten(steps, thread)
    ensures LeaseOf(Run(leases, steps), thread).generation == Handoffs(SinceForgotten(steps, thread), thread)
    decreases steps
  {
    var rest := Next(leases, steps[0]);
    if Forgotten(steps[1..], thread) {
      ForgettingStartsOver(rest, steps[1..], thread);
    } else {
      assert steps[0] == Forget(thread);
      GenerationCountsHandoffs(rest, steps[1..], thread);
    }
  }

  // So after a thread was forgotten, an action decided before may be admitted although the
  // human took control in between: exactly when the agent holds the browser and as many
  // handoffs have happened since as the action's generation says.
  lemma AdmittedAfterForgetting(leases: map<string, Lease>, steps: seq<Step>, thread: string)
    requires Forgotten(steps, thread)
    ensures var decided := LeaseOf(leases, thread);
            (Check(LeaseOf(Run(leases, steps), thread), Some(decided.generation)) == Admitted)
            <==> (LeaseOf(Run(leases, steps), thread).owner == Agent
                  && Handoffs(SinceForgotten(steps, thread), thread) == decided.generation)
  {
    ForgettingStartsOver(leases, steps, thread);
  }

  lemma StaleActionAfterForgetting(leases: map<string, Lease>, thread: string)
    requires LeaseOf(leases, thread) == FRESH
    ensures var steps := [Take(thread), Forget(thread)];
            && Handoffs(steps, thread) == 1
            && Check(LeaseOf(Run(leases, steps), thread), Some(0)) == Admitted
  {
    var steps := [Take(thread), Forget(thread)];
    assert steps[1..] == [Forget(thread)] && steps[1..][1..] == [];
    var taken := Next(leases, Take(thread));
    assert Run(taken, [Forget(thread)]) == Next(taken, Forget(thread)) by {
      assert [Forget(thread)][1..] == [];
    }
    assert Run(leases, steps) == Next(taken, Forget(thread));
    assert Handoffs([Forget(thread)], thread) == 0;
  }

  // Without a generation, an action is judged by the last handoff alone.
  lemma LastHandoffDecides(leases: map<string, Lease>, steps: seq<Step>, last: Step, after: seq<Step>, thread: string)
    requires Handoff(last, thread) && Handoffs(after, thread) == 0 && !Forgotten(after, thread)
    ensures (Check(LeaseOf(Run(leases, steps + ([last] + after)), thread), None) == Admitted) <==> last.Return?
  {
    RunInParts(leases, steps, [last] + after);
    assert ([last] + after)[1..] == after;
    GenerationCountsHandoffs(Next(Run(leases, steps), last), after, thread);
  }

  // What an agent is told: that a human has the browser if the last handoff gave it to one,
  // whatever generation the action carries; that the action is stale if it carries another
  // number than there have been handoffs; and nothing else stands in its way.
  lemma AnswerTells(steps: seq<Step>, last: Step, after: seq<Step>, thread: string, expected: Option<nat>)
    requires Handoff(last, thread) && Handoffs(after, thread) == 0 && !Forgotten(steps + ([last] + after), thread)
    ensures var whole := steps + ([last] + after);
            Check(LeaseOf(Run(map[], whole), thread), expected)
              == match last
                 case Take(_) => HumanControl
                 case _ => match expected
                           case None => Admitted
                           case Some(n) => if n == Handoffs(whole, thread) then Admitted else StaleGeneration
  {
    var whole := steps + ([last] + after);
    GenerationCountsHandoffs(map[], whole, thread);
    RunInParts(map[], steps, [last] + after);
    assert ([last] + after)[1..] == after;
    assert forall s :: s in after ==> s in whole;
    GenerationCountsHandoffs(Next(Run(map[], steps), last), after, thread);
  }

  // A thread nobody has taken over is the agent's, in generation 0.
  lemma UntouchedIsTheAgents(steps: seq<Step>, thread: string, expected: Option<nat>)
    requires Handoffs(steps, thread) == 0 && !Forgotten(steps, thread)
    ensures Check(LeaseOf(Run(map[], steps), thread), expected)
         == match expected case None => Admitted case Some(n) => if n == 0 then Admitted else StaleGeneration
  {
    GenerationCountsHandoffs(map[], steps, thread);
  }
}
