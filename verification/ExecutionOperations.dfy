/** Runs of whole operations, each execution undisturbed from its first step to its last. */
module ExecutionOperations {
  import opened Domain
  import opened Execution
  import opened ExecutionService
  import opened ExecutionSettles
  import opened ExecutionRuns
  import opened ExecutionTheorems

  /** A client operation or a receive; or the execution of a receipt against an adapter. */
  datatype Operation =
    | Single(action: Action)
    | Execute(lease: string, drafts: seq<Draft>, ending: Ending, now: int)

  function Streams(drafts: seq<Draft>, now: int): seq<Action> {
    seq(|drafts|, i requires 0 <= i < |drafts| => Stream(drafts[i], now))
  }

  /** The steps of an operation; a step of an execution is not an operation by itself. */
  function Steps(op: Operation): seq<Action> {
    match op
    case Single(a) => if a.Begin? || a.Stream? || a.Finish? then [] else [a]
    case Execute(lease, drafts, ending, now) => [Begin(lease, now)] + (Streams(drafts, now) + [Finish(ending, now)])
  }

  function AllSteps(ops: seq<Operation>): seq<Action>
    decreases |ops|
  {
    if ops == [] then [] else AllSteps(ops[..|ops| - 1]) + Steps(ops[|ops| - 1])
  }

  /** Stream and finish, in the service's own terms. */
  function Carried(w: World, f: Frame, drafts: seq<Draft>, ending: Ending, now: int): World {
    var (w2, f2, outcome) := AfterEvents(w, f, drafts, now);
    AfterFinish(w2, f2, if outcome == Raised then Crashed else ending, now).0
  }

  lemma {:induction false} IdleStreams(sys: System, drafts: seq<Draft>, ending: Ending, now: int)
    requires sys.flight.None?
    ensures Exec(sys, Streams(drafts, now) + [Finish(ending, now)]) == sys
    decreases |drafts|
  {
    var steps := Streams(drafts, now) + [Finish(ending, now)];
    if drafts == [] {
      assert steps[1..] == [];
    } else {
      assert steps[1..] == Streams(drafts[1..], now) + [Finish(ending, now)];
      IdleStreams(sys, drafts[1..], ending, now);
    }
  }

  lemma {:induction false} StreamsCarry(sys: System, drafts: seq<Draft>, ending: Ending, now: int)
    requires sys.flight.Some?
    ensures Exec(sys, Streams(drafts, now) + [Finish(ending, now)])
            == sys.(world := Carried(sys.world, sys.flight.value, drafts, ending, now), flight := None)
    decreases |drafts|
  {
    var steps := Streams(drafts, now) + [Finish(ending, now)];
    if drafts == [] {
      assert steps[1..] == [];
    } else {
      assert steps[0] == Stream(drafts[0], now);
      assert steps[1..] == Streams(drafts[1..], now) + [Finish(ending, now)];
      var next := Step(sys, steps[0]);
      if next.flight.Some? {
        StreamsCarry(next, drafts[1..], ending, now);
      } else {
        IdleStreams(next, drafts[1..], ending, now);
      }
    }
  }

  /** The steps of an undisturbed execution add up to what the service's method computes. */
  lemma ExecuteIsItsSteps(sys: System, lease: string, drafts: seq<Draft>, ending: Ending, now: int)
    requires sys.flight.None? && lease in sys.issued
    ensures var sys' := Exec(sys, Steps(Execute(lease, drafts, ending, now)));
            && sys'.world == AfterExecute(sys.world, sys.issued[lease], drafts, ending, now).0
            && sys'.flight.None? && sys'.issued == sys.issued
  {
    var steps := Steps(Execute(lease, drafts, ending, now));
    var next := Step(sys, steps[0]);
    assert steps[1..] == Streams(drafts, now) + [Finish(ending, now)];
    if next.flight.Some? {
      StreamsCarry(next, drafts, ending, now);
    } else {
      IdleStreams(next, drafts, ending, now);
    }
  }

  ghost predicate AtRest(sys: System) {
    Core(sys) && OneActive(sys.world.runs) && sys.flight.None?
  }

  lemma ExecuteKeepsOneActive(sys: System, lease: string, drafts: seq<Draft>, ending: Ending, now: int)
    requires AtRest(sys) && lease in sys.issued
    ensures OneActive(AfterExecute(sys.world, sys.issued[lease], drafts, ending, now).0.runs)
  {
    var w, receipt := sys.world, sys.issued[lease];
    var id := receipt.command.identity.runId;
    if id in w.runs && w.runs[id].status == Pending {
      BodySettles(w, receipt, drafts, ending, now);
      ChangeKeepsOneActive(w.runs, id, AfterExecute(w, receipt, drafts, ending, now).0.runs[id]);
    }
  }

  lemma SingleKeepsRest(sys: System, a: Action)
    requires AtRest(sys)
    ensures AtRest(Exec(sys, Steps(Single(a))))
  {
    if !(a.Begin? || a.Stream? || a.Finish?) {
      StepKeepsCore(sys, a);
      OneActiveIff(sys, a);
      assert Exec(sys, [a]) == Step(sys, a);
    }
  }

  lemma OperationKeepsRest(sys: System, op: Operation)
    requires AtRest(sys)
    ensures AtRest(Exec(sys, Steps(op)))
  {
    match op {
      case Single(a) => SingleKeepsRest(sys, a);
      case Execute(lease, drafts, ending, now) =>
        RunKeepsCore(sys, Steps(op));
        if lease in sys.issued {
          ExecuteIsItsSteps(sys, lease, drafts, ending, now);
          ExecuteKeepsOneActive(sys, lease, drafts, ending, now);
        } else {
          assert Steps(op)[1..] == Streams(drafts, now) + [Finish(ending, now)];
          IdleStreams(sys, drafts, ending, now);
        }
    }
  }

  lemma {:induction false} OperationsKeepRest(ops: seq<Operation>)
    ensures AtRest(Exec(Start, AllSteps(ops)))
    decreases |ops|
  {
    if ops != [] {
      var front := ops[..|ops| - 1];
      OperationsKeepRest(front);
      OperationKeepsRest(Exec(Start, AllSteps(front)), ops[|ops| - 1]);
      ExecJoins(Start, AllSteps(front), Steps(ops[|ops| - 1]));
    }
  }

  /** A run of the thread that is pending, running or interrupted. */
  predicate Holds(run: Run, thread: string) {
    run.identity.threadId == Some(thread)
    && (run.status == Pending || run.status == Running || run.status == Interrupted)
  }

  /** After any whole operations, whatever adapters stream: a thread has at most one active run, and a
      busy thread has exactly one, which no adapter is executing, unless a start has stranded a thread. */
  lemma OneActiveRunPerThread(ops: seq<Operation>, t: string)
    ensures var w := Exec(Start, AllSteps(ops)).world;
            && (forall r1, r2 | r1 in w.runs && r2 in w.runs && Holds(w.runs[r1], t) && Holds(w.runs[r2], t) ::
                  r1 == r2)
            && (NeverStrands(Start, AllSteps(ops)) && t in w.threads && w.threads[t].status == Busy ==>
                  exists r :: r in w.runs && Holds(w.runs[r], t) && w.runs[r].status != Running)
            && w.active == {}
  {
    OperationsKeepRest(ops);
    var w := Exec(Start, AllSteps(ops)).world;
    assert forall r | r in w.runs :: Holds(w.runs[r], t) <==> Occupies(w.runs[r], t);
    if NeverStrands(Start, AllSteps(ops)) && t in w.threads && w.threads[t].status == Busy {
      RunKeepsBusy(Start, AllSteps(ops));
      assert HasActive(w.runs, t);
      var r :| r in w.runs && Occupies(w.runs[r], t);
      assert w.runs[r].status != Running && Holds(w.runs[r], t);
    }
  }
}
