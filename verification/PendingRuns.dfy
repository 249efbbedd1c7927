/** No run is lost: a pending run always has its command in the queue. */
module PendingRuns {
  import opened Domain
  import opened QueueItems
  import opened Execution
  import opened ExecutionService
  import opened ExecutionSettles
  import opened ExecutionRuns
  import opened ExecutionTheorems
  import Queue = MemoryQueue

  predicate IsFor(x: Queued, id: string) {
    x.command.identity.runId == id
  }

  function WaitingFor(q: Queue.State, id: string): nat {
    Count(q.waiting, x => IsFor(x, id))
  }

  function LeasedFor(q: Queue.State, id: string): set<string> {
    set lease | lease in q.leases && IsFor(q.leases[lease].item, id)
  }

  /** The commands for run `id` that are waiting or leased. */
  function Held(q: Queue.State, id: string): nat {
    WaitingFor(q, id) + |LeasedFor(q, id)|
  }

  /** A pending run has one command, and an unknown run none. */
  ghost predicate Located(w: World, id: string) {
    && (id !in w.runs ==> Held(w.queue, id) == 0)
    && (id in w.runs && w.runs[id].status == Pending ==> Held(w.queue, id) == 1)
  }

  /** Leases are those issued, for the same command, and so is the executing receipt. */
  ghost predicate LeasesIssued(sys: System) {
    && (forall lease | lease in sys.issued :: sys.issued[lease].leaseId == lease)
    && (forall lease | lease in sys.world.queue.leases ::
          && lease in sys.issued
          && sys.world.queue.leases[lease].item.command == sys.issued[lease].command)
    && (sys.flight.Some? ==>
          sys.flight.value.receipt.leaseId in sys.issued
          && sys.issued[sys.flight.value.receipt.leaseId] == sys.flight.value.receipt)
  }

  // ----- What queue operations do to the commands of one run -----

  lemma PublishHolds(q: Queue.State, command: Command, id: string)
    ensures var q' := Queue.AfterPublish(q, command).0;
            Held(q', id) == Held(q, id) + (if !q.closed && command.identity.runId == id then 1 else 0)
  {
    var x := Queued(-PriorityValue(command.priority), q.counter, command, 0);
    CountAppend(q.waiting, x, x => IsFor(x, id));
    assert LeasedFor(Queue.AfterPublish(q, command).0, id) == LeasedFor(q, id);
  }

  lemma LeaseHolds(
    leases: map<string, Queue.Lease>, lease: string, x: Queue.Lease, q: Queue.State, q': Queue.State, id: string)
    requires q.leases == leases && q'.leases == leases[lease := x] && lease !in leases
    ensures |LeasedFor(q', id)| == |LeasedFor(q, id)| + (if IsFor(x.item, id) then 1 else 0)
  {
    assert LeasedFor(q', id) == LeasedFor(q, id) + (if IsFor(x.item, id) then {lease} else {});
  }

  lemma ReceiveHolds(q: Queue.State, lease: string, id: string)
    requires lease !in q.leases
    ensures Held(Queue.AfterReceive(q, lease).0, id) == Held(q, id)
  {
    if q.waiting != [] {
      var x, q' := Queue.Least(q.waiting), Queue.AfterReceive(q, lease).0;
      CountWithout(q.waiting, x, x => IsFor(x, id));
      LeaseHolds(q.leases, lease, q'.leases[lease], q, q', id);
    }
  }

  lemma AcknowledgeHolds(q: Queue.State, receipt: Receipt, id: string)
    requires receipt.leaseId in q.leases ==> !IsFor(q.leases[receipt.leaseId].item, id)
    ensures Held(Queue.AfterAcknowledge(q, receipt).0, id) == Held(q, id)
  {
    assert LeasedFor(Queue.AfterAcknowledge(q, receipt).0, id) == LeasedFor(q, id);
  }

  lemma SameHeld(q: Queue.State, q': Queue.State, id: string)
    requires q'.waiting == q.waiting && q'.leases == q.leases
    ensures Held(q', id) == Held(q, id)
  {
    assert LeasedFor(q', id) == LeasedFor(q, id);
  }

  // ----- Steps -----

  lemma StartLocates(w: World, identity: Identity, priority: Priority, env: Ambient, id: string)
    requires Located(w, id)
    ensures Located(AfterStartRun(w, identity, priority, env).0, id)
  {
    PublishHolds(w.queue, CommandFor(identity, priority, env), id);
  }

  lemma ResumeLocates(w: World, run: string, priority: Priority, env: Ambient, id: string)
    requires Filed(w.threads, w.runs) && Located(w, id)
    ensures Located(AfterResumeRun(w, run, priority, env).0, id)
  {
    if run in w.runs && w.runs[run].status == Interrupted {
      PublishHolds(w.queue, CommandFor(w.runs[run].identity, priority, env), id);
    }
  }

  /** An operation that changes a known, non-pending run and acknowledges at most its own receipt. */
  lemma ChangeLocates(w: World, w': World, run: string, id: string)
    requires run in w.runs && run in w'.runs && w'.runs == w.runs[run := w'.runs[run]]
    requires !w'.runs[run].status.Pending? && Located(w, id)
    requires id != run ==> Held(w'.queue, id) == Held(w.queue, id)
    ensures Located(w', id)
  {
  }

  lemma BeginLocates(sys: System, lease: string, now: int, id: string)
    requires Core(sys) && LeasesIssued(sys) && lease in sys.issued && Located(sys.world, id)
    ensures Located(Launched(sys, lease, now).world, id)
  {
    var w, receipt := sys.world, sys.issued[lease];
    var run := receipt.command.identity.runId;
    if run in w.runs {
      var w' := Launched(sys, lease, now).world;
      assert w.runs[run := w.runs[run]] == w.runs;
      if w.runs[run].status != Pending && id != run {
        AcknowledgeHolds(w.queue, receipt, id);
      }
      ChangeLocates(w, w', run, id);
    }
  }

  lemma FinishLocates(sys: System, ending: Ending, now: int, id: string)
    requires Core(sys) && LeasesIssued(sys) && sys.flight.Some? && Located(sys.world, id)
    ensures Located(Finished(sys, ending, now).world, id)
  {
    var w, f := sys.world, sys.flight.value;
    var run := f.run.identity.runId;
    FinishChanges(w, f, ending, now);
    if id != run {
      AcknowledgeHolds(w.queue, f.receipt, id);
    }
    ChangeLocates(w, Finished(sys, ending, now).world, run, id);
  }

  lemma EventLocates(sys: System, draft: Draft, now: int, id: string)
    requires Core(sys) && sys.flight.Some? && Located(sys.world, id)
    ensures Located(Applied(sys, draft, now).world, id)
  {
    EventChanges(sys.world, sys.flight.value, draft, now);
    ChangeLocates(sys.world, Applied(sys, draft, now).world, sys.flight.value.run.identity.runId, id);
  }

  lemma EventIssues(sys: System, draft: Draft, now: int)
    requires Core(sys) && LeasesIssued(sys) && sys.flight.Some?
    ensures LeasesIssued(Applied(sys, draft, now))
  {
    EventChanges(sys.world, sys.flight.value, draft, now);
  }

  lemma FinishIssues(sys: System, ending: Ending, now: int)
    requires Core(sys) && LeasesIssued(sys) && sys.flight.Some?
    ensures LeasesIssued(Finished(sys, ending, now))
  {
    FinishChanges(sys.world, sys.flight.value, ending, now);
  }

  lemma ReceiveIssues(sys: System, lease: string)
    requires LeasesIssued(sys) && lease !in sys.issued
    ensures LeasesIssued(Received(sys, lease))
  {
  }

  lemma StreamIssues(sys: System, draft: Draft, now: int)
    requires Core(sys) && LeasesIssued(sys) && sys.flight.Some?
    ensures LeasesIssued(Streamed(sys, draft, now))
  {
    EventIssues(sys, draft, now);
    EventKeepsCore(sys, draft, now);
    FinishIssues(Applied(sys, draft, now), Crashed, now);
  }

  lemma BeginIssues(sys: System, lease: string, now: int)
    requires LeasesIssued(sys) && lease in sys.issued && sys.flight.None?
    ensures LeasesIssued(Launched(sys, lease, now))
  {
  }

  lemma StepIssues(sys: System, a: Action)
    requires Core(sys) && LeasesIssued(sys)
    ensures LeasesIssued(Step(sys, a))
  {
    match a {
      case Receive(lease) =>
        if lease !in sys.issued {
          ReceiveIssues(sys, lease);
        }
      case Stream(draft, now) =>
        if sys.flight.Some? {
          StreamIssues(sys, draft, now);
        }
      case Finish(ending, now) =>
        if sys.flight.Some? {
          FinishIssues(sys, ending, now);
        }
      case Begin(lease, now) =>
        if sys.flight.None? && lease in sys.issued {
          BeginIssues(sys, lease, now);
        }
      case CreateThread(_, _) | StartRun(_, _, _) | CancelRun(_, _) | ResumeRun(_, _, _) | CloseQueue =>
    }
  }

  lemma ClientLocates(sys: System, a: Action, id: string)
    requires a.CreateThread? || a.StartRun? || a.CancelRun? || a.ResumeRun?
    requires Core(sys) && Located(sys.world, id)
    ensures Located(Step(sys, a).world, id)
  {
    match a {
      case CreateThread(_, _) =>
      case StartRun(identity, priority, env) => StartLocates(sys.world, identity, priority, env, id);
      case CancelRun(run, now) =>
        if run in sys.world.runs && !IsFinal(sys.world.runs[run].status) {
          CancelChanges(sys.world, run, now);
          ChangeLocates(sys.world, Step(sys, a).world, run, id);
        }
      case ResumeRun(run, priority, env) => ResumeLocates(sys.world, run, priority, env, id);
    }
  }

  lemma ReceiveLocates(sys: System, lease: string, id: string)
    requires LeasesIssued(sys) && lease !in sys.issued && Located(sys.world, id)
    ensures Located(Received(sys, lease).world, id)
  {
    ReceiveHolds(sys.world.queue, lease, id);
  }

  lemma QueueLocates(sys: System, a: Action, id: string)
    requires a.CloseQueue? || a.Receive?
    requires LeasesIssued(sys) && Located(sys.world, id)
    ensures Located(Step(sys, a).world, id)
  {
    if a.CloseQueue? {
      SameHeld(sys.world.queue, sys.world.queue.(closed := true), id);
    } else if a.lease !in sys.issued {
      ReceiveLocates(sys, a.lease, id);
    }
  }

  lemma StreamLocates(sys: System, draft: Draft, now: int, id: string)
    requires Core(sys) && LeasesIssued(sys) && sys.flight.Some? && Located(sys.world, id)
    ensures Located(Streamed(sys, draft, now).world, id)
  {
    EventLocates(sys, draft, now, id);
    EventIssues(sys, draft, now);
    EventKeepsCore(sys, draft, now);
    FinishLocates(Applied(sys, draft, now), Crashed, now, id);
  }

  lemma WorkerLocates(sys: System, a: Action, id: string)
    requires a.Begin? || a.Stream? || a.Finish?
    requires Core(sys) && LeasesIssued(sys) && Located(sys.world, id)
    ensures Located(Step(sys, a).world, id)
  {
    if a.Begin? && sys.flight.None? && a.lease in sys.issued {
      BeginLocates(sys, a.lease, a.now, id);
    } else if a.Stream? && sys.flight.Some? {
      StreamLocates(sys, a.draft, a.now, id);
    } else if a.Finish? && sys.flight.Some? {
      FinishLocates(sys, a.ending, a.now, id);
    }
  }

  lemma StepLocates(sys: System, a: Action, id: string)
    requires Core(sys) && LeasesIssued(sys) && Located(sys.world, id)
    ensures Located(Step(sys, a).world, id)
  {
    match a {
      case CreateThread(_, _) | StartRun(_, _, _) | CancelRun(_, _) | ResumeRun(_, _, _) => ClientLocates(sys, a, id);
      case CloseQueue | Receive(_) => QueueLocates(sys, a, id);
      case Begin(_, _) | Stream(_, _) | Finish(_, _) => WorkerLocates(sys, a, id);
    }
  }

  lemma {:induction false} RunLocates(sys: System, actions: seq<Action>, id: string)
    requires Core(sys) && LeasesIssued(sys) && Located(sys.world, id)
    ensures Located(Exec(sys, actions).world, id)
    decreases |actions|
  {
    if actions != [] {
      StepKeepsCore(sys, actions[0]);
      StepIssues(sys, actions[0]);
      StepLocates(sys, actions[0], id);
      RunLocates(Step(sys, actions[0]), actions[1..], id);
    }
  }

  /** In every state of every interleaving, a pending run has exactly one command in the queue, waiting
      or leased; a run that was never created has none. */
  lemma NoLostRun(actions: seq<Action>, id: string)
    ensures var w := Exec(Start, actions).world;
            && (id in w.runs && w.runs[id].status == Pending ==> Held(w.queue, id) == 1)
            && (id !in w.runs ==> Held(w.queue, id) == 0)
  {
    assert LeasedFor(Start.world.queue, id) == {};
    RunLocates(Start, actions, id);
  }
}
