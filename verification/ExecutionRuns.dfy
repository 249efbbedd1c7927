/** The service over whole runs: client operations, the single local worker and the adapter's stream,
    interleaved at every point where the service waits for its adapter. */
module ExecutionRuns {
  import opened Domain
  import opened Execution
  import opened ExecutionService
  import opened ExecutionSettles
  import Queue = MemoryQueue

  /** `issued` remembers every receipt handed to the worker, so that any of them may be delivered
      again; `flight` is the execution under way; `started` lists the runs whose stream was opened. */
  datatype System = System(world: World, issued: map<string, Receipt>, flight: Option<Frame>, started: seq<string>)

  datatype Action =
    | CreateThread(thread: string, now: int)
    | StartRun(identity: Identity, priority: Priority, env: Ambient)
    | CancelRun(id: string, now: int)
    | ResumeRun(id: string, priority: Priority, env: Ambient)
    | CloseQueue
    | Receive(lease: string)
    | Begin(lease: string, now: int)
    | Stream(draft: Draft, now: int)
    | Finish(ending: Ending, now: int)

  const Start: System := System(World(map[], map[], Queue.State([], 0, false, map[], []), map[], {}), map[], None, [])

  /** An action that is not enabled changes nothing. Leases are fresh; run identifiers need not be. */
  function Step(sys: System, a: Action): System {
    var w := sys.world;
    match a
    case CreateThread(thread, now) => sys.(world := AfterCreateThread(w, thread, now).0)
    case StartRun(identity, priority, env) => sys.(world := AfterStartRun(w, identity, priority, env).0)
    case CancelRun(id, now) => sys.(world := AfterCancelRun(w, id, now).0)
    case ResumeRun(id, priority, env) => sys.(world := AfterResumeRun(w, id, priority, env).0)
    case CloseQueue => sys.(world := w.(queue := w.queue.(closed := true)))
    case Receive(lease) => if lease in sys.issued then sys else Received(sys, lease)
    case Begin(lease, now) => if sys.flight.Some? || lease !in sys.issued then sys else Launched(sys, lease, now)
    case Stream(draft, now) => if sys.flight.None? then sys else Streamed(sys, draft, now)
    case Finish(ending, now) => if sys.flight.None? then sys else Finished(sys, ending, now)
  }

  function Received(sys: System, lease: string): System {
    var (queue, r) := Queue.AfterReceive(sys.world.queue, lease);
    match r
    case Some(Ok(receipt)) => sys.(world := sys.world.(queue := queue), issued := sys.issued[lease := receipt])
    case _ => sys
  }

  function Launched(sys: System, lease: string, now: int): System
    requires lease in sys.issued
  {
    var (w, begun) := AfterBegin(sys.world, sys.issued[lease], now);
    match begun
    case Started(f) => sys.(world := w, flight := Some(f), started := sys.started + [f.run.identity.runId])
    case _ => sys.(world := w)
  }

  /** The state after an event's effects, before a refused transition ends the execution. */
  function Applied(sys: System, draft: Draft, now: int): System
    requires sys.flight.Some?
  {
    var (w, f, outcome) := AfterEvent(sys.world, sys.flight.value, draft, now);
    sys.(world := w, flight := Some(f))
  }

  function Streamed(sys: System, draft: Draft, now: int): System
    requires sys.flight.Some?
  {
    var outcome := AfterEvent(sys.world, sys.flight.value, draft, now).2;
    if outcome == Returned then Applied(sys, draft, now) else Finished(Applied(sys, draft, now), Crashed, now)
  }

  function Finished(sys: System, ending: Ending, now: int): System
    requires sys.flight.Some?
  {
    sys.(world := AfterFinish(sys.world, sys.flight.value, ending, now).0, flight := None)
  }

  function Exec(sys: System, actions: seq<Action>): System
    decreases |actions|
  {
    if actions == [] then sys else Exec(Step(sys, actions[0]), actions[1..])
  }

  // ----- Threads and runs -----

  ghost predicate Shape(w: World) {
    Filed(w.threads, w.runs) && ThreadsKnown(w.threads, w.runs)
  }

  /** A busy thread has an active run. */
  ghost predicate BusyOccupied(w: World) {
    forall t | t in w.threads && w.threads[t].status == Busy :: HasActive(w.runs, t)
  }

  /** A thread has at most one active run. */
  ghost predicate OneActive(runs: Runs) {
    forall r1, r2, t | r1 in runs && r2 in runs && Occupies(runs[r1], t) && Occupies(runs[r2], t) :: r1 == r2
  }

  /** The executing run is known and past pending, and only it can be running. */
  ghost predicate FlightOk(sys: System) {
    && (sys.flight.Some? ==>
          var f := sys.flight.value;
          var id := f.run.identity.runId;
          && id in sys.world.runs && sys.world.runs[id].identity == f.run.identity
          && !sys.world.runs[id].status.Pending?
          && (f.terminal ==> !sys.world.runs[id].status.Running?)
          && f.receipt.command.identity.runId == id)
    && (forall r | r in sys.world.runs && sys.world.runs[r].status.Running? ::
          sys.flight.Some? && sys.flight.value.run.identity.runId == r)
    && sys.world.active == (if sys.flight.Some? then {sys.flight.value.run.identity.runId} else {})
  }

  /** No run is started twice, and a started run is never pending again. */
  ghost predicate StartedOnce(sys: System) {
    && (forall r | r in sys.started :: r in sys.world.runs && !sys.world.runs[r].status.Pending?)
    && (forall i, j | 0 <= i < j < |sys.started| :: sys.started[i] != sys.started[j])
  }

  /** One run of a world has changed, and no more than its own thread with it. */
  ghost predicate RunChanged(w: World, w': World, id: string) {
    && id in w.runs && id in w'.runs && w'.runs == w.runs[id := w'.runs[id]]
    && w'.runs[id].identity == w.runs[id].identity
    && w'.threads.Keys == w.threads.Keys
    && (forall t | t in w.threads :: w'.threads[t].threadId == w.threads[t].threadId)
    && (forall t | t in w.threads && Some(t) != w.runs[id].identity.threadId :: w'.threads[t] == w.threads[t])
    && (forall t | t in w.threads && w'.threads[t].status == Busy :: w.threads[t].status == Busy)
  }

  lemma ChangeKeepsShape(w: World, w': World, id: string)
    requires Shape(w) && RunChanged(w, w', id)
    ensures Shape(w')
  {
  }

  /** If the run stops being active, its thread stops being busy. */
  lemma ChangeKeepsBusy(w: World, w': World, id: string)
    requires BusyOccupied(w) && RunChanged(w, w', id)
    requires IsActive(w.runs[id].status) && !IsActive(w'.runs[id].status) && w.runs[id].identity.threadId.Some? ==>
               w.runs[id].identity.threadId.value in w'.threads
               && w'.threads[w.runs[id].identity.threadId.value].status != Busy
    ensures BusyOccupied(w')
  {
    forall t | t in w'.threads && w'.threads[t].status == Busy ensures HasActive(w'.runs, t) {
      assert HasActive(w.runs, t);
      var r :| r in w.runs && Occupies(w.runs[r], t);
      assert r != id ==> w'.runs[r] == w.runs[r];
      assert Occupies(w'.runs[r], t);
    }
  }

  /** A change keeps threads single unless it brings a run back to a thread that another run holds. */
  lemma ChangeKeepsOneActive(runs: Runs, id: string, next: Run)
    requires OneActive(runs) && id in runs && next.identity == runs[id].identity
    requires IsActive(next.status) && !IsActive(runs[id].status) && next.identity.threadId.Some? ==>
               !HasActive(runs, next.identity.threadId.value)
    ensures OneActive(runs[id := next])
  {
  }

  ghost predicate Core(sys: System) {
    Shape(sys.world) && FlightOk(sys) && StartedOnce(sys)
  }

  // ----- Starting a run -----

  lemma StartKeepsShape(w: World, identity: Identity, priority: Priority, env: Ambient)
    requires Shape(w)
    ensures Shape(AfterStartRun(w, identity, priority, env).0)
  {
  }

  /** Starting a run claims its thread before the run's identifier is looked up: an identifier that is
      taken leaves the thread busy although no run holds it. */
  ghost predicate Strands(w: World, identity: Identity) {
    && identity.runId in w.runs && identity.threadId.Some? && identity.threadId.value in w.threads
    && !HasActive(w.runs, identity.threadId.value)
  }

  lemma StartKeepsBusyOccupied(w: World, identity: Identity, priority: Priority, env: Ambient)
    requires BusyOccupied(w) && !Strands(w, identity)
    ensures BusyOccupied(AfterStartRun(w, identity, priority, env).0)
  {
    var id, t, w' := identity.runId, identity.threadId, AfterStartRun(w, identity, priority, env).0;
    forall x | x in w'.threads && w'.threads[x].status == Busy ensures HasActive(w'.runs, x) {
      if HasActive(w.runs, x) {
        var r :| r in w.runs && Occupies(w.runs[r], x);
        assert r != id || id in w.runs ==> w'.runs[r] == w.runs[r];
        assert Occupies(w'.runs[r], x);
      } else {
        assert Some(x) == t;
        assert Occupies(w'.runs[id], x);
      }
    }
  }

  /** The runs after a start: one more, pending or failed; or none. */
  lemma StartAddsOneRun(w: World, identity: Identity, priority: Priority, env: Ambient)
    requires identity.runId !in w.runs
    ensures var w' := AfterStartRun(w, identity, priority, env).0;
            && w'.active == w.active
            && (w'.runs != w.runs ==>
                  && identity.runId in w'.runs && w'.runs == w.runs[identity.runId := w'.runs[identity.runId]]
                  && w'.runs[identity.runId].identity == identity
                  && (w'.runs[identity.runId].status == Pending || w'.runs[identity.runId].status == Error)
                  && (identity.threadId.Some? ==> !HasActive(w.runs, identity.threadId.value)))
  {
  }

  /** A taken identifier changes no run and queues no command. */
  lemma StartTaken(w: World, identity: Identity, priority: Priority, env: Ambient)
    requires identity.runId in w.runs
    ensures var w' := AfterStartRun(w, identity, priority, env).0;
            w' == w.(threads := w'.threads)
  {
  }

  lemma StartKeepsCore(sys: System, identity: Identity, priority: Priority, env: Ambient)
    requires Core(sys)
    ensures Core(sys.(world := AfterStartRun(sys.world, identity, priority, env).0))
  {
    StartKeepsShape(sys.world, identity, priority, env);
    if identity.runId in sys.world.runs {
      StartTaken(sys.world, identity, priority, env);
    } else {
      StartAddsOneRun(sys.world, identity, priority, env);
    }
  }

  lemma StartKeepsOneActive(w: World, identity: Identity, priority: Priority, env: Ambient)
    requires OneActive(w.runs)
    ensures OneActive(AfterStartRun(w, identity, priority, env).0.runs)
  {
    if identity.runId in w.runs {
      StartTaken(w, identity, priority, env);
    } else {
      StartAddsOneRun(w, identity, priority, env);
    }
  }

  // ----- Cancelling, beginning, streaming and finishing -----

  lemma CancelChanges(w: World, id: string, now: int)
    requires Shape(w) && id in w.runs && !IsFinal(w.runs[id].status)
    ensures var w' := AfterCancelRun(w, id, now).0;
            && RunChanged(w, w', id) && w'.runs[id].status == Cancelled && w'.active == w.active && w'.queue == w.queue
            && (w.runs[id].identity.threadId.Some? ==> w'.threads[w.runs[id].identity.threadId.value].status == Idle)
  {
  }

  lemma CancelKeepsCore(sys: System, id: string, now: int)
    requires Core(sys)
    ensures Core(Step(sys, CancelRun(id, now)))
  {
    var w := sys.world;
    if id in w.runs && !IsFinal(w.runs[id].status) {
      CancelChanges(w, id, now);
      ChangeKeepsShape(w, AfterCancelRun(w, id, now).0, id);
    }
  }

  lemma BeginKeepsCore(sys: System, lease: string, now: int)
    requires Core(sys) && sys.flight.None? && lease in sys.issued
    ensures Core(Launched(sys, lease, now))
  {
    var w, receipt := sys.world, sys.issued[lease];
    var id := receipt.command.identity.runId;
    if id in w.runs && w.runs[id].status.Pending? {
      var w' := AfterBegin(w, receipt, now).0;
      assert RunChanged(w, w', id);
      ChangeKeepsShape(w, w', id);
      assert id !in sys.started;
    }
  }

  /** One event changes the executing run and its thread only; a change of status leaves the thread
      idle or suspended. */
  lemma EventChanges(w: World, f: Frame, draft: Draft, now: int)
    requires Shape(w) && f.run.identity.runId in w.runs && w.runs[f.run.identity.runId].identity == f.run.identity
    ensures var (w', f', outcome) := AfterEvent(w, f, draft, now);
            var id, t := f.run.identity.runId, f.run.identity.threadId;
            && RunChanged(w, w', id) && w'.active == w.active && w'.queue == w.queue
            && f'.run == f.run && f'.receipt == f.receipt && f'.terminal == (f.terminal || IsTerminal(draft.eventType))
            && (w'.runs[id].status == w.runs[id].status || IsSettled(w'.runs[id].status))
            && (IsTerminal(draft.eventType) ==> IsFinal(w.runs[id].status) || IsSettled(w'.runs[id].status))
            && (w'.runs[id] != w.runs[id] && t.Some? ==> w'.threads[t.value].status != Busy)
            && (IsActive(w'.runs[id].status) && !IsActive(w.runs[id].status) ==> draft.eventType.RunInterrupted?)
  {
    var id := f.run.identity.runId;
    assert w.runs[id := w.runs[id]] == w.runs;
    if IsTerminal(draft.eventType) {
      var last := if draft.eventType.StateValues? then draft.data else f.lastResult;
      SettledStatus(w.runs[id], draft.eventType, last, now);
    }
  }

  lemma EventKeepsCore(sys: System, draft: Draft, now: int)
    requires Core(sys) && sys.flight.Some?
    ensures Core(Applied(sys, draft, now))
  {
    var w, f := sys.world, sys.flight.value;
    var id := f.run.identity.runId;
    EventChanges(w, f, draft, now);
    ChangeKeepsShape(w, Applied(sys, draft, now).world, id);
  }

  lemma EndingChanges(w: World, f: Frame, ending: Ending, now: int)
    requires Shape(w) && f.run.identity.runId in w.runs && w.runs[f.run.identity.runId].identity == f.run.identity
    requires !w.runs[f.run.identity.runId].status.Pending?
    requires f.terminal ==> !w.runs[f.run.identity.runId].status.Running?
    ensures var (w', outcome) := AfterEnding(w, f, ending, now);
            var id := f.run.identity.runId;
            && RunChanged(w, w', id) && w'.threads == w.threads && w'.active == w.active && w'.queue == w.queue
            && (IsSettled(w'.runs[id].status) || w'.runs[id].status.Timeout?)
            && (IsActive(w'.runs[id].status) ==> IsActive(w.runs[id].status))
  {
    assert w.runs[f.run.identity.runId := w.runs[f.run.identity.runId]] == w.runs;
  }

  lemma ReleaseChanges(w: World, f: Frame, now: int)
    requires Shape(w) && f.run.identity.runId in w.runs && w.runs[f.run.identity.runId].identity == f.run.identity
    ensures var (w', outcome) := AfterRelease(w, f, now);
            var id, t := f.run.identity.runId, f.run.identity.threadId;
            && RunChanged(w, w', id) && w'.runs == w.runs && w'.active == w.active - {id}
            && w'.queue == Queue.AfterAcknowledge(w.queue, f.receipt).0
            && (t.Some? ==> w'.threads[t.value].status != Busy)
  {
    assert w.runs[f.run.identity.runId := w.runs[f.run.identity.runId]] == w.runs;
  }

  lemma FinishChanges(w: World, f: Frame, ending: Ending, now: int)
    requires Shape(w) && f.run.identity.runId in w.runs && w.runs[f.run.identity.runId].identity == f.run.identity
    requires !w.runs[f.run.identity.runId].status.Pending?
    requires f.terminal ==> !w.runs[f.run.identity.runId].status.Running?
    ensures var (w', outcome) := AfterFinish(w, f, ending, now);
            var id, t := f.run.identity.runId, f.run.identity.threadId;
            && RunChanged(w, w', id) && w'.active == w.active - {id}
            && w'.queue == Queue.AfterAcknowledge(w.queue, f.receipt).0
            && (IsSettled(w'.runs[id].status) || w'.runs[id].status.Timeout?)
            && (IsActive(w'.runs[id].status) ==> IsActive(w.runs[id].status))
            && (t.Some? ==> w'.threads[t.value].status != Busy)
  {
    var w1 := AfterEnding(w, f, ending, now).0;
    EndingChanges(w, f, ending, now);
    assert Filed(w1.threads, w1.runs);
    ReleaseChanges(w1, f, now);
  }

  lemma FinishKeepsCore(sys: System, ending: Ending, now: int)
    requires Core(sys) && sys.flight.Some?
    ensures Core(Finished(sys, ending, now))
  {
    var w, f := sys.world, sys.flight.value;
    FinishChanges(w, f, ending, now);
    ChangeKeepsShape(w, Finished(sys, ending, now).world, f.run.identity.runId);
  }

  lemma StepKeepsCore(sys: System, a: Action)
    requires Core(sys)
    ensures Core(Step(sys, a))
  {
    match a {
      case CreateThread(thread, now) =>
      case StartRun(identity, priority, env) => StartKeepsCore(sys, identity, priority, env);
      case CancelRun(id, now) => CancelKeepsCore(sys, id, now);
      case ResumeRun(id, priority, env) =>
      case CloseQueue =>
      case Receive(lease) =>
      case Begin(lease, now) =>
        if sys.flight.None? && lease in sys.issued {
          BeginKeepsCore(sys, lease, now);
        }
      case Stream(draft, now) =>
        if sys.flight.Some? {
          EventKeepsCore(sys, draft, now);
          FinishKeepsCore(Applied(sys, draft, now), Crashed, now);
        }
      case Finish(ending, now) =>
        if sys.flight.Some? {
          FinishKeepsCore(sys, ending, now);
        }
    }
  }

  // ----- Busy threads -----

  lemma BeginKeepsBusy(sys: System, lease: string, now: int)
    requires Core(sys) && BusyOccupied(sys.world) && lease in sys.issued
    ensures BusyOccupied(Launched(sys, lease, now).world)
  {
    var w, w', id := sys.world, Launched(sys, lease, now).world, sys.issued[lease].command.identity.runId;
    if id in w.runs && w.runs[id].status.Pending? {
      assert RunChanged(w, w', id);
      ChangeKeepsBusy(w, w', id);
    }
  }

  lemma EventKeepsBusy(sys: System, draft: Draft, now: int)
    requires Core(sys) && BusyOccupied(sys.world) && sys.flight.Some?
    ensures BusyOccupied(Applied(sys, draft, now).world)
  {
    var w, f := sys.world, sys.flight.value;
    EventChanges(w, f, draft, now);
    ChangeKeepsBusy(w, Applied(sys, draft, now).world, f.run.identity.runId);
  }

  lemma FinishKeepsBusy(sys: System, ending: Ending, now: int)
    requires Core(sys) && BusyOccupied(sys.world) && sys.flight.Some?
    ensures BusyOccupied(Finished(sys, ending, now).world)
  {
    var w, f := sys.world, sys.flight.value;
    FinishChanges(w, f, ending, now);
    ChangeKeepsBusy(w, Finished(sys, ending, now).world, f.run.identity.runId);
  }

  lemma CancelKeepsBusy(sys: System, id: string, now: int)
    requires Core(sys) && BusyOccupied(sys.world)
    ensures BusyOccupied(Step(sys, CancelRun(id, now)).world)
  {
    var w := sys.world;
    if id in w.runs && !IsFinal(w.runs[id].status) {
      CancelChanges(w, id, now);
      ChangeKeepsBusy(w, AfterCancelRun(w, id, now).0, id);
    }
  }

  lemma CreateKeepsBusy(w: World, thread: string, now: int)
    requires BusyOccupied(w)
    ensures BusyOccupied(AfterCreateThread(w, thread, now).0)
  {
  }

  lemma StepKeepsBusy(sys: System, a: Action)
    requires Core(sys) && BusyOccupied(sys.world) && (a.StartRun? ==> !Strands(sys.world, a.identity))
    ensures BusyOccupied(Step(sys, a).world)
  {
    match a {
      case CreateThread(thread, now) => CreateKeepsBusy(sys.world, thread, now);
      case StartRun(identity, priority, env) => StartKeepsBusyOccupied(sys.world, identity, priority, env);
      case CancelRun(id, now) => CancelKeepsBusy(sys, id, now);
      case Begin(lease, now) =>
        if sys.flight.None? && lease in sys.issued {
          BeginKeepsBusy(sys, lease, now);
        }
      case Stream(draft, now) =>
        if sys.flight.Some? {
          EventKeepsBusy(sys, draft, now);
          EventKeepsCore(sys, draft, now);
          FinishKeepsBusy(Applied(sys, draft, now), Crashed, now);
        }
      case Finish(ending, now) =>
        if sys.flight.Some? {
          FinishKeepsBusy(sys, ending, now);
        }
      case ResumeRun(_, _, _) | CloseQueue | Receive(_) =>
    }
  }
}
