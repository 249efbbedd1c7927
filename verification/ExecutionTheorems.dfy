/** What every run of the service guarantees, under any interleaving and at operation boundaries. */
module ExecutionTheorems {
  import opened Domain
  import opened QueueItems
  import opened Execution
  import opened ExecutionService
  import opened ExecutionSettles
  import opened ExecutionRuns
  import Queue = MemoryQueue

  lemma {:induction false} RunKeepsCore(sys: System, actions: seq<Action>)
    requires Core(sys)
    ensures Core(Exec(sys, actions))
    decreases |actions|
  {
    if actions != [] {
      StepKeepsCore(sys, actions[0]);
      RunKeepsCore(Step(sys, actions[0]), actions[1..]);
    }
  }

  /** No start of the run strands a thread; starts under fresh identifiers never do. */
  ghost predicate NeverStrands(sys: System, actions: seq<Action>)
    decreases |actions|
  {
    actions != [] ==>
      (actions[0].StartRun? ==> !Strands(sys.world, actions[0].identity))
      && NeverStrands(Step(sys, actions[0]), actions[1..])
  }

  lemma {:induction false} RunKeepsBusy(sys: System, actions: seq<Action>)
    requires Core(sys) && BusyOccupied(sys.world) && NeverStrands(sys, actions)
    ensures BusyOccupied(Exec(sys, actions).world)
    decreases |actions|
  {
    if actions != [] {
      StepKeepsCore(sys, actions[0]);
      StepKeepsBusy(sys, actions[0]);
      RunKeepsBusy(Step(sys, actions[0]), actions[1..]);
    }
  }

  /** Under any interleaving of client operations with the worker and its adapter, and with any
      receipt delivered again at any time: the adapter is started at most once for each run, only the
      run in execution is running, and a busy thread has an active run unless a start has stranded one. */
  lemma AtMostOnce(actions: seq<Action>)
    ensures var sys := Exec(Start, actions);
            && (forall i, j | 0 <= i < j < |sys.started| :: sys.started[i] != sys.started[j])
            && (NeverStrands(Start, actions) ==>
                  forall t | t in sys.world.threads && sys.world.threads[t].status == Busy ::
                    HasActive(sys.world.runs, t))
            && (forall r | r in sys.world.runs && sys.world.runs[r].status == Running ::
                  r in sys.started && sys.flight.Some? && sys.flight.value.run.identity.runId == r
                    && r in sys.world.active)
  {
    RunKeepsCore(Start, actions);
    RunKeepsStarted(Start, actions);
    if NeverStrands(Start, actions) {
      RunKeepsBusy(Start, actions);
    }
  }

  /** The run in execution was started. */
  ghost predicate FlightStarted(sys: System) {
    sys.flight.Some? ==> sys.flight.value.run.identity.runId in sys.started
  }

  lemma {:induction false} RunKeepsStarted(sys: System, actions: seq<Action>)
    requires FlightStarted(sys)
    ensures FlightStarted(Exec(sys, actions))
    decreases |actions|
  {
    if actions != [] {
      StepKeepsStarted(sys, actions[0]);
      RunKeepsStarted(Step(sys, actions[0]), actions[1..]);
    }
  }

  lemma StepKeepsStarted(sys: System, a: Action)
    requires FlightStarted(sys)
    ensures FlightStarted(Step(sys, a))
  {
    if a.Stream? && sys.flight.Some? {
      EventKeepsFrame(sys.world, sys.flight.value, a.draft, a.now);
    }
  }

  lemma EventKeepsFrame(w: World, f: Frame, draft: Draft, now: int)
    ensures AfterEvent(w, f, draft, now).1.run == f.run && AfterEvent(w, f, draft, now).1.receipt == f.receipt
  {
  }

  predicate InFlight(sys: System, id: string) {
    sys.flight.Some? && sys.flight.value.run.identity.runId == id
  }

  lemma StepStartsNothingAgain(sys: System, a: Action, id: string)
    requires Core(sys) && id in sys.started && !InFlight(sys, id)
    ensures id in Step(sys, a).started && !InFlight(Step(sys, a), id)
  {
    if a.Stream? && sys.flight.Some? {
      EventKeepsFrame(sys.world, sys.flight.value, a.draft, a.now);
    }
  }

  /** Resuming does not execute: once the execution of a run is over, the run is never running again,
      whatever is resumed, delivered or delivered again. */
  lemma {:induction false} NeverRunsAgain(sys: System, actions: seq<Action>, id: string)
    requires Core(sys) && id in sys.started && !InFlight(sys, id)
    ensures var final := Exec(sys, actions);
            && !InFlight(final, id) && id in final.world.runs
            && final.world.runs[id].status != Running && final.world.runs[id].status != Pending
    decreases |actions|
  {
    if actions != [] {
      StepKeepsCore(sys, actions[0]);
      StepStartsNothingAgain(sys, actions[0], id);
      NeverRunsAgain(Step(sys, actions[0]), actions[1..], id);
    }
  }

  // ----- One active run per thread -----

  /** An interruption arrives for a run that is already final, and its thread has been given to
      another run since. */
  ghost predicate Revives(sys: System, a: Action) {
    && a.Stream? && a.draft.eventType.RunInterrupted? && sys.flight.Some?
    && var id := sys.flight.value.run.identity.runId;
       && id in sys.world.runs && IsFinal(sys.world.runs[id].status)
       && sys.world.runs[id].identity.threadId.Some?
       && HasActive(sys.world.runs, sys.world.runs[id].identity.threadId.value)
  }

  lemma EventKeepsOneActive(sys: System, draft: Draft, now: int)
    requires Core(sys) && OneActive(sys.world.runs) && sys.flight.Some? && !Revives(sys, Stream(draft, now))
    ensures OneActive(Applied(sys, draft, now).world.runs)
  {
    var w, id := sys.world, sys.flight.value.run.identity.runId;
    EventChanges(w, sys.flight.value, draft, now);
    var w' := Applied(sys, draft, now).world;
    ChangeKeepsOneActive(w.runs, id, w'.runs[id]);
  }

  lemma FinishKeepsOneActive(sys: System, ending: Ending, now: int)
    requires Core(sys) && OneActive(sys.world.runs) && sys.flight.Some?
    ensures OneActive(Finished(sys, ending, now).world.runs)
  {
    var w, id := sys.world, sys.flight.value.run.identity.runId;
    FinishChanges(w, sys.flight.value, ending, now);
    ChangeKeepsOneActive(w.runs, id, Finished(sys, ending, now).world.runs[id]);
  }

  lemma RevivalApplies(w: World, f: Frame, draft: Draft, now: int)
    requires draft.eventType.RunInterrupted? && f.run.identity.runId in w.runs
    requires ThreadsKnown(w.threads, w.runs)
    ensures var (w', f', outcome) := AfterEvent(w, f, draft, now);
            var id := f.run.identity.runId;
            outcome == Returned && w'.runs == w.runs[id := w.runs[id].Interrupt(now)]
  {
  }

  lemma RevivalBreaksOneActive(sys: System, draft: Draft, now: int)
    requires Core(sys) && Revives(sys, Stream(draft, now))
    ensures !OneActive(Streamed(sys, draft, now).world.runs)
  {
    var w, id := sys.world, sys.flight.value.run.identity.runId;
    var t := w.runs[id].identity.threadId.value;
    RevivalApplies(w, sys.flight.value, draft, now);
    var runs' := w.runs[id := w.runs[id].Interrupt(now)];
    assert Streamed(sys, draft, now).world.runs == runs';
    var other :| other in w.runs && Occupies(w.runs[other], t);
    assert Occupies(runs'[other], t) && Occupies(runs'[id], t);
  }

  lemma BeginKeepsOneActive(sys: System, lease: string, now: int)
    requires Core(sys) && OneActive(sys.world.runs) && lease in sys.issued
    ensures OneActive(Launched(sys, lease, now).world.runs)
  {
    var w, id := sys.world, sys.issued[lease].command.identity.runId;
    if id in w.runs && w.runs[id].status == Pending {
      ChangeKeepsOneActive(w.runs, id, Launched(sys, lease, now).world.runs[id]);
    }
  }

  /** No step gives a thread a second active run, except an interruption that revives a run. */
  lemma OneActiveIff(sys: System, a: Action)
    requires Core(sys) && OneActive(sys.world.runs)
    ensures OneActive(Step(sys, a).world.runs) <==> !Revives(sys, a)
  {
    if Revives(sys, a) {
      RevivalBreaksOneActive(sys, a.draft, a.now);
      return;
    }
    match a {
      case StartRun(identity, priority, env) => StartKeepsOneActive(sys.world, identity, priority, env);
      case CancelRun(id, now) =>
        if id in sys.world.runs && !IsFinal(sys.world.runs[id].status) {
          CancelChanges(sys.world, id, now);
          ChangeKeepsOneActive(sys.world.runs, id, Step(sys, a).world.runs[id]);
        }
      case Begin(lease, now) =>
        if sys.flight.None? && lease in sys.issued {
          BeginKeepsOneActive(sys, lease, now);
        }
      case Stream(draft, now) =>
        if sys.flight.Some? {
          EventKeepsOneActive(sys, draft, now);
          EventKeepsCore(sys, draft, now);
          FinishKeepsOneActive(Applied(sys, draft, now), Crashed, now);
        }
      case Finish(ending, now) =>
        if sys.flight.Some? {
          FinishKeepsOneActive(sys, ending, now);
        }
      case CreateThread(_, _) | ResumeRun(_, _, _) | CloseQueue | Receive(_) =>
    }
  }

  lemma {:induction false} ExecJoins(sys: System, front: seq<Action>, back: seq<Action>)
    ensures Exec(sys, front + back) == Exec(Exec(sys, front), back)
    decreases |front|
  {
    if front == [] {
      assert front + back == back;
    } else {
      ExecJoins(Step(sys, front[0]), front[1..], back);
      assert (front + back)[1..] == front[1..] + back;
    }
  }

  const R1: Identity := Identity("r1", Some("t"))
  const R2: Identity := Identity("r2", Some("t"))

  /** The first run of a thread has begun, and is cancelled by a client while its adapter streams. */
  const CANCELLED_EARLY: seq<Action> :=
    [CreateThread("t", 0), StartRun(R1, Normal, Ambient(1, "c1")), Receive("l"), Begin("l", 2), CancelRun("r1", 3)]

  lemma FirstStarted(sys: System)
    requires sys == Start.(world := Start.world.(threads := map["t" := Thread("t", Idle, 0, 0)]))
    ensures var w := Step(sys, CANCELLED_EARLY[1]).world;
            && w.runs == map["r1" := Run(R1, Pending, 1, 1, Null, None)]
            && w.threads == map["t" := Thread("t", Busy, 0, 1)]
            && w.queue == Queue.State([Queued(-50, 0, Command("c1", R1, Normal, 1), 0)], 1, false, map[], [])
    ensures Step(sys, CANCELLED_EARLY[1]) == sys.(world := Step(sys, CANCELLED_EARLY[1]).world)
  {
  }

  lemma FirstBegun(sys: System)
    requires sys.world.runs == map["r1" := Run(R1, Pending, 1, 1, Null, None)]
    requires sys.world.queue == Queue.State([Queued(-50, 0, Command("c1", R1, Normal, 1), 0)], 1, false, map[], [])
    requires sys.issued == map[] && sys.flight.None?
    ensures var sys' := Step(Step(sys, CANCELLED_EARLY[2]), CANCELLED_EARLY[3]);
            && sys'.world.runs == map["r1" := Run(R1, Running, 1, 2, Null, None)]
            && sys'.world.threads == sys.world.threads
            && sys'.flight.Some? && sys'.flight.value.run == Run(R1, Pending, 1, 1, Null, None)
            && !sys'.world.queue.closed
  {
    var received := Step(sys, CANCELLED_EARLY[2]);
    assert received.issued["l"] == Receipt(Command("c1", R1, Normal, 1), "l", 1);
    assert received.world.runs == sys.world.runs;
  }

  lemma CancelledEarly()
    ensures var sys := Exec(Start, CANCELLED_EARLY);
            && sys.world.runs == map["r1" := Run(R1, Cancelled, 1, 3, Null, None)]
            && sys.world.threads == map["t" := Thread("t", Idle, 0, 3)]
            && sys.flight.Some? && sys.flight.value.run == Run(R1, Pending, 1, 1, Null, None)
            && !sys.world.queue.closed
  {
    var a := CANCELLED_EARLY;
    var s1 := Step(Start, a[0]);
    assert s1 == Start.(world := Start.world.(threads := map["t" := Thread("t", Idle, 0, 0)]));
    FirstStarted(s1);
    var s2 := Step(s1, a[1]);
    FirstBegun(s2);
    var s4 := Step(Step(s2, a[2]), a[3]);
    ExecFrom(Start, a, 0);
    ExecFrom(s1, a, 1);
    ExecFrom(Step(s1, a[1]), a, 2);
    ExecFrom(Step(s2, a[2]), a, 3);
    ExecFrom(s4, a, 4);
    assert a[0..] == a && a[5..] == [];
  }

  lemma ExecFrom(sys: System, actions: seq<Action>, i: nat)
    requires i < |actions|
    ensures Exec(sys, actions[i..]) == Exec(Step(sys, actions[i]), actions[i + 1..])
  {
    assert actions[i..][1..] == actions[i + 1..];
  }

  /** A second run is started while the first is cancelled but still in execution. */
  lemma SecondStarted(sys: System)
    requires sys.world.runs == map["r1" := Run(R1, Cancelled, 1, 3, Null, None)]
    requires sys.world.threads == map["t" := Thread("t", Idle, 0, 3)] && !sys.world.queue.closed
    ensures var sys' := Step(sys, SECOND_STARTED[0]);
            && sys'.flight == sys.flight
            && sys'.world.runs == sys.world.runs["r2" := Run(R2, Pending, 4, 4, Null, None)]
            && "t" in sys'.world.threads
  {
  }

  lemma SecondRevives(sys: System)
    requires sys.world.runs
      == map["r1" := Run(R1, Cancelled, 1, 3, Null, None), "r2" := Run(R2, Pending, 4, 4, Null, None)]
    requires "t" in sys.world.threads
    requires sys.flight.Some? && sys.flight.value.run == Run(R1, Pending, 1, 1, Null, None)
    ensures Step(sys, SECOND_STARTED[1]).world.runs
            == map["r1" := Run(R1, Interrupted, 1, 5, Null, None), "r2" := Run(R2, Pending, 4, 4, Null, None)]
  {
    RevivalApplies(sys.world, sys.flight.value, SECOND_STARTED[1].draft, 5);
  }

  const SECOND_STARTED: seq<Action> :=
    [StartRun(R2, Normal, Ambient(4, "c2")), Stream(Draft(R1, RunInterrupted, Null), 5)]

  /** The freed thread is given to a second run, and the adapter of the first reports an interruption:
      the thread has two active runs. */
  lemma TwoActiveRuns()
    ensures var runs := Exec(Start, CANCELLED_EARLY + SECOND_STARTED).world.runs;
            "r1" in runs && Occupies(runs["r1"], "t") && "r2" in runs && Occupies(runs["r2"], "t")
  {
    ExecJoins(Start, CANCELLED_EARLY, SECOND_STARTED);
    CancelledEarly();
    var sys := Exec(Start, CANCELLED_EARLY);
    ExecFrom(sys, SECOND_STARTED, 0);
    ExecFrom(Step(sys, SECOND_STARTED[0]), SECOND_STARTED, 1);
    SecondStarted(sys);
    SecondRevives(Step(sys, SECOND_STARTED[0]));
  }
}
