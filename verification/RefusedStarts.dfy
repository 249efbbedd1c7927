/** What a refused start leaves behind. */
module RefusedStarts {
  import opened Domain
  import opened Execution
  import opened ExecutionService
  import opened ExecutionSettles
  import opened ExecutionRuns
  import opened ExecutionTheorems

  /** A refused start changes nothing exactly when its thread is unknown or busy, or when it has no
      thread and its identifier is taken. */
  lemma NoTraceIff(w: World, identity: Identity, priority: Priority, env: Ambient)
    ensures var (w', r) := AfterStartRun(w, identity, priority, env);
            r.Err? ==>
              (w' == w <==>
               if identity.threadId.Some?
               then identity.threadId.value !in w.threads || w.threads[identity.threadId.value].status == Busy
               else identity.runId in w.runs)
  {
    var (w', r) := AfterStartRun(w, identity, priority, env);
    var t := identity.threadId;
    if r.Err? && t.Some? && t.value in w.threads && w.threads[t.value].status != Busy {
      assert (identity.runId in w'.runs && identity.runId !in w.runs) || w'.threads[t.value].status == Busy;
    }
    if r.Err? && t.None? && identity.runId !in w.runs {
      assert identity.runId in w'.runs;
    }
  }

  /** The traces a refused start can leave: with a taken identifier, or a thread that a run holds (also an
      interrupted one), its thread is busy and nothing else has changed; otherwise the queue was closed,
      and a failed run and a broken thread remain. */
  lemma TraceOfRefusal(w: World, identity: Identity, priority: Priority, env: Ambient)
    requires var (w', r) := AfterStartRun(w, identity, priority, env); r.Err? && w' != w
    ensures var (w', r) := AfterStartRun(w, identity, priority, env);
            var t := identity.threadId;
            if identity.runId in w.runs || (t.Some? && HasActive(w.runs, t.value))
            then t.Some? && t.value in w.threads && w' == w.(threads := MarkThread(w.threads, t.value, Busy, env.now))
                 && r == Err(if identity.runId in w.runs then InvalidExecutionInput else ThreadBusy)
            else w.queue.closed && r == Err(QueueClosed)
                 && identity.runId in w'.runs
                 && w'.runs[identity.runId] == Run(identity, Error, env.now, env.now, Null, Some("RUN_QUEUE_FAILED"))
                 && (t.Some? ==> t.value in w'.threads && w'.threads[t.value].status == Broken)
  {
  }

  // ----- Threads that are busy without a run -----

  /** Starting a run leaves a thread busy that no run holds exactly when the identifier is taken and the
      thread is known and free of active runs. */
  lemma StrandedIff(w: World, identity: Identity, priority: Priority, env: Ambient)
    requires BusyOccupied(w)
    ensures BusyOccupied(AfterStartRun(w, identity, priority, env).0) <==> !Strands(w, identity)
  {
    if Strands(w, identity) {
      var t, w' := identity.threadId.value, AfterStartRun(w, identity, priority, env).0;
      assert w.threads[t].status != Busy;
      assert w'.threads[t].status == Busy && w'.runs == w.runs;
    } else {
      StartKeepsBusyOccupied(w, identity, priority, env);
    }
  }

  /** A busy thread that no active run occupies. */
  ghost predicate Stranded(w: World, thread: string) {
    thread in w.threads && w.threads[thread].status == Busy && !HasActive(w.runs, thread)
  }

  /** An execution of one of the thread's runs is under way. */
  predicate InExecution(sys: System, thread: string) {
    sys.flight.Some? && sys.flight.value.run.identity.threadId == Some(thread)
  }

  /** A change of a run of another thread, or of none. */
  lemma ChangeElsewhere(w: World, w': World, id: string, thread: string)
    requires RunChanged(w, w', id) && w.runs[id].identity.threadId != Some(thread) && Stranded(w, thread)
    ensures Stranded(w', thread)
  {
    forall r | r in w'.runs ensures !Occupies(w'.runs[r], thread) {
      assert !Occupies(w.runs[r], thread);
    }
  }

  lemma StartKeepsStranded(w: World, identity: Identity, priority: Priority, env: Ambient, thread: string)
    requires Stranded(w, thread)
    ensures Stranded(AfterStartRun(w, identity, priority, env).0, thread)
    ensures identity.threadId == Some(thread) ==> AfterStartRun(w, identity, priority, env).1 == Err(ThreadBusy)
  {
    var w' := AfterStartRun(w, identity, priority, env).0;
    forall r | r in w'.runs ensures !Occupies(w'.runs[r], thread) {
      assert r in w.runs ==> !Occupies(w.runs[r], thread);
    }
  }

  lemma CancelKeepsStranded(w: World, id: string, now: int, thread: string)
    requires Shape(w) && Stranded(w, thread)
    ensures Stranded(AfterCancelRun(w, id, now).0, thread)
  {
    if id in w.runs && !IsFinal(w.runs[id].status) {
      assert !Occupies(w.runs[id], thread);
      CancelChanges(w, id, now);
      ChangeElsewhere(w, AfterCancelRun(w, id, now).0, id, thread);
    }
  }

  lemma BeginKeepsStranded(sys: System, lease: string, now: int, thread: string)
    requires Core(sys) && sys.flight.None? && lease in sys.issued && Stranded(sys.world, thread)
    ensures Stranded(Launched(sys, lease, now).world, thread) && !InExecution(Launched(sys, lease, now), thread)
  {
    var w, w', id := sys.world, Launched(sys, lease, now).world, sys.issued[lease].command.identity.runId;
    if id in w.runs && w.runs[id].status.Pending? {
      assert !Occupies(w.runs[id], thread);
      assert RunChanged(w, w', id);
      ChangeElsewhere(w, w', id, thread);
    }
  }

  lemma EventKeepsStranded(sys: System, draft: Draft, now: int, thread: string)
    requires Core(sys) && sys.flight.Some? && Stranded(sys.world, thread) && !InExecution(sys, thread)
    ensures Stranded(Applied(sys, draft, now).world, thread) && !InExecution(Applied(sys, draft, now), thread)
  {
    EventChanges(sys.world, sys.flight.value, draft, now);
    ChangeElsewhere(sys.world, Applied(sys, draft, now).world, sys.flight.value.run.identity.runId, thread);
  }

  lemma FinishKeepsStranded(sys: System, ending: Ending, now: int, thread: string)
    requires Core(sys) && sys.flight.Some? && Stranded(sys.world, thread) && !InExecution(sys, thread)
    ensures Stranded(Finished(sys, ending, now).world, thread)
  {
    FinishChanges(sys.world, sys.flight.value, ending, now);
    ChangeElsewhere(sys.world, Finished(sys, ending, now).world, sys.flight.value.run.identity.runId, thread);
  }

  lemma StreamKeepsStranded(sys: System, draft: Draft, now: int, thread: string)
    requires Core(sys) && sys.flight.Some? && Stranded(sys.world, thread) && !InExecution(sys, thread)
    ensures Stranded(Streamed(sys, draft, now).world, thread) && !InExecution(Streamed(sys, draft, now), thread)
  {
    EventKeepsStranded(sys, draft, now, thread);
    EventKeepsCore(sys, draft, now);
    FinishKeepsStranded(Applied(sys, draft, now), Crashed, now, thread);
  }

  lemma StepKeepsStranded(sys: System, a: Action, thread: string)
    requires Core(sys) && Stranded(sys.world, thread) && !InExecution(sys, thread)
    ensures Stranded(Step(sys, a).world, thread) && !InExecution(Step(sys, a), thread)
  {
    match a {
      case StartRun(identity, priority, env) => StartKeepsStranded(sys.world, identity, priority, env, thread);
      case CancelRun(id, now) => CancelKeepsStranded(sys.world, id, now, thread);
      case Begin(lease, now) =>
        if sys.flight.None? && lease in sys.issued {
          BeginKeepsStranded(sys, lease, now, thread);
        }
      case Stream(draft, now) =>
        if sys.flight.Some? {
          StreamKeepsStranded(sys, draft, now, thread);
        }
      case Finish(ending, now) =>
        if sys.flight.Some? {
          FinishKeepsStranded(sys, ending, now, thread);
        }
      case CreateThread(_, _) | ResumeRun(_, _, _) | CloseQueue | Receive(_) =>
    }
  }

  lemma {:induction false} RunKeepsStranded(sys: System, actions: seq<Action>, thread: string)
    requires Core(sys) && Stranded(sys.world, thread) && !InExecution(sys, thread)
    ensures Stranded(Exec(sys, actions).world, thread)
    decreases |actions|
  {
    if actions != [] {
      StepKeepsCore(sys, actions[0]);
      StepKeepsStranded(sys, actions[0], thread);
      RunKeepsStranded(Step(sys, actions[0]), actions[1..], thread);
    }
  }

  /** A stranded thread stays so for ever, whatever follows, exactly when none of its runs is being
      executed: the end of an execution releases its thread. */
  lemma StrandedForEverIff(sys: System, thread: string)
    requires Core(sys) && Stranded(sys.world, thread)
    ensures (forall actions :: Stranded(Exec(sys, actions).world, thread)) <==> !InExecution(sys, thread)
  {
    if InExecution(sys, thread) {
      var a := Finish(Exhausted, 0);
      FinishChanges(sys.world, sys.flight.value, Exhausted, 0);
      assert Exec(sys, [a]) == Step(sys, a);
      assert !Stranded(Exec(sys, [a]).world, thread);
    } else {
      forall actions ensures Stranded(Exec(sys, actions).world, thread) {
        RunKeepsStranded(sys, actions, thread);
      }
    }
  }

  /** A start under a taken identifier, on a known thread without active runs: it is refused, the thread
      is stranded, and stays so for ever exactly when none of its runs is being executed. */
  lemma StartStrands(sys: System, identity: Identity, priority: Priority, env: Ambient)
    requires Core(sys) && BusyOccupied(sys.world) && Strands(sys.world, identity)
    ensures var sys', t := Step(sys, StartRun(identity, priority, env)), identity.threadId.value;
            && AfterStartRun(sys.world, identity, priority, env).1 == Err(InvalidExecutionInput)
            && Stranded(sys'.world, t)
            && ((forall actions :: Stranded(Exec(sys', actions).world, t)) <==> !InExecution(sys, t))
  {
    StartKeepsCore(sys, identity, priority, env);
    StartTaken(sys.world, identity, priority, env);
    StrandedForEverIff(Step(sys, StartRun(identity, priority, env)), identity.threadId.value);
  }

  const TWO_THREADS: seq<Action> :=
    [CreateThread("t", 0), StartRun(R1, Normal, Ambient(1, "c1")), CreateThread("u", 2)]

  const REPEATED: Action := StartRun(Identity("r1", Some("u")), Normal, Ambient(3, "c2"))

  lemma TwoThreads()
    ensures var sys := Exec(Start, TWO_THREADS);
            && sys.world.runs == map["r1" := Run(R1, Pending, 1, 1, Null, None)]
            && "u" in sys.world.threads && sys.world.threads["u"] == Thread("u", Idle, 2, 2) && sys.flight.None?
  {
    var a := TWO_THREADS;
    var s1 := Step(Start, a[0]);
    assert s1 == Start.(world := Start.world.(threads := map["t" := Thread("t", Idle, 0, 0)]));
    FirstStarted(s1);
    ExecFrom(Start, a, 0);
    ExecFrom(s1, a, 1);
    ExecFrom(Step(s1, a[1]), a, 2);
    assert a[0..] == a && a[3..] == [];
  }

  /** A run identifier used a second time, on a thread of its own, strands the thread for ever. */
  lemma ThreadIsStranded(actions: seq<Action>)
    ensures Stranded(Exec(Start, TWO_THREADS + [REPEATED] + actions).world, "u")
  {
    var sys := Exec(Start, TWO_THREADS);
    TwoThreads();
    RunKeepsCore(Start, TWO_THREADS);
    ExecJoins(Start, TWO_THREADS, [REPEATED] + actions);
    assert TWO_THREADS + [REPEATED] + actions == TWO_THREADS + ([REPEATED] + actions);
    assert ([REPEATED] + actions)[1..] == actions;
    var next := Step(sys, REPEATED);
    StartKeepsCore(sys, Identity("r1", Some("u")), Normal, Ambient(3, "c2"));
    assert Stranded(next.world, "u") && !InExecution(next, "u");
    RunKeepsStranded(next, actions, "u");
  }
}
