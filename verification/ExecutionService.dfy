/** The execution service: starting, cancelling, resuming and executing runs. */
module ExecutionService {
  import opened Domain
  import opened Execution
  import Queue = MemoryQueue

  /** Everything the service reads and writes. `logs` holds, per run, the drafts appended to the
      journal; numbering and live delivery are the journal's own matter. */
  datatype World = World(
    threads: Threads, runs: Runs, queue: Queue.State, logs: map<string, seq<Draft>>, active: set<string>)

  /** The values an operation takes from its surroundings: the clock and a fresh command identifier. */
  datatype Ambient = Ambient(now: int, commandId: string)

  function Logged(logs: map<string, seq<Draft>>, draft: Draft): map<string, seq<Draft>> {
    var run := draft.identity.runId;
    logs[run := (if run in logs then logs[run] else []) + [draft]]
  }

  function MarkThread(threads: Threads, thread: string, status: ThreadStatus, now: int): Threads
    requires thread in threads
  {
    threads[thread := threads[thread].Mark(status, now)]
  }

  function CommandFor(identity: Identity, priority: Priority, env: Ambient): Command {
    Command(env.commandId, identity, priority, env.now)
  }

  // ----- Operations other than execution -----

  function AfterCreateThread(w: World, thread: string, now: int): (World, Result<Thread>) {
    if thread in w.threads then (w, Err(InvalidExecutionInput))
    else
      var t := Thread(thread, Idle, now, now);
      (w.(threads := w.threads[thread := t]), Ok(t))
  }

  /** The thread is marked busy before the run is created, and stays busy if creation is refused; a
      run whose command cannot be queued fails and leaves its thread in the error status. */
  function AfterStartRun(w: World, identity: Identity, priority: Priority, env: Ambient): (World, Result<Run>) {
    var t := identity.threadId;
    if t.Some? && t.value !in w.threads then (w, Err(ResourceNotFound))
    else if t.Some? && w.threads[t.value].status == Busy then (w, Err(ThreadBusy))
    else
      var claimed := if t.Some? then w.(threads := MarkThread(w.threads, t.value, Busy, env.now)) else w;
      var run := Run(identity, Pending, env.now, env.now, Null, None);
      match Created(claimed.runs, run)
      case Err(code) => (claimed, Err(code))
      case Ok(runs) =>
        var queued := claimed.(runs := runs, logs := Logged(claimed.logs, Draft(identity, RunQueued, Null)));
        var (queue, r) := Queue.AfterPublish(queued.queue, CommandFor(identity, priority, env));
        match r
        case Ok(_) => (queued.(queue := queue), Ok(run))
        case Err(code) =>
          var failed := Run(identity, Error, env.now, env.now, Null, Some("RUN_QUEUE_FAILED"));
          (queued.(runs := runs[identity.runId := failed],
                   threads := if t.Some? then MarkThread(queued.threads, t.value, Broken, env.now) else queued.threads),
           Err(code))
  }

  function AfterCancelRun(w: World, id: string, now: int): (World, Result<Run>) {
    if id !in w.runs then (w, Err(RunNotFound))
    else if IsFinal(w.runs[id].status) then (w, Ok(w.runs[id]))
    else
      var run := w.runs[id];
      var cancelled := Run(run.identity, Cancelled, run.createdAt, now, Null, None);
      var w' := w.(runs := w.runs[id := cancelled]);
      var t := run.identity.threadId;
      if t.Some? && t.value !in w.threads then (w', Err(ResourceNotFound))
      else
        (w'.(threads := if t.Some? then MarkThread(w.threads, t.value, Idle, now) else w.threads,
             logs := Logged(w.logs, Draft(run.identity, RunCancelled, Null))),
         Ok(cancelled))
  }

  /** Resuming queues a command and nothing else: the run stays interrupted. */
  function AfterResumeRun(w: World, id: string, priority: Priority, env: Ambient): (World, Result<Run>) {
    if id !in w.runs then (w, Err(RunNotFound))
    else if w.runs[id].status != Interrupted then (w, Err(InvalidExecutionInput))
    else
      var run := w.runs[id];
      var (queue, r) := Queue.AfterPublish(w.queue, CommandFor(run.identity, priority, env));
      match r
      case Err(code) => (w, Err(code))
      case Ok(_) => (w.(queue := queue, logs := Logged(w.logs, Draft(run.identity, RunQueued, Null))), Ok(run))
  }

  // ----- Executing a receipt -----

  /** The local variables of an execution: the run it started with, the last state values seen, and
      whether a terminal event was seen. */
  datatype Frame = Frame(receipt: Receipt, run: Run, lastResult: Json, terminal: bool)

  /** How an adapter's stream ends. */
  datatype Ending = Exhausted | Crashed | TaskCancelled

  /** Whether `_execute_receipt` returns or raises. */
  datatype Outcome = Returned | Raised

  function OutcomeOf<T>(r: Result<T>): Outcome {
    if r.Ok? then Returned else Raised
  }

  datatype Begun = NotFound | Duplicate(outcome: Outcome) | Started(frame: Frame)

  function AfterBegin(w: World, receipt: Receipt, now: int): (World, Begun) {
    var id := receipt.command.identity.runId;
    if id !in w.runs then (w, NotFound)
    else if w.runs[id].status != Pending then
      var (queue, r) := Queue.AfterAcknowledge(w.queue, receipt);
      (w.(queue := queue), Duplicate(OutcomeOf(r)))
    else
      var run := w.runs[id];
      var running := Run(run.identity, Running, run.createdAt, now, Null, None);
      (w.(runs := w.runs[id := running], active := w.active + {id}), Started(Frame(receipt, run, Null, false)))
  }

  /** The run after a terminal event. The branch is chosen by the member itself, so a terminal type
      given as a plain string falls into the last case. */
  function Settled(current: Run, t: EventType, lastResult: Json, now: int): Result<Run> {
    match t
    case RunCompleted => current.Complete(lastResult, now)
    case RunCancelled => current.Cancel(now)
    case RunInterrupted => Ok(current.Interrupt(now))
    case _ => current.Fail("FRAMEWORK_EXECUTION_FAILED", now)
  }

  /** One streamed event; `Raised` when the run refuses the transition. */
  function AfterEvent(w: World, f: Frame, draft: Draft, now: int): (World, Frame, Outcome) {
    var id := f.run.identity.runId;
    var w1 := w.(logs := Logged(w.logs, draft));
    var f1 := if draft.eventType.StateValues? then f.(lastResult := draft.data) else f;
    if !IsTerminal(draft.eventType) then (w1, f1, Returned)
    else
      var f2 := f1.(terminal := true);
      if id !in w.runs then (w1, f2, Raised)
      else
        var current := w.runs[id];
        match Settled(current, draft.eventType, f2.lastResult, now)
        case Err(_) => (w1, f2, Raised)
        case Ok(run) =>
          var w2 := w1.(runs := w1.runs[id := run]);
          var t := current.identity.threadId;
          if t.None? then (w2, f2, Returned)
          else if t.value !in w2.threads then (w2, f2, Raised)
          else
            var status := if draft.eventType.RunInterrupted? then Suspended else Idle;
            (w2.(threads := MarkThread(w2.threads, t.value, status, now)), f2, Returned)
  }

  function AfterEvents(w: World, f: Frame, drafts: seq<Draft>, now: int): (World, Frame, Outcome)
    decreases |drafts|
  {
    if drafts == [] then (w, f, Returned)
    else
      var (w', f', outcome) := AfterEvent(w, f, drafts[0], now);
      if outcome == Raised then (w', f', Raised) else AfterEvents(w', f', drafts[1..], now)
  }

  /** The handler for an exception: a run that is not final fails. The exception is raised again. */
  function AfterCrash(w: World, f: Frame, now: int): World {
    var id := f.run.identity.runId;
    if id !in w.runs || IsFinal(w.runs[id].status) then w
    else
      var run := w.runs[id];
      w.(runs := w.runs[id := Run(run.identity, Error, run.createdAt, now, Null, Some("FRAMEWORK_EXECUTION_FAILED"))],
         logs := Logged(w.logs, Draft(f.receipt.command.identity, RunFailed, Null)))
  }

  /** The handler for a cancellation: it is logged before the run is asked to change, so that a run
      which is already final otherwise refuses, and the refusal is raised. */
  function AfterCancellation(w: World, f: Frame, now: int): (World, Outcome) {
    var id := f.run.identity.runId;
    if id !in w.runs then (w, Raised)
    else if w.runs[id].status == Cancelled then (w, Returned)
    else
      var w' := w.(logs := Logged(w.logs, Draft(f.receipt.command.identity, RunCancelled, Null)));
      match w.runs[id].Cancel(now)
      case Ok(run) => (w'.(runs := w.runs[id := run]), Returned)
      case Err(_) => (w', Raised)
  }

  /** The `finally` clause: the adapter is forgotten, a busy thread is released and the lease is
      acknowledged. */
  function AfterRelease(w: World, f: Frame, now: int): (World, Outcome) {
    var id, t := f.run.identity.runId, f.run.identity.threadId;
    var w1 := w.(active := w.active - {id});
    if t.Some? && t.value !in w1.threads then (w1, Raised)
    else
      var w2 := if t.Some? && w1.threads[t.value].status == Busy
                then w1.(threads := MarkThread(w1.threads, t.value, Idle, now)) else w1;
      var (queue, r) := Queue.AfterAcknowledge(w2.queue, f.receipt);
      (w2.(queue := queue), OutcomeOf(r))
  }

  /** The end of the stream, before the `finally` clause. */
  function AfterEnding(w: World, f: Frame, ending: Ending, now: int): (World, Outcome) {
    match ending
    case Crashed => (AfterCrash(w, f, now), Raised)
    case TaskCancelled => AfterCancellation(w, f, now)
    case Exhausted =>
      var id := f.run.identity.runId;
      if f.terminal then (w, Returned)
      else if id !in w.runs then (w, Raised)
      else
        match w.runs[id].Complete(f.lastResult, now)
        case Ok(run) => (w.(runs := w.runs[id := run]), Returned)
        case Err(_) => (AfterCrash(w, f, now), Raised)
  }

  function AfterFinish(w: World, f: Frame, ending: Ending, now: int): (World, Outcome) {
    var (w1, outcome) := AfterEnding(w, f, ending, now);
    var (w2, released) := AfterRelease(w1, f, now);
    (w2, if outcome == Raised then Raised else released)
  }

  /** A whole execution of a receipt against an adapter that streams `drafts` and then ends. An
      exception raised while an event is handled ends the execution as a crash. */
  function AfterExecute(w: World, receipt: Receipt, drafts: seq<Draft>, ending: Ending, now: int): (World, Outcome) {
    var (w1, begun) := AfterBegin(w, receipt, now);
    match begun
    case NotFound => (w1, Raised)
    case Duplicate(outcome) => (w1, outcome)
    case Started(f) =>
      var (w2, f2, outcome) := AfterEvents(w1, f, drafts, now);
      AfterFinish(w2, f2, if outcome == Raised then Crashed else ending, now)
  }

  // ----- The local worker -----

  /** What the next delivery meets: a fresh lease, and the behaviour of the adapter. */
  datatype Job = Job(lease: string, drafts: seq<Draft>, ending: Ending, now: int)

  /** How the worker's loop stands: waiting for a command, returned because the queue is closed, or ended
      by an exception. */
  datatype Loop = Waiting | Stopped | Died

  /** The worker's loop: an exception that an execution raises is raised again and ends it. */
  function AfterConsume(w: World, jobs: seq<Job>): (World, Loop)
    decreases |jobs|
  {
    if jobs == [] then (w, Waiting)
    else
      var job := jobs[0];
      var (queue, r) := Queue.AfterReceive(w.queue, job.lease);
      match r
      case None => (w, Waiting)
      case Some(Err(_)) => (w, Stopped)
      case Some(Ok(receipt)) =>
        var (w', outcome) := AfterExecute(w.(queue := queue), receipt, job.drafts, job.ending, job.now);
        if outcome == Raised then (w', Died) else AfterConsume(w', jobs[1..])
  }

  // ----- The service -----

  class RuntimeExecutionService {
    const threads: InMemoryThreadRepository
    const runs: InMemoryRunRepository
    const commands: Queue.InMemoryPriorityQueue
    var logs: map<string, seq<Draft>>
    var activeAdapters: set<string>

    ghost function View(): World
      reads this, threads, runs, commands
    {
      World(threads.items, runs.items, commands.View(), logs, activeAdapters)
    }

    /** Runs and threads are filed under their own identifiers. */
    ghost predicate Valid()
      reads this, threads, runs
    {
      Filed(threads.items, runs.items)
    }

    constructor (threads: InMemoryThreadRepository, runs: InMemoryRunRepository, commands: Queue.InMemoryPriorityQueue)
      requires Filed(threads.items, runs.items)
      ensures this.threads == threads && this.runs == runs && this.commands == commands
      ensures Valid() && View() == World(threads.items, runs.items, commands.View(), map[], {})
    {
      this.threads, this.runs, this.commands := threads, runs, commands;
      logs, activeAdapters := map[], {};
    }

    method Append(draft: Draft)
      modifies this`logs
      ensures logs == Logged(old(logs), draft)
    {
      var run := draft.identity.runId;
      logs := logs[run := (if run in logs then logs[run] else []) + [draft]];
    }

    /** `threads.update(thread.mark_...(now))` for a thread just read. */
    method Mark(thread: string, status: ThreadStatus, now: int) returns (r: Result<Thread>)
      requires Valid()
      modifies threads
      ensures Valid()
      ensures thread !in old(threads.items) ==> r == Err(ResourceNotFound) && threads.items == old(threads.items)
      ensures thread in old(threads.items)
        ==> r.Ok? && threads.items == MarkThread(old(threads.items), thread, status, now)
    {
      r := threads.Get(thread);
      if r.Ok? {
        r := threads.Update(r.value.Mark(status, now));
      }
    }

    method CreateThread(thread: string, now: int) returns (r: Result<Thread>)
      requires Valid()
      modifies threads
      ensures Valid() && (View(), r) == AfterCreateThread(old(View()), thread, now)
    {
      r := threads.Create(Thread(thread, Idle, now, now));
    }

    method StartRun(identity: Identity, priority: Priority, env: Ambient) returns (r: Result<Run>)
      requires Valid()
      modifies this`logs, threads, runs, commands
      ensures Valid() && (View(), r) == AfterStartRun(old(View()), identity, priority, env)
    {
      if identity.threadId.Some? {
        var t := threads.Get(identity.threadId.value);
        if t.Err? {
          return Err(t.code);
        }
        if t.value.status == Busy {
          return Err(ThreadBusy);
        }
        var marked := threads.Update(t.value.Mark(Busy, env.now));
      }
      var run := Run(identity, Pending, env.now, env.now, Null, None);
      r := runs.Create(run);
      if r.Err? {
        return;
      }
      Append(Draft(identity, RunQueued, Null));
      var published := commands.Publish(CommandFor(identity, priority, env));
      if published.Err? {
        var failed := run.Fail("RUN_QUEUE_FAILED", env.now);
        var updated := runs.Update(failed.value);
        if identity.threadId.Some? {
          var marked := Mark(identity.threadId.value, Broken, env.now);
        }
        r := Err(published.code);
      }
    }

    method CancelRun(id: string, now: int) returns (r: Result<Run>)
      requires Valid()
      modifies this`logs, threads, runs
      ensures Valid() && (View(), r) == AfterCancelRun(old(View()), id, now)
    {
      r := runs.Get(id);
      if r.Err? || IsFinal(r.value.status) {
        return;
      }
      var run := r.value;
      var cancelled := run.Cancel(now).value;
      var updated := runs.Update(cancelled);
      if run.identity.threadId.Some? {
        var marked := Mark(run.identity.threadId.value, Idle, now);
        if marked.Err? {
          return Err(marked.code);
        }
      }
      Append(Draft(run.identity, RunCancelled, Null));
      r := Ok(cancelled);
    }

    method ResumeRun(id: string, priority: Priority, env: Ambient) returns (r: Result<Run>)
      requires Valid()
      modifies this`logs, commands
      ensures Valid() && (View(), r) == AfterResumeRun(old(View()), id, priority, env)
    {
      r := runs.Get(id);
      if r.Err? {
        return;
      }
      var run := r.value;
      if run.status != Interrupted {
        return Err(InvalidExecutionInput);
      }
      var published := commands.Publish(CommandFor(run.identity, priority, env));
      if published.Err? {
        return Err(published.code);
      }
      Append(Draft(run.identity, RunQueued, Null));
    }

    /** One streamed event: logged, remembered if it carries state values, and applied if terminal. */
    method OnEvent(f: Frame, draft: Draft, now: int) returns (next: Frame, outcome: Outcome)
      requires Valid()
      modifies this`logs, threads, runs
      ensures Valid() && (View(), next, outcome) == AfterEvent(old(View()), f, draft, now)
    {
      Append(draft);
      next := if draft.eventType.StateValues? then f.(lastResult := draft.data) else f;
      if !IsTerminal(draft.eventType) {
        return next, Returned;
      }
      next := next.(terminal := true);
      var current := runs.Get(f.run.identity.runId);
      if current.Err? {
        return next, Raised;
      }
      var settled := Settled(current.value, draft.eventType, next.lastResult, now);
      if settled.Err? {
        return next, Raised;
      }
      var updated := runs.Update(settled.value);
      outcome := Returned;
      if current.value.identity.threadId.Some? {
        var status := if draft.eventType.RunInterrupted? then Suspended else Idle;
        var marked := Mark(current.value.identity.threadId.value, status, now);
        outcome := OutcomeOf(marked);
      }
    }

    method OnCrash(f: Frame, now: int)
      requires Valid()
      modifies this`logs, runs
      ensures Valid() && View() == AfterCrash(old(View()), f, now)
    {
      var current := runs.Get(f.run.identity.runId);
      if current.Ok? && !IsFinal(current.value.status) {
        Append(Draft(f.receipt.command.identity, RunFailed, Null));
        var failed := current.value.Fail("FRAMEWORK_EXECUTION_FAILED", now);
        var updated := runs.Update(failed.value);
      }
    }

    method OnCancellation(f: Frame, now: int) returns (outcome: Outcome)
      requires Valid()
      modifies this`logs, runs
      ensures Valid() && (View(), outcome) == AfterCancellation(old(View()), f, now)
    {
      var current := runs.Get(f.run.identity.runId);
      if current.Err? {
        return Raised;
      }
      if current.value.status != Cancelled {
        Append(Draft(f.receipt.command.identity, RunCancelled, Null));
        var cancelled := current.value.Cancel(now);
        if cancelled.Err? {
          return Raised;
        }
        var updated := runs.Update(cancelled.value);
      }
      outcome := Returned;
    }

    method OnEnding(f: Frame, ending: Ending, now: int) returns (outcome: Outcome)
      requires Valid()
      modifies this`logs, runs
      ensures Valid() && (View(), outcome) == AfterEnding(old(View()), f, ending, now)
    {
      match ending
      case Crashed =>
        OnCrash(f, now);
        outcome := Raised;
      case TaskCancelled =>
        outcome := OnCancellation(f, now);
      case Exhausted =>
        if f.terminal {
          return Returned;
        }
        var current := runs.Get(f.run.identity.runId);
        if current.Err? {
          return Raised;
        }
        var completed := current.value.Complete(f.lastResult, now);
        if completed.Err? {
          OnCrash(f, now);
          return Raised;
        }
        var updated := runs.Update(completed.value);
        outcome := Returned;
    }

    method Release(f: Frame, now: int) returns (outcome: Outcome)
      requires Valid()
      modifies this`activeAdapters, threads, commands
      ensures Valid() && (View(), outcome) == AfterRelease(old(View()), f, now)
    {
      activeAdapters := activeAdapters - {f.run.identity.runId};
      if f.run.identity.threadId.Some? {
        var t := threads.Get(f.run.identity.threadId.value);
        if t.Err? {
          return Raised;
        }
        if t.value.status == Busy {
          var marked := threads.Update(t.value.Mark(Idle, now));
        }
      }
      var acknowledged := commands.Acknowledge(f.receipt);
      outcome := OutcomeOf(acknowledged);
    }

    /** Executes a receipt against a stream of `drafts`. */
    method ExecuteReceipt(receipt: Receipt, drafts: seq<Draft>, ending: Ending, now: int) returns (outcome: Outcome)
      requires Valid()
      modifies this, threads, runs, commands
      ensures Valid() && (View(), outcome) == AfterExecute(old(View()), receipt, drafts, ending, now)
    {
      var id := receipt.command.identity.runId;
      var got := runs.Get(id);
      if got.Err? {
        return Raised;
      }
      if got.value.status != Pending {
        var acknowledged := commands.Acknowledge(receipt);
        return OutcomeOf(acknowledged);
      }
      activeAdapters := activeAdapters + {id};
      var running := got.value.MarkRunning(now);
      var updated := runs.Update(running.value);
      var f := Frame(receipt, got.value, Null, false);
      ghost var start, begun := View(), f;
      var i, streamed := 0, Returned;
      while i < |drafts| && streamed == Returned
        invariant 0 <= i <= |drafts| && Valid()
        invariant AfterEvents(start, begun, drafts, now) ==
                  if streamed == Raised then (View(), f, Raised) else AfterEvents(View(), f, drafts[i..], now)
      {
        f, streamed := OnEvent(f, drafts[i], now);
        i := i + 1;
      }
      outcome := OnEnding(f, if streamed == Raised then Crashed else ending, now);
      var released := Release(f, now);
      if outcome == Returned {
        outcome := released;
      }
    }

    method ConsumeCommands(jobs: seq<Job>) returns (loop: Loop)
      requires Valid()
      modifies this, threads, runs, commands
      ensures Valid() && (View(), loop) == AfterConsume(old(View()), jobs)
    {
      ghost var start := View();
      var i := 0;
      while i < |jobs|
        invariant 0 <= i <= |jobs| && Valid()
        invariant AfterConsume(start, jobs) == AfterConsume(View(), jobs[i..])
      {
        var job := jobs[i];
        var received := commands.Receive(job.lease);
        match received {
          case None => return Waiting;
          case Some(Err(_)) => return Stopped;
          case Some(Ok(receipt)) =>
            var outcome := ExecuteReceipt(receipt, job.drafts, job.ending, job.now);
            if outcome == Raised {
              return Died;
            }
        }
        i := i + 1;
      }
      loop := Waiting;
    }
  }

  ghost predicate Filed(threads: Threads, runs: Runs) {
    && (forall t | t in threads :: threads[t].threadId == t)
    && (forall r | r in runs :: runs[r].identity.runId == r)
  }
}
