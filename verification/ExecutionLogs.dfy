/** What the service tells the journal and the queue about runs. */
module ExecutionLogs {
  import opened Domain
  import opened QueueItems
  import opened Execution
  import opened ExecutionService
  import opened ExecutionSettles
  import opened ExecutionRuns
  import Queue = MemoryQueue

  function LogOf(w: World, id: string): seq<Draft> {
    if id in w.logs then w.logs[id] else []
  }

  /** The logs of two worlds differ by one event under an identity, of a type. */
  ghost predicate OneMore(w: World, w': World, identity: Identity, t: EventType) {
    && (forall id | id != identity.runId :: LogOf(w', id) == LogOf(w, id))
    && var log, log' := LogOf(w, identity.runId), LogOf(w', identity.runId);
       && |log'| == |log| + 1 && log'[..|log|] == log
       && log'[|log|].identity == identity && log'[|log|].eventType == t
  }

  ghost predicate SameLogs(w: World, w': World) {
    forall id :: LogOf(w', id) == LogOf(w, id)
  }

  /** The queue has one more waiting command, for an identity and with the caller's priority. */
  ghost predicate OneQueued(q: Queue.State, q': Queue.State, identity: Identity, priority: Priority, env: Ambient) {
    && q'.leases == q.leases && q'.dead == q.dead && q'.closed == q.closed
    && |q'.waiting| == |q.waiting| + 1 && q'.waiting[..|q.waiting|] == q.waiting
    && var x := q'.waiting[|q.waiting|];
       && x.command.identity == identity && x.command.priority == priority && x.deliveryCount == 0
       && x.command.commandId == env.commandId && x.command.createdAt == env.now
  }

  lemma LoggedOnce(w: World, w': World, draft: Draft)
    requires w'.logs == Logged(w.logs, draft)
    ensures OneMore(w, w', draft.identity, draft.eventType)
  {
  }

  // ----- One operation -----

  /** Cancelling tells the journal exactly when the run is known and pending, running or interrupted:
      one `run.cancelled` under the run's identity, and nothing else. */
  lemma CancelTells(w: World, id: string, now: int)
    requires Shape(w)
    ensures var w' := AfterCancelRun(w, id, now).0;
            if id in w.runs && w.runs[id].status in {Pending, Running, Interrupted}
            then OneMore(w, w', w.runs[id].identity, RunCancelled) && w'.runs[id].status == Cancelled
            else w' == w
  {
    var w' := AfterCancelRun(w, id, now).0;
    if id in w.runs && !IsFinal(w.runs[id].status) {
      LoggedOnce(w, w', Draft(w.runs[id].identity, RunCancelled, Null));
    }
  }

  /** Starting tells the journal exactly when the run is created: one `run.queued` under its identity. */
  lemma StartTells(w: World, identity: Identity, priority: Priority, env: Ambient)
    ensures var w' := AfterStartRun(w, identity, priority, env).0;
            if identity.runId !in w.runs && identity.runId in w'.runs then OneMore(w, w', identity, RunQueued)
            else SameLogs(w, w')
  {
    var w' := AfterStartRun(w, identity, priority, env).0;
    if identity.runId !in w.runs && identity.runId in w'.runs {
      LoggedOnce(w, w', Draft(identity, RunQueued, Null));
    }
  }

  /** A start that succeeds has created a pending run and queued one command for it, with the caller's
      priority and the whole identity; any other start queues nothing. */
  lemma StartQueues(w: World, identity: Identity, priority: Priority, env: Ambient)
    ensures var (w', r) := AfterStartRun(w, identity, priority, env);
            if r.Ok?
            then OneQueued(w.queue, w'.queue, identity, priority, env)
                 && identity.runId !in w.runs && identity.runId in w'.runs
                 && w'.runs[identity.runId] == Run(identity, Pending, env.now, env.now, Null, None)
                 && r == Ok(w'.runs[identity.runId])
            else w'.queue == w.queue
  {
    PublishQueues(w.queue, identity, priority, env);
  }

  lemma PublishQueues(q: Queue.State, identity: Identity, priority: Priority, env: Ambient)
    ensures var (q', r) := Queue.AfterPublish(q, CommandFor(identity, priority, env));
            if r.Ok? then OneQueued(q, q', identity, priority, env) else q' == q
  {
  }

  /** Resuming an interrupted run, and it alone, queues one command for it and logs one `run.queued`,
      unless the queue is closed; nothing else changes, and other runs cannot be resumed. */
  lemma ResumeTells(w: World, id: string, priority: Priority, env: Ambient)
    ensures var (w', r) := AfterResumeRun(w, id, priority, env);
            && (r.Ok? <==> id in w.runs && w.runs[id].status == Interrupted && !w.queue.closed)
            && (if r.Ok?
                then OneMore(w, w', w.runs[id].identity, RunQueued)
                     && OneQueued(w.queue, w'.queue, w.runs[id].identity, priority, env)
                     && w'.runs == w.runs && w'.threads == w.threads && w'.active == w.active
                else w' == w)
  {
    var (w', r) := AfterResumeRun(w, id, priority, env);
    if r.Ok? {
      LoggedOnce(w, w', Draft(w.runs[id].identity, RunQueued, Null));
      PublishQueues(w.queue, w.runs[id].identity, priority, env);
    }
  }

  // ----- Every run of the service -----

  ghost predicate Tells(log: seq<Draft>, t: EventType) {
    exists i :: 0 <= i < |log| && log[i].eventType == t
  }

  /** A known run's log begins with `run.queued`, and tells of its cancellation or interruption; an
      unknown run has no log. */
  ghost predicate Told(w: World, id: string) {
    var log := LogOf(w, id);
    && (id !in w.runs ==> log == [])
    && (id in w.runs ==>
          && log != [] && log[0].eventType == RunQueued && log[0].identity == w.runs[id].identity
          && (w.runs[id].status == Cancelled ==> Tells(log, RunCancelled))
          && (w.runs[id].status == Interrupted ==> Tells(log, RunInterrupted)))
  }

  /** A run's log has grown, and what is new in its status is told. */
  ghost predicate TellsOn(w: World, w': World, id: string) {
    var log, log' := LogOf(w, id), LogOf(w', id);
    && (id in w.runs <==> id in w'.runs) && (id !in w.runs ==> log' == log)
    && |log| <= |log'| && log'[..|log|] == log
    && (id in w.runs ==>
          && w'.runs[id].identity == w.runs[id].identity
          && (w'.runs[id].status == Cancelled && w.runs[id].status != Cancelled ==> Tells(log', RunCancelled))
          && (w'.runs[id].status == Interrupted && w.runs[id].status != Interrupted ==> Tells(log', RunInterrupted)))
  }

  lemma TellsOnKeeps(w: World, w': World, id: string)
    requires TellsOn(w, w', id) && Told(w, id)
    ensures Told(w', id)
  {
    var log, log' := LogOf(w, id), LogOf(w', id);
    if id in w.runs {
      assert log'[0] == log[0];
      forall t | Tells(log, t) ensures Tells(log', t) {
        var i :| 0 <= i < |log| && log[i].eventType == t;
        assert log'[i] == log[i];
      }
    }
  }

  lemma OneMoreTells(w: World, w': World, identity: Identity, t: EventType)
    requires OneMore(w, w', identity, t)
    ensures Tells(LogOf(w', identity.runId), t)
  {
    assert LogOf(w', identity.runId)[|LogOf(w, identity.runId)|].eventType == t;
  }

  lemma CancelTellsOn(w: World, run: string, now: int, id: string)
    requires Shape(w)
    ensures TellsOn(w, AfterCancelRun(w, run, now).0, id)
  {
    var w' := AfterCancelRun(w, run, now).0;
    CancelTells(w, run, now);
    if w' != w {
      CancelChanges(w, run, now);
      OneMoreTells(w, w', w.runs[run].identity, RunCancelled);
    }
  }

  lemma StartKeepsTold(w: World, identity: Identity, priority: Priority, env: Ambient, id: string)
    requires Told(w, id)
    ensures Told(AfterStartRun(w, identity, priority, env).0, id)
  {
    var w' := AfterStartRun(w, identity, priority, env).0;
    StartTells(w, identity, priority, env);
    if identity.runId in w.runs {
      StartTaken(w, identity, priority, env);
    } else {
      StartAddsOneRun(w, identity, priority, env);
      if identity.runId in w'.runs && id == identity.runId {
        assert LogOf(w', id)[0].eventType == RunQueued;
      }
    }
  }

  /** What one event does to the runs. */
  lemma EventTurns(w: World, f: Frame, draft: Draft, now: int)
    requires Shape(w) && f.run.identity.runId in w.runs && w.runs[f.run.identity.runId].identity == f.run.identity
    ensures var w', id := AfterEvent(w, f, draft, now).0, f.run.identity.runId;
            && id in w'.runs && w'.runs == w.runs[id := w'.runs[id]] && w'.runs[id].identity == w.runs[id].identity
            && (w'.runs[id].status == Cancelled && w.runs[id].status != Cancelled ==> draft.eventType == RunCancelled)
            && (w'.runs[id].status == Interrupted && w.runs[id].status != Interrupted ==>
                  draft.eventType == RunInterrupted)
            && w'.logs == Logged(w.logs, draft)
  {
    assert w.runs[f.run.identity.runId := w.runs[f.run.identity.runId]] == w.runs;
  }

  lemma EventTellsOn(w: World, f: Frame, draft: Draft, now: int, id: string)
    requires Shape(w) && f.run.identity.runId in w.runs && w.runs[f.run.identity.runId].identity == f.run.identity
    requires draft.identity.runId == f.run.identity.runId
    ensures TellsOn(w, AfterEvent(w, f, draft, now).0, id)
  {
    var w' := AfterEvent(w, f, draft, now).0;
    EventTurns(w, f, draft, now);
    LoggedOnce(w, w', draft);
    OneMoreTells(w, w', draft.identity, draft.eventType);
  }

  lemma CrashTellsOn(w: World, f: Frame, now: int, id: string)
    requires f.run.identity.runId in w.runs && f.receipt.command.identity.runId == f.run.identity.runId
    ensures TellsOn(w, AfterCrash(w, f, now), id)
  {
    var w' := AfterCrash(w, f, now);
    if w' != w {
      LoggedOnce(w, w', Draft(f.receipt.command.identity, RunFailed, Null));
    }
  }

  lemma CancellationTellsOn(w: World, f: Frame, now: int, id: string)
    requires f.run.identity.runId in w.runs && f.receipt.command.identity.runId == f.run.identity.runId
    ensures TellsOn(w, AfterCancellation(w, f, now).0, id)
  {
    var w' := AfterCancellation(w, f, now).0;
    if w.runs[f.run.identity.runId].status != Cancelled {
      LoggedOnce(w, w', Draft(f.receipt.command.identity, RunCancelled, Null));
      OneMoreTells(w, w', f.receipt.command.identity, RunCancelled);
    }
  }

  lemma EndingTellsOn(w: World, f: Frame, ending: Ending, now: int, id: string)
    requires f.run.identity.runId in w.runs && f.receipt.command.identity.runId == f.run.identity.runId
    ensures TellsOn(w, AfterEnding(w, f, ending, now).0, id)
  {
    CrashTellsOn(w, f, now, id);
    CancellationTellsOn(w, f, now, id);
  }

  lemma FinishTellsOn(w: World, f: Frame, ending: Ending, now: int, id: string)
    requires f.run.identity.runId in w.runs && f.receipt.command.identity.runId == f.run.identity.runId
    ensures TellsOn(w, AfterFinish(w, f, ending, now).0, id)
  {
    var w1 := AfterEnding(w, f, ending, now).0;
    EndingTellsOn(w, f, ending, now, id);
    var w2 := AfterRelease(w1, f, now).0;
    assert w2.runs == w1.runs && w2.logs == w1.logs;
  }

  lemma BeginTellsOn(w: World, receipt: Receipt, now: int, id: string)
    requires Shape(w)
    ensures TellsOn(w, AfterBegin(w, receipt, now).0, id)
  {
  }

  /** Adapters stream events of the run they execute. */
  predicate OwnEvent(sys: System, a: Action) {
    a.Stream? && sys.flight.Some? ==> a.draft.identity.runId == sys.flight.value.run.identity.runId
  }

  lemma StreamKeepsTold(sys: System, draft: Draft, now: int, id: string)
    requires Core(sys) && sys.flight.Some? && Told(sys.world, id)
    requires draft.identity.runId == sys.flight.value.run.identity.runId
    ensures Told(Streamed(sys, draft, now).world, id)
  {
    var next := Applied(sys, draft, now);
    EventTellsOn(sys.world, sys.flight.value, draft, now, id);
    TellsOnKeeps(sys.world, next.world, id);
    EventKeepsCore(sys, draft, now);
    FinishTellsOn(next.world, next.flight.value, Crashed, now, id);
    TellsOnKeeps(next.world, Finished(next, Crashed, now).world, id);
  }

  lemma CancelKeepsTold(w: World, run: string, now: int, id: string)
    requires Shape(w) && Told(w, id)
    ensures Told(AfterCancelRun(w, run, now).0, id)
  {
    CancelTellsOn(w, run, now, id);
    TellsOnKeeps(w, AfterCancelRun(w, run, now).0, id);
  }

  lemma ResumeKeepsTold(w: World, run: string, priority: Priority, env: Ambient, id: string)
    requires Shape(w) && Told(w, id)
    ensures Told(AfterResumeRun(w, run, priority, env).0, id)
  {
    ResumeTells(w, run, priority, env);
    TellsOnKeeps(w, AfterResumeRun(w, run, priority, env).0, id);
  }

  lemma BeginKeepsTold(sys: System, lease: string, now: int, id: string)
    requires Core(sys) && lease in sys.issued && Told(sys.world, id)
    ensures Told(Launched(sys, lease, now).world, id)
  {
    BeginTellsOn(sys.world, sys.issued[lease], now, id);
    TellsOnKeeps(sys.world, Launched(sys, lease, now).world, id);
  }

  lemma FinishKeepsTold(sys: System, ending: Ending, now: int, id: string)
    requires Core(sys) && sys.flight.Some? && Told(sys.world, id)
    ensures Told(Finished(sys, ending, now).world, id)
  {
    FinishTellsOn(sys.world, sys.flight.value, ending, now, id);
    TellsOnKeeps(sys.world, Finished(sys, ending, now).world, id);
  }

  lemma StepKeepsTold(sys: System, a: Action, id: string)
    requires Core(sys) && Told(sys.world, id) && OwnEvent(sys, a)
    ensures Told(Step(sys, a).world, id)
  {
    match a {
      case StartRun(identity, priority, env) => StartKeepsTold(sys.world, identity, priority, env, id);
      case CancelRun(run, now) => CancelKeepsTold(sys.world, run, now, id);
      case ResumeRun(run, priority, env) => ResumeKeepsTold(sys.world, run, priority, env, id);
      case Begin(lease, now) =>
        if sys.flight.None? && lease in sys.issued {
          BeginKeepsTold(sys, lease, now, id);
        }
      case Stream(draft, now) =>
        if sys.flight.Some? {
          StreamKeepsTold(sys, draft, now, id);
        }
      case Finish(ending, now) =>
        if sys.flight.Some? {
          FinishKeepsTold(sys, ending, now, id);
        }
      case CreateThread(_, _) | CloseQueue | Receive(_) =>
    }
  }

  predicate OwnEvents(sys: System, actions: seq<Action>)
    decreases |actions|
  {
    actions != [] ==> OwnEvent(sys, actions[0]) && OwnEvents(Step(sys, actions[0]), actions[1..])
  }

  lemma {:induction false} RunKeepsTold(sys: System, actions: seq<Action>, id: string)
    requires Core(sys) && Told(sys.world, id) && OwnEvents(sys, actions)
    ensures Told(Exec(sys, actions).world, id)
    decreases |actions|
  {
    if actions != [] {
      StepKeepsCore(sys, actions[0]);
      StepKeepsTold(sys, actions[0], id);
      RunKeepsTold(Step(sys, actions[0]), actions[1..], id);
    }
  }

  /** Under every interleaving, with adapters that stream events of their own run: a run's log begins
      with `run.queued` under the run's identity, a cancelled run's log holds a `run.cancelled`, an
      interrupted run's a `run.interrupted`, and a run that was never created has no log. */
  lemma RunsAreTold(actions: seq<Action>, id: string)
    requires OwnEvents(Start, actions)
    ensures var w := Exec(Start, actions).world;
            var log := LogOf(w, id);
            && (id !in w.runs ==> log == [])
            && (id in w.runs ==>
                  && log != [] && log[0].eventType == RunQueued && log[0].identity == w.runs[id].identity
                  && (w.runs[id].status == Cancelled ==>
                        exists i :: 0 <= i < |log| && log[i].eventType == RunCancelled)
                  && (w.runs[id].status == Interrupted ==>
                        exists i :: 0 <= i < |log| && log[i].eventType == RunInterrupted))
  {
    RunKeepsTold(Start, actions, id);
    var w := Exec(Start, actions).world;
    if id in w.runs && w.runs[id].status == Cancelled {
      assert Tells(LogOf(w, id), RunCancelled);
    }
    if id in w.runs && w.runs[id].status == Interrupted {
      assert Tells(LogOf(w, id), RunInterrupted);
    }
  }

  // ----- Executions that end without telling -----

  ghost predicate AnyTerminal(drafts: seq<Draft>) {
    exists i :: 0 <= i < |drafts| && IsTerminal(drafts[i].eventType)
  }

  /** How many events of a stream are logged: all, or those up to the first one that the run refuses. */
  function LoggedCount(s: RunStatus, drafts: seq<Draft>): nat
    decreases |drafts|
  {
    if drafts == [] then 0
    else
      var t := drafts[0].eventType;
      if !IsTerminal(t) then 1 + LoggedCount(s, drafts[1..])
      else if IsFinal(s) && Target(t) != s && !t.RunInterrupted? then 1
      else 1 + LoggedCount(Target(t), drafts[1..])
  }

  lemma {:induction false} LoggedCountFits(s: RunStatus, drafts: seq<Draft>)
    ensures LoggedCount(s, drafts) <= |drafts|
    ensures AnyTerminal(drafts[..LoggedCount(s, drafts)]) <==> AnyTerminal(drafts)
    decreases |drafts|
  {
    if drafts != [] {
      var t, n := drafts[0].eventType, LoggedCount(s, drafts);
      if IsTerminal(t) {
        if n > 1 {
          LoggedCountFits(Target(t), drafts[1..]);
        }
        assert IsTerminal(drafts[..n][0].eventType);
      } else {
        LoggedCountFits(s, drafts[1..]);
        TerminalLater(drafts);
        TerminalLater(drafts[..n]);
        assert drafts[..n][1..] == drafts[1..][..n - 1];
      }
    }
  }

  lemma TerminalLater(drafts: seq<Draft>)
    requires drafts != [] && !IsTerminal(drafts[0].eventType)
    ensures AnyTerminal(drafts) <==> AnyTerminal(drafts[1..])
  {
    if i :| 0 <= i < |drafts| && IsTerminal(drafts[i].eventType) {
      assert drafts[1..][i - 1] == drafts[i];
    }
    if i :| 0 <= i < |drafts| - 1 && IsTerminal(drafts[1..][i].eventType) {
      assert drafts[i + 1] == drafts[1..][i];
    }
  }

  lemma FirstLogged(w: World, w1: World, drafts: seq<Draft>, id: string, n: nat)
    requires drafts != [] && drafts[0].identity.runId == id && w1.logs == Logged(w.logs, drafts[0])
    requires n <= |drafts| - 1
    ensures LogOf(w1, id) + drafts[1..][..n] == LogOf(w, id) + drafts[..n + 1]
  {
  }

  lemma EventLogs(w: World, f: Frame, draft: Draft, now: int)
    ensures var (w', f', outcome) := AfterEvent(w, f, draft, now);
            && w'.logs == Logged(w.logs, draft)
            && (f'.terminal <==> f.terminal || IsTerminal(draft.eventType))
  {
  }

  lemma {:induction false} EventsLog(start: World, w: World, f: Frame, drafts: seq<Draft>, now: int)
    requires Streaming(start, w, f)
    requires forall i | 0 <= i < |drafts| :: drafts[i].identity.runId == f.run.identity.runId
    ensures var (w', f', outcome) := AfterEvents(w, f, drafts, now);
            var id, n := f.run.identity.runId, LoggedCount(w.runs[f.run.identity.runId].status, drafts);
            && n <= |drafts| && LogOf(w', id) == LogOf(w, id) + drafts[..n]
            && (f'.terminal <==> f.terminal || AnyTerminal(drafts))
    decreases |drafts|
  {
    var id := f.run.identity.runId;
    LoggedCountFits(w.runs[id].status, drafts);
    if drafts != [] {
      var (w1, f1, outcome) := AfterEvent(w, f, drafts[0], now);
      EventFollows(start, w, f, drafts[0], now);
      EventKeepsStreaming(start, w, f, drafts[0], now);
      EventLogs(w, f, drafts[0], now);
      if outcome == Returned {
        EventsLog(start, w1, f1, drafts[1..], now);
        FirstLogged(w, w1, drafts, id, LoggedCount(w1.runs[id].status, drafts[1..]));
      } else {
        FirstLogged(w, w1, drafts, id, 0);
      }
      if !IsTerminal(drafts[0].eventType) {
        TerminalLater(drafts);
      }
    }
  }

  /** What the end of a stream logs of a run in status `s`: a failure unless the run is final, and a
      cancellation unless it is cancelled. */
  function EndingPart(s: RunStatus, ending: Ending, identity: Identity): seq<Draft> {
    match ending
    case Exhausted => []
    case Crashed => if IsFinal(s) then [] else [Draft(identity, RunFailed, Null)]
    case TaskCancelled => if s == Cancelled then [] else [Draft(identity, RunCancelled, Null)]
  }

  lemma EndingLogs(start: World, w: World, f: Frame, ending: Ending, now: int)
    requires Streaming(start, w, f) && f.receipt.command.identity.runId == f.run.identity.runId
    ensures var id, w' := f.run.identity.runId, AfterEnding(w, f, ending, now).0;
            && LogOf(w', id) == LogOf(w, id) + EndingPart(w.runs[id].status, ending, f.receipt.command.identity)
            && (!f.terminal && ending == Exhausted ==> id in w'.runs && w'.runs[id].status == Success)
  {
    var w', id := AfterEnding(w, f, ending, now).0, f.run.identity.runId;
    var part := EndingPart(w.runs[id].status, ending, f.receipt.command.identity);
    if part == [] {
      assert w'.logs == w.logs;
      assert LogOf(w, id) == LogOf(w, id) + [];
    } else {
      assert w'.logs == Logged(w.logs, part[0]);
    }
  }

  lemma ReleaseLogs(w: World, f: Frame, now: int)
    ensures AfterRelease(w, f, now).0.logs == w.logs && AfterRelease(w, f, now).0.runs == w.runs
  {
  }

  lemma TerminalJoins(a: seq<Draft>, b: seq<Draft>)
    ensures AnyTerminal(a + b) <==> AnyTerminal(a) || AnyTerminal(b)
  {
    if i :| 0 <= i < |a| && IsTerminal(a[i].eventType) {
      assert (a + b)[i] == a[i];
    }
    if i :| 0 <= i < |b| && IsTerminal(b[i].eventType) {
      assert (a + b)[|a| + i] == b[i];
    }
  }

  /** The log of an execution: what was handled of the stream, and what its end added. */
  lemma ExecutionLog(w: World, receipt: Receipt, drafts: seq<Draft>, ending: Ending, now: int)
    returns (part: seq<Draft>)
    requires Filed(w.threads, w.runs) && ThreadsKnown(w.threads, w.runs)
    requires receipt.command.identity.runId in w.runs && w.runs[receipt.command.identity.runId].status == Pending
    requires forall i | 0 <= i < |drafts| :: drafts[i].identity.runId == receipt.command.identity.runId
    ensures var id, w' := receipt.command.identity.runId, AfterExecute(w, receipt, drafts, ending, now).0;
            && LoggedCount(Running, drafts) <= |drafts|
            && LogOf(w', id) == LogOf(w, id) + drafts[..LoggedCount(Running, drafts)] + part
            && (!AnyTerminal(drafts) ==> part == EndingPart(Running, ending, receipt.command.identity))
            && (!AnyTerminal(drafts) && ending == Exhausted ==> id in w'.runs && w'.runs[id].status == Success)
  {
    var (w1, begun) := AfterBegin(w, receipt, now);
    var f := begun.frame;
    assert Streaming(w1, w1, f);
    var (w2, f2, streamed) := AfterEvents(w1, f, drafts, now);
    var last := if streamed == Raised then Crashed else ending;
    EventsLog(w1, w1, f, drafts, now);
    EventsFollow(w1, w1, f, drafts, now);
    EventsKeepStreaming(w1, w1, f, drafts, now);
    EndingLogs(w1, w2, f2, last, now);
    ReleaseLogs(AfterEnding(w2, f2, last, now).0, f2, now);
    RaisedTerminal(Running, drafts);
    part := EndingPart(w2.runs[receipt.command.identity.runId].status, last, receipt.command.identity);
  }

  /** An execution of a pending run logs a terminal event exactly when its adapter streams one or its
      stream does not simply end. A stream that ends without one completes the run in silence: the run
      succeeds, and neither subscribers nor projections learn of it. */
  lemma EndsSilentlyIff(w: World, receipt: Receipt, drafts: seq<Draft>, ending: Ending, now: int)
    requires Filed(w.threads, w.runs) && ThreadsKnown(w.threads, w.runs)
    requires receipt.command.identity.runId in w.runs && w.runs[receipt.command.identity.runId].status == Pending
    requires forall i | 0 <= i < |drafts| :: drafts[i].identity.runId == receipt.command.identity.runId
    ensures var id, w' := receipt.command.identity.runId, AfterExecute(w, receipt, drafts, ending, now).0;
            var log, log' := LogOf(w, id), LogOf(w', id);
            && |log| <= |log'| && log'[..|log|] == log
            && (AnyTerminal(log'[|log|..]) <==> AnyTerminal(drafts) || ending != Exhausted)
            && (!AnyTerminal(log'[|log|..]) ==> id in w'.runs && w'.runs[id].status == Success)
  {
    var part := ExecutionLog(w, receipt, drafts, ending, now);
    LoggedCountFits(Running, drafts);
    LogGained(LogOf(w, receipt.command.identity.runId), drafts[..LoggedCount(Running, drafts)], part);
    if !AnyTerminal(drafts) && ending != Exhausted {
      assert IsTerminal(part[0].eventType);
    }
  }

  lemma LogGained(log: seq<Draft>, a: seq<Draft>, b: seq<Draft>)
    ensures var log' := log + a + b;
            && log'[..|log|] == log && log'[|log|..] == a + b
            && (AnyTerminal(log'[|log|..]) <==> AnyTerminal(a) || AnyTerminal(b))
  {
    assert (log + a + b)[|log|..] == a + b;
    TerminalJoins(a, b);
  }

  /** Only a terminal event is refused. */
  lemma {:induction false} RaisedTerminal(s: RunStatus, drafts: seq<Draft>)
    ensures StatusAfter(s, drafts).None? ==> AnyTerminal(drafts)
    decreases |drafts|
  {
    if drafts != [] && !IsTerminal(drafts[0].eventType) {
      RaisedTerminal(s, drafts[1..]);
      TerminalLater(drafts);
    }
  }
}
