/** Runs and threads: the immutable entities and the repositories that hold them. */
module Execution {
  import opened Domain

  datatype RunStatus = Pending | Running | Interrupted | Success | Error | Timeout | Cancelled

  predicate IsFinal(s: RunStatus) {
    s.Success? || s.Error? || s.Timeout? || s.Cancelled?
  }

  /** Statuses that keep a thread occupied. */
  predicate IsActive(s: RunStatus) {
    s.Pending? || s.Running? || s.Interrupted?
  }

  datatype Run = Run(
    identity: Identity, status: RunStatus, createdAt: int, updatedAt: int, result: Json, error: Option<string>)
  {
    /** A run in a final status may only be given the same status again. */
    function Change(status: RunStatus, now: int, result: Json, error: Option<string>): Result<Run> {
      if IsFinal(this.status) && status != this.status then Err(InvalidTransition)
      else Ok(Run(identity, status, createdAt, now, result, error))
    }

    function MarkRunning(now: int): Result<Run> {
      Change(Running, now, Null, None)
    }

    function Complete(result: Json, now: int): Result<Run> {
      Change(Success, now, result, None)
    }

    function Fail(error: string, now: int): Result<Run> {
      Change(Error, now, Null, Some(error))
    }

    function Cancel(now: int): Result<Run> {
      if status == Cancelled then Ok(this) else Change(Cancelled, now, Null, None)
    }

    /** The interruption of a run, which the service builds without consulting `Change`. */
    function Interrupt(now: int): Run {
      Run(identity, Interrupted, createdAt, now, result, error)
    }
  }

  /** A requested change of a run; `ByInterrupt` is the one that bypasses `Change`. */
  datatype Transition = ToRunning | ToSuccess(result: Json) | ToError(error: string) | ToCancelled | ByInterrupt

  /** A refused transition leaves the run as it is. */
  function Transitioned(run: Run, t: Transition, now: int): Run {
    var r := match t
             case ToRunning => run.MarkRunning(now)
             case ToSuccess(result) => run.Complete(result, now)
             case ToError(error) => run.Fail(error, now)
             case ToCancelled => run.Cancel(now)
             case ByInterrupt => Ok(run.Interrupt(now));
    if r.Ok? then r.value else run
  }

  /** What a transition stores. A final run keeps its record, except that it may be given its own status
      again, and that an interruption reopens it with the result and the error it has. */
  lemma TransitionStores(run: Run, t: Transition, now: int)
    ensures var final := run.status in {Success, Error, Timeout, Cancelled};
            Transitioned(run, t, now) ==
            match t
            case ToRunning => if final then run else Run(run.identity, Running, run.createdAt, now, Null, None)
            case ToSuccess(result) =>
              if final && run.status != Success then run
              else Run(run.identity, Success, run.createdAt, now, result, None)
            case ToError(error) =>
              if final && run.status != Error then run
              else Run(run.identity, Error, run.createdAt, now, Null, Some(error))
            case ToCancelled => if final then run else Run(run.identity, Cancelled, run.createdAt, now, Null, None)
            case ByInterrupt => Run(run.identity, Interrupted, run.createdAt, now, run.result, run.error)
  {
  }

  function AllTransitioned(run: Run, ts: seq<Transition>, now: int): Run
    decreases |ts|
  {
    if ts == [] then run else AllTransitioned(Transitioned(run, ts[0], now), ts[1..], now)
  }

  /** No sequence of transitions makes a run pending again or changes whose it is; and a final status
      is kept as long as no interruption comes. */
  lemma {:induction false} StatusesAreOneWay(run: Run, ts: seq<Transition>, now: int)
    ensures var final := AllTransitioned(run, ts, now);
            && final.identity == run.identity && final.createdAt == run.createdAt
            && (run.status != Pending ==> final.status != Pending)
            && (run.status in {Success, Error, Timeout, Cancelled} && ByInterrupt !in ts ==> final.status == run.status)
    decreases |ts|
  {
    if ts != [] {
      StatusesAreOneWay(Transitioned(run, ts[0], now), ts[1..], now);
    }
  }

  datatype ThreadStatus = Idle | Busy | Suspended | Broken

  /** `Suspended` and `Broken` are the source's "interrupted" and "error" thread statuses. */
  datatype Thread = Thread(threadId: string, status: ThreadStatus, createdAt: int, updatedAt: int) {
    function Mark(status: ThreadStatus, now: int): Thread {
      Thread(threadId, status, createdAt, now)
    }
  }

  type Runs = map<string, Run>

  type Threads = map<string, Thread>

  /** Whether `run` occupies `thread`. */
  predicate Occupies(run: Run, thread: string) {
    run.identity.threadId == Some(thread) && IsActive(run.status)
  }

  predicate HasActive(runs: Runs, thread: string) {
    exists id :: id in runs && Occupies(runs[id], thread)
  }

  /** Creation refuses a known identifier, and a thread that has an active run. */
  function Created(runs: Runs, run: Run): Result<Runs> {
    var id := run.identity.runId;
    if id in runs then Err(InvalidExecutionInput)
    else if run.identity.threadId.Some? && HasActive(runs, run.identity.threadId.value) then Err(ThreadBusy)
    else Ok(runs[id := run])
  }

  /** Creation refuses a known identifier; and else a run of a thread that has a pending, running or
      interrupted run; and nothing else. */
  lemma CreateRefusesIff(runs: Runs, run: Run)
    ensures var id, t, r := run.identity.runId, run.identity.threadId, Created(runs, run);
            var taken := t.Some? && exists other :: other in runs && runs[other].identity.threadId == t &&
                                                    runs[other].status in {Pending, Running, Interrupted};
            && (r == Err(InvalidExecutionInput) <==> id in runs)
            && (r == Err(ThreadBusy) <==> id !in runs && taken)
            && (r.Ok? ==> r.value == runs[id := run] && id !in runs && !taken)
  {
    if run.identity.threadId.Some? {
      var t := run.identity.threadId.value;
      if other :| other in runs && runs[other].identity.threadId == Some(t) && !IsFinal(runs[other].status) {
        assert Occupies(runs[other], t);
      }
    }
  }

  class InMemoryRunRepository {
    var items: Runs

    constructor ()
      ensures items == map[]
    {
      items := map[];
    }

    method Create(run: Run) returns (r: Result<Run>)
      modifies this
      ensures match Created(old(items), run)
              case Ok(runs) => items == runs && r == Ok(run)
              case Err(code) => items == old(items) && r == Err(code)
    {
      if run.identity.runId in items {
        return Err(InvalidExecutionInput);
      }
      if run.identity.threadId.Some? {
        var busy := ActiveForThread(run.identity.threadId.value);
        if busy.Some? {
          return Err(ThreadBusy);
        }
      }
      items := items[run.identity.runId := run];
      r := Ok(run);
    }

    method Get(id: string) returns (r: Result<Run>)
      ensures r == if id in items then Ok(items[id]) else Err(RunNotFound)
    {
      r := if id in items then Ok(items[id]) else Err(RunNotFound);
    }

    method Update(run: Run) returns (r: Result<Run>)
      modifies this
      ensures run.identity.runId in old(items) ==> items == old(items)[run.identity.runId := run] && r == Ok(run)
      ensures run.identity.runId !in old(items) ==> items == old(items) && r == Err(RunNotFound)
    {
      if run.identity.runId !in items {
        return Err(RunNotFound);
      }
      items := items[run.identity.runId := run];
      r := Ok(run);
    }

    /** Scans the runs for one that occupies the thread. */
    method ActiveForThread(thread: string) returns (r: Option<Run>)
      ensures r.Some? <==> HasActive(items, thread)
      ensures r.Some? ==> Occupies(r.value, thread) && r.value in items.Values
    {
      r := None;
      var pending := items.Keys;
      while pending != {}
        invariant pending <= items.Keys
        invariant r == None && forall id | id in items.Keys - pending :: !Occupies(items[id], thread)
        decreases pending
      {
        var id :| id in pending;
        if Occupies(items[id], thread) {
          return Some(items[id]);
        }
        pending := pending - {id};
      }
    }
  }

  class InMemoryThreadRepository {
    var items: Threads

    constructor ()
      ensures items == map[]
    {
      items := map[];
    }

    method Create(thread: Thread) returns (r: Result<Thread>)
      modifies this
      ensures thread.threadId in old(items) ==> items == old(items) && r == Err(InvalidExecutionInput)
      ensures thread.threadId !in old(items) ==> items == old(items)[thread.threadId := thread] && r == Ok(thread)
    {
      if thread.threadId in items {
        return Err(InvalidExecutionInput);
      }
      items := items[thread.threadId := thread];
      r := Ok(thread);
    }

    method Get(id: string) returns (r: Result<Thread>)
      ensures r == if id in items then Ok(items[id]) else Err(ResourceNotFound)
    {
      r := if id in items then Ok(items[id]) else Err(ResourceNotFound);
    }

    method Update(thread: Thread) returns (r: Result<Thread>)
      modifies this
      ensures thread.threadId in old(items) ==> items == old(items)[thread.threadId := thread] && r == Ok(thread)
      ensures thread.threadId !in old(items) ==> items == old(items) && r == Err(ResourceNotFound)
    {
      if thread.threadId !in items {
        return Err(ResourceNotFound);
      }
      items := items[thread.threadId := thread];
      r := Ok(thread);
    }
  }
}
