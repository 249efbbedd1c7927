/** One execution, against any adapter: whatever is streamed and however the stream ends. */
module ExecutionSettles {
  import opened Domain
  import opened Execution
  import opened ExecutionService
  import Queue = MemoryQueue

  /** Every run's thread is known. */
  ghost predicate ThreadsKnown(threads: Threads, runs: Runs) {
    forall r | r in runs :: runs[r].identity.threadId.Some? ==> runs[r].identity.threadId.value in threads
  }

  predicate IsSettled(s: RunStatus) {
    s.Success? || s.Error? || s.Cancelled? || s.Interrupted?
  }

  /** What holds of the executing run and its thread between two streamed events, when nothing else
      runs meanwhile: it is running until its first terminal event and settled from then on. */
  ghost predicate Streaming(start: World, w: World, f: Frame) {
    var id, t := f.run.identity.runId, f.run.identity.threadId;
    && id in start.runs && id in w.runs && start.runs[id].identity == f.run.identity
    && w.runs[id].identity == f.run.identity
    && w.runs == start.runs[id := w.runs[id]]
    && w.queue == start.queue && w.active == start.active
    && w.threads.Keys == start.threads.Keys
    && (forall other | other in w.threads && Some(other) != t :: w.threads[other] == start.threads[other])
    && (t.Some? ==> t.value in w.threads)
    && (if f.terminal
        then
          && IsSettled(w.runs[id].status)
          && (t.Some? ==> w.threads[t.value].status == if w.runs[id].status == Interrupted then Suspended else Idle)
        else w.runs[id].status == Running && w.threads == start.threads)
  }

  lemma SettledStatus(current: Run, t: EventType, lastResult: Json, now: int)
    requires IsTerminal(t)
    ensures var r := Settled(current, t, lastResult, now);
            && (r.Ok? ==> r.value.identity == current.identity && IsSettled(r.value.status)
                          && (r.value.status == Interrupted <==> t.RunInterrupted?))
            && (r.Err? ==> IsFinal(current.status))
  {
  }

  lemma TerminalEventKeepsStreaming(start: World, w: World, f: Frame, draft: Draft, now: int)
    requires Streaming(start, w, f) && IsTerminal(draft.eventType)
    ensures var (w', f', outcome) := AfterEvent(w, f, draft, now);
            Streaming(start, w', f')
  {
    var id := f.run.identity.runId;
    SettledStatus(w.runs[id], draft.eventType, f.lastResult, now);
  }

  lemma EventKeepsStreaming(start: World, w: World, f: Frame, draft: Draft, now: int)
    requires Streaming(start, w, f)
    ensures var (w', f', outcome) := AfterEvent(w, f, draft, now);
            Streaming(start, w', f') && f'.run == f.run && f'.receipt == f.receipt
  {
    if IsTerminal(draft.eventType) {
      TerminalEventKeepsStreaming(start, w, f, draft, now);
    }
  }

  lemma {:induction false} EventsKeepStreaming(start: World, w: World, f: Frame, drafts: seq<Draft>, now: int)
    requires Streaming(start, w, f)
    ensures var (w', f', outcome) := AfterEvents(w, f, drafts, now);
            Streaming(start, w', f') && f'.run == f.run && f'.receipt == f.receipt
    decreases |drafts|
  {
    if drafts != [] {
      EventKeepsStreaming(start, w, f, drafts[0], now);
      var (w', f', outcome) := AfterEvent(w, f, drafts[0], now);
      if outcome == Returned {
        EventsKeepStreaming(start, w', f', drafts[1..], now);
      }
    }
  }

  lemma EndingSettles(start: World, w: World, f: Frame, ending: Ending, now: int)
    requires Streaming(start, w, f)
    ensures var (w', outcome) := AfterEnding(w, f, ending, now);
            var id, t := f.run.identity.runId, f.run.identity.threadId;
            && id in w'.runs && w'.runs[id].identity == f.run.identity
            && w'.runs == start.runs[id := w'.runs[id]] && IsSettled(w'.runs[id].status)
            && w'.queue == w.queue && w'.active == w.active && w'.threads == w.threads
            && (w'.runs[id].status == Interrupted && t.Some? ==> w'.threads[t.value].status == Suspended)
  {
  }

  lemma ReleaseSettles(w: World, f: Frame, now: int)
    requires f.receipt.leaseId in w.queue.leases
    requires f.run.identity.threadId.Some? ==> f.run.identity.threadId.value in w.threads
    ensures var (w', outcome) := AfterRelease(w, f, now);
            var t := f.run.identity.threadId;
            && outcome == Returned && w'.runs == w.runs && w'.logs == w.logs
            && w'.active == w.active - {f.run.identity.runId}
            && w'.queue == w.queue.(leases := w.queue.leases - {f.receipt.leaseId})
            && w'.threads.Keys == w.threads.Keys
            && (forall other | other in w.threads && Some(other) != t :: w'.threads[other] == w.threads[other])
            && (t.Some? ==> w'.threads[t.value].status == if w.threads[t.value].status == Busy then Idle
                 else w.threads[t.value].status)
  {
  }

  /** The state an execution of a pending run reaches before its `finally` clause. */
  lemma BodySettles(w: World, receipt: Receipt, drafts: seq<Draft>, ending: Ending, now: int)
    requires Filed(w.threads, w.runs) && ThreadsKnown(w.threads, w.runs)
    requires receipt.command.identity.runId in w.runs && w.runs[receipt.command.identity.runId].status == Pending
    ensures var (w1, begun) := AfterBegin(w, receipt, now);
            begun.Started? &&
               var (w2, f2, streamed) := AfterEvents(w1, begun.frame, drafts, now);
               var (w3, outcome) := AfterEnding(w2, f2, if streamed == Raised then Crashed else ending, now);
               var id, t := receipt.command.identity.runId, w.runs[receipt.command.identity.runId].identity.threadId;
               && f2.receipt == receipt && f2.run == w.runs[id]
               && id in w3.runs && w3.runs == w.runs[id := w3.runs[id]] && w3.runs[id].identity == w.runs[id].identity
               && IsSettled(w3.runs[id].status)
               && w3.queue == w.queue && w3.active == w.active + {id} && w3.threads.Keys == w.threads.Keys
               && (forall other | other in w.threads && Some(other) != t :: w3.threads[other] == w.threads[other])
               && (w3.runs[id].status == Interrupted && t.Some? ==> w3.threads[t.value].status == Suspended)
  {
    var (w1, begun) := AfterBegin(w, receipt, now);
    var f := begun.frame;
    var (w2, f2, streamed) := AfterEvents(w1, f, drafts, now);
    assert Streaming(w1, w1, f);
    EventsKeepStreaming(w1, w1, f, drafts, now);
    EndingSettles(w1, w2, f2, if streamed == Raised then Crashed else ending, now);
  }

  /** A pending run is always settled by its execution, whatever the adapter does. Its thread is not
      left busy, and is suspended when the run is interrupted; the adapter is forgotten; the lease is
      acknowledged exactly once; and no other run or thread is touched. */
  lemma ExecutionSettlesRun(w: World, receipt: Receipt, drafts: seq<Draft>, ending: Ending, now: int)
    requires Filed(w.threads, w.runs) && ThreadsKnown(w.threads, w.runs)
    requires receipt.command.identity.runId in w.runs && w.runs[receipt.command.identity.runId].status == Pending
    requires receipt.leaseId in w.queue.leases && receipt.command.identity.runId !in w.active
    ensures var (w', outcome) := AfterExecute(w, receipt, drafts, ending, now);
            var id := receipt.command.identity.runId;
            var t := w.runs[id].identity.threadId;
            && id in w'.runs && w'.runs == w.runs[id := w'.runs[id]] && w'.runs[id].identity == w.runs[id].identity
            && IsSettled(w'.runs[id].status)
            && (forall other | other in w.threads && Some(other) != t :: other in w'.threads
                 && w'.threads[other] == w.threads[other])
            && (t.Some? ==>
                  && t.value in w'.threads && w'.threads[t.value].status != Busy
                  && (w'.runs[id].status == Interrupted ==> w'.threads[t.value].status == Suspended))
            && w'.active == w.active
            && receipt.leaseId !in w'.queue.leases
            && w'.queue == w.queue.(leases := w.queue.leases - {receipt.leaseId})
  {
    var (w1, begun) := AfterBegin(w, receipt, now);
    var (w2, f2, streamed) := AfterEvents(w1, begun.frame, drafts, now);
    var (w3, outcome) := AfterEnding(w2, f2, if streamed == Raised then Crashed else ending, now);
    BodySettles(w, receipt, drafts, ending, now);
    ReleaseSettles(w3, f2, now);
  }

  // ----- When an execution raises -----

  /** The status a terminal event asks for. */
  function Target(t: EventType): RunStatus {
    match t
    case RunCompleted => Success
    case RunCancelled => Cancelled
    case RunInterrupted => Interrupted
    case _ => Error
  }

  /** The status of a run that is in status `s` after a stream; none if it refuses a terminal event. */
  function StatusAfter(s: RunStatus, drafts: seq<Draft>): Option<RunStatus>
    decreases |drafts|
  {
    if drafts == [] then Some(s)
    else
      var t := drafts[0].eventType;
      if !IsTerminal(t) then StatusAfter(s, drafts[1..])
      else if IsFinal(s) && Target(t) != s && !t.RunInterrupted? then None
      else StatusAfter(Target(t), drafts[1..])
  }

  /** A stream that makes the execution of a pending run raise: it crashes; or one of its terminal events
      contradicts the final status an earlier one led to; or it is cancelled after one led to a final
      status other than cancelled. */
  predicate Fails(drafts: seq<Draft>, ending: Ending) {
    var s := StatusAfter(Running, drafts);
    s.None? || ending == Crashed || (ending == TaskCancelled && IsFinal(s.value) && s.value != Cancelled)
  }

  lemma EventFollows(start: World, w: World, f: Frame, draft: Draft, now: int)
    requires Streaming(start, w, f)
    ensures var (w', f', outcome) := AfterEvent(w, f, draft, now);
            var id, s, t := f.run.identity.runId, w.runs[f.run.identity.runId].status, draft.eventType;
            && (outcome == Raised <==> IsTerminal(t) && IsFinal(s) && Target(t) != s && !t.RunInterrupted?)
            && (outcome == Returned ==> id in w'.runs && w'.runs[id].status == if IsTerminal(t) then Target(t) else s)
  {
  }

  lemma {:induction false} EventsFollow(start: World, w: World, f: Frame, drafts: seq<Draft>, now: int)
    requires Streaming(start, w, f)
    ensures var (w', f', outcome) := AfterEvents(w, f, drafts, now);
            var id := f.run.identity.runId;
            var s := StatusAfter(w.runs[id].status, drafts);
            && (outcome == Raised <==> s.None?)
            && (outcome == Returned ==> id in w'.runs && s == Some(w'.runs[id].status))
    decreases |drafts|
  {
    if drafts != [] {
      EventFollows(start, w, f, drafts[0], now);
      EventKeepsStreaming(start, w, f, drafts[0], now);
      var (w', f', outcome) := AfterEvent(w, f, drafts[0], now);
      if outcome == Returned {
        EventsFollow(start, w', f', drafts[1..], now);
      }
    }
  }

  lemma EndingRaises(start: World, w: World, f: Frame, ending: Ending, now: int)
    requires Streaming(start, w, f)
    ensures var s := w.runs[f.run.identity.runId].status;
            AfterEnding(w, f, ending, now).1 == Raised <==>
            ending == Crashed || (ending == TaskCancelled && IsFinal(s) && s != Cancelled)
  {
  }

  /** An execution of a pending run raises exactly when its adapter's stream fails. */
  lemma ExecutionRaisesIff(w: World, receipt: Receipt, drafts: seq<Draft>, ending: Ending, now: int)
    requires Filed(w.threads, w.runs) && ThreadsKnown(w.threads, w.runs)
    requires receipt.command.identity.runId in w.runs && w.runs[receipt.command.identity.runId].status == Pending
    requires receipt.leaseId in w.queue.leases
    ensures AfterExecute(w, receipt, drafts, ending, now).1 == Raised <==> Fails(drafts, ending)
  {
    var (w1, begun) := AfterBegin(w, receipt, now);
    var f := begun.frame;
    assert Streaming(w1, w1, f);
    EventsFollow(w1, w1, f, drafts, now);
    EventsKeepStreaming(w1, w1, f, drafts, now);
    var (w2, f2, streamed) := AfterEvents(w1, f, drafts, now);
    var last := if streamed == Raised then Crashed else ending;
    EndingRaises(w1, w2, f2, last, now);
    EndingSettles(w1, w2, f2, last, now);
    ReleaseSettles(AfterEnding(w2, f2, last, now).0, f2, now);
  }

  /** A receipt for an unknown run raises and changes nothing, its lease included; one for a run that is
      not pending is acknowledged and changes nothing else, and raises exactly when it has no lease. */
  lemma NotExecuted(w: World, receipt: Receipt, drafts: seq<Draft>, ending: Ending, now: int)
    requires var id := receipt.command.identity.runId; id in w.runs ==> w.runs[id].status != Pending
    ensures var (w', outcome) := AfterExecute(w, receipt, drafts, ending, now);
            if receipt.command.identity.runId !in w.runs then w' == w && outcome == Raised
            else
              && w' == w.(queue := w'.queue) && w'.queue == w.queue.(leases := w.queue.leases - {receipt.leaseId})
              && (outcome == Raised <==> receipt.leaseId !in w.queue.leases)
  {
    if receipt.leaseId !in w.queue.leases {
      assert w.queue.leases - {receipt.leaseId} == w.queue.leases;
    }
  }
}
