/** The service executing a run on the LangGraph adapter, undisturbed by other operations. */
module LangGraphExecution {
  import opened Domain
  import opened Execution
  import opened ExecutionService
  import opened ExecutionSettles
  import Adapter = LangGraphStream

  function LogOf(logs: map<string, seq<Draft>>, id: string): seq<Draft> {
    if id in logs then logs[id] else []
  }

  /** The data of the last state values among the events, or `initial` when there are none. */
  function LastValues(drafts: seq<Draft>, initial: Json): Json
    decreases |drafts|
  {
    if drafts == [] then initial
    else
      var last := drafts[|drafts| - 1];
      if last.eventType.StateValues? then last.data else LastValues(drafts[..|drafts| - 1], initial)
  }

  lemma {:induction false} LastValuesIsLast(drafts: seq<Draft>, initial: Json, k: nat)
    requires k <= |drafts| && forall i | k <= i < |drafts| :: !drafts[i].eventType.StateValues?
    ensures k == 0 ==> LastValues(drafts, initial) == initial
    ensures k > 0 && drafts[k - 1].eventType.StateValues? ==> LastValues(drafts, initial) == drafts[k - 1].data
    decreases |drafts|
  {
    if k < |drafts| {
      LastValuesIsLast(drafts[..|drafts| - 1], initial, k);
    }
  }

  lemma {:induction false} EventsJoin(w: World, f: Frame, front: seq<Draft>, back: seq<Draft>, now: int)
    requires AfterEvents(w, f, front, now).2 == Returned
    ensures var (w', f', _) := AfterEvents(w, f, front, now);
            AfterEvents(w, f, front + back, now) == AfterEvents(w', f', back, now)
    decreases |front|
  {
    if front == [] {
      assert front + back == back;
    } else {
      var (w', f', _) := AfterEvent(w, f, front[0], now);
      assert (front + back)[1..] == front[1..] + back;
      EventsJoin(w', f', front[1..], back, now);
    }
  }

  lemma OneEvent(w: World, f: Frame, draft: Draft, now: int)
    ensures AfterEvents(w, f, [draft], now) == AfterEvent(w, f, draft, now)
  {
    var (w', f', outcome) := AfterEvent(w, f, draft, now);
    assert AfterEvents(w', f', [draft][1..], now) == (w', f', Returned);
  }

  /** Only the run's log has grown, by `drafts`. */
  ghost predicate OnlyLogs(w: World, w': World, id: string, drafts: seq<Draft>) {
    && w' == w.(logs := w'.logs) && LogOf(w'.logs, id) == LogOf(w.logs, id) + drafts
    && forall other | other != id :: LogOf(w'.logs, other) == LogOf(w.logs, other)
  }

  /** Events that are not terminal are logged and remembered, nothing else. */
  lemma {:induction false} QuietEvents(w: World, f: Frame, drafts: seq<Draft>, now: int, id: string)
    requires forall i | 0 <= i < |drafts| :: !IsTerminal(drafts[i].eventType) && drafts[i].identity.runId == id
    ensures var (w', f', outcome) := AfterEvents(w, f, drafts, now);
            && OnlyLogs(w, w', id, drafts) && f' == f.(lastResult := LastValues(drafts, f.lastResult))
            && outcome == Returned
    decreases |drafts|
  {
    if drafts != [] {
      var k := |drafts| - 1;
      QuietEvents(w, f, drafts[..k], now, id);
      assert drafts == drafts[..k] + [drafts[k]];
      EventsJoin(w, f, drafts[..k], [drafts[k]], now);
      var (w', f', _) := AfterEvents(w, f, drafts[..k], now);
      OneEvent(w', f', drafts[k], now);
    }
  }

  ghost predicate Closes(t: EventType, ending: Ending) {
    match t
    case RunCompleted => ending == Exhausted
    case RunInterrupted => ending == Exhausted
    case RunFailed => ending == Crashed
    case RunCancelled => ending == TaskCancelled
    case _ => false
  }

  /** The record of a run after its closing event. */
  predicate ClosedAs(run: Run, before: Run, t: EventType, last: Json, now: int) {
    match t
    case RunCompleted => run == Run(before.identity, Success, before.createdAt, now, last, None)
    case RunCancelled => run == Run(before.identity, Cancelled, before.createdAt, now, Null, None)
    case RunInterrupted => run == Run(before.identity, Interrupted, before.createdAt, now, Null, None)
    case RunFailed =>
      run == Run(before.identity, Error, before.createdAt, now, Null, Some("FRAMEWORK_EXECUTION_FAILED"))
    case _ => false
  }

  /** The closing event settles the running run, and the end of the stream that goes with it adds nothing. */
  lemma ClosingSettles(w: World, f: Frame, draft: Draft, ending: Ending, now: int)
    requires f.run.identity.runId in w.runs && w.runs[f.run.identity.runId].identity == f.run.identity
    requires var run := w.runs[f.run.identity.runId]; run.status == Running && run.result == Null && run.error == None
    requires f.run.identity.threadId.Some? ==> f.run.identity.threadId.value in w.threads
    requires draft.identity.runId == f.run.identity.runId
    requires Closes(draft.eventType, ending)
    ensures var (w1, f1, outcome) := AfterEvent(w, f, draft, now);
            var id := f.run.identity.runId;
            && outcome == Returned && f1.run == f.run && f1.receipt == f.receipt
            && w1.logs == Logged(w.logs, draft) && w1.queue == w.queue && w1.threads.Keys == w.threads.Keys
            && id in w1.runs && ClosedAs(w1.runs[id], w.runs[id], draft.eventType, f.lastResult, now)
            && AfterEnding(w1, f1, ending, now) == (w1, if ending == Crashed then Raised else Returned)
  {
  }

  lemma ReleaseKeepsRuns(w: World, f: Frame, now: int)
    requires f.receipt.leaseId in w.queue.leases
    requires f.run.identity.threadId.Some? ==> f.run.identity.threadId.value in w.threads
    ensures var (w', outcome) := AfterRelease(w, f, now);
            w'.runs == w.runs && w'.logs == w.logs && outcome == Returned
  {
  }

  ghost predicate Ready(w: World, receipt: Receipt) {
    var id := receipt.command.identity.runId;
    && Filed(w.threads, w.runs) && ThreadsKnown(w.threads, w.runs)
    && id in w.runs && w.runs[id].status == Pending && receipt.leaseId in w.queue.leases
  }

  /** The stream of a running run, up to the `finally` clause. */
  lemma StreamSettles(w: World, f: Frame, quiet: seq<Draft>, closing: Draft, ending: Ending, now: int)
    requires var id := f.run.identity.runId;
             id in w.runs && w.runs[id].status == Running && w.runs[id].identity == f.run.identity
             && w.runs[id].result == Null && w.runs[id].error == None
    requires f.run.identity.threadId.Some? ==> f.run.identity.threadId.value in w.threads
    requires forall i | 0 <= i < |quiet| ::
               !IsTerminal(quiet[i].eventType) && quiet[i].identity.runId == f.run.identity.runId
    requires closing.identity.runId == f.run.identity.runId && Closes(closing.eventType, ending)
    ensures var (w1, f1, outcome) := AfterEvents(w, f, quiet + [closing], now);
            var id := f.run.identity.runId;
            && outcome == Returned && f1.run == f.run && f1.receipt == f.receipt
            && w1.queue == w.queue && w1.threads.Keys == w.threads.Keys
            && LogOf(w1.logs, id) == LogOf(w.logs, id) + quiet + [closing]
            && (forall other | other != id :: LogOf(w1.logs, other) == LogOf(w.logs, other))
            && id in w1.runs
            && ClosedAs(w1.runs[id], w.runs[id], closing.eventType, LastValues(quiet, f.lastResult), now)
            && AfterEnding(w1, f1, ending, now) == (w1, if ending == Crashed then Raised else Returned)
  {
    QuietEvents(w, f, quiet, now, f.run.identity.runId);
    EventsJoin(w, f, quiet, [closing], now);
    var (w1, f1, _) := AfterEvents(w, f, quiet, now);
    OneEvent(w1, f1, closing, now);
    ClosingSettles(w1, f1, closing, ending, now);
  }

  /** What a stream made of quiet events and one closing event does to a pending run. */
  lemma QuietThenClosing(w: World, receipt: Receipt, quiet: seq<Draft>, closing: Draft, ending: Ending, now: int)
    requires Ready(w, receipt)
    requires forall i | 0 <= i < |quiet| ::
               !IsTerminal(quiet[i].eventType) && quiet[i].identity == receipt.command.identity
    requires closing.identity == receipt.command.identity && Closes(closing.eventType, ending)
    ensures var (w', outcome) := AfterExecute(w, receipt, quiet + [closing], ending, now);
            var id := receipt.command.identity.runId;
            && LogOf(w'.logs, id) == LogOf(w.logs, id) + quiet + [closing]
            && (forall other | other != id :: LogOf(w'.logs, other) == LogOf(w.logs, other))
            && id in w'.runs && ClosedAs(w'.runs[id], w.runs[id], closing.eventType, LastValues(quiet, Null), now)
            && (outcome == Raised <==> ending == Crashed)
  {
    var (w1, begun) := AfterBegin(w, receipt, now);
    StreamSettles(w1, begun.frame, quiet, closing, ending, now);
    var (w2, f2, _) := AfterEvents(w1, begun.frame, quiet + [closing], now);
    ReleaseKeepsRuns(w2, f2, now);
  }

  /** The status an undisturbed run is left in. */
  function StatusOf(stop: Adapter.Stop, interrupted: bool): RunStatus {
    match stop
    case Failed(_, _) => Error
    case Cancelled => RunStatus.Cancelled
    case Done => if interrupted then Interrupted else Success
  }

  /** The grammar of the stream, cut before its closing event. */
  lemma StreamCut(request: Adapter.Request, first: Adapter.GraphRun, second: Adapter.GraphRun)
    requires Adapter.Opens(request)
    ensures var (drafts, ending) := Adapter.Streamed(request, first, second);
            && drafts != []
            && var quiet, closing := drafts[..|drafts| - 1], drafts[|drafts| - 1];
               && drafts == quiet + [closing]
               && (forall i | 0 <= i < |quiet| ::
                     !IsTerminal(quiet[i].eventType) && quiet[i].identity == request.identity)
               && IsTerminal(closing.eventType) && closing.identity == request.identity
               && Closes(closing.eventType, ending)
               && Target(closing.eventType) == StatusOf(Adapter.FinalStop(first, second), Adapter.AnyInterrupt(drafts))
               && (ending == Crashed <==> Adapter.FinalStop(first, second).Failed?)
               && LastValues(drafts, Null) == LastValues(quiet, Null)
  {
    Adapter.StreamGrammar(request, first, second);
  }

  /** An undisturbed execution on the LangGraph adapter. The journal gains exactly the stream, and with
      it one terminal event, at the end; the run's status is the one the graph's end calls for, also
      after a second attempt without a context; a successful run stores the last state values; and the
      execution raises exactly when the graph does. */
  lemma LangGraphRunSettles(
      w: World, receipt: Receipt, request: Adapter.Request, first: Adapter.GraphRun, second: Adapter.GraphRun, now: int)
    requires Ready(w, receipt) && request.identity == receipt.command.identity && Adapter.Opens(request)
    ensures var (drafts, ending) := Adapter.Streamed(request, first, second);
            var (w', outcome) := AfterExecute(w, receipt, drafts, ending, now);
            var id, stop := receipt.command.identity.runId, Adapter.FinalStop(first, second);
            && LogOf(w'.logs, id) == LogOf(w.logs, id) + drafts
            && (forall i | 0 <= i < |drafts| :: IsTerminal(drafts[i].eventType) <==> i == |drafts| - 1)
            && (forall other | other != id :: LogOf(w'.logs, other) == LogOf(w.logs, other))
            && id in w'.runs
            && w'.runs[id].status == StatusOf(stop, Adapter.AnyInterrupt(drafts))
            && ClosedAs(w'.runs[id], w.runs[id], drafts[|drafts| - 1].eventType, LastValues(drafts, Null), now)
            && (outcome == Raised <==> stop.Failed?)
  {
    var (drafts, ending) := Adapter.Streamed(request, first, second);
    var quiet, closing, id := drafts[..|drafts| - 1], drafts[|drafts| - 1], receipt.command.identity.runId;
    StreamCut(request, first, second);
    QuietThenClosing(w, receipt, quiet, closing, ending, now);
    assert LogOf(w.logs, id) + quiet + [closing] == LogOf(w.logs, id) + drafts;
  }

  /** A request without stream modes, or with a configuration that cannot be mapped: nothing is streamed,
      not even `run.started`, the run fails and the service itself reports it. */
  lemma UnopenedFails(
      w: World, receipt: Receipt, request: Adapter.Request, first: Adapter.GraphRun, second: Adapter.GraphRun, now: int)
    requires Ready(w, receipt) && !Adapter.Opens(request)
    ensures var (drafts, ending) := Adapter.Streamed(request, first, second);
            var (w', outcome) := AfterExecute(w, receipt, drafts, ending, now);
            var id := receipt.command.identity.runId;
            && LogOf(w'.logs, id) == LogOf(w.logs, id) + [Draft(receipt.command.identity, RunFailed, Null)]
            && id in w'.runs && outcome == Raised
            && ClosedAs(w'.runs[id], w.runs[id], RunFailed, Null, now)
  {
    var (w1, begun) := AfterBegin(w, receipt, now);
    assert AfterEvents(w1, begun.frame, [], now) == (w1, begun.frame, Returned);
  }

  // ----- The run in terms of the graph's chunks -----

  lemma LastValuesPieces(front: seq<Draft>, d: Draft, initial: Json)
    requires !d.eventType.InterruptCreated?
    ensures LastValues(front + Adapter.Pieces(d), initial)
            == if d.eventType.StateValues? then d.data else LastValues(front, initial)
  {
    var one := front + [d];
    assert one[..|front|] == front;
    if Adapter.Interrupts(d) {
      var two := one + [d.(eventType := InterruptCreated)];
      assert two[..|one|] == one && front + Adapter.Pieces(d) == two;
    } else {
      assert front + Adapter.Pieces(d) == one;
    }
  }

  /** Chunk `k` is the last one of mode "values", or `k` is -1 and there is none. */
  ghost predicate IsLastValues(request: Adapter.Request, chunks: seq<Adapter.Chunk>, k: int)
    requires request.streamModes != []
  {
    && -1 <= k < |chunks|
    && (k >= 0 ==> Adapter.Mode(request, chunks[k]) == "values")
    && forall j | k < j < |chunks| :: Adapter.Mode(request, chunks[j]) != "values"
  }

  lemma {:induction false} LastValuesOfChunks(
      request: Adapter.Request, opening: Draft, chunks: seq<Adapter.Chunk>, k: int)
    requires request.streamModes != [] && IsLastValues(request, chunks, k) && !opening.eventType.StateValues?
    ensures LastValues([opening] + Adapter.Forwarded(Adapter.MapperOf(request), chunks), Null)
            == if k < 0 then Null else chunks[k].payload
    decreases |chunks|
  {
    var mapper := Adapter.MapperOf(request);
    if chunks == [] {
      assert [opening] + Adapter.Forwarded(mapper, chunks) == [opening];
      assert [opening][..0] == [];
    } else {
      var n := |chunks| - 1;
      LastChunkValues(request, opening, chunks);
      if k < n {
        LastValuesOfChunks(request, opening, chunks[..n], k);
      }
    }
  }

  lemma LastChunkValues(request: Adapter.Request, opening: Draft, chunks: seq<Adapter.Chunk>)
    requires request.streamModes != [] && chunks != []
    ensures var mapper, n := Adapter.MapperOf(request), |chunks| - 1;
            LastValues([opening] + Adapter.Forwarded(mapper, chunks), Null)
            == if Adapter.Mode(request, chunks[n]) == "values" then chunks[n].payload
               else LastValues([opening] + Adapter.Forwarded(mapper, chunks[..n]), Null)
  {
    var mapper, n := Adapter.MapperOf(request), |chunks| - 1;
    var front, d := Adapter.Forwarded(mapper, chunks[..n]), mapper(chunks[n]);
    Adapter.MappedValues(request, chunks[n]);
    LastValuesPieces([opening] + front, d, Null);
    Associated(opening, front, Adapter.Pieces(d));
  }

  lemma Associated(opening: Draft, front: seq<Draft>, back: seq<Draft>)
    ensures [opening] + (front + back) == [opening] + front + back
  {
  }

  /** An undisturbed LangGraph run, told by what the graph gave. The run fails or is cancelled as the graph
      does; with an interrupt among the state values it is interrupted; and otherwise it succeeds with the
      payload of the last chunk of mode "values", or without a result if there is none. */
  lemma RunByChunks(
      w: World, receipt: Receipt, request: Adapter.Request, first: Adapter.GraphRun, second: Adapter.GraphRun, now: int,
      k: int)
    requires Ready(w, receipt) && request.identity == receipt.command.identity && Adapter.Opens(request)
    requires IsLastValues(request, Adapter.Given(first, second), k)
    ensures var (drafts, ending) := Adapter.Streamed(request, first, second);
            var w' := AfterExecute(w, receipt, drafts, ending, now).0;
            var id, chunks := receipt.command.identity.runId, Adapter.Given(first, second);
            var before := w.runs[id];
            && id in w'.runs
            && w'.runs[id] ==
               match Adapter.FinalStop(first, second)
               case Failed(_, _) =>
                 Run(before.identity, Error, before.createdAt, now, Null, Some("FRAMEWORK_EXECUTION_FAILED"))
               case Cancelled => Run(before.identity, RunStatus.Cancelled, before.createdAt, now, Null, None)
               case Done =>
                 if exists chunk :: chunk in chunks && Adapter.InterruptChunk(request, chunk)
                 then Run(before.identity, Interrupted, before.createdAt, now, Null, None)
                 else
                   var result := if k < 0 then Null else chunks[k].payload;
                   Run(before.identity, Success, before.createdAt, now, result, None)
  {
    var drafts := Adapter.Streamed(request, first, second).0;
    LangGraphRunSettles(w, receipt, request, first, second, now);
    Adapter.StreamGrammar(request, first, second);
    Adapter.InterruptsFromChunks(request, first, second);
    LastValuesOfChunks(request, drafts[0], Adapter.Given(first, second), k);
    StreamCut(request, first, second);
    var inner := Adapter.Forwarded(Adapter.MapperOf(request), Adapter.Given(first, second));
    assert drafts[..|drafts| - 1] == [drafts[0]] + inner;
  }
}
