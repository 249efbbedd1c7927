/** The projected view of a LangGraph run against the run the service stored. */
module ProjectionAgreement {
  import opened Domain
  import opened Execution
  import opened ExecutionService
  import opened EventProjector
  import opened LangGraphExecution
  import Adapter = LangGraphStream
  import Delivery = JournalDelivery
  import Journals = JournalTheorems

  /** The journal's events for a list of drafts. */
  ghost predicate Journalled(events: seq<Event>, drafts: seq<Draft>) {
    && |events| == |drafts|
    && forall i | 0 <= i < |events| ::
         events[i].eventType == drafts[i].eventType && events[i].data == drafts[i].data
           && events[i].identity == drafts[i].identity
  }

  function StatusName(s: RunStatus): string {
    match s
    case Pending => "pending"
    case Running => "running"
    case Interrupted => "interrupted"
    case Success => "success"
    case Error => "error"
    case Timeout => "timeout"
    case Cancelled => "cancelled"
  }

  lemma JournalTail(events: seq<Event>, before: seq<Draft>, drafts: seq<Draft>)
    requires Journalled(events, before + drafts)
    ensures events == events[..|before|] + events[|before|..] && Journalled(events[|before|..], drafts)
  {
  }

  lemma FoldLast(run: string, front: seq<Event>, e: Event)
    ensures Fold(run, front + [e]) == Folded(Fold(run, front), e)
  {
    assert (front + [e])[..|front|] == front;
  }

  /** Events that do not report on the run leave status and result alone. */
  lemma {:induction false} PlainFold(run: string, front: seq<Event>, middle: seq<Event>)
    requires forall i | 0 <= i < |middle| :: !Adapter.IsRunEvent(middle[i].eventType)
    ensures Fold(run, front + middle).status == Fold(run, front).status
    ensures Fold(run, front + middle).result == Fold(run, front).result
    decreases |middle|
  {
    if middle == [] {
      assert front + middle == front;
    } else {
      var k := |middle| - 1;
      PlainFold(run, front, middle[..k]);
      FoldLast(run, front + middle[..k], middle[k]);
      assert front + middle == front + middle[..k] + [middle[k]];
    }
  }

  predicate ShowsClosing(p: RunProjection, closing: Event) {
    match closing.eventType
    case RunCompleted => p.status == "success" && p.result == closing.data
    case RunCancelled => p.status == "cancelled"
    case RunFailed => p.status == "error"
    case RunInterrupted => p.status == "running"
    case _ => true
  }

  lemma ClosingFold(p: RunProjection, closing: Event)
    requires p.status == "running"
    ensures ShowsClosing(Folded(p, closing), closing)
  {
  }

  /** The view after a stream: an opening event, plain events and a closing event. */
  lemma StreamFold(run: string, before: seq<Event>, first: Event, middle: seq<Event>, closing: Event)
    requires first.eventType == RunStarted
    requires forall i | 0 <= i < |middle| :: !Adapter.IsRunEvent(middle[i].eventType)
    ensures ShowsClosing(Fold(run, before + [first] + middle + [closing]), closing)
  {
    FoldLast(run, before, first);
    PlainFold(run, before + [first], middle);
    FoldLast(run, before + [first] + middle, closing);
    ClosingFold(Fold(run, before + [first] + middle), closing);
  }

  /** The view `p` of a run that is stored with status `s`. */
  predicate Shows(p: RunProjection, s: RunStatus, run: string) {
    match s
    case Error => p.status == "error"
    case Cancelled => p.status == "cancelled"
    case Interrupted => p.status == "running"
    case Success => p.status == "success" && p.result == Object(map["run_id" := Quoted(run)])
    case _ => false
  }

  lemma ShowsStatusIff(p: RunProjection, s: RunStatus, run: string)
    requires Shows(p, s, run)
    ensures p.status == StatusName(s) <==> s != Interrupted
  {
  }

  lemma Split(before: seq<Event>, stream: seq<Event>)
    requires |stream| >= 2
    ensures before + stream == before + [stream[0]] + stream[1..|stream| - 1] + [stream[|stream| - 1]]
  {
  }

  /** The journal's side of the stream grammar. */
  lemma StreamEvents(request: Adapter.Request, first: Adapter.GraphRun, second: Adapter.GraphRun, stream: seq<Event>)
    requires Adapter.Opens(request) && Journalled(stream, Adapter.Streamed(request, first, second).0)
    ensures |stream| >= 2 && stream[0].eventType == RunStarted
    ensures forall i | 0 < i < |stream| - 1 :: !Adapter.IsRunEvent(stream[i].eventType)
  {
    Adapter.StreamGrammar(request, first, second);
  }

  lemma ClosingShows(
      request: Adapter.Request, first: Adapter.GraphRun, second: Adapter.GraphRun, closing: Event, p: RunProjection)
    requires Adapter.Opens(request) && ShowsClosing(p, closing)
    requires var drafts := Adapter.Streamed(request, first, second).0;
             && drafts != [] && closing.eventType == drafts[|drafts| - 1].eventType
             && closing.data == drafts[|drafts| - 1].data
    ensures var drafts, stop := Adapter.Streamed(request, first, second).0, Adapter.FinalStop(first, second);
            Shows(p, StatusOf(stop, Adapter.AnyInterrupt(drafts)), request.identity.runId)
  {
    Adapter.StreamGrammar(request, first, second);
    Adapter.StreamData(request, first, second);
  }

  /** The view of a LangGraph stream, by how the graph ended. */
  lemma StreamedFold(
      request: Adapter.Request, first: Adapter.GraphRun, second: Adapter.GraphRun,
      before: seq<Event>, stream: seq<Event>)
    requires Adapter.Opens(request) && Journalled(stream, Adapter.Streamed(request, first, second).0)
    ensures var drafts, stop := Adapter.Streamed(request, first, second).0, Adapter.FinalStop(first, second);
            var p := Fold(request.identity.runId, before + stream);
            Shows(p, StatusOf(stop, Adapter.AnyInterrupt(drafts)), request.identity.runId)
  {
    StreamEvents(request, first, second, stream);
    var k := |stream| - 1;
    StreamFold(request.identity.runId, before, stream[0], stream[1..k], stream[k]);
    Split(before, stream);
    ClosingShows(request, first, second, stream[k], Fold(request.identity.runId, before + stream));
  }

  /** The agreement for events that are journalled for the run. */
  lemma JournalledAgrees(
      w: World, receipt: Receipt, request: Adapter.Request, first: Adapter.GraphRun, second: Adapter.GraphRun, now: int,
      events: seq<Event>)
    requires Ready(w, receipt) && request.identity == receipt.command.identity && Adapter.Opens(request)
    requires var (drafts, ending) := Adapter.Streamed(request, first, second);
             Journalled(events,
               LogOf(AfterExecute(w, receipt, drafts, ending, now).0.logs, receipt.command.identity.runId))
    ensures var (drafts, ending) := Adapter.Streamed(request, first, second);
            var id, w' := receipt.command.identity.runId, AfterExecute(w, receipt, drafts, ending, now).0;
            var p := Fold(id, events);
            && id in w'.runs
            && (p.status == StatusName(w'.runs[id].status) <==>
                !(Adapter.FinalStop(first, second).Done? && Adapter.AnyInterrupt(drafts)))
            && Shows(p, w'.runs[id].status, id)
            && (w'.runs[id].status == Success ==>
                  (p.result == w'.runs[id].result <==> LastValues(drafts, Null) == Object(map["run_id" := Quoted(id)])))
  {
    var (drafts, ending) := Adapter.Streamed(request, first, second);
    var id := receipt.command.identity.runId;
    LangGraphRunSettles(w, receipt, request, first, second, now);
    var n := |LogOf(w.logs, id)|;
    JournalTail(events, LogOf(w.logs, id), drafts);
    StreamedFold(request, first, second, events[..n], events[n..]);
    ShowsStatusIff(Fold(id, events), StatusOf(Adapter.FinalStop(first, second), Adapter.AnyInterrupt(drafts)), id);
  }

  /** The appends of a run of the journal are the drafts that the service logged. */
  ghost predicate AppendsAre(appends: seq<Delivery.Action>, drafts: seq<Draft>) {
    |appends| == |drafts| && forall i | 0 <= i < |drafts| :: appends[i].Append? && appends[i].draft == drafts[i]
  }

  /** After an undisturbed LangGraph execution whose drafts were appended to the journal, under any
      interleaving: the projection of the journal shows the stored run's status unless the graph finished
      with an interrupt, and then shows the run as still running. The projected result of a successful run
      is the completion event's data, which names the run: it is the stored result exactly when the last
      state values happen to be that object. */
  lemma ProjectionAgreesIff(
      w: World, receipt: Receipt, request: Adapter.Request, first: Adapter.GraphRun, second: Adapter.GraphRun, now: int,
      capacity: nat, actions: seq<Delivery.Action>)
    requires Ready(w, receipt) && request.identity == receipt.command.identity && Adapter.Opens(request)
    requires capacity >= 1
    requires var (drafts, ending) := Adapter.Streamed(request, first, second);
             var id := receipt.command.identity.runId;
             var w' := AfterExecute(w, receipt, drafts, ending, now).0;
             AppendsAre(Journals.AppendsFor(actions, id), LogOf(w'.logs, id))
    ensures var (drafts, ending) := Adapter.Streamed(request, first, second);
            var id, w' := receipt.command.identity.runId, AfterExecute(w, receipt, drafts, ending, now).0;
            var p := Fold(id, Delivery.Exec(Delivery.Initial(capacity), actions).journal.Log(id));
            && id in w'.runs
            && (p.status == StatusName(w'.runs[id].status) <==>
                !(Adapter.FinalStop(first, second).Done? && Adapter.AnyInterrupt(drafts)))
            && Shows(p, w'.runs[id].status, id)
            && (w'.runs[id].status == Success ==>
                  (p.result == w'.runs[id].result <==> LastValues(drafts, Null) == Object(map["run_id" := Quoted(id)])))
  {
    var (drafts, ending) := Adapter.Streamed(request, first, second);
    var id := receipt.command.identity.runId;
    var events := Delivery.Exec(Delivery.Initial(capacity), actions).journal.Log(id);
    AppendsJournal(capacity, actions, id, LogOf(AfterExecute(w, receipt, drafts, ending, now).0.logs, id));
    JournalledAgrees(w, receipt, request, first, second, now, events);
  }

  lemma AppendsJournal(capacity: nat, actions: seq<Delivery.Action>, id: string, drafts: seq<Draft>)
    requires capacity >= 1 && AppendsAre(Journals.AppendsFor(actions, id), drafts)
    ensures Journalled(Delivery.Exec(Delivery.Initial(capacity), actions).journal.Log(id), drafts)
  {
    Journals.LogIsAppends(capacity, actions, id);
  }
}
