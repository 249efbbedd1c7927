/** The projector that folds the journal's events into one view per run. */
module EventProjector {
  import opened Domain
  import Journal = EventJournal

  datatype RunProjection = RunProjection(
    runId: string, status: string, sequence: int, startedAt: Option<int>, completedAt: Option<int>, result: Json,
    error: Option<Json>)

  /** `sink` holds what was last written for each run. */
  datatype State = State(
    last: map<string, int>, inbox: set<string>, projections: map<string, RunProjection>,
    sink: map<string, RunProjection>)
  {
    /** The sequence expected next for a run. */
    function Expected(run: string): int {
      (if run in last then last[run] else -1) + 1
    }

    function Projection(run: string): RunProjection {
      if run in projections then projections[run] else Initial(run)
    }
  }

  const EMPTY: State := State(map[], {}, map[], map[])

  function Initial(run: string): RunProjection {
    RunProjection(run, "pending", -1, None, None, Null, None)
  }

  /** Error data that is not an object is wrapped as a message. */
  function ErrorOf(data: Json): Json {
    match data
    case Object(_) => data
    case Literal(text) => Object(map["message" := Quoted(text)])
    case Quoted(text) => Object(map["message" := data])
    case Null => Object(map["message" := Quoted("None")])
    case Array(_) => Object(map["message" := Quoted("[...]")])
  }

  /** The view after one more event; types given as plain strings are not recognised. */
  function Folded(p: RunProjection, e: Event): RunProjection {
    var next := p.(runId := e.identity.runId, sequence := e.sequence);
    match e.eventType
    case RunStarted => next.(status := "running", startedAt := Some(e.timestamp))
    case RunCompleted => next.(status := "success", completedAt := Some(e.timestamp), result := e.data)
    case RunCancelled => next.(status := "cancelled", completedAt := Some(e.timestamp))
    case RunFailed => next.(status := "error", completedAt := Some(e.timestamp), error := Some(ErrorOf(e.data)))
    case RunTimeout => next.(status := "timeout", completedAt := Some(e.timestamp))
    case _ => next
  }

  /** A delivery: an event, and whether the sink accepts the write it may cause. */
  datatype Delivery = Delivery(event: Event, sinkUp: bool)

  datatype Verdict = Accepted | Ignored | OutOfOrder | WriteFailed

  function AfterHandle(st: State, d: Delivery): (State, Verdict) {
    var e := d.event;
    var run := e.identity.runId;
    if e.eventId in st.inbox then (st, Ignored)
    else if e.sequence != st.Expected(run) then (st, OutOfOrder)
    else
      var p := Folded(st.Projection(run), e);
      (State(st.last[run := e.sequence], st.inbox + {e.eventId}, st.projections[run := p],
             if d.sinkUp then st.sink[run := p] else st.sink),
       if d.sinkUp then Accepted else WriteFailed)
  }

  class LifecycleProjector {
    var lastSequence: map<string, int>
    var inbox: set<string>
    var projections: map<string, RunProjection>
    var sink: map<string, RunProjection>

    ghost function View(): State
      reads this
    {
      State(lastSequence, inbox, projections, sink)
    }

    constructor ()
      ensures View() == EMPTY
    {
      lastSequence, inbox, projections, sink := map[], {}, map[], map[];
    }

    method Handle(event: Event, sinkUp: bool) returns (verdict: Verdict)
      modifies this
      ensures (View(), verdict) == AfterHandle(old(View()), Delivery(event, sinkUp))
    {
      var key := event.identity.runId;
      if event.eventId in inbox {
        return Ignored;
      }
      var expected := (if key in lastSequence then lastSequence[key] else -1) + 1;
      if event.sequence != expected {
        return OutOfOrder;
      }
      var current := if key in projections then projections[key] else Initial(key);
      var status, startedAt, completedAt := current.status, current.startedAt, current.completedAt;
      var result, error := current.result, current.error;
      match event.eventType {
        case RunStarted => status, startedAt := "running", Some(event.timestamp);
        case RunCompleted => status, completedAt, result := "success", Some(event.timestamp), event.data;
        case RunCancelled => status, completedAt := "cancelled", Some(event.timestamp);
        case RunFailed => status, completedAt, error := "error", Some(event.timestamp), Some(ErrorOf(event.data));
        case RunTimeout => status, completedAt := "timeout", Some(event.timestamp);
        case _ =>
      }
      var projection := RunProjection(key, status, event.sequence, startedAt, completedAt, result, error);
      assert projection == Folded(current, event);
      inbox := inbox + {event.eventId};
      lastSequence := lastSequence[key := event.sequence];
      projections := projections[key := projection];
      if !sinkUp {
        return WriteFailed;
      }
      sink := sink[key := projection];
      verdict := Accepted;
    }
  }

  // ----- Journals and folds -----

  type Journals = map<string, seq<Event>>

  function JournalOf(journals: Journals, run: string): seq<Event> {
    if run in journals then journals[run] else []
  }

  predicate InJournal(journals: Journals, e: Event) {
    0 <= e.sequence < |JournalOf(journals, e.identity.runId)| && JournalOf(journals, e.identity.runId)[e.sequence] == e
  }

  /** Journals number their events per run, and event identifiers are unique. */
  ghost predicate Genuine(journals: Journals) {
    && Journal.LogsNumbered(journals)
    && forall a, b | InJournal(journals, a) && InJournal(journals, b) && a.eventId == b.eventId :: a == b
  }

  function Fold(run: string, log: seq<Event>): RunProjection
    decreases |log|
  {
    if log == [] then Initial(run) else Folded(Fold(run, log[..|log| - 1]), log[|log| - 1])
  }

  /** The projector has folded the first `Expected` events of the run's journal, and remembers those. */
  ghost predicate Tracks(st: State, journals: Journals, run: string) {
    var log, n := JournalOf(journals, run), st.Expected(run);
    && 0 <= n <= |log|
    && st.Projection(run) == Fold(run, log[..n])
    && (run in st.projections <==> n > 0)
    && (forall i | 0 <= i < |log| :: log[i].eventId in st.inbox <==> i < n)
  }

  lemma LogIsInJournal(journals: Journals, run: string, i: nat)
    requires Journal.LogsNumbered(journals) && i < |JournalOf(journals, run)|
    ensures InJournal(journals, JournalOf(journals, run)[i])
    ensures JournalOf(journals, run)[i].identity.runId == run && JournalOf(journals, run)[i].sequence == i
  {
    assert Journal.IsLogOf(JournalOf(journals, run), run);
  }

  /** A known event is one whose place in its journal has been passed. */
  lemma KnownIff(st: State, journals: Journals, e: Event)
    requires Genuine(journals) && InJournal(journals, e) && Tracks(st, journals, e.identity.runId)
    ensures e.eventId in st.inbox <==> e.sequence < st.Expected(e.identity.runId)
  {
  }

  /** Accepting an event adds no other event of the journals to the inbox. */
  lemma AcceptingKeepsOthers(st: State, journals: Journals, e: Event, run: string, i: nat)
    requires Genuine(journals) && InJournal(journals, e) && i < |JournalOf(journals, run)|
    requires JournalOf(journals, run)[i] != e
    ensures var id := JournalOf(journals, run)[i].eventId;
            id in st.inbox + {e.eventId} <==> id in st.inbox
  {
    LogIsInJournal(journals, run, i);
  }

  lemma AcceptingKeepsTracks(st: State, journals: Journals, d: Delivery, run: string)
    requires Genuine(journals) && InJournal(journals, d.event) && Tracks(st, journals, run)
    requires d.event.eventId !in st.inbox && d.event.sequence == st.Expected(d.event.identity.runId)
    ensures Tracks(AfterHandle(st, d).0, journals, run)
  {
    var log, n, e := JournalOf(journals, run), st.Expected(run), d.event;
    var st' := AfterHandle(st, d).0;
    if e.identity.runId == run {
      assert log[..n + 1][..n] == log[..n] && log[n] == e;
    }
    forall i | 0 <= i < |log| ensures log[i].eventId in st'.inbox <==> i < st'.Expected(run) {
      LogIsInJournal(journals, run, i);
      if log[i] != e {
        AcceptingKeepsOthers(st, journals, e, run, i);
      }
    }
  }

  /** What a delivery does to the progress of a run. */
  lemma StepKeepsTracks(st: State, journals: Journals, d: Delivery, run: string)
    requires Genuine(journals) && InJournal(journals, d.event)
    requires Tracks(st, journals, run) && Tracks(st, journals, d.event.identity.runId)
    ensures var (st', verdict) := AfterHandle(st, d);
            var mine := d.event.identity.runId == run;
            && Tracks(st', journals, run)
            && st'.Expected(run) == st.Expected(run) + (if mine && d.event.sequence == st.Expected(run) then 1 else 0)
            && (mine ==> (verdict == Ignored <==> d.event.sequence < st.Expected(run))
                         && (verdict == OutOfOrder <==> d.event.sequence > st.Expected(run)))
            && (verdict == Ignored || verdict == OutOfOrder ==> st' == st)
  {
    KnownIff(st, journals, d.event);
    if d.event.eventId !in st.inbox && d.event.sequence == st.Expected(d.event.identity.runId) {
      AcceptingKeepsTracks(st, journals, d, run);
    }
  }

  function Exec(st: State, ds: seq<Delivery>): State
    decreases |ds|
  {
    if ds == [] then st else Exec(AfterHandle(st, ds[0]).0, ds[1..])
  }

  ghost predicate AllGenuine(journals: Journals, ds: seq<Delivery>) {
    Genuine(journals) && forall i | 0 <= i < |ds| :: InJournal(journals, ds[i].event)
  }

  ghost predicate TracksAll(st: State, journals: Journals) {
    forall run :: Tracks(st, journals, run)
  }

  lemma StepKeepsTracksAll(st: State, journals: Journals, d: Delivery)
    requires Genuine(journals) && InJournal(journals, d.event) && TracksAll(st, journals)
    ensures TracksAll(AfterHandle(st, d).0, journals)
  {
    forall run ensures Tracks(AfterHandle(st, d).0, journals, run) {
      StepKeepsTracks(st, journals, d, run);
    }
  }

  lemma {:induction false} RunKeepsTracks(st: State, journals: Journals, ds: seq<Delivery>)
    requires AllGenuine(journals, ds) && TracksAll(st, journals)
    ensures TracksAll(Exec(st, ds), journals)
    decreases |ds|
  {
    if ds != [] {
      StepKeepsTracksAll(st, journals, ds[0]);
      RunKeepsTracks(AfterHandle(st, ds[0]).0, journals, ds[1..]);
    }
  }

  lemma EmptyTracks(journals: Journals)
    ensures TracksAll(EMPTY, journals)
  {
    forall r ensures Tracks(EMPTY, journals, r) {
      assert JournalOf(journals, r)[..0] == [];
    }
  }

  /** Whatever journalled events are delivered, in whatever order, mixture and multiplicity, and however
      often the sink fails: each run's projection is the fold of a prefix of its journal. */
  lemma ProjectionIsPrefixFold(journals: Journals, ds: seq<Delivery>, run: string)
    requires AllGenuine(journals, ds)
    ensures var st := Exec(EMPTY, ds);
            var n := st.Expected(run);
            0 <= n <= |JournalOf(journals, run)| && st.Projection(run) == Fold(run, JournalOf(journals, run)[..n])
  {
    EmptyTracks(journals);
    RunKeepsTracks(EMPTY, journals, ds);
    assert Tracks(Exec(EMPTY, ds), journals, run);
  }

  // ----- What a fold shows -----

  /** Event `k` of the log is the last one whose type is among `types`; -1 means that none is. */
  ghost predicate IsLast(log: seq<Event>, types: set<EventType>, k: int) {
    && -1 <= k < |log| && (k >= 0 ==> log[k].eventType in types)
    && forall i | k < i < |log| :: log[i].eventType !in types
  }

  /** The status comes from the last event that reports one; an interruption reports none. */
  lemma {:induction false} FoldStatus(run: string, log: seq<Event>, k: int)
    requires IsLast(log, {RunStarted, RunCompleted, RunCancelled, RunFailed, RunTimeout}, k)
    ensures Fold(run, log).status ==
            if k < 0 then "pending"
            else match log[k].eventType
              case RunStarted => "running"
              case RunCompleted => "success"
              case RunCancelled => "cancelled"
              case RunFailed => "error"
              case _ => "timeout"
    decreases |log|
  {
    if k < |log| - 1 {
      FoldStatus(run, log[..|log| - 1], k);
    }
  }

  /** The start is the time of the last `run.started`. */
  lemma {:induction false} FoldStarted(run: string, log: seq<Event>, k: int)
    requires IsLast(log, {RunStarted}, k)
    ensures Fold(run, log).startedAt == if k < 0 then None else Some(log[k].timestamp)
    decreases |log|
  {
    if k < |log| - 1 {
      FoldStarted(run, log[..|log| - 1], k);
    }
  }

  /** The completion is the time of the last event of the four that end a run. */
  lemma {:induction false} FoldCompleted(run: string, log: seq<Event>, k: int)
    requires IsLast(log, {RunCompleted, RunCancelled, RunFailed, RunTimeout}, k)
    ensures Fold(run, log).completedAt == if k < 0 then None else Some(log[k].timestamp)
    decreases |log|
  {
    if k < |log| - 1 {
      FoldCompleted(run, log[..|log| - 1], k);
    }
  }

  /** The result is the data of the last `run.completed`. */
  lemma {:induction false} FoldResult(run: string, log: seq<Event>, k: int)
    requires IsLast(log, {RunCompleted}, k)
    ensures Fold(run, log).result == if k < 0 then Null else log[k].data
    decreases |log|
  {
    if k < |log| - 1 {
      FoldResult(run, log[..|log| - 1], k);
    }
  }

  /** The error is the data of the last `run.failed`, an object as it is and a text as a message. */
  lemma {:induction false} FoldError(run: string, log: seq<Event>, k: int)
    requires IsLast(log, {RunFailed}, k)
    ensures var error := Fold(run, log).error;
            && (k < 0 ==> error == None)
            && (k >= 0 && log[k].data.Object? ==> error == Some(log[k].data))
            && (k >= 0 && log[k].data.Quoted? ==> error == Some(Object(map["message" := log[k].data])))
            && (k >= 0 && log[k].data.Literal? ==> error == Some(Object(map["message" := Quoted(log[k].data.text)])))
            && (k >= 0 && log[k].data.Null? ==> error == Some(Object(map["message" := Quoted("None")])))
    decreases |log|
  {
    if k < |log| - 1 {
      FoldError(run, log[..|log| - 1], k);
    }
  }

  /** The view is of the run, at the log's last sequence number. */
  lemma FoldPlace(run: string, log: seq<Event>)
    requires Journal.IsLogOf(log, run)
    ensures Fold(run, log).runId == run && Fold(run, log).sequence == |log| - 1
  {
  }

  // ----- Convergence -----

  /** The deliveries include `log[k..]` in order, with anything in between. */
  predicate Includes(ds: seq<Delivery>, log: seq<Event>, k: nat)
    decreases |ds|
  {
    k >= |log| || (ds != [] && ((ds[0].event == log[k] && Includes(ds[1..], log, k + 1)) || Includes(ds[1..], log, k)))
  }

  lemma StepAdvances(st: State, journals: Journals, d: Delivery, run: string, k: nat)
    requires Genuine(journals) && InJournal(journals, d.event) && TracksAll(st, journals) && k <= st.Expected(run)
    ensures var st' := AfterHandle(st, d).0;
            && TracksAll(st', journals) && k <= st'.Expected(run)
            && (k < |JournalOf(journals, run)| && d.event == JournalOf(journals, run)[k] ==> k + 1 <= st'.Expected(run))
  {
    assert Tracks(st, journals, run) && Tracks(st, journals, d.event.identity.runId);
    StepKeepsTracks(st, journals, d, run);
    StepKeepsTracksAll(st, journals, d);
    assert Journal.IsLogOf(JournalOf(journals, run), run);
  }

  lemma {:induction false} Converges(st: State, journals: Journals, ds: seq<Delivery>, run: string, k: nat)
    requires AllGenuine(journals, ds) && TracksAll(st, journals)
    requires k <= st.Expected(run) && Includes(ds, JournalOf(journals, run), k)
    ensures Exec(st, ds).Expected(run) == |JournalOf(journals, run)|
    decreases |ds|
  {
    var log := JournalOf(journals, run);
    if ds == [] {
      assert Tracks(st, journals, run);
    } else {
      StepAdvances(st, journals, ds[0], run, k);
      var matched := k < |log| && ds[0].event == log[k] && Includes(ds[1..], log, k + 1);
      Converges(AfterHandle(st, ds[0]).0, journals, ds[1..], run, if matched then k + 1 else k);
    }
  }

  /** Once the deliveries have included a run's whole journal in order, its projection is the fold of
      the whole journal, whatever else was delivered before, in between or after. */
  lemma FullReplayConverges(journals: Journals, before: seq<Delivery>, ds: seq<Delivery>, run: string)
    requires AllGenuine(journals, before) && AllGenuine(journals, ds)
    requires Includes(ds, JournalOf(journals, run), 0)
    ensures Exec(Exec(EMPTY, before), ds).Projection(run) == Fold(run, JournalOf(journals, run))
  {
    EmptyTracks(journals);
    RunKeepsTracks(EMPTY, journals, before);
    var st := Exec(EMPTY, before);
    assert Tracks(st, journals, run);
    Converges(st, journals, ds, run, 0);
    RunKeepsTracks(st, journals, ds);
    assert Tracks(Exec(st, ds), journals, run);
    assert JournalOf(journals, run)[..|JournalOf(journals, run)|] == JournalOf(journals, run);
  }

  /** Replaying `log[k..]` meets no gap. */
  predicate Replayable(st: State, log: seq<Event>, k: nat)
    decreases |log| - k
  {
    k < |log| ==>
      var (st', verdict) := AfterHandle(st, Delivery(log[k], true));
      verdict in {Accepted, Ignored} && Replayable(st', log, k + 1)
  }

  lemma {:induction false} TracksReplayable(st: State, journals: Journals, run: string, k: nat)
    requires Genuine(journals) && TracksAll(st, journals) && k <= st.Expected(run)
    ensures Replayable(st, JournalOf(journals, run), k)
    decreases |JournalOf(journals, run)| - k
  {
    var log := JournalOf(journals, run);
    if k < |log| {
      var d := Delivery(log[k], true);
      assert Journal.IsLogOf(log, run);
      assert Tracks(st, journals, run);
      StepKeepsTracks(st, journals, d, run);
      StepAdvances(st, journals, d, run, k);
      TracksReplayable(AfterHandle(st, d).0, journals, run, k + 1);
    }
  }

  /** In every state that deliveries lead to, a run's whole journal can be replayed: every event is
      accepted, or ignored as known. */
  lemma ReplayNeverRefused(journals: Journals, ds: seq<Delivery>, run: string)
    requires AllGenuine(journals, ds)
    ensures Replayable(Exec(EMPTY, ds), JournalOf(journals, run), 0)
  {
    EmptyTracks(journals);
    RunKeepsTracks(EMPTY, journals, ds);
    assert Tracks(Exec(EMPTY, ds), journals, run);
    TracksReplayable(Exec(EMPTY, ds), journals, run, 0);
  }

  // ----- What a failing sink misses -----

  /** The sink shows the run's current projection. */
  predicate SinkCurrent(st: State, run: string) {
    run in st.projections ==> run in st.sink && st.sink[run] == st.projections[run]
  }

  /** What was last written for a run is not ahead of its projection. */
  ghost predicate SinkBehind(st: State, run: string) {
    && (run in st.sink ==> st.sink[run].sequence < st.Expected(run))
    && (run in st.projections ==> st.projections[run].sequence < st.Expected(run))
  }

  /** Whether the last event of a run that was accepted found the sink up; none if no event was. */
  function LastWrite(st: State, ds: seq<Delivery>, run: string): Option<bool>
    decreases |ds|
  {
    if ds == [] then None
    else
      var (st', verdict) := AfterHandle(st, ds[0]);
      var later := LastWrite(st', ds[1..], run);
      if later.Some? then later
      else if ds[0].event.identity.runId == run && (verdict == Accepted || verdict == WriteFailed)
      then Some(ds[0].sinkUp) else None
  }

  lemma WriteStep(st: State, d: Delivery, run: string)
    requires SinkBehind(st, run)
    ensures var (st', verdict) := AfterHandle(st, d);
            && SinkBehind(st', run)
            && (if d.event.identity.runId == run && (verdict == Accepted || verdict == WriteFailed)
                then SinkCurrent(st', run) <==> d.sinkUp
                else SinkCurrent(st', run) <==> SinkCurrent(st, run))
  {
  }

  lemma {:induction false} RunWrites(st: State, ds: seq<Delivery>, run: string)
    requires SinkBehind(st, run)
    ensures var written := LastWrite(st, ds, run);
            && SinkBehind(Exec(st, ds), run)
            && (SinkCurrent(Exec(st, ds), run) <==> if written.Some? then written.value else SinkCurrent(st, run))
    decreases |ds|
  {
    if ds != [] {
      WriteStep(st, ds[0], run);
      RunWrites(AfterHandle(st, ds[0]).0, ds[1..], run);
    }
  }

  /** After any deliveries, the sink shows a run's current projection exactly when no event of the run
      was accepted, or the sink was up for the last one that was. Delivering that event again repairs
      nothing: it is no longer accepted. */
  lemma SinkCurrentIff(ds: seq<Delivery>, run: string)
    ensures SinkCurrent(Exec(EMPTY, ds), run) <==> LastWrite(EMPTY, ds, run) != Some(false)
  {
    RunWrites(EMPTY, ds, run);
  }

  /** Deliveries of events that were accepted before change nothing, so that no repetition repairs a
      failed write. */
  lemma {:induction false} FailedWriteIsNotRepaired(st: State, again: seq<Delivery>)
    requires forall i | 0 <= i < |again| :: again[i].event.eventId in st.inbox
    ensures Exec(st, again) == st
    decreases |again|
  {
    if again != [] {
      FailedWriteIsNotRepaired(st, again[1..]);
    }
  }
}
