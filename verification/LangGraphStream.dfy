/** The event stream a LangGraph adapter makes of a graph's chunks. */
module LangGraphStream {
  import opened Domain
  import opened ExecutionService

  /** An unpacked chunk: its stream mode, when it names one; its payload; and the string form of the
      payload's `event` entry. */
  datatype Chunk = Chunk(mode: Option<string>, payload: Json, eventName: string)

  /** How an iteration over the graph stops. `aboutContext` marks a type error that mentions "context". */
  datatype Stop = Done | Failed(aboutContext: bool, error: string) | Cancelled

  datatype GraphRun = GraphRun(chunks: seq<Chunk>, stop: Stop)

  /** The relevant part of a request. */
  datatype Request = Request(identity: Identity, streamModes: seq<string>, config: map<string, Json>)

  /** What counts as a key and a value where Python builds a dictionary from a list. */
  predicate IsPair(x: Json) {
    match x
    case Array(items) => |items| == 2 && !items[0].Array? && !items[0].Object?
    case Object(fields) => |fields| == 2
    case Quoted(text) => |text| == 2
    case _ => false
  }

  /** Whether Python's `dict(x)` succeeds. */
  predicate MakesDict(x: Json) {
    match x
    case Object(_) => true
    case Array(items) => forall i | 0 <= i < |items| :: IsPair(items[i])
    case Quoted(text) => text == ""
    case _ => false
  }

  /** Whether the request's configuration can be mapped for the graph: its two nested dictionaries, where
      present, must be such. */
  predicate ConfigMaps(config: map<string, Json>) {
    && ("configurable" in config ==> MakesDict(config["configurable"]))
    && ("metadata" in config ==> MakesDict(config["metadata"]))
  }

  /** Whether the stream gets as far as its first event. */
  predicate Opens(request: Request) {
    ConfigMaps(request.config) && request.streamModes != []
  }

  predicate Contains(s: string, part: string)
    decreases |s|
  {
    part <= s || (s != [] && Contains(s[1..], part))
  }

  predicate EndsWith(s: string, suffix: string) {
    |suffix| <= |s| && s[|s| - |suffix|..] == suffix
  }

  function EventTypeOf(mode: string, eventName: string): EventType {
    if mode == "values" then StateValues
    else if mode == "updates" then StateUpdates
    else if mode == "messages" || mode == "messages-tuple" then MessageDelta
    else if mode == "custom" then Custom
    else if mode == "checkpoints" then CheckpointCreated
    else if mode == "tasks" then (if EndsWith(eventName, "end") then TaskCompleted else TaskStarted)
    else if mode == "events" || mode == "debug" then
      if Contains(eventName, "tool") && EndsWith(eventName, "start") then ToolStarted
      else if Contains(eventName, "tool") && EndsWith(eventName, "end") then ToolCompleted
      else if Contains(eventName, "chain") && EndsWith(eventName, "start") then AgentStarted
      else if Contains(eventName, "chain") && EndsWith(eventName, "end") then AgentCompleted
      else Custom
    else Custom
  }

  function MappedChunk(identity: Identity, defaultMode: string, chunk: Chunk): Draft {
    var mode := if chunk.mode.Some? then chunk.mode.value else defaultMode;
    Draft(identity, EventTypeOf(mode, chunk.eventName), chunk.payload)
  }

  type Mapper = Chunk -> Draft

  function MapperOf(request: Request): Mapper
    requires request.streamModes != []
  {
    chunk => MappedChunk(request.identity, request.streamModes[0], chunk)
  }

  /** State values that carry an interrupt. */
  predicate Interrupts(draft: Draft) {
    draft.eventType.StateValues? && draft.data.Object? && "__interrupt__" in draft.data.fields
  }

  predicate AnyInterrupt(drafts: seq<Draft>) {
    exists d :: d in drafts && Interrupts(d)
  }

  /** What one chunk's event becomes: itself, and an announcement if it carries an interrupt. */
  function Pieces(draft: Draft): seq<Draft> {
    if Interrupts(draft) then [draft, draft.(eventType := InterruptCreated)] else [draft]
  }

  function Forwarded(mapper: Mapper, chunks: seq<Chunk>): seq<Draft>
    decreases |chunks|
  {
    if chunks == [] then [] else Forwarded(mapper, chunks[..|chunks| - 1]) + Pieces(mapper(chunks[|chunks| - 1]))
  }

  predicate Interrupted(mapper: Mapper, chunks: seq<Chunk>) {
    exists chunk :: chunk in chunks && Interrupts(mapper(chunk))
  }

  /** The iterations made over the graph: a second one when the first complains about its context. */
  function Attempts(first: GraphRun, second: GraphRun): (r: seq<GraphRun>)
    ensures |r| >= 1
  {
    if first.stop.Failed? && first.stop.aboutContext then [first, second] else [first]
  }

  function AllChunks(first: GraphRun, second: GraphRun): seq<Chunk> {
    if |Attempts(first, second)| == 2 then first.chunks + second.chunks else first.chunks
  }

  /** How the last iteration stopped. */
  function FinalStop(first: GraphRun, second: GraphRun): Stop {
    var attempts := Attempts(first, second);
    attempts[|attempts| - 1].stop
  }

  function ClosingType(stop: Stop, interrupted: bool): EventType {
    match stop
    case Done => if interrupted then RunInterrupted else RunCompleted
    case Failed(_, _) => RunFailed
    case Cancelled => RunCancelled
  }

  function EndingOf(stop: Stop): Ending {
    match stop
    case Done => Exhausted
    case Failed(_, _) => Crashed
    case Cancelled => TaskCancelled
  }

  function ClosingData(request: Request, stop: Stop): Json {
    var runId := Quoted(request.identity.runId);
    if stop.Failed? then Object(map["run_id" := runId, "error" := Quoted(stop.error)])
      else Object(map["run_id" := runId])
  }

  function Opening(request: Request): Draft {
    Draft(request.identity, RunStarted, Object(map["run_id" := Quoted(request.identity.runId)]))
  }

  class LangGraphAdapter {
    /** The runs whose tasks are registered for cancellation. */
    var tasks: set<string>

    constructor ()
      ensures tasks == {}
    {
      tasks := {};
    }

    /** Maps the chunks of one iteration and announces interrupts. */
    method Forward(mapper: Mapper, chunks: seq<Chunk>, interrupted: bool) returns (drafts: seq<Draft>, flag: bool)
      ensures drafts == Forwarded(mapper, chunks)
      ensures flag <==> interrupted || Interrupted(mapper, chunks)
    {
      drafts, flag := [], interrupted;
      for i := 0 to |chunks|
        invariant drafts == Forwarded(mapper, chunks[..i])
        invariant flag <==> interrupted || Interrupted(mapper, chunks[..i])
      {
        var draft := mapper(chunks[i]);
        ForwardedStep(mapper, chunks, i);
        drafts := drafts + [draft];
        if Interrupts(draft) {
          flag := true;
          drafts := drafts + [draft.(eventType := InterruptCreated)];
        }
      }
      assert chunks[..|chunks|] == chunks;
    }

    /** The stream of a request, consumed to its end, against a graph that behaves as `first` and, if
        asked again without a context, as `second`. */
    method Stream(request: Request, first: GraphRun, second: GraphRun) returns (drafts: seq<Draft>, ending: Ending)
      modifies this
      ensures (drafts, ending) == Streamed(request, first, second)
      ensures var key := request.identity.runId;
              tasks == if Opens(request) then old(tasks) - {key} else old(tasks) + {key}
    {
      var key := request.identity.runId;
      tasks := tasks + {key};
      if !ConfigMaps(request.config) {
        return [], Crashed;
      }
      if request.streamModes == [] {
        return [], Crashed;
      }
      var mapper := MapperOf(request);
      drafts := [Opening(request)];
      var forwarded, interrupted := Forward(mapper, first.chunks, false);
      drafts := drafts + forwarded;
      var stop := first.stop;
      if stop.Failed? && stop.aboutContext {
        var again, still := Forward(mapper, second.chunks, interrupted);
        drafts := drafts + again;
        ForwardedJoins(mapper, first.chunks, second.chunks);
        assert drafts == [Opening(request)] + (forwarded + again);
        stop, interrupted := second.stop, still;
      }
      drafts := drafts + [Draft(request.identity, ClosingType(stop, interrupted), ClosingData(request, stop))];
      ending := EndingOf(stop);
      tasks := tasks - {key};
    }
  }

  function Middle(request: Request, first: GraphRun, second: GraphRun): seq<Draft>
    requires request.streamModes != []
  {
    Forwarded(MapperOf(request), AllChunks(first, second))
  }

  /** The stream of a request: nothing at all if it does not open. */
  function Streamed(request: Request, first: GraphRun, second: GraphRun): (seq<Draft>, Ending) {
    if !Opens(request) then ([], Crashed)
    else
      var stop := FinalStop(first, second);
      var closing := ClosingType(stop, Interrupted(MapperOf(request), AllChunks(first, second)));
      ([Opening(request)] + Middle(request, first, second)
        + [Draft(request.identity, closing, ClosingData(request, stop))],
       EndingOf(stop))
  }

  lemma ForwardedStep(mapper: Mapper, chunks: seq<Chunk>, i: nat)
    requires i < |chunks|
    ensures Forwarded(mapper, chunks[..i + 1]) == Forwarded(mapper, chunks[..i]) + Pieces(mapper(chunks[i]))
    ensures Interrupted(mapper, chunks[..i + 1]) <==> Interrupted(mapper, chunks[..i]) || Interrupts(mapper(chunks[i]))
  {
    assert chunks[..i + 1][..i] == chunks[..i];
    assert chunks[..i + 1] == chunks[..i] + [chunks[i]];
  }

  lemma {:induction false} ForwardedJoins(mapper: Mapper, front: seq<Chunk>, back: seq<Chunk>)
    ensures Forwarded(mapper, front + back) == Forwarded(mapper, front) + Forwarded(mapper, back)
    decreases |back|
  {
    if back == [] {
      assert front + back == front;
    } else {
      var init := back[..|back| - 1];
      assert (front + back)[..|front + back| - 1] == front + init;
      ForwardedJoins(mapper, front, init);
    }
  }

  // ----- The grammar of the stream -----

  /** The types that report on the run as a whole. */
  predicate IsRunEvent(t: EventType) {
    t.RunQueued? || t.RunStarted? || t.RunCompleted? || t.RunCancelled? || t.RunFailed? || t.RunTimeout?
    || t.RunInterrupted?
    || (t.Text? && "run." <= t.name)
  }

  lemma TerminalIsRunEvent(t: EventType)
    ensures IsTerminal(t) ==> IsRunEvent(t)
  {
    if t.Text? && t.name in TERMINAL_NAMES {
      assert t.name in {"run.completed", "run.cancelled", "run.failed", "run.timeout", "run.interrupted"};
    }
  }

  predicate Plain(identity: Identity, draft: Draft) {
    !IsRunEvent(draft.eventType) && draft.identity == identity
  }

  lemma {:induction false} ForwardedIsPlain(identity: Identity, mapper: Mapper, chunks: seq<Chunk>)
    requires forall chunk :: Plain(identity, mapper(chunk))
    ensures forall d | d in Forwarded(mapper, chunks) :: Plain(identity, d)
    ensures Interrupted(mapper, chunks) <==> AnyInterrupt(Forwarded(mapper, chunks))
    decreases |chunks|
  {
    if chunks != [] {
      var k := |chunks| - 1;
      ForwardedIsPlain(identity, mapper, chunks[..k]);
      assert chunks == chunks[..k] + [chunks[k]];
      var pieces := Pieces(mapper(chunks[k]));
      assert mapper(chunks[k]) == pieces[0];
    }
  }

  lemma MappedIsPlain(identity: Identity, defaultMode: string, chunk: Chunk)
    ensures Plain(identity, MappedChunk(identity, defaultMode, chunk))
  {
  }

  /** Whatever the graph does, also when it is asked a second time: the stream opens with `run.started`
      and closes with its only terminal event, no other event between them reports on the run, and the
      closing event tells how the graph ended. */
  lemma StreamGrammar(request: Request, first: GraphRun, second: GraphRun)
    requires Opens(request)
    ensures var (drafts, ending) := Streamed(request, first, second);
            var last, stop := |drafts| - 1, FinalStop(first, second);
            && last >= 1 && drafts[0].eventType == RunStarted
            && (forall i | 0 < i < last :: !IsRunEvent(drafts[i].eventType))
            && (forall i | 0 <= i <= last :: IsTerminal(drafts[i].eventType) <==> i == last)
            && (forall i | 0 <= i <= last :: drafts[i].identity == request.identity)
            && drafts[last].eventType == (match stop
                                          case Failed(_, _) => RunFailed
                                          case Cancelled => RunCancelled
                                          case Done => if AnyInterrupt(drafts) then RunInterrupted else RunCompleted)
            && (ending == Exhausted <==> stop.Done?) && (ending == Crashed <==> stop.Failed?)
  {
    var (drafts, ending) := Streamed(request, first, second);
    var middle := Middle(request, first, second);
    var last := |drafts| - 1;
    forall chunk ensures Plain(request.identity, MapperOf(request)(chunk)) {
      MappedIsPlain(request.identity, request.streamModes[0], chunk);
    }
    ForwardedIsPlain(request.identity, MapperOf(request), AllChunks(first, second));
    forall i | 0 < i < last ensures Plain(request.identity, drafts[i]) {
      assert drafts[i] == middle[i - 1];
    }
    forall i | 0 < i < last ensures !IsTerminal(drafts[i].eventType) {
      assert Plain(request.identity, drafts[i]);
      TerminalIsRunEvent(drafts[i].eventType);
    }
    forall d ensures d in drafts && Interrupts(d) <==> d in middle && Interrupts(d) {
      assert drafts == [drafts[0]] + middle + [drafts[last]];
    }
  }

  /** The opening and the closing event name the run, and a failure's closing event its error. */
  lemma StreamData(request: Request, first: GraphRun, second: GraphRun)
    requires Opens(request)
    ensures var drafts, stop := Streamed(request, first, second).0, FinalStop(first, second);
            && drafts != []
            && drafts[0].data == Object(map["run_id" := Quoted(request.identity.runId)])
            && drafts[|drafts| - 1].data == Object(
                 if stop.Failed? then map["run_id" := Quoted(request.identity.runId), "error" := Quoted(stop.error)]
                 else map["run_id" := Quoted(request.identity.runId)])
  {
  }

  /** A stream opens with `run.started` exactly when the request has stream modes and its configuration
      can be mapped; otherwise it has no event at all. */
  lemma OpensIff(request: Request, first: GraphRun, second: GraphRun)
    ensures var drafts := Streamed(request, first, second).0;
            && (drafts != [] && drafts[0].eventType == RunStarted <==>
                request.streamModes != []
                && forall key | key in ["configurable", "metadata"] && key in request.config ::
                     MakesDict(request.config[key]))
            && (drafts == [] <==> !(drafts != [] && drafts[0].eventType == RunStarted))
  {
    assert ["configurable", "metadata"][0] == "configurable" && ["configurable", "metadata"][1] == "metadata";
    if Opens(request) {
      StreamGrammar(request, first, second);
    }
  }

  /** The events other than interrupt announcements. */
  function Unannounced(drafts: seq<Draft>): seq<Draft>
    decreases |drafts|
  {
    if drafts == [] then []
    else
      var k := |drafts| - 1;
      Unannounced(drafts[..k]) + (if drafts[k].eventType.InterruptCreated? then [] else [drafts[k]])
  }

  lemma UnannouncedLast(drafts: seq<Draft>, d: Draft)
    ensures Unannounced(drafts + [d]) == Unannounced(drafts) + (if d.eventType.InterruptCreated? then [] else [d])
  {
    assert (drafts + [d])[..|drafts|] == drafts;
  }

  lemma UnannouncedPieces(front: seq<Draft>, draft: Draft)
    requires !draft.eventType.InterruptCreated?
    ensures Unannounced(front + Pieces(draft)) == Unannounced(front) + [draft]
  {
    UnannouncedLast(front, draft);
    if Interrupts(draft) {
      UnannouncedLast(front + [draft], draft.(eventType := InterruptCreated));
      assert front + Pieces(draft) == front + [draft] + [draft.(eventType := InterruptCreated)];
    }
  }

  /** Nothing is dropped or reordered: without the announcements the chunks' events come out one by one. */
  lemma {:induction false} EveryChunkOnce(mapper: Mapper, chunks: seq<Chunk>)
    requires forall chunk :: !mapper(chunk).eventType.InterruptCreated?
    ensures var r := Unannounced(Forwarded(mapper, chunks));
            |r| == |chunks| && forall i | 0 <= i < |chunks| :: r[i] == mapper(chunks[i])
    decreases |chunks|
  {
    if chunks != [] {
      var k := |chunks| - 1;
      EveryChunkOnce(mapper, chunks[..k]);
      var r := Unannounced(Forwarded(mapper, chunks[..k]));
      UnannouncedPieces(Forwarded(mapper, chunks[..k]), mapper(chunks[k]));
      assert Unannounced(Forwarded(mapper, chunks)) == r + [mapper(chunks[k])];
    }
  }

  // ----- The stream in terms of the chunks -----

  /** The chunks the graph gave, over one iteration or two. */
  function Given(first: GraphRun, second: GraphRun): seq<Chunk> {
    match first.stop
    case Failed(true, _) => first.chunks + second.chunks
    case _ => first.chunks
  }

  /** A chunk's mode: its own, or the request's first. */
  function Mode(request: Request, chunk: Chunk): string
    requires request.streamModes != []
  {
    match chunk.mode
    case Some(mode) => mode
    case None => request.streamModes[0]
  }

  ghost predicate Ends(s: string, suffix: string) {
    exists front: string :: s == front + suffix
  }

  ghost predicate Holds(s: string, part: string) {
    exists front: string, back: string :: s == front + part + back
  }

  lemma EndsWithIff(s: string, suffix: string)
    ensures EndsWith(s, suffix) <==> Ends(s, suffix)
  {
    if EndsWith(s, suffix) {
      assert s == s[..|s| - |suffix|] + suffix;
    }
  }

  lemma {:induction false} ContainsIff(s: string, part: string)
    ensures Contains(s, part) <==> Holds(s, part)
    decreases |s|
  {
    if Contains(s, part) {
      if part <= s {
        assert s == [] + part + s[|part|..];
      } else {
        ContainsIff(s[1..], part);
        var front: string, back: string :| s[1..] == front + part + back;
        assert s == ([s[0]] + front) + part + back;
      }
    }
    if Holds(s, part) {
      var front: string, back: string :| s == front + part + back;
      if front == [] {
        assert s[..|part|] == part;
      } else {
        assert s[1..] == front[1..] + part + back;
        ContainsIff(s[1..], part);
      }
    }
  }

  /** Which modes and event names give which type. */
  ghost predicate TypeFits(t: EventType, mode: string, name: string) {
    var native := mode == "events" || mode == "debug";
    && (t == StateValues <==> mode == "values")
    && (t == StateUpdates <==> mode == "updates")
    && (t == MessageDelta <==> mode == "messages" || mode == "messages-tuple")
    && (t == CheckpointCreated <==> mode == "checkpoints")
    && (t == TaskCompleted <==> mode == "tasks" && Ends(name, "end"))
    && (t == TaskStarted <==> mode == "tasks" && !Ends(name, "end"))
    && (t == ToolStarted <==> native && Holds(name, "tool") && Ends(name, "start"))
    && (t == ToolCompleted <==> native && Holds(name, "tool") && Ends(name, "end"))
    && (t == AgentStarted <==> native && Holds(name, "chain") && Ends(name, "start") && !Holds(name, "tool"))
    && (t == AgentCompleted <==> native && Holds(name, "chain") && Ends(name, "end") && !Holds(name, "tool"))
    && (t != StateValues && t != StateUpdates && t != MessageDelta && t != CheckpointCreated && t != TaskCompleted
        && t != TaskStarted && t != ToolStarted && t != ToolCompleted && t != AgentStarted && t != AgentCompleted
        ==> t == Custom)
  }

  lemma EndsIn(s: string, suffix: string)
    requires suffix != "" && EndsWith(s, suffix)
    ensures s != "" && s[|s| - 1] == suffix[|suffix| - 1]
  {
    assert s[|s| - |suffix|..][|suffix| - 1] == s[|s| - 1];
  }

  lemma EndsOneWay(s: string)
    ensures EndsWith(s, "start") ==> !EndsWith(s, "end")
  {
    if EndsWith(s, "start") {
      EndsIn(s, "start");
    }
    if EndsWith(s, "end") {
      EndsIn(s, "end");
    }
  }

  lemma TypeOfFits(mode: string, name: string)
    ensures TypeFits(EventTypeOf(mode, name), mode, name)
  {
    EndsWithIff(name, "end");
    EndsWithIff(name, "start");
    ContainsIff(name, "tool");
    ContainsIff(name, "chain");
    EndsOneWay(name);
  }

  ghost predicate FitsChunk(draft: Draft, request: Request, chunk: Chunk)
    requires request.streamModes != []
  {
    && draft.identity == request.identity && draft.data == chunk.payload
    && TypeFits(draft.eventType, Mode(request, chunk), chunk.eventName) && draft.eventType != InterruptCreated
  }

  lemma MappedFits(request: Request, chunk: Chunk)
    requires request.streamModes != []
    ensures FitsChunk(MapperOf(request)(chunk), request, chunk)
  {
    TypeOfFits(Mode(request, chunk), chunk.eventName);
    MappedIsPlain(request.identity, request.streamModes[0], chunk);
  }

  /** What the result of a run depends on. */
  lemma MappedValues(request: Request, chunk: Chunk)
    requires request.streamModes != []
    ensures var draft := MapperOf(request)(chunk);
            && (draft.eventType.StateValues? <==> Mode(request, chunk) == "values")
            && draft.data == chunk.payload && !draft.eventType.InterruptCreated?
  {
    MappedFits(request, chunk);
  }

  /** A stream without its opening and closing events and without announcements: one event for each chunk
      the graph gave, in order, with the request's identity, the chunk's payload and the type that fits
      its mode. */
  lemma StreamOfChunks(request: Request, first: GraphRun, second: GraphRun)
    requires Opens(request)
    ensures var drafts, chunks := Streamed(request, first, second).0, Given(first, second);
            |drafts| >= 2 && var inner := Unannounced(drafts[1..|drafts| - 1]);
            && |inner| == |chunks|
            && forall i | 0 <= i < |chunks| :: FitsChunk(inner[i], request, chunks[i])
  {
    var drafts, chunks := Streamed(request, first, second).0, Given(first, second);
    assert drafts[1..|drafts| - 1] == Middle(request, first, second);
    forall chunk ensures FitsChunk(MapperOf(request)(chunk), request, chunk) {
      MappedFits(request, chunk);
    }
    EveryChunkOnce(MapperOf(request), chunks);
    forall i | 0 <= i < |chunks| ensures FitsChunk(Unannounced(drafts[1..|drafts| - 1])[i], request, chunks[i]) {
    }
  }

  /** A chunk of state values that carries an interrupt. */
  predicate InterruptChunk(request: Request, chunk: Chunk)
    requires request.streamModes != []
  {
    Mode(request, chunk) == "values" && chunk.payload.Object? && "__interrupt__" in chunk.payload.fields
  }

  lemma InterruptFromChunk(request: Request, chunk: Chunk)
    requires request.streamModes != []
    ensures Interrupts(MapperOf(request)(chunk)) <==> InterruptChunk(request, chunk)
  {
    TypeOfFits(Mode(request, chunk), chunk.eventName);
  }

  lemma InterruptsFromChunks(request: Request, first: GraphRun, second: GraphRun)
    requires Opens(request)
    ensures AnyInterrupt(Streamed(request, first, second).0) <==>
            exists chunk :: chunk in Given(first, second) && InterruptChunk(request, chunk)
  {
    var drafts, middle := Streamed(request, first, second).0, Middle(request, first, second);
    forall chunk ensures Plain(request.identity, MapperOf(request)(chunk)) {
      MappedIsPlain(request.identity, request.streamModes[0], chunk);
    }
    ForwardedIsPlain(request.identity, MapperOf(request), Given(first, second));
    forall chunk ensures Interrupts(MapperOf(request)(chunk)) <==> InterruptChunk(request, chunk) {
      InterruptFromChunk(request, chunk);
    }
    assert drafts == [drafts[0]] + middle + [drafts[|drafts| - 1]];
    assert forall d :: d in drafts && Interrupts(d) <==> d in middle && Interrupts(d);
  }

  // ----- Announcements -----

  /** An event announces an interrupt exactly when the one before it carries the interrupt. */
  ghost predicate WellAnnounced(drafts: seq<Draft>) {
    && (drafts != [] ==> drafts[0].eventType != InterruptCreated)
    && (forall i | 0 < i < |drafts| :: drafts[i].eventType == InterruptCreated <==> Interrupts(drafts[i - 1]))
    && (forall i | 0 < i < |drafts| && drafts[i].eventType == InterruptCreated ::
          drafts[i] == drafts[i - 1].(eventType := InterruptCreated))
    && (drafts != [] ==> !Interrupts(drafts[|drafts| - 1]))
  }

  lemma PiecesAnnounced(front: seq<Draft>, draft: Draft)
    requires WellAnnounced(front) && !draft.eventType.InterruptCreated?
    ensures WellAnnounced(front + Pieces(draft))
  {
  }

  lemma {:induction false} ForwardedAnnounced(mapper: Mapper, chunks: seq<Chunk>)
    requires forall chunk :: !mapper(chunk).eventType.InterruptCreated?
    ensures WellAnnounced(Forwarded(mapper, chunks))
    decreases |chunks|
  {
    if chunks != [] {
      var k := |chunks| - 1;
      ForwardedAnnounced(mapper, chunks[..k]);
      PiecesAnnounced(Forwarded(mapper, chunks[..k]), mapper(chunks[k]));
    }
  }

  lemma AnnouncedAt(opening: Draft, middle: seq<Draft>, closing: Draft, i: nat)
    requires WellAnnounced(middle) && !Interrupts(opening) && i < |middle| + 2
    requires !opening.eventType.InterruptCreated? && !closing.eventType.InterruptCreated?
    ensures var all := [opening] + middle + [closing];
            && (all[i].eventType == InterruptCreated <==> i > 0 && Interrupts(all[i - 1]))
            && (i > 0 && all[i].eventType == InterruptCreated ==> all[i] == all[i - 1].(eventType := InterruptCreated))
  {
    var all := [opening] + middle + [closing];
    if i == 0 {
      assert all[i] == opening;
    } else if i == |middle| + 1 {
      assert all[i] == closing;
      if middle == [] {
        assert all[i - 1] == opening;
      } else {
        assert all[i - 1] == middle[|middle| - 1];
      }
    } else {
      assert all[i] == middle[i - 1];
      if i == 1 {
        assert middle[0].eventType != InterruptCreated;
        assert all[0] == opening && all[1] == middle[0];
      } else {
        assert all[i - 1] == middle[i - 2];
      }
    }
  }

  /** Over a whole stream an interrupt is announced right after the state values that carry it, with the
      same data, and nothing else is announced. */
  lemma StreamAnnounces(request: Request, first: GraphRun, second: GraphRun)
    requires Opens(request)
    ensures var drafts := Streamed(request, first, second).0;
            forall i | 0 < i < |drafts| ::
              && (drafts[i].eventType == InterruptCreated <==>
                  && drafts[i - 1].eventType == StateValues && drafts[i - 1].data.Object?
                  && "__interrupt__" in drafts[i - 1].data.fields)
              && (drafts[i].eventType == InterruptCreated ==>
                    drafts[i].data == drafts[i - 1].data && drafts[i].identity == drafts[i - 1].identity)
  {
    var drafts, middle := Streamed(request, first, second).0, Middle(request, first, second);
    forall chunk ensures !MapperOf(request)(chunk).eventType.InterruptCreated? {
      MappedIsPlain(request.identity, request.streamModes[0], chunk);
    }
    ForwardedAnnounced(MapperOf(request), AllChunks(first, second));
    assert drafts == [drafts[0]] + middle + [drafts[|drafts| - 1]];
    forall i | 0 < i < |drafts|
      ensures drafts[i].eventType == InterruptCreated <==> Interrupts(drafts[i - 1])
      ensures drafts[i].eventType == InterruptCreated ==> drafts[i] == drafts[i - 1].(eventType := InterruptCreated)
    {
      AnnouncedAt(drafts[0], middle, drafts[|drafts| - 1], i);
    }
  }
}
