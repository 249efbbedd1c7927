/** The database journal: sequence numbers allocated from the table, and subscriptions that poll. */
module PollingJournal {
  import opened Domain

  /** The table, in insertion order; it holds the events of all runs. */
  type Rows = seq<Event>

  function OfRun(rows: Rows, run: string): seq<Event>
    decreases |rows|
  {
    if rows == [] then []
    else
      var k := |rows| - 1;
      OfRun(rows[..k], run) + (if rows[k].identity.runId == run then [rows[k]] else [])
  }

  /** `max(sequence)` over a run's rows, or -1. */
  function MaxSequence(events: seq<Event>): int
    decreases |events|
  {
    if events == [] then -1
    else
      var k := |events| - 1;
      var m := MaxSequence(events[..k]);
      if k == 0 || events[k].sequence > m then events[k].sequence else m
  }

  function AfterAppend(rows: Rows, draft: Draft, eventId: string, now: int): Rows {
    rows + [Stamp(draft, MaxSequence(OfRun(rows, draft.identity.runId)) + 1, eventId, now)]
  }

  function Above(events: seq<Event>, after: int): seq<Event>
    decreases |events|
  {
    if events == [] then []
    else
      var k := |events| - 1;
      Above(events[..k], after) + (if events[k].sequence > after then [events[k]] else [])
  }

  function Placed(events: seq<Event>, e: Event): seq<Event>
    decreases |events|
  {
    if events == [] then [e]
    else
      var k := |events| - 1;
      if events[k].sequence <= e.sequence then events + [e] else Placed(events[..k], e) + [events[k]]
  }

  /** `order_by(sequence)`. */
  function Ordered(events: seq<Event>): seq<Event>
    decreases |events|
  {
    if events == [] then [] else Placed(Ordered(events[..|events| - 1]), events[|events| - 1])
  }

  function Selected(rows: Rows, run: string, after: int): seq<Event> {
    Ordered(Above(OfRun(rows, run), after))
  }

  // ----- Subscriptions -----

  /** A subscription: its moving cursor, what is left of the batch it read last and whether that batch
      ends with a terminal event, what it has yielded, and whether it has returned. */
  datatype Reader = Reader(
    run: string, after: int, cursor: int, batch: seq<Event>, closing: bool, yielded: seq<Event>, done: bool)

  function Opened(run: string, after: int): Reader {
    Reader(run, after, after, [], false, [], false)
  }

  /** One round of the polling loop, once the last batch is used up; an empty answer changes nothing. */
  function AfterAnswer(r: Reader, events: seq<Event>): Reader {
    if r.done || r.batch != [] || events == [] then r
    else r.(batch := events, closing := IsTerminal(events[|events| - 1].eventType))
  }

  function AfterPoll(rows: Rows, r: Reader): Reader {
    AfterAnswer(r, Selected(rows, r.run, r.cursor))
  }

  /** Yielding the next event of the batch; after the last one the loop ends if it was terminal. */
  function AfterYield(r: Reader): Reader {
    if r.done || r.batch == [] then r
    else
      var e := r.batch[0];
      r.(cursor := e.sequence, yielded := r.yielded + [e], batch := r.batch[1..], done := |r.batch| == 1 && r.closing)
  }

  class PostgresEventJournal {
    var rows: Rows

    constructor ()
      ensures rows == []
    {
      rows := [];
    }

    method Append(draft: Draft, eventId: string, now: int) returns (event: Event)
      modifies this
      ensures rows == AfterAppend(old(rows), draft, eventId, now) && event == rows[|rows| - 1]
    {
      event := Stamp(draft, MaxSequence(OfRun(rows, draft.identity.runId)) + 1, eventId, now);
      rows := rows + [event];
    }
  }

  class PollingSubscription {
    const journal: PostgresEventJournal
    const run: string
    const after: int
    var cursor: int
    var batch: seq<Event>
    var closing: bool
    var done: bool
    ghost var yielded: seq<Event>

    ghost function View(): Reader
      reads this
    {
      Reader(run, after, cursor, batch, closing, yielded, done)
    }

    constructor (journal: PostgresEventJournal, run: string, after: int)
      ensures this.journal == journal && View() == Opened(run, after)
    {
      this.journal, this.run, this.after := journal, run, after;
      cursor, batch, closing, done, yielded := after, [], false, false, [];
    }

    method Poll()
      modifies this
      ensures View() == AfterPoll(journal.rows, old(View()))
    {
      if done || batch != [] {
        return;
      }
      var events := Selected(journal.rows, run, cursor);
      if events != [] {
        batch := events;
        closing := IsTerminal(events[|events| - 1].eventType);
      }
    }

    method Yield() returns (event: Option<Event>)
      modifies this
      ensures View() == AfterYield(old(View()))
      ensures event == if old(done) || old(batch) == [] then None else Some(old(batch)[0])
    {
      if done || batch == [] {
        return None;
      }
      var e := batch[0];
      cursor := e.sequence;
      yielded := yielded + [e];
      batch := batch[1..];
      done := batch == [] && closing;
      event := Some(e);
    }
  }

  // ----- Allocation -----

  ghost predicate NumberedLog(log: seq<Event>) {
    forall i | 0 <= i < |log| :: log[i].sequence == i
  }

  /** Every run's rows are numbered 0, 1, 2, ... in insertion order. */
  ghost predicate RowsNumbered(rows: Rows) {
    forall run :: NumberedLog(OfRun(rows, run))
  }

  lemma {:induction false} MaxIsLast(log: seq<Event>)
    requires NumberedLog(log)
    ensures MaxSequence(log) == |log| - 1
    decreases |log|
  {
    if log != [] {
      MaxIsLast(log[..|log| - 1]);
    }
  }

  /** Allocating one above the maximum numbers each run's events without gap or repeat, whatever runs
      the appends are for. */
  lemma AppendKeepsNumbered(rows: Rows, draft: Draft, eventId: string, now: int)
    requires RowsNumbered(rows)
    ensures RowsNumbered(AfterAppend(rows, draft, eventId, now))
    ensures forall run :: OfRun(rows, run) <= OfRun(AfterAppend(rows, draft, eventId, now), run)
  {
    var rows' := AfterAppend(rows, draft, eventId, now);
    assert rows'[..|rows|] == rows;
    forall run ensures NumberedLog(OfRun(rows', run)) && OfRun(rows, run) <= OfRun(rows', run) {
      assert NumberedLog(OfRun(rows, run));
      MaxIsLast(OfRun(rows, run));
    }
  }

  // ----- Replay -----

  /** The index of the first event above a cursor. */
  function First(after: int, length: nat): nat {
    if after < 0 then 0 else if after + 1 > length then length else after + 1
  }

  lemma {:induction false} NothingAbove(events: seq<Event>, after: int)
    requires forall j | 0 <= j < |events| :: events[j].sequence <= after
    ensures Above(events, after) == []
    decreases |events|
  {
    if events != [] {
      NothingAbove(events[..|events| - 1], after);
    }
  }

  lemma {:induction false} AboveIsSuffix(events: seq<Event>, after: int, i: nat)
    requires i <= |events|
    requires forall j | 0 <= j < i :: events[j].sequence <= after
    requires forall j | i <= j < |events| :: events[j].sequence > after
    ensures Above(events, after) == events[i..]
    decreases |events|
  {
    var k := |events| - 1;
    if i == |events| {
      NothingAbove(events, after);
    } else {
      AboveIsSuffix(events[..k], after, i);
      assert events[i..] == events[..k][i..] + [events[k]];
    }
  }

  lemma {:induction false} OrderedStays(log: seq<Event>)
    requires forall i, j | 0 <= i < j < |log| :: log[i].sequence < log[j].sequence
    ensures Ordered(log) == log
    decreases |log|
  {
    if log != [] {
      var k := |log| - 1;
      OrderedStays(log[..k]);
      assert log == log[..k] + [log[k]];
    }
  }

  /** A replay is the rest of the run's log. */
  lemma ReplayIsSuffix(rows: Rows, run: string, after: int)
    requires RowsNumbered(rows)
    ensures var log := OfRun(rows, run);
            Selected(rows, run, after) == log[First(after, |log|)..]
  {
    var log := OfRun(rows, run);
    assert NumberedLog(log);
    AboveIsSuffix(log, after, First(after, |log|));
    OrderedStays(Above(log, after));
  }

  // ----- Any interleaving of appends with a subscription -----

  datatype System = System(rows: Rows, reader: Reader)

  datatype Action = Append(draft: Draft, eventId: string, now: int) | Poll | Yield

  function Step(sys: System, a: Action): System {
    match a
    case Append(draft, eventId, now) => sys.(rows := AfterAppend(sys.rows, draft, eventId, now))
    case Poll => sys.(reader := AfterPoll(sys.rows, sys.reader))
    case Yield => sys.(reader := AfterYield(sys.reader))
  }

  function Exec(sys: System, actions: seq<Action>): System
    decreases |actions|
  {
    if actions == [] then sys else Exec(Step(sys, actions[0]), actions[1..])
  }

  /** The appends of a run of the system that are for `run`, in order. */
  function AppendsFor(actions: seq<Action>, run: string): seq<Action>
    ensures forall a | a in AppendsFor(actions, run) :: a.Append?
  {
    if actions == [] then []
    else
      (if actions[0].Append? && actions[0].draft.identity.runId == run then [actions[0]] else [])
      + AppendsFor(actions[1..], run)
  }

  ghost predicate RecordsOne(e: Event, sequence: int, a: Action)
    requires a.Append?
  {
    && e.sequence == sequence && e.eventId == a.eventId && e.timestamp == a.now
    && e.identity == a.draft.identity && e.eventType == a.draft.eventType && e.data == a.draft.data
  }

  /** The log from `base` on holds what the appends were given, under consecutive numbers. */
  ghost predicate Records(log: seq<Event>, base: nat, appends: seq<Action>)
    requires forall a | a in appends :: a.Append?
  {
    |log| == base + |appends| && forall i | base <= i < |log| :: RecordsOne(log[i], i, appends[i - base])
  }

  lemma RecordsExtend(log: seq<Event>, base: nat, a: Action, rest: seq<Action>)
    requires a.Append? && forall b | b in rest :: b.Append?
    requires base < |log| && RecordsOne(log[base], base, a) && Records(log, base + 1, rest)
    ensures Records(log, base, [a] + rest)
  {
    forall i | base <= i < |log| ensures RecordsOne(log[i], i, ([a] + rest)[i - base]) {
      assert i > base ==> ([a] + rest)[i - base] == rest[i - base - 1];
    }
  }

  lemma StepLog(sys: System, a: Action, run: string)
    requires RowsNumbered(sys.rows)
    ensures var log, log' := OfRun(sys.rows, run), OfRun(Step(sys, a).rows, run);
            if a.Append? && a.draft.identity.runId == run
            then log' == log + [Event(a.eventId, |log|, a.now, a.draft.identity, a.draft.eventType, a.draft.data)]
            else log' == log
    ensures RowsNumbered(Step(sys, a).rows)
  {
    if a.Append? {
      AppendKeepsNumbered(sys.rows, a.draft, a.eventId, a.now);
      assert AfterAppend(sys.rows, a.draft, a.eventId, a.now)[..|sys.rows|] == sys.rows;
      assert NumberedLog(OfRun(sys.rows, a.draft.identity.runId));
      MaxIsLast(OfRun(sys.rows, a.draft.identity.runId));
    }
  }

  /** Under every interleaving a run's events are those it had, followed by its appends in order: each
      with its draft's identity, type and data, its event identifier and its time, numbered on. */
  lemma {:induction false} RowsAreAppends(sys: System, actions: seq<Action>, run: string)
    requires RowsNumbered(sys.rows)
    ensures var log, log' := OfRun(sys.rows, run), OfRun(Exec(sys, actions).rows, run);
            log <= log' && Records(log', |log|, AppendsFor(actions, run))
    decreases |actions|
  {
    if actions != [] {
      var next := Step(sys, actions[0]);
      StepLog(sys, actions[0], run);
      RowsAreAppends(next, actions[1..], run);
      var log, log' := OfRun(sys.rows, run), OfRun(Exec(sys, actions).rows, run);
      var rest := AppendsFor(actions[1..], run);
      if actions[0].Append? && actions[0].draft.identity.runId == run {
        assert log'[|log|] == OfRun(next.rows, run)[|log|];
        RecordsExtend(log', |log|, actions[0], rest);
      } else {
        assert AppendsFor(actions, run) == rest;
      }
    }
  }

  function Seen(r: Reader): seq<Event> {
    r.yielded + r.batch
  }

  /** How far a reader that started at `after` has read. */
  function Frontier(after: int, seen: seq<Event>): int {
    if seen == [] then after else seen[|seen| - 1].sequence
  }

  /** A stretch of the log that begins right above the starting cursor. */
  ghost predicate Stretch(log: seq<Event>, after: int, seen: seq<Event>) {
    var start := if after < 0 then 0 else after + 1;
    seen != [] ==> start + |seen| <= |log| && seen == log[start..start + |seen|]
  }

  lemma StretchJoins(log: seq<Event>, after: int, seen: seq<Event>)
    requires NumberedLog(log) && Stretch(log, after, seen)
    ensures var rest := log[First(Frontier(after, seen), |log|)..];
            seen + rest == log[First(after, |log|)..] && Stretch(log, after, seen + rest)
  {
    var start, n := if after < 0 then 0 else after + 1, |seen|;
    if n > 0 {
      assert seen[n - 1] == log[start + n - 1];
      assert log[start..] == log[start..start + n] + log[start + n..];
    } else {
      assert seen + log[First(after, |log|)..] == log[First(after, |log|)..];
    }
  }

  /** The cursor is at the last event yielded, and the reader is done once it has used up a batch that
      ends with a terminal event. */
  ghost predicate Consistent(r: Reader) {
    && r.cursor == Frontier(r.after, r.yielded)
    && (r.batch != [] ==> !r.done && (r.closing <==> IsTerminal(r.batch[|r.batch| - 1].eventType)))
    && (r.batch == [] ==> (r.done <==> r.yielded != [] && IsTerminal(r.yielded[|r.yielded| - 1].eventType)))
  }

  ghost predicate Exact(rows: Rows, r: Reader) {
    Stretch(OfRun(rows, r.run), r.after, Seen(r)) && Consistent(r)
  }

  lemma AnswerKeepsExact(log: seq<Event>, r: Reader, events: seq<Event>)
    requires !r.done && r.batch == [] && Consistent(r) && Stretch(log, r.after, r.yielded + events)
    ensures Consistent(AfterAnswer(r, events)) && Stretch(log, r.after, Seen(AfterAnswer(r, events)))
  {
    if events == [] {
      assert Seen(r) == r.yielded + events;
    }
  }

  lemma PollKeepsExact(rows: Rows, r: Reader)
    requires RowsNumbered(rows) && Exact(rows, r)
    ensures Exact(rows, AfterPoll(rows, r))
  {
    if !r.done && r.batch == [] {
      assert NumberedLog(OfRun(rows, r.run));
      assert Seen(r) == r.yielded;
      ReplayIsSuffix(rows, r.run, r.cursor);
      StretchJoins(OfRun(rows, r.run), r.after, r.yielded);
      AnswerKeepsExact(OfRun(rows, r.run), r, Selected(rows, r.run, r.cursor));
    }
  }

  lemma YieldKeepsExact(rows: Rows, r: Reader)
    requires Exact(rows, r)
    ensures Exact(rows, AfterYield(r)) && Seen(AfterYield(r)) == Seen(r)
  {
    assert Seen(AfterYield(r)) == Seen(r);
  }

  lemma AppendKeepsExact(rows: Rows, r: Reader, draft: Draft, eventId: string, now: int)
    requires RowsNumbered(rows) && Exact(rows, r)
    ensures Exact(AfterAppend(rows, draft, eventId, now), r)
  {
    AppendKeepsNumbered(rows, draft, eventId, now);
    assert OfRun(rows, r.run) <= OfRun(AfterAppend(rows, draft, eventId, now), r.run);
  }

  lemma StepKeepsExact(sys: System, a: Action)
    requires RowsNumbered(sys.rows) && Exact(sys.rows, sys.reader)
    ensures RowsNumbered(Step(sys, a).rows) && Exact(Step(sys, a).rows, Step(sys, a).reader)
  {
    match a {
      case Append(draft, eventId, now) =>
        AppendKeepsNumbered(sys.rows, draft, eventId, now);
        AppendKeepsExact(sys.rows, sys.reader, draft, eventId, now);
      case Poll => PollKeepsExact(sys.rows, sys.reader);
      case Yield => YieldKeepsExact(sys.rows, sys.reader);
    }
  }

  lemma {:induction false} RunKeepsExact(sys: System, actions: seq<Action>)
    requires RowsNumbered(sys.rows) && Exact(sys.rows, sys.reader)
    ensures RowsNumbered(Exec(sys, actions).rows) && Exact(Exec(sys, actions).rows, Exec(sys, actions).reader)
    decreases |actions|
  {
    if actions != [] {
      StepKeepsExact(sys, actions[0]);
      RunKeepsExact(Step(sys, actions[0]), actions[1..]);
    }
  }

  lemma SeenThenRest(rows: Rows, r: Reader)
    requires RowsNumbered(rows) && Exact(rows, r)
    ensures Seen(r) + Selected(rows, r.run, Frontier(r.after, Seen(r))) == Selected(rows, r.run, r.after)
  {
    assert NumberedLog(OfRun(rows, r.run));
    ReplayIsSuffix(rows, r.run, r.after);
    ReplayIsSuffix(rows, r.run, Frontier(r.after, Seen(r)));
    StretchJoins(OfRun(rows, r.run), r.after, Seen(r));
  }

  /** Under any interleaving with appends, for any run and from any starting cursor: what was read so
      far, followed by a replay from where the reading stopped, is one replay from the start. So nothing
      is skipped, repeated or reordered, and what was yielded is a prefix of that replay. */
  lemma ReplaysConcatenate(rows: Rows, run: string, after: int, actions: seq<Action>)
    requires RowsNumbered(rows)
    ensures var sys := Exec(System(rows, Opened(run, after)), actions);
            && Seen(sys.reader) + Selected(sys.rows, sys.reader.run, Frontier(sys.reader.after, Seen(sys.reader)))
               == Selected(sys.rows, sys.reader.run, sys.reader.after)
            && sys.reader.yielded <= Selected(sys.rows, sys.reader.run, sys.reader.after)
  {
    RunKeepsExact(System(rows, Opened(run, after)), actions);
    var sys := Exec(System(rows, Opened(run, after)), actions);
    SeenThenRest(sys.rows, sys.reader);
  }

  // ----- When a subscription ends -----

  function AfterYields(r: Reader, n: nat): Reader
    decreases n
  {
    if n == 0 then r else AfterYields(AfterYield(r), n - 1)
  }

  lemma {:induction false} YieldsDrain(rows: Rows, r: Reader)
    requires Exact(rows, r)
    ensures var r' := AfterYields(r, |r.batch|);
            Exact(rows, r') && r'.batch == [] && r'.yielded == Seen(r) && r'.run == r.run && r'.after == r.after
            && (r.batch == [] ==> r' == r)
    decreases |r.batch|
  {
    if r.batch != [] {
      YieldKeepsExact(rows, r);
      YieldsDrain(rows, AfterYield(r));
    }
  }

  /** A reader that catches up with a journal nobody appends to. */
  function CaughtUp(rows: Rows, r: Reader): Reader {
    var drained := AfterYields(r, |r.batch|);
    var polled := AfterPoll(rows, drained);
    AfterYields(polled, |polled.batch|)
  }

  lemma CaughtUpReader(rows: Rows, r: Reader)
    requires RowsNumbered(rows) && Exact(rows, r)
    ensures var c := CaughtUp(rows, r);
            && Exact(rows, c) && c.batch == []
            && (!c.done ==> c.yielded == Selected(rows, r.run, r.after))
  {
    var drained := AfterYields(r, |r.batch|);
    var polled := AfterPoll(rows, drained);
    YieldsDrain(rows, r);
    PollKeepsExact(rows, drained);
    YieldsDrain(rows, polled);
    if !drained.done {
      SeenThenRest(rows, drained);
      assert Seen(drained) == drained.yielded;
      assert Seen(polled) == Selected(rows, r.run, r.after);
    }
  }

  /** The journal's events above a cursor end with a terminal event. */
  predicate LastTerminal(rows: Rows, run: string, after: int) {
    var events := Selected(rows, run, after);
    events != [] && IsTerminal(events[|events| - 1].eventType)
  }

  lemma PollReadsAll(rows: Rows, r: Reader)
    requires RowsNumbered(rows) && Exact(rows, r) && r.batch == [] && !r.done
    ensures Seen(AfterPoll(rows, r)) == Selected(rows, r.run, r.after)
  {
    SeenThenRest(rows, r);
    assert Seen(r) == r.yielded;
    var events := Selected(rows, r.run, r.cursor);
    assert events == [] ==> r.yielded == r.yielded + events;
  }

  /** An open reader that catches up has read the whole journal, and ends exactly when the journal's
      last event is terminal. */
  lemma CatchingUpEndsIff(rows: Rows, r: Reader)
    requires RowsNumbered(rows) && Exact(rows, r) && r.batch == [] && !r.done
    ensures var c := CaughtUp(rows, r);
            && Exact(rows, c) && c.batch == [] && c.run == r.run && c.after == r.after
            && c.yielded == Selected(rows, r.run, r.after)
            && (c.done <==> LastTerminal(rows, r.run, r.after))
  {
    var polled := AfterPoll(rows, r);
    PollReadsAll(rows, r);
    PollKeepsExact(rows, r);
    YieldsDrain(rows, polled);
    assert CaughtUp(rows, r) == AfterYields(polled, |polled.batch|) by {
      assert AfterYields(r, 0) == r;
    }
  }

  /** A reader that subscribes to a journal nobody appends to any more: it yields all of it, and ends
      exactly when the last event is terminal. A terminal event that others follow ends nothing. */
  lemma LateReaderEndsIff(rows: Rows, run: string, after: int)
    requires RowsNumbered(rows)
    ensures var c := CaughtUp(rows, Opened(run, after));
            c.yielded == Selected(rows, run, after) && (c.done <==> LastTerminal(rows, run, after))
  {
    CatchingUpEndsIff(rows, Opened(run, after));
  }

  /** Under any interleaving: once caught up, a reader has ended if the journal ends with a terminal event,
      and a reader that has not ended has read everything. */
  lemma CaughtUpHasEnded(rows: Rows, run: string, after: int, actions: seq<Action>)
    requires RowsNumbered(rows)
    ensures var sys := Exec(System(rows, Opened(run, after)), actions);
            var c := CaughtUp(sys.rows, sys.reader);
            && (LastTerminal(sys.rows, sys.reader.run, sys.reader.after) ==> c.done)
            && (c.done ==> c.yielded != [] && IsTerminal(c.yielded[|c.yielded| - 1].eventType))
            && (!c.done ==> c.yielded == Selected(sys.rows, sys.reader.run, sys.reader.after))
  {
    RunKeepsExact(System(rows, Opened(run, after)), actions);
    var sys := Exec(System(rows, Opened(run, after)), actions);
    CaughtUpReader(sys.rows, sys.reader);
  }

  // ----- When an interleaved subscription ends -----

  /** A poll of the loop meets a journal that ends with a terminal event. Polling again before the last
      batch is used up is not a step of the loop. */
  predicate PollsAtTerminal(sys: System, actions: seq<Action>)
    decreases |actions|
  {
    actions != [] &&
    ((actions[0].Poll? && sys.reader.batch == [] && LastTerminal(sys.rows, sys.reader.run, sys.reader.after))
     || PollsAtTerminal(Step(sys, actions[0]), actions[1..]))
  }

  /** The reader has returned, or will once it has yielded the batch it has read. */
  predicate Ends(r: Reader) {
    r.done || (r.batch != [] && r.closing)
  }

  lemma EndsOnceYielded(rows: Rows, r: Reader)
    requires Exact(rows, r)
    ensures AfterYields(r, |r.batch|).done <==> Ends(r)
  {
    YieldsDrain(rows, r);
    if r.batch != [] {
      assert Seen(r)[|Seen(r)| - 1] == r.batch[|r.batch| - 1];
    }
  }

  lemma AfterPollEnds(rows: Rows, r: Reader)
    requires RowsNumbered(rows) && Exact(rows, r) && !Ends(r)
    ensures Ends(AfterPoll(rows, r)) <==> r.batch == [] && LastTerminal(rows, r.run, r.after)
  {
    if r.batch == [] {
      PollReadsAll(rows, r);
      PollKeepsExact(rows, r);
      var polled := AfterPoll(rows, r);
      if polled.batch != [] {
        assert Seen(polled)[|Seen(polled)| - 1] == polled.batch[|polled.batch| - 1];
      } else {
        assert Seen(polled) == r.yielded;
      }
    }
  }

  lemma StepEnds(sys: System, a: Action)
    requires RowsNumbered(sys.rows) && Exact(sys.rows, sys.reader)
    ensures Step(sys, a).reader.run == sys.reader.run && Step(sys, a).reader.after == sys.reader.after
    ensures Ends(Step(sys, a).reader) <==>
            Ends(sys.reader) ||
            (a.Poll? && sys.reader.batch == [] && LastTerminal(sys.rows, sys.reader.run, sys.reader.after))
  {
    if a.Poll? {
      if !Ends(sys.reader) {
        AfterPollEnds(sys.rows, sys.reader);
      }
    }
  }

  lemma {:induction false} RunEnds(sys: System, actions: seq<Action>)
    requires RowsNumbered(sys.rows) && Exact(sys.rows, sys.reader)
    ensures Ends(Exec(sys, actions).reader) <==> Ends(sys.reader) || PollsAtTerminal(sys, actions)
    decreases |actions|
  {
    if actions != [] {
      StepEnds(sys, actions[0]);
      StepKeepsExact(sys, actions[0]);
      RunEnds(Step(sys, actions[0]), actions[1..]);
    }
  }

  /** Under any interleaving with appends, a subscription that has yielded what it has read has ended
      exactly when one of its polls met a journal whose last event is terminal: a terminal event that
      others follow before the next poll ends nothing. */
  lemma EndsIff(rows: Rows, run: string, after: int, actions: seq<Action>)
    requires RowsNumbered(rows)
    ensures var start := System(rows, Opened(run, after));
            var r := Exec(start, actions).reader;
            && (AfterYields(r, |r.batch|).done <==> PollsAtTerminal(start, actions))
            && (r.done ==> PollsAtTerminal(start, actions))
  {
    var start := System(rows, Opened(run, after));
    RunKeepsExact(start, actions);
    RunEnds(start, actions);
    EndsOnceYielded(Exec(start, actions).rows, Exec(start, actions).reader);
  }

  /** A late subscriber to a run that was interrupted and then resumed: the `run.queued` that resuming
      logs follows the terminal event, and the subscriber is left polling. */
  lemma TerminalInsideBatch(e0: Event, e1: Event)
    requires e0.identity.runId == "r" && e1.identity.runId == "r" && e0.sequence == 0 && e1.sequence == 1
    requires e0.eventType == RunInterrupted && e1.eventType == RunQueued
    ensures RowsNumbered([e0, e1])
    ensures var c := CaughtUp([e0, e1], Opened("r", -1));
            c.yielded == [e0, e1] && !c.done
  {
    TwoRows(e0, e1);
    ReplayIsSuffix([e0, e1], "r", -1);
    LateReaderEndsIff([e0, e1], "r", -1);
  }

  lemma TwoRowsOf(e0: Event, e1: Event, run: string)
    requires e0.identity.runId == e1.identity.runId
    ensures OfRun([e0, e1], run) == if run == e0.identity.runId then [e0, e1] else []
  {
    assert [e0, e1][..1] == [e0];
    assert OfRun([e0], run) == if run == e0.identity.runId then [e0] else [] by {
      assert [e0][..0] == [];
      assert OfRun([], run) == [];
    }
  }

  lemma TwoRows(e0: Event, e1: Event)
    requires e0.identity.runId == "r" && e1.identity.runId == "r" && e0.sequence == 0 && e1.sequence == 1
    ensures RowsNumbered([e0, e1]) && OfRun([e0, e1], "r") == [e0, e1]
  {
    TwoRowsOf(e0, e1, "r");
    forall run ensures NumberedLog(OfRun([e0, e1], run)) {
      TwoRowsOf(e0, e1, run);
    }
  }
}
