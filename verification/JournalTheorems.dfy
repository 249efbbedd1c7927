/** What a subscriber can rely on, for every run of the journal. */
module JournalTheorems {
  import opened Domain
  import opened EventJournal
  import opened JournalDelivery

  lemma InitialInvariant(capacity: nat)
    requires capacity >= 1
    ensures Invariant(Initial(capacity))
  {
  }

  // ----- What the logs hold -----

  /** The appends of a run of the system that are for `run`, in order. */
  function AppendsFor(actions: seq<Action>, run: string): seq<Action>
    ensures forall a | a in AppendsFor(actions, run) :: a.Append?
  {
    if actions == [] then []
    else
      (if actions[0].Append? && actions[0].draft.identity.runId == run then [actions[0]] else [])
      + AppendsFor(actions[1..], run)
  }

  /** The log from `base` on holds what the appends were given, under consecutive numbers. */
  ghost predicate Records(log: seq<Event>, base: nat, appends: seq<Action>)
    requires forall a | a in appends :: a.Append?
  {
    |log| == base + |appends| && forall i | base <= i < |log| :: RecordsOne(log[i], i, appends[i - base])
  }

  ghost predicate RecordsOne(e: Event, sequence: int, a: Action)
    requires a.Append?
  {
    && e.sequence == sequence && e.eventId == a.eventId && e.timestamp == a.now
    && e.identity == a.draft.identity && e.eventType == a.draft.eventType && e.data == a.draft.data
  }

  lemma RecordsExtend(log: seq<Event>, base: nat, a: Action, rest: seq<Action>)
    requires a.Append? && forall b | b in rest :: b.Append?
    requires base < |log| && RecordsOne(log[base], base, a) && Records(log, base + 1, rest)
    ensures Records(log, base, [a] + rest)
  {
    forall i | base <= i < |log| ensures RecordsOne(log[i], i, ([a] + rest)[i - base]) {
      assert i > base ==> ([a] + rest)[i - base] == rest[i - base - 1];
    }
  }

  lemma StepLog(sys: System, a: Action, run: string)
    requires Sane(sys)
    ensures var log, log' := sys.journal.Log(run), Step(sys, a).journal.Log(run);
            if a.Append? && a.draft.identity.runId == run
            then log' == log + [Event(a.eventId, |log|, a.now, a.draft.identity, a.draft.eventType, a.draft.data)]
            else log' == log
  {
  }

  lemma {:induction false} RunRecords(sys: System, actions: seq<Action>, run: string)
    requires Sane(sys)
    ensures var log, log' := sys.journal.Log(run), Exec(sys, actions).journal.Log(run);
            log <= log' && Records(log', |log|, AppendsFor(actions, run))
    decreases |actions|
  {
    if actions != [] {
      var next := Step(sys, actions[0]);
      StepLog(sys, actions[0], run);
      RunRecords(next, actions[1..], run);
      var log, log' := sys.journal.Log(run), Exec(sys, actions).journal.Log(run);
      var rest := AppendsFor(actions[1..], run);
      if actions[0].Append? && actions[0].draft.identity.runId == run {
        assert log'[|log|] == next.journal.Log(run)[|log|];
        RecordsExtend(log', |log|, actions[0], rest);
      } else {
        assert AppendsFor(actions, run) == rest;
      }
    }
  }

  /** Under every interleaving a run's log is the list of the appends for it, in order: each with its
      draft's identity, type and data, its event identifier and its time, numbered from 0. */
  lemma LogIsAppends(capacity: nat, actions: seq<Action>, run: string)
    requires capacity >= 1
    ensures var log, appends := Exec(Initial(capacity), actions).journal.Log(run), AppendsFor(actions, run);
            && |log| == |appends|
            && forall i | 0 <= i < |log| ::
                 && log[i].sequence == i
                 && log[i].identity == appends[i].draft.identity
                 && log[i].eventType == appends[i].draft.eventType
                 && log[i].data == appends[i].draft.data
                 && log[i].eventId == appends[i].eventId
                 && log[i].timestamp == appends[i].now
  {
    RunRecords(Initial(capacity), actions, run);
    var log := Exec(Initial(capacity), actions).journal.Log(run);
    assert Initial(capacity).journal.Log(run) == [];
    assert forall i | 0 <= i < |log| :: RecordsOne(log[i], i, AppendsFor(actions, run)[i]);
  }

  /** An append ends the stream of a listening subscriber with room in its queue exactly when the type
      is one of the five terminal ones, as a member or as a plain string. */
  lemma TerminalAppendCloses(sys: System, draft: Draft, eventId: string, now: int, id: nat)
    requires Sane(sys) && Listens(sys.journal, draft.identity.runId, id) && id in sys.subs
    requires |sys.journal.queues[id]| < sys.capacity
    ensures var t := draft.eventType;
            !Listens(Step(sys, Append(draft, eventId, now)).journal, draft.identity.runId, id) <==>
            || t == RunCompleted || t == RunCancelled || t == RunFailed || t == RunTimeout || t == RunInterrupted
            || t == Text("run.completed") || t == Text("run.cancelled") || t == Text("run.failed")
            || t == Text("run.timeout") || t == Text("run.interrupted")
  {
    var e := Stamp(draft, |sys.journal.Log(draft.identity.runId)|, eventId, now);
    AppendEffect(sys.journal, sys.capacity, e, draft.identity.runId, id);
  }

  // ----- At most one hole of at most two events -----

  /** Whatever the interleaving, a subscriber has yielded its log from its base with at most one hole
      of at most two events; and when its stream ended, the hole is the one `Explained` describes. */
  lemma DeliveryTheorem(capacity: nat, actions: seq<Action>, id: nat)
    requires capacity >= 1 && id in Exec(Initial(capacity), actions).subs
    ensures var sys := Exec(Initial(capacity), actions);
            var s := sys.subs[id];
            var log := sys.journal.Log(s.run);
            && 0 <= s.Base() <= s.attachedAt <= |log|
            && SomeDelivery(log, s.Base(), s.yielded)
            && (s.outcome == Ended ==>
                  if s.terminal then s.yielded == log[s.Base()..s.attachedAt]
                  else ExplainedDelivery(log, capacity, s.Base(), s.yielded))
  {
    var sys := Exec(Initial(capacity), actions);
    InitialInvariant(capacity);
    ReachableInvariant(Initial(capacity), actions);
    assert TrackedIn(sys, id);
    var s := sys.subs[id];
    YieldedIsDelivery(sys.journal.Log(s.run), capacity, s, sys.journal.queues[id], Listens(sys.journal, s.run, id));
  }

  /** The same in terms of sequence numbers: one run's events, strictly increasing, none below the
      base, and at most two numbers skipped in all. */
  lemma DeliveredInOrder(log: seq<Event>, run: string, base: int, x: seq<Event>)
    requires IsLogOf(log, run) && SomeDelivery(log, base, x)
    ensures forall i | 0 <= i < |x| ::
              x[i].identity.runId == run && base + i <= x[i].sequence <= base + i + 2 && x[i] in log
    ensures forall i, j | 0 <= i < j < |x| :: x[i].sequence < x[j].sequence
    ensures forall i, j | 0 <= i < j < |x| :: x[j].sequence - x[i].sequence <= j - i + 2
  {
    var hole, width, end :| Delivery(log, base, x, hole, width, end);
    forall i | 0 <= i < |x|
      ensures x[i] == log[if i < hole - base then base + i else base + width + i]
    {
    }
  }

  /** Overflow bookkeeping: no overflowed queue listens, and no empty subscriber set survives. */
  lemma {:induction false} ReachableWellFormed(sys: System, actions: seq<Action>)
    requires Invariant(sys) && WellFormed(sys.journal, sys.capacity)
    ensures WellFormed(Exec(sys, actions).journal, sys.capacity)
    decreases |actions|
  {
    if actions != [] {
      StepKeepsWellFormed(sys, actions[0]);
      StepKeepsInvariant(sys, actions[0]);
      ReachableWellFormed(Step(sys, actions[0]), actions[1..]);
    }
  }

  lemma StepKeepsWellFormed(sys: System, a: Action)
    requires Sane(sys) && WellFormed(sys.journal, sys.capacity)
    ensures WellFormed(Step(sys, a).journal, sys.capacity)
  {
    if a.Append? {
      AppendKeepsWellFormed(sys.journal, sys.capacity,
        Stamp(a.draft, |sys.journal.Log(a.draft.identity.runId)|, a.eventId, a.now));
    } else if a.Subscribe? {
      if a.id !in sys.subs && a.after >= -1 {
        RegisterKeepsWellFormed(sys.journal, sys.capacity, a.run, a.id);
      }
    } else if a.id in sys.subs && sys.subs[a.id].outcome == Running {
      var s, items := sys.subs[a.id], sys.journal.queues[a.id];
      var items' := if a.Next? && |s.yielded| >= |s.initial| && !s.terminal && items != [] then items[1..] else items;
      var popped := sys.journal.(queues := sys.journal.queues[a.id := items']);
      assert sys.journal.queues[a.id := items] == sys.journal.queues;
      PopKeepsWellFormed(sys.journal, sys.capacity, a.id, items');
      DetachKeepsWellFormed(popped, sys.capacity, s.run, a.id);
    }
  }

  lemma PopKeepsWellFormed(st: State<nat>, capacity: nat, id: nat, items: seq<Item>)
    requires WellFormed(st, capacity) && id in st.queues && |items| <= capacity
    ensures WellFormed(st.(queues := st.queues[id := items]), capacity)
  {
  }

  /** A subscription that has ended or was abandoned. */
  ghost predicate Gone(sys: System, id: nat) {
    id in sys.subs && sys.subs[id].outcome != Running
  }

  ghost predicate NoTrace(sys: System, id: nat) {
    !Overflowed(sys.journal, id) && forall run :: !Listens(sys.journal, run, id)
  }

  lemma LeavingLeavesNothing(sys: System, a: Action, id: nat)
    requires Invariant(sys) && id in sys.subs && sys.subs[id].outcome == Running && Gone(Step(sys, a), id)
    ensures NoTrace(Step(sys, a), id)
  {
    assert TrackedIn(sys, id);
    if a.Next? {
      NextAdvances(sys, id);
    } else {
      AbandonAdvances(sys, id);
    }
    assert Step(sys, a).journal.overflowed == sys.journal.overflowed - {id};
  }

  lemma GoneStays(sys: System, a: Action, id: nat)
    requires Invariant(sys) && Gone(sys, id) && NoTrace(sys, id)
    ensures Gone(Step(sys, a), id) && NoTrace(Step(sys, a), id)
  {
    var next := Step(sys, a);
    if a.Append? {
      var e := Stamp(a.draft, |sys.journal.Log(a.draft.identity.runId)|, a.eventId, a.now);
      AppendEffect(sys.journal, sys.capacity, e, e.identity.runId, id);
      forall run ensures !Listens(next.journal, run, id) {
        AppendEffect(sys.journal, sys.capacity, e, run, id);
      }
    } else if a.id != id {
      OthersChangeNothing(sys, a, id);
    }
  }

  /** Whatever happens, a subscription that has ended or was abandoned leaves nothing behind: its queue is
      no subscriber of any run and is not marked as overflowed. */
  lemma {:induction false} GoneWithoutTrace(sys: System, actions: seq<Action>, id: nat)
    requires Invariant(sys) && (Gone(sys, id) ==> NoTrace(sys, id))
    ensures Gone(Exec(sys, actions), id) ==> NoTrace(Exec(sys, actions), id)
    decreases |actions|
  {
    if actions != [] {
      var next := Step(sys, actions[0]);
      StepKeepsInvariant(sys, actions[0]);
      if Gone(sys, id) {
        GoneStays(sys, actions[0], id);
      } else if Gone(next, id) {
        LeavingLeavesNothing(sys, actions[0], id);
      }
      GoneWithoutTrace(next, actions[1..], id);
    }
  }

  // ----- The cursor is honoured exactly when it is not ahead of the log -----

  ghost predicate AboveCursor(sys: System, id: nat) {
    id in sys.subs ==>
      forall i | 0 <= i < |sys.subs[id].yielded| :: sys.subs[id].yielded[i].sequence > sys.subs[id].after
  }

  /** A subscription's parameters never change. */
  lemma {:induction false} SubscriberPersists(sys: System, actions: seq<Action>, id: nat)
    requires Sane(sys) && id in sys.subs
    ensures var final := Exec(sys, actions);
            && id in final.subs
            && final.subs[id].run == sys.subs[id].run
            && final.subs[id].after == sys.subs[id].after
            && final.subs[id].attachedAt == sys.subs[id].attachedAt
    decreases |actions|
  {
    if actions != [] {
      SubscriberPersists(Step(sys, actions[0]), actions[1..], id);
    }
  }

  lemma CursorBehindIsHonoured(sys: System, id: nat, run: string, after: int, actions: seq<Action>)
    requires Invariant(sys) && id !in sys.subs && -1 <= after < |sys.journal.Log(run)|
    ensures AboveCursor(Exec(Step(sys, Subscribe(id, run, after)), actions), id)
  {
    var start := Step(sys, Subscribe(id, run, after));
    var final := Exec(start, actions);
    SubscribeKeepsInvariant(sys, id, run, after);
    ReachableInvariant(start, actions);
    SubscriberPersists(start, actions, id);
    assert TrackedIn(final, id);
    var s := final.subs[id];
    var log := final.journal.Log(run);
    YieldedIsDelivery(log, final.capacity, s, final.journal.queues[id], Listens(final.journal, run, id));
    DeliveredInOrder(log, run, s.Base(), s.yielded);
  }

  /** A subscriber ahead of the log has an empty snapshot and listens. */
  lemma AheadListens(sys: System, id: nat, run: string, after: int)
    requires Invariant(sys) && id !in sys.subs && after >= |sys.journal.Log(run)|
    ensures var next := Step(sys, Subscribe(id, run, after));
            && next.subs[id] == Subscriber(run, after, |sys.journal.Log(run)|, [], false, [], Running)
            && next.journal.queues[id] == [] && next.journal.Log(run) == sys.journal.Log(run)
            && Listens(next.journal, run, id) && !Overflowed(next.journal, id)
  {
    ReplayIsSuffix(sys.journal.Log(run), 0, after);
    assert !Overflowed(sys.journal, id);
  }

  /** A live event put in an empty queue is the next thing the subscriber yields. */
  lemma FirstLiveEvent(sys: System, id: nat, e: Event)
    requires Sane(sys) && id in sys.subs && sys.journal.queues[id] == []
    requires sys.subs[id].outcome == Running && sys.subs[id].initial == [] && !sys.subs[id].terminal
    requires Listens(sys.journal, e.identity.runId, id) && !Overflowed(sys.journal, id) && !IsTerminal(e.eventType)
    ensures var next := Step(sys.(journal := AfterAppend(sys.journal, sys.capacity, e)), Next(id));
            next.subs[id] == sys.subs[id].(yielded := sys.subs[id].yielded + [e])
  {
    AppendEffect(sys.journal, sys.capacity, e, e.identity.runId, id);
    NextAdvances(sys.(journal := AfterAppend(sys.journal, sys.capacity, e)), id);
  }

  lemma ExecTwo(sys: System, a: Action, b: Action)
    requires Sane(sys)
    ensures Exec(sys, [a, b]) == Step(Step(sys, a), b)
  {
    assert [a, b][1..] == [b] && [b][1..] == [];
    assert Exec(Step(Step(sys, a), b), []) == Step(Step(sys, a), b);
  }

  /** A cursor at or past the end of the log: the next event reaches the subscriber although its
      sequence number is not above the cursor. */
  lemma CursorAheadIsNot(sys: System, id: nat, run: string, after: int)
    requires Invariant(sys) && id !in sys.subs && after >= |sys.journal.Log(run)|
    ensures var draft := Draft(Identity(run, None), Custom, Null);
            !AboveCursor(Exec(Step(sys, Subscribe(id, run, after)), [Append(draft, "", 0), Next(id)]), id)
  {
    var draft := Draft(Identity(run, None), Custom, Null);
    var actions := [Append(draft, "", 0), Next(id)];
    var start := Step(sys, Subscribe(id, run, after));
    AheadListens(sys, id, run, after);
    FirstLiveEvent(start, id, Stamp(draft, |start.journal.Log(run)|, "", 0));
    var final := Step(Step(start, actions[0]), actions[1]);
    ExecTwo(start, actions[0], actions[1]);
    assert final.subs[id].yielded[0].sequence <= after;
  }

  lemma CursorHonouredIff(sys: System, id: nat, run: string, after: int)
    requires Invariant(sys) && id !in sys.subs && after >= -1
    ensures (forall actions :: AboveCursor(Exec(Step(sys, Subscribe(id, run, after)), actions), id))
            <==> after < |sys.journal.Log(run)|
  {
    if after < |sys.journal.Log(run)| {
      forall actions ensures AboveCursor(Exec(Step(sys, Subscribe(id, run, after)), actions), id) {
        CursorBehindIsHonoured(sys, id, run, after, actions);
      }
    } else {
      CursorAheadIsNot(sys, id, run, after);
    }
  }

  // ----- A subscriber that keeps up misses nothing -----

  /** Every event of `id`'s run finds room in its queue, a terminal one also for the end marker. */
  ghost predicate RoomFor(sys: System, a: Action, id: nat)
    requires Sane(sys)
  {
    a.Append? && id in sys.subs && Listens(sys.journal, a.draft.identity.runId, id) ==>
      |sys.journal.queues[id]| + (if IsTerminal(a.draft.eventType) then 2 else 1) <= sys.capacity
  }

  ghost predicate RoomAlways(sys: System, actions: seq<Action>, id: nat)
    requires Sane(sys)
    decreases |actions|
  {
    actions != [] ==> RoomFor(sys, actions[0], id) && RoomAlways(Step(sys, actions[0]), actions[1..], id)
  }

  /** `x` is the log from `base` up to and including its first terminal event. */
  ghost predicate UpToTerminal(log: seq<Event>, base: int, x: seq<Event>) {
    && 0 <= base && x != [] && base + |x| <= |log|
    && x == log[base..base + |x|]
    && IsTerminal(x[|x| - 1].eventType)
    && (forall i | 0 <= i < |x| - 1 :: !IsTerminal(x[i].eventType))
  }

  /** Nothing was lost when the stream was closed. */
  ghost predicate Lossless(sys: System, id: nat)
    requires Sane(sys)
  {
    id in sys.subs ==>
      var s := sys.subs[id];
      LosslessFor(sys.journal.Log(s.run), s, sys.journal.queues[id], Listens(sys.journal, s.run, id))
  }

  ghost predicate LosslessFor(log: seq<Event>, s: Subscriber, items: seq<Item>, listening: bool) {
    && (s.outcome == Running && !s.terminal && !listening ==> UpToTerminal(log, s.Base(), Flow(s, items)))
    && (s.outcome == Ended && !s.terminal ==> UpToTerminal(log, s.Base(), s.yielded))
  }

  lemma ReadKeepsLossless(log: seq<Event>, capacity: nat, s: Subscriber, items: seq<Item>, listening: bool)
    requires Tracked(log, capacity, s, items, listening) && s.outcome == Running
    requires LosslessFor(log, s, items, listening)
    ensures var (s', items') := Read(s, items);
            LosslessFor(log, s', items', listening && s'.outcome == Running)
  {
    ReadKeepsFlow(log, s, items);
    if listening && items != [] {
      assert items[0].Live?;
    }
  }

  lemma UpToTerminalGrows(log: seq<Event>, e: Event, base: int, x: seq<Event>)
    requires UpToTerminal(log, base, x)
    ensures UpToTerminal(log + [e], base, x)
  {
    SliceOfPrefix(log, log + [e], base, base + |x|);
  }

  /** A terminal event with room to spare completes the flow of an open subscriber. */
  lemma TerminalCompletes(log: seq<Event>, capacity: nat, e: Event, s: Subscriber, items: seq<Item>)
    requires |items| + 2 <= capacity && IsTerminal(e.eventType)
    requires Shape(log, s) && Open(log, s, items)
    ensures UpToTerminal(log + [e], s.Base(), Flow(s, Delivered(items, capacity, e, false)))
  {
    var put, later := items + [Live(e)], log + [e];
    AppendKeepsOpen(log, capacity, e, s, items);
    LiveEventsClosed(put, []);
    assert Delivered(items, capacity, e, false) == put + [Item.End] + [];
    var x := Flow(s, Delivered(items, capacity, e, false));
    assert x == later[s.Base()..] == log[s.Base()..] + [e];
    forall i | 0 <= i < |x| - 1 ensures !IsTerminal(x[i].eventType) {
      assert x[i] == log[s.Base()..][i];
    }
  }

  lemma StepKeepsLossless(sys: System, a: Action, id: nat)
    requires Invariant(sys) && Lossless(sys, id) && RoomFor(sys, a, id)
    ensures Lossless(Step(sys, a), id)
  {
    if a.Append? {
      if id in sys.subs {
        AppendLossless(sys, Stamp(a.draft, |sys.journal.Log(a.draft.identity.runId)|, a.eventId, a.now), id);
      }
    } else if a.Subscribe? {
      if a.id !in sys.subs && a.after >= -1 {
        var run := if id in sys.subs then sys.subs[id].run else a.run;
        SubscribeEffect(sys, a.id, a.run, a.after, run, id);
      }
    } else if a.id in sys.subs && sys.subs[a.id].outcome == Running {
      if a.Next? {
        NextLossless(sys, a.id, id);
      } else {
        AbandonAdvances(sys, a.id);
      }
    }
  }

  lemma OwnNextLossless(sys: System, id: nat)
    requires Invariant(sys) && Lossless(sys, id)
    requires id in sys.subs && sys.subs[id].outcome == Running
    ensures Lossless(Step(sys, Next(id)), id)
  {
    var s, items := sys.subs[id], sys.journal.queues[id];
    assert TrackedIn(sys, id);
    ReadKeepsLossless(sys.journal.Log(s.run), sys.capacity, s, items, Listens(sys.journal, s.run, id));
    NextAdvances(sys, id);
  }

  lemma NextLossless(sys: System, reader: nat, id: nat)
    requires Invariant(sys) && Lossless(sys, id)
    requires reader in sys.subs && sys.subs[reader].outcome == Running
    ensures Lossless(Step(sys, Next(reader)), id)
  {
    if reader == id {
      OwnNextLossless(sys, id);
    } else {
      NextAdvances(sys, reader);
    }
  }

  lemma AppendLossless(sys: System, e: Event, id: nat)
    requires Invariant(sys) && Lossless(sys, id) && id in sys.subs
    requires Listens(sys.journal, e.identity.runId, id) ==>
               |sys.journal.queues[id]| + (if IsTerminal(e.eventType) then 2 else 1) <= sys.capacity
    ensures Lossless(sys.(journal := AfterAppend(sys.journal, sys.capacity, e)), id)
  {
    assert TrackedIn(sys, id);
    var s, items := sys.subs[id], sys.journal.queues[id];
    var log := sys.journal.Log(s.run);
    AppendEffect(sys.journal, sys.capacity, e, s.run, id);
    if s.run == e.identity.runId {
      if Listens(sys.journal, s.run, id) {
        if IsTerminal(e.eventType) {
          TerminalCompletes(log, sys.capacity, e, s, items);
        }
      } else if s.outcome == Running && !s.terminal {
        UpToTerminalGrows(log, e, s.Base(), Flow(s, items));
      } else if s.outcome == Ended && !s.terminal {
        UpToTerminalGrows(log, e, s.Base(), s.yielded);
      }
    }
  }

  lemma {:induction false} RunKeepsLossless(sys: System, actions: seq<Action>, id: nat)
    requires Invariant(sys) && Lossless(sys, id) && RoomAlways(sys, actions, id)
    ensures Lossless(Exec(sys, actions), id)
    decreases |actions|
  {
    if actions != [] {
      StepKeepsLossless(sys, actions[0], id);
      StepKeepsInvariant(sys, actions[0]);
      RunKeepsLossless(Step(sys, actions[0]), actions[1..], id);
    }
  }

  /** The first terminal event after a snapshot without one was appended after the snapshot. */
  lemma UpToTerminalIsReplayPrefix(log: seq<Event>, run: string, after: int, attachedAt: nat, x: seq<Event>)
    requires IsLogOf(log, run) && -1 <= after < attachedAt <= |log|
    requires !HasTerminal(log[after + 1..attachedAt]) && UpToTerminal(log, after + 1, x)
    ensures x <= Replayed(log, after) && attachedAt < after + 1 + |x|
  {
    ReplayIsSuffix(log, 0, after);
    assert x == log[after + 1..][..|x|];
    assert x[|x| - 1] == log[after + |x|];
    forall i | after < i < attachedAt ensures !IsTerminal(log[i].eventType) {
      assert log[after + 1..attachedAt][i - after - 1] == log[i];
    }
  }

  /** A subscriber whose queue always has room yields, when its stream ends, exactly what a replay
      from its cursor gives up to the first terminal event appended after it subscribed. */
  lemma KeepingUpIsExact(capacity: nat, actions: seq<Action>, id: nat)
    requires capacity >= 1 && RoomAlways(Initial(capacity), actions, id)
    requires id in Exec(Initial(capacity), actions).subs
    requires var s := Exec(Initial(capacity), actions).subs[id];
             s.outcome == Ended && !s.terminal && s.after < s.attachedAt
    ensures var sys := Exec(Initial(capacity), actions);
            var s := sys.subs[id];
            var log := sys.journal.Log(s.run);
            && UpToTerminal(log, s.after + 1, s.yielded)
            && s.yielded <= Replayed(log, s.after)
            && s.attachedAt < s.after + 1 + |s.yielded|
  {
    var sys := Exec(Initial(capacity), actions);
    InitialInvariant(capacity);
    RunKeepsLossless(Initial(capacity), actions, id);
    ReachableInvariant(Initial(capacity), actions);
    assert TrackedIn(sys, id);
    var s := sys.subs[id];
    UpToTerminalIsReplayPrefix(sys.journal.Log(s.run), s.run, s.after, s.attachedAt, s.yielded);
  }

  // ----- A closed stream ends -----

  function Repeated(a: Action, n: nat): seq<Action> {
    if n == 0 then [] else [a] + Repeated(a, n - 1)
  }

  /** What is left to yield before the stream ends. */
  ghost function Remaining(s: Subscriber, items: seq<Item>): nat {
    if |s.yielded| < |s.initial| then |s.initial| - |s.yielded| + |LiveEvents(items)| else |LiveEvents(items)|
  }

  /** One read of a closed stream takes the next event of its flow, or ends it. */
  lemma ClosedRead(log: seq<Event>, capacity: nat, s: Subscriber, items: seq<Item>)
    requires Tracked(log, capacity, s, items, false) && s.outcome == Running
    ensures var (s', items') := Read(s, items);
            var n := Remaining(s, items);
            && (n > 0 ==> s'.outcome == Running && Remaining(s', items') == n - 1 && Flow(s', items') == Flow(s, items))
            && (n == 0 ==> s'.outcome == Ended && s'.yielded == Flow(s, items))
  {
    ReadKeepsFlow(log, s, items);
  }

  lemma {:induction false} EndedStays(sys: System, id: nat, actions: seq<Action>)
    requires Sane(sys) && id in sys.subs && sys.subs[id].outcome != Running
    ensures id in Exec(sys, actions).subs && Exec(sys, actions).subs[id] == sys.subs[id]
    decreases |actions|
  {
    if actions != [] {
      EndedStays(Step(sys, actions[0]), id, actions[1..]);
    }
  }

  lemma ClosedStep(sys: System, id: nat)
    requires Invariant(sys) && id in sys.subs && sys.subs[id].outcome == Running
    requires !Listens(sys.journal, sys.subs[id].run, id)
    ensures var s, items, next := sys.subs[id], sys.journal.queues[id], Step(sys, Next(id));
            && Invariant(next) && id in next.subs && next.subs[id].run == s.run
            && !Listens(next.journal, s.run, id)
            && (if Remaining(s, items) > 0
                then next.subs[id].outcome == Running
                     && Remaining(next.subs[id], next.journal.queues[id]) == Remaining(s, items) - 1
                     && Flow(next.subs[id], next.journal.queues[id]) == Flow(s, items)
                else next.subs[id].outcome == Ended && next.subs[id].yielded == Flow(s, items))
  {
    var s, items := sys.subs[id], sys.journal.queues[id];
    assert TrackedIn(sys, id);
    ClosedRead(sys.journal.Log(s.run), sys.capacity, s, items);
    NextAdvances(sys, id);
    NextKeepsInvariant(sys, id);
  }

  /** Once closed, a stream needs only reads: it yields the rest of its flow and ends. */
  lemma {:induction false} ClosedStreamEnds(sys: System, id: nat)
    requires Invariant(sys) && id in sys.subs && sys.subs[id].outcome == Running
    requires !Listens(sys.journal, sys.subs[id].run, id)
    ensures var n := Remaining(sys.subs[id], sys.journal.queues[id]) + 1;
            var subs := Exec(sys, Repeated(Next(id), n)).subs;
            id in subs && subs[id].outcome == Ended && subs[id].yielded == Flow(sys.subs[id], sys.journal.queues[id])
    decreases Remaining(sys.subs[id], sys.journal.queues[id])
  {
    var next, n := Step(sys, Next(id)), Remaining(sys.subs[id], sys.journal.queues[id]);
    ClosedStep(sys, id);
    assert Repeated(Next(id), n + 1)[1..] == Repeated(Next(id), n);
    if n > 0 {
      ClosedStreamEnds(next, id);
    } else {
      EndedStays(next, id, []);
    }
  }

  // ----- Subscribers do not disturb each other or the journal -----

  predicate Concerns(a: Action, id: nat) {
    a.Append? || a.id == id
  }

  function Concerning(actions: seq<Action>, id: nat): seq<Action> {
    if actions == [] then []
    else (if Concerns(actions[0], id) then [actions[0]] else []) + Concerning(actions[1..], id)
  }

  /** Two systems that look the same to subscriber `id`. */
  ghost predicate SameFor(a: System, b: System, id: nat)
    requires Sane(a) && Sane(b)
  {
    && a.capacity == b.capacity && a.journal.logs == b.journal.logs
    && (id in a.subs <==> id in b.subs)
    && (id in a.subs ==> a.subs[id] == b.subs[id] && a.journal.queues[id] == b.journal.queues[id])
    && (Overflowed(a.journal, id) <==> Overflowed(b.journal, id))
    && (forall run :: Listens(a.journal, run, id) == Listens(b.journal, run, id))
  }

  lemma OthersChangeNothing(sys: System, a: Action, id: nat)
    requires Sane(sys) && Registered(sys) && !Concerns(a, id)
    ensures SameFor(sys, Step(sys, a), id)
  {
    var next := Step(sys, a);
    forall run ensures Listens(next.journal, run, id) == Listens(sys.journal, run, id) {
      if a.Subscribe? {
        if a.id !in sys.subs && a.after >= -1 {
          SubscribeEffect(sys, a.id, a.run, a.after, run, id);
        }
      } else if a.id in sys.subs && sys.subs[a.id].outcome == Running {
        if a.Next? { NextAdvances(sys, a.id); } else { AbandonAdvances(sys, a.id); }
      }
    }
    if !a.Subscribe? && a.id in sys.subs && sys.subs[a.id].outcome == Running {
      OverflowLocal(sys, a, id);
    }
  }

  lemma OverflowLocal(sys: System, a: Action, id: nat)
    requires Sane(sys) && (a.Next? || a.Abandon?) && a.id != id
    ensures Overflowed(Step(sys, a).journal, id) <==> Overflowed(sys.journal, id)
    ensures id in sys.subs ==> id in Step(sys, a).subs && Step(sys, a).subs[id] == sys.subs[id]
    ensures id in sys.subs ==> Step(sys, a).journal.queues[id] == sys.journal.queues[id]
  {
  }

  lemma OwnActionsAgree(x: System, y: System, a: Action, id: nat)
    requires Sane(x) && Sane(y) && Registered(x) && Registered(y) && SameFor(x, y, id) && Concerns(a, id)
    ensures SameFor(Step(x, a), Step(y, a), id)
  {
    if a.Append? {
      var run := a.draft.identity.runId;
      var e := Stamp(a.draft, |x.journal.Log(run)|, a.eventId, a.now);
      AppendAgrees(x, y, e, id);
    } else if a.Subscribe? {
      if id !in x.subs && a.after >= -1 {
        forall run ensures Listens(Step(x, a).journal, run, id) == Listens(Step(y, a).journal, run, id) {
          SubscribeEffect(x, id, a.run, a.after, run, id);
          SubscribeEffect(y, id, a.run, a.after, run, id);
        }
      }
    } else if id in x.subs && x.subs[id].outcome == Running {
      if a.Next? {
        NextAdvances(x, id);
        NextAdvances(y, id);
      } else {
        AbandonAdvances(x, id);
        AbandonAdvances(y, id);
      }
    }
  }

  lemma AppendAddsNoListener(st: State<nat>, capacity: nat, e: Event, run: string, id: nat)
    requires capacity >= 1
    ensures Listens(AfterAppend(st, capacity, e), run, id) ==> Listens(st, run, id)
  {
  }

  lemma AppendAgrees(x: System, y: System, e: Event, id: nat)
    requires Sane(x) && Sane(y) && Registered(x) && Registered(y) && SameFor(x, y, id)
    ensures SameFor(x.(journal := AfterAppend(x.journal, x.capacity, e)),
      y.(journal := AfterAppend(y.journal, y.capacity, e)), id)
  {
    if id in x.subs {
      forall run
        ensures Listens(AfterAppend(x.journal, x.capacity, e), run, id)
          == Listens(AfterAppend(y.journal, y.capacity, e), run, id)
      {
        AppendEffect(x.journal, x.capacity, e, run, id);
        AppendEffect(y.journal, y.capacity, e, run, id);
      }
      AppendEffect(x.journal, x.capacity, e, e.identity.runId, id);
      AppendEffect(y.journal, y.capacity, e, e.identity.runId, id);
    } else {
      forall run
        ensures !Listens(AfterAppend(x.journal, x.capacity, e), run, id)
        ensures !Listens(AfterAppend(y.journal, y.capacity, e), run, id)
      {
        AppendAddsNoListener(x.journal, x.capacity, e, run, id);
        AppendAddsNoListener(y.journal, y.capacity, e, run, id);
      }
    }
  }

  /** Removing every action of the other subscribers changes neither the logs nor anything that
      subscriber `id` sees: a slow or absent reader is invisible to the rest. */
  lemma {:induction false} NonInterference(x: System, y: System, actions: seq<Action>, id: nat)
    requires Invariant(x) && Invariant(y) && SameFor(x, y, id)
    ensures SameFor(Exec(x, actions), Exec(y, Concerning(actions, id)), id)
    decreases |actions|
  {
    if actions != [] {
      var a := actions[0];
      StepKeepsInvariant(x, a);
      StepKeepsInvariant(y, a);
      if Concerns(a, id) {
        OwnActionsAgree(x, y, a, id);
        assert Concerning(actions, id)[1..] == Concerning(actions[1..], id);
        NonInterference(Step(x, a), Step(y, a), actions[1..], id);
      } else {
        OthersChangeNothing(x, a, id);
        assert Concerning(actions, id) == Concerning(actions[1..], id);
        NonInterference(Step(x, a), y, actions[1..], id);
      }
    }
  }
}
