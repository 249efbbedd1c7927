/** Live delivery under every interleaving of appends, subscriptions, reads and abandonments.

    A system is the journal's state together with the suspended generators. Each action is one
    stretch of code between two suspension points; an action that is not enabled changes nothing,
    so a run is any finite sequence of actions. */
module JournalDelivery {
  import opened Domain
  import opened EventJournal

  datatype Outcome = Running | Ended | Abandoned

  /** One `subscribe` generator. `attachedAt` records the length of its log when it subscribed. */
  datatype Subscriber = Subscriber(
    run: string, after: int, attachedAt: nat, initial: seq<Event>, terminal: bool,
    yielded: seq<Event>, outcome: Outcome)
  {
    /** Number of initial events already yielded. */
    function Position(): nat {
      if |yielded| < |initial| then |yielded| else |initial|
    }

    /** The index of the first event the subscriber is owed. A cursor ahead of the log is not
        honoured: such a subscriber gets every event appended after it subscribed. */
    function Base(): int {
      if after + 1 <= attachedAt then after + 1 else attachedAt
    }
  }

  datatype System = System(capacity: nat, journal: State<nat>, subs: map<nat, Subscriber>)

  datatype Action =
    | Append(draft: Draft, eventId: string, now: int)
    | Subscribe(id: nat, run: string, after: int)
    | Next(id: nat)
    | Abandon(id: nat)

  ghost function Initial(capacity: nat): System {
    System(capacity, State(map[], map[], {}, map[]), map[])
  }

  ghost predicate Sane(sys: System) {
    sys.capacity >= 1 && sys.journal.queues.Keys == sys.subs.Keys
  }

  function NewSubscriber(log: seq<Event>, run: string, after: int): Subscriber {
    var initial := Replayed(log, after);
    Subscriber(run, after, |log|, initial, HasTerminal(initial), [], Running)
  }

  ghost function Step(sys: System, a: Action): (next: System)
    requires Sane(sys)
    ensures Sane(next) && next.capacity == sys.capacity
  {
    match a
    case Append(draft, eventId, now) =>
      var e := Stamp(draft, |sys.journal.Log(draft.identity.runId)|, eventId, now);
      sys.(journal := AfterAppend(sys.journal, sys.capacity, e))
    case Subscribe(id, run, after) =>
      if id in sys.subs || after < -1 then sys
      else
        var s := NewSubscriber(sys.journal.Log(run), run, after);
        var created := Created(sys.journal, id);
        sys.(journal := if s.terminal then created else AfterRegister(created, run, id),
             subs := sys.subs[id := s])
    case Next(id) =>
      if id !in sys.subs || sys.subs[id].outcome != Running then sys
      else
        var s := sys.subs[id];
        var (journal, r) := Resume(sys.journal, s.run, id, s.initial, s.terminal, s.Position());
        var s' := match r
                  case Yielded(e) => s.(yielded := s.yielded + [e])
                  case Waiting => s
                  case Finished => s.(outcome := Ended);
        sys.(journal := journal, subs := sys.subs[id := s'])
    case Abandon(id) =>
      if id !in sys.subs || sys.subs[id].outcome != Running then sys
      else
        sys.(journal := AfterDetach(sys.journal, sys.subs[id].run, id),
             subs := sys.subs[id := sys.subs[id].(outcome := Abandoned)])
  }

  ghost function Exec(sys: System, actions: seq<Action>): (final: System)
    requires Sane(sys)
    ensures Sane(final) && final.capacity == sys.capacity
    decreases |actions|
  {
    if actions == [] then sys else Exec(Step(sys, actions[0]), actions[1..])
  }

  // ----- What a subscriber receives -----

  /** `x` is the log from `base` to `end` with a hole of `width` events at `hole`. */
  ghost predicate Delivery(log: seq<Event>, base: int, x: seq<Event>, hole: int, width: nat, end: int) {
    && 0 <= base <= hole && hole + width <= end <= |log|
    && width <= 2
    && x == log[base..hole] + log[hole + width..end]
  }

  /** Why a stream ended. Either the terminal event before `end` was delivered with nothing lost; or
      its arrival filled the queue and the end marker cost one event; or the event at `end` was
      refused, which costs one event, and two when it was terminal. Every hole lies exactly one
      queue length before `end`. */
  ghost predicate Explained(log: seq<Event>, capacity: nat, hole: int, width: nat, end: int)
    requires 0 <= end <= |log|
  {
    var delivered := end > 0 && IsTerminal(log[end - 1].eventType);
    var refusedTerminal := end < |log| && IsTerminal(log[end].eventType);
    || (width == 0 && delivered)
    || (width == 1 && delivered && hole + capacity == end)
    || (width == (if refusedTerminal && capacity > 1 then 2 else 1) && end < |log| && hole + capacity == end)
  }

  /** The events in a queue ahead of its first end marker. */
  function LiveEvents(items: seq<Item>): seq<Event> {
    if items == [] || items[0].End? then [] else [items[0].event] + LiveEvents(items[1..])
  }

  ghost predicate AllLive(items: seq<Item>) {
    forall i | 0 <= i < |items| :: items[i].Live?
  }

  /** What the subscriber has yielded or will yield without any further append. */
  ghost function Flow(s: Subscriber, items: seq<Item>): seq<Event> {
    (if |s.yielded| < |s.initial| then s.initial else s.yielded) + LiveEvents(items)
  }

  ghost predicate Shape(log: seq<Event>, s: Subscriber) {
    && -1 <= s.after && s.attachedAt <= |log|
    && s.initial == log[s.Base()..s.attachedAt]
    && s.terminal == HasTerminal(s.initial)
    && (if |s.yielded| < |s.initial| then s.yielded == s.initial[..|s.yielded|]
         else s.yielded[..|s.initial|] == s.initial)
  }

  /** Open and listening: nothing is lost yet and nothing terminal has been appended. */
  ghost predicate Open(log: seq<Event>, s: Subscriber, items: seq<Item>)
    requires Shape(log, s)
  {
    AllLive(items) && Flow(s, items) == log[s.Base()..] && !HasTerminal(log[s.Base()..])
  }

  ghost predicate ExplainedDelivery(log: seq<Event>, capacity: nat, base: int, x: seq<Event>) {
    exists hole, width, end :: Delivery(log, base, x, hole, width, end) && Explained(log, capacity, hole, width, end)
  }

  ghost predicate SomeDelivery(log: seq<Event>, base: int, x: seq<Event>) {
    exists hole, width, end :: Delivery(log, base, x, hole, width, end)
  }

  ghost predicate Tracked(log: seq<Event>, capacity: nat, s: Subscriber, items: seq<Item>, listening: bool) {
    && Shape(log, s)
    && (listening ==> s.outcome == Running && !s.terminal && Open(log, s, items))
    && (s.terminal ==> items == [] && |s.yielded| <= |s.initial| && (s.outcome == Ended ==> s.yielded == s.initial))
    && (!listening && s.outcome == Running && !s.terminal ==>
          Item.End in items && ExplainedDelivery(log, capacity, s.Base(), Flow(s, items)))
    && (s.outcome == Ended && !s.terminal ==> ExplainedDelivery(log, capacity, s.Base(), s.yielded))
    && (s.outcome == Abandoned ==> SomeDelivery(log, s.Base(), s.yielded))
  }

  ghost predicate Listens(st: State<nat>, run: string, id: nat) {
    id in st.Listeners(run)
  }

  ghost predicate Overflowed(st: State<nat>, id: nat) {
    id in st.overflowed
  }

  /** No queue listens or overflows before it is handed out. */
  ghost predicate Registered(sys: System) {
    && (forall run, id | Listens(sys.journal, run, id) :: id in sys.subs)
    && (forall id | Overflowed(sys.journal, id) :: id in sys.subs)
  }

  ghost predicate TrackedIn(sys: System, id: nat)
    requires Sane(sys) && id in sys.subs
  {
    var s, items := sys.subs[id], sys.journal.queues[id];
    && Tracked(sys.journal.Log(s.run), sys.capacity, s, items, Listens(sys.journal, s.run, id))
    && |items| <= sys.capacity
    && (Overflowed(sys.journal, id) ==> !Listens(sys.journal, s.run, id))
    && (forall run | Listens(sys.journal, run, id) :: run == s.run)
  }

  ghost predicate Invariant(sys: System) {
    && Sane(sys)
    && LogsNumbered(sys.journal.logs)
    && Registered(sys)
    && (forall id {:trigger TrackedIn(sys, id)} | id in sys.subs :: TrackedIn(sys, id))
  }

  // ----- Queue contents -----

  lemma {:induction false} LiveEventsPut(items: seq<Item>, e: Event)
    requires AllLive(items)
    ensures LiveEvents(items + [Live(e)]) == LiveEvents(items) + [e]
    ensures |LiveEvents(items)| == |items|
  {
    if items != [] {
      LiveEventsPut(items[1..], e);
      assert (items + [Live(e)])[1..] == items[1..] + [Live(e)];
    }
  }

  lemma {:induction false} LiveEventsClosed(items: seq<Item>, rest: seq<Item>)
    requires AllLive(items)
    ensures LiveEvents(items + [Item.End] + rest) == LiveEvents(items)
  {
    if items != [] {
      LiveEventsClosed(items[1..], rest);
      assert (items + [Item.End] + rest)[1..] == items[1..] + [Item.End] + rest;
    }
  }

  lemma {:induction false} LiveEventsDrop(items: seq<Item>, k: nat)
    requires AllLive(items) && k <= |items|
    ensures |LiveEvents(items)| == |items|
    ensures LiveEvents(items[k..]) == LiveEvents(items)[k..]
  {
    if k == 0 {
      if items != [] {
        LiveEventsDrop(items[1..], 0);
      }
      assert items[0..] == items;
    } else {
      LiveEventsDrop(items[1..], k - 1);
      assert items[1..][k - 1..] == items[k..];
    }
  }

  // ----- One append -----

  lemma SplitSuffix<T>(log: seq<T>, base: nat, a: seq<T>, b: seq<T>)
    requires base <= |log| && a + b == log[base..]
    ensures base + |a| + |b| == |log|
    ensures a == log[base..base + |a|] && b == log[base + |a|..]
  {
    assert a == (a + b)[..|a|] && b == (a + b)[|a|..];
  }

  lemma SliceOfPrefix<T>(log: seq<T>, later: seq<T>, i: nat, j: nat)
    requires log <= later && i <= j <= |log|
    ensures later[i..j] == log[i..j]
  {
    assert log == later[..|log|];
  }

  lemma DropOfSuffix<T>(log: seq<T>, i: nat, k: nat)
    requires i + k <= |log|
    ensures log[i..][k..] == log[i + k..|log|]
  {
  }

  /** The flow of a queue closed after losing its `k` oldest items. */
  lemma FlowOfClosed(s: Subscriber, items: seq<Item>, k: nat, rest: seq<Item>)
    requires AllLive(items) && k <= |items|
    ensures |LiveEvents(items)| == |items|
    ensures Flow(s, items[k..] + [Item.End] + rest) ==
            (if |s.yielded| < |s.initial| then s.initial else s.yielded) + LiveEvents(items)[k..]
  {
    LiveEventsDrop(items, k);
    LiveEventsClosed(items[k..], rest);
  }

  /** Closing an open queue after losing its `k` oldest items leaves a hole of `k` events. */
  lemma ClosingLeavesHole(log: seq<Event>, later: seq<Event>, s: Subscriber, items: seq<Item>, k: nat, rest: seq<Item>)
    requires -1 <= s.after && s.attachedAt <= |log| && log <= later
    requires AllLive(items) && Flow(s, items) == log[s.Base()..]
    requires k <= 2 && k <= |items|
    ensures var end := |log|;
            Delivery(later, s.Base(), Flow(s, items[k..] + [Item.End] + rest), end - |items|, k, end)
  {
    var seen, live := if |s.yielded| < |s.initial| then s.initial else s.yielded, LiveEvents(items);
    var hole, end := |log| - |items|, |log|;
    FlowOfClosed(s, items, k, rest);
    SplitSuffix(log, s.Base(), seen, live);
    DropOfSuffix(log, hole, k);
    SliceOfPrefix(log, later, s.Base(), hole);
    SliceOfPrefix(log, later, hole + k, end);
  }

  lemma ShapeGrows(log: seq<Event>, e: Event, s: Subscriber)
    requires Shape(log, s)
    ensures Shape(log + [e], s)
  {
    assert (log + [e])[s.Base()..s.attachedAt] == log[s.Base()..s.attachedAt];
  }

  lemma AppendKeepsOpen(log: seq<Event>, capacity: nat, e: Event, s: Subscriber, items: seq<Item>)
    requires Shape(log, s) && Open(log, s, items)
    requires |items| < capacity
    ensures Shape(log + [e], s)
    ensures AllLive(items + [Live(e)]) && Flow(s, items + [Live(e)]) == (log + [e])[s.Base()..]
    ensures !IsTerminal(e.eventType) ==> Open(log + [e], s, items + [Live(e)])
  {
    ShapeGrows(log, e, s);
    LiveEventsPut(items, e);
    assert (log + [e])[s.Base()..] == log[s.Base()..] + [e];
  }

  /** A terminal event that fits is delivered; its end marker may cost the oldest queued event. */
  lemma TerminalFits(log: seq<Event>, capacity: nat, e: Event, s: Subscriber, items: seq<Item>)
    requires |items| < capacity && IsTerminal(e.eventType)
    requires Shape(log, s) && Open(log, s, items)
    ensures var later, items' := log + [e], Delivered(items, capacity, e, false);
            Shape(later, s) && Item.End in items' && ExplainedDelivery(later, capacity, s.Base(), Flow(s, items'))
  {
    var later, put := log + [e], items + [Live(e)];
    AppendKeepsOpen(log, capacity, e, s, items);
    var k := if |put| < capacity then 0 else 1;
    ClosingLeavesHole(later, later, s, put, k, []);
    assert Delivered(items, capacity, e, false) == put[k..] + [Item.End] + [];
    assert later[|later| - 1] == e;
    assert Explained(later, capacity, |later| - |put|, k, |later|);
  }

  /** A refused event ends the stream just before it, at the cost of one or two queued events. */
  lemma EventRefused(log: seq<Event>, capacity: nat, e: Event, s: Subscriber, items: seq<Item>)
    requires |items| == capacity >= 1
    requires Shape(log, s) && Open(log, s, items)
    ensures var later, items' := log + [e], Delivered(items, capacity, e, false);
            Shape(later, s) && Item.End in items' && ExplainedDelivery(later, capacity, s.Base(), Flow(s, items'))
  {
    var later := log + [e];
    ShapeGrows(log, e, s);
    var k := if IsTerminal(e.eventType) && capacity > 1 then 2 else 1;
    var rest := if k == 2 then [Item.End] else [];
    ClosingLeavesHole(log, later, s, items, k, rest);
    assert Delivered(items, capacity, e, false) == items[k..] + [Item.End] + rest;
    assert later[|log|] == e;
    assert Explained(later, capacity, |log| - |items|, k, |log|);
  }

  lemma AppendToListener(log: seq<Event>, capacity: nat, e: Event, s: Subscriber, items: seq<Item>)
    requires capacity >= 1 && |items| <= capacity
    requires Tracked(log, capacity, s, items, true)
    ensures Tracked(log + [e], capacity, s, Delivered(items, capacity, e, false),
                    !IsTerminal(e.eventType) && |items| < capacity)
  {
    if |items| == capacity {
      EventRefused(log, capacity, e, s, items);
    } else if IsTerminal(e.eventType) {
      TerminalFits(log, capacity, e, s, items);
    } else {
      AppendKeepsOpen(log, capacity, e, s, items);
    }
  }

  lemma AppendToOthers(log: seq<Event>, capacity: nat, e: Event, s: Subscriber, items: seq<Item>)
    requires Tracked(log, capacity, s, items, false)
    ensures Tracked(log + [e], capacity, s, items, false)
  {
    ShapeGrows(log, e, s);
    forall x | ExplainedDelivery(log, capacity, s.Base(), x)
      ensures ExplainedDelivery(log + [e], capacity, s.Base(), x) {
      var hole, width, end :| Delivery(log, s.Base(), x, hole, width, end)
        && Explained(log, capacity, hole, width, end);
      DeliveryGrows(log, e, s.Base(), x, hole, width, end);
      assert Explained(log + [e], capacity, hole, width, end);
    }
    if s.outcome == Abandoned {
      var hole, width, end :| Delivery(log, s.Base(), s.yielded, hole, width, end);
      DeliveryGrows(log, e, s.Base(), s.yielded, hole, width, end);
    }
  }

  lemma DeliveryGrows(log: seq<Event>, e: Event, base: int, x: seq<Event>, hole: int, width: nat, end: int)
    requires Delivery(log, base, x, hole, width, end)
    ensures Delivery(log + [e], base, x, hole, width, end)
  {
    assert (log + [e])[base..hole] == log[base..hole];
    assert (log + [e])[hole + width..end] == log[hole + width..end];
  }

  // ----- One read -----

  /** The generator and its queue after one resumption, apart from registration. */
  ghost function Read(s: Subscriber, items: seq<Item>): (Subscriber, seq<Item>) {
    if |s.yielded| < |s.initial| then (s.(yielded := s.yielded + [s.initial[|s.yielded|]]), items)
    else if s.terminal then (s.(outcome := Ended), items)
    else if items == [] then (s, items)
    else match items[0]
      case Live(e) => (s.(yielded := s.yielded + [e]), items[1..])
      case End => (s.(outcome := Ended), items[1..])
  }

  /** A read moves events from the flow to the subscriber and loses none. */
  lemma ReadKeepsFlow(log: seq<Event>, s: Subscriber, items: seq<Item>)
    requires Shape(log, s) && s.outcome == Running
    requires s.terminal ==> |s.yielded| <= |s.initial|
    ensures var (s', items') := Read(s, items);
            && Shape(log, s')
            && (s'.outcome == s.outcome ==> Flow(s', items') == Flow(s, items))
            && (s'.outcome != s.outcome ==> s'.yielded == s.yielded && |s.yielded| >= |s.initial|)
            && (s'.outcome != s.outcome && !s.terminal ==> Flow(s, items) == s.yielded)
  {
    if |s.yielded| < |s.initial| {
      assert s.initial == s.yielded + s.initial[|s.yielded|..];
      assert s.yielded + [s.initial[|s.yielded|]] == s.initial[..|s.yielded| + 1];
      assert s.initial[..|s.initial|] == s.initial;
    } else if !s.terminal && items != [] && items[0].Live? {
      var e := items[0].event;
      assert (s.yielded + [e])[..|s.initial|] == s.yielded[..|s.initial|];
      assert s.yielded + ([e] + LiveEvents(items[1..])) == (s.yielded + [e]) + LiveEvents(items[1..]);
    }
  }

  lemma ReadKeepsTracked(log: seq<Event>, capacity: nat, s: Subscriber, items: seq<Item>, listening: bool)
    requires Tracked(log, capacity, s, items, listening) && s.outcome == Running
    ensures var (s', items') := Read(s, items);
            Tracked(log, capacity, s', items', listening && s'.outcome == Running)
  {
    ReadKeepsFlow(log, s, items);
    var (s', items') := Read(s, items);
    if !listening && !s.terminal && s'.outcome == Running {
      assert Item.End in items';
    }
  }

  /** Any prefix of a delivery is a delivery. */
  lemma PrefixIsDelivery(log: seq<Event>, base: int, x: seq<Event>, y: seq<Event>)
    requires SomeDelivery(log, base, x) && y <= x
    ensures SomeDelivery(log, base, y)
  {
    var hole, width, end :| Delivery(log, base, x, hole, width, end);
    if |y| <= hole - base {
      assert y == log[base..base + |y|];
      assert Delivery(log, base, y, base + |y|, 0, base + |y|);
    } else {
      assert y == x[..|y|] == log[base..hole] + log[hole + width..base + width + |y|];
      assert Delivery(log, base, y, hole, width, base + width + |y|);
    }
  }

  /** What a subscriber has yielded at any moment is the log from its base with at most one hole. */
  lemma YieldedIsDelivery(log: seq<Event>, capacity: nat, s: Subscriber, items: seq<Item>, listening: bool)
    requires Tracked(log, capacity, s, items, listening)
    ensures SomeDelivery(log, s.Base(), s.yielded)
  {
    var base := s.Base();
    if s.terminal {
      assert s.initial == log[base..s.attachedAt] + log[s.attachedAt + 0..s.attachedAt];
      assert Delivery(log, base, s.initial, s.attachedAt, 0, s.attachedAt);
      PrefixIsDelivery(log, base, s.initial, s.yielded);
    } else if s.outcome == Running {
      if listening {
        assert log[base..] == log[base..|log|] + log[|log| + 0..|log|];
        assert Delivery(log, base, Flow(s, items), |log|, 0, |log|);
      }
      assert s.yielded <= Flow(s, items);
      PrefixIsDelivery(log, base, Flow(s, items), s.yielded);
    }
  }

  // ----- What each journal operation does to one queue -----

  lemma AppendEffect(st: State<nat>, capacity: nat, e: Event, run: string, id: nat)
    requires capacity >= 1 && id in st.queues
    ensures var next, target := AfterAppend(st, capacity, e), e.identity.runId;
            var skipped := Overflowed(st, id);
            var refused := !skipped && |st.queues[id]| >= capacity;
            && next.Log(run) == (if run == target then st.Log(run) + [e] else st.Log(run))
            && next.queues[id]
                 == (if Listens(st, target, id) then Delivered(st.queues[id], capacity, e, skipped) else st.queues[id])
            && (Listens(next, run, id) <==>
                Listens(st, run, id) && !(run == target && (IsTerminal(e.eventType) || refused)))
            && (Overflowed(next, id) <==> skipped || (Listens(st, target, id) && refused))
  {
  }

  lemma DetachEffect(st: State<nat>, target: string, gone: nat, run: string, id: nat)
    ensures var next := AfterDetach(st, target, gone);
            && (Listens(next, run, id) <==> Listens(st, run, id) && !(run == target && id == gone))
            && (Overflowed(next, id) <==> Overflowed(st, id) && id != gone)
  {
  }

  lemma RegisterEffect(st: State<nat>, target: string, added: nat, run: string, id: nat)
    ensures var next := AfterRegister(st, target, added);
            Listens(next, run, id) <==> Listens(st, run, id) || (run == target && id == added)
  {
  }

  // ----- Every step keeps the invariant -----

  /** One append, seen from any subscriber. */
  lemma AppendToSubscriber(
    log: seq<Event>, capacity: nat, e: Event, s: Subscriber, items: seq<Item>, listening: bool, mine: bool)
    requires capacity >= 1 && |items| <= capacity
    requires Tracked(log, capacity, s, items, listening)
    ensures Tracked(if mine then log + [e] else log, capacity, s,
                    if mine && listening then Delivered(items, capacity, e, false) else items,
                    listening && !(mine && (IsTerminal(e.eventType) || |items| >= capacity)))
  {
    if mine && listening {
      AppendToListener(log, capacity, e, s, items);
    } else if mine {
      AppendToOthers(log, capacity, e, s, items);
    }
  }

  /** An append keeps what is known of one subscriber. */
  lemma AppendKeepsTracked(sys: System, next: System, e: Event, id: nat)
    requires Sane(sys) && Sane(next) && next.capacity == sys.capacity && next.subs == sys.subs
    requires id in sys.subs && TrackedIn(sys, id)
    requires next.journal == AfterAppend(sys.journal, sys.capacity, e)
    ensures TrackedIn(next, id)
  {
    var s, items, mine := sys.subs[id], sys.journal.queues[id], sys.subs[id].run == e.identity.runId;
    var listening := Listens(sys.journal, s.run, id);
    AppendToSubscriber(sys.journal.Log(s.run), sys.capacity, e, s, items, listening, mine);
    AppendEffect(sys.journal, sys.capacity, e, s.run, id);
    forall run ensures Listens(next.journal, run, id) ==> run == s.run {
      AppendEffect(sys.journal, sys.capacity, e, run, id);
    }
    SubscriberIsTracked(next, id, s, next.journal.queues[id], Listens(next.journal, s.run, id));
  }

  lemma AppendKeepsInvariant(sys: System, e: Event)
    requires Invariant(sys) && e.sequence == |sys.journal.Log(e.identity.runId)|
    ensures Invariant(sys.(journal := AfterAppend(sys.journal, sys.capacity, e)))
  {
    var next := sys.(journal := AfterAppend(sys.journal, sys.capacity, e));
    assert IsLogOf(next.journal.logs[e.identity.runId], e.identity.runId);
    forall id | id in next.subs ensures TrackedIn(next, id) {
      AppendKeepsTracked(sys, next, e, id);
    }
    forall run, id | Listens(next.journal, run, id) ensures id in sys.subs {
      assert Listens(sys.journal, run, id);
    }
    forall id | Overflowed(next.journal, id) ensures id in sys.subs {
      assert Overflowed(sys.journal, id) || id in sys.journal.queues;
    }
  }

  /** A subscriber is tracked in the same way wherever its log, queue and registration agree. */
  lemma TrackedElsewhere(sys: System, next: System, id: nat)
    requires Sane(sys) && Sane(next) && sys.capacity == next.capacity && sys.journal.logs == next.journal.logs
    requires id in sys.subs && id in next.subs && next.subs[id] == sys.subs[id]
    requires next.journal.queues[id] == sys.journal.queues[id]
    requires Overflowed(next.journal, id) ==> Overflowed(sys.journal, id)
    requires forall run :: Listens(next.journal, run, id) == Listens(sys.journal, run, id)
    ensures TrackedIn(sys, id) ==> TrackedIn(next, id)
  {
  }

  lemma SubscriberIsTracked(sys: System, id: nat, s: Subscriber, items: seq<Item>, listening: bool)
    requires Sane(sys) && id in sys.subs && sys.subs[id] == s && sys.journal.queues[id] == items
    requires |items| <= sys.capacity && (Overflowed(sys.journal, id) ==> !listening)
    requires forall run :: Listens(sys.journal, run, id) == (listening && run == s.run)
    ensures Tracked(sys.journal.Log(s.run), sys.capacity, s, items, listening) ==> TrackedIn(sys, id)
  {
    assert Listens(sys.journal, s.run, id) == listening;
  }

  lemma FreshShape(log: seq<Event>, s: Subscriber)
    requires s.after >= -1 && s.attachedAt == |log| && s.yielded == [] && s.terminal == HasTerminal(s.initial)
    requires s.initial == log[s.Base()..|log|]
    ensures Shape(log, s)
  {
    assert s.yielded == s.initial[..0];
  }

  lemma FreshOpen(log: seq<Event>, s: Subscriber)
    requires Shape(log, s) && s.attachedAt == |log| && s.yielded == [] && !s.terminal
    ensures Open(log, s, [])
  {
    assert log[s.Base()..|log|] == log[s.Base()..];
    assert Flow(s, []) == s.initial + [];
  }

  /** A fresh subscriber is owed the log from its base; its snapshot is exactly that. */
  lemma NewSubscriberTracked(log: seq<Event>, capacity: nat, run: string, after: int)
    requires IsLogOf(log, run) && after >= -1
    ensures var s := NewSubscriber(log, run, after);
            Tracked(log, capacity, s, [], !s.terminal)
  {
    var s := NewSubscriber(log, run, after);
    ReplayIsSuffix(log, 0, after);
    assert s.Base() == Clamp(after + 1, |log|);
    assert s.initial == log[s.Base()..|log|];
    FreshShape(log, s);
    if !s.terminal {
      FreshOpen(log, s);
    }
  }

  lemma SubscribeEffect(sys: System, id: nat, run: string, after: int, r: string, other: nat)
    requires Sane(sys) && id !in sys.subs && after >= -1
    ensures var next := Step(sys, Subscribe(id, run, after));
            && (Listens(next.journal, r, other) <==>
                Listens(sys.journal, r, other) || (!next.subs[id].terminal && r == run && other == id))
            && (other in sys.subs ==>
                  next.subs[other] == sys.subs[other] && next.journal.queues[other] == sys.journal.queues[other])
  {
    RegisterEffect(Created(sys.journal, id), run, id, r, other);
  }

  lemma SubscribeLeavesOthers(sys: System, id: nat, run: string, after: int, other: nat)
    requires Sane(sys) && id !in sys.subs && after >= -1 && other in sys.subs
    ensures TrackedIn(sys, other) ==> TrackedIn(Step(sys, Subscribe(id, run, after)), other)
  {
    var next := Step(sys, Subscribe(id, run, after));
    forall r ensures Listens(next.journal, r, other) == Listens(sys.journal, r, other) {
      SubscribeEffect(sys, id, run, after, r, other);
    }
    TrackedElsewhere(sys, next, other);
  }

  lemma SubscriberAddedIsTracked(sys: System, id: nat, run: string, after: int)
    requires Sane(sys) && Registered(sys) && id !in sys.subs && after >= -1 && IsLogOf(sys.journal.Log(run), run)
    ensures TrackedIn(Step(sys, Subscribe(id, run, after)), id)
  {
    var next := Step(sys, Subscribe(id, run, after));
    var s := next.subs[id];
    NewSubscriberTracked(sys.journal.Log(run), sys.capacity, run, after);
    forall r ensures Listens(next.journal, r, id) == (!s.terminal && r == run) {
      SubscribeEffect(sys, id, run, after, r, id);
    }
    assert !Overflowed(sys.journal, id);
    SubscriberIsTracked(next, id, s, [], !s.terminal);
  }

  lemma SubscribeKeepsInvariant(sys: System, id: nat, run: string, after: int)
    requires Invariant(sys) && id !in sys.subs && after >= -1
    ensures Invariant(Step(sys, Subscribe(id, run, after)))
  {
    var next := Step(sys, Subscribe(id, run, after));
    SubscriberAddedIsTracked(sys, id, run, after);
    forall other | other in sys.subs ensures TrackedIn(next, other) {
      SubscribeLeavesOthers(sys, id, run, after, other);
    }
    forall r, other | Listens(next.journal, r, other) ensures other in next.subs {
      SubscribeEffect(sys, id, run, after, r, other);
    }
  }

  /** Subscriber `id` becomes `s` with queue `items`, still listening if `keep`. */
  ghost predicate Advanced(sys: System, next: System, id: nat, s: Subscriber, items: seq<Item>, keep: bool)
    requires Sane(sys) && Sane(next)
  {
    && id in sys.subs && next.capacity == sys.capacity && next.journal.logs == sys.journal.logs
    && next.subs.Keys == sys.subs.Keys && next.subs[id] == s && next.journal.queues[id] == items
    && (forall other | other in sys.subs && other != id ::
          next.subs[other] == sys.subs[other] && next.journal.queues[other] == sys.journal.queues[other])
    && (forall other :: Overflowed(next.journal, other) ==> Overflowed(sys.journal, other))
    && (forall run, other :: Listens(next.journal, run, other) ==
          (Listens(sys.journal, run, other) && (keep || run != s.run || other != id)))
  }

  lemma AdvancedKeepsInvariant(sys: System, next: System, id: nat, s: Subscriber, items: seq<Item>, keep: bool)
    requires Invariant(sys) && Sane(next) && Advanced(sys, next, id, s, items, keep)
    requires s.run == sys.subs[id].run && |items| <= sys.capacity
    requires Tracked(sys.journal.Log(s.run), sys.capacity, s, items, keep && Listens(sys.journal, s.run, id))
    ensures Invariant(next)
  {
    assert TrackedIn(sys, id);
    forall other | other in sys.subs && other != id ensures TrackedIn(next, other) {
      TrackedElsewhere(sys, next, other);
    }
    assert TrackedIn(next, id);
  }

  lemma NextKeepsInvariant(sys: System, id: nat)
    requires Invariant(sys) && id in sys.subs && sys.subs[id].outcome == Running
    ensures Invariant(Step(sys, Next(id)))
  {
    var next := Step(sys, Next(id));
    var s, items := sys.subs[id], sys.journal.queues[id];
    var (s', items') := Read(s, items);
    assert TrackedIn(sys, id);
    ReadKeepsTracked(sys.journal.Log(s.run), sys.capacity, s, items, Listens(sys.journal, s.run, id));
    NextAdvances(sys, id);
    AdvancedKeepsInvariant(sys, next, id, s', items', s'.outcome == Running);
  }

  lemma NextAdvances(sys: System, id: nat)
    requires Sane(sys) && id in sys.subs && sys.subs[id].outcome == Running
    ensures var (s', items') := Read(sys.subs[id], sys.journal.queues[id]);
            Advanced(sys, Step(sys, Next(id)), id, s', items', s'.outcome == Running)
  {
    var s, items := sys.subs[id], sys.journal.queues[id];
    var (s', items') := Read(s, items);
    var next := Step(sys, Next(id));
    var popped := sys.journal.(queues := sys.journal.queues[id := items']);
    assert sys.journal.queues[id := items] == sys.journal.queues;
    assert sys.subs[id := s] == sys.subs;
    if s'.outcome != Running {
      forall run, other
        ensures Listens(next.journal, run, other) == (Listens(sys.journal, run, other) && (run != s.run || other != id))
        ensures Overflowed(next.journal, other) ==> Overflowed(sys.journal, other)
      {
        DetachEffect(popped, s.run, id, run, other);
      }
    }
  }

  lemma AbandonKeepsTracked(log: seq<Event>, capacity: nat, s: Subscriber, items: seq<Item>, listening: bool)
    requires Tracked(log, capacity, s, items, listening) && s.outcome == Running
    ensures Tracked(log, capacity, s.(outcome := Abandoned), items, false)
  {
    YieldedIsDelivery(log, capacity, s, items, listening);
  }

  lemma AbandonKeepsInvariant(sys: System, id: nat)
    requires Invariant(sys) && id in sys.subs && sys.subs[id].outcome == Running
    ensures Invariant(Step(sys, Abandon(id)))
  {
    var s, items := sys.subs[id], sys.journal.queues[id];
    assert TrackedIn(sys, id);
    AbandonKeepsTracked(sys.journal.Log(s.run), sys.capacity, s, items, Listens(sys.journal, s.run, id));
    AbandonAdvances(sys, id);
    AdvancedKeepsInvariant(sys, Step(sys, Abandon(id)), id, s.(outcome := Abandoned), items, false);
  }

  lemma AbandonAdvances(sys: System, id: nat)
    requires Sane(sys) && id in sys.subs && sys.subs[id].outcome == Running
    ensures var s := sys.subs[id].(outcome := Abandoned);
            Advanced(sys, Step(sys, Abandon(id)), id, s, sys.journal.queues[id], false)
  {
    var s, next := sys.subs[id], Step(sys, Abandon(id));
    assert sys.journal.queues[id := sys.journal.queues[id]] == sys.journal.queues;
    forall run, other
      ensures Listens(next.journal, run, other) == (Listens(sys.journal, run, other) && (run != s.run || other != id))
      ensures Overflowed(next.journal, other) ==> Overflowed(sys.journal, other)
    {
      DetachEffect(sys.journal, s.run, id, run, other);
    }
  }

  lemma StepKeepsInvariant(sys: System, a: Action)
    requires Invariant(sys)
    ensures Invariant(Step(sys, a))
  {
    if a.Append? {
      AppendKeepsInvariant(sys, Stamp(a.draft, |sys.journal.Log(a.draft.identity.runId)|, a.eventId, a.now));
    } else if a.Subscribe? {
      if a.id !in sys.subs && a.after >= -1 {
        SubscribeKeepsInvariant(sys, a.id, a.run, a.after);
      }
    } else if a.id in sys.subs && sys.subs[a.id].outcome == Running {
      if a.Next? {
        NextKeepsInvariant(sys, a.id);
      } else {
        AbandonKeepsInvariant(sys, a.id);
      }
    }
  }

  lemma {:induction false} ReachableInvariant(sys: System, actions: seq<Action>)
    requires Invariant(sys)
    ensures Invariant(Exec(sys, actions))
    decreases |actions|
  {
    if actions != [] {
      StepKeepsInvariant(sys, actions[0]);
      ReachableInvariant(Step(sys, actions[0]), actions[1..]);
    }
  }
}
