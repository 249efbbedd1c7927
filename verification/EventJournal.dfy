/** The in-memory event journal: an ordered log per run and bounded live fan-out to subscribers. */
module EventJournal {
  import opened Domain

  /** What a subscriber queue holds: a live event, or the end marker (`None` in the source). */
  datatype Item = Live(event: Event) | End

  /** The journal's abstract value. `Q` identifies subscriber queues: queue objects for the class
      below, plain numbers for the interleaving model in `JournalDelivery`. */
  datatype State<Q(==)> = State(
    logs: map<string, seq<Event>>,
    subscribers: map<string, set<Q>>,
    overflowed: set<Q>,
    queues: map<Q, seq<Item>>)
  {
    function Log(run: string): seq<Event> {
      if run in logs then logs[run] else []
    }

    function Listeners(run: string): set<Q> {
      if run in subscribers then subscribers[run] else {}
    }
  }

  // ----- Queue effects -----

  /** Closing a queue: a full queue loses its oldest item to make room for the end marker. */
  function Closed(items: seq<Item>, capacity: nat): seq<Item>
    requires capacity >= 1
  {
    if |items| < capacity then items + [End] else items[1..] + [End]
  }

  /** Offering an event: a queue already marked as overflowed is skipped, a full one is closed. */
  function Offered(items: seq<Item>, capacity: nat, e: Event, skipped: bool): seq<Item>
    requires capacity >= 1
  {
    if skipped then items
    else if |items| < capacity then items + [Live(e)]
    else Closed(items, capacity)
  }

  /** What one append does to a listening queue: a terminal event also closes it, so that a queue
      which refuses a terminal event is closed twice. */
  function Delivered(items: seq<Item>, capacity: nat, e: Event, skipped: bool): seq<Item>
    requires capacity >= 1
  {
    var put := Offered(items, capacity, e, skipped);
    if IsTerminal(e.eventType) then Closed(put, capacity) else put
  }

  /** The listening queues that refuse an event: not yet overflowed, and full. */
  ghost function Refused<Q>(queues: map<Q, seq<Item>>, listeners: set<Q>, overflowed: set<Q>, capacity: nat): set<Q> {
    set q | q in listeners && q in queues && q !in overflowed && |queues[q]| >= capacity
  }

  ghost function Served<Q>(
    queues: map<Q, seq<Item>>, listeners: set<Q>, overflowed: set<Q>, capacity: nat, e: Event): map<Q, seq<Item>>
    requires capacity >= 1
  {
    map q | q in queues :: if q in listeners then Delivered(queues[q], capacity, e, q in overflowed) else queues[q]
  }

  /** The journal after appending `e`, with every listening queue served at once. */
  ghost function AfterAppend<Q>(st: State<Q>, capacity: nat, e: Event): State<Q>
    requires capacity >= 1
  {
    var run := e.identity.runId;
    var listeners := st.Listeners(run);
    var refused := Refused(st.queues, listeners, st.overflowed, capacity);
    var left := if IsTerminal(e.eventType) then {} else listeners - refused;
    State(
      st.logs[run := st.Log(run) + [e]],
      if left == {} then st.subscribers - {run} else st.subscribers[run := left],
      st.overflowed + refused,
      Served(st.queues, listeners, st.overflowed, capacity, e))
  }

  /** A new, empty queue. */
  ghost function Created<Q>(st: State<Q>, q: Q): State<Q> {
    st.(queues := st.queues[q := []])
  }

  ghost function AfterRegister<Q>(st: State<Q>, run: string, q: Q): State<Q> {
    st.(subscribers := st.subscribers[run := st.Listeners(run) + {q}])
  }

  /** The `finally` clause of a subscription. */
  ghost function AfterDetach<Q>(st: State<Q>, run: string, q: Q): State<Q> {
    var left := st.Listeners(run) - {q};
    st.(subscribers := if left == {} then st.subscribers - {run} else st.subscribers[run := left],
        overflowed := st.overflowed - {q})
  }

  // ----- Well-formed journals -----

  /** What every operation keeps: logs are numbered from 0, no run keeps an empty subscriber set, a
      queue listens to one run, and no overflowed queue still listens. */
  ghost predicate WellFormed<Q>(st: State<Q>, capacity: nat) {
    && LogsNumbered(st.logs)
    && (forall q | q in st.queues :: |st.queues[q]| <= capacity)
    && (forall q | q in st.overflowed :: q in st.queues)
    && (forall run | run in st.subscribers :: st.subscribers[run] != {})
    && (forall run, q | run in st.subscribers && q in st.subscribers[run] :: q in st.queues && q !in st.overflowed)
    && (forall r1, r2, q | r1 in st.subscribers && r2 in st.subscribers && q in st.subscribers[r1]
         && q in st.subscribers[r2] :: r1 == r2)
  }

  /** A log numbers its events 0, 1, 2, ... and holds one run's events only. */
  ghost predicate IsLogOf(log: seq<Event>, run: string) {
    forall i | 0 <= i < |log| :: log[i].sequence == i && log[i].identity.runId == run
  }

  ghost predicate LogsNumbered(logs: map<string, seq<Event>>) {
    forall run | run in logs :: IsLogOf(logs[run], run)
  }

  lemma AppendKeepsWellFormed<Q>(st: State<Q>, capacity: nat, e: Event)
    requires capacity >= 1 && WellFormed(st, capacity)
    requires e.sequence == |st.Log(e.identity.runId)|
    ensures WellFormed(AfterAppend(st, capacity, e), capacity)
  {
    var next := AfterAppend(st, capacity, e);
    assert IsLogOf(next.logs[e.identity.runId], e.identity.runId);
  }

  lemma RegisterKeepsWellFormed<Q>(st: State<Q>, capacity: nat, run: string, q: Q)
    requires WellFormed(st, capacity) && q !in st.queues
    ensures WellFormed(Created(st, q), capacity)
    ensures WellFormed(AfterRegister(Created(st, q), run, q), capacity)
  {
  }

  lemma DetachKeepsWellFormed<Q>(st: State<Q>, capacity: nat, run: string, q: Q)
    requires WellFormed(st, capacity)
    ensures WellFormed(AfterDetach(st, run, q), capacity)
  {
  }

  // ----- Replay -----

  function Replayed(log: seq<Event>, after: int): seq<Event> {
    if log == [] then []
    else (if log[0].sequence > after then [log[0]] else []) + Replayed(log[1..], after)
  }

  function Clamp(k: int, bound: nat): nat {
    if k <= 0 then 0 else if k >= bound then bound else k
  }

  predicate HasTerminal(events: seq<Event>) {
    exists i | 0 <= i < |events| :: IsTerminal(events[i].eventType)
  }

  /** On a well-numbered log the cursor filter is a suffix. */
  lemma {:induction false} ReplayIsSuffix(log: seq<Event>, first: int, after: int)
    requires forall i | 0 <= i < |log| :: log[i].sequence == first + i
    ensures Replayed(log, after) == log[Clamp(after + 1 - first, |log|)..]
  {
    if log != [] {
      var k := Clamp(after + 1 - first, |log|);
      var rest := log[1..];
      ReplayIsSuffix(rest, first + 1, after);
      if k == 0 {
        assert Clamp(after - first, |rest|) == 0;
        assert rest[0..] == rest;
        assert log[0..] == [log[0]] + rest;
      } else {
        assert Clamp(after - first, |rest|) == k - 1;
        assert log[k..] == rest[k - 1..];
      }
    }
  }

  // ----- The mutable journal -----

  /** A bounded first-in first-out queue, with the non-blocking operations only. */
  class BoundedQueue {
    const capacity: nat
    var items: seq<Item>

    constructor (capacity: nat)
      ensures this.capacity == capacity && items == []
    {
      this.capacity := capacity;
      items := [];
    }

    method PutNowait(item: Item) returns (accepted: bool)
      modifies this
      ensures accepted == (|old(items)| < capacity)
      ensures items == if accepted then old(items) + [item] else old(items)
    {
      accepted := |items| < capacity;
      if accepted {
        items := items + [item];
      }
    }

    method GetNowait() returns (item: Option<Item>)
      modifies this
      ensures old(items) == [] ==> item == None && items == []
      ensures old(items) != [] ==> item == Some(old(items)[0]) && items == old(items)[1..]
    {
      if items == [] {
        return None;
      }
      item := Some(items[0]);
      items := items[1..];
    }
  }

  method CloseQueue(queue: BoundedQueue)
    requires 1 <= queue.capacity && |queue.items| <= queue.capacity
    modifies queue
    ensures queue.items == Closed(old(queue.items), queue.capacity)
  {
    var accepted := queue.PutNowait(End);
    if !accepted {
      var dropped := queue.GetNowait();
      accepted := queue.PutNowait(End);
    }
  }

  class InMemoryEventJournal {
    const queueSize: nat
    var logs: map<string, seq<Event>>
    var subscribers: map<string, set<BoundedQueue>>
    var overflowed: set<BoundedQueue>
    /** Every subscriber queue ever handed out. */
    ghost var queues: set<BoundedQueue>

    ghost predicate Valid()
      reads this, queues
    {
      && queueSize >= 1
      && (forall q | q in queues :: q.capacity == queueSize && |q.items| <= queueSize)
      && (forall run | run in subscribers :: subscribers[run] <= queues)
    }

    ghost function Contents(): map<BoundedQueue, seq<Item>>
      reads this`queues, queues`items
    {
      map q | q in queues :: q.items
    }

    ghost function View(): State<BoundedQueue>
      reads this, queues
    {
      State(logs, subscribers, overflowed, Contents())
    }

    constructor (queueSize: nat)
      requires queueSize >= 1
      ensures Valid() && queues == {} && this.queueSize == queueSize
      ensures View() == State(map[], map[], {}, map[])
    {
      this.queueSize := queueSize;
      logs, subscribers, overflowed := map[], map[], {};
      queues := {};
    }

    method Append(draft: Draft, eventId: string, now: int) returns (event: Event)
      requires Valid()
      modifies this, queues
      ensures Valid() && queues == old(queues)
      ensures event == Stamp(draft, |old(View()).Log(draft.identity.runId)|, eventId, now)
      ensures View() == AfterAppend(old(View()), queueSize, event)
    {
      var run := draft.identity.runId;
      var log := if run in logs then logs[run] else [];
      event := Stamp(draft, |log|, eventId, now);
      var listeners := if run in subscribers then subscribers[run] else {};
      var left := FanOut(listeners, event);
      logs := logs[run := log + [event]];
      subscribers := if left == {} then subscribers - {run} else subscribers[run := left];
    }

    /** Serves every listener of the event's run and returns those that stay subscribed. */
    method FanOut(listeners: set<BoundedQueue>, event: Event) returns (left: set<BoundedQueue>)
      requires queueSize >= 1 && listeners <= queues
      requires forall q | q in queues :: q.capacity == queueSize && |q.items| <= queueSize
      modifies this`overflowed, listeners
      ensures var refused := Refused(old(Contents()), listeners, old(overflowed), queueSize);
              && overflowed == old(overflowed) + refused
              && left == if IsTerminal(event.eventType) then {} else listeners - refused
      ensures Contents() == Served(old(Contents()), listeners, old(overflowed), queueSize, event)
      ensures forall q | q in queues :: |q.items| <= queueSize
    {
      var refused := Offer(listeners, event);
      left := listeners - refused;
      if IsTerminal(event.eventType) {
        CloseAll(listeners);
        left := {};
      }
    }

    /** The first loop of `append`: every listener is offered the event. */
    method Offer(listeners: set<BoundedQueue>, event: Event) returns (refused: set<BoundedQueue>)
      requires queueSize >= 1 && listeners <= queues
      requires forall q | q in queues :: q.capacity == queueSize && |q.items| <= queueSize
      modifies this`overflowed, listeners
      ensures refused == set q | q in listeners && q !in old(overflowed) && |old(q.items)| >= queueSize
      ensures overflowed == old(overflowed) + refused
      ensures forall q | q in listeners :: q.items == Offered(old(q.items), queueSize, event, q in old(overflowed))
      ensures forall q | q in listeners :: |q.items| <= queueSize
    {
      refused := {};
      var pending := listeners;
      while pending != {}
        invariant pending <= listeners
        invariant forall q | q in pending :: q.items == old(q.items)
        invariant forall q | q in listeners - pending ::
                    q.items == Offered(old(q.items), queueSize, event, q in old(overflowed)) && |q.items| <= queueSize
        invariant refused == set q | q in listeners - pending && q !in old(overflowed) && |old(q.items)| >= queueSize
        invariant overflowed == old(overflowed) + refused
      {
        var queue :| queue in pending;
        pending := pending - {queue};
        if queue !in overflowed {
          var accepted := queue.PutNowait(Live(event));
          if !accepted {
            overflowed := overflowed + {queue};
            refused := refused + {queue};
            CloseQueue(queue);
          }
        }
      }
    }

    /** The second loop of `append`, for terminal events. */
    method CloseAll(listeners: set<BoundedQueue>)
      requires queueSize >= 1 && listeners <= queues
      requires forall q | q in listeners :: q.capacity == queueSize && |q.items| <= queueSize
      modifies listeners
      ensures forall q | q in listeners :: q.items == Closed(old(q.items), queueSize) && |q.items| <= queueSize
    {
      var pending := listeners;
      while pending != {}
        invariant pending <= listeners
        invariant forall q | q in pending :: q.items == old(q.items)
        invariant forall q | q in listeners - pending ::
                    q.items == Closed(old(q.items), queueSize) && |q.items| <= queueSize
      {
        var queue :| queue in pending;
        pending := pending - {queue};
        CloseQueue(queue);
      }
    }

    method Replay(run: string, after: int) returns (r: Result<seq<Event>>)
      requires Valid()
      ensures after < -1 ==> r == Err(StreamCursorInvalid)
      ensures after >= -1 ==> r == Ok(Replayed(View().Log(run), after))
    {
      if after < -1 {
        return Err(StreamCursorInvalid);
      }
      var log := if run in logs then logs[run] else [];
      r := Ok(Replayed(log, after));
    }

    /** The part of `subscribe` that runs under the lock before the first event is yielded. */
    method Subscribe(run: string, after: int) returns (r: Result<Subscription>)
      requires Valid()
      modifies this
      ensures Valid()
      ensures after < -1 ==> r == Err(StreamCursorInvalid) && unchanged(this)
      ensures after >= -1 ==> r.Ok? && fresh(r.value) && fresh(r.value.queue)
      ensures after >= -1 ==>
        var s := r.value;
        && s.journal == this && s.run == run && s.position == 0 && !s.finished
        && queues == old(queues) + {s.queue}
        && s.initial == Replayed(old(View()).Log(run), after)
        && s.terminal == HasTerminal(s.initial)
        && View() == if s.terminal then Created(old(View()), s.queue)
                     else AfterRegister(Created(old(View()), s.queue), run, s.queue)
    {
      if after < -1 {
        return Err(StreamCursorInvalid);
      }
      var queue := new BoundedQueue(queueSize);
      var log := if run in logs then logs[run] else [];
      var initial := Replayed(log, after);
      var terminal := HasTerminal(initial);
      var s := new Subscription(this, run, queue, initial, terminal);
      queues := queues + {queue};
      if !terminal {
        var listeners := if run in subscribers then subscribers[run] else {};
        subscribers := subscribers[run := listeners + {queue}];
      }
      assert Contents() == Created(old(View()), queue).queues;
      r := Ok(s);
    }

    method Detach(run: string, queue: BoundedQueue)
      requires Valid()
      modifies this
      ensures Valid() && queues == old(queues)
      ensures View() == AfterDetach(old(View()), run, queue)
    {
      var listeners := (if run in subscribers then subscribers[run] else {}) - {queue};
      overflowed := overflowed - {queue};
      if listeners == {} {
        subscribers := subscribers - {run};
      } else {
        subscribers := subscribers[run := listeners];
      }
    }
  }

  /** What resuming a subscription produces. `Waiting` is the generator suspended on an empty queue. */
  datatype Resumed = Yielded(event: Event) | Waiting | Finished

  /** One resumption of a subscription generator that already yielded `position` initial events. */
  ghost function Resume<Q>(
    st: State<Q>, run: string, q: Q, initial: seq<Event>, terminal: bool, position: nat): (State<Q>, Resumed)
    requires q in st.queues && position <= |initial|
  {
    if position < |initial| then (st, Yielded(initial[position]))
    else if terminal then (AfterDetach(st, run, q), Finished)
    else if st.queues[q] == [] then (st, Waiting)
    else
      var popped := st.(queues := st.queues[q := st.queues[q][1..]]);
      match st.queues[q][0]
      case Live(e) => (popped, Yielded(e))
      case End => (AfterDetach(popped, run, q), Finished)
  }

  /** The suspended state of one `subscribe` generator. */
  class Subscription {
    const journal: InMemoryEventJournal
    const run: string
    const queue: BoundedQueue
    const initial: seq<Event>
    const terminal: bool
    var position: nat
    var finished: bool

    constructor (journal: InMemoryEventJournal, run: string, queue: BoundedQueue, initial: seq<Event>, terminal: bool)
      ensures this.journal == journal && this.run == run && this.queue == queue
      ensures this.initial == initial && this.terminal == terminal
      ensures position == 0 && !finished
    {
      this.journal, this.run, this.queue, this.initial, this.terminal := journal, run, queue, initial, terminal;
      position, finished := 0, false;
    }

    ghost predicate Valid()
      reads this, journal, journal.queues
    {
      journal.Valid() && queue in journal.queues && position <= |initial|
    }

    method Next() returns (r: Resumed)
      requires Valid() && !finished
      modifies this, journal, queue
      ensures Valid() && journal.queues == old(journal.queues)
      ensures (journal.View(), r) == Resume(old(journal.View()), run, queue, initial, terminal, old(position))
      ensures position == if old(position) < |initial| then old(position) + 1 else old(position)
      ensures finished == r.Finished?
    {
      if position < |initial| {
        r := Yielded(initial[position]);
        position := position + 1;
        return;
      }
      if terminal {
        journal.Detach(run, queue);
        finished := true;
        return Finished;
      }
      var received := queue.GetNowait();
      assert journal.Contents() == old(journal.Contents())[queue := queue.items];
      match received
      case None => r := Waiting;
      case Some(Live(e)) =>
        r := Yielded(e);
      case Some(End) =>
        journal.Detach(run, queue);
        finished := true;
        r := Finished;
    }
  }
}
