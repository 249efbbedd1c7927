/** The event batcher: greedy batches limited by event count and by bytes. */
module EventBatching {
  import opened Domain

  /** An event as the batcher sees it: its encoded size, and whether its type forces a flush. */
  datatype Item = Item(event: Event, size: nat)

  datatype Config = Config(maxEvents: nat, maxBytes: nat)

  datatype State = State(buffer: seq<Item>, bytes: nat, written: seq<seq<Item>>)

  predicate Flushes(x: Item) {
    IsFlushing(x.event.eventType)
  }

  function Size(items: seq<Item>): nat {
    if items == [] then 0 else Size(items[..|items| - 1]) + items[|items| - 1].size
  }

  function Flushed(st: State): State {
    if st.buffer == [] then st else State([], 0, st.written + [st.buffer])
  }

  /** Whether adding `x` first writes out what is buffered. */
  predicate Overflows(st: State, config: Config, x: Item) {
    st.buffer != [] && (|st.buffer| >= config.maxEvents || st.bytes + x.size > config.maxBytes)
  }

  /** Buffering `x`, with room made for it first. */
  function Buffered(st: State, config: Config, x: Item): State {
    var room := if Overflows(st, config, x) then Flushed(st) else st;
    State(room.buffer + [x], room.bytes + x.size, room.written)
  }

  function AfterAdd(st: State, config: Config, x: Item): State {
    if Flushes(x) then Flushed(Buffered(st, config, x)) else Buffered(st, config, x)
  }

  class RuntimeEventBatcher {
    const config: Config
    var events: seq<Item>
    var bytes: nat
    /** The batches handed to the writer, in order. */
    var written: seq<seq<Item>>

    ghost function View(): State
      reads this
    {
      State(events, bytes, written)
    }

    constructor (config: Config)
      requires config.maxEvents >= 1 && config.maxBytes >= 1
      ensures this.config == config && View() == State([], 0, [])
    {
      this.config := config;
      events, bytes, written := [], 0, [];
    }

    method Add(x: Item)
      modifies this
      ensures View() == AfterAdd(old(View()), config, x)
    {
      if events != [] && (|events| >= config.maxEvents || bytes + x.size > config.maxBytes) {
        FlushLocked();
      }
      events := events + [x];
      bytes := bytes + x.size;
      if Flushes(x) {
        FlushLocked();
      }
    }

    method Flush()
      modifies this
      ensures View() == Flushed(old(View()))
    {
      FlushLocked();
    }

    method FlushLocked()
      modifies this
      ensures View() == Flushed(old(View()))
    {
      if events == [] {
        return;
      }
      var batch := events;
      events := [];
      bytes := 0;
      written := written + [batch];
    }
  }

  // ----- Runs -----

  datatype Op = Add(item: Item) | Flush

  function Step(st: State, config: Config, op: Op): State {
    match op
    case Add(x) => AfterAdd(st, config, x)
    case Flush => Flushed(st)
  }

  function Exec(st: State, config: Config, ops: seq<Op>): State
    decreases |ops|
  {
    if ops == [] then st else Exec(Step(st, config, ops[0]), config, ops[1..])
  }

  function Items(ops: seq<Op>): seq<Item> {
    if ops == [] then [] else ItemsOf(ops[0]) + Items(ops[1..])
  }

  function Flatten(batches: seq<seq<Item>>): seq<Item> {
    if batches == [] then [] else Flatten(batches[..|batches| - 1]) + batches[|batches| - 1]
  }

  /** The limits on a batch: never empty, at most `maxEvents` events, and at most `maxBytes` bytes
      unless it is a single event. */
  predicate Fits(batch: seq<Item>, config: Config) {
    batch != [] && |batch| <= config.maxEvents && (Size(batch) <= config.maxBytes || |batch| == 1)
  }

  ghost predicate AllFit(batches: seq<seq<Item>>, config: Config) {
    forall i | 0 <= i < |batches| :: Fits(batches[i], config)
  }

  ghost predicate Consistent(st: State, config: Config) {
    st.bytes == Size(st.buffer) && AllFit(st.written, config) && (st.buffer != [] ==> Fits(st.buffer, config))
  }

  /** Everything added so far, in order: what was written and what is buffered. */
  function Contents(st: State): seq<Item> {
    Flatten(st.written) + st.buffer
  }

  lemma FlushKeepsEvents(st: State, config: Config)
    requires Consistent(st, config)
    ensures Consistent(Flushed(st), config) && Contents(Flushed(st)) == Contents(st)
  {
    if st.buffer != [] {
      assert (st.written + [st.buffer])[..|st.written|] == st.written;
    }
  }

  lemma SizeAppend(items: seq<Item>, x: Item)
    ensures Size(items + [x]) == Size(items) + x.size
  {
    assert (items + [x])[..|items|] == items;
  }

  /** Buffering an event that does not overflow. */
  lemma PutKeepsEvents(st: State, config: Config, x: Item)
    requires config.maxEvents >= 1 && Consistent(st, config) && !Overflows(st, config, x)
    ensures var next := State(st.buffer + [x], st.bytes + x.size, st.written);
            Consistent(next, config) && Contents(next) == Contents(st) + [x]
  {
    SizeAppend(st.buffer, x);
    var written := Flatten(st.written);
    assert written + (st.buffer + [x]) == (written + st.buffer) + [x];
  }

  lemma AddKeepsEvents(st: State, config: Config, x: Item)
    requires config.maxEvents >= 1 && Consistent(st, config)
    ensures Consistent(AfterAdd(st, config, x), config) && Contents(AfterAdd(st, config, x)) == Contents(st) + [x]
  {
    FlushKeepsEvents(st, config);
    var room := if Overflows(st, config, x) then Flushed(st) else st;
    PutKeepsEvents(room, config, x);
    FlushKeepsEvents(Buffered(st, config, x), config);
  }

  function ItemsOf(op: Op): seq<Item> {
    if op.Add? then [op.item] else []
  }

  lemma StepKeepsEvents(st: State, config: Config, op: Op)
    requires config.maxEvents >= 1 && Consistent(st, config)
    ensures Consistent(Step(st, config, op), config) && Contents(Step(st, config, op)) == Contents(st) + ItemsOf(op)
  {
    match op
    case Add(x) => AddKeepsEvents(st, config, x);
    case Flush => FlushKeepsEvents(st, config);
  }

  lemma Associative<T>(a: seq<T>, b: seq<T>, c: seq<T>)
    ensures (a + b) + c == a + (b + c)
  {
  }

  /** Nothing is lost, repeated or reordered, and every written batch respects the limits. */
  lemma {:induction false} RunKeepsEvents(st: State, config: Config, ops: seq<Op>)
    requires config.maxEvents >= 1 && Consistent(st, config)
    ensures Consistent(Exec(st, config, ops), config)
    ensures Contents(Exec(st, config, ops)) == Contents(st) + Items(ops)
    decreases |ops|
  {
    if ops != [] {
      StepKeepsEvents(st, config, ops[0]);
      RunKeepsEvents(Step(st, config, ops[0]), config, ops[1..]);
      Associative(Contents(st), ItemsOf(ops[0]), Items(ops[1..]));
    }
  }

  /** Right after an event the buffer is empty exactly when the event's type is one of the four
      flushing types; an interrupted run's last event stays buffered. */
  lemma EmptyAfterFlushingEvent(st: State, config: Config, x: Item)
    ensures var t, after := x.event.eventType, AfterAdd(st, config, x);
            && (after.buffer == [] <==>
                || t == RunCompleted || t == RunCancelled || t == RunFailed || t == RunTimeout
                || t == Text("run.completed") || t == Text("run.cancelled") || t == Text("run.failed")
                || t == Text("run.timeout"))
            && (after.buffer != [] ==> after.buffer[|after.buffer| - 1] == x)
  {
  }

  // ----- Greedy batching is optimal -----

  /** A way to cut `items[from..]` into consecutive batches within the limits. */
  ghost predicate IsSplit(batches: seq<seq<Item>>, items: seq<Item>, from: nat, config: Config)
    decreases |batches|
  {
    if batches == [] then from == |items|
    else
      var next := from + |batches[0]|;
      && next <= |items| && batches[0] == items[from..next] && Fits(batches[0], config)
      && IsSplit(batches[1..], items, next, config)
  }

  /** Whether `items[t]` overflows a buffer that holds `items[s..t]`. */
  predicate OverflowsAt(items: seq<Item>, s: nat, t: nat, config: Config)
    requires s <= t < |items|
  {
    Overflows(State(items[s..t], Size(items[s..t]), []), config, items[t])
  }

  /** Batches the batcher produces with `items[s..t]` buffered and `items[t..]` to come, when the last
      of them is flushed by force and no earlier one is. */
  function BatchCount(items: seq<Item>, s: nat, t: nat, config: Config): nat
    requires s <= t <= |items|
    decreases |items| - t
  {
    if t == |items| then (if s == t then 0 else 1)
    else if OverflowsAt(items, s, t, config) then 1 + BatchCount(items, t, t + 1, config)
    else BatchCount(items, s, t + 1, config)
  }

  lemma {:induction false} SizeSum(a: seq<Item>, b: seq<Item>)
    ensures Size(a + b) == Size(a) + Size(b)
    decreases |b|
  {
    if b == [] {
      assert a + b == a;
    } else {
      var k := |b| - 1;
      SizeSum(a, b[..k]);
      assert (a + b)[..|a + b| - 1] == a + b[..k];
    }
  }

  /** A part of two or more events cut out of a batch respects the limits too. */
  lemma PartFits(batch: seq<Item>, i: nat, j: nat, config: Config)
    requires Fits(batch, config) && i + 2 <= j <= |batch|
    ensures Fits(batch[i..j], config) && Size(batch[i..j]) <= config.maxBytes
  {
    SizeSum(batch[..i], batch[i..j]);
    assert batch[..i] + batch[i..j] == batch[..j];
    SizeSum(batch[..j], batch[j..]);
    assert batch[..j] + batch[j..] == batch;
  }

  lemma SliceOfSlice<T>(items: seq<T>, lo: nat, hi: nat, i: nat, j: nat)
    requires lo <= i <= j <= hi <= |items|
    ensures items[lo..hi][i - lo..j - lo] == items[i..j]
  {
    var a, b := items[lo..hi][i - lo..j - lo], items[i..j];
    assert |a| == |b|;
    forall k | 0 <= k < |a| ensures a[k] == b[k] {
      assert items[lo..hi][i - lo + k] == items[i + k];
    }
  }

  /** Where the buffer overflows, a split has already cut: its next batch ends by then. */
  lemma SplitCutsByOverflow(items: seq<Item>, from: nat, s: nat, t: nat, next: nat, config: Config)
    requires from <= s < t < |items| && from <= next <= |items| && Fits(items[from..next], config)
    requires OverflowsAt(items, s, t, config)
    ensures next <= t
  {
    var longer := items[s..t + 1];
    assert longer == items[s..t] + [items[t]];
    SizeAppend(items[s..t], items[t]);
    assert !(Fits(longer, config) && Size(longer) <= config.maxBytes);
    if next > t {
      SliceOfSlice(items, from, next, s, t + 1);
      PartFits(items[from..next], s - from, t + 1 - from, config);
    }
  }

  /** Greedy stays ahead: from a buffer that starts no earlier than a split's next batch, the batcher
      produces no more batches than the split has left. */
  lemma {:induction false} GreedyStaysAhead(
    items: seq<Item>, from: nat, s: nat, t: nat, split: seq<seq<Item>>, config: Config)
    requires from <= s <= t <= |items| && IsSplit(split, items, from, config)
    ensures BatchCount(items, s, t, config) <= |split|
    decreases |split|, |items| - t
  {
    if t < |items| {
      if OverflowsAt(items, s, t, config) {
        var next := from + |split[0]|;
        SplitCutsByOverflow(items, from, s, t, next, config);
        GreedyStaysAhead(items, next, t, t + 1, split[1..], config);
      } else {
        GreedyStaysAhead(items, from, s, t + 1, split, config);
      }
    }
  }

  ghost predicate OnlyLastFlushes(items: seq<Item>) {
    forall i | 0 <= i < |items| - 1 :: !Flushes(items[i])
  }

  /** The operations that add `items[from..]` one by one. */
  function Adds(items: seq<Item>, from: nat): seq<Op>
    requires from <= |items|
    decreases |items| - from
  {
    if from == |items| then [] else [Add(items[from])] + Adds(items, from + 1)
  }

  /** Buffering `items[t]` behind `items[s..t]`. */
  lemma ExtendBuffer(items: seq<Item>, s: nat, t: nat)
    requires s <= t < |items|
    ensures items[s..t] + [items[t]] == items[s..t + 1]
    ensures Size(items[s..t + 1]) == Size(items[s..t]) + items[t].size
  {
    assert items[s..t] + [items[t]] == items[s..t + 1];
    SizeAppend(items[s..t], items[t]);
  }

  ghost predicate Holds(st: State, items: seq<Item>, s: nat, t: nat) {
    s <= t <= |items| && st.buffer == items[s..t] && st.bytes == Size(items[s..t])
  }

  lemma OverflowStartsBuffer(st: State, config: Config, items: seq<Item>, s: nat, t: nat)
    requires t < |items| && Holds(st, items, s, t) && Overflows(st, config, items[t])
    ensures var next := Buffered(st, config, items[t]);
            Holds(next, items, t, t + 1) && |next.written| == |st.written| + 1
  {
    assert items[t..t + 1] == [items[t]];
    SizeAppend([], items[t]);
    assert [] + [items[t]] == [items[t]];
  }

  lemma RoomExtendsBuffer(st: State, config: Config, items: seq<Item>, s: nat, t: nat)
    requires t < |items| && Holds(st, items, s, t) && !Overflows(st, config, items[t])
    ensures var next := Buffered(st, config, items[t]);
            Holds(next, items, s, t + 1) && next.written == st.written
  {
    ExtendBuffer(items, s, t);
  }

  /** The last addition of a segment and the forced flush behind it. */
  lemma LastAddition(st: State, config: Config, x: Item)
    ensures |Flushed(AfterAdd(st, config, x)).written| == |Buffered(st, config, x).written| + 1
  {
  }

  /** The batcher writes exactly `BatchCount` batches for a segment that ends with a forced flush. */
  lemma {:induction false} SegmentCount(st: State, config: Config, items: seq<Item>, s: nat, t: nat)
    requires OnlyLastFlushes(items) && Holds(st, items, s, t)
    ensures |Flushed(Exec(st, config, Adds(items, t))).written| == |st.written| + BatchCount(items, s, t, config)
    decreases |items| - t
  {
    if t < |items| {
      var next := AfterAdd(st, config, items[t]);
      var full := Overflows(st, config, items[t]);
      assert full == OverflowsAt(items, s, t, config);
      if full {
        OverflowStartsBuffer(st, config, items, s, t);
      } else {
        RoomExtendsBuffer(st, config, items, s, t);
      }
      assert Adds(items, t)[1..] == Adds(items, t + 1);
      if t + 1 < |items| {
        SegmentCount(next, config, items, if full then t else s, t + 1);
      } else {
        LastAddition(st, config, items[t]);
        assert Exec(next, config, []) == next;
      }
    }
  }

  /** Between two forced flushes the batcher writes no more batches than any other way to cut the same
      events, in order, into non-empty batches within the limits. */
  lemma GreedyIsOptimal(st: State, config: Config, items: seq<Item>, split: seq<seq<Item>>)
    requires config.maxEvents >= 1 && Consistent(st, config) && st.buffer == []
    requires OnlyLastFlushes(items) && IsSplit(split, items, 0, config)
    ensures |Flushed(Exec(st, config, Adds(items, 0))).written| - |st.written| <= |split|
  {
    SegmentCount(st, config, items, 0, 0);
    GreedyStaysAhead(items, 0, 0, 0, split, config);
  }

  // ----- Whole runs, cut at every forced flush -----

  /** A run given by its segments: each ends with a forced flush. */
  function Segmented(segments: seq<seq<Item>>): seq<Op> {
    if segments == [] then [] else Adds(segments[0], 0) + [Flush] + Segmented(segments[1..])
  }

  ghost predicate AreSplits(splits: seq<seq<seq<Item>>>, segments: seq<seq<Item>>, config: Config) {
    |splits| == |segments| && forall i | 0 <= i < |segments| :: IsSplit(splits[i], segments[i], 0, config)
  }

  function TotalBatches(splits: seq<seq<seq<Item>>>): nat {
    if splits == [] then 0 else |splits[0]| + TotalBatches(splits[1..])
  }

  lemma {:induction false} ExecConcat(st: State, config: Config, a: seq<Op>, b: seq<Op>)
    ensures Exec(st, config, a + b) == Exec(Exec(st, config, a), config, b)
    decreases |a|
  {
    if a == [] {
      assert a + b == b;
    } else {
      assert (a + b)[1..] == a[1..] + b;
      ExecConcat(Step(st, config, a[0]), config, a[1..], b);
    }
  }

  lemma {:induction false} SegmentsAreOptimal(
    st: State, config: Config, segments: seq<seq<Item>>, splits: seq<seq<seq<Item>>>)
    requires config.maxEvents >= 1 && Consistent(st, config) && st.buffer == []
    requires AreSplits(splits, segments, config)
    requires forall i | 0 <= i < |segments| :: OnlyLastFlushes(segments[i])
    ensures |Exec(st, config, Segmented(segments)).written| - |st.written| <= TotalBatches(splits)
    decreases |segments|
  {
    if segments != [] {
      var adds, rest := Adds(segments[0], 0), Segmented(segments[1..]);
      var mid := Exec(st, config, adds);
      GreedyIsOptimal(st, config, segments[0], splits[0]);
      RunKeepsEvents(st, config, adds);
      FlushKeepsEvents(mid, config);
      assert Segmented(segments) == adds + ([Flush] + rest);
      ExecConcat(st, config, adds, [Flush] + rest);
      assert ([Flush] + rest)[1..] == rest;
      SegmentsAreOptimal(Flushed(mid), config, segments[1..], splits[1..]);
    }
  }

  /** The segments of a run: a flush and an event of a flushing type each end one. */
  function Cut(ops: seq<Op>): (r: seq<seq<Item>>)
    ensures r != []
  {
    if ops == [] then [[]]
    else
      var rest := Cut(ops[1..]);
      match ops[0]
      case Flush => [[]] + rest
      case Add(x) => if Flushes(x) then [[x]] + rest else [[x] + rest[0]] + rest[1..]
  }

  lemma {:induction false} CutSegments(ops: seq<Op>)
    ensures forall i | 0 <= i < |Cut(ops)| :: OnlyLastFlushes(Cut(ops)[i])
  {
    if ops != [] {
      CutSegments(ops[1..]);
    }
  }

  lemma {:induction false} AddsShift(x: Item, items: seq<Item>, from: nat)
    requires from <= |items|
    ensures Adds([x] + items, from + 1) == Adds(items, from)
    decreases |items| - from
  {
    if from < |items| {
      AddsShift(x, items, from + 1);
    }
  }

  lemma SegmentedFront(x: Item, first: seq<Item>, others: seq<seq<Item>>)
    ensures Segmented([[x] + first] + others) == [Add(x)] + Segmented([first] + others)
  {
    AddsShift(x, first, 0);
    assert ([[x] + first] + others)[1..] == others && ([first] + others)[1..] == others;
    assert [Add(x)] + Adds(first, 0) + [Flush] + Segmented(others)
      == [Add(x)] + (Adds(first, 0) + [Flush] + Segmented(others));
  }

  lemma SegmentedEmptyFront(others: seq<seq<Item>>)
    ensures Segmented([[]] + others) == [Flush] + Segmented(others)
  {
    var none: seq<Item> := [];
    assert ([none] + others)[1..] == others && Adds(none, 0) == [];
  }

  /** A run with a final flush behaves like its segments. */
  lemma {:induction false} CutKeepsRun(st: State, config: Config, ops: seq<Op>)
    ensures Exec(st, config, ops + [Flush]) == Exec(st, config, Segmented(Cut(ops)))
    decreases |ops|
  {
    if ops == [] {
      SegmentedEmptyFront([]);
      assert Segmented(Cut(ops)) == [Flush] && ops + [Flush] == [Flush];
    } else {
      var rest, next := Cut(ops[1..]), Step(st, config, ops[0]);
      assert (ops + [Flush])[1..] == ops[1..] + [Flush];
      CutKeepsRun(next, config, ops[1..]);
      SegmentedEmptyFront(rest);
      var tail := [Flush] + Segmented(rest);
      assert tail[1..] == Segmented(rest);
      if ops[0].Add? {
        var x := ops[0].item;
        if Flushes(x) {
          SegmentedFront(x, [], rest);
          assert [x] + [] == [x];
          assert ([Add(x)] + tail)[1..] == tail;
        } else {
          SegmentedFront(x, rest[0], rest[1..]);
          assert [rest[0]] + rest[1..] == rest;
          assert ([Add(x)] + Segmented(rest))[1..] == Segmented(rest);
        }
      }
    }
  }

  /** Over any run, flushed at its end, no other batching that honours the same forced flushes and the
      same limits writes fewer batches. */
  lemma RunIsOptimal(config: Config, ops: seq<Op>, splits: seq<seq<seq<Item>>>)
    requires config.maxEvents >= 1 && AreSplits(splits, Cut(ops), config)
    ensures |Exec(State([], 0, []), config, ops + [Flush]).written| <= TotalBatches(splits)
  {
    CutSegments(ops);
    CutKeepsRun(State([], 0, []), config, ops);
    SegmentsAreOptimal(State([], 0, []), config, Cut(ops), splits);
  }
}
