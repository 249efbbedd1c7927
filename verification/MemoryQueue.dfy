/** The in-memory priority queue with leases, bounded retries and dead letters. */
module MemoryQueue {
  import opened Domain
  import opened QueueItems
  import Ledger = LeaseLedger

  /** A leased item together with the receipt issued for it. */
  datatype Lease = Lease(item: Queued, receipt: Receipt)

  datatype State = State(
    waiting: seq<Queued>, counter: nat, closed: bool, leases: map<string, Lease>, dead: seq<Command>)

  /** The heap order: smaller (negated) priority first, then insertion order. */
  predicate Before(x: Queued, y: Queued) {
    x.priority < y.priority || (x.priority == y.priority && x.sequence < y.sequence)
  }

  /** The item the heap hands out next. */
  function Least(items: seq<Queued>): (x: Queued)
    requires items != []
    ensures x in items && forall y | y in items :: !Before(y, x)
  {
    if |items| == 1 then items[0]
    else
      var rest := Least(items[1..]);
      assert forall y | y in items :: y == items[0] || y in items[1..];
      if Before(rest, items[0]) then rest else items[0]
  }

  /** Insertion puts the negated priority first, so that the most urgent command is the smallest. */
  function Enqueued(st: State, command: Command, deliveryCount: nat): State {
    st.(waiting := st.waiting + [Queued(-PriorityValue(command.priority), st.counter, command, deliveryCount)],
        counter := st.counter + 1)
  }

  function AfterPublish(st: State, command: Command): (State, Result<()>) {
    if st.closed then (st, Err(QueueClosed)) else (Enqueued(st, command, 0), Ok(()))
  }

  /** `None` is a receiver suspended on an empty open queue. */
  function AfterReceive(st: State, lease: string): (State, Option<Result<Receipt>>) {
    if st.waiting == [] then (st, if st.closed then Some(Err(QueueClosed)) else None)
    else
      var x := Least(st.waiting);
      var receipt := Receipt(x.command, lease, x.deliveryCount + 1);
      (st.(waiting := Without(st.waiting, x), leases := st.leases[lease := Lease(x, receipt)]), Some(Ok(receipt)))
  }

  function AfterAcknowledge(st: State, receipt: Receipt): (State, Result<()>) {
    if receipt.leaseId !in st.leases then (st, Err(InvalidExecutionInput))
    else (st.(leases := st.leases - {receipt.leaseId}), Ok(()))
  }

  predicate MayRetry(deliveryCount: nat, maxRetries: int) {
    deliveryCount <= maxRetries
  }

  function AfterReject(st: State, maxRetries: int, receipt: Receipt, retryable: bool): (State, Result<()>) {
    if receipt.leaseId !in st.leases then (st, Err(InvalidExecutionInput))
    else
      var command := st.leases[receipt.leaseId].item.command;
      var released := st.(leases := st.leases - {receipt.leaseId});
      if retryable && MayRetry(receipt.deliveryCount, maxRetries)
        then (Enqueued(released, command, receipt.deliveryCount), Ok(()))
      else (released.(dead := st.dead + [command]), Ok(()))
  }

  class InMemoryPriorityQueue {
    const maxRetries: int
    var waiting: seq<Queued>
    var counter: nat
    var closed: bool
    var leases: map<string, Lease>
    var deadLetters: seq<Command>

    ghost function View(): State
      reads this
    {
      State(waiting, counter, closed, leases, deadLetters)
    }

    constructor (maxRetries: int)
      ensures this.maxRetries == maxRetries && View() == State([], 0, false, map[], [])
    {
      this.maxRetries := maxRetries;
      waiting, counter, closed, leases, deadLetters := [], 0, false, map[], [];
    }

    method Put(command: Command, deliveryCount: nat)
      modifies this
      ensures View() == Enqueued(old(View()), command, deliveryCount)
    {
      waiting := waiting + [Queued(-PriorityValue(command.priority), counter, command, deliveryCount)];
      counter := counter + 1;
    }

    method Publish(command: Command) returns (r: Result<()>)
      modifies this
      ensures (View(), r) == AfterPublish(old(View()), command)
    {
      if closed {
        return Err(QueueClosed);
      }
      Put(command, 0);
      r := Ok(());
    }

    /** A bare request is wrapped in a new command first. */
    method PublishRequest(identity: Identity, priority: Priority, commandId: string, now: int) returns (r: Result<()>)
      modifies this
      ensures (View(), r) == AfterPublish(old(View()), Command(commandId, identity, priority, now))
    {
      r := Publish(Command(commandId, identity, priority, now));
    }

    method Receive(lease: string) returns (r: Option<Result<Receipt>>)
      modifies this
      ensures (View(), r) == AfterReceive(old(View()), lease)
    {
      if waiting == [] {
        return if closed then Some(Err(QueueClosed)) else None;
      }
      var item := Least(waiting);
      waiting := Without(waiting, item);
      var receipt := Receipt(item.command, lease, item.deliveryCount + 1);
      leases := leases[lease := Lease(item, receipt)];
      r := Some(Ok(receipt));
    }

    method Acknowledge(receipt: Receipt) returns (r: Result<()>)
      modifies this
      ensures (View(), r) == AfterAcknowledge(old(View()), receipt)
    {
      if receipt.leaseId !in leases {
        return Err(InvalidExecutionInput);
      }
      leases := leases - {receipt.leaseId};
      r := Ok(());
    }

    method Reject(receipt: Receipt, retryable: bool) returns (r: Result<()>)
      modifies this
      ensures (View(), r) == AfterReject(old(View()), maxRetries, receipt, retryable)
    {
      if receipt.leaseId !in leases {
        return Err(InvalidExecutionInput);
      }
      var item := leases[receipt.leaseId].item;
      leases := leases - {receipt.leaseId};
      if retryable && receipt.deliveryCount <= maxRetries {
        Put(item.command, receipt.deliveryCount);
      } else {
        deadLetters := deadLetters + [item.command];
      }
      r := Ok(());
    }

    method Close()
      modifies this
      ensures View() == old(View()).(closed := true)
    {
      closed := true;
    }
  }

  // ----- Receipts -----

  /** A receive is refused exactly when nothing waits and the queue is closed, and waits exactly when
      nothing waits and it is open; its receipt is for one waiting command, counts the delivery, and can
      be acknowledged or rejected once, under its own lease. */
  lemma ReceiptIsActive(st: State, lease: string, maxRetries: int, retryable: bool)
    requires lease !in st.leases
    ensures var (next, r) := AfterReceive(st, lease);
            && (r == Some(Err(QueueClosed)) <==> st.waiting == [] && st.closed)
            && (r == None <==> st.waiting == [] && !st.closed)
            && (r.Some? && r.value.Ok? ==>
                  var receipt := r.value.value;
                  && (exists x :: x in st.waiting && receipt.command == x.command
                                  && receipt.deliveryCount == x.deliveryCount + 1)
                  && receipt.leaseId == lease && next.leases.Keys == st.leases.Keys + {lease}
                  && var (acknowledged, a) := AfterAcknowledge(next, receipt);
                     var (rejected, b) := AfterReject(next, maxRetries, receipt, retryable);
                     && a == Ok(()) && acknowledged.leases == st.leases && acknowledged.waiting == next.waiting
                     && b == Ok(()) && rejected.leases == st.leases
                     && AfterAcknowledge(acknowledged, receipt) == (acknowledged, Err(InvalidExecutionInput))
                     && AfterReject(acknowledged, maxRetries, receipt, retryable)
                        == (acknowledged, Err(InvalidExecutionInput)))
  {
    if st.waiting != [] {
      var x := Least(st.waiting);
      assert st.leases[lease := Lease(x, Receipt(x.command, lease, x.deliveryCount + 1))] - {lease} == st.leases;
    }
  }

  /** Publishing is refused exactly when the queue is closed, and then changes nothing. */
  lemma PublishRefusedIff(st: State, command: Command)
    ensures var (next, r) := AfterPublish(st, command);
            && (r == Err(QueueClosed) <==> st.closed) && (r == Ok(()) <==> !st.closed)
            && (st.closed ==> next == st)
  {
  }

  // ----- Order -----

  /** Waiting items carry distinct, increasing numbers and their own command's priority. */
  ghost predicate WellFormed(st: State) {
    && Numbered(st.waiting, st.counter)
    && (forall x | x in st.waiting :: x.priority == -PriorityValue(x.command.priority))
  }

  datatype Op =
    | Publish(command: Command)
    | Receive(lease: string)
    | Acknowledge(receipt: Receipt)
    | Reject(receipt: Receipt, retryable: bool)
    | Close

  function Step(st: State, maxRetries: int, op: Op): State {
    match op
    case Publish(command) => AfterPublish(st, command).0
    case Receive(lease) => AfterReceive(st, lease).0
    case Acknowledge(receipt) => AfterAcknowledge(st, receipt).0
    case Reject(receipt, retryable) => AfterReject(st, maxRetries, receipt, retryable).0
    case Close => st.(closed := true)
  }

  function Exec(st: State, maxRetries: int, ops: seq<Op>): State
    decreases |ops|
  {
    if ops == [] then st else Exec(Step(st, maxRetries, ops[0]), maxRetries, ops[1..])
  }

  lemma StepKeepsWellFormed(st: State, maxRetries: int, op: Op)
    requires WellFormed(st)
    ensures WellFormed(Step(st, maxRetries, op))
  {
    if op.Receive? && st.waiting != [] {
      WithoutElements(st.waiting, st.counter, Least(st.waiting));
    }
  }

  lemma {:induction false} RunKeepsWellFormed(st: State, maxRetries: int, ops: seq<Op>)
    requires WellFormed(st)
    ensures WellFormed(Exec(st, maxRetries, ops))
    decreases |ops|
  {
    if ops != [] {
      StepKeepsWellFormed(st, maxRetries, ops[0]);
      RunKeepsWellFormed(Step(st, maxRetries, ops[0]), maxRetries, ops[1..]);
    }
  }

  /** What successive receives hand out until nothing waits. */
  function Drained(items: seq<Queued>): seq<Queued>
    decreases |items|
  {
    if items == [] then []
    else
      var x := Least(items);
      [x] + Drained(Without(items, x))
  }

  ghost predicate InOrder(items: seq<Queued>) {
    forall i, j | 0 <= i < j < |items| :: Before(items[i], items[j])
  }

  lemma InOrderAfter(x: Queued, items: seq<Queued>)
    requires InOrder(items) && forall j | 0 <= j < |items| :: Before(x, items[j])
    ensures InOrder([x] + items)
  {
    var all := [x] + items;
    forall i, j | 0 <= i < j < |all| ensures Before(all[i], all[j]) {
      assert all[j] == items[j - 1];
      assert i > 0 ==> all[i] == items[i - 1];
    }
  }

  lemma {:induction false} DrainKeepsAll(items: seq<Queued>)
    ensures multiset(Drained(items)) == multiset(items)
    decreases |items|
  {
    if items != [] {
      var x := Least(items);
      var k := IndexOf(items, x);
      DrainKeepsAll(Without(items, x));
      assert items == items[..k] + [x] + items[k + 1..];
    }
  }

  lemma LeastIsBefore(items: seq<Queued>, counter: nat, y: Queued)
    requires Numbered(items, counter) && items != [] && y in Without(items, Least(items))
    ensures Before(Least(items), y)
  {
    var x := Least(items);
    WithoutElements(items, counter, x);
    if y.sequence == x.sequence {
      NumberedUnique(items, counter, x, y);
    }
  }

  /** Draining hands out every waiting item once, higher priorities first and each priority in
      insertion order. */
  lemma {:induction false} DrainIsSorted(items: seq<Queued>, counter: nat)
    requires Numbered(items, counter)
    ensures multiset(Drained(items)) == multiset(items)
    ensures InOrder(Drained(items))
    decreases |items|
  {
    DrainKeepsAll(items);
    if items != [] {
      var x := Least(items);
      var rest := Without(items, x);
      WithoutElements(items, counter, x);
      DrainIsSorted(rest, counter);
      forall j | 0 <= j < |Drained(rest)| ensures Before(x, Drained(rest)[j]) {
        assert Drained(rest)[j] in multiset(Drained(rest));
        LeastIsBefore(items, counter, Drained(rest)[j]);
      }
      InOrderAfter(x, Drained(rest));
    }
  }

  function Receives(leases: seq<string>): seq<Op>
    decreases |leases|
  {
    if leases == [] then [] else Receives(leases[..|leases| - 1]) + [Receive(leases[|leases| - 1])]
  }

  ghost predicate Distinct(leases: seq<string>) {
    forall i, j | 0 <= i < j < |leases| :: leases[i] != leases[j]
  }

  lemma {:induction false} ExecLast(st: State, maxRetries: int, ops: seq<Op>, op: Op)
    ensures Exec(st, maxRetries, ops + [op]) == Step(Exec(st, maxRetries, ops), maxRetries, op)
    decreases |ops|
  {
    if ops == [] {
      assert ([] + [op])[1..] == [];
    } else {
      assert (ops + [op])[1..] == ops[1..] + [op];
      ExecLast(Step(st, maxRetries, ops[0]), maxRetries, ops[1..], op);
    }
  }

  lemma {:induction false} DrainedLength(items: seq<Queued>)
    ensures |Drained(items)| == |items|
    decreases |items|
  {
    if items != [] {
      DrainedLength(Without(items, Least(items)));
    }
  }

  lemma NextDrained(st: State, lease: string)
    requires st.waiting != []
    ensures var st', d := AfterReceive(st, lease).0, Drained(st.waiting);
            && d != [] && Drained(st'.waiting) == d[1..]
            && st'.leases.Keys == st.leases.Keys + {lease} && st'.leases[lease].item == d[0]
            && forall other | other in st.leases && other != lease :: st'.leases[other] == st.leases[other]
  {
  }

  /** The leases hold the items of `d`, one by one. */
  ghost predicate Hold(st: State, leases: seq<string>, d: seq<Queued>) {
    |leases| <= |d| && forall k | 0 <= k < |leases| :: leases[k] in st.leases && st.leases[leases[k]].item == d[k]
  }

  lemma OneMoreReceived(st: State, leases: seq<string>, d: seq<Queued>)
    requires Distinct(leases) && leases != [] && |leases| <= |d|
    requires Hold(st, leases[..|leases| - 1], d) && Drained(st.waiting) == d[|leases| - 1..]
    ensures var st' := AfterReceive(st, leases[|leases| - 1]).0;
            Hold(st', leases, d) && Drained(st'.waiting) == d[|leases|..]
  {
    var k := |leases| - 1;
    DrainedLength(st.waiting);
    NextDrained(st, leases[k]);
    forall j | 0 <= j < k
      ensures leases[j] in st.leases && st.leases[leases[j]].item == d[j] && leases[j] != leases[k] {
      assert leases[..k][j] == leases[j];
    }
  }

  /** Successive receives lease the waiting items in the order of `Drained`. */
  lemma {:induction false} ReceivesDrain(st: State, maxRetries: int, leases: seq<string>)
    requires Distinct(leases) && |leases| <= |st.waiting|
    ensures var st', d := Exec(st, maxRetries, Receives(leases)), Drained(st.waiting);
            Hold(st', leases, d) && Drained(st'.waiting) == d[|leases|..]
    decreases |leases|
  {
    DrainedLength(st.waiting);
    if leases != [] {
      var front, last := leases[..|leases| - 1], leases[|leases| - 1];
      ReceivesDrain(st, maxRetries, front);
      ExecLast(st, maxRetries, Receives(front), Receive(last));
      OneMoreReceived(Exec(st, maxRetries, Receives(front)), leases, Drained(st.waiting));
    }
  }

  /** What successive receives leased, in order. */
  function HandedOut(st: State, leases: seq<string>): seq<Queued>
    requires forall k | 0 <= k < |leases| :: leases[k] in st.leases
  {
    seq(|leases|, k requires 0 <= k < |leases| => st.leases[leases[k]].item)
  }

  /** After any history, receiving until nothing waits hands out every waiting command once, higher
      priorities first and each priority in insertion order. */
  lemma DrainAfterHistory(maxRetries: int, ops: seq<Op>, leases: seq<string>)
    requires Distinct(leases)
    requires |leases| == |Exec(State([], 0, false, map[], []), maxRetries, ops).waiting|
    ensures var st := Exec(State([], 0, false, map[], []), maxRetries, ops);
            var st' := Exec(st, maxRetries, Receives(leases));
            && st'.waiting == [] && (forall k | 0 <= k < |leases| :: leases[k] in st'.leases)
            && multiset(HandedOut(st', leases)) == multiset(st.waiting) && InOrder(HandedOut(st', leases))
            && forall i, j | 0 <= i < j < |leases| ::
                 var x, y := HandedOut(st', leases)[i], HandedOut(st', leases)[j];
                 && !MoreUrgent(y.command.priority, x.command.priority)
                 && (x.command.priority == y.command.priority ==> x.sequence < y.sequence)
  {
    var st := Exec(State([], 0, false, map[], []), maxRetries, ops);
    var st' := Exec(st, maxRetries, Receives(leases));
    RunKeepsWellFormed(State([], 0, false, map[], []), maxRetries, ops);
    ReceivesDrain(st, maxRetries, leases);
    DrainIsSorted(st.waiting, st.counter);
    DrainedLength(st.waiting);
    DrainedLength(st'.waiting);
    assert HandedOut(st', leases) == Drained(st.waiting);
    OrderByClass(st, Drained(st.waiting));
  }

  lemma OrderByClass(st: State, d: seq<Queued>)
    requires WellFormed(st) && multiset(d) == multiset(st.waiting) && InOrder(d)
    ensures forall i, j | 0 <= i < j < |d| ::
              && !MoreUrgent(d[j].command.priority, d[i].command.priority)
              && (d[i].command.priority == d[j].command.priority ==> d[i].sequence < d[j].sequence)
  {
    forall i | 0 <= i < |d| ensures d[i].priority == -PriorityValue(d[i].command.priority) {
      assert d[i] in multiset(d);
      assert d[i] in st.waiting;
    }
  }

  /** After any history, a rejected command that is queued again is handed out after every waiting
      command of its own or a higher priority. */
  lemma RetriedGoesLast(maxRetries: int, ops: seq<Op>, receipt: Receipt, y: Queued)
    requires var st := Exec(State([], 0, false, map[], []), maxRetries, ops);
             && receipt.leaseId in st.leases && receipt.deliveryCount <= maxRetries
             && y in st.waiting
             && PriorityValue(y.command.priority) >= PriorityValue(st.leases[receipt.leaseId].item.command.priority)
    ensures var st := Exec(State([], 0, false, map[], []), maxRetries, ops);
            var next := AfterReject(st, maxRetries, receipt, true).0;
            var x := next.waiting[|next.waiting| - 1];
            && x.command == st.leases[receipt.leaseId].item.command && x.deliveryCount == receipt.deliveryCount
            && next.waiting == st.waiting + [x] && Before(y, x)
  {
    RunKeepsWellFormed(State([], 0, false, map[], []), maxRetries, ops);
  }

  // ----- Refinement of the ledger -----

  /** Deliveries a command can get: one, and one more for every permitted retry. */
  function Limit(maxRetries: int): nat {
    if maxRetries < 0 then 1 else maxRetries + 1
  }

  function Receipts(leases: map<string, Lease>): map<string, Receipt> {
    map lease | lease in leases :: leases[lease].receipt
  }

  /** Receipts and leased items agree about the command. */
  ghost predicate Paired(st: State) {
    forall lease | lease in st.leases ::
      st.leases[lease].receipt.command == st.leases[lease].item.command && st.leases[lease].receipt.deliveryCount >= 1
  }

  ghost predicate Admissible(st: State, op: Op) {
    match op
    case Publish(command) => true
    case Receive(lease) => lease !in st.leases
    case Acknowledge(receipt) => receipt.leaseId in st.leases ==> st.leases[receipt.leaseId].receipt == receipt
    case Reject(receipt, retryable) => receipt.leaseId in st.leases ==> st.leases[receipt.leaseId].receipt == receipt
    case Close => true
  }

  function Books(st: State): Ledger.Books {
    Ledger.BooksOf(st.waiting, Receipts(st.leases), st.dead)
  }

  function Abstract(st: State, op: Op): Ledger.Op {
    match op
    case Publish(command) => if st.closed then Ledger.Idle else Ledger.Publish(command.commandId)
    case Receive(lease) =>
      if st.waiting == [] then Ledger.Idle else Ledger.Receive(IndexOf(st.waiting, Least(st.waiting)), lease)
    case Acknowledge(receipt) =>
      if receipt.leaseId in st.leases then Ledger.Acknowledge(receipt.leaseId) else Ledger.Idle
    case Reject(receipt, retryable) =>
      if receipt.leaseId in st.leases then Ledger.Reject(receipt.leaseId, retryable) else Ledger.Idle
    case Close => Ledger.Idle
  }

  ghost predicate Refines(st: State, maxRetries: int, op: Op) {
    var a := Abstract(st, op);
    Ledger.Enabled(Books(st), a) && Books(Step(st, maxRetries, op)) == Ledger.After(Books(st), Limit(maxRetries), a)
  }

  lemma ReceiveRefines(st: State, maxRetries: int, lease: string)
    requires lease !in st.leases
    ensures Refines(st, maxRetries, Receive(lease))
  {
    if st.waiting != [] {
      var x := Least(st.waiting);
      var receipt := Receipt(x.command, lease, x.deliveryCount + 1);
      assert Receipts(st.leases[lease := Lease(x, receipt)]) == Receipts(st.leases)[lease := receipt];
      Ledger.BooksAfterReceive(st.waiting, Receipts(st.leases), st.dead, x, lease, Limit(maxRetries));
    }
  }

  lemma ReleaseRefines(st: State, maxRetries: int, op: Op)
    requires op.Acknowledge? || op.Reject?
    requires Admissible(st, op) && Paired(st)
    ensures Refines(st, maxRetries, op)
  {
    var lease := op.receipt.leaseId;
    if lease in st.leases {
      assert Receipts(st.leases - {lease}) == Receipts(st.leases) - {lease};
      Ledger.LeaseEntriesRemoved(Receipts(st.leases), lease);
      var command := st.leases[lease].item.command;
      Ledger.EntriesAdded(st.waiting,
        Queued(-PriorityValue(command.priority), st.counter, command, op.receipt.deliveryCount));
    }
  }

  /** Every operation of the queue is one ledger operation: the heap order is all it adds. */
  lemma QueueRefinesLedger(st: State, maxRetries: int, op: Op)
    requires Admissible(st, op) && Paired(st)
    ensures Refines(st, maxRetries, op) && Paired(Step(st, maxRetries, op))
  {
    match op {
      case Publish(command) =>
        Ledger.EntriesAdded(st.waiting, Queued(-PriorityValue(command.priority), st.counter, command, 0));
      case Receive(lease) => ReceiveRefines(st, maxRetries, lease);
      case Acknowledge(receipt) => ReleaseRefines(st, maxRetries, op);
      case Reject(receipt, retryable) => ReleaseRefines(st, maxRetries, op);
      case Close =>
    }
  }

  ghost predicate Admitted(st: State, places: Ledger.Places, op: Op) {
    Admissible(st, op) && Ledger.Fresh(places, Abstract(st, op))
  }

  /** A run with fresh identifiers and genuine receipts, together with the ledger operations it
      amounts to; other operations are skipped. */
  ghost function Tracked(
    st: State, maxRetries: int, ops: seq<Op>, places: Ledger.Places): (State, Ledger.Places, seq<Ledger.Op>)
    requires Paired(st)
    decreases |ops|
  {
    if ops == [] then (st, places, [])
    else if Admitted(st, places, ops[0]) then
      QueueRefinesLedger(st, maxRetries, ops[0]);
      var a := Abstract(st, ops[0]);
      var (final, places', run) :=
        Tracked(Step(st, maxRetries, ops[0]), maxRetries, ops[1..],
          Ledger.Moved(Books(st), places, Limit(maxRetries), a));
      (final, places', [a] + run)
    else Tracked(st, maxRetries, ops[1..], places)
  }

  /** Every run of the queue is a run of the ledger. */
  lemma {:induction false} RunRefinesLedger(st: State, maxRetries: int, ops: seq<Op>, places: Ledger.Places)
    requires Paired(st)
    ensures var (final, places', run) := Tracked(st, maxRetries, ops, places);
            Ledger.Exec(Books(st), places, Limit(maxRetries), run) == (Books(final), places')
    decreases |ops|
  {
    if ops != [] {
      if Admitted(st, places, ops[0]) {
        QueueRefinesLedger(st, maxRetries, ops[0]);
        var a := Abstract(st, ops[0]);
        var next, moved := Step(st, maxRetries, ops[0]), Ledger.Moved(Books(st), places, Limit(maxRetries), a);
        RunRefinesLedger(next, maxRetries, ops[1..], moved);
        var run := Tracked(st, maxRetries, ops, places).2;
        assert run[1..] == Tracked(next, maxRetries, ops[1..], moved).2;
      } else {
        RunRefinesLedger(st, maxRetries, ops[1..], places);
      }
    }
  }

  /** In every run from an empty queue, each published command is in exactly one place and is
      delivered at most once more than the permitted retries. */
  lemma CommandsAreConserved(maxRetries: int, ops: seq<Op>, id: string)
    ensures var start := State([], 0, false, map[], []);
            var (st, places, run) := Tracked(start, maxRetries, ops, map[]);
            && Ledger.Accounts(Books(st), places, Limit(maxRetries))
            && Ledger.Receipts(Books(start), map[], Limit(maxRetries), run, id) <= Limit(maxRetries)
  {
    var start := State([], 0, false, map[], []);
    var run := Tracked(start, maxRetries, ops, map[]).2;
    RunRefinesLedger(start, maxRetries, ops, map[]);
    assert Books(start) == Ledger.Books([], map[], []);
    Ledger.RunKeepsAccounts(Books(start), map[], Limit(maxRetries), run, id);
    Ledger.RetryBound(Limit(maxRetries), run, id);
  }
}
