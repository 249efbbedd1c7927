/** The lease queue in front of the fair dispatcher. */
module KafkaQueue {
  import opened Domain
  import opened QueueItems
  import Dispatch = FairDispatcher
  import Ledger = LeaseLedger
  import Memory = MemoryQueue

  /** Deliveries after which a rejected command is not queued again. */
  const MAX_DELIVERIES: nat := 3

  datatype State = State(dispatch: Dispatch.State, leases: map<string, Receipt>, dead: seq<Command>)

  ghost function AfterPublish(st: State, command: Command): State {
    st.(dispatch := Dispatch.AfterAdd(st.dispatch, command, 0))
  }

  ghost function AfterReceive(st: State, lease: string, now: int, ageAfter: int): (State, Result<Receipt>) {
    var (dispatch, selected) := Dispatch.AfterChoose(st.dispatch, now, ageAfter);
    match selected
    case None => (st, Err(QueueClosed))
    case Some(x) =>
      var receipt := Receipt(x.command, lease, x.deliveryCount + 1);
      (st.(dispatch := dispatch, leases := st.leases[lease := receipt]), Ok(receipt))
  }

  ghost function AfterAcknowledge(st: State, receipt: Receipt): (State, Result<()>) {
    if receipt.leaseId !in st.leases then (st, Err(InvalidExecutionInput))
    else (st.(leases := st.leases - {receipt.leaseId}), Ok(()))
  }

  predicate MayRetry(deliveryCount: nat) {
    deliveryCount < MAX_DELIVERIES
  }

  ghost function AfterReject(st: State, receipt: Receipt, retryable: bool): (State, Result<()>) {
    if receipt.leaseId !in st.leases then (st, Err(InvalidExecutionInput))
    else
      var released := st.(leases := st.leases - {receipt.leaseId});
      if retryable && MayRetry(receipt.deliveryCount)
      then (released.(dispatch := Dispatch.AfterAdd(st.dispatch, receipt.command, receipt.deliveryCount)), Ok(()))
      else (released.(dead := st.dead + [receipt.command]), Ok(()))
  }

  class KafkaRunCommandQueue {
    const dispatcher: Dispatch.WeightedFairDispatcher
    var leases: map<string, Receipt>
    var deadLetters: seq<Command>
    /** The commands the transport has recorded, in order. */
    var messages: seq<Command>

    ghost function View(): State
      reads this, dispatcher
    {
      State(dispatcher.View(), leases, deadLetters)
    }

    ghost predicate Valid()
      reads this, dispatcher
    {
      Dispatch.WellFormed(dispatcher.View())
    }

    constructor (ageAfter: int)
      ensures Valid() && fresh(dispatcher) && dispatcher.ageAfter == ageAfter
      ensures View() == State(Dispatch.State([], 0, 0), map[], []) && messages == []
    {
      dispatcher := new Dispatch.WeightedFairDispatcher(ageAfter);
      leases, deadLetters, messages := map[], [], [];
    }

    method Publish(command: Command)
      requires Valid()
      modifies this, dispatcher
      ensures Valid() && View() == AfterPublish(old(View()), command) && messages == old(messages) + [command]
    {
      messages := messages + [command];
      Dispatch.AddKeepsWellFormed(dispatcher.View(), command, 0);
      dispatcher.Add(command, 0);
    }

    method Receive(lease: string, now: int) returns (r: Result<Receipt>)
      requires Valid()
      modifies this`leases, dispatcher
      ensures Valid() && (View(), r) == AfterReceive(old(View()), lease, now, dispatcher.ageAfter)
    {
      var selected := dispatcher.Choose(now);
      match selected
      case None =>
        r := Err(QueueClosed);
      case Some(x) =>
        var receipt := Receipt(x.command, lease, x.deliveryCount + 1);
        leases := leases[lease := receipt];
        r := Ok(receipt);
    }

    method Acknowledge(receipt: Receipt) returns (r: Result<()>)
      requires Valid()
      modifies this`leases
      ensures Valid() && (View(), r) == AfterAcknowledge(old(View()), receipt)
    {
      if receipt.leaseId !in leases {
        return Err(InvalidExecutionInput);
      }
      leases := leases - {receipt.leaseId};
      r := Ok(());
    }

    method Reject(receipt: Receipt, retryable: bool) returns (r: Result<()>)
      requires Valid()
      modifies this`leases, this`deadLetters, dispatcher
      ensures Valid() && (View(), r) == AfterReject(old(View()), receipt, retryable)
    {
      if receipt.leaseId !in leases {
        return Err(InvalidExecutionInput);
      }
      leases := leases - {receipt.leaseId};
      if retryable && receipt.deliveryCount < MAX_DELIVERIES {
        Dispatch.AddKeepsWellFormed(dispatcher.View(), receipt.command, receipt.deliveryCount);
        dispatcher.Add(receipt.command, receipt.deliveryCount);
      } else {
        deadLetters := deadLetters + [receipt.command];
      }
      r := Ok(());
    }
  }

  // ----- Receipts -----

  /** A receive is refused exactly when nothing waits; its receipt is for one waiting command, counts the
      delivery, and can be acknowledged or rejected once, under its own lease. */
  lemma ReceiptIsActive(st: State, lease: string, now: int, ageAfter: int, retryable: bool)
    requires lease !in st.leases
    ensures var (next, r) := AfterReceive(st, lease, now, ageAfter);
            && (r == Err(QueueClosed) <==> st.dispatch.items == [])
            && (r.Ok? ==>
                  var receipt := r.value;
                  && (exists x :: x in st.dispatch.items && receipt.command == x.command
                                  && receipt.deliveryCount == x.deliveryCount + 1)
                  && receipt.leaseId == lease && next.leases == st.leases[lease := receipt]
                  && var (acknowledged, a) := AfterAcknowledge(next, receipt);
                     var (rejected, b) := AfterReject(next, receipt, retryable);
                     && a == Ok(()) && acknowledged.leases == st.leases && acknowledged.dispatch == next.dispatch
                     && b == Ok(()) && rejected.leases == st.leases
                     && AfterAcknowledge(acknowledged, receipt) == (acknowledged, Err(InvalidExecutionInput))
                     && AfterReject(acknowledged, receipt, retryable) == (acknowledged, Err(InvalidExecutionInput)))
  {
    var (next, r) := AfterReceive(st, lease, now, ageAfter);
    if r.Ok? {
      assert next.leases - {lease} == st.leases;
    }
  }

  // ----- Refinement of the ledger -----

  datatype Op =
    | Publish(command: Command)
    | Receive(lease: string, now: int)
    | Acknowledge(receipt: Receipt)
    | Reject(receipt: Receipt, retryable: bool)

  /** Lease identifiers are fresh, and a receipt with an active lease is the one issued for it. */
  ghost predicate Admissible(st: State, op: Op) {
    match op
    case Publish(command) => true
    case Receive(lease, now) => lease !in st.leases
    case Acknowledge(receipt) => receipt.leaseId in st.leases ==> st.leases[receipt.leaseId] == receipt
    case Reject(receipt, retryable) => receipt.leaseId in st.leases ==> st.leases[receipt.leaseId] == receipt
  }

  ghost function Step(st: State, op: Op, ageAfter: int): State {
    match op
    case Publish(command) => AfterPublish(st, command)
    case Receive(lease, now) => AfterReceive(st, lease, now, ageAfter).0
    case Acknowledge(receipt) => AfterAcknowledge(st, receipt).0
    case Reject(receipt, retryable) => AfterReject(st, receipt, retryable).0
  }

  ghost function Books(st: State): Ledger.Books {
    Ledger.BooksOf(st.dispatch.items, st.leases, st.dead)
  }

  /** The ledger operation a queue operation amounts to. */
  ghost function Abstract(st: State, op: Op, ageAfter: int): Ledger.Op {
    match op
    case Publish(command) => Ledger.Publish(command.commandId)
    case Receive(lease, now) =>
      var selected := Dispatch.AfterChoose(st.dispatch, now, ageAfter).1;
      if selected == None then Ledger.Idle else Ledger.Receive(IndexOf(st.dispatch.items, selected.value), lease)
    case Acknowledge(receipt) =>
      if receipt.leaseId in st.leases then Ledger.Acknowledge(receipt.leaseId) else Ledger.Idle
    case Reject(receipt, retryable) =>
      if receipt.leaseId in st.leases then Ledger.Reject(receipt.leaseId, retryable) else Ledger.Idle
  }

  ghost predicate Refines(st: State, op: Op, ageAfter: int) {
    var a := Abstract(st, op, ageAfter);
    Ledger.Enabled(Books(st), a) && Books(Step(st, op, ageAfter)) == Ledger.After(Books(st), MAX_DELIVERIES, a)
  }

  lemma ReceiveRefines(st: State, lease: string, now: int, ageAfter: int)
    requires lease !in st.leases
    ensures Refines(st, Receive(lease, now), ageAfter)
  {
    if st.dispatch.items != [] {
      var (dispatch, selected) := Dispatch.AfterChoose(st.dispatch, now, ageAfter);
      var x := selected.value;
      assert x in st.dispatch.items && dispatch.items == Without(st.dispatch.items, x);
      Ledger.BooksAfterReceive(st.dispatch.items, st.leases, st.dead, x, lease, MAX_DELIVERIES);
    }
  }

  lemma RejectRefines(st: State, receipt: Receipt, retryable: bool, ageAfter: int)
    requires receipt.leaseId in st.leases ==> st.leases[receipt.leaseId] == receipt
    ensures Refines(st, Reject(receipt, retryable), ageAfter)
  {
    Ledger.LeaseEntriesRemoved(st.leases, receipt.leaseId);
    Ledger.EntriesAdded(st.dispatch.items,
      Queued(PriorityValue(receipt.command.priority), st.dispatch.counter, receipt.command, receipt.deliveryCount));
  }

  /** Every operation of the queue is one ledger operation with the limit 3: which command is chosen
      is all that the dispatcher adds. */
  lemma QueueRefinesLedger(st: State, op: Op, ageAfter: int)
    requires Admissible(st, op)
    ensures Refines(st, op, ageAfter)
  {
    match op {
      case Publish(command) =>
        Ledger.EntriesAdded(st.dispatch.items,
          Queued(PriorityValue(command.priority), st.dispatch.counter, command, 0));
      case Receive(lease, now) => ReceiveRefines(st, lease, now, ageAfter);
      case Acknowledge(receipt) => Ledger.LeaseEntriesRemoved(st.leases, receipt.leaseId);
      case Reject(receipt, retryable) => RejectRefines(st, receipt, retryable, ageAfter);
    }
  }

  ghost predicate Admitted(st: State, places: Ledger.Places, op: Op, ageAfter: int) {
    Admissible(st, op) && Ledger.Fresh(places, Abstract(st, op, ageAfter))
  }

  ghost function Exec(st: State, ops: seq<Op>, places: Ledger.Places, ageAfter: int): (State, Ledger.Places)
    decreases |ops|
  {
    if ops == [] then (st, places)
    else if Admitted(st, places, ops[0], ageAfter) then
      QueueRefinesLedger(st, ops[0], ageAfter);
      Exec(Step(st, ops[0], ageAfter), ops[1..],
           Ledger.Moved(Books(st), places, MAX_DELIVERIES, Abstract(st, ops[0], ageAfter)), ageAfter)
    else Exec(st, ops[1..], places, ageAfter)
  }

  ghost function AbstractRun(st: State, ops: seq<Op>, places: Ledger.Places, ageAfter: int): seq<Ledger.Op>
    decreases |ops|
  {
    if ops == [] then []
    else if Admitted(st, places, ops[0], ageAfter) then
      QueueRefinesLedger(st, ops[0], ageAfter);
      var a := Abstract(st, ops[0], ageAfter);
      [a] + AbstractRun(Step(st, ops[0], ageAfter), ops[1..], Ledger.Moved(Books(st), places, MAX_DELIVERIES, a),
        ageAfter)
    else AbstractRun(st, ops[1..], places, ageAfter)
  }

  /** Every run of the queue is a run of the ledger. */
  lemma {:induction false} RunRefinesLedger(st: State, ops: seq<Op>, places: Ledger.Places, ageAfter: int)
    ensures var (final, places') := Exec(st, ops, places, ageAfter);
            Ledger.Exec(Books(st), places, MAX_DELIVERIES, AbstractRun(st, ops, places, ageAfter))
              == (Books(final), places')
    decreases |ops|
  {
    if ops != [] {
      if Admitted(st, places, ops[0], ageAfter) {
        QueueRefinesLedger(st, ops[0], ageAfter);
        var a := Abstract(st, ops[0], ageAfter);
        RunRefinesLedger(Step(st, ops[0], ageAfter), ops[1..], Ledger.Moved(Books(st), places, MAX_DELIVERIES, a),
          ageAfter);
        assert AbstractRun(st, ops, places, ageAfter)[1..] ==
               AbstractRun(Step(st, ops[0], ageAfter), ops[1..],
                 Ledger.Moved(Books(st), places, MAX_DELIVERIES, a), ageAfter);
      } else {
        RunRefinesLedger(st, ops[1..], places, ageAfter);
      }
    }
  }

  /** In every run from an empty queue, each published command is waiting, leased, acknowledged or
      dead-lettered, in exactly one of these places, and is delivered at most three times. */
  lemma CommandsAreConserved(ops: seq<Op>, ageAfter: int, id: string)
    ensures var start := State(Dispatch.State([], 0, 0), map[], []);
            var (st, places) := Exec(start, ops, map[], ageAfter);
            && Ledger.Accounts(Books(st), places, MAX_DELIVERIES)
            && Ledger.Receipts(Books(start), map[], MAX_DELIVERIES, AbstractRun(start, ops, map[], ageAfter),
                 id) <= MAX_DELIVERIES
  {
    var start := State(Dispatch.State([], 0, 0), map[], []);
    var run := AbstractRun(start, ops, map[], ageAfter);
    RunRefinesLedger(start, ops, map[], ageAfter);
    assert Books(start) == Ledger.Books([], map[], []);
    Ledger.RunKeepsAccounts(Books(start), map[], MAX_DELIVERIES, run, id);
    Ledger.RetryBound(MAX_DELIVERIES, run, id);
  }

  /** The two queues decide every rejection alike exactly when the in-memory queue allows two retries;
      its default of three allows one delivery more than this queue. */
  lemma SamePolicyIff(maxRetries: int)
    ensures (forall n: nat :: MayRetry(n) <==> Memory.MayRetry(n, maxRetries)) <==> maxRetries == 2
    ensures maxRetries == 2 <==> Memory.Limit(maxRetries) == MAX_DELIVERIES
  {
    if forall n: nat :: MayRetry(n) <==> Memory.MayRetry(n, maxRetries) {
      assert MayRetry(2) <==> Memory.MayRetry(2, maxRetries);
      assert MayRetry(3) <==> Memory.MayRetry(3, maxRetries);
    }
  }
}
