/** Lease bookkeeping with the choice of the next command left open. Both command queues refine it,
    so what is proved here holds of both. */
module LeaseLedger {
  import opened Domain
  import opened QueueItems

  /** A command by its identifier, with the number of times it has been delivered. */
  datatype Entry = Entry(id: string, deliveries: nat)

  datatype Books = Books(waiting: seq<Entry>, leases: map<string, Entry>, dead: seq<string>)

  datatype Op =
    | Publish(id: string)
    | Receive(index: nat, lease: string)
    | Acknowledge(lease: string)
    | Reject(lease: string, retryable: bool)
    | Idle

  function RemoveAt<T>(s: seq<T>, i: nat): seq<T>
    requires i < |s|
  {
    s[..i] + s[i + 1..]
  }

  predicate Enabled(b: Books, op: Op) {
    match op
    case Publish(id) => true
    case Receive(index, lease) => index < |b.waiting| && lease !in b.leases
    case Acknowledge(lease) => lease in b.leases
    case Reject(lease, retryable) => lease in b.leases
    case Idle => true
  }

  /** A rejected command waits again while fewer than `limit` deliveries were made of it. */
  function After(b: Books, limit: nat, op: Op): Books
    requires Enabled(b, op)
  {
    match op
    case Publish(id) => b.(waiting := b.waiting + [Entry(id, 0)])
    case Receive(index, lease) =>
      var e := b.waiting[index];
      b.(waiting := RemoveAt(b.waiting, index), leases := b.leases[lease := Entry(e.id, e.deliveries + 1)])
    case Acknowledge(lease) => b.(leases := b.leases - {lease})
    case Reject(lease, retryable) =>
      var e := b.leases[lease];
      if retryable && e.deliveries < limit then b.(waiting := b.waiting + [e], leases := b.leases - {lease})
      else b.(dead := b.dead + [e.id], leases := b.leases - {lease})
    case Idle => b
  }

  // ----- Where every command is -----

  datatype Place =
    | Waiting(deliveries: nat)
    | Leased(lease: string, deliveries: nat)
    | Acknowledged(deliveries: nat)
    | DeadLettered(deliveries: nat)

  type Places = map<string, Place>

  /** The books hold exactly the published commands, each in the one place recorded for it, and no
      command is delivered more than `limit` times. */
  ghost predicate Accounts(b: Books, places: Places, limit: nat) {
    && WaitingRecorded(b.waiting, places)
    && (forall lease | lease in b.leases ::
          b.leases[lease].id in places && places[b.leases[lease].id] == Leased(lease, b.leases[lease].deliveries))
    && (forall i | 0 <= i < |b.dead| :: b.dead[i] in places && places[b.dead[i]].DeadLettered?)
    && (forall i, j | 0 <= i < j < |b.dead| :: b.dead[i] != b.dead[j])
    && (forall id | id in places :: Held(b, id, places[id], limit))
  }

  ghost predicate WaitingRecorded(waiting: seq<Entry>, places: Places) {
    && (forall i | 0 <= i < |waiting| ::
          waiting[i].id in places && places[waiting[i].id] == Waiting(waiting[i].deliveries))
    && (forall i, j | 0 <= i < j < |waiting| :: waiting[i].id != waiting[j].id)
  }

  ghost predicate Held(b: Books, id: string, place: Place, limit: nat) {
    match place
    case Waiting(n) => Entry(id, n) in b.waiting && n < limit
    case Leased(lease, n) => lease in b.leases && b.leases[lease] == Entry(id, n) && 1 <= n <= limit
    case Acknowledged(n) => 1 <= n <= limit
    case DeadLettered(n) => id in b.dead && 1 <= n <= limit
  }

  /** The command an operation moves, and where to. */
  function Moved(b: Books, places: Places, limit: nat, op: Op): Places
    requires Enabled(b, op)
  {
    match op
    case Publish(id) => places[id := Waiting(0)]
    case Receive(index, lease) =>
      var e := b.waiting[index];
      places[e.id := Leased(lease, e.deliveries + 1)]
    case Acknowledge(lease) => places[b.leases[lease].id := Acknowledged(b.leases[lease].deliveries)]
    case Reject(lease, retryable) =>
      var e := b.leases[lease];
      places[e.id := if retryable && e.deliveries < limit then Waiting(e.deliveries) else DeadLettered(e.deliveries)]
    case Idle => places
  }

  /** Published identifiers are fresh. */
  predicate Fresh(places: Places, op: Op) {
    op.Publish? ==> op.id !in places
  }

  lemma RemoveAtElements<T>(s: seq<T>, i: nat)
    requires i < |s|
    ensures forall j | 0 <= j < |s| - 1 :: RemoveAt(s, i)[j] == s[if j < i then j else j + 1]
    ensures forall j | 0 <= j < |s| && j != i :: s[j] in RemoveAt(s, i)
  {
    forall j | 0 <= j < |s| && j != i ensures s[j] in RemoveAt(s, i) {
      assert RemoveAt(s, i)[if j < i then j else j - 1] == s[j];
    }
  }

  lemma PublishKeepsAccounts(b: Books, places: Places, limit: nat, id: string)
    requires limit >= 1 && id !in places && Accounts(b, places, limit)
    ensures Accounts(After(b, limit, Publish(id)), Moved(b, places, limit, Publish(id)), limit)
  {
    var b', places' := After(b, limit, Publish(id)), Moved(b, places, limit, Publish(id));
    forall x | x in places' ensures Held(b', x, places'[x], limit) {
      assert x != id ==> Held(b, x, places[x], limit);
    }
  }

  lemma ReceiveKeepsWaiting(waiting: seq<Entry>, places: Places, index: nat, place: Place)
    requires index < |waiting| && WaitingRecorded(waiting, places)
    ensures WaitingRecorded(RemoveAt(waiting, index), places[waiting[index].id := place])
  {
    RemoveAtElements(waiting, index);
  }

  lemma ReceiveKeepsHeld(b: Books, places: Places, limit: nat, index: nat, lease: string, x: string)
    requires Enabled(b, Receive(index, lease)) && Accounts(b, places, limit) && x in places
    ensures Held(After(b, limit, Receive(index, lease)), x, Moved(b, places, limit, Receive(index, lease))[x], limit)
  {
    var e := b.waiting[index];
    RemoveAtElements(b.waiting, index);
    assert Held(b, x, places[x], limit);
    if x != e.id && places[x].Waiting? {
      var j :| 0 <= j < |b.waiting| && b.waiting[j] == Entry(x, places[x].deliveries);
      assert j != index;
    }
  }

  lemma ReceiveKeepsAccounts(b: Books, places: Places, limit: nat, index: nat, lease: string)
    requires limit >= 1 && Enabled(b, Receive(index, lease)) && Accounts(b, places, limit)
    ensures Accounts(After(b, limit, Receive(index, lease)), Moved(b, places, limit, Receive(index, lease)), limit)
  {
    var b', places' := After(b, limit, Receive(index, lease)), Moved(b, places, limit, Receive(index, lease));
    var e := b.waiting[index];
    assert places'.Keys == places.Keys;
    ReceiveKeepsWaiting(b.waiting, places, index, Leased(lease, e.deliveries + 1));
    forall x | x in places' ensures Held(b', x, places'[x], limit) {
      ReceiveKeepsHeld(b, places, limit, index, lease, x);
    }
  }

  lemma AcknowledgeKeepsAccounts(b: Books, places: Places, limit: nat, lease: string)
    requires limit >= 1 && lease in b.leases && Accounts(b, places, limit)
    ensures Accounts(After(b, limit, Acknowledge(lease)), Moved(b, places, limit, Acknowledge(lease)), limit)
  {
    var b', places' := After(b, limit, Acknowledge(lease)), Moved(b, places, limit, Acknowledge(lease));
    forall x | x in places' ensures Held(b', x, places'[x], limit) {
      assert Held(b, x, places[x], limit);
    }
  }

  lemma RejectKeepsAccounts(b: Books, places: Places, limit: nat, lease: string, retryable: bool)
    requires limit >= 1 && lease in b.leases && Accounts(b, places, limit)
    ensures Accounts(After(b, limit, Reject(lease, retryable)), Moved(b, places, limit, Reject(lease, retryable)),
      limit)
  {
    var b', places' := After(b, limit, Reject(lease, retryable)), Moved(b, places, limit, Reject(lease, retryable));
    var e := b.leases[lease];
    assert Held(b, e.id, places[e.id], limit);
    forall x | x in places' && x != e.id ensures Held(b', x, places'[x], limit) {
      assert Held(b, x, places[x], limit);
    }
  }

  lemma StepKeepsAccounts(b: Books, places: Places, limit: nat, op: Op)
    requires limit >= 1 && Enabled(b, op) && Fresh(places, op) && Accounts(b, places, limit)
    ensures Accounts(After(b, limit, op), Moved(b, places, limit, op), limit)
  {
    match op {
      case Publish(id) => PublishKeepsAccounts(b, places, limit, id);
      case Receive(index, lease) => ReceiveKeepsAccounts(b, places, limit, index, lease);
      case Acknowledge(lease) => AcknowledgeKeepsAccounts(b, places, limit, lease);
      case Reject(lease, retryable) => RejectKeepsAccounts(b, places, limit, lease, retryable);
      case Idle =>
    }
  }

  // ----- Whole runs -----

  /** A run keeps the places up to date; an operation that is not enabled changes nothing. */
  function Exec(b: Books, places: Places, limit: nat, ops: seq<Op>): (Books, Places)
    decreases |ops|
  {
    if ops == [] then (b, places)
    else if Enabled(b, ops[0]) && Fresh(places, ops[0]) then
      Exec(After(b, limit, ops[0]), Moved(b, places, limit, ops[0]), limit, ops[1..])
    else Exec(b, places, limit, ops[1..])
  }

  /** How often a run delivers command `id`. */
  function Receipts(b: Books, places: Places, limit: nat, ops: seq<Op>, id: string): nat
    decreases |ops|
  {
    if ops == [] then 0
    else if Enabled(b, ops[0]) && Fresh(places, ops[0]) then
      (if ops[0].Receive? && b.waiting[ops[0].index].id == id then 1 else 0)
      + Receipts(After(b, limit, ops[0]), Moved(b, places, limit, ops[0]), limit, ops[1..], id)
    else Receipts(b, places, limit, ops[1..], id)
  }

  function Deliveries(places: Places, id: string): nat {
    if id in places then places[id].deliveries else 0
  }

  /** At every moment of every run each published command is in exactly one place, and the deliveries
      recorded there are the receipts issued for it. */
  lemma {:induction false} RunKeepsAccounts(b: Books, places: Places, limit: nat, ops: seq<Op>, id: string)
    requires limit >= 1 && Accounts(b, places, limit)
    ensures var (b', places') := Exec(b, places, limit, ops);
            && Accounts(b', places', limit) && places.Keys <= places'.Keys
            && Deliveries(places', id) == Deliveries(places, id) + Receipts(b, places, limit, ops, id)
    decreases |ops|
  {
    if ops != [] {
      var op := ops[0];
      if Enabled(b, op) && Fresh(places, op) {
        StepKeepsAccounts(b, places, limit, op);
        RunKeepsAccounts(After(b, limit, op), Moved(b, places, limit, op), limit, ops[1..], id);
      } else {
        RunKeepsAccounts(b, places, limit, ops[1..], id);
      }
    }
  }

  /** No command is delivered more than `limit` times, and one that has been delivered `limit` times
      and is not out on a lease never waits again: it is acknowledged or dead-lettered. */
  lemma RetryBound(limit: nat, ops: seq<Op>, id: string)
    requires limit >= 1
    ensures var (b, places) := Exec(Books([], map[], []), map[], limit, ops);
            var n := Receipts(Books([], map[], []), map[], limit, ops, id);
            && n <= limit
            && (n == limit && id in places && !places[id].Leased? ==>
                  places[id] == Acknowledged(limit) || (places[id] == DeadLettered(limit) && id in b.dead))
  {
    RunKeepsAccounts(Books([], map[], []), map[], limit, ops, id);
    var (b, places) := Exec(Books([], map[], []), map[], limit, ops);
    if id in places {
      assert Held(b, id, places[id], limit);
    }
  }

  // ----- Ledger entries of a concrete queue -----

  function Entries(items: seq<Queued>): seq<Entry> {
    seq(|items|, i requires 0 <= i < |items| => Entry(items[i].command.commandId, items[i].deliveryCount))
  }

  function LeaseEntries(leases: map<string, Receipt>): map<string, Entry> {
    map lease | lease in leases :: Entry(leases[lease].command.commandId, leases[lease].deliveryCount)
  }

  function Ids(commands: seq<Command>): seq<string> {
    seq(|commands|, i requires 0 <= i < |commands| => commands[i].commandId)
  }

  function BooksOf(items: seq<Queued>, leases: map<string, Receipt>, dead: seq<Command>): Books {
    Books(Entries(items), LeaseEntries(leases), Ids(dead))
  }

  lemma EntriesWithout(items: seq<Queued>, x: Queued)
    requires x in items
    ensures Entries(Without(items, x)) == RemoveAt(Entries(items), IndexOf(items, x))
  {
  }

  lemma EntriesAdded(items: seq<Queued>, x: Queued)
    ensures Entries(items + [x]) == Entries(items) + [Entry(x.command.commandId, x.deliveryCount)]
  {
  }

  lemma LeaseEntriesAdded(leases: map<string, Receipt>, lease: string, r: Receipt)
    ensures LeaseEntries(leases[lease := r])
      == LeaseEntries(leases)[lease := Entry(r.command.commandId, r.deliveryCount)]
  {
  }

  lemma LeaseEntriesRemoved(leases: map<string, Receipt>, lease: string)
    ensures LeaseEntries(leases - {lease}) == LeaseEntries(leases) - {lease}
  {
  }

  /** Leasing a waiting item `x` under a fresh lease is the ledger's receive at `x`'s index. */
  lemma BooksAfterReceive(
    items: seq<Queued>, leases: map<string, Receipt>, dead: seq<Command>, x: Queued, lease: string, limit: nat)
    requires x in items && lease !in leases
    ensures var op := Receive(IndexOf(items, x), lease);
            && Enabled(BooksOf(items, leases, dead), op)
            && BooksOf(Without(items, x), leases[lease := Receipt(x.command, lease, x.deliveryCount + 1)], dead)
               == After(BooksOf(items, leases, dead), limit, op)
  {
    var i, receipt := IndexOf(items, x), Receipt(x.command, lease, x.deliveryCount + 1);
    var b := BooksOf(items, leases, dead);
    assert lease !in b.leases && b.waiting[i] == Entry(x.command.commandId, x.deliveryCount);
    EntriesWithout(items, x);
    LeaseEntriesAdded(leases, lease, receipt);
    assert BooksOf(Without(items, x), leases[lease := receipt], dead).waiting
      == After(b, limit, Receive(i, lease)).waiting;
  }
}
