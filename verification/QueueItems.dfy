/** Queued commands and the list operations both command queues are built from. */
module QueueItems {
  import opened Domain

  /** A queued command; `sequence` is the queue's insertion counter. */
  datatype Queued = Queued(priority: int, sequence: nat, command: Command, deliveryCount: nat)

  /** A list comprehension with a condition. */
  function Where(items: seq<Queued>, keep: Queued -> bool): (r: seq<Queued>)
    ensures forall x :: x in r <==> x in items && keep(x)
  {
    if items == [] then []
    else (if keep(items[0]) then [items[0]] else []) + Where(items[1..], keep)
  }

  /** The index of `x`'s first occurrence. */
  function IndexOf(items: seq<Queued>, x: Queued): (i: nat)
    requires x in items
    ensures i < |items| && items[i] == x
  {
    if items[0] == x then 0 else 1 + IndexOf(items[1..], x)
  }

  /** `list.remove`: drops the first occurrence. */
  function Without(items: seq<Queued>, x: Queued): seq<Queued>
    requires x in items
  {
    var i := IndexOf(items, x);
    items[..i] + items[i + 1..]
  }

  /** Insertion numbers increase along the list and stay below the counter. */
  ghost predicate Numbered(items: seq<Queued>, counter: nat) {
    && (forall i | 0 <= i < |items| :: items[i].sequence < counter)
    && (forall i, j | 0 <= i < j < |items| :: items[i].sequence < items[j].sequence)
  }

  lemma NumberedUnique(items: seq<Queued>, counter: nat, x: Queued, y: Queued)
    requires Numbered(items, counter) && x in items && y in items && x.sequence == y.sequence
    ensures x == y
  {
  }

  lemma WithoutMembers(items: seq<Queued>, x: Queued)
    requires x in items
    ensures |Without(items, x)| == |items| - 1 && forall y | y in Without(items, x) :: y in items
  {
  }

  lemma WithoutElements(items: seq<Queued>, counter: nat, x: Queued)
    requires Numbered(items, counter) && x in items
    ensures Numbered(Without(items, x), counter)
    ensures forall y :: y in Without(items, x) <==> y in items && y != x
    ensures |Without(items, x)| == |items| - 1
  {
    WithoutMembers(items, x);
    var i, rest := IndexOf(items, x), Without(items, x);
    forall y | y in items && y != x ensures y in rest {
      var j :| 0 <= j < |items| && items[j] == y;
      assert rest[if j < i then j else j - 1] == y;
    }
  }

  /** The minimum by insertion number. */
  method Oldest(items: seq<Queued>) returns (x: Queued)
    requires items != []
    ensures x in items && forall y | y in items :: x.sequence <= y.sequence
  {
    x := items[0];
    for i := 1 to |items|
      invariant x in items
      invariant forall j | 0 <= j < i :: x.sequence <= items[j].sequence
    {
      if items[i].sequence < x.sequence {
        x := items[i];
      }
    }
  }

  // ----- Counting -----

  function Count(items: seq<Queued>, keep: Queued -> bool): nat {
    |Where(items, keep)|
  }

  lemma {:induction false} CountAppend(items: seq<Queued>, x: Queued, keep: Queued -> bool)
    ensures Count(items + [x], keep) == Count(items, keep) + (if keep(x) then 1 else 0)
  {
    if items == [] {
      assert (items + [x])[1..] == [];
    } else {
      CountAppend(items[1..], x, keep);
      assert (items + [x])[1..] == items[1..] + [x];
    }
  }

  lemma {:induction false} CountWithout(items: seq<Queued>, x: Queued, keep: Queued -> bool)
    requires x in items
    ensures Count(items, keep) == Count(Without(items, x), keep) + (if keep(x) then 1 else 0)
  {
    if items[0] == x {
      assert Without(items, x) == items[1..];
    } else {
      CountWithout(items[1..], x, keep);
      assert Without(items, x) == [items[0]] + Without(items[1..], x);
      assert Without(items, x)[1..] == Without(items[1..], x);
    }
  }
}
