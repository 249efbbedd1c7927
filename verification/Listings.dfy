/** Listing the repositories newest first, page by page. */
module Listings {
  import opened Domain
  import opened Execution

  /** A stored value's creation time; a value without one counts as the earliest. */
  type Key<!T> = T -> int

  function Kept<T>(items: seq<T>, keep: T -> bool): seq<T>
    decreases |items|
  {
    if items == [] then []
    else
      var k := |items| - 1;
      Kept(items[..k], keep) + (if keep(items[k]) then [items[k]] else [])
  }

  /** Inserts after every item at least as new. */
  function Inserted<T>(items: seq<T>, x: T, key: Key<T>): seq<T>
    decreases |items|
  {
    if items == [] then [x]
    else
      var k := |items| - 1;
      if key(items[k]) >= key(x) then items + [x] else Inserted(items[..k], x, key) + [items[k]]
  }

  /** `sort(key=..., reverse=True)`: descending, and stable, since reversing keeps equal items in order. */
  function NewestFirst<T>(items: seq<T>, key: Key<T>): (r: seq<T>)
    ensures |r| == |items|
    decreases |items|
  {
    if items == [] then []
    else
      var r := Inserted(NewestFirst(items[..|items| - 1], key), items[|items| - 1], key);
      InsertedLength(NewestFirst(items[..|items| - 1], key), items[|items| - 1], key);
      r
  }

  lemma {:induction false} InsertedLength<T>(items: seq<T>, x: T, key: Key<T>)
    ensures |Inserted(items, x, key)| == |items| + 1
    decreases |items|
  {
    if items != [] && key(items[|items| - 1]) < key(x) {
      InsertedLength(items[..|items| - 1], x, key);
    }
  }

  /** A slice with Python's clipping. */
  function Page<T>(items: seq<T>, offset: nat, limit: nat): seq<T> {
    var from := if offset > |items| then |items| else offset;
    var to := if offset + limit > |items| then |items| else offset + limit;
    items[from..to]
  }

  method Filter<T>(values: seq<T>, keep: T -> bool) returns (items: seq<T>)
    ensures items == Kept(values, keep)
  {
    items := [];
    for i := 0 to |values|
      invariant items == Kept(values[..i], keep)
    {
      assert values[..i + 1][..i] == values[..i];
      if keep(values[i]) {
        items := items + [values[i]];
      }
    }
    assert values[..|values|] == values;
  }

  /** The search of either repository: filter, sort, cut. */
  method Search<T>(values: seq<T>, keep: T -> bool, key: Key<T>, limit: nat, offset: nat) returns (page: seq<T>)
    ensures page == Page(NewestFirst(Kept(values, keep), key), offset, limit)
  {
    var items := Filter(values, keep);
    page := Page(NewestFirst(items, key), offset, limit);
  }

  function ThreadIs(thread: string): Run -> bool {
    (run: Run) => run.identity.threadId == Some(thread)
  }

  function RunTime(): Key<Run> {
    (run: Run) => run.createdAt
  }

  /** `max` with a key: the first of the largest. */
  method First<T>(items: seq<T>, key: Key<T>) returns (r: Option<T>)
    ensures r == if items == [] then None else Some(NewestFirst(items, key)[0])
  {
    r := None;
    for i := 0 to |items|
      invariant r == if i == 0 then None else Some(NewestFirst(items[..i], key)[0])
    {
      NewestOfOneMore(items[..i], items[i], key);
      assert items[..i + 1] == items[..i] + [items[i]];
      if r.None? || key(items[i]) > key(r.value) {
        r := Some(items[i]);
      }
    }
    assert items[..|items|] == items;
  }

  /** The latest run of a thread is the first of its listing, ties included. */
  method LatestForThread(values: seq<Run>, thread: string) returns (r: Option<Run>)
    ensures var listing := NewestFirst(Kept(values, ThreadIs(thread)), RunTime());
            r == if listing == [] then None else Some(listing[0])
    ensures r.None? <==> forall run | run in values :: run.identity.threadId != Some(thread)
    ensures r.Some? ==>
              && r.value in values && r.value.identity.threadId == Some(thread)
              && forall run | run in values && run.identity.threadId == Some(thread) ::
                   run.createdAt <= r.value.createdAt
  {
    var candidates := Filter(values, ThreadIs(thread));
    KeptMembers(values, ThreadIs(thread));
    NewestIsMax(candidates, RunTime());
    r := First(candidates, RunTime());
  }

  function InListing(thread: string, status: Option<RunStatus>): Run -> bool {
    (run: Run) => run.identity.threadId == Some(thread) && (status.None? || run.status == status.value)
  }

  /** One page of a thread's runs: runs of the thread, of the status asked for if one is, newest first; and
      a first page that is not full holds all of them. */
  method ListForThread(values: seq<Run>, thread: string, limit: nat, offset: nat, status: Option<RunStatus>)
    returns (page: seq<Run>)
    ensures page == Page(NewestFirst(Kept(values, InListing(thread, status)), RunTime()), offset, limit)
    ensures |page| <= limit
    ensures forall run | run in page ::
              run in values && run.identity.threadId == Some(thread) && (status.Some? ==> run.status == status.value)
    ensures forall i, j | 0 <= i < j < |page| :: page[i].createdAt >= page[j].createdAt
    ensures offset == 0 && |page| < limit ==>
              forall run | run in values && run.identity.threadId == Some(thread)
                           && (status.Some? ==> run.status == status.value) :: run in page
  {
    var keep := InListing(thread, status);
    page := Search(values, keep, RunTime(), limit, offset);
    ListingMembers(values, thread, status);
    PageFacts(NewestFirst(Kept(values, keep), RunTime()), offset, limit);
  }

  lemma ListingMembers(values: seq<Run>, thread: string, status: Option<RunStatus>)
    ensures var listing := NewestFirst(Kept(values, InListing(thread, status)), RunTime());
            && (forall run :: run in listing <==>
                  && run in values && run.identity.threadId == Some(thread)
                  && (status.Some? ==> run.status == status.value))
            && Descending(listing, RunTime())
  {
    var kept := Kept(values, InListing(thread, status));
    KeptMembers(values, InListing(thread, status));
    NewestDescends(kept, RunTime());
    forall run ensures run in NewestFirst(kept, RunTime()) <==> run in kept {
      NewestMembers(kept, RunTime(), run);
    }
  }

  lemma PageFacts(listing: seq<Run>, offset: nat, limit: nat)
    requires Descending(listing, RunTime())
    ensures var page := Page(listing, offset, limit);
            && |page| <= limit && (forall run | run in page :: run in listing)
            && (forall i, j | 0 <= i < j < |page| :: page[i].createdAt >= page[j].createdAt)
            && (offset == 0 && |page| < limit ==> page == listing)
  {
    assert forall i, j | 0 <= i < j < |listing| :: RunTime()(listing[i]) >= RunTime()(listing[j]);
  }

  /** Threads are counted by searching with a limit of 100000. */
  method CountThreads(values: seq<Thread>, keep: Thread -> bool) returns (count: nat)
    ensures count == |Kept(values, keep)| <==> |Kept(values, keep)| <= 100000
    ensures count <= 100000
  {
    var page := Search(values, keep, (t: Thread) => t.createdAt, 100000, 0);
    count := |page|;
  }

  // ----- The order -----

  ghost predicate Descending<T>(items: seq<T>, key: Key<T>) {
    forall i, j | 0 <= i < j < |items| :: key(items[i]) >= key(items[j])
  }

  function AtTime<T>(key: Key<T>, time: int): T -> bool {
    (x: T) => key(x) == time
  }

  /** The items of one time, in list order. */
  function OfTime<T>(items: seq<T>, key: Key<T>, time: int): seq<T> {
    Kept(items, AtTime(key, time))
  }

  lemma KeptLast<T>(items: seq<T>, x: T, keep: T -> bool)
    ensures Kept(items + [x], keep) == Kept(items, keep) + (if keep(x) then [x] else [])
  {
    assert (items + [x])[..|items|] == items;
  }

  lemma {:induction false} InsertedDescends<T>(items: seq<T>, x: T, key: Key<T>)
    requires Descending(items, key)
    ensures Descending(Inserted(items, x, key), key)
    ensures forall y | y in Inserted(items, x, key) :: y in items || y == x
    decreases |items|
  {
    if items != [] && key(items[|items| - 1]) < key(x) {
      var k := |items| - 1;
      InsertedDescends(items[..k], x, key);
      var front := Inserted(items[..k], x, key);
      forall i | 0 <= i < |front| ensures key(front[i]) >= key(items[k]) {
        assert front[i] in front;
      }
    }
  }

  lemma {:induction false} InsertedFirst<T>(items: seq<T>, x: T, key: Key<T>)
    requires Descending(items, key)
    ensures |Inserted(items, x, key)| == |items| + 1
    ensures Inserted(items, x, key)[0] == if items == [] || key(x) > key(items[0]) then x else items[0]
    decreases |items|
  {
    if items != [] && key(items[|items| - 1]) < key(x) {
      InsertedFirst(items[..|items| - 1], x, key);
    }
  }

  lemma {:induction false} InsertedKeeps<T>(items: seq<T>, x: T, key: Key<T>, time: int)
    ensures OfTime(Inserted(items, x, key), key, time) == OfTime(items + [x], key, time)
    decreases |items|
  {
    var at := AtTime(key, time);
    if items != [] && key(items[|items| - 1]) < key(x) {
      var k := |items| - 1;
      InsertedKeeps(items[..k], x, key, time);
      KeptLast(items[..k], x, at);
      KeptLast(Inserted(items[..k], x, key), items[k], at);
      KeptLast(items, x, at);
    }
  }

  lemma {:induction false} NewestDescends<T>(items: seq<T>, key: Key<T>)
    ensures Descending(NewestFirst(items, key), key)
    decreases |items|
  {
    if items != [] {
      var k := |items| - 1;
      NewestDescends(items[..k], key);
      InsertedDescends(NewestFirst(items[..k], key), items[k], key);
    }
  }

  lemma {:induction false} KeptMembers<T>(items: seq<T>, keep: T -> bool)
    ensures forall x :: x in Kept(items, keep) <==> x in items && keep(x)
    decreases |items|
  {
    if items != [] {
      var k := |items| - 1;
      KeptMembers(items[..k], keep);
      assert items == items[..k] + [items[k]];
    }
  }

  lemma {:induction false} InsertedMembers<T>(items: seq<T>, x: T, key: Key<T>)
    ensures forall y :: y in Inserted(items, x, key) <==> y in items || y == x
    decreases |items|
  {
    if items != [] && key(items[|items| - 1]) < key(x) {
      var k := |items| - 1;
      InsertedMembers(items[..k], x, key);
      assert items == items[..k] + [items[k]];
    }
  }

  lemma {:induction false} NewestMembers<T>(items: seq<T>, key: Key<T>, x: T)
    ensures x in NewestFirst(items, key) <==> x in items
    decreases |items|
  {
    if items != [] {
      var k := |items| - 1;
      NewestMembers(items[..k], key, x);
      InsertedMembers(NewestFirst(items[..k], key), items[k], key);
      assert NewestFirst(items, key) == Inserted(NewestFirst(items[..k], key), items[k], key);
      assert items == items[..k] + [items[k]];
    }
  }

  lemma NewestIsMax<T>(items: seq<T>, key: Key<T>)
    ensures items != [] ==> NewestFirst(items, key)[0] in items
    ensures items != [] ==> forall x | x in items :: key(x) <= key(NewestFirst(items, key)[0])
  {
    NewestDescends(items, key);
    var sorted := NewestFirst(items, key);
    if items != [] {
      NewestMembers(items, key, sorted[0]);
    }
    forall x | x in items ensures key(x) <= key(sorted[0]) {
      NewestMembers(items, key, x);
      assert x in sorted;
    }
  }

  lemma NewestOfOneMore<T>(items: seq<T>, x: T, key: Key<T>)
    ensures var front, all := NewestFirst(items, key), NewestFirst(items + [x], key);
            all != [] && all[0] == if items == [] || key(x) > key(front[0]) then x else front[0]
  {
    assert (items + [x])[..|items|] == items;
    NewestDescends(items, key);
    InsertedFirst(NewestFirst(items, key), x, key);
  }

  /** A listing is newest first, and items of the same time stand in insertion order: nothing is lost,
      added or repeated. */
  lemma {:induction false} ListingIsStable<T>(items: seq<T>, key: Key<T>, time: int)
    ensures Descending(NewestFirst(items, key), key)
    ensures OfTime(NewestFirst(items, key), key, time) == OfTime(items, key, time)
    decreases |items|
  {
    NewestDescends(items, key);
    if items != [] {
      var k := |items| - 1;
      var front := NewestFirst(items[..k], key);
      ListingIsStable(items[..k], key, time);
      InsertedKeeps(front, items[k], key, time);
      KeptLast(front, items[k], AtTime(key, time));
    }
  }

  // ----- Pages -----

  /** The first `n` pages, one after the other. */
  function Pages<T>(items: seq<T>, limit: nat, n: nat): seq<T> {
    if n == 0 then [] else Pages(items, limit, n - 1) + Page(items, (n - 1) * limit, limit)
  }

  lemma PageJoins<T>(items: seq<T>, offset: nat, limit: nat)
    ensures Page(items, 0, offset) + Page(items, offset, limit) == Page(items, 0, offset + limit)
  {
  }

  lemma {:induction false} PagesArePrefix<T>(items: seq<T>, limit: nat, n: nat)
    ensures Pages(items, limit, n) == Page(items, 0, n * limit)
    decreases n
  {
    if n > 0 {
      PagesArePrefix(items, limit, n - 1);
      PageJoins(items, (n - 1) * limit, limit);
      assert n * limit == (n - 1) * limit + limit;
    }
  }

  /** Pages of any positive size follow each other without loss or repeat, up to the whole listing. */
  lemma PagesConcatenate<T>(items: seq<T>, limit: nat, n: nat)
    requires limit >= 1 && n * limit >= |items|
    ensures Pages(items, limit, n) == items
  {
    PagesArePrefix(items, limit, n);
  }
}
