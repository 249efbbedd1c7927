/** The dispatcher behind the Kafka command queue: a rotating priority cursor and age promotion. */
module FairDispatcher {
  import opened Domain
  import opened QueueItems

  datatype State = State(items: seq<Queued>, counter: nat, cursor: nat)

  /** The priority a cursor position prefers. */
  function SlotPriority(cursor: nat): int {
    if cursor % 3 == 0 then 100 else if cursor % 3 == 1 then 50 else 10
  }

  predicate IsAged(x: Queued, now: int, ageAfter: int) {
    now - x.command.createdAt >= ageAfter
  }

  function MaxPriority(items: seq<Queued>): (p: int)
    requires items != []
    ensures exists x :: x in items && x.priority == p
    ensures forall x | x in items :: x.priority <= p
  {
    if |items| == 1 then items[0].priority
    else
      var rest := MaxPriority(items[1..]);
      if items[0].priority > rest then items[0].priority else rest
  }

  function AgedItems(items: seq<Queued>, now: int, ageAfter: int): seq<Queued> {
    Where(items, (x: Queued) => IsAged(x, now, ageAfter))
  }

  function OfPriority(items: seq<Queued>, priority: int): seq<Queued> {
    Where(items, (x: Queued) => x.priority == priority)
  }

  /** The items of the highest priority present. */
  function TopItems(items: seq<Queued>): (r: seq<Queued>)
    requires items != []
    ensures r != [] && forall x | x in r :: x in items
  {
    var top := MaxPriority(items);
    assert exists x :: x in items && x.priority == top;
    assert forall x | x in items && x.priority == top :: x in OfPriority(items, top);
    OfPriority(items, top)
  }

  /** The items a choice may fall on, in insertion order: the aged ones if there are any, else those
      of the cursor's priority, else those of the highest priority present. */
  function Candidates(st: State, now: int, ageAfter: int): (r: seq<Queued>)
    requires st.items != []
    ensures r != [] && forall x | x in r :: x in st.items
  {
    var aged := AgedItems(st.items, now, ageAfter);
    var slot := OfPriority(st.items, SlotPriority(st.cursor));
    if aged != [] then aged else if slot != [] then slot else TopItems(st.items)
  }

  ghost function AfterAdd(st: State, command: Command, deliveryCount: nat): State {
    var x := Queued(PriorityValue(command.priority), st.counter, command, deliveryCount);
    State(st.items + [x], st.counter + 1, st.cursor)
  }

  /** Whether a choice takes the branch that consults and advances the cursor. */
  predicate TakesCursor(st: State, now: int, ageAfter: int) {
    st.items != [] && AgedItems(st.items, now, ageAfter) == []
  }

  ghost function AfterChoose(st: State, now: int, ageAfter: int): (State, Option<Queued>) {
    if st.items == [] then (st, None)
    else
      var x := Candidates(st, now, ageAfter)[0];
      var cursor := if TakesCursor(st, now, ageAfter) then st.cursor + 1 else st.cursor;
      (State(Without(st.items, x), st.counter, cursor), Some(x))
  }

  /** Insertion numbers are distinct and increasing, and priorities are those of the commands. */
  ghost predicate WellFormed(st: State) {
    Numbered(st.items, st.counter)
    && forall x | x in st.items :: x.priority == PriorityValue(x.command.priority)
  }

  lemma {:induction false} WhereNumbered(items: seq<Queued>, counter: nat, keep: Queued -> bool)
    requires Numbered(items, counter)
    ensures Numbered(Where(items, keep), counter)
  {
    if items != [] {
      WhereNumbered(items[1..], counter, keep);
      var first, rest := items[0], Where(items[1..], keep);
      forall j | 0 <= j < |rest| ensures first.sequence < rest[j].sequence {
        assert rest[j] in items[1..];
      }
      forall i, j | 0 <= i < j < |[first] + rest| ensures ([first] + rest)[i].sequence < ([first] + rest)[j].sequence {
        assert ([first] + rest)[j] == rest[j - 1];
      }
    }
  }

  lemma CandidatesNumbered(st: State, now: int, ageAfter: int)
    requires WellFormed(st) && st.items != []
    ensures Numbered(Candidates(st, now, ageAfter), st.counter)
  {
    WhereNumbered(st.items, st.counter, (x: Queued) => IsAged(x, now, ageAfter));
    WhereNumbered(st.items, st.counter, (x: Queued) => x.priority == SlotPriority(st.cursor));
    WhereNumbered(st.items, st.counter, (x: Queued) => x.priority == MaxPriority(st.items));
  }

  /** The minimum by insertion number is the first candidate. */
  lemma OldestIsFirst(st: State, now: int, ageAfter: int, x: Queued)
    requires WellFormed(st) && st.items != [] && x in Candidates(st, now, ageAfter)
    requires forall y | y in Candidates(st, now, ageAfter) :: x.sequence <= y.sequence
    ensures x == Candidates(st, now, ageAfter)[0]
  {
    var c := Candidates(st, now, ageAfter);
    CandidatesNumbered(st, now, ageAfter);
    NumberedUnique(c, st.counter, x, c[0]);
  }

  lemma ChooseKeepsWellFormed(st: State, now: int, ageAfter: int)
    requires WellFormed(st)
    ensures WellFormed(AfterChoose(st, now, ageAfter).0)
  {
    if st.items != [] {
      WithoutElements(st.items, st.counter, Candidates(st, now, ageAfter)[0]);
    }
  }

  lemma AddKeepsWellFormed(st: State, command: Command, deliveryCount: nat)
    requires WellFormed(st)
    ensures WellFormed(AfterAdd(st, command, deliveryCount))
  {
  }

  // ----- The selection rule -----

  /** The rule a choice follows, without reference to the order of the list. */
  ghost predicate IsSelected(st: State, now: int, ageAfter: int, x: Queued) {
    && x in st.items
    && if exists y :: y in st.items && IsAged(y, now, ageAfter)
       then IsAged(x, now, ageAfter)
         && (forall y | y in st.items && IsAged(y, now, ageAfter) :: x.sequence <= y.sequence)
       else
         && (x.priority == SlotPriority(st.cursor) ||
             ((forall y | y in st.items :: y.priority != SlotPriority(st.cursor))
              && forall y | y in st.items :: y.priority <= x.priority))
         && (forall y | y in st.items && y.priority == x.priority :: x.sequence <= y.sequence)
  }

  lemma FirstIsOldest(items: seq<Queued>, counter: nat, x: Queued)
    requires Numbered(items, counter) && x in items
    ensures items[0].sequence <= x.sequence
  {
  }

  /** A choice selects the one item that satisfies the rule. */
  lemma ChoiceFollowsRule(st: State, now: int, ageAfter: int, x: Queued)
    requires WellFormed(st) && st.items != []
    ensures AfterChoose(st, now, ageAfter).1 == Some(x) <==> IsSelected(st, now, ageAfter, x)
  {
    var c := Candidates(st, now, ageAfter);
    var chosen := c[0];
    CandidatesNumbered(st, now, ageAfter);
    forall y | y in c ensures chosen.sequence <= y.sequence {
      FirstIsOldest(c, st.counter, y);
    }
    var aged := AgedItems(st.items, now, ageAfter);
    assert forall y :: y in aged <==> y in st.items && IsAged(y, now, ageAfter);
    assert (exists y :: y in st.items && IsAged(y, now, ageAfter)) <==> aged != [] by {
      if aged != [] { assert aged[0] in aged; }
    }
    var slot := OfPriority(st.items, SlotPriority(st.cursor));
    assert forall y :: y in slot <==> y in st.items && y.priority == SlotPriority(st.cursor);
    assert slot != [] ==> slot[0] in slot;
    assert IsSelected(st, now, ageAfter, chosen);
    if IsSelected(st, now, ageAfter, x) {
      assert x.sequence == chosen.sequence;
      NumberedUnique(st.items, st.counter, x, chosen);
    }
  }

  /** With an interactive command queued, the next command is interactive exactly when the oldest aged
      one is; or, with nothing aged, when the cursor stands at the interactive slot or its own slot has
      nothing to offer. */
  lemma InteractiveFirstIff(st: State, now: int, ageAfter: int)
    requires WellFormed(st)
    requires exists x :: x in st.items && x.command.priority == Interactive
    ensures AfterChoose(st, now, ageAfter).1.value.command.priority == Interactive <==>
            if TakesCursor(st, now, ageAfter)
            then st.cursor % 3 == 0 || forall y | y in st.items :: y.priority != SlotPriority(st.cursor)
            else exists x :: IsOldestAged(st, now, ageAfter, x) && x.command.priority == Interactive
  {
    var x := AfterChoose(st, now, ageAfter).1.value;
    ChoiceFollowsRule(st, now, ageAfter, x);
    var aged := AgedItems(st.items, now, ageAfter);
    assert forall y :: y in aged <==> y in st.items && IsAged(y, now, ageAfter);
    if TakesCursor(st, now, ageAfter) {
      assert !exists y :: y in st.items && IsAged(y, now, ageAfter);
    } else {
      assert aged[0] in aged;
      assert IsOldestAged(st, now, ageAfter, x);
      forall y | IsOldestAged(st, now, ageAfter, y) ensures y == x {
        NumberedUnique(st.items, st.counter, x, y);
      }
    }
  }

  lemma AgedFound(st: State, now: int, ageAfter: int)
    ensures AgedItems(st.items, now, ageAfter) != [] <==> exists y :: y in st.items && IsAged(y, now, ageAfter)
  {
    var aged := AgedItems(st.items, now, ageAfter);
    assert forall y :: y in aged <==> y in st.items && IsAged(y, now, ageAfter);
    assert aged != [] ==> aged[0] in aged;
  }

  /** The oldest command that has waited for `ageAfter`. */
  ghost predicate OldestWaiting(items: seq<Queued>, now: int, ageAfter: int, x: Queued) {
    && now - x.command.createdAt >= ageAfter
    && forall y | y in items && now - y.command.createdAt >= ageAfter :: x.sequence <= y.sequence
  }

  /** The oldest command of its class, which is `preferred` if that class is queued, and else the most
      urgent class that is. */
  ghost predicate OldestOfClass(items: seq<Queued>, preferred: Priority, x: Queued) {
    && (if exists y :: y in items && y.command.priority == preferred then x.command.priority == preferred
        else forall y | y in items :: !MoreUrgent(y.command.priority, x.command.priority))
    && forall y | y in items && y.command.priority == x.command.priority :: x.sequence <= y.sequence
  }

  lemma SelectedByClass(st: State, now: int, ageAfter: int, x: Queued)
    requires WellFormed(st) && IsSelected(st, now, ageAfter, x) && TakesCursor(st, now, ageAfter)
    ensures OldestOfClass(
              st.items, if st.cursor % 3 == 0 then Interactive else if st.cursor % 3 == 1 then Normal else Batch, x)
  {
    AgedFound(st, now, ageAfter);
    forall y | y in st.items
      ensures y.command.priority == x.command.priority <==> y.priority == x.priority
      ensures MoreUrgent(y.command.priority, x.command.priority) <==> y.priority > x.priority
    {
    }
  }

  /** The rule in the terms of the commands alone. The oldest aged command comes first. With nothing
      aged, the cursor prefers interactive, normal and batch commands in turn, and moves on. */
  lemma ChoiceByClass(st: State, now: int, ageAfter: int)
    requires WellFormed(st) && st.items != []
    ensures var (next, chosen) := AfterChoose(st, now, ageAfter);
            && chosen.Some? && chosen.value in st.items
            && (forall y :: y in next.items <==> y in st.items && y != chosen.value)
            && |next.items| == |st.items| - 1 && next.counter == st.counter
            && if exists y :: y in st.items && now - y.command.createdAt >= ageAfter
               then next.cursor == st.cursor && OldestWaiting(st.items, now, ageAfter, chosen.value)
               else
                 && next.cursor == st.cursor + 1
                 && OldestOfClass(
                      st.items,
                      if st.cursor % 3 == 0 then Interactive else if st.cursor % 3 == 1 then Normal else Batch,
                      chosen.value)
  {
    var x := AfterChoose(st, now, ageAfter).1.value;
    WithoutElements(st.items, st.counter, x);
    ChoiceFollowsRule(st, now, ageAfter, x);
    AgedFound(st, now, ageAfter);
    assert (exists y :: y in st.items && IsAged(y, now, ageAfter)) <==>
           exists y :: y in st.items && now - y.command.createdAt >= ageAfter;
    if TakesCursor(st, now, ageAfter) {
      SelectedByClass(st, now, ageAfter, x);
    }
  }

  ghost predicate IsOldestAged(st: State, now: int, ageAfter: int, x: Queued) {
    && x in st.items && IsAged(x, now, ageAfter)
    && forall y | y in st.items && IsAged(y, now, ageAfter) :: x.sequence <= y.sequence
  }

  // ----- The dispatcher -----

  class WeightedFairDispatcher {
    const ageAfter: int
    var items: seq<Queued>
    var counter: nat
    var cursor: nat

    ghost function View(): State
      reads this
    {
      State(items, counter, cursor)
    }

    constructor (ageAfter: int)
      ensures this.ageAfter == ageAfter && View() == State([], 0, 0)
    {
      this.ageAfter := ageAfter;
      items, counter, cursor := [], 0, 0;
    }

    method Add(command: Command, deliveryCount: nat)
      modifies this
      ensures View() == AfterAdd(old(View()), command, deliveryCount)
    {
      items := items + [Queued(PriorityValue(command.priority), counter, command, deliveryCount)];
      counter := counter + 1;
    }

    method Choose(now: int) returns (r: Option<Queued>)
      requires WellFormed(View())
      modifies this
      ensures (View(), r) == AfterChoose(old(View()), now, ageAfter)
      ensures WellFormed(View())
    {
      if items == [] {
        return None;
      }
      ghost var before := View();
      var candidates := AgedItems(items, now, ageAfter);
      if candidates == [] {
        candidates := OfPriority(items, SlotPriority(cursor));
        if candidates == [] {
          candidates := TopItems(items);
        }
        cursor := cursor + 1;
      }
      assert candidates == Candidates(before, now, ageAfter);
      var selected := Oldest(candidates);
      OldestIsFirst(before, now, ageAfter, selected);
      items := Without(items, selected);
      ChooseKeepsWellFormed(before, now, ageAfter);
      r := Some(selected);
    }
  }
}
