/** No command starves: explicit bounds for every run of additions and choices. */
module DispatcherFairness {
  import opened Domain
  import opened QueueItems
  import opened FairDispatcher

  datatype Op = Add(command: Command, deliveryCount: nat) | Choose(now: int)

  ghost function Step(st: State, op: Op, ageAfter: int): State {
    match op
    case Add(command, deliveryCount) => AfterAdd(st, command, deliveryCount)
    case Choose(now) => AfterChoose(st, now, ageAfter).0
  }

  ghost function Exec(st: State, ops: seq<Op>, ageAfter: int): State
    decreases |ops|
  {
    if ops == [] then st else Exec(Step(st, ops[0], ageAfter), ops[1..], ageAfter)
  }

  /** The items handed out by a run, in order. */
  ghost function Outputs(st: State, ops: seq<Op>, ageAfter: int): seq<Queued>
    decreases |ops|
  {
    if ops == [] then []
    else
      (if ops[0].Choose? && st.items != [] then [AfterChoose(st, ops[0].now, ageAfter).1.value] else [])
      + Outputs(Step(st, ops[0], ageAfter), ops[1..], ageAfter)
  }

  // ----- The two measures -----

  ghost function BeforeOf(x: Queued): Queued -> bool {
    (y: Queued) => y.sequence < x.sequence
  }

  ghost function PeerBeforeOf(x: Queued): Queued -> bool {
    (y: Queued) => y.priority == x.priority && y.sequence < x.sequence
  }

  /** Queued items inserted before `x`. */
  ghost function Earlier(st: State, x: Queued): nat {
    Count(st.items, BeforeOf(x))
  }

  /** Queued items of `x`'s priority inserted before `x`. */
  ghost function EarlierPeers(st: State, x: Queued): nat {
    Count(st.items, PeerBeforeOf(x))
  }

  /** Cursor moves until the cursor stands at a priority's slot. */
  function Distance(cursor: nat, priority: int): (d: nat)
    ensures d <= 2
    ensures priority in {100, 50, 10} ==> SlotPriority(cursor + d) == priority
  {
    if SlotPriority(cursor) == priority then 0 else if SlotPriority(cursor + 1) == priority then 1 else 2
  }

  /** Bounds the cursor choices `x` can still lose: three for every earlier peer, plus the distance. */
  ghost function Wait(st: State, x: Queued): nat {
    3 * EarlierPeers(st, x) + Distance(st.cursor, x.priority)
  }

  // ----- One step -----

  lemma AddKeepsMeasures(st: State, command: Command, deliveryCount: nat, x: Queued)
    requires WellFormed(st) && x in st.items
    ensures var next := AfterAdd(st, command, deliveryCount);
            x in next.items && Earlier(next, x) == Earlier(st, x) && Wait(next, x) == Wait(st, x)
  {
    var added := Queued(PriorityValue(command.priority), st.counter, command, deliveryCount);
    CountAppend(st.items, added, BeforeOf(x));
    CountAppend(st.items, added, PeerBeforeOf(x));
  }

  /** What is chosen instead of `x`: an earlier item when `x` is aged, and an earlier peer when the
      cursor stands at `x`'s slot. */
  lemma ChosenInstead(st: State, now: int, ageAfter: int, x: Queued, y: Queued)
    requires WellFormed(st) && x in st.items && x != y && AfterChoose(st, now, ageAfter).1 == Some(y)
    ensures y in st.items
    ensures IsAged(x, now, ageAfter) ==> y.sequence < x.sequence
    ensures TakesCursor(st, now, ageAfter) && SlotPriority(st.cursor) == x.priority ==>
              y.priority == x.priority && y.sequence < x.sequence
  {
    ChoiceFollowsRule(st, now, ageAfter, y);
    var aged := AgedItems(st.items, now, ageAfter);
    assert forall z :: z in aged <==> z in st.items && IsAged(z, now, ageAfter);
    if y.sequence == x.sequence {
      NumberedUnique(st.items, st.counter, x, y);
    }
  }

  lemma CountsAfterChoice(st: State, now: int, ageAfter: int, x: Queued, y: Queued)
    requires WellFormed(st) && x in st.items && x != y && AfterChoose(st, now, ageAfter).1 == Some(y)
    ensures var next := AfterChoose(st, now, ageAfter).0;
            && x in next.items
            && Earlier(st, x) == Earlier(next, x) + (if BeforeOf(x)(y) then 1 else 0)
            && EarlierPeers(st, x) == EarlierPeers(next, x) + (if PeerBeforeOf(x)(y) then 1 else 0)
  {
    WithoutElements(st.items, st.counter, y);
    CountWithout(st.items, y, BeforeOf(x));
    CountWithout(st.items, y, PeerBeforeOf(x));
  }

  /** The measures after passing `x` over for `y`: an earlier peer is worth three cursor moves. */
  lemma PassingOver(st: State, next: State, x: Queued, y: Queued)
    requires x.priority in {100, 50, 10}
    requires Earlier(st, x) == Earlier(next, x) + (if BeforeOf(x)(y) then 1 else 0)
    requires EarlierPeers(st, x) == EarlierPeers(next, x) + (if PeerBeforeOf(x)(y) then 1 else 0)
    ensures BeforeOf(x)(y) ==> Earlier(next, x) < Earlier(st, x)
    ensures next.cursor == st.cursor ==> Wait(next, x) <= Wait(st, x)
    ensures next.cursor == st.cursor + 1 && (SlotPriority(st.cursor) == x.priority ==> PeerBeforeOf(x)(y)) ==>
              Wait(next, x) < Wait(st, x)
  {
  }

  /** A choice that passes `x` over never sets it back; it brings `x` nearer when it consults the
      cursor, and when `x` is aged. */
  lemma ChoiceAdvances(st: State, now: int, ageAfter: int, x: Queued)
    requires WellFormed(st) && x in st.items && AfterChoose(st, now, ageAfter).1 != Some(x)
    ensures var next := AfterChoose(st, now, ageAfter).0;
            && x in next.items
            && Earlier(next, x) <= Earlier(st, x) && Wait(next, x) <= Wait(st, x)
            && (TakesCursor(st, now, ageAfter) ==> Wait(next, x) < Wait(st, x))
            && (IsAged(x, now, ageAfter) ==> Earlier(next, x) < Earlier(st, x))
  {
    var (next, chosen) := AfterChoose(st, now, ageAfter);
    var y := chosen.value;
    ChosenInstead(st, now, ageAfter, x, y);
    CountsAfterChoice(st, now, ageAfter, x, y);
    PassingOver(st, next, x, y);
  }

  // ----- Whole runs -----

  /** Choices of a run that consult the cursor. */
  ghost function CursorChoices(st: State, ops: seq<Op>, ageAfter: int): nat
    decreases |ops|
  {
    if ops == [] then 0
    else
      (if ops[0].Choose? && TakesCursor(st, ops[0].now, ageAfter) then 1 else 0)
      + CursorChoices(Step(st, ops[0], ageAfter), ops[1..], ageAfter)
  }

  /** Choices of a run at which `x` is aged. */
  function AgedChoices(ops: seq<Op>, x: Queued, ageAfter: int): nat {
    if ops == [] then 0
    else (if ops[0].Choose? && IsAged(x, ops[0].now, ageAfter) then 1 else 0) + AgedChoices(ops[1..], x, ageAfter)
  }

  function Choices(ops: seq<Op>): nat {
    if ops == [] then 0 else (if ops[0].Choose? then 1 else 0) + Choices(ops[1..])
  }

  lemma StepKeepsWellFormed(st: State, op: Op, ageAfter: int)
    requires WellFormed(st)
    ensures WellFormed(Step(st, op, ageAfter))
  {
    match op
    case Add(command, deliveryCount) => AddKeepsWellFormed(st, command, deliveryCount);
    case Choose(now) => ChooseKeepsWellFormed(st, now, ageAfter);
  }

  /** While `x` stays queued, the run has passed it over at most `Wait` times by the cursor and at
      most `Earlier` times by age, whatever was added meanwhile. */
  lemma {:induction false} PassedOverBound(st: State, ops: seq<Op>, ageAfter: int, x: Queued)
    requires WellFormed(st) && x in st.items
    ensures x in Outputs(st, ops, ageAfter) ||
            (x in Exec(st, ops, ageAfter).items
             && CursorChoices(st, ops, ageAfter) + Wait(Exec(st, ops, ageAfter), x) <= Wait(st, x)
             && AgedChoices(ops, x, ageAfter) + Earlier(Exec(st, ops, ageAfter), x) <= Earlier(st, x))
    decreases |ops|
  {
    if ops != [] {
      var next := Step(st, ops[0], ageAfter);
      StepKeepsWellFormed(st, ops[0], ageAfter);
      if ops[0].Add? {
        AddKeepsMeasures(st, ops[0].command, ops[0].deliveryCount, x);
        PassedOverBound(next, ops[1..], ageAfter, x);
      } else if AfterChoose(st, ops[0].now, ageAfter).1 != Some(x) {
        ChoiceAdvances(st, ops[0].now, ageAfter, x);
        PassedOverBound(next, ops[1..], ageAfter, x);
      }
    }
  }

  /** An item with `k` earlier peers is handed out within `3(k + 1)` cursor choices. */
  lemma ChosenWithinCursorChoices(st: State, ops: seq<Op>, ageAfter: int, x: Queued)
    requires WellFormed(st) && x in st.items
    requires CursorChoices(st, ops, ageAfter) >= 3 * (EarlierPeers(st, x) + 1)
    ensures x in Outputs(st, ops, ageAfter)
  {
    PassedOverBound(st, ops, ageAfter, x);
  }

  ghost predicate ClockFrom(ops: seq<Op>, start: int) {
    forall i | 0 <= i < |ops| :: ops[i].Choose? ==> ops[i].now >= start
  }

  lemma {:induction false} AllChoicesAged(ops: seq<Op>, x: Queued, start: int, ageAfter: int)
    requires ClockFrom(ops, start) && IsAged(x, start, ageAfter)
    ensures AgedChoices(ops, x, ageAfter) == Choices(ops)
  {
    if ops != [] {
      AllChoicesAged(ops[1..], x, start, ageAfter);
    }
  }

  /** Once aged, an item is handed out within one choice more than the items queued before it. */
  lemma ChosenOnceAged(st: State, ops: seq<Op>, ageAfter: int, x: Queued, start: int)
    requires WellFormed(st) && x in st.items
    requires IsAged(x, start, ageAfter) && ClockFrom(ops, start)
    requires Choices(ops) >= 1 + Earlier(st, x)
    ensures x in Outputs(st, ops, ageAfter)
  {
    PassedOverBound(st, ops, ageAfter, x);
    AllChoicesAged(ops, x, start, ageAfter);
  }

  /** Both bounds at once: `Wait + Earlier` is a measure of the choices that count for `x`. */
  lemma LeavesWithinMeasure(st: State, ops: seq<Op>, ageAfter: int, x: Queued)
    requires WellFormed(st) && x in st.items
    requires CursorChoices(st, ops, ageAfter) + AgedChoices(ops, x, ageAfter) > Wait(st, x) + Earlier(st, x)
    ensures x in Outputs(st, ops, ageAfter)
  {
    PassedOverBound(st, ops, ageAfter, x);
  }

  /** `n` rounds that each add a command which is already aged and then choose. */
  function Overtaking(late: Command, now: int, n: nat): seq<Op> {
    if n == 0 then [] else [Add(late, 0), Choose(now)] + Overtaking(late, now, n - 1)
  }

  /** An aged arrival is chosen before anything that is not aged. */
  lemma RoundPassesOver(st: State, ageAfter: int, x: Queued, late: Command, now: int)
    requires WellFormed(st) && x in st.items
    requires !IsAged(x, now, ageAfter) && now - late.createdAt >= ageAfter
    ensures var added := AfterAdd(st, late, 0);
            var (next, chosen) := AfterChoose(added, now, ageAfter);
            && WellFormed(next) && x in next.items && |next.items| == |st.items|
            && chosen.Some? && chosen != Some(x)
  {
    var added := AfterAdd(st, late, 0);
    AddKeepsWellFormed(st, late, 0);
    ChooseKeepsWellFormed(added, now, ageAfter);
    var y := AfterChoose(added, now, ageAfter).1.value;
    ChoiceFollowsRule(added, now, ageAfter, x);
    assert IsAged(added.items[|st.items|], now, ageAfter);
    WithoutElements(added.items, added.counter, y);
  }

  /** One round of `Overtaking`, unfolded. */
  lemma RoundUnfolds(st: State, ageAfter: int, late: Command, now: int, n: nat)
    requires n > 0
    ensures var ops, rest := Overtaking(late, now, n), Overtaking(late, now, n - 1);
            var added := AfterAdd(st, late, 0);
            var (next, chosen) := AfterChoose(added, now, ageAfter);
            && Exec(st, ops, ageAfter) == Exec(next, rest, ageAfter)
            && Choices(ops) == 1 + Choices(rest)
            && (chosen.Some? ==> Outputs(st, ops, ageAfter) == [chosen.value] + Outputs(next, rest, ageAfter))
  {
    var ops, rest := Overtaking(late, now, n), Overtaking(late, now, n - 1);
    assert ops[1..] == [Choose(now)] + rest && ops[1..][1..] == rest;
  }

  lemma Round(st: State, ageAfter: int, x: Queued, late: Command, now: int, n: nat)
    returns (next: State, chosen: Queued)
    requires WellFormed(st) && x in st.items && n > 0
    requires !IsAged(x, now, ageAfter) && now - late.createdAt >= ageAfter
    ensures WellFormed(next) && x in next.items && |next.items| == |st.items| && chosen != x
    ensures var ops, rest := Overtaking(late, now, n), Overtaking(late, now, n - 1);
            && Exec(st, ops, ageAfter) == Exec(next, rest, ageAfter)
            && Choices(ops) == 1 + Choices(rest)
            && Outputs(st, ops, ageAfter) == [chosen] + Outputs(next, rest, ageAfter)
  {
    RoundPassesOver(st, ageAfter, x, late, now);
    RoundUnfolds(st, ageAfter, late, now, n);
    var choice := AfterChoose(AfterAdd(st, late, 0), now, ageAfter);
    next, chosen := choice.0, choice.1.value;
  }

  /** The bounds need the clock: before it is aged itself, an item can be passed over any number of
      times by commands that arrive already aged, whatever else is queued. */
  lemma {:induction false} YoungItemCanWait(st: State, ageAfter: int, x: Queued, late: Command, now: int, n: nat)
    requires WellFormed(st) && x in st.items
    requires !IsAged(x, now, ageAfter) && now - late.createdAt >= ageAfter
    ensures var ops := Overtaking(late, now, n);
            && Choices(ops) == n && x !in Outputs(st, ops, ageAfter)
            && x in Exec(st, ops, ageAfter).items && |Exec(st, ops, ageAfter).items| == |st.items|
    decreases n
  {
    if n > 0 {
      var next, chosen := Round(st, ageAfter, x, late, now, n);
      YoungItemCanWait(next, ageAfter, x, late, now, n - 1);
    }
  }

  // ----- When a number of choices is enough -----

  /** Every run from `start` on that makes `n` choices hands out `x`, whatever it adds. */
  ghost predicate ChosenWithin(st: State, x: Queued, start: int, ageAfter: int, n: nat) {
    forall ops | ClockFrom(ops, start) && Choices(ops) >= n :: x in Outputs(st, ops, ageAfter)
  }

  lemma {:induction false} OvertakingClock(late: Command, now: int, n: nat)
    ensures ClockFrom(Overtaking(late, now, n), now)
    decreases n
  {
    if n > 0 {
      OvertakingClock(late, now, n - 1);
    }
  }

  /** A number of choices bounds the wait of a queued item exactly when the item is aged. */
  lemma BoundedIffAged(st: State, x: Queued, start: int, ageAfter: int)
    requires WellFormed(st) && x in st.items
    ensures (exists n: nat :: ChosenWithin(st, x, start, ageAfter, n)) <==> IsAged(x, start, ageAfter)
  {
    if IsAged(x, start, ageAfter) {
      forall ops | ClockFrom(ops, start) && Choices(ops) >= 1 + Earlier(st, x) ensures x in Outputs(st, ops, ageAfter) {
        ChosenOnceAged(st, ops, ageAfter, x, start);
      }
      assert ChosenWithin(st, x, start, ageAfter, 1 + Earlier(st, x));
    } else {
      forall n: nat ensures !ChosenWithin(st, x, start, ageAfter, n) {
        var late := x.command.(createdAt := start - ageAfter);
        YoungItemCanWait(st, ageAfter, x, late, start, n);
        OvertakingClock(late, start, n);
      }
    }
  }

  // ----- Conservation -----

  /** The items a run adds, in order. */
  ghost function Added(st: State, ops: seq<Op>, ageAfter: int): seq<Queued>
    decreases |ops|
  {
    if ops == [] then []
    else
      var next := Step(st, ops[0], ageAfter);
      (if ops[0].Add? then [next.items[|next.items| - 1]] else []) + Added(next, ops[1..], ageAfter)
  }

  lemma MultisetWithout(items: seq<Queued>, x: Queued)
    requires x in items
    ensures multiset(items) == multiset(Without(items, x)) + multiset{x}
  {
    var i := IndexOf(items, x);
    assert items == items[..i] + [x] + items[i + 1..];
  }

  /** A run loses no item and hands out none twice: every item is queued or added as often as it is
      handed out or still queued. */
  lemma {:induction false} RunConserves(st: State, ops: seq<Op>, ageAfter: int, z: Queued)
    ensures multiset(st.items)[z] + multiset(Added(st, ops, ageAfter))[z] ==
            multiset(Exec(st, ops, ageAfter).items)[z] + multiset(Outputs(st, ops, ageAfter))[z]
    decreases |ops|
  {
    if ops != [] {
      RunConserves(Step(st, ops[0], ageAfter), ops[1..], ageAfter, z);
      if ops[0].Choose? && st.items != [] {
        MultisetWithout(st.items, AfterChoose(st, ops[0].now, ageAfter).1.value);
      }
    }
  }
}
