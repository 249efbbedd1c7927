/** The drainable capacity gate, as any number of tasks pass through it. */
module Capacity {
  import opened Domain

  /** The gate's fields; `permits` are those left in the semaphore. */
  datatype Gate = Gate(permits: nat, active: int, draining: bool)

  // ----- The atomic sections of `slot` -----

  /** The first check. */
  function AfterEnter(g: Gate): Result<()> {
    if g.draining then Err(QueueClosed) else Ok(())
  }

  /** Taking a permit; without one the task goes on waiting. */
  function AfterAcquire(g: Gate): (Gate, bool) {
    if g.permits == 0 then (g, false) else (g.(permits := g.permits - 1), true)
  }

  /** The second check, under a permit: a draining gate takes the permit back. */
  function AfterAdmit(g: Gate): (Gate, Result<()>) {
    if g.draining then (g.(permits := g.permits + 1), Err(QueueClosed)) else (g.(active := g.active + 1), Ok(()))
  }

  function AfterLeave(g: Gate): Gate {
    g.(active := g.active - 1)
  }

  function AfterRelease(g: Gate): Gate {
    g.(permits := g.permits + 1)
  }

  class ExecutionCapacity {
    const maximum: int
    var permits: nat
    var active: int
    var draining: bool

    ghost function View(): Gate
      reads this
    {
      Gate(permits, active, draining)
    }

    constructor (maximum: int)
      requires maximum >= 1
      ensures this.maximum == maximum && View() == Gate(maximum, 0, false)
    {
      this.maximum := maximum;
      permits, active, draining := maximum, 0, false;
    }

    /** A maximum below one is refused. */
    static method Create(maximum: int) returns (r: Result<ExecutionCapacity>)
      ensures r.Ok? <==> maximum >= 1
      ensures r.Ok? ==> fresh(r.value) && r.value.maximum == maximum && r.value.View() == Gate(maximum, 0, false)
    {
      if maximum < 1 {
        return Err(InvalidExecutionInput);
      }
      var capacity := new ExecutionCapacity(maximum);
      r := Ok(capacity);
    }

    method Enter() returns (r: Result<()>)
      ensures r == AfterEnter(View())
    {
      r := if draining then Err(QueueClosed) else Ok(());
    }

    method Acquire() returns (taken: bool)
      modifies this
      ensures (View(), taken) == AfterAcquire(old(View()))
    {
      taken := permits > 0;
      if taken {
        permits := permits - 1;
      }
    }

    method Admit() returns (r: Result<()>)
      modifies this
      ensures (View(), r) == AfterAdmit(old(View()))
    {
      if draining {
        permits := permits + 1;
        return Err(QueueClosed);
      }
      active := active + 1;
      r := Ok(());
    }

    method Leave()
      modifies this
      ensures View() == AfterLeave(old(View()))
    {
      active := active - 1;
    }

    method Release()
      modifies this
      ensures View() == AfterRelease(old(View()))
    {
      permits := permits + 1;
    }

    method StartDraining()
      modifies this
      ensures View() == old(View()).(draining := true)
    {
      draining := true;
    }
  }

  // ----- Tasks -----

  /** Where a use of a slot stands. */
  datatype Phase = Waiting | Holding | Inside | Leaving | Finished | Turned

  /** `drained` tells that some call of `drain` has returned. */
  datatype System = System(gate: Gate, tasks: map<string, Phase>, drained: bool)

  datatype Action =
    | Enter(task: string)
    | Acquire(task: string)
    | Admit(task: string)
    | Leave(task: string)
    | Release(task: string)
    | StartDraining
    | DrainReturns

  function Start(maximum: nat): System {
    System(Gate(maximum, 0, false), map[], false)
  }

  predicate At(sys: System, task: string, phase: Phase) {
    task in sys.tasks && sys.tasks[task] == phase
  }

  /** One atomic section of one task, or of a drain; an action that is not enabled changes nothing. */
  function Step(sys: System, a: Action): System {
    var g := sys.gate;
    match a
    case Enter(t) =>
      if t in sys.tasks then sys else sys.(tasks := sys.tasks[t := if AfterEnter(g).Ok? then Waiting else Turned])
    case Acquire(t) =>
      if !At(sys, t, Waiting) || !AfterAcquire(g).1 then sys
      else sys.(gate := AfterAcquire(g).0, tasks := sys.tasks[t := Holding])
    case Admit(t) =>
      if !At(sys, t, Holding) then sys
      else
        var (gate, r) := AfterAdmit(g);
        sys.(gate := gate, tasks := sys.tasks[t := if r.Ok? then Inside else Turned])
    case Leave(t) =>
      if !At(sys, t, Inside) then sys else sys.(gate := AfterLeave(g), tasks := sys.tasks[t := Leaving])
    case Release(t) =>
      if !At(sys, t, Leaving) then sys else sys.(gate := AfterRelease(g), tasks := sys.tasks[t := Finished])
    case StartDraining => sys.(gate := g.(draining := true))
    case DrainReturns => if g.draining && g.active == 0 then sys.(drained := true) else sys
  }

  function Exec(sys: System, actions: seq<Action>): System
    decreases |actions|
  {
    if actions == [] then sys else Exec(Step(sys, actions[0]), actions[1..])
  }

  predicate Holds(p: Phase) {
    p.Holding? || p.Inside? || p.Leaving?
  }

  /** The tasks that hold a permit. */
  function Holders(tasks: map<string, Phase>): set<string> {
    set t | t in tasks && Holds(tasks[t])
  }

  /** The tasks in the body of their slot. */
  function Insiders(tasks: map<string, Phase>): set<string> {
    set t | t in tasks && tasks[t].Inside?
  }

  ghost predicate Balanced(sys: System, maximum: nat) {
    && sys.gate.permits + |Holders(sys.tasks)| == maximum
    && sys.gate.active == |Insiders(sys.tasks)|
    && (sys.drained ==> sys.gate.draining && sys.gate.active == 0)
  }

  function One(b: bool): int {
    if b then 1 else 0
  }

  lemma OneMemberDiffers(a: set<string>, b: set<string>, t: string)
    requires forall x | x != t :: x in a <==> x in b
    ensures |b| == |a| - One(t in a) + One(t in b)
  {
    assert a - {t} == b - {t};
    assert t in a ==> a == (a - {t}) + {t};
    assert t in b ==> b == (b - {t}) + {t};
  }

  lemma Counted(tasks: map<string, Phase>, t: string, p: Phase)
    ensures |Holders(tasks[t := p])| == |Holders(tasks)| - One(t in tasks && Holds(tasks[t])) + One(Holds(p))
    ensures |Insiders(tasks[t := p])| == |Insiders(tasks)| - One(t in tasks && tasks[t].Inside?) + One(p.Inside?)
  {
    OneMemberDiffers(Holders(tasks), Holders(tasks[t := p]), t);
    OneMemberDiffers(Insiders(tasks), Insiders(tasks[t := p]), t);
  }

  lemma StepKeepsBalanced(sys: System, maximum: nat, a: Action)
    requires Balanced(sys, maximum)
    ensures Balanced(Step(sys, a), maximum)
  {
    if !a.StartDraining? && !a.DrainReturns? {
      Counted(sys.tasks, a.task, Waiting);
      Counted(sys.tasks, a.task, Turned);
      Counted(sys.tasks, a.task, Holding);
      Counted(sys.tasks, a.task, Inside);
      Counted(sys.tasks, a.task, Leaving);
      Counted(sys.tasks, a.task, Finished);
    }
  }

  lemma {:induction false} RunKeepsBalanced(sys: System, maximum: nat, actions: seq<Action>)
    requires Balanced(sys, maximum)
    ensures Balanced(Exec(sys, actions), maximum)
    decreases |actions|
  {
    if actions != [] {
      StepKeepsBalanced(sys, maximum, actions[0]);
      RunKeepsBalanced(Step(sys, actions[0]), maximum, actions[1..]);
    }
  }

  // ----- Who gets in -----

  /** A task is turned away on entry exactly when the gate is draining. */
  lemma TurnedAwayIff(sys: System, task: string)
    requires task !in sys.tasks
    ensures var next := Step(sys, Enter(task));
            && (At(next, task, Turned) <==> sys.gate.draining)
            && (At(next, task, Waiting) <==> !sys.gate.draining)
            && next.gate == sys.gate
  {
  }

  /** A task that comes in alone gets to its body exactly when the gate is not draining and a permit is
      free; it then holds the permit. */
  lemma GetsInsideIff(sys: System, task: string)
    requires task !in sys.tasks
    ensures var next := Exec(sys, [Enter(task), Acquire(task), Admit(task)]);
            && (At(next, task, Inside) <==> !sys.gate.draining && sys.gate.permits > 0)
            && next.gate == (if At(next, task, Inside)
                             then Gate(sys.gate.permits - 1, sys.gate.active + 1, false) else sys.gate)
  {
    var s1 := Step(sys, Enter(task));
    var s2 := Step(s1, Acquire(task));
    var s3 := Step(s2, Admit(task));
    assert Exec(s2, [Admit(task)]) == Exec(s3, []) == s3;
    assert [Enter(task), Acquire(task), Admit(task)][1..] == [Acquire(task), Admit(task)];
    assert [Acquire(task), Admit(task)][1..] == [Admit(task)];
  }

  /** Leaving gives back what coming in took. */
  lemma PassesThrough(sys: System, task: string)
    requires At(sys, task, Inside)
    ensures var next := Step(Step(sys, Leave(task)), Release(task));
            At(next, task, Finished) && next.gate == Gate(sys.gate.permits + 1, sys.gate.active - 1, sys.gate.draining)
  {
  }

  /** A task that holds a permit when draining starts gives it back and is turned away. */
  lemma TurnedAwayAtSecondCheck(sys: System, task: string)
    requires At(sys, task, Holding)
    ensures var next := Step(sys, Admit(task));
            && (At(next, task, Turned) <==> sys.gate.draining)
            && (sys.gate.draining ==> next.gate == sys.gate.(permits := sys.gate.permits + 1))
  {
  }

  // ----- Conservation -----

  /** Permits are conserved, and no more tasks are in the body than the maximum: in every state of every
      interleaving, free permits and permit holders add up, and `active` counts the tasks inside. */
  lemma PermitsConserved(maximum: nat, actions: seq<Action>)
    ensures var sys := Exec(Start(maximum), actions);
            && sys.gate.permits + |Holders(sys.tasks)| == maximum
            && sys.gate.active == |Insiders(sys.tasks)| <= maximum
  {
    assert Holders(map[]) == {} && Insiders(map[]) == {};
    RunKeepsBalanced(Start(maximum), maximum, actions);
    var sys := Exec(Start(maximum), actions);
    SubsetSize(Insiders(sys.tasks), Holders(sys.tasks));
  }

  lemma SubsetSize(a: set<string>, b: set<string>)
    requires a <= b
    ensures |a| <= |b|
  {
    assert b == a + (b - a);
  }

  /** From the moment draining is set, nobody is admitted: the tasks inside are among those inside
      before, whatever happens. */
  lemma {:induction false} DrainingAdmitsNobody(sys: System, actions: seq<Action>)
    requires sys.gate.draining
    ensures var sys' := Exec(sys, actions);
            sys'.gate.draining && Insiders(sys'.tasks) <= Insiders(sys.tasks)
    decreases |actions|
  {
    if actions != [] {
      DrainingAdmitsNobody(Step(sys, actions[0]), actions[1..]);
    }
  }

  /** `active` never increases while draining, and once a drain has returned it is 0 for ever, and no
      task is inside. */
  lemma DrainIsFinal(maximum: nat, before: seq<Action>, after: seq<Action>)
    ensures var sys := Exec(Start(maximum), before);
            var sys' := Exec(sys, after);
            && (sys.gate.draining ==> sys'.gate.active <= sys.gate.active)
            && (sys.drained ==> sys'.gate.active == 0 && Insiders(sys'.tasks) == {})
  {
    var sys := Exec(Start(maximum), before);
    assert Holders(map[]) == {} && Insiders(map[]) == {};
    RunKeepsBalanced(Start(maximum), maximum, before);
    RunKeepsBalanced(sys, maximum, after);
    if sys.gate.draining {
      DrainingAdmitsNobody(sys, after);
      SubsetSize(Insiders(Exec(sys, after).tasks), Insiders(sys.tasks));
    }
  }
}
