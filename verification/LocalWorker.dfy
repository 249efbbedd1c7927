/** The local worker: one command after the other, until an execution raises. */
module LocalWorker {
  import opened Domain
  import opened QueueItems
  import opened Execution
  import opened ExecutionService
  import opened ExecutionSettles
  import Queue = MemoryQueue

  /** Between two commands: nothing is executing and every queued command is for a known run. */
  ghost predicate Resting(w: World) {
    && Filed(w.threads, w.runs) && ThreadsKnown(w.threads, w.runs) && w.active == {}
    && forall x | x in w.queue.waiting :: x.command.identity.runId in w.runs
  }

  ghost predicate FreshLeases(w: World, jobs: seq<Job>) {
    && (forall i | 0 <= i < |jobs| :: jobs[i].lease !in w.queue.leases)
    && (forall i, j | 0 <= i < j < |jobs| :: jobs[i].lease != jobs[j].lease)
  }

  /** Receiving and executing one command. */
  function AfterJob(w: World, job: Job): (World, Outcome)
    requires w.queue.waiting != []
  {
    var (queue, r) := Queue.AfterReceive(w.queue, job.lease);
    AfterExecute(w.(queue := queue), r.value.value, job.drafts, job.ending, job.now)
  }

  function RunOf(x: Queued): string {
    x.command.identity.runId
  }

  predicate IsPending(w: World, id: string) {
    id in w.runs && w.runs[id].status == Pending
  }

  /** Whatever the adapter does, the command is acknowledged and the worker rests again; its run is
      settled if it was pending and untouched otherwise, and so is every other run. It raises exactly
      when the run was pending and the stream fails. */
  lemma JobServes(w: World, job: Job)
    requires Resting(w) && w.queue.waiting != [] && job.lease !in w.queue.leases
    ensures var (w', outcome) := AfterJob(w, job);
            var x := Queue.Least(w.queue.waiting);
            && Resting(w')
            && w'.queue == w.queue.(waiting := Without(w.queue.waiting, x))
            && RunOf(x) in w'.runs && w'.runs == w.runs[RunOf(x) := w'.runs[RunOf(x)]]
            && (if IsPending(w, RunOf(x)) then IsSettled(w'.runs[RunOf(x)].status) else w'.runs == w.runs)
            && (outcome == Raised <==> IsPending(w, RunOf(x)) && Fails(job.drafts, job.ending))
  {
    var x := Queue.Least(w.queue.waiting);
    var (queue, r) := Queue.AfterReceive(w.queue, job.lease);
    var receipt, w1 := r.value.value, w.(queue := queue);
    var id := RunOf(x);
    WithoutMembers(w.queue.waiting, x);
    assert w1.queue.leases - {job.lease} == w.queue.leases;
    assert w.runs[id := w.runs[id]] == w.runs;
    if IsPending(w, id) {
      ExecutionSettlesRun(w1, receipt, job.drafts, job.ending, job.now);
      ExecutionKeepsThreads(w1, receipt, job.drafts, job.ending, job.now);
      ExecutionRaisesIff(w1, receipt, job.drafts, job.ending, job.now);
    }
  }

  ghost predicate ThreadsFiled(threads: Threads) {
    forall t | t in threads :: threads[t].threadId == t
  }

  lemma EventKeepsFiled(w: World, f: Frame, draft: Draft, now: int)
    requires ThreadsFiled(w.threads)
    ensures ThreadsFiled(AfterEvent(w, f, draft, now).0.threads)
  {
  }

  lemma {:induction false} EventsKeepFiled(w: World, f: Frame, drafts: seq<Draft>, now: int)
    requires ThreadsFiled(w.threads)
    ensures ThreadsFiled(AfterEvents(w, f, drafts, now).0.threads)
    decreases |drafts|
  {
    if drafts != [] {
      var (w', f', outcome) := AfterEvent(w, f, drafts[0], now);
      EventKeepsFiled(w, f, drafts[0], now);
      if outcome == Returned {
        EventsKeepFiled(w', f', drafts[1..], now);
      }
    }
  }

  lemma FinishKeepsFiled(w: World, f: Frame, ending: Ending, now: int)
    requires ThreadsFiled(w.threads)
    ensures var w' := AfterFinish(w, f, ending, now).0;
            ThreadsFiled(w'.threads) && w'.threads.Keys == w.threads.Keys
            && w'.runs == AfterEnding(w, f, ending, now).0.runs
  {
  }

  lemma ExecutionKeepsThreads(w: World, receipt: Receipt, drafts: seq<Draft>, ending: Ending, now: int)
    requires Filed(w.threads, w.runs) && ThreadsKnown(w.threads, w.runs)
    requires receipt.command.identity.runId in w.runs && w.runs[receipt.command.identity.runId].status == Pending
    ensures var w' := AfterExecute(w, receipt, drafts, ending, now).0;
            ThreadsFiled(w'.threads) && ThreadsKnown(w'.threads, w'.runs)
  {
    var (w1, begun) := AfterBegin(w, receipt, now);
    var (w2, f2, streamed) := AfterEvents(w1, begun.frame, drafts, now);
    EventsKeepFiled(w1, begun.frame, drafts, now);
    FinishKeepsFiled(w2, f2, if streamed == Raised then Crashed else ending, now);
    BodySettles(w, receipt, drafts, ending, now);
  }

  lemma ConsumeOnce(w: World, jobs: seq<Job>)
    requires jobs != [] && w.queue.waiting != []
    ensures var (w', outcome) := AfterJob(w, jobs[0]);
            AfterConsume(w, jobs) == if outcome == Raised then (w', Died) else AfterConsume(w', jobs[1..])
  {
  }

  /** The commands in the order in which they are handed out. */
  function Order(w: World): seq<Queued> {
    Queue.Drained(w.queue.waiting)
  }

  /** The `k`-th command is the first for its run, the run is pending, and the stream it meets fails. */
  predicate FailsAt(w: World, jobs: seq<Job>, k: nat) {
    && k < |jobs| && k < |Order(w)|
    && IsPending(w, RunOf(Order(w)[k]))
    && (forall j | 0 <= j < k :: RunOf(Order(w)[j]) != RunOf(Order(w)[k]))
    && Fails(jobs[k].drafts, jobs[k].ending)
  }

  /** The first command has been served and its run settled, if it was pending; nothing else changed. */
  ghost predicate OneServed(w: World, next: World) {
    && w.queue.waiting != []
    && var x := Queue.Least(w.queue.waiting);
       && Order(w) == [x] + Order(next) && |next.queue.waiting| == |w.queue.waiting| - 1
       && next.queue.leases == w.queue.leases && next.queue.closed == w.queue.closed
       && RunOf(x) in next.runs && next.runs == w.runs[RunOf(x) := next.runs[RunOf(x)]] && RunOf(x) in w.runs
       && (if IsPending(w, RunOf(x)) then IsSettled(next.runs[RunOf(x)].status) else next.runs == w.runs)
  }

  lemma JobServesOne(w: World, job: Job)
    requires Resting(w) && w.queue.waiting != [] && job.lease !in w.queue.leases
    ensures OneServed(w, AfterJob(w, job).0) && Resting(AfterJob(w, job).0)
  {
    JobServes(w, job);
    WithoutMembers(w.queue.waiting, Queue.Least(w.queue.waiting));
  }

  /** Serving the first command shifts the others. */
  lemma FailsShift(w: World, next: World, jobs: seq<Job>, k: nat)
    requires OneServed(w, next) && jobs != []
    ensures FailsAt(w, jobs, k + 1) <==> FailsAt(next, jobs[1..], k)
  {
    var x := Queue.Least(w.queue.waiting);
    if k < |Order(next)| {
      var y := Order(next)[k];
      assert Order(w)[k + 1] == y && Order(w)[0] == x;
      assert RunOf(y) != RunOf(x) ==> (IsPending(next, RunOf(y)) <==> IsPending(w, RunOf(y)));
      assert RunOf(y) == RunOf(x) ==> !IsPending(next, RunOf(y));
      if FailsAt(w, jobs, k + 1) {
        forall j | 0 <= j < k ensures RunOf(Order(next)[j]) != RunOf(y) {
          assert Order(next)[j] == Order(w)[j + 1];
        }
      }
      if FailsAt(next, jobs[1..], k) {
        forall j | 0 <= j < k + 1 ensures RunOf(Order(w)[j]) != RunOf(y) {
          assert j > 0 ==> Order(w)[j] == Order(next)[j - 1];
        }
      }
    }
  }

  /** What serving the first `n` commands leaves: the others in their order; a run that was served is no
      longer pending, and one that was not is untouched. */
  ghost predicate Served(w: World, w': World, n: nat) {
    && n <= |Order(w)| && Order(w') == Order(w)[n..]
    && w'.queue.leases == w.queue.leases && w'.queue.closed == w.queue.closed
    && w'.runs.Keys == w.runs.Keys
    && (forall i | 0 <= i < n :: !IsPending(w', RunOf(Order(w)[i])))
    && (forall id | id in w.runs && w'.runs[id] != w.runs[id] ::
          w.runs[id].status == Pending && IsSettled(w'.runs[id].status)
          && exists i :: 0 <= i < n && RunOf(Order(w)[i]) == id)
  }

  lemma ServedNothing(w: World)
    ensures Served(w, w, 0)
  {
  }

  lemma ServedOneMore(w: World, next: World, w': World, n: nat)
    requires OneServed(w, next) && Served(next, w', n)
    ensures Served(w, w', n + 1)
  {
    var x := Queue.Least(w.queue.waiting);
    assert Order(w)[n + 1..] == Order(next)[n..];
    assert !IsPending(next, RunOf(x)) && !IsPending(w', RunOf(x));
    forall i | 0 <= i < n + 1 ensures !IsPending(w', RunOf(Order(w)[i])) {
      assert i > 0 ==> Order(w)[i] == Order(next)[i - 1];
    }
    forall id | id in w.runs && w'.runs[id] != w.runs[id]
      ensures w.runs[id].status == Pending && IsSettled(w'.runs[id].status)
      ensures exists i :: 0 <= i < n + 1 && RunOf(Order(w)[i]) == id
    {
      RunServed(w, next, w', n, id);
    }
  }

  lemma RunServed(w: World, next: World, w': World, n: nat, id: string)
    requires OneServed(w, next) && Served(next, w', n) && id in w.runs && w'.runs[id] != w.runs[id]
    ensures w.runs[id].status == Pending && IsSettled(w'.runs[id].status)
    ensures exists i :: 0 <= i < n + 1 && RunOf(Order(w)[i]) == id
  {
    if id == RunOf(Queue.Least(w.queue.waiting)) {
      assert RunOf(Order(w)[0]) == id;
    } else {
      var i :| 0 <= i < n && RunOf(Order(next)[i]) == id;
      assert RunOf(Order(w)[i + 1]) == id;
    }
  }

  /** The number of commands a loop serves. */
  function Count(w: World, jobs: seq<Job>): int {
    |w.queue.waiting| - |AfterConsume(w, jobs).0.queue.waiting|
  }

  lemma {:induction false} CountShift(w: World, jobs: seq<Job>)
    requires Resting(w) && FreshLeases(w, jobs) && jobs != [] && w.queue.waiting != []
    ensures var (next, outcome) := AfterJob(w, jobs[0]);
            && AfterConsume(w, jobs) == (if outcome == Raised then (next, Died) else AfterConsume(next, jobs[1..]))
            && Count(w, jobs) == 1 + (if outcome == Raised then 0 else Count(next, jobs[1..]))
            && OneServed(w, next) && Resting(next) && FreshLeases(next, jobs[1..])
  {
    JobServesOne(w, jobs[0]);
    ConsumeOnce(w, jobs);
  }

  /** However the adapters behave, no lease and no adapter is left behind, and every run the worker
      touched was pending and is settled. */
  lemma {:induction false} WorkerServesAll(w: World, jobs: seq<Job>)
    requires Resting(w) && FreshLeases(w, jobs)
    ensures Resting(AfterConsume(w, jobs).0)
    ensures var n := Count(w, jobs); 0 <= n <= |jobs| && Served(w, AfterConsume(w, jobs).0, n)
    decreases |jobs|
  {
    if jobs != [] && w.queue.waiting != [] {
      CountShift(w, jobs);
      var (next, outcome) := AfterJob(w, jobs[0]);
      if outcome == Returned {
        WorkerServesAll(next, jobs[1..]);
        ServedOneMore(w, next, AfterConsume(w, jobs).0, Count(next, jobs[1..]));
      } else {
        ServedNothing(next);
        ServedOneMore(w, next, next, 0);
      }
    } else {
      ServedNothing(w);
    }
  }

  /** What the jobs say of a loop that has served `n` commands. */
  ghost predicate Foretold(w: World, jobs: seq<Job>, loop: Loop, n: int) {
    && (loop == Died <==> exists k: nat :: FailsAt(w, jobs, k))
    && (loop == Died ==> n >= 1 && FailsAt(w, jobs, n - 1) && forall k: nat | FailsAt(w, jobs, k) :: k >= n - 1)
    && (loop != Died ==> n == if |jobs| < |w.queue.waiting| then |jobs| else |w.queue.waiting|)
    && (loop == Stopped <==> loop != Died && |jobs| > |w.queue.waiting| && w.queue.closed)
  }

  lemma ForetoldIdle(w: World, jobs: seq<Job>)
    requires jobs == [] || w.queue.waiting == []
    ensures Foretold(w, jobs, AfterConsume(w, jobs).1, 0)
  {
    Queue.DrainedLength(w.queue.waiting);
  }

  lemma ForetoldAtOnce(w: World, jobs: seq<Job>)
    requires FailsAt(w, jobs, 0)
    ensures Foretold(w, jobs, Died, 1)
  {
  }

  lemma ForetoldLater(w: World, next: World, jobs: seq<Job>, loop: Loop, n: int)
    requires jobs != [] && !FailsAt(w, jobs, 0)
    requires forall k: nat :: FailsAt(w, jobs, k + 1) <==> FailsAt(next, jobs[1..], k)
    requires OneServed(w, next)
    requires Foretold(next, jobs[1..], loop, n)
    ensures Foretold(w, jobs, loop, n + 1)
  {
    forall k: nat | FailsAt(w, jobs, k) ensures k >= 1 && FailsAt(next, jobs[1..], k - 1) {
      assert FailsAt(w, jobs, (k - 1) + 1) <==> FailsAt(next, jobs[1..], k - 1);
    }
    if k: nat :| FailsAt(next, jobs[1..], k) {
      assert FailsAt(w, jobs, k + 1);
    }
    if loop == Died {
      assert FailsAt(w, jobs, (n - 1) + 1);
    }
  }

  lemma FirstFails(w: World, jobs: seq<Job>)
    requires Resting(w) && w.queue.waiting != [] && jobs != [] && jobs[0].lease !in w.queue.leases
    ensures AfterJob(w, jobs[0]).1 == Raised <==> FailsAt(w, jobs, 0)
  {
    JobServes(w, jobs[0]);
  }

  /** The loop dies exactly when some command, taken in the order of the queue, is the first for a
      pending run and meets a stream that fails. It has then served the commands up to that one, and
      those behind it go on waiting; a loop that does not die serves what it is given, and stops exactly
      when it runs out of commands on a closed queue. */
  lemma {:induction false} WorkerDiesIff(w: World, jobs: seq<Job>)
    requires Resting(w) && FreshLeases(w, jobs)
    ensures Foretold(w, jobs, AfterConsume(w, jobs).1, Count(w, jobs))
    decreases |jobs|
  {
    if jobs == [] || w.queue.waiting == [] {
      ForetoldIdle(w, jobs);
    } else {
      CountShift(w, jobs);
      FirstFails(w, jobs);
      var (next, outcome) := AfterJob(w, jobs[0]);
      if outcome == Raised {
        ForetoldAtOnce(w, jobs);
      } else {
        WorkerDiesIff(next, jobs[1..]);
        forall k: nat ensures FailsAt(w, jobs, k + 1) <==> FailsAt(next, jobs[1..], k) {
          FailsShift(w, next, jobs, k);
        }
        ForetoldLater(w, next, jobs, AfterConsume(w, jobs).1, Count(next, jobs[1..]));
      }
    }
  }
}
