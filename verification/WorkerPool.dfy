/**
 * The worker pool of internal/performance/worker.go: submitters, the dispatcher's goroutine and the
 * workers' goroutines as interleaved steps over the bounded task queue and the workers' one-place
 * channels, before Stop. A step that is not enabled leaves the state alone.
 */
module WorkerPool {
  import opened Sequences

  datatype Task =
    | Nil // a nil interface value: accepted, then ignored by the dispatcher
    | Task(id: string, priority: int)

  datatype Outcome = Succeeded | Failed | Panicked // a panic is recovered and reported as success

  datatype Dispatcher =
    | AtSelect
    | Holding(task: Task, next: nat) // looking for a worker, about to try worker `next`
    | PuttingBack(task: Task)        // no worker took the task

  datatype Worker = Worker(channel: Option<Task>, active: bool, phase: Phase)

  datatype Phase =
    | Resting
    | Taken(task: Task)                      // received, the active flag not yet set
    | Executing(task: Task)
    | Executed(task: Task, outcome: Outcome) // Execute returned, not yet recorded
    | Recorded                               // recorded, the active flag not yet reset

  datatype State = State(
    queue: seq<Task>,
    capacity: nat,
    dispatcher: Dispatcher,
    workers: seq<Worker>,
    processed: nat,            // stats.Processed
    failed: nat,               // stats.Failed
    accepted: multiset<Task>,  // history: tasks for which Submit returned nil
    started: multiset<Task>,   // history: calls of Execute
    finished: multiset<Task>,  // history: recorded completions
    failures: nat,             // history: recorded completions with an error
    dropped: multiset<Task>,   // history: put-backs that timed out
    ignored: multiset<Task>)   // history: nil tasks met by the dispatcher

  datatype Step =
    | Submit(task: Task)
    | Receive                 // the dispatcher takes the oldest queued task
    | TryWorker
    | PutBack
    | GiveUp                  // the one-second timer of the put-back
    | Take(w: nat)
    | Activate(w: nat)
    | Finish(w: nat, outcome: Outcome)
    | Record(w: nat)
    | Deactivate(w: nat)

  function Init(maxWorkers: nat): State {
    State([], maxWorkers * 10, AtSelect, seq(maxWorkers, _ => Worker(None, false, Resting)), 0, 0,
          multiset{}, multiset{}, multiset{}, 0, multiset{}, multiset{})
  }

  /** An unbuffered queue, that is a pool without workers, passes a task on only to a waiting dispatcher. */
  function Submitted(s: State, task: Task): State {
    if |s.queue| < s.capacity then s.(queue := s.queue + [task], accepted := s.accepted + multiset{task})
    else if s.capacity == 0 && s.dispatcher.AtSelect? then Dispatch(s.(accepted := s.accepted + multiset{task}), task)
    else s
  }

  function Dispatch(s: State, task: Task): State {
    if task.Nil? then s.(ignored := s.ignored + multiset{task}) else s.(dispatcher := Holding(task, 0))
  }

  function SetWorker(s: State, w: nat, worker: Worker): State
    requires w < |s.workers|
  {
    s.(workers := s.workers[w := worker])
  }

  function TriedWorker(s: State): State
    requires s.dispatcher.Holding?
  {
    var task, w := s.dispatcher.task, s.dispatcher.next;
    if w >= |s.workers| then s.(dispatcher := PuttingBack(task))
    else if !s.workers[w].active && s.workers[w].channel.None? then
      SetWorker(s, w, s.workers[w].(channel := Some(task))).(dispatcher := AtSelect)
    else s.(dispatcher := Holding(task, w + 1))
  }

  function DispatcherStep(s: State, step: Step): State {
    match step
    case Receive =>
      if s.dispatcher.AtSelect? && s.queue != [] then Dispatch(s.(queue := s.queue[1..]), s.queue[0]) else s
    case TryWorker => if s.dispatcher.Holding? then TriedWorker(s) else s
    case PutBack =>
      if s.dispatcher.PuttingBack? && |s.queue| < s.capacity then
        s.(queue := s.queue + [s.dispatcher.task], dispatcher := AtSelect)
      else s
    case GiveUp =>
      if s.dispatcher.PuttingBack? then
        s.(dropped := s.dropped + multiset{s.dispatcher.task}, dispatcher := AtSelect)
      else s
    case _ => s
  }

  function WorkerStep(s: State, w: nat, step: Step): State
    requires w < |s.workers|
  {
    var worker := s.workers[w];
    match step
    case Take(_) =>
      if worker.phase.Resting? && worker.channel.Some? then
        var phase := if worker.channel.value.Nil? then Resting else Taken(worker.channel.value);
        SetWorker(s, w, worker.(channel := None, phase := phase))
      else s
    case Activate(_) =>
      if worker.phase.Taken? then
        SetWorker(s, w, worker.(active := true, phase := Executing(worker.phase.task)))
          .(started := s.started + multiset{worker.phase.task})
      else s
    case Finish(_, outcome) =>
      if worker.phase.Executing? then SetWorker(s, w, worker.(phase := Executed(worker.phase.task, outcome))) else s
    case Record(_) =>
      if worker.phase.Executed? then
        var bad := if worker.phase.outcome.Failed? then 1 else 0;
        SetWorker(s, w, worker.(phase := Recorded))
          .(processed := s.processed + 1, failed := s.failed + bad,
            finished := s.finished + multiset{worker.phase.task}, failures := s.failures + bad)
      else s
    case Deactivate(_) =>
      if worker.phase.Recorded? then SetWorker(s, w, worker.(active := false, phase := Resting)) else s
    case _ => s
  }

  function Next(s: State, step: Step): State {
    match step
    case Submit(task) => Submitted(s, task)
    case Take(w) => if w < |s.workers| then WorkerStep(s, w, step) else s
    case Activate(w) => if w < |s.workers| then WorkerStep(s, w, step) else s
    case Finish(w, _) => if w < |s.workers| then WorkerStep(s, w, step) else s
    case Record(w) => if w < |s.workers| then WorkerStep(s, w, step) else s
    case Deactivate(w) => if w < |s.workers| then WorkerStep(s, w, step) else s
    case _ => DispatcherStep(s, step)
  }

  function Run(maxWorkers: nat, steps: seq<Step>): State {
    if steps == [] then Init(maxWorkers) else Next(Run(maxWorkers, DropLast(steps)), Last(steps))
  }

  // ------------------------------------------------------------------ conservation

  function One(condition: bool): nat {
    if condition then 1 else 0
  }

  function Waiting(x: Task): Worker -> nat {
    (w: Worker) => One(w.channel == Some(x))
  }

  /** Execute has been called and its end is not yet recorded. */
  function Running(x: Task): Worker -> nat {
    (w: Worker) => One((w.phase.Executing? || w.phase.Executed?) && w.phase.task == x)
  }

  function JustTaken(x: Task): Worker -> nat {
    (w: Worker) => One(w.phase == Taken(x))
  }

  function Sum(workers: seq<Worker>, f: Worker -> nat): nat {
    if workers == [] then 0 else f(workers[0]) + Sum(workers[1..], f)
  }

  function InHand(d: Dispatcher, x: Task): nat {
    One((d.Holding? || d.PuttingBack?) && d.task == x)
  }

  /** In how many places of the pool the task is. */
  function Located(s: State, x: Task): nat {
    multiset(s.queue)[x] + InHand(s.dispatcher, x)
      + Sum(s.workers, Waiting(x)) + Sum(s.workers, JustTaken(x)) + Sum(s.workers, Running(x))
      + s.finished[x] + s.dropped[x] + s.ignored[x]
  }

  ghost predicate Conserved(s: State, x: Task) {
    && s.accepted[x] == Located(s, x)
    && s.started[x] == Sum(s.workers, Running(x)) + s.finished[x]
  }

  ghost predicate WorkerOk(w: Worker) {
    && w.channel != Some(Nil)
    && (w.active <==> w.phase.Executing? || w.phase.Executed? || w.phase.Recorded?)
  }

  ghost predicate Inv(s: State) {
    && |s.queue| <= s.capacity
    && s.processed == |s.finished| && s.failed == s.failures <= s.processed
    && (forall t :: t in s.ignored ==> t.Nil?)
    && (forall w :: 0 <= w < |s.workers| ==> WorkerOk(s.workers[w]))
    && (s.dispatcher.Holding? || s.dispatcher.PuttingBack? ==> !s.dispatcher.task.Nil?)
  }

  /** Changing one worker changes a sum by that worker's share. */
  lemma {:induction false} SumUpdate(workers: seq<Worker>, w: nat, worker: Worker, f: Worker -> nat)
    requires w < |workers|
    ensures Sum(workers[w := worker], f) + f(workers[w]) == Sum(workers, f) + f(worker)
  {
    if w == 0 {
      assert workers[0 := worker][1..] == workers[1..];
    } else {
      assert workers[w := worker][1..] == workers[1..][w - 1 := worker];
      SumUpdate(workers[1..], w - 1, worker, f);
    }
  }

  lemma {:induction false} SumsUpdate(workers: seq<Worker>, w: nat, worker: Worker, x: Task)
    requires w < |workers|
    ensures Sum(workers[w := worker], Waiting(x)) + Waiting(x)(workers[w])
        == Sum(workers, Waiting(x)) + Waiting(x)(worker)
    ensures Sum(workers[w := worker], JustTaken(x)) + JustTaken(x)(workers[w])
        == Sum(workers, JustTaken(x)) + JustTaken(x)(worker)
    ensures Sum(workers[w := worker], Running(x)) + Running(x)(workers[w])
        == Sum(workers, Running(x)) + Running(x)(worker)
  {
    SumUpdate(workers, w, worker, Waiting(x));
    SumUpdate(workers, w, worker, JustTaken(x));
    SumUpdate(workers, w, worker, Running(x));
  }

  /** One worker's share of `x`: waiting, taken or running. */
  function Share(w: Worker, x: Task): nat {
    Waiting(x)(w) + JustTaken(x)(w) + Running(x)(w)
  }

  /** What a worker's step moves out of its share is counted as finished, and what starts running as started. */
  lemma ShareMoves(s: State, w: nat, step: Step, x: Task)
    requires w < |s.workers| && WorkerOk(s.workers[w])
    ensures var t := WorkerStep(s, w, step);
            && |t.workers| == |s.workers| && t.workers == s.workers[w := t.workers[w]]
            && Share(t.workers[w], x) + t.finished[x] == Share(s.workers[w], x) + s.finished[x]
            && Running(x)(t.workers[w]) + t.finished[x] + s.started[x]
                == Running(x)(s.workers[w]) + s.finished[x] + t.started[x]
  {
  }

  lemma WorkerLeavesOthers(s: State, w: nat, step: Step)
    requires w < |s.workers|
    ensures var t := WorkerStep(s, w, step);
            && t.queue == s.queue && t.dispatcher == s.dispatcher && t.accepted == s.accepted
            && t.dropped == s.dropped && t.ignored == s.ignored
  {
  }

  lemma {:induction false} WorkerConserves(s: State, w: nat, step: Step, x: Task)
    requires Inv(s) && Conserved(s, x) && w < |s.workers|
    ensures Conserved(WorkerStep(s, w, step), x)
  {
    assert WorkerOk(s.workers[w]);
    ShareMoves(s, w, step, x);
    WorkerLeavesOthers(s, w, step);
    SumsUpdate(s.workers, w, WorkerStep(s, w, step).workers[w], x);
  }

  /** The dispatcher's hand and the worker's channel exchange the task. */
  lemma TryMoves(s: State, x: Task)
    requires s.dispatcher.Holding? && s.dispatcher.next < |s.workers|
    ensures var t, w := TriedWorker(s), s.dispatcher.next;
            && |t.workers| == |s.workers| && t.workers == s.workers[w := t.workers[w]]
            && Share(t.workers[w], x) + InHand(t.dispatcher, x) == Share(s.workers[w], x) + InHand(s.dispatcher, x)
            && Running(x)(t.workers[w]) == Running(x)(s.workers[w])
            && t == s.(workers := t.workers, dispatcher := t.dispatcher)
  {
  }

  lemma {:induction false} TryWorkerConserves(s: State, x: Task)
    requires Conserved(s, x) && s.dispatcher.Holding?
    ensures Conserved(TriedWorker(s), x)
  {
    var w := s.dispatcher.next;
    if w < |s.workers| {
      TryMoves(s, x);
      SumsUpdate(s.workers, w, TriedWorker(s).workers[w], x);
    }
  }

  lemma {:induction false} ReceiveConserves(s: State, x: Task)
    requires Conserved(s, x)
    ensures Conserved(DispatcherStep(s, Receive), x)
  {
    if s.queue != [] {
      assert multiset(s.queue) == multiset{s.queue[0]} + multiset(s.queue[1..]) by {
        assert s.queue == [s.queue[0]] + s.queue[1..];
      }
    }
  }

  lemma {:induction false} DispatcherConserves(s: State, step: Step, x: Task)
    requires Conserved(s, x)
    ensures Conserved(DispatcherStep(s, step), x)
  {
    match step
    case Receive => ReceiveConserves(s, x);
    case TryWorker => if s.dispatcher.Holding? { TryWorkerConserves(s, x); }
    case _ =>
  }

  lemma SubmitConserves(s: State, task: Task, x: Task)
    requires Conserved(s, x)
    ensures Conserved(Submitted(s, task), x)
  {
  }

  predicate OfWorker(step: Step) {
    step.Take? || step.Activate? || step.Finish? || step.Record? || step.Deactivate?
  }

  lemma {:induction false} NextConserves(s: State, step: Step, x: Task)
    requires Inv(s) && Conserved(s, x)
    ensures Conserved(Next(s, step), x)
  {
    if step.Submit? {
      SubmitConserves(s, step.task, x);
    } else if OfWorker(step) {
      if step.w < |s.workers| {
        WorkerConserves(s, step.w, step, x);
      }
    } else {
      DispatcherConserves(s, step, x);
    }
  }

  lemma {:induction false} WorkerKeepsInv(s: State, w: nat, step: Step)
    requires Inv(s) && w < |s.workers|
    ensures Inv(WorkerStep(s, w, step))
  {
    assert WorkerOk(s.workers[w]);
  }

  lemma SubmitKeepsInv(s: State, task: Task)
    requires Inv(s)
    ensures Inv(Submitted(s, task))
  {
  }

  lemma DispatcherKeepsInv(s: State, step: Step)
    requires Inv(s)
    ensures Inv(DispatcherStep(s, step))
  {
  }

  lemma {:induction false} NextKeepsInv(s: State, step: Step)
    requires Inv(s)
    ensures Inv(Next(s, step))
  {
    if step.Submit? {
      SubmitKeepsInv(s, step.task);
    } else if OfWorker(step) {
      if step.w < |s.workers| {
        WorkerKeepsInv(s, step.w, step);
      }
    } else {
      DispatcherKeepsInv(s, step);
    }
  }

  lemma {:induction false} InitConserves(maxWorkers: nat, x: Task)
    ensures Conserved(Init(maxWorkers), x) && Inv(Init(maxWorkers))
  {
    IdleSums(Init(maxWorkers).workers, x);
  }

  lemma {:induction false} IdleSums(workers: seq<Worker>, x: Task)
    requires forall i :: 0 <= i < |workers| ==> workers[i] == Worker(None, false, Resting)
    ensures Sum(workers, Waiting(x)) == Sum(workers, JustTaken(x)) == Sum(workers, Running(x)) == 0
  {
    if workers != [] {
      IdleSums(workers[1..], x);
    }
  }

  /**
   * Conservation over every run: each accepted task is, as often as it was accepted, in the queue, in the
   * dispatcher's hand, in a worker's channel, at a worker, finished, dropped by a put-back timeout, or an
   * ignored nil; and Execute was called once for each task running or finished.
   */
  lemma {:induction false} Conservation(maxWorkers: nat, steps: seq<Step>, x: Task)
    ensures Inv(Run(maxWorkers, steps)) && Conserved(Run(maxWorkers, steps), x)
  {
    if steps == [] {
      InitConserves(maxWorkers, x);
    } else {
      Conservation(maxWorkers, DropLast(steps), x);
      NextConserves(Run(maxWorkers, DropLast(steps)), Last(steps), x);
      NextKeepsInv(Run(maxWorkers, DropLast(steps)), Last(steps));
    }
  }

  /** No task executes more often than it was accepted, and the statistics count finished executions. */
  lemma {:induction false} NoDoubleExecution(maxWorkers: nat, steps: seq<Step>)
    ensures var s := Run(maxWorkers, steps);
            && s.finished <= s.started <= s.accepted
            && s.processed == |s.finished| && s.failed == s.failures <= s.processed
  {
    var s := Run(maxWorkers, steps);
    forall x
      ensures s.finished[x] <= s.started[x] <= s.accepted[x]
    {
      Conservation(maxWorkers, steps, x);
    }
    Conservation(maxWorkers, steps, Nil);
  }

  // ------------------------------------------------------------------ what the statistics count

  /** The worker's current or last execution ended, and with this outcome. */
  function LastOutcome(maxWorkers: nat, steps: seq<Step>, w: nat): Option<Outcome> {
    if steps == [] then None
    else
      if Finishes(Run(maxWorkers, DropLast(steps)), Last(steps), w) then Some(Last(steps).outcome)
      else LastOutcome(maxWorkers, DropLast(steps), w)
  }

  /** How many executions that ended with this outcome have been recorded. */
  function RecordedWith(maxWorkers: nat, steps: seq<Step>, outcome: Outcome): nat {
    if steps == [] then 0
    else
      var prefix, step := DropLast(steps), Last(steps);
      RecordedWith(maxWorkers, prefix, outcome)
        + One(Records(Run(maxWorkers, prefix), step) && LastOutcome(maxWorkers, prefix, step.w) == Some(outcome))
  }

  predicate Finishes(s: State, step: Step, w: nat) {
    step.Finish? && step.w == w && w < |s.workers| && s.workers[w].phase.Executing?
  }

  lemma WorkerFinishes(s: State, v: nat, step: Step, w: nat)
    requires v < |s.workers| && w < |s.workers|
    ensures |WorkerStep(s, v, step).workers| == |s.workers|
    ensures v != w ==> WorkerStep(s, v, step).workers[w] == s.workers[w]
    ensures var phase := WorkerStep(s, v, step).workers[w].phase;
            phase.Executed? ==>
              phase == s.workers[w].phase
              || (v == w && step.Finish? && s.workers[w].phase.Executing? && phase.outcome == step.outcome)
  {
  }

  lemma {:induction false} OnlyFinishEnds(s: State, step: Step, w: nat)
    requires w < |Next(s, step).workers|
    ensures |Next(s, step).workers| == |s.workers|
    ensures var phase := Next(s, step).workers[w].phase;
            phase.Executed? ==>
              if Finishes(s, step, w) then phase.outcome == step.outcome else s.workers[w].phase == phase
  {
    if OfWorker(step) && step.w < |s.workers| {
      WorkerFinishes(s, step.w, step, w);
    }
  }

  lemma {:induction false} ExecutedRemembers(maxWorkers: nat, steps: seq<Step>, w: nat)
    requires w < |Run(maxWorkers, steps).workers| && Run(maxWorkers, steps).workers[w].phase.Executed?
    ensures LastOutcome(maxWorkers, steps, w) == Some(Run(maxWorkers, steps).workers[w].phase.outcome)
  {
    if steps != [] {
      var s := Run(maxWorkers, DropLast(steps));
      OnlyFinishEnds(s, Last(steps), w);
      if !Finishes(s, Last(steps), w) {
        ExecutedRemembers(maxWorkers, DropLast(steps), w);
      }
    }
  }

  /** The end of an execution of worker `step.w` is recorded. */
  predicate Records(s: State, step: Step) {
    step.Record? && step.w < |s.workers| && s.workers[step.w].phase.Executed?
  }

  lemma RecordCounts(s: State, step: Step)
    ensures Next(s, step).failed == s.failed + One(Records(s, step) && s.workers[step.w].phase.outcome.Failed?)
    ensures Next(s, step).processed == s.processed + One(Records(s, step))
  {
  }

  lemma {:induction false} RecordedStep(maxWorkers: nat, steps: seq<Step>, outcome: Outcome)
    requires steps != []
    ensures var s, step := Run(maxWorkers, DropLast(steps)), Last(steps);
            RecordedWith(maxWorkers, steps, outcome) == RecordedWith(maxWorkers, DropLast(steps), outcome)
              + One(Records(s, step) && s.workers[step.w].phase.outcome == outcome)
  {
    var s, step := Run(maxWorkers, DropLast(steps)), Last(steps);
    if Records(s, step) {
      ExecutedRemembers(maxWorkers, DropLast(steps), step.w);
    }
  }

  /**
   * In every run `failed` counts exactly the recorded executions that returned an error, and `processed` all
   * recorded ones. A panic counts as processed and not as failed.
   */
  lemma {:induction false} StatisticsCountOutcomes(maxWorkers: nat, steps: seq<Step>)
    ensures var s := Run(maxWorkers, steps);
            && s.failed == RecordedWith(maxWorkers, steps, Failed)
            && s.processed == RecordedWith(maxWorkers, steps, Succeeded) + RecordedWith(maxWorkers, steps, Failed)
                              + RecordedWith(maxWorkers, steps, Panicked)
  {
    if steps != [] {
      StatisticsCountOutcomes(maxWorkers, DropLast(steps));
      RecordCounts(Run(maxWorkers, DropLast(steps)), Last(steps));
      RecordedStep(maxWorkers, steps, Succeeded);
      RecordedStep(maxWorkers, steps, Failed);
      RecordedStep(maxWorkers, steps, Panicked);
    }
  }

  /** Nothing is queued, in hand or at a worker. */
  predicate Quiet(s: State) {
    && s.queue == [] && s.dispatcher.AtSelect?
    && forall w :: 0 <= w < |s.workers| ==> s.workers[w] == Worker(None, false, Resting)
  }

  /** Without put-back timeouts a quiet pool has executed everything but nil tasks. */
  lemma {:induction false} QuietMeansDone(maxWorkers: nat, steps: seq<Step>, x: Task)
    ensures var s := Run(maxWorkers, steps);
            Quiet(s) && !x.Nil? ==> s.accepted[x] == s.finished[x] + s.dropped[x]
  {
    var s := Run(maxWorkers, steps);
    Conservation(maxWorkers, steps, x);
    if Quiet(s) {
      IdleSums(s.workers, x);
    }
  }

  // ------------------------------------------------------------------ the dispatcher's scan

  predicate Free(w: Worker) {
    !w.active && w.channel.None?
  }

  function Assign(workers: seq<Worker>, w: nat, task: Task): seq<Worker>
    requires w < |workers|
  {
    workers[w := workers[w].(channel := Some(task))]
  }

  /** Among workers `from..`, the first free one takes the task; if there is none nothing changes. */
  ghost predicate GivenToFirstFree(before: seq<Worker>, after: seq<Worker>, from: nat, task: Task, found: bool) {
    if found then
      exists w :: from <= w < |before| && Free(before[w]) && (forall v :: from <= v < w ==> !Free(before[v]))
        && after == Assign(before, w, task)
    else
      after == before && forall v :: from <= v < |before| ==> !Free(before[v])
  }

  function Scan(s: State): State
    decreases if s.dispatcher.Holding? && s.dispatcher.next <= |s.workers| then |s.workers| - s.dispatcher.next + 1
        else 0
  {
    if s.dispatcher.Holding? && s.dispatcher.next <= |s.workers| then Scan(TriedWorker(s)) else s
  }

  lemma SkipNotFree(before: seq<Worker>, after: seq<Worker>, w: nat, task: Task, found: bool)
    requires w < |before| && !Free(before[w]) && GivenToFirstFree(before, after, w + 1, task, found)
    ensures GivenToFirstFree(before, after, w, task, found)
  {
    if found {
      var u :| w + 1 <= u < |before| && Free(before[u]) && (forall v :: w + 1 <= v < u ==> !Free(before[v]))
               && after == Assign(before, u, task);
      assert forall v :: w <= v < u ==> !Free(before[v]);
    }
  }

  /** Left undisturbed, the dispatcher's sub-steps are the loop of `Find` below. */
  lemma {:induction false} UninterruptedScan(s: State)
    requires s.dispatcher.Holding? && s.dispatcher.next <= |s.workers|
    ensures var r := Scan(s);
            && (r.dispatcher == AtSelect || r.dispatcher == PuttingBack(s.dispatcher.task))
            && GivenToFirstFree(s.workers, r.workers, s.dispatcher.next, s.dispatcher.task, r.dispatcher.AtSelect?)
            && r.queue == s.queue
    decreases |s.workers| - s.dispatcher.next
  {
    var w, task := s.dispatcher.next, s.dispatcher.task;
    var t := TriedWorker(s);
    if t.dispatcher.Holding? {
      assert !Free(s.workers[w]) && t.workers == s.workers;
      UninterruptedScan(t);
      SkipNotFree(s.workers, Scan(t).workers, w, task, Scan(t).dispatcher.AtSelect?);
    } else {
      assert Scan(t) == t;
      if w < |s.workers| {
        assert Free(s.workers[w]) && t.workers == Assign(s.workers, w, task);
      }
    }
  }

  lemma {:induction false} ScanKeepsRest(s: State)
    ensures Scan(s) == s.(workers := Scan(s).workers, dispatcher := Scan(s).dispatcher)
    decreases if s.dispatcher.Holding? && s.dispatcher.next <= |s.workers| then |s.workers| - s.dispatcher.next + 1
        else 0
  {
    if s.dispatcher.Holding? && s.dispatcher.next <= |s.workers| {
      ScanKeepsRest(TriedWorker(s));
    }
  }

  /**
   * Left undisturbed, an iteration of the dispatcher is the method `DispatchOne` below: the oldest task goes to the
   * first free worker, and back to the end of the queue if there is none; a nil one is dropped.
   */
  lemma {:induction false} UninterruptedDispatch(s: State)
    requires s.dispatcher.AtSelect? && 0 < |s.queue| <= s.capacity
    ensures var task, scanned := s.queue[0], Scan(Next(s, Receive));
            if task == Nil then
              scanned == s.(queue := s.queue[1..], ignored := s.ignored + multiset{Nil})
            else
              var found := scanned.dispatcher.AtSelect?;
              var t := if found then scanned else Next(scanned, PutBack);
              && GivenToFirstFree(s.workers, t.workers, 0, task, found)
              && t.dispatcher == AtSelect && t.queue == s.queue[1..] + (if found then [] else [task])
              && t == s.(queue := t.queue, workers := t.workers)
  {
    var received := Next(s, Receive);
    if s.queue[0] != Nil {
      UninterruptedScan(received);
      ScanKeepsRest(received);
    }
  }

  /** When the put-back times out the task is dropped; the dispatcher gives up at no other point. */
  lemma {:induction false} GiveUpMeans(s: State)
    ensures Next(s, GiveUp) ==
              if s.dispatcher.PuttingBack? then
                s.(dropped := s.dropped + multiset{s.dispatcher.task}, dispatcher := AtSelect)
              else s
    ensures Next(s, PutBack) ==
              if s.dispatcher.PuttingBack? && |s.queue| < s.capacity then
                s.(queue := s.queue + [s.dispatcher.task], dispatcher := AtSelect)
              else s
  {
  }

  /** Submit succeeds exactly if there is room or, in a pool without a queue, the dispatcher is waiting. */
  lemma {:induction false} SubmitMeans(s: State, task: Task)
    ensures var t, direct := Next(s, Submit(task)), s.capacity == 0 && s.dispatcher == AtSelect;
            && t.accepted == s.accepted + (if |s.queue| < s.capacity || direct then multiset{task} else multiset{})
            && t.queue == s.queue + (if |s.queue| < s.capacity then [task] else [])
            && t.dispatcher ==
                 (if |s.queue| >= s.capacity && direct && task != Nil then Holding(task, 0) else s.dispatcher)
            && t.workers == s.workers && t.started == s.started && t.finished == s.finished && t.dropped == s.dropped
  {
  }

  /** In every run at most ten tasks for each worker are queued. */
  lemma {:induction false} QueueBounded(maxWorkers: nat, steps: seq<Step>)
    ensures Run(maxWorkers, steps).capacity == 10 * maxWorkers && |Run(maxWorkers, steps).queue| <= 10 * maxWorkers
  {
    Conservation(maxWorkers, steps, Nil);
    CapacityFixed(maxWorkers, steps);
  }

  lemma {:induction false} CapacityFixed(maxWorkers: nat, steps: seq<Step>)
    ensures Run(maxWorkers, steps).capacity == 10 * maxWorkers
  {
    if steps != [] {
      CapacityFixed(maxWorkers, DropLast(steps));
    }
  }

  /** A worker's whole turn on the task in its channel. */
  function Turn(s: State, w: nat, outcome: Outcome): State {
    Next(Next(Next(Next(Next(s, Take(w)), Activate(w)), Finish(w, outcome)), Record(w)), Deactivate(w))
  }

  /**
   * Left undisturbed, a worker executes the task in its channel once, records it, and is free again; an error
   * counts as failed, a panic does not. A nil task is thrown away.
   */
  lemma {:induction false} UninterruptedTurn(s: State, w: nat, outcome: Outcome)
    requires w < |s.workers| && s.workers[w].channel.Some? && s.workers[w].phase == Resting && !s.workers[w].active
    ensures var task := s.workers[w].channel.value;
            var free := s.workers[w := Worker(None, false, Resting)];
            if task == Nil then Turn(s, w, outcome) == s.(workers := free)
            else
              Turn(s, w, outcome) ==
                s.(workers := free, started := s.started + multiset{task}, finished := s.finished + multiset{task},
                   processed := s.processed + 1, failed := s.failed + One(outcome == Failed),
                   failures := s.failures + One(outcome == Failed))
  {
    var taken := Next(s, Take(w));
    if s.workers[w].channel.value == Nil {
      assert taken == s.(workers := s.workers[w := Worker(None, false, Resting)]);
    } else {
      TurnOfTask(s, w, s.workers[w].channel.value, outcome);
    }
  }

  lemma {:induction false} TurnOfTask(s: State, w: nat, task: Task, outcome: Outcome)
    requires w < |s.workers| && s.workers[w] == Worker(Some(task), false, Resting) && task != Nil
    ensures Turn(s, w, outcome) ==
              s.(workers := s.workers[w := Worker(None, false, Resting)], started := s.started + multiset{task},
                 finished := s.finished + multiset{task}, processed := s.processed + 1,
                 failed := s.failed + One(outcome == Failed), failures := s.failures + One(outcome == Failed))
  {
    var taken := Next(s, Take(w));
    assert taken == s.(workers := s.workers[w := Worker(None, false, Taken(task))]);
    var ended := Next(Next(taken, Activate(w)), Finish(w, outcome));
    assert ended == s.(workers := s.workers[w := Worker(None, true, Executed(task, outcome))],
                       started := s.started + multiset{task});
    var recorded := Next(ended, Record(w));
    assert recorded.workers == s.workers[w := Worker(None, true, Recorded)];
  }

  class Pool {
    const capacity: nat
    var taskQueue: seq<Task>
    var workers: seq<Worker>

    constructor (maxWorkers: nat)
      ensures capacity == Init(maxWorkers).capacity == maxWorkers * 10
      ensures taskQueue == [] && workers == Init(maxWorkers).workers
    {
      capacity := maxWorkers * 10;
      taskQueue := [];
      workers := seq(maxWorkers, _ => Worker(None, false, Resting));
    }

    /** The buffered send of Submit; false stands for its five-second timeout. */
    method Submit(task: Task) returns (ok: bool)
      modifies this
      ensures ok <==> |old(taskQueue)| < capacity
      ensures taskQueue == (if ok then old(taskQueue) + [task] else old(taskQueue)) && workers == old(workers)
    {
      ok := |taskQueue| < capacity;
      if ok {
        taskQueue := taskQueue + [task];
      }
    }

    /** One iteration of dispatch with a task in the queue; nobody interferes, so a put-back finds room. */
    method DispatchOne() returns (found: bool)
      requires 0 < |taskQueue| <= capacity
      modifies this
      ensures var task := old(taskQueue)[0];
              if task.Nil? then !found && workers == old(workers) && taskQueue == old(taskQueue)[1..]
              else GivenToFirstFree(old(workers), workers, 0, task, found)
                   && taskQueue == old(taskQueue)[1..] + (if found then [] else [task])
    {
      var task := taskQueue[0];
      taskQueue := taskQueue[1..];
      if task.Nil? {
        return false;
      }
      found := Find(task);
      if !found { // there is room: the task has just left the queue
        taskQueue := taskQueue + [task];
      }
    }

    method Find(task: Task) returns (found: bool)
      modifies this
      ensures GivenToFirstFree(old(workers), workers, 0, task, found) && taskQueue == old(taskQueue)
      ensures found ==>
                exists w :: 0 <= w < |old(workers)| && !old(workers)[w].active && old(workers)[w].channel == None
                         && (forall v :: 0 <= v < w ==> old(workers)[v].active || old(workers)[v].channel.Some?)
                         && workers == old(workers)[w := old(workers)[w].(channel := Some(task))]
      ensures !found ==>
                workers == old(workers)
                && forall v :: 0 <= v < |workers| ==> workers[v].active || workers[v].channel.Some?
    {
      for w := 0 to |workers|
        invariant workers == old(workers) && taskQueue == old(taskQueue)
        invariant forall v :: 0 <= v < w ==> !Free(workers[v])
      {
        if !workers[w].active {
          if workers[w].channel.None? {
            assert Free(workers[w]);
            workers := workers[w := workers[w].(channel := Some(task))];
            assert workers == Assign(old(workers), w, task);
            return true;
          }
        }
      }
      return false;
    }
  }

  // ------------------------------------------------------------------ the priority queue

  datatype PriorityTask = PriorityTask(task: Task, priority: int, arrival: nat) // arrival is history

  /** Higher priority first; among equals, the one pushed first. */
  predicate Before(a: PriorityTask, b: PriorityTask) {
    a.priority > b.priority || (a.priority == b.priority && a.arrival < b.arrival)
  }

  ghost predicate Ordered(tasks: seq<PriorityTask>) {
    forall i, j :: 0 <= i < j < |tasks| ==> Before(tasks[i], tasks[j])
  }

  lemma InsertMembers(tasks: seq<PriorityTask>, i: nat, e: PriorityTask)
    requires i <= |tasks|
    ensures multiset(tasks[..i] + [e] + tasks[i..]) == multiset(tasks) + multiset{e}
    ensures forall x :: x in tasks[..i] + [e] + tasks[i..] ==> x in tasks || x == e
  {
    assert multiset(tasks) == multiset(tasks[..i]) + multiset(tasks[i..]) by {
      assert tasks == tasks[..i] + tasks[i..];
    }
  }

  /** The place of a newly arrived task: behind everything of at least its priority. */
  lemma {:induction false} InsertKeepsOrder(tasks: seq<PriorityTask>, i: nat, e: PriorityTask)
    requires Ordered(tasks) && i <= |tasks|
    requires forall j :: 0 <= j < |tasks| ==> tasks[j].arrival < e.arrival
    requires forall j :: 0 <= j < i ==> tasks[j].priority >= e.priority
    requires i < |tasks| ==> e.priority > tasks[i].priority
    ensures Ordered(tasks[..i] + [e] + tasks[i..])
  {
    forall k | i < k < |tasks|
      ensures e.priority > tasks[k].priority
    {
      assert Before(tasks[i], tasks[k]);
    }
    var r := tasks[..i] + [e] + tasks[i..];
    forall a, b | 0 <= a < b < |r|
      ensures Before(r[a], r[b])
    {
      var x, y := if a < i then a else a - 1, if b < i then b else b - 1;
      assert a != i ==> r[a] == tasks[x];
      assert b != i ==> r[b] == tasks[y];
      if a != i && b != i {
        assert Before(tasks[x], tasks[y]);
      }
    }
  }

  class PriorityQueue {
    var tasks: seq<PriorityTask>
    var arrivals: nat // history: the number of pushes

    ghost predicate Valid()
      reads this
    {
      Ordered(tasks) && forall e :: e in tasks ==> e.arrival < arrivals
    }

    constructor ()
      ensures Valid() && tasks == []
    {
      tasks, arrivals := [], 0;
    }

    method Push(task: Task)
      requires Valid() && !task.Nil?
      modifies this
      ensures Valid() && arrivals == old(arrivals) + 1
      ensures multiset(tasks) == old(multiset(tasks)) + multiset{PriorityTask(task, task.priority, old(arrivals))}
    {
      var pt := PriorityTask(task, task.priority, arrivals);
      var i := FindPlace(pt);
      InsertKeepsOrder(tasks, i, pt);
      InsertMembers(tasks, i, pt);
      arrivals := arrivals + 1;
      if i < |tasks| {
        tasks := tasks[..i] + [pt] + tasks[i..];
      } else {
        assert tasks[..i] + [pt] + tasks[i..] == tasks + [pt];
        tasks := tasks + [pt];
      }
    }

    /** The first task of lower priority. */
    method FindPlace(pt: PriorityTask) returns (i: nat)
      ensures i <= |tasks| && (forall j :: 0 <= j < i ==> tasks[j].priority >= pt.priority)
      ensures i < |tasks| ==> pt.priority > tasks[i].priority
    {
      i := 0;
      while i < |tasks| && pt.priority <= tasks[i].priority
        invariant 0 <= i <= |tasks|
        invariant forall j :: 0 <= j < i ==> tasks[j].priority >= pt.priority
      {
        i := i + 1;
      }
    }

    method Pop() returns (task: Option<Task>)
      requires Valid()
      modifies this
      ensures Valid() && arrivals == old(arrivals)
      ensures task.None? <==> old(tasks) == []
      ensures task.None? ==> tasks == []
      ensures task.Some? ==>
          exists e: PriorityTask :: e.task == task.value && multiset(tasks) == old(multiset(tasks)) - multiset{e}
                                && e in old(tasks) && forall other :: other in tasks ==> Before(e, other)
      ensures task.Some? ==>
          exists e: PriorityTask :: e.task == task.value && e in old(tasks)
                                && forall other :: other in tasks ==>
                                     other.priority < e.priority
                                     || (other.priority == e.priority && other.arrival > e.arrival)
    {
      if |tasks| == 0 {
        return None;
      }
      var e := tasks[0];
      assert tasks == [e] + tasks[1..];
      tasks := tasks[1..];
      return Some(e.task);
    }
  }
}
