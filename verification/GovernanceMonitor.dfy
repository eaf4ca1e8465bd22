/**
 * The monitor's pass over the scheduler's queue, processUpgradeQueue of internal/governance/monitor.go: what a
 * complete pass leaves, which upgrades it triggers, and when a reset lets it trigger one again.
 */
module GovernanceMonitor {
  import opened S = UpgradeScheduler
  import opened Sequences

  // ------------------------------------------------------------------ a complete pass

  /** What a pass has still to look at covers everything it must trigger; records from `n` on came after it began. */
  ghost predicate PassCovers(s: Scheduler, n: nat)
    requires WellFormed(s)
  {
    s.pass.Pass? ==>
      forall i :: 0 <= i < |s.scheduledQueue| && Due(s, s.scheduledQueue[i], s.pass.height) ==>
        s.scheduledQueue[i] >= n || s.scheduledQueue[i] in s.pass.rest || InHand(s, s.scheduledQueue[i])
  }

  lemma {:induction false} RemoveShrinks(objects: seq<UpgradeInfo>, refs: seq<Ref>, name: string)
    requires InRange(objects, refs)
    ensures forall r :: r in RemoveFirstNamed(objects, refs, name) ==> r in refs
  {
    if refs != [] {
      RemoveShrinks(objects, refs[1..], name);
    }
  }

  /** Only a schedule adds to the queue, and it adds a new record. */
  lemma {:induction false} QueueGrowsByNew(s: Scheduler, step: Step)
    requires WellFormed(s)
    ensures |s.objects| <= |Next(s, step).objects|
    ensures !step.Schedule? ==> |Next(s, step).objects| == |s.objects|
    ensures forall r :: r in Next(s, step).scheduledQueue ==>
        r in s.scheduledQueue || (step.Schedule? && r == |s.objects|)
  {
    if step.Schedule? {
      if Next(s, step) != s {
        Permutation(s.scheduledQueue + [|s.objects|], step.sorted);
        assert forall r :: r in s.scheduledQueue + [|s.objects|] ==> r in s.scheduledQueue || r == |s.objects|;
      }
    } else {
      forall objects: seq<UpgradeInfo>, name | InRange(objects, s.scheduledQueue)
        ensures forall r :: r in RemoveFirstNamed(objects, s.scheduledQueue, name) ==> r in s.scheduledQueue
      {
        RemoveShrinks(objects, s.scheduledQueue, name);
      }
    }
  }

  /** A due upgrade leaves the rest of the pass only into the monitor's hand, and the hand only by being marked. */
  lemma {:induction false} StaysCovered(s: Scheduler, step: Step, r: Ref)
    requires Partition(s) && Forward(step) && !step.BeginPass? && s.pass.Pass?
    requires r in s.scheduledQueue && (Due(s, r, s.pass.height) ==> r in s.pass.rest || InHand(s, r))
    ensures var t := Next(s, step);
            && (t.pass.Pass? ==> t.pass.height == s.pass.height)
            && r < |t.objects|
            && (t.pass.Pass? && Due(t, r, t.pass.height) ==> r in t.pass.rest || InHand(t, r))
  {
    ForwardAges(s, step);
    if step.Trigger? && s.pass.rest != [] {
      assert s.pass.rest == [s.pass.rest[0]] + s.pass.rest[1..];
    }
  }

  lemma {:induction false} NextKeepsPassCovers(s: Scheduler, n: nat, step: Step)
    requires Partition(s) && PassCovers(s, n) && n <= |s.objects| && Forward(step) && !step.BeginPass?
    ensures WellFormed(Next(s, step)) && PassCovers(Next(s, step), n)
  {
    var t := Next(s, step);
    NextKeepsPartition(s, step);
    QueueGrowsByNew(s, step);
    if s.pass.Pass? && t.pass.Pass? {
      forall i | 0 <= i < |t.scheduledQueue|
        ensures t.scheduledQueue[i] < n ==>
          Due(t, t.scheduledQueue[i], t.pass.height) ==>
            t.scheduledQueue[i] in t.pass.rest || InHand(t, t.scheduledQueue[i])
      {
        var r := t.scheduledQueue[i];
        assert r in t.scheduledQueue;
        if r < n {
          assert r in s.scheduledQueue;
          var j :| 0 <= j < |s.scheduledQueue| && s.scheduledQueue[j] == r;
          StaysCovered(s, step, r);
        }
      }
    }
  }

  /** What may happen while a pass is under way, on either side, schedules by another goroutine included. */
  predicate DuringPass(step: Step) {
    Forward(step) && !step.BeginPass? && !step.EndPass?
  }

  ghost predicate Covering(s: Scheduler, height: int, n: nat) {
    Partition(s) && s.pass.Pass? && s.pass.height == height && n <= |s.objects| && PassCovers(s, n)
  }

  lemma {:induction false} NextKeepsCovering(s: Scheduler, height: int, n: nat, step: Step)
    requires Covering(s, height, n) && DuringPass(step)
    ensures Covering(Next(s, step), height, n)
  {
    NextKeepsPartition(s, step);
    QueueGrowsByNew(s, step);
    NextKeepsPassCovers(s, n, step);
    PassStays(s, step);
  }

  lemma PassStays(s: Scheduler, step: Step)
    requires WellFormed(s) && s.pass.Pass? && !step.EndPass?
    ensures Next(s, step).pass.Pass? && Next(s, step).pass.height == s.pass.height
  {
  }

  lemma {:induction false} PassKeepsCovering(s: Scheduler, height: int, n: nat, steps: seq<Step>)
    requires Covering(s, height, n) && Validated(steps) && forall i :: 0 <= i < |steps| ==> DuringPass(steps[i])
    ensures Covering(RunFrom(s, steps), height, n)
  {
    if steps != [] {
      PassKeepsCovering(s, height, n, DropLast(steps));
      NextKeepsCovering(RunFrom(s, DropLast(steps)), height, n, Last(steps));
    }
  }

  /**
   * When a pass at a height has visited its copy of the queue, whatever was scheduled, updated, cancelled or
   * cleaned up meanwhile, all that is queued, due and still `scheduled` was accepted after the pass began.
   */
  lemma {:induction false} PassLeavesOnlyNewDue(s: Scheduler, height: int, steps: seq<Step>)
    requires Partition(s) && s.pass.NoPass?
    requires Validated(steps) && forall i :: 0 <= i < |steps| ==> DuringPass(steps[i])
    ensures var t := RunFrom(Next(s, BeginPass(height)), steps);
            t.pass.Pass? && (t.pass.rest == [] && t.pass.hand.None? ==>
              forall i :: 0 <= i < |t.scheduledQueue| && Due(t, t.scheduledQueue[i], height) ==>
                t.scheduledQueue[i] >= |s.objects|)
  {
    PassKeepsCovering(Next(s, BeginPass(height)), height, |s.objects|, steps);
  }

  lemma {:induction false} NothingAccepted(s: Scheduler, steps: seq<Step>)
    requires Partition(s) && Validated(steps) && forall i :: 0 <= i < |steps| ==> !steps[i].Schedule?
    ensures |RunFrom(s, steps).objects| == |s.objects|
  {
    if steps != [] {
      NothingAccepted(s, DropLast(steps));
      QueueGrowsByNew(RunFrom(s, DropLast(steps)), Last(steps));
    }
  }

  /** If nothing was accepted meanwhile, nothing is due any more, so no upgrade is ready. */
  lemma {:induction false} PassLeavesNothingDue(s: Scheduler, height: int, steps: seq<Step>)
    requires Partition(s) && s.pass.NoPass?
    requires Validated(steps) && forall i :: 0 <= i < |steps| ==> DuringPass(steps[i]) && !steps[i].Schedule?
    ensures var t := RunFrom(Next(s, BeginPass(height)), steps);
            t.pass.Pass? && (t.pass.rest == [] && t.pass.hand.None? ==>
              && (forall i :: 0 <= i < |t.scheduledQueue| ==> !Due(t, t.scheduledQueue[i], height))
              && IsUpgradeReady(t, height).None?)
  {
    PassLeavesOnlyNewDue(s, height, steps);
    NothingAccepted(Next(s, BeginPass(height)), steps);
  }

  // ------------------------------------------------------------------ an undisturbed pass

  /** The calls that a pass at this height makes for these records: one for each that is due, in their order. */
  function Calls(s: Scheduler, refs: seq<Ref>, height: int): seq<(Ref, int)>
    requires InRange(s.objects, refs)
  {
    if refs == [] then []
    else Calls(s, DropLast(refs), height) + (if Due(s, Last(refs), height) then [(Last(refs), height)] else [])
  }

  /** How far the pass has come. */
  function VisitedCount(s: Scheduler, t: Scheduler): int {
    if t.pass.Pass? then |s.scheduledQueue| - |t.pass.rest| else 0
  }

  /** After its visit a record is untouched if it was not due, and in progress or failed if it was. */
  predicate Settled(s: Scheduler, t: Scheduler, r: Ref, height: int)
    requires r < |s.objects| && r < |t.objects|
  {
    if Due(s, r, height) then t.objects[r].status.InProgress? || t.objects[r].status.Failed?
    else t.objects[r] == s.objects[r]
  }

  /** Names and heights are as before, and the queue has not grown. */
  ghost predicate SameRecords(s: Scheduler, t: Scheduler) {
    && t.upgrades == s.upgrades && |t.objects| == |s.objects|
    && (forall r :: 0 <= r < |s.objects| ==>
          t.objects[r].name == s.objects[r].name && t.objects[r].height == s.objects[r].height)
    && (forall r :: r in t.scheduledQueue ==> r in s.scheduledQueue)
  }

  /** The pass has gone through the first `k` entries of the queue of `s`, the last of which may be in hand. */
  ghost predicate Progress(s: Scheduler, t: Scheduler, k: int, height: int) {
    && WellFormed(s) && 0 <= k <= |s.scheduledQueue| && t.pass.Pass? && t.pass.height == height
    && t.pass.rest == s.scheduledQueue[k..]
    && t.triggered == s.triggered + Calls(s, s.scheduledQueue[..k], height)
    && (t.pass.hand.Some? ==>
        k > 0 && t.pass.hand.value.0 == s.scheduledQueue[k - 1] && Due(s, s.scheduledQueue[k - 1], height))
  }

  ghost predicate Untouched(s: Scheduler, t: Scheduler, k: int)
    requires WellFormed(s) && |t.objects| == |s.objects|
  {
    forall j :: 0 <= k <= j < |s.scheduledQueue| ==> t.objects[s.scheduledQueue[j]] == s.objects[s.scheduledQueue[j]]
  }

  ghost predicate AllSettled(s: Scheduler, t: Scheduler, k: int, height: int)
    requires WellFormed(s) && |t.objects| == |s.objects|
  {
    forall j :: 0 <= j < k && j < |s.scheduledQueue| ==> Settled(s, t, s.scheduledQueue[j], height)
  }

  /** The number of entries visited to the end. */
  function DoneCount(s: Scheduler, t: Scheduler): int {
    if t.pass.Pass? && t.pass.hand.Some? then VisitedCount(s, t) - 1 else VisitedCount(s, t)
  }

  /** `t` is reached from `s`, where the pass began, by the steps of that pass only. */
  ghost predicate Undisturbed(s: Scheduler, t: Scheduler, height: int) {
    && WellFormed(s) && WellFormed(t) && SameRecords(s, t)
    && Progress(s, t, VisitedCount(s, t), height)
    && Untouched(s, t, VisitedCount(s, t))
    && AllSettled(s, t, DoneCount(s, t), height)
  }

  predicate OfPass(step: Step) {
    step.Trigger? || step.Mark?
  }

  lemma CallsGrow(s: Scheduler, refs: seq<Ref>, k: nat, height: int)
    requires InRange(s.objects, refs) && k < |refs|
    ensures Calls(s, refs[..k + 1], height)
         == Calls(s, refs[..k], height) + (if Due(s, refs[k], height) then [(refs[k], height)] else [])
  {
    assert DropLast(refs[..k + 1]) == refs[..k];
  }

  lemma TriggerProgress(s: Scheduler, t: Scheduler, k: nat, height: int, ok: bool)
    requires WellFormed(s) && WellFormed(t) && |t.objects| == |s.objects| && k < |s.scheduledQueue|
    requires Progress(s, t, k, height) && t.pass.hand.None?
    requires t.objects[s.scheduledQueue[k]] == s.objects[s.scheduledQueue[k]]
    ensures Progress(s, Next(t, Trigger(ok)), k + 1, height)
    ensures Next(t, Trigger(ok)).pass.hand.Some? <==> Due(s, s.scheduledQueue[k], height)
  {
    CallsGrow(s, s.scheduledQueue, k, height);
    assert s.scheduledQueue[k..][1..] == s.scheduledQueue[k + 1..];
    assert t.pass.rest[0] == s.scheduledQueue[k];
  }

  lemma TriggerSettles(s: Scheduler, t: Scheduler, n: Scheduler, k: int, height: int)
    requires WellFormed(s) && SameRecords(s, t) && 0 <= k < |s.scheduledQueue|
    requires Untouched(s, t, k) && AllSettled(s, t, k, height)
    requires n.objects == t.objects && n.upgrades == t.upgrades && n.scheduledQueue == t.scheduledQueue
    ensures SameRecords(s, n) && Untouched(s, n, k + 1) && AllSettled(s, n, k, height)
    ensures !Due(s, s.scheduledQueue[k], height) ==> AllSettled(s, n, k + 1, height)
  {
    forall j | 0 <= j < k
      ensures Settled(s, n, s.scheduledQueue[j], height)
    {
      assert Settled(s, t, s.scheduledQueue[j], height);
    }
  }

  /** The entry that is visited next. */
  lemma NextEntry(s: Scheduler, t: Scheduler, height: int)
    requires Undisturbed(s, t, height) && t.pass.rest != []
    ensures var k := VisitedCount(s, t);
            && t.pass.rest[0] == s.scheduledQueue[k]
            && t.objects[s.scheduledQueue[k]] == s.objects[s.scheduledQueue[k]]
            && |t.triggered| == |s.triggered| + |Calls(s, s.scheduledQueue[..k], height)|
  {
  }

  lemma {:induction false} TriggerUndisturbed(s: Scheduler, t: Scheduler, height: int, ok: bool)
    requires Undisturbed(s, t, height) && t.pass.hand.None? && t.pass.rest != []
    ensures Undisturbed(s, Next(t, Trigger(ok)), height)
  {
    var n, k := Next(t, Trigger(ok)), VisitedCount(s, t);
    NextEntry(s, t, height);
    assert Progress(s, t, k, height);
    TriggerProgress(s, t, k, height, ok);
    TriggerSettles(s, t, n, k, height);
    assert VisitedCount(s, n) == k + 1;
    assert DoneCount(s, n) == if Due(s, s.scheduledQueue[k], height) then k else k + 1;
  }

  lemma HandIsOwned(s: Scheduler, t: Scheduler, height: int)
    requires Partition(s) && Undisturbed(s, t, height) && t.pass.hand.Some?
    ensures Owned(t, t.pass.hand.value.0)
  {
    var r := t.pass.hand.value.0;
    assert r in s.scheduledQueue && Owned(s, r);
  }

  /** The record in hand has the status of its answer and is no longer in hand; no other record has changed. */
  ghost predicate MarkedAs(t: Scheduler, n: Scheduler)
    requires t.pass.Pass? && t.pass.hand.Some?
  {
    var (r, ok) := t.pass.hand.value;
    && n.pass == t.pass.(hand := None) && n.upgrades == t.upgrades && n.triggered == t.triggered
    && r < |t.objects| && |n.objects| == |t.objects|
    && n.objects[r].status == (if ok then InProgress else Failed)
    && n.objects[r].name == t.objects[r].name && n.objects[r].height == t.objects[r].height
    && (forall x :: 0 <= x < |t.objects| && x != r ==> n.objects[x] == t.objects[x])
    && (forall x :: x in n.scheduledQueue ==> x in t.scheduledQueue)
  }

  /** Marking does that, unless the given order is impossible. */
  lemma {:induction false} MarkEffect(t: Scheduler, now: int, sorted: seq<Ref>)
    requires Partition(t) && t.pass.Pass? && t.pass.hand.Some? && Owned(t, t.pass.hand.value.0)
    ensures var n := Next(t, Mark(now, sorted)); n == t || MarkedAs(t, n)
  {
    QueueGrowsByNew(t, Mark(now, sorted));
  }

  lemma {:induction false} MarkedUndisturbed(s: Scheduler, t: Scheduler, n: Scheduler, height: int)
    requires Partition(s) && Undisturbed(s, t, height) && t.pass.hand.Some? && MarkedAs(t, n) && WellFormed(n)
    ensures Undisturbed(s, n, height) && VisitedCount(s, n) == VisitedCount(s, t)
  {
    var k := VisitedCount(s, t);
    assert VisitedCount(s, n) == k;
    OthersUntouched(s, t, n, k);
    OthersSettled(s, t, n, k, height);
  }

  lemma {:induction false} MarkUndisturbed(s: Scheduler, t: Scheduler, height: int, now: int, sorted: seq<Ref>)
    requires Partition(s) && Partition(t) && Undisturbed(s, t, height)
    ensures Undisturbed(s, Next(t, Mark(now, sorted)), height)
  {
    if t.pass.hand.Some? {
      HandIsOwned(s, t, height);
      NextKeepsPartition(t, Mark(now, sorted));
      MarkEffect(t, now, sorted);
      if Next(t, Mark(now, sorted)) != t {
        MarkedUndisturbed(s, t, Next(t, Mark(now, sorted)), height);
      }
    }
  }

  lemma OthersUntouched(s: Scheduler, t: Scheduler, n: Scheduler, k: int)
    requires WellFormed(s) && Distinct(s.scheduledQueue)
    requires |t.objects| == |s.objects| == |n.objects| && 0 < k <= |s.scheduledQueue|
    requires forall x :: 0 <= x < |t.objects| && x != s.scheduledQueue[k - 1] ==> n.objects[x] == t.objects[x]
    requires Untouched(s, t, k)
    ensures Untouched(s, n, k)
  {
    forall j | k <= j < |s.scheduledQueue|
      ensures n.objects[s.scheduledQueue[j]] == s.objects[s.scheduledQueue[j]]
    {
      assert s.scheduledQueue[j] != s.scheduledQueue[k - 1];
    }
  }

  lemma OthersSettled(s: Scheduler, t: Scheduler, n: Scheduler, k: int, height: int)
    requires WellFormed(s) && Distinct(s.scheduledQueue)
    requires |t.objects| == |s.objects| == |n.objects| && 0 < k <= |s.scheduledQueue|
    requires forall x :: 0 <= x < |t.objects| && x != s.scheduledQueue[k - 1] ==> n.objects[x] == t.objects[x]
    requires AllSettled(s, t, k - 1, height) && Settled(s, n, s.scheduledQueue[k - 1], height)
    ensures AllSettled(s, n, k, height)
  {
    forall j | 0 <= j < k
      ensures Settled(s, n, s.scheduledQueue[j], height)
    {
      if j < k - 1 {
        assert s.scheduledQueue[j] != s.scheduledQueue[k - 1] && Settled(s, t, s.scheduledQueue[j], height);
      }
    }
  }

  lemma MarkKeepsPass(t: Scheduler, now: int, sorted: seq<Ref>)
    requires Partition(t) && t.pass.Pass? && t.pass.hand.Some? && Marked(t, now, sorted).Some?
    ensures Marked(t, now, sorted).value == Next(t, Mark(now, sorted))
    ensures Marked(t, now, sorted).value.pass == t.pass.(hand := None)
  {
  }

  lemma {:induction false} BeginUndisturbed(s: Scheduler, height: int)
    requires Partition(s) && s.pass.NoPass?
    ensures Undisturbed(s, Next(s, BeginPass(height)), height)
  {
    NextKeepsPartition(s, BeginPass(height));
    assert s.scheduledQueue[0..] == s.scheduledQueue && s.scheduledQueue[..0] == [];
    assert s.triggered + [] == s.triggered;
  }

  lemma {:induction false} StepUndisturbed(s: Scheduler, t: Scheduler, height: int, step: Step)
    requires Partition(s) && Partition(t) && Undisturbed(s, t, height) && OfPass(step)
    ensures Undisturbed(s, Next(t, step), height)
  {
    if step.Mark? {
      MarkUndisturbed(s, t, height, step.now, step.sorted);
    } else if t.pass.hand.None? && t.pass.rest != [] {
      TriggerUndisturbed(s, t, height, step.ok);
    }
  }

  lemma {:induction false} PassUndisturbed(s: Scheduler, height: int, steps: seq<Step>)
    requires Partition(s) && s.pass.NoPass? && forall i :: 0 <= i < |steps| ==> OfPass(steps[i])
    ensures Validated(steps) && Partition(Next(s, BeginPass(height)))
    ensures Undisturbed(s, RunFrom(Next(s, BeginPass(height)), steps), height)
  {
    BeginUndisturbed(s, height);
    NextKeepsPartition(s, BeginPass(height));
    if steps != [] {
      PassUndisturbed(s, height, DropLast(steps));
      StepUndisturbed(s, RunFrom(Next(s, BeginPass(height)), DropLast(steps)), height, Last(steps));
    }
  }

  /**
   * A pass that is not disturbed triggers exactly the entries of the queue that are due when it begins, each
   * once and in queue order, whatever triggerUpgrade answers.
   */
  lemma {:induction false} PassTriggersDue(s: Scheduler, height: int, steps: seq<Step>)
    requires Partition(s) && s.pass.NoPass? && forall i :: 0 <= i < |steps| ==> OfPass(steps[i])
    requires Validated(steps) && RunFrom(Next(s, BeginPass(height)), steps).pass.Pass?
    requires RunFrom(Next(s, BeginPass(height)), steps).pass.rest == []
    ensures RunFrom(Next(s, BeginPass(height)), steps).triggered == s.triggered + Calls(s, s.scheduledQueue, height)
  {
    PassUndisturbed(s, height, steps);
    assert s.scheduledQueue[..|s.scheduledQueue|] == s.scheduledQueue;
  }

  /** If the `j`-th record of the queue was due, it has the status that the answer to its own call gives. */
  ghost predicate AnsweredAt(s: Scheduler, t: Scheduler, j: nat, answers: nat -> bool, height: int)
    requires WellFormed(s) && |t.objects| == |s.objects| && j < |s.scheduledQueue|
  {
    Due(s, s.scheduledQueue[j], height) ==>
      t.objects[s.scheduledQueue[j]].status
          == AnswerTo(answers, |s.triggered| + |Calls(s, s.scheduledQueue[..j], height)|)
  }

  function AnswerTo(answers: nat -> bool, call: nat): Status {
    if answers(call) then InProgress else Failed
  }

  ghost predicate Answered(s: Scheduler, t: Scheduler, k: int, answers: nat -> bool, height: int) {
    WellFormed(s) && |t.objects| == |s.objects| && k <= |s.scheduledQueue| &&
    forall j :: 0 <= j < k ==> AnsweredAt(s, t, j, answers, height)
  }

  lemma {:induction false} AnsweredGrows(
      s: Scheduler, t: Scheduler, u: Scheduler, k: int, answers: nat -> bool, height: int)
    requires Distinct(s.scheduledQueue) && 0 <= k < |s.scheduledQueue| && |u.objects| == |t.objects|
    requires Answered(s, t, k, answers, height)
    requires forall x :: 0 <= x < |t.objects| && x != s.scheduledQueue[k] ==> u.objects[x] == t.objects[x]
    requires AnsweredAt(s, u, k, answers, height)
    ensures Answered(s, u, k + 1, answers, height)
  {
    forall j | 0 <= j < k
      ensures AnsweredAt(s, u, j, answers, height)
    {
      assert AnsweredAt(s, t, j, answers, height) && s.scheduledQueue[j] != s.scheduledQueue[k];
    }
  }

  /** Between two visits of an undisturbed pass. */
  ghost predicate BetweenVisits(s: Scheduler, t: Scheduler, answers: nat -> bool, height: int) {
    Undisturbed(s, t, height) && t.pass.hand.None? && Answered(s, t, VisitedCount(s, t), answers, height)
  }

  /** A visit that finds its entry not due. */
  lemma {:induction false} VisitSkips(s: Scheduler, t: Scheduler, answers: nat -> bool, height: int, ok: bool)
    requires Partition(s) && BetweenVisits(s, t, answers, height) && t.pass.rest != []
    requires Next(t, Trigger(ok)).pass.hand.None?
    ensures BetweenVisits(s, Next(t, Trigger(ok)), answers, height)
    ensures Next(t, Trigger(ok)).pass.rest == t.pass.rest[1..]
  {
    var u, k := Next(t, Trigger(ok)), VisitedCount(s, t);
    NextEntry(s, t, height);
    TriggerUndisturbed(s, t, height, ok);
    assert u == t.(pass := t.pass.(rest := t.pass.rest[1..])) && !Due(s, s.scheduledQueue[k], height);
    assert AnsweredAt(s, u, k, answers, height) && VisitedCount(s, u) == k + 1;
    AnsweredGrows(s, t, u, k, answers, height);
  }

  lemma {:induction false} PassBegins(s: Scheduler, answers: nat -> bool, height: int)
    requires Partition(s) && s.pass.NoPass?
    ensures var t := s.(pass := Pass(height, s.scheduledQueue, None));
            Partition(t) && BetweenVisits(s, t, answers, height) && (Disciplined(s) ==> Disciplined(t))
  {
    var t := s.(pass := Pass(height, s.scheduledQueue, None));
    BeginUndisturbed(s, height);
    assert Next(s, BeginPass(height)) == t;
    PartitionFrame(s, t);
    if Disciplined(s) {
      AgeingKeepsDiscipline(s, t);
    }
  }

  lemma AnsweredFrame(s: Scheduler, t: Scheduler, u: Scheduler, k: int, answers: nat -> bool, height: int)
    requires Answered(s, t, k, answers, height) && u.objects == t.objects
    ensures Answered(s, u, k, answers, height)
  {
    forall j | 0 <= j < k
      ensures AnsweredAt(s, u, j, answers, height)
    {
      assert AnsweredAt(s, t, j, answers, height);
    }
  }

  /** A visit that triggers its entry. */
  lemma {:induction false} VisitTriggers(s: Scheduler, t: Scheduler, height: int, ok: bool)
    requires Undisturbed(s, t, height) && t.pass.hand.None? && t.pass.rest != []
    requires Next(t, Trigger(ok)).pass.hand.Some?
    ensures var u, k := Next(t, Trigger(ok)), VisitedCount(s, t);
            && Undisturbed(s, u, height) && VisitedCount(s, u) == k + 1 && u.pass.rest == t.pass.rest[1..]
            && u.objects == t.objects && u.pass.hand.value == (s.scheduledQueue[k], ok)
            && |t.triggered| == |s.triggered| + |Calls(s, s.scheduledQueue[..k], height)|
  {
    NextEntry(s, t, height);
    TriggerUndisturbed(s, t, height, ok);
  }

  lemma AnsweredNow(s: Scheduler, t: Scheduler, n: Scheduler, k: nat, answers: nat -> bool, height: int)
    requires WellFormed(s) && |t.objects| == |s.objects| && k < |s.scheduledQueue|
    requires var call := |s.triggered| + |Calls(s, s.scheduledQueue[..k], height)|;
             t.pass.Pass? && t.pass.hand == Some((s.scheduledQueue[k], answers(call)))
    requires MarkedAs(t, n)
    ensures AnsweredAt(s, n, k, answers, height)
  {
  }

  lemma {:induction false} VisitMarks(
      s: Scheduler, t: Scheduler, u: Scheduler, v: Scheduler, answers: nat -> bool, height: int)
    requires Partition(s) && BetweenVisits(s, t, answers, height) && t.pass.rest != []
    requires u == Next(t, Trigger(answers(|t.triggered|))) && u.pass.hand.Some?
    requires MarkedAs(u, v) && WellFormed(v)
    ensures BetweenVisits(s, v, answers, height) && v.pass.rest == t.pass.rest[1..]
  {
    var k := VisitedCount(s, t);
    VisitTriggers(s, t, height, answers(|t.triggered|));
    AnsweredFrame(s, t, u, k, answers, height);
    AnsweredNow(s, u, v, k, answers, height);
    AnsweredGrows(s, u, v, k, answers, height);
    MarkedUndisturbed(s, u, v, height);
  }

  lemma {:induction false} NothingDueAfter(s: Scheduler, t: Scheduler, height: int)
    requires Partition(s) && Undisturbed(s, t, height) && t.pass.rest == [] && t.pass.hand.None?
    ensures forall i :: 0 <= i < |t.scheduledQueue| ==> !Due(t, t.scheduledQueue[i], height)
  {
    forall i | 0 <= i < |t.scheduledQueue|
      ensures !Due(t, t.scheduledQueue[i], height)
    {
      var r := t.scheduledQueue[i];
      assert r in t.scheduledQueue && r in s.scheduledQueue;
      var j :| 0 <= j < |s.scheduledQueue| && s.scheduledQueue[j] == r;
      assert Settled(s, t, s.scheduledQueue[j], height);
    }
  }

  /** What holds when the copy is exhausted and the pass has ended. */
  lemma {:induction false} PassFinished(s: Scheduler, t: Scheduler, answers: nat -> bool, height: int)
    requires Partition(s) && Partition(t) && BetweenVisits(s, t, answers, height) && t.pass.rest == []
    ensures var e := t.(pass := NoPass);
            && Partition(e) && (Disciplined(t) ==> Disciplined(e))
            && e.triggered == s.triggered + Calls(s, s.scheduledQueue, height)
            && Answered(s, e, |s.scheduledQueue|, answers, height)
            && (forall i :: 0 <= i < |e.scheduledQueue| ==> !Due(e, e.scheduledQueue[i], height))
  {
    assert s.scheduledQueue[..|s.scheduledQueue|] == s.scheduledQueue;
    NothingDueAfter(s, t, height);
    AnsweredFrame(s, t, t.(pass := NoPass), |s.scheduledQueue|, answers, height);
    PartitionFrame(t, t.(pass := NoPass));
    if Disciplined(t) {
      AgeingKeepsDiscipline(t, t.(pass := NoPass));
    }
  }

  lemma {:induction false} CallsWhatIsDue(s: Scheduler, refs: seq<Ref>, height: int, r: Ref)
    requires InRange(s.objects, refs) && r in refs && Due(s, r, height)
    ensures exists i :: 0 <= i < |Calls(s, refs, height)| && Calls(s, refs, height)[i] == (r, height)
  {
    if Last(refs) == r {
      var all := Calls(s, refs, height);
      assert all[|all| - 1] == (r, height);
    } else {
      assert r in DropLast(refs) by {
        var i :| 0 <= i < |refs| && refs[i] == r;
        assert DropLast(refs)[i] == r;
      }
      CallsWhatIsDue(s, DropLast(refs), height, r);
      var i :| 0 <= i < |Calls(s, DropLast(refs), height)| && Calls(s, DropLast(refs), height)[i] == (r, height);
      assert Calls(s, refs, height)[i] == (r, height);
    }
  }

  // ------------------------------------------------------------------ resets

  /** How often a record was triggered. */
  function Times(triggered: seq<(Ref, int)>, r: Ref): nat {
    if triggered == [] then 0 else Times(DropLast(triggered), r) + if Last(triggered).0 == r then 1 else 0
  }

  lemma {:induction false} TimesConcat(a: seq<(Ref, int)>, b: seq<(Ref, int)>, r: Ref)
    ensures Times(a + b, r) == Times(a, r) + Times(b, r)
  {
    if b == [] {
      assert a + b == a;
    } else {
      assert DropLast(a + b) == a + DropLast(b);
      TimesConcat(a, DropLast(b), r);
    }
  }

  lemma {:induction false} TimesPositive(a: seq<(Ref, int)>, r: Ref, i: nat)
    requires i < |a| && a[i].0 == r
    ensures Times(a, r) > 0
  {
    if i < |a| - 1 {
      TimesPositive(DropLast(a), r, i);
    }
  }

  /** The steps of a pass over `n` entries, every trigger successful. */
  function PassSteps(n: nat, now: int): (steps: seq<Step>)
    ensures forall i :: 0 <= i < |steps| ==> OfPass(steps[i])
  {
    if n == 0 then [] else PassSteps(n - 1, now) + [Trigger(true), Mark(now, [])]
  }

  /** They visit the queue to its end. */
  lemma {:induction false} PassStepsVisit(s: Scheduler, height: int, n: nat, now: int)
    requires Partition(s) && s.pass.NoPass? && n <= |s.scheduledQueue|
    ensures Validated(PassSteps(n, now)) && Partition(Next(s, BeginPass(height)))
    ensures var t := RunFrom(Next(s, BeginPass(height)), PassSteps(n, now));
            t.pass.Pass? && t.pass.hand.None? && |t.pass.rest| == |s.scheduledQueue| - n
  {
    NextKeepsPartition(s, BeginPass(height));
    if n > 0 {
      PassStepsVisit(s, height, n - 1, now);
      OneMoreVisit(Next(s, BeginPass(height)), PassSteps(n - 1, now), now);
    }
  }

  lemma {:induction false} OneMoreVisit(begun: Scheduler, steps: seq<Step>, now: int)
    requires Partition(begun) && Validated(steps)
    requires var t := RunFrom(begun, steps); t.pass.Pass? && t.pass.hand.None? && t.pass.rest != []
    ensures Validated(steps + [Trigger(true), Mark(now, [])])
    ensures var n := RunFrom(begun, steps + [Trigger(true), Mark(now, [])]);
            n.pass.Pass? && n.pass.hand.None? && n.pass.rest == RunFrom(begun, steps).pass.rest[1..]
  {
    RunFromConcat(begun, steps, [Trigger(true), Mark(now, [])]);
    RunTwo(RunFrom(begun, steps), Trigger(true), Mark(now, []));
    VisitAdvances(RunFrom(begun, steps), now);
  }

  lemma VisitAdvances(t: Scheduler, now: int)
    requires WellFormed(t) && t.pass.Pass? && t.pass.hand.None? && t.pass.rest != []
    ensures WellFormed(Next(t, Trigger(true)))
    ensures var n := Next(Next(t, Trigger(true)), Mark(now, []));
            n.pass.Pass? && n.pass.hand.None? && n.pass.rest == t.pass.rest[1..]
  {
  }

  /** A record that is in no queue and in no pass is never triggered. */
  ghost predicate Gone(s: Scheduler, r: Ref) {
    r < |s.objects| && r !in s.scheduledQueue && (s.pass.Pass? ==> r !in s.pass.rest) && !InHand(s, r)
  }

  lemma {:induction false} NextKeepsGone(s: Scheduler, step: Step, r: Ref)
    requires WellFormed(s) && Gone(s, r)
    ensures Gone(Next(s, step), r) && Times(Next(s, step).triggered, r) == Times(s.triggered, r)
  {
    QueueGrowsByNew(s, step);
    if step.Trigger? && Next(s, step).triggered != s.triggered {
      TimesConcat(s.triggered, [(s.pass.rest[0], s.pass.height)], r);
      assert DropLast([(s.pass.rest[0], s.pass.height)]) == [];
    }
  }

  lemma {:induction false} GoneForever(s: Scheduler, steps: seq<Step>, r: Ref)
    requires Partition(s) && Validated(steps) && Gone(s, r)
    ensures Gone(RunFrom(s, steps), r) && Times(RunFrom(s, steps).triggered, r) == Times(s.triggered, r)
  {
    if steps != [] {
      GoneForever(s, DropLast(steps), r);
      NextKeepsGone(RunFrom(s, DropLast(steps)), Last(steps), r);
    }
  }

  ghost predicate CanTrigger(s: Scheduler, r: Ref)
    requires Partition(s)
  {
    exists steps :: AllForward(steps) && Times(RunFrom(s, steps).triggered, r) > Times(s.triggered, r)
  }

  /**
   * Between passes, setting the status of an upgrade back to `scheduled` lets it be triggered once more, by steps
   * that reset nothing, exactly if it is still in the scheduled queue: in progress, say, but not finished.
   */
  lemma {:induction false} ResetTriggersAgainIff(s: Scheduler, name: string, now: int)
    requires Partition(s) && s.pass.NoPass? && name in s.upgrades
    ensures var t := Next(s, Update(name, Scheduled, now, []));
            && Partition(t) && t.triggered == s.triggered
            && (CanTrigger(t, s.upgrades[name]) <==> s.upgrades[name] in s.scheduledQueue)
  {
    var r, t := s.upgrades[name], Next(s, Update(name, Scheduled, now, []));
    NextKeepsPartition(s, Update(name, Scheduled, now, []));
    assert t == SetObject(s, r, Stamped(s.objects[r], Scheduled, now));
    if r in s.scheduledQueue {
      WholePassTriggers(t, r, now);
    } else {
      forall steps | AllForward(steps)
        ensures Times(RunFrom(t, steps).triggered, r) == Times(t.triggered, r)
      {
        GoneForever(t, steps, r);
      }
    }
  }

  lemma {:induction false} PassOnce(t: Scheduler, height: int, now: int)
    requires Partition(t) && t.pass.NoPass?
    ensures var steps := PassSteps(|t.scheduledQueue|, now);
            && Validated(steps) && Partition(Next(t, BeginPass(height)))
            && RunFrom(Next(t, BeginPass(height)), steps).triggered == t.triggered + Calls(t, t.scheduledQueue, height)
  {
    PassStepsVisit(t, height, |t.scheduledQueue|, now);
    PassTriggersDue(t, height, PassSteps(|t.scheduledQueue|, now));
  }

  lemma {:induction false} WholePassTriggers(t: Scheduler, r: Ref, now: int)
    requires Partition(t) && t.pass.NoPass? && r in t.scheduledQueue && t.objects[r].status.Scheduled?
    ensures CanTrigger(t, r)
  {
    var height, passing := t.objects[r].height, PassSteps(|t.scheduledQueue|, now);
    PassOnce(t, height, now);
    CallsCount(t, t.scheduledQueue, height, r);
    TimesConcat(t.triggered, Calls(t, t.scheduledQueue, height), r);
    RunFromBegin(t, height, passing);
    WitnessTrigger(t, [BeginPass(height)] + passing, r);
  }

  lemma WitnessTrigger(t: Scheduler, steps: seq<Step>, r: Ref)
    requires Partition(t) && AllForward(steps) && Times(RunFrom(t, steps).triggered, r) > Times(t.triggered, r)
    ensures CanTrigger(t, r)
  {
  }

  lemma {:induction false} CallsCount(s: Scheduler, refs: seq<Ref>, height: int, r: Ref)
    requires InRange(s.objects, refs) && r in refs && Due(s, r, height)
    ensures Times(Calls(s, refs, height), r) > 0
  {
    CallsWhatIsDue(s, refs, height, r);
    var i :| 0 <= i < |Calls(s, refs, height)| && Calls(s, refs, height)[i] == (r, height);
    TimesPositive(Calls(s, refs, height), r, i);
  }

  lemma {:induction false} RunFromBegin(s: Scheduler, height: int, steps: seq<Step>)
    requires Partition(s) && Validated(steps)
    ensures Partition(Next(s, BeginPass(height)))
    ensures Validated([BeginPass(height)] + steps)
    ensures RunFrom(s, [BeginPass(height)] + steps) == RunFrom(Next(s, BeginPass(height)), steps)
  {
    NextKeepsPartition(s, BeginPass(height));
    RunOne(s, BeginPass(height));
    RunFromConcat(s, [BeginPass(height)], steps);
  }

  // ------------------------------------------------------------------ runs that fail

  /** The states of `SecondTriggerAfterReset`: scheduled, triggered, the first pass over, the second begun. */
  function JustTriggered(name: string, height: int): Scheduler {
    JustScheduled(name, height).(pass := Pass(height, [], Some((0, true))), triggered := [(0, height)])
  }

  function OnceTriggered(name: string, height: int, now: int): Scheduler {
    Scheduler([UpgradeInfo(name, height, InProgress, Some(now), None)], map[name := 0], [0], [], Some(0), NoPass,
              [(0, height)])
  }

  function BegunAgain(name: string, height: int, now: int): Scheduler {
    OnceTriggered(name, height, now).(objects := [UpgradeInfo(name, height, Scheduled, Some(now), None)],
                                      pass := Pass(height, [0], None))
  }

  lemma FirstTrigger(name: string, height: int)
    requires Partition(JustScheduled(name, height)) && WellFormed(Next(JustScheduled(name, height), BeginPass(height)))
    ensures Next(Next(JustScheduled(name, height), BeginPass(height)), Trigger(true)) == JustTriggered(name, height)
  {
    assert Next(JustScheduled(name, height), BeginPass(height)).pass == Pass(height, [0], None);
    assert [0][1..] == [] && [] + [(0, height)] == [(0, height)];
  }

  lemma FirstMark(name: string, height: int, now: int)
    requires Partition(JustTriggered(name, height)) && WellFormed(Next(JustTriggered(name, height), Mark(now, [])))
    ensures Next(Next(JustTriggered(name, height), Mark(now, [])), EndPass) == OnceTriggered(name, height, now)
  {
    var marked := Next(JustTriggered(name, height), Mark(now, []));
    assert marked.objects == [UpgradeInfo(name, height, InProgress, Some(now), None)];
  }

  lemma ResetAndBegin(name: string, height: int, now: int)
    requires Partition(OnceTriggered(name, height, now))
    requires WellFormed(Next(OnceTriggered(name, height, now), Update(name, Scheduled, now, [])))
    ensures Next(Next(OnceTriggered(name, height, now), Update(name, Scheduled, now, [])), BeginPass(height))
         == BegunAgain(name, height, now)
  {
    var reset := Next(OnceTriggered(name, height, now), Update(name, Scheduled, now, []));
    assert reset.objects == [UpgradeInfo(name, height, Scheduled, Some(now), None)];
  }

  lemma SecondTrigger(name: string, height: int, now: int)
    requires WellFormed(BegunAgain(name, height, now))
    ensures Next(BegunAgain(name, height, now), Trigger(true)).triggered == [(0, height), (0, height)]
  {
    assert [(0, height)] + [(0, height)] == [(0, height), (0, height)];
  }

  /** The run of `SecondTriggerAfterReset`, piece by piece. */
  function UntilScheduled(name: string, height: int): seq<Step> {
    [Schedule(ProposalFor(name, height), true, [0])]
  }

  function UntilTriggered(name: string, height: int): seq<Step> {
    UntilScheduled(name, height) + [BeginPass(height), Trigger(true)]
  }

  function UntilPassed(name: string, height: int, now: int): seq<Step> {
    UntilTriggered(name, height) + [Mark(now, []), EndPass]
  }

  function UntilBegunAgain(name: string, height: int, now: int): seq<Step> {
    UntilPassed(name, height, now) + [Update(name, Scheduled, now, []), BeginPass(height)]
  }

  lemma {:induction false} RunsToScheduled(s: Scheduler, name: string, height: int)
    requires name != "" && s == New() && Partition(s)
    ensures Validated(UntilScheduled(name, height))
    ensures RunFrom(s, UntilScheduled(name, height)) == JustScheduled(name, height)
  {
    FirstSchedule(s, name, height);
    RunOneTo(s, Schedule(ProposalFor(name, height), true, [0]), JustScheduled(name, height));
  }

  lemma {:induction false} RunOneTo(s: Scheduler, step: Step, t: Scheduler)
    requires Partition(s) && (step.Schedule? ==> step.validated) && Next(s, step) == t
    ensures Validated([step]) && RunFrom(s, [step]) == t
  {
    assert [step][0] == step;
    RunOne(s, step);
  }

  lemma {:induction false} RunsToTriggered(s: Scheduler, name: string, height: int)
    requires name != "" && s == New() && Partition(s)
    ensures Validated(UntilTriggered(name, height))
    ensures RunFrom(s, UntilTriggered(name, height)) == JustTriggered(name, height)
  {
    RunsToScheduled(s, name, height);
    RunThenTwo(s, UntilScheduled(name, height), BeginPass(height), Trigger(true));
    FirstTrigger(name, height);
  }

  lemma {:induction false} RunsToPassed(s: Scheduler, name: string, height: int, now: int)
    requires name != "" && s == New() && Partition(s)
    ensures Validated(UntilPassed(name, height, now))
    ensures RunFrom(s, UntilPassed(name, height, now)) == OnceTriggered(name, height, now)
  {
    RunsToTriggered(s, name, height);
    RunThenTwo(s, UntilTriggered(name, height), Mark(now, []), EndPass);
    FirstMark(name, height, now);
  }

  lemma {:induction false} RunsToBegunAgain(s: Scheduler, name: string, height: int, now: int)
    requires name != "" && s == New() && Partition(s)
    ensures Validated(UntilBegunAgain(name, height, now))
    ensures RunFrom(s, UntilBegunAgain(name, height, now)) == BegunAgain(name, height, now)
  {
    RunsToPassed(s, name, height, now);
    RunThenTwo(s, UntilPassed(name, height, now), Update(name, Scheduled, now, []), BeginPass(height));
    ResetAndBegin(name, height, now);
  }

  function UntilTriggeredTwice(name: string, height: int, now: int): seq<Step> {
    UntilBegunAgain(name, height, now) + [Trigger(true)]
  }

  lemma {:induction false} RunThenTrigger(s: Scheduler, steps: seq<Step>, t: Scheduler, calls: seq<(Ref, int)>)
    requires Partition(s) && Validated(steps) && RunFrom(s, steps) == t && Next(t, Trigger(true)).triggered == calls
    ensures Validated(steps + [Trigger(true)]) && RunFrom(s, steps + [Trigger(true)]).triggered == calls
  {
    RunFromAppend(s, steps, Trigger(true));
  }

  /** With a reset the same upgrade is triggered twice: it is in progress, set back, and met by the next pass. */
  lemma {:induction false} SecondTriggerAfterReset(s: Scheduler, name: string, height: int, now: int)
    requires s == New() && Partition(s) && name != ""
    ensures Validated(UntilTriggeredTwice(name, height, now))
    ensures RunFrom(s, UntilTriggeredTwice(name, height, now)).triggered == [(0, height), (0, height)]
  {
    RunsToBegunAgain(s, name, height, now);
    SecondTrigger(name, height, now);
    RunThenTrigger(s, UntilBegunAgain(name, height, now), BegunAgain(name, height, now), [(0, height), (0, height)]);
  }

  lemma {:induction false} RunThenTwo(s: Scheduler, steps: seq<Step>, a: Step, b: Step)
    requires Partition(s) && Validated(steps) && !a.Schedule? && !b.Schedule?
    ensures Validated(steps + [a, b]) && WellFormed(Next(RunFrom(s, steps), a))
    ensures RunFrom(s, steps + [a, b]) == Next(Next(RunFrom(s, steps), a), b)
  {
    RunFromConcat(s, steps, [a, b]);
    RunTwo(RunFrom(s, steps), a, b);
  }

  // ------------------------------------------------------------------ the loop

  class Monitor {
    const us: S.UpgradeScheduler

    constructor (us: S.UpgradeScheduler)
      ensures this.us == us
    {
      this.us := us;
    }

    /**
     * processUpgradeQueue, undisturbed; `answers` are the results of triggerUpgrade, one for each call. It
     * calls triggerUpgrade for what is due, in queue order, and writes each answer to the record it is about.
     */
    method ProcessUpgradeQueue(currentHeight: int, answers: nat -> bool, now: int)
      requires Partition(us.Contents()) && us.pass.NoPass?
      modifies us
      ensures Partition(us.Contents()) && us.pass.NoPass?
      ensures us.triggered == old(us.triggered) + Calls(old(us.Contents()), old(us.scheduledQueue), currentHeight)
      ensures Answered(old(us.Contents()), us.Contents(), |old(us.scheduledQueue)|, answers, currentHeight)
      ensures forall i :: 0 <= i < |us.scheduledQueue| ==> !Due(us.Contents(), us.scheduledQueue[i], currentHeight)
      ensures IsUpgradeReady(us.Contents(), currentHeight).None?
      ensures Disciplined(old(us.Contents())) ==> Disciplined(us.Contents())
    {
      ghost var s := us.Contents();
      us.pass := Pass(currentHeight, us.scheduledQueue, None);
      PassBegins(s, answers, currentHeight);
      assert us.Contents() == s.(pass := Pass(currentHeight, s.scheduledQueue, None));
      VisitAll(s, answers, now);
      ghost var t := us.Contents();
      PassFinished(s, t, answers, currentHeight);
      us.pass := NoPass;
      assert us.Contents() == t.(pass := NoPass);
    }

    /** The loop. */
    method VisitAll(ghost s: Scheduler, answers: nat -> bool, now: int)
      requires us.pass.Pass? && Partition(s) && Partition(us.Contents())
      requires BetweenVisits(s, us.Contents(), answers, us.pass.height)
      modifies us
      ensures us.pass.Pass? && us.pass.rest == [] && Partition(us.Contents())
      ensures BetweenVisits(s, us.Contents(), answers, old(us.pass).height)
      ensures Disciplined(old(us.Contents())) ==> Disciplined(us.Contents())
    {
      while us.pass.rest != []
        invariant us.pass.Pass? && us.pass.height == old(us.pass).height && Partition(us.Contents())
        invariant BetweenVisits(s, us.Contents(), answers, us.pass.height)
        invariant Disciplined(old(us.Contents())) ==> Disciplined(us.Contents())
        decreases |us.pass.rest|
      {
        VisitNext(s, answers, now);
      }
    }

    /** The body of the loop; `s` is the state in which the pass began. */
    method VisitNext(ghost s: Scheduler, answers: nat -> bool, now: int)
      requires us.pass.Pass? && us.pass.rest != [] && Partition(s) && Partition(us.Contents())
      requires BetweenVisits(s, us.Contents(), answers, us.pass.height)
      modifies us
      ensures Partition(us.Contents())
      ensures us.pass.Pass? && us.pass.height == old(us.pass).height && us.pass.rest == old(us.pass).rest[1..]
      ensures BetweenVisits(s, us.Contents(), answers, us.pass.height)
      ensures Disciplined(old(us.Contents())) ==> Disciplined(us.Contents())
    {
      ghost var t := us.Contents();
      TriggerNext(answers(|us.triggered|));
      ghost var u := us.Contents();
      if us.pass.hand.Some? {
        TriggerUndisturbed(s, t, t.pass.height, answers(|t.triggered|));
        HandIsOwned(s, u, t.pass.height);
        MarkHand(now);
        MarkEffect(u, now, us.completedQueue);
        VisitMarks(s, t, u, us.Contents(), answers, t.pass.height);
      } else {
        VisitSkips(s, t, answers, t.pass.height, answers(|t.triggered|));
      }
    }

    method TriggerNext(ok: bool)
      requires us.pass.Pass? && us.pass.hand.None? && us.pass.rest != [] && Partition(us.Contents())
      modifies us`pass, us`triggered
      ensures us.Contents() == Next(old(us.Contents()), Trigger(ok)) && Partition(us.Contents())
      ensures us.pass.Pass? && us.pass.height == old(us.pass).height && us.pass.rest == old(us.pass).rest[1..]
      ensures Disciplined(old(us.Contents())) ==> Disciplined(us.Contents())
    {
      ghost var s := us.Contents();
      NextKeepsPartition(s, Trigger(ok));
      if Disciplined(s) {
        TriggerKeepsDiscipline(s, ok);
      }
      var r := us.pass.rest[0];
      us.pass := us.pass.(rest := us.pass.rest[1..]);
      if us.objects[r].height <= us.pass.height && us.objects[r].status == Scheduled {
        us.triggered := us.triggered + [(r, us.pass.height)];
        us.pass := us.pass.(hand := Some((r, ok)));
      }
    }

    method MarkHand(now: int)
      requires us.pass.Pass? && us.pass.hand.Some? && Partition(us.Contents())
      modifies us
      ensures Partition(us.Contents()) && us.pass == old(us.pass).(hand := None)
      ensures us.Contents() == Next(old(us.Contents()), Mark(now, us.completedQueue))
      ensures Disciplined(old(us.Contents())) ==> Disciplined(us.Contents())
    {
      ghost var s := us.Contents();
      var name, status := WriteThroughHand();
      ghost var t := us.Contents();
      var found := us.UpdateStatus(name, status, now);
      assert found ==> UpdatedRecord(t, t.upgrades[name], status, now, us.completedQueue) == Some(us.Contents());
      assert Marked(s, now, us.completedQueue) == Some(us.Contents());
      MarkKeepsPass(s, now, us.completedQueue);
      if Disciplined(s) {
        DisciplineIffNoReset(s, Mark(now, us.completedQueue));
      }
    }

    /** The loop's own write through the pointer it holds. */
    method WriteThroughHand() returns (name: string, status: Status)
      requires Partition(us.Contents()) && us.pass.Pass? && us.pass.hand.Some?
      modifies us`objects, us`pass
      ensures var (r, ok) := old(us.pass).hand.value;
              && name == old(us.objects)[r].name && status == (if ok then InProgress else Failed)
              && us.objects == old(us.objects)[r := old(us.objects)[r].(status := status)]
                  && us.pass == old(us.pass).(hand := None)
      ensures Partition(us.Contents())
    {
      ghost var s := us.Contents();
      var (r, ok) := us.pass.hand.value;
      name, status := us.objects[r].name, if ok then InProgress else Failed;
      WriteKeepsPartition(s, r, us.objects[r].(status := status));
      us.objects := us.objects[r := us.objects[r].(status := status)];
      us.pass := us.pass.(hand := None);
      PartitionFrame(SetObject(s, r, s.objects[r].(status := status)), us.Contents());
    }
  }
}
