/**
 * The governance upgrade scheduler of internal/governance/scheduler.go, and the monitor's pass over its
 * queue in internal/governance/monitor.go.
 *
 * The Go code shares *UpgradeInfo pointers between the map, the two queues and the monitor. Here the
 * records live in `objects` and a pointer is an index into it; records are numbered as they are accepted.
 * sort.Slice is not stable, so the order of equal elements is an input of the step (`sorted`); a step
 * whose `sorted` is not a possible result of the sort is not enabled and changes nothing.
 */
module UpgradeScheduler {
  import opened Sequences

  type Ref = nat

  datatype Status = Scheduled | InProgress | Completed | Failed | Cancelled

  datatype UpgradeInfo = UpgradeInfo(
      name: string, height: int, status: Status, startedTime: Option<int>, completedTime: Option<int>)

  datatype Binary = Binary(url: string, checksum: string)

  /** What a proposal says about its upgrade; the height to upgrade at is a field of the proposal itself. */
  datatype Plan = Plan(name: string, height: int, binaries: map<string, Binary>)

  datatype Proposal = Proposal(isUpgrade: bool, info: Option<Plan>, upgradeHeight: int)

  /** A pass of the monitor: the copy of the queue still to visit, and an upgrade triggered but not yet marked. */
  datatype Pass = NoPass | Pass(height: int, rest: seq<Ref>, hand: Option<(Ref, bool)>)

  datatype Scheduler = Scheduler(
    objects: seq<UpgradeInfo>,
    upgrades: map<string, Ref>,
    scheduledQueue: seq<Ref>,
    completedQueue: seq<Ref>,
    currentUpgrade: Option<Ref>,
    pass: Pass,
    triggered: seq<(Ref, int)>) // history: calls of triggerUpgrade, with the height of the pass

  datatype Step =
    | Schedule(proposal: Proposal, validated: bool, sorted: seq<Ref>)
    | Update(name: string, status: Status, now: int, sorted: seq<Ref>)
    | Cancel(name: string, now: int, sorted: seq<Ref>)
    | CleanupOld(cutoff: int)
    | BeginPass(height: int)
    | Trigger(ok: bool)                // visit the next upgrade of the copy; `ok` is triggerUpgrade's result
    | Mark(now: int, sorted: seq<Ref>) // write its status and call UpdateStatus
    | EndPass

  function New(): Scheduler {
    Scheduler([], map[], [], [], None, NoPass, [])
  }

  predicate InRange(objects: seq<UpgradeInfo>, refs: seq<Ref>) {
    forall i :: 0 <= i < |refs| ==> refs[i] < |objects|
  }

  /** Every pointer points to a record. */
  ghost predicate WellFormed(s: Scheduler) {
    && (forall name :: name in s.upgrades ==> s.upgrades[name] < |s.objects|)
    && InRange(s.objects, s.scheduledQueue)
    && InRange(s.objects, s.completedQueue)
    && (s.pass.Pass? ==> InRange(s.objects, s.pass.rest))
    && (s.pass.Pass? && s.pass.hand.Some? ==> s.pass.hand.value.0 < |s.objects|)
    && (forall i :: 0 <= i < |s.triggered| ==> s.triggered[i].0 < |s.objects|)
  }

  predicate ValidPlan(upgrades: map<string, Ref>, plan: Plan) {
    && plan.name != ""
    && plan.name !in upgrades
    && plan.height > 0
    && forall platform :: platform in plan.binaries ==>
         plan.binaries[platform].url != "" && plan.binaries[platform].checksum != ""
  }

  predicate Accepts(s: Scheduler, p: Proposal, validated: bool) {
    p.isUpgrade && p.info.Some? && (validated ==> ValidPlan(s.upgrades, p.info.value))
  }

  predicate SortedByHeight(objects: seq<UpgradeInfo>, refs: seq<Ref>)
    requires InRange(objects, refs)
  {
    forall i, j :: 0 <= i < j < |refs| ==> objects[refs[i]].height <= objects[refs[j]].height
  }

  predicate HaveTime(objects: seq<UpgradeInfo>, refs: seq<Ref>)
    requires InRange(objects, refs)
  {
    forall i :: 0 <= i < |refs| ==> objects[refs[i]].completedTime.Some?
  }

  /** Newest completion first. */
  predicate SortedByTime(objects: seq<UpgradeInfo>, refs: seq<Ref>)
    requires InRange(objects, refs) && HaveTime(objects, refs)
  {
    forall i, j :: 0 <= i < j < |refs| ==> objects[refs[i]].completedTime.value >= objects[refs[j]].completedTime.value
  }

  predicate PossibleQueue(s: Scheduler, objects: seq<UpgradeInfo>, sorted: seq<Ref>) {
    && multiset(sorted) == multiset(s.scheduledQueue + [|s.objects|])
    && InRange(objects, sorted) && SortedByHeight(objects, sorted)
  }

  function Enqueued(s: Scheduler, p: Proposal, sorted: seq<Ref>): Scheduler
    requires p.info.Some?
  {
    var objects := s.objects + [UpgradeInfo(p.info.value.name, p.upgradeHeight, Scheduled, None, None)];
    if PossibleQueue(s, objects, sorted) then
      s.(objects := objects, upgrades := s.upgrades[p.info.value.name := |s.objects|], scheduledQueue := sorted)
    else s
  }

  /** The scan of moveToCompleted: the first queue entry of that name goes. */
  function RemoveFirstNamed(objects: seq<UpgradeInfo>, refs: seq<Ref>, name: string): seq<Ref>
    requires InRange(objects, refs)
  {
    if refs == [] then []
    else if objects[refs[0]].name == name then refs[1..]
    else [refs[0]] + RemoveFirstNamed(objects, refs[1..], name)
  }

  predicate PossibleMove(s: Scheduler, r: Ref, sorted: seq<Ref>) {
    && multiset(sorted) == multiset(s.completedQueue + [r])
    && InRange(s.objects, sorted) && HaveTime(s.objects, sorted) && SortedByTime(s.objects, sorted)
  }

  function MoveToCompleted(s: Scheduler, r: Ref, sorted: seq<Ref>): Scheduler
    requires r < |s.objects| && InRange(s.objects, s.scheduledQueue)
  {
    s.(scheduledQueue := RemoveFirstNamed(s.objects, s.scheduledQueue, s.objects[r].name), completedQueue := sorted)
  }

  function SetObject(s: Scheduler, r: Ref, u: UpgradeInfo): Scheduler
    requires r < |s.objects|
  {
    s.(objects := s.objects[r := u])
  }

  predicate Final(status: Status) {
    status.Completed? || status.Failed? || status.Cancelled?
  }

  /** The record after UpdateStatus; the first time of each kind is kept. */
  function Stamped(u: UpgradeInfo, status: Status, now: int): UpgradeInfo {
    u.(status := status,
       startedTime := if status.InProgress? && u.startedTime.None? then Some(now) else u.startedTime,
       completedTime := if Final(status) && u.completedTime.None? then Some(now) else u.completedTime)
  }

  /** UpdateStatus for a known name, or None if `sorted` cannot be the sorted completed queue. */
  function UpdatedRecord(s: Scheduler, r: Ref, status: Status, now: int, sorted: seq<Ref>): Option<Scheduler>
    requires r < |s.objects| && InRange(s.objects, s.scheduledQueue)
  {
    var t := SetObject(s, r, Stamped(s.objects[r], status, now));
    if status.InProgress? then Some(t.(currentUpgrade := Some(r)))
    else if !Final(status) then Some(t)
    else if PossibleMove(t, r, sorted) then Some(MoveToCompleted(t.(currentUpgrade := None), r, sorted))
    else None
  }

  function OrElse(t: Option<Scheduler>, s: Scheduler): Scheduler {
    if t.Some? then t.value else s
  }

  ghost function CancelledRecord(s: Scheduler, r: Ref, now: int, sorted: seq<Ref>): Option<Scheduler>
    requires r < |s.objects| && InRange(s.objects, s.scheduledQueue)
  {
    var t := SetObject(s, r, s.objects[r].(status := Cancelled, completedTime := Some(now)));
    if s.objects[r].status.InProgress? || !PossibleMove(t, r, sorted) then None else Some(MoveToCompleted(t, r, sorted))
  }

  predicate Old(u: UpgradeInfo, cutoff: int) {
    u.completedTime.Some? && u.completedTime.value < cutoff
  }

  function OldNames(objects: seq<UpgradeInfo>, refs: seq<Ref>, cutoff: int): set<string>
    requires InRange(objects, refs)
  {
    set i | 0 <= i < |refs| && Old(objects[refs[i]], cutoff) :: objects[refs[i]].name
  }

  function Recent(objects: seq<UpgradeInfo>, refs: seq<Ref>, cutoff: int): seq<Ref>
    requires InRange(objects, refs)
  {
    if refs == [] then []
    else (if Old(objects[refs[0]], cutoff) then [] else [refs[0]]) + Recent(objects, refs[1..], cutoff)
  }

  predicate Due(s: Scheduler, r: Ref, height: int)
    requires r < |s.objects|
  {
    s.objects[r].height <= height && s.objects[r].status.Scheduled?
  }

  function Triggered(s: Scheduler, ok: bool): Scheduler
    requires s.pass.Pass? && s.pass.hand.None? && s.pass.rest != [] && InRange(s.objects, s.pass.rest)
  {
    var r, rest := s.pass.rest[0], s.pass.(rest := s.pass.rest[1..]);
    if Due(s, r, s.pass.height) then
      s.(pass := rest.(hand := Some((r, ok))), triggered := s.triggered + [(r, s.pass.height)])
    else s.(pass := rest)
  }

  /** The monitor writes the status through its pointer, then UpdateStatus looks the name up again. */
  ghost function Marked(s: Scheduler, now: int, sorted: seq<Ref>): Option<Scheduler>
    requires WellFormed(s) && s.pass.Pass? && s.pass.hand.Some?
  {
    var (r, ok) := s.pass.hand.value;
    var status := if ok then InProgress else Failed;
    var t := SetObject(s, r, s.objects[r].(status := status)).(pass := s.pass.(hand := None));
    var name := s.objects[r].name;
    if name in s.upgrades then UpdatedRecord(t, s.upgrades[name], status, now, sorted) else Some(t)
  }

  ghost function Next(s: Scheduler, step: Step): Scheduler
    requires WellFormed(s)
  {
    match step
    case Schedule(p, validated, sorted) => if Accepts(s, p, validated) then Enqueued(s, p, sorted) else s
    case Update(name, status, now, sorted) =>
      if name in s.upgrades then OrElse(UpdatedRecord(s, s.upgrades[name], status, now, sorted), s) else s
    case Cancel(name, now, sorted) =>
      if name in s.upgrades then OrElse(CancelledRecord(s, s.upgrades[name], now, sorted), s) else s
    case CleanupOld(cutoff) =>
      s.(upgrades := s.upgrades - OldNames(s.objects, s.completedQueue, cutoff),
         completedQueue := Recent(s.objects, s.completedQueue, cutoff))
    case BeginPass(height) => if s.pass.NoPass? then s.(pass := Pass(height, s.scheduledQueue, None)) else s
    case Trigger(ok) => if s.pass.Pass? && s.pass.hand.None? && s.pass.rest != [] then Triggered(s, ok) else s
    case Mark(now, sorted) => if s.pass.Pass? && s.pass.hand.Some? then OrElse(Marked(s, now, sorted), s) else s
    case EndPass => if s.pass.Pass? && s.pass.hand.None? && s.pass.rest == [] then s.(pass := NoPass) else s
  }

  // ------------------------------------------------------------------ the partition

  /** `r` is the map's own record of its name. */
  ghost predicate Owned(s: Scheduler, r: Ref)
    requires r < |s.objects|
  {
    s.objects[r].name in s.upgrades && s.upgrades[s.objects[r].name] == r
  }

  /**
   * The queue is sorted, its names are unique, and both queues hold only the map's own records; no record
   * is in both; together they hold exactly the map's names.
   */
  ghost predicate Partition(s: Scheduler) {
    && WellFormed(s)
    && SortedByHeight(s.objects, s.scheduledQueue)
    && Distinct(s.scheduledQueue)
    && (forall r :: r in s.scheduledQueue ==> r < |s.objects| && Owned(s, r) && r !in s.completedQueue)
    && (forall r :: r in s.completedQueue ==> r < |s.objects| && Owned(s, r) && s.objects[r].completedTime.Some?)
    && (forall name :: name in s.upgrades ==>
          && s.objects[s.upgrades[name]].name == name
          && (s.upgrades[name] in s.scheduledQueue || s.upgrades[name] in s.completedQueue))
  }

  /** The partition does not depend on the pass, the current upgrade or the history. */
  lemma PartitionFrame(s: Scheduler, t: Scheduler)
    requires Partition(s) && WellFormed(t) && t.objects == s.objects && t.upgrades == s.upgrades
    requires t.scheduledQueue == s.scheduledQueue && t.completedQueue == s.completedQueue
    ensures Partition(t)
  {
    forall r | r in s.scheduledQueue || r in s.completedQueue
      ensures r < |s.objects| && Owned(s, r) && Owned(t, r)
    {
    }
  }

  lemma {:induction false} RemoveIsWithout(s: Scheduler, r: Ref)
    requires Partition(s) && r < |s.objects| && Owned(s, r)
    ensures RemoveFirstNamed(s.objects, s.scheduledQueue, s.objects[r].name) == Without(s.scheduledQueue, r)
  {
    RemoveIsWithoutFrom(s.objects, s.scheduledQueue, r);
  }

  lemma {:induction false} RemoveIsWithoutFrom(objects: seq<UpgradeInfo>, refs: seq<Ref>, r: Ref)
    requires InRange(objects, refs) && r < |objects| && Distinct(refs)
    requires forall i :: 0 <= i < |refs| ==> (objects[refs[i]].name == objects[r].name <==> refs[i] == r)
    ensures RemoveFirstNamed(objects, refs, objects[r].name) == Without(refs, r)
  {
    if refs != [] {
      if refs[0] == r {
        WithoutMembers(refs[1..], r);
      } else {
        RemoveIsWithoutFrom(objects, refs[1..], r);
      }
    }
  }

  lemma {:induction false} EnqueueKeepsPartition(s: Scheduler, p: Proposal, sorted: seq<Ref>)
    requires Partition(s) && p.info.Some? && p.info.value.name !in s.upgrades
    ensures Partition(Enqueued(s, p, sorted))
  {
    var t, r := Enqueued(s, p, sorted), |s.objects|;
    if t != s {
      Permutation(s.scheduledQueue + [r], sorted);
      assert forall x :: x in sorted <==> x in s.scheduledQueue || x == r;
      forall x | x in t.completedQueue
        ensures x < |t.objects| && Owned(t, x) && t.objects[x].completedTime.Some?
      {
        assert Owned(s, x);
      }
      forall x | x in t.scheduledQueue
        ensures x < |t.objects| && Owned(t, x) && x !in t.completedQueue
      {
        assert x in s.scheduledQueue ==> Owned(s, x);
      }
    }
  }

  /** Writing status and times of one record in place. */
  lemma {:induction false} WriteKeepsPartition(s: Scheduler, r: Ref, u: UpgradeInfo)
    requires Partition(s) && r < |s.objects| && u.name == s.objects[r].name && u.height == s.objects[r].height
    requires s.objects[r].completedTime.Some? ==> u.completedTime.Some?
    ensures Partition(SetObject(s, r, u))
  {
    var t := SetObject(s, r, u);
    forall x | x in t.completedQueue
      ensures x < |t.objects| && Owned(t, x) && t.objects[x].completedTime.Some?
    {
      assert Owned(s, x);
    }
    forall x | x in t.scheduledQueue
      ensures x < |t.objects| && Owned(t, x) && x !in t.completedQueue
    {
      assert Owned(s, x);
    }
  }

  lemma {:induction false} MoveKeepsPartition(s: Scheduler, r: Ref, sorted: seq<Ref>)
    requires Partition(s) && r < |s.objects| && Owned(s, r) && s.objects[r].completedTime.Some?
    requires PossibleMove(s, r, sorted)
    ensures Partition(MoveToCompleted(s, r, sorted))
    ensures MoveToCompleted(s, r, sorted).scheduledQueue == Without(s.scheduledQueue, r)
  {
    var t := MoveToCompleted(s, r, sorted);
    RemoveIsWithout(s, r) by {
      assert forall i :: 0 <= i < |s.scheduledQueue| ==> s.scheduledQueue[i] in s.scheduledQueue;
    }
    WithoutMembers(s.scheduledQueue, r);
    WithoutDistinct(s.scheduledQueue, r);
    WithoutSorted(s.objects, s.scheduledQueue, r);
    Permutation(s.completedQueue + [r], sorted);
    assert forall x :: x in sorted <==> x in s.completedQueue || x == r;
    forall x | x in t.scheduledQueue
      ensures x < |t.objects| && Owned(t, x) && x !in t.completedQueue
    {
      assert Owned(s, x);
    }
    forall x | x in t.completedQueue
      ensures x < |t.objects| && Owned(t, x) && t.objects[x].completedTime.Some?
    {
      assert Owned(s, x);
    }
  }

  lemma {:induction false} WithoutSorted(objects: seq<UpgradeInfo>, refs: seq<Ref>, r: Ref)
    requires InRange(objects, refs) && SortedByHeight(objects, refs)
    ensures InRange(objects, Without(refs, r)) && SortedByHeight(objects, Without(refs, r))
  {
    if refs != [] {
      WithoutSorted(objects, refs[1..], r);
      var rest, kept := Without(refs[1..], r), Without(refs, r);
      WithoutMembers(refs[1..], r);
      if refs[0] != r {
        assert kept == [refs[0]] + rest;
        forall j | 0 <= j < |rest|
          ensures rest[j] < |objects| && objects[refs[0]].height <= objects[rest[j]].height
        {
          assert rest[j] in refs[1..];
          var i :| 0 <= i < |refs[1..]| && refs[1..][i] == rest[j];
          assert refs[i + 1] == rest[j];
        }
        forall i, j | 0 <= i < j < |kept|
          ensures kept[i] < |objects| && kept[j] < |objects| && objects[kept[i]].height <= objects[kept[j]].height
        {
          assert kept[j] == rest[j - 1];
          if i > 0 {
            assert kept[i] == rest[i - 1];
          }
        }
      }
    }
  }

  lemma {:induction false} UpdateKeepsPartition(s: Scheduler, name: string, status: Status, now: int, sorted: seq<Ref>)
    requires Partition(s) && name in s.upgrades
    ensures Partition(OrElse(UpdatedRecord(s, s.upgrades[name], status, now, sorted), s))
  {
    var r := s.upgrades[name];
    var u := Stamped(s.objects[r], status, now);
    var t := SetObject(s, r, u);
    WriteKeepsPartition(s, r, u);
    if Final(status) && PossibleMove(t, r, sorted) {
      assert Partition(t.(currentUpgrade := None));
      MoveKeepsPartition(t.(currentUpgrade := None), r, sorted);
    }
  }

  lemma {:induction false} CancelKeepsPartition(s: Scheduler, name: string, now: int, sorted: seq<Ref>)
    requires Partition(s) && name in s.upgrades
    ensures Partition(OrElse(CancelledRecord(s, s.upgrades[name], now, sorted), s))
  {
    var r := s.upgrades[name];
    var u := s.objects[r].(status := Cancelled, completedTime := Some(now));
    WriteKeepsPartition(s, r, u);
    if PossibleMove(SetObject(s, r, u), r, sorted) {
      MoveKeepsPartition(SetObject(s, r, u), r, sorted);
    }
  }

  lemma {:induction false} RecentMembers(objects: seq<UpgradeInfo>, refs: seq<Ref>, cutoff: int)
    requires InRange(objects, refs)
    ensures InRange(objects, Recent(objects, refs, cutoff))
    ensures forall r :: r in Recent(objects, refs, cutoff) <==> r in refs && r < |objects| && !Old(objects[r], cutoff)
    ensures |Recent(objects, refs, cutoff)| <= |refs|
  {
    if refs != [] {
      RecentMembers(objects, refs[1..], cutoff);
      assert refs == [refs[0]] + refs[1..];
    }
  }

  /** CleanupOld deletes the name of a record exactly if that record is an old completed one. */
  lemma {:induction false} DeletedNames(s: Scheduler, x: Ref, cutoff: int)
    requires Partition(s) && x < |s.objects| && Owned(s, x)
    ensures s.objects[x].name in OldNames(s.objects, s.completedQueue, cutoff) <==>
        x in s.completedQueue && Old(s.objects[x], cutoff)
  {
    forall i | 0 <= i < |s.completedQueue|
      ensures s.objects[s.completedQueue[i]].name == s.objects[x].name <==> s.completedQueue[i] == x
    {
      assert s.completedQueue[i] in s.completedQueue && Owned(s, s.completedQueue[i]);
    }
  }

  lemma {:induction false} CleanupKeepsPartition(s: Scheduler, cutoff: int)
    requires Partition(s)
    ensures Partition(Next(s, CleanupOld(cutoff)))
  {
    var t := Next(s, CleanupOld(cutoff));
    RecentMembers(s.objects, s.completedQueue, cutoff);
    forall x | x in s.scheduledQueue || x in t.completedQueue
      ensures x < |t.objects| && Owned(t, x)
    {
      DeletedNames(s, x, cutoff);
    }
    forall name | name in t.upgrades
      ensures t.objects[t.upgrades[name]].name == name
           && (t.upgrades[name] in t.scheduledQueue || t.upgrades[name] in t.completedQueue)
    {
      DeletedNames(s, s.upgrades[name], cutoff);
    }
  }

  lemma {:induction false} MarkKeepsPartition(s: Scheduler, now: int, sorted: seq<Ref>)
    requires Partition(s) && s.pass.Pass? && s.pass.hand.Some?
    ensures Partition(OrElse(Marked(s, now, sorted), s))
  {
    var (r, ok) := s.pass.hand.value;
    var status := if ok then InProgress else Failed;
    var u := s.objects[r].(status := status);
    WriteKeepsPartition(s, r, u);
    var t := SetObject(s, r, u).(pass := s.pass.(hand := None));
    PartitionFrame(SetObject(s, r, u), t);
    if s.objects[r].name in s.upgrades {
      UpdateKeepsPartition(t, s.objects[r].name, status, now, sorted);
    }
  }

  predicate Visits(step: Step) {
    step.BeginPass? || step.Trigger? || step.EndPass?
  }

  lemma VisitKeepsPartition(s: Scheduler, step: Step)
    requires Partition(s) && Visits(step)
    ensures Partition(Next(s, step))
  {
    PartitionFrame(s, Next(s, step));
  }

  /** With validation enabled every step keeps the partition. */
  lemma {:induction false} NextKeepsPartition(s: Scheduler, step: Step)
    requires Partition(s) && (step.Schedule? ==> step.validated)
    ensures Partition(Next(s, step))
  {
    match step
    case Schedule(p, validated, sorted) => if Accepts(s, p, validated) { EnqueueKeepsPartition(s, p, sorted); }
    case Update(name, status, now, sorted) =>
      if name in s.upgrades {
        UpdateKeepsPartition(s, name, status, now, sorted);
      }
    case Cancel(name, now, sorted) => if name in s.upgrades { CancelKeepsPartition(s, name, now, sorted); }
    case CleanupOld(cutoff) => CleanupKeepsPartition(s, cutoff);
    case Mark(now, sorted) => if s.pass.Pass? && s.pass.hand.Some? { MarkKeepsPartition(s, now, sorted); }
    case _ => VisitKeepsPartition(s, step);
  }

  /** Without validation a schedule keeps the partition exactly if the name is new. */
  lemma {:induction false} UnvalidatedSchedule(s: Scheduler, p: Proposal, sorted: seq<Ref>)
    requires Partition(s) && Accepts(s, p, false) && Enqueued(s, p, sorted) != s
    ensures Partition(Next(s, Schedule(p, false, sorted))) <==> p.info.value.name !in s.upgrades
  {
    var name, t := p.info.value.name, Enqueued(s, p, sorted);
    if name in s.upgrades {
      var r := s.upgrades[name];
      Permutation(s.scheduledQueue + [|s.objects|], sorted);
      assert r in t.scheduledQueue || r in t.completedQueue;
      assert t.objects[r].name == name && t.upgrades[name] != r;
      assert !Owned(t, r);
    } else {
      EnqueueKeepsPartition(s, p, sorted);
    }
  }

  // ------------------------------------------------------------------ finished twice

  /** The step is carried out, and moves a record to the completed queue that is there already. */
  ghost predicate FinishesAgain(s: Scheduler, step: Step)
    requires WellFormed(s)
  {
    && Next(s, step) != s
    && match step
       case Update(name, status, _, _) =>
         Final(status) && name in s.upgrades && s.upgrades[name] in s.completedQueue
       case Cancel(name, _, _) => name in s.upgrades && s.upgrades[name] in s.completedQueue
       case Mark(_, _) =>
         && s.pass.Pass? && s.pass.hand.Some? && !s.pass.hand.value.1
         && var name := s.objects[s.pass.hand.value.0].name;
            name in s.upgrades && s.upgrades[name] in s.completedQueue
       case _ => false
  }

  lemma {:induction false} MoveKeepsDistinct(s: Scheduler, r: Ref, sorted: seq<Ref>)
    requires Distinct(s.completedQueue) && PossibleMove(s, r, sorted)
    ensures Distinct(sorted) <==> r !in s.completedQueue
  {
    var all := s.completedQueue + [r];
    Permutation(all, sorted);
    Permutation(sorted, all);
    assert all[|s.completedQueue|] == r;
    assert forall i :: 0 <= i < |s.completedQueue| ==> all[i] == s.completedQueue[i];
  }

  lemma {:induction false} RecentDistinct(objects: seq<UpgradeInfo>, refs: seq<Ref>, cutoff: int)
    requires InRange(objects, refs) && Distinct(refs)
    ensures Distinct(Recent(objects, refs, cutoff))
  {
    if refs != [] {
      RecentDistinct(objects, refs[1..], cutoff);
      RecentMembers(objects, refs[1..], cutoff);
      assert refs[0] !in refs[1..];
    }
  }

  lemma {:induction false} RecordCompletedOnce(s: Scheduler, r: Ref, status: Status, now: int, sorted: seq<Ref>)
    requires WellFormed(s) && r < |s.objects| && Distinct(s.completedQueue)
    ensures var t := UpdatedRecord(s, r, status, now, sorted);
            && (t.Some? && Final(status) ==>
                  && t.value.completedQueue != s.completedQueue
                  && (Distinct(t.value.completedQueue) <==> r !in s.completedQueue))
            && (t.Some? && !Final(status) ==> t.value.completedQueue == s.completedQueue)
            && (t.None? ==> Final(status))
  {
    var t := SetObject(s, r, Stamped(s.objects[r], status, now));
    if Final(status) && PossibleMove(t, r, sorted) {
      MoveKeepsDistinct(t, r, sorted);
      SameSize(s.completedQueue + [r], sorted);
    }
  }

  lemma {:induction false} CancelCompletedOnce(s: Scheduler, r: Ref, now: int, sorted: seq<Ref>)
    requires WellFormed(s) && r < |s.objects| && Distinct(s.completedQueue)
    ensures var t := CancelledRecord(s, r, now, sorted);
            t.Some? ==>
              && t.value.completedQueue != s.completedQueue
              && (Distinct(t.value.completedQueue) <==> r !in s.completedQueue)
  {
    var t := SetObject(s, r, s.objects[r].(status := Cancelled, completedTime := Some(now)));
    if PossibleMove(t, r, sorted) {
      MoveKeepsDistinct(t, r, sorted);
      SameSize(s.completedQueue + [r], sorted);
    }
  }

  /** A step keeps the completed queue free of duplicates exactly if it finishes no record again. */
  lemma {:induction false} CompletedOnceIff(s: Scheduler, step: Step)
    requires WellFormed(s) && Distinct(s.completedQueue)
    ensures Distinct(Next(s, step).completedQueue) <==> !FinishesAgain(s, step)
  {
    match step
    case Update(name, status, now, sorted) =>
      if name in s.upgrades {
        RecordCompletedOnce(s, s.upgrades[name], status, now, sorted);
      }
    case Cancel(name, now, sorted) =>
      if name in s.upgrades {
        CancelCompletedOnce(s, s.upgrades[name], now, sorted);
      }
    case CleanupOld(cutoff) => RecentDistinct(s.objects, s.completedQueue, cutoff);
    case Mark(now, sorted) =>
      if s.pass.Pass? && s.pass.hand.Some? {
        MarkCompletedOnce(s, now, sorted);
      }
    case _ =>
  }

  lemma {:induction false} MarkCompletedOnce(s: Scheduler, now: int, sorted: seq<Ref>)
    requires WellFormed(s) && s.pass.Pass? && s.pass.hand.Some? && Distinct(s.completedQueue)
    ensures Distinct(Next(s, Mark(now, sorted)).completedQueue) <==> !FinishesAgain(s, Mark(now, sorted))
  {
    var (r, ok) := s.pass.hand.value;
    var status := if ok then InProgress else Failed;
    var t := SetObject(s, r, s.objects[r].(status := status)).(pass := s.pass.(hand := None));
    if s.objects[r].name in s.upgrades {
      RecordCompletedOnce(t, s.upgrades[s.objects[r].name], status, now, sorted);
    }
  }

  lemma {:induction false} SizeOfValues(upgrades: map<string, Ref>)
    requires forall a, b :: a in upgrades && b in upgrades && a != b ==> upgrades[a] != upgrades[b]
    ensures |upgrades.Values| == |upgrades|
    decreases |upgrades|
  {
    if upgrades.Keys != {} {
      var name :| name in upgrades;
      var rest := upgrades - {name};
      assert upgrades == rest[name := upgrades[name]];
      assert upgrades.Values == rest.Values + {upgrades[name]};
      assert upgrades[name] !in rest.Values;
      SizeOfValues(rest);
    } else {
      assert upgrades == map[];
    }
  }

  lemma {:induction false} QueuesHoldTheMap(s: Scheduler)
    requires Partition(s)
    ensures s.upgrades.Values == ToSet(s.scheduledQueue) + ToSet(s.completedQueue)
    ensures ToSet(s.scheduledQueue) !! ToSet(s.completedQueue)
  {
    forall r | r in s.scheduledQueue || r in s.completedQueue
      ensures r in s.upgrades.Values
    {
      assert Owned(s, r);
    }
  }

  lemma {:induction false} MapIsInjective(s: Scheduler, a: string, b: string)
    requires Partition(s) && a in s.upgrades && b in s.upgrades && a != b
    ensures s.upgrades[a] != s.upgrades[b]
  {
  }

  /** The statistics of the two queues add up to the number of upgrades exactly if none was finished twice. */
  lemma {:induction false} QueuesAddUpIff(s: Scheduler)
    requires Partition(s)
    ensures |s.upgrades| <= |s.scheduledQueue| + |s.completedQueue|
    ensures |s.upgrades| == |s.scheduledQueue| + |s.completedQueue| <==> Distinct(s.completedQueue)
  {
    assert |s.upgrades.Values| == |s.upgrades| by {
      forall a, b | a in s.upgrades && b in s.upgrades && a != b
        ensures s.upgrades[a] != s.upgrades[b]
      {
        MapIsInjective(s, a, b);
      }
      SizeOfValues(s.upgrades);
    }
    QueuesHoldTheMap(s);
    SizesAdd(s.scheduledQueue, s.completedQueue);
  }

  lemma {:induction false} SizesAdd(a: seq<Ref>, b: seq<Ref>)
    requires Distinct(a) && ToSet(a) !! ToSet(b)
    ensures |ToSet(a) + ToSet(b)| <= |a| + |b|
    ensures |ToSet(a) + ToSet(b)| == |a| + |b| <==> Distinct(b)
  {
    SizeOfToSet(a);
    SizeOfToSet(b);
    assert |ToSet(a) + ToSet(b)| == |ToSet(a)| + |ToSet(b)|;
  }

  // ------------------------------------------------------------------ what each call means

  /** Every record but `r` is as it was. */
  ghost predicate OthersStay(s: Scheduler, t: Scheduler, r: Ref) {
    |t.objects| == |s.objects| && forall q :: 0 <= q < |s.objects| && q != r ==> t.objects[q] == s.objects[q]
  }

  /** The record leaves the scheduled queue, if it is there, and joins the completed one, newest first. */
  ghost predicate Moves(s: Scheduler, t: Scheduler, r: Ref) {
    && t.scheduledQueue == Without(s.scheduledQueue, r)
    && multiset(t.completedQueue) == multiset(s.completedQueue + [r])
    && InRange(t.objects, t.completedQueue)
    && (forall i :: 0 <= i < |t.completedQueue| ==> t.objects[t.completedQueue[i]].completedTime.Some?)
    && forall i, j :: 0 <= i < j < |t.completedQueue| ==>
         t.objects[t.completedQueue[i]].completedTime.value >= t.objects[t.completedQueue[j]].completedTime.value
  }

  ghost predicate QueuesStay(s: Scheduler, t: Scheduler) {
    t.scheduledQueue == s.scheduledQueue && t.completedQueue == s.completedQueue
  }

  /**
   * UpdateStatus in plain terms: the record has the status; the first InProgress sets the start time and the first
   * final status the completion time, each to `now`; the current upgrade is the record in progress, and none after
   * a final status; a finished record moves to the completed queue. Nothing else changes.
   */
  ghost predicate IsUpdate(s: Scheduler, t: Scheduler, r: Ref, status: Status, now: int)
    requires r < |s.objects|
  {
    var final := status == Completed || status == Failed || status == Cancelled;
    && OthersStay(s, t, r) && t.upgrades == s.upgrades && t.pass == s.pass && t.triggered == s.triggered
    && t.objects[r] == UpgradeInfo(
         s.objects[r].name, s.objects[r].height, status,
         if status == InProgress && s.objects[r].startedTime == None then Some(now) else s.objects[r].startedTime,
         if final && s.objects[r].completedTime == None then Some(now) else s.objects[r].completedTime)
    && t.currentUpgrade == (if status == InProgress then Some(r) else if final then None else s.currentUpgrade)
    && if final then Moves(s, t, r) else QueuesStay(s, t)
  }

  ghost predicate IsCancel(s: Scheduler, t: Scheduler, r: Ref, now: int)
    requires r < |s.objects|
  {
    && OthersStay(s, t, r) && t.upgrades == s.upgrades && t.pass == s.pass && t.triggered == s.triggered
    && t.objects[r] == UpgradeInfo(
         s.objects[r].name, s.objects[r].height, Cancelled, s.objects[r].startedTime, Some(now))
    && t.currentUpgrade == s.currentUpgrade && Moves(s, t, r)
  }

  lemma {:induction false} MoveMeans(s: Scheduler, r: Ref, sorted: seq<Ref>)
    requires Partition(s) && r < |s.objects| && Owned(s, r) && s.objects[r].completedTime.Some?
    requires PossibleMove(s, r, sorted)
    ensures Moves(s, MoveToCompleted(s, r, sorted), r)
  {
    MoveKeepsPartition(s, r, sorted);
  }

  lemma {:induction false} UpdatedMeans(s: Scheduler, r: Ref, status: Status, now: int, sorted: seq<Ref>)
    requires Partition(s) && r < |s.objects| && Owned(s, r) && UpdatedRecord(s, r, status, now, sorted).Some?
    ensures IsUpdate(s, UpdatedRecord(s, r, status, now, sorted).value, r, status, now)
  {
    var u := Stamped(s.objects[r], status, now);
    WriteKeepsPartition(s, r, u);
    if Final(status) {
      var t := SetObject(s, r, u);
      MoveMeans(t, r, sorted);
    }
  }

  lemma {:induction false} CancelledMeans(s: Scheduler, r: Ref, now: int, sorted: seq<Ref>)
    requires Partition(s) && r < |s.objects| && Owned(s, r) && CancelledRecord(s, r, now, sorted).Some?
    ensures IsCancel(s, CancelledRecord(s, r, now, sorted).value, r, now)
  {
    var u := s.objects[r].(status := Cancelled, completedTime := Some(now));
    WriteKeepsPartition(s, r, u);
    MoveMeans(SetObject(s, r, u), r, sorted);
  }

  /** A step that writes a status or cancels does just that, or nothing if it cannot: then `t` is `s`. */
  lemma {:induction false} UpdateMeans(s: Scheduler, name: string, status: Status, now: int, sorted: seq<Ref>)
    requires Partition(s)
    ensures var t := Next(s, Update(name, status, now, sorted));
            t == s || (name in s.upgrades && IsUpdate(s, t, s.upgrades[name], status, now))
    ensures var t := Next(s, Cancel(name, now, sorted));
            t == s || (name in s.upgrades && !s.objects[s.upgrades[name]].status.InProgress?
                       && IsCancel(s, t, s.upgrades[name], now))
  {
    if name in s.upgrades {
      var r := s.upgrades[name];
      assert Owned(s, r);
      if UpdatedRecord(s, r, status, now, sorted).Some? {
        UpdatedMeans(s, r, status, now, sorted);
      }
      if CancelledRecord(s, r, now, sorted).Some? {
        CancelledMeans(s, r, now, sorted);
      }
    }
  }

  /** An accepted proposal becomes a new record, scheduled, under its name, queued in the order of heights. */
  lemma {:induction false} ScheduleMeans(s: Scheduler, p: Proposal, validated: bool, sorted: seq<Ref>)
    requires WellFormed(s)
    ensures var t := Next(s, Schedule(p, validated, sorted));
            t == s ||
              (&& p.isUpgrade && p.info.Some?
               && t.objects == s.objects + [UpgradeInfo(p.info.value.name, p.upgradeHeight, Scheduled, None, None)]
               && t.upgrades == s.upgrades[p.info.value.name := |s.objects|]
               && multiset(t.scheduledQueue) == multiset(s.scheduledQueue + [|s.objects|])
               && InRange(t.objects, t.scheduledQueue)
               && (forall i, j :: 0 <= i < j < |t.scheduledQueue| ==>
                     t.objects[t.scheduledQueue[i]].height <= t.objects[t.scheduledQueue[j]].height)
               && t.completedQueue == s.completedQueue && t.currentUpgrade == s.currentUpgrade)
  {
  }

  /** Cleanup forgets exactly the upgrades completed before the cutoff, and keeps the others in their order. */
  lemma {:induction false} CleanupMeans(s: Scheduler, cutoff: int)
    requires Partition(s)
    ensures var t := Next(s, CleanupOld(cutoff));
            && (forall name :: name in t.upgrades <==>
                  && name in s.upgrades
                  && !(s.upgrades[name] in s.completedQueue
                       && s.objects[s.upgrades[name]].completedTime.value < cutoff))
            && (forall name :: name in t.upgrades ==> t.upgrades[name] == s.upgrades[name])
            && IsSubsequence(t.completedQueue, s.completedQueue)
            && (forall r :: r in t.completedQueue <==>
                  r in s.completedQueue && r < |s.objects| && s.objects[r].completedTime.value >= cutoff)
            && t.objects == s.objects && t.scheduledQueue == s.scheduledQueue && t.currentUpgrade == s.currentUpgrade
  {
    RecentMembers(s.objects, s.completedQueue, cutoff);
    RecentIsSubsequence(s.objects, s.completedQueue, cutoff);
    forall name | name in s.upgrades
      ensures name in OldNames(s.objects, s.completedQueue, cutoff)
         <==> s.upgrades[name] in s.completedQueue && s.objects[s.upgrades[name]].completedTime.value < cutoff
    {
      DeletedNames(s, s.upgrades[name], cutoff);
    }
  }

  lemma {:induction false} RecentIsSubsequence(objects: seq<UpgradeInfo>, refs: seq<Ref>, cutoff: int)
    requires InRange(objects, refs)
    ensures IsSubsequence(Recent(objects, refs, cutoff), refs)
  {
    if refs != [] {
      RecentIsSubsequence(objects, refs[1..], cutoff);
      assert [refs[0]] + refs[1..] == refs;
      var rest := Recent(objects, refs[1..], cutoff);
      if Old(objects[refs[0]], cutoff) {
        assert [] + rest == rest;
        SubsequenceConsRight(rest, refs[1..], refs[0]);
      } else {
        SubsequenceConsBoth(rest, refs[1..], refs[0]);
      }
    }
  }

  /** With validation on, exactly these proposals are accepted. */
  lemma {:induction false} AcceptsMeans(s: Scheduler, p: Proposal)
    ensures Accepts(s, p, true) <==>
              && p.isUpgrade && p.info.Some? && p.info.value.name != "" && p.info.value.height >= 1
              && !(exists name :: name in s.upgrades && name == p.info.value.name)
              && forall b :: b in p.info.value.binaries.Values ==> b.url != "" && b.checksum != ""
    ensures Accepts(s, p, false) <==> p.isUpgrade && p.info.Some?
  {
    if p.info.Some? {
      var binaries := p.info.value.binaries;
      assert forall platform :: platform in binaries ==> binaries[platform] in binaries.Values;
    }
  }

  /** The next upgrade is ready exactly if it is the head of the queue, its height has come and nobody has begun it. */
  lemma {:induction false} ReadyMeans(s: Scheduler, height: int, r: Ref)
    requires InRange(s.objects, s.scheduledQueue)
    ensures IsUpgradeReady(s, height) == Some(r) <==>
              && s.scheduledQueue != [] && s.scheduledQueue[0] == r
              && height >= s.objects[r].height && s.objects[r].status == Scheduled
  {
  }

  // ------------------------------------------------------------------ trigger discipline

  predicate InHand(s: Scheduler, r: Ref) {
    s.pass.Pass? && s.pass.hand.Some? && s.pass.hand.value.0 == r
  }

  /** No record was triggered twice, or below its height; a triggered one is no longer `scheduled` once marked. */
  ghost predicate Disciplined(s: Scheduler) {
    && WellFormed(s)
    && (forall i, j :: 0 <= i < j < |s.triggered| ==> s.triggered[i].0 != s.triggered[j].0)
    && (forall i :: 0 <= i < |s.triggered| ==>
          && s.objects[s.triggered[i].0].height <= s.triggered[i].1
          && (s.objects[s.triggered[i].0].status.Scheduled? ==> InHand(s, s.triggered[i].0)))
  }

  /** Nobody sets a status back to `scheduled`. */
  predicate Forward(step: Step) {
    && (step.Schedule? ==> step.validated)
    && (step.Update? ==> !step.status.Scheduled?)
  }

  /** What a step may do to the records: statuses move away from `scheduled`, names and heights stay. */
  ghost predicate Ages(s: Scheduler, t: Scheduler) {
    && |s.objects| <= |t.objects|
    && forall r :: 0 <= r < |s.objects| ==>
         && t.objects[r].name == s.objects[r].name && t.objects[r].height == s.objects[r].height
         && (t.objects[r].status.Scheduled? ==> s.objects[r].status.Scheduled?)
  }

  lemma UpdateAges(s: Scheduler, r: Ref, status: Status, now: int, sorted: seq<Ref>)
    requires WellFormed(s) && r < |s.objects| && !status.Scheduled?
    ensures var t := OrElse(UpdatedRecord(s, r, status, now, sorted), s);
            Ages(s, t) && t.triggered == s.triggered && t.pass == s.pass
  {
  }

  /** What is in the monitor's hand stays there as long as it is `scheduled`. */
  ghost predicate HandStays(s: Scheduler, t: Scheduler) {
    forall r: Ref :: InHand(s, r) && r < |t.objects| && t.objects[r].status.Scheduled? ==> InHand(t, r)
  }

  lemma {:induction false} MarkAges(s: Scheduler, now: int, sorted: seq<Ref>)
    requires WellFormed(s) && s.pass.Pass? && s.pass.hand.Some?
    ensures var t := OrElse(Marked(s, now, sorted), s);
            && Ages(s, t) && t.triggered == s.triggered
            && (t != s ==> !t.objects[s.pass.hand.value.0].status.Scheduled?)
  {
    var (r, ok) := s.pass.hand.value;
    var status := if ok then InProgress else Failed;
    var t := SetObject(s, r, s.objects[r].(status := status)).(pass := s.pass.(hand := None));
    if s.objects[r].name in s.upgrades {
      UpdateAges(t, s.upgrades[s.objects[r].name], status, now, sorted);
    }
  }

  lemma {:induction false} ForwardAges(s: Scheduler, step: Step)
    requires WellFormed(s) && Forward(step)
    ensures Ages(s, Next(s, step))
    ensures !step.Trigger? ==> Next(s, step).triggered == s.triggered
    ensures HandStays(s, Next(s, step))
  {
    match step
    case Update(name, status, now, sorted) =>
      if name in s.upgrades {
        UpdateAges(s, s.upgrades[name], status, now, sorted);
      }
    case Mark(now, sorted) => if s.pass.Pass? && s.pass.hand.Some? { MarkAges(s, now, sorted); }
    case _ =>
  }

  /** As long as nothing is triggered, ageing keeps the discipline. */
  lemma {:induction false} AgeingKeepsDiscipline(s: Scheduler, t: Scheduler)
    requires Disciplined(s) && WellFormed(t) && Ages(s, t) && t.triggered == s.triggered
    requires HandStays(s, t)
    ensures Disciplined(t)
  {
    forall i | 0 <= i < |t.triggered|
      ensures t.objects[t.triggered[i].0].height <= t.triggered[i].1
      ensures t.objects[t.triggered[i].0].status.Scheduled? ==> InHand(t, t.triggered[i].0)
    {
      assert t.triggered[i] == s.triggered[i] && s.triggered[i].0 < |s.objects|;
    }
  }

  lemma {:induction false} TriggerKeepsDiscipline(s: Scheduler, ok: bool)
    requires Disciplined(s)
    ensures Disciplined(Next(s, Trigger(ok)))
  {
    var t := Next(s, Trigger(ok));
    if t.triggered != s.triggered {
      assert forall i :: 0 <= i < |s.triggered| ==> t.triggered[i] == s.triggered[i];
    }
  }

  predicate Called(s: Scheduler, r: Ref) {
    exists i :: 0 <= i < |s.triggered| && s.triggered[i].0 == r
  }

  /** Somebody sets the status of an upgrade that was triggered, and marked since, back to `scheduled`. */
  predicate Resets(s: Scheduler, step: Step) {
    && step.Update? && step.status.Scheduled? && step.name in s.upgrades
    && Called(s, s.upgrades[step.name]) && !InHand(s, s.upgrades[step.name])
  }

  lemma {:induction false} ResetBreaksDiscipline(s: Scheduler, name: string, now: int, sorted: seq<Ref>)
    requires Disciplined(s) && name in s.upgrades
    ensures Disciplined(Next(s, Update(name, Scheduled, now, sorted)))
       <==> !Resets(s, Update(name, Scheduled, now, sorted))
  {
    var t, r := Next(s, Update(name, Scheduled, now, sorted)), s.upgrades[name];
    if Called(s, r) && !InHand(s, r) {
      var i :| 0 <= i < |s.triggered| && s.triggered[i].0 == r;
      assert t.triggered[i].0 == r && t.objects[r].status.Scheduled? && !InHand(t, r);
    } else {
      assert forall i :: 0 <= i < |s.triggered| && s.triggered[i].0 != r ==>
          t.objects[s.triggered[i].0] == s.objects[s.triggered[i].0];
    }
  }

  /** With validation enabled a step keeps the discipline exactly if it is no such reset. */
  lemma {:induction false} DisciplineIffNoReset(s: Scheduler, step: Step)
    requires Partition(s) && Disciplined(s) && (step.Schedule? ==> step.validated)
    ensures Disciplined(Next(s, step)) <==> !Resets(s, step)
    ensures Partition(Next(s, step))
  {
    NextKeepsPartition(s, step);
    if step.Trigger? {
      TriggerKeepsDiscipline(s, step.ok);
    } else if step.Update? && step.status.Scheduled? {
      if step.name in s.upgrades {
        ResetBreaksDiscipline(s, step.name, step.now, step.sorted);
      }
    } else {
      ForwardAges(s, step);
      AgeingKeepsDiscipline(s, Next(s, step));
    }
  }

  ghost predicate Validated(steps: seq<Step>) {
    forall i :: 0 <= i < |steps| ==> steps[i].Schedule? ==> steps[i].validated
  }

  ghost predicate AllForward(steps: seq<Step>) {
    forall i :: 0 <= i < |steps| ==> Forward(steps[i])
  }

  /** With validation enabled, every run from a partitioned state keeps the partition. */
  ghost function RunFrom(s: Scheduler, steps: seq<Step>): (t: Scheduler)
    requires Partition(s) && Validated(steps)
    ensures Partition(t)
  {
    if steps == [] then s
    else
      var before := RunFrom(s, DropLast(steps));
      NextKeepsPartition(before, Last(steps));
      Next(before, Last(steps))
  }

  ghost predicate NeverResets(steps: seq<Step>)
    requires Validated(steps)
  {
    steps == [] || (NeverResets(DropLast(steps)) && !Resets(RunFrom(New(), DropLast(steps)), Last(steps)))
  }

  lemma {:induction false} ForwardNeverResets(steps: seq<Step>)
    requires AllForward(steps)
    ensures NeverResets(steps)
  {
    if steps != [] {
      ForwardNeverResets(DropLast(steps));
    }
  }

  /** In every run without such a reset each accepted upgrade is triggered at most once, and never below its height. */
  lemma {:induction false} TriggeredAtMostOnce(steps: seq<Step>)
    requires Validated(steps) && NeverResets(steps)
    ensures Disciplined(RunFrom(New(), steps))
  {
    if steps != [] {
      var before := DropLast(steps);
      TriggeredAtMostOnce(before);
      assert RunFrom(New(), steps) == Next(RunFrom(New(), before), Last(steps));
      DisciplineIffNoReset(RunFrom(New(), before), Last(steps));
    }
  }

  lemma {:induction false} RunFromAppend(s: Scheduler, steps: seq<Step>, step: Step)
    requires Partition(s) && Validated(steps) && Validated([step])
    ensures Validated(steps + [step]) && RunFrom(s, steps + [step]) == Next(RunFrom(s, steps), step)
  {
    assert [step][0] == step;
    assert DropLast(steps + [step]) == steps;
  }

  lemma {:induction false} RunFromConcat(s: Scheduler, p: seq<Step>, q: seq<Step>)
    requires Partition(s) && Validated(p) && Validated(q)
    ensures Validated(p + q) && RunFrom(s, p + q) == RunFrom(RunFrom(s, p), q)
  {
    if q == [] {
      assert p + q == p;
    } else {
      assert DropLast(p + q) == p + DropLast(q);
      RunFromConcat(s, p, DropLast(q));
    }
  }

  lemma {:induction false} RunOne(s: Scheduler, a: Step)
    requires Partition(s) && Validated([a])
    ensures RunFrom(s, [a]) == Next(s, a)
  {
    assert [a][0] == a && DropLast([a]) == [];
    assert RunFrom(s, []) == s;
  }

  lemma {:induction false} RunTwo(s: Scheduler, a: Step, b: Step)
    requires Partition(s) && Validated([a, b])
    ensures Partition(Next(s, a)) && Partition(Next(Next(s, a), b))
    ensures RunFrom(s, [a, b]) == Next(Next(s, a), b)
  {
    assert [a, b][0] == a && [a, b][1] == b;
    NextKeepsPartition(s, a);
    NextKeepsPartition(Next(s, a), b);
    assert [a][0] == a && DropLast([a, b]) == [a];
    RunOne(s, a);
  }

  // ------------------------------------------------------------------ what is ready, and at which height

  function IsUpgradeReady(s: Scheduler, height: int): Option<Ref>
    requires InRange(s.objects, s.scheduledQueue)
  {
    if s.scheduledQueue != [] && Due(s, s.scheduledQueue[0], height) then Some(s.scheduledQueue[0]) else None
  }

  /** An upgrade proposal without binaries. Its info gives height 1; the height to upgrade at is `height`. */
  function ProposalFor(name: string, height: int): Proposal {
    Proposal(true, Some(Plan(name, 1, map[])), height)
  }

  /** The state after the first schedule. */
  function JustScheduled(name: string, height: int): Scheduler {
    Scheduler([UpgradeInfo(name, height, Scheduled, None, None)], map[name := 0], [0], [], None, NoPass, [])
  }

  lemma {:induction false} FirstSchedule(s: Scheduler, name: string, height: int)
    requires s == New() && WellFormed(s) && name != ""
    ensures Accepts(s, ProposalFor(name, height), true)
    ensures Next(s, Schedule(ProposalFor(name, height), true, [0])) == JustScheduled(name, height)
  {
    var p := ProposalFor(name, height);
    assert ValidPlan(s.upgrades, p.info.value);
    assert s.scheduledQueue + [|s.objects|] == [0];
    var objects := s.objects + [UpgradeInfo(name, height, Scheduled, None, None)];
    assert objects == [UpgradeInfo(name, height, Scheduled, None, None)];
    assert PossibleQueue(s, objects, [0]);
  }

  /** The queue takes the proposal's own height, which nobody checks: it is positive exactly if that one is. */
  lemma {:induction false} QueuedHeight(s: Scheduler, p: Proposal, sorted: seq<Ref>)
    requires Partition(s) && Accepts(s, p, true) && Enqueued(s, p, sorted) != s
    ensures var t, r := Next(s, Schedule(p, true, sorted)), |s.objects|;
            && r in t.scheduledQueue && r < |t.objects| && t.objects[r].name == p.info.value.name
            && (t.objects[r].height > 0 <==> p.upgradeHeight > 0) && p.info.value.height > 0
  {
    Permutation(s.scheduledQueue + [|s.objects|], sorted);
    assert |s.objects| in s.scheduledQueue + [|s.objects|];
  }

  /** An accepted proposal that is queued at height 0, and so is due at once. */
  lemma {:induction false} AcceptedAtHeightZero(s: Scheduler, name: string)
    requires s == New() && WellFormed(s) && name != ""
    ensures Accepts(s, ProposalFor(name, 0), true)
    ensures var t := Next(s, Schedule(ProposalFor(name, 0), true, [0]));
            WellFormed(t) && t.scheduledQueue == [0] && t.objects[0].height == 0 && IsUpgradeReady(t, 0) == Some(0)
  {
    FirstSchedule(s, name, 0);
  }

  lemma {:induction false} FirstStepPartition(s: Scheduler, name: string, height: int)
    requires s == New() && Partition(s) && name != ""
    ensures Next(s, Schedule(ProposalFor(name, height), true, [0])) == JustScheduled(name, height)
    ensures Next(s, Schedule(ProposalFor(name, height), false, [0])) == JustScheduled(name, height)
    ensures Partition(JustScheduled(name, height))
  {
    FirstSchedule(s, name, height);
    NextKeepsPartition(s, Schedule(ProposalFor(name, height), true, [0]));
  }

  lemma {:induction false} SecondOfName(name: string, height: int)
    requires Partition(JustScheduled(name, height))
    ensures var p, t := ProposalFor(name, height), JustScheduled(name, height);
            Accepts(t, p, false) && Enqueued(t, p, [0, 1]) != t && Enqueued(t, p, [0, 1]).scheduledQueue == [0, 1]
  {
    var t := JustScheduled(name, height);
    assert t.scheduledQueue + [1] == [0, 1];
  }

  /** Without validation a second schedule of a name leaves two queue entries for it. */
  lemma {:induction false} SameNameTwice(s: Scheduler, name: string, height: int)
    requires s == New() && Partition(s) && name != ""
    ensures var p := ProposalFor(name, height);
            var t := Next(s, Schedule(p, false, [0]));
            && Partition(t) && Next(t, Schedule(p, false, [0, 1])).scheduledQueue == [0, 1]
            && !Partition(Next(t, Schedule(p, false, [0, 1])))
  {
    FirstStepPartition(s, name, height);
    SecondOfName(name, height);
    UnvalidatedSchedule(JustScheduled(name, height), ProposalFor(name, height), [0, 1]);
  }

  /** Cancelling an upgrade twice files it twice among the completed ones. */
  lemma {:induction false} CancelledTwice(s: Scheduler, name: string, height: int, now: int)
    requires s == New() && Partition(s) && name != ""
    ensures var t := Next(s, Schedule(ProposalFor(name, height), true, [0]));
            && Partition(t) && Partition(Next(t, Cancel(name, now, [0])))
            && Next(t, Cancel(name, now, [0])).completedQueue == [0]
            && Next(Next(t, Cancel(name, now, [0])), Cancel(name, now, [0, 0])).completedQueue == [0, 0]
  {
    FirstStepPartition(s, name, height);
    TwoCancels(JustScheduled(name, height), name, now);
  }

  lemma {:induction false} TwoCancels(t: Scheduler, name: string, now: int)
    requires Partition(t) && |t.objects| == 1 && name in t.upgrades && t.upgrades[name] == 0
    requires !t.objects[0].status.InProgress? && t.completedQueue == []
    ensures Partition(Next(t, Cancel(name, now, [0])))
    ensures Next(t, Cancel(name, now, [0])).completedQueue == [0]
    ensures Next(Next(t, Cancel(name, now, [0])), Cancel(name, now, [0, 0])).completedQueue == [0, 0]
  {
    assert t.completedQueue + [0] == [0] && [0] + [0] == [0, 0];
    NextKeepsPartition(t, Cancel(name, now, [0]));
    CancelFiles(t, name, now, [0]);
    CancelFiles(Next(t, Cancel(name, now, [0])), name, now, [0, 0]);
  }

  lemma {:induction false} CancelFiles(t: Scheduler, name: string, now: int, sorted: seq<Ref>)
    requires Partition(t) && |t.objects| == 1 && name in t.upgrades && t.upgrades[name] == 0
    requires !t.objects[0].status.InProgress? && sorted == t.completedQueue + [0]
    ensures var n := Next(t, Cancel(name, now, sorted));
            && n.completedQueue == sorted && |n.objects| == 1 && n.upgrades == t.upgrades
            && !n.objects[0].status.InProgress?
  {
    var u := t.objects[0].(status := Cancelled, completedTime := Some(now));
    assert forall i :: 0 <= i < |sorted| ==> sorted[i] == 0;
    assert PossibleMove(SetObject(t, 0, u), 0, sorted);
  }

  // ------------------------------------------------------------------ the struct

  class UpgradeScheduler {
    var objects: seq<UpgradeInfo>
    var upgrades: map<string, Ref>
    var scheduledQueue: seq<Ref>
    var completedQueue: seq<Ref>
    var currentUpgrade: Option<Ref>
    var validationEnabled: bool
    var pass: Pass                 // the local variables of the monitor's loop
    var triggered: seq<(Ref, int)> // history

    ghost function Contents(): Scheduler
      reads this
    {
      Scheduler(objects, upgrades, scheduledQueue, completedQueue, currentUpgrade, pass, triggered)
    }

    constructor ()
      ensures Contents() == New() && validationEnabled
    {
      objects, upgrades, scheduledQueue, completedQueue := [], map[], [], [];
      currentUpgrade, validationEnabled, pass, triggered := None, true, NoPass, [];
    }

    method ScheduleUpgrade(proposal: Proposal) returns (ok: bool)
      requires Partition(Contents())
      modifies this
      ensures ok <==> Accepts(old(Contents()), proposal, validationEnabled)
      ensures Contents() == Next(old(Contents()), Schedule(proposal, validationEnabled, scheduledQueue))
      ensures ok ==> |scheduledQueue| == |old(scheduledQueue)| + 1
      ensures validationEnabled == old(validationEnabled) && (validationEnabled ==> Partition(Contents()))
    {
      if !proposal.isUpgrade {
        return false;
      }
      if proposal.info.None? {
        return false;
      }
      if validationEnabled {
        var valid := ValidateUpgrade(proposal.info.value);
        if !valid {
          return false;
        }
      }
      ghost var s := Contents();
      var upgrade := UpgradeInfo(proposal.info.value.name, proposal.upgradeHeight, Scheduled, None, None);
      var r := |objects|;
      objects := objects + [upgrade];
      upgrades := upgrades[upgrade.name := r];
      var unsorted := scheduledQueue + [r];
      scheduledQueue := SortByHeight(unsorted);
      assert multiset(scheduledQueue) == multiset(unsorted);
      SameSize(unsorted, scheduledQueue);
      if validationEnabled {
        EnqueueKeepsPartition(s, proposal, scheduledQueue);
      }
      return true;
    }

    method ValidateUpgrade(plan: Plan) returns (ok: bool)
      ensures ok <==> ValidPlan(upgrades, plan)
    {
      if plan.name == "" || plan.name in upgrades || plan.height <= 0 {
        return false;
      }
      var rest := plan.binaries.Keys;
      while rest != {}
        invariant rest <= plan.binaries.Keys
        invariant forall p :: p in plan.binaries && p !in rest ==>
            plan.binaries[p].url != "" && plan.binaries[p].checksum != ""
        decreases rest
      {
        var platform :| platform in rest;
        if plan.binaries[platform].url == "" || plan.binaries[platform].checksum == "" {
          return false;
        }
        rest := rest - {platform};
      }
      return true;
    }

    method SortByHeight(refs: seq<Ref>) returns (sorted: seq<Ref>)
      requires InRange(objects, refs)
      ensures multiset(sorted) == multiset(refs) && InRange(objects, sorted) && SortedByHeight(objects, sorted)
    {
      var records := objects;
      var key := (r: Ref) => if r < |records| then records[r].height else 0;
      var leq := (a, b) => key(a) <= key(b);
      sorted := SortBy(refs, leq);
      PermutedInRange(objects, refs, sorted);
      forall i, j | 0 <= i < j < |sorted|
        ensures objects[sorted[i]].height <= objects[sorted[j]].height
      {
        assert leq(sorted[i], sorted[j]);
      }
    }

    method SortByTime(refs: seq<Ref>) returns (sorted: seq<Ref>)
      requires InRange(objects, refs) && HaveTime(objects, refs)
      ensures multiset(sorted) == multiset(refs)
      ensures InRange(objects, sorted) && HaveTime(objects, sorted) && SortedByTime(objects, sorted)
    {
      var records := objects;
      var key := (r: Ref) =>
        if r < |records| && records[r].completedTime.Some? then -records[r].completedTime.value else 0;
      var leq := (a, b) => key(a) <= key(b);
      sorted := SortBy(refs, leq);
      PermutedInRange(objects, refs, sorted);
      forall i | 0 <= i < |sorted|
        ensures objects[sorted[i]].completedTime.Some?
      {
        assert sorted[i] in refs;
      }
      forall i, j | 0 <= i < j < |sorted|
        ensures objects[sorted[i]].completedTime.value >= objects[sorted[j]].completedTime.value
      {
        assert leq(sorted[i], sorted[j]);
      }
    }

    method UpdateStatus(name: string, status: Status, now: int) returns (ok: bool)
      requires Partition(Contents())
      modifies this
      ensures ok <==> name in old(upgrades)
      ensures Contents() == Next(old(Contents()), Update(name, status, now, completedQueue)) && Partition(Contents())
      ensures !ok ==> Contents() == old(Contents())
      ensures ok ==>
                UpdatedRecord(old(Contents()), old(upgrades)[name], status, now, completedQueue) == Some(Contents())
      ensures ok ==> IsUpdate(old(Contents()), Contents(), old(upgrades)[name], status, now)
      ensures validationEnabled == old(validationEnabled)
    {
      if name !in upgrades {
        return false;
      }
      ghost var s := Contents();
      UpdateRecord(upgrades[name], status, now);
      UpdatedMeans(s, s.upgrades[name], status, now, completedQueue);
      return true;
    }

    method UpdateRecord(r: Ref, status: Status, now: int)
      requires Partition(Contents()) && r < |objects| && Owned(Contents(), r)
      modifies this
      ensures Partition(Contents()) && validationEnabled == old(validationEnabled)
      ensures UpdatedRecord(old(Contents()), r, status, now, completedQueue) == Some(Contents())
    {
      ghost var t := SetObject(Contents(), r, Stamped(objects[r], status, now));
      WriteKeepsPartition(Contents(), r, Stamped(objects[r], status, now));
      Stamp(r, status, now);
      assert Contents() == t;
      if status == InProgress {
        currentUpgrade := Some(r);
        PartitionFrame(t, Contents());
      } else if status == Completed || status == Failed || status == Cancelled {
        currentUpgrade := None;
        ghost var idle := t.(currentUpgrade := None);
        assert Contents() == idle;
        PartitionFrame(t, idle);
        MoveUpgradeToCompleted(r);
        assert PossibleMove(t, r, completedQueue) && Contents() == MoveToCompleted(idle, r, completedQueue);
      }
    }

    method Stamp(r: Ref, status: Status, now: int)
      requires r < |objects|
      modifies `objects
      ensures objects == old(objects)[r := Stamped(old(objects)[r], status, now)]
    {
      var existing := objects[r].(status := status);
      if status == InProgress {
        if existing.startedTime.None? {
          existing := existing.(startedTime := Some(now));
        }
      } else if status == Completed || status == Failed || status == Cancelled {
        if existing.completedTime.None? {
          existing := existing.(completedTime := Some(now));
        }
      }
      objects := objects[r := existing];
    }

    method CancelUpgrade(name: string, now: int) returns (ok: bool)
      requires Partition(Contents())
      modifies this
      ensures ok <==> name in old(upgrades) && !old(objects[upgrades[name]]).status.InProgress?
      ensures Contents() == Next(old(Contents()), Cancel(name, now, completedQueue)) && Partition(Contents())
      ensures ok ==> IsCancel(old(Contents()), Contents(), old(upgrades)[name], now)
      ensures validationEnabled == old(validationEnabled)
    {
      if name !in upgrades {
        return false;
      }
      var r := upgrades[name];
      if objects[r].status == InProgress {
        return false;
      }
      ghost var s := Contents();
      var u := objects[r].(status := Cancelled, completedTime := Some(now));
      WriteKeepsPartition(s, r, u);
      objects := objects[r := u];
      assert Contents() == SetObject(s, r, u);
      MoveUpgradeToCompleted(r);
      CancelledMeans(s, r, now, completedQueue);
      return true;
    }

    method MoveUpgradeToCompleted(r: Ref)
      requires Partition(Contents()) && r < |objects| && Owned(Contents(), r) && objects[r].completedTime.Some?
      modifies `scheduledQueue, `completedQueue
      ensures PossibleMove(old(Contents()), r, completedQueue)
      ensures Contents() == MoveToCompleted(old(Contents()), r, completedQueue) && Partition(Contents())
    {
      ghost var s := Contents();
      RemoveByName(objects[r].name);
      var done := completedQueue + [r];
      assert forall i :: 0 <= i < |completedQueue| ==> completedQueue[i] in s.completedQueue;
      completedQueue := SortByTime(done);
      MoveKeepsPartition(s, r, completedQueue);
    }

    /** The loop of moveToCompleted. */
    method RemoveByName(name: string)
      requires InRange(objects, scheduledQueue)
      modifies `scheduledQueue
      ensures scheduledQueue == RemoveFirstNamed(objects, old(scheduledQueue), name)
    {
      var queue := scheduledQueue;
      assert queue[0..] == queue;
      for i := 0 to |queue|
        invariant scheduledQueue == queue
        invariant RemoveFirstNamed(objects, queue, name) == queue[..i] + RemoveFirstNamed(objects, queue[i..], name)
      {
        RemoveScan(objects, queue, i, name);
        if objects[queue[i]].name == name {
          scheduledQueue := queue[..i] + queue[i + 1..];
          return;
        }
      }
      assert queue[|queue|..] == [] && queue[..|queue|] == queue;
    }

    method Cleanup(cutoff: int)
      requires Partition(Contents())
      modifies this
      ensures Contents() == Next(old(Contents()), CleanupOld(cutoff)) && Partition(Contents())
      ensures validationEnabled == old(validationEnabled)
    {
      CleanupKeepsPartition(Contents(), cutoff);
      upgrades, completedQueue := Split(cutoff);
    }

    /** The loop of CleanupOld. */
    method Split(cutoff: int) returns (kept: map<string, Ref>, newCompleted: seq<Ref>)
      requires InRange(objects, completedQueue)
      ensures kept == upgrades - OldNames(objects, completedQueue, cutoff)
      ensures newCompleted == Recent(objects, completedQueue, cutoff)
    {
      kept, newCompleted := upgrades, [];
      assert kept == upgrades - {};
      for i := 0 to |completedQueue|
        invariant kept == upgrades - OldNames(objects, completedQueue[..i], cutoff)
        invariant newCompleted == Recent(objects, completedQueue[..i], cutoff)
      {
        var r := completedQueue[i];
        RecentAppend(objects, completedQueue[..i], r, cutoff);
        assert completedQueue[..i + 1] == completedQueue[..i] + [r];
        if objects[r].completedTime.Some? && objects[r].completedTime.value < cutoff {
          kept := kept - {objects[r].name};
        } else {
          newCompleted := newCompleted + [r];
        }
      }
      assert completedQueue[..|completedQueue|] == completedQueue;
    }

    method IsReady(currentHeight: int) returns (ready: Option<Ref>)
      requires InRange(objects, scheduledQueue)
      ensures ready == IsUpgradeReady(Contents(), currentHeight)
    {
      if |scheduledQueue| == 0 {
        return None;
      }
      var next := objects[scheduledQueue[0]];
      if next.height <= currentHeight && next.status == Scheduled {
        return Some(scheduledQueue[0]);
      }
      return None;
    }
  }

  lemma RemoveScan(objects: seq<UpgradeInfo>, refs: seq<Ref>, i: nat, name: string)
    requires InRange(objects, refs) && i < |refs|
    ensures refs[..i] + RemoveFirstNamed(objects, refs[i..], name)
         == if objects[refs[i]].name == name then refs[..i] + refs[i + 1..]
            else refs[..i + 1] + RemoveFirstNamed(objects, refs[i + 1..], name)
  {
    assert refs[i..][1..] == refs[i + 1..] && refs[..i + 1] == refs[..i] + [refs[i]];
  }

  lemma {:induction false} PermutedInRange(objects: seq<UpgradeInfo>, refs: seq<Ref>, sorted: seq<Ref>)
    requires InRange(objects, refs) && multiset(sorted) == multiset(refs)
    ensures InRange(objects, sorted) && forall i :: 0 <= i < |sorted| ==> sorted[i] in refs
  {
    Permutation(refs, sorted);
    forall i | 0 <= i < |sorted|
      ensures sorted[i] in refs && sorted[i] < |objects|
    {
      assert sorted[i] in sorted;
    }
  }

  lemma {:induction false} SameSize(a: seq<Ref>, b: seq<Ref>)
    requires multiset(a) == multiset(b)
    ensures |a| == |b|
  {
    assert |multiset(a)| == |a| && |multiset(b)| == |b|;
  }

  lemma {:induction false} RecentAppend(objects: seq<UpgradeInfo>, refs: seq<Ref>, r: Ref, cutoff: int)
    requires InRange(objects, refs) && r < |objects|
    ensures Recent(objects, refs + [r], cutoff)
        == Recent(objects, refs, cutoff) + (if Old(objects[r], cutoff) then [] else [r])
    ensures OldNames(objects, refs + [r], cutoff)
        == OldNames(objects, refs, cutoff) + (if Old(objects[r], cutoff) then {objects[r].name} else {})
  {
    var longer := refs + [r];
    assert forall i :: 0 <= i < |refs| ==> longer[i] == refs[i];
    assert longer[|refs|] == r;
    if refs != [] {
      assert longer[1..] == refs[1..] + [r];
      RecentAppend(objects, refs[1..], r, cutoff);
    }
  }
}
