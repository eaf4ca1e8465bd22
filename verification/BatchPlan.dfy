/**
 * Batch plans of internal/batch/batch.go and the coordination loop of internal/wbft/coordinator.go.
 *
 * A plan is a list of upgrades; the loop reads consensus states from a channel and prepares each
 * upgrade when the chain comes close to its height.
 */
module BatchPlan {
  import opened Sequences

  datatype UpgradeInfo = UpgradeInfo(name: string, height: int)

  datatype UpgradePlan = UpgradePlan(name: string, upgrades: seq<UpgradeInfo>)

  datatype PlanError =
    | NilPlan
    | UnnamedPlan
    | EmptyPlan
    | UnnamedUpgrade
    | InvalidHeight
    | HeightConflict
    | DuplicateName
    | NotSaved

  datatype Result<+T> = Ok(value: T) | Err(error: PlanError)

  ghost predicate Increasing(ups: seq<UpgradeInfo>) {
    forall i, j :: 0 <= i < j < |ups| ==> ups[i].height < ups[j].height
  }

  ghost predicate WellFormed(ups: seq<UpgradeInfo>) {
    forall i :: 0 <= i < |ups| ==> ups[i].name != "" && ups[i].height > 0
  }

  ghost predicate HeightsDiffer(ups: seq<UpgradeInfo>) {
    forall i, j :: 0 <= i < j < |ups| ==> ups[i].height != ups[j].height
  }

  ghost predicate NamesDiffer(ups: seq<UpgradeInfo>) {
    forall i, j :: 0 <= i < j < |ups| ==> ups[i].name != ups[j].name
  }

  predicate Lower(a: UpgradeInfo, b: UpgradeInfo) {
    a.height <= b.height
  }

  // ------------------------------------------------------------------ creating and validating

  /** Two lists with the same upgrades agree on what a plan is checked for. */
  lemma {:induction false} ReorderingKeepsChecks(a: seq<UpgradeInfo>, b: seq<UpgradeInfo>)
    requires multiset(a) == multiset(b)
    ensures WellFormed(a) <==> WellFormed(b)
    ensures HeightsDiffer(a) <==> HeightsDiffer(b)
  {
    HalfReordering(a, b);
    HalfReordering(b, a);
  }

  lemma {:induction false} HalfReordering(a: seq<UpgradeInfo>, b: seq<UpgradeInfo>)
    requires multiset(a) == multiset(b)
    ensures WellFormed(a) ==> WellFormed(b)
    ensures HeightsDiffer(a) ==> HeightsDiffer(b)
  {
    Permutation(a, b);
    assert forall i :: 0 <= i < |b| ==> b[i] in a;
    if HeightsDiffer(a) {
      assert Distinct(a);
      assert Distinct(b);
    }
  }

  method SortUpgrades(upgrades: array<UpgradeInfo>)
    modifies upgrades
    ensures multiset(upgrades[..]) == multiset(old(upgrades[..])) && SortedBy(upgrades[..], Lower)
  {
    var sorted := SortBy(upgrades[..], Lower);
    assert |sorted| == upgrades.Length by { assert |multiset(sorted)| == |multiset(upgrades[..])|; }
    for i := 0 to |sorted|
      invariant upgrades[..i] == sorted[..i]
    {
      upgrades[i] := sorted[i];
    }
    assert upgrades[..] == sorted;
  }

  function Fault(ups: seq<UpgradeInfo>, i: nat): Option<PlanError>
    requires i < |ups|
  {
    if ups[i].name == "" then Some(UnnamedUpgrade)
    else if ups[i].height <= 0 then Some(InvalidHeight)
    else if i > 0 && ups[i].height <= ups[i - 1].height then Some(HeightConflict)
    else None
  }

  /** The fault of one upgrade: no name, no positive height, or a height that does not rise, in this order. */
  lemma {:induction false} FaultMeans(ups: seq<UpgradeInfo>, i: nat)
    requires i < |ups|
    ensures Fault(ups, i) == Some(UnnamedUpgrade) <==> ups[i].name == ""
    ensures Fault(ups, i) == Some(InvalidHeight) <==> ups[i].name != "" && ups[i].height < 1
    ensures Fault(ups, i) == Some(HeightConflict) <==>
              ups[i].name != "" && ups[i].height >= 1 && i >= 1 && ups[i - 1].height >= ups[i].height
    ensures Fault(ups, i) == None <==>
              ups[i].name != "" && ups[i].height >= 1 && (i >= 1 ==> ups[i - 1].height < ups[i].height)
  {
  }

  /** Without a fault so far, the upgrades so far are well formed and strictly increasing. */
  lemma {:induction false} FaultlessPrefix(ups: seq<UpgradeInfo>, n: nat)
    requires n <= |ups| && forall j :: 0 <= j < n ==> Fault(ups, j).None?
    ensures WellFormed(ups[..n]) && Increasing(ups[..n])
  {
    if n > 0 {
      FaultlessPrefix(ups, n - 1);
      assert Fault(ups, n - 1).None?;
      assert ups[..n] == ups[..n - 1] + [ups[n - 1]];
      assert n > 1 ==> ups[..n - 1][n - 2] == ups[n - 2];
    }
  }

  lemma FaultRefutes(ups: seq<UpgradeInfo>, i: nat)
    requires SortedBy(ups, Lower) && i < |ups| && Fault(ups, i).Some?
    ensures !(WellFormed(ups) && HeightsDiffer(ups))
  {
    assert i > 0 ==> Lower(ups[i - 1], ups[i]);
  }

  /** Comparing neighbours is enough in a sorted list. */
  method CheckUpgrades(ups: seq<UpgradeInfo>) returns (fault: Option<PlanError>)
    requires SortedBy(ups, Lower)
    ensures fault.None? <==> WellFormed(ups) && HeightsDiffer(ups)
    ensures fault.None? ==> Increasing(ups)
    ensures fault.Some? ==>
              exists k :: 0 <= k < |ups| && Fault(ups, k) == fault && forall j :: 0 <= j < k ==> Fault(ups, j).None?
  {
    for i := 0 to |ups|
      invariant forall j :: 0 <= j < i ==> Fault(ups, j).None?
    {
      fault := None;
      if ups[i].name == "" {
        fault := Some(UnnamedUpgrade);
      } else if ups[i].height <= 0 {
        fault := Some(InvalidHeight);
      } else if i > 0 && ups[i].height <= ups[i - 1].height {
        fault := Some(HeightConflict);
      }
      assert Fault(ups, i) == fault;
      if fault.Some? {
        FaultRefutes(ups, i);
        return fault;
      }
    }
    FaultlessPrefix(ups, |ups|);
    assert ups[..|ups|] == ups;
    return None;
  }

  /** CreatePlan sorts the caller's slice in place, whether or not it accepts it. */
  method CreatePlan(name: string, upgrades: array<UpgradeInfo>, saved: bool) returns (result: Result<UpgradePlan>)
    modifies upgrades
    ensures multiset(upgrades[..]) == multiset(old(upgrades[..])) && SortedBy(upgrades[..], Lower)
    ensures result.Ok? <==> WellFormed(old(upgrades[..])) && HeightsDiffer(old(upgrades[..])) && saved
    ensures result.Ok? ==> result.value == UpgradePlan(name, upgrades[..]) && Increasing(upgrades[..])
    ensures result == Err(NotSaved) <==> WellFormed(old(upgrades[..])) && HeightsDiffer(old(upgrades[..])) && !saved
    ensures result.Err? && result.error != NotSaved ==>
              exists k :: 0 <= k < upgrades.Length && Fault(upgrades[..], k) == Some(result.error)
                       && forall j :: 0 <= j < k ==> Fault(upgrades[..], j).None?
  {
    SortUpgrades(upgrades);
    ReorderingKeepsChecks(old(upgrades[..]), upgrades[..]);
    var fault := CheckUpgrades(upgrades[..]);
    if fault.Some? {
      return Err(fault.value);
    }
    if !saved {
      return Err(NotSaved);
    }
    return Ok(UpgradePlan(name, upgrades[..]));
  }

  ghost predicate Validates(plan: UpgradePlan) {
    plan.name != "" && plan.upgrades != [] && NamesDiffer(plan.upgrades) && Increasing(plan.upgrades)
  }

  method ValidatePlan(plan: Option<UpgradePlan>) returns (objection: Option<PlanError>)
    ensures objection.None? <==> plan.Some? && Validates(plan.value)
    ensures objection == Some(NilPlan) <==> plan == None
    ensures objection == Some(UnnamedPlan) <==> plan.Some? && plan.value.name == ""
    ensures objection == Some(EmptyPlan) <==> plan.Some? && plan.value.name != "" && |plan.value.upgrades| == 0
    ensures objection == Some(DuplicateName) <==>
              plan.Some? && plan.value.name != "" && |plan.value.upgrades| > 0 && !NamesDiffer(plan.value.upgrades)
    ensures objection == Some(HeightConflict) <==>
              && plan.Some? && plan.value.name != "" && |plan.value.upgrades| > 0
              && NamesDiffer(plan.value.upgrades) && !Increasing(plan.value.upgrades)
  {
    if plan.None? {
      return Some(NilPlan);
    }
    var ups := plan.value.upgrades;
    if plan.value.name == "" {
      return Some(UnnamedPlan);
    }
    if |ups| == 0 {
      return Some(EmptyPlan);
    }
    var names: set<string> := {};
    for i := 0 to |ups|
      invariant names == set j | 0 <= j < i :: ups[j].name
      invariant forall j, k :: 0 <= j < k < i ==> ups[j].name != ups[k].name
    {
      if ups[i].name in names {
        return Some(DuplicateName);
      }
      names := names + {ups[i].name};
    }
    for i := 1 to |ups|
      invariant forall j, k :: 0 <= j < k < i ==> ups[j].height < ups[k].height
    {
      if ups[i].height <= ups[i - 1].height {
        return Some(HeightConflict);
      }
    }
    return None;
  }

  // ------------------------------------------------------------------ the next upgrade

  function NextUpgrade(ups: seq<UpgradeInfo>, h: int): Option<UpgradeInfo> {
    if ups == [] then None else if ups[0].height > h then Some(ups[0]) else NextUpgrade(ups[1..], h)
  }

  function Pending(ups: seq<UpgradeInfo>, h: int): seq<UpgradeInfo> {
    Filter(ups, (u: UpgradeInfo) => u.height > h)
  }

  method GetNextUpgrade(plan: UpgradePlan, currentHeight: int) returns (next: Option<UpgradeInfo>)
    ensures next == NextUpgrade(plan.upgrades, currentHeight)
  {
    for i := 0 to |plan.upgrades|
      invariant NextUpgrade(plan.upgrades, currentHeight) == NextUpgrade(plan.upgrades[i..], currentHeight)
    {
      if plan.upgrades[i].height > currentHeight {
        return Some(plan.upgrades[i]);
      }
    }
    return None;
  }

  /** The number of upgrades that are done at height `h`. */
  function Completed(ups: seq<UpgradeInfo>, h: int): (k: nat)
    ensures k <= |ups|
  {
    if ups == [] then 0 else (if ups[0].height <= h then 1 else 0) + Completed(ups[1..], h)
  }

  /** In a plan, what is done comes first and the next upgrade is the one right after it. */
  lemma {:induction false} NextFollowsCompleted(ups: seq<UpgradeInfo>, h: int)
    requires Increasing(ups)
    ensures var k := Completed(ups, h);
            NextUpgrade(ups, h) == (if k < |ups| then Some(ups[k]) else None)
    ensures var k := Completed(ups, h);
            forall i :: 0 <= i < |ups| ==> (ups[i].height <= h <==> i < k)
  {
    if ups != [] {
      assert forall i, j :: 0 <= i < j < |ups[1..]| ==> ups[1..][i] == ups[i + 1] && ups[1..][j] == ups[j + 1];
      NextFollowsCompleted(ups[1..], h);
      assert forall i :: 1 <= i < |ups| ==> ups[i] == ups[1..][i - 1];
    }
  }

  /** The next upgrade is the lowest one above the current height, and there is none only past the last. */
  lemma {:induction false} NextIsLeast(ups: seq<UpgradeInfo>, h: int)
    requires Increasing(ups)
    ensures match NextUpgrade(ups, h)
            case Some(u) => u in ups && u.height > h && (forall v :: v in ups && v.height > h ==> u.height <= v.height)
            case None => ups == [] || Last(ups).height <= h
  {
    NextFollowsCompleted(ups, h);
  }

  /** Following the next upgrade from height to height. */
  function Enumerate(ups: seq<UpgradeInfo>, h: int): seq<UpgradeInfo>
    decreases |Pending(ups, h)|
  {
    match NextUpgrade(ups, h)
    case None => []
    case Some(u) =>
      NextLeavesLess(ups, h);
      [u] + Enumerate(ups, u.height)
  }

  lemma {:induction false} NextLeavesLess(ups: seq<UpgradeInfo>, h: int)
    requires NextUpgrade(ups, h).Some?
    ensures NextUpgrade(ups, h).value.height > h
    ensures |Pending(ups, NextUpgrade(ups, h).value.height)| < |Pending(ups, h)|
  {
    if ups[0].height > h {
      PendingShrinks(ups[1..], h, ups[0].height);
    } else {
      NextLeavesLess(ups[1..], h);
    }
  }

  lemma {:induction false} PendingShrinks(ups: seq<UpgradeInfo>, h: int, h': int)
    requires h <= h'
    ensures |Pending(ups, h')| <= |Pending(ups, h)|
  {
    if ups != [] {
      PendingShrinks(ups[1..], h, h');
    }
  }

  lemma {:induction false} EnumerateRest(ups: seq<UpgradeInfo>, h: int, k: nat)
    requires Increasing(ups) && k == Completed(ups, h)
    ensures Enumerate(ups, h) == ups[k..]
    decreases |ups| - k
  {
    NextFollowsCompleted(ups, h);
    if k < |ups| {
      NextFollowsCompleted(ups, ups[k].height);
      assert k + 1 < |ups| ==> ups[k + 1].height > ups[k].height;
      assert Completed(ups, ups[k].height) == k + 1;
      EnumerateRest(ups, ups[k].height, k + 1);
      assert ups[k..] == [ups[k]] + ups[k + 1..];
    }
  }

  /** Asking for the next upgrade again and again, from height 0, lists the plan. */
  lemma {:induction false} EnumeratesPlan(ups: seq<UpgradeInfo>)
    requires Increasing(ups) && WellFormed(ups)
    ensures Enumerate(ups, 0) == ups
  {
    NextFollowsCompleted(ups, 0);
    EnumerateRest(ups, 0, Completed(ups, 0));
  }

  // ------------------------------------------------------------------ the status report

  datatype Status = Status(name: string, total: nat, completed: nat, pending: nat, active: string)

  /** The first name found among the pending upgrades. */
  function Active(ups: seq<UpgradeInfo>, h: int): string {
    if ups == [] then ""
    else if ups[0].height > h && ups[0].name != "" then ups[0].name
    else Active(ups[1..], h)
  }

  method GetPlanStatus(plan: UpgradePlan, currentHeight: int) returns (status: Status)
    ensures status.name == plan.name && status.total == |plan.upgrades|
    ensures status.completed == Completed(plan.upgrades, currentHeight)
    ensures status.completed + status.pending == status.total
    ensures status.active == Active(plan.upgrades, currentHeight)
  {
    var completed, pending, active := 0, 0, "";
    for i := 0 to |plan.upgrades|
      invariant completed + pending == i
      invariant completed + Completed(plan.upgrades[i..], currentHeight) == Completed(plan.upgrades, currentHeight)
      invariant Active(plan.upgrades, currentHeight)
             == if active == "" then Active(plan.upgrades[i..], currentHeight) else active
    {
      if plan.upgrades[i].height <= currentHeight {
        completed := completed + 1;
      } else {
        pending := pending + 1;
        if active == "" {
          active := plan.upgrades[i].name;
        }
      }
    }
    return Status(plan.name, |plan.upgrades|, completed, pending, active);
  }

  lemma {:induction false} ActiveIsFirstNamed(ups: seq<UpgradeInfo>, h: int)
    ensures Active(ups, h) == "" <==> forall i :: 0 <= i < |ups| && ups[i].height > h ==> ups[i].name == ""
    ensures Active(ups, h) != "" ==>
              exists i :: 0 <= i < |ups| && ups[i].height > h && ups[i].name == Active(ups, h)
                       && forall j :: 0 <= j < i && ups[j].height > h ==> ups[j].name == ""
  {
    if ups != [] {
      ActiveIsFirstNamed(ups[1..], h);
      assert forall i :: 1 <= i < |ups| ==> ups[i] == ups[1..][i - 1];
      if Active(ups, h) != "" && !(ups[0].height > h && ups[0].name != "") {
        var i :| 0 <= i < |ups[1..]| && ups[1..][i].height > h && ups[1..][i].name == Active(ups, h)
                 && forall j :: 0 <= j < i && ups[1..][j].height > h ==> ups[1..][j].name == "";
        assert ups[i + 1] == ups[1..][i];
      }
    }
  }

  function NameOf(u: Option<UpgradeInfo>): string {
    if u.Some? then u.value.name else ""
  }

  /** The report names the next upgrade, unless that one has no name and a later one has. */
  lemma {:induction false} ActiveNamesNext(ups: seq<UpgradeInfo>, h: int)
    ensures Active(ups, h) == NameOf(NextUpgrade(ups, h))
       <==> (NextUpgrade(ups, h).None? || NextUpgrade(ups, h).value.name != ""
             || forall i :: 0 <= i < |ups| && ups[i].height > h ==> ups[i].name == "")
  {
    ActiveIsFirstNamed(ups, h);
    if ups != [] && ups[0].height <= h {
      ActiveNamesNext(ups[1..], h);
      assert forall i :: 1 <= i < |ups| ==> ups[i] == ups[1..][i - 1];
    } else if ups == [] {
      assert NextUpgrade(ups, h).None?;
    }
  }

  // ------------------------------------------------------------------ the coordination loop

  const PREPARE_WITHIN: int := 10

  datatype Coordination = Coordination(
    done: bool,                  // "all upgrades completed": the loop has returned
    prepared: seq<UpgradeInfo>,  // the calls of prepareUpgrade
    triggered: seq<UpgradeInfo>, // the calls of triggerUpgrade
    seen: seq<int>)              // history: the heights of the states read

  /** One state from the channel; `None` is a nil state. */
  function Observe(ups: seq<UpgradeInfo>, c: Coordination, state: Option<int>): Coordination {
    if c.done || state.None? then c
    else
      var h := state.value;
      var next := NextUpgrade(ups, h);
      var c := c.(seen := c.seen + [h]);
      if next.None? then c.(done := true)
      else
        var c := if 0 < next.value.height - h <= PREPARE_WITHIN then c.(prepared := c.prepared + [next.value]) else c;
        if h >= next.value.height then c.(triggered := c.triggered + [next.value]) else c
  }

  function Coordinate(ups: seq<UpgradeInfo>, states: seq<Option<int>>): Coordination {
    if states == [] then Coordination(false, [], [], [])
    else Observe(ups, Coordinate(ups, DropLast(states)), Last(states))
  }

  lemma {:induction false} NextIsAbove(ups: seq<UpgradeInfo>, h: int)
    ensures var next := NextUpgrade(ups, h); next.Some? ==> next.value.height > h && next.value in ups
  {
    if ups != [] {
      NextIsAbove(ups[1..], h);
    }
  }

  /** The branch for a reached height is never taken: the next upgrade lies above the current height. */
  lemma {:induction false} NeverTriggers(ups: seq<UpgradeInfo>, states: seq<Option<int>>)
    ensures Coordinate(ups, states).triggered == []
  {
    if states != [] {
      NeverTriggers(ups, DropLast(states));
      if Last(states).Some? {
        NextIsAbove(ups, Last(states).value);
      }
    }
  }

  predicate PastPlan(ups: seq<UpgradeInfo>, h: int) {
    ups == [] || Last(ups).height <= h
  }

  /** The loop ends exactly with the first height that is at or past the whole plan. */
  lemma {:induction false} EndsPastLast(ups: seq<UpgradeInfo>, states: seq<Option<int>>)
    requires Increasing(ups)
    ensures var c := Coordinate(ups, states);
            c.done <==> c.seen != [] && PastPlan(ups, Last(c.seen))
    ensures var c := Coordinate(ups, states);
            forall i :: 0 <= i < |c.seen| - 1 ==> !PastPlan(ups, c.seen[i])
  {
    if states != [] {
      EndsPastLast(ups, DropLast(states));
      var before, c := Coordinate(ups, DropLast(states)), Coordinate(ups, states);
      if c.seen != before.seen {
        NextIsLeast(ups, Last(states).value);
        assert c.seen == before.seen + [Last(states).value];
        assert forall i :: 0 <= i < |before.seen| ==> !PastPlan(ups, before.seen[i]);
      }
    }
  }

  /**
   * The observed heights start below the plan and never advance by more than ten blocks, nor by more
   * than the distance of two neighbouring upgrades.
   */
  ghost predicate Smooth(ups: seq<UpgradeInfo>, seen: seq<int>) {
    && (ups != [] && seen != [] ==> seen[0] < ups[0].height)
    && forall i :: 0 <= i < |seen| - 1 ==> SmallStep(ups, seen[i], seen[i + 1])
  }

  ghost predicate SmallStep(ups: seq<UpgradeInfo>, h: int, h': int) {
    && h' - h <= PREPARE_WITHIN
    && forall k :: 0 < k < |ups| ==> h' - h <= ups[k].height - ups[k - 1].height
  }

  /** Everything at or below an observed height has been prepared, and so has whatever is close. */
  ghost predicate Covered(ups: seq<UpgradeInfo>, c: Coordination) {
    && (forall i, k :: 0 <= i < |c.seen| && 0 <= k < |ups| && ups[k].height <= c.seen[i] ==> ups[k] in c.prepared)
    && (c.seen != [] ==>
        var k := Completed(ups, Last(c.seen));
        k < |ups| && ups[k].height - Last(c.seen) <= PREPARE_WITHIN ==> ups[k] in c.prepared)
  }

  lemma {:induction false} SmoothPrefix(ups: seq<UpgradeInfo>, seen: seq<int>, h: int)
    requires Smooth(ups, seen + [h])
    ensures Smooth(ups, seen)
    ensures seen != [] ==> SmallStep(ups, Last(seen), h)
    ensures seen == [] && ups != [] ==> h < ups[0].height
  {
    assert seen != [] ==> (seen + [h])[0] == seen[0];
    forall i | 0 <= i < |seen| - 1
      ensures SmallStep(ups, seen[i], seen[i + 1])
    {
      assert SmallStep(ups, (seen + [h])[i], (seen + [h])[i + 1]);
    }
    if seen != [] {
      assert SmallStep(ups, (seen + [h])[|seen| - 1], (seen + [h])[|seen|]);
    }
  }

  /** A small step passes at most the upgrade that was next. */
  lemma {:induction false} SmallStepPassesNext(ups: seq<UpgradeInfo>, h: int, h': int, k: nat)
    requires Increasing(ups) && SmallStep(ups, h, h') && k < |ups| && h < ups[k].height <= h'
    ensures k == Completed(ups, h) && ups[k].height - h <= PREPARE_WITHIN
  {
    NextFollowsCompleted(ups, h);
    if k > 0 {
      assert h' - h <= ups[k].height - ups[k - 1].height;
    }
  }

  lemma {:induction false} ObserveKeepsCovered(ups: seq<UpgradeInfo>, c: Coordination, h: int)
    requires Increasing(ups) && !c.done && Covered(ups, c)
    requires if c.seen == [] then ups != [] ==> h < ups[0].height else SmallStep(ups, Last(c.seen), h)
    ensures Covered(ups, Observe(ups, c, Some(h)))
  {
    var after := Observe(ups, c, Some(h));
    NextFollowsCompleted(ups, h);
    forall k | 0 <= k < |ups| && ups[k].height <= h
      ensures ups[k] in c.prepared
    {
      if c.seen != [] && ups[k].height > Last(c.seen) {
        SmallStepPassesNext(ups, Last(c.seen), h, k);
      }
    }
    assert forall i :: 0 <= i < |c.seen| ==> after.seen[i] == c.seen[i];
    assert Last(after.seen) == h && forall u :: u in c.prepared ==> u in after.prepared;
  }

  /** Whatever the chain has passed was prepared before. */
  lemma {:induction false} PassedIsPrepared(ups: seq<UpgradeInfo>, states: seq<Option<int>>)
    requires Increasing(ups) && Smooth(ups, Coordinate(ups, states).seen)
    ensures Covered(ups, Coordinate(ups, states))
  {
    if states != [] {
      var before, after := Coordinate(ups, DropLast(states)), Coordinate(ups, states);
      if after.seen == before.seen {
        PassedIsPrepared(ups, DropLast(states));
      } else {
        var h := Last(states).value;
        assert after.seen == before.seen + [h];
        SmoothPrefix(ups, before.seen, h);
        PassedIsPrepared(ups, DropLast(states));
        ObserveKeepsCovered(ups, before, h);
      }
    }
  }

  ghost predicate NonDecreasing(seen: seq<int>) {
    forall i, j :: 0 <= i < j < |seen| ==> seen[i] <= seen[j]
  }

  /** `prepared` runs through the first `m` upgrades in plan order, possibly repeating each. */
  ghost predicate RunsThrough(ups: seq<UpgradeInfo>, m: nat, prepared: seq<UpgradeInfo>)
    requires m <= |ups|
  {
    && (forall i, j :: 0 <= i < j < |prepared| ==> prepared[i].height <= prepared[j].height)
    && (forall k :: 0 <= k < m ==> ups[k] in prepared)
    && (forall i :: 0 <= i < |prepared| ==> prepared[i] in ups[..m])
  }

  /** The number of upgrades prepared when the last height seen is `h`. */
  function PreparedCount(ups: seq<UpgradeInfo>, h: int): (m: nat)
    ensures m <= |ups|
  {
    var k := Completed(ups, h);
    if k < |ups| && ups[k].height - h <= PREPARE_WITHIN then k + 1 else k
  }

  lemma {:induction false} PreparedCountGrows(ups: seq<UpgradeInfo>, h: int, h': int)
    requires Increasing(ups) && h <= h'
    ensures PreparedCount(ups, h) <= PreparedCount(ups, h') && Completed(ups, h) <= Completed(ups, h')
  {
    NextFollowsCompleted(ups, h);
    NextFollowsCompleted(ups, h');
    var k, k' := Completed(ups, h), Completed(ups, h');
    if k > 0 {
      assert ups[k - 1].height <= h;
    }
  }

  lemma {:induction false} RunsThroughGrows(
      ups: seq<UpgradeInfo>, m: nat, m': nat, prepared: seq<UpgradeInfo>, prepared': seq<UpgradeInfo>)
    requires Increasing(ups) && m <= m' <= |ups| && RunsThrough(ups, m, prepared)
    requires prepared' == prepared || (m' > 0 && prepared' == prepared + [ups[m' - 1]])
    requires forall k :: 0 <= k < m' ==> ups[k] in prepared'
    ensures RunsThrough(ups, m', prepared')
  {
    forall i | 0 <= i < |prepared|
      ensures prepared[i] in ups[..m'] && (m' > 0 ==> prepared[i].height <= ups[m' - 1].height)
    {
      var k :| 0 <= k < m && ups[k] == prepared[i];
      assert ups[..m'][k] == prepared[i];
    }
    assert m' > 0 ==> ups[..m'][m' - 1] == ups[m' - 1];
  }

  /** What one state adds is the last of the upgrades then prepared. */
  lemma {:induction false} AddsLastPrepared(ups: seq<UpgradeInfo>, c: Coordination, h: int)
    requires Increasing(ups) && !c.done && Covered(ups, Observe(ups, c, Some(h)))
    ensures var m, after := PreparedCount(ups, h), Observe(ups, c, Some(h)).prepared;
            && (after == c.prepared || (m > 0 && after == c.prepared + [ups[m - 1]]))
            && forall k :: 0 <= k < m ==> ups[k] in after
  {
    NextFollowsCompleted(ups, h);
    var after := Observe(ups, c, Some(h));
    assert after.seen[|c.seen|] == h && Last(after.seen) == h;
  }

  /** The number of upgrades prepared after having seen these heights. */
  function Reached(ups: seq<UpgradeInfo>, seen: seq<int>): (m: nat)
    ensures m <= |ups|
  {
    if seen == [] then 0 else PreparedCount(ups, Last(seen))
  }

  lemma {:induction false} ObserveRunsThrough(ups: seq<UpgradeInfo>, c: Coordination, h: int)
    requires Increasing(ups) && !c.done && Covered(ups, Observe(ups, c, Some(h)))
    requires RunsThrough(ups, Reached(ups, c.seen), c.prepared) && (c.seen != [] ==> Last(c.seen) <= h)
    ensures RunsThrough(ups, PreparedCount(ups, h), Observe(ups, c, Some(h)).prepared)
  {
    AddsLastPrepared(ups, c, h);
    if c.seen != [] {
      PreparedCountGrows(ups, Last(c.seen), h);
    }
    RunsThroughGrows(ups, Reached(ups, c.seen), PreparedCount(ups, h), c.prepared, Observe(ups, c, Some(h)).prepared);
  }

  lemma NonDecreasingPrefix(seen: seq<int>, h: int)
    requires NonDecreasing(seen + [h])
    ensures NonDecreasing(seen) && (seen != [] ==> Last(seen) <= h)
  {
    var all := seen + [h];
    assert forall i :: 0 <= i < |seen| ==> all[i] == seen[i];
    assert all[|seen|] == h;
  }

  /** On a chain that does not go back, the upgrades are prepared in plan order, none left out. */
  lemma {:induction false} PreparedInPlanOrder(ups: seq<UpgradeInfo>, states: seq<Option<int>>)
    requires Increasing(ups) && Smooth(ups, Coordinate(ups, states).seen) && NonDecreasing(Coordinate(ups, states).seen)
    ensures RunsThrough(ups, Reached(ups, Coordinate(ups, states).seen), Coordinate(ups, states).prepared)
  {
    if states != [] {
      var before, after := Coordinate(ups, DropLast(states)), Coordinate(ups, states);
      if after.seen == before.seen {
        PreparedInPlanOrder(ups, DropLast(states));
      } else {
        var h := Last(states).value;
        assert after.seen == before.seen + [h];
        SmoothPrefix(ups, before.seen, h);
        NonDecreasingPrefix(before.seen, h);
        PreparedInPlanOrder(ups, DropLast(states));
        PassedIsPrepared(ups, states);
        ObserveRunsThrough(ups, before, h);
      }
    }
  }

  /** When such a run ends, the whole plan has been prepared, in order. */
  lemma {:induction false} CompletedPlanWasPrepared(ups: seq<UpgradeInfo>, states: seq<Option<int>>)
    requires Increasing(ups) && Smooth(ups, Coordinate(ups, states).seen) && NonDecreasing(Coordinate(ups, states).seen)
    requires Coordinate(ups, states).done
    ensures RunsThrough(ups, |ups|, Coordinate(ups, states).prepared)
  {
    PreparedInPlanOrder(ups, states);
    EndsPastLast(ups, states);
    NextFollowsCompleted(ups, Last(Coordinate(ups, states).seen));
  }

  /** At height `h` upgrade `k` is the next one and close enough to be prepared. */
  predicate InWindow(ups: seq<UpgradeInfo>, k: nat, h: int)
    requires k < |ups|
  {
    (k > 0 ==> ups[k - 1].height <= h) && ups[k].height - 10 <= h < ups[k].height
  }

  ghost predicate WindowSeen(ups: seq<UpgradeInfo>, k: nat, seen: seq<int>)
    requires k < |ups|
  {
    exists i :: 0 <= i < |seen| && InWindow(ups, k, seen[i])
  }

  lemma {:induction false} PreparesInWindow(ups: seq<UpgradeInfo>, c: Coordination, h: int, k: nat)
    requires Increasing(ups) && !c.done && k < |ups|
    ensures ups[k] in Observe(ups, c, Some(h)).prepared <==> ups[k] in c.prepared || InWindow(ups, k, h)
  {
    NextFollowsCompleted(ups, h);
  }

  /** For every run: an upgrade was prepared exactly if a height was seen within ten blocks below it with it next. */
  lemma {:induction false} PreparedIffWindowSeen(ups: seq<UpgradeInfo>, states: seq<Option<int>>, k: nat)
    requires Increasing(ups) && k < |ups|
    ensures ups[k] in Coordinate(ups, states).prepared <==> WindowSeen(ups, k, Coordinate(ups, states).seen)
  {
    if states != [] {
      var before, after := Coordinate(ups, DropLast(states)), Coordinate(ups, states);
      PreparedIffWindowSeen(ups, DropLast(states), k);
      if after.seen != before.seen {
        var h := Last(states).value;
        PreparesInWindow(ups, before, h, k);
        assert after.seen == before.seen + [h];
        assert after.seen[|before.seen|] == h && forall i :: 0 <= i < |before.seen| ==> after.seen[i] == before.seen[i];
      }
    }
  }

  ghost predicate NotAfterNext(ups: seq<UpgradeInfo>, u: UpgradeInfo, h: int) {
    forall k :: Completed(ups, h) <= k < |ups| ==> u.height <= ups[k].height
  }

  lemma {:induction false} NextMovesUp(ups: seq<UpgradeInfo>, u: UpgradeInfo, h: int, h': int)
    requires Increasing(ups) && h <= h' && NotAfterNext(ups, u, h)
    ensures NotAfterNext(ups, u, h')
  {
    PreparedCountGrows(ups, h, h');
  }

  /** Upgrades of the plan, in plan order, none behind the one that is next at `h`. */
  ghost predicate SortedUpTo(ups: seq<UpgradeInfo>, prepared: seq<UpgradeInfo>, h: int) {
    && (forall i, j :: 0 <= i < j < |prepared| ==> prepared[i].height <= prepared[j].height)
    && (forall i :: 0 <= i < |prepared| ==> prepared[i] in ups && NotAfterNext(ups, prepared[i], h))
  }

  lemma {:induction false} SortedUpToLater(ups: seq<UpgradeInfo>, prepared: seq<UpgradeInfo>, h: int, h': int)
    requires Increasing(ups) && h <= h' && SortedUpTo(ups, prepared, h)
    ensures SortedUpTo(ups, prepared, h')
  {
    forall i | 0 <= i < |prepared|
      ensures NotAfterNext(ups, prepared[i], h')
    {
      NextMovesUp(ups, prepared[i], h, h');
    }
  }

  lemma {:induction false} ObserveSorted(ups: seq<UpgradeInfo>, c: Coordination, h: int)
    requires Increasing(ups) && !c.done && SortedUpTo(ups, c.prepared, h)
    ensures SortedUpTo(ups, Observe(ups, c, Some(h)).prepared, h)
  {
    NextFollowsCompleted(ups, h);
  }

  /** On a chain that does not go back, preparations come in plan order, however fast it advances. */
  lemma {:induction false} PreparedSorted(ups: seq<UpgradeInfo>, states: seq<Option<int>>)
    requires Increasing(ups) && NonDecreasing(Coordinate(ups, states).seen)
    ensures var c := Coordinate(ups, states);
            if c.seen == [] then c.prepared == [] else SortedUpTo(ups, c.prepared, Last(c.seen))
  {
    if states != [] {
      var before, after := Coordinate(ups, DropLast(states)), Coordinate(ups, states);
      if after.seen == before.seen {
        assert after == before;
        PreparedSorted(ups, DropLast(states));
      } else {
        var h := Last(states).value;
        assert after == Observe(ups, before, Some(h)) && after.seen == before.seen + [h];
        NonDecreasingPrefix(before.seen, h);
        PreparedSorted(ups, DropLast(states));
        if before.seen != [] {
          SortedUpToLater(ups, before.prepared, Last(before.seen), h);
        }
        ObserveSorted(ups, before, h);
      }
    }
  }

  /**
   * For every run that ends on a chain that does not go back: the whole plan was prepared in order exactly if
   * for each upgrade some height was seen within its window.
   */
  lemma {:induction false} WhollyPreparedIff(ups: seq<UpgradeInfo>, states: seq<Option<int>>)
    requires Increasing(ups) && NonDecreasing(Coordinate(ups, states).seen) && Coordinate(ups, states).done
    ensures RunsThrough(ups, |ups|, Coordinate(ups, states).prepared)
       <==> forall k :: 0 <= k < |ups| ==> WindowSeen(ups, k, Coordinate(ups, states).seen)
  {
    PreparedSorted(ups, states);
    assert ups[..|ups|] == ups;
    forall k | 0 <= k < |ups|
      ensures ups[k] in Coordinate(ups, states).prepared <==> WindowSeen(ups, k, Coordinate(ups, states).seen)
    {
      PreparedIffWindowSeen(ups, states, k);
    }
  }

  /** A chain that advances faster passes an upgrade without preparing it, and the loop still ends as completed. */
  lemma {:induction false} FastChainSkipsPreparation(name: string)
    ensures var ups := [UpgradeInfo(name, 50)];
            Coordinate(ups, [Some(39), Some(50)]) == Coordination(true, [], [], [39, 50])
  {
    var ups := [UpgradeInfo(name, 50)];
    assert DropLast([Some(39), Some(50)]) == [Some(39)] && DropLast([Some(39)]) == [];
    assert ups[1..] == [] && NextUpgrade(ups, 50).None? && NextUpgrade(ups, 39) == Some(ups[0]);
    assert Coordinate(ups, [Some(39)]) == Coordination(false, [], [], [39]);
  }

  /** Once the loop has returned, further states are not read. */
  lemma {:induction false} DoneStays(ups: seq<UpgradeInfo>, states: seq<Option<int>>, i: nat)
    requires i <= |states| && Coordinate(ups, states[..i]).done
    ensures Coordinate(ups, states) == Coordinate(ups, states[..i])
  {
    if i == |states| {
      assert states[..i] == states;
    } else {
      assert DropLast(states)[..i] == states[..i];
      DoneStays(ups, DropLast(states), i);
    }
  }

  datatype Outcome = NoActivePlan | NotReady | NoHeight | AllCompleted | Cancelled

  class Coordinator {
    var activePlan: Option<UpgradePlan>

    constructor ()
      ensures activePlan == None
    {
      activePlan := None;
    }

    /** `loaded` is what was read from the plan file. */
    method LoadPlan(loaded: Option<UpgradePlan>) returns (ok: bool)
      modifies this
      ensures ok <==> loaded.Some? && Validates(loaded.value)
      ensures activePlan == if ok then loaded else old(activePlan)
    {
      if loaded.None? {
        return false;
      }
      var objection := ValidatePlan(loaded);
      if objection.Some? {
        return false;
      }
      activePlan := loaded;
      return true;
    }

    /** The states up to the cancellation of the context; the loop may return before it has read them all. */
    method MonitorAndCoordinate(ready: bool, height: Option<int>, states: seq<Option<int>>)
      returns (outcome: Outcome, prepared: seq<UpgradeInfo>)
      ensures outcome == NoActivePlan <==> activePlan.None?
      ensures outcome == NotReady <==> activePlan.Some? && !ready
      ensures outcome == NoHeight <==> activePlan.Some? && ready && height.None?
      ensures activePlan.Some? && ready && height.Some? ==>
                var c := Coordinate(activePlan.value.upgrades, states);
                prepared == c.prepared && outcome == (if c.done then AllCompleted else Cancelled)
    {
      prepared := [];
      if activePlan.None? {
        return NoActivePlan, prepared;
      }
      if !ready {
        return NotReady, prepared;
      }
      if height.None? {
        return NoHeight, prepared;
      }
      var plan := activePlan.value;
      ghost var seen := [];
      for i := 0 to |states|
        invariant Coordinate(plan.upgrades, states[..i]) == Coordination(false, prepared, [], seen)
      {
        assert DropLast(states[..i + 1]) == states[..i] && Last(states[..i + 1]) == states[i];
        if states[i].Some? {
          var h := states[i].value;
          NextIsAbove(plan.upgrades, h);
          var nextUpgrade := GetNextUpgrade(plan, h);
          if nextUpgrade.None? {
            DoneStays(plan.upgrades, states, i + 1);
            return AllCompleted, prepared;
          }
          seen := seen + [h];
          var blocksUntilUpgrade := nextUpgrade.value.height - h;
          if 0 < blocksUntilUpgrade <= PREPARE_WITHIN {
            prepared := prepared + [nextUpgrade.value];
          }
          if h >= nextUpgrade.value.height {
            assert false; // triggerUpgrade would be called here
          }
        }
      }
      assert states[..|states|] == states;
      return Cancelled, prepared;
    }
  }
}
