/**
 * The upgrade file watcher of internal/upgrade/watcher.go.
 *
 * The watcher reads the file again only if its modification time is later than the one it read last.
 * The main theorem compares it with a watcher that reads the file on every poll.
 */
module FileWatcher {
  import opened Sequences

  datatype UpgradeInfo = UpgradeInfo(name: string, height: int, details: string)

  datatype Content = Empty | Malformed | Json(info: UpgradeInfo)

  datatype File = Absent | Present(mtime: int, content: Content)

  /** What the operating system may do to one look at the file. */
  datatype Fault = NoFault | StatFails | ReadFails

  /** The outcome of checkFile. `Unchanged` stands for "no info and no error". */
  datatype Check = Unchanged | Failed | Found(mtime: int, info: UpgradeInfo)

  datatype State = State(
    file: File,
    lastModTime: int, // 0 is Go's zero time
    current: Option<UpgradeInfo>,
    needsUpdate: bool,
    initialized: bool)

  datatype Step =
    | Write(mtime: int, content: Content)
    | Delete
    | Start(fault: Fault)
    | Poll(fault: Fault)
    | ClearUpdateFlag

  function Init(): State {
    State(Absent, 0, None, false, false)
  }

  /** ParseUpgradeInfoFile accepts no upgrade without a name or with a height that is not positive. */
  function Parse(content: Content): Option<UpgradeInfo> {
    if content.Json? && content.info.name != "" && content.info.height > 0 then Some(content.info) else None
  }

  /** With `skip` a file that is not newer than `lastModTime` is not read. */
  function CheckFile(skip: bool, lastModTime: int, file: File, fault: Fault): Check {
    if fault.StatFails? then Failed
    else if file.Absent? then Unchanged
    else if file.content.Empty? then Failed
    else if skip && file.mtime <= lastModTime then Unchanged
    else if fault.ReadFails? || Parse(file.content).None? then Failed
    else Found(file.mtime, Parse(file.content).value)
  }

  /** The file holds an upgrade with a name and a positive height. */
  predicate Readable(file: File) {
    file.Present? && file.content.Json? && file.content.info.name != "" && file.content.info.height >= 1
  }

  /**
   * A look finds an upgrade exactly if nothing goes wrong, the file holds one, and it is newer than the last one
   * read or is read in any case; it reports a failure exactly for a fault that matters or a file without one.
   */
  lemma {:induction false} CheckMeans(skip: bool, lastModTime: int, file: File, fault: Fault)
    ensures var check := CheckFile(skip, lastModTime, file, fault);
            var newer := file.Present? && (skip ==> file.mtime > lastModTime);
            && (check.Found? <==> fault == NoFault && newer && Readable(file))
            && (check.Found? ==> check == Found(file.mtime, file.content.info))
            && (check.Failed? <==>
                  || fault == StatFails
                  || (file.Present? && file.content == Empty)
                  || (newer && (fault == ReadFails || !Readable(file))))
  {
  }

  predicate SameUpgrade(a: UpgradeInfo, b: UpgradeInfo) {
    a.name == b.name && a.height == b.height
  }

  function Noticed(s: State, check: Check): State {
    if !check.Found? then s
    else
      var s := s.(lastModTime := check.mtime);
      if s.current.Some? && SameUpgrade(check.info, s.current.value) then s
      else s.(current := Some(check.info), needsUpdate := true)
  }

  function Next(skip: bool, s: State, step: Step): State {
    match step
    case Write(mtime, content) => s.(file := Present(mtime, content))
    case Delete => s.(file := Absent)
    case Start(fault) =>
      if s.initialized then s
      else
        var check := CheckFile(skip, s.lastModTime, s.file, fault);
        var s := s.(initialized := true);
        if check.Found? then s.(lastModTime := check.mtime, current := Some(check.info)) else s
    case Poll(fault) =>
      if s.initialized then Noticed(s, CheckFile(skip, s.lastModTime, s.file, fault)) else s
    case ClearUpdateFlag => s.(needsUpdate := false)
  }

  function Run(skip: bool, steps: seq<Step>): State {
    if steps == [] then Init() else Next(skip, Run(skip, DropLast(steps)), Last(steps))
  }

  /** The latest modification time that a write has given the file. */
  function Latest(steps: seq<Step>): int {
    if steps == [] then 0
    else if Last(steps).Write? then Max(Last(steps).mtime, Latest(DropLast(steps)))
    else Latest(DropLast(steps))
  }

  /** Every write gives the file a later modification time than all writes before it. */
  predicate LaterWrites(steps: seq<Step>) {
    steps == [] || (LaterWrites(DropLast(steps))
        && (Last(steps).Write? ==> Last(steps).mtime > Latest(DropLast(steps))))
  }

  /** A file that is skipped holds the upgrade that is already current. */
  ghost predicate Inv(s: State, latest: int) {
    && s.lastModTime <= latest
    && (s.file.Present? ==> s.file.mtime <= latest)
    && (s.file.Present? && s.file.mtime <= s.lastModTime ==>
          && Parse(s.file.content).Some? && s.current.Some?
          && SameUpgrade(Parse(s.file.content).value, s.current.value))
  }

  lemma {:induction false} RunInv(steps: seq<Step>)
    requires LaterWrites(steps)
    ensures Inv(Run(true, steps), Latest(steps))
  {
    if steps != [] {
      RunInv(DropLast(steps));
    }
  }

  /** The two watchers agree after these steps, on everything but the time they remember. */
  predicate Agree(steps: seq<Step>) {
    var s, r := Run(true, steps), Run(false, steps);
    s.file == r.file && s.current == r.current && s.needsUpdate == r.needsUpdate && s.initialized == r.initialized
  }

  predicate AgreeThroughout(steps: seq<Step>) {
    steps == [] || (AgreeThroughout(DropLast(steps)) && Agree(steps))
  }

  /** A look at the file that skips an upgrade other than the current one. */
  predicate Misses(s: State, step: Step) {
    && (if s.initialized then step == Poll(NoFault) else step == Start(NoFault))
    && s.file.Present? && s.file.mtime <= s.lastModTime && Parse(s.file.content).Some?
    && !(s.current.Some? && SameUpgrade(Parse(s.file.content).value, s.current.value))
  }

  predicate NeverMisses(steps: seq<Step>) {
    steps == [] || (NeverMisses(DropLast(steps)) && !Misses(Run(true, DropLast(steps)), Last(steps)))
  }

  /** For every run: the skipping watcher agrees with the rereading one all along exactly if it never misses. */
  lemma {:induction false} AgreeIffNeverMisses(steps: seq<Step>)
    ensures AgreeThroughout(steps) <==> NeverMisses(steps)
  {
    if steps != [] {
      AgreeIffNeverMisses(DropLast(steps));
      if AgreeThroughout(DropLast(steps)) {
        ThroughoutAgrees(DropLast(steps));
        StepAgrees(DropLast(steps), Last(steps));
        assert DropLast(steps) + [Last(steps)] == steps;
      }
    }
  }

  lemma ThroughoutAgrees(steps: seq<Step>)
    requires AgreeThroughout(steps)
    ensures Agree(steps)
  {
  }

  lemma {:induction false} StepAgrees(steps: seq<Step>, step: Step)
    requires Agree(steps)
    ensures Agree(steps + [step]) <==> !Misses(Run(true, steps), step)
  {
    RunAppend(true, steps, step);
    RunAppend(false, steps, step);
    UninitializedHasReadNothing(steps);
  }

  /** Skipping by modification time is invisible: same upgrade, same flag, whatever happens to the file. */
  lemma {:induction false} SkipRefinesReread(steps: seq<Step>)
    requires LaterWrites(steps)
    ensures AgreeThroughout(steps) && Agree(steps)
  {
    LaterWritesNeverMiss(steps);
    AgreeIffNeverMisses(steps);
    ThroughoutAgrees(steps);
  }

  lemma {:induction false} LaterWritesNeverMiss(steps: seq<Step>)
    requires LaterWrites(steps)
    ensures NeverMisses(steps)
  {
    if steps != [] {
      LaterWritesNeverMiss(DropLast(steps));
      RunInv(DropLast(steps));
    }
  }

  lemma {:induction false} UninitializedHasReadNothing(steps: seq<Step>)
    ensures !Run(true, steps).initialized ==> Run(true, steps).lastModTime == 0 && Run(true, steps).current == None
  {
    if steps != [] {
      UninitializedHasReadNothing(DropLast(steps));
    }
  }

  /** Without that condition it is not: a second write within the same clock tick goes unnoticed. */
  lemma {:induction false} SameTimeWriteIsMissed(first: UpgradeInfo, second: UpgradeInfo)
    requires first.name != "" && first.height > 0 && second.name != "" && second.height > 0
    requires !SameUpgrade(first, second)
    ensures var steps := [Start(NoFault), Write(1, Json(first)), Poll(NoFault), Write(1, Json(second)), Poll(NoFault)];
            Run(true, steps).current == Some(first) && Run(false, steps).current == Some(second)
  {
    SameTimeRun(true, first, second);
    SameTimeRun(false, first, second);
  }

  lemma {:induction false} SameTimeRun(skip: bool, first: UpgradeInfo, second: UpgradeInfo)
    requires first.name != "" && first.height > 0 && second.name != "" && second.height > 0
    requires !SameUpgrade(first, second)
    ensures Run(skip, [Start(NoFault), Write(1, Json(first)), Poll(NoFault),
                       Write(1, Json(second)), Poll(NoFault)]).current
         == Some(if skip then first else second)
  {
    RunFive(skip, Start(NoFault), Write(1, Json(first)), Poll(NoFault), Write(1, Json(second)), Poll(NoFault));
    SameTimeStates(skip, first, second);
  }

  lemma SameTimeStates(skip: bool, first: UpgradeInfo, second: UpgradeInfo)
    requires first.name != "" && first.height > 0 && second.name != "" && second.height > 0
    requires !SameUpgrade(first, second)
    ensures var started := Next(skip, Init(), Start(NoFault));
            var polled := Next(skip, Next(skip, started, Write(1, Json(first))), Poll(NoFault));
            var again := Next(skip, Next(skip, polled, Write(1, Json(second))), Poll(NoFault));
            again.current == Some(if skip then first else second)
  {
    var started := Next(skip, Init(), Start(NoFault));
    assert started == State(Absent, 0, None, false, true);
    var polled := Next(skip, Next(skip, started, Write(1, Json(first))), Poll(NoFault));
    assert polled == State(Present(1, Json(first)), 1, Some(first), true, true);
  }

  lemma RunTwo(skip: bool, a: Step, b: Step)
    ensures Run(skip, [a, b]) == Next(skip, Next(skip, Init(), a), b)
  {
    RunAppend(skip, [], a);
    assert [] + [a] == [a];
    RunAppend(skip, [a], b);
    assert [a] + [b] == [a, b];
  }

  lemma RunFour(skip: bool, a: Step, b: Step, c: Step, d: Step)
    ensures Run(skip, [a, b, c, d]) == Next(skip, Next(skip, Next(skip, Next(skip, Init(), a), b), c), d)
  {
    RunTwo(skip, a, b);
    RunAppend(skip, [a, b], c);
    assert [a, b] + [c] == [a, b, c];
    RunAppend(skip, [a, b, c], d);
    assert [a, b, c] + [d] == [a, b, c, d];
  }

  lemma RunFive(skip: bool, a: Step, b: Step, c: Step, d: Step, e: Step)
    ensures Run(skip, [a, b, c, d, e])
        == Next(skip, Next(skip, Next(skip, Next(skip, Next(skip, Init(), a), b), c), d), e)
  {
    RunFour(skip, a, b, c, d);
    RunAppend(skip, [a, b, c, d], e);
    assert [a, b, c, d] + [e] == [a, b, c, d, e];
  }

  lemma RunAppend(skip: bool, steps: seq<Step>, step: Step)
    ensures Run(skip, steps + [step]) == Next(skip, Run(skip, steps), step)
  {
    assert DropLast(steps + [step]) == steps;
  }

  // ------------------------------------------------------------------ when the flag rises

  function RunFrom(s: State, steps: seq<Step>): State {
    if steps == [] then s else Next(true, RunFrom(s, DropLast(steps)), Last(steps))
  }

  /** Nothing is written but `info` again or what cannot be read. */
  ghost predicate OnlyWrites(steps: seq<Step>, info: UpgradeInfo) {
    forall i :: 0 <= i < |steps| && steps[i].Write? ==>
      Parse(steps[i].content).Some? ==> SameUpgrade(Parse(steps[i].content).value, info)
  }

  lemma {:induction false} QuietAfter(s: State, steps: seq<Step>)
    requires s.initialized && s.current.Some? && !s.needsUpdate && OnlyWrites(steps, s.current.value)
    requires s.file.Present? && Parse(s.file.content).Some? ==>
        SameUpgrade(Parse(s.file.content).value, s.current.value)
    ensures var t := RunFrom(s, steps);
            && t.initialized && t.current == s.current && !t.needsUpdate
            && (t.file.Present? && Parse(t.file.content).Some? ==>
                SameUpgrade(Parse(t.file.content).value, s.current.value))
  {
    if steps != [] {
      assert forall i :: 0 <= i < |DropLast(steps)| ==> DropLast(steps)[i] == steps[i];
      QuietAfter(s, DropLast(steps));
    }
  }

  lemma {:induction false} RunConcat(skip: bool, before: seq<Step>, after: seq<Step>)
    ensures skip ==> Run(skip, before + after) == RunFrom(Run(skip, before), after)
  {
    if after == [] {
      assert before + after == before;
    } else {
      assert DropLast(before + after) == before + DropLast(after);
      RunConcat(skip, before, DropLast(after));
    }
  }

  /** What happens to the file before Start; the last write decides what Start finds. */
  ghost predicate OnlyFile(steps: seq<Step>) {
    forall i :: 0 <= i < |steps| ==> steps[i].Write? || steps[i].Delete?
  }

  lemma {:induction false} BeforeStart(steps: seq<Step>)
    requires OnlyFile(steps)
    ensures var s := Run(true, steps);
            && !s.initialized && !s.needsUpdate && s.current == None && s.lastModTime == 0
            && s.file == if steps == [] || Last(steps).Delete? then Absent
                         else Present(Last(steps).mtime, Last(steps).content)
  {
    if steps != [] {
      assert forall i :: 0 <= i < |DropLast(steps)| ==> DropLast(steps)[i] == steps[i];
      BeforeStart(DropLast(steps));
    }
  }

  /**
   * Start adopts the upgrade it finds and leaves the flag down, and the flag stays down whatever else happens, as
   * long as nothing readable is written but that upgrade: not even when the file disappears and comes back.
   */
  lemma {:induction false} StartAloneIsQuiet(
      before: seq<Step>, mtime: int, info: UpgradeInfo, after: seq<Step>)
    requires OnlyFile(before) && mtime > 0 && info.name != "" && info.height > 0 && OnlyWrites(after, info)
    ensures var s := Run(true, before + [Write(mtime, Json(info))] + [Start(NoFault)] + after);
            s.initialized && s.current == Some(info) && !s.needsUpdate
  {
    var written := before + [Write(mtime, Json(info))];
    assert Last(written) == Write(mtime, Json(info));
    BeforeStart(written);
    RunAppend(true, written, Start(NoFault));
    RunConcat(true, written + [Start(NoFault)], after);
    QuietAfter(Run(true, written + [Start(NoFault)]), after);
  }

  /** Which polls raise the flag, told from the current upgrade alone; a clear lowers it. */
  function Raised(skip: bool, steps: seq<Step>): bool {
    if steps == [] then false
    else
      match Last(steps)
      case Poll(_) => Run(skip, steps).current != Run(skip, DropLast(steps)).current || Raised(skip, DropLast(steps))
      case ClearUpdateFlag => false
      case _ => Raised(skip, DropLast(steps))
  }

  /** In every run the flag is up exactly if a poll has changed the current upgrade since the last clear. */
  lemma {:induction false} FlagIffRaised(skip: bool, steps: seq<Step>)
    ensures Run(skip, steps).needsUpdate <==> Raised(skip, steps)
  {
    if steps != [] {
      FlagIffRaised(skip, DropLast(steps));
    }
  }

  /** A readable upgrade that differs from the current one raises the flag at the next poll. */
  lemma {:induction false} NewUpgradeIsNoticed(steps: seq<Step>, mtime: int, info: UpgradeInfo)
    requires LaterWrites(steps + [Write(mtime, Json(info))]) && Run(true, steps).initialized
    requires info.name != "" && info.height > 0
    requires Run(true, steps).current.Some? ==> !SameUpgrade(info, Run(true, steps).current.value)
    ensures var s := Run(true, steps + [Write(mtime, Json(info)), Poll(NoFault)]);
            s.current == Some(info) && s.needsUpdate
  {
    var written := steps + [Write(mtime, Json(info))];
    assert DropLast(written) == steps && Last(written) == Write(mtime, Json(info));
    RunInv(steps);
    RunAppend(true, steps, Write(mtime, Json(info)));
    RunAppend(true, written, Poll(NoFault));
    assert written + [Poll(NoFault)] == steps + [Write(mtime, Json(info)), Poll(NoFault)];
  }

  // ------------------------------------------------------------------ the implementation

  class FileWatcher {
    var lastModTime: int
    var currentInfo: Option<UpgradeInfo>
    var needsUpdate: bool
    var initialized: bool

    /** The model's state, for a given file. */
    function Contents(file: File): State
      reads this
    {
      State(file, lastModTime, currentInfo, needsUpdate, initialized)
    }

    constructor ()
      ensures Contents(Absent) == Init()
    {
      lastModTime, currentInfo, needsUpdate, initialized := 0, None, false, false;
    }

    method ReadFile(file: File, fault: Fault) returns (check: Check)
      modifies this`lastModTime
      ensures check == CheckFile(true, old(lastModTime), file, fault)
      ensures check.Found? <==> fault == NoFault && Readable(file) && file.mtime > old(lastModTime)
      ensures check.Found? ==> check.info == file.content.info && check.mtime == file.mtime
      ensures lastModTime == if check.Found? then check.mtime else old(lastModTime)
    {
      if fault.StatFails? {
        return Failed;
      }
      if file.Absent? {
        return Unchanged;
      }
      if file.content.Empty? {
        return Failed;
      }
      if file.mtime <= lastModTime {
        return Unchanged;
      }
      var info := Parse(file.content);
      if fault.ReadFails? || info.None? {
        return Failed;
      }
      lastModTime := file.mtime;
      return Found(file.mtime, info.value);
    }

    method Start(file: File, fault: Fault) returns (ok: bool)
      modifies this
      ensures Contents(file) == Next(true, old(Contents(file)), Step.Start(fault))
      ensures initialized && needsUpdate == old(needsUpdate)
      ensures currentInfo ==
                if ok && fault == NoFault && Readable(file) && file.mtime > old(lastModTime)
                then Some(file.content.info) else old(currentInfo)
      ensures lastModTime ==
                if ok && fault == NoFault && Readable(file) && file.mtime > old(lastModTime)
                then file.mtime else old(lastModTime)
      ensures ok <==> !old(initialized)
    {
      if initialized {
        return false;
      }
      var check := ReadFile(file, fault);
      if check.Found? {
        currentInfo := Some(check.info);
      }
      initialized := true;
      return true;
    }

    /** One poll; tells whether an upgrade was detected. Only a started watcher polls. */
    method CheckForUpdate(file: File, fault: Fault) returns (detected: bool)
      requires initialized
      modifies this
      ensures Contents(file) == Next(true, old(Contents(file)), Poll(fault))
      ensures detected <==> currentInfo != old(currentInfo)
      ensures detected <==>
                && fault == NoFault && Readable(file) && file.mtime > old(lastModTime)
                && (old(currentInfo).None? || file.content.info.name != old(currentInfo).value.name
                    || file.content.info.height != old(currentInfo).value.height)
      ensures detected ==> needsUpdate && currentInfo == Some(file.content.info)
      ensures !detected ==> needsUpdate == old(needsUpdate)
    {
      var check := ReadFile(file, fault);
      if check.Failed? {
        return false;
      }
      if check.Unchanged? {
        return false;
      }
      if currentInfo.None? {
        currentInfo := Some(check.info);
        needsUpdate := true;
        return true;
      }
      if check.info.name != currentInfo.value.name || check.info.height != currentInfo.value.height {
        currentInfo := Some(check.info);
        needsUpdate := true;
        return true;
      }
      return false;
    }

    method ClearFlag(file: File)
      modifies this
      ensures Contents(file) == Next(true, old(Contents(file)), ClearUpdateFlag)
      ensures !needsUpdate && currentInfo == old(currentInfo) && lastModTime == old(lastModTime)
      ensures initialized == old(initialized)
    {
      needsUpdate := false;
    }
  }
}
