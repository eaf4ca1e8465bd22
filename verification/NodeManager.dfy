/**
 * The node lifecycle of internal/node/manager.go: user commands, the goroutine that waits for each
 * process, and the sleeping auto-restart goroutines. Restart is one step; Stop is two, because it waits
 * for the process in between. A step that is not enabled leaves the state alone.
 */
module NodeManager {
  import opened Sequences

  datatype NodeState = Stopped | Starting | Running | Stopping | Upgrading | Error | Crashed

  datatype Launch = NoBinary | LaunchFails | Launched

  type Pid = nat

  datatype Manager = Manager(
    state: NodeState,
    process: Option<Pid>,
    doneCh: Option<nat>,     // channels are numbered as they are made
    restartCount: nat,
    maxRestarts: int,
    restartOnFailure: bool,
    stoppers: map<Pid, Option<nat>>, // the Stops under way: the process to go down, the channel they wait for
    sleeping: nat,           // auto-restarts scheduled and not yet carried out
    watched: set<Pid>,       // processes whose exit the monitor goroutines have not yet seen
    pids: nat,               // history: processes launched
    channels: nat,           // history: channels made
    closed: seq<nat>,        // history: channels closed
    schedulings: seq<nat>)   // history: restartCount at each scheduling of an auto-restart

  datatype Step =
    | Start(launch: Launch)
    | StopBegin(signalled: bool)
    | StopFinish(p: Pid) // the Stop of `p` ends: by its channel or by its grace period
    | Restart(signalled: bool, launch: Launch)
    | AutoRestart(signalled: bool, launch: Launch)
    | Exit(p: Pid) // the monitor goroutine of `p` returns from Wait

  function New(maxRestarts: int, restartOnFailure: bool): Manager {
    Manager(Stopped, None, Some(0), 0, if maxRestarts > 0 then maxRestarts else 5, restartOnFailure,
            map[], 0, {}, 0, 1, [], [])
  }

  /** Start under the state mutex; Starting is never seen by anyone else. */
  function Started(m: Manager, launch: Launch): Manager {
    if m.state != Stopped then m
    else if !launch.Launched? then m.(state := Error)
    else m.(state := Running, process := Some(m.pids), watched := m.watched + {m.pids}, pids := m.pids + 1)
  }

  function CloseDone(m: Manager): Manager {
    if m.doneCh.Some? then m.(closed := m.closed + [m.doneCh.value], doneCh := None) else m
  }

  /** cleanupState. */
  function CleanedUp(m: Manager): Manager {
    CloseDone(m.(state := Stopped, process := None))
  }

  /** A Stop within a Restart, all in one: the exit is seen while Stopping. None if no signal gets through. */
  function StoppedAtOnce(m: Manager, signalled: bool): Option<Manager>
    requires m.state.Running? && m.process.Some?
  {
    if signalled then Some(CleanedUp(m.(watched := m.watched - {m.process.value}))) else None
  }

  function RenewDone(m: Manager): Manager {
    if m.doneCh.None? then m.(doneCh := Some(m.channels), channels := m.channels + 1) else m
  }

  function Relaunched(m: Manager, launch: Launch): Manager {
    var s := Started(RenewDone(m), launch);
    if launch.Launched? then s.(restartCount := s.restartCount + 1) else s
  }

  function Restarted(m: Manager, signalled: bool, launch: Launch): Manager {
    if m.state.Running? && m.process.Some? then
      if signalled then Relaunched(StoppedAtOnce(m, true).value, launch) else m.(state := Stopping)
    else Relaunched(m.(state := Stopped, process := if m.state.Stopped? then m.process else None), launch)
  }

  /** handleProcessCrash. */
  function CrashHandled(m: Manager): Manager {
    var c := CloseDone(m.(state := Crashed));
    if c.restartOnFailure && c.restartCount < c.maxRestarts then
      c.(sleeping := c.sleeping + 1, schedulings := c.schedulings + [c.restartCount])
    else c.(state := Error)
  }

  function Next(m: Manager, step: Step): Manager {
    match step
    case Start(launch) => Started(m, launch)
    case StopBegin(signalled) =>
      if !m.state.Running? then m
      else if !signalled || m.process.None? then m.(state := Stopping)
      else m.(state := Stopping, stoppers := m.stoppers[m.process.value := m.doneCh])
    case StopFinish(p) => if p in m.stoppers then CleanedUp(m.(stoppers := m.stoppers - {p})) else m
    case Restart(signalled, launch) => Restarted(m, signalled, launch)
    case AutoRestart(signalled, launch) =>
      if m.sleeping > 0 then Restarted(m.(sleeping := m.sleeping - 1), signalled, launch) else m
    case Exit(p) =>
      if p !in m.watched then m
      else if m.state.Stopping? then m.(watched := m.watched - {p})
      else CrashHandled(m.(watched := m.watched - {p}))
  }

  /** A Stop ends while the node is still stopping, and an exit is seen while it is stopping or running. */
  predicate Timely(m: Manager, step: Step) {
    match step
    case StopFinish(p) => p in m.stoppers ==> m.state.Stopping?
    case Exit(p) => p in m.watched ==> m.state.Stopping? || m.state.Running?
    case _ => true
  }

  function Run(maxRestarts: int, restartOnFailure: bool, steps: seq<Step>): Manager {
    if steps == [] then New(maxRestarts, restartOnFailure)
    else Next(Run(maxRestarts, restartOnFailure, DropLast(steps)), Last(steps))
  }

  ghost predicate AllTimely(maxRestarts: int, restartOnFailure: bool, steps: seq<Step>) {
    steps == [] ||
    (AllTimely(maxRestarts, restartOnFailure, DropLast(steps))
     && Timely(Run(maxRestarts, restartOnFailure, DropLast(steps)), Last(steps)))
  }

  // ------------------------------------------------------------------ invariants

  ghost predicate Increasing(s: seq<nat>) {
    forall i, j :: 0 <= i < j < |s| ==> s[i] < s[j]
  }

  ghost predicate Basic(m: Manager) {
    && m.state != Starting && m.state != Upgrading
    && (m.state.Running? ==> m.process.Some?)
    && Distinct(m.closed)
    && (forall i :: 0 <= i < |m.closed| ==> m.closed[i] < m.channels)
    && (m.doneCh.Some? ==> m.doneCh.value < m.channels && m.doneCh.value !in m.closed)
    && (m.process.Some? ==> m.process.value < m.pids)
    && (forall p :: p in m.stoppers ==> p < m.pids)
    && (m.state.Running? ==> m.process.value !in m.stoppers) // no two Stops wait for the same process
  }

  lemma {:induction false} CloseKeepsBasic(m: Manager)
    requires Basic(m)
    ensures Basic(CloseDone(m))
  {
  }

  lemma {:induction false} RelaunchKeepsBasic(m: Manager, launch: Launch)
    requires Basic(m)
    ensures Basic(Relaunched(m, launch))
  {
  }

  lemma {:induction false} RestartKeepsBasic(m: Manager, signalled: bool, launch: Launch)
    requires Basic(m)
    ensures Basic(Restarted(m, signalled, launch))
  {
    if m.state.Running? {
      var down := m.(watched := m.watched - {m.process.value}, state := Stopped, process := None);
      CloseKeepsBasic(down);
      RelaunchKeepsBasic(CloseDone(down), launch);
    } else {
      RelaunchKeepsBasic(m.(state := Stopped, process := if m.state.Stopped? then m.process else None), launch);
    }
  }

  lemma {:induction false} StopKeepsBasic(m: Manager, step: Step)
    requires Basic(m) && (step.StopBegin? || step.StopFinish?)
    ensures Basic(Next(m, step))
  {
    if step.StopFinish? {
      CloseKeepsBasic(m.(stoppers := m.stoppers - {step.p}, state := Stopped, process := None));
    }
  }

  lemma {:induction false} ExitKeepsBasic(m: Manager, p: Pid)
    requires Basic(m)
    ensures Basic(Next(m, Exit(p)))
  {
    CloseKeepsBasic(m.(watched := m.watched - {p}, state := Crashed));
  }

  lemma {:induction false} NextKeepsBasic(m: Manager, step: Step)
    requires Basic(m)
    ensures Basic(Next(m, step))
  {
    match step
    case Start(_) =>
    case Restart(signalled, launch) => RestartKeepsBasic(m, signalled, launch);
    case AutoRestart(signalled, launch) =>
      if m.sleeping > 0 {
        RestartKeepsBasic(m.(sleeping := m.sleeping - 1), signalled, launch);
      }
    case Exit(p) => ExitKeepsBasic(m, p);
    case _ => StopKeepsBasic(m, step);
  }

  /** What Restart does to the quantities that bound it. */
  lemma {:induction false} RestartEffect(m: Manager, signalled: bool, launch: Launch)
    ensures var r := Restarted(m, signalled, launch);
            && r.schedulings == m.schedulings && r.maxRestarts == m.maxRestarts
            && r.restartCount >= m.restartCount
            && (r.state.Running? ==> r.restartCount > m.restartCount)
            && (r.state.Running? || r.state.Error? || (r.state.Stopping? && m.state.Running?))
  {
  }

  lemma {:induction false} MaxRestartsFixed(m: Manager, step: Step)
    ensures Next(m, step).maxRestarts == m.maxRestarts
  {
  }

  lemma {:induction false} IncreasingBound(s: seq<nat>, n: nat)
    requires Increasing(s) && forall i :: 0 <= i < |s| ==> s[i] < n
    ensures |s| <= n
  {
    if s != [] {
      assert s[0] < n;
      assert forall i :: 0 <= i < |s| - 1 ==> s[i] < s[|s| - 1];
      IncreasingBound(DropLast(s), n - 1);
    }
  }

  /** No channel is closed twice, and a running node has a process, whatever the timing. */
  lemma {:induction false} DoneClosedOnce(maxRestarts: int, restartOnFailure: bool, steps: seq<Step>)
    ensures var m := Run(maxRestarts, restartOnFailure, steps);
            Basic(m) && Distinct(m.closed) && (m.state.Running? ==> m.process.Some?)
    ensures Run(maxRestarts, restartOnFailure, steps).maxRestarts == New(maxRestarts, restartOnFailure).maxRestarts
  {
    if steps != [] {
      DoneClosedOnce(maxRestarts, restartOnFailure, DropLast(steps));
      NextKeepsBasic(Run(maxRestarts, restartOnFailure, DropLast(steps)), Last(steps));
      MaxRestartsFixed(Run(maxRestarts, restartOnFailure, DropLast(steps)), Last(steps));
    }
  }

  // ------------------------------------------------------------------ auto-restarts

  /** The exit is handled as a crash that schedules an auto-restart. */
  predicate Reschedules(m: Manager, step: Step) {
    step.Exit? && step.p in m.watched && !m.state.Stopping? && m.restartOnFailure && m.restartCount < m.maxRestarts
  }

  /** An exit schedules an auto-restart in exactly these cases; nothing else schedules one. */
  lemma {:induction false} WhenRescheduled(m: Manager, step: Step)
    ensures Next(m, step).schedulings
         == if Reschedules(m, step) then m.schedulings + [m.restartCount] else m.schedulings
    ensures Next(m, step).restartCount >= m.restartCount
  {
    match step
    case Restart(signalled, launch) => RestartEffect(m, signalled, launch);
    case AutoRestart(signalled, launch) =>
      if m.sleeping > 0 { RestartEffect(m.(sleeping := m.sleeping - 1), signalled, launch); }
    case _ =>
  }

  /** A scheduling at the count of the one before: no restart has succeeded in between. */
  predicate Repeats(m: Manager, step: Step) {
    Reschedules(m, step) && m.schedulings != [] && Last(m.schedulings) == m.restartCount
  }

  ghost predicate NeverRepeats(maxRestarts: int, restartOnFailure: bool, steps: seq<Step>) {
    steps == [] ||
    (NeverRepeats(maxRestarts, restartOnFailure, DropLast(steps))
     && !Repeats(Run(maxRestarts, restartOnFailure, DropLast(steps)), Last(steps)))
  }

  ghost predicate CountsBounded(m: Manager) {
    && (forall i, j :: 0 <= i < j < |m.schedulings| ==> m.schedulings[i] <= m.schedulings[j])
    && (forall i :: 0 <= i < |m.schedulings| ==> m.schedulings[i] < m.maxRestarts && m.schedulings[i] <= m.restartCount)
  }

  lemma {:induction false} ReachableCounts(maxRestarts: int, restartOnFailure: bool, steps: seq<Step>)
    ensures CountsBounded(Run(maxRestarts, restartOnFailure, steps))
  {
    if steps != [] {
      ReachableCounts(maxRestarts, restartOnFailure, DropLast(steps));
      WhenRescheduled(Run(maxRestarts, restartOnFailure, DropLast(steps)), Last(steps));
      MaxRestartsFixed(Run(maxRestarts, restartOnFailure, DropLast(steps)), Last(steps));
    }
  }

  lemma {:induction false} IncreasingAppend(s: seq<nat>, x: nat)
    requires forall i, j :: 0 <= i < j < |s| ==> s[i] <= s[j]
    requires forall i :: 0 <= i < |s| ==> s[i] <= x
    ensures Increasing(s + [x]) <==> Increasing(s) && (s == [] || Last(s) != x)
  {
    var longer := s + [x];
    if Increasing(longer) {
      assert forall i :: 0 <= i < |s| ==> s[i] == longer[i];
      assert s != [] ==> longer[|s| - 1] < longer[|s|];
    }
  }

  /** In every run, timely or not, the counts at the schedulings strictly increase iff no scheduling repeats one. */
  lemma {:induction false} IncreasingIffNeverRepeats(maxRestarts: int, restartOnFailure: bool, steps: seq<Step>)
    ensures Increasing(Run(maxRestarts, restartOnFailure, steps).schedulings)
       <==> NeverRepeats(maxRestarts, restartOnFailure, steps)
  {
    if steps != [] {
      var before := Run(maxRestarts, restartOnFailure, DropLast(steps));
      IncreasingIffNeverRepeats(maxRestarts, restartOnFailure, DropLast(steps));
      ReachableCounts(maxRestarts, restartOnFailure, DropLast(steps));
      WhenRescheduled(before, Last(steps));
      IncreasingAppend(before.schedulings, before.restartCount);
    }
  }

  /** After a timely run the node is down if the count has not risen since the last scheduling. */
  ghost predicate DownAfterScheduling(m: Manager) {
    m.schedulings != [] && Last(m.schedulings) == m.restartCount ==> m.state.Crashed? || m.state.Error?
  }

  lemma {:induction false} NextKeepsDown(m: Manager, step: Step)
    requires CountsBounded(m) && DownAfterScheduling(m) && Timely(m, step)
    ensures DownAfterScheduling(Next(m, step)) && !Repeats(m, step)
  {
    assert m.schedulings != [] ==> Last(m.schedulings) <= m.restartCount;
    match step
    case Restart(signalled, launch) => RestartEffect(m, signalled, launch);
    case AutoRestart(signalled, launch) =>
      if m.sleeping > 0 { RestartEffect(m.(sleeping := m.sleeping - 1), signalled, launch); }
    case _ =>
  }

  lemma {:induction false} TimelyNeverRepeats(maxRestarts: int, restartOnFailure: bool, steps: seq<Step>)
    requires AllTimely(maxRestarts, restartOnFailure, steps)
    ensures NeverRepeats(maxRestarts, restartOnFailure, steps)
    ensures DownAfterScheduling(Run(maxRestarts, restartOnFailure, steps))
  {
    if steps != [] {
      TimelyNeverRepeats(maxRestarts, restartOnFailure, DropLast(steps));
      ReachableCounts(maxRestarts, restartOnFailure, DropLast(steps));
      NextKeepsDown(Run(maxRestarts, restartOnFailure, DropLast(steps)), Last(steps));
    }
  }

  /**
   * If no scheduling repeats a count, and so in every timely run of commands and crashes, at most
   * maxRestarts auto-restarts are scheduled.
   */
  lemma {:induction false} AutoRestartsBounded(maxRestarts: int, restartOnFailure: bool, steps: seq<Step>)
    ensures AllTimely(maxRestarts, restartOnFailure, steps) ==> NeverRepeats(maxRestarts, restartOnFailure, steps)
    ensures var m := Run(maxRestarts, restartOnFailure, steps);
            NeverRepeats(maxRestarts, restartOnFailure, steps) ==> |m.schedulings| <= m.maxRestarts
  {
    if AllTimely(maxRestarts, restartOnFailure, steps) {
      TimelyNeverRepeats(maxRestarts, restartOnFailure, steps);
    }
    if NeverRepeats(maxRestarts, restartOnFailure, steps) {
      IncreasingIffNeverRepeats(maxRestarts, restartOnFailure, steps);
      ReachableCounts(maxRestarts, restartOnFailure, steps);
      MaxRestartsPositive(maxRestarts, restartOnFailure, steps);
      var m := Run(maxRestarts, restartOnFailure, steps);
      IncreasingBound(m.schedulings, m.maxRestarts);
    }
  }

  lemma {:induction false} MaxRestartsPositive(maxRestarts: int, restartOnFailure: bool, steps: seq<Step>)
    ensures Run(maxRestarts, restartOnFailure, steps).maxRestarts > 0
  {
    if steps != [] {
      MaxRestartsPositive(maxRestarts, restartOnFailure, DropLast(steps));
      MaxRestartsFixed(Run(maxRestarts, restartOnFailure, DropLast(steps)), Last(steps));
    }
  }

  // ------------------------------------------------------------------ what the counters count

  /** A restart, asked for or automatic, that launches a process; a node that cannot be signalled holds it up. */
  predicate Succeeds(m: Manager, step: Step) {
    match step
    case Restart(signalled, launch) =>
      launch == Launched && (m.state == Running && m.process.Some? ==> signalled)
    case AutoRestart(signalled, launch) =>
      m.sleeping > 0 && launch == Launched && (m.state == Running && m.process.Some? ==> signalled)
    case _ => false
  }

  /** A sleeping auto-restart wakes up. */
  predicate Wakes(m: Manager, step: Step) {
    step.AutoRestart? && m.sleeping > 0
  }

  function Successes(maxRestarts: int, restartOnFailure: bool, steps: seq<Step>): nat {
    if steps == [] then 0
    else
      Successes(maxRestarts, restartOnFailure, DropLast(steps))
        + if Succeeds(Run(maxRestarts, restartOnFailure, DropLast(steps)), Last(steps)) then 1 else 0
  }

  function Wakings(maxRestarts: int, restartOnFailure: bool, steps: seq<Step>): nat {
    if steps == [] then 0
    else
      Wakings(maxRestarts, restartOnFailure, DropLast(steps))
        + if Wakes(Run(maxRestarts, restartOnFailure, DropLast(steps)), Last(steps)) then 1 else 0
  }

  lemma {:induction false} RestartCounts(m: Manager, signalled: bool, launch: Launch)
    ensures var r := Restarted(m, signalled, launch);
            var ok := launch == Launched && (m.state == Running && m.process.Some? ==> signalled);
            && r.restartCount == m.restartCount + (if ok then 1 else 0)
            && r.schedulings == m.schedulings && r.sleeping == m.sleeping
            && (ok ==> r.state == Running && r.process == Some(m.pids))
  {
  }

  lemma {:induction false} StepCounts(m: Manager, step: Step)
    ensures Next(m, step).restartCount == m.restartCount + if Succeeds(m, step) then 1 else 0
    ensures |Next(m, step).schedulings| - Next(m, step).sleeping
         == |m.schedulings| - m.sleeping + if Wakes(m, step) then 1 else 0
    ensures Succeeds(m, step) ==> Next(m, step).state == Running && Next(m, step).process == Some(m.pids)
  {
    match step
    case Restart(signalled, launch) => RestartCounts(m, signalled, launch);
    case AutoRestart(signalled, launch) =>
      if m.sleeping > 0 {
        RestartCounts(m.(sleeping := m.sleeping - 1), signalled, launch);
      }
    case _ =>
  }

  /** In every run restartCount counts the restarts that launched; what was scheduled sleeps or has woken. */
  lemma {:induction false} CountersCount(maxRestarts: int, restartOnFailure: bool, steps: seq<Step>)
    ensures var m := Run(maxRestarts, restartOnFailure, steps);
            && m.restartCount == Successes(maxRestarts, restartOnFailure, steps)
            && |m.schedulings| == m.sleeping + Wakings(maxRestarts, restartOnFailure, steps)
  {
    if steps != [] {
      CountersCount(maxRestarts, restartOnFailure, DropLast(steps));
      StepCounts(Run(maxRestarts, restartOnFailure, DropLast(steps)), Last(steps));
    }
  }

  /** A late exit of a stopped process and the crash of its successor are two schedulings where one is allowed. */
  lemma {:induction false} LateExitBreaksBound()
    ensures var steps := [Start(Launched), StopBegin(true), StopFinish(0), Start(Launched), Exit(0), Exit(1)];
            Run(1, true, steps).schedulings == [0, 0] && Run(1, true, steps).maxRestarts == 1
  {
    RunSix(1, true, Start(Launched), StopBegin(true), StopFinish(0), Start(Launched), Exit(0), Exit(1));
    StoppedThenStarted();
    TwoCrashes();
  }

  lemma StoppedThenStarted()
    ensures Next(Next(Next(Next(New(1, true), Start(Launched)), StopBegin(true)), StopFinish(0)), Start(Launched))
         == Manager(Running, Some(1), None, 0, 1, true, map[], 0, {0, 1}, 2, 1, [0], [])
  {
    var stopping := Next(Next(New(1, true), Start(Launched)), StopBegin(true));
    assert stopping == Manager(Stopping, Some(0), Some(0), 0, 1, true, map[0 := Some(0)], 0, {0}, 1, 1, [], []);
    var stopped := Next(stopping, StopFinish(0));
    assert stopped == Manager(Stopped, None, None, 0, 1, true, map[], 0, {0}, 1, 1, [0], []);
  }

  lemma TwoCrashes()
    ensures var m := Manager(Running, Some(1), None, 0, 1, true, map[], 0, {0, 1}, 2, 1, [0], []);
            Next(Next(m, Exit(0)), Exit(1)).schedulings == [0, 0]
  {
    var m := Manager(Running, Some(1), None, 0, 1, true, map[], 0, {0, 1}, 2, 1, [0], []);
    assert Next(m, Exit(0)).schedulings == [0] && 1 in Next(m, Exit(0)).watched;
  }

  lemma RunThree(maxRestarts: int, restartOnFailure: bool, a: Step, b: Step, c: Step)
    ensures Run(maxRestarts, restartOnFailure, [a, b]) == Next(Next(New(maxRestarts, restartOnFailure), a), b)
    ensures Run(maxRestarts, restartOnFailure, [a, b, c])
         == Next(Next(Next(New(maxRestarts, restartOnFailure), a), b), c)
  {
    assert DropLast([a, b, c]) == [a, b] && DropLast([a, b]) == [a] && DropLast([a]) == [];
    assert Run(maxRestarts, restartOnFailure, [a]) == Next(New(maxRestarts, restartOnFailure), a);
  }

  lemma RunSix(maxRestarts: int, restartOnFailure: bool, a: Step, b: Step, c: Step, d: Step, e: Step, f: Step)
    ensures Run(maxRestarts, restartOnFailure, [a, b, c, d, e, f])
         == Next(Next(Next(Next(Next(Next(New(maxRestarts, restartOnFailure), a), b), c), d), e), f)
  {
    RunThree(maxRestarts, restartOnFailure, a, b, c);
    assert DropLast([a, b, c, d]) == [a, b, c];
    assert DropLast([a, b, c, d, e]) == [a, b, c, d];
    assert DropLast([a, b, c, d, e, f]) == [a, b, c, d, e];
    var m := Run(maxRestarts, restartOnFailure, [a, b, c]);
    assert Run(maxRestarts, restartOnFailure, [a, b, c, d]) == Next(m, d);
    assert Run(maxRestarts, restartOnFailure, [a, b, c, d, e]) == Next(Next(m, d), e);
  }

  /** An exit seen when the node is stopped schedules a restart of it exactly if restarting is on and not exhausted. */
  lemma {:induction false} LateExitRestartsStoppedNode(m: Manager, p: Pid)
    requires m.state.Stopped? && p in m.watched
    ensures Next(m, Exit(p)).sleeping > m.sleeping <==> m.restartOnFailure && m.restartCount < m.maxRestarts
    ensures Next(m, Exit(p)).state == if m.restartOnFailure && m.restartCount < m.maxRestarts then Crashed else Error
  {
  }

  /** Such a state is reached when a Stop ends before the exit of its process is seen. */
  lemma {:induction false} StopMayEndBeforeExit(maxRestarts: int, restartOnFailure: bool)
    ensures var m := Run(maxRestarts, restartOnFailure, [Start(Launched), StopBegin(true), StopFinish(0)]);
            m.state.Stopped? && 0 in m.watched && m.restartCount == 0
  {
    RunThree(maxRestarts, restartOnFailure, Start(Launched), StopBegin(true), StopFinish(0));
  }

  // ------------------------------------------------------------------ the grace period

  function RunFrom(m: Manager, steps: seq<Step>): Manager {
    if steps == [] then m else Next(RunFrom(m, DropLast(steps)), Last(steps))
  }

  /** The Restart stops a running node first. */
  predicate StopsFirst(m: Manager, signalled: bool) {
    m.state.Running? && m.process.Some? && signalled
  }

  /** The step closes the channel that is current. */
  predicate Closes(m: Manager, step: Step) {
    match step
    case StopFinish(p) => p in m.stoppers
    case Restart(signalled, _) => StopsFirst(m, signalled)
    case AutoRestart(signalled, _) => m.sleeping > 0 && StopsFirst(m, signalled)
    case Exit(p) => p in m.watched && !m.state.Stopping?
    case _ => false
  }

  ghost predicate NothingCloses(m: Manager, steps: seq<Step>) {
    steps == [] || (NothingCloses(m, DropLast(steps)) && !Closes(RunFrom(m, DropLast(steps)), Last(steps)))
  }

  lemma {:induction false} ClosedBy(m: Manager, step: Step)
    ensures var n := Next(m, step);
            && n.closed == (if Closes(m, step) && m.doneCh.Some? then m.closed + [m.doneCh.value] else m.closed)
            && (m.doneCh.Some? && !Closes(m, step) ==> n.doneCh == m.doneCh)
  {
  }

  /**
   * The channel `c` that a Stop waits for is closed within these steps exactly if one of them closes the
   * current channel: an exit seen while the node is not stopping, which takes a Restart during the Stop, a
   * Restart that stops the node once more, or the end of a Stop.
   */
  lemma {:induction false} WokenIffClosed(m: Manager, steps: seq<Step>, c: nat)
    requires m.doneCh == Some(c) && c !in m.closed
    ensures c in RunFrom(m, steps).closed <==> !NothingCloses(m, steps)
    ensures NothingCloses(m, steps) ==> RunFrom(m, steps).doneCh == Some(c)
  {
    if steps != [] {
      WokenIffClosed(m, DropLast(steps), c);
      ClosedBy(RunFrom(m, DropLast(steps)), Last(steps));
    }
  }

  /** Steps that may happen while Stop waits, other than the end of a Stop and a Restart. */
  predicate NoRestart(step: Step) {
    step.Start? || step.StopBegin? || step.Exit?
  }

  /** Without a Restart and without another Stop that ends, not even the exit of the process closes the channel. */
  lemma {:induction false} GraceNeedsRestart(m: Manager, steps: seq<Step>)
    requires m.state.Stopping? && forall i :: 0 <= i < |steps| ==> NoRestart(steps[i])
    ensures NothingCloses(m, steps) && RunFrom(m, steps).state.Stopping?
  {
    if steps != [] {
      GraceNeedsRestart(m, DropLast(steps));
    }
  }

  /** With one it can happen: the process launched by the Restart crashes and wakes the Stop of its predecessor. */
  lemma {:induction false} RestartCutsGraceShort(maxRestarts: int, restartOnFailure: bool)
    ensures var stopping := Run(maxRestarts, restartOnFailure, [Start(Launched), StopBegin(true)]);
            && stopping.stoppers == map[0 := Some(0)] && stopping.doneCh == Some(0)
            && RunFrom(stopping, [Restart(true, Launched), Exit(1)]).stoppers == map[0 := Some(0)]
            && RunFrom(stopping, [Restart(true, Launched), Exit(1)]).closed == [0]
  {
    var stopping := Run(maxRestarts, restartOnFailure, [Start(Launched), StopBegin(true)]);
    RunThree(maxRestarts, restartOnFailure, Start(Launched), StopBegin(true), StopBegin(true));
    var restart := Restart(true, Launched);
    assert DropLast([restart, Exit(1)]) == [restart] && DropLast([restart]) == [];
    assert RunFrom(stopping, [restart]) == Next(stopping, restart);
    assert 1 in Next(stopping, restart).watched && Next(stopping, restart).doneCh == Some(0);
  }

  /**
   * Left undisturbed, with the process going down while it waits, the steps of a Stop are the method `StopNode`
   * below. Without a signal the node stays stopping, and a node that is not running is left alone.
   */
  lemma {:induction false} UninterruptedStop(m: Manager, p: Pid)
    requires Basic(m)
    ensures m.state == Running && m.process == Some(p) ==>
              Next(Next(Next(m, StopBegin(true)), Exit(p)), StopFinish(p)) == StoppedAtOnce(m, true).value
    ensures m.state == Running ==> Next(m, StopBegin(false)) == m.(state := Stopping)
    ensures m.state != Running ==> Next(m, StopBegin(true)) == Next(m, StopBegin(false)) == m
  {
    if m.state == Running && m.process == Some(p) {
      var begun := Next(m, StopBegin(true));
      assert begun.stoppers - {p} == m.stoppers;
      var seen := Next(begun, Exit(p));
      assert seen == begun.(watched := m.watched - {p});
    }
  }

  // ------------------------------------------------------------------ the struct

  class NodeManager {
    const maxRestarts: int
    const restartOnFailure: bool
    var state: NodeState
    var process: Option<Pid>
    var doneCh: Option<nat>
    var restartCount: nat
    var stoppers: map<Pid, Option<nat>>
    var sleeping: nat
    var watched: set<Pid>
    var pids: nat
    var channels: nat
    var closed: seq<nat>
    var schedulings: seq<nat>

    ghost function Contents(): Manager
      reads this
    {
      Manager(state, process, doneCh, restartCount, maxRestarts, restartOnFailure, stoppers, sleeping,
              watched, pids, channels, closed, schedulings)
    }

    constructor (configured: int, restartOnFailure: bool)
      ensures Contents() == New(configured, restartOnFailure) && Basic(Contents())
      ensures maxRestarts == (if configured >= 1 then configured else 5) && state == Stopped && process == None
    {
      maxRestarts := if configured > 0 then configured else 5;
      this.restartOnFailure := restartOnFailure;
      state, process, doneCh, restartCount := Stopped, None, Some(0), 0;
      stoppers, sleeping, watched, pids, channels, closed, schedulings := map[], 0, {}, 0, 1, [], [];
    }

    method StartNode(launch: Launch) returns (ok: bool)
      modifies this
      ensures Contents() == Started(old(Contents()), launch)
      ensures ok <==> old(state) == Stopped && launch == Launched
      ensures ok ==> state == Running && process == Some(old(pids)) && watched == old(watched) + {old(pids)}
      ensures !ok ==> process == old(process) && watched == old(watched)
      ensures !ok ==> state == if old(state) == Stopped then Error else old(state)
      ensures restartCount == old(restartCount) && doneCh == old(doneCh)
      ensures sleeping == old(sleeping) && closed == old(closed)
    {
      if state != Stopped {
        return false;
      }
      state := Starting;
      if !launch.Launched? {
        state := Error;
        return false;
      }
      process := Some(pids);
      watched := watched + {pids};
      pids := pids + 1;
      state := Running;
      return true;
    }

    /** Stop, with the process exiting while it waits. */
    method StopNode(signalled: bool) returns (ok: bool)
      requires Basic(Contents())
      modifies this
      ensures ok <==> old(state).Running? && signalled
      ensures ok ==> Contents() == StoppedAtOnce(old(Contents()), true).value
      ensures ok ==> state == Stopped && process == None && doneCh == None
      ensures ok ==> closed == old(closed) + if old(doneCh).Some? then [old(doneCh).value] else []
      ensures ok ==> old(process).Some? && watched == old(watched) - {old(process).value}
      ensures !ok ==> Contents() == if old(state).Running? then old(Contents()).(state := Stopping) else old(Contents())
      ensures Basic(Contents())
    {
      if state != Running {
        return false;
      }
      state := Stopping;
      if !signalled {
        return false;
      }
      watched := watched - {process.value};
      state, process := Stopped, None;
      if doneCh.Some? {
        closed := closed + [doneCh.value];
        doneCh := None;
      }
      return true;
    }

    method RestartNode(signalled: bool, launch: Launch) returns (ok: bool)
      requires Basic(Contents())
      modifies this
      ensures Contents() == Next(old(Contents()), Restart(signalled, launch)) && Basic(Contents())
      ensures ok <==> launch == Launched && (old(state) == Running ==> signalled)
      ensures restartCount == old(restartCount) + if ok then 1 else 0
      ensures state == if ok then Running else if old(state) == Running && !signalled then Stopping else Error
      ensures ok ==> process == Some(old(pids)) && doneCh.Some?
      ensures !ok ==>
                process == if old(state) == Stopped || (old(state) == Running && !signalled) then old(process) else None
    {
      ghost var m := Contents();
      if state == Running {
        ok := StopNode(signalled);
        if !ok {
          assert Contents() == Restarted(m, signalled, launch);
          return;
        }
      } else if state != Stopped {
        state, process := Stopped, None;
      }
      ok := Relaunch(launch);
      assert Contents() == Restarted(m, signalled, launch);
      RestartKeepsBasic(m, signalled, launch);
    }

    /** The second half of Restart: make a new channel if there is none, start, and count a success. */
    method Relaunch(launch: Launch) returns (ok: bool)
      requires state == Stopped
      modifies this
      ensures Contents() == Relaunched(old(Contents()), launch)
      ensures ok <==> launch.Launched?
      ensures restartCount == old(restartCount) + if ok then 1 else 0
      ensures state == if ok then Running else Error
      ensures ok ==> process == Some(old(pids)) && doneCh.Some?
    {
      if doneCh.None? {
        doneCh := Some(channels);
        channels := channels + 1;
      }
      assert Contents() == RenewDone(old(Contents()));
      ok := StartNode(launch);
      if !ok {
        return;
      }
      restartCount := restartCount + 1;
    }

    /** The monitor goroutine of process `p` has returned from Wait. */
    method Exited(p: Pid)
      requires Basic(Contents()) && p in watched
      modifies this
      ensures Contents() == Next(old(Contents()), Exit(p)) && Basic(Contents())
      ensures watched == old(watched) - {p}
      ensures old(state) == Stopping ==> state == Stopping && sleeping == old(sleeping) && closed == old(closed)
      ensures old(state) != Stopping ==>
                && state == (if restartOnFailure && old(restartCount) < maxRestarts then Crashed else Error)
                && sleeping == old(sleeping) + if state == Crashed then 1 else 0
    {
      ghost var m := Contents();
      watched := watched - {p};
      if state == Stopping {
        return;
      }
      HandleProcessCrash();
      NextKeepsBasic(m, Exit(p));
    }

    method HandleProcessCrash()
      modifies this
      ensures Contents() == CrashHandled(old(Contents()))
      ensures state == if restartOnFailure && old(restartCount) < maxRestarts then Crashed else Error
      ensures sleeping == old(sleeping) + if state == Crashed then 1 else 0
      ensures closed == old(closed) + (if old(doneCh).Some? then [old(doneCh).value] else []) && doneCh == None
      ensures process == old(process) && restartCount == old(restartCount) && watched == old(watched)
    {
      state := Crashed;
      if doneCh.Some? {
        closed := closed + [doneCh.value];
        doneCh := None;
      }
      if restartOnFailure && restartCount < maxRestarts {
        sleeping := sleeping + 1;
        schedulings := schedulings + [restartCount];
      } else {
        state := Error;
      }
    }
  }
}
