/**
 * The height-triggered upgrade protocol of internal/orchestrator/orchestrator.go on top of the height
 * monitor: the monitor's goroutine, the height goroutine with every sub-step of an upgrade, the
 * watcher's goroutine and external callers, interleaved at lock granularity.
 *
 * Each call of ScheduleUpgrade gets a ticket, so that scheduling the same upgrade twice counts as two
 * calls. The fields marked history are read by no step.
 */
module Orchestrator {
  import opened Sequences
  import M = HeightMonitor

  datatype Upgrade = Upgrade(name: string, height: int)

  datatype Ticket = Ticket(id: nat, upgrade: Upgrade)

  datatype NodeCall = NodeStop | SwitchBinary(name: string) | NodeStart

  /** Where the height goroutine is; `t` is the ticket it read, `h` the height it received. */
  datatype Pc =
    | AtSelect
    | Received(h: int)
    | Begin(t: Ticket, h: int)    // executeUpgrade is called
    | Validate(t: Ticket, h: int) // the upgrading flag is set
    | Stop(t: Ticket, h: int)
    | Switch(t: Ticket, h: int)
    | Start(t: Ticket, h: int)
    | Return(t: Ticket, ok: bool) // the deferred reset of the flag
    | Rollback(t: Ticket)
    | RollbackStart(t: Ticket)
    | Clear(t: Ticket)
    | Exited

  datatype State = State(
    monitor: M.State,
    channel: nat,             // the monitor's subscriber that is heightCh
    pending: Option<Ticket>,
    upgrading: bool,
    cancelled: bool,
    pc: Pc,
    tickets: nat,             // history: how many calls of ScheduleUpgrade there were
    executions: seq<Ticket>,  // history: tickets for which executeUpgrade set the flag
    stops: seq<(Ticket, int)>, // history: tickets for which the node was told to stop, at which height
    calls: seq<NodeCall>)     // history

  datatype Step =
    | Monitor(step: M.Step)
    | Schedule(upgrade: Upgrade) // by any caller, the watcher's goroutine included
    | Deliver                    // the height goroutine receives from heightCh
    | Advance(ok: bool)          // its next sub-step; `ok` is the node manager's answer if one is asked
    | Cancel
    | Exit

  function Init(m: M.State): State {
    var subscribed := M.Next(m, M.Subscribe);
    State(subscribed, |m.subscribers|, None, false, false, AtSelect, 0, [], [], [])
  }

  predicate ValidUpgrade(u: Upgrade, h: int) {
    u.name != "" && u.height > 0 && h <= u.height
  }

  function Advanced(s: State, ok: bool): State {
    match s.pc
    case Received(h) =>
      if s.pending.None? || s.upgrading || h < s.pending.value.upgrade.height then s.(pc := AtSelect)
      else s.(pc := Begin(s.pending.value, h))
    case Begin(t, h) =>
      if s.upgrading then s.(pc := Rollback(t))
      else s.(upgrading := true, pc := Validate(t, h), executions := s.executions + [t])
    case Validate(t, h) => s.(pc := if ValidUpgrade(t.upgrade, h) then Stop(t, h) else Return(t, false))
    case Stop(t, h) =>
      s.(calls := s.calls + [NodeStop], stops := s.stops + [(t, h)],
         pc := if ok then Switch(t, h) else Return(t, false))
    case Switch(t, h) => s.(calls := s.calls + [SwitchBinary(t.upgrade.name)], pc := Start(t, h))
    case Start(t, h) => s.(calls := s.calls + [NodeStart], pc := Return(t, ok))
    case Return(t, succeeded) => s.(upgrading := false, pc := if succeeded then Clear(t) else Rollback(t))
    case Rollback(t) => s.(calls := s.calls + [SwitchBinary("genesis")], pc := RollbackStart(t))
    case RollbackStart(t) => s.(calls := s.calls + [NodeStart], pc := Clear(t))
    case Clear(t) => s.(pending := None, pc := AtSelect)
    case _ => s
  }

  function Next(s: State, step: Step): State {
    match step
    case Monitor(m) => if m == M.Receive(s.channel) then s else s.(monitor := M.Next(s.monitor, m))
    case Schedule(u) => s.(pending := Some(Ticket(s.tickets, u)), tickets := s.tickets + 1)
    case Deliver =>
      if s.pc.AtSelect? && s.channel < |s.monitor.subscribers| && s.monitor.subscribers[s.channel].buffer != [] then
        s.(monitor := M.Next(s.monitor, M.Receive(s.channel)),
           pc := Received(s.monitor.subscribers[s.channel].buffer[0]))
      else s
    case Advance(ok) => Advanced(s, ok)
    case Cancel => s.(cancelled := true)
    case Exit => if s.pc.AtSelect? && s.cancelled then s.(pc := Exited) else s
  }

  function RunFrom(s: State, steps: seq<Step>): State {
    if steps == [] then s else Next(RunFrom(s, DropLast(steps)), Last(steps))
  }

  // ------------------------------------------------------------------ safety

  /** executeUpgrade holds the flag. */
  predicate InFlight(pc: Pc) {
    pc.Validate? || pc.Stop? || pc.Switch? || pc.Start? || pc.Return?
  }

  /** The goroutine has started executing this ticket and not yet cleared `pending`. */
  predicate Attempted(pc: Pc) {
    InFlight(pc) || pc.Rollback? || pc.RollbackStart? || pc.Clear?
  }

  ghost predicate Executed(s: State, t: Ticket) {
    t in s.executions
  }

  /** A stop is justified: a named upgrade, at a height that was really polled and equals the positive target. */
  ghost predicate Justified(s: State, stop: (Ticket, int)) {
    && stop.0.upgrade.name != ""
    && 0 < stop.0.upgrade.height == stop.1
    && stop.1 in s.monitor.polls
    && Executed(s, stop.0)
  }

  ghost predicate PcOk(s: State) {
    match s.pc
    case Received(h) => h in s.monitor.polls
    case Begin(t, h) =>
      && h in s.monitor.polls && h >= t.upgrade.height && t.id < s.tickets
      && forall e :: e in s.executions ==> e.id != t.id
    case Validate(t, h) => h in s.monitor.polls && h >= t.upgrade.height
    case Stop(t, h) => h in s.monitor.polls && h == t.upgrade.height && ValidUpgrade(t.upgrade, h)
    case _ => true
  }

  ghost predicate Inv(s: State) {
    && M.Inv(s.monitor)
    && (s.upgrading <==> InFlight(s.pc))
    && PcOk(s)
    && (Attempted(s.pc) ==> Executed(s, s.pc.t))
    && (s.pc.Validate? || s.pc.Stop? ==> forall p :: p in s.stops ==> p.0.id != s.pc.t.id)
    && (forall e :: e in s.executions ==> e.id < s.tickets)
    && (forall i, j :: 0 <= i < j < |s.executions| ==> s.executions[i].id != s.executions[j].id)
    && (forall i, j :: 0 <= i < j < |s.stops| ==> s.stops[i].0.id != s.stops[j].0.id)
    && (forall p :: p in s.stops ==> Justified(s, p))
    && (s.pending.Some? ==> s.pending.value.id < s.tickets)
    && (s.pending.Some? && (exists e :: e in s.executions && e.id == s.pending.value.id) ==>
          Attempted(s.pc) && s.pc.t == s.pending.value)
    && (s.pc.Begin? && s.pending.Some? && s.pending.value.id == s.pc.t.id ==> s.pending.value == s.pc.t)
  }

  lemma {:induction false} MonitorKeepsPolls(m: M.State, step: M.Step, h: int)
    requires h in m.polls
    ensures h in M.Next(m, step).polls
  {
  }

  lemma {:induction false} MonitorKeepsInv(s: State, m: M.Step)
    requires Inv(s)
    ensures Inv(Next(s, Monitor(m)))
  {
    M.NextKeepsInv(s.monitor, m);
    forall h | h in s.monitor.polls
      ensures h in Next(s, Monitor(m)).monitor.polls
    {
      MonitorKeepsPolls(s.monitor, m, h);
    }
  }

  lemma {:induction false} DeliverKeepsInv(s: State)
    requires Inv(s)
    ensures Inv(Next(s, Deliver))
  {
    if Next(s, Deliver) != s {
      M.NextKeepsInv(s.monitor, M.Receive(s.channel));
      var sub := s.monitor.subscribers[s.channel];
      assert sub.buffer[0] in M.Taken(sub);
      M.ReceivedWasPolled(s.monitor, s.channel, sub.buffer[0]);
    }
  }

  lemma {:induction false} BeginKeepsInv(s: State)
    requires Inv(s) && s.pc.Begin?
    ensures Inv(Advanced(s, true))
  {
    var t := Advanced(s, true);
    assert forall e :: e in t.executions <==> e in s.executions || e == s.pc.t;
    forall p | p in t.stops
      ensures Justified(t, p) && p.0.id != s.pc.t.id
    {
      assert Justified(s, p);
    }
  }

  lemma {:induction false} StopKeepsInv(s: State, ok: bool)
    requires Inv(s) && s.pc.Stop?
    ensures Inv(Advanced(s, ok))
  {
    var t := Advanced(s, ok);
    assert forall p :: p in t.stops <==> p in s.stops || p == (s.pc.t, s.pc.h);
    forall p | p in t.stops
      ensures Justified(t, p)
    {
      assert p in s.stops ==> Justified(s, p);
    }
  }

  /** The sub-steps that neither begin an execution nor stop the node. */
  lemma {:induction false} QuietKeepsInv(s: State, ok: bool)
    requires Inv(s) && !s.pc.Begin? && !s.pc.Stop? && !s.pc.Received?
    requires !s.pc.Validate? && !s.pc.Return? && !s.pc.Clear?
    ensures Inv(Advanced(s, ok))
  {
    JustifiedStays(s, Advanced(s, ok));
  }

  lemma {:induction false} ReturnKeepsInv(s: State, ok: bool)
    requires Inv(s) && (s.pc.Return? || s.pc.Clear?)
    ensures Inv(Advanced(s, ok))
  {
    JustifiedStays(s, Advanced(s, ok));
  }

  lemma {:induction false} ValidateKeepsInv(s: State, ok: bool)
    requires Inv(s) && s.pc.Validate?
    ensures Inv(Advanced(s, ok))
  {
    JustifiedStays(s, Advanced(s, ok));
  }

  lemma {:induction false} ReceivedKeepsInv(s: State, ok: bool)
    requires Inv(s) && s.pc.Received?
    ensures Inv(Advanced(s, ok))
  {
    JustifiedStays(s, Advanced(s, ok));
  }

  lemma {:induction false} JustifiedStays(s: State, t: State)
    requires t.monitor.polls == s.monitor.polls && t.executions == s.executions
    requires forall p :: p in s.stops ==> Justified(s, p)
    ensures forall p :: p in s.stops ==> Justified(t, p)
  {
    forall p | p in s.stops
      ensures Justified(t, p)
    {
      assert Justified(s, p);
    }
  }

  lemma {:induction false} NextKeepsInv(s: State, step: Step)
    requires Inv(s)
    ensures Inv(Next(s, step))
  {
    match step
    case Monitor(m) => MonitorKeepsInv(s, m);
    case Deliver => DeliverKeepsInv(s);
    case Advance(ok) =>
      if s.pc.Begin? { BeginKeepsInv(s); }
      else if s.pc.Stop? { StopKeepsInv(s, ok); }
      else if s.pc.Received? { ReceivedKeepsInv(s, ok); }
      else if s.pc.Validate? { ValidateKeepsInv(s, ok); }
      else if s.pc.Return? || s.pc.Clear? { ReturnKeepsInv(s, ok); }
      else { QuietKeepsInv(s, ok); }
    case _ => LocalKeepsInv(s, step);
  }

  lemma {:induction false} LocalKeepsInv(s: State, step: Step)
    requires Inv(s) && (step.Schedule? || step.Cancel? || step.Exit?)
    ensures Inv(Next(s, step))
  {
    forall p | p in s.stops
      ensures Justified(Next(s, step), p)
    {
      assert Justified(s, p);
    }
  }

  /** The protocol over every interleaving, from the moment Start subscribed to the monitor. */
  lemma {:induction false} ReachableInv(before: seq<M.Step>, steps: seq<Step>)
    requires !M.Run(before).phase.Sending?
    ensures var s := RunFrom(Init(M.Run(before)), steps);
            Inv(s) && s.channel < |s.monitor.subscribers|
  {
    if steps == [] {
      InitInv(M.Run(before)) by {
        M.ReachableInv(before);
      }
    } else {
      ReachableInv(before, DropLast(steps));
      var s := RunFrom(Init(M.Run(before)), DropLast(steps));
      NextKeepsInv(s, Last(steps));
      NextKeepsChannel(s, Last(steps));
    }
  }

  lemma {:induction false} InitInv(m: M.State)
    requires M.Inv(m) && !m.phase.Sending?
    ensures Inv(Init(m)) && Init(m).channel < |Init(m).monitor.subscribers|
  {
    M.NextKeepsInv(m, M.Subscribe);
  }

  lemma {:induction false} NextKeepsChannel(s: State, step: Step)
    requires s.channel < |s.monitor.subscribers|
    ensures Next(s, step).channel < |Next(s, step).monitor.subscribers|
  {
  }

  /**
   * Safety: the flag is set exactly while an execution is in flight; each call of ScheduleUpgrade leads
   * to at most one execution and one stop of the node; the node is stopped only for a named upgrade at a
   * polled height equal to its positive target; heights arrive as an in-order part of the changes.
   */
  lemma {:induction false} ProtocolSafety(before: seq<M.Step>, steps: seq<Step>)
    requires !M.Run(before).phase.Sending?
    ensures var s := RunFrom(Init(M.Run(before)), steps);
            && (s.upgrading <==> InFlight(s.pc))
            && (forall i, j :: 0 <= i < j < |s.executions| ==> s.executions[i].id != s.executions[j].id)
            && (forall i, j :: 0 <= i < j < |s.stops| ==> s.stops[i].0.id != s.stops[j].0.id)
            && (forall p :: p in s.stops ==> Justified(s, p))
            && s.channel < |s.monitor.subscribers| && M.InOrder(s.monitor, s.channel)
  {
    ReachableInv(before, steps);
    var s := RunFrom(Init(M.Run(before)), steps);
    M.InvInOrder(s.monitor, s.channel);
  }

  // ------------------------------------------------------------------ lost upgrades

  /** No step can execute this ticket any more. */
  ghost predicate Lost(s: State, id: nat) {
    && id < s.tickets
    && (forall e :: e in s.executions ==> e.id != id)
    && (s.pending.Some? ==> s.pending.value.id != id)
    && (s.pc.Begin? ==> s.pc.t.id != id)
  }

  lemma AdvanceKeepsLost(s: State, ok: bool, id: nat)
    requires Lost(s, id)
    ensures Lost(Advanced(s, ok), id)
  {
    var t := Advanced(s, ok);
    if s.pc.Begin? && !s.upgrading {
      assert forall e :: e in t.executions ==> e in s.executions || e == s.pc.t;
    } else {
      assert t.executions == s.executions;
    }
  }

  lemma NextKeepsLost(s: State, step: Step, id: nat)
    requires Lost(s, id)
    ensures Lost(Next(s, step), id)
  {
    if step.Advance? {
      AdvanceKeepsLost(s, step.ok, id);
    } else {
      assert Next(s, step).executions == s.executions;
    }
  }

  lemma {:induction false} LostForever(s: State, steps: seq<Step>, id: nat)
    requires Lost(s, id)
    ensures Lost(RunFrom(s, steps), id)
  {
    if steps != [] {
      LostForever(s, DropLast(steps), id);
      NextKeepsLost(RunFrom(s, DropLast(steps)), Last(steps), id);
    }
  }

  ghost predicate NeverExecuted(s: State, t: Ticket) {
    forall steps :: !Executed(RunFrom(s, steps), t)
  }

  /**
   * `pending` is cleared after every attempt, whatever it then holds. The upgrade it drops will never be
   * executed exactly if it is not the one that was attempted, that is, if it was scheduled meanwhile.
   */
  lemma {:induction false} ClearLosesWaiting(s: State)
    requires Inv(s) && s.pc.Clear? && s.pending.Some?
    ensures Next(s, Advance(true)).pending == None
    ensures s.pending.value != s.pc.t <==> NeverExecuted(Next(s, Advance(true)), s.pending.value)
  {
    var t, p := Next(s, Advance(true)), s.pending.value;
    if p == s.pc.t {
      assert Executed(s, p) && t.executions == s.executions;
      assert RunFrom(t, []) == t;
      assert Executed(RunFrom(t, []), p);
    } else {
      forall e | e in t.executions
        ensures e.id != p.id
      {
      }
      assert Lost(t, p.id);
      forall steps
        ensures !Executed(RunFrom(t, steps), p)
      {
        LostForever(t, steps, p.id);
      }
    }
  }

  lemma RunFive(s: State, a: Step, b: Step, c: Step, d: Step, e: Step)
    ensures RunFrom(s, [a, b, c, d, e]) == Next(Next(Next(Next(Next(s, a), b), c), d), e)
  {
    assert DropLast([a, b, c, d, e]) == [a, b, c, d] && DropLast([a, b, c, d]) == [a, b, c];
    assert DropLast([a, b, c]) == [a, b] && DropLast([a, b]) == [a] && DropLast([a]) == [];
    assert RunFrom(s, [a]) == Next(s, a);
    assert RunFrom(s, [a, b]) == Next(Next(s, a), b);
    assert RunFrom(s, [a, b, c]) == Next(Next(Next(s, a), b), c);
  }

  lemma {:induction false} RunFromConcat(s: State, p: seq<Step>, q: seq<Step>)
    ensures RunFrom(s, p + q) == RunFrom(RunFrom(s, p), q)
  {
    if q == [] {
      assert p + q == p;
    } else {
      assert DropLast(p + q) == p + DropLast(q);
      RunFromConcat(s, p, DropLast(q));
    }
  }

  /** The steps until `first`, scheduled for height `h`, is about to be executed. */
  function Arrival(first: Upgrade, h: int): seq<Step> {
    [Schedule(first), Monitor(M.Poll(Some(h))), Monitor(M.BeginNotify), Monitor(M.SendNext), Deliver]
  }

  lemma MonitorSends(h: int)
    requires h != 0
    ensures var polled := M.Next(M.Next(M.Init(), M.Subscribe), M.Poll(Some(h)));
            var sent := M.Next(M.Next(polled, M.BeginNotify), M.SendNext);
            sent == M.State(h, M.Sending(h, 1), [M.Subscriber([h], 0, [], 0)], [h], [h])
  {
    var polled := M.Next(M.Next(M.Init(), M.Subscribe), M.Poll(Some(h)));
    assert polled == M.State(h, M.Changed(h), [M.Subscriber([], 0, [], 0)], [h], [h]);
    assert M.Deliver(M.Subscriber([], 0, [], 0), h) == M.Subscriber([h], 0, [], 0);
    assert [M.Subscriber([], 0, [], 0)][0 := M.Subscriber([h], 0, [], 0)] == [M.Subscriber([h], 0, [], 0)];
  }

  lemma {:induction false} AfterArrival(first: Upgrade, h: int)
    requires h > 0
    ensures var s := RunFrom(Init(M.Run([])), Arrival(first, h));
            && s.pc == Received(h) && s.pending == Some(Ticket(0, first)) && s.tickets == 1
            && !s.upgrading && s.executions == [] && s.stops == [] && s.calls == []
  {
    var s := Init(M.Run([]));
    RunFive(s, Schedule(first), Monitor(M.Poll(Some(h))), Monitor(M.BeginNotify), Monitor(M.SendNext), Deliver);
    MonitorSends(h);
  }

  /** Its execution, during which `second` is scheduled. */
  function AttemptMeanwhile(second: Upgrade): seq<Step> {
    [Advance(true), Advance(true), Schedule(second), Advance(true), Advance(true)]
      + [Advance(true), Advance(true), Advance(true)]
  }

  lemma ReachesSwitch(s: State, t: Ticket, second: Upgrade)
    requires s.pc == Received(t.upgrade.height) && s.pending == Some(t) && !s.upgrading
    requires t.upgrade.name != "" && t.upgrade.height > 0
    ensures var go := Advance(true);
            var r := Next(Next(Next(Next(Next(s, go), go), Schedule(second)), go), go);
            r.pc == Switch(t, t.upgrade.height) && r.pending == Some(Ticket(s.tickets, second))
  {
    var go := Advance(true);
    var begun := Next(Next(s, go), go);
    assert begun.pc == Validate(t, t.upgrade.height);
  }

  lemma SwitchToClear(s: State, t: Ticket, h: int)
    requires s.pc == Switch(t, h)
    ensures var r := RunFrom(s, [Advance(true), Advance(true), Advance(true)]);
            r.pc == Clear(t) && r.pending == s.pending
  {
    var go := Advance(true);
    assert DropLast([go, go, go]) == [go, go] && DropLast([go, go]) == [go] && DropLast([go]) == [];
    assert RunFrom(s, [go]) == Next(s, go);
    assert RunFrom(s, [go, go]) == Next(Next(s, go), go);
  }

  lemma {:induction false} AfterAttempt(s: State, t: Ticket, second: Upgrade)
    requires s.pc == Received(t.upgrade.height) && s.pending == Some(t) && !s.upgrading
    requires t.upgrade.name != "" && t.upgrade.height > 0
    ensures var r := RunFrom(s, AttemptMeanwhile(second));
            r.pc == Clear(t) && r.pending == Some(Ticket(s.tickets, second))
  {
    var go := Advance(true);
    RunFromConcat(s, [go, go, Schedule(second), go, go], [go, go, go]);
    RunFive(s, go, go, Schedule(second), go, go);
    ReachesSwitch(s, t, second);
    SwitchToClear(RunFrom(s, [go, go, Schedule(second), go, go]), t, t.upgrade.height);
  }

  /** An upgrade is lost in this way: it is scheduled while another one, which succeeds, is being executed. */
  lemma {:induction false} SecondScheduleIsLost(first: Upgrade, second: Upgrade)
    requires first.name != "" && first.height > 0
    ensures var s := RunFrom(Init(M.Run([])), Arrival(first, first.height) + AttemptMeanwhile(second));
            && s.pc == Clear(Ticket(0, first)) && s.pending == Some(Ticket(1, second))
            && NeverExecuted(Next(s, Advance(true)), Ticket(1, second))
  {
    var s0, steps := Init(M.Run([])), Arrival(first, first.height) + AttemptMeanwhile(second);
    AfterArrival(first, first.height);
    RunFromConcat(s0, Arrival(first, first.height), AttemptMeanwhile(second));
    AfterAttempt(RunFrom(s0, Arrival(first, first.height)), Ticket(0, first), second);
    ReachableInv([], steps);
    ClearLosesWaiting(RunFrom(s0, steps));
  }

  // ------------------------------------------------------------------ one attempt, uninterrupted

  /** The node calls of one attempt. A failed one always ends with a start of the genesis binary. */
  function AttemptCalls(u: Upgrade, h: int, stopOk: bool, startOk: bool): seq<NodeCall> {
    var rollback := [SwitchBinary("genesis"), NodeStart];
    if !ValidUpgrade(u, h) then rollback
    else if !stopOk then [NodeStop] + rollback
    else [NodeStop, SwitchBinary(u.name), NodeStart] + (if startOk then [] else rollback)
  }

  /** The four ways an attempt can go. Whatever fails, the last calls switch to genesis and start it. */
  lemma {:induction false} AttemptMeans(u: Upgrade, h: int, stopOk: bool, startOk: bool)
    ensures AttemptCalls(u, h, stopOk, startOk) ==
              if u.name == "" || u.height <= 0 || h > u.height then [SwitchBinary("genesis"), NodeStart]
              else if !stopOk then [NodeStop, SwitchBinary("genesis"), NodeStart]
              else if !startOk then
                [NodeStop, SwitchBinary(u.name), NodeStart, SwitchBinary("genesis"), NodeStart]
              else [NodeStop, SwitchBinary(u.name), NodeStart]
  {
    if ValidUpgrade(u, h) && stopOk && startOk {
      assert [NodeStop, SwitchBinary(u.name), NodeStart] + [] == [NodeStop, SwitchBinary(u.name), NodeStart];
    }
  }

  function StepsLeft(pc: Pc): nat {
    match pc
    case AtSelect => 0
    case Exited => 0
    case Received(_) => 10
    case Begin(_, _) => 9
    case Validate(_, _) => 8
    case Stop(_, _) => 7
    case Switch(_, _) => 6
    case Start(_, _) => 5
    case Return(_, _) => 4
    case Rollback(_) => 3
    case RollbackStart(_) => 2
    case Clear(_) => 1
  }

  /** The height goroutine runs on, undisturbed, until it is back at its select. */
  function RunToSelect(s: State, stopOk: bool, startOk: bool): State
    decreases StepsLeft(s.pc)
  {
    if s.pc.AtSelect? || s.pc.Exited? then s
    else RunToSelect(Advanced(s, if s.pc.Stop? then stopOk else startOk), stopOk, startOk)
  }

  function CallsFrom(pc: Pc, stopOk: bool, startOk: bool): seq<NodeCall> {
    var rollback := [SwitchBinary("genesis"), NodeStart];
    match pc
    case Validate(t, h) => AttemptCalls(t.upgrade, h, stopOk, startOk)
    case Stop(t, h) => AttemptCalls(t.upgrade, h, stopOk, startOk)
    case Switch(t, h) => [SwitchBinary(t.upgrade.name), NodeStart] + (if startOk then [] else rollback)
    case Start(t, h) => [NodeStart] + (if startOk then [] else rollback)
    case Return(t, ok) => if ok then [] else rollback
    case Rollback(t) => rollback
    case RollbackStart(t) => [NodeStart]
    case _ => []
  }

  lemma {:induction false} RestOfAttempt(s: State, stopOk: bool, startOk: bool)
    requires Attempted(s.pc) && (s.pc.Stop? ==> ValidUpgrade(s.pc.t.upgrade, s.pc.h))
    requires InFlight(s.pc) <==> s.upgrading
    ensures var r := RunToSelect(s, stopOk, startOk);
            && r.pc == AtSelect && r.pending == None && !r.upgrading
            && r.calls == s.calls + CallsFrom(s.pc, stopOk, startOk)
    decreases StepsLeft(s.pc)
  {
    var t := Advanced(s, if s.pc.Stop? then stopOk else startOk);
    if s.pc.Clear? {
      assert s.calls + [] == s.calls;
    } else {
      RestOfAttempt(t, stopOk, startOk);
    }
  }

  /** Left undisturbed, the sub-steps make exactly the calls of the method `HandleHeight` below. */
  lemma {:induction false} UninterruptedAttempt(s: State, stopOk: bool, startOk: bool)
    requires s.pc.Received? && !s.upgrading && s.pending.Some? && s.pc.h >= s.pending.value.upgrade.height
    ensures var r := RunToSelect(s, stopOk, startOk);
            && r.pc == AtSelect && r.pending == None && !r.upgrading
            && r.calls == s.calls + AttemptCalls(s.pending.value.upgrade, s.pc.h, stopOk, startOk)
  {
    RestOfAttempt(Advanced(Advanced(s, startOk), startOk), stopOk, startOk);
  }

  lemma {:induction false} StopsOfAttempt(s: State, stopOk: bool, startOk: bool)
    requires Attempted(s.pc)
    ensures var stopping := s.pc.Stop? || (s.pc.Validate? && ValidUpgrade(s.pc.t.upgrade, s.pc.h));
            RunToSelect(s, stopOk, startOk).stops == s.stops + (if stopping then [(s.pc.t, s.pc.h)] else [])
    decreases StepsLeft(s.pc)
  {
    if s.pc.Clear? {
      assert s.stops + [] == s.stops;
    } else {
      StopsOfAttempt(Advanced(s, if s.pc.Stop? then stopOk else startOk), stopOk, startOk);
    }
  }

  /**
   * An attempt stops the node exactly if its upgrade passes validation; for a named one with a positive height,
   * exactly if the height received is the target and not a later one.
   */
  lemma {:induction false} AttemptStopsIff(s: State, stopOk: bool, startOk: bool)
    requires s.pc.Received? && !s.upgrading && s.pending.Some? && s.pc.h >= s.pending.value.upgrade.height
    ensures var t, h := s.pending.value, s.pc.h;
            var r := RunToSelect(s, stopOk, startOk);
            && r.stops == s.stops + (if ValidUpgrade(t.upgrade, h) then [(t, h)] else [])
            && (NodeStop in AttemptCalls(t.upgrade, h, stopOk, startOk) <==> ValidUpgrade(t.upgrade, h))
            && (t.upgrade.name != "" && t.upgrade.height > 0 ==> (r.stops != s.stops <==> h == t.upgrade.height))
  {
    StopsOfAttempt(Advanced(Advanced(s, startOk), startOk), stopOk, startOk);
  }

  /** The first height the orchestrator hears of is past the target: genesis is started over the running node. */
  lemma {:induction false} PassedHeightSkipsStop(u: Upgrade, h: int, stopOk: bool, startOk: bool)
    requires 0 < u.height < h
    ensures var r := RunToSelect(RunFrom(Init(M.Run([])), Arrival(u, h)), stopOk, startOk);
            r.calls == [SwitchBinary("genesis"), NodeStart] && r.stops == [] && r.pending == None
  {
    var s := RunFrom(Init(M.Run([])), Arrival(u, h));
    AfterArrival(u, h);
    UninterruptedAttempt(s, stopOk, startOk);
    AttemptStopsIff(s, stopOk, startOk);
  }

  /** A height that comes too early, while nothing is pending, or during an execution is dropped. */
  lemma {:induction false} SkipMeans(s: State, ok: bool)
    requires s.pc.Received?
    ensures s.pending == None || s.upgrading || s.pc.h < s.pending.value.upgrade.height ==>
              Next(s, Advance(ok)) == s.(pc := AtSelect)
    ensures !(s.pending == None || s.upgrading || s.pc.h < s.pending.value.upgrade.height) ==>
              Next(s, Advance(ok)) == s.(pc := Begin(s.pending.value, s.pc.h))
  {
  }

  /** At its select the goroutine takes the oldest height that waits in its channel. */
  lemma {:induction false} DeliverMeans(s: State)
    requires s.pc == AtSelect && s.channel < |s.monitor.subscribers|
    ensures var waiting := s.monitor.subscribers[s.channel].buffer;
            if waiting == [] then Next(s, Deliver) == s
            else
              var t := Next(s, Deliver);
              && t.pc == Received(waiting[0]) && |t.monitor.subscribers| == |s.monitor.subscribers|
              && t.monitor.subscribers[s.channel].buffer == waiting[1..]
              && t == s.(pc := t.pc, monitor := t.monitor)
  {
  }

  /** Start: nothing is pending, in flight or cancelled, and the channel is a new one. */
  lemma {:induction false} InitMeans(m: M.State)
    requires !m.phase.Sending?
    ensures var s := Init(m);
            && s.pending == None && !s.upgrading && !s.cancelled && s.pc == AtSelect && s.executions == []
            && s.calls == [] && s.channel == |m.subscribers| && |s.monitor.subscribers| == |m.subscribers| + 1
            && s.monitor.subscribers[s.channel].buffer == []
  {
  }

  /** Stop ends the goroutine at its next select, and only there; nothing is executed or called afterwards. */
  lemma {:induction false} ExitMeans(s: State)
    ensures Next(s, Cancel) == s.(cancelled := true)
    ensures Next(s, Exit) == if s.pc == AtSelect && s.cancelled then s.(pc := Exited) else s
  {
  }

  lemma {:induction false} ExitedStays(s: State, steps: seq<Step>)
    requires s.pc == Exited
    ensures var t := RunFrom(s, steps); t.pc == Exited && t.executions == s.executions && t.calls == s.calls
  {
    if steps != [] {
      ExitedStays(s, DropLast(steps));
    }
  }

  /** The goroutine ends only after a Stop. */
  lemma {:induction false} ExitNeedsCancel(m: M.State, steps: seq<Step>)
    ensures RunFrom(Init(m), steps).cancelled <==> Cancel in steps
    ensures RunFrom(Init(m), steps).pc == Exited ==> Cancel in steps
  {
    if steps != [] {
      ExitNeedsCancel(m, DropLast(steps));
      assert steps == DropLast(steps) + [Last(steps)];
    }
  }

  // ------------------------------------------------------------------ the struct

  class UpgradeOrchestrator {
    var pendingUpgrade: Option<Upgrade>
    var upgrading: bool
    var calls: seq<NodeCall> // what was asked of the node manager and of switchBinary, in order

    constructor ()
      ensures pendingUpgrade == None && !upgrading && calls == []
    {
      pendingUpgrade, upgrading, calls := None, false, [];
    }

    method ScheduleUpgrade(upgrade: Upgrade)
      modifies this
      ensures pendingUpgrade == Some(upgrade) && upgrading == old(upgrading) && calls == old(calls)
    {
      pendingUpgrade := Some(upgrade);
    }

    /** One iteration of monitorHeights; `stopOk` and `startOk` are the answers of the node manager. */
    method HandleHeight(currentHeight: int, stopOk: bool, startOk: bool)
      modifies this
      ensures upgrading == old(upgrading)
      ensures old(upgrading) || old(pendingUpgrade).None? || currentHeight < old(pendingUpgrade).value.height ==>
                pendingUpgrade == old(pendingUpgrade) && calls == old(calls)
      ensures !old(upgrading) && old(pendingUpgrade).Some? && currentHeight >= old(pendingUpgrade).value.height ==>
                && pendingUpgrade == None
                && calls == old(calls) + AttemptCalls(old(pendingUpgrade).value, currentHeight, stopOk, startOk)
    {
      var pending := pendingUpgrade;
      if pending.None? || upgrading {
        return;
      }
      if currentHeight >= pending.value.height {
        var ok := ExecuteUpgrade(pending.value, currentHeight, stopOk, startOk);
        if !ok {
          RollBack();
        }
        pendingUpgrade := None;
      }
    }

    method ExecuteUpgrade(upgrade: Upgrade, currentHeight: int, stopOk: bool, startOk: bool) returns (ok: bool)
      modifies this
      ensures upgrading == old(upgrading) && pendingUpgrade == old(pendingUpgrade)
      ensures ok <==> !old(upgrading) && ValidUpgrade(upgrade, currentHeight) && stopOk && startOk
      ensures ok <==> !old(upgrading) && upgrade.name != "" && 0 < upgrade.height && currentHeight <= upgrade.height
                      && stopOk && startOk
      ensures var rollback := if ok then [] else [SwitchBinary("genesis"), NodeStart];
              !old(upgrading) ==> calls + rollback == old(calls) + AttemptCalls(upgrade, currentHeight, stopOk, startOk)
      ensures old(upgrading) ==> calls == old(calls)
    {
      if upgrading {
        return false;
      }
      upgrading := true;
      ok := ValidateUpgrade(upgrade, currentHeight);
      if ok {
        calls := calls + [NodeStop];
        ok := stopOk;
      }
      if ok {
        calls := calls + [SwitchBinary(upgrade.name)];
        calls := calls + [NodeStart];
        ok := startOk;
      }
      upgrading := false;
    }

    method ValidateUpgrade(upgrade: Upgrade, currentHeight: int) returns (ok: bool)
      ensures ok <==> upgrade.name != "" && 0 < upgrade.height && currentHeight <= upgrade.height
    {
      if upgrade.name == "" {
        return false;
      }
      if upgrade.height <= 0 {
        return false;
      }
      if currentHeight > upgrade.height {
        return false;
      }
      return true;
    }

    method RollBack()
      modifies this
      ensures calls == old(calls) + [SwitchBinary("genesis"), NodeStart]
      ensures upgrading == old(upgrading) && pendingUpgrade == old(pendingUpgrade)
    {
      calls := calls + [SwitchBinary("genesis")];
      calls := calls + [NodeStart];
    }
  }
}
