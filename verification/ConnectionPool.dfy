/**
 * The connection pool of internal/performance/pool.go before Stop, at the granularity of its channel
 * operations and locked counter updates. Get tries the channel, compares the counter with the limit, dials and
 * counts, each in a step of its own; a connection taken from the channel or put back into it is counted in a
 * later step; cleanup moves one connection at a time. Any number of calls may be in progress.
 */
module ConnectionPool {
  import opened Sequences

  const IDLE_TIMEOUT: int := 300_000_000_000 // five minutes, in nanoseconds

  /** `dialed` tells whether the factory gave a connection or, without an error, nil. */
  datatype Conn = Conn(id: nat, dialed: bool, lastUsed: int)

  datatype Dial = DialError | DialNil | Dialed

  datatype Pool = Pool(
    maxSize: nat,
    idle: seq<Conn>,       // the buffer of the channel
    active: int,           // stats.Active
    created: nat,
    destroyed: nat,
    timeouts: nat,
    looking: nat,          // calls of Get that found nothing usable and have not compared the count yet
    dialing: nat,          // calls of Get that found room and have not counted their connection yet
    taking: multiset<nat>, // connections a Get has received and not counted yet
    waiting: nat,          // calls of Get blocked in the second select
    held: multiset<nat>,   // connections handed out and not put back
    returning: nat,        // calls of Put that have not lowered the count yet
    swept: seq<Conn>,      // connections that cleanup has received and not sent back yet
    vanished: nat,         // history: connections that left the pool without being counted as destroyed
    gets: nat,             // history: the most calls of Get that were looking, dialing or taking at the same time
    sweep: nat)            // history: the most connections that cleanup had received at the same time

  datatype Step =
    | Look(now: int, alive: bool, cancelled: bool) // `cancelled`: the select takes ctx.Done
    | Compare
    | DialEnds(dial: Dial, now: int)
    | Count(id: nat)
    | WaiterReceives(now: int, alive: bool)
    | WaiterGivesUp(timedOut: bool)
    | PutBack(conn: Conn, now: int)
    | Uncount
    | Sweep(now: int)
    | Refill(i: nat)

  datatype Outcome = Got(conn: Conn) | Error | Taken(conn: Conn) | MustCompare | MustDial | MustWait

  function New(maxSize: nat): Pool {
    Pool(maxSize, [], 0, 0, 0, 0, 0, 0, multiset{}, 0, multiset{}, 0, [], 0, 0, 0)
  }

  predicate Usable(c: Conn, now: int, alive: bool) {
    c.dialed && now - c.lastUsed <= IDLE_TIMEOUT && alive
  }

  /** Closing what is there: a nil connection is dropped without a trace in the statistics. */
  function Discard(p: Pool, c: Conn): Pool {
    if c.dialed then p.(destroyed := p.destroyed + 1) else p.(vanished := p.vanished + 1)
  }

  /** The calls of Get in progress, those that wait excepted. */
  function InGet(p: Pool): nat {
    p.looking + p.dialing + |p.taking|
  }

  function Noted(p: Pool): Pool {
    p.(gets := Max(p.gets, InGet(p)), sweep := Max(p.sweep, |p.swept|))
  }

  /** The first select of Get. */
  function LookStep(p: Pool, now: int, alive: bool, cancelled: bool): (Pool, Outcome) {
    if cancelled then (p, Error)
    else if p.idle == [] then (Noted(p.(looking := p.looking + 1)), MustCompare)
    else
      var c, rest := p.idle[0], p.(idle := p.idle[1..]);
      if Usable(c, now, alive) then (Noted(rest.(taking := p.taking + multiset{c.id})), Taken(c.(lastUsed := now)))
      else (Noted(Discard(rest, c).(looking := p.looking + 1)), MustCompare)
  }

  /** The comparison with the limit: dial if there is room. */
  function CompareStep(p: Pool): (Pool, Outcome) {
    if p.looking == 0 then (p, Error)
    else if p.active >= p.maxSize then (p.(looking := p.looking - 1, waiting := p.waiting + 1), MustWait)
    else (p.(looking := p.looking - 1, dialing := p.dialing + 1), MustDial)
  }

  /** The factory has answered. */
  function DialStep(p: Pool, dial: Dial, now: int): (Pool, Outcome) {
    if p.dialing == 0 then (p, Error)
    else if dial.DialError? then (p.(dialing := p.dialing - 1), Error)
    else
      var c := Conn(p.created, dial.Dialed?, now);
      (p.(dialing := p.dialing - 1, active := p.active + 1, created := p.created + 1, held := p.held + multiset{c.id}),
       Got(c))
  }

  function CountStep(p: Pool, id: nat): Pool {
    if id in p.taking then
      p.(taking := p.taking - multiset{id}, active := p.active + 1, held := p.held + multiset{id})
    else p
  }

  /** The second select of Get: an unusable connection is dropped here without being closed or counted. */
  function WaiterStep(p: Pool, now: int, alive: bool): Pool {
    if p.waiting == 0 || p.idle == [] then p
    else
      var c, rest := p.idle[0], p.(idle := p.idle[1..], waiting := p.waiting - 1);
      if Usable(c, now, alive) then Noted(rest.(taking := p.taking + multiset{c.id}))
      else rest.(vanished := p.vanished + 1)
  }

  /** A non-blocking send into the channel; what does not fit is closed. */
  function Send(p: Pool, c: Conn): Pool {
    if |p.idle| < p.maxSize then p.(idle := p.idle + [c]) else Discard(p, c)
  }

  function PutStep(p: Pool, c: Conn, now: int): Pool {
    Send(p.(held := p.held - multiset{c.id}, returning := p.returning + 1), c.(lastUsed := now))
  }

  function UncountStep(p: Pool): Pool {
    if p.returning == 0 then p else p.(returning := p.returning - 1, active := p.active - 1)
  }

  predicate Fresh(c: Conn, now: int) {
    now - c.lastUsed < IDLE_TIMEOUT
  }

  function SweepStep(p: Pool, now: int): Pool {
    if p.idle == [] then p
    else
      var c, rest := p.idle[0], p.(idle := p.idle[1..]);
      if Fresh(c, now) then Noted(rest.(swept := p.swept + [c])) else Discard(rest, c)
  }

  function RefillStep(p: Pool, i: nat): Pool {
    if i < |p.swept| then Send(p.(swept := p.swept[..i] + p.swept[i + 1..]), p.swept[i]) else p
  }

  /** A connection can only be put back by a caller that holds it. */
  function Next(p: Pool, step: Step): Pool {
    match step
    case Look(now, alive, cancelled) => LookStep(p, now, alive, cancelled).0
    case Compare => CompareStep(p).0
    case DialEnds(dial, now) => DialStep(p, dial, now).0
    case Count(id) => CountStep(p, id)
    case WaiterReceives(now, alive) => WaiterStep(p, now, alive)
    case WaiterGivesUp(timedOut) =>
      if p.waiting == 0 then p else p.(waiting := p.waiting - 1, timeouts := p.timeouts + if timedOut then 1 else 0)
    case PutBack(c, now) => if c.id in p.held then PutStep(p, c, now) else p
    case Uncount => UncountStep(p)
    case Sweep(now) => SweepStep(p, now)
    case Refill(i) => RefillStep(p, i)
  }

  function Run(maxSize: nat, steps: seq<Step>): Pool {
    if steps == [] then New(maxSize) else Next(Run(maxSize, DropLast(steps)), Last(steps))
  }

  // ------------------------------------------------------------------ capacity and conservation

  /** The connections in existence. */
  function Existing(p: Pool): nat {
    |p.held| + |p.taking| + |p.idle| + |p.swept|
  }

  /** Those and the ones that are being dialed. */
  function Total(p: Pool): nat {
    Existing(p) + p.dialing
  }

  /** The calls of Get that can be in progress beside one of them. */
  function Others(p: Pool): nat {
    if p.gets == 0 then 0 else p.gets - 1
  }

  ghost predicate Inv(p: Pool) {
    && p.active == |p.held| + p.returning
    && |p.idle| <= p.maxSize
    && InGet(p) <= p.gets && |p.swept| <= p.sweep
    && Total(p) <= 2 * p.maxSize + Others(p) + p.sweep
    && p.created == p.destroyed + p.vanished + Existing(p)
  }

  lemma {:induction false} DiscardKeepsInv(p: Pool)
    requires Inv(p) && p.idle != []
    ensures var q := Discard(p.(idle := p.idle[1..]), p.idle[0]);
            Inv(q) && Total(q) == Total(p) - 1
  {
  }

  lemma {:induction false} MissKeepsInv(p: Pool)
    requires Inv(p)
    ensures var q := Noted(p.(looking := p.looking + 1));
            Inv(q) && Total(q) == Total(p)
  {
  }

  lemma {:induction false} TakeKeepsInv(p: Pool)
    requires Inv(p) && p.idle != []
    ensures var q := Noted(p.(idle := p.idle[1..], taking := p.taking + multiset{p.idle[0].id}));
            Inv(q) && Total(q) == Total(p)
  {
  }

  lemma {:induction false} LookKeepsInv(p: Pool, now: int, alive: bool, cancelled: bool)
    requires Inv(p)
    ensures var q := LookStep(p, now, alive, cancelled).0;
            Inv(q) && q.maxSize == p.maxSize && Total(q) <= Total(p)
  {
    if p.idle == [] {
      MissKeepsInv(p);
    } else {
      TakeKeepsInv(p);
      DiscardKeepsInv(p);
      MissKeepsInv(Discard(p.(idle := p.idle[1..]), p.idle[0]));
    }
  }

  /** Nothing but a comparison that finds room adds to the total. */
  lemma {:induction false} CompareKeepsInv(p: Pool)
    requires Inv(p)
    ensures var q := CompareStep(p).0;
            && Inv(q) && q.maxSize == p.maxSize
            && Total(q) == (if p.looking > 0 && p.active < p.maxSize then Total(p) + 1 else Total(p))
  {
  }

  lemma {:induction false} DialKeepsInv(p: Pool, dial: Dial, now: int)
    requires Inv(p)
    ensures var q := DialStep(p, dial, now).0;
            Inv(q) && q.maxSize == p.maxSize && Total(q) <= Total(p)
  {
  }

  lemma {:induction false} CountKeepsInv(p: Pool, id: nat)
    requires Inv(p)
    ensures var q := CountStep(p, id);
            Inv(q) && q.maxSize == p.maxSize && Total(q) == Total(p)
  {
    if id in p.taking {
      assert p.taking == multiset{id} + (p.taking - multiset{id});
    }
  }

  lemma {:induction false} WaiterKeepsInv(p: Pool, now: int, alive: bool)
    requires Inv(p)
    ensures var q := WaiterStep(p, now, alive);
            Inv(q) && q.maxSize == p.maxSize && Total(q) <= Total(p)
  {
  }

  lemma {:induction false} PutKeepsInv(p: Pool, c: Conn, now: int)
    requires Inv(p) && c.id in p.held
    ensures var q := PutStep(p, c, now);
            Inv(q) && q.maxSize == p.maxSize && Total(q) <= Total(p)
  {
    assert p.held == multiset{c.id} + (p.held - multiset{c.id});
  }

  lemma {:induction false} SweepKeepsInv(p: Pool, now: int)
    requires Inv(p)
    ensures var q := SweepStep(p, now);
            Inv(q) && q.maxSize == p.maxSize && Total(q) <= Total(p)
  {
  }

  lemma {:induction false} RefillKeepsInv(p: Pool, i: nat)
    requires Inv(p)
    ensures var q := RefillStep(p, i);
            Inv(q) && q.maxSize == p.maxSize && Total(q) <= Total(p)
  {
  }

  lemma {:induction false} NextKeepsInv(p: Pool, step: Step)
    requires Inv(p)
    ensures Inv(Next(p, step)) && Next(p, step).maxSize == p.maxSize
    ensures Total(Next(p, step)) <= Total(p) + (if step.Compare? && p.looking > 0 && p.active < p.maxSize then 1 else 0)
  {
    match step
    case Look(now, alive, cancelled) => LookKeepsInv(p, now, alive, cancelled);
    case Compare => CompareKeepsInv(p);
    case DialEnds(dial, now) => DialKeepsInv(p, dial, now);
    case Count(id) => CountKeepsInv(p, id);
    case WaiterReceives(now, alive) => WaiterKeepsInv(p, now, alive);
    case PutBack(c, now) => if c.id in p.held { PutKeepsInv(p, c, now); }
    case Sweep(now) => SweepKeepsInv(p, now);
    case Refill(i) => RefillKeepsInv(p, i);
    case _ =>
  }

  lemma {:induction false} ReachableInv(maxSize: nat, steps: seq<Step>)
    ensures Inv(Run(maxSize, steps)) && Run(maxSize, steps).maxSize == maxSize
  {
    if steps != [] {
      ReachableInv(maxSize, DropLast(steps));
      NextKeepsInv(Run(maxSize, DropLast(steps)), Last(steps));
    }
  }

  /**
   * Capacity, in every run: at most maxSize connections are idle, and those in existence or being dialed are at
   * most twice maxSize, the calls of Get that were in progress beside one of them, and what cleanup had in hand.
   */
  lemma {:induction false} Capacity(maxSize: nat, steps: seq<Step>)
    ensures var p := Run(maxSize, steps);
            && p.active == |p.held| + p.returning && |p.idle| <= maxSize
            && Total(p) <= 2 * maxSize + Others(p) + p.sweep
  {
    ReachableInv(maxSize, steps);
  }

  /** A comparison finds room although the limit is already in use, by dials if by nothing else. */
  predicate Overfills(p: Pool, step: Step) {
    step.Compare? && p.looking > 0 && p.active < p.maxSize && Total(p) == p.maxSize
  }

  /** A step takes the pool over its limit exactly if it is such a comparison. */
  lemma {:induction false} ExceedsIff(p: Pool, step: Step)
    requires Inv(p) && Total(p) <= p.maxSize
    ensures Total(Next(p, step)) > p.maxSize <==> Overfills(p, step)
  {
    NextKeepsInv(p, step);
    if step.Compare? {
      CompareKeepsInv(p);
    }
  }

  predicate AlwaysWithin(maxSize: nat, steps: seq<Step>) {
    Total(Run(maxSize, steps)) <= maxSize && (steps == [] || AlwaysWithin(maxSize, DropLast(steps)))
  }

  predicate NeverOverfills(maxSize: nat, steps: seq<Step>) {
    steps == []
    || (NeverOverfills(maxSize, DropLast(steps)) && !Overfills(Run(maxSize, DropLast(steps)), Last(steps)))
  }

  /** A run stays within the limit all the time exactly if it has no such comparison. */
  lemma {:induction false} WithinIffNeverOverfills(maxSize: nat, steps: seq<Step>)
    ensures AlwaysWithin(maxSize, steps) <==> NeverOverfills(maxSize, steps)
  {
    if steps != [] {
      var prefix := DropLast(steps);
      ReachableInv(maxSize, prefix);
      WithinIffNeverOverfills(maxSize, prefix);
      if AlwaysWithin(maxSize, prefix) {
        assert Total(Run(maxSize, prefix)) <= maxSize;
        ExceedsIff(Run(maxSize, prefix), Last(steps));
      }
    }
  }

  /** A comparison finds room although maxSize connections exist already. */
  predicate Misled(p: Pool, step: Step) {
    step.Compare? && p.looking > 0 && p.active < p.maxSize && Existing(p) >= p.maxSize
  }

  predicate NeverMisled(maxSize: nat, steps: seq<Step>) {
    steps == []
    || (NeverMisled(maxSize, DropLast(steps)) && !Misled(Run(maxSize, DropLast(steps)), Last(steps)))
  }

  /**
   * If every comparison that finds room is made while fewer than maxSize connections exist, only calls that dial
   * at the same time can exceed the limit, and by less than their number.
   */
  lemma {:induction false} CapacityIfNeverMisled(maxSize: nat, steps: seq<Step>)
    requires NeverMisled(maxSize, steps)
    ensures Total(Run(maxSize, steps)) <= maxSize + Others(Run(maxSize, steps))
  {
    if steps != [] {
      var p := Run(maxSize, DropLast(steps));
      ReachableInv(maxSize, DropLast(steps));
      CapacityIfNeverMisled(maxSize, DropLast(steps));
      NextKeepsInv(p, Last(steps));
      PeaksGrow(p, Last(steps));
    }
  }

  lemma {:induction false} PeaksGrow(p: Pool, step: Step)
    ensures Next(p, step).gets >= p.gets && Next(p, step).sweep >= p.sweep
  {
  }

  // ------------------------------------------------------------------ whole calls

  /** What a call of Get does once it has found nothing. */
  function RestOfGet(p: Pool, dial: Dial, now: int): (Pool, Outcome) {
    var (compared, room) := CompareStep(p);
    if room.MustDial? then DialStep(compared, dial, now) else (compared, room)
  }

  /** A call of Get that nobody interrupts, up to the point where it has a result or waits. */
  function GetCall(p: Pool, now: int, alive: bool, dial: Dial, cancelled: bool): (Pool, Outcome) {
    var (looked, found) := LookStep(p, now, alive, cancelled);
    match found
    case Taken(c) => (CountStep(looked, c.id), Got(c))
    case MustCompare => RestOfGet(looked, dial, now)
    case _ => (looked, found)
  }

  lemma {:induction false} GetCallMeans(p: Pool, now: int, alive: bool, dial: Dial, cancelled: bool)
    ensures var (q, outcome) := GetCall(p, now, alive, dial, cancelled);
            && q.active == p.active + (if outcome.Got? then 1 else 0)
            && (outcome.Got? || outcome == Error || (outcome == MustWait && q.active >= q.maxSize))
  {
  }

  function PutCall(p: Pool, c: Conn, now: int): Pool {
    UncountStep(PutStep(p, c, now))
  }

  function KeepFresh(conns: seq<Conn>, now: int): seq<Conn> {
    Filter(conns, (c: Conn) => Fresh(c, now))
  }

  function StaleDialed(conns: seq<Conn>, now: int): seq<Conn> {
    Filter(conns, (c: Conn) => !Fresh(c, now) && c.dialed)
  }

  function StaleNil(conns: seq<Conn>, now: int): seq<Conn> {
    Filter(conns, (c: Conn) => !Fresh(c, now) && !c.dialed)
  }

  /** Spelled out: what has been idle for less than five minutes stays. */
  lemma {:induction false} FreshMeans(conns: seq<Conn>, now: int)
    ensures KeepFresh(conns, now) == Filter(conns, (c: Conn) => now - c.lastUsed < 5 * 60_000_000_000)
    ensures StaleDialed(conns, now) == Filter(conns, (c: Conn) => now - c.lastUsed >= 5 * 60_000_000_000 && c.dialed)
  {
    if conns != [] {
      FreshMeans(conns[1..], now);
    }
  }

  /**
   * The steps of Get, spelled out. The first select takes the connection at the head of the channel, for itself if
   * it is alive and was used in the last five minutes, and to close it otherwise.
   */
  lemma {:induction false} LookMeans(p: Pool, now: int, alive: bool, cancelled: bool)
    ensures var (q, outcome) := LookStep(p, now, alive, cancelled);
            var some := !cancelled && |p.idle| > 0;
            var mine := some && p.idle[0].dialed && alive && now - p.idle[0].lastUsed <= 5 * 60_000_000_000;
            && outcome == (if cancelled then Error
                           else if mine then Taken(Conn(p.idle[0].id, p.idle[0].dialed, now)) else MustCompare)
            && q.idle == (if some then p.idle[1..] else p.idle)
            && q.taking == p.taking + (if mine then multiset{p.idle[0].id} else multiset{})
            && q.looking == p.looking + (if outcome == MustCompare then 1 else 0)
            && q.destroyed == p.destroyed + (if some && !mine && p.idle[0].dialed then 1 else 0)
            && q.active == p.active && q.created == p.created && q.held == p.held
  {
  }

  /** A Get that found nothing dials exactly if the counter is below the limit, and waits otherwise. */
  lemma {:induction false} CompareMeans(p: Pool)
    requires p.looking > 0
    ensures var (q, outcome) := CompareStep(p);
            && outcome == (if p.active < p.maxSize then MustDial else MustWait)
            && q.looking == p.looking - 1
            && q.dialing == p.dialing + (if outcome == MustDial then 1 else 0)
            && q.waiting == p.waiting + (if outcome == MustWait then 1 else 0)
            && q.active == p.active && q.idle == p.idle
  {
  }

  /** What the factory gives is handed out and counted, a nil too; an error changes no counter. */
  lemma {:induction false} DialMeans(p: Pool, dial: Dial, now: int)
    requires p.dialing > 0
    ensures var (q, outcome) := DialStep(p, dial, now);
            && outcome == (if dial == DialError then Error else Got(Conn(p.created, dial == Dialed, now)))
            && q.dialing == p.dialing - 1
            && q.active - p.active == q.created - p.created == (if dial == DialError then 0 else 1)
            && q.held == p.held + (if dial == DialError then multiset{} else multiset{p.created})
            && q.idle == p.idle && q.destroyed == p.destroyed
  {
  }

  /** A waiting Get that receives: a live connection used in the last five minutes is its own, any other is lost. */
  lemma {:induction false} WaiterMeans(p: Pool, now: int, alive: bool, timedOut: bool)
    ensures var q := Next(p, WaiterReceives(now, alive));
            if p.waiting == 0 || p.idle == [] then q == p
            else
              var mine := p.idle[0].dialed && alive && now - p.idle[0].lastUsed <= 5 * 60_000_000_000;
              && q.idle == p.idle[1..] && q.waiting == p.waiting - 1 && q.destroyed == p.destroyed
              && q.taking == p.taking + (if mine then multiset{p.idle[0].id} else multiset{})
              && q.vanished == p.vanished + (if mine then 0 else 1)
    ensures var q := Next(p, WaiterGivesUp(timedOut));
            && q.waiting == (if p.waiting == 0 then 0 else p.waiting - 1)
            && q.timeouts == p.timeouts + (if timedOut && p.waiting > 0 then 1 else 0)
  {
  }

  /** The first loop of cleanup after `n` connections. */
  function SweptPart(p: Pool, n: nat, now: int): Pool
    requires n <= |p.idle|
  {
    var seen := p.idle[..n];
    p.(idle := p.idle[n..], swept := KeepFresh(seen, now), sweep := Max(p.sweep, |KeepFresh(seen, now)|),
       destroyed := p.destroyed + |StaleDialed(seen, now)|, vanished := p.vanished + |StaleNil(seen, now)|)
  }

  /** The second loop of cleanup after `n` connections. */
  function RefilledPart(p: Pool, n: nat, now: int): Pool
    requires n <= |KeepFresh(p.idle, now)|
  {
    var kept := KeepFresh(p.idle, now);
    SweptPart(p, |p.idle|, now).(idle := kept[..n], swept := kept[n..])
  }

  function CleanupCall(p: Pool, now: int): Pool {
    RefilledPart(p, |KeepFresh(p.idle, now)|, now)
  }

  lemma {:induction false} SweepOneMore(p: Pool, n: nat, now: int)
    requires n < |p.idle| && InGet(p) <= p.gets
    ensures SweptPart(p, n + 1, now) == Next(SweptPart(p, n, now), Sweep(now))
  {
    var seen, c := p.idle[..n], p.idle[n];
    assert p.idle[..n + 1] == seen + [c] && p.idle[n..][1..] == p.idle[n + 1..];
    FilterAppend(seen, c, (c: Conn) => Fresh(c, now));
    FilterAppend(seen, c, (c: Conn) => !Fresh(c, now) && c.dialed);
    FilterAppend(seen, c, (c: Conn) => !Fresh(c, now) && !c.dialed);
  }

  lemma {:induction false} RefillOneMore(p: Pool, n: nat, now: int)
    requires n < |KeepFresh(p.idle, now)| && |p.idle| <= p.maxSize
    ensures RefilledPart(p, n + 1, now) == Next(RefilledPart(p, n, now), Refill(0))
  {
    var kept := KeepFresh(p.idle, now);
    FilterMembers(p.idle, (c: Conn) => Fresh(c, now));
    assert |kept[..n]| < p.maxSize && kept[n..][0] == kept[n];
    assert kept[..n + 1] == kept[..n] + [kept[n]];
    assert kept[n..][..0] + kept[n..][1..] == kept[n + 1..];
  }

  /** No call is in progress, those that wait excepted, and the limit is kept. */
  ghost predicate AtRest(p: Pool) {
    && Inv(p) && InGet(p) == 0 && p.returning == 0 && p.swept == []
    && Total(p) <= p.maxSize
  }

  datatype Call =
    | CallGet(now: int, alive: bool, dial: Dial, cancelled: bool)
    | CallPut(conn: Conn, now: int)
    | Wakes(now: int, alive: bool) // a waiting Get receives
    | GivesUp(timedOut: bool)
    | CallCleanup(now: int)

  function WakeCall(p: Pool, now: int, alive: bool): Pool {
    if p.idle == [] then p else CountStep(WaiterStep(p, now, alive), p.idle[0].id)
  }

  function AfterCall(p: Pool, call: Call): Pool {
    match call
    case CallGet(now, alive, dial, cancelled) => GetCall(p, now, alive, dial, cancelled).0
    case CallPut(c, now) => if c.id in p.held then PutCall(p, c, now) else p
    case Wakes(now, alive) => WakeCall(p, now, alive)
    case GivesUp(timedOut) => Next(p, WaiterGivesUp(timedOut))
    case CallCleanup(now) => CleanupCall(p, now)
  }

  function AfterCalls(maxSize: nat, calls: seq<Call>): Pool {
    if calls == [] then New(maxSize) else AfterCall(AfterCalls(maxSize, DropLast(calls)), Last(calls))
  }

  /** If calls never overlap, the limit is kept, and `active` and the channel account for every connection. */
  lemma {:induction false} WholeCallsKeepLimit(maxSize: nat, calls: seq<Call>)
    ensures var p := AfterCalls(maxSize, calls);
            AtRest(p) && p.maxSize == maxSize && p.active + |p.idle| <= maxSize
  {
    if calls != [] {
      WholeCallsKeepLimit(maxSize, DropLast(calls));
      CallKeepsRest(AfterCalls(maxSize, DropLast(calls)), Last(calls));
      CallKeepsSize(AfterCalls(maxSize, DropLast(calls)), Last(calls));
    }
  }

  lemma {:induction false} CallKeepsRest(p: Pool, call: Call)
    requires AtRest(p)
    ensures AtRest(AfterCall(p, call))
  {
    match call
    case CallGet(now, alive, dial, cancelled) => GetAtRest(p, now, alive, dial, cancelled);
    case CallPut(c, now) => if c.id in p.held { PutKeepsInv(p, c, now); }
    case Wakes(now, alive) => if p.idle != [] { WakeAtRest(p, now, alive); }
    case GivesUp(_) =>
    case CallCleanup(now) => CleanupAtRest(p, now);
  }

  lemma CallKeepsSize(p: Pool, call: Call)
    ensures AfterCall(p, call).maxSize == p.maxSize
  {
  }

  lemma {:induction false} WakeAtRest(p: Pool, now: int, alive: bool)
    requires AtRest(p) && p.idle != []
    ensures AtRest(WakeCall(p, now, alive))
  {
    var woken, id := WaiterStep(p, now, alive), p.idle[0].id;
    WaiterKeepsInv(p, now, alive);
    if id in woken.taking {
      assert woken.taking == multiset{id};
      CountAtRest(woken, id);
    }
  }

  lemma {:induction false} GetAtRest(p: Pool, now: int, alive: bool, dial: Dial, cancelled: bool)
    requires AtRest(p)
    ensures AtRest(GetCall(p, now, alive, dial, cancelled).0)
  {
    var (looked, found) := LookStep(p, now, alive, cancelled);
    LookAtRest(p, now, alive, cancelled);
    if found.Taken? {
      CountAtRest(looked, found.conn.id);
    } else if found.MustCompare? {
      RestOfGetAtRest(looked, dial, now);
    }
  }

  lemma {:induction false} LookAtRest(p: Pool, now: int, alive: bool, cancelled: bool)
    requires AtRest(p)
    ensures var (looked, found) := LookStep(p, now, alive, cancelled);
            && Inv(looked) && looked.dialing == looked.returning == 0 && looked.swept == []
            && Total(looked) <= looked.maxSize
            && (found.Taken? ==> looked.taking == multiset{found.conn.id} && looked.looking == 0)
            && (found.MustCompare? ==>
                  && looked.looking == 1 && looked.taking == multiset{}
                  && (Total(looked) < looked.maxSize || looked.idle == []))
            && (found.Error? ==> looked == p)
  {
    LookKeepsInv(p, now, alive, cancelled);
    if p.idle != [] {
      DiscardKeepsInv(p);
    }
  }

  lemma {:induction false} CountAtRest(looked: Pool, id: nat)
    requires Inv(looked) && looked.taking == multiset{id} && looked.looking == looked.dialing == looked.returning == 0
    requires looked.swept == [] && Total(looked) <= looked.maxSize
    ensures AtRest(CountStep(looked, id))
  {
    CountKeepsInv(looked, id);
    assert looked.taking - multiset{id} == multiset{};
  }

  /** Either the channel was empty, or an unusable connection has made room. */
  lemma {:induction false} RestOfGetAtRest(looked: Pool, dial: Dial, now: int)
    requires Inv(looked) && looked.looking == 1 && looked.dialing == looked.returning == 0
    requires looked.taking == multiset{} && looked.swept == []
    requires Total(looked) < looked.maxSize || (looked.idle == [] && Total(looked) <= looked.maxSize)
    ensures var (compared, room) := CompareStep(looked);
            && (room.MustDial? ==> AtRest(DialStep(compared, dial, now).0))
            && (room.MustWait? ==> AtRest(compared))
  {
    CompareKeepsInv(looked);
    DialKeepsInv(CompareStep(looked).0, dial, now);
  }

  lemma {:induction false} CleanupAtRest(p: Pool, now: int)
    requires AtRest(p)
    ensures AtRest(CleanupCall(p, now))
  {
    Partition(p.idle, now);
    assert p.idle[..|p.idle|] == p.idle;
    assert KeepFresh(p.idle, now)[..|KeepFresh(p.idle, now)|] == KeepFresh(p.idle, now);
  }

  lemma {:induction false} Partition(conns: seq<Conn>, now: int)
    ensures |conns| == |KeepFresh(conns, now)| + |StaleDialed(conns, now)| + |StaleNil(conns, now)|
  {
    if conns != [] {
      Partition(conns[1..], now);
    }
  }

  // ------------------------------------------------------------------ runs over the limit

  lemma {:induction false} RunAppend(maxSize: nat, before: seq<Step>, step: Step)
    ensures Run(maxSize, before + [step]) == Next(Run(maxSize, before), step)
  {
    assert DropLast(before + [step]) == before;
  }

  lemma {:induction false} RunFour(maxSize: nat, before: seq<Step>, a: Step, b: Step, c: Step, d: Step)
    ensures Run(maxSize, before + [a] + [b] + [c] + [d]) == Next(Next(Next(Next(Run(maxSize, before), a), b), c), d)
  {
    RunAppend(maxSize, before, a);
    RunAppend(maxSize, before + [a], b);
    RunAppend(maxSize, before + [a] + [b], c);
    RunAppend(maxSize, before + [a] + [b] + [c], d);
  }

  /** A pool of one: the connection is held, or it is idle. */
  function OneHeld(looking: nat, waiting: nat): Pool {
    Pool(1, [], 1, 1, 0, 0, looking, 0, multiset{}, waiting, multiset{0}, 0, [], 0, 1, 0)
  }

  function OneIdle(looking: nat, waiting: nat, now: int): Pool {
    Pool(1, [Conn(0, true, now)], 0, 1, 0, 0, looking, 0, multiset{}, waiting, multiset{}, 0, [], 0, 1, 0)
  }

  lemma BackToIdle(looking: nat, waiting: nat, now: int)
    ensures Next(Next(OneHeld(looking, waiting), PutBack(Conn(0, true, now), now)), Uncount)
         == OneIdle(looking, waiting, now)
  {
    assert [] + [Conn(0, true, now)] == [Conn(0, true, now)];
  }

  function FirstGet(now: int): seq<Step> {
    [Look(now, true, false)] + [Compare] + [DialEnds(Dialed, now)]
  }

  lemma {:induction false} AfterFirstGet(now: int)
    ensures Run(1, FirstGet(now)) == OneHeld(0, 0)
  {
    RunAppend(1, [], Look(now, true, false));
    RunAppend(1, [Look(now, true, false)], Compare);
    RunAppend(1, [Look(now, true, false)] + [Compare], DialEnds(Dialed, now));
    assert [] + [Look(now, true, false)] == [Look(now, true, false)];
    var looked := Next(New(1), Look(now, true, false));
    assert looked == New(1).(looking := 1, gets := 1);
    assert Next(looked, Compare) == New(1).(dialing := 1, gets := 1);
  }

  /** A first Get has dialed the only connection, and a second one has found nothing. */
  function DialThenLook(now: int): seq<Step> {
    FirstGet(now) + [Look(now, true, false)]
  }

  lemma {:induction false} AfterDialThenLook(now: int)
    ensures Run(1, DialThenLook(now)) == OneHeld(1, 0)
  {
    AfterFirstGet(now);
    RunAppend(1, FirstGet(now), Look(now, true, false));
  }

  /** Two calls of Get that dial at the same time both find room for one connection. */
  lemma {:induction false} ConcurrentGetsExceed(now: int)
    ensures var p := Run(1, [] + [Look(now, true, false)] + [Look(now, true, false)] + [Compare] + [Compare]);
            Total(p) == 2 && p.maxSize == 1 && p.gets == 2 && Existing(p) == 0
  {
    RunFour(1, [], Look(now, true, false), Look(now, true, false), Compare, Compare);
    assert Next(New(1), Look(now, true, false)) == New(1).(looking := 1, gets := 1);
  }

  /**
   * With one Get at a time: the connection is put back after Get has looked and before it compares. The bound of
   * `Capacity` is reached.
   */
  lemma {:induction false} PutDuringGetExceeds(now: int)
    ensures var p := Run(1, DialThenLook(now)
                            + [PutBack(Conn(0, true, now), now)] + [Uncount] + [Compare] + [DialEnds(Dialed, now)]);
            && |p.held| == 1 && |p.idle| == 1 && p.maxSize == 1 && p.gets == 1 && p.sweep == 0
            && Total(p) == 2 * p.maxSize + Others(p) + p.sweep
  {
    AfterDialThenLook(now);
    RunFour(1, DialThenLook(now), PutBack(Conn(0, true, now), now), Uncount, Compare, DialEnds(Dialed, now));
    BackToIdle(1, 0, now);
  }

  /** With cleanup holding the only connection, a Get finds nothing and dials another one. */
  lemma {:induction false} CleanupDuringGetExceeds(now: int)
    ensures var p := Run(1, CleanupMeanwhile(now)
                            + [Look(now, true, false)] + [Compare] + [DialEnds(Dialed, now)] + [Refill(0)]);
            |p.held| == 1 && |p.idle| == 1 && p.maxSize == 1 && p.gets == 1 && p.sweep == 1
  {
    AfterCleanup(now);
    RunFour(1, CleanupMeanwhile(now), Look(now, true, false), Compare, DialEnds(Dialed, now), Refill(0));
    DialBesideCleanup(now);
  }

  /** The only connection is put back and received by cleanup. */
  function CleanupMeanwhile(now: int): seq<Step> {
    FirstGet(now) + [PutBack(Conn(0, true, now), now)] + [Uncount] + [Sweep(now)]
  }

  function CleanupHolds(now: int): Pool {
    Pool(1, [], 0, 1, 0, 0, 0, 0, multiset{}, 0, multiset{}, 0, [Conn(0, true, now)], 0, 1, 1)
  }

  lemma {:induction false} AfterCleanup(now: int)
    ensures Run(1, CleanupMeanwhile(now)) == CleanupHolds(now)
  {
    var put := PutBack(Conn(0, true, now), now);
    AfterFirstGet(now);
    RunAppend(1, FirstGet(now), put);
    RunAppend(1, FirstGet(now) + [put], Uncount);
    RunAppend(1, FirstGet(now) + [put] + [Uncount], Sweep(now));
    BackToIdle(0, 0, now);
    SweepTheOne(now);
  }

  lemma SweepTheOne(now: int)
    ensures Next(OneIdle(0, 0, now), Sweep(now)) == CleanupHolds(now)
  {
    assert [] + [Conn(0, true, now)] == [Conn(0, true, now)];
  }

  lemma DialBesideCleanup(now: int)
    ensures var look := Look(now, true, false);
            var p := Next(Next(Next(Next(CleanupHolds(now), look), Compare), DialEnds(Dialed, now)), Refill(0));
            |p.held| == 1 && p.idle == [Conn(0, true, now)] && p.maxSize == 1 && p.gets == 1 && p.sweep == 1
  {
    var c := Conn(0, true, now);
    var looked := Next(CleanupHolds(now), Look(now, true, false));
    assert looked == CleanupHolds(now).(looking := 1);
    var dialed := Next(Next(looked, Compare), DialEnds(Dialed, now));
    assert dialed == CleanupHolds(now).(active := 1, created := 2, held := multiset{1});
    assert [c][..0] + [c][1..] == [] && [] + [c] == [c];
  }

  /** A held connection finds room unless the pool is over its limit. */
  lemma {:induction false} PutAlwaysFits(maxSize: nat, steps: seq<Step>, c: Conn)
    requires c.id in Run(maxSize, steps).held
    ensures var p := Run(maxSize, steps); |p.idle| == maxSize ==> Total(p) > maxSize
  {
    ReachableInv(maxSize, steps);
    var p := Run(maxSize, steps);
    assert p.held == multiset{c.id} + (p.held - multiset{c.id});
  }

  /**
   * Get waits exactly if the connections held and those not yet counted as returned reach the limit. In a pool
   * within its limit, and with no Put half done, every connection is then held and nothing is idle.
   */
  lemma {:induction false} WaitsOnlyWhenExhausted(maxSize: nat, steps: seq<Step>)
    requires Run(maxSize, steps).looking > 0
    ensures var p := Run(maxSize, steps);
            var (q, outcome) := CompareStep(p);
            && (outcome.MustWait? <==> |p.held| + p.returning >= maxSize)
            && (outcome.MustWait? && Total(p) <= maxSize && p.returning == 0 ==>
                  |p.held| == maxSize && p.idle == [] && p.taking == multiset{} && p.swept == [] && p.dialing == 0)
  {
    ReachableInv(maxSize, steps);
  }

  // ------------------------------------------------------------------ conservation

  /** The step makes a connection leave the pool uncounted. */
  predicate Leaks(p: Pool, step: Step) {
    match step
    case Look(now, alive, cancelled) => !cancelled && p.idle != [] && !p.idle[0].dialed
    case WaiterReceives(now, alive) => p.waiting > 0 && p.idle != [] && !Usable(p.idle[0], now, alive)
    case PutBack(c, _) => c.id in p.held && |p.idle| >= p.maxSize && !c.dialed
    case Sweep(now) => p.idle != [] && !Fresh(p.idle[0], now) && !p.idle[0].dialed
    case Refill(i) => i < |p.swept| && |p.idle| >= p.maxSize && !p.swept[i].dialed
    case _ => false
  }

  predicate LeakFree(maxSize: nat, steps: seq<Step>) {
    steps == [] || (LeakFree(maxSize, DropLast(steps)) && !Leaks(Run(maxSize, DropLast(steps)), Last(steps)))
  }

  /**
   * Created - Destroyed counts the connections in existence exactly if no step of the run leaked one. With no
   * call half done these are the active and the idle ones.
   */
  lemma {:induction false} ConservationIffLeakFree(maxSize: nat, steps: seq<Step>)
    ensures var p := Run(maxSize, steps);
            && (p.created - p.destroyed == Existing(p) <==> LeakFree(maxSize, steps))
            && (p.taking == multiset{} && p.swept == [] && p.returning == 0 ==> Existing(p) == p.active + |p.idle|)
  {
    ReachableInv(maxSize, steps);
    VanishedIffLeak(maxSize, steps);
  }

  /** A waiter that receives a dead connection drops it without closing or counting it. */
  lemma {:induction false} WaiterLeaks(now: int)
    ensures var p := Run(1, DialThenLook(now)
                            + [Compare] + [PutBack(Conn(0, true, now), now)] + [Uncount]
                            + [WaiterReceives(now, false)]);
            p.created - p.destroyed == 1 && Existing(p) == 0 && p.active == 0
  {
    var put := PutBack(Conn(0, true, now), now);
    AfterDialThenLook(now);
    RunFour(1, DialThenLook(now), Compare, put, Uncount, WaiterReceives(now, false));
    assert Next(OneHeld(1, 0), Compare) == OneHeld(0, 1);
    BackToIdle(0, 1, now);
  }

  lemma {:induction false} VanishedIffLeak(maxSize: nat, steps: seq<Step>)
    ensures Run(maxSize, steps).vanished == 0 <==> LeakFree(maxSize, steps)
  {
    if steps != [] {
      VanishedIffLeak(maxSize, DropLast(steps));
      LeakStep(Run(maxSize, DropLast(steps)), Last(steps));
    }
  }

  lemma {:induction false} LeakStep(p: Pool, step: Step)
    ensures Next(p, step).vanished >= p.vanished
    ensures Next(p, step).vanished > p.vanished <==> Leaks(p, step)
  {
  }

  // ------------------------------------------------------------------ the struct

  class ConnectionPool {
    const maxSize: nat
    var connections: seq<Conn>
    var active: int
    var created: nat
    var destroyed: nat
    var timeouts: nat
    var swept: seq<Conn>      // `validConns` of cleanup
    var looking: nat          // from here on as in `Pool`: where the calls in progress are, and history
    var dialing: nat
    var taking: multiset<nat>
    var waiting: nat
    var held: multiset<nat>
    var returning: nat
    var vanished: nat
    var gets: nat
    var sweep: nat

    ghost function Contents(): Pool
      reads this
    {
      Pool(maxSize, connections, active, created, destroyed, timeouts, looking, dialing, taking, waiting, held,
           returning, swept, vanished, gets, sweep)
    }

    constructor (maxSize: nat)
      ensures Contents() == New(maxSize)
    {
      this.maxSize := maxSize;
      connections, active, created, destroyed, timeouts := [], 0, 0, 0, 0;
      looking, dialing, taking, waiting, held := 0, 0, multiset{}, 0, multiset{};
      returning, swept, vanished, gets, sweep := 0, [], 0, 0, 0;
    }

    /** A call that nobody interrupts, up to the second select. */
    method Get(now: int, alive: bool, dial: Dial, cancelled: bool) returns (outcome: Outcome)
      modifies this
      ensures (Contents(), outcome) == GetCall(old(Contents()), now, alive, dial, cancelled)
      ensures active == old(active) + if outcome.Got? then 1 else 0
      ensures outcome.Got? || outcome == Error || (outcome == MustWait && active >= maxSize)
      ensures AtRest(old(Contents())) ==> AtRest(Contents())
    {
      ghost var p := Contents();
      outcome := RunGet(now, alive, dial, cancelled);
      GetCallMeans(p, now, alive, dial, cancelled);
      if AtRest(p) {
        GetAtRest(p, now, alive, dial, cancelled);
      }
    }

    method RunGet(now: int, alive: bool, dial: Dial, cancelled: bool) returns (outcome: Outcome)
      modifies this
      ensures (Contents(), outcome) == GetCall(old(Contents()), now, alive, dial, cancelled)
    {
      outcome := TryTake(now, alive, cancelled);
      if outcome.Taken? {
        CountTaken(outcome.conn.id);
        outcome := Got(outcome.conn);
      } else if outcome.MustCompare? {
        outcome := DialOrWait(dial, now);
      }
    }

    method DialOrWait(dial: Dial, now: int) returns (outcome: Outcome)
      requires looking > 0
      modifies this
      ensures (Contents(), outcome) == RestOfGet(old(Contents()), dial, now)
    {
      outcome := CompareCount();
      if outcome.MustDial? {
        outcome := Dial(dial, now);
      }
    }

    /** The first select: a usable idle connection, or none. */
    method TryTake(now: int, alive: bool, cancelled: bool) returns (outcome: Outcome)
      modifies this
      ensures (Contents(), outcome) == LookStep(old(Contents()), now, alive, cancelled)
    {
      if cancelled {
        return Error;
      }
      ghost var p := Contents();
      if connections != [] {
        var conn := connections[0];
        connections := connections[1..];
        assert Contents() == p.(idle := p.idle[1..]);
        if conn.dialed && now - conn.lastUsed <= IDLE_TIMEOUT && alive {
          taking := taking + multiset{conn.id};
          Note();
          return Taken(conn.(lastUsed := now));
        }
        CloseOne(conn);
      }
      looking := looking + 1;
      Note();
      return MustCompare;
    }

    method CloseOne(conn: Conn)
      modifies this`destroyed, this`vanished
      ensures Contents() == Discard(old(Contents()), conn)
    {
      if conn.dialed {
        destroyed := destroyed + 1;
      } else {
        vanished := vanished + 1;
      }
    }

    /** Keeps the history. */
    method Note()
      modifies this`gets, this`sweep
      ensures Contents() == Noted(old(Contents()))
    {
      gets := Max(gets, looking + dialing + |taking|);
      sweep := Max(sweep, |swept|);
    }

    method CountTaken(id: nat)
      requires id in taking
      modifies this
      ensures Contents() == CountStep(old(Contents()), id)
    {
      taking := taking - multiset{id};
      active := active + 1;
      held := held + multiset{id};
    }

    method CompareCount() returns (outcome: Outcome)
      requires looking > 0
      modifies this
      ensures (Contents(), outcome) == CompareStep(old(Contents()))
    {
      looking := looking - 1;
      if active < maxSize {
        dialing := dialing + 1;
        return MustDial;
      }
      waiting := waiting + 1;
      return MustWait;
    }

    /** The rest of a Get that has room. */
    method Dial(dial: Dial, now: int) returns (outcome: Outcome)
      requires dialing > 0
      modifies this
      ensures (Contents(), outcome) == DialStep(old(Contents()), dial, now)
    {
      dialing := dialing - 1;
      if dial.DialError? {
        return Error;
      }
      var conn := Conn(created, dial.Dialed?, now);
      active := active + 1;
      created := created + 1;
      held := held + multiset{conn.id};
      return Got(conn);
    }

    /** Takes any connection, also one that the pool never gave out; a nil one is ignored. */
    method Put(conn: Option<Conn>, now: int)
      modifies this
      ensures conn.None? ==> Contents() == old(Contents())
      ensures conn.Some? ==> Contents() == PutCall(old(Contents()), conn.value, now)
      ensures conn.Some? && |old(connections)| < maxSize ==>
                connections == old(connections) + [conn.value.(lastUsed := now)] && destroyed == old(destroyed)
      ensures conn.Some? && |old(connections)| >= maxSize ==>
                connections == old(connections) && destroyed == old(destroyed) + if conn.value.dialed then 1 else 0
      ensures conn.Some? ==> active == old(active) - 1
      ensures conn.Some? && conn.value.id in old(held) && AtRest(old(Contents())) ==> AtRest(Contents())
    {
      if conn.Some? {
        ghost var p := Contents();
        SendBack(conn.value, now);
        LowerCount();
        if conn.value.id in p.held && AtRest(p) {
          PutKeepsInv(p, conn.value, now);
        }
      }
    }

    method SendBack(c: Conn, now: int)
      modifies this
      ensures Contents() == PutStep(old(Contents()), c, now)
    {
      held := held - multiset{c.id};
      returning := returning + 1;
      if |connections| < maxSize {
        connections := connections + [c.(lastUsed := now)];
      } else {
        CloseOne(c);
      }
    }

    method LowerCount()
      requires returning > 0
      modifies this
      ensures Contents() == UncountStep(old(Contents()))
    {
      returning := returning - 1;
      active := active - 1;
    }

    /** Both loops, undisturbed: the fresh connections stay, in their order. */
    method Cleanup(now: int)
      requires |connections| <= maxSize && swept == [] && InGet(Contents()) <= gets
      modifies this
      ensures Contents() == CleanupCall(old(Contents()), now)
      ensures connections == Filter(old(connections), (c: Conn) => now - c.lastUsed < 5 * 60_000_000_000)
      ensures destroyed == old(destroyed)
                + |Filter(old(connections), (c: Conn) => now - c.lastUsed >= 5 * 60_000_000_000 && c.dialed)|
      ensures active == old(active) && swept == []
      ensures AtRest(old(Contents())) ==> AtRest(Contents())
    {
      ghost var p := Contents();
      ghost var n := 0;
      FreshMeans(connections, now);
      assert Contents() == SweptPart(p, 0, now);
      while connections != []
        invariant 0 <= n <= |p.idle| && Contents() == SweptPart(p, n, now)
        decreases |connections|
      {
        SweepOneMore(p, n, now);
        ReceiveOne(now);
        n := n + 1;
      }
      assert p.idle[..|p.idle|] == p.idle;
      n := 0;
      while swept != []
        invariant 0 <= n <= |KeepFresh(p.idle, now)| && Contents() == RefilledPart(p, n, now)
        decreases |swept|
      {
        RefillOneMore(p, n, now);
        SendFirst();
        n := n + 1;
      }
      if AtRest(p) {
        CleanupAtRest(p, now);
      }
    }

    method ReceiveOne(now: int)
      requires connections != []
      modifies this
      ensures Contents() == Next(old(Contents()), Sweep(now))
    {
      var conn := connections[0];
      connections := connections[1..];
      if now - conn.lastUsed < IDLE_TIMEOUT {
        swept := swept + [conn];
        Note();
      } else {
        CloseOne(conn);
      }
    }

    method SendFirst()
      requires swept != []
      modifies this
      ensures Contents() == Next(old(Contents()), Refill(0))
    {
      var conn := swept[0];
      assert swept[..0] + swept[1..] == swept[1..];
      swept := swept[1..];
      if |connections| < maxSize {
        connections := connections + [conn];
      } else {
        CloseOne(conn);
      }
    }
  }
}
