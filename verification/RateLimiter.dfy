/**
 * The per-address sliding window of internal/api/middleware.go.
 *
 * Handlers run concurrently and take no lock. A handler is two steps: it prunes the list of its address and
 * compares its length with the limit; if it passes, it appends its own time, with anything in between. The
 * theorems speak about all requests ever admitted or recorded, which the limiter does not keep.
 */
module RateLimiter {
  import opened Sequences

  type Ip = string

  const MINUTE: int := 60_000_000_000 // time.Minute, in nanoseconds

  datatype Request = Request(ip: Ip, now: int)

  datatype State = State(
    requests: map<Ip, seq<int>>,
    inFlight: seq<Request>) // handlers between their comparison and their append

  datatype Step =
    | Check(r: Request)
    | Append(i: nat) // by the i-th handler in flight

  /** The entries that are less than a minute old at `now`. */
  function Recent(times: seq<int>, now: int): seq<int> {
    Filter(times, t => t > now - MINUTE)
  }

  function Entries(requests: map<Ip, seq<int>>, ip: Ip): seq<int> {
    if ip in requests then requests[ip] else []
  }

  function Prune(requests: map<Ip, seq<int>>, r: Request): map<Ip, seq<int>> {
    if r.ip in requests then requests[r.ip := Recent(requests[r.ip], r.now)] else requests
  }

  predicate Admits(limit: int, requests: map<Ip, seq<int>>, r: Request) {
    |Entries(Prune(requests, r), r.ip)| < limit
  }

  function Recorded(requests: map<Ip, seq<int>>, r: Request): map<Ip, seq<int>> {
    requests[r.ip := Entries(requests, r.ip) + [r.now]]
  }

  function Next(limit: int, s: State, step: Step): State {
    match step
    case Check(r) =>
      State(Prune(s.requests, r), if Admits(limit, s.requests, r) then s.inFlight + [r] else s.inFlight)
    case Append(i) =>
      if i < |s.inFlight| then
        State(Recorded(s.requests, s.inFlight[i]), s.inFlight[..i] + s.inFlight[i + 1..])
      else s
  }

  function Run(limit: int, steps: seq<Step>): State {
    if steps == [] then State(map[], []) else Next(limit, Run(limit, DropLast(steps)), Last(steps))
  }

  /** Whether the last step of a run is a comparison that passes. */
  predicate Accepted(limit: int, steps: seq<Step>)
    requires steps != []
  {
    Last(steps).Check? && Admits(limit, Run(limit, DropLast(steps)).requests, Last(steps).r)
  }

  /** The times of all admitted requests of one address, in the order of their comparisons. */
  function Admitted(limit: int, steps: seq<Step>, ip: Ip): seq<int> {
    if steps == [] then []
    else
      var before := Admitted(limit, DropLast(steps), ip);
      if Accepted(limit, steps) && Last(steps).r.ip == ip then before + [Last(steps).r.now] else before
  }

  /** Spelled out: an entry counts as long as less than sixty seconds have passed since. */
  lemma {:induction false} RecentMeans(times: seq<int>, now: int)
    ensures Recent(times, now) == Filter(times, (t: int) => now - t < 60_000_000_000)
  {
    if times != [] {
      RecentMeans(times[1..], now);
    }
  }

  /** What the last step of a run appends to the list of this address. */
  function Appended(limit: int, steps: seq<Step>, ip: Ip): seq<int>
    requires steps != []
  {
    var s, step := Run(limit, DropLast(steps)), Last(steps);
    if step.Append? && step.i < |s.inFlight| && s.inFlight[step.i].ip == ip then [s.inFlight[step.i].now] else []
  }

  /** Everything that was ever appended to the list of one address; nothing is forgotten. */
  function History(limit: int, steps: seq<Step>, ip: Ip): seq<int> {
    if steps == [] then [] else History(limit, DropLast(steps), ip) + Appended(limit, steps, ip)
  }

  function TimesOf(reqs: seq<Request>, ip: Ip): seq<int> {
    if reqs == [] then [] else (if reqs[0].ip == ip then [reqs[0].now] else []) + TimesOf(reqs[1..], ip)
  }

  /** The times of this address's requests that are admitted and not yet in its list. */
  function InFlight(limit: int, steps: seq<Step>, ip: Ip): seq<int> {
    TimesOf(Run(limit, steps).inFlight, ip)
  }

  /** The most handlers of one address that were ever in flight at the same time. */
  function Peak(limit: int, steps: seq<Step>, ip: Ip): int {
    if steps == [] then 0 else Max(Peak(limit, DropLast(steps), ip), |InFlight(limit, steps, ip)|)
  }

  /** The comparisons for this address come in the order of their times. Other addresses do not matter. */
  ghost predicate Ordered(steps: seq<Step>, ip: Ip) {
    forall i, j :: 0 <= i < j < |steps| && ChecksFor(steps[i], ip) && ChecksFor(steps[j], ip) ==>
        steps[i].r.now <= steps[j].r.now
  }

  predicate ChecksFor(step: Step, ip: Ip) {
    step.Check? && step.r.ip == ip
  }

  ghost predicate NoneLater(steps: seq<Step>, ip: Ip, m: int) {
    forall i :: 0 <= i < |steps| && ChecksFor(steps[i], ip) ==> steps[i].r.now <= m
  }

  lemma OrderedPrefix(steps: seq<Step>, ip: Ip)
    requires steps != [] && Ordered(steps, ip)
    ensures Ordered(DropLast(steps), ip)
    ensures ChecksFor(Last(steps), ip) ==> NoneLater(DropLast(steps), ip, Last(steps).r.now)
  {
    assert forall i :: 0 <= i < |steps| - 1 ==> DropLast(steps)[i] == steps[i];
  }

  lemma NoneLaterPrefix(steps: seq<Step>, ip: Ip, m: int)
    requires steps != [] && NoneLater(steps, ip, m)
    ensures NoneLater(DropLast(steps), ip, m)
  {
    assert forall i :: 0 <= i < |steps| - 1 ==> DropLast(steps)[i] == steps[i];
  }

  ghost predicate Sorted(times: seq<int>) {
    forall i, j :: 0 <= i < j < |times| ==> times[i] <= times[j]
  }

  // ------------------------------------------------------------------ what pruning forgets

  ghost predicate HasBetween(times: seq<int>, low: int, high: int) {
    exists t :: t in times && low < t <= high
  }

  /** The last step of the run forgets an entry of `ip` that is still less than a minute old at `m`. */
  ghost predicate ForgetsEarly(limit: int, steps: seq<Step>, ip: Ip, m: int)
    requires steps != []
  {
    && ChecksFor(Last(steps), ip)
    && HasBetween(Entries(Run(limit, DropLast(steps)).requests, ip), m - MINUTE, Last(steps).r.now - MINUTE)
  }

  ghost predicate NeverForgetsEarly(limit: int, steps: seq<Step>, ip: Ip, m: int) {
    steps == [] || (NeverForgetsEarly(limit, DropLast(steps), ip, m) && !ForgetsEarly(limit, steps, ip, m))
  }

  lemma HasBetweenCons(x: int, times: seq<int>, low: int, high: int)
    ensures HasBetween([x] + times, low, high) <==> low < x <= high || HasBetween(times, low, high)
  {
    assert forall t :: t in [x] + times <==> t == x || t in times;
    if low < x <= high {
      assert x in [x] + times;
    }
    if HasBetween(times, low, high) {
      var t :| t in times && low < t <= high;
      assert t in [x] + times;
    }
  }

  /** Pruning at `now` loses something of the minute before `m` exactly if an entry lies between the two cuts. */
  lemma {:induction false} PruneRecent(times: seq<int>, now: int, m: int)
    ensures |Recent(Recent(times, now), m)| <= |Recent(times, m)|
    ensures if HasBetween(times, m - MINUTE, now - MINUTE)
            then |Recent(Recent(times, now), m)| < |Recent(times, m)|
            else Recent(Recent(times, now), m) == Recent(times, m)
  {
    if times != [] {
      PruneRecent(times[1..], now, m);
      assert times == [times[0]] + times[1..];
      HasBetweenCons(times[0], times[1..], m - MINUTE, now - MINUTE);
      var kept := Recent(times[1..], now);
      if times[0] > now - MINUTE {
        assert ([times[0]] + kept)[1..] == kept;
      } else {
        assert Recent(times, now) == kept;
      }
    }
  }

  /** A comparison prunes what is kept and leaves the history alone; an append adds to both. */
  lemma {:induction false} StepRecent(limit: int, steps: seq<Step>, ip: Ip, m: int)
    requires steps != []
    ensures var kept := Entries(Run(limit, DropLast(steps)).requests, ip);
            var after := Entries(Run(limit, steps).requests, ip);
            var added := Recent(Appended(limit, steps, ip), m);
            && Recent(after, m) == (if ChecksFor(Last(steps), ip) then Recent(Recent(kept, Last(steps).r.now), m)
                                    else Recent(kept, m)) + added
            && Recent(History(limit, steps, ip), m) == Recent(History(limit, DropLast(steps), ip), m) + added
  {
    var prefix, added := DropLast(steps), Appended(limit, steps, ip);
    var kept := Entries(Run(limit, prefix).requests, ip);
    if added == [] {
      assert History(limit, prefix, ip) + [] == History(limit, prefix, ip);
    } else {
      FilterAppend(kept, added[0], t => t > m - MINUTE);
      FilterAppend(History(limit, prefix, ip), added[0], t => t > m - MINUTE);
      RecentOne(added[0], m);
    }
  }

  /**
   * For every run and every clock: what is kept and the full history agree on the minute before `m` exactly
   * if no request has forgotten an entry of that minute; and nothing is ever kept that is not in the history.
   */
  lemma {:induction false} VisibleIffNeverForgotten(limit: int, steps: seq<Step>, ip: Ip, m: int)
    ensures Recent(Entries(Run(limit, steps).requests, ip), m) == Recent(History(limit, steps, ip), m)
       <==> NeverForgetsEarly(limit, steps, ip, m)
    ensures |Recent(Entries(Run(limit, steps).requests, ip), m)| <= |Recent(History(limit, steps, ip), m)|
    ensures !NeverForgetsEarly(limit, steps, ip, m) ==>
              |Recent(Entries(Run(limit, steps).requests, ip), m)| < |Recent(History(limit, steps, ip), m)|
  {
    if steps != [] {
      VisibleIffNeverForgotten(limit, DropLast(steps), ip, m);
      StepRecent(limit, steps, ip, m);
      if ChecksFor(Last(steps), ip) {
        PruneRecent(Entries(Run(limit, DropLast(steps)).requests, ip), Last(steps).r.now, m);
      }
    }
  }

  /** Forgetting never changes what a call sees that is not earlier than the address's requests before it. */
  lemma {:induction false} PruningInvisible(limit: int, steps: seq<Step>, ip: Ip, m: int)
    requires NoneLater(steps, ip, m)
    ensures Recent(Entries(Run(limit, steps).requests, ip), m) == Recent(History(limit, steps, ip), m)
  {
    InOrderForgetsNothing(limit, steps, ip, m);
    VisibleIffNeverForgotten(limit, steps, ip, m);
  }

  lemma {:induction false} InOrderForgetsNothing(limit: int, steps: seq<Step>, ip: Ip, m: int)
    requires NoneLater(steps, ip, m)
    ensures NeverForgetsEarly(limit, steps, ip, m)
  {
    if steps != [] {
      NoneLaterPrefix(steps, ip, m);
      InOrderForgetsNothing(limit, DropLast(steps), ip, m);
    }
  }

  // ------------------------------------------------------------------ what is admitted

  /** Whatever the clock does, a rejected address has used up its limit in the full history of the last minute. */
  lemma {:induction false} RejectsOnlyWhenFull(limit: int, steps: seq<Step>)
    requires steps != [] && Last(steps).Check? && !Accepted(limit, steps)
    ensures |Recent(History(limit, DropLast(steps), Last(steps).r.ip), Last(steps).r.now)| >= limit
  {
    VisibleIffNeverForgotten(limit, DropLast(steps), Last(steps).r.ip, Last(steps).r.now);
  }

  /** A request is accepted exactly if the full history has fewer than `limit` entries in the last sixty seconds. */
  lemma {:induction false} DecidesOnFullHistory(limit: int, steps: seq<Step>)
    requires steps != [] && Last(steps).Check? && NoneLater(DropLast(steps), Last(steps).r.ip, Last(steps).r.now)
    ensures Accepted(limit, steps)
       <==> |Recent(History(limit, DropLast(steps), Last(steps).r.ip), Last(steps).r.now)| < limit
    ensures var history, now := History(limit, DropLast(steps), Last(steps).r.ip), Last(steps).r.now;
            Accepted(limit, steps) <==> |Filter(history, (t: int) => now - t < 60_000_000_000)| < limit
  {
    PruningInvisible(limit, DropLast(steps), Last(steps).r.ip, Last(steps).r.now);
    RecentMeans(History(limit, DropLast(steps), Last(steps).r.ip), Last(steps).r.now);
  }

  lemma {:induction false} TimesOfAppend(reqs: seq<Request>, r: Request, ip: Ip)
    ensures TimesOf(reqs + [r], ip) == TimesOf(reqs, ip) + (if r.ip == ip then [r.now] else [])
  {
    if reqs == [] {
      assert [] + [r] == [r] && [r][1..] == [];
    } else {
      assert (reqs + [r])[0] == reqs[0] && (reqs + [r])[1..] == reqs[1..] + [r];
      TimesOfAppend(reqs[1..], r, ip);
      var head, last := if reqs[0].ip == ip then [reqs[0].now] else [], if r.ip == ip then [r.now] else [];
      assert head + (TimesOf(reqs[1..], ip) + last) == (head + TimesOf(reqs[1..], ip)) + last;
    }
  }

  lemma {:induction false} TimesOfRemove(reqs: seq<Request>, i: nat, ip: Ip, p: int -> bool)
    requires i < |reqs|
    ensures |Filter(TimesOf(reqs, ip), p)|
         == |Filter(TimesOf(reqs[..i] + reqs[i + 1..], ip), p)| + (if reqs[i].ip == ip && p(reqs[i].now) then 1 else 0)
  {
    var rest := reqs[..i] + reqs[i + 1..];
    if i == 0 {
      assert rest == reqs[1..];
      FilterCons(reqs[0], TimesOf(reqs[1..], ip), p);
    } else {
      assert rest[0] == reqs[0] && rest[1..] == reqs[1..][..i - 1] + reqs[1..][i..];
      TimesOfRemove(reqs[1..], i - 1, ip, p);
      FilterCons(reqs[0], TimesOf(reqs[1..], ip), p);
      FilterCons(reqs[0], TimesOf(rest[1..], ip), p);
    }
  }

  lemma FilterCons(r: Request, times: seq<int>, p: int -> bool)
    ensures Filter([r.now] + times, p) == (if p(r.now) then [r.now] else []) + Filter(times, p)
    ensures [] + times == times
  {
    assert ([r.now] + times)[1..] == times;
  }

  /** Conservation: what is admitted is recorded or in flight, whichever times are counted. */
  lemma {:induction false} AdmittedBalance(limit: int, steps: seq<Step>, ip: Ip, p: int -> bool)
    ensures |Filter(Admitted(limit, steps, ip), p)|
         == |Filter(History(limit, steps, ip), p)| + |Filter(InFlight(limit, steps, ip), p)|
  {
    if steps != [] {
      var prefix, step := DropLast(steps), Last(steps);
      var s := Run(limit, prefix);
      AdmittedBalance(limit, prefix, ip, p);
      match step
      case Check(r) =>
        assert History(limit, steps, ip) == History(limit, prefix, ip);
        if Accepted(limit, steps) {
          TimesOfAppend(s.inFlight, r, ip);
          if r.ip == ip {
            FilterAppend(Admitted(limit, prefix, ip), r.now, p);
            FilterAppend(InFlight(limit, prefix, ip), r.now, p);
          } else {
            assert TimesOf(s.inFlight, ip) + [] == TimesOf(s.inFlight, ip);
          }
        }
      case Append(i) =>
        if i < |s.inFlight| {
          TimesOfRemove(s.inFlight, i, ip, p);
          if s.inFlight[i].ip == ip {
            FilterAppend(History(limit, prefix, ip), s.inFlight[i].now, p);
          } else {
            assert History(limit, steps, ip) == History(limit, prefix, ip);
          }
        } else {
          assert History(limit, steps, ip) == History(limit, prefix, ip);
        }
    }
  }

  /** A request enters a minute that is already full exactly if handlers in flight make up what the list lacks. */
  lemma {:induction false} ExceedsIff(limit: int, steps: seq<Step>)
    requires steps != [] && Last(steps).Check? && NoneLater(DropLast(steps), Last(steps).r.ip, Last(steps).r.now)
    ensures var prefix, r := DropLast(steps), Last(steps).r;
            var recorded := Recent(History(limit, prefix, r.ip), r.now);
            var flying := Recent(InFlight(limit, prefix, r.ip), r.now);
            (Accepted(limit, steps) && |Recent(Admitted(limit, prefix, r.ip), r.now)| >= limit
             <==> |recorded| < limit <= |recorded| + |flying|)
  {
    var prefix, r := DropLast(steps), Last(steps).r;
    DecidesOnFullHistory(limit, steps);
    AdmittedBalance(limit, prefix, r.ip, t => t > r.now - MINUTE);
  }

  lemma {:induction false} AdmittedNotLater(limit: int, steps: seq<Step>, ip: Ip, m: int)
    requires NoneLater(steps, ip, m)
    ensures forall t :: t in Admitted(limit, steps, ip) ==> t <= m
  {
    if steps != [] {
      NoneLaterPrefix(steps, ip, m);
      AdmittedNotLater(limit, DropLast(steps), ip, m);
    }
  }

  lemma {:induction false} AdmittedSorted(limit: int, steps: seq<Step>, ip: Ip)
    requires Ordered(steps, ip)
    ensures Sorted(Admitted(limit, steps, ip))
  {
    if steps != [] {
      OrderedPrefix(steps, ip);
      AdmittedSorted(limit, DropLast(steps), ip);
      if ChecksFor(Last(steps), ip) {
        AdmittedNotLater(limit, DropLast(steps), ip, Last(steps).r.now);
        var before := Admitted(limit, DropLast(steps), ip);
        assert forall i :: 0 <= i < |before| ==> before[i] in before;
      }
    }
  }

  lemma {:induction false} FilterWeaker(times: seq<int>, p: int -> bool, q: int -> bool)
    requires forall t :: p(t) ==> q(t)
    ensures |Filter(times, p)| <= |Filter(times, q)|
  {
    if times != [] {
      FilterWeaker(times[1..], p, q);
    }
  }

  /** The accepts in the half-open minute starting at `w`. */
  function InMinute(times: seq<int>, w: int): seq<int> {
    Filter(times, t => w <= t < w + MINUTE)
  }

  /** How many more than the limit handlers in flight at the same time can bring into one minute. */
  function Excess(limit: int, steps: seq<Step>, ip: Ip): int {
    Max(Peak(limit, steps, ip) - 1, 0)
  }

  /** What a minute holds when one more request of it is admitted. */
  lemma {:induction false} AdmittedInMinute(limit: int, steps: seq<Step>, w: int)
    requires steps != [] && Accepted(limit, steps)
    requires NoneLater(DropLast(steps), Last(steps).r.ip, Last(steps).r.now)
    requires w <= Last(steps).r.now < w + MINUTE
    ensures |InMinute(Admitted(limit, DropLast(steps), Last(steps).r.ip), w)|
         < limit + |InFlight(limit, DropLast(steps), Last(steps).r.ip)|
  {
    var prefix, r := DropLast(steps), Last(steps).r;
    var inside := t => w <= t < w + MINUTE;
    DecidesOnFullHistory(limit, steps);
    AdmittedBalance(limit, prefix, r.ip, inside);
    FilterWeaker(History(limit, prefix, r.ip), inside, t => t > r.now - MINUTE);
    FilterMembers(InFlight(limit, prefix, r.ip), inside);
  }

  /**
   * No minute, wherever it starts, holds more than the limit and the handlers that were in flight beside the
   * one that is admitted: exactly the limit if the handlers of the address never overlap.
   */
  lemma {:induction false} WindowBound(limit: int, steps: seq<Step>, ip: Ip, w: int)
    requires Ordered(steps, ip)
    ensures |InMinute(Admitted(limit, steps, ip), w)| <= Max(limit, 0) + Excess(limit, steps, ip)
  {
    if steps != [] {
      var prefix, step := DropLast(steps), Last(steps);
      var before := Admitted(limit, prefix, ip);
      OrderedPrefix(steps, ip);
      WindowBound(limit, prefix, ip, w);
      if Admitted(limit, steps, ip) != before {
        FilterAppend(before, step.r.now, t => w <= t < w + MINUTE);
        if w <= step.r.now < w + MINUTE {
          AdmittedInMinute(limit, steps, w);
          TimesOfAppend(Run(limit, prefix).inFlight, step.r, ip);
        }
      }
    }
  }

  lemma {:induction false} SliceCount(times: seq<int>, i: nat, j: nat, p: int -> bool)
    requires i <= j <= |times| && forall k :: i <= k < j ==> p(times[k])
    ensures |Filter(times, p)| >= j - i
  {
    if j > 0 {
      var rest := times[1..];
      assert forall k :: 1 <= k < |times| ==> times[k] == rest[k - 1];
      SliceCount(rest, if i == 0 then 0 else i - 1, j - 1, p);
    }
  }

  lemma {:induction false} AdmittingTakesLimit(limit: int, steps: seq<Step>, ip: Ip)
    ensures Peak(limit, steps, ip) >= 0
    ensures Admitted(limit, steps, ip) != [] ==> limit > 0 && Peak(limit, steps, ip) >= 1
  {
    if steps != [] {
      AdmittingTakesLimit(limit, DropLast(steps), ip);
      if Accepted(limit, steps) {
        TimesOfAppend(Run(limit, DropLast(steps)).inFlight, Last(steps).r, ip);
      }
    }
  }

  /** Any accept and the one `limit` places later, or more if handlers overlap, are at least a minute apart. */
  lemma {:induction false} AcceptsSpaced(limit: int, steps: seq<Step>, ip: Ip, i: nat)
    requires Ordered(steps, ip)
    requires i < i + limit + Excess(limit, steps, ip) < |Admitted(limit, steps, ip)|
    ensures var h := Admitted(limit, steps, ip); h[i + limit + Excess(limit, steps, ip)] - h[i] >= MINUTE
  {
    var h, k := Admitted(limit, steps, ip), i + limit + Excess(limit, steps, ip);
    AdmittingTakesLimit(limit, steps, ip);
    AdmittedSorted(limit, steps, ip);
    if h[k] - h[i] < MINUTE {
      WindowBound(limit, steps, ip, h[i]);
      SliceCount(h, i, k + 1, t => h[i] <= t < h[i] + MINUTE);
    }
  }

  // ------------------------------------------------------------------ whole handlers

  /** One handler from beginning to end. */
  function Handled(limit: int, requests: map<Ip, seq<int>>, r: Request): map<Ip, seq<int>> {
    if Admits(limit, requests, r) then Recorded(Prune(requests, r), r) else Prune(requests, r)
  }

  /** Left undisturbed, the two steps of a handler are the method `Handle` below. */
  lemma {:induction false} UninterruptedHandle(limit: int, s: State, r: Request)
    ensures var checked := Next(limit, s, Check(r));
            var done := if Admits(limit, s.requests, r) then Next(limit, checked, Append(|s.inFlight|)) else checked;
            done == State(Handled(limit, s.requests, r), s.inFlight)
  {
    var flying := s.inFlight + [r];
    assert flying[|s.inFlight|] == r && flying[..|s.inFlight|] + flying[|s.inFlight| + 1..] == s.inFlight;
  }

  /** The run in which the handlers come one after the other. */
  function OneByOne(reqs: seq<Request>): seq<Step> {
    if reqs == [] then [] else OneByOne(DropLast(reqs)) + [Check(Last(reqs)), Append(0)]
  }

  lemma {:induction false} RunHandled(limit: int, steps: seq<Step>, r: Request)
    requires Run(limit, steps).inFlight == []
    ensures var s, more := Run(limit, steps), steps + [Check(r), Append(0)];
            && Run(limit, more) == State(Handled(limit, s.requests, r), [])
            && Admitted(limit, more, r.ip)
               == Admitted(limit, steps, r.ip) + (if Admits(limit, s.requests, r) then [r.now] else [])
            && forall ip :: Peak(limit, more, ip) <= Max(Peak(limit, steps, ip), 1)
  {
    var s, checked, more := Run(limit, steps), steps + [Check(r)], steps + [Check(r), Append(0)];
    assert DropLast(more) == checked && DropLast(checked) == steps;
    UninterruptedHandle(limit, s, r);
    assert [] + [r] == [r] && [r][1..] == [];
  }

  /** Then nothing is ever in flight beside a handler, so the limit itself bounds every minute. */
  lemma {:induction false} OneByOneBound(limit: int, reqs: seq<Request>, ip: Ip, w: int)
    requires Ordered(OneByOne(reqs), ip)
    ensures |InMinute(Admitted(limit, OneByOne(reqs), ip), w)| <= Max(limit, 0)
  {
    OneByOnePeak(limit, reqs, ip);
    WindowBound(limit, OneByOne(reqs), ip, w);
  }

  lemma {:induction false} OneByOnePeak(limit: int, reqs: seq<Request>, ip: Ip)
    ensures Run(limit, OneByOne(reqs)).inFlight == [] && Peak(limit, OneByOne(reqs), ip) <= 1
  {
    if reqs != [] {
      OneByOnePeak(limit, DropLast(reqs), ip);
      RunHandled(limit, OneByOne(DropLast(reqs)), Last(reqs));
    }
  }

  // ------------------------------------------------------------------ runs that fail

  lemma {:induction false} RecentOne(t: int, now: int)
    ensures Recent([t], now) == if t > now - MINUTE then [t] else []
  {
    assert [] + [t] == [t];
    FilterAppend([], t, s => s > now - MINUTE);
  }

  lemma {:induction false} InMinuteStep(times: seq<int>, w: int)
    requires times != []
    ensures InMinute(times, w) == (if w <= times[0] < w + MINUTE then [times[0]] else []) + InMinute(times[1..], w)
  {
  }

  /**
   * Two handlers that pass the comparison before either appends its time are both admitted under a limit of one.
   * Their times are in order.
   */
  lemma {:induction false} OverlapBreaksLimit()
    ensures var steps := [Check(Request("a", 0)), Check(Request("a", 1)), Append(0), Append(0)];
            && Ordered(steps, "a") && Peak(1, steps, "a") == 2
            && InMinute(Admitted(1, steps, "a"), 0) == [0, 1]
  {
    OverlapRun(Request("a", 0), Request("a", 1));
    InMinuteStep([0, 1], 0);
    InMinuteStep([1], 0);
    assert [0, 1][1..] == [1] && [1][1..] == [];
  }

  lemma {:induction false} OverlapRun(a: Request, b: Request)
    requires a.ip == b.ip == "a"
    ensures var steps := [Check(a), Check(b), Append(0), Append(0)];
            Admitted(1, steps, "a") == [a.now, b.now] && Peak(1, steps, "a") == 2
  {
    var one, two, three := [Check(a)], [Check(a), Check(b)], [Check(a), Check(b), Append(0)];
    BothChecked(a, b);
    assert DropLast(three) == two && DropLast([Check(a), Check(b), Append(0), Append(0)]) == three;
    assert [a, b][..0] + [a, b][1..] == [b] && [b][..0] + [b][1..] == [];
    assert Run(1, three).inFlight == [b] && TimesOf([b], "a") == [b.now] by {
      assert [b][1..] == [];
    }
  }

  /** One comparison that passes, computed from the state before it. */
  lemma {:induction false} Passes(limit: int, steps: seq<Step>, r: Request, s: State, peak: int)
    requires Run(limit, steps) == s && Admits(limit, s.requests, r) && Peak(limit, steps, r.ip) == peak
    ensures var more := steps + [Check(r)];
            && Run(limit, more) == State(Prune(s.requests, r), s.inFlight + [r])
            && Admitted(limit, more, r.ip) == Admitted(limit, steps, r.ip) + [r.now]
            && Peak(limit, more, r.ip) == Max(peak, |TimesOf(s.inFlight, r.ip)| + 1)
  {
    var more := steps + [Check(r)];
    assert DropLast(more) == steps && Last(more) == Check(r);
    TimesOfAppend(s.inFlight, r, r.ip);
  }

  lemma {:induction false} BothChecked(a: Request, b: Request)
    requires a.ip == b.ip == "a"
    ensures var two := [Check(a), Check(b)];
            && Run(1, two) == State(map[], [a, b]) && Admitted(1, two, "a") == [a.now, b.now] && Peak(1, two, "a") == 2
  {
    Passes(1, [], a, State(map[], []), 0);
    assert [] + [Check(a)] == [Check(a)] && [] + [a] == [a] && [] + [a.now] == [a.now];
    assert [a][1..] == [];
    Passes(1, [Check(a)], b, State(map[], [a]), 1);
    assert [Check(a)] + [Check(b)] == [Check(a), Check(b)] && [a] + [b] == [a, b];
  }

  /** One admitted request, computed from the state before it. */
  lemma {:induction false} Extend(prefix: seq<Request>, r: Request, before: map<Ip, seq<int>>, after: seq<int>)
    requires Run(2, OneByOne(prefix)) == State(before, []) && Admits(2, before, r)
    requires after == Entries(Prune(before, r), r.ip) + [r.now]
    ensures Run(2, OneByOne(prefix + [r])) == State(before[r.ip := after], [])
    ensures Admitted(2, OneByOne(prefix + [r]), r.ip) == Admitted(2, OneByOne(prefix), r.ip) + [r.now]
  {
    assert DropLast(prefix + [r]) == prefix && Last(prefix + [r]) == r;
    RunHandled(2, OneByOne(prefix), r);
  }

  /**
   * Even without overlap, two handlers that read the clock in one order and take effect in the other break the
   * bound: the later time prunes what the earlier one should still have counted, and three are accepted in one
   * minute under a limit of two.
   */
  lemma {:induction false} OvertakingBreaksBound()
    ensures var reqs := [Request("a", 0), Request("a", 0), Request("a", MINUTE), Request("a", MINUTE - 1)];
            && !Ordered(OneByOne(reqs), "a") && Peak(2, OneByOne(reqs), "a") <= 1
            && |InMinute(Admitted(2, OneByOne(reqs), "a"), 0)| == 3
  {
    OvertakingHistory(Request("a", 0), Request("a", MINUTE), Request("a", MINUTE - 1));
    ThreeInMinute();
    var reqs := [Request("a", 0), Request("a", 0), Request("a", MINUTE), Request("a", MINUTE - 1)];
    OneByOnePeak(2, reqs, "a");
    if Ordered(OneByOne(reqs), "a") {
      OneByOneBound(2, reqs, "a", 0);
      assert false;
    }
  }

  lemma {:induction false} OvertakingHistory(r: Request, late: Request, back: Request)
    requires r == Request("a", 0) && late == Request("a", MINUTE) && back == Request("a", MINUTE - 1)
    ensures Admitted(2, OneByOne([r, r, late, back]), "a") == [0, 0, MINUTE, MINUTE - 1]
  {
    TwoAtOnce(r);
    ThirdPrunesBoth(r, late);
    RecentOne(MINUTE, MINUTE - 1);
    Extend([r, r, late], back, map["a" := [MINUTE]], [MINUTE, MINUTE - 1]);
    assert [r, r, late] + [back] == [r, r, late, back];
  }

  lemma {:induction false} ThirdPrunesBoth(r: Request, late: Request)
    requires r == Request("a", 0) && late == Request("a", MINUTE)
    requires Run(2, OneByOne([r, r])) == State(map["a" := [0, 0]], [])
    ensures Run(2, OneByOne([r, r, late])) == State(map["a" := [MINUTE]], [])
    ensures Admitted(2, OneByOne([r, r, late]), "a") == Admitted(2, OneByOne([r, r]), "a") + [MINUTE]
  {
    assert Recent([0, 0], MINUTE) == [] by {
      RecentOne(0, MINUTE);
      assert [0, 0][1..] == [0];
    }
    Extend([r, r], late, map["a" := [0, 0]], [MINUTE]);
    assert [r, r] + [late] == [r, r, late] && map["a" := [0, 0]]["a" := [MINUTE]] == map["a" := [MINUTE]];
  }

  lemma {:induction false} TwoAtOnce(r: Request)
    requires r == Request("a", 0)
    ensures Run(2, OneByOne([r, r])) == State(map["a" := [0, 0]], []) && Admitted(2, OneByOne([r, r]), "a") == [0, 0]
  {
    RecentOne(0, 0);
    Extend([], r, map[], [0]);
    assert [] + [r] == [r];
    Extend([r], r, map["a" := [0]], [0, 0]);
    assert [r] + [r] == [r, r];
  }

  lemma {:induction false} ThreeInMinute()
    ensures InMinute([0, 0, MINUTE, MINUTE - 1], 0) == [0, 0, MINUTE - 1]
  {
    var h := [0, 0, MINUTE, MINUTE - 1];
    assert h[1..] == [0, MINUTE, MINUTE - 1] && h[1..][1..] == [MINUTE, MINUTE - 1];
    assert h[1..][1..][1..] == [MINUTE - 1] && [MINUTE - 1][1..] == [];
    InMinuteStep(h, 0);
    InMinuteStep(h[1..], 0);
    InMinuteStep(h[1..][1..], 0);
    InMinuteStep([MINUTE - 1], 0);
    assert InMinute([], 0) == [];
  }

  class RateLimiter {
    const requestsPerMinute: int
    var requests: map<Ip, seq<int>>

    constructor (requestsPerMinute: int)
      ensures this.requestsPerMinute == requestsPerMinute && requests == map[]
    {
      this.requestsPerMinute := requestsPerMinute;
      requests := map[];
    }

    /** The whole handler, undisturbed; `accepted` tells whether it calls the next one or answers 429. */
    method Handle(ip: Ip, now: int) returns (accepted: bool)
      modifies this
      ensures requests == Handled(requestsPerMinute, old(requests), Request(ip, now))
      ensures accepted <==> Admits(requestsPerMinute, old(requests), Request(ip, now))
      ensures var before := if ip in old(requests) then old(requests)[ip] else [];
              var young := Filter(before, (t: int) => now - t < 60_000_000_000);
              && (accepted <==> |young| < requestsPerMinute)
              && (ip in requests ==> requests[ip] == if accepted then young + [now] else young)
              && requests.Keys == old(requests).Keys + (if accepted then {ip} else {})
              && forall other :: other in requests && other != ip ==>
                   other in old(requests) && requests[other] == old(requests)[other]
    {
      var minute := now - MINUTE;
      RecentMeans(Entries(requests, ip), now);
      if ip in requests {
        var reqs := requests[ip];
        var filtered := [];
        for i := 0 to |reqs|
          invariant filtered == Recent(reqs[..i], now) && requests == old(requests)
        {
          assert reqs[..i + 1] == reqs[..i] + [reqs[i]];
          FilterAppend(reqs[..i], reqs[i], t => t > now - MINUTE);
          if reqs[i] > minute {
            filtered := filtered + [reqs[i]];
          }
        }
        assert reqs[..|reqs|] == reqs;
        requests := requests[ip := filtered];
      }
      assert requests == Prune(old(requests), Request(ip, now));
      if |Entries(requests, ip)| >= requestsPerMinute {
        return false;
      }
      requests := requests[ip := Entries(requests, ip) + [now]];
      return true;
    }
  }
}
