/**
 * The height monitor of internal/height/monitor.go: change detection by polling, and a non-blocking
 * fan-out to bounded channels.
 *
 * `State` and `Next` describe the monitor's goroutine, its subscribers and their receives as
 * interleaved steps; the history fields record what happened and are read by no step.
 * A step that is not enabled leaves the state alone, so every step sequence is a run.
 */
module HeightMonitor {
  import opened Sequences

  const BUFFER_SIZE: nat := 10 // DefaultSubscriberBufferSize

  /** A non-blocking send: a full channel drops the new height and keeps the old ones. */
  function TrySend(channel: seq<int>, height: int): seq<int> {
    if |channel| < BUFFER_SIZE then channel + [height] else channel
  }

  datatype Phase =
    | Waiting                       // for the next tick
    | Changed(height: int)          // currentHeight is updated, subMu not yet held
    | Sending(height: int, to: nat) // inside notifySubscribers, about to send to subscriber `to`

  datatype Subscriber = Subscriber(
    buffer: seq<int>,
    start: nat,         // history: the number of changes announced before it subscribed
    received: seq<int>, // history
    dropped: nat)       // history

  datatype State = State(
    currentHeight: int,
    phase: Phase,
    subscribers: seq<Subscriber>,
    polls: seq<int>,    // history: the heights answered by the provider
    changes: seq<int>)  // history: the heights stored in currentHeight

  datatype Step =
    | Poll(answer: Option<int>)
    | BeginNotify
    | SendNext
    | Subscribe
    | Receive(i: nat)

  function Init(): State {
    State(0, Waiting, [], [], [])
  }

  function Announced(s: State): nat {
    if s.phase.Changed? && s.changes != [] then |s.changes| - 1 else |s.changes|
  }

  function Deliver(sub: Subscriber, height: int): Subscriber {
    if |sub.buffer| < BUFFER_SIZE then sub.(buffer := TrySend(sub.buffer, height))
    else sub.(dropped := sub.dropped + 1)
  }

  function Next(s: State, step: Step): State {
    match step
    case Poll(answer) =>
      if !s.phase.Waiting? || answer.None? then s
      else if answer.value == s.currentHeight then s.(polls := s.polls + [answer.value])
      else
        var h := answer.value;
        State(h, Changed(h), s.subscribers, s.polls + [h], s.changes + [h])
    case BeginNotify =>
      if s.phase.Changed? then s.(phase := Sending(s.phase.height, 0)) else s
    case SendNext =>
      if !s.phase.Sending? then s
      else if s.phase.to < |s.subscribers| then
        s.(subscribers := s.subscribers[s.phase.to := Deliver(s.subscribers[s.phase.to], s.phase.height)],
           phase := Sending(s.phase.height, s.phase.to + 1))
      else s.(phase := Waiting)
    case Subscribe => // subMu excludes the sending loop
      if s.phase.Sending? then s else s.(subscribers := s.subscribers + [Subscriber([], Announced(s), [], 0)])
    case Receive(i) =>
      if i < |s.subscribers| && s.subscribers[i].buffer != [] then
        var sub := s.subscribers[i];
        var after := sub.(buffer := sub.buffer[1..], received := sub.received + [sub.buffer[0]]);
        s.(subscribers := s.subscribers[i := after])
      else s
  }

  function Run(steps: seq<Step>): State {
    if steps == [] then Init() else Next(Run(DropLast(steps)), Last(steps))
  }

  // ------------------------------------------------------------------ what is announced

  /** Reference: a list of heights without immediate repetitions, starting from `prev`. */
  function Destutter(prev: int, heights: seq<int>): seq<int>
    decreases heights
  {
    if heights == [] then []
    else if heights[0] == prev then Destutter(prev, heights[1..])
    else [heights[0]] + Destutter(heights[0], heights[1..])
  }

  function LastOr(heights: seq<int>, default: int): int {
    if heights == [] then default else Last(heights)
  }

  lemma {:induction false} DestutterAppend(prev: int, heights: seq<int>, h: int)
    ensures Destutter(prev, heights + [h])
         == Destutter(prev, heights) + (if h == LastOr(Destutter(prev, heights), prev) then [] else [h])
    decreases heights
  {
    if heights == [] {
      assert heights + [h] == [h] && [h][1..] == [];
    } else {
      assert (heights + [h])[1..] == heights[1..] + [h];
      DestutterAppend(heights[0], heights[1..], h);
    }
  }

  /** The heights this subscriber has been offered so far: those announced since it subscribed. */
  function Offered(s: State, i: nat): seq<int>
    requires i < |s.subscribers| && s.subscribers[i].start <= |s.changes|
  {
    var pending := s.phase.Changed? || (s.phase.Sending? && s.phase.to <= i);
    var end := if pending && s.subscribers[i].start < |s.changes| then |s.changes| - 1 else |s.changes|;
    s.changes[s.subscribers[i].start..end]
  }

  function Taken(sub: Subscriber): seq<int> {
    sub.received + sub.buffer
  }

  ghost predicate SubscriberOk(s: State, i: nat)
    requires i < |s.subscribers|
  {
    var sub := s.subscribers[i];
    && sub.start <= |s.changes|
    && (s.phase.Changed? || s.phase.Sending? ==> sub.start < |s.changes|)
    && IsSubsequence(Taken(sub), Offered(s, i))
    && |Taken(sub)| + sub.dropped == |Offered(s, i)|
    && |sub.buffer| <= BUFFER_SIZE
  }

  ghost predicate Inv(s: State) {
    && s.changes == Destutter(0, s.polls)
    && s.currentHeight == LastOr(s.changes, 0)
    && (!s.phase.Waiting? ==> s.changes != [] && s.phase.height == Last(s.changes))
    && forall i :: 0 <= i < |s.subscribers| ==> SubscriberOk(s, i)
  }

  lemma {:induction false} PollKeepsSubscriber(s: State, h: int, i: nat)
    requires s.phase.Waiting? && i < |s.subscribers| && SubscriberOk(s, i)
    ensures SubscriberOk(Next(s, Poll(Some(h))), i)
  {
    var t := Next(s, Poll(Some(h)));
    if h != s.currentHeight {
      assert t.changes == s.changes + [h];
      assert t.changes[..|s.changes|] == s.changes;
      assert t.changes[s.subscribers[i].start..|s.changes|] == s.changes[s.subscribers[i].start..];
      assert Offered(t, i) == Offered(s, i);
    }
  }

  lemma {:induction false} PollKeepsInv(s: State, h: int)
    requires Inv(s) && s.phase.Waiting?
    ensures Inv(Next(s, Poll(Some(h))))
  {
    DestutterAppend(0, s.polls, h);
    var t := Next(s, Poll(Some(h)));
    forall i | 0 <= i < |t.subscribers|
      ensures SubscriberOk(t, i)
    {
      PollKeepsSubscriber(s, h, i);
    }
  }

  lemma {:induction false} DeliverOk(sub: Subscriber, offered: seq<int>, h: int)
    requires IsSubsequence(Taken(sub), offered) && |Taken(sub)| + sub.dropped == |offered|
        && |sub.buffer| <= BUFFER_SIZE
    ensures var d := Deliver(sub, h);
            && IsSubsequence(Taken(d), offered + [h])
            && |Taken(d)| + d.dropped == |offered| + 1 && |d.buffer| <= BUFFER_SIZE
  {
    if |sub.buffer| < BUFFER_SIZE {
      SubsequenceAppendBoth(Taken(sub), offered, h);
      assert Taken(Deliver(sub, h)) == Taken(sub) + [h];
    } else {
      SubsequenceAppendRight(Taken(sub), offered, h);
    }
  }

  lemma {:induction false} SendKeepsInv(s: State)
    requires Inv(s) && s.phase.Sending?
    ensures Inv(Next(s, SendNext))
  {
    var t, to := Next(s, SendNext), s.phase.to;
    forall i | 0 <= i < |t.subscribers|
      ensures SubscriberOk(t, i)
    {
      assert SubscriberOk(s, i);
      if i == to {
        DeliverOk(s.subscribers[i], Offered(s, i), s.phase.height);
        assert Offered(t, i) == Offered(s, i) + [s.phase.height];
      } else {
        assert Offered(t, i) == Offered(s, i);
      }
    }
  }

  lemma {:induction false} OtherStepsKeepInv(s: State, step: Step)
    requires Inv(s) && (step.BeginNotify? || step.Subscribe? || step.Receive?)
    ensures Inv(Next(s, step))
  {
    var t := Next(s, step);
    forall i | 0 <= i < |t.subscribers|
      ensures SubscriberOk(t, i)
    {
      if i < |s.subscribers| {
        assert SubscriberOk(s, i);
        assert Offered(t, i) == Offered(s, i);
        if step.Receive? && step.i == i {
          assert Taken(t.subscribers[i]) == Taken(s.subscribers[i]);
        }
      }
    }
  }

  lemma {:induction false} NextKeepsInv(s: State, step: Step)
    requires Inv(s)
    ensures Inv(Next(s, step))
  {
    match step
    case Poll(answer) => if answer.Some? && s.phase.Waiting? { PollKeepsInv(s, answer.value); }
    case SendNext => if s.phase.Sending? { SendKeepsInv(s); }
    case _ => OtherStepsKeepInv(s, step);
  }

  lemma {:induction false} ReachableInv(steps: seq<Step>)
    ensures Inv(Run(steps))
  {
    if steps != [] {
      ReachableInv(DropLast(steps));
      NextKeepsInv(Run(DropLast(steps)), Last(steps));
    }
  }

  /**
   * A subscriber has received, in order, some of the heights that changed since it subscribed;
   * at most ten more are waiting; and the changes are the polled heights without repetitions.
   */
  ghost predicate InOrder(s: State, i: nat)
    requires i < |s.subscribers|
  {
    var sub := s.subscribers[i];
    && sub.start <= |s.changes|
    && IsSubsequence(sub.received + sub.buffer, s.changes[sub.start..])
    && |sub.buffer| <= BUFFER_SIZE
    && s.changes == Destutter(0, s.polls)
  }

  lemma {:induction false} InvInOrder(s: State, i: nat)
    requires Inv(s) && i < |s.subscribers|
    ensures InOrder(s, i)
  {
    assert SubscriberOk(s, i);
    var sub := s.subscribers[i];
    if Offered(s, i) != s.changes[sub.start..] {
      assert s.changes[sub.start..] == Offered(s, i) + [Last(s.changes)];
      SubsequenceAppendRight(Taken(sub), Offered(s, i), Last(s.changes));
    }
  }

  lemma {:induction false} ReceivesChangesInOrder(steps: seq<Step>, i: nat)
    requires i < |Run(steps).subscribers|
    ensures InOrder(Run(steps), i)
  {
    ReachableInv(steps);
    InvInOrder(Run(steps), i);
  }

  /** A full channel keeps its heights and loses the new one; only a full channel loses anything. */
  lemma {:induction false} FullChannelLosesNewest(s: State)
    requires Inv(s) && s.phase.Sending? && s.phase.to < |s.subscribers|
    ensures var sub, after := s.subscribers[s.phase.to], Next(s, SendNext).subscribers[s.phase.to];
            && (|sub.buffer| == BUFFER_SIZE <==> after.dropped == sub.dropped + 1)
            && after.buffer == (if |sub.buffer| == BUFFER_SIZE then sub.buffer else sub.buffer + [s.phase.height])
            && |after.buffer| <= BUFFER_SIZE
  {
    assert SubscriberOk(s, s.phase.to);
  }

  function FirstTen(heights: seq<int>): seq<int> {
    if |heights| <= BUFFER_SIZE then heights else heights[..BUFFER_SIZE]
  }

  /** What a step sends to subscriber `i`. */
  function Sent(s: State, step: Step, i: nat): seq<int> {
    if step.SendNext? && s.phase.Sending? && s.phase.to == i then [s.phase.height] else []
  }

  /** The step offers subscriber `i` what it sends to it, and nothing else. */
  ghost predicate OffersWhatItSends(s: State, step: Step, i: nat)
    requires i < |s.subscribers|
  {
    var t := Next(s, step);
    && i < |t.subscribers| && s.subscribers[i].start <= |s.changes| && t.subscribers[i].start <= |t.changes|
    && t.subscribers[i].start == s.subscribers[i].start
    && Offered(t, i) == Offered(s, i) + Sent(s, step, i)
    && t.subscribers[i].buffer == FirstTen(s.subscribers[i].buffer + Sent(s, step, i))
  }

  lemma {:induction false} PollOffers(s: State, answer: Option<int>, i: nat)
    requires i < |s.subscribers| && SubscriberOk(s, i)
    ensures OffersWhatItSends(s, Poll(answer), i)
  {
    var t, sub := Next(s, Poll(answer)), s.subscribers[i];
    assert sub.buffer + [] == sub.buffer;
    if t != s {
      assert t.changes[..|s.changes|] == s.changes;
      assert t.changes[sub.start..|s.changes|] == s.changes[sub.start..];
    }
    assert Offered(t, i) == Offered(s, i);
  }

  lemma {:induction false} SendOffers(s: State, i: nat)
    requires i < |s.subscribers| && SubscriberOk(s, i) && s.phase.Sending? && s.changes != []
    requires s.phase.height == Last(s.changes)
    ensures OffersWhatItSends(s, SendNext, i)
  {
    var t, sub := Next(s, SendNext), s.subscribers[i];
    if s.phase.to == i {
      assert s.changes[sub.start..] == s.changes[sub.start..|s.changes| - 1] + [s.phase.height];
    } else {
      assert sub.buffer + [] == sub.buffer;
      assert Offered(t, i) == Offered(s, i);
    }
  }

  lemma {:induction false} StepOffers(s: State, step: Step, i: nat)
    requires Inv(s) && i < |s.subscribers| && step != Receive(i)
    ensures OffersWhatItSends(s, step, i)
  {
    assert SubscriberOk(s, i);
    if step.Poll? {
      PollOffers(s, step.answer, i);
    } else if step.SendNext? && s.phase.Sending? {
      SendOffers(s, i);
    } else {
      assert s.subscribers[i].buffer + [] == s.subscribers[i].buffer;
      assert Offered(Next(s, step), i) == Offered(s, i);
    }
  }

  lemma FirstTenAppend(buffer: seq<int>, heights: seq<int>, sent: seq<int>)
    ensures FirstTen(FirstTen(buffer + heights) + sent) == FirstTen(buffer + (heights + sent))
  {
    assert buffer + (heights + sent) == (buffer + heights) + sent;
  }

  /**
   * A slow subscriber keeps the oldest. Over any steps in which it receives nothing, its channel holds the first
   * ten of what was in it and what it has been offered since.
   */
  lemma {:induction false} OldestStay(before: seq<Step>, after: seq<Step>, i: nat)
    requires i < |Run(before).subscribers| && forall k :: 0 <= k < |after| ==> after[k] != Receive(i)
    ensures var s, t := Run(before), Run(before + after);
            && i < |t.subscribers| && s.subscribers[i].start <= |s.changes| && t.subscribers[i].start <= |t.changes|
            && Offered(s, i) <= Offered(t, i)
            && t.subscribers[i].buffer == FirstTen(s.subscribers[i].buffer + Offered(t, i)[|Offered(s, i)|..])
  {
    ReachableInv(before);
    var s, t := Run(before), Run(before + after);
    if after == [] {
      assert before + after == before;
      assert SubscriberOk(s, i);
      assert Offered(s, i)[|Offered(s, i)|..] == [];
      assert s.subscribers[i].buffer + [] == s.subscribers[i].buffer;
    } else {
      assert DropLast(before + after) == before + DropLast(after) && Last(before + after) == Last(after);
      OldestStay(before, DropLast(after), i);
      var u, step := Run(before + DropLast(after)), Last(after);
      ReachableInv(before + DropLast(after));
      StepOffers(u, step, i);
      FirstTenAppend(s.subscribers[i].buffer, Offered(u, i)[|Offered(s, i)|..], Sent(u, step, i));
      assert Offered(t, i)[|Offered(s, i)|..] == Offered(u, i)[|Offered(s, i)|..] + Sent(u, step, i);
    }
  }

  /** A subscriber that never met a full channel has been given every announced change. */
  lemma {:induction false} NothingLostWithoutDrops(steps: seq<Step>, i: nat)
    requires var s := Run(steps); i < |s.subscribers| && s.phase.Waiting?
    ensures var s := Run(steps);
            var sub := s.subscribers[i];
            sub.start <= |s.changes| && (sub.dropped == 0 <==> sub.received + sub.buffer == s.changes[sub.start..])
  {
    ReachableInv(steps);
    var s := Run(steps);
    assert SubscriberOk(s, i);
    assert Offered(s, i) == s.changes[s.subscribers[i].start..];
    if s.subscribers[i].dropped == 0 {
      SubsequenceSameLength(Taken(s.subscribers[i]), Offered(s, i));
    }
  }

  lemma {:induction false} DestutterMembers(prev: int, heights: seq<int>, h: int)
    requires h in Destutter(prev, heights)
    ensures h in heights
    decreases heights
  {
    if heights[0] == prev || h != heights[0] {
      DestutterMembers(heights[0], heights[1..], h);
    }
  }

  /** A received height was answered by the provider. */
  lemma {:induction false} ReceivedWasPolled(s: State, i: nat, h: int)
    requires Inv(s) && i < |s.subscribers| && h in Taken(s.subscribers[i])
    ensures h in s.polls
  {
    assert SubscriberOk(s, i);
    SubsequenceMembers(Taken(s.subscribers[i]), Offered(s, i), h);
    DestutterMembers(0, s.polls, h);
  }

  // ------------------------------------------------------------------ the struct

  function TrySendAll(channels: seq<seq<int>>, height: int): seq<seq<int>> {
    seq(|channels|, i requires 0 <= i < |channels| => TrySend(channels[i], height))
  }

  class HeightMonitor {
    var currentHeight: int
    var subscribers: seq<seq<int>> // the buffers of the subscribers' channels

    constructor ()
      ensures currentHeight == 0 && subscribers == []
    {
      currentHeight, subscribers := 0, [];
    }

    method Subscribe() returns (i: nat)
      modifies this
      ensures i == |old(subscribers)| && subscribers == old(subscribers) + [[]] && currentHeight == old(currentHeight)
    {
      i := |subscribers|;
      subscribers := subscribers + [[]];
    }

    /** One tick of monitorLoop; `answer` is what the provider returns, None for an error. */
    method Tick(answer: Option<int>)
      modifies this
      ensures answer.None? || answer.value == old(currentHeight) ==>
                currentHeight == old(currentHeight) && subscribers == old(subscribers)
      ensures answer.Some? && answer.value != old(currentHeight) ==>
                currentHeight == answer.value && subscribers == TrySendAll(old(subscribers), answer.value)
      ensures answer.Some? && answer.value != old(currentHeight) ==>
                |subscribers| == |old(subscribers)|
                && forall i :: 0 <= i < |subscribers| ==>
                     subscribers[i] == old(subscribers)[i] + if |old(subscribers)[i]| < 10 then [answer.value] else []
    {
      if answer.None? {
        return;
      }
      var height := answer.value;
      if height != currentHeight {
        currentHeight := height;
        NotifySubscribers(height);
      }
    }

    method NotifySubscribers(height: int)
      modifies this
      ensures subscribers == TrySendAll(old(subscribers), height) && currentHeight == old(currentHeight)
      ensures |subscribers| == |old(subscribers)|
      ensures forall i :: 0 <= i < |subscribers| ==>
                subscribers[i] == old(subscribers)[i] + if |old(subscribers)[i]| < 10 then [height] else []
    {
      var i := 0;
      while i < |subscribers|
        invariant 0 <= i <= |subscribers| == |old(subscribers)| && currentHeight == old(currentHeight)
        invariant forall j :: 0 <= j < i ==> subscribers[j] == TrySend(old(subscribers)[j], height)
        invariant forall j :: i <= j < |subscribers| ==> subscribers[j] == old(subscribers)[j]
      {
        if |subscribers[i]| < BUFFER_SIZE {
          subscribers := subscribers[i := subscribers[i] + [height]];
        }
        i := i + 1;
      }
    }
  }

  function Buffers(s: State): seq<seq<int>> {
    seq(|s.subscribers|, i requires 0 <= i < |s.subscribers| => s.subscribers[i].buffer)
  }

  function SendAll(s: State, n: nat): State {
    if n == 0 then s else Next(SendAll(s, n - 1), SendNext)
  }

  /** Run without interruption, the sub-steps of notifySubscribers are the loop of the struct. */
  lemma {:induction false} UninterruptedNotify(s: State, n: nat)
    requires s.phase.Sending? && s.phase.to == 0 && n <= |s.subscribers|
    ensures var t := SendAll(s, n);
            && t.phase == Sending(s.phase.height, n) && |t.subscribers| == |s.subscribers|
            && (forall i :: 0 <= i < n ==> t.subscribers[i].buffer == TrySend(s.subscribers[i].buffer, s.phase.height))
            && (forall i :: n <= i < |s.subscribers| ==> t.subscribers[i] == s.subscribers[i])
    ensures n == |s.subscribers| ==> Buffers(Next(SendAll(s, n), SendNext)) == TrySendAll(Buffers(s), s.phase.height)
  {
    if n > 0 {
      UninterruptedNotify(s, n - 1);
    }
  }

  lemma {:induction false} SendsLeaveRest(s: State, n: nat)
    requires s.phase.Sending? && s.phase.to == 0 && n <= |s.subscribers|
    ensures var t := SendAll(s, n);
            t.currentHeight == s.currentHeight && t.polls == s.polls && t.changes == s.changes
  {
    if n > 0 {
      SendsLeaveRest(s, n - 1);
      UninterruptedNotify(s, n - 1);
    }
  }

  /**
   * Left undisturbed, a tick that finds a new height is the method `Tick`: the height is stored and sent to every
   * channel with room, and the monitor waits again. A tick that finds no new one changes nothing but the history.
   */
  lemma {:induction false} UninterruptedTick(s: State, h: int)
    requires s.phase == Waiting
    ensures h != s.currentHeight ==>
              var t := Next(SendAll(Next(Next(s, Poll(Some(h))), BeginNotify), |s.subscribers|), SendNext);
              && t.phase == Waiting && t.currentHeight == h && t.changes == s.changes + [h]
              && Buffers(t) == TrySendAll(Buffers(s), h)
    ensures h == s.currentHeight ==> Next(s, Poll(Some(h))) == s.(polls := s.polls + [h])
    ensures Next(s, Poll(None)) == s
  {
    if h != s.currentHeight {
      var notifying := Next(Next(s, Poll(Some(h))), BeginNotify);
      UninterruptedNotify(notifying, |s.subscribers|);
      SendsLeaveRest(notifying, |s.subscribers|);
      assert Buffers(notifying) == Buffers(s);
    }
  }

  /** Subscribing adds an empty channel, and waits while heights are being sent. */
  lemma {:induction false} SubscribeMeans(s: State)
    ensures s.phase.Sending? ==> Next(s, Step.Subscribe) == s
    ensures !s.phase.Sending? ==>
              var t := Next(s, Step.Subscribe);
              && |t.subscribers| == |s.subscribers| + 1 && t.subscribers[..|s.subscribers|] == s.subscribers
              && t.subscribers[|s.subscribers|].buffer == [] && t.subscribers[|s.subscribers|].received == []
              && t == s.(subscribers := t.subscribers)
  {
  }

  /** A receive takes the oldest height out of the channel. */
  lemma {:induction false} ReceiveMeans(s: State, i: nat)
    requires i < |s.subscribers| && s.subscribers[i].buffer != []
    ensures var t, sub := Next(s, Receive(i)), s.subscribers[i];
            && |t.subscribers| == |s.subscribers|
            && [t.subscribers[i].received[|sub.received|]] + t.subscribers[i].buffer == sub.buffer
            && t.subscribers[i].received[..|sub.received|] == sub.received
            && forall j :: 0 <= j < |s.subscribers| && j != i ==> t.subscribers[j] == s.subscribers[j]
  {
  }

  /** The answers of the provider, in order; the monitor asks only while it waits. */
  function Answers(steps: seq<Step>): seq<int> {
    if steps == [] then []
    else
      var before := Answers(DropLast(steps));
      match Last(steps)
      case Poll(answer) =>
        if answer.Some? && Run(DropLast(steps)).phase == Waiting then before + [answer.value] else before
      case _ => before
  }

  /** In every run the announced heights are the provider's answers without immediate repetitions. */
  lemma {:induction false} ChangesAreAnswers(steps: seq<Step>)
    ensures Run(steps).polls == Answers(steps) && Run(steps).changes == Destutter(0, Answers(steps))
  {
    ReachableInv(steps);
    if steps != [] {
      ChangesAreAnswers(DropLast(steps));
    }
  }
}
