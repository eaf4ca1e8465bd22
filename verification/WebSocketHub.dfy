/**
 * The WebSocket part of internal/api/server.go: connection handlers, the clients' reading and writing
 * goroutines and the broadcasting goroutine as interleaved steps, at the granularity of the two mutexes.
 * A step that is not enabled leaves the state alone.
 *
 * Sending on a closed channel or closing one twice panics in Go; here it sets `panicked`.
 */
module WebSocketHub {
  import opened Sequences

  type Topic = string

  const BUFFER_SIZE: nat := 256
  const VALID_TOPICS: set<Topic> := {"metrics", "logs", "alerts", "proposals"}

  datatype Message =
    | Control(kind: string, topic: Topic) // welcome and confirmations
    | Update(topic: Topic, data: string)  // what the Broadcast methods publish

  datatype Action = Subscribe | Unsubscribe | OtherAction

  datatype Reader =
    | Greeting                                       // handleWebSocket has registered the client
    | Reading
    | Handling(action: Action, topics: seq<Topic>)   // holding client.mu, these topics still to do
    | Leaving                                        // the read failed, removeWSClient is to come
    | Gone

  datatype Client = Client(
    subscriptions: set<Topic>,
    send: seq<Message>,
    closed: bool,
    reader: Reader,
    drained: seq<Message>, // history: what the writing goroutine took
    heard: seq<Message>,   // history: updates broadcast while the client was found subscribed
    dropped: nat)          // history: updates skipped because the channel was full

  datatype Broadcaster =
    | Idle
    | Looping(msg: Message, todo: set<nat>)            // holding wsClientsMu for reading
    | Writing(msg: Message, todo: set<nat>, to: nat)   // client `to` was found subscribed

  datatype Hub = Hub(
    clients: seq<Client>,     // all connections there ever were
    registered: set<nat>,     // the keys of wsClients
    queue: seq<Message>,      // wsBroadcast
    broadcaster: Broadcaster,
    announced: seq<Message>,  // history: updates taken from wsBroadcast
    panicked: bool)

  datatype Step =
    | Connect
    | Greet(c: nat)
    | Request(c: nat, action: Action, topics: seq<Topic>)
    | HandleTopic(c: nat)
    | ReadFails(c: nat)
    | Remove(c: nat)
    | Drain(c: nat)
    | Publish(topic: Topic, data: string)
    | TakeUpdate
    | Check(c: nat)
    | Write
    | EndLoop

  function Init(): Hub {
    Hub([], {}, [], Idle, [], false)
  }

  /** writeMessage: a full channel skips the message. */
  function TrySend(send: seq<Message>, msg: Message): seq<Message> {
    if |send| < BUFFER_SIZE then send + [msg] else send
  }

  function SetClient(h: Hub, c: nat, client: Client): Hub
    requires c < |h.clients|
  {
    h.(clients := h.clients[c := client])
  }

  function WriteMessage(h: Hub, c: nat, msg: Message): Hub
    requires c < |h.clients|
  {
    var client := h.clients[c];
    if client.closed then h.(panicked := true)
    else
      SetClient(h, c, client.(send := TrySend(client.send, msg),
                              dropped := client.dropped + if msg.Update? && |client.send| >= BUFFER_SIZE then 1 else 0))
  }

  function WithReader(h: Hub, c: nat, reader: Reader): Hub
    requires c < |h.clients|
  {
    SetClient(h, c, h.clients[c].(reader := reader))
  }

  function HandledTopic(h: Hub, c: nat): Hub
    requires c < |h.clients| && h.clients[c].reader.Handling?
  {
    var client := h.clients[c];
    var action, topics := client.reader.action, client.reader.topics;
    if topics == [] then WithReader(h, c, Reading)
    else
      var topic, rest := topics[0], WithReader(h, c, Handling(action, topics[1..]));
      if topic !in VALID_TOPICS || action.OtherAction? then rest
      else if action.Subscribe? then
        WriteMessage(SetClient(rest, c, rest.clients[c].(subscriptions := client.subscriptions + {topic})), c,
            Control("subscribed", topic))
      else
        WriteMessage(SetClient(rest, c, rest.clients[c].(subscriptions := client.subscriptions - {topic})), c,
            Control("unsubscribed", topic))
  }

  function Removed(h: Hub, c: nat): Hub
    requires c < |h.clients|
  {
    var gone := WithReader(h, c, Gone);
    if c !in h.registered then gone
    else if h.clients[c].closed then gone.(panicked := true)
    else SetClient(gone, c, gone.clients[c].(closed := true)).(registered := h.registered - {c})
  }

  /** A step of one client's goroutines. Registration and removal need wsClientsMu for writing. */
  function ClientStep(h: Hub, c: nat, step: Step): Hub
    requires c < |h.clients|
  {
    var client := h.clients[c];
    match step
    case Greet(_) =>
      if client.reader.Greeting? then WithReader(WriteMessage(h, c, Control("connected", "system")), c, Reading) else h
    case Request(_, action, topics) => if client.reader.Reading? then WithReader(h, c, Handling(action, topics)) else h
    case HandleTopic(_) => if client.reader.Handling? then HandledTopic(h, c) else h
    case ReadFails(_) => if client.reader.Reading? then WithReader(h, c, Leaving) else h
    case Remove(_) => if client.reader.Leaving? && h.broadcaster.Idle? then Removed(h, c) else h
    case Drain(_) =>
      if client.send != [] then
        SetClient(h, c, client.(send := client.send[1..], drained := client.drained + [client.send[0]]))
      else h
    case _ => h
  }

  function BroadcastStep(h: Hub, step: Step): Hub {
    match step
    case TakeUpdate =>
      if h.broadcaster.Idle? && h.queue != [] then
        h.(queue := h.queue[1..], broadcaster := Looping(h.queue[0], h.registered),
           announced := h.announced + [h.queue[0]])
      else h
    case Check(c) =>
      if h.broadcaster.Looping? && c in h.broadcaster.todo && c < |h.clients| && !h.clients[c].reader.Handling? then
        var msg := h.broadcaster.msg;
        if msg.topic in h.clients[c].subscriptions then
          SetClient(h, c, h.clients[c].(heard := h.clients[c].heard + [msg]))
            .(broadcaster := Writing(msg, h.broadcaster.todo - {c}, c))
        else h.(broadcaster := Looping(msg, h.broadcaster.todo - {c}))
      else h
    case Write =>
      if h.broadcaster.Writing? && h.broadcaster.to < |h.clients| then
        WriteMessage(h, h.broadcaster.to, h.broadcaster.msg)
          .(broadcaster := Looping(h.broadcaster.msg, h.broadcaster.todo))
      else h
    case EndLoop => if h.broadcaster.Looping? && h.broadcaster.todo == {} then h.(broadcaster := Idle) else h
    case _ => h
  }

  function Next(h: Hub, step: Step): Hub {
    match step
    case Connect =>
      if h.broadcaster.Idle? then
        h.(clients := h.clients + [Client({}, [], false, Greeting, [], [], 0)],
           registered := h.registered + {|h.clients|})
      else h
    case Publish(topic, data) => if |h.queue| < BUFFER_SIZE then h.(queue := h.queue + [Update(topic, data)]) else h
    case Greet(c) => if c < |h.clients| then ClientStep(h, c, step) else h
    case Request(c, _, _) => if c < |h.clients| then ClientStep(h, c, step) else h
    case HandleTopic(c) => if c < |h.clients| then ClientStep(h, c, step) else h
    case ReadFails(c) => if c < |h.clients| then ClientStep(h, c, step) else h
    case Remove(c) => if c < |h.clients| then ClientStep(h, c, step) else h
    case Drain(c) => if c < |h.clients| then ClientStep(h, c, step) else h
    case _ => BroadcastStep(h, step)
  }

  function Run(steps: seq<Step>): Hub {
    if steps == [] then Init() else Next(Run(DropLast(steps)), Last(steps))
  }

  // ------------------------------------------------------------------ the invariant

  /** The updates among what has been put into the client's channel. */
  function Updates(client: Client): seq<Message> {
    Filter(client.drained + client.send, (m: Message) => m.Update?)
  }

  /** A check without its write is still under way for this client. */
  predicate InWriting(b: Broadcaster, c: nat) {
    b.Writing? && b.to == c
  }

  /** The part of `heard` whose write has been attempted. */
  function Settled(b: Broadcaster, c: nat, client: Client): seq<Message> {
    if InWriting(b, c) && client.heard != [] then DropLast(client.heard) else client.heard
  }

  /** The announcements this client has been checked for. */
  function CheckedFor(h: Hub, c: nat): seq<Message> {
    if !h.broadcaster.Idle? && c in h.broadcaster.todo && h.announced != [] then DropLast(h.announced) else h.announced
  }

  ghost predicate ClientOk(client: Client, c: nat, registered: set<nat>, b: Broadcaster, checkedFor: seq<Message>) {
    && (c in registered <==> !client.reader.Gone?)
    && (client.closed <==> client.reader.Gone?)
    && client.subscriptions <= VALID_TOPICS
    && |client.send| <= BUFFER_SIZE
    && (InWriting(b, c) ==> client.heard != [] && Last(client.heard) == b.msg && c in registered)
    && IsSubsequence(Updates(client), Settled(b, c, client))
    && |Updates(client)| + client.dropped == |Settled(b, c, client)|
    && IsSubsequence(client.heard, checkedFor)
  }

  ghost predicate Inv(h: Hub) {
    && !h.panicked
    && |h.queue| <= BUFFER_SIZE
    && (forall m :: m in h.queue ==> m.Update?)
    && (forall c :: c in h.registered ==> c < |h.clients|)
    && (!h.broadcaster.Idle? ==>
          && h.announced != [] && Last(h.announced) == h.broadcaster.msg && h.broadcaster.msg.Update?
          && h.broadcaster.todo <= h.registered)
    && (h.broadcaster.Writing? ==> h.broadcaster.to !in h.broadcaster.todo && h.broadcaster.to < |h.clients|)
    && (forall c :: 0 <= c < |h.clients| ==> ClientOk(h.clients[c], c, h.registered, h.broadcaster, CheckedFor(h, c)))
  }

  lemma {:induction false} UpdatesAfterSend(client: Client, msg: Message)
    ensures var sent := client.(send := TrySend(client.send, msg));
            Updates(sent) == Updates(client) + (if msg.Update? && |client.send| < BUFFER_SIZE then [msg] else [])
  {
    if |client.send| < BUFFER_SIZE {
      assert client.drained + (client.send + [msg]) == (client.drained + client.send) + [msg];
      FilterAppend(client.drained + client.send, msg, (m: Message) => m.Update?);
    }
  }

  lemma {:induction false} ControlLeavesUpdates(client: Client, client': Client, msg: Message)
    requires client'.drained == client.drained && msg.Control?
    requires client'.send == client.send || client'.send == TrySend(client.send, msg)
    ensures Updates(client') == Updates(client)
  {
    UpdatesAfterSend(client, msg);
    assert Updates(client') == Updates(client.(send := client'.send));
  }

  /** A step that touches one client, neither the broadcaster nor the announcements. */
  ghost predicate OnlyClient(h: Hub, h': Hub, c: nat)
    requires c < |h.clients|
  {
    && |h'.clients| == |h.clients| && h' == h.(clients := h.clients[c := h'.clients[c]], registered := h'.registered)
    && (h'.registered == h.registered || (h'.registered == h.registered - {c} && h.broadcaster.Idle?))
  }

  lemma {:induction false} OnlyClientKeepsInv(h: Hub, h': Hub, c: nat)
    requires Inv(h) && c < |h.clients| && OnlyClient(h, h', c)
    requires ClientOk(h'.clients[c], c, h'.registered, h.broadcaster, CheckedFor(h, c))
    ensures Inv(h')
  {
    forall d | 0 <= d < |h'.clients|
      ensures ClientOk(h'.clients[d], d, h'.registered, h'.broadcaster, CheckedFor(h', d))
    {
      assert ClientOk(h.clients[d], d, h.registered, h.broadcaster, CheckedFor(h, d));
    }
  }

  lemma {:induction false} DrainKeepsInv(h: Hub, c: nat)
    requires Inv(h) && c < |h.clients| && h.clients[c].send != []
    ensures Inv(ClientStep(h, c, Drain(c)))
  {
    var client, h' := h.clients[c], ClientStep(h, c, Drain(c));
    assert ClientOk(client, c, h.registered, h.broadcaster, CheckedFor(h, c));
    assert h'.clients[c].drained + h'.clients[c].send == client.drained + client.send;
    OnlyClientKeepsInv(h, h', c);
  }

  lemma {:induction false} TalkKeepsInv(h: Hub, c: nat, step: Step)
    requires Inv(h) && c < |h.clients| && (step.Greet? || step.Request? || step.ReadFails?)
    ensures Inv(ClientStep(h, c, step))
  {
    var client, h' := h.clients[c], ClientStep(h, c, step);
    assert ClientOk(client, c, h.registered, h.broadcaster, CheckedFor(h, c));
    ControlLeavesUpdates(client, h'.clients[c], Control("connected", "system"));
    OnlyClientKeepsInv(h, h', c);
  }

  ghost predicate Handled(client: Client, client': Client, registered: set<nat>, registered': set<nat>) {
    && registered' == registered && client'.reader != Gone && client'.closed == client.closed
    && client'.drained == client.drained && client'.heard == client.heard && client'.dropped == client.dropped
    && client'.subscriptions <= VALID_TOPICS
    && (client'.send == client.send || exists kind, topic :: client'.send == TrySend(client.send, Control(kind, topic)))
  }

  /** What handling one topic does to the client itself. */
  lemma {:induction false} HandleClient(h: Hub, c: nat)
    requires c < |h.clients| && h.clients[c].reader.Handling?
    requires !h.clients[c].closed && h.clients[c].subscriptions <= VALID_TOPICS
    ensures var h' := HandledTopic(h, c);
            OnlyClient(h, h', c) && Handled(h.clients[c], h'.clients[c], h.registered, h'.registered)
  {
    var client, h' := h.clients[c], HandledTopic(h, c);
    var topics, action := client.reader.topics, client.reader.action;
    if topics != [] && topics[0] in VALID_TOPICS && !action.OtherAction? {
      var kind := if action.Subscribe? then "subscribed" else "unsubscribed";
      assert h'.clients[c].send == TrySend(client.send, Control(kind, topics[0]));
    }
  }

  lemma {:induction false} HandleKeepsInv(h: Hub, c: nat)
    requires Inv(h) && c < |h.clients| && h.clients[c].reader.Handling?
    ensures Inv(HandledTopic(h, c))
  {
    var client, h' := h.clients[c], HandledTopic(h, c);
    assert ClientOk(client, c, h.registered, h.broadcaster, CheckedFor(h, c));
    HandleClient(h, c);
    if h'.clients[c].send == client.send {
      ControlLeavesUpdates(client, h'.clients[c], Control("", ""));
    } else {
      var kind, topic :| h'.clients[c].send == TrySend(client.send, Control(kind, topic));
      ControlLeavesUpdates(client, h'.clients[c], Control(kind, topic));
    }
    OnlyClientKeepsInv(h, h', c);
  }

  lemma {:induction false} RemoveKeepsInv(h: Hub, c: nat)
    requires Inv(h) && c < |h.clients|
    ensures Inv(ClientStep(h, c, Remove(c)))
  {
    var client, h' := h.clients[c], ClientStep(h, c, Remove(c));
    assert ClientOk(client, c, h.registered, h.broadcaster, CheckedFor(h, c));
    OnlyClientKeepsInv(h, h', c);
  }

  lemma {:induction false} CheckKeepsOthers(h: Hub, c: nat, d: nat)
    requires Inv(h) && d < |h.clients| && d != c
    ensures var h' := BroadcastStep(h, Check(c));
            |h'.clients| == |h.clients| && ClientOk(h'.clients[d], d, h'.registered, h'.broadcaster, CheckedFor(h', d))
  {
    var h' := BroadcastStep(h, Check(c));
    assert ClientOk(h.clients[d], d, h.registered, h.broadcaster, CheckedFor(h, d));
    assert h'.clients[d] == h.clients[d] && CheckedFor(h', d) == CheckedFor(h, d);
  }

  lemma {:induction false} HearsNothing(
      client: Client, c: nat, registered: set<nat>, b: Broadcaster, b': Broadcaster, announced: seq<Message>)
    requires announced != [] && ClientOk(client, c, registered, b, DropLast(announced)) && !InWriting(b, c)
        && !InWriting(b', c)
    ensures ClientOk(client, c, registered, b', announced)
  {
    SubsequenceAppendRight(client.heard, DropLast(announced), Last(announced));
    assert DropLast(announced) + [Last(announced)] == announced;
  }

  lemma {:induction false} HearsLast(
      client: Client, c: nat, registered: set<nat>, b: Broadcaster, b': Broadcaster, announced: seq<Message>)
    requires announced != [] && ClientOk(client, c, registered, b, DropLast(announced)) && !InWriting(b, c)
    requires InWriting(b', c) && b'.msg == Last(announced) && c in registered
    ensures ClientOk(client.(heard := client.heard + [Last(announced)]), c, registered, b', announced)
  {
    var client' := client.(heard := client.heard + [Last(announced)]);
    SubsequenceAppendBoth(client.heard, DropLast(announced), Last(announced));
    assert DropLast(announced) + [Last(announced)] == announced;
    assert DropLast(client'.heard) == client.heard && Updates(client') == Updates(client);
  }

  lemma {:induction false} CheckKeepsChecked(h: Hub, c: nat)
    requires Inv(h) && c < |h.clients| && h.broadcaster.Looping? && c in h.broadcaster.todo
        && !h.clients[c].reader.Handling?
    ensures var h' := BroadcastStep(h, Check(c));
            |h'.clients| == |h.clients| && ClientOk(h'.clients[c], c, h'.registered, h'.broadcaster, CheckedFor(h', c))
  {
    var client, h' := h.clients[c], BroadcastStep(h, Check(c));
    assert ClientOk(client, c, h.registered, h.broadcaster, CheckedFor(h, c));
    if h'.broadcaster.Writing? {
      HearsLast(client, c, h.registered, h.broadcaster, h'.broadcaster, h.announced);
    } else {
      HearsNothing(client, c, h.registered, h.broadcaster, h'.broadcaster, h.announced);
    }
  }

  lemma {:induction false} CheckKeepsInv(h: Hub, c: nat)
    requires Inv(h)
    ensures Inv(BroadcastStep(h, Check(c)))
  {
    forall d | 0 <= d < |h.clients|
      ensures var h' := BroadcastStep(h, Check(c));
              |h'.clients| == |h.clients|
                  && ClientOk(h'.clients[d], d, h'.registered, h'.broadcaster, CheckedFor(h', d))
    {
      if BroadcastStep(h, Check(c)) == h {
        assert ClientOk(h.clients[d], d, h.registered, h.broadcaster, CheckedFor(h, d));
      } else if d == c {
        CheckKeepsChecked(h, c);
      } else {
        CheckKeepsOthers(h, c, d);
      }
    }
  }

  /** The client that the update is written to: an open channel, and now everything heard is settled. */
  lemma {:induction false} WriteKeepsWritten(h: Hub)
    requires Inv(h) && h.broadcaster.Writing?
    ensures var c, h' := h.broadcaster.to, BroadcastStep(h, Write);
            && !h'.panicked && |h'.clients| == |h.clients|
            && ClientOk(h'.clients[c], c, h'.registered, h'.broadcaster, CheckedFor(h', c))
  {
    var c, msg := h.broadcaster.to, h.broadcaster.msg;
    var client := h.clients[c];
    assert ClientOk(client, c, h.registered, h.broadcaster, CheckedFor(h, c));
    UpdatesAfterSend(client, msg);
    var sent := BroadcastStep(h, Write).clients[c];
    assert Updates(sent) == Updates(client.(send := sent.send));
    assert client.heard == DropLast(client.heard) + [msg];
    SubsequenceAppendBoth(Updates(client), DropLast(client.heard), msg);
    SubsequenceAppendRight(Updates(client), DropLast(client.heard), msg);
  }

  lemma {:induction false} WriteKeepsInv(h: Hub)
    requires Inv(h)
    ensures Inv(BroadcastStep(h, Write))
  {
    var h' := BroadcastStep(h, Write);
    if h.broadcaster.Writing? {
      WriteKeepsWritten(h);
      forall d | 0 <= d < |h'.clients|
        ensures ClientOk(h'.clients[d], d, h'.registered, h'.broadcaster, CheckedFor(h', d))
      {
        if d != h.broadcaster.to {
          assert ClientOk(h.clients[d], d, h.registered, h.broadcaster, CheckedFor(h, d));
        }
      }
    }
  }

  lemma {:induction false} TakeKeepsInv(h: Hub)
    requires Inv(h)
    ensures Inv(BroadcastStep(h, TakeUpdate)) && Inv(BroadcastStep(h, EndLoop))
  {
    var h' := BroadcastStep(h, TakeUpdate);
    forall d | 0 <= d < |h'.clients|
      ensures ClientOk(h'.clients[d], d, h'.registered, h'.broadcaster, CheckedFor(h', d))
    {
      assert ClientOk(h.clients[d], d, h.registered, h.broadcaster, CheckedFor(h, d));
      if h' != h {
        assert DropLast(h'.announced) == h.announced;
        SubsequenceAppendRight(h.clients[d].heard, h.announced, h.queue[0]);
      }
    }
    var h'' := BroadcastStep(h, EndLoop);
    forall d | 0 <= d < |h''.clients|
      ensures ClientOk(h''.clients[d], d, h''.registered, h''.broadcaster, CheckedFor(h'', d))
    {
      assert ClientOk(h.clients[d], d, h.registered, h.broadcaster, CheckedFor(h, d));
    }
  }

  lemma {:induction false} ConnectKeepsInv(h: Hub, step: Step)
    requires Inv(h) && (step.Connect? || step.Publish?)
    ensures Inv(Next(h, step))
  {
    var h' := Next(h, step);
    forall d | 0 <= d < |h'.clients|
      ensures ClientOk(h'.clients[d], d, h'.registered, h'.broadcaster, CheckedFor(h', d))
    {
      if d < |h.clients| {
        assert ClientOk(h.clients[d], d, h.registered, h.broadcaster, CheckedFor(h, d));
      }
    }
  }

  lemma {:induction false} NextKeepsInv(h: Hub, step: Step)
    requires Inv(h)
    ensures Inv(Next(h, step))
  {
    match step
    case Connect => ConnectKeepsInv(h, step);
    case Publish(_, _) => ConnectKeepsInv(h, step);
    case Greet(c) => if c < |h.clients| { TalkKeepsInv(h, c, step); }
    case Request(c, _, _) => if c < |h.clients| { TalkKeepsInv(h, c, step); }
    case HandleTopic(c) => if c < |h.clients| && h.clients[c].reader.Handling? { HandleKeepsInv(h, c); }
    case ReadFails(c) => if c < |h.clients| { TalkKeepsInv(h, c, step); }
    case Remove(c) => if c < |h.clients| { RemoveKeepsInv(h, c); }
    case Drain(c) => if c < |h.clients| && h.clients[c].send != [] { DrainKeepsInv(h, c); }
    case Check(c) => CheckKeepsInv(h, c);
    case Write => WriteKeepsInv(h);
    case _ => TakeKeepsInv(h);
  }

  lemma {:induction false} ReachableInv(steps: seq<Step>)
    ensures Inv(Run(steps))
  {
    if steps != [] {
      ReachableInv(DropLast(steps));
      NextKeepsInv(Run(DropLast(steps)), Last(steps));
    }
  }

  /**
   * Safety in every interleaving: nothing is sent on a closed channel and no channel is closed twice; a
   * channel is closed exactly when its client has been removed; at most 256 messages wait in a channel;
   * and the updates a client was given are, in order, some of those broadcast while it was subscribed,
   * which in turn are some of all those announced.
   */
  lemma {:induction false} HubSafety(steps: seq<Step>)
    ensures var h := Run(steps);
            && !h.panicked
            && forall c :: 0 <= c < |h.clients| ==>
                 var client := h.clients[c];
                 && (client.closed <==> client.reader.Gone?) && (c in h.registered <==> !client.closed)
                 && |client.send| <= BUFFER_SIZE
                 && IsSubsequence(Updates(client), client.heard)
                 && IsSubsequence(client.heard, h.announced)
  {
    ReachableInv(steps);
    var h := Run(steps);
    forall c | 0 <= c < |h.clients|
      ensures IsSubsequence(Updates(h.clients[c]), h.clients[c].heard) && IsSubsequence(h.clients[c].heard, h.announced)
    {
      var client := h.clients[c];
      assert ClientOk(client, c, h.registered, h.broadcaster, CheckedFor(h, c));
      if client.heard != [] {
        assert client.heard == DropLast(client.heard) + [Last(client.heard)];
        SubsequenceAppendRight(Updates(client), Settled(h.broadcaster, c, client), Last(client.heard));
      }
      if h.announced != [] {
        assert h.announced == DropLast(h.announced) + [Last(h.announced)];
        SubsequenceAppendRight(client.heard, CheckedFor(h, c), Last(h.announced));
      }
    }
    forall c | 0 <= c < |h.clients|
      ensures var client := h.clients[c];
              (client.closed <==> client.reader.Gone?) && (c in h.registered <==> !client.closed)
                  && |client.send| <= BUFFER_SIZE
    {
      assert ClientOk(h.clients[c], c, h.registered, h.broadcaster, CheckedFor(h, c));
    }
  }

  /** The step sends on a closed channel or closes one that is closed. */
  predicate Panics(h: Hub, step: Step) {
    match step
    case Greet(c) => c < |h.clients| && h.clients[c].reader.Greeting? && h.clients[c].closed
    case HandleTopic(c) =>
      && c < |h.clients| && h.clients[c].reader.Handling? && h.clients[c].closed
      && h.clients[c].reader.topics != [] && h.clients[c].reader.topics[0] in VALID_TOPICS
      && h.clients[c].reader.action != OtherAction
    case Remove(c) =>
      && c < |h.clients| && h.clients[c].reader.Leaving? && h.broadcaster.Idle?
      && c in h.registered && h.clients[c].closed
    case Write => h.broadcaster.Writing? && h.broadcaster.to < |h.clients| && h.clients[h.broadcaster.to].closed
    case _ => false
  }

  lemma HandlingPanics(h: Hub, c: nat)
    requires c < |h.clients| && h.clients[c].reader.Handling?
    ensures HandledTopic(h, c).panicked <==> h.panicked || Panics(h, HandleTopic(c))
  {
  }

  /** `panicked` is set by exactly these steps, so `HubSafety` says that none of them ever happens. */
  lemma {:induction false} PanicIff(h: Hub, step: Step)
    ensures Next(h, step).panicked <==> h.panicked || Panics(h, step)
  {
    if step.HandleTopic? && step.c < |h.clients| && h.clients[step.c].reader.Handling? {
      HandlingPanics(h, step.c);
    }
  }

  lemma {:induction false} HandlingHearsNothing(h: Hub, d: nat, c: nat)
    requires c < |h.clients| && d < |h.clients| && h.clients[d].reader.Handling?
    ensures |HandledTopic(h, d).clients| == |h.clients| && HandledTopic(h, d).clients[c].heard == h.clients[c].heard
  {
  }

  lemma {:induction false} ClientStepsHearNothing(h: Hub, d: nat, step: Step, c: nat)
    requires c < |h.clients| && d < |h.clients|
    ensures |ClientStep(h, d, step).clients| == |h.clients|
        && ClientStep(h, d, step).clients[c].heard == h.clients[c].heard
  {
    if step.HandleTopic? && h.clients[d].reader.Handling? {
      HandlingHearsNothing(h, d, c);
    }
  }

  /** The broadcaster reaches this client and finds it subscribed; it waits while a request is being handled. */
  predicate Hears(h: Hub, step: Step, c: nat)
    requires c < |h.clients|
  {
    && step == Check(c) && h.broadcaster.Looping? && c in h.broadcaster.todo && !h.clients[c].reader.Handling?
    && h.broadcaster.msg.topic in h.clients[c].subscriptions
  }

  /**
   * `heard` is what the history says: it grows, by the current update, exactly if the broadcaster reaches the
   * client while it is subscribed to the update's topic.
   */
  lemma {:induction false} HeardOnlyWhileSubscribed(h: Hub, step: Step, c: nat)
    requires Inv(h) && c < |h.clients|
    ensures var h' := Next(h, step);
            && c < |h'.clients|
            && (if Hears(h, step, c) then
                  && h.announced != [] && Last(h.announced) == h.broadcaster.msg
                  && h'.clients[c].heard == h.clients[c].heard + [Last(h.announced)]
                else h'.clients[c].heard == h.clients[c].heard)
  {
    match step
    case Greet(d) => if d < |h.clients| { ClientStepsHearNothing(h, d, step, c); }
    case Request(d, _, _) => if d < |h.clients| { ClientStepsHearNothing(h, d, step, c); }
    case HandleTopic(d) => if d < |h.clients| { ClientStepsHearNothing(h, d, step, c); }
    case ReadFails(d) => if d < |h.clients| { ClientStepsHearNothing(h, d, step, c); }
    case Remove(d) => if d < |h.clients| { ClientStepsHearNothing(h, d, step, c); }
    case Drain(d) => if d < |h.clients| { ClientStepsHearNothing(h, d, step, c); }
    case _ =>
  }

  /** A client whose channel was never full when an update came has been given every update it should hear. */
  lemma {:induction false} NothingSkippedWithoutDrops(steps: seq<Step>, c: nat)
    requires var h := Run(steps); c < |h.clients| && h.broadcaster.Idle?
    ensures var client := Run(steps).clients[c];
            client.dropped == 0 <==> Updates(client) == client.heard
  {
    ReachableInv(steps);
    var h := Run(steps);
    assert ClientOk(h.clients[c], c, h.registered, h.broadcaster, CheckedFor(h, c));
    if h.clients[c].dropped == 0 {
      SubsequenceSameLength(Updates(h.clients[c]), h.clients[c].heard);
    }
  }

  // ------------------------------------------------------------------ the structs

  /** The subscriptions after a whole request. */
  function Requested(subscriptions: set<Topic>, action: Action, topics: seq<Topic>): set<Topic> {
    match action
    case Subscribe => subscriptions + (set t | t in topics && t in VALID_TOPICS)
    case Unsubscribe => subscriptions - (set t | t in topics && t in VALID_TOPICS)
    case OtherAction => subscriptions
  }

  /** The confirmations of a request: one for each valid topic, in order, unless the action is unknown. */
  function Confirmations(action: Action, topics: seq<Topic>): seq<Message> {
    if topics == [] || action.OtherAction? then []
    else
      Confirmations(action, DropLast(topics))
        + if Last(topics) in VALID_TOPICS then [Control(Kind(action), Last(topics))] else []
  }

  function TrySendAll(send: seq<Message>, msgs: seq<Message>): seq<Message> {
    if msgs == [] then send else TrySend(TrySendAll(send, DropLast(msgs)), Last(msgs))
  }

  function Kind(action: Action): string {
    if action.Subscribe? then "subscribed" else "unsubscribed"
  }

  lemma {:induction false} TrySendAllAppend(send: seq<Message>, msgs: seq<Message>, msg: Message)
    ensures TrySendAll(send, msgs + [msg]) == TrySend(TrySendAll(send, msgs), msg)
  {
    assert DropLast(msgs + [msg]) == msgs;
  }

  lemma {:induction false} RequestedAppend(was: set<Topic>, action: Action, topics: seq<Topic>, topic: Topic)
    ensures Requested(was, action, topics + [topic])
         == if topic !in VALID_TOPICS || action.OtherAction? then Requested(was, action, topics)
            else if action.Subscribe? then Requested(was, action, topics) + {topic}
            else Requested(was, action, topics) - {topic}
  {
    assert forall t :: t in topics + [topic] <==> t in topics || t == topic;
  }

  /** One more topic of a request. */
  lemma {:induction false} RequestAppend(
      was: set<Topic>, send: seq<Message>, action: Action, topics: seq<Topic>, topic: Topic)
    ensures var acts := topic in VALID_TOPICS && !action.OtherAction?;
            && Requested(was, action, topics + [topic]) ==
                 (if !acts then Requested(was, action, topics)
                  else if action.Subscribe? then Requested(was, action, topics) + {topic}
                  else Requested(was, action, topics) - {topic})
            && TrySendAll(send, Confirmations(action, topics + [topic])) ==
                 (if !acts then TrySendAll(send, Confirmations(action, topics))
                  else TrySend(TrySendAll(send, Confirmations(action, topics)), Control(Kind(action), topic)))
  {
    RequestedAppend(was, action, topics, topic);
    ConfirmationsAppend(action, topics, topic);
    TrySendAllAppend(send, Confirmations(action, topics), Control(Kind(action), topic));
  }

  lemma {:induction false} ConfirmationsAppend(action: Action, topics: seq<Topic>, topic: Topic)
    ensures Confirmations(action, topics + [topic])
         == if topic in VALID_TOPICS && !action.OtherAction?
             then Confirmations(action, topics) + [Control(Kind(action), topic)]
            else Confirmations(action, topics)
  {
    assert DropLast(topics + [topic]) == topics;
  }

  // ------------------------------------------------------------------ calls that nobody interrupts

  /** The broadcaster's loop over these clients: a check of each, and a write if it is subscribed. */
  function VisitAll(h: Hub, order: seq<nat>): Hub {
    if order == [] then h else Next(Next(VisitAll(h, DropLast(order)), Check(Last(order))), Write)
  }

  /** What a broadcast leaves in the channel of a client that it has visited. */
  function Given(client: Client, msg: Message): seq<Message> {
    if msg.topic in client.subscriptions then TrySend(client.send, msg) else client.send
  }

  ghost predicate Visited(h: Hub, t: Hub, msg: Message, order: seq<nat>) {
    && |t.clients| == |h.clients| && t.registered == h.registered && !t.panicked
    && (forall c :: 0 <= c < |h.clients| ==>
          && t.clients[c].subscriptions == h.clients[c].subscriptions && t.clients[c].reader == h.clients[c].reader
          && t.clients[c].closed == h.clients[c].closed && t.clients[c].drained == h.clients[c].drained
          && t.clients[c].send == if c in order then Given(h.clients[c], msg) else h.clients[c].send)
  }

  ghost predicate Undisturbed(h: Hub, order: seq<nat>) {
    && Inv(h) && h.broadcaster.Idle? && h.queue != [] && Distinct(order)
    && forall c :: c in order ==> c in h.registered && !h.clients[c].reader.Handling?
  }

  lemma {:induction false} VisitOneMore(h: Hub, t: Hub, msg: Message, order: seq<nat>, c: nat)
    requires Undisturbed(h, order + [c]) && Visited(h, t, msg, order)
    requires t.broadcaster.Looping? && t.broadcaster.msg == msg && c in t.broadcaster.todo
    ensures var n := Next(Next(t, Check(c)), Write);
            && Visited(h, n, msg, order + [c]) && n.queue == t.queue
            && n.broadcaster == Looping(msg, t.broadcaster.todo - {c})
  {
    assert (order + [c])[|order|] == c && c in order + [c];
    assert forall d :: d in order + [c] <==> d in order || d == c;
    assert c !in order by {
      assert forall i :: 0 <= i < |order| ==> (order + [c])[i] == order[i];
    }
    assert ClientOk(h.clients[c], c, h.registered, h.broadcaster, CheckedFor(h, c));
  }

  lemma {:induction false} LoopVisits(h: Hub, order: seq<nat>)
    requires Undisturbed(h, order)
    ensures var t := VisitAll(Next(h, TakeUpdate), order);
            && Visited(h, t, h.queue[0], order) && t.queue == h.queue[1..]
            && t.broadcaster == Looping(h.queue[0], h.registered - ToSet(order))
  {
    if order == [] {
      assert h.registered - ToSet(order) == h.registered;
    } else {
      var rest, c := DropLast(order), Last(order);
      assert order == rest + [c];
      assert Undisturbed(h, rest) by {
        assert forall d :: d in rest ==> d in order;
      }
      LoopVisits(h, rest);
      assert c !in rest && c in order;
      VisitOneMore(h, VisitAll(Next(h, TakeUpdate), rest), h.queue[0], rest, c);
      assert ToSet(order) == ToSet(rest) + {c};
      assert h.registered - ToSet(order) == h.registered - ToSet(rest) - {c};
    }
  }

  /**
   * Left undisturbed, taking an update and visiting the registered clients, in any order, is the method
   * `Broadcast` below: every subscribed client is sent the update, and no other channel changes.
   */
  lemma {:induction false} UninterruptedBroadcast(h: Hub, order: seq<nat>)
    requires Undisturbed(h, order) && ToSet(order) == h.registered
    ensures var t := Next(VisitAll(Next(h, TakeUpdate), order), EndLoop);
            && t.broadcaster.Idle? && t.queue == h.queue[1..] && |t.clients| == |h.clients|
            && t.registered == h.registered && !t.panicked
            && forall c :: 0 <= c < |h.clients| ==>
                 && t.clients[c].subscriptions == h.clients[c].subscriptions
                 && t.clients[c].send ==
                      if c in h.registered && h.queue[0].topic in h.clients[c].subscriptions
                      then TrySend(h.clients[c].send, h.queue[0]) else h.clients[c].send
  {
    LoopVisits(h, order);
    assert forall c :: c in order <==> c in ToSet(order);
    assert h.registered - ToSet(order) == {};
  }

  function HandleTopics(h: Hub, c: nat, n: nat): Hub {
    if n == 0 then h else Next(HandleTopics(h, c, n - 1), HandleTopic(c))
  }

  /** `t` is `h` but for what a request changes at client `c`. */
  ghost predicate OnlyAnswers(h: Hub, t: Hub, c: nat, subscriptions: set<Topic>, send: seq<Message>, reader: Reader)
    requires c < |h.clients|
  {
    && |t.clients| == |h.clients| && t == h.(clients := h.clients[c := t.clients[c]])
    && t.clients[c].subscriptions == subscriptions && t.clients[c].send == send && t.clients[c].reader == reader
    && !t.clients[c].closed
  }

  /** One topic of a request. */
  lemma {:induction false} AnswersOne(h: Hub, c: nat, action: Action, topics: seq<Topic>)
    requires c < |h.clients| && !h.clients[c].closed && h.clients[c].reader == Handling(action, topics) && topics != []
    ensures var client, topic := h.clients[c], topics[0];
            var acts := topic in VALID_TOPICS && !action.OtherAction?;
            OnlyAnswers(h, Next(h, HandleTopic(c)), c,
                        if !acts then client.subscriptions
                        else if action.Subscribe? then client.subscriptions + {topic}
                        else client.subscriptions - {topic},
                        if acts then TrySend(client.send, Control(Kind(action), topic)) else client.send,
                        Handling(action, topics[1..]))
  {
  }

  lemma AnswersCompose(h: Hub, t: Hub, u: Hub, c: nat, subscriptions: set<Topic>, send: seq<Message>, reader: Reader)
    requires c < |h.clients| && |t.clients| == |h.clients| && t == h.(clients := h.clients[c := t.clients[c]])
    requires OnlyAnswers(t, u, c, subscriptions, send, reader)
    ensures OnlyAnswers(h, u, c, subscriptions, send, reader)
  {
  }

  lemma {:induction false} RequestPart(h: Hub, c: nat, action: Action, topics: seq<Topic>, n: nat)
    requires c < |h.clients| && !h.clients[c].closed && h.clients[c].reader == Handling(action, topics) && n <= |topics|
    ensures var client := h.clients[c];
            OnlyAnswers(h, HandleTopics(h, c, n), c, Requested(client.subscriptions, action, topics[..n]),
                        TrySendAll(client.send, Confirmations(action, topics[..n])), Handling(action, topics[n..]))
  {
    var client := h.clients[c];
    if n == 0 {
      assert topics[..0] == [] && topics[0..] == topics;
      assert h.clients[c := client] == h.clients;
    } else {
      var before, t := topics[..n - 1], HandleTopics(h, c, n - 1);
      RequestPart(h, c, action, topics, n - 1);
      assert topics[..n] == before + [topics[n - 1]];
      assert topics[n - 1..][0] == topics[n - 1] && topics[n - 1..][1..] == topics[n..];
      RequestAppend(client.subscriptions, client.send, action, before, topics[n - 1]);
      AnswersOne(t, c, action, topics[n - 1..]);
      AnswersCompose(h, t, Next(t, HandleTopic(c)), c, Requested(client.subscriptions, action, topics[..n]),
                     TrySendAll(client.send, Confirmations(action, topics[..n])), Handling(action, topics[n..]));
    }
  }

  /** Left undisturbed, the steps of a request are the method `HandleSubscription` below. */
  lemma {:induction false} UninterruptedRequest(h: Hub, c: nat, action: Action, topics: seq<Topic>)
    requires c < |h.clients| && !h.clients[c].closed && h.clients[c].reader.Reading?
    ensures var client := h.clients[c];
            OnlyAnswers(h, HandleTopics(Next(h, Request(c, action, topics)), c, |topics| + 1), c,
                        Requested(client.subscriptions, action, topics),
                        TrySendAll(client.send, Confirmations(action, topics)), Reading)
  {
    RequestPart(Next(h, Request(c, action, topics)), c, action, topics, |topics|);
    assert topics[..|topics|] == topics && topics[|topics|..] == [];
  }

  /** Whole requests in the client's terms: which topics it has then, and what it is told. */
  lemma {:induction false} RequestMeans(was: set<Topic>, action: Action, topics: seq<Topic>, topic: Topic)
    ensures var valid := topic == "metrics" || topic == "logs" || topic == "alerts" || topic == "proposals";
            && (topic in Requested(was, Subscribe, topics) <==> topic in was || (topic in topics && valid))
            && (topic in Requested(was, Unsubscribe, topics) <==> topic in was && !(topic in topics && valid))
    ensures Requested(was, OtherAction, topics) == was && Confirmations(OtherAction, topics) == []
  {
  }

  lemma {:induction false} ConfirmsEachValid(action: Action, topics: seq<Topic>)
    requires !action.OtherAction?
    ensures var valid := Filter(topics, (t: Topic) => t in VALID_TOPICS);
            && |Confirmations(action, topics)| == |valid|
            && forall i :: 0 <= i < |valid| ==>
                 Confirmations(action, topics)[i] ==
                   if action == Subscribe then Control("subscribed", valid[i]) else Control("unsubscribed", valid[i])
  {
    if topics != [] {
      ConfirmsEachValid(action, DropLast(topics));
      assert DropLast(topics) + [Last(topics)] == topics;
      FilterAppend(DropLast(topics), Last(topics), (t: Topic) => t in VALID_TOPICS);
    }
  }

  /** A new connection: no subscriptions, a welcome message, and nobody else is touched. */
  lemma {:induction false} UninterruptedRegister(h: Hub)
    requires h.broadcaster.Idle?
    ensures var c, t := |h.clients|, Next(Next(h, Connect), Greet(|h.clients|));
            && t == h.(clients := h.clients + [Client({}, [Control("connected", "system")], false, Reading, [], [], 0)],
                       registered := h.registered + {c})
  {
    assert [] + [Control("connected", "system")] == [Control("connected", "system")];
  }

  /** The updates that the Broadcast methods put into the queue; a full queue refuses them. */
  function Published(steps: seq<Step>): seq<Message> {
    if steps == [] then []
    else
      var before := Published(DropLast(steps));
      match Last(steps)
      case Publish(topic, data) => if |Run(DropLast(steps)).queue| < 256 then before + [Update(topic, data)] else before
      case _ => before
  }

  lemma {:induction false} QueueMoves(h: Hub, step: Step)
    ensures Next(h, step).announced + Next(h, step).queue
         == (h.announced + h.queue) + (if step.Publish? && |h.queue| < 256 then [Update(step.topic, step.data)] else [])
  {
    if step.TakeUpdate? && h.queue != [] {
      assert h.announced + [h.queue[0]] + h.queue[1..] == h.announced + h.queue;
    } else if step.HandleTopic? && step.c < |h.clients| && h.clients[step.c].reader.Handling? {
      HandlingLeavesQueue(h, step.c);
    }
  }

  lemma HandlingLeavesQueue(h: Hub, c: nat)
    requires c < |h.clients| && h.clients[c].reader.Handling?
    ensures HandledTopic(h, c).announced == h.announced && HandledTopic(h, c).queue == h.queue
  {
  }

  /** In every run what was published and accepted has been announced or waits, all of it and in order. */
  lemma {:induction false} AllPublishedAnnounced(steps: seq<Step>)
    ensures Run(steps).announced + Run(steps).queue == Published(steps)
  {
    if steps != [] {
      AllPublishedAnnounced(DropLast(steps));
      QueueMoves(Run(DropLast(steps)), Last(steps));
    }
  }

  /** Only a client that is reading can leave; its removal takes it out of the map for good. */
  lemma {:induction false} UninterruptedLeave(h: Hub, c: nat)
    requires Inv(h) && c < |h.clients| && h.broadcaster.Idle?
    ensures h.clients[c].reader != Reading ==> Next(h, ReadFails(c)) == h
    ensures h.clients[c].reader == Reading ==>
              var t := Next(Next(h, ReadFails(c)), Remove(c));
              && t.registered == h.registered - {c}
              && t.clients == h.clients[c := h.clients[c].(reader := Gone, closed := true)]
  {
    assert ClientOk(h.clients[c], c, h.registered, h.broadcaster, CheckedFor(h, c));
    if h.clients[c].reader == Reading {
      var left := Next(h, ReadFails(c));
      NextKeepsInv(h, ReadFails(c));
      UninterruptedRemove(left, c);
      assert left.clients[c := left.clients[c].(reader := Gone, closed := true)]
          == h.clients[c := h.clients[c].(reader := Gone, closed := true)];
    }
  }

  /** A client that leaves: out of the map, its channel closed, what waits in it stays, nobody else is touched. */
  lemma {:induction false} UninterruptedRemove(h: Hub, c: nat)
    requires Inv(h) && c < |h.clients| && h.clients[c].reader.Leaving? && h.broadcaster.Idle?
    ensures var t := Next(h, Remove(c));
            && t.registered == h.registered - {c} && c in h.registered
            && t.clients == h.clients[c := h.clients[c].(reader := Gone, closed := true)]
            && t == h.(clients := t.clients, registered := t.registered)
  {
    assert ClientOk(h.clients[c], c, h.registered, h.broadcaster, CheckedFor(h, c));
  }

  /** What has gone into the channel, taken or waiting, is there in the same order, and at most one message more. */
  ghost predicate Extends(before: Client, after: Client) {
    && before.drained + before.send <= after.drained + after.send
    && |after.drained + after.send| <= |before.drained + before.send| + 1
  }

  lemma SendExtends(client: Client, after: Client, msg: Message)
    requires after.drained == client.drained && (after.send == client.send || after.send == TrySend(client.send, msg))
    ensures Extends(client, after)
  {
    assert after.drained + (client.send + [msg]) == (client.drained + client.send) + [msg];
  }

  lemma {:induction false} HandlingExtends(h: Hub, d: nat)
    requires d < |h.clients| && h.clients[d].reader.Handling?
    ensures |HandledTopic(h, d).clients| == |h.clients|
    ensures Extends(h.clients[d], HandledTopic(h, d).clients[d])
    ensures forall c :: 0 <= c < |h.clients| && c != d ==> HandledTopic(h, d).clients[c] == h.clients[c]
  {
    var topics, action := h.clients[d].reader.topics, h.clients[d].reader.action;
    var topic := if topics == [] then "" else topics[0];
    var msg := if action.Subscribe? then Control("subscribed", topic) else Control("unsubscribed", topic);
    SendExtends(h.clients[d], HandledTopic(h, d).clients[d], msg);
  }

  lemma {:induction false} ClientStepExtends(h: Hub, d: nat, step: Step, c: nat)
    requires d < |h.clients| && c < |h.clients|
    ensures |ClientStep(h, d, step).clients| == |h.clients|
    ensures Extends(h.clients[c], ClientStep(h, d, step).clients[c])
  {
    if step.HandleTopic? && h.clients[d].reader.Handling? {
      HandlingExtends(h, d);
    } else if step.Drain? && c == d && h.clients[c].send != [] {
      var after := ClientStep(h, d, step).clients[c];
      assert after.drained + after.send == h.clients[c].drained + h.clients[c].send;
    } else {
      SendExtends(h.clients[c], ClientStep(h, d, step).clients[c], Control("connected", "system"));
    }
  }

  lemma {:induction false} BroadcastExtends(h: Hub, step: Step, c: nat)
    requires c < |h.clients|
    ensures |BroadcastStep(h, step).clients| == |h.clients|
    ensures Extends(h.clients[c], BroadcastStep(h, step).clients[c])
  {
    var msg := if h.broadcaster.Idle? then Control("", "") else h.broadcaster.msg;
    SendExtends(h.clients[c], BroadcastStep(h, step).clients[c], msg);
  }

  /** Whatever has been put into a channel is taken out in that order, and a step adds at most one message behind. */
  lemma {:induction false} ChannelIsFifo(h: Hub, step: Step, c: nat)
    requires c < |h.clients|
    ensures c < |Next(h, step).clients| && Extends(h.clients[c], Next(h, step).clients[c])
  {
    match step
    case Greet(d) => if d < |h.clients| { ClientStepExtends(h, d, step, c); }
    case Request(d, _, _) => if d < |h.clients| { ClientStepExtends(h, d, step, c); }
    case HandleTopic(d) => if d < |h.clients| { ClientStepExtends(h, d, step, c); }
    case ReadFails(d) => if d < |h.clients| { ClientStepExtends(h, d, step, c); }
    case Remove(d) => if d < |h.clients| { ClientStepExtends(h, d, step, c); }
    case Drain(d) => if d < |h.clients| { ClientStepExtends(h, d, step, c); }
    case Connect =>
    case Publish(_, _) =>
    case _ => BroadcastExtends(h, step, c);
  }

  class WsClient {
    var subscriptions: set<Topic>
    var send: seq<Message>
    var closed: bool

    constructor ()
      ensures subscriptions == {} && send == [] && !closed
    {
      subscriptions, send, closed := {}, [], false;
    }

    method WriteMessage(msg: Message)
      requires !closed
      modifies `send
      ensures send == TrySend(old(send), msg)
      ensures send == old(send) + if |old(send)| < 256 then [msg] else []
    {
      if |send| < BUFFER_SIZE {
        send := send + [msg];
      }
    }

    method HandleSubscription(action: Action, topics: seq<Topic>)
      requires !closed
      modifies `send, `subscriptions
      ensures subscriptions == Requested(old(subscriptions), action, topics)
      ensures send == TrySendAll(old(send), Confirmations(action, topics))
    {
      for i := 0 to |topics|
        invariant subscriptions == Requested(old(subscriptions), action, topics[..i])
        invariant send == TrySendAll(old(send), Confirmations(action, topics[..i]))
      {
        var topic := topics[i];
        assert topics[..i + 1] == topics[..i] + [topic];
        RequestAppend(old(subscriptions), old(send), action, topics[..i], topic);
        if topic in VALID_TOPICS {
          if action == Subscribe {
            subscriptions := subscriptions + {topic};
            WriteMessage(Control("subscribed", topic));
          } else if action == Unsubscribe {
            subscriptions := subscriptions - {topic};
            WriteMessage(Control("unsubscribed", topic));
          }
        }
      }
      assert topics[..|topics|] == topics;
    }
  }

  class Server {
    var wsClients: map<nat, WsClient> // by connection

    /** Clients are distinct objects and their channels are open. */
    ghost predicate Valid()
      reads this, wsClients.Values
    {
      && (forall c :: c in wsClients ==> !wsClients[c].closed)
      && (forall c, d :: c in wsClients && d in wsClients && c != d ==> wsClients[c] != wsClients[d])
    }

    constructor ()
      ensures Valid() && wsClients == map[]
    {
      wsClients := map[];
    }

    method Register(conn: nat) returns (client: WsClient)
      requires Valid() && conn !in wsClients
      modifies this
      ensures Valid() && fresh(client) && wsClients == old(wsClients)[conn := client]
      ensures client.send == [Control("connected", "system")] && client.subscriptions == {}
    {
      client := new WsClient();
      wsClients := wsClients[conn := client];
      client.WriteMessage(Control("connected", "system"));
    }

    /** One iteration of handleWSBroadcast; the map is visited in any order. */
    method Broadcast(msg: Message)
      requires Valid()
      modifies wsClients.Values
      ensures Valid() && wsClients == old(wsClients)
      ensures forall c :: c in wsClients ==>
                && wsClients[c].subscriptions == old(wsClients[c].subscriptions)
                && wsClients[c].send ==
                     if msg.topic in old(wsClients[c].subscriptions) then TrySend(old(wsClients[c].send), msg)
                     else old(wsClients[c].send)
      ensures forall c :: c in wsClients ==>
                wsClients[c].send == old(wsClients[c].send)
                  + if msg.topic in old(wsClients[c].subscriptions) && |old(wsClients[c].send)| < 256 then [msg] else []
    {
      var rest := wsClients.Keys;
      while rest != {}
        invariant rest <= wsClients.Keys && wsClients == old(wsClients) && Valid()
        invariant forall c :: c in wsClients ==> wsClients[c].subscriptions == old(wsClients[c].subscriptions)
        invariant forall c :: c in rest ==> wsClients[c].send == old(wsClients[c].send)
        invariant forall c :: c in wsClients && c !in rest ==>
                    wsClients[c].send ==
                      if msg.topic in old(wsClients[c].subscriptions) then TrySend(old(wsClients[c].send), msg)
                      else old(wsClients[c].send)
        decreases rest
      {
        var c :| c in rest;
        var client := wsClients[c];
        if msg.topic in client.subscriptions {
          client.WriteMessage(msg);
        }
        rest := rest - {c};
      }
    }

    method Remove(conn: nat)
      requires Valid()
      modifies this, if conn in wsClients then {wsClients[conn]} else {}
      ensures Valid() && wsClients == old(wsClients) - {conn}
      ensures conn in old(wsClients) ==>
          old(wsClients)[conn].closed && old(wsClients)[conn].send == old(wsClients[conn].send)
    {
      if conn in wsClients {
        var client := wsClients[conn];
        wsClients := wsClients - {conn};
        client.closed := true;
      } else {
        assert wsClients - {conn} == wsClients;
      }
    }
  }
}
