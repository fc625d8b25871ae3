/**
 The PUB side: subscription lists, the prefix filter with its fast path, subscriber bookkeeping and
 the fan-out of a message to the subscribers' bounded queues.
 */
module PubBackend {
  import opened Wrappers
  import opened Sequences
  import opened Bytes

  type PeerId = nat
  type Topic = Bytes
  type Message = seq<Bytes>

  const PUB_SEND_QUEUE_CAPACITY: nat := 100_000

  // ----- The filter -----

  predicate HasPrefix(frame: Bytes, topic: Topic) {
    |topic| <= |frame| && topic == frame[..|topic|]
  }

  /** Some subscription is a prefix of the frame. */
  predicate AnyPrefix(subscriptions: seq<Topic>, frame: Bytes) {
    exists i :: 0 <= i < |subscriptions| && HasPrefix(frame, subscriptions[i])
  }

  function FirstByte(s: Bytes): Option<byte> {
    if s == [] then None else Some(s[0])
  }

  /** One subscription against the frame, rejected on the first byte when that already differs. */
  predicate FastMatch(topic: Topic, frame: Bytes) {
    match FirstByte(topic)
    case Some(b) => if Some(b) != FirstByte(frame) then false else HasPrefix(frame, topic)
    case None => HasPrefix(frame, topic)
  }

  /** `subscription_matches`. */
  predicate SubscriptionMatches(subscriptions: seq<Topic>, frame: Bytes) {
    if |subscriptions| <= 1 then
      exists i :: 0 <= i < |subscriptions| && HasPrefix(frame, subscriptions[i])
    else
      exists i :: 0 <= i < |subscriptions| && FastMatch(subscriptions[i], frame)
  }

  /** The first-byte filter changes nothing. */
  lemma FastFilterIsAnyPrefix(subscriptions: seq<Topic>, frame: Bytes)
    ensures SubscriptionMatches(subscriptions, frame) <==> AnyPrefix(subscriptions, frame)
  {
    forall i | 0 <= i < |subscriptions|
      ensures FastMatch(subscriptions[i], frame) <==> HasPrefix(frame, subscriptions[i])
    {
      var topic := subscriptions[i];
      if topic != [] && HasPrefix(frame, topic) {
        assert topic[0] == frame[..|topic|][0];
      }
    }
  }

  lemma PrefixIsFront(frame: Bytes, topic: Topic)
    ensures HasPrefix(frame, topic) <==> exists rest :: frame == topic + rest
  {
    if HasPrefix(frame, topic) {
      assert frame == topic + frame[|topic|..];
    }
    if rest :| frame == topic + rest {
      assert frame[..|topic|] == topic;
    }
  }

  /** What the filter lets through: the frames that begin with some subscription, whatever follows it. */
  lemma FilterPassesContinuations(subscriptions: seq<Topic>, frame: Bytes)
    ensures SubscriptionMatches(subscriptions, frame)
        <==> exists i, rest :: 0 <= i < |subscriptions| && frame == subscriptions[i] + rest
  {
    FastFilterIsAnyPrefix(subscriptions, frame);
    if i :| 0 <= i < |subscriptions| && HasPrefix(frame, subscriptions[i]) {
      PrefixIsFront(frame, subscriptions[i]);
      var rest :| frame == subscriptions[i] + rest;
      assert 0 <= i < |subscriptions| && frame == subscriptions[i] + rest;
    }
    if i, rest :| 0 <= i < |subscriptions| && frame == subscriptions[i] + rest {
      PrefixIsFront(frame, subscriptions[i]);
    }
  }

  // ----- Subscribers -----

  /** A subscriber's list, and its queue to the writer task: what was accepted and how much was taken. */
  datatype Subscriber = Subscriber(subscriptions: seq<Topic>, log: seq<Message>, taken: nat, open: bool)

  function NewSubscriber(): Subscriber {
    Subscriber([], [], 0, true)
  }

  function Backlog(s: Subscriber): int {
    |s.log| - s.taken
  }

  predicate Wants(s: Subscriber, m: Message) {
    m != [] && SubscriptionMatches(s.subscriptions, m[0])
  }

  /** `try_send`: a full or closed queue drops the message. */
  function Offer(s: Subscriber, m: Message): Subscriber {
    if s.open && Backlog(s) < PUB_SEND_QUEUE_CAPACITY then s.(log := s.log + [m]) else s
  }

  function Deliver(s: Subscriber, m: Message): Subscriber {
    if Wants(s, m) then Offer(s, m) else s
  }

  function RemoveFirst(topics: seq<Topic>, t: Topic): seq<Topic> {
    if topics == [] then []
    else if topics[0] == t then topics[1..]
    else [topics[0]] + RemoveFirst(topics[1..], t)
  }

  /** `message_received`: a one-frame message starting with 1 subscribes, with 0 unsubscribes. */
  function ApplyControl(topics: seq<Topic>, m: Message): seq<Topic> {
    if |m| != 1 then topics
    else if m[0] == [] then topics
    else if m[0][0] == 1 then topics + [m[0][1..]]
    else if m[0][0] == 0 then RemoveFirst(topics, m[0][1..])
    else topics
  }

  /** `create_subs_message`: a type byte and the topic. */
  function SubscribeFrame(t: Topic): Message {
    [[1] + t]
  }

  function UnsubscribeFrame(t: Topic): Message {
    [[0] + t]
  }

  lemma {:induction false} RemoveFirstIsDecrement(topics: seq<Topic>, t: Topic)
    ensures multiset(RemoveFirst(topics, t)) == multiset(topics) - multiset{t}
  {
    if topics != [] {
      assert topics == [topics[0]] + topics[1..];
      if topics[0] != t {
        RemoveFirstIsDecrement(topics[1..], t);
      }
    }
  }

  /** On the wire a type byte of 1 subscribes and 0 unsubscribes; anything else changes nothing. */
  lemma ControlBytes(topics: seq<Topic>, m: Message)
    ensures forall t: Topic :: m == [[1] + t] ==> ApplyControl(topics, m) == topics + [t]
    ensures forall t: Topic :: m == [[0] + t] ==>
                multiset(ApplyControl(topics, m)) == multiset(topics) - multiset{t}
    ensures |m| != 1 || m[0] == [] || m[0][0] > 1 ==> ApplyControl(topics, m) == topics
  {
    if |m| == 1 && m[0] != [] {
      assert forall t: Topic :: ([1] + t)[1..] == t && ([0] + t)[1..] == t;
      RemoveFirstIsDecrement(topics, m[0][1..]);
    }
  }

  /** The list is a saturating counter for each topic. */
  lemma ControlCounts(topics: seq<Topic>, t: Topic)
    ensures multiset(ApplyControl(topics, SubscribeFrame(t))) == multiset(topics) + multiset{t}
    ensures multiset(ApplyControl(topics, UnsubscribeFrame(t))) == multiset(topics) - multiset{t}
  {
    assert ([1] + t)[1..] == t && ([0] + t)[1..] == t;
    RemoveFirstIsDecrement(topics, t);
  }

  // ----- The backend -----

  class PubSocketBackend {
    var subscribers: map<PeerId, Subscriber>
    var subscriberCount: nat

    /** The count is the size of the map, so a count of zero means that there is nobody to send to. */
    ghost predicate Valid()
      reads this
    {
      subscriberCount == |subscribers|
    }

    constructor ()
      ensures Valid() && subscribers == map[]
    {
      subscribers := map[];
      subscriberCount := 0;
    }

    /** `peer_connected`: a known peer is replaced, with an empty list and a new queue. */
    method PeerConnected(peer: PeerId)
      requires Valid()
      modifies this
      ensures Valid() && subscribers == old(subscribers)[peer := NewSubscriber()]
    {
      var replaced := peer in subscribers;
      subscribers := subscribers[peer := NewSubscriber()];
      assert subscribers.Keys == old(subscribers).Keys + {peer};
      if !replaced {
        subscriberCount := subscriberCount + 1;
      }
    }

    method PeerDisconnected(peer: PeerId)
      requires Valid()
      modifies this
      ensures Valid() && subscribers == old(subscribers) - {peer}
    {
      if peer in subscribers {
        subscribers := subscribers - {peer};
        assert subscribers.Keys == old(subscribers).Keys - {peer};
        subscriberCount := subscriberCount - 1;
      }
    }

    method Shutdown()
      modifies this
      ensures Valid() && subscribers == map[]
    {
      subscribers := map[];
      subscriberCount := 0;
    }

    method MessageReceived(peer: PeerId, m: Message)
      requires Valid()
      modifies this
      ensures Valid()
      ensures subscribers == if peer in old(subscribers)
                             then old(subscribers)[peer := Controlled(old(subscribers)[peer], m)]
                             else old(subscribers)
    {
      if |m| != 1 || m[0] == [] {
        assert peer in subscribers ==> subscribers[peer := subscribers[peer]] == subscribers;
        return;
      }
      var data := m[0];
      if peer in subscribers {
        var entry := subscribers[peer];
        if data[0] == 1 {
          entry := entry.(subscriptions := entry.subscriptions + [data[1..]]);
        } else if data[0] == 0 {
          entry := entry.(subscriptions := RemoveFirst(entry.subscriptions, data[1..]));
        }
        subscribers := subscribers[peer := entry];
        assert subscribers.Keys == old(subscribers).Keys;
      }
    }

    /** `fanout_message`: the loop over the subscribers, in any order. */
    method FanoutMessage(m: Message)
      requires Valid()
      modifies this
      ensures Valid() && subscribers == DeliverAll(old(subscribers), m)
    {
      if m == [] {
        assert DeliverAll(subscribers, m) == subscribers;
        return;
      }
      var left := subscribers.Keys;
      while left != {}
        invariant left <= subscribers.Keys == old(subscribers).Keys && Valid()
        invariant forall p :: p in subscribers ==>
                    subscribers[p] == if p in left then old(subscribers)[p] else Deliver(old(subscribers)[p], m)
        decreases left
      {
        var p :| p in left;
        left := left - {p};
        if SubscriptionMatches(subscribers[p].subscriptions, m[0]) {
          subscribers := subscribers[p := Offer(subscribers[p], m)];
        }
      }
    }
  }

  /** The socket: publishers push into a bounded queue, and one worker pops and fans out. */
  class PubSocket {
    const backend: PubSocketBackend
    var fanoutQueue: seq<Message>

    ghost predicate Valid()
      reads this, backend
    {
      backend.Valid()
    }

    ghost function View(): Publisher
      reads this, backend
    {
      Publisher(backend.subscribers, fanoutQueue)
    }

    constructor ()
      ensures Valid() && View() == Publisher(map[], [])
    {
      backend := new PubSocketBackend();
      fanoutQueue := [];
    }

    /** `send`: empty messages, messages for nobody and messages that find the queue full are dropped. */
    method Send(m: Message)
      requires Valid()
      modifies this
      ensures Valid() && View() == Step(old(View()), Publish(m))
    {
      if m == [] || backend.subscriberCount == 0 {
        assert m == [] || backend.subscribers == map[];
        return;
      }
      if |fanoutQueue| < PUB_SEND_QUEUE_CAPACITY {
        fanoutQueue := fanoutQueue + [m];
      }
    }

    /** One turn of the worker. */
    method FanoutNext() returns (more: bool)
      requires Valid()
      modifies this, backend
      ensures Valid() && View() == Step(old(View()), FanOut)
      ensures more <==> old(fanoutQueue) != []
    {
      if fanoutQueue == [] {
        return false;
      }
      var m := fanoutQueue[0];
      fanoutQueue := fanoutQueue[1..];
      backend.FanoutMessage(m);
      return true;
    }
  }

  function Controlled(s: Subscriber, m: Message): Subscriber {
    s.(subscriptions := ApplyControl(s.subscriptions, m))
  }

  function DeliverAll(subscribers: map<PeerId, Subscriber>, m: Message): map<PeerId, Subscriber> {
    map p | p in subscribers :: Deliver(subscribers[p], m)
  }

  // ----- Runs -----

  /** The subscribers, and the messages accepted but not yet fanned out. */
  datatype Publisher = Publisher(subscribers: map<PeerId, Subscriber>, pending: seq<Message>)

  datatype Event =
    | Publish(message: Message)
    | FanOut
    | Control(peer: PeerId, frame: Message)
    | Take(peer: PeerId)
    | Connect(peer: PeerId)
    | Disconnect(peer: PeerId)
    | Close(peer: PeerId)

  function TakeOne(s: Subscriber): Subscriber {
    if Backlog(s) > 0 then s.(taken := s.taken + 1) else s
  }

  function Enqueue(pending: seq<Message>, m: Message): seq<Message> {
    if m != [] && |pending| < PUB_SEND_QUEUE_CAPACITY then pending + [m] else pending
  }

  /** What a peer's own events do to its entry. */
  function OwnStep(s: Subscriber, e: Event): Subscriber {
    match e
    case Control(_, m) => Controlled(s, m)
    case Take(_) => TakeOne(s)
    case Close(_) => s.(open := false)
    case _ => s
  }

  function Step(s: Publisher, e: Event): Publisher {
    match e
    case Publish(m) => if s.subscribers == map[] then s else s.(pending := Enqueue(s.pending, m))
    case FanOut =>
      if s.pending == [] then s else Publisher(DeliverAll(s.subscribers, s.pending[0]), s.pending[1..])
    case Connect(p) => s.(subscribers := s.subscribers[p := NewSubscriber()])
    case Disconnect(p) => s.(subscribers := s.subscribers - {p})
    case _ =>
      if e.peer in s.subscribers then s.(subscribers := s.subscribers[e.peer := OwnStep(s.subscribers[e.peer], e)])
      else s
  }

  function Run(s: Publisher, events: seq<Event>): Publisher
    decreases |events|
  {
    if events == [] then s else Run(Step(s, events[0]), events[1..])
  }

  predicate Concerns(e: Event, p: PeerId) {
    e.Publish? || e.FanOut? || e.peer == p
  }

  /** The events that one subscriber can notice. */
  function Seen(events: seq<Event>, p: PeerId): seq<Event> {
    if events == [] then []
    else (if Concerns(events[0], p) then [events[0]] else []) + Seen(events[1..], p)
  }

  /** The publisher as it would be with `p` as its only subscriber. */
  function Alone(s: Publisher, p: PeerId): Publisher {
    s.(subscribers := if p in s.subscribers then map[p := s.subscribers[p]] else map[])
  }

  /**
   A message is queued only because others are connected: `p` is not, and alone it would have been
   dropped at once. If `p` connects before the worker gets to the message, it may still receive it.
   */
  predicate HeldForStranger(s: Publisher, e: Event, p: PeerId) {
    && e.Publish? && e.message != [] && |s.pending| < PUB_SEND_QUEUE_CAPACITY
    && p !in s.subscribers && s.subscribers != map[]
  }

  lemma StepAloneIff(s: Publisher, e: Event, p: PeerId)
    ensures Concerns(e, p) ==> (Alone(Step(s, e), p) == Step(Alone(s, p), e) <==> !HeldForStranger(s, e, p))
    ensures !Concerns(e, p) ==> Alone(Step(s, e), p) == Alone(s, p)
  {
    match e
    case Publish(m) =>
      assert p in s.subscribers <==> p in Alone(s, p).subscribers;
      assert HeldForStranger(s, e, p) ==> |Enqueue(s.pending, m)| != |s.pending|;
    case FanOut =>
      if s.pending != [] {
        assert Alone(Step(s, e), p).subscribers == DeliverAll(Alone(s, p).subscribers, s.pending[0]);
      }
    case Connect(q) =>
      assert q == p ==> Step(Alone(s, p), e).subscribers == map[p := NewSubscriber()];
    case Disconnect(q) =>
      assert q == p ==> Step(Alone(s, p), e).subscribers == map[];
    case _ =>
  }

  ghost predicate NeverHeldForStranger(s: Publisher, events: seq<Event>, p: PeerId)
    decreases |events|
  {
    events != [] ==> !HeldForStranger(s, events[0], p) && NeverHeldForStranger(Step(s, events[0]), events[1..], p)
  }

  /** At every point of the run, what concerns `p` is as in `alone`, which takes only the events that `p` sees. */
  ghost predicate AsIfAlone(s: Publisher, alone: Publisher, events: seq<Event>, p: PeerId)
    decreases |events|
  {
    && Alone(s, p) == alone
    && (events != [] ==>
          var next := if Concerns(events[0], p) then Step(alone, events[0]) else alone;
          AsIfAlone(Step(s, events[0]), next, events[1..], p))
  }

  /**
   Exactly when the presence of others shows: over any run, with any comings and goings, a peer's
   part of the publisher is at every point what it would be if it were the only one, if and only if
   no message is published that is held while the peer itself is not connected.
   */
  lemma {:induction false} AsIfAloneIff(s: Publisher, events: seq<Event>, p: PeerId)
    ensures AsIfAlone(s, Alone(s, p), events, p) <==> NeverHeldForStranger(s, events, p)
    decreases |events|
  {
    hide Step, Alone, HeldForStranger;
    if events != [] {
      var e := events[0];
      StepAloneIff(s, e, p);
      NothingHeldUnseen(s, e, p);
      if !HeldForStranger(s, e, p) {
        AsIfAloneIff(Step(s, e), events[1..], p);
      } else {
        var next := if Concerns(e, p) then Step(Alone(s, p), e) else Alone(s, p);
        assert !AsIfAlone(Step(s, e), next, events[1..], p);
      }
    }
  }

  lemma NothingHeldUnseen(s: Publisher, e: Event, p: PeerId)
    ensures !Concerns(e, p) ==> !HeldForStranger(s, e, p)
  {
  }

  /**
   Subscribers are independent: over such a run, what a subscriber ends with is decided by its own
   events and by what is published and fanned out, whatever the others do, however slow or full
   they are, and whether they are there at all.
   */
  lemma {:induction false} SubscribersAreIndependent(s: Publisher, events: seq<Event>, p: PeerId)
    requires NeverHeldForStranger(s, events, p)
    ensures Alone(Run(s, events), p) == Run(Alone(s, p), Seen(events, p))
    decreases |events|
  {
    hide Step, Alone, HeldForStranger;
    if events != [] {
      var e := events[0];
      StepAloneIff(s, e, p);
      SubscribersAreIndependent(Step(s, e), events[1..], p);
      if Concerns(e, p) {
        assert Seen(events, p) == [e] + Seen(events[1..], p);
        RunCons(Alone(s, p), e, Seen(events[1..], p));
      } else {
        assert Seen(events, p) == Seen(events[1..], p);
      }
    }
  }

  ghost predicate StaysConnected(events: seq<Event>, p: PeerId) {
    forall i :: 0 <= i < |events| ==> events[i] != Disconnect(p)
  }

  /** As long as a subscriber is connected, nothing is held for a stranger. */
  lemma {:induction false} ConnectedIsNoStranger(s: Publisher, events: seq<Event>, p: PeerId)
    requires p in s.subscribers && StaysConnected(events, p)
    ensures NeverHeldForStranger(s, events, p)
    decreases |events|
  {
    if events != [] {
      assert forall i :: 0 <= i < |events[1..]| ==> events[1..][i] == events[i + 1];
      ConnectedIsNoStranger(Step(s, events[0]), events[1..], p);
    }
  }

  lemma RunCons(s: Publisher, e: Event, rest: seq<Event>)
    ensures Run(s, [e] + rest) == Run(Step(s, e), rest)
  {
    assert ([e] + rest)[1..] == rest;
  }

  /**
   What a message held for a stranger can do: a message published while nobody
   is connected is dropped at once, but one published while somebody else is connected waits for
   the worker, and reaches a subscriber that connects meanwhile.
   */
  lemma LateSubscriberNoticesOthers(m: Message, other: PeerId, p: PeerId)
    requires m != [] && other != p
    ensures var run := [Publish(m)] + ([Connect(p)] + ([Control(p, SubscribeFrame([]))] + ([FanOut] + [])));
            var alone := Run(Publisher(map[], []), run);
            var together := Run(Publisher(map[other := NewSubscriber()], []), run);
            && p in alone.subscribers && alone.subscribers[p].log == []
            && p in together.subscribers && together.subscribers[p].log == [m]
  {
    hide Run, SubscriptionMatches;
    var rest := [Connect(p)] + ([Control(p, SubscribeFrame([]))] + ([FanOut] + []));
    LateSubscriber(Publisher(map[], []), m, p);
    LateSubscriber(Publisher(map[other := NewSubscriber()], [m]), m, p);
    RunCons(Publisher(map[], []), Publish(m), rest);
    assert other in map[other := NewSubscriber()];
    assert Enqueue([], m) == [m];
    RunCons(Publisher(map[other := NewSubscriber()], []), Publish(m), rest);
  }

  lemma LateSubscriber(s: Publisher, m: Message, p: PeerId)
    requires m != [] && (s.pending == [] || s.pending == [m])
    ensures var t := Run(s, [Connect(p)] + ([Control(p, SubscribeFrame([]))] + ([FanOut] + [])));
            p in t.subscribers && t.subscribers[p].log == s.pending
  {
    hide Run, SubscriptionMatches;
    var s1 := Step(s, Connect(p));
    var s2 := Step(s1, Control(p, SubscribeFrame([])));
    assert ([1] + [])[1..] == [];
    assert s2.subscribers[p].subscriptions == [[]];
    assert HasPrefix(m[0], s2.subscribers[p].subscriptions[0]);
    FastFilterIsAnyPrefix(s2.subscribers[p].subscriptions, m[0]);
    var s3 := Step(s2, FanOut);
    assert [] + [m] == [m];
    assert Run(s3, []) == s3 by {
      RunNil(s3);
    }
    RunCons(s2, FanOut, []);
    RunCons(s1, Control(p, SubscribeFrame([])), [FanOut] + []);
    RunCons(s, Connect(p), [Control(p, SubscribeFrame([]))] + ([FanOut] + []));
  }

  lemma RunNil(s: Publisher)
    ensures Run(s, []) == s
  {
  }

  // ----- Exactly the matching messages -----

  /** The accepted messages that match when they are fanned out, in publication order. */
  function Matching(subscriptions: seq<Topic>, pending: seq<Message>, events: seq<Event>, p: PeerId): seq<Message>
    decreases |events|
  {
    if events == [] then [] else
    match events[0]
    case Publish(m) => Matching(subscriptions, Enqueue(pending, m), events[1..], p)
    case FanOut =>
      if pending == [] then Matching(subscriptions, pending, events[1..], p)
      else
        (if pending[0] != [] && AnyPrefix(subscriptions, pending[0][0]) then [pending[0]] else [])
        + Matching(subscriptions, pending[1..], events[1..], p)
    case Control(q, m) =>
      Matching(if q == p then ApplyControl(subscriptions, m) else subscriptions, pending, events[1..], p)
    case _ => Matching(subscriptions, pending, events[1..], p)
  }

  /** Those of them that find room, given the backlog at the start. */
  function MatchingWithRoom(subscriptions: seq<Topic>, backlog: int, pending: seq<Message>, events: seq<Event>,
                            p: PeerId): seq<Message>
    decreases |events|
  {
    if events == [] then [] else
    match events[0]
    case Publish(m) => MatchingWithRoom(subscriptions, backlog, Enqueue(pending, m), events[1..], p)
    case FanOut =>
      if pending == [] then MatchingWithRoom(subscriptions, backlog, pending, events[1..], p)
      else if pending[0] != [] && AnyPrefix(subscriptions, pending[0][0]) && backlog < PUB_SEND_QUEUE_CAPACITY then
        [pending[0]] + MatchingWithRoom(subscriptions, backlog + 1, pending[1..], events[1..], p)
      else MatchingWithRoom(subscriptions, backlog, pending[1..], events[1..], p)
    case Control(q, m) =>
      MatchingWithRoom(if q == p then ApplyControl(subscriptions, m) else subscriptions,
                       backlog, pending, events[1..], p)
    case Take(q) =>
      MatchingWithRoom(subscriptions, if q == p && backlog > 0 then backlog - 1 else backlog, pending, events[1..], p)
    case _ => MatchingWithRoom(subscriptions, backlog, pending, events[1..], p)
  }

  /** The connection of `p` is neither replaced nor lost, nor its queue closed. */
  ghost predicate Stable(events: seq<Event>, p: PeerId) {
    forall i :: 0 <= i < |events| ==> events[i] != Connect(p) && events[i] != Disconnect(p) && events[i] != Close(p)
  }

  lemma DeliverIfMatching(s: Publisher, p: PeerId)
    requires p in s.subscribers && s.subscribers[p].open && s.pending != []
    ensures var (before, m) := (s.subscribers[p], s.pending[0]);
            var matches :=
              m != [] && AnyPrefix(before.subscriptions, m[0]) && Backlog(before) < PUB_SEND_QUEUE_CAPACITY;
            && p in Step(s, FanOut).subscribers
            && Step(s, FanOut).subscribers[p] == if matches then before.(log := before.log + [m]) else before
  {
    var m := s.pending[0];
    if m != [] {
      FastFilterIsAnyPrefix(s.subscribers[p].subscriptions, m[0]);
    }
  }

  /**
   Fan-out exactness: over any run in which a subscriber stays connected, whatever it subscribes and
   unsubscribes meanwhile and whatever the other subscribers do, its queue gains, in publication
   order, exactly the accepted messages of which some subscription is a prefix when they are fanned
   out, minus those that find its queue full.
   */
  lemma {:induction false} QueueGainsExactlyMatching(s: Publisher, events: seq<Event>, p: PeerId)
    requires p in s.subscribers && s.subscribers[p].open && Stable(events, p)
    ensures var (before, t) := (s.subscribers[p], Run(s, events));
            && p in t.subscribers
            && t.subscribers[p].log
            == before.log + MatchingWithRoom(before.subscriptions, Backlog(before), s.pending, events, p)
    decreases |events|
  {
    hide AnyPrefix, SubscriptionMatches, DeliverAll;
    var before := s.subscribers[p];
    if events == [] {
      assert before.log + [] == before.log;
    } else {
      assert forall i :: 0 <= i < |events[1..]| ==> events[1..][i] == events[i + 1];
      match events[0] {
        case FanOut =>
          if s.pending != [] {
            hide Step;
            DeliverIfMatching(s, p);
            FanOutTakesFirst(s);
            var after := Step(s, FanOut);
            QueueGainsExactlyMatching(after, events[1..], p);
            if after.subscribers[p] != before {
              Associate(before.log, [s.pending[0]],
                        MatchingWithRoom(before.subscriptions, Backlog(before) + 1, after.pending, events[1..], p));
            }
          } else {
            QueueGainsExactlyMatching(s, events[1..], p);
          }
        case _ => QueueGainsExactlyMatching(Step(s, events[0]), events[1..], p);
      }
    }
  }

  /**
   A subscriber with room gets the next message to be fanned out exactly when its first frame is one
   of its topics followed by anything.
   */
  lemma SubscriberGetsContinuations(s: Publisher, p: PeerId)
    requires p in s.subscribers && s.subscribers[p].open && s.pending != [] && s.pending[0] != []
    requires Backlog(s.subscribers[p]) < PUB_SEND_QUEUE_CAPACITY
    ensures p in Step(s, FanOut).subscribers
    ensures var (before, after, m) := (s.subscribers[p], Step(s, FanOut).subscribers[p], s.pending[0]);
            && (after.log == before.log + [m]
                <==> exists i, rest :: 0 <= i < |before.subscriptions| && m[0] == before.subscriptions[i] + rest)
            && (after.log == before.log + [m] || after.log == before.log)
  {
    hide HasPrefix, DeliverAll, SubscriptionMatches;
    DeliverIfMatching(s, p);
    FilterPassesContinuations(s.subscribers[p].subscriptions, s.pending[0][0]);
    FastFilterIsAnyPrefix(s.subscribers[p].subscriptions, s.pending[0][0]);
  }

  /** A peer that has just connected gets nothing before it subscribes. */
  lemma {:induction false} NothingBeforeSubscribing(s: Publisher, events: seq<Event>, p: PeerId)
    requires Stable(events, p) && forall i :: 0 <= i < |events| ==> !(events[i].Control? && events[i].peer == p)
    ensures var t := Run(Step(s, Connect(p)), events);
            p in t.subscribers && t.subscribers[p].log == [] && t.subscribers[p].open
    ensures Backlog(Step(s, Connect(p)).subscribers[p]) == 0
  {
    QuietWithoutTopics(Step(s, Connect(p)), events, p);
  }

  /** Once its queue is closed, a connection gets nothing more. */
  lemma {:induction false} NothingAfterClose(s: Publisher, events: seq<Event>, p: PeerId)
    requires p in s.subscribers
    requires forall i :: 0 <= i < |events| ==> events[i] != Connect(p) && events[i] != Disconnect(p)
    ensures var (before, t) := (s.subscribers[p], Run(Step(s, Close(p)), events));
            p in t.subscribers && !t.subscribers[p].open && t.subscribers[p].log == before.log
  {
    ClosedStays(Step(s, Close(p)), events, p);
  }

  lemma {:induction false} ClosedStays(s: Publisher, events: seq<Event>, p: PeerId)
    requires p in s.subscribers && !s.subscribers[p].open
    requires forall i :: 0 <= i < |events| ==> events[i] != Connect(p) && events[i] != Disconnect(p)
    ensures var t := Run(s, events);
            p in t.subscribers && !t.subscribers[p].open && t.subscribers[p].log == s.subscribers[p].log
    decreases |events|
  {
    if events != [] {
      assert forall i :: 0 <= i < |events[1..]| ==> events[1..][i] == events[i + 1];
      ClosedStays(Step(s, events[0]), events[1..], p);
    }
  }

  lemma {:induction false} QuietWithoutTopics(s: Publisher, events: seq<Event>, p: PeerId)
    requires p in s.subscribers && s.subscribers[p].open && s.subscribers[p].subscriptions == []
    requires Stable(events, p) && forall i :: 0 <= i < |events| ==> !(events[i].Control? && events[i].peer == p)
    ensures var t := Run(s, events);
            p in t.subscribers && t.subscribers[p].open && t.subscribers[p].log == s.subscribers[p].log
    decreases |events|
  {
    if events != [] {
      assert forall i :: 0 <= i < |events[1..]| ==> events[1..][i] == events[i + 1];
      QuietWithoutTopics(Step(s, events[0]), events[1..], p);
    }
  }

  lemma FanOutTakesFirst(s: Publisher)
    requires s.pending != []
    ensures Step(s, FanOut).pending == s.pending[1..]
  {
  }

  /** With room throughout, nothing that matches is lost. */
  lemma {:induction false} RoomMeansEverything(subscriptions: seq<Topic>, backlog: int, pending: seq<Message>,
                                               events: seq<Event>, p: PeerId)
    requires 0 <= backlog && backlog + |Matching(subscriptions, pending, events, p)| <= PUB_SEND_QUEUE_CAPACITY
    ensures MatchingWithRoom(subscriptions, backlog, pending, events, p) == Matching(subscriptions, pending, events, p)
    decreases |events|
  {
    hide AnyPrefix, ApplyControl;
    if events != [] {
      var rest := events[1..];
      match events[0] {
        case Publish(m) => RoomMeansEverything(subscriptions, backlog, Enqueue(pending, m), rest, p);
        case FanOut =>
          if pending == [] {
            RoomMeansEverything(subscriptions, backlog, pending, rest, p);
          } else if pending[0] != [] && AnyPrefix(subscriptions, pending[0][0]) {
            RoomMeansEverything(subscriptions, backlog + 1, pending[1..], rest, p);
          } else {
            RoomMeansEverything(subscriptions, backlog, pending[1..], rest, p);
          }
        case Control(q, m) =>
          RoomMeansEverything(if q == p then ApplyControl(subscriptions, m) else subscriptions,
                              backlog, pending, rest, p);
        case Take(q) =>
          RoomMeansEverything(subscriptions, if q == p && backlog > 0 then backlog - 1 else backlog, pending, rest, p);
        case _ => RoomMeansEverything(subscriptions, backlog, pending, rest, p);
      }
    }
  }
}
