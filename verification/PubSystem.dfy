/**
 The wake protocol and the fan-out together: publishers, worker and subscribers interleave, and each
 pop of the worker offers the message to whoever is subscribed at that moment.
 */
module PubSystem {
  import opened Sequences
  import opened Bytes
  import Protocol = PubFanout
  import opened PubBackend

  datatype System = System(protocol: Protocol.State, subscribers: map<PeerId, Subscriber>)

  datatype Action = Protocol(step: Protocol.Action) | Peer(event: Event)

  predicate Enabled(s: System, a: Action) {
    match a
    case Protocol(step) => Protocol.Enabled(s.protocol, step)
    case Peer(event) => !event.Publish? && !event.FanOut?
  }

  /** `send` pushes nothing when the message is empty or nobody is connected. */
  predicate Skips(s: System, a: Action) {
    a.Protocol? && a.step.Push? && (a.step.message == [] || s.subscribers == map[])
  }

  function Apply(s: System, a: Action): System
    requires Enabled(s, a)
  {
    match a
    case Protocol(step) =>
      if Skips(s, a) then s
      else
        System(Protocol.Apply(s.protocol, step),
               if step.Pop? && s.protocol.queue != [] then DeliverAll(s.subscribers, s.protocol.queue[0])
               else s.subscribers)
    case Peer(event) => s.(subscribers := Step(View(s), event).subscribers)
  }

  /** The publisher as module PubBackend sees it: the queue without the protocol around it. */
  function View(s: System): Publisher {
    Publisher(s.subscribers, s.protocol.queue)
  }

  /** The events of a run that the publisher notices: pushes and pops; the rest of the protocol does not show. */
  function Trace(actions: seq<Action>): seq<Event> {
    if actions == [] then [] else EventOf(actions[0]) + Trace(actions[1..])
  }

  function EventOf(a: Action): seq<Event> {
    match a
    case Protocol(Push(_, m)) => [Publish(m)]
    case Protocol(Pop) => [FanOut]
    case Protocol(_) => []
    case Peer(event) => [event]
  }

  ghost predicate Inv(s: System) {
    Protocol.Inv(s.protocol) && s.protocol.capacity == PUB_SEND_QUEUE_CAPACITY
  }

  lemma StepKeepsInv(s: System, a: Action)
    requires Inv(s) && Enabled(s, a)
    ensures Inv(Apply(s, a))
  {
    if a.Protocol? && !Skips(s, a) {
      Protocol.StepKeepsOwner(s.protocol, a.step);
      Protocol.StepStrandsNothing(s.protocol, a.step);
      Protocol.StepConserves(s.protocol, a.step);
    }
  }

  /** Every atomic step is one step of the publisher, or none. */
  lemma StepRefines(s: System, a: Action)
    requires Inv(s) && Enabled(s, a)
    ensures View(Apply(s, a)) == Run(View(s), EventOf(a))
  {
    hide DeliverAll;
    if EventOf(a) != [] {
      assert EventOf(a) == [EventOf(a)[0]] + [];
      RunCons(View(s), EventOf(a)[0], []);
    }
  }

  lemma {:induction false} RunAppend(s: Publisher, a: seq<Event>, b: seq<Event>)
    ensures Run(s, a + b) == Run(Run(s, a), b)
    decreases |a|
  {
    if a == [] {
      assert a + b == b;
    } else {
      assert (a + b)[0] == a[0] && (a + b)[1..] == a[1..] + b;
      RunAppend(Step(s, a[0]), a[1..], b);
    }
  }

  ghost predicate Possible(s: System, actions: seq<Action>)
    decreases |actions|
  {
    actions != [] ==> Enabled(s, actions[0]) && Possible(Apply(s, actions[0]), actions[1..])
  }

  ghost function RunAll(s: System, actions: seq<Action>): System
    requires Possible(s, actions)
    decreases |actions|
  {
    if actions == [] then s else RunAll(Apply(s, actions[0]), actions[1..])
  }

  /** Over every interleaving the system is the publisher that takes its trace. */
  lemma {:induction false} RunRefines(s: System, actions: seq<Action>)
    requires Inv(s) && Possible(s, actions)
    ensures Inv(RunAll(s, actions)) && View(RunAll(s, actions)) == Run(View(s), Trace(actions))
    decreases |actions|
  {
    hide Apply, Step, Inv, EventOf;
    if actions != [] {
      StepKeepsInv(s, actions[0]);
      StepRefines(s, actions[0]);
      RunRefines(Apply(s, actions[0]), actions[1..]);
      RunAppend(View(s), EventOf(actions[0]), Trace(actions[1..]));
    }
  }

  /** No publisher is inside `publish` and the worker sleeps without a token. */
  ghost predicate AtRest(s: System) {
    Protocol.Settled(s.protocol) && !Protocol.SomePublisherBusy(s.protocol)
  }

  /**
   From `publish` to the subscribers' queues: for any number of publishers and every interleaving,
   at rest everything accepted has been fanned out, in order, and a subscriber that stayed connected
   has been given exactly the messages with a prefix in its list at their fan-out, minus those that
   found its queue full.
   */
  lemma AtRestAllAreOffered(s: System, actions: seq<Action>, p: PeerId)
    requires Inv(s) && Possible(s, actions)
    requires p in s.subscribers && s.subscribers[p].open && Stable(Trace(actions), p)
    ensures var (before, t) := (s.subscribers[p], RunAll(s, actions));
            && p in t.subscribers
            && t.subscribers[p].log == before.log + MatchingWithRoom(before.subscriptions, Backlog(before),
                                                                     s.protocol.queue, Trace(actions), p)
            && (AtRest(t) ==> t.protocol.queue == [] && t.protocol.fannedOut == t.protocol.accepted)
  {
    hide Run, MatchingWithRoom, Step, Apply;
    RunRefines(s, actions);
    QueueGainsExactlyMatching(View(s), Trace(actions), p);
    var t := RunAll(s, actions).protocol;
    Protocol.BusyFromWonSwap(t);
    assert t.queue == [] ==> t.fannedOut + t.queue == t.fannedOut;
  }

  lemma StartIsFine(publishers: nat, subscribers: map<PeerId, Subscriber>)
    ensures Inv(System(Protocol.Initial(PUB_SEND_QUEUE_CAPACITY, publishers), subscribers))
  {
  }
}
