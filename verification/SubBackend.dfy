/**
 The SUB side and its agreement with PUB: the remembered subscription set, the control frames sent
 over each link, and the replay to a peer that connects or reconnects.

 A link is kept as the list of frames sent over it; the publisher's subscription list is what
 module PubBackend makes of that list.
 */
module SubBackend {
  import opened Wrappers
  import opened Sequences
  import opened Bytes
  import opened PubBackend

  /** A connection to a publisher. It is no longer intact once a frame was lost on it. */
  datatype Link = Link(sent: seq<Message>, intact: bool)

  /** How a send to a peer fails. */
  datatype Failure = BrokenPipe | OtherFailure

  /** The publisher's list for the connection, from an empty list and the frames in order. */
  function ListFrom(topics: seq<Topic>, frames: seq<Message>): seq<Topic>
    decreases |frames|
  {
    if frames == [] then topics else ListFrom(ApplyControl(topics, frames[0]), frames[1..])
  }

  function PublisherList(link: Link): seq<Topic> {
    ListFrom([], link.sent)
  }

  lemma {:induction false} ListFromAppend(topics: seq<Topic>, frames: seq<Message>, m: Message)
    ensures ListFrom(topics, frames + [m]) == ApplyControl(ListFrom(topics, frames), m)
    decreases |frames|
  {
    if frames == [] {
      assert frames + [m] == [m];
      assert [m][1..] == [];
    } else {
      assert (frames + [m])[1..] == frames[1..] + [m];
      ListFromAppend(ApplyControl(topics, frames[0]), frames[1..], m);
    }
  }

  /** Agreement: the publisher's list holds every remembered topic exactly once, and nothing else. */
  ghost predicate Agrees(subs: set<Topic>, link: Link) {
    link.intact ==> multiset(PublisherList(link)) == multiset(subs)
  }

  ghost predicate AllAgree(subs: set<Topic>, peers: map<PeerId, Link>) {
    forall p :: p in peers ==> Agrees(subs, peers[p])
  }

  /** What agreement means: the publisher's filter passes exactly the frames the subscriber asked for. */
  lemma AgreementMeansSameFilter(subs: set<Topic>, link: Link, frame: Bytes)
    requires Agrees(subs, link) && link.intact
    ensures SubscriptionMatches(PublisherList(link), frame) <==> exists t :: t in subs && HasPrefix(frame, t)
  {
    var list := PublisherList(link);
    FastFilterIsAnyPrefix(list, frame);
    if AnyPrefix(list, frame) {
      var i :| 0 <= i < |list| && HasPrefix(frame, list[i]);
      assert list[i] in multiset(list);
    }
    forall t | t in subs && HasPrefix(frame, t)
      ensures AnyPrefix(list, frame)
    {
      assert t in multiset(list);
      var i :| 0 <= i < |list| && list[i] == t;
    }
  }

  // ----- The effect of one frame on every link -----

  function SendOver(link: Link, m: Message, failure: Option<Failure>): Link {
    if failure.Some? then link.(intact := false) else link.(sent := link.sent + [m])
  }

  function FailureOf(failures: map<PeerId, Failure>, p: PeerId): Option<Failure> {
    if p in failures then Some(failures[p]) else None
  }

  /** A control broadcast: peers with a broken pipe are dropped, everyone else keeps the connection. */
  function Broadcast(peers: map<PeerId, Link>, m: Message, failures: map<PeerId, Failure>): map<PeerId, Link> {
    map p | p in peers && FailureOf(failures, p) != Some(BrokenPipe) :: SendOver(peers[p], m, FailureOf(failures, p))
  }

  /**
   What a broadcast does to each peer: one with a broken pipe is gone; one whose send failed otherwise
   stays, with its connection marked as having lost a frame; every other has been sent the frame.
   */
  lemma BroadcastReaches(peers: map<PeerId, Link>, m: Message, failures: map<PeerId, Failure>, p: PeerId)
    requires p in peers
    ensures var after := Broadcast(peers, m, failures);
            && (p !in after <==> p in failures && failures[p].BrokenPipe?)
            && (p in after && p in failures ==> after[p] == Link(peers[p].sent, false))
            && (p !in failures ==> after[p] == Link(peers[p].sent + [m], peers[p].intact))
    ensures forall q :: q in Broadcast(peers, m, failures) ==> q in peers
  {
  }

  lemma SubscribeCounts(subs: set<Topic>, link: Link, t: Topic)
    requires Agrees(subs, link) && link.intact
    ensures Agrees(subs + {t}, SendOver(link, SubscribeFrame(t), None)) <==> t !in subs
  {
    ListFromAppend([], link.sent, SubscribeFrame(t));
    hide ListFrom, ApplyControl, SubscribeFrame, UnsubscribeFrame;
    ControlCounts(PublisherList(link), t);
    var list := multiset(PublisherList(SendOver(link, SubscribeFrame(t), None)));
    assert list == multiset(subs) + multiset{t};
    if t !in subs {
      assert multiset(subs + {t}) == multiset(subs) + multiset{t};
    } else {
      assert list[t] == 2 && multiset(subs + {t})[t] == 1;
    }
  }

  lemma UnsubscribeCounts(subs: set<Topic>, link: Link, t: Topic)
    requires Agrees(subs, link) && link.intact
    ensures Agrees(subs - {t}, SendOver(link, UnsubscribeFrame(t), None))
  {
    ListFromAppend([], link.sent, UnsubscribeFrame(t));
    hide ListFrom, ApplyControl, SubscribeFrame, UnsubscribeFrame;
    ControlCounts(PublisherList(link), t);
    assert multiset(subs - {t}) == multiset(subs) - multiset{t};
  }

  lemma SendKeepsAgreement(subs: set<Topic>, link: Link, t: Topic, failure: Option<Failure>)
    requires Agrees(subs, link)
    ensures t !in subs ==> Agrees(subs + {t}, SendOver(link, SubscribeFrame(t), failure))
    ensures Agrees(subs - {t}, SendOver(link, UnsubscribeFrame(t), failure))
    ensures t in subs && link.intact && failure.None? ==>
              !Agrees(subs + {t}, SendOver(link, SubscribeFrame(t), failure))
  {
    if link.intact {
      SubscribeCounts(subs, link, t);
      UnsubscribeCounts(subs, link, t);
    }
  }

  // ----- Replay -----

  /** `order` is one iteration order of the set. */
  ghost predicate Enumerates(order: seq<Topic>, subs: set<Topic>) {
    && NoDuplicates(order)
    && (forall t :: t in subs <==> t in order)
  }

  function SubscribeFrames(order: seq<Topic>): seq<Message> {
    seq(|order|, i requires 0 <= i < |order| => SubscribeFrame(order[i]))
  }

  lemma {:induction false} ReplayedList(topics: seq<Topic>, order: seq<Topic>)
    ensures multiset(ListFrom(topics, SubscribeFrames(order))) == multiset(topics) + multiset(order)
    decreases |order|
  {
    hide ApplyControl, SubscribeFrame, UnsubscribeFrame;
    if order == [] {
    } else {
      var frames := SubscribeFrames(order);
      assert frames[0] == SubscribeFrame(order[0]) && frames[1..] == SubscribeFrames(order[1..]);
      ControlCounts(topics, order[0]);
      ReplayedList(ApplyControl(topics, frames[0]), order[1..]);
      assert order == [order[0]] + order[1..];
    }
  }

  lemma EnumerationIsOnceEach(order: seq<Topic>, subs: set<Topic>)
    requires Enumerates(order, subs)
    ensures multiset(order) == multiset(subs)
    decreases |order|
  {
    if order == [] {
      assert subs == {};
    } else {
      var rest := order[1..];
      assert order == [order[0]] + rest;
      assert order[0] !in rest;
      forall t
        ensures t in subs - {order[0]} <==> t in rest
      {
        if t in order && t != order[0] {
          var i :| 0 <= i < |order| && order[i] == t;
          assert rest[i - 1] == t;
        }
      }
      EnumerationIsOnceEach(rest, subs - {order[0]});
      assert multiset(subs) == multiset(subs - {order[0]}) + multiset{order[0]};
    }
  }

  /** Whatever the order of the replay, a new connection starts in agreement. */
  lemma ReplayAgrees(order: seq<Topic>, subs: set<Topic>)
    requires Enumerates(order, subs)
    ensures Agrees(subs, Link(SubscribeFrames(order), true))
  {
    ReplayedList([], order);
    EnumerationIsOnceEach(order, subs);
  }

  // ----- Runs -----

  /** The subscriber's state, and one atomic step of it. */
  datatype State = State(subs: set<Topic>, peers: map<PeerId, Link>)

  datatype Action =
    | Subscribe(topic: Topic, failures: map<PeerId, Failure>)
    | Unsubscribe(topic: Topic, failures: map<PeerId, Failure>)
    | Connect(peer: PeerId, order: seq<Topic>)
    | Disconnect(peer: PeerId)

  ghost predicate Enabled(s: State, a: Action) {
    a.Connect? ==> Enumerates(a.order, s.subs)
  }

  function Apply(s: State, a: Action): State {
    match a
    case Subscribe(t, failures) => State(s.subs + {t}, Broadcast(s.peers, SubscribeFrame(t), failures))
    case Unsubscribe(t, failures) => State(s.subs - {t}, Broadcast(s.peers, UnsubscribeFrame(t), failures))
    case Connect(p, order) => s.(peers := s.peers[p := Link(SubscribeFrames(order), true)])
    case Disconnect(p) => s.(peers := s.peers - {p})
  }

  /** Subscribing to a remembered topic, seen by some publisher. */
  ghost predicate SubscribesAgain(s: State, a: Action) {
    a.Subscribe? && a.topic in s.subs && exists p :: p in s.peers && s.peers[p].intact && p !in a.failures
  }

  /** One step keeps the agreement exactly when it is not a repeated subscription that arrives somewhere. */
  lemma StepKeepsAgreementIff(s: State, a: Action)
    requires Enabled(s, a) && AllAgree(s.subs, s.peers)
    ensures AllAgree(Apply(s, a).subs, Apply(s, a).peers) <==> !SubscribesAgain(s, a)
  {
    var s' := Apply(s, a);
    match a
    case Subscribe(t, failures) =>
      forall p | p in s.peers
        ensures p in s'.peers && !(s.peers[p].intact && p !in failures && t in s.subs) ==> Agrees(s'.subs, s'.peers[p])
        ensures s.peers[p].intact && p !in failures && t in s.subs ==> p in s'.peers && !Agrees(s'.subs, s'.peers[p])
      {
        SendKeepsAgreement(s.subs, s.peers[p], t, FailureOf(failures, p));
      }
    case Unsubscribe(t, failures) =>
      forall p | p in s.peers && p in s'.peers
        ensures Agrees(s'.subs, s'.peers[p])
      {
        SendKeepsAgreement(s.subs, s.peers[p], t, FailureOf(failures, p));
      }
    case Connect(_, order) => ReplayAgrees(order, s.subs);
    case Disconnect(_) =>
  }

  ghost predicate Possible(s: State, actions: seq<Action>)
    decreases |actions|
  {
    actions != [] ==> Enabled(s, actions[0]) && Possible(Apply(s, actions[0]), actions[1..])
  }

  /** The agreement holds before the run and after each of its steps. */
  ghost predicate AgreesThroughout(s: State, actions: seq<Action>)
    decreases |actions|
  {
    && AllAgree(s.subs, s.peers)
    && (actions != [] ==> AgreesThroughout(Apply(s, actions[0]), actions[1..]))
  }

  ghost predicate NeverSubscribesAgain(s: State, actions: seq<Action>)
    decreases |actions|
  {
    actions != [] ==> !SubscribesAgain(s, actions[0]) && NeverSubscribesAgain(Apply(s, actions[0]), actions[1..])
  }

  /**
   Subscription agreement: over any run of subscribes, unsubscribes, connects, reconnects and
   disconnects, every publisher's list is the remembered set at every point of the run if and only
   if no topic is subscribed while it is already remembered (and some publisher hears it).
   */
  lemma {:induction false} AgreementIff(s: State, actions: seq<Action>)
    requires Possible(s, actions) && AllAgree(s.subs, s.peers)
    ensures AgreesThroughout(s, actions) <==> NeverSubscribesAgain(s, actions)
    decreases |actions|
  {
    hide Apply, AllAgree, SubscribesAgain;
    if actions != [] {
      StepKeepsAgreementIff(s, actions[0]);
      if !SubscribesAgain(s, actions[0]) {
        AgreementIff(Apply(s, actions[0]), actions[1..]);
      }
    }
  }

  // ----- The filter decision -----

  /** The subscriber asked for the frame. */
  ghost predicate Wanted(subs: set<Topic>, frame: Bytes) {
    exists t :: t in subs && HasPrefix(frame, t)
  }

  /** In other words: the frame begins with a remembered topic, whatever follows it. */
  lemma WantedMeans(subs: set<Topic>, frame: Bytes)
    ensures Wanted(subs, frame) <==> exists t, rest :: t in subs && frame == t + rest
  {
    if t :| t in subs && HasPrefix(frame, t) {
      PrefixIsFront(frame, t);
      var rest :| frame == t + rest;
      assert t in subs && frame == t + rest;
    }
    if t, rest :| t in subs && frame == t + rest {
      PrefixIsFront(frame, t);
    }
  }

  ghost predicate FilterIsRight(subs: set<Topic>, link: Link) {
    link.intact ==> forall frame :: SubscriptionMatches(PublisherList(link), frame) <==> Wanted(subs, frame)
  }

  ghost predicate HoldsRemembered(subs: set<Topic>, link: Link) {
    link.intact ==> forall t :: t in subs ==> t in PublisherList(link)
  }

  lemma InListIsCounted(list: seq<Topic>, t: Topic)
    ensures t in list <==> multiset(list)[t] > 0
  {
    assert t in list <==> t in multiset(list);
  }

  lemma PrefixOfPrefix(frame: Bytes, t: Topic, r: Topic)
    requires HasPrefix(frame, t) && HasPrefix(t, r)
    ensures HasPrefix(frame, r)
  {
    assert frame[..|t|][..|r|] == frame[..|r|];
  }

  /** Nothing wanted is filtered out as long as the list holds what is remembered. */
  lemma RememberedPasses(subs: set<Topic>, link: Link, frame: Bytes)
    requires HoldsRemembered(subs, link) && link.intact && Wanted(subs, frame)
    ensures SubscriptionMatches(PublisherList(link), frame)
  {
    var list := PublisherList(link);
    var t :| t in subs && HasPrefix(frame, t);
    var i :| 0 <= i < |list| && list[i] == t;
    FastFilterIsAnyPrefix(list, frame);
  }

  /** The filter is right on every frame if and only if every topic in the list has a remembered prefix. */
  lemma FilterIsRightIff(subs: set<Topic>, link: Link)
    requires HoldsRemembered(subs, link) && link.intact
    ensures FilterIsRight(subs, link) <==> forall t :: t in PublisherList(link) ==> Wanted(subs, t)
  {
    hide SubscriptionMatches;
    var list := PublisherList(link);
    forall t | t in list
      ensures SubscriptionMatches(list, t)
    {
      var i :| 0 <= i < |list| && list[i] == t;
      assert HasPrefix(t, list[i]);
      FastFilterIsAnyPrefix(list, t);
    }
    if forall t :: t in list ==> Wanted(subs, t) {
      forall frame
        ensures SubscriptionMatches(list, frame) <==> Wanted(subs, frame)
      {
        FastFilterIsAnyPrefix(list, frame);
        if Wanted(subs, frame) {
          RememberedPasses(subs, link, frame);
        }
        if SubscriptionMatches(list, frame) {
          var i :| 0 <= i < |list| && HasPrefix(frame, list[i]);
          assert Wanted(subs, list[i]);
          var r :| r in subs && HasPrefix(list[i], r);
          PrefixOfPrefix(frame, list[i], r);
        }
      }
    }
  }

  ghost predicate AllHoldRemembered(s: State) {
    forall p :: p in s.peers ==> HoldsRemembered(s.subs, s.peers[p])
  }

  ghost predicate AllFiltersRight(s: State) {
    forall p :: p in s.peers ==> FilterIsRight(s.subs, s.peers[p])
  }

  /** The list a control frame leaves behind, as counts. */
  lemma ControlledList(link: Link, t: Topic)
    ensures multiset(PublisherList(SendOver(link, SubscribeFrame(t), None)))
         == multiset(PublisherList(link)) + multiset{t}
    ensures multiset(PublisherList(SendOver(link, UnsubscribeFrame(t), None)))
         == multiset(PublisherList(link)) - multiset{t}
  {
    ListFromAppend([], link.sent, SubscribeFrame(t));
    ListFromAppend([], link.sent, UnsubscribeFrame(t));
    hide ListFrom, ApplyControl, SubscribeFrame, UnsubscribeFrame;
    ControlCounts(PublisherList(link), t);
  }

  lemma SubscribeHolds(subs: set<Topic>, link: Link, t: Topic)
    requires HoldsRemembered(subs, link) && link.intact
    ensures var after := SendOver(link, SubscribeFrame(t), None);
            HoldsRemembered(subs + {t}, after) && (FilterIsRight(subs, link) ==> FilterIsRight(subs + {t}, after))
  {
    hide FilterIsRight, PublisherList, Wanted, SubscribeFrame, UnsubscribeFrame;
    var after := SendOver(link, SubscribeFrame(t), None);
    forall x
      ensures x in PublisherList(after) <==> x in PublisherList(link) || x == t
      ensures Wanted(subs, x) || x == t ==> Wanted(subs + {t}, x)
    {
      ControlledList(link, t);
      InListIsCounted(PublisherList(link), x);
      InListIsCounted(PublisherList(after), x);
      MoreWanted(subs, t, x);
    }
    FilterIsRightIff(subs, link);
    FilterIsRightIff(subs + {t}, after);
  }

  lemma MoreWanted(subs: set<Topic>, t: Topic, frame: Bytes)
    ensures Wanted(subs, frame) || frame == t ==> Wanted(subs + {t}, frame)
  {
    if Wanted(subs, frame) {
      var r :| r in subs && HasPrefix(frame, r);
      assert r in subs + {t};
    } else if frame == t {
      assert HasPrefix(frame, t);
    }
  }

  /** Once `t` is unsubscribed, the list keeps a topic with no remembered prefix: `x`, or a second copy of `t`. */
  ghost predicate Outlasts(subs: set<Topic>, link: Link, t: Topic, x: Topic) {
    multiset(PublisherList(link))[x] > (if x == t then 1 else 0) && !Wanted(subs - {t}, x)
  }

  lemma UnsubscribeHolds(subs: set<Topic>, link: Link, t: Topic)
    requires HoldsRemembered(subs, link) && link.intact
    ensures var after := SendOver(link, UnsubscribeFrame(t), None);
            HoldsRemembered(subs - {t}, after)
            && (FilterIsRight(subs - {t}, after) <==> forall x :: !Outlasts(subs, link, t, x))
  {
    hide FilterIsRight, PublisherList, Wanted;
    var after := SendOver(link, UnsubscribeFrame(t), None);
    ControlledList(link, t);
    forall x
      ensures x in PublisherList(after) <==> multiset(PublisherList(link))[x] > (if x == t then 1 else 0)
    {
      InListIsCounted(PublisherList(after), x);
    }
    forall x | x in subs - {t}
      ensures x in PublisherList(after)
    {
      InListIsCounted(PublisherList(link), x);
    }
    FilterIsRightIff(subs - {t}, after);
    assert forall x :: Outlasts(subs, link, t, x) <==> x in PublisherList(after) && !Wanted(subs - {t}, x);
  }

  lemma ReplayHolds(order: seq<Topic>, subs: set<Topic>)
    requires Enumerates(order, subs)
    ensures HoldsRemembered(subs, Link(SubscribeFrames(order), true))
    ensures FilterIsRight(subs, Link(SubscribeFrames(order), true))
  {
    hide SubscriptionMatches, PublisherList;
    var link := Link(SubscribeFrames(order), true);
    ReplayAgrees(order, subs);
    forall t
      ensures t in PublisherList(link) <==> t in subs
    {
      InListIsCounted(PublisherList(link), t);
      assert multiset(subs)[t] > 0 <==> t in subs;
    }
    forall frame
      ensures SubscriptionMatches(PublisherList(link), frame) <==> Wanted(subs, frame)
    {
      AgreementMeansSameFilter(subs, link, frame);
    }
  }

  /** An unsubscription that some publisher hears and that leaves it a topic with no remembered prefix. */
  ghost predicate LeavesUnwanted(s: State, a: Action) {
    && a.Unsubscribe?
    && exists p, x :: p in s.peers && s.peers[p].intact && p !in a.failures && Outlasts(s.subs, s.peers[p], a.topic, x)
  }

  /** No step loses a remembered topic, and exactly such an unsubscription spoils a right filter. */
  lemma StepKeepsFiltersIff(s: State, a: Action)
    requires Enabled(s, a) && AllHoldRemembered(s)
    ensures AllHoldRemembered(Apply(s, a))
    ensures AllFiltersRight(s) ==> (AllFiltersRight(Apply(s, a)) <==> !LeavesUnwanted(s, a))
  {
    hide PublisherList, Outlasts, FilterIsRight, HoldsRemembered;
    var s' := Apply(s, a);
    match a
    case Subscribe(t, failures) =>
      forall p | p in s'.peers
        ensures HoldsRemembered(s'.subs, s'.peers[p])
        ensures FilterIsRight(s.subs, s.peers[p]) ==> FilterIsRight(s'.subs, s'.peers[p])
      {
        LostFramesDoNotCount(s'.subs, s'.peers[p]);
        if s'.peers[p].intact {
          SubscribeHolds(s.subs, s.peers[p], t);
        }
      }
    case Unsubscribe(t, failures) =>
      forall p | p in s'.peers
        ensures HoldsRemembered(s'.subs, s'.peers[p])
        ensures FilterIsRight(s'.subs, s'.peers[p]) <==>
                s.peers[p].intact && p !in failures ==> forall x :: !Outlasts(s.subs, s.peers[p], t, x)
      {
        LostFramesDoNotCount(s'.subs, s'.peers[p]);
        if s'.peers[p].intact {
          UnsubscribeHolds(s.subs, s.peers[p], t);
        }
      }
    case Connect(_, order) => ReplayHolds(order, s.subs);
    case Disconnect(_) =>
  }

  lemma LostFramesDoNotCount(subs: set<Topic>, link: Link)
    ensures !link.intact ==> HoldsRemembered(subs, link) && FilterIsRight(subs, link)
  {
  }

  function ApplyAll(s: State, actions: seq<Action>): State
    decreases |actions|
  {
    if actions == [] then s else ApplyAll(Apply(s, actions[0]), actions[1..])
  }

  /**
   Nothing wanted is ever lost: over every run, repeated subscriptions included, each intact
   publisher's list holds every remembered topic, so its filter passes every frame that was asked for.
   */
  lemma {:induction false} WantedAlwaysPasses(s: State, actions: seq<Action>, p: PeerId, frame: Bytes)
    requires Possible(s, actions) && AllHoldRemembered(s)
    ensures var s' := ApplyAll(s, actions);
            && AllHoldRemembered(s')
            && (p in s'.peers && s'.peers[p].intact && Wanted(s'.subs, frame) ==>
                  SubscriptionMatches(PublisherList(s'.peers[p]), frame))
    decreases |actions|
  {
    hide Apply, Enabled, SubscriptionMatches, HoldsRemembered, Wanted;
    if actions == [] {
      if p in s.peers && s.peers[p].intact && Wanted(s.subs, frame) {
        RememberedPasses(s.subs, s.peers[p], frame);
      }
    } else {
      StepKeepsFiltersIff(s, actions[0]);
      WantedAlwaysPasses(Apply(s, actions[0]), actions[1..], p, frame);
    }
  }

  ghost predicate FiltersRightThroughout(s: State, actions: seq<Action>)
    decreases |actions|
  {
    && AllFiltersRight(s)
    && (actions != [] ==> FiltersRightThroughout(Apply(s, actions[0]), actions[1..]))
  }

  ghost predicate NeverLeavesUnwanted(s: State, actions: seq<Action>)
    decreases |actions|
  {
    actions != [] ==> !LeavesUnwanted(s, actions[0]) && NeverLeavesUnwanted(Apply(s, actions[0]), actions[1..])
  }

  /**
   The filter decision over a whole run: at every point every intact publisher passes exactly the
   frames with a remembered prefix, if and only if no unsubscription leaves a publisher a topic
   that no remembered topic is a prefix of. Repeated subscriptions alone do no harm.
   */
  lemma {:induction false} FiltersStayRightIff(s: State, actions: seq<Action>)
    requires Possible(s, actions) && AllHoldRemembered(s) && AllFiltersRight(s)
    ensures FiltersRightThroughout(s, actions) <==> NeverLeavesUnwanted(s, actions)
    decreases |actions|
  {
    hide Apply, Enabled, LeavesUnwanted, AllFiltersRight, AllHoldRemembered;
    if actions != [] {
      StepKeepsFiltersIff(s, actions[0]);
      if !LeavesUnwanted(s, actions[0]) {
        FiltersStayRightIff(Apply(s, actions[0]), actions[1..]);
      }
    }
  }

  /**
   The copies beyond one for each remembered topic, from the subscriber's own calls: subscribing to
   a remembered topic adds one, unsubscribing from a forgotten one takes one away, and a new
   connection of the peer starts without any.
   */
  function RepeatsAfter(s: State, a: Action, p: PeerId, repeats: multiset<Topic>): multiset<Topic> {
    match a
    case Subscribe(t, _) => if t in s.subs then repeats + multiset{t} else repeats
    case Unsubscribe(t, _) => if t in s.subs then repeats else repeats - multiset{t}
    case Connect(q, _) => if q == p then multiset{} else repeats
    case Disconnect(_) => repeats
  }

  function Repeats(s: State, actions: seq<Action>, p: PeerId, repeats: multiset<Topic>): multiset<Topic>
    decreases |actions|
  {
    if actions == [] then repeats
    else Repeats(Apply(s, actions[0]), actions[1..], p, RepeatsAfter(s, actions[0], p, repeats))
  }

  ghost predicate ListIs(s: State, p: PeerId, repeats: multiset<Topic>) {
    p in s.peers && s.peers[p].intact ==> multiset(PublisherList(s.peers[p])) == multiset(s.subs) + repeats
  }

  lemma SubsCount(subs: set<Topic>, t: Topic)
    ensures multiset(subs + {t}) == if t in subs then multiset(subs) else multiset(subs) + multiset{t}
    ensures multiset(subs - {t}) == multiset(subs) - multiset{t}
    ensures t !in subs ==> multiset(subs - {t}) == multiset(subs) && multiset(subs)[t] == 0
  {
    assert t in subs ==> subs + {t} == subs;
    assert t !in subs ==> subs - {t} == subs;
  }

  lemma StepCountsRepeats(s: State, a: Action, p: PeerId, repeats: multiset<Topic>)
    requires Enabled(s, a) && ListIs(s, p, repeats)
    ensures ListIs(Apply(s, a), p, RepeatsAfter(s, a, p, repeats))
  {
    hide PublisherList, SubscribeFrame, UnsubscribeFrame;
    match a
    case Subscribe(t, failures) =>
      if p in s.peers && s.peers[p].intact && p !in failures {
        ControlledList(s.peers[p], t);
        SubsCount(s.subs, t);
        Rearrange(multiset(s.subs), repeats, t);
      }
    case Unsubscribe(t, failures) =>
      if p in s.peers && s.peers[p].intact && p !in failures {
        ControlledList(s.peers[p], t);
        SubsCount(s.subs, t);
        Rearrange(multiset(s.subs), repeats, t);
      }
    case Connect(_, order) => ReplayAgrees(order, s.subs);
    case Disconnect(_) =>
  }

  lemma Rearrange(a: multiset<Topic>, b: multiset<Topic>, t: Topic)
    ensures a + b + multiset{t} == (a + multiset{t}) + b == a + (b + multiset{t})
    ensures t in a ==> a + b - multiset{t} == (a - multiset{t}) + b
    ensures t !in a ==> a + b - multiset{t} == a + (b - multiset{t})
  {
  }

  /**
   What a publisher's list holds and whether its filter is right, told from the subscriber's own
   calls over any run: the remembered topics and the repeats; and the filter is right if and only
   if every repeat has a remembered prefix.
   */
  lemma {:induction false} RepeatsDecide(s: State, actions: seq<Action>, p: PeerId, repeats: multiset<Topic>)
    requires Possible(s, actions) && ListIs(s, p, repeats)
    ensures var (s', left) := (ApplyAll(s, actions), Repeats(s, actions, p, repeats));
            && ListIs(s', p, left)
            && (p in s'.peers && s'.peers[p].intact ==>
                  (FilterIsRight(s'.subs, s'.peers[p]) <==> forall t :: t in left ==> Wanted(s'.subs, t)))
    decreases |actions|
  {
    hide Apply, Enabled, RepeatsAfter;
    if actions == [] {
      if p in s.peers && s.peers[p].intact {
        RepeatsAreExtra(s.subs, s.peers[p], repeats);
      }
    } else {
      StepCountsRepeats(s, actions[0], p, repeats);
      RepeatsDecide(Apply(s, actions[0]), actions[1..], p, RepeatsAfter(s, actions[0], p, repeats));
    }
  }

  lemma RepeatsAreExtra(subs: set<Topic>, link: Link, repeats: multiset<Topic>)
    requires link.intact && multiset(PublisherList(link)) == multiset(subs) + repeats
    ensures FilterIsRight(subs, link) <==> forall t :: t in repeats ==> Wanted(subs, t)
  {
    hide FilterIsRight, PublisherList;
    forall t
      ensures t in PublisherList(link) <==> t in subs || t in repeats
      ensures t in subs ==> Wanted(subs, t)
    {
      InListIsCounted(PublisherList(link), t);
      assert multiset(subs)[t] > 0 <==> t in subs;
      assert HasPrefix(t, t);
    }
    FilterIsRightIff(subs, link);
  }

  /**
   What any publisher's list lets through, also after a frame was lost: everything wanted passes if
   and only if every remembered topic has a prefix in the list.
   */
  lemma WantedPassesIff(subs: set<Topic>, list: seq<Topic>)
    ensures (forall frame :: Wanted(subs, frame) ==> SubscriptionMatches(list, frame))
        <==> forall t :: t in subs ==> AnyPrefix(list, t)
  {
    hide SubscriptionMatches;
    forall frame
      ensures SubscriptionMatches(list, frame) <==> AnyPrefix(list, frame)
    {
      FastFilterIsAnyPrefix(list, frame);
    }
    if forall t :: t in subs ==> AnyPrefix(list, t) {
      forall frame | Wanted(subs, frame)
        ensures SubscriptionMatches(list, frame)
      {
        var t :| t in subs && HasPrefix(frame, t);
        var i :| 0 <= i < |list| && HasPrefix(t, list[i]);
        PrefixOfPrefix(frame, t, list[i]);
      }
    }
    if t :| t in subs && !AnyPrefix(list, t) {
      assert HasPrefix(t, t);
      assert Wanted(subs, t) && !SubscriptionMatches(list, t);
    }
  }

  /**
   A send that fails without a broken pipe keeps the publisher connected: a run from the empty
   subscriber after which the publisher filters out a topic that is remembered.
   */
  lemma LostFrameFiltersWanted(p: PeerId, t: Topic)
    ensures var run := [Action.Connect(p, [])] + ([Subscribe(t, map[p := OtherFailure])] + []);
            var (s, s') := (State({}, map[]), ApplyAll(State({}, map[]), run));
            && Possible(s, run) && Wanted(s'.subs, t) && p in s'.peers
            && !SubscriptionMatches(PublisherList(s'.peers[p]), t)
  {
    var s0 := State({}, map[]);
    assert Enumerates([], s0.subs);
    var s1 := Apply(s0, Action.Connect(p, []));
    var s2 := Apply(s1, Subscribe(t, map[p := OtherFailure]));
    assert s2.peers[p].sent == [];
    assert HasPrefix(t, t);
    ApplyAllCons(s1, Subscribe(t, map[p := OtherFailure]), []);
    ApplyAllCons(s0, Action.Connect(p, []), [Subscribe(t, map[p := OtherFailure])] + []);
  }

  lemma ApplyAllCons(s: State, a: Action, rest: seq<Action>)
    requires Enabled(s, a) && Possible(Apply(s, a), rest)
    ensures Possible(s, [a] + rest) && ApplyAll(s, [a] + rest) == ApplyAll(Apply(s, a), rest)
  {
    assert ([a] + rest)[1..] == rest;
  }

  /**
   A topic subscribed twice and unsubscribed once stays with the publisher: nothing is remembered
   any more, and yet its filter passes the topic.
   */
  lemma RepeatedSubscriptionLingers(p: PeerId, t: Topic)
    ensures var s := State({}, map[]);
            var last := [Unsubscribe(t, map[])] + [];
            var run := [Action.Connect(p, [])] + ([Subscribe(t, map[])] + ([Subscribe(t, map[])] + last));
            var s' := ApplyAll(s, run);
            && Possible(s, run) && s'.subs == {} && p in s'.peers && s'.peers[p].intact
            && SubscriptionMatches(PublisherList(s'.peers[p]), t)
  {
    hide ListFrom, ApplyControl, SubscribeFrame, UnsubscribeFrame, SubscriptionMatches;
    var s0 := State({}, map[]);
    assert Enumerates([], s0.subs);
    var s1 := Apply(s0, Action.Connect(p, []));
    var s2 := Apply(s1, Subscribe(t, map[]));
    var s3 := Apply(s2, Subscribe(t, map[]));
    var s4 := Apply(s3, Unsubscribe(t, map[]));
    assert ListIs(s1, p, multiset{}) by {
      ReplayAgrees([], {});
    }
    StepCountsRepeats(s1, Subscribe(t, map[]), p, multiset{});
    StepCountsRepeats(s2, Subscribe(t, map[]), p, multiset{});
    StepCountsRepeats(s3, Unsubscribe(t, map[]), p, multiset{t});
    var list := PublisherList(s4.peers[p]);
    InListIsCounted(list, t);
    var i :| 0 <= i < |list| && list[i] == t;
    assert HasPrefix(t, list[i]);
    FastFilterIsAnyPrefix(list, t);
    ApplyAllCons(s3, Unsubscribe(t, map[]), []);
    ApplyAllCons(s2, Subscribe(t, map[]), [Unsubscribe(t, map[])] + []);
    ApplyAllCons(s1, Subscribe(t, map[]), [Subscribe(t, map[])] + ([Unsubscribe(t, map[])] + []));
    var last := [Unsubscribe(t, map[])] + [];
    ApplyAllCons(s0, Action.Connect(p, []), [Subscribe(t, map[])] + ([Subscribe(t, map[])] + last));
  }

  // ----- The backend -----

  class SubSocketBackend {
    var subs: set<Topic>
    var peers: map<PeerId, Link>

    ghost function View(): State
      reads this
    {
      State(subs, peers)
    }

    constructor ()
      ensures View() == State({}, map[]) && AllAgree(subs, peers)
    {
      subs, peers := {}, map[];
    }

    method RememberSubscription(t: Topic)
      modifies this`subs
      ensures subs == old(subs) + {t}
    {
      subs := subs + {t};
    }

    method ForgetSubscription(t: Topic)
      modifies this`subs
      ensures subs == old(subs) - {t}
    {
      subs := subs - {t};
    }

    /**
     `apply_subscription_message`: true exactly for the frames that `SubscribeFrame` and
     `UnsubscribeFrame` build, whose effect on the set it then applies.
     */
    method ApplySubscriptionMessage(m: Message) returns (control: bool)
      modifies this`subs
      ensures control <==> exists t :: m == SubscribeFrame(t) || m == UnsubscribeFrame(t)
      ensures forall t :: m == SubscribeFrame(t) ==> subs == old(subs) + {t}
      ensures forall t :: m == UnsubscribeFrame(t) ==> subs == old(subs) - {t}
      ensures !control ==> subs == old(subs)
    {
      if m == [] {
        return false;
      }
      var frame := m[0];
      if |m| != 1 || frame == [] {
        return false;
      }
      assert frame == [frame[0]] + frame[1..];
      assert m == [frame];
      assert forall t: Topic :: ([1] + t)[1..] == t && ([0] + t)[1..] == t;
      assert forall t: Topic :: ([1] + t)[0] == 1 && ([0] + t)[0] == 0;
      if frame[0] == 1 {
        assert m == SubscribeFrame(frame[1..]);
        RememberSubscription(frame[1..]);
        return true;
      } else if frame[0] == 0 {
        assert m == UnsubscribeFrame(frame[1..]);
        ForgetSubscription(frame[1..]);
        return true;
      }
      return false;
    }

    /**
     `broadcast_control_message`: sends to the peers known at the start, then drops those whose pipe
     was broken. The call fails if any send failed, but every other peer has been sent the frame.
     */
    method BroadcastControlMessage(m: Message, failures: map<PeerId, Failure>) returns (ok: bool)
      modifies this`peers
      ensures peers == Broadcast(old(peers), m, failures)
      ensures ok <==> forall p :: p in old(peers) ==> p !in failures
    {
      var targets := peers.Keys;
      var deadPeers: set<PeerId> := {};
      ok := true;
      while targets != {}
        invariant targets <= old(peers).Keys && peers.Keys == old(peers).Keys
        invariant forall p :: p in peers ==>
                    peers[p] == if p in targets then old(peers)[p]
                                else SendOver(old(peers)[p], m, FailureOf(failures, p))
        invariant forall p :: p in deadPeers <==>
                                p in peers && p !in targets && FailureOf(failures, p) == Some(BrokenPipe)
        invariant ok <==> forall p :: p in peers && p !in targets ==> p !in failures
        decreases targets
      {
        var p :| p in targets;
        targets := targets - {p};
        peers := peers[p := SendOver(peers[p], m, FailureOf(failures, p))];
        if p in failures {
          ok := false;
          if failures[p].BrokenPipe? {
            deadPeers := deadPeers + {p};
          }
        }
      }
      peers := peers - deadPeers;
    }

    method Subscribe(t: Topic, failures: map<PeerId, Failure>) returns (ok: bool)
      modifies this
      ensures View() == Apply(old(View()), Action.Subscribe(t, failures))
      ensures AllAgree(old(subs), old(peers)) && t !in old(subs) ==> AllAgree(subs, peers)
    {
      ghost var before := View();
      RememberSubscription(t);
      ok := BroadcastControlMessage(SubscribeFrame(t), failures);
      if AllAgree(before.subs, before.peers) {
        StepKeepsAgreementIff(before, Action.Subscribe(t, failures));
      }
    }

    method Unsubscribe(t: Topic, failures: map<PeerId, Failure>) returns (ok: bool)
      modifies this
      ensures View() == Apply(old(View()), Action.Unsubscribe(t, failures))
      ensures AllAgree(old(subs), old(peers)) ==> AllAgree(subs, peers)
    {
      ghost var before := View();
      ForgetSubscription(t);
      ok := BroadcastControlMessage(UnsubscribeFrame(t), failures);
      if AllAgree(before.subs, before.peers) {
        StepKeepsAgreementIff(before, Action.Unsubscribe(t, failures));
      }
    }

    /** The remembered topics as subscribe frames, in some order of the set. */
    method SubscriptionMessages() returns (messages: seq<Message>, ghost order: seq<Topic>)
      ensures Enumerates(order, subs) && messages == SubscribeFrames(order)
    {
      var left := subs;
      messages, order := [], [];
      while left != {}
        invariant left <= subs && messages == SubscribeFrames(order)
        invariant Enumerates(order, subs - left)
        decreases left
      {
        var t :| t in left;
        left := left - {t};
        messages := messages + [SubscribeFrame(t)];
        order := order + [t];
      }
      assert subs - left == subs;
    }

    /**
     `peer_connected`: every remembered subscription is replayed on the new connection before the
     peer is known; if a send fails the peer is not added.
     */
    method PeerConnected(peer: PeerId, failAt: Option<nat>) returns (ghost order: seq<Topic>)
      modifies this`peers
      ensures Enumerates(order, subs)
      ensures failAt.None? || failAt.value >= |order| ==> View() == Apply(old(View()), Action.Connect(peer, order))
      ensures failAt.Some? && failAt.value < |order| ==> View() == old(View())
      ensures AllAgree(old(subs), old(peers)) ==> AllAgree(subs, peers)
    {
      ghost var before := View();
      var messages;
      messages, order := SubscriptionMessages();
      var link := Link([], true);
      for i := 0 to |messages|
        invariant link == Link(messages[..i], true)
        invariant failAt.Some? ==> i <= failAt.value
      {
        if failAt == Some(i) {
          return;
        }
        link := link.(sent := link.sent + [messages[i]]);
      }
      assert messages[..|messages|] == messages;
      peers := peers[peer := link];
      if AllAgree(before.subs, before.peers) {
        StepKeepsAgreementIff(before, Action.Connect(peer, order));
      }
    }

    method PeerDisconnected(peer: PeerId)
      modifies this`peers
      ensures View() == Apply(old(View()), Action.Disconnect(peer))
      ensures AllAgree(old(subs), old(peers)) ==> AllAgree(subs, peers)
    {
      peers := peers - {peer};
    }
  }
}
