/**
 `GenericSocketBackend`: the peer map, the round-robin queue that may hold stale ids, and the cache
 of a single peer. Connect, disconnect, shutdown and a send that runs to completion are atomic.
 */
module Backend {
  import opened Wrappers
  import opened Sequences

  type PeerId = nat
  type QueueId = nat

  datatype Message = GreetingMessage | CommandMessage | DataMessage(content: nat)

  const PEER_SEND_QUEUE_CAPACITY: nat := 100_000

  /** A peer's bounded queue to its writer task: what was accepted and how much was taken. */
  datatype Chan = Chan(sent: seq<Message>, taken: nat, open: bool)

  predicate Full(c: Chan) {
    |c.sent| - c.taken >= PEER_SEND_QUEUE_CAPACITY
  }

  /** How the wait of a sender on a full queue ends. */
  datatype Wait = Drains | Closes

  datatype SinglePeer = SinglePeer(peer: PeerId, queue: QueueId)

  datatype State = State(
    peers: map<PeerId, QueueId>,
    queues: map<QueueId, Chan>,
    roundRobin: seq<PeerId>,
    single: Option<SinglePeer>,
    peerCount: nat,
    nextQueue: QueueId,
    fairQueue: Option<set<PeerId>>)

  datatype SendResult =
    | Sent
    | QueueError
    | ReturnToSender(message: Message)
    | NotSupported
    | NotFound

  /**
   Every peer's queue exists, queue ids are not reused, and no two peers share a queue. The fair
   queue of a socket that receives holds a stream for each live peer and for nobody else.
   */
  ghost predicate WellFormed(s: State) {
    && (forall p :: p in s.peers ==> s.peers[p] in s.queues)
    && (forall q :: q in s.queues ==> q < s.nextQueue)
    && (forall p, p' :: p in s.peers && p' in s.peers && s.peers[p] == s.peers[p'] ==> p == p')
    && (s.fairQueue.Some? ==> s.fairQueue.value == s.peers.Keys)
  }

  // ----- The cache -----

  ghost function TheOnly(peers: map<PeerId, QueueId>): (r: SinglePeer)
    requires |peers| == 1
    ensures peers == map[r.peer := r.queue]
  {
    assert |peers.Keys| == 1;
    var p :| p in peers;
    OnlyKey(peers, p);
    SinglePeer(p, peers[p])
  }

  lemma OnlyKey(peers: map<PeerId, QueueId>, p: PeerId)
    requires |peers| == 1 && p in peers
    ensures peers == map[p := peers[p]]
  {
    assert |peers.Keys - {p}| == 0;
    assert peers.Keys - {p} == {};
    assert peers.Keys == {p};
  }

  /** `refresh_single_peer_cache`, as one step. */
  ghost function Refresh(s: State): State {
    s.(peerCount := |s.peers|, single := if |s.peers| == 1 then Some(TheOnly(s.peers)) else None)
  }

  /** The cache is present exactly when one peer is live, and holds that peer and its current queue. */
  ghost predicate CacheExact(s: State) {
    && s.peerCount == |s.peers|
    && (s.single.Some? <==> |s.peers| == 1)
    && (s.single.Some? ==> s.peers == map[s.single.value.peer := s.single.value.queue])
  }

  // ----- Connecting and disconnecting -----

  /** A new queue for `p`, which replaces the one it may have, and its stream in the fair queue. */
  function Admit(s: State, p: PeerId): State {
    s.(peers := s.peers[p := s.nextQueue],
       queues := s.queues[s.nextQueue := Chan([], 0, true)],
       nextQueue := s.nextQueue + 1,
       fairQueue := if s.fairQueue.Some? then Some(s.fairQueue.value + {p}) else None)
  }

  function Expel(s: State, p: PeerId): State {
    s.(peers := s.peers - {p},
       fairQueue := if s.fairQueue.Some? then Some(s.fairQueue.value - {p}) else None)
  }

  ghost function ConnectPeer(s: State, p: PeerId): State {
    Refresh(Admit(s, p)).(roundRobin := s.roundRobin + [p])
  }

  ghost function DisconnectPeer(s: State, p: PeerId): State {
    Refresh(Expel(s, p))
  }

  function ShutDown(s: State): State {
    s.(peers := map[], single := None, peerCount := 0, fairQueue := if s.fairQueue.Some? then Some({}) else None)
  }

  // ----- Sending -----

  /** `send_to_peer_queue`: `try_send`, and a wait when the queue is full. */
  function SendOn(c: Chan, m: Message, wait: Wait): (bool, Chan) {
    if !c.open then (false, c)
    else if !Full(c) then (true, c.(sent := c.sent + [m]))
    else match wait
      case Drains => (true, c.(taken := c.taken + 1, sent := c.sent + [m]))
      case Closes => (false, c.(open := false))
  }

  /** Sends on a peer's queue; a failure disconnects the peer. */
  ghost function SendTo(s: State, p: PeerId, q: QueueId, m: Message, wait: Wait): (SendResult, State)
    requires q in s.queues
  {
    var (ok, c) := SendOn(s.queues[q], m, wait);
    var s' := s.(queues := s.queues[q := c]);
    if ok then (Sent, s') else (QueueError, DisconnectPeer(s', p))
  }

  function NoPeers(m: Message): SendResult {
    if m.DataMessage? then ReturnToSender(m) else NotSupported
  }

  /** The loop of `send_round_robin`: pops ids, skips stale ones, rotates the one it sends to. */
  ghost function SlowRoundRobin(s: State, m: Message, wait: Wait): (SendResult, State)
    requires WellFormed(s)
    decreases |s.roundRobin|
  {
    if s.roundRobin == [] then (NoPeers(m), s) else
    var p, popped := s.roundRobin[0], s.(roundRobin := s.roundRobin[1..]);
    if p !in s.peers then SlowRoundRobin(popped, m, wait) else
    var (r, s') := SendTo(popped, p, s.peers[p], m, wait);
    if r.Sent? then (r, s'.(roundRobin := s'.roundRobin + [p])) else (r, s')
  }

  ghost function SlowToPeer(s: State, p: PeerId, m: Message, wait: Wait): (SendResult, State)
    requires WellFormed(s)
  {
    if p in s.peers then SendTo(s, p, s.peers[p], m, wait) else (NotFound, s)
  }

  /** `try_send_cached_single_peer` would use the cache. */
  predicate CacheHit(s: State, expected: Option<PeerId>) {
    && s.peerCount == 1 && s.single.Some?
    && (expected.Some? ==> s.single.value.peer == expected.value)
  }

  ghost function SendRoundRobin(s: State, m: Message, wait: Wait): (SendResult, State)
    requires WellFormed(s) && CacheExact(s)
  {
    if CacheHit(s, None) then SendTo(s, s.single.value.peer, s.single.value.queue, m, wait)
    else SlowRoundRobin(s, m, wait)
  }

  ghost function SendToPeer(s: State, p: PeerId, m: Message, wait: Wait): (SendResult, State)
    requires WellFormed(s) && CacheExact(s)
  {
    if CacheHit(s, Some(p)) then SendTo(s, s.single.value.peer, s.single.value.queue, m, wait)
    else SlowToPeer(s, p, m, wait)
  }

  // ----- The round-robin queue, restricted to live peers -----

  function LiveIds(ids: seq<PeerId>, live: set<PeerId>): seq<PeerId> {
    if ids == [] then []
    else (if ids[0] in live then [ids[0]] else []) + LiveIds(ids[1..], live)
  }

  ghost function Live(s: State): seq<PeerId> {
    LiveIds(s.roundRobin, s.peers.Keys)
  }

  lemma {:induction false} LiveIdsAppend(ids: seq<PeerId>, last: PeerId, live: set<PeerId>)
    ensures LiveIds(ids + [last], live) == LiveIds(ids, live) + if last in live then [last] else []
  {
    if ids == [] {
      assert ids + [last] == [last];
      assert LiveIds([last][1..], live) == [];
    } else {
      assert (ids + [last])[0] == ids[0] && (ids + [last])[1..] == ids[1..] + [last];
      LiveIdsAppend(ids[1..], last, live);
      Associate(if ids[0] in live then [ids[0]] else [], LiveIds(ids[1..], live), if last in live then [last] else []);
    }
  }

  lemma {:induction false} LiveIdsMembers(ids: seq<PeerId>, live: set<PeerId>)
    ensures forall p :: p in LiveIds(ids, live) <==> p in ids && p in live
    ensures |LiveIds(ids, live)| <= |ids|
  {
    if ids != [] {
      LiveIdsMembers(ids[1..], live);
      assert ids == [ids[0]] + ids[1..];
    }
  }

  /** Removing a peer removes exactly its ids. */
  lemma {:induction false} LiveIdsShrink(ids: seq<PeerId>, live: set<PeerId>, p: PeerId)
    ensures LiveIds(ids, live - {p}) == LiveIds(LiveIds(ids, live), live - {p})
  {
    if ids != [] {
      LiveIdsShrink(ids[1..], live, p);
      var tail := LiveIds(ids[1..], live);
      if ids[0] in live {
        assert ([ids[0]] + tail)[1..] == tail;
      } else {
        assert [] + tail == tail;
      }
    }
  }

  lemma {:induction false} LiveIdsGrow(ids: seq<PeerId>, live: set<PeerId>, p: PeerId)
    requires p in live || p !in ids
    ensures LiveIds(ids, live + {p}) == LiveIds(ids, live)
  {
    if ids != [] {
      LiveIdsGrow(ids[1..], live, p);
    }
  }

  /** Every live peer has a turn coming. */
  ghost predicate LiveAreQueued(s: State) {
    forall p :: p in s.peers ==> p in s.roundRobin
  }

  ghost predicate Inv(s: State) {
    WellFormed(s) && CacheExact(s) && LiveAreQueued(s)
  }

  // ----- The invariant -----

  lemma RefreshIsExact(s: State)
    ensures CacheExact(Refresh(s))
  {
  }

  lemma ConnectKeepsInv(s: State, p: PeerId)
    requires Inv(s)
    ensures Inv(ConnectPeer(s, p))
  {
  }

  lemma DisconnectKeepsInv(s: State, p: PeerId)
    requires WellFormed(s) && forall x :: x in s.peers && x != p ==> x in s.roundRobin
    ensures Inv(DisconnectPeer(s, p))
  {
  }

  lemma DisconnectOfInv(s: State, p: PeerId)
    requires Inv(s)
    ensures Inv(DisconnectPeer(s, p))
  {
    DisconnectKeepsInv(s, p);
  }

  lemma ShutDownKeepsInv(s: State)
    requires Inv(s)
    ensures Inv(ShutDown(s))
  {
  }

  lemma RefreshKeepsRest(s: State)
    ensures var r := Refresh(s);
            r.peers == s.peers && r.queues == s.queues && r.roundRobin == s.roundRobin && r.nextQueue == s.nextQueue
            && r.fairQueue == s.fairQueue
  {
  }

  /** What a send on a live peer's queue does to the state. */
  lemma SendToEffect(s: State, p: PeerId, q: QueueId, m: Message, wait: Wait)
    requires q in s.queues
    ensures var ((r, s'), (ok, c)) := (SendTo(s, p, q, m, wait), SendOn(s.queues[q], m, wait));
            && r == (if ok then Sent else QueueError)
            && s'.roundRobin == s.roundRobin && s'.nextQueue == s.nextQueue && s'.queues == s.queues[q := c]
            && s'.peers == (if ok then s.peers else s.peers - {p})
            && s'.fairQueue == (if ok then s.fairQueue else Expel(s, p).fairQueue)
            && (ok ==> s'.single == s.single && s'.peerCount == s.peerCount)
            && (!ok ==> CacheExact(s'))
  {
    hide Refresh, CacheExact;
    var (ok, c) := SendOn(s.queues[q], m, wait);
    if !ok {
      var s1 := Expel(s.(queues := s.queues[q := c]), p);
      RefreshIsExact(s1);
      RefreshKeepsRest(s1);
      assert SendTo(s, p, q, m, wait).1 == Refresh(s1);
    }
  }

  lemma SendToKeeps(s: State, p: PeerId, q: QueueId, m: Message, wait: Wait)
    requires WellFormed(s) && CacheExact(s) && q in s.queues
    ensures WellFormed(SendTo(s, p, q, m, wait).1) && CacheExact(SendTo(s, p, q, m, wait).1)
  {
    hide SendTo, SendOn;
    SendToEffect(s, p, q, m, wait);
  }

  /** The round-robin queue plays no part in a send on a given peer's queue. */
  lemma SendToIgnoresRotation(s: State, ids: seq<PeerId>, p: PeerId, q: QueueId, m: Message, wait: Wait)
    requires q in s.queues
    ensures var (r, s') := SendTo(s, p, q, m, wait);
            SendTo(s.(roundRobin := ids), p, q, m, wait) == (r, s'.(roundRobin := ids))
  {
  }

  /** The rotation that a send leaves behind: stale ids in front are gone, the peer served is last. */
  function Rotated(ids: seq<PeerId>, live: set<PeerId>, sent: bool): seq<PeerId> {
    if ids == [] then []
    else if ids[0] in live then ids[1..] + if sent then [ids[0]] else []
    else Rotated(ids[1..], live, sent)
  }

  /** The slow loop skips stale ids, sends to the first live one, and rotates. */
  lemma {:induction false} SlowServesFirstLive(s: State, m: Message, wait: Wait)
    requires WellFormed(s)
    ensures Live(s) == [] ==> SlowRoundRobin(s, m, wait) == (NoPeers(m), s.(roundRobin := []))
    ensures Live(s) != [] ==>
              var p := Live(s)[0];
              && p in s.peers && s.peers[p] in s.queues
              && var (r, s') := SendTo(s, p, s.peers[p], m, wait);
                 SlowRoundRobin(s, m, wait) == (r, s'.(roundRobin := Rotated(s.roundRobin, s.peers.Keys, r.Sent?)))
    decreases |s.roundRobin|
  {
    hide SendTo;
    if s.roundRobin != [] {
      var p, popped := s.roundRobin[0], s.(roundRobin := s.roundRobin[1..]);
      if p !in s.peers {
        assert Live(s) == Live(popped);
        SlowServesFirstLive(popped, m, wait);
        if Live(s) != [] {
          var first := Live(s)[0];
          LiveIdsMembers(s.roundRobin, s.peers.Keys);
          SendToIgnoresRotation(s, s.roundRobin[1..], first, s.peers[first], m, wait);
        }
      } else {
        assert Live(s)[0] == p;
        assert s.roundRobin[1..] + [] == s.roundRobin[1..];
        SendToIgnoresRotation(s, s.roundRobin[1..], p, s.peers[p], m, wait);
      }
    }
  }

  lemma {:induction false} RotatedLive(ids: seq<PeerId>, live: set<PeerId>, sent: bool)
    requires LiveIds(ids, live) != []
    ensures var l := LiveIds(ids, live);
            LiveIds(Rotated(ids, live, sent), live) == l[1..] + if sent then [l[0]] else []
    ensures forall p :: p in Rotated(ids, live, sent) ==> p in ids
  {
    if ids[0] in live {
      if sent {
        LiveIdsAppend(ids[1..], ids[0], live);
      } else {
        assert ids[1..] + [] == ids[1..];
      }
    } else {
      RotatedLive(ids[1..], live, sent);
    }
  }

  lemma {:induction false} RotatedKeepsLive(ids: seq<PeerId>, live: set<PeerId>, sent: bool, p: PeerId)
    requires LiveIds(ids, live) != [] && p in ids && p in live
    requires sent || p != LiveIds(ids, live)[0]
    ensures p in Rotated(ids, live, sent)
  {
    if ids[0] in live {
      assert p != ids[0] ==> p in ids[1..] by {
        if p != ids[0] {
          var i :| 0 <= i < |ids| && ids[i] == p;
          assert ids[1..][i - 1] == p;
        }
      }
    } else {
      var i :| 0 <= i < |ids| && ids[i] == p;
      assert ids[1..][i - 1] == p;
      RotatedKeepsLive(ids[1..], live, sent, p);
    }
  }

  lemma {:induction false} AllSame(ids: seq<PeerId>, p: PeerId)
    requires ids != [] && forall x :: x in ids ==> x == p
    ensures ids[1..] + [ids[0]] == ids
  {
    assert forall i :: 0 <= i < |ids| ==> ids[i] in ids;
  }

  lemma {:induction false} NobodyLive(ids: seq<PeerId>)
    ensures LiveIds(ids, {}) == []
  {
    if ids != [] {
      NobodyLive(ids[1..]);
    }
  }

  lemma SingleIsFirstLive(s: State)
    requires Inv(s) && CacheHit(s, None)
    ensures Live(s) != [] && (forall x :: x in Live(s) ==> x == s.single.value.peer)
    ensures Live(s)[0] == s.single.value.peer && s.peers[Live(s)[0]] == s.single.value.queue
  {
    LiveIdsMembers(s.roundRobin, s.peers.Keys);
    assert s.single.value.peer in s.peers;
    assert Live(s)[0] in Live(s);
  }

  /** The state apart from the round-robin queue. */
  function Rest(s: State): State {
    s.(roundRobin := [])
  }

  /**
   The cache refines the slow path: a cached send has the same outcome and the same effect on peers
   and queues, and leaves the round-robin queue equal once restricted to live peers.
   */
  lemma CachedSendRefinesSlow(s: State, m: Message, wait: Wait)
    requires Inv(s)
    ensures var ((r, s1), (r', s2)) := (SendRoundRobin(s, m, wait), SlowRoundRobin(s, m, wait));
            r == r' && Rest(s1) == Rest(s2) && Live(s1) == Live(s2)
  {
    hide SendTo, SendOn, LiveIds;
    if CacheHit(s, None) {
      var p, q := s.single.value.peer, s.single.value.queue;
      SingleIsFirstLive(s);
      SlowServesFirstLive(s, m, wait);
      SendToEffect(s, p, q, m, wait);
      var (r, s1) := SendTo(s, p, q, m, wait);
      RotatedLive(s.roundRobin, s.peers.Keys, r.Sent?);
      if r.Sent? {
        AllSame(Live(s), p);
      } else {
        assert s1.peers.Keys == {};
        NobodyLive(s1.roundRobin);
        NobodyLive(Rotated(s.roundRobin, s.peers.Keys, false));
      }
    }
  }

  /** The same for a send to a given peer: there the two paths agree on the whole state. */
  lemma CachedSendToPeerIsSlow(s: State, p: PeerId, m: Message, wait: Wait)
    requires Inv(s)
    ensures SendToPeer(s, p, m, wait) == SlowToPeer(s, p, m, wait)
  {
  }

  lemma SlowKeepsInv(s: State, m: Message, wait: Wait)
    requires Inv(s)
    ensures Inv(SlowRoundRobin(s, m, wait).1)
  {
    hide SendTo, SendOn, Rotated, CacheExact, WellFormed, LiveIds, SlowRoundRobin;
    SlowServesFirstLive(s, m, wait);
    LiveIdsMembers(s.roundRobin, s.peers.Keys);
    var (r, s') := SlowRoundRobin(s, m, wait);
    if Live(s) == [] {
      assert forall p :: p in s.peers ==> p in Live(s);
      IgnoreRotation(s, []);
    } else {
      var p := Live(s)[0];
      SendToEffect(s, p, s.peers[p], m, wait);
      SendToKeeps(s, p, s.peers[p], m, wait);
      IgnoreRotation(SendTo(s, p, s.peers[p], m, wait).1, s'.roundRobin);
      forall x | x in s'.peers
        ensures x in s'.roundRobin
      {
        RotatedKeepsLive(s.roundRobin, s.peers.Keys, r.Sent?, x);
      }
    }
  }

  lemma IgnoreRotation(s: State, ids: seq<PeerId>)
    ensures CacheExact(s.(roundRobin := ids)) <==> CacheExact(s)
    ensures WellFormed(s.(roundRobin := ids)) <==> WellFormed(s)
  {
  }

  lemma SendToPeerKeepsInv(s: State, p: PeerId, m: Message, wait: Wait)
    requires Inv(s)
    ensures Inv(SendToPeer(s, p, m, wait).1)
  {
    hide SendTo, SendOn;
    CachedSendToPeerIsSlow(s, p, m, wait);
    if p in s.peers {
      SendToEffect(s, p, s.peers[p], m, wait);
      SendToKeeps(s, p, s.peers[p], m, wait);
    }
  }

  lemma SendRoundRobinKeepsInv(s: State, m: Message, wait: Wait)
    requires Inv(s)
    ensures Inv(SendRoundRobin(s, m, wait).1)
  {
    hide SendTo, SendOn, SlowRoundRobin;
    if CacheHit(s, None) {
      var p, q := s.single.value.peer, s.single.value.queue;
      SendToEffect(s, p, q, m, wait);
      SendToKeeps(s, p, q, m, wait);
    } else {
      SlowKeepsInv(s, m, wait);
    }
  }

  // ----- Runs with and without the cache -----

  datatype Action =
    | Connect(peer: PeerId)
    | Disconnect(peer: PeerId)
    | Shutdown
    | Send(message: Message, wait: Wait)
    | SendPeer(peer: PeerId, message: Message, wait: Wait)
    | TakeFrom(queue: QueueId)
    | CloseQueue(queue: QueueId)

  function OnQueue(s: State, q: QueueId, close: bool): State {
    if q !in s.queues then s else
    var c := s.queues[q];
    s.(queues := s.queues[q := if close then c.(open := false)
                               else if c.taken < |c.sent| then c.(taken := c.taken + 1) else c])
  }

  ghost function Step(s: State, a: Action, cached: bool): (SendResult, State)
    requires Inv(s)
  {
    match a
    case Connect(p) => (Sent, ConnectPeer(s, p))
    case Disconnect(p) => (Sent, DisconnectPeer(s, p))
    case Shutdown => (Sent, ShutDown(s))
    case Send(m, wait) => if cached then SendRoundRobin(s, m, wait) else SlowRoundRobin(s, m, wait)
    case SendPeer(p, m, wait) => if cached then SendToPeer(s, p, m, wait) else SlowToPeer(s, p, m, wait)
    case TakeFrom(q) => (Sent, OnQueue(s, q, false))
    case CloseQueue(q) => (Sent, OnQueue(s, q, true))
  }

  lemma StepKeepsInv(s: State, a: Action, cached: bool)
    requires Inv(s)
    ensures Inv(Step(s, a, cached).1)
  {
    hide SendTo, SendOn, SlowRoundRobin, SendRoundRobin, SendToPeer, SlowToPeer, ConnectPeer, DisconnectPeer;
    match a
    case Connect(p) => ConnectKeepsInv(s, p);
    case Disconnect(p) => DisconnectKeepsInv(s, p);
    case Send(m, wait) =>
      SendRoundRobinKeepsInv(s, m, wait);
      SlowKeepsInv(s, m, wait);
    case SendPeer(p, m, wait) =>
      SendToPeerKeepsInv(s, p, m, wait);
      CachedSendToPeerIsSlow(s, p, m, wait);
    case _ =>
  }

  ghost function Run(s: State, actions: seq<Action>, cached: bool): (seq<SendResult>, State)
    requires Inv(s)
    decreases |actions|
  {
    if actions == [] then ([], s) else
    StepKeepsInv(s, actions[0], cached);
    var (r, s1) := Step(s, actions[0], cached);
    var (rs, s2) := Run(s1, actions[1..], cached);
    ([r] + rs, s2)
  }

  /** With and without the cache: same peers, queues and cache, and the same live rotation. */
  ghost predicate Similar(c: State, u: State) {
    Rest(c) == Rest(u) && Live(c) == Live(u)
  }

  lemma ConnectKeepsSimilar(c: State, u: State, p: PeerId)
    requires Similar(c, u) && (p in c.peers || (p !in c.roundRobin && p !in u.roundRobin))
    ensures Similar(ConnectPeer(c, p), ConnectPeer(u, p))
  {
    hide LiveIds, Refresh;
    RefreshKeepsRest(Admit(c, p));
    RefreshKeepsRest(Admit(u, p));
    RefreshIgnoresRotation(Admit(c, p), u.roundRobin);
    var live := c.peers.Keys + {p};
    assert ConnectPeer(c, p).peers.Keys == live && ConnectPeer(u, p).peers.Keys == live;
    LiveIdsGrow(c.roundRobin, c.peers.Keys, p);
    LiveIdsGrow(u.roundRobin, u.peers.Keys, p);
    LiveIdsAppend(c.roundRobin, p, live);
    LiveIdsAppend(u.roundRobin, p, live);
  }

  lemma RefreshIgnoresStreams(s: State, streams: Option<set<PeerId>>)
    ensures Refresh(s.(fairQueue := streams)) == Refresh(s).(fairQueue := streams)
    ensures Refresh(s).fairQueue == s.fairQueue
  {
  }

  lemma AdmittedFirst(s: State, p: PeerId)
    ensures var r := Refresh(Admit(s, p).(fairQueue := s.fairQueue));
            && r.roundRobin == s.roundRobin && r.fairQueue == s.fairQueue
            && ConnectPeer(s, p) == r.(roundRobin := s.roundRobin + [p], fairQueue := Admit(s, p).fairQueue)
  {
    RefreshIgnoresStreams(Admit(s, p), s.fairQueue);
    RefreshKeepsRest(Admit(s, p));
  }

  lemma RefreshIgnoresRotation(s: State, ids: seq<PeerId>)
    ensures Refresh(s.(roundRobin := ids)) == Refresh(s).(roundRobin := ids)
  {
  }

  lemma DisconnectKeepsSimilar(c: State, u: State, p: PeerId)
    requires Similar(c, u)
    ensures Similar(DisconnectPeer(c, p), DisconnectPeer(u, p))
  {
    hide LiveIds, Refresh;
    RefreshKeepsRest(Expel(c, p));
    RefreshKeepsRest(Expel(u, p));
    RefreshIgnoresRotation(Expel(c, p), u.roundRobin);
    LiveIdsShrink(c.roundRobin, c.peers.Keys, p);
    LiveIdsShrink(u.roundRobin, u.peers.Keys, p);
  }

  lemma SlowKeepsSimilar(c: State, u: State, m: Message, wait: Wait)
    requires Inv(c) && Inv(u) && Similar(c, u)
    ensures var ((r, c'), (r', u')) := (SlowRoundRobin(c, m, wait), SlowRoundRobin(u, m, wait));
            r == r' && Similar(c', u')
  {
    hide CacheExact, LiveAreQueued, SendOn, LiveIds, SendTo, Rotated, SlowRoundRobin;
    SlowServesFirstLive(c, m, wait);
    SlowServesFirstLive(u, m, wait);
    LiveIdsMembers(c.roundRobin, c.peers.Keys);
    if Live(c) == [] {
    } else {
      var p := Live(c)[0];
      assert p in Live(c);
      var q := c.peers[p];
      assert u == c.(roundRobin := u.roundRobin);
      SendToIgnoresRotation(c, u.roundRobin, p, q, m, wait);
      SendToEffect(c, p, q, m, wait);
      var (r, c') := SendTo(c, p, q, m, wait);
      RotatedLive(c.roundRobin, c.peers.Keys, r.Sent?);
      RotatedLive(u.roundRobin, u.peers.Keys, r.Sent?);
      if !r.Sent? {
        LiveIdsShrink(Rotated(c.roundRobin, c.peers.Keys, false), c.peers.Keys, p);
        LiveIdsShrink(Rotated(u.roundRobin, u.peers.Keys, false), u.peers.Keys, p);
      }
    }
  }

  lemma SendKeepsSimilar(c: State, u: State, m: Message, wait: Wait)
    requires Inv(c) && Inv(u) && Similar(c, u)
    ensures var ((r, c'), (r', u')) := (SendRoundRobin(c, m, wait), SlowRoundRobin(u, m, wait));
            r == r' && Similar(c', u')
  {
    hide LiveIds, SlowRoundRobin, SendRoundRobin;
    CachedSendRefinesSlow(c, m, wait);
    SlowKeepsSimilar(c, u, m, wait);
  }

  lemma SendToPeerKeepsSimilar(c: State, u: State, p: PeerId, m: Message, wait: Wait)
    requires Inv(c) && Inv(u) && Similar(c, u)
    ensures var ((r, c'), (r', u')) := (SendToPeer(c, p, m, wait), SlowToPeer(u, p, m, wait));
            r == r' && Similar(c', u') && c'.roundRobin == c.roundRobin && u'.roundRobin == u.roundRobin
  {
    hide LiveIds, SendTo, SendToPeer;
    CachedSendToPeerIsSlow(c, p, m, wait);
    if p in c.peers {
      var q := c.peers[p];
      assert u == c.(roundRobin := u.roundRobin);
      SendToIgnoresRotation(c, u.roundRobin, p, q, m, wait);
      SendToEffect(c, p, q, m, wait);
      LiveIdsShrink(c.roundRobin, c.peers.Keys, p);
      LiveIdsShrink(u.roundRobin, u.peers.Keys, p);
    }
  }

  lemma QueueStepKeepsSimilar(c: State, u: State, q: QueueId, close: bool)
    requires Similar(c, u)
    ensures Similar(OnQueue(c, q, close), OnQueue(u, q, close))
  {
    hide LiveIds;
  }

  lemma ShutDownKeepsSimilar(c: State, u: State)
    requires Similar(c, u)
    ensures Similar(ShutDown(c), ShutDown(u))
  {
    assert ShutDown(c).peers.Keys == {} && ShutDown(u).peers.Keys == {};
    NobodyLive(c.roundRobin);
    NobodyLive(u.roundRobin);
  }

  // ----- How far the stale ids reach -----

  /** How many live ids stand before the last copy of `x`; -1 if there is no copy. */
  function Reach(ids: seq<PeerId>, live: set<PeerId>, x: PeerId): (r: int)
    ensures -1 <= r && (r >= 0 <==> x in ids)
  {
    if ids == [] then -1 else
    var r := Reach(ids[1..], live, x);
    if r >= 0 then r + (if ids[0] in live then 1 else 0)
    else if ids[0] == x then 0 else -1
  }

  /**
   The last copy of each id in `b` has a copy in `a` with at least as many live ids before it. The
   cache leaves stale ids behind that the slow path would have dropped, never the other way round.
   */
  ghost predicate Covers(a: seq<PeerId>, b: seq<PeerId>, live: set<PeerId>) {
    forall x :: Reach(b, live, x) <= Reach(a, live, x)
  }

  lemma {:induction false} ReachAppend(ids: seq<PeerId>, last: PeerId, live: set<PeerId>, x: PeerId)
    ensures Reach(ids + [last], live, x) == if x == last then |LiveIds(ids, live)| else Reach(ids, live, x)
  {
    if ids == [] {
      assert ids + [last] == [last];
    } else {
      assert (ids + [last])[0] == ids[0] && (ids + [last])[1..] == ids[1..] + [last];
      ReachAppend(ids[1..], last, live, x);
    }
  }

  lemma {:induction false} ReachGrow(ids: seq<PeerId>, live: set<PeerId>, p: PeerId, x: PeerId)
    requires p in live || p !in ids
    ensures Reach(ids, live + {p}, x) == Reach(ids, live, x)
  {
    if ids != [] {
      ReachGrow(ids[1..], live, p, x);
    }
  }

  /** One turn of the slow loop brings every id one live place nearer and drops those at the front. */
  lemma {:induction false} ReachRotated(ids: seq<PeerId>, live: set<PeerId>, sent: bool, x: PeerId)
    requires LiveIds(ids, live) != []
    ensures var (l, r) := (LiveIds(ids, live), Reach(ids, live, x));
            Reach(Rotated(ids, live, sent), live, x)
            == if sent && x == l[0] then |l| - 1 else if r > 0 then r - 1 else -1
  {
    if ids[0] in live {
      if sent {
        ReachAppend(ids[1..], ids[0], live, x);
      } else {
        assert ids[1..] + [] == ids[1..];
      }
    } else {
      ReachRotated(ids[1..], live, sent, x);
    }
  }

  lemma {:induction false} ReachBound(ids: seq<PeerId>, live: set<PeerId>, x: PeerId)
    ensures Reach(ids, live, x) <= |LiveIds(ids, live)|
  {
    if ids != [] {
      ReachBound(ids[1..], live, x);
    }
  }

  /** When a peer goes, a copy keeps those live ids before it that are not the peer's. */
  lemma {:induction false} ReachShrink(ids: seq<PeerId>, live: set<PeerId>, p: PeerId, x: PeerId)
    requires x in ids
    ensures var (l, r) := (LiveIds(ids, live), Reach(ids, live, x));
            0 <= r <= |l| && Reach(ids, live - {p}, x) == |LiveIds(l[..r], live - {p})|
  {
    ReachBound(ids, live, x);
    var tail, r := ids[1..], Reach(ids[1..], live, x);
    if x in tail {
      ReachShrink(tail, live, p, x);
      if ids[0] in live {
        assert LiveIds(ids, live)[..r + 1] == [ids[0]] + LiveIds(tail, live)[..r];
        assert ([ids[0]] + LiveIds(tail, live)[..r])[1..] == LiveIds(tail, live)[..r];
      } else {
        assert LiveIds(ids, live) == LiveIds(tail, live);
      }
    } else {
      assert ids == [ids[0]] + tail;
      assert LiveIds(ids, live)[..0] == [];
    }
  }

  lemma {:induction false} LiveIdsMonotone(ids: seq<PeerId>, live: set<PeerId>, i: nat, j: nat)
    requires i <= j <= |ids|
    ensures |LiveIds(ids[..i], live)| <= |LiveIds(ids[..j], live)|
  {
    if i > 0 {
      assert ids[..i][1..] == ids[1..][..i - 1] && ids[..j][1..] == ids[1..][..j - 1];
      LiveIdsMonotone(ids[1..], live, i - 1, j - 1);
    }
  }

  lemma {:induction false} ReachOfOnlyLive(ids: seq<PeerId>, live: set<PeerId>, p: PeerId)
    requires LiveIds(ids, live) != [] && forall x :: x in LiveIds(ids, live) ==> x == p
    ensures Reach(ids, live, p) == |LiveIds(ids, live)| - 1
  {
    var tail := LiveIds(ids[1..], live);
    LiveIdsMembers(ids[1..], live);
    if tail != [] {
      assert forall x :: x in tail ==> x in LiveIds(ids, live);
      ReachOfOnlyLive(ids[1..], live, p);
    } else {
      assert LiveIds(ids, live) == [ids[0]];
      assert ids[0] in LiveIds(ids, live);
      assert p !in ids[1..];
    }
  }

  lemma GrowKeepsCovers(a: seq<PeerId>, b: seq<PeerId>, live: set<PeerId>, p: PeerId)
    requires Covers(a, b, live) && LiveIds(a, live) == LiveIds(b, live) && (p in live || p !in a)
    ensures p in live || p !in b
    ensures Covers(a + [p], b + [p], live + {p})
  {
    assert Reach(b, live, p) <= Reach(a, live, p);
    LiveIdsGrow(a, live, p);
    LiveIdsGrow(b, live, p);
    forall x
      ensures Reach(b + [p], live + {p}, x) <= Reach(a + [p], live + {p}, x)
    {
      ReachGrow(a, live, p, x);
      ReachGrow(b, live, p, x);
      ReachAppend(a, p, live + {p}, x);
      ReachAppend(b, p, live + {p}, x);
      assert Reach(b, live, x) <= Reach(a, live, x);
    }
  }

  lemma ShrinkKeepsCovers(a: seq<PeerId>, b: seq<PeerId>, live: set<PeerId>, p: PeerId)
    requires Covers(a, b, live) && LiveIds(a, live) == LiveIds(b, live)
    ensures Covers(a, b, live - {p})
  {
    forall x
      ensures Reach(b, live - {p}, x) <= Reach(a, live - {p}, x)
    {
      assert Reach(b, live, x) <= Reach(a, live, x);
      if x in b {
        ReachShrink(a, live, p, x);
        ReachShrink(b, live, p, x);
        LiveIdsMonotone(LiveIds(a, live), live - {p}, Reach(b, live, x), Reach(a, live, x));
      }
    }
  }

  lemma RotateKeepsCovers(a: seq<PeerId>, b: seq<PeerId>, live: set<PeerId>, sent: bool)
    requires Covers(a, b, live) && LiveIds(a, live) == LiveIds(b, live) != []
    ensures Covers(Rotated(a, live, sent), Rotated(b, live, sent), live)
  {
    forall x
      ensures Reach(Rotated(b, live, sent), live, x) <= Reach(Rotated(a, live, sent), live, x)
    {
      ReachRotated(a, live, sent, x);
      ReachRotated(b, live, sent, x);
      assert Reach(b, live, x) <= Reach(a, live, x);
    }
  }

  /** A cached send turns the slow path's queue, but not the backend's. */
  lemma SlowTurnKeepsCovers(a: seq<PeerId>, b: seq<PeerId>, live: set<PeerId>, p: PeerId, sent: bool)
    requires Covers(a, b, live) && LiveIds(a, live) == LiveIds(b, live) != []
    requires forall x :: x in LiveIds(a, live) ==> x == p
    ensures Covers(a, Rotated(b, live, sent), live)
  {
    ReachOfOnlyLive(a, live, p);
    forall x
      ensures Reach(Rotated(b, live, sent), live, x) <= Reach(a, live, x)
    {
      ReachRotated(b, live, sent, x);
      assert Reach(b, live, x) <= Reach(a, live, x);
      assert LiveIds(b, live)[0] in LiveIds(a, live);
    }
  }

  lemma {:induction false} ReachOfNobody(ids: seq<PeerId>, x: PeerId)
    ensures Reach(ids, {}, x) <= 0
  {
    if ids != [] {
      ReachOfNobody(ids[1..], x);
    }
  }

  lemma NobodyKeepsCovers(a: seq<PeerId>, b: seq<PeerId>, live: set<PeerId>)
    requires Covers(a, b, live)
    ensures Covers(a, b, {})
  {
    forall x
      ensures Reach(b, {}, x) <= Reach(a, {}, x)
    {
      assert Reach(b, live, x) <= Reach(a, live, x);
      ReachOfNobody(b, x);
    }
  }

  lemma CoversItself(ids: seq<PeerId>, live: set<PeerId>)
    ensures Covers(ids, ids, live)
  {
  }

  // ----- The cache cannot be told from the slow path -----

  /** A peer that is not live connects while a stale copy of its id is still queued. */
  ghost predicate RevivesStaleId(s: State, a: Action) {
    a.Connect? && a.peer !in s.peers && a.peer in s.roundRobin
  }

  /** The backend with the cache, and what the slow path alone would have made of the same run. */
  ghost predicate Shadows(c: State, u: State) {
    Similar(c, u) && Covers(c.roundRobin, u.roundRobin, c.peers.Keys)
  }

  lemma SlowKeepsCovers(c: State, u: State, m: Message, wait: Wait)
    requires Inv(c) && Inv(u) && Shadows(c, u)
    ensures var (c', u') := (SlowRoundRobin(c, m, wait).1, SlowRoundRobin(u, m, wait).1);
            Covers(c'.roundRobin, u'.roundRobin, c'.peers.Keys)
  {
    hide LiveIds, SendTo, Rotated, SlowRoundRobin, Covers;
    var live := c.peers.Keys;
    SlowServesFirstLive(c, m, wait);
    SlowServesFirstLive(u, m, wait);
    if Live(c) == [] {
      CoversItself([], live);
    } else {
      var p := Live(c)[0];
      SendToEffect(c, p, c.peers[p], m, wait);
      SendToIgnoresRotation(c, u.roundRobin, p, c.peers[p], m, wait);
      assert u == c.(roundRobin := u.roundRobin);
      var sent := SendTo(c, p, c.peers[p], m, wait).0.Sent?;
      RotateKeepsCovers(c.roundRobin, u.roundRobin, live, sent);
      if !sent {
        RotatedLive(c.roundRobin, live, false);
        RotatedLive(u.roundRobin, live, false);
        ShrinkKeepsCovers(Rotated(c.roundRobin, live, false), Rotated(u.roundRobin, live, false), live, p);
      }
    }
  }

  lemma CachedKeepsCovers(c: State, u: State, m: Message, wait: Wait)
    requires Inv(c) && Inv(u) && Shadows(c, u) && CacheHit(c, None)
    ensures var (c', u') := (SendRoundRobin(c, m, wait).1, SlowRoundRobin(u, m, wait).1);
            Covers(c'.roundRobin, u'.roundRobin, c'.peers.Keys)
  {
    hide LiveIds, SendTo, Rotated, SlowRoundRobin, Covers;
    var (live, p, q) := (c.peers.Keys, c.single.value.peer, c.single.value.queue);
    SingleIsFirstLive(c);
    SlowServesFirstLive(u, m, wait);
    SendToEffect(c, p, q, m, wait);
    SendToIgnoresRotation(c, u.roundRobin, p, q, m, wait);
    assert u == c.(roundRobin := u.roundRobin);
    var sent := SendTo(c, p, q, m, wait).0.Sent?;
    SlowTurnKeepsCovers(c.roundRobin, u.roundRobin, live, p, sent);
    if !sent {
      NobodyKeepsCovers(c.roundRobin, Rotated(u.roundRobin, live, false), live);
      assert live - {p} == {};
    }
  }

  lemma ConnectKeepsShadows(c: State, u: State, p: PeerId)
    requires Shadows(c, u) && !RevivesStaleId(c, Connect(p))
    ensures Shadows(ConnectPeer(c, p), ConnectPeer(u, p))
  {
    hide LiveIds, Refresh, Covers;
    GrowKeepsCovers(c.roundRobin, u.roundRobin, c.peers.Keys, p);
    ConnectKeepsSimilar(c, u, p);
    ConnectRotation(c, p);
    ConnectRotation(u, p);
  }

  lemma ConnectRotation(s: State, p: PeerId)
    ensures ConnectPeer(s, p).roundRobin == s.roundRobin + [p]
    ensures ConnectPeer(s, p).peers.Keys == s.peers.Keys + {p}
  {
    RefreshKeepsRest(Admit(s, p));
  }

  lemma DisconnectKeepsShadows(c: State, u: State, p: PeerId)
    requires Shadows(c, u)
    ensures Shadows(DisconnectPeer(c, p), DisconnectPeer(u, p))
  {
    hide LiveIds, Refresh, Covers;
    ShrinkKeepsCovers(c.roundRobin, u.roundRobin, c.peers.Keys, p);
    DisconnectKeepsSimilar(c, u, p);
    RefreshKeepsRest(Expel(c, p));
    RefreshKeepsRest(Expel(u, p));
    assert Expel(c, p).peers.Keys == c.peers.Keys - {p};
  }

  lemma SendToPeerKeepsShadows(c: State, u: State, p: PeerId, m: Message, wait: Wait)
    requires Inv(c) && Inv(u) && Shadows(c, u)
    ensures SendToPeer(c, p, m, wait).0 == SlowToPeer(u, p, m, wait).0
    ensures Shadows(SendToPeer(c, p, m, wait).1, SlowToPeer(u, p, m, wait).1)
  {
    hide LiveIds, SendTo, SendToPeer, Covers;
    SendToPeerKeepsSimilar(c, u, p, m, wait);
    CachedSendToPeerIsSlow(c, p, m, wait);
    if p in c.peers {
      SendToEffect(c, p, c.peers[p], m, wait);
      ShrinkKeepsCovers(c.roundRobin, u.roundRobin, c.peers.Keys, p);
      var (r, c') := SendTo(c, p, c.peers[p], m, wait);
      assert !r.Sent? ==> c'.peers.Keys == c.peers.Keys - {p};
    }
  }

  lemma SendKeepsShadows(c: State, u: State, m: Message, wait: Wait)
    requires Inv(c) && Inv(u) && Shadows(c, u)
    ensures SendRoundRobin(c, m, wait).0 == SlowRoundRobin(u, m, wait).0
    ensures Shadows(SendRoundRobin(c, m, wait).1, SlowRoundRobin(u, m, wait).1)
  {
    hide LiveIds, SlowRoundRobin, SendTo, Covers;
    SendKeepsSimilar(c, u, m, wait);
    if CacheHit(c, None) {
      CachedKeepsCovers(c, u, m, wait);
    } else {
      SlowKeepsCovers(c, u, m, wait);
    }
  }

  lemma ShutDownKeepsShadows(c: State, u: State)
    requires Shadows(c, u)
    ensures Shadows(ShutDown(c), ShutDown(u))
  {
    hide LiveIds, Covers;
    ShutDownKeepsSimilar(c, u);
    NobodyKeepsCovers(c.roundRobin, u.roundRobin, c.peers.Keys);
    assert ShutDown(c).peers.Keys == {};
  }

  lemma StepKeepsShadows(c: State, u: State, a: Action)
    requires Inv(c) && Inv(u) && Shadows(c, u) && !RevivesStaleId(c, a)
    ensures Step(c, a, true).0 == Step(u, a, false).0
    ensures Shadows(Step(c, a, true).1, Step(u, a, false).1)
  {
    hide LiveIds, Refresh, SlowRoundRobin, SendRoundRobin, SendToPeer, SlowToPeer, Covers, ConnectPeer, DisconnectPeer;
    match a
    case Connect(p) => ConnectKeepsShadows(c, u, p);
    case Disconnect(p) => DisconnectKeepsShadows(c, u, p);
    case Shutdown => ShutDownKeepsShadows(c, u);
    case Send(m, wait) => SendKeepsShadows(c, u, m, wait);
    case SendPeer(p, m, wait) => SendToPeerKeepsShadows(c, u, p, m, wait);
    case TakeFrom(q) => QueueStepKeepsSimilar(c, u, q, false);
    case CloseQueue(q) => QueueStepKeepsSimilar(c, u, q, true);
  }

  /**
   The cache serves a message without turning the rotation where that shows in the queue: an id that
   is not the peer's is queued, or the send fails. Only then does the slow path drop ids that the
   backend keeps.
   */
  ghost predicate ServesPastQueue(s: State, a: Action)
    requires Inv(s)
  {
    && a.Send? && CacheHit(s, None)
    && !(SendRoundRobin(s, a.message, a.wait).0.Sent? && forall x :: x in s.roundRobin ==> x == s.single.value.peer)
  }

  /** Any other step is the same with and without the cache, the whole rotation included. */
  lemma OtherStepsAreSame(s: State, a: Action)
    requires Inv(s) && !ServesPastQueue(s, a)
    ensures Step(s, a, true) == Step(s, a, false)
  {
    hide LiveIds, SlowRoundRobin, SendTo, SendToPeer, SlowToPeer, ConnectPeer, DisconnectPeer, Rotated;
    match a
    case Send(m, wait) =>
      if CacheHit(s, None) {
        SlowServesFirstLive(s, m, wait);
        SingleIsFirstLive(s);
        SendToEffect(s, s.single.value.peer, s.single.value.queue, m, wait);
        TurnOfOnlyPeer(s.roundRobin, s.peers.Keys, s.single.value.peer);
      }
    case SendPeer(p, m, wait) => CachedSendToPeerIsSlow(s, p, m, wait);
    case _ =>
  }

  lemma TurnOfOnlyPeer(ids: seq<PeerId>, live: set<PeerId>, p: PeerId)
    requires p in live && LiveIds(ids, live) != [] && forall x :: x in ids ==> x == p
    ensures Rotated(ids, live, true) == ids
  {
    assert ids[0] in ids;
    AllSame(ids, p);
  }

  /** No stale id is revived once the rotations may differ. */
  ghost predicate NeverRevivesLate(s: State, actions: seq<Action>, late: bool)
    requires Inv(s)
    decreases |actions|
  {
    actions != [] ==>
      && !(late && RevivesStaleId(s, actions[0]))
      && (StepKeepsInv(s, actions[0], true);
          NeverRevivesLate(Step(s, actions[0], true).1, actions[1..], late || ServesPastQueue(s, actions[0])))
  }

  lemma {:induction false} ShadowsThroughout(c: State, u: State, actions: seq<Action>, late: bool)
    requires Inv(c) && Inv(u) && Shadows(c, u) && (!late ==> c == u) && NeverRevivesLate(c, actions, late)
    ensures Run(c, actions, true).0 == Run(u, actions, false).0
    ensures Shadows(Run(c, actions, true).1, Run(u, actions, false).1)
    decreases |actions|
  {
    hide Step, Shadows, Inv, ServesPastQueue;
    if actions != [] {
      var a := actions[0];
      StepKeepsInv(c, a, true);
      StepKeepsInv(u, a, false);
      var late' := late || ServesPastQueue(c, a);
      if late' {
        ServingIsNoConnect(c, a);
        StepKeepsShadows(c, u, a);
      } else {
        OtherStepsAreSame(c, a);
        ShadowsItself(Step(c, a, true).1);
      }
      ShadowsThroughout(Step(c, a, true).1, Step(u, a, false).1, actions[1..], late');
    }
  }

  lemma ServingIsNoConnect(s: State, a: Action)
    requires Inv(s)
    ensures ServesPastQueue(s, a) ==> !RevivesStaleId(s, a)
  {
  }

  lemma ShadowsItself(s: State)
    ensures Shadows(s, s)
  {
    CoversItself(s.roundRobin, s.peers.Keys);
  }

  /**
   The cache is invisible: over every run in which no peer comes back while a stale copy of its id
   is still in the backend's rotation (after the cache has served a message past other ids), the
   backend with the cache gives the same result for every send as the slow path alone, and ends
   with the same peers, queues, cache contents and live rotation.
   */
  lemma CacheIsInvisible(s: State, actions: seq<Action>)
    requires Inv(s) && NeverRevivesLate(s, actions, false)
    ensures Run(s, actions, true).0 == Run(s, actions, false).0
    ensures Similar(Run(s, actions, true).1, Run(s, actions, false).1)
  {
    hide Step, Run, NeverRevivesLate, Inv;
    ShadowsItself(s);
    ShadowsThroughout(s, s, actions, false);
  }

  ghost predicate NeverServesPastQueue(s: State, actions: seq<Action>)
    requires Inv(s)
    decreases |actions|
  {
    actions != [] ==>
      && !ServesPastQueue(s, actions[0])
      && (StepKeepsInv(s, actions[0], true); NeverServesPastQueue(Step(s, actions[0], true).1, actions[1..]))
  }

  /** Until the cache has served a message past other ids even a revival is harmless: nothing differs at all. */
  lemma {:induction false} EarlyRevivalIsHarmless(s: State, actions: seq<Action>)
    requires Inv(s) && NeverServesPastQueue(s, actions)
    ensures Run(s, actions, true) == Run(s, actions, false)
    decreases |actions|
  {
    hide Step, Inv, ServesPastQueue;
    if actions != [] {
      StepKeepsInv(s, actions[0], true);
      OtherStepsAreSame(s, actions[0]);
      EarlyRevivalIsHarmless(Step(s, actions[0], true).1, actions[1..]);
    }
  }

  lemma {:induction false} LiveIdsOfLiveIds(ids: seq<PeerId>, live: set<PeerId>, x: PeerId)
    ensures LiveIds(LiveIds(ids, live), live) == LiveIds(ids, live)
    ensures Reach(LiveIds(ids, live), live, x) <= Reach(ids, live, x)
  {
    if ids != [] {
      var tail := LiveIds(ids[1..], live);
      LiveIdsOfLiveIds(ids[1..], live, x);
      if ids[0] in live {
        assert ([ids[0]] + tail)[1..] == tail;
      } else {
        assert [] + tail == tail;
      }
    }
  }

  lemma WithoutStaleIds(c: State)
    requires Inv(c)
    ensures Inv(c.(roundRobin := Live(c))) && Shadows(c, c.(roundRobin := Live(c)))
  {
    hide LiveIds, CacheExact, WellFormed;
    LiveIdsMembers(c.roundRobin, c.peers.Keys);
    IgnoreRotation(c, Live(c));
    forall x
      ensures Reach(Live(c), c.peers.Keys, x) <= Reach(c.roundRobin, c.peers.Keys, x)
    {
      LiveIdsOfLiveIds(c.roundRobin, c.peers.Keys, x);
    }
    LiveIdsOfLiveIds(c.roundRobin, c.peers.Keys, 0);
  }

  /**
   Once the rotations may differ, this is the weakest guard on the backend's own state that keeps
   the relation: a connection keeps the backend like everything that `Shadows` allows beside it if
   and only if it revives no stale id. (Not everything that `Shadows` allows need be reached.)
   */
  lemma GuardIsWeakest(c: State, p: PeerId)
    requires Inv(c)
    ensures !RevivesStaleId(c, Connect(p)) <==>
            forall u :: Inv(u) && Shadows(c, u) ==> Similar(ConnectPeer(c, p), ConnectPeer(u, p))
  {
    hide LiveIds, Covers, Inv, ConnectPeer;
    if !RevivesStaleId(c, Connect(p)) {
      forall u | Inv(u) && Shadows(c, u)
        ensures Similar(ConnectPeer(c, p), ConnectPeer(u, p))
      {
        ConnectKeepsShadows(c, u, p);
      }
    } else {
      var u := c.(roundRobin := Live(c));
      WithoutStaleIds(c);
      ConnectRotation(c, p);
      ConnectRotation(u, p);
      LiveIdsMembers(c.roundRobin, c.peers.Keys);
      var live := c.peers.Keys + {p};
      LiveIdsGrow(u.roundRobin, c.peers.Keys, p);
      LiveIdsMembers(c.roundRobin, live);
      LiveIdsAppend(c.roundRobin, p, live);
      LiveIdsAppend(u.roundRobin, p, live);
      var (ours, theirs) := (LiveIds(c.roundRobin, live), LiveIds(u.roundRobin, live));
      assert p in ours && p !in theirs;
      assert (ours + [p])[..|ours|] == ours && (theirs + [p])[..|theirs|] == theirs;
    }
  }

  /** A backend that has just been made. */
  function NoPeersYet(receives: bool): State {
    State(map[], map[], [], None, 0, 0, if receives then Some({}) else None)
  }

  /** Peer 1 has gone and left its id in front of the one of peer 2. */
  function StaleInFront(): State {
    State(map[2 := 1], map[0 := Chan([], 0, true), 1 := Chan([], 0, true)], [1, 2], Some(SinglePeer(2, 1)), 1, 2, None)
  }

  lemma RunCons(s: State, a: Action, rest: seq<Action>, cached: bool)
    requires Inv(s)
    ensures Inv(Step(s, a, cached).1)
    ensures Run(s, [a] + rest, cached).1 == Run(Step(s, a, cached).1, rest, cached).1
  {
    hide Step, Inv;
    StepKeepsInv(s, a, cached);
    assert ([a] + rest)[1..] == rest;
  }

  lemma OnlyPeer(s: State, p: PeerId, q: QueueId)
    requires s.peers == map[p := q]
    ensures Refresh(s) == s.(peerCount := 1, single := Some(SinglePeer(p, q)))
  {
    assert |s.peers| == 1;
    var r := TheOnly(s.peers);
    assert r.peer in s.peers;
  }

  lemma ManyPeers(s: State)
    requires |s.peers| != 1
    ensures Refresh(s) == s.(peerCount := |s.peers|, single := None)
  {
  }

  lemma StaleIdIsReached(rest: seq<Action>, cached: bool)
    ensures Inv(NoPeersYet(false)) && Inv(StaleInFront())
    ensures Run(NoPeersYet(false), [Connect(1)] + ([Connect(2)] + ([Disconnect(1)] + rest)), cached).1
         == Run(StaleInFront(), rest, cached).1
  {
    hide Refresh, Run;
    var none := NoPeersYet(false);
    OnlyPeer(Admit(none, 1), 1, 0);
    var s1 := ConnectPeer(none, 1);
    assert s1.peers == map[1 := 0] && s1.roundRobin == [1];
    assert Admit(s1, 2).peers == map[1 := 0, 2 := 1];
    ManyPeers(Admit(s1, 2));
    var s2 := ConnectPeer(s1, 2);
    assert s2.roundRobin == [1, 2];
    assert Expel(s2, 1).peers == map[2 := 1];
    OnlyPeer(Expel(s2, 1), 2, 1);
    var s3 := DisconnectPeer(s2, 1);
    assert s3 == StaleInFront();
    RunCons(none, Connect(1), [Connect(2)] + ([Disconnect(1)] + rest), cached);
    RunCons(s1, Connect(2), [Disconnect(1)] + rest, cached);
    RunCons(s2, Disconnect(1), rest, cached);
  }

  lemma LiveOfSmallQueues()
    ensures LiveIds([1, 2], {2}) == [2] && Rotated([1, 2], {2}, true) == [2]
    ensures LiveIds([1, 2, 1], {1, 2}) != [] && LiveIds([1, 2, 1], {1, 2})[0] == 1
    ensures LiveIds([2, 1], {1, 2}) != [] && LiveIds([2, 1], {1, 2})[0] == 2
  {
    assert [1, 2][1..] == [2];
    assert [2][1..] == [];
    assert LiveIds([2], {2}) == [2];
    assert LiveIds([1, 2], {2}) == LiveIds([2], {2});
  }

  /** Where the first message leaves the two: with the cache the stale id stays in front. */
  function AfterFirst(m: Message, rotation: seq<PeerId>): State {
    StaleInFront().(queues := map[0 := Chan([], 0, true), 1 := Chan([m], 0, true)], roundRobin := rotation)
  }

  lemma FirstMessage(m: Message)
    requires Inv(StaleInFront())
    ensures SendRoundRobin(StaleInFront(), m, Drains).1 == AfterFirst(m, [1, 2])
    ensures SlowRoundRobin(StaleInFront(), m, Drains).1 == AfterFirst(m, [2])
  {
    hide LiveIds, Rotated, SlowRoundRobin;
    var s := StaleInFront();
    LiveOfSmallQueues();
    assert s.peers.Keys == {2};
    SlowServesFirstLive(s, m, Drains);
    assert [] + [m] == [m];
    assert s.queues[1 := Chan([m], 0, true)] == map[0 := Chan([], 0, true), 1 := Chan([m], 0, true)];
  }

  /** Where the return of peer 1 leaves them. */
  function AfterReturn(m: Message, rotation: seq<PeerId>): State {
    State(map[1 := 2, 2 := 1], map[0 := Chan([], 0, true), 1 := Chan([m], 0, true), 2 := Chan([], 0, true)],
          rotation, None, 2, 3, None)
  }

  lemma PeerReturns(m: Message, rotation: seq<PeerId>)
    ensures ConnectPeer(AfterFirst(m, rotation), 1) == AfterReturn(m, rotation + [1])
  {
    var s := AfterFirst(m, rotation);
    assert Admit(s, 1).peers == map[1 := 2, 2 := 1];
    ManyPeers(Admit(s, 1));
    assert Admit(s, 1).queues == AfterReturn(m, rotation).queues;
  }

  /** Peer 1 or peer 2 gets the second message, whichever stands first. */
  lemma SecondMessage(m: Message, n: Message, rotation: seq<PeerId>)
    requires LiveIds(rotation, {1, 2}) != [] && LiveIds(rotation, {1, 2})[0] in {1, 2}
    requires Inv(AfterReturn(m, rotation))
    ensures var s := AfterReturn(m, rotation);
            var q := if LiveIds(rotation, {1, 2})[0] == 1 then 2 else 1;
            SendRoundRobin(s, n, Drains).1.queues == s.queues[q := Chan(s.queues[q].sent + [n], 0, true)]
            && SendRoundRobin(s, n, Drains) == SlowRoundRobin(s, n, Drains)
  {
    hide LiveIds, Rotated, SlowRoundRobin;
    var s := AfterReturn(m, rotation);
    assert s.peers.Keys == {1, 2};
    SlowServesFirstLive(s, n, Drains);
    var p := LiveIds(rotation, {1, 2})[0];
    SendToEffect(s, p, s.peers[p], n, Drains);
  }

  function Delivered(first: seq<Message>, second: seq<Message>): map<QueueId, Chan> {
    map[0 := Chan([], 0, true), 1 := Chan(first, 0, true), 2 := Chan(second, 0, true)]
  }

  lemma ReturnRun(m: Message, n: Message, rotation: seq<PeerId>, cached: bool)
    requires Inv(StaleInFront())
    requires Step(StaleInFront(), Send(m, Drains), cached).1 == AfterFirst(m, rotation)
    ensures Inv(AfterReturn(m, rotation + [1]))
    ensures Run(StaleInFront(), [Send(m, Drains)] + ([Connect(1)] + ([Send(n, Drains)] + [])), cached).1
         == Step(AfterReturn(m, rotation + [1]), Send(n, Drains), cached).1
  {
    hide SlowRoundRobin, SendRoundRobin, ConnectPeer, Inv, Run, AfterFirst, AfterReturn, StaleInFront;
    var s, s1, s2 := StaleInFront(), AfterFirst(m, rotation), AfterReturn(m, rotation + [1]);
    RunCons(s, Send(m, Drains), [Connect(1)] + ([Send(n, Drains)] + []), cached);
    PeerReturns(m, rotation);
    RunCons(s1, Connect(1), [Send(n, Drains)] + [], cached);
    RunCons(s2, Send(n, Drains), [], cached);
    RunNil(Step(s2, Send(n, Drains), cached).1, cached);
  }

  lemma ReturnShows(m: Message, n: Message, cached: bool)
    requires Inv(StaleInFront())
    ensures Run(StaleInFront(), [Send(m, Drains)] + ([Connect(1)] + ([Send(n, Drains)] + [])), cached).1.queues
         == if cached then Delivered([m], [n]) else Delivered([m, n], [])
  {
    hide LiveIds, SlowRoundRobin, SendRoundRobin, Inv, Run, StaleInFront, AfterFirst;
    FirstMessage(m);
    LiveOfSmallQueues();
    var rotation: seq<PeerId> := if cached then [1, 2] else [2];
    assert rotation + [1] == if cached then [1, 2, 1] else [2, 1];
    var s2 := AfterReturn(m, rotation + [1]);
    ReturnRun(m, n, rotation, cached);
    SecondMessage(m, n, rotation + [1]);
    assert [] + [n] == [n] && [m] + [n] == [m, n];
    var q := if cached then 2 else 1;
    assert s2.queues[q := Chan(s2.queues[q].sent + [n], 0, true)]
        == if cached then Delivered([m], [n]) else Delivered([m, n], []);
  }

  lemma RunNil(s: State, cached: bool)
    requires Inv(s)
    ensures Run(s, [], cached).1 == s
  {
  }

  /**
   The condition is needed. Peers 1 and 2 connect, 1 goes, and while 2 is the only one the cache
   leaves the stale id of 1 in front, where the slow path drops it. When 1 returns, its old id
   counts again: with the cache the next message goes to 1, on the slow path it goes to 2.
   */
  lemma ReusedIdShows(m: Message, n: Message)
    ensures var run := [Connect(1)] + ([Connect(2)] + ([Disconnect(1)]
                       + ([Send(m, Drains)] + ([Connect(1)] + ([Send(n, Drains)] + [])))));
            && Inv(NoPeersYet(false))
            && Run(NoPeersYet(false), run, true).1.queues == Delivered([m], [n])
            && Run(NoPeersYet(false), run, false).1.queues == Delivered([m, n], [])
  {
    hide Run, Inv;
    var rest := [Send(m, Drains)] + ([Connect(1)] + ([Send(n, Drains)] + []));
    StaleIdIsReached(rest, true);
    StaleIdIsReached(rest, false);
    ReturnShows(m, n, true);
    ReturnShows(m, n, false);
  }

  // ----- Fairness -----

  /** A message to send, and how a wait on a full queue would end. */
  datatype Job = Job(message: Message, wait: Wait)

  ghost function SendAll(s: State, jobs: seq<Job>): State
    requires Inv(s)
    decreases |jobs|
  {
    if jobs == [] then s else
    SendRoundRobinKeepsInv(s, jobs[0].message, jobs[0].wait);
    SendAll(SendRoundRobin(s, jobs[0].message, jobs[0].wait).1, jobs[1..])
  }

  ghost predicate AllSent(s: State, jobs: seq<Job>)
    requires Inv(s)
    decreases |jobs|
  {
    jobs != [] ==>
      && SendRoundRobin(s, jobs[0].message, jobs[0].wait).0.Sent?
      && (SendRoundRobinKeepsInv(s, jobs[0].message, jobs[0].wait);
          AllSent(SendRoundRobin(s, jobs[0].message, jobs[0].wait).1, jobs[1..]))
  }

  /** Everything the peer's current queue has accepted. */
  ghost function AcceptedBy(s: State, p: PeerId): seq<Message>
    requires WellFormed(s) && p in s.peers
  {
    s.queues[s.peers[p]].sent
  }

  /** The messages that go to `p` when the i-th one goes to the i-th target. */
  function Share(targets: seq<PeerId>, jobs: seq<Job>, p: PeerId): seq<Message>
    requires |jobs| <= |targets|
    decreases |jobs|
  {
    if jobs == [] then []
    else (if targets[0] == p then [jobs[0].message] else []) + Share(targets[1..], jobs[1..], p)
  }

  /** One successful send, cached or not: the first live peer gets the message and goes to the back. */
  lemma OneSend(s: State, m: Message, wait: Wait)
    requires Inv(s) && SendRoundRobin(s, m, wait).0.Sent?
    ensures Inv(SendRoundRobin(s, m, wait).1) && Live(s) != []
    ensures var t := SendRoundRobin(s, m, wait).1;
            && t.peers == s.peers && Live(t) == Live(s)[1..] + [Live(s)[0]]
            && (forall p :: p in s.peers ==>
                  AcceptedBy(t, p) == AcceptedBy(s, p) + if p == Live(s)[0] then [m] else [])
  {
    hide SendTo, LiveIds, Rotated, SlowRoundRobin, SendRoundRobin;
    SendRoundRobinKeepsInv(s, m, wait);
    CachedSendRefinesSlow(s, m, wait);
    SlowServesFirstLive(s, m, wait);
    if Live(s) != [] {
      var p := Live(s)[0];
      SendToEffect(s, p, s.peers[p], m, wait);
      RotatedLive(s.roundRobin, s.peers.Keys, true);
      var t := SlowRoundRobin(s, m, wait).1;
      forall x | x in s.peers
        ensures x in t.peers && t.peers[x] in t.queues
        ensures t.queues[t.peers[x]].sent == AcceptedBy(s, x) + if x == p then [m] else []
      {
        assert x != p ==> s.peers[x] != s.peers[p];
        assert AcceptedBy(s, x) + [] == AcceptedBy(s, x);
      }
      assert Rest(t) == Rest(SendRoundRobin(s, m, wait).1);
    }
  }

  lemma RotationArithmetic(live: seq<PeerId>, k: nat)
    requires 1 <= k <= |live|
    ensures var next := live[1..] + [live[0]];
            && next[k - 1..] + next[..k - 1] == live[k..] + live[..k]
            && next[..k - 1] == live[1..k]
  {
  }

  lemma {:induction false} ShareOfPrefix(targets: seq<PeerId>, others: seq<PeerId>, jobs: seq<Job>, p: PeerId)
    requires |jobs| <= |targets| && |jobs| <= |others| && targets[..|jobs|] == others[..|jobs|]
    ensures Share(targets, jobs, p) == Share(others, jobs, p)
    decreases |jobs|
  {
    if jobs != [] {
      assert targets[0] == targets[..|jobs|][0] && others[0] == others[..|jobs|][0];
      assert targets[1..][..|jobs| - 1] == targets[..|jobs|][1..];
      assert others[1..][..|jobs| - 1] == others[..|jobs|][1..];
      ShareOfPrefix(targets[1..], others[1..], jobs[1..], p);
    }
  }

  /**
   Rotation: consecutive successful sends, no more than the live rotation is long, go to the live
   ids in queue order, one message each, and leave the rotation turned by that many places.
   */
  lemma {:induction false} SendsFollowRotation(s: State, jobs: seq<Job>)
    requires Inv(s) && AllSent(s, jobs) && |jobs| <= |Live(s)|
    ensures var t := SendAll(s, jobs);
            && Inv(t) && t.peers == s.peers
            && Live(t) == Live(s)[|jobs|..] + Live(s)[..|jobs|]
            && forall p :: p in s.peers ==> AcceptedBy(t, p) == AcceptedBy(s, p) + Share(Live(s), jobs, p)
    decreases |jobs|
  {
    hide SendRoundRobin, LiveIds, Inv;
    InvIsWellFormed(s);
    if jobs == [] {
      assert forall p :: p in s.peers ==> AcceptedBy(s, p) + [] == AcceptedBy(s, p);
      assert Live(s)[0..] + Live(s)[..0] == Live(s);
    } else {
      var m, wait := jobs[0].message, jobs[0].wait;
      OneSend(s, m, wait);
      var s1 := SendRoundRobin(s, m, wait).1;
      InvIsWellFormed(s1);
      RotationArithmetic(Live(s), |jobs|);
      SendsFollowRotation(s1, jobs[1..]);
      var t := SendAll(s, jobs);
      assert t == SendAll(s1, jobs[1..]);
      InvIsWellFormed(t);
      forall p | p in s.peers
        ensures AcceptedBy(t, p) == AcceptedBy(s, p) + Share(Live(s), jobs, p)
      {
        assert Live(s)[1..][..|jobs| - 1] == Live(s1)[..|jobs| - 1];
        ShareOfPrefix(Live(s)[1..], Live(s1), jobs[1..], p);
        var mine := if p == Live(s)[0] then [m] else [];
        assert AcceptedBy(s, p) + mine + Share(Live(s1), jobs[1..], p)
            == AcceptedBy(s, p) + (mine + Share(Live(s1), jobs[1..], p));
      }
    }
  }

  lemma InvIsWellFormed(s: State)
    requires Inv(s)
    ensures WellFormed(s) && CacheExact(s)
  {
  }

  lemma {:induction false} ShareCounts(targets: seq<PeerId>, jobs: seq<Job>, p: PeerId)
    requires |jobs| == |targets|
    ensures |Share(targets, jobs, p)| == multiset(targets)[p]
    decreases |jobs|
  {
    if jobs != [] {
      ShareCounts(targets[1..], jobs[1..], p);
      assert targets == [targets[0]] + targets[1..];
    }
  }

  lemma {:induction false} OnceEachIffNoDuplicates(ids: seq<PeerId>)
    ensures NoDuplicates(ids) <==> forall p :: p in ids ==> multiset(ids)[p] == 1
    decreases |ids|
  {
    if ids != [] {
      var head, tail := ids[0], ids[1..];
      assert ids == [head] + tail;
      OnceEachIffNoDuplicates(tail);
      assert forall i :: 0 <= i < |tail| ==> tail[i] == ids[i + 1];
      if NoDuplicates(ids) {
        assert forall i, j :: 0 <= i < j < |tail| ==> tail[i] != tail[j];
        assert head !in tail;
      }
      if forall p :: p in ids ==> multiset(ids)[p] == 1 {
        assert multiset(ids)[head] == 1 + multiset(tail)[head];
        assert head !in tail;
        forall p | p in tail
          ensures multiset(tail)[p] == 1
        {
          assert p in ids;
        }
      }
    }
  }

  /**
   Fairness: over one turn of the rotation each live peer gets as many messages as it has ids in the
   queue. Every peer gets exactly one if and only if no live id is queued twice, whatever stale ids
   lie between.
   */
  lemma OneTurnIsFairIff(s: State, jobs: seq<Job>)
    requires Inv(s) && AllSent(s, jobs) && |jobs| == |Live(s)|
    ensures var t := SendAll(s, jobs);
            && Inv(t) && t.peers == s.peers && Live(t) == Live(s)
            && (forall p :: p in s.peers ==>
                  |AcceptedBy(t, p)| == |AcceptedBy(s, p)| + multiset(Live(s))[p])
            && ((forall p :: p in s.peers ==> |AcceptedBy(t, p)| == |AcceptedBy(s, p)| + 1) <==> NoDuplicates(Live(s)))
  {
    hide LiveIds, SendAll, AllSent;
    SendsFollowRotation(s, jobs);
    forall p | p in s.peers
      ensures |Share(Live(s), jobs, p)| == multiset(Live(s))[p]
    {
      ShareCounts(Live(s), jobs, p);
    }
    LiveIdsMembers(s.roundRobin, s.peers.Keys);
    OnceEachIffNoDuplicates(Live(s));
    assert Live(s)[|jobs|..] + Live(s)[..|jobs|] == Live(s);
  }

  lemma {:induction false} LiveIdsKeepDistinct(ids: seq<PeerId>, live: set<PeerId>)
    requires NoDuplicates(ids)
    ensures NoDuplicates(LiveIds(ids, live))
  {
    if ids != [] {
      LiveIdsKeepDistinct(ids[1..], live);
      LiveIdsMembers(ids[1..], live);
    }
  }

  lemma ConnectKeepsFairIff(s: State, p: PeerId)
    requires Inv(s) && NoDuplicates(Live(s))
    ensures NoDuplicates(Live(ConnectPeer(s, p))) <==> p !in s.roundRobin
  {
    hide LiveIds, ConnectPeer;
    var live := s.peers.Keys + {p};
    ConnectRotation(s, p);
    LiveIdsAppend(s.roundRobin, p, live);
    LiveIdsMembers(s.roundRobin, live);
    var before := LiveIds(s.roundRobin, live);
    if p in s.roundRobin {
      var i :| 0 <= i < |before| && before[i] == p;
      assert (before + [p])[i] == (before + [p])[|before|];
    } else {
      LiveIdsGrow(s.roundRobin, s.peers.Keys, p);
    }
  }

  lemma RotationStaysDistinct(live: seq<PeerId>)
    requires NoDuplicates(live) && live != []
    ensures NoDuplicates(live[1..] + [live[0]]) && NoDuplicates(live[1..])
  {
  }

  lemma SendKeepsFair(s: State, m: Message, wait: Wait)
    requires Inv(s) && NoDuplicates(Live(s))
    ensures NoDuplicates(Live(SendRoundRobin(s, m, wait).1))
  {
    hide SendTo, LiveIds, Rotated, SlowRoundRobin, SendRoundRobin, NoDuplicates;
    CachedSendRefinesSlow(s, m, wait);
    SlowServesFirstLive(s, m, wait);
    if Live(s) == [] {
      assert LiveIds([], s.peers.Keys) == [] by {
        LiveIdsMembers([], s.peers.Keys);
      }
    } else {
      var p, live := Live(s)[0], s.peers.Keys;
      SendToEffect(s, p, s.peers[p], m, wait);
      RotationStaysDistinct(Live(s));
      var sent := SendTo(s, p, s.peers[p], m, wait).0.Sent?;
      RotatedLive(s.roundRobin, live, sent);
      if !sent {
        assert Live(s)[1..] + [] == Live(s)[1..];
        LiveIdsShrink(Rotated(s.roundRobin, live, false), live, p);
        LiveIdsKeepDistinct(Live(s)[1..], live - {p});
      }
    }
  }

  lemma SendToPeerKeepsFair(s: State, p: PeerId, m: Message, wait: Wait)
    requires Inv(s) && NoDuplicates(Live(s))
    ensures NoDuplicates(Live(SendToPeer(s, p, m, wait).1))
  {
    hide SendTo, LiveIds, SendToPeer, NoDuplicates;
    CachedSendToPeerIsSlow(s, p, m, wait);
    if p in s.peers {
      SendToEffect(s, p, s.peers[p], m, wait);
      LiveIdsShrink(s.roundRobin, s.peers.Keys, p);
      LiveIdsKeepDistinct(Live(s), s.peers.Keys - {p});
    }
  }

  /**
   What spoils fairness: of all steps only the connection of a peer whose id is still in the
   rotation, be it live (the peer is replaced) or stale. It then has two turns instead of one.
   */
  lemma StepKeepsFairIff(s: State, a: Action)
    requires Inv(s) && NoDuplicates(Live(s))
    ensures NoDuplicates(Live(Step(s, a, true).1)) <==> !(a.Connect? && a.peer in s.roundRobin)
  {
    hide LiveIds, Refresh, SendRoundRobin, SendToPeer, SlowRoundRobin, SlowToPeer, ConnectPeer, NoDuplicates;
    match a
    case Connect(p) => ConnectKeepsFairIff(s, p);
    case Disconnect(p) =>
      RefreshKeepsRest(Expel(s, p));
      LiveIdsShrink(s.roundRobin, s.peers.Keys, p);
      LiveIdsKeepDistinct(Live(s), s.peers.Keys - {p});
    case Shutdown =>
      NobodyLive(s.roundRobin);
      assert ShutDown(s).peers.Keys == {};
      LiveIdsKeepDistinct(Live(s), {});
      NobodyLive(Live(s));
    case Send(m, wait) => SendKeepsFair(s, m, wait);
    case SendPeer(p, m, wait) => SendToPeerKeepsFair(s, p, m, wait);
    case _ =>
  }

  /** The queue takes a message: it is open, and has room or will have. */
  predicate Takes(c: Chan, wait: Wait) {
    c.open && (|c.sent| < c.taken + PEER_SEND_QUEUE_CAPACITY || wait.Drains?)
  }

  /**
   What a send on a peer's queue comes to. It succeeds exactly if the queue takes the message, which
   is then the last one in it; otherwise the peer is gone and nothing has been queued.
   */
  ghost predicate SentOrGone(s: State, p: PeerId, m: Message, wait: Wait, r: SendResult, s': State)
    requires p in s.peers && s.peers[p] in s.queues
  {
    var q := s.peers[p];
    && (r == Sent <==> Takes(s.queues[q], wait)) && (r == QueueError <==> !Takes(s.queues[q], wait))
    && s'.queues.Keys == s.queues.Keys
    && (forall x :: x in s.queues && x != q ==> s'.queues[x] == s.queues[x])
    && s'.queues[q].sent == s.queues[q].sent + (if r == Sent then [m] else [])
    && (r == Sent <==> s'.queues[q].open)
    && s'.queues[q].taken == s.queues[q].taken + (if r == Sent && |s.queues[q].sent|
                                                     >= s.queues[q].taken + PEER_SEND_QUEUE_CAPACITY then 1 else 0)
    && s'.peers == if r == Sent then s.peers else s.peers - {p}
  }

  lemma SendToIsSentOrGone(s: State, p: PeerId, m: Message, wait: Wait)
    requires p in s.peers && s.peers[p] in s.queues
    ensures var (r, s') := SendTo(s, p, s.peers[p], m, wait); SentOrGone(s, p, m, wait, r, s')
  {
    hide Refresh;
    SendToEffect(s, p, s.peers[p], m, wait);
    assert s.queues[s.peers[p]].sent + [] == s.queues[s.peers[p]].sent;
  }

  /**
   Every answer of `send_round_robin`. With no peer live a data message is handed back, a greeting or
   a command is not supported, and no queue changes. Otherwise the first live peer is sent the message
   or found to be gone.
   */
  lemma HandedBackIffNobody(s: State, m: Message, wait: Wait)
    requires Inv(s)
    ensures var (r, s') := SendRoundRobin(s, m, wait);
            && (r.ReturnToSender? <==> s.peers == map[] && m.DataMessage?)
            && (r.ReturnToSender? ==> r.message == m)
            && (r.NotSupported? <==> s.peers == map[] && !m.DataMessage?)
            && (s.peers == map[] ==> s'.queues == s.queues && s'.peers == map[])
            && (s.peers != map[] ==> Live(s) != [] && Live(s)[0] in s.peers && s.peers[Live(s)[0]] in s.queues
                                     && SentOrGone(s, Live(s)[0], m, wait, r, s'))
  {
    hide SendTo, LiveIds, Rotated, SlowRoundRobin, SendRoundRobin, SentOrGone;
    CachedSendRefinesSlow(s, m, wait);
    SlowServesFirstLive(s, m, wait);
    LiveIdsMembers(s.roundRobin, s.peers.Keys);
    if Live(s) != [] {
      var p := Live(s)[0];
      assert p in s.peers;
      SendToIsSentOrGone(s, p, m, wait);
      SendToEffect(s, p, s.peers[p], m, wait);
      var (r, s1) := SendTo(s, p, s.peers[p], m, wait);
      SameButRotation(s, p, m, wait, r, s1, SendRoundRobin(s, m, wait).1);
    } else {
      assert forall p :: p in s.peers ==> p in Live(s);
      assert s.peers.Keys == {};
    }
  }

  lemma SameButRotation(s: State, p: PeerId, m: Message, wait: Wait, r: SendResult, s1: State, s2: State)
    requires p in s.peers && s.peers[p] in s.queues
    requires SentOrGone(s, p, m, wait, r, s1) && Rest(s1) == Rest(s2)
    ensures SentOrGone(s, p, m, wait, r, s2)
  {
  }

  /** Every answer of `send_to_peer`: not found exactly if the peer is not live. */
  lemma NotFoundIffNotLive(s: State, p: PeerId, m: Message, wait: Wait)
    requires Inv(s)
    ensures var (r, s') := SendToPeer(s, p, m, wait);
            && (r == NotFound <==> p !in s.peers)
            && (p !in s.peers ==> s' == s)
            && (p in s.peers ==> SentOrGone(s, p, m, wait, r, s'))
  {
    hide SendTo, SendToPeer, SentOrGone;
    CachedSendToPeerIsSlow(s, p, m, wait);
    if p in s.peers {
      SendToIsSentOrGone(s, p, m, wait);
      SendToEffect(s, p, s.peers[p], m, wait);
    }
  }

  /** A peer that connects has an empty, open queue of its own and a turn to come; the others keep theirs. */
  lemma ConnectedIsLive(s: State, p: PeerId)
    requires Inv(s)
    ensures var s' := ConnectPeer(s, p);
            && p in s'.peers && s'.peers[p] in s'.queues && s'.peers[p] !in s.queues
            && s'.queues[s'.peers[p]].sent == [] && s'.queues[s'.peers[p]].open
            && s'.roundRobin == s.roundRobin + [p]
            && (forall x :: x in s.peers && x != p ==> x in s'.peers && s'.peers[x] == s.peers[x])
            && (forall q :: q in s.queues ==> q in s'.queues && s'.queues[q] == s.queues[q])
  {
    RefreshKeepsRest(Admit(s, p));
  }

  /**
   What writers and peers do to a queue: a writer takes the oldest message that is left, if any, and a
   closed queue stays closed; what was accepted does not change, nor do the other queues.
   */
  lemma OutsideOnQueues(s: State, q: QueueId)
    requires Inv(s) && q in s.queues
    ensures var (c, t) := (s.queues[q], Step(s, TakeFrom(q), true).1.queues);
            && q in t && t[q].sent == c.sent && t[q].open == c.open && t - {q} == s.queues - {q}
            && t[q].taken == if c.taken < |c.sent| then c.taken + 1 else c.taken
    ensures var (c, t) := (s.queues[q], Step(s, CloseQueue(q), true).1.queues);
            && q in t && t[q].sent == c.sent && !t[q].open && t[q].taken == c.taken && t - {q} == s.queues - {q}
  {
  }

  /** After a disconnect exactly that peer is gone; after a shutdown all are. No queue changes. */
  lemma DisconnectedIsGone(s: State, p: PeerId)
    ensures s.fairQueue.Some? <==> ShutDown(s).fairQueue.Some?
    ensures s.fairQueue.Some? ==> ShutDown(s).fairQueue == Some({}) && DisconnectPeer(s, p).fairQueue.Some?
    ensures DisconnectPeer(s, p).peers == s.peers - {p} && DisconnectPeer(s, p).queues == s.queues
    ensures ShutDown(s).peers == map[] && ShutDown(s).queues == s.queues && ShutDown(s).single == None
  {
    RefreshKeepsRest(Expel(s, p));
  }

  // ----- The backend -----

  class GenericSocketBackend {
    var peers: map<PeerId, QueueId>
    var queues: map<QueueId, Chan>
    var roundRobin: seq<PeerId>
    var singlePeer: Option<SinglePeer>
    var peerCount: nat
    var nextQueue: QueueId
    var fairQueue: Option<set<PeerId>>

    ghost function View(): State
      reads this
    {
      State(peers, queues, roundRobin, singlePeer, peerCount, nextQueue, fairQueue)
    }

    /** Sockets that do not receive have no fair queue. */
    constructor (receives: bool)
      ensures Inv(View()) && View() == NoPeersYet(receives)
    {
      peers, queues, roundRobin := map[], map[], [];
      singlePeer, peerCount, nextQueue := None, 0, 0;
      fairQueue := if receives then Some({}) else None;
    }

    method RefreshSinglePeerCache()
      modifies this
      ensures View() == Refresh(old(View()))
    {
      peerCount := |peers|;
      if peerCount == 1 {
        assert |peers.Keys| == 1;
        assert peers.Keys != {};
        var p :| p in peers.Keys;
        OnlyKey(peers, p);
        singlePeer := Some(SinglePeer(p, peers[p]));
        assert TheOnly(peers).peer in peers;
      } else {
        singlePeer := None;
      }
    }

    method PeerConnected(p: PeerId)
      requires Inv(View())
      modifies this
      ensures Inv(View()) && View() == ConnectPeer(old(View()), p)
    {
      hide Inv, Refresh, ConnectPeer;
      ghost var before := View();
      ConnectKeepsInv(before, p);
      AdmittedFirst(before, p);
      peers := peers[p := nextQueue];
      queues := queues[nextQueue := Chan([], 0, true)];
      nextQueue := nextQueue + 1;
      assert View() == Admit(before, p).(fairQueue := before.fairQueue);
      RefreshSinglePeerCache();
      roundRobin := roundRobin + [p];
      if fairQueue.Some? {
        fairQueue := Some(fairQueue.value + {p});
      }
    }

    method PeerDisconnected(p: PeerId)
      modifies this
      ensures View() == DisconnectPeer(old(View()), p)
      ensures Inv(old(View())) ==> Inv(View())
    {
      hide Refresh, Inv;
      ghost var before := View();
      if Inv(before) {
        DisconnectOfInv(before, p);
      }
      peers := peers - {p};
      RefreshIgnoresStreams(View(), Expel(before, p).fairQueue);
      RefreshSinglePeerCache();
      RefreshKeepsRest(Expel(before, p));
      if fairQueue.Some? {
        fairQueue := Some(fairQueue.value - {p});
      }
    }

    method Shutdown()
      requires Inv(View())
      modifies this
      ensures Inv(View()) && View() == ShutDown(old(View()))
    {
      ShutDownKeepsInv(View());
      peers := map[];
      singlePeer := None;
      peerCount := 0;
      if fairQueue.Some? {
        fairQueue := Some({});
      }
    }

    /** `send_to_peer_queue`, for the queue of `p`; a failed send disconnects the peer. */
    method SendToPeerQueue(p: PeerId, q: QueueId, m: Message, wait: Wait) returns (result: SendResult)
      requires q in queues
      modifies this
      ensures (result, View()) == SendTo(old(View()), p, q, m, wait)
    {
      var c := queues[q];
      var ok := c.open;
      if c.open {
        if Full(c) {
          if wait.Drains? {
            c := c.(taken := c.taken + 1, sent := c.sent + [m]);
          } else {
            c := c.(open := false);
            ok := false;
          }
        } else {
          c := c.(sent := c.sent + [m]);
        }
      }
      queues := queues[q := c];
      if ok {
        return Sent;
      }
      PeerDisconnected(p);
      return QueueError;
    }

    /** Tries the cached peer; a miss changes nothing. */
    method TryCached(expected: Option<PeerId>, m: Message, wait: Wait) returns (hit: bool, result: SendResult)
      requires Inv(View())
      modifies this
      ensures hit <==> CacheHit(old(View()), expected)
      ensures hit ==>
                (result, View())
                == SendTo(old(View()), old(singlePeer.value.peer), old(singlePeer.value.queue), m, wait)
      ensures !hit ==> View() == old(View())
    {
      if peerCount != 1 || singlePeer.None? {
        return false, NotFound;
      }
      if expected.Some? && singlePeer.value.peer != expected.value {
        return false, NotFound;
      }
      hit := true;
      result := SendToPeerQueue(singlePeer.value.peer, singlePeer.value.queue, m, wait);
    }

    /** `send_round_robin`: the cache, then the loop that pops ids until one is live. */
    method SendNext(m: Message, wait: Wait) returns (result: SendResult)
      requires Inv(View())
      modifies this
      ensures Inv(View()) && (result, View()) == SendRoundRobin(old(View()), m, wait)
    {
      hide SendTo, CacheExact;
      SendRoundRobinKeepsInv(View(), m, wait);
      var hit;
      hit, result := TryCached(None, m, wait);
      if hit {
        return;
      }
      while true
        invariant WellFormed(View())
        invariant SlowRoundRobin(View(), m, wait) == SlowRoundRobin(old(View()), m, wait)
        decreases |roundRobin|
      {
        if roundRobin == [] {
          return NoPeers(m);
        }
        var next := roundRobin[0];
        roundRobin := roundRobin[1..];
        if next in peers {
          result := SendToPeerQueue(next, peers[next], m, wait);
          if result.Sent? {
            roundRobin := roundRobin + [next];
          }
          return;
        }
      }
    }

    /** `send_to_peer`. */
    method SendToKnown(p: PeerId, m: Message, wait: Wait) returns (result: SendResult)
      requires Inv(View())
      modifies this
      ensures Inv(View()) && (result, View()) == SendToPeer(old(View()), p, m, wait)
    {
      SendToPeerKeepsInv(View(), p, m, wait);
      var hit;
      hit, result := TryCached(Some(p), m, wait);
      if hit {
        return;
      }
      if p !in peers {
        return NotFound;
      }
      result := SendToPeerQueue(p, peers[p], m, wait);
    }
  }
}
