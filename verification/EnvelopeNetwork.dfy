/**
 Many REQ clients that share proxies: any tree of ROUTER/DEALER proxies with one REP at its root.
 Requests and replies of all clients are in flight at once, and every message moves one connection
 at a time in any order; connections may lose messages, and even reorder them.
 */
module EnvelopeNetwork {
  import opened Wrappers
  import opened Sequences
  import opened Bytes
  import opened Envelope

  /** A socket of the tree, named by the identities on its way to REP; REP itself is []. */
  type Node = seq<Bytes>

  datatype Direction = Up | Down

  /** A message that `node` has sent towards REP (up), or that has arrived at `node` from there (down). */
  datatype Flight = Flight(node: Node, direction: Direction, frames: Frames)

  /** What REP keeps of the request it received last; `client` is history, REP does not know it. */
  datatype InProgress = InProgress(client: Node, peer: Bytes, envelope: Frames, payload: Frames)

  /** A reply that the REQ socket `at` received while waiting for the answer to `payload`. */
  datatype Delivery = Delivery(client: Node, at: Node, payload: Frames, result: Result<Frames, ZmqError>)

  /** `flights` is keyed by the client whose request started the message; no socket looks at that key. */
  datatype State = State(
    pending: map<Node, Frames>,
    flights: map<Node, Flight>,
    current: Option<InProgress>,
    received: seq<Delivery>)

  const Start: State := State(map[], map[], None, [])

  /** The REQ clients of the tree. A client is no proxy, so no client's name continues another's. */
  ghost predicate Tree(clients: set<Node>) {
    && (forall c, i :: c in clients && 0 <= i < |c| ==> ValidIdentity(c[i]))
    && (forall c :: c in clients ==> c != [])
    && (forall c, k :: c in clients && 0 < k <= |c| ==> c[k..] !in clients)
  }

  /** `node` is a client, or a proxy on the way of one. */
  ghost predicate IsNode(clients: set<Node>, node: Node) {
    exists c, k :: c in clients && 0 <= k <= |c| && c[k..] == node
  }

  datatype Action =
    | Request(client: Node, payload: Frames)
    | Climb(client: Node)
    | Arrive(client: Node)
    | Reply
    | Descend(client: Node, generated: Bytes)
    | Deliver(client: Node)
    | Lose(client: Node)

  predicate FlightIs(s: State, c: Node, direction: Direction) {
    c in s.flights && s.flights[c].direction == direction
  }

  ghost predicate Enabled(clients: set<Node>, s: State, a: Action) {
    match a
    case Request(c, _) => c in clients
    case Climb(c) => FlightIs(s, c, Up) && |s.flights[c].node| > 1
    case Arrive(c) => FlightIs(s, c, Up) && |s.flights[c].node| == 1
    case Reply => s.current.Some?
    case Descend(c, generated) =>
      FlightIs(s, c, Down) && s.flights[c].node !in clients && ValidIdentity(generated)
    case Deliver(c) => FlightIs(s, c, Down) && s.flights[c].node in s.pending
    case Lose(c) => c in s.flights
  }

  ghost function Apply(clients: set<Node>, serve: Frames -> Frames, s: State, a: Action): State
    requires Enabled(clients, s, a)
  {
    match a
    case Request(c, payload) =>
      if c in s.pending then s
      else s.(pending := s.pending[c := payload], flights := s.flights[c := Flight(c, Up, ReqSent(payload))])
    case Climb(c) =>
      var f := s.flights[c];
      s.(flights := s.flights[c := Flight(f.node[1..], Up, [f.node[0]] + f.frames)])
    case Arrive(c) =>
      var f := s.flights[c];
      var gone := s.(flights := s.flights - {c});
      if |f.frames| < 2 then gone
      else
        var at := SplitPoint(f.frames);
        gone.(current := Some(InProgress(c, f.node[0], f.frames[..at], f.frames[at..])))
    case Reply =>
      var r := s.current.value;
      s.(current := None, flights := s.flights[r.client := Flight([r.peer], Down, r.envelope + serve(r.payload))])
    case Descend(c, generated) =>
      var f := s.flights[c];
      (match RouterPops(f.frames, generated)
       case Err(_) => s.(flights := s.flights - {c})
       case Ok((id, rest)) =>
         if IsNode(clients, [id] + f.node) then s.(flights := s.flights[c := Flight([id] + f.node, Down, rest)])
         else s.(flights := s.flights - {c}))
    case Deliver(c) =>
      var f := s.flights[c];
      s.(flights := s.flights - {c}, pending := s.pending - {f.node},
         received := s.received + [Delivery(c, f.node, s.pending[f.node], ReqReceived(f.frames))])
    case Lose(c) => s.(flights := s.flights - {c})
  }

  // ----- The invariant -----

  /** The message is on the way of `c`, and its frames are the identities behind it and the body. */
  ghost predicate OnItsWay(c: Node, f: Flight, body: Frames) {
    && 1 <= |f.node| <= |c| && f.node == c[|c| - |f.node|..]
    && f.frames == Reversed(c[..|c| - |f.node|]) + ReqSent(body)
  }

  ghost predicate FlightsAreRight(serve: Frames -> Frames, s: State) {
    forall c :: c in s.flights ==>
      && c in s.pending
      && OnItsWay(c, s.flights[c], if s.flights[c].direction.Up? then s.pending[c] else serve(s.pending[c]))
  }

  /** The client's request is at REP and nowhere else. */
  ghost predicate CurrentIsRight(s: State) {
    s.current.Some? ==>
      var r := s.current.value;
      && r.client in s.pending && r.client !in s.flights && r.client != []
      && r.peer == r.client[|r.client| - 1] && r.payload == s.pending[r.client]
      && r.envelope == Reversed(r.client[..|r.client| - 1]) + [[]]
  }

  /** What a client got is the answer to what it had asked. */
  ghost predicate CameHome(serve: Frames -> Frames, d: Delivery) {
    && d.at == d.client
    && d.result == if serve(d.payload) != [] then Ok(serve(d.payload)) else Err(TooFewFrames)
  }

  ghost predicate Inv(clients: set<Node>, serve: Frames -> Frames, s: State) {
    && s.pending.Keys <= clients
    && FlightsAreRight(serve, s) && CurrentIsRight(s)
    && forall i :: 0 <= i < |s.received| ==> CameHome(serve, s.received[i])
  }

  // ----- One connection at a time -----

  lemma LeavesClient(c: Node, payload: Frames)
    requires c != []
    ensures OnItsWay(c, Flight(c, Up, ReqSent(payload)), payload)
  {
    assert c[0..] == c && c[..0] == [] && Reversed([]) == [];
    assert [] + ReqSent(payload) == ReqSent(payload);
  }

  lemma ClimbsOne(c: Node, f: Flight, body: Frames)
    requires OnItsWay(c, f, body) && |f.node| > 1
    ensures OnItsWay(c, Flight(f.node[1..], Up, [f.node[0]] + f.frames), body)
  {
    var k := |c| - |f.node|;
    ReversedLast(c[..k + 1]);
    assert c[..k + 1][..k] == c[..k];
    assert f.node[1..] == c[k + 1..] && f.node[0] == c[k];
    Associate([c[k]], Reversed(c[..k]), ReqSent(body));
  }

  lemma DescendsOne(c: Node, f: Flight, body: Frames, generated: Bytes)
    requires OnItsWay(c, f, body) && |f.node| < |c| && ValidIdentity(generated)
    requires forall i :: 0 <= i < |c| ==> ValidIdentity(c[i])
    ensures var k := |c| - |f.node| - 1;
            && RouterPops(f.frames, generated) == Ok((c[k], Reversed(c[..k]) + ReqSent(body)))
            && [c[k]] + f.node == c[k..]
            && OnItsWay(c, Flight(c[k..], Down, Reversed(c[..k]) + ReqSent(body)), body)
  {
    RouterPopsItsOwn(c, |c| - |f.node| - 1, body, generated);
  }

  lemma ReachesRep(c: Node, f: Flight, payload: Frames)
    requires OnItsWay(c, f, payload) && |f.node| == 1 && |f.frames| >= 2
    requires forall i :: 0 <= i < |c| ==> ValidIdentity(c[i])
    ensures var at := SplitPoint(f.frames);
            && f.frames[..at] == Reversed(c[..|c| - 1]) + [[]] && f.frames[at..] == payload
            && f.node[0] == c[|c| - 1]
  {
    var stack := Reversed(c[..|c| - 1]);
    ReversedMembers(c[..|c| - 1], []);
    CutBehindStack(stack, payload);
  }

  lemma LeavesRep(c: Node, body: Frames)
    requires c != []
    ensures OnItsWay(c, Flight([c[|c| - 1]], Down, Reversed(c[..|c| - 1]) + [[]] + body), body)
  {
    BehindEnvelope(c[..|c| - 1], body);
  }

  /** At a client a message can only be at its own. */
  lemma AtItsOwnClient(clients: set<Node>, c: Node, f: Flight, body: Frames)
    requires Tree(clients) && c in clients && OnItsWay(c, f, body)
    ensures f.node in clients <==> f.node == c
    ensures f.node == c ==> f.frames == ReqSent(body)
  {
    if f.node == c {
      assert c[..0] == [] && Reversed([]) == [];
      assert [] + ReqSent(body) == ReqSent(body);
    }
  }

  // ----- Every step keeps the invariant -----

  lemma RequestKeeps(clients: set<Node>, serve: Frames -> Frames, s: State, a: Action)
    requires Tree(clients) && Inv(clients, serve, s) && Enabled(clients, s, a) && a.Request?
    ensures Inv(clients, serve, Apply(clients, serve, s, a))
  {
    hide OnItsWay, CameHome, ReqSent;
    LeavesClient(a.client, a.payload);
  }

  lemma ClimbKeeps(clients: set<Node>, serve: Frames -> Frames, s: State, a: Action)
    requires Inv(clients, serve, s) && Enabled(clients, s, a) && a.Climb?
    ensures Inv(clients, serve, Apply(clients, serve, s, a)) && a.client in Apply(clients, serve, s, a).flights
  {
    hide OnItsWay, CameHome;
    ClimbsOne(a.client, s.flights[a.client], s.pending[a.client]);
  }

  lemma ArriveKeeps(clients: set<Node>, serve: Frames -> Frames, s: State, a: Action)
    requires Tree(clients) && Inv(clients, serve, s) && Enabled(clients, s, a) && a.Arrive?
    ensures Inv(clients, serve, Apply(clients, serve, s, a))
  {
    hide CameHome, SplitPoint;
    if |s.flights[a.client].frames| >= 2 {
      ReachesRep(a.client, s.flights[a.client], s.pending[a.client]);
    }
  }

  lemma ReplyKeeps(clients: set<Node>, serve: Frames -> Frames, s: State)
    requires Inv(clients, serve, s) && Enabled(clients, s, Reply)
    ensures Inv(clients, serve, Apply(clients, serve, s, Reply))
  {
    hide OnItsWay, CameHome, Reversed;
    var r := s.current.value;
    LeavesRep(r.client, serve(r.payload));
    var s' := Apply(clients, serve, s, Reply);
    assert OnItsWay(r.client, s'.flights[r.client], serve(s.pending[r.client]));
  }

  lemma DescendKeeps(clients: set<Node>, serve: Frames -> Frames, s: State, a: Action)
    requires Tree(clients) && Inv(clients, serve, s) && Enabled(clients, s, a) && a.Descend?
    ensures Inv(clients, serve, Apply(clients, serve, s, a)) && a.client in Apply(clients, serve, s, a).flights
  {
    var (c, f) := (a.client, s.flights[a.client]);
    var body := serve(s.pending[c]);
    AtItsOwnClient(clients, c, f, body);
    DescendsOne(c, f, body, a.generated);
    assert IsNode(clients, c[|c| - |f.node| - 1..]);
    hide OnItsWay, CameHome, IsNode;
  }

  lemma DeliverKeeps(clients: set<Node>, serve: Frames -> Frames, s: State, a: Action)
    requires Tree(clients) && Inv(clients, serve, s) && Enabled(clients, s, a) && a.Deliver?
    ensures Inv(clients, serve, Apply(clients, serve, s, a))
  {
    var (c, f) := (a.client, s.flights[a.client]);
    var body := serve(s.pending[c]);
    AtItsOwnClient(clients, c, f, body);
    assert ReqSent(body)[1..] == body;
    assert CameHome(serve, Delivery(c, f.node, s.pending[f.node], ReqReceived(f.frames)));
    hide OnItsWay, CameHome, ReqReceived;
  }

  lemma StepKeepsInv(clients: set<Node>, serve: Frames -> Frames, s: State, a: Action)
    requires Tree(clients) && Inv(clients, serve, s) && Enabled(clients, s, a)
    ensures Inv(clients, serve, Apply(clients, serve, s, a))
  {
    hide OnItsWay, CameHome, Tree;
    match a
    case Request(_, _) => RequestKeeps(clients, serve, s, a);
    case Climb(_) => ClimbKeeps(clients, serve, s, a);
    case Arrive(_) => ArriveKeeps(clients, serve, s, a);
    case Reply => ReplyKeeps(clients, serve, s);
    case Descend(_, _) => DescendKeeps(clients, serve, s, a);
    case Deliver(_) => DeliverKeeps(clients, serve, s, a);
    case Lose(_) =>
  }

  ghost predicate Possible(clients: set<Node>, serve: Frames -> Frames, s: State, actions: seq<Action>)
    decreases |actions|
  {
    actions != [] ==>
      Enabled(clients, s, actions[0]) && Possible(clients, serve, Apply(clients, serve, s, actions[0]), actions[1..])
  }

  ghost function Run(clients: set<Node>, serve: Frames -> Frames, s: State, actions: seq<Action>): State
    requires Possible(clients, serve, s, actions)
    decreases |actions|
  {
    if actions == [] then s else Run(clients, serve, Apply(clients, serve, s, actions[0]), actions[1..])
  }

  lemma {:induction false} RunKeepsInv(clients: set<Node>, serve: Frames -> Frames, s: State, actions: seq<Action>)
    requires Tree(clients) && Inv(clients, serve, s) && Possible(clients, serve, s, actions)
    ensures Inv(clients, serve, Run(clients, serve, s, actions))
    decreases |actions|
  {
    hide Inv, Tree, Apply, Enabled;
    if actions != [] {
      StepKeepsInv(clients, serve, s, actions[0]);
      RunKeepsInv(clients, serve, Apply(clients, serve, s, actions[0]), actions[1..]);
    }
  }

  /**
   Every reply comes home: for any number of clients behind any tree of shared proxies, and any
   interleaving of their requests, replies and losses, whatever a client receives is the answer to
   the request it is waiting for, although no socket but its own knows who asked.
   */
  lemma EveryReplyComesHome(clients: set<Node>, serve: Frames -> Frames, actions: seq<Action>)
    requires Tree(clients) && Possible(clients, serve, Start, actions)
    ensures forall d :: d in Run(clients, serve, Start, actions).received ==> CameHome(serve, d)
  {
    hide CameHome;
    RunKeepsInv(clients, serve, Start, actions);
  }

  /** How many more steps a message has before its client gets the answer. */
  function StepsLeft(s: State, c: Node): nat {
    if c in s.flights then
      var f := s.flights[c];
      if f.direction.Up? then |c| + |f.node| + 1 else if |f.node| <= |c| then |c| - |f.node| + 1 else 0
    else |c| + 1
  }

  /** The step that takes the request or the answer of `c` on. */
  ghost function NextFor(clients: set<Node>, s: State, c: Node, generated: Bytes): Action {
    if c in s.flights then
      if s.flights[c].direction.Up? then if |s.flights[c].node| > 1 then Climb(c) else Arrive(c)
      else if s.flights[c].node in clients then Deliver(c) else Descend(c, generated)
    else Reply
  }

  /** The client's request, or its answer, is on a connection or at REP. */
  predicate Underway(s: State, c: Node) {
    c in s.flights || (s.current.Some? && s.current.value.client == c)
  }

  /** The step brought the client's answer nearer, or was the last one and delivered it. */
  ghost predicate Nearer(s: State, s': State, c: Node) {
    if c in s'.pending then Underway(s', c) && StepsLeft(s', c) < StepsLeft(s, c)
    else |s'.received| == |s.received| + 1 && s'.received[|s.received|].client == c
  }

  lemma TowardsRep(clients: set<Node>, serve: Frames -> Frames, s: State, c: Node)
    requires Tree(clients) && Inv(clients, serve, s) && Underway(s, c)
    requires c in s.flights ==> FlightIs(s, c, Up) && (|s.flights[c].node| == 1 ==> |s.flights[c].frames| >= 2)
    ensures var a := NextFor(clients, s, c, []);
            Enabled(clients, s, a) && Nearer(s, Apply(clients, serve, s, a), c)
  {
    hide Reversed, ReqSent, CameHome, SplitPoint;
  }

  /** Where a descending message goes next: to the node below, and nothing else changes. */
  lemma DescendGoesDown(clients: set<Node>, serve: Frames -> Frames, s: State, c: Node, generated: Bytes)
    requires Tree(clients) && Inv(clients, serve, s) && Enabled(clients, s, Descend(c, generated))
    ensures var (f, s') := (s.flights[c], Apply(clients, serve, s, Descend(c, generated)));
            && c in s'.flights && s'.pending == s.pending && s'.flights[c].direction.Down?
            && |s'.flights[c].node| == |f.node| + 1 <= |c|
  {
    var f := s.flights[c];
    AtItsOwnClient(clients, c, f, serve(s.pending[c]));
    DescendsOne(c, f, serve(s.pending[c]), generated);
    assert IsNode(clients, c[|c| - |f.node| - 1..]);
    hide Inv, Tree, IsNode, OnItsWay, ReqSent, Reversed, RouterPops;
  }

  lemma FromRep(clients: set<Node>, serve: Frames -> Frames, s: State, c: Node, generated: Bytes)
    requires Tree(clients) && Inv(clients, serve, s) && ValidIdentity(generated) && FlightIs(s, c, Down)
    ensures var a := NextFor(clients, s, c, generated);
            Enabled(clients, s, a) && Nearer(s, Apply(clients, serve, s, a), c)
  {
    AtItsOwnClient(clients, c, s.flights[c], serve(s.pending[c]));
    if s.flights[c].node in clients {
      hide Inv, Tree, IsNode, OnItsWay, ReqSent, Reversed, RouterPops, ReqReceived;
    } else {
      DescendGoesDown(clients, serve, s, c, generated);
      hide Inv, Tree, Apply, IsNode, OnItsWay;
    }
  }

  /**
   Nothing gets stuck or lost by routing: in every reachable state the next step of a message that
   is in flight, or of the request at REP, is possible and brings its client nearer to the answer,
   and the last one delivers it. REP refuses only an empty payload that comes without an envelope.
   */
  lemma RoutingMakesProgress(clients: set<Node>, serve: Frames -> Frames, s: State, c: Node, generated: Bytes)
    requires Tree(clients) && Inv(clients, serve, s) && ValidIdentity(generated) && Underway(s, c)
    requires FlightIs(s, c, Up) && s.pending[c] == [] ==> |c| > 1
    ensures var a := NextFor(clients, s, c, generated);
            Enabled(clients, s, a) && Nearer(s, Apply(clients, serve, s, a), c)
  {
    if FlightIs(s, c, Down) {
      FromRep(clients, serve, s, c, generated);
    } else {
      assert c in s.flights ==>
          |s.flights[c].frames| == |c| - |s.flights[c].node| + |ReqSent(s.pending[c])|;
      TowardsRep(clients, serve, s, c);
    }
  }

  /** REP takes the message of the action's client as a request; one without envelope and payload is refused. */
  predicate Accepted(s: State, a: Action) {
    a.Arrive? && a.client in s.flights && |s.flights[a.client].frames| >= 2
  }

  /**
   Exactly when a client is left waiting for ever: a connection loses its message, REP refuses its
   request, or REP receives another request before it has replied to this one.
   */
  lemma ForgottenIff(clients: set<Node>, serve: Frames -> Frames, s: State, a: Action, d: Node)
    requires Tree(clients) && Inv(clients, serve, s) && Enabled(clients, s, a) && Underway(s, d)
    ensures var s' := Apply(clients, serve, s, a);
            d in s'.pending && !Underway(s', d)
            <==> || a == Lose(d)
                 || (a == Arrive(d) && !Accepted(s, a))
                 || (Accepted(s, a) && s.current.Some? && s.current.value.client == d)
  {
    hide Tree, OnItsWay, CameHome, SplitPoint, ReqSent, IsNode, RouterPops, ReqReceived;
    match a
    case Descend(_, _) => DescendKeeps(clients, serve, s, a);
    case Deliver(c) => DeliveredAtHome(clients, serve, s, c);
    case _ =>
  }

  lemma DeliveredAtHome(clients: set<Node>, serve: Frames -> Frames, s: State, c: Node)
    requires Tree(clients) && Inv(clients, serve, s) && Enabled(clients, s, Deliver(c))
    ensures s.flights[c].node == c
  {
    AtItsOwnClient(clients, c, s.flights[c], serve(s.pending[c]));
  }
}
