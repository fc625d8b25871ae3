/**
 Request-reply envelopes: the message deque, peer identities, and the REQ, ROUTER and REP sockets
 that push and pop frames in front of a payload, over any number of ROUTER/DEALER hops.
 */
module Envelope {
  import opened Wrappers
  import opened Sequences
  import opened Bytes

  type Frames = seq<Bytes>

  datatype ZmqError =
    | RequestInProgress
    | NoRequestInProgress
    | NotConnected
    | UnknownPeer
    | PeerDisconnected
    | TooFewFrames
    | MissingDelimiter
    | InvalidFormat
    | NotAMessage
    | BadIdentity
    | SendFailed
    | StreamError
    | StreamEnded

  // ----- The message, changed in place -----

  class ZmqMessage {
    var frames: Frames

    constructor (frames: Frames)
      ensures this.frames == frames
    {
      this.frames := frames;
    }

    method PushFront(frame: Bytes)
      modifies this
      ensures frames == [frame] + old(frames)
    {
      frames := [frame] + frames;
    }

    method PopFront() returns (front: Option<Bytes>)
      modifies this
      ensures old(frames) == [] ==> front == None && frames == []
      ensures old(frames) != [] ==> front == Some(old(frames)[0]) && frames == old(frames)[1..]
    {
      if frames == [] {
        return None;
      }
      front := Some(frames[0]);
      frames := frames[1..];
    }

    /** Pushes the other message's frames in front, last one first. */
    method Prepend(message: ZmqMessage)
      requires message != this
      modifies this
      ensures frames == message.frames + old(frames)
    {
      var i := |message.frames|;
      assert message.frames[|message.frames|..] + frames == frames;
      while i > 0
        invariant 0 <= i <= |message.frames|
        invariant message.frames == old(message.frames) && frames == message.frames[i..] + old(frames)
      {
        i := i - 1;
        assert message.frames[i..] == [message.frames[i]] + message.frames[i + 1..];
        PushFront(message.frames[i]);
      }
    }

    method SplitOff(at: nat) returns (tail: ZmqMessage)
      requires at <= |frames|
      modifies this
      ensures fresh(tail) && frames == old(frames)[..at] && tail.frames == old(frames)[at..]
    {
      tail := new ZmqMessage(frames[at..]);
      frames := frames[..at];
    }
  }

  // ----- Peer identities -----

  const MAX_IDENTITY: nat := 255

  ghost predicate ValidIdentity(id: Bytes) {
    1 <= |id| <= MAX_IDENTITY
  }

  /** `PeerIdentity::try_from`; `generated` stands for the random identity that replaces an empty one. */
  function ToIdentity(data: Bytes, generated: Bytes): (r: Result<Bytes, ZmqError>)
    requires ValidIdentity(generated)
    ensures r.Ok? <==> |data| <= MAX_IDENTITY
    ensures r.Ok? ==> ValidIdentity(r.value) && (data != [] ==> r.value == data)
  {
    if |data| == 0 then Ok(generated)
    else if |data| > MAX_IDENTITY then Err(BadIdentity)
    else Ok(data)
  }

  // ----- What each socket does to the frames -----

  function ReqSent(payload: Frames): Frames {
    [[]] + payload
  }

  function ReqReceived(frames: Frames): Result<Frames, ZmqError> {
    if |frames| < 2 then Err(TooFewFrames)
    else if frames[0] != [] then Err(MissingDelimiter)
    else Ok(frames[1..])
  }

  /** REQ hands out a reply exactly if it comes behind an empty frame; each other form has its error. */
  lemma ReqAcceptsIff(frames: Frames)
    ensures forall reply :: ReqReceived(frames) == Ok(reply) <==> reply != [] && frames == [[]] + reply
    ensures ReqReceived(frames) == Err(TooFewFrames) <==> |frames| < 2
    ensures ReqReceived(frames) == Err(MissingDelimiter) <==> |frames| >= 2 && |frames[0]| > 0
  {
    forall reply
      ensures ReqReceived(frames) == Ok(reply) <==> reply != [] && frames == [[]] + reply
    {
      if |frames| >= 2 && frames[0] == [] {
        assert frames == [[]] + frames[1..];
      }
      assert frames == [[]] + reply ==> frames[0] == [] && frames[1..] == reply;
    }
  }

  /** One past the first empty frame, if there is one. */
  function AfterDelimiter(frames: Frames): (r: Option<nat>)
    ensures r.None? <==> [] !in frames
    ensures r.Some? ==> 1 <= r.value <= |frames| && frames[r.value - 1] == [] && [] !in frames[..r.value - 1]
  {
    if frames == [] then None
    else if frames[0] == [] then Some(1)
    else match AfterDelimiter(frames[1..])
      case None => None
      case Some(n) =>
        assert frames[..n] == [frames[0]] + frames[1..][..n - 1];
        Some(n + 1)
  }

  /** Where REP cuts a request into envelope and payload. */
  function SplitPoint(frames: Frames): (at: nat)
    requires frames != []
    ensures 1 <= at <= |frames|
  {
    var d := AfterDelimiter(frames);
    if d.Some? then d.value else 1
  }

  /** Pops the identity that routes a message, as ROUTER does when it sends. */
  function RouterPops(frames: Frames, generated: Bytes): Result<(Bytes, Frames), ZmqError>
    requires ValidIdentity(generated)
  {
    if |frames| <= 1 then Err(TooFewFrames)
    else match ToIdentity(frames[0], generated)
      case Err(e) => Err(e)
      case Ok(id) => Ok((id, frames[1..]))
  }

  /** Where a message goes that ROUTER is to send, and what becomes of its peers. */
  function Routed(peers: map<Bytes, Connection>, frames: Frames, generated: Bytes):
    (Result<Bytes, ZmqError>, map<Bytes, Connection>)
    requires ValidIdentity(generated)
  {
    match RouterPops(frames, generated)
    case Err(e) => (Err(e), peers)
    case Ok((id, rest)) =>
      if id !in peers then (Err(UnknownPeer), peers)
      else if peers[id].broken then (Err(SendFailed), peers - {id})
      else (Ok(id), peers[id := peers[id].(sent := peers[id].sent + [rest])])
  }

  /**
   Every answer of a routed send: a message without a body or with an over-long identity is refused; to
   a peer that is not connected, or whose connection fails, nothing is sent, and the latter is dropped;
   otherwise the peer that the front frame names is sent the frames behind it.
   */
  lemma RoutedIff(peers: map<Bytes, Connection>, frames: Frames, generated: Bytes)
    requires ValidIdentity(generated)
    ensures var (r, after) := Routed(peers, frames, generated);
            && (r == Err(TooFewFrames) <==> |frames| <= 1)
            && (r == Err(BadIdentity) <==> |frames| >= 2 && |frames[0]| > 255)
            && (|frames| >= 2 && 1 <= |frames[0]| <= 255 ==>
                  var id := frames[0];
                  && (r == Err(UnknownPeer) <==> id !in peers)
                  && (r == Err(SendFailed) <==> id in peers && peers[id].broken)
                  && (r == Ok(id) <==> id in peers && !peers[id].broken)
                  && (r == Ok(id) ==> id in after && after[id].sent == peers[id].sent + [frames[1..]]
                                      && after - {id} == peers - {id})
                  && (r == Err(SendFailed) ==> after == peers - {id}))
            && (r.Err? && r.error != SendFailed ==> after == peers)
  {
  }

  // ----- Sockets -----

  datatype Received = Message(frames: Frames) | ControlFrame | Broken

  /** A connection: frames sent over it, what will be received, and whether sends fail. */
  datatype Connection = Connection(sent: seq<Frames>, incoming: seq<Received>, broken: bool)

  /** What the fair queue hands to a socket. */
  datatype Arrival = Arrival(peer: Bytes, item: Received)

  predicate IsMessage(a: Arrival) {
    a.item.Message?
  }

  predicate IsNoControl(a: Arrival) {
    !a.item.ControlFrame?
  }

  /** The first arrival at which a receive loop stops. */
  function FirstWhere(ready: seq<Arrival>, stops: Arrival -> bool): (r: Option<nat>)
    ensures r.Some? ==> r.value < |ready| && stops(ready[r.value]) && forall i :: 0 <= i < r.value ==> !stops(ready[i])
    ensures r.None? ==> forall i :: 0 <= i < |ready| ==> !stops(ready[i])
  {
    if ready == [] then None
    else if stops(ready[0]) then Some(0)
    else Shift(FirstWhere(ready[1..], stops), 1)
  }

  lemma {:induction false} StopsAtLast(before: seq<Arrival>, last: Arrival, stops: Arrival -> bool)
    requires FirstWhere(before, stops) == None && stops(last)
    ensures FirstWhere(before + [last], stops) == Some(|before|)
  {
    if before == [] {
      assert before + [last] == [last];
    } else {
      assert (before + [last])[0] == before[0] && (before + [last])[1..] == before[1..] + [last];
      StopsAtLast(before[1..], last, stops);
    }
  }

  function BrokenPeers(arrivals: seq<Arrival>): set<Bytes> {
    set a | a in arrivals && a.item.Broken? :: a.peer
  }

  class ReqSocket {
    var currentRequest: Option<Bytes>
    var peers: map<Bytes, Connection>
    var roundRobin: seq<Bytes>

    /** The peer of the request in progress; its absence from the map means that it has disconnected. */
    constructor ()
      ensures currentRequest == None && peers == map[] && roundRobin == []
    {
      currentRequest, peers, roundRobin := None, map[], [];
    }

    /**
     `send`: refused while a request is in progress, which leaves the message as it was. Otherwise
     the first connected peer of the rotation gets the delimiter and the payload.
     */
    method Send(message: ZmqMessage) returns (result: Result<Bytes, ZmqError>)
      modifies this, message
      ensures old(currentRequest).Some? ==>
                result == Err(RequestInProgress) && message.frames == old(message.frames)
                && currentRequest == old(currentRequest) && peers == old(peers) && roundRobin == old(roundRobin)
      ensures old(currentRequest).None? && FirstConnected(old(roundRobin), old(peers)).None? ==>
                result == Err(NotConnected) && message.frames == old(message.frames)
                && currentRequest == None && peers == old(peers) && roundRobin == []
      ensures old(currentRequest).None? && FirstConnected(old(roundRobin), old(peers)).Some? ==>
                var n := FirstConnected(old(roundRobin), old(peers)).value;
                var p := old(roundRobin)[n];
                && p in old(peers) && roundRobin == old(roundRobin)[n + 1..] + [p]
                && (if old(peers)[p].broken then
                      result == Err(SendFailed) && currentRequest == None && peers == old(peers)
                    else
                      result == Ok(p) && currentRequest == Some(p)
                      && peers == old(peers)[p := old(peers)[p].(sent :=
                                    old(peers)[p].sent + [ReqSent(old(message.frames))])])
    {
      if currentRequest.Some? {
        return Err(RequestInProgress);
      }
      ghost var skipped := 0;
      while true
        invariant skipped <= |old(roundRobin)| && roundRobin == old(roundRobin)[skipped..]
        invariant peers == old(peers) && currentRequest == None && message.frames == old(message.frames)
        invariant FirstConnected(old(roundRobin), peers) == Shift(FirstConnected(roundRobin, peers), skipped)
        decreases |roundRobin|
      {
        if roundRobin == [] {
          return Err(NotConnected);
        }
        var next := roundRobin[0];
        roundRobin := roundRobin[1..];
        if next in peers {
          roundRobin := roundRobin + [next];
          message.PushFront([]);
          var peer := peers[next];
          if peer.broken {
            return Err(SendFailed);
          }
          peers := peers[next := peer.(sent := peer.sent + [message.frames])];
          currentRequest := Some(next);
          return Ok(next);
        }
        skipped := skipped + 1;
      }
    }

    /** `recv`: whatever arrives, or fails to, ends the request in progress. */
    method Recv() returns (result: Result<Frames, ZmqError>)
      modifies this
      ensures currentRequest == None && roundRobin == old(roundRobin)
      ensures old(currentRequest).None? ==> result == Err(NoRequestInProgress) && peers == old(peers)
      ensures old(currentRequest).Some? && old(currentRequest).value !in old(peers) ==>
                result == Err(PeerDisconnected) && peers == old(peers)
      ensures old(currentRequest).Some? && old(currentRequest).value in old(peers) ==>
                var p := old(currentRequest).value;
                var incoming := old(peers)[p].incoming;
                if incoming == [] then result == Err(StreamEnded) && peers == old(peers)
                else
                  && peers == old(peers)[p := old(peers)[p].(incoming := incoming[1..])]
                  && result == match incoming[0]
                               case Message(frames) => ReqReceived(frames)
                               case ControlFrame => Err(NotAMessage)
                               case Broken => Err(StreamError)
    {
      if currentRequest.None? {
        return Err(NoRequestInProgress);
      }
      var p := currentRequest.value;
      currentRequest := None;
      if p !in peers {
        return Err(PeerDisconnected);
      }
      var peer := peers[p];
      if peer.incoming == [] {
        return Err(StreamEnded);
      }
      peers := peers[p := peer.(incoming := peer.incoming[1..])];
      match peer.incoming[0] {
        case ControlFrame => return Err(NotAMessage);
        case Broken => return Err(StreamError);
        case Message(frames) =>
          var m := new ZmqMessage(frames);
          if |m.frames| < 2 {
            return Err(TooFewFrames);
          }
          var front := m.PopFront();
          if front.value != [] {
            return Err(MissingDelimiter);
          }
          return Ok(m.frames);
      }
    }
  }

  /** The first entry of the rotation that is connected. */
  function FirstConnected(ids: seq<Bytes>, peers: map<Bytes, Connection>): (r: Option<nat>)
    ensures r.Some? ==> r.value < |ids| && ids[r.value] in peers && forall i :: 0 <= i < r.value ==> ids[i] !in peers
    ensures r.None? ==> forall i :: 0 <= i < |ids| ==> ids[i] !in peers
  {
    if ids == [] then None
    else if ids[0] in peers then Some(0)
    else Shift(FirstConnected(ids[1..], peers), 1)
  }

  function Shift(n: Option<nat>, offset: nat): Option<nat> {
    match n
    case None => None
    case Some(i) => Some(i + offset)
  }

  class RepSocket {
    var envelope: Option<Frames>
    var currentRequest: Option<Bytes>
    var peers: map<Bytes, Connection>
    var ready: seq<Arrival>

    /** A request in progress has its envelope. */
    ghost predicate Valid()
      reads this
    {
      currentRequest.Some? ==> envelope.Some?
    }

    constructor ()
      ensures Valid() && currentRequest == None && peers == map[] && ready == []
    {
      envelope, currentRequest, peers, ready := None, None, map[], [];
    }

    /**
     `recv`: control frames are skipped; an error ends the loop and drops its peer, but neither the
     envelope nor the request in progress.
     */
    method Recv() returns (result: Result<ZmqMessage, ZmqError>)
      requires Valid()
      modifies this
      ensures Valid()
      ensures match FirstWhere(old(ready), IsNoControl)
              case None =>
                result == Err(StreamEnded) && ready == []
                && envelope == old(envelope) && currentRequest == old(currentRequest) && peers == old(peers)
              case Some(n) =>
                var a := old(ready)[n];
                && ready == old(ready)[n + 1..]
                && match a.item
                   case Broken =>
                     result == Err(StreamError) && peers == old(peers) - {a.peer}
                     && envelope == old(envelope) && currentRequest == old(currentRequest)
                   case Message(frames) =>
                     && peers == old(peers)
                     && if |frames| < 2 then
                          result == Err(InvalidFormat)
                          && envelope == old(envelope) && currentRequest == old(currentRequest)
                        else
                          && result.Ok? && fresh(result.value) && result.value.frames == frames[SplitPoint(frames)..]
                          && currentRequest == Some(a.peer) && envelope == Some(frames[..SplitPoint(frames)])
    {
      hide SplitPoint;
      ghost var skipped := 0;
      while ready != []
        invariant skipped <= |old(ready)| && ready == old(ready)[skipped..]
        invariant forall i :: 0 <= i < skipped ==> !IsNoControl(old(ready)[i])
        invariant envelope == old(envelope) && currentRequest == old(currentRequest) && peers == old(peers)
        decreases |ready|
      {
        var a := ready[0];
        ready := ready[1..];
        match a.item {
          case ControlFrame =>
          case Broken =>
            assert FirstWhere(old(ready), IsNoControl) == Some(skipped);
            peers := peers - {a.peer};
            return Err(StreamError);
          case Message(frames) =>
            assert FirstWhere(old(ready), IsNoControl) == Some(skipped);
            var message := new ZmqMessage(frames);
            result := Accept(a.peer, message);
            return;
        }
        skipped := skipped + 1;
      }
      return Err(StreamEnded);
    }

    /** Keeps the envelope of a request and hands out the rest. */
    method Accept(peer: Bytes, message: ZmqMessage) returns (result: Result<ZmqMessage, ZmqError>)
      requires Valid()
      modifies this, message
      ensures Valid() && peers == old(peers) && ready == old(ready)
      ensures |old(message.frames)| < 2 ==>
                result == Err(InvalidFormat) && envelope == old(envelope) && currentRequest == old(currentRequest)
      ensures |old(message.frames)| >= 2 ==>
                var at := SplitPoint(old(message.frames));
                && result.Ok? && fresh(result.value) && currentRequest == Some(peer)
                && envelope == Some(old(message.frames)[..at]) && result.value.frames == old(message.frames)[at..]
    {
      if |message.frames| < 2 {
        return Err(InvalidFormat);
      }
      var at := 1;
      var index := 0;
      while index < |message.frames|
        invariant 0 <= index <= |message.frames| && at == 1 && message.frames == old(message.frames)
        invariant [] !in message.frames[..index]
      {
        if message.frames[index] == [] {
          at := index + 1;
          break;
        }
        assert message.frames[..index + 1] == message.frames[..index] + [message.frames[index]];
        index := index + 1;
      }
      SplitPointIsFirstEmpty(message.frames, index);
      var data := message.SplitOff(at);
      envelope := Some(message.frames);
      currentRequest := Some(peer);
      return Ok(data);
    }

    /** `send`: the reply goes, behind the saved envelope, to the peer of the request in progress. */
    method Send(message: ZmqMessage) returns (result: Result<(), ZmqError>)
      requires Valid()
      modifies this, message
      ensures Valid() && currentRequest == None && ready == old(ready)
      ensures old(currentRequest).None? ==>
                result == Err(NoRequestInProgress) && message.frames == old(message.frames)
                && envelope == old(envelope) && peers == old(peers)
      ensures old(currentRequest).Some? && old(currentRequest).value !in old(peers) ==>
                result == Err(PeerDisconnected) && message.frames == old(message.frames)
                && envelope == old(envelope) && peers == old(peers)
      ensures old(currentRequest).Some? && old(currentRequest).value in old(peers) ==>
                var p := old(currentRequest).value;
                && envelope == None
                && (if old(peers)[p].broken then result == Err(SendFailed) && peers == old(peers)
                    else
                      result == Ok(())
                      && peers == old(peers)[p := old(peers)[p].(sent :=
                                    old(peers)[p].sent + [old(envelope).value + old(message.frames)])])
    {
      if currentRequest.None? {
        return Err(NoRequestInProgress);
      }
      var p := currentRequest.value;
      currentRequest := None;
      if p !in peers {
        return Err(PeerDisconnected);
      }
      if envelope.Some? {
        var saved := new ZmqMessage(envelope.value);
        envelope := None;
        message.Prepend(saved);
      }
      if peers[p].broken {
        return Err(SendFailed);
      }
      peers := peers[p := peers[p].(sent := peers[p].sent + [message.frames])];
      return Ok(());
    }
  }

  lemma NoEmptyBefore(frames: Frames, n: nat)
    requires n <= |frames| && [] !in frames[..n]
    ensures forall i :: 0 <= i < n ==> frames[i] != []
  {
    forall i | 0 <= i < n
      ensures frames[i] != []
    {
      assert frames[..n][i] == frames[i];
    }
  }

  lemma SplitPointIsFirstEmpty(frames: Frames, index: nat)
    requires frames != [] && index <= |frames| && [] !in frames[..index]
    requires index < |frames| ==> frames[index] == []
    ensures SplitPoint(frames) == if index < |frames| then index + 1 else 1
  {
    if index < |frames| {
      assert [] in frames;
      var n := AfterDelimiter(frames).value;
      NoEmptyBefore(frames, index);
      NoEmptyBefore(frames, n - 1);
    } else {
      assert frames[..index] == frames;
    }
  }

  class RouterSocket {
    var peers: map<Bytes, Connection>
    var ready: seq<Arrival>

    constructor ()
      ensures peers == map[] && ready == []
    {
      peers, ready := map[], [];
    }

    /**
     `recv`: the sender's identity goes in front. Control frames are skipped, and so are errors,
     which drop their peers.
     */
    method Recv() returns (result: Result<ZmqMessage, ZmqError>)
      modifies this
      ensures match FirstWhere(old(ready), IsMessage)
              case None => result == Err(StreamEnded) && ready == [] && peers == old(peers) - BrokenPeers(old(ready))
              case Some(n) =>
                && ready == old(ready)[n + 1..] && peers == old(peers) - BrokenPeers(old(ready)[..n])
                && result.Ok? && fresh(result.value)
                && result.value.frames == [old(ready)[n].peer] + old(ready)[n].item.frames
    {
      ghost var skipped := 0;
      while ready != []
        invariant skipped <= |old(ready)| && ready == old(ready)[skipped..]
        invariant forall i :: 0 <= i < skipped ==> !IsMessage(old(ready)[i])
        invariant peers == old(peers) - BrokenPeers(old(ready)[..skipped])
        decreases |ready|
      {
        var a := ready[0];
        ready := ready[1..];
        match a.item {
          case Message(frames) =>
            assert FirstWhere(old(ready), IsMessage) == Some(skipped);
            var message := new ZmqMessage(frames);
            message.PushFront(a.peer);
            return Ok(message);
          case ControlFrame =>
          case Broken => peers := peers - {a.peer};
        }
        assert old(ready)[..skipped + 1] == old(ready)[..skipped] + [a];
        skipped := skipped + 1;
      }
      assert old(ready)[..skipped] == old(ready);
      return Err(StreamEnded);
    }

    /** `send`: the identity in front is popped and names the peer, which gets the rest. */
    method Send(message: ZmqMessage, generated: Bytes) returns (result: Result<Bytes, ZmqError>)
      requires ValidIdentity(generated)
      modifies this, message
      ensures ready == old(ready)
      ensures (result, peers) == Routed(old(peers), old(message.frames), generated)
    {
      if |message.frames| <= 1 {
        return Err(TooFewFrames);
      }
      var front := message.PopFront();
      result := ToIdentity(front.value, generated);
      if result.Err? {
        return;
      }
      var id := result.value;
      if id !in peers {
        return Err(UnknownPeer);
      }
      if peers[id].broken {
        peers := peers - {id};
        return Err(SendFailed);
      }
      peers := peers[id := peers[id].(sent := peers[id].sent + [message.frames])];
    }
  }

  /** A DEALER with one connection; several of them take turns as module Backend says. */
  class DealerSocket {
    var server: Connection
    var ready: seq<Arrival>

    constructor (server: Connection)
      ensures this.server == server && ready == []
    {
      this.server, ready := server, [];
    }

    /** `recv`: control frames are skipped, and messages are handed out as they are. */
    method Recv() returns (result: Result<Frames, ZmqError>)
      modifies this`ready
      ensures match FirstWhere(old(ready), IsNoControl)
              case None => result == Err(StreamEnded) && ready == []
              case Some(n) =>
                && ready == old(ready)[n + 1..]
                && result == match old(ready)[n].item
                             case Broken => Err(StreamError)
                             case Message(frames) => Ok(frames)
    {
      ghost var skipped := 0;
      while ready != []
        invariant skipped <= |old(ready)| && ready == old(ready)[skipped..]
        invariant forall i :: 0 <= i < skipped ==> !IsNoControl(old(ready)[i])
        decreases |ready|
      {
        var a := ready[0];
        ready := ready[1..];
        match a.item {
          case ControlFrame =>
          case Broken =>
            assert FirstWhere(old(ready), IsNoControl) == Some(skipped);
            return Err(StreamError);
          case Message(frames) =>
            assert FirstWhere(old(ready), IsNoControl) == Some(skipped);
            return Ok(frames);
        }
        skipped := skipped + 1;
      }
      return Err(StreamEnded);
    }

    method Send(frames: Frames) returns (result: Result<(), ZmqError>)
      modifies this`server
      ensures result == if old(server).broken then Err(SendFailed) else Ok(())
      ensures server == if old(server).broken then old(server) else old(server).(sent := old(server).sent + [frames])
    {
      if server.broken {
        return Err(SendFailed);
      }
      server := server.(sent := server.sent + [frames]);
      return Ok(());
    }
  }

  /**
   `proxy` between a ROUTER and a DEALER, with or without a capture socket: one turn of its loop for
   each direction. Any error, also one of the capture socket, is returned and ends the proxy.
   */
  class Proxy {
    const frontend: RouterSocket
    const backend: DealerSocket
    var capture: Option<Connection>

    constructor (frontend: RouterSocket, backend: DealerSocket, capture: Option<Connection>)
      ensures this.frontend == frontend && this.backend == backend && this.capture == capture
    {
      this.frontend, this.backend, this.capture := frontend, backend, capture;
    }

    method Capture(frames: Frames) returns (ok: bool)
      modifies this`capture
      ensures ok == CanCapture(old(capture)) && capture == Captured(old(capture), frames)
      ensures ok <==> old(capture).None? || !old(capture).value.broken
      ensures old(capture).Some? && ok ==>
                capture.Some? && capture.value == old(capture).value.(sent := old(capture).value.sent + [frames])
      ensures old(capture).None? || !ok ==> capture == old(capture)
    {
      if capture.None? {
        return true;
      }
      if capture.value.broken {
        return false;
      }
      capture := Some(capture.value.(sent := capture.value.sent + [frames]));
      return true;
    }

    /** The frontend has received; what it received is captured and then passed on. */
    method ForwardRequest() returns (result: Result<(), ZmqError>)
      modifies this, frontend, backend
      ensures backend.ready == old(backend.ready)
      ensures match FirstWhere(old(frontend.ready), IsMessage)
              case None =>
                result == Err(StreamEnded) && backend.server == old(backend.server) && capture == old(capture)
              case Some(n) =>
                var (a, server) := (old(frontend.ready)[n], old(backend.server));
                var frames := [a.peer] + a.item.frames;
                && frontend.peers == old(frontend.peers) - BrokenPeers(old(frontend.ready)[..n])
                && capture == Captured(old(capture), frames)
                && (if !CanCapture(old(capture)) || server.broken then
                      result == Err(SendFailed) && backend.server == server
                    else
                      result == Ok(()) && backend.server == server.(sent := server.sent + [frames]))
    {
      var received := frontend.Recv();
      if received.Err? {
        return Err(received.error);
      }
      var captured := Capture(received.value.frames);
      if !captured {
        return Err(SendFailed);
      }
      result := backend.Send(received.value.frames);
    }

    /** The backend has received; what it received is captured and then sent through the frontend. */
    method ForwardReply(generated: Bytes) returns (result: Result<Bytes, ZmqError>)
      requires ValidIdentity(generated)
      modifies this, frontend, backend
      ensures backend.server == old(backend.server)
      ensures match FirstWhere(old(backend.ready), IsNoControl)
              case None =>
                result == Err(StreamEnded) && capture == old(capture) && frontend.peers == old(frontend.peers)
                && backend.ready == []
              case Some(n) =>
                && backend.ready == old(backend.ready)[n + 1..]
                && match old(backend.ready)[n].item
                   case Broken =>
                     result == Err(StreamError) && capture == old(capture) && frontend.peers == old(frontend.peers)
                   case Message(frames) =>
                     && capture == Captured(old(capture), frames)
                     && if CanCapture(old(capture)) then
                          (result, frontend.peers) == Routed(old(frontend.peers), frames, generated)
                        else
                          result == Err(SendFailed) && frontend.peers == old(frontend.peers)
    {
      var received := backend.Recv();
      if received.Err? {
        return Err(received.error);
      }
      var captured := Capture(received.value);
      if !captured {
        return Err(SendFailed);
      }
      var message := new ZmqMessage(received.value);
      result := frontend.Send(message, generated);
    }
  }

  predicate CanCapture(capture: Option<Connection>) {
    capture.Some? ==> !capture.value.broken
  }

  /** The capture socket, if there is one and it works, gains the message behind what it has. */
  lemma CaptureGains(capture: Option<Connection>, frames: Frames)
    ensures CanCapture(capture) <==> capture.None? || !capture.value.broken
    ensures capture.None? ==> Captured(capture, frames).None?
    ensures capture.Some? ==>
              Captured(capture, frames).Some? &&
              var (before, after) := (capture.value, Captured(capture, frames).value);
              && after.sent == before.sent + (if before.broken then [] else [frames])
              && after.broken == before.broken && after.incoming == before.incoming
  {
  }

  function Captured(capture: Option<Connection>, frames: Frames): Option<Connection> {
    if capture.Some? && !capture.value.broken then Some(capture.value.(sent := capture.value.sent + [frames]))
    else capture
  }

  // ----- Any number of hops -----

  function Reversed(ids: seq<Bytes>): (r: seq<Bytes>)
    ensures |r| == |ids|
  {
    if ids == [] then [] else Reversed(ids[1..]) + [ids[0]]
  }

  /** The frames after the hops: each ROUTER pushes the identity of the peer it received from. */
  function ThroughRouters(ids: seq<Bytes>, frames: Frames): Frames
    decreases |ids|
  {
    if ids == [] then frames else ThroughRouters(ids[1..], [ids[0]] + frames)
  }

  /** The way back, last ROUTER first. Each must pop exactly the identity it pushed. */
  function BackThroughRouters(ids: seq<Bytes>, frames: Frames, generated: Bytes): Result<Frames, ZmqError>
    requires ValidIdentity(generated)
    decreases |ids|
  {
    if ids == [] then Ok(frames)
    else match RouterPops(frames, generated)
      case Err(e) => Err(e)
      case Ok((id, rest)) =>
        if id == ids[|ids| - 1] then BackThroughRouters(ids[..|ids| - 1], rest, generated)
        else Err(NotConnected)
  }

  lemma {:induction false} RoutersStackIdentities(ids: seq<Bytes>, frames: Frames)
    ensures ThroughRouters(ids, frames) == Reversed(ids) + frames
    decreases |ids|
  {
    if ids != [] {
      RoutersStackIdentities(ids[1..], [ids[0]] + frames);
      Associate(Reversed(ids[1..]), [ids[0]], frames);
    }
  }

  lemma {:induction false} ReversedLast(ids: seq<Bytes>)
    requires ids != []
    ensures Reversed(ids) == [ids[|ids| - 1]] + Reversed(ids[..|ids| - 1])
    decreases |ids|
  {
    if |ids| == 1 {
      assert ids[1..] == [] && ids[..0] == [];
    } else {
      ReversedLast(ids[1..]);
      assert ids[1..][..|ids| - 2] == ids[..|ids| - 1][1..];
      Associate([ids[|ids| - 1]], Reversed(ids[1..][..|ids| - 2]), [ids[0]]);
    }
  }

  lemma {:induction false} RoutersUnstackIdentities(ids: seq<Bytes>, frames: Frames, generated: Bytes)
    requires ValidIdentity(generated) && frames != []
    requires forall i :: 0 <= i < |ids| ==> ValidIdentity(ids[i])
    ensures BackThroughRouters(ids, Reversed(ids) + frames, generated) == Ok(frames)
    decreases |ids|
  {
    if ids == [] {
      assert Reversed(ids) + frames == frames;
    } else {
      var last, others := ids[|ids| - 1], ids[..|ids| - 1];
      ReversedLast(ids);
      var all := Reversed(ids) + frames;
      Associate([last], Reversed(others), frames);
      assert all[0] == last && all[1..] == Reversed(others) + frames;
      RoutersUnstackIdentities(others, frames, generated);
    }
  }

  lemma {:induction false} ReversedMembers(ids: seq<Bytes>, id: Bytes)
    ensures id in Reversed(ids) <==> id in ids
    decreases |ids|
  {
    if ids != [] {
      ReversedMembers(ids[1..], id);
      assert ids == [ids[0]] + ids[1..];
    }
  }

  lemma CutBehindStack(stack: Frames, payload: Frames)
    requires [] !in stack
    ensures var m := stack + ReqSent(payload);
            m[..SplitPoint(m)] == stack + [[]] && m[SplitPoint(m)..] == payload
  {
    var m, n := stack + ReqSent(payload), |stack|;
    assert m[..n] == stack && m[n] == [];
    SplitPointIsFirstEmpty(m, n);
    assert m[..n + 1] == stack + [[]];
    assert m[n + 1..] == payload;
  }

  lemma CutInsideStack(stack: Frames, payload: Frames)
    requires [] in stack
    ensures var m := stack + ReqSent(payload);
            |m[SplitPoint(m)..]| > |payload|
  {
    var m := stack + ReqSent(payload);
    var i :| 0 <= i < |stack| && stack[i] == [];
    assert m[i] == [];
    assert [] in m;
    NoEmptyBefore(m, AfterDelimiter(m).value - 1);
  }

  /**
   Outward: REP sees exactly the payload, even one with empty frames in it, and keeps the
   identities and the delimiter, if and only if no identity on the way is empty: then the first
   empty frame it finds is the delimiter of REQ. Only an empty payload over no hop is refused.
   */
  lemma RepSeesPayloadIffNoEmptyIdentity(ids: seq<Bytes>, payload: Frames)
    ensures var m := ThroughRouters(ids, ReqSent(payload));
            && (|m| >= 2 <==> payload != [] || ids != [])
            && (m[SplitPoint(m)..] == payload <==> [] !in ids)
            && ([] !in ids ==> m[..SplitPoint(m)] == Reversed(ids) + [[]])
  {
    RoutersStackIdentities(ids, ReqSent(payload));
    hide SplitPoint, Reversed, ThroughRouters;
    ReversedMembers(ids, []);
    if [] in ids {
      CutInsideStack(Reversed(ids), payload);
    } else {
      CutBehindStack(Reversed(ids), payload);
    }
  }

  /**
   Back: every ROUTER pops the identity that it pushed, whatever their number, and REQ gets exactly
   the reply if and only if the reply is not empty.
   */
  lemma ReplyReturnsToRequester(ids: seq<Bytes>, reply: Frames, generated: Bytes)
    requires forall i :: 0 <= i < |ids| ==> ValidIdentity(ids[i])
    requires ValidIdentity(generated)
    ensures var back := BackThroughRouters(ids, Reversed(ids) + [[]] + reply, generated);
            && back == Ok(ReqSent(reply))
            && (ReqReceived(ReqSent(reply)) == Ok(reply) <==> reply != [])
  {
    Associate(Reversed(ids), [[]], reply);
    RoutersUnstackIdentities(ids, ReqSent(reply), generated);
    assert ReqSent(reply)[1..] == reply;
  }

  // ----- A whole exchange -----

  function LastOf(all: seq<Frames>): Frames
    requires all != []
  {
    all[|all| - 1]
  }

  ghost predicate CanReach(hop: Proxy, id: Bytes)
    reads hop, hop.frontend, hop.backend
  {
    && id in hop.frontend.peers && !hop.frontend.peers[id].broken
    && CanCapture(hop.capture) && FirstWhere(hop.backend.ready, IsNoControl) == None
  }

  /** Nothing but control frames and failing strangers is queued before the request arrives. */
  ghost predicate Quiet(hop: Proxy, id: Bytes)
    reads hop, hop.frontend, hop.backend
  {
    && CanReach(hop, id) && !hop.backend.server.broken
    && id !in BrokenPeers(hop.frontend.ready) && FirstWhere(hop.frontend.ready, IsMessage) == None
  }

  ghost predicate Distinct(hops: seq<Proxy>) {
    forall i, j :: 0 <= i < j < |hops| ==>
                     && hops[i] != hops[j]
                     && hops[i].frontend != hops[j].frontend && hops[i].backend != hops[j].backend
  }

  ghost function Footprint(hops: seq<Proxy>): set<object> {
    (set i | 0 <= i < |hops| :: hops[i] as object)
    + (set i | 0 <= i < |hops| :: hops[i].frontend as object)
    + (set i | 0 <= i < |hops| :: hops[i].backend as object)
  }

  /** One hop outwards: the request arrives behind whatever is queued, and is passed on. */
  method Relay(hop: Proxy, id: Bytes, frames: Frames) returns (next: Frames)
    requires Quiet(hop, id)
    modifies hop, hop.frontend, hop.backend
    ensures next == [id] + frames && CanReach(hop, id) && hop.capture == Captured(old(hop.capture), next)
  {
    var arrival := Arrival(id, Message(frames));
    var queued := hop.frontend.ready;
    StopsAtLast(queued, arrival, IsMessage);
    assert (queued + [arrival])[..|queued|] == queued;
    hop.frontend.ready := queued + [arrival];
    var forwarded := hop.ForwardRequest();
    next := LastOf(hop.backend.server.sent);
  }

  /** One hop back: the reply arrives, and the ROUTER hands the rest to the peer that its front names. */
  method RelayBack(hop: Proxy, id: Bytes, frames: Frames, generated: Bytes) returns (next: Frames)
    requires ValidIdentity(generated) && CanReach(hop, id) && RouterPops(frames, generated).Ok?
    requires RouterPops(frames, generated).value.0 == id
    modifies hop, hop.frontend, hop.backend
    ensures next == RouterPops(frames, generated).value.1 && hop.capture == Captured(old(hop.capture), frames)
    ensures id in hop.frontend.peers && hop.frontend.peers[id].sent != [] && LastOf(hop.frontend.peers[id].sent) == next
  {
    var arrival := Arrival([], Message(frames));
    StopsAtLast(hop.backend.ready, arrival, IsNoControl);
    hop.backend.ready := hop.backend.ready + [arrival];
    var target := hop.ForwardReply(generated);
    next := LastOf(hop.frontend.peers[id].sent);
  }

  /** Through all hops outwards: every ROUTER adds an identity. */
  method RelayAll(hops: seq<Proxy>, ids: seq<Bytes>, request: Frames) returns (frames: Frames)
    requires |hops| == |ids| && Distinct(hops)
    requires forall i :: 0 <= i < |ids| ==> Quiet(hops[i], ids[i])
    modifies Footprint(hops)
    ensures frames == ThroughRouters(ids, request)
    ensures forall i :: 0 <= i < |hops| ==> CanReach(hops[i], ids[i])
  {
    hide Quiet, CanReach;
    frames := request;
    assert ids[0..] == ids;
    for i := 0 to |ids|
      invariant ThroughRouters(ids[i..], frames) == ThroughRouters(ids, request)
      invariant forall j :: 0 <= j < i ==> CanReach(hops[j], ids[j])
      invariant forall j :: i <= j < |hops| ==> Quiet(hops[j], ids[j])
    {
      assert ids[i..][1..] == ids[i + 1..];
      frames := Relay(hops[i], ids[i], frames);
    }
  }

  /** The way out: after all hops REP cuts the identities off. */
  method Outward(hops: seq<Proxy>, ids: seq<Bytes>, lastPeer: Bytes, payload: Frames, rep: RepSocket)
    returns (seen: Frames)
    requires |hops| == |ids| && Distinct(hops)
    requires forall i :: 0 <= i < |ids| ==> ValidIdentity(ids[i]) && Quiet(hops[i], ids[i])
    requires rep.Valid() && FirstWhere(rep.ready, IsNoControl) == None && (payload != [] || ids != [])
    modifies Footprint(hops), rep
    ensures seen == payload && rep.Valid() && rep.peers == old(rep.peers)
    ensures rep.currentRequest == Some(lastPeer) && rep.envelope == Some(Reversed(ids) + [[]])
    ensures forall i :: 0 <= i < |hops| ==> CanReach(hops[i], ids[i])
  {
    hide SplitPoint, Reversed, Quiet, CanReach, Distinct, ThroughRouters, FirstWhere;
    var frames := RelayAll(hops, ids, ReqSent(payload));
    RepSeesPayloadIffNoEmptyIdentity(ids, payload);
    StopsAtLast(rep.ready, Arrival(lastPeer, Message(frames)), IsNoControl);
    rep.ready := rep.ready + [Arrival(lastPeer, Message(frames))];
    var request := rep.Recv();
    seen := request.value.frames;
  }

  /** What the i-th ROUTER handed to the peer its request came from: the reply and the identities before. */
  ghost predicate HandedDown(hop: Proxy, ids: seq<Bytes>, i: nat, reply: Frames)
    requires i < |ids|
    reads hop.frontend
  {
    && ids[i] in hop.frontend.peers && hop.frontend.peers[ids[i]].sent != []
    && LastOf(hop.frontend.peers[ids[i]].sent) == Reversed(ids[..i]) + ReqSent(reply)
  }

  lemma RouterPopsItsOwn(ids: seq<Bytes>, i: nat, reply: Frames, generated: Bytes)
    requires i < |ids| && ValidIdentity(ids[i]) && ValidIdentity(generated)
    ensures RouterPops(Reversed(ids[..i + 1]) + ReqSent(reply), generated)
         == Ok((ids[i], Reversed(ids[..i]) + ReqSent(reply)))
  {
    ReversedLast(ids[..i + 1]);
    assert ids[..i + 1][..i] == ids[..i];
    var all := Reversed(ids[..i + 1]) + ReqSent(reply);
    Associate([ids[i]], Reversed(ids[..i]), ReqSent(reply));
    assert all[0] == ids[i] && all[1..] == Reversed(ids[..i]) + ReqSent(reply);
  }

  /** The way back, last hop first: every ROUTER pops the identity and hands the rest to that peer. */
  method Homeward(hops: seq<Proxy>, ids: seq<Bytes>, reply: Frames, answer: Frames, generated: Bytes)
    returns (frames: Frames)
    requires |hops| == |ids| && Distinct(hops) && ValidIdentity(generated)
    requires forall i :: 0 <= i < |ids| ==> ValidIdentity(ids[i]) && CanReach(hops[i], ids[i])
    requires answer == Reversed(ids) + ReqSent(reply)
    modifies Footprint(hops)
    ensures frames == ReqSent(reply)
    ensures forall i :: 0 <= i < |ids| ==> HandedDown(hops[i], ids, i, reply)
  {
    hide Reversed, ReqSent, RouterPops, CanReach;
    frames := answer;
    var hop := |ids|;
    assert ids[..hop] == ids;
    while hop > 0
      invariant 0 <= hop <= |ids|
      invariant frames == Reversed(ids[..hop]) + ReqSent(reply)
      invariant forall j :: 0 <= j < hop ==> CanReach(hops[j], ids[j])
      invariant forall j :: hop <= j < |ids| ==> HandedDown(hops[j], ids, j, reply)
    {
      hop := hop - 1;
      RouterPopsItsOwn(ids, hop, reply, generated);
      frames := RelayBack(hops[hop], ids[hop], frames, generated);
    }
    assert Reversed(ids[..0]) == [];
    assert [] + ReqSent(reply) == ReqSent(reply);
  }

  lemma BehindEnvelope(ids: seq<Bytes>, reply: Frames)
    ensures Reversed(ids) + [[]] + reply == Reversed(ids) + ReqSent(reply)
  {
    Associate(Reversed(ids), [[]], reply);
  }

  /** The request goes through all hops to REP, whose answer comes back through them. */
  method Served(hops: seq<Proxy>, ids: seq<Bytes>, lastPeer: Bytes, payload: Frames, reply: Frames, generated: Bytes,
                rep: RepSocket)
    returns (seen: Frames, frames: Frames)
    requires |hops| == |ids| && Distinct(hops) && ValidIdentity(generated)
    requires forall i :: 0 <= i < |ids| ==> ValidIdentity(ids[i]) && Quiet(hops[i], ids[i])
    requires rep.Valid() && lastPeer in rep.peers && !rep.peers[lastPeer].broken
    requires FirstWhere(rep.ready, IsNoControl) == None
    requires payload != [] || ids != []
    modifies Footprint(hops), rep
    ensures seen == payload && frames == ReqSent(reply) && rep.currentRequest == None
    ensures forall i :: 0 <= i < |ids| ==> HandedDown(hops[i], ids, i, reply)
  {
    hide SplitPoint, Reversed, FirstWhere, BrokenPeers, ReqSent, CanReach, Quiet, Distinct, HandedDown;
    seen := Outward(hops, ids, lastPeer, payload, rep);
    var answer := new ZmqMessage(reply);
    var sent := rep.Send(answer);
    frames := LastOf(rep.peers[lastPeer].sent);
    assert frames == Reversed(ids) + ReqSent(reply) by {
      BehindEnvelope(ids, reply);
    }
    frames := Homeward(hops, ids, reply, frames, generated);
  }

  /**
   A whole exchange through any number of proxies, with or without capture: the REP user sees the
   payload, every ROUTER hands the reply to the peer that its request came from, and the REQ user
   gets the reply as it was given; only an empty reply is refused by REQ.
   */
  method Exchange(req: ReqSocket, hops: seq<Proxy>, ids: seq<Bytes>, lastPeer: Bytes, payload: Frames, reply: Frames,
                  generated: Bytes, rep: RepSocket)
    returns (seen: Frames, returned: Result<Frames, ZmqError>)
    requires |hops| == |ids| && Distinct(hops) && ValidIdentity(generated)
    requires forall i :: 0 <= i < |ids| ==> ValidIdentity(ids[i]) && Quiet(hops[i], ids[i])
    requires rep.Valid() && lastPeer in rep.peers && !rep.peers[lastPeer].broken
    requires FirstWhere(rep.ready, IsNoControl) == None
    requires req.currentRequest.None? && FirstConnected(req.roundRobin, req.peers).Some?
    requires var p := req.peers[req.roundRobin[FirstConnected(req.roundRobin, req.peers).value]];
             !p.broken && p.incoming == []
    requires payload != [] || ids != []
    modifies Footprint(hops), req, rep
    ensures seen == payload
    ensures returned == if reply != [] then Ok(reply) else Err(TooFewFrames)
    ensures req.currentRequest == None && rep.currentRequest == None
    ensures forall i :: 0 <= i < |ids| ==> HandedDown(hops[i], ids, i, reply)
  {
    hide SplitPoint, Reversed, FirstConnected, FirstWhere, BrokenPeers, Distinct, Quiet, HandedDown;
    var message := new ZmqMessage(payload);
    var server := req.Send(message);
    var before := req.peers[server.value];
    assert LastOf(before.sent) == ReqSent(payload);
    var frames;
    seen, frames := Served(hops, ids, lastPeer, payload, reply, generated, rep);
    req.peers := req.peers[server.value := before.(incoming := [Message(frames)])];
    returned := req.Recv();
    assert ReqSent(reply)[1..] == reply;
  }
}
