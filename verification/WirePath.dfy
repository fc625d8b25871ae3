/**
 The whole wire path: encoder, batching writer, transport, adaptive reader, incremental decoder.
 Whatever the batches, the short reads and the Pending results, what is sent is what is received.
 */
module WirePath {
  import opened Wrappers
  import opened Sequences
  import opened Bytes
  import opened Command
  import opened Framing
  import opened Codec
  import opened ReadChunk
  import opened FramedRead
  import opened WriteQueue

  lemma AfterTwice(first: seq<Item>, second: seq<Item>, r: Drained)
    ensures After(first, After(second, r)) == After(first + second, r)
  {
    Associate(first, second, r.items);
  }

  /**
   Polls until the connection ends or fails, as the socket tasks do; a Pending poll is retried. The
   first read that fails ends it, with the items that were complete before.
   */
  method ReceiveAll(reader: ZmqFramedRead) returns (items: seq<Item>, end: Polled)
    requires reader.Valid()
    modifies reader, reader.inner, reader.codec, reader.buffer
    ensures !end.Yielded? && !end.NotYet?
    ensures end.Ended? || end.CutShort? ==>
              && old(reader.Future()).items == items && old(reader.Future()).end.Waiting?
              && (end.Ended? <==> old(reader.Future()).end.rest == [])
    ensures end.DecodeFailed? ==> old(reader.Future()) == Drained(items, Broken(end.error))
    ensures end.TransportFailed? ==> reader.Valid() && old(reader.Future()) == After(items, reader.Future())
    ensures end.TransportFailed? <==> LastFailed(old(reader.inner.script), reader.inner.script)
    ensures !end.TransportFailed? ==> NoneFailed(old(reader.inner.script), reader.inner.script)
    ensures NeverFails(old(reader.inner.script)) ==> !end.TransportFailed?
  {
    hide Drain, NeverFails, NoneFailed, LastFailed, AllRead, ThenPending, ThenFailure, Decode;
    NoPollYet(reader.inner.script);
    items := [];
    assert reader.Future() == After([], reader.Future());
    while true
      invariant reader.Valid()
      invariant old(reader.Future()) == After(items, reader.Future())
      invariant NoneFailed(old(reader.inner.script), reader.inner.script)
      invariant NeverFails(old(reader.inner.script)) ==> NeverFails(reader.inner.script)
      decreases |reader.Future().items|, |reader.inner.script|
    {
      ghost var script := reader.inner.script;
      end := reader.PollNext();
      OneMorePoll(old(reader.inner.script), script, reader.inner.script);
      FailedOrNot(old(reader.inner.script), reader.inner.script);
      match end {
        case Yielded(item) =>
          AfterTwice(items, [item], reader.Future());
          items := items + [item];
        case NotYet =>
        case _ => return;
      }
    }
  }

  /** What a fresh reader makes of a connection that carries a greeting and the given items. */
  lemma ConnectionDecodes(greeting: Greeting, sent: seq<Outgoing>, maxChunk: nat)
    requires 0 < maxChunk <= ISIZE_MAX / 2
    requires forall i :: 0 <= i < |sent| ==> Sendable(sent[i], maxChunk)
    ensures var r := Drain(Initial(maxChunk), EncodeGreeting(greeting) + EncodeAll(sent));
            && r.items == [GreetingItem(greeting)] + ArriveAll(sent)
            && r.end.Waiting? && r.end.rest == [] && r.end.decoder.buffered.None?
  {
    hide Drain, ParseStream, EncodeGreeting, EncodeAll, ParseGreeting;
    var g, body := EncodeGreeting(greeting), EncodeAll(sent);
    var bytes := g + body;
    GreetingStarts(greeting);
    TakeDrop(g, body);
    ParseInvertsEncode(sent, [], maxChunk);
    assert body + [] == body;
    EmptyStream(maxChunk);
    DrainIsParse(Initial(maxChunk), bytes);
    var r := Drain(Initial(maxChunk), bytes);
    assert Meaning(Initial(maxChunk), bytes) == ParseConnection(bytes, maxChunk);
    assert ParseConnection(bytes, maxChunk)
        == Parse([GreetingItem(greeting)] + ArriveAll(sent), Leftover([], []));
    assert EndOf(r.end) == Leftover([], []);
  }

  lemma GreetingStarts(greeting: Greeting)
    ensures |EncodeGreeting(greeting)| == GREETING_SIZE && EncodeGreeting(greeting)[0] == 0xff
    ensures ParseGreeting(EncodeGreeting(greeting)) == Ok(greeting)
  {
    GreetingRoundTrip(greeting);
  }

  lemma EmptyStream(maxChunk: nat)
    ensures ParseStream([], [], maxChunk) == Parse([], Leftover([], []))
  {
  }

  /**
   The wire path is the identity: for every sequence of sendable items, every arrival pattern at
   the writer, every way the transport takes and returns bytes, and every read-buffer option, the
   reader yields the greeting and then exactly those items in order, and then a clean end.
   */
  method Transfer(greeting: Greeting, arrivals: seq<seq<Outgoing>>, writes: seq<WriteEvent>,
                  options: Options, readEvents: seq<ReadEvent>)
    returns (received: seq<Item>, end: Polled)
    requires ValidOptions(options) && NoFailure(writes) && NeverFails(readEvents)
    requires forall i :: 0 <= i < |Flatten(arrivals)| ==> Sendable(Flatten(arrivals)[i], options.max)
    ensures received == [GreetingItem(greeting)] + ArriveAll(Flatten(arrivals))
    ensures end.Ended?
  {
    hide NoFailure, WriteOutcome, NeverFails, LastFailed, NoneFailed, Drain, Sendable, EncodeAll, Encode, Flatten;
    var sent := Flatten(arrivals);
    SendableIsNonEmpty(sent, options.max);
    var sink := new FramedSink(writes);
    var ok := sink.Feed(OutGreeting(greeting));
    WithoutFailure(writes, sink.script, ok);
    ghost var script := sink.script;
    assert sink.Encoded() == [] + [] + Encode(OutGreeting(greeting));
    ok := sink.Flush();
    WithoutFailure(script, sink.script, ok);
    script := sink.script;
    assert sink.written == sink.Encoded();
    var receiver := new Receiver([], arrivals);
    assert receiver.ToCome() == sent;
    var fed, batches;
    ok, fed, batches := WriteMessageQueue(receiver, sink);
    WithoutFailure(script, sink.script, ok);
    assert sink.written == sink.Encoded();
    GreetingFirst(greeting, sink.written, sent);

    var inner := new Transport(sink.written, readEvents);
    var reader := new ZmqFramedRead(inner, options);
    assert reader.buffer.data + inner.input == sink.written;
    ConnectionDecodes(greeting, sent, options.max);
    received, end := ReceiveAll(reader);
    assert !end.DecodeFailed?;
  }

  lemma GreetingFirst(greeting: Greeting, written: Bytes, sent: seq<Outgoing>)
    requires written == [] + [] + Encode(OutGreeting(greeting)) + EncodeAll(sent)
    ensures written == EncodeGreeting(greeting) + EncodeAll(sent)
  {
    assert [] + [] + Encode(OutGreeting(greeting)) == EncodeGreeting(greeting);
  }

  lemma SendableIsNonEmpty(sent: seq<Outgoing>, maxChunk: nat)
    requires forall i :: 0 <= i < |sent| ==> Sendable(sent[i], maxChunk)
    ensures NonEmptyMessages(sent)
  {
  }

  // ----- The read-buffer options do not show -----

  /**
   The maximum chunk size reaches the wire only through the length check: a stream that passes it
   with a larger maximum parses the same with a smaller one.
   */
  lemma {:induction false} OptionsDoNotShow(s: Bytes, parts: seq<Bytes>, smaller: nat, larger: nat)
    requires smaller <= larger
    requires ParseStream(s, parts, larger).end != Failed(FrameLengthExceedsCapacity)
    ensures ParseStream(s, parts, smaller) == ParseStream(s, parts, larger)
    decreases |s|
  {
    hide ParseCommand;
    var n := NextFrame(s, parts, larger);
    assert ParseFrame(s, larger) == ParseFrame(s, smaller);
    if n.Take? {
      OptionsDoNotShow(n.rest, n.parts, smaller, larger);
    }
  }

  // ----- What the end of the stream does and does not report -----

  /** How many bytes of the unfinished frame the decoder has already taken: flags, or flags and length. */
  ghost predicate EndsAfterHeaderField(unfinished: Bytes) {
    || |unfinished| <= 1
    || |unfinished| == 1 + LengthSize(HeaderOf(unfinished[0]))
  }

  ghost predicate EndsCleanly(end: End) {
    match end
    case LeftoverGreeting(rest) => rest == []
    case Leftover(_, unfinished) => EndsAfterHeaderField(unfinished)
    case Failed(_) => false
  }

  /**
   The reader reports a clean end whenever its own buffer is empty. That is so exactly when the
   connection decodes without error and its bytes stop before the greeting, at a frame boundary,
   right after a flags byte, or right after a complete length field: the last two, and the middle
   of a multipart message, are truncations that go unreported.
   */
  lemma CleanEndIff(s: Bytes, maxChunk: nat)
    requires 0 < maxChunk <= ISIZE_MAX / 2
    ensures var r := Drain(Initial(maxChunk), s);
            r.end.Waiting? && r.end.rest == [] <==> EndsCleanly(ParseConnection(s, maxChunk).end)
  {
    hide Drain, ParseConnection, BigEndian;
    DrainIsParse(Initial(maxChunk), s);
    var r := Drain(Initial(maxChunk), s);
    assert Meaning(Initial(maxChunk), s) == ParseConnection(s, maxChunk);
    if r.end.Broken? {
      return;
    }
    var d, u := r.end.decoder, Taken(r.end.decoder) + r.end.rest;
    assert ParseConnection(s, maxChunk).end == EndOf(r.end);
    match d.state
    case AwaitGreeting =>
    case AwaitHeader =>
      assert u == r.end.rest;
    case AwaitLength(h) =>
      FlagsRoundTrip(h);
      assert u[0] == FlagsOf(h);
    case AwaitBody(h) =>
      FlagsRoundTrip(h);
      assert u[0] == FlagsOf(h);
  }

  /** A connection cut after the flags byte and the length of a five-byte frame ends cleanly. */
  lemma TruncatedBodyEndsCleanly(greeting: Greeting, maxChunk: nat)
    requires 0 < maxChunk <= ISIZE_MAX / 2
    ensures var s := EncodeGreeting(greeting) + [0, 5];
            && ParseConnection(s, maxChunk) == Parse([GreetingItem(greeting)], Leftover([], [0, 5]))
            && Drain(Initial(maxChunk), s).end.Waiting? && Drain(Initial(maxChunk), s).end.rest == []
  {
    hide EncodeGreeting, ParseGreeting, Drain;
    var g := EncodeGreeting(greeting);
    var s := g + [0, 5];
    GreetingStarts(greeting);
    TakeDrop(g, [0, 5]);
    assert ParseFrame([0, 5], maxChunk) == Truncated;
    CleanEndIff(s, maxChunk);
  }
}
