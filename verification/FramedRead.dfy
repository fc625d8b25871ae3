/**
 `ZmqFramedRead`: the reader that feeds the decoder from a transport through short reads, Pending
 results and errors, with an adaptive request size.
 */
module FramedRead {
  import opened Bytes
  import opened Command
  import opened Framing
  import opened Codec
  import opened ReadChunk

  /** What the environment does to one read. Pending and failing reads may scribble on the buffer. */
  datatype ReadEvent =
    | UpTo(limit: nat)
    | NotReady(scribble: byte)
    | Fails(scribble: byte)

  datatype ReadPoll =
    | ReadReady(count: nat)
    | ReadPending
    | ReadError

  /** The script has gone on from `before` to `after`. */
  ghost predicate GoesOn(before: seq<ReadEvent>, after: seq<ReadEvent>) {
    |after| <= |before| && after == before[|before| - |after|..]
  }

  /** All reads since `before` returned bytes. */
  ghost predicate AllRead(before: seq<ReadEvent>, after: seq<ReadEvent>) {
    GoesOn(before, after) && forall i :: 0 <= i < |before| - |after| ==> before[i].UpTo?
  }

  /** No read since `before` failed. */
  ghost predicate NoneFailed(before: seq<ReadEvent>, after: seq<ReadEvent>) {
    GoesOn(before, after) && forall i :: 0 <= i < |before| - |after| ==> !before[i].Fails?
  }

  /** Only the last of them failed. */
  ghost predicate LastFailed(before: seq<ReadEvent>, after: seq<ReadEvent>) {
    && GoesOn(before, after) && |after| < |before|
    && (forall i :: 0 <= i < |before| - |after| - 1 ==> !before[i].Fails?)
    && before[|before| - |after| - 1].Fails?
  }

  /** What one more poll adds to that. */
  lemma OneMorePoll(before: seq<ReadEvent>, now: seq<ReadEvent>, after: seq<ReadEvent>)
    requires NoneFailed(before, now)
    ensures AllRead(now, after) || ThenPending(now, after) ==> NoneFailed(before, after)
    ensures ThenFailure(now, after) ==> LastFailed(before, after)
    ensures ThenPending(now, after) ==> |after| < |now|
    ensures AllRead(now, after) ==> |after| <= |now|
  {
    assert forall i :: 0 <= i < |now| ==> now[i] == before[|before| - |now| + i];
  }

  lemma NoPollYet(script: seq<ReadEvent>)
    ensures NoneFailed(script, script)
  {
  }

  lemma FailedOrNot(before: seq<ReadEvent>, after: seq<ReadEvent>)
    ensures NoneFailed(before, after) ==> !LastFailed(before, after)
    ensures NeverFails(before) ==> !LastFailed(before, after)
  {
  }

  /** All but the last of them did, and the last one was pending. */
  ghost predicate ThenPending(before: seq<ReadEvent>, after: seq<ReadEvent>) {
    && GoesOn(before, after) && |after| < |before|
    && (forall i :: 0 <= i < |before| - |after| - 1 ==> before[i].UpTo?)
    && before[|before| - |after| - 1].NotReady?
  }

  /** All but the last of them did, and the last one failed. */
  ghost predicate ThenFailure(before: seq<ReadEvent>, after: seq<ReadEvent>) {
    && GoesOn(before, after) && |after| < |before|
    && (forall i :: 0 <= i < |before| - |after| - 1 ==> before[i].UpTo?)
    && before[|before| - |after| - 1].Fails?
  }

  lemma NothingRead(script: seq<ReadEvent>)
    ensures AllRead(script, script)
  {
  }

  lemma OneOutcome(before: seq<ReadEvent>, after: seq<ReadEvent>)
    ensures AllRead(before, after) ==> !ThenPending(before, after) && !ThenFailure(before, after)
    ensures ThenPending(before, after) ==> !ThenFailure(before, after)
  {
  }

  /** One more read. */
  lemma NextRead(before: seq<ReadEvent>, now: seq<ReadEvent>, after: seq<ReadEvent>)
    requires AllRead(before, now) && after == if now == [] then [] else now[1..]
    ensures now == [] || now[0].UpTo? ==> AllRead(before, after)
    ensures now != [] && now[0].NotReady? ==> ThenPending(before, after)
    ensures now != [] && now[0].Fails? ==> ThenFailure(before, after)
  {
    if now != [] {
      assert now[0] == before[|before| - |now|];
    }
  }

  /** The byte source: the bytes still to be delivered and the script of how reads will go. */
  class Transport {
    var input: Bytes
    var script: seq<ReadEvent>

    constructor (input: Bytes, script: seq<ReadEvent>)
      ensures this.input == input && this.script == script
    {
      this.input := input;
      this.script := script;
    }

    /** `poll_read` into `buffer[start..]`. Zero bytes mean the end of the stream. */
    method PollRead(buffer: BytesMut, start: nat) returns (poll: ReadPoll)
      requires start < |buffer.data|
      modifies this, buffer
      ensures |buffer.data| == old(|buffer.data|) && buffer.data[..start] == old(buffer.data[..start])
      ensures poll.ReadReady? ==>
                && poll.count <= |buffer.data| - start && poll.count <= |old(input)|
                && (poll.count == 0 <==> old(input) == [])
                && buffer.data[start..start + poll.count] == old(input)[..poll.count]
                && input == old(input)[poll.count..]
      ensures !poll.ReadReady? ==> input == old(input)
      ensures script == if old(script) == [] then [] else old(script)[1..]
      ensures poll.ReadPending? <==> old(script) != [] && old(script)[0].NotReady?
      ensures poll.ReadError? <==> old(script) != [] && old(script)[0].Fails?
      ensures poll.ReadReady? ==>
                poll.count == Min(if old(script) == [] then |buffer.data| - start
                                  else Min(|buffer.data| - start, Max(old(script)[0].limit, 1)), |old(input)|)
      ensures !poll.ReadReady? ==>
                forall i :: start <= i < |buffer.data| ==> buffer.data[i] == old(script)[0].scribble
      ensures NeverFails(old(script)) ==> !poll.ReadError? && NeverFails(script)
    {
      var limit := |buffer.data| - start;
      if script != [] {
        var event := script[0];
        script := script[1..];
        match event {
          case UpTo(n) =>
            limit := Min(limit, Max(n, 1));
          case NotReady(scribble) =>
            buffer.data := buffer.data[..start] + seq(limit, _ => scribble);
            return ReadPending;
          case Fails(scribble) =>
            buffer.data := buffer.data[..start] + seq(limit, _ => scribble);
            return ReadError;
        }
      }
      var count := Min(limit, |input|);
      buffer.data := buffer.data[..start] + input[..count] + buffer.data[start + count..];
      input := input[count..];
      return ReadReady(count);
    }
  }

  /** The script holds no read error. */
  ghost predicate NeverFails(script: seq<ReadEvent>) {
    forall i :: 0 <= i < |script| ==> !script[i].Fails?
  }

  /** Results of `poll_next`: `CutShort` is `UnexpectedEof`, `TransportFailed` any other I/O error. */
  datatype Polled =
    | Yielded(item: Item)
    | NotYet
    | Ended
    | DecodeFailed(error: CodecError)
    | CutShort
    | TransportFailed

  class ZmqFramedRead {
    const inner: Transport
    const codec: ZmqCodec
    const buffer: BytesMut
    const options: Options
    var readChunkSize: nat
    var shortReads: nat

    ghost predicate Valid()
      reads this, codec
    {
      && ValidOptions(options) && Within(ChunkState(), options)
      && codec.Valid() && codec.maxReadChunkSize == options.max
    }

    function ChunkState(): Chunk
      reads this
    {
      Chunk(readChunkSize, shortReads)
    }

    /** Everything the rest of the connection will yield, however it is read. */
    ghost function Future(): Drained
      requires Valid()
      reads this, inner, codec, buffer
    {
      Drain(codec.View(), buffer.data + inner.input)
    }

    constructor (inner: Transport, options: Options)
      requires ValidOptions(options)
      ensures Valid() && this.inner == inner && this.options == options
      ensures fresh(codec) && fresh(buffer)
      ensures codec.View() == Initial(options.max) && buffer.data == []
      ensures ChunkState() == Chunk(options.initial, 0)
    {
      this.inner := inner;
      this.options := options;
      this.codec := new ZmqCodec(options.max);
      this.buffer := new BytesMut();
      this.readChunkSize := options.initial;
      this.shortReads := 0;
    }

    /** The bookkeeping after a read of `count` bytes. */
    method Adapt(readSize: nat, bytesRead: nat)
      requires Valid() && readChunkSize <= readSize <= options.max && bytesRead <= readSize
      modifies this
      ensures ChunkState() == AfterRead(old(ChunkState()), options, readSize, bytesRead)
      ensures Within(ChunkState(), options)
    {
      AdaptationDoesNotOverflow(ChunkState(), options, readSize, bytesRead);
      if bytesRead >= readSize && readChunkSize < options.max {
        readChunkSize := Min(readChunkSize * 2, options.max);
      }
      if bytesRead > 0 && bytesRead < readChunkSize / 2 {
        shortReads := shortReads + 1;
        if shortReads == options.shortReads {
          readChunkSize := Min(Max(NextPowerOfTwo(bytesRead) * 2, options.initial * 2), readChunkSize);
          shortReads := 0;
        }
      } else if bytesRead > 0 {
        shortReads := 0;
      }
    }

    /**
     Grows the buffer, reads, and trims it back. The decoder asked for more than the buffer holds,
     and that bounds the size prepared here.
     */
    method PollReadIntoBuffer(minReadSize: nat) returns (poll: ReadPoll)
      requires Valid()
      requires |buffer.data| < codec.waitingFor && minReadSize == codec.Needed(|buffer.data|)
      modifies this, inner, buffer
      ensures Valid() && codec.View() == old(codec.View())
      ensures poll.ReadReady? ==>
                && poll.count <= |old(inner.input)| && (poll.count == 0 <==> old(inner.input) == [])
                && buffer.data == old(buffer.data) + old(inner.input)[..poll.count]
                && inner.input == old(inner.input)[poll.count..]
                && ChunkState() == AfterRead(old(ChunkState()), options,
                                             RequestSize(old(ChunkState()), options, minReadSize), poll.count)
      ensures !poll.ReadReady? ==>
                && buffer.data == old(buffer.data) && inner.input == old(inner.input)
                && ChunkState() == old(ChunkState())
      ensures inner.script == if old(inner.script) == [] then [] else old(inner.script)[1..]
      ensures poll.ReadPending? <==> old(inner.script) != [] && old(inner.script)[0].NotReady?
      ensures poll.ReadError? <==> old(inner.script) != [] && old(inner.script)[0].Fails?
      ensures NeverFails(old(inner.script)) ==> !poll.ReadError? && NeverFails(inner.script)
    {
      var start := |buffer.data|;
      ghost var before := buffer.data;
      var readSize := Min(Max(readChunkSize, minReadSize), options.max);
      buffer.Resize(start + readSize);
      assert buffer.data[..start] == before;
      poll := inner.PollRead(buffer, start);
      assert buffer.data[..start] == before;
      match poll {
        case ReadReady(bytesRead) =>
          assert buffer.data[..start + bytesRead] == before + old(inner.input)[..bytesRead];
          buffer.Truncate(start + bytesRead);
          Adapt(readSize, bytesRead);
        case _ =>
          buffer.Truncate(start);
      }
    }

    /** One call of the decoder, against what the rest of the connection decodes to. */
    method DecodeNow() returns (decoded: Decoded)
      requires Valid()
      modifies codec, buffer
      ensures Valid() && decoded == Decode(old(codec.View()), old(buffer.data)).result
      ensures decoded.Got? ==> old(Future()) == After([decoded.item], Future())
      ensures decoded.Bad? ==> old(Future()) == Drained([], Broken(decoded.error))
      ensures decoded.NeedMore? ==> Future() == old(Future()) && |buffer.data| < codec.waitingFor
    {
      hide Decode, Drain;
      DecodeThenDrain(codec.View(), buffer.data, inner.input);
      decoded := codec.DecodeNext(buffer);
    }

    /**
     `poll_next`. Each outcome is stated against what the whole rest of the connection decodes to,
     so neither the request sizes nor the way the transport cuts the bytes can show. An item that is
     already buffered is yielded without a read. The call is pending or fails exactly if its last
     read does, and then the buffer holds less than the decoder waits for.
     */
    method PollNext() returns (poll: Polled)
      requires Valid()
      modifies this, inner, codec, buffer
      ensures Valid()
      ensures poll.Yielded? ==> old(Future()) == After([poll.item], Future())
      ensures poll.NotYet? || poll.TransportFailed? ==> Future() == old(Future()) && |buffer.data| < codec.waitingFor
      ensures Decode(old(codec.View()), old(buffer.data)).result.Got? ==>
                poll.Yielded? && inner.input == old(inner.input) && inner.script == old(inner.script)
      ensures poll.Ended? ==>
                inner.input == [] && old(Future()).items == []
                && old(Future()).end.Waiting? && old(Future()).end.rest == []
      ensures poll.CutShort? ==>
                inner.input == [] && old(Future()).items == []
                && old(Future()).end.Waiting? && old(Future()).end.rest != []
      ensures poll.DecodeFailed? ==>
                old(Future()) == Drained([], Broken(poll.error))
      ensures poll.NotYet? <==> ThenPending(old(inner.script), inner.script)
      ensures poll.TransportFailed? <==> ThenFailure(old(inner.script), inner.script)
      ensures !poll.NotYet? && !poll.TransportFailed? ==> AllRead(old(inner.script), inner.script)
      ensures NeverFails(old(inner.script)) ==> !poll.TransportFailed? && NeverFails(inner.script)
    {
      hide AllRead, ThenPending, ThenFailure, NeverFails, Decode, Drain;
      NothingRead(inner.script);
      OneOutcome(inner.script, inner.script);
      var decoded := DecodeNow();
      match decoded {
        case Got(item) => return Yielded(item);
        case Bad(e) => return DecodeFailed(e);
        case NeedMore =>
      }

      while true
        invariant Valid() && |buffer.data| < codec.waitingFor
        invariant Future() == old(Future())
        invariant AllRead(old(inner.script), inner.script)
        invariant NeverFails(old(inner.script)) ==> NeverFails(inner.script)
        decreases |inner.input|
      {
        var minReadSize := codec.Needed(|buffer.data|);
        ghost var bytes, input, script := buffer.data, inner.input, inner.script;
        var read := PollReadIntoBuffer(minReadSize);
        NextRead(old(inner.script), script, inner.script);
        OneOutcome(old(inner.script), inner.script);
        match read {
          case ReadPending => return NotYet;
          case ReadError => return TransportFailed;
          case ReadReady(_) =>
        }
        var n := read.count;
        var ended := n == 0;
        assert bytes + input == buffer.data + inner.input;
        decoded := DecodeNow();
        match decoded {
          case Got(item) => return Yielded(item);
          case Bad(e) => return DecodeFailed(e);
          case NeedMore =>
            if ended {
              poll := AtEnd();
              return;
            }
        }
      }
    }

    /** The end of the stream, when the decoder has just asked for more bytes. */
    method AtEnd() returns (poll: Polled)
      requires Valid() && inner.input == [] && |buffer.data| < codec.waitingFor
      modifies codec, buffer
      ensures Valid()
      ensures Future() == old(Future()) && Future() == Drained([], Waiting(old(codec.View()), old(buffer.data)))
      ensures poll == if old(buffer.data) == [] then Ended else CutShort
    {
      assert buffer.data + inner.input == buffer.data;
      DrainStep(codec.View(), buffer.data);
      if |buffer.data| == 0 {
        return Ended;
      }
      // The decoder's last chance asks for more bytes again and leaves the buffer as it is.
      var last := codec.DecodeNext(buffer);
      return CutShort;
    }
  }
}
