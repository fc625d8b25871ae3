/**
 `write_message_queue`: the task that drains a socket's outgoing queue into the framed sink,
 feeding a batch before each flush.
 */
module WriteQueue {
  import opened Wrappers
  import opened Sequences
  import opened Bytes
  import opened Framing
  import opened Codec
  import opened ReadChunk

  const WRITE_BATCH_LIMIT: nat := 128

  /**
   The receiving end of the queue. Senders act before each receive: `arrivals` lists what they
   enqueue at each such point, and the channel closes when the list is used up.
   */
  class Receiver {
    var queued: seq<Outgoing>
    var arrivals: seq<seq<Outgoing>>

    ghost function ToCome(): seq<Outgoing>
      reads this
    {
      queued + Flatten(arrivals)
    }

    constructor (queued: seq<Outgoing>, arrivals: seq<seq<Outgoing>>)
      ensures this.queued == queued && this.arrivals == arrivals
    {
      this.queued := queued;
      this.arrivals := arrivals;
    }

    method Arrive()
      requires arrivals != []
      modifies this
      ensures ToCome() == old(ToCome()) && |arrivals| == |old(arrivals)| - 1
      ensures old(Flatten(arrivals)) == [] ==> queued == old(queued) && Flatten(arrivals) == []
    {
      Associate(queued, arrivals[0], Flatten(arrivals[1..]));
      queued := queued + arrivals[0];
      arrivals := arrivals[1..];
    }

    /** `next().await`: waits for a message, or for the end of the queue. */
    method Next() returns (message: Option<Outgoing>)
      modifies this
      ensures message.Some? ==> old(ToCome()) == [message.value] + ToCome()
      ensures message.None? ==> old(ToCome()) == [] && ToCome() == []
      ensures old(Flatten(arrivals)) == [] ==> Flatten(arrivals) == []
    {
      while queued == [] && arrivals != []
        invariant ToCome() == old(ToCome())
        invariant old(Flatten(arrivals)) == [] ==> Flatten(arrivals) == []
        decreases |arrivals|
      {
        Arrive();
      }
      if queued == [] {
        return None;
      }
      message := Some(queued[0]);
      queued := queued[1..];
    }

    /** `try_recv`: takes what is there now. */
    method TryRecv() returns (message: Option<Outgoing>)
      modifies this
      ensures message.Some? ==> old(ToCome()) == [message.value] + ToCome()
      ensures message.None? ==> ToCome() == old(ToCome())
      ensures old(Flatten(arrivals)) == [] ==>
                Flatten(arrivals) == [] && (message.None? ==> ToCome() == [])
    {
      if arrivals != [] {
        Arrive();
      }
      if queued == [] {
        return None;
      }
      message := Some(queued[0]);
      queued := queued[1..];
    }
  }

  /** What the transport does while the sink is fed or flushed. */
  datatype WriteEvent =
    | Writes(count: nat)
    | WriteFails(count: nat)

  /** The framed sink: bytes encoded but not yet written, and bytes written. */
  class FramedSink {
    const codec: ZmqCodec
    const buffer: BytesMut
    var written: Bytes
    var flushes: nat
    var script: seq<WriteEvent>

    ghost function Encoded(): Bytes
      reads this, buffer
    {
      written + buffer.data
    }

    constructor (script: seq<WriteEvent>)
      ensures written == [] && buffer.data == [] && flushes == 0 && this.script == script
      ensures fresh(buffer)
    {
      codec := new ZmqCodec(DEFAULT_OPTIONS.max);
      buffer := new BytesMut();
      written := [];
      flushes := 0;
      this.script := script;
    }

    /** Moves up to `count` bytes to the transport. */
    method Write(count: nat)
      modifies this`written, buffer
      ensures Encoded() == old(Encoded()) && old(written) <= written
      ensures count >= |old(buffer.data)| ==> buffer.data == []
    {
      var n := Min(count, |buffer.data|);
      var front := buffer.SplitTo(n);
      written := written + front;
    }

    /** `feed`: the transport may take some bytes first; then the message is encoded. */
    method Feed(message: Outgoing) returns (ok: bool)
      requires message.OutMessage? ==> message.frames != []
      modifies this`written, this`script, buffer
      ensures old(written) <= written
      ensures Encoded() == if ok then old(Encoded()) + Encode(message) else old(Encoded())
      ensures WriteOutcome(old(script), script, ok)
    {
      if script != [] {
        var event := script[0];
        script := script[1..];
        Write(event.count);
        if event.WriteFails? {
          return false;
        }
      }
      Associate(written, buffer.data, Encode(message));
      var underflow := codec.EncodeInto(message, buffer);
      return true;
    }

    /** `flush`: everything encoded so far is written, unless the transport fails. */
    method Flush() returns (ok: bool)
      modifies this, buffer
      ensures Encoded() == old(Encoded()) && old(written) <= written
      ensures ok ==> buffer.data == [] && flushes == old(flushes) + 1
      ensures !ok ==> flushes == old(flushes)
      ensures WriteOutcome(old(script), script, ok)
    {
      if script != [] {
        var event := script[0];
        script := script[1..];
        if event.WriteFails? {
          Write(event.count);
          return false;
        }
      }
      Write(|buffer.data|);
      flushes := flushes + 1;
      return true;
    }
  }

  /** The transport's events from `before` to `after`: none failed, or the last one alone did. */
  ghost predicate WriteOutcome(before: seq<WriteEvent>, after: seq<WriteEvent>, ok: bool) {
    && |after| <= |before| && after == before[|before| - |after|..]
    && (forall i :: 0 <= i < |before| - |after| - (if ok then 0 else 1) ==> !before[i].WriteFails?)
    && (!ok ==> |after| < |before| && before[|before| - |after| - 1].WriteFails?)
  }

  lemma NothingWritten(script: seq<WriteEvent>)
    ensures WriteOutcome(script, script, true)
  {
  }

  lemma OneAfterAnother(before: seq<WriteEvent>, now: seq<WriteEvent>, after: seq<WriteEvent>, ok: bool)
    requires WriteOutcome(before, now, true) && WriteOutcome(now, after, ok)
    ensures WriteOutcome(before, after, ok)
  {
    assert forall i :: 0 <= i < |now| ==> now[i] == before[|before| - |now| + i];
  }

  lemma WithoutFailure(before: seq<WriteEvent>, after: seq<WriteEvent>, ok: bool)
    requires NoFailure(before) && WriteOutcome(before, after, ok)
    ensures ok && NoFailure(after)
  {
    assert forall i :: 0 <= i < |after| ==> after[i] == before[|before| - |after| + i];
  }

  ghost predicate NoFailure(script: seq<WriteEvent>) {
    forall i :: 0 <= i < |script| ==> !script[i].WriteFails?
  }

  ghost predicate NonEmptyMessages(messages: seq<Outgoing>) {
    forall i :: 0 <= i < |messages| ==> messages[i].OutMessage? ==> messages[i].frames != []
  }

  /** Sizes of the batches between flushes. */
  ghost predicate BatchSizes(batches: seq<seq<Outgoing>>) {
    forall i :: 0 <= i < |batches| ==> 1 <= |batches[i]| <= WRITE_BATCH_LIMIT
  }

  /** Every batch but the last is full. */
  ghost predicate FullBatches(batches: seq<seq<Outgoing>>) {
    forall i :: 0 <= i < |batches| - 1 ==> |batches[i]| == WRITE_BATCH_LIMIT
  }

  lemma EncodeOne(o: Outgoing)
    ensures EncodeAll([o]) == Encode(o)
  {
    assert EncodeAll([o]) == Encode(o) + EncodeAll([]);
  }

  /** The inner loop: one batch, up to the limit or until the queue has nothing ready. */
  method FeedBatch(receiver: Receiver, sink: FramedSink, first: Outgoing)
    returns (ok: bool, batch: seq<Outgoing>)
    requires receiver as object != sink && receiver as object != sink.buffer
    requires NonEmptyMessages([first] + receiver.ToCome())
    modifies receiver, sink`written, sink`script, sink.buffer
    ensures old(sink.written) <= sink.written && sink.Encoded() == old(sink.Encoded()) + EncodeAll(batch)
    ensures batch <= [first] + old(receiver.ToCome())
    ensures ok ==> 1 <= |batch| <= WRITE_BATCH_LIMIT && [first] + old(receiver.ToCome()) == batch + receiver.ToCome()
    ensures WriteOutcome(old(sink.script), sink.script, ok)
    ensures ok && old(Flatten(receiver.arrivals)) == [] ==>
              Flatten(receiver.arrivals) == [] && (|batch| < WRITE_BATCH_LIMIT ==> receiver.ToCome() == [])
  {
    hide Flatten, WriteOutcome, EncodeAll, Encode;
    ghost var all := [first] + receiver.ToCome();
    batch := [];
    assert all[0] == first;
    ok := sink.Feed(first);
    if !ok {
      NothingFlushed(false, false);
      return;
    }
    batch := [first];
    EncodeOne(first);
    while |batch| < WRITE_BATCH_LIMIT
      invariant 1 <= |batch| <= WRITE_BATCH_LIMIT && all == batch + receiver.ToCome()
      invariant old(sink.written) <= sink.written && sink.Encoded() == old(sink.Encoded()) + EncodeAll(batch)
      invariant WriteOutcome(old(sink.script), sink.script, true)
      invariant old(Flatten(receiver.arrivals)) == [] ==> Flatten(receiver.arrivals) == []
      decreases WRITE_BATCH_LIMIT - |batch|
    {
      ghost var toCome := receiver.ToCome();
      var next := receiver.TryRecv();
      if next.None? {
        break;
      }
      assert toCome[0] == next.value && all[|batch|] == next.value;
      ghost var script := sink.script;
      ok := sink.Feed(next.value);
      OneAfterAnother(old(sink.script), script, sink.script, ok);
      if !ok {
        return;
      }
      EncodeAllAppend(batch, [next.value]);
      EncodeOne(next.value);
      Associate(old(sink.Encoded()), EncodeAll(batch), Encode(next.value));
      Associate(batch, [next.value], receiver.ToCome());
      batch := batch + [next.value];
    }
  }

  /** One turn of the outer loop: a batch, then a flush. */
  method WriteBatch(receiver: Receiver, sink: FramedSink, first: Outgoing)
    returns (ok: bool, batch: seq<Outgoing>)
    requires receiver as object != sink && receiver as object != sink.buffer
    requires NonEmptyMessages([first] + receiver.ToCome())
    modifies receiver, sink, sink.buffer
    ensures sink.Encoded() == old(sink.Encoded()) + EncodeAll(batch)
    ensures batch <= [first] + old(receiver.ToCome())
    ensures ok ==> sink.buffer.data == [] && sink.flushes == old(sink.flushes) + 1
    ensures ok ==> 1 <= |batch| <= WRITE_BATCH_LIMIT && [first] + old(receiver.ToCome()) == batch + receiver.ToCome()
    ensures !ok ==> sink.flushes == old(sink.flushes)
    ensures WriteOutcome(old(sink.script), sink.script, ok)
    ensures ok && old(Flatten(receiver.arrivals)) == [] ==>
              Flatten(receiver.arrivals) == [] && (|batch| < WRITE_BATCH_LIMIT ==> receiver.ToCome() == [])
  {
    ok, batch := FeedBatch(receiver, sink, first);
    if ok {
      ghost var script := sink.script;
      ok := sink.Flush();
      OneAfterAnother(old(sink.script), script, sink.script, ok);
    }
  }

  lemma NextBatch(all: seq<Outgoing>, fed: seq<Outgoing>, rest: seq<Outgoing>, batch: seq<Outgoing>)
    requires all == fed + rest && batch <= rest
    ensures fed + batch <= all && EncodeAll(fed + batch) == EncodeAll(fed) + EncodeAll(batch)
    ensures all == fed + batch + rest[|batch|..]
  {
    assert rest == batch + rest[|batch|..];
    Associate(fed, batch, rest[|batch|..]);
    EncodeAllAppend(fed, batch);
  }

  lemma NonEmptySuffix(all: seq<Outgoing>, fed: seq<Outgoing>, rest: seq<Outgoing>)
    requires all == fed + rest && NonEmptyMessages(all)
    ensures NonEmptyMessages(rest)
  {
    assert forall i :: 0 <= i < |rest| ==> rest[i] == all[|fed| + i];
  }

  lemma NothingFlushed(backlog: bool, more: bool)
    ensures Flushed([], [], backlog, more)
    ensures EncodeAll([]) == []
  {
  }

  lemma FlushedMeans(batches: seq<seq<Outgoing>>, fed: seq<Outgoing>, backlog: bool, more: bool)
    requires Flushed(batches, fed, backlog, more)
    ensures Flatten(batches) == fed && BatchSizes(batches) && (backlog ==> FullBatches(batches))
  {
  }

  /** What the outer loop knows about the batches flushed so far. */
  ghost predicate Flushed(batches: seq<seq<Outgoing>>, fed: seq<Outgoing>, backlog: bool, more: bool) {
    && Flatten(batches) == fed && BatchSizes(batches)
    && (backlog ==> FullBatches(batches)
                    && (more && batches != [] ==> |batches[|batches| - 1]| == WRITE_BATCH_LIMIT))
  }

  lemma FlushedBatch(batches: seq<seq<Outgoing>>, fed: seq<Outgoing>, batch: seq<Outgoing>, backlog: bool, more: bool)
    requires Flushed(batches, fed, backlog, true) && 1 <= |batch| <= WRITE_BATCH_LIMIT
    requires backlog && more ==> |batch| == WRITE_BATCH_LIMIT
    ensures Flushed(batches + [batch], fed + batch, backlog, more)
  {
    FlattenAppend(batches, batch);
  }

  /**
   The writer task, for every arrival pattern and every behaviour of the transport. `fed` is what
   it encoded: everything received, in order, when it returns normally, and a prefix of it on an
   error. After a normal return all of it is written, and each flush covered 1 to 128 messages.
   When the whole backlog was ready at the start, every batch but the last is full.
   */
  method WriteMessageQueue(receiver: Receiver, sink: FramedSink)
    returns (ok: bool, fed: seq<Outgoing>, batches: seq<seq<Outgoing>>)
    requires receiver as object != sink && receiver as object != sink.buffer
    requires NonEmptyMessages(receiver.ToCome()) && sink.buffer.data == []
    modifies receiver, sink, sink.buffer
    ensures fed <= old(receiver.ToCome()) && sink.Encoded() == old(sink.written) + EncodeAll(fed)
    ensures ok ==> fed == old(receiver.ToCome()) && sink.buffer.data == []
    ensures ok ==> Flatten(batches) == fed
    ensures BatchSizes(batches) && sink.flushes == old(sink.flushes) + |batches|
    ensures WriteOutcome(old(sink.script), sink.script, ok)
    ensures ok && old(Flatten(receiver.arrivals)) == [] ==> FullBatches(batches)
  {
    hide Flatten, WriteOutcome, EncodeAll, Flushed, NonEmptyMessages;
    NothingWritten(sink.script);
    ghost var all := receiver.ToCome();
    ghost var backlog := Flatten(receiver.arrivals) == [];
    fed, batches := [], [];
    ghost var rest := all;
    var message := receiver.Next();
    NothingFlushed(backlog, message.Some?);
    while message.Some?
      invariant all == fed + rest && rest == (if message.Some? then [message.value] + receiver.ToCome() else [])
      invariant Flushed(batches, fed, backlog, message.Some?)
      invariant sink.buffer.data == [] && sink.Encoded() == old(sink.written) + EncodeAll(fed)
      invariant sink.flushes == old(sink.flushes) + |batches|
      invariant WriteOutcome(old(sink.script), sink.script, true)
      invariant backlog ==> Flatten(receiver.arrivals) == []
      decreases |rest|
    {
      NonEmptySuffix(all, fed, rest);
      var batch: seq<Outgoing>;
      ghost var script := sink.script;
      ok, batch := WriteBatch(receiver, sink, message.value);
      OneAfterAnother(old(sink.script), script, sink.script, ok);
      NextBatch(all, fed, rest, batch);
      Associate(old(sink.written), EncodeAll(fed), EncodeAll(batch));
      if !ok {
        FlushedMeans(batches, fed, backlog, true);
        fed := fed + batch;
        return;
      }
      assert rest[|batch|..] == receiver.ToCome();
      rest := receiver.ToCome();
      message := receiver.Next();
      FlushedBatch(batches, fed, batch, backlog, message.Some?);
      fed := fed + batch;
      batches := batches + [batch];
    }
    FlushedMeans(batches, fed, backlog, false);
    ok := true;
  }

  // ----- How many flushes -----

  function CeilDiv(n: nat, d: nat): nat
    requires d > 0
  {
    (n + d - 1) / d
  }

  lemma {:induction false} BatchCountBounds(batches: seq<seq<Outgoing>>)
    requires BatchSizes(batches)
    ensures |batches| <= |Flatten(batches)| <= WRITE_BATCH_LIMIT * |batches|
    ensures CeilDiv(|Flatten(batches)|, WRITE_BATCH_LIMIT) <= |batches|
  {
    if batches != [] {
      BatchCountBounds(batches[1..]);
    }
  }

  /** Full batches reach the lower bound. */
  lemma {:induction false} FullBatchesAreFewest(batches: seq<seq<Outgoing>>)
    requires BatchSizes(batches) && FullBatches(batches)
    ensures |batches| == CeilDiv(|Flatten(batches)|, WRITE_BATCH_LIMIT)
  {
    if |batches| == 1 {
      assert Flatten(batches) == batches[0] + Flatten(batches[1..]);
    } else if |batches| > 1 {
      FullBatchesAreFewest(batches[1..]);
    }
  }
}
