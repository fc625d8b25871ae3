/**
 `ZmqCodec`: the resumable decoder, as a value-level step machine and as the class whose loop
 follows it, and the proof that draining it computes the wire grammar of module Framing
 whatever the fragmentation.
 */
module Codec {
  import opened Wrappers
  import opened Sequences
  import opened Bytes
  import opened Command
  import opened Framing

  datatype DecoderState =
    | AwaitGreeting
    | AwaitHeader
    | AwaitLength(header: Header)
    | AwaitBody(header: Header)

  /** The codec's fields as one value. */
  datatype Decoder = Decoder(
    state: DecoderState,
    waitingFor: nat,
    buffered: Option<seq<Bytes>>,
    maxChunk: nat)

  function Initial(maxChunk: nat): Decoder {
    Decoder(AwaitGreeting, GREETING_SIZE, None, maxChunk)
  }

  /** Consistency of `state` and `waitingFor`: no byte access, split or `expect` below can fail. */
  ghost predicate ValidDecoder(d: Decoder) {
    && 0 < d.maxChunk <= ISIZE_MAX / 2
    && (d.buffered.Some? ==> d.buffered.value != [])
    && match d.state
       case AwaitGreeting => d.waitingFor == GREETING_SIZE && d.buffered.None?
       case AwaitHeader => d.waitingFor == 1
       case AwaitLength(h) => d.waitingFor == LengthSize(h)
       case AwaitBody(h) => Acceptable(h, d.waitingFor, d.maxChunk) && (!h.long ==> d.waitingFor < 256)
  }

  function PartsOf(d: Decoder): seq<Bytes> {
    if d.buffered.Some? then d.buffered.value else []
  }

  /** One turn of the decoder's loop. */
  datatype Turn =
    | Blocked
    | Advanced
    | Emitted(item: Item)
    | Rejected(error: CodecError)

  /** Result of a turn or of a whole call: what happened, the new decoder, the unread bytes. */
  datatype Outcome<T> = Outcome(result: T, decoder: Decoder, rest: Bytes)

  function FinishFrame(d: Decoder, h: Header, body: Bytes, rest: Bytes): Outcome<Turn> {
    var d' := d.(state := AwaitHeader, waitingFor := 1);
    if h.command then
      match ParseCommand(body)
      case Err(e) => Outcome(Rejected(e), d', rest)
      case Ok(properties) => Outcome(Emitted(CommandItem(properties)), d', rest)
    else if h.more then
      Outcome(Advanced, d'.(buffered := Some(PartsOf(d) + [body])), rest)
    else
      Outcome(Emitted(MessageItem(PartsOf(d) + [body])), d'.(buffered := None), rest)
  }

  function Step(d: Decoder, src: Bytes): Outcome<Turn>
    requires ValidDecoder(d)
  {
    if |src| < d.waitingFor then Outcome(Blocked, d, src) else
    match d.state
    case AwaitGreeting =>
      if src[0] != 0xff then Outcome(Rejected(BadFirstByteOfGreeting), d, src) else
      var d', rest := d.(state := AwaitHeader, waitingFor := 1), src[GREETING_SIZE..];
      (match ParseGreeting(src[..GREETING_SIZE])
       case Ok(g) => Outcome(Emitted(GreetingItem(g)), d', rest)
       case Err(e) => Outcome(Rejected(e), d', rest))
    case AwaitHeader =>
      var h := HeaderOf(src[0]);
      Outcome(Advanced, d.(state := AwaitLength(h), waitingFor := LengthSize(h)), src[1..])
    case AwaitLength(h) =>
      var length, rest := LengthOf(h, src), src[LengthSize(h)..];
      if !Acceptable(h, length, d.maxChunk) then Outcome(Rejected(FrameLengthExceedsCapacity), d, rest)
      else Outcome(Advanced, d.(state := AwaitBody(h), waitingFor := length), rest)
    case AwaitBody(h) => FinishFrame(d, h, src[..d.waitingFor], src[d.waitingFor..])
  }

  /** Every loop turn consumes bytes or leaves the body state, so zero-length frames cannot stall it. */
  ghost function Work(d: Decoder, src: Bytes): nat {
    2 * |src| + if d.state.AwaitBody? then 1 else 0
  }

  lemma StepKeepsValid(d: Decoder, src: Bytes)
    requires ValidDecoder(d)
    ensures var o := Step(d, src);
            && ValidDecoder(o.decoder) && o.decoder.maxChunk == d.maxChunk
            && (!o.result.Blocked? && !o.result.Rejected? ==> Work(o.decoder, o.rest) < Work(d, src))
            && |o.rest| <= |src| && o.rest == src[|src| - |o.rest|..]
  {
  }

  lemma StepBlocks(d: Decoder, src: Bytes)
    requires ValidDecoder(d)
    ensures |src| < d.waitingFor ==> Step(d, src) == Outcome(Blocked, d, src)
    ensures |src| >= d.waitingFor ==> !Step(d, src).result.Blocked?
  {
  }

  // ----- decode: turns until an item, an error, or too few bytes -----

  datatype Decoded =
    | NeedMore
    | Got(item: Item)
    | Bad(error: CodecError)

  function Decode(d: Decoder, src: Bytes): (o: Outcome<Decoded>)
    requires ValidDecoder(d)
    ensures ValidDecoder(o.decoder) && o.decoder.maxChunk == d.maxChunk
    ensures o.result.Got? ==> Work(o.decoder, o.rest) < Work(d, src)
    ensures o.result.NeedMore? ==> |o.rest| < o.decoder.waitingFor && Work(o.decoder, o.rest) <= Work(d, src)
    decreases Work(d, src)
  {
    StepKeepsValid(d, src);
    var o := Step(d, src);
    match o.result
    case Blocked => Outcome(NeedMore, o.decoder, o.rest)
    case Emitted(item) => Outcome(Got(item), o.decoder, o.rest)
    case Rejected(e) => Outcome(Bad(e), o.decoder, o.rest)
    case Advanced => Decode(o.decoder, o.rest)
  }

  // ----- Draining: decode until it asks for more bytes or fails -----

  datatype DrainEnd = Waiting(decoder: Decoder, rest: Bytes) | Broken(error: CodecError)

  datatype Drained = Drained(items: seq<Item>, end: DrainEnd)

  function After(items: seq<Item>, r: Drained): Drained {
    r.(items := items + r.items)
  }

  function Drain(d: Decoder, src: Bytes): (r: Drained)
    requires ValidDecoder(d)
    ensures r.end.Waiting? ==>
              ValidDecoder(r.end.decoder) && r.end.decoder.maxChunk == d.maxChunk
              && |r.end.rest| < r.end.decoder.waitingFor
    decreases Work(d, src)
  {
    var o := Decode(d, src);
    match o.result
    case NeedMore => Drained([], Waiting(o.decoder, o.rest))
    case Bad(e) => Drained([], Broken(e))
    case Got(item) => After([item], Drain(o.decoder, o.rest))
  }

  /** Draining, one turn at a time. */
  lemma DrainStep(d: Decoder, src: Bytes)
    requires ValidDecoder(d)
    ensures var o := Step(d, src);
            ValidDecoder(o.decoder) &&
            Drain(d, src) == match o.result
                             case Blocked => Drained([], Waiting(d, src))
                             case Rejected(e) => Drained([], Broken(e))
                             case Emitted(item) => After([item], Drain(o.decoder, o.rest))
                             case Advanced => Drain(o.decoder, o.rest)
  {
    StepKeepsValid(d, src);
  }

  // ----- Fragmentation -----

  /** Bytes that arrive later do not change a turn that was possible without them. */
  lemma StepIgnoresLaterBytes(d: Decoder, src: Bytes, later: Bytes)
    requires ValidDecoder(d) && !Step(d, src).result.Blocked?
    ensures var o := Step(d, src);
            Step(d, src + later) == Outcome(o.result, o.decoder, o.rest + later)
  {
    var all := src + later;
    assert all[..d.waitingFor] == src[..d.waitingFor];
    assert all[d.waitingFor..] == src[d.waitingFor..] + later;
    match d.state
    case AwaitGreeting =>
    case AwaitHeader =>
    case AwaitLength(h) =>
      assert LengthOf(h, all) == LengthOf(h, src);
    case AwaitBody(h) =>
  }

  /** Draining a prefix first and the rest later is draining everything at once. */
  lemma {:induction false} DrainInTwo(d: Decoder, src: Bytes, later: Bytes)
    requires ValidDecoder(d)
    ensures var r := Drain(d, src);
            Drain(d, src + later) ==
            if r.end.Broken? then r else After(r.items, Drain(r.end.decoder, r.end.rest + later))
    decreases Work(d, src)
  {
    hide Step;
    var o := Step(d, src);
    StepKeepsValid(d, src);
    DrainStep(d, src);
    if !o.result.Blocked? {
      StepIgnoresLaterBytes(d, src, later);
      DrainStep(d, src + later);
      if !o.result.Rejected? {
        DrainInTwo(o.decoder, o.rest, later);
        if o.result.Emitted? {
          var r := Drain(o.decoder, o.rest);
          if r.end.Waiting? {
            Associate([o.result.item], r.items, Drain(r.end.decoder, r.end.rest + later).items);
          }
        }
      }
    }
  }

  /** Append each chunk, then drain; stop at the first error. */
  function DrainChunks(d: Decoder, src: Bytes, chunks: seq<Bytes>): (r: Drained)
    requires ValidDecoder(d)
    decreases |chunks|
  {
    var r := Drain(d, src);
    if r.end.Broken? || chunks == [] then r
    else After(r.items, DrainChunks(r.end.decoder, r.end.rest + chunks[0], chunks[1..]))
  }

  /** Fragmentation invariance: any split of a byte string gives the items and the end state of the whole. */
  lemma {:induction false} FragmentationInvariance(d: Decoder, src: Bytes, chunks: seq<Bytes>)
    requires ValidDecoder(d)
    ensures DrainChunks(d, src, chunks) == Drain(d, src + Flatten(chunks))
    decreases |chunks|
  {
    var r := Drain(d, src);
    DrainInTwo(d, src, Flatten(chunks));
    if chunks == [] {
      assert src + Flatten(chunks) == src;
    } else if r.end.Waiting? {
      Associate(r.end.rest, chunks[0], Flatten(chunks[1..]));
      FragmentationInvariance(r.end.decoder, r.end.rest + chunks[0], chunks[1..]);
    }
  }

  /** What one call of decode does to the items still to come, whatever arrives later. */
  lemma DecodeThenDrain(d: Decoder, src: Bytes, later: Bytes)
    requires ValidDecoder(d)
    ensures var o := Decode(d, src);
            Drain(d, src + later) == match o.result
                                     case NeedMore => Drain(o.decoder, o.rest + later)
                                     case Bad(e) => Drained([], Broken(e))
                                     case Got(item) => After([item], Drain(o.decoder, o.rest + later))
  {
    hide Decode;
    var o := Decode(d, src);
    DrainInTwo(d, src, later);
    if o.result.Got? {
      var r := Drain(o.decoder, o.rest);
      DrainInTwo(o.decoder, o.rest, later);
      if r.end.Waiting? {
        Associate([o.result.item], r.items, Drain(r.end.decoder, r.end.rest + later).items);
      }
    } else if o.result.NeedMore? {
      assert [] + Drain(o.decoder, o.rest + later).items == Drain(o.decoder, o.rest + later).items;
    }
  }

  // ----- Refinement of the grammar -----

  /** The bytes of the current frame that the decoder has already taken from its buffer. */
  function Taken(d: Decoder): Bytes {
    match d.state
    case AwaitGreeting => []
    case AwaitHeader => []
    case AwaitLength(h) => [FlagsOf(h)]
    case AwaitBody(h) => [FlagsOf(h)] + LengthBytes(h, d.waitingFor)
  }

  /** The grammar applied to everything that the decoder has not finished yet. */
  function Meaning(d: Decoder, src: Bytes): Parse {
    if d.state.AwaitGreeting? then ParseConnection(src, d.maxChunk)
    else ParseStream(Taken(d) + src, PartsOf(d), d.maxChunk)
  }

  function EndOf(e: DrainEnd): End {
    match e
    case Broken(error) => Failed(error)
    case Waiting(d, rest) =>
      if d.state.AwaitGreeting? then LeftoverGreeting(rest) else Leftover(PartsOf(d), Taken(d) + rest)
  }

  function AsParse(r: Drained): Parse {
    Parse(r.items, EndOf(r.end))
  }

  lemma HeaderTurn(d: Decoder, src: Bytes)
    requires ValidDecoder(d) && d.state.AwaitHeader?
    ensures src == [] ==> Meaning(d, src) == Parse([], Leftover(PartsOf(d), []))
    ensures src != [] ==> Step(d, src).result.Advanced?
                          && Meaning(d, src) == Meaning(Step(d, src).decoder, Step(d, src).rest)
  {
    assert [] + src == src;
    if src != [] {
      ReservedBits(src[0]);
      ReservedBitsAreIgnored(src, PartsOf(d), d.maxChunk);
      assert Canonical(src) == [FlagsOf(HeaderOf(src[0]))] + src[1..];
    }
  }

  function LengthBytes(h: Header, length: nat): Bytes {
    if h.long then BigEndian(length, 8) else [(length % 256) as byte]
  }

  lemma LengthField(h: Header, src: Bytes)
    requires |src| >= LengthSize(h)
    ensures src == LengthBytes(h, LengthOf(h, src)) + src[LengthSize(h)..]
  {
    hide BigEndian, FromBigEndian;
    if h.long {
      BigEndianEncodes(src[..8]);
    }
  }

  lemma LengthTurn(d: Decoder, src: Bytes)
    requires ValidDecoder(d) && d.state.AwaitLength?
    ensures var h, s := d.state.header, Taken(d) + src;
            if |src| < d.waitingFor then
              ParseFrame(s, d.maxChunk) == Truncated && Canonical(s) == s
            else if Step(d, src).result.Rejected? then
              ParseFrame(s, d.maxChunk) == Oversized
            else
              Step(d, src).result.Advanced? && Taken(Step(d, src).decoder) + Step(d, src).rest == s
  {
    hide LengthOf, LengthBytes;
    var h, s := d.state.header, Taken(d) + src;
    FlagsRoundTrip(h);
    assert s[0] == FlagsOf(h) && s[1..] == src;
    if |src| >= d.waitingFor {
      LengthField(h, src);
      Associate([FlagsOf(h)], LengthBytes(h, LengthOf(h, src)), src[LengthSize(h)..]);
    }
  }

  lemma TakenLayout(d: Decoder, src: Bytes)
    requires ValidDecoder(d) && d.state.AwaitBody?
    ensures var h, s := d.state.header, Taken(d) + src;
            var start := 1 + LengthSize(h);
            && s[0] == FlagsOf(h) && |s| == start + |src| && LengthOf(h, s[1..]) == d.waitingFor
            && s[start..] == src
  {
    var h, s := d.state.header, Taken(d) + src;
    var start := 1 + LengthSize(h);
    assert s[1..] == Taken(d)[1..] + src;
    if h.long {
      U64RoundTrip(d.waitingFor);
      assert s[1..][..8] == BigEndian(d.waitingFor, 8);
    }
  }

  lemma BodyTurn(d: Decoder, src: Bytes)
    requires ValidDecoder(d) && d.state.AwaitBody?
    ensures var h, s := d.state.header, Taken(d) + src;
            if |src| < d.waitingFor then
              ParseFrame(s, d.maxChunk) == Truncated && Canonical(s) == s
            else
              var p := ParseFrame(s, d.maxChunk);
              p.Whole? && p.header == h && p.body == src[..d.waitingFor] && s[p.size..] == src[d.waitingFor..]
  {
    hide LengthOf;
    var h, s := d.state.header, Taken(d) + src;
    var start := 1 + LengthSize(h);
    FlagsRoundTrip(h);
    TakenLayout(d, src);
    if |src| >= d.waitingFor {
      assert s[start..start + d.waitingFor] == s[start..][..d.waitingFor];
      assert s[start + d.waitingFor..] == s[start..][d.waitingFor..];
    }
  }

  /** One turn of the loop does not change the meaning of what is left. */
  lemma StepKeepsMeaning(d: Decoder, src: Bytes)
    requires ValidDecoder(d)
    ensures var o := Step(d, src);
            Meaning(d, src) == match o.result
                               case Blocked => Parse([], EndOf(Waiting(d, src)))
                               case Rejected(e) => Parse([], Failed(e))
                               case Emitted(item) => Prepend([item], Meaning(o.decoder, o.rest))
                               case Advanced => Meaning(o.decoder, o.rest)
  {
    hide ParseFrame, ParseCommand, Canonical;
    match d.state
    case AwaitGreeting =>
      if |src| >= GREETING_SIZE {
        assert [] + src[GREETING_SIZE..] == src[GREETING_SIZE..];
      }
    case AwaitHeader =>
      HeaderTurn(d, src);
      assert Taken(d) + src == src;
    case AwaitLength(h) =>
      LengthTurn(d, src);
    case AwaitBody(h) =>
      BodyTurn(d, src);
      if |src| >= d.waitingFor {
        var o := Step(d, src);
        assert [] + o.rest == o.rest;
      }
  }

  /**
   Draining the decoder computes the wire grammar: the same items, the same error, and the same
   unfinished message and frame, where bytes already taken from the buffer count as unread.
   */
  lemma {:induction false} DrainIsParse(d: Decoder, src: Bytes)
    requires ValidDecoder(d)
    ensures AsParse(Drain(d, src)) == Meaning(d, src)
    decreases Work(d, src)
  {
    hide Step, Meaning;
    var o := Step(d, src);
    StepKeepsValid(d, src);
    DrainStep(d, src);
    StepKeepsMeaning(d, src);
    if o.result.Emitted? || o.result.Advanced? {
      DrainIsParse(o.decoder, o.rest);
    }
  }

  /** The two together: any fragmentation of a connection decodes as the grammar says. */
  lemma ChunksDecodeAsConnection(maxChunk: nat, chunks: seq<Bytes>)
    requires 0 < maxChunk <= ISIZE_MAX / 2
    ensures AsParse(DrainChunks(Initial(maxChunk), [], chunks)) == ParseConnection(Flatten(chunks), maxChunk)
  {
    FragmentationInvariance(Initial(maxChunk), [], chunks);
    assert [] + Flatten(chunks) == Flatten(chunks);
    DrainIsParse(Initial(maxChunk), Flatten(chunks));
  }

  // ----- bytes_needed is tight -----

  /**
   A decoder that asked for more bytes does nothing with fewer than it asked for, and with that
   many it fails or makes progress. (`Decode` itself guarantees `|src| < d.waitingFor` when it asks.)
   */
  lemma BytesNeededIsTight(d: Decoder, src: Bytes, later: Bytes)
    requires ValidDecoder(d) && |src| < d.waitingFor
    ensures |later| < d.waitingFor - |src| ==> Decode(d, src + later) == Outcome(NeedMore, d, src + later)
    ensures |later| >= d.waitingFor - |src| ==>
              var o := Decode(d, src + later);
              o.result.Bad? || Work(o.decoder, o.rest) < Work(d, src + later)
  {
    if |later| >= d.waitingFor - |src| {
      var o := Step(d, src + later);
      StepKeepsValid(d, src + later);
      assert !o.result.Blocked?;
    }
  }

  // ----- The codec itself -----

  class ZmqCodec {
    var state: DecoderState
    var waitingFor: nat
    var bufferedMessage: Option<seq<Bytes>>
    const maxReadChunkSize: nat

    function View(): Decoder
      reads this
    {
      Decoder(state, waitingFor, bufferedMessage, maxReadChunkSize)
    }

    ghost predicate Valid()
      reads this
    {
      ValidDecoder(View())
    }

    constructor (maxReadChunkSize: nat)
      requires 0 < maxReadChunkSize <= ISIZE_MAX / 2
      ensures Valid() && View() == Initial(maxReadChunkSize)
    {
      this.state := AwaitGreeting;
      this.waitingFor := GREETING_SIZE;
      this.bufferedMessage := None;
      this.maxReadChunkSize := maxReadChunkSize;
    }

    /** `bytes_needed`: a saturating subtraction. */
    function Needed(bufferedLen: nat): (n: nat)
      reads this
      ensures n == 0 <==> bufferedLen >= waitingFor
      ensures n > 0 ==> bufferedLen + n == waitingFor
    {
      if waitingFor > bufferedLen then waitingFor - bufferedLen else 0
    }

    /**
     The reservation for the bytes still missing, with room for one more chunk behind a frame of more
     than two; its size never overflows.
     */
    method ReserveForFrame(src: BytesMut)
      requires Valid() && |src.data| < waitingFor
      modifies src`room
      ensures src.room == waitingFor + if waitingFor > 2 * maxReadChunkSize then maxReadChunkSize else 0
    {
      var reserveTo :=
        if waitingFor > 2 * maxReadChunkSize then waitingFor + maxReadChunkSize else waitingFor;
      src.Reserve(reserveTo - |src.data|);
    }

    method GreetingArm(src: BytesMut) returns (turn: Turn)
      requires Valid() && state.AwaitGreeting? && waitingFor <= |src.data|
      modifies this, src
      ensures Valid() && Outcome(turn, View(), src.data) == Step(old(View()), old(src.data))
    {
      if src.data[0] != 0xff {
        return Rejected(BadFirstByteOfGreeting);
      }
      state := AwaitHeader;
      waitingFor := 1;
      var greeting := src.SplitTo(GREETING_SIZE);
      match ParseGreeting(greeting) {
        case Ok(g) => return Emitted(GreetingItem(g));
        case Err(e) => return Rejected(e);
      }
    }

    method HeaderArm(src: BytesMut) returns (turn: Turn)
      requires Valid() && state.AwaitHeader? && waitingFor <= |src.data|
      modifies this, src
      ensures Valid() && Outcome(turn, View(), src.data) == Step(old(View()), old(src.data))
    {
      var flags := src.GetU8();
      var header := HeaderOf(flags);
      state := AwaitLength(header);
      waitingFor := if header.long then 8 else 1;
      return Advanced;
    }

    method LengthArm(src: BytesMut, header: Header) returns (turn: Turn)
      requires Valid() && state == AwaitLength(header) && waitingFor <= |src.data|
      modifies this, src
      ensures Valid() && Outcome(turn, View(), src.data) == Step(old(View()), old(src.data))
    {
      var frameLen: nat;
      if header.long {
        frameLen := src.GetU64();
        if frameLen + maxReadChunkSize > ISIZE_MAX {
          return Rejected(FrameLengthExceedsCapacity);
        }
      } else {
        var b := src.GetU8();
        frameLen := b as nat;
      }
      state := AwaitBody(header);
      waitingFor := frameLen;
      return Advanced;
    }

    method BodyArm(src: BytesMut, header: Header) returns (turn: Turn)
      requires Valid() && state == AwaitBody(header) && waitingFor <= |src.data|
      modifies this, src
      ensures Valid() && Outcome(turn, View(), src.data) == Step(old(View()), old(src.data))
    {
      ghost var parts := PartsOf(View());
      var data := src.SplitTo(waitingFor);
      state := AwaitHeader;
      waitingFor := 1;
      if header.command {
        var command := ParseReady(data);
        match command {
          case Ok(properties) => return Emitted(CommandItem(properties));
          case Err(e) => return Rejected(e);
        }
      }
      if bufferedMessage.Some? {
        bufferedMessage := Some(bufferedMessage.value + [data]);
      } else {
        bufferedMessage := Some([data]);
      }
      assert bufferedMessage.value == parts + [data];
      if !header.more {
        var message := bufferedMessage.value;
        bufferedMessage := None;
        return Emitted(MessageItem(message));
      }
      return Advanced;
    }

    /** `decode`: the loop over the buffer, in place, one arm of its match a turn. */
    method DecodeNext(src: BytesMut) returns (result: Decoded)
      requires Valid()
      modifies this, src
      ensures Valid()
      ensures Outcome(result, View(), src.data) == Decode(old(View()), old(src.data))
      ensures result.NeedMore? ==>
                src.room == waitingFor + if waitingFor > 2 * maxReadChunkSize then maxReadChunkSize else 0
    {
      hide Step;
      while true
        invariant Valid()
        invariant Decode(View(), src.data) == Decode(old(View()), old(src.data))
        decreases Work(View(), src.data)
      {
        StepBlocks(View(), src.data);
        StepKeepsValid(View(), src.data);
        if |src.data| < waitingFor {
          ReserveForFrame(src);
          return NeedMore;
        }
        var turn: Turn;
        match state {
          case AwaitGreeting => turn := GreetingArm(src);
          case AwaitHeader => turn := HeaderArm(src);
          case AwaitLength(header) => turn := LengthArm(src, header);
          case AwaitBody(header) => turn := BodyArm(src, header);
        }
        match turn {
          case Emitted(item) => return Got(item);
          case Rejected(e) => return Bad(e);
          case _ =>
        }
      }
    }

    /**
     `encode`: one frame after another, every frame but the last with the more bit. A message
     without frames underflows the frame count: a build with overflow checks panics there, one
     without them writes nothing.
     */
    method EncodeInto(message: Outgoing, dst: BytesMut) returns (underflow: bool)
      modifies dst
      ensures underflow <==> message == OutMessage([])
      ensures dst.data == old(dst.data) + if underflow then [] else Encode(message)
    {
      underflow := false;
      match message {
        case OutGreeting(g) =>
          dst.Extend(EncodeGreeting(g));
        case OutCommand(entries) =>
          var bytes := PrintReady(entries);
          dst.Extend(bytes);
        case OutMessage(frames) =>
          if |frames| == 0 {
            return true;
          }
          var lastElement := |frames| - 1;
          for idx := 0 to |frames|
            invariant dst.data + EncodeFrames(frames[idx..]) == old(dst.data) + EncodeFrames(frames)
          {
            assert frames[idx..][1..] == frames[idx + 1..];
            Associate(dst.data, EncodeFrame(frames[idx], idx != lastElement), EncodeFrames(frames[idx + 1..]));
            PutFrame(frames[idx], dst, idx != lastElement);
          }
      }
    }

    /** `encode_frame`. */
    static method PutFrame(frame: Bytes, dst: BytesMut, more: bool)
      modifies dst
      ensures dst.data == old(dst.data) + EncodeFrame(frame, more)
    {
      var flags: byte := 0;
      if more {
        flags := flags + 1;
      }
      var len := |frame|;
      if len > 255 {
        flags := flags + 2;
        dst.Extend([flags] + BigEndian(len, 8));
      } else {
        dst.Extend([flags, len as byte]);
      }
      dst.Extend(frame);
    }
  }
}
