/**
 The wire grammar, independent of any state machine: the "Framing" section of RFC 23/ZMTP as a
 recursive parser over a complete byte string, the encoder, and the proof that the parser
 inverts the encoder.
 */
module Framing {
  import opened Wrappers
  import opened Sequences
  import opened Bytes
  import opened Command

  datatype Mechanism = Null | Plain | Curve

  datatype Greeting = Greeting(major: byte, minor: byte, mechanism: Mechanism, asServer: bool)

  datatype Item =
    | GreetingItem(greeting: Greeting)
    | CommandItem(properties: Properties)
    | MessageItem(frames: seq<Bytes>)

  // ----- Greeting -----

  const GREETING_SIZE: nat := 64

  function MechanismName(m: Mechanism): Bytes {
    match m
    case Null => [78, 85, 76, 76]
    case Plain => [80, 76, 65, 73, 78]
    case Curve => [67, 85, 82, 86, 69]
  }

  /** The bytes before the first zero. */
  function UpToZero(s: Bytes): Bytes {
    if s == [] || s[0] == 0 then [] else [s[0]] + UpToZero(s[1..])
  }

  function ParseMechanism(s: Bytes): Result<Mechanism, CodecError> {
    var name := UpToZero(s);
    if name == MechanismName(Null) then Ok(Null)
    else if name == MechanismName(Plain) then Ok(Plain)
    else if name == MechanismName(Curve) then Ok(Curve)
    else Err(FailedToParseMechanism)
  }

  function ParseGreeting(s: Bytes): Result<Greeting, CodecError> {
    if |s| != GREETING_SIZE || !(s[0] == 0xff && s[9] == 0x7f) then Err(FailedToParseGreeting)
    else match ParseMechanism(s[12..32])
      case Ok(m) => Ok(Greeting(s[10], s[11], m, s[32] == 0x01))
      case Err(e) => Err(e)
  }

  function Zeros(n: nat): (s: Bytes)
    ensures |s| == n && forall i :: 0 <= i < n ==> s[i] == 0
  {
    seq(n, _ => 0)
  }

  function EncodeGreeting(g: Greeting): (s: Bytes)
    ensures |s| == GREETING_SIZE
  {
    var name := MechanismName(g.mechanism);
    [0xff] + Zeros(8) + [0x7f, g.major, g.minor] + name + Zeros(20 - |name|)
    + [if g.asServer then 1 else 0] + Zeros(31)
  }

  lemma {:induction false} UpToZeroStops(name: Bytes, tail: Bytes)
    requires 0 !in name && tail != [] && tail[0] == 0
    ensures UpToZero(name + tail) == name
  {
    if name != [] {
      assert (name + tail)[1..] == name[1..] + tail;
      UpToZeroStops(name[1..], tail);
      assert (name + tail)[0] == name[0];
    } else {
      assert name + tail == tail;
    }
  }

  /** The 64 bytes of a greeting, field by field. */
  lemma GreetingLayout(g: Greeting)
    ensures var s := EncodeGreeting(g);
            && s[0] == 0xff && s[9] == 0x7f && s[10] == g.major && s[11] == g.minor
            && s[32] == (if g.asServer then 1 else 0)
            && (g.mechanism.Null? ==> s[12..16] == [78, 85, 76, 76] && forall i :: 16 <= i < 32 ==> s[i] == 0)
            && (g.mechanism.Plain? ==> s[12..17] == [80, 76, 65, 73, 78] && forall i :: 17 <= i < 32 ==> s[i] == 0)
            && (g.mechanism.Curve? ==> s[12..17] == [67, 85, 82, 86, 69] && forall i :: 17 <= i < 32 ==> s[i] == 0)
            && (forall i :: 1 <= i < 9 || 33 <= i < 64 ==> s[i] == 0)
  {
  }

  /** What a receiver makes of 64 bytes: the signature is checked, the rest read from its fields. */
  lemma GreetingAcceptedIff(s: Bytes)
    requires |s| == 64
    ensures ParseGreeting(s).Ok? <==>
            && s[0] == 0xff && s[9] == 0x7f
            && UpToZero(s[12..32]) in {[78, 85, 76, 76], [80, 76, 65, 73, 78], [67, 85, 82, 86, 69]}
    ensures ParseGreeting(s).Ok? ==>
              var g := ParseGreeting(s).value;
              && g.major == s[10] && g.minor == s[11] && (g.asServer <==> s[32] == 1)
              && (g.mechanism.Null? <==> UpToZero(s[12..32]) == [78, 85, 76, 76])
              && (g.mechanism.Plain? <==> UpToZero(s[12..32]) == [80, 76, 65, 73, 78])
  {
  }

  lemma GreetingRoundTrip(g: Greeting)
    ensures ParseGreeting(EncodeGreeting(g)) == Ok(g)
  {
    var s, name := EncodeGreeting(g), MechanismName(g.mechanism);
    assert s[12..32] == name + Zeros(20 - |name|);
    UpToZeroStops(name, Zeros(20 - |name|));
  }

  // ----- Frame headers -----

  datatype Header = Header(command: bool, long: bool, more: bool)

  /** Bits 2, 1 and 0 of the flags byte; the reserved bits above them are ignored. */
  function HeaderOf(flags: byte): Header {
    Header((flags / 4) % 2 == 1, (flags / 2) % 2 == 1, flags % 2 == 1)
  }

  function FlagsOf(h: Header): (flags: byte) {
    (if h.command then 4 else 0) + (if h.long then 2 else 0) + (if h.more then 1 else 0)
  }

  lemma FlagsRoundTrip(h: Header)
    ensures HeaderOf(FlagsOf(h)) == h
  {
  }

  /** Where the bits are: MORE is the lowest, LONG the next, COMMAND the third. */
  lemma FlagBits(flags: byte)
    ensures HeaderOf(flags).more <==> flags % 2 >= 1
    ensures HeaderOf(flags).long <==> flags % 4 >= 2
    ensures HeaderOf(flags).command <==> flags % 8 >= 4
  {
    var eights, fours := flags / 8, (flags / 4) % 2;
    assert flags / 4 == 2 * eights + fours;
  }

  lemma ReservedBits(flags: byte)
    ensures FlagsOf(HeaderOf(flags)) == flags % 8
    ensures HeaderOf(flags % 8) == HeaderOf(flags)
  {
    var high, low := flags / 8, flags % 8;
    assert flags == 8 * high + low;
    assert flags / 4 == 2 * high + low / 4 && flags / 2 == 4 * high + low / 2;
  }

  function LengthSize(h: Header): nat {
    if h.long then 8 else 1
  }

  function LengthOf(h: Header, s: Bytes): nat
    requires |s| >= LengthSize(h)
  {
    if h.long then FromBigEndian(s[..8]) else s[0] as nat
  }

  /**
   A length the reader can prepare for: one maximum read chunk beyond the frame must still be
   addressable. One-byte lengths need no check.
   */
  predicate Acceptable(h: Header, length: nat, maxChunk: nat) {
    h.long ==> length + maxChunk <= ISIZE_MAX
  }

  // ----- The grammar -----

  datatype FrameParse =
    | Truncated
    | Oversized
    | Whole(header: Header, body: Bytes, size: nat)

  /** The frame at the start of `s`. */
  function ParseFrame(s: Bytes, maxChunk: nat): (r: FrameParse)
    ensures r.Whole? ==> 2 <= r.size <= |s|
  {
    if s == [] then Truncated else
    var h := HeaderOf(s[0]);
    var start := 1 + LengthSize(h);
    if |s| < start then Truncated else
    var length := LengthOf(h, s[1..]);
    if !Acceptable(h, length, maxChunk) then Oversized
    else if |s| < start + length then Truncated
    else Whole(h, s[start..start + length], start + length)
  }

  datatype End =
    | Leftover(parts: seq<Bytes>, rest: Bytes)
    | LeftoverGreeting(rest: Bytes)
    | Failed(error: CodecError)

  datatype Parse = Parse(items: seq<Item>, end: End)

  function Prepend(items: seq<Item>, p: Parse): Parse {
    p.(items := items + p.items)
  }

  /** An unfinished frame with the reserved bits of its flags byte cleared. */
  function Canonical(s: Bytes): Bytes {
    if s == [] then [] else [s[0] % 8] + s[1..]
  }

  datatype Next =
    | Stop(end: End)
    | Take(items: seq<Item>, parts: seq<Bytes>, rest: Bytes)

  /**
   What the first frame of `s` contributes, given the parts of an unfinished multipart message.
   A command frame is an item of its own and leaves those parts alone.
   */
  function NextFrame(s: Bytes, parts: seq<Bytes>, maxChunk: nat): (r: Next)
    ensures r.Take? ==> |r.rest| < |s|
  {
    match ParseFrame(s, maxChunk)
    case Truncated => Stop(Leftover(parts, Canonical(s)))
    case Oversized => Stop(Failed(FrameLengthExceedsCapacity))
    case Whole(h, body, size) =>
      if h.command then
        match ParseCommand(body)
        case Err(e) => Stop(Failed(e))
        case Ok(properties) => Take([CommandItem(properties)], parts, s[size..])
      else if h.more then Take([], parts + [body], s[size..])
      else Take([MessageItem(parts + [body])], [], s[size..])
  }

  /** All items of a byte string that starts at a frame boundary. */
  function ParseStream(s: Bytes, parts: seq<Bytes>, maxChunk: nat): Parse
    decreases |s|
  {
    match NextFrame(s, parts, maxChunk)
    case Stop(end) => Parse([], end)
    case Take(items, parts', rest) => Prepend(items, ParseStream(rest, parts', maxChunk))
  }

  /** All items of a connection: the greeting, then frames. */
  function ParseConnection(s: Bytes, maxChunk: nat): Parse {
    if |s| < GREETING_SIZE then Parse([], LeftoverGreeting(s))
    else if s[0] != 0xff then Parse([], Failed(BadFirstByteOfGreeting))
    else match ParseGreeting(s[..GREETING_SIZE])
      case Err(e) => Parse([], Failed(e))
      case Ok(g) => Prepend([GreetingItem(g)], ParseStream(s[GREETING_SIZE..], [], maxChunk))
  }

  lemma SameFrame(s: Bytes, maxChunk: nat)
    ensures ParseFrame(Canonical(s), maxChunk) == ParseFrame(s, maxChunk)
  {
    if s != [] {
      ReservedBits(s[0]);
      assert Canonical(s)[1..] == s[1..];
      forall i, j | 1 <= i <= j <= |s|
        ensures Canonical(s)[i..j] == s[i..j]
      {
      }
    }
  }

  lemma ReservedBitsAreIgnored(s: Bytes, parts: seq<Bytes>, maxChunk: nat)
    ensures ParseStream(Canonical(s), parts, maxChunk) == ParseStream(s, parts, maxChunk)
  {
    SameFrame(s, maxChunk);
    var p := ParseFrame(s, maxChunk);
    if p.Whole? {
      assert Canonical(s)[p.size..] == s[p.size..];
    }
    assert NextFrame(Canonical(s), parts, maxChunk) == NextFrame(s, parts, maxChunk);
  }

  // ----- The encoder -----

  /** Long form above 255 bytes. */
  function EncodeFrame(frame: Bytes, more: bool): Bytes {
    (if |frame| > 255 then [FlagsOf(Header(false, true, more))] + BigEndian(|frame|, 8)
     else [FlagsOf(Header(false, false, more)), |frame| as byte])
    + frame
  }

  /** An encoded frame byte by byte: flags, then the length in one byte up to 255 and in eight above, then the frame. */
  lemma FrameLayout(frame: Bytes, more: bool)
    ensures |frame| <= 255 ==>
              EncodeFrame(frame, more) == [if more then 1 else 0] + [|frame| as byte] + frame
    ensures |frame| > 255 ==>
              EncodeFrame(frame, more) == [if more then 3 else 2] + BigEndian(|frame|, 8) + frame
  {
    hide BigEndian;
    assert FlagsOf(Header(false, true, more)) == if more then 3 else 2;
    assert FlagsOf(Header(false, false, more)) == if more then 1 else 0;
    assert |frame| <= 255 ==> [if more then 1 else 0, |frame| as byte] == [if more then 1 else 0] + [|frame| as byte];
  }

  function EncodeFrames(frames: seq<Bytes>): Bytes {
    if frames == [] then []
    else EncodeFrame(frames[0], |frames| > 1) + EncodeFrames(frames[1..])
  }

  /** What a socket writes: messages, and commands in some order of their properties. */
  datatype Outgoing =
    | OutGreeting(greeting: Greeting)
    | OutCommand(entries: seq<Property>)
    | OutMessage(frames: seq<Bytes>)

  function Encode(o: Outgoing): Bytes {
    match o
    case OutGreeting(g) => EncodeGreeting(g)
    case OutCommand(entries) => CommandFrame(entries)
    case OutMessage(frames) => EncodeFrames(frames)
  }

  function EncodeAll(os: seq<Outgoing>): Bytes {
    if os == [] then [] else Encode(os[0]) + EncodeAll(os[1..])
  }

  lemma {:induction false} EncodeAllAppend(os: seq<Outgoing>, more: seq<Outgoing>)
    ensures EncodeAll(os + more) == EncodeAll(os) + EncodeAll(more)
  {
    if os == [] {
      assert os + more == more;
    } else {
      assert (os + more)[1..] == os[1..] + more;
      EncodeAllAppend(os[1..], more);
      Associate(Encode(os[0]), EncodeAll(os[1..]), EncodeAll(more));
    }
  }

  // ----- The parser inverts the encoder -----

  /** The frame fits the receiver's length check, and fits memory at all. */
  ghost predicate Receivable(frame: Bytes, maxChunk: nat) {
    |frame| <= 255 || |frame| + maxChunk <= ISIZE_MAX
  }

  lemma ParseEncodedLength(h: Header, body: Bytes, tail: Bytes, maxChunk: nat)
    requires |body| <= ISIZE_MAX
    requires h.long <==> |body| > 255
    ensures var s := [FlagsOf(h)] + (if h.long then BigEndian(|body|, 8) else [|body| as byte]) + body + tail;
            ParseFrame(s, maxChunk) ==
            if Receivable(body, maxChunk) then Whole(h, body, |s| - |tail|) else Oversized
    ensures var s := [FlagsOf(h)] + (if h.long then BigEndian(|body|, 8) else [|body| as byte]) + body + tail;
            s[|s| - |tail|..] == tail
  {
    var length: Bytes := if h.long then BigEndian(|body|, 8) else [|body| as byte];
    var s := [FlagsOf(h)] + length + body + tail;
    FlagsRoundTrip(h);
    assert s[1..] == length + (body + tail);
    TakeDrop(length, body + tail);
    if h.long {
      U64RoundTrip(|body|);
    }
    assert LengthOf(h, s[1..]) == |body|;
    assert s[1 + |length|..1 + |length| + |body|] == body;
  }

  lemma NextOfEncodedFrame(frame: Bytes, more: bool, tail: Bytes, parts: seq<Bytes>, maxChunk: nat)
    requires |frame| <= ISIZE_MAX
    ensures NextFrame(EncodeFrame(frame, more) + tail, parts, maxChunk) ==
            if !Receivable(frame, maxChunk) then Stop(Failed(FrameLengthExceedsCapacity))
            else if more then Take([], parts + [frame], tail)
            else Take([MessageItem(parts + [frame])], [], tail)
  {
    var h := Header(false, |frame| > 255, more);
    ParseEncodedLength(h, frame, tail, maxChunk);
    var length: Bytes := if h.long then BigEndian(|frame|, 8) else [|frame| as byte];
    assert EncodeFrame(frame, more) + tail == [FlagsOf(h)] + length + frame + tail;
  }

  lemma ParseEncodedFrame(frame: Bytes, more: bool, tail: Bytes, parts: seq<Bytes>, maxChunk: nat)
    requires |frame| <= ISIZE_MAX && Receivable(frame, maxChunk)
    ensures ParseStream(EncodeFrame(frame, more) + tail, parts, maxChunk) ==
            if more then ParseStream(tail, parts + [frame], maxChunk)
            else Prepend([MessageItem(parts + [frame])], ParseStream(tail, [], maxChunk))
  {
    NextOfEncodedFrame(frame, more, tail, parts, maxChunk);
  }

  lemma CommandFrameLayout(entries: seq<Property>, tail: Bytes)
    ensures var body := PrintCommand(entries);
            CommandFrame(entries) + tail ==
            [FlagsOf(Header(true, |body| > 255, false))]
            + (if |body| > 255 then BigEndian(|body|, 8) else [|body| as byte]) + body + tail
  {
    var body := PrintCommand(entries);
    assert FlagsOf(Header(true, |body| > 255, false)) == if |body| > 255 then 0x06 else 0x04;
  }

  lemma NextOfEncodedCommand(entries: seq<Property>, tail: Bytes, parts: seq<Bytes>, maxChunk: nat)
    requires AllPrintable(entries)
    requires |PrintCommand(entries)| <= ISIZE_MAX && Receivable(PrintCommand(entries), maxChunk)
    ensures NextFrame(CommandFrame(entries) + tail, parts, maxChunk)
         == Take([CommandItem(InsertAll(map[], entries))], parts, tail)
  {
    var body := PrintCommand(entries);
    CommandFrameLayout(entries, tail);
    ParseEncodedLength(Header(true, |body| > 255, false), body, tail, maxChunk);
    PrintedCommandParses(entries);
  }

  lemma EncodeFramesHead(frames: seq<Bytes>, tail: Bytes)
    requires frames != []
    ensures EncodeFrames(frames) + tail
         == EncodeFrame(frames[0], |frames| > 1) + (EncodeFrames(frames[1..]) + tail)
  {
  }

  lemma {:induction false} ParseEncodedFrames(frames: seq<Bytes>, tail: Bytes, parts: seq<Bytes>, maxChunk: nat)
    requires frames != []
    requires forall i :: 0 <= i < |frames| ==> |frames[i]| <= ISIZE_MAX && Receivable(frames[i], maxChunk)
    ensures ParseStream(EncodeFrames(frames) + tail, parts, maxChunk) ==
            Prepend([MessageItem(parts + frames)], ParseStream(tail, [], maxChunk))
    decreases |frames|
  {
    hide ParseStream, EncodeFrame, Receivable;
    var first, others := frames[0], frames[1..];
    var rest := EncodeFrames(others) + tail;
    EncodeFramesHead(frames, tail);
    ParseEncodedFrame(first, |frames| > 1, rest, parts, maxChunk);
    if others == [] {
      assert rest == tail;
      assert frames == [first];
    } else {
      ParseEncodedFrames(others, tail, parts + [first], maxChunk);
      assert parts + [first] + others == parts + frames;
    }
  }

  /** What the receiver must be able to take for a sent item to arrive. */
  ghost predicate Sendable(o: Outgoing, maxChunk: nat) {
    match o
    case OutGreeting(_) => false
    case OutCommand(entries) =>
      AllPrintable(entries) && |PrintCommand(entries)| <= ISIZE_MAX && Receivable(PrintCommand(entries), maxChunk)
    case OutMessage(frames) =>
      frames != [] && forall i :: 0 <= i < |frames| ==> |frames[i]| <= ISIZE_MAX && Receivable(frames[i], maxChunk)
  }

  function Arrives(o: Outgoing): Item {
    match o
    case OutGreeting(g) => GreetingItem(g)
    case OutCommand(entries) => CommandItem(InsertAll(map[], entries))
    case OutMessage(frames) => MessageItem(frames)
  }

  function ArriveAll(os: seq<Outgoing>): seq<Item> {
    seq(|os|, i requires 0 <= i < |os| => Arrives(os[i]))
  }

  lemma ParseEncodedItem(o: Outgoing, tail: Bytes, maxChunk: nat)
    requires Sendable(o, maxChunk)
    ensures ParseStream(Encode(o) + tail, [], maxChunk) == Prepend([Arrives(o)], ParseStream(tail, [], maxChunk))
  {
    match o {
      case OutCommand(entries) => NextOfEncodedCommand(entries, tail, [], maxChunk);
      case OutMessage(frames) =>
        ParseEncodedFrames(frames, tail, [], maxChunk);
        assert [] + frames == frames;
    }
  }

  lemma PrependTwice(first: seq<Item>, second: seq<Item>, p: Parse)
    ensures Prepend(first, Prepend(second, p)) == Prepend(first + second, p)
  {
    assert first + (second + p.items) == first + second + p.items;
  }

  /** Parsing what was encoded gives exactly what was sent, in order, with nothing left over. */
  lemma {:induction false} ParseInvertsEncode(os: seq<Outgoing>, tail: Bytes, maxChunk: nat)
    requires forall i :: 0 <= i < |os| ==> Sendable(os[i], maxChunk)
    ensures ParseStream(EncodeAll(os) + tail, [], maxChunk) ==
            Prepend(ArriveAll(os), ParseStream(tail, [], maxChunk))
    decreases |os|
  {
    hide ParseStream, Encode, Sendable, Arrives;
    if os == [] {
      assert EncodeAll(os) + tail == tail;
    } else {
      var rest := EncodeAll(os[1..]) + tail;
      Associate(Encode(os[0]), EncodeAll(os[1..]), tail);
      ParseEncodedItem(os[0], rest, maxChunk);
      ParseInvertsEncode(os[1..], tail, maxChunk);
      PrependTwice([Arrives(os[0])], ArriveAll(os[1..]), ParseStream(tail, [], maxChunk));
      assert ArriveAll(os) == [Arrives(os[0])] + ArriveAll(os[1..]);
    }
  }

  /** A message that fits memory arrives exactly when every frame passes the length check. */
  lemma MessageArrivesIffReceivable(frames: seq<Bytes>, maxChunk: nat)
    requires frames != [] && forall i :: 0 <= i < |frames| ==> |frames[i]| <= ISIZE_MAX
    ensures ParseStream(EncodeFrames(frames), [], maxChunk) == Parse([MessageItem(frames)], Leftover([], []))
       <==> forall i :: 0 <= i < |frames| ==> Receivable(frames[i], maxChunk)
  {
    assert EncodeFrames(frames) + [] == EncodeFrames(frames);
    if forall i :: 0 <= i < |frames| ==> Receivable(frames[i], maxChunk) {
      ParseEncodedFrames(frames, [], [], maxChunk);
      assert [] + frames == frames;
    } else {
      UnreceivableFrameFails(frames, [], [], maxChunk);
    }
  }

  lemma {:induction false} UnreceivableFrameFails(frames: seq<Bytes>, tail: Bytes, parts: seq<Bytes>, maxChunk: nat)
    requires forall i :: 0 <= i < |frames| ==> |frames[i]| <= ISIZE_MAX
    requires exists i :: 0 <= i < |frames| && !Receivable(frames[i], maxChunk)
    ensures ParseStream(EncodeFrames(frames) + tail, parts, maxChunk) ==
            Parse([], Failed(FrameLengthExceedsCapacity))
    decreases |frames|
  {
    var first, others := frames[0], frames[1..];
    EncodeFramesHead(frames, tail);
    NextOfEncodedFrame(first, |frames| > 1, EncodeFrames(others) + tail, parts, maxChunk);
    if Receivable(first, maxChunk) {
      var i :| 0 <= i < |frames| && !Receivable(frames[i], maxChunk);
      assert others[i - 1] == frames[i];
      UnreceivableFrameFails(others, tail, parts + [first], maxChunk);
    }
  }
}
