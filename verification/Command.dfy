/**
 The READY command: its parser, its printer, and the grammar that both follow.

 A property map is printed in the iteration order of a hash map, so the printer takes that
 order as a list of entries. Property names are UTF-8 strings, held here as their bytes.
 */
module Command {
  import opened Wrappers
  import opened Sequences
  import opened Bytes
  import opened Utf8

  datatype CodecError =
    | MissingCommandLength
    | CommandNameExceedsFrame
    | UnknownCommand
    | PropertyNameExceedsFrame
    | InvalidPropertyIdentifier
    | MissingPropertyValueLength
    | PropertyValueExceedsFrame
    | BadFirstByteOfGreeting
    | FailedToParseGreeting
    | FailedToParseMechanism
    | FrameLengthExceedsCapacity

  datatype Property = Property(name: Bytes, value: Bytes)

  type Properties = map<Bytes, Bytes>

  const READY: Bytes := [82, 69, 65, 68, 89]

  /** Inserts the entries in order; a later entry with the same name wins. */
  function InsertAll(properties: Properties, entries: seq<Property>): Properties
    decreases |entries|
  {
    if entries == [] then properties
    else InsertAll(properties[entries[0].name := entries[0].value], entries[1..])
  }

  // ----- Parsing -----

  /** The first property of a non-empty buffer, and the bytes after it. */
  function NextProperty(buf: Bytes): (r: Result<(Property, Bytes), CodecError>)
    requires buf != []
    ensures r.Ok? ==> |r.value.1| < |buf|
  {
    var nameLen, rest := buf[0] as nat, buf[1..];
    if |rest| < nameLen then Err(PropertyNameExceedsFrame) else
    var name, rest := rest[..nameLen], rest[nameLen..];
    if !ValidUtf8(name) then Err(InvalidPropertyIdentifier)
    else if |rest| < 4 then Err(MissingPropertyValueLength) else
    var valueLen, rest := FromBigEndian(rest[..4]), rest[4..];
    if |rest| < valueLen then Err(PropertyValueExceedsFrame)
    else Ok((Property(name, rest[..valueLen]), rest[valueLen..]))
  }

  function ParseProperties(buf: Bytes, properties: Properties): Result<Properties, CodecError>
    decreases |buf|
  {
    if buf == [] then Ok(properties) else
    match NextProperty(buf)
    case Err(e) => Err(e)
    case Ok((p, rest)) => ParseProperties(rest, properties[p.name := p.value])
  }

  function ParseCommand(frame: Bytes): Result<Properties, CodecError>
  {
    if frame == [] then Err(MissingCommandLength) else
    var nameLen, rest := frame[0] as nat, frame[1..];
    if |rest| < nameLen then Err(CommandNameExceedsFrame)
    else if rest[..nameLen] != READY then Err(UnknownCommand)
    else ParseProperties(rest[nameLen..], map[])
  }

  /** The parser's loop. Every split it makes is within the frame. */
  method ParseReady(frame: Bytes) returns (result: Result<Properties, CodecError>)
    ensures result == ParseCommand(frame)
  {
    var buf := frame;
    if |buf| == 0 {
      return Err(MissingCommandLength);
    }
    var commandLen := buf[0] as nat;
    buf := buf[1..];
    if |buf| < commandLen {
      return Err(CommandNameExceedsFrame);
    }
    if buf[..commandLen] != READY {
      return Err(UnknownCommand);
    }
    buf := buf[commandLen..];
    var properties: Properties := map[];

    while |buf| > 0
      invariant ParseCommand(frame) == ParseProperties(buf, properties)
      decreases |buf|
    {
      var propLen := buf[0] as nat;
      buf := buf[1..];
      if |buf| < propLen {
        return Err(PropertyNameExceedsFrame);
      }
      var property := buf[..propLen];
      buf := buf[propLen..];
      if !ValidUtf8(property) {
        return Err(InvalidPropertyIdentifier);
      }
      if |buf| < 4 {
        return Err(MissingPropertyValueLength);
      }
      var propValLen := FromBigEndian(buf[..4]);
      buf := buf[4..];
      if |buf| < propValLen {
        return Err(PropertyValueExceedsFrame);
      }
      properties := properties[property := buf[..propValLen]];
      buf := buf[propValLen..];
    }
    return Ok(properties);
  }

  // ----- Printing -----

  /** One entry on the wire. The length casts `as u8` and `as u32` keep the low bits only. */
  function PrintProperty(p: Property): Bytes
  {
    [(|p.name| % 256) as byte] + p.name + BigEndian(|p.value| % 0x1_0000_0000, 4) + p.value
  }

  function PrintProperties(entries: seq<Property>): Bytes
  {
    if entries == [] then [] else PrintProperty(entries[0]) + PrintProperties(entries[1..])
  }

  function PrintCommand(entries: seq<Property>): Bytes
  {
    [|READY| as byte] + READY + PrintProperties(entries)
  }

  /** A frame header followed by the body: long form above 255 bytes, command bit set. */
  function CommandFrame(entries: seq<Property>): Bytes
  {
    CommandHeader(|PrintCommand(entries)|) + PrintCommand(entries)
  }

  lemma {:induction false} PrintPropertiesAppend(entries: seq<Property>, last: Property)
    ensures PrintProperties(entries + [last]) == PrintProperties(entries) + PrintProperty(last)
  {
    if entries == [] {
      assert entries + [last] == [last];
    } else {
      PrintPropertiesAppend(entries[1..], last);
      assert (entries + [last])[1..] == entries[1..] + [last];
      Associate(PrintProperty(entries[0]), PrintProperties(entries[1..]), PrintProperty(last));
    }
  }

  lemma PrintPrefix(entries: seq<Property>, i: nat)
    requires i < |entries|
    ensures PrintProperties(entries[..i + 1]) == PrintProperties(entries[..i]) + PrintProperty(entries[i])
  {
    assert entries[..i + 1] == entries[..i] + [entries[i]];
    PrintPropertiesAppend(entries[..i], entries[i]);
  }

  /** The printer's first pass. */
  method MessageLength(entries: seq<Property>) returns (messageLen: nat)
    ensures messageLen == |PrintCommand(entries)|
  {
    messageLen := |READY| + 1;
    for i := 0 to |entries|
      invariant messageLen == |READY| + 1 + |PrintProperties(entries[..i])|
    {
      PrintPrefix(entries, i);
      messageLen := messageLen + |entries[i].name| + 1;
      messageLen := messageLen + |entries[i].value| + 4;
    }
    assert entries[..|entries|] == entries;
  }

  /** One turn of the printer's second pass. */
  method PutProperty(start: Bytes, p: Property) returns (bytes: Bytes)
    ensures bytes == start + PrintProperty(p)
  {
    bytes := start + [(|p.name| % 256) as byte];
    bytes := bytes + p.name;
    bytes := bytes + BigEndian(|p.value| % 0x1_0000_0000, 4);
    bytes := bytes + p.value;
  }

  /** The printer's second pass. */
  method PutProperties(start: Bytes, entries: seq<Property>) returns (bytes: Bytes)
    ensures bytes == start + PrintProperties(entries)
  {
    bytes := start;
    for i := 0 to |entries|
      invariant bytes == start + PrintProperties(entries[..i])
    {
      PrintPrefix(entries, i);
      Associate(start, PrintProperties(entries[..i]), PrintProperty(entries[i]));
      bytes := PutProperty(bytes, entries[i]);
    }
    assert entries[..|entries|] == entries;
  }

  /** The frame header for a command of `messageLen` bytes. */
  function CommandHeader(messageLen: nat): Bytes
  {
    if messageLen > 255 then [0x06] + BigEndian(messageLen, 8) else [0x04, messageLen as byte]
  }

  lemma CommandFrameParts(header: Bytes, entries: seq<Property>)
    ensures header + [|READY| as byte] + READY + PrintProperties(entries) == header + PrintCommand(entries)
  {
  }

  method PrintReady(entries: seq<Property>) returns (bytes: Bytes)
    ensures bytes == CommandFrame(entries)
  {
    var messageLen := MessageLength(entries);
    bytes := CommandHeader(messageLen);
    CommandFrameParts(bytes, entries);
    bytes := bytes + [|READY| as byte];
    bytes := bytes + READY;
    bytes := PutProperties(bytes, entries);
  }

  // ----- The parser accepts exactly what the printer can print -----

  /** A property whose lengths survive the casts of the printer. */
  ghost predicate Printable(p: Property) {
    |p.name| <= 255 && ValidUtf8(p.name) && |p.value| < 0x1_0000_0000
  }

  ghost predicate AllPrintable(entries: seq<Property>) {
    forall i :: 0 <= i < |entries| ==> Printable(entries[i])
  }

  /** The parser finds each field of a property laid out as the printer does it. */
  lemma NextOfFields(n: byte, name: Bytes, count: Bytes, value: Bytes, tail: Bytes)
    requires n as nat == |name| && ValidUtf8(name)
    requires |count| == 4 && FromBigEndian(count) == |value|
    ensures NextProperty([n] + name + count + value + tail) == Ok((Property(name, value), tail))
  {
    hide ValidUtf8, BigEndian, FromBigEndian;
    var buf := [n] + name + count + value + tail;
    var r1, r2, r3 := name + (count + (value + tail)), count + (value + tail), value + tail;
    assert buf[0] == n && buf[1..] == r1;
    TakeDrop(name, r2);
    TakeDrop(count, r3);
    TakeDrop(value, tail);
  }

  /** For a printable property the length casts change nothing. */
  lemma PrintedAsIs(p: Property)
    requires Printable(p)
    ensures PrintProperty(p) == [|p.name| as byte] + p.name + BigEndian(|p.value|, 4) + p.value
  {
    hide ValidUtf8, BigEndian;
  }

  lemma NextOfPrinted(p: Property, tail: Bytes)
    requires Printable(p)
    ensures NextProperty(PrintProperty(p) + tail) == Ok((p, tail))
  {
    hide ValidUtf8, BigEndian, FromBigEndian, NextProperty, PrintProperty;
    U32RoundTrip(|p.value|);
    PrintedAsIs(p);
    NextOfFields(|p.name| as byte, p.name, BigEndian(|p.value|, 4), p.value, tail);
  }

  lemma {:induction false} ParsePrintedProperties(entries: seq<Property>, properties: Properties)
    requires AllPrintable(entries)
    ensures ParseProperties(PrintProperties(entries), properties) == Ok(InsertAll(properties, entries))
    decreases |entries|
  {
    if entries != [] {
      NextOfPrinted(entries[0], PrintProperties(entries[1..]));
      ParsePrintedProperties(entries[1..], properties[entries[0].name := entries[0].value]);
    }
  }

  /** A later entry with the same name replaces an earlier one. */
  lemma {:induction false} LaterEntryWins(properties: Properties, entries: seq<Property>, last: Property)
    ensures InsertAll(properties, entries + [last]) == InsertAll(properties, entries)[last.name := last.value]
    decreases |entries|
  {
    if entries == [] {
      assert entries + [last] == [last];
      assert [last][1..] == [];
    } else {
      assert (entries + [last])[1..] == entries[1..] + [last];
      LaterEntryWins(properties[entries[0].name := entries[0].value], entries[1..], last);
    }
  }

  // ----- Which error a malformed command gets -----

  /** The first property of `buf` is cut off, or its name is not UTF-8; positions count from its start. */
  ghost predicate Spoilt(buf: Bytes, e: CodecError) {
    && buf != []
    && var nameEnd := 1 + buf[0] as nat;
       var named := nameEnd <= |buf| && ValidUtf8(buf[1..nameEnd]);
       match e
       case PropertyNameExceedsFrame => |buf| < nameEnd
       case InvalidPropertyIdentifier => nameEnd <= |buf| && !ValidUtf8(buf[1..nameEnd])
       case MissingPropertyValueLength => named && |buf| < nameEnd + 4
       case PropertyValueExceedsFrame =>
         named && nameEnd + 4 <= |buf| && |buf| < nameEnd + 4 + FromBigEndian(buf[nameEnd..nameEnd + 4])
       case _ => false
  }

  lemma SpoiltIffError(buf: Bytes, e: CodecError)
    requires buf != []
    ensures NextProperty(buf) == Err(e) <==> Spoilt(buf, e)
  {
    hide ValidUtf8, FromBigEndian;
    var nameEnd := 1 + buf[0] as nat;
    if nameEnd <= |buf| {
      var rest := buf[1..][nameEnd - 1..];
      assert buf[1..][..nameEnd - 1] == buf[1..nameEnd];
      assert rest == buf[nameEnd..];
      if |rest| >= 4 {
        assert rest[..4] == buf[nameEnd..nameEnd + 4];
      }
    }
  }

  lemma {:induction false} ParseBehindPrinted(entries: seq<Property>, bad: Bytes, properties: Properties)
    requires AllPrintable(entries)
    ensures ParseProperties(PrintProperties(entries) + bad, properties)
         == ParseProperties(bad, InsertAll(properties, entries))
    decreases |entries|
  {
    if entries == [] {
      assert PrintProperties(entries) + bad == bad;
    } else {
      Associate(PrintProperty(entries[0]), PrintProperties(entries[1..]), bad);
      NextOfPrinted(entries[0], PrintProperties(entries[1..]) + bad);
      ParseBehindPrinted(entries[1..], bad, properties[entries[0].name := entries[0].value]);
    }
  }

  lemma {:induction false} FailedBehindPrinted(buf: Bytes, properties: Properties)
    returns (entries: seq<Property>, bad: Bytes)
    requires ParseProperties(buf, properties).Err?
    ensures AllPrintable(entries) && buf == PrintProperties(entries) + bad
    ensures Spoilt(bad, ParseProperties(buf, properties).error)
    decreases |buf|
  {
    hide Spoilt;
    SpoiltIffError(buf, ParseProperties(buf, properties).error);
    if NextProperty(buf).Err? {
      entries, bad := [], buf;
    } else {
      NextIsPrinted(buf);
      var (p, tail) := NextProperty(buf).value;
      var rest;
      rest, bad := FailedBehindPrinted(tail, properties[p.name := p.value]);
      entries := [p] + rest;
      assert entries[1..] == rest;
      Associate(PrintProperty(p), PrintProperties(rest), bad);
    }
  }

  /** Properties are refused exactly when some good ones are followed by a bad one, which names the error. */
  lemma PropertiesFailIff(buf: Bytes, properties: Properties, e: CodecError)
    ensures ParseProperties(buf, properties) == Err(e)
        <==> exists entries, bad :: AllPrintable(entries) && buf == PrintProperties(entries) + bad && Spoilt(bad, e)
  {
    hide Spoilt, AllPrintable;
    if ParseProperties(buf, properties) == Err(e) {
      var entries, bad := FailedBehindPrinted(buf, properties);
    }
    if entries, bad :| AllPrintable(entries) && buf == PrintProperties(entries) + bad && Spoilt(bad, e) {
      ParseBehindPrinted(entries, bad, properties);
      assert bad != [] by {
        SpoiltIsSomething(bad, e);
      }
      SpoiltIffError(bad, e);
    }
  }

  lemma SpoiltIsSomething(bad: Bytes, e: CodecError)
    requires Spoilt(bad, e)
    ensures bad != []
    ensures e in {PropertyNameExceedsFrame, InvalidPropertyIdentifier, MissingPropertyValueLength,
                  PropertyValueExceedsFrame}
  {
  }

  /** The errors of the command's name, which must be READY in ASCII behind its length. */
  lemma CommandFailsIff(frame: Bytes)
    ensures ParseCommand(frame) == Err(MissingCommandLength) <==> frame == []
    ensures ParseCommand(frame) == Err(CommandNameExceedsFrame) <==> frame != [] && |frame| <= frame[0] as nat
    ensures ParseCommand(frame) == Err(UnknownCommand)
        <==> frame != [] && |frame| > frame[0] as nat && frame[1..1 + frame[0] as nat] != [82, 69, 65, 68, 89]
    ensures |frame| >= 6 && frame[..6] == [5, 82, 69, 65, 68, 89] ==>
              ParseCommand(frame) == ParseProperties(frame[6..], map[])
  {
    if frame != [] && |frame| > frame[0] as nat {
      var n := frame[0] as nat;
      assert frame[1..][..n] == frame[1..1 + n] && frame[1..][n..] == frame[1 + n..];
      var r := ParseProperties(frame[1 + n..], map[]);
      if r.Err? {
        var entries, bad := FailedBehindPrinted(frame[1 + n..], map[]);
        SpoiltIsSomething(bad, r.error);
      }
      if |frame| >= 6 && frame[..6] == [5, 82, 69, 65, 68, 89] {
        assert n == 5 by {
          assert frame[0] == frame[..6][0];
        }
        assert frame[1..6] == frame[..6][1..];
      }
    }
  }

  /** Cutting a buffer into fields loses nothing. */
  lemma CutInFields(buf: Bytes, a: nat, b: nat, c: nat)
    requires 1 <= a <= b <= c <= |buf|
    ensures buf == [buf[0]] + buf[1..a] + buf[a..b] + buf[b..c] + buf[c..]
  {
  }

  lemma PrintedFields(n: byte, p: Property, count: Bytes)
    requires n as nat == |p.name| && |count| == 4 && FromBigEndian(count) == |p.value|
    ensures |p.value| < 0x1_0000_0000 && PrintProperty(p) == [n] + p.name + count + p.value
  {
    hide BigEndian, FromBigEndian;
    U32Encodes(count);
  }

  lemma NextIsPrinted(buf: Bytes)
    requires buf != [] && NextProperty(buf).Ok?
    ensures var (p, tail) := NextProperty(buf).value;
            Printable(p) && buf == PrintProperty(p) + tail
  {
    hide ValidUtf8, BigEndian, FromBigEndian;
    var (p, tail) := NextProperty(buf).value;
    var a := 1 + buf[0] as nat;
    var c := a + 4 + |p.value|;
    var r2 := buf[1..][a - 1..];
    assert r2 == buf[a..];
    assert r2[4..] == buf[a + 4..];
    assert p == Property(buf[1..a], buf[a + 4..c]) && tail == buf[c..];
    assert r2[..4] == buf[a..a + 4];
    PrintedFields(buf[0], p, buf[a..a + 4]);
    CutInFields(buf, a, a + 4, c);
  }

  /** Whatever parses is the printed form of some list of printable entries. */
  lemma {:induction false} ParsedPropertiesArePrinted(buf: Bytes, properties: Properties)
    returns (entries: seq<Property>)
    requires ParseProperties(buf, properties).Ok?
    ensures AllPrintable(entries) && buf == PrintProperties(entries)
    ensures ParseProperties(buf, properties) == Ok(InsertAll(properties, entries))
    decreases |buf|
  {
    if buf == [] {
      entries := [];
    } else {
      NextIsPrinted(buf);
      var (p, tail) := NextProperty(buf).value;
      var rest := ParsedPropertiesArePrinted(tail, properties[p.name := p.value]);
      entries := [p] + rest;
      assert entries[1..] == rest;
    }
  }

  lemma PrintedCommandParses(entries: seq<Property>)
    requires AllPrintable(entries)
    ensures ParseCommand(PrintCommand(entries)) == Ok(InsertAll(map[], entries))
  {
    var frame := PrintCommand(entries);
    assert frame[1..] == READY + PrintProperties(entries);
    assert frame[1..][..5] == READY && frame[1..][5..] == PrintProperties(entries);
    ParsePrintedProperties(entries, map[]);
  }

  lemma ParsedCommandIsPrinted(frame: Bytes) returns (entries: seq<Property>)
    requires ParseCommand(frame).Ok?
    ensures AllPrintable(entries) && frame == PrintCommand(entries)
  {
    var rest := frame[1..][frame[0] as nat..];
    entries := ParsedPropertiesArePrinted(rest, map[]);
    assert frame[1..] == READY + rest;
  }

  /**
   The command parser accepts a frame exactly when it is the printed form of some list of
   entries, and then it returns their map.
   */
  lemma ParseAcceptsExactlyPrintedCommands(frame: Bytes)
    ensures ParseCommand(frame).Ok? <==>
            exists entries :: AllPrintable(entries) && frame == PrintCommand(entries)
    ensures forall entries :: AllPrintable(entries) && frame == PrintCommand(entries) ==>
              ParseCommand(frame) == Ok(InsertAll(map[], entries))
  {
    if ParseCommand(frame).Ok? {
      var entries := ParsedCommandIsPrinted(frame);
    }
    forall entries | AllPrintable(entries) && frame == PrintCommand(entries)
      ensures ParseCommand(frame) == Ok(InsertAll(map[], entries))
    {
      PrintedCommandParses(entries);
    }
  }

  // ----- Round trip of a property map -----

  /** `entries` is one iteration order of the map. */
  ghost predicate Lists(entries: seq<Property>, properties: Properties) {
    && (forall i, j :: 0 <= i < j < |entries| ==> entries[i].name != entries[j].name)
    && (forall i :: 0 <= i < |entries| ==>
          entries[i].name in properties && properties[entries[i].name] == entries[i].value)
    && (forall name :: name in properties ==> exists i :: 0 <= i < |entries| && entries[i].name == name)
  }

  /** Every pair of the result was there before or comes from an entry. */
  lemma {:induction false} InsertedPairsComeFromEntries(properties: Properties, entries: seq<Property>, name: Bytes)
    requires name in InsertAll(properties, entries)
    ensures || (name in properties && InsertAll(properties, entries)[name] == properties[name])
            || Property(name, InsertAll(properties, entries)[name]) in entries
    decreases |entries|
  {
    if entries != [] {
      InsertedPairsComeFromEntries(properties[entries[0].name := entries[0].value], entries[1..], name);
    }
  }

  lemma {:induction false} InsertAllOfListing(properties: Properties, entries: seq<Property>, m: Properties)
    requires forall i, j :: 0 <= i < j < |entries| ==> entries[i].name != entries[j].name
    requires forall i :: 0 <= i < |entries| ==>
               entries[i].name in m && m[entries[i].name] == entries[i].value
    requires forall name :: name in properties ==> name in m && properties[name] == m[name]
    requires forall name :: name in m ==>
               name in properties || exists i :: 0 <= i < |entries| && entries[i].name == name
    ensures InsertAll(properties, entries) == m
    decreases |entries|
  {
    if entries == [] {
      assert properties == m;
    } else {
      var tail := entries[1..];
      forall name | name in m
        ensures name in properties || name == entries[0].name || exists i :: 0 <= i < |tail| && tail[i].name == name
      {
        if name !in properties && name != entries[0].name {
          var i :| 0 <= i < |entries| && entries[i].name == name;
          assert tail[i - 1].name == name;
        }
      }
      InsertAllOfListing(properties[entries[0].name := entries[0].value], tail, m);
    }
  }

  /**
   For every property map and every order of printing it, reading the printed command gives the
   map back exactly when each name fits one length byte and each value a 32-bit length.
   */
  lemma CommandRoundTrip(entries: seq<Property>, properties: Properties)
    requires Lists(entries, properties)
    ensures ParseCommand(PrintCommand(entries)) == Ok(properties)
       <==> forall name :: name in properties ==> Printable(Property(name, properties[name]))
  {
    if forall name :: name in properties ==> Printable(Property(name, properties[name])) {
      PrintedCommandParses(entries);
      InsertAllOfListing(map[], entries, properties);
    }
    if ParseCommand(PrintCommand(entries)) == Ok(properties) {
      var others := ParsedCommandIsPrinted(PrintCommand(entries));
      PrintedCommandParses(others);
      forall name | name in properties
        ensures Printable(Property(name, properties[name]))
      {
        InsertedPairsComeFromEntries(map[], others, name);
      }
    }
  }
}
