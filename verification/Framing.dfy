/** Cutting a byte stream into length-prefixed records, incrementally and as a whole. */
module Framing {
  import opened Common

  const HEADER_SIZE := 8
  const READ_SIZE := 4096
  const MAX_EVENT_SIZE := 4096

  datatype DecodeError =
    | InputTooLarge(size: nat)
    | LengthTooSmall(eventType: nat, length: nat)
    | LengthTooLarge(eventType: nat, length: nat)
    | KnownEventTooShort(eventType: nat, size: nat, minimum: nat)
    | NonZeroReserved(eventType: nat, value: nat)
    | UnknownGrantState(state: nat)
    | InvalidCecTransmit(field: string)
    | Truncated(buffered: nat, expected: Option<nat>)

  /** How a header gives the length of its record, and how a complete record is read. */
  datatype Codec<!E> = Codec(
    declared: seq<byte> -> nat,
    length: seq<byte> -> Result<nat, DecodeError>,
    record: seq<byte> -> Result<E, DecodeError>)
  {
    ghost predicate Bounded() {
      forall h :: length(h).Ok? ==> HEADER_SIZE <= length(h).value <= MAX_EVENT_SIZE
    }
  }

  function Concat(parts: seq<seq<byte>>): seq<byte> {
    if parts == [] then [] else Concat(parts[..|parts| - 1]) + parts[|parts| - 1]
  }

  // ----- The stream as a whole -----

  datatype Parse<E> = Parse(events: seq<E>, rest: seq<byte>, error: Option<DecodeError>)

  /** What the front of a stream holds: too few bytes, a bad header or record, or a record to take off. */
  datatype Front<E> = Partial | Bad(error: DecodeError) | Record(size: nat, event: E)

  ghost function FrontOf<E>(codec: Codec<E>, bytes: seq<byte>): (f: Front<E>)
    requires codec.Bounded()
    ensures f.Record? ==> HEADER_SIZE <= f.size <= |bytes| && f.size <= MAX_EVENT_SIZE
  {
    if |bytes| < HEADER_SIZE then Partial
    else
      match codec.length(bytes[..HEADER_SIZE])
      case Err(e) => Bad(e)
      case Ok(n) =>
        if |bytes| < n then Partial
        else match codec.record(bytes[..n])
             case Err(e) => Bad(e)
             case Ok(event) => Record(n, event)
  }

  ghost function ParseAll<E>(codec: Codec<E>, bytes: seq<byte>): Parse<E>
    requires codec.Bounded()
    decreases |bytes|
  {
    match FrontOf(codec, bytes)
    case Partial => Parse([], bytes, None)
    case Bad(e) => Parse([], bytes, Some(e))
    case Record(n, event) =>
      var tail := ParseAll(codec, bytes[n..]);
      Parse([event] + tail.events, tail.rest, tail.error)
  }

  /** The first record that decides the front of a stream decides it whatever follows. */
  lemma FrontStable<E>(codec: Codec<E>, bytes: seq<byte>, more: seq<byte>)
    requires codec.Bounded() && !FrontOf(codec, bytes).Partial?
    ensures FrontOf(codec, bytes + more) == FrontOf(codec, bytes)
  {
    assert (bytes + more)[..HEADER_SIZE] == bytes[..HEADER_SIZE];
    var n := codec.length(bytes[..HEADER_SIZE]);
    if n.Ok? {
      assert (bytes + more)[..n.value] == bytes[..n.value];
    }
  }

  /** Parsing resumes from what an error-free parse left over; an error is final. */
  lemma {:induction false} ParseResumes<E>(codec: Codec<E>, bytes: seq<byte>, more: seq<byte>)
    requires codec.Bounded()
    ensures var p, whole := ParseAll(codec, bytes), ParseAll(codec, bytes + more);
            if p.error.Some? then whole.error == p.error && whole.events == p.events && whole.rest == p.rest + more
            else var q := ParseAll(codec, p.rest + more);
                 whole == Parse(p.events + q.events, q.rest, q.error)
    decreases |bytes|
  {
    var p, f := ParseAll(codec, bytes), FrontOf(codec, bytes);
    match f
    case Partial =>
      var q := ParseAll(codec, bytes + more);
      assert [] + q.events == q.events;
    case Bad(_) =>
      FrontStable(codec, bytes, more);
    case Record(n, event) =>
      FrontStable(codec, bytes, more);
      assert (bytes + more)[n..] == bytes[n..] + more;
      ParseResumes(codec, bytes[n..], more);
      var tail := ParseAll(codec, bytes[n..]);
      if p.error.None? {
        var q := ParseAll(codec, p.rest + more);
        assert [event] + (tail.events + q.events) == [event] + tail.events + q.events;
      }
  }

  lemma {:induction false} ParseRest<E>(codec: Codec<E>, bytes: seq<byte>)
    requires codec.Bounded()
    ensures var p := ParseAll(codec, bytes);
            FrontOf(codec, p.rest) == if p.error.Some? then Bad(p.error.value) else Partial
    decreases |bytes|
  {
    var f := FrontOf(codec, bytes);
    if f.Record? { ParseRest(codec, bytes[f.size..]); }
  }

  // ----- The incremental decoder -----

  /** The bytes of `rest` a decoder holds on to: all of an incomplete record, or a bad header or record and no more. */
  ghost function Held<E>(codec: Codec<E>, rest: seq<byte>): seq<byte>
    requires codec.Bounded()
  {
    if FrontOf(codec, rest).Partial? then rest
    else
      match codec.length(rest[..HEADER_SIZE])
      case Err(_) => rest[..HEADER_SIZE]
      case Ok(n) => if n <= |rest| then rest[..n] else rest
  }

  /** Nothing in the carry is still to be decoded: it is incomplete, or it is exactly a bad header or record. */
  ghost predicate Settled<E>(codec: Codec<E>, carry: seq<byte>)
    requires codec.Bounded()
  {
    !FrontOf(codec, carry).Record? && Held(codec, carry) == carry
  }

  /** The carry and the result of one push. */
  ghost function Pushed<E>(codec: Codec<E>, carry: seq<byte>, bytes: seq<byte>): (seq<byte>, Result<seq<E>,
      DecodeError>)
    requires codec.Bounded()
  {
    if |bytes| > READ_SIZE then (carry, Err(InputTooLarge(|bytes|)))
    else if bytes == [] then (carry, Ok([]))
    else
      var p := ParseAll(codec, carry + bytes);
      (Held(codec, p.rest), if p.error.Some? then Err(p.error.value) else Ok(p.events))
  }

  lemma HeldSettled<E>(codec: Codec<E>, rest: seq<byte>)
    requires codec.Bounded() && !FrontOf(codec, rest).Record?
    ensures Settled(codec, Held(codec, rest)) && FrontOf(codec, Held(codec, rest)) == FrontOf(codec, rest)
    ensures |Held(codec, rest)| <= MAX_EVENT_SIZE
  {
    var held := Held(codec, rest);
    if !FrontOf(codec, rest).Partial? {
      assert held[..HEADER_SIZE] == rest[..HEADER_SIZE];
      var n := codec.length(rest[..HEADER_SIZE]);
      if n.Ok? { assert held[..n.value] == rest[..n.value]; }
    }
  }

  /** The whole parse, once the first events are out and the rest is still to come. */
  ghost predicate Resumed<E>(whole: Parse<E>, events: seq<E>, remaining: Parse<E>) {
    whole == Parse(events + remaining.events, remaining.rest, remaining.error)
  }

  lemma TakeRecord<E>(codec: Codec<E>, whole: seq<byte>, events: seq<E>, stream: seq<byte>)
    requires codec.Bounded() && FrontOf(codec, stream).Record?
    requires Resumed(ParseAll(codec, whole), events, ParseAll(codec, stream))
    ensures var f := FrontOf(codec, stream);
            Resumed(ParseAll(codec, whole), events + [f.event], ParseAll(codec, stream[f.size..]))
  {
    var f := FrontOf(codec, stream);
    var tail := ParseAll(codec, stream[f.size..]);
    assert events + ([f.event] + tail.events) == events + [f.event] + tail.events;
  }

  lemma PushEnds<E>(codec: Codec<E>, start: seq<byte>, bytes: seq<byte>, events: seq<E>, stream: seq<byte>)
    requires codec.Bounded() && 0 < |bytes| <= READ_SIZE && !FrontOf(codec, stream).Record?
    requires Resumed(ParseAll(codec, start + bytes), events, ParseAll(codec, stream))
    ensures var f := FrontOf(codec, stream);
            Pushed(codec, start, bytes) == (Held(codec, stream), if f.Bad? then Err(f.error) else Ok(events))
  {
    assert events + [] == events;
  }

  class EventDecoder<!E> {
    const codec: Codec<E>
    var carry: seq<byte>

    ghost predicate Valid()
      reads this
    {
      codec.Bounded() && Settled(codec, carry)
    }

    constructor (codec: Codec<E>)
      requires codec.Bounded()
      ensures Valid() && this.codec == codec && carry == []
    {
      this.codec := codec;
      carry := [];
    }

    /** Moves bytes from the input until the carry holds `size` bytes or the input is used up. */
    method Fill(size: nat, input: seq<byte>) returns (remaining: seq<byte>)
      requires |carry| <= size
      modifies this
      ensures carry + remaining == old(carry) + input
      ensures |carry| == Min(size, |old(carry) + input|)
      ensures |remaining| <= |input|
    {
      var count := Min(size - |carry|, |input|);
      carry := carry + input[..count];
      remaining := input[count..];
      assert input == input[..count] + input[count..];
    }

    /** One turn of the loop in `push`: completes the header, then the record, then decodes it. */
    method Turn(input: seq<byte>) returns (front: Front<E>, remaining: seq<byte>)
      requires Valid() && input != []
      modifies this
      ensures front == FrontOf(codec, old(carry) + input)
      ensures front.Partial? ==> remaining == [] && carry == old(carry) + input
      ensures front.Bad? ==> carry == Held(codec, old(carry) + input)
      ensures front.Record? ==> carry == [] && remaining == (old(carry) + input)[front.size..] && |remaining| < |input|
    {
      ghost var stream := carry + input;
      if !FrontOf(codec, carry).Partial? { FrontStable(codec, carry, input); }
      remaining := input;
      if |carry| < HEADER_SIZE {
        remaining := Fill(HEADER_SIZE, remaining);
        if |carry| < HEADER_SIZE {
          return Partial, remaining;
        }
      }
      assert carry[..HEADER_SIZE] == stream[..HEADER_SIZE];
      var length := codec.length(carry[..HEADER_SIZE]);
      if length.Err? {
        assert old(carry)[..] == old(carry);
        return Bad(length.error), remaining;
      }
      remaining := Fill(length.value, remaining);
      if |carry| < length.value {
        return Partial, remaining;
      }
      assert carry == stream[..length.value] && remaining == stream[length.value..];
      var record := codec.record(carry);
      if record.Err? {
        return Bad(record.error), remaining;
      }
      carry := [];
      front := Record(length.value, record.value);
    }

    method Push(bytes: seq<byte>) returns (r: Result<seq<E>, DecodeError>)
      requires Valid()
      modifies this
      ensures Valid()
      ensures (carry, r) == Pushed(codec, old(carry), bytes)
      ensures |carry| <= MAX_EVENT_SIZE
    {
      HeldSettled(codec, carry);
      if |bytes| > READ_SIZE {
        return Err(InputTooLarge(|bytes|));
      }
      var input, events := bytes, [];
      ghost var whole := old(carry) + bytes;
      while input != []
        invariant Valid() && |carry| <= MAX_EVENT_SIZE
        invariant input == bytes ==> carry == old(carry) && events == []
        invariant input == [] && bytes != [] ==> FrontOf(codec, carry).Partial?
        invariant Resumed(ParseAll(codec, whole), events, ParseAll(codec, carry + input))
        decreases |input|
      {
        ghost var stream := carry + input;
        var front;
        front, input := Turn(input);
        match front {
          case Partial =>
            HeldSettled(codec, stream);
            assert carry + input == stream;
          case Bad(error) =>
            HeldSettled(codec, stream);
            PushEnds(codec, old(carry), bytes, events, stream);
            return Err(error);
          case Record(_, event) =>
            TakeRecord(codec, whole, events, stream);
            assert carry + input == stream[front.size..];
            events := events + [event];
        }
      }
      assert carry + input == carry;
      if bytes != [] { PushEnds(codec, old(carry), bytes, events, carry); }
      r := Ok(events);
    }

    /** Whether the stream may end here. */
    method Finish() returns (r: Option<DecodeError>)
      ensures r.None? <==> carry == []
      ensures r.Some? ==>
                r == Some(Truncated(|carry|, if |carry| < HEADER_SIZE then None
                    else Some(codec.declared(carry[..HEADER_SIZE]))))
    {
      if carry == [] {
        return None;
      }
      r := Some(Truncated(|carry|, if |carry| >= HEADER_SIZE then Some(codec.declared(carry[..HEADER_SIZE]))
          else None));
    }
  }

  // ----- Any chunking -----

  /** A decoder that has been fed some chunks: its carry, the events of its successful pushes, its first error. */
  datatype Session<E> = Session(carry: seq<byte>, events: seq<E>, error: Option<DecodeError>)

  ghost function Feed<E>(codec: Codec<E>, chunks: seq<seq<byte>>): Session<E>
    requires codec.Bounded()
  {
    if chunks == [] then Session([], [], None)
    else
      var before := Feed(codec, chunks[..|chunks| - 1]);
      var (carry, r) := Pushed(codec, before.carry, chunks[|chunks| - 1]);
      match r
      case Ok(events) => Session(carry, before.events + events, before.error)
      case Err(e) => Session(carry, before.events, if before.error.Some? then before.error else Some(e))
  }

  ghost predicate InSize(chunks: seq<seq<byte>>) {
    forall i :: 0 <= i < |chunks| ==> |chunks[i]| <= READ_SIZE
  }

  /** What a session knows of the stream it was fed. */
  ghost predicate Tracks<E>(codec: Codec<E>, session: Session<E>, stream: seq<byte>)
    requires codec.Bounded()
  {
    var p := ParseAll(codec, stream);
    && Settled(codec, session.carry)
    && session.error == p.error
    && (p.error.None? ==> session.events == p.events && session.carry == p.rest)
    && (p.error.Some? ==> session.events <= p.events && FrontOf(codec, session.carry) == Bad(p.error.value))
  }

  /** The error of a bad carry comes back from every later nonempty push, and the carry stays. */
  lemma ErrorRepeats<E>(codec: Codec<E>, carry: seq<byte>, bytes: seq<byte>)
    requires codec.Bounded() && Settled(codec, carry) && FrontOf(codec, carry).Bad?
    requires 0 < |bytes| <= READ_SIZE
    ensures Pushed(codec, carry, bytes) == (carry, Err(FrontOf(codec, carry).error))
  {
    FrontStable(codec, carry, bytes);
    var stream := carry + bytes;
    assert stream[..HEADER_SIZE] == carry[..HEADER_SIZE];
    assert stream[..|carry|] == carry;
  }

  lemma TracksPush<E>(codec: Codec<E>, session: Session<E>, stream: seq<byte>, bytes: seq<byte>)
    requires codec.Bounded() && Tracks(codec, session, stream) && session.error.None? && 0 < |bytes| <= READ_SIZE
    ensures var (carry, r) := Pushed(codec, session.carry, bytes);
            match r
            case Ok(events) => Tracks(codec, Session(carry, session.events + events, None), stream + bytes)
            case Err(e) => Tracks(codec, Session(carry, session.events, Some(e)), stream + bytes)
  {
    ParseResumes(codec, stream, bytes);
    var q := ParseAll(codec, session.carry + bytes);
    ParseRest(codec, session.carry + bytes);
    HeldSettled(codec, q.rest);
  }

  lemma {:induction false} FeedTracks<E>(codec: Codec<E>, chunks: seq<seq<byte>>)
    requires codec.Bounded() && InSize(chunks)
    ensures Tracks(codec, Feed(codec, chunks), Concat(chunks))
  {
    if chunks == [] {
    } else {
      var front, last := chunks[..|chunks| - 1], chunks[|chunks| - 1];
      FeedTracks(codec, front);
      var before := Feed(codec, front);
      if last == [] {
        assert Concat(chunks) == Concat(front) && before.events + [] == before.events;
      } else if before.error.None? {
        TracksPush(codec, before, Concat(front), last);
      } else {
        ErrorRepeats(codec, before.carry, last);
        ParseResumes(codec, Concat(front), last);
      }
    }
  }

  /**
   * Chunk invariance: however a stream is cut into chunks, the decoder reports exactly the error the stream contains,
   * and without one it yields the events and the carry of a parse of the whole stream.
   */
  lemma ChunkInvariance<E>(codec: Codec<E>, chunks: seq<seq<byte>>)
    requires codec.Bounded() && InSize(chunks)
    ensures var session, p := Feed(codec, chunks), ParseAll(codec, Concat(chunks));
            && session.error == p.error
            && (p.error.None? ==> session.events == p.events && session.carry == p.rest)
            && |session.carry| <= MAX_EVENT_SIZE
            && (p.error.Some? ==> forall bytes :: 0 < |bytes| <= READ_SIZE ==>
                  Pushed(codec, session.carry, bytes) == (session.carry, Err(p.error.value)))
  {
    FeedTracks(codec, chunks);
    var session, p := Feed(codec, chunks), ParseAll(codec, Concat(chunks));
    HeldSettled(codec, session.carry);
    if p.error.Some? {
      forall bytes | 0 < |bytes| <= READ_SIZE
        ensures Pushed(codec, session.carry, bytes) == (session.carry, Err(p.error.value))
      {
        ErrorRepeats(codec, session.carry, bytes);
      }
    }
  }

  // ----- Round trip -----

  /** `bytes` is one record and decodes to `event`. */
  ghost predicate Encodes<E>(codec: Codec<E>, bytes: seq<byte>, event: E) {
    && HEADER_SIZE <= |bytes|
    && codec.length(bytes[..HEADER_SIZE]) == Ok(|bytes|)
    && codec.record(bytes) == Ok(event)
  }

  lemma {:induction false} ParseRecords<E>(codec: Codec<E>, records: seq<seq<byte>>, events: seq<E>)
    requires codec.Bounded() && |records| == |events|
    requires forall i :: 0 <= i < |records| ==> Encodes(codec, records[i], events[i])
    ensures ParseAll(codec, Concat(records)) == Parse(events, [], None)
  {
    if records == [] {
    } else {
      var n := |records| - 1;
      ParseRecords(codec, records[..n], events[..n]);
      ParseResumes(codec, Concat(records[..n]), records[n]);
      assert [] + records[n] == records[n];
      assert records[n][..|records[n]|] == records[n] && records[n][|records[n]|..] == [];
      assert [events[n]] + [] == [events[n]];
      assert events[..n] + [events[n]] == events;
    }
  }

  lemma {:induction false} ConcatCons(first: seq<byte>, parts: seq<seq<byte>>)
    ensures Concat([first] + parts) == first + Concat(parts)
  {
    if parts == [] {
      assert [first] + parts == [first] && [first][..0] == [];
    } else {
      var n := |parts| - 1;
      ConcatCons(first, parts[..n]);
      assert ([first] + parts)[..n + 1] == [first] + parts[..n];
    }
  }

  /** Too few bytes for a header, or for the record its header declares. */
  ghost predicate Incomplete<E>(codec: Codec<E>, rest: seq<byte>) {
    || |rest| < HEADER_SIZE
    || (codec.length(rest[..HEADER_SIZE]).Ok? && codec.length(rest[..HEADER_SIZE]).value > |rest|)
  }

  /** A header without a length, or a complete record that does not decode. */
  ghost predicate Broken<E>(codec: Codec<E>, rest: seq<byte>, error: DecodeError) {
    && |rest| >= HEADER_SIZE
    && match codec.length(rest[..HEADER_SIZE])
       case Err(e) => e == error
       case Ok(n) => n <= |rest| && codec.record(rest[..n]) == Err(error)
  }

  /** A stream is its longest run of records, and what is left is incomplete or broken. */
  ghost predicate Splits<E>(codec: Codec<E>, bytes: seq<byte>, p: Parse<E>, records: seq<seq<byte>>) {
    && bytes == Concat(records) + p.rest && |records| == |p.events|
    && (forall i :: 0 <= i < |records| ==> Encodes(codec, records[i], p.events[i]))
    && if p.error.None? then Incomplete(codec, p.rest) else Broken(codec, p.rest, p.error.value)
  }

  lemma SplitsCons<E>(codec: Codec<E>, record: seq<byte>, event: E, bytes: seq<byte>, p: Parse<E>,
      records: seq<seq<byte>>)
    requires Encodes(codec, record, event) && Splits(codec, bytes, p, records)
    ensures Splits(codec, record + bytes, Parse([event] + p.events, p.rest, p.error), [record] + records)
  {
    var all, events := [record] + records, [event] + p.events;
    ConcatCons(record, records);
    assert record + bytes == Concat(all) + p.rest;
    forall i | 0 <= i < |all| ensures Encodes(codec, all[i], events[i]) {
      if i > 0 { assert all[i] == records[i - 1] && events[i] == p.events[i - 1]; }
    }
  }

  /** The parse of any stream takes off exactly the records it begins with. */
  lemma {:induction false} ParseExactly<E>(codec: Codec<E>, bytes: seq<byte>) returns (records: seq<seq<byte>>)
    requires codec.Bounded()
    ensures Splits(codec, bytes, ParseAll(codec, bytes), records)
    decreases |bytes|
  {
    var f := FrontOf(codec, bytes);
    if f.Record? {
      var record, tail := bytes[..f.size], bytes[f.size..];
      var rest := ParseExactly(codec, tail);
      records := [record] + rest;
      assert record[..HEADER_SIZE] == bytes[..HEADER_SIZE];
      SplitsCons(codec, record, f.event, tail, ParseAll(codec, tail), rest);
      assert record + tail == bytes;
    } else {
      records := [];
      assert Concat([]) + bytes == bytes;
    }
  }

  /** Encoded events come back in order from any chunking of their bytes, and the stream may end there. */
  lemma StreamRoundTrip<E>(codec: Codec<E>, records: seq<seq<byte>>, events: seq<E>, chunks: seq<seq<byte>>)
    requires codec.Bounded() && |records| == |events| && InSize(chunks)
    requires forall i :: 0 <= i < |records| ==> Encodes(codec, records[i], events[i])
    requires Concat(chunks) == Concat(records)
    ensures Feed(codec, chunks) == Session([], events, None)
  {
    ParseRecords(codec, records, events);
    ChunkInvariance(codec, chunks);
  }
}
