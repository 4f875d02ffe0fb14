/** The CastKMS event records: their decoding, and an encoder that inverts it. */
module DrmEvents {
  import opened Common
  import opened Framing

  const CAPTURE_EVENT_FRAME := 0x8000_0000
  const CEC_EVENT_TX := 0x8000_0001
  const CAPTURE_EVENT_GRANT_REVOKED := 0x8000_0003
  const CAPTURE_EVENT_GRANT_STATE := 0x8000_0004
  const GRANT_REVOKED_EVENT_SIZE := 24
  const GRANT_STATE_EVENT_SIZE := 32
  const CAPTURE_FRAME_EVENT_SIZE := 112
  const CEC_TRANSMIT_EVENT_SIZE := 72

  // ----- Integers in native (little-endian) byte order -----

  function Bytes(value: nat, width: nat): (b: seq<byte>)
    ensures |b| == width
  {
    if width == 0 then [] else [value % 256] + Bytes(value / 256, width - 1)
  }

  function Value(b: seq<byte>): (v: nat)
    ensures v < Power(256, |b|)
  {
    if b == [] then 0 else b[0] + 256 * Value(b[1..])
  }

  lemma {:induction false} ValueOfBytes(value: nat, width: nat)
    requires value < Power(256, width)
    ensures Value(Bytes(value, width)) == value
  {
    if width == 0 {
    } else {
      ValueOfBytes(value / 256, width - 1);
      assert Bytes(value, width)[1..] == Bytes(value / 256, width - 1);
    }
  }

  lemma Powers()
    ensures Power(256, 1) == 0x100 && Power(256, 2) == 0x1_0000 && Power(256, 4) == 0x1_0000_0000
              && Power(256, 8) == 0x1_0000_0000_0000_0000
  {
    assert Power(256, 2) == 256 * Power(256, 1);
    assert Power(256, 3) == 256 * Power(256, 2);
    assert Power(256, 4) == 256 * Power(256, 3);
    assert Power(256, 5) == 256 * Power(256, 4);
    assert Power(256, 6) == 256 * Power(256, 5);
    assert Power(256, 7) == 256 * Power(256, 6);
  }

  /** Two's complement. */
  function Signed(value: nat, width: nat): int
    requires value < Power(256, width)
  {
    if 2 * value < Power(256, width) then value else value - Power(256, width)
  }

  function Unsigned(value: int, width: nat): (v: nat)
    requires FitsSigned(value, width)
    ensures v < Power(256, width) && Signed(v, width) == value
  {
    if value >= 0 then value else value + Power(256, width)
  }

  predicate FitsSigned(value: int, width: nat) {
    0 <= 2 * value + Power(256, width) < 2 * Power(256, width)
  }

  // ----- Records -----

  datatype GrantState =
    | Pending | Active | SuspendedNoMaster | SuspendedOtherMaster | SuspendedForeignContent | Revoked
  {
    function Code(): nat {
      match this
      case Pending => 0
      case Active => 1
      case SuspendedNoMaster => 2
      case SuspendedOtherMaster => 3
      case SuspendedForeignContent => 4
      case Revoked => 5
    }
  }

  function GrantStateOf(code: nat): (r: Option<GrantState>)
    ensures r.Some? ==> r.value.Code() == code
    ensures r.None? ==> code > 5
  {
    match code
    case 0 => Some(Pending)
    case 1 => Some(Active)
    case 2 => Some(SuspendedNoMaster)
    case 3 => Some(SuspendedOtherMaster)
    case 4 => Some(SuspendedForeignContent)
    case 5 => Some(Revoked)
    case _ => None
  }

  /** The fields of a frame event between the header and the reserved word, in record order. */
  datatype CaptureFrame = CaptureFrame(
    userData: nat, sequence: nat, timestampNs: int, modeGeneration: nat,
    streamId: nat, bufferId: nat, status: int, flags: nat, droppedFrames: nat,
    damageX: int, damageY: int, damageWidth: nat, damageHeight: nat,
    cursorSerial: nat, cursorFlags: nat, cursorX: int, cursorY: int,
    cursorHotspotX: nat, cursorHotspotY: nat, cursorWidth: nat, cursorHeight: nat)

  datatype CecTransmit = CecTransmit(
    transportId: nat, transportGeneration: nat, stateGeneration: nat, cookie: nat,
    connectorId: nat, outputIndex: nat, attempts: byte, signalFreeTime: nat, messageLength: byte, message: seq<byte>)

  datatype Event =
    | FrameEvent(frame: CaptureFrame)
    | CecEvent(transmit: CecTransmit)
    | GrantStateEvent(grantId: nat, state: GrantState, status: int, timestampNs: nat)
    | GrantRevokedEvent(grantId: nat, status: int, timestampNs: nat)
    | UnknownEvent(eventType: nat, length: nat)

  function Slice(bytes: seq<byte>, offset: nat, width: nat): (s: seq<byte>)
    requires offset + width <= |bytes|
    ensures |s| == width
  {
    bytes[offset..offset + width]
  }

  function U(bytes: seq<byte>, offset: nat, width: nat): (v: nat)
    requires offset + width <= |bytes|
    ensures v < Power(256, width)
  {
    Value(Slice(bytes, offset, width))
  }

  function I(bytes: seq<byte>, offset: nat, width: nat): int
    requires offset + width <= |bytes|
  {
    Signed(U(bytes, offset, width), width)
  }

  function DeclaredLength(header: seq<byte>): nat {
    if |header| < 8 then 0 else U(header, 4, 4)
  }

  function ValidateDeclaredLength(header: seq<byte>): (r: Result<nat, DecodeError>)
    ensures r.Ok? <==> HEADER_SIZE <= DeclaredLength(header) <= MAX_EVENT_SIZE
    ensures r.Ok? ==> r.value == DeclaredLength(header)
  {
    if |header| < 8 then Err(LengthTooSmall(0, 0))
    else
      var eventType, length := U(header, 0, 4), U(header, 4, 4);
      if length < HEADER_SIZE then Err(LengthTooSmall(eventType, length))
      else if length > MAX_EVENT_SIZE then Err(LengthTooLarge(eventType, length))
      else Ok(length)
  }

  function DecodeRevoked(bytes: seq<byte>): Result<Event, DecodeError>
    requires |bytes| >= GRANT_REVOKED_EVENT_SIZE
  {
    Ok(GrantRevokedEvent(U(bytes, 8, 4), I(bytes, 12, 4), U(bytes, 16, 8)))
  }

  function DecodeState(bytes: seq<byte>): Result<Event, DecodeError>
    requires |bytes| >= GRANT_STATE_EVENT_SIZE
  {
    var state := GrantStateOf(U(bytes, 12, 4));
    if state.None? then Err(UnknownGrantState(U(bytes, 12, 4)))
    else if U(bytes, 20, 4) != 0 then Err(NonZeroReserved(CAPTURE_EVENT_GRANT_STATE, U(bytes, 20, 4)))
    else Ok(GrantStateEvent(U(bytes, 8, 4), state.value, I(bytes, 16, 4), U(bytes, 24, 8)))
  }

  function DecodeFrame(bytes: seq<byte>): Result<Event, DecodeError>
    requires |bytes| >= CAPTURE_FRAME_EVENT_SIZE
  {
    if U(bytes, 108, 4) != 0 then Err(NonZeroReserved(CAPTURE_EVENT_FRAME, U(bytes, 108, 4)))
    else Ok(FrameEvent(CaptureFrame(
                         U(bytes, 8, 8), U(bytes, 16, 8), I(bytes, 24, 8), U(bytes, 32, 8),
                         U(bytes, 40, 4), U(bytes, 44, 4), I(bytes, 48, 4), U(bytes, 52, 4), U(bytes, 56, 4),
                         I(bytes, 60, 4), I(bytes, 64, 4), U(bytes, 68, 4), U(bytes, 72, 4),
                         U(bytes, 76, 4), U(bytes, 80, 4), I(bytes, 84, 4), I(bytes, 88, 4),
                         U(bytes, 92, 4), U(bytes, 96, 4), U(bytes, 100, 4), U(bytes, 104, 4))))
  }

  /** The first field of a CEC transmit record that breaks its rules. */
  function CecFault(transmit: CecTransmit): Option<string> {
    if transmit.transportId == 0 then Some("transport ID")
    else if transmit.transportGeneration == 0 then Some("transport generation")
    else if transmit.stateGeneration == 0 then Some("state generation")
    else if transmit.cookie == 0 then Some("transaction cookie")
    else if transmit.connectorId == 0 then Some("connector ID")
    else if transmit.attempts == 0 then Some("attempt count")
    else if !(1 <= transmit.messageLength <= 16) then Some("message length")
    else None
  }

  function DecodeCec(bytes: seq<byte>): Result<Event, DecodeError>
    requires |bytes| >= CEC_TRANSMIT_EVENT_SIZE
  {
    if U(bytes, 12, 4) != 0 then Err(NonZeroReserved(CEC_EVENT_TX, U(bytes, 12, 4)))
    else if U(bytes, 66, 2) != 0 then Err(NonZeroReserved(CEC_EVENT_TX, U(bytes, 66, 2)))
    else
      var transmit := CecTransmit(U(bytes, 8, 4), U(bytes, 16, 8), U(bytes, 24, 8), U(bytes, 32, 8), U(bytes, 40, 4),
                                  U(bytes, 44, 4), bytes[48], U(bytes, 68, 4), bytes[49], Slice(bytes, 50, 16));
      var fault := CecFault(transmit);
      if fault.Some? then Err(InvalidCecTransmit(fault.value)) else Ok(CecEvent(transmit))
  }

  function KnownSize(eventType: nat): nat {
    if eventType == CAPTURE_EVENT_GRANT_REVOKED then GRANT_REVOKED_EVENT_SIZE
    else if eventType == CAPTURE_EVENT_GRANT_STATE then GRANT_STATE_EVENT_SIZE
    else if eventType == CAPTURE_EVENT_FRAME then CAPTURE_FRAME_EVENT_SIZE
    else if eventType == CEC_EVENT_TX then CEC_TRANSMIT_EVENT_SIZE
    else HEADER_SIZE
  }

  /** `decode_event` on a complete record. */
  function DecodeEvent(bytes: seq<byte>): Result<Event, DecodeError> {
    if |bytes| < HEADER_SIZE then Err(LengthTooSmall(0, |bytes|))
    else
      var eventType := U(bytes, 0, 4);
      if |bytes| < KnownSize(eventType) then Err(KnownEventTooShort(eventType, |bytes|, KnownSize(eventType)))
      else if eventType == CAPTURE_EVENT_GRANT_REVOKED then DecodeRevoked(bytes)
      else if eventType == CAPTURE_EVENT_GRANT_STATE then DecodeState(bytes)
      else if eventType == CAPTURE_EVENT_FRAME then DecodeFrame(bytes)
      else if eventType == CEC_EVENT_TX then DecodeCec(bytes)
      else Ok(UnknownEvent(eventType, |bytes|))
  }

  const CASTKMS_CODEC: Codec<Event> := Codec(DeclaredLength, ValidateDeclaredLength, DecodeEvent)

  lemma CodecBounded()
    ensures CASTKMS_CODEC.Bounded()
  {
    forall h | CASTKMS_CODEC.length(h).Ok? ensures HEADER_SIZE <= CASTKMS_CODEC.length(h).value <= MAX_EVENT_SIZE {
      assert CASTKMS_CODEC.length(h) == ValidateDeclaredLength(h);
    }
  }

  // ----- Encoding -----

  /** Where each field starts. */
  ghost predicate Layout(fields: seq<seq<byte>>, offsets: seq<nat>) {
    && |offsets| == |fields| + 1 && offsets[0] == 0
    && forall k :: 0 <= k < |fields| ==> offsets[k + 1] == offsets[k] + |fields[k]|
  }

  lemma {:induction false} ConcatSize(fields: seq<seq<byte>>, offsets: seq<nat>)
    requires Layout(fields, offsets)
    ensures |Concat(fields)| == offsets[|fields|]
  {
    if fields == [] {
    } else {
      var n := |fields| - 1;
      ConcatSize(fields[..n], offsets[..n + 1]);
    }
  }

  /** A field is found at its offset, whatever comes after the record. */
  lemma {:induction false} FieldAt(fields: seq<seq<byte>>, offsets: seq<nat>, more: seq<byte>, k: nat)
    requires Layout(fields, offsets) && k < |fields|
    ensures offsets[k] + |fields[k]| <= |Concat(fields) + more|
    ensures Slice(Concat(fields) + more, offsets[k], |fields[k]|) == fields[k]
  {
    var n := |fields| - 1;
    ConcatSize(fields[..n], offsets[..n + 1]);
    if k == n {
    } else {
      FieldAt(fields[..n], offsets[..n + 1], fields[n] + more, k);
      assert Concat(fields[..n]) + (fields[n] + more) == Concat(fields) + more;
    }
  }

  /** Integer fields of the given widths, one after the other. */
  function Fields(values: seq<nat>, widths: seq<nat>): (fields: seq<seq<byte>>)
    requires |values| == |widths|
    ensures |fields| == |values|
    ensures forall k :: 0 <= k < |values| ==> fields[k] == Bytes(values[k], widths[k])
  {
    seq(|values|, k requires 0 <= k < |values| => Bytes(values[k], widths[k]))
  }

  /** Each integer is read back at its offset. */
  lemma FieldValues(values: seq<nat>, widths: seq<nat>, offsets: seq<nat>, more: seq<byte>)
    requires |values| == |widths| && Layout(Fields(values, widths), offsets)
    requires forall k :: 0 <= k < |values| ==> values[k] < Power(256, widths[k])
    ensures |Concat(Fields(values, widths))| == offsets[|values|]
    ensures forall k :: 0 <= k < |values| ==>
              && offsets[k] + widths[k] <= |Concat(Fields(values, widths)) + more|
              && U(Concat(Fields(values, widths)) + more, offsets[k], widths[k]) == values[k]
  {
    var fields := Fields(values, widths);
    ConcatSize(fields, offsets);
    forall k | 0 <= k < |values|
      ensures offsets[k] + widths[k] <= |Concat(fields) + more|
                && U(Concat(fields) + more, offsets[k], widths[k]) == values[k]
    {
      FieldAt(fields, offsets, more, k);
      ValueOfBytes(values[k], widths[k]);
    }
  }

  ghost predicate Fits(values: seq<nat>, widths: seq<nat>) {
    |values| == |widths| && forall k :: 0 <= k < |values| ==> values[k] < Power(256, widths[k])
  }

  const REVOKED_WIDTHS := [4, 4, 4, 4, 8]
  const REVOKED_OFFSETS := [0, 4, 8, 12, 16, 24]

  function RevokedValues(grantId: nat, status: int, timestampNs: nat, size: nat): seq<nat>
    requires FitsSigned(status, 4)
  {
    [CAPTURE_EVENT_GRANT_REVOKED, size, grantId, Unsigned(status, 4), timestampNs]
  }

  const STATE_WIDTHS := [4, 4, 4, 4, 4, 4, 8]
  const STATE_OFFSETS := [0, 4, 8, 12, 16, 20, 24, 32]

  function StateValues(grantId: nat, state: GrantState, status: int, timestampNs: nat, size: nat): seq<nat>
    requires FitsSigned(status, 4)
  {
    [CAPTURE_EVENT_GRANT_STATE, size, grantId, state.Code(), Unsigned(status, 4), 0, timestampNs]
  }

  const FRAME_WIDTHS := [4, 4, 8, 8, 8, 8, 4, 4, 4, 4, 4, 4, 4, 4, 4, 4, 4, 4, 4, 4, 4, 4, 4, 4]
  const FRAME_OFFSETS :=
      [0, 4, 8, 16, 24, 32, 40, 44, 48, 52, 56, 60, 64, 68, 72, 76, 80, 84, 88, 92, 96, 100, 104, 108, 112]

  predicate SignedFrame(f: CaptureFrame) {
    && FitsSigned(f.timestampNs, 8) && FitsSigned(f.status, 4) && FitsSigned(f.damageX, 4) && FitsSigned(f.damageY, 4)
    && FitsSigned(f.cursorX, 4) && FitsSigned(f.cursorY, 4)
  }

  function FrameValues(f: CaptureFrame, size: nat): seq<nat>
    requires SignedFrame(f)
  {
    [CAPTURE_EVENT_FRAME, size, f.userData, f.sequence, Unsigned(f.timestampNs, 8), f.modeGeneration,
     f.streamId, f.bufferId, Unsigned(f.status, 4), f.flags, f.droppedFrames,
     Unsigned(f.damageX, 4), Unsigned(f.damageY, 4), f.damageWidth, f.damageHeight,
     f.cursorSerial, f.cursorFlags, Unsigned(f.cursorX, 4), Unsigned(f.cursorY, 4),
     f.cursorHotspotX, f.cursorHotspotY, f.cursorWidth, f.cursorHeight, 0]
  }

  const CEC_OFFSETS := [0, 4, 8, 12, 16, 24, 32, 40, 44, 48, 49, 50, 66, 68, 72]

  function CecFields(t: CecTransmit, size: nat): seq<seq<byte>> {
    [Bytes(CEC_EVENT_TX, 4), Bytes(size, 4), Bytes(t.transportId, 4), Bytes(0, 4), Bytes(t.transportGeneration, 8),
     Bytes(t.stateGeneration, 8), Bytes(t.cookie, 8), Bytes(t.connectorId, 4), Bytes(t.outputIndex, 4),
     [t.attempts], [t.messageLength], t.message, Bytes(0, 2), Bytes(t.signalFreeTime, 4)]
  }

  /** A transmit names its transport, its interval and itself, and carries a message. */
  predicate CecComplete(t: CecTransmit) {
    && t.transportId != 0 && t.transportGeneration != 0 && t.stateGeneration != 0 && t.cookie != 0
    && t.connectorId != 0 && t.attempts != 0 && 1 <= t.messageLength <= 16
  }

  /** A record may be longer than its known part; unknown records carry any payload. */
  function RecordSize(event: Event, more: seq<byte>): nat {
    |more| + match event
             case FrameEvent(_) => CAPTURE_FRAME_EVENT_SIZE
             case CecEvent(_) => CEC_TRANSMIT_EVENT_SIZE
             case GrantStateEvent(_, _, _, _) => GRANT_STATE_EVENT_SIZE
             case GrantRevokedEvent(_, _, _) => GRANT_REVOKED_EVENT_SIZE
             case UnknownEvent(_, _) => HEADER_SIZE
  }

  /** The events a decoder can report, in a record of at most 4096 bytes (see `DecodedIsEncodable`). */
  ghost predicate Encodable(event: Event, more: seq<byte>) {
    var size := RecordSize(event, more);
    && size <= MAX_EVENT_SIZE
    && match event
       case FrameEvent(f) => SignedFrame(f) && Fits(FrameValues(f, size), FRAME_WIDTHS)
       case CecEvent(t) => CecComplete(t) && CecFits(t)
       case GrantStateEvent(g, state, status, ts) =>
         FitsSigned(status, 4) && Fits(StateValues(g, state, status, ts, size), STATE_WIDTHS)
       case GrantRevokedEvent(g, status, ts) =>
         FitsSigned(status, 4) && Fits(RevokedValues(g, status, ts, size), REVOKED_WIDTHS)
       case UnknownEvent(eventType, length) =>
         length == size && eventType < Power(256, 4) && KnownSize(eventType) == HEADER_SIZE
  }

  ghost function Encode(event: Event, more: seq<byte>): seq<byte>
    requires Encodable(event, more)
  {
    var size := RecordSize(event, more);
    var fields :=
      match event
      case FrameEvent(f) => Fields(FrameValues(f, size), FRAME_WIDTHS)
      case CecEvent(t) => CecFields(t, size)
      case GrantStateEvent(g, state, status, ts) => Fields(StateValues(g, state, status, ts, size), STATE_WIDTHS)
      case GrantRevokedEvent(g, status, ts) => Fields(RevokedValues(g, status, ts, size), REVOKED_WIDTHS)
      case UnknownEvent(eventType, _) => Fields([eventType, size], [4, 4]);
    Concat(fields) + more
  }

  /** A record whose first two words are its type and its size passes the length check. */
  lemma HeaderPasses(bytes: seq<byte>, eventType: nat)
    requires HEADER_SIZE <= |bytes| <= MAX_EVENT_SIZE && U(bytes, 0, 4) == eventType && U(bytes, 4, 4) == |bytes|
    ensures CASTKMS_CODEC.length(bytes[..HEADER_SIZE]) == Ok(|bytes|)
  {
    var header := bytes[..HEADER_SIZE];
    assert Slice(header, 0, 4) == Slice(bytes, 0, 4) && Slice(header, 4, 4) == Slice(bytes, 4, 4);
    assert CASTKMS_CODEC.length(header) == ValidateDeclaredLength(header);
  }

  lemma EncodesWhen(bytes: seq<byte>, eventType: nat, event: Event)
    requires HEADER_SIZE <= |bytes| <= MAX_EVENT_SIZE && U(bytes, 0, 4) == eventType && U(bytes, 4, 4) == |bytes|
    requires DecodeEvent(bytes) == Ok(event)
    ensures Encodes(CASTKMS_CODEC, bytes, event)
  {
    HeaderPasses(bytes, eventType);
    assert CASTKMS_CODEC.record(bytes) == DecodeEvent(bytes);
  }

  /** The record holds these integers at these offsets. */
  ghost predicate Reads(bytes: seq<byte>, values: seq<nat>, widths: seq<nat>, offsets: seq<nat>) {
    |values| <= |widths| && |values| <= |offsets|
    && forall k :: 0 <= k < |values| ==>
        offsets[k] + widths[k] <= |bytes| && U(bytes, offsets[k], widths[k]) == values[k]
  }

  lemma EncodedReads(values: seq<nat>, widths: seq<nat>, offsets: seq<nat>, more: seq<byte>)
    requires Fits(values, widths) && |offsets| == |values| + 1 && offsets[0] == 0
    requires forall k :: 0 <= k < |values| ==> offsets[k + 1] == offsets[k] + widths[k]
    ensures Reads(Concat(Fields(values, widths)) + more, values, widths, offsets)
    ensures |Concat(Fields(values, widths)) + more| == offsets[|values|] + |more|
  {
    FieldValues(values, widths, offsets, more);
  }

  lemma RevokedDecodes(bytes: seq<byte>, event: Event)
    requires event.GrantRevokedEvent? && FitsSigned(event.status, 4)
               && GRANT_REVOKED_EVENT_SIZE <= |bytes| <= MAX_EVENT_SIZE
    requires Reads(bytes, RevokedValues(event.grantId, event.status, event.timestampNs, |bytes|), REVOKED_WIDTHS,
               REVOKED_OFFSETS)
    ensures Encodes(CASTKMS_CODEC, bytes, event)
  {
    var o := REVOKED_OFFSETS;
    assert o[0] == 0 && o[1] == 4 && o[2] == 8 && o[3] == 12 && o[4] == 16;
    EncodesWhen(bytes, CAPTURE_EVENT_GRANT_REVOKED, event);
  }

  lemma StateDecodes(bytes: seq<byte>, event: Event)
    requires event.GrantStateEvent? && FitsSigned(event.status, 4)
               && GRANT_STATE_EVENT_SIZE <= |bytes| <= MAX_EVENT_SIZE
    requires Reads(bytes, StateValues(event.grantId, event.state, event.status, event.timestampNs, |bytes|),
               STATE_WIDTHS, STATE_OFFSETS)
    ensures Encodes(CASTKMS_CODEC, bytes, event)
  {
    var o := STATE_OFFSETS;
    assert o[0] == 0 && o[1] == 4 && o[2] == 8 && o[3] == 12 && o[4] == 16 && o[5] == 20 && o[6] == 24;
    EncodesWhen(bytes, CAPTURE_EVENT_GRANT_STATE, event);
  }

  /** The integers of a frame record, by offset. */
  ghost predicate FrameHead(bytes: seq<byte>, f: CaptureFrame)
    requires |bytes| >= CAPTURE_FRAME_EVENT_SIZE
  {
    && U(bytes, 0, 4) == CAPTURE_EVENT_FRAME && U(bytes, 4, 4) == |bytes| && U(bytes, 8, 8) == f.userData
    && U(bytes, 16, 8) == f.sequence && I(bytes, 24, 8) == f.timestampNs && U(bytes, 32, 8) == f.modeGeneration
    && U(bytes, 40, 4) == f.streamId && U(bytes, 44, 4) == f.bufferId
  }

  ghost predicate FrameMiddle(bytes: seq<byte>, f: CaptureFrame)
    requires |bytes| >= CAPTURE_FRAME_EVENT_SIZE
  {
    && I(bytes, 48, 4) == f.status && U(bytes, 52, 4) == f.flags && U(bytes, 56, 4) == f.droppedFrames
    && I(bytes, 60, 4) == f.damageX && I(bytes, 64, 4) == f.damageY && U(bytes, 68, 4) == f.damageWidth
    && U(bytes, 72, 4) == f.damageHeight && U(bytes, 76, 4) == f.cursorSerial
  }

  ghost predicate FrameTail(bytes: seq<byte>, f: CaptureFrame)
    requires |bytes| >= CAPTURE_FRAME_EVENT_SIZE
  {
    && U(bytes, 80, 4) == f.cursorFlags && I(bytes, 84, 4) == f.cursorX && I(bytes, 88, 4) == f.cursorY
    && U(bytes, 92, 4) == f.cursorHotspotX && U(bytes, 96, 4) == f.cursorHotspotY && U(bytes, 100, 4) == f.cursorWidth
    && U(bytes, 104, 4) == f.cursorHeight && U(bytes, 108, 4) == 0
  }

  ghost predicate FrameReads(bytes: seq<byte>, f: CaptureFrame) {
    SignedFrame(f) && |bytes| >= CAPTURE_FRAME_EVENT_SIZE
        && Reads(bytes, FrameValues(f, |bytes|), FRAME_WIDTHS, FRAME_OFFSETS)
  }

  lemma FrameHeadReads(bytes: seq<byte>, f: CaptureFrame)
    requires FrameReads(bytes, f)
    ensures FrameHead(bytes, f)
  {
    var o := FRAME_OFFSETS;
    assert o[0] == 0 && o[1] == 4 && o[2] == 8 && o[3] == 16 && o[4] == 24 && o[5] == 32 && o[6] == 40 && o[7] == 44;
  }

  lemma FrameMiddleReads(bytes: seq<byte>, f: CaptureFrame)
    requires FrameReads(bytes, f)
    ensures FrameMiddle(bytes, f)
  {
    var o := FRAME_OFFSETS;
    assert o[8] == 48 && o[9] == 52 && o[10] == 56 && o[11] == 60 && o[12] == 64 && o[13] == 68 && o[14] == 72
        && o[15] == 76;
  }

  lemma FrameTailReads(bytes: seq<byte>, f: CaptureFrame)
    requires FrameReads(bytes, f)
    ensures FrameTail(bytes, f)
  {
    var o := FRAME_OFFSETS;
    assert o[16] == 80 && o[17] == 84 && o[18] == 88 && o[19] == 92 && o[20] == 96 && o[21] == 100 && o[22] == 104
        && o[23] == 108;
  }

  lemma FrameDecodes(bytes: seq<byte>, f: CaptureFrame)
    requires CAPTURE_FRAME_EVENT_SIZE <= |bytes| <= MAX_EVENT_SIZE
    requires FrameHead(bytes, f) && FrameMiddle(bytes, f) && FrameTail(bytes, f)
    ensures Encodes(CASTKMS_CODEC, bytes, FrameEvent(f))
  {
    EncodesWhen(bytes, CAPTURE_EVENT_FRAME, FrameEvent(f));
  }

  /** The fields of a CEC record, by offset. */
  ghost predicate CecHead(bytes: seq<byte>, t: CecTransmit)
    requires |bytes| >= CEC_TRANSMIT_EVENT_SIZE
  {
    && U(bytes, 0, 4) == CEC_EVENT_TX && U(bytes, 4, 4) == |bytes| && U(bytes, 8, 4) == t.transportId
        && U(bytes, 12, 4) == 0
    && U(bytes, 16, 8) == t.transportGeneration && U(bytes, 24, 8) == t.stateGeneration && U(bytes, 32, 8) == t.cookie
  }

  ghost predicate CecTail(bytes: seq<byte>, t: CecTransmit)
    requires |bytes| >= CEC_TRANSMIT_EVENT_SIZE
  {
    && U(bytes, 40, 4) == t.connectorId && U(bytes, 44, 4) == t.outputIndex
    && Slice(bytes, 48, 1) == [t.attempts] && Slice(bytes, 49, 1) == [t.messageLength]
        && Slice(bytes, 50, 16) == t.message
    && U(bytes, 66, 2) == 0 && U(bytes, 68, 4) == t.signalFreeTime
  }

  lemma CecDecodes(bytes: seq<byte>, t: CecTransmit)
    requires CEC_TRANSMIT_EVENT_SIZE <= |bytes| <= MAX_EVENT_SIZE
    requires CecHead(bytes, t) && CecTail(bytes, t) && CecFault(t).None?
    ensures Encodes(CASTKMS_CODEC, bytes, CecEvent(t))
  {
    assert Slice(bytes, 48, 1)[0] == bytes[48] && Slice(bytes, 49, 1)[0] == bytes[49];
    EncodesWhen(bytes, CEC_EVENT_TX, CecEvent(t));
  }

  lemma CecLayout(t: CecTransmit, size: nat)
    requires |t.message| == 16
    ensures Layout(CecFields(t, size), CEC_OFFSETS)
  {
  }

  lemma CecField(t: CecTransmit, size: nat, more: seq<byte>, k: nat, value: nat, width: nat, offset: nat)
    requires Layout(CecFields(t, size), CEC_OFFSETS) && k < 14 && offset == CEC_OFFSETS[k]
    requires value < Power(256, width) && CecFields(t, size)[k] == Bytes(value, width)
    ensures offset + width <= |Concat(CecFields(t, size)) + more|
    ensures U(Concat(CecFields(t, size)) + more, offset, width) == value
  {
    FieldAt(CecFields(t, size), CEC_OFFSETS, more, k);
    ValueOfBytes(value, width);
  }

  ghost predicate CecFits(t: CecTransmit) {
    && |t.message| == 16
    && t.transportId < Power(256, 4) && t.transportGeneration < Power(256, 8) && t.stateGeneration < Power(256, 8)
        && t.cookie < Power(256, 8)
    && t.connectorId < Power(256, 4) && t.outputIndex < Power(256, 4) && t.signalFreeTime < Power(256, 4)
  }

  lemma CecSize(t: CecTransmit, size: nat)
    requires |t.message| == 16
    ensures Layout(CecFields(t, size), CEC_OFFSETS) && |Concat(CecFields(t, size))| == CEC_TRANSMIT_EVENT_SIZE
  {
    CecLayout(t, size);
    ConcatSize(CecFields(t, size), CEC_OFFSETS);
  }

  lemma CecHeadReads(t: CecTransmit, size: nat, more: seq<byte>)
    requires CecFits(t) && size == CEC_TRANSMIT_EVENT_SIZE + |more| <= MAX_EVENT_SIZE
    ensures |Concat(CecFields(t, size)) + more| == size && CecHead(Concat(CecFields(t, size)) + more, t)
  {
    Powers();
    CecSize(t, size);
    CecField(t, size, more, 0, CEC_EVENT_TX, 4, 0);
    CecField(t, size, more, 1, size, 4, 4);
    CecField(t, size, more, 2, t.transportId, 4, 8);
    CecField(t, size, more, 3, 0, 4, 12);
    CecField(t, size, more, 4, t.transportGeneration, 8, 16);
    CecField(t, size, more, 5, t.stateGeneration, 8, 24);
    CecField(t, size, more, 6, t.cookie, 8, 32);
  }

  lemma CecTailReads(t: CecTransmit, size: nat, more: seq<byte>)
    requires CecFits(t)
    ensures |Concat(CecFields(t, size)) + more| == CEC_TRANSMIT_EVENT_SIZE + |more|
              && CecTail(Concat(CecFields(t, size)) + more, t)
  {
    Powers();
    CecSize(t, size);
    CecField(t, size, more, 7, t.connectorId, 4, 40);
    CecField(t, size, more, 8, t.outputIndex, 4, 44);
    FieldAt(CecFields(t, size), CEC_OFFSETS, more, 9);
    FieldAt(CecFields(t, size), CEC_OFFSETS, more, 10);
    FieldAt(CecFields(t, size), CEC_OFFSETS, more, 11);
    CecField(t, size, more, 12, 0, 2, 66);
    CecField(t, size, more, 13, t.signalFreeTime, 4, 68);
  }

  lemma UnknownDecodes(bytes: seq<byte>, event: Event)
    requires event.UnknownEvent? && event.length == |bytes| && HEADER_SIZE <= |bytes| <= MAX_EVENT_SIZE
    requires KnownSize(event.eventType) == HEADER_SIZE
               && Reads(bytes, [event.eventType, event.length], [4, 4], [0, 4, 8])
    ensures Encodes(CASTKMS_CODEC, bytes, event)
  {
    var o := [0, 4, 8];
    assert o[0] == 0 && o[1] == 4;
    EncodesWhen(bytes, event.eventType, event);
  }

  lemma FrameTable()
    ensures |FRAME_WIDTHS| == 24 && |FRAME_OFFSETS| == 25 && FRAME_OFFSETS[0] == 0
              && FRAME_OFFSETS[24] == CAPTURE_FRAME_EVENT_SIZE
    ensures forall k :: 0 <= k < 24 ==> FRAME_OFFSETS[k + 1] == FRAME_OFFSETS[k] + FRAME_WIDTHS[k]
  {
  }

  lemma FrameEncodedReads(f: CaptureFrame, more: seq<byte>)
    requires Encodable(FrameEvent(f), more)
    ensures FrameReads(Encode(FrameEvent(f), more), f) && |Encode(FrameEvent(f), more)| <= MAX_EVENT_SIZE
  {
    FrameTable();
    EncodedReads(FrameValues(f, RecordSize(FrameEvent(f), more)), FRAME_WIDTHS, FRAME_OFFSETS, more);
  }

  lemma FrameReadsDecode(bytes: seq<byte>, f: CaptureFrame)
    requires FrameReads(bytes, f) && |bytes| <= MAX_EVENT_SIZE
    ensures Encodes(CASTKMS_CODEC, bytes, FrameEvent(f))
  {
    FrameHeadReads(bytes, f);
    FrameMiddleReads(bytes, f);
    FrameTailReads(bytes, f);
    FrameDecodes(bytes, f);
  }

  lemma CecRoundTrip(t: CecTransmit, more: seq<byte>)
    requires Encodable(CecEvent(t), more)
    ensures Encodes(CASTKMS_CODEC, Encode(CecEvent(t), more), CecEvent(t))
  {
    var size := RecordSize(CecEvent(t), more);
    CecHeadReads(t, size, more);
    CecTailReads(t, size, more);
    CecDecodes(Encode(CecEvent(t), more), t);
  }

  lemma StateRoundTrip(event: Event, more: seq<byte>)
    requires event.GrantStateEvent? && Encodable(event, more)
    ensures Encodes(CASTKMS_CODEC, Encode(event, more), event)
  {
    var values := StateValues(event.grantId, event.state, event.status, event.timestampNs, RecordSize(event, more));
    EncodedReads(values, STATE_WIDTHS, STATE_OFFSETS, more);
    StateDecodes(Encode(event, more), event);
  }

  lemma RevokedRoundTrip(event: Event, more: seq<byte>)
    requires event.GrantRevokedEvent? && Encodable(event, more)
    ensures Encodes(CASTKMS_CODEC, Encode(event, more), event)
  {
    var values := RevokedValues(event.grantId, event.status, event.timestampNs, RecordSize(event, more));
    EncodedReads(values, REVOKED_WIDTHS, REVOKED_OFFSETS, more);
    RevokedDecodes(Encode(event, more), event);
  }

  lemma UnknownRoundTrip(event: Event, more: seq<byte>)
    requires event.UnknownEvent? && Encodable(event, more)
    ensures Encodes(CASTKMS_CODEC, Encode(event, more), event)
  {
    Powers();
    EncodedReads([event.eventType, event.length], [4, 4], [0, 4, 8], more);
    UnknownDecodes(Encode(event, more), event);
  }

  /** Every event the decoder can report is the decoding of its encoding, extension bytes included. */
  lemma EventRoundTrip(event: Event, more: seq<byte>)
    requires Encodable(event, more)
    ensures Encodes(CASTKMS_CODEC, Encode(event, more), event)
  {
    match event
    case FrameEvent(f) =>
      FrameEncodedReads(f, more);
      FrameReadsDecode(Encode(event, more), f);
    case CecEvent(t) => CecRoundTrip(t, more);
    case GrantStateEvent(_, _, _, _) => StateRoundTrip(event, more);
    case GrantRevokedEvent(_, _, _) => RevokedRoundTrip(event, more);
    case UnknownEvent(_, _) => UnknownRoundTrip(event, more);
  }

  // ----- What the decoder reports can be encoded -----

  lemma SignedFits(value: nat, width: nat)
    requires value < Power(256, width)
    ensures FitsSigned(Signed(value, width), width)
  {
  }

  lemma FrameSigned(bytes: seq<byte>, f: CaptureFrame)
    requires CAPTURE_FRAME_EVENT_SIZE <= |bytes| && DecodeFrame(bytes) == Ok(FrameEvent(f))
    ensures SignedFrame(f)
  {
    SignedFits(U(bytes, 24, 8), 8);
    SignedFits(U(bytes, 48, 4), 4);
    SignedFits(U(bytes, 60, 4), 4);
    SignedFits(U(bytes, 64, 4), 4);
    SignedFits(U(bytes, 84, 4), 4);
    SignedFits(U(bytes, 88, 4), 4);
  }

  lemma FrameFits(bytes: seq<byte>, f: CaptureFrame, size: nat)
    requires CAPTURE_FRAME_EVENT_SIZE <= |bytes| && DecodeFrame(bytes) == Ok(FrameEvent(f)) && size <= MAX_EVENT_SIZE
    requires SignedFrame(f)
    ensures Fits(FrameValues(f, size), FRAME_WIDTHS)
  {
    Powers();
  }

  /** Every event the decoder reports is encodable, with the rest of its record as the extension. */
  lemma DecodedIsEncodable(bytes: seq<byte>, event: Event)
    requires |bytes| <= MAX_EVENT_SIZE && DecodeEvent(bytes) == Ok(event)
    ensures KnownSize(U(bytes, 0, 4)) <= |bytes| && Encodable(event, bytes[KnownSize(U(bytes, 0, 4))..])
  {
    Powers();
    match event
    case FrameEvent(f) =>
      FrameSigned(bytes, f);
      FrameFits(bytes, f, |bytes|);
    case CecEvent(t) =>
    case GrantStateEvent(_, _, _, _) => SignedFits(U(bytes, 16, 4), 4);
    case GrantRevokedEvent(_, _, _) => SignedFits(U(bytes, 12, 4), 4);
    case UnknownEvent(_, _) =>
  }

  // ----- What the decoder accepts is an encoding -----

  lemma {:induction false} BytesOfValue(b: seq<byte>)
    ensures Bytes(Value(b), |b|) == b
  {
    if b == [] {
    } else {
      BytesOfValue(b[1..]);
      assert b == [b[0]] + b[1..];
    }
  }

  lemma FieldOf(bytes: seq<byte>, offset: nat, width: nat)
    requires offset + width <= |bytes|
    ensures Bytes(U(bytes, offset, width), width) == Slice(bytes, offset, width)
  {
    BytesOfValue(Slice(bytes, offset, width));
  }

  /** Consecutive slices make up the beginning of a record. */
  lemma {:induction false} ConcatSlices(bytes: seq<byte>, fields: seq<seq<byte>>, offsets: seq<nat>)
    requires Layout(fields, offsets) && offsets[|fields|] <= |bytes|
    requires forall k :: 0 <= k < |fields| ==>
               offsets[k] + |fields[k]| <= |bytes| && fields[k] == Slice(bytes, offsets[k], |fields[k]|)
    ensures Concat(fields) == bytes[..offsets[|fields|]]
  {
    if fields == [] {
    } else {
      var n := |fields| - 1;
      ConcatSlices(bytes, fields[..n], offsets[..n + 1]);
      assert fields[n] == Slice(bytes, offsets[n], |fields[n]|);
      assert bytes[..offsets[n]] + bytes[offsets[n]..offsets[n + 1]] == bytes[..offsets[n + 1]];
    }
  }

  /** A record that reads as these integers begins with their encoding. */
  lemma ReadsEncoded(bytes: seq<byte>, values: seq<nat>, widths: seq<nat>, offsets: seq<nat>)
    requires |values| == |widths| && |offsets| == |values| + 1 && offsets[0] == 0 && offsets[|values|] <= |bytes|
    requires forall k :: 0 <= k < |values| ==> offsets[k + 1] == offsets[k] + widths[k]
    requires Reads(bytes, values, widths, offsets)
    ensures Concat(Fields(values, widths)) + bytes[offsets[|values|]..] == bytes
  {
    var fields := Fields(values, widths);
    forall k | 0 <= k < |fields| ensures fields[k] == Slice(bytes, offsets[k], |fields[k]|) {
      FieldOf(bytes, offsets[k], widths[k]);
    }
    ConcatSlices(bytes, fields, offsets);
  }

  lemma SignedBack(value: nat, width: nat)
    requires value < Power(256, width)
    ensures FitsSigned(Signed(value, width), width) && Unsigned(Signed(value, width), width) == value
  {
  }

  /** A complete record: its second word is its length. */
  ghost predicate Complete(bytes: seq<byte>) {
    HEADER_SIZE <= |bytes| <= MAX_EVENT_SIZE && U(bytes, 4, 4) == |bytes|
  }

  lemma RevokedEncoded(bytes: seq<byte>, event: Event)
    requires Complete(bytes) && U(bytes, 0, 4) == CAPTURE_EVENT_GRANT_REVOKED && |bytes| >= GRANT_REVOKED_EVENT_SIZE
    requires DecodeRevoked(bytes) == Ok(event) && Encodable(event, bytes[GRANT_REVOKED_EVENT_SIZE..])
    ensures Encode(event, bytes[GRANT_REVOKED_EVENT_SIZE..]) == bytes
  {
    SignedBack(U(bytes, 12, 4), 4);
    var o := REVOKED_OFFSETS;
    assert o[0] == 0 && o[1] == 4 && o[2] == 8 && o[3] == 12 && o[4] == 16 && o[5] == 24;
    ReadsEncoded(bytes, RevokedValues(event.grantId, event.status, event.timestampNs, |bytes|), REVOKED_WIDTHS, o);
  }

  lemma StateEncoded(bytes: seq<byte>, event: Event)
    requires Complete(bytes) && U(bytes, 0, 4) == CAPTURE_EVENT_GRANT_STATE && |bytes| >= GRANT_STATE_EVENT_SIZE
    requires DecodeState(bytes) == Ok(event) && Encodable(event, bytes[GRANT_STATE_EVENT_SIZE..])
    ensures Encode(event, bytes[GRANT_STATE_EVENT_SIZE..]) == bytes
  {
    SignedBack(U(bytes, 16, 4), 4);
    var o := STATE_OFFSETS;
    assert o[0] == 0 && o[1] == 4 && o[2] == 8 && o[3] == 12 && o[4] == 16 && o[5] == 20 && o[6] == 24 && o[7] == 32;
    var values := StateValues(event.grantId, event.state, event.status, event.timestampNs, |bytes|);
    ReadsEncoded(bytes, values, STATE_WIDTHS, o);
  }

  /** The `k`-th integer of a frame record. */
  ghost predicate FrameReadsAt(bytes: seq<byte>, f: CaptureFrame, k: nat)
    requires SignedFrame(f) && k < 24 && |bytes| >= CAPTURE_FRAME_EVENT_SIZE
  {
    FrameTable();
    FRAME_OFFSETS[k] + FRAME_WIDTHS[k] <= |bytes|
    && U(bytes, FRAME_OFFSETS[k], FRAME_WIDTHS[k]) == FrameValues(f, |bytes|)[k]
  }

  lemma FrameHeadBack(bytes: seq<byte>, f: CaptureFrame)
    requires SignedFrame(f) && |bytes| >= CAPTURE_FRAME_EVENT_SIZE && FrameHead(bytes, f)
    ensures forall k :: 0 <= k < 8 ==> FrameReadsAt(bytes, f, k)
  {
    SignedBack(U(bytes, 24, 8), 8);
    var o := FRAME_OFFSETS;
    assert o[0] == 0 && o[1] == 4 && o[2] == 8 && o[3] == 16 && o[4] == 24 && o[5] == 32 && o[6] == 40 && o[7] == 44;
  }

  lemma FrameMiddleBack(bytes: seq<byte>, f: CaptureFrame)
    requires SignedFrame(f) && |bytes| >= CAPTURE_FRAME_EVENT_SIZE && FrameMiddle(bytes, f)
    ensures forall k :: 8 <= k < 16 ==> FrameReadsAt(bytes, f, k)
  {
    SignedBack(U(bytes, 48, 4), 4);
    SignedBack(U(bytes, 60, 4), 4);
    SignedBack(U(bytes, 64, 4), 4);
    var o := FRAME_OFFSETS;
    assert o[8] == 48 && o[9] == 52 && o[10] == 56 && o[11] == 60 && o[12] == 64 && o[13] == 68 && o[14] == 72
        && o[15] == 76;
  }

  lemma FrameTailBack(bytes: seq<byte>, f: CaptureFrame)
    requires SignedFrame(f) && |bytes| >= CAPTURE_FRAME_EVENT_SIZE && FrameTail(bytes, f)
    ensures forall k :: 16 <= k < 24 ==> FrameReadsAt(bytes, f, k)
  {
    SignedBack(U(bytes, 84, 4), 4);
    SignedBack(U(bytes, 88, 4), 4);
    var o := FRAME_OFFSETS;
    assert o[16] == 80 && o[17] == 84 && o[18] == 88 && o[19] == 92 && o[20] == 96 && o[21] == 100 && o[22] == 104
        && o[23] == 108;
  }

  lemma FrameReadsBack(bytes: seq<byte>, f: CaptureFrame)
    requires SignedFrame(f) && |bytes| >= CAPTURE_FRAME_EVENT_SIZE
    requires forall k :: 0 <= k < 24 ==> FrameReadsAt(bytes, f, k)
    ensures Reads(bytes, FrameValues(f, |bytes|), FRAME_WIDTHS, FRAME_OFFSETS)
  {
    FrameTable();
    forall k | 0 <= k < 24
      ensures FRAME_OFFSETS[k] + FRAME_WIDTHS[k] <= |bytes|
                && U(bytes, FRAME_OFFSETS[k], FRAME_WIDTHS[k]) == FrameValues(f, |bytes|)[k]
    {
      assert FrameReadsAt(bytes, f, k);
    }
  }

  lemma FrameAllBack(bytes: seq<byte>, f: CaptureFrame)
    requires Complete(bytes) && U(bytes, 0, 4) == CAPTURE_EVENT_FRAME && |bytes| >= CAPTURE_FRAME_EVENT_SIZE
    requires DecodeFrame(bytes) == Ok(FrameEvent(f)) && SignedFrame(f)
    ensures Reads(bytes, FrameValues(f, |bytes|), FRAME_WIDTHS, FRAME_OFFSETS)
  {
    FrameHeadBack(bytes, f);
    FrameMiddleBack(bytes, f);
    FrameTailBack(bytes, f);
    FrameReadsBack(bytes, f);
  }

  lemma FrameEncoded(bytes: seq<byte>, f: CaptureFrame)
    requires Complete(bytes) && U(bytes, 0, 4) == CAPTURE_EVENT_FRAME && |bytes| >= CAPTURE_FRAME_EVENT_SIZE
    requires DecodeFrame(bytes) == Ok(FrameEvent(f)) && Encodable(FrameEvent(f), bytes[CAPTURE_FRAME_EVENT_SIZE..])
    ensures Encode(FrameEvent(f), bytes[CAPTURE_FRAME_EVENT_SIZE..]) == bytes
  {
    FrameAllBack(bytes, f);
    FrameTable();
    ReadsEncoded(bytes, FrameValues(f, |bytes|), FRAME_WIDTHS, FRAME_OFFSETS);
  }

  lemma CecSlices(bytes: seq<byte>, t: CecTransmit)
    requires Complete(bytes) && U(bytes, 0, 4) == CEC_EVENT_TX && |bytes| >= CEC_TRANSMIT_EVENT_SIZE
    requires DecodeCec(bytes) == Ok(CecEvent(t)) && |t.message| == 16
    ensures var fields := CecFields(t, |bytes|);
            && Layout(fields, CEC_OFFSETS)
            && forall k :: 0 <= k < 14 ==>
                 CEC_OFFSETS[k] + |fields[k]| <= |bytes| && fields[k] == Slice(bytes, CEC_OFFSETS[k], |fields[k]|)
  {
    CecLayout(t, |bytes|);
    FieldOf(bytes, 0, 4);
    FieldOf(bytes, 4, 4);
    FieldOf(bytes, 8, 4);
    FieldOf(bytes, 12, 4);
    FieldOf(bytes, 16, 8);
    FieldOf(bytes, 24, 8);
    FieldOf(bytes, 32, 8);
    FieldOf(bytes, 40, 4);
    FieldOf(bytes, 44, 4);
    FieldOf(bytes, 66, 2);
    FieldOf(bytes, 68, 4);
  }

  lemma CecPrefix(bytes: seq<byte>, t: CecTransmit)
    requires Complete(bytes) && U(bytes, 0, 4) == CEC_EVENT_TX && |bytes| >= CEC_TRANSMIT_EVENT_SIZE
    requires DecodeCec(bytes) == Ok(CecEvent(t)) && |t.message| == 16
    ensures Concat(CecFields(t, |bytes|)) == bytes[..CEC_TRANSMIT_EVENT_SIZE]
  {
    CecSlices(bytes, t);
    ConcatSlices(bytes, CecFields(t, |bytes|), CEC_OFFSETS);
  }

  lemma CecEncoded(bytes: seq<byte>, t: CecTransmit)
    requires Complete(bytes) && U(bytes, 0, 4) == CEC_EVENT_TX && |bytes| >= CEC_TRANSMIT_EVENT_SIZE
    requires DecodeCec(bytes) == Ok(CecEvent(t)) && Encodable(CecEvent(t), bytes[CEC_TRANSMIT_EVENT_SIZE..])
    ensures Encode(CecEvent(t), bytes[CEC_TRANSMIT_EVENT_SIZE..]) == bytes
  {
    CecPrefix(bytes, t);
  }

  /** What is decoded from a complete record encodes to that record. */
  lemma DecodedEncodes(bytes: seq<byte>, event: Event)
    requires Complete(bytes) && DecodeEvent(bytes) == Ok(event)
    ensures KnownSize(U(bytes, 0, 4)) <= |bytes|
    ensures var more := bytes[KnownSize(U(bytes, 0, 4))..]; Encodable(event, more) && Encode(event, more) == bytes
  {
    DecodedIsEncodable(bytes, event);
    match event
    case FrameEvent(f) => FrameEncoded(bytes, f);
    case CecEvent(t) => CecEncoded(bytes, t);
    case GrantStateEvent(_, _, _, _) => StateEncoded(bytes, event);
    case GrantRevokedEvent(_, _, _) => RevokedEncoded(bytes, event);
    case UnknownEvent(eventType, _) =>
      var o := [0, 4, 8];
      assert o[0] == 0 && o[1] == 4 && o[2] == 8;
      ReadsEncoded(bytes, [eventType, |bytes|], [4, 4], o);
  }

  /** The decoder accepts a complete record if and only if it encodes an event, and reports that one. */
  lemma DecodesExactly(bytes: seq<byte>, event: Event)
    requires Complete(bytes)
    ensures DecodeEvent(bytes) == Ok(event) <==> exists more :: Encodable(event, more) && Encode(event, more) == bytes
  {
    if DecodeEvent(bytes) == Ok(event) { DecodedEncodes(bytes, event); }
    forall more | Encodable(event, more) && Encode(event, more) == bytes ensures DecodeEvent(bytes) == Ok(event) {
      EventRoundTrip(event, more);
      assert CASTKMS_CODEC.record(bytes) == DecodeEvent(bytes);
    }
  }

  /** Any list of encodable events comes back from any chunking of its encoding, with nothing left in the carry. */
  lemma EventsRoundTrip(events: seq<Event>, extensions: seq<seq<byte>>, chunks: seq<seq<byte>>)
    requires |events| == |extensions| && InSize(chunks)
    requires forall i :: 0 <= i < |events| ==> Encodable(events[i], extensions[i])
    requires Concat(chunks) == Concat(seq(|events|, i requires 0 <= i < |events| => Encode(events[i], extensions[i])))
    ensures CASTKMS_CODEC.Bounded() && Feed(CASTKMS_CODEC, chunks) == Session([], events, None)
  {
    CodecBounded();
    var records := seq(|events|, i requires 0 <= i < |events| => Encode(events[i], extensions[i]));
    forall i | 0 <= i < |events| ensures Encodes(CASTKMS_CODEC, records[i], events[i]) {
      EventRoundTrip(events[i], extensions[i]);
    }
    StreamRoundTrip(CASTKMS_CODEC, records, events, chunks);
  }

  // ----- Reading a batch -----

  const MAX_EVENTS_PER_READINESS := 1024

  datatype ReadError =
    | Decode(error: DecodeError)
    | ForeignGrant(expected: nat, actual: nat)
    | ForeignConnector(expected: nat, actual: nat)
    | TooManyEvents

  datatype Scope = Scope(grantId: nat, connectorId: nat)

  function ScopeFault(scope: Scope, event: Event): (r: Option<ReadError>)
    ensures r.Some? <==> ((event.GrantStateEvent? || event.GrantRevokedEvent?) && event.grantId != scope.grantId)
                         || (event.CecEvent? && event.transmit.connectorId != scope.connectorId)
  {
    if (event.GrantStateEvent? || event.GrantRevokedEvent?) && event.grantId != scope.grantId
    then Some(ForeignGrant(scope.grantId, event.grantId))
    else if event.CecEvent? && event.transmit.connectorId != scope.connectorId
    then Some(ForeignConnector(scope.connectorId, event.transmit.connectorId))
    else None
  }

  /** Without an expected scope everything is in scope. */
  function Fault(scope: Option<Scope>, event: Event): Option<ReadError> {
    if scope.None? then None else ScopeFault(scope.value, event)
  }

  ghost predicate InScope(scope: Option<Scope>, events: seq<Event>) {
    forall i :: 0 <= i < |events| ==> Fault(scope, events[i]).None?
  }

  /** What is appended stays within the bound and the scope; the first event outside the scope stops it. */
  method AppendDecodedEvents(
    decoder: EventDecoder<Event>, bytes: seq<byte>, scope: Option<Scope>, events: seq<Event>)
    returns (r: Option<ReadError>, batch: seq<Event>)
    requires decoder.Valid()
    modifies decoder
    ensures decoder.Valid() && events <= batch && InScope(scope, batch[|events|..])
    ensures |batch| <= Max(|events|, MAX_EVENTS_PER_READINESS)
    ensures var (carry, pushed) := Pushed(decoder.codec, old(decoder.carry), bytes);
            && decoder.carry == carry
            && match pushed
               case Err(e) => r == Some(Decode(e)) && batch == events
               case Ok(decoded) =>
                 if |events| + |decoded| > MAX_EVENTS_PER_READINESS then r == Some(TooManyEvents) && batch == events
                 else
                   && |batch| <= |events| + |decoded| && batch == events + decoded[..|batch| - |events|]
                   && (r.None? ==> batch == events + decoded)
                   && (r.Some? ==> |batch| - |events| < |decoded| && r == Fault(scope, decoded[|batch| - |events|]))
  {
    batch := events;
    var pushed := decoder.Push(bytes);
    if pushed.Err? {
      return Some(Decode(pushed.error)), events;
    }
    var decoded := pushed.value;
    if |events| + |decoded| > MAX_EVENTS_PER_READINESS {
      return Some(TooManyEvents), events;
    }
    for i := 0 to |decoded|
      invariant batch == events + decoded[..i] && InScope(scope, batch[|events|..])
    {
      var fault := Fault(scope, decoded[i]);
      if fault.Some? {
        return fault, batch;
      }
      batch := batch + [decoded[i]];
    }
    assert decoded[..|decoded|] == decoded;
    r := None;
  }
}
