/** The wire codec: frames to bytes and back. */
module Codec {
  import opened Bytes
  import opened Nonce
  import opened Wire

  const PROTOCOL_VERSION := 1
  const UINT32_MAX := 0xffff_ffff
  const HELLO_FRAME_LENGTH := 19
  const RELAY_HEADER_LENGTH := 16

  const MSG_HELLO: Byte := 1
  const MSG_ACK: Byte := 2
  const MSG_PEER_JOINED: Byte := 3
  const MSG_HANDSHAKE: Byte := 4
  const MSG_RELAY: Byte := 5
  const MSG_PEER_DISCONNECTED: Byte := 6
  const MSG_PEER_LEFT: Byte := 7
  const MSG_ERROR: Byte := 8

  datatype Frame =
    | Hello(roomId: seq<Byte>, protocolVersion: Byte, intent: Intent)
    | Handshake(nonce: seq<Byte>, ciphertext: seq<Byte>)
    | Relay(kind: RelayKind, nonce: seq<Byte>, ciphertext: seq<Byte>)
    | Ack(role: Role)
    | PeerJoined
    | PeerDisconnected(graceMs: int)
    | PeerLeft
    | Error(code: ErrorCode)
  {
    predicate FromClient() { Hello? || Handshake? || Relay? }

    predicate FromServer() { !Hello? }
  }

  // ---- encoding ---------------------------------------------------------------------------------------------

  /** What the encoders demand of a frame; on anything else they throw. */
  predicate Encodable(f: Frame) {
    match f
    case Hello(roomId, _, _) => |roomId| == ROOM_ID_LENGTH
    case Handshake(nonce, ciphertext) => |nonce| == NONCE_LENGTH && |ciphertext| == HANDSHAKE_CIPHERTEXT_LENGTH
    case Relay(_, nonce, ciphertext) =>
      |nonce| == NONCE_LENGTH && RELAY_HEADER_LENGTH + |ciphertext| <= MAX_WIRE_BYTES
    case PeerDisconnected(graceMs) => 0 <= graceMs <= UINT32_MAX
    case _ => true
  }

  /** The bytes of a frame.  A HELLO always carries this program's own version. */
  function Encode(f: Frame): (buf: seq<Byte>)
    requires Encodable(f)
  {
    match f
    case Hello(roomId, _, intent) => [MSG_HELLO] + roomId + [PROTOCOL_VERSION, IntentToByte(intent)]
    case Handshake(nonce, ciphertext) => [MSG_HANDSHAKE] + nonce + ciphertext
    case Relay(kind, nonce, ciphertext) =>
      [MSG_RELAY, KindToByte(kind)] + nonce + LittleEndian(|ciphertext|, 2) + ciphertext
    case Ack(role) => [MSG_ACK, RoleToByte(role)]
    case PeerJoined => [MSG_PEER_JOINED]
    case PeerDisconnected(graceMs) => [MSG_PEER_DISCONNECTED] + LittleEndian(graceMs, 4)
    case PeerLeft => [MSG_PEER_LEFT]
    case Error(code) => [MSG_ERROR, ErrorCodeToByte(code)]
  }

  // ---- decoding ---------------------------------------------------------------------------------------------

  function DecodeHello(buf: seq<Byte>): (r: Option<Frame>) {
    if |buf| != HELLO_FRAME_LENGTH || ByteToIntent(buf[18]).None? then None
    else Some(Hello(buf[1..17], buf[17], ByteToIntent(buf[18]).value))
  }

  function DecodeHandshake(buf: seq<Byte>): Option<Frame> {
    if |buf| != HANDSHAKE_FRAME_LENGTH then None else Some(Handshake(buf[1..13], buf[13..61]))
  }

  function DecodeRelay(buf: seq<Byte>): Option<Frame> {
    if |buf| < RELAY_HEADER_LENGTH || ByteToKind(buf[1]).None? then None
    else
      var length := FromLittleEndian(buf[14..16]);
      if |buf| != RELAY_HEADER_LENGTH + length then None
      else Some(Relay(ByteToKind(buf[1]).value, buf[2..14], buf[16..16 + length]))
  }

  function DecodeAck(buf: seq<Byte>): Option<Frame> {
    if |buf| != 2 || ByteToRole(buf[1]).None? then None else Some(Ack(ByteToRole(buf[1]).value))
  }

  function DecodePeerDisconnected(buf: seq<Byte>): Option<Frame> {
    if |buf| != 5 then None else Some(PeerDisconnected(FromLittleEndian(buf[1..5])))
  }

  function DecodeError(buf: seq<Byte>): Option<Frame> {
    if |buf| != 2 || ByteToErrorCode(buf[1]).None? then None else Some(Error(ByteToErrorCode(buf[1]).value))
  }

  function DecodeClientFrame(buf: seq<Byte>): Option<Frame> {
    if |buf| < 1 then None
    else if buf[0] == MSG_HELLO then DecodeHello(buf)
    else if buf[0] == MSG_HANDSHAKE then DecodeHandshake(buf)
    else if buf[0] == MSG_RELAY then DecodeRelay(buf)
    else None
  }

  function DecodeServerFrame(buf: seq<Byte>): Option<Frame> {
    if |buf| < 1 then None
    else if buf[0] == MSG_ACK then DecodeAck(buf)
    else if buf[0] == MSG_PEER_JOINED then (if |buf| == 1 then Some(PeerJoined) else None)
    else if buf[0] == MSG_PEER_LEFT then (if |buf| == 1 then Some(PeerLeft) else None)
    else if buf[0] == MSG_PEER_DISCONNECTED then DecodePeerDisconnected(buf)
    else if buf[0] == MSG_ERROR then DecodeError(buf)
    else if buf[0] == MSG_HANDSHAKE then DecodeHandshake(buf)
    else if buf[0] == MSG_RELAY then DecodeRelay(buf)
    else None
  }

  // ---- round trips ------------------------------------------------------------------------------------------

  lemma FieldSizes()
    ensures FieldSize(2) == 0x1_0000 && FieldSize(4) == 0x1_0000_0000
  {
    assert FieldSize(1) == 256;
    assert FieldSize(3) == 256 * FieldSize(2);
  }

  lemma RelayDecodes(kind: RelayKind, nonce: seq<Byte>, ciphertext: seq<Byte>)
    requires Encodable(Relay(kind, nonce, ciphertext))
    ensures DecodeRelay(Encode(Relay(kind, nonce, ciphertext))) == Some(Relay(kind, nonce, ciphertext))
  {
    var buf := Encode(Relay(kind, nonce, ciphertext));
    FieldSizes();
    ReadAfterWrite(|ciphertext|, 2);
    assert buf[1] == KindToByte(kind);
    assert buf[2..14] == nonce;
    assert buf[14..16] == LittleEndian(|ciphertext|, 2);
    assert buf[16..16 + |ciphertext|] == ciphertext;
  }

  lemma HelloDecodes(roomId: seq<Byte>, version: Byte, intent: Intent)
    requires Encodable(Hello(roomId, version, intent))
    ensures DecodeHello(Encode(Hello(roomId, version, intent))) == Some(Hello(roomId, PROTOCOL_VERSION, intent))
  {
    var buf := Encode(Hello(roomId, version, intent));
    assert buf[1..17] == roomId && buf[17] == PROTOCOL_VERSION && buf[18] == IntentToByte(intent);
  }

  lemma HandshakeDecodes(nonce: seq<Byte>, ciphertext: seq<Byte>)
    requires Encodable(Handshake(nonce, ciphertext))
    ensures DecodeHandshake(Encode(Handshake(nonce, ciphertext))) == Some(Handshake(nonce, ciphertext))
  {
    var buf := Encode(Handshake(nonce, ciphertext));
    assert buf[1..13] == nonce && buf[13..61] == ciphertext;
  }

  lemma PeerDisconnectedDecodes(graceMs: int)
    requires Encodable(PeerDisconnected(graceMs))
    ensures DecodePeerDisconnected(Encode(PeerDisconnected(graceMs))) == Some(PeerDisconnected(graceMs))
  {
    FieldSizes();
    ReadAfterWrite(graceMs, 4);
    assert Encode(PeerDisconnected(graceMs))[1..5] == LittleEndian(graceMs, 4);
  }

  /** Every frame decodes to itself after encoding, at the end it is meant for; a HELLO to one of this version. */
  lemma DecodeAfterEncode(f: Frame)
    requires Encodable(f)
    ensures |Encode(f)| <= MAX_WIRE_BYTES
    ensures f.FromServer() ==> DecodeServerFrame(Encode(f)) == Some(f)
    ensures f.FromClient() ==>
      DecodeClientFrame(Encode(f)) == Some(if f.Hello? then f.(protocolVersion := PROTOCOL_VERSION) else f)
  {
    match f
    case Hello(roomId, version, intent) => HelloDecodes(roomId, version, intent);
    case Handshake(nonce, ciphertext) => HandshakeDecodes(nonce, ciphertext);
    case Relay(kind, nonce, ciphertext) =>
      RelayDecodes(kind, nonce, ciphertext);
      assert Encode(f)[0] == MSG_RELAY;
    case PeerDisconnected(graceMs) => PeerDisconnectedDecodes(graceMs);
    case _ =>
  }

  lemma RelayReencodes(buf: seq<Byte>)
    requires |buf| >= 1 && buf[0] == MSG_RELAY && DecodeRelay(buf).Some?
    ensures var f := DecodeRelay(buf).value;
      && (Encodable(f) <==> |buf| <= MAX_WIRE_BYTES)
      && (Encodable(f) ==> Encode(f) == buf)
  {
    var f := DecodeRelay(buf).value;
    WriteAfterRead(buf[14..16]);
    if Encodable(f) {
      var rebuilt := [MSG_RELAY, KindToByte(f.kind)] + buf[2..14] + buf[14..16] + buf[16..];
      assert Encode(f) == rebuilt;
      assert rebuilt == buf;
    }
  }

  lemma HelloReencodes(buf: seq<Byte>)
    requires |buf| >= 1 && buf[0] == MSG_HELLO && DecodeHello(buf).Some?
    ensures var f := DecodeHello(buf).value;
      Encodable(f) && (Encode(f) == buf <==> f.protocolVersion == PROTOCOL_VERSION)
  {
    var f := DecodeHello(buf).value;
    var rebuilt := [MSG_HELLO] + buf[1..17] + [PROTOCOL_VERSION, buf[18]];
    assert Encode(f) == rebuilt;
    assert rebuilt[17] == PROTOCOL_VERSION;
    assert buf == [MSG_HELLO] + buf[1..17] + [buf[17], buf[18]];
  }

  lemma HandshakeReencodes(buf: seq<Byte>)
    requires |buf| >= 1 && buf[0] == MSG_HANDSHAKE && DecodeHandshake(buf).Some?
    ensures var f := DecodeHandshake(buf).value; Encodable(f) && Encode(f) == buf
  {
    assert buf == [MSG_HANDSHAKE] + buf[1..13] + buf[13..61];
  }

  lemma PeerDisconnectedReencodes(buf: seq<Byte>)
    requires |buf| >= 1 && buf[0] == MSG_PEER_DISCONNECTED && DecodePeerDisconnected(buf).Some?
    ensures var f := DecodePeerDisconnected(buf).value; Encodable(f) && Encode(f) == buf
  {
    FieldSizes();
    WriteAfterRead(buf[1..5]);
    assert buf == [MSG_PEER_DISCONNECTED] + buf[1..5];
  }

  /**
   Every buffer the client accepts re-encodes to the same bytes, if and only if it is within the wire limit: only a
   relay frame can be decoded from more, and that one the encoder refuses.
   */
  lemma EncodeAfterDecodeServer(buf: seq<Byte>)
    requires DecodeServerFrame(buf).Some?
    ensures var f := DecodeServerFrame(buf).value;
      && (Encodable(f) <==> |buf| <= MAX_WIRE_BYTES)
      && (Encodable(f) ==> Encode(f) == buf)
  {
    if buf[0] == MSG_RELAY {
      RelayReencodes(buf);
    } else if buf[0] == MSG_HANDSHAKE {
      HandshakeReencodes(buf);
    } else if buf[0] == MSG_PEER_DISCONNECTED {
      PeerDisconnectedReencodes(buf);
    } else if |buf| == 1 {
      assert buf == [buf[0]];
    } else {
      assert buf == [buf[0], buf[1]];
    }
  }

  /** On the relay's side the same holds, but for a HELLO of another version, which no encoder writes. */
  lemma EncodeAfterDecodeClient(buf: seq<Byte>)
    requires DecodeClientFrame(buf).Some?
    ensures var f := DecodeClientFrame(buf).value;
      Encodable(f) && Encode(f) == buf <==>
        |buf| <= MAX_WIRE_BYTES && (f.Hello? ==> f.protocolVersion == PROTOCOL_VERSION)
  {
    if buf[0] == MSG_RELAY {
      RelayReencodes(buf);
    } else if buf[0] == MSG_HANDSHAKE {
      HandshakeReencodes(buf);
    } else {
      HelloReencodes(buf);
    }
  }

  /** So no two buffers within the limit mean the same server frame. */
  lemma DecodeServerInjective(a: seq<Byte>, b: seq<Byte>)
    requires DecodeServerFrame(a).Some? && DecodeServerFrame(a) == DecodeServerFrame(b)
    requires |a| <= MAX_WIRE_BYTES && |b| <= MAX_WIRE_BYTES
    ensures a == b
  {
    EncodeAfterDecodeServer(a);
    EncodeAfterDecodeServer(b);
  }

  // ---- the encoders that fill a buffer ------------------------------------------------------------------------

  /** `bytes.set(source, offset)`. */
  method SetBytes(buf: array<Byte>, source: seq<Byte>, offset: nat)
    requires offset + |source| <= buf.Length
    modifies buf
    ensures buf[..] == old(buf[..offset]) + source + old(buf[offset + |source|..])
  {
    for i := 0 to |source|
      invariant buf[..offset] == old(buf[..offset])
      invariant buf[offset..offset + i] == source[..i]
      invariant buf[offset + |source|..] == old(buf[offset + |source|..])
    {
      buf[offset + i] := source[i];
    }
  }

  /** `setUint16` and `setUint32`, little-endian: byte by byte. */
  method SetUint(buf: array<Byte>, offset: nat, value: nat, width: nat)
    requires offset + width <= buf.Length
    modifies buf
    ensures buf[..] == old(buf[..offset]) + LittleEndian(value, width) + old(buf[offset + width..])
  {
    SetBytes(buf, LittleEndian(value, width), offset);
  }

  method EncodeRelay(kind: RelayKind, nonce: seq<Byte>, ciphertext: seq<Byte>) returns (r: Option<array<Byte>>)
    ensures r.Some? <==> Encodable(Relay(kind, nonce, ciphertext))
    ensures r.Some? ==> fresh(r.value) && r.value[..] == Encode(Relay(kind, nonce, ciphertext))
  {
    if |nonce| != NONCE_LENGTH {
      return None;
    }
    if |ciphertext| > 0xffff {
      return None;
    }
    var length := RELAY_HEADER_LENGTH + |ciphertext|;
    if length > MAX_WIRE_BYTES {
      return None;
    }
    var buf := new Byte[length](_ => 0);
    buf[0] := MSG_RELAY;
    buf[1] := KindToByte(kind);
    SetBytes(buf, nonce, 2);
    SetUint(buf, 14, |ciphertext|, 2);
    SetBytes(buf, ciphertext, RELAY_HEADER_LENGTH);
    return Some(buf);
  }

  method EncodeHello(roomId: seq<Byte>, intent: Intent) returns (r: Option<array<Byte>>)
    ensures r.Some? <==> |roomId| == ROOM_ID_LENGTH
    ensures r.Some? ==> fresh(r.value) && r.value[..] == Encode(Hello(roomId, PROTOCOL_VERSION, intent))
  {
    if |roomId| != ROOM_ID_LENGTH {
      return None;
    }
    var buf := new Byte[HELLO_FRAME_LENGTH](_ => 0);
    buf[0] := MSG_HELLO;
    SetBytes(buf, roomId, 1);
    buf[17] := PROTOCOL_VERSION;
    buf[18] := IntentToByte(intent);
    return Some(buf);
  }

  method EncodePeerDisconnected(graceMs: int) returns (r: Option<array<Byte>>)
    ensures r.Some? <==> Encodable(PeerDisconnected(graceMs))
    ensures r.Some? ==> fresh(r.value) && r.value[..] == Encode(PeerDisconnected(graceMs))
  {
    if graceMs < 0 || graceMs > UINT32_MAX {
      return None;
    }
    var buf := new Byte[5](_ => 0);
    buf[0] := MSG_PEER_DISCONNECTED;
    SetUint(buf, 1, graceMs, 4);
    return Some(buf);
  }
}
