/** The vocabulary of the wire: roles, intents, relay kinds and error codes, and their bytes. */
module Wire {
  import opened Bytes
  import opened Nonce

  const MAX_WIRE_BYTES := 8736
  const ROOM_ID_LENGTH := 16
  const HANDSHAKE_CIPHERTEXT_LENGTH := 48
  const HANDSHAKE_FRAME_LENGTH := 61

  datatype Intent = Create | Join | Resume

  datatype RelayKind = Msg | Chunk | ModeUpgraded | RekeyInit | RekeyAck | RekeyDone

  datatype ErrorCode =
    | InvalidHello | UnsupportedVersion | RoomFull | RoomNotFound | RoomAlreadyExists | OverCapacity | RateLimited
    | MessageTooLarge | InvalidPayload | BadState | HelloTimeout | ModeMismatch | Internal

  function RoleToByte(r: Role): Byte { if r == Initiator then 1 else 2 }

  function ByteToRole(b: Byte): (r: Option<Role>)
    ensures forall x: Role :: r == Some(x) <==> b == RoleToByte(x)
  {
    if b == 1 then Some(Initiator) else if b == 2 then Some(Joiner) else None
  }

  function IntentToByte(i: Intent): Byte { match i case Create => 1 case Join => 2 case Resume => 3 }

  function ByteToIntent(b: Byte): (r: Option<Intent>)
    ensures forall x: Intent :: r == Some(x) <==> b == IntentToByte(x)
  {
    if b == 1 then Some(Create) else if b == 2 then Some(Join) else if b == 3 then Some(Resume) else None
  }

  function KindToByte(k: RelayKind): Byte {
    match k
    case Msg => 0x00 case Chunk => 0x01 case ModeUpgraded => 0x10
    case RekeyInit => 0x11 case RekeyAck => 0x12 case RekeyDone => 0x13
  }

  function ByteToKind(b: Byte): (r: Option<RelayKind>)
    ensures forall x: RelayKind :: r == Some(x) <==> b == KindToByte(x)
  {
    match b
    case 0x00 => Some(Msg) case 0x01 => Some(Chunk) case 0x10 => Some(ModeUpgraded)
    case 0x11 => Some(RekeyInit) case 0x12 => Some(RekeyAck) case 0x13 => Some(RekeyDone)
    case _ => None
  }

  function ErrorCodeToByte(e: ErrorCode): Byte {
    match e
    case InvalidHello => 0x01 case UnsupportedVersion => 0x02 case RoomFull => 0x03 case RoomNotFound => 0x04
    case RoomAlreadyExists => 0x05 case OverCapacity => 0x06 case RateLimited => 0x07 case MessageTooLarge => 0x08
    case InvalidPayload => 0x09 case BadState => 0x0a case HelloTimeout => 0x0b case ModeMismatch => 0x0c
    case Internal => 0xff
  }

  function ByteToErrorCode(b: Byte): (r: Option<ErrorCode>)
    ensures forall x: ErrorCode :: r == Some(x) <==> b == ErrorCodeToByte(x)
  {
    match b
    case 0x01 => Some(InvalidHello) case 0x02 => Some(UnsupportedVersion) case 0x03 => Some(RoomFull)
    case 0x04 => Some(RoomNotFound) case 0x05 => Some(RoomAlreadyExists) case 0x06 => Some(OverCapacity)
    case 0x07 => Some(RateLimited) case 0x08 => Some(MessageTooLarge) case 0x09 => Some(InvalidPayload)
    case 0x0a => Some(BadState) case 0x0b => Some(HelloTimeout) case 0x0c => Some(ModeMismatch)
    case 0xff => Some(Internal) case _ => None
  }
}
