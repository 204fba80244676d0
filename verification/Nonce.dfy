/**
 The 12-byte relay nonce: direction byte, 64-bit little-endian counter, three reserved zero bytes.
 It is the deterministic construction of section 8.2.1 of NIST SP 800-38D, with the direction as
 fixed field and the counter as invocation field.
 */
module Nonce {
  import opened Bytes

  const NONCE_LENGTH := 12
  const RESERVED_OFFSET := 9
  const RESERVED_LENGTH := 3
  const MAX_COUNTER: nat := 0xFFFF_FFFF_FFFF_FFFF

  type NonceBytes = s: seq<Byte> | |s| == 12 witness [0, 0, 0, 0, 0, 0, 0, 0, 0, 0, 0, 0]

  datatype Role = Initiator | Joiner {
    function Peer(): Role {
      if this == Initiator then Joiner else Initiator
    }
  }

  function DirectionForRole(role: Role): Byte {
    if role == Initiator then 1 else 2
  }

  function ExpectedPeerDirection(role: Role): (d: Byte)
    ensures d == DirectionForRole(role.Peer())
    ensures d != DirectionForRole(role)
  {
    if role == Initiator then 2 else 1
  }

  /** `None` is the thrown "counter must fit uint64". */
  function MakeNonce(direction: Byte, counter: nat): (r: Option<NonceBytes>)
    ensures r.Some? <==> 1 <= counter <= MAX_COUNTER
  {
    if 1 <= counter <= MAX_COUNTER then
      Some([direction] + LittleEndian(counter, 8) + [0, 0, 0])
    else
      None
  }

  datatype NonceFields = NonceFields(direction: Byte, counter: nat, reservedAllZero: bool)

  function FieldsOf(nonce: NonceBytes): NonceFields {
    NonceFields(nonce[0], FromLittleEndian(nonce[1..9]), nonce[9..] == [0, 0, 0])
  }

  /** `None` is the thrown "nonce must be 12 bytes". */
  method ParseNonce(nonce: seq<Byte>) returns (fields: Option<NonceFields>)
    ensures fields.Some? <==> |nonce| == NONCE_LENGTH
    ensures fields.Some? ==> fields.value == FieldsOf(nonce)
  {
    if |nonce| != NONCE_LENGTH {
      return None;
    }
    var reservedAllZero := true;
    var i := 0;
    while i < RESERVED_LENGTH
      invariant 0 <= i <= RESERVED_LENGTH
      invariant reservedAllZero <==> forall j :: RESERVED_OFFSET <= j < RESERVED_OFFSET + i ==> nonce[j] == 0
    {
      if nonce[RESERVED_OFFSET + i] != 0 {
        reservedAllZero := false;
        assert nonce[9..][i] != 0;
        break;
      }
      i := i + 1;
    }
    if reservedAllZero {
      assert nonce[9..] == [nonce[9], nonce[10], nonce[11]];
    }
    fields := Some(NonceFields(nonce[0], FromLittleEndian(nonce[1..9]), reservedAllZero));
  }

  lemma FieldSizeOfCounter()
    ensures FieldSize(8) == MAX_COUNTER + 1
  {
    assert FieldSize(2) == 65536;
    assert FieldSize(4) == 65536 * FieldSize(2);
    assert FieldSize(6) == 65536 * FieldSize(4);
    assert FieldSize(8) == 65536 * FieldSize(6);
  }

  /** A nonce built by the sender parses back to its direction and counter. */
  lemma ParseAfterMake(direction: Byte, counter: nat)
    requires 1 <= counter <= MAX_COUNTER
    ensures FieldsOf(MakeNonce(direction, counter).value) == NonceFields(direction, counter, true)
  {
    FieldSizeOfCounter();
    ReadAfterWrite(counter, 8);
    var nonce := MakeNonce(direction, counter).value;
    assert nonce[1..9] == LittleEndian(counter, 8);
    assert nonce[9..] == [0, 0, 0];
  }

  /** A nonce with zero reserved bytes and a non-zero counter is the one the sender builds from its fields. */
  lemma MakeAfterParse(nonce: NonceBytes)
    requires FieldsOf(nonce).reservedAllZero && FieldsOf(nonce).counter >= 1
    ensures MakeNonce(nonce[0], FieldsOf(nonce).counter) == Some(nonce)
  {
    FieldSizeOfCounter();
    WriteAfterRead(nonce[1..9]);
    assert nonce == [nonce[0]] + nonce[1..9] + nonce[9..];
  }

  /** Two frames get the same nonce only when both their direction and their counter are equal. */
  lemma MakeNonceInjective(d1: Byte, c1: nat, d2: Byte, c2: nat)
    requires 1 <= c1 <= MAX_COUNTER && 1 <= c2 <= MAX_COUNTER
    requires MakeNonce(d1, c1) == MakeNonce(d2, c2)
    ensures d1 == d2 && c1 == c2
  {
    ParseAfterMake(d1, c1);
    ParseAfterMake(d2, c2);
  }
}
