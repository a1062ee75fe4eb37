/** The raw message buffer: short and medium messages as bytes at fixed offsets. */
module MessageCodec {

  import opened Wrappers

  type Byte = b: int | 0 <= b < 256

  // ----- fixed-width integers as bytes, least significant first

  function Pow256(k: nat): (p: nat)
    ensures p > 0
  {
    if k == 0 then 1 else 256 * Pow256(k - 1)
  }

  function ToBytes(n: nat, width: nat): (bs: seq<Byte>)
    ensures |bs| == width
  {
    if width == 0 then [] else [n % 256] + ToBytes(n / 256, width - 1)
  }

  function FromBytes(bs: seq<Byte>): nat
  {
    if bs == [] then 0 else bs[0] + 256 * FromBytes(bs[1..])
  }

  lemma {:induction false} BytesRoundTrip(n: nat, width: nat)
    requires n < Pow256(width)
    ensures FromBytes(ToBytes(n, width)) == n
  {
    if width > 0 {
      BytesRoundTrip(n / 256, width - 1);
      assert ToBytes(n, width)[1..] == ToBytes(n / 256, width - 1);
    }
  }

  predicate FitsSigned(v: int, width: nat) { 0 <= 2 * v + Pow256(width) && 2 * v < Pow256(width) }

  /** Two's complement on `width` bytes. */
  function Encode(v: int, width: nat): (bs: seq<Byte>)
    requires FitsSigned(v, width)
    ensures |bs| == width
  {
    ToBytes(if v >= 0 then v else v + Pow256(width), width)
  }

  function DecodeSigned(bs: seq<Byte>): int
  {
    var n := FromBytes(bs);
    if 2 * n < Pow256(|bs|) then n else n - Pow256(|bs|)
  }

  lemma SignedRoundTrip(v: int, width: nat)
    requires FitsSigned(v, width)
    ensures DecodeSigned(Encode(v, width)) == v
  {
    BytesRoundTrip(if v >= 0 then v else v + Pow256(width), width);
  }

  // ----- messages

  type MessageId = v: int | -0x80 <= v < 0x80
  type Pid = v: int | -0x8000_0000 <= v < 0x8000_0000
  type Payload64 = v: nat | v < 0x1_0000_0000_0000_0000
  type Payload16 = bs: seq<Byte> | |bs| == 16 witness seq(16, _ => 0)

  datatype Message =
    | Short(id: MessageId, pid: Pid, payload: Payload64)
    | Medium(id: MessageId, pid: Pid, data: Payload16)

  const STOP_MESSAGE: Byte := 0x00
  const SHORT_MESSAGE: Byte := 0x42
  const MEDIUM_MESSAGE: Byte := 0x43

  const ID_SIZE := 1
  const PID_SIZE := 4
  const SHORT_PAYLOAD_SIZE := 8
  const MEDIUM_PAYLOAD_SIZE := 16

  const TYPE_POSITION := 0
  const ID_POSITION := 1
  const PID_POSITION := 2
  const PAYLOAD_POSITION := PID_POSITION + PID_SIZE
  const BUFFER_SIZE := 1 + ID_SIZE + PID_SIZE + MEDIUM_PAYLOAD_SIZE

  type RawMessage = bs: seq<Byte> | |bs| == BUFFER_SIZE witness seq(BUFFER_SIZE, _ => 0)

  /** The occupied fields as (position, size), in the order they are written. */
  function Fields(m: Message): seq<(nat, nat)>
  {
    [(TYPE_POSITION, 1), (ID_POSITION, ID_SIZE), (PID_POSITION, PID_SIZE),
     (PAYLOAD_POSITION, if m.Short? then SHORT_PAYLOAD_SIZE else MEDIUM_PAYLOAD_SIZE)]
  }

  /** The fields lie inside the buffer and do not overlap. */
  lemma FieldsAreDisjointAndInBounds(m: Message, i: nat, j: nat)
    requires i < j < |Fields(m)|
    ensures Fields(m)[i].0 + Fields(m)[i].1 <= Fields(m)[j].0
    ensures Fields(m)[j].0 + Fields(m)[j].1 <= BUFFER_SIZE
  {
    assert Fields(m)[0] == (0, 1) && Fields(m)[1] == (1, 1) && Fields(m)[2] == (2, 4);
  }

  /** The bytes of the payload field. */
  function PayloadBytes(m: Message): seq<Byte>
  {
    match m
    case Short(_, _, payload) => ToBytes(payload, SHORT_PAYLOAD_SIZE)
    case Medium(_, _, data) => data
  }

  function TypeOf(m: Message): Byte { if m.Short? then SHORT_MESSAGE else MEDIUM_MESSAGE }

  /** The buffer a message is turned into: header, payload, and zeros behind it. */
  function Bytes(m: Message): RawMessage
  {
    Pow256Small();
    var used := [TypeOf(m)] + Encode(m.id, ID_SIZE) + Encode(m.pid, PID_SIZE) + PayloadBytes(m);
    used + Zeros(BUFFER_SIZE - |used|)
  }

  function Zeros(n: nat): (bs: seq<Byte>)
    ensures |bs| == n && forall k :: 0 <= k < n ==> bs[k] == 0
  {
    seq(n, _ => 0)
  }

  function DeserializeToShort(raw: RawMessage): Message
  {
    var payload := FromBytes(raw[PAYLOAD_POSITION..PAYLOAD_POSITION + SHORT_PAYLOAD_SIZE]);
    FromBytesBound(raw[PAYLOAD_POSITION..PAYLOAD_POSITION + SHORT_PAYLOAD_SIZE]);
    Pow256Eight();
    Short(IdOf(raw), PidOf(raw), payload)
  }

  function DeserializeToMedium(raw: RawMessage): Message
  {
    Medium(IdOf(raw), PidOf(raw), raw[PAYLOAD_POSITION..PAYLOAD_POSITION + MEDIUM_PAYLOAD_SIZE])
  }

  function IdOf(raw: RawMessage): MessageId
  {
    FromBytesBound(raw[ID_POSITION..ID_POSITION + ID_SIZE]);
    Pow256Small();
    DecodeSigned(raw[ID_POSITION..ID_POSITION + ID_SIZE])
  }

  function PidOf(raw: RawMessage): Pid
  {
    FromBytesBound(raw[PID_POSITION..PID_POSITION + PID_SIZE]);
    Pow256Small();
    DecodeSigned(raw[PID_POSITION..PID_POSITION + PID_SIZE])
  }

  /** A receiver tells the two kinds apart by the type byte. */
  function Decode(raw: RawMessage): Option<Message>
  {
    if raw[TYPE_POSITION] == SHORT_MESSAGE then Some(DeserializeToShort(raw))
    else if raw[TYPE_POSITION] == MEDIUM_MESSAGE then Some(DeserializeToMedium(raw))
    else None
  }

  lemma Pow256Small()
    ensures Pow256(1) == 0x100 && Pow256(4) == 0x1_0000_0000
  {
    assert Pow256(2) == 0x1_0000;
    assert Pow256(3) == 0x100_0000;
  }

  lemma Pow256Eight()
    ensures Pow256(8) == 0x1_0000_0000_0000_0000
  {
    Pow256Small();
    assert Pow256(5) == 0x100_0000_0000;
    assert Pow256(6) == 0x1_0000_0000_0000;
    assert Pow256(7) == 0x100_0000_0000_0000;
  }

  lemma {:induction false} FromBytesBound(bs: seq<Byte>)
    ensures FromBytes(bs) < Pow256(|bs|)
  {
    if bs != [] {
      FromBytesBound(bs[1..]);
    }
  }

  lemma HeaderOf(m: Message)
    ensures FitsSigned(m.id, ID_SIZE) && FitsSigned(m.pid, PID_SIZE)
    ensures Bytes(m)[TYPE_POSITION] == TypeOf(m)
    ensures Bytes(m)[ID_POSITION..ID_POSITION + ID_SIZE] == Encode(m.id, ID_SIZE)
    ensures Bytes(m)[PID_POSITION..PID_POSITION + PID_SIZE] == Encode(m.pid, PID_SIZE)
    ensures Bytes(m)[PAYLOAD_POSITION..PAYLOAD_POSITION + |PayloadBytes(m)|] == PayloadBytes(m)
  {
    Pow256Small();
  }

  /** Four bytes weigh powers of 256, the least significant first. */
  function Word(a: int, b: int, c: int, d: int): int { a + 0x100 * b + 0x1_0000 * c + 0x100_0000 * d }

  /** The value of a byte whose highest bit is the sign. */
  function Signed(b: int): int { if b < 0x80 then b else b - 0x100 }

  lemma Weights(bs: seq<Byte>)
    ensures |bs| == 1 ==> FromBytes(bs) == bs[0]
    ensures |bs| == 4 ==> FromBytes(bs) == Word(bs[0], bs[1], bs[2], bs[3])
    ensures |bs| == 8 ==> FromBytes(bs) == Word(bs[0], bs[1], bs[2], bs[3]) + 0x1_0000_0000 * FromBytes(bs[4..])
  {
    if |bs| == 4 || |bs| == 8 {
      assert bs[1..][1..] == bs[2..] && bs[2..][1..] == bs[3..] && bs[3..][1..] == bs[4..];
      assert |bs| == 4 ==> bs[4..] == [];
    }
  }

  /** Every byte of a buffer: the type, the id and the process id in two's complement,
      the payload, and zeros. */
  lemma ByteByByte(m: Message)
    ensures
      var b := Bytes(m);
      && b[0] == (if m.Short? then 0x42 else 0x43)
      && m.id == Signed(b[1]) && m.pid == Word(b[2], b[3], b[4], Signed(b[5]))
      && (m.Short? ==>
            && m.payload == Word(b[6], b[7], b[8], b[9]) + 0x1_0000_0000 * Word(b[10], b[11], b[12], b[13])
            && forall k :: 14 <= k < 22 ==> b[k] == 0)
      && (m.Medium? ==> forall k :: 0 <= k < 16 ==> b[6 + k] == m.data[k])
  {
    hide ToBytes, FromBytes, Encode;
    var b := Bytes(m);
    HeaderOf(m);
    Pow256Small();
    SignedRoundTrip(m.id, ID_SIZE);
    SignedRoundTrip(m.pid, PID_SIZE);
    Weights(b[1..2]);
    Weights(b[2..6]);
    if m.Short? {
      Pow256Eight();
      BytesRoundTrip(m.payload, SHORT_PAYLOAD_SIZE);
      Weights(b[6..14]);
      assert b[6..14][4..] == b[10..14];
      Weights(b[10..14]);
    }
  }

  /** Every message comes back from the buffer, whatever its id, pid and payload. */
  lemma RoundTrip(m: Message)
    ensures Decode(Bytes(m)) == Some(m)
    ensures m.Short? ==> DeserializeToShort(Bytes(m)) == m
    ensures m.Medium? ==> DeserializeToMedium(Bytes(m)) == m
  {
    HeaderOf(m);
    Pow256Small();
    SignedRoundTrip(m.id, ID_SIZE);
    SignedRoundTrip(m.pid, PID_SIZE);
    if m.Short? {
      Pow256Eight();
      BytesRoundTrip(m.payload, SHORT_PAYLOAD_SIZE);
    }
  }

  /** Different messages give different buffers; in particular no short message
      shares its buffer with a medium one, or either with a stop message. */
  lemma BytesAreInjective(m: Message, m': Message)
    requires m != m'
    ensures Bytes(m) != Bytes(m')
    ensures Bytes(m)[TYPE_POSITION] != STOP_MESSAGE
  {
    RoundTrip(m);
    RoundTrip(m');
  }

  // ----- the code, byte by byte

  /** `std::memcpy` into the buffer. */
  method CopyInto(buffer: array<Byte>, position: nat, source: seq<Byte>)
    requires position + |source| <= buffer.Length
    modifies buffer
    ensures buffer[..] == old(buffer[..position]) + source + old(buffer[position + |source|..])
  {
    for k := 0 to |source|
      invariant buffer[..position] == old(buffer[..position])
      invariant buffer[position..position + k] == source[..k]
      invariant buffer[position + k..] == old(buffer[position + k..])
    {
      buffer[position + k] := source[k];
    }
  }

  /** `SerializeToRawMessage`, both overloads: a zeroed buffer, then the type
      byte, the id, the pid and the payload at their positions. */
  method Serialize(m: Message) returns (buffer: array<Byte>)
    ensures fresh(buffer) && buffer[..] == Bytes(m)
  {
    HeaderOf(m);
    ghost var id, pid := Encode(m.id, ID_SIZE), Encode(m.pid, PID_SIZE);
    buffer := new Byte[BUFFER_SIZE](_ => 0);
    buffer[TYPE_POSITION] := TypeOf(m);
    assert buffer[..] == [TypeOf(m)] + Zeros(21);
    CopyInto(buffer, ID_POSITION, Encode(m.id, ID_SIZE));
    assert buffer[..] == [TypeOf(m)] + id + Zeros(20);
    CopyInto(buffer, PID_POSITION, Encode(m.pid, PID_SIZE));
    assert buffer[..] == [TypeOf(m)] + id + pid + Zeros(16);
    CopyInto(buffer, PAYLOAD_POSITION, PayloadBytes(m));
    assert buffer[..] == [TypeOf(m)] + id + pid + PayloadBytes(m) + Zeros(16 - |PayloadBytes(m)|);
  }
}
