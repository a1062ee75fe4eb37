/** The strings that handles are hashed by. */
module HashStrings {

  import opened Wrappers
  import opened Deployments

  // ----- hexadecimal digits as a stream prints them

  const DIGITS: string := "0123456789abcdef"

  function Digit(d: nat): (c: char)
    requires d < 16
    ensures Value(c) == Some(d)
  {
    DIGITS[d]
  }

  function Value(c: char): (d: Option<nat>)
    ensures d.Some? ==> d.value < 16
  {
    if '0' <= c <= '9' then Some((c - '0') as nat)
    else if 'a' <= c <= 'f' then Some((c - 'a') as nat + 10)
    else None
  }

  /** `std::hex`: no leading zero, except for zero itself. */
  function Hex(n: nat): (s: string)
    ensures s != ""
    decreases n
  {
    if n < 16 then [Digit(n)] else Hex(n / 16) + [Digit(n % 16)]
  }

  /** `setfill('0')` and `setw(width)`: filled up on the left, never cut. */
  function Padded(n: nat, width: nat): string
  {
    var s := Hex(n);
    seq(if |s| < width then width - |s| else 0, _ => '0') + s
  }

  /** The number a string of hexadecimal digits stands for. */
  function FromHex(s: string): Option<nat>
  {
    if s == "" then Some(0)
    else
      var front, last := FromHex(s[..|s| - 1]), Value(s[|s| - 1]);
      if front.Some? && last.Some? then Some(16 * front.value + last.value) else None
  }

  lemma {:induction false} HexIsRead(n: nat)
    ensures FromHex(Hex(n)) == Some(n)
    decreases n
  {
    if n < 16 {
      assert [Digit(n)][..0] == "";
    } else {
      HexIsRead(n / 16);
      assert (Hex(n / 16) + [Digit(n % 16)])[..|Hex(n)| - 1] == Hex(n / 16);
    }
  }

  lemma {:induction false} ZerosInFront(k: nat, s: string)
    requires FromHex(s).Some?
    ensures FromHex(seq(k, _ => '0') + s) == FromHex(s)
    decreases |s|, k
  {
    var zeros := seq(k, _ => '0');
    if s != "" {
      ZerosInFront(k, s[..|s| - 1]);
      assert (zeros + s)[..|zeros + s| - 1] == zeros + s[..|s| - 1];
    } else if k > 0 {
      ZerosInFront(k - 1, "");
      assert (zeros + s)[..k - 1] == seq(k - 1, _ => '0') + "";
    } else {
      assert zeros + s == "";
    }
  }

  /** Padding never hides the number, whatever the width. */
  lemma PaddedIsRead(n: nat, width: nat)
    ensures FromHex(Padded(n, width)) == Some(n)
  {
    HexIsRead(n);
    ZerosInFront(if |Hex(n)| < width then width - |Hex(n)| else 0, Hex(n));
  }

  function Power16(k: nat): nat { if k == 0 then 1 else 16 * Power16(k - 1) }

  lemma {:induction false} HexLength(n: nat, k: nat)
    requires k > 0
    ensures |Hex(n)| <= k <==> n < Power16(k)
    decreases k
  {
    if k > 1 && n >= 16 {
      HexLength(n / 16, k - 1);
    } else if k == 1 {
      assert Power16(1) == 16;
    } else {
      PowerGrows(k);
    }
  }

  lemma {:induction false} PowerGrows(k: nat)
    requires k > 0
    ensures Power16(k) >= 16
  {
    if k > 1 {
      PowerGrows(k - 1);
    }
  }

  /** A number that fits is its first digits, padded, and its last one. */
  lemma LastDigit(n: nat, width: nat)
    requires n < 16 || |Hex(n)| <= width
    requires width > 1
    ensures Padded(n, width) == Padded(n / 16, width - 1) + [Digit(n % 16)]
  {
    if n < 16 {
      assert n / 16 == 0;
    }
  }

  /** An id of 16 bits takes exactly four digits, the highest first. */
  lemma FourDigits(a: u16)
    ensures |Padded(a, 4)| == 4
    ensures Padded(a, 4)[0] == "0123456789abcdef"[a / 0x1000] && Padded(a, 4)[1] == "0123456789abcdef"[a / 0x100 % 16]
    ensures Padded(a, 4)[2] == "0123456789abcdef"[a / 16 % 16] && Padded(a, 4)[3] == "0123456789abcdef"[a % 16]
  {
    hide Hex, Padded;
    HexLength(a, 4);
    HexLength(a / 16, 3);
    HexLength(a / 256, 2);
    assert Power16(2) == 0x100 && Power16(3) == 0x1000 && Power16(4) == 0x1_0000;
    LastDigit(a, 4);
    LastDigit(a / 16, 3);
    LastDigit(a / 256, 2);
    OneDigit(a / 0x1000);
    assert a / 16 / 16 == a / 0x100 && a / 256 / 16 == a / 0x1000;
  }

  lemma OneDigit(d: nat)
    requires d < 16
    ensures Padded(d, 1) == [Digit(d)]
  {
  }

  /** No two ids have the same four digits. */
  lemma IdsTakeFourDigits(a: u16, b: u16)
    ensures |Padded(a, 4)| == 4
    ensures Padded(a, 4) == Padded(b, 4) <==> a == b
  {
    HexLength(a, 4);
    assert Power16(4) == 0x1_0000;
    PaddedIsRead(a, 4);
    PaddedIsRead(b, 4);
  }

  // ----- hash strings of instance ids and service types

  const ID_SIZE := 4          // hashStringSize of a 16-bit id
  const INSTANCE_SIZE := ID_SIZE + 1
  const TYPE_SIZE := ID_SIZE + 1

  function InstanceHash(i: InstanceId): string
  {
    match i
    case LolaId(id) => Hex(0) + Padded(id, ID_SIZE)
    case SomeIpId(id) => Hex(1) + Padded(id, ID_SIZE)
    case BlankId => Hex(2)
  }

  function TypeHash(t: TypeBinding): string
  {
    match t
    case LolaType(id, _, _) => Hex(0) + Padded(id, ID_SIZE)
    case BlankType => Hex(1)
  }

  /** A hash string starts with the index of the binding, and an id follows it. */
  lemma IndexThenId(i: InstanceId, t: TypeBinding)
    ensures InstanceHash(i) == match i case LolaId(id) => "0" + Padded(id, 4)
                                       case SomeIpId(id) => "1" + Padded(id, 4)
                                       case BlankId => "2"
    ensures TypeHash(t) == match t case LolaType(id, _, _) => "0" + Padded(id, 4) case BlankType => "1"
  {
    assert Hex(0) == "0" && Hex(1) == "1" && Hex(2) == "2";
  }

  lemma HashSizes(i: InstanceId, t: TypeBinding)
    ensures |InstanceHash(i)| == (if i.BlankId? then 1 else INSTANCE_SIZE)
    ensures |TypeHash(t)| == (if t.BlankType? then 1 else TYPE_SIZE)
    ensures |InstanceHash(i) + TypeHash(t)| <= INSTANCE_SIZE + TYPE_SIZE
  {
    if !i.BlankId? {
      IdsTakeFourDigits(i.id, 0);
    }
    if t.LolaType? {
      IdsTakeFourDigits(t.serviceId, 0);
    }
  }

  // ----- what the concatenation tells

  /** What the hash string of a handle is about: the kind of binding and the id on
      either side. */
  datatype Identity = Identity(instanceId: InstanceId, serviceId: Option<u16>)

  function IdentityOf(i: InstanceId, t: TypeBinding): Identity
  {
    Identity(i, if t.LolaType? then Some(t.serviceId) else None)
  }

  function ReadId(s: string): Option<u16>
  {
    var n := FromHex(s);
    if n.Some? && n.value < U16 then Some(n.value) else None
  }

  function ReadType(s: string): Option<Option<u16>>
  {
    if |s| == TYPE_SIZE && s[0] == '0' && ReadId(s[1..]).Some? then Some(Some(ReadId(s[1..]).value))
    else if s == "1" then Some(None)
    else None
  }

  function Read(s: string): Option<Identity>
  {
    if && |s| > INSTANCE_SIZE && s[0] in "01" && ReadId(s[1..INSTANCE_SIZE]).Some?
       && ReadType(s[INSTANCE_SIZE..]).Some?
    then
      var id := ReadId(s[1..INSTANCE_SIZE]).value;
      Some(Identity(if s[0] == '0' then LolaId(id) else SomeIpId(id), ReadType(s[INSTANCE_SIZE..]).value))
    else if s != "" && s[0] == '2' && ReadType(s[1..]).Some? then Some(Identity(BlankId, ReadType(s[1..]).value))
    else None
  }

  lemma TypeIsRead(t: TypeBinding)
    ensures ReadType(TypeHash(t)) == Some(IdentityOf(BlankId, t).serviceId)
  {
    if t.LolaType? {
      IdsTakeFourDigits(t.serviceId, 0);
      PaddedIsRead(t.serviceId, ID_SIZE);
      assert TypeHash(t)[1..] == Padded(t.serviceId, ID_SIZE);
    }
  }

  /** The concatenation can be taken apart again. */
  lemma HandleIsRead(i: InstanceId, t: TypeBinding)
    ensures Read(InstanceHash(i) + TypeHash(t)) == Some(IdentityOf(i, t))
  {
    TypeIsRead(t);
    var s := InstanceHash(i) + TypeHash(t);
    HashSizes(i, t);
    if i.BlankId? {
      assert s[1..] == TypeHash(t);
    } else {
      PaddedIsRead(i.id, ID_SIZE);
      assert s[1..INSTANCE_SIZE] == Padded(i.id, ID_SIZE);
      assert s[INSTANCE_SIZE..] == TypeHash(t);
    }
  }

  /** Handles hash the same characters exactly if they agree on both binding
      kinds and both ids. */
  lemma SameCharactersIff(i: InstanceId, t: TypeBinding, j: InstanceId, u: TypeBinding)
    ensures InstanceHash(i) + TypeHash(t) == InstanceHash(j) + TypeHash(u) <==> IdentityOf(i, t) == IdentityOf(j, u)
  {
    HandleIsRead(i, t);
    HandleIsRead(j, u);
  }

  /** The hash function up to the hash of the characters: both strings are copied
      one behind the other into a buffer of fixed size, which they never exceed. */
  method HashInput(i: InstanceId, t: TypeBinding) returns (buffer: array<char>, size: nat)
    ensures fresh(buffer) && buffer.Length == INSTANCE_SIZE + TYPE_SIZE && size <= buffer.Length
    ensures buffer[..size] == InstanceHash(i) + TypeHash(t)
  {
    var first, second := InstanceHash(i), TypeHash(t);
    buffer := new char[INSTANCE_SIZE + TYPE_SIZE](_ => NUL);
    size := |first| + |second|;
    HashSizes(i, t);
    assert size <= buffer.Length;     // the production assertion
    var pos := Copy(first, buffer, 0);
    pos := Copy(second, buffer, pos);
    assert buffer[..size] == buffer[..|first|] + buffer[|first|..size];
  }

  /** `std::copy` of a string to a position of the buffer. */
  method Copy(s: string, buffer: array<char>, start: nat) returns (end: nat)
    requires start + |s| <= buffer.Length
    modifies buffer
    ensures end == start + |s| && buffer[start..end] == s
    ensures buffer[..start] == old(buffer[..start]) && buffer[end..] == old(buffer[end..])
  {
    end := start;
    while end - start < |s|
      invariant start <= end <= start + |s|
      invariant buffer[start..end] == s[..end - start]
      invariant buffer[..start] == old(buffer[..start]) && buffer[end..] == old(buffer[end..])
    {
      buffer[end] := s[end - start];
      end := end + 1;
    }
  }
}
