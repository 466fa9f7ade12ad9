/** The 20-byte big-endian frame header of protocol versions 2 and 3. */
module Codec {

  type byte = b: int | 0 <= b < 256
  type u16 = n: int | 0 <= n < 0x1_0000
  type u32 = n: int | 0 <= n < 0x1_0000_0000

  datatype Result<+T, +E> = Ok(value: T) | Err(error: E)

  const HEADER_SIZE: nat := 20
  const VERSION: byte := 2
  const CANCELLABLE_VERSION: byte := 3
  const MAGIC: seq<byte> := [69, 85, 68, 83]  // "EUDS"

  datatype WireType =
    | Request | Response
    | StreamRequest | StreamRequestChunk | StreamRequestEnd
    | StreamResponse | StreamResponseChunk | StreamResponseEnd
    | CancelRequest

  datatype Header = Header(kind: WireType, id: u32, arg1: u32, arg2: u32, flags: u16, version: byte)

  datatype DecodeError =
    | BadMagic | BadVersion | BadFlags | UnknownType
    | MisplacedDescriptor | MisplacedHandle | BadCancellation

  function TypeCode(t: WireType): byte {
    match t
    case Request => 1
    case Response => 2
    case StreamRequest => 3
    case StreamRequestChunk => 4
    case StreamRequestEnd => 5
    case StreamResponse => 6
    case StreamResponseChunk => 7
    case StreamResponseEnd => 8
    case CancelRequest => 9
  }

  function TypeOf(code: byte): WireType
    requires 1 <= code <= 9
  {
    match code
    case 1 => Request
    case 2 => Response
    case 3 => StreamRequest
    case 4 => StreamRequestChunk
    case 5 => StreamRequestEnd
    case 6 => StreamResponse
    case 7 => StreamResponseChunk
    case 8 => StreamResponseEnd
    case _ => CancelRequest
  }

  // The two flag bits: bit 0 announces a passed descriptor, bit 1 a Windows handle.
  predicate CarriesFd(flags: u16) { flags % 2 == 1 }
  predicate CarriesHandle(flags: u16) { flags / 2 % 2 == 1 }

  // Byte `i` of a big-endian 32-bit field.
  function U32Byte(v: u32, i: nat): byte
    requires i < 4
  {
    if i == 0 then v / 256 / 256 / 256
    else if i == 1 then v / 256 / 256 % 256
    else if i == 2 then v / 256 % 256
    else v % 256
  }

  function Word(b0: int, b1: int, b2: int, b3: int): int {
    ((b0 * 256 + b1) * 256 + b2) * 256 + b3
  }

  function U32At(h: seq<byte>, offset: nat): u32
    requires offset + 4 <= |h|
  {
    Word(h[offset], h[offset + 1], h[offset + 2], h[offset + 3])
  }

  lemma U32RoundTrip(v: u32, h: seq<byte>, offset: nat)
    requires offset + 4 <= |h| && forall i: nat | i < 4 :: h[offset + i] == U32Byte(v, i)
    ensures U32At(h, offset) == v
  {
    assert h[offset + 0] == U32Byte(v, 0) && h[offset + 1] == U32Byte(v, 1);
    assert h[offset + 2] == U32Byte(v, 2) && h[offset + 3] == U32Byte(v, 3);
  }

  lemma U32Canonical(h: seq<byte>, offset: nat)
    requires offset + 4 <= |h|
    ensures forall i: nat | i < 4 :: U32Byte(U32At(h, offset), i) == h[offset + i]
  {
    var high: int, low: int := h[offset], h[offset + 1];
    var v := U32At(h, offset);
    assert v / 256 == (high * 256 + low) * 256 + h[offset + 2];
    assert v / 256 / 256 == high * 256 + low;
  }

  function HeaderByte(h: Header, i: nat): byte
    requires i < HEADER_SIZE
  {
    if i < 4 then MAGIC[i]
    else if i == 4 then h.version
    else if i == 5 then TypeCode(h.kind)
    else if i == 6 then h.flags / 256
    else if i == 7 then h.flags % 256
    else if i < 12 then U32Byte(h.id, i - 8)
    else if i < 16 then U32Byte(h.arg1, i - 12)
    else U32Byte(h.arg2, i - 16)
  }

  /** What `EncodeHeader` leaves in the buffer. */
  function HeaderBytes(h: Header): (r: seq<byte>)
    ensures |r| == HEADER_SIZE
  {
    seq(HEADER_SIZE, i requires 0 <= i < HEADER_SIZE => HeaderByte(h, i))
  }

  method PutU32(header: array<byte>, offset: nat, value: u32)
    requires offset + 4 <= header.Length
    modifies header
    ensures forall i: nat | i < 4 :: header[offset + i] == U32Byte(value, i)
    ensures forall j | 0 <= j < header.Length && !(offset <= j < offset + 4) :: header[j] == old(header[j])
  {
    header[offset] := value / 256 / 256 / 256;
    header[offset + 1] := value / 256 / 256 % 256;
    header[offset + 2] := value / 256 % 256;
    header[offset + 3] := value % 256;
  }

  method PutStart(header: array<byte>, h: Header)
    requires header.Length == HEADER_SIZE
    modifies header
    ensures forall i: nat | i < 8 :: header[i] == HeaderByte(h, i)
  {
    header[0], header[1], header[2], header[3] := MAGIC[0], MAGIC[1], MAGIC[2], MAGIC[3];
    header[4] := h.version;
    header[5] := TypeCode(h.kind);
    header[6] := h.flags / 256;
    header[7] := h.flags % 256;
  }

  method EncodeHeader(h: Header) returns (header: array<byte>)
    ensures fresh(header) && header[..] == HeaderBytes(h)
  {
    header := new byte[HEADER_SIZE](_ => 0);
    PutStart(header, h);
    PutU32(header, 8, h.id);
    PutU32(header, 12, h.arg1);
    PutU32(header, 16, h.arg2);
    forall i: nat | i < HEADER_SIZE ensures header[i] == HeaderByte(h, i) {
      if 8 <= i < 12 {
        assert header[8 + (i - 8)] == U32Byte(h.id, i - 8);
      } else if 12 <= i < 16 {
        assert header[12 + (i - 12)] == U32Byte(h.arg1, i - 12);
      } else if 16 <= i {
        assert header[16 + (i - 16)] == U32Byte(h.arg2, i - 16);
      }
    }
  }

  function FlagsAt(h: seq<byte>): u16
    requires |h| == HEADER_SIZE
  {
    (h[6] as int) * 256 + h[7]
  }

  function Decode(h: seq<byte>): Result<Header, DecodeError>
    requires |h| == HEADER_SIZE
  {
    if h[..4] != MAGIC then Err(BadMagic)
    else Judge(h[4], h[5], FlagsAt(h), U32At(h, 8), U32At(h, 12), U32At(h, 16))
  }

  /** The checks after the magic, in the order they are made. */
  function Judge(version: byte, code: byte, flags: u16, id: u32, arg1: u32, arg2: u32): Result<Header, DecodeError> {
    if version != VERSION && version != CANCELLABLE_VERSION then Err(BadVersion)
    else if flags / 4 != 0 then Err(BadFlags)
    else if code < 1 || code > 9 then Err(UnknownType)
    else if CarriesFd(flags) && (code != 1 || id != 0 || CarriesHandle(flags)) then Err(MisplacedDescriptor)
    else if CarriesHandle(flags) && (code != 1 || id != 0) then Err(MisplacedHandle)
    else if code == 9 && (version != CANCELLABLE_VERSION || id == 0 || flags != 0 || arg1 != 0 || arg2 != 0)
    then Err(BadCancellation)
    else Ok(Header(TypeOf(code), id, arg1, arg2, flags, version))
  }

  /** The headers the protocol allows, stated field by field. */
  predicate Allowed(h: Header) {
    && (h.version == VERSION || h.version == CANCELLABLE_VERSION)
    && h.flags <= 2
    && (h.flags != 0 ==> h.kind == Request && h.id == 0)
    && (h.kind == CancelRequest ==>
          h.version == CANCELLABLE_VERSION && h.id != 0 && h.arg1 == 0 && h.arg2 == 0)
  }

  lemma JudgeAllows(h: Header)
    ensures Allowed(h) ==> Judge(h.version, TypeCode(h.kind), h.flags, h.id, h.arg1, h.arg2) == Ok(h)
    ensures !Allowed(h) ==> Judge(h.version, TypeCode(h.kind), h.flags, h.id, h.arg1, h.arg2).Err?
  {
  }

  lemma FieldsOfEncode(h: Header)
    ensures var b := HeaderBytes(h);
            && b[..4] == MAGIC && b[4] == h.version && b[5] == TypeCode(h.kind) && FlagsAt(b) == h.flags
            && U32At(b, 8) == h.id && U32At(b, 12) == h.arg1 && U32At(b, 16) == h.arg2
  {
    var b := HeaderBytes(h);
    U32RoundTrip(h.id, b, 8);
    U32RoundTrip(h.arg1, b, 12);
    U32RoundTrip(h.arg2, b, 16);
  }

  /** Decoding inverts encoding on exactly the allowed headers; every other header is refused. */
  lemma DecodeOfEncode(h: Header)
    ensures Allowed(h) ==> Decode(HeaderBytes(h)) == Ok(h)
    ensures !Allowed(h) ==> Decode(HeaderBytes(h)).Err?
  {
    FieldsOfEncode(h);
    JudgeAllows(h);
  }

  lemma BytesFromFields(b: seq<byte>, h: Header)
    requires |b| == HEADER_SIZE && b[..4] == MAGIC && h.version == b[4] && TypeCode(h.kind) == b[5]
    requires h.flags == FlagsAt(b) && h.id == U32At(b, 8) && h.arg1 == U32At(b, 12) && h.arg2 == U32At(b, 16)
    ensures HeaderBytes(h) == b
  {
    U32Canonical(b, 8);
    U32Canonical(b, 12);
    U32Canonical(b, 16);
    forall i: nat | i < HEADER_SIZE ensures HeaderByte(h, i) == b[i] {
      if i < 4 {
        assert b[i] == b[..4][i];
      } else if 8 <= i < 12 {
        assert b[8 + (i - 8)] == U32Byte(h.id, i - 8);
      } else if 12 <= i < 16 {
        assert b[12 + (i - 12)] == U32Byte(h.arg1, i - 12);
      } else if 16 <= i {
        assert b[16 + (i - 16)] == U32Byte(h.arg2, i - 16);
      }
    }
  }

  /** Encoding inverts decoding on every accepted 20-byte string, so each header has one spelling. */
  lemma EncodeOfDecode(b: seq<byte>)
    requires |b| == HEADER_SIZE && Decode(b).Ok?
    ensures Allowed(Decode(b).value) && HeaderBytes(Decode(b).value) == b
  {
    BytesFromFields(b, Decode(b).value);
    JudgeAllows(Decode(b).value);
  }

  datatype LengthError = EmptyRoute | TooLong

  function ValidateRequestLengths(route: nat, body: nat, maxMessage: nat): (e: Result<(), LengthError>)
    ensures e.Ok? <==> 0 < route < 0x1_0000_0000 && body < 0x1_0000_0000 && route + body <= maxMessage
  {
    if route == 0 then Err(EmptyRoute)
    else if route > 0xFFFF_FFFF || body > 0xFFFF_FFFF then Err(TooLong)
    else if route > maxMessage || body > maxMessage - route then Err(TooLong)
    else Ok(())
  }
}
