/**
 * The Protocol Buffers wire format ("Encoding" guide: Base 128 Varints,
 * Message Structure, Length-Delimited Records), as far as the generated
 * messages use it: the runtime helpers `read_tag_unpack`, `read_string`,
 * `read_unknown_or_skip_group`, `string_size`, `unknown_fields_size`,
 * `write_string` and `write_unknown_fields`.
 *
 * Input is a byte sequence read from a position; every reader returns the
 * value and the position just after it, or a decode error.
 */
module WireFormat {
  import opened Results
  import Utf8

  type byte = b: int | 0 <= b < 0x100

  const TWO_32: int := 0x1_0000_0000
  const TWO_64: int := 0x1_0000_0000_0000_0000

  type u32 = x: int | 0 <= x < 0x1_0000_0000
  type u64 = x: int | 0 <= x < 0x1_0000_0000_0000_0000

  /** The largest field number: a tag is a 32-bit value whose low three bits hold the wire type. */
  const MAX_FIELD_NUMBER: int := 0x1FFF_FFFF

  type FieldNumber = n: int | 1 <= n <= MAX_FIELD_NUMBER witness 1

  datatype WireType =
    | WireTypeVarint
    | WireTypeFixed64
    | WireTypeLengthDelimited
    | WireTypeStartGroup
    | WireTypeEndGroup
    | WireTypeFixed32

  /** The three-bit code of a wire type, as it appears in the low bits of a tag. */
  function WireTypeCode(wt: WireType): (c: nat)
    ensures c < 6
  {
    match wt
    case WireTypeVarint => 0
    case WireTypeFixed64 => 1
    case WireTypeLengthDelimited => 2
    case WireTypeStartGroup => 3
    case WireTypeEndGroup => 4
    case WireTypeFixed32 => 5
  }

  /** The wire type with code `c`; codes 6 and 7 name none. */
  function WireTypeOfCode(c: nat): (r: Option<WireType>)
    ensures r.Some? <==> c < 6
    ensures r.Some? ==> WireTypeCode(r.value) == c
  {
    if c == 0 then Some(WireTypeVarint)
    else if c == 1 then Some(WireTypeFixed64)
    else if c == 2 then Some(WireTypeLengthDelimited)
    else if c == 3 then Some(WireTypeStartGroup)
    else if c == 4 then Some(WireTypeEndGroup)
    else if c == 5 then Some(WireTypeFixed32)
    else None
  }

  datatype DecodeError =
    | UnexpectedEof                          // the input ends inside a varint
    | TruncatedMessage                       // a fixed-width value or a length-delimited payload runs past the end
    | IncorrectVarint                        // a varint longer than ten bytes
    | IncorrectTag(tag: u32)                 // a tag with wire type 6 or 7, or with field number 0
    | UnexpectedWireType(wireType: WireType) // a wire type the field or the position does not allow
    | Utf8Error                              // a string payload that is not UTF-8

  // ---------------------------------------------------------------- varints

  function Pow128(k: nat): (r: nat)
    ensures r >= 1
  {
    if k == 0 then 1 else 0x80 * Pow128(k - 1)
  }

  /** Base 128 varint: seven bits per byte, least significant group first, high bit set on all but the last byte. */
  function EncodeVarint(n: nat): (r: seq<byte>)
    ensures r != []
    decreases n
  {
    if n < 0x80 then [n] else [n % 0x80 + 0x80] + EncodeVarint(n / 0x80)
  }

  /**
   * Reads the varint at `pos`: at most ten bytes, the value kept modulo 2^64
   * (bits shifted past the 64th are dropped, as `read_raw_varint64` does).
   */
  function ReadVarint(s: seq<byte>, pos: nat): (r: Result<(u64, nat), DecodeError>)
    ensures r.Success? ==> pos < r.value.1 <= |s|
  {
    ReadVarintFrom(s, pos, 0, 0)
  }

  /** `x << (7 * k)`, the contribution of a varint's `k`-th group of seven bits. */
  function ShiftLeft7(x: nat, k: nat): nat
  {
    if k == 0 then x else 0x80 * ShiftLeft7(x, k - 1)
  }

  /** The varint loop after `i` bytes have contributed `acc`. */
  function ReadVarintFrom(s: seq<byte>, pos: nat, i: nat, acc: nat): (r: Result<(u64, nat), DecodeError>)
    requires i <= 10
    ensures r.Success? ==> pos + i < r.value.1 <= |s|
    decreases 10 - i
  {
    if i == 10 then Failure(IncorrectVarint)
    else if pos + i >= |s| then Failure(UnexpectedEof)
    else
      var b := s[pos + i];
      var acc' := acc + ShiftLeft7(b % 0x80, i);
      if b < 0x80 then Success((acc' % TWO_64, pos + i + 1))
      else ReadVarintFrom(s, pos, i + 1, acc')
  }

  /** The size `compute_raw_varint64_size` gives: one byte per started group of seven bits. */
  function VarintSize(n: nat): (r: nat)
    ensures 1 <= r <= 10
  {
    if n < 0x80 then 1
    else if n < 0x4000 then 2
    else if n < 0x20_0000 then 3
    else if n < 0x1000_0000 then 4
    else if n < 0x8_0000_0000 then 5
    else if n < 0x400_0000_0000 then 6
    else if n < 0x2_0000_0000_0000 then 7
    else if n < 0x100_0000_0000_0000 then 8
    else if n < 0x8000_0000_0000_0000 then 9
    else 10
  }

  // ------------------------------------------------------------------- tags

  datatype Tag = Tag(fieldNumber: FieldNumber, wireType: WireType)

  /** `(field_number << 3) | wire_type`. */
  function TagValue(fieldNumber: FieldNumber, wt: WireType): (v: nat)
    ensures v < TWO_32
  {
    fieldNumber * 8 + WireTypeCode(wt)
  }

  function WriteTag(fieldNumber: FieldNumber, wt: WireType): seq<byte>
  {
    EncodeVarint(TagValue(fieldNumber, wt))
  }

  /** `tag_size`: the wire type never changes the size of a tag. */
  function TagSize(fieldNumber: FieldNumber): nat
  {
    VarintSize(fieldNumber * 8)
  }

  /**
   * `read_tag_unpack`: a varint truncated to 32 bits, split into field number
   * and wire type; wire types 6 and 7 and field number 0 are rejected.
   */
  function ReadTag(s: seq<byte>, pos: nat): (r: Result<(Tag, nat), DecodeError>)
    ensures r.Success? ==> pos < r.value.1 <= |s|
  {
    match ReadVarint(s, pos)
    case Failure(e) => Failure(e)
    case Success((v64, next)) =>
      var v := v64 % TWO_32;
      match WireTypeOfCode(v % 8)
      case None => Failure(IncorrectTag(v))
      case Some(wt) =>
        if v / 8 == 0 then Failure(IncorrectTag(v))
        else Success((Tag(v / 8, wt), next))
  }

  // ---------------------------------------------------- fixed-width values

  /** The `n` low bytes of `v`, least significant first. */
  function LittleEndian(v: nat, n: nat): (r: seq<byte>)
    ensures |r| == n
  {
    if n == 0 then [] else [v % 0x100] + LittleEndian(v / 0x100, n - 1)
  }

  function FromLittleEndian(bs: seq<byte>): nat
  {
    if bs == [] then 0 else bs[0] + 0x100 * FromLittleEndian(bs[1..])
  }

  /** `read_fixed32`: four bytes, least significant first. */
  function ReadFixed32(s: seq<byte>, pos: nat): (r: Result<(u32, nat), DecodeError>)
    ensures r.Success? ==> r.value.1 == pos + 4 <= |s|
  {
    if pos + 4 > |s| then Failure(TruncatedMessage)
    else
      var bs := s[pos..pos + 4];
      FromLittleEndianBound(bs);
      assert Pow256(4) == TWO_32;
      Success((FromLittleEndian(bs), pos + 4))
  }

  /** `read_fixed64`: eight bytes, least significant first. */
  function ReadFixed64(s: seq<byte>, pos: nat): (r: Result<(u64, nat), DecodeError>)
    ensures r.Success? ==> r.value.1 == pos + 8 <= |s|
  {
    if pos + 8 > |s| then Failure(TruncatedMessage)
    else
      var bs := s[pos..pos + 8];
      FromLittleEndianBound(bs);
      assert Pow256(8) == TWO_64;
      Success((FromLittleEndian(bs), pos + 8))
  }

  // ------------------------------------------------ length-delimited values

  /** A length prefix (a varint read as 32 bits) followed by that many bytes. */
  function ReadBytes(s: seq<byte>, pos: nat): (r: Result<(seq<byte>, nat), DecodeError>)
    ensures r.Success? ==> |r.value.0| < TWO_32 && pos < r.value.1 <= |s|
  {
    match ReadVarint(s, pos)
    case Failure(e) => Failure(e)
    case Success((len64, next)) =>
      var len := len64 % TWO_32;
      if len > |s| - next then Failure(TruncatedMessage)
      else Success((s[next..next + len], next + len))
  }

  /** `read_string`: a length-delimited payload that must be valid UTF-8. */
  function ReadString(s: seq<byte>, pos: nat): (r: Result<(seq<byte>, nat), DecodeError>)
    ensures r.Success? ==> Utf8.IsValid(r.value.0) && |r.value.0| < TWO_32 && pos < r.value.1 <= |s|
  {
    match ReadBytes(s, pos)
    case Failure(e) => Failure(e)
    case Success((bytes, next)) =>
      if Utf8.IsValid(bytes) then Success((bytes, next)) else Failure(Utf8Error)
  }

  function BytesNoTag(b: seq<byte>): seq<byte>
  {
    EncodeVarint(|b|) + b
  }

  /** `write_string`: tag with wire type 2, length, payload. */
  function WriteString(fieldNumber: FieldNumber, b: seq<byte>): seq<byte>
  {
    WriteTag(fieldNumber, WireTypeLengthDelimited) + BytesNoTag(b)
  }

  /** `string_size`: tag size plus `bytes_size_no_tag`. */
  function StringSize(fieldNumber: FieldNumber, b: seq<byte>): nat
  {
    TagSize(fieldNumber) + VarintSize(|b|) + |b|
  }

  // --------------------------------------------------------- unknown fields

  /** A value kept for a field number the message does not declare (the runtime's `UnknownValue`). */
  datatype UnknownValue =
    | Fixed32(v32: u32)
    | Fixed64(v64: u64)
    | Varint(v: u64)
    | LengthDelimited(bytes: seq<byte>)

  datatype UnknownField = UnknownField(number: FieldNumber, value: UnknownValue)

  function ValueWireType(v: UnknownValue): (wt: WireType)
    ensures wt != WireTypeStartGroup && wt != WireTypeEndGroup
  {
    match v
    case Fixed32(_) => WireTypeFixed32
    case Fixed64(_) => WireTypeFixed64
    case Varint(_) => WireTypeVarint
    case LengthDelimited(_) => WireTypeLengthDelimited
  }

  /** A value the encoder can write back: a length prefix fits the 32 bits the decoder reads. */
  predicate ValueWellFormed(v: UnknownValue)
  {
    v.LengthDelimited? ==> |v.bytes| < TWO_32
  }

  predicate UnknownWellFormed(u: seq<UnknownField>)
  {
    forall k :: 0 <= k < |u| ==> ValueWellFormed(u[k].value)
  }

  /** `read_unknown`: one value of the given wire type; groups are not values. */
  function ReadUnknown(s: seq<byte>, pos: nat, wt: WireType): (r: Result<(UnknownValue, nat), DecodeError>)
    ensures r.Success? ==> ValueWellFormed(r.value.0) && ValueWireType(r.value.0) == wt && pos < r.value.1 <= |s|
  {
    match wt
    case WireTypeVarint =>
      (match ReadVarint(s, pos)
       case Failure(e) => Failure(e)
       case Success((v, next)) => Success((Varint(v), next)))
    case WireTypeFixed64 =>
      (match ReadFixed64(s, pos)
       case Failure(e) => Failure(e)
       case Success((v, next)) => Success((Fixed64(v), next)))
    case WireTypeFixed32 =>
      (match ReadFixed32(s, pos)
       case Failure(e) => Failure(e)
       case Success((v, next)) => Success((Fixed32(v), next)))
    case WireTypeLengthDelimited =>
      (match ReadBytes(s, pos)
       case Failure(e) => Failure(e)
       case Success((b, next)) => Success((LengthDelimited(b), next)))
    case WireTypeStartGroup => Failure(UnexpectedWireType(wt))
    case WireTypeEndGroup => Failure(UnexpectedWireType(wt))
  }

  /**
   * Skips the rest of a group whose START_GROUP tag has been read: tags and
   * their values up to the first END_GROUP tag at this level, or to the end
   * of input. Nested groups are skipped whole.
   */
  function SkipGroup(s: seq<byte>, pos: nat): (r: Result<nat, DecodeError>)
    requires pos <= |s|
    ensures r.Success? ==> pos <= r.value <= |s|
    decreases |s| - pos, 0
  {
    if pos == |s| then Success(pos)
    else
      match ReadTag(s, pos)
      case Failure(e) => Failure(e)
      case Success((tag, next)) =>
        if tag.wireType == WireTypeEndGroup then Success(next)
        else
          match SkipField(s, next, tag.wireType)
          case Failure(e) => Failure(e)
          case Success(after) => SkipGroup(s, after)
  }

  /** Skips one value of wire type `wt` inside a group. */
  function SkipField(s: seq<byte>, pos: nat, wt: WireType): (r: Result<nat, DecodeError>)
    requires pos <= |s|
    ensures r.Success? ==> pos <= r.value <= |s|
    decreases |s| - pos, 1
  {
    if wt == WireTypeStartGroup then SkipGroup(s, pos)
    else if wt == WireTypeEndGroup then Failure(UnexpectedWireType(wt))
    else
      match ReadUnknown(s, pos, wt)
      case Failure(e) => Failure(e)
      case Success((_, next)) => Success(next)
  }

  /**
   * `read_unknown_or_skip_group`: a group is skipped and dropped; any other
   * value is appended to the unknown store under its field number.
   */
  function ReadUnknownOrSkipGroup(fieldNumber: FieldNumber, wt: WireType, s: seq<byte>, pos: nat,
                                  unknown: seq<UnknownField>): (r: Result<(seq<UnknownField>, nat), DecodeError>)
    requires pos <= |s|
    ensures r.Success? ==> pos <= r.value.1 <= |s|
    ensures r.Success? && wt == WireTypeStartGroup ==> r.value.0 == unknown
    ensures r.Success? && wt != WireTypeStartGroup ==>
              |r.value.0| == |unknown| + 1 && r.value.0[..|unknown|] == unknown &&
              r.value.0[|unknown|].number == fieldNumber &&
              ValueWellFormed(r.value.0[|unknown|].value) &&
              ValueWireType(r.value.0[|unknown|].value) == wt
  {
    if wt == WireTypeStartGroup then
      match SkipGroup(s, pos)
      case Failure(e) => Failure(e)
      case Success(next) => Success((unknown, next))
    else
      match ReadUnknown(s, pos, wt)
      case Failure(e) => Failure(e)
      case Success((v, next)) => Success((unknown + [UnknownField(fieldNumber, v)], next))
  }

  function ValueBytes(v: UnknownValue): seq<byte>
  {
    match v
    case Fixed32(x) => LittleEndian(x, 4)
    case Fixed64(x) => LittleEndian(x, 8)
    case Varint(x) => EncodeVarint(x)
    case LengthDelimited(b) => BytesNoTag(b)
  }

  function ValueSize(v: UnknownValue): nat
  {
    match v
    case Fixed32(_) => 4
    case Fixed64(_) => 8
    case Varint(x) => VarintSize(x)
    case LengthDelimited(b) => VarintSize(|b|) + |b|
  }

  /** `write_unknown`: the tag, then the value. */
  function UnknownFieldBytes(f: UnknownField): seq<byte>
  {
    WriteTag(f.number, ValueWireType(f.value)) + ValueBytes(f.value)
  }

  /** `write_unknown_fields`: every stored value, in store order. */
  function UnknownFieldsBytes(u: seq<UnknownField>): seq<byte>
  {
    if u == [] then [] else UnknownFieldBytes(u[0]) + UnknownFieldsBytes(u[1..])
  }

  /** `unknown_fields_size`: a tag and a value size per stored value. */
  function UnknownFieldsSize(u: seq<UnknownField>): nat
  {
    if u == [] then 0 else TagSize(u[0].number) + ValueSize(u[0].value) + UnknownFieldsSize(u[1..])
  }

  // ------------------------------------------------------ bounds used above

  lemma {:induction false} FromLittleEndianBound(bs: seq<byte>)
    ensures FromLittleEndian(bs) < Pow256(|bs|)
  {
    if bs != [] {
      FromLittleEndianBound(bs[1..]);
    }
  }

  function Pow256(k: nat): (r: nat)
    ensures r >= 1
  {
    if k == 0 then 1 else 0x100 * Pow256(k - 1)
  }
}
