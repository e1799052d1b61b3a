/**
 * What the wire-format readers and writers promise each other: every reader
 * inverts its writer, and every size function is the length of what its
 * writer produces (the two-pass size/write protocol).
 */
module WireLemmas {
  import opened Results
  import opened WireFormat

  /** `w` occurs in `s` starting at `p`. */
  predicate IsPrefixAt(s: seq<byte>, p: nat, w: seq<byte>)
  {
    p + |w| <= |s| && forall k :: 0 <= k < |w| ==> s[p + k] == w[k]
  }

  /** The bytes of `s` from `p` on begin with `w`. */
  lemma PrefixSlice(s: seq<byte>, p: nat, w: seq<byte>)
    requires IsPrefixAt(s, p, w)
    ensures s[p..p + |w|] == w
  {
    assert forall k :: 0 <= k < |w| ==> s[p..p + |w|][k] == w[k];
  }

  lemma PrefixSplit(s: seq<byte>, p: nat, a: seq<byte>, b: seq<byte>)
    requires IsPrefixAt(s, p, a + b)
    ensures IsPrefixAt(s, p, a) && IsPrefixAt(s, p + |a|, b)
  {
    assert forall k :: 0 <= k < |a| ==> (a + b)[k] == a[k];
    assert forall k :: 0 <= k < |b| ==> (a + b)[|a| + k] == b[k];
  }

  lemma ConcatAssoc(a: seq<byte>, b: seq<byte>, c: seq<byte>)
    ensures (a + b) + c == a + (b + c)
  {
  }

  /** Appending the head of `u` and then its tail appends `u`. */
  lemma AppendHeadTail<T>(a: seq<T>, u: seq<T>)
    requires u != []
    ensures a + [u[0]] + u[1..] == a + u
  {
    assert [u[0]] + u[1..] == u;
  }

  // ---------------------------------------------------------------- varints

  /** A varint fits in `k` bytes exactly when the value is below 128^k. */
  lemma {:induction false} EncodeVarintLength(n: nat, k: nat)
    requires k >= 1
    ensures |EncodeVarint(n)| <= k <==> n < Pow128(k)
    decreases n
  {
    if n >= 0x80 {
      assert |EncodeVarint(n)| == 1 + |EncodeVarint(n / 0x80)|;
      if k > 1 {
        EncodeVarintLength(n / 0x80, k - 1);
        assert Pow128(k) == 0x80 * Pow128(k - 1);
      }
    } else {
      assert Pow128(k) >= 0x80 by { PowAtLeast(k); }
    }
  }

  lemma {:induction false} PowAtLeast(k: nat)
    requires k >= 1
    ensures Pow128(k) >= 0x80
  {
    if k > 1 {
      PowAtLeast(k - 1);
    }
  }

  /** `compute_raw_varint64_size` is the length of the encoding for every 64-bit value. */
  lemma VarintSizeIsEncodedLength(n: nat)
    requires n < TWO_64
    ensures VarintSize(n) == |EncodeVarint(n)|
  {
    var len := |EncodeVarint(n)|;
    var k := VarintSize(n);
    assert Pow128(1) == 0x80;
    assert Pow128(2) == 0x4000;
    assert Pow128(3) == 0x20_0000;
    assert Pow128(4) == 0x1000_0000;
    assert Pow128(5) == 0x8_0000_0000;
    assert Pow128(6) == 0x400_0000_0000;
    assert Pow128(7) == 0x2_0000_0000_0000;
    assert Pow128(8) == 0x100_0000_0000_0000;
    assert Pow128(9) == 0x8000_0000_0000_0000;
    assert Pow128(10) == 0x40_0000_0000_0000_0000;
    EncodeVarintLength(n, k);
    if k > 1 {
      EncodeVarintLength(n, k - 1);
    }
  }

  /**
   * The varint loop reads back the rest of an encoding of `m` placed after
   * `i` bytes, when `total` is what the loop has accumulated plus `m`
   * shifted past those bytes.
   */
  lemma {:induction false} ReadVarintFromEncoded(s: seq<byte>, pos: nat, i: nat, acc: nat, m: nat, total: nat, end: nat)
    requires i + |EncodeVarint(m)| <= 10
    requires IsPrefixAt(s, pos + i, EncodeVarint(m)) && end == pos + i + |EncodeVarint(m)|
    requires total == acc + ShiftLeft7(m, i)
    ensures ReadVarintFrom(s, pos, i, acc) == Success((total % TWO_64, end))
    decreases m
  {
    var e := EncodeVarint(m);
    assert s[pos + i] == e[0];
    if m >= 0x80 {
      var rest := EncodeVarint(m / 0x80);
      var lo := m % 0x80;
      assert e == [lo + 0x80] + rest;
      PrefixSplit(s, pos + i, [lo + 0x80], rest);
      var acc' := acc + ShiftLeft7(lo, i);
      assert ReadVarintFrom(s, pos, i, acc) == ReadVarintFrom(s, pos, i + 1, acc') by {
        assert s[pos + i] % 0x80 == lo;
      }
      assert total == acc' + ShiftLeft7(m / 0x80, i + 1) by {
        ShiftLeft7Add(lo, 0x80 * (m / 0x80), i);
        ShiftLeft7Step(m / 0x80, i);
      }
      ReadVarintFromEncoded(s, pos, i + 1, acc', m / 0x80, total, end);
    } else {
      assert e == [m];
    }
  }

  lemma {:induction false} ShiftLeft7Add(a: nat, b: nat, k: nat)
    ensures ShiftLeft7(a + b, k) == ShiftLeft7(a, k) + ShiftLeft7(b, k)
  {
    if k > 0 {
      ShiftLeft7Add(a, b, k - 1);
    }
  }

  lemma {:induction false} ShiftLeft7Step(x: nat, k: nat)
    ensures ShiftLeft7(x, k + 1) == ShiftLeft7(0x80 * x, k)
  {
    if k > 0 {
      ShiftLeft7Step(x, k - 1);
    }
  }

  /** A 64-bit value never needs more than ten bytes. */
  lemma EncodeVarintAtMostTen(n: nat)
    requires n < TWO_64
    ensures |EncodeVarint(n)| <= 10
  {
    VarintSizeIsEncodedLength(n);
  }

  /** `read_raw_varint64` inverts the encoder on every 64-bit value. */
  lemma ReadVarintEncoded(s: seq<byte>, pos: nat, n: nat)
    requires n < TWO_64
    requires IsPrefixAt(s, pos, EncodeVarint(n))
    ensures ReadVarint(s, pos) == Success((n, pos + |EncodeVarint(n)|))
  {
    EncodeVarintAtMostTen(n);
    ReadVarintFromEncoded(s, pos, 0, 0, n, n, pos + |EncodeVarint(n)|);
  }

  // ------------------------------------------------------------------- tags

  /** `read_tag_unpack` recovers the field number and wire type that were written. */
  lemma ReadTagEncoded(s: seq<byte>, pos: nat, fieldNumber: FieldNumber, wt: WireType)
    requires IsPrefixAt(s, pos, WriteTag(fieldNumber, wt))
    ensures ReadTag(s, pos) == Success((Tag(fieldNumber, wt), pos + |WriteTag(fieldNumber, wt)|))
  {
    var v := TagValue(fieldNumber, wt);
    var c := WireTypeCode(wt);
    ReadVarintEncoded(s, pos, v);
    ModBelow(v, TWO_32);
    ShiftedDivMod(fieldNumber, c);
    assert WireTypeOfCode(c) == Some(wt);
  }

  lemma ModBelow(v: nat, m: nat)
    requires v < m
    ensures v % m == v
  {
  }

  lemma ShiftedDivMod(q: nat, c: nat)
    requires c < 8
    ensures (q * 8 + c) % 8 == c && (q * 8 + c) / 8 == q
  {
  }

  /** Adding a wire type to a shifted field number never crosses a varint size boundary. */
  lemma VarintSizeIgnoresWireType(fieldNumber: FieldNumber, c: nat)
    requires c < 8
    ensures VarintSize(fieldNumber * 8 + c) == VarintSize(fieldNumber * 8)
  {
  }

  /** A tag is as long as `tag_size` says, whatever its wire type. */
  lemma TagSizeIsTagLength(fieldNumber: FieldNumber, wt: WireType)
    ensures |WriteTag(fieldNumber, wt)| == TagSize(fieldNumber)
  {
    VarintSizeIsEncodedLength(TagValue(fieldNumber, wt));
    VarintSizeIgnoresWireType(fieldNumber, WireTypeCode(wt));
  }

  // ---------------------------------------------------- fixed-width values

  lemma {:induction false} LittleEndianRoundTrip(v: nat, n: nat)
    requires v < Pow256(n)
    ensures FromLittleEndian(LittleEndian(v, n)) == v
  {
    if n > 0 {
      LittleEndianRoundTrip(v / 0x100, n - 1);
      assert LittleEndian(v, n)[1..] == LittleEndian(v / 0x100, n - 1);
    }
  }

  /** `read_fixed32` inverts the four-byte little-endian encoding. */
  lemma ReadFixed32Encoded(s: seq<byte>, pos: nat, x: u32)
    requires IsPrefixAt(s, pos, LittleEndian(x, 4))
    ensures ReadFixed32(s, pos) == Success((x, pos + 4))
  {
    PrefixSlice(s, pos, LittleEndian(x, 4));
    assert Pow256(4) == TWO_32;
    LittleEndianRoundTrip(x, 4);
  }

  /** `read_fixed64` inverts the eight-byte little-endian encoding. */
  lemma ReadFixed64Encoded(s: seq<byte>, pos: nat, x: u64)
    requires IsPrefixAt(s, pos, LittleEndian(x, 8))
    ensures ReadFixed64(s, pos) == Success((x, pos + 8))
  {
    PrefixSlice(s, pos, LittleEndian(x, 8));
    assert Pow256(8) == TWO_64;
    LittleEndianRoundTrip(x, 8);
  }

  // ------------------------------------------------ length-delimited values

  /** A length-delimited payload is read back whole. */
  lemma ReadBytesEncoded(s: seq<byte>, pos: nat, b: seq<byte>)
    requires |b| < TWO_32
    requires IsPrefixAt(s, pos, BytesNoTag(b))
    ensures ReadBytes(s, pos) == Success((b, pos + |BytesNoTag(b)|))
  {
    var e := EncodeVarint(|b|);
    var next := pos + |e|;
    PrefixSplit(s, pos, e, b);
    ReadVarintEncoded(s, pos, |b|);
    ModBelow(|b|, TWO_32);
    assert s[next..next + |b|] == b;
    assert next + |b| == pos + |BytesNoTag(b)|;
  }

  lemma ReadStringEncoded(s: seq<byte>, pos: nat, b: seq<byte>)
    requires |b| < TWO_32 && Utf8.IsValid(b)
    requires IsPrefixAt(s, pos, BytesNoTag(b))
    ensures ReadString(s, pos) == Success((b, pos + |BytesNoTag(b)|))
  {
    ReadBytesEncoded(s, pos, b);
  }

  /** The bytes of `s` from `from` up to `to` all have the continuation (high) bit set. */
  predicate ContinuationRun(s: seq<byte>, from: nat, to: nat)
    requires from <= to <= |s|
  {
    forall k :: from <= k < to ==> s[k] >= 0x80
  }

  /** Ten bytes in a row with the continuation bit set: the varint is longer than ten bytes. */
  lemma {:induction false} OverlongVarintFrom(s: seq<byte>, pos: nat, i: nat, acc: nat)
    requires i <= 10 && pos + 10 <= |s|
    requires ContinuationRun(s, pos + i, pos + 10)
    ensures ReadVarintFrom(s, pos, i, acc) == Failure(IncorrectVarint)
    decreases 10 - i
  {
    if i < 10 {
      OverlongVarintFrom(s, pos, i + 1, acc + ShiftLeft7(s[pos + i] % 0x80, i));
    }
  }

  /** A varint, and so a tag, whose first ten bytes all have the high bit set is rejected. */
  lemma OverlongVarint(s: seq<byte>, pos: nat)
    requires pos + 10 <= |s| && ContinuationRun(s, pos, pos + 10)
    ensures ReadVarint(s, pos) == Failure(IncorrectVarint)
    ensures ReadTag(s, pos) == Failure(IncorrectVarint)
  {
    OverlongVarintFrom(s, pos, 0, 0);
  }

  /** A length prefix that reaches past the end of the input: every length-delimited reader stops with TruncatedMessage. */
  lemma TruncatedPayload(s: seq<byte>, pos: nat, len: u64, after: nat)
    requires ReadVarint(s, pos) == Success((len, after)) && len % TWO_32 > |s| - after
    ensures ReadBytes(s, pos) == Failure(TruncatedMessage)
    ensures ReadString(s, pos) == Failure(TruncatedMessage)
    ensures ReadUnknown(s, pos, WireTypeLengthDelimited) == Failure(TruncatedMessage)
  {
  }

  /** `string_size` is the length of what `write_string` writes. */
  lemma StringSizeIsLength(fieldNumber: FieldNumber, b: seq<byte>)
    requires |b| < TWO_64
    ensures |WriteString(fieldNumber, b)| == StringSize(fieldNumber, b)
  {
    TagSizeIsTagLength(fieldNumber, WireTypeLengthDelimited);
    VarintSizeIsEncodedLength(|b|);
  }

  // --------------------------------------------------------- unknown fields

  /** `read_unknown` inverts `write_unknown`'s value part. */
  lemma ReadUnknownEncoded(s: seq<byte>, pos: nat, v: UnknownValue, end: nat)
    requires ValueWellFormed(v)
    requires IsPrefixAt(s, pos, ValueBytes(v)) && end == pos + |ValueBytes(v)|
    ensures ReadUnknown(s, pos, ValueWireType(v)) == Success((v, end))
  {
    match v
    case Varint(x) => ReadVarintEncoded(s, pos, x);
    case Fixed32(x) => ReadFixed32Encoded(s, pos, x);
    case Fixed64(x) => ReadFixed64Encoded(s, pos, x);
    case LengthDelimited(b) => ReadBytesEncoded(s, pos, b);
  }

  /** `read_unknown_or_skip_group` reads a written value back and appends it to the store. */
  lemma ReadUnknownOrSkipGroupEncoded(s: seq<byte>, pos: nat, f: UnknownField, unknown: seq<UnknownField>, end: nat)
    requires ValueWellFormed(f.value)
    requires IsPrefixAt(s, pos, ValueBytes(f.value)) && end == pos + |ValueBytes(f.value)|
    ensures ReadUnknownOrSkipGroup(f.number, ValueWireType(f.value), s, pos, unknown) == Success((unknown + [f], end))
  {
    ReadUnknownEncoded(s, pos, f.value, end);
  }

  /** Writing one more field appends its bytes. */
  lemma UnknownFieldsBytesSnoc(a: seq<UnknownField>, f: UnknownField)
    ensures UnknownFieldsBytes(a + [f]) == UnknownFieldsBytes(a) + UnknownFieldBytes(f)
  {
    UnknownFieldsBytesAppend(a, [f]);
    assert [f][1..] == [];
    assert UnknownFieldsBytes([f]) == UnknownFieldBytes(f) + UnknownFieldsBytes([]);
  }

  /** The store from position `i` on is field `i` followed by the store from `i + 1` on. */
  lemma UnknownFieldsBytesFrom(u: seq<UnknownField>, i: nat)
    requires i < |u|
    ensures UnknownFieldsBytes(u[i..]) == UnknownFieldBytes(u[i]) + UnknownFieldsBytes(u[i + 1..])
  {
    assert u[i..][1..] == u[i + 1..];
  }

  /** Writing two stores one after the other is writing their concatenation. */
  lemma {:induction false} UnknownFieldsBytesAppend(a: seq<UnknownField>, b: seq<UnknownField>)
    ensures UnknownFieldsBytes(a + b) == UnknownFieldsBytes(a) + UnknownFieldsBytes(b)
    decreases |a|
  {
    if a == [] {
      assert a + b == b;
    } else {
      assert (a + b)[0] == a[0];
      assert (a + b)[1..] == a[1..] + b;
      UnknownFieldsBytesAppend(a[1..], b);
    }
  }

  lemma ValueSizeIsLength(v: UnknownValue)
    requires ValueWellFormed(v)
    ensures |ValueBytes(v)| == ValueSize(v)
  {
    match v
    case Varint(x) => VarintSizeIsEncodedLength(x);
    case Fixed32(_) =>
    case Fixed64(_) =>
    case LengthDelimited(b) => VarintSizeIsEncodedLength(|b|);
  }

  /** `unknown_fields_size` is the length of what `write_unknown_fields` writes. */
  lemma {:induction false} UnknownFieldsSizeIsLength(u: seq<UnknownField>)
    requires UnknownWellFormed(u)
    ensures |UnknownFieldsBytes(u)| == UnknownFieldsSize(u)
    decreases |u|
  {
    if u != [] {
      UnknownFieldsSizeIsLength(u[1..]);
      TagSizeIsTagLength(u[0].number, ValueWireType(u[0].value));
      ValueSizeIsLength(u[0].value);
    }
  }
}
