/**
 * The generated message `google.protobuf.SourceContext`: one `string` field,
 * `file_name` (number 1), an unknown-field store and a cached-size cell.
 *
 * `Fields` is the message's value; `MergeLoop`, `Size` and `Encode` say what
 * `merge_from`, `compute_size` and `write_to_with_cached_sizes` compute, and
 * the class `SourceContext` holds the fields the generated code updates in place.
 */
module SourceContextPb {
  import opened Results
  import opened WireFormat
  import opened WireLemmas
  import opened CodedOutput
  import Utf8

  /** The field number of `file_name`. */
  const FILE_NAME: FieldNumber := 1

  /** `file_name` as its UTF-8 bytes, and the unknown-field store. */
  datatype Fields = Fields(fileName: seq<byte>, unknownFields: seq<UnknownField>)

  /** The value of `new()` and of `default_instance()`. */
  function DefaultInstance(): (f: Fields)
    ensures f.fileName == [] && f.unknownFields == []
  {
    Fields([], [])
  }

  /** What a merge leaves behind: the fields as far as it got, and the error that stopped it, if any. */
  datatype Merged = Merged(fields: Fields, error: Option<DecodeError>)

  /**
   * The decode loop of `merge_from` from position `pos`: field 1 must be
   * length-delimited and replaces `file_name`; every other field number goes
   * through `read_unknown_or_skip_group`. Each field is stored only once it
   * has been read whole.
   */
  function MergeLoop(s: seq<byte>, pos: nat, f: Fields): Merged
    requires pos <= |s|
    decreases |s| - pos
  {
    if pos == |s| then Merged(f, None)
    else
      match ReadTag(s, pos)
      case Failure(e) => Merged(f, Some(e))
      case Success((tag, next)) =>
        if tag.fieldNumber == FILE_NAME then
          if tag.wireType != WireTypeLengthDelimited then Merged(f, Some(UnexpectedWireType(tag.wireType)))
          else
            match ReadString(s, next)
            case Failure(e) => Merged(f, Some(e))
            case Success((name, after)) => MergeLoop(s, after, f.(fileName := name))
        else
          match ReadUnknownOrSkipGroup(tag.fieldNumber, tag.wireType, s, next, f.unknownFields)
          case Failure(e) => Merged(f, Some(e))
          case Success((u, after)) => MergeLoop(s, after, f.(unknownFields := u))
  }

  /** `compute_size`: an empty `file_name` is not written and costs nothing. */
  function Size(f: Fields): nat
  {
    (if f.fileName == [] then 0 else StringSize(FILE_NAME, f.fileName)) + UnknownFieldsSize(f.unknownFields)
  }

  /** The bytes `write_to_with_cached_sizes` writes: field 1 when non-empty, then the unknown fields. */
  function Encode(f: Fields): seq<byte>
  {
    (if f.fileName == [] then [] else WireFormat.WriteString(FILE_NAME, f.fileName)) + UnknownFieldsBytes(f.unknownFields)
  }

  /**
   * A value that decoding can produce: a UTF-8 `file_name` whose length fits
   * a 32-bit prefix, and an unknown store without field 1.
   */
  predicate WellFormed(f: Fields)
  {
    && Utf8.IsValid(f.fileName)
    && |f.fileName| < TWO_32
    && UnknownWellFormed(f.unknownFields)
    && forall k :: 0 <= k < |f.unknownFields| ==> f.unknownFields[k].number != FILE_NAME
  }

  /** Merging the encoding of `f` into `g`: a non-empty `file_name` replaces `g`'s, unknown fields append. */
  function MergeValues(g: Fields, f: Fields): (r: Fields)
    ensures r.fileName == (if f.fileName == [] then g.fileName else f.fileName)
    ensures r.unknownFields == g.unknownFields + f.unknownFields
  {
    Fields(if f.fileName == [] then g.fileName else f.fileName, g.unknownFields + f.unknownFields)
  }

  // ------------------------------------------------------------------ lemmas

  /** The size pass and the write pass agree: `compute_size` is the length of the encoding. */
  lemma SizeIsEncodedLength(f: Fields)
    requires |f.fileName| < TWO_64 && UnknownWellFormed(f.unknownFields)
    ensures |Encode(f)| == Size(f)
  {
    if f.fileName != [] {
      StringSizeIsLength(FILE_NAME, f.fileName);
    }
    UnknownFieldsSizeIsLength(f.unknownFields);
  }

  /** The default value encodes to nothing and has size 0. */
  lemma DefaultEncodesEmpty()
    ensures Encode(DefaultInstance()) == [] && Size(DefaultInstance()) == 0
  {
  }

  /** Every value the decoder stores is well formed, whether or not it stops with an error. */
  lemma {:induction false} MergeLoopWellFormed(s: seq<byte>, pos: nat, f: Fields)
    requires pos <= |s| && WellFormed(f)
    ensures WellFormed(MergeLoop(s, pos, f).fields)
    decreases |s| - pos
  {
    if pos < |s| {
      match ReadTag(s, pos)
      case Failure(_) =>
      case Success((tag, next)) =>
        if tag.fieldNumber == FILE_NAME {
          if tag.wireType == WireTypeLengthDelimited {
            match ReadString(s, next)
            case Failure(_) =>
            case Success((name, after)) => MergeLoopWellFormed(s, after, f.(fileName := name));
          }
        } else {
          match ReadUnknownOrSkipGroup(tag.fieldNumber, tag.wireType, s, next, f.unknownFields)
          case Failure(_) =>
          case Success((u, after)) =>
            forall k | 0 <= k < |u|
              ensures ValueWellFormed(u[k].value) && u[k].number != FILE_NAME
            {
              if k < |f.unknownFields| {
                assert u[k] == u[..|f.unknownFields|][k];
              }
            }
            MergeLoopWellFormed(s, after, f.(unknownFields := u));
        }
    }
  }

  /** One turn of the loop on an unknown field: the store grows by that field. */
  lemma MergeLoopUnknownStep(s: seq<byte>, p: nat, g: Fields, n: FieldNumber, wt: WireType, p1: nat,
                             u: seq<UnknownField>, p2: nat)
    requires ReadTag(s, p) == Success((Tag(n, wt), p1)) && n != FILE_NAME
    requires ReadUnknownOrSkipGroup(n, wt, s, p1, g.unknownFields) == Success((u, p2))
    ensures MergeLoop(s, p, g) == MergeLoop(s, p2, g.(unknownFields := u))
  {
  }

  /** One turn of the loop on `file_name`: the string read replaces the old one. */
  lemma MergeLoopNameStep(s: seq<byte>, p: nat, g: Fields, p1: nat, name: seq<byte>, p2: nat)
    requires ReadTag(s, p) == Success((Tag(FILE_NAME, WireTypeLengthDelimited), p1))
    requires ReadString(s, p1) == Success((name, p2))
    ensures MergeLoop(s, p, g) == MergeLoop(s, p2, g.(fileName := name))
  {
  }

  /** Decoding the bytes of one unknown field, which end at `end`, appends exactly that field. */
  lemma MergeUnknownEncoded(s: seq<byte>, p: nat, g: Fields, f: UnknownField, end: nat, h: Fields)
    requires ValueWellFormed(f.value) && f.number != FILE_NAME
    requires IsPrefixAt(s, p, UnknownFieldBytes(f)) && end == p + |UnknownFieldBytes(f)|
    requires h == g.(unknownFields := g.unknownFields + [f])
    ensures MergeLoop(s, p, g) == MergeLoop(s, end, h)
  {
    var wt := ValueWireType(f.value);
    var t := WriteTag(f.number, wt);
    var v := ValueBytes(f.value);
    var p1 := p + |t|;
    assert IsPrefixAt(s, p, t) && IsPrefixAt(s, p1, v) && end == p1 + |v| by {
      PrefixSplit(s, p, t, v);
    }
    ReadTagEncoded(s, p, f.number, wt);
    ReadUnknownOrSkipGroupEncoded(s, p1, f, g.unknownFields, end);
    MergeLoopUnknownStep(s, p, g, f.number, wt, p1, g.unknownFields + [f], end);
  }

  /** Decoding the bytes of a `file_name` record, which end at `end`, replaces `file_name`. */
  lemma MergeNameEncoded(s: seq<byte>, p: nat, g: Fields, name: seq<byte>, end: nat, h: Fields)
    requires Utf8.IsValid(name) && |name| < TWO_32
    requires IsPrefixAt(s, p, WireFormat.WriteString(FILE_NAME, name))
    requires end == p + |WireFormat.WriteString(FILE_NAME, name)| && h == g.(fileName := name)
    ensures MergeLoop(s, p, g) == MergeLoop(s, end, h)
  {
    var t := WriteTag(FILE_NAME, WireTypeLengthDelimited);
    var b := BytesNoTag(name);
    var p1 := p + |t|;
    assert IsPrefixAt(s, p, t) && IsPrefixAt(s, p1, b) && end == p1 + |b| by {
      PrefixSplit(s, p, t, b);
    }
    ReadTagEncoded(s, p, FILE_NAME, WireTypeLengthDelimited);
    ReadStringEncoded(s, p1, name);
    MergeLoopNameStep(s, p, g, p1, name, end);
  }

  /** Decoding the bytes of an unknown store, which end at `end`, appends exactly that store. */
  lemma {:induction false} MergeUnknownsEncoded(s: seq<byte>, p: nat, g: Fields, u: seq<UnknownField>, end: nat, h: Fields)
    requires UnknownWellFormed(u) && forall k :: 0 <= k < |u| ==> u[k].number != FILE_NAME
    requires IsPrefixAt(s, p, UnknownFieldsBytes(u)) && end == p + |UnknownFieldsBytes(u)|
    requires h == g.(unknownFields := g.unknownFields + u)
    ensures MergeLoop(s, p, g) == MergeLoop(s, end, h)
    decreases |u|
  {
    if u == [] {
      assert end == p;
      assert h == g by {
        assert g.unknownFields + u == g.unknownFields;
      }
    } else {
      var f := u[0];
      var a := UnknownFieldBytes(f);
      var b := UnknownFieldsBytes(u[1..]);
      var mid := p + |a|;
      var g' := g.(unknownFields := g.unknownFields + [f]);
      assert IsPrefixAt(s, p, a) && IsPrefixAt(s, mid, b) && end == mid + |b| by {
        PrefixSplit(s, p, a, b);
      }
      assert UnknownWellFormed(u[1..]) && forall k :: 0 <= k < |u[1..]| ==> u[1..][k].number != FILE_NAME by {
        assert forall k :: 0 <= k < |u[1..]| ==> u[1..][k] == u[k + 1];
      }
      assert h == g'.(unknownFields := g'.unknownFields + u[1..]) by {
        AppendHeadTail(g.unknownFields, u);
      }
      MergeUnknownEncoded(s, p, g, f, mid, g');
      MergeUnknownsEncoded(s, mid, g', u[1..], end, h);
    }
  }

  /**
   * Decoding the encoding of `f`, wherever it sits in the input, merges `f`
   * into the fields so far (`h`) and goes on right after it (`end`).
   */
  lemma MergeEncoded(s: seq<byte>, p: nat, g: Fields, f: Fields, end: nat, h: Fields)
    requires WellFormed(f)
    requires IsPrefixAt(s, p, Encode(f)) && end == p + |Encode(f)|
    requires h == MergeValues(g, f)
    ensures MergeLoop(s, p, g) == MergeLoop(s, end, h)
  {
    if f.fileName != [] {
      MergeNamedEncoded(s, p, g, f, end, h);
    } else {
      var rest := UnknownFieldsBytes(f.unknownFields);
      assert Encode(f) == [] + rest;
      assert [] + rest == rest;
      assert h == g.(unknownFields := g.unknownFields + f.unknownFields);
      MergeUnknownsEncoded(s, p, g, f.unknownFields, end, h);
    }
  }

  /** `MergeEncoded` when `file_name` is written: the name record, then the unknown fields. */
  lemma MergeNamedEncoded(s: seq<byte>, p: nat, g: Fields, f: Fields, end: nat, h: Fields)
    requires WellFormed(f) && f.fileName != []
    requires IsPrefixAt(s, p, Encode(f)) && end == p + |Encode(f)|
    requires h == MergeValues(g, f)
    ensures MergeLoop(s, p, g) == MergeLoop(s, end, h)
  {
    var w := WireFormat.WriteString(FILE_NAME, f.fileName);
    var rest := UnknownFieldsBytes(f.unknownFields);
    var mid := p + |w|;
    var g' := g.(fileName := f.fileName);
    assert Encode(f) == w + rest;
    assert IsPrefixAt(s, p, w) && IsPrefixAt(s, mid, rest) && end == mid + |rest| by {
      PrefixSplit(s, p, w, rest);
    }
    assert h == g'.(unknownFields := g'.unknownFields + f.unknownFields);
    MergeNameEncoded(s, p, g, f.fileName, mid, g');
    MergeUnknownsEncoded(s, mid, g', f.unknownFields, end, h);
  }

  /** `merge_from` on the encoding of `f` succeeds and merges `f` into the instance. */
  lemma MergeEncodedSucceeds(g: Fields, f: Fields)
    requires WellFormed(f)
    ensures MergeLoop(Encode(f), 0, g) == Merged(MergeValues(g, f), None)
  {
    var e := Encode(f);
    var h := MergeValues(g, f);
    assert IsPrefixAt(e, 0, e);
    MergeEncoded(e, 0, g, f, |e|, h);
    assert MergeLoop(e, |e|, h) == Merged(h, None);
  }

  /** Round trip: a fresh instance decodes the encoding of `f` back to `f`. */
  lemma RoundTrip(f: Fields)
    requires WellFormed(f)
    ensures MergeLoop(Encode(f), 0, DefaultInstance()) == Merged(f, None)
  {
    MergeEncodedSucceeds(DefaultInstance(), f);
  }

  /**
   * Two encoded messages back to back decode as one: the later non-empty
   * `file_name` wins, and the unknown stores are kept in order.
   */
  lemma LastOneWins(f1: Fields, f2: Fields)
    requires WellFormed(f1) && WellFormed(f2)
    ensures MergeLoop(Encode(f1) + Encode(f2), 0, DefaultInstance())
            == Merged(Fields(if f2.fileName == [] then f1.fileName else f2.fileName,
                             f1.unknownFields + f2.unknownFields), None)
  {
    var e1, e2 := Encode(f1), Encode(f2);
    var s := e1 + e2;
    var g1 := MergeValues(DefaultInstance(), f1);
    var g2 := MergeValues(g1, f2);
    assert IsPrefixAt(s, 0, e1) && IsPrefixAt(s, |e1|, e2) by {
      assert IsPrefixAt(s, 0, e1 + e2);
      PrefixSplit(s, 0, e1, e2);
    }
    MergeEncoded(s, 0, DefaultInstance(), f1, |e1|, g1);
    MergeEncoded(s, |e1|, g1, f2, |s|, g2);
    assert g1.unknownFields == f1.unknownFields by {
      assert [] + f1.unknownFields == f1.unknownFields;
    }
    assert MergeLoop(s, |s|, g2) == Merged(g2, None);
  }

  /** Field 1 with any wire type other than length-delimited stops the merge with that wire type. */
  lemma WrongWireTypeForFileName(s: seq<byte>, pos: nat, g: Fields, wt: WireType, next: nat)
    requires pos <= |s|
    requires ReadTag(s, pos) == Success((Tag(FILE_NAME, wt), next))
    requires wt != WireTypeLengthDelimited
    ensures MergeLoop(s, pos, g) == Merged(g, Some(UnexpectedWireType(wt)))
  {
  }

  /**
   * A length prefix that reaches past the end of the input stops the merge
   * with TruncatedMessage and stores nothing, whatever the field number.
   */
  lemma TruncatedLengthDelimited(s: seq<byte>, pos: nat, g: Fields, n: FieldNumber, next: nat, len: u64, after: nat)
    requires pos <= |s|
    requires ReadTag(s, pos) == Success((Tag(n, WireTypeLengthDelimited), next))
    requires ReadVarint(s, next) == Success((len, after)) && len % TWO_32 > |s| - after
    ensures MergeLoop(s, pos, g) == Merged(g, Some(TruncatedMessage))
  {
    TruncatedPayload(s, next, len, after);
  }

  /** A tag whose varint runs past ten bytes stops the merge with IncorrectVarint and stores nothing. */
  lemma OverlongTag(s: seq<byte>, pos: nat, g: Fields)
    requires pos + 10 <= |s| && ContinuationRun(s, pos, pos + 10)
    ensures MergeLoop(s, pos, g) == Merged(g, Some(IncorrectVarint))
  {
    OverlongVarint(s, pos);
  }

  /** A length prefix whose varint runs past ten bytes stops the merge with IncorrectVarint, whatever the field number. */
  lemma OverlongLength(s: seq<byte>, pos: nat, g: Fields, n: FieldNumber, next: nat)
    requires pos <= |s|
    requires ReadTag(s, pos) == Success((Tag(n, WireTypeLengthDelimited), next))
    requires next + 10 <= |s| && ContinuationRun(s, next, next + 10)
    ensures MergeLoop(s, pos, g) == Merged(g, Some(IncorrectVarint))
  {
    OverlongVarint(s, next);
  }

  // --------------------------------------------------------------- examples

  const A_PROTO: seq<byte> := [0x61, 0x2E, 0x70, 0x72, 0x6F, 0x74, 0x6F]

  /** `file_name = "a.proto"` encodes as tag 0x0A, length 7 and the seven bytes: size 9. */
  lemma ExampleAProto()
    ensures Encode(Fields(A_PROTO, [])) == [0x0A, 0x07] + A_PROTO
    ensures Size(Fields(A_PROTO, [])) == 9
    ensures MergeLoop([0x0A, 0x07] + A_PROTO, 0, DefaultInstance()) == Merged(Fields(A_PROTO, []), None)
  {
    var f := Fields(A_PROTO, []);
    assert WireFormat.WriteString(FILE_NAME, A_PROTO) == [0x0A, 0x07] + A_PROTO;
    Utf8.AsciiIsValid(A_PROTO);
    RoundTrip(f);
  }

  /** A declared length running past the end of the input is a truncation error; nothing is stored. */
  lemma ExampleTruncated(g: Fields)
    ensures MergeLoop([0x0A, 0x05, 0x61], 0, g) == Merged(g, Some(TruncatedMessage))
  {
    var s: seq<byte> := [0x0A, 0x05, 0x61];
    assert ReadVarint(s, 0) == Success((0x0A, 1));
    assert ReadTag(s, 0) == Success((Tag(1, WireTypeLengthDelimited), 1));
    assert ReadVarint(s, 1) == Success((5, 2));
  }

  /** Field 1 sent as a varint is rejected. */
  lemma ExampleWrongWireType(g: Fields)
    ensures MergeLoop([0x08, 0x96, 0x01], 0, g) == Merged(g, Some(UnexpectedWireType(WireTypeVarint)))
  {
    var s: seq<byte> := [0x08, 0x96, 0x01];
    assert ReadVarint(s, 0) == Success((0x08, 1));
  }

  /** A field this schema does not declare survives decode and re-encode byte for byte. */
  lemma ExampleUnknownPreserved()
    ensures MergeLoop([0x0A, 0x01, 0x61, 0x10, 0x05], 0, DefaultInstance())
            == Merged(Fields([0x61], [UnknownField(2, Varint(5))]), None)
    ensures Encode(Fields([0x61], [UnknownField(2, Varint(5))])) == [0x0A, 0x01, 0x61, 0x10, 0x05]
  {
    var f := Fields([0x61], [UnknownField(2, Varint(5))]);
    Utf8.AsciiIsValid([0x61]);
    assert UnknownFieldsBytes(f.unknownFields) == [0x10, 0x05];
    assert Encode(f) == [0x0A, 0x01, 0x61, 0x10, 0x05];
    RoundTrip(f);
  }

  /**
   * Why well-formedness excludes field 1 from the unknown store: such a
   * value encodes a second field-1 record, which decodes into `file_name`.
   */
  lemma ExampleUnknownFieldOne()
    ensures Encode(Fields([], [UnknownField(FILE_NAME, LengthDelimited([0x61]))])) == [0x0A, 0x01, 0x61]
    ensures MergeLoop([0x0A, 0x01, 0x61], 0, DefaultInstance()) == Merged(Fields([0x61], []), None)
  {
    var u := UnknownField(FILE_NAME, LengthDelimited([0x61]));
    assert UnknownFieldBytes(u) == [0x0A] + [0x01] + [0x61];
    assert UnknownFieldsBytes([u]) == UnknownFieldBytes(u) + UnknownFieldsBytes([]);
    var f := Fields([0x61], []);
    Utf8.AsciiIsValid([0x61]);
    assert Encode(f) == [0x0A, 0x01, 0x61];
    RoundTrip(f);
  }

  // ------------------------------------------------------------- the class

  class SourceContext {
    var fileName: seq<byte>
    var unknownFields: seq<UnknownField>
    var cachedSize: nat

    function Value(): Fields
      reads this
    {
      Fields(fileName, unknownFields)
    }

    /** `new()`: every field at its default, the cache at 0. */
    constructor ()
      ensures Value() == DefaultInstance() && cachedSize == 0
    {
      fileName := [];
      unknownFields := [];
      cachedSize := 0;
    }

    /** `is_initialized`: a proto3 message has no required fields. */
    function IsInitialized(): (r: bool)
      ensures r
    {
      true
    }

    /** `merge_from`: decodes `input` to its end into this instance. */
    method MergeFrom(input: seq<byte>) returns (r: Result<(), DecodeError>)
      modifies this`fileName, this`unknownFields
      ensures Value() == MergeLoop(input, 0, old(Value())).fields
      ensures r.Success? <==> MergeLoop(input, 0, old(Value())).error.None?
      ensures r.Failure? ==> MergeLoop(input, 0, old(Value())).error == Some(r.error)
      ensures input == [] ==> r.Success? && Value() == old(Value())
      ensures old(WellFormed(Value())) ==> WellFormed(Value())
    {
      ghost var start := Value();
      var pos := 0;
      while pos < |input|
        invariant pos <= |input|
        invariant MergeLoop(input, pos, Value()) == MergeLoop(input, 0, start)
        decreases |input| - pos
      {
        var tag := ReadTag(input, pos);
        if tag.Failure? {
          MergeLoopWellFormedIf(input, 0, start);
          return Failure(tag.error);
        }
        var (t, next) := tag.value;
        if t.fieldNumber == FILE_NAME {
          if t.wireType != WireTypeLengthDelimited {
            MergeLoopWellFormedIf(input, 0, start);
            return Failure(UnexpectedWireType(t.wireType));
          }
          var name := ReadString(input, next);
          if name.Failure? {
            MergeLoopWellFormedIf(input, 0, start);
            return Failure(name.error);
          }
          fileName := name.value.0;
          pos := name.value.1;
        } else {
          var u := ReadUnknownOrSkipGroup(t.fieldNumber, t.wireType, input, next, unknownFields);
          if u.Failure? {
            MergeLoopWellFormedIf(input, 0, start);
            return Failure(u.error);
          }
          unknownFields := u.value.0;
          pos := u.value.1;
        }
      }
      MergeLoopWellFormedIf(input, 0, start);
      return Success(());
    }

    /** `compute_size`: the encoded length, also stored in the cache. */
    method ComputeSize() returns (size: nat)
      modifies this`cachedSize
      ensures size == Size(Value()) && cachedSize == size && GetCachedSize() == size
      ensures WellFormed(Value()) ==> size == |Encode(Value())|
    {
      var mySize := 0;
      if fileName != [] {
        mySize := mySize + StringSize(FILE_NAME, fileName);
      }
      mySize := mySize + UnknownFieldsSize(unknownFields);
      cachedSize := mySize;
      if WellFormed(Value()) {
        SizeIsEncodedLength(Value());
      }
      return mySize;
    }

    /** `get_cached_size`: whatever the last `compute_size` stored. */
    function GetCachedSize(): (r: nat)
      reads this
      ensures r == cachedSize
    {
      cachedSize
    }

    /** `write_to_with_cached_sizes`: field 1 when non-empty, then the unknown fields. */
    method WriteToWithCachedSizes(os: CodedOutputStream)
      modifies os
      ensures os.written == old(os.written) + Encode(Value())
    {
      ghost var v := Value();
      ghost var head: seq<byte> := [];
      if fileName != [] {
        head := WireFormat.WriteString(FILE_NAME, fileName);
        os.WriteString(FILE_NAME, fileName);
      }
      ghost var mid := os.written;
      assert mid == old(os.written) + head;
      os.WriteUnknownFields(unknownFields);
      assert Value() == v && Encode(v) == head + UnknownFieldsBytes(v.unknownFields);
      WireLemmas.ConcatAssoc(old(os.written), head, UnknownFieldsBytes(v.unknownFields));
    }

    /** `Clear::clear`: back to the default value; the encoding is then that of `new()`, no bytes. */
    method Clear()
      modifies this`fileName, this`unknownFields
      ensures Value() == DefaultInstance()
      ensures Encode(Value()) == [] && Size(Value()) == 0
    {
      fileName := [];
      unknownFields := [];
    }
  }

  lemma MergeLoopWellFormedIf(s: seq<byte>, pos: nat, f: Fields)
    requires pos <= |s|
    ensures WellFormed(f) ==> WellFormed(MergeLoop(s, pos, f).fields)
  {
    if WellFormed(f) {
      MergeLoopWellFormed(s, pos, f);
    }
  }
}
