/**
 * The generated message `MyMessage` of `doctest_pb.proto`: no declared
 * fields at all, so every field on the wire lands in the unknown-field store
 * (or, for a group, is skipped), and the encoding is that store again.
 */
module DoctestPb {
  import opened Results
  import opened WireFormat
  import opened WireLemmas
  import opened CodedOutput

  /** The unknown-field store is the whole value. */
  datatype Fields = Fields(unknownFields: seq<UnknownField>)

  /** The value of `new()` and of `default_instance()`. */
  function DefaultInstance(): (f: Fields)
    ensures f.unknownFields == []
  {
    Fields([])
  }

  /** What a merge leaves behind: the fields as far as it got, and the error that stopped it, if any. */
  datatype Merged = Merged(fields: Fields, error: Option<DecodeError>)

  /**
   * The decode loop of `merge_from` from position `pos`: with no declared
   * field, every tag goes through `read_unknown_or_skip_group`.
   */
  function MergeLoop(s: seq<byte>, pos: nat, f: Fields): Merged
    requires pos <= |s|
    decreases |s| - pos
  {
    if pos == |s| then Merged(f, None)
    else
      match ReadTag(s, pos)
      case Failure(e) => Merged(f, Some(e))
      case Success((tag, next)) =>
        match ReadUnknownOrSkipGroup(tag.fieldNumber, tag.wireType, s, next, f.unknownFields)
        case Failure(e) => Merged(f, Some(e))
        case Success((u, after)) => MergeLoop(s, after, f.(unknownFields := u))
  }

  /** `compute_size`: the size of the unknown store. */
  function Size(f: Fields): nat
  {
    UnknownFieldsSize(f.unknownFields)
  }

  /** The bytes `write_to_with_cached_sizes` writes: the unknown store. */
  function Encode(f: Fields): seq<byte>
  {
    UnknownFieldsBytes(f.unknownFields)
  }

  /** A value that decoding can produce: every length-delimited payload fits a 32-bit prefix. */
  predicate WellFormed(f: Fields)
  {
    UnknownWellFormed(f.unknownFields)
  }

  // ------------------------------------------------------------------ lemmas

  /** The size pass and the write pass agree: `compute_size` is the length of the encoding. */
  lemma SizeIsEncodedLength(f: Fields)
    requires WellFormed(f)
    ensures |Encode(f)| == Size(f)
  {
    UnknownFieldsSizeIsLength(f.unknownFields);
  }

  /** The default value encodes to nothing and has size 0. */
  lemma DefaultEncodesEmpty()
    ensures Encode(DefaultInstance()) == [] && Size(DefaultInstance()) == 0
  {
  }

  /** Decoding only ever appends to the store: what was there before is kept, in front. */
  lemma {:induction false} MergeLoopExtends(s: seq<byte>, pos: nat, f: Fields)
    requires pos <= |s|
    ensures |f.unknownFields| <= |MergeLoop(s, pos, f).fields.unknownFields|
    ensures MergeLoop(s, pos, f).fields.unknownFields[..|f.unknownFields|] == f.unknownFields
    decreases |s| - pos
  {
    if pos < |s| {
      match ReadTag(s, pos)
      case Failure(_) =>
      case Success((tag, next)) =>
        match ReadUnknownOrSkipGroup(tag.fieldNumber, tag.wireType, s, next, f.unknownFields)
        case Failure(_) =>
        case Success((u, after)) =>
          MergeLoopExtends(s, after, f.(unknownFields := u));
          var r := MergeLoop(s, after, f.(unknownFields := u)).fields.unknownFields;
          assert r[..|f.unknownFields|] == r[..|u|][..|f.unknownFields|];
    }
  }

  /** Every value the decoder stores is well formed, whether or not it stops with an error. */
  lemma {:induction false} MergeLoopWellFormed(s: seq<byte>, pos: nat, f: Fields)
    requires pos <= |s| && WellFormed(f)
    ensures WellFormed(MergeLoop(s, pos, f).fields)
    decreases |s| - pos
  {
    if pos < |s| {
      match ReadTag(s, pos)
      case Failure(_) =>
      case Success((tag, next)) =>
        match ReadUnknownOrSkipGroup(tag.fieldNumber, tag.wireType, s, next, f.unknownFields)
        case Failure(_) =>
        case Success((u, after)) =>
          forall k | 0 <= k < |u|
            ensures ValueWellFormed(u[k].value)
          {
            if k < |f.unknownFields| {
              assert u[k] == u[..|f.unknownFields|][k];
            }
          }
          MergeLoopWellFormed(s, after, f.(unknownFields := u));
    }
  }

  /** One turn of the loop: the tag and the value read, the store is what `read_unknown_or_skip_group` left. */
  lemma MergeLoopStep(s: seq<byte>, p: nat, g: Fields, n: FieldNumber, wt: WireType, p1: nat,
                      u: seq<UnknownField>, p2: nat)
    requires ReadTag(s, p) == Success((Tag(n, wt), p1))
    requires ReadUnknownOrSkipGroup(n, wt, s, p1, g.unknownFields) == Success((u, p2))
    ensures MergeLoop(s, p, g) == MergeLoop(s, p2, g.(unknownFields := u))
  {
  }

  /** Decoding the bytes of one unknown field, which end at `end`, appends exactly that field. */
  lemma MergeUnknownEncoded(s: seq<byte>, p: nat, g: Fields, f: UnknownField, end: nat, h: Fields)
    requires ValueWellFormed(f.value)
    requires IsPrefixAt(s, p, UnknownFieldBytes(f)) && end == p + |UnknownFieldBytes(f)|
    requires h == g.(unknownFields := g.unknownFields + [f])
    ensures MergeLoop(s, p, g) == MergeLoop(s, end, h)
  {
    var wt := ValueWireType(f.value);
    var t := WriteTag(f.number, wt);
    var v := ValueBytes(f.value);
    var p1 := p + |t|;
    assert IsPrefixAt(s, p, t) && IsPrefixAt(s, p1, v) && end == p1 + |v| by {
      PrefixSplit(s, p, t, v);
    }
    ReadTagEncoded(s, p, f.number, wt);
    ReadUnknownOrSkipGroupEncoded(s, p1, f, g.unknownFields, end);
    MergeLoopStep(s, p, g, f.number, wt, p1, g.unknownFields + [f], end);
  }

  /**
   * Decoding the encoding of `f`, wherever it sits in the input, appends
   * `f`'s store to the store so far (`h`) and goes on right after it (`end`).
   */
  lemma {:induction false} MergeEncoded(s: seq<byte>, p: nat, g: Fields, f: Fields, end: nat, h: Fields)
    requires WellFormed(f)
    requires IsPrefixAt(s, p, Encode(f)) && end == p + |Encode(f)|
    requires h == Fields(g.unknownFields + f.unknownFields)
    ensures MergeLoop(s, p, g) == MergeLoop(s, end, h)
    decreases |f.unknownFields|
  {
    var u := f.unknownFields;
    if u == [] {
      assert end == p;
      assert h == g by {
        assert g.unknownFields + u == g.unknownFields;
      }
    } else {
      var a := UnknownFieldBytes(u[0]);
      var b := UnknownFieldsBytes(u[1..]);
      var mid := p + |a|;
      var g' := Fields(g.unknownFields + [u[0]]);
      assert IsPrefixAt(s, p, a) && IsPrefixAt(s, mid, b) && end == mid + |b| by {
        PrefixSplit(s, p, a, b);
      }
      assert WellFormed(Fields(u[1..])) by {
        assert forall k :: 0 <= k < |u[1..]| ==> u[1..][k] == u[k + 1];
      }
      assert h == Fields(g'.unknownFields + u[1..]) by {
        AppendHeadTail(g.unknownFields, u);
      }
      MergeUnknownEncoded(s, p, g, u[0], mid, g');
      MergeEncoded(s, mid, g', Fields(u[1..]), end, h);
    }
  }

  /** Round trip: a fresh instance decodes the encoding of `f` back to `f`. */
  lemma RoundTrip(f: Fields)
    requires WellFormed(f)
    ensures MergeLoop(Encode(f), 0, DefaultInstance()) == Merged(f, None)
  {
    var e := Encode(f);
    assert IsPrefixAt(e, 0, e);
    assert Fields([] + f.unknownFields) == f by {
      assert [] + f.unknownFields == f.unknownFields;
    }
    MergeEncoded(e, 0, DefaultInstance(), f, |e|, f);
    assert MergeLoop(e, |e|, f) == Merged(f, None);
  }

  /** Two encoded messages back to back decode to the two unknown stores, in order. */
  lemma Concatenation(f1: Fields, f2: Fields)
    requires WellFormed(f1) && WellFormed(f2)
    ensures MergeLoop(Encode(f1) + Encode(f2), 0, DefaultInstance())
            == Merged(Fields(f1.unknownFields + f2.unknownFields), None)
  {
    var e1, e2 := Encode(f1), Encode(f2);
    var s := e1 + e2;
    var h := Fields(f1.unknownFields + f2.unknownFields);
    assert IsPrefixAt(s, 0, e1) && IsPrefixAt(s, |e1|, e2) by {
      assert IsPrefixAt(s, 0, e1 + e2);
      PrefixSplit(s, 0, e1, e2);
    }
    assert f1 == Fields([] + f1.unknownFields) by {
      assert [] + f1.unknownFields == f1.unknownFields;
    }
    MergeEncoded(s, 0, DefaultInstance(), f1, |e1|, f1);
    MergeEncoded(s, |e1|, f1, f2, |s|, h);
    assert MergeLoop(s, |s|, h) == Merged(h, None);
  }

  // --------------------------------------------------------------- examples

  /** Field 1 is not special here: a varint under number 1 is kept as an unknown field. */
  lemma ExampleEveryFieldUnknown()
    ensures MergeLoop([0x08, 0x01], 0, DefaultInstance()) == Merged(Fields([UnknownField(1, Varint(1))]), None)
  {
    var f := Fields([UnknownField(1, Varint(1))]);
    assert Encode(f) == [0x08, 0x01];
    RoundTrip(f);
  }

  /** A group (start tag 0x13, end tag 0x14 for field 2) is skipped and leaves no trace in the store. */
  lemma ExampleGroupDropped()
    ensures MergeLoop([0x13, 0x14], 0, DefaultInstance()) == Merged(DefaultInstance(), None)
  {
    var s: seq<byte> := [0x13, 0x14];
    assert ReadVarint(s, 0) == Success((0x13, 1));
    assert ReadTag(s, 0) == Success((Tag(2, WireTypeStartGroup), 1));
    assert ReadVarint(s, 1) == Success((0x14, 2));
    assert ReadTag(s, 1) == Success((Tag(2, WireTypeEndGroup), 2));
    assert SkipGroup(s, 1) == Success(2);
  }

  /** A tag without its value stops the merge with the reader's error and stores nothing. */
  lemma ExampleMissingValue(g: Fields)
    ensures MergeLoop([0x08], 0, g) == Merged(g, Some(UnexpectedEof))
  {
    var s: seq<byte> := [0x08];
    assert ReadVarint(s, 0) == Success((0x08, 1));
    assert ReadTag(s, 0) == Success((Tag(1, WireTypeVarint), 1));
  }

  /**
   * A length prefix that reaches past the end of the input stops the merge
   * with TruncatedMessage and stores nothing, whatever the field number.
   */
  lemma TruncatedLengthDelimited(s: seq<byte>, pos: nat, g: Fields, n: FieldNumber, next: nat, len: u64, after: nat)
    requires pos <= |s|
    requires ReadTag(s, pos) == Success((Tag(n, WireTypeLengthDelimited), next))
    requires ReadVarint(s, next) == Success((len, after)) && len % TWO_32 > |s| - after
    ensures MergeLoop(s, pos, g) == Merged(g, Some(TruncatedMessage))
  {
    TruncatedPayload(s, next, len, after);
  }

  /** A tag whose varint runs past ten bytes stops the merge with IncorrectVarint and stores nothing. */
  lemma OverlongTag(s: seq<byte>, pos: nat, g: Fields)
    requires pos + 10 <= |s| && ContinuationRun(s, pos, pos + 10)
    ensures MergeLoop(s, pos, g) == Merged(g, Some(IncorrectVarint))
  {
    OverlongVarint(s, pos);
  }

  /** A length prefix whose varint runs past ten bytes stops the merge with IncorrectVarint, whatever the field number. */
  lemma OverlongLength(s: seq<byte>, pos: nat, g: Fields, n: FieldNumber, next: nat)
    requires pos <= |s|
    requires ReadTag(s, pos) == Success((Tag(n, WireTypeLengthDelimited), next))
    requires next + 10 <= |s| && ContinuationRun(s, next, next + 10)
    ensures MergeLoop(s, pos, g) == Merged(g, Some(IncorrectVarint))
  {
    OverlongVarint(s, next);
  }

  // ------------------------------------------------------------- the class

  class MyMessage {
    var unknownFields: seq<UnknownField>
    var cachedSize: nat

    function Value(): Fields
      reads this
    {
      Fields(unknownFields)
    }

    /** `new()`: an empty store, the cache at 0. */
    constructor ()
      ensures Value() == DefaultInstance() && cachedSize == 0
    {
      unknownFields := [];
      cachedSize := 0;
    }

    /** `is_initialized`: there is nothing that could be missing. */
    function IsInitialized(): (r: bool)
      ensures r
    {
      true
    }

    /** `merge_from`: decodes `input` to its end into the unknown store. */
    method MergeFrom(input: seq<byte>) returns (r: Result<(), DecodeError>)
      modifies this`unknownFields
      ensures Value() == MergeLoop(input, 0, old(Value())).fields
      ensures r.Success? <==> MergeLoop(input, 0, old(Value())).error.None?
      ensures r.Failure? ==> MergeLoop(input, 0, old(Value())).error == Some(r.error)
      ensures input == [] ==> r.Success? && Value() == old(Value())
      ensures old(WellFormed(Value())) ==> WellFormed(Value())
      ensures |old(unknownFields)| <= |unknownFields| && unknownFields[..|old(unknownFields)|] == old(unknownFields)
    {
      ghost var start := Value();
      var pos := 0;
      while pos < |input|
        invariant pos <= |input|
        invariant MergeLoop(input, pos, Value()) == MergeLoop(input, 0, start)
        decreases |input| - pos
      {
        var tag := ReadTag(input, pos);
        if tag.Failure? {
          MergeLoopFacts(input, start);
          return Failure(tag.error);
        }
        var (t, next) := tag.value;
        var u := ReadUnknownOrSkipGroup(t.fieldNumber, t.wireType, input, next, unknownFields);
        if u.Failure? {
          MergeLoopFacts(input, start);
          return Failure(u.error);
        }
        unknownFields := u.value.0;
        pos := u.value.1;
      }
      MergeLoopFacts(input, start);
      return Success(());
    }

    /** `compute_size`: the encoded length, also stored in the cache. */
    method ComputeSize() returns (size: nat)
      modifies this`cachedSize
      ensures size == Size(Value()) && cachedSize == size && GetCachedSize() == size
      ensures WellFormed(Value()) ==> size == |Encode(Value())|
    {
      var mySize := 0;
      mySize := mySize + UnknownFieldsSize(unknownFields);
      cachedSize := mySize;
      if WellFormed(Value()) {
        SizeIsEncodedLength(Value());
      }
      return mySize;
    }

    /** `get_cached_size`: whatever the last `compute_size` stored. */
    function GetCachedSize(): (r: nat)
      reads this
      ensures r == cachedSize
    {
      cachedSize
    }

    /** `write_to_with_cached_sizes`: the unknown store, nothing else. */
    method WriteToWithCachedSizes(os: CodedOutputStream)
      modifies os
      ensures os.written == old(os.written) + Encode(Value())
    {
      os.WriteUnknownFields(unknownFields);
    }

    /** `Clear::clear`: the store emptied; the encoding is then no bytes. */
    method Clear()
      modifies this`unknownFields
      ensures Value() == DefaultInstance()
      ensures Encode(Value()) == [] && Size(Value()) == 0
    {
      unknownFields := [];
    }
  }

  /** What `MergeFrom` needs of `MergeLoop` from position 0: it extends the store and keeps it well formed. */
  lemma MergeLoopFacts(s: seq<byte>, f: Fields)
    ensures |f.unknownFields| <= |MergeLoop(s, 0, f).fields.unknownFields|
    ensures MergeLoop(s, 0, f).fields.unknownFields[..|f.unknownFields|] == f.unknownFields
    ensures WellFormed(f) ==> WellFormed(MergeLoop(s, 0, f).fields)
  {
    MergeLoopExtends(s, 0, f);
    if WellFormed(f) {
      MergeLoopWellFormed(s, 0, f);
    }
  }
}
