/**
 * The output side of the runtime: a `CodedOutputStream` whose destination is
 * the sequence of bytes written so far.
 */
module CodedOutput {
  import opened WireFormat
  import WireLemmas

  class CodedOutputStream {
    var written: seq<byte>

    constructor ()
      ensures written == []
    {
      written := [];
    }

    method WriteRawBytes(b: seq<byte>)
      modifies this
      ensures written == old(written) + b
    {
      written := written + b;
    }

    /** `write_string`: field `fieldNumber` as a length-delimited record. */
    method WriteString(fieldNumber: FieldNumber, b: seq<byte>)
      modifies this
      ensures written == old(written) + WireFormat.WriteString(fieldNumber, b)
    {
      WriteRawBytes(WriteTag(fieldNumber, WireTypeLengthDelimited));
      WriteRawBytes(EncodeVarint(|b|));
      WriteRawBytes(b);
    }

    /** `write_unknown_fields`: every stored value, tag then value, in store order. */
    method WriteUnknownFields(u: seq<UnknownField>)
      modifies this
      ensures written == old(written) + UnknownFieldsBytes(u)
    {
      for i := 0 to |u|
        invariant written + UnknownFieldsBytes(u[i..]) == old(written) + UnknownFieldsBytes(u)
      {
        WireLemmas.UnknownFieldsBytesFrom(u, i);
        WireLemmas.ConcatAssoc(written, UnknownFieldBytes(u[i]), UnknownFieldsBytes(u[i + 1..]));
        WriteRawBytes(UnknownFieldBytes(u[i]));
      }
      assert u[|u|..] == [];
    }
  }
}
