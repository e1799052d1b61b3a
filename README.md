# rust-protobuf: the code writer and two generated messages, in Dafny

This project models three small parts of rust-protobuf and proves properties of them.

1. **`CodeWriter`**, the code generator's emitter (`protobuf-codegen/src/code_writer.rs`).
   - A writer holds an indent string and a shared sink.
   - `write_line` writes a blank line bare and any other line after the indent.
   - `indented` and `commented` run a callback against a child writer. The child's indent is four spaces longer, or has `// ` in front.
   - `block` writes a first line, the callback one level deeper, and a last line. About thirty wrappers fix those two lines (`expr_block`, `stmt_block`, `case_block`, `fn_block`, `impl_args_for_block`, ...).
   - `all_documentation` turns the leading comment of a `SourceCodeInfo` location into `///` lines.
2. **`SourceContext`**, the generated message for `google/protobuf/source_context.proto`. It has one string field, `file_name` (number 1), an unknown-field store and a cached size.
3. **`MyMessage`**, the generated message of `doctest_pb.proto`. It has no fields, so everything on the wire goes to the unknown-field store.

The model, module by module:

- **`CodeWriting`** (`code_writer.dfy`).
  - The sink is a class whose field is the sequence of lines written so far. `TextOf` gives its bytes: each line followed by `"\n"`.
  - A callback is a sequence of `Cmd` values (a line, an indented or commented callback, or a block). The writer interprets it.
  - `Render` says which lines a callback writes at a given indent.
  - Every writer method states the new sink contents exactly.
  - Lemmas prove that indentation composes, that blocks balance, that comments and documentation lines can be read back, that `str::lines` round-trips, and what `all_documentation` emits in each of its cases.
- **`WireFormat` and `WireLemmas`** (`wire_format.dfy`, `wire_lemmas.dfy`).
  - These are the runtime helpers the generated code calls: `read_tag_unpack`, `read_string`, `read_unknown_or_skip_group`, `string_size`, `unknown_fields_size`, `write_string`, `write_unknown_fields`.
  - They are defined from the Protocol Buffers encoding. Varints are base 128, at most ten bytes and taken modulo 2^64. A tag is `(field_number << 3) | wire_type`. Fixed32 and fixed64 values are little-endian. Length-delimited records have a 32-bit length prefix, and strings must be UTF-8.
  - Every reader is proved to invert its writer. Every size function is proved equal to the length of what its writer produces.
- **`CodedOutput`** (`coded_output.dfy`). The `CodedOutputStream` the messages write to. It is a class holding the bytes written so far.
- **`Utf8`** (`utf8.dfy`). The well-formedness check `read_string` applies, following table 3-7 ("Well-Formed UTF-8 Byte Sequences") of the Unicode Standard.
- **`SourceContextPb` and `DoctestPb`** (`source_context.dfy`, `doctest_pb.dfy`).
  - `MergeLoop` is the decode loop as a function on the input bytes and a position.
  - `Size` and `Encode` are `compute_size` and `write_to_with_cached_sizes` as functions.
  - The classes `SourceContext` and `MyMessage` hold the fields the generated code updates in place. Their `MergeFrom` is a `while` loop proved against `MergeLoop`.
  - Lemmas prove the round trip, that size equals the length of the encoding, and that the last `file_name` wins when messages are concatenated. Others state the error cases for every input: a wrong wire type on field 1, a length prefix past the end of the input, and a varint longer than ten bytes in a tag or a length prefix. Further lemmas show that unknown fields are preserved.
- **`Results`** (`results.dfy`). `Option` and `Result`.

## Model

| member | source | states |
|---|---|---|
| CodeWriting.CodeWriter.constructor | protobuf-codegen/src/code_writer.rs:18-23 | a new writer has the empty indent and writes to the given sink |
| CodeWriting.CodeWriter.WriteLine | protobuf-codegen/src/code_writer.rs:25-33 | appends one line: `""` when the line is empty, otherwise the indent followed by the line |
| CodeWriting.WriteLineBytes | protobuf-codegen/src/code_writer.rs:25-33 | on the wire, a blank line is exactly `"\n"` and never carries the indent; any other line is indent + line + `"\n"` |
| CodeWriting.Sink.WriteAll | protobuf-codegen/src/code_writer.rs:27-30 | the sink's lines grow by exactly the line written |
| CodeWriting.TextOfAppend | protobuf-codegen/src/code_writer.rs:25-33 | the bytes of two runs of lines are the bytes of the first run followed by those of the second |
| CodeWriting.CodeWriter.Child | protobuf-codegen/src/code_writer.rs:88-91 | the child writer shares the parent's sink and has the given indent |
| CodeWriting.CodeWriter.Apply | protobuf-codegen/src/code_writer.rs:88-91 | running a callback appends exactly the lines `Render` gives for it at the writer's indent |
| CodeWriting.CodeWriter.ApplyOne | protobuf-codegen/src/code_writer.rs:88-91 | one step of a callback appends exactly its rendering |
| CodeWriting.CodeWriter.Indented | protobuf-codegen/src/code_writer.rs:84-92 | the callback's lines are rendered at the parent's indent plus exactly four spaces; the parent's indent is a constant and does not change |
| CodeWriting.CodeWriter.Commented | protobuf-codegen/src/code_writer.rs:95-103 | the callback's lines are rendered at `"// "` followed by the parent's indent |
| CodeWriting.RenderAppend | protobuf-codegen/src/code_writer.rs:84-103 | running two callbacks in sequence writes the first one's lines, then the second one's |
| CodeWriting.RenderLength | protobuf-codegen/src/code_writer.rs:142-149 | a callback writes one line per `write_line` plus two per block, whatever the indent |
| CodeWriting.IndentShift | protobuf-codegen/src/code_writer.rs:84-92 | without `commented`, rendering at `p + indent` is rendering at `indent` with `p` put in front of every non-blank line |
| CodeWriting.IndentPrefix | protobuf-codegen/src/code_writer.rs:84-92 | without `commented`, every line a writer produces is blank or starts with its indent |
| CodeWriting.CommentedPrefix | protobuf-codegen/src/code_writer.rs:95-103 | `commented(cb)` writes `cb`'s top-level lines with `"// "` and the indent in front; blank lines stay bare |
| CodeWriting.CodeWriter.Block | protobuf-codegen/src/code_writer.rs:142-149 | writes `first` at the current indent, the callback's lines one level deeper, then `last` at the current indent |
| CodeWriting.BlockBalanced | protobuf-codegen/src/code_writer.rs:142-149 | for any callback, a block writes at least two lines, the first and last being `first` and `last` at the writer's indent; when the callback does not use `commented`, every line between them is blank or one level deeper |
| CodeWriting.NestedBlocks | protobuf-codegen/src/code_writer.rs:142-149 | a block nested in a block is written line by line at indents 0, 1, 2, 1, 0 levels deeper, with blank lines bare |
| CodeWriting.ExampleBlockText | protobuf-codegen/src/code_writer.rs:25-33 | the three lines of a block become their bytes, each ending in a newline |
| CodeWriting.CodeWriter.ExprBlock | protobuf-codegen/src/code_writer.rs:151-156 | the block delimiters are `prefix + " {"` and `"}"` |
| CodeWriting.CodeWriter.StmtBlock | protobuf-codegen/src/code_writer.rs:158-163 | the block delimiters are `prefix + " {"` and `"};"` |
| CodeWriting.CodeWriter.UnsafeExpr | protobuf-codegen/src/code_writer.rs:165-170 | the block delimiters are `"unsafe {"` and `"}"` |
| CodeWriting.CodeWriter.ImplSelfBlock | protobuf-codegen/src/code_writer.rs:172-177 | the block delimiters are `"impl " + name + " {"` and `"}"` |
| CodeWriting.CodeWriter.ImplForBlock | protobuf-codegen/src/code_writer.rs:179-184 | the block delimiters are `"impl T for Y {"` and `"}"` |
| CodeWriting.CodeWriter.ImplArgsForBlock | protobuf-codegen/src/code_writer.rs:186-196 | the block delimiters are `"impl" + args_str + " T for Y {"` and `"}"` |
| CodeWriting.ImplWithoutArgs | protobuf-codegen/src/code_writer.rs:190-195 | with no arguments the header is `"impl T for Y {"`, with no angle brackets |
| CodeWriting.ImplTwoArgs | protobuf-codegen/src/code_writer.rs:190-193 | arguments are joined by `", "` between `<` and `>` |
| CodeWriting.CodeWriter.UnsafeImpl | protobuf-codegen/src/code_writer.rs:198-200 | writes the single line `"unsafe impl W for F {}"` |
| CodeWriting.CodeWriter.PubStruct | protobuf-codegen/src/code_writer.rs:202-207 | the block delimiters are `"pub struct N {"` and `"}"` |
| CodeWriting.CodeWriter.DefStruct | protobuf-codegen/src/code_writer.rs:209-214 | the block delimiters are `"struct N {"` and `"}"` |
| CodeWriting.CodeWriter.PubEnum | protobuf-codegen/src/code_writer.rs:216-221 | the block delimiters are `"pub enum N {"` and `"}"` |
| CodeWriting.CodeWriter.PubTrait | protobuf-codegen/src/code_writer.rs:223-228 | the block delimiters are `"pub trait N {"` and `"}"` |
| CodeWriting.CodeWriter.PubTraitExtend | protobuf-codegen/src/code_writer.rs:230-235 | the block delimiters are `"pub trait N : E {"` and `"}"` |
| CodeWriting.CodeWriter.FieldEntry | protobuf-codegen/src/code_writer.rs:237-239 | writes the single line `"name: value,"` |
| CodeWriting.CodeWriter.FieldDecl | protobuf-codegen/src/code_writer.rs:241-243 | writes the single line `"name: type,"` |
| CodeWriting.CodeWriter.PubFieldDecl | protobuf-codegen/src/code_writer.rs:245-247 | writes the single line `"pub name: type,"` |
| CodeWriting.CodeWriter.FieldDeclVis | protobuf-codegen/src/code_writer.rs:249-254 | `Public` writes the line with `"pub "` in front; `Default` writes it without |
| CodeWriting.CodeWriter.Derive | protobuf-codegen/src/code_writer.rs:256-259 | writes `"#[derive(" + names joined by "," + ")]"` |
| CodeWriting.CodeWriter.Allow | protobuf-codegen/src/code_writer.rs:261-264 | writes `"#[allow(" + lints joined by "," + ")]"` |
| CodeWriting.JoinSnoc | protobuf-codegen/src/code_writer.rs:256-264 | joining one more part adds the separator and the part at the end |
| CodeWriting.JoinLength | protobuf-codegen/src/code_writer.rs:256-264 | a join is as long as its parts plus one separator between each pair of neighbours |
| CodeWriting.CodeWriter.Comment | protobuf-codegen/src/code_writer.rs:266-272 | an empty comment writes `"//"`; any other comment writes `"// "` followed by the comment, at the indent |
| CodeWriting.CommentRoundTrip | protobuf-codegen/src/code_writer.rs:266-272 | a comment line starts with `//` and the comment can be read back from it |
| CodeWriting.CodeWriter.Documentation | protobuf-codegen/src/code_writer.rs:274-280 | an empty line writes `"///"`; any other line writes `"/// "` followed by the line, at the indent |
| CodeWriting.DocumentationRoundTrip | protobuf-codegen/src/code_writer.rs:274-280 | a documentation line starts with `///` and the comment can be read back from it |
| CodeWriting.FindLocation | protobuf-codegen/src/code_writer.rs:334-337 | the index of the first location whose path equals `path` element by element, or none when no location's path does |
| CodeWriting.SplitLines | protobuf-codegen/src/code_writer.rs:339-343 | `str::lines`: no piece contains a newline |
| CodeWriting.FirstNewline | protobuf-codegen/src/code_writer.rs:339-343 | the position of the first `'\n'` at or after `from`, or the end of the string |
| CodeWriting.SplitLinesRoundTrip | protobuf-codegen/src/code_writer.rs:339-343 | without `'\r'`, writing each line back with its newline restores the comment, plus one final newline if it had none |
| CodeWriting.ExampleSplitLines | protobuf-codegen/src/code_writer.rs:339-343 | `"a\r\nb\n"` gives `["a", "b"]`: the `'\r'` is dropped and there is no empty last line; `"\n"` gives one empty line |
| CodeWriting.CodeWriter.AllDocumentation | protobuf-codegen/src/code_writer.rs:329-351 | appends exactly the rendering of `AllDocumentationCmds(info, path)` |
| CodeWriting.DocumentationWithoutInfo | protobuf-codegen/src/code_writer.rs:334-337 | without `info`, nothing is written |
| CodeWriting.DocumentationWithoutLocation | protobuf-codegen/src/code_writer.rs:334-337 | when no location's path equals `path`, nothing is written |
| CodeWriting.DocumentationSkipsCodeBlocks | protobuf-codegen/src/code_writer.rs:345-350 | when any line of the first matching comment starts with four spaces, nothing is written |
| CodeWriting.DocumentationOfFirstMatch | protobuf-codegen/src/code_writer.rs:329-351 | otherwise, one `///` line per line of the first matching location's comment is written, in order, at the writer's indent |
| CodeWriting.RenderDocumentation | protobuf-codegen/src/code_writer.rs:346-348 | the documentation calls write one line per comment line, in order |
| CodeWriting.CodeWriter.FnDef | protobuf-codegen/src/code_writer.rs:353-355 | writes the single line `"fn sig;"` |
| CodeWriting.CodeWriter.FnBlock | protobuf-codegen/src/code_writer.rs:357-366 | the block opens with `"pub fn sig {"` when public and `"fn sig {"` otherwise, and closes with `"}"` |
| CodeWriting.CodeWriter.PubFn | protobuf-codegen/src/code_writer.rs:368-373 | the block delimiters are `"pub fn sig {"` and `"}"` |
| CodeWriting.CodeWriter.DefFn | protobuf-codegen/src/code_writer.rs:375-380 | the block delimiters are `"fn sig {"` and `"}"` |
| CodeWriting.CodeWriter.DefMod | protobuf-codegen/src/code_writer.rs:382-387 | the block delimiters are `"mod N {"` and `"}"` |
| CodeWriting.CodeWriter.PubMod | protobuf-codegen/src/code_writer.rs:389-394 | the block delimiters are `"pub mod N {"` and `"}"` |
| CodeWriting.CodeWriter.WhileBlock | protobuf-codegen/src/code_writer.rs:396-401 | the block delimiters are `"while c {"` and `"}"` |
| CodeWriting.CodeWriter.IfStmt | protobuf-codegen/src/code_writer.rs:404-409 | the block delimiters are `"if c {"` and `"}"` |
| CodeWriting.CodeWriter.IfElseStmt | protobuf-codegen/src/code_writer.rs:412-420 | writes `"if c {"` and `"} else {"` at the indent, then the callback one level deeper, then `"}"` |
| CodeWriting.CodeWriter.IfLetStmt | protobuf-codegen/src/code_writer.rs:423-428 | the block delimiters are `"if let D = E {"` and `"}"` |
| CodeWriting.CodeWriter.IfLetElseStmt | protobuf-codegen/src/code_writer.rs:431-436 | writes `"if let D = E {"` and `"} else {"`, then the callback one level deeper, then `"}"` |
| CodeWriting.CodeWriter.ForStmt | protobuf-codegen/src/code_writer.rs:438-443 | the block delimiters are `"for V in O {"` and `"};"` |
| CodeWriting.CodeWriter.MatchBlock | protobuf-codegen/src/code_writer.rs:445-450 | the block delimiters are `"match v {"` and `"};"` |
| CodeWriting.CodeWriter.MatchExpr | protobuf-codegen/src/code_writer.rs:452-457 | the block delimiters are `"match v {"` and `"}"` |
| CodeWriting.CodeWriter.CaseBlock | protobuf-codegen/src/code_writer.rs:459-464 | the block delimiters are `"C => {"` and `"},"` |
| CodeWriting.CodeWriter.CaseExpr | protobuf-codegen/src/code_writer.rs:466-468 | writes the single line `"C => B,"` |
| CodeWriting.CodeWriter.PubConst | protobuf-codegen/src/code_writer.rs:105-107 | writes the single line `"pub const N: T = I;"` |
| CodeWriting.CodeWriter.LazyStatic | protobuf-codegen/src/code_writer.rs:109-114 | writes the declaration `"static N: P::rt::Lazy<T> = P::rt::Lazy::INIT;"` |
| CodeWriting.CodeWriter.LazyStaticDeclGet | protobuf-codegen/src/code_writer.rs:116-129 | writes the declaration, then the line opening the initialising closure on `N.get`, the initialiser one level deeper, then `"})"` |
| CodeWriting.CodeWriter.LazyStaticDeclGetSimple | protobuf-codegen/src/code_writer.rs:131-140 | writes the declaration, then `"N.get(I)"` |
| CodeWriting.CodeWriter.Todo | protobuf-codegen/src/code_writer.rs:76-78 | writes the single line `panic!("TODO: msg");` |
| CodeWriting.CodeWriter.Unimplemented | protobuf-codegen/src/code_writer.rs:80-82 | writes the single line `unimplemented!();` |
| CodeWriting.CodeWriter.WriteGeneratedCommon | protobuf-codegen/src/code_writer.rs:53-74 | appends the eighteen header lines in order: the marker, the clippy link and the crate-level attributes |
| CodeWriting.GeneratedCommonShape | protobuf-codegen/src/code_writer.rs:53-74 | the header keeps what came before, adds eighteen lines starting with `// @generated`, and every non-blank one is at the indent |
| CodeWriting.CodeWriter.WriteGenerated | protobuf-codegen/src/code_writer.rs:35-38 | writes the "do not edit" line, then the common header |
| CodeWriting.CodeWriter.WriteGeneratedBy | protobuf-codegen/src/code_writer.rs:40-51 | writes the generator and version line and the parser line, then the common header |
| WireFormat.ReadTag | protobuf/src/well_known_types/source_context.rs:59 | `read_tag_unpack` consumes at least one byte and never reads past the input |
| WireLemmas.ReadTagEncoded | protobuf/src/well_known_types/source_context.rs:59 | `read_tag_unpack` recovers the field number and wire type of every written tag |
| WireLemmas.ReadVarintEncoded | protobuf/src/well_known_types/source_context.rs:59 | the varint reader inverts the base-128 encoder on every 64-bit value |
| WireLemmas.EncodeVarintLength | protobuf/src/well_known_types/source_context.rs:59 | a varint fits in `k` bytes exactly when the value is below 128^k |
| WireFormat.WireTypeOfCode | protobuf/src/well_known_types/source_context.rs:62 | codes 0 to 5 name a wire type whose code is that number; 6 and 7 name none |
| WireFormat.ReadString | protobuf/src/well_known_types/source_context.rs:65 | a successful `read_string` yields valid UTF-8 with a 32-bit length and stays within the input |
| WireLemmas.ReadStringEncoded | protobuf/src/well_known_types/source_context.rs:65 | `read_string` reads back every written UTF-8 string |
| WireLemmas.ReadBytesEncoded | protobuf/src/well_known_types/source_context.rs:65 | a length-delimited payload is read back whole, and the position ends right after it |
| WireLemmas.OverlongVarint | protobuf/src/well_known_types/source_context.rs:59 | ten bytes in a row with the high bit set make the varint, and so the tag, `IncorrectVarint` |
| WireLemmas.TruncatedPayload | protobuf/src/well_known_types/source_context.rs:65 | a length prefix past the end of the input makes `read_bytes`, `read_string` and a length-delimited `read_unknown` give `TruncatedMessage` |
| WireFormat.ReadUnknownOrSkipGroup | protobuf/src/well_known_types/source_context.rs:68 | a group leaves the store unchanged; any other value appends one field with that number and wire type, and keeps the old store in front |
| WireLemmas.ReadUnknownOrSkipGroupEncoded | protobuf/src/well_known_types/source_context.rs:68 | a written unknown value is read back and appended to the store |
| WireLemmas.ReadUnknownEncoded | protobuf/src/well_known_types/source_context.rs:68 | `read_unknown` inverts the value part of `write_unknown` for each wire type |
| WireLemmas.ReadFixed32Encoded | protobuf/src/well_known_types/source_context.rs:68 | the fixed32 reader inverts the four-byte little-endian encoding |
| WireLemmas.ReadFixed64Encoded | protobuf/src/well_known_types/source_context.rs:68 | the fixed64 reader inverts the eight-byte little-endian encoding |
| WireFormat.SkipGroup | protobuf/src/well_known_types/source_context.rs:68 | skipping a group never moves backwards or past the input |
| WireLemmas.StringSizeIsLength | protobuf/src/well_known_types/source_context.rs:80 | `string_size` is the length of what `write_string` writes |
| WireLemmas.TagSizeIsTagLength | protobuf/src/well_known_types/source_context.rs:80 | a tag is as long as `tag_size` says, whatever its wire type |
| WireLemmas.VarintSizeIsEncodedLength | protobuf/src/well_known_types/source_context.rs:80 | the varint size function is the length of the encoding for every 64-bit value |
| WireLemmas.UnknownFieldsSizeIsLength | protobuf/src/well_known_types/source_context.rs:82 | `unknown_fields_size` is the length of what `write_unknown_fields` writes |
| WireLemmas.ValueSizeIsLength | protobuf/src/well_known_types/source_context.rs:82 | each unknown value's size is the length of its bytes |
| WireLemmas.UnknownFieldsBytesAppend | protobuf/src/well_known_types/source_context.rs:91 | writing two stores one after the other writes their concatenation |
| CodedOutput.CodedOutputStream.WriteString | protobuf/src/well_known_types/source_context.rs:89 | appends the tag with wire type 2, the length and the payload |
| CodedOutput.CodedOutputStream.WriteUnknownFields | protobuf/src/well_known_types/source_context.rs:91 | appends every stored field, tag then value, in store order |
| Utf8.AsciiIsValid | protobuf/src/well_known_types/source_context.rs:65 | every ASCII string passes the UTF-8 check |
| Utf8.StrayContinuationInvalid | protobuf/src/well_known_types/source_context.rs:65 | a lone continuation byte, or a truncated two-byte form, fails the UTF-8 check |
| SourceContextPb.DefaultInstance | protobuf/src/well_known_types/source_context.rs:132-139 | the default value has an empty `file_name` and an empty unknown store |
| SourceContextPb.SourceContext.constructor | protobuf/src/well_known_types/source_context.rs:46-50 | `new()` is the default value, with the cache at 0 |
| SourceContextPb.SourceContext.IsInitialized | protobuf/src/well_known_types/source_context.rs:53-55 | always true |
| SourceContextPb.SourceContext.MergeFrom | protobuf/src/well_known_types/source_context.rs:57-73 | the loop ends in the state `MergeLoop` gives and succeeds exactly when it reports no error; empty input succeeds and changes nothing; well-formedness is kept |
| SourceContextPb.MergeLoopWellFormed | protobuf/src/well_known_types/source_context.rs:58-71 | every value the decoder stores is well formed, even when it stops with an error |
| SourceContextPb.MergeLoopNameStep | protobuf/src/well_known_types/source_context.rs:61-65 | a `file_name` record replaces `file_name` and the loop goes on after it |
| SourceContextPb.MergeLoopUnknownStep | protobuf/src/well_known_types/source_context.rs:67-69 | any other field number goes through `read_unknown_or_skip_group` and the loop goes on after it |
| SourceContextPb.WrongWireTypeForFileName | protobuf/src/well_known_types/source_context.rs:61-64 | field 1 with a wire type other than length-delimited stops the merge with `UnexpectedWireType`, and nothing more is stored |
| SourceContextPb.TruncatedLengthDelimited | protobuf/src/well_known_types/source_context.rs:58-68 | for every input and every field number: a length-delimited record whose length prefix reaches past the end of the input stops the merge with `TruncatedMessage`, and nothing more is stored |
| SourceContextPb.OverlongTag | protobuf/src/well_known_types/source_context.rs:59 | for every input: a tag whose varint has ten bytes with the high bit set stops the merge with `IncorrectVarint`, and nothing more is stored |
| SourceContextPb.OverlongLength | protobuf/src/well_known_types/source_context.rs:58-68 | for every input and every field number: a length prefix whose varint has ten bytes with the high bit set stops the merge with `IncorrectVarint` |
| SourceContextPb.MergeUnknownEncoded | protobuf/src/well_known_types/source_context.rs:67-69 | decoding one written unknown field appends exactly that field |
| SourceContextPb.MergeNameEncoded | protobuf/src/well_known_types/source_context.rs:61-65 | decoding a written `file_name` record replaces `file_name` |
| SourceContextPb.MergeUnknownsEncoded | protobuf/src/well_known_types/source_context.rs:58-71 | decoding a written unknown store appends exactly that store, in order |
| SourceContextPb.MergeEncoded | protobuf/src/well_known_types/source_context.rs:58-71 | decoding the encoding of `f`, wherever it sits in the input, merges `f` into the fields so far |
| SourceContextPb.MergeValues | protobuf/src/well_known_types/source_context.rs:58-71 | the reference definition of a merge, in closed form, that `MergeEncoded` and `MergeEncodedSucceeds` prove the decode loop meets: the old `file_name` is kept when the new one is empty (it is not on the wire), and the unknown stores are appended |
| SourceContextPb.MergeEncodedSucceeds | protobuf/src/well_known_types/source_context.rs:57-73 | `merge_from` on the encoding of `f` succeeds and merges `f` into the instance |
| SourceContextPb.RoundTrip | protobuf/src/well_known_types/source_context.rs:57-93 | a fresh instance decodes the encoding of any decodable value back to that value |
| SourceContextPb.LastOneWins | protobuf/src/well_known_types/source_context.rs:58-71 | two concatenated encodings decode to the later non-empty `file_name` and both unknown stores, in order |
| SourceContextPb.SourceContext.ComputeSize | protobuf/src/well_known_types/source_context.rs:77-85 | returns `Size` and stores it in the cache, so that `get_cached_size` then returns it; for well-formed values it equals the encoded length |
| SourceContextPb.SizeIsEncodedLength | protobuf/src/well_known_types/source_context.rs:77-93 | `compute_size` is the length of what `write_to_with_cached_sizes` writes |
| SourceContextPb.SourceContext.GetCachedSize | protobuf/src/well_known_types/source_context.rs:95-97 | returns the cached size, which is the value the last `ComputeSize` stored (`ComputeSize` ensures `GetCachedSize() == size`, and `MergeFrom` and `Clear` do not modify the cache) |
| SourceContextPb.SourceContext.WriteToWithCachedSizes | protobuf/src/well_known_types/source_context.rs:87-93 | appends field 1 only when `file_name` is non-empty, then the unknown fields |
| SourceContextPb.ExampleAProto | protobuf/src/well_known_types/source_context.rs:79-93 | `"a.proto"` encodes as 0x0A, 0x07 and its seven bytes, size 9, and decodes back |
| SourceContextPb.ExampleTruncated | protobuf/src/well_known_types/source_context.rs:65 | a length running past the end of the input is `TruncatedMessage`, and nothing is stored |
| SourceContextPb.ExampleWrongWireType | protobuf/src/well_known_types/source_context.rs:61-64 | field 1 sent as a varint is rejected |
| SourceContextPb.ExampleUnknownPreserved | protobuf/src/well_known_types/source_context.rs:67-69 | an undeclared field survives decoding and re-encoding byte for byte |
| SourceContextPb.ExampleUnknownFieldOne | protobuf/src/well_known_types/source_context.rs:61-68 | a store holding an unknown field numbered 1 encodes a field-1 record, which decodes into `file_name` and not the store; this is why the round trip is stated for well-formed values |
| SourceContextPb.SourceContext.Clear | protobuf/src/well_known_types/source_context.rs:142-147 | back to the default value, whose encoding is that of `new()`: no bytes, size 0 |
| SourceContextPb.DefaultEncodesEmpty | protobuf/src/well_known_types/source_context.rs:132-139 | the default value encodes to nothing and has size 0 |
| DoctestPb.DefaultInstance | protobuf/src/doctest_pb.rs:109-115 | the default value has an empty unknown store |
| DoctestPb.MyMessage.constructor | protobuf/src/doctest_pb.rs:40-44 | `new()` is the default value, with the cache at 0 |
| DoctestPb.MyMessage.IsInitialized | protobuf/src/doctest_pb.rs:47-49 | always true |
| DoctestPb.MyMessage.MergeFrom | protobuf/src/doctest_pb.rs:51-61 | the loop ends in the state `MergeLoop` gives; empty input changes nothing; the old store is kept in front |
| DoctestPb.MergeLoopStep | protobuf/src/doctest_pb.rs:52-59 | every tag, field 1 included, goes through `read_unknown_or_skip_group` |
| DoctestPb.MergeLoopExtends | protobuf/src/doctest_pb.rs:52-59 | decoding only appends to the store |
| DoctestPb.MergeLoopWellFormed | protobuf/src/doctest_pb.rs:52-59 | every value the decoder stores is well formed |
| DoctestPb.MergeUnknownEncoded | protobuf/src/doctest_pb.rs:56 | decoding one written unknown field appends exactly that field |
| DoctestPb.MergeEncoded | protobuf/src/doctest_pb.rs:52-59 | decoding the encoding of a store appends that store to the one so far |
| DoctestPb.RoundTrip | protobuf/src/doctest_pb.rs:51-75 | a fresh instance decodes the encoding of any decodable store back to it |
| DoctestPb.Concatenation | protobuf/src/doctest_pb.rs:51-61 | two concatenated encodings decode to both stores, in order |
| DoctestPb.ExampleEveryFieldUnknown | protobuf/src/doctest_pb.rs:54-57 | a varint under field 1 is kept as an unknown field |
| DoctestPb.ExampleGroupDropped | protobuf/src/doctest_pb.rs:56 | a group is skipped and leaves no trace |
| DoctestPb.TruncatedLengthDelimited | protobuf/src/doctest_pb.rs:52-57 | for every input and every field number: a length-delimited record whose length prefix reaches past the end of the input stops the merge with `TruncatedMessage`, and nothing more is stored |
| DoctestPb.OverlongTag | protobuf/src/doctest_pb.rs:53 | for every input: a tag whose varint has ten bytes with the high bit set stops the merge with `IncorrectVarint`, and nothing more is stored |
| DoctestPb.OverlongLength | protobuf/src/doctest_pb.rs:52-57 | for every input and every field number: a length prefix whose varint has ten bytes with the high bit set stops the merge with `IncorrectVarint` |
| DoctestPb.ExampleMissingValue | protobuf/src/doctest_pb.rs:53-56 | a tag without its value stops with `UnexpectedEof`, and nothing is stored |
| DoctestPb.MyMessage.ComputeSize | protobuf/src/doctest_pb.rs:65-70 | returns the unknown-field size and stores it in the cache, so that `get_cached_size` then returns it; for well-formed stores it equals the encoded length |
| DoctestPb.SizeIsEncodedLength | protobuf/src/doctest_pb.rs:65-75 | the size is the length of the encoding |
| DoctestPb.MyMessage.GetCachedSize | protobuf/src/doctest_pb.rs:77-79 | returns the cached size, which is the value the last `ComputeSize` stored (`ComputeSize` ensures `GetCachedSize() == size`, and `MergeFrom` and `Clear` do not modify the cache) |
| DoctestPb.MyMessage.WriteToWithCachedSizes | protobuf/src/doctest_pb.rs:72-75 | appends the unknown fields and nothing else |
| DoctestPb.DefaultEncodesEmpty | protobuf/src/doctest_pb.rs:109-115 | a fresh instance encodes to zero bytes and has size 0 |
| DoctestPb.MyMessage.Clear | protobuf/src/doctest_pb.rs:118-122 | the store is emptied, and the encoding is then no bytes |

## Left out

- The sink's `std::io::Write` and its `.unwrap()` (protobuf-codegen/src/code_writer.rs:25-33). The sink is a sequence of lines that cannot fail, so a write error and the resulting panic are not modelled.
- Callbacks are data, not closures. A callback is the sequence of writer calls it makes (`Cmd`). Callbacks that compute, or that call other writer methods than `write_line`, `indented`, `commented` and `block`, are expressed through those four, which is all the wrappers do.
- CodeWriting.BlockBalanced: the clause about the lines between `first` and `last` is stated only for callbacks that do not use `commented`. A `commented` callback inside a block writes `"// "` in front of the deeper indent, so those lines do not start with it. The clause about the first and last lines holds for every callback.
- CodeWriting.CommentedPrefix and CodeWriting.IndentShift: stated only for callbacks that do not nest `commented`. Nesting `commented` inside `indented` puts `"// "` in the middle of the indent, so the lines no longer share one prefix.
- `lines()` is modelled as Rust's `str::lines` behaved before Rust 1.77: one trailing `'\r'` is dropped from every piece, with or without a following `'\n'`.
- `Location.leading_comments` is a plain string; an unset comment is `""`, which is what `get_leading_comments` returns.
- `write_generated_common`'s header is written as code_writer.rs has it. The headers at the top of source_context.rs and doctest_pb.rs come from another generator version and are not compared with it.
- protobuf-codegen/src/file_and_mod.rs is not part of this model: it is a record with no behaviour.
- `CodedInputStream`, `CodedOutputStream` and the `rt` helpers are not part of the source files modelled. They are defined from the Protocol Buffers encoding, as far as the generated code uses them. Two rules follow rust-protobuf's runtime rather than the encoding:
  - a varint longer than ten bytes is an error;
  - a tag with field number 0, or with wire type 6 or 7, is an error.
- WireFormat.ReadUnknownOrSkipGroup, WireFormat.SkipGroup: skipping a group reads tags up to the first matching END_GROUP or the end of input. The END_GROUP's field number is not compared with the START_GROUP's. The encoding treats a group without its END_GROUP as malformed. The model instead counts one that runs to the end of input as skipped, because rust-protobuf's runtime `skip_group` loops only while input remains and returns success when it runs out.
- The unknown store is a sequence in arrival order. The runtime keeps a `HashMap` from field number to values grouped by wire type, so its write order can differ from arrival order when field numbers repeat or interleave. The round-trip and size lemmas hold for the ordered store.
- Unknown field numbers are `1 .. 2^29 - 1`, since a tag greater than that does not fit 32 bits.
- SourceContextPb.SourceContext.ComputeSize, DoctestPb.MyMessage.ComputeSize: the size is a `nat`. `compute_size` returns a `u32` and would wrap for messages of 4 GiB or more, which is not modelled.
- SourceContextPb.RoundTrip, SourceContextPb.MergeEncoded, SourceContextPb.MergeEncodedSucceeds, SourceContextPb.LastOneWins: stated for well-formed values. A well-formed value has a UTF-8 `file_name` shorter than 2^32 bytes, unknown length-delimited payloads shorter than 2^32 bytes, and no unknown field numbered 1. Decoding produces only such values (`MergeLoopWellFormed`). The program can still store field 1 in the unknown store through the public `mut_unknown_fields`; such a value does not round-trip, as `ExampleUnknownFieldOne` shows.
- DoctestPb.RoundTrip, DoctestPb.MergeEncoded, DoctestPb.Concatenation: stated for stores whose length-delimited payloads are shorter than 2^32 bytes. A longer payload's length does not fit the 32-bit prefix the decoder reads back.
- SourceContextPb.SizeIsEncodedLength: stated for a `file_name` shorter than 2^64 bytes and unknown length-delimited payloads shorter than 2^32 bytes. Up to those bounds, the model's varint size and varint writer agree. `file_name` need not be UTF-8, and field 1 may appear in the unknown store.
- DoctestPb.SizeIsEncodedLength: stated for stores whose length-delimited payloads are shorter than 2^32 bytes.
- `Clear::clear` does not reset the cached size in the generated code, and the model does not reset it either.
- Descriptors and reflection are not modelled: `descriptor_static`, `file_descriptor_proto` and the embedded descriptor bytes of source_context.rs. They are once-initialised statics built by reflection code not shown here.
- Also not modelled: the `Debug` impl, `text_format`, `ProtobufValue`, the `Default for &T` impls and the serde attributes. They are trait plumbing with no behaviour of their own.
- SourceContextPb.SourceContext.WriteToWithCachedSizes, DoctestPb.MyMessage.WriteToWithCachedSizes: the output stream is a byte sequence that cannot fail. So these methods return nothing. The `ProtobufResult` error that `?` passes on from `write_string` or `write_unknown_fields`, and the partial write such an error leaves behind, are not modelled.
- The input stream is a byte sequence that is all present. Reading from an underlying `Read`, with its I/O errors and buffer refills, is not modelled.

