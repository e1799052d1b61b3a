/**
 * `CodeWriter`, the indentation-aware emitter the code generator writes Rust
 * source with. A writer is an indent string and a shared sink; every
 * `write_line` sends one line to the sink, and `indented`/`commented` run a
 * callback against a child writer with a longer indent.
 *
 * The sink is the sequence of lines written so far (`TextOf` gives the
 * bytes: each line followed by a newline). A callback is a sequence of
 * commands (`Cmd`) that the writer interprets; `Render` says which lines a
 * command sequence produces at a given indent.
 */
module CodeWriting {
  import opened Results

  /** What `indented` adds to the indent. */
  const INDENT_STEP: string := "    "

  /** What `commented` puts in front of the indent. */
  const COMMENT_PREFIX: string := "// "

  // ------------------------------------------------------------- lines

  /** The line `write_line(line)` sends at `indent`: a blank line goes out bare, without the indent. */
  function LineAt(indent: string, line: string): string
  {
    if line == "" then "" else indent + line
  }

  /** The bytes of a sequence of lines: each one followed by `"\n"`. */
  function TextOf(lines: seq<string>): string
  {
    if lines == [] then "" else lines[0] + "\n" + TextOf(lines[1..])
  }

  /** `write_line("")` sends exactly a newline; any other line its indent, the line and a newline. */
  lemma WriteLineBytes(indent: string, line: string)
    ensures line == "" ==> TextOf([LineAt(indent, line)]) == "\n"
    ensures line != "" ==> TextOf([LineAt(indent, line)]) == indent + line + "\n"
  {
    assert [LineAt(indent, line)][1..] == [];
    assert "" + "\n" == "\n";
  }

  /** The text of two runs of lines is the text of the first, then the text of the second. */
  lemma {:induction false} TextOfAppend(a: seq<string>, b: seq<string>)
    ensures TextOf(a + b) == TextOf(a) + TextOf(b)
  {
    if a == [] {
      assert a + b == b;
    } else {
      assert (a + b)[0] == a[0];
      assert (a + b)[1..] == a[1..] + b;
      TextOfAppend(a[1..], b);
    }
  }

  // ------------------------------------------------------------ commands

  /** A callback: the writer calls it makes, as data. */
  datatype Cmd =
    | Line(text: string)
    | Indented(body: seq<Cmd>)
    | Commented(body: seq<Cmd>)
    | Block(first: string, last: string, body: seq<Cmd>)

  /** The lines a callback writes at `indent`, in order. */
  function Render(cmds: seq<Cmd>, indent: string): seq<string>
    decreases cmds
  {
    if cmds == [] then [] else RenderOne(cmds[0], indent) + Render(cmds[1..], indent)
  }

  function RenderOne(c: Cmd, indent: string): seq<string>
    decreases c
  {
    match c
    case Line(text) => [LineAt(indent, text)]
    case Indented(body) => Render(body, indent + INDENT_STEP)
    case Commented(body) => Render(body, COMMENT_PREFIX + indent)
    case Block(first, last, body) => [LineAt(indent, first)] + Render(body, indent + INDENT_STEP) + [LineAt(indent, last)]
  }

  /** Running two callbacks one after the other writes the lines of the first, then those of the second. */
  lemma {:induction false} RenderAppend(a: seq<Cmd>, b: seq<Cmd>, indent: string)
    ensures Render(a + b, indent) == Render(a, indent) + Render(b, indent)
    decreases a
  {
    if a == [] {
      assert a + b == b;
    } else {
      assert (a + b)[0] == a[0];
      assert (a + b)[1..] == a[1..] + b;
      RenderAppend(a[1..], b, indent);
    }
  }

  /** The number of lines a callback writes: one per line, two more per block. */
  function LineCount(cmds: seq<Cmd>): nat
    decreases cmds
  {
    if cmds == [] then 0 else LineCountOne(cmds[0]) + LineCount(cmds[1..])
  }

  function LineCountOne(c: Cmd): nat
    decreases c
  {
    match c
    case Line(_) => 1
    case Indented(body) => LineCount(body)
    case Commented(body) => LineCount(body)
    case Block(_, _, body) => LineCount(body) + 2
  }

  /** The indent never changes how many lines are written. */
  lemma {:induction false} RenderLength(cmds: seq<Cmd>, indent: string)
    ensures |Render(cmds, indent)| == LineCount(cmds)
    decreases cmds
  {
    if cmds != [] {
      RenderOneLength(cmds[0], indent);
      RenderLength(cmds[1..], indent);
    }
  }

  lemma {:induction false} RenderOneLength(c: Cmd, indent: string)
    ensures |RenderOne(c, indent)| == LineCountOne(c)
    decreases c
  {
    match c
    case Line(_) =>
    case Indented(body) => RenderLength(body, indent + INDENT_STEP);
    case Commented(body) => RenderLength(body, COMMENT_PREFIX + indent);
    case Block(_, _, body) => RenderLength(body, indent + INDENT_STEP);
  }

  /** A callback that never calls `commented`. */
  predicate NoComments(cmds: seq<Cmd>)
    decreases cmds
  {
    cmds == [] || (NoCommentsOne(cmds[0]) && NoComments(cmds[1..]))
  }

  predicate NoCommentsOne(c: Cmd)
    decreases c
  {
    match c
    case Line(_) => true
    case Indented(body) => NoComments(body)
    case Commented(_) => false
    case Block(_, _, body) => NoComments(body)
  }

  /** `p` put in front of every non-blank line. */
  function Shift(p: string, lines: seq<string>): seq<string>
  {
    if lines == [] then [] else [if lines[0] == "" then "" else p + lines[0]] + Shift(p, lines[1..])
  }

  lemma {:induction false} ShiftAppend(p: string, a: seq<string>, b: seq<string>)
    ensures Shift(p, a + b) == Shift(p, a) + Shift(p, b)
  {
    if a == [] {
      assert a + b == b;
    } else {
      assert (a + b)[0] == a[0];
      assert (a + b)[1..] == a[1..] + b;
      ShiftAppend(p, a[1..], b);
    }
  }

  lemma StringAssoc(a: string, b: string, c: string)
    ensures (a + b) + c == a + (b + c)
  {
  }

  lemma LineAtShift(p: string, indent: string, line: string)
    ensures Shift(p, [LineAt(indent, line)]) == [LineAt(p + indent, line)]
  {
    StringAssoc(p, indent, line);
  }

  /**
   * Indentation composes: without `commented`, rendering at `p + indent` is
   * rendering at `indent` with `p` put in front of every non-blank line.
   */
  lemma {:induction false} IndentShift(cmds: seq<Cmd>, p: string, indent: string)
    requires NoComments(cmds)
    ensures Render(cmds, p + indent) == Shift(p, Render(cmds, indent))
    decreases cmds
  {
    if cmds != [] {
      IndentShiftOne(cmds[0], p, indent);
      IndentShift(cmds[1..], p, indent);
      ShiftAppend(p, RenderOne(cmds[0], indent), Render(cmds[1..], indent));
    }
  }

  lemma {:induction false} IndentShiftOne(c: Cmd, p: string, indent: string)
    requires NoCommentsOne(c)
    ensures RenderOne(c, p + indent) == Shift(p, RenderOne(c, indent))
    decreases c
  {
    match c
    case Line(text) =>
      LineAtShift(p, indent, text);
    case Indented(body) =>
      StringAssoc(p, indent, INDENT_STEP);
      IndentShift(body, p, indent + INDENT_STEP);
    case Block(first, last, body) =>
      StringAssoc(p, indent, INDENT_STEP);
      IndentShift(body, p, indent + INDENT_STEP);
      var a, m, z := [LineAt(indent, first)], Render(body, indent + INDENT_STEP), [LineAt(indent, last)];
      ShiftAppend(p, a + m, z);
      ShiftAppend(p, a, m);
      LineAtShift(p, indent, first);
      LineAtShift(p, indent, last);
  }

  /** Every non-blank line of `Shift(p, lines)` starts with `p`. */
  lemma {:induction false} ShiftPrefix(p: string, lines: seq<string>)
    ensures |Shift(p, lines)| == |lines|
    ensures forall k :: 0 <= k < |lines| ==> Shift(p, lines)[k] == (if lines[k] == "" then "" else p + lines[k])
  {
    if lines != [] {
      ShiftPrefix(p, lines[1..]);
    }
  }

  /** Without `commented`, every line a callback writes is blank or starts with the writer's indent. */
  lemma IndentPrefix(cmds: seq<Cmd>, indent: string)
    requires NoComments(cmds)
    ensures forall k :: 0 <= k < |Render(cmds, indent)| ==>
              Render(cmds, indent)[k] == "" || indent <= Render(cmds, indent)[k]
  {
    assert indent + "" == indent;
    IndentShift(cmds, indent, "");
    ShiftPrefix(indent, Render(cmds, ""));
  }

  /**
   * `block(first, last, cb)` balances: `first` and `last` at the writer's
   * indent for any callback, and, when the callback does not use `commented`,
   * everything between them blank or one level deeper.
   */
  lemma BlockBalanced(first: string, last: string, body: seq<Cmd>, indent: string)
    ensures var r := Render([Block(first, last, body)], indent);
            && |r| >= 2 && r[0] == LineAt(indent, first) && r[|r| - 1] == LineAt(indent, last)
    ensures var r := Render([Block(first, last, body)], indent);
            NoComments(body) ==> forall k :: 0 < k < |r| - 1 ==> r[k] == "" || indent + INDENT_STEP <= r[k]
  {
    var m := Render(body, indent + INDENT_STEP);
    if NoComments(body) {
      IndentPrefix(body, indent + INDENT_STEP);
    }
    assert Render([Block(first, last, body)], indent) == [LineAt(indent, first)] + m + [LineAt(indent, last)] by {
      assert [Block(first, last, body)][1..] == [];
    }
  }

  /**
   * `commented(cb)` writes what `cb` writes at the top level with `"// "`
   * and the indent in front of each non-blank line; a blank line stays bare.
   */
  lemma CommentedPrefix(body: seq<Cmd>, indent: string)
    requires NoComments(body)
    ensures Render([Commented(body)], indent) == Shift(COMMENT_PREFIX + indent, Render(body, ""))
  {
    var p := COMMENT_PREFIX + indent;
    assert p + "" == p;
    IndentShift(body, p, "");
    assert Render([Commented(body)], indent) == Render(body, p) by {
      assert [Commented(body)][1..] == [];
    }
  }

  /** A block inside a block: each level four spaces deeper, blank lines bare. */
  lemma NestedBlocks(indent: string, open1: string, close1: string, x: string, open2: string, close2: string, y: string)
    requires open1 != "" && close1 != "" && x != "" && open2 != "" && close2 != "" && y != ""
    ensures Render([Block(open1, close1, [Line(x), Line(""), Block(open2, close2, [Line(y)])])], indent)
            == [indent + open1,
                indent + INDENT_STEP + x,
                "",
                indent + INDENT_STEP + open2,
                indent + INDENT_STEP + INDENT_STEP + y,
                indent + INDENT_STEP + close2,
                indent + close1]
  {
    var i1 := indent + INDENT_STEP;
    var inner := [Line(y)];
    assert Render(inner, i1 + INDENT_STEP) == [i1 + INDENT_STEP + y] by {
      assert inner[1..] == [];
    }
    var block2 := Block(open2, close2, inner);
    var body := [Line(x), Line(""), block2];
    var lines2 := [i1 + open2, i1 + INDENT_STEP + y, i1 + close2];
    assert Render([block2], i1) == lines2 by {
      assert [block2][1..] == [];
    }
    assert Render([Line(""), block2], i1) == [""] + lines2 by {
      assert [Line(""), block2][1..] == [block2];
    }
    assert Render(body, i1) == [i1 + x, "", i1 + open2, i1 + INDENT_STEP + y, i1 + close2] by {
      assert body[1..] == [Line(""), block2];
    }
    assert [Block(open1, close1, body)][1..] == [];
  }

  /** A block's bytes: each line ends in a newline, the last one too. */
  lemma ExampleBlockText()
    ensures TextOf(["fn f() {", "    x", "}"]) == "fn f() {\n    x\n}\n"
  {
    var ls := ["fn f() {", "    x", "}"];
    assert ls[1..] == ["    x", "}"];
    assert ls[1..][1..] == ["}"];
    assert ["}"][1..] == [];
  }

  // ----------------------------------------------------------- comments

  /** The line `comment` writes. */
  function CommentLine(comment: string): string
  {
    if comment == "" then "//" else "// " + comment
  }

  /** The line `documentation` writes. */
  function DocumentationLine(comment: string): string
  {
    if comment == "" then "///" else "/// " + comment
  }

  /** The comment text back from a line `comment` wrote. */
  function Uncomment(line: string): string
  {
    if |line| <= 3 then "" else line[3..]
  }

  /** The comment text back from a line `documentation` wrote. */
  function Undocument(line: string): string
  {
    if |line| <= 4 then "" else line[4..]
  }

  /** A comment line starts with `//`, and the comment can be read back from it. */
  lemma CommentRoundTrip(comment: string)
    ensures "//" <= CommentLine(comment)
    ensures Uncomment(CommentLine(comment)) == comment
  {
    if comment != "" {
      assert CommentLine(comment)[3..] == comment;
    }
  }

  /** A documentation line starts with `///`, and the comment can be read back from it. */
  lemma DocumentationRoundTrip(comment: string)
    ensures "///" <= DocumentationLine(comment)
    ensures Undocument(DocumentationLine(comment)) == comment
  {
    if comment != "" {
      assert DocumentationLine(comment)[4..] == comment;
    }
  }

  // ------------------------------------------------------------- joining

  /** `[..].join(sep)`. */
  function Join(parts: seq<string>, sep: string): string
  {
    if parts == [] then "" else if |parts| == 1 then parts[0] else parts[0] + sep + Join(parts[1..], sep)
  }

  /** Joining one more part adds the separator and the part at the end. */
  lemma {:induction false} JoinSnoc(parts: seq<string>, x: string, sep: string)
    requires parts != []
    ensures Join(parts + [x], sep) == Join(parts, sep) + sep + x
  {
    if |parts| == 1 {
      assert parts + [x] == [parts[0], x];
      assert [parts[0], x][1..] == [x];
    } else {
      assert (parts + [x])[1..] == parts[1..] + [x];
      JoinSnoc(parts[1..], x, sep);
    }
  }

  function TotalLength(parts: seq<string>): nat
  {
    if parts == [] then 0 else |parts[0]| + TotalLength(parts[1..])
  }

  /** A join is as long as its parts plus one separator between each two of them. */
  lemma {:induction false} JoinLength(parts: seq<string>, sep: string)
    requires parts != []
    ensures |Join(parts, sep)| == TotalLength(parts) + (|parts| - 1) * |sep|
  {
    if |parts| > 1 {
      JoinLength(parts[1..], sep);
    }
  }

  /** The `args_str` of `impl_args_for_block`: nothing, or the arguments between `<` and `>`. */
  function ImplArgs(args: seq<string>): string
  {
    if args == [] then "" else "<" + Join(args, ", ") + ">"
  }

  /** No arguments leave no `<>`: the header is `impl T for Y {`. */
  lemma ImplWithoutArgs(tr: string, ty: string)
    ensures "impl" + ImplArgs([]) + " " + tr + " for " + ty + " {" == "impl " + tr + " for " + ty + " {"
  {
    assert "impl" + ImplArgs([]) + " " == "impl ";
  }

  /** Two arguments are joined by `", "` between angle brackets. */
  lemma ImplTwoArgs(a: string, b: string)
    ensures ImplArgs([a, b]) == "<" + a + ", " + b + ">"
  {
    assert [a, b][1..] == [b];
    assert Join([a, b], ", ") == a + ", " + b;
    StringAssoc("<" + a, ", ", b);
    StringAssoc("<", a, ", ");
    StringAssoc("<", a + ", ", b);
  }

  /** `if_let_stmt` hands `if_stmt` the condition `let decl = expr`. */
  lemma IfLetCondition(decl: string, expr: string)
    ensures "if " + ("let " + decl + " = " + expr) == "if let " + decl + " = " + expr
  {
    StringAssoc("if ", "let " + decl + " = ", expr);
    StringAssoc("if ", "let " + decl, " = ");
    StringAssoc("if ", "let ", decl);
    assert "if " + "let " == "if let ";
  }

  // ------------------------------------------------- `str::lines`

  /** The first `'\n'` of `s` at or after `from`, or `|s|` when there is none. */
  function FirstNewline(s: string, from: nat): (r: nat)
    requires from <= |s|
    ensures from <= r <= |s|
    ensures r < |s| ==> s[r] == '\n'
    ensures forall k :: from <= k < r ==> s[k] != '\n'
    decreases |s| - from
  {
    if from == |s| || s[from] == '\n' then from else FirstNewline(s, from + 1)
  }

  /** One trailing `'\r'` dropped. */
  function StripCr(line: string): string
  {
    if line != [] && line[|line| - 1] == '\r' then line[..|line| - 1] else line
  }

  /**
   * `str::lines`: the pieces between `'\n'`s, without a last empty piece
   * after a final `'\n'`, each with one trailing `'\r'` dropped.
   */
  function SplitLines(s: string): (r: seq<string>)
    ensures forall k :: 0 <= k < |r| ==> '\n' !in r[k]
    decreases |s|
  {
    if s == "" then []
    else
      var i := FirstNewline(s, 0);
      assert '\n' !in s[..i] by {
        assert forall k :: 0 <= k < i ==> s[..i][k] == s[k];
      }
      [StripCr(s[..i])] + SplitLines(if i < |s| then s[i + 1..] else "")
  }

  /**
   * Without `'\r'`, `str::lines` loses nothing but a final newline: writing
   * each line back with its newline gives `s`, or `s` plus one newline when
   * `s` did not end with one.
   */
  lemma {:induction false} SplitLinesRoundTrip(s: string)
    requires '\r' !in s
    ensures TextOf(SplitLines(s)) == if s == "" || s[|s| - 1] == '\n' then s else s + "\n"
    decreases |s|
  {
    if s != "" {
      var i := FirstNewline(s, 0);
      var line := s[..i];
      assert StripCr(line) == line by {
        if line != [] {
          assert line[|line| - 1] == s[i - 1];
        }
      }
      if i < |s| {
        var rest := s[i + 1..];
        assert '\r' !in rest by {
          assert forall k :: 0 <= k < |rest| ==> rest[k] == s[i + 1 + k];
        }
        assert SplitLines(s) == [line] + SplitLines(rest);
        assert TextOf(SplitLines(s)) == line + "\n" + TextOf(SplitLines(rest)) by {
          assert ([line] + SplitLines(rest))[1..] == SplitLines(rest);
        }
        SplitLinesRoundTrip(rest);
        SplitAtNewline(s, i);
        if rest != "" {
          assert s[|s| - 1] == rest[|rest| - 1];
          if rest[|rest| - 1] != '\n' {
            StringAssoc(line + "\n", rest, "\n");
          }
        }
      } else {
        assert line == s;
        assert SplitLines(s) == [s] + SplitLines("");
        assert TextOf(SplitLines(s)) == s + "\n" by {
          assert ([s] + SplitLines(""))[1..] == [];
        }
      }
    }
  }

  lemma SplitAtNewline(s: string, i: nat)
    requires i < |s| && s[i] == '\n'
    ensures s == s[..i] + "\n" + s[i + 1..]
  {
    assert s[..i] + s[i..] == s;
    assert s[i..] == "\n" + s[i + 1..];
  }

  /** Two lines separated by `"\r\n"` and ended by `"\n"`: the `'\r'` goes, no empty last line. */
  lemma ExampleSplitLines()
    ensures SplitLines("a\r\nb\n") == ["a", "b"]
    ensures SplitLines("\n") == [""]
  {
    var s := "a\r\nb\n";
    assert FirstNewline(s, 2) == 2;
    assert FirstNewline(s, 0) == 2;
    assert StripCr(s[..2]) == "a";
    assert s[3..] == "b\n";
    assert FirstNewline("b\n", 1) == 1;
    assert FirstNewline("b\n", 0) == 1;
    assert StripCr(("b\n")[..1]) == "b";
    assert ("b\n")[2..] == "";
    assert SplitLines("b\n") == ["b"];
    assert FirstNewline("\n", 0) == 0;
    assert ("\n")[1..] == "";
  }

  // ------------------------------------------- `all_documentation`

  /** A `SourceCodeInfo.Location`: its path and its leading comment (`""` when it has none). */
  datatype Location = Location(path: seq<int>, leadingComments: string)

  /** A `SourceCodeInfo`: its locations in file order. */
  datatype SourceCodeInfo = SourceCodeInfo(location: seq<Location>)

  /** `iter().find(|l| l.path == path)`: the index of the first location whose path is `path`. */
  function FindLocation(locations: seq<Location>, path: seq<int>, from: nat): (r: Option<nat>)
    requires from <= |locations|
    ensures r.Some? ==> from <= r.value < |locations| && locations[r.value].path == path
    ensures r.Some? ==> forall k :: from <= k < r.value ==> locations[k].path != path
    ensures r.None? <==> forall k :: from <= k < |locations| ==> locations[k].path != path
    decreases |locations| - from
  {
    if from == |locations| then None
    else if locations[from].path == path then Some(from)
    else FindLocation(locations, path, from + 1)
  }

  /** The leading comment of the first location for `path`, when there is `info` and such a location. */
  function LeadingComment(info: Option<SourceCodeInfo>, path: seq<int>): Option<string>
  {
    match info
    case None => None
    case Some(i) =>
      match FindLocation(i.location, path, 0)
      case None => None
      case Some(k) => Some(i.location[k].leadingComments)
  }

  /** The comment's lines, or none without a comment. */
  function CommentLines(info: Option<SourceCodeInfo>, path: seq<int>): seq<string>
  {
    match LeadingComment(info, path)
    case None => []
    case Some(c) => SplitLines(c)
  }

  /** Some line starts with four spaces: a code block that rustdoc would try to compile. */
  predicate HasCodeBlock(lines: seq<string>)
  {
    exists k :: 0 <= k < |lines| && INDENT_STEP <= lines[k]
  }

  /** One `documentation` call per line. */
  function DocumentationCmds(lines: seq<string>): (r: seq<Cmd>)
  {
    seq(|lines|, k requires 0 <= k < |lines| => Line(DocumentationLine(lines[k])))
  }

  /** What `all_documentation(info, path)` does. */
  function AllDocumentationCmds(info: Option<SourceCodeInfo>, path: seq<int>): seq<Cmd>
  {
    var lines := CommentLines(info, path);
    if HasCodeBlock(lines) then [] else DocumentationCmds(lines)
  }

  /** Without `info`, nothing is written. */
  lemma DocumentationWithoutInfo(path: seq<int>)
    ensures AllDocumentationCmds(None, path) == []
  {
  }

  /** When no location's path equals `path`, nothing is written. */
  lemma DocumentationWithoutLocation(info: SourceCodeInfo, path: seq<int>)
    requires forall k :: 0 <= k < |info.location| ==> info.location[k].path != path
    ensures AllDocumentationCmds(Some(info), path) == []
  {
  }

  /** A comment with a line starting with four spaces is skipped whole. */
  lemma DocumentationSkipsCodeBlocks(info: SourceCodeInfo, path: seq<int>, k: nat, j: nat)
    requires k < |info.location| && info.location[k].path == path
    requires forall i :: 0 <= i < k ==> info.location[i].path != path
    requires j < |SplitLines(info.location[k].leadingComments)|
    requires INDENT_STEP <= SplitLines(info.location[k].leadingComments)[j]
    ensures AllDocumentationCmds(Some(info), path) == []
  {
    assert FindLocation(info.location, path, 0) == Some(k);
  }

  /**
   * Otherwise the first location for `path` decides: one `///` line per line
   * of its leading comment, in order, at the writer's indent.
   */
  lemma DocumentationOfFirstMatch(info: SourceCodeInfo, path: seq<int>, k: nat, indent: string)
    requires k < |info.location| && info.location[k].path == path
    requires forall i :: 0 <= i < k ==> info.location[i].path != path
    requires !HasCodeBlock(SplitLines(info.location[k].leadingComments))
    ensures var lines := SplitLines(info.location[k].leadingComments);
            var r := Render(AllDocumentationCmds(Some(info), path), indent);
            |r| == |lines| && forall j :: 0 <= j < |lines| ==> r[j] == indent + DocumentationLine(lines[j])
  {
    assert FindLocation(info.location, path, 0) == Some(k);
    RenderDocumentation(SplitLines(info.location[k].leadingComments), indent);
  }

  lemma {:induction false} RenderDocumentation(lines: seq<string>, indent: string)
    ensures |Render(DocumentationCmds(lines), indent)| == |lines|
    ensures forall j :: 0 <= j < |lines| ==> Render(DocumentationCmds(lines), indent)[j] == indent + DocumentationLine(lines[j])
  {
    if lines != [] {
      RenderDocumentation(lines[1..], indent);
      assert DocumentationCmds(lines) == [Line(DocumentationLine(lines[0]))] + DocumentationCmds(lines[1..]);
    }
  }

  // ------------------------------------------------------ the writer

  /**
   * The common header adds eighteen lines after what was there, the first
   * the `@generated` marker, and every non-blank one at the writer's indent.
   */
  lemma GeneratedCommonShape(before: seq<string>, indent: string)
    ensures var r := WithGeneratedCommon(before, indent);
            && |r| == |before| + 18 && r[..|before|] == before
            && r[|before|] == indent + "// @generated"
            && forall k :: |before| <= k < |r| ==> r[k] == "" || indent <= r[k]
  {
  }

  /** `Visibility` of a field declaration. */
  datatype Visibility = Public | Default

  /** The `std::io::Write` the writers share: the lines written so far. */
  class Sink {
    var lines: seq<string>

    constructor ()
      ensures lines == []
    {
      lines := [];
    }

    /** `write_all` of one line and its newline. */
    method WriteAll(line: string)
      modifies this
      ensures lines == old(lines) + [line]
    {
      lines := lines + [line];
    }

    /** The bytes written so far. */
    function Text(): string
      reads this
    {
      TextOf(lines)
    }
  }

  /**
   * `before`, then the lines `write_generated_common` writes at `indent`: the
   * `@generated` marker, the clippy link and the crate-level `allow`s.
   */
  function WithGeneratedCommon(before: seq<string>, indent: string): seq<string>
  {
    before
    + [LineAt(indent, "// @generated")]
    + [LineAt(indent, "")]
    + [LineAt(indent, CommentLine("https://github.com/Manishearth/rust-clippy/issues/702"))]
    + [LineAt(indent, "#![allow(unknown_lints)]")]
    + [LineAt(indent, "#![allow(clippy)]")]
    + [LineAt(indent, "#![allow(clippy::all)]")]
    + [LineAt(indent, "")]
    + [LineAt(indent, "#![cfg_attr(rustfmt, rustfmt_skip)]")]
    + [LineAt(indent, "")]
    + [LineAt(indent, "#![allow(box_pointers)]")]
    + [LineAt(indent, "#![allow(dead_code)]")]
    + [LineAt(indent, "#![allow(missing_docs)]")]
    + [LineAt(indent, "#![allow(non_camel_case_types)]")]
    + [LineAt(indent, "#![allow(non_snake_case)]")]
    + [LineAt(indent, "#![allow(non_upper_case_globals)]")]
    + [LineAt(indent, "#![allow(trivial_casts)]")]
    + [LineAt(indent, "#![allow(unused_imports)]")]
    + [LineAt(indent, "#![allow(unused_results)]")]
  }

  class CodeWriter {
    const sink: Sink
    const indent: string

    /** `CodeWriter::new`: the empty indent. */
    constructor (sink: Sink)
      ensures this.sink == sink && indent == ""
    {
      this.sink := sink;
      indent := "";
    }

    /** The writer `indented` and `commented` hand to their callback. */
    constructor Child(sink: Sink, indent: string)
      ensures this.sink == sink && this.indent == indent
    {
      this.sink := sink;
      this.indent := indent;
    }

    /** `write_line`: a blank line bare, any other line after the indent. */
    method WriteLine(line: string)
      modifies sink
      ensures sink.lines == old(sink.lines) + [LineAt(indent, line)]
    {
      if line == "" {
        sink.WriteAll("");
      } else {
        sink.WriteAll(indent + line);
      }
    }

    /** Runs a callback against this writer. */
    method Apply(cmds: seq<Cmd>)
      modifies sink
      ensures sink.lines == old(sink.lines) + Render(cmds, indent)
      decreases cmds, 0
    {
      for k := 0 to |cmds|
        invariant sink.lines == old(sink.lines) + Render(cmds[..k], indent)
      {
        ApplyOne(cmds[k]);
        assert cmds[..k + 1] == cmds[..k] + [cmds[k]];
        RenderAppend(cmds[..k], [cmds[k]], indent);
        assert Render([cmds[k]], indent) == RenderOne(cmds[k], indent) by {
          assert [cmds[k]][1..] == [];
        }
      }
      assert cmds[..|cmds|] == cmds;
    }

    method ApplyOne(c: Cmd)
      modifies sink
      ensures sink.lines == old(sink.lines) + RenderOne(c, indent)
      decreases c, 0
    {
      match c
      case Line(text) => WriteLine(text);
      case Indented(body) => Indented(body);
      case Commented(body) => Commented(body);
      case Block(first, last, body) => Block(first, last, body);
    }

    /** `indented`: the callback at this indent plus four spaces; this writer's indent is untouched. */
    method Indented(cb: seq<Cmd>)
      modifies sink
      ensures sink.lines == old(sink.lines) + Render(cb, indent + INDENT_STEP)
      decreases cb, 1
    {
      var child := new CodeWriter.Child(sink, indent + INDENT_STEP);
      child.Apply(cb);
    }

    /** `commented`: the callback with `"// "` in front of this writer's indent. */
    method Commented(cb: seq<Cmd>)
      modifies sink
      ensures sink.lines == old(sink.lines) + Render(cb, COMMENT_PREFIX + indent)
      decreases cb, 1
    {
      var child := new CodeWriter.Child(sink, COMMENT_PREFIX + indent);
      child.Apply(cb);
    }

    /** `block`: `first` here, the callback one level deeper, `last` here. */
    method Block(first: string, last: string, cb: seq<Cmd>)
      modifies sink
      ensures sink.lines == old(sink.lines) + [LineAt(indent, first)] + Render(cb, indent + INDENT_STEP) + [LineAt(indent, last)]
      decreases cb, 2
    {
      WriteLine(first);
      Indented(cb);
      WriteLine(last);
    }

    /** `expr_block`: `prefix {` ... `}`. */
    method ExprBlock(prefix: string, cb: seq<Cmd>)
      modifies sink
      ensures sink.lines == old(sink.lines) + [LineAt(indent, prefix + " {")] + Render(cb, indent + INDENT_STEP) + [LineAt(indent, "}")]
    {
      Block(prefix + " {", "}", cb);
    }

    /** `stmt_block`: `prefix {` ... `};`. */
    method StmtBlock(prefix: string, cb: seq<Cmd>)
      modifies sink
      ensures sink.lines == old(sink.lines) + [LineAt(indent, prefix + " {")] + Render(cb, indent + INDENT_STEP) + [LineAt(indent, "};")]
    {
      Block(prefix + " {", "};", cb);
    }

    /** `case_block`: `cond => {` ... `},`. */
    method CaseBlock(cond: string, cb: seq<Cmd>)
      modifies sink
      ensures sink.lines == old(sink.lines) + [LineAt(indent, cond + " => {")] + Render(cb, indent + INDENT_STEP) + [LineAt(indent, "},")]
    {
      Block(cond + " => {", "},", cb);
    }

    /** `case_expr`: `cond => body,` on one line. */
    method CaseExpr(cond: string, body: string)
      modifies sink
      ensures sink.lines == old(sink.lines) + [LineAt(indent, cond + " => " + body + ",")]
    {
      WriteLine(cond + " => " + body + ",");
    }

    /** `if_else_stmt`: `if cond {` and `} else {` here, the callback deeper, `}` here. */
    method IfElseStmt(cond: string, cb: seq<Cmd>)
      modifies sink
      ensures sink.lines == old(sink.lines) + [LineAt(indent, "if " + cond + " {"), LineAt(indent, "} else {")]
                            + Render(cb, indent + INDENT_STEP) + [LineAt(indent, "}")]
    {
      WriteLine("if " + cond + " {");
      WriteLine("} else {");
      Indented(cb);
      WriteLine("}");
    }

    /** `impl_args_for_block`: `impl<args> tr for ty {` ... `}`, with no `<>` when there are no args. */
    method ImplArgsForBlock(args: seq<string>, tr: string, ty: string, cb: seq<Cmd>)
      modifies sink
      ensures sink.lines == old(sink.lines) + [LineAt(indent, "impl" + ImplArgs(args) + " " + tr + " for " + ty + " {")]
                            + Render(cb, indent + INDENT_STEP) + [LineAt(indent, "}")]
    {
      var argsStr := if args == [] then "" else "<" + Join(args, ", ") + ">";
      ExprBlock("impl" + argsStr + " " + tr + " for " + ty, cb);
    }

    /** `impl_for_block`: `impl_args_for_block` without arguments. */
    method ImplForBlock(tr: string, ty: string, cb: seq<Cmd>)
      modifies sink
      ensures sink.lines == old(sink.lines) + [LineAt(indent, "impl " + tr + " for " + ty + " {")]
                            + Render(cb, indent + INDENT_STEP) + [LineAt(indent, "}")]
    {
      ImplWithoutArgs(tr, ty);
      ImplArgsForBlock([], tr, ty, cb);
    }

    /** `impl_self_block`: `impl name {` ... `}`. */
    method ImplSelfBlock(name: string, cb: seq<Cmd>)
      modifies sink
      ensures sink.lines == old(sink.lines) + [LineAt(indent, "impl " + name + " {")] + Render(cb, indent + INDENT_STEP) + [LineAt(indent, "}")]
    {
      ExprBlock("impl " + name, cb);
    }

    /** `unsafe_expr`: `unsafe {` ... `}`. */
    method UnsafeExpr(cb: seq<Cmd>)
      modifies sink
      ensures sink.lines == old(sink.lines) + [LineAt(indent, "unsafe {")] + Render(cb, indent + INDENT_STEP) + [LineAt(indent, "}")]
    {
      assert "unsafe" + " {" == "unsafe {";
      ExprBlock("unsafe", cb);
    }

    /** `unsafe_impl`: `unsafe impl what for forWhat {}` on one line. */
    method UnsafeImpl(what: string, forWhat: string)
      modifies sink
      ensures sink.lines == old(sink.lines) + [LineAt(indent, "unsafe impl " + what + " for " + forWhat + " {}")]
    {
      WriteLine("unsafe impl " + what + " for " + forWhat + " {}");
    }

    /** `pub_struct`: `pub struct name {` ... `}`. */
    method PubStruct(name: string, cb: seq<Cmd>)
      modifies sink
      ensures sink.lines == old(sink.lines) + [LineAt(indent, "pub struct " + name + " {")] + Render(cb, indent + INDENT_STEP) + [LineAt(indent, "}")]
    {
      ExprBlock("pub struct " + name, cb);
    }

    /** `def_struct`: `struct name {` ... `}`. */
    method DefStruct(name: string, cb: seq<Cmd>)
      modifies sink
      ensures sink.lines == old(sink.lines) + [LineAt(indent, "struct " + name + " {")] + Render(cb, indent + INDENT_STEP) + [LineAt(indent, "}")]
    {
      ExprBlock("struct " + name, cb);
    }

    /** `pub_enum`: `pub enum name {` ... `}`. */
    method PubEnum(name: string, cb: seq<Cmd>)
      modifies sink
      ensures sink.lines == old(sink.lines) + [LineAt(indent, "pub enum " + name + " {")] + Render(cb, indent + INDENT_STEP) + [LineAt(indent, "}")]
    {
      ExprBlock("pub enum " + name, cb);
    }

    /** `pub_trait`: `pub trait name {` ... `}`. */
    method PubTrait(name: string, cb: seq<Cmd>)
      modifies sink
      ensures sink.lines == old(sink.lines) + [LineAt(indent, "pub trait " + name + " {")] + Render(cb, indent + INDENT_STEP) + [LineAt(indent, "}")]
    {
      ExprBlock("pub trait " + name, cb);
    }

    /** `pub_trait_extend`: `pub trait name : extend {` ... `}`. */
    method PubTraitExtend(name: string, extend: string, cb: seq<Cmd>)
      modifies sink
      ensures sink.lines == old(sink.lines) + [LineAt(indent, "pub trait " + name + " : " + extend + " {")]
                            + Render(cb, indent + INDENT_STEP) + [LineAt(indent, "}")]
    {
      ExprBlock("pub trait " + name + " : " + extend, cb);
    }

    /** `fn_block`: `pub fn sig {` or `fn sig {` ... `}`. */
    method FnBlock(public: bool, sig: string, cb: seq<Cmd>)
      modifies sink
      ensures sink.lines == old(sink.lines) + [LineAt(indent, (if public then "pub fn " else "fn ") + sig + " {")]
                            + Render(cb, indent + INDENT_STEP) + [LineAt(indent, "}")]
    {
      if public {
        ExprBlock("pub fn " + sig, cb);
      } else {
        ExprBlock("fn " + sig, cb);
      }
    }

    /** `pub_fn`: `fn_block` with `public`. */
    method PubFn(sig: string, cb: seq<Cmd>)
      modifies sink
      ensures sink.lines == old(sink.lines) + [LineAt(indent, "pub fn " + sig + " {")] + Render(cb, indent + INDENT_STEP) + [LineAt(indent, "}")]
    {
      FnBlock(true, sig, cb);
    }

    /** `def_fn`: `fn_block` without `public`. */
    method DefFn(sig: string, cb: seq<Cmd>)
      modifies sink
      ensures sink.lines == old(sink.lines) + [LineAt(indent, "fn " + sig + " {")] + Render(cb, indent + INDENT_STEP) + [LineAt(indent, "}")]
    {
      FnBlock(false, sig, cb);
    }

    /** `fn_def`: the declaration `fn sig;`. */
    method FnDef(sig: string)
      modifies sink
      ensures sink.lines == old(sink.lines) + [LineAt(indent, "fn " + sig + ";")]
    {
      WriteLine("fn " + sig + ";");
    }

    /** `def_mod`: `mod name {` ... `}`. */
    method DefMod(name: string, cb: seq<Cmd>)
      modifies sink
      ensures sink.lines == old(sink.lines) + [LineAt(indent, "mod " + name + " {")] + Render(cb, indent + INDENT_STEP) + [LineAt(indent, "}")]
    {
      ExprBlock("mod " + name, cb);
    }

    /** `pub_mod`: `pub mod name {` ... `}`. */
    method PubMod(name: string, cb: seq<Cmd>)
      modifies sink
      ensures sink.lines == old(sink.lines) + [LineAt(indent, "pub mod " + name + " {")] + Render(cb, indent + INDENT_STEP) + [LineAt(indent, "}")]
    {
      ExprBlock("pub mod " + name, cb);
    }

    /** `while_block`: `while cond {` ... `}`. */
    method WhileBlock(cond: string, cb: seq<Cmd>)
      modifies sink
      ensures sink.lines == old(sink.lines) + [LineAt(indent, "while " + cond + " {")] + Render(cb, indent + INDENT_STEP) + [LineAt(indent, "}")]
    {
      ExprBlock("while " + cond, cb);
    }

    /** `if_stmt`: `if cond {` ... `}`. */
    method IfStmt(cond: string, cb: seq<Cmd>)
      modifies sink
      ensures sink.lines == old(sink.lines) + [LineAt(indent, "if " + cond + " {")] + Render(cb, indent + INDENT_STEP) + [LineAt(indent, "}")]
    {
      ExprBlock("if " + cond, cb);
    }

    /** `if_let_stmt`: `if let decl = expr {` ... `}`. */
    method IfLetStmt(decl: string, expr: string, cb: seq<Cmd>)
      modifies sink
      ensures sink.lines == old(sink.lines) + [LineAt(indent, "if let " + decl + " = " + expr + " {")]
                            + Render(cb, indent + INDENT_STEP) + [LineAt(indent, "}")]
    {
      IfLetCondition(decl, expr);
      IfStmt("let " + decl + " = " + expr, cb);
    }

    /** `if_let_else_stmt`: `if let decl = expr {` and `} else {`, the callback, `}`. */
    method IfLetElseStmt(decl: string, expr: string, cb: seq<Cmd>)
      modifies sink
      ensures sink.lines == old(sink.lines) + [LineAt(indent, "if let " + decl + " = " + expr + " {"), LineAt(indent, "} else {")]
                            + Render(cb, indent + INDENT_STEP) + [LineAt(indent, "}")]
    {
      IfLetCondition(decl, expr);
      IfElseStmt("let " + decl + " = " + expr, cb);
    }

    /** `for_stmt`: `for varn in over {` ... `};` (a statement block). */
    method ForStmt(over: string, varn: string, cb: seq<Cmd>)
      modifies sink
      ensures sink.lines == old(sink.lines) + [LineAt(indent, "for " + varn + " in " + over + " {")]
                            + Render(cb, indent + INDENT_STEP) + [LineAt(indent, "};")]
    {
      StmtBlock("for " + varn + " in " + over, cb);
    }

    /** `match_block`: `match value {` ... `};`. */
    method MatchBlock(value: string, cb: seq<Cmd>)
      modifies sink
      ensures sink.lines == old(sink.lines) + [LineAt(indent, "match " + value + " {")] + Render(cb, indent + INDENT_STEP) + [LineAt(indent, "};")]
    {
      StmtBlock("match " + value, cb);
    }

    /** `match_expr`: `match value {` ... `}`. */
    method MatchExpr(value: string, cb: seq<Cmd>)
      modifies sink
      ensures sink.lines == old(sink.lines) + [LineAt(indent, "match " + value + " {")] + Render(cb, indent + INDENT_STEP) + [LineAt(indent, "}")]
    {
      ExprBlock("match " + value, cb);
    }

    /** `pub_const`: `pub const name: ty = init;`. */
    method PubConst(name: string, fieldType: string, init: string)
      modifies sink
      ensures sink.lines == old(sink.lines) + [LineAt(indent, "pub const " + name + ": " + fieldType + " = " + init + ";")]
    {
      WriteLine("pub const " + name + ": " + fieldType + " = " + init + ";");
    }

    /** `lazy_static`: the declaration of a lazily initialised static of type `ty`. */
    method LazyStatic(name: string, ty: string, crate: string)
      modifies sink
      ensures sink.lines == old(sink.lines)
                            + [LineAt(indent, "static " + name + ": " + crate + "::rt::Lazy<" + ty + "> = " + crate + "::rt::Lazy::INIT;")]
    {
      WriteLine("static " + name + ": " + crate + "::rt::Lazy<" + ty + "> = " + crate + "::rt::Lazy::INIT;");
    }

    /** `lazy_static_decl_get`: the declaration, then `name.get(|| {`, the initialiser deeper, `})`. */
    method LazyStaticDeclGet(name: string, ty: string, crate: string, init: seq<Cmd>)
      modifies sink
      ensures sink.lines == old(sink.lines)
                            + [LineAt(indent, "static " + name + ": " + crate + "::rt::Lazy<" + ty + "> = " + crate + "::rt::Lazy::INIT;"),
                               LineAt(indent, name + ".get(|| {")]
                            + Render(init, indent + INDENT_STEP) + [LineAt(indent, "})")]
    {
      LazyStatic(name, ty, crate);
      WriteLine(name + ".get(|| {");
      Indented(init);
      WriteLine("})");
    }

    /** `lazy_static_decl_get_simple`: the declaration, then `name.get(init)`. */
    method LazyStaticDeclGetSimple(name: string, ty: string, init: string, crate: string)
      modifies sink
      ensures sink.lines == old(sink.lines)
                            + [LineAt(indent, "static " + name + ": " + crate + "::rt::Lazy<" + ty + "> = " + crate + "::rt::Lazy::INIT;"),
                               LineAt(indent, name + ".get(" + init + ")")]
    {
      LazyStatic(name, ty, crate);
      WriteLine(name + ".get(" + init + ")");
    }

    /** `field_entry`: `name: value,`. */
    method FieldEntry(name: string, value: string)
      modifies sink
      ensures sink.lines == old(sink.lines) + [LineAt(indent, name + ": " + value + ",")]
    {
      WriteLine(name + ": " + value + ",");
    }

    /** `field_decl`: `name: ty,`. */
    method FieldDecl(name: string, fieldType: string)
      modifies sink
      ensures sink.lines == old(sink.lines) + [LineAt(indent, name + ": " + fieldType + ",")]
    {
      WriteLine(name + ": " + fieldType + ",");
    }

    /** `pub_field_decl`: `pub name: ty,`. */
    method PubFieldDecl(name: string, fieldType: string)
      modifies sink
      ensures sink.lines == old(sink.lines) + [LineAt(indent, "pub " + name + ": " + fieldType + ",")]
    {
      WriteLine("pub " + name + ": " + fieldType + ",");
    }

    /** `field_decl_vis`: `pub_field_decl` for `Public`, `field_decl` for `Default`. */
    method FieldDeclVis(vis: Visibility, name: string, fieldType: string)
      modifies sink
      ensures sink.lines == old(sink.lines) + [LineAt(indent, (if vis == Public then "pub " else "") + name + ": " + fieldType + ",")]
    {
      match vis
      case Public => PubFieldDecl(name, fieldType);
      case Default =>
        assert "" + name == name;
        FieldDecl(name, fieldType);
    }

    /** `derive`: `#[derive(A,B)]`, the names joined by a bare comma. */
    method Derive(derive: seq<string>)
      modifies sink
      ensures sink.lines == old(sink.lines) + [LineAt(indent, "#[derive(" + Join(derive, ",") + ")]")]
    {
      WriteLine("#[derive(" + Join(derive, ",") + ")]");
    }

    /** `allow`: `#[allow(a,b)]`, the lints joined by a bare comma. */
    method Allow(what: seq<string>)
      modifies sink
      ensures sink.lines == old(sink.lines) + [LineAt(indent, "#[allow(" + Join(what, ",") + ")]")]
    {
      WriteLine("#[allow(" + Join(what, ",") + ")]");
    }

    /** `comment`: `//` alone for an empty comment, otherwise `// ` and the comment. */
    method Comment(comment: string)
      modifies sink
      ensures sink.lines == old(sink.lines) + [indent + CommentLine(comment)]
    {
      if comment == "" {
        WriteLine("//");
      } else {
        WriteLine("// " + comment);
      }
    }

    /** `documentation`: `///` alone for an empty line, otherwise `/// ` and the line. */
    method Documentation(comment: string)
      modifies sink
      ensures sink.lines == old(sink.lines) + [indent + DocumentationLine(comment)]
    {
      if comment == "" {
        WriteLine("///");
      } else {
        WriteLine("/// " + comment);
      }
    }

    /**
     * `all_documentation`: the leading comment of the first location whose
     * path is `path`, line by line through `documentation`, unless a line of
     * it starts with four spaces.
     */
    method AllDocumentation(info: Option<SourceCodeInfo>, path: seq<int>)
      modifies sink
      ensures sink.lines == old(sink.lines) + Render(AllDocumentationCmds(info, path), indent)
    {
      var doc: Option<string> := None;
      if info.Some? {
        var found := FindLocation(info.value.location, path, 0);
        if found.Some? {
          doc := Some(info.value.location[found.value].leadingComments);
        }
      }
      var lines := if doc.Some? then SplitLines(doc.value) else [];
      assert lines == CommentLines(info, path);
      if !HasCodeBlock(lines) {
        for i := 0 to |lines|
          invariant sink.lines == old(sink.lines) + Render(DocumentationCmds(lines[..i]), indent)
        {
          Documentation(lines[i]);
          assert DocumentationCmds(lines[..i + 1]) == DocumentationCmds(lines[..i]) + [Line(DocumentationLine(lines[i]))];
          RenderAppend(DocumentationCmds(lines[..i]), [Line(DocumentationLine(lines[i]))], indent);
          assert Render([Line(DocumentationLine(lines[i]))], indent) == [indent + DocumentationLine(lines[i])];
        }
        assert lines[..|lines|] == lines;
      }
    }

    /** `todo`: a `panic!` line carrying the message. */
    method Todo(message: string)
      modifies sink
      ensures sink.lines == old(sink.lines) + [LineAt(indent, "panic!(\"TODO: " + message + "\");")]
    {
      WriteLine("panic!(\"TODO: " + message + "\");");
    }

    /** `unimplemented`: the line `unimplemented!();`. */
    method Unimplemented()
      modifies sink
      ensures sink.lines == old(sink.lines) + [LineAt(indent, "unimplemented!();")]
    {
      WriteLine("unimplemented!();");
    }

    /** `write_generated_common`: the `@generated` marker, the clippy link and the crate-level `allow`s. */
    method WriteGeneratedCommon()
      modifies sink
      ensures sink.lines == WithGeneratedCommon(old(sink.lines), indent)
    {
      WriteLine("// @generated");
      WriteLine("");
      Comment("https://github.com/Manishearth/rust-clippy/issues/702");
      WriteLine("#![allow(unknown_lints)]");
      WriteLine("#![allow(clippy)]");
      WriteLine("#![allow(clippy::all)]");
      WriteLine("");
      WriteLine("#![cfg_attr(rustfmt, rustfmt_skip)]");
      WriteLine("");
      WriteLine("#![allow(box_pointers)]");
      WriteLine("#![allow(dead_code)]");
      WriteLine("#![allow(missing_docs)]");
      WriteLine("#![allow(non_camel_case_types)]");
      WriteLine("#![allow(non_snake_case)]");
      WriteLine("#![allow(non_upper_case_globals)]");
      WriteLine("#![allow(trivial_casts)]");
      WriteLine("#![allow(unused_imports)]");
      WriteLine("#![allow(unused_results)]");
    }

    /** `write_generated`: the "do not edit" line, then the common header. */
    method WriteGenerated()
      modifies sink
      ensures sink.lines == WithGeneratedCommon(old(sink.lines) + [LineAt(indent, "// This file is generated. Do not edit")], indent)
    {
      WriteLine("// This file is generated. Do not edit");
      WriteGeneratedCommon();
    }

    /** `write_generated_by`: the generator and its version, the parser, then the common header. */
    method WriteGeneratedBy(pkg: string, version: string, parser: string)
      modifies sink
      ensures sink.lines == WithGeneratedCommon(old(sink.lines)
                                                + [LineAt(indent, "// This file is generated by " + pkg + " " + version + ". Do not edit")]
                                                + [LineAt(indent, "// .proto file is parsed by " + parser)], indent)
    {
      WriteLine("// This file is generated by " + pkg + " " + version + ". Do not edit");
      WriteLine("// .proto file is parsed by " + parser);
      WriteGeneratedCommon();
    }
  }
}
