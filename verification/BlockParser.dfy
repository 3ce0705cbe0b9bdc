/** `CollapsibleCodeBlock.parse_collapsible_content` of docs/_extensions/collapsible_code_block.py. */
module BlockParser {
  import opened Outcomes
  import opened Text

  datatype Settings = Settings(indent: nat, open: bool)

  /** `header` holds the lines a block took for itself, which the program does not keep. The
      content's base indent is always the directive's plus two. */
  datatype Item =
    | Line(text: string)
    | Block(header: seq<string>, labelText: string, settings: Settings, directiveIndent: nat, content: seq<Item>)

  // ---------- single lines ----------

  predicate IsSpace(c: char) {
    c == ' ' || c == '\t' || c == '\r' || c == '\n'
  }

  function SkipSpace(s: string): (r: string)
    ensures |r| <= |s|
  {
    if s != [] && IsSpace(s[0]) then SkipSpace(s[1..]) else s
  }

  function DropSpace(s: string): string {
    if s != [] && IsSpace(s[|s| - 1]) then DropSpace(s[..|s| - 1]) else s
  }

  function Strip(s: string): string {
    DropSpace(SkipSpace(s))
  }

  /** `not line.strip()`. */
  predicate Blank(line: string) {
    SkipSpace(line) == []
  }

  function IndentOf(line: string): nat {
    |line| - |SkipSpace(line)|
  }

  datatype Mark = Mark(indent: nat, labelText: string)

  /** The indent and label of a line of the form `.. collapsible:: label`. */
  function Directive(line: string): (d: Option<Mark>) {
    var marker := SkipSpace(line);
    if !(".." <= marker) then None
    else
      var name := SkipSpace(marker[2..]);
      if |name| < |marker[2..]| && "collapsible::" <= name then Some(Mark(IndentOf(line), Strip(name[|"collapsible::"|..])))
      else None
  }

  function LeadingDigits(s: string): (d: string)
    ensures AllDigits(d)
  {
    if s != [] && '0' <= s[0] <= '9' then [s[0]] + LeadingDigits(s[1..]) else []
  }

  /** A stripped option line; one that is not understood changes nothing. */
  function WithOption(settings: Settings, option: string): Settings {
    if option == ":open:" then settings.(open := true)
    else if ":indent:" <= option then
      var digits := LeadingDigits(SkipSpace(option[|":indent:"|..]));
      if digits == [] then settings else settings.(indent := Number(digits))
    else settings
  }

  /** Lines that the directive takes as its own: blank ones and options. */
  predicate BelongsToHeader(line: string) {
    Blank(line) || (Strip(line) != [] && Strip(line)[0] == ':')
  }

  function SettingsOf(lines: seq<string>): Settings {
    if lines == [] then Settings(0, false)
    else
      var before := SettingsOf(lines[..|lines| - 1]);
      var last := lines[|lines| - 1];
      if Blank(last) then before else WithOption(before, Strip(last))
  }

  function HeaderLength(lines: seq<string>): (n: nat)
    ensures n <= |lines|
  {
    if lines == [] || !BelongsToHeader(lines[0]) then 0 else 1 + HeaderLength(lines[1..])
  }

  // ---------- bodies ----------

  predicate Deeper(line: string, indent: nat) {
    !Blank(line) && IndentOf(line) > indent
  }

  /** The look-ahead past blank lines: does content go on? */
  predicate Continues(lines: seq<string>, indent: nat) {
    lines != [] && if Blank(lines[0]) then Continues(lines[1..], indent) else Deeper(lines[0], indent)
  }

  function BodyLength(lines: seq<string>, indent: nat): (n: nat)
    ensures n <= |lines|
  {
    if Continues(lines, indent) then 1 + BodyLength(lines[1..], indent) else 0
  }

  function BlockOf(mark: Mark, header: seq<string>, content: seq<Item>): Item
    requires header != []
  {
    Block(header, mark.labelText, SettingsOf(header[1..]), mark.indent, content)
  }

  // ---------- the parser as a function ----------

  datatype Pieces = Pieces(header: seq<string>, body: seq<string>, rest: seq<string>)

  /** The lines from a directive on: its header, its content and what follows. */
  function PiecesOf(lines: seq<string>, indent: nat): (p: Pieces)
    requires lines != []
    ensures p.header != [] && p.header[0] == lines[0] && lines == p.header + (p.body + p.rest)
    ensures |p.body| < |lines| && |p.rest| < |lines|
  {
    var h := 1 + HeaderLength(lines[1..]);
    var n := BodyLength(lines[h..], indent);
    Pieces(lines[..h], lines[h..h + n], lines[h + n..])
  }

  function Parsed(lines: seq<string>): seq<Item>
    decreases |lines|
  {
    if lines == [] then []
    else
      match Directive(lines[0])
      case None => [Line(lines[0])] + Parsed(lines[1..])
      case Some(mark) =>
        var p := PiecesOf(lines, mark.indent);
        [BlockOf(mark, p.header, Parsed(p.body))] + Parsed(p.rest)
  }

  lemma BlankAfterStrip(line: string)
    ensures Blank(line) <==> Strip(line) == []
  {
    var s := SkipSpace(line);
    SkippedStart(line);
    if s != [] { DropKeepsStart(s); }
  }

  lemma {:induction false} SkippedStart(s: string)
    ensures SkipSpace(s) == [] || !IsSpace(SkipSpace(s)[0])
  {
    if s != [] && IsSpace(s[0]) { SkippedStart(s[1..]); }
  }

  lemma {:induction false} DropKeepsStart(s: string)
    requires s != [] && !IsSpace(s[0])
    ensures DropSpace(s) != [] && DropSpace(s)[0] == s[0]
  {
    if IsSpace(s[|s| - 1]) { DropKeepsStart(s[..|s| - 1]); }
  }

  lemma {:induction false} ParsedLine(lines: seq<string>, i: nat)
    requires i < |lines| && Directive(lines[i]).None?
    ensures Parsed(lines[i..]) == [Line(lines[i])] + Parsed(lines[i + 1..])
  {
    assert lines[i..][1..] == lines[i + 1..];
  }

  lemma Concatenation(header: seq<string>, body: seq<string>, rest: seq<string>)
    requires header != []
    ensures
      var own, h, n := header + (body + rest), |header|, |body|;
      && own[1..] == header[1..] + (body + rest) && own[..h] == header
      && own[h..] == body + rest && own[h..h + n] == body && own[h + n..] == rest
  {
  }

  /** Pieces that fit together are the pieces of their concatenation. */
  lemma {:induction false} PiecesFit(header: seq<string>, body: seq<string>, rest: seq<string>, indent: nat)
    requires header != []
    requires |header| - 1 == HeaderLength(header[1..] + (body + rest))
    requires |body| == BodyLength(body + rest, indent)
    ensures PiecesOf(header + (body + rest), indent) == Pieces(header, body, rest)
  {
    Concatenation(header, body, rest);
  }

  lemma Slices(lines: seq<string>, start: nat, first: nat, next: nat)
    requires start < first <= next <= |lines|
    ensures
      var header, body, rest := lines[start..first], lines[first..next], lines[next..];
      lines[start..] == header + (body + rest) && lines[start + 1..] == header[1..] + (body + rest) && lines[first..] == body + rest
  {
  }

  /** The nested loops of the program. */
  method ParseCollapsibleContent(lines: seq<string>) returns (result: seq<Item>)
    ensures result == Parsed(lines)
    decreases |lines|
  {
    result := [];
    var i := 0;
    while i < |lines|
      invariant 0 <= i <= |lines|
      invariant result + Parsed(lines[i..]) == Parsed(lines)
    {
      match Directive(lines[i]) {
        case Some(mark) =>
          var settings, first := ReadOptions(lines, i + 1);
          var contentLines, next := ReadContent(lines, first, mark.indent);
          var content := ParseCollapsibleContent(contentLines);
          var block := Block(lines[i..first], mark.labelText, settings, mark.indent, content);
          assert lines[i..first][1..] == lines[i + 1..first];
          Slices(lines, i, first, next);
          PiecesFit(lines[i..first], contentLines, lines[next..], mark.indent);
          Regroup(result, [block], Parsed(lines[next..]));
          result, i := result + [block], next;
        case None =>
          ParsedLine(lines, i);
          Regroup(result, [Line(lines[i])], Parsed(lines[i + 1..]));
          result, i := result + [Line(lines[i])], i + 1;
      }
    }
  }

  method ReadOption(stripped: string, settings: Settings) returns (updated: Settings)
    ensures updated == WithOption(settings, stripped)
  {
    updated := settings;
    if stripped == ":open:" {
      updated := updated.(open := true);
    } else if ":indent:" <= stripped {
      var digits := LeadingDigits(SkipSpace(stripped[|":indent:"|..]));
      if digits != [] { updated := updated.(indent := Number(digits)); }
    }
  }

  lemma {:induction false} HeaderGoesOn(lines: seq<string>, start: nat, next: nat)
    requires start <= next < |lines|
    ensures
      HeaderLength(lines[next..]) == if BelongsToHeader(lines[next]) then 1 + HeaderLength(lines[next + 1..]) else 0
    ensures
      SettingsOf(lines[start..next + 1])
      == if Blank(lines[next]) then SettingsOf(lines[start..next]) else WithOption(SettingsOf(lines[start..next]), Strip(lines[next]))
  {
    assert lines[next..][1..] == lines[next + 1..];
    assert lines[start..next + 1][..next - start] == lines[start..next];
  }

  method ReadOptions(lines: seq<string>, start: nat) returns (settings: Settings, next: nat)
    requires start <= |lines|
    ensures next == start + HeaderLength(lines[start..]) && settings == SettingsOf(lines[start..next])
  {
    next, settings := start, Settings(0, false);
    while next < |lines|
      invariant start <= next <= |lines|
      invariant HeaderLength(lines[start..]) == next - start + HeaderLength(lines[next..])
      invariant settings == SettingsOf(lines[start..next])
    {
      var stripped := Strip(lines[next]);
      BlankAfterStrip(lines[next]);
      HeaderGoesOn(lines, start, next);
      if stripped == [] {
        next := next + 1;
        continue;
      }
      if stripped[0] == ':' {
        settings := ReadOption(stripped, settings);
        next := next + 1;
      } else {
        break;
      }
    }
  }

  method HasMoreContent(lines: seq<string>, start: nat, indent: nat) returns (more: bool)
    requires start <= |lines|
    ensures more <==> Continues(lines[start..], indent)
  {
    var j := start;
    while j < |lines|
      invariant start <= j <= |lines|
      invariant Continues(lines[start..], indent) == Continues(lines[j..], indent)
    {
      assert lines[j..][1..] == lines[j + 1..];
      if !Blank(lines[j]) {
        return IndentOf(lines[j]) > indent;
      }
      j := j + 1;
    }
    return false;
  }

  method ReadContent(lines: seq<string>, start: nat, indent: nat) returns (contentLines: seq<string>, next: nat)
    requires start <= |lines|
    ensures next == start + BodyLength(lines[start..], indent) && contentLines == lines[start..next]
  {
    contentLines, next := [], start;
    while next < |lines|
      invariant start <= next <= |lines| && contentLines == lines[start..next]
      invariant BodyLength(lines[start..], indent) == next - start + BodyLength(lines[next..], indent)
    {
      assert lines[next..][1..] == lines[next + 1..];
      if Blank(lines[next]) {
        var hasMoreContent := HasMoreContent(lines, next + 1, indent);
        if hasMoreContent {
          contentLines, next := contentLines + [lines[next]], next + 1;
          continue;
        } else {
          break;
        }
      }
      if IndentOf(lines[next]) > indent {
        contentLines, next := contentLines + [lines[next]], next + 1;
      } else {
        break;
      }
    }
  }

  // ---------- parsing loses nothing ----------

  function Flatten(items: seq<Item>): seq<string> {
    if items == [] then []
    else
      (match items[0]
       case Line(text) => [text]
       case Block(header, _, _, _, content) => header + Flatten(content)) + Flatten(items[1..])
  }

  lemma FlattenBlock(block: Item, tail: seq<Item>)
    requires block.Block?
    ensures Flatten([block] + tail) == block.header + (Flatten(block.content) + Flatten(tail))
  {
    assert ([block] + tail)[1..] == tail;
  }

  /** Every input line is in exactly one place of the result, in order. */
  lemma {:induction false} ParseIsLossless(lines: seq<string>)
    ensures Flatten(Parsed(lines)) == lines
    decreases |lines|
  {
    if lines != [] {
      match Directive(lines[0])
      case None =>
        ParseIsLossless(lines[1..]);
        assert Parsed(lines)[1..] == Parsed(lines[1..]);
      case Some(mark) =>
        var p := PiecesOf(lines, mark.indent);
        ParseIsLossless(p.body);
        ParseIsLossless(p.rest);
        FlattenBlock(BlockOf(mark, p.header, Parsed(p.body)), Parsed(p.rest));
    }
  }

  ghost predicate AllHeader(lines: seq<string>) {
    forall i | 0 <= i < |lines| :: BelongsToHeader(lines[i])
  }

  /** Blank or deeper than the directive, and ending in a line that is not blank. */
  ghost predicate IsBody(lines: seq<string>, indent: nat) {
    && (forall i | 0 <= i < |lines| :: Blank(lines[i]) || Deeper(lines[i], indent))
    && (lines != [] ==> !Blank(lines[|lines| - 1]))
  }

  predicate EndsHeader(after: seq<string>) {
    after == [] || !BelongsToHeader(after[0])
  }

  lemma {:induction false} HeaderShape(lines: seq<string>)
    ensures var n := HeaderLength(lines); AllHeader(lines[..n]) && EndsHeader(lines[n..])
  {
    if lines != [] && BelongsToHeader(lines[0]) {
      HeaderShape(lines[1..]);
      var n := HeaderLength(lines);
      assert lines[..n] == [lines[0]] + lines[1..][..n - 1] && lines[n..] == lines[1..][n - 1..];
    }
  }

  lemma {:induction false} HeaderOf(own: seq<string>, after: seq<string>)
    requires AllHeader(own) && EndsHeader(after)
    ensures HeaderLength(own + after) == |own|
  {
    if own != [] {
      HeaderOf(own[1..], after);
      assert (own + after)[1..] == own[1..] + after;
    } else {
      assert own + after == after;
    }
  }

  lemma {:induction false} BodyShape(lines: seq<string>, indent: nat)
    ensures var n := BodyLength(lines, indent); IsBody(lines[..n], indent) && !Continues(lines[n..], indent)
  {
    if Continues(lines, indent) {
      BodyShape(lines[1..], indent);
      var n := BodyLength(lines, indent);
      assert lines[..n] == [lines[0]] + lines[1..][..n - 1] && lines[n..] == lines[1..][n - 1..];
      if n == 1 { assert lines[1..][0..] == lines[1..]; }
    }
  }

  lemma {:induction false} BodyContinues(body: seq<string>, rest: seq<string>, indent: nat)
    requires body != [] && IsBody(body, indent)
    ensures Continues(body + rest, indent)
  {
    assert (body + rest)[1..] == body[1..] + rest;
    if Blank(body[0]) {
      BodyContinues(body[1..], rest, indent);
    }
  }

  lemma {:induction false} BodyOf(body: seq<string>, rest: seq<string>, indent: nat)
    requires IsBody(body, indent) && !Continues(rest, indent)
    ensures BodyLength(body + rest, indent) == |body|
  {
    if body != [] {
      BodyContinues(body, rest, indent);
      BodyOf(body[1..], rest, indent);
      assert (body + rest)[1..] == body[1..] + rest;
    } else {
      assert body + rest == rest;
    }
  }

  lemma Parts(a: seq<string>, b: seq<string>)
    ensures (a + b)[..|a|] == a && (a + b)[|a|..] == b
  {
  }

  lemma PiecesLengths(lines: seq<string>, indent: nat)
    requires lines != []
    ensures
      var p := PiecesOf(lines, indent);
      |p.header| - 1 == HeaderLength(p.header[1..] + (p.body + p.rest)) && |p.body| == BodyLength(p.body + p.rest, indent)
  {
    var p := PiecesOf(lines, indent);
    Concatenation(p.header, p.body, p.rest);
  }

  lemma HeaderPartShape(own: seq<string>, after: seq<string>)
    requires |own| == HeaderLength(own + after)
    ensures AllHeader(own) && EndsHeader(after)
  {
    HeaderShape(own + after);
    Parts(own, after);
  }

  lemma BodyPartShape(body: seq<string>, rest: seq<string>, indent: nat)
    requires |body| == BodyLength(body + rest, indent)
    ensures IsBody(body, indent) && !Continues(rest, indent)
  {
    BodyShape(body + rest, indent);
    Parts(body, rest);
  }

  lemma PiecesShape(lines: seq<string>, indent: nat)
    requires lines != []
    ensures
      var p := PiecesOf(lines, indent);
      AllHeader(p.header[1..]) && EndsHeader(p.body + p.rest) && IsBody(p.body, indent) && !Continues(p.rest, indent)
  {
    var p := PiecesOf(lines, indent);
    PiecesLengths(lines, indent);
    HeaderPartShape(p.header[1..], p.body + p.rest);
    BodyPartShape(p.body, p.rest, indent);
  }

  /** The shape of a block, given the lines of its content and those that follow it. */
  ghost predicate BlockFits(block: Item, body: seq<string>, rest: seq<string>)
    requires block.Block?
  {
    var header := block.header;
    && header != [] && Directive(header[0]).Some? && block == BlockOf(Directive(header[0]).value, header, block.content)
    && AllHeader(header[1..]) && EndsHeader(body + rest)
    && IsBody(body, block.directiveIndent) && !Continues(rest, block.directiveIndent)
  }

  /** The shape of a parse result. A block takes all the option and blank lines after its
      directive, then all lines that belong to its content, and no line more. */
  ghost predicate WellFormed(items: seq<Item>) {
    items == [] ||
    (&& WellFormed(items[1..])
     && match items[0]
        case Line(text) => Directive(text).None?
        case Block(_, _, _, _, content) =>
          BlockFits(items[0], Flatten(content), Flatten(items[1..])) && WellFormed(content))
  }

  lemma {:induction false} ParseIsWellFormed(lines: seq<string>)
    ensures WellFormed(Parsed(lines))
    decreases |lines|
  {
    if lines != [] {
      match Directive(lines[0])
      case None =>
        ParseIsWellFormed(lines[1..]);
        assert Parsed(lines)[1..] == Parsed(lines[1..]);
      case Some(mark) =>
        var p := PiecesOf(lines, mark.indent);
        ParseIsWellFormed(p.body);
        ParseIsWellFormed(p.rest);
        ParseIsLossless(p.body);
        ParseIsLossless(p.rest);
        PiecesShape(lines, mark.indent);
        assert Parsed(lines)[1..] == Parsed(p.rest);
        assert BlockFits(BlockOf(mark, p.header, Parsed(p.body)), p.body, p.rest);
    }
  }

  lemma {:induction false} FittingPieces(block: Item, body: seq<string>, rest: seq<string>)
    requires block.Block? && BlockFits(block, body, rest)
    ensures PiecesOf(block.header + (body + rest), block.directiveIndent) == Pieces(block.header, body, rest)
  {
    HeaderOf(block.header[1..], body + rest);
    BodyOf(body, rest, block.directiveIndent);
    PiecesFit(block.header, body, rest, block.directiveIndent);
  }

  lemma {:induction false} ParseOfFlattenedBlock(block: Item, tail: seq<Item>)
    requires block.Block? && BlockFits(block, Flatten(block.content), Flatten(tail))
    requires Parsed(Flatten(block.content)) == block.content && Parsed(Flatten(tail)) == tail
    ensures Parsed(Flatten([block] + tail)) == [block] + tail
  {
    FlattenBlock(block, tail);
    FittingPieces(block, Flatten(block.content), Flatten(tail));
  }

  /** Writing a parse result out and parsing it again gives it back: the lines decide the
      items and the items the lines. */
  lemma {:induction false} ParseOfFlattened(items: seq<Item>)
    requires WellFormed(items)
    ensures Parsed(Flatten(items)) == items
  {
    if items != [] {
      var tail := items[1..];
      ParseOfFlattened(tail);
      assert items == [items[0]] + tail;
      match items[0]
      case Line(text) =>
        assert Flatten(items)[1..] == Flatten(tail);
      case Block(header, _, _, _, content) =>
        ParseOfFlattened(content);
        ParseOfFlattenedBlock(items[0], tail);
    }
  }
}
