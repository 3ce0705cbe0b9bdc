/** `extract_raw_code` and `render_content` of docs/_extensions/collapsible_code_block.py. The
    first prints the code that is highlighted; the second hands the highlighted lines out
    again, so both must count lines alike. */
module BlockWalkers {
  import opened Outcomes
  import opened Text
  import opened BlockParser

  // ---------- extraction ----------

  function Spaces(n: nat): string {
    seq(n, _ => ' ')
  }

  function StripIndent(text: string, base: nat): string {
    if base > 0 && Spaces(base) <= text then text[base..] else text
  }

  function Reindented(line: string, extra: nat): string {
    if Blank(line) then line else Spaces(extra) + line
  }

  function AllReindented(lines: seq<string>, extra: nat): (r: seq<string>)
    ensures |r| == |lines| && forall k | 0 <= k < |r| :: r[k] == Reindented(lines[k], extra)
  {
    if lines == [] then [] else [Reindented(lines[0], extra)] + AllReindented(lines[1..], extra)
  }

  /** `max(0, indent - base)`. */
  function Adjusted(indent: nat, base: nat): nat {
    if indent > base then indent - base else 0
  }

  /** Nested code that joins to the empty string is dropped. */
  predicate Dropped(nested: seq<string>) {
    nested == [] || nested == [""]
  }

  function NestedLines(nested: seq<string>, extra: nat): seq<string> {
    if Dropped(nested) then [] else AllReindented(nested, extra)
  }

  function ItemLines(item: Item, base: nat): (lines: seq<string>)
    ensures lines != []
    decreases item, 0
  {
    match item
    case Line(text) => [StripIndent(text, base)]
    case Block(_, labelText, settings, indent, content) =>
      [Spaces(Adjusted(indent, base)) + labelText]
      + NestedLines(ExtractLines(content, indent + 2), Adjusted(indent, base) + settings.indent)
  }

  function ExtractLines(items: seq<Item>, base: nat): seq<string>
    decreases items
  {
    if items == [] then [] else ItemLines(items[0], base) + ExtractLines(items[1..], base)
  }

  ghost predicate NewlineFree(items: seq<Item>)
    decreases items
  {
    items == [] || (ItemNewlineFree(items[0]) && NewlineFree(items[1..]))
  }

  ghost predicate ItemNewlineFree(item: Item)
    decreases item, 0
  {
    match item
    case Line(text) => '\n' !in text
    case Block(_, labelText, _, _, content) => '\n' !in labelText && NewlineFree(content)
  }

  lemma NestedAreFree(nested: seq<string>, extra: nat)
    requires Free(nested, '\n')
    ensures Free(NestedLines(nested, extra), '\n')
  {
    forall k | 0 <= k < |NestedLines(nested, extra)|
      ensures '\n' !in NestedLines(nested, extra)[k]
    {
      assert NestedLines(nested, extra)[k] == Reindented(nested[k], extra);
    }
  }

  lemma {:induction false} ItemIsNewlineFree(item: Item, base: nat)
    requires ItemNewlineFree(item)
    ensures Free(ItemLines(item, base), '\n')
    decreases item, 0
  {
    if item.Block? {
      ExtractedIsNewlineFree(item.content, item.directiveIndent + 2);
      NestedAreFree(ExtractLines(item.content, item.directiveIndent + 2), Adjusted(item.directiveIndent, base) + item.settings.indent);
    }
  }

  lemma {:induction false} ExtractedIsNewlineFree(items: seq<Item>, base: nat)
    requires NewlineFree(items)
    ensures Free(ExtractLines(items, base), '\n')
    decreases items
  {
    if items != [] {
      ExtractedIsNewlineFree(items[1..], base);
      ItemIsNewlineFree(items[0], base);
    }
  }

  lemma {:induction false} SkippedIsWithin(s: string, c: char)
    requires c !in s
    ensures c !in SkipSpace(s)
  {
    if s != [] && IsSpace(s[0]) { SkippedIsWithin(s[1..], c); }
  }

  lemma {:induction false} StrippedIsWithin(s: string, c: char)
    requires c !in s
    ensures c !in DropSpace(s)
  {
    if s != [] && IsSpace(s[|s| - 1]) { StrippedIsWithin(s[..|s| - 1], c); }
  }

  lemma LabelIsNewlineFree(line: string)
    requires '\n' !in line && Directive(line).Some?
    ensures '\n' !in Directive(line).value.labelText
  {
    SkippedIsWithin(line, '\n');
    var marker := SkipSpace(line);
    SkippedIsWithin(marker[2..], '\n');
    var rest := SkipSpace(marker[2..])[|"collapsible::"|..];
    SkippedIsWithin(rest, '\n');
    StrippedIsWithin(SkipSpace(rest), '\n');
  }

  /** Lines without newlines parse to items without newlines. */
  lemma {:induction false} ParsedIsNewlineFree(lines: seq<string>)
    requires Free(lines, '\n')
    ensures NewlineFree(Parsed(lines))
    decreases |lines|
  {
    if lines != [] {
      match Directive(lines[0])
      case None =>
        ParsedIsNewlineFree(lines[1..]);
      case Some(mark) =>
        var p := PiecesOf(lines, mark.indent);
        assert forall i | 0 <= i < |p.body| :: p.body[i] == lines[|p.header| + i];
        assert forall i | 0 <= i < |p.rest| :: p.rest[i] == lines[|p.header| + |p.body| + i];
        ParsedIsNewlineFree(p.body);
        ParsedIsNewlineFree(p.rest);
        LabelIsNewlineFree(lines[0]);
    }
  }

  lemma JoinedIsEmpty(lines: seq<string>)
    ensures Join(lines, '\n') == "" <==> Dropped(lines)
  {
  }

  method ExtractRawCode(items: seq<Item>, base: nat) returns (code: string)
    requires NewlineFree(items)
    ensures code == Join(ExtractLines(items, base), '\n')
    decreases items, 0
  {
    var lines := [];
    var k := 0;
    while k < |items|
      invariant 0 <= k <= |items| && NewlineFree(items[k..])
      invariant lines + ExtractLines(items[k..], base) == ExtractLines(items, base)
    {
      assert items[k..][1..] == items[k + 1..];
      var own := ExtractItem(items[k], base);
      Regroup(lines, own, ExtractLines(items[k + 1..], base));
      lines := lines + own;
      k := k + 1;
    }
    assert items[k..] == [] && lines + [] == lines;
    code := Join(lines, '\n');
  }

  /** The lines that one item appends. */
  method ExtractItem(item: Item, base: nat) returns (lines: seq<string>)
    requires ItemNewlineFree(item)
    ensures lines == ItemLines(item, base)
    decreases item, 0
  {
    match item
    case Line(text) =>
      lines := [StripIndent(text, base)];
    case Block(_, labelText, settings, indent, content) =>
      var adjusted := Adjusted(indent, base);
      var nested := ExtractNested(content, indent + 2, adjusted + settings.indent);
      lines := [Spaces(adjusted) + labelText] + nested;
  }

  method ExtractNested(content: seq<Item>, base: nat, extra: nat) returns (lines: seq<string>)
    requires NewlineFree(content)
    ensures lines == NestedLines(ExtractLines(content, base), extra)
    decreases content, 1
  {
    var nestedCode := ExtractRawCode(content, base);
    ghost var nested := ExtractLines(content, base);
    JoinedIsEmpty(nested);
    if nestedCode == "" { return []; }
    ExtractedIsNewlineFree(content, base);
    SplitAfterJoin(nested, '\n');
    lines := Reindent(Split(nestedCode, '\n'), extra);
  }

  method Reindent(nested: seq<string>, extra: nat) returns (lines: seq<string>)
    ensures lines == AllReindented(nested, extra)
  {
    lines := [];
    for k := 0 to |nested|
      invariant |lines| == k && forall j | 0 <= j < k :: lines[j] == Reindented(nested[j], extra)
    {
      if !Blank(nested[k]) {
        lines := lines + [Spaces(extra) + nested[k]];
      } else {
        lines := lines + [nested[k]];
      }
    }
  }

  // ---------- rendering ----------

  datatype Event =
    | Text(html: string)
    | Open(html: string, labelText: string, settings: Settings)
    | Close

  datatype Output = Output(body: seq<Event>, next: nat)

  function RenderedItem(item: Item, highlighted: seq<string>, i: nat): Output
    decreases item, 0
  {
    match item
    case Line(_) => if i < |highlighted| then Output([Text(highlighted[i])], i + 1) else Output([], i)
    case Block(_, labelText, settings, _, content) =>
      var html := if i < |highlighted| then highlighted[i] else "";
      var nested := Rendered(content, highlighted, if i < |highlighted| then i + 1 else i);
      Output([Open(html, labelText, settings)] + nested.body + [Close], nested.next)
  }

  function Rendered(items: seq<Item>, highlighted: seq<string>, i: nat): Output
    decreases items
  {
    if items == [] then Output([], i)
    else
      var first := RenderedItem(items[0], highlighted, i);
      var rest := Rendered(items[1..], highlighted, first.next);
      Output(first.body + rest.body, rest.next)
  }

  /** The translator's body and the line counter that the recursive calls share. */
  class Translator {
    var body: seq<Event>
    var lineIndex: nat

    constructor ()
      ensures body == [] && lineIndex == 0
    {
      body, lineIndex := [], 0;
    }

    method RenderContent(items: seq<Item>, highlighted: seq<string>)
      modifies this
      ensures
        var output := Rendered(items, highlighted, old(lineIndex));
        body == old(body) + output.body && lineIndex == output.next
      decreases items
    {
      var k := 0;
      ghost var output := Rendered(items, highlighted, lineIndex);
      while k < |items|
        invariant 0 <= k <= |items|
        invariant old(body) + output.body == body + Rendered(items[k..], highlighted, lineIndex).body
        invariant output.next == Rendered(items[k..], highlighted, lineIndex).next
      {
        assert items[k..][1..] == items[k + 1..];
        ghost var before, first := body, RenderedItem(items[k], highlighted, lineIndex);
        RenderItem(items[k], highlighted);
        Regroup(before, first.body, Rendered(items[k + 1..], highlighted, lineIndex).body);
        k := k + 1;
      }
    }

    /** What the loop appends for one item. */
    method RenderItem(item: Item, highlighted: seq<string>)
      modifies this
      ensures
        var output := RenderedItem(item, highlighted, old(lineIndex));
        body == old(body) + output.body && lineIndex == output.next
      decreases item, 0
    {
      match item
      case Line(_) =>
        if lineIndex < |highlighted| {
          body := body + [Text(highlighted[lineIndex])];
          lineIndex := lineIndex + 1;
        }
      case Block(_, labelText, settings, _, content) =>
        var html := "";
        if lineIndex < |highlighted| {
          html := highlighted[lineIndex];
          lineIndex := lineIndex + 1;
        }
        body := body + [Open(html, labelText, settings)];
        RenderContent(content, highlighted);
        body := body + [Close];
    }
  }

  // ---------- the walkers side by side ----------

  /** All items, each before its content. */
  function Preorder(items: seq<Item>): seq<Item>
    decreases items
  {
    if items == [] then [] else ItemPreorder(items[0]) + Preorder(items[1..])
  }

  /** The text an item owns, before any change of indentation. */
  function OwnText(item: Item): string {
    match item
    case Line(text) => text
    case Block(_, labelText, _, _, _) => labelText
  }

  /** The events that show a highlighted line. */
  function Shown(body: seq<Event>): seq<Event> {
    if body == [] then []
    else if body[0].Close? then Shown(body[1..])
    else [body[0]] + Shown(body[1..])
  }

  predicate Shows(event: Event, item: Item, html: string) {
    match item
    case Line(_) => event == Text(html)
    case Block(_, labelText, settings, _, _) => event == Open(html, labelText, settings)
  }

  lemma ShownOne(e: Event)
    ensures Shown([e]) == if e.Close? then [] else [e]
  {
    assert [e][1..] == [];
  }

  lemma {:induction false} ShownConcat(a: seq<Event>, b: seq<Event>)
    ensures Shown(a + b) == Shown(a) + Shown(b)
  {
    if a == [] {
      assert a + b == b;
    } else {
      ShownConcat(a[1..], b);
      assert (a + b)[1..] == a[1..] + b;
      Regroup([a[0]], Shown(a[1..]), Shown(b));
    }
  }

  function ItemPreorder(item: Item): (p: seq<Item>)
    ensures p != []
    decreases item, 0
  {
    match item
    case Line(_) => [item]
    case Block(_, _, _, _, content) => [item] + Preorder(content)
  }

  ghost predicate ShowsAll(shown: seq<Event>, items: seq<Item>, highlighted: seq<string>, i: nat)
    requires i + |items| <= |highlighted|
  {
    |shown| == |items| && forall k | 0 <= k < |items| :: Shows(shown[k], items[k], highlighted[i + k])
  }

  lemma ShowsConcat(s1: seq<Event>, i1: seq<Item>, s2: seq<Event>, i2: seq<Item>, highlighted: seq<string>, i: nat)
    requires i + |i1| + |i2| <= |highlighted|
    requires ShowsAll(s1, i1, highlighted, i) && ShowsAll(s2, i2, highlighted, i + |i1|)
    ensures ShowsAll(s1 + s2, i1 + i2, highlighted, i)
  {
    forall k | 0 <= k < |i1 + i2|
      ensures Shows((s1 + s2)[k], (i1 + i2)[k], highlighted[i + k])
    {
      if k >= |i1| { assert Shows(s2[k - |i1|], i2[k - |i1|], highlighted[i + |i1| + (k - |i1|)]); }
    }
  }

  lemma {:induction false} RenderedItemShows(item: Item, highlighted: seq<string>, i: nat)
    requires i + |ItemPreorder(item)| <= |highlighted|
    ensures
      var output := RenderedItem(item, highlighted, i);
      output.next == i + |ItemPreorder(item)| && ShowsAll(Shown(output.body), ItemPreorder(item), highlighted, i)
    decreases item, 0
  {
    match item
    case Line(_) =>
      ShownOne(Event.Text(highlighted[i]));
    case Block(_, labelText, settings, _, content) =>
      RenderedShowsPreorder(content, highlighted, i + 1);
      var open, nested := [Open(highlighted[i], labelText, settings)], Rendered(content, highlighted, i + 1).body;
      ShownOne(open[0]);
      ShownOne(Close);
      ShownConcat(open + nested, [Close]);
      ShownConcat(open, nested);
      ShowsConcat(open, [item], Shown(nested), Preorder(content), highlighted, i);
  }

  /** Rendering shows the items in order, each with the highlighted line of its number. */
  lemma {:induction false} RenderedShowsPreorder(items: seq<Item>, highlighted: seq<string>, i: nat)
    requires i + |Preorder(items)| <= |highlighted|
    ensures
      var output := Rendered(items, highlighted, i);
      output.next == i + |Preorder(items)| && ShowsAll(Shown(output.body), Preorder(items), highlighted, i)
    decreases items
  {
    if items != [] {
      var first := RenderedItem(items[0], highlighted, i);
      RenderedItemShows(items[0], highlighted, i);
      RenderedShowsPreorder(items[1..], highlighted, first.next);
      var rest := Rendered(items[1..], highlighted, first.next);
      ShownConcat(first.body, rest.body);
      ShowsConcat(Shown(first.body), ItemPreorder(items[0]), Shown(rest.body), Preorder(items[1..]), highlighted, i);
    }
  }

  // ---------- when the walkers agree ----------

  lemma {:induction false} SpacesSkipped(n: nat, s: string)
    ensures SkipSpace(Spaces(n) + s) == SkipSpace(s)
  {
    if n == 0 {
      assert Spaces(0) + s == s;
    } else {
      SpacesSkipped(n - 1, s);
      assert (Spaces(n) + s)[1..] == Spaces(n - 1) + s;
    }
  }

  lemma StripKeepsText(text: string, base: nat)
    ensures SkipSpace(StripIndent(text, base)) == SkipSpace(text)
  {
    if base > 0 && Spaces(base) <= text {
      assert text == Spaces(base) + text[base..];
      SpacesSkipped(base, text[base..]);
    }
  }

  /** Each line carries the text of its item, up to indentation. */
  ghost predicate Owns(lines: seq<string>, items: seq<Item>) {
    |lines| == |items| && forall k | 0 <= k < |lines| :: SkipSpace(lines[k]) == SkipSpace(OwnText(items[k]))
  }

  lemma OwnsConcat(l1: seq<string>, i1: seq<Item>, l2: seq<string>, i2: seq<Item>)
    requires Owns(l1, i1) && Owns(l2, i2)
    ensures Owns(l1 + l2, i1 + i2)
  {
  }

  lemma ReindentedOwns(lines: seq<string>, items: seq<Item>, extra: nat)
    requires Owns(lines, items)
    ensures Owns(AllReindented(lines, extra), items)
  {
    forall k | 0 <= k < |lines|
      ensures SkipSpace(AllReindented(lines, extra)[k]) == SkipSpace(OwnText(items[k]))
    {
      SpacesSkipped(extra, lines[k]);
    }
  }

  /** No block's content is dropped although there is some. */
  ghost predicate NothingDropped(items: seq<Item>)
    decreases items
  {
    items == [] || (ItemKept(items[0]) && NothingDropped(items[1..]))
  }

  ghost predicate ItemKept(item: Item)
    decreases item, 0
  {
    item.Block? ==> NothingDropped(item.content) && ExtractLines(item.content, item.directiveIndent + 2) != [""]
  }

  lemma NestedCount(nested: seq<string>, extra: nat)
    ensures |NestedLines(nested, extra)| == if nested == [""] then 0 else |nested|
  {
  }

  lemma NestedOwns(first: string, item: Item, nested: seq<string>, inner: seq<Item>, extra: nat)
    requires Owns([first], [item]) && Owns(nested, inner) && nested != [""]
    ensures Owns([first] + NestedLines(nested, extra), [item] + inner)
  {
    NestedCount(nested, extra);
    ReindentedOwns(nested, inner, extra);
    assert NestedLines(nested, extra) == AllReindented(nested, extra);
    OwnsConcat([first], [item], NestedLines(nested, extra), inner);
  }

  lemma {:induction false} ItemCounts(item: Item, base: nat)
    ensures |ItemLines(item, base)| <= |ItemPreorder(item)|
    ensures |ItemLines(item, base)| == |ItemPreorder(item)| <==> ItemKept(item)
    ensures ItemKept(item) ==> Owns(ItemLines(item, base), ItemPreorder(item))
    decreases item, 0
  {
    match item
    case Line(text) =>
      StripKeepsText(text, base);
    case Block(_, labelText, settings, indent, content) =>
      var nested, extra := ExtractLines(content, indent + 2), Adjusted(indent, base) + settings.indent;
      var first := Spaces(Adjusted(indent, base)) + labelText;
      ExtractCounts(content, indent + 2);
      NestedCount(nested, extra);
      assert ItemLines(item, base) == [first] + NestedLines(nested, extra);
      assert ItemPreorder(item) == [item] + Preorder(content);
      SpacesSkipped(Adjusted(indent, base), labelText);
      if ItemKept(item) { NestedOwns(first, item, nested, Preorder(content), extra); }
  }

  /** The extraction prints at most one line an item, and exactly one each when nothing is
      dropped; each line then belongs to the item of its number. */
  lemma {:induction false} ExtractCounts(items: seq<Item>, base: nat)
    ensures |ExtractLines(items, base)| <= |Preorder(items)|
    ensures |ExtractLines(items, base)| == |Preorder(items)| <==> NothingDropped(items)
    ensures NothingDropped(items) ==> Owns(ExtractLines(items, base), Preorder(items))
    ensures |ExtractLines(items, base)| >= |items|
    decreases items
  {
    if items != [] {
      ItemCounts(items[0], base);
      ExtractCounts(items[1..], base);
      if NothingDropped(items) {
        OwnsConcat(ItemLines(items[0], base), ItemPreorder(items[0]), ExtractLines(items[1..], base), Preorder(items[1..]));
      }
    }
  }

  // ---------- what is dropped ----------

  /** What is dropped: one block without a label, no deeper than its surroundings, in which
      there is nothing or only such a block again. */
  predicate Hollow(content: seq<Item>, base: nat) {
    && |content| == 1 && content[0].Block?
    && content[0].labelText == "" && content[0].directiveIndent <= base
    && (content[0].content == [] || Hollow(content[0].content, content[0].directiveIndent + 2))
  }

  predicate StartsWithText(content: seq<Item>) {
    content == [] || content[0].Block? || !Blank(content[0].text)
  }

  /** As parse results are: no content starts with a blank line. */
  ghost predicate Tidy(items: seq<Item>) {
    items == [] || (Tidy(items[1..]) && (items[0].Block? ==> StartsWithText(items[0].content) && Tidy(items[0].content)))
  }

  ghost predicate NoneHollow(items: seq<Item>) {
    items == [] ||
    (&& NoneHollow(items[1..])
     && (items[0].Block? ==> NoneHollow(items[0].content) && !Hollow(items[0].content, items[0].directiveIndent + 2)))
  }

  lemma JustEmpty(first: string, nested: seq<string>)
    ensures [first] + nested == [""] <==> first == "" && nested == []
  {
    if [first] + nested == [""] {
      assert |[first] + nested| == 1 + |nested|;
      assert ([first] + nested)[0] == first;
    }
  }

  lemma {:induction false} BlockIsEmptyLine(block: Item, base: nat)
    requires block.Block?
    ensures
      ItemLines(block, base) == [""] <==>
        block.labelText == "" && block.directiveIndent <= base && Dropped(ExtractLines(block.content, block.directiveIndent + 2))
  {
    var adjusted, nested := Adjusted(block.directiveIndent, base), ExtractLines(block.content, block.directiveIndent + 2);
    var first := Spaces(adjusted) + block.labelText;
    assert ItemLines(block, base) == [first] + NestedLines(nested, adjusted + block.settings.indent);
    assert |first| == adjusted + |block.labelText|;
    NestedCount(nested, adjusted + block.settings.indent);
    JustEmpty(first, NestedLines(nested, adjusted + block.settings.indent));
  }

  lemma {:induction false} DroppedIsHollow(content: seq<Item>, base: nat)
    requires Tidy(content) && StartsWithText(content)
    ensures ExtractLines(content, base) == [""] <==> Hollow(content, base)
    decreases content
  {
    ExtractCounts(content, base);
    if |content| == 1 {
      assert content[1..] == [] && ExtractLines(content, base) == ItemLines(content[0], base);
      match content[0]
      case Line(text) =>
        StripKeepsText(text, base);
      case Block(_, _, _, indent, inner) =>
        BlockIsEmptyLine(content[0], base);
        DroppedIsHollow(inner, indent + 2);
        ExtractCounts(inner, indent + 2);
    }
  }

  lemma {:induction false} DroppedMeansHollow(items: seq<Item>)
    requires Tidy(items)
    ensures NothingDropped(items) <==> NoneHollow(items)
    decreases items
  {
    if items != [] {
      DroppedMeansHollow(items[1..]);
      if items[0].Block? {
        DroppedMeansHollow(items[0].content);
        DroppedIsHollow(items[0].content, items[0].directiveIndent + 2);
      }
    }
  }

  lemma {:induction false} WellFormedIsTidy(items: seq<Item>)
    requires WellFormed(items)
    ensures Tidy(items)
  {
    if items != [] {
      WellFormedIsTidy(items[1..]);
      if items[0].Block? {
        var content := items[0].content;
        WellFormedIsTidy(content);
        if content != [] && content[0].Line? {
          assert (Flatten(content) + Flatten(items[1..]))[0] == content[0].text;
        }
      }
    }
  }

  /** Extraction and rendering of the same parse result use the same line numbers exactly
      when no block has hollow content; then every line is handed to the item it came from,
      and all lines are used. */
  lemma WalkersAgree(lines: seq<string>, highlighted: seq<string>)
    requires |highlighted| == |ExtractLines(Parsed(lines), 0)|
    ensures |highlighted| == |Preorder(Parsed(lines))| <==> NoneHollow(Parsed(lines))
    ensures
      var items := Parsed(lines);
      NoneHollow(items) ==>
        && Owns(ExtractLines(items, 0), Preorder(items))
        && Rendered(items, highlighted, 0).next == |highlighted|
        && ShowsAll(Shown(Rendered(items, highlighted, 0).body), Preorder(items), highlighted, 0)
  {
    var items := Parsed(lines);
    ParseIsWellFormed(lines);
    WellFormedIsTidy(items);
    DroppedMeansHollow(items);
    ExtractCounts(items, 0);
    if NoneHollow(items) { RenderedShowsPreorder(items, highlighted, 0); }
  }

  ghost predicate Labelled(items: seq<Item>) {
    items == [] || (Labelled(items[1..]) && (items[0].Block? ==> items[0].labelText != "" && Labelled(items[0].content)))
  }

  /** A label on every block is enough. */
  lemma {:induction false} LabelledIsNotHollow(items: seq<Item>)
    requires Labelled(items)
    ensures NoneHollow(items)
  {
    if items != [] {
      LabelledIsNotHollow(items[1..]);
      if items[0].Block? { LabelledIsNotHollow(items[0].content); }
    }
  }

  const NAME := "collapsible::"

  /** A directive line at the given indent. */
  function Written(indent: nat, tail: string): string {
    Spaces(indent) + (".." + (" " + (NAME + tail)))
  }

  lemma {:induction false} NotSkipped(s: string)
    requires s != [] && !IsSpace(s[0])
    ensures SkipSpace(s) == s
  {
  }

  lemma {:induction false} OneSkipped(s: string)
    ensures SkipSpace(" " + s) == SkipSpace(s)
  {
    assert (" " + s)[1..] == s;
  }

  /** Such a line is recognised, with its indent and its label. */
  lemma WrittenIsDirective(indent: nat, tail: string)
    ensures Directive(Written(indent, tail)) == Some(Mark(indent, Strip(tail)))
  {
    var name := NAME + tail;
    var marker := ".." + (" " + name);
    assert NAME[0] == 'c' && name[0] == NAME[0] && marker[0] == '.';
    SpacesSkipped(indent, marker);
    NotSkipped(marker);
    assert SkipSpace(Written(indent, tail)) == marker && IndentOf(Written(indent, tail)) == indent;
    assert marker[2..] == " " + name && marker[..2] == "..";
    OneSkipped(name);
    NotSkipped(name);
    assert name[..|NAME|] == NAME && name[|NAME|..] == tail;
  }

  lemma WrittenIsContent(indent: nat, tail: string)
    ensures !Blank(Written(indent, tail)) && IndentOf(Written(indent, tail)) == indent && !BelongsToHeader(Written(indent, tail))
  {
    var marker := ".." + (" " + (NAME + tail));
    assert marker[0] == '.';
    SpacesSkipped(indent, marker);
    NotSkipped(marker);
    DropKeepsStart(marker);
  }

  lemma {:induction false} LoneDirective(line: string, mark: Mark)
    requires Directive(line) == Some(mark)
    ensures Parsed([line]) == [BlockOf(mark, [line], [])]
  {
    assert [line][1..] == [] && Parsed([]) == [];
    assert PiecesOf([line], mark.indent) == Pieces([line], [], []);
  }

  lemma {:induction false} NestedDirective(outer: string, inner: string, mark: Mark, content: seq<Item>)
    requires Directive(outer) == Some(mark) && Deeper(inner, mark.indent) && !BelongsToHeader(inner)
    requires Parsed([inner]) == content
    ensures Parsed([outer, inner]) == [BlockOf(mark, [outer], content)]
  {
    var lines := [outer, inner];
    assert lines[1..] == [inner] && [inner][1..] == [] && Parsed([]) == [];
    assert HeaderLength([inner]) == 0 && BodyLength([inner], mark.indent) == 1;
    assert PiecesOf(lines, mark.indent) == Pieces([outer], [inner], []);
  }

  /** A block without a label, on its own inside another, is dropped from the code but not
      from the rendering. */
  lemma UnlabelledBlockDisagrees() returns (items: seq<Item>)
    ensures Parsed([Written(0, "A"), Written(2, "")]) == items && |ExtractLines(items, 0)| < |Preorder(items)|
  {
    var outer, inner := Mark(0, Strip("A")), Mark(2, Strip(""));
    WrittenIsDirective(0, "A");
    WrittenIsDirective(2, "");
    WrittenIsContent(2, "");
    LoneDirective(Written(2, ""), inner);
    var content := [BlockOf(inner, [Written(2, "")], [])];
    NestedDirective(Written(0, "A"), Written(2, ""), outer, content);
    items := [BlockOf(outer, [Written(0, "A")], content)];
    UnlabelledIsDropped(items, content[0]);
  }

  lemma UnlabelledIsDropped(items: seq<Item>, inner: Item)
    requires |items| == 1 && items[0].Block? && items[0].content == [inner] && items[0].directiveIndent == 0
    requires inner.Block? && inner.labelText == "" && inner.directiveIndent == 2 && inner.content == []
    ensures |ExtractLines(items, 0)| < |Preorder(items)|
  {
    BlockIsEmptyLine(inner, 2);
    assert [inner][1..] == [] && ExtractLines([inner], 2) == ItemLines(inner, 2);
    ExtractCounts(items, 0);
  }
}
