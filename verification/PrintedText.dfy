/** The text that `extract_raw_code` of docs/_extensions/collapsible_code_block.py prints,
    line by line: where the indentation of each line comes from. */
module PrintedText {
  import opened Text
  import opened BlockParser
  import opened BlockWalkers

  /** How many spaces a line starts with. */
  function Margin(s: string): (n: nat)
    ensures n <= |s|
  {
    if s != [] && s[0] == ' ' then 1 + Margin(s[1..]) else 0
  }

  /** An item, the indentation that its surroundings strip, and how far their blocks move it. */
  datatype Place = Place(item: Item, base: nat, shift: nat)

  /** The places of an item and of its content, of which there are none where that is hollow. */
  function ItemPlaces(item: Item, base: nat, shift: nat): seq<Place>
    decreases item, 0
  {
    match item
    case Line(_) => [Place(item, base, shift)]
    case Block(_, _, settings, indent, content) =>
      [Place(item, base, shift)]
      + (if Hollow(content, indent + 2) then []
         else Places(content, indent + 2, shift + (if indent <= base then 0 else indent - base) + settings.indent))
  }

  function Places(items: seq<Item>, base: nat, shift: nat): seq<Place>
    decreases items
  {
    if items == [] then [] else ItemPlaces(items[0], base, shift) + Places(items[1..], base, shift)
  }

  /** Code loses the indentation that is stripped if it has all of it; a label is as far to
      the right as its directive. */
  function OwnMargin(p: Place): nat {
    match p.item
    case Line(text) => if Margin(text) < p.base then Margin(text) else Margin(text) - p.base
    case Block(_, _, _, indent, _) => if indent <= p.base then 0 else indent - p.base
  }

  function AfterMargin(item: Item): string {
    match item
    case Line(text) => text[Margin(text)..]
    case Block(_, labelText, _, _, _) => labelText
  }

  /** The exact line of an item. A blank one is not moved. */
  function PrintedAt(p: Place): string {
    Spaces(OwnMargin(p) + if Blank(OwnText(p.item)) then 0 else p.shift) + AfterMargin(p.item)
  }

  ghost predicate PrintsAll(lines: seq<string>, places: seq<Place>) {
    |lines| == |places| && forall k | 0 <= k < |lines| :: lines[k] == PrintedAt(places[k])
  }

  lemma PrintsConcat(l1: seq<string>, p1: seq<Place>, l2: seq<string>, p2: seq<Place>)
    requires PrintsAll(l1, p1) && PrintsAll(l2, p2)
    ensures PrintsAll(l1 + l2, p1 + p2)
  {
    forall k | 0 <= k < |l1 + l2| ensures (l1 + l2)[k] == PrintedAt((p1 + p2)[k]) {
      if k >= |l1| { assert l2[k - |l1|] == PrintedAt(p2[k - |l1|]); }
    }
  }

  lemma {:induction false} MarginIsSpaces(s: string)
    ensures s == Spaces(Margin(s)) + s[Margin(s)..]
    ensures Blank(s) <==> Blank(s[Margin(s)..])
  {
    if s != [] && s[0] == ' ' {
      MarginIsSpaces(s[1..]);
      assert s[1..][Margin(s[1..])..] == s[Margin(s)..];
      assert s == [' '] + s[1..] && Spaces(Margin(s)) == [' '] + Spaces(Margin(s[1..]));
    }
  }

  lemma {:induction false} MarginAtLeast(s: string, n: nat)
    ensures Spaces(n) <= s <==> n <= Margin(s)
  {
    if n > 0 && s != [] && s[0] == ' ' {
      MarginAtLeast(s[1..], n - 1);
      assert s == [' '] + s[1..] && Spaces(n) == [' '] + Spaces(n - 1);
      assert Spaces(n) <= s <==> Spaces(n - 1) <= s[1..];
    } else if n > 0 {
      assert Spaces(n)[0] == ' ';
    }
  }

  lemma StripPrints(text: string, base: nat)
    ensures StripIndent(text, base) == PrintedAt(Place(Line(text), base, 0))
  {
    MarginIsSpaces(text);
    MarginAtLeast(text, base);
    var rest := text[Margin(text)..];
    if base <= Margin(text) {
      assert Spaces(Margin(text))[base..] == Spaces(Margin(text) - base);
      assert text[base..] == Spaces(Margin(text) - base) + rest;
    }
  }

  function Further(p: Place, extra: nat): Place {
    p.(shift := p.shift + extra)
  }

  lemma SpacesAdd(m: nat, n: nat, rest: string)
    ensures Spaces(m) + (Spaces(n) + rest) == Spaces(n + m) + rest
    ensures Blank(Spaces(n) + rest) <==> Blank(rest)
  {
    SpacesSkipped(n, rest);
    assert Spaces(m) + Spaces(n) == Spaces(n + m);
  }

  lemma ReindentedMoves(own: nat, shift: nat, rest: string, extra: nat)
    ensures
      Reindented(Spaces(own + if Blank(rest) then 0 else shift) + rest, extra)
      == Spaces(own + if Blank(rest) then 0 else shift + extra) + rest
  {
    SpacesAdd(extra, own + if Blank(rest) then 0 else shift, rest);
  }

  lemma ReindentedPrints(p: Place, extra: nat)
    ensures Reindented(PrintedAt(p), extra) == PrintedAt(Further(p, extra))
  {
    if p.item.Line? { MarginIsSpaces(p.item.text); }
    ReindentedMoves(OwnMargin(p), p.shift, AfterMargin(p.item), extra);
    assert OwnMargin(Further(p, extra)) == OwnMargin(p);
  }

  ghost predicate AreFurther(places: seq<Place>, near: seq<Place>, extra: nat) {
    |places| == |near| && forall k | 0 <= k < |near| :: places[k] == Further(near[k], extra)
  }

  lemma {:induction false} ItemPlacesFurther(item: Item, base: nat, shift: nat, extra: nat)
    ensures AreFurther(ItemPlaces(item, base, shift + extra), ItemPlaces(item, base, shift), extra)
    decreases item, 0
  {
    if item.Block? {
      var own := (if item.directiveIndent <= base then 0 else item.directiveIndent - base) + item.settings.indent;
      PlacesFurther(item.content, item.directiveIndent + 2, shift + own, extra);
      assert shift + extra + own == shift + own + extra;
    }
  }

  lemma {:induction false} PlacesFurther(items: seq<Item>, base: nat, shift: nat, extra: nat)
    ensures AreFurther(Places(items, base, shift + extra), Places(items, base, shift), extra)
    decreases items
  {
    if items != [] {
      ItemPlacesFurther(items[0], base, shift, extra);
      PlacesFurther(items[1..], base, shift, extra);
    }
  }

  lemma MovedPrints(nested: seq<string>, near: seq<Place>, far: seq<Place>, extra: nat)
    requires PrintsAll(nested, near) && AreFurther(far, near, extra)
    ensures PrintsAll(AllReindented(nested, extra), far)
  {
    forall k | 0 <= k < |nested| ensures AllReindented(nested, extra)[k] == PrintedAt(far[k]) {
      ReindentedPrints(near[k], extra);
    }
  }

  lemma NestedPrints(nested: seq<string>, near: seq<Place>, far: seq<Place>, extra: nat)
    requires PrintsAll(nested, near) && AreFurther(far, near, extra) && nested != [""]
    ensures PrintsAll(NestedLines(nested, extra), far)
  {
    MovedPrints(nested, near, far, extra);
    NestedIsMoved(nested, extra);
  }

  lemma NestedIsMoved(nested: seq<string>, extra: nat)
    requires nested != [""]
    ensures NestedLines(nested, extra) == AllReindented(nested, extra)
  {
  }

  lemma {:induction false} BlockParts(block: Item, base: nat)
    requires block.Block? && !Hollow(block.content, block.directiveIndent + 2)
    ensures
      var d := block.directiveIndent;
      var extra := Adjusted(d, base) + block.settings.indent;
      && ItemLines(block, base) == [PrintedAt(Place(block, base, 0))] + NestedLines(ExtractLines(block.content, d + 2), extra)
      && ItemPlaces(block, base, 0) == [Place(block, base, 0)] + Places(block.content, d + 2, extra)
  {
  }

  lemma {:induction false} BlockPrinted(block: Item, base: nat)
    requires block.Block? && !Hollow(block.content, block.directiveIndent + 2)
    requires
      var nested, inner := ExtractLines(block.content, block.directiveIndent + 2), block.directiveIndent + 2;
      PrintsAll(nested, Places(block.content, inner, 0)) && nested != [""]
    ensures PrintsAll(ItemLines(block, base), ItemPlaces(block, base, 0))
  {
    var content, inner := block.content, block.directiveIndent + 2;
    var extra := Adjusted(block.directiveIndent, base) + block.settings.indent;
    var nested, near, far := ExtractLines(content, inner), Places(content, inner, 0), Places(content, inner, extra);
    PlacesFurther(content, inner, 0, extra);
    NestedPrints(nested, near, far, extra);
    BlockParts(block, base);
    PrintsConcat([PrintedAt(Place(block, base, 0))], [Place(block, base, 0)], NestedLines(nested, extra), far);
  }

  lemma {:induction false} HollowPrinted(block: Item, base: nat)
    requires block.Block? && Hollow(block.content, block.directiveIndent + 2)
    requires ExtractLines(block.content, block.directiveIndent + 2) == [""]
    ensures PrintsAll(ItemLines(block, base), ItemPlaces(block, base, 0))
  {
    var place, none: seq<string> := Place(block, base, 0), [];
    assert ItemPlaces(block, base, 0) == [place];
    assert ItemLines(block, base) == [PrintedAt(place)] + none;
  }

  ghost predicate ItemTidy(item: Item) {
    item.Block? ==> StartsWithText(item.content) && Tidy(item.content)
  }

  lemma {:induction false} ItemPrinted(item: Item, base: nat)
    requires ItemTidy(item)
    ensures PrintsAll(ItemLines(item, base), ItemPlaces(item, base, 0))
    decreases item, 0
  {
    if item.Line? {
      StripPrints(item.text, base);
    } else {
      var inner := item.directiveIndent + 2;
      ExtractPrints(item.content, inner);
      DroppedIsHollow(item.content, inner);
      if Hollow(item.content, inner) { HollowPrinted(item, base); } else { BlockPrinted(item, base); }
    }
  }

  /** Every printed line is exactly that of the place of its number. */
  lemma {:induction false} ExtractPrints(items: seq<Item>, base: nat)
    requires Tidy(items)
    ensures PrintsAll(ExtractLines(items, base), Places(items, base, 0))
    decreases items
  {
    if items != [] {
      ItemPrinted(items[0], base);
      ExtractPrints(items[1..], base);
      PrintsConcat(ItemLines(items[0], base), ItemPlaces(items[0], base, 0), ExtractLines(items[1..], base), Places(items[1..], base, 0));
    }
  }

  ghost predicate AreOf(places: seq<Place>, items: seq<Item>) {
    |places| == |items| && forall k | 0 <= k < |items| :: places[k].item == items[k]
  }

  lemma {:induction false} PlacesOfItem(item: Item, base: nat, shift: nat)
    requires item.Block? ==> NoneHollow(item.content) && !Hollow(item.content, item.directiveIndent + 2)
    ensures AreOf(ItemPlaces(item, base, shift), ItemPreorder(item))
    decreases item, 0
  {
    if item.Block? {
      var own := (if item.directiveIndent <= base then 0 else item.directiveIndent - base) + item.settings.indent;
      PlacesOfAll(item.content, item.directiveIndent + 2, shift + own);
    }
  }

  /** Where nothing is hollow each item has one place, in the order of the items. */
  lemma {:induction false} PlacesOfAll(items: seq<Item>, base: nat, shift: nat)
    requires NoneHollow(items)
    ensures AreOf(Places(items, base, shift), Preorder(items))
    decreases items
  {
    if items != [] {
      PlacesOfItem(items[0], base, shift);
      PlacesOfAll(items[1..], base, shift);
    }
  }

  /** The printed text of any source lines is the exact lines of its items, each at its
      place; only hollow content is not printed. */
  lemma PrintedFromSource(lines: seq<string>)
    ensures
      var items := Parsed(lines);
      && (Free(lines, '\n') ==> NewlineFree(items)) && PrintsAll(ExtractLines(items, 0), Places(items, 0, 0))
      && (NoneHollow(items) ==> AreOf(Places(items, 0, 0), Preorder(items)))
  {
    if Free(lines, '\n') { ParsedIsNewlineFree(lines); }
    ParseIsWellFormed(lines);
    WellFormedIsTidy(Parsed(lines));
    ExtractPrints(Parsed(lines), 0);
    if NoneHollow(Parsed(lines)) { PlacesOfAll(Parsed(lines), 0, 0); }
  }
}
