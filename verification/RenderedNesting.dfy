/** Where `render_content` of docs/_extensions/collapsible_code_block.py closes the blocks
    that it opens. */
module RenderedNesting {
  import opened Text
  import opened BlockParser
  import opened BlockWalkers

  /** How many blocks are around each item. */
  function Depths(items: seq<Item>, depth: int): seq<int>
    decreases items
  {
    if items == [] then [] else ItemDepths(items[0], depth) + Depths(items[1..], depth)
  }

  function ItemDepths(item: Item, depth: int): seq<int>
    decreases item, 0
  {
    match item
    case Line(_) => [depth]
    case Block(_, _, _, _, content) => [depth] + Depths(content, depth + 1)
  }

  /** How many blocks are open at each event that shows a line. */
  function OpenAt(body: seq<Event>, depth: int): seq<int> {
    if body == [] then []
    else
      match body[0]
      case Text(_) => [depth] + OpenAt(body[1..], depth)
      case Open(_, _, _) => [depth] + OpenAt(body[1..], depth + 1)
      case Close => OpenAt(body[1..], depth - 1)
  }

  lemma OpenAtFirst(e: Event, after: seq<Event>, depth: int)
    ensures
      OpenAt([e] + after, depth)
      == (if e.Close? then [] else [depth]) + OpenAt(after, if e.Open? then depth + 1 else if e.Close? then depth - 1 else depth)
  {
    assert ([e] + after)[1..] == after;
  }

  lemma NestsInside(open: Event, nested: seq<Event>, after: seq<Event>, depth: int, depths: seq<int>)
    requires open.Open?
    requires OpenAt(nested + ([Close] + after), depth + 1) == depths + OpenAt([Close] + after, depth + 1)
    ensures OpenAt([open] + nested + [Close] + after, depth) == [depth] + depths + OpenAt(after, depth)
  {
    OpenAtFirst(Close, after, depth + 1);
    OpenAtFirst(open, nested + ([Close] + after), depth);
    assert [open] + nested + [Close] + after == [open] + (nested + ([Close] + after));
    Regroup([depth], depths, OpenAt(after, depth));
  }

  lemma {:induction false} ItemNests(item: Item, highlighted: seq<string>, i: nat, depth: int, after: seq<Event>)
    requires i + |ItemPreorder(item)| <= |highlighted|
    ensures OpenAt(RenderedItem(item, highlighted, i).body + after, depth) == ItemDepths(item, depth) + OpenAt(after, depth)
    decreases item, 0
  {
    match item
    case Line(_) =>
      OpenAtFirst(Event.Text(highlighted[i]), after, depth);
    case Block(_, labelText, settings, _, content) =>
      RenderedNests(content, highlighted, i + 1, depth + 1, [Close] + after);
      NestsInside(
        Open(highlighted[i], labelText, settings), Rendered(content, highlighted, i + 1).body, after, depth, Depths(content, depth + 1));
  }

  /** Every block is open around its content and nothing else, and all are closed again
      before what comes after. */
  lemma {:induction false} RenderedNests(items: seq<Item>, highlighted: seq<string>, i: nat, depth: int, after: seq<Event>)
    requires i + |Preorder(items)| <= |highlighted|
    ensures OpenAt(Rendered(items, highlighted, i).body + after, depth) == Depths(items, depth) + OpenAt(after, depth)
    decreases items
  {
    if items == [] {
      assert [] + after == after;
    } else {
      var first := RenderedItem(items[0], highlighted, i);
      RenderedItemShows(items[0], highlighted, i);
      var rest := Rendered(items[1..], highlighted, first.next);
      ItemNests(items[0], highlighted, i, depth, rest.body + after);
      RenderedNests(items[1..], highlighted, first.next, depth, after);
      Regroup(first.body, rest.body, after);
      Regroup(ItemDepths(items[0], depth), Depths(items[1..], depth), OpenAt(after, depth));
    }
  }
}
