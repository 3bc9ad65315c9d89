/** Texts made of clear tokens leave no quotation open, and neither does any file that
    is written from such texts; so what is known of the spelling holds for all of them. */
module Quotation {
  import opened CFile
  import opened Expander
  import opened Expansion
  import opened TangleTokens
  import opened TextLinks
  import opened Wrappers

  /** The delimiter that is open after some items of a text, as for events. */
  function ItemsInside(items: seq<Item>, open: nat): Option<nat> {
    if items == [] then Some(open)
    else if open == 0 then
      if items[0].Raw? then None
      else ItemsInside(items[1..], if items[0].Char? && Delimiter(items[0].b) then items[0].b else 0)
    else if items[0].Raw? || items[0] == Char(NEWLINE) then ItemsInside(items[1..], open)
    else if items[0] == Char(open) then ItemsInside(items[1..], 0)
    else None
  }

  lemma {:induction false} ItemsInsideSplit(a: seq<Item>, b: seq<Item>, open: nat)
    ensures ItemsInside(a + b, open)
         == if ItemsInside(a, open).None? then None else ItemsInside(b, ItemsInside(a, open).value)
    decreases a
  {
    if a == [] {
      assert a + b == b;
    } else {
      assert (a + b)[1..] == a[1..] + b;
      var stays := a[0].Raw? || a[0] == Char(NEWLINE);
      ItemsInsideSplit(a[1..], b, if open != 0 then (if stays then open else 0)
                                  else if a[0].Char? && Delimiter(a[0].b) then a[0].b else 0);
    }
  }

  // ---- What is stored ---------------------------------------------------------

  lemma {:induction false} BodyInside(body: seq<nat>, open: nat)
    requires open != 0
    ensures ItemsInside(Bodies(body), open) == Some(open)
  {
    if body != [] {
      BodyInside(body[1..], open);
      assert Bodies(body)[1..] == Bodies(body[1..]);
    }
  }

  lemma TokenInside(t: Token)
    requires InRange(t) && Clear(t)
    ensures ItemsInside(ItemsOne(t), 0) == Some(0)
  {
    if t.Quoted? {
      var d, b := [Char(t.delimiter)], Bodies(t.body);
      BodyInside(t.body, t.delimiter);
      assert d[1..] == [];
      ItemsInsideSplit(d, b, 0);
      ItemsInsideSplit(d + b, d, 0);
    } else {
      assert ItemsOne(t)[1..] == [];
    }
  }

  /** What clear tokens mean is well quoted. */
  lemma {:induction false} TokensInside(ts: seq<Token>)
    requires forall k :: 0 <= k < |ts| ==> InRange(ts[k]) && Clear(ts[k])
    ensures ItemsInside(Items(ts), 0) == Some(0)
  {
    if ts != [] {
      TokenInside(ts[0]);
      TokensInside(ts[1..]);
      ItemsInsideSplit(ItemsOne(ts[0]), Items(ts[1..]), 0);
    }
  }

  // ---- What is written --------------------------------------------------------

  ghost predicate Quotes(p: Program) {
    forall t :: 1 <= t < |p.texts| ==> ItemsInside(p.texts[t], 0) == Some(0)
  }

  lemma {:induction false} MacroInside(items: seq<Item>, open: nat)
    requires MacroText(items)
    ensures Inside(ItemEvents(items), open) == ItemsInside(items, open)
    decreases items
  {
    if items != [] {
      var stays := items[0].Raw? || items[0] == Char(NEWLINE);
      MacroInside(items[1..], if open != 0 then (if stays then open else 0)
                              else if items[0].Char? && Delimiter(items[0].b) then items[0].b else 0);
      assert ItemEvents(items)[1..] == ItemEvents(items[1..]);
    }
  }

  lemma DroppedInside(items: seq<Item>)
    requires ItemsInside(items, 0) == Some(0)
    ensures ItemsInside(DropNewline(items), 0) == Some(0)
  {
    if items != [] && items[|items| - 1] == Char(NEWLINE) {
      var n := |items| - 1;
      assert items == items[..n] + [Char(NEWLINE)] && [Char(NEWLINE)][1..] == [];
      ItemsInsideSplit(items[..n], [Char(NEWLINE)], 0);
    }
  }

  lemma DefineInside(items: seq<Item>)
    requires MacroText(items) && ItemsInside(items, 0) == Some(0)
    ensures Inside(DefineEvents(items), 0) == Some(0)
  {
    hide ItemsInside, ItemEvents;
    DroppedInside(items);
    MacroInside(DropNewline(items), 0);
    OneInside(DefineStart);
    OneInside(DefineEnd);
    InsideSplit([DefineStart], MacroBody(items), 0);
    InsideSplit([DefineStart] + MacroBody(items), [DefineEnd], 0);
  }

  lemma OneInside(e: Event)
    requires !e.Copy? && (e.Put? ==> !Delimiter(e.b))
    ensures Inside([e], 0) == Some(0)
  {
    assert [e][1..] == [];
  }

  lemma {:induction false} MacrosInside(p: Program, t: nat)
    requires ProgramOk(p) && Quotes(p) && 1 <= t
    ensures Inside(MacroEvents(p, t), 0) == Some(0)
    decreases |p.texts| - t
  {
    if t < |p.texts| {
      MacrosInside(p, t + 1);
      if p.owner[t] == MACRO {
        DefineInside(p.texts[t]);
        InsideSplit(DefineEvents(p.texts[t]), MacroEvents(p, t + 1), 0);
      } else {
        assert [] + MacroEvents(p, t + 1) == MacroEvents(p, t + 1);
      }
    }
  }

  /** In the expansion of a section every quotation is closed where it should be. */
  lemma {:induction false} ExpandInside(p: Program, a: nat)
    requires ProgramOk(p) && Quotes(p) && a < |p.rank|
    ensures Inside(Expand(p, a).items, 0) == Some(0)
    decreases p.rank[a], 2, 0
  {
    TextsInside(p, a, Defined(p.owner, 0, a));
  }

  lemma {:induction false} TextsInside(p: Program, a: nat, ts: seq<nat>)
    requires ProgramOk(p) && Quotes(p) && a < |p.rank| && TextsOf(p, a, ts)
    ensures Inside(ExpandTexts(p, a, ts).items, 0) == Some(0)
    decreases p.rank[a], 1, |ts|
  {
    if ts != [] {
      TextOk(p, ts[0]);
      var items := p.texts[ts[0]];
      var first, close := ExpandItems(p, a, items).items, Closing(p, ts[0]).items;
      var rest := ExpandTexts(p, a, ts[1..]).items;
      AllInside(p, a, items, 0);
      TextsInside(p, a, ts[1..]);
      OneInside(close[0]);
      InsideSplit(close, rest, 0);
      InsideSplit(first, close + rest, 0);
    }
  }

  lemma {:induction false} AllInside(p: Program, a: nat, items: seq<Item>, open: nat)
    requires ProgramOk(p) && Quotes(p) && a < |p.rank| && RefsBelow(items, p.equiv, p.rank, p.rank[a])
    requires ItemsInside(items, open).Some?
    ensures Inside(ExpandItems(p, a, items).items, open) == ItemsInside(items, open)
    decreases p.rank[a], 0, |items| + 1
  {
    if items != [] {
      var item := items[0];
      var stays := item.Raw? || item == Char(NEWLINE);
      var next := if open != 0 then (if stays then open else 0)
                  else if item.Char? && Delimiter(item.b) then item.b else 0;
      assert ItemsInside(items, open) == ItemsInside(items[1..], next);
      AllInside(p, a, items[1..], next);
      ItemInside(p, a, item, open, next);
      InsideSplit(ExpandItem(p, a, item).items, ExpandItems(p, a, items[1..]).items, open);
    }
  }

  lemma {:induction false} ItemInside(p: Program, a: nat, item: Item, open: nat, next: nat)
    requires ProgramOk(p) && Quotes(p) && a < |p.rank| && RefsBelow([item], p.equiv, p.rank, p.rank[a])
    requires if open != 0 then (if item.Raw? || item == Char(NEWLINE) then next == open
                                else item == Char(open) && next == 0)
             else !item.Raw? && next == if item.Char? && Delimiter(item.b) then item.b else 0
    ensures Inside(ExpandItem(p, a, item).items, open) == Some(next)
    decreases p.rank[a], 0, 0
  {
    match item
    case Ref(b) =>
      assert [item][0].Ref?;
      if p.equiv[b] != 0 {
        ExpandInside(p, b);
        assert [] + Expand(p, b).items == Expand(p, b).items;
      } else if b != 0 {
        OneInside(NotPresent(b));
      }
    case Defs => MacrosInside(p, 1);
    case _ =>
      assert [ItemEvent(item)][1..] == [];
  }

  /** The main file and every other file are well quoted. */
  lemma FilesInside(p: Program, outputDefsSeen: bool, section: nat, f: nat)
    requires ProgramOk(p) && Quotes(p) && p.link != [] && f < |p.rank|
    ensures 1 <= |p.rank|
    ensures WellQuoted(MainEvents(p, outputDefsSeen)) && WellQuoted(FileEvents(p, section, f))
  {
    hide ProgramOk, Quotes, Expand, MacroEvents;
    MacrosInside(p, 1);
    ExpandInside(p, 0);
    ExpandInside(p, f);
    InsideSplit(MacroEvents(p, 1), Expand(p, 0).items, 0);
    InsideSplit(Stray(section), Expand(p, 0).items, 0);
    if section > 0 {
      OneInside(Mark(-(section as int)));
    }
    var m, e := MacroEvents(p, 1), Expand(p, 0).items;
    assert [] + e == e && m + [] == m;
  }
}
