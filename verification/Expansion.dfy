/** What CTANGLE's output should be: every section reference replaced by all the texts of
    its section, in order of definition. */
module Expansion {
  import opened Flows
  import opened TangleTokens
  import opened TextLinks
  import opened Wrappers

  /** What happens on the way to the C file: a character for `out_char`, a byte copied as it
      is, an identifier, a section marker, a #line directive, the complaint that a section
      is not present, and the beginning and end of a #define line. */
  datatype Event =
    | Put(b: nat)
    | Copy(b: nat)
    | Word(a: nat)
    | Mark(n: int)
    | Where(line: nat, file: nat)
    | NotPresent(a: nat)
    | DefineStart
    | DefineEnd

  /** A program after phase one. `rank` witnesses that no section refers to itself,
      directly or through others. */
  datatype Program = Program(texts: seq<seq<Item>>, owner: seq<int>, link: seq<nat>, equiv: seq<nat>, rank: seq<nat>)

  /** A C text opens with its section number. */
  predicate CText(items: seq<Item>) {
    && items != [] && items[0].Section? && items[0].n > 0
    && forall k :: 1 <= k < |items| ==> !items[k].Section?
  }

  predicate MacroText(items: seq<Item>) {
    forall k :: 0 <= k < |items| ==> items[k].Char? || items[k].Raw? || items[k].Ident?
  }

  /** References lead to sections of lower rank than r, if to any text at all. */
  predicate RefsBelow(items: seq<Item>, equiv: seq<nat>, rank: seq<nat>, r: nat)
    requires |rank| == |equiv|
  {
    forall k :: 0 <= k < |items| && items[k].Ref? ==>
      items[k].a < |equiv| && (equiv[items[k].a] != 0 ==> rank[items[k].a] < r)
  }

  ghost predicate ProgramOk(p: Program) {
    && Linked(p.owner, p.link, p.equiv) && |p.texts| == |p.owner| && |p.rank| == |p.equiv|
    && (forall t {:trigger p.texts[t]} :: 1 <= t < |p.texts| ==>
          if p.owner[t] == MACRO then MacroText(p.texts[t])
          else CText(p.texts[t]) && RefsBelow(p.texts[t], p.equiv, p.rank, p.rank[p.owner[t]]))
  }

  ghost predicate TextsOf(p: Program, a: nat, ts: seq<nat>)
    requires |p.owner| == |p.texts|
  {
    forall k :: 0 <= k < |ts| ==> 1 <= ts[k] < |p.texts| && p.owner[ts[k]] == a
  }

  lemma TextOk(p: Program, t: nat)
    requires ProgramOk(p) && 1 <= t < |p.texts| && p.owner[t] != MACRO
    ensures CText(p.texts[t]) && 0 <= p.owner[t] < |p.rank|
    ensures |p.owner| == |p.texts| == |p.link| <= SECTION_FLAG && |p.rank| == |p.equiv|
    ensures RefsBelow(p.texts[t], p.equiv, p.rank, p.rank[p.owner[t]])
  {
  }

  /** Anything but a reference or the place of the definitions. */
  function ItemEvent(item: Item): Event
    requires !item.Ref? && !item.Defs?
  {
    match item
    case Char(b) => Put(b)
    case Raw(b) => Copy(b)
    case Ident(a) => Word(a)
    case Section(n) => Mark(n)
    case Line(line, file) => Where(line, file)
  }

  function ItemEvents(items: seq<Item>): seq<Event>
    requires MacroText(items)
  {
    if items == [] then [] else [ItemEvent(items[0])] + ItemEvents(items[1..])
  }

  /** A macro is printed without its final newline. */
  function DropNewline(items: seq<Item>): seq<Item> {
    if items != [] && items[|items| - 1] == Char(NEWLINE) then items[..|items| - 1] else items
  }

  function MacroBody(items: seq<Item>): seq<Event>
    requires MacroText(items)
  {
    ItemEvents(DropNewline(items))
  }

  function DefineEvents(items: seq<Item>): seq<Event>
    requires MacroText(items)
  {
    [DefineStart] + MacroBody(items) + [DefineEnd]
  }

  /** The macros from text t on, each once, in order. */
  ghost function MacroEvents(p: Program, t: nat): seq<Event>
    requires ProgramOk(p) && 1 <= t
    decreases |p.texts| - t
  {
    if t >= |p.texts| then []
    else (if p.owner[t] == MACRO then DefineEvents(p.texts[t]) else []) + MacroEvents(p, t + 1)
  }

  /** The closing marker of text t. */
  ghost function Closing(p: Program, t: nat): Flow<Event>
    requires ProgramOk(p) && 1 <= t < |p.texts| && p.owner[t] != MACRO
  {
    TextOk(p, t);
    Flow([Mark(-(p.texts[t][0].n as int))], 1)
  }

  /** The number of the section that holds the last text of section a; 0 if there is none. */
  ghost function LastNumber(p: Program, a: int): nat
    requires ProgramOk(p)
  {
    var ts := Defined(p.owner, 0, a);
    if ts == [] || a == MACRO then 0 else
      TextOk(p, ts[|ts| - 1]);
      p.texts[ts[|ts| - 1]][0].n
  }

  /** A text without a successor is the last of its section. */
  lemma LastText(p: Program, t: nat)
    requires ProgramOk(p) && 1 <= t < |p.texts| && p.owner[t] != MACRO && p.link[t] == SECTION_FLAG
    ensures CText(p.texts[t]) && LastNumber(p, p.owner[t]) == p.texts[t][0].n
  {
    TextOk(p, t);
    var a := p.owner[t];
    var ts := Defined(p.owner, 0, a);
    assert t in ts;
    assert Next(p.owner, t, a) == SECTION_FLAG;
    assert ts[|ts| - 1] == t;
  }

  /** The whole expansion of section a. */
  ghost function Expand(p: Program, a: nat): Flow<Event>
    requires ProgramOk(p) && a < |p.rank|
    decreases p.rank[a], 2, 0
  {
    ExpandTexts(p, a, Defined(p.owner, 0, a))
  }

  /** Texts of section a one after the other, each between its markers. */
  ghost function ExpandTexts(p: Program, a: nat, ts: seq<nat>): Flow<Event>
    requires ProgramOk(p) && a < |p.rank| && TextsOf(p, a, ts)
    decreases p.rank[a], 1, |ts|
  {
    if ts == [] then Flow([], 0)
    else
      TextOk(p, ts[0]);
      Then(ExpandItems(p, a, p.texts[ts[0]]), Then(Closing(p, ts[0]), ExpandTexts(p, a, ts[1..])))
  }

  ghost function ExpandItems(p: Program, a: nat, items: seq<Item>): Flow<Event>
    requires ProgramOk(p) && a < |p.rank| && RefsBelow(items, p.equiv, p.rank, p.rank[a])
    decreases p.rank[a], 0, |items| + 1
  {
    if items == [] then Flow([], 0)
    else Then(ExpandItem(p, a, items[0]), ExpandItems(p, a, items[1..]))
  }

  /** A reference becomes the expansion of its section, or nothing if that has no text. */
  ghost function ExpandItem(p: Program, a: nat, item: Item): Flow<Event>
    requires ProgramOk(p) && a < |p.rank| && RefsBelow([item], p.equiv, p.rank, p.rank[a])
    decreases p.rank[a], 0, 0
  {
    match item
    case Ref(b) =>
      assert [item][0].Ref?;
      if p.equiv[b] != 0 then Then(Flow([], 1), Expand(p, b))
      else Flow(if b == 0 then [] else [NotPresent(b)], 1)
    case Defs => Flow(MacroEvents(p, 1), 1)
    case other => Flow([ItemEvent(other)], 1)
  }

  /** What remains to be done for a text of section a of which `items` are left. */
  ghost function Finish(p: Program, t: nat, items: seq<Item>): Flow<Event>
    requires ProgramOk(p) && 1 <= t < |p.texts| && p.owner[t] != MACRO
    requires RefsBelow(items, p.equiv, p.rank, p.rank[p.owner[t]])
  {
    Then(ExpandItems(p, p.owner[t], items),
         Then(Closing(p, t), ExpandTexts(p, p.owner[t], Defined(p.owner, t, p.owner[t]))))
  }

  lemma LinkedNext(p: Program, t: nat)
    requires ProgramOk(p) && 1 <= t < |p.texts| && p.owner[t] != MACRO
    ensures 0 <= p.owner[t] < |p.rank| && |p.owner| <= SECTION_FLAG
    ensures p.link[t] == SECTION_FLAG ==> Defined(p.owner, t, p.owner[t]) == []
    ensures p.link[t] != SECTION_FLAG ==>
              && t < p.link[t] < |p.texts| && p.owner[p.link[t]] == p.owner[t]
              && Defined(p.owner, t, p.owner[t]) == [p.link[t]] + Defined(p.owner, p.link[t], p.owner[t])
  {
  }

  lemma LinkedFirst(p: Program, b: nat)
    requires ProgramOk(p) && b < |p.equiv| && p.equiv[b] != 0
    ensures 1 <= p.equiv[b] < |p.texts| <= SECTION_FLAG && |p.owner| == |p.texts| && p.owner[p.equiv[b]] == b
    ensures Defined(p.owner, 0, b) == [p.equiv[b]] + Defined(p.owner, p.equiv[b], b)
  {
  }

  /** A defined section's expansion is what remains to be done at the head of its chain. */
  lemma ExpandHead(p: Program, b: nat)
    requires ProgramOk(p) && b < |p.equiv| && p.equiv[b] != 0
    ensures 1 <= p.equiv[b] < |p.texts| && p.owner[p.equiv[b]] == b
    ensures RefsBelow(p.texts[p.equiv[b]], p.equiv, p.rank, p.rank[b])
    ensures Expand(p, b) == Finish(p, p.equiv[b], p.texts[p.equiv[b]])
  {
    hide ProgramOk, Defined, Next, RefsBelow, CText;
    LinkedFirst(p, b);
    TextOk(p, p.equiv[b]);
    TextsSplit(p, b, p.equiv[b]);
  }

  /** The same for the unnamed program. */
  lemma UnnamedHead(p: Program)
    requires ProgramOk(p) && p.link[0] != 0
    ensures 1 <= p.link[0] < |p.texts| == |p.owner| && p.owner[p.link[0]] == 0 < |p.rank|
    ensures RefsBelow(p.texts[p.link[0]], p.equiv, p.rank, p.rank[0])
    ensures Expand(p, 0) == Finish(p, p.link[0], p.texts[p.link[0]])
  {
    hide CText, RefsBelow;
    assert Defined(p.owner, 0, 0) == [p.link[0]] + Defined(p.owner, p.link[0], 0);
    TextsSplit(p, 0, p.link[0]);
  }

  lemma TextsSplit(p: Program, a: nat, t: nat)
    requires ProgramOk(p) && a < |p.rank| && |p.owner| <= SECTION_FLAG
    requires 1 <= t < |p.texts| && |p.owner| == |p.texts| && p.owner[t] == a
    ensures var ts := [t] + Defined(p.owner, t, a);
            TextsOf(p, a, ts) && RefsBelow(p.texts[t], p.equiv, p.rank, p.rank[a]) &&
            ExpandTexts(p, a, ts) == Finish(p, t, p.texts[t])
  {
    hide ProgramOk, Next, RefsBelow, CText;
    TextOk(p, t);
    var ts := [t] + Defined(p.owner, t, a);
    assert TextsOf(p, a, ts);
    assert ts[1..] == Defined(p.owner, t, a);
  }

  /** At the end of a text its link leads to the next text of the section. */
  lemma FinishNext(p: Program, t: nat)
    requires ProgramOk(p) && 1 <= t < |p.texts| && p.owner[t] != MACRO
    ensures RefsBelow([], p.equiv, p.rank, p.rank[p.owner[t]])
    ensures p.link[t] == SECTION_FLAG ==> Finish(p, t, []) == Closing(p, t)
    ensures p.link[t] != SECTION_FLAG ==>
              && t < p.link[t] < |p.texts| && p.owner[p.link[t]] == p.owner[t]
              && RefsBelow(p.texts[p.link[t]], p.equiv, p.rank, p.rank[p.owner[t]])
              && Finish(p, t, []) == Then(Closing(p, t), Finish(p, p.link[t], p.texts[p.link[t]]))
  {
    hide ProgramOk, Defined, Next, CText, Finish;
    LinkedNext(p, t);
    TextOk(p, t);
    FinishEmpty(p, t);
    if p.link[t] != SECTION_FLAG {
      TextsSplit(p, p.owner[t], p.link[t]);
    }
  }

  lemma FinishEmpty(p: Program, t: nat)
    requires ProgramOk(p) && 1 <= t < |p.texts| && p.owner[t] != MACRO
    requires |p.owner| == |p.texts| <= SECTION_FLAG && 0 <= p.owner[t] < |p.rank| && |p.rank| == |p.equiv|
    ensures TextsOf(p, p.owner[t], Defined(p.owner, t, p.owner[t]))
    ensures RefsBelow([], p.equiv, p.rank, p.rank[p.owner[t]])
    ensures var later := ExpandTexts(p, p.owner[t], Defined(p.owner, t, p.owner[t]));
            Finish(p, t, []) == Then(Closing(p, t), later)
    ensures Defined(p.owner, t, p.owner[t]) == [] ==> Finish(p, t, []) == Closing(p, t)
  {
    hide ProgramOk, Next, CText;
    var later := ExpandTexts(p, p.owner[t], Defined(p.owner, t, p.owner[t]));
    var rest := Then(Closing(p, t), later);
    assert [] + rest.items == rest.items;
    assert Closing(p, t).items + [] == Closing(p, t).items;
  }

  /** One item less to do. */
  lemma FinishItem(p: Program, t: nat, items: seq<Item>)
    requires ProgramOk(p) && 1 <= t < |p.texts| && p.owner[t] != MACRO && items != []
    requires RefsBelow(items, p.equiv, p.rank, p.rank[p.owner[t]])
    ensures RefsBelow(items[1..], p.equiv, p.rank, p.rank[p.owner[t]])
    ensures RefsBelow([items[0]], p.equiv, p.rank, p.rank[p.owner[t]])
    ensures Finish(p, t, items) == Then(ExpandItem(p, p.owner[t], items[0]), Finish(p, t, items[1..]))
  {
    var a := p.owner[t];
    ThenAssoc(ExpandItem(p, a, items[0]), ExpandItems(p, a, items[1..]),
              Then(Closing(p, t), ExpandTexts(p, a, Defined(p.owner, t, a))));
  }

  // ---- Section markers --------------------------------------------------------

  /** The markers that are open after some events, or None if one was closed out of turn. */
  function Nest(es: seq<Event>, open: seq<int>): Option<seq<int>> {
    if es == [] then Some(open)
    else if !es[0].Mark? then Nest(es[1..], open)
    else if es[0].n > 0 then Nest(es[1..], open + [es[0].n])
    else if open != [] && open[|open| - 1] == -es[0].n then Nest(es[1..], open[..|open| - 1])
    else None
  }

  lemma {:induction false} NestSplit(a: seq<Event>, b: seq<Event>, open: seq<int>)
    requires Nest(a, open).Some?
    ensures Nest(a + b, open) == Nest(b, Nest(a, open).value)
  {
    if a == [] {
      assert a + b == b;
    } else {
      assert (a + b)[1..] == a[1..] + b;
      NestSplit(a[1..], b,
                if !a[0].Mark? then open else if a[0].n > 0 then open + [a[0].n] else open[..|open| - 1]);
    }
  }

  predicate Unmarked(es: seq<Event>) {
    forall k :: 0 <= k < |es| ==> !es[k].Mark?
  }

  lemma {:induction false} UnmarkedNest(es: seq<Event>, open: seq<int>)
    requires Unmarked(es)
    ensures Nest(es, open) == Some(open)
  {
    if es != [] {
      UnmarkedNest(es[1..], open);
    }
  }

  lemma {:induction false} MacroUnmarked(items: seq<Item>)
    requires MacroText(items)
    ensures Unmarked(ItemEvents(items))
  {
    if items != [] {
      MacroUnmarked(items[1..]);
    }
  }

  lemma {:induction false} MacrosUnmarked(p: Program, t: nat)
    requires ProgramOk(p) && 1 <= t
    ensures Unmarked(MacroEvents(p, t))
    decreases |p.texts| - t
  {
    if t < |p.texts| {
      MacrosUnmarked(p, t + 1);
      if p.owner[t] == MACRO {
        MacroUnmarked(DropNewline(p.texts[t]));
      }
    }
  }

  /** In the expansion of a section the markers are well nested: every opening marker is
      closed by the closing marker with the same number, in the right order. */
  lemma {:induction false} ExpandNested(p: Program, a: nat, open: seq<int>)
    requires ProgramOk(p) && a < |p.rank|
    ensures Nest(Expand(p, a).items, open) == Some(open)
    decreases p.rank[a], 2, 0
  {
    TextsNested(p, a, Defined(p.owner, 0, a), open);
  }

  lemma {:induction false} TextsNested(p: Program, a: nat, ts: seq<nat>, open: seq<int>)
    requires ProgramOk(p) && a < |p.rank| && TextsOf(p, a, ts)
    ensures Nest(ExpandTexts(p, a, ts).items, open) == Some(open)
    decreases p.rank[a], 1, |ts|
  {
    hide Nest;
    if ts == [] {
      UnmarkedNest([], open);
    } else {
      TextOk(p, ts[0]);
      var items := p.texts[ts[0]];
      var n: int := items[0].n;
      var inside, rest := ExpandItems(p, a, items[1..]).items, ExpandTexts(p, a, ts[1..]).items;
      ItemsNested(p, a, items[1..], open + [n]);
      TextsNested(p, a, ts[1..], open);
      Bracketed(n, inside, rest, open);
      assert ExpandItems(p, a, items).items == [Mark(n)] + inside;
    }
  }

  /** Between its markers, nested events are nested. */
  lemma Bracketed(n: int, inside: seq<Event>, rest: seq<Event>, open: seq<int>)
    requires n > 0 && Nest(inside, open + [n]) == Some(open + [n]) && Nest(rest, open) == Some(open)
    ensures Nest([Mark(n)] + inside + ([Mark(-n)] + rest), open) == Some(open)
  {
    var close := [Mark(-n)];
    assert [Mark(n)][1..] == [] && close[1..] == [];
    assert Nest([Mark(n)], open) == Some(open + [n]);
    assert (open + [n])[..|open|] == open;
    assert Nest(close, open + [n]) == Some(open);
    hide Nest;
    NestSplit([Mark(n)], inside, open);
    NestSplit([Mark(n)] + inside, close + rest, open);
    NestSplit(close, rest, open + [n]);
  }

  lemma {:induction false} ItemsNested(p: Program, a: nat, items: seq<Item>, open: seq<int>)
    requires ProgramOk(p) && a < |p.rank| && RefsBelow(items, p.equiv, p.rank, p.rank[a])
    requires forall k :: 0 <= k < |items| ==> !items[k].Section?
    ensures Nest(ExpandItems(p, a, items).items, open) == Some(open)
    decreases p.rank[a], 0, |items| + 1
  {
    if items != [] {
      ItemsNested(p, a, items[1..], open);
      ItemNested(p, a, items[0], open);
      NestSplit(ExpandItem(p, a, items[0]).items, ExpandItems(p, a, items[1..]).items, open);
    }
  }

  lemma {:induction false} ItemNested(p: Program, a: nat, item: Item, open: seq<int>)
    requires ProgramOk(p) && a < |p.rank| && RefsBelow([item], p.equiv, p.rank, p.rank[a]) && !item.Section?
    ensures Nest(ExpandItem(p, a, item).items, open) == Some(open)
    decreases p.rank[a], 0, 0
  {
    match item
    case Ref(b) =>
      assert [item][0].Ref?;
      if p.equiv[b] != 0 {
        ExpandNested(p, b, open);
        assert ExpandItem(p, a, item).items == Expand(p, b).items;
      }
    case Defs =>
      MacrosUnmarked(p, 1);
      UnmarkedNest(MacroEvents(p, 1), open);
    case _ =>
  }
}
