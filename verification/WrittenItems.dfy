/** What CTANGLE writes, item by item: every identifier, character, copied byte, line record and
    section number of the texts that make up a file, once and in order, and nothing else but
    closing markers, complaints and the frames of macros. */
module WrittenItems {
  import opened CFile
  import opened Expander
  import opened Expansion
  import opened Flows
  import opened TangleTokens
  import opened TextLinks

  // ---- Items and events ---------------------------------------------------------

  /** The event writes the item. */
  predicate Tells(item: Item, e: Event) {
    match item
    case Char(b) => e.Put? && e.b == b
    case Raw(b) => e.Copy? && e.b == b
    case Ident(a) => e.Word? && e.a == a
    case Section(n) => e.Mark? && e.n == n
    case Line(line, file) => e.Where? && e.line == line && e.file == file
    case Ref(_) | Defs => false
  }

  /** What is not written for an item: closing markers, complaints, and the frames of macros. */
  predicate Extra(e: Event) {
    (e.Mark? && e.n <= 0) || e.NotPresent? || e.DefineStart? || e.DefineEnd?
  }

  function Telling(es: seq<Event>): seq<Event> {
    if es == [] then [] else (if Extra(es[0]) then [] else [es[0]]) + Telling(es[1..])
  }

  predicate AllTell(items: seq<Item>, es: seq<Event>) {
    |items| == |es| && forall k :: 0 <= k < |items| ==> Tells(items[k], es[k])
  }

  lemma {:induction false} TellingAppend(a: seq<Event>, b: seq<Event>)
    ensures Telling(a + b) == Telling(a) + Telling(b)
  {
    if a == [] {
      assert a + b == b;
    } else {
      assert (a + b)[1..] == a[1..] + b;
      TellingAppend(a[1..], b);
    }
  }

  lemma TellAppend(a: seq<Item>, b: seq<Item>, d: seq<Event>, e: seq<Event>)
    requires AllTell(a, Telling(d)) && AllTell(b, Telling(e))
    ensures AllTell(a + b, Telling(d + e))
  {
    TellingAppend(d, e);
  }

  lemma TellOne(item: Item)
    requires !item.Ref? && !item.Defs? && (item.Section? ==> item.n > 0)
    ensures AllTell([item], Telling([ItemEvent(item)]))
  {
    assert [ItemEvent(item)][1..] == [];
  }

  lemma ExtraTells(e: Event)
    requires Extra(e)
    ensures AllTell([], Telling([e]))
  {
    assert [e][1..] == [];
  }

  // ---- Macros -------------------------------------------------------------------

  /** A macro without its last newline. */
  function Shown(items: seq<Item>): seq<Item> {
    if items != [] && items[|items| - 1].Char? && items[|items| - 1].b == 10 then items[..|items| - 1] else items
  }

  /** The items of the macros from text t on. */
  ghost function MacroContents(p: Program, t: nat): seq<Item>
    requires ProgramOk(p) && 1 <= t
    decreases |p.texts| - t
  {
    if t >= |p.texts| then [] else (if p.owner[t] == MACRO then Shown(p.texts[t]) else []) + MacroContents(p, t + 1)
  }

  /** The events are the macros from text t on, each between the beginning and the end of a #define line. */
  ghost predicate Defines(p: Program, t: nat, es: seq<Event>)
    requires ProgramOk(p) && 1 <= t
    decreases |p.texts| - t
  {
    if t >= |p.texts| then es == []
    else if p.owner[t] != MACRO then Defines(p, t + 1, es)
    else
      var items := Shown(p.texts[t]);
      var n := |items|;
      && |es| >= n + 2 && es[0].DefineStart? && AllTell(items, es[1..n + 1]) && es[n + 1].DefineEnd?
      && Defines(p, t + 1, es[n + 2..])
  }

  lemma {:induction false} ItemsTell(items: seq<Item>)
    requires MacroText(items)
    ensures AllTell(items, ItemEvents(items)) && Telling(ItemEvents(items)) == ItemEvents(items)
  {
    if items != [] {
      ItemsTell(items[1..]);
      assert ItemEvents(items)[1..] == ItemEvents(items[1..]);
    }
  }

  lemma MacroTells(items: seq<Item>)
    requires MacroText(items)
    ensures AllTell(Shown(items), MacroBody(items)) && AllTell(Shown(items), Telling(DefineEvents(items)))
  {
    ItemsTell(DropNewline(items));
    ExtraTells(DefineStart);
    ExtraTells(DefineEnd);
    TellAppend([], Shown(items), [DefineStart], MacroBody(items));
    TellAppend([] + Shown(items), [], [DefineStart] + MacroBody(items), [DefineEnd]);
    assert [] + Shown(items) + [] == Shown(items);
  }

  /** Every macro is written once, in order, as it was defined. */
  lemma {:induction false} MacrosTell(p: Program, t: nat)
    requires ProgramOk(p) && 1 <= t
    ensures Defines(p, t, MacroEvents(p, t)) && AllTell(MacroContents(p, t), Telling(MacroEvents(p, t)))
    decreases |p.texts| - t
  {
    hide Linked, AllTell, Telling, DefineEvents, MacroBody, Shown;
    if t >= |p.texts| {
      NothingTold();
    } else {
      MacrosTell(p, t + 1);
      var later := MacroEvents(p, t + 1);
      if p.owner[t] == MACRO {
        var items := p.texts[t];
        MacroTells(items);
        TellAppend(Shown(items), MacroContents(p, t + 1), DefineEvents(items), later);
        Framed(items, later);
      } else {
        assert [] + later == later && [] + MacroContents(p, t + 1) == MacroContents(p, t + 1);
      }
    }
  }

  lemma NothingTold()
    ensures AllTell([], Telling([]))
  {
  }

  lemma Framed(items: seq<Item>, later: seq<Event>)
    requires MacroText(items) && AllTell(Shown(items), MacroBody(items))
    ensures var es := DefineEvents(items) + later; var n := |Shown(items)|;
      && |es| >= n + 2 && es[0].DefineStart? && es[1..n + 1] == MacroBody(items) && es[n + 1].DefineEnd?
      && es[n + 2..] == later
  {
  }

  // ---- Sections -----------------------------------------------------------------

  /** The items of section a's texts, one after the other, with the items of the sections they refer
      to in the places of the references. */
  ghost function Contents(p: Program, a: nat): seq<Item>
    requires ProgramOk(p) && a < |p.rank|
    decreases p.rank[a], 2, 0
  {
    TextContents(p, a, Defined(p.owner, 0, a))
  }

  ghost function TextContents(p: Program, a: nat, ts: seq<nat>): seq<Item>
    requires ProgramOk(p) && a < |p.rank| && TextsOf(p, a, ts)
    decreases p.rank[a], 1, |ts|
  {
    if ts == [] then []
    else
      TextOk(p, ts[0]);
      ItemContents(p, a, p.texts[ts[0]]) + TextContents(p, a, ts[1..])
  }

  ghost function ItemContents(p: Program, a: nat, items: seq<Item>): seq<Item>
    requires ProgramOk(p) && a < |p.rank| && RefsBelow(items, p.equiv, p.rank, p.rank[a])
    decreases p.rank[a], 0, |items| + 1
  {
    if items == [] then [] else OneContents(p, a, items[0]) + ItemContents(p, a, items[1..])
  }

  ghost function OneContents(p: Program, a: nat, item: Item): seq<Item>
    requires ProgramOk(p) && a < |p.rank| && RefsBelow([item], p.equiv, p.rank, p.rank[a])
    decreases p.rank[a], 0, 0
  {
    match item
    case Ref(b) =>
      assert [item][0].Ref?;
      if p.equiv[b] != 0 then Contents(p, b) else []
    case Defs => MacroContents(p, 1)
    case _ => [item]
  }

  /** The expansion of a section writes its items, in order, and nothing else. */
  lemma {:induction false} ExpandTells(p: Program, a: nat)
    requires ProgramOk(p) && a < |p.rank|
    ensures AllTell(Contents(p, a), Telling(Expand(p, a).items))
    decreases p.rank[a], 2, 0
  {
    TextsTell(p, a, Defined(p.owner, 0, a));
  }

  lemma {:induction false} TextsTell(p: Program, a: nat, ts: seq<nat>)
    requires ProgramOk(p) && a < |p.rank| && TextsOf(p, a, ts)
    ensures AllTell(TextContents(p, a, ts), Telling(ExpandTexts(p, a, ts).items))
    decreases p.rank[a], 1, |ts|
  {
    hide AllTell, Telling, ProgramOk, RefsBelow;
    if ts == [] {
      NothingTold();
    } else {
      TextOk(p, ts[0]);
      var items, close := p.texts[ts[0]], Closing(p, ts[0]).items;
      TextItemsTell(p, a, items);
      TextsTell(p, a, ts[1..]);
      ExtraTells(close[0]);
      var later := ExpandTexts(p, a, ts[1..]).items;
      TellAppend([], TextContents(p, a, ts[1..]), close, later);
      assert [] + TextContents(p, a, ts[1..]) == TextContents(p, a, ts[1..]);
      TellAppend(ItemContents(p, a, items), TextContents(p, a, ts[1..]), ExpandItems(p, a, items).items, close + later);
    }
  }

  lemma {:induction false} TextItemsTell(p: Program, a: nat, items: seq<Item>)
    requires ProgramOk(p) && a < |p.rank| && RefsBelow(items, p.equiv, p.rank, p.rank[a])
    requires forall k :: 0 <= k < |items| && items[k].Section? ==> items[k].n > 0
    ensures AllTell(ItemContents(p, a, items), Telling(ExpandItems(p, a, items).items))
    decreases p.rank[a], 0, |items| + 1
  {
    hide AllTell, Telling, ProgramOk;
    if items == [] {
      NothingTold();
    } else {
      OneTells(p, a, items[0]);
      TextItemsTell(p, a, items[1..]);
      TellAppend(OneContents(p, a, items[0]), ItemContents(p, a, items[1..]),
                 ExpandItem(p, a, items[0]).items, ExpandItems(p, a, items[1..]).items);
    }
  }

  lemma {:induction false} OneTells(p: Program, a: nat, item: Item)
    requires ProgramOk(p) && a < |p.rank| && RefsBelow([item], p.equiv, p.rank, p.rank[a])
    requires item.Section? ==> item.n > 0
    ensures AllTell(OneContents(p, a, item), Telling(ExpandItem(p, a, item).items))
    decreases p.rank[a], 0, 0
  {
    hide AllTell, Telling, Linked;
    match item
    case Ref(b) =>
      assert [item][0].Ref?;
      if p.equiv[b] != 0 {
        ExpandTells(p, b);
        assert [] + Expand(p, b).items == Expand(p, b).items;
      } else {
        NothingTold();
        ExtraTells(NotPresent(b));
      }
    case Defs => MacrosTell(p, 1);
    case _ => TellOne(item);
  }

  // ---- Files --------------------------------------------------------------------

  /** The items of the main file. */
  ghost function MainContents(p: Program, outputDefsSeen: bool): seq<Item>
    requires ProgramOk(p) && 1 <= |p.link| && 1 <= |p.rank|
  {
    (if outputDefsSeen then [] else MacroContents(p, 1)) + (if p.link[0] == 0 then [] else Contents(p, 0))
  }

  lemma MainTells(p: Program, outputDefsSeen: bool)
    requires ProgramOk(p) && 1 <= |p.link| && 1 <= |p.rank|
    ensures AllTell(MainContents(p, outputDefsSeen), Telling(MainEvents(p, outputDefsSeen)))
  {
    hide AllTell, Telling, ProgramOk;
    NothingTold();
    MacrosTell(p, 1);
    ExpandTells(p, 0);
    TellAppend(if outputDefsSeen then [] else MacroContents(p, 1), if p.link[0] == 0 then [] else Contents(p, 0),
               if outputDefsSeen then [] else MacroEvents(p, 1), if p.link[0] == 0 then [] else Expand(p, 0).items);
  }

  function Idents(items: seq<Item>): seq<nat> {
    if items == [] then [] else (if items[0].Ident? then [items[0].a] else []) + Idents(items[1..])
  }

  function Words(es: seq<Event>): seq<nat> {
    if es == [] then [] else (if es[0].Word? then [es[0].a] else []) + Words(es[1..])
  }

  function Names(ps: seq<Piece>): seq<nat> {
    if ps == [] then [] else (if ps[0].NameOf? then [ps[0].a] else []) + Names(ps[1..])
  }

  lemma {:induction false} WordsTold(items: seq<Item>, es: seq<Event>)
    requires AllTell(items, Telling(es))
    ensures Words(es) == Idents(items)
  {
    if es != [] {
      if Extra(es[0]) {
        assert Telling(es) == Telling(es[1..]);
        WordsTold(items, es[1..]);
      } else {
        assert Telling(es)[0] == es[0] && Telling(es)[1..] == Telling(es[1..]);
        assert Tells(items[0], es[0]);
        WordsTold(items[1..], es[1..]);
      }
    }
  }

  /** What stands in a file apart from single characters. */
  function Solid(ps: seq<Piece>): seq<Piece> {
    if ps == [] then [] else (if ps[0].Ch? then [] else [ps[0]]) + Solid(ps[1..])
  }

  /** The names, markers, line records and definitions among the events. */
  function Landmarks(es: seq<Event>): seq<Piece> {
    if es == [] then [] else Landmark(es[0]) + Landmarks(es[1..])
  }

  function Landmark(e: Event): seq<Piece> {
    match e
    case Word(a) => [NameOf(a)]
    case Mark(n) => [Marker(n)]
    case Where(line, file) => [LineOf(line, file)]
    case DefineStart => [Define]
    case _ => []
  }

  lemma {:induction false} SolidAppend(a: seq<Piece>, b: seq<Piece>)
    ensures Solid(a + b) == Solid(a) + Solid(b)
  {
    if a == [] {
      assert a + b == b;
    } else {
      assert (a + b)[1..] == a[1..] + b;
      SolidAppend(a[1..], b);
    }
  }

  lemma {:induction false} LandmarksAppend(a: seq<Event>, b: seq<Event>)
    ensures Landmarks(a + b) == Landmarks(a) + Landmarks(b)
  {
    if a == [] {
      assert a + b == b;
    } else {
      assert (a + b)[1..] == a[1..] + b;
      LandmarksAppend(a[1..], b);
    }
  }

  lemma {:induction false} NoneSolid(bs: seq<nat>)
    ensures Solid(Chars(bs)) == []
  {
    if bs != [] {
      NoneSolid(bs[1..]);
      assert Chars(bs)[1..] == Chars(bs[1..]);
    }
  }

  lemma TextSolid(protect: bool, st: OutState, e: Event)
    ensures Solid(Text(protect, st, e)) == Landmarks([e])
  {
    assert [e][1..] == [];
    if e.Word? {
      NoneSolid(If(st.NumOrId?, SPACE));
      SolidAppend(Chars(If(st.NumOrId?, SPACE)), [NameOf(e.a)]);
      assert [NameOf(e.a)][1..] == [];
    } else if e.Put? {
      NoneSolid(If(protect, SPACE) + If(protect || st.Verbatim?, BACKSLASH) + [NEWLINE]);
      NoneSolid(If(st.NumOrId?, SPACE));
      NoneSolid(If(st.PostSlash?, SPACE) + [STAR]);
      NoneSolid(Operator(e.b));
    } else if !e.NotPresent? {
      assert Text(protect, st, e)[1..] == [];
    }
  }

  /** The names, markers, line records and beginnings of macros stand in a file in the order of its
      events, each once. */
  lemma {:induction false} RenderSolid(m: Mode, es: seq<Event>)
    ensures Solid(Render(m, es)) == Landmarks(es)
    decreases |es|
  {
    hide Text, ModeAfter;
    if es != [] {
      var n := |es| - 1;
      var before := ModeAfter(m, es[..n]);
      RenderSolid(m, es[..n]);
      TextSolid(before.protect, before.state, es[n]);
      SolidAppend(Render(m, es[..n]), Text(before.protect, before.state, es[n]));
      LandmarksAppend(es[..n], [es[n]]);
      assert es == es[..n] + [es[n]];
    }
  }

  lemma {:induction false} NamesAppend(a: seq<Piece>, b: seq<Piece>)
    ensures Names(a + b) == Names(a) + Names(b)
  {
    if a == [] {
      assert a + b == b;
    } else {
      assert (a + b)[1..] == a[1..] + b;
      NamesAppend(a[1..], b);
    }
  }

  lemma {:induction false} NamesSolid(ps: seq<Piece>)
    ensures Names(Solid(ps)) == Names(ps)
  {
    if ps != [] {
      NamesSolid(ps[1..]);
      var rest := Solid(ps[1..]);
      assert ([ps[0]] + rest)[1..] == rest && [] + rest == rest;
    }
  }

  lemma LandmarkName(e: Event)
    ensures Names(Landmark(e)) == if e.Word? then [e.a] else []
  {
    assert Landmark(e) != [] ==> Landmark(e)[1..] == [];
  }

  lemma {:induction false} NamesLandmarks(es: seq<Event>)
    ensures Names(Landmarks(es)) == Words(es)
  {
    hide Landmark;
    if es != [] {
      NamesLandmarks(es[1..]);
      LandmarkName(es[0]);
      NamesAppend(Landmark(es[0]), Landmarks(es[1..]));
    }
  }

  /** The names in a file are the words of its events. */
  lemma RenderNames(m: Mode, es: seq<Event>)
    ensures Names(Render(m, es)) == Words(es)
  {
    hide Render;
    RenderSolid(m, es);
    NamesSolid(Render(m, es));
    NamesLandmarks(es);
  }

  /** The names in the main file are the identifiers of the macros and of the unnamed program,
      with the sections that it refers to in place; nothing is left out, renamed or moved. */
  lemma MainNames(p: Program, m: Mode, outputDefsSeen: bool)
    requires ProgramOk(p) && 1 <= |p.link| && 1 <= |p.rank|
    ensures Names(Render(m, MainEvents(p, outputDefsSeen))) == Idents(MainContents(p, outputDefsSeen))
  {
    hide ProgramOk, MainEvents, MainContents, AllTell, Telling, Render;
    MainTells(p, outputDefsSeen);
    WordsTold(MainContents(p, outputDefsSeen), MainEvents(p, outputDefsSeen));
    RenderNames(m, MainEvents(p, outputDefsSeen));
  }
}
