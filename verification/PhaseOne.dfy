/** CTANGLE's first phase, from the scanned tokens on: it stores macros and C texts as bytes
    and links them, and what it stores is the program that the second phase expands. */
module PhaseOne {
  import opened CFile
  import opened Expander
  import opened Expansion
  import opened Quotation
  import opened TangleTokens
  import opened TextLinks
  import opened Wrappers
  import opened WrittenItems

  const MAX_NAMES: nat := 4000
  const SPACE: nat := 32
  const CLOSING_PARENTHESIS: nat := 41

  /** What `get_next` delivers.  Identifiers, section names and files are given by their
      places in the name table; a section name and the code for the macro definitions come
      with the line and the file where they stand. */
  datatype Given =
    | Byte(c: nat)
    | Id(a: nat)
    | SectionName(a: nat, line: nat, file: nat)
    | OutputDefs(line: nat, file: nat)
    | Literal(delimiter: nat, s: seq<nat>)

  /** A macro, and whether a parenthesis follows its name; or a C text of section name p. */
  datatype Source =
    | Definition(name: nat, parenthesis: bool, body: seq<Given>)
    | Part(p: nat, number: nat, line: nat, file: nat, body: seq<Given>)

  predicate GivenOk(g: Given, macro: bool, names: nat) {
    match g
    case Byte(c) => c < 128 && !Delimiter(c)
    case Id(a) => a < names
    case SectionName(a, _, file) => !macro && a < names && file < names
    case OutputDefs(_, file) => !macro && file < names
    case Literal(d, s) => Delimiter(d) && forall k :: 0 <= k < |s| ==> s[k] < 256 && !Delimiter(s[k])
  }

  predicate SourceOk(src: Source, names: nat) {
    && (forall k :: 0 <= k < |src.body| ==> GivenOk(src.body[k], src.Definition?, names))
    && match src
       case Definition(name, _, _) => name < names
       case Part(p, number, _, file, _) => p < names && 1 <= number < 12288 && file < names
  }

  /** What a delivered token is stored as. */
  function StoredAs(g: Given, macro: bool): seq<Token> {
    match g
    case Byte(c) => [Plain(c)] + if macro && c == CLOSING_PARENTHESIS then [Plain(SPACE)] else []
    case Id(a) => [Name(a)]
    case SectionName(a, line, file) => [Reference(a), Place(line % 65536, file)]
    case OutputDefs(line, file) => [Definitions, Place(line % 65536, file)]
    case Literal(d, s) => [Quoted(d, Undouble(s))]
  }

  function AllStored(gs: seq<Given>, macro: bool): seq<Token> {
    if gs == [] then [] else StoredAs(gs[0], macro) + AllStored(gs[1..], macro)
  }

  /** What comes before the body: the name, and a space unless a parenthesis follows; or
      the section's number and place. */
  function Opening(src: Source): seq<Token> {
    match src
    case Definition(name, parenthesis, _) =>
      if parenthesis then [Name(name)] else [Name(name), Quoted(STRING, [SPACE])]
    case Part(_, number, line, file, _) => [Number(number), Place(line % 65536, file)]
  }

  function Replacement(src: Source): seq<Token> {
    Opening(src) + AllStored(src.body, src.Definition?)
  }

  /** Section name p has a C text. */
  predicate HasText(sources: seq<Source>, p: nat) {
    exists i :: 0 <= i < |sources| && sources[i].Part? && sources[i].p == p
  }

  /** No section refers to itself, directly or through others: `rank` falls along every
      reference to a section that has a text. */
  predicate Acyclic(sources: seq<Source>, rank: seq<nat>) {
    forall i, k :: 0 <= i < |sources| && sources[i].Part? && sources[i].p < |rank| && 0 <= k < |sources[i].body| ==>
      Falls(sources, rank, rank[sources[i].p], sources[i].body[k])
  }

  predicate Falls(sources: seq<Source>, rank: seq<nat>, r: nat, g: Given) {
    g.SectionName? && g.a < |rank| && g.a != UNNAMED && HasText(sources, g.a) ==> rank[g.a] < r
  }

  function OwnerOf(src: Source): int {
    if src.Part? then src.p else MACRO
  }

  /** The program that the sources make. */
  ghost predicate Makes(sources: seq<Source>, rank: seq<nat>, p: Program) {
    && |p.texts| == |p.owner| == |sources| + 1
    && p.texts[0] == [] && p.owner[0] == UNNAMED && p.rank == rank
    && (forall i :: 0 <= i < |sources| ==> p.owner[i + 1] == OwnerOf(sources[i]))
    && (forall i :: 0 <= i < |sources| ==> p.texts[i + 1] == Items(Replacement(sources[i])))
  }

  // ---- What is stored can be read back ----------------------------------------

  lemma {:induction false} EncodeAppend(a: seq<Token>, b: seq<Token>)
    ensures Encode(a + b) == Encode(a) + Encode(b)
  {
    if a == [] {
      assert a + b == b;
    } else {
      assert (a + b)[1..] == a[1..] + b;
      EncodeAppend(a[1..], b);
    }
  }

  lemma {:induction false} ItemsAppend(a: seq<Token>, b: seq<Token>)
    ensures Items(a + b) == Items(a) + Items(b)
  {
    if a == [] {
      assert a + b == b;
    } else {
      assert (a + b)[1..] == a[1..] + b;
      ItemsAppend(a[1..], b);
    }
  }

  /** Single at-signs for double ones bring in no new byte. */
  lemma {:induction false} UndoubleFrom(s: seq<nat>)
    ensures forall k :: 0 <= k < |Undouble(s)| ==> Undouble(s)[k] in s
    decreases |s|
  {
    if s != [] {
      var twice := s[0] == AT_SIGN && |s| > 1 && s[1] == AT_SIGN;
      var rest := if twice then s[2..] else s[1..];
      UndoubleFrom(rest);
      assert Undouble(s) == [s[0]] + Undouble(rest);
      forall k | 0 <= k < |Undouble(s)|
        ensures Undouble(s)[k] in s
      {
        if k > 0 {
          assert Undouble(s)[k] == Undouble(rest)[k - 1];
        }
      }
    }
  }

  /** Tokens that are read back as they were stored. */
  predicate Storable(ts: seq<Token>) {
    forall k :: 0 <= k < |ts| ==> InRange(ts[k]) && Clear(ts[k])
  }

  lemma StorableAppend(a: seq<Token>, b: seq<Token>)
    requires Storable(a) && Storable(b)
    ensures Storable(a + b)
  {
  }

  lemma GivenStorable(g: Given, macro: bool, names: nat)
    requires GivenOk(g, macro, names) && names <= MAX_NAMES
    ensures Storable(StoredAs(g, macro))
  {
    if g.Literal? {
      UndoubleFrom(g.s);
    }
  }

  lemma {:induction false} BodyStorable(gs: seq<Given>, macro: bool, names: nat)
    requires (forall k :: 0 <= k < |gs| ==> GivenOk(gs[k], macro, names)) && names <= MAX_NAMES
    ensures Storable(AllStored(gs, macro))
  {
    if gs != [] {
      GivenStorable(gs[0], macro, names);
      BodyStorable(gs[1..], macro, names);
      StorableAppend(StoredAs(gs[0], macro), AllStored(gs[1..], macro));
    }
  }

  lemma SourceStorable(src: Source, names: nat)
    requires SourceOk(src, names) && names <= MAX_NAMES
    ensures Storable(Replacement(src))
  {
    hide Undouble, GivenOk, AllStored;
    BodyStorable(src.body, src.Definition?, names);
    StorableAppend(Opening(src), AllStored(src.body, src.Definition?));
  }

  // ---- What is stored makes a program -----------------------------------------

  /** Items of a body: in a macro characters and identifiers only, in a C text no section
      number, and references to names in the table only, as the sources have them. */
  ghost predicate BodyItem(item: Item, macro: bool, gs: seq<Given>) {
    && (macro ==> item.Char? || item.Raw? || item.Ident?)
    && !item.Section?
    && (item.Ref? ==> exists k :: 0 <= k < |gs| && gs[k].SectionName? && gs[k].a == item.a)
  }

  lemma {:induction false} BodiesPlain(body: seq<nat>)
    ensures forall k :: 0 <= k < |Bodies(body)| ==> Bodies(body)[k].Char? || Bodies(body)[k].Raw?
  {
    if body != [] {
      BodiesPlain(body[1..]);
    }
  }

  lemma StoredItems(g: Given, macro: bool, names: nat)
    requires GivenOk(g, macro, names)
    ensures forall item :: item in Items(StoredAs(g, macro)) ==> BodyItem(item, macro, [g])
  {
    var ts := StoredAs(g, macro);
    assert |ts| <= 2 && ts[1..] == (if |ts| == 2 then [ts[1]] else []) && [ts[|ts| - 1]][1..] == [];
    assert Items(ts) == ItemsOne(ts[0]) + if |ts| == 2 then ItemsOne(ts[1]) + Items([]) else Items([]);
    if g.Literal? {
      BodiesPlain(Undouble(g.s));
    }
    assert g.SectionName? ==> [g][0].SectionName?;
  }

  lemma {:induction false} AllItems(gs: seq<Given>, macro: bool, names: nat)
    requires forall k :: 0 <= k < |gs| ==> GivenOk(gs[k], macro, names)
    ensures forall item :: item in Items(AllStored(gs, macro)) ==> BodyItem(item, macro, gs)
  {
    if gs != [] {
      StoredItems(gs[0], macro, names);
      AllItems(gs[1..], macro, names);
      ItemsAppend(StoredAs(gs[0], macro), AllStored(gs[1..], macro));
      forall item | item in Items(AllStored(gs, macro))
        ensures BodyItem(item, macro, gs)
      {
        if item in Items(StoredAs(gs[0], macro)) {
          assert BodyItem(item, macro, [gs[0]]);
        } else {
          assert BodyItem(item, macro, gs[1..]);
        }
      }
    }
  }

  lemma OpeningItems(src: Source)
    ensures Items(Opening(src)) ==
            if src.Part? then [Section(src.number), Line(src.line % 65536, src.file)]
            else if src.parenthesis then [Ident(src.name)]
            else [Ident(src.name), Char(STRING), Raw(SPACE), Char(STRING)]
  {
    var ts := Opening(src);
    assert [SPACE][1..] == [] && Bodies([SPACE]) == [Raw(SPACE)];
    assert ts[1..] == (if |ts| == 2 then [ts[1]] else []) && [ts[|ts| - 1]][1..] == [];
    assert Items(ts) == ItemsOne(ts[0]) + if |ts| == 2 then ItemsOne(ts[1]) + Items([]) else Items([]);
  }

  lemma MacroOk(src: Source, names: nat)
    requires SourceOk(src, names) && src.Definition?
    ensures MacroText(Items(Replacement(src)))
  {
    hide GivenOk, AllStored, Opening, Items;
    OpeningItems(src);
    ItemsAppend(Opening(src), AllStored(src.body, true));
    AllItems(src.body, true, names);
    var items, head := Items(Replacement(src)), Items(Opening(src));
    forall k | 0 <= k < |items|
      ensures items[k].Char? || items[k].Raw? || items[k].Ident?
    {
      if k >= |head| {
        var item := Items(AllStored(src.body, true))[k - |head|];
        assert items[k] == item && BodyItem(item, true, src.body);
      }
    }
  }

  lemma PartOk(src: Source, names: nat)
    requires SourceOk(src, names) && src.Part?
    ensures var items := Items(Replacement(src));
      && CText(items)
      && forall k :: 0 <= k < |items| && items[k].Ref? ==>
           exists j :: 0 <= j < |src.body| && src.body[j].SectionName? && src.body[j].a == items[k].a < names
  {
    hide GivenOk, AllStored, Opening, Items;
    OpeningItems(src);
    ItemsAppend(Opening(src), AllStored(src.body, false));
    AllItems(src.body, false, names);
    var items, rest := Items(Replacement(src)), Items(AllStored(src.body, false));
    forall k | 2 <= k < |items|
      ensures !items[k].Section?
      ensures items[k].Ref? ==>
                exists j :: 0 <= j < |src.body| && src.body[j].SectionName? && src.body[j].a == items[k].a < names
    {
      assert items[k] == rest[k - 2] && BodyItem(items[k], false, src.body);
      if items[k].Ref? {
        var j :| 0 <= j < |src.body| && src.body[j].SectionName? && src.body[j].a == items[k].a;
        NameInTable(src.body[j], names);
      }
    }
  }

  lemma NameInTable(g: Given, names: nat)
    requires GivenOk(g, false, names) && g.SectionName?
    ensures g.a < names
  {
  }

  /** A section with a chain has a text among the sources. */
  lemma Chained(sources: seq<Source>, rank: seq<nat>, p: Program, a: nat)
    requires Makes(sources, rank, p) && Linked(p.owner, p.link, p.equiv) && a < |p.equiv| && p.equiv[a] != 0
    ensures a != UNNAMED && HasText(sources, a)
  {
    Sizes(p.owner, p.link, p.equiv, a);
    var i := p.equiv[a] - 1;
    assert p.owner[i + 1] == OwnerOf(sources[i]) == a;
  }

  lemma PartRanked(sources: seq<Source>, rank: seq<nat>, names: nat, p: Program, i: nat)
    requires Makes(sources, rank, p) && Linked(p.owner, p.link, p.equiv) && |p.equiv| == |rank| == names
    requires i < |sources| && sources[i].Part? && SourceOk(sources[i], names) && Acyclic(sources, rank)
    ensures CText(p.texts[i + 1]) && RefsBelow(p.texts[i + 1], p.equiv, p.rank, rank[sources[i].p])
  {
    hide Linked, Next, Replacement, Items, GivenOk, HasText, CText;
    var src := sources[i];
    PartOk(src, names);
    var items := p.texts[i + 1];
    forall k | 0 <= k < |items| && items[k].Ref?
      ensures items[k].a < names && (p.equiv[items[k].a] != 0 ==> rank[items[k].a] < rank[src.p])
    {
      var j :| 0 <= j < |src.body| && src.body[j].SectionName? && src.body[j].a == items[k].a < names;
      if p.equiv[items[k].a] != 0 {
        Chained(sources, rank, p, items[k].a);
        assert Falls(sources, rank, rank[src.p], src.body[j]);
      }
    }
  }

  predicate SourcesOk(sources: seq<Source>, names: nat) {
    && 1 <= names <= MAX_NAMES && |sources| < SECTION_FLAG
    && forall i :: 0 <= i < |sources| ==> SourceOk(sources[i], names)
  }

  lemma MadeOk(sources: seq<Source>, rank: seq<nat>, names: nat, p: Program)
    requires Makes(sources, rank, p) && Linked(p.owner, p.link, p.equiv) && |p.equiv| == |rank| == names
    requires SourcesOk(sources, names) && Acyclic(sources, rank)
    ensures ProgramOk(p)
  {
    hide Linked, Next, Replacement, Items, SourceOk, Acyclic, RefsBelow, CText, MacroText;
    forall t | 1 <= t < |p.texts|
      ensures if p.owner[t] == MACRO then MacroText(p.texts[t])
              else CText(p.texts[t]) && 0 <= p.owner[t] < names
                   && RefsBelow(p.texts[t], p.equiv, p.rank, p.rank[p.owner[t]])
    {
      var src := sources[t - 1];
      assert p.owner[t - 1 + 1] == OwnerOf(src) && p.texts[t - 1 + 1] == Items(Replacement(src));
      if src.Part? {
        PartName(src, names);
        PartRanked(sources, rank, names, p, t - 1);
      } else {
        MacroOk(src, names);
      }
    }
  }

  lemma PartName(src: Source, names: nat)
    requires SourceOk(src, names) && src.Part?
    ensures src.p < names
  {
  }

  lemma MadeQuotes(sources: seq<Source>, rank: seq<nat>, names: nat, p: Program)
    requires Makes(sources, rank, p) && SourcesOk(sources, names)
    ensures Quotes(p)
  {
    hide Replacement, Items, SourceOk;
    forall t | 1 <= t < |p.texts|
      ensures ItemsInside(p.texts[t], 0) == Some(0)
    {
      assert p.texts[t - 1 + 1] == Items(Replacement(sources[t - 1]));
      SourceStorable(sources[t - 1], names);
      TokensInside(Replacement(sources[t - 1]));
    }
  }

  // ---- The phase --------------------------------------------------------------

  /** `scan_repl`: the tokens of a replacement text. */
  method ScanRepl(w: TokenWriter, body: seq<Given>, macro: bool, names: nat)
    returns (defsSeen: bool)
    requires w.Valid() && names <= MAX_NAMES && forall k :: 0 <= k < |body| ==> GivenOk(body[k], macro, names)
    modifies w
    ensures w.Valid() && w.tokens == old(w.tokens) + AllStored(body, macro)
    ensures defsSeen <==> exists k :: 0 <= k < |body| && body[k].OutputDefs?
  {
    hide Undouble, StoredAs, AllStored, GivenOk, Encode;
    AllStep(body, 0, macro);
    defsSeen := false;
    var i := 0;
    while i < |body|
      invariant i <= |body| && w.Valid()
      invariant w.tokens + AllStored(body[i..], macro) == old(w.tokens) + AllStored(body, macro)
      invariant defsSeen <==> exists k :: 0 <= k < i && body[k].OutputDefs?
      modifies w
    {
      ghost var before := w.tokens;
      AppGiven(w, body[i], macro, names);
      AllStep(body, i, macro);
      assert before + (StoredAs(body[i], macro) + AllStored(body[i + 1..], macro))
          == w.tokens + AllStored(body[i + 1..], macro);
      defsSeen := defsSeen || body[i].OutputDefs?;
      i := i + 1;
    }
    AllStep(body, i, macro);
    assert w.tokens + [] == w.tokens;
  }

  lemma AllStep(body: seq<Given>, i: nat, macro: bool)
    requires i <= |body|
    ensures body[0..] == body
    ensures AllStored(body[i..], macro)
         == if i == |body| then [] else StoredAs(body[i], macro) + AllStored(body[i + 1..], macro)
  {
    if i < |body| {
      assert body[i..][1..] == body[i + 1..];
    }
  }

  method AppGiven(w: TokenWriter, g: Given, macro: bool, names: nat)
    requires w.Valid() && names <= MAX_NAMES && GivenOk(g, macro, names)
    modifies w
    ensures w.Valid() && w.tokens == old(w.tokens) + StoredAs(g, macro)
  {
    match g
    case Byte(c) =>
      w.AppPlain(c);
      if macro && c == CLOSING_PARENTHESIS {
        w.AppPlain(SPACE);
      }
    case Id(a) => w.AppIdentifier(a);
    case SectionName(a, line, file) => w.AppSection(a, line, file);
    case OutputDefs(line, file) => w.AppDefinitions(line, file);
    case Literal(d, s) => w.AppQuoted(d, s);
  }

  predicate HasDefs(src: Source) {
    exists k :: 0 <= k < |src.body| && src.body[k].OutputDefs?
  }

  /** The middle and last parts of `scan_section`, but for the links. */
  method ScanSource(w: TokenWriter, src: Source, names: nat) returns (defsSeen: bool)
    requires w.Valid() && names <= MAX_NAMES && SourceOk(src, names)
    modifies w
    ensures w.Valid() && w.tokens == old(w.tokens) + Replacement(src)
    ensures defsSeen <==> HasDefs(src)
  {
    hide Undouble, AllStored, GivenOk, Encode;
    ghost var before := w.tokens;
    match src
    case Definition(name, parenthesis, body) =>
      w.AppIdentifier(name);
      if !parenthesis {
        SpaceQuoted();
        w.AppQuoted(STRING, [SPACE]);
      }
      assert w.tokens == before + Opening(src);
      defsSeen := ScanRepl(w, body, true, names);
    case Part(_, number, line, file, body) =>
      w.AppSectionNumber(number);
      w.AppPlace(line, file);
      assert w.tokens == before + Opening(src);
      defsSeen := ScanRepl(w, body, false, names);
  }

  lemma SpaceQuoted()
    ensures Undouble([SPACE]) == [SPACE]
  {
    assert [SPACE][1..] == [];
  }

  /** The token memory holds the replacement texts of the sources, one after the other. */
  ghost predicate Kept(sources: seq<Source>, tok: seq<nat>, start: seq<nat>) {
    && |start| == |sources| + 2 && start[0] == start[1] && start[|sources| + 1] == |tok|
    && forall i :: 0 <= i < |sources| ==> KeptAt(sources[i], tok, start, i + 1)
  }

  ghost predicate KeptAt(src: Source, tok: seq<nat>, start: seq<nat>, t: nat)
    requires t + 1 < |start|
  {
    start[t] <= start[t + 1] <= |tok| && tok[start[t]..start[t + 1]] == Encode(Replacement(src))
  }

  lemma KeptMore(sources: seq<Source>, tok: seq<nat>, start: seq<nat>, src: Source, tok2: seq<nat>, start2: seq<nat>)
    requires Kept(sources, tok, start)
    requires tok2 == tok + Encode(Replacement(src)) && start2 == start + [|tok2|]
    ensures Kept(sources + [src], tok2, start2)
  {
    hide Encode, Replacement;
    var more := sources + [src];
    forall i | 0 <= i < |more|
      ensures KeptAt(more[i], tok2, start2, i + 1)
    {
      if i < |sources| {
        assert more[i] == sources[i] && KeptAt(sources[i], tok, start, i + 1);
        assert tok2[start[i + 1]..start[i + 2]] == tok[start[i + 1]..start[i + 2]];
      } else {
        KeptLast(tok, start, src, tok2, start2, i + 1);
      }
    }
  }

  lemma KeptLast(tok: seq<nat>, start: seq<nat>, src: Source, tok2: seq<nat>, start2: seq<nat>, t: nat)
    requires |start| == t + 1 && start[t] == |tok|
    requires tok2 == tok + Encode(Replacement(src)) && start2 == start + [|tok2|]
    ensures KeptAt(src, tok2, start2, t)
  {
    hide Encode, Replacement;
    assert start2[t] == |tok| && start2[t + 1] == |tok2|;
    assert tok2[|tok|..] == Encode(Replacement(src));
  }

  lemma KeptHolds(sources: seq<Source>, rank: seq<nat>, names: nat, tok: seq<nat>, start: seq<nat>, p: Program)
    requires Kept(sources, tok, start) && Makes(sources, rank, p) && SourcesOk(sources, names)
    ensures |start| == |p.texts| + 1 && Holds(tok, start, p)
  {
    hide Encode, Replacement, Items, SourceOk, Read;
    forall t | 1 <= t < |p.texts|
      ensures TextAt(tok, start, p, t)
    {
      var src := sources[t - 1];
      assert p.texts[t - 1 + 1] == Items(Replacement(src)) && KeptAt(src, tok, start, t - 1 + 1);
      SourceStorable(src, names);
      RoundTrip(Replacement(src));
    }
  }

  ghost function Owners(sources: seq<Source>): seq<int> {
    [UNNAMED] + seq(|sources|, i requires 0 <= i < |sources| => OwnerOf(sources[i]))
  }

  /** The links of a macro or of a C text. */
  method AddSource(ts: Texts, src: Source, ghost sources: seq<Source>)
    requires ts.Valid() && ts.owner == Owners(sources) && |sources| + 1 < SECTION_FLAG
    requires src.Part? ==> src.p < |ts.equiv|
    modifies ts
    ensures ts.Valid() && ts.owner == Owners(sources + [src]) && |ts.equiv| == old(|ts.equiv|)
  {
    hide Linked, Next;
    if src.Part? {
      ts.AddText(src.p);
    } else {
      ts.AddMacro();
    }
  }

  /** `phase_one`: what it leaves in the memory is a program that can be expanded, made of
      the sources in their order. */
  method PhaseOne(sources: seq<Source>, names: nat, ghost rank: seq<nat>)
    returns (t: Tangler, defsSeen: bool)
    requires SourcesOk(sources, names) && |rank| == names && Acyclic(sources, rank)
    ensures fresh(t) && t.Stored() && t.outState == Normal && !t.protect
    ensures Makes(sources, rank, t.p) && Quotes(t.p) && |t.equiv| == names
    ensures defsSeen <==> exists i :: 0 <= i < |sources| && HasDefs(sources[i])
  {
    hide Linked, Next, Encode, Replacement, SourceOk, Acyclic, Kept, Quotes, Makes, HasDefs, ProgramOk, Holds;
    var w := new TokenWriter();
    var ts := new Texts(names);
    var start: seq<nat> := [0, 0];
    defsSeen := false;
    var i := 0;
    NoneKept(w.mem, start);
    assert sources[..0] == [];
    while i < |sources|
      invariant i <= |sources| && w.Valid() && ts.Valid() && Kept(sources[..i], w.mem, start)
      invariant ts.owner == Owners(sources[..i]) && |ts.equiv| == names
      invariant defsSeen <==> exists k :: 0 <= k < i && HasDefs(sources[k])
      modifies w, ts
    {
      ghost var mem0, tokens0, start0, done := w.mem, w.tokens, start, sources[..i];
      assert sources[..i + 1] == done + [sources[i]];
      var seen := ScanSource(w, sources[i], names);
      start := start + [|w.mem|];
      EncodeAppend(tokens0, Replacement(sources[i]));
      KeptMore(done, mem0, start0, sources[i], w.mem, start);
      SourceName(sources[i], names);
      AddSource(ts, sources[i], done);
      defsSeen := defsSeen || seen;
      i := i + 1;
    }
    assert sources[..i] == sources;
    ghost var p := Made(sources, rank, ts.link, ts.equiv);
    MadeOk(sources, rank, names, p);
    MadeQuotes(sources, rank, names, p);
    KeptHolds(sources, rank, names, w.mem, start, p);
    t := new Tangler(w.mem, start, ts.link, ts.equiv, p);
  }

  lemma NoneKept(tok: seq<nat>, start: seq<nat>)
    requires tok == Encode([]) && start == [0, 0]
    ensures Kept([], tok, start) && Owners([]) == [UNNAMED]
  {
  }

  lemma SourceName(src: Source, names: nat)
    requires SourceOk(src, names)
    ensures src.Part? ==> src.p < names
  {
  }

  ghost function Made(sources: seq<Source>, rank: seq<nat>, link: seq<nat>, equiv: seq<nat>): (p: Program)
    ensures Makes(sources, rank, p) && p.link == link && p.equiv == equiv && p.owner == Owners(sources)
  {
    Program([[]] + seq(|sources|, i requires 0 <= i < |sources| => Items(Replacement(sources[i]))),
            Owners(sources), link, equiv, rank)
  }

  lemma NewlineNames(ps: seq<Piece>)
    requires ps == [] || ps == [Ch(NEWLINE)]
    ensures Names(ps) == []
  {
    assert ps != [] ==> ps[1..] == [];
  }

  /** Both phases: the C files are the expansion of what the sources define. */
  method Tangle(sources: seq<Source>, names: nat, ghost rank: seq<nat>, files: seq<nat>)
    returns (main: seq<Piece>, others: seq<seq<Piece>>, endless: bool, ghost p: Program)
    requires SourcesOk(sources, names) && |rank| == names && Acyclic(sources, rank)
    requires forall k :: 0 <= k < |files| ==> 0 < files[k] < names
    ensures ProgramOk(p) && Makes(sources, rank, p) && Quotes(p) && |p.equiv| == names && 1 <= |p.link| && 1 <= |p.rank|
    ensures var seen := exists i :: 0 <= i < |sources| && HasDefs(sources[i]);
            var events := MainEvents(p, seen);
            && main == Render(Mode(Normal, false), events) + (if p.link[0] == 0 then [] else [Ch(NEWLINE)])
            && others == Files(p, Mode(ModeAfter(Mode(Normal, false), events).state, false), LastNumber(p, 0), files)
            && Names(main) == Idents(MainContents(p, seen))
    ensures endless <==> exists k :: 0 <= k < |files| && NeverEnds(p, files[k])
  {
    hide Linked, Next, SourceOk, Acyclic, Quotes, Makes, HasDefs, ProgramOk, Holds, MainEvents, Files, Render, Names,
      Idents, MainContents;
    var t, defsSeen := PhaseOne(sources, names, rank);
    p := t.p;
    main, others, endless := t.PhaseTwo(defsSeen, files);
    MainNames(p, Mode(Normal, false), defsSeen);
    NewlineNames(if p.link[0] == 0 then [] else [Ch(NEWLINE)]);
    NamesAppend(Render(Mode(Normal, false), MainEvents(p, defsSeen)), if p.link[0] == 0 then [] else [Ch(NEWLINE)]);
  }
}
