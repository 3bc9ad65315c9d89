/** The codes that move the left margin: whatever the input, every move to the right is undone,
    except that a function heading leaves the margin two steps to the right for what follows, and
    the margin is never left of where the text began. */
module Indentation {
  import opened Productions
  import opened TokenMemory
  import opened Reductions
  import opened MathModes
  import opened ReductionLaws
  import opened Parse
  import opened Conservation
  import opened WeaveReading
  import opened Wrappers

  /** The margin after some marks, in steps; None if it is moved too far to the left. */
  function Margin(marks: seq<Mark>, k: nat): Option<nat> {
    if marks == [] then Some(k)
    else if marks[0] == Control(INDENT) then Margin(marks[1..], k + 1)
    else if marks[0] == Control(OUTDENT) then (if k == 0 then None else Margin(marks[1..], k - 1))
    else Margin(marks[1..], k)
  }

  /** How far right a scrap of some category leaves the margin. */
  function Net(c: Category): nat {
    if c.FnDecl? then 2 else 0
  }

  lemma {:induction false} MarginAppend(a: seq<Mark>, b: seq<Mark>, k: nat)
    requires Margin(a, k).Some?
    ensures Margin(a + b, k) == Margin(b, Margin(a, k).value)
  {
    if a == [] {
      assert a + b == b;
    } else {
      assert (a + b)[1..] == a[1..] + b;
      MarginAppend(a[1..], b, if a[0] == Control(INDENT) then k + 1 else if a[0] == Control(OUTDENT) then k - 1 else k);
    }
  }

  lemma {:induction false} MarginShift(marks: seq<Mark>, k: nat, i: nat)
    requires Margin(marks, k).Some?
    ensures Margin(marks, k + i) == Some(Margin(marks, k).value + i)
  {
    if marks != [] {
      MarginShift(marks[1..],
                  if marks[0] == Control(INDENT) then k + 1 else if marks[0] == Control(OUTDENT) then k - 1 else k, i);
    }
  }

  lemma {:induction false} MarginStill(marks: seq<Mark>, k: nat)
    requires forall m :: m in marks ==> !m.Control?
    ensures Margin(marks, k) == Some(k)
  {
    if marks != [] {
      MarginStill(marks[1..], k);
    }
  }

  // ---- The table of productions -------------------------------------------------

  /** How far a character moves the margin, by its code. */
  function Shift(c: nat): int {
    if c == INDENT then 1 else if c == OUTDENT then -1 else 0
  }

  function OpShift(op: Op): int {
    match op
    case Big(g) => GlyphShift(g)
    case Raw(g) => GlyphShift(g)
    case Twice(g) => 2 * GlyphShift(g)
  }

  function GlyphShift(g: Glyph): int {
    if g.IndentCode? then 1 else if g.OutdentCode? then -1 else 0
  }

  lemma GlyphShifts(g: Glyph)
    ensures Shift(Code(g)) == GlyphShift(g)
  {
  }

  function OpAt(ops: seq<Op>, i: nat): int {
    if i < |ops| then OpShift(ops[i]) else 0
  }

  /** Up to three calls, and what they do to margin k; none of them moves it too far left. */
  function OpsSum(ops: seq<Op>): int {
    OpAt(ops, 0) + OpAt(ops, 1) + OpAt(ops, 2)
  }

  predicate OpsOk(ops: seq<Op>, k: int) {
    |ops| <= 3 && k >= 0 && k + OpAt(ops, 0) >= 0 && k + OpAt(ops, 0) + OpAt(ops, 1) >= 0 && k + OpsSum(ops) >= 0
  }

  /** The scraps that are appended, and the calls behind each. */
  function PartAt(parts: seq<Part>, i: nat, cats: seq<Category>): int {
    if i < |parts| && parts[i].i < |cats| then Net(cats[parts[i].i]) + OpsSum(parts[i].after) else 0
  }

  predicate PartOk(parts: seq<Part>, i: nat, cats: seq<Category>, k: int) {
    i < |parts| ==> parts[i].i < |cats| && OpsOk(parts[i].after, k + Net(cats[parts[i].i]))
  }

  /** A production keeps the margin: the text that it builds moves it as the new category should. */
  predicate Even(cats: seq<Category>, p: Production)
    requires |cats| == 4
  {
    match p
    case Idle => true
    case Angle(_, _, _) => true
    case Squash(off, k, cat, _, _) =>
      && 1 <= k && off + k <= 4
      && Net(cat) == Net(cats[off]) + (if k >= 2 then Net(cats[off + 1]) else 0)
                     + (if k >= 3 then Net(cats[off + 2]) else 0) + (if k >= 4 then Net(cats[off + 3]) else 0)
    case Build(before, parts, _, _, cat, _, _) => BuildEven(cats, before, parts, cat)
    case Reserve(_, before, parts, _, _, cat, _, _) => BuildEven(cats, before, parts, cat)
  }

  predicate BuildEven(cats: seq<Category>, before: seq<Op>, parts: seq<Part>, cat: Category) {
    var k0 := OpsSum(before);
    var k1 := k0 + PartAt(parts, 0, cats);
    var k2 := k1 + PartAt(parts, 1, cats);
    var k3 := k2 + PartAt(parts, 2, cats);
    && |parts| <= 4 && OpsOk(before, 0)
    && PartOk(parts, 0, cats, k0) && PartOk(parts, 1, cats, k1) && PartOk(parts, 2, cats, k2)
    && PartOk(parts, 3, cats, k3) && k3 + PartAt(parts, 3, cats) == Net(cat)
  }

  lemma EvenExp(c1: Category, c2: Category, c3: Category)
    ensures Even([Exp, c1, c2, c3], ExpCases(c1, c2, c3))
  {
    hide Sane;
  }

  lemma EvenLpar(c1: Category, c2: Category, c3: Category)
    ensures Even([Lpar, c1, c2, c3], LparCases(c1, c2, c3))
  {
    hide Sane;
  }

  lemma EvenIntLike(c1: Category, c2: Category, c3: Category)
    ensures Even([IntLike, c1, c2, c3], IntLikeCases(c1, c2, c3))
  {
    hide Sane;
  }

  lemma EvenDeclHead(c1: Category, c2: Category, c3: Category)
    ensures Even([DeclHead, c1, c2, c3], DeclHeadCases(c1, c2, c3))
  {
    hide Sane;
  }

  lemma EvenLbrace(c1: Category, c2: Category, c3: Category)
    ensures Even([Lbrace, c1, c2, c3], LbraceCases(c1, c2, c3))
  {
    hide Sane;
  }

  lemma EvenLangle(c1: Category, c2: Category, c3: Category)
    ensures Even([Langle, c1, c2, c3], LangleCases(c1, c2, c3))
  {
    hide Sane;
  }

  lemma EvenStructHead(c1: Category, c2: Category, c3: Category)
    ensures Even([StructHead, c1, c2, c3], StructHeadCases(c1, c2, c3))
  {
    hide Sane;
  }

  lemma EvenIfClause(c1: Category, c2: Category, c3: Category)
    ensures Even([IfClause, c1, c2, c3], IfClauseCases(c1, c2, c3))
  {
    hide Sane;
  }

  lemma EvenIfHead(c1: Category, c2: Category, c3: Category)
    ensures Even([IfHead, c1, c2, c3], IfHeadCases(c1, c2, c3))
  {
    hide Sane;
  }

  lemma EvenLproc(c1: Category, c2: Category, c3: Category)
    ensures Even([Lproc, c1, c2, c3], LprocCases(c1, c2, c3))
  {
    hide Sane;
  }

  lemma EvenOperators(c1: Category, c2: Category, c3: Category)
    ensures Even([Question, c1, c2, c3], QuestionCases(c1, c2, c3))
    ensures Even([Unop, c1, c2, c3], UnopCases(c1, c2, c3))
    ensures Even([Unorbinop, c1, c2, c3], UnorbinopCases(c1, c2, c3))
  {
    hide Sane;
  }

  lemma EvenOperands(c1: Category, c2: Category, c3: Category)
    ensures Even([Binop, c1, c2, c3], BinopCases(c1, c2, c3))
    ensures Even([Cast, c1, c2, c3], CastCases(c1, c2, c3))
    ensures Even([SizeofLike, c1, c2, c3], SizeofLikeCases(c1, c2, c3))
  {
    hide Sane;
  }

  lemma EvenColcol(c1: Category, c2: Category, c3: Category)
    ensures Even([Colcol, c1, c2, c3], ColcolCases(c1, c2, c3))
  {
    hide Sane;
  }

  lemma EvenNewLike(c1: Category, c2: Category, c3: Category)
    ensures Even([NewLike, c1, c2, c3], NewLikeCases(c1, c2, c3))
  {
    hide Sane;
  }

  lemma EvenOperatorLike(c1: Category, c2: Category, c3: Category)
    ensures Even([OperatorLike, c1, c2, c3], OperatorLikeCases(c1, c2, c3))
  {
    hide Sane;
  }

  lemma EvenRaw(c1: Category, c2: Category, c3: Category)
    ensures Even([RawRpar, c1, c2, c3], RawRparCases(c1, c2, c3))
    ensures Even([RawUnorbin, c1, c2, c3], RawUnorbinCases(c1, c2, c3))
    ensures Even([RawInt, c1, c2, c3], RawIntCases(c1, c2, c3))
  {
    hide Sane;
  }

  lemma EvenBrackets(c1: Category, c2: Category, c3: Category)
    ensures Even([ConstLike, c1, c2, c3], ConstLikeCases(c1, c2, c3))
    ensures Even([Prelangle, c1, c2, c3], PrelangleCases(c1, c2, c3))
    ensures Even([Prerangle, c1, c2, c3], PrerangleCases(c1, c2, c3))
  {
    hide Sane;
  }

  lemma EvenSingle(c1: Category, c2: Category, c3: Category)
    ensures Even([SectionScrap, c1, c2, c3], SectionScrapCases(c1, c2, c3))
    ensures Even([Insert, c1, c2, c3], InsertCases(c1, c2, c3))
    ensures Even([Semi, c1, c2, c3], SemiCases(c1, c2, c3))
    ensures Even([PublicLike, c1, c2, c3], PublicLikeCases(c1, c2, c3))
  {
    hide Sane;
  }

  lemma EvenDeclarations(c1: Category, c2: Category, c3: Category)
    ensures Even([Decl, c1, c2, c3], DeclCases(c1, c2, c3))
    ensures Even([TypedefLike, c1, c2, c3], TypedefLikeCases(c1, c2, c3))
  {
    hide Sane;
  }

  lemma EvenStructs(c1: Category, c2: Category, c3: Category)
    ensures Even([StructLike, c1, c2, c3], StructLikeCases(c1, c2, c3))
  {
    hide Sane;
  }

  lemma EvenFunctions(c1: Category, c2: Category, c3: Category)
    ensures Even([FnDecl, c1, c2, c3], FnDeclCases(c1, c2, c3))
    ensures Even([Function, c1, c2, c3], FunctionCases(c1, c2, c3))
  {
    hide Sane;
  }

  lemma EvenBases(c1: Category, c2: Category, c3: Category)
    ensures Even([CatchLike, c1, c2, c3], CatchLikeCases(c1, c2, c3))
    ensures Even([Base, c1, c2, c3], BaseCases(c1, c2, c3))
  {
    hide Sane;
  }

  lemma EvenLoops(c1: Category, c2: Category, c3: Category)
    ensures Even([DoLike, c1, c2, c3], DoLikeCases(c1, c2, c3))
    ensures Even([IfLike, c1, c2, c3], IfLikeCases(c1, c2, c3))
    ensures Even([ForLike, c1, c2, c3], ForLikeCases(c1, c2, c3))
  {
    hide Sane;
  }

  lemma EvenAlternatives(c1: Category, c2: Category, c3: Category)
    ensures Even([ElseLike, c1, c2, c3], ElseLikeCases(c1, c2, c3))
    ensures Even([ElseHead, c1, c2, c3], ElseHeadCases(c1, c2, c3))
  {
    hide Sane;
  }

  lemma EvenCaseLike(c1: Category, c2: Category, c3: Category)
    ensures Even([CaseLike, c1, c2, c3], CaseLikeCases(c1, c2, c3))
  {
    hide Sane;
  }

  lemma EvenLabels(c1: Category, c2: Category, c3: Category, forceLines: bool)
    ensures Even([Tag, c1, c2, c3], TagCases(c1, c2, c3))
    ensures Even([Stmt, c1, c2, c3], StmtCases(c1, c2, c3, forceLines))
  {
    hide Sane;
  }

  lemma EvenRules(c0: Category, c1: Category, c2: Category, c3: Category, forceLines: bool)
    ensures Even([c0, c1, c2, c3], Rules(c0, c1, c2, c3, forceLines))
  {
    hide Sane, BuildEven, Even, ExpCases, LparCases, QuestionCases, UnopCases, UnorbinopCases, BinopCases,
      CastCases, SizeofLikeCases, LangleCases, ColcolCases, NewLikeCases, OperatorLikeCases,
      RawRparCases, RawUnorbinCases, PrelangleCases, PrerangleCases, CatchLikeCases, IntLikeCases,
      DeclHeadCases, DeclCases, TypedefLikeCases, StructLikeCases, StructHeadCases, FnDeclCases,
      FunctionCases, BaseCases, LbraceCases, DoLikeCases, IfLikeCases, ForLikeCases,
      ElseLikeCases, IfClauseCases, IfHeadCases, ElseHeadCases, CaseLikeCases, StmtCases,
      TagCases, SemiCases, LprocCases, SectionScrapCases, InsertCases, PublicLikeCases,
      ConstLikeCases, RawIntCases;
    match c0
    case Exp => EvenExp(c1, c2, c3);
    case Lpar => EvenLpar(c1, c2, c3);
    case IntLike => EvenIntLike(c1, c2, c3);
    case DeclHead => EvenDeclHead(c1, c2, c3);
    case Lbrace => EvenLbrace(c1, c2, c3);
    case Langle => EvenLangle(c1, c2, c3);
    case StructHead => EvenStructHead(c1, c2, c3);
    case IfClause => EvenIfClause(c1, c2, c3);
    case IfHead => EvenIfHead(c1, c2, c3);
    case Lproc => EvenLproc(c1, c2, c3);
    case Question | Unop | Unorbinop => EvenOperators(c1, c2, c3);
    case Binop | Cast | SizeofLike => EvenOperands(c1, c2, c3);
    case Colcol => EvenColcol(c1, c2, c3);
    case NewLike => EvenNewLike(c1, c2, c3);
    case OperatorLike => EvenOperatorLike(c1, c2, c3);
    case RawRpar | RawUnorbin | RawInt => EvenRaw(c1, c2, c3);
    case ConstLike | Prelangle | Prerangle => EvenBrackets(c1, c2, c3);
    case SectionScrap | Insert | Semi | PublicLike => EvenSingle(c1, c2, c3);
    case Decl | TypedefLike => EvenDeclarations(c1, c2, c3);
    case StructLike => EvenStructs(c1, c2, c3);
    case FnDecl | Function => EvenFunctions(c1, c2, c3);
    case CatchLike | Base => EvenBases(c1, c2, c3);
    case DoLike | IfLike | ForLike => EvenLoops(c1, c2, c3);
    case ElseLike | ElseHead => EvenAlternatives(c1, c2, c3);
    case CaseLike => EvenCaseLike(c1, c2, c3);
    case Tag | Stmt => EvenLabels(c1, c2, c3, forceLines);
    case _ => EvenIdle([c0, c1, c2, c3]);
  }

  lemma EvenIdle(cats: seq<Category>)
    requires |cats| == 4
    ensures Even(cats, Idle)
  {
  }

  /** Every production keeps the margin, but for those at the end of a macro argument, which take
      whatever stands before it. */
  lemma EvenChoose(c0: Category, c1: Category, c2: Category, c3: Category, forceLines: bool)
    requires c0 != Blank && (c1 == Blank ==> c2 == Blank) && (c2 == Blank ==> c3 == Blank) && !c1.EndArg?
    ensures Even([c0, c1, c2, c3], Choose(c0, c1, c2, c3, forceLines))
  {
    hide Sane, Rules;
    EvenRules(c0, c1, c2, c3, forceLines);
  }

  // ---- Building a text ----------------------------------------------------------

  /** The builder has moved the margin to l. */
  ghost predicate GoodAt(w: World, demand: seq<nat>, b: Builder, cov: seq<Mark>, l: nat) {
    Good(w, demand, b, cov) && Margin(FlatTokens(w, b.toks, w.mem.Count()), 0) == Some(l)
  }

  lemma CharMargin(c: nat, k: nat)
    requires c != DOLLAR && k + Shift(c) >= 0
    ensures Margin(CharMarks(c), k) == Some(k + Shift(c))
  {
    assert [Control(c)][1..] == [];
  }

  lemma AppCharAt(w: World, demand: seq<nat>, b: Builder, cov: seq<Mark>, l: nat, c: nat)
    requires GoodAt(w, demand, b, cov, l) && c != DOLLAR && (Wants(c) == MAYBE_MATH || Wants(c) == b.cur)
    requires l + Shift(c) >= 0
    ensures GoodAt(w, demand, AppChar(b, c), cov, l + Shift(c))
  {
    hide Good, Margin, Flat, FlatTokens, CharMarks, Wants, Shift;
    var n := w.mem.Count();
    AppCharGood(w, demand, b, cov, c);
    GoodText0(w, demand, b, cov);
    FlatOne(w, Ch(c), n);
    FlatTokensAppend(w, b.toks, [Ch(c)], n);
    CharMargin(c, l);
    MarginAppend(FlatTokens(w, b.toks, n), CharMarks(c), 0);
  }

  lemma GoodText0(w: World, demand: seq<nat>, b: Builder, cov: seq<Mark>)
    requires Good(w, demand, b, cov)
    ensures w.mem.Valid() && Composite(b.toks, w.mem.Count()) && b.init <= 2 && b.cur <= 2
  {
  }

  lemma SwitchMargin(w: World, demand: seq<nat>, b: Builder, cov: seq<Mark>, l: nat, needed: nat)
    requires GoodAt(w, demand, b, cov, l) && 1 <= needed <= 2
    ensures w.mem.Valid() && Composite(b.toks, w.mem.Count()) && Composite(Switch(b.cur, needed), w.mem.Count())
    ensures Margin(FlatTokens(w, b.toks + Switch(b.cur, needed), w.mem.Count()), 0) == Some(l)
  {
    hide Good, Flat, FlatTokens;
    var n := w.mem.Count();
    GoodText0(w, demand, b, cov);
    FlatSwitch(w, b.cur, needed);
    FlatTokensAppend(w, b.toks, Switch(b.cur, needed), n);
    MarginStill(FlatTokens(w, Switch(b.cur, needed), n), l);
    MarginAppend(FlatTokens(w, b.toks, n), FlatTokens(w, Switch(b.cur, needed), n), 0);
  }

  lemma BigAppAt(w: World, demand: seq<nat>, b: Builder, cov: seq<Mark>, l: nat, g: Glyph)
    requires GoodAt(w, demand, b, cov, l) && l + GlyphShift(g) >= 0
    ensures GoodAt(w, demand, BigApp(b, Code(g)), cov, l + GlyphShift(g))
  {
    hide Good, Margin, Flat, FlatTokens, CharMarks, Wants, Shift, Switch, GlyphShift;
    var n := w.mem.Count();
    var needed := if IsLayout(Code(g)) then NO_MATH else YES_MATH;
    var toks := b.toks + Switch(b.cur, needed);
    BigAppGood(w, demand, b, cov, g);
    SwitchMargin(w, demand, b, cov, l, needed);
    FlatOne(w, Ch(Code(g)), n);
    FlatTokensAppend(w, toks, [Ch(Code(g))], n);
    GlyphShifts(g);
    CharMargin(Code(g), l);
    MarginAppend(FlatTokens(w, toks, n), CharMarks(Code(g)), 0);
  }

  lemma OpAt1(w: World, demand: seq<nat>, b: Builder, cov: seq<Mark>, l: nat, op: Op)
    requires GoodAt(w, demand, b, cov, l) && l + OpShift(op) >= 0
    ensures GoodAt(w, demand, Apply(b, op), cov, l + OpShift(op))
  {
    hide GoodAt, BigApp, AppChar, Wants;
    match op
    case Big(g) => BigAppAt(w, demand, b, cov, l, g);
    case Raw(g) =>
      GlyphShifts(g);
      AppCharAt(w, demand, b, cov, l, Code(g));
    case Twice(g) => TwiceAt(w, demand, b, cov, l, g);
  }

  lemma TwiceAt(w: World, demand: seq<nat>, b: Builder, cov: seq<Mark>, l: nat, g: Glyph)
    requires GoodAt(w, demand, b, cov, l) && l + 2 * GlyphShift(g) >= 0
    ensures GoodAt(w, demand, AppChar(BigApp(b, Code(g)), Code(g)), cov, l + 2 * GlyphShift(g))
  {
    hide Good, BigApp, AppChar, Wants, Margin, FlatTokens;
    BigAppGood(w, demand, b, cov, g);
    BigAppAt(w, demand, b, cov, l, g);
    GlyphShifts(g);
    AppCharAt(w, demand, BigApp(b, Code(g)), cov, l + GlyphShift(g), Code(g));
  }

  lemma {:induction false} OpsAt(w: World, demand: seq<nat>, b: Builder, cov: seq<Mark>, l: nat, ops: seq<Op>)
    requires GoodAt(w, demand, b, cov, l) && OpsOk(ops, l)
    ensures GoodAt(w, demand, ApplyAll(b, ops), cov, l + OpsSum(ops))
    decreases ops
  {
    hide GoodAt, Apply;
    if ops != [] {
      OpAt1(w, demand, b, cov, l, ops[0]);
      OpsAt(w, demand, Apply(b, ops[0]), cov, l + OpShift(ops[0]), ops[1..]);
    }
  }

  /** A scrap's text moves the margin as its category says. */
  ghost predicate ScrapEven(w: World, x: Scrap)
    requires w.mem.Valid() && x.trans < w.mem.Count()
  {
    Margin(Flat(w, x.trans), 0) == Some(Net(x.cat))
  }

  ghost predicate AllEven(w: World, live: seq<Scrap>)
    requires w.mem.Valid() && InMemory(live, w.mem)
  {
    forall i :: 0 <= i < |live| ==> ScrapEven(w, live[i])
  }

  lemma BigApp1At(w: World, demand: seq<nat>, b: Builder, cov: seq<Mark>, l: nat, x: Scrap)
    requires GoodAt(w, demand, b, cov, l) && x.trans < w.mem.Count()
    requires Sound(demand, Flat(w, x.trans), x.mathness % 4, x.mathness / 4) && ScrapEven(w, x)
    ensures GoodAt(w, demand, BigApp1(b, x), cov + Covers(Flat(w, x.trans)), l + Net(x.cat))
  {
    hide Good, Margin, Flat, FlatTokens, Sound, Switch;
    var n, left := w.mem.Count(), x.mathness % 4;
    BigApp1Good(w, demand, b, cov, x);
    GoodText0(w, demand, b, cov);
    SoundModes(demand, Flat(w, x.trans), left, x.mathness / 4);
    var sw := if left == MAYBE_MATH then [] else Switch(b.cur, left);
    if left != MAYBE_MATH {
      SwitchMargin(w, demand, b, cov, l, left);
    }
    assert b.toks + [] == b.toks;
    FlatOne(w, Text(x.trans), n);
    FlatTokensAppend(w, b.toks + sw, [Text(x.trans)], n);
    MarginShift(Flat(w, x.trans), 0, l);
    MarginAppend(FlatTokens(w, b.toks + sw, n), Flat(w, x.trans), 0);
  }

  // ---- Parts in turn ------------------------------------------------------------

  /** The parts lead from margin k to margin m. */
  predicate Lead(parts: seq<Part>, cats: seq<Category>, k: int, m: int) {
    if parts == [] then k == m
    else PartOk(parts, 0, cats, k) && Lead(parts[1..], cats, k + PartAt(parts, 0, cats), m)
  }

  lemma LeadStep(parts: seq<Part>, cats: seq<Category>, k: int, m: int, i: nat)
    requires i <= |parts|
    ensures i == |parts| ==> Lead(parts[i..], cats, k, m) == (k == m)
    ensures i < |parts| ==>
              Lead(parts[i..], cats, k, m) ==
              (PartOk(parts, i, cats, k) && Lead(parts[i + 1..], cats, k + PartAt(parts, i, cats), m))
  {
    if i < |parts| {
      assert parts[i..][1..] == parts[i + 1..] && parts[i..][0] == parts[i];
    }
  }

  lemma BuildLeads(cats: seq<Category>, before: seq<Op>, parts: seq<Part>, cat: Category)
    requires BuildEven(cats, before, parts, cat)
    ensures OpsOk(before, 0) && Lead(parts, cats, OpsSum(before), Net(cat))
  {
    hide PartOk, PartAt, OpsSum, OpsOk, Lead;
    var k0 := OpsSum(before);
    var k1 := k0 + PartAt(parts, 0, cats);
    var k2 := k1 + PartAt(parts, 1, cats);
    var k3 := k2 + PartAt(parts, 2, cats);
    var m := Net(cat);
    assert parts[0..] == parts;
    NoPart(parts, 0, cats);
    NoPart(parts, 1, cats);
    NoPart(parts, 2, cats);
    NoPart(parts, 3, cats);
    LeadStep(parts, cats, k0, m, 0);
    if |parts| >= 1 { LeadStep(parts, cats, k1, m, 1); }
    if |parts| >= 2 { LeadStep(parts, cats, k2, m, 2); }
    if |parts| >= 3 { LeadStep(parts, cats, k3, m, 3); }
    if |parts| >= 4 { LeadStep(parts, cats, k3 + PartAt(parts, 3, cats), m, 4); }
  }

  lemma NoPart(parts: seq<Part>, i: nat, cats: seq<Category>)
    ensures i >= |parts| ==> PartAt(parts, i, cats) == 0
  {
  }

  /** The categories that a production sees. */
  function Seen(s: State): seq<Category> {
    [s.CatAt(0), s.CatAt(1), s.CatAt(2), s.CatAt(3)]
  }

  /** The scraps of a window are of the categories seen, as far as the margin goes. */
  predicate SeenIn(window: seq<Scrap>, cats: seq<Category>) {
    forall i :: 0 <= i < |window| && i < |cats| ==> Net(window[i].cat) == Net(cats[i])
  }

  lemma {:induction false} EmitAt(w: World, demand: seq<nat>, b: Builder, cov: seq<Mark>, l: nat, parts: seq<Part>,
                                  window: seq<Scrap>, cats: seq<Category>, m: nat, off: nat, k: nat)
    requires GoodAt(w, demand, b, cov, l) && w.mem.Valid() && InMemory(window, w.mem)
    requires AllSound(w, demand, window) && AllEven(w, window) && SeenIn(window, cats) && Lead(parts, cats, l, m)
    requires off + k <= |window| && InOrder(parts, off, k)
    ensures GoodAt(w, demand, Emit(b, parts, window), cov + CoversAll(w, window[off..off + k]), m)
    decreases parts
  {
    hide GoodAt, AllSound, AllEven, Flat, Covers, BigApp1, ApplyAll, SeenIn, OpsOk, OpsSum, Net;
    if k == 0 {
      assert parts == [] && window[off..off + k] == [];
      assert cov + [] == cov;
    } else {
      var x := window[off];
      var here := Covers(Flat(w, x.trans));
      PartAt1(w, demand, b, cov, l, parts[0], window, cats);
      var l1 := l + PartAt(parts, 0, cats);
      LeadBound(parts, cats, l, m);
      EmitAt(w, demand, ApplyAll(BigApp1(b, x), parts[0].after), cov + here, l1, parts[1..], window, cats, m,
             off + 1, k - 1);
      assert window[off..off + k][1..] == window[off + 1..off + k];
      var later := CoversAll(w, window[off + 1..off + k]);
      assert cov + here + later == cov + (here + later);
    }
  }

  lemma LeadBound(parts: seq<Part>, cats: seq<Category>, l: nat, m: nat)
    requires Lead(parts, cats, l, m) && parts != []
    ensures PartOk(parts, 0, cats, l) && l + PartAt(parts, 0, cats) >= 0
  {
  }

  lemma PartAt1(w: World, demand: seq<nat>, b: Builder, cov: seq<Mark>, l: nat, part: Part, window: seq<Scrap>,
                cats: seq<Category>)
    requires GoodAt(w, demand, b, cov, l) && w.mem.Valid() && InMemory(window, w.mem) && part.i < |window|
    requires AllSound(w, demand, window) && AllEven(w, window) && SeenIn(window, cats)
    requires part.i < |cats| && OpsOk(part.after, l + Net(cats[part.i]))
    ensures l + Net(cats[part.i]) + OpsSum(part.after) >= 0
    ensures GoodAt(w, demand, ApplyAll(BigApp1(b, window[part.i]), part.after),
                   cov + Covers(Flat(w, window[part.i].trans)), l + Net(cats[part.i]) + OpsSum(part.after))
  {
    hide GoodAt, Flat, Covers, BigApp1, ApplyAll, Sound, Margin, OpAt, OpsSum, Net;
    var x := window[part.i];
    assert ScrapSound(w, demand, x) && ScrapEven(w, x);
    BigApp1At(w, demand, b, cov, l, x);
    OpsBound(part.after, l + Net(x.cat));
    OpsAt(w, demand, BigApp1(b, x), cov + Covers(Flat(w, x.trans)), l + Net(x.cat), part.after);
  }

  lemma OpsBound(ops: seq<Op>, k: int)
    requires OpsOk(ops, k)
    ensures k >= 0 && k + OpsSum(ops) >= 0
  {
  }

  lemma EmptyAt(w: World, demand: seq<nat>)
    requires w.mem.Valid()
    ensures GoodAt(w, demand, EMPTY, [], 0)
  {
  }

  /** The text built from the scraps at..at + k moves the margin as the new category should. */
  lemma TextEven(s: State, demand: seq<nat>, before: seq<Op>, parts: seq<Part>, off: nat, k: nat, cat: Category,
                 cats: seq<Category>)
    requires Valid(s) && s.w.mem.Valid() && InMemory(s.live, s.w.mem) && AllSound(s.w, demand, s.live)
    requires AllEven(s.w, s.live) && s.pp + off + k <= |s.live| && k >= 1 && InOrder(parts, off, k)
    requires SeenIn(Window(s), cats) && BuildEven(cats, before, parts, cat)
    ensures var b := Emit(ApplyAll(EMPTY, before), parts, Window(s));
      && b.toks != [] && Composite(b.toks, s.w.mem.Count())
      && Margin(FlatTokens(s.w, b.toks, s.w.mem.Count()), 0) == Some(Net(cat))
  {
    hide Good, AllSound, CoversAll, Emit, ApplyAll, Valid, Memory.Valid, Readable, BuildEven, Lead, OpsOk, OpsSum, OpAt,
      SeenIn, Net, Flat, FlatTokens, Margin;
    var window, n := Window(s), s.w.mem.Count();
    Parts(s.w, demand, s.live, s.pp, |s.live| - s.pp);
    assert window == s.live[s.pp..s.pp + (|s.live| - s.pp)];
    WindowEven(s.w, s.live, s.pp);
    BuildLeads(cats, before, parts, cat);
    OpsBound(before, 0);
    EmptyAt(s.w, demand);
    OpsAt(s.w, demand, EMPTY, [], 0, before);
    EmitAt(s.w, demand, ApplyAll(EMPTY, before), [], OpsSum(before), parts, window, cats, Net(cat), off, k);
    EmitNonempty(ApplyAll(EMPTY, before), parts, window);
    GoodText0(s.w, demand, Emit(ApplyAll(EMPTY, before), parts, window), [] + CoversAll(s.w, window[off..off + k]));
  }

  lemma WindowEven(w: World, live: seq<Scrap>, pp: nat)
    requires w.mem.Valid() && InMemory(live, w.mem) && AllEven(w, live) && pp <= |live|
    ensures InMemory(live[pp..], w.mem) && AllEven(w, live[pp..])
  {
    hide ScrapEven;
  }

  /** The new scrap, and all others as they were. */
  lemma ReduceEven(s: State, v: World, b: Builder, at: nat, k: nat, cat: Category, d: int)
    requires Valid(s) && Extends(s.w, v) && at + k <= |s.live| && k >= 1
    requires b.toks != [] && Composite(b.toks, s.w.mem.Count())
    requires s.w.mem.Valid() && InMemory(s.live, s.w.mem) && AllEven(s.w, s.live)
    requires v.mem == s.w.mem && Margin(NewMarks(v, b.toks), 0) == Some(Net(cat))
    ensures var r := Reduce(s.(w := v), b, at, k, cat, d);
      r.w.mem.Valid() && InMemory(r.live, r.w.mem) && AllEven(r.w, r.live)
  {
    hide Valid, Extends, Flat, NewMarks, Agree, Composite, Freeze, Readable, Margin, Net;
    var r, n := Reduce(s.(w := v), b, at, k, cat, d), s.w.mem.Count();
    FreezeFlat(s, v, b.toks);
    ReadableValid(r.w.mem);
    forall i | 0 <= i < |s.live|
      ensures Flat(r.w, s.live[i].trans) == Flat(s.w, s.live[i].trans)
      ensures ScrapEven(s.w, s.live[i])
    {
      FlatAgree(s.w, r.w, n, s.live[i].trans);
    }
  }

  lemma ReadableValid(m: Memory)
    requires Readable(m)
    ensures m.Valid()
  {
  }

  lemma RetouchedEven(s: State, m: Memory, live: seq<Scrap>)
    requires Valid(s) && Retouched(s.w.mem, m) && Relabelled(s.live, live)
    requires s.w.mem.Valid() && InMemory(s.live, s.w.mem) && AllEven(s.w, s.live)
    ensures m.Valid() && InMemory(live, m) && AllEven(s.w.(mem := m), live)
  {
    hide Valid, Agree, Flat, Memory.Valid, Retouched, Relabelled, Margin;
    RetouchFacts(s, m, live);
    RetouchAgree(s, m);
    ValidFacts(s.(w := s.w.(mem := m)));
    forall i | 0 <= i < |live|
      ensures live[i].trans < m.Count() && ScrapEven(s.w.(mem := m), live[i])
    {
      assert ScrapEven(s.w, s.live[i]);
      FlatAgree(s.w, s.w.(mem := m), s.w.mem.Count(), s.live[i].trans);
    }
  }

  lemma RelabelledSeen(live: seq<Scrap>, after: seq<Scrap>, pp: nat, cats: seq<Category>)
    requires Relabelled(live, after) && pp <= |live| && SeenIn(live[pp..], cats)
    ensures SeenIn(after[pp..], cats)
  {
  }

  lemma SeenWindow(s: State)
    requires s.pp <= |s.live|
    ensures SeenIn(Window(s), Seen(s))
  {
  }

  lemma PlainEven(cats: seq<Category>, off: nat, k: nat, cat: Category, d: int, n: nat)
    requires |cats| == 4 && k >= 2 && Even(cats, Squash(off, k, cat, d, n))
    ensures BuildEven(cats, [], Plain(off, k), cat)
  {
  }

  lemma FreshText(s: State, toks: seq<Token>)
    requires Valid(s) && Composite(toks, s.w.mem.Count())
    ensures s.w.mem.Valid() && Extends(s.w, s.w) && NewMarks(s.w, toks) == FlatTokens(s.w, toks, s.w.mem.Count())
  {
  }

  lemma BuildFires(s: State, demand: seq<nat>, before: seq<Op>, parts: seq<Part>, off: nat, k: nat, cat: Category,
                   d: int, cats: seq<Category>)
    requires Valid(s) && s.w.mem.Valid() && InMemory(s.live, s.w.mem) && AllSound(s.w, demand, s.live)
    requires AllEven(s.w, s.live) && s.pp + off + k <= |s.live| && k >= 1 && InOrder(parts, off, k)
    requires SeenIn(Window(s), cats) && BuildEven(cats, before, parts, cat)
    ensures var r := Reduce(s, Emit(ApplyAll(EMPTY, before), parts, Window(s)), s.pp + off, k, cat, d);
      r.w.mem.Valid() && InMemory(r.live, r.w.mem) && AllEven(r.w, r.live)
  {
    hide Valid, AllSound, AllEven, Emit, ApplyAll, Extends, NewMarks, Composite, Memory.Valid, BuildEven, SeenIn,
      Margin, Net, Reduce, FlatTokens;
    var b := Emit(ApplyAll(EMPTY, before), parts, Window(s));
    TextEven(s, demand, before, parts, off, k, cat, cats);
    FreshText(s, b.toks);
    ReduceEven(s, s.w, b, s.pp + off, k, cat, d);
    assert s.(w := s.w) == s;
  }

  lemma SquashEven(s: State, demand: seq<nat>, cov: seq<nat>, p: Production)
    requires Lawful(s, demand, cov) && Fits(s, p) && p.Squash? && Even(Seen(s), p)
    requires s.w.mem.Valid() && InMemory(s.live, s.w.mem) && AllEven(s.w, s.live)
    ensures var r := Fire(s, p); r.w.mem.Valid() && InMemory(r.live, r.w.mem) && AllEven(r.w, r.live)
  {
    hide Lawful, Valid, AllSound, AllEven, Emit, ApplyAll, Extends, NewMarks, Composite, Memory.Valid, BuildEven,
      SeenIn, Margin, Reduce, MakeReserved, Fire, Retouched, Relabelled, InOrder;
    LawfulFacts(s, demand, cov);
    FireIs(s, p);
    if p.k == 1 {
      RecatEven(s, s.pp + p.off, p.cat);
    } else {
      SeenWindow(s);
      PlainInOrder(p.off, p.k);
      PlainEven(Seen(s), p.off, p.k, p.cat, p.d, p.n);
      BuildFires(s, demand, [], Plain(p.off, p.k), p.off, p.k, p.cat, p.d, Seen(s));
      ApplyNone();
    }
  }

  lemma MakeEven(s: State, demand: seq<nat>, cov: seq<nat>, p: Production)
    requires Lawful(s, demand, cov) && Fits(s, p) && p.Build? && Even(Seen(s), p)
    requires s.w.mem.Valid() && InMemory(s.live, s.w.mem) && AllEven(s.w, s.live)
    ensures var r := Fire(s, p); r.w.mem.Valid() && InMemory(r.live, r.w.mem) && AllEven(r.w, r.live)
  {
    hide Lawful, Valid, AllSound, AllEven, Emit, ApplyAll, Extends, NewMarks, Composite, Memory.Valid, BuildEven,
      SeenIn, Margin, Reduce, MakeReserved, Fire, Retouched, Relabelled, InOrder;
    LawfulFacts(s, demand, cov);
    FireIs(s, p);
    SeenWindow(s);
    BuildFires(s, demand, p.before, p.parts, p.off, p.k, p.cat, p.d, Seen(s));
  }

  /** One production, whichever it is, keeps the margins. */
  lemma FireEven(s: State, demand: seq<nat>, cov: seq<nat>, p: Production)
    requires Lawful(s, demand, cov) && Fits(s, p) && Even(Seen(s), p)
    requires s.w.mem.Valid() && InMemory(s.live, s.w.mem) && AllEven(s.w, s.live)
    ensures var r := Fire(s, p); r.w.mem.Valid() && InMemory(r.live, r.w.mem) && AllEven(r.w, r.live)
  {
    hide Lawful, Valid, AllSound, AllEven, Emit, ApplyAll, Extends, NewMarks, Composite, Memory.Valid, BuildEven,
      SeenIn, Margin, Reduce, MakeReserved, Fire, Retouched, Relabelled, InOrder, Even, Reductions.Fits;
    LawfulFacts(s, demand, cov);
    match p
    case Idle => IdleFires(s, p);
    case Angle(_, _, _) => AngleEven(s, demand, p);
    case Squash(_, _, _, _, _) => SquashEven(s, demand, cov, p);
    case Build(_, _, _, _, _, _, _) => MakeEven(s, demand, cov, p);
    case Reserve(_, _, _, _, _, _, _, _) => ReserveEven(s, demand, cov, p);
  }

  lemma IdleFires(s: State, p: Production)
    requires Valid(s) && Fits(s, p) && p.Idle?
    ensures Fire(s, p).live == s.live && Fire(s, p).w == s.w
  {
  }

  lemma RecatEven(s: State, i: nat, cat: Category)
    requires s.w.mem.Valid() && InMemory(s.live, s.w.mem) && AllEven(s.w, s.live) && i < |s.live|
    requires Net(cat) == Net(s.live[i].cat)
    ensures var live := s.live[i := s.live[i].(cat := cat)]; InMemory(live, s.w.mem) && AllEven(s.w, live)
  {
    hide Margin, Flat;
    assert ScrapEven(s.w, s.live[i]);
  }

  lemma AngleEven(s: State, demand: seq<nat>, p: Production)
    requires Valid(s) && Fits(s, p) && p.Angle?
    requires s.w.mem.Valid() && InMemory(s.live, s.w.mem) && AllEven(s.w, s.live)
    ensures var r := Fire(s, p); r.w.mem.Valid() && InMemory(r.live, r.w.mem) && AllEven(r.w, r.live)
  {
    hide Valid, AllEven, Extends, NewMarks, Composite, Memory.Valid, Reduce, Drop, Flat, Fire;
    FireAngle(s, p);
    AngleText(s, demand, p.g);
    var marks := Drop(Flat(s.w, s.live[s.pp].trans));
    var v := s.w.(lost := s.w.lost[s.w.mem.Count() := marks]);
    MarginStill(marks, 0);
    ReduceEven(s, v, Builder([Ch(Code(p.g))], YES_MATH, YES_MATH), s.pp, 1, Binop, p.d);
  }

  lemma ReserveEven(s: State, demand: seq<nat>, cov: seq<nat>, p: Production)
    requires Lawful(s, demand, cov) && Fits(s, p) && p.Reserve? && Even(Seen(s), p)
    requires s.w.mem.Valid() && InMemory(s.live, s.w.mem) && AllEven(s.w, s.live)
    ensures var r := Fire(s, p); r.w.mem.Valid() && InMemory(r.live, r.w.mem) && AllEven(r.w, r.live)
  {
    hide Lawful, Valid, AllSound, AllEven, Emit, ApplyAll, Memory.Valid, BuildEven, SeenIn, MakeReserved, Fire, Reduce,
      Retouched, Relabelled, InOrder;
    LawfulFacts(s, demand, cov);
    FireReserve(s, p);
    var r := MakeReserved(s.w.mem, s.live, s.pp + p.at);
    var s1 := s.(live := r.1, w := s.w.(mem := r.0));
    ReserveKeeps(s, demand, cov, r.0, r.1);
    LawfulFacts(s1, demand, cov);
    RetouchedEven(s, r.0, r.1);
    SeenWindow(s);
    RelabelledSeen(s.live, r.1, s.pp, Seen(s));
    BuildFires(s1, demand, p.before, p.parts, p.off, p.k, p.cat, p.d, Seen(s));
  }

  // ---- Whole runs ---------------------------------------------------------------

  predicate NoEnd(live: seq<Scrap>) {
    forall i :: 0 <= i < |live| ==> !live[i].cat.EndArg?
  }

  lemma CarriesNoEnd(s: State, r: State, at: nat, k: nat, cat: Category, marks: seq<Mark>)
    requires Carries(s, r, at, k, cat, marks) && NoEnd(s.live) && !cat.EndArg?
    ensures NoEnd(r.live)
  {
    hide MarksOf, Agree, Memory.Valid;
    forall i | 0 <= i < |r.live|
      ensures !r.live[i].cat.EndArg?
    {
      if i < at {
        assert Alike(s.w, s.live[i], r.w, r.live[i]);
      } else if i > at {
        assert Alike(s.w, s.live[i + k - 1], r.w, r.live[i + k - 1 - k + 1]);
      }
    }
  }

  lemma ChosenEven(s: State, forceLines: bool)
    requires Valid(s) && s.pp < |s.live| && NoEnd(s.live)
    ensures Fits(s, Chosen(s, forceLines)) && Even(Seen(s), Chosen(s, forceLines))
    ensures !Chosen(s, forceLines).Idle? ==> !Result(Chosen(s, forceLines)).EndArg?
  {
    hide Even, Choose, Fits, Memory.Valid;
    NoneBlank(s);
    ChosenFits(s, forceLines);
    EvenChoose(s.CatAt(0), s.CatAt(1), s.CatAt(2), s.CatAt(3), forceLines);
    MadeNoEnd(s, forceLines);
  }

  /** No production makes an end of an argument from anything else. */
  lemma MadeNoEnd(s: State, forceLines: bool)
    requires Valid(s) && s.pp < |s.live| && NoEnd(s.live)
    ensures !Chosen(s, forceLines).Idle? ==> !Result(Chosen(s, forceLines)).EndArg?
  {
    hide Choose, Memory.Valid;
    NoneBlank(s);
  }

  lemma StepNoEnd(s: State, demand: seq<nat>, cov: seq<nat>, forceLines: bool)
    requires Lawful(s, demand, cov) && s.pp < |s.live| && NoEnd(s.live)
    ensures Valid(s) && NoEnd(Step(s, forceLines).live)
  {
    hide Lawful, Valid, Chosen, Fire, Carries, Holds, Fits, Memory.Valid, NoEnd, Even, Seen, Off, Width,
      Result, InOrder;
    LawfulFacts(s, demand, cov);
    NoneBlank(s);
    ChosenFits(s, forceLines);
    ChosenEven(s, forceLines);
    var p := Chosen(s, forceLines);
    FireKeeps(s, demand, cov, p);
    if p.Idle? {
      IdleFires(s, p);
    } else {
      CarriesNoEnd(s, Fire(s, p), s.pp + Off(p), Width(p), Result(p), Holds(s, p));
    }
  }

  lemma StepEven(s: State, demand: seq<nat>, cov: seq<nat>, forceLines: bool)
    requires Lawful(s, demand, cov) && s.pp < |s.live| && NoEnd(s.live)
    requires s.w.mem.Valid() && InMemory(s.live, s.w.mem) && AllEven(s.w, s.live)
    ensures Valid(s)
    ensures var r := Step(s, forceLines);
      r.w.mem.Valid() && InMemory(r.live, r.w.mem) && AllEven(r.w, r.live) && NoEnd(r.live)
  {
    hide Lawful, Valid, AllEven, Even, Chosen, Fire, Fits, NoEnd, Memory.Valid;
    LawfulFacts(s, demand, cov);
    ChosenEven(s, forceLines);
    FireEven(s, demand, cov, Chosen(s, forceLines));
    StepNoEnd(s, demand, cov, forceLines);
  }

  lemma {:induction false} RunEven(s: State, demand: seq<nat>, cov: seq<nat>, forceLines: bool)
    requires Lawful(s, demand, cov) && NoEnd(s.live)
    requires s.w.mem.Valid() && InMemory(s.live, s.w.mem) && AllEven(s.w, s.live)
    ensures var r := Run(s, demand, cov, forceLines);
      r.w.mem.Valid() && InMemory(r.live, r.w.mem) && AllEven(r.w, r.live)
    decreases |s.live|, SumRank(s.live), |s.live| - s.pp
  {
    hide Lawful, AllEven, Step, Chosen, Valid, Memory.Valid, NoEnd;
    Unpack(s, demand, cov);
    if s.pp < |s.live| {
      StepKeeps(s, demand, cov, forceLines);
      StepEven(s, demand, cov, forceLines);
      RunEven(Step(s, forceLines), demand, cov, forceLines);
    }
  }

  /** How far right the irreducible scraps leave the margin. */
  function Total(live: seq<Scrap>): nat {
    if live == [] then 0 else Total(live[..|live| - 1]) + Net(live[|live| - 1].cat)
  }

  lemma LayMargin(w: World, x: Scrap, l: nat)
    requires w.mem.Valid() && x.trans < w.mem.Count() && ScrapEven(w, x)
    ensures Composite(Lay(x), w.mem.Count())
    ensures Margin(FlatTokens(w, Lay(x), w.mem.Count()), l) == Some(l + Net(x.cat))
  {
    hide Flat, FlatTokens;
    var n := w.mem.Count();
    var left, right := x.mathness % 4 == YES_MATH, x.mathness / 4 == YES_MATH;
    DollarMarks(w, left, n);
    DollarMarks(w, right, n);
    FlatOne(w, Text(x.trans), n);
    FlatTokensAppend(w, Dollar(left), [Text(x.trans)], n);
    FlatTokensAppend(w, Dollar(left) + [Text(x.trans)], Dollar(right), n);
    assert Lay(x) == Dollar(left) + [Text(x.trans)] + Dollar(right);
    MarginStill(Toggles(left), l);
    MarginStill(Toggles(right), l + Net(x.cat));
    MarginShift(Flat(w, x.trans), 0, l);
    MarginAppend(Toggles(left), Flat(w, x.trans), l);
    MarginAppend(Toggles(left) + Flat(w, x.trans), Toggles(right), l);
  }

  /** One scrap more, and perhaps a blank before it. */
  lemma JoinedMargin(w: World, before: seq<Token>, sp: seq<Token>, x: Scrap, k: nat)
    requires w.mem.Valid() && x.trans < w.mem.Count() && ScrapEven(w, x) && Composite(before, w.mem.Count())
    requires (sp == [] || sp == [Ch(Code(Space))]) && Margin(FlatTokens(w, before, w.mem.Count()), 0) == Some(k)
    ensures Composite(before + sp + Lay(x), w.mem.Count())
    ensures Margin(FlatTokens(w, before + sp + Lay(x), w.mem.Count()), 0) == Some(k + Net(x.cat))
  {
    hide Lay, Flat, FlatTokens, Memory.Valid, ScrapEven, Margin, Net;
    var m := w.mem.Count();
    LayMargin(w, x, k);
    SpaceMarks(w, sp, m);
    FlatTokensAppend(w, before, sp, m);
    FlatTokensAppend(w, before + sp, Lay(x), m);
    assert FlatTokens(w, before + sp, m) == FlatTokens(w, before, m);
    MarginAppend(FlatTokens(w, before, m), FlatTokens(w, Lay(x), m), 0);
  }

  lemma {:induction false} JoinMargin(w: World, live: seq<Scrap>)
    requires w.mem.Valid() && InMemory(live, w.mem) && AllEven(w, live)
    ensures Composite(Join(live), w.mem.Count())
    ensures Margin(FlatTokens(w, Join(live), w.mem.Count()), 0) == Some(Total(live))
  {
    hide Lay, Flat, FlatTokens, Memory.Valid, ScrapEven, Margin, Net, Composite;
    if live == [] {
      NothingFlat(w);
    } else {
      var n := |live| - 1;
      assert ScrapEven(w, live[n]);
      JoinMargin(w, live[..n]);
      JoinedMargin(w, Join(live[..n]), if n > 0 then [Ch(Code(Space))] else [], live[n], Total(live[..n]));
    }
  }

  lemma NothingFlat(w: World)
    requires w.mem.Valid()
    ensures FlatTokens(w, [], w.mem.Count()) == [] && Composite([], w.mem.Count()) && Margin([], 0) == Some(0)
  {
  }

  lemma FreshEven(s: State, demand: seq<nat>)
    requires Fresh(s, demand) && forall i :: 0 <= i < |s.live| ==> !s.live[i].cat.FnDecl?
    ensures s.w.mem.Valid() && InMemory(s.live, s.w.mem) && AllEven(s.w, s.live)
  {
    forall i | 0 <= i < |s.live|
      ensures s.live[i].trans < s.w.mem.Count() && ScrapEven(s.w, s.live[i])
    {
      assert [Leaf(s.live[i].trans)][1..] == [];
    }
  }

  lemma {:induction false} MarginOfKept(marks: seq<Mark>, k: nat)
    ensures Margin(Kept(marks), k) == Margin(marks, k)
  {
    if marks != [] {
      var rest := Kept(marks[1..]);
      assert ([marks[0]] + rest)[1..] == rest && [] + rest == rest;
      if marks[0] == Control(INDENT) {
        MarginOfKept(marks[1..], k + 1);
      } else if marks[0] != Control(OUTDENT) {
        MarginOfKept(marks[1..], k);
      } else if k > 0 {
        MarginOfKept(marks[1..], k - 1);
      }
    }
  }

  /** When the text that `translate` returns is read, the margin is never moved too far to the left, and
      at the end it is where it began, but for two steps for every function heading that is left
      over.  This holds on every input without function headings and ends of macro arguments. */
  lemma MarginsKept(s: State, demand: seq<nat>, forceLines: bool)
    requires Fresh(s, demand) && NoEnd(s.live) && forall i :: 0 <= i < |s.live| ==> !s.live[i].cat.FnDecl?
    ensures Lawful(s, demand, Texts(s.live))
    ensures var r := Run(s, demand, Texts(s.live), forceLines);
            var out := Translate(s, demand, forceLines);
            var t := out.w.mem.Count() - 1;
      && out.w.mem.Valid() && t >= 0
      && Margin(Marks(TextPieces(out.w, t)), 0) == Some(Total(r.live))
  {
    hide Lawful, Fresh, Run, Join, Flat, FlatTokens, AllEven, NoEnd, Memory.Valid, Spell, Pieces, Marks, Kept, Leaves,
      Wholes, CodesInMode;
    FreshLawful(s, demand);
    FreshEven(s, demand);
    RunEven(s, demand, Texts(s.live), forceLines);
    var r := Run(s, demand, Texts(s.live), forceLines);
    JoinMargin(r.w, r.live);
    TranslateFlat(s, demand, forceLines);
    ReadingResult(s, demand, forceLines, false);
    MarginOfKept(Flat(Translate(s, demand, forceLines).w, r.w.mem.Count()), 0);
  }
}
