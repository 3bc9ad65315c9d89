/** The parser reduces every C text to one scrap, and that has the category of the text's last item. */
module GrammarRuns {
  import DeclarationSteps
  import ExpressionSteps
  import G = Grammar
  import opened GrammarSteps
  import opened Parse
  import opened Productions
  import opened Recognition
  import opened ReductionLaws
  import opened Reductions
  import StatementSteps
  import opened TokenMemory
  import opened Wrappers

  // ---- The goal stays ---------------------------------------------------------------

  /** What is expected at last. */
  function Base(s: G.Stack): G.Stack {
    if s.Push? && s.rest.Push? then Base(s.rest) else s
  }

  predicate Sure(s: G.Stack, goal: Category) {
    Base(s) == G.Push(G.Goal(goal), G.Empty)
  }

  lemma SurePush(x: G.Symbol, s: G.Stack, goal: Category)
    ensures Sure(s, goal) ==> Sure(G.Push(x, s), goal)
    ensures Sure(G.Push(x, s), goal) && !x.Goal? ==> Sure(s, goal)
  {
  }

  /** What is pushed and popped leaves the goal where it is. */
  lemma SureAlways(goal: Category)
    ensures forall x, t: G.Stack :: Sure(t, goal) ==> Sure(G.Push(x, t), goal)
    ensures forall t: G.Stack :: t.Push? && Sure(t, goal) && !t.top.Goal? ==> Sure(t.rest, goal)
  {
    forall x, t: G.Stack
      ensures Sure(t, goal) ==> Sure(G.Push(x, t), goal)
      ensures t.Push? && Sure(t, goal) && !t.top.Goal? ==> Sure(t.rest, goal)
    {
      SurePush(x, t, goal);
      if t.Push? {
        SurePush(t.top, t.rest, goal);
      }
    }
  }

  lemma SureStatement(p: G.Place, c: Category, rest: G.Stack, next: G.Stack, goal: Category)
    requires Sure(rest, goal) && Sure(next, goal) && G.ReadStatement(p, c, rest, next).Some?
    ensures Sure(G.ReadStatement(p, c, rest, next).value, goal)
  {
    hide Sure, G.ReadOperand;
    SureAlways(goal);
    SureInside(G.Condition, c, G.Push(G.EndOrLabel(G.Unit(p)), next), goal);
  }

  lemma SureItem(p: G.Place, c: Category, rest: G.Stack, goal: Category)
    requires Sure(rest, goal) && G.ReadItem(p, c, rest).Some?
    ensures Sure(G.ReadItem(p, c, rest).value, goal)
  {
    hide Sure, G.ReadStatement;
    SureAlways(goal);
    if G.ReadItem(p, c, rest) == G.ReadStatement(p, c, rest, G.Continue(p, rest, Stmt)) {
      SureStatement(p, c, rest, G.Continue(p, rest, Stmt), goal);
    }
  }

  lemma SureInside(kind: G.Kind, c: Category, v: G.Stack, goal: Category)
    requires Sure(v, goal)
    ensures G.ReadInside(kind, c, v).Some? ==> Sure(G.ReadInside(kind, c, v).value, goal)
    ensures G.ReadOperand(c, v).Some? ==> Sure(G.ReadOperand(c, v).value, goal)
    ensures G.ReadSized(c, v).Some? ==> Sure(G.ReadSized(c, v).value, goal)
  {
    hide Sure;
    SureAlways(goal);
  }

  lemma SureBody(c: Category, next: G.Stack, goal: Category)
    requires Sure(next, goal)
    ensures G.ReadBody(c, next).Some? ==> Sure(G.ReadBody(c, next).value, goal)
    ensures G.ReadBegin(c, next).Some? ==> Sure(G.ReadBegin(c, next).value, goal)
  {
    hide Sure;
    SureAlways(goal);
  }

  lemma SureDeclaring(at: G.Where, c: Category, next: G.Stack, goal: Category)
    requires Sure(next, goal)
    ensures G.ReadDeclaring(at, c, next).Some? ==> Sure(G.ReadDeclaring(at, c, next).value, goal)
    ensures G.ReadTyped(at, c, next).Some? ==> Sure(G.ReadTyped(at, c, next).value, goal)
  {
    hide Sure, G.ReadBegin;
    SureAlways(goal);
    SureBody(c, next, goal);
  }

  lemma SureAfter(c: Category, u: G.Stack, goal: Category)
    requires Sure(u, goal)
    ensures G.ReadAfter(c, u).Some? ==> Sure(G.ReadAfter(c, u).value, goal)
  {
    hide Sure;
    SureAlways(goal);
  }

  lemma {:induction false} SureRead(s: G.Stack, c: Category, goal: Category)
    requires Sure(s, goal) && G.Read(s, c).Some?
    ensures Sure(G.Read(s, c).value, goal)
    decreases s
  {
    if s.Push? && !s.top.Goal? && !c.Insert? {
      hide Sure, G.ReadItem, G.ReadDeclaring, G.ReadTyped, G.ReadBody, G.ReadAfter, G.ReadInside, G.ReadOperand,
        G.ReadSized;
      SureAlways(goal);
      match s.top
      case St(p) => SureItem(p, c, s.rest, goal);
      case After => SureAfter(c, s.rest, goal);
      case Typed(at) => SureDeclaring(at, c, s.rest, goal);
      case Declaring(at) => SureDeclaring(at, c, s.rest, goal);
      case Named => SureDeclaring(G.Outer, c, s.rest, goal);
      case Body => SureBody(c, s.rest, goal);
      case Operand => SureInside(G.Condition, c, s.rest, goal);
      case Sized => SureInside(G.Condition, c, s.rest, goal);
      case Inside(kind) => SureInside(kind, c, s.rest, goal);
      case Keyword => SureInside(G.Condition, c, G.Push(G.EndOrLabel(false), s.rest), goal);
      case MayElse =>
        if !c.ElseLike? {
          SureRead(s.rest, c, goal);
        }
      case _ =>
    }
  }

  // ---- The invariant over categories --------------------------------------------

  predicate QuietAt(cats: seq<Category>, i: int) {
    !Fires(Cat(cats, i), Cat(cats, i + 1), Cat(cats, i + 2), Cat(cats, i + 3)) && !Cat(cats, i).Insert?
  }

  /** The categories are a text at some stage, and nothing before the cursor fires. */
  predicate Underway(cats: seq<Category>, pp: nat, goal: Category) {
    && G.Form(cats, goal) && pp <= |cats|
    && (forall i :: 0 <= i < pp ==> QuietAt(cats, i))
    && (Cat(cats, pp).Insert? ==> pp == 0)
  }

  lemma StartSure(goal: Category)
    ensures Sure(G.Start(goal), goal)
  {
  }

  /** What has been read before the cursor fits what stands there. */
  lemma {:induction false} ReadBefore(cats: seq<Category>, pp: nat, goal: Category, n: nat) returns (s: G.Stack)
    requires Underway(cats, pp, goal) && n <= pp
    ensures G.ReadAll(G.Start(goal), cats[..n]) == Some(s) && G.Reads(s, cats[n..]) && Sure(s, goal)
    ensures GrammarSteps.Fits(s, Cat(cats, n - 1), Cat(cats, n - 2), Cat(cats, n - 3))
  {
    if n == 0 {
      assert cats[..0] == [] && cats[0..] == cats;
      s := G.Start(goal);
      StartSure(goal);
    } else {
      hide G.Read, G.ReadAll, G.Reads, GrammarSteps.Fits, Fires, Quiet, Sure;
      var s0 := ReadBefore(cats, pp, goal, n - 1);
      ReadsNext(s0, cats[n - 1..]);
      assert cats[n - 1..][0] == cats[n - 1] && cats[n - 1..][1..] == cats[n..];
      assert cats[..n] == cats[..n - 1] + [cats[n - 1]];
      s := G.Read(s0, cats[n - 1]).value;
      ReadAllMid(G.Start(goal), cats[..n - 1], cats[n - 1], []);
      AllQuiet(cats, pp, goal, n - 1);
      SureRead(s0, cats[n - 1], goal);
      FitsNext(s0, Cat(cats, n - 2), Cat(cats, n - 3), Cat(cats, n - 4), Cat(cats, n - 1), Cat(cats, n),
               Cat(cats, n + 1), Cat(cats, n + 2));
    }
  }

  lemma AllQuiet(cats: seq<Category>, pp: nat, goal: Category, n: nat)
    requires Underway(cats, pp, goal) && n <= pp
    ensures Quiet(Cat(cats, n - 1), Cat(cats, n - 2), Cat(cats, n - 3),
                  Cat(cats, n), Cat(cats, n + 1), Cat(cats, n + 2))
    ensures n < pp ==> !Fires(Cat(cats, n), Cat(cats, n + 1), Cat(cats, n + 2), Cat(cats, n + 3))
                       && !Cat(cats, n).Insert?
  {
    hide Fires, G.Form;
    StatementSteps.BlankFires(Cat(cats, n), Cat(cats, n + 1), Cat(cats, n + 2));
    StatementSteps.BlankFires(Cat(cats, n - 1), Cat(cats, n), Cat(cats, n + 1));
    StatementSteps.BlankFires(Cat(cats, n - 2), Cat(cats, n - 1), Cat(cats, n));
    assert n >= 1 ==> QuietAt(cats, n - 1);
    assert n >= 2 ==> QuietAt(cats, n - 2);
    assert n >= 3 ==> QuietAt(cats, n - 3);
    assert n < pp ==> QuietAt(cats, n);
  }

  // ---- One step -------------------------------------------------------------------

  /** All categories that texts consist of at any stage. */
  predicate Vocabulary(c: Category) {
    || c.Exp? || G.Prefix(c) || G.Infix(c) || G.Close(c) || G.TypeWord(c) || c.Lpar? || c.Comma? || c.Question?
    || c.Colon? || c.Semi? || c.Lbrace? || c.Rbrace? || Whole(c) || c.IfLike? || c.IfClause? || c.IfHead?
    || c.ForLike? || c.ElseLike? || c.ElseHead? || c.DoLike? || c.CaseLike? || c.Tag? || c.SectionScrap?
    || c.Insert? || c.Cast? || c.DeclHead? || c.FnDecl?
  }

  lemma {:induction false} ReadsVocabulary(s: G.Stack, c: Category)
    requires G.Read(s, c).Some?
    ensures Vocabulary(c)
    decreases s
  {
    if s.Push? && s.top.MayElse? && G.Read(s.rest, c).Some? {
      ReadsVocabulary(s.rest, c);
    }
  }

  /** What the production chosen at some place keeps. */
  lemma LocalStep(s: G.Stack, p1: Category, p2: Category, p3: Category, q: seq<Category>, forceLines: bool)
    requires Local(s, p1, p2, p3, q)
    ensures q[0] != Blank && (Cat(q, 1) == Blank ==> Cat(q, 2) == Blank) && (Cat(q, 2) == Blank ==> Cat(q, 3) == Blank)
    ensures Keeps(s, p1, p2, p3, q, Choose(q[0], Cat(q, 1), Cat(q, 2), Cat(q, 3), forceLines))
  {
    hide G.Read, G.Reads, GrammarSteps.Fits, Fires, Quiet, Rules, Local, Keeps, Vocabulary;
    LocalFacts(s, p1, p2, p3, q);
    Fourth(s, p1, p2, p3, q);
    AllVocabulary(s, p1, p2, p3, q);
    NotBlank(s, p1, p2, p3, q);
    var c0, c1, c2, c3 := q[0], Cat(q, 1), Cat(q, 2), Cat(q, 3);
    var p := Choose(c0, c1, c2, c3, forceLines);
    ChooseIs(c0, c1, c2, c3, forceLines);
    if c1.Insert? {
      StatementSteps.Absorbed(s, p1, p2, p3, q, p, 1);
    } else if c2.Insert? {
      StatementSteps.Absorbed(s, p1, p2, p3, q, p, 2);
    } else if c3.Insert? {
      StatementSteps.Absorbed(s, p1, p2, p3, q, p, 3);
    } else {
      RulesStep(s, p1, p2, p3, q, forceLines);
    }
  }

  lemma ChooseIs(c0: Category, c1: Category, c2: Category, c3: Category, forceLines: bool)
    requires c0 != Blank && (c1 == Blank ==> c2 == Blank) && (c2 == Blank ==> c3 == Blank) && !c1.EndArg?
    ensures Choose(c0, c1, c2, c3, forceLines) ==
            if c1.Insert? then Squash(0, 2, c0, -2, 0)
            else if c2.Insert? then Squash(1, 2, c1, -1, 0)
            else if c3.Insert? then Squash(2, 2, c2, 0, 0)
            else Rules(c0, c1, c2, c3, forceLines)
  {
    hide Rules, Sane;
  }

  lemma AllVocabulary(s: G.Stack, p1: Category, p2: Category, p3: Category, q: seq<Category>)
    requires Local(s, p1, p2, p3, q)
    ensures Vocabulary(q[0]) && (|q| >= 2 ==> Vocabulary(q[1])) && !Cat(q, 1).EndArg?
  {
    hide G.Read, G.Reads, GrammarSteps.Fits, Quiet;
    LocalFacts(s, p1, p2, p3, q);
    ReadsVocabulary(s, q[0]);
    if |q| >= 2 {
      ReadsVocabulary(G.Read(s, q[0]).value, q[1]);
    }
  }

  lemma NotBlank(s: G.Stack, p1: Category, p2: Category, p3: Category, q: seq<Category>)
    requires Local(s, p1, p2, p3, q)
    ensures q[0] != Blank && (Cat(q, 1) == Blank ==> Cat(q, 2) == Blank) && (Cat(q, 2) == Blank ==> Cat(q, 3) == Blank)
  {
    hide G.Read, G.Reads, GrammarSteps.Fits, Quiet;
    LocalFacts(s, p1, p2, p3, q);
  }

  lemma RulesStep(s: G.Stack, p1: Category, p2: Category, p3: Category, q: seq<Category>, forceLines: bool)
    requires Local(s, p1, p2, p3, q) && Vocabulary(q[0])
    requires !Cat(q, 1).Insert? && !Cat(q, 2).Insert? && !Cat(q, 3).Insert?
    ensures Keeps(s, p1, p2, p3, q, Rules(q[0], Cat(q, 1), Cat(q, 2), Cat(q, 3), forceLines))
  {
    hide G.Read, G.Reads, GrammarSteps.Fits, Fires, Quiet, Rules, Keeps;
    LocalFacts(s, p1, p2, p3, q);
    match q[0]
    case Insert => StatementSteps.InsertFirst(s, p1, p2, p3, q, forceLines);
    case Exp => ExpressionSteps.ExpStep(s, p1, p2, p3, q, forceLines);
    case Unop | Unorbinop | SizeofLike | Cast => ExpressionSteps.PrefixStep(s, p1, p2, p3, q, forceLines);
    case Colon | Rpar | Rbrace | Comma | Binop => ExpressionSteps.StaysStep(s, p1, p2, p3, q, forceLines);
    case RawRpar | RawUnorbin | RawInt | ConstLike => ExpressionSteps.RawStep(s, p1, p2, p3, q, forceLines);
    case Semi => ExpressionSteps.SemiStep(s, p1, p2, p3, q, forceLines);
    case Prelangle | Prerangle => ExpressionSteps.AngleStep(s, p1, p2, p3, q, forceLines);
    case Question => ExpressionSteps.QuestionStep(s, p1, p2, p3, q, forceLines);
    case Lpar => ExpressionSteps.LparStep(s, p1, p2, p3, q, forceLines);
    case IntLike => DeclarationSteps.IntStep(s, p1, p2, p3, q, forceLines);
    case DeclHead => DeclarationSteps.HeadStep(s, p1, p2, p3, q, forceLines);
    case FnDecl => DeclarationSteps.FnStep(s, p1, p2, p3, q, forceLines);
    case Stmt | Decl | Function => DeclarationSteps.WholeStep(s, p1, p2, p3, q, forceLines);
    case Lbrace => StatementSteps.LbraceStep(s, p1, p2, p3, q, forceLines);
    case IfLike | ForLike => StatementSteps.IfForStep(s, p1, p2, p3, q, forceLines);
    case IfClause | IfHead => StatementSteps.ClauseStep(s, p1, p2, p3, q, forceLines);
    case ElseLike => StatementSteps.ElseStep(s, p1, p2, p3, q, forceLines);
    case ElseHead => StatementSteps.ElseHeadStep(s, p1, p2, p3, q, forceLines);
    case DoLike => StatementSteps.DoStep(s, p1, p2, p3, q, forceLines);
    case CaseLike => StatementSteps.CaseStep(s, p1, p2, p3, q, forceLines);
    case Tag => StatementSteps.TagStep(s, p1, p2, p3, q, forceLines);
    case SectionScrap => StatementSteps.SectionStep(s, p1, p2, p3, q, forceLines);
  }

  function Moved(pp: nat, d: int): nat {
    Clamp(pp + d)
  }

  lemma WindowAt(cats: seq<Category>, pp: nat)
    requires pp <= |cats|
    ensures forall i :: 0 <= i ==> Cat(cats[pp..], i) == Cat(cats, pp + i)
  {
  }

  /** One step of the parser, as far as categories go. */
  lemma StepUnderway(cats: seq<Category>, pp: nat, goal: Category, forceLines: bool)
    requires Underway(cats, pp, goal) && pp < |cats|
    ensures var q := cats[pp..];
      && q[0] != Blank && (Cat(q, 1) == Blank ==> Cat(q, 2) == Blank) && (Cat(q, 2) == Blank ==> Cat(q, 3) == Blank)
      && var p := Choose(q[0], Cat(q, 1), Cat(q, 2), Cat(q, 3), forceLines);
         && !p.Reserve? && (p.Squash? || p.Build? ==> p.k >= 1 && p.off + p.k <= |q|)
         && if p.Idle? then Underway(cats, pp + 1, goal) else Underway(cats[..pp] + Reduced(q, p), Moved(pp, p.d), goal)
  {
    hide G.Read, G.ReadAll, G.Reads, GrammarSteps.Fits, Fires, Quiet, Choose, G.Complete, Reduced;
    var q := cats[pp..];
    var p1, p2, p3 := Cat(cats, pp - 1), Cat(cats, pp - 2), Cat(cats, pp - 3);
    WindowAt(cats, pp);
    var s := ReadBefore(cats, pp, goal, pp);
    AllQuiet(cats, pp, goal, pp);
    assert Local(s, p1, p2, p3, q);
    LocalStep(s, p1, p2, p3, q, forceLines);
    var p := Choose(q[0], Cat(q, 1), Cat(q, 2), Cat(q, 3), forceLines);
    if p.Idle? {
      IdleUnderway(cats, pp, goal);
    } else {
      ReducedSome(q, p);
      StillForm(cats[..pp], goal, s, Reduced(q, p));
      StillQuiet(cats, pp, goal, Reduced(q, p), p.d);
    }
  }

  lemma ReducedSome(q: seq<Category>, p: Production)
    requires q != [] && !p.Reserve? && !p.Idle? && (p.Squash? || p.Build? ==> p.off + p.k <= |q|)
    ensures Reduced(q, p) != []
  {
  }

  lemma IdleUnderway(cats: seq<Category>, pp: nat, goal: Category)
    requires Underway(cats, pp, goal) && pp < |cats| && QuietAt(cats, pp) && !Cat(cats, pp + 1).Insert?
    ensures Underway(cats, pp + 1, goal)
  {
    hide QuietAt, G.Form;
  }

  lemma StillForm(before: seq<Category>, goal: Category, s: G.Stack, r: seq<Category>)
    requires G.ReadAll(G.Start(goal), before) == Some(s) && G.Reads(s, r)
    ensures G.Form(before + r, goal)
  {
    ReadAllTwo(G.Start(goal), before, r);
  }

  /** Nothing fires before the place to which the cursor goes back. */
  lemma StillQuiet(cats: seq<Category>, pp: nat, goal: Category, r: seq<Category>, d: int)
    requires Underway(cats, pp, goal) && pp < |cats| && r != [] && d <= 0 && G.Form(cats[..pp] + r, goal)
    requires r[0].Insert? ==> Cat(cats, pp - 1).Blank?
    requires d == 0 ==> !Fires(Cat(cats, pp - 1), r[0], Cat(r, 1), Cat(r, 2))
    requires d >= -1 ==> !Fires(Cat(cats, pp - 2), Cat(cats, pp - 1), r[0], Cat(r, 1))
    requires d >= -2 ==> !Fires(Cat(cats, pp - 3), Cat(cats, pp - 2), Cat(cats, pp - 1), r[0])
    ensures Underway(cats[..pp] + r, Moved(pp, d), goal)
  {
    hide Fires, G.Form;
    var c := cats[..pp] + r;
    forall i | 0 <= i < Moved(pp, d)
      ensures QuietAt(c, i)
    {
      assert QuietAt(cats, i);
    }
    FormNotBlank(cats, pp, goal);
    if Moved(pp, d) < pp {
      assert QuietAt(cats, Moved(pp, d));
    }
  }

  lemma FormNotBlank(cats: seq<Category>, pp: nat, goal: Category)
    requires Underway(cats, pp, goal)
    ensures pp > 0 ==> !cats[pp - 1].Blank?
  {
    hide G.Read, G.ReadAll, GrammarSteps.Fits, Fires, G.Complete;
    if pp > 0 {
      var s := ReadBefore(cats, pp, goal, pp - 1);
      ReadsMore(s, cats[pp - 1..]);
    }
  }

  /** When the cursor has passed everything, one category is left, that of the last item. */
  lemma EndUnderway(cats: seq<Category>, goal: Category)
    requires Underway(cats, |cats|, goal)
    ensures cats == [goal]
  {
    hide G.Read, G.ReadAll, G.Complete, GrammarSteps.Fits, Fires, Sure;
    var n := |cats|;
    var s := ReadBefore(cats, n, goal, n);
    ReadsNext(s, cats[n..]);
    FitsComplete(s, Cat(cats, n - 1), Cat(cats, n - 2), Cat(cats, n - 3), goal);
    if n >= 2 {
      SecondNotBlank(cats, goal);
    }
  }

  lemma SecondNotBlank(cats: seq<Category>, goal: Category)
    requires Underway(cats, |cats|, goal) && |cats| >= 2
    ensures !cats[|cats| - 2].Blank?
  {
    hide G.Read, G.ReadAll, GrammarSteps.Fits, Fires, G.Complete;
    var s := ReadBefore(cats, |cats|, goal, |cats| - 2);
    ReadsMore(s, cats[|cats| - 2..]);
  }

  lemma FitsComplete(s: G.Stack, p1: Category, p2: Category, p3: Category, goal: Category)
    requires GrammarSteps.Fits(s, p1, p2, p3) && G.Complete(s) && Sure(s, goal)
    ensures p1 == goal && !p1.Blank? && p2.Blank?
  {
  }

  // ---- The parser -----------------------------------------------------------------

  function Cats(live: seq<Scrap>): seq<Category> {
    seq(|live|, i requires 0 <= i < |live| => live[i].cat)
  }

  lemma ReducedLive(s: State, b: Builder, at: nat, k: nat, cat: Category, d: int)
    requires at + k <= |s.live| && s.w.mem.Count() >= 0
    ensures Cats(Reduce(s, b, at, k, cat, d).live) == Cats(s.live)[..at] + [cat] + Cats(s.live)[at + k..]
    ensures Reduce(s, b, at, k, cat, d).pp == Clamp(s.pp + d)
  {
  }

  lemma RecatLive(live: seq<Scrap>, at: nat, cat: Category)
    requires at < |live|
    ensures Cats(live[at := live[at].(cat := cat)]) == Cats(live)[..at] + [cat] + Cats(live)[at + 1..]
  {
  }

  /** A production without `make_reserved` does to the categories what it says. */
  lemma FireCats(s: State, p: Production)
    requires Valid(s) && Reductions.Fits(s, p) && !p.Reserve? && !p.Idle?
    ensures Width(p) >= 1 && s.pp + Off(p) + Width(p) <= |s.live|
    ensures Cats(Fire(s, p).live)
         == Cats(s.live)[..s.pp + Off(p)] + [Result(p)] + Cats(s.live)[s.pp + Off(p) + Width(p)..]
    ensures Fire(s, p).pp == Moved(s.pp, p.d)
  {
    hide Emit, ApplyAll, Reduce, Drop, Flat, Valid, Fire;
    match p
    case Angle(g, d, _) =>
      FireAngle(s, p);
      var lost := s.w.lost[s.w.mem.Count() := Drop(Flat(s.w, s.live[s.pp].trans))];
      ReducedLive(s.(w := s.w.(lost := lost)), Builder([Ch(Code(g))], YES_MATH, YES_MATH), s.pp, 1, Binop, d);
    case Squash(off, k, cat, d, _) =>
      FireIs(s, p);
      if k == 1 {
        RecatLive(s.live, s.pp + off, cat);
      } else {
        ReducedLive(s, Emit(EMPTY, Plain(off, k), Window(s)), s.pp + off, k, cat, d);
      }
    case Build(before, parts, off, k, cat, d, _) =>
      FireIs(s, p);
      ReducedLive(s, Emit(ApplyAll(EMPTY, before), parts, Window(s)), s.pp + off, k, cat, d);
  }

  lemma ReducedCats(cats: seq<Category>, pp: nat, p: Production)
    requires pp < |cats| && !p.Reserve? && !p.Idle? && (p.Squash? || p.Build? ==> pp + p.off + p.k <= |cats|)
    ensures pp + Off(p) + Width(p) <= |cats|
    ensures cats[..pp] + Reduced(cats[pp..], p) == cats[..pp + Off(p)] + [Result(p)] + cats[pp + Off(p) + Width(p)..]
  {
    var q := cats[pp..];
    assert q[Off(p) + Width(p)..] == cats[pp + Off(p) + Width(p)..];
    assert q[..Off(p)] == cats[pp..pp + Off(p)];
    assert cats[..pp] + cats[pp..pp + Off(p)] == cats[..pp + Off(p)];
  }

  lemma ChosenCats(s: State, forceLines: bool)
    requires Valid(s) && s.pp < |s.live|
    ensures var q := Cats(s.live)[s.pp..];
      && q[0] != Blank && (Cat(q, 1) == Blank ==> Cat(q, 2) == Blank) && (Cat(q, 2) == Blank ==> Cat(q, 3) == Blank)
    ensures (forall i :: 0 <= i < |s.live| ==> s.live[i].cat != Blank)
    ensures var q := Cats(s.live)[s.pp..];
      Chosen(s, forceLines) == Choose(q[0], Cat(q, 1), Cat(q, 2), Cat(q, 3), forceLines)
  {
    hide Choose;
    NoneBlank(s);
  }

  lemma StepCats(s: State, goal: Category, forceLines: bool)
    requires Valid(s) && s.pp < |s.live| && Underway(Cats(s.live), s.pp, goal)
    ensures Underway(Cats(Step(s, forceLines).live), Step(s, forceLines).pp, goal)
  {
    hide Valid, Choose, Chosen, Fire, Underway, Reductions.Fits, Reduced, Moved;
    var cats := Cats(s.live);
    NoneBlank(s);
    ChosenFits(s, forceLines);
    ChosenCats(s, forceLines);
    StepUnderway(cats, s.pp, goal, forceLines);
    var p := Chosen(s, forceLines);
    if p.Idle? {
      IdleFire(s, p);
    } else {
      FireCats(s, p);
      ReducedCats(cats, s.pp, p);
    }
  }

  lemma IdleFire(s: State, p: Production)
    requires Valid(s) && Reductions.Fits(s, p) && p.Idle?
    ensures Fire(s, p) == s.(pp := s.pp + 1)
  {
  }

  lemma {:induction false} RunUnderway(s: State, demand: seq<nat>, cov: seq<nat>, goal: Category, forceLines: bool)
    requires Lawful(s, demand, cov) && Underway(Cats(s.live), s.pp, goal)
    ensures var r := Run(s, demand, cov, forceLines); Underway(Cats(r.live), |r.live|, goal)
    decreases |s.live|, SumRank(s.live), |s.live| - s.pp
  {
    hide Lawful, Underway, Chosen, Valid, Fire;
    Unpack(s, demand, cov);
    if s.pp < |s.live| {
      StepCats(s, goal, forceLines);
      StepShrinks(s, forceLines);
      NoneBlank(s);
      ChosenFits(s, forceLines);
      FireKeeps(s, demand, cov, Chosen(s, forceLines));
      RunUnderway(Step(s, forceLines), demand, cov, goal, forceLines);
    }
  }

  /** Of every C text, with insertions anywhere, the parser makes one scrap, and that has the category of
      the last item of the text. */
  lemma TextReduced(ss: G.List, s: State, demand: seq<nat>, forceLines: bool)
    requires ss.More? && G.ListOk(ss, true) && Fresh(s, demand) && Stripped(Cats(s.live)) == G.ListYield(ss)
    ensures Lawful(s, demand, Texts(s.live))
    ensures var r := Run(s, demand, Texts(s.live), forceLines);
      |r.live| == 1 && r.live[0].cat == G.ItemCategory(G.Last(ss))
  {
    hide Lawful, G.ReadAll, G.Form, G.ListYield, Stripped, G.ListOk;
    FreshLawful(s, demand);
    var goal := G.ItemCategory(G.Last(ss));
    TextForm(ss, Cats(s.live));
    RunUnderway(s, demand, Texts(s.live), goal, forceLines);
    var r := Run(s, demand, Texts(s.live), forceLines);
    EndUnderway(Cats(r.live), goal);
    assert Cats(r.live)[0] == r.live[0].cat;
  }

  function OnlyItem(t: G.Statement): G.List {
    G.More(G.Stated(t), G.End)
  }

  lemma OneOk(t: G.Statement)
    requires G.StatementOk(t)
    ensures G.ListOk(OnlyItem(t), true)
  {
    hide G.StatementOk;
  }

  lemma OneYield(t: G.Statement)
    ensures G.ListYield(OnlyItem(t)) == G.Yield(t)
  {
    hide G.Yield;
    assert G.Yield(t) + [] == G.Yield(t);
  }

  lemma OneLast(t: G.Statement)
    ensures G.ItemCategory(G.Last(OnlyItem(t))) == Stmt
  {
  }

  /** A text that is one statement is reduced to a statement. */
  lemma StatementReduced(t: G.Statement, s: State, demand: seq<nat>, forceLines: bool)
    requires G.StatementOk(t) && Fresh(s, demand) && Stripped(Cats(s.live)) == G.Yield(t)
    ensures Lawful(s, demand, Texts(s.live))
    ensures var r := Run(s, demand, Texts(s.live), forceLines); |r.live| == 1 && r.live[0].cat == Stmt
  {
    hide Lawful, Run, G.StatementOk, Stripped, G.Yield, G.ListYield, G.ListOk, Fresh, G.Last, G.ItemCategory, Texts,
      Cats;
    OneOk(t);
    OneYield(t);
    OneLast(t);
    TextReduced(OnlyItem(t), s, demand, forceLines);
  }
}
