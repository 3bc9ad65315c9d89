/** The steps of the parser at types, declarators, declarations and function definitions. */
module DeclarationSteps {
  import opened ExpressionSteps
  import opened Grammar
  import opened GrammarSteps
  import opened Productions
  import opened Wrappers

  // ---- Types ----------------------------------------------------------------------

  /** Where a declaration is expected: of which kind it is, and what comes behind it. */
  function WhereOf(s: Stack): Where {
    if s.Empty? then Within
    else
      match s.top
      case St(p) => if Unit(p) then Outer else Within
      case Inside(kind) => Between(kind)
      case _ => Within
  }

  function NextOf(s: Stack): Stack {
    if s.Empty? then s
    else
      match s.top
      case St(p) => Continue(p, s.rest, Decl)
      case Inside(_) => s.rest
      case _ => s
  }

  lemma IntLeft(p1: Category)
    requires !FiresPair(p1, IntLike)
    ensures !p1.Exp? && !p1.IntLike? && !p1.DeclHead?
  {
  }

  lemma DeclTop(s: Stack, p1: Category, p2: Category, p3: Category, c0: Category)
    requires Fits(s, p1, p2, p3) && Read(s, c0).Some? && (c0.IntLike? || c0.DeclHead?)
    requires c0.IntLike? ==> !p1.Exp? && !p1.IntLike? && !p1.DeclHead?
    ensures s.top.St? || s.top.Inside? || s.top.Body?
    ensures s.top.St? ==> Unit(s.top.place) || InBlock(s.top.place)
    ensures s.top.Inside? ==> p1.Lpar? && !s.top.kind.Condition?
  {
  }

  lemma DeclShape(s: Stack)
    requires s.Push? && (s.top.St? || s.top.Inside? || s.top.Body?)
    requires s.top.St? ==> Unit(s.top.place) || InBlock(s.top.place)
    requires s.top.Inside? ==> !s.top.kind.Condition?
    ensures Read(s, IntLike) == Some(Push(Typed(WhereOf(s)), NextOf(s)))
    ensures Read(s, DeclHead) == Some(Push(Declaring(WhereOf(s)), NextOf(s)))
    ensures !WhereOf(s).Between? ==> Read(s, Decl) == Some(NextOf(s))
    ensures WhereOf(s).Outer? ==> s.top.St? && Unit(s.top.place)
  {
    hide Continue;
  }

  /** Where a declaration begins, if nothing before it fires. */
  lemma DeclPlace(s: Stack, p1: Category, p2: Category, p3: Category, c0: Category)
    requires Fits(s, p1, p2, p3) && Settled(p1, p2, p3, c0) && Read(s, c0).Some? && (c0.IntLike? || c0.DeclHead?)
    ensures s.Push? && (s.top.St? || s.top.Inside? || s.top.Body?)
    ensures s.top.Inside? ==> p1.Lpar? && !s.top.kind.Condition?
    ensures Read(s, IntLike) == Some(Push(Typed(WhereOf(s)), NextOf(s)))
    ensures Read(s, DeclHead) == Some(Push(Declaring(WhereOf(s)), NextOf(s)))
    ensures !WhereOf(s).Between? ==> Read(s, Decl) == Some(NextOf(s))
    ensures WhereOf(s).Outer? ==> s.top.St? && Unit(s.top.place)
  {
    hide Read, FiresPair, FiresTriple, FiresFour, WhereOf, NextOf;
    if c0.IntLike? {
      IntLeft(p1);
    }
    DeclTop(s, p1, p2, p3, c0);
    DeclShape(s);
  }

  lemma TypedReads(at: Where, next: Stack, c: Category)
    ensures var r := Read(Push(Typed(at), next), c);
      && (c.IntLike? ==> r == Some(Push(Typed(at), next)))
      && (c.Exp? ==> r == Some(Push(if at.Outer? then Named else Declaring(at), next)))
      && (c.Unorbinop? ==> r == Some(Push(Declaring(at), next)))
      && (c.Semi? && r.Some? ==> r == Some(next) && !at.Between?)
      && (r.Some? && !c.Insert? ==> TypeWord(c) || Star(c) || c.Exp? || c.Comma? || Close(c) || c.Semi?)
  {
  }

  lemma DeclaringReads(at: Where, next: Stack)
    ensures var r := Push(Declaring(at), next);
      && Read(r, Exp) == Some(r) == Read(r, Unorbinop) && Read(r, Cast) == Some(r)
      && (!at.Between? ==> Read(r, Comma) == Some(r) && Read(r, Semi) == Some(next))
  {
  }

  /** A name behind a type alone may be followed by less than a name in a declaration. */
  lemma NamedReads(next: Stack, c: Category)
    requires Read(Push(Named, next), c).Some? && !c.Insert?
    ensures Read(Push(Named, next), c) == Read(Push(Declaring(Outer), next), c)
    ensures !c.RawInt? && !c.StructLike?
  {
  }

  lemma DeclaringNot(at: Where, next: Stack, c: Category)
    requires !at.Outer? && Read(Push(Declaring(at), next), c).Some?
    ensures !c.RawInt? && !c.StructLike?
  {
  }

  lemma IntRules(c1: Category, c2: Category, c3: Category, forceLines: bool)
    ensures Rules(IntLike, c1, c2, c3, forceLines) == IntLikeCases(c1, c2, c3)
  {
    hide IntLikeCases, Sane;
  }

  lemma IntTable(c1: Category, c2: Category, c3: Category)
    requires TypeWord(c1) || Star(c1) || c1.Exp? || c1.Comma? || Close(c1) || c1.Semi?
    requires c1.Exp? ==> !c2.RawInt? && !c2.StructLike?
    ensures var p := IntLikeCases(c1, c2, c3);
      if c1.IntLike? then Makes(p, 2, IntLike, -2)
      else if c1.Exp? || c1.Unorbinop? || c1.Semi? then Makes(p, 1, DeclHead, -1)
      else p.Idle?
  {
    hide Sane;
  }

  lemma IntPair(c1: Category)
    ensures FiresPair(IntLike, c1) == (c1.IntLike? || c1.Exp? || c1.Unorbinop? || c1.Semi?)
  {
  }

  lemma IntFires(c1: Category, c2: Category, c3: Category)
    ensures Fires(IntLike, c1, c2, c3) == (c1.IntLike? || c1.Exp? || c1.Unorbinop? || c1.Semi?)
  {
    hide Fires, FiresAlone, FiresPair, FiresTriple;
    NotAlone(IntLike);
    IntPair(c1);
    NoTriple(IntLike, c1, c2);
    FiresIs(IntLike, c1, c2, c3, c1.IntLike? || c1.Exp? || c1.Unorbinop? || c1.Semi?, false);
  }

  /** One category becomes another, from which the next two are read to the same. */
  lemma KeepsLookTwo(s: Stack, p1: Category, p2: Category, p3: Category, q: seq<Category>, p: Production,
                     cat: Category, d: int)
    requires Local(s, p1, p2, p3, q) && |q| >= 3 && Makes(p, 1, cat, d) && Quietly(cat, d, p1, p2)
    requires Read(s, cat).Some? && Read(Read(s, cat).value, q[1]).Some?
    requires Read(s, q[0]).Some? && Read(Read(s, q[0]).value, q[1]).Some?
    requires Read(Read(Read(s, cat).value, q[1]).value, q[2]) == Read(Read(Read(s, q[0]).value, q[1]).value, q[2])
    ensures Keeps(s, p1, p2, p3, q, p)
  {
    hide Read, Reads, Fits, Quiet, Keeps, Quietly;
    LocalFacts(s, p1, p2, p3, q);
    ReadsMore(s, q);
    var r1 := Read(s, cat).value;
    assert q[1..] == [q[1]] + q[2..] && q[2..] == [q[2]] + q[3..];
    ReadsPush(Read(r1, q[1]).value, q[2], q[3..]);
    ReadsPush(r1, q[1], q[2..]);
    ReadsPush(s, cat, q[1..]);
    KeepsFrom(s, p1, p2, p3, q, p);
  }

  /** Where nothing of a declaration can end, more is read. */
  lemma DeclMore(at: Where, next: Stack)
    ensures !Complete(Push(Typed(at), next)) && !Complete(Push(Declaring(at), next)) && !Complete(Push(Named, next))
  {
  }

  /** Behind a type and a name, something is read that may stand behind a name in a declaration. */
  lemma ThirdReads(s: Stack, p1: Category, p2: Category, p3: Category, q: seq<Category>, at: Where, next: Stack)
    requires Local(s, p1, p2, p3, q) && NoInserts(q) && |q| >= 2 && q[0].IntLike? && q[1].Exp?
    requires Read(s, q[0]) == Some(Push(Typed(at), next))
    ensures |q| >= 3 && !q[2].RawInt? && !q[2].StructLike?
    ensures Read(Push(if at.Outer? then Named else Declaring(at), next), q[2]) == Read(Push(Declaring(at), next), q[2])
  {
    hide Read, Reads, Fits, Quiet, Complete;
    LocalFacts(s, p1, p2, p3, q);
    ReadsMore(s, q);
    TypedReads(at, next, Exp);
    DeclMore(at, next);
    var r := Push(if at.Outer? then Named else Declaring(at), next);
    assert |q| >= 3 && Read(r, q[2]).Some?;
    if at.Outer? {
      NamedReads(next, q[2]);
    } else {
      DeclaringNot(at, next, q[2]);
    }
  }

  lemma IntStep(s: Stack, p1: Category, p2: Category, p3: Category, q: seq<Category>, forceLines: bool)
    requires Local(s, p1, p2, p3, q) && NoInserts(q) && q[0].IntLike?
    ensures Keeps(s, p1, p2, p3, q, Rules(q[0], Cat(q, 1), Cat(q, 2), Cat(q, 3), forceLines))
  {
    hide Reads, Fires, Fits, Read, Quiet, Settled, Keeps, Local, Makes, Usual, Quietly, Rules, IntLikeCases, Complete,
      WhereOf, NextOf, TypeWord, Star, Close;
    LocalFacts(s, p1, p2, p3, q);
    var c1, c2, c3 := Cat(q, 1), Cat(q, 2), Cat(q, 3);
    var p := Rules(q[0], c1, c2, c3, forceLines);
    var at, next := WhereOf(s), NextOf(s);
    IntNotAlone();
    SettledIs(p1, p2, p3, q[0], c1, c2);
    DeclPlace(s, p1, p2, p3, IntLike);
    DeclMore(at, next);
    NotLast(s, p1, p2, p3, q);
    TypedReads(at, next, c1);
    DeclaringReads(at, next);
    if c1.Exp? {
      ThirdReads(s, p1, p2, p3, q, at, next);
    }
    IntRules(c1, c2, c3, forceLines);
    IntTable(c1, c2, c3);
    IntFires(c1, c2, c3);
    UsualAre();
    QuietlyUsual(DeclHead, -1, p1, p2);
    if c1.IntLike? {
      KeepsTwo(s, p1, p2, p3, q, p, IntLike, -2);
    } else if c1.Exp? {
      KeepsLookTwo(s, p1, p2, p3, q, p, DeclHead, -1);
    } else if c1.Unorbinop? || c1.Semi? {
      KeepsLook(s, p1, p2, p3, q, p, DeclHead, -1);
    } else {
      KeepsIdle(s, p1, p2, p3, q, p);
    }
  }

  lemma IntNotAlone()
    ensures !FiresAlone(IntLike) && !FiresAlone(DeclHead)
  {
  }

  // ---- Declarators ----------------------------------------------------------------

  lemma HeadRules(c1: Category, c2: Category, c3: Category, forceLines: bool)
    ensures Rules(DeclHead, c1, c2, c3, forceLines) == DeclHeadCases(c1, c2, c3)
  {
    hide DeclHeadCases, Sane;
  }

  /** What becomes of a declaration, by what follows it. */
  lemma HeadTable(c1: Category, c2: Category, c3: Category)
    requires !c1.Decl? && !c1.Colon? && !c2.Colcol? && (c1.Binop? && c2.Exp? ==> !c3.Rpar?)
    requires c1.Exp? ==> c2.Exp? || c2.Lpar? || EndsName(c2)
    ensures var p := DeclHeadCases(c1, c2, c3);
      if c1.Comma? || c1.Unorbinop? || c1.Cast? then Makes(p, 2, DeclHead, -1)
      else if c1.Exp? && EndsName(c2) then Makes(p, 2, DeclHead, -1)
      else if c1.Binop? && c2.Exp? && (c3.Comma? || c3.Semi?) then Makes(p, 3, DeclHead, -1)
      else if c1.Lbrace? || c1.IntLike? then Makes(p, 1, FnDecl, 0)
      else if c1.Semi? then Makes(p, 2, Decl, -1)
      else p.Idle?
  {
    hide Sane;
  }

  lemma HeadPair(c1: Category)
    ensures FiresPair(DeclHead, c1) ==
            (c1.Comma? || c1.Unorbinop? || c1.Cast? || c1.Semi? || c1.Lbrace? || c1.IntLike?)
  {
  }

  lemma HeadTriple(c1: Category, c2: Category)
    ensures FiresTriple(DeclHead, c1, c2) == (c1.Exp? && EndsName(c2))
  {
    hide EndsName;
  }

  lemma HeadFour(c1: Category, c2: Category, c3: Category)
    ensures FiresFour(DeclHead, c1, c2, c3) == (c1.Binop? && c2.Exp? && (c3.Comma? || c3.Semi?))
  {
  }

  lemma HeadFires(c1: Category, c2: Category, c3: Category)
    ensures Fires(DeclHead, c1, c2, c3) ==
            (|| c1.Comma? || c1.Unorbinop? || c1.Cast? || c1.Semi? || c1.Lbrace? || c1.IntLike?
             || (c1.Exp? && EndsName(c2)) || (c1.Binop? && c2.Exp? && (c3.Comma? || c3.Semi?)))
  {
    hide FiresAlone, FiresPair, FiresTriple, FiresFour;
    IntNotAlone();
    HeadPair(c1);
    HeadTriple(c1, c2);
    HeadFour(c1, c2, c3);
  }

  /** What is read in a declaration. */
  lemma HeadReads(at: Where, next: Stack, c: Category)
    requires Read(Push(Declaring(at), next), c).Some? && !c.Insert?
    ensures EndsName(c) || c.Exp? || c.Lpar?
    ensures !c.Decl? && !c.Colon? && !c.Colcol? && (c.Lbrace? || c.IntLike? ==> at.Outer?)
    ensures c.Semi? || c.Binop? ==> !at.Between?
  {
  }

  /** An initial value. */
  lemma InitReads(at: Where, next: Stack, c: Category)
    requires !at.Between?
    ensures Read(Push(Declaring(at), next), Binop) == Some(Push(Operand, Push(Init(at), next)))
    ensures var r := Push(After, Push(Init(at), next));
      Read(r, Comma) == Some(Push(Declaring(at), next)) && Read(r, Semi) == Some(next) && Read(r, Rpar).None?
  {
  }

  /** The name of a function turns out to be that. */
  lemma FunctionReads(s: Stack, c: Category)
    requires s.Push? && s.top.St? && Unit(s.top.place) && (c.Lbrace? || c.IntLike?)
    ensures Read(s, FnDecl).Some?
    ensures Read(Read(s, FnDecl).value, c) == Read(Push(Declaring(Outer), Continue(s.top.place, s.rest, Decl)), c)
  {
  }

  /** Three categories become one, from which the next one is read to the same. */
  lemma KeepsThreeLook(s: Stack, p1: Category, p2: Category, p3: Category, q: seq<Category>, p: Production,
                       cat: Category, d: int)
    requires Local(s, p1, p2, p3, q) && |q| >= 4 && Makes(p, 3, cat, d) && Quietly(cat, d, p1, p2) && Read(s, cat).Some?
    requires Read(s, q[0]).Some? && Read(Read(s, q[0]).value, q[1]).Some?
    requires var r2 := Read(Read(s, q[0]).value, q[1]).value;
             Read(r2, q[2]).Some? && Read(Read(s, cat).value, q[3]) == Read(Read(r2, q[2]).value, q[3])
    ensures Keeps(s, p1, p2, p3, q, p)
  {
    hide Read, Reads, Fits, Quiet, Keeps, Quietly;
    LocalFacts(s, p1, p2, p3, q);
    Fourth(s, p1, p2, p3, q);
    ReadsMore(s, q);
    var r3 := Read(Read(Read(s, q[0]).value, q[1]).value, q[2]).value;
    ReadsNext(r3, q[3..]);
    assert q[3..][1..] == q[4..] && q[3..] == [q[3]] + q[4..];
    ReadsPush(Read(s, cat).value, q[3], q[4..]);
    ReadsPush(s, cat, q[3..]);
    KeepsFrom(s, p1, p2, p3, q, p);
  }

  lemma ListedNot(p1: Category, c1: Category)
    ensures p1.Lpar? && c1.Comma? ==> FiresTriple(p1, DeclHead, c1)
  {
  }

  /** What follows the declaration at the cursor can stand there. */
  lemma HeadFollows(s: Stack, p1: Category, p2: Category, p3: Category, q: seq<Category>, at: Where, next: Stack)
    requires Local(s, p1, p2, p3, q) && NoInserts(q) && |q| >= 2 && q[0].DeclHead?
    requires Read(s, q[0]) == Some(Push(Declaring(at), next))
    ensures HeadFits(at, q[1], Cat(q, 2), Cat(q, 3))
    ensures q[1].Binop? && Cat(q, 2).Exp? ==> |q| >= 4
  {
    hide Read, Reads, Fits, Quiet, Complete, EndsName, Local;
    LocalFacts(s, p1, p2, p3, q);
    Fourth(s, p1, p2, p3, q);
    HeadReads(at, next, q[1]);
    DeclaringReads(at, next);
    EndsNot();
    NotSoon(s, p1, p2, p3, q);
    if q[1].Exp? {
      DeclMore(at, next);
      HeadReads(at, next, q[2]);
    } else if q[1].Binop? && Cat(q, 2).Exp? {
      var u := Push(Init(at), next);
      InitReads(at, next, Blank);
      OperandExp(u);
      AfterMore(u);
    } else if |q| >= 3 {
      NoColcol(Read(Read(s, q[0]).value, q[1]).value, q[2]);
    }
  }

  predicate HeadFits(at: Where, c1: Category, c2: Category, c3: Category) {
    && (EndsName(c1) || c1.Exp? || c1.Lpar?) && !c1.Decl? && !c1.Colon? && !c2.Colcol?
    && (c1.Binop? && c2.Exp? ==> !c3.Rpar?) && (c1.Exp? ==> c2.Exp? || c2.Lpar? || EndsName(c2))
    && (c1.Lbrace? || c1.IntLike? ==> at.Outer?) && (c1.Semi? || c1.Binop? ==> !at.Between?)
  }

  lemma EndsNot()
    ensures !EndsName(Decl) && !EndsName(Colon) && !EndsName(Colcol) && !EndsName(Blank)
  {
  }

  lemma {:induction false} NoColcol(s: Stack, c: Category)
    requires Read(s, c).Some?
    ensures !c.Colcol?
    decreases s
  {
    if !c.Insert? && s.top.MayElse? && !c.ElseLike? {
      NoColcol(s.rest, c);
    }
  }

  /** Where a text cannot end, more is read. */
  lemma NotSoon(s: Stack, p1: Category, p2: Category, p3: Category, q: seq<Category>)
    requires Local(s, p1, p2, p3, q) && |q| >= 2 && Read(s, q[0]).Some? && Read(Read(s, q[0]).value, q[1]).Some?
    ensures !Complete(Read(Read(s, q[0]).value, q[1]).value) ==> |q| >= 3
    ensures |q| >= 3 ==> var r2 := Read(Read(s, q[0]).value, q[1]).value;
      Read(r2, q[2]).Some? && (!Complete(Read(r2, q[2]).value) ==> |q| >= 4)
  {
    hide Read, Reads, Fits, Quiet, Complete;
    LocalFacts(s, p1, p2, p3, q);
    ReadsMore(s, q);
  }

  lemma HeadStep(s: Stack, p1: Category, p2: Category, p3: Category, q: seq<Category>, forceLines: bool)
    requires Local(s, p1, p2, p3, q) && NoInserts(q) && q[0].DeclHead?
    ensures Keeps(s, p1, p2, p3, q, Rules(q[0], Cat(q, 1), Cat(q, 2), Cat(q, 3), forceLines))
  {
    hide Reads, Fires, Fits, Read, Quiet, Settled, FiresTriple, FiresPair, FiresFour, Keeps, Local, Makes, Usual,
      Quietly, Rules, DeclHeadCases, Complete, WhereOf, NextOf, EndsName;
    LocalFacts(s, p1, p2, p3, q);
    var c1, c2, c3 := Cat(q, 1), Cat(q, 2), Cat(q, 3);
    var p := Rules(q[0], c1, c2, c3, forceLines);
    var at, next := WhereOf(s), NextOf(s);
    IntNotAlone();
    QuietBack(p1, p2, p3, q[0], c1, c2);
    SettledIs(p1, p2, p3, q[0], c1, c2);
    DeclPlace(s, p1, p2, p3, DeclHead);
    DeclMore(at, next);
    NotLast(s, p1, p2, p3, q);
    HeadFollows(s, p1, p2, p3, q, at, next);
    DeclaringReads(at, next);
    ListedNot(p1, c1);
    HeadRules(c1, c2, c3, forceLines);
    HeadTable(c1, c2, c3);
    HeadFires(c1, c2, c3);
    UsualAre();
    QuietlyUsual(DeclHead, -1, p1, p2);
    QuietlyUsual(FnDecl, 0, p1, p2);
    if c1.Comma? || c1.Unorbinop? || c1.Cast? || (c1.Exp? && EndsName(c2)) {
      CommaPlace(s);
      KeepsTwo(s, p1, p2, p3, q, p, DeclHead, -1);
    } else if c1.Binop? && c2.Exp? && (c3.Comma? || c3.Semi?) {
      InitReads(at, next, c3);
      OperandExp(Push(Init(at), next));
      KeepsThreeLook(s, p1, p2, p3, q, p, DeclHead, -1);
    } else if c1.Lbrace? || c1.IntLike? {
      OuterNext(s);
      FunctionReads(s, c1);
      KeepsLook(s, p1, p2, p3, q, p, FnDecl, 0);
    } else if c1.Semi? {
      KeepsTwo(s, p1, p2, p3, q, p, Decl, -1);
    } else {
      KeepsIdle(s, p1, p2, p3, q, p);
    }
  }

  lemma CommaPlace(s: Stack)
    ensures s.Push? && !s.top.Inside? ==> !WhereOf(s).Between?
  {
  }

  lemma OuterNext(s: Stack)
    ensures s.Push? && s.top.St? && Unit(s.top.place) ==> NextOf(s) == Continue(s.top.place, s.rest, Decl)
  {
  }

  // ---- Functions and items --------------------------------------------------------

  lemma FnRules(c1: Category, c2: Category, c3: Category, forceLines: bool)
    ensures Rules(FnDecl, c1, c2, c3, forceLines) == FnDeclCases(c1, c2, c3)
  {
    hide FnDeclCases, Sane;
  }

  lemma FnTable(c1: Category, c2: Category, c3: Category)
    ensures var p := FnDeclCases(c1, c2, c3);
      if c1.Decl? then Makes(p, 2, FnDecl, 0) else if c1.Stmt? then Makes(p, 2, Function, -1) else p.Idle?
  {
    hide Sane;
  }

  lemma FnPair(c1: Category)
    ensures FiresPair(FnDecl, c1) == (c1.Decl? || c1.Stmt?)
  {
  }

  lemma FnFires(c1: Category, c2: Category, c3: Category)
    ensures Fires(FnDecl, c1, c2, c3) == (c1.Decl? || c1.Stmt?)
  {
    hide Fires, FiresAlone, FiresPair, FiresTriple;
    NotAlone(FnDecl);
    FnPair(c1);
    NoTriple(FnDecl, c1, c2);
    FiresIs(FnDecl, c1, c2, c3, c1.Decl? || c1.Stmt?, false);
  }

  lemma FnPlace(s: Stack, p1: Category, p2: Category, p3: Category)
    requires Fits(s, p1, p2, p3) && Read(s, FnDecl).Some?
    ensures Read(s, Function).Some? && Read(s, FnDecl) == Some(Push(Body, Read(s, Function).value))
  {
  }

  lemma BodyReads(next: Stack)
    ensures Read(Push(Body, next), Decl) == Some(Push(Body, next)) && Read(Push(Body, next), Stmt) == Some(next)
  {
  }

  lemma FnStep(s: Stack, p1: Category, p2: Category, p3: Category, q: seq<Category>, forceLines: bool)
    requires Local(s, p1, p2, p3, q) && NoInserts(q) && q[0].FnDecl?
    ensures Keeps(s, p1, p2, p3, q, Rules(q[0], Cat(q, 1), Cat(q, 2), Cat(q, 3), forceLines))
  {
    hide Reads, Fires, Fits, Read, Quiet, Keeps, Local, Makes, Usual, Quietly, Rules, FnDeclCases;
    LocalFacts(s, p1, p2, p3, q);
    var c1, c2, c3 := Cat(q, 1), Cat(q, 2), Cat(q, 3);
    var p := Rules(q[0], c1, c2, c3, forceLines);
    FnPlace(s, p1, p2, p3);
    BodyReads(Read(s, Function).value);
    FnRules(c1, c2, c3, forceLines);
    FnTable(c1, c2, c3);
    FnFires(c1, c2, c3);
    UsualAre();
    if c1.Decl? {
      KeepsTwo(s, p1, p2, p3, q, p, FnDecl, 0);
    } else if c1.Stmt? {
      KeepsTwo(s, p1, p2, p3, q, p, Function, -1);
    } else {
      KeepsIdle(s, p1, p2, p3, q, p);
    }
  }

  lemma WholeRules(c1: Category, c2: Category, c3: Category, forceLines: bool)
    ensures Rules(Stmt, c1, c2, c3, forceLines) == StmtCases(c1, c2, c3, forceLines)
    ensures Rules(Decl, c1, c2, c3, forceLines) == DeclCases(c1, c2, c3)
    ensures Rules(Function, c1, c2, c3, forceLines) == FunctionCases(c1, c2, c3)
  {
    hide StmtCases, DeclCases, FunctionCases, Sane;
  }

  lemma WholeTable(c1: Category, c2: Category, c3: Category, forceLines: bool)
    ensures var p := StmtCases(c1, c2, c3, forceLines); if Whole(c1) then Makes(p, 2, c1, -1) else p.Idle?
    ensures var p := DeclCases(c1, c2, c3); if Whole(c1) then Makes(p, 2, c1, -1) else p.Idle?
    ensures var p := FunctionCases(c1, c2, c3); if Whole(c1) then Makes(p, 2, c1, -1) else p.Idle?
  {
    hide Sane;
  }

  lemma WholePair(c0: Category, c1: Category)
    requires Whole(c0)
    ensures FiresPair(c0, c1) == Whole(c1)
  {
  }

  lemma WholeFires(c0: Category, c1: Category, c2: Category, c3: Category)
    requires Whole(c0)
    ensures Fires(c0, c1, c2, c3) == Whole(c1)
  {
    hide Fires, FiresAlone, FiresPair, FiresTriple;
    NotAlone(c0);
    WholePair(c0, c1);
    NoTriple(c0, c1, c2);
    FiresIs(c0, c1, c2, c3, Whole(c1), false);
  }

  lemma WholeLeft(p1: Category, c0: Category)
    requires !FiresPair(p1, c0) && Whole(c0)
    ensures !Whole(p1) && (c0.Stmt? ==> !p1.Lpar? && !p1.FnDecl? && !p1.IfClause? && !p1.ElseLike? && !p1.Tag?)
    ensures c0.Stmt? ==> !p1.IfHead? && !p1.ElseHead?
    ensures c0.Decl? ==> !p1.FnDecl?
  {
  }

  lemma WholeElsewhere(s: Stack, c0: Category)
    requires s.Push? && !s.top.St? && !s.top.MayElse? && Whole(c0) && Read(s, c0).Some?
    ensures (s.top.Inside? && c0.Stmt?) || (s.top.Body? && !c0.Function?)
  {
  }

  lemma WholeTop(s: Stack, p1: Category, p2: Category, p3: Category, c0: Category)
    requires Fits(s, p1, p2, p3) && Read(s, c0).Some? && Whole(c0)
    requires !Whole(p1) && (c0.Stmt? ==> !p1.Lpar? && !p1.FnDecl? && !p1.IfClause? && !p1.ElseLike? && !p1.Tag?)
    requires c0.Stmt? ==> !p1.IfHead? && !p1.ElseHead?
    requires c0.Decl? ==> !p1.FnDecl?
    ensures s.Push? && s.top.St? && (Unit(s.top.place) || InBlock(s.top.place) || s.top.place.Do?)
    ensures s.top.place.Do? ==> s.rest.Push? && s.rest.top.While?
  {
    hide Read;
    if s.top.St? {
      WholePart(s.top.place, s.rest, c0);
    } else {
      WholeElsewhere(s, c0);
    }
  }

  lemma WholePart(p: Place, rest: Stack, c0: Category)
    requires Whole(c0) && Read(Push(St(p), rest), c0).Some?
    ensures c0.Stmt? || Unit(p) || InBlock(p)
    ensures Read(Push(St(p), rest), c0) == Some(if p.Do? then rest else Continue(p, rest, c0))
  {
  }

  lemma WholeAt(p: Place, rest: Stack, c: Category)
    requires Whole(c) && (Unit(p) || InBlock(p))
    ensures Read(Push(St(p), rest), c) == if c.Function? && !Unit(p) then None else Some(Continue(p, rest, c))
  {
    hide Continue;
  }

  lemma WholeWhile(rest: Stack, c: Category)
    requires Whole(c) && rest.Push? && rest.top.While?
    ensures Read(rest, c).None?
  {
  }

  lemma Continued(p: Place, rest: Stack, c0: Category, c1: Category)
    requires Unit(p) || InBlock(p)
    ensures var q := if InBlock(p) then Next else Later(c0);
      && Continue(p, rest, c0) == Push(St(q), rest) && Unit(q) == Unit(p) && InBlock(q) == InBlock(p)
      && Continue(q, rest, c1) == Continue(p, rest, c1)
  {
  }

  /** Two items side by side count for the second one. */
  lemma WholePlace(s: Stack, p1: Category, p2: Category, p3: Category, c0: Category, c1: Category)
    requires Fits(s, p1, p2, p3) && Settled(p1, p2, p3, c0) && Whole(c0) && Whole(c1)
    requires Read(s, c0).Some? && Read(Read(s, c0).value, c1).Some?
    ensures Read(s, c1) == Read(Read(s, c0).value, c1)
  {
    hide Read, Fits, FiresPair, FiresTriple, FiresFour, Whole, Continue, Unit, InBlock;
    WholeLeft(p1, c0);
    WholeTop(s, p1, p2, p3, c0);
    var p := s.top.place;
    WholePart(p, s.rest, c0);
    assert s == Push(St(p), s.rest);
    if p.Do? {
      WholeWhile(s.rest, c1);
    } else {
      WholeAt(p, s.rest, c1);
      Continued(p, s.rest, c0, c1);
      WholeAt(if InBlock(p) then Next else Later(c0), s.rest, c1);
    }
  }

  lemma WholeStep(s: Stack, p1: Category, p2: Category, p3: Category, q: seq<Category>, forceLines: bool)
    requires Local(s, p1, p2, p3, q) && NoInserts(q) && Whole(q[0])
    ensures Keeps(s, p1, p2, p3, q, Rules(q[0], Cat(q, 1), Cat(q, 2), Cat(q, 3), forceLines))
  {
    hide Reads, Fires, Fits, Read, Quiet, Settled, FiresAlone, Keeps, Local, Makes, Usual, Quietly, Rules, StmtCases,
      DeclCases, FunctionCases;
    LocalFacts(s, p1, p2, p3, q);
    var c0, c1, c2, c3 := q[0], Cat(q, 1), Cat(q, 2), Cat(q, 3);
    var p := Rules(c0, c1, c2, c3, forceLines);
    NotAlone(c0);
    SettledIs(p1, p2, p3, c0, c1, c2);
    WholeRules(c1, c2, c3, forceLines);
    WholeTable(c1, c2, c3, forceLines);
    WholeFires(c0, c1, c2, c3);
    UsualAre();
    if Whole(c1) {
      WholePlace(s, p1, p2, p3, c0, c1);
      KeepsTwo(s, p1, p2, p3, q, p, c1, -1);
    } else {
      KeepsIdle(s, p1, p2, p3, q, p);
    }
  }
}
