/** The steps of the parser at operands, operators and parentheses. */
module ExpressionSteps {
  import opened Grammar
  import opened GrammarSteps
  import opened Productions
  import opened Wrappers

  // ---- Operands -------------------------------------------------------------------

  /** A statement that may begin with any category. */
  predicate Ordinary(p: Place) {
    !p.Head? && !p.ElseBlock?
  }

  /** What is expected behind an expression that begins here. */
  function Under(s: Stack): Stack {
    if s.Empty? then s
    else
      match s.top
      case St(p) => Push(EndOrLabel(Unit(p)), Continue(p, s.rest, Stmt))
      case Keyword => Push(EndOrLabel(false), s.rest)
      case Inside(_) => s
      case _ => s.rest
  }

  /** Outside of declarators, an expression begins here that is not about to be absorbed to the left. */
  predicate Stands(s: Stack, p1: Category, p2: Category) {
    && s.Push?
    && match s.top
       case St(p) => Ordinary(p)
       case Keyword => p1.CaseLike?
       case Inside(_) => p1.Lpar?
       case Operand =>
         && s.rest.Push?
         && ((p1.Question? && s.rest.top.ChoiceColon?) || (p1.Binop? && p2.DeclHead? && s.rest.top.Init?))
       case _ => false
  }

  lemma ExpPlace(s: Stack, p1: Category, p2: Category, p3: Category)
    requires Fits(s, p1, p2, p3) && Settled(p1, p2, p3, Exp) && Read(s, Exp).Some?
    ensures s.Push? && if s.top.Declaring? then p1.DeclHead? else Stands(s, p1, p2)
    ensures Read(s, Exp) == Some(if s.top.Declaring? then s else Push(After, Under(s)))
  {
  }

  lemma AfterReads(u: Stack, c: Category)
    ensures var r := Read(Push(After, u), c);
      && (Infix(c) ==> r == Some(Push(Operand, u)))
      && (c.Unop? || c.Exp? || c.Cast? ==> r == Some(Push(After, u)))
      && (c.Comma? && !(u.Push? && (u.top.Inside? || u.top.Init?)) ==> r == Some(Push(Operand, u)))
      && (r.Some? ==> !c.Decl? && !c.Base? && !c.Rbrace?)
  {
  }

  lemma AfterEnds(u: Stack, c: Category)
    requires c.Semi? || c.Colon? || c.Lbrace? || c.IntLike?
    ensures Read(Push(After, u), c) == if u.Push? then ReadEnd(c, u.top, u.rest) else None
  {
    hide ReadEnd;
  }

  lemma OperandExp(u: Stack)
    ensures Read(Push(Operand, u), Exp) == Some(Push(After, u))
  {
  }

  /** An expression that ends a statement, or a part of a loop's header. */
  lemma ExpSemi(s: Stack, p1: Category, p2: Category)
    requires Stands(s, p1, p2)
    requires !FiresTriple(p1, Exp, Semi) && !FiresFour(p2, p1, Exp, Semi) && Read(Push(After, Under(s)), Semi).Some?
    ensures Read(s, Stmt) == Read(Push(After, Under(s)), Semi)
  {
    AfterEnds(Under(s), Semi);
  }

  lemma ExpColon(s: Stack, p1: Category, p2: Category)
    requires Stands(s, p1, p2)
    requires !FiresTriple(p1, Exp, Colon) && Read(Push(After, Under(s)), Colon).Some?
    ensures Read(s, Tag) == Read(Push(After, Under(s)), Colon)
  {
    AfterEnds(Under(s), Colon);
  }

  /** A name that turns out to be that of a function. */
  lemma ExpBegin(s: Stack, p1: Category, p2: Category, c1: Category)
    requires Stands(s, p1, p2)
    requires (c1.Lbrace? || c1.IntLike?) && Read(Push(After, Under(s)), c1).Some?
    ensures Read(s, FnDecl).Some? && Read(Read(s, FnDecl).value, c1) == Read(Push(After, Under(s)), c1)
  {
    AfterEnds(Under(s), c1);
  }

  /** What becomes of an expression, by what follows it. */
  lemma ExpTable(c1: Category, c2: Category, c3: Category)
    requires !c1.Decl? && !c1.Base? && !c1.Rbrace?
    ensures var p := ExpCases(c1, c2, c3);
      if c1.Lbrace? || c1.IntLike? then Makes(p, 1, FnDecl, 0)
      else if c1.Unop? || c1.Exp? || c1.Cast? then Makes(p, 2, Exp, -2)
      else if (c1.Binop? || c1.Unorbinop? || c1.Comma?) && c2.Exp? then Makes(p, 3, Exp, -2)
      else if c1.Semi? then Makes(p, 2, Stmt, -1)
      else if c1.Colon? then Makes(p, 2, Tag, 0)
      else p.Idle?
  {
  }

  lemma ExpPair(c1: Category)
    ensures FiresPair(Exp, c1) ==
            (c1.Unop? || c1.Semi? || c1.Colon? || c1.Exp? || c1.Cast? || c1.Lbrace? || c1.IntLike?)
  {
  }

  lemma ExpTriple(c1: Category, c2: Category)
    ensures FiresTriple(Exp, c1, c2) == ((c1.Binop? || c1.Unorbinop? || c1.Comma?) && c2.Exp?)
  {
  }

  lemma ExpFires(c1: Category, c2: Category, c3: Category)
    ensures Fires(Exp, c1, c2, c3) ==
            (|| c1.Unop? || c1.Semi? || c1.Colon? || c1.Exp? || c1.Cast? || c1.Lbrace? || c1.IntLike?
             || ((c1.Binop? || c1.Unorbinop? || c1.Comma?) && c2.Exp?))
  {
    hide Fires, FiresAlone, FiresPair, FiresTriple;
    NotAlone(Exp);
    ExpPair(c1);
    ExpTriple(c1, c2);
    FiresIs(Exp, c1, c2, c3, c1.Unop? || c1.Semi? || c1.Colon? || c1.Exp? || c1.Cast? || c1.Lbrace? || c1.IntLike?,
            (c1.Binop? || c1.Unorbinop? || c1.Comma?) && c2.Exp?);
  }

  lemma ExpRules(c1: Category, c2: Category, c3: Category, forceLines: bool)
    ensures Rules(Exp, c1, c2, c3, forceLines) == ExpCases(c1, c2, c3)
  {
    hide ExpCases, Sane;
  }

  lemma AfterMore(u: Stack)
    ensures !Complete(Push(After, u)) && forall at :: !Complete(Push(Declaring(at), u))
  {
  }

  /** A comma behind an expression is not that of a parameter list or declaration, if nothing fires. */
  lemma NoListComma(s: Stack, p1: Category, p2: Category, c1: Category)
    requires Stands(s, p1, p2)
    requires !FiresTriple(p1, Exp, c1) && !FiresFour(p2, p1, Exp, c1)
    ensures c1.Comma? ==> !Under(s).Push? || !(Under(s).top.Inside? || Under(s).top.Init?)
  {
  }

  /** A name in a declaration goes on with parentheses. */
  lemma NameGoesOn(s: Stack, p1: Category, c1: Category)
    requires s.Push? && s.top.Declaring? && p1.DeclHead? && !FiresTriple(p1, Exp, c1)
    requires Read(s, c1).Some? && !c1.Insert?
    ensures c1.Exp? || c1.Lpar?
    ensures c1.Exp? ==> Read(s, Exp) == Some(s)
  {
  }

  lemma ExpStep(s: Stack, p1: Category, p2: Category, p3: Category, q: seq<Category>, forceLines: bool)
    requires Local(s, p1, p2, p3, q) && NoInserts(q) && q[0].Exp?
    ensures Keeps(s, p1, p2, p3, q, Rules(q[0], Cat(q, 1), Cat(q, 2), Cat(q, 3), forceLines))
  {
    hide Reads, Fires, Fits, Read, Quiet, Settled, FiresTriple, FiresFour, Keeps, Local, Makes, Usual, Quietly, Rules,
      ExpCases, Infix, Under, Complete, Stands;
    LocalFacts(s, p1, p2, p3, q);
    var c1, c2, c3 := Cat(q, 1), Cat(q, 2), Cat(q, 3);
    var p := Rules(q[0], c1, c2, c3, forceLines);
    QuietBack(p1, p2, p3, q[0], c1, c2);
    SettledIs(p1, p2, p3, q[0], c1, c2);
    ExpPlace(s, p1, p2, p3);
    NotLast(s, p1, p2, p3, q);
    AfterMore(Under(s));
    AfterMore(s.rest);
    ExpRules(c1, c2, c3, forceLines);
    ExpFires(c1, c2, c3);
    UsualAre();
    if s.top.Declaring? {
      NameGoesOn(s, p1, c1);
      ExpTable(c1, c2, c3);
      if c1.Exp? {
        KeepsTwo(s, p1, p2, p3, q, p, Exp, -2);
      } else {
        KeepsIdle(s, p1, p2, p3, q, p);
      }
    } else {
      AfterReads(Under(s), c1);
      ExpTable(c1, c2, c3);
      ExpBehind(s, p1, p2, p3, q, p);
    }
  }

  /** Nothing fires that ends with the category at the cursor. */
  lemma SettledIs(p1: Category, p2: Category, p3: Category, c0: Category, c1: Category, c2: Category)
    requires Quiet(p1, p2, p3, c0, c1, c2)
    ensures !FiresAlone(c0) ==> Settled(p1, p2, p3, c0)
    ensures c0.Exp? ==> Settled(p1, p2, p3, c0)
  {
    hide FiresPair, FiresTriple, FiresFour;
  }

  lemma ExpBehind(s: Stack, p1: Category, p2: Category, p3: Category, q: seq<Category>, p: Production)
    requires Local(s, p1, p2, p3, q) && NoInserts(q) && q[0].Exp? && |q| >= 2
    requires p == ExpCases(q[1], Cat(q, 2), Cat(q, 3))
    requires Stands(s, p1, p2)
    requires Read(s, Exp) == Some(Push(After, Under(s)))
    ensures Keeps(s, p1, p2, p3, q, p)
  {
    hide Reads, Fires, Fits, Read, Quiet, Settled, FiresTriple, FiresFour, Keeps, Local, Makes, Usual, Quietly,
      ExpCases, Infix, Under, Stands;
    var c1, c2, c3, u := Cat(q, 1), Cat(q, 2), Cat(q, 3), Under(s);
    LocalFacts(s, p1, p2, p3, q);
    QuietBack(p1, p2, p3, q[0], c1, c2);
    ExpFires(c1, c2, c3);
    AfterReads(u, c1);
    ExpTable(c1, c2, c3);
    UsualAre();
    QuietlyUsual(FnDecl, 0, p1, p2);
    if c1.Lbrace? || c1.IntLike? {
      ExpBegin(s, p1, p2, c1);
      KeepsLook(s, p1, p2, p3, q, p, FnDecl, 0);
    } else if c1.Semi? {
      ExpSemi(s, p1, p2);
      KeepsTwo(s, p1, p2, p3, q, p, Stmt, -1);
    } else if c1.Colon? {
      ExpColon(s, p1, p2);
      KeepsTwo(s, p1, p2, p3, q, p, Tag, 0);
    } else if c1.Unop? || c1.Exp? || c1.Cast? {
      KeepsTwo(s, p1, p2, p3, q, p, Exp, -2);
    } else if (c1.Binop? || c1.Unorbinop? || c1.Comma?) && c2.Exp? {
      NoListComma(s, p1, p2, c1);
      InfixAre();
      OperandExp(u);
      KeepsThree(s, p1, p2, p3, q, p, Exp, -2);
    } else {
      KeepsIdle(s, p1, p2, p3, q, p);
    }
  }

  lemma InfixAre()
    ensures Infix(Binop) && Infix(Unorbinop)
  {
  }

  // ---- Operators and casts --------------------------------------------------------

  predicate Leading(c: Category) {
    c.Unop? || c.Unorbinop? || c.SizeofLike? || c.Cast?
  }

  lemma PrefixLeft(p1: Category, p2: Category, c0: Category)
    requires Leading(c0) && !FiresPair(p1, c0) && !FiresTriple(p2, p1, c0)
    ensures c0.Unop? || c0.Cast? ==> !p1.Exp?
    ensures c0.Unorbinop? ==> !p1.IntLike?
    ensures c0.Unorbinop? || c0.Cast? ==> !p1.DeclHead? && !(p1.Exp? && p2.DeclHead?)
    ensures c0.Cast? ==> !p1.SizeofLike?
  {
  }

  lemma PrefixTop(s: Stack, p1: Category, p2: Category, p3: Category, c0: Category)
    requires Fits(s, p1, p2, p3) && Leading(c0) && Read(s, c0).Some?
    requires c0.Unop? || c0.Cast? ==> !p1.Exp?
    requires c0.Unorbinop? ==> !p1.IntLike?
    requires c0.Unorbinop? || c0.Cast? ==> !p1.DeclHead? && !(p1.Exp? && p2.DeclHead?)
    requires c0.Cast? ==> !p1.SizeofLike?
    ensures s.Push? && (s.top.After? ==> c0.Unorbinop? && p1.Exp?)
    ensures s.top.After? || s.top.St? || s.top.Operand? || s.top.Sized? || s.top.Inside? || s.top.Keyword?
    ensures s.top.Sized? ==> !c0.Cast?
    ensures s.top.St? ==> Ordinary(s.top.place)
  {
  }

  lemma PrefixShape(s: Stack, c0: Category)
    requires s.Push? && Leading(c0) && Read(s, c0).Some?
    requires s.top.After? || s.top.St? || s.top.Operand? || s.top.Sized? || s.top.Inside? || s.top.Keyword?
    requires s.top.Sized? ==> !c0.Cast?
    requires s.top.After? ==> c0.Unorbinop?
    ensures Read(s, c0).value.Push? && Read(s, c0).value.top == if c0.SizeofLike? then Sized else Operand
    ensures !s.top.After? ==> Read(s, Exp) == Some(Push(After, Read(s, c0).value.rest))
  {
    hide Continue, ReadDeclaration;
  }

  /** Where an operator or cast before an operand can stand. */
  lemma PrefixPlace(s: Stack, p1: Category, p2: Category, p3: Category, c0: Category)
    requires Fits(s, p1, p2, p3) && Settled(p1, p2, p3, c0) && Read(s, c0).Some? && Leading(c0)
    ensures Read(s, c0).value.Push? && Read(s, c0).value.top == if c0.SizeofLike? then Sized else Operand
    ensures s.Push? && if s.top.After? then c0.Unorbinop? && p1.Exp?
                       else Read(s, Exp) == Some(Push(After, Read(s, c0).value.rest))
  {
    hide Fits, Read, FiresAlone, FiresPair, FiresTriple, FiresFour, Leading;
    PrefixLeft(p1, p2, c0);
    PrefixTop(s, p1, p2, p3, c0);
    PrefixShape(s, c0);
  }

  lemma OperandReads(u: Stack, c: Category)
    ensures Read(Push(Operand, u), c).Some? || Read(Push(Sized, u), c).Some? ==> !c.IntLike? && !c.Binop? && !c.Semi?
    ensures Read(Push(Operand, u), Exp) == Some(Push(After, u)) == Read(Push(Sized, u), Exp)
    ensures Read(Push(Sized, u), Cast) == Some(Push(After, u))
  {
  }

  lemma PrefixRules(c1: Category, c2: Category, c3: Category, forceLines: bool)
    ensures Rules(Unop, c1, c2, c3, forceLines) == UnopCases(c1, c2, c3)
    ensures Rules(Unorbinop, c1, c2, c3, forceLines) == UnorbinopCases(c1, c2, c3)
    ensures Rules(SizeofLike, c1, c2, c3, forceLines) == SizeofLikeCases(c1, c2, c3)
    ensures Rules(Cast, c1, c2, c3, forceLines) == CastCases(c1, c2, c3)
  {
    hide UnopCases, UnorbinopCases, SizeofLikeCases, CastCases, Sane;
  }

  lemma PrefixTable(c1: Category, c2: Category, c3: Category)
    requires !c1.IntLike? && !c1.Binop? && !c1.Semi?
    ensures if c1.Exp? then Makes(UnopCases(c1, c2, c3), 2, Exp, -2) else UnopCases(c1, c2, c3).Idle?
    ensures if c1.Exp? then Makes(UnorbinopCases(c1, c2, c3), 2, Exp, -2) else UnorbinopCases(c1, c2, c3).Idle?
  {
    hide Sane;
  }

  lemma CastTable(c1: Category, c2: Category, c3: Category)
    requires !c1.IntLike? && !c1.Binop? && !c1.Semi?
    ensures if c1.Exp? then Makes(CastCases(c1, c2, c3), 2, Exp, -2) else CastCases(c1, c2, c3).Idle?
    ensures if c1.Exp? || c1.Cast? then Makes(SizeofLikeCases(c1, c2, c3), 2, Exp, -2)
            else SizeofLikeCases(c1, c2, c3).Idle?
  {
    hide Sane;
  }

  lemma PrefixPair(c0: Category, c1: Category)
    requires Leading(c0)
    ensures FiresPair(c0, c1) == (c1.Exp? || (c0.SizeofLike? && c1.Cast?))
  {
  }

  lemma PrefixFires(c0: Category, c1: Category, c2: Category, c3: Category)
    requires Leading(c0)
    ensures !FiresAlone(c0) && Fires(c0, c1, c2, c3) == (c1.Exp? || (c0.SizeofLike? && c1.Cast?))
  {
    hide Fires, FiresAlone, FiresPair, FiresTriple;
    NotAlone(c0);
    PrefixPair(c0, c1);
    NoTriple(c0, c1, c2);
    FiresIs(c0, c1, c2, c3, c1.Exp? || (c0.SizeofLike? && c1.Cast?), false);
  }

  lemma InfixTaken(p1: Category, c0: Category)
    requires p1.Exp? && c0.Unorbinop?
    ensures FiresTriple(p1, c0, Exp)
  {
  }

  lemma PrefixStep(s: Stack, p1: Category, p2: Category, p3: Category, q: seq<Category>, forceLines: bool)
    requires Local(s, p1, p2, p3, q) && NoInserts(q) && Leading(q[0])
    ensures Keeps(s, p1, p2, p3, q, Rules(q[0], Cat(q, 1), Cat(q, 2), Cat(q, 3), forceLines))
  {
    hide Reads, Fires, Fits, Read, Quiet, Settled, FiresAlone, FiresPair, FiresTriple, FiresFour, Keeps, Local, Makes,
      Usual, Quietly, Rules, UnopCases, UnorbinopCases, SizeofLikeCases, CastCases;
    LocalFacts(s, p1, p2, p3, q);
    var c0, c1, c2, c3 := q[0], Cat(q, 1), Cat(q, 2), Cat(q, 3);
    var p := Rules(c0, c1, c2, c3, forceLines);
    PrefixFires(c0, c1, c2, c3);
    QuietBack(p1, p2, p3, c0, c1, c2);
    SettledIs(p1, p2, p3, c0, c1, c2);
    PrefixPlace(s, p1, p2, p3, c0);
    OperandReads(Read(s, c0).value.rest, c1);
    assert Read(s, c0).value == Push(Read(s, c0).value.top, Read(s, c0).value.rest);
    PrefixRules(c1, c2, c3, forceLines);
    PrefixTable(c1, c2, c3);
    CastTable(c1, c2, c3);
    UsualAre();
    if c1.Exp? || (c0.SizeofLike? && c1.Cast?) {
      if s.top.After? {
        InfixTaken(p1, c0);
      }
      KeepsTwo(s, p1, p2, p3, q, p, Exp, -2);
    } else {
      KeepsIdle(s, p1, p2, p3, q, p);
    }
  }

  lemma QuestionTable(c1: Category, c2: Category, c3: Category, forceLines: bool)
    ensures var p := Rules(Question, c1, c2, c3, forceLines);
      if c1.Exp? && c2.Colon? then Makes(p, 3, Binop, -2) else p.Idle?
  {
    hide Sane;
  }

  lemma QuestionTriple(c1: Category, c2: Category)
    ensures FiresTriple(Question, c1, c2) == (c1.Exp? && c2.Colon?)
  {
  }

  lemma QuestionFires(c1: Category, c2: Category, c3: Category)
    ensures Fires(Question, c1, c2, c3) == (c1.Exp? && c2.Colon?)
  {
    hide Fires, FiresAlone, FiresPair, FiresTriple;
    NotAlone(Question);
    NoPair(Question, c1);
    QuestionTriple(c1, c2);
    FiresIs(Question, c1, c2, c3, false, c1.Exp? && c2.Colon?);
  }

  lemma QuestionPlace(s: Stack, p1: Category, p2: Category, p3: Category)
    requires Fits(s, p1, p2, p3) && Read(s, Question).Some?
    ensures s.Push? && s.top.After?
    ensures Read(s, Question) == Some(Push(Operand, Push(ChoiceColon, s.rest)))
    ensures Read(Push(After, Push(ChoiceColon, s.rest)), Colon) == Some(Push(Operand, s.rest)) == Read(s, Binop)
  {
  }

  lemma QuestionStep(s: Stack, p1: Category, p2: Category, p3: Category, q: seq<Category>, forceLines: bool)
    requires Local(s, p1, p2, p3, q) && NoInserts(q) && q[0].Question?
    ensures Keeps(s, p1, p2, p3, q, Rules(q[0], Cat(q, 1), Cat(q, 2), Cat(q, 3), forceLines))
  {
    hide Reads, Fires, Fits, Read, Quiet, Keeps, Local, Makes, Usual, Quietly, Rules;
    LocalFacts(s, p1, p2, p3, q);
    var p := Rules(q[0], Cat(q, 1), Cat(q, 2), Cat(q, 3), forceLines);
    QuestionTable(Cat(q, 1), Cat(q, 2), Cat(q, 3), forceLines);
    QuestionFires(Cat(q, 1), Cat(q, 2), Cat(q, 3));
    QuestionPlace(s, p1, p2, p3);
    if Cat(q, 1).Exp? && Cat(q, 2).Colon? {
      OperandExp(Push(ChoiceColon, s.rest));
      UsualAre();
      KeepsThree(s, p1, p2, p3, q, p, Binop, -2);
    } else {
      KeepsIdle(s, p1, p2, p3, q, p);
    }
  }

  // ---- Categories that stay, and tokens in their raw form -------------------------

  lemma StaysTable(c0: Category, c1: Category, c2: Category, c3: Category, forceLines: bool)
    requires c0.Colon? || c0.Rpar? || c0.Rbrace? || c0.Comma? || (c0.Binop? && !c1.Binop?)
    ensures Rules(c0, c1, c2, c3, forceLines).Idle?
  {
    hide Sane;
  }

  lemma StaysFires(c0: Category, c1: Category, c2: Category, c3: Category)
    requires c0.Colon? || c0.Rpar? || c0.Rbrace? || c0.Comma? || c0.Binop?
    ensures !Fires(c0, c1, c2, c3)
  {
    hide Fires, FiresAlone, FiresPair, FiresTriple;
    NotAlone(c0);
    NoPair(c0, c1);
    NoTriple(c0, c1, c2);
    FiresIs(c0, c1, c2, c3, false, false);
  }

  lemma {:induction false} BinopReads(s: Stack, c1: Category)
    requires Read(s, Binop).Some? && Read(Read(s, Binop).value, c1).Some?
    ensures !c1.Binop?
    decreases s
  {
    if s.top.MayElse? {
      BinopReads(s.rest, c1);
    }
  }

  lemma StaysStep(s: Stack, p1: Category, p2: Category, p3: Category, q: seq<Category>, forceLines: bool)
    requires Local(s, p1, p2, p3, q) && NoInserts(q)
    requires q[0].Colon? || q[0].Rpar? || q[0].Rbrace? || q[0].Comma? || q[0].Binop?
    ensures Keeps(s, p1, p2, p3, q, Rules(q[0], Cat(q, 1), Cat(q, 2), Cat(q, 3), forceLines))
  {
    hide Reads, Fires, Fits, Read, Rules, Keeps, Quiet, Local;
    LocalFacts(s, p1, p2, p3, q);
    if q[0].Binop? && |q| >= 2 {
      BinopReads(s, q[1]);
    }
    StaysTable(q[0], Cat(q, 1), Cat(q, 2), Cat(q, 3), forceLines);
    StaysFires(q[0], Cat(q, 1), Cat(q, 2), Cat(q, 3));
    KeepsIdle(s, p1, p2, p3, q, Rules(q[0], Cat(q, 1), Cat(q, 2), Cat(q, 3), forceLines));
  }

  predicate Raw(c: Category) {
    c.RawRpar? || c.RawUnorbin? || c.RawInt? || c.ConstLike?
  }

  function Cooked(c: Category): Category {
    if c.RawRpar? then Rpar else if c.RawUnorbin? then Unorbinop else if c.RawInt? || c.ConstLike? then IntLike else c
  }

  lemma RawRules(c1: Category, c2: Category, c3: Category, forceLines: bool)
    ensures Rules(RawRpar, c1, c2, c3, forceLines) == RawRparCases(c1, c2, c3)
    ensures Rules(RawUnorbin, c1, c2, c3, forceLines) == RawUnorbinCases(c1, c2, c3)
  {
    hide RawRparCases, RawUnorbinCases, Sane;
  }

  lemma WordRules(c1: Category, c2: Category, c3: Category, forceLines: bool)
    ensures Rules(RawInt, c1, c2, c3, forceLines) == RawIntCases(c1, c2, c3)
    ensures Rules(ConstLike, c1, c2, c3, forceLines) == ConstLikeCases(c1, c2, c3)
  {
    hide RawIntCases, ConstLikeCases, Sane;
  }

  lemma RawTable(c1: Category, c2: Category, c3: Category)
    ensures !c1.ConstLike? ==>
              Makes(RawRparCases(c1, c2, c3), 1, Rpar, -3) && Makes(RawUnorbinCases(c1, c2, c3), 1, Unorbinop, -2)
    ensures !c1.Lpar? ==> Makes(RawIntCases(c1, c2, c3), 1, IntLike, -3)
    ensures Makes(ConstLikeCases(c1, c2, c3), 1, IntLike, -2)
  {
  }

  lemma {:induction false} RawSame(s: Stack, c: Category)
    requires Raw(c) && Read(s, c).Some?
    ensures Read(s, Cooked(c)) == Read(s, c)
    decreases s
  {
    if s.top.MayElse? {
      RawSame(s.rest, c);
    }
  }

  /** What cannot follow raw tokens. */
  lemma {:induction false} RawReads(s: Stack, c: Category, c1: Category)
    requires (c.RawRpar? || c.RawUnorbin?) && Read(s, c).Some? && Read(Read(s, c).value, c1).Some?
    ensures !c1.ConstLike?
    decreases s
  {
    if s.top.MayElse? {
      RawReads(s.rest, c, c1);
    }
  }

  lemma {:induction false} IntReads(s: Stack, c1: Category)
    requires Read(s, RawInt).Some? && Read(Read(s, RawInt).value, c1).Some?
    ensures !c1.Lpar?
    decreases s
  {
    if s.top.MayElse? {
      IntReads(s.rest, c1);
    }
  }

  lemma CookedUsual(c: Category)
    requires Raw(c)
    ensures Usual(Cooked(c), if c.RawRpar? || c.RawInt? then -3 else -2)
  {
  }

  lemma RawStep(s: Stack, p1: Category, p2: Category, p3: Category, q: seq<Category>, forceLines: bool)
    requires Local(s, p1, p2, p3, q) && NoInserts(q) && Raw(q[0])
    ensures Keeps(s, p1, p2, p3, q, Rules(q[0], Cat(q, 1), Cat(q, 2), Cat(q, 3), forceLines))
  {
    hide Reads, Fires, Fits, Read, Quiet, Keeps, Local, Makes, Usual, Quietly, Rules, RawRparCases, RawUnorbinCases,
      RawIntCases, ConstLikeCases;
    LocalFacts(s, p1, p2, p3, q);
    var c0 := q[0];
    if |q| >= 2 {
      if c0.RawInt? {
        IntReads(s, q[1]);
      } else if !c0.ConstLike? {
        RawReads(s, c0, q[1]);
      }
    }
    RawRules(Cat(q, 1), Cat(q, 2), Cat(q, 3), forceLines);
    WordRules(Cat(q, 1), Cat(q, 2), Cat(q, 3), forceLines);
    RawTable(Cat(q, 1), Cat(q, 2), Cat(q, 3));
    RawSame(s, c0);
    CookedUsual(c0);
    KeepsAlone(s, p1, p2, p3, q, Rules(c0, Cat(q, 1), Cat(q, 2), Cat(q, 3), forceLines), Cooked(c0),
               if c0.RawRpar? || c0.RawInt? then -3 else -2);
  }

  lemma SemiTable(c1: Category, c2: Category, c3: Category, forceLines: bool)
    ensures Makes(Rules(Semi, c1, c2, c3, forceLines), 1, Stmt, -1)
  {
    hide Sane;
  }

  /** A semicolon that nothing before it takes is a statement. */
  lemma SemiPlace(s: Stack, p1: Category, p2: Category, p3: Category)
    requires Fits(s, p1, p2, p3) && Read(s, Semi).Some?
    requires !FiresPair(p1, Semi) && !FiresTriple(p2, p1, Semi) && !FiresFour(p3, p2, p1, Semi)
    ensures Read(s, Stmt) == Read(s, Semi)
  {
    assert !(p1.Exp? || p1.CaseLike? || p1.IntLike? || p1.DeclHead?);
    assert !(p3.DoLike? && p2.Stmt? && p1.ElseLike?);
    assert s.top.St? || s.top.Inside?;
  }

  lemma SemiStep(s: Stack, p1: Category, p2: Category, p3: Category, q: seq<Category>, forceLines: bool)
    requires Local(s, p1, p2, p3, q) && NoInserts(q) && q[0].Semi?
    ensures Keeps(s, p1, p2, p3, q, Rules(q[0], Cat(q, 1), Cat(q, 2), Cat(q, 3), forceLines))
  {
    hide Reads, Fires, Fits, Read, Quiet, Keeps, Local, Makes, Usual, Quietly, Rules, FiresPair, FiresTriple, FiresFour;
    LocalFacts(s, p1, p2, p3, q);
    QuietBack(p1, p2, p3, q[0], Cat(q, 1), Cat(q, 2));
    SemiPlace(s, p1, p2, p3);
    SemiTable(Cat(q, 1), Cat(q, 2), Cat(q, 3), forceLines);
    UsualAre();
    KeepsAlone(s, p1, p2, p3, q, Rules(q[0], Cat(q, 1), Cat(q, 2), Cat(q, 3), forceLines), Stmt, -1);
  }

  lemma AngleTable(c0: Category, c1: Category, c2: Category, c3: Category, forceLines: bool)
    requires c0.Prelangle? || c0.Prerangle?
    ensures Rules(c0, c1, c2, c3, forceLines).Angle? && Rules(c0, c1, c2, c3, forceLines).d == -2
  {
    hide Sane;
  }

  lemma {:induction false} AngleSame(s: Stack, c: Category)
    requires (c.Prelangle? || c.Prerangle?) && Read(s, c).Some?
    ensures Read(s, Binop) == Read(s, c)
    decreases s
  {
    if s.top.MayElse? {
      AngleSame(s.rest, c);
    }
  }

  lemma AngleStep(s: Stack, p1: Category, p2: Category, p3: Category, q: seq<Category>, forceLines: bool)
    requires Local(s, p1, p2, p3, q) && NoInserts(q) && (q[0].Prelangle? || q[0].Prerangle?)
    ensures Keeps(s, p1, p2, p3, q, Rules(q[0], Cat(q, 1), Cat(q, 2), Cat(q, 3), forceLines))
  {
    hide Reads, Fires, Fits, Read, Rules;
    ReadsMore(s, q);
    AngleTable(q[0], Cat(q, 1), Cat(q, 2), Cat(q, 3), forceLines);
    AngleSame(s, q[0]);
    ReadsPush(s, Binop, q[1..]);
    QuietThree(p1, p2, p3, q[0], Binop);
  }

  // ---- Parentheses ----------------------------------------------------------------

  lemma LparRules(c1: Category, c2: Category, c3: Category, forceLines: bool)
    ensures Rules(Lpar, c1, c2, c3, forceLines) == LparCases(c1, c2, c3)
  {
    hide LparCases, Sane;
  }

  lemma LparTable(c1: Category, c2: Category, c3: Category)
    requires !c1.Decl? && !(c1.Unorbinop? && c2.Rpar?)
    ensures var p := LparCases(c1, c2, c3);
      if c1.Rpar? then Makes(p, 2, Exp, -2)
      else if c1.Stmt? then Makes(p, 2, Lpar, 0)
      else if c1.Exp? && c2.Rpar? then Makes(p, 3, Exp, -2)
      else if (c1.DeclHead? || c1.IntLike?) && c2.Rpar? then Makes(p, 3, Cast, -2)
      else if (c1.Exp? || c1.DeclHead? || c1.IntLike?) && c2.Comma? then Makes(p, 3, Lpar, 0)
      else p.Idle?
  {
  }

  lemma LparPair(c1: Category)
    ensures FiresPair(Lpar, c1) == (c1.Rpar? || c1.Stmt?)
  {
  }

  lemma LparTriple(c1: Category, c2: Category)
    ensures FiresTriple(Lpar, c1, c2) == ((c1.Exp? || c1.DeclHead? || c1.IntLike?) && (c2.Rpar? || c2.Comma?))
  {
  }

  lemma LparFires(c1: Category, c2: Category, c3: Category)
    ensures Fires(Lpar, c1, c2, c3) ==
            (c1.Rpar? || c1.Stmt? || ((c1.Exp? || c1.DeclHead? || c1.IntLike?) && (c2.Rpar? || c2.Comma?)))
  {
    hide Fires, FiresAlone, FiresPair, FiresTriple;
    NotAlone(Lpar);
    LparPair(c1);
    LparTriple(c1, c2);
    FiresIs(Lpar, c1, c2, c3, c1.Rpar? || c1.Stmt?,
            (c1.Exp? || c1.DeclHead? || c1.IntLike?) && (c2.Rpar? || c2.Comma?));
  }

  lemma LparTop(s: Stack, p1: Category, p2: Category, p3: Category)
    requires Fits(s, p1, p2, p3) && Read(s, Lpar).Some?
    ensures s.Push? && !s.top.MayElse? && !s.top.Named?
  {
  }

  lemma LparShape(s: Stack)
    requires s.Push? && !s.top.MayElse? && !s.top.Named? && Read(s, Lpar).Some?
    ensures Read(s, Exp).Some?
    ensures Read(s, Lpar).value.Push? && Read(s, Lpar).value.top.Inside?
    ensures Read(s, Lpar).value.rest == Read(s, Exp).value
    ensures var r := Read(s, Lpar).value; !r.top.kind.Condition? ==> Read(s, Cast) == Casted(r.top.kind, r.rest)
  {
    hide Continue;
  }

  lemma InsideMore(s: Stack)
    requires s.Push? && s.top.Inside?
    ensures !Complete(s)
  {
  }

  /** What is in parentheses counts for an expression or a cast, wherever it stands. */
  lemma LparPlace(s: Stack, p1: Category, p2: Category, p3: Category)
    requires Fits(s, p1, p2, p3) && Read(s, Lpar).Some?
    ensures Read(s, Exp).Some?
    ensures Read(s, Lpar).value.Push? && Read(s, Lpar).value.top.Inside?
    ensures Read(s, Lpar).value.rest == Read(s, Exp).value
    ensures var r := Read(s, Lpar).value; !r.top.kind.Condition? ==> Read(s, Cast) == Casted(r.top.kind, r.rest)
    ensures !Complete(Read(s, Lpar).value)
  {
    hide Fits, Read, Casted, Complete;
    LparTop(s, p1, p2, p3);
    LparShape(s);
    InsideMore(Read(s, Lpar).value);
  }

  /** Expressions and statements within parentheses. */
  lemma InsideReads(kind: Kind, v: Stack)
    ensures var r := Push(Inside(kind), v);
      && (Read(r, Rpar).Some? ==> Read(r, Rpar) == Some(v)) && Read(r, Stmt) == Some(r) && Read(r, Decl).None?
      && Read(r, Exp) == Some(Push(After, r))
      && Read(r, Unorbinop) == Some(Push(Operand, r)) && Read(Push(Operand, r), Rpar).None?
  {
  }

  lemma InsideAfter(kind: Kind, v: Stack)
    ensures var r := Push(Inside(kind), v);
      && Read(Push(After, r), Comma) == Some(r)
      && (Read(Push(After, r), Rpar).Some? ==> Read(Push(After, r), Rpar) == Some(v))
  {
  }

  /** Types within parentheses. */
  lemma InsideTypes(kind: Kind, v: Stack, c: Category)
    requires c.DeclHead? || c.IntLike?
    ensures var r := Push(Inside(kind), v);
      if kind.Condition? then Read(r, c).None?
      else
        && Read(r, c).Some? && Read(Read(r, c).value, Rpar) == Casted(kind, v)
        && Read(Read(r, c).value, Comma) == Some(r)
  {
  }

  lemma LparStep(s: Stack, p1: Category, p2: Category, p3: Category, q: seq<Category>, forceLines: bool)
    requires Local(s, p1, p2, p3, q) && NoInserts(q) && q[0].Lpar?
    ensures Keeps(s, p1, p2, p3, q, Rules(q[0], Cat(q, 1), Cat(q, 2), Cat(q, 3), forceLines))
  {
    hide Reads, Fires, Fits, Read, Quiet, Keeps, Local, Makes, Usual, Quietly, Rules, LparCases, Casted, Complete;
    LocalFacts(s, p1, p2, p3, q);
    var c1, c2, c3 := Cat(q, 1), Cat(q, 2), Cat(q, 3);
    var p := Rules(q[0], c1, c2, c3, forceLines);
    LparPlace(s, p1, p2, p3);
    NotLast(s, p1, p2, p3, q);
    var r := Read(s, Lpar).value;
    InsideReads(r.top.kind, r.rest);
    InsideAfter(r.top.kind, r.rest);
    assert r == Push(Inside(r.top.kind), r.rest);
    if c1.DeclHead? || c1.IntLike? {
      InsideTypes(r.top.kind, r.rest, c1);
    }
    LparRules(c1, c2, c3, forceLines);
    LparTable(c1, c2, c3);
    LparFires(c1, c2, c3);
    UsualAre();
    if c1.Rpar? {
      KeepsTwo(s, p1, p2, p3, q, p, Exp, -2);
    } else if c1.Stmt? {
      KeepsTwo(s, p1, p2, p3, q, p, Lpar, 0);
    } else if c1.Exp? && c2.Rpar? {
      KeepsThree(s, p1, p2, p3, q, p, Exp, -2);
    } else if (c1.DeclHead? || c1.IntLike?) && c2.Rpar? {
      KeepsThree(s, p1, p2, p3, q, p, Cast, -2);
    } else if (c1.Exp? || c1.DeclHead? || c1.IntLike?) && c2.Comma? {
      KeepsThree(s, p1, p2, p3, q, p, Lpar, 0);
    } else {
      KeepsIdle(s, p1, p2, p3, q, p);
    }
  }
}
