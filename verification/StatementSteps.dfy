/** The steps of the parser at the categories of statements, and at insertions. */
module StatementSteps {
  import opened ExpressionSteps
  import opened Grammar
  import opened GrammarSteps
  import opened Productions
  import opened Recognition
  import opened Wrappers

  /** What statements and parts of them are read to. */
  lemma StReads(p: Place, rest: Stack)
    ensures var s := Push(St(p), rest); var next := Continue(p, rest, Stmt);
      && Read(s, Stmt) == Some(next) && Read(s, Lbrace) == Some(Push(St(First), next))
      && (Ordinary(p) ==>
            && Read(s, IfLike) == Some(Push(Test, Push(St(Clause), Push(MayElse, next))))
            && Read(s, IfClause) == Some(Push(St(Clause), Push(MayElse, next)))
            && Read(s, IfHead) == Some(Push(St(Head), Push(MayElse, next)))
            && Read(s, ForLike) == Some(Push(Test, Push(St(Else), next)))
            && Read(s, ElseLike) == Some(Push(St(Else), next))
            && Read(s, ElseHead) == Some(Push(St(ElseBlock), next)))
  {
    hide Read, Continue, ReadOperand;
    forall c: Category | Heads(c)
      ensures Read(Push(St(p), rest), c) == ReadStatement(p, c, rest, Continue(p, rest, Stmt))
    {
      StAt(p, rest, c);
    }
  }

  lemma MoreReads(p: Place, rest: Stack)
    requires Ordinary(p)
    ensures var s := Push(St(p), rest); var next := Continue(p, rest, Stmt);
      && Read(s, DoLike) == Some(Push(St(Do), Push(While, next)))
      && Read(s, CaseLike) == Some(Push(Keyword, next))
      && Read(s, Tag) == Some(Push(St(Lab), next))
      && Read(s, SectionScrap) == Some(Push(SectionEnd, next))
  {
    hide Read, Continue, ReadOperand;
    forall c: Category | Heads(c)
      ensures Read(Push(St(p), rest), c) == ReadStatement(p, c, rest, Continue(p, rest, Stmt))
    {
      StAt(p, rest, c);
    }
  }

  predicate Starts(c: Category) {
    || c.IfLike? || c.IfClause? || c.IfHead? || c.ElseHead? || c.DoLike? || c.CaseLike? || c.Tag? || c.SectionScrap?
  }

  lemma StartTop(s: Stack, c0: Category)
    requires s.Push? && !s.top.MayElse? && Read(s, c0).Some? && Starts(c0)
    ensures s.top.St? && Ordinary(s.top.place)
  {
  }

  lemma StFits(s: Stack, p1: Category, p2: Category, p3: Category)
    requires Fits(s, p1, p2, p3)
    ensures s.Push? && !s.top.MayElse? && (s.top.St? && p1.Stmt? ==> !p2.DoLike?)
  {
  }

  /** Where statements begin. */
  lemma StartPlace(s: Stack, p1: Category, p2: Category, p3: Category, c0: Category)
    requires Fits(s, p1, p2, p3) && Read(s, c0).Some? && Starts(c0)
    ensures s.Push? && s.top.St? && Ordinary(s.top.place) && s == Push(s.top, s.rest)
    ensures p1.Stmt? ==> !p2.DoLike?
  {
    hide Fits, Read, Starts;
    StFits(s, p1, p2, p3);
    StartTop(s, c0);
  }

  // ---- Blocks, jumps and labels -----------------------------------------------------

  lemma LbraceRules(c1: Category, c2: Category, c3: Category, forceLines: bool)
    ensures Rules(Lbrace, c1, c2, c3, forceLines) == LbraceCases(c1, c2, c3)
  {
    hide LbraceCases, Sane;
  }

  lemma LbraceTable(c1: Category, c2: Category, c3: Category)
    requires !c1.Function? && (c1.Exp? ==> !c2.Rbrace? && !(c2.Comma? && c3.Rbrace?))
    ensures var p := LbraceCases(c1, c2, c3);
      if c1.Rbrace? then Makes(p, 2, Stmt, -1)
      else if (c1.Stmt? || c1.Decl?) && c2.Rbrace? then Makes(p, 3, Stmt, -1)
      else p.Idle?
  {
    hide Sane;
  }

  lemma LbracePair(c1: Category)
    ensures FiresPair(Lbrace, c1) == c1.Rbrace?
  {
  }

  lemma LbraceTriple(c1: Category, c2: Category)
    ensures FiresTriple(Lbrace, c1, c2) == ((c1.Stmt? || c1.Decl?) && c2.Rbrace?)
  {
  }

  lemma LbraceFires(c1: Category, c2: Category, c3: Category)
    ensures Fires(Lbrace, c1, c2, c3) == (c1.Rbrace? || ((c1.Stmt? || c1.Decl?) && c2.Rbrace?))
  {
    hide Fires, FiresAlone, FiresPair, FiresTriple;
    NotAlone(Lbrace);
    LbracePair(c1);
    LbraceTriple(c1, c2);
    FiresIs(Lbrace, c1, c2, c3, c1.Rbrace?, (c1.Stmt? || c1.Decl?) && c2.Rbrace?);
  }

  lemma FirstReads(next: Stack)
    ensures var r := Push(St(First), next);
      && Read(r, Rbrace) == Some(next) && Read(r, Function).None?
      && Read(r, Stmt) == Some(Push(St(Next), next)) == Read(r, Decl)
      && Read(Push(St(Next), next), Rbrace) == Some(next)
  {
  }

  lemma FirstExp(next: Stack)
    ensures var r := Push(St(First), next); var u := Push(EndOrLabel(false), Push(St(Next), next));
      && Read(r, Exp) == Some(Push(After, u)) && Read(Push(After, u), Rbrace).None?
      && Read(Push(After, u), Comma) == Some(Push(Operand, u)) && Read(Push(Operand, u), Rbrace).None?
  {
  }

  lemma LbraceLeft(p1: Category)
    requires !FiresPair(p1, Lbrace)
    ensures !p1.Exp? && !p1.DeclHead?
  {
  }

  /** A block is a statement or the body of a function. */
  lemma LbracePlace(s: Stack, p1: Category, p2: Category, p3: Category)
    requires Fits(s, p1, p2, p3) && Read(s, Lbrace).Some? && !p1.Exp? && !p1.DeclHead?
    ensures Read(s, Stmt).Some? && Read(s, Lbrace) == Some(Push(St(First), Read(s, Stmt).value))
  {
  }

  lemma LbraceStep(s: Stack, p1: Category, p2: Category, p3: Category, q: seq<Category>, forceLines: bool)
    requires Local(s, p1, p2, p3, q) && NoInserts(q) && q[0].Lbrace?
    ensures Keeps(s, p1, p2, p3, q, Rules(q[0], Cat(q, 1), Cat(q, 2), Cat(q, 3), forceLines))
  {
    hide Reads, Fires, Fits, Read, Rules, Makes, Usual, Quiet, FiresPair, FiresTriple, FiresFour, Keeps, Local, Quietly,
      LbraceCases;
    LocalFacts(s, p1, p2, p3, q);
    Fourth(s, p1, p2, p3, q);
    var c1, c2, c3 := Cat(q, 1), Cat(q, 2), Cat(q, 3);
    var p := Rules(q[0], c1, c2, c3, forceLines);
    QuietBack(p1, p2, p3, q[0], c1, c2);
    LbraceLeft(p1);
    LbracePlace(s, p1, p2, p3);
    FirstReads(Read(s, Stmt).value);
    FirstExp(Read(s, Stmt).value);
    LbraceRules(c1, c2, c3, forceLines);
    LbraceTable(c1, c2, c3);
    LbraceFires(c1, c2, c3);
    UsualAre();
    if c1.Rbrace? {
      KeepsTwo(s, p1, p2, p3, q, p, Stmt, -1);
    } else if (c1.Stmt? || c1.Decl?) && c2.Rbrace? {
      KeepsThree(s, p1, p2, p3, q, p, Stmt, -1);
    } else {
      KeepsIdle(s, p1, p2, p3, q, p);
    }
  }

  lemma CaseRules(c1: Category, c2: Category, c3: Category, forceLines: bool)
    ensures Rules(CaseLike, c1, c2, c3, forceLines) == CaseLikeCases(c1, c2, c3)
  {
    hide CaseLikeCases, Sane;
  }

  lemma CaseTable(c1: Category, c2: Category, c3: Category)
    ensures var p := CaseLikeCases(c1, c2, c3);
      if c1.Semi? then Makes(p, 2, Stmt, -1)
      else if c1.Colon? then Makes(p, 2, Tag, -1)
      else if c1.Exp? && c2.Semi? then Makes(p, 3, Stmt, -1)
      else if c1.Exp? && c2.Colon? then Makes(p, 3, Tag, -1)
      else p.Idle?
  {
  }

  lemma CasePair(c1: Category)
    ensures FiresPair(CaseLike, c1) == (c1.Semi? || c1.Colon?)
  {
  }

  lemma CaseTriple(c1: Category, c2: Category)
    ensures FiresTriple(CaseLike, c1, c2) == (c1.Exp? && (c2.Semi? || c2.Colon?))
  {
  }

  lemma CaseFires(c1: Category, c2: Category, c3: Category)
    ensures Fires(CaseLike, c1, c2, c3) == (c1.Semi? || c1.Colon? || (c1.Exp? && (c2.Semi? || c2.Colon?)))
  {
    hide Fires, FiresAlone, FiresPair, FiresTriple;
    NotAlone(CaseLike);
    CasePair(c1);
    CaseTriple(c1, c2);
    FiresIs(CaseLike, c1, c2, c3, c1.Semi? || c1.Colon?, c1.Exp? && (c2.Semi? || c2.Colon?));
  }

  lemma KeywordReads(next: Stack)
    ensures var r := Push(Keyword, next);
      && Read(r, Semi) == Some(next) && Read(r, Colon) == Some(Push(St(Lab), next))
      && Read(r, Exp) == Some(Push(After, Push(EndOrLabel(false), next)))
      && Read(Push(After, Push(EndOrLabel(false), next)), Semi) == Some(next)
      && Read(Push(After, Push(EndOrLabel(false), next)), Colon) == Some(Push(St(Lab), next))
  {
  }

  lemma CaseStep(s: Stack, p1: Category, p2: Category, p3: Category, q: seq<Category>, forceLines: bool)
    requires Local(s, p1, p2, p3, q) && NoInserts(q) && q[0].CaseLike?
    ensures Keeps(s, p1, p2, p3, q, Rules(q[0], Cat(q, 1), Cat(q, 2), Cat(q, 3), forceLines))
  {
    hide Reads, Fires, Fits, Read, Rules, Makes, Usual, Quiet, Keeps, Local, Quietly, CaseLikeCases, Continue;
    LocalFacts(s, p1, p2, p3, q);
    var c1, c2 := Cat(q, 1), Cat(q, 2);
    var p := Rules(q[0], c1, c2, Cat(q, 3), forceLines);
    StartPlace(s, p1, p2, p3, CaseLike);
    StReads(s.top.place, s.rest);
    MoreReads(s.top.place, s.rest);
    KeywordReads(Continue(s.top.place, s.rest, Stmt));
    CaseRules(c1, c2, Cat(q, 3), forceLines);
    CaseTable(c1, c2, Cat(q, 3));
    CaseFires(c1, c2, Cat(q, 3));
    UsualAre();
    if c1.Semi? {
      KeepsTwo(s, p1, p2, p3, q, p, Stmt, -1);
    } else if c1.Colon? {
      KeepsTwo(s, p1, p2, p3, q, p, Tag, -1);
    } else if c1.Exp? && c2.Semi? {
      KeepsThree(s, p1, p2, p3, q, p, Stmt, -1);
    } else if c1.Exp? && c2.Colon? {
      KeepsThree(s, p1, p2, p3, q, p, Tag, -1);
    } else {
      KeepsIdle(s, p1, p2, p3, q, p);
    }
  }

  lemma TagRules(c1: Category, c2: Category, c3: Category, forceLines: bool)
    ensures Rules(Tag, c1, c2, c3, forceLines) == TagCases(c1, c2, c3)
  {
    hide TagCases, Sane;
  }

  lemma TagTable(c1: Category, c2: Category, c3: Category)
    requires !c1.Decl? && !c1.Function?
    ensures var p := TagCases(c1, c2, c3);
      if c1.Tag? then Makes(p, 2, Tag, -1) else if c1.Stmt? then Makes(p, 2, Stmt, -1) else p.Idle?
  {
    hide Sane;
  }

  lemma TagPair(c1: Category)
    ensures FiresPair(Tag, c1) == c1.Stmt?
  {
  }

  lemma TagFires(c1: Category, c2: Category, c3: Category)
    ensures Fires(Tag, c1, c2, c3) == c1.Stmt?
  {
    hide Fires, FiresAlone, FiresPair, FiresTriple;
    NotAlone(Tag);
    TagPair(c1);
    NoTriple(Tag, c1, c2);
    FiresIs(Tag, c1, c2, c3, c1.Stmt?, false);
  }

  lemma LabReads(next: Stack)
    ensures Read(Push(St(Lab), next), Tag) == Some(Push(St(Lab), next)) && Read(Push(St(Lab), next), Stmt) == Some(next)
    ensures Read(Push(St(Lab), next), Decl).None? && Read(Push(St(Lab), next), Function).None?
  {
  }

  lemma TagStep(s: Stack, p1: Category, p2: Category, p3: Category, q: seq<Category>, forceLines: bool)
    requires Local(s, p1, p2, p3, q) && NoInserts(q) && q[0].Tag?
    ensures Keeps(s, p1, p2, p3, q, Rules(q[0], Cat(q, 1), Cat(q, 2), Cat(q, 3), forceLines))
  {
    hide Reads, Fires, Fits, Read, Rules, Makes, Usual, Quiet, Keeps, Local, Quietly, TagCases, Continue;
    LocalFacts(s, p1, p2, p3, q);
    var c1, c2 := Cat(q, 1), Cat(q, 2);
    var p := Rules(q[0], c1, c2, Cat(q, 3), forceLines);
    StartPlace(s, p1, p2, p3, Tag);
    StReads(s.top.place, s.rest);
    MoreReads(s.top.place, s.rest);
    LabReads(Continue(s.top.place, s.rest, Stmt));
    TagRules(c1, c2, Cat(q, 3), forceLines);
    TagTable(c1, c2, Cat(q, 3));
    TagFires(c1, c2, Cat(q, 3));
    UsualAre();
    if c1.Tag? {
      KeepsTwo(s, p1, p2, p3, q, p, Tag, -1);
    } else if c1.Stmt? {
      KeepsTwo(s, p1, p2, p3, q, p, Stmt, -1);
    } else {
      KeepsIdle(s, p1, p2, p3, q, p);
    }
  }

  lemma SectionTable(c2: Category, c3: Category, forceLines: bool)
    ensures Makes(Rules(SectionScrap, Semi, c2, c3, forceLines), 2, Stmt, -2)
  {
  }

  lemma SectionReads(next: Stack, c: Category)
    ensures Read(Push(SectionEnd, next), c).Some? ==> c.Semi? || c.Insert?
    ensures Read(Push(SectionEnd, next), Semi) == Some(next) && !Complete(Push(SectionEnd, next))
  {
  }

  lemma SectionStep(s: Stack, p1: Category, p2: Category, p3: Category, q: seq<Category>, forceLines: bool)
    requires Local(s, p1, p2, p3, q) && NoInserts(q) && q[0].SectionScrap?
    ensures Keeps(s, p1, p2, p3, q, Rules(q[0], Cat(q, 1), Cat(q, 2), Cat(q, 3), forceLines))
  {
    hide Reads, Fires, Fits, Read, Rules, Makes, Usual, Quiet, Keeps, Local, Quietly, Complete;
    LocalFacts(s, p1, p2, p3, q);
    var c1, c2 := Cat(q, 1), Cat(q, 2);
    var p := Rules(q[0], c1, c2, Cat(q, 3), forceLines);
    StartPlace(s, p1, p2, p3, SectionScrap);
    StReads(s.top.place, s.rest);
    MoreReads(s.top.place, s.rest);
    SectionReads(Continue(s.top.place, s.rest, Stmt), c1);
    ReadsMore(s, q);
    SectionTable(c2, Cat(q, 3), forceLines);
    UsualAre();
    KeepsTwo(s, p1, p2, p3, q, p, Stmt, -2);
  }

  // ---- Tests, loops and alternatives ---------------------------------------

  lemma IfForRules(c1: Category, c2: Category, c3: Category, forceLines: bool)
    ensures Rules(IfLike, c1, c2, c3, forceLines) == IfLikeCases(c1, c2, c3)
    ensures Rules(ForLike, c1, c2, c3, forceLines) == ForLikeCases(c1, c2, c3)
  {
    hide IfLikeCases, ForLikeCases, Sane;
  }

  lemma IfForTable(c1: Category, c2: Category, c3: Category)
    ensures if c1.Exp? then Makes(IfLikeCases(c1, c2, c3), 2, IfClause, 0) else IfLikeCases(c1, c2, c3).Idle?
    ensures if c1.Exp? then Makes(ForLikeCases(c1, c2, c3), 2, ElseLike, -2) else ForLikeCases(c1, c2, c3).Idle?
  {
  }

  lemma IfForPair(c0: Category, c1: Category)
    requires c0.IfLike? || c0.ForLike?
    ensures FiresPair(c0, c1) == c1.Exp?
  {
  }

  lemma IfForFires(c0: Category, c1: Category, c2: Category, c3: Category)
    requires c0.IfLike? || c0.ForLike?
    ensures Fires(c0, c1, c2, c3) == c1.Exp?
  {
    hide Fires, FiresAlone, FiresPair, FiresTriple;
    NotAlone(c0);
    IfForPair(c0, c1);
    NoTriple(c0, c1, c2);
    FiresIs(c0, c1, c2, c3, c1.Exp?, false);
  }

  lemma TestReads(u: Stack)
    ensures Read(Push(Test, u), Exp) == Some(u)
  {
  }

  /** A loop header stands where a statement begins, or behind a do. */
  lemma ForPlace(s: Stack, p1: Category, p2: Category, p3: Category)
    requires Fits(s, p1, p2, p3) && Read(s, ForLike).Some?
    ensures Read(s, ElseLike).Some? && Read(s, ForLike) == Some(Push(Test, Read(s, ElseLike).value))
  {
  }

  lemma IfForStep(s: Stack, p1: Category, p2: Category, p3: Category, q: seq<Category>, forceLines: bool)
    requires Local(s, p1, p2, p3, q) && NoInserts(q) && (q[0].IfLike? || q[0].ForLike?)
    ensures Keeps(s, p1, p2, p3, q, Rules(q[0], Cat(q, 1), Cat(q, 2), Cat(q, 3), forceLines))
  {
    hide Reads, Fires, Fits, Read, Rules, Makes, Usual, Quiet, Keeps, Local, Quietly, IfLikeCases, ForLikeCases,
      Continue;
    LocalFacts(s, p1, p2, p3, q);
    var c1, c2, c3 := Cat(q, 1), Cat(q, 2), Cat(q, 3);
    var p := Rules(q[0], c1, c2, c3, forceLines);
    IfForRules(c1, c2, c3, forceLines);
    IfForTable(c1, c2, c3);
    IfForFires(q[0], c1, c2, c3);
    UsualAre();
    if !c1.Exp? {
      KeepsIdle(s, p1, p2, p3, q, p);
    } else if q[0].IfLike? {
      StartPlace(s, p1, p2, p3, IfLike);
      StReads(s.top.place, s.rest);
      TestReads(Read(s, IfClause).value);
      KeepsTwo(s, p1, p2, p3, q, p, IfClause, 0);
    } else {
      ForPlace(s, p1, p2, p3);
      TestReads(Read(s, ElseLike).value);
      KeepsTwo(s, p1, p2, p3, q, p, ElseLike, -2);
    }
  }

  lemma ClauseRules(c1: Category, c2: Category, c3: Category, forceLines: bool)
    ensures Rules(IfClause, c1, c2, c3, forceLines) == IfClauseCases(c1, c2, c3)
    ensures Rules(IfHead, c1, c2, c3, forceLines) == IfHeadCases(c1, c2, c3)
  {
    hide IfClauseCases, IfHeadCases, Sane;
  }

  lemma ClauseTable(c1: Category, c2: Category, c3: Category)
    ensures var p := IfClauseCases(c1, c2, c3);
      if c1.Lbrace? then Makes(p, 1, IfHead, 0)
      else if c1.Stmt? && c2.ElseLike? then (if c3.IfLike? then Makes(p, 4, IfLike, 0) else Makes(p, 3, ElseLike, 0))
      else if c1.Stmt? then Makes(p, 1, ElseLike, 0)
      else p.Idle?
  {
  }

  lemma HeadTable(c1: Category, c2: Category, c3: Category)
    requires !c1.Exp?
    ensures var p := IfHeadCases(c1, c2, c3);
      if c1.Stmt? && c2.ElseLike? then (if c3.IfLike? then Makes(p, 4, IfLike, 0) else Makes(p, 3, ElseLike, 0))
      else if c1.Stmt? then Makes(p, 1, ElseHead, 0)
      else p.Idle?
  {
  }

  lemma ClausePair(c1: Category)
    ensures FiresPair(IfClause, c1) == (c1.Lbrace? || c1.Stmt?) == FiresPair(ElseLike, c1)
    ensures FiresPair(IfHead, c1) == c1.Stmt? == FiresPair(ElseHead, c1)
  {
  }

  lemma ClauseFires(c0: Category, c1: Category, c2: Category, c3: Category)
    ensures c0.IfClause? || c0.ElseLike? ==> Fires(c0, c1, c2, c3) == (c1.Lbrace? || c1.Stmt?)
    ensures c0.IfHead? || c0.ElseHead? ==> Fires(c0, c1, c2, c3) == c1.Stmt?
  {
    hide Fires, FiresAlone, FiresPair, FiresTriple;
    if c0.IfClause? || c0.ElseLike? || c0.IfHead? || c0.ElseHead? {
      NotAlone(c0);
      ClausePair(c1);
      NoTriple(c0, c1, c2);
      FiresIs(c0, c1, c2, c3, c1.Stmt? || (c1.Lbrace? && !c0.IfHead? && !c0.ElseHead?), false);
    }
  }

  /** A statement without an else may be followed by one, and need not be. */
  lemma MayElseReads(u: Stack)
    ensures Read(Push(MayElse, u), ElseLike) == Some(Push(St(Else), u))
    ensures Read(Push(St(Else), u), IfLike) == Some(Push(Test, Push(St(Clause), Push(MayElse, u))))
    ensures Complete(Push(MayElse, u)) == Complete(u)
    ensures forall c: Category :: !c.ElseLike? && !c.Insert? ==> Read(Push(MayElse, u), c) == Read(u, c)
  {
  }

  lemma HeadReads(u: Stack)
    ensures Read(Push(St(Head), u), Exp).None?
    ensures forall p: Place :: p.Head? || p.Clause? ==>
              Read(Push(St(p), u), Lbrace) == Some(Push(St(First), u)) && Read(Push(St(p), u), Stmt) == Some(u)
    ensures Read(Push(St(Else), u), Lbrace) == Some(Push(St(First), u)) && Read(Push(St(Else), u), Stmt) == Some(u)
    ensures Read(Push(St(ElseBlock), u), Lbrace) == Some(Push(St(First), u))
    ensures Read(Push(St(ElseBlock), u), Stmt) == Some(u) && Read(Push(St(ElseBlock), u), Exp).None?
  {
  }

  /** What may be followed by an else and is not counts like an else-part. */
  lemma KeepsDropped(s: Stack, p1: Category, p2: Category, p3: Category, q: seq<Category>, p: Production,
                     cat: Category, u: Stack)
    requires Local(s, p1, p2, p3, q) && NoInserts(q) && |q| >= 2 && q[1].Stmt? && !Cat(q, 2).ElseLike?
    requires Makes(p, 1, cat, 0) && Quietly(cat, 0, p1, p2)
    requires Read(s, q[0]).Some? && Read(Read(s, q[0]).value, Stmt) == Some(Push(MayElse, u))
    requires Read(s, cat).Some? && Read(Read(s, cat).value, Stmt) == Some(u)
    ensures Keeps(s, p1, p2, p3, q, p)
  {
    hide Read, Reads, Fits, Quiet, Keeps, Quietly, Complete;
    LocalFacts(s, p1, p2, p3, q);
    ReadsMore(s, q);
    MayElseReads(u);
    ReadsNext(Push(MayElse, u), q[2..]);
    ReadsNext(u, q[2..]);
    assert q[1..] == [q[1]] + q[2..];
    ReadsPush(Read(s, cat).value, q[1], q[2..]);
    ReadsPush(s, cat, q[1..]);
    KeepsFrom(s, p1, p2, p3, q, p);
  }

  lemma QuietlyUsual(cat: Category, d: int, p1: Category, p2: Category)
    requires Usual(cat, d) || (cat.ElseLike? && d == 0 && !(p1.Stmt? && p2.DoLike?))
    ensures Quietly(cat, d, p1, p2)
  {
  }

  lemma ClauseStep(s: Stack, p1: Category, p2: Category, p3: Category, q: seq<Category>, forceLines: bool)
    requires Local(s, p1, p2, p3, q) && NoInserts(q) && (q[0].IfClause? || q[0].IfHead?)
    ensures Keeps(s, p1, p2, p3, q, Rules(q[0], Cat(q, 1), Cat(q, 2), Cat(q, 3), forceLines))
  {
    hide Reads, Fires, Fits, Read, Rules, Makes, Usual, Quiet, Keeps, Local, Quietly, IfClauseCases,
      IfHeadCases;
    LocalFacts(s, p1, p2, p3, q);
    Fourth(s, p1, p2, p3, q);
    var c1, c2, c3 := Cat(q, 1), Cat(q, 2), Cat(q, 3);
    var p := Rules(q[0], c1, c2, c3, forceLines);
    StartPlace(s, p1, p2, p3, q[0]);
    StReads(s.top.place, s.rest);
    var next := Continue(s.top.place, s.rest, Stmt);
    HeadReads(Push(MayElse, next));
    HeadReads(next);
    MayElseReads(next);
    ClauseRules(c1, c2, c3, forceLines);
    ClauseTable(c1, c2, c3);
    HeadTable(if q[0].IfHead? then c1 else Blank, c2, c3);
    ClauseFires(q[0], c1, c2, c3);
    UsualAre();
    QuietlyUsual(ElseLike, 0, p1, p2);
    QuietlyUsual(IfLike, 0, p1, p2);
    QuietlyUsual(IfHead, 0, p1, p2);
    QuietlyUsual(ElseHead, 0, p1, p2);
    if c1.Stmt? && c2.ElseLike? {
      if c3.IfLike? {
        KeepsFour(s, p1, p2, p3, q, p, IfLike, 0);
      } else {
        KeepsThree(s, p1, p2, p3, q, p, ElseLike, 0);
      }
    } else if c1.Stmt? {
      KeepsDropped(s, p1, p2, p3, q, p, if q[0].IfClause? then ElseLike else ElseHead, next);
    } else if q[0].IfClause? && c1.Lbrace? {
      KeepsLook(s, p1, p2, p3, q, p, IfHead, 0);
    } else {
      KeepsIdle(s, p1, p2, p3, q, p);
    }
  }

  lemma ElseRules(c1: Category, c2: Category, c3: Category, forceLines: bool)
    ensures Rules(ElseLike, c1, c2, c3, forceLines) == ElseLikeCases(c1, c2, c3)
    ensures Rules(ElseHead, c1, c2, c3, forceLines) == ElseHeadCases(c1, c2, c3)
    ensures Rules(DoLike, c1, c2, c3, forceLines) == DoLikeCases(c1, c2, c3)
  {
    hide ElseLikeCases, ElseHeadCases, DoLikeCases, Sane;
  }

  lemma ElseTable(c1: Category, c2: Category, c3: Category)
    ensures var p := ElseLikeCases(c1, c2, c3);
      if c1.Lbrace? then Makes(p, 1, ElseHead, 0) else if c1.Stmt? then Makes(p, 2, Stmt, -1) else p.Idle?
    ensures !c1.Exp? ==>
      var p := ElseHeadCases(c1, c2, c3); if c1.Stmt? then Makes(p, 2, Stmt, -1) else p.Idle?
    ensures var p := DoLikeCases(c1, c2, c3);
      if c1.Stmt? && c2.ElseLike? && c3.Semi? then Makes(p, 4, Stmt, -1) else p.Idle?
  {
  }

  lemma DoFour(c1: Category, c2: Category, c3: Category)
    ensures FiresFour(DoLike, c1, c2, c3) == (c1.Stmt? && c2.ElseLike? && c3.Semi?)
  {
  }

  lemma DoFires(c1: Category, c2: Category, c3: Category)
    ensures Fires(DoLike, c1, c2, c3) == (c1.Stmt? && c2.ElseLike? && c3.Semi?)
  {
    hide FiresAlone, FiresPair, FiresTriple, FiresFour;
    NotAlone(DoLike);
    NoPair(DoLike, c1);
    NoTriple(DoLike, c1, c2);
    DoFour(c1, c2, c3);
  }

  /** An else or loop header that nothing before it takes begins a statement. */
  lemma ElsePlace(s: Stack, p1: Category, p2: Category, p3: Category, c1: Category)
    requires Fits(s, p1, p2, p3) && Read(s, ElseLike).Some? && !FiresFour(p2, p1, ElseLike, c1)
    requires Read(Read(s, ElseLike).value, c1).Some? && !c1.Insert?
    ensures s.Push? && s.top.St? && Ordinary(s.top.place) && s == Push(s.top, s.rest)
  {
    hide FiresFour;
    ElseTop(s, p1, p2, p3);
    if s.top.While? {
      WhileFires(p1, p2, c1);
    }
  }

  lemma ElseTop(s: Stack, p1: Category, p2: Category, p3: Category)
    requires Fits(s, p1, p2, p3) && Read(s, ElseLike).Some?
    ensures s.Push? && ((s.top.St? && Ordinary(s.top.place)) || (s.top.While? && p1.Stmt? && p2.DoLike?))
  {
  }

  lemma WhileFires(p1: Category, p2: Category, c1: Category)
    requires p1.Stmt? && p2.DoLike? && c1.Semi?
    ensures FiresFour(p2, p1, ElseLike, c1)
  {
  }

  lemma ElseMore(s: Stack, p1: Category, p2: Category, p3: Category)
    requires Fits(s, p1, p2, p3) && Read(s, ElseLike).Some?
    ensures !Complete(Read(s, ElseLike).value)
  {
  }

  lemma ElseStep(s: Stack, p1: Category, p2: Category, p3: Category, q: seq<Category>, forceLines: bool)
    requires Local(s, p1, p2, p3, q) && NoInserts(q) && q[0].ElseLike?
    ensures Keeps(s, p1, p2, p3, q, Rules(q[0], Cat(q, 1), Cat(q, 2), Cat(q, 3), forceLines))
  {
    hide Reads, Fires, Fits, Read, Rules, Makes, Usual, Quiet, Keeps, Local, Quietly, ElseLikeCases, Complete;
    LocalFacts(s, p1, p2, p3, q);
    var c1, c2 := Cat(q, 1), Cat(q, 2);
    var p := Rules(q[0], c1, c2, Cat(q, 3), forceLines);
    ReadsMore(s, q);
    ElseMore(s, p1, p2, p3);
    QuietBack(p1, p2, p3, q[0], c1, c2);
    ElsePlace(s, p1, p2, p3, c1);
    StReads(s.top.place, s.rest);
    HeadReads(Continue(s.top.place, s.rest, Stmt));
    ElseRules(c1, c2, Cat(q, 3), forceLines);
    ElseTable(c1, c2, Cat(q, 3));
    ClauseFires(q[0], c1, c2, Cat(q, 3));
    UsualAre();
    if c1.Lbrace? {
      QuietlyUsual(ElseHead, 0, p1, p2);
      KeepsLook(s, p1, p2, p3, q, p, ElseHead, 0);
    } else if c1.Stmt? {
      KeepsTwo(s, p1, p2, p3, q, p, Stmt, -1);
    } else {
      KeepsIdle(s, p1, p2, p3, q, p);
    }
  }

  lemma ElseHeadStep(s: Stack, p1: Category, p2: Category, p3: Category, q: seq<Category>, forceLines: bool)
    requires Local(s, p1, p2, p3, q) && NoInserts(q) && q[0].ElseHead?
    ensures Keeps(s, p1, p2, p3, q, Rules(q[0], Cat(q, 1), Cat(q, 2), Cat(q, 3), forceLines))
  {
    hide Reads, Fires, Fits, Read, Rules, Makes, Usual, Quiet, Keeps, Local, Quietly, ElseHeadCases;
    LocalFacts(s, p1, p2, p3, q);
    var c1, c2 := Cat(q, 1), Cat(q, 2);
    var p := Rules(q[0], c1, c2, Cat(q, 3), forceLines);
    StartPlace(s, p1, p2, p3, ElseHead);
    StReads(s.top.place, s.rest);
    HeadReads(Continue(s.top.place, s.rest, Stmt));
    ElseRules(c1, c2, Cat(q, 3), forceLines);
    ElseTable(c1, c2, Cat(q, 3));
    ClauseFires(q[0], c1, c2, Cat(q, 3));
    UsualAre();
    if c1.Stmt? {
      KeepsTwo(s, p1, p2, p3, q, p, Stmt, -1);
    } else {
      KeepsIdle(s, p1, p2, p3, q, p);
    }
  }

  lemma DoReads(next: Stack)
    ensures Read(Push(St(Do), Push(While, next)), Stmt) == Some(Push(While, next))
    ensures Read(Push(While, next), ElseLike) == Some(Push(WhileEnd, next))
    ensures Read(Push(WhileEnd, next), Semi) == Some(next)
  {
  }

  lemma DoStep(s: Stack, p1: Category, p2: Category, p3: Category, q: seq<Category>, forceLines: bool)
    requires Local(s, p1, p2, p3, q) && NoInserts(q) && q[0].DoLike?
    ensures Keeps(s, p1, p2, p3, q, Rules(q[0], Cat(q, 1), Cat(q, 2), Cat(q, 3), forceLines))
  {
    hide Reads, Fires, Fits, Read, Rules, Makes, Usual, Quiet, Keeps, Local, Quietly, DoLikeCases;
    LocalFacts(s, p1, p2, p3, q);
    var c1, c2 := Cat(q, 1), Cat(q, 2);
    var p := Rules(q[0], c1, c2, Cat(q, 3), forceLines);
    StartPlace(s, p1, p2, p3, DoLike);
    StReads(s.top.place, s.rest);
    MoreReads(s.top.place, s.rest);
    DoReads(Continue(s.top.place, s.rest, Stmt));
    ElseRules(c1, c2, Cat(q, 3), forceLines);
    ElseTable(c1, c2, Cat(q, 3));
    DoFires(c1, c2, Cat(q, 3));
    UsualAre();
    if c1.Stmt? && c2.ElseLike? && Cat(q, 3).Semi? {
      QuietlyUsual(Stmt, -1, p1, p2);
      KeepsFour(s, p1, p2, p3, q, p, Stmt, -1);
    } else {
      KeepsIdle(s, p1, p2, p3, q, p);
    }
  }

  // ---- Insertions ---------------------------------------------------------------

  /** Nothing is before the first category. */
  lemma BlankPlace(s: Stack, p1: Category, p2: Category, p3: Category)
    requires Fits(s, p1, p2, p3) && p1.Blank?
    ensures p2.Blank? && p3.Blank? && !Complete(s)
  {
  }

  lemma BlankFires(c1: Category, c2: Category, c3: Category)
    ensures !Fires(Blank, c1, c2, c3)
  {
    hide FiresAlone, FiresPair, FiresTriple, FiresFour;
    BlankPair(c1);
    BlankMore(c1, c2, c3);
  }

  lemma BlankPair(c1: Category)
    ensures !FiresPair(Blank, c1)
  {
  }

  lemma BlankMore(c1: Category, c2: Category, c3: Category)
    ensures !FiresTriple(Blank, c1, c2)
    ensures !FiresAlone(Blank)
    ensures !FiresFour(Blank, c1, c2, c3)
  {
  }

  /** An insertion at the beginning joins what follows it. */
  lemma InsertFirst(s: Stack, p1: Category, p2: Category, p3: Category, q: seq<Category>, forceLines: bool)
    requires Local(s, p1, p2, p3, q) && q[0].Insert?
    requires !Cat(q, 1).Insert? && !Cat(q, 2).Insert? && !Cat(q, 3).Insert?
    ensures Keeps(s, p1, p2, p3, q, Rules(q[0], Cat(q, 1), Cat(q, 2), Cat(q, 3), forceLines))
  {
    hide Reads, Quiet, Read, Rules, Fires, Fits, Complete;
    LocalFacts(s, p1, p2, p3, q);
    ReadsMore(s, q);
    InsertReads(s);
    BlankPlace(s, p1, p2, p3);
    InsertTable(Cat(q, 1), Cat(q, 2), Cat(q, 3), forceLines);
    var p := Rules(q[0], Cat(q, 1), Cat(q, 2), Cat(q, 3), forceLines);
    var r := Reduced(q, p);
    assert r == [q[1]] + q[2..];
    ReadsPush(s, q[1], q[2..]);
    BlankFires(r[0], Cat(r, 1), Cat(r, 2));
    BlankFires(Blank, r[0], Cat(r, 1));
    BlankFires(Blank, Blank, r[0]);
  }

  lemma InsertTable(c1: Category, c2: Category, c3: Category, forceLines: bool)
    requires !c1.Blank?
    ensures Rules(Insert, c1, c2, c3, forceLines) == Squash(0, 2, c1, 0, 83)
  {
    hide Sane;
  }

  /** Insertions behind one of the categories at the cursor join it. */
  lemma Absorbed(s: Stack, p1: Category, p2: Category, p3: Category, q: seq<Category>, p: Production, i: nat)
    requires Local(s, p1, p2, p3, q) && 1 <= i <= 3 && i < |q| && q[i].Insert?
    requires p.Squash? && p.off == i - 1 && p.k == 2 && p.cat == q[i - 1] && p.d == i - 3
    ensures Keeps(s, p1, p2, p3, q, p)
  {
    hide Reads, Fits, Fires, Reduced, Cat;
    Without(s, q, i);
    AbsorbedShape(q, p, i);
  }

  lemma AbsorbedShape(q: seq<Category>, p: Production, i: nat)
    requires 1 <= i <= 3 && i < |q| && p.Squash? && p.off == i - 1 && p.k == 2 && p.cat == q[i - 1]
    ensures var r := Reduced(q, p);
      && r == q[..i] + q[i + 1..] && r != [] && r[0] == q[0]
      && (i >= 2 ==> Cat(r, 1) == Cat(q, 1)) && (i >= 3 ==> Cat(r, 2) == Cat(q, 2))
  {
    assert q[..i - 1] + [q[i - 1]] == q[..i];
  }

  lemma {:induction false} Without(s: Stack, q: seq<Category>, i: nat)
    requires Reads(s, q) && i < |q| && q[i].Insert?
    ensures Reads(s, q[..i] + q[i + 1..])
    decreases i
  {
    hide Complete;
    ReadsNext(s, q);
    var r := q[..i] + q[i + 1..];
    if i == 0 {
      assert r == q[1..];
      InsertReads(s);
    } else {
      assert q[1..][..i - 1] + q[1..][i..] == r[1..];
      Without(Read(s, q[0]).value, q[1..], i - 1);
      ReadsNext(s, r);
    }
  }

  lemma InsertReads(s: Stack)
    ensures Read(s, Insert) == Some(s)
  {
  }
}
