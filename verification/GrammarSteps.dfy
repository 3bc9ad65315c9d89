/** What one step of the parser does to a text that is being reduced. */
module GrammarSteps {
  import opened Grammar
  import opened Productions
  import opened Wrappers

  /** The category at place i; Blank if there is none. */
  function Cat(cats: seq<Category>, i: int): Category {
    if 0 <= i < |cats| then cats[i] else Blank
  }

  predicate Whole(c: Category) {
    c.Stmt? || c.Decl? || c.Function?
  }

  // Categories that do not stay as they are while a text is reduced: one, or two, three or four side
  // by side.  (Two labels may wait side by side for the statement that follows.)

  predicate FiresAlone(c0: Category) {
    || c0.RawRpar? || c0.RawUnorbin? || c0.Prelangle? || c0.Prerangle? || c0.Semi? || c0.SectionScrap?
    || c0.RawInt? || c0.ConstLike?
  }

  predicate FiresPair(c0: Category, c1: Category) {
    || (c0.Exp? && (c1.Unop? || c1.Semi? || c1.Colon? || c1.Exp? || c1.Cast? || c1.Lbrace? || c1.IntLike?))
    || ((c0.Unop? || c0.Unorbinop? || c0.SizeofLike? || c0.Cast? || c0.IfLike? || c0.ForLike?) && c1.Exp?)
    || (c0.SizeofLike? && c1.Cast?)
    || (c0.Lpar? && (c1.Rpar? || c1.Stmt?))
    || (c0.Lbrace? && c1.Rbrace?)
    || ((c0.IfClause? || c0.ElseLike?) && (c1.Lbrace? || c1.Stmt?))
    || ((c0.IfHead? || c0.ElseHead? || c0.Tag?) && c1.Stmt?)
    || (c0.CaseLike? && (c1.Semi? || c1.Colon?))
    || (c0.IntLike? && (c1.IntLike? || c1.Exp? || c1.Unorbinop? || c1.Semi?))
    || (c0.DeclHead? && (c1.Comma? || c1.Unorbinop? || c1.Cast? || c1.Semi? || c1.Lbrace? || c1.IntLike?))
    || (Whole(c0) && Whole(c1))
    || (c0.FnDecl? && (c1.Decl? || c1.Stmt?))
  }

  /** What ends a name that is declared. */
  predicate EndsName(c: Category) {
    || c.Comma? || c.Semi? || c.Binop? || Star(c) || c.Cast? || c.Lbrace? || Close(c) || c.RawInt? || c.IntLike?
  }

  predicate FiresTriple(c0: Category, c1: Category, c2: Category) {
    || (c0.Exp? && (c1.Binop? || c1.Unorbinop? || c1.Comma?) && c2.Exp?)
    || (c0.Question? && c1.Exp? && c2.Colon?)
    || (c0.Lpar? && (c1.Exp? || c1.IntLike? || c1.DeclHead?) && (c2.Rpar? || c2.Comma?))
    || (c0.Lbrace? && (c1.Stmt? || c1.Decl?) && c2.Rbrace?)
    || (c0.CaseLike? && c1.Exp? && (c2.Semi? || c2.Colon?))
    || (c0.DeclHead? && c1.Exp? && EndsName(c2))
  }

  predicate FiresFour(c0: Category, c1: Category, c2: Category, c3: Category) {
    || (c0.DoLike? && c1.Stmt? && c2.ElseLike? && c3.Semi?)
    || (c0.DeclHead? && c1.Binop? && c2.Exp? && (c3.Comma? || c3.Semi?))
  }

  predicate Fires(c0: Category, c1: Category, c2: Category, c3: Category) {
    FiresAlone(c0) || FiresPair(c0, c1) || FiresTriple(c0, c1, c2) || FiresFour(c0, c1, c2, c3)
  }

  /** How the last categories p1, p2, p3 before the cursor (p1 last; Blank where there are none) and
      what is expected there fit together, when nothing before the cursor fires. */
  predicate Fits(s: Stack, p1: Category, p2: Category, p3: Category) {
    && s.Push?
    && match s.top
       case St(p) => FitsPlace(p, s.rest, p1, p2, p3)
       case Operand =>
         || p1.Unop? || p1.Unorbinop? || p1.Cast?
         || ((p1.Binop? || p1.Comma?) && p2.Exp?)
         || (p1.Question? && s.rest.Push? && s.rest.top.ChoiceColon?)
         || (p1.Binop? && p2.DeclHead? && s.rest.Push? && s.rest.top.Init?)
       case Sized => p1.SizeofLike?
       case Inside(_) => p1.Lpar?
       case After =>
         && p1.Exp? && s.rest.Push?
         && (|| (s.rest.top.Inside? && p2.Lpar?) || (s.rest.top.ChoiceColon? && p2.Question?)
             || s.rest.top.EndOrLabel? || (s.rest.top.Init? && p2.Binop? && p3.DeclHead?))
       case Test => p1.IfLike? || p1.ForLike?
       case Keyword => p1.CaseLike?
       case While => p1.Stmt? && p2.DoLike?
       case WhileEnd => p1.ElseLike? && p2.Stmt? && p3.DoLike?
       case Typed(at) => p1.IntLike? && (at.Between? ==> p2.Lpar?)
       case Declaring(at) =>
         || (p1.DeclHead? && (at.Between? ==> p2.Lpar?))
         || (p1.Exp? && p2.DeclHead? && (at.Between? ==> p3.Lpar?))
       case Body => p1.FnDecl?
       case _ => false
  }

  predicate FitsPlace(p: Place, rest: Stack, p1: Category, p2: Category, p3: Category) {
    match p
    case Bottom => p1.Blank? && p2.Blank? && p3.Blank?
    case Later(last) => p1 == last && Whole(last) && p2.Blank?
    case First => p1.Lbrace?
    case Next => (p1.Stmt? || p1.Decl?) && p2.Lbrace?
    case Clause => p1.IfClause?
    case Head => p1.IfHead?
    case Else => p1.ElseLike?
    case ElseBlock => p1.ElseHead?
    case Do => p1.DoLike? && rest.Push? && rest.top.While?
    case Lab => p1.Tag?
  }

  /** Nothing before the cursor fires, as far as it sees categories at the cursor. */
  predicate Quiet(p1: Category, p2: Category, p3: Category, c0: Category, c1: Category, c2: Category) {
    !Fires(p1, c0, c1, c2) && !Fires(p2, p1, c0, c1) && !Fires(p3, p2, p1, c0)
  }

  /** What fires at a category by itself is a pair or three. */
  lemma FiresIs(c0: Category, c1: Category, c2: Category, c3: Category, pair: bool, triple: bool)
    requires !FiresAlone(c0) && FiresPair(c0, c1) == pair && FiresTriple(c0, c1, c2) == triple
    requires !c0.DoLike? && !c0.DeclHead?
    ensures Fires(c0, c1, c2, c3) == (pair || triple)
  {
    hide FiresAlone, FiresPair, FiresTriple;
  }

  lemma NotAlone(c0: Category)
    requires !c0.RawRpar? && !c0.RawUnorbin? && !c0.Prelangle? && !c0.Prerangle? && !c0.Semi? && !c0.SectionScrap?
    requires !c0.RawInt? && !c0.ConstLike?
    ensures !FiresAlone(c0)
  {
  }

  lemma NoPair(c0: Category, c1: Category)
    requires c0.Colon? || c0.Rpar? || c0.Rbrace? || c0.Comma? || c0.Binop? || c0.Question? || c0.DoLike?
    ensures !FiresPair(c0, c1)
  {
  }

  lemma NoTriple(c0: Category, c1: Category, c2: Category)
    requires !c0.Exp? && !c0.Question? && !c0.Lpar? && !c0.Lbrace? && !c0.CaseLike? && !c0.DeclHead?
    ensures !FiresTriple(c0, c1, c2)
  {
  }

  /** Nothing fires whose last category is c0. */
  predicate Settled(p1: Category, p2: Category, p3: Category, c0: Category) {
    !FiresAlone(c0) && !FiresPair(p1, c0) && !FiresTriple(p2, p1, c0) && !FiresFour(p3, p2, p1, c0)
  }

  lemma QuietBack(p1: Category, p2: Category, p3: Category, c0: Category, c1: Category, c2: Category)
    requires Quiet(p1, p2, p3, c0, c1, c2)
    ensures !FiresAlone(p1) && !FiresPair(p1, c0) && !FiresTriple(p1, c0, c1) && !FiresTriple(p2, p1, c0)
    ensures !FiresFour(p3, p2, p1, c0) && !FiresFour(p2, p1, c0, c1)
  {
    hide FiresAlone, FiresPair, FiresTriple, FiresFour;
  }

  lemma QuietSettled(p1: Category, p2: Category, p3: Category, c0: Category, c1: Category, c2: Category, c3: Category)
    requires Quiet(p1, p2, p3, c0, c1, c2) && !Fires(c0, c1, c2, c3)
    ensures Settled(p1, p2, p3, c0)
  {
    hide FiresAlone, FiresPair, FiresTriple, FiresFour;
  }

  // ---- One category further -----------------------------------------------------

  /** A whole item, or the beginning of a declaration or function. */
  lemma FitsDeclared(s: Stack, p1: Category, p2: Category, p3: Category, c0: Category)
    requires s.Push? && s.top.St? && (Whole(c0) || c0.FnDecl? || c0.DeclHead? || TypeWord(c0))
    requires Fits(s, p1, p2, p3) && Settled(p1, p2, p3, c0) && Read(s, c0).Some?
    ensures Fits(Read(s, c0).value, c0, p1, p2)
  {
  }

  /** The beginning of a statement. */
  lemma FitsStatement(s: Stack, p1: Category, p2: Category, p3: Category, c0: Category)
    requires s.Push? && s.top.St? && !(Whole(c0) || c0.FnDecl? || c0.DeclHead? || TypeWord(c0)) && !c0.Insert?
    requires Fits(s, p1, p2, p3) && Settled(p1, p2, p3, c0) && Read(s, c0).Some?
    ensures Fits(Read(s, c0).value, c0, p1, p2)
  {
  }

  /** Behind an expression. */
  lemma FitsAfter(s: Stack, p1: Category, p2: Category, p3: Category, c0: Category)
    requires s.Push? && s.top.After? && !c0.Insert?
    requires Fits(s, p1, p2, p3) && Settled(p1, p2, p3, c0) && Read(s, c0).Some?
    ensures Fits(Read(s, c0).value, c0, p1, p2)
  {
  }

  /** In a declaration. */
  lemma FitsDeclaring(s: Stack, p1: Category, p2: Category, p3: Category, c0: Category)
    requires s.Push? && (s.top.Declaring? || s.top.Typed? || s.top.Body?) && !c0.Insert?
    requires Fits(s, p1, p2, p3) && Settled(p1, p2, p3, c0) && Read(s, c0).Some?
    ensures Fits(Read(s, c0).value, c0, p1, p2)
  {
  }

  lemma FitsOperand(s: Stack, p1: Category, p2: Category, p3: Category, c0: Category)
    requires s.Push? && (s.top.Operand? || s.top.Sized?) && !c0.Insert?
    requires Fits(s, p1, p2, p3) && Settled(p1, p2, p3, c0) && Read(s, c0).Some?
    ensures Fits(Read(s, c0).value, c0, p1, p2)
  {
  }

  lemma FitsInside(s: Stack, p1: Category, p2: Category, p3: Category, c0: Category)
    requires s.Push? && s.top.Inside? && !c0.Insert?
    requires Fits(s, p1, p2, p3) && Settled(p1, p2, p3, c0) && Read(s, c0).Some?
    ensures Fits(Read(s, c0).value, c0, p1, p2)
  {
  }

  lemma FitsElsewhere(s: Stack, p1: Category, p2: Category, p3: Category, c0: Category)
    requires s.Push? && (s.top.Test? || s.top.Keyword? || s.top.While? || s.top.WhileEnd?) && !c0.Insert?
    requires Fits(s, p1, p2, p3) && Settled(p1, p2, p3, c0) && Read(s, c0).Some?
    ensures Fits(Read(s, c0).value, c0, p1, p2)
  {
  }

  lemma FitsNext(s: Stack, p1: Category, p2: Category, p3: Category, c0: Category, c1: Category, c2: Category,
                 c3: Category)
    requires Fits(s, p1, p2, p3) && Quiet(p1, p2, p3, c0, c1, c2) && !Fires(c0, c1, c2, c3) && !c0.Insert?
    requires Read(s, c0).Some?
    ensures Fits(Read(s, c0).value, c0, p1, p2)
  {
    hide Quiet, Fires, Settled, Read, FitsPlace, Whole, TypeWord;
    QuietSettled(p1, p2, p3, c0, c1, c2, c3);
    if s.top.St? {
      if Whole(c0) || c0.FnDecl? || c0.DeclHead? || TypeWord(c0) {
        FitsDeclared(s, p1, p2, p3, c0);
      } else {
        FitsStatement(s, p1, p2, p3, c0);
      }
    } else if s.top.After? {
      FitsAfter(s, p1, p2, p3, c0);
    } else if s.top.Declaring? || s.top.Typed? || s.top.Body? {
      FitsDeclaring(s, p1, p2, p3, c0);
    } else if s.top.Operand? || s.top.Sized? {
      FitsOperand(s, p1, p2, p3, c0);
    } else if s.top.Inside? {
      FitsInside(s, p1, p2, p3, c0);
    } else {
      FitsElsewhere(s, p1, p2, p3, c0);
    }
  }

  // ---- One step -----------------------------------------------------------------

  /** The categories from the cursor on after a production that is no Reserve. */
  function Reduced(q: seq<Category>, p: Production): seq<Category>
    requires q != [] && !p.Reserve? && (p.Squash? || p.Build? ==> p.off + p.k <= |q|)
  {
    match p
    case Idle => q
    case Angle(_, _, _) => [Binop] + q[1..]
    case Squash(off, k, cat, _, _) => q[..off] + [cat] + q[off + k..]
    case Build(_, _, off, k, cat, _, _) => q[..off] + [cat] + q[off + k..]
  }

  /** What the invariant says about one place: q is read from s, and p1, p2, p3 stand before it. */
  predicate Local(s: Stack, p1: Category, p2: Category, p3: Category, q: seq<Category>) {
    && q != [] && Reads(s, q) && Fits(s, p1, p2, p3) && Quiet(p1, p2, p3, q[0], Cat(q, 1), Cat(q, 2))
    && (q[0].Insert? ==> p1.Blank?)
  }

  /** The production keeps it, as far as the places are concerned to which the cursor does not go back. */
  predicate Keeps(s: Stack, p1: Category, p2: Category, p3: Category, q: seq<Category>, p: Production)
    requires q != []
  {
    if p.Idle? then !Fires(q[0], Cat(q, 1), Cat(q, 2), Cat(q, 3)) && !q[0].Insert? && !Cat(q, 1).Insert?
    else
      && !p.Reserve? && (p.Squash? || p.Build? ==> p.k >= 1 && p.off + p.k <= |q|) && p.d <= 0
      && var r := Reduced(q, p);
         && Reads(s, r) && (r[0].Insert? ==> p1.Blank?)
         && (p.d == 0 ==> !Fires(p1, r[0], Cat(r, 1), Cat(r, 2)))
         && (p.d >= -1 ==> !Fires(p2, p1, r[0], Cat(r, 1)))
         && (p.d >= -2 ==> !Fires(p3, p2, p1, r[0]))
  }

  lemma ReadsNext(s: Stack, q: seq<Category>)
    ensures q == [] ==> Reads(s, q) == Complete(s)
    ensures q != [] ==> Reads(s, q) == (Read(s, q[0]).Some? && Reads(Read(s, q[0]).value, q[1..]))
  {
  }

  lemma ReadsPush(s: Stack, c: Category, q: seq<Category>)
    ensures Reads(s, [c] + q) == (Read(s, c).Some? && Reads(Read(s, c).value, q))
  {
    assert ([c] + q)[1..] == q;
  }

  lemma NoBlank(s: Stack)
    ensures Read(s, Blank).None?
    decreases s
  {
  }

  /** The first categories read one after the other. */
  lemma ReadsMore(s: Stack, q: seq<Category>)
    requires Reads(s, q) && q != []
    ensures !q[0].Blank? && Read(s, q[0]).Some?
    ensures var r1 := Read(s, q[0]).value;
      && Reads(r1, q[1..])
      && (|q| == 1 ==> Complete(r1))
      && (|q| >= 2 ==> !q[1].Blank? && Read(r1, q[1]).Some? && Reads(Read(r1, q[1]).value, q[2..]))
      && (|q| == 2 ==> Complete(Read(r1, q[1]).value))
      && (|q| >= 3 ==> var r2 := Read(r1, q[1]).value;
            !q[2].Blank? && Read(r2, q[2]).Some? && Reads(Read(r2, q[2]).value, q[3..]))
      && (|q| == 3 ==> Complete(Read(Read(r1, q[1]).value, q[2]).value))
  {
    hide Read, Reads, Complete;
    ReadsNext(s, q);
    var r1 := Read(s, q[0]).value;
    NoBlank(s);
    ReadsNext(r1, q[1..]);
    if |q| >= 2 {
      var r2 := Read(r1, q[1]).value;
      NoBlank(r1);
      assert q[1..][1..] == q[2..];
      ReadsNext(r2, q[2..]);
      if |q| >= 3 {
        NoBlank(r2);
        assert q[2..][1..] == q[3..];
        ReadsNext(Read(r2, q[2]).value, q[3..]);
      }
    }
  }

  predicate NoInserts(q: seq<Category>) {
    !Cat(q, 0).Insert? && !Cat(q, 1).Insert? && !Cat(q, 2).Insert? && !Cat(q, 3).Insert?
  }

  lemma LocalFacts(s: Stack, p1: Category, p2: Category, p3: Category, q: seq<Category>)
    requires Local(s, p1, p2, p3, q)
    ensures q != [] && Reads(s, q) && Fits(s, p1, p2, p3) && Quiet(p1, p2, p3, q[0], Cat(q, 1), Cat(q, 2))
    ensures !q[0].Blank? && Read(s, q[0]).Some?
    ensures |q| >= 2 ==> var r1 := Read(s, q[0]).value; !q[1].Blank? && Read(r1, q[1]).Some?
    ensures |q| >= 3 ==> var r2 := Read(Read(s, q[0]).value, q[1]).value; !q[2].Blank? && Read(r2, q[2]).Some?
  {
    hide Reads, Fits, Quiet, Read;
    ReadsMore(s, q);
  }

  /** The fourth category is read, too. */
  lemma Fourth(s: Stack, p1: Category, p2: Category, p3: Category, q: seq<Category>)
    requires Local(s, p1, p2, p3, q)
    ensures |q| >= 4 ==>
              && Read(s, q[0]).Some? && Read(Read(s, q[0]).value, q[1]).Some?
              && Read(Read(Read(s, q[0]).value, q[1]).value, q[2]).Some?
              && Read(Read(Read(Read(s, q[0]).value, q[1]).value, q[2]).value, q[3]).Some?
  {
    hide Read, Reads, Fits, Quiet;
    LocalFacts(s, p1, p2, p3, q);
    ReadsMore(s, q);
    if |q| >= 4 {
      ReadsNext(Read(Read(Read(s, q[0]).value, q[1]).value, q[2]).value, q[3..]);
    }
  }

  /** Where a text cannot end, more is read. */
  lemma NotLast(s: Stack, p1: Category, p2: Category, p3: Category, q: seq<Category>)
    requires Local(s, p1, p2, p3, q)
    ensures Read(s, q[0]).Some?
    ensures !Complete(Read(s, q[0]).value) ==> |q| >= 2
  {
    hide Read, Reads, Fits, Quiet, Complete;
    LocalFacts(s, p1, p2, p3, q);
    ReadsMore(s, q);
  }

  // ---- What is made -------------------------------------------------------------

  /** Categories that do not make anything before them fire. */
  predicate Calm(cat: Category) {
    || cat.Tag? || cat.IfClause? || cat.IfHead? || cat.ElseHead? || cat.ElseLike? || cat.IfLike? || cat.Lpar?
    || cat.FnDecl?
  }

  /** Categories that make only what stands right before them fire. */
  predicate Near(cat: Category) {
    Whole(cat) || cat.Tag? || cat.DeclHead?
  }

  /** A category that is made, and the move of the cursor: it goes back to all places where the new
      category might matter. */
  predicate Quietly(cat: Category, d: int, p1: Category, p2: Category) {
    && -3 <= d <= 0 && !cat.Semi? && !cat.Comma? && !cat.Insert?
    && (d == -1 ==> Near(cat))
    && (d == 0 ==> Calm(cat) && !(cat.ElseLike? && p2.DoLike? && p1.Stmt?))
  }

  lemma QuietSecond(c0: Category, cat: Category)
    requires Calm(cat)
    ensures !FiresPair(c0, cat) && forall c2 :: !FiresTriple(c0, cat, c2)
  {
  }

  lemma QuietThird(c0: Category, c1: Category, cat: Category)
    requires Calm(cat) || Near(cat)
    ensures !FiresTriple(c0, c1, cat)
  {
  }

  lemma QuietThree(p1: Category, p2: Category, p3: Category, c0: Category, cat: Category)
    requires !Fires(p3, p2, p1, c0) && !cat.Semi? && !cat.Comma?
    ensures !Fires(p3, p2, p1, cat)
  {
    hide FiresAlone, FiresPair, FiresTriple;
  }

  lemma QuietTwo(p1: Category, p2: Category, c0: Category, c1: Category, cat: Category, n1: Category)
    requires !Fires(p2, p1, c0, c1) && !FiresTriple(p2, p1, cat)
    requires !(p2.DoLike? && p1.Stmt? && cat.ElseLike?) && !cat.Exp?
    ensures !Fires(p2, p1, cat, n1)
  {
    hide FiresAlone, FiresPair, FiresTriple;
  }

  lemma QuietOne(p1: Category, c0: Category, c1: Category, c2: Category, cat: Category, n1: Category, n2: Category)
    requires !Fires(p1, c0, c1, c2) && !FiresPair(p1, cat) && !FiresTriple(p1, cat, n1) && !cat.Stmt? && !cat.Binop?
    ensures !Fires(p1, cat, n1, n2)
  {
    hide FiresAlone, FiresPair, FiresTriple;
  }

  lemma StaysQuiet(p1: Category, p2: Category, p3: Category, c0: Category, c1: Category, c2: Category,
                   cat: Category, n1: Category, n2: Category, d: int)
    requires Quiet(p1, p2, p3, c0, c1, c2) && Quietly(cat, d, p1, p2)
    ensures d == 0 ==> !Fires(p1, cat, n1, n2)
    ensures d >= -1 ==> !Fires(p2, p1, cat, n1)
    ensures d >= -2 ==> !Fires(p3, p2, p1, cat)
  {
    hide Fires, FiresPair, FiresTriple, Calm, Near;
    QuietThree(p1, p2, p3, c0, cat);
    if d >= -1 {
      CalmNear(cat);
      QuietThird(p2, p1, cat);
      QuietTwo(p1, p2, c0, c1, cat, n1);
    }
    if d == 0 {
      QuietSecond(p1, cat);
      QuietOne(p1, c0, c1, c2, cat, n1, n2);
    }
  }

  lemma CalmNear(cat: Category)
    requires Calm(cat) || Near(cat)
    ensures !cat.Exp? && !cat.Binop? && (Calm(cat) ==> !cat.Stmt?) && (Near(cat) ==> !cat.ElseLike?)
  {
  }

  lemma KeepsFrom(s: Stack, p1: Category, p2: Category, p3: Category, q: seq<Category>, p: Production)
    requires Local(s, p1, p2, p3, q) && (p.Squash? || p.Build?) && p.off == 0 && 1 <= p.k <= |q|
    requires Reads(s, [p.cat] + q[p.k..]) && Quietly(p.cat, p.d, p1, p2)
    ensures Keeps(s, p1, p2, p3, q, p)
  {
    hide Reads, Fires, Quietly;
    var r := Reduced(q, p);
    assert r == [p.cat] + q[p.k..];
    StaysQuiet(p1, p2, p3, q[0], Cat(q, 1), Cat(q, 2), p.cat, Cat(r, 1), Cat(r, 2), p.d);
    Bounds(p.cat, p.d, p1, p2);
  }

  lemma Bounds(cat: Category, d: int, p1: Category, p2: Category)
    requires Quietly(cat, d, p1, p2)
    ensures d <= 0 && !cat.Insert?
  {
  }

  lemma KeepsIdle(s: Stack, p1: Category, p2: Category, p3: Category, q: seq<Category>, p: Production)
    requires Local(s, p1, p2, p3, q) && p.Idle? && NoInserts(q) && !Fires(q[0], Cat(q, 1), Cat(q, 2), Cat(q, 3))
    ensures Keeps(s, p1, p2, p3, q, p)
  {
    hide Reads, Fires, Fits, Quiet;
  }

  /** The production makes one scrap of the first k, of category cat, and moves the cursor by d. */
  predicate Makes(p: Production, k: nat, cat: Category, d: int) {
    (p.Squash? || p.Build?) && p.off == 0 && p.k == k && p.cat == cat && p.d == d
  }

  /** What is made with which move of the cursor. */
  predicate Usual(cat: Category, d: int) {
    || ((cat.Exp? || cat.Stmt? || cat.Binop? || cat.Unorbinop? || cat.ElseLike? || cat.IntLike? || cat.Cast?)
        && d == -2)
    || (Near(cat) && d == -1)
    || (Calm(cat) && !cat.ElseLike? && d == 0)
    || ((cat.Rpar? || cat.IntLike?) && d == -3)
  }

  lemma UsualQuietly(cat: Category, d: int, p1: Category, p2: Category)
    ensures Usual(cat, d) ==> Quietly(cat, d, p1, p2)
  {
  }

  lemma UsualAre()
    ensures Usual(Exp, -2) && Usual(Binop, -2) && Usual(Unorbinop, -2) && Usual(ElseLike, -2) && Usual(IntLike, -2)
    ensures Usual(Cast, -2) && Usual(Stmt, -2) && Usual(Rpar, -3) && Usual(IntLike, -3)
    ensures Usual(Stmt, -1) && Usual(Decl, -1) && Usual(Function, -1) && Usual(DeclHead, -1) && Usual(Tag, -1)
    ensures Usual(Tag, 0) && Usual(Lpar, 0) && Usual(IfClause, 0) && Usual(IfHead, 0) && Usual(ElseHead, 0)
    ensures Usual(IfLike, 0) && Usual(FnDecl, 0)
  {
  }

  lemma QuietlyUsual(cat: Category, d: int, p1: Category, p2: Category)
    requires Usual(cat, d) || (cat.ElseLike? && d == 0 && !(p1.Stmt? && p2.DoLike?))
    ensures Quietly(cat, d, p1, p2)
  {
  }

  /** One category becomes another from which the same is read. */
  lemma KeepsAlone(s: Stack, p1: Category, p2: Category, p3: Category, q: seq<Category>, p: Production,
                   cat: Category, d: int)
    requires Local(s, p1, p2, p3, q) && Makes(p, 1, cat, d) && Usual(cat, d) && Read(s, cat) == Read(s, q[0])
    ensures Keeps(s, p1, p2, p3, q, p)
  {
    hide Read, Reads, Fits, Quiet, Keeps, Quietly, Usual;
    LocalFacts(s, p1, p2, p3, q);
    UsualQuietly(cat, d, p1, p2);
    ReadsMore(s, q);
    ReadsPush(s, cat, q[1..]);
    KeepsFrom(s, p1, p2, p3, q, p);
  }

  /** Two categories become one from which the same is read. */
  lemma KeepsTwo(s: Stack, p1: Category, p2: Category, p3: Category, q: seq<Category>, p: Production,
                 cat: Category, d: int)
    requires Local(s, p1, p2, p3, q) && |q| >= 2 && Makes(p, 2, cat, d) && Usual(cat, d) && Read(s, q[0]).Some?
    requires Read(s, cat) == Read(Read(s, q[0]).value, q[1])
    ensures Keeps(s, p1, p2, p3, q, p)
  {
    hide Read, Reads, Fits, Quiet, Keeps, Quietly, Usual;
    LocalFacts(s, p1, p2, p3, q);
    UsualQuietly(cat, d, p1, p2);
    ReadsMore(s, q);
    ReadsPush(s, cat, q[2..]);
    KeepsFrom(s, p1, p2, p3, q, p);
  }

  /** Three categories become one from which the same is read. */
  lemma KeepsThree(s: Stack, p1: Category, p2: Category, p3: Category, q: seq<Category>, p: Production,
                   cat: Category, d: int)
    requires Local(s, p1, p2, p3, q) && |q| >= 3 && Makes(p, 3, cat, d)
    requires Usual(cat, d) || Quietly(cat, d, p1, p2)
    requires Read(s, q[0]).Some? && Read(Read(s, q[0]).value, q[1]).Some?
    requires Read(s, cat) == Read(Read(Read(s, q[0]).value, q[1]).value, q[2])
    ensures Keeps(s, p1, p2, p3, q, p)
  {
    hide Read, Reads, Fits, Quiet, Keeps, Quietly, Usual;
    LocalFacts(s, p1, p2, p3, q);
    UsualQuietly(cat, d, p1, p2);
    ReadsMore(s, q);
    ReadsPush(s, cat, q[3..]);
    KeepsFrom(s, p1, p2, p3, q, p);
  }

  /** Four categories become one from which the same is read. */
  lemma KeepsFour(s: Stack, p1: Category, p2: Category, p3: Category, q: seq<Category>, p: Production,
                  cat: Category, d: int)
    requires Local(s, p1, p2, p3, q) && |q| >= 4 && Makes(p, 4, cat, d) && Quietly(cat, d, p1, p2)
    requires Read(s, q[0]).Some? && Read(Read(s, q[0]).value, q[1]).Some?
    requires var r2 := Read(Read(s, q[0]).value, q[1]).value;
             Read(r2, q[2]).Some? && Read(s, cat) == Read(Read(r2, q[2]).value, q[3])
    ensures Keeps(s, p1, p2, p3, q, p)
  {
    hide Read, Reads, Fits, Quiet, Keeps, Quietly, Usual;
    LocalFacts(s, p1, p2, p3, q);
    Fourth(s, p1, p2, p3, q);
    ReadsMore(s, q);
    var r3 := Read(Read(Read(s, q[0]).value, q[1]).value, q[2]).value;
    ReadsNext(r3, q[3..]);
    assert q[3..][1..] == q[4..];
    ReadsPush(s, cat, q[4..]);
    KeepsFrom(s, p1, p2, p3, q, p);
  }

  /** One category becomes another, from which the next one is read to the same. */
  lemma KeepsLook(s: Stack, p1: Category, p2: Category, p3: Category, q: seq<Category>, p: Production,
                  cat: Category, d: int)
    requires Local(s, p1, p2, p3, q) && |q| >= 2 && Makes(p, 1, cat, d) && Quietly(cat, d, p1, p2)
    requires Read(s, cat).Some? && Read(s, q[0]).Some?
    requires Read(Read(s, cat).value, q[1]) == Read(Read(s, q[0]).value, q[1])
    ensures Keeps(s, p1, p2, p3, q, p)
  {
    hide Read, Reads, Fits, Quiet, Keeps, Quietly;
    LocalFacts(s, p1, p2, p3, q);
    ReadsMore(s, q);
    assert q[1..] == [q[1]] + q[2..];
    ReadsPush(Read(s, cat).value, q[1], q[2..]);
    ReadsPush(s, cat, q[1..]);
    KeepsFrom(s, p1, p2, p3, q, p);
  }
}
