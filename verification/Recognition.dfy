/** Every text of the grammar is recognized by the machine. */
module Recognition {
  import opened Grammar
  import opened Productions
  import opened Wrappers

  lemma {:induction false} ReadAllTwo(s: Stack, a: seq<Category>, b: seq<Category>)
    requires ReadAll(s, a).Some?
    ensures ReadAll(s, a + b) == ReadAll(ReadAll(s, a).value, b)
    decreases |a|
  {
    if a == [] {
      assert a + b == b;
    } else {
      assert (a + b)[1..] == a[1..] + b;
      ReadAllTwo(Read(s, a[0]).value, a[1..], b);
    }
  }

  lemma ReadAllOne(s: Stack, c: Category)
    ensures ReadAll(s, [c]) == Read(s, c)
  {
    assert [c][1..] == [];
  }

  /** A category and then others. */
  lemma ReadAllPush(s: Stack, c: Category, b: seq<Category>)
    requires Read(s, c).Some?
    ensures ReadAll(s, [c] + b) == ReadAll(Read(s, c).value, b)
  {
    assert ([c] + b)[1..] == b;
  }

  /** Some categories, one more, and then others. */
  lemma ReadAllMid(s: Stack, a: seq<Category>, c: Category, b: seq<Category>)
    requires ReadAll(s, a).Some? && Read(ReadAll(s, a).value, c).Some?
    ensures ReadAll(s, a + [c]) == Read(ReadAll(s, a).value, c)
    ensures ReadAll(s, a + [c] + b) == ReadAll(Read(ReadAll(s, a).value, c).value, b)
  {
    ReadAllTwo(s, a, [c]);
    ReadAllOne(ReadAll(s, a).value, c);
    ReadAllTwo(s, a + [c], b);
  }

  // ---- Types and names ------------------------------------------------------------

  /** A type may begin here; `next` is expected behind the declaration. */
  predicate TypeBegins(s: Stack, at: Where, next: Stack) {
    forall c: Category :: TypeWord(c) ==> Read(s, c) == Some(Push(Typed(at), next))
  }

  lemma TypedBegins(at: Where, next: Stack)
    ensures TypeBegins(Push(Typed(at), next), at, next)
  {
  }

  lemma TypeStep(s: Stack, at: Where, next: Stack, c: Category)
    requires TypeBegins(s, at, next) && TypeWord(c)
    ensures Read(s, c) == Some(Push(Typed(at), next))
  {
  }

  lemma {:induction false} ReadTypes(types: seq<Category>, s: Stack, at: Where, next: Stack)
    requires Words(types) && TypeBegins(s, at, next)
    ensures ReadAll(s, types) == Some(Push(Typed(at), next))
    decreases |types|
  {
    hide Read, TypeBegins, ReadAll;
    TypeStep(s, at, next, types[0]);
    assert types == [types[0]] + types[1..];
    ReadAllPush(s, types[0], types[1..]);
    if |types| == 1 {
      AllNone(Push(Typed(at), next), types[1..]);
    } else {
      TypedBegins(at, next);
      ReadTypes(types[1..], Push(Typed(at), next), at, next);
    }
  }

  lemma AllNone(s: Stack, cats: seq<Category>)
    requires cats == []
    ensures ReadAll(s, cats) == Some(s)
  {
  }

  /** What comes behind a type with stars. */
  function Starred(at: Where, stars: seq<Category>): Symbol {
    if stars == [] then Typed(at) else Declaring(at)
  }

  lemma StarStep(at: Where, next: Stack, c: Category)
    requires Star(c)
    ensures Read(Push(Typed(at), next), c) == Some(Push(Declaring(at), next)) == Read(Push(Declaring(at), next), c)
  {
  }

  lemma {:induction false} ReadStars(stars: seq<Category>, at: Where, next: Stack)
    requires Stars(stars)
    ensures ReadAll(Push(Typed(at), next), stars) == Some(Push(Starred(at, stars), next))
    ensures ReadAll(Push(Declaring(at), next), stars) == Some(Push(Declaring(at), next))
    decreases |stars|
  {
    hide Read;
    if stars != [] {
      StarStep(at, next, stars[0]);
      ReadStars(stars[1..], at, next);
    }
  }

  lemma ReadTyping(types: seq<Category>, stars: seq<Category>, s: Stack, at: Where, next: Stack)
    requires Words(types) && Stars(stars) && TypeBegins(s, at, next)
    ensures ReadAll(s, types + stars) == Some(Push(Starred(at, stars), next))
  {
    hide Read, TypeBegins, ReadAll;
    ReadTypes(types, s, at, next);
    ReadStars(stars, at, next);
    ReadAllTwo(s, types, stars);
  }

  lemma InsideTakes(kind: Kind, v: Stack)
    ensures var r := Push(Inside(kind), v);
      && Read(r, Semi) == Some(r) && Read(r, Rpar) == Closed(v) == Read(r, RawRpar)
      && (!kind.Condition? ==> TypeBegins(r, Between(kind), v))
  {
  }

  /** Within parentheses, a declaration may end, or another one may follow. */
  lemma BetweenTakes(kind: Kind, stars: seq<Category>, v: Stack, c: Category)
    requires Close(c)
    ensures Read(Push(Starred(Between(kind), stars), v), c) == Casted(kind, v)
    ensures Read(Push(Declaring(Between(kind)), v), c) == Casted(kind, v)
    ensures Read(Push(Starred(Between(kind), stars), v), Comma) == Some(Push(Inside(kind), v))
    ensures Read(Push(Declaring(Between(kind)), v), Comma) == Some(Push(Inside(kind), v))
  {
  }

  /** A type alone in parentheses. */
  lemma ReadType(types: seq<Category>, stars: seq<Category>, c: Category, kind: Kind, v: Stack)
    requires Words(types) && Stars(stars) && Close(c) && !kind.Condition? && Casted(kind, v).Some?
    ensures ReadAll(Push(Inside(kind), v), types + stars + [c]) == Casted(kind, v)
  {
    hide Read, TypeBegins, ReadAll, Casted;
    InsideTakes(kind, v);
    ReadTyping(types, stars, Push(Inside(kind), v), Between(kind), v);
    BetweenTakes(kind, stars, v, c);
    ReadAllMid(Push(Inside(kind), v), types + stars, c, []);
  }

  // ---- Expressions ----------------------------------------------------------------

  /** An expression may begin here; `u` is expected behind it.  Behind sizeof, parentheses may be those
      of a type. */
  predicate Begins(s: Stack, u: Stack, kind: Kind) {
    && s.Push? && !kind.Condition?
    && Read(s, Exp) == Some(Push(After, u))
    && Read(s, Lpar) == Some(Push(Inside(kind), Push(After, u)))
    && Read(s, SizeofLike) == Some(Push(Sized, u))
    && forall c: Category :: Prefix(c) && !c.SizeofLike? ==> Read(s, c) == Some(Push(Operand, u))
  }

  lemma OperandBegins(u: Stack)
    ensures Begins(Push(Operand, u), u, Operands)
  {
  }

  lemma SizedBegins(u: Stack)
    ensures Begins(Push(Sized, u), u, Arguments)
  {
  }

  lemma InsideBegins(u: Stack)
    requires u.Push? && u.top.Inside?
    ensures Begins(u, u, Operands)
  {
  }

  lemma AfterTakes(u: Stack, c: Category)
    ensures var r := Read(Push(After, u), c);
      && (Infix(c) ==> r == Some(Push(Operand, u)))
      && (c.Comma? && u.Push? && u.top.Inside? ==> r == Some(u))
      && (c.Comma? && !(u.Push? && (u.top.Inside? || u.top.Init?)) ==> r == Some(Push(Operand, u)))
      && (c.Unop? ==> r == Some(Push(After, u)))
      && (c.Question? ==> r == Some(Push(Operand, Push(ChoiceColon, u))))
      && (c.Lpar? ==> r == Some(Push(Inside(Arguments), Push(After, u))))
    ensures Read(Push(After, Push(ChoiceColon, u)), Colon) == Some(Push(Operand, u))
    ensures u.Push? && u.top.Inside? ==>
              Read(Push(After, u), Semi) == Some(u) && (Close(c) ==> Read(Push(After, u), c) == Closed(u.rest))
  {
  }

  /** A comma here would end an initial value. */
  predicate Initial(u: Stack) {
    u.Push? && u.top.Init?
  }

  lemma {:induction false} ReadExpr(e: Expr, s: Stack, u: Stack, kind: Kind)
    requires ExprOk(e) && Begins(s, u, kind) && (kind.Arguments? ==> !BeginsConverted(e)) && (Initial(u) ==> NoComma(e))
    ensures ReadAll(s, ExprYield(e)) == Some(Push(After, u))
    decreases e, 1
  {
    hide Read, Begins, ReadAll, Initial;
    BeginsFacts(s, u, kind);
    match e
    case Atom => ReadAllOne(s, Exp);
    case Two(l, op, r) =>
      ReadExpr(l, s, u, kind);
      AfterTakes(u, op);
      ReadAllMid(s, ExprYield(l), op, ExprYield(r));
      OperandBegins(u);
      ReadExpr(r, Push(Operand, u), u, Operands);
    case Listed(l, r) => ReadListed(l, r, s, u, kind);
    case Before(op, x) =>
      BeginsPrefix(s, u, kind, op);
      ReadAllPush(s, op, ExprYield(x));
      OperandBegins(u);
      if op.SizeofLike? {
        SizedBegins(u);
        ReadExpr(x, Push(Sized, u), u, Arguments);
      } else {
        ReadExpr(x, Push(Operand, u), u, Operands);
      }
    case Behind(x) =>
      ReadExpr(x, s, u, kind);
      AfterTakes(u, Unop);
      ReadAllMid(s, ExprYield(x), Unop, []);
    case Choice(t, y, n) => ReadChoice(t, y, n, s, u, kind);
    case Group(i, c) => ReadHeader(i, false, c, s, kind, Push(After, u), []);
    case Applied(f, i, c) =>
      ReadExpr(f, s, u, kind);
      ReadAllTwo(s, ExprYield(f), Header(i, c));
      AfterTakes(u, Lpar);
      ReadHeader(i, false, c, Push(After, u), Arguments, Push(After, u), []);
    case Converted(types, stars, c, x) => ReadConverted(e, s, u);
    case SizeOf(types, stars, c) =>
      ReadSizeOf(types, stars, c, s, u);
  }

  lemma BeginsFacts(s: Stack, u: Stack, kind: Kind)
    requires Begins(s, u, kind)
    ensures !kind.Condition? && Read(s, Exp) == Some(Push(After, u))
    ensures Read(s, Lpar) == Some(Push(Inside(kind), Push(After, u))) && Read(s, SizeofLike) == Some(Push(Sized, u))
  {
  }

  lemma BeginsPrefix(s: Stack, u: Stack, kind: Kind, c: Category)
    requires Begins(s, u, kind) && Prefix(c)
    ensures Read(s, c) == Some(Push(if c.SizeofLike? then Sized else Operand, u))
  {
  }

  lemma {:induction false} ReadListed(l: Expr, r: Expr, s: Stack, u: Stack, kind: Kind)
    requires ExprOk(l) && ExprOk(r) && Begins(s, u, kind) && (kind.Arguments? ==> !BeginsConverted(l)) && !Initial(u)
    ensures ReadAll(s, ExprYield(l) + [Comma] + ExprYield(r)) == Some(Push(After, u))
    decreases Listed(l, r), 0
  {
    hide Read, Begins, ReadAll;
    ReadExpr(l, s, u, kind);
    AfterTakes(u, Comma);
    ReadAllMid(s, ExprYield(l), Comma, ExprYield(r));
    if u.Push? && u.top.Inside? {
      InsideBegins(u);
      ReadExpr(r, u, u, Operands);
    } else {
      OperandBegins(u);
      ReadExpr(r, Push(Operand, u), u, Operands);
    }
  }

  lemma {:induction false} ReadChoice(t: Expr, y: Expr, n: Expr, s: Stack, u: Stack, kind: Kind)
    requires ExprOk(t) && ExprOk(y) && ExprOk(n) && Begins(s, u, kind) && (kind.Arguments? ==> !BeginsConverted(t))
    requires Initial(u) ==> NoComma(t) && NoComma(n)
    ensures ReadAll(s, ExprYield(t) + [Question] + ExprYield(y) + [Colon] + ExprYield(n)) == Some(Push(After, u))
    decreases Choice(t, y, n), 0
  {
    hide Read, Begins, ReadAll;
    var v := Push(ChoiceColon, u);
    ReadExpr(t, s, u, kind);
    AfterTakes(u, Question);
    ReadAllMid(s, ExprYield(t), Question, ExprYield(y));
    OperandBegins(v);
    ReadExpr(y, Push(Operand, v), v, Operands);
    ReadAllMid(s, ExprYield(t) + [Question] + ExprYield(y), Colon, ExprYield(n));
    OperandBegins(u);
    ReadExpr(n, Push(Operand, u), u, Operands);
  }

  lemma {:induction false} ReadConverted(e: Expr, s: Stack, u: Stack)
    requires ExprOk(e) && e.Converted? && (Initial(u) ==> NoComma(e))
    requires Read(s, Lpar) == Some(Push(Inside(Operands), Push(After, u)))
    ensures ReadAll(s, ExprYield(e)) == Some(Push(After, u))
    decreases e, 0
  {
    hide Read, ReadAll;
    var t := e.types + e.stars + [e.close];
    ReadType(e.types, e.stars, e.close, Operands, Push(After, u));
    ReadAllPush(s, Lpar, t);
    OperandBegins(u);
    ReadExpr(e.operand, Push(Operand, u), u, Operands);
    ReadAllTwo(s, [Lpar] + t, ExprYield(e.operand));
    assert ExprYield(e) == [Lpar] + t + ExprYield(e.operand);
  }

  lemma ReadSizeOf(types: seq<Category>, stars: seq<Category>, c: Category, s: Stack, u: Stack)
    requires Words(types) && Stars(stars) && Close(c) && Read(s, SizeofLike) == Some(Push(Sized, u))
    ensures ReadAll(s, [SizeofLike, Lpar] + types + stars + [c]) == Some(Push(After, u))
  {
    hide Read, ReadAll;
    var t := types + stars + [c];
    ReadType(types, stars, c, Arguments, Push(After, u));
    SizedTakes(u);
    ReadAllPush(Push(Sized, u), Lpar, t);
    ReadAllPush(s, SizeofLike, [Lpar] + t);
    assert [SizeofLike, Lpar] + types + stars + [c] == [SizeofLike] + ([Lpar] + t);
  }

  lemma SizedTakes(u: Stack)
    ensures Read(Push(Sized, u), Lpar) == Some(Push(Inside(Arguments), Push(After, u)))
  {
  }

  lemma {:induction false} ReadInner(i: Inner, listed: bool, close: Category, kind: Kind, v: Stack)
    requires InnerOk(i, listed) && Close(close) && (listed ==> kind.Arguments?) && Closed(v).Some?
    ensures ReadAll(Push(Inside(kind), v), InnerYield(i) + [close]) == Some(v)
    decreases i, 1
  {
    hide Read, Begins, ReadAll;
    var r := Push(Inside(kind), v);
    InsideBegins(r);
    InsideTakes(kind, v);
    match i
    case Nothing =>
      ReadAllOne(r, close);
      assert [] + [close] == [close];
    case Only(e) =>
      ReadExpr(e, r, r, Operands);
      AfterTakes(r, close);
      ReadAllMid(r, ExprYield(e), close, []);
    case Then(e, comma, rest) =>
      var c := if comma then Comma else Semi;
      ReadExpr(e, r, r, Operands);
      AfterTakes(r, c);
      ReadAllMid(r, ExprYield(e), c, InnerYield(rest) + [close]);
      ReadInner(rest, listed, close, kind, v);
      assert ExprYield(e) + [c] + InnerYield(rest) + [close] == ExprYield(e) + [c] + (InnerYield(rest) + [close]);
    case Skip(rest) =>
      ReadAllPush(r, Semi, InnerYield(rest) + [close]);
      ReadInner(rest, listed, close, kind, v);
      assert [Semi] + InnerYield(rest) + [close] == [Semi] + (InnerYield(rest) + [close]);
    case Parameter(_, _, _, _) => ReadParameter(i, close, v);
  }

  lemma {:induction false} ReadParameter(i: Inner, close: Category, v: Stack)
    requires InnerOk(i, true) && Close(close) && i.Parameter? && Closed(v).Some?
    ensures ReadAll(Push(Inside(Arguments), v), InnerYield(i) + [close]) == Some(v)
    decreases i, 0
  {
    hide Read, ReadAll, TypeBegins;
    var r, at := Push(Inside(Arguments), v), Between(Arguments);
    var front := i.types + i.stars + NameYield(i.name);
    InsideTakes(Arguments, v);
    ReadTyping(i.types, i.stars, r, at, v);
    ReadName(i.name, i.stars, at, v);
    ReadAllTwo(r, i.types + i.stars, NameYield(i.name));
    BetweenTakes(Arguments, if i.name.NoName? then i.stars else [Unorbinop], v, close);
    if i.more.Nothing? {
      ReadAllMid(r, front, close, []);
      assert InnerYield(i) + [close] == front + [close];
    } else {
      ReadInner(i.more, true, close, Arguments, v);
      ReadAllMid(r, front, Comma, InnerYield(i.more) + [close]);
      assert InnerYield(i) + [close] == front + [Comma] + (InnerYield(i.more) + [close]);
    }
  }

  /** What comes behind a type, stars and a name. */
  function Called(n: Name, stars: seq<Category>, at: Where): Symbol {
    if n.NoName? then Starred(at, stars) else if n.Plain? && stars == [] && at.Outer? then Named else Declaring(at)
  }

  lemma NameTakes(stars: seq<Category>, at: Where, next: Stack)
    ensures Read(Push(Starred(at, stars), next), Exp) == Some(Push(Called(Plain, stars, at), next))
    ensures Read(Push(Called(Plain, stars, at), next), Lpar)
         == Some(Push(Inside(Arguments), Push(Declaring(at), next))) == Read(Push(Declaring(at), next), Lpar)
  {
  }

  lemma {:induction false} ReadName(n: Name, stars: seq<Category>, at: Where, next: Stack)
    requires NameOk(n)
    ensures ReadAll(Push(Starred(at, stars), next), NameYield(n)) == Some(Push(Called(n, stars, at), next))
    decreases n, 0
  {
    hide Read, ReadAll;
    var s := Push(Starred(at, stars), next);
    match n
    case NoName => AllNone(s, []);
    case Plain =>
      NameTakes(stars, at, next);
      ReadAllOne(s, Exp);
    case With(name, i, c) =>
      ReadName(name, stars, at, next);
      NameTakes(stars, at, next);
      var t := Push(Called(name, stars, at), next);
      ReadAllTwo(s, NameYield(name), Header(i, c));
      ReadHeader(i, true, c, t, Arguments, Push(Declaring(at), next), []);
  }

  /** Parentheses and what stands in them. */
  lemma {:induction false} ReadHeader(i: Inner, listed: bool, close: Category, s: Stack, kind: Kind, v: Stack,
                                      b: seq<Category>)
    requires InnerOk(i, listed) && Close(close) && (listed ==> kind.Arguments?) && Closed(v).Some?
    requires Read(s, Lpar) == Some(Push(Inside(kind), v))
    ensures ReadAll(s, Header(i, close)) == Some(v)
    ensures ReadAll(s, Header(i, close) + b) == ReadAll(v, b)
    decreases i, 2
  {
    hide Read, ReadAll;
    ReadInner(i, listed, close, kind, v);
    ReadAllPush(s, Lpar, InnerYield(i) + [close]);
    assert Header(i, close) == [Lpar] + (InnerYield(i) + [close]);
    ReadAllTwo(s, Header(i, close), b);
  }

  // ---- Declarations ---------------------------------------------------------------

  /** What a declarator is followed by: its end, or another one. */
  lemma DeclaringTakes(at: Where, next: Stack)
    requires !at.Between?
    ensures var d := Push(Declaring(at), next);
      && Read(d, Comma) == Some(d) && Read(d, Semi) == Some(next)
      && Read(d, Binop) == Some(Push(Operand, Push(Init(at), next)))
    ensures Read(Push(Typed(at), next), Semi) == Some(next)
  {
  }

  lemma NamedTakes(next: Stack)
    ensures Read(Push(Named, next), Comma) == Some(Push(Declaring(Outer), next))
    ensures Read(Push(Named, next), Semi) == Some(next)
    ensures Read(Push(Named, next), Binop) == Some(Push(Operand, Push(Init(Outer), next)))
  {
  }

  lemma InitTakes(at: Where, next: Stack)
    ensures Read(Push(After, Push(Init(at), next)), Comma) == Some(Push(Declaring(at), next))
    ensures Read(Push(After, Push(Init(at), next)), Semi) == Some(next)
  {
  }

  /** A declarator, the first behind its type or a later one, and what ends it. */
  lemma ReadDeclarator(v: Declarator, first: bool, at: Where, next: Stack)
    requires DeclaratorOk(v) && !at.Between?
    ensures var s := Push(if first then Typed(at) else Declaring(at), next);
      && ReadAll(s, DeclaratorYield(v) + [Comma]) == Some(Push(Declaring(at), next))
      && ReadAll(s, DeclaratorYield(v) + [Semi]) == Some(next)
  {
    hide Read, ReadAll, ExprOk, NoComma;
    var s := Push(if first then Typed(at) else Declaring(at), next);
    var front := v.stars + NameYield(v.name);
    var stars := if first then v.stars else [Unorbinop];
    ReadStars(v.stars, at, next);
    ReadName(v.name, stars, at, next);
    ReadAllTwo(s, v.stars, NameYield(v.name));
    DeclaringTakes(at, next);
    NamedTakes(next);
    var t := Push(Called(v.name, stars, at), next);
    if v.init.None? {
      assert DeclaratorYield(v) == front;
      ReadAllMid(s, front, Comma, []);
      ReadAllMid(s, front, Semi, []);
    } else {
      var u := Push(Init(at), next);
      ReadAllMid(s, front, Binop, ExprYield(v.init.value));
      OperandBegins(u);
      ReadExpr(v.init.value, Push(Operand, u), u, Operands);
      assert DeclaratorYield(v) == front + [Binop] + ExprYield(v.init.value);
      InitTakes(at, next);
      ReadAllMid(s, DeclaratorYield(v), Comma, []);
      ReadAllMid(s, DeclaratorYield(v), Semi, []);
    }
  }

  lemma {:induction false} ReadDeclarators(vs: seq<Declarator>, first: bool, at: Where, next: Stack)
    requires (forall i :: 0 <= i < |vs| ==> DeclaratorOk(vs[i])) && !at.Between?
    ensures ReadAll(Push(if first then Typed(at) else Declaring(at), next), DeclaratorsYield(vs)) == Some(next)
    decreases |vs|
  {
    hide Read, ReadAll, DeclaratorOk;
    var s := Push(if first then Typed(at) else Declaring(at), next);
    DeclaringTakes(at, next);
    if vs == [] {
      ReadAllOne(s, Semi);
    } else {
      ReadDeclarator(vs[0], first, at, next);
      if |vs| > 1 {
        ReadDeclarators(vs[1..], false, at, next);
        ReadAllTwo(s, DeclaratorYield(vs[0]) + [Comma], DeclaratorsYield(vs[1..]));
        assert DeclaratorsYield(vs) == DeclaratorYield(vs[0]) + [Comma] + DeclaratorsYield(vs[1..]);
      }
    }
  }

  lemma ReadDeclared(d: Declaration, s: Stack, at: Where, next: Stack)
    requires DeclarationOk(d) && !at.Between? && TypeBegins(s, at, next)
    ensures ReadAll(s, DeclarationYield(d)) == Some(next)
  {
    hide Read, ReadAll, TypeBegins, DeclaratorOk;
    ReadTypes(d.types, s, at, next);
    ReadDeclarators(d.declarators, true, at, next);
    ReadAllTwo(s, d.types, DeclaratorsYield(d.declarators));
  }

  /** The first word of the first declaration of parameters, right behind the name of the function. */
  lemma ReadFirstParameter(d: Declaration, s: Stack, next: Stack)
    requires DeclarationOk(d) && !d.types[0].ConstLike?
    requires forall c: Category :: c.RawInt? || c.IntLike? ==> Read(s, c) == Some(Push(Typed(Within), next))
    ensures ReadAll(s, DeclarationYield(d)) == Some(next)
  {
    hide Read, ReadAll, TypeBegins, DeclaratorOk;
    var c := d.types[0];
    assert TypeWord(c);
    var later := d.types[1..] + DeclaratorsYield(d.declarators);
    assert DeclarationYield(d) == [c] + later;
    ReadAllPush(s, c, later);
    var t := Push(Typed(Within), next);
    TypedBegins(Within, next);
    if |d.types| == 1 {
      assert later == DeclaratorsYield(d.declarators);
    } else {
      ReadTypes(d.types[1..], t, Within, next);
      ReadAllTwo(t, d.types[1..], DeclaratorsYield(d.declarators));
    }
    ReadDeclarators(d.declarators, true, Within, next);
  }

  // ---- Statements -----------------------------------------------------------------

  /** Conditionals that may still get an else. */
  function Pending(n: nat, u: Stack): Stack {
    if n == 0 then u else Push(MayElse, Pending(n - 1, u))
  }

  function Open(s: Statement): nat {
    match s
    case If(_, _, y) => Open(y) + 1
    case IfElse(_, _, y, n) => Open(y) + Open(n)
    case Loop(_, _, b) => Open(b)
    case Case(_, l) => Open(l)
    case Default(l) => Open(l)
    case Label(_, l) => Open(l)
    case _ => 0
  }

  function OpenItem(x: Item): nat {
    if x.Stated? then Open(x.s) else 0
  }

  lemma {:induction false} PendingReads(n: nat, u: Stack, c: Category)
    ensures !c.ElseLike? && !c.Insert? ==> Read(Pending(n, u), c) == Read(u, c)
    ensures n > 0 ==> Read(Pending(n, u), ElseLike) == Some(Push(St(Else), Pending(n - 1, u)))
  {
    if n > 0 {
      PendingReads(n - 1, u, c);
    }
  }

  lemma {:induction false} PendingTwo(m: nat, n: nat, u: Stack)
    ensures Pending(m, Pending(n, u)) == Pending(m + n, u)
  {
    if m > 0 {
      PendingTwo(m - 1, n, u);
    }
  }

  lemma PendingAll(n: nat, u: Stack, b: seq<Category>)
    requires b != [] && !b[0].ElseLike? && !b[0].Insert?
    ensures ReadAll(Pending(n, u), b) == ReadAll(u, b)
  {
    PendingReads(n, u, b[0]);
  }

  lemma {:induction false} ExprFirst(e: Expr)
    requires ExprOk(e)
    ensures ExprYield(e) != [] && (ExprYield(e)[0].Exp? || Prefix(ExprYield(e)[0]) || ExprYield(e)[0].Lpar?)
  {
    match e
    case Two(l, _, _) => ExprFirst(l);
    case Listed(l, _) => ExprFirst(l);
    case Behind(x) => ExprFirst(x);
    case Choice(t, _, _) => ExprFirst(t);
    case Applied(f, _, _) => ExprFirst(f);
    case _ =>
  }

  /** No item begins with an else. */
  predicate NoElse(b: seq<Category>) {
    b != [] && !b[0].ElseLike? && !b[0].Insert?
  }

  lemma StatementFirst(s: Statement)
    requires StatementOk(s)
    ensures NoElse(Yield(s))
  {
    match s
    case Simple(e) => ExprFirst(e);
    case Label(e, _) => ExprFirst(e);
    case _ =>
  }

  lemma {:induction false} NameFirst(n: Name)
    ensures !n.NoName? && (n.With? ==> NameOk(n)) ==> NoElse(NameYield(n))
  {
    if n.With? && NameOk(n) {
      NameFirst(n.name);
    }
  }

  lemma ItemFirst(x: Item, unit: bool)
    requires ItemOk(x, unit)
    ensures NoElse(ItemYield(x))
  {
    hide StatementOk, NameOk, ListOk, DeclaratorOk, Yield, NameYield;
    match x
    case Stated(s) => StatementFirst(s);
    case Declared(d) => assert TypeWord(d.types[0]);
    case Defined(types, stars, name, _, _) =>
      NameFirst(name);
      if types != [] {
        assert TypeWord(types[0]);
      }
  }

  lemma StBegins(p: Place, rest: Stack)
    requires !p.Head? && !p.ElseBlock?
    ensures Begins(Push(St(p), rest), Push(EndOrLabel(Unit(p)), Continue(p, rest, Stmt)), Operands)
  {
    hide Read, Continue;
    var u := Push(EndOrLabel(Unit(p)), Continue(p, rest, Stmt));
    forall c: Category | c.Exp? || c.Lpar? || Prefix(c)
      ensures Read(Push(St(p), rest), c) == ReadOperand(c, u)
    {
      StOperand(p, rest, c);
    }
  }

  lemma StOperand(p: Place, rest: Stack, c: Category)
    requires !p.Head? && !p.ElseBlock? && (c.Exp? || c.Lpar? || Prefix(c))
    ensures Read(Push(St(p), rest), c) == ReadOperand(c, Push(EndOrLabel(Unit(p)), Continue(p, rest, Stmt)))
  {
    hide Continue, ReadOperand;
  }

  /** Categories with which statements begin. */
  predicate Heads(c: Category) {
    || c.Semi? || c.Stmt? || c.Lbrace? || c.IfLike? || c.IfClause? || c.IfHead? || c.ForLike? || c.ElseLike?
    || c.ElseHead? || c.DoLike? || c.CaseLike? || c.Tag? || c.SectionScrap?
  }

  lemma StAt(p: Place, rest: Stack, c: Category)
    requires Heads(c)
    ensures Read(Push(St(p), rest), c) == ReadStatement(p, c, rest, Continue(p, rest, Stmt))
  {
    hide Continue, ReadStatement;
  }

  lemma StTakes(p: Place, rest: Stack)
    requires !p.Head? && !p.ElseBlock?
    ensures var s := Push(St(p), rest); var next := Continue(p, rest, Stmt);
      && Read(s, Semi) == Some(next) && Read(s, Lbrace) == Some(Push(St(First), next))
      && Read(s, IfLike) == Some(Push(Test, Push(St(Clause), Push(MayElse, next))))
      && Read(s, ForLike) == Some(Push(Test, Push(St(Else), next)))
      && Read(s, DoLike) == Some(Push(St(Do), Push(While, next)))
      && Read(s, CaseLike) == Some(Push(Keyword, next)) && Read(s, SectionScrap) == Some(Push(SectionEnd, next))
  {
    hide Read, Continue, ReadOperand;
    forall c: Category | Heads(c)
      ensures Read(Push(St(p), rest), c) == ReadStatement(p, c, rest, Continue(p, rest, Stmt))
    {
      StAt(p, rest, c);
    }
  }

  lemma LabContinue(next: Stack)
    ensures Continue(Lab, next, Stmt) == next
  {
  }

  lemma EndTakes(next: Stack)
    ensures Read(Push(Keyword, next), Semi) == Some(next)
    ensures Read(Push(Keyword, next), Colon) == Some(Push(St(Lab), next))
    ensures Read(Push(SectionEnd, next), Semi) == Some(next) == Read(Push(WhileEnd, next), Semi)
    ensures Read(Push(While, next), ForLike) == Some(Push(Test, Push(WhileEnd, next)))
    ensures Read(Push(St(First), next), Rbrace) == Some(next) == Read(Push(St(Next), next), Rbrace)
    ensures forall kind: Symbol :: kind.Test? ==> Read(Push(kind, next), Lpar) == Some(Push(Inside(Condition), next))
  {
  }

  lemma KeywordBegins(u: Stack)
    ensures Begins(Push(Keyword, u), Push(EndOrLabel(false), u), Operands)
  {
  }

  lemma EndOrLabelTakes(unit: bool, next: Stack)
    ensures var r := Push(After, Push(EndOrLabel(unit), next));
      Read(r, Semi) == Some(next) && Read(r, Colon) == Some(Push(St(Lab), next))
  {
  }

  /** An expression statement, or a label and what it labels. */
  lemma ReadEnded(e: Expr, s: Stack, unit: bool, next: Stack, b: seq<Category>)
    requires ExprOk(e) && Begins(s, Push(EndOrLabel(unit), next), Operands)
    ensures ReadAll(s, ExprYield(e) + [Semi]) == Some(next)
    ensures ReadAll(s, ExprYield(e) + [Colon] + b) == ReadAll(Push(St(Lab), next), b)
  {
    hide Read, Begins, ReadAll;
    ReadExpr(e, s, Push(EndOrLabel(unit), next), Operands);
    EndOrLabelTakes(unit, next);
    ReadAllMid(s, ExprYield(e), Semi, []);
    ReadAllMid(s, ExprYield(e), Colon, b);
  }

  /** A condition or loop header. */
  lemma ReadTest(i: Inner, close: Category, u: Stack, b: seq<Category>)
    requires InnerOk(i, false) && Close(close) && Closed(u).Some?
    ensures ReadAll(Push(Test, u), Header(i, close) + b) == ReadAll(u, b)
  {
    hide Read, ReadAll, Header;
    EndTakes(u);
    ReadHeader(i, false, close, Push(Test, u), Condition, u, b);
  }

  /** Every statement is recognized wherever a statement may stand. */
  lemma {:induction false} ReadStatements(t: Statement, p: Place, rest: Stack)
    requires StatementOk(t) && !p.Head? && !p.ElseBlock?
    ensures ReadAll(Push(St(p), rest), Yield(t)) == Some(Pending(Open(t), Continue(p, rest, Stmt)))
    decreases t, 0
  {
    hide Read, Begins, ReadAll, Header, InnerOk, ExprOk, ListOk, ReadOperand, Continue, ExprYield, ListYield;
    var s, next := Push(St(p), rest), Continue(p, rest, Stmt);
    StTakes(p, rest);
    StBegins(p, rest);
    match t
    case Simple(e) => ReadEnded(e, s, Unit(p), next, []);
    case Null => ReadAllOne(s, Semi);
    case Block(_) => ReadBraces(t, s, next);
    case If(_, _, _) => ReadIf(t.test, t.close, t.yes, s, next, []);
    case IfElse(_, _, _, _) => ReadIfElse(t, s, next);
    case Loop(_, _, _) => ReadLoop(t, s, next);
    case DoLoop(_, _, _) => ReadDo(t, s, next);
    case Jump | Return(_) | Case(_, _) | Default(_) => ReadKeyword(t, s, next);
    case Label(e, l) =>
      ReadEnded(e, s, Unit(p), next, Yield(l));
      ReadStatements(l, Lab, next);
      LabContinue(next);
    case Section => ReadSection(s, next);
  }

  lemma ReadSection(s: Stack, next: Stack)
    requires Read(s, SectionScrap) == Some(Push(SectionEnd, next))
    ensures ReadAll(s, [SectionScrap, Semi]) == Some(next)
  {
    hide Read, ReadAll;
    EndTakes(next);
    ReadAllPush(s, SectionScrap, [Semi]);
    ReadAllOne(Push(SectionEnd, next), Semi);
    assert [SectionScrap, Semi] == [SectionScrap] + [Semi];
  }

  lemma {:induction false} ReadLoop(t: Statement, s: Stack, next: Stack)
    requires StatementOk(t) && t.Loop? && Read(s, ForLike) == Some(Push(Test, Push(St(Else), next)))
    ensures ReadAll(s, Yield(t)) == Some(Pending(Open(t), next))
    decreases t, -1
  {
    hide Read, ReadAll, Header, InnerOk, ListOk;
    var later := Header(t.head, t.close) + Yield(t.body1);
    ReadAllPush(s, ForLike, later);
    ReadTest(t.head, t.close, Push(St(Else), next), Yield(t.body1));
    ReadStatements(t.body1, Else, next);
    assert Yield(t) == [ForLike] + later;
  }

  lemma {:induction false} ReadBraces(t: Statement, s: Stack, next: Stack)
    requires StatementOk(t) && t.Block? && Read(s, Lbrace) == Some(Push(St(First), next))
    ensures ReadAll(s, Yield(t)) == Some(next)
    decreases t, -1
  {
    hide Read, ReadAll, InnerOk, ListOk;
    var later := ListYield(t.body) + [Rbrace];
    ReadBlock(t.body, First, next, [Rbrace]);
    ReadAllPush(s, Lbrace, later);
    assert Yield(t) == [Lbrace] + later;
  }

  /** Jumps and labels that begin with a keyword. */
  lemma {:induction false} ReadKeyword(t: Statement, s: Stack, next: Stack)
    requires StatementOk(t) && (t.Jump? || t.Return? || t.Case? || t.Default?)
    requires Read(s, CaseLike) == Some(Push(Keyword, next))
    ensures ReadAll(s, Yield(t)) == Some(Pending(Open(t), next))
    decreases t, -1
  {
    hide Read, Begins, ReadAll;
    EndTakes(next);
    KeywordBegins(next);
    match t
    case Jump =>
      ReadAllPush(s, CaseLike, [Semi]);
      ReadAllOne(Push(Keyword, next), Semi);
      assert [CaseLike, Semi] == [CaseLike] + [Semi];
    case Return(e) =>
      ReadEnded(e, Push(Keyword, next), false, next, []);
      ReadAllPush(s, CaseLike, ExprYield(e) + [Semi]);
      assert [CaseLike] + ExprYield(e) + [Semi] == [CaseLike] + (ExprYield(e) + [Semi]);
    case Case(e, l) =>
      ReadEnded(e, Push(Keyword, next), false, next, Yield(l));
      ReadStatements(l, Lab, next);
      ReadAllPush(s, CaseLike, ExprYield(e) + [Colon] + Yield(l));
      assert [CaseLike] + ExprYield(e) + [Colon] + Yield(l) == [CaseLike] + (ExprYield(e) + [Colon] + Yield(l));
    case Default(l) =>
      ReadAllPush(s, CaseLike, [Colon] + Yield(l));
      ReadAllPush(Push(Keyword, next), Colon, Yield(l));
      ReadStatements(l, Lab, next);
      assert [CaseLike, Colon] + Yield(l) == [CaseLike] + ([Colon] + Yield(l));
  }

  lemma {:induction false} ReadIf(i: Inner, c: Category, y: Statement, s: Stack, next: Stack, b: seq<Category>)
    requires InnerOk(i, false) && Close(c) && StatementOk(y)
    requires Read(s, IfLike) == Some(Push(Test, Push(St(Clause), Push(MayElse, next))))
    ensures ReadAll(s, [IfLike] + Header(i, c) + Yield(y)) == Some(Pending(Open(y) + 1, next))
    ensures ReadAll(s, [IfLike] + Header(i, c) + Yield(y) + b) == ReadAll(Pending(Open(y) + 1, next), b)
    decreases y, 1
  {
    hide Read, ReadAll, Header, InnerOk, StatementOk, Yield;
    var u := Push(St(Clause), Push(MayElse, next));
    ReadAllPush(s, IfLike, Header(i, c) + Yield(y));
    ReadTest(i, c, u, Yield(y));
    ReadStatements(y, Clause, Push(MayElse, next));
    PendingTwo(Open(y), 1, next);
    assert Pending(1, next) == Push(MayElse, Pending(0, next));
    assert [IfLike] + Header(i, c) + Yield(y) == [IfLike] + (Header(i, c) + Yield(y));
    ReadAllTwo(s, [IfLike] + Header(i, c) + Yield(y), b);
  }

  lemma {:induction false} ReadIfElse(t: Statement, s: Stack, next: Stack)
    requires StatementOk(t) && t.IfElse?
    requires Read(s, IfLike) == Some(Push(Test, Push(St(Clause), Push(MayElse, next))))
    ensures ReadAll(s, Yield(t)) == Some(Pending(Open(t), next))
    decreases t, -1
  {
    hide Read, ReadAll, Header, StatementOk, InnerOk;
    var k := Open(t.yes);
    IfElseOk(t);
    ReadIf(t.test, t.close, t.yes, s, next, [ElseLike] + Yield(t.no));
    PendingReads(k + 1, next, ElseLike);
    ReadAllPush(Pending(k + 1, next), ElseLike, Yield(t.no));
    ReadStatements(t.no, Else, Pending(k, next));
    PendingTwo(Open(t.no), k, next);
    assert Yield(t) == [IfLike] + Header(t.test, t.close) + Yield(t.yes) + ([ElseLike] + Yield(t.no));
  }

  lemma IfElseOk(t: Statement)
    requires StatementOk(t) && t.IfElse?
    ensures InnerOk(t.test, false) && Close(t.close) && StatementOk(t.yes) && StatementOk(t.no)
  {
  }

  lemma {:induction false} ReadDo(t: Statement, s: Stack, next: Stack)
    requires StatementOk(t) && t.DoLoop? && Read(s, DoLike) == Some(Push(St(Do), Push(While, next)))
    ensures ReadAll(s, Yield(t)) == Some(next)
    decreases t, -1
  {
    hide Read, ReadAll, Header, InnerOk, ListOk;
    var w := Push(While, next);
    var front, tail := [DoLike] + Yield(t.body1), Header(t.test, t.close) + [Semi];
    ReadStatements(t.body1, Do, w);
    ReadAllPush(s, DoLike, Yield(t.body1));
    EndTakes(next);
    PendingReads(Open(t.body1), w, ForLike);
    ReadAllMid(s, front, ForLike, tail);
    ReadTest(t.test, t.close, Push(WhileEnd, next), [Semi]);
    ReadAllOne(Push(WhileEnd, next), Semi);
    assert Yield(t) == front + [ForLike] + tail;
  }

  // ---- Items and lists ------------------------------------------------------------

  lemma ItemBegins(p: Place, rest: Stack)
    requires Unit(p) || InBlock(p)
    ensures TypeBegins(Push(St(p), rest), if Unit(p) then Outer else Within, Continue(p, rest, Decl))
  {
  }

  lemma {:induction false} ReadOneItem(x: Item, p: Place, rest: Stack)
    requires ItemOk(x, Unit(p)) && (Unit(p) || InBlock(p))
    ensures ReadAll(Push(St(p), rest), ItemYield(x)) == Some(Pending(OpenItem(x), Continue(p, rest, ItemCategory(x))))
    decreases x, 1
  {
    hide Read, ReadAll, TypeBegins, DeclarationOk, NameOk, ListOk, StatementOk;
    match x
    case Stated(t) => ReadStatements(t, p, rest);
    case Declared(d) =>
      ItemBegins(p, rest);
      ReadDeclared(d, Push(St(p), rest), if Unit(p) then Outer else Within, Continue(p, rest, Decl));
    case Defined(_, _, _, _, _) => ReadFunction(x, p, rest);
  }

  /** What is expected behind the name of a function, with or without a type before it. */
  function AfterName(types: seq<Category>, rest: Stack): Stack {
    if types == [] then Push(After, Push(EndOrLabel(true), Push(St(Later(Stmt)), rest)))
    else Push(Declaring(Outer), Push(St(Later(Decl)), rest))
  }

  lemma AfterNameTakes(types: seq<Category>, rest: Stack, c: Category)
    ensures Read(AfterName(types, rest), Lbrace) == Some(Push(St(First), Push(St(Later(Function)), rest)))
    ensures c.RawInt? || c.IntLike? ==>
              Read(AfterName(types, rest), c) == Some(Push(Typed(Within), Push(Body, Push(St(Later(Function)), rest))))
  {
  }

  lemma BodyTakes(next: Stack)
    ensures Read(Push(Body, next), Lbrace) == Some(Push(St(First), next))
    ensures TypeBegins(Push(Body, next), Within, Push(Body, next))
  {
  }

  /** The head of a function. */
  lemma ReadHead(types: seq<Category>, stars: seq<Category>, n: Name, p: Place, rest: Stack)
    requires Unit(p) && (if types == [] then stars == [] else Words(types)) && Stars(stars) && n.With? && NameOk(n)
    ensures ReadAll(Push(St(p), rest), types + stars + NameYield(n)) == Some(AfterName(types, rest))
  {
    hide Read, ReadAll, TypeBegins, NameOk, NameYield;
    var s := Push(St(p), rest);
    if types == [] {
      StBegins(p, rest);
      ReadBare(n, s, Push(EndOrLabel(true), Push(St(Later(Stmt)), rest)));
      assert types + stars + NameYield(n) == NameYield(n);
    } else {
      var next := Push(St(Later(Decl)), rest);
      ItemBegins(p, rest);
      ReadTyping(types, stars, s, Outer, next);
      ReadName(n, stars, Outer, next);
      ReadAllTwo(s, types + stars, NameYield(n));
    }
  }

  lemma {:induction false} ReadBare(n: Name, s: Stack, u: Stack)
    requires NameOk(n) && !n.NoName? && Begins(s, u, Operands)
    ensures ReadAll(s, NameYield(n)) == Some(Push(After, u))
  {
    hide Read, ReadAll, Begins;
    BeginsFacts(s, u, Operands);
    if n.Plain? {
      ReadAllOne(s, Exp);
    } else {
      ReadBare(n.name, s, u);
      AfterTakes(u, Lpar);
      ReadAllTwo(s, NameYield(n.name), Header(n.inner, n.close));
      ReadHeader(n.inner, true, n.close, Push(After, u), Arguments, Push(After, u), []);
    }
  }

  lemma {:induction false} ReadParameters(ds: seq<Declaration>, next: Stack)
    requires forall i :: 0 <= i < |ds| ==> DeclarationOk(ds[i])
    ensures ReadAll(Push(Body, next), ParametersYield(ds)) == Some(Push(Body, next))
    decreases |ds|
  {
    hide Read, ReadAll, TypeBegins, DeclarationOk;
    var s := Push(Body, next);
    if ds == [] {
      AllNone(s, []);
    } else {
      BodyTakes(next);
      ReadDeclared(ds[0], s, Within, s);
      ReadParameters(ds[1..], next);
      ReadAllTwo(s, DeclarationYield(ds[0]), ParametersYield(ds[1..]));
    }
  }

  /** The declarations of the parameters and the brace behind them. */
  lemma ReadOpening(ds: seq<Declaration>, types: seq<Category>, rest: Stack)
    requires (forall i :: 0 <= i < |ds| ==> DeclarationOk(ds[i]))
    requires ds != [] ==> DeclarationOk(ds[0]) && !ds[0].types[0].ConstLike?
    ensures ReadAll(AfterName(types, rest), ParametersYield(ds) + [Lbrace])
         == Some(Push(St(First), Push(St(Later(Function)), rest)))
  {
    hide Read, ReadAll, TypeBegins, AfterName, DeclarationOk;
    var s, next := AfterName(types, rest), Push(St(Later(Function)), rest);
    AfterNameTakes(types, rest, Blank);
    if ds == [] {
      assert ParametersYield(ds) + [Lbrace] == [Lbrace];
      ReadAllOne(s, Lbrace);
    } else {
      forall c: Category | c.RawInt? || c.IntLike?
        ensures Read(s, c) == Some(Push(Typed(Within), Push(Body, next)))
      {
        AfterNameTakes(types, rest, c);
      }
      ReadFirstParameter(ds[0], s, Push(Body, next));
      ReadParameters(ds[1..], next);
      ReadAllTwo(s, DeclarationYield(ds[0]), ParametersYield(ds[1..]));
      BodyTakes(next);
      ReadAllMid(s, ParametersYield(ds), Lbrace, []);
    }
  }

  lemma {:induction false} ReadFunction(x: Item, p: Place, rest: Stack)
    requires ItemOk(x, Unit(p)) && x.Defined? && Unit(p)
    ensures ReadAll(Push(St(p), rest), ItemYield(x)) == Some(Push(St(Later(Function)), rest))
    decreases x, 0
  {
    hide Read, ReadAll, AfterName, NameYield, ParametersYield, DeclarationOk, NameOk, ListOk;
    var s, next := Push(St(p), rest), Push(St(Later(Function)), rest);
    var front := x.types + x.stars + NameYield(x.name);
    var opening := ParametersYield(x.parameters) + [Lbrace];
    ReadHead(x.types, x.stars, x.name, p, rest);
    ReadOpening(x.parameters, x.types, rest);
    ReadAllTwo(s, front, opening);
    ReadBlock(x.body, First, next, [Rbrace]);
    ReadAllTwo(s, front + opening, ListYield(x.body) + [Rbrace]);
    assert ItemYield(x) == front + opening + (ListYield(x.body) + [Rbrace]);
  }

  lemma {:induction false} ReadBlock(ss: List, p: Place, rest: Stack, b: seq<Category>)
    requires ListOk(ss, false) && InBlock(p) && b == [Rbrace]
    ensures ReadAll(Push(St(p), rest), ListYield(ss) + b) == Some(rest)
    decreases ss, 2
  {
    hide Read, ReadAll, ItemOk;
    EndTakes(rest);
    if ss.End? {
      ReadAllOne(Push(St(p), rest), Rbrace);
      assert ListYield(ss) + b == b;
    } else {
      var later, v := ListYield(ss.rest) + b, Push(St(Next), rest);
      ReadOneItem(ss.first, p, rest);
      ReadAllTwo(Push(St(p), rest), ItemYield(ss.first), later);
      if ss.rest.More? {
        ItemFirst(ss.rest.first, false);
        assert later[0] == ItemYield(ss.rest.first)[0];
      }
      PendingAll(OpenItem(ss.first), v, later);
      ReadBlock(ss.rest, Next, rest, b);
      assert ListYield(ss) + b == ItemYield(ss.first) + later;
    }
  }

  /** A whole text. */
  lemma {:induction false} ReadText(ss: List, p: Place, rest: Stack)
    requires ListOk(ss, true) && Unit(p) && ss.More?
    ensures ReadAll(Push(St(p), rest), ListYield(ss))
         == Some(Pending(OpenItem(Last(ss)), Push(St(Later(ItemCategory(Last(ss)))), rest)))
    decreases ss
  {
    hide Read, ReadAll, ItemOk, ItemYield;
    ReadOneItem(ss.first, p, rest);
    if ss.rest.More? {
      var later, v := ListYield(ss.rest), Push(St(Later(ItemCategory(ss.first))), rest);
      ItemFirst(ss.rest.first, true);
      assert later[0] == ItemYield(ss.rest.first)[0];
      PendingAll(OpenItem(ss.first), v, later);
      ReadText(ss.rest, Later(ItemCategory(ss.first)), rest);
      ReadAllTwo(Push(St(p), rest), ItemYield(ss.first), later);
    } else {
      assert ItemYield(ss.first) + [] == ItemYield(ss.first);
    }
  }

  lemma {:induction false} PendingComplete(n: nat, u: Stack)
    requires Complete(u)
    ensures Complete(Pending(n, u))
  {
    if n > 0 {
      PendingComplete(n - 1, u);
    }
  }

  // ---- Insertions -----------------------------------------------------------------

  /** The categories without the insertions. */
  function Stripped(cats: seq<Category>): seq<Category> {
    if cats == [] then [] else (if cats[0].Insert? then [] else [cats[0]]) + Stripped(cats[1..])
  }

  lemma {:induction false} ReadStripped(s: Stack, cats: seq<Category>)
    ensures ReadAll(s, Stripped(cats)) == ReadAll(s, cats)
    decreases |cats|
  {
    if cats != [] {
      var rest := Stripped(cats[1..]);
      if cats[0].Insert? {
        ReadStripped(s, cats[1..]);
        assert [] + rest == rest;
      } else {
        assert ([cats[0]] + rest)[1..] == rest;
        if Read(s, cats[0]).Some? {
          ReadStripped(Read(s, cats[0]).value, cats[1..]);
        }
      }
    }
  }

  /** Every text, with insertions anywhere, is recognized. */
  lemma TextForm(ss: List, cats: seq<Category>)
    requires ss.More? && ListOk(ss, true) && Stripped(cats) == ListYield(ss)
    ensures Form(cats, ItemCategory(Last(ss)))
  {
    hide ReadAll, ListOk, ListYield, Stripped;
    var goal := ItemCategory(Last(ss));
    ReadText(ss, Bottom, Push(Goal(goal), Empty));
    ReadStripped(Start(goal), cats);
    PendingComplete(OpenItem(Last(ss)), Push(St(Later(goal)), Push(Goal(goal), Empty)));
  }
}
