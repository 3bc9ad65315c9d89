/** What becomes of a whole C text in print: its tokens are read once and in order, each in the mode
    that it wants, and at the end the left margin is where it was. */
module PrintedTexts {
  import opened BracketInputs
  import opened Conservation
  import opened Grammar
  import GrammarRuns
  import opened Indentation
  import opened Parse
  import opened Productions
  import opened Recognition
  import opened ReductionLaws
  import opened Reductions
  import opened TokenMemory
  import opened WeaveReading
  import opened Wrappers

  // ---- What is a token --------------------------------------------------------------

  predicate Token(c: Category) {
    !c.FnDecl? && !c.EndArg?
  }

  predicate Tokens(cats: seq<Category>) {
    forall c :: c in cats ==> Token(c)
  }

  lemma TypeTokens(types: seq<Category>, stars: seq<Category>)
    ensures Words(types) ==> Tokens(types)
    ensures Stars(stars) ==> Tokens(stars)
  {
    assert forall c: Category :: TypeWord(c) || Star(c) ==> Token(c);
  }

  lemma {:induction false} ExprTokens(e: Expr)
    requires ExprOk(e)
    ensures Tokens(ExprYield(e))
    decreases e, 0
  {
    match e
    case Atom =>
    case Two(l, op, r) =>
      ExprTokens(l);
      ExprTokens(r);
    case Listed(l, r) =>
      ExprTokens(l);
      ExprTokens(r);
    case Before(_, x) => ExprTokens(x);
    case Behind(x) => ExprTokens(x);
    case Choice(t, y, n) =>
      ExprTokens(t);
      ExprTokens(y);
      ExprTokens(n);
    case Group(i, _) => InnerTokens(i, false);
    case Applied(f, i, _) =>
      ExprTokens(f);
      InnerTokens(i, false);
    case Converted(types, stars, _, x) =>
      TypeTokens(types, stars);
      ExprTokens(x);
    case SizeOf(types, stars, _) => TypeTokens(types, stars);
  }

  lemma {:induction false} InnerTokens(i: Inner, listed: bool)
    requires InnerOk(i, listed)
    ensures Tokens(InnerYield(i))
    decreases i, 0
  {
    match i
    case Nothing =>
    case Only(e) => ExprTokens(e);
    case Then(e, _, rest) =>
      ExprTokens(e);
      InnerTokens(rest, listed);
    case Skip(rest) => InnerTokens(rest, listed);
    case Parameter(types, stars, name, more) =>
      TypeTokens(types, stars);
      NameTokens(name);
      InnerTokens(more, listed);
  }

  lemma {:induction false} NameTokens(n: Name)
    requires NameOk(n)
    ensures Tokens(NameYield(n))
    decreases n, 0
  {
    if n.With? {
      NameTokens(n.name);
      InnerTokens(n.inner, true);
    }
  }

  lemma {:induction false} DeclaratorsTokens(vs: seq<Declarator>)
    requires forall i :: 0 <= i < |vs| ==> DeclaratorOk(vs[i])
    ensures Tokens(DeclaratorsYield(vs))
    decreases |vs|
  {
    if vs != [] {
      var v := vs[0];
      TypeTokens([], v.stars);
      NameTokens(v.name);
      if v.init.Some? {
        ExprTokens(v.init.value);
      }
      DeclaratorsTokens(vs[1..]);
    }
  }

  lemma DeclarationTokens(d: Declaration)
    requires DeclarationOk(d)
    ensures Tokens(DeclarationYield(d))
  {
    TypeTokens(d.types, []);
    DeclaratorsTokens(d.declarators);
  }

  lemma {:induction false} ParametersTokens(ds: seq<Declaration>)
    requires forall i :: 0 <= i < |ds| ==> DeclarationOk(ds[i])
    ensures Tokens(ParametersYield(ds))
    decreases |ds|
  {
    if ds != [] {
      DeclarationTokens(ds[0]);
      ParametersTokens(ds[1..]);
    }
  }

  lemma {:induction false} StatementTokens(t: Statement)
    requires StatementOk(t)
    ensures Tokens(Yield(t))
    decreases t, 0
  {
    hide InnerYield, ExprYield, ListYield, InnerOk, ExprOk, ListOk;
    match t
    case Simple(e) => ExprTokens(e);
    case Null | Jump | Section =>
    case Block(ss) => ListTokens(ss, false);
    case If(i, _, y) =>
      InnerTokens(i, false);
      StatementTokens(y);
    case IfElse(i, _, y, n) =>
      InnerTokens(i, false);
      StatementTokens(y);
      StatementTokens(n);
    case Loop(i, _, b) =>
      InnerTokens(i, false);
      StatementTokens(b);
    case DoLoop(b, i, _) =>
      StatementTokens(b);
      InnerTokens(i, false);
    case Return(e) => ExprTokens(e);
    case Case(e, l) =>
      ExprTokens(e);
      StatementTokens(l);
    case Default(l) => StatementTokens(l);
    case Label(e, l) =>
      ExprTokens(e);
      StatementTokens(l);
  }

  lemma {:induction false} ItemTokens(x: Item, unit: bool)
    requires ItemOk(x, unit)
    ensures Tokens(ItemYield(x))
    decreases x, 0
  {
    match x
    case Stated(t) => StatementTokens(t);
    case Declared(d) => DeclarationTokens(d);
    case Defined(types, stars, name, parameters, body) =>
      TypeTokens(types, stars);
      NameTokens(name);
      ParametersTokens(parameters);
      ListTokens(body, false);
  }

  lemma {:induction false} ListTokens(ss: List, unit: bool)
    requires ListOk(ss, unit)
    ensures Tokens(ListYield(ss))
    decreases ss, 0
  {
    if ss.More? {
      ItemTokens(ss.first, unit);
      ListTokens(ss.rest, unit);
    }
  }

  lemma {:induction false} StrippedTokens(cats: seq<Category>)
    requires Tokens(Stripped(cats))
    ensures Tokens(cats)
    decreases |cats|
  {
    if cats != [] {
      var c, rest := cats[0], cats[1..];
      assert Tokens(Stripped(rest)) by {
        forall x | x in Stripped(rest)
          ensures Token(x)
        {
          assert x in Stripped(cats);
        }
      }
      StrippedTokens(rest);
      assert Token(c) by {
        if !c.Insert? {
          assert c in Stripped(cats);
        }
      }
      assert cats == [c] + rest;
    }
  }

  // ---- The text in print ------------------------------------------------------------

  lemma PlainCalm(live: seq<Scrap>)
    requires forall i :: 0 <= i < |live| ==> !IsAngle(live[i].cat)
    ensures Calm(live)
  {
  }

  lemma TokensLive(live: seq<Scrap>)
    requires Tokens(GrammarRuns.Cats(live))
    ensures NoEnd(live) && forall i :: 0 <= i < |live| ==> !live[i].cat.FnDecl?
  {
    forall i | 0 <= i < |live|
      ensures Token(live[i].cat)
    {
      assert GrammarRuns.Cats(live)[i] == live[i].cat;
    }
  }

  lemma OneTotal(live: seq<Scrap>)
    requires |live| == 1 && !live[0].cat.FnDecl?
    ensures Total(live) == 0
  {
    assert live[..0] == [];
    assert Total(live[..0]) == 0;
  }

  /** Of a C text without brackets, with insertions anywhere, every token is read in print, once and in
      order, and in the mode that it wants; and the margin, never moved too far to the left, comes back
      to where it was. */
  lemma TextPrinted(ss: List, s: State, demand: seq<nat>, forceLines: bool)
    requires ss.More? && ListOk(ss, true) && Fresh(s, demand) && Distinct(s.live)
    requires Stripped(GrammarRuns.Cats(s.live)) == ListYield(ss)
    requires forall i :: 0 <= i < |s.live| ==> !IsAngle(s.live[i].cat)
    ensures var out := Translate(s, demand, forceLines); var t := out.w.mem.Count() - 1;
      && out.w.mem.Valid() && t >= 0
      && var pieces := TextPieces(out.w, t);
         && Wholes(pieces) == Texts(s.live) && CodesInMode(demand, pieces)
         && Scan(demand, Marks(pieces), NO_MATH) == NO_MATH
         && Margin(Marks(pieces), 0) == Some(0)
  {
    hide Lawful, Fresh, Run, Translate, Flat, Pieces, Marks, Conserved, Calm, Margin, Wholes, Leaves, CodesInMode, Scan,
      Stripped, ListYield, ListOk, Distinct, Total, NoEnd, Tokens, Covers, Memory.Valid;
    ListTokens(ss, true);
    StrippedTokens(GrammarRuns.Cats(s.live));
    TokensLive(s.live);
    GrammarRuns.TextReduced(ss, s, demand, forceLines);
    LastToken(ss);
    OneTotal(Run(s, demand, Texts(s.live), forceLines).live);
    MarginsKept(s, demand, forceLines);
    ReadingResult(s, demand, forceLines, false);
    PlainCalm(s.live);
    CalmConserves(s, demand, forceLines);
    TranslateIsSound(s, demand, forceLines);
    var out := Translate(s, demand, forceLines);
    AllRead(Flat(out.w, out.w.mem.Count() - 1), s.live);
  }

  lemma LastToken(ss: List)
    requires ss.More?
    ensures !ItemCategory(Last(ss)).FnDecl?
  {
  }
}
