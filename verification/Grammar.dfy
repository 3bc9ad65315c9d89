/** A grammar of C texts: statements, declarations and function definitions, one after the other;
    and a machine that recognizes the categories of such a text at any stage of its reduction: its
    tokens, and whatever the productions make of parts of them. */
module Grammar {
  import opened Productions
  import opened Wrappers

  // ---- The grammar --------------------------------------------------------------

  /** Operators between two operands; before one; and closing parentheses, as scanned or not yet reduced. */
  predicate Infix(c: Category) {
    c.Binop? || c.Unorbinop? || c.RawUnorbin? || c.Prelangle? || c.Prerangle?
  }

  predicate Prefix(c: Category) {
    c.Unop? || c.Unorbinop? || c.RawUnorbin? || c.SizeofLike?
  }

  predicate Close(c: Category) {
    c.Rpar? || c.RawRpar?
  }

  /** Words of which types are made; the stars before a name. */
  predicate TypeWord(c: Category) {
    c.IntLike? || c.RawInt? || c.ConstLike?
  }

  predicate Star(c: Category) {
    c.Unorbinop? || c.RawUnorbin?
  }

  datatype Expr =
    | Atom
    | Two(left: Expr, infix: Category, right: Expr)
    | Listed(left: Expr, right: Expr)
    | Before(prefix: Category, operand: Expr)
    | Behind(operand: Expr)
    | Choice(test: Expr, yes: Expr, no: Expr)
    | Group(inner: Inner, close: Category)
    | Applied(called: Expr, inner: Inner, close: Category)
    | Converted(types: seq<Category>, stars: seq<Category>, close: Category, operand: Expr)
    | SizeOf(types: seq<Category>, stars: seq<Category>, close: Category)

  /** What stands in parentheses: expressions with commas or semicolons between, declarations of
      parameters with commas between, or nothing. */
  datatype Inner =
    | Nothing
    | Only(e: Expr)
    | Then(e: Expr, comma: bool, rest: Inner)
    | Skip(rest: Inner)
    | Parameter(types: seq<Category>, stars: seq<Category>, name: Name, more: Inner)

  /** No name, or a name with parameter lists or subscripts behind it. */
  datatype Name = NoName | Plain | With(name: Name, inner: Inner, close: Category)

  datatype Statement =
    | Simple(e: Expr)
    | Null
    | Block(body: List)
    | If(test: Inner, close: Category, yes: Statement)
    | IfElse(test: Inner, close: Category, yes: Statement, no: Statement)
    | Loop(head: Inner, close: Category, body1: Statement)
    | DoLoop(body1: Statement, test: Inner, close: Category)
    | Jump
    | Return(e: Expr)
    | Case(e: Expr, labelled: Statement)
    | Default(labelled: Statement)
    | Label(e: Expr, labelled: Statement)
    | Section

  datatype Declarator = Declarator(stars: seq<Category>, name: Name, init: Option<Expr>)

  datatype Declaration = Declaration(types: seq<Category>, declarators: seq<Declarator>)

  /** A statement; a declaration; or a function: its type if any, its name with the parameter list,
      the declarations of its parameters, and its body. */
  datatype Item =
    | Stated(s: Statement)
    | Declared(d: Declaration)
    | Defined(types: seq<Category>, stars: seq<Category>, name: Name, parameters: seq<Declaration>, body: List)

  datatype List = End | More(first: Item, rest: List)

  predicate Words(types: seq<Category>) {
    types != [] && forall i :: 0 <= i < |types| ==> TypeWord(types[i])
  }

  predicate Stars(stars: seq<Category>) {
    forall i :: 0 <= i < |stars| ==> Star(stars[i])
  }

  /** A type in parentheses behind sizeof is no cast. */
  predicate ExprOk(e: Expr) {
    match e
    case Atom => true
    case Two(l, op, r) => Infix(op) && ExprOk(l) && ExprOk(r)
    case Listed(l, r) => ExprOk(l) && ExprOk(r)
    case Before(op, x) => Prefix(op) && ExprOk(x) && (op.SizeofLike? ==> !BeginsConverted(x))
    case Behind(x) => ExprOk(x)
    case Choice(t, y, n) => ExprOk(t) && ExprOk(y) && ExprOk(n)
    case Group(i, c) => InnerOk(i, false) && Close(c)
    case Applied(f, i, c) => ExprOk(f) && InnerOk(i, false) && Close(c)
    case Converted(types, stars, c, x) => Words(types) && Stars(stars) && Close(c) && ExprOk(x)
    case SizeOf(types, stars, c) => Words(types) && Stars(stars) && Close(c)
  }

  predicate BeginsConverted(e: Expr) {
    match e
    case Two(l, _, _) => BeginsConverted(l)
    case Listed(l, _) => BeginsConverted(l)
    case Behind(x) => BeginsConverted(x)
    case Choice(t, _, _) => BeginsConverted(t)
    case Applied(f, _, _) => BeginsConverted(f)
    case Converted(_, _, _, _) => true
    case _ => false
  }

  /** Parameters are declared in parameter lists only. */
  predicate InnerOk(i: Inner, listed: bool) {
    match i
    case Nothing => true
    case Only(e) => ExprOk(e)
    case Then(e, _, rest) => ExprOk(e) && InnerOk(rest, listed)
    case Skip(rest) => InnerOk(rest, listed)
    case Parameter(types, stars, name, more) =>
      listed && Words(types) && Stars(stars) && NameOk(name) && InnerOk(more, listed)
  }

  predicate NameOk(n: Name) {
    n.With? ==> !n.name.NoName? && NameOk(n.name) && InnerOk(n.inner, true) && Close(n.close)
  }

  predicate StatementOk(s: Statement) {
    match s
    case Simple(e) => ExprOk(e)
    case Null | Jump | Section => true
    case Block(ss) => ListOk(ss, false)
    case If(t, c, y) => InnerOk(t, false) && Close(c) && StatementOk(y)
    case IfElse(t, c, y, n) => InnerOk(t, false) && Close(c) && StatementOk(y) && StatementOk(n)
    case Loop(h, c, b) => InnerOk(h, false) && Close(c) && StatementOk(b)
    case DoLoop(b, t, c) => StatementOk(b) && InnerOk(t, false) && Close(c)
    case Return(e) => ExprOk(e)
    case Case(e, l) => ExprOk(e) && StatementOk(l)
    case Default(l) => StatementOk(l)
    case Label(e, l) => ExprOk(e) && StatementOk(l)
  }

  /** No comma outside parentheses, but for those of choices. */
  predicate NoComma(e: Expr) {
    match e
    case Listed(_, _) => false
    case Two(l, _, r) => NoComma(l) && NoComma(r)
    case Before(_, x) => NoComma(x)
    case Behind(x) => NoComma(x)
    case Choice(t, _, n) => NoComma(t) && NoComma(n)
    case Applied(f, _, _) => NoComma(f)
    case Converted(_, _, _, x) => NoComma(x)
    case _ => true
  }

  predicate DeclaratorOk(v: Declarator) {
    && Stars(v.stars) && !v.name.NoName? && NameOk(v.name)
    && (v.init.Some? ==> ExprOk(v.init.value) && NoComma(v.init.value))
  }

  predicate DeclarationOk(d: Declaration) {
    Words(d.types) && forall i :: 0 <= i < |d.declarators| ==> DeclaratorOk(d.declarators[i])
  }

  /** A function without a type has no stars either.  A const right behind the parameter list is
      taken for a part of the function's head, so that the parameters may not begin with one. */
  predicate ItemOk(x: Item, unit: bool) {
    match x
    case Stated(s) => StatementOk(s)
    case Declared(d) => DeclarationOk(d)
    case Defined(types, stars, name, parameters, body) =>
      && unit && (if types == [] then stars == [] else Words(types)) && Stars(stars) && name.With? && NameOk(name)
      && (forall i :: 0 <= i < |parameters| ==> DeclarationOk(parameters[i]))
      && (parameters != [] ==> !parameters[0].types[0].ConstLike?) && ListOk(body, false)
  }

  /** Functions are defined outside of blocks only. */
  predicate ListOk(ss: List, unit: bool) {
    ss.More? ==> ItemOk(ss.first, unit) && ListOk(ss.rest, unit)
  }

  // ---- The tokens ---------------------------------------------------------------

  function ExprYield(e: Expr): seq<Category>
    decreases e, 0
  {
    match e
    case Atom => [Exp]
    case Two(l, op, r) => ExprYield(l) + [op] + ExprYield(r)
    case Listed(l, r) => ExprYield(l) + [Comma] + ExprYield(r)
    case Before(op, x) => [op] + ExprYield(x)
    case Behind(x) => ExprYield(x) + [Unop]
    case Choice(t, y, n) => ExprYield(t) + [Question] + ExprYield(y) + [Colon] + ExprYield(n)
    case Group(i, c) => Header(i, c)
    case Applied(f, i, c) => ExprYield(f) + Header(i, c)
    case Converted(types, stars, c, x) => [Lpar] + types + stars + [c] + ExprYield(x)
    case SizeOf(types, stars, c) => [SizeofLike, Lpar] + types + stars + [c]
  }

  function InnerYield(i: Inner): seq<Category>
    decreases i, 0
  {
    match i
    case Nothing => []
    case Only(e) => ExprYield(e)
    case Then(e, comma, rest) => ExprYield(e) + [if comma then Comma else Semi] + InnerYield(rest)
    case Skip(rest) => [Semi] + InnerYield(rest)
    case Parameter(types, stars, name, more) =>
      types + stars + NameYield(name) + if more.Nothing? then [] else [Comma] + InnerYield(more)
  }

  function NameYield(n: Name): seq<Category>
    decreases n, 0
  {
    match n
    case NoName => []
    case Plain => [Exp]
    case With(name, i, c) => NameYield(name) + Header(i, c)
  }

  function Header(i: Inner, close: Category): seq<Category>
    decreases i, 1
  {
    [Lpar] + InnerYield(i) + [close]
  }

  function Yield(s: Statement): seq<Category> {
    match s
    case Simple(e) => ExprYield(e) + [Semi]
    case Null => [Semi]
    case Block(ss) => [Lbrace] + ListYield(ss) + [Rbrace]
    case If(t, c, y) => [IfLike] + Header(t, c) + Yield(y)
    case IfElse(t, c, y, n) => [IfLike] + Header(t, c) + Yield(y) + [ElseLike] + Yield(n)
    case Loop(h, c, b) => [ForLike] + Header(h, c) + Yield(b)
    case DoLoop(b, t, c) => [DoLike] + Yield(b) + [ForLike] + Header(t, c) + [Semi]
    case Jump => [CaseLike, Semi]
    case Return(e) => [CaseLike] + ExprYield(e) + [Semi]
    case Case(e, l) => [CaseLike] + ExprYield(e) + [Colon] + Yield(l)
    case Default(l) => [CaseLike, Colon] + Yield(l)
    case Label(e, l) => ExprYield(e) + [Colon] + Yield(l)
    case Section => [SectionScrap, Semi]
  }

  function DeclaratorYield(v: Declarator): seq<Category> {
    v.stars + NameYield(v.name) + if v.init.Some? then [Binop] + ExprYield(v.init.value) else []
  }

  /** Each declarator and what ends it: a comma, or at last the semicolon. */
  function DeclaratorsYield(vs: seq<Declarator>): seq<Category> {
    if vs == [] then [Semi]
    else DeclaratorYield(vs[0]) + if |vs| == 1 then [Semi] else [Comma] + DeclaratorsYield(vs[1..])
  }

  function DeclarationYield(d: Declaration): seq<Category> {
    d.types + DeclaratorsYield(d.declarators)
  }

  function ParametersYield(ds: seq<Declaration>): seq<Category> {
    if ds == [] then [] else DeclarationYield(ds[0]) + ParametersYield(ds[1..])
  }

  function ItemYield(x: Item): seq<Category> {
    match x
    case Stated(s) => Yield(s)
    case Declared(d) => DeclarationYield(d)
    case Defined(types, stars, name, parameters, body) =>
      types + stars + NameYield(name) + ParametersYield(parameters) + [Lbrace] + ListYield(body) + [Rbrace]
  }

  function ListYield(ss: List): seq<Category> {
    if ss.End? then [] else ItemYield(ss.first) + ListYield(ss.rest)
  }

  /** The category of a whole item. */
  function ItemCategory(x: Item): Category {
    match x
    case Stated(_) => Stmt
    case Declared(_) => Decl
    case Defined(_, _, _, _, _) => Function
  }

  function Last(ss: List): Item
    requires ss.More?
  {
    if ss.rest.End? then ss.first else Last(ss.rest)
  }

  // ---- The machine --------------------------------------------------------------

  /** Parentheses around an operand; around arguments; of a condition or loop header. */
  datatype Kind = Operands | Arguments | Condition

  /** Where a declaration stands: outside of all blocks; in one or among the declarations of
      parameters; or in parentheses. */
  datatype Where = Outer | Within | Between(kind: Kind)

  /** Where an item is expected: at the beginning of the text or later in it, behind another one of some
      category; first or later in a block; after an if-clause, an if-head, an else or loop header, an
      else-head, a do, or a label. */
  datatype Place = Bottom | Later(last: Category) | First | Next | Clause | Head | Else | ElseBlock | Do | Lab

  /** What may come: the end of the text, whose last item has some category; an item; an operand, also
      of sizeof; more in parentheses; what follows an operand; the end of an expression statement or
      label, or also a function's body; the colon of a choice; the semicolon after a section name; a
      condition; what follows case or return; the while of a do; its semicolon; an else; what follows
      a type, or a type and a name; what follows more of a declaration; the end of an initial value;
      declarations of parameters or the body of a function. */
  datatype Symbol =
    | Goal(cat: Category) | St(place: Place) | Operand | Sized | Inside(kind: Kind) | After | EndOrLabel(unit: bool)
    | ChoiceColon | SectionEnd | Test | Keyword | While | WhileEnd | MayElse | Typed(at: Where) | Named
    | Declaring(at: Where) | Init(at: Where) | Body

  datatype Stack = Empty | Push(top: Symbol, rest: Stack)

  predicate Unit(p: Place) {
    p.Bottom? || p.Later?
  }

  predicate InBlock(p: Place) {
    p.First? || p.Next?
  }

  /** What is expected when an item of this category is complete at this place. */
  function Continue(p: Place, rest: Stack, item: Category): Stack {
    if InBlock(p) then Push(St(Next), rest) else if Unit(p) then Push(St(Later(item)), rest) else rest
  }

  /** A category read where an operand is expected; `under` is expected behind the expression. */
  function ReadOperand(c: Category, under: Stack): Option<Stack> {
    if c.Exp? then Some(Push(After, under))
    else if c.SizeofLike? then Some(Push(Sized, under))
    else if Prefix(c) || c.Cast? then Some(Push(Operand, under))
    else if c.Lpar? then Some(Push(Inside(Operands), Push(After, under)))
    else None
  }

  /** The operand of sizeof may be a type in parentheses. */
  function ReadSized(c: Category, under: Stack): Option<Stack> {
    if c.Cast? then Some(Push(After, under))
    else if c.Lpar? then Some(Push(Inside(Arguments), Push(After, under)))
    else ReadOperand(c, under)
  }

  /** What may stand behind a closing parenthesis. */
  function Closed(v: Stack): Option<Stack> {
    if v.Push? && (v.top.After? || v.top.Declaring? || v.top.WhileEnd? || v.top == St(Clause) || v.top == St(Else)) then
      Some(v)
    else None
  }

  /** The same when a type stood in the parentheses: where an operand was expected, it was a cast. */
  function Casted(kind: Kind, v: Stack): Option<Stack> {
    if kind.Operands? then
      if v.Push? && v.top.After? then Some(Push(Operand, v.rest)) else None
    else Closed(v)
  }

  /** What begins a declaration; `next` is expected behind it. */
  function ReadDeclaration(c: Category, at: Where, next: Stack): Option<Stack> {
    if TypeWord(c) then Some(Push(Typed(at), next))
    else if c.DeclHead? then Some(Push(Declaring(at), next))
    else if c.Decl? && !at.Between? then Some(next)
    else None
  }

  function ReadItem(p: Place, c: Category, rest: Stack): Option<Stack> {
    if c.Function? then (if Unit(p) then Some(Continue(p, rest, Function)) else None)
    else if c.FnDecl? then (if Unit(p) then Some(Push(Body, Continue(p, rest, Function))) else None)
    else if TypeWord(c) || c.DeclHead? || c.Decl? then
      if Unit(p) || InBlock(p) then ReadDeclaration(c, if Unit(p) then Outer else Within, Continue(p, rest, Decl))
      else None
    else ReadStatement(p, c, rest, Continue(p, rest, Stmt))
  }

  function ReadStatement(p: Place, c: Category, rest: Stack, next: Stack): Option<Stack> {
    if c.Stmt? then Some(next)
    else if c.Lbrace? then Some(Push(St(First), next))
    else if p.Head? || p.ElseBlock? then None
    else if c.Rbrace? then (if InBlock(p) then Some(rest) else None)
    else if c.Semi? then Some(next)
    else if c.IfLike? then Some(Push(Test, Push(St(Clause), Push(MayElse, next))))
    else if c.IfClause? then Some(Push(St(Clause), Push(MayElse, next)))
    else if c.IfHead? then Some(Push(St(Head), Push(MayElse, next)))
    else if c.ForLike? then Some(Push(Test, Push(St(Else), next)))
    else if c.ElseLike? then Some(Push(St(Else), next))
    else if c.ElseHead? then Some(Push(St(ElseBlock), next))
    else if c.DoLike? then Some(Push(St(Do), Push(While, next)))
    else if c.CaseLike? then Some(Push(Keyword, next))
    else if c.Tag? then Some(Push(St(Lab), next))
    else if c.SectionScrap? then Some(Push(SectionEnd, next))
    else ReadOperand(c, Push(EndOrLabel(Unit(p)), next))
  }

  /** The body of a function, or a declaration of parameters. */
  function ReadBody(c: Category, next: Stack): Option<Stack> {
    if c.Lbrace? then Some(Push(St(First), next))
    else if c.Stmt? then Some(next)
    else ReadDeclaration(c, Within, Push(Body, next))
  }

  /** The same right behind a name with which an item began, which is thereby a function. */
  function ReadBegin(c: Category, next: Stack): Option<Stack> {
    if next.Push? && next.top.St? && (c.Lbrace? || c.RawInt? || c.IntLike?) then
      ReadBody(c, Push(St(Later(Function)), next.rest))
    else None
  }

  function ReadTyped(at: Where, c: Category, next: Stack): Option<Stack> {
    if TypeWord(c) then Some(Push(Typed(at), next))
    else if Star(c) then Some(Push(Declaring(at), next))
    else if c.Exp? then Some(Push(if at.Outer? then Named else Declaring(at), next))
    else if at.Between? then ReadBetween(at.kind, c, next)
    else if c.Semi? then Some(next)
    else None
  }

  function ReadDeclaring(at: Where, c: Category, next: Stack): Option<Stack> {
    if c.Exp? || c.Cast? || Star(c) then Some(Push(Declaring(at), next))
    else if c.Lpar? then Some(Push(Inside(Arguments), Push(Declaring(at), next)))
    else if at.Between? then ReadBetween(at.kind, c, next)
    else if c.Comma? then Some(Push(Declaring(at), next))
    else if c.Semi? then Some(next)
    else if c.Binop? then Some(Push(Operand, Push(Init(at), next)))
    else if at.Outer? then ReadBegin(c, next)
    else None
  }

  /** What ends a declaration in parentheses. */
  function ReadBetween(kind: Kind, c: Category, v: Stack): Option<Stack> {
    if c.Comma? then Some(Push(Inside(kind), v)) else if Close(c) then Casted(kind, v) else None
  }

  function ReadInside(kind: Kind, c: Category, v: Stack): Option<Stack> {
    if Close(c) then Closed(v)
    else if c.Semi? || c.Stmt? then Some(Push(Inside(kind), v))
    else if TypeWord(c) || c.DeclHead? then
      if kind.Condition? then None else ReadDeclaration(c, Between(kind), v)
    else ReadOperand(c, Push(Inside(kind), v))
  }

  /** What may follow an expression, `u` being expected behind it. */
  function ReadAfter(c: Category, u: Stack): Option<Stack> {
    if c.Exp? || c.Cast? || c.Unop? then Some(Push(After, u))
    else if c.Lpar? then Some(Push(Inside(Arguments), Push(After, u)))
    else if Infix(c) then Some(Push(Operand, u))
    else if c.Question? then Some(Push(Operand, Push(ChoiceColon, u)))
    else if c.Comma? then
      if u.Push? && u.top.Inside? then Some(u)
      else if u.Push? && u.top.Init? then Some(Push(Declaring(u.top.at), u.rest))
      else Some(Push(Operand, u))
    else if u.Push? then ReadEnd(c, u.top, u.rest)
    else None
  }

  /** What ends an expression. */
  function ReadEnd(c: Category, top: Symbol, rest: Stack): Option<Stack> {
    match top
    case Inside(_) => if Close(c) then Closed(rest) else if c.Semi? then Some(Push(top, rest)) else None
    case EndOrLabel(unit) =>
      if c.Semi? then Some(rest)
      else if c.Colon? then Some(Push(St(Lab), rest))
      else if unit then ReadBegin(c, rest)
      else None
    case ChoiceColon => if c.Colon? then Some(Push(Operand, rest)) else None
    case Init(_) => if c.Semi? then Some(rest) else None
    case _ => None
  }

  /** One category read; insertions may stand anywhere. */
  function Read(s: Stack, c: Category): Option<Stack>
    decreases s
  {
    if c.Insert? then Some(s)
    else if s.Empty? then None
    else
      match s.top
      case St(p) => ReadItem(p, c, s.rest)
      case Operand => ReadOperand(c, s.rest)
      case Sized => ReadSized(c, s.rest)
      case Inside(kind) => ReadInside(kind, c, s.rest)
      case After => ReadAfter(c, s.rest)
      case SectionEnd | WhileEnd => if c.Semi? then Some(s.rest) else None
      case Test => if c.Exp? then Some(s.rest) else if c.Lpar? then Some(Push(Inside(Condition), s.rest)) else None
      case Keyword =>
        if c.Semi? then Some(s.rest) else if c.Colon? then Some(Push(St(Lab), s.rest))
        else ReadOperand(c, Push(EndOrLabel(false), s.rest))
      case While =>
        if c.ForLike? then Some(Push(Test, Push(WhileEnd, s.rest)))
        else if c.ElseLike? then Some(Push(WhileEnd, s.rest)) else None
      case MayElse => if c.ElseLike? then Some(Push(St(Else), s.rest)) else Read(s.rest, c)
      case Typed(at) => ReadTyped(at, c, s.rest)
      case Named => if TypeWord(c) || c.Lbrace? then None else ReadDeclaring(Outer, c, s.rest)
      case Declaring(at) => ReadDeclaring(at, c, s.rest)
      case Body => ReadBody(c, s.rest)
      case Goal(_) | EndOrLabel(_) | ChoiceColon | Init(_) => None
  }

  function ReadAll(s: Stack, cats: seq<Category>): Option<Stack>
    decreases |cats|
  {
    if cats == [] then Some(s)
    else if Read(s, cats[0]).None? then None
    else ReadAll(Read(s, cats[0]).value, cats[1..])
  }

  /** Nothing more needs to come, and the last item has the category it should have. */
  predicate Complete(s: Stack) {
    && s.Push?
    && if s.top.MayElse? then Complete(s.rest)
       else s.top.St? && s.top.place.Later? && s.rest == Push(Goal(s.top.place.last), Empty)
  }

  function Start(goal: Category): Stack {
    Push(St(Bottom), Push(Goal(goal), Empty))
  }

  predicate Reads(s: Stack, cats: seq<Category>) {
    ReadAll(s, cats).Some? && Complete(ReadAll(s, cats).value)
  }

  /** A text whose last item has this category, at some stage of its reduction, with insertions anywhere. */
  predicate Form(cats: seq<Category>, goal: Category) {
    Reads(Start(goal), cats)
  }
}
