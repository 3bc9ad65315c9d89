/** The syntactic categories of CWEAVE and its table of productions.

    `Choose` looks at the categories of the four scraps at the parser's cursor
    and answers which production fires, as the nested conditionals of the
    original do.  A production that builds a new text lists, in order, what it
    appends to the token memory. */
module Productions {

  /** Blank is category 0: no scrap at that place. */
  datatype Category =
    | Blank
    | Exp | Unop | Binop | Unorbinop | Cast | Question | Lbrace | Rbrace
    | DeclHead | Comma | Lpar | Rpar | Prelangle | Prerangle | Langle | Colcol
    | Base | Decl | StructHead | Stmt | Function | FnDecl | ElseLike | Semi
    | Colon | Tag | IfHead | ElseHead | IfClause | Lproc | Rproc | Insert
    | SectionScrap | Dead | PublicLike | OperatorLike | NewLike | CatchLike
    | ForLike | DoLike | IfLike | RawRpar | RawUnorbin | ConstLike | RawInt
    | IntLike | CaseLike | SizeofLike | StructLike | TypedefLike | DefineLike
    | BeginArg | EndArg

  /** The characters and control codes that productions append, with the code of each. */
  datatype Glyph =
    | Noop | MathRel | BigCancel | Cancel | IndentCode | OutdentCode | Opt | Backup | BreakSpace | Force
    | BigForce | InsertedCode | Space | LeftBrace | RightBrace | Backslash | CommaChar | Nine | Five
    | LessThan | GreaterThan

  function Code(g: Glyph): (c: nat)
    ensures c != DOLLAR
  {
    match g
    case Noop => 0x7f
    case MathRel => 0x86
    case BigCancel => 0x88
    case Cancel => 0x89
    case IndentCode => 0x8a
    case OutdentCode => 0x8b
    case Opt => 0x8c
    case Backup => 0x8d
    case BreakSpace => 0x8e
    case Force => 0x8f
    case BigForce => 0x90
    case InsertedCode => 0x94
    case Space => 0x20
    case LeftBrace => 0x7b
    case RightBrace => 0x7d
    case Backslash => 0x5c
    case CommaChar => 0x2c
    case Nine => 0x39
    case Five => 0x35
    case LessThan => 0x3c
    case GreaterThan => 0x3e
  }

  const DOLLAR: nat := 0x24

  // TeX's modes, as the two halves of a scrap's mathness.
  const MAYBE_MATH: nat := 0
  const YES_MATH: nat := 1
  const NO_MATH: nat := 2

  /** The mode that a control code wants, by its value: cancel, indent, backup, break_space, force
      and big_force want text mode, math_rel wants math mode. */
  function Wants(c: nat): nat {
    if c == 0x89 || c == 0x8a || 0x8d <= c <= 0x90 then NO_MATH
    else if c == 0x86 then YES_MATH
    else MAYBE_MATH
  }

  /** Characters that may be appended in any mode. */
  type FreeGlyph = g: Glyph | Wants(Code(g)) == MAYBE_MATH witness Noop

  /** The signs that the productions for brackets append. */
  type AngleGlyph = g: Glyph | g == LessThan || g == GreaterThan witness LessThan

  /** One call of `big_app` or of `app` on a character, or both, one after the other. */
  datatype Op = Big(g: Glyph) | Raw(free: FreeGlyph) | Twice(g: Glyph)

  /** `big_app1` on the scrap at pp + i, followed by characters. */
  datatype Part = Part(i: nat, after: seq<Op>)

  /** What happens at the cursor.  A text is built from the characters `before` and
      then from `parts`; `off`, `k`, `cat`, `d` are the arguments of `reduce` and
      `squash`, with the first scrap given relative to pp; `n` is the number of the
      production.  `Reserve` first calls `make_reserved` on the scrap at pp + at;
      `Angle` replaces the whole text of the scrap at pp by one character in math mode. */
  datatype Production =
    | Idle
    | Squash(off: nat, k: nat, cat: Category, d: int, n: nat)
    | Build(before: seq<Op>, parts: seq<Part>, off: nat, k: nat, cat: Category, d: int, n: nat)
    | Reserve(at: nat, before: seq<Op>, parts: seq<Part>, off: nat, k: nat, cat: Category, d: int, n: nat)
    | Angle(g: AngleGlyph, d: int, n: nat)

  predicate IsAngle(c: Category) {
    c.Prelangle? || c.Prerangle?
  }

  predicate LhsNotSimple(c: Category) {
    !c.Semi? && !c.RawInt? && !c.RawUnorbin? && !c.RawRpar? && !c.ConstLike?
  }

  function Choose(c0: Category, c1: Category, c2: Category, c3: Category, forceLines: bool): (p: Production)
    requires c0 != Blank
    requires c1 == Blank ==> c2 == Blank
    requires c2 == Blank ==> c3 == Blank
    ensures Sane(c0, c1, c2, c3, p)
  {
    if c1.EndArg? && LhsNotSimple(c0) then
      if c0.BeginArg? then Squash(0, 2, Exp, -2, 110) else Squash(0, 2, EndArg, -1, 111)
    else if c1.Insert? then Squash(0, 2, c0, -2, 0)
    else if c2.Insert? then Squash(1, 2, c1, -1, 0)
    else if c3.Insert? then Squash(2, 2, c2, 0, 0)
    else Rules(c0, c1, c2, c3, forceLines)
  }

  function Rules(c0: Category, c1: Category, c2: Category, c3: Category, forceLines: bool): (p: Production)
    ensures Sane(c0, c1, c2, c3, p)
  {
    hide Sane;
    match c0
    case Exp => ExpCases(c1, c2, c3)
    case Lpar => LparCases(c1, c2, c3)
    case Question => QuestionCases(c1, c2, c3)
    case Unop => UnopCases(c1, c2, c3)
    case Unorbinop => UnorbinopCases(c1, c2, c3)
    case Binop => BinopCases(c1, c2, c3)
    case Cast => CastCases(c1, c2, c3)
    case SizeofLike => SizeofLikeCases(c1, c2, c3)
    case Langle => LangleCases(c1, c2, c3)
    case Colcol => ColcolCases(c1, c2, c3)
    case NewLike => NewLikeCases(c1, c2, c3)
    case OperatorLike => OperatorLikeCases(c1, c2, c3)
    case RawRpar => RawRparCases(c1, c2, c3)
    case RawUnorbin => RawUnorbinCases(c1, c2, c3)
    case Prelangle => PrelangleCases(c1, c2, c3)
    case Prerangle => PrerangleCases(c1, c2, c3)
    case CatchLike => CatchLikeCases(c1, c2, c3)
    case IntLike => IntLikeCases(c1, c2, c3)
    case DeclHead => DeclHeadCases(c1, c2, c3)
    case Decl => DeclCases(c1, c2, c3)
    case TypedefLike => TypedefLikeCases(c1, c2, c3)
    case StructLike => StructLikeCases(c1, c2, c3)
    case StructHead => StructHeadCases(c1, c2, c3)
    case FnDecl => FnDeclCases(c1, c2, c3)
    case Function => FunctionCases(c1, c2, c3)
    case Base => BaseCases(c1, c2, c3)
    case Lbrace => LbraceCases(c1, c2, c3)
    case DoLike => DoLikeCases(c1, c2, c3)
    case IfLike => IfLikeCases(c1, c2, c3)
    case ForLike => ForLikeCases(c1, c2, c3)
    case ElseLike => ElseLikeCases(c1, c2, c3)
    case IfClause => IfClauseCases(c1, c2, c3)
    case IfHead => IfHeadCases(c1, c2, c3)
    case ElseHead => ElseHeadCases(c1, c2, c3)
    case CaseLike => CaseLikeCases(c1, c2, c3)
    case Stmt => StmtCases(c1, c2, c3, forceLines)
    case Tag => TagCases(c1, c2, c3)
    case Semi => SemiCases(c1, c2, c3)
    case Lproc => LprocCases(c1, c2, c3)
    case SectionScrap => SectionScrapCases(c1, c2, c3)
    case Insert => InsertCases(c1, c2, c3)
    case PublicLike => PublicLikeCases(c1, c2, c3)
    case ConstLike => ConstLikeCases(c1, c2, c3)
    case RawInt => RawIntCases(c1, c2, c3)
    case _ => SaneIdle(c0, c1, c2, c3); Idle
  }

  lemma SaneIdle(c0: Category, c1: Category, c2: Category, c3: Category)
    ensures Sane(c0, c1, c2, c3, Idle)
  {
  }

  function ExpCases(c1: Category, c2: Category, c3: Category): (p: Production)
    ensures Sane(Exp, c1, c2, c3, p)
  {
    if c1.Lbrace? || c1.IntLike? || c1.Decl? then
      Build([], [Part(0, [Twice(IndentCode)])], 0, 1, FnDecl, 0, 1)
    else if c1.Unop? then Squash(0, 2, Exp, -2, 2)
    else if (c1.Binop? || c1.Unorbinop?) && c2.Exp? then Squash(0, 3, Exp, -2, 3)
    else if c1.Comma? && c2.Exp? then
      Build([], [Part(0, []), Part(1, [Raw(Opt), Raw(Nine)]), Part(2, [])], 0, 3, Exp, -2, 4)
    else if c1.Exp? || c1.Cast? then Squash(0, 2, Exp, -2, 5)
    else if c1.Semi? then Squash(0, 2, Stmt, -1, 6)
    else if c1.Colon? then Squash(0, 2, Tag, 0, 7)
    else if c1.Base? then
      if c2.IntLike? && c3.Comma? then
        Build([], [Part(1, [Big(Space)]), Part(2, []), Part(3, [Raw(Opt), Raw(Nine)])], 1, 3, Base, 0, 8)
      else if c2.IntLike? && c3.Lbrace? then
        Build([], [Part(0, [Big(Space)]), Part(1, [Big(Space)]), Part(2, [])], 0, 3, Exp, -1, 9)
      else Idle
    else if c1.Rbrace? then Squash(0, 1, Stmt, -1, 10)
    else Idle
  }

  function LparCases(c1: Category, c2: Category, c3: Category): (p: Production)
    ensures Sane(Lpar, c1, c2, c3, p)
  {
    if (c1.Exp? || c1.Unorbinop?) && c2.Rpar? then Squash(0, 3, Exp, -2, 11)
    else if c1.Rpar? then
      Build([], [Part(0, [Raw(Backslash), Raw(CommaChar)]), Part(1, [])], 0, 2, Exp, -2, 12)
    else if c1.DeclHead? || c1.IntLike? || c1.Exp? then
      if c2.Rpar? then Squash(0, 3, Cast, -2, 13)
      else if c2.Comma? then
        Build([], [Part(0, []), Part(1, []), Part(2, [Raw(Opt), Raw(Nine)])], 0, 3, Lpar, 0, 14)
      else Idle
    else if c1.Stmt? || c1.Decl? then Build([], [Part(0, []), Part(1, [Big(Space)])], 0, 2, Lpar, 0, 15)
    else Idle
  }

  function UnorbinopCases(c1: Category, c2: Category, c3: Category): (p: Production)
    ensures Sane(Unorbinop, c1, c2, c3, p)
  {
    if c1.Exp? || c1.IntLike? then
      Build([Big(LeftBrace)], [Part(0, [Big(RightBrace)]), Part(1, [])], 0, 2, c1, -2, 18)
    else if c1.Binop? then
      Build([Big(MathRel)], [Part(0, [Big(LeftBrace)]), Part(1, [Big(RightBrace), Big(RightBrace)])],
            0, 2, Binop, -1, 19)
    else Idle
  }

  function IntLikeCases(c1: Category, c2: Category, c3: Category): (p: Production)
    ensures Sane(IntLike, c1, c2, c3, p)
  {
    if c1.IntLike? || c1.StructLike? then Build([], [Part(0, [Big(Space)]), Part(1, [])], 0, 2, c1, -2, 25)
    else if c1.Exp? && (c2.RawInt? || c2.StructLike?) then Squash(0, 2, IntLike, -2, 26)
    else if c1.Semi? then Build([], [Part(0, [])], 0, 1, DeclHead, -1, 27)
    else if c1.Exp? || c1.Unorbinop? then Build([], [Part(0, [Big(Space)])], 0, 1, DeclHead, -1, 27)
    else if c1.Colon? then Build([], [Part(0, [Big(Space)])], 0, 1, DeclHead, 0, 28)
    else if c1.Prelangle? then Squash(1, 1, Langle, 1, 29)
    else if c1.Colcol? && (c2.Exp? || c2.IntLike?) then Squash(0, 3, c2, -2, 30)
    else if c1.Cast? then
      if c2.Lbrace? then Build([], [Part(0, []), Part(1, [Big(IndentCode), Big(IndentCode)])], 0, 2, FnDecl, 1, 31)
      else Squash(0, 2, IntLike, -2, 32)
    else Idle
  }

  function DeclHeadCases(c1: Category, c2: Category, c3: Category): (p: Production)
    ensures Sane(DeclHead, c1, c2, c3, p)
  {
    if c1.Comma? then Build([], [Part(0, []), Part(1, [Big(Space)])], 0, 2, DeclHead, -1, 33)
    else if c1.Unorbinop? then
      Build([], [Part(0, [Big(LeftBrace)]), Part(1, [Big(RightBrace)])], 0, 2, DeclHead, -1, 34)
    else if c1.Exp? && !c2.Lpar? && !c2.Exp? then Squash(0, 2, DeclHead, -1, 35)
    else if (c1.Binop? || c1.Colon?) && c2.Exp? && (c3.Comma? || c3.Semi? || c3.Rpar?) then
      Squash(0, 3, DeclHead, -1, 36)
    else if c1.Cast? then Squash(0, 2, DeclHead, -1, 37)
    else if c1.Lbrace? || (c1.IntLike? && !c2.Colcol?) || c1.Decl? then
      Build([], [Part(0, [Twice(IndentCode)])], 0, 1, FnDecl, 0, 38)
    else if c1.Semi? then Squash(0, 2, Decl, -1, 39)
    else Idle
  }

  function TypedefLikeCases(c1: Category, c2: Category, c3: Category): (p: Production)
    ensures Sane(TypedefLike, c1, c2, c3, p)
  {
    if c1.DeclHead? then
      if (c2.Exp? && !c3.Lpar? && !c3.Exp?) || c2.IntLike? then
        Reserve(2, [], [Part(1, []), Part(2, [])], 1, 2, DeclHead, 0, 42)
      else if c2.Semi? then Build([], [Part(0, [Big(Space)]), Part(1, []), Part(2, [])], 0, 3, Decl, -1, 43)
      else Idle
    else Idle
  }

  function StructLikeCases(c1: Category, c2: Category, c3: Category): (p: Production)
    ensures Sane(StructLike, c1, c2, c3, p)
  {
    if c1.Lbrace? then Build([], [Part(0, [Big(Space)]), Part(1, [])], 0, 2, StructHead, 0, 44)
    else if c1.Exp? || c1.IntLike? then
      if c2.Semi? then Reserve(1, [], [Part(0, [Big(Space)]), Part(1, [])], 0, 2, DeclHead, 0, 45)
      else if c2.Lbrace? then
        Reserve(1, [], [Part(0, [Big(Space)]), Part(1, [Big(Space)]), Part(2, [])], 0, 3, StructHead, 0, 46)
      else if c2.Colon? then Squash(2, 1, Base, -1, 47)
      else if !c2.Base? then Build([], [Part(0, [Big(Space)]), Part(1, [])], 0, 2, IntLike, -2, 48)
      else Idle
    else Idle
  }

  function StructHeadCases(c1: Category, c2: Category, c3: Category): (p: Production)
    ensures Sane(StructHead, c1, c2, c3, p)
  {
    if (c1.Decl? || c1.Stmt? || c1.Function?) && c2.Rbrace? then
      Build([],
            [Part(0, [Big(IndentCode), Big(Force)]), Part(1, [Big(OutdentCode), Big(Force)]), Part(2, [])],
            0, 3, IntLike, -2, 49)
    else if c1.Rbrace? then
      Build([], [Part(0, [Raw(Backslash), Raw(CommaChar)]), Part(1, [])], 0, 2, IntLike, -2, 50)
    else Idle
  }

  function LbraceCases(c1: Category, c2: Category, c3: Category): (p: Production)
    ensures Sane(Lbrace, c1, c2, c3, p)
  {
    if c1.Rbrace? then Build([], [Part(0, [Raw(Backslash), Raw(CommaChar)]), Part(1, [])], 0, 2, Stmt, -1, 54)
    else if (c1.Stmt? || c1.Decl? || c1.Function?) && c2.Rbrace? then
      Build([Big(Force)],
            [Part(0, [Big(IndentCode), Big(Force)]), Part(1, [Big(Force), Big(Backup)]),
             Part(2, [Big(OutdentCode), Big(Force)])],
            0, 3, Stmt, -1, 55)
    else if c1.Exp? then
      if c2.Rbrace? then Squash(0, 3, Exp, -2, 56)
      else if c2.Comma? && c3.Rbrace? then Squash(0, 4, Exp, -2, 56)
      else Idle
    else Idle
  }

  function IfClauseCases(c1: Category, c2: Category, c3: Category): (p: Production)
    ensures Sane(IfClause, c1, c2, c3, p)
  {
    if c1.Lbrace? then Squash(0, 1, IfHead, 0, 62)
    else if c1.Stmt? then
      if c2.ElseLike? then
        if c3.IfLike? then
          Build([Big(Force)],
                [Part(0, [Big(IndentCode), Big(BreakSpace)]), Part(1, [Big(OutdentCode), Big(Force)]),
                 Part(2, [Big(Space)]), Part(3, [])],
                0, 4, IfLike, 0, 63)
        else
          Build([Big(Force)],
                [Part(0, [Big(IndentCode), Big(BreakSpace)]), Part(1, [Big(OutdentCode), Big(Force)]), Part(2, [])],
                0, 3, ElseLike, 0, 64)
      else Squash(0, 1, ElseLike, 0, 65)
    else Idle
  }

  function IfHeadCases(c1: Category, c2: Category, c3: Category): (p: Production)
    ensures Sane(IfHead, c1, c2, c3, p)
  {
    if c1.Stmt? || c1.Exp? then
      if c2.ElseLike? then
        if c3.IfLike? then
          Build([Big(Force)],
                [Part(0, [Big(BreakSpace), Raw(Noop), Big(Cancel)]), Part(1, [Big(Force)]), Part(2, [Big(Space)]),
                 Part(3, [])],
                0, 4, IfLike, 0, 66)
        else
          Build([Big(Force)], [Part(0, [Big(BreakSpace), Raw(Noop), Big(Cancel)]), Part(1, [Big(Force)]), Part(2, [])],
                0, 3, ElseLike, 0, 67)
      else Squash(0, 1, ElseHead, 0, 68)
    else Idle
  }

  function CaseLikeCases(c1: Category, c2: Category, c3: Category): (p: Production)
    ensures Sane(CaseLike, c1, c2, c3, p)
  {
    if c1.Semi? then Squash(0, 2, Stmt, -1, 70)
    else if c1.Colon? then Squash(0, 2, Tag, -1, 71)
    else if c1.Exp? then
      if c2.Semi? then Build([], [Part(0, [Big(Space)]), Part(1, []), Part(2, [])], 0, 3, Stmt, -1, 72)
      else if c2.Colon? then Build([], [Part(0, [Big(Space)]), Part(1, []), Part(2, [])], 0, 3, Tag, -1, 73)
      else Idle
    else Idle
  }

  function LprocCases(c1: Category, c2: Category, c3: Category): (p: Production)
    ensures Sane(Lproc, c1, c2, c3, p)
  {
    if c1.ElseLike? || c1.IfLike? || c1.DefineLike? then Squash(0, 2, Lproc, 0, 78)
    else if c1.Rproc? then Build([Raw(InsertedCode)], [Part(0, []), Part(1, [])], 0, 2, Insert, -1, 79)
    else if c1.Exp? || c1.Function? then
      if c2.Rproc? then
        Build([Raw(InsertedCode)], [Part(0, [Big(Space)]), Part(1, []), Part(2, [])], 0, 3, Insert, -1, 80)
      else if c2.Exp? && c3.Rproc? && c1.Exp? then
        Build([Raw(InsertedCode)],
              [Part(0, [Big(Space)]), Part(1, [Raw(Space), Raw(Backslash), Raw(Five)]), Part(2, []), Part(3, [])],
              0, 4, Insert, -1, 80)
      else Idle
    else Idle
  }

  function LangleCases(c1: Category, c2: Category, c3: Category): (p: Production)
    ensures Sane(Langle, c1, c2, c3, p)
  {
    if c1.Exp? && c2.Prerangle? then Squash(0, 3, Cast, -1, 86)
    else if c1.Prerangle? then
      Build([], [Part(0, [Raw(Backslash), Raw(CommaChar)]), Part(1, [])], 0, 2, Cast, -1, 87)
    else if c1.DeclHead? || c1.IntLike? then
      if c2.Prerangle? then Squash(0, 3, Cast, -1, 88)
      else if c2.Comma? then
        Build([], [Part(0, []), Part(1, []), Part(2, [Raw(Opt), Raw(Nine)])], 0, 3, Langle, 0, 89)
      else Idle
    else Idle
  }

  function NewLikeCases(c1: Category, c2: Category, c3: Category): (p: Production)
    ensures Sane(NewLike, c1, c2, c3, p)
  {
    if c1.Exp? || (c1.RawInt? && !c2.Prelangle? && !c2.Langle?) then
      Build([], [Part(0, [Big(Space)]), Part(1, [])], 0, 2, NewLike, 0, 93)
    else if c1.RawUnorbin? || c1.Colcol? then Squash(0, 2, NewLike, 0, 94)
    else if c1.Cast? then Squash(0, 2, Exp, -2, 95)
    else if !c1.Lpar? && !c1.RawInt? && !c1.StructLike? then Squash(0, 1, Exp, -2, 96)
    else Idle
  }

  function OperatorLikeCases(c1: Category, c2: Category, c3: Category): (p: Production)
    ensures Sane(OperatorLike, c1, c2, c3, p)
  {
    if c1.Binop? || c1.Unop? || c1.Unorbinop? then
      if c2.Binop? then Idle
      else Build([], [Part(0, [Big(LeftBrace)]), Part(1, [Big(RightBrace)])], 0, 2, Exp, -2, 97)
    else if c1.NewLike? || c1.SizeofLike? then
      Build([], [Part(0, [Big(Space)]), Part(1, [])], 0, 2, Exp, -2, 98)
    else Squash(0, 1, NewLike, 0, 99)
  }

  function BaseCases(c1: Category, c2: Category, c3: Category): (p: Production)
    ensures Sane(Base, c1, c2, c3, p)
  {
    if c1.PublicLike? && c2.Exp? then
      if c3.Comma? then Build([], [Part(0, []), Part(1, [Big(Space)]), Part(2, []), Part(3, [])], 0, 4, Base, 0, 101)
      else Build([], [Part(1, [Big(Space)]), Part(2, [])], 1, 2, IntLike, -1, 102)
    else Idle
  }

  function QuestionCases(c1: Category, c2: Category, c3: Category): (p: Production)
    ensures Sane(Question, c1, c2, c3, p)
  {
    if c1.Exp? && c2.Colon? then Squash(0, 3, Binop, -2, 16) else Idle
  }

  function UnopCases(c1: Category, c2: Category, c3: Category): (p: Production)
    ensures Sane(Unop, c1, c2, c3, p)
  {
    if c1.Exp? || c1.IntLike? then Squash(0, 2, c1, -2, 17) else Idle
  }

  function BinopCases(c1: Category, c2: Category, c3: Category): (p: Production)
    ensures Sane(Binop, c1, c2, c3, p)
  {
    if c1.Binop? then
        Build([Big(MathRel), Big(LeftBrace)],
              [Part(0, [Big(RightBrace), Big(LeftBrace)]), Part(1, [Big(RightBrace), Big(RightBrace)])],
              0, 2, Binop, -1, 20)
      else Idle
  }

  function CastCases(c1: Category, c2: Category, c3: Category): (p: Production)
    ensures Sane(Cast, c1, c2, c3, p)
  {
    if c1.Exp? then Build([], [Part(0, [Big(Space)]), Part(1, [])], 0, 2, Exp, -2, 21)
      else if c1.Semi? then Squash(0, 1, Exp, -2, 22)
      else Idle
  }

  function SizeofLikeCases(c1: Category, c2: Category, c3: Category): (p: Production)
    ensures Sane(SizeofLike, c1, c2, c3, p)
  {
    if c1.Cast? then Squash(0, 2, Exp, -2, 23)
      else if c1.Exp? then Build([], [Part(0, [Big(Space)]), Part(1, [])], 0, 2, Exp, -2, 24)
      else Idle
  }

  function DeclCases(c1: Category, c2: Category, c3: Category): (p: Production)
    ensures Sane(Decl, c1, c2, c3, p)
  {
    if c1.Decl? then Build([], [Part(0, [Big(Force)]), Part(1, [])], 0, 2, Decl, -1, 40)
      else if c1.Stmt? || c1.Function? then Build([], [Part(0, [Big(BigForce)]), Part(1, [])], 0, 2, c1, -1, 41)
      else Idle
  }

  function FnDeclCases(c1: Category, c2: Category, c3: Category): (p: Production)
    ensures Sane(FnDecl, c1, c2, c3, p)
  {
    if c1.Decl? then Build([], [Part(0, [Big(Force)]), Part(1, [])], 0, 2, FnDecl, 0, 51)
      else if c1.Stmt? then
        Build([], [Part(0, [Raw(OutdentCode), Raw(OutdentCode), Big(Force)]), Part(1, [])], 0, 2, Function, -1, 52)
      else Idle
  }

  function FunctionCases(c1: Category, c2: Category, c3: Category): (p: Production)
    ensures Sane(Function, c1, c2, c3, p)
  {
    if c1.Function? || c1.Decl? || c1.Stmt? then
        Build([], [Part(0, [Big(BigForce)]), Part(1, [])], 0, 2, c1, -1, 53)
      else Idle
  }

  function DoLikeCases(c1: Category, c2: Category, c3: Category): (p: Production)
    ensures Sane(DoLike, c1, c2, c3, p)
  {
    if c1.Stmt? && c2.ElseLike? && c3.Semi? then
        Build([],
              [Part(0, [Big(BreakSpace), Raw(Noop), Big(Cancel)]),
               Part(1, [Big(Cancel), Raw(Noop), Big(BreakSpace)]), Part(2, []), Part(3, [])],
              0, 4, Stmt, -1, 69)
      else Idle
  }

  function IfLikeCases(c1: Category, c2: Category, c3: Category): (p: Production)
    ensures Sane(IfLike, c1, c2, c3, p)
  {
    if c1.Exp? then Build([], [Part(0, [Big(Space)]), Part(1, [])], 0, 2, IfClause, 0, 57) else Idle
  }

  function ForLikeCases(c1: Category, c2: Category, c3: Category): (p: Production)
    ensures Sane(ForLike, c1, c2, c3, p)
  {
    if c1.Exp? then Build([], [Part(0, [Big(Space)]), Part(1, [])], 0, 2, ElseLike, -2, 58) else Idle
  }

  function ElseLikeCases(c1: Category, c2: Category, c3: Category): (p: Production)
    ensures Sane(ElseLike, c1, c2, c3, p)
  {
    if c1.Lbrace? then Squash(0, 1, ElseHead, 0, 59)
      else if c1.Stmt? then
        Build([Big(Force)], [Part(0, [Big(IndentCode), Big(BreakSpace)]), Part(1, [Big(OutdentCode), Big(Force)])],
              0, 2, Stmt, -1, 60)
      else Idle
  }

  function ElseHeadCases(c1: Category, c2: Category, c3: Category): (p: Production)
    ensures Sane(ElseHead, c1, c2, c3, p)
  {
    if c1.Stmt? || c1.Exp? then
        Build([Big(Force)], [Part(0, [Big(BreakSpace), Raw(Noop), Big(Cancel)]), Part(1, [Big(Force)])],
              0, 2, Stmt, -1, 61)
      else Idle
  }

  function StmtCases(c1: Category, c2: Category, c3: Category, forceLines: bool): (p: Production)
    ensures Sane(Stmt, c1, c2, c3, p)
  {
    if c1.Stmt? || c1.Decl? || c1.Function? then
        Build([],
              [Part(0, [Big(if c1.Function? || c1.Decl? then BigForce else if forceLines then Force else BreakSpace)]),
               Part(1, [])],
              0, 2, c1, -1, 76)
      else Idle
  }

  function TagCases(c1: Category, c2: Category, c3: Category): (p: Production)
    ensures Sane(Tag, c1, c2, c3, p)
  {
    if c1.Tag? then Build([], [Part(0, [Big(BreakSpace)]), Part(1, [])], 0, 2, Tag, -1, 74)
      else if c1.Stmt? || c1.Decl? || c1.Function? then
        Build([Big(Force), Big(Backup)], [Part(0, [Big(BreakSpace)]), Part(1, [])], 0, 2, c1, -1, 75)
      else Idle
  }

  function SemiCases(c1: Category, c2: Category, c3: Category): (p: Production)
    ensures Sane(Semi, c1, c2, c3, p)
  {
    Build([Big(Space)], [Part(0, [])], 0, 1, Stmt, -1, 77)
  }

  function SectionScrapCases(c1: Category, c2: Category, c3: Category): (p: Production)
    ensures Sane(SectionScrap, c1, c2, c3, p)
  {
    if c1.Semi? then Build([], [Part(0, []), Part(1, [Big(Force)])], 0, 2, Stmt, -2, 81)
      else Squash(0, 1, Exp, -2, 82)
  }

  function InsertCases(c1: Category, c2: Category, c3: Category): (p: Production)
    ensures Sane(Insert, c1, c2, c3, p)
  {
    if !c1.Blank? then Squash(0, 2, c1, 0, 83) else Idle
  }

  function PrelangleCases(c1: Category, c2: Category, c3: Category): (p: Production)
    ensures Sane(Prelangle, c1, c2, c3, p)
  {
    Angle(LessThan, -2, 84)
  }

  function PrerangleCases(c1: Category, c2: Category, c3: Category): (p: Production)
    ensures Sane(Prerangle, c1, c2, c3, p)
  {
    Angle(GreaterThan, -2, 85)
  }

  function PublicLikeCases(c1: Category, c2: Category, c3: Category): (p: Production)
    ensures Sane(PublicLike, c1, c2, c3, p)
  {
    if c1.Colon? then Squash(0, 2, Tag, -1, 90) else Squash(0, 1, IntLike, -2, 91)
  }

  function ColcolCases(c1: Category, c2: Category, c3: Category): (p: Production)
    ensures Sane(Colcol, c1, c2, c3, p)
  {
    if c1.Exp? || c1.IntLike? then Squash(0, 2, c1, -2, 92) else Idle
  }

  function CatchLikeCases(c1: Category, c2: Category, c3: Category): (p: Production)
    ensures Sane(CatchLike, c1, c2, c3, p)
  {
    if c1.Cast? || c1.Exp? then
        Build([], [Part(0, []), Part(1, [Big(IndentCode), Big(IndentCode)])], 0, 2, FnDecl, 0, 100)
      else Idle
  }

  function RawRparCases(c1: Category, c2: Category, c3: Category): (p: Production)
    ensures Sane(RawRpar, c1, c2, c3, p)
  {
    if c1.ConstLike? && (c2.Semi? || c2.Lbrace? || c2.Comma? || c2.Binop? || c2.ConstLike?) then
        Build([], [Part(0, [Big(Space)]), Part(1, [])], 0, 2, RawRpar, 0, 103)
      else Squash(0, 1, Rpar, -3, 104)
  }

  function RawUnorbinCases(c1: Category, c2: Category, c3: Category): (p: Production)
    ensures Sane(RawUnorbin, c1, c2, c3, p)
  {
    if c1.ConstLike? then Build([], [Part(0, []), Part(1, [Raw(Backslash), Raw(Space)])], 0, 2, RawUnorbin, 0, 105)
      else Squash(0, 1, Unorbinop, -2, 106)
  }

  function ConstLikeCases(c1: Category, c2: Category, c3: Category): (p: Production)
    ensures Sane(ConstLike, c1, c2, c3, p)
  {
    Squash(0, 1, IntLike, -2, 107)
  }

  function RawIntCases(c1: Category, c2: Category, c3: Category): (p: Production)
    ensures Sane(RawInt, c1, c2, c3, p)
  {
    if c1.Lpar? then Squash(0, 1, Exp, -2, 108) else Squash(0, 1, IntLike, -3, 109)
  }

  /** The one-scrap category changes all go down in this rank. */
  function Rank(c: Category): nat {
    if c.RawInt? then 4
    else if c.PublicLike? || c.OperatorLike? || c.ConstLike? then 3
    else if c.IntLike? || c.Cast? || c.NewLike? || c.SectionScrap? || c.IfClause? then 2
    else if c.Exp? || c.DeclHead? || c.ElseLike? || c.IfHead? || c.Semi? || c.Prelangle?
         || c.Prerangle? || c.RawRpar? || c.RawUnorbin? || c.Colon? then 1
    else 0
  }

  function At(c0: Category, c1: Category, c2: Category, c3: Category, i: nat): Category {
    if i == 0 then c0 else if i == 1 then c1 else if i == 2 then c2 else if i == 3 then c3 else Blank
  }

  /** `parts` append the scraps off, off + 1, ..., off + k - 1, in that order. */
  predicate InOrder(parts: seq<Part>, off: nat, k: nat) {
    |parts| == k && forall j :: 0 <= j < k ==> parts[j].i == off + j
  }

  /** A production appends exactly the scraps it replaces, in order. */
  predicate Orderly(p: Production) {
    (p.Build? || p.Reserve?) ==> InOrder(p.parts, p.off, p.k)
  }

  /** The scraps a production replaces exist, and what it puts there is a real category. */
  predicate Present(c0: Category, c1: Category, c2: Category, c3: Category, p: Production) {
    match p
    case Idle => true
    case Angle(_, d, _) => IsAngle(c0) && d <= 1
    case _ =>
      && !p.cat.Blank? && p.d <= 1 && 1 <= p.k && p.off + p.k <= 4
      && (p.off + p.k >= 2 ==> !c1.Blank?) && (p.off + p.k >= 3 ==> !c2.Blank?) && (p.off + p.k == 4 ==> !c3.Blank?)
      && (p.Reserve? ==> p.k >= 2 && p.at < p.off + p.k)
      && (IsAngle(p.cat) ==> p.k >= 2)
  }

  /** A production either removes a scrap or lowers the rank of one. */
  predicate Lowers(c0: Category, c1: Category, c2: Category, c3: Category, p: Production) {
    (p.Squash? || p.Build?) && p.k == 1 ==> Rank(p.cat) < Rank(At(c0, c1, c2, c3, p.off))
  }

  /** Insertions and what they are made of: from an lproc to an rproc. */
  predicate Opens(c: Category) {
    c.Insert? || c.Lproc?
  }

  predicate Closes(c: Category) {
    c.Insert? || c.Rproc?
  }

  /** A bracket comes only from that bracket and an insertion beside it; what is made an insertion or an
      lproc begins with one, and what is made an insertion or an rproc ends with one; the end of a
      macro argument comes from one. */
  predicate Inherits(c0: Category, c1: Category, c2: Category, c3: Category, p: Production) {
    p.Squash? || p.Build? || p.Reserve? ==>
      var a, b := At(c0, c1, c2, c3, p.off), At(c0, c1, c2, c3, p.off + 1);
      && (IsAngle(p.cat) ==> p.k == 2 && ((a == p.cat && b.Insert?) || (a.Insert? && b == p.cat)))
      && (Opens(p.cat) ==> Opens(a))
      && (p.cat.EndArg? ==> a.EndArg? || b.EndArg?)
      && (Closes(p.cat) ==> p.k >= 1 && Closes(At(c0, c1, c2, c3, p.off + p.k - 1)))
  }

  ghost predicate Sane(c0: Category, c1: Category, c2: Category, c3: Category, p: Production) {
    && Orderly(p) && Present(c0, c1, c2, c3, p) && Lowers(c0, c1, c2, c3, p)
    && Inherits(c0, c1, c2, c3, p)
  }
}
