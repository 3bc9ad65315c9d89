/** Reading the text that the parser returns yields what the scraps of the input yield,
    each read once, in order and in the mode that it needs, with nothing but characters
    in between. */
module WeaveReading {
  import opened Productions
  import opened TokenMemory
  import opened Reductions
  import opened MathModes
  import opened ReductionLaws
  import opened Parse
  import opened Conservation
  import opened WeaveOutput

  /** A text taken apart as far as the texts that productions made go. */
  datatype Piece = Sign(code: nat) | Whole(text: nat)

  /** The texts that replaced brackets are characters that have nothing to do with modes, and
      hold nothing any more. */
  ghost predicate LostPlain(w: World) {
    && w.mem.Valid()
    && (forall t :: t in w.lost ==> w.originals <= t < w.mem.Count())
    && (forall t, m :: t in w.lost && m in w.lost[t] ==> m.Dropped?)
    && (forall t, a :: t in w.lost && a in w.mem.Of(t) ==> a.Ch? && CharMarks(a.code) == [])
  }

  /** The texts that productions made hold characters and references. */
  ghost predicate Composed(w: World) {
    w.mem.Valid() && forall t, a :: w.originals <= t < w.mem.Count() && a in w.mem.Of(t) ==> a.Ch? || a.Text?
  }

  ghost function Pieces(w: World, toks: seq<Token>, n: nat): seq<Piece>
    requires w.mem.Valid() && n <= w.mem.Count()
    requires forall i :: 0 <= i < |toks| ==> RefersBelow(toks[i], n)
    decreases n, 1, |toks|
  {
    if toks == [] then []
    else
      assert RefersBelow(toks[0], n);
      PiecesOf(w, toks[0], n) + Pieces(w, toks[1..], n)
  }

  ghost function PiecesOf(w: World, a: Token, n: nat): seq<Piece>
    requires w.mem.Valid() && n <= w.mem.Count() && RefersBelow(a, n)
    decreases n, 0
  {
    if a.Ch? then [Sign(a.code)]
    else if !a.Text? then []
    else if a.text < w.originals then [Whole(a.text)]
    else Pieces(w, w.mem.Of(a.text), a.text)
  }

  /** The pieces of text t. */
  ghost function TextPieces(w: World, t: nat): seq<Piece>
    requires w.mem.Valid() && t < w.mem.Count()
  {
    Pieces(w, w.mem.Of(t), t)
  }

  /** What reading the pieces one after the other yields. */
  ghost function Spell(m: Memory, pieces: seq<Piece>, inner: bool): seq<Item>
    requires m.Valid() && forall i :: 0 <= i < |pieces| && pieces[i].Whole? ==> pieces[i].text < m.Count()
  {
    if pieces == [] then []
    else
      assert pieces[0].Whole? ==> pieces[0].text < m.Count();
      (if pieces[0].Sign? then [Item(Ch(pieces[0].code), inner)] else TextFlow(m, pieces[0].text, inner).items)
      + Spell(m, pieces[1..], inner)
  }

  function Wholes(pieces: seq<Piece>): seq<nat> {
    if pieces == [] then []
    else (if pieces[0].Whole? then [pieces[0].text] else []) + Wholes(pieces[1..])
  }

  function Leaves(marks: seq<Mark>): seq<nat> {
    if marks == [] then []
    else (if marks[0].Leaf? then [marks[0].text] else []) + Leaves(marks[1..])
  }

  /** What the pieces do to the mode: a dollar sign switches it, originals and control codes make
      their demands. */
  function Marks(pieces: seq<Piece>): seq<Mark> {
    if pieces == [] then []
    else (if pieces[0].Whole? then [Leaf(pieces[0].text)]
          else CharMarks(pieces[0].code)) + Marks(pieces[1..])
  }

  /** The marks without what was dropped. */
  function Kept(marks: seq<Mark>): seq<Mark> {
    if marks == [] then []
    else (if marks[0].Dropped? then [] else [marks[0]]) + Kept(marks[1..])
  }

  lemma {:induction false} SpellAppend(m: Memory, a: seq<Piece>, b: seq<Piece>, inner: bool)
    requires m.Valid() && forall i :: 0 <= i < |a| && a[i].Whole? ==> a[i].text < m.Count()
    requires forall i :: 0 <= i < |b| && b[i].Whole? ==> b[i].text < m.Count()
    ensures Spell(m, a + b, inner) == Spell(m, a, inner) + Spell(m, b, inner)
  {
    if a == [] {
      assert a + b == b;
    } else {
      assert (a + b)[1..] == a[1..] + b;
      SpellAppend(m, a[1..], b, inner);
    }
  }

  lemma {:induction false} MarksAppend(a: seq<Piece>, b: seq<Piece>)
    ensures Marks(a + b) == Marks(a) + Marks(b)
  {
    if a == [] {
      assert a + b == b;
    } else {
      assert (a + b)[1..] == a[1..] + b;
      MarksAppend(a[1..], b);
      assert Marks(a[..1]) + (Marks(a[1..]) + Marks(b)) == Marks(a[..1]) + Marks(a[1..]) + Marks(b);
    }
  }

  lemma {:induction false} KeptAppend(a: seq<Mark>, b: seq<Mark>)
    ensures Kept(a + b) == Kept(a) + Kept(b)
  {
    if a == [] {
      assert a + b == b;
    } else {
      assert (a + b)[1..] == a[1..] + b;
      KeptAppend(a[1..], b);
      assert Kept(a[..1]) + (Kept(a[1..]) + Kept(b)) == Kept(a[..1]) + Kept(a[1..]) + Kept(b);
    }
  }

  /** What was dropped has no say in the mode. */
  lemma {:induction false} ScanKept(demand: seq<nat>, marks: seq<Mark>, mode: nat)
    ensures Scan(demand, Kept(marks), mode) == Scan(demand, marks, mode)
  {
    if marks != [] && mode != 0 {
      var rest := Kept(marks[1..]);
      assert ([marks[0]] + rest)[1..] == rest && [] + rest == rest;
      match marks[0]
      case Toggle => ScanKept(demand, marks[1..], if mode == YES_MATH then NO_MATH else YES_MATH);
      case Leaf(_) => ScanKept(demand, marks[1..], mode);
      case Dropped(_) => ScanKept(demand, marks[1..], mode);
      case Control(_) => ScanKept(demand, marks[1..], mode);
    }
  }

  lemma {:induction false} LeavesKept(marks: seq<Mark>)
    ensures Leaves(Kept(marks)) == Leaves(marks)
  {
    if marks != [] {
      LeavesKept(marks[1..]);
      var rest := Kept(marks[1..]);
      assert ([marks[0]] + rest)[1..] == rest && [] + rest == rest;
    }
  }

  lemma {:induction false} LeavesMarks(pieces: seq<Piece>)
    ensures Leaves(Marks(pieces)) == Wholes(pieces)
  {
    if pieces != [] {
      LeavesMarks(pieces[1..]);
      var rest := Marks(pieces[1..]);
      assert [] + rest == rest && [Toggle] + rest != [] && ([Toggle] + rest)[1..] == rest;
      assert pieces[0].Whole? ==> ([Leaf(pieces[0].text)] + rest)[1..] == rest;
    }
  }

  /** Reading tokens is reading their pieces. */
  lemma {:induction false} ReadPieces(w: World, toks: seq<Token>, n: nat, inner: bool)
    requires Composed(w) && Composite(toks, n) && n <= w.mem.Count()
    ensures forall i :: 0 <= i < |Pieces(w, toks, n)| ==>
              Pieces(w, toks, n)[i].Whole? ==> Pieces(w, toks, n)[i].text < w.mem.Count()
    ensures Tokens(w.mem, toks, n, inner).items == Spell(w.mem, Pieces(w, toks, n), inner)
    decreases n, |toks|
  {
    if toks != [] {
      var a := toks[0];
      ReadPieces(w, toks[1..], n, inner);
      assert RefersBelow(a, n);
      var head := PiecesOf(w, a, n);
      if a.Text? && a.text >= w.originals {
        ReadPieces(w, w.mem.Of(a.text), a.text, inner);
        assert One(w.mem, a, n, inner).items == TextFlow(w.mem, a.text, inner).items;
      } else {
        SpellOne(w.mem, head[0], inner);
        assert One(w.mem, a, n, inner).items == Spell(w.mem, head, inner);
      }
      SpellAppend(w.mem, head, Pieces(w, toks[1..], n), inner);
    }
  }

  lemma SpellOne(m: Memory, x: Piece, inner: bool)
    requires m.Valid() && (x.Whole? ==> x.text < m.Count())
    ensures Spell(m, [x], inner) == if x.Sign? then [Item(Ch(x.code), inner)] else TextFlow(m, x.text, inner).items
  {
    assert [x][1..] == [];
  }

  /** Pieces and what the text stands for agree on the originals and on the switches of mode. */
  lemma {:induction false} PiecesMarks(w: World, toks: seq<Token>, n: nat)
    requires Composed(w) && LostPlain(w) && Composite(toks, n) && n <= w.mem.Count()
    ensures Marks(Pieces(w, toks, n)) == Kept(FlatTokens(w, toks, n))
    decreases n, |toks|
  {
    if toks != [] {
      var a := toks[0];
      PiecesMarks(w, toks[1..], n);
      assert RefersBelow(a, n);
      MarksAppend(PiecesOf(w, a, n), Pieces(w, toks[1..], n));
      if a.Text? {
        TextMarks(w, a.text);
        KeptAppend(Flat(w, a.text), FlatTokens(w, toks[1..], n));
      } else {
        KeptAppend(CharMarks(a.code), FlatTokens(w, toks[1..], n));
        assert [Sign(a.code)][1..] == [] && [Toggle][1..] == [] && [Control(a.code)][1..] == [];
      }
    }
  }

  lemma {:induction false} TextMarks(w: World, t: nat)
    requires Composed(w) && LostPlain(w) && t < w.mem.Count()
    ensures Marks(if t < w.originals then [Whole(t)] else Pieces(w, w.mem.Of(t), t)) == Kept(Flat(w, t))
    decreases t
  {
    if t < w.originals {
      assert [Whole(t)][1..] == [] && [Leaf(t)][1..] == [];
    } else if t in w.lost {
      SignsOnly(w, w.mem.Of(t), t);
      NoneKept(w.lost[t]);
    } else {
      PiecesMarks(w, w.mem.Of(t), t);
    }
  }

  lemma {:induction false} SignsOnly(w: World, toks: seq<Token>, n: nat)
    requires w.mem.Valid() && n <= w.mem.Count()
    requires forall i :: 0 <= i < |toks| ==> toks[i].Ch? && CharMarks(toks[i].code) == []
    ensures Marks(Pieces(w, toks, n)) == []
  {
    if toks != [] {
      SignsOnly(w, toks[1..], n);
      MarksAppend([Sign(toks[0].code)], Pieces(w, toks[1..], n));
      assert [Sign(toks[0].code)][1..] == [];
    }
  }

  lemma {:induction false} NoneKept(marks: seq<Mark>)
    requires forall i :: 0 <= i < |marks| ==> marks[i].Dropped?
    ensures Kept(marks) == []
  {
    if marks != [] {
      NoneKept(marks[1..]);
    }
  }

  /** The originals among the pieces are the leaves of what the text stands for. */
  lemma WholesAreLeaves(w: World, toks: seq<Token>, n: nat)
    requires Composed(w) && LostPlain(w) && Composite(toks, n) && n <= w.mem.Count()
    ensures Wholes(Pieces(w, toks, n)) == Leaves(FlatTokens(w, toks, n))
  {
    PiecesMarks(w, toks, n);
    LeavesMarks(Pieces(w, toks, n));
    LeavesKept(FlatTokens(w, toks, n));
  }

  // ----- the texts that replaced brackets, over a whole run

  /** What a production adds to the record: the text that replaces a bracket. */
  lemma FireLost(s: State, p: Production)
    requires Valid(s) && Fits(s, p)
    ensures var t := Fire(s, p); var n := s.w.mem.Count();
      && s.w.mem.Valid() && s.live[s.pp].trans < s.w.mem.Count() && t.w.originals == s.w.originals
      && (if p.Angle? then t.w.lost == s.w.lost[n := Drop(Flat(s.w, s.live[s.pp].trans))]
                           && t.w.mem == Freeze(s.w.mem, [Ch(Code(p.g))])
          else t.w.lost == s.w.lost)
  {
    hide Emit, ApplyAll, MakeReserved, Drop, Flat, Freeze;
  }

  lemma StepPlain(s: State, demand: seq<nat>, cov: seq<nat>, forceLines: bool)
    requires Lawful(s, demand, cov) && s.pp < |s.live| && LostPlain(s.w)
    ensures Valid(s) && LostPlain(Step(s, forceLines).w)
  {
    hide Lawful, Chosen, Fire, Carries, Holds, Valid, Inherits, Smaller, Drop, Flat, Freeze, Fits, LostPlain;
    StepKeeps(s, demand, cov, forceLines);
    NoneBlank(s);
    var p, t := Chosen(s, forceLines), Step(s, forceLines);
    FireLost(s, p);
    if !p.Idle? {
      CarriesAgree(s, t, s.pp + Off(p), Width(p), Result(p), Holds(s, p));
      if p.Angle? {
        FreezeSign(s, p.g);
        PlainMore(s.w, t.w, s.w.mem.Count(), Drop(Flat(s.w, s.live[s.pp].trans)), p.g);
      } else {
        PlainSame(s.w, t.w);
      }
    }
  }

  lemma CarriesAgree(s: State, r: State, at: nat, k: nat, cat: Category, marks: seq<Mark>)
    requires Carries(s, r, at, k, cat, marks)
    ensures s.w.mem.Count() >= 0 && Agree(s.w, r.w, s.w.mem.Count())
  {
  }

  lemma FreezeSign(s: State, g: AngleGlyph)
    requires Valid(s)
    ensures var m := Freeze(s.w.mem, [Ch(Code(g))]); var n := s.w.mem.Count();
      && s.w.originals <= n && n !in s.w.lost
      && m.Valid() && m.Count() == n + 1 && m.Of(n) == [Ch(Code(g))]
  {
    FreezeKeeps(s, [Ch(Code(g))]);
  }

  lemma PlainSame(w: World, v: World)
    requires LostPlain(w) && w.mem.Count() >= 0 && Agree(w, v, w.mem.Count()) && v.lost == w.lost
    ensures LostPlain(v)
  {
    hide Memory.Valid;
  }

  lemma PlainMore(w: World, v: World, n: nat, marks: seq<Mark>, g: AngleGlyph)
    requires LostPlain(w) && n == w.mem.Count() && n !in w.lost && w.originals <= n
    requires v.mem.Valid() && v.mem.Count() == n + 1 && v.mem.Of(n) == [Ch(Code(g))]
    requires v.originals == w.originals && forall t :: w.originals <= t < n ==> v.mem.Of(t) == w.mem.Of(t)
    requires v.lost == w.lost[n := marks] && forall i :: 0 <= i < |marks| ==> marks[i].Dropped?
    ensures LostPlain(v)
  {
    hide Memory.Valid;
  }

  lemma {:induction false} RunPlain(s: State, demand: seq<nat>, cov: seq<nat>, forceLines: bool)
    requires Lawful(s, demand, cov) && LostPlain(s.w)
    ensures LostPlain(Run(s, demand, cov, forceLines).w)
    decreases |s.live|, SumRank(s.live), |s.live| - s.pp
  {
    hide Lawful, LostPlain, Step, Chosen, Carries, Holds, Inherits, Valid, Fits;
    Unpack(s, demand, cov);
    if s.pp < |s.live| {
      StepKeeps(s, demand, cov, forceLines);
      StepPlain(s, demand, cov, forceLines);
      RunPlain(Step(s, forceLines), demand, cov, forceLines);
    }
  }

  /** The same for the text that `translate` makes of the irreducible scraps. */
  lemma FrozenPlain(r: State, v: World, toks: seq<Token>)
    requires Valid(r) && Composite(toks, r.w.mem.Count()) && LostPlain(r.w)
    requires v == r.w.(mem := Freeze(r.w.mem, toks))
    ensures var n := r.w.mem.Count();
      && v.mem.Valid() && v.mem.Count() == n + 1 && n >= 0 && v.mem.Of(n) == toks
      && LostPlain(v) && Composed(v) && v.originals <= n && n !in v.lost
  {
    hide Valid, Freeze, LostPlain, Composed, Memory.Valid;
    FrozenMemory(r, toks);
    ValidComposed(r);
    ComposedMore(r.w, v, toks);
    PlainSame(r.w, v);
  }

  lemma FrozenMemory(r: State, toks: seq<Token>)
    requires Valid(r) && Composite(toks, r.w.mem.Count())
    ensures var m := Freeze(r.w.mem, toks); var n := r.w.mem.Count();
      && r.w.mem.Valid() && r.w.originals <= n && n !in r.w.lost && m.Valid() && m.Count() == n + 1 && m.Of(n) == toks
      && forall t :: 0 <= t < n ==> m.Of(t) == r.w.mem.Of(t)
  {
    FreezeKeeps(r, toks);
  }

  lemma ValidComposed(r: State)
    requires Valid(r)
    ensures Composed(r.w)
  {
    var m := r.w.mem;
    forall t, a | r.w.originals <= t < m.Count() && a in m.Of(t)
      ensures a.Ch? || a.Text?
    {
      var j :| 0 <= j < |m.Of(t)| && m.Of(t)[j] == a;
      assert m.tok[m.start[t] + j] == a;
    }
  }

  lemma ComposedMore(w: World, v: World, toks: seq<Token>)
    requires Composed(w) && v.mem.Valid() && v.originals == w.originals && w.mem.Count() + 1 == v.mem.Count()
    requires forall t :: 0 <= t < w.mem.Count() ==> v.mem.Of(t) == w.mem.Of(t)
    requires v.mem.Of(w.mem.Count()) == toks && Composite(toks, w.mem.Count())
    ensures Composed(v)
  {
  }

  lemma ReadingFlat(w: World, t: nat, inner: bool)
    requires LostPlain(w) && Composed(w) && w.originals <= t < w.mem.Count() && t !in w.lost
    requires Composite(w.mem.Of(t), t)
    ensures var pieces := Pieces(w, w.mem.Of(t), t);
      && Wholes(pieces) == Leaves(Flat(w, t))
      && Marks(pieces) == Kept(Flat(w, t))
      && (forall i :: 0 <= i < |pieces| && pieces[i].Whole? ==> pieces[i].text < w.mem.Count())
      && TextFlow(w.mem, t, inner).items == Spell(w.mem, pieces, inner)
  {
    ReadPieces(w, w.mem.Of(t), t, inner);
    PiecesMarks(w, w.mem.Of(t), t);
    WholesAreLeaves(w, w.mem.Of(t), t);
  }

  /** Reading text t yields the tokens of the scraps that it holds, each once and in their order, and
      between them characters only.  The dollar signs among these characters lead from text mode back to
      text mode, and every scrap and every layout code is read in the mode that it insists on. */
  ghost predicate ReadWell(w: World, demand: seq<nat>, t: nat, inner: bool)
    requires w.mem.Valid() && t < w.mem.Count()
  {
    var pieces := TextPieces(w, t);
    && Wholes(pieces) == Leaves(Flat(w, t)) && Marks(pieces) == Kept(Flat(w, t))
    && Scan(demand, Marks(pieces), NO_MATH) == NO_MATH && CodesInMode(demand, pieces)
    && (forall i :: 0 <= i < |pieces| && pieces[i].Whole? ==> pieces[i].text < w.mem.Count())
    && TextFlow(w.mem, t, inner).items == Spell(w.mem, pieces, inner)
  }

  /** So is the text that `translate` returns on any input. */
  lemma ReadingResult(s: State, demand: seq<nat>, forceLines: bool, inner: bool)
    requires Fresh(s, demand)
    ensures var out := Translate(s, demand, forceLines);
            var t := out.w.mem.Count() - 1;
      out.w.mem.Valid() && t >= 0 && ReadWell(out.w, demand, t, inner)
  {
    hide Lawful, Fresh, Join, Flat, Pieces, Spell, TextFlow, LostPlain, Composed, Valid, Freeze, Run, Memory.Valid,
      CodesInMode;
    FreshPlain(s, demand);
    var cov := Texts(s.live);
    var r, out := Run(s, demand, cov, forceLines), Translate(s, demand, forceLines);
    Unpack(r, demand, cov);
    RunPlain(s, demand, cov, forceLines);
    JoinMarks(r.w, demand, r.live);
    FrozenPlain(r, out.w, Join(r.live));
    ReadingFlat(out.w, r.w.mem.Count(), inner);
    TranslateIsSound(s, demand, forceLines);
    ScanKept(demand, Flat(out.w, r.w.mem.Count()), NO_MATH);
    ScannedInMode(demand, Pieces(out.w, out.w.mem.Of(r.w.mem.Count()), r.w.mem.Count()));
  }

  lemma FreshPlain(s: State, demand: seq<nat>)
    requires Fresh(s, demand)
    ensures Lawful(s, demand, Texts(s.live)) && LostPlain(s.w)
  {
    FreshLawful(s, demand);
  }

  /** Before every backup, break_space, force, big_force, cancel and indent that stands between
      the originals the mode is text mode, and before every math_rel it is math mode. */
  ghost predicate CodesInMode(demand: seq<nat>, pieces: seq<Piece>) {
    forall k :: 0 <= k < |pieces| && pieces[k].Sign? ==>
      var c, mode := pieces[k].code, Scan(demand, Marks(pieces[..k]), NO_MATH);
      && (c == 0x8d || c == 0x8e || c == 0x8f || c == 0x90 || c == 0x89 || c == 0x8a ==> mode == 2)
      && (c == 0x86 ==> mode == 1)
  }

  lemma ScannedInMode(demand: seq<nat>, pieces: seq<Piece>)
    requires Scan(demand, Marks(pieces), NO_MATH) == NO_MATH
    ensures CodesInMode(demand, pieces)
  {
    forall k | 0 <= k < |pieces| && pieces[k].Sign?
      ensures var c, mode := pieces[k].code, Scan(demand, Marks(pieces[..k]), NO_MATH);
        Wants(c) != MAYBE_MATH ==> mode == Wants(c)
    {
      var before, after := pieces[..k], pieces[k..];
      assert pieces == before + after;
      MarksAppend(before, after);
      ScanAppend(demand, Marks(before), Marks(after), NO_MATH);
    }
  }

  /** Where there are no brackets and nothing is dropped, all scraps are read. */
  lemma AllRead(marks: seq<Mark>, live: seq<Scrap>)
    requires AllUnder(Covers(marks)) == Texts(live) && Conserved(marks, live)
    requires forall i :: 0 <= i < |live| ==> !IsAngle(live[i].cat)
    ensures Leaves(marks) == Texts(live)
  {
    CoversHolds(marks);
    forall m | m in Covers(marks)
      ensures m.Leaf?
    {
      assert m.Dropped? ==> m.text in Brackets(live);
    }
    LeavesCovered(marks);
  }

  lemma {:induction false} LeavesCovered(marks: seq<Mark>)
    requires forall m :: m in Covers(marks) ==> m.Leaf?
    ensures Leaves(marks) == AllUnder(Covers(marks))
  {
    if marks != [] {
      var rest, c := marks[1..], Covers(marks);
      assert forall m :: m in Covers(rest) ==> m in c;
      LeavesCovered(rest);
      if IsOriginal(marks[0]) {
        assert c[0] == marks[0] && c[1..] == Covers(rest);
        assert AllUnder(c) == [Under(c[0])] + AllUnder(c[1..]);
      }
    }
  }
}
