/** Whole runs of the parser: it stops on every input, and the text it returns is in
    the right mode throughout and accounts for every scrap of the input, in order. */
module Parse {
  import opened Productions
  import opened TokenMemory
  import opened Reductions
  import opened MathModes
  import opened ReductionLaws

  /** The production that the categories at the cursor select. */
  function Chosen(s: State, forceLines: bool): Production
    requires s.pp < |s.live| && s.live[s.pp].cat != Blank
    requires forall i :: 0 <= i < |s.live| ==> s.live[i].cat != Blank
  {
    Choose(s.CatAt(0), s.CatAt(1), s.CatAt(2), s.CatAt(3), forceLines)
  }

  lemma ChosenFits(s: State, forceLines: bool)
    requires Valid(s) && s.pp < |s.live|
    ensures var p := Chosen(s, forceLines);
      && Fits(s, p)
      && (!p.Idle? ==> p.d <= 1)
      && (p.Squash? || p.Build? || p.Reserve? ==> p.cat != Blank && p.off + p.k <= 4 && (IsAngle(p.cat) ==> p.k >= 2))
      && (p.Reserve? ==> p.k >= 2)
      && (p.Angle? ==> IsAngle(s.live[s.pp].cat))
      && ((p.Squash? || p.Build?) && p.k == 1 ==> Rank(p.cat) < Rank(s.live[s.pp + p.off].cat))
      && Inherits(s.CatAt(0), s.CatAt(1), s.CatAt(2), s.CatAt(3), p)
  {
    hide Choose, Inherits;
    assert Sane(s.CatAt(0), s.CatAt(1), s.CatAt(2), s.CatAt(3), Chosen(s, forceLines));
  }

  ghost function Step(s: State, forceLines: bool): State
    requires Valid(s) && s.pp < |s.live|
  {
    ChosenFits(s, forceLines);
    Fire(s, Chosen(s, forceLines))
  }

  // ----- termination

  function SumRank(live: seq<Scrap>): nat {
    if live == [] then 0 else Rank(live[0].cat) + SumRank(live[1..])
  }

  lemma {:induction false} SumRankUpdate(live: seq<Scrap>, i: nat, x: Scrap)
    requires i < |live|
    ensures SumRank(live[i := x]) == SumRank(live) - Rank(live[i].cat) + Rank(x.cat)
  {
    if i == 0 {
      assert live[0 := x][1..] == live[1..];
    } else {
      assert live[i := x][1..] == live[1..][i - 1 := x];
      SumRankUpdate(live[1..], i - 1, x);
    }
  }

  /** Every pass of the loop makes (live scraps, sum of ranks, scraps from the cursor on) smaller. */
  ghost predicate Smaller(t: State, s: State) {
    || |t.live| < |s.live|
    || (|t.live| == |s.live| && SumRank(t.live) < SumRank(s.live))
    || (|t.live| == |s.live| && SumRank(t.live) == SumRank(s.live) && |t.live| - t.pp < |s.live| - s.pp)
  }

  lemma ReduceShape(s: State, b: Builder, at: nat, k: nat, cat: Category, d: int)
    requires at + k <= |s.live| && k >= 1 && s.w.mem.Count() >= 0
    ensures var r := Reduce(s, b, at, k, cat, d);
      && |r.live| == |s.live| - k + 1
      && r.live[at].cat == cat && (k == 1 ==> r.live == s.live[at := r.live[at]])
  {
  }

  lemma FireShape(s: State, p: Production)
    requires Valid(s) && Fits(s, p)
    ensures var r := Fire(s, p);
      && (p.Idle? ==> r.live == s.live && r.pp == s.pp + 1)
      && (p.Angle? ==> |r.live| == |s.live| && r.live[s.pp].cat == Binop && r.live == s.live[s.pp := r.live[s.pp]])
      && (p.Reserve? ==> |r.live| == |s.live| - p.k + 1)
      && (p.Squash? || p.Build? ==>
            && |r.live| == |s.live| - p.k + 1
            && (p.k == 1 ==>
                  r.live[s.pp + p.off].cat == p.cat && r.live == s.live[s.pp + p.off := r.live[s.pp + p.off]]))
  {
    hide Emit, ApplyAll, Drop, Flat, MakeReserved, Freeze, Retouched;
    match p
    case Idle =>
    case Angle(g, d, _) =>
      var lost := s.w.lost[s.w.mem.Count() := Drop(Flat(s.w, s.live[s.pp].trans))];
      ReduceShape(s.(w := s.w.(lost := lost)), Builder([Ch(Code(g))], YES_MATH, YES_MATH), s.pp, 1, Binop, d);
    case Squash(off, k, cat, d, _) =>
      if k > 1 {
        ReduceShape(s, Emit(EMPTY, Plain(off, k), Window(s)), s.pp + off, k, cat, d);
      }
    case Build(before, parts, off, k, cat, d, _) =>
      ReduceShape(s, Emit(ApplyAll(EMPTY, before), parts, Window(s)), s.pp + off, k, cat, d);
    case Reserve(_, _, _, _, _, _, _, _) =>
  }

  lemma NoneBlank(s: State)
    requires Valid(s)
    ensures forall i :: 0 <= i < |s.live| ==> s.live[i].cat != Blank
  {
  }

  lemma AngleRank(c: Category)
    requires IsAngle(c)
    ensures Rank(Binop) < Rank(c)
  {
  }

  lemma StepShrinks(s: State, forceLines: bool)
    requires Valid(s) && s.pp < |s.live|
    ensures Smaller(Step(s, forceLines), s)
  {
    hide Chosen, Valid, Fire, Rank;
    NoneBlank(s);
    ChosenFits(s, forceLines);
    var p, t := Chosen(s, forceLines), Step(s, forceLines);
    FireShape(s, p);
    if p.Angle? {
      AngleRank(s.live[s.pp].cat);
      SumRankUpdate(s.live, s.pp, t.live[s.pp]);
    } else if !p.Idle? && p.k == 1 {
      SumRankUpdate(s.live, s.pp + p.off, t.live[s.pp + p.off]);
    }
  }

  /** The loop of `translate`, run until the cursor has passed the last scrap. */
  ghost function Run(s: State, demand: seq<nat>, cov: seq<nat>, forceLines: bool): (r: State)
    requires Lawful(s, demand, cov)
    ensures Lawful(r, demand, cov) && r.pp == |r.live| && r.w.originals == s.w.originals
    decreases |s.live|, SumRank(s.live), |s.live| - s.pp
  {
    if s.pp == |s.live| then s
    else
      ChosenFits(s, forceLines);
      FireKeeps(s, demand, cov, Chosen(s, forceLines));
      StepShrinks(s, forceLines);
      Run(Step(s, forceLines), demand, cov, forceLines)
  }

  // ----- the text that `translate` returns

  /** A scrap in the returned text, between dollar signs where it is in math mode. */
  function Lay(x: Scrap): seq<Token> {
    (if x.mathness % 4 == YES_MATH then [Ch(DOLLAR)] else []) + [Text(x.trans)]
    + (if x.mathness / 4 == YES_MATH then [Ch(DOLLAR)] else [])
  }

  /** The irreducible scraps, with spaces between them. */
  function Join(live: seq<Scrap>): seq<Token> {
    if live == [] then []
    else
      var n := |live| - 1;
      Join(live[..n]) + (if n > 0 then [Ch(Code(Space))] else []) + Lay(live[n])
  }

  lemma LayMarks(w: World, demand: seq<nat>, x: Scrap)
    requires w.mem.Valid() && x.trans < w.mem.Count() && ScrapSound(w, demand, x)
    ensures Composite(Lay(x), w.mem.Count())
    ensures var marks := FlatTokens(w, Lay(x), w.mem.Count());
      Scan(demand, marks, NO_MATH) == NO_MATH && Covers(marks) == Covers(Flat(w, x.trans))
  {
    hide Flat, Covers, Scan, FlatTokens, Sound;
    var n := w.mem.Count();
    var left, right := x.mathness % 4 == YES_MATH, x.mathness / 4 == YES_MATH;
    var text := [Text(x.trans)];
    DollarMarks(w, left, n);
    DollarMarks(w, right, n);
    FlatOne(w, Text(x.trans), n);
    FlatTokensAppend(w, Dollar(left), text, n);
    FlatTokensAppend(w, Dollar(left) + text, Dollar(right), n);
    assert Lay(x) == Dollar(left) + text + Dollar(right);
    BracketScan(demand, Flat(w, x.trans), x.mathness % 4, x.mathness / 4);
  }

  function Dollar(yes: bool): seq<Token> {
    if yes then [Ch(DOLLAR)] else []
  }

  function Toggles(yes: bool): seq<Mark> {
    if yes then [Toggle] else []
  }

  lemma DollarMarks(w: World, yes: bool, n: nat)
    requires w.mem.Valid() && n <= w.mem.Count()
    ensures Composite(Dollar(yes), n) && FlatTokens(w, Dollar(yes), n) == Toggles(yes)
  {
    if yes {
      FlatOne(w, Ch(DOLLAR), n);
    }
  }

  /** Between switches where they are needed, a sound text leads from text mode to text mode. */
  lemma BracketScan(demand: seq<nat>, marks: seq<Mark>, left: nat, right: nat)
    requires Sound(demand, marks, left, right)
    ensures var all := Toggles(left == YES_MATH) + marks + Toggles(right == YES_MATH);
            Scan(demand, all, NO_MATH) == NO_MATH && Covers(all) == Covers(marks)
  {
    var ma, mc := Toggles(left == YES_MATH), Toggles(right == YES_MATH);
    ScanAppend(demand, ma, marks, NO_MATH);
    ScanAppend(demand, ma + marks, mc, NO_MATH);
    CoversAppend(ma, marks);
    CoversAppend(ma + marks, mc);
    NoCovers();
    assert [Toggle][1..] == [];
  }

  lemma {:induction false} JoinMarks(w: World, demand: seq<nat>, live: seq<Scrap>)
    requires w.mem.Valid() && InMemory(live, w.mem) && AllSound(w, demand, live)
    ensures Composite(Join(live), w.mem.Count())
    ensures var marks := FlatTokens(w, Join(live), w.mem.Count());
      Scan(demand, marks, NO_MATH) == NO_MATH && Covers(marks) == CoversAll(w, live)
  {
    hide Lay, ScrapSound, AllSound, Flat, FlatTokens, Scan, Covers, CoversAll, Memory.Valid;
    if live == [] {
      JoinNone(w, demand);
    } else {
      var n := |live| - 1;
      Parts(w, demand, live, n, 1);
      JoinMarks(w, demand, live[..n]);
      LastSound(w, demand, live, n);
      LayMarks(w, demand, live[n]);
      JoinOne(w, demand, Join(live[..n]), if n > 0 then [Ch(Code(Space))] else [], Lay(live[n]));
      assert live == live[..n] + [live[n]];
      CoversAllAppend(w, live[..n], [live[n]]);
      CoversOne(w, live[n]);
    }
  }

  lemma JoinNone(w: World, demand: seq<nat>)
    requires w.mem.Valid()
    ensures FlatTokens(w, [], w.mem.Count()) == [] && Covers([]) == [] && CoversAll(w, []) == []
    ensures Scan(demand, [], NO_MATH) == NO_MATH
  {
  }

  lemma LastSound(w: World, demand: seq<nat>, live: seq<Scrap>, i: nat)
    requires w.mem.Valid() && InMemory(live, w.mem) && AllSound(w, demand, live) && i < |live|
    ensures ScrapSound(w, demand, live[i])
  {
  }

  lemma SpaceMarks(w: World, sp: seq<Token>, n: nat)
    requires w.mem.Valid() && n <= w.mem.Count() && (sp == [] || sp == [Ch(Code(Space))])
    ensures Composite(sp, n) && FlatTokens(w, sp, n) == []
  {
    if sp != [] {
      FlatOne(w, Ch(Code(Space)), n);
    }
  }

  lemma JoinOne(w: World, demand: seq<nat>, a: seq<Token>, sp: seq<Token>, b: seq<Token>)
    requires w.mem.Valid() && Composite(a, w.mem.Count()) && Composite(b, w.mem.Count())
    requires sp == [] || sp == [Ch(Code(Space))]
    ensures Composite(a + sp + b, w.mem.Count())
    ensures var n := w.mem.Count();
            var marks := FlatTokens(w, a + sp + b, n);
            var ma, mb := FlatTokens(w, a, n), FlatTokens(w, b, n);
      && Scan(demand, marks, NO_MATH) == Scan(demand, mb, Scan(demand, ma, NO_MATH))
      && Covers(marks) == Covers(ma) + Covers(mb)
  {
    hide Scan, Covers, Flat, FlatTokens;
    var n := w.mem.Count();
    SpaceMarks(w, sp, n);
    FlatTokensAppend(w, a, sp, n);
    FlatTokensAppend(w, a + sp, b, n);
    var ma, mb := FlatTokens(w, a, n), FlatTokens(w, b, n);
    assert FlatTokens(w, a + sp, n) == ma;
    ScanAppend(demand, ma, mb, NO_MATH);
    CoversAppend(ma, mb);
  }

  /** The scraps that C text is first made of: each is opaque, wants one mode or any at
      both ends, and has its own frozen text. */
  ghost predicate Fresh(s: State, demand: seq<nat>) {
    && Valid(s) && s.pp == 0
    && s.w.originals == s.w.mem.Count() && s.w.lost == map[]
    && |demand| == s.w.originals
    && forall i :: 0 <= i < |s.live| ==>
         demand[s.live[i].trans] <= 2 && s.live[i].mathness == 5 * demand[s.live[i].trans]
  }

  function Texts(live: seq<Scrap>): seq<nat> {
    seq(|live|, i requires 0 <= i < |live| => live[i].trans)
  }

  lemma FreshLawful(s: State, demand: seq<nat>)
    requires Fresh(s, demand)
    ensures Lawful(s, demand, Texts(s.live))
  {
    forall i | 0 <= i < |s.live|
      ensures ScrapSound(s.w, demand, s.live[i])
    {
      var t := s.live[i].trans;
      assert [Leaf(t)][1..] == [];
      assert Covers([Leaf(t)]) == [Leaf(t)];
      assert Scan(demand, [Leaf(t)], YES_MATH) == if demand[t] != NO_MATH then YES_MATH else 0;
      assert Scan(demand, [Leaf(t)], NO_MATH) == if demand[t] != YES_MATH then NO_MATH else 0;
      assert Toggle !in [Leaf(t)];
    }
    CoversFresh(s.w, s.live);
  }

  lemma {:induction false} CoversFresh(w: World, live: seq<Scrap>)
    requires w.mem.Valid() && InMemory(live, w.mem) && w.originals == w.mem.Count()
    ensures AllUnder(CoversAll(w, live)) == Texts(live)
  {
    if live != [] {
      CoversFresh(w, live[1..]);
      assert [Leaf(live[0].trans)][1..] == [];
      assert Covers([Leaf(live[0].trans)]) == [Leaf(live[0].trans)];
      assert Texts(live) == [live[0].trans] + Texts(live[1..]);
    }
  }

  /** What `translate` leaves: the final scraps and, as the last frozen text, its result. */
  ghost function Translate(s: State, demand: seq<nat>, forceLines: bool): State
    requires Fresh(s, demand)
  {
    FreshLawful(s, demand);
    var r := Run(s, demand, Texts(s.live), forceLines);
    r.(w := r.w.(mem := Freeze(r.w.mem, Join(r.live))))
  }

  lemma TranslateFlat(s: State, demand: seq<nat>, forceLines: bool)
    requires Fresh(s, demand)
    ensures Lawful(s, demand, Texts(s.live))
    ensures var r := Run(s, demand, Texts(s.live), forceLines);
            var out := Translate(s, demand, forceLines);
            var n := r.w.mem.Count();
      && r.w.mem.Valid() && Composite(Join(r.live), n)
      && out.w.mem.Valid() && out.w.mem.Count() == n + 1
      && Flat(out.w, n) == FlatTokens(r.w, Join(r.live), n)
  {
    FreshLawful(s, demand);
    var r := Run(s, demand, Texts(s.live), forceLines);
    var out := Translate(s, demand, forceLines);
    var n := r.w.mem.Count();
    JoinMarks(r.w, demand, r.live);
    FreezeKeeps(r, Join(r.live));
    assert Agree(r.w, out.w, n);
    FlatTokensAgree(r.w, out.w, n, Join(r.live), n);
  }

  /** On every input, the text that `translate` returns is read from text mode back to
      text mode, no scrap in it stands in the mode it does not want, and every input scrap
      is accounted for exactly once and in input order: as a leaf of the text or, if
      production 84 or 85 dropped it, on record.  Which scraps these productions drop is
      the subject of module Conservation. */
  lemma TranslateIsSound(s: State, demand: seq<nat>, forceLines: bool)
    requires Fresh(s, demand)
    ensures var r := Translate(s, demand, forceLines);
            var t := r.w.mem.Count() - 1;
      && r.w.mem.Valid() && t >= 0
      && Scan(demand, Flat(r.w, t), NO_MATH) == NO_MATH
      && AllUnder(Covers(Flat(r.w, t))) == Texts(s.live)
  {
    TranslateFlat(s, demand, forceLines);
    hide Translate, Flat, FlatTokens, Join;
    var r := Run(s, demand, Texts(s.live), forceLines);
    JoinMarks(r.w, demand, r.live);
  }
}
