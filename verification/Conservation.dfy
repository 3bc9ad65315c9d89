/** Which scraps of the input the returned text still holds.

    Productions 84 and 85 replace the whole text of a bracket by one sign, and
    insertions may have been absorbed into that bracket before.  Exactly the runs
    without such a step return a text that holds every scrap but brackets. */
module Conservation {
  import opened Productions
  import opened TokenMemory
  import opened Reductions
  import opened MathModes
  import opened ReductionLaws
  import opened Parse

  /** The texts of the brackets among the scraps. */
  function Brackets(live: seq<Scrap>): set<nat> {
    set i | 0 <= i < |live| && IsAngle(live[i].cat) :: live[i].trans
  }

  /** Every scrap has a text of its own. */
  predicate Distinct(live: seq<Scrap>) {
    forall i, j :: 0 <= i < j < |live| ==> live[i].trans != live[j].trans
  }

  /** The text holds every scrap that is no bracket, and nothing but brackets was dropped from it. */
  predicate Conserved(marks: seq<Mark>, live: seq<Scrap>) {
    && (forall i :: 0 <= i < |live| && !IsAngle(live[i].cat) ==> Leaf(live[i].trans) in marks)
    && (forall m :: m in marks && m.Dropped? ==> m.text in Brackets(live))
  }

  /** The next production replaces a bracket into which other scraps have been absorbed. */
  ghost predicate DropsMore(s: State, forceLines: bool)
    requires Valid(s) && s.pp < |s.live|
  {
    Chosen(s, forceLines).Angle? && s.live[s.pp].trans >= s.w.originals
  }

  /** No step of the run is such a production. */
  ghost predicate Clean(s: State, demand: seq<nat>, cov: seq<nat>, forceLines: bool)
    requires Lawful(s, demand, cov)
    decreases |s.live|, SumRank(s.live), |s.live| - s.pp
  {
    if s.pp == |s.live| then true
    else
      ChosenFits(s, forceLines);
      FireKeeps(s, demand, cov, Chosen(s, forceLines));
      StepShrinks(s, forceLines);
      !DropsMore(s, forceLines) && Clean(Step(s, forceLines), demand, cov, forceLines)
  }

  // ----- what a scrap of the run holds

  /** Something else than brackets is held. */
  ghost predicate Foreign(marks: seq<Mark>, brackets: set<nat>) {
    exists m :: m in marks && Under(m) !in brackets
  }

  ghost predicate OnlyDrops(marks: seq<Mark>, brackets: set<nat>) {
    forall m :: m in marks && m.Dropped? ==> m.text in brackets
  }

  /** A bracket that is an original is one of the brackets; one that has absorbed
      others, and every insertion and lproc, holds something else. */
  ghost predicate Tracks(w: World, x: Scrap, brackets: set<nat>) {
    && w.mem.Valid() && x.trans < w.mem.Count()
    && (IsAngle(x.cat) && x.trans < w.originals ==> x.trans in brackets)
    && (Opens(x.cat) || (IsAngle(x.cat) && x.trans >= w.originals) ==> Foreign(MarksOf(w, x), brackets))
  }

  ghost predicate Tracked(s: State, brackets: set<nat>) {
    forall i :: 0 <= i < |s.live| ==> Tracks(s.w, s.live[i], brackets)
  }

  ghost predicate NoLoss(s: State, brackets: set<nat>)
    requires s.w.mem.Valid() && InMemory(s.live, s.w.mem)
  {
    forall i :: 0 <= i < |s.live| ==> OnlyDrops(MarksOf(s.w, s.live[i]), brackets)
  }

  lemma {:induction false} CoversAllHolds(w: World, scraps: seq<Scrap>)
    requires w.mem.Valid() && InMemory(scraps, w.mem)
    ensures forall i, m :: 0 <= i < |scraps| && m in MarksOf(w, scraps[i]) ==> m in CoversAll(w, scraps)
    ensures forall m :: m in CoversAll(w, scraps) ==> exists i :: 0 <= i < |scraps| && m in MarksOf(w, scraps[i])
  {
    if scraps != [] {
      CoversAllHolds(w, scraps[1..]);
      forall m | m in CoversAll(w, scraps)
        ensures exists i :: 0 <= i < |scraps| && m in MarksOf(w, scraps[i])
      {
        if m !in MarksOf(w, scraps[0]) {
          assert m in CoversAll(w, scraps[1..]);
          var i :| 0 <= i < |scraps[1..]| && m in MarksOf(w, scraps[1..][i]);
          assert scraps[i + 1] == scraps[1..][i];
        }
      }
      forall i, m | 0 <= i < |scraps| && m in MarksOf(w, scraps[i])
        ensures m in CoversAll(w, scraps)
      {
        assert i > 0 ==> scraps[i] == scraps[1..][i - 1];
      }
    }
  }

  /** A scrap made of others holds something else than brackets when one of them does,
      and drops nothing but brackets when all of them do. */
  lemma Together(w: World, scraps: seq<Scrap>, brackets: set<nat>)
    requires w.mem.Valid() && InMemory(scraps, w.mem)
    ensures (exists i :: 0 <= i < |scraps| && Foreign(MarksOf(w, scraps[i]), brackets))
            ==> Foreign(CoversAll(w, scraps), brackets)
    ensures OnlyDrops(CoversAll(w, scraps), brackets)
            <==> forall i :: 0 <= i < |scraps| ==> OnlyDrops(MarksOf(w, scraps[i]), brackets)
  {
    hide MarksOf, CoversAll;
    CoversAllHolds(w, scraps);
  }

  /** A bracket that is dropped: harmless exactly when it is an original. */
  lemma DropTracked(w: World, x: Scrap, brackets: set<nat>)
    requires Tracks(w, x, brackets) && IsAngle(x.cat)
    ensures OnlyDrops(Drop(Flat(w, x.trans)), brackets)
            <==> OnlyDrops(MarksOf(w, x), brackets) && x.trans < w.originals
  {
    var marks, dropped := MarksOf(w, x), Drop(Flat(w, x.trans));
    assert |dropped| == |marks| by {
      assert |AllUnder(dropped)| == |AllUnder(marks)|;
    }
    assert forall i :: 0 <= i < |marks| ==> dropped[i] == Dropped(Under(marks[i]));
    CoversHolds(Flat(w, x.trans));
    if x.trans < w.originals {
      CoversSame([Leaf(x.trans)]);
    } else {
      var m :| m in marks && Under(m) !in brackets;
      var i :| 0 <= i < |marks| && marks[i] == m;
      assert dropped[i] in dropped;
    }
  }

  // ----- one step

  /** A step keeps track of brackets when the scrap it makes does. */
  lemma CarriesTracked(s: State, r: State, at: nat, k: nat, cat: Category, marks: seq<Mark>, brackets: set<nat>)
    requires Carries(s, r, at, k, cat, marks) && Tracked(s, brackets)
    requires IsAngle(cat) || Opens(cat) ==> Foreign(marks, brackets)
    ensures Tracked(r, brackets)
  {
    forall i | 0 <= i < |r.live|
      ensures Tracks(r.w, r.live[i], brackets)
    {
      if i != at {
        var j := if i < at then i else i + k - 1;
        assert Alike(s.w, s.live[j], r.w, r.live[i]) && Tracks(s.w, s.live[j], brackets);
      }
    }
  }

  lemma CarriesNoLoss(s: State, r: State, at: nat, k: nat, cat: Category, marks: seq<Mark>, brackets: set<nat>)
    requires s.w.mem.Valid() && InMemory(s.live, s.w.mem) && r.w.mem.Valid() && InMemory(r.live, r.w.mem)
    requires Carries(s, r, at, k, cat, marks)
    requires OnlyDrops(marks, brackets) <==>
             forall i :: at <= i < at + k ==> OnlyDrops(MarksOf(s.w, s.live[i]), brackets)
    ensures NoLoss(r, brackets) <==> NoLoss(s, brackets)
  {
    hide OnlyDrops;
    assert forall i :: 0 <= i < at ==> Alike(s.w, s.live[i], r.w, r.live[i]);
    assert forall i :: at + k <= i < |s.live| ==> Alike(s.w, s.live[i], r.w, r.live[i - k + 1]);
    if NoLoss(r, brackets) {
      forall i | 0 <= i < |s.live|
        ensures OnlyDrops(MarksOf(s.w, s.live[i]), brackets)
      {
        if i < at {
          assert OnlyDrops(MarksOf(r.w, r.live[i]), brackets);
        } else if at + k <= i {
          assert OnlyDrops(MarksOf(r.w, r.live[i - k + 1]), brackets);
        } else {
          assert OnlyDrops(MarksOf(r.w, r.live[at]), brackets);
        }
      }
    }
    if NoLoss(s, brackets) {
      forall i | 0 <= i < |r.live|
        ensures OnlyDrops(MarksOf(r.w, r.live[i]), brackets)
      {
        var j := if i <= at then i else i + k - 1;
        assert OnlyDrops(MarksOf(s.w, s.live[j]), brackets);
      }
    }
  }

  /** What one pass of the loop is known to do. */
  lemma StepKeeps(s: State, demand: seq<nat>, cov: seq<nat>, forceLines: bool)
    requires Lawful(s, demand, cov) && s.pp < |s.live|
    ensures Valid(s) && s.w.mem.Valid() && InMemory(s.live, s.w.mem)
    ensures var p, t := Chosen(s, forceLines), Step(s, forceLines);
      && Valid(t) && t.w.mem.Valid() && InMemory(t.live, t.w.mem)
      && Lawful(t, demand, cov) && Smaller(t, s)
      && Fits(s, p) && (p.Idle? || p.Angle? || p.off + p.k <= 4)
      && Inherits(s.CatAt(0), s.CatAt(1), s.CatAt(2), s.CatAt(3), p)
      && (p.Idle? ==> t.live == s.live && t.w == s.w)
      && (p.Angle? ==> IsAngle(s.live[s.pp].cat))
      && (!p.Idle? ==> Carries(s, t, s.pp + Off(p), Width(p), Result(p), Holds(s, p)))
  {
    hide Lawful, Chosen, Fire, Inherits, Holds, Carries, Valid, Smaller, Fits, Step, Memory.Valid;
    LawfulFacts(s, demand, cov);
    ValidFacts(s);
    NoneBlank(s);
    var p := Chosen(s, forceLines);
    ChosenFits(s, forceLines);
    StepIs(s, forceLines);
    FireKeeps(s, demand, cov, p);
    StepShrinks(s, forceLines);
    LawfulFacts(Fire(s, p), demand, cov);
    ValidFacts(Fire(s, p));
    FireIdle(s, p);
  }

  lemma StepIs(s: State, forceLines: bool)
    requires Valid(s) && s.pp < |s.live|
    ensures Fits(s, Chosen(s, forceLines)) && Step(s, forceLines) == Fire(s, Chosen(s, forceLines))
  {
    hide Chosen, Fire;
    ChosenFits(s, forceLines);
  }

  lemma FireIdle(s: State, p: Production)
    requires Valid(s) && Fits(s, p)
    ensures p.Idle? ==> Fire(s, p).live == s.live && Fire(s, p).w == s.w
  {
  }

  /** Brackets, insertions and lprocs come from insertions and lprocs. */
  lemma HoldsForeign(s: State, p: Production, brackets: set<nat>)
    requires Valid(s) && Fits(s, p) && !p.Idle? && (p.Angle? || p.off + p.k <= 4) && Tracked(s, brackets)
    requires Inherits(s.CatAt(0), s.CatAt(1), s.CatAt(2), s.CatAt(3), p)
    ensures IsAngle(Result(p)) || Opens(Result(p)) ==> Foreign(Holds(s, p), brackets)
  {
    hide Valid, Fits, Inherits, Foreign, CoversAll, MarksOf, IsAngle, Opens, Beside;
    ValidFacts(s);
    FitsWidth(s, p);
    if !p.Angle? && (IsAngle(p.cat) || Opens(p.cat)) {
      var at := s.pp + p.off;
      FitsCats(s, p);
      if IsAngle(p.cat) {
        BesideOpens(s.live[at].cat, s.live[at + 1].cat);
      }
      OneForeign(s, at, p.k, if Opens(s.live[at].cat) then 0 else 1, brackets);
    } else if p.Angle? {
      BinopPlain();
    }
  }

  lemma BinopPlain()
    ensures !IsAngle(Binop) && !Opens(Binop)
  {
  }

  lemma FitsWidth(s: State, p: Production)
    requires Fits(s, p)
    ensures s.pp + Off(p) + Width(p) <= |s.live|
  {
  }

  lemma OneForeign(s: State, at: nat, k: nat, i: nat, brackets: set<nat>)
    requires s.w.mem.Valid() && InMemory(s.live, s.w.mem) && Tracked(s, brackets)
    requires i < k && at + k <= |s.live| && Opens(s.live[at + i].cat)
    ensures Foreign(CoversAll(s.w, s.live[at..at + k]), brackets)
  {
    hide Foreign, CoversAll, MarksOf;
    var mid := s.live[at..at + k];
    assert mid[i] == s.live[at + i] && Tracks(s.w, s.live[at + i], brackets);
    Together(s.w, mid, brackets);
  }

  /** The categories from which a production makes brackets, insertions, lprocs and rprocs. */
  lemma FitsCats(s: State, p: Production)
    requires Fits(s, p) && !p.Idle? && !p.Angle?
    requires Inherits(s.CatAt(0), s.CatAt(1), s.CatAt(2), s.CatAt(3), p) && p.off + p.k <= 4
    ensures var a := s.pp + p.off;
      && p.k >= 1 && a + p.k <= |s.live|
      && (IsAngle(p.cat) ==> p.k == 2 && Beside(s.live[a].cat, s.live[a + 1].cat))
      && (Opens(p.cat) ==> Opens(s.live[a].cat))
      && (Closes(p.cat) ==> Closes(s.live[a + p.k - 1].cat))
  {
    var c0, c1, c2, c3 := s.CatAt(0), s.CatAt(1), s.CatAt(2), s.CatAt(3);
    var a := s.pp + p.off;
    assert s.live[a].cat == At(c0, c1, c2, c3, p.off);
    assert p.k >= 2 ==> s.live[a + 1].cat == At(c0, c1, c2, c3, p.off + 1);
    assert s.live[a + p.k - 1].cat == At(c0, c1, c2, c3, p.off + p.k - 1);
  }

  /** An insertion and a bracket side by side. */
  predicate Beside(c: Category, d: Category) {
    (c.Insert? && IsAngle(d)) || (IsAngle(c) && d.Insert?)
  }

  lemma BesideOpens(c: Category, d: Category)
    requires Beside(c, d)
    ensures Opens(c) || Opens(d)
  {
  }

  lemma StepTracked(s: State, demand: seq<nat>, cov: seq<nat>, forceLines: bool, brackets: set<nat>)
    requires Lawful(s, demand, cov) && s.pp < |s.live| && Tracked(s, brackets)
    ensures Valid(s) && Tracked(Step(s, forceLines), brackets)
  {
    hide Lawful, Chosen, Fire, Step, Tracked, Carries, Holds, Foreign, Valid, Inherits, Smaller;
    StepKeeps(s, demand, cov, forceLines);
    NoneBlank(s);
    var p, t := Chosen(s, forceLines), Step(s, forceLines);
    if p.Idle? {
      SameTracked(s, t, brackets);
    } else {
      HoldsForeign(s, p, brackets);
      CarriesTracked(s, t, s.pp + Off(p), Width(p), Result(p), Holds(s, p), brackets);
    }
  }

  lemma SameTracked(s: State, t: State, brackets: set<nat>)
    requires Tracked(s, brackets) && t.live == s.live && t.w == s.w
    ensures Tracked(t, brackets)
  {
  }

  /** A step drops a scrap that is no bracket exactly when it is a bracket production on a bracket that
      has absorbed others. */
  lemma StepDrops(s: State, demand: seq<nat>, cov: seq<nat>, forceLines: bool, brackets: set<nat>)
    requires Lawful(s, demand, cov) && s.pp < |s.live| && Tracked(s, brackets)
    ensures Valid(s) && Valid(Step(s, forceLines))
    ensures NoLoss(Step(s, forceLines), brackets) <==> NoLoss(s, brackets) && !DropsMore(s, forceLines)
  {
    hide Lawful, Chosen, Fire, Step, Carries, Holds, Foreign, Valid, Inherits, Tracks, Smaller, NoLoss;
    StepKeeps(s, demand, cov, forceLines);
    NoneBlank(s);
    var p, t := Chosen(s, forceLines), Step(s, forceLines);
    if p.Idle? {
      SameLoss(s, t, brackets);
    } else if p.Angle? {
      AngleDrops(s, t, p, brackets);
    } else {
      PlainHolds(s, p, brackets);
      CarriesNoLoss(s, t, s.pp + Off(p), Width(p), Result(p), Holds(s, p), brackets);
    }
  }

  lemma SameLoss(s: State, t: State, brackets: set<nat>)
    requires s.w.mem.Valid() && InMemory(s.live, s.w.mem) && t.live == s.live && t.w == s.w
    ensures NoLoss(t, brackets) <==> NoLoss(s, brackets)
  {
  }

  lemma PlainHolds(s: State, p: Production, brackets: set<nat>)
    requires Valid(s) && Fits(s, p) && !p.Idle? && !p.Angle?
    ensures var at := s.pp + Off(p);
      OnlyDrops(Holds(s, p), brackets)
      <==> forall i :: at <= i < at + Width(p) ==> OnlyDrops(MarksOf(s.w, s.live[i]), brackets)
  {
    hide OnlyDrops, MarksOf, CoversAll;
    var at := s.pp + Off(p);
    var mid := s.live[at..at + Width(p)];
    Together(s.w, mid, brackets);
    assert forall i :: at <= i < at + Width(p) ==> mid[i - at] == s.live[i];
  }

  lemma AngleDrops(s: State, t: State, p: Production, brackets: set<nat>)
    requires Valid(s) && p.Angle? && s.pp < |s.live| && IsAngle(s.live[s.pp].cat) && Tracked(s, brackets)
    requires s.w.mem.Valid() && InMemory(s.live, s.w.mem) && t.w.mem.Valid() && InMemory(t.live, t.w.mem)
    requires Carries(s, t, s.pp, 1, Binop, Holds(s, p))
    ensures NoLoss(t, brackets) <==> NoLoss(s, brackets) && s.live[s.pp].trans < s.w.originals
  {
    hide OnlyDrops, Tracks, Carries, Flat, Drop, MarksOf;
    var x, marks := s.live[s.pp], Holds(s, p);
    assert Tracks(s.w, x, brackets);
    DropTracked(s.w, x, brackets);
    if x.trans < s.w.originals {
      CarriesNoLoss(s, t, s.pp, 1, Binop, marks, brackets);
    } else {
      CarriesAt(s, t, s.pp, 1, Binop, marks);
    }
  }

  lemma CarriesAt(s: State, r: State, at: nat, k: nat, cat: Category, marks: seq<Mark>)
    requires Carries(s, r, at, k, cat, marks) && r.w.mem.Valid() && InMemory(r.live, r.w.mem)
    ensures at < |r.live| && MarksOf(r.w, r.live[at]) == marks
  {
  }

  // ----- the whole run

  lemma {:induction false} RunDrops(s: State, demand: seq<nat>, cov: seq<nat>, forceLines: bool, brackets: set<nat>)
    requires Lawful(s, demand, cov) && Tracked(s, brackets)
    ensures var r := Run(s, demand, cov, forceLines);
      && s.w.mem.Valid() && InMemory(s.live, s.w.mem) && r.w.mem.Valid() && InMemory(r.live, r.w.mem)
      && (NoLoss(r, brackets) <==> NoLoss(s, brackets) && Clean(s, demand, cov, forceLines))
    decreases |s.live|, SumRank(s.live), |s.live| - s.pp
  {
    if s.pp < |s.live| {
      StepKeeps(s, demand, cov, forceLines);
      StepTracked(s, demand, cov, forceLines, brackets);
      StepDrops(s, demand, cov, forceLines, brackets);
      hide NoLoss, DropsMore, Step, Chosen, Lawful, Carries, Holds, Tracked, Inherits;
      RunDrops(Step(s, forceLines), demand, cov, forceLines, brackets);
    }
  }

  lemma FreshTracked(s: State, demand: seq<nat>)
    requires Fresh(s, demand) && Distinct(s.live)
    ensures Tracked(s, Brackets(s.live)) && s.w.mem.Valid() && InMemory(s.live, s.w.mem)
    ensures NoLoss(s, Brackets(s.live))
  {
    forall i | 0 <= i < |s.live|
      ensures Tracks(s.w, s.live[i], Brackets(s.live)) && OnlyDrops(MarksOf(s.w, s.live[i]), Brackets(s.live))
    {
      var x := s.live[i];
      CoversSame([Leaf(x.trans)]);
      assert Leaf(x.trans) in MarksOf(s.w, x);
    }
  }

  /** What the returned text holds is what the irreducible scraps hold. */
  lemma ResultMarks(s: State, demand: seq<nat>, forceLines: bool)
    requires Fresh(s, demand)
    ensures Lawful(s, demand, Texts(s.live))
    ensures var r := Run(s, demand, Texts(s.live), forceLines); var out := Translate(s, demand, forceLines);
            var n := r.w.mem.Count();
      && r.w.mem.Valid() && InMemory(r.live, r.w.mem) && out.w.mem.Valid() && out.w.mem.Count() == n + 1
      && Covers(Flat(out.w, n)) == CoversAll(r.w, r.live)
  {
    TranslateFlat(s, demand, forceLines);
    hide Translate, Flat, FlatTokens, Join;
    var r := Run(s, demand, Texts(s.live), forceLines);
    JoinMarks(r.w, demand, r.live);
  }

  /** Every scrap but brackets is in the text exactly when nothing but brackets was dropped. */
  lemma DropsOrHolds(marks: seq<Mark>, live: seq<Scrap>)
    requires Distinct(live) && AllUnder(Covers(marks)) == Texts(live)
    ensures Conserved(marks, live) <==> OnlyDrops(Covers(marks), Brackets(live))
  {
    var c := Covers(marks);
    CoversHolds(marks);
    assert |AllUnder(c)| == |Texts(live)|;
    forall i | 0 <= i < |live|
      ensures Under(c[i]) == live[i].trans
    {
      assert AllUnder(c)[i] == Texts(live)[i];
    }
    if OnlyDrops(c, Brackets(live)) {
      forall i | 0 <= i < |live| && !IsAngle(live[i].cat)
        ensures Leaf(live[i].trans) in marks
      {
        assert c[i] in c && IsOriginal(c[i]);
      }
    }
  }

  /** On every input whose scraps have texts of their own, the text that `translate`
      returns holds every scrap but brackets, and nothing but brackets is dropped from
      it, exactly when the run is clean. */
  lemma CleanConserves(s: State, demand: seq<nat>, forceLines: bool)
    requires Fresh(s, demand) && Distinct(s.live)
    ensures Lawful(s, demand, Texts(s.live))
    ensures var r := Translate(s, demand, forceLines);
            var t := r.w.mem.Count() - 1;
      && r.w.mem.Valid() && t >= 0
      && (Conserved(Flat(r.w, t), s.live) <==> Clean(s, demand, Texts(s.live), forceLines))
  {
    hide Translate, Flat, Lawful, Fresh, Distinct, Tracked, NoLoss, Conserved, OnlyDrops, Clean, Covers, CoversAll,
      Scan;
    FreshTracked(s, demand);
    ResultMarks(s, demand, forceLines);
    TranslateIsSound(s, demand, forceLines);
    var brackets, cov := Brackets(s.live), Texts(s.live);
    RunDrops(s, demand, cov, forceLines, brackets);
    var r := Run(s, demand, cov, forceLines);
    DropsOrHolds(Flat(Translate(s, demand, forceLines).w, r.w.mem.Count()), s.live);
    LossAll(r, brackets);
  }

  lemma LossAll(r: State, brackets: set<nat>)
    requires r.w.mem.Valid() && InMemory(r.live, r.w.mem)
    ensures NoLoss(r, brackets) <==> OnlyDrops(CoversAll(r.w, r.live), brackets)
  {
    Together(r.w, r.live, brackets);
  }
}
