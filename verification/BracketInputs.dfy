/** Inputs of which one can say beforehand what the productions for brackets drop: never
    anything else when no insertion, nor the near end of a preprocessor line, stands beside
    a bracket, and always when the text begins with a bracket and an insertion. */
module BracketInputs {
  import opened Productions
  import opened TokenMemory
  import opened Reductions
  import opened MathModes
  import opened ReductionLaws
  import opened Parse
  import opened Conservation

  // ----- inputs from which nothing else is dropped

  /** An insertion, or the end of one, directly before a bracket, or a bracket directly before an
      insertion or the beginning of one. */
  predicate Clash(c: Category, d: Category) {
    (Closes(c) && IsAngle(d)) || (IsAngle(c) && Opens(d))
  }

  predicate Calm(live: seq<Scrap>) {
    forall i :: 0 <= i < |live| - 1 ==> !Clash(live[i].cat, live[i + 1].cat)
  }

  ghost predicate OwnBrackets(s: State) {
    forall i :: 0 <= i < |s.live| && IsAngle(s.live[i].cat) ==> s.live[i].trans < s.w.originals
  }

  /** The first and last of the scraps that become one keep brackets away from it. */
  lemma CarriesCalm(s: State, r: State, at: nat, k: nat, cat: Category, marks: seq<Mark>)
    requires Carries(s, r, at, k, cat, marks) && Calm(s.live) && OwnBrackets(s) && !IsAngle(cat)
    requires (Opens(cat) ==> Opens(s.live[at].cat)) && (Closes(cat) ==> Closes(s.live[at + k - 1].cat))
    ensures Calm(r.live) && OwnBrackets(r)
  {
    hide Alike, MarksOf, Clash, Opens, Closes, IsAngle;
    forall i | 0 <= i < |r.live|
      ensures IsAngle(r.live[i].cat) ==> r.live[i].trans < r.w.originals
    {
      CarriesCat(s, r, at, k, cat, marks, i);
    }
    forall i | 0 <= i < |r.live| - 1
      ensures !Clash(r.live[i].cat, r.live[i + 1].cat)
    {
      CarriesCat(s, r, at, k, cat, marks, i);
      CarriesCat(s, r, at, k, cat, marks, i + 1);
      var j := if i < at then i else i + k - 1;
      assert !Clash(s.live[j].cat, s.live[j + 1].cat);
      ClashSame(s.live[j].cat, s.live[j + 1].cat, r.live[i].cat, r.live[i + 1].cat);
    }
  }

  /** Category c, as far as brackets, insertions and their ends are concerned, is d or less:
      to the right (as a left neighbour) or to the left. */
  predicate LikeLeft(c: Category, d: Category) {
    (IsAngle(c) ==> IsAngle(d)) && (Closes(c) ==> Closes(d))
  }

  predicate LikeRight(c: Category, d: Category) {
    (IsAngle(c) ==> IsAngle(d)) && (Opens(c) ==> Opens(d))
  }

  lemma ClashSame(c: Category, d: Category, c1: Category, d1: Category)
    requires !Clash(c, d) && LikeLeft(c1, c) && LikeRight(d1, d)
    ensures !Clash(c1, d1)
  {
  }

  /** What stands at place i after a step, and where it comes from. */
  lemma CarriesCat(s: State, r: State, at: nat, k: nat, cat: Category, marks: seq<Mark>, i: nat)
    requires Carries(s, r, at, k, cat, marks) && i < |r.live| && !IsAngle(cat) && OwnBrackets(s)
    requires (Opens(cat) ==> Opens(s.live[at].cat)) && (Closes(cat) ==> Closes(s.live[at + k - 1].cat))
    ensures var c := r.live[i].cat;
      && (IsAngle(c) ==> r.live[i].trans < r.w.originals)
      && LikeLeft(c, s.live[if i < at then i else i + k - 1].cat)
      && LikeRight(c, s.live[if i <= at then i else i + k - 1].cat)
  {
    var j := if i < at then i else i + k - 1;
    assert i != at ==> Alike(s.w, s.live[j], r.w, r.live[i]);
  }

  /** On such a state no step drops more than a bracket, and the next state is of the same kind. */
  lemma CalmStep(s: State, demand: seq<nat>, cov: seq<nat>, forceLines: bool)
    requires Lawful(s, demand, cov) && s.pp < |s.live| && Calm(s.live) && OwnBrackets(s)
    ensures Valid(s) && Valid(Step(s, forceLines)) && !DropsMore(s, forceLines)
    ensures Calm(Step(s, forceLines).live) && OwnBrackets(Step(s, forceLines))
  {
    hide Lawful, Chosen, Fire, Step, Carries, Holds, Valid, Inherits, Smaller, Fits;
    StepKeeps(s, demand, cov, forceLines);
    NoneBlank(s);
    var p, t := Chosen(s, forceLines), Step(s, forceLines);
    if !p.Idle? {
      FitsWidth(s, p);
      if !p.Angle? {
        CalmCats(s, p);
      }
      CarriesCalm(s, t, s.pp + Off(p), Width(p), Result(p), Holds(s, p));
    }
  }

  lemma CalmCats(s: State, p: Production)
    requires Calm(s.live) && Fits(s, p) && !p.Idle? && !p.Angle? && p.off + p.k <= 4
    requires Inherits(s.CatAt(0), s.CatAt(1), s.CatAt(2), s.CatAt(3), p)
    ensures var a := s.pp + p.off;
      && !IsAngle(p.cat) && (Opens(p.cat) ==> Opens(s.live[a].cat))
      && (Closes(p.cat) ==> Closes(s.live[a + p.k - 1].cat))
  {
    hide Inherits;
    FitsCats(s, p);
    var a := s.pp + p.off;
    assert a < |s.live| - 1 ==> !Clash(s.live[a].cat, s.live[a + 1].cat);
  }

  lemma {:induction false} CalmClean(s: State, demand: seq<nat>, cov: seq<nat>, forceLines: bool)
    requires Lawful(s, demand, cov) && Calm(s.live) && OwnBrackets(s)
    ensures Clean(s, demand, cov, forceLines)
    decreases |s.live|, SumRank(s.live), |s.live| - s.pp
  {
    if s.pp < |s.live| {
      StepKeeps(s, demand, cov, forceLines);
      CalmStep(s, demand, cov, forceLines);
      hide DropsMore, Step, Chosen, Lawful, Carries, Holds, Calm, OwnBrackets, Inherits;
      CalmClean(Step(s, forceLines), demand, cov, forceLines);
    }
  }

  /** From a calm input nothing but brackets is dropped. */
  lemma CalmConserves(s: State, demand: seq<nat>, forceLines: bool)
    requires Fresh(s, demand) && Distinct(s.live) && Calm(s.live)
    ensures var r := Translate(s, demand, forceLines);
            var t := r.w.mem.Count() - 1;
      && r.w.mem.Valid() && t >= 0 && Conserved(Flat(r.w, t), s.live)
  {
    hide Translate, Flat, Conserved, Lawful, Distinct;
    FreshLawful(s, demand);
    CleanConserves(s, demand, forceLines);
    CalmClean(s, demand, Texts(s.live), forceLines);
  }

  // ----- inputs from which something else is always dropped

  /** The cursor is at the first scrap, a bracket that has absorbed others, and nothing can take it away. */
  ghost predicate Doomed(s: State) {
    && s.pp == 0 && |s.live| > 0 && IsAngle(s.live[0].cat) && s.live[0].trans >= s.w.originals
    && forall i :: 0 <= i < |s.live| ==> !s.live[i].cat.EndArg?
  }

  /** At a bracket, insertions are absorbed first, and then it is replaced. */
  lemma AtBracket(s: State, forceLines: bool)
    requires Valid(s) && s.pp < |s.live| && IsAngle(s.CatAt(0)) && !s.CatAt(1).EndArg?
    ensures var p := Chosen(s, forceLines);
      if s.CatAt(1).Insert? then p == Squash(0, 2, s.CatAt(0), -2, 0)
      else if s.CatAt(2).Insert? then p == Squash(1, 2, s.CatAt(1), -1, 0)
      else if s.CatAt(3).Insert? then p == Squash(2, 2, s.CatAt(2), 0, 0)
      else p.Angle?
  {
  }

  lemma SquashCursor(s: State, p: Production)
    requires Valid(s) && Fits(s, p) && p.Squash? && p.k == 2 && s.pp == 0 && p.d <= 0
    ensures Fire(s, p).pp == 0
  {
  }

  /** The first scrap absorbs an insertion, or insertions further on are absorbed. */
  lemma AbsorbsOn(s: State, r: State, p: Production)
    requires p.Squash? && p.k == 2 && s.pp == 0 && r.pp == 0
    requires |s.live| > 0 && IsAngle(s.live[0].cat) && forall i :: 0 <= i < |s.live| ==> !s.live[i].cat.EndArg?
    requires p.off > 0 ==> s.live[0].trans >= s.w.originals
    requires Fits(s, p) && p.cat == s.live[p.off].cat
    requires s.w.mem.Valid() && InMemory(s.live[p.off..p.off + 2], s.w.mem)
    requires Carries(s, r, p.off, 2, p.cat, CoversAll(s.w, s.live[p.off..p.off + 2]))
    ensures Doomed(r)
  {
    hide MarksOf, CoversAll;
    forall i | 0 <= i < |r.live| && i != p.off
      ensures var j := if i < p.off then i else i + 1; Alike(s.w, s.live[j], r.w, r.live[i])
    {
    }
  }

  lemma {:induction false} DoomedRun(s: State, demand: seq<nat>, cov: seq<nat>, forceLines: bool)
    requires Lawful(s, demand, cov) && Doomed(s)
    ensures !Clean(s, demand, cov, forceLines)
    decreases |s.live|, SumRank(s.live), |s.live| - s.pp
  {
    hide Lawful, Fire, Chosen, Carries, Inherits, Fits, Valid;
    StepKeeps(s, demand, cov, forceLines);
    NoneBlank(s);
    AtBracket(s, forceLines);
    var p := Chosen(s, forceLines);
    if p.Squash? {
      DoomedStep(s, demand, cov, forceLines);
      DoomedRun(Step(s, forceLines), demand, cov, forceLines);
    }
  }

  lemma DoomedStep(s: State, demand: seq<nat>, cov: seq<nat>, forceLines: bool)
    requires Lawful(s, demand, cov) && s.pp == 0 && |s.live| > 0 && IsAngle(s.live[0].cat)
    requires forall i :: 0 <= i < |s.live| ==> !s.live[i].cat.EndArg?
    requires Valid(s) && Chosen(s, forceLines).Squash?
    requires s.live[0].trans >= s.w.originals || s.CatAt(1).Insert?
    ensures Doomed(Step(s, forceLines))
  {
    hide Lawful, Fire, Chosen, Carries, Inherits, CoversAll;
    StepKeeps(s, demand, cov, forceLines);
    NoneBlank(s);
    AtBracket(s, forceLines);
    var p := Chosen(s, forceLines);
    SquashCursor(s, p);
    AbsorbsOn(s, Step(s, forceLines), p);
  }

  /** Whenever a piece of C text begins with a bracket and an insertion after it, the
      insertion is dropped with the bracket, unless an argument ends somewhere. */
  lemma LeadingBracketDrops(s: State, demand: seq<nat>, forceLines: bool)
    requires Fresh(s, demand) && Distinct(s.live)
    requires |s.live| >= 2 && IsAngle(s.live[0].cat) && s.live[1].cat.Insert?
    requires forall i :: 0 <= i < |s.live| ==> !s.live[i].cat.EndArg?
    ensures var r := Translate(s, demand, forceLines);
            var t := r.w.mem.Count() - 1;
      && r.w.mem.Valid() && t >= 0 && !Conserved(Flat(r.w, t), s.live)
  {
    hide Translate, Flat, Conserved, Lawful, Distinct, Chosen, Fire, Carries, Inherits, Holds;
    FreshLawful(s, demand);
    CleanConserves(s, demand, forceLines);
    var cov := Texts(s.live);
    StepKeeps(s, demand, cov, forceLines);
    NoneBlank(s);
    AtBracket(s, forceLines);
    DoomedStep(s, demand, cov, forceLines);
    DoomedRun(Step(s, forceLines), demand, cov, forceLines);
  }

  // ----- an input that is not calm and from which nothing is dropped

  /** One squash, as far as categories and the cursor are concerned. */
  lemma SquashStep(s: State, demand: seq<nat>, cov: seq<nat>, forceLines: bool)
    requires Lawful(s, demand, cov) && s.pp < |s.live|
    requires forall i :: 0 <= i < |s.live| ==> s.live[i].cat != Blank
    requires Chosen(s, forceLines).Squash?
    ensures var p, t := Chosen(s, forceLines), Step(s, forceLines);
      && Valid(s) && s.pp + p.off + p.k <= |s.live| && p.k >= 1
      && Lawful(t, demand, cov) && t.pp == Clamp(s.pp + p.d) && |t.live| == |s.live| - p.k + 1
      && (forall i :: 0 <= i < s.pp + p.off && s.live[i].cat != Exp ==> t.live[i].cat == s.live[i].cat)
      && t.live[s.pp + p.off].cat == p.cat
  {
    hide Lawful, Fire, Chosen, Inherits, CoversAll, Holds, Valid, Fits, MarksOf, Smaller;
    StepKeeps(s, demand, cov, forceLines);
    StepIs(s, forceLines);
    var p, t := Chosen(s, forceLines), Step(s, forceLines);
    FireIs(s, p);
    FitsWidth(s, p);
    forall i | 0 <= i < s.pp + p.off && s.live[i].cat != Exp
      ensures t.live[i].cat == s.live[i].cat
    {
      assert Alike(s.w, s.live[i], t.w, t.live[i]);
    }
  }

  /** Production 29 saves a bracket that has absorbed an insertion: after a type name it opens a list
      of template arguments. */
  lemma SavedBracket(s: State, demand: seq<nat>, forceLines: bool)
    requires Fresh(s, demand) && Distinct(s.live) && |s.live| == 3
    requires s.live[0].cat == IntLike && s.live[1].cat == Prelangle && s.live[2].cat == Insert
    ensures !Calm(s.live)
    ensures var r := Translate(s, demand, forceLines);
            var t := r.w.mem.Count() - 1;
      && r.w.mem.Valid() && t >= 0 && Conserved(Flat(r.w, t), s.live)
  {
    hide Translate, Flat, Conserved, Lawful, Distinct, Fresh, Chosen, Step, Valid;
    assert Clash(s.live[1].cat, s.live[2].cat);
    CleanConserves(s, demand, forceLines);
    FreshStart(s, demand);
    var cov := Texts(s.live);
    SavedChoices(s, forceLines);
    SquashStep(s, demand, cov, forceLines);
    SavedTwo(Step(s, forceLines), demand, cov, forceLines);
    CleanStep(s, demand, cov, forceLines);
  }

  lemma FreshStart(s: State, demand: seq<nat>)
    requires Fresh(s, demand)
    ensures s.pp == 0 && Valid(s) && forall i :: 0 <= i < |s.live| ==> s.live[i].cat != Blank
  {
  }

  lemma SavedChoices(s: State, forceLines: bool)
    requires s.pp == 0 && |s.live| == 3
    requires s.live[0].cat == IntLike && s.live[1].cat == Prelangle && s.live[2].cat == Insert
    ensures Chosen(s, forceLines) == Squash(1, 2, Prelangle, -1, 0)
  {
  }

  lemma SavedTwo(s: State, demand: seq<nat>, cov: seq<nat>, forceLines: bool)
    requires Lawful(s, demand, cov) && s.pp == 0 && |s.live| == 2
    requires s.live[0].cat == IntLike && s.live[1].cat == Prelangle
    ensures Clean(s, demand, cov, forceLines)
  {
    hide Lawful, Step, Valid;
    assert Chosen(s, forceLines) == Squash(1, 1, Langle, 1, 29);
    SquashStep(s, demand, cov, forceLines);
    SavedLast(Step(s, forceLines), demand, cov, forceLines);
    CleanStep(s, demand, cov, forceLines);
  }

  lemma SavedLast(s: State, demand: seq<nat>, cov: seq<nat>, forceLines: bool)
    requires Lawful(s, demand, cov) && s.pp == 1 && |s.live| == 2
    requires s.live[0].cat == IntLike && s.live[1].cat == Langle
    ensures Clean(s, demand, cov, forceLines)
  {
    hide Lawful, Step, Valid, Fire;
    LawfulFacts(s, demand, cov);
    assert Chosen(s, forceLines) == Idle;
    StepKeeps(s, demand, cov, forceLines);
    StepIs(s, forceLines);
    FireIs(s, Idle);
    CleanStep(s, demand, cov, forceLines);
    CleanEnd(Step(s, forceLines), demand, cov, forceLines);
  }

  lemma CleanEnd(s: State, demand: seq<nat>, cov: seq<nat>, forceLines: bool)
    requires Lawful(s, demand, cov) && s.pp == |s.live|
    ensures Clean(s, demand, cov, forceLines)
  {
  }

  lemma CleanStep(s: State, demand: seq<nat>, cov: seq<nat>, forceLines: bool)
    requires Lawful(s, demand, cov) && s.pp < |s.live|
    ensures Valid(s) && Lawful(Step(s, forceLines), demand, cov)
    ensures Clean(s, demand, cov, forceLines) <==>
            !DropsMore(s, forceLines) && Clean(Step(s, forceLines), demand, cov, forceLines)
  {
    StepKeeps(s, demand, cov, forceLines);
    hide Lawful, Step, Chosen, Carries, Holds, Inherits;
  }
}
