/** What every production keeps: well-formed memory, the right mode at both ends of
    every scrap, and the original scraps, each once and in input order. */
module ReductionLaws {
  import opened Productions
  import opened TokenMemory
  import opened Reductions
  import opened MathModes

  /** Freezing a text leaves all earlier texts as they were. */
  lemma FreezeKeeps(s: State, toks: seq<Token>)
    requires Valid(s) && Composite(toks, s.w.mem.Count())
    ensures var m := Freeze(s.w.mem, toks); var n := s.w.mem.Count();
      && m.Valid() && (toks != [] ==> Readable(m))
      && m.Count() == n + 1 && m.start[n + 1] == |m.tok| && m.Of(n) == toks
      && (forall t :: 0 <= t < n ==> m.Of(t) == s.w.mem.Of(t))
  {
    FreezeMemory(s.w.mem, toks);
  }

  lemma FreezeMemory(o: Memory, toks: seq<Token>)
    requires Readable(o) && o.start[o.Count()] == |o.tok| && Composite(toks, o.Count())
    ensures var m := Freeze(o, toks); var n := o.Count();
      && m.Valid() && (toks != [] ==> Readable(m))
      && m.Count() == n + 1 && m.start[n + 1] == |m.tok| && m.Of(n) == toks
      && (forall t :: 0 <= t < n ==> m.Of(t) == o.Of(t))
  {
    FreezeValid(o, toks);
    var m, n := Freeze(o, toks), o.Count();
    assert m.start[n] == |o.tok|;
    forall t | 0 <= t < n
      ensures m.Of(t) == o.Of(t)
    {
      assert m.start[t] == o.start[t] && m.start[t + 1] == o.start[t + 1] <= o.start[n];
    }
  }

  lemma FreezeValid(o: Memory, toks: seq<Token>)
    requires Readable(o) && o.start[o.Count()] == |o.tok| && Composite(toks, o.Count())
    ensures Freeze(o, toks).Valid() && (toks != [] ==> Readable(Freeze(o, toks)))
  {
    var m, n := Freeze(o, toks), o.Count();
    assert m.start[n] == |o.tok|;
    assert forall t :: 0 <= t <= n ==> m.start[t] == o.start[t];
    forall t, j | 0 <= t < m.Count() && m.start[t] <= j < m.start[t + 1]
      ensures RefersBelow(m.tok[j], t)
    {
      if t == n {
        assert m.tok[j] == toks[j - |o.tok|];
      } else {
        assert m.start[t + 1] <= o.start[n];
        assert RefersBelow(o.tok[j], t);
      }
    }
  }

  lemma {:induction false} CoversAllAgree(w: World, v: World, n: nat, scraps: seq<Scrap>)
    requires Agree(w, v, n) && forall i :: 0 <= i < |scraps| ==> scraps[i].trans < n
    ensures CoversAll(w, scraps) == CoversAll(v, scraps)
  {
    if scraps != [] {
      FlatAgree(w, v, n, scraps[0].trans);
      CoversAllAgree(w, v, n, scraps[1..]);
    }
  }

  lemma AllSoundAgree(w: World, v: World, demand: seq<nat>, n: nat, scraps: seq<Scrap>)
    requires Agree(w, v, n) && forall i :: 0 <= i < |scraps| ==> scraps[i].trans < n
    requires AllSound(w, demand, scraps)
    ensures AllSound(v, demand, scraps)
  {
    forall i | 0 <= i < |scraps|
      ensures ScrapSound(v, demand, scraps[i])
    {
      assert ScrapSound(w, demand, scraps[i]);
      FlatAgree(w, v, n, scraps[i].trans);
    }
  }

  /** The worlds in which the text about to be frozen may be recorded as a replacement. */
  ghost predicate Extends(w: World, v: World) {
    && v.mem == w.mem && v.originals == w.originals
    && (forall t :: t in v.lost ==> v.originals <= t <= v.mem.Count())
    && (forall t :: 0 <= t < w.mem.Count() ==> (t in w.lost <==> t in v.lost))
    && (forall t :: t in w.lost && t in v.lost ==> v.lost[t] == w.lost[t])
  }

  /** What the text about to be frozen stands for. */
  ghost function NewMarks(v: World, toks: seq<Token>): seq<Mark>
    requires v.mem.Valid() && Composite(toks, v.mem.Count())
  {
    if v.mem.Count() in v.lost then v.lost[v.mem.Count()] else FlatTokens(v, toks, v.mem.Count())
  }

  lemma FreezeFlat(s: State, v: World, toks: seq<Token>)
    requires Valid(s) && Extends(s.w, v) && toks != [] && Composite(toks, s.w.mem.Count())
    ensures var u := v.(mem := Freeze(v.mem, toks));
      && Readable(u.mem) && u.mem.Count() == v.mem.Count() + 1
      && Agree(s.w, u, s.w.mem.Count())
      && Flat(u, v.mem.Count()) == NewMarks(v, toks)
  {
    var u, n := v.(mem := Freeze(v.mem, toks)), s.w.mem.Count();
    FreezeKeeps(s, toks);
    assert Agree(v, u, n) && Agree(s.w, u, n);
    FlatTokensAgree(v, u, n, toks, n);
  }

  lemma ReduceValid(s: State, v: World, b: Builder, at: nat, k: nat, cat: Category, d: int)
    requires Valid(s) && Extends(s.w, v)
    requires s.pp <= at && at + k <= |s.live| && k >= 1 && d <= 1 && cat != Blank
    requires b.toks != [] && Composite(b.toks, s.w.mem.Count())
    ensures Valid(Reduce(s.(w := v), b, at, k, cat, d))
    ensures Reduce(s.(w := v), b, at, k, cat, d).pp <= |s.live| - k + 1
  {
    var r := Reduce(s.(w := v), b, at, k, cat, d);
    var m, n := s.w.mem, s.w.mem.Count();
    FreezeKeeps(s, b.toks);
    forall t, j | r.w.originals <= t < n + 1 && r.w.mem.start[t] <= j < r.w.mem.start[t + 1]
      ensures r.w.mem.tok[j].Ch? || r.w.mem.tok[j].Text?
    {
      assert r.w.mem.tok[j] == r.w.mem.Of(t)[j - r.w.mem.start[t]];
      if t < n {
        assert m.start[t] <= j < m.start[t + 1];
      }
    }
  }

  lemma SoundInsert(w: World, demand: seq<nat>, before: seq<Scrap>, x: Scrap, after: seq<Scrap>)
    requires w.mem.Valid() && InMemory(before, w.mem) && InMemory(after, w.mem) && x.trans < w.mem.Count()
    requires AllSound(w, demand, before) && AllSound(w, demand, after)
    requires ScrapSound(w, demand, x)
    ensures AllSound(w, demand, before + [x] + after)
  {
  }

  lemma CoversInsert(w: World, before: seq<Scrap>, x: Scrap, after: seq<Scrap>)
    requires w.mem.Valid() && InMemory(before, w.mem) && InMemory(after, w.mem) && x.trans < w.mem.Count()
    ensures CoversAll(w, before + [x] + after)
         == CoversAll(w, before) + Covers(Flat(w, x.trans)) + CoversAll(w, after)
  {
    CoversAllAppend(w, before, [x]);
    CoversAllAppend(w, before + [x], after);
    assert [x][1..] == [];
    assert CoversAll(w, [x]) == Covers(Flat(w, x.trans)) + CoversAll(w, [x][1..]);
  }

  lemma Parts(w: World, demand: seq<nat>, live: seq<Scrap>, at: nat, k: nat)
    requires w.mem.Valid() && InMemory(live, w.mem) && at + k <= |live| && AllSound(w, demand, live)
    ensures InMemory(live[..at], w.mem) && InMemory(live[at..at + k], w.mem) && InMemory(live[at + k..], w.mem)
    ensures AllSound(w, demand, live[..at]) && AllSound(w, demand, live[at..at + k])
    ensures AllSound(w, demand, live[at + k..])
  {
  }

  /** One new scrap between scraps that stand for what they stood for before. */
  lemma Insert1(w: World, u: World, demand: seq<nat>, before: seq<Scrap>, x: Scrap, after: seq<Scrap>)
    requires w.mem.Valid() && Agree(w, u, w.mem.Count()) && InMemory(before, w.mem) && InMemory(after, w.mem)
    requires AllSound(w, demand, before) && AllSound(w, demand, after)
    requires u.mem.Count() == w.mem.Count() + 1 && x.trans == w.mem.Count()
    requires ScrapSound(u, demand, x)
    ensures InMemory(before + [x] + after, u.mem) && AllSound(u, demand, before + [x] + after)
    ensures CoversAll(u, before + [x] + after)
         == CoversAll(w, before) + Covers(Flat(u, x.trans)) + CoversAll(w, after)
  {
    hide AllSound, CoversAll, ScrapSound, Flat;
    AllSoundAgree(w, u, demand, w.mem.Count(), before);
    AllSoundAgree(w, u, demand, w.mem.Count(), after);
    CoversAllAgree(w, u, w.mem.Count(), before);
    CoversAllAgree(w, u, w.mem.Count(), after);
    SoundInsert(u, demand, before, x, after);
    CoversInsert(u, before, x, after);
  }

  /** The state is well formed, every scrap is sound, and the live scraps cover `cov`. */
  ghost predicate Lawful(s: State, demand: seq<nat>, cov: seq<nat>) {
    && Valid(s) && s.pp <= |s.live|
    && AllSound(s.w, demand, s.live)
    && AllUnder(CoversAll(s.w, s.live)) == cov
  }

  lemma UnderAppend(a: seq<Mark>, b: seq<Mark>, c: seq<Mark>)
    ensures AllUnder(a + b + c) == AllUnder(a) + AllUnder(b) + AllUnder(c)
  {
  }

  lemma Split(w: World, live: seq<Scrap>, at: nat, k: nat)
    requires w.mem.Valid() && InMemory(live, w.mem) && at + k <= |live|
    ensures InMemory(live[..at], w.mem) && InMemory(live[at..at + k], w.mem) && InMemory(live[at + k..], w.mem)
    ensures CoversAll(w, live)
         == CoversAll(w, live[..at]) + CoversAll(w, live[at..at + k]) + CoversAll(w, live[at + k..])
  {
    assert live == live[..at] + live[at..at + k] + live[at + k..];
    CoversAllAppend(w, live[..at], live[at..at + k]);
    CoversAllAppend(w, live[..at] + live[at..at + k], live[at + k..]);
  }

  lemma {:induction false} CoversLong(w: World, demand: seq<nat>, scraps: seq<Scrap>)
    requires w.mem.Valid() && InMemory(scraps, w.mem) && AllSound(w, demand, scraps)
    ensures |CoversAll(w, scraps)| >= |scraps|
  {
    if scraps != [] {
      assert ScrapSound(w, demand, scraps[0]);
      CoversLong(w, demand, scraps[1..]);
    }
  }

  lemma Unpack(s: State, demand: seq<nat>, cov: seq<nat>)
    requires Lawful(s, demand, cov)
    ensures Valid(s) && s.pp <= |s.live| && s.w.mem.Valid() && s.w.mem.Count() >= 0 && InMemory(s.live, s.w.mem)
    ensures AllSound(s.w, demand, s.live) && AllUnder(CoversAll(s.w, s.live)) == cov
  {
  }

  lemma Pack(s: State, demand: seq<nat>, cov: seq<nat>)
    requires Valid(s) && s.pp <= |s.live| && s.w.mem.Valid() && InMemory(s.live, s.w.mem)
    requires AllSound(s.w, demand, s.live) && AllUnder(CoversAll(s.w, s.live)) == cov
    ensures Lawful(s, demand, cov)
  {
  }

  /** The scrap whose text is the one just built is sound. */
  lemma NewScrapSound(s: State, v: World, demand: seq<nat>, b: Builder, at: nat, k: nat, cat: Category)
    requires Valid(s) && AllSound(s.w, demand, s.live) && Extends(s.w, v)
    requires at + k <= |s.live| && k >= 1 && (IsAngle(cat) ==> k >= 2)
    requires b.toks != [] && Composite(b.toks, s.w.mem.Count())
    requires Sound(demand, NewMarks(v, b.toks), b.init, b.cur)
    requires InMemory(s.live[at..at + k], s.w.mem)
    requires AllUnder(Covers(NewMarks(v, b.toks))) == AllUnder(CoversAll(s.w, s.live[at..at + k]))
    ensures var u := v.(mem := Freeze(v.mem, b.toks)); var x := Scrap(cat, 4 * b.cur + b.init, v.mem.Count());
      && v.mem == s.w.mem && Readable(u.mem) && u.mem.Valid()
      && u.mem.Count() == s.w.mem.Count() + 1 && Agree(s.w, u, s.w.mem.Count())
      && Flat(u, x.trans) == NewMarks(v, b.toks)
      && ScrapSound(u, demand, x)
  {
    var x := Scrap(cat, 4 * b.cur + b.init, v.mem.Count());
    FreezeFlat(s, v, b.toks);
    SoundModes(demand, NewMarks(v, b.toks), b.init, b.cur);
    assert x.mathness % 4 == b.init && x.mathness / 4 == b.cur;
    Parts(s.w, demand, s.live, at, k);
    hide Valid, Sound, AllSound, Flat, Covers, NewMarks, Agree, Freeze, Extends;
    CoversLong(s.w, demand, s.live[at..at + k]);
    assert |Covers(NewMarks(v, b.toks))| == |AllUnder(CoversAll(s.w, s.live[at..at + k]))|;
  }

  /** Replacing the scraps at..at + k by it changes no text in what is covered. */
  lemma ReplaceKeeps(s: State, v: World, demand: seq<nat>, b: Builder, at: nat, k: nat, cat: Category)
    requires Valid(s) && AllSound(s.w, demand, s.live) && Extends(s.w, v)
    requires at + k <= |s.live| && k >= 1 && (IsAngle(cat) ==> k >= 2)
    requires b.toks != [] && Composite(b.toks, s.w.mem.Count())
    requires Sound(demand, NewMarks(v, b.toks), b.init, b.cur)
    requires InMemory(s.live[at..at + k], s.w.mem)
    requires AllUnder(Covers(NewMarks(v, b.toks))) == AllUnder(CoversAll(s.w, s.live[at..at + k]))
    ensures var u := v.(mem := Freeze(v.mem, b.toks));
            var live := s.live[..at] + [Scrap(cat, 4 * b.cur + b.init, v.mem.Count())] + s.live[at + k..];
      && u.mem.Valid() && InMemory(live, u.mem) && AllSound(u, demand, live)
      && AllUnder(CoversAll(u, live)) == AllUnder(CoversAll(s.w, s.live))
  {
    var u, x := v.(mem := Freeze(v.mem, b.toks)), Scrap(cat, 4 * b.cur + b.init, v.mem.Count());
    NewScrapSound(s, v, demand, b, at, k, cat);
    Parts(s.w, demand, s.live, at, k);
    hide ScrapSound, Extends, NewMarks, Sound, Flat, CoversAll, Covers, Agree, Freeze, AllSound, Composite;
    hide Memory.Valid, Readable, AllUnder;
    Split(s.w, s.live, at, k);
    Insert1(s.w, u, demand, s.live[..at], x, s.live[at + k..]);
    var a, c := CoversAll(s.w, s.live[..at]), CoversAll(s.w, s.live[at + k..]);
    UnderAppend(a, CoversAll(s.w, s.live[at..at + k]), c);
    UnderAppend(a, Covers(NewMarks(v, b.toks)), c);
  }

  /** What a live scrap holds. */
  ghost function MarksOf(w: World, x: Scrap): seq<Mark>
    requires w.mem.Valid() && x.trans < w.mem.Count()
  {
    Covers(Flat(w, x.trans))
  }

  /** The same scrap before and after a step; `make_reserved` may have made an expression a type name. */
  ghost predicate Alike(w: World, x: Scrap, v: World, y: Scrap) {
    && w.mem.Valid() && v.mem.Valid() && x.trans < w.mem.Count() && x.trans < v.mem.Count()
    && y.trans == x.trans && (y.cat == x.cat || (x.cat == Exp && y.cat == RawInt))
    && MarksOf(v, y) == MarksOf(w, x)
  }

  /** The scraps at..at + k became one of category `cat` that holds `marks`; the others are as they were. */
  ghost predicate Carries(s: State, r: State, at: nat, k: nat, cat: Category, marks: seq<Mark>) {
    && k >= 1 && at + k <= |s.live| && |r.live| == |s.live| - k + 1
    && s.w.mem.Valid() && s.w.mem.Count() >= 0 && Agree(s.w, r.w, s.w.mem.Count())
    && (forall i :: 0 <= i < at ==> Alike(s.w, s.live[i], r.w, r.live[i]))
    && (forall i :: at + k <= i < |s.live| ==> Alike(s.w, s.live[i], r.w, r.live[i - k + 1]))
    && r.w.mem.Valid() && r.live[at].trans < r.w.mem.Count()
    && r.live[at].cat == cat && (IsAngle(cat) ==> r.live[at].trans >= r.w.originals)
    && MarksOf(r.w, r.live[at]) == marks
  }

  lemma AlikeAgree(w: World, v: World, n: nat, x: Scrap)
    requires Agree(w, v, n) && x.trans < n
    ensures Alike(w, x, v, x)
  {
    FlatAgree(w, v, n, x.trans);
  }

  /** `reduce` puts the text just built in the place of k scraps. */
  lemma ReduceCarries(s: State, v: World, b: Builder, at: nat, k: nat, cat: Category, d: int)
    requires Valid(s) && Extends(s.w, v) && at + k <= |s.live| && k >= 1
    requires b.toks != [] && Composite(b.toks, s.w.mem.Count())
    ensures Carries(s, Reduce(s.(w := v), b, at, k, cat, d), at, k, cat, Covers(NewMarks(v, b.toks)))
  {
    hide Valid, Extends, Flat, Covers, NewMarks, Agree, Alike, Composite, Memory.Valid, Freeze, MarksOf, Readable;
    ValidFacts(s);
    ExtendsFacts(s, v);
    var r, n := Reduce(s.(w := v), b, at, k, cat, d), s.w.mem.Count();
    FreezeFlat(s, v, b.toks);
    MarksAre(r.w, r.live[at]);
    forall i | 0 <= i < |s.live|
      ensures Alike(s.w, s.live[i], r.w, s.live[i])
    {
      AlikeAgree(s.w, r.w, n, s.live[i]);
    }
  }

  lemma ExtendsFacts(s: State, v: World)
    requires Valid(s) && Extends(s.w, v)
    ensures v.mem == s.w.mem && v.originals == s.w.originals <= s.w.mem.Count()
  {
  }

  lemma MarksAre(w: World, x: Scrap)
    requires w.mem.Valid() && x.trans < w.mem.Count()
    ensures MarksOf(w, x) == Covers(Flat(w, x.trans))
  {
  }

  lemma ReduceKeeps(s: State, v: World, demand: seq<nat>, cov: seq<nat>, b: Builder, at: nat, k: nat, cat: Category,
                    d: int)
    requires Lawful(s, demand, cov) && Extends(s.w, v)
    requires s.pp <= at && at + k <= |s.live| && k >= 1 && d <= 1 && cat != Blank
    requires IsAngle(cat) ==> k >= 2
    requires b.toks != [] && Composite(b.toks, s.w.mem.Count())
    requires Sound(demand, NewMarks(v, b.toks), b.init, b.cur)
    requires InMemory(s.live[at..at + k], s.w.mem)
    requires AllUnder(Covers(NewMarks(v, b.toks))) == AllUnder(CoversAll(s.w, s.live[at..at + k]))
    ensures Lawful(Reduce(s.(w := v), b, at, k, cat, d), demand, cov)
  {
    var u := v.(mem := Freeze(v.mem, b.toks));
    var live := s.live[..at] + [Scrap(cat, 4 * b.cur + b.init, v.mem.Count())] + s.live[at + k..];
    var r := State(live, Clamp(s.pp + d), u);
    assert Reduce(s.(w := v), b, at, k, cat, d) == r;
    hide Lawful, Valid, Extends, NewMarks, Sound, Covers, CoversAll, AllSound, InMemory, Composite, Freeze, Reduce;
    hide Memory.Valid;
    hide AllUnder;
    Unpack(s, demand, cov);
    ReduceValid(s, v, b, at, k, cat, d);
    ReplaceKeeps(s, v, demand, b, at, k, cat);
    Pack(r, demand, cov);
  }

  lemma ValidFacts(s: State)
    requires Valid(s)
    ensures s.w.mem.Valid() && InMemory(s.live, s.w.mem)
  {
  }

  /** The text built from the scraps at..at + k covers them in order. */
  lemma TextGood(s: State, demand: seq<nat>, before: seq<Op>, parts: seq<Part>, off: nat, k: nat)
    requires Valid(s) && AllSound(s.w, demand, s.live)
    requires s.pp + off + k <= |s.live| && k >= 1 && InOrder(parts, off, k)
    ensures var b := Emit(ApplyAll(EMPTY, before), parts, Window(s));
            var at := s.pp + off;
      && b.toks != [] && InMemory(s.live[at..at + k], s.w.mem)
      && Good(s.w, demand, b, CoversAll(s.w, s.live[at..at + k]))
  {
    hide Good, AllSound, CoversAll, Emit, ApplyAll, Valid, Memory.Valid, Readable, InMemory;
    ValidFacts(s);
    var b0, window, mid := ApplyAll(EMPTY, before), Window(s), s.live[s.pp + off..s.pp + off + k];
    Parts(s.w, demand, s.live, s.pp, |s.live| - s.pp);
    Parts(s.w, demand, s.live, s.pp + off, k);
    assert window == s.live[s.pp..s.pp + (|s.live| - s.pp)] && window[off..off + k] == mid;
    EmptyGood(s.w, demand);
    ApplyAllGood(s.w, demand, EMPTY, [], before);
    EmitNonempty(b0, parts, window);
    assert [] + CoversAll(s.w, mid) == CoversAll(s.w, mid);
    EmitGood(s.w, demand, b0, [], parts, window, off, k);
  }

  lemma GoodText(s: State, demand: seq<nat>, b: Builder, cov: seq<Mark>)
    requires Valid(s) && Good(s.w, demand, b, cov)
    ensures Composite(b.toks, s.w.mem.Count()) && Extends(s.w, s.w)
    ensures Sound(demand, NewMarks(s.w, b.toks), b.init, b.cur) && Covers(NewMarks(s.w, b.toks)) == cov
  {
  }

  lemma LawfulFacts(s: State, demand: seq<nat>, cov: seq<nat>)
    requires Lawful(s, demand, cov)
    ensures Valid(s) && AllSound(s.w, demand, s.live) && s.w.mem.Valid()
  {
  }

  /** A text that appends the scraps at..at + k in order, then replaces them. */
  lemma TextKeeps(s: State, demand: seq<nat>, cov: seq<nat>, before: seq<Op>, parts: seq<Part>, off: nat, k: nat,
                  cat: Category, d: int)
    requires Lawful(s, demand, cov)
    requires s.pp + off + k <= |s.live| && k >= 1 && InOrder(parts, off, k) && d <= 1 && cat != Blank
    requires IsAngle(cat) ==> k >= 2
    ensures var r := Reduce(s, Emit(ApplyAll(EMPTY, before), parts, Window(s)), s.pp + off, k, cat, d);
            var mid := s.live[s.pp + off..s.pp + off + k];
      && Lawful(r, demand, cov) && s.w.mem.Valid() && InMemory(mid, s.w.mem)
      && Carries(s, r, s.pp + off, k, cat, CoversAll(s.w, mid))
  {
    hide Reduce, Lawful, Good, AllSound, CoversAll, Emit, ApplyAll, Valid, Extends, NewMarks, Composite, Covers, Sound,
      InMemory, Carries, AllUnder;
    LawfulFacts(s, demand, cov);
    var at := s.pp + off;
    var b := Emit(ApplyAll(EMPTY, before), parts, Window(s));
    assert s.(w := s.w) == s;
    TextGood(s, demand, before, parts, off, k);
    GoodText(s, demand, b, CoversAll(s.w, s.live[at..at + k]));
    ReduceKeeps(s, s.w, demand, cov, b, at, k, cat, d);
    ReduceCarries(s, s.w, b, at, k, cat, d);
  }

  lemma {:induction false} ApplyAllGrows(b: Builder, ops: seq<Op>)
    ensures |ApplyAll(b, ops).toks| >= |b.toks|
    decreases ops
  {
    if ops != [] {
      ApplyAllGrows(Apply(b, ops[0]), ops[1..]);
    }
  }

  lemma {:induction false} EmitNonempty(b: Builder, parts: seq<Part>, window: seq<Scrap>)
    requires forall j :: 0 <= j < |parts| ==> parts[j].i < |window|
    ensures |Emit(b, parts, window).toks| >= |b.toks| + |parts|
    decreases parts
  {
    if parts != [] {
      var b1 := BigApp1(b, window[parts[0].i]);
      ApplyAllGrows(b1, parts[0].after);
      EmitNonempty(ApplyAll(b1, parts[0].after), parts[1..], window);
    }
  }

  /** Only categories change. */
  lemma {:induction false} CoversAllTrans(w: World, a: seq<Scrap>, b: seq<Scrap>)
    requires w.mem.Valid() && InMemory(a, w.mem) && |b| == |a|
    requires forall i :: 0 <= i < |a| ==> b[i].trans == a[i].trans
    ensures InMemory(b, w.mem) && CoversAll(w, a) == CoversAll(w, b)
  {
    if a != [] {
      CoversAllTrans(w, a[1..], b[1..]);
    }
  }

  lemma RecatKeeps(s: State, demand: seq<nat>, cov: seq<nat>, i: nat, cat: Category, d: int)
    requires Lawful(s, demand, cov) && s.pp <= i < |s.live| && cat != Blank && d <= 1 && !IsAngle(cat)
    ensures var r := State(s.live[i := s.live[i].(cat := cat)], Clamp(s.pp + d), s.w);
      && Lawful(r, demand, cov) && s.w.mem.Valid() && InMemory(s.live[i..i + 1], s.w.mem)
      && Carries(s, r, i, 1, cat, CoversAll(s.w, s.live[i..i + 1]))
  {
    assert s.live[i..i + 1] == [s.live[i]];
    CoversOne(s.w, s.live[i]);
    CoversAllTrans(s.w, s.live, s.live[i := s.live[i].(cat := cat)]);
  }

  /** `make_reserved` leaves the texts that productions made as they are. */
  lemma RetouchAgree(s: State, m: Memory)
    requires Valid(s) && Retouched(s.w.mem, m)
    ensures Valid(s.(w := s.w.(mem := m))) && Agree(s.w, s.w.(mem := m), s.w.mem.Count())
  {
    var o := s.w.mem;
    RetouchedValid(o, m);
    forall t, j | s.w.originals <= t < o.Count() && o.start[t] <= j < o.start[t + 1]
      ensures m.tok[j] == o.tok[j]
    {
      assert o.tok[j].Ch? || o.tok[j].Text?;
    }
    forall t | s.w.originals <= t < o.Count()
      ensures o.Of(t) == m.Of(t)
    {
      assert forall j :: o.start[t] <= j < o.start[t + 1] ==> m.tok[j] == o.tok[j];
    }
  }

  /** `make_reserved` exchanges names and categories and nothing else. */
  lemma ReserveKeeps(s: State, demand: seq<nat>, cov: seq<nat>, m: Memory, live: seq<Scrap>)
    requires Lawful(s, demand, cov) && Retouched(s.w.mem, m) && Relabelled(s.live, live)
    ensures Lawful(s.(live := live, w := s.w.(mem := m)), demand, cov)
  {
    hide Lawful, Valid, Agree, AllSound, CoversAll, AllUnder, Memory.Valid, Retouched, Relabelled;
    var v, n := s.w.(mem := m), s.w.mem.Count();
    Unpack(s, demand, cov);
    RetouchFacts(s, m, live);
    RetouchAgree(s, m);
    ReserveValid(s, m, live);
    ValidFacts(s.(w := v));
    AllSoundAgree(s.w, v, demand, n, s.live);
    CoversAllAgree(s.w, v, n, s.live);
    CoversAllTrans(v, s.live, live);
    RelabelSound(v, demand, s.live, live);
    Pack(s.(live := live, w := v), demand, cov);
  }

  lemma ReserveValid(s: State, m: Memory, live: seq<Scrap>)
    requires Valid(s.(w := s.w.(mem := m))) && Relabelled(s.live, live)
    ensures Valid(s.(live := live, w := s.w.(mem := m)))
  {
  }

  lemma RelabelSound(w: World, demand: seq<nat>, live: seq<Scrap>, after: seq<Scrap>)
    requires w.mem.Valid() && InMemory(live, w.mem) && AllSound(w, demand, live) && Relabelled(live, after)
    ensures InMemory(after, w.mem) && AllSound(w, demand, after)
  {
    hide Sound, Flat, Covers;
    forall i | 0 <= i < |after|
      ensures after[i].trans < w.mem.Count() && ScrapSound(w, demand, after[i])
    {
      assert ScrapSound(w, demand, live[i]);
    }
  }

  lemma CoversOne(w: World, x: Scrap)
    requires w.mem.Valid() && x.trans < w.mem.Count()
    ensures CoversAll(w, [x]) == Covers(Flat(w, x.trans))
  {
    assert [x][1..] == [];
    assert Covers(Flat(w, x.trans)) + [] == Covers(Flat(w, x.trans));
  }

  lemma AngleText(s: State, demand: seq<nat>, g: AngleGlyph)
    requires Valid(s) && s.pp < |s.live|
    ensures var marks := Drop(Flat(s.w, s.live[s.pp].trans));
            var v := s.w.(lost := s.w.lost[s.w.mem.Count() := marks]);
      && Extends(s.w, v) && Composite([Ch(Code(g))], s.w.mem.Count())
      && NewMarks(v, [Ch(Code(g))]) == marks
      && Sound(demand, marks, YES_MATH, YES_MATH)
      && InMemory(s.live[s.pp..s.pp + 1], s.w.mem) && Covers(marks) == marks
      && AllUnder(marks) == AllUnder(CoversAll(s.w, s.live[s.pp..s.pp + 1]))
  {
    var marks := Drop(Flat(s.w, s.live[s.pp].trans));
    ScanDropped(demand, marks, YES_MATH);
    CoversSame(marks);
    assert s.live[s.pp..s.pp + 1] == [s.live[s.pp]];
    CoversOne(s.w, s.live[s.pp]);
  }

  /** A bracket that turns into an operator: its text is replaced, but stays on record. */
  lemma AngleKeeps(s: State, demand: seq<nat>, cov: seq<nat>, g: AngleGlyph, d: int, n: nat)
    requires Lawful(s, demand, cov) && s.pp < |s.live| && d <= 1
    ensures Lawful(Fire(s, Angle(g, d, n)), demand, cov)
    ensures s.w.mem.Valid() && s.live[s.pp].trans < s.w.mem.Count()
    ensures Carries(s, Fire(s, Angle(g, d, n)), s.pp, 1, Binop, Drop(Flat(s.w, s.live[s.pp].trans)))
  {
    hide Lawful, CoversAll, Extends, NewMarks, Composite, Covers, Sound, Drop, Flat, AllUnder, Carries;
    LawfulFacts(s, demand, cov);
    AngleText(s, demand, g);
    var v := s.w.(lost := s.w.lost[s.w.mem.Count() := Drop(Flat(s.w, s.live[s.pp].trans))]);
    ReduceKeeps(s, v, demand, cov, Builder([Ch(Code(g))], YES_MATH, YES_MATH), s.pp, 1, Binop, d);
    ReduceCarries(s, v, Builder([Ch(Code(g))], YES_MATH, YES_MATH), s.pp, 1, Binop, d);
  }

  lemma PlainInOrder(off: nat, k: nat)
    ensures InOrder(Plain(off, k), off, k)
  {
  }

  /** Where a production puts a scrap, counted from the cursor, how many it replaces, and of which category it is. */
  function Off(p: Production): nat {
    if p.Idle? || p.Angle? then 0 else p.off
  }

  function Width(p: Production): nat {
    if p.Idle? || p.Angle? then 1 else p.k
  }

  function Result(p: Production): Category {
    if p.Idle? || p.Angle? then Binop else p.cat
  }

  /** The productions for brackets drop what the bracket holds; all others keep what the scraps hold. */
  ghost function Holds(s: State, p: Production): seq<Mark>
    requires Valid(s) && Fits(s, p)
  {
    if p.Angle? then Drop(Flat(s.w, s.live[s.pp].trans))
    else CoversAll(s.w, s.live[s.pp + Off(p)..s.pp + Off(p) + Width(p)])
  }

  /** One production, whichever it is, keeps all of it, and changes the scraps it replaces and no others. */
  lemma FireKeeps(s: State, demand: seq<nat>, cov: seq<nat>, p: Production)
    requires Lawful(s, demand, cov) && Fits(s, p)
    requires !p.Idle? ==> p.d <= 1
    requires p.Squash? || p.Build? || p.Reserve? ==> p.cat != Blank && (IsAngle(p.cat) ==> p.k >= 2)
    ensures Lawful(Fire(s, p), demand, cov)
    ensures !p.Idle? ==> Carries(s, Fire(s, p), s.pp + Off(p), Width(p), Result(p), Holds(s, p))
  {
    hide Carries, CoversAll, Emit, ApplyAll, InOrder, MakeReserved, Relabelled, Retouched;
    if p.Angle? {
      AngleKeeps(s, demand, cov, p.g, p.d, p.n);
    } else if p.Reserve? {
      ReserveFireKeeps(s, demand, cov, p);
    } else if !p.Idle? {
      SimpleFireKeeps(s, demand, cov, p);
    }
  }

  lemma ReserveFireKeeps(s: State, demand: seq<nat>, cov: seq<nat>, p: Production)
    requires Lawful(s, demand, cov) && Fits(s, p)
    requires p.Reserve? && p.d <= 1 && p.cat != Blank && (IsAngle(p.cat) ==> p.k >= 2)
    ensures Lawful(Fire(s, p), demand, cov)
    ensures Carries(s, Fire(s, p), s.pp + p.off, p.k, p.cat, Holds(s, p))
  {
    hide Lawful, Emit, ApplyAll, InOrder, MakeReserved, Retouched, Carries, CoversAll, Valid, Memory.Valid, Fire, Fits,
      Reduce;
    LawfulFacts(s, demand, cov);
    FireReserve(s, p);
    var r := MakeReserved(s.w.mem, s.live, s.pp + p.at);
    var s1 := s.(live := r.1, w := s.w.(mem := r.0));
    ReserveKeeps(s, demand, cov, r.0, r.1);
    TextKeeps(s1, demand, cov, p.before, p.parts, p.off, p.k, p.cat, p.d);
    ReserveCarries(s, r.0, r.1, Fire(s, p), s.pp + p.off, p.k, p.cat);
  }

  /** What a step does after `make_reserved`, it does as if without. */
  lemma ReserveCarries(s: State, m: Memory, live: seq<Scrap>, r: State, at: nat, k: nat, cat: Category)
    requires Valid(s) && Retouched(s.w.mem, m) && Relabelled(s.live, live)
    requires at + k <= |s.live| && m.Valid() && InMemory(live[at..at + k], m)
    requires Carries(s.(live := live, w := s.w.(mem := m)), r, at, k, cat,
                     CoversAll(s.w.(mem := m), live[at..at + k]))
    ensures InMemory(s.live[at..at + k], s.w.mem)
    ensures Carries(s, r, at, k, cat, CoversAll(s.w, s.live[at..at + k]))
  {
    hide CoversAll, Valid, Memory.Valid, Retouched, Agree, Alike, Flat, Relabelled;
    var v, n := s.w.(mem := m), s.w.mem.Count();
    RetouchFacts(s, m, live);
    RetouchAgree(s, m);
    CoversAllAgree(s.w, v, n, s.live[at..at + k]);
    CoversAllTrans(v, s.live[at..at + k], live[at..at + k]);
    AgreeThrough(s.w, v, r.w, n);
    forall i, j | 0 <= i < |s.live| && 0 <= j < |r.live| && Alike(v, live[i], r.w, r.live[j])
      ensures Alike(s.w, s.live[i], r.w, r.live[j])
    {
      AlikeThrough(s.w, s.live[i], v, live[i], r.w, r.live[j], n);
    }
  }

  lemma RetouchFacts(s: State, m: Memory, live: seq<Scrap>)
    requires Valid(s) && Retouched(s.w.mem, m) && Relabelled(s.live, live)
    ensures s.w.mem.Valid() && m.Count() == s.w.mem.Count() >= 0 && InMemory(s.live, s.w.mem)
    ensures |live| == |s.live| && forall i :: 0 <= i < |live| ==>
              live[i].trans == s.live[i].trans && (live[i].cat == s.live[i].cat
                                                   || (s.live[i].cat == Exp && live[i].cat == RawInt))
  {
  }

  lemma AgreeThrough(w: World, v: World, u: World, n: nat)
    requires Agree(w, v, n) && Agree(v, u, n)
    ensures Agree(w, u, n)
  {
  }

  lemma AlikeThrough(w: World, x: Scrap, v: World, y: Scrap, u: World, z: Scrap, n: nat)
    requires Agree(w, v, n) && x.trans < n && y.trans == x.trans
    requires y.cat == x.cat || (x.cat == Exp && y.cat == RawInt)
    requires Alike(v, y, u, z)
    ensures Alike(w, x, u, z)
  {
    FlatAgree(w, v, n, x.trans);
  }

  lemma SimpleFireKeeps(s: State, demand: seq<nat>, cov: seq<nat>, p: Production)
    requires Lawful(s, demand, cov) && Fits(s, p)
    requires (p.Squash? || p.Build?) && p.d <= 1 && p.cat != Blank && (IsAngle(p.cat) ==> p.k >= 2)
    ensures Lawful(Fire(s, p), demand, cov)
    ensures Carries(s, Fire(s, p), s.pp + p.off, p.k, p.cat, Holds(s, p))
  {
    hide Lawful, Emit, ApplyAll, Valid, Sound, CoversAll, Carries, InOrder;
    LawfulFacts(s, demand, cov);
    if p.Build? {
      TextKeeps(s, demand, cov, p.before, p.parts, p.off, p.k, p.cat, p.d);
    } else if p.k == 1 {
      RecatKeeps(s, demand, cov, s.pp + p.off, p.cat, p.d);
    } else {
      PlainInOrder(p.off, p.k);
      TextKeeps(s, demand, cov, [], Plain(p.off, p.k), p.off, p.k, p.cat, p.d);
      assert ApplyAll(EMPTY, []) == EMPTY by { ApplyNone(); }
    }
  }

  lemma ApplyNone()
    ensures ApplyAll(EMPTY, []) == EMPTY
  {
  }
}
