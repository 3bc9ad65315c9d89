/** Building a text keeps track of TeX's mode and of the scraps that go into it. */
module MathModes {
  import opened Productions
  import opened TokenMemory
  import opened Reductions

  /** Tokens of a text under construction: characters and references to frozen texts. */
  ghost predicate Composite(toks: seq<Token>, n: nat) {
    forall i :: 0 <= i < |toks| ==> (toks[i].Ch? || toks[i].Text?) && RefersBelow(toks[i], n)
  }

  /** The builder is well formed and its mathness is right for what it has built,
      which covers the scraps `cov`. */
  ghost predicate Good(w: World, demand: seq<nat>, b: Builder, cov: seq<Mark>) {
    && w.mem.Valid()
    && Composite(b.toks, w.mem.Count())
    && Sound(demand, FlatTokens(w, b.toks, w.mem.Count()), b.init, b.cur)
    && Covers(FlatTokens(w, b.toks, w.mem.Count())) == cov
  }

  /** Appending a sound text, with a switch of mode where the two do not fit. */
  lemma Continue(demand: seq<nat>, marks: seq<Mark>, init: nat, cur: nat, more: seq<Mark>, left: nat, right: nat)
    requires Sound(demand, marks, init, cur) && Sound(demand, more, left, right)
    ensures left == MAYBE_MATH ==> Sound(demand, marks + more, init, cur)
    ensures left != MAYBE_MATH ==>
              Sound(demand, marks + (if cur != MAYBE_MATH && cur != left then [Toggle] else []) + more,
                    if cur == MAYBE_MATH then left else init, right)
  {
    var start := if cur == MAYBE_MATH then left else init;
    if left == MAYBE_MATH || cur == MAYBE_MATH || cur == left {
      assert marks + [] + more == marks + more;
      ScanAppend(demand, marks, more, start);
      ScanAppend(demand, marks, more, YES_MATH);
      ScanAppend(demand, marks, more, NO_MATH);
    } else {
      ScanAppend(demand, marks, [Toggle], start);
      ScanAppend(demand, marks + [Toggle], more, start);
      assert [Toggle][1..] == [];
      assert Scan(demand, [Toggle], cur) == left;
    }
  }

  /** A character may stand in the mode that it wants, or in any if it wants none. */
  lemma CharSound(demand: seq<nat>, c: nat, mode: nat)
    requires mode <= 2 && c != DOLLAR && (Wants(c) == MAYBE_MATH || Wants(c) == mode)
    ensures Sound(demand, CharMarks(c), mode, mode) && Covers(CharMarks(c)) == []
  {
    assert [Control(c)][1..] == [];
  }

  lemma SoundModes(demand: seq<nat>, marks: seq<Mark>, left: nat, right: nat)
    requires Sound(demand, marks, left, right)
    ensures left <= 2 && right <= 2
  {
  }

  lemma NoCovers()
    ensures Covers([]) == [] && Covers([Toggle]) == []
  {
    assert [Toggle][1..] == [];
  }

  lemma FlatSwitch(w: World, cur: nat, needed: nat)
    requires w.mem.Valid() && cur <= 2 && 1 <= needed <= 2
    ensures Composite(Switch(cur, needed), w.mem.Count())
    ensures FlatTokens(w, Switch(cur, needed), w.mem.Count())
         == if cur != MAYBE_MATH && cur != needed then [Toggle] else []
  {
    var n := w.mem.Count();
    var l, r := Ch(Code(LeftBrace)), Ch(Code(RightBrace));
    var s := Switch(cur, needed);
    if s != [] {
      assert s[1..][1..] == [s[2]] && s[2..][1..] == [];
      assert s[1..] == [s[1], s[2]];
      assert FlatTokens(w, [s[2]], n) == CharMarks(s[2].code) + FlatTokens(w, [], n);
      assert FlatTokens(w, s[1..], n) == CharMarks(s[1].code) + FlatTokens(w, s[1..][1..], n);
    }
  }

  lemma FlatOne(w: World, a: Token, n: nat)
    requires w.mem.Valid() && n <= w.mem.Count() && RefersBelow(a, n)
    ensures a.Text? ==> FlatTokens(w, [a], n) == Flat(w, a.text)
    ensures a.Ch? ==> FlatTokens(w, [a], n) == CharMarks(a.code)
  {
    assert [a][1..] == [];
  }

  /** `big_app` goes to the mode that the character wants. */
  lemma RightMode(g: Glyph)
    ensures Wants(Code(g)) == MAYBE_MATH || Wants(Code(g)) == if IsLayout(Code(g)) then NO_MATH else YES_MATH
  {
  }

  lemma BigAppGood(w: World, demand: seq<nat>, b: Builder, cov: seq<Mark>, g: Glyph)
    requires Good(w, demand, b, cov)
    ensures Good(w, demand, BigApp(b, Code(g)), cov)
    ensures Wants(Code(g)) != MAYBE_MATH ==> BigApp(b, Code(g)).cur == Wants(Code(g))
  {
    hide Sound, Flat, FlatTokens, Covers, Scan, CharMarks, Wants;
    var n := w.mem.Count();
    var needed := if IsLayout(Code(g)) then NO_MATH else YES_MATH;
    var sw := Switch(b.cur, needed);
    var a := Ch(Code(g));
    SoundModes(demand, FlatTokens(w, b.toks, n), b.init, b.cur);
    FlatSwitch(w, b.cur, needed);
    FlatOne(w, a, n);
    FlatTokensAppend(w, b.toks, sw, n);
    FlatTokensAppend(w, b.toks + sw, [a], n);
    RightMode(g);
    CharSound(demand, Code(g), needed);
    Continue(demand, FlatTokens(w, b.toks, n), b.init, b.cur, CharMarks(Code(g)), needed, needed);
    CoversAppend(FlatTokens(w, b.toks, n), FlatTokens(w, sw, n));
    CoversAppend(FlatTokens(w, b.toks, n) + FlatTokens(w, sw, n), CharMarks(Code(g)));
    NoCovers();
  }

  lemma BigApp1Good(w: World, demand: seq<nat>, b: Builder, cov: seq<Mark>, s: Scrap)
    requires Good(w, demand, b, cov)
    requires s.trans < w.mem.Count() && Sound(demand, Flat(w, s.trans), s.mathness % 4, s.mathness / 4)
    ensures Good(w, demand, BigApp1(b, s), cov + Covers(Flat(w, s.trans)))
  {
    hide Sound, Flat, FlatTokens, Covers, Scan;
    var n := w.mem.Count();
    var left, right := s.mathness % 4, s.mathness / 4;
    var sw := if left == MAYBE_MATH then [] else Switch(b.cur, left);
    var marks, more := FlatTokens(w, b.toks, n), Flat(w, s.trans);
    SoundModes(demand, marks, b.init, b.cur);
    SoundModes(demand, more, left, right);
    if left != MAYBE_MATH {
      FlatSwitch(w, b.cur, left);
    }
    FlatOne(w, Text(s.trans), n);
    FlatTokensAppend(w, b.toks, sw, n);
    FlatTokensAppend(w, b.toks + sw, [Text(s.trans)], n);
    assert b.toks + [] == b.toks;
    Continue(demand, marks, b.init, b.cur, more, left, right);
    CoversAppend(marks, FlatTokens(w, sw, n));
    CoversAppend(marks + FlatTokens(w, sw, n), more);
    NoCovers();
  }

  lemma AppCharGood(w: World, demand: seq<nat>, b: Builder, cov: seq<Mark>, c: nat)
    requires Good(w, demand, b, cov) && c != DOLLAR && (Wants(c) == MAYBE_MATH || Wants(c) == b.cur)
    ensures Good(w, demand, AppChar(b, c), cov)
  {
    hide Sound, Flat, FlatTokens, Covers, Scan, CharMarks, Wants;
    var n := w.mem.Count();
    FlatOne(w, Ch(c), n);
    FlatTokensAppend(w, b.toks, [Ch(c)], n);
    CoversAppend(FlatTokens(w, b.toks, n), CharMarks(c));
    SoundModes(demand, FlatTokens(w, b.toks, n), b.init, b.cur);
    CharSound(demand, c, b.cur);
    Continue(demand, FlatTokens(w, b.toks, n), b.init, b.cur, CharMarks(c), b.cur, b.cur);
    assert FlatTokens(w, b.toks, n) + [] + CharMarks(c) == FlatTokens(w, b.toks, n) + CharMarks(c);
  }

  lemma {:induction false} ApplyAllGood(w: World, demand: seq<nat>, b: Builder, cov: seq<Mark>, ops: seq<Op>)
    requires Good(w, demand, b, cov)
    ensures Good(w, demand, ApplyAll(b, ops), cov)
    decreases ops
  {
    hide Good;
    if ops != [] {
      match ops[0] {
        case Big(g) => BigAppGood(w, demand, b, cov, g);
        case Raw(g) => AppCharGood(w, demand, b, cov, Code(g));
        case Twice(g) =>
          BigAppGood(w, demand, b, cov, g);
          AppCharGood(w, demand, BigApp(b, Code(g)), cov, Code(g));
      }
      ApplyAllGood(w, demand, Apply(b, ops[0]), cov, ops[1..]);
    }
  }

  /** The original scraps under a sequence of scraps. */
  ghost function CoversAll(w: World, scraps: seq<Scrap>): seq<Mark>
    requires w.mem.Valid() && InMemory(scraps, w.mem)
  {
    if scraps == [] then [] else Covers(Flat(w, scraps[0].trans)) + CoversAll(w, scraps[1..])
  }

  lemma {:induction false} CoversAllAppend(w: World, a: seq<Scrap>, b: seq<Scrap>)
    requires w.mem.Valid() && InMemory(a, w.mem) && InMemory(b, w.mem)
    ensures CoversAll(w, a + b) == CoversAll(w, a) + CoversAll(w, b)
  {
    if a == [] {
      assert a + b == b;
    } else {
      assert (a + b)[1..] == a[1..] + b;
      CoversAllAppend(w, a[1..], b);
    }
  }

  /** The scrap's mathness is right for its text, and the text covers something; a
      bracket whose text a production made covers more than the bracket. */
  ghost predicate ScrapSound(w: World, demand: seq<nat>, s: Scrap)
    requires w.mem.Valid() && s.trans < w.mem.Count()
  {
    && Sound(demand, Flat(w, s.trans), s.mathness % 4, s.mathness / 4)
    && |Covers(Flat(w, s.trans))| >= 1
    && (IsAngle(s.cat) && s.trans >= w.originals ==> |Covers(Flat(w, s.trans))| >= 2)
  }

  ghost predicate AllSound(w: World, demand: seq<nat>, scraps: seq<Scrap>)
    requires w.mem.Valid() && InMemory(scraps, w.mem)
  {
    forall i :: 0 <= i < |scraps| ==> ScrapSound(w, demand, scraps[i])
  }

  lemma PartGood(w: World, demand: seq<nat>, b: Builder, cov: seq<Mark>, part: Part, window: seq<Scrap>)
    requires Good(w, demand, b, cov)
    requires InMemory(window, w.mem) && AllSound(w, demand, window) && part.i < |window|
    ensures Good(w, demand, ApplyAll(BigApp1(b, window[part.i]), part.after),
                 cov + Covers(Flat(w, window[part.i].trans)))
  {
    assert ScrapSound(w, demand, window[part.i]);
    BigApp1Good(w, demand, b, cov, window[part.i]);
    ApplyAllGood(w, demand, BigApp1(b, window[part.i]), cov + Covers(Flat(w, window[part.i].trans)), part.after);
  }

  /** Appending the scraps off, off + 1, ... of a window, in that order. */
  lemma {:induction false} EmitGood(w: World, demand: seq<nat>, b: Builder, cov: seq<Mark>, parts: seq<Part>,
                                    window: seq<Scrap>, off: nat, k: nat)
    requires w.mem.Valid() && Good(w, demand, b, cov)
    requires InMemory(window, w.mem) && AllSound(w, demand, window)
    requires off + k <= |window| && InOrder(parts, off, k)
    ensures Good(w, demand, Emit(b, parts, window), cov + CoversAll(w, window[off..off + k]))
    decreases parts
  {
    hide Good, AllSound, Flat, Covers, BigApp1, ApplyAll;
    if k == 0 {
      assert parts == [] && window[off..off + k] == [];
      assert cov + [] == cov;
    } else {
      var here := Covers(Flat(w, window[off].trans));
      PartGood(w, demand, b, cov, parts[0], window);
      EmitGood(w, demand, ApplyAll(BigApp1(b, window[off]), parts[0].after), cov + here, parts[1..], window,
               off + 1, k - 1);
      assert window[off..off + k][1..] == window[off + 1..off + k];
      var later := CoversAll(w, window[off + 1..off + k]);
      assert cov + here + later == cov + (here + later);
    }
  }

  lemma EmptyGood(w: World, demand: seq<nat>)
    requires w.mem.Valid()
    ensures Good(w, demand, EMPTY, [])
  {
  }
}
