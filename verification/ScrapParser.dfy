/** The parser of CWEAVE as it runs: scraps in a gap buffer inside one array, a token
    memory that grows, and the global variables of the original.  Each method is
    proved to do what the functions of the modules before say. */
module ScrapParser {
  import opened Productions
  import opened TokenMemory
  import opened Reductions
  import opened ReductionLaws
  import opened Parse
  import opened Conservation
  import opened BracketInputs

  /** The scraps of a gap buffer, without the gap. */
  function LiveOf(s: seq<Scrap>, base: int, lo: int, hi: int, top: int): seq<Scrap>
    requires 0 <= base <= lo + 1 <= hi <= top + 1 <= |s|
  {
    s[base..lo + 1] + s[hi..top + 1]
  }

  /** Elements j + k..lo + 1 moved down to j + 1. */
  function Closed(s: seq<Scrap>, j: int, k: int, lo: int): (r: seq<Scrap>)
    requires 0 <= j && k >= 1 && j + k - 1 <= lo < |s|
    ensures |r| == |s|
  {
    s[..j + 1] + s[j + k..lo + 1] + s[lo - k + 2..]
  }

  class Parser {
    const forceLines: bool
    const scraps: array<Scrap>   // scrap_info
    var tok: seq<Token>          // tok_mem up to tok_ptr
    var start: seq<nat>          // tok_start up to text_ptr
    var base: int                // scrap_base
    var top: int                 // scrap_ptr
    var pp: int
    var lo: int                  // lo_ptr
    var hi: int                  // hi_ptr
    var initMath: nat
    var curMath: nat
    ghost var originals: nat     // texts that existed when translation began
    ghost var lost: map<nat, seq<Mark>>

    /** Room for `size` scraps, of which place 0 is not used; text 0 is empty. */
    constructor (forceLines: bool, size: nat)
      requires size >= 6
      ensures this.forceLines == forceLines && scraps.Length == size && fresh(scraps)
      ensures base == 1 && top == 0 && Mem().Valid() && Mem().Count() == 1
      ensures start[|start| - 1] == |tok| && lost == map[]
    {
      this.forceLines := forceLines;
      scraps := new Scrap[size](_ => Scrap(Blank, 0, 0));
      tok, start := [Ch(0)], [1, 1];
      base, top, pp, lo, hi := 1, 0, 1, 0, 1;
      initMath, curMath := MAYBE_MATH, MAYBE_MATH;
      originals, lost := 1, map[];
    }

    function Mem(): Memory
      reads this
    {
      Memory(tok, start)
    }

    /** The gap buffer lies inside the array, with room for the blanks beyond it. */
    ghost predicate Gap()
      reads this
    {
      0 <= base <= lo + 1 <= hi <= top + 1 && base <= pp <= lo + 1 && top + 5 <= scraps.Length
    }

    /** The live scraps, without the gap. */
    ghost function Live(): seq<Scrap>
      requires Gap()
      reads this, scraps
    {
      LiveOf(scraps[..], base, lo, hi, top)
    }

    ghost function World0(): World
      reads this
    {
      World(Mem(), originals, lost)
    }

    ghost function Abs(): State
      requires Gap()
      reads this, scraps
    {
      State(Live(), pp - base, World0())
    }

    /** The state as the text under construction, which begins at `from`, was begun. */
    ghost function Before(from: nat): State
      requires Gap() && from <= |tok|
      reads this, scraps
    {
      State(Live(), pp - base, World(Memory(tok[..from], start), originals, lost))
    }

    /** Between a reduction and the step to the next scrap, the cursor is one too far left. */
    ghost predicate Reduced()
      reads this
    {
      0 <= base <= lo + 1 <= hi <= top + 1 && base <= pp + 1 <= lo + 1 && top + 5 <= scraps.Length
    }

    ghost function Next(): State
      requires Reduced()
      reads this, scraps
    {
      State(LiveOf(scraps[..], base, lo, hi, top), pp + 1 - base, World0())
    }

    // ----- building texts

    method App(a: Token)
      modifies `tok
      ensures tok == old(tok) + [a]
    {
      tok := tok + [a];
    }

    function Built(from: nat): Builder
      requires from <= |tok|
      reads this
    {
      Builder(tok[from..], initMath, curMath)
    }

    method BigAppChar(c: nat, ghost from: nat)
      requires from <= |tok|
      modifies `tok, `initMath, `curMath
      ensures old(tok) <= tok && Built(from) == BigApp(old(Built(from)), c)
      ensures curMath == if c == 0x20 || 0x88 <= c <= 0x90 then 2 else 1
      ensures tok == old(tok) + (if old(curMath) == 1 && curMath == 2 then [Ch(0x7b), Ch(0x7d), Ch(0x24)]
                                 else if old(curMath) == 2 && curMath == 1 then [Ch(0x24), Ch(0x7b), Ch(0x7d)]
                                 else []) + [Ch(c)]
    {
      var layout := c == Code(Space) || Code(BigCancel) <= c <= Code(BigForce);
      if layout {
        if curMath == MAYBE_MATH {
          initMath := NO_MATH;
        } else if curMath == YES_MATH {
          tok := tok + [Ch(Code(LeftBrace)), Ch(Code(RightBrace)), Ch(DOLLAR)];
        }
        curMath := NO_MATH;
      } else {
        if curMath == MAYBE_MATH {
          initMath := YES_MATH;
        } else if curMath == NO_MATH {
          tok := tok + [Ch(DOLLAR), Ch(Code(LeftBrace)), Ch(Code(RightBrace))];
        }
        curMath := YES_MATH;
      }
      App(Ch(c));
      assert tok[from..] == old(tok[from..])
                            + Switch(old(curMath), if layout then NO_MATH else YES_MATH) + [Ch(c)];
    }

    method BigAppScrap(a: int, ghost from: nat)
      requires from <= |tok| && 0 <= a < scraps.Length
      modifies `tok, `initMath, `curMath
      ensures old(tok) <= tok && Built(from) == BigApp1(old(Built(from)), scraps[a])
    {
      var m := scraps[a].mathness;
      if m % 4 == NO_MATH {
        if curMath == MAYBE_MATH {
          initMath := NO_MATH;
        } else if curMath == YES_MATH {
          tok := tok + [Ch(Code(LeftBrace)), Ch(Code(RightBrace)), Ch(DOLLAR)];
        }
        curMath := m / 4;
      } else if m % 4 == YES_MATH {
        if curMath == MAYBE_MATH {
          initMath := YES_MATH;
        } else if curMath == NO_MATH {
          tok := tok + [Ch(DOLLAR), Ch(Code(LeftBrace)), Ch(Code(RightBrace))];
        }
        curMath := m / 4;
      }
      App(Text(scraps[a].trans));
    }

    method AppendOps(ops: seq<Op>, ghost from: nat)
      requires from <= |tok|
      modifies `tok, `initMath, `curMath
      ensures old(tok) <= tok && Built(from) == ApplyAll(old(Built(from)), ops)
    {
      var i := 0;
      while i < |ops|
        invariant i <= |ops| && old(tok) <= tok
        invariant ApplyAll(Built(from), ops[i..]) == ApplyAll(old(Built(from)), ops)
      {
        ghost var was := Built(from);
        match ops[i] {
          case Big(g) =>
            BigAppChar(Code(g), from);
          case Raw(g) =>
            App(Ch(Code(g)));
            assert tok[from..] == was.toks + [Ch(Code(g))];
          case Twice(g) =>
            BigAppChar(Code(g), from);
            ghost var one := Built(from);
            App(Ch(Code(g)));
            assert tok[from..] == one.toks + [Ch(Code(g))];
        }
        assert ops[i..][1..] == ops[i + 1..];
        i := i + 1;
      }
    }

    method AppendParts(parts: seq<Part>, ghost window: seq<Scrap>, ghost from: nat)
      requires from <= |tok| && 0 <= pp
      requires forall j :: 0 <= j < |parts| ==> parts[j].i < |window| && pp + parts[j].i < scraps.Length
                                                && scraps[pp + parts[j].i] == window[parts[j].i]
      modifies `tok, `initMath, `curMath
      ensures old(tok) <= tok && Built(from) == Emit(old(Built(from)), parts, window)
    {
      var i := 0;
      while i < |parts|
        invariant i <= |parts| && old(tok) <= tok
        invariant Emit(Built(from), parts[i..], window) == Emit(old(Built(from)), parts, window)
      {
        BigAppScrap(pp + parts[i].i, from);
        AppendOps(parts[i].after, from);
        assert parts[i..][1..] == parts[i + 1..];
        i := i + 1;
      }
    }

    // ----- reducing

    method MoveCursor(d: int)
      requires base <= pp
      modifies `pp
      ensures pp == base + Clamp(old(pp) - base + d) - 1
    {
      if pp + d >= base {
        pp := pp + d;
      } else {
        pp := base;
      }
      pp := pp - 1;
    }

    /** The scraps from j + k to lo_ptr move down to j + 1. */
    method CloseUp(j: int, k: int)
      requires 0 <= j && k >= 1 && j + k - 1 <= lo < scraps.Length
      modifies scraps
      ensures scraps[..] == Closed(old(scraps[..]), j, k, lo)
    {
      hide Closed;
      ghost var was := scraps[..];
      var i, i1 := j + k, j + 1;
      ShiftNone(was, j, k);
      while i <= lo
        invariant j + k <= i <= lo + 1 && i1 == i - k + 1
        invariant scraps[..] == Closed(was, j, k, i - 1)
      {
        ghost var now := scraps[..];
        ShiftOne(was, j, k, i);
        scraps[i1] := scraps[i];
        assert scraps[..] == now[i1 := now[i]];
        i, i1 := i + 1, i1 + 1;
      }
    }

    /** Scrap x replaces the k scraps from j on. */
    method Replace(j: int, k: int, x: Scrap)
      requires Gap() && base <= j && k >= 1 && j + k - 1 <= lo
      modifies this`lo, scraps
      ensures lo == old(lo) - k + 1
      ensures LiveOf(scraps[..], base, lo, hi, top) == old(Live())[..j - base] + [x] + old(Live())[j - base + k..]
      ensures scraps[..][..base] == old(scraps[..])[..base]
    {
      hide LiveOf, Closed;
      ghost var was := scraps[..];
      scraps[j] := x;
      assert scraps[..] == was[j := x];
      if k > 1 {
        CloseUp(j, k);
        lo := lo - k + 1;
      } else {
        ClosedOne(was[j := x], j, lo);
      }
      Splice(was, base, old(lo), hi, top, j, k, x);
    }

    /** `reduce`: scrap j gets the text just built, and the k - 1 scraps after it go away. */
    method Reduce(j: int, k: int, c: Category, d: int, ghost from: nat)
      requires Gap() && base <= pp <= j && k >= 1 && j + k - 1 <= lo && 0 < |start| && from <= |tok| && d <= 1
      modifies this`start, this`lo, this`pp, scraps
      ensures Reduced() && Next() == Reductions.Reduce(old(Before(from)), old(Built(from)), j - base, k, c, d)
      ensures scraps[..][..base] == old(scraps[..])[..base]
    {
      hide LiveOf;
      assert |Live()| == lo + 1 - base + top + 1 - hi by { LiveLength(scraps[..], base, lo, hi, top); }
      Replace(j, k, Scrap(c, 4 * curMath + initMath, |start| - 1));
      start := start + [|tok|];
      MoveCursor(d);
      assert tok == tok[..from] + tok[from..];
    }

    /** Scraps j..j + k, one after the other. */
    method AppendRun(j: int, k: int, ghost from: nat)
      requires Gap() && base <= pp <= j && j + k - 1 <= lo && k >= 0 && from <= |tok|
      modifies `tok, `initMath, `curMath
      ensures old(tok) <= tok && Built(from) == Emit(old(Built(from)), Plain(j - pp, k), Live()[pp - base..])
    {
      hide Emit, Built, BigApp1;
      ghost var window := Live()[pp - base..];
      ghost var parts := Plain(j - pp, k);
      var i := j;
      assert parts[0..] == parts;
      while i < j + k
        invariant j <= i <= j + k && old(tok) <= tok
        invariant forall m :: 0 <= m < k ==> parts[m].i < |window| && window[parts[m].i] == scraps[j + m]
        invariant Emit(Built(from), parts[i - j..], window) == Emit(old(Built(from)), parts, window)
      {
        EmitPlain(Built(from), parts, i - j, window);
        BigAppScrap(i, from);
        i := i + 1;
      }
      EmitNone(Built(from), parts[k..], window);
    }

    lemma EmitPlain(b: Builder, parts: seq<Part>, m: nat, window: seq<Scrap>)
      requires m < |parts| && parts[m].after == [] && forall j :: 0 <= j < |parts| ==> parts[j].i < |window|
      ensures Emit(b, parts[m..], window) == Emit(BigApp1(b, window[parts[m].i]), parts[m + 1..], window)
    {
      assert parts[m..][1..] == parts[m + 1..];
    }

    lemma EmitNone(b: Builder, parts: seq<Part>, window: seq<Scrap>)
      requires parts == []
      ensures Emit(b, parts, window) == b
    {
    }

    /** `squash`: the category alone changes, or k scraps are appended one after the other. */
    method Squash(j: int, k: int, c: Category, d: int)
      requires Gap() && base <= pp <= j && k >= 1 && j + k - 1 <= lo && 0 < |start| && d <= 1
      requires initMath == MAYBE_MATH && curMath == MAYBE_MATH
      modifies this, scraps
      ensures base == old(base) && top == old(top) && hi == old(hi) && originals == old(originals)
      ensures Reduced()
      ensures k == 1 ==>
        var live := old(Live());
        Next() == State(live[j - base := live[j - base].(cat := c)], Clamp(old(pp) - base + d), old(World0()))
      ensures k > 1 ==>
        Next() ==
        Reductions.Reduce(old(Abs()), Emit(EMPTY, Plain(j - old(pp), k), Window(old(Abs()))), j - base, k, c, d)
      ensures scraps[..][..base] == old(scraps[..])[..base]
    {
      hide Emit, Plain, LiveOf, Reductions.Reduce;
      assert |Live()| == lo + 1 - base + top + 1 - hi by { LiveLength(scraps[..], base, lo, hi, top); }
      if k == 1 {
        SetCategory(j, c);
        MoveCursor(d);
      } else {
        ghost var from := |tok|;
        assert Built(from) == EMPTY;
        AppendRun(j, k, from);
        assert Before(from) == old(Abs());
        Reduce(j, k, c, d, from);
      }
    }

    method SetCategory(j: int, c: Category)
      requires Gap() && base <= j <= lo
      modifies scraps
      ensures Live() == old(Live())[j - base := old(Live())[j - base].(cat := c)]
      ensures scraps[..][..base] == old(scraps[..])[..base]
    {
      scraps[j] := scraps[j].(cat := c);
    }

    // ----- the loop of `translate`

    /** Where the live scrap with index i is stored. */
    ghost function Place(i: int): int
      reads this
    {
      if base + i <= lo then base + i else hi + (i - (lo + 1 - base))
    }

    method MakeReserved(p0: int)
      requires Gap() && base <= p0 <= lo && Readable(Mem()) && InMemory(Live(), Mem())
      modifies `tok, scraps
      ensures (Mem(), Live()) == Reductions.MakeReserved(old(Mem()), old(Live()), p0 - base)
      ensures scraps[..][..base] == old(scraps[..])[..base]
    {
      hide Reductions.MakeReserved, ReserveFrom, FindFrom, LiveOf, Memory.Valid;
      LiveLength(scraps[..], base, lo, hi, top);
      PlaceHolds(p0 - base);
      MakeReservedIs(Mem(), Live(), p0 - base);
      var loc := FindFrom(Mem(), scraps[p0].trans, start[scraps[p0].trans]);
      if loc.Some? {
        Finish(p0, loc.value);
      }
    }

    method Finish(p0: int, loc: nat)
      requires Gap() && base <= p0 <= lo && Readable(Mem()) && InMemory(Live(), Mem())
      requires p0 - base < |Live()| && loc < |tok| && IsName(tok[loc])
      modifies `tok, scraps
      ensures var r := ReserveFrom(old(Mem()), old(Live()), p0 - base, old(tok)[loc]);
        && Live() == r.1 && loc < |r.0.tok|
        && Mem() == r.0.(tok := r.0.tok[loc := ReserveName(old(tok)[loc])])
      ensures scraps[..][..base] == old(scraps[..])[..base]
    {
      hide ReserveFrom, LiveOf, Readable, InMemory, Memory.Valid, Relabelled;
      var name := tok[loc];
      ReserveLoop(p0, name);
      tok := tok[loc := ReserveName(name)];
    }

    /** Expressions from scrap p0 on that begin with `name` become type names. */
    method ReserveLoop(p0: int, name: Token)
      requires Gap() && base <= p0 <= lo && Readable(Mem()) && InMemory(Live(), Mem()) && IsName(name)
      requires p0 - base <= |Live()|
      modifies `tok, scraps
      ensures (Mem(), Live()) == ReserveFrom(old(Mem()), old(Live()), p0 - base, name)
      ensures |tok| == old(|tok|)
      ensures scraps[..][..base] == old(scraps[..])[..base]
    {
      hide ReserveFrom, LiveOf, Readable, InMemory, Retouched, Relabelled, Memory.Valid;
      LiveLength(scraps[..], base, lo, hi, top);
      var p := p0;
      ghost var i := p0 - base;
      while p <= top
        invariant |Live()| == old(|Live()|) == lo + 1 - base + top + 1 - hi && |tok| == old(|tok|)
        invariant 0 <= i <= |Live()| && p == Place(i)
        invariant Readable(Mem()) && InMemory(Live(), Mem())
        invariant ReserveFrom(Mem(), Live(), i, name) == ReserveFrom(old(Mem()), old(Live()), p0 - base, name)
        invariant scraps[..][..base] == old(scraps[..])[..base]
        decreases |Live()| - i
      {
        ReserveRound(p, i, name);
        p := if p == lo then hi else p + 1;
        i := i + 1;
      }
      assert i == |Live()|;
      ReserveEnd(Mem(), Live(), name);
    }

    lemma ReserveEnd(m: Memory, live: seq<Scrap>, name: Token)
      requires Readable(m) && InMemory(live, m) && IsName(name)
      ensures ReserveFrom(m, live, |live|, name) == (m, live)
    {
    }

    lemma PlaceHolds(i: nat)
      requires Gap() && i < |Live()|
      ensures 0 <= Place(i) < scraps.Length && scraps[Place(i)] == Live()[i]
    {
    }

    /** One round of that loop. */
    method ReserveRound(p: int, ghost i: int, name: Token)
      requires Gap() && 0 <= i < |Live()| && p == Place(i) && IsName(name)
      requires Readable(Mem()) && InMemory(Live(), Mem())
      modifies `tok, scraps
      ensures Readable(Mem()) && InMemory(Live(), Mem())
      ensures |Live()| == old(|Live()|) && |tok| == old(|tok|)
      ensures ReserveFrom(Mem(), Live(), i + 1, name) == ReserveFrom(old(Mem()), old(Live()), i, name)
      ensures scraps[..][..base] == old(scraps[..])[..base]
    {
      PlaceHolds(i);
      if scraps[p].cat == Exp && tok[start[scraps[p].trans]] == name {
        ReserveHere(p, i, start[scraps[p].trans], name);
      }
    }

    method ReserveHere(p: int, ghost i: int, first: nat, name: Token)
      requires Gap() && 0 <= i < |Live()| && p == Place(i) && IsName(name)
      requires Readable(Mem()) && InMemory(Live(), Mem())
      requires first == start[Live()[i].trans] && tok[first] == name && Live()[i].cat == Exp
      modifies `tok, scraps
      ensures Mem() == old(Mem()).(tok := old(tok)[first := ReserveName(name)])
      ensures Live() == old(Live())[i := old(Live())[i].(cat := RawInt)]
      ensures Readable(Mem()) && InMemory(Live(), Mem())
      ensures scraps[..][..base] == old(scraps[..])[..base]
    {
      assert scraps[p] == Live()[i];
      scraps[p] := scraps[p].(cat := RawInt);
      tok := tok[first := ReserveName(name)];
      RetouchedValid(old(Mem()), Mem());
    }

    /** Scraps move across the gap until four are at the cursor, or blanks stand for them. */
    method Refill()
      requires Gap()
      modifies `lo, `hi, scraps
      ensures Gap() && Live() == old(Live())
      ensures pp + 3 <= lo || hi == top + 1
      ensures forall m :: lo < m <= pp + 3 ==> scraps[m].cat == Blank
      ensures scraps[..][..base] == old(scraps[..])[..base]
    {
      if lo < pp + 3 {
        while hi <= top && lo != pp + 3
          invariant Gap() && Live() == old(Live()) && lo <= pp + 3
          invariant scraps[..][..base] == old(scraps[..])[..base]
          decreases top - hi
        {
          MoveOne();
        }
        BlankTo(pp + 3);
      }
    }

    method BlankTo(last: int)
      requires Gap() && last < scraps.Length && (hi == top + 1 || last <= lo)
      modifies scraps
      ensures Live() == old(Live())
      ensures forall m :: lo < m <= last ==> scraps[m].cat == Blank
      ensures scraps[..][..base] == old(scraps[..])[..base]
    {
      var i := lo + 1;
      while i <= last
        invariant lo + 1 <= i && (i <= last + 1 || i == lo + 1)
        invariant forall m :: lo < m < i ==> scraps[m].cat == Blank
        invariant scraps[..][..lo + 1] == old(scraps[..])[..lo + 1]
        invariant scraps[..][hi..] == old(scraps[..])[hi..] || hi == top + 1
      {
        scraps[i] := scraps[i].(cat := Blank);
        i := i + 1;
      }
      SameLive(old(scraps[..]), scraps[..], base, lo, hi, top);
    }

    lemma SameLive(s: seq<Scrap>, t: seq<Scrap>, base: int, lo: int, hi: int, top: int)
      requires |s| == |t| && 0 <= base <= lo + 1 <= hi <= top + 1 <= |s|
      requires s[..lo + 1] == t[..lo + 1] && (s[hi..] == t[hi..] || hi == top + 1)
      ensures s[..base] == t[..base] && LiveOf(s, base, lo, hi, top) == LiveOf(t, base, lo, hi, top)
    {
      assert s[..base] == s[..lo + 1][..base] && t[..base] == t[..lo + 1][..base];
      assert s[base..lo + 1] == s[..lo + 1][base..] && t[base..lo + 1] == t[..lo + 1][base..];
      assert s[hi..top + 1] == s[hi..][..top + 1 - hi] && t[hi..top + 1] == t[hi..][..top + 1 - hi];
    }

    method MoveOne()
      requires Gap() && hi <= top
      modifies `lo, `hi, scraps
      ensures Gap() && lo == old(lo) + 1 && hi == old(hi) + 1 && Live() == old(Live())
      ensures scraps[..][..base] == old(scraps[..])[..base]
    {
      lo := lo + 1;
      scraps[lo] := scraps[hi];
      hi := hi + 1;
    }

    /** A text built from characters and scraps, which then replaces the scraps. */
    method BuildText(before: seq<Op>, parts: seq<Part>, off: nat, k: nat, cat: Category, d: int)
      requires Gap() && k >= 1 && pp + off + k - 1 <= lo && 0 < |start| && d <= 1 && InOrder(parts, off, k)
      requires initMath == MAYBE_MATH && curMath == MAYBE_MATH
      modifies this, scraps
      ensures base == old(base) && top == old(top) && originals == old(originals) && Reduced()
      ensures old(Abs()).pp <= |old(Abs()).live| && old(Abs()).pp + off + k <= |old(Abs()).live|
      ensures Next() == Reductions.Reduce(old(Abs()), Emit(ApplyAll(EMPTY, before), parts, Window(old(Abs()))),
                                          old(pp) - base + off, k, cat, d)
      ensures scraps[..][..base] == old(scraps[..])[..base]
    {
      hide Emit, ApplyAll, LiveOf, Reductions.Reduce;
      LiveLength(scraps[..], base, lo, hi, top);
      ghost var from := |tok|;
      assert Built(from) == EMPTY;
      ghost var window := Window(Abs());
      forall j | 0 <= j < |parts|
        ensures scraps[pp + parts[j].i] == window[parts[j].i]
      {
        PlaceHolds(pp - base + parts[j].i);
      }
      AppendOps(before, from);
      AppendParts(parts, window, from);
      assert Before(from) == old(Abs());
      Reduce(pp + off, k, cat, d, from);
    }

    /** The productions for brackets: one character, in math mode, is the new text. */
    method ReplaceAngle(g: AngleGlyph, d: int, ghost n: nat)
      requires Gap() && pp <= lo && Valid(Abs()) && Fits(Abs(), Angle(g, d, n)) && d <= 1
      modifies this, scraps
      ensures base == old(base) && top == old(top) && originals == old(originals) && Reduced()
      ensures Next() == Fire(old(Abs()), Angle(g, d, n))
      ensures scraps[..][..base] == old(scraps[..])[..base]
    {
      hide LiveOf, Reductions.Reduce, Drop, Flat, Memory.Valid, Built, Valid, Fire;
      LiveLength(scraps[..], base, lo, hi, top);
      PlaceHolds(pp - base);
      FireAngle(Abs(), Angle(g, d, n));
      ghost var from := |tok|;
      ghost var marks := Drop(Flat(World0(), scraps[pp].trans));
      initMath, curMath := YES_MATH, YES_MATH;
      App(Ch(Code(g)));
      lost := lost[|start| - 1 := marks];
      BuiltOne(from, Ch(Code(g)));
      assert tok[..from] == old(tok);
      Reduce(pp, 1, Binop, d, from);
    }

    lemma BuiltOne(from: nat, a: Token)
      requires from + 1 == |tok| && tok[from] == a
      ensures Built(from) == Builder([a], initMath, curMath)
    {
    }

    /** `make_reserved`, and a text that is built after it. */
    method ReserveAndBuild(p: Production)
      requires Gap() && pp <= lo && Valid(Abs()) && Fits(Abs(), p) && p.Reserve? && p.d <= 1
      requires initMath == MAYBE_MATH && curMath == MAYBE_MATH && pp + p.off + p.k - 1 <= lo
      modifies this, scraps
      ensures base == old(base) && top == old(top) && originals == old(originals) && Reduced()
      ensures Next() == Fire(old(Abs()), p)
      ensures scraps[..][..base] == old(scraps[..])[..base]
    {
      hide Emit, ApplyAll, LiveOf, Reductions.Reduce, Reductions.MakeReserved, InOrder, Fire, Fits, Valid,
        Memory.Valid, Readable, InMemory;
      FireReserve(Abs(), p);
      MakeReserved(pp + p.at);
      BuildText(p.before, p.parts, p.off, p.k, p.cat, p.d);
    }

    /** One production at the cursor, and the step that follows it. */
    method Perform(p: Production)
      requires Gap() && pp <= lo && Valid(Abs()) && Fits(Abs(), p)
      requires initMath == MAYBE_MATH && curMath == MAYBE_MATH
      requires !p.Idle? ==> p.d <= 1
      requires p.Squash? || p.Build? || p.Reserve? ==> pp + p.off + p.k - 1 <= lo
      modifies this, scraps
      ensures base == old(base) && top == old(top) && originals == old(originals)
      ensures Gap() && Abs() == Fire(old(Abs()), p)
      ensures scraps[..][..base] == old(scraps[..])[..base]
    {
      hide Emit, ApplyAll, LiveOf, Reductions.Reduce, Plain, InOrder, Fire, Fits, Valid, Memory.Valid;
      FireIs(Abs(), p);
      LiveLength(scraps[..], base, lo, hi, top);
      if p.Angle? {
        ReplaceAngle(p.g, p.d, p.n);
      } else if p.Squash? {
        Squash(pp + p.off, p.k, p.cat, p.d);
      } else if p.Build? {
        BuildText(p.before, p.parts, p.off, p.k, p.cat, p.d);
      } else if p.Reserve? {
        ReserveAndBuild(p);
      }
      pp := pp + 1;
    }

    /** After a refill the four categories at the cursor are those of the live scraps. */
    lemma WindowCats()
      requires Gap() && (pp + 3 <= lo || hi == top + 1)
      requires forall m :: lo < m <= pp + 3 ==> scraps[m].cat == Blank
      ensures pp <= lo <==> Abs().pp < |Abs().live|
      ensures forall i :: 0 <= i < 4 ==> scraps[pp + i].cat == Abs().CatAt(i)
      ensures pp + 3 <= lo || |Abs().live| == lo + 1 - base
    {
      LiveLength(scraps[..], base, lo, hi, top);
      forall i | 0 <= i < 4
        ensures scraps[pp + i].cat == Abs().CatAt(i)
      {
        if Abs().pp + i < |Abs().live| {
          PlaceHolds(Abs().pp + i);
        }
      }
    }

    ghost function Input(): State
      requires 0 <= base <= top + 1 <= scraps.Length && 0 < |start|
      reads this, scraps
    {
      State(scraps[..][base..top + 1], 0, World(Mem(), |start| - 1, map[]))
    }

    /** Reduces all scraps from scrap_base on as far as they go. */
    method ReduceAll(ghost demand: seq<nat>)
      requires 0 <= base <= top + 1 && top + 5 <= scraps.Length && 0 < |start| && Fresh(Input(), demand)
      modifies this, scraps
      ensures base == old(base) && top == old(top)
      ensures Lawful(old(Input()), demand, Texts(old(Input()).live))
      ensures Gap() && Abs() == Run(old(Input()), demand, Texts(old(Input()).live), forceLines)
      ensures originals == old(|start|) - 1
      ensures hi == top + 1 && 0 < |start| && Lawful(Abs(), demand, Texts(old(Input()).live))
      ensures scraps[..][..base] == old(scraps[..])[..base]
    {
      hide Lawful, Run, Valid, Fire, Choose, LiveOf, SumRank, Texts, Fresh, Drop, Flat, Step;
      ghost var s0 := Input();
      ghost var cov := Texts(s0.live);
      FreshLawful(s0, demand);
      originals, lost := |start| - 1, map[];
      pp := base;
      lo := pp - 1;
      hi := pp;
      NothingReduced(scraps[..], base, top);
      assert Abs() == s0;
      while true
        invariant base == old(base) && top == old(top) && originals == old(|start|) - 1 && Gap()
        invariant Lawful(Abs(), demand, cov) && Abs().pp <= |Abs().live|
        invariant Run(Abs(), demand, cov, forceLines) == Run(s0, demand, cov, forceLines)
        invariant scraps[..][..base] == old(scraps[..])[..base]
        decreases |Abs().live|, SumRank(Abs().live), |Abs().live| - Abs().pp
      {
        var more := Pass(demand, cov);
        if !more {
          break;
        }
      }
      RunEnd(Abs(), demand, cov, forceLines);
      LawfulCount(Abs(), demand, cov);
    }

    /** One pass of the loop; false when the cursor is behind the last scrap. */
    method Pass(ghost demand: seq<nat>, ghost cov: seq<nat>) returns (more: bool)
      requires Gap() && Lawful(Abs(), demand, cov) && Abs().pp <= |Abs().live|
      modifies this, scraps
      ensures base == old(base) && top == old(top) && originals == old(originals) && Gap()
      ensures Lawful(Abs(), demand, cov) && Abs().pp <= |Abs().live|
      ensures Run(Abs(), demand, cov, forceLines) == Run(old(Abs()), demand, cov, forceLines)
      ensures if more then Smaller(Abs(), old(Abs())) else Abs().pp == |Abs().live| && hi == top + 1
      ensures scraps[..][..base] == old(scraps[..])[..base]
    {
      hide Lawful, Run, Valid, Fire, Choose, LiveOf, SumRank, Drop, Flat, Step;
      Refill();
      if pp > lo {
        WindowCats();
        return false;
      }
      initMath, curMath := MAYBE_MATH, MAYBE_MATH;
      OneStep(demand, cov);
      return true;
    }

    /** One pass of the loop, with a scrap at the cursor. */
    method OneStep(ghost demand: seq<nat>, ghost cov: seq<nat>)
      requires Gap() && pp <= lo && (pp + 3 <= lo || hi == top + 1)
      requires forall m :: lo < m <= pp + 3 ==> scraps[m].cat == Blank
      requires initMath == MAYBE_MATH && curMath == MAYBE_MATH
      requires Lawful(Abs(), demand, cov)
      modifies this, scraps
      ensures base == old(base) && top == old(top) && originals == old(originals) && Gap()
      ensures Lawful(Abs(), demand, cov) && Smaller(Abs(), old(Abs())) && Abs().pp <= |Abs().live|
      ensures Run(Abs(), demand, cov, forceLines) == Run(old(Abs()), demand, cov, forceLines)
      ensures scraps[..][..base] == old(scraps[..])[..base]
    {
      hide Choose, LiveOf, Fire, Drop, Flat, Lawful, Valid, SumRank, Run;
      ghost var s := Abs();
      WindowCats();
      RunStep(s, demand, cov, forceLines);
      assert scraps[pp + 0].cat == s.CatAt(0) && scraps[pp + 1].cat == s.CatAt(1);
      assert scraps[pp + 2].cat == s.CatAt(2) && scraps[pp + 3].cat == s.CatAt(3);
      var p := Choose(scraps[pp].cat, scraps[pp + 1].cat, scraps[pp + 2].cat, scraps[pp + 3].cat, forceLines);
      assert p == Chosen(s, forceLines);
      Perform(p);
      LiveLength(scraps[..], base, lo, hi, top);
    }

    /** `translate`: the scraps from scrap_base on are reduced, and what is left becomes
        one text, whose index is returned. */
    method Translate(ghost demand: seq<nat>) returns (t: nat)
      requires 0 <= base <= top + 1 && top + 5 <= scraps.Length && 0 < |start| && Fresh(Input(), demand)
      modifies this, scraps
      ensures base == old(base) && top == old(top)
      ensures World0() == Parse.Translate(old(Input()), demand, forceLines).w
      ensures t == Mem().Count() - 1 && originals == old(|start|) - 1 && Mem().Valid()
      ensures Scan(demand, Flat(World0(), t), NO_MATH) == NO_MATH
      ensures AllUnder(Covers(Flat(World0(), t))) == Texts(old(Input()).live)
      ensures Distinct(old(Input()).live) && Calm(old(Input()).live) ==> Conserved(Flat(World0(), t), old(Input()).live)
      ensures scraps[..][..base] == old(scraps[..])[..base]
    {
      hide Fresh, Lawful, Run, Join, Texts, LiveOf, Valid, Scan, Covers, Flat, AllUnder, Distinct, Calm, Conserved;
      TranslateIsSound(Input(), demand, forceLines);
      if Distinct(Input().live) && Calm(Input().live) {
        CalmConserves(Input(), demand, forceLines);
      }
      ReduceAll(demand);
      assert Abs().live == Live() && Abs().w == World0();
      JoinAll();
      t := |start| - 2;
    }

    /** The irreducible scraps make one text. */
    method JoinAll()
      requires Gap() && hi == top + 1 && 0 < |start|
      modifies `tok, `start
      ensures Mem() == Freeze(old(Mem()), Join(Live())) && Live() == old(Live())
    {
      hide LiveOf, Lay;
      ghost var live := Live();
      LiveLength(scraps[..], base, lo, hi, top);
      var j := base;
      while j <= lo
        invariant base <= j <= lo + 1
        invariant tok == old(tok) + Join(live[..j - base]) && Live() == live
        modifies `tok
      {
        PlaceHolds(j - base);
        JoinNext(live, j - base);
        if j != base {
          App(Ch(Code(Space)));
        }
        AppendLay(scraps[j]);
        j := j + 1;
      }
      assert live[..j - base] == live;
      start := start + [|tok|];
    }

    method AppendLay(x: Scrap)
      modifies `tok
      ensures tok == old(tok) + Lay(x)
    {
      if x.mathness % 4 == YES_MATH {
        App(Ch(DOLLAR));
      }
      App(Text(x.trans));
      if x.mathness / 4 == YES_MATH {
        App(Ch(DOLLAR));
      }
    }

    // ----- nested C text

    /** `app_scrap` on the tokens appended since the last text was frozen. */
    method AppScrap(u: Unit)
      requires 0 < |start| && 0 <= top + 1 < scraps.Length
      modifies `tok, `start, `top, scraps
      ensures tok == old(tok) + u.toks && start == old(start) + [|tok|] && top == old(top) + 1
      ensures scraps[..] == old(scraps[..])[top := Scrap(u.cat, 5 * u.mode, old(|start|) - 1)]
    {
      tok := tok + u.toks;
      top := top + 1;
      scraps[top] := Scrap(u.cat, 5 * u.mode, |start| - 1);
      start := start + [|tok|];
    }

    /** `C_translate`: the scraps of a piece of C text inside a comment or a line of TeX
        are put above all others and translated, and then forgotten. */
    method CTranslate(units: seq<Unit>) returns (t: nat)
      requires 0 <= base <= top + 1 && top + |units| + 6 <= scraps.Length
      requires 0 < |start| && Mem().Valid() && start[|start| - 1] == |tok|
      requires forall i :: 0 <= i < |units| ==> Acceptable(units[i], Mem().Count())
      modifies this, scraps
      ensures base == old(base) && top == old(top)
      ensures scraps[..][..top + 1] == old(scraps[..])[..top + 1]
      ensures var n := old(|start|) - 1; var all := WithClosing(units);
              var w := World(Mem(), n + |all|, lost); var demand := Demand(n, all);
        && w.mem.Valid() && t == w.mem.Count() - 1 && t >= 0
        && Scan(demand, Flat(w, t), NO_MATH) == NO_MATH
        && AllUnder(Covers(Flat(w, t))) == Numbers(n, |all|)
        && (Calm(ScrapsOf(n, all)) ==> Conserved(Flat(w, t), ScrapsOf(n, all)))
    {
      hide Fresh, Demand, Texts, Memory.Valid, Acceptable, Scan, Covers, Flat, Parse.Translate, Numbers, WithClosing,
        Input, AllUnder, Calm, Conserved, Distinct, ScrapsOf;
      var saveBase := base;
      base := top + 1;
      ghost var n := |start| - 1;
      ghost var all := WithClosing(units);
      CParse(units);
      t := Translate(Demand(n, all));
      top := base - 1;
      base := saveBase;
    }

    /** `C_parse`, and the insertion that closes the piece: the scraps stand above all others. */
    method CParse(units: seq<Unit>)
      requires 0 <= base == top + 1 && top + |units| + 6 <= scraps.Length
      requires 0 < |start| && Mem().Valid() && start[|start| - 1] == |tok|
      requires forall i :: 0 <= i < |units| ==> Acceptable(units[i], Mem().Count())
      modifies `tok, `start, `top, scraps
      ensures 0 <= base <= top + 1 && top + 5 <= scraps.Length && 0 < |start|
      ensures var n := old(|start|) - 1; var all := WithClosing(units);
        && |start| - 1 == n + |all|
        && Fresh(Input(), Demand(n, all))
        && Texts(Input().live) == Numbers(n, |all|)
        && Input().live == ScrapsOf(n, all) && Distinct(Input().live)
      ensures scraps[..][..base] == old(scraps[..])[..base]
    {
      hide Parsed, Acceptable, Memory.Valid, Demand, Fresh, Texts, Numbers, WithClosing, ScrapsOf, Distinct;
      ghost var m0 := Mem();
      ghost var all := WithClosing(units);
      WithClosingIs(units, m0.Count());
      ParsedNone(m0, all, scraps[..], base);
      var i := 0;
      while i < |units|
        invariant 0 <= i <= |units| && top == old(top) + i
        invariant Parsed(m0, all[..i], scraps[..], base, Mem())
        invariant |start| == old(|start|) + i && scraps[..][..base] == old(scraps[..])[..base]
      {
        ParsedNext(m0, all, i, scraps[..], base, Mem());
        AppScrap(units[i]);
        i := i + 1;
      }
      ParsedNext(m0, all, i, scraps[..], base, Mem());
      AppScrap(CLOSING);
      assert all[..i + 1] == all;
      ParsedFresh(m0, all, scraps[..], base, Mem());
    }
  }

  /** A scrap that `C_parse` appends: its tokens, its category and its mode. */
  datatype Unit = Unit(toks: seq<Token>, cat: Category, mode: nat)

  /** The empty insertion that ends every piece of C text. */
  const CLOSING := Unit([Ch(Code(Cancel))], Insert, MAYBE_MATH)

  function WithClosing(units: seq<Unit>): seq<Unit> {
    units + [CLOSING]
  }

  /** The numbers of k texts frozen one after the other, from n on. */
  function Numbers(n: nat, k: nat): seq<nat> {
    seq(k, i requires 0 <= i < k => n + i)
  }

  /** The scraps of the units, whose texts are n, n + 1, and so on. */
  function ScrapsOf(n: nat, units: seq<Unit>): seq<Scrap> {
    seq(|units|, i requires 0 <= i < |units| => Scrap(units[i].cat, 5 * units[i].mode, n + i))
  }

  ghost predicate Acceptable(u: Unit, n: nat) {
    u.cat != Blank && u.mode <= 2 && forall i :: 0 <= i < |u.toks| ==> RefersBelow(u.toks[i], n)
  }

  function Demand(n: nat, units: seq<Unit>): seq<nat> {
    seq(n, i => MAYBE_MATH) + seq(|units|, i requires 0 <= i < |units| => units[i].mode)
  }

  /** The given units have been appended to memory m0, giving m, and their scraps stored from `base` on. */
  ghost predicate Parsed(m0: Memory, units: seq<Unit>, s: seq<Scrap>, base: int, m: Memory) {
    && m0.Valid() && m.Valid() && m.start[|m.start| - 1] == |m.tok|
    && m.Count() == m0.Count() + |units|
    && 0 <= base && base + |units| <= |s|
    && forall i :: 0 <= i < |units| ==> s[base + i] == Scrap(units[i].cat, 5 * units[i].mode, m0.Count() + i)
  }

  lemma WithClosingIs(units: seq<Unit>, n: nat)
    requires forall i :: 0 <= i < |units| ==> Acceptable(units[i], n)
    ensures var all := WithClosing(units);
      && |all| == |units| + 1 && all[|units|] == CLOSING && (forall i :: 0 <= i < |units| ==> all[i] == units[i])
      && forall i :: 0 <= i < |all| ==> Acceptable(all[i], n)
  {
  }

  lemma ParsedNone(m0: Memory, all: seq<Unit>, s: seq<Scrap>, base: int)
    requires m0.Valid() && m0.start[|m0.start| - 1] == |m0.tok| && 0 <= base <= |s|
    ensures Parsed(m0, all[..0], s, base, m0)
  {
  }

  lemma ParsedNext(m0: Memory, all: seq<Unit>, i: nat, s: seq<Scrap>, base: int, m: Memory)
    requires i < |all| && base + i < |s| && Parsed(m0, all[..i], s, base, m) && Acceptable(all[i], m0.Count())
    ensures var u := all[i]; var m1 := Memory(m.tok + u.toks, m.start + [|m.tok + u.toks|]);
      && Parsed(m0, all[..i + 1], s[base + i := Scrap(u.cat, 5 * u.mode, m.Count())], base, m1)
      && m1.Count() > 0 && (u.toks != [] ==> m1.start[m1.Count() - 1] < |m1.tok|)
  {
    var m1 := Memory(m.tok + all[i].toks, m.start + [|m.tok + all[i].toks|]);
    forall t, j | 0 <= t < m1.Count() && m1.start[t] <= j < m1.start[t + 1]
      ensures RefersBelow(m1.tok[j], t)
    {
      if t == m.Count() {
        assert m1.tok[j] == all[i].toks[j - |m.tok|];
      } else {
        assert m1.start[t + 1] <= m.start[m.Count()];
        assert RefersBelow(m.tok[j], t);
      }
    }
    forall k | 0 <= k < i
      ensures s[base + i := Scrap(all[i].cat, 5 * all[i].mode, m.Count())][base + k]
           == Scrap(all[k].cat, 5 * all[k].mode, m0.Count() + k)
    {
      assert all[..i][k] == all[k];
    }
  }

  lemma ParsedFresh(m0: Memory, all: seq<Unit>, s: seq<Scrap>, base: int, m: Memory)
    requires Parsed(m0, all, s, base, m) && m0.Count() >= 0 && base + |all| <= |s|
    requires forall i :: 0 <= i < |all| ==> Acceptable(all[i], m0.Count())
    requires m.Count() > 0 && m.start[m.Count() - 1] < |m.tok|
    ensures var st := State(s[base..base + |all|], 0, World(m, m.Count(), map[])); var n := m0.Count();
      && Fresh(st, Demand(n, all))
      && Texts(st.live) == Numbers(n, |all|)
      && st.live == ScrapsOf(n, all) && Distinct(st.live)
  {
    hide Memory.Valid, Demand, Fresh, Acceptable;
    var live, n := s[base..base + |all|], m0.Count();
    forall i | 0 <= i < |live|
      ensures live[i] == Scrap(all[i].cat, 5 * all[i].mode, n + i)
    {
      assert live[i] == s[base + i];
    }
    assert live == ScrapsOf(n, all);
    assert Texts(live) == Numbers(n, |all|);
    ScrapsFresh(m, n, all);
  }

  lemma ScrapsFresh(m: Memory, n: nat, all: seq<Unit>)
    requires m.Valid() && m.Count() == n + |all| && m.start[m.Count()] == |m.tok|
    requires m.Count() > 0 && m.start[m.Count() - 1] < |m.tok|
    requires forall i :: 0 <= i < |all| ==> Acceptable(all[i], n)
    ensures Fresh(State(ScrapsOf(n, all), 0, World(m, m.Count(), map[])), Demand(n, all))
  {
    assert forall t :: 0 <= t < m.Count() ==> m.start[t] <= m.start[m.Count() - 1];
    forall i | 0 <= i < |all|
      ensures all[i].cat != Blank && all[i].mode <= 2
    {
      assert Acceptable(all[i], n);
    }
  }

  lemma NothingReduced(s: seq<Scrap>, base: int, top: int)
    requires 0 <= base <= top + 1 <= |s|
    ensures LiveOf(s, base, base - 1, base, top) == s[base..top + 1]
  {
  }

  lemma LawfulCount(s: State, demand: seq<nat>, cov: seq<nat>)
    requires Lawful(s, demand, cov)
    ensures s.w.mem.Count() >= 0
  {
  }

  lemma JoinNext(live: seq<Scrap>, i: nat)
    requires i < |live|
    ensures Join(live[..i + 1]) == Join(live[..i]) + (if i > 0 then [Ch(Code(Space))] else []) + Lay(live[i])
  {
    assert live[..i + 1][..i] == live[..i];
  }

  /** Everything one pass needs to know about its production. */
  lemma RunStep(s: State, demand: seq<nat>, cov: seq<nat>, forceLines: bool)
    requires Lawful(s, demand, cov) && s.pp < |s.live|
    ensures Valid(s) && s.live[s.pp].cat != Blank && (s.CatAt(1) == Blank ==> s.CatAt(2) == Blank)
    ensures s.CatAt(2) == Blank ==> s.CatAt(3) == Blank
    ensures forall i :: 0 <= i < |s.live| ==> s.live[i].cat != Blank
    ensures var p := Chosen(s, forceLines); var t := Fire(s, p);
      && Fits(s, p) && (!p.Idle? ==> p.d <= 1)
      && (p.Squash? || p.Build? || p.Reserve? ==> p.off + p.k <= 4)
      && Lawful(t, demand, cov) && Smaller(t, s)
      && Run(t, demand, cov, forceLines) == Run(s, demand, cov, forceLines)
  {
    hide Choose;
    ChosenFits(s, forceLines);
    StepShrinks(s, forceLines);
    FireKeeps(s, demand, cov, Chosen(s, forceLines));
    assert Step(s, forceLines) == Fire(s, Chosen(s, forceLines));
    hide Fire, SumRank;
  }

  lemma RunEnd(s: State, demand: seq<nat>, cov: seq<nat>, forceLines: bool)
    requires Lawful(s, demand, cov) && s.pp == |s.live|
    ensures Run(s, demand, cov, forceLines) == s
  {
  }

  lemma MakeReservedIs(m: Memory, live: seq<Scrap>, i: nat)
    requires Readable(m) && InMemory(live, m) && i < |live|
    ensures m.Valid() && live[i].trans < m.Count() && m.start[live[i].trans] <= m.start[live[i].trans + 1]
    ensures var loc := FindFrom(m, live[i].trans, m.start[live[i].trans]);
      && (loc.None? ==> Reductions.MakeReserved(m, live, i) == (m, live))
      && (loc.Some? ==>
            var r := ReserveFrom(m, live, i, m.tok[loc.value]);
            && loc.value < |r.0.tok|
            && Reductions.MakeReserved(m, live, i)
               == (r.0.(tok := r.0.tok[loc.value := ReserveName(m.tok[loc.value])]), r.1))
  {
  }

  lemma LiveLength(s: seq<Scrap>, base: int, lo: int, hi: int, top: int)
    requires 0 <= base <= lo + 1 <= hi <= top + 1 <= |s|
    ensures |LiveOf(s, base, lo, hi, top)| == lo + 1 - base + top + 1 - hi
  {
  }

  lemma ClosedOne(s: seq<Scrap>, j: int, lo: int)
    requires 0 <= j <= lo < |s|
    ensures Closed(s, j, 1, lo) == s
  {
  }

  lemma ShiftNone(was: seq<Scrap>, j: int, k: int)
    requires 0 <= j && k >= 1 && j + k <= |was|
    ensures Closed(was, j, k, j + k - 1) == was
  {
  }

  lemma ShiftOne(was: seq<Scrap>, j: int, k: int, i: int)
    requires 0 <= j && k >= 1 && j + k <= i < |was|
    ensures var now := Closed(was, j, k, i - 1);
            now[i] == was[i] && now[i - k + 1 := was[i]] == Closed(was, j, k, i)
  {
  }

  lemma Splice(was: seq<Scrap>, base: int, lo: int, hi: int, top: int, j: int, k: int, x: Scrap)
    requires 0 <= base <= j && k >= 1 && j + k - 1 <= lo < hi <= top + 1 < |was|
    ensures var now := Closed(was[j := x], j, k, lo); var live := LiveOf(was, base, lo, hi, top);
      && now[..base] == was[..base]
      && LiveOf(now, base, lo - k + 1, hi, top) == live[..j - base] + [x] + live[j - base + k..]
  {
    var now, live := Closed(was[j := x], j, k, lo), LiveOf(was, base, lo, hi, top);
    assert now[hi..top + 1] == was[hi..top + 1];
    assert live[..j - base] == was[base..j];
    assert live[j - base + k..] == was[j + k..lo + 1] + was[hi..top + 1];
    assert now[base..lo - k + 2] == was[base..j] + [x] + was[j + k..lo + 1];
  }
}
