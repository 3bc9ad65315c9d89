/** The parser's steps as functions on values: what one pass of the reduction loop
    does to the live scraps, the cursor and the token memory. */
module Reductions {
  import opened Productions
  import opened TokenMemory
  import opened Wrappers

  /** A scrap: category, mathness (4 * right mode + left mode) and text. */
  datatype Scrap = Scrap(cat: Category, mathness: nat, trans: nat)

  /** The live scraps in gap-buffer order, the cursor counted from scrap_base, and the texts. */
  datatype State = State(live: seq<Scrap>, pp: nat, w: World) {
    function CatAt(i: nat): Category {
      if pp + i < |live| then live[pp + i].cat else Blank
    }
  }

  /** The text being built: its tokens so far, and init_mathness and cur_mathness. */
  datatype Builder = Builder(toks: seq<Token>, init: nat, cur: nat)

  predicate IsLayout(c: nat) {
    c == Code(Space) || Code(BigCancel) <= c <= Code(BigForce)
  }

  /** The tokens with which the mode `cur` is changed to `needed`. */
  function Switch(cur: nat, needed: nat): seq<Token> {
    if cur == YES_MATH && needed == NO_MATH then [Ch(Code(LeftBrace)), Ch(Code(RightBrace)), Ch(DOLLAR)]
    else if cur == NO_MATH && needed == YES_MATH then [Ch(DOLLAR), Ch(Code(LeftBrace)), Ch(Code(RightBrace))]
    else []
  }

  function BigApp(b: Builder, c: nat): Builder {
    var needed := if IsLayout(c) then NO_MATH else YES_MATH;
    Builder(b.toks + Switch(b.cur, needed) + [Ch(c)], if b.cur == MAYBE_MATH then needed else b.init, needed)
  }

  function BigApp1(b: Builder, s: Scrap): Builder {
    var left := s.mathness % 4;
    if left == NO_MATH || left == YES_MATH then
      Builder(b.toks + Switch(b.cur, left) + [Text(s.trans)],
              if b.cur == MAYBE_MATH then left else b.init, s.mathness / 4)
    else Builder(b.toks + [Text(s.trans)], b.init, b.cur)
  }

  /** `app` on a character: whatever the mode is. */
  function AppChar(b: Builder, c: nat): Builder {
    b.(toks := b.toks + [Ch(c)])
  }

  function Apply(b: Builder, op: Op): Builder {
    match op
    case Big(g) => BigApp(b, Code(g))
    case Raw(g) => AppChar(b, Code(g))
    case Twice(g) => AppChar(BigApp(b, Code(g)), Code(g))
  }

  function ApplyAll(b: Builder, ops: seq<Op>): Builder
    decreases ops
  {
    if ops == [] then b else ApplyAll(Apply(b, ops[0]), ops[1..])
  }

  function Emit(b: Builder, parts: seq<Part>, window: seq<Scrap>): Builder
    requires forall j :: 0 <= j < |parts| ==> parts[j].i < |window|
    decreases parts
  {
    if parts == [] then b
    else Emit(ApplyAll(BigApp1(b, window[parts[0].i]), parts[0].after), parts[1..], window)
  }

  // ----- make_reserved

  /** Where `find_first_ident` finds a name in text t, from token j on; it gives up
      the text at an `inserted` token, and looks into texts referred to. */
  function FindFrom(m: Memory, t: nat, j: nat): (r: Option<nat>)
    requires m.Valid() && t < m.Count() && m.start[t] <= j <= m.start[t + 1]
    ensures r.Some? ==> r.value < |m.tok| && IsName(m.tok[r.value])
    decreases t, m.start[t + 1] - j
  {
    assert m.start[t + 1] <= m.start[|m.start| - 1];
    if j == m.start[t + 1] then None
    else if IsName(m.tok[j]) then Some(j)
    else if m.tok[j] == Ch(Code(InsertedCode)) then None
    else if m.tok[j].Text? || m.tok[j].InnerText? then
      var u := m.tok[j].text;
      assert RefersBelow(m.tok[j], t);
      var r := FindFrom(m, u, m.start[u]);
      if r.Some? then r else FindFrom(m, t, j + 1)
    else FindFrom(m, t, j + 1)
  }

  /** Every text begins inside the token memory, so its first token can be read even
      when the text is empty. */
  ghost predicate Readable(m: Memory) {
    m.Valid() && forall t :: 0 <= t < m.Count() ==> m.start[t] < |m.tok|
  }

  /** Exchanges some names for reserved words and changes nothing else. */
  ghost predicate Retouched(m: Memory, n: Memory) {
    && n.start == m.start && |n.tok| == |m.tok|
    && forall j :: 0 <= j < |m.tok| ==> n.tok[j] == m.tok[j] || (IsName(m.tok[j]) && IsName(n.tok[j]))
  }

  ghost predicate Relabelled(live: seq<Scrap>, after: seq<Scrap>) {
    && |after| == |live|
    && forall i :: 0 <= i < |live| ==>
         after[i] == live[i] || (live[i].cat == Exp && after[i] == live[i].(cat := RawInt))
  }

  ghost predicate InMemory(live: seq<Scrap>, m: Memory) {
    forall i :: 0 <= i < |live| ==> live[i].trans < m.Count()
  }

  function ReserveName(a: Token): Token
    requires IsName(a)
  {
    Res(a.name)
  }

  /** The loop of `make_reserved` from scrap i on: expressions that begin with the
      token `name` become type names, one after the other. */
  function ReserveFrom(m: Memory, live: seq<Scrap>, i: nat, name: Token): (r: (Memory, seq<Scrap>))
    requires Readable(m) && InMemory(live, m) && IsName(name) && i <= |live|
    ensures Retouched(m, r.0) && r.0.Valid() && Relabelled(live, r.1)
    decreases |live| - i
  {
    if i == |live| then (m, live)
    else
      var first := m.start[live[i].trans];
      if live[i].cat == Exp && m.tok[first] == name then
        var m1 := m.(tok := m.tok[first := ReserveName(name)]);
        RetouchedValid(m, m1);
        ReserveFrom(m1, live[i := live[i].(cat := RawInt)], i + 1, name)
      else ReserveFrom(m, live, i + 1, name)
  }

  lemma RetouchedValid(m: Memory, n: Memory)
    requires Readable(m) && Retouched(m, n)
    ensures Readable(n)
  {
    forall t, j | 0 <= t < n.Count() && n.start[t] <= j < n.start[t + 1]
      ensures RefersBelow(n.tok[j], t)
    {
      assert RefersBelow(m.tok[j], t);
    }
  }

  function MakeReserved(m: Memory, live: seq<Scrap>, i: nat): (r: (Memory, seq<Scrap>))
    requires Readable(m) && InMemory(live, m) && i < |live|
    ensures Retouched(m, r.0) && r.0.Valid() && Relabelled(live, r.1)
  {
    var loc := FindFrom(m, live[i].trans, m.start[live[i].trans]);
    if loc.None? then (m, live)
    else
      var r := ReserveFrom(m, live, i, m.tok[loc.value]);
      var m2 := r.0.(tok := r.0.tok[loc.value := ReserveName(m.tok[loc.value])]);
      RetouchedValid(m, m2);
      (m2, r.1)
  }

  /** Where the text of scrap j begins. */
  function First(m: Memory, live: seq<Scrap>, j: nat): nat
    requires m.Valid() && InMemory(live, m) && j < |live|
  {
    m.start[live[j].trans]
  }

  /** Scrap j is an expression that begins with the name a. */
  predicate BeginsWith(m: Memory, live: seq<Scrap>, j: nat, a: Token)
    requires Readable(m) && InMemory(live, m) && j < |live|
  {
    live[j].cat == Exp && m.tok[First(m, live, j)] == a
  }

  /** From m to n the name a has become a reserved word at the beginning of every expression from scrap i
      on that began with it, and nothing but that name has changed. */
  ghost predicate TokensReserved(m: Memory, live: seq<Scrap>, n: Memory, i: nat, a: Token)
    requires Readable(m) && InMemory(live, m) && IsName(a)
  {
    && |n.tok| == |m.tok|
    && (forall t :: 0 <= t < |m.tok| ==> n.tok[t] == m.tok[t] || (m.tok[t] == a && n.tok[t] == Res(a.name)))
    && (forall j :: i <= j < |live| && BeginsWith(m, live, j, a) ==> n.tok[First(m, live, j)] == Res(a.name))
  }

  /** The scraps whose category changed are such expressions, all of them if no two scraps begin at one place. */
  ghost predicate ScrapsReserved(m: Memory, live: seq<Scrap>, after: seq<Scrap>, i: nat, a: Token)
    requires Readable(m) && InMemory(live, m)
  {
    && |after| == |live|
    && (forall j :: 0 <= j < |live| && after[j] != live[j] ==>
          j >= i && BeginsWith(m, live, j, a) && after[j].cat == RawInt)
    && (StartsApart(m, live, i) ==>
          forall j :: i <= j < |live| && BeginsWith(m, live, j, a) ==> after[j].cat == RawInt)
  }

  ghost predicate StartsApart(m: Memory, live: seq<Scrap>, i: nat)
    requires m.Valid() && InMemory(live, m)
  {
    forall j, k :: i <= j < k < |live| ==> First(m, live, j) != First(m, live, k)
  }

  /** One expression and then the others. */
  lemma ReserveNext(m: Memory, live: seq<Scrap>, i: nat, a: Token, n: Memory, after: seq<Scrap>)
    requires Readable(m) && InMemory(live, m) && IsName(a) && i < |live| && BeginsWith(m, live, i, a)
    requires var m1 := m.(tok := m.tok[First(m, live, i) := Res(a.name)]);
             var live1 := live[i := live[i].(cat := RawInt)];
             && Readable(m1) && InMemory(live1, m1) && Relabelled(live1, after)
             && TokensReserved(m1, live1, n, i + 1, a) && ScrapsReserved(m1, live1, after, i + 1, a)
    ensures TokensReserved(m, live, n, i, a) && ScrapsReserved(m, live, after, i, a)
  {
    hide Memory.Valid;
    var first := First(m, live, i);
    var m1, live1 := m.(tok := m.tok[first := Res(a.name)]), live[i := live[i].(cat := RawInt)];
    forall j | 0 <= j < |live| && j != i
      ensures First(m1, live1, j) == First(m, live, j) && live1[j] == live[j]
      ensures First(m, live, j) != first ==> BeginsWith(m1, live1, j, a) == BeginsWith(m, live, j, a)
      ensures BeginsWith(m1, live1, j, a) ==> BeginsWith(m, live, j, a)
    {
      StartInside(m, live, j);
    }
    if StartsApart(m, live, i) {
      assert StartsApart(m1, live1, i + 1);
    }
  }

  lemma {:induction false} ReserveFromNames(m: Memory, live: seq<Scrap>, i: nat, name: Token)
    requires Readable(m) && InMemory(live, m) && IsName(name) && i <= |live|
    ensures var r := ReserveFrom(m, live, i, name);
      TokensReserved(m, live, r.0, i, name) && ScrapsReserved(m, live, r.1, i, name)
    decreases |live| - i
  {
    hide Memory.Valid, Readable, TokensReserved, ScrapsReserved;
    if i == |live| {
      ReserveNone(m, live, name);
    } else {
      StartInside(m, live, i);
      if BeginsWith(m, live, i, name) {
        var m1 := m.(tok := m.tok[First(m, live, i) := ReserveName(name)]);
        var live1 := live[i := live[i].(cat := RawInt)];
        RetouchedValid(m, m1);
        ReserveFromNames(m1, live1, i + 1, name);
        var r := ReserveFrom(m1, live1, i + 1, name);
        ReserveNext(m, live, i, name, r.0, r.1);
      } else {
        ReserveFromNames(m, live, i + 1, name);
        var r := ReserveFrom(m, live, i + 1, name);
        ReserveSkip(m, live, i, name, r.0, r.1);
      }
    }
  }

  lemma ReserveNone(m: Memory, live: seq<Scrap>, a: Token)
    requires Readable(m) && InMemory(live, m) && IsName(a)
    ensures TokensReserved(m, live, m, |live|, a) && ScrapsReserved(m, live, live, |live|, a)
  {
  }

  lemma ReserveSkip(m: Memory, live: seq<Scrap>, i: nat, a: Token, n: Memory, after: seq<Scrap>)
    requires Readable(m) && InMemory(live, m) && IsName(a) && i < |live| && !BeginsWith(m, live, i, a)
    requires TokensReserved(m, live, n, i + 1, a) && ScrapsReserved(m, live, after, i + 1, a)
    ensures TokensReserved(m, live, n, i, a) && ScrapsReserved(m, live, after, i, a)
  {
    hide Memory.Valid;
    if StartsApart(m, live, i) {
      assert StartsApart(m, live, i + 1);
    }
  }

  lemma StartInside(m: Memory, live: seq<Scrap>, i: nat)
    requires Readable(m) && InMemory(live, m) && i < |live|
    ensures m.Valid() && First(m, live, i) < |m.tok|
  {
  }

  lemma ReserveLast(m: Memory, live: seq<Scrap>, i: nat, a: Token, n: Memory, loc: nat)
    requires Readable(m) && InMemory(live, m) && IsName(a) && TokensReserved(m, live, n, i, a)
    requires loc < |m.tok| && m.tok[loc] == a
    ensures |n.tok| == |m.tok| && TokensReserved(m, live, n.(tok := n.tok[loc := Res(a.name)]), i, a)
  {
    hide Memory.Valid;
  }

  /** After `make_reserved` the expressions that began with the name begin with a reserved word. */
  lemma ReservedBegin(m: Memory, live: seq<Scrap>, i: nat)
    requires Readable(m) && InMemory(live, m) && i < |live|
    ensures m.Valid()
    ensures var loc := FindFrom(m, live[i].trans, m.start[live[i].trans]); var r := MakeReserved(m, live, i);
      && (loc.None? ==> r == (m, live))
      && (loc.Some? ==> r.0.tok[loc.value] == Res(m.tok[loc.value].name)
                        && TokensReserved(m, live, r.0, i, m.tok[loc.value])
                        && ScrapsReserved(m, live, r.1, i, m.tok[loc.value]))
  {
    hide TokensReserved, ScrapsReserved;
    var loc := FindFrom(m, live[i].trans, m.start[live[i].trans]);
    if loc.Some? {
      var a := m.tok[loc.value];
      ReserveFromNames(m, live, i, a);
      ReserveLast(m, live, i, a, ReserveFrom(m, live, i, a).0, loc.value);
    }
  }

  // ----- one step

  /** What holds between steps: all texts are frozen, the texts that productions made
      hold characters and references only, and every live scrap is real. */
  ghost predicate Valid(s: State) {
    && Readable(s.w.mem) && s.w.mem.start[s.w.mem.Count()] == |s.w.mem.tok|
    && s.w.originals <= s.w.mem.Count()
    && (forall t :: t in s.w.lost ==> s.w.originals <= t < s.w.mem.Count())
    && (forall t, j :: s.w.originals <= t < s.w.mem.Count() && s.w.mem.start[t] <= j < s.w.mem.start[t + 1] ==>
          s.w.mem.tok[j].Ch? || s.w.mem.tok[j].Text?)
    && InMemory(s.live, s.w.mem)
    && (forall i :: 0 <= i < |s.live| ==> s.live[i].cat != Blank)
  }

  function Clamp(p: int): nat {
    if p >= 0 then p else 0
  }

  function Freeze(m: Memory, toks: seq<Token>): Memory {
    Memory(m.tok + toks, m.start + [|m.tok + toks|])
  }

  /** `reduce`, and the move of the cursor that follows: k scraps become one, whose
      text is the one just built. */
  function Reduce(s: State, b: Builder, at: nat, k: nat, cat: Category, d: int): State
    requires at + k <= |s.live| && s.w.mem.Count() >= 0
  {
    State(s.live[..at] + [Scrap(cat, 4 * b.cur + b.init, s.w.mem.Count())] + s.live[at + k..],
          Clamp(s.pp + d), s.w.(mem := Freeze(s.w.mem, b.toks)))
  }

  const EMPTY := Builder([], MAYBE_MATH, MAYBE_MATH)

  function Plain(off: nat, k: nat): seq<Part> {
    seq(k, i requires 0 <= i < k => Part(off + i, []))
  }

  /** The scraps from the cursor on. */
  function Window(s: State): seq<Scrap>
    requires s.pp <= |s.live|
  {
    s.live[s.pp..]
  }

  ghost predicate Fits(s: State, p: Production) {
    && s.pp < |s.live|
    && match p
       case Idle => true
       case Angle(_, _, _) => true
       case Squash(off, k, _, _, _) => k >= 1 && s.pp + off + k <= |s.live|
       case Build(_, parts, off, k, _, _, _) => k >= 1 && s.pp + off + k <= |s.live| && InOrder(parts, off, k)
       case Reserve(at, _, parts, off, k, _, _, _) =>
         k >= 1 && s.pp + off + k <= |s.live| && InOrder(parts, off, k) && at < off + k
  }

  /** One production at the cursor. */
  ghost function Fire(s: State, p: Production): State
    requires Valid(s) && Fits(s, p)
  {
    match p
    case Idle => s.(pp := s.pp + 1)
    case Angle(g, d, _) =>
      var n := s.w.mem.Count();
      var marks := Drop(Flat(s.w, s.live[s.pp].trans));
      Reduce(s.(w := s.w.(lost := s.w.lost[n := marks])), Builder([Ch(Code(g))], YES_MATH, YES_MATH),
             s.pp, 1, Binop, d)
    case Squash(off, k, cat, d, _) =>
      if k == 1 then
        State(s.live[s.pp + off := s.live[s.pp + off].(cat := cat)], Clamp(s.pp + d), s.w)
      else Reduce(s, Emit(EMPTY, Plain(off, k), Window(s)), s.pp + off, k, cat, d)
    case Build(before, parts, off, k, cat, d, _) =>
      Reduce(s, Emit(ApplyAll(EMPTY, before), parts, Window(s)), s.pp + off, k, cat, d)
    case Reserve(at, before, parts, off, k, cat, d, _) =>
      var r := MakeReserved(s.w.mem, s.live, s.pp + at);
      var s1 := s.(live := r.1, w := s.w.(mem := r.0));
      Reduce(s1, Emit(ApplyAll(EMPTY, before), parts, Window(s1)), s.pp + off, k, cat, d)
  }

  /** The same, production by production. */
  lemma FireIs(s: State, p: Production)
    requires Valid(s) && Fits(s, p)
    ensures s.w.mem.Valid() && s.w.mem.Count() >= 0 && s.pp < |s.live|
    ensures p.Idle? ==> Fire(s, p) == s.(pp := s.pp + 1)
    ensures p.Squash? || p.Build? ==> p.k >= 1 && s.pp + p.off + p.k <= |s.live|
    ensures p.Squash? && p.k == 1 ==>
              Fire(s, p) == State(s.live[s.pp + p.off := s.live[s.pp + p.off].(cat := p.cat)], Clamp(s.pp + p.d), s.w)
    ensures p.Squash? && p.k > 1 ==>
              Fire(s, p) == Reduce(s, Emit(EMPTY, Plain(p.off, p.k), Window(s)), s.pp + p.off, p.k, p.cat, p.d)
    ensures p.Build? ==>
              && InOrder(p.parts, p.off, p.k)
              && Fire(s, p) == Reduce(s, Emit(ApplyAll(EMPTY, p.before), p.parts, Window(s)),
                                      s.pp + p.off, p.k, p.cat, p.d)
  {
    hide Emit, ApplyAll, MakeReserved, Drop, Flat, Reduce, Memory.Valid;
  }

  lemma FireAngle(s: State, p: Production)
    requires Valid(s) && Fits(s, p) && p.Angle?
    ensures s.w.mem.Valid() && s.w.mem.Count() >= 0 && s.live[s.pp].trans < s.w.mem.Count()
    ensures var lost := s.w.lost[s.w.mem.Count() := Drop(Flat(s.w, s.live[s.pp].trans))];
            Fire(s, p) == Reduce(s.(w := s.w.(lost := lost)), Builder([Ch(Code(p.g))], YES_MATH, YES_MATH),
                                 s.pp, 1, Binop, p.d)
  {
    hide Drop, Flat, Reduce, Memory.Valid;
  }

  lemma FireReserve(s: State, p: Production)
    requires Valid(s) && Fits(s, p) && p.Reserve?
    ensures Readable(s.w.mem) && InMemory(s.live, s.w.mem)
    ensures InOrder(p.parts, p.off, p.k) && p.k >= 1 && p.at < p.off + p.k && s.pp + p.off + p.k <= |s.live|
    ensures var r := MakeReserved(s.w.mem, s.live, s.pp + p.at);
            var s1 := s.(live := r.1, w := s.w.(mem := r.0));
      && |r.1| == |s.live| && r.0.Count() == s.w.mem.Count() >= 0
      && Fire(s, p) == Reduce(s1, Emit(ApplyAll(EMPTY, p.before), p.parts, Window(s1)),
                              s.pp + p.off, p.k, p.cat, p.d)
  {
    hide Emit, ApplyAll, MakeReserved, Reduce, Memory.Valid;
  }
}
