/** Whether the signs in a C file can be told apart.  Blanks between signs are not kept,
    so that signs which were apart in the web may stand side by side in the file.  They are
    read back as they were exactly if no sign and the next make up a longer one. */
module SignReading {
  import opened CFile
  import opened Expansion
  import opened TangleTokens
  import opened Wrappers

  // ---- Reading signs -----------------------------------------------------------

  const PLUS: nat := 43
  const MINUS: nat := 45
  const DOT: nat := 46
  const COLON: nat := 58
  const LESS: nat := 60
  const GREATER: nat := 62
  const AMPERSAND: nat := 38
  const BAR: nat := 124
  const BANG: nat := 33

  /** What `get_next` makes of the bytes at its place: a comment begins, or a sign of some length. */
  datatype Lexeme = Comment | One(code: nat, size: nat)

  /** The byte at k; a line ends with a blank. */
  function ByteAt(bytes: seq<nat>, k: nat): nat {
    if k < |bytes| then bytes[k] else SPACE
  }

  function ReadSign(bytes: seq<nat>): (r: Lexeme)
    requires bytes != []
    ensures r.One? ==> 1 <= r.size <= |bytes|
  {
    var c, n, n2 := bytes[0], ByteAt(bytes, 1), ByteAt(bytes, 2);
    if c == SLASH && (n == STAR || n == SLASH) then Comment
    else if c == PLUS && n == PLUS then One(11, 2)
    else if c == MINUS && n == MINUS then One(1, 2)
    else if c == MINUS && n == GREATER then (if n2 == STAR then One(23, 3) else One(25, 2))
    else if c == DOT && n == STAR then One(22, 2)
    else if c == DOT && n == DOT && n2 == DOT then One(14, 3)
    else if c == COLON && n == COLON then One(6, 2)
    else if c == EQUALS && n == EQUALS then One(30, 2)
    else if c == GREATER && n == EQUALS then One(29, 2)
    else if c == GREATER && n == GREATER then One(17, 2)
    else if c == LESS && n == EQUALS then One(28, 2)
    else if c == LESS && n == LESS then One(16, 2)
    else if c == AMPERSAND && n == AMPERSAND then One(4, 2)
    else if c == BAR && n == BAR then One(31, 2)
    else if c == BANG && n == EQUALS then One(26, 2)
    else One(c, 1)
  }

  /** The signs in some bytes, without the blanks; None if a comment begins in them. */
  function Scan(bytes: seq<nat>): Option<seq<nat>>
    decreases |bytes|
  {
    if bytes == [] then Some([])
    else if bytes[0] == SPACE then Scan(bytes[1..])
    else
      match ReadSign(bytes)
      case Comment => None
      case One(c, n) =>
        var rest := Scan(bytes[n..]);
        if rest.None? then None else Some([c] + rest.value)
  }

  /** The one-byte codes of operators, and the characters that stand for themselves. */
  predicate Sign(b: nat) {
    || b in {1, 4, 6, 11, 14, 16, 17, 22, 23, 25, 26, 28, 29, 30, 31}
    || b in {33, 35, 36, 37, 38} || 40 <= b <= 47 || 58 <= b <= 63 || b in {91, 93, 94, 96} || 123 <= b <= 126
  }

  function Spelling(b: nat): seq<nat> {
    if b == EQUALS then [EQUALS] else Operator(b)
  }

  /** What is read is the longest sign that is there. */
  lemma LongestSign(bytes: seq<nat>, b: nat)
    requires bytes != [] && ReadSign(bytes).One? && Sign(b) && Spelling(b) <= bytes
    ensures |Spelling(b)| <= ReadSign(bytes).size
    ensures Spelling(ReadSign(bytes).code) <= bytes || !Sign(bytes[0])
  {
  }

  // ---- Signs that run together -------------------------------------------------

  /** A sign as it is written: its code, and whether a blank stands before it. */
  datatype Spelled = Spelled(code: nat, spaced: bool)

  function TextOf(t: Spelled): seq<nat> {
    If(t.spaced, SPACE) + Operator(t.code)
  }

  function SpellAll(ts: seq<Spelled>): seq<nat> {
    if ts == [] then [] else TextOf(ts[0]) + SpellAll(ts[1..])
  }

  function Codes(ts: seq<Spelled>): seq<nat> {
    seq(|ts|, i requires 0 <= i < |ts| => ts[i].code)
  }

  /** Sign a is not read as such when sign b follows it at once. */
  predicate Merges(a: nat, b: nat) {
    || (a == PLUS && b in {PLUS, 11})
    || (a == MINUS && b in {MINUS, GREATER, 1, 17, 23, 25, 29})
    || (a == 25 && b == STAR)
    || (a == DOT && b in {STAR, 14})
    || (a == COLON && b in {COLON, 6})
    || (a == GREATER && b in {EQUALS, GREATER, 17, 29, 30})
    || (a == LESS && b in {EQUALS, LESS, 16, 28, 30})
    || (a == AMPERSAND && b in {AMPERSAND, 4})
    || (a == BAR && b in {BAR, 31})
    || (a == BANG && b in {EQUALS, 30})
    || (a == SLASH && b in {SLASH, STAR})
  }

  /** Two dots are read as such unless a third follows. */
  predicate Dots(a: nat, b: nat, c: nat) {
    a == DOT && b == DOT && c in {DOT, 14, 22}
  }

  /** The first sign can be told from the next ones. */
  predicate FirstApart(ts: seq<Spelled>) {
    && (|ts| >= 2 && !ts[1].spaced ==> !Merges(ts[0].code, ts[1].code))
    && (|ts| >= 3 && !ts[1].spaced && !ts[2].spaced ==> !Dots(ts[0].code, ts[1].code, ts[2].code))
  }

  predicate Apart(ts: seq<Spelled>) {
    forall k :: 0 <= k < |ts| ==> FirstApart(ts[k..])
  }

  predicate Signs(ts: seq<Spelled>) {
    forall k :: 0 <= k < |ts| ==> Sign(ts[k].code)
  }

  /** Bytes c and d after sign a make it a longer one, or a comment. */
  predicate Takes(a: nat, c: nat, d: nat) {
    || (a == PLUS && c == PLUS) || (a == MINUS && c in {MINUS, GREATER}) || (a == 25 && c == STAR)
    || (a == DOT && (c == STAR || (c == DOT && d == DOT)))
    || (a == COLON && c == COLON) || (a == GREATER && c in {EQUALS, GREATER}) || (a == LESS && c in {EQUALS, LESS})
    || (a == AMPERSAND && c == AMPERSAND) || (a == BAR && c == BAR) || (a == BANG && c == EQUALS)
    || (a == SLASH && c in {SLASH, STAR})
  }

  lemma FirstRead(a: nat, rest: seq<nat>)
    requires Sign(a)
    ensures Operator(a) != [] && Operator(a)[0] != SPACE
    ensures var r := ReadSign(Operator(a) + rest);
      if Takes(a, ByteAt(rest, 0), ByteAt(rest, 1)) then r.Comment? || r.code != a
      else r == One(a, |Spelling(a)|)
  {
    var bytes := Operator(a) + rest;
    assert |Operator(a)| == 1 ==> ByteAt(bytes, 1) == ByteAt(rest, 0) && ByteAt(bytes, 2) == ByteAt(rest, 1);
    assert |Operator(a)| == 2 ==> ByteAt(bytes, 1) == Operator(a)[1] && ByteAt(bytes, 2) == ByteAt(rest, 0);
    assert |Operator(a)| == 3 ==> ByteAt(bytes, 1) == Operator(a)[1] && ByteAt(bytes, 2) == Operator(a)[2];
  }

  lemma FirstByte(ts: seq<Spelled>)
    requires Signs(ts)
    ensures ByteAt(SpellAll(ts), 0) == if ts == [] || ts[0].spaced then SPACE else Operator(ts[0].code)[0]
    ensures ts != [] && !ts[0].spaced ==>
              ByteAt(SpellAll(ts), 1) == if |Operator(ts[0].code)| > 1 then Operator(ts[0].code)[1]
                                         else ByteAt(SpellAll(ts[1..]), 0)
  {
  }

  /** The table says what the bytes say. */
  lemma TakesNext(ts: seq<Spelled>)
    requires Signs(ts) && ts != []
    ensures Takes(ts[0].code, ByteAt(SpellAll(ts[1..]), 0), ByteAt(SpellAll(ts[1..]), 1)) <==> !FirstApart(ts)
  {
    hide SpellAll;
    FirstByte(ts[1..]);
    if |ts| >= 2 {
      assert ts[1..][1..] == ts[2..];
      FirstByte(ts[2..]);
      TakesPair(ts[0].code, ts[1].code);
      if |ts| >= 3 {
        DotFirst(ts[2].code);
      }
      DotFirst(ts[1].code);
    }
  }

  lemma TakesPair(a: nat, b: nat)
    requires Sign(a) && Sign(b)
    ensures Operator(b) != []
    ensures Merges(a, b) <==> Takes(a, Operator(b)[0], if |Operator(b)| > 1 then Operator(b)[1] else SPACE)
    ensures !Merges(a, b) && a == DOT && Operator(b)[0] == DOT ==> b == DOT || b == 22
  {
  }

  lemma DotFirst(c: nat)
    requires Sign(c)
    ensures Operator(c) != [] && (Operator(c)[0] == DOT <==> c in {DOT, 14, 22})
    ensures c == DOT ==> |Operator(c)| == 1
    ensures c == 22 ==> Operator(c)[1] == STAR
  {
  }

  lemma SkipBlank(bytes: seq<nat>)
    ensures Scan([SPACE] + bytes) == Scan(bytes)
  {
    assert ([SPACE] + bytes)[1..] == bytes;
  }

  /** A run of signs is read back as it was if and only if every sign can be told from the
      next ones. */
  lemma {:induction false} ReadBack(ts: seq<Spelled>)
    requires Signs(ts)
    ensures Scan(SpellAll(ts)) == Some(Codes(ts)) <==> Apart(ts)
  {
    hide Scan, Apart, FirstApart, Takes, ReadSign, Operator, Sign;
    if ts == [] {
      NothingToRead();
      assert Codes(ts) == [];
    } else {
      var a, rest := ts[0].code, SpellAll(ts[1..]);
      ReadBack(ts[1..]);
      ApartStep(ts);
      assert Codes(ts) == [a] + Codes(ts[1..]);
      assert SpellAll(ts) == if ts[0].spaced then [SPACE] + (Operator(a) + rest) else Operator(a) + rest;
      SkipBlank(Operator(a) + rest);
      TakesNext(ts);
      ScanFirst(a, rest, Codes(ts[1..]));
    }
  }

  lemma NothingToRead()
    ensures Scan([]) == Some([]) && Apart([])
  {
  }

  lemma ScanFirst(a: nat, rest: seq<nat>, codes: seq<nat>)
    requires Sign(a)
    ensures Scan(Operator(a) + rest) == Some([a] + codes) <==>
            !Takes(a, ByteAt(rest, 0), ByteAt(rest, 1)) && Scan(rest) == Some(codes)
  {
    hide ReadSign, Operator, Takes, Sign, ByteAt, Spelling;
    var bytes := Operator(a) + rest;
    FirstRead(a, rest);
    AfterFirst(a, rest);
    assert bytes != [] && bytes[0] != SPACE;
    if !Takes(a, ByteAt(rest, 0), ByteAt(rest, 1)) && Scan(rest).Some? {
      assert ([a] + Scan(rest).value)[1..] == Scan(rest).value && ([a] + codes)[1..] == codes;
    }
    if Scan(bytes) == Some([a] + codes) {
      assert Scan(bytes).value[0] == a;
    }
  }

  /** After a sign that is read as such the rest is read. */
  lemma AfterFirst(a: nat, rest: seq<nat>)
    requires Sign(a)
    ensures |Spelling(a)| <= |Operator(a) + rest| && Scan((Operator(a) + rest)[|Spelling(a)|..]) == Scan(rest)
  {
    var n := |Spelling(a)|;
    if a == EQUALS {
      assert (Operator(a) + rest)[1..] == [SPACE] + rest;
      SkipBlank(rest);
    } else {
      assert (Operator(a) + rest)[n..] == rest;
    }
  }

  lemma ApartStep(ts: seq<Spelled>)
    requires ts != []
    ensures Apart(ts) <==> FirstApart(ts) && Apart(ts[1..])
  {
    assert ts[0..] == ts;
    forall k | 0 <= k < |ts| - 1
      ensures ts[1..][k..] == ts[k + 1..]
    {
    }
    if FirstApart(ts) && Apart(ts[1..]) {
      forall k | 0 <= k < |ts|
        ensures FirstApart(ts[k..])
      {
        assert k > 0 ==> ts[1..][k - 1..] == ts[k..];
      }
    }
    if Apart(ts) {
      forall k | 0 <= k < |ts| - 1
        ensures FirstApart(ts[1..][k..])
      {
        assert FirstApart(ts[k + 1..]);
      }
    }
  }

  // ---- In the file -------------------------------------------------------------

  /** The event before place j that decides the output state there, if all between i and j write
      nothing: the last join or delimiter, or i. */
  function LastJoin(es: seq<Event>, i: nat, j: nat): (l: nat)
    requires i < j <= |es|
    ensures i <= l < j && (l > i ==> JoinsSigns(es[l]))
    ensures forall k :: l < k < j ==> !JoinsSigns(es[k])
  {
    if j == i + 1 then i else if JoinsSigns(es[j - 1]) then j - 1 else LastJoin(es, i, j - 1)
  }

  lemma {:induction false} StateLast(m: Mode, es: seq<Event>, i: nat, j: nat)
    requires i < j <= |es| && Silent(m, es, i, j)
    ensures var l := LastJoin(es, i, j); StateAt(m, es, j) == After(StateAt(m, es, l), es[l])
    decreases j
  {
    StateStep(m, es, j - 1);
    if i < j - 1 && !JoinsSigns(es[j - 1]) {
      assert Silent(m, es, i, j - 1);
      StateLast(m, es, i, j - 1);
      assert Says(m, es, j - 1) == [];
      SilentEvent(m, es, j - 1);
    }
  }

  lemma JoinedLast(es: seq<Event>, i: nat, j: nat)
    requires i < j <= |es|
    ensures Joined(es, i, j, false) <==> LastJoin(es, i, j) > i
  {
  }

  /** Event k writes a sign outside quotation. */
  ghost predicate SignAt(es: seq<Event>, k: nat)
    requires Inside(es, 0).Some?
  {
    k < |es| && es[k].Put? && Sign(es[k].b) && Region(es, k) == 0
  }

  function SpelledAt(m: Mode, es: seq<Event>, k: nat): Spelled
    requires k < |es| && es[k].Put?
  {
    Spelled(es[k].b, es[k].b == STAR && StateAt(m, es, k).PostSlash?)
  }

  lemma SaysSign(m: Mode, es: seq<Event>, k: nat)
    requires Inside(es, 0).Some? && SignAt(es, k)
    ensures Says(m, es, k) == Chars(TextOf(SpelledAt(m, es, k))) && Says(m, es, k) != []
  {
    hide Region, Inside, StateAt, ModeAfter;
    var b := es[k].b;
    OperatorSigns(b);
    assert b == STAR ==> Operator(b) == [STAR];
  }

  /** A blank is written before a star exactly if a slash is before it and nothing joins them. */
  lemma SpacedAt(m: Mode, es: seq<Event>, i: nat, j: nat)
    requires Inside(es, 0).Some? && Neighbours(m, es, i, j) && SignAt(es, i) && SignAt(es, j)
    ensures SpelledAt(m, es, j).spaced <==> es[i].b == SLASH && es[j].b == STAR && !Joined(es, i, j, false)
  {
    hide Region, Inside, StateAt, Says, Operator;
    StateLast(m, es, i, j);
    JoinedLast(es, i, j);
  }

  /** The signs that events ks write come one after the other, with nothing between. */
  ghost predicate Chain(m: Mode, es: seq<Event>, ks: seq<nat>)
    requires Inside(es, 0).Some?
  {
    && (forall n :: 0 <= n < |ks| ==> SignAt(es, ks[n]))
    && forall n :: 0 <= n < |ks| - 1 ==> Neighbours(m, es, ks[n], ks[n + 1])
  }

  ghost function Run(m: Mode, es: seq<Event>, ks: seq<nat>): seq<Spelled>
    requires Inside(es, 0).Some? && Chain(m, es, ks)
  {
    seq(|ks|, n requires 0 <= n < |ks| => assert SignAt(es, ks[n]); SpelledAt(m, es, ks[n]))
  }

  lemma CharsAppend(a: seq<nat>, b: seq<nat>)
    ensures Chars(a + b) == Chars(a) + Chars(b)
  {
  }

  lemma {:induction false} SpellMore(ts: seq<Spelled>, t: Spelled)
    ensures SpellAll(ts + [t]) == SpellAll(ts) + TextOf(t)
  {
    hide TextOf;
    if ts == [] {
      assert [t][1..] == [] && [] + [t] == [t];
      assert SpellAll([t]) == TextOf(t) + SpellAll([]);
      assert TextOf(t) + [] == TextOf(t) == [] + TextOf(t);
    } else {
      assert (ts + [t])[1..] == ts[1..] + [t] && (ts + [t])[0] == ts[0];
      SpellMore(ts[1..], t);
      assert TextOf(ts[0]) + (SpellAll(ts[1..]) + TextOf(t)) == TextOf(ts[0]) + SpellAll(ts[1..]) + TextOf(t);
    }
  }

  /** What is written up to an event that is followed by silent ones. */
  lemma {:induction false} RenderSilent(m: Mode, es: seq<Event>, i: nat, j: nat)
    requires i < j <= |es| && Silent(m, es, i, j)
    ensures Render(m, es[..j]) == Render(m, es[..i]) + Says(m, es, i)
    decreases j
  {
    RenderNext(m, es, j - 1);
    if i < j - 1 {
      assert Silent(m, es, i, j - 1);
      RenderSilent(m, es, i, j - 1);
      assert Says(m, es, j - 1) == [];
    }
  }

  lemma RenderNext(m: Mode, es: seq<Event>, k: nat)
    requires k < |es|
    ensures Render(m, es[..k + 1]) == Render(m, es[..k]) + Says(m, es, k)
  {
    assert es[..k + 1][..k] == es[..k];
  }

  /** A run of signs stands in the file as it is spelled. */
  lemma {:induction false} RunPlace(m: Mode, es: seq<Event>, ks: seq<nat>)
    requires Inside(es, 0).Some? && Chain(m, es, ks) && ks != []
    ensures ks[0] < |es| && ks[|ks| - 1] < |es|
    ensures Render(m, es[..ks[|ks| - 1] + 1]) == Render(m, es[..ks[0]]) + Chars(SpellAll(Run(m, es, ks)))
    decreases |ks|
  {
    hide Says, Region, Inside, TextOf, SpelledAt, Sign, SpellAll, Chars, Render;
    var n := |ks| - 1;
    var before, last := ks[..n], ks[n];
    assert SignAt(es, ks[0]) && SignAt(es, last);
    assert Chain(m, es, before);
    RenderNext(m, es, last);
    SaysSign(m, es, last);
    assert Run(m, es, ks) == Run(m, es, before) + [SpelledAt(m, es, last)];
    SpellMore(Run(m, es, before), SpelledAt(m, es, last));
    CharsAppend(SpellAll(Run(m, es, before)), TextOf(SpelledAt(m, es, last)));
    if n == 0 {
      assert before == [] && Run(m, es, before) == [];
      NoSpelling();
    } else {
      RunPlace(m, es, before);
      assert Neighbours(m, es, ks[n - 1], ks[n]);
      RenderNext(m, es, ks[n - 1]);
      RenderSilent(m, es, ks[n - 1], ks[n]);
    }
  }

  lemma NoSpelling()
    ensures SpellAll([]) == [] && Chars([]) == []
  {
  }

  /** The signs of a file, outside quotation: every run of them is written as it is spelled, and read
      back as it was if and only if each sign can be told from the next ones. */
  lemma RunReadBack(m: Mode, es: seq<Event>, ks: seq<nat>)
    requires Inside(es, 0).Some? && Chain(m, es, ks) && ks != []
    ensures ks[0] < |es| && ks[|ks| - 1] < |es|
    ensures var run := Run(m, es, ks); var bytes := SpellAll(run);
      && Render(m, es[..ks[|ks| - 1] + 1]) == Render(m, es[..ks[0]]) + Chars(bytes)
      && (Scan(bytes) == Some(Codes(run)) <==> Apart(run))
  {
    hide Scan, Apart, Render, Region, Inside, SpellAll, Chars, Neighbours;
    RunPlace(m, es, ks);
    assert forall n :: 0 <= n < |ks| ==> SignAt(es, ks[n]);
    ReadBack(Run(m, es, ks));
  }

  /** Two signs side by side are read back if and only if they do not merge; a slash and a star
      merge only across a join or an empty quotation. */
  lemma PairReadBack(m: Mode, es: seq<Event>, i: nat, j: nat)
    requires Inside(es, 0).Some? && Neighbours(m, es, i, j) && SignAt(es, i) && SignAt(es, j)
    ensures var a, b := es[i].b, es[j].b; var bytes := SpellAll(Run(m, es, [i, j]));
      && Chain(m, es, [i, j]) && Says(m, es, i) + Says(m, es, j) == Chars(bytes)
      && (Scan(bytes) == Some([a, b]) <==> !Merges(a, b) || (a == SLASH && b == STAR && !Joined(es, i, j, false)))
  {
    hide Scan, Says, Region, Inside, TextOf, Sign, Chars, Neighbours, Joined;
    var ks := [i, j];
    var s, t := SpelledAt(m, es, i), SpelledAt(m, es, j);
    assert Chain(m, es, ks);
    SaysSign(m, es, i);
    SaysSign(m, es, j);
    SpacedAt(m, es, i, j);
    assert Run(m, es, ks) == [s, t];
    assert Codes([s, t]) == [es[i].b, es[j].b];
    ReadBack([s, t]);
    PairApart(s, t);
    CharsAppend(TextOf(s), TextOf(t));
  }

  lemma PairApart(s: Spelled, t: Spelled)
    ensures Apart([s, t]) <==> t.spaced || !Merges(s.code, t.code)
    ensures SpellAll([s, t]) == TextOf(s) + TextOf(t)
  {
    hide TextOf, Merges;
    var ts := [s, t];
    assert ts[1..] == [t] && ts[0..] == ts && [t][1..] == [];
    assert SpellAll([t]) == TextOf(t) + [];
    if Apart(ts) {
      assert FirstApart(ts[0..]);
    }
  }

  /** An unquoted slash stands directly before a marker if and only if the event that writes next
      after it is a marker. */
  lemma SlashMarker(m: Mode, es: seq<Event>, q: nat)
    requires Inside(es, 0).Some? && !m.state.Verbatim? && q + 1 < |Render(m, es)|
    ensures |Source(m, es)| == |Render(m, es)| && Source(m, es)[q] <= Source(m, es)[q + 1] < |es|
    ensures var i, j := Source(m, es)[q], Source(m, es)[q + 1]; var x, y := Render(m, es)[q], Render(m, es)[q + 1];
      x == Ch(SLASH) && Region(es, i) == 0 ==>
        es[i] == Put(SLASH) && Neighbours(m, es, i, j) && (y.Marker? <==> es[j].Mark?)
  {
    hide Says, Render, Source, Region, Inside, StateAt, Silent;
    SideBySide(m, es, q);
    var i, j := Source(m, es)[q], Source(m, es)[q + 1];
    var x, y := Render(m, es)[q], Render(m, es)[q + 1];
    if x == Ch(SLASH) && Region(es, i) == 0 {
      RegionStep(es, i);
      WhoWrites(m, es, i, if i == j then 0 else |Says(m, es, i)| - 1);
      if i == j {
        var c: nat :| c < |Says(m, es, i)| - 1 && Says(m, es, i)[c] == x && Says(m, es, i)[c + 1] == y;
        WhoWrites(m, es, i, c);
      } else {
        MarkerWrites(m, es, j);
      }
    }
  }

  lemma MarkerWrites(m: Mode, es: seq<Event>, k: nat)
    requires k < |es| && Says(m, es, k) != []
    ensures Says(m, es, k)[0].Marker? <==> es[k].Mark?
  {
  }

  /** After a name or a numeral, a name or a numeral that follows without anything written between
      is set off by a blank, unless the last join or delimiter between is a join or the end
      of verbatim text. */
  lemma WordsMeet(m: Mode, es: seq<Event>, i: nat, j: nat)
    requires Inside(es, 0).Some? && !m.state.Verbatim? && i < j < |es| && Silent(m, es, i, j)
    requires Wordy(es, i) && Region(es, j) == 0 && (es[j].Word? || es[j] == Put(CONSTANT))
    ensures var l := LastJoin(es, i, j); var meet := l > i && JoinsWords(es[l]);
      && (es[j].Word? ==> Says(m, es, j) == (if meet then [] else [Ch(SPACE)]) + [NameOf(es[j].a)])
      && (es[j] == Put(CONSTANT) ==> Says(m, es, j) == if meet then [] else [Ch(SPACE)])
  {
    hide Region, Inside, StateAt, Silent, Wordy, LastJoin;
    var l := LastJoin(es, i, j);
    StateLast(m, es, i, j);
    QuotedState(m, es, j);
    QuotedState(m, es, i);
    WordyIs(es, i);
    SaysWord(m, es, j);
  }

  lemma WordyIs(es: seq<Event>, i: nat)
    requires Inside(es, 0).Some? && i < |es| && Wordy(es, i)
    ensures es[i].Word? || (es[i].Copy? && Region(es, i) != 0)
  {
  }

  lemma SaysWord(m: Mode, es: seq<Event>, j: nat)
    requires j < |es|
    ensures var blank := if StateAt(m, es, j).NumOrId? then [Ch(SPACE)] else [];
      && (es[j].Word? ==> Says(m, es, j) == blank + [NameOf(es[j].a)])
      && (es[j] == Put(CONSTANT) ==> Says(m, es, j) == blank)
  {
  }
}
