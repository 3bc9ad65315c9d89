/** How CTANGLE spells its output: operators from their one-byte codes, spaces between
    words, and newlines inside macros and strings. */
module CFile {
  import opened TangleTokens
  import opened Expansion
  import opened Wrappers

  datatype OutState = Normal | NumOrId | PostSlash | Unbreakable | Verbatim

  const JOIN: nat := 127
  const SPACE: nat := 32
  const SLASH: nat := 47
  const STAR: nat := 42
  const BACKSLASH: nat := 92
  const EQUALS: nat := 61

  /** What is written to the C file: a byte, a name, a marker, a #line directive, "#define ". */
  datatype Piece = Ch(b: nat) | NameOf(a: nat) | Marker(n: int) | LineOf(line: nat, file: nat) | Define

  /** `out_state` after an event. */
  function After(st: OutState, e: Event): OutState {
    match e
    case Put(b) =>
      if b == NEWLINE then (if st.Verbatim? then Verbatim else Normal)
      else if b == JOIN then Unbreakable
      else if b == CONSTANT then (if st.Verbatim? then NumOrId else Verbatim)
      else if b == STRING then (if st.Verbatim? then Normal else Verbatim)
      else if b == SLASH then PostSlash
      else Normal
    case Word(_) => NumOrId
    case DefineStart => Normal
    case _ => st
  }

  function Chars(bs: seq<nat>): (s: seq<Piece>)
    ensures |s| == |bs| && forall k :: 0 <= k < |bs| ==> s[k] == Ch(bs[k])
  {
    if bs == [] then [] else [Ch(bs[0])] + Chars(bs[1..])
  }

  /** The spelling of the one-byte operator codes. */
  function Operator(b: nat): seq<nat> {
    if b == 11 then [43, 43]
    else if b == 1 then [45, 45]
    else if b == 25 then [45, 62]
    else if b == 17 then [62, 62]
    else if b == 30 then [61, 61]
    else if b == 16 then [60, 60]
    else if b == 29 then [62, 61]
    else if b == 28 then [60, 61]
    else if b == 26 then [33, 61]
    else if b == 4 then [38, 38]
    else if b == 31 then [124, 124]
    else if b == 14 then [46, 46, 46]
    else if b == 6 then [58, 58]
    else if b == 22 then [46, 42]
    else if b == 23 then [45, 62, 42]
    else if b == EQUALS then [EQUALS, SPACE]
    else [b]
  }

  function If(c: bool, b: nat): seq<nat> {
    if c then [b] else []
  }

  /** What `out_char` and its caller write for an event. */
  function Text(protect: bool, st: OutState, e: Event): seq<Piece> {
    match e
    case Put(b) =>
      if b == NEWLINE then Chars(If(protect, SPACE) + If(protect || st.Verbatim?, BACKSLASH) + [NEWLINE])
      else if b == JOIN || b == STRING then []
      else if b == CONSTANT then Chars(If(st.NumOrId?, SPACE))
      else if b == STAR then Chars(If(st.PostSlash?, SPACE) + [STAR])
      else Chars(Operator(b))
    case Copy(b) => [Ch(b)]
    case Word(a) => Chars(If(st.NumOrId?, SPACE)) + [NameOf(a)]
    case Mark(n) => [Marker(n)]
    case Where(line, file) => [LineOf(line, file)]
    case NotPresent(_) => []
    case DefineStart => [Define]
    case DefineEnd => [Ch(NEWLINE)]
  }

  /** Newlines are protected inside a #define line. */
  function Protected(protect: bool, e: Event): bool {
    if e.DefineStart? then true else if e.DefineEnd? then false else protect
  }

  datatype Mode = Mode(state: OutState, protect: bool)

  function Advance(m: Mode, e: Event): Mode {
    Mode(After(m.state, e), Protected(m.protect, e))
  }

  function ModeAfter(m: Mode, es: seq<Event>): Mode {
    if es == [] then m else Advance(ModeAfter(m, es[..|es| - 1]), es[|es| - 1])
  }

  /** The C file after some events. */
  function Render(m: Mode, es: seq<Event>): seq<Piece> {
    if es == [] then []
    else
      var before := ModeAfter(m, es[..|es| - 1]);
      Render(m, es[..|es| - 1]) + Text(before.protect, before.state, es[|es| - 1])
  }

  lemma RenderMore(m: Mode, es: seq<Event>, e: Event)
    ensures Render(m, es + [e]) == Render(m, es) + Text(ModeAfter(m, es).protect, ModeAfter(m, es).state, e)
    ensures ModeAfter(m, es + [e]) == Advance(ModeAfter(m, es), e)
  {
    assert (es + [e])[..|es|] == es;
  }

  /** Items that can be read inside, or outside, quoted material. */
  predicate Fits(item: Item, quoted: bool) {
    if quoted then item.Raw? || (item.Char? && !Copied(item.b)) else !item.Raw?
  }

  /** Reading the items of a text and printing them agree on what is quoted. */
  lemma QuotedAlike(st: OutState, item: Item)
    requires !item.Ref? && !item.Defs? && Fits(item, st.Verbatim?)
    ensures After(st, ItemEvent(item)).Verbatim? <==> Toggled(st.Verbatim?, item)
  {
  }

  // ---- What is quoted ---------------------------------------------------------

  /** The delimiter that is open after some events, when `open` was before (0: none); None
      when something is copied outside quotation, or quotation is closed by the wrong
      delimiter, or something inside is neither copied nor a newline. */
  function Inside(es: seq<Event>, open: nat): Option<nat> {
    if es == [] then Some(open)
    else if open == 0 then
      if es[0].Copy? then None
      else Inside(es[1..], if es[0].Put? && Delimiter(es[0].b) then es[0].b else 0)
    else if Stays(es[0]) then Inside(es[1..], open)
    else if es[0] == Put(open) then Inside(es[1..], 0)
    else None
  }

  /** What leaves quotation open. */
  predicate Stays(e: Event) {
    e.Copy? || e == Put(NEWLINE)
  }

  lemma {:induction false} InsideSplit(a: seq<Event>, b: seq<Event>, open: nat)
    ensures Inside(a + b, open) == if Inside(a, open).None? then None else Inside(b, Inside(a, open).value)
    decreases a
  {
    if a == [] {
      assert a + b == b;
    } else {
      assert (a + b)[1..] == a[1..] + b;
      InsideSplit(a[1..], b, if open != 0 then (if Stays(a[0]) then open else 0)
                             else if a[0].Put? && Delimiter(a[0].b) then a[0].b else 0);
    }
  }

  ghost predicate WellQuoted(es: seq<Event>) {
    Inside(es, 0) == Some(0)
  }

  /** The delimiter that is open before event k. */
  ghost function Region(es: seq<Event>, k: nat): nat
    requires Inside(es, 0).Some? && k <= |es|
  {
    InsideSplit(es[..k], es[k..], 0);
    assert es == es[..k] + es[k..];
    Inside(es[..k], 0).value
  }

  /** How event k changes that. */
  lemma RegionStep(es: seq<Event>, k: nat)
    requires Inside(es, 0).Some? && k < |es|
    ensures var r, e := Region(es, k), es[k];
      && (r == 0 ==> !e.Copy? && Region(es, k + 1) == if e.Put? && Delimiter(e.b) then e.b else 0)
      && (r != 0 ==> if Stays(e) then Region(es, k + 1) == r else e == Put(r) && Region(es, k + 1) == 0)
      && (r == 0 || Delimiter(r))
    decreases k
  {
    InsideSplit(es[..k], [es[k]], 0);
    assert es[..k + 1] == es[..k] + [es[k]] && [es[k]][1..] == [];
    assert es == es[..k + 1] + es[k + 1..];
    InsideSplit(es[..k + 1], es[k + 1..], 0);
    if k > 0 {
      RegionStep(es, k - 1);
    }
  }

  lemma RegionStart(es: seq<Event>)
    requires Inside(es, 0).Some?
    ensures Region(es, 0) == 0
  {
    assert es[..0] == [];
  }

  function StateAt(m: Mode, es: seq<Event>, k: nat): OutState
    requires k <= |es|
  {
    ModeAfter(m, es[..k]).state
  }

  /** What event k adds to the file. */
  function Says(m: Mode, es: seq<Event>, k: nat): seq<Piece>
    requires k < |es|
  {
    Text(ModeAfter(m, es[..k]).protect, StateAt(m, es, k), es[k])
  }

  lemma StateStep(m: Mode, es: seq<Event>, k: nat)
    requires k < |es|
    ensures StateAt(m, es, k + 1) == After(StateAt(m, es, k), es[k])
  {
    assert es[..k + 1][..k] == es[..k];
  }

  /** The output state knows whether quotation is open. */
  lemma {:induction false} QuotedState(m: Mode, es: seq<Event>, k: nat)
    requires Inside(es, 0).Some? && k <= |es| && !m.state.Verbatim?
    ensures StateAt(m, es, k).Verbatim? <==> Region(es, k) != 0
    decreases k
  {
    if k == 0 {
      RegionStart(es);
    } else {
      QuotedState(m, es, k - 1);
      RegionStep(es, k - 1);
      StateStep(m, es, k - 1);
    }
  }

  // ---- Where tokens run together ----------------------------------------------

  /** For every piece of the file, the event that wrote it. */
  function Source(m: Mode, es: seq<Event>): seq<nat> {
    if es == [] then []
    else
      var n := |es| - 1;
      Source(m, es[..n]) + seq(|Says(m, es, n)|, _ => n)
  }

  /** Event j writes next after event i. */
  ghost predicate Neighbours(m: Mode, es: seq<Event>, i: nat, j: nat) {
    i < j < |es| && Says(m, es, i) != [] && Says(m, es, j) != [] && Silent(m, es, i, j)
  }

  ghost predicate Silent(m: Mode, es: seq<Event>, i: nat, j: nat)
    requires i < j <= |es|
  {
    forall k :: i < k < j ==> Says(m, es, k) == []
  }

  lemma SaysEarlier(m: Mode, es: seq<Event>, n: nat, k: nat)
    requires k < n <= |es|
    ensures Says(m, es[..n], k) == Says(m, es, k)
  {
    assert es[..n][..k] == es[..k];
  }

  lemma {:induction false} SourceSize(m: Mode, es: seq<Event>)
    ensures |Source(m, es)| == |Render(m, es)| && forall q :: 0 <= q < |Source(m, es)| ==> Source(m, es)[q] < |es|
    decreases |es|
  {
    if es != [] {
      SourceSize(m, es[..|es| - 1]);
    }
  }

  /** The pieces of the last event, and those before them. */
  lemma LastEvent(m: Mode, es: seq<Event>, q: nat)
    requires es != [] && q < |Render(m, es)|
    ensures var n := |es| - 1; var r := Render(m, es[..n]);
      && |Source(m, es)| == |Render(m, es)| == |r| + |Says(m, es, n)| && |Source(m, es[..n])| == |r|
      && (q < |r| ==> Source(m, es)[q] == Source(m, es[..n])[q] && Render(m, es)[q] == r[q])
      && (q >= |r| ==> Source(m, es)[q] == n && Render(m, es)[q] == Says(m, es, n)[q - |r|])
  {
    hide Text, ModeAfter;
    SourceSize(m, es);
    SourceSize(m, es[..|es| - 1]);
  }

  /** The last piece of a file, and who wrote it. */
  lemma {:induction false} LastSource(m: Mode, es: seq<Event>)
    requires Render(m, es) != []
    ensures |Source(m, es)| == |Render(m, es)|
    ensures var n := |Render(m, es)| - 1; var i := Source(m, es)[n];
      && i < |es| && Says(m, es, i) != [] && Says(m, es, i)[|Says(m, es, i)| - 1] == Render(m, es)[n]
      && Silent(m, es, i, |es|)
    decreases |es|
  {
    hide Says, Source, Render;
    if es == [] {
      NothingRendered(m);
    } else {
      var n := |es| - 1;
      LastEvent(m, es, |Render(m, es)| - 1);
      if Says(m, es, n) == [] {
        LastSource(m, es[..n]);
        forall k | 0 <= k < n
          ensures Says(m, es[..n], k) == Says(m, es, k)
        {
          SaysEarlier(m, es, n, k);
        }
      }
    }
  }

  lemma NothingRendered(m: Mode)
    ensures Render(m, []) == [] && ModeAfter(m, []) == m
  {
  }

  /** Pieces x and y, written by events i and j, stand side by side. */
  ghost predicate Meet(m: Mode, es: seq<Event>, i: nat, j: nat, x: Piece, y: Piece) {
    && i <= j < |es|
    && if i == j then exists c :: 0 <= c < |Says(m, es, i)| - 1 && Says(m, es, i)[c] == x && Says(m, es, i)[c + 1] == y
       else Neighbours(m, es, i, j) && x == Says(m, es, i)[|Says(m, es, i)| - 1] && y == Says(m, es, j)[0]
  }

  lemma MeetEarlier(m: Mode, es: seq<Event>, n: nat, i: nat, j: nat, x: Piece, y: Piece)
    requires n <= |es| && Meet(m, es[..n], i, j, x, y)
    ensures Meet(m, es, i, j, x, y)
  {
    hide Says;
    forall k | 0 <= k < n
      ensures Says(m, es[..n], k) == Says(m, es, k)
    {
      SaysEarlier(m, es, n, k);
    }
  }

  lemma MeetLast(m: Mode, es: seq<Event>)
    requires es != [] && Render(m, es[..|es| - 1]) != [] && Says(m, es, |es| - 1) != []
    ensures var n := |es| - 1; var r := Render(m, es[..n]);
      && |Source(m, es[..n])| == |r|
      && Meet(m, es, Source(m, es[..n])[|r| - 1], n, r[|r| - 1], Says(m, es, n)[0])
  {
    hide Says, Source, Render;
    var n := |es| - 1;
    LastSource(m, es[..n]);
    forall k | 0 <= k < n
      ensures Says(m, es[..n], k) == Says(m, es, k)
    {
      SaysEarlier(m, es, n, k);
    }
  }

  /** Two pieces side by side come from one event, or from one event and the next that writes. */
  lemma {:induction false} SideBySide(m: Mode, es: seq<Event>, q: nat)
    requires q + 1 < |Render(m, es)|
    ensures |Source(m, es)| == |Render(m, es)|
    ensures Meet(m, es, Source(m, es)[q], Source(m, es)[q + 1], Render(m, es)[q], Render(m, es)[q + 1])
    decreases |es|
  {
    hide Says, Meet, Source, Render;
    if es == [] {
      NothingRendered(m);
      return;
    }
    var n := |es| - 1;
    var r := Render(m, es[..n]);
    LastEvent(m, es, q);
    LastEvent(m, es, q + 1);
    if q + 1 < |r| {
      SideBySide(m, es[..n], q);
      MeetEarlier(m, es, n, Source(m, es)[q], Source(m, es)[q + 1], Render(m, es)[q], Render(m, es)[q + 1]);
    } else if q + 1 == |r| {
      MeetLast(m, es);
    } else {
      MeetInside(m, es, n, q - |r|);
    }
  }

  lemma MeetInside(m: Mode, es: seq<Event>, i: nat, c: nat)
    requires i < |es| && c + 1 < |Says(m, es, i)|
    ensures Meet(m, es, i, i, Says(m, es, i)[c], Says(m, es, i)[c + 1])
  {
  }

  // What is known of the events between neighbours.

  predicate JoinsWords(e: Event) {
    e == Put(JOIN) || e == Put(STRING)
  }

  predicate JoinsSigns(e: Event) {
    e == Put(JOIN) || (e.Put? && Delimiter(e.b))
  }

  /** Some event between the two joins on purpose or is a delimiter. */
  ghost predicate Joined(es: seq<Event>, i: nat, j: nat, words: bool)
    requires j <= |es|
  {
    exists k :: i < k < j && if words then JoinsWords(es[k]) else JoinsSigns(es[k])
  }

  /** Event k writes a name or part of a numeral. */
  ghost predicate Wordy(es: seq<Event>, k: nat)
    requires Inside(es, 0).Some? && k < |es|
  {
    es[k].Word? || (es[k].Copy? && Region(es, k) == CONSTANT)
  }

  /** Piece x, written by event k, is a name or belongs to a numeral. */
  ghost predicate WordPart(es: seq<Event>, x: Piece, k: nat)
    requires Inside(es, 0).Some? && k < |es|
  {
    Wordy(es, k) && (x.NameOf? || es[k].Copy?)
  }

  /** Events i and j write parts of one numeral. */
  ghost predicate OneNumeral(es: seq<Event>, i: nat, j: nat)
    requires j < |es|
  {
    i < j && es[i].Copy? && es[j].Copy? && !Joined(es, i, j, false)
  }

  /** After a name or a numeral the output state says so, until something is written. */
  lemma {:induction false} AfterWord(m: Mode, es: seq<Event>, i: nat, j: nat)
    requires Inside(es, 0).Some? && !m.state.Verbatim? && i < j <= |es|
    requires Wordy(es, i) && Silent(m, es, i, j) && !Joined(es, i, j, true)
    ensures (Region(es, j) == 0 && StateAt(m, es, j).NumOrId?)
            || (es[i].Copy? && Region(es, j) == CONSTANT && !Joined(es, i, j, false))
    decreases j
  {
    RegionStep(es, j - 1);
    StateStep(m, es, j - 1);
    QuotedState(m, es, j - 1);
    if i < j - 1 {
      assert Silent(m, es, i, j - 1) && !Joined(es, i, j - 1, true);
      AfterWord(m, es, i, j - 1);
      assert Says(m, es, j - 1) == [];
      SilentEvent(m, es, j - 1);
    }
  }

  lemma SilentEvent(m: Mode, es: seq<Event>, k: nat)
    requires k < |es| && Says(m, es, k) == []
    ensures es[k].NotPresent? || (es[k].Put? && (es[k].b == JOIN || Delimiter(es[k].b)))
    ensures es[k] == Put(CONSTANT) ==> !StateAt(m, es, k).NumOrId?
  {
  }

  /** After a slash outside quotation the output state says so. */
  lemma {:induction false} AfterSlash(m: Mode, es: seq<Event>, i: nat, j: nat)
    requires i < j <= |es| && es[i] == Put(SLASH) && Silent(m, es, i, j) && !Joined(es, i, j, false)
    ensures StateAt(m, es, j).PostSlash?
    decreases j
  {
    StateStep(m, es, j - 1);
    if i < j - 1 {
      assert Silent(m, es, i, j - 1) && !Joined(es, i, j - 1, false);
      AfterSlash(m, es, i, j - 1);
      assert Says(m, es, j - 1) == [];
      SilentEvent(m, es, j - 1);
      assert !JoinsSigns(es[j - 1]);
    }
  }

  lemma WhoWrites(m: Mode, es: seq<Event>, k: nat, c: nat)
    requires k < |es| && c < |Says(m, es, k)|
    ensures es[k].Word? ==> |Says(m, es, k)| == if StateAt(m, es, k).NumOrId? then 2 else 1
    ensures es[k].Word? && StateAt(m, es, k).NumOrId? ==> Says(m, es, k)[0] == Ch(SPACE)
    ensures es[k].Copy? ==> |Says(m, es, k)| == 1
    ensures Says(m, es, k)[c] == Ch(SLASH) ==> es[k].Copy? || es[k] == Put(SLASH)
    ensures es[k] == Put(SLASH) ==> |Says(m, es, k)| == 1
    ensures Says(m, es, k)[0] == Ch(STAR) && !es[k].Copy? ==> es[k] == Put(STAR) && !StateAt(m, es, k).PostSlash?
  {
    hide Operator, ModeAfter, StateAt;
    if es[k].Put? {
      OperatorSigns(es[k].b);
    }
  }

  /** Of the spellings of operators only that of the slash has a slash, and only that of the star begins with a star. */
  lemma OperatorSigns(b: nat)
    ensures Operator(b) != [] && (b == SLASH ==> Operator(b) == [SLASH])
    ensures b != SLASH ==> SLASH !in Operator(b)
    ensures Operator(b)[0] == STAR ==> b == STAR
  {
  }

  /** Names and numerals never run together, except where a join or an empty piece of
      verbatim text stands between them (the parts of one numeral belong together); and
      outside quotation a slash is never followed by a star, except where a join or an empty
      quotation stands between them. */
  lemma Separated(m: Mode, es: seq<Event>, q: nat)
    requires Inside(es, 0).Some? && !m.state.Verbatim? && q + 1 < |Render(m, es)|
    ensures |Source(m, es)| == |Render(m, es)| && Source(m, es)[q] <= Source(m, es)[q + 1] < |es|
    ensures var i, j := Source(m, es)[q], Source(m, es)[q + 1]; var x, y := Render(m, es)[q], Render(m, es)[q + 1];
      && (WordPart(es, x, i) && WordPart(es, y, j) ==> Joined(es, i, j, true) || OneNumeral(es, i, j))
      && (x == Ch(SLASH) && y == Ch(STAR) && Region(es, i) == 0 && Region(es, j) == 0 ==> Joined(es, i, j, false))
  {
    hide Says, Render, Source, Region, Inside, StateAt, Joined, Silent;
    SideBySide(m, es, q);
    var i, j := Source(m, es)[q], Source(m, es)[q + 1];
    var x, y := Render(m, es)[q], Render(m, es)[q + 1];
    MeetApart(m, es, i, j, x, y);
  }

  lemma MeetApart(m: Mode, es: seq<Event>, i: nat, j: nat, x: Piece, y: Piece)
    requires Inside(es, 0).Some? && !m.state.Verbatim? && Meet(m, es, i, j, x, y)
    ensures WordPart(es, x, i) && WordPart(es, y, j) ==> Joined(es, i, j, true) || OneNumeral(es, i, j)
    ensures x == Ch(SLASH) && y == Ch(STAR) && Region(es, i) == 0 && Region(es, j) == 0 ==> Joined(es, i, j, false)
  {
    hide Says, Region, Inside, StateAt, Joined, Silent;
    RegionStep(es, i);
    RegionStep(es, j);
    if i == j {
      var c: nat :| c < |Says(m, es, i)| - 1 && Says(m, es, i)[c] == x && Says(m, es, i)[c + 1] == y;
      WhoWrites(m, es, i, c);
      WhoWrites(m, es, i, c + 1);
    } else {
      WhoWrites(m, es, i, |Says(m, es, i)| - 1);
      WhoWrites(m, es, j, 0);
      if Wordy(es, i) && !Joined(es, i, j, true) {
        AfterWord(m, es, i, j);
      }
      if es[i] == Put(SLASH) && !Joined(es, i, j, false) {
        AfterSlash(m, es, i, j);
      }
    }
  }

  // ---- Newlines ------------------------------------------------------------------

  /** Before event k a #define line has begun and not ended. */
  function Defining(es: seq<Event>, k: nat): bool
    requires k <= |es|
  {
    k > 0 && (es[k - 1].DefineStart? || (!es[k - 1].DefineEnd? && Defining(es, k - 1)))
  }

  lemma {:induction false} DefiningEarlier(es: seq<Event>, n: nat, k: nat)
    requires k <= n <= |es|
    ensures Defining(es[..n], k) == Defining(es, k)
  {
    if k > 0 {
      DefiningEarlier(es, n, k - 1);
    }
  }

  lemma {:induction false} ProtectState(m: Mode, es: seq<Event>, k: nat)
    requires k <= |es| && !m.protect
    ensures ModeAfter(m, es[..k]).protect == Defining(es, k)
  {
    if k > 0 {
      ProtectState(m, es, k - 1);
      assert es[..k][..k - 1] == es[..k - 1];
    }
  }

  lemma RegionEarlier(es: seq<Event>, n: nat, k: nat)
    requires Inside(es, 0).Some? && k <= n <= |es|
    ensures Inside(es[..n], 0).Some? && Region(es[..n], k) == Region(es, k)
  {
    InsideSplit(es[..n], es[n..], 0);
    assert es == es[..n] + es[n..] && es[..n][..k] == es[..k];
  }

  /** How a newline is written: inside a #define line behind a blank and a backslash, inside quotation
      behind a backslash. */
  function Guard(defining: bool, quoted: bool): seq<Piece> {
    if defining then [Ch(32), Ch(92), Ch(10)] else if quoted then [Ch(92), Ch(10)] else [Ch(10)]
  }

  lemma SaysNewline(m: Mode, es: seq<Event>, k: nat, c: nat)
    requires Inside(es, 0).Some? && !m.state.Verbatim? && !m.protect
    requires k < |es| && c < |Says(m, es, k)| && Says(m, es, k)[c] == Ch(10)
    ensures es[k] == Put(10) || es[k] == Copy(10) || es[k].DefineEnd?
    ensures es[k] == Put(10) ==>
              Says(m, es, k) == Guard(Defining(es, k), Region(es, k) != 0) && c == |Says(m, es, k)| - 1
  {
    hide Region, Inside, StateAt, ModeAfter;
    ProtectState(m, es, k);
    QuotedState(m, es, k);
    if es[k].Put? {
      NoNewline(es[k].b);
    }
  }

  lemma NoNewline(b: nat)
    ensures b != NEWLINE ==> NEWLINE !in Operator(b)
  {
  }

  /** No newline of a #define line or of quoted material ends the line or the quotation: it is written
      behind a backslash. */
  lemma {:induction false} NewlinesGuarded(m: Mode, es: seq<Event>, q: nat)
    requires Inside(es, 0).Some? && !m.state.Verbatim? && !m.protect
    requires q < |Render(m, es)| && Render(m, es)[q] == Ch(10)
    ensures |Source(m, es)| == |Render(m, es)| && Source(m, es)[q] < |es|
    ensures var i := Source(m, es)[q]; var g := Guard(Defining(es, i), Region(es, i) != 0);
      && (es[i] == Put(10) || es[i] == Copy(10) || es[i].DefineEnd?)
      && (es[i] == Put(10) ==> |g| <= q + 1 && Render(m, es)[q + 1 - |g|..q + 1] == g)
    decreases |es|
  {
    hide Says, Region, Inside, Defining, Render, Source;
    SourceSize(m, es);
    if es == [] {
      NothingRendered(m);
      return;
    }
    var n := |es| - 1;
    var r := Render(m, es[..n]);
    LastEvent(m, es, q);
    var i := Source(m, es)[q];
    if q < |r| {
      RegionEarlier(es, n, i);
      RegionEarlier(es, n, n);
      DefiningEarlier(es, n, i);
      NewlinesGuarded(m, es[..n], q);
      RenderLast(m, es);
    } else {
      SaysNewline(m, es, n, q - |r|);
      RenderLast(m, es);
    }
  }

  lemma RenderLast(m: Mode, es: seq<Event>)
    requires es != []
    ensures Render(m, es) == Render(m, es[..|es| - 1]) + Says(m, es, |es| - 1)
  {
  }
}
