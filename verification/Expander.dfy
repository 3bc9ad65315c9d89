/** CTANGLE's stack machine: it reads replacement texts byte by byte, pushes a level for
    each section reference and follows the links between texts. */
module Expander {
  import opened Flows
  import opened TangleTokens
  import opened TextLinks
  import opened Wrappers
  import opened Expansion
  import opened CFile

  /** `output_state`: where in the token memory the output is, and why. */
  datatype Frame = Frame(byte: nat, end: nat, name: nat, repl: nat, section: nat)

  ghost predicate TextAt(tok: seq<nat>, start: seq<nat>, p: Program, t: nat)
    requires t < |p.texts| && |start| == |p.texts| + 1
  {
    start[t] <= start[t + 1] <= |tok| && Read(tok[start[t]..start[t + 1]], false) == Some(p.texts[t])
  }

  /** Text 0 is empty; every other text is read from its place in the token memory. */
  ghost predicate Holds(tok: seq<nat>, start: seq<nat>, p: Program)
    requires |start| == |p.texts| + 1
  {
    && (p.texts != [] ==> start[0] == start[1])
    && forall t :: 1 <= t < |p.texts| ==> TextAt(tok, start, p, t)
  }

  class Tangler {
    const tok: seq<nat>      // `tok_mem`
    const start: seq<nat>    // `tok_start` of every text, and the end of the last
    const link: seq<nat>
    const equiv: seq<nat>
    ghost const p: Program
    var cur: Frame
    var stack: seq<Frame>    // saved levels
    var level: nat           // `stack_ptr - stack`
    var outState: OutState
    var protect: bool
    var file: seq<Piece>
    ghost var first: Mode
    ghost var trace: seq<Event>

    constructor (tok: seq<nat>, start: seq<nat>, link: seq<nat>, equiv: seq<nat>, ghost p: Program)
      requires ProgramOk(p) && link == p.link && equiv == p.equiv && |start| == |p.texts| + 1 && Holds(tok, start, p)
      ensures this.tok == tok && this.start == start && this.link == link && this.equiv == equiv && this.p == p
      ensures Stored() && outState == Normal && !protect
    {
      this.tok, this.start, this.link, this.equiv, this.p := tok, start, link, equiv, p;
      outState, protect := Normal, false;
    }

    /** The token memory holds program p. */
    ghost predicate Stored() {
      && ProgramOk(p) && link == p.link && equiv == p.equiv
      && |start| == |p.texts| + 1 && Holds(tok, start, p)
    }

    ghost predicate StoredText(t: nat)
      requires t < |p.texts| && |start| == |p.texts| + 1
    {
      TextAt(tok, start, p, t)
    }

    /** What `scan_repl` has stored is what is read back. */
    lemma StoredTokens(t: nat, ts: seq<Token>)
      requires t < |p.texts| && |start| == |p.texts| + 1 && start[t] <= start[t + 1] <= |tok|
      requires tok[start[t]..start[t + 1]] == Encode(ts) && p.texts[t] == Items(ts)
      requires forall k :: 0 <= k < |ts| ==> InRange(ts[k]) && Clear(ts[k])
      ensures StoredText(t)
    {
      RoundTrip(ts);
    }

    /** The C file shows what has happened so far. */
    ghost predicate Written()
      reads this
    {
      file == Render(first, trace) && Mode(outState, protect) == ModeAfter(first, trace)
    }

    ghost predicate Readable(f: Frame, quoted: bool) {
      f.byte <= f.end <= |tok| && Read(tok[f.byte..f.end], quoted).Some?
    }

    /** The items that a level has not read yet. */
    ghost function Left(f: Frame, quoted: bool): seq<Item>
      requires Readable(f, quoted)
    {
      Read(tok[f.byte..f.end], quoted).value
    }

    /** A level is in some text of a section, and knows its number unless it is at its start. */
    ghost predicate FrameOk(f: Frame, quoted: bool)
      requires Stored()
    {
      && 1 <= f.repl < |p.texts| && p.owner[f.repl] != MACRO && Readable(f, quoted)
      && p.texts[f.repl] != [] && p.texts[f.repl][0].Section?
      && Numbered(f, Left(f, quoted))
      && RefsBelow(Left(f, quoted), p.equiv, p.rank, p.rank[p.owner[f.repl]])
    }

    ghost predicate Numbered(f: Frame, items: seq<Item>)
      requires f.repl < |p.texts| && p.texts[f.repl] != [] && p.texts[f.repl][0].Section?
    {
      items == p.texts[f.repl] ||
      (f.section == p.texts[f.repl][0].n > 0 && forall k :: 0 <= k < |items| ==> !items[k].Section?)
    }

    ghost predicate FramesOk(fs: seq<Frame>)
      requires Stored()
    {
      forall k :: 0 <= k < |fs| ==> FrameOk(fs[k], false)
    }

    ghost predicate Valid()
      reads this
    {
      && Stored() && Written() && !protect
      && FramesOk(stack) && |stack| == (if level == 0 then 0 else level - 1)
      && (if level == 0 then !outState.Verbatim? else FrameOk(cur, outState.Verbatim?))
    }

    /** What is still to be done at one level, and at all saved levels. */
    ghost function Job(f: Frame, quoted: bool): Flow<Event>
      requires Stored() && FrameOk(f, quoted)
    {
      Finish(p, f.repl, Left(f, quoted))
    }

    ghost function Jobs(fs: seq<Frame>): Flow<Event>
      requires Stored() && FramesOk(fs)
    {
      if fs == [] then Flow([], 0) else Then(Job(fs[|fs| - 1], false), Jobs(fs[..|fs| - 1]))
    }

    ghost function Todo(): Flow<Event>
      requires Valid()
      reads this
    {
      if level == 0 then Flow([], 0) else Then(Job(cur, outState.Verbatim?), Jobs(stack))
    }

    /** The section at the bottom of the stack. */
    ghost function BottomOwner(): int
      reads `cur, `stack
    {
      var f := if stack == [] then cur else stack[0];
      if f.repl < |p.owner| then p.owner[f.repl] else MACRO
    }

    /** `out_char`, and the other ways to write to the C file. */
    method OutChar(e: Event)
      requires Written()
      modifies `file, `outState, `protect, `trace
      ensures Written() && trace == old(trace) + [e]
      ensures outState == After(old(outState), e) && protect == Protected(old(protect), e)
    {
      RenderMore(first, trace, e);
      file := file + Text(protect, outState, e);
      outState := After(outState, e);
      protect := Protected(protect, e);
      trace := trace + [e];
    }

    /** The next item of the current text. */
    method Fetch() returns (item: Item)
      requires Readable(cur, outState.Verbatim?) && cur.byte < cur.end
      modifies `cur
      ensures cur == old(cur).(byte := cur.byte) && old(cur.byte) < cur.byte
      ensures old(Left(cur, outState.Verbatim?)) != [] && item == old(Left(cur, outState.Verbatim?))[0]
      ensures Readable(cur, Toggled(outState.Verbatim?, item))
      ensures Left(cur, Toggled(outState.Verbatim?, item)) == old(Left(cur, outState.Verbatim?))[1..]
      ensures Fits(item, outState.Verbatim?)
    {
      ghost var bytes := tok[cur.byte..cur.end];
      ReadSize(bytes, outState.Verbatim?);
      var a := tok[cur.byte];
      if outState.Verbatim? && a != STRING && a != CONSTANT && a != NEWLINE {
        item := Raw(a);
      } else if a < 128 {
        item := Char(a);
      } else {
        a := (a - 128) * 256 + tok[cur.byte + 1];
        if a < IDENT_LIMIT {
          item := Ident(a);
        } else if a < SECTION_BASE {
          item := if a == DEFS_FLAG then Defs else Ref(a - IDENT_LIMIT);
        } else if a > SECTION_BASE {
          item := Section(a - SECTION_BASE);
        } else {
          var line := 256 * tok[cur.byte + 2] + tok[cur.byte + 3];
          item := Line(line, 256 * (tok[cur.byte + 4] - 128) + tok[cur.byte + 5]);
        }
      }
      assert ReadOne(bytes, outState.Verbatim?) == Some(item);
      cur := cur.(byte := cur.byte + Size(item));
      assert tok[cur.byte..cur.end] == bytes[Size(item)..];
    }

    /** One item read: what the level has to do is what the item calls for and the rest. */
    lemma JobStep(f: Frame, quoted: bool, f2: Frame, quoted2: bool)
      requires Stored() && FrameOk(f, quoted) && Left(f, quoted) != []
      requires var item := Left(f, quoted)[0];
               f2 == f.(byte := f2.byte, section := if item.Section? then item.n else f.section)
      requires Readable(f2, quoted2) && Left(f2, quoted2) == Left(f, quoted)[1..]
      ensures FrameOk(f2, quoted2)
      ensures RefsBelow([Left(f, quoted)[0]], p.equiv, p.rank, p.rank[p.owner[f.repl]])
      ensures Job(f, quoted) == Then(ExpandItem(p, p.owner[f.repl], Left(f, quoted)[0]), Job(f2, quoted2))
    {
      hide ProgramOk, Readable, Left, StoredText;
      TextOk(p, f.repl);
      FinishItem(p, f.repl, Left(f, quoted));
    }

    /** A level at the start of text t. */
    lemma StartOk(f: Frame)
      requires Stored() && 1 <= f.repl < |p.texts| && p.owner[f.repl] != MACRO
      requires f.byte == start[f.repl] && f.end == start[f.repl + 1]
      ensures FrameOk(f, false) && Left(f, false) == p.texts[f.repl]
    {
      hide ProgramOk;
      TextOk(p, f.repl);
      assert StoredText(f.repl);
    }

    /** `push_level`; null keeps the current text. */
    method PushLevel(name: Option<nat>)
      requires name.Some? ==> name.value < |equiv| && equiv[name.value] + 1 < |start|
      modifies `cur, `stack, `level
      ensures stack == old(stack) + [old(cur)] && level == old(level) + 1
      ensures name.None? ==> cur == old(cur)
      ensures name.Some? ==>
                var t := equiv[name.value];
                cur == Frame(start[t], start[t + 1], name.value, t, 0)
    {
      stack := stack + [cur];
      level := level + 1;
      if name.Some? {
        var t := equiv[name.value];
        cur := Frame(start[t], start[t + 1], name.value, t, 0);
      }
    }

    /** `pop_level`: with `flag`, on to the next text of the section if there is one. */
    method PopLevel(flag: bool)
      requires level > 0 && |stack| == level - 1 && cur.repl < |link|
      requires flag && link[cur.repl] < SECTION_FLAG ==> link[cur.repl] + 1 < |start|
      modifies `cur, `stack, `level
      ensures flag && link[old(cur.repl)] < SECTION_FLAG ==>
                var n := link[old(cur.repl)];
                cur == old(cur).(repl := n, byte := start[n], end := start[n + 1]) &&
                stack == old(stack) && level == old(level)
      ensures !(flag && link[old(cur.repl)] < SECTION_FLAG) ==>
                level == old(level) - 1 && |stack| == (if level == 0 then 0 else level - 1) &&
                if level == 0 then cur == old(cur) else old(stack) == stack + [cur]
    {
      if flag && link[cur.repl] < SECTION_FLAG {
        var n := link[cur.repl];
        cur := cur.(repl := n, byte := start[n], end := start[n + 1]);
        return;
      }
      level := level - 1;
      if level > 0 {
        cur := stack[|stack| - 1];
        stack := stack[..|stack| - 1];
      }
    }

    /** The end of a text: its closing marker, then its section's next text or the level below. */
    method EndText() returns (done: bool)
      requires Valid() && level > 0 && cur.byte == cur.end
      modifies this
      ensures Valid() && first == old(first) && trace + Todo().items == old(trace + Todo().items)
      ensures Todo().steps < old(Todo().steps)
      ensures level > 0 ==> BottomOwner() == old(BottomOwner())
      ensures level == 0 ==> cur.section == LastNumber(p, old(BottomOwner()))
    {
      hide ProgramOk, Linked, Next, Finish, Render, ModeAfter, LastNumber, Readable, StoredText, RefsBelow, Left,
        FrameOk, Closing;
      ghost var t := cur.repl;
      ghost var f0, rest := cur, Jobs(stack);
      AtEnd(cur, outState.Verbatim?);
      TextOk(p, t);
      FinishNext(p, t);
      var val := -(cur.section as int);
      PopLevel(true);
      if level == 0 {
        NothingThen(Closing(p, t));
        LastText(p, t);
      } else if p.link[t] != SECTION_FLAG {
        StartOk(cur);
        ThenAssoc(Closing(p, t), Job(cur, false), Jobs(stack));
      }
      if val == 0 {
        return false;
      }
      ghost var later := Todo();
      OutChar(Mark(val));
      assert trace + Todo().items == old(trace) + (Closing(p, t).items + later.items);
      return true;
    }

    /** A level with nothing left to read. */
    lemma AtEnd(f: Frame, quoted: bool)
      requires Stored() && FrameOk(f, quoted) && f.byte == f.end
      ensures !quoted && Left(f, quoted) == [] && f.section > 0
      ensures ProgramOk(p) && 1 <= f.repl < |p.texts| && p.owner[f.repl] != MACRO
      ensures f.section == p.texts[f.repl][0].n && Closing(p, f.repl) == Flow([Mark(-(f.section as int))], 1)
    {
      hide ProgramOk;
      TextOk(p, f.repl);
      assert tok[f.byte..f.end] == [];
    }

    /** `output_defs`: every macro once, in order of definition; the current text stays where it was. */
    method OutputDefs()
      requires Stored() && Written() && !protect && !outState.Verbatim? && 0 < level && |stack| == level - 1
      requires cur.repl < |link|
      modifies this
      ensures Written() && !protect && !outState.Verbatim? && first == old(first)
      ensures cur == old(cur) && stack == old(stack) && level == old(level)
      ensures trace == old(trace) + MacroEvents(p, 1)
    {
      hide ProgramOk, Linked, Next, Render, ModeAfter, MacroBody;
      Sizes();
      PushLevel(None);
      var t := 1;
      assert old(trace) + MacroEvents(p, 1) == trace + MacroEvents(p, 1);
      while t < |link|
        invariant 1 <= t <= |p.texts| && Written() && !protect && !outState.Verbatim?
        invariant old(trace) + MacroEvents(p, 1) == trace + MacroEvents(p, t)
        invariant first == old(first) && level == old(level) + 1 && stack == old(stack) + [old(cur)]
        invariant cur.repl == old(cur.repl)
        modifies this
      {
        MacroLink(t);
        if link[t] == 0 {
          OutputMacro(t);
        }
        t := t + 1;
      }
      assert MacroEvents(p, t) == [];
      assert stack[..|stack| - 1] == old(stack);
      PopLevel(false);
    }

    lemma Sizes()
      requires Stored()
      ensures |link| == |p.texts| == |p.owner| && 1 <= |link|
    {
    }

    lemma MacroLink(t: nat)
      requires Stored() && 1 <= t < |p.texts|
      ensures |p.owner| == |p.texts| == |link|
      ensures link[t] == 0 <==> p.owner[t] == MACRO
      ensures p.owner[t] == MACRO ==> MacroText(p.texts[t])
    {
    }

    /** One #define line. */
    method OutputMacro(t: nat)
      requires Stored() && Written() && !protect && !outState.Verbatim? && 1 <= t < |p.texts| && MacroText(p.texts[t])
      modifies `cur, `file, `outState, `protect, `trace
      ensures Written() && !protect && !outState.Verbatim?
      ensures trace == old(trace) + DefineEvents(p.texts[t]) && cur.repl == old(cur.repl)
    {
      hide ProgramOk, Linked, Next, Render, ModeAfter, Read, ReadOne, MacroBody, MacroText, After;
      assert StoredText(t);
      cur := cur.(byte := start[t], end := start[t + 1]);
      OutChar(DefineStart);
      Unquoted(old(outState));
      while cur.byte < cur.end
        invariant Written() && protect && Readable(cur, outState.Verbatim?) && cur.repl == old(cur.repl)
        invariant MacroText(Left(cur, outState.Verbatim?))
        invariant trace + MacroBody(Left(cur, outState.Verbatim?)) ==
                  old(trace) + [DefineStart] + MacroBody(p.texts[t])
        decreases cur.end - cur.byte
        modifies `cur, `file, `outState, `protect, `trace
      {
        if cur.byte + 1 == cur.end && tok[cur.byte] == NEWLINE {
          LoneNewline(cur, outState.Verbatim?);
          break;
        }
        ghost var items := Left(cur, outState.Verbatim?);
        ghost var before := trace;
        NotLoneNewline(cur, outState.Verbatim?);
        var item := Fetch();
        DropStep(items);
        QuotedAlike(outState, item);
        OutChar(ItemEvent(item));
        assert before + MacroBody(items) == trace + MacroBody(items[1..]);
      }
      if cur.byte == cur.end {
        NothingLeft(cur, outState.Verbatim?);
      }
      Unquoted(outState);
      OutChar(DefineEnd);
      assert old(trace) + DefineEvents(p.texts[t]) ==
             old(trace) + [DefineStart] + MacroBody(p.texts[t]) + [DefineEnd];
    }

    lemma NothingLeft(f: Frame, quoted: bool)
      requires Readable(f, quoted) && f.byte == f.end && MacroText(Left(f, quoted))
      ensures !quoted && Left(f, quoted) == [] && MacroBody(Left(f, quoted)) == []
    {
      assert tok[f.byte..f.end] == [];
    }

    lemma LoneNewline(f: Frame, quoted: bool)
      requires Readable(f, quoted) && f.byte + 1 == f.end && tok[f.byte] == NEWLINE && MacroText(Left(f, quoted))
      ensures !quoted && Left(f, quoted) == [Char(NEWLINE)] && MacroBody(Left(f, quoted)) == []
    {
      var bytes := tok[f.byte..f.end];
      assert bytes == [NEWLINE];
      ReadStep(bytes, quoted, Char(NEWLINE), []);
      ReadNothing();
    }

    lemma NotLoneNewline(f: Frame, quoted: bool)
      requires Readable(f, quoted) && f.byte < f.end && !(f.byte + 1 == f.end && tok[f.byte] == NEWLINE)
      ensures Left(f, quoted) != [] && Left(f, quoted) != [Char(NEWLINE)]
    {
      var bytes := tok[f.byte..f.end];
      ReadSize(bytes, quoted);
      assert Left(f, quoted)[0] == ReadOne(bytes, quoted).value;
      if ReadOne(bytes, quoted) == Some(Char(NEWLINE)) {
        ReadStep(bytes, quoted, Char(NEWLINE), bytes[1..]);
        if Read(bytes[1..], quoted) == Some([]) {
          ReadEmpty(bytes[1..], quoted);
        }
        assert [Char(NEWLINE)] + Read(bytes[1..], quoted).value != [Char(NEWLINE)];
      }
    }

    /** What is known of a level that is not at its end. */
    lemma FrameFacts(f: Frame, quoted: bool)
      requires Stored() && FrameOk(f, quoted)
      ensures 1 <= f.repl < |p.texts| == |link| == |p.owner| && Readable(f, quoted)
      ensures 0 <= p.owner[f.repl] < |p.rank| && p.owner[f.repl] != MACRO
    {
      TextOk(p, f.repl);
    }

    /** The output goes on with the first text of section a. */
    method Enter(a: nat)
      requires Stored() && Written() && !protect && level > 0 && |stack| == level - 1
      requires FramesOk(stack) && FrameOk(cur, false) && !outState.Verbatim?
      requires a < |equiv| && 1 <= equiv[a] < |p.texts| && equiv[a] + 1 < |start| && |p.owner| == |p.texts|
      requires p.owner[equiv[a]] == a < |p.rank| && RefsBelow(p.texts[equiv[a]], p.equiv, p.rank, p.rank[a])
      modifies `cur, `stack, `level
      ensures Valid() && level > 1
      ensures Todo() == Then(Finish(p, equiv[a], p.texts[equiv[a]]), old(Then(Job(cur, false), Jobs(stack))))
      ensures BottomOwner() == old(BottomOwner())
    {
      hide ProgramOk, Linked, Next, Finish, Render, ModeAfter, Read, Readable, Left, StoredText, RefsBelow, FrameOk;
      ghost var frames := stack;
      PushLevel(Some(a));
      StartOk(cur);
      assert stack[..|stack| - 1] == frames;
    }

    /** A reference: to the texts of the section, if it has any. */
    method Refer(item: Item)
      requires Stored() && Written() && !protect && level > 0 && |stack| == level - 1
      requires FramesOk(stack) && FrameOk(cur, false) && !outState.Verbatim?
      requires item.Ref? && RefsBelow([item], p.equiv, p.rank, p.rank[p.owner[cur.repl]])
      modifies this
      ensures Valid() && first == old(first)
      ensures var rest := old(Then(Job(cur, false), Jobs(stack)));
              var all := Then(ExpandItem(p, p.owner[old(cur.repl)], item), rest);
              && trace + Todo().items == old(trace) + all.items && Todo().steps < all.steps
      ensures level > 0 && BottomOwner() == old(BottomOwner())
    {
      hide ProgramOk, Linked, Next, Finish, Render, ModeAfter, ExpandItem, Read, Readable, Left, StoredText, RefsBelow,
        Job, Jobs, FrameOk;
      FrameFacts(cur, false);
      ItemOut(p.owner[cur.repl], item);
      ghost var rest := Then(Job(cur, false), Jobs(stack));
      if equiv[item.a] != 0 {
        ThenAssoc(Flow([], 1), Finish(p, equiv[item.a], p.texts[equiv[item.a]]), rest);
        Enter(item.a);
      } else if item.a != 0 {
        OutChar(NotPresent(item.a));
        assert old(trace) + ([NotPresent(item.a)] + rest.items) == trace + rest.items;
      }
    }

    /** One turn of `get_output`: false means that it starts over without having written. */
    method Step() returns (done: bool)
      requires Valid() && level > 0
      modifies this
      ensures Valid() && first == old(first) && trace + Todo().items == old(trace + Todo().items)
      ensures Todo().steps < old(Todo().steps)
      ensures level > 0 ==> BottomOwner() == old(BottomOwner())
      ensures level == 0 ==> cur.section == LastNumber(p, old(BottomOwner()))
    {
      hide ProgramOk, Linked, Next, Finish, Render, ModeAfter, ExpandItem, Read, ReadOne, FrameOk,
        StoredText, After, RefsBelow, LastNumber;
      if cur.byte == cur.end {
        done := EndText();
        return;
      }
      ghost var f, quoted := cur, outState.Verbatim?;
      FrameFacts(f, quoted);
      NotAtEnd(f, quoted);
      var item := Fetch();
      if item.Section? {
        cur := cur.(section := item.n);
      }
      JobStep(f, quoted, cur, Toggled(quoted, item));
      ItemOut(p.owner[f.repl], item);
      ThenAssoc(ExpandItem(p, p.owner[f.repl], item), Job(cur, Toggled(quoted, item)), Jobs(stack));
      if item.Ref? {
        Refer(item);
        return false;
      }
      if item.Defs? {
        OutputDefs();
      } else {
        QuotedAlike(outState, item);
        OutChar(ItemEvent(item));
      }
      return true;
    }

    lemma NotAtEnd(f: Frame, quoted: bool)
      requires Stored() && FrameOk(f, quoted) && f.byte != f.end
      ensures f.byte < f.end
    {
    }

    /** What one item calls for. */
    lemma ItemOut(a: nat, item: Item)
      requires Stored() && a < |p.rank| && RefsBelow([item], p.equiv, p.rank, p.rank[a])
      ensures item.Ref? ==> item.a < |equiv| == |p.rank|
      ensures item.Ref? && equiv[item.a] == 0 ==>
                ExpandItem(p, a, item) == Flow(if item.a == 0 then [] else [NotPresent(item.a)], 1)
      ensures item.Ref? && equiv[item.a] != 0 ==>
                var t := equiv[item.a];
                && 1 <= t < |p.texts| && t + 1 < |start| && p.owner[t] == item.a
                && RefsBelow(p.texts[t], p.equiv, p.rank, p.rank[item.a])
                && ExpandItem(p, a, item) == Then(Flow([], 1), Finish(p, t, p.texts[t]))
      ensures item.Defs? ==> ExpandItem(p, a, item) == Flow(MacroEvents(p, 1), 1)
      ensures !item.Ref? && !item.Defs? ==> ExpandItem(p, a, item) == Flow([ItemEvent(item)], 1)
    {
      hide Finish, Linked;
      if item.Ref? {
        assert [item][0].Ref?;
        if equiv[item.a] != 0 {
          ExpandHead(p, item.a);
        }
      }
    }

    lemma InOrder()
      requires Valid()
      ensures ProgramOk(p)
    {
    }

    /** `get_output`: reads on until something has been written, or nothing is left. */
    method GetOutput()
      requires Valid()
      modifies this
      ensures Valid() && first == old(first) && trace + Todo().items == old(trace + Todo().items)
      ensures old(level) > 0 ==> Todo().steps < old(Todo().steps)
      ensures level > 0 ==> old(level) > 0 && BottomOwner() == old(BottomOwner())
      ensures level == 0 < old(level) ==> cur.section == LastNumber(p, old(BottomOwner()))
    {
      hide Valid, Todo, Render, BottomOwner, LastNumber, ProgramOk;
      InOrder();
      while level > 0
        invariant Valid() && first == old(first) && trace + Todo().items == old(trace + Todo().items)
        invariant Todo().steps < old(Todo().steps) || (level == old(level) && Todo().steps == old(Todo().steps))
        invariant level > 0 ==> old(level) > 0 && BottomOwner() == old(BottomOwner())
        invariant level == 0 < old(level) ==> cur.section == LastNumber(p, old(BottomOwner()))
        decreases Todo().steps
        modifies this
      {
        var done := Step();
        if done {
          return;
        }
      }
    }

    /** `while(stack_ptr>stack)get_output();` does all that there is to do. */
    method Run()
      requires Valid()
      modifies this
      ensures Valid() && level == 0 && first == old(first)
      ensures trace == old(trace + Todo().items)
      ensures old(level) > 0 ==> cur.section == LastNumber(p, old(BottomOwner()))
    {
      hide ProgramOk, Linked, Next, Render, ModeAfter, Finish, StoredText, BottomOwner, LastNumber;
      while level > 0
        invariant Valid() && first == old(first) && trace + Todo().items == old(trace + Todo().items)
        invariant level > 0 ==> old(level) > 0 && BottomOwner() == old(BottomOwner())
        invariant level == 0 < old(level) ==> cur.section == LastNumber(p, old(BottomOwner()))
        decreases Todo().steps
        modifies this
      {
        GetOutput();
      }
      assert trace + [] == trace;
    }

    /** A level for the first text of a section, at the bottom of the stack. */
    lemma Bottom(name: nat)
      requires Stored() && Written() && !protect && !outState.Verbatim? && level == 1 && stack == []
      requires 1 <= cur.repl < |p.texts| && cur.byte == start[cur.repl] && cur.end == start[cur.repl + 1]
      requires name < |equiv| && cur.repl == if name == 0 then link[0] else equiv[name]
      ensures name < |p.rank| && Valid() && Todo() == Expand(p, name) && BottomOwner() == name
    {
      hide Render, ModeAfter;
      HeadOf(name);
      StartOk(cur);
      NothingThen(Job(cur, false));
    }

    lemma HeadOf(name: nat)
      requires Stored() && name < |equiv|
      requires (if name == 0 then link[0] else equiv[name]) != 0
      ensures var t := if name == 0 then link[0] else equiv[name];
              && name < |p.rank| && 1 <= t < |p.texts| == |p.owner| && t + 1 < |start| && p.owner[t] == name
              && RefsBelow(p.texts[t], p.equiv, p.rank, p.rank[name])
              && Expand(p, name) == Finish(p, t, p.texts[t])
    {
      hide StoredText;
      if name != 0 {
        ExpandHead(p, name);
      } else {
        UnnamedHead(p);
      }
    }

    /** The main C file: the macros, if they have not been asked for elsewhere, and the
        unnamed program, if there is one. */
    method MainFile(outputDefsSeen: bool) returns (main: seq<Piece>)
      requires Stored() && outState == Normal && !protect
      modifies this
      ensures Stored() && 1 <= |link| && 1 <= |p.rank| && !protect && !outState.Verbatim?
      ensures var events := MainEvents(p, outputDefsSeen);
              && main == Render(Mode(Normal, false), events) + (if link[0] == 0 then [] else [Ch(NEWLINE)])
              && outState == ModeAfter(Mode(Normal, false), events).state
      ensures cur.section == LastNumber(p, 0)
    {
      hide ProgramOk, Linked, Next, Render, ModeAfter, Expand, Finish, StoredText, LastNumber, BottomOwner;
      Ranks();
      file, trace, first := [], [], Mode(outState, protect);
      NothingRendered(first);
      level, stack := 1, [];
      cur := Frame(start[link[0]], start[link[0] + 1], 0, link[0], 0);
      if !outputDefsSeen {
        OutputDefs();
      }
      ghost var macros := if outputDefsSeen then [] else MacroEvents(p, 1);
      assert trace == macros;
      if link[0] == 0 {
        assert macros + [] == macros;
        NoUnnamed(p);
        return file;
      }
      HeadOf(0);
      Bottom(0);
      Run();
      main := file + [Ch(NEWLINE)];
    }

    /** The beginning of the file of section f. */
    method Begin(f: nat)
      requires Stored() && f < |equiv| && !protect && !outState.Verbatim?
      modifies this
      ensures level == 1 && stack == [] && outState == old(outState) && protect == old(protect)
      ensures first == Mode(outState, protect) && trace == [] && Written()
      ensures cur.repl == equiv[f] < |p.texts| && equiv[f] + 1 < |start| && cur.section == old(cur.section)
      ensures cur.byte == start[cur.repl] && cur.end == start[cur.repl + 1]
    {
      hide ProgramOk, Linked, Next, Render, ModeAfter, StoredText;
      file, trace, first := [], [], Mode(outState, protect);
      NothingRendered(first);
      FirstText(f);
      level, stack := 1, [];
      var t := equiv[f];
      cur := Frame(start[t], start[t + 1], f, t, cur.section);
    }

    lemma FirstText(f: nat)
      requires Stored() && f < |equiv|
      ensures equiv[f] < |p.texts| && equiv[f] + 1 < |start|
    {
    }

    /** One turn of `get_output` in text 0, which is empty: a closing marker for the section of the
        text written last, and on to the unnamed program.  Without one, the turn has led nowhere. */
    method LeaveStart()
      requires Stored() && Written() && level == 1 && stack == [] && cur.repl == 0 && 1 < |start|
      requires cur.byte == start[0] && cur.end == start[1]
      modifies this
      ensures Written() && first == old(first) && level == 1 && stack == []
      ensures cur.byte == cur.end || link[0] != 0
      ensures trace == old(trace) + Stray(old(cur.section)) && outState == old(outState) && protect == old(protect)
      ensures link[0] < |link| && link[0] + 1 < |start|
      ensures cur == old(cur).(repl := link[0], byte := start[link[0]], end := start[link[0] + 1])
      ensures link[0] == 0 ==> cur == old(cur)
    {
      hide ProgramOk, Linked, Next, Render, ModeAfter, StoredText;
      Ranks();
      var val := -(cur.section as int);
      PopLevel(true);
      if val != 0 {
        OutChar(Mark(val));
      }
    }

    /** Where neither the section nor the unnamed program has any text, every turn leaves the stack as it
        was: after n turns the file has n closing markers and there is as much to do as before. */
    method Endless(f: nat, n: nat)
      requires Stored() && f < |equiv| && equiv[f] == 0 && link[0] == 0 && !protect && !outState.Verbatim?
      modifies this
      ensures level == 1 && cur.repl == 0 && cur.section == old(cur.section)
      ensures |trace| == (if cur.section > 0 then n else 0)
      ensures forall k :: 0 <= k < |trace| ==> trace[k] == Mark(-(cur.section as int))
    {
      hide ProgramOk, Linked, Next, Render, ModeAfter, StoredText;
      Begin(f);
      for k := 0 to n
        invariant Written() && level == 1 && stack == [] && cur.repl == 0 && cur.section == old(cur.section)
        invariant 1 < |start| && cur.byte == start[0] && cur.end == start[1]
        invariant |trace| == (if cur.section > 0 then k else 0)
        invariant forall k :: 0 <= k < |trace| ==> trace[k] == Mark(-(cur.section as int))
      {
        LeaveStart();
      }
    }

    /** The file of section f.  A section without text is written as the unnamed program. */
    method OutputFile(f: nat) returns (other: seq<Piece>)
      requires Stored() && 0 < f < |equiv| && !protect && !outState.Verbatim?
      requires equiv[f] != 0 || link[0] != 0
      modifies this
      ensures !protect && !outState.Verbatim? && cur.section == LastOf(p, f)
      ensures var es := FileEvents(p, old(cur.section), f);
              && other == Render(Mode(old(outState), false), es) + [Ch(NEWLINE)]
              && Mode(outState, false) == ModeAfter(Mode(old(outState), false), es)
    {
      hide ProgramOk, Linked, Next, Render, ModeAfter, Expand, Finish, StoredText, LastNumber, BottomOwner;
      Ranks();
      Begin(f);
      if equiv[f] == 0 {
        LeaveStart();
      }
      ghost var a, stray := if equiv[f] == 0 then 0 else f, trace;
      HeadOf(a);
      Bottom(a);
      Run();
      assert stray == if equiv[f] == 0 then Stray(old(cur.section)) else [];
      assert [] + Expand(p, a).items == Expand(p, a).items;
      assert trace == stray + Expand(p, a).items == FileEvents(p, old(cur.section), f);
      other := file + [Ch(NEWLINE)];
    }

    /** One file for every section that is an output file; `endless` says that the last one is never finished. */
    method OutputFiles(files: seq<nat>) returns (others: seq<seq<Piece>>, endless: bool)
      requires Stored() && !protect && !outState.Verbatim?
      requires forall k :: 0 <= k < |files| ==> 0 < files[k] < |equiv|
      modifies this
      ensures others == Files(p, Mode(old(outState), false), old(cur.section), files)
      ensures endless <==> exists k :: 0 <= k < |files| && NeverEnds(p, files[k])
      ensures endless <==> |others| < |files|
    {
      hide ProgramOk, Linked, Next, Render, ModeAfter, Expand, Finish, StoredText, LastNumber, FileEvents;
      Ranks();
      others, endless := [], false;
      var k := 0;
      while k < |files|
        invariant k == |others| <= |files| && !protect && !outState.Verbatim?
        invariant others + Files(p, Mode(outState, false), cur.section, files[k..])
               == Files(p, Mode(old(outState), false), old(cur.section), files)
        invariant forall j :: 0 <= j < k ==> !NeverEnds(p, files[j])
        modifies this
      {
        ghost var before, section := Mode(outState, false), cur.section;
        if equiv[files[k]] == 0 && link[0] == 0 {
          endless := true;
          return;
        }
        var other := OutputFile(files[k]);
        assert files[k..][1..] == files[k + 1..];
        assert Files(p, before, section, files[k..]) ==
               [other] + Files(p, Mode(outState, false), cur.section, files[k + 1..]);
        others := others + [other];
        k := k + 1;
      }
    }

    /** `phase_two`: the main file, then the others. */
    method PhaseTwo(outputDefsSeen: bool, files: seq<nat>)
      returns (main: seq<Piece>, others: seq<seq<Piece>>, endless: bool)
      requires Stored() && outState == Normal && !protect
      requires forall k :: 0 <= k < |files| ==> 0 < files[k] < |equiv|
      modifies this
      ensures 1 <= |link| && 1 <= |p.rank|
      ensures var events := MainEvents(p, outputDefsSeen);
              && main == Render(Mode(Normal, false), events) + (if link[0] == 0 then [] else [Ch(NEWLINE)])
              && others == Files(p, Mode(ModeAfter(Mode(Normal, false), events).state, false), LastNumber(p, 0), files)
      ensures endless <==> exists k :: 0 <= k < |files| && NeverEnds(p, files[k])
    {
      hide ProgramOk, Linked, Next, Render, ModeAfter, Expand, Finish, StoredText, LastNumber, Files, MainEvents;
      main := MainFile(outputDefsSeen);
      others, endless := OutputFiles(files);
    }

    lemma Ranks()
      requires Stored()
      ensures |p.rank| == |equiv| && 1 <= |equiv| && 1 <= |link| == |p.texts| <= SECTION_FLAG && link[0] < |link|
      ensures |start| == |p.texts| + 1
    {
    }
  }

  ghost function MainEvents(p: Program, outputDefsSeen: bool): seq<Event>
    requires ProgramOk(p) && 1 <= |p.link| && 1 <= |p.rank|
  {
    (if outputDefsSeen then [] else MacroEvents(p, 1)) + (if p.link[0] == 0 then [] else Expand(p, 0).items)
  }

  /** The closing marker that text 0 writes for the section of the text written before it. */
  function Stray(section: nat): seq<Event> {
    if section > 0 then [Mark(-(section as int))] else []
  }

  /** A file whose section has no text, in a program without an unnamed part. */
  predicate NeverEnds(p: Program, f: nat)
    requires f < |p.equiv| && p.link != []
  {
    p.equiv[f] == 0 && p.link[0] == 0
  }

  /** What the file of section f holds, when the text written last belongs to section number `section`. */
  ghost function FileEvents(p: Program, section: nat, f: nat): seq<Event>
    requires ProgramOk(p) && f < |p.rank|
  {
    if p.equiv[f] != 0 then Expand(p, f).items else Stray(section) + Expand(p, 0).items
  }

  /** The section number of the text that a file ends with. */
  ghost function LastOf(p: Program, f: nat): nat
    requires ProgramOk(p) && f < |p.rank|
  {
    LastNumber(p, if p.equiv[f] == 0 then 0 else f)
  }

  /** The files of output sections, each with a last newline, up to one that is never finished. */
  ghost function Files(p: Program, m: Mode, section: nat, names: seq<nat>): seq<seq<Piece>>
    requires ProgramOk(p) && forall k :: 0 <= k < |names| ==> names[k] < |p.rank|
    decreases |names|
  {
    if names == [] || NeverEnds(p, names[0]) then []
    else
      var es := FileEvents(p, section, names[0]);
      [Render(m, es) + [Ch(NEWLINE)]] + Files(p, ModeAfter(m, es), LastOf(p, names[0]), names[1..])
  }

  /** The markers of a file are well nested exactly when its section has a text or nothing was written before. */
  lemma FileNested(p: Program, section: nat, f: nat)
    requires ProgramOk(p) && f < |p.rank| && !NeverEnds(p, f)
    ensures Nest(FileEvents(p, section, f), []) == Some([]) <==> p.equiv[f] != 0 || section == 0
  {
    hide ProgramOk, Expand;
    Sized(p);
    ExpandNested(p, 0, []);
    ExpandNested(p, f, []);
    var es := Expand(p, 0).items;
    assert [] + es == es;
    if section > 0 {
      assert (Stray(section) + es)[0] == Mark(-(section as int));
    }
  }

  lemma Sized(p: Program)
    requires ProgramOk(p)
    ensures |p.rank| == |p.equiv| >= 1 && p.link != []
  {
  }

  /** A program without an unnamed part. */
  lemma NoUnnamed(p: Program)
    requires ProgramOk(p) && p.link[0] == 0
    ensures LastNumber(p, 0) == 0
  {
  }

  lemma ReadEmpty(bytes: seq<nat>, quoted: bool)
    requires Read(bytes, quoted) == Some([])
    ensures bytes == []
  {
  }

  lemma Unquoted(st: OutState)
    ensures !After(st, DefineStart).Verbatim? && After(st, DefineEnd) == st
  {
  }

  lemma DropStep(items: seq<Item>)
    requires MacroText(items) && items != [] && items != [Char(NEWLINE)]
    ensures MacroText(items[1..]) && !items[0].Ref? && !items[0].Defs?
    ensures MacroBody(items) == [ItemEvent(items[0])] + MacroBody(items[1..])
  {
    assert DropNewline(items)[1..] == DropNewline(items[1..]);
  }
}
