/** The merge of a web file with a change file behind `get_line`. */
module ChangeFile {
  import opened Bytes

  /** A line without its end and without trailing blanks. */
  type Line = seq<nat>

  const AT_SIGN: nat := 64
  const X: nat := 120
  const Y: nat := 121
  const Z: nat := 122
  const I: nat := 105

  /** The letter of a control line, in lower case, or 0. */
  function Code(l: Line): nat {
    if |l| >= 2 && l[0] == AT_SIGN then Lower(l[1]) else 0
  }

  /** Change lines have the letter of a control code at their start put in lower case. */
  function Lowered(l: Line): Line {
    if |l| >= 2 && l[0] == AT_SIGN then l[1 := Lower(l[1])] else l
  }

  function LoweredAll(ls: seq<Line>): seq<Line> {
    if ls == [] then [] else [Lowered(ls[0])] + LoweredAll(ls[1..])
  }

  /** Where the first line with control code c is; |ls| if there is none. */
  function Find(ls: seq<Line>, c: nat): (n: nat)
    ensures n <= |ls| && (n < |ls| ==> Code(ls[n]) == c)
    ensures forall k :: 0 <= k < n ==> Code(ls[k]) != c
  {
    if ls == [] || Code(ls[0]) == c then 0 else 1 + Find(ls[1..], c)
  }

  function DropBlanks(ls: seq<Line>): seq<Line> {
    if ls != [] && ls[0] == [] then DropBlanks(ls[1..]) else ls
  }

  function After(ls: seq<Line>, n: nat): seq<Line> {
    if n < |ls| then ls[n + 1..] else []
  }

  /** The change file from the first old line of the next change on. */
  function Seek(change: seq<Line>): seq<Line> {
    DropBlanks(After(change, Find(change, X)))
  }

  /** How many of the lines replaced are not the old lines of the change. */
  function Mismatches(web: seq<Line>, olds: seq<Line>): nat
    requires |web| >= |olds|
  {
    if olds == [] then 0 else (if web[0] == Lowered(olds[0]) then 0 else 1) + Mismatches(web[1..], olds[1..])
  }

  /** The lines delivered, and the complaints that some lines failed to match. */
  datatype Out = Out(lines: seq<Line>, failed: seq<nat>)

  function Flag(n: nat): seq<nat> {
    if n > 0 then [n] else []
  }

  /** What is delivered when the new lines come next and then the rest of the web file. */
  function News(web: seq<Line>, change: seq<Line>): Out
    decreases |web|, 1
  {
    var z := Find(change, Z);
    var later := Merge(web, Seek(After(change, z)));
    Out(LoweredAll(change[..z]) + later.lines, later.failed)
  }

  /** What is delivered when the first old line has been found: as many web lines as there
      are old lines make way for the new lines. A web file that ends inside a change ends the
      input; a change file that ends before @y delivers an empty line instead. */
  function Replaced(web: seq<Line>, change: seq<Line>): Out
    decreases |web|, 2
  {
    var n := Find(change, Y);
    if |web| < n then Out([], [])
    else if n == |change| then
      var later := Merge(web[n..], []);
      Out([[]] + later.lines, later.failed)
    else
      var later := News(web[n..], change[n + 1..]);
      Out(later.lines, Flag(Mismatches(web, change[..n])) + later.failed)
  }

  /** What the merge is for: a change begins at the first web line equal to its first old line.
      `pending` is the change file from that old line on. */
  function Merge(web: seq<Line>, pending: seq<Line>): Out
    decreases |web|, 0
  {
    if web == [] then Out([], [])
    else if pending != [] && web[0] == pending[0] then Replaced(web[1..], pending[1..])
    else
      var later := Merge(web[1..], pending);
      Out([web[0]] + later.lines, later.failed)
  }

  datatype Kind = Nothing | AtY | Old

  class Input {
    ghost const whole: seq<Line> // the web file
    var web: seq<Line>           // what is left of it
    var change: seq<Line>        // what is left of the change file
    var buffer: Line
    var changeBuffer: Line
    var changing: bool
    var ended: bool              // `input_has_ended`
    var curLine: nat
    var changeLine: nat
    var errors: nat              // complaints about the form of the change file
    var failed: seq<nat>         // "... of the preceding lines failed to match"

    /** The line number says how much of the web file has been read. */
    ghost predicate Valid()
      reads this
    {
      if ended then web == [] && !changing else curLine <= |whole| && web == whole[curLine..]
    }

    function Pending(): seq<Line>
      reads this
    {
      if changeBuffer == [] then [] else [changeBuffer] + change
    }

    /** What is still to be delivered. */
    ghost function Future(): Out
      reads this
    {
      if ended then Out([], []) else if changing then News(web, change) else Merge(web, Pending())
    }

    /** `reset_input`. */
    constructor (web: seq<Line>, change: seq<Line>)
      ensures Valid() && !ended && !changing && failed == []
      ensures Future() == Merge(web, Seek(change))
    {
      whole, this.web, this.change := web, web, change;
      curLine, changeLine, errors, failed, ended, changing := 0, 0, 0, [], false, false;
      new;
      Prime();
    }

    /** `input_ln` on the change file. */
    method InputChange() returns (ok: bool)
      modifies `change, `buffer
      ensures ok <==> old(change) != []
      ensures ok ==> buffer == old(change)[0] && change == old(change)[1..]
      ensures !ok ==> buffer == [] && change == []
    {
      if change == [] {
        buffer := [];
        return false;
      }
      buffer, change := change[0], change[1..];
      return true;
    }

    method InputWeb() returns (ok: bool)
      modifies `web, `buffer
      ensures ok <==> old(web) != []
      ensures ok ==> buffer == old(web)[0] && web == old(web)[1..]
      ensures !ok ==> buffer == [] && web == []
    {
      if web == [] {
        buffer := [];
        return false;
      }
      buffer, web := web[0], web[1..];
      return true;
    }

    /** On to the next @x. */
    method SeekX() returns (found: bool)
      modifies `change, `buffer, `changeLine, `errors
      ensures found <==> Find(old(change), X) < |old(change)|
      ensures change == After(old(change), Find(old(change), X))
    {
      hide Find, After;
      while true
        invariant Find(change, X) < |change| <==> Find(old(change), X) < |old(change)|
        invariant After(change, Find(change, X)) == After(old(change), Find(old(change), X))
        decreases |change|
        modifies `change, `buffer, `changeLine, `errors
      {
        SeekStep(change);
        changeLine := changeLine + 1;
        var ok := InputChange();
        if !ok {
          return false;
        }
        if |buffer| >= 2 && buffer[0] == AT_SIGN {
          buffer := Lowered(buffer);
          if buffer[1] == X {
            return true;
          }
          if buffer[1] == Y || buffer[1] == Z || buffer[1] == I {
            errors := errors + 1;
          }
        }
      }
    }

    /** On to the next line that is not blank. */
    method SkipBlanks() returns (found: bool)
      modifies `change, `buffer, `changeLine, `errors
      ensures found <==> DropBlanks(old(change)) != []
      ensures if found then buffer != [] && [buffer] + change == DropBlanks(old(change)) else change == []
    {
      while true
        invariant DropBlanks(change) == DropBlanks(old(change))
        decreases |change|
        modifies `change, `buffer, `changeLine, `errors
      {
        changeLine := changeLine + 1;
        var ok := InputChange();
        if !ok {
          errors := errors + 1;
          return false;
        }
        if buffer != [] {
          return true;
        }
      }
    }

    /** `prime_the_change_buffer`: the first line after the next @x that is not blank waits
        in the change buffer. */
    method Prime()
      modifies `change, `buffer, `changeBuffer, `changeLine, `errors
      ensures Pending() == Seek(old(change))
    {
      changeBuffer := [];
      var found := SeekX();
      if !found {
        return;
      }
      found := SkipBlanks();
      if !found {
        return;
      }
      changeBuffer := buffer;
    }

    /** The next old line goes into the change buffer, unless the new lines come next or the
        change file ends. */
    method OldLine() returns (kind: Kind)
      modifies `change, `buffer, `changeBuffer, `changing, `changeLine, `errors
      ensures old(change) == [] ==> kind == Nothing && change == [] && buffer == [] && changeBuffer == [] && !changing
      ensures old(change) != [] ==>
                change == old(change)[1..] &&
                if Code(old(change)[0]) == Y then kind == AtY && changing
                else kind == Old && !changing && changeBuffer == Lowered(old(change)[0])
    {
      changing := true;
      changeLine := changeLine + 1;
      var ok := InputChange();
      if !ok {
        errors := errors + 1;
        changeBuffer := [];
        changing := false;
        return Nothing;
      }
      if |buffer| > 1 && buffer[0] == AT_SIGN {
        buffer := Lowered(buffer);
        if buffer[1] == X || buffer[1] == Z {
          errors := errors + 1;
        } else if buffer[1] == Y {
          return AtY;
        }
      }
      changeBuffer := buffer;
      changing := false;
      return Old;
    }

    /** `check_change`: if the line is the first old line of the pending change, the old lines
        are read beside web lines until @y, and the new lines come next. */
    method CheckChange()
      requires Valid() && !ended && !changing && changeBuffer != []
      modifies this
      ensures Valid()
      ensures old(buffer != changeBuffer) ==>
                buffer == old(buffer) && web == old(web) && changeBuffer == old(changeBuffer) &&
                change == old(change) && !changing && !ended && failed == old(failed)
      ensures old(buffer == changeBuffer) ==>
                var n := Find(old(change), Y);
                && (ended <==> old(|web|) < n)
                && (ended ==> failed == old(failed))
                && (!ended ==> web == old(web)[n..])
                && (!ended && n == |old(change)| ==>
                      !changing && change == [] && changeBuffer == [] && buffer == [] && failed == old(failed))
                && (!ended && n < |old(change)| ==>
                      changing && change == old(change)[n + 1..]
                      && failed == old(failed) + Flag(Mismatches(old(web), old(change)[..n])))
    {
      hide Find, Mismatches, Lowered, Code, Beside;
      if buffer != changeBuffer {
        return;
      }
      var n := 0;
      ghost var w, c, y := web, change, Find(change, Y);
      BesideFirst(w, c);
      while true
        invariant Beside(w, c, y, n, web, change)
        invariant Valid() && !ended && failed == old(failed)
        decreases |change|
        modifies this
      {
        BesideStep(w, c, y, n, web, change);
        var kind := OldLine();
        if kind == Nothing {
          return;
        }
        if kind == AtY {
          if n > 0 {
            failed := failed + [n];
          }
          return;
        }
        curLine := curLine + 1;
        var ok := InputWeb();
        if !ok {
          errors := errors + 1;
          ended := true;
          return;
        }
        if buffer != changeBuffer {
          n := n + 1;
        }
      }
    }

    /** The next line of the change file, unless that is @z. */
    method NewLine()
      requires Valid() && changing
      modifies this
      ensures Valid() && !ended && failed == old(failed) && web == old(web)
      ensures Future().failed == old(Future().failed)
      ensures old(Future().lines) == (if changing then [buffer] else []) + Future().lines
    {
      hide Find, Merge, News, Seek;
      NewsStep(web, change);
      changeLine := changeLine + 1;
      var ok := InputChange();
      if !ok {
        errors := errors + 1;
        buffer := [AT_SIGN, Z];
      }
      if |buffer| >= 2 && buffer[0] == AT_SIGN {
        buffer := Lowered(buffer);
        if buffer[1] == X || buffer[1] == Y {
          errors := errors + 1;
        } else if buffer[1] == Z {
          Prime();
          changing := !changing;
        }
      }
    }

    /** The next line of the web file, unless a change begins there. */
    method WebLine()
      requires Valid() && !changing
      modifies this
      ensures Valid() && failed + Future().failed == old(failed + Future().failed)
      ensures old(Future().lines) == (if changing || ended then [] else [buffer]) + Future().lines
      ensures old(web) == [] ==> ended
      ensures old(web) != [] ==> |web| < |old(web)|
      ensures !changing && !ended && buffer != [] ==> 1 <= curLine <= |whole| && buffer == whole[curLine - 1]
    {
      hide Find, News, Seek, Mismatches;
      curLine := curLine + 1;
      var ok := InputWeb();
      if !ok {
        ended := true;
      }
      if !ended && |buffer| == |changeBuffer| && changeBuffer != [] && buffer[0] == changeBuffer[0] {
        ghost var w, c, matched := web, change, buffer == changeBuffer;
        assert Pending()[1..] == c && old(web)[1..] == w;
        ghost var later := Merge(w, Pending());
        assert old(Future()) == if matched then Replaced(w, c) else Out([buffer] + later.lines, later.failed);
        CheckChange();
        if matched && ended {
          assert Replaced(w, c) == Out([], []);
        } else if matched && changing {
          assert Future() == News(web, change);
        } else if matched {
          assert Pending() == [];
        }
        assert failed + Future().failed == old(failed + Future().failed);
      }
    }

    /** `get_line`: the next line of the merged file. */
    method GetLine() returns (ok: bool)
      requires Valid()
      modifies this
      ensures Valid() && ok == !ended
      ensures failed + Future().failed == old(failed + Future().failed)
      ensures if ok then old(Future().lines) == [buffer] + Future().lines else old(Future().lines) == []
      ensures ok && !changing && buffer != [] ==> 1 <= curLine <= |whole| && buffer == whole[curLine - 1]
    {
      hide Find, Merge, News, Seek;
      while true
        invariant Valid() && Future().lines == old(Future().lines)
        invariant failed + Future().failed == old(failed + Future().failed)
        decreases !ended, |web|
        modifies this
      {
        if changing {
          NewLine();
        }
        if !changing {
          WebLine();
          if changing {
            continue;
          }
        }
        return !ended;
      }
    }

    /** Lines until there are no more. */
    method ReadAll() returns (lines: seq<Line>)
      requires Valid()
      modifies this
      ensures Valid() && ended && lines == old(Future().lines) && failed == old(failed + Future().failed)
    {
      hide Merge, News, Seek;
      lines := [];
      while true
        invariant Valid() && lines + Future().lines == old(Future().lines)
        invariant failed + Future().failed == old(failed + Future().failed)
        decreases |Future().lines|
        modifies this
      {
        var ok := GetLine();
        if !ok {
          return;
        }
        lines := lines + [buffer];
      }
    }
  }

  lemma FindStep(ls: seq<Line>, c: nat)
    ensures Find(ls, c) == if ls == [] || Code(ls[0]) == c then 0 else 1 + Find(ls[1..], c)
  {
  }

  /** One line nearer to @x. */
  lemma SeekStep(change: seq<Line>)
    ensures change == [] ==> Find(change, X) == |change| && After(change, Find(change, X)) == []
    ensures change != [] && Code(change[0]) == X ==>
              Find(change, X) < |change| && After(change, Find(change, X)) == change[1..]
    ensures change != [] && Code(change[0]) != X ==>
              && (Find(change, X) < |change| <==> Find(change[1..], X) < |change[1..]|)
              && After(change, Find(change, X)) == After(change[1..], Find(change[1..], X))
  {
    FindStep(change, X);
  }

  /** What comes next while new lines are delivered. */
  lemma NewsStep(web: seq<Line>, change: seq<Line>)
    ensures change == [] ==> News(web, change) == Merge(web, Seek(change))
    ensures change != [] && Code(change[0]) == Z ==> News(web, change) == Merge(web, Seek(change[1..]))
    ensures change != [] && Code(change[0]) != Z ==>
              var later := News(web, change[1..]);
              News(web, change) == Out([Lowered(change[0])] + later.lines, later.failed)
  {
    hide Find, Merge, Seek;
    var z := Find(change, Z);
    FindStep(change, Z);
    if change != [] && Code(change[0]) != Z {
      assert z == 1 + Find(change[1..], Z) && change[..z][1..] == change[1..][..z - 1];
      assert After(change, z) == After(change[1..], z - 1);
    } else {
      assert LoweredAll(change[..z]) == [];
    }
  }

  /** One line nearer to @y. */
  lemma OldStep(web: seq<Line>, change: seq<Line>)
    ensures change == [] || Code(change[0]) == Y ==> Find(change, Y) == 0 && Mismatches(web, change[..0]) == 0
    ensures change != [] && Code(change[0]) != Y ==>
              var n := Find(change[1..], Y);
              && Find(change, Y) == 1 + n
              && change[1 + n..] == change[1..][n..]
              && (1 + n <= |web| ==>
                    && web[1 + n..] == web[1..][n..]
                    && Mismatches(web, change[..1 + n]) ==
                       (if web[0] == Lowered(change[0]) then 0 else 1) + Mismatches(web[1..], change[1..][..n]))
  {
    FindStep(change, Y);
    if change != [] && Code(change[0]) != Y {
      var n := Find(change[1..], Y);
      assert change[..1 + n][1..] == change[1..][..n];
    }
  }

  /** Old lines are read beside web lines: n of those read so far, which were the first of w and c,
      did not match, and @y, or the end, is y lines after the start. */
  ghost predicate Beside(w: seq<Line>, c: seq<Line>, y: nat, n: nat, web: seq<Line>, change: seq<Line>) {
    var f := Find(change, Y);
    && |c| - |change| == |w| - |web| == y - f >= 0 && y <= |c|
    && change[f..] == c[y..]
    && (y <= |w| ==> web[f..] == w[y..] && n + Mismatches(web, change[..f]) == Mismatches(w, c[..y]))
  }

  lemma BesideFirst(w: seq<Line>, c: seq<Line>)
    ensures Beside(w, c, Find(c, Y), 0, w, c)
  {
  }

  /** Where the old lines end, and one old line. */
  lemma BesideStep(w: seq<Line>, c: seq<Line>, y: nat, n: nat, web: seq<Line>, change: seq<Line>)
    requires Beside(w, c, y, n, web, change)
    ensures change == [] || Code(change[0]) == Y ==>
              && y <= |w| && y <= |c| && web == w[y..] && change == c[y..] && n == Mismatches(w, c[..y])
              && (change != [] ==> y < |c| && change[1..] == c[y + 1..])
    ensures change != [] && Code(change[0]) != Y && web == [] ==> |w| < y
    ensures change != [] && Code(change[0]) != Y && web != [] ==>
              Beside(w, c, y, n + (if web[0] == Lowered(change[0]) then 0 else 1), web[1..], change[1..])
  {
    hide Find, Mismatches, Lowered, Code;
    OldStep(web, change);
    if change == [] || Code(change[0]) == Y {
      assert change[0..] == change && web[0..] == web;
      assert change != [] ==> c[y..][1..] == c[y + 1..];
    }
  }

  predicate Capital(l: Line) {
    |l| >= 2 && l[0] == AT_SIGN && 65 <= l[1] <= 90
  }

  /** Old lines after the first are compared in lower case, web lines are not: lines that are
      equal pass as equal exactly if none starts with a capital control code. */
  lemma {:induction false} EqualLines(ls: seq<Line>)
    ensures Mismatches(ls, ls) == 0 <==> forall k :: 0 <= k < |ls| ==> !Capital(ls[k])
  {
    if ls != [] {
      EqualLines(ls[1..]);
      if k :| 0 <= k < |ls| && Capital(ls[k]) {
        if k > 0 {
          assert Capital(ls[1..][k - 1]);
        } else {
          assert Lowered(ls[0])[1] != ls[0][1];
        }
      } else {
        assert forall k :: 0 <= k < |ls| - 1 ==> ls[1..][k] == ls[k + 1];
      }
    }
  }

  // ---- Well-formed change files -----------------------------------------------

  /** One change: anything, @x, blank lines, old lines, @y, new lines, @z. */
  datatype Change = Change(junk: seq<Line>, x: Line, blanks: seq<Line>, first: Line, more: seq<Line>, y: Line,
                           news: seq<Line>, z: Line)

  predicate NoCode(ls: seq<Line>, c: nat) {
    forall k :: 0 <= k < |ls| ==> Code(ls[k]) != c
  }

  predicate Proper(c: Change) {
    && NoCode(c.junk, X) && Code(c.x) == X && (forall k :: 0 <= k < |c.blanks| ==> c.blanks[k] == [])
    && c.first != [] && NoCode(c.more, Y) && Code(c.y) == Y && NoCode(c.news, Z) && Code(c.z) == Z
  }

  function Text(cs: seq<Change>, tail: seq<Line>): seq<Line> {
    if cs == [] then tail
    else
      var c := cs[0];
      c.junk + ([c.x] + (c.blanks + ([c.first] + (c.more + ([c.y] + (c.news + ([c.z] + Text(cs[1..], tail))))))))
  }

  /** The merge as its users see it: at the first line equal to the first old line of the next
      change, all old lines make way for the new lines, and so on with the following changes. */
  function Apply(web: seq<Line>, cs: seq<Change>): seq<Line>
    decreases |web|
  {
    if web == [] then []
    else if cs == [] || web[0] != cs[0].first then [web[0]] + Apply(web[1..], cs)
    else if |web| - 1 < |cs[0].more| then []
    else LoweredAll(cs[0].news) + Apply(web[1..][|cs[0].more|..], cs[1..])
  }

  /** Line m is line l, except that a capital letter after an at-sign at the start is a small one. */
  predicate Delivers(l: Line, m: Line) {
    && |m| == |l|
    && forall k :: 0 <= k < |l| ==>
         m[k] == if k == 1 && l[0] == 64 && 65 <= l[1] <= 90 then l[1] + 32 else l[k]
  }

  lemma LoweredDelivers(l: Line)
    ensures Delivers(l, Lowered(l))
  {
  }

  lemma {:induction false} AllDeliver(ls: seq<Line>)
    ensures |LoweredAll(ls)| == |ls| && forall i :: 0 <= i < |ls| ==> Delivers(ls[i], LoweredAll(ls)[i])
  {
    if ls != [] {
      LoweredDelivers(ls[0]);
      AllDeliver(ls[1..]);
    }
  }

  /** What users expect, line by line and byte by byte: `out` is the web file with the old lines
      of every change replaced by its new lines. */
  predicate Merged(web: seq<Line>, cs: seq<Change>, out: seq<Line>)
    decreases |web|
  {
    if web == [] then out == []
    else if cs == [] || web[0] != cs[0].first then out != [] && out[0] == web[0] && Merged(web[1..], cs, out[1..])
    else
      var gone, news := 1 + |cs[0].more|, cs[0].news;
      if |web| < gone then out == []
      else
        && |out| >= |news| && (forall i :: 0 <= i < |news| ==> Delivers(news[i], out[i]))
        && Merged(web[gone..], cs[1..], out[|news|..])
  }

  lemma {:induction false} ApplyMerged(web: seq<Line>, cs: seq<Change>)
    ensures Merged(web, cs, Apply(web, cs))
    decreases |web|
  {
    if web != [] {
      if cs == [] || web[0] != cs[0].first {
        ApplyMerged(web[1..], cs);
        assert ([web[0]] + Apply(web[1..], cs))[1..] == Apply(web[1..], cs);
      } else if |web| - 1 >= |cs[0].more| {
        var rest := web[1..][|cs[0].more|..];
        assert rest == web[1 + |cs[0].more|..];
        AllDeliver(cs[0].news);
        ApplyMerged(rest, cs[1..]);
        var news := LoweredAll(cs[0].news);
        assert (news + Apply(rest, cs[1..]))[|news|..] == Apply(rest, cs[1..]);
      }
    }
  }

  lemma {:induction false} FindIn(junk: seq<Line>, after: seq<Line>, c: nat)
    requires NoCode(junk, c) && (after == [] || Code(after[0]) == c)
    ensures Find(junk + after, c) == |junk| && After(junk + after, |junk|) == After(after, 0)
    ensures (junk + after)[..|junk|] == junk && (junk + after)[|junk|..] == after
  {
    if junk == [] {
      assert junk + after == after;
    } else {
      FindIn(junk[1..], after, c);
      assert (junk + after)[1..] == junk[1..] + after;
    }
  }

  lemma {:induction false} BlanksDrop(blanks: seq<Line>, after: seq<Line>)
    requires (forall k :: 0 <= k < |blanks| ==> blanks[k] == []) && after != [] && after[0] != []
    ensures DropBlanks(blanks + after) == after
  {
    if blanks == [] {
      assert blanks + after == after;
    } else {
      BlanksDrop(blanks[1..], after);
      assert (blanks + after)[1..] == blanks[1..] + after;
    }
  }

  lemma SeekText(cs: seq<Change>, tail: seq<Line>)
    requires NoCode(tail, X) && (cs != [] ==> Proper(cs[0]))
    ensures cs == [] ==> Seek(Text(cs, tail)) == []
    ensures cs != [] ==>
              var c := cs[0];
              Seek(Text(cs, tail)) ==
              [c.first] + (c.more + ([c.y] + (c.news + ([c.z] + Text(cs[1..], tail)))))
  {
    hide Find;
    if cs == [] {
      FindIn(tail, [], X);
      assert tail + [] == tail;
    } else {
      var c := cs[0];
      var rest := [c.first] + (c.more + ([c.y] + (c.news + ([c.z] + Text(cs[1..], tail)))));
      FindIn(c.junk, [c.x] + (c.blanks + rest), X);
      assert ([c.x] + (c.blanks + rest))[1..] == c.blanks + rest;
      BlanksDrop(c.blanks, rest);
    }
  }

  /** One well-formed change. */
  lemma ReplacedOnce(web: seq<Line>, c: Change, later: seq<Line>)
    requires Proper(c)
    ensures var pending := c.more + ([c.y] + (c.news + ([c.z] + later)));
            Replaced(web, pending).lines ==
            if |web| < |c.more| then []
            else LoweredAll(c.news) + Merge(web[|c.more|..], Seek(later)).lines
  {
    hide Find, Seek, Merge, Mismatches, LoweredAll;
    var rest := c.news + ([c.z] + later);
    var pending := c.more + ([c.y] + rest);
    FindIn(c.more, [c.y] + rest, Y);
    FindIn(c.news, [c.z] + later, Z);
    assert pending[|c.more| + 1..] == rest;
    assert ([c.z] + later)[1..] == later;
  }

  /** The merge replaces the old lines of every change by its new lines. */
  lemma {:induction false} MergeApplies(web: seq<Line>, cs: seq<Change>, tail: seq<Line>)
    requires NoCode(tail, X) && forall k :: 0 <= k < |cs| ==> Proper(cs[k])
    ensures Merge(web, Seek(Text(cs, tail))).lines == Apply(web, cs)
    decreases |web|
  {
    hide Find, Seek, Text, Replaced, Proper, NoCode;
    SeekText(cs, tail);
    if web != [] {
      if cs != [] && web[0] == cs[0].first {
        var c, w, later := cs[0], web[1..], Text(cs[1..], tail);
        var pending := c.more + ([c.y] + (c.news + ([c.z] + later)));
        assert ([c.first] + pending)[1..] == pending;
        ReplacedOnce(w, c, later);
        if |c.more| <= |w| {
          MergeApplies(w[|c.more|..], cs[1..], tail);
        }
      } else {
        MergeApplies(web[1..], cs, tail);
      }
    }
  }

  /** The merge does to a well-formed change file what its users expect. */
  lemma MergeExpected(web: seq<Line>, cs: seq<Change>, tail: seq<Line>)
    requires NoCode(tail, X) && forall k :: 0 <= k < |cs| ==> Proper(cs[k])
    ensures Merged(web, cs, Merge(web, Seek(Text(cs, tail))).lines)
  {
    MergeApplies(web, cs, tail);
    ApplyMerged(web, cs);
  }
}
