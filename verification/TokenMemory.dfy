/** CWEAVE's token memory: token texts that refer to earlier texts, and what a
    text stands for once all references are followed. */
module TokenMemory {
  import opened Productions

  /** A token: a character, a name with its flag, or a reference to a text. */
  datatype Token =
    | Ch(code: nat)
    | Ident(name: nat)
    | Res(name: nat)
    | SectionRef(name: nat)
    | Text(text: nat)
    | InnerText(text: nat)

  predicate IsName(a: Token) {
    a.Ident? || a.Res?
  }

  predicate RefersBelow(a: Token, n: nat) {
    a.Text? || a.InnerText? ==> a.text < n
  }

  /** Text t is tok[start[t]..start[t + 1]]; the last entry of `start` is where the
      text now being built begins. */
  datatype Memory = Memory(tok: seq<Token>, start: seq<nat>) {
    function Count(): int {
      |start| - 1
    }

    ghost predicate Valid() {
      && |start| > 0
      && (forall i, j :: 0 <= i <= j < |start| ==> start[i] <= start[j])
      && start[|start| - 1] <= |tok|
      && (forall t, j :: 0 <= t < Count() && start[t] <= j < start[t + 1] ==> RefersBelow(tok[j], t))
    }

    ghost function Of(t: nat): (s: seq<Token>)
      requires Valid() && t < Count()
      ensures forall i :: 0 <= i < |s| ==> RefersBelow(s[i], t)
    {
      tok[start[t]..start[t + 1]]
    }
  }

  /** What remains of a text after following references: original scraps, which are
      opaque; switches of math mode; originals whose text a production dropped; and control
      codes that make sense in one mode only or move the margin. */
  datatype Mark = Leaf(text: nat) | Toggle | Dropped(text: nat) | Control(code: nat)

  // The codes that move the left margin of what follows.
  const INDENT: nat := 0x8a
  const OUTDENT: nat := 0x8b

  /** What a character does to the mode or to the margin, or what mode it wants. */
  function CharMarks(c: nat): seq<Mark> {
    if c == DOLLAR then [Toggle] else if Wants(c) != MAYBE_MATH || c == OUTDENT then [Control(c)] else []
  }

  /** Texts below `originals` are the scraps that the parser was given; `lost` says
      what the texts made by the two productions for angle brackets replaced. */
  datatype World = World(mem: Memory, originals: nat, lost: map<nat, seq<Mark>>)

  ghost function Flat(w: World, t: nat): seq<Mark>
    requires w.mem.Valid() && t < w.mem.Count()
    decreases t, 1, 0
  {
    if t < w.originals then [Leaf(t)]
    else if t in w.lost then w.lost[t]
    else FlatTokens(w, w.mem.Of(t), t)
  }

  ghost function FlatTokens(w: World, toks: seq<Token>, n: nat): seq<Mark>
    requires w.mem.Valid() && n <= w.mem.Count()
    requires forall i :: 0 <= i < |toks| ==> RefersBelow(toks[i], n)
    decreases n, 0, |toks|
  {
    if toks == [] then []
    else assert RefersBelow(toks[0], n);
         (match toks[0]
          case Text(u) => Flat(w, u)
          case Ch(c) => CharMarks(c)
          case _ => []) + FlatTokens(w, toks[1..], n)
  }

  lemma {:induction false} FlatTokensAppend(w: World, a: seq<Token>, b: seq<Token>, n: nat)
    requires w.mem.Valid() && n <= w.mem.Count()
    requires forall i :: 0 <= i < |a| ==> RefersBelow(a[i], n)
    requires forall i :: 0 <= i < |b| ==> RefersBelow(b[i], n)
    ensures FlatTokens(w, a + b, n) == FlatTokens(w, a, n) + FlatTokens(w, b, n)
    decreases |a|
  {
    if a == [] {
      assert a + b == b;
    } else {
      assert (a + b)[1..] == a[1..] + b;
      FlatTokensAppend(w, a[1..], b, n);
    }
  }

  /** Two worlds in which the texts below n stand for the same things. */
  ghost predicate Agree(w: World, v: World, n: nat) {
    && w.mem.Valid() && v.mem.Valid() && n <= w.mem.Count() && n <= v.mem.Count()
    && w.originals == v.originals
    && (forall t :: 0 <= t < n ==> (t in w.lost <==> t in v.lost))
    && (forall t :: 0 <= t < n && t in w.lost ==> w.lost[t] == v.lost[t])
    && (forall t :: w.originals <= t < n ==> w.mem.Of(t) == v.mem.Of(t))
  }

  lemma {:induction false} FlatAgree(w: World, v: World, n: nat, t: nat)
    requires Agree(w, v, n) && t < n
    ensures Flat(w, t) == Flat(v, t)
    decreases t, 1, 0
  {
    if w.originals <= t && t !in w.lost {
      FlatTokensAgree(w, v, n, w.mem.Of(t), t);
    }
  }

  lemma {:induction false} FlatTokensAgree(w: World, v: World, n: nat, toks: seq<Token>, m: nat)
    requires Agree(w, v, n) && m <= n
    requires forall i :: 0 <= i < |toks| ==> RefersBelow(toks[i], m)
    ensures FlatTokens(w, toks, m) == FlatTokens(v, toks, m)
    decreases m, 0, |toks|
  {
    if toks != [] {
      FlatTokensAgree(w, v, n, toks[1..], m);
      assert RefersBelow(toks[0], m);
      if toks[0].Text? {
        FlatAgree(w, v, n, toks[0].text);
      }
    }
  }

  predicate IsOriginal(m: Mark) {
    m.Leaf? || m.Dropped?
  }

  /** The originals among some marks, in order, each kept as a leaf or on record as dropped. */
  function Covers(marks: seq<Mark>): seq<Mark> {
    if marks == [] then []
    else (if IsOriginal(marks[0]) then [marks[0]] else []) + Covers(marks[1..])
  }

  lemma {:induction false} CoversAppend(a: seq<Mark>, b: seq<Mark>)
    ensures Covers(a + b) == Covers(a) + Covers(b)
  {
    if a == [] {
      assert a + b == b;
    } else {
      assert (a + b)[1..] == a[1..] + b;
      CoversAppend(a[1..], b);
    }
  }

  lemma {:induction false} CoversHolds(marks: seq<Mark>)
    ensures forall m :: m in Covers(marks) <==> m in marks && IsOriginal(m)
  {
    if marks != [] {
      CoversHolds(marks[1..]);
      assert marks == [marks[0]] + marks[1..];
    }
  }

  lemma {:induction false} CoversSame(marks: seq<Mark>)
    requires forall m :: m in marks ==> IsOriginal(m)
    ensures Covers(marks) == marks
  {
    if marks != [] {
      CoversSame(marks[1..]);
    }
  }

  /** The text of an original, kept or dropped. */
  function Under(mark: Mark): nat {
    if IsOriginal(mark) then mark.text else 0
  }

  function AllUnder(marks: seq<Mark>): seq<nat> {
    seq(|marks|, i requires 0 <= i < |marks| => Under(marks[i]))
  }

  /** The same originals, all of them dropped. */
  function Drop(marks: seq<Mark>): (r: seq<Mark>)
    ensures forall i :: 0 <= i < |r| ==> r[i].Dropped?
    ensures AllUnder(r) == AllUnder(Covers(marks))
  {
    var c := Covers(marks);
    seq(|c|, i requires 0 <= i < |c| => Dropped(Under(c[i])))
  }

  /** Reads marks from left to right, starting in mode 1 (math) or 2 (text), and
      returns the mode at the end; 0 says that a scrap or a control code that insists on
      one mode was met in the other.  `demand` gives the mode each original insists on. */
  function Scan(demand: seq<nat>, marks: seq<Mark>, mode: nat): nat {
    if marks == [] || mode == 0 then mode
    else match marks[0]
      case Toggle => Scan(demand, marks[1..], if mode == YES_MATH then NO_MATH else YES_MATH)
      case Leaf(t) =>
        if t < |demand| && (demand[t] == MAYBE_MATH || demand[t] == mode)
        then Scan(demand, marks[1..], mode) else 0
      case Dropped(_) => Scan(demand, marks[1..], mode)
      case Control(c) => if Wants(c) == MAYBE_MATH || Wants(c) == mode then Scan(demand, marks[1..], mode) else 0
  }

  lemma {:induction false} ScanAppend(demand: seq<nat>, a: seq<Mark>, b: seq<Mark>, mode: nat)
    ensures Scan(demand, a + b, mode) == Scan(demand, b, Scan(demand, a, mode))
  {
    if a == [] || mode == 0 {
      assert a == [] ==> a + b == b;
    } else {
      assert (a + b)[1..] == a[1..] + b;
      match a[0]
      case Toggle => ScanAppend(demand, a[1..], b, if mode == YES_MATH then NO_MATH else YES_MATH);
      case Leaf(t) => ScanAppend(demand, a[1..], b, mode);
      case Dropped(_) => ScanAppend(demand, a[1..], b, mode);
      case Control(_) => ScanAppend(demand, a[1..], b, mode);
    }
  }

  lemma {:induction false} ScanDropped(demand: seq<nat>, marks: seq<Mark>, mode: nat)
    requires forall i :: 0 <= i < |marks| ==> marks[i].Dropped?
    ensures Scan(demand, marks, mode) == mode
  {
    if marks != [] && mode != 0 {
      ScanDropped(demand, marks[1..], mode);
    }
  }

  /** What the two halves of a scrap's mathness promise about its text: from mode
      `left` it ends in mode `right` and meets every demand; if either is maybe_math,
      both are, and the text has no switches and fits in both modes. */
  ghost predicate Sound(demand: seq<nat>, marks: seq<Mark>, left: nat, right: nat) {
    && left <= 2 && right <= 2
    && (left == MAYBE_MATH <==> right == MAYBE_MATH)
    && (left == MAYBE_MATH ==>
          Toggle !in marks && Scan(demand, marks, YES_MATH) == YES_MATH && Scan(demand, marks, NO_MATH) == NO_MATH)
    && (left != MAYBE_MATH ==> Scan(demand, marks, left) == right)
  }
}
