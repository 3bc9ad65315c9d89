/** CWEAVE's reading of token texts: a stack machine that follows references between texts. */
module WeaveOutput {
  import opened Flows
  import opened TokenMemory

  const END_TRANSLATION: nat := 147  // 0223

  /** A token that is returned, and whether it is inside an inner text. */
  datatype Item = Item(a: Token, inner: bool)

  /** A text read recursively: every reference is replaced by what its text yields. */
  ghost function TextFlow(m: Memory, t: nat, inner: bool): Flow<Item>
    requires m.Valid() && t < m.Count()
    decreases t, 1, 0
  {
    Tokens(m, m.Of(t), t, inner)
  }

  /** Tokens that refer to texts below n. */
  ghost function Tokens(m: Memory, toks: seq<Token>, n: nat, inner: bool): Flow<Item>
    requires m.Valid() && n <= m.Count() && forall i :: 0 <= i < |toks| ==> RefersBelow(toks[i], n)
    decreases n, 0, |toks|
  {
    if toks == [] then Flow([], 0) else Then(One(m, toks[0], n, inner), Tokens(m, toks[1..], n, inner))
  }

  ghost function One(m: Memory, a: Token, n: nat, inner: bool): Flow<Item>
    requires m.Valid() && n <= m.Count() && RefersBelow(a, n)
    decreases n, 0, 0
  {
    match a
    case Text(u) => Then(Flow([], 1), TextFlow(m, u, inner))
    case InnerText(u) => Then(Flow([], 1), TextFlow(m, u, true))
    case _ => Flow([Item(a, inner)], 1)
  }

  /** Items inside an inner text are all inner, and references of the other kind pass the mode on. */
  lemma {:induction false} InnerStays(m: Memory, toks: seq<Token>, n: nat)
    requires m.Valid() && n <= m.Count() && forall i :: 0 <= i < |toks| ==> RefersBelow(toks[i], n)
    ensures forall k :: 0 <= k < |Tokens(m, toks, n, true).items| ==> Tokens(m, toks, n, true).items[k].inner
    decreases n, 0, |toks|
  {
    if toks != [] {
      InnerStays(m, toks[1..], n);
      assert RefersBelow(toks[0], n);
      if toks[0].Text? || toks[0].InnerText? {
        InnerStays(m, m.Of(toks[0].text), toks[0].text);
        assert One(m, toks[0], n, true).items == TextFlow(m, toks[0].text, true).items;
      }
    }
  }

  /** What is read does not depend on the mode, only its marking does. */
  lemma {:induction false} SameItems(m: Memory, toks: seq<Token>, n: nat)
    requires m.Valid() && n <= m.Count() && forall i :: 0 <= i < |toks| ==> RefersBelow(toks[i], n)
    ensures var outer, inner := Tokens(m, toks, n, false).items, Tokens(m, toks, n, true).items;
            |outer| == |inner| && forall k :: 0 <= k < |outer| ==> outer[k].a == inner[k].a
    decreases n, 0, |toks|
  {
    if toks != [] {
      SameItems(m, toks[1..], n);
      assert RefersBelow(toks[0], n);
      if toks[0].Text? {
        SameItems(m, m.Of(toks[0].text), toks[0].text);
        assert One(m, toks[0], n, true).items == TextFlow(m, toks[0].text, true).items;
        assert One(m, toks[0], n, false).items == TextFlow(m, toks[0].text, false).items;
      }
    }
  }

  // ---- The machine ------------------------------------------------------------

  /** A saved level: where reading goes on, and in what mode. */
  datatype Frame = Frame(tok: nat, end: nat, inner: bool)

  /** A level is inside text t. */
  ghost predicate FrameOk(m: Memory, f: Frame, t: nat) {
    m.Valid() && t < m.Count() && m.start[t] <= f.tok <= f.end == m.start[t + 1]
  }

  ghost predicate FramesOk(m: Memory, fs: seq<Frame>, ts: seq<nat>) {
    |fs| == |ts| && forall k :: 0 <= k < |fs| ==> FrameOk(m, fs[k], ts[k])
  }

  ghost function Remainder(m: Memory, f: Frame, t: nat): Flow<Item>
    requires FrameOk(m, f, t)
  {
    Tokens(m, m.tok[f.tok..f.end], t, f.inner)
  }

  ghost function Remainders(m: Memory, fs: seq<Frame>, ts: seq<nat>): Flow<Item>
    requires FramesOk(m, fs, ts)
    decreases |fs|
  {
    if fs == [] then Flow([], 0)
    else
      var n := |fs| - 1;
      Then(Remainder(m, fs[n], ts[n]), Remainders(m, fs[..n], ts[..n]))
  }

  /** Reading on: the next token, then the rest of the text. */
  lemma RemainderStep(m: Memory, f: Frame, t: nat)
    requires FrameOk(m, f, t)
    ensures f.tok == f.end ==> Remainder(m, f, t) == Flow([], 0)
    ensures f.tok < f.end ==>
              && f.tok < |m.tok| && RefersBelow(m.tok[f.tok], t)
              && Remainder(m, f, t) == Then(One(m, m.tok[f.tok], t, f.inner), Remainder(m, f.(tok := f.tok + 1), t))
  {
    if f.tok < f.end {
      assert m.tok[f.tok..f.end][1..] == m.tok[f.tok + 1..f.end];
    }
  }

  class Weaver {
    var mem: Memory          // `tok_mem` and `tok_start`
    var cur: Frame
    var stack: seq<Frame>
    var level: nat           // `stack_ptr - stack`
    ghost var text: nat
    ghost var texts: seq<nat>

    /** Nothing is being read. */
    constructor (mem: Memory)
      requires mem.Valid()
      ensures Valid() && this.mem == mem && level == 0 && Pending() == Flow([], 0)
    {
      this.mem, cur, stack, level := mem, Frame(0, 0, false), [], 0;
      text, texts := 0, [];
    }

    ghost predicate Valid()
      reads this
    {
      && mem.Valid() && FramesOk(mem, stack, texts) && |stack| == (if level == 0 then 0 else level - 1)
      && (level > 0 ==> FrameOk(mem, cur, text))
    }

    /** What is still to be read. */
    ghost function Pending(): Flow<Item>
      requires Valid()
      reads this
    {
      if level == 0 then Flow([], 0) else Then(Remainder(mem, cur, text), Remainders(mem, stack, texts))
    }

    /** `push_level`; the mode stays. */
    method PushLevel(p: nat)
      requires Valid() && p < mem.Count()
      modifies `cur, `stack, `level, `text, `texts
      ensures Valid() && level == old(level) + 1 && text == p
      ensures cur == Frame(mem.start[p], mem.start[p + 1], old(cur.inner))
      ensures Remainders(mem, stack, texts) == old(Pending())
      ensures Pending() == Then(TextFlow(mem, p, cur.inner), old(Pending()))
    {
      hide Memory.Valid;
      WholeText(mem, p, cur.inner);
      ghost var fs, ts := stack, texts;
      if level > 0 {
        stack, texts := stack + [cur], texts + [text];
        assert stack[..|stack| - 1] == fs && texts[..|texts| - 1] == ts;
      }
      level := level + 1;
      cur, text := Frame(mem.start[p], mem.start[p + 1], cur.inner), p;
    }

    /** `pop_level`. */
    method PopLevel()
      requires Valid() && level > 1 && cur.tok == cur.end
      modifies `cur, `stack, `level, `text, `texts
      ensures Valid() && level == old(level) - 1
      ensures Pending() == old(Pending())
    {
      hide Memory.Valid;
      RemainderStep(mem, cur, text);
      NothingThen(Remainders(mem, stack, texts));
      level := level - 1;
      cur, stack := stack[|stack| - 1], stack[..|stack| - 1];
      text, texts := texts[|texts| - 1], texts[..|texts| - 1];
    }

    lemma SomethingLeft()
      requires Valid() && Pending().items != []
      ensures level > 0 && cur.tok <= cur.end && (cur.tok == cur.end ==> level > 1)
    {
      hide Memory.Valid;
      if level > 0 {
        RemainderStep(mem, cur, text);
        if cur.tok == cur.end && level == 1 {
          NothingThen(Remainders(mem, stack, texts));
          NoRemainders(mem);
        }
      }
    }

    /** `get_output`: the next token that is not a reference. */
    method GetOutput() returns (a: Token)
      requires Valid() && Pending().items != []
      modifies `cur, `stack, `level, `text, `texts
      ensures Valid() && !a.Text? && !a.InnerText? && level > 0
      ensures old(Pending().items) == [Item(a, cur.inner)] + Pending().items
      ensures Pending().steps < old(Pending().steps)
    {
      hide Memory.Valid, Remainder, Remainders, FrameOk, FramesOk, TextFlow;
      while true
        invariant Valid() && Pending().items == old(Pending().items) && Pending().steps <= old(Pending().steps)
        decreases Pending().steps, level
        modifies `cur, `stack, `level, `text, `texts
      {
        SomethingLeft();
        if cur.tok == cur.end {
          PopLevel();
          continue;
        }
        RemainderStep(mem, cur, text);
        ghost var rest := Remainders(mem, stack, texts);
        a := mem.tok[cur.tok];
        NextOk(mem, cur, text);
        cur := cur.(tok := cur.tok + 1);
        ghost var below := Then(Remainder(mem, cur, text), rest);
        ThenAssoc(One(mem, a, text, cur.inner), Remainder(mem, cur, text), rest);
        match a {
          case Text(u) =>
            ThenAssoc(Flow([], 1), TextFlow(mem, u, cur.inner), below);
            PushLevel(u);
          case InnerText(u) =>
            ThenAssoc(Flow([], 1), TextFlow(mem, u, true), below);
            PushLevel(u);
            WholeText(mem, u, true);
            cur := cur.(inner := true);
          case _ =>
            return;
        }
      }
    }

    /** The end mark closes the text that is being built. */
    method CloseText()
      requires Valid() && Buildable(mem)
      modifies `mem
      ensures Valid() && Pending() == old(Pending()) && mem.Count() - 1 == old(mem.Count()) >= 0
      ensures TextFlow(mem, mem.Count() - 1, cur.inner).items ==
              old(Tokens(mem, Tail(mem), mem.Count(), cur.inner)).items + [Item(Ch(END_TRANSLATION), cur.inner)]
    {
      hide Memory.Valid, Remainder, FrameOk, TextFlow, Tokens;
      SomeCount(mem);
      ghost var m0 := mem;
      mem := Memory(mem.tok + [Ch(END_TRANSLATION)], mem.start + [|mem.tok| + 1]);
      Extended(m0, mem);
      RemaindersExtend(m0, mem, stack, texts);
      if level > 0 {
        RemainderExtend(m0, mem, cur, text);
      }
      LastText(m0, mem, cur.inner);
    }

    /** The loop of `make_output`: reading up to the first end mark. */
    method ReadToMark(ghost text: seq<Item>, ghost mark: Item, ghost below: seq<Item>) returns (items: seq<Item>)
      requires Valid() && Pending().items == text + [mark] + below
      requires NoEnd(text) && mark.a == Ch(END_TRANSLATION)
      modifies `cur, `stack, `level, `text, `texts
      ensures Valid() && items == text && Pending().items == below
    {
      hide Valid, Pending, NoEnd;
      ghost var all := text + [mark] + below;
      items := [];
      ghost var k := 0;
      while true
        invariant Valid() && k <= |text| && items == all[..k] && Pending().items == all[k..]
        decreases Pending().steps
        modifies `cur, `stack, `level, `text, `texts
      {
        var a := GetOutput();
        NextItem(all, k, Item(a, cur.inner), Pending().items);
        AtMark(text, mark, below, k, all);
        if a == Ch(END_TRANSLATION) {
          return;
        }
        items := items + [Item(a, cur.inner)];
        k := k + 1;
      }
    }

    /** `make_output`: the text that is being built, read to its end. The levels below are as
        they were. */
    method MakeOutput() returns (items: seq<Item>)
      requires Valid() && Buildable(mem)
      requires mem.Count() >= 0 && NoEnd(Tokens(mem, Tail(mem), mem.Count(), cur.inner).items)
      modifies this
      ensures Valid() && items == old(Tokens(mem, Tail(mem), mem.Count(), cur.inner)).items
      ensures Pending().items == old(Pending().items)
    {
      hide Memory.Valid, Remainder, Remainders, FrameOk, FramesOk, TextFlow, Tokens, NoEnd;
      ghost var flow := Tokens(mem, Tail(mem), mem.Count(), cur.inner);
      ghost var mark, below := Item(Ch(END_TRANSLATION), cur.inner), Pending().items;
      CloseText();
      PushLevel(mem.Count() - 1);
      items := ReadToMark(flow.items, mark, below);
    }
  }

  lemma NextItem(all: seq<Item>, k: nat, x: Item, rest: seq<Item>)
    requires k < |all| && all[k..] == [x] + rest
    ensures x == all[k] && rest == all[k + 1..] && all[..k + 1] == all[..k] + [x]
  {
    assert all[k..][0] == x && all[k..][1..] == rest;
  }

  /** The first end mark is the one behind the text. */
  lemma AtMark(items: seq<Item>, mark: Item, below: seq<Item>, k: nat, all: seq<Item>)
    requires all == items + [mark] + below && k <= |items| && NoEnd(items) && mark.a == Ch(END_TRANSLATION)
    ensures if all[k].a == Ch(END_TRANSLATION) then all[..k] == items && all[k + 1..] == below else k < |items|
  {
    assert k < |items| ==> all[k] == items[k];
    assert all[..|items|] == items && all[|items| + 1..] == below;
  }

  predicate NoEnd(items: seq<Item>) {
    forall k :: 0 <= k < |items| ==> items[k].a != Ch(END_TRANSLATION)
  }

  /** The text being built. */
  ghost function Tail(m: Memory): seq<Token>
    requires m.Valid()
  {
    m.tok[m.start[|m.start| - 1]..]
  }

  ghost predicate Buildable(m: Memory) {
    m.Valid() && forall i :: 0 <= i < |Tail(m)| ==> RefersBelow(Tail(m)[i], m.Count())
  }

  lemma NextOk(m: Memory, f: Frame, t: nat)
    requires FrameOk(m, f, t) && f.tok < f.end
    ensures FrameOk(m, f.(tok := f.tok + 1), t) && t < m.Count()
  {
  }

  /** A level at the start of text t. */
  lemma WholeText(m: Memory, t: nat, inner: bool)
    requires m.Valid() && t < m.Count()
    ensures m.start[t] <= m.start[t + 1] <= |m.tok|
    ensures var f := Frame(m.start[t], m.start[t + 1], inner);
            FrameOk(m, f, t) && Remainder(m, f, t) == TextFlow(m, t, inner)
  {
  }

  lemma NoRemainders(m: Memory)
    ensures FramesOk(m, [], []) && Remainders(m, [], []) == Flow([], 0)
  {
  }

  lemma SomeCount(m: Memory)
    requires m.Valid()
    ensures m.Count() >= 0
  {
  }

  /** Memory m2 is m with one more text. */
  ghost predicate Grown(m: Memory, m2: Memory) {
    && m.Valid() && m2.Valid() && m.Count() + 1 == m2.Count()
    && |m.tok| <= |m2.tok| && m2.tok[..|m.tok|] == m.tok
    && m2.start[..|m.start|] == m.start
  }

  lemma Extended(m: Memory, m2: Memory)
    requires Buildable(m) && m2 == Memory(m.tok + [Ch(END_TRANSLATION)], m.start + [|m.tok| + 1])
    ensures Grown(m, m2)
  {
    forall t, j | 0 <= t < m2.Count() && m2.start[t] <= j < m2.start[t + 1]
      ensures RefersBelow(m2.tok[j], t)
    {
      if t == m.Count() && j < |m.tok| {
        assert m.tok[j] == Tail(m)[j - m.start[t]];
      }
    }
  }

  lemma {:induction false} FlowExtend(m: Memory, m2: Memory, toks: seq<Token>, n: nat, inner: bool)
    requires Grown(m, m2) && n <= m.Count() && forall i :: 0 <= i < |toks| ==> RefersBelow(toks[i], n)
    ensures Tokens(m2, toks, n, inner) == Tokens(m, toks, n, inner)
    decreases n, 0, |toks|
  {
    if toks != [] {
      FlowExtend(m, m2, toks[1..], n, inner);
      assert RefersBelow(toks[0], n);
      if toks[0].Text? || toks[0].InnerText? {
        var u := toks[0].text;
        SameText(m, m2, u);
        FlowExtend(m, m2, m.Of(u), u, if toks[0].Text? then inner else true);
        assert One(m2, toks[0], n, inner) == One(m, toks[0], n, inner);
      }
    }
  }

  lemma SameText(m: Memory, m2: Memory, t: nat)
    requires Grown(m, m2) && t < m.Count()
    ensures m2.start[t] == m.start[t] <= m.start[t + 1] == m2.start[t + 1] <= |m.tok|
    ensures m2.Of(t) == m.Of(t)
  {
    assert m2.start[..|m.start|][t] == m.start[t] && m2.start[..|m.start|][t + 1] == m.start[t + 1];
    forall i | 0 <= i < m.start[t + 1] - m.start[t]
      ensures m2.Of(t)[i] == m.Of(t)[i]
    {
      assert m2.tok[..|m.tok|][m.start[t] + i] == m.tok[m.start[t] + i];
    }
  }

  lemma RemainderExtend(m: Memory, m2: Memory, f: Frame, t: nat)
    requires Grown(m, m2) && FrameOk(m, f, t)
    ensures FrameOk(m2, f, t) && Remainder(m2, f, t) == Remainder(m, f, t)
  {
    SameText(m, m2, t);
    assert m2.tok[f.tok..f.end] == m2.tok[..|m.tok|][f.tok..f.end];
    FlowExtend(m, m2, m.tok[f.tok..f.end], t, f.inner);
  }

  lemma {:induction false} RemaindersExtend(m: Memory, m2: Memory, fs: seq<Frame>, ts: seq<nat>)
    requires Grown(m, m2) && FramesOk(m, fs, ts)
    ensures FramesOk(m2, fs, ts) && Remainders(m2, fs, ts) == Remainders(m, fs, ts)
    decreases |fs|
  {
    forall k | 0 <= k < |fs|
      ensures FrameOk(m2, fs[k], ts[k])
    {
      RemainderExtend(m, m2, fs[k], ts[k]);
    }
    if fs != [] {
      var n := |fs| - 1;
      RemainderExtend(m, m2, fs[n], ts[n]);
      RemaindersExtend(m, m2, fs[..n], ts[..n]);
    }
  }

  lemma {:induction false} TokensSplit(m: Memory, a: seq<Token>, b: seq<Token>, n: nat, inner: bool)
    requires m.Valid() && n <= m.Count()
    requires forall i :: 0 <= i < |a| ==> RefersBelow(a[i], n)
    requires forall i :: 0 <= i < |b| ==> RefersBelow(b[i], n)
    ensures Tokens(m, a + b, n, inner) == Then(Tokens(m, a, n, inner), Tokens(m, b, n, inner))
    decreases |a|
  {
    if a == [] {
      assert a + b == b;
      NothingThen(Tokens(m, b, n, inner));
    } else {
      assert (a + b)[1..] == a[1..] + b;
      TokensSplit(m, a[1..], b, n, inner);
      ThenAssoc(One(m, a[0], n, inner), Tokens(m, a[1..], n, inner), Tokens(m, b, n, inner));
    }
  }

  /** The new text yields what was being built and then the end mark. */
  lemma LastText(m: Memory, m2: Memory, inner: bool)
    requires Buildable(m) && m2 == Memory(m.tok + [Ch(END_TRANSLATION)], m.start + [|m.tok| + 1]) && Grown(m, m2)
    ensures var n := m.Count();
            && n < m2.Count()
            && TextFlow(m2, n, inner).items ==
               Tokens(m, Tail(m), n, inner).items + [Item(Ch(END_TRANSLATION), inner)]
  {
    var n := m.Count();
    assert m2.Of(n) == Tail(m) + [Ch(END_TRANSLATION)];
    TokensSplit(m2, Tail(m), [Ch(END_TRANSLATION)], n, inner);
    FlowExtend(m, m2, Tail(m), n, inner);
    assert [Ch(END_TRANSLATION)][1..] == [];
  }
}
