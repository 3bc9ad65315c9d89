/** How CTANGLE chains the replacement texts of a section. */
module TextLinks {

  // `section_flag`, which is also the number of texts there is room for.
  const SECTION_FLAG: nat := 2500
  // Section number 0 stands for the unnamed program (`name_dir`), and text 0 for its start.
  const UNNAMED: int := 0
  const MACRO: int := -1

  /** The first text after t that belongs to section p. */
  ghost function Next(owner: seq<int>, t: nat, p: int): (n: nat)
    requires |owner| <= SECTION_FLAG
    ensures n == SECTION_FLAG || (t < n < |owner| && owner[n] == p)
    ensures forall k :: t < k < |owner| && (n == SECTION_FLAG || k < n) ==> owner[k] != p
    decreases |owner| - t
  {
    if t + 1 >= |owner| then SECTION_FLAG
    else if owner[t + 1] == p then t + 1
    else Next(owner, t + 1, p)
  }

  /** A link that has nowhere to go is 0 where it is the head of a chain. */
  function Head(n: nat): nat {
    if n == SECTION_FLAG then 0 else n
  }

  /** The links and chain heads are those that the definitions so far, `owner`, call for. */
  ghost predicate Linked(owner: seq<int>, link: seq<nat>, equiv: seq<nat>) {
    && 1 <= |owner| == |link| <= SECTION_FLAG && 1 <= |equiv| && owner[0] == UNNAMED
    && (forall t :: 0 <= t < |owner| ==> MACRO <= owner[t] < |equiv|)
    && (forall t {:trigger link[t]} :: 1 <= t < |link| ==>
          link[t] == if owner[t] == MACRO then 0 else Next(owner, t, owner[t]))
    && link[0] == Head(Next(owner, 0, UNNAMED))
    && (forall p :: 1 <= p < |equiv| ==> equiv[p] == Head(Next(owner, 0, p)))
    && equiv[0] == 0
  }

  /** The texts of section p after text t, in the order of their definitions. */
  ghost function Defined(owner: seq<int>, t: nat, p: int): (s: seq<nat>)
    requires |owner| <= SECTION_FLAG
    ensures forall i :: 0 <= i < |s| ==> t < s[i] < |owner| && owner[s[i]] == p
    ensures forall k: nat :: t < k < |owner| && owner[k] == p ==> k in s
    ensures forall i, j :: 0 <= i < j < |s| ==> s[i] < s[j]
    decreases |owner| - t
  {
    var n := Next(owner, t, p);
    if n == SECTION_FLAG then [] else [n] + Defined(owner, n, p)
  }

  /** The chain that the links make from text t on, as `pop_level` follows it. */
  ghost function Chain(link: seq<nat>, t: nat): seq<nat>
    requires t < |link|
    decreases |link| - t
  {
    if t < link[t] < |link| then [t] + Chain(link, link[t]) else [t]
  }

  /** Every chain lists the texts of its section, in the order of definition. */
  lemma {:induction false} ChainDefined(owner: seq<int>, link: seq<nat>, equiv: seq<nat>, t: nat)
    requires Linked(owner, link, equiv) && 1 <= t < |link| && owner[t] != MACRO
    ensures Chain(link, t) == [t] + Defined(owner, t, owner[t])
    decreases |link| - t
  {
    if link[t] != SECTION_FLAG {
      ChainDefined(owner, link, equiv, link[t]);
    }
  }

  lemma SectionTexts(owner: seq<int>, link: seq<nat>, equiv: seq<nat>, p: nat)
    requires Linked(owner, link, equiv) && 1 <= p < |equiv|
    ensures equiv[p] < |link|
    ensures (if equiv[p] == 0 then [] else Chain(link, equiv[p])) == Defined(owner, 0, p)
  {
    if equiv[p] != 0 {
      ChainDefined(owner, link, equiv, equiv[p]);
    }
  }

  lemma UnnamedTexts(owner: seq<int>, link: seq<nat>, equiv: seq<nat>)
    requires Linked(owner, link, equiv)
    ensures Chain(link, 0) == [0] + Defined(owner, 0, UNNAMED)
  {
    if link[0] != 0 {
      ChainDefined(owner, link, equiv, link[0]);
    }
  }

  /** Macros are the texts, other than text 0, whose link is 0; all other links go forward
      or say that the chain ends. */
  lemma LinksForward(owner: seq<int>, link: seq<nat>, equiv: seq<nat>, t: nat)
    requires Linked(owner, link, equiv) && 1 <= t < |link|
    ensures link[t] == 0 <==> owner[t] == MACRO
    ensures link[t] != 0 ==> link[t] == Next(owner, t, owner[t])
    ensures link[t] != 0 && link[t] != SECTION_FLAG ==> t < link[t] < |link| && owner[link[t]] == owner[t]
  {
  }

  /** What one more text changes. */
  lemma {:induction false} NextAppend(owner: seq<int>, x: int, t: nat, p: int)
    requires t < |owner| < SECTION_FLAG
    ensures Next(owner + [x], t, p) ==
            if Next(owner, t, p) != SECTION_FLAG then Next(owner, t, p)
            else if x == p then |owner| else SECTION_FLAG
    decreases |owner| - t
  {
    if t + 1 < |owner| {
      NextAppend(owner, x, t + 1, p);
    }
  }

  class Texts {
    var link: seq<nat>
    var equiv: seq<nat>
    var lastUnnamed: nat
    ghost var owner: seq<int>

    ghost predicate Valid()
      reads this
    {
      && Linked(owner, link, equiv)
      && lastUnnamed < |owner| && owner[lastUnnamed] == UNNAMED && Next(owner, lastUnnamed, UNNAMED) == SECTION_FLAG
    }

    constructor (names: nat)
      requires names >= 1
      ensures Valid() && owner == [UNNAMED] && |equiv| == names
    {
      link, equiv, lastUnnamed, owner := [0], seq(names, _ => 0), 0, [UNNAMED];
    }

    /** A macro definition. */
    method AddMacro()
      requires Valid() && |owner| < SECTION_FLAG
      modifies this
      ensures Valid() && owner == old(owner) + [MACRO] && |equiv| == old(|equiv|)
    {
      hide Next, Linked;
      Sizes(owner, link, equiv, 0);
      link := link + [0];
      owner := owner + [MACRO];
      LinkedMore(old(owner), old(link), equiv, MACRO, link, equiv);
      NextAppend(old(owner), MACRO, lastUnnamed, UNNAMED);
    }

    /** The C text of section p goes to the end of its section's chain. */
    method AddText(p: nat)
      requires Valid() && |owner| < SECTION_FLAG && p < |equiv|
      modifies this
      ensures Valid() && owner == old(owner) + [p] && |equiv| == old(|equiv|)
    {
      hide Next, Linked;
      Sizes(owner, link, equiv, p);
      var t := |link|;
      if p == 0 {
        LastOnly(owner, link, equiv, lastUnnamed);
        link := link[lastUnnamed := t];
        lastUnnamed := t;
      } else if equiv[p] == 0 {
        NoText(owner, link, equiv, p);
        equiv := equiv[p := t];
      } else {
        var q := equiv[p];
        while link[q] < SECTION_FLAG
          invariant 1 <= q < |link| && owner[q] == p
          decreases |link| - q
          modifies {}
        {
          LinksForward(owner, link, equiv, q);
          q := link[q];
        }
        LinksForward(owner, link, equiv, q);
        LastOnly(owner, link, equiv, q);
        link := link[q := t];
      }
      link := link + [SECTION_FLAG];
      owner := owner + [p];
      LinkedMore(old(owner), old(link), old(equiv), p, link, equiv);
      NextEnd(owner, t, p);
      NextAppend(old(owner), p, old(lastUnnamed), UNNAMED);
    }
  }

  lemma Sizes(owner: seq<int>, link: seq<nat>, equiv: seq<nat>, p: nat)
    requires Linked(owner, link, equiv)
    ensures 1 <= |owner| == |link| <= SECTION_FLAG && owner[0] == UNNAMED && 1 <= |equiv| && equiv[0] == 0
    ensures p < |equiv| && p != 0 && equiv[p] != 0 ==> 1 <= equiv[p] < |link| && owner[equiv[p]] == p
  {
  }

  /** Links after text p is added: the last text of p, if any, or the head of its chain
      leads to the new text. */
  lemma LinkedMore(owner: seq<int>, link: seq<nat>, equiv: seq<nat>, p: int, link2: seq<nat>, equiv2: seq<nat>)
    requires Linked(owner, link, equiv) && |owner| < SECTION_FLAG && MACRO <= p < |equiv| == |equiv2|
    requires |link2| == |link| + 1 && link2[|link|] == if p == MACRO then 0 else SECTION_FLAG
    requires forall t :: 1 <= t < |link| ==>
               link2[t] == if p != MACRO && owner[t] == p && link[t] == SECTION_FLAG then |link| else link[t]
    requires link2[0] == if p == UNNAMED && link[0] == 0 then |link| else link[0]
    requires forall q :: 0 <= q < |equiv| ==>
               equiv2[q] == if q == p && p != UNNAMED && equiv[q] == 0 then |link| else equiv[q]
    ensures Linked(owner + [p], link2, equiv2)
  {
    hide Next;
    var owner2 := owner + [p];
    forall t | 1 <= t < |link2|
      ensures link2[t] == if owner2[t] == MACRO then 0 else Next(owner2, t, owner2[t])
    {
      if t < |owner| {
        NextAppend(owner, p, t, owner[t]);
        assert owner2[t] == owner[t];
        assert link[t] == if owner[t] == MACRO then 0 else Next(owner, t, owner[t]);
      } else {
        NextEnd(owner2, t, p);
      }
    }
    HeadsMore(owner, link, equiv, p, link2, equiv2);
  }

  lemma HeadsMore(owner: seq<int>, link: seq<nat>, equiv: seq<nat>, p: int, link2: seq<nat>, equiv2: seq<nat>)
    requires Linked(owner, link, equiv) && |owner| < SECTION_FLAG && MACRO <= p < |equiv| == |equiv2| && link2 != []
    requires link2[0] == if p == UNNAMED && link[0] == 0 then |link| else link[0]
    requires forall q :: 0 <= q < |equiv| ==>
               equiv2[q] == if q == p && p != UNNAMED && equiv[q] == 0 then |link| else equiv[q]
    ensures link2[0] == Head(Next(owner + [p], 0, UNNAMED)) && equiv2[0] == 0
    ensures forall q :: 1 <= q < |equiv2| ==> equiv2[q] == Head(Next(owner + [p], 0, q))
  {
    hide Next;
    NextAppend(owner, p, 0, UNNAMED);
    forall q | 1 <= q < |equiv|
      ensures equiv2[q] == Head(Next(owner + [p], 0, q))
    {
      NextAppend(owner, p, 0, q);
      assert equiv[q] == Head(Next(owner, 0, q));
    }
  }

  /** A section with no chain has no text. */
  lemma NoText(owner: seq<int>, link: seq<nat>, equiv: seq<nat>, p: nat)
    requires Linked(owner, link, equiv) && 1 <= p < |equiv| && equiv[p] == 0
    ensures forall t :: 0 <= t < |owner| ==> owner[t] != p
  {
  }

  /** Only the last text of a section has no successor. */
  lemma LastOnly(owner: seq<int>, link: seq<nat>, equiv: seq<nat>, q: nat)
    requires Linked(owner, link, equiv) && q < |owner| && owner[q] != MACRO && Next(owner, q, owner[q]) == SECTION_FLAG
    ensures forall t :: 1 <= t < |owner| && owner[t] == owner[q] && t != q ==> link[t] != SECTION_FLAG
    ensures 1 <= q ==> link[q] == SECTION_FLAG && (owner[q] == UNNAMED ==> link[0] != 0)
    ensures 1 <= q && owner[q] != UNNAMED ==> equiv[owner[q]] != 0
    ensures q == 0 ==> link[0] == 0
  {
  }

  lemma NextEnd(owner: seq<int>, t: nat, p: int)
    requires t + 1 == |owner| <= SECTION_FLAG
    ensures Next(owner, t, p) == SECTION_FLAG
  {
  }
}
