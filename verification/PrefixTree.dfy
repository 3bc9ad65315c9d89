/** The binary search tree of section names as a value, ordered by stored prefixes. */
module PrefixTree {
  import opened WebStrings

  datatype Tree = Nil | Node(id: nat, left: Tree, right: Tree)

  function Ids(t: Tree): set<nat> {
    if t.Nil? then {} else Ids(t.left) + {t.id} + Ids(t.right)
  }

  /** Stored prefixes of all nodes. */
  type Prefixes = map<nat, string>

  /** Prefixes increase from left to right and none begins with another. */
  ghost predicate Sorted(t: Tree, pre: Prefixes) {
    && Ids(t) <= pre.Keys
    && (t.Node? ==>
          && Sorted(t.left, pre) && Sorted(t.right, pre)
          && (forall x :: x in Ids(t.left) ==> Cmp(pre[x], pre[t.id]) == Less)
          && (forall x :: x in Ids(t.right) ==> Cmp(pre[t.id], pre[x]) == Less))
  }

  /** The nodes whose stored prefix and the name begin with one another: the linear scan. */
  ghost function Matches(t: Tree, pre: Prefixes, name: string): (r: set<nat>)
    requires Ids(t) <= pre.Keys
    ensures r <= Ids(t)
  {
    set x | x in Ids(t) && Comparable(Cmp(name, pre[x]))
  }

  lemma LessApart(a: string, b: string)
    requires Cmp(a, b) == Less
    ensures Cmp(b, a) == Greater && !Comparable(Cmp(a, b)) && !Comparable(Cmp(b, a))
  {
    CmpMeaning(a, b);
  }

  /** No stored prefix begins with another. */
  lemma {:induction false} SortedApart(t: Tree, pre: Prefixes, x: nat, y: nat)
    requires Sorted(t, pre) && x in Ids(t) && y in Ids(t) && x != y
    ensures !(pre[x] <= pre[y])
    decreases t
  {
    hide Cmp;
    CmpMeaning(pre[x], pre[y]);
    if x in Ids(t.left) {
      LessApart(pre[x], pre[t.id]);
      if y in Ids(t.left) {
        SortedApart(t.left, pre, x, y);
      } else if y in Ids(t.right) {
        LessTransitive(pre[x], pre[t.id], pre[y]);
      }
    } else if x in Ids(t.right) {
      LessApart(pre[t.id], pre[x]);
      if y in Ids(t.right) {
        SortedApart(t.right, pre, x, y);
      } else if y in Ids(t.left) {
        LessTransitive(pre[y], pre[t.id], pre[x]);
        LessApart(pre[y], pre[x]);
      }
    } else if y in Ids(t.left) {
      LessApart(pre[y], pre[t.id]);
    }
  }

  /** No node occurs twice. */
  lemma SortedDistinct(t: Tree, pre: Prefixes)
    requires Sorted(t, pre) && t.Node?
    ensures t.id in Ids(t) && t.id !in Ids(t.left) && t.id !in Ids(t.right) && Ids(t.left) !! Ids(t.right)
    ensures Ids(t.left) <= Ids(t) && Ids(t.right) <= Ids(t)
    ensures Sorted(t.left, pre) && Sorted(t.right, pre)
  {
    CmpMeaning(pre[t.id], pre[t.id]);
    forall x | x in Ids(t.left) && x in Ids(t.right)
      ensures false
    {
      LessTransitive(pre[x], pre[t.id], pre[x]);
      CmpMeaning(pre[x], pre[x]);
    }
  }

  /** A name below a node has no match to its right, and one above it none to its left. */
  lemma OneSide(t: Tree, pre: Prefixes, name: string)
    requires Sorted(t, pre) && t.Node?
    ensures Cmp(name, pre[t.id]) == Less ==> Matches(t, pre, name) == Matches(t.left, pre, name)
    ensures Cmp(name, pre[t.id]) == Greater ==> Matches(t, pre, name) == Matches(t.right, pre, name)
    ensures Comparable(Cmp(name, pre[t.id])) ==>
              Matches(t, pre, name) == Matches(t.left, pre, name) + {t.id} + Matches(t.right, pre, name)
  {
    if Cmp(name, pre[t.id]) == Less {
      forall x | x in Ids(t.right)
        ensures !Comparable(Cmp(name, pre[x]))
      {
        LessTransitive(name, pre[t.id], pre[x]);
      }
    } else if Cmp(name, pre[t.id]) == Greater {
      CmpMeaning(name, pre[t.id]);
      CmpMeaning(pre[t.id], name);
      forall x | x in Ids(t.left)
        ensures !Comparable(Cmp(name, pre[x]))
      {
        LessTransitive(pre[x], pre[t.id], name);
        CmpMeaning(pre[x], name);
        CmpMeaning(name, pre[x]);
      }
    }
  }

  /** The tree with a new leaf where the search for a name without matches ends. */
  function Insert(t: Tree, pre: Prefixes, name: string, id: nat): Tree
    requires Ids(t) <= pre.Keys
  {
    if t.Nil? then Node(id, Nil, Nil)
    else if Cmp(name, pre[t.id]) == Less then t.(left := Insert(t.left, pre, name, id))
    else t.(right := Insert(t.right, pre, name, id))
  }

  lemma {:induction false} InsertIds(t: Tree, pre: Prefixes, name: string, id: nat)
    requires Ids(t) <= pre.Keys
    ensures Ids(Insert(t, pre, name, id)) == Ids(t) + {id}
  {
    if t.Node? {
      InsertIds(t.left, pre, name, id);
      InsertIds(t.right, pre, name, id);
    }
  }

  lemma {:induction false} SortedExtend(t: Tree, pre: Prefixes, id: nat, s: string)
    requires Sorted(t, pre) && id !in Ids(t)
    ensures Sorted(t, pre[id := s])
  {
    if t.Node? {
      SortedExtend(t.left, pre, id, s);
      SortedExtend(t.right, pre, id, s);
    }
  }

  /** Inserting a name that matches nothing keeps the order. */
  lemma {:induction false} InsertSorted(t: Tree, pre: Prefixes, name: string, id: nat)
    requires Sorted(t, pre) && id !in Ids(t) && Matches(t, pre, name) == {}
    ensures Sorted(Insert(t, pre, name, id), pre[id := name])
  {
    hide Cmp;
    if t.Node? {
      var c := Cmp(name, pre[t.id]);
      assert t.id in Ids(t) && t.id !in Matches(t, pre, name);
      CmpMeaning(name, pre[t.id]);
      CmpMeaning(pre[t.id], name);
      OneSide(t, pre, name);
      SortedExtend(t, pre, id, name);
      if c == Less {
        InsertIds(t.left, pre, name, id);
        InsertSorted(t.left, pre, name, id);
      } else {
        InsertIds(t.right, pre, name, id);
        InsertSorted(t.right, pre, name, id);
      }
    }
  }

  /** A prefix that is no match compares with the cut prefix as it did with the whole one. */
  lemma CutSame(p: string, q: string, name: string)
    requires name <= q && !Comparable(Cmp(name, p))
    ensures Cmp(p, name) == Cmp(p, q) && Cmp(name, p) == Cmp(q, p)
  {
    hide Cmp;
    CmpMeaning(name, p);
    CmpMeaning(p, name);
    assert name == q[..|name|];
    CmpCut(p, q, |name|);
    CmpMeaning(q, p);
    CmpMeaning(p, q);
  }

  lemma OthersSame(t: Tree, pre: Prefixes, r: nat, name: string)
    requires Ids(t) <= pre.Keys && r in Ids(t) && name <= pre[r] && Matches(t, pre, name) == {r}
    ensures forall x :: x in Ids(t) && x != r ==>
              Cmp(pre[x], name) == Cmp(pre[x], pre[r]) && Cmp(name, pre[x]) == Cmp(pre[r], pre[x])
  {
    hide Cmp;
    forall x | x in Ids(t) && x != r
      ensures Cmp(pre[x], name) == Cmp(pre[x], pre[r]) && Cmp(name, pre[x]) == Cmp(pre[r], pre[x])
    {
      assert x !in Matches(t, pre, name);
      CutSame(pre[x], pre[r], name);
    }
  }

  /** Cutting the stored prefix of the only match down to the name keeps the order. */
  lemma {:induction false} ShortenSorted(t: Tree, pre: Prefixes, r: nat, name: string)
    requires Sorted(t, pre) && r in Ids(t) && name <= pre[r] && Matches(t, pre, name) == {r}
    ensures Sorted(t, pre[r := name])
  {
    hide Cmp, Matches;
    SortedDistinct(t, pre);
    OthersSame(t, pre, r, name);
    if r in Ids(t.left) {
      SubMatches(t, t.left, pre, name, r);
      ShortenSorted(t.left, pre, r, name);
      SortedExtend(t.right, pre, r, name);
    } else if r in Ids(t.right) {
      SubMatches(t, t.right, pre, name, r);
      ShortenSorted(t.right, pre, r, name);
      SortedExtend(t.left, pre, r, name);
    } else {
      SortedExtend(t.left, pre, r, name);
      SortedExtend(t.right, pre, r, name);
    }
  }

  lemma SubMatches(t: Tree, u: Tree, pre: Prefixes, name: string, r: nat)
    requires Ids(t) <= pre.Keys && Ids(u) <= Ids(t) && r in Ids(u) && Matches(t, pre, name) == {r}
    ensures Matches(u, pre, name) == {r}
  {
    assert Matches(u, pre, name) <= Matches(t, pre, name);
    assert r in Matches(t, pre, name);
  }

  function Size(t: Tree): nat {
    if t.Nil? then 0 else Size(t.left) + 1 + Size(t.right)
  }

  /** Where the search for a name without matches ends: the last node it sees, or `par`,
      and how the name compares with it. */
  function End(t: Tree, pre: Prefixes, name: string, par: nat, c: Order): (nat, Order)
    requires Ids(t) <= pre.Keys
  {
    if t.Nil? then (par, c)
    else
      var c1 := Cmp(name, pre[t.id]);
      if c1 == Less then End(t.left, pre, name, t.id, c1) else End(t.right, pre, name, t.id, c1)
  }

  lemma {:induction false} EndInside(t: Tree, pre: Prefixes, name: string, par: nat, c: Order)
    requires Ids(t) <= pre.Keys && t.Node?
    ensures End(t, pre, name, par, c).0 in Ids(t)
  {
    var c1 := Cmp(name, pre[t.id]);
    if c1 == Less {
      if t.left.Node? {
        EndInside(t.left, pre, name, t.id, c1);
      }
    } else if t.right.Node? {
      EndInside(t.right, pre, name, t.id, c1);
    }
  }

  // ----- trees in linked form

  /** Every node of the tree is linked as the tree says; 0 is the null pointer. */
  ghost predicate Holds(link: seq<nat>, rlink: seq<nat>, p: nat, t: Tree)
    decreases t
  {
    match t
    case Nil => p == 0
    case Node(id, l, r) =>
      && p == id && 0 < p < |link| && p < |rlink|
      && Holds(link, rlink, link[p], l) && Holds(link, rlink, rlink[p], r)
  }

  lemma {:induction false} HoldsSame(link: seq<nat>, rlink: seq<nat>, link2: seq<nat>, rlink2: seq<nat>,
                                     p: nat, t: Tree)
    requires Holds(link, rlink, p, t) && |link| <= |link2| && |rlink| <= |rlink2|
    requires forall x :: x in Ids(t) && x < |link| && x < |rlink| ==> link2[x] == link[x] && rlink2[x] == rlink[x]
    ensures Holds(link2, rlink2, p, t)
    decreases t
  {
    if t.Node? {
      assert p in Ids(t);
      HoldsSame(link, rlink, link2, rlink2, link[p], t.left);
      HoldsSame(link, rlink, link2, rlink2, rlink[p], t.right);
    }
  }

  /** The links differ only in that the node e.0 has a new child on the side e.1. */
  ghost predicate NewChild(link: seq<nat>, rlink: seq<nat>, link2: seq<nat>, rlink2: seq<nat>, t: Tree,
                           e: (nat, Order), id: nat) {
    && |link| == |rlink| <= id < |link2| && id < |rlink2| && 0 < id && link2[id] == 0 && rlink2[id] == 0
    && forall x :: x in Ids(t) && x < |link| ==>
         && link2[x] == (if x == e.0 && e.1 == Less then id else link[x])
         && rlink2[x] == (if x == e.0 && e.1 != Less then id else rlink[x])
  }

  /** Setting one link of the node where the search ended inserts the new leaf. */
  lemma {:induction false} InsertHolds(link: seq<nat>, rlink: seq<nat>, link2: seq<nat>, rlink2: seq<nat>, p: nat,
                                       t: Tree, pre: Prefixes, name: string, id: nat, par: nat, c: Order)
    requires Holds(link, rlink, p, t) && t.Node? && Sorted(t, pre)
    requires NewChild(link, rlink, link2, rlink2, t, End(t, pre, name, par, c), id)
    ensures Holds(link2, rlink2, p, Insert(t, pre, name, id))
    decreases t
  {
    hide Cmp;
    var c1 := Cmp(name, pre[t.id]);
    var e := End(t, pre, name, par, c);
    SortedDistinct(t, pre);
    assert t.id in Ids(t);
    if c1 == Less {
      HoldsSame(link, rlink, link2, rlink2, rlink[p], t.right) by { InSide(t.left, t.right, t, pre, name, c1, e); }
      if t.left.Node? {
        EndInside(t.left, pre, name, t.id, c1);
        InsertHolds(link, rlink, link2, rlink2, link[p], t.left, pre, name, id, t.id, c1);
      } else {
        assert e == (t.id, c1) && link2[p] == id && rlink2[p] == rlink[p];
        assert Holds(link2, rlink2, id, Node(id, Nil, Nil));
      }
    } else {
      HoldsSame(link, rlink, link2, rlink2, link[p], t.left) by { InSide(t.right, t.left, t, pre, name, c1, e); }
      if t.right.Node? {
        EndInside(t.right, pre, name, t.id, c1);
        InsertHolds(link, rlink, link2, rlink2, rlink[p], t.right, pre, name, id, t.id, c1);
      } else {
        assert e == (t.id, c1) && rlink2[p] == id && link2[p] == link[p];
        assert Holds(link2, rlink2, id, Node(id, Nil, Nil));
      }
    }
  }

  lemma InSide(side: Tree, other: Tree, t: Tree, pre: Prefixes, name: string, c1: Order, e: (nat, Order))
    requires Ids(side) <= pre.Keys && Ids(side) !! Ids(other) && t.Node? && t.id !in Ids(other)
    requires e == End(side, pre, name, t.id, c1)
    ensures e.0 !in Ids(other)
  {
    if side.Node? {
      EndInside(side, pre, name, t.id, c1);
    }
  }

  /** How far a search for all matches has come: subtrees tp and tq are still to be searched, r is the
      match found so far or 0; without a match, the search goes on as the one for the place to insert. */
  ghost predicate Sought(t: Tree, pre: Prefixes, name: string, tp: Tree, tq: Tree, r: nat, par: nat, c: Order) {
    && Sorted(t, pre) && Sorted(tp, pre) && Sorted(tq, pre) && Ids(tp) <= Ids(t) && Ids(tq) <= Ids(t) && 0 !in Ids(t)
    && (r == 0 ==>
          && tq == Nil && Matches(t, pre, name) == Matches(tp, pre, name)
          && End(t, pre, name, 0, Less) == End(tp, pre, name, par, c))
    && (r != 0 ==>
          && r in Ids(t) && r !in Ids(tp) && r !in Ids(tq)
          && Matches(t, pre, name) == {r} + Matches(tp, pre, name) + Matches(tq, pre, name))
  }

  lemma SoughtFirst(t: Tree, pre: Prefixes, name: string)
    requires Sorted(t, pre) && 0 !in Ids(t)
    ensures Sought(t, pre, name, t, Nil, 0, 0, Less)
  {
    assert Sorted(Nil, pre);
  }

  /** One turn of the search, at the root of tp. */
  lemma SoughtTurn(t: Tree, pre: Prefixes, name: string, tp: Tree, tq: Tree, r: nat, par: nat, c: Order)
    requires Sought(t, pre, name, tp, tq, r, par, c) && tp.Node?
    ensures Ids(t) <= pre.Keys && tp.id in Ids(t)
    ensures var c1 := Cmp(name, pre[tp.id]);
      && (!Comparable(c1) ==>
            Sought(t, pre, name, if c1 == Less then tp.left else tp.right, tq, r, if r == 0 then tp.id else par, c1))
      && (Comparable(c1) && r == 0 ==> Sought(t, pre, name, tp.left, tp.right, tp.id, par, c1))
      && (Comparable(c1) && r != 0 ==>
            tp.id in Matches(t, pre, name) && r in Matches(t, pre, name) && tp.id != r)
  {
    hide Cmp, Sorted, Matches, End;
    SortedKeys(t, pre);
    SortedKeys(tp, pre);
    SortedKeys(tq, pre);
    SortedDistinct(tp, pre);
    OneSide(tp, pre, name);
    EndTurn(tp, pre, name, par, c);
    NoneSought(pre, name);
    CmpMeaning(name, pre[tp.id]);
  }

  lemma SortedKeys(t: Tree, pre: Prefixes)
    requires Sorted(t, pre)
    ensures Ids(t) <= pre.Keys
  {
  }

  lemma NoneSought(pre: Prefixes, name: string)
    ensures Matches(Nil, pre, name) == {}
  {
  }

  lemma EndTurn(t: Tree, pre: Prefixes, name: string, par: nat, c: Order)
    requires Ids(t) <= pre.Keys && t.Node?
    ensures t.id in pre && Ids(t.left) <= pre.Keys && Ids(t.right) <= pre.Keys
    ensures var c1 := Cmp(name, pre[t.id]);
      End(t, pre, name, par, c) == End(if c1 == Less then t.left else t.right, pre, name, t.id, c1)
  {
  }

  lemma SoughtOther(t: Tree, pre: Prefixes, name: string, tq: Tree, r: nat, par: nat, c: Order)
    requires Sought(t, pre, name, Nil, tq, r, par, c)
    ensures Sought(t, pre, name, tq, Nil, r, par, c)
  {
  }

  lemma SoughtEnd(t: Tree, pre: Prefixes, name: string, r: nat, par: nat, c: Order)
    requires Sought(t, pre, name, Nil, Nil, r, par, c)
    ensures Ids(t) <= pre.Keys
    ensures r == 0 ==> Matches(t, pre, name) == {} && (par, c) == End(t, pre, name, 0, Less)
    ensures r != 0 ==> Matches(t, pre, name) == {r}
  {
  }
}
