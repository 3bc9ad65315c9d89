/** Section names of both programs: a binary search tree over the name directory, in
    which abbreviated names are found by the prefixes stored so far. */
module SectionNames {
  import opened WebStrings
  import opened PrefixTree
  import opened NameChunks

  /** The answers of `section_lookup`; the last three are errors. */
  datatype Outcome = Added | Found | Extended | Ambiguous | IsPrefix | Extends | Incompatible

  function StoredPrefix(d: Dir, x: nat): string {
    if x < |d.bytes| && x < |d.plen| && d.plen[x] <= |d.bytes[x]| then d.bytes[x][..d.plen[x]] else ""
  }

  ghost function PrefixesOf(d: Dir, t: Tree): map<nat, string> {
    map x: nat | x in Ids(t) :: StoredPrefix(d, x)
  }

  /** The tree is linked in the directory and ordered by stored prefixes, each of which
      lies within the first piece of its name. */
  ghost predicate ValidTable(d: Dir, own: Owners, root: nat, t: Tree) {
    && Chained(d, own)
    && (forall x :: x in Ids(t) ==> IsNode(x, own) && d.plen[x] <= |Piece(d.bytes[x])|)
    && Holds(d.link, d.rlink, root, t)
    && Sorted(t, PrefixesOf(d, t))
  }

  class NameTable {
    var bytes: seq<string>
    var link: seq<nat>
    var rlink: seq<nat>
    var plen: seq<nat>    // prefix_length
    var root: nat
    ghost var tree: Tree
    ghost var own: Owners

    function D(): Dir
      reads this
    {
      Dir(bytes, link, rlink, plen)
    }

    ghost predicate Valid()
      reads this
    {
      ValidTable(D(), own, root, tree)
    }

    /** The stored prefix of every node. */
    ghost function Pre(): map<nat, string>
      requires Valid()
      reads this
    {
      PrefixesOf(D(), tree)
    }

    ghost function NameOf(p: nat): string
      requires Valid() && p in Ids(tree)
      reads this
    {
      FullName(D(), own, p)
    }

    ghost predicate IsComplete(p: nat)
      requires Valid() && p in Ids(tree)
      reads this
    {
      Complete(D(), own, p)
    }

    constructor ()
      ensures Valid() && tree == Nil
    {
      bytes, link, rlink, plen := [""], [0], [0], [0];
      root := 0;
      tree, own := Nil, [0];
    }

    /** `section_name_cmp`: the name against the pieces of node p, one after the other.
        `used` is how far the name has been used up when it extends the node's. */
    method SectionNameCmp(name: string, p: nat) returns (c: Order, used: nat)
      requires Valid() && p in Ids(tree)
      ensures c == Classify(NameOf(p), IsComplete(p), name)
      ensures c == Order.Extension ==> used == |NameOf(p)| && NameOf(p) <= name
    {
      hide Here, HereEnds, Classify, Cmp, FullName, Complete, PrefixesOf, Sorted, Holds, Rest, Ends, Chained, IsPiece,
        More, Piece;
      ghost var d := D();
      NodeStart(d, own, p, name);
      var s := bytes[p];
      var q := if More(s) then link[p + 1] else 0;
      used := 0;
      NothingUsed(name, Here(d, own, s, q));
      while true
        invariant used <= |name|
        invariant q == 0 || (IsPiece(q, own) && More(s))
        invariant Classify(NameOf(p), IsComplete(p), name)
               == Classify(Here(d, own, s, q), HereEnds(d, own, s, q), name[used..])
        invariant NameOf(p) == name[..used] + Here(d, own, s, q)
        decreases if q == 0 then 0 else |bytes| - q, if More(s) then 1 else 0
      {
        var text := Piece(s);
        c := WebStrcmp(name[used..], text);
        Round(d, own, s, q, name[used..]);
        match c {
          case Equal =>
            if q == 0 {
              if More(s) {
                AllUsed(name, used, text, NameOf(p));
                used := used + |text|;
                c := Order.Extension;
              }
              return;
            } else {
              c := if bytes[q] == "" then Equal else Prefix;
              return;
            }
          case Extension =>
            if !More(s) {
              c := BadExtension;
              return;
            }
            if q == 0 {
              AllUsed(name, used, text, NameOf(p));
            }
            Advance(name, used, text, Here(d, own, s, q));
            used := used + |text|;
            if q == 0 {
              return;
            }
            s := bytes[q];
            q := if More(s) then link[q] else 0;
          case _ =>
            return;
        }
      }
    }

    /** What the linear scan over all stored prefixes finds. */
    ghost function Scan(name: string): set<nat>
      requires Valid()
      reads this
    {
      Matches(tree, Pre(), name)
    }

    /** The two-pointer search: r is the only match or 0; if there is none, the search
        ended at node `par` with answer c; or there is another match besides r. */
    method Search(name: string) returns (r: nat, par: nat, c: Order, ambiguous: bool)
      requires Valid()
      ensures ambiguous ==> exists x :: x in Scan(name) && x != r && r in Scan(name)
      ensures !ambiguous && r == 0 ==> Scan(name) == {} && (par, c) == End(tree, Pre(), name, 0, Less)
      ensures !ambiguous && r != 0 ==> Scan(name) == {r}
    {
      hide Cmp, Chained, StoredPrefix, Sorted, PrefixesOf, Sought, Matches, End;
      ghost var pre := Pre();
      SortedAtStart();
      SoughtFirst(tree, pre, name);
      var p: nat, q: nat := root, 0;
      r, par, c, ambiguous := 0, 0, Less, false;
      ghost var tp, tq := tree, Nil;
      while p != 0
        invariant Holds(link, rlink, p, tp) && Holds(link, rlink, q, tq)
        invariant Sought(tree, pre, name, tp, tq, r, par, c)
        invariant p == 0 ==> tp == Nil && tq == Nil
        decreases Size(tp) + Size(tq)
      {
        SoughtTurn(tree, pre, name, tp, tq, r, par, c);
        PrefixStored(p);
        c := WebStrcmp(name, bytes[p][..plen[p]]);
        CmpMeaning(name, pre[p]);
        if c == Less || c == Greater {
          if r == 0 {
            par := p;
          }
          p, tp := if c == Less then link[p] else rlink[p], if c == Less then tp.left else tp.right;
        } else {
          if r != 0 {
            assert p in Scan(name) && r in Scan(name);
            ambiguous := true;
            return;
          }
          r := p;
          p, q := link[r], rlink[r];
          tp, tq := tp.left, tp.right;
        }
        if p == 0 {
          SoughtOther(tree, pre, name, tq, r, par, c);
          p, q := q, 0;
          tp, tq := tq, Nil;
        }
      }
      SoughtEnd(tree, pre, name, r, par, c);
    }

    lemma SortedAtStart()
      requires Valid()
      ensures Sorted(tree, Pre()) && Sorted(Nil, Pre()) && Ids(tree) <= Pre().Keys
    {
    }

    lemma PrefixStored(p: nat)
      requires Valid() && p in Ids(tree)
      ensures p < |bytes| && p < |plen| && plen[p] <= |bytes[p]| && Pre()[p] == bytes[p][..plen[p]]
    {
    }

    /** `add_section_name`: a new leaf below `par`, on the side that c says. */
    method AddSectionName(par: nat, c: Order, name: string, isPref: bool) returns (p: nat)
      requires Valid() && Scan(name) == {} && (par, c) == End(tree, Pre(), name, 0, Less)
      requires isPref || !More(name)
      modifies this
      ensures Valid() && p !in old(Ids(tree)) && tree == Insert(old(tree), old(Pre()), name, p)
      ensures Ids(tree) == old(Ids(tree)) + {p}
      ensures NameOf(p) == name && IsComplete(p) == !isPref && Pre() == old(Pre())[p := name]
      ensures forall x :: x in old(Ids(tree)) ==> NameOf(x) == old(NameOf(x)) && IsComplete(x) == old(IsComplete(x))
    {
      hide ValidTable, FullName, Complete, PrefixesOf, Matches, Insert, End, Cmp, StoredPrefix;
      AddedValid(D(), own, root, tree, name, isPref);
      p := |bytes|;
      ghost var d, own0, pre0 := D(), own, Pre();
      if isPref {
        bytes, link, rlink, plen := bytes + [name + " ", ""], link + [0, 0], rlink + [0, 0], plen + [|name|, 0];
      } else {
        bytes, link, rlink, plen := bytes + [name], link + [0], rlink + [0], plen + [|name|];
      }
      if par == 0 {
        root := p;
      } else if c == Less {
        link := link[par := p];
      } else {
        rlink := rlink[par := p];
      }
      assert Ids(tree) <= pre0.Keys by { KeysOf(d, tree); }
      tree, own := Insert(tree, pre0, name, p), AppendedOwners(own, isPref);
    }

    /** The end of the chain of pieces that begins at entry q0. */
    method EndOfChain(q0: nat) returns (q: nat)
      requires Chained(D(), own) && IsPiece(q0, own) && q0 < |link|
      ensures q < |link| && q == Last(D(), own, q0)
    {
      hide Chained, Last, IsPiece;
      q := q0;
      while link[q] != 0
        invariant q < |link| && IsPiece(q, own) && Last(D(), own, q0) == Last(D(), own, q)
        modifies {}
        decreases |link| - q
      {
        LastStep(D(), own, q);
        q := link[q];
      }
      LastStep(D(), own, q);
    }

    /** `extend_section_name`: one more piece at the end of node p's chain. */
    method ExtendSectionName(p: nat, rest: string, isPref: bool)
      requires Valid() && p in Ids(tree) && !IsComplete(p)
      requires if isPref then rest != "" else !More(rest)
      modifies this
      ensures Valid() && tree == old(tree) && Pre() == old(Pre())
      ensures NameOf(p) == old(NameOf(p)) + rest && IsComplete(p) == !isPref
      ensures forall x :: x in Ids(tree) && x != p ==>
                NameOf(x) == old(NameOf(x)) && IsComplete(x) == old(IsComplete(x))
    {
      hide FullName, Complete, Chained, ExtendedDir, Last, PrefixesOf, ValidTable, Piece, IsPiece;
      ghost var d := D();
      var piece := if isPref then rest + " " else rest;
      PieceOf(rest);
      ExtendedValid(d, own, root, tree, p, piece);
      ExtendedIs(d, own, p, piece);
      var q := EndOfChain(p + 1);
      link := link[q := |bytes|];
      bytes, link, rlink, plen := bytes + [piece], link + [0], rlink + [0], plen + [0];
      own := own + [p];
    }

    /** `set_prefix_length` on the only match. */
    method SetPrefixLength(r: nat, name: string)
      requires Valid() && Scan(name) == {r} && name <= Pre()[r]
      modifies `plen
      ensures Valid() && Pre() == old(Pre())[r := name]
      ensures forall x :: x in Ids(tree) ==> NameOf(x) == old(NameOf(x)) && IsComplete(x) == old(IsComplete(x))
    {
      hide FullName, Complete, ValidTable, PrefixesOf, Matches;
      PrefixStored(r);
      ShortenedValid(D(), own, root, tree, r, name);
      plen := plen[r := |name|];
    }

    /** `section_lookup`.  The tree search finds what a scan over all stored prefixes
        would find, and the one match decides what happens to the name. */
    method SectionLookup(name: string, isPref: bool) returns (r: nat, out: Outcome)
      requires Valid() && (isPref || !More(name))
      modifies this
      ensures Valid()
      ensures out == Ambiguous ==> r == 0 && unchanged(this)
      ensures out == Ambiguous <==> exists x, y :: x in old(Scan(name)) && y in old(Scan(name)) && x != y
      ensures out == Added <==> old(Scan(name)) == {}
      ensures out != Ambiguous && out != Added ==> old(Scan(name)) == {r}
      ensures out == Added ==>
        && r !in old(Ids(tree)) && Ids(tree) == old(Ids(tree)) + {r}
        && NameOf(r) == name && IsComplete(r) == !isPref && Pre() == old(Pre())[r := name]
      ensures out != Ambiguous && out != Added ==>
        && r in old(Ids(tree)) && tree == old(tree)
        && var c := Classify(old(NameOf(r)), old(IsComplete(r)), name);
           && out == Answer(c, isPref, old(NameOf(r)) == name)
           && NameOf(r) == (if out == Extended then name else old(NameOf(r)))
           && IsComplete(r) == (if out == Extended then !isPref else old(IsComplete(r)))
           && Pre() ==
              old(Pre())[r := if c == Prefix && isPref && |name| < |old(Pre()[r])| then name else old(Pre()[r])]
      ensures forall x :: x in old(Ids(tree)) && x != r ==>
        && x in Ids(tree) && NameOf(x) == old(NameOf(x)) && IsComplete(x) == old(IsComplete(x))
        && Pre()[x] == old(Pre()[x])
    {
      hide ValidTable, FullName, Complete, PrefixesOf, Matches, Insert, End, Cmp, StoredPrefix, Classify;
      SortedAtStart();
      var par, c, ambiguous;
      r, par, c, ambiguous := Search(name);
      if ambiguous {
        return 0, Ambiguous;
      }
      if r == 0 {
        r := AddSectionName(par, c, name, isPref);
        return r, Added;
      }
      assert r in Scan(name);
      MatchInside(name, r);
      var used;
      c, used := SectionNameCmp(name, r);
      ClassifyFacts(NameOf(r), IsComplete(r), name);
      match c {
        case Prefix =>
          if !isPref {
            out := IsPrefix;
          } else {
            out := Found;
            if |name| < plen[r] {
              PrefixStored(r);
              FirstPiece(r);
              SetPrefixLength(r, name);
            }
          }
        case Equal =>
          out := Found;
        case Extension =>
          out := Found;
          if !isPref || used < |name| {
            SuffixEnd(name, used);
            ExtendSectionName(r, name[used..], isPref);
            out := Extended;
          }
        case BadExtension =>
          out := Extends;
        case _ =>
          out := Incompatible;
      }
    }

    /** `sprint_section_name`: the pieces of node p, one after the other. */
    method SprintSectionName(p: nat) returns (dest: string)
      requires Valid() && p in Ids(tree)
      ensures dest == NameOf(p)
    {
      hide Here, FullName, Complete, PrefixesOf, Sorted, Holds, Rest, Ends, Chained, IsPiece, More, Piece;
      ghost var d := D();
      NodeStart(d, own, p, "");
      var s := bytes[p];
      var q := if More(s) then link[p + 1] else 0;
      dest := "";
      assert dest + Here(d, own, s, q) == Here(d, own, s, q);
      while true
        invariant q == 0 || (IsPiece(q, own) && More(s))
        invariant NameOf(p) == dest + Here(d, own, s, q)
        decreases if q == 0 then 0 else |bytes| - q, if More(s) then 1 else 0
      {
        PrintRound(d, own, s, q);
        ghost var before, piece := dest, Piece(s);
        dest := dest + Piece(s);
        if q == 0 {
          return;
        }
        s := bytes[q];
        q := if More(s) then link[q] else 0;
        assert dest + Here(d, own, s, q) == before + (piece + Here(d, own, s, q));
      }
    }

    /** An identifier enters the directory: no section name notices. */
    method AddIdentifier(id: string, hashLink: nat)
      requires Valid()
      modifies this
      ensures Valid() && tree == old(tree) && Pre() == old(Pre())
      ensures forall x :: x in Ids(tree) ==> NameOf(x) == old(NameOf(x)) && IsComplete(x) == old(IsComplete(x))
    {
      hide FullName, Complete, Sorted, SameFor;
      OtherEntry(D(), own, root, tree, id, hashLink);
      bytes, link, rlink, plen, own := bytes + [id], link + [hashLink], rlink + [0], plen + [0], own + [0];
    }

    lemma MatchInside(name: string, r: nat)
      requires Valid() && r in Scan(name)
      ensures r in Ids(tree) && r < |plen| && r < |bytes| && r in Pre() && |Pre()[r]| == plen[r]
    {
      PrefixStored(r);
    }

    /** The stored prefix begins the name. */
    lemma FirstPiece(r: nat)
      requires Valid() && r in Ids(tree)
      ensures r in Pre() && Pre()[r] <= NameOf(r)
    {
      assert IsNode(r, own);
      assert Pre()[r] == bytes[r][..plen[r]];
      assert Pre()[r] <= Piece(bytes[r]);
    }
  }

  lemma PrintRound(d: Dir, own: Owners, s: string, q: nat)
    requires Chained(d, own) && (q == 0 || (IsPiece(q, own) && More(s)))
    ensures q == 0 ==> Here(d, own, s, q) == Piece(s)
    ensures q != 0 ==> q < |d.bytes| && q < |d.link|
    ensures q != 0 ==>
      var next := if More(d.bytes[q]) then d.link[q] else 0;
      && (next == 0 || (IsPiece(next, own) && next > q))
      && Here(d, own, s, q) == Piece(s) + Here(d, own, d.bytes[q], next)
  {
    if q != 0 {
      var next := if More(d.bytes[q]) then d.link[q] else 0;
      assert Rest(d, own, q) == Here(d, own, d.bytes[q], next) by { assert Rest(d, own, 0) == ""; }
    }
  }

  lemma OtherEntry(d: Dir, own: Owners, root: nat, t: Tree, id: string, hashLink: nat)
    requires ValidTable(d, own, root, t)
    ensures var e := Dir(d.bytes + [id], d.link + [hashLink], d.rlink + [0], d.plen + [0]); var own2 := own + [0];
      && Chained(d, own) && ValidTable(e, own2, root, t) && PrefixesOf(e, t) == PrefixesOf(d, t)
      && forall x :: x in Ids(t) ==>
           FullName(e, own2, x) == FullName(d, own, x) && Complete(e, own2, x) == Complete(d, own, x)
  {
    hide FullName, Complete, Sorted;
    var e, own2 := Dir(d.bytes + [id], d.link + [hashLink], d.rlink + [0], d.plen + [0]), own + [0];
    OtherChained(d, own, e);
    forall x | x in Ids(t)
      ensures IsNode(x, own2) && e.plen[x] <= |Piece(e.bytes[x])|
      ensures FullName(e, own2, x) == FullName(d, own, x) && Complete(e, own2, x) == Complete(d, own, x)
    {
      assert IsNode(x, own);
      NameSame(d, e, own, own2, x);
    }
    assert PrefixesOf(e, t) == PrefixesOf(d, t);
    HoldsSame(d.link, d.rlink, e.link, e.rlink, root, t);
  }

  lemma OtherChained(d: Dir, own: Owners, e: Dir)
    requires Chained(d, own) && Shaped(e) && e.Size() == d.Size() + 1
    requires d.bytes <= e.bytes && d.link <= e.link
    ensures Chained(e, own + [0])
  {
    var own2 := own + [0];
    forall q: nat {:trigger IsPiece(q, own2)} | IsPiece(q, own2)
      ensures e.link[q] == 0 || (q < e.link[q] < |own2| && own2[e.link[q]] == own2[q])
      ensures More(e.bytes[q]) ==> |e.bytes[q]| >= 2
    {
      assert IsPiece(q, own) && e.bytes[q] == d.bytes[q] && e.link[q] == d.link[q];
    }
    forall q {:trigger own2[q]} | 0 <= q < |own2| && own2[q] == q && q != 0
      ensures More(e.bytes[q]) ==> q + 1 < |own2| && own2[q + 1] == q
    {
      assert own[q] == q && e.bytes[q] == d.bytes[q];
    }
  }

  /** What `section_lookup` reports about the one match. */
  function Answer(c: Order, isPref: bool, same: bool): Outcome {
    match c
    case Prefix => if isPref then Found else IsPrefix
    case Equal => Found
    case Extension => if isPref && same then Found else Extended
    case BadExtension => Extends
    case _ => Incompatible
  }

  lemma ClassifyFacts(full: string, complete: bool, name: string)
    ensures Classify(full, complete, name) == Prefix ==> name < full
    ensures Classify(full, complete, name) == Order.Extension ==> !complete && full <= name
  {
    CmpMeaning(name, full);
  }

  lemma SuffixEnd(name: string, used: nat)
    requires used <= |name|
    ensures name == name[..used] + name[used..]
    ensures !More(name) ==> !More(name[used..])
  {
  }

  /** Adding a leaf where the search ended. */
  lemma AddedValid(d: Dir, own: Owners, root: nat, t: Tree, name: string, isPref: bool)
    requires ValidTable(d, own, root, t) && Matches(t, PrefixesOf(d, t), name) == {}
    requires isPref || !More(name)
    ensures var end := End(t, PrefixesOf(d, t), name, 0, Less); var p := d.Size();
      && |d.link| == |d.rlink| == |d.plen| == d.Size() && end.0 < d.Size() && (end.0 == 0 <==> root == 0)
      && var e := Attach(Appended(d, name, isPref), end.0, end.1, p); var own2 := AppendedOwners(own, isPref);
         var t2 := Insert(t, PrefixesOf(d, t), name, p);
      && p !in Ids(t) && Ids(t2) == Ids(t) + {p}
      && ValidTable(e, own2, if end.0 == 0 then p else root, t2)
      && FullName(e, own2, p) == name && Complete(e, own2, p) == !isPref
      && PrefixesOf(e, t2) == PrefixesOf(d, t)[p := name]
      && forall x :: x in Ids(t) ==>
           FullName(e, own2, x) == FullName(d, own, x) && Complete(e, own2, x) == Complete(d, own, x)
  {
    hide FullName, Complete, Cmp, More, Piece, Sorted, Holds, Matches, PrefixesOf, End, Insert, SameFor, Chained, Ids;
    ShapedOf(d, own);
    KeysOf(d, t);
    var pre, end, p := PrefixesOf(d, t), End(t, PrefixesOf(d, t), name, 0, Less), d.Size();
    var a, own2 := Appended(d, name, isPref), AppendedOwners(own, isPref);
    AppendedChained(d, own, name, isPref);
    AppendedName(d, own, name, isPref);
    EndPlace(d, root, t, name);
    var e := Attach(a, end.0, end.1, p);
    AttachSame(a, own2, end.0, end.1, p, p);
    forall x | x in Ids(t)
      ensures IsNode(x, own2)
      ensures FullName(e, own2, x) == FullName(d, own, x) && Complete(e, own2, x) == Complete(d, own, x)
    {
      assert IsNode(x, own);
      NameSame(d, a, own, own2, x);
      AttachSame(a, own2, end.0, end.1, p, x);
    }
    AddedWithin(d, t, name, isPref, end.0, end.1);
    AddedTree(d, root, t, name, isPref, e);
  }

  lemma ShapedOf(d: Dir, own: Owners)
    requires Chained(d, own)
    ensures Shaped(d) && |own| == d.Size()
  {
  }

  lemma AddedWithin(d: Dir, t: Tree, name: string, isPref: bool, par: nat, c: Order)
    requires Shaped(d) && par < d.Size()
    requires forall x :: x in Ids(t) ==> x < d.Size() && d.plen[x] <= |Piece(d.bytes[x])|
    requires Piece(Appended(d, name, isPref).bytes[d.Size()]) == name
    ensures var e := Attach(Appended(d, name, isPref), par, c, d.Size());
      forall x :: x in Ids(t) + {d.Size()} ==> e.plen[x] <= |Piece(e.bytes[x])|
  {
    hide Piece;
    var e := Attach(Appended(d, name, isPref), par, c, d.Size());
    assert forall x :: x in Ids(t) ==> e.bytes[x] == d.bytes[x] && e.plen[x] == d.plen[x];
  }

  lemma EndPlace(d: Dir, root: nat, t: Tree, name: string)
    requires Holds(d.link, d.rlink, root, t)
    ensures var end := End(t, PrefixesOf(d, t), name, 0, Less);
      && (end.0 == 0 <==> root == 0) && (end.0 == 0 <==> t.Nil?) && (end.0 != 0 ==> end.0 in Ids(t))
  {
    if t.Node? {
      EndInside(t, PrefixesOf(d, t), name, 0, Less);
      HoldsPositive(d.link, d.rlink, root, t);
    }
  }

  lemma {:induction false} HoldsPositive(link: seq<nat>, rlink: seq<nat>, p: nat, t: Tree)
    requires Holds(link, rlink, p, t)
    ensures 0 !in Ids(t)
    decreases t
  {
    if t.Node? {
      HoldsPositive(link, rlink, link[p], t.left);
      HoldsPositive(link, rlink, rlink[p], t.right);
    }
  }

  lemma AddedPrefixes(d: Dir, t: Tree, name: string, isPref: bool, par: nat, c: Order, t2: Tree)
    requires Shaped(d) && par < d.Size() && (forall x :: x in Ids(t) ==> x < d.Size())
    requires Ids(t2) == Ids(t) + {d.Size()}
    ensures PrefixesOf(Attach(Appended(d, name, isPref), par, c, d.Size()), t2) == PrefixesOf(d, t)[d.Size() := name]
  {
    var e, p := Attach(Appended(d, name, isPref), par, c, d.Size()), d.Size();
    assert e.bytes[p][..|name|] == name && e.plen[p] == |name|;
    forall x | x in Ids(t)
      ensures StoredPrefix(e, x) == StoredPrefix(d, x)
    {
      assert e.bytes[x] == d.bytes[x] && e.plen[x] == d.plen[x];
    }
  }

  lemma KeysOf(d: Dir, t: Tree)
    ensures PrefixesOf(d, t).Keys == Ids(t)
  {
  }

  /** The tree's side of it. */
  lemma AddedTree(d: Dir, root: nat, t: Tree, name: string, isPref: bool, e: Dir)
    requires Shaped(d) && Holds(d.link, d.rlink, root, t) && Sorted(t, PrefixesOf(d, t))
    requires forall x :: x in Ids(t) ==> 0 < x < d.Size()
    requires Matches(t, PrefixesOf(d, t), name) == {}
    requires var end := End(t, PrefixesOf(d, t), name, 0, Less);
      && end.0 < d.Size() && (t.Node? <==> end.0 != 0)
      && e == Attach(Appended(d, name, isPref), end.0, end.1, d.Size())
    ensures var end := End(t, PrefixesOf(d, t), name, 0, Less); var p := d.Size();
            var t2 := Insert(t, PrefixesOf(d, t), name, p);
      && Ids(t2) == Ids(t) + {p} && PrefixesOf(e, t2) == PrefixesOf(d, t)[p := name]
      && Holds(e.link, e.rlink, if end.0 == 0 then p else root, t2) && Sorted(t2, PrefixesOf(e, t2))
  {
    hide Cmp, Sorted, Matches, StoredPrefix;
    var pre, end, p := PrefixesOf(d, t), End(t, PrefixesOf(d, t), name, 0, Less), d.Size();
    InsertIds(t, pre, name, p);
    InsertSorted(t, pre, name, p);
    if t.Node? {
      InsertHolds(d.link, d.rlink, e.link, e.rlink, root, t, pre, name, p, 0, Less);
    }
    AddedPrefixes(d, t, name, isPref, end.0, end.1, Insert(t, pre, name, p));
  }

  /** What an entry holding s, followed by the chain from q on, contributes to the name. */
  ghost function Here(d: Dir, own: Owners, s: string, q: nat): string
    requires Chained(d, own) && (q == 0 || IsPiece(q, own))
  {
    if More(s) then Piece(s) + Rest(d, own, q) else s
  }

  ghost predicate HereEnds(d: Dir, own: Owners, s: string, q: nat)
    requires Chained(d, own) && (q == 0 || IsPiece(q, own))
  {
    More(s) ==> Ends(d, own, q)
  }

  lemma NothingUsed(name: string, here: string)
    ensures name[..0] + here == here && name[0..] == name
  {
  }

  /** The last piece begins what is left of the name. */
  lemma AllUsed(name: string, used: nat, text: string, full: string)
    requires used <= |name| && text <= name[used..] && full == name[..used] + text
    ensures used + |text| == |full| && full <= name
  {
    assert name[used..][..|text|] == text;
    assert name[..used + |text|] == full;
  }

  lemma Advance(name: string, used: nat, text: string, here: string)
    requires used <= |name| && text <= name[used..] && text <= here
    ensures used + |text| <= |name| && name[used..][|text|..] == name[used + |text|..]
    ensures name[..used] + here == name[..used + |text|] + here[|text|..]
  {
    assert name[used..][..|text|] == text;
    assert name[..used + |text|] == name[..used] + text;
    assert here == text + here[|text|..];
  }

  lemma NodeStart(d: Dir, own: Owners, p: nat, name: string)
    requires Chained(d, own) && IsNode(p, own)
    ensures p < |d.bytes|
    ensures More(d.bytes[p]) ==>
              p + 1 < d.Size() && p + 1 < |d.link| && (d.link[p + 1] == 0 || IsPiece(d.link[p + 1], own))
    ensures var q := if More(d.bytes[p]) then d.link[p + 1] else 0;
      && FullName(d, own, p) == Here(d, own, d.bytes[p], q)
      && Complete(d, own, p) == HereEnds(d, own, d.bytes[p], q)
      && name == name[0..]
  {
    assert own[p] == p;
    assert More(d.bytes[p]) ==> IsPiece(p + 1, own);
  }

  /** One round of the loop of `section_name_cmp`: what the answer for this entry means. */
  lemma Round(d: Dir, own: Owners, s: string, q: nat, rest: string)
    requires Chained(d, own) && (q == 0 || (IsPiece(q, own) && More(s)))
    ensures q != 0 ==> q < |d.bytes| && q < |d.link|
    ensures var c := Cmp(rest, Piece(s)); var answer := Classify(Here(d, own, s, q), HereEnds(d, own, s, q), rest);
      && c != BadExtension
      && (c == Equal && q == 0 ==>
            answer == (if More(s) then Order.Extension else Equal) && Here(d, own, s, q) == rest == Piece(s))
      && (c == Equal && q != 0 ==> answer == (if d.bytes[q] == "" then Equal else Prefix))
      && (c == Order.Extension && !More(s) ==> answer == BadExtension)
      && (c == Order.Extension ==> Piece(s) <= rest && Piece(s) <= Here(d, own, s, q))
      && (c == Order.Extension && More(s) && q == 0 ==> answer == Order.Extension && Here(d, own, s, q) == Piece(s))
      && (c == Order.Extension && More(s) && q != 0 ==>
            var next := if More(d.bytes[q]) then d.link[q] else 0;
            && (next == 0 || (IsPiece(next, own) && next > q))
            && Here(d, own, s, q)[|Piece(s)|..] == Here(d, own, d.bytes[q], next)
            && answer ==
               Classify(Here(d, own, d.bytes[q], next), HereEnds(d, own, d.bytes[q], next), rest[|Piece(s)|..]))
      && (c != Equal && c != Order.Extension ==> answer == c && c != Order.Extension)
  {
    hide Cmp;
    var text := Piece(s);
    CmpMeaning(rest, text);
    if More(s) {
      var tail := Rest(d, own, q);
      if q != 0 {
        var next := if More(d.bytes[q]) then d.link[q] else 0;
        assert Rest(d, own, q) == Here(d, own, d.bytes[q], next) by { assert Rest(d, own, 0) == ""; }
        assert Ends(d, own, q) == HereEnds(d, own, d.bytes[q], next);
      }
      if text <= rest {
        ClassifyAppend(rest, text, tail, Ends(d, own, q));
        CmpMeaning(rest[|text|..], tail);
      } else {
        ClassifyHere(rest, text, tail, Ends(d, own, q));
      }
    }
  }

  lemma PieceOf(rest: string)
    ensures Piece(rest + " ") == rest && More(rest + " ") && (!More(rest) ==> Piece(rest) == rest)
  {
    assert (rest + " ")[..|rest|] == rest;
  }

  lemma LastStep(d: Dir, own: Owners, q: nat)
    requires Chained(d, own) && IsPiece(q, own)
    ensures d.link[q] == 0 ==> Last(d, own, q) == q
    ensures d.link[q] != 0 ==>
              q < d.link[q] < |d.link| && IsPiece(d.link[q], own) && Last(d, own, q) == Last(d, own, d.link[q])
  {
  }

  lemma ExtendedIs(d: Dir, own: Owners, p: nat, piece: string)
    requires Chained(d, own) && IsNode(p, own) && More(d.bytes[p])
    ensures p + 1 < |own| && IsPiece(p + 1, own)
    ensures var last := Last(d, own, p + 1);
      && last < |d.link|
      && ExtendedDir(d, own, p, piece)
         == Dir(d.bytes + [piece], d.link[last := d.Size()] + [0], d.rlink + [0], d.plen + [0])
  {
    assert own[p] == p;
  }

  /** An extended name, all others as they were. */
  lemma ExtendedValid(d: Dir, own: Owners, root: nat, t: Tree, p: nat, piece: string)
    requires ValidTable(d, own, root, t) && p in Ids(t) && !Complete(d, own, p) && (More(piece) ==> |piece| >= 2)
    ensures Chained(d, own) && p + 1 < |own| == |d.link| && IsNode(p, own) && More(d.bytes[p]) && IsPiece(p + 1, own)
    ensures var e := ExtendedDir(d, own, p, piece); var own2 := own + [p];
      && ValidTable(e, own2, root, t) && PrefixesOf(e, t) == PrefixesOf(d, t)
      && FullName(e, own2, p) == FullName(d, own, p) + Piece(piece) && (Complete(e, own2, p) <==> !More(piece))
      && forall x :: x in Ids(t) && x != p ==>
           FullName(e, own2, x) == FullName(d, own, x) && Complete(e, own2, x) == Complete(d, own, x)
  {
    hide FullName, Complete, Sorted, Matches, SameFor, Last, More, Piece, Chained, StoredPrefix;
    assert IsNode(p, own);
    ShapedOf(d, own);
    Unfinished(d, own, p);
    var e, own2 := ExtendedDir(d, own, p, piece), own + [p];
    NameExtended(d, own, p, piece);
    ExtendedChained(d, own, p, piece);
    ShapedOf(e, own2);
    forall x | x in Ids(t)
      ensures IsNode(x, own2) && e.bytes[x] == d.bytes[x] && e.plen[x] == d.plen[x]
      ensures e.link[x] == d.link[x] && e.rlink[x] == d.rlink[x]
      ensures x != p ==> FullName(e, own2, x) == FullName(d, own, x) && Complete(e, own2, x) == Complete(d, own, x)
    {
      assert IsNode(x, own);
      if x != p {
        NameSame(d, e, own, own2, x);
      }
    }
    SamePrefixes(d, e, t);
    HoldsSame(d.link, d.rlink, e.link, e.rlink, root, t);
  }

  lemma Unfinished(d: Dir, own: Owners, p: nat)
    requires Chained(d, own) && IsNode(p, own) && !Complete(d, own, p)
    ensures More(d.bytes[p]) && p + 1 < |own| && IsPiece(p + 1, own)
  {
    assert own[p] == p;
  }

  lemma SamePrefixes(d: Dir, e: Dir, t: Tree)
    requires Shaped(d) && Shaped(e) && d.Size() <= e.Size()
    requires forall x :: x in Ids(t) ==> x < d.Size() && e.bytes[x] == d.bytes[x] && e.plen[x] == d.plen[x]
    ensures PrefixesOf(e, t) == PrefixesOf(d, t)
  {
    forall x | x in Ids(t)
      ensures StoredPrefix(e, x) == StoredPrefix(d, x)
    {
    }
  }

  lemma ShortenedPrefixes(d: Dir, t: Tree, r: nat, name: string)
    requires Shaped(d) && r in Ids(t) && r < d.Size() && d.plen[r] <= |d.bytes[r]|
    requires name <= PrefixesOf(d, t)[r]
    ensures PrefixesOf(d.(plen := d.plen[r := |name|]), t) == PrefixesOf(d, t)[r := name]
  {
    var e := d.(plen := d.plen[r := |name|]);
    assert d.bytes[r][..|name|] == d.bytes[r][..d.plen[r]][..|name|];
    forall x | x in Ids(t)
      ensures StoredPrefix(e, x) == PrefixesOf(d, t)[r := name][x]
    {
      assert x == r || x >= d.Size() || e.plen[x] == d.plen[x];
    }
  }

  lemma CutInside(d: Dir, t: Tree, r: nat, name: string)
    requires r in Ids(t) && r < |d.plen| && r < |d.bytes| && name <= PrefixesOf(d, t)[r]
    ensures d.plen[r] <= |d.bytes[r]| ==> |name| <= d.plen[r]
  {
  }

  /** Cutting the stored prefix of the only match. */
  lemma ShortenedValid(d: Dir, own: Owners, root: nat, t: Tree, r: nat, name: string)
    requires ValidTable(d, own, root, t) && Matches(t, PrefixesOf(d, t), name) == {r} && r < |d.plen|
    requires r in Ids(t) && name <= PrefixesOf(d, t)[r]
    ensures var e := d.(plen := d.plen[r := |name|]);
      && ValidTable(e, own, root, t) && PrefixesOf(e, t) == PrefixesOf(d, t)[r := name]
      && forall x :: x in Ids(t) ==>
           FullName(e, own, x) == FullName(d, own, x) && Complete(e, own, x) == Complete(d, own, x)
  {
    hide FullName, Complete, Sorted, Holds, Cmp, PrefixesOf;
    var e := d.(plen := d.plen[r := |name|]);
    ShortenSorted(t, PrefixesOf(d, t), r, name);
    CutInside(d, t, r, name);
    ShortenedPrefixes(d, t, r, name);
    forall x | x in Ids(t)
      ensures FullName(e, own, x) == FullName(d, own, x) && Complete(e, own, x) == Complete(d, own, x)
    {
      NameSame(d, e, own, own, x);
    }
  }
}
