/** CWEAVE's cross-reference memory: one pool of nodes in which every name has a list. */
module Xrefs {
  import opened XrefLaws

  /** What footnotes and the index print. */
  datatype Piece = Letter(flag: nat) | Plural | SectionOf(n: nat) | Comma | And(plural: bool) | Underline(n: nat) | Stop

  function At(s: seq<nat>, k: nat): nat {
    if k < |s| then s[k] else 0
  }

  predicate LinkOk(link: seq<nat>, s: seq<nat>, k: nat)
    requires k < |s|
  {
    0 < s[k] < |link| && link[s[k]] == At(s, k + 1)
  }

  /** The list of nodes s starts at `head`; node 0 (`xmem`) ends it. The nodes are all
      different and belong to name p. */
  ghost predicate ListOk(link: seq<nat>, head: nat, s: seq<nat>, at: seq<int>, p: nat) {
    && head == At(s, 0) && |link| == |at|
    && (forall k :: 0 <= k < |s| ==> LinkOk(link, s, k))
    && (forall k :: 0 <= k < |s| ==> s[k] < |at| && at[s[k]] == p)
    && (forall i, j :: 0 <= i < j < |s| ==> s[i] != s[j])
  }

  ghost predicate AllLists(link: seq<nat>, heads: seq<nat>, nodes: seq<seq<nat>>, at: seq<int>) {
    && |heads| == |nodes| && |link| == |at|
    && forall p :: 0 <= p < |heads| ==> ListOk(link, heads[p], nodes[p], at, p)
  }

  /** The numbers in a list. */
  ghost function Nums(num: seq<nat>, s: seq<nat>): (r: seq<nat>)
    ensures |r| == |s| && forall k :: 0 <= k < |s| ==> r[k] == At(num, s[k])
  {
    seq(|s|, k requires 0 <= k < |s| => At(num, s[k]))
  }

  /** The numbers in all lists but that of p. */
  ghost function OthersOf(num: seq<nat>, nodes: seq<seq<nat>>, p: nat): seq<seq<nat>> {
    seq(|nodes|, q requires 0 <= q < |nodes| => if q == p then [] else Nums(num, nodes[q]))
  }

  /** Changes to the nodes of p, and new nodes, leave other lists alone. */
  lemma Frame(num: seq<nat>, link: seq<nat>, heads: seq<nat>, nodes: seq<seq<nat>>, at: seq<int>, p: nat,
              num2: seq<nat>, link2: seq<nat>, heads2: seq<nat>, nodes2: seq<seq<nat>>, at2: seq<int>)
    requires AllLists(link, heads, nodes, at) && |num| == |link| <= |num2| == |link2| == |at2| && p < |heads|
    requires forall x :: 0 <= x < |at| && at[x] != p ==> num2[x] == num[x] && link2[x] == link[x] && at2[x] == at[x]
    requires |heads2| == |heads| == |nodes2|
    requires forall q :: 0 <= q < |heads| && q != p ==> heads2[q] == heads[q] && nodes2[q] == nodes[q]
    requires ListOk(link2, heads2[p], nodes2[p], at2, p)
    ensures AllLists(link2, heads2, nodes2, at2)
    ensures OthersOf(num2, nodes2, p) == OthersOf(num, nodes, p)
  {
    forall q | 0 <= q < |heads| && q != p
      ensures ListOk(link2, heads2[q], nodes2[q], at2, q) && Nums(num2, nodes[q]) == Nums(num, nodes[q])
    {
      assert ListOk(link, heads[q], nodes[q], at, q);
      forall k | 0 <= k < |nodes[q]|
        ensures LinkOk(link2, nodes[q], k)
      {
        assert LinkOk(link, nodes[q], k);
      }
    }
  }

  lemma PrependOk(num: seq<nat>, link: seq<nat>, head: nat, s: seq<nat>, at: seq<int>, p: nat, m: nat)
    requires ListOk(link, head, s, at, p) && 1 <= |link| == |num|
    ensures ListOk(link + [head], |link|, [|link|] + s, at + [p as int], p)
    ensures Nums(num + [m], [|link|] + s) == [m] + Nums(num, s)
  {
    var t := [|link|] + s;
    forall k | 0 <= k < |t|
      ensures LinkOk(link + [head], t, k)
    {
      if k > 0 {
        assert LinkOk(link, s, k - 1);
      }
    }
    forall k | 0 <= k < |t|
      ensures At(num + [m], t[k]) == ([m] + Nums(num, s))[k]
    {
      if k > 0 {
        assert LinkOk(link, s, k - 1);
      }
    }
  }

  /** A new node with number m at place j of a list. */
  lemma InsertOk(link: seq<nat>, head: nat, s: seq<nat>, at: seq<int>, p: nat, j: nat)
    requires ListOk(link, head, s, at, p) && 1 <= |link| && j <= |s|
    ensures j > 0 ==> s[j - 1] < |link|
    ensures var link2 := (if j == 0 then link else link[s[j - 1] := |link|]) + [At(s, j)];
            ListOk(link2, if j == 0 then |link| else head, s[..j] + [|link|] + s[j..], at + [p as int], p)
  {
    assert j > 0 ==> LinkOk(link, s, j - 1);
    var t := s[..j] + [|link|] + s[j..];
    var link2 := (if j == 0 then link else link[s[j - 1] := |link|]) + [At(s, j)];
    forall k | 0 <= k < |t|
      ensures LinkOk(link2, t, k)
    {
      InsertLink(link, head, s, at, p, j, k);
    }
    forall k | 0 <= k < |t|
      ensures t[k] < |at| + 1 && (at + [p as int])[t[k]] == p
    {
      assert k < j ==> t[k] == s[k];
      assert k > j ==> t[k] == s[k - 1];
    }
  }

  lemma InsertLink(link: seq<nat>, head: nat, s: seq<nat>, at: seq<int>, p: nat, j: nat, k: nat)
    requires ListOk(link, head, s, at, p) && 1 <= |link| && j <= |s| && k <= |s|
    ensures j > 0 ==> s[j - 1] < |link|
    ensures var link2 := (if j == 0 then link else link[s[j - 1] := |link|]) + [At(s, j)];
            LinkOk(link2, s[..j] + [|link|] + s[j..], k)
  {
    assert j > 0 ==> LinkOk(link, s, j - 1);
    if k < j {
      assert LinkOk(link, s, k);
    } else if k > j {
      assert LinkOk(link, s, k - 1);
    }
  }

  lemma InsertNums(num: seq<nat>, s: seq<nat>, m: nat, j: nat)
    requires j <= |s| && forall k :: 0 <= k < |s| ==> s[k] < |num|
    ensures Nums(num + [m], s[..j] + [|num|] + s[j..]) == Nums(num, s)[..j] + [m] + Nums(num, s)[j..]
  {
  }

  /** Place i of a list is taken out. */
  lemma RemoveOk(num: seq<nat>, link: seq<nat>, head: nat, s: seq<nat>, at: seq<int>, p: nat, i: nat)
    requires ListOk(link, head, s, at, p) && |link| == |num| && i < |s|
    ensures i > 0 ==> s[i - 1] < |link|
    ensures var link2 := if i == 0 then link else link[s[i - 1] := At(s, i + 1)];
            ListOk(link2, if i == 0 then At(s, 1) else head, s[..i] + s[i + 1..], at, p)
    ensures Nums(num, s[..i] + s[i + 1..]) == Nums(num, s)[..i] + Nums(num, s)[i + 1..]
  {
    if i > 0 {
      assert LinkOk(link, s, i - 1);
    }
    var t := s[..i] + s[i + 1..];
    var link2 := if i == 0 then link else link[s[i - 1] := At(s, i + 1)];
    forall k | 0 <= k < |t|
      ensures LinkOk(link2, t, k)
    {
      assert LinkOk(link, s, if k < i then k else k + 1);
    }
  }

  /** One number of a list is changed. */
  lemma SetNum(num: seq<nat>, link: seq<nat>, head: nat, s: seq<nat>, at: seq<int>, p: nat, i: nat, v: nat)
    requires ListOk(link, head, s, at, p) && |link| == |num| && i < |s|
    ensures s[i] < |num| && Nums(num[s[i] := v], s) == Nums(num, s)[i := v]
  {
  }

  lemma WithXrefCases(vs: seq<nat>, m: nat)
    ensures vs == [] ==> WithXref(vs, m) == [m] + vs
    ensures vs != [] ==>
              WithXref(vs, m) == if vs[0] == m || vs[0] == m + DEF_FLAG then vs
                                 else if m == vs[0] + DEF_FLAG then vs[0 := m] else [m] + vs
  {
    assert vs != [] ==> vs[0 := m] == [m] + vs[1..];
  }

  class Table {
    var num: seq<nat>
    var xlink: seq<nat>
    var xref: seq<nat>           // where each name's list starts
    var sectionCount: nat
    var xrefSwitch: nat
    var sectionXrefSwitch: nat
    var noXref: bool
    var curXref: nat
    var out: seq<Piece>
    ghost var nodes: seq<seq<nat>>
    ghost var at: seq<int>

    /** Names without cross-references; node 0 ends every list. */
    constructor (names: nat)
      ensures Valid() && |xref| == names && forall p :: 0 <= p < names ==> Values(p) == []
      ensures sectionCount == 0 && xrefSwitch == 0 && sectionXrefSwitch == 0 && !noXref && out == []
    {
      num, xlink, xref := [0], [0], seq(names, _ => 0);
      sectionCount, xrefSwitch, sectionXrefSwitch, noXref, curXref, out := 0, 0, 0, false, 0, [];
      nodes, at := seq(names, _ => []), [-1];
    }

    ghost predicate Valid()
      reads `num, `xlink, `xref, `nodes, `at
    {
      1 <= |num| == |xlink| && num[0] == 0 && |xref| == |nodes| && AllLists(xlink, xref, nodes, at)
    }

    /** The cross-references of name p. */
    ghost function Values(p: nat): seq<nat>
      requires p < |nodes|
      reads `num, `nodes
    {
      Nums(num, nodes[p])
    }

    /** All other names keep theirs. */
    twostate predicate OnlyChanged(p: nat)
      reads `num, `nodes, `xref
    {
      |xref| == old(|xref|) && OthersOf(num, nodes, p) == old(OthersOf(num, nodes, p))
    }

    /** A new node in front of the list of p. */
    method Prepend(p: nat, m: nat)
      requires Valid() && p < |xref|
      modifies `num, `xlink, `xref, `nodes, `at
      ensures Valid() && OnlyChanged(p)
      ensures num == old(num) + [m] && xlink == old(xlink) + [old(xref[p])] && xref == old(xref)[p := old(|num|)]
      ensures nodes == old(nodes)[p := [old(|num|)] + old(nodes)[p]] && Values(p) == [m] + old(Values(p))
    {
      hide ListOk, OthersOf, Nums;
      PrependOk(num, xlink, xref[p], nodes[p], at, p, m);
      num, xlink, at := num + [m], xlink + [xref[p]], at + [p as int];
      xref := xref[p := |num| - 1];
      nodes := nodes[p := [|num| - 1] + nodes[p]];
      Frame(old(num), old(xlink), old(xref), old(nodes), old(at), p, num, xlink, xref, nodes, at);
    }

    /** `new_xref`; `skip` says that only definitions of p are indexed. */
    method NewXref(p: nat, skip: bool)
      requires Valid() && p < |xref| && (xrefSwitch == 0 || xrefSwitch == DEF_FLAG)
      modifies this
      ensures Valid() && OnlyChanged(p) && sectionCount == old(sectionCount)
      ensures var ignored := noXref || (skip && old(xrefSwitch) == 0);
              && Values(p) ==
                 (if ignored then old(Values(p)) else WithXref(old(Values(p)), sectionCount + old(xrefSwitch)))
              && xrefSwitch == if ignored then old(xrefSwitch) else 0
    {
      hide ListOk, OthersOf, Nums, AllLists, WithXref;
      if noXref {
        return;
      }
      if skip && xrefSwitch == 0 {
        return;
      }
      var m := sectionCount + xrefSwitch;
      xrefSwitch := 0;
      Record(p, m);
    }

    /** m goes to the front of the list of p, unless the entry there makes it unnecessary or is changed to it. */
    method Record(p: nat, m: nat)
      requires Valid() && p < |xref|
      modifies `num, `xlink, `xref, `nodes, `at
      ensures Valid() && OnlyChanged(p) && Values(p) == WithXref(old(Values(p)), m)
    {
      hide ListOk, OthersOf, Nums, AllLists, WithXref;
      var q := xref[p];
      NodeAt(p, 0);
      WithXrefCases(Values(p), m);
      if q != 0 {
        var n := num[q];
        if n == m || n == m + DEF_FLAG {
          return;
        } else if m == n + DEF_FLAG {
          Put(p, q, m, 0);
          return;
        }
      }
      Prepend(p, m);
    }

    /** Place j of the list of p. */
    lemma NodeAt(p: nat, j: nat)
      requires Valid() && p < |xref| && j <= |nodes[p]|
      ensures var q := At(nodes[p], j);
              && |Values(p)| == |nodes[p]| && (q == 0 <==> j == |nodes[p]|)
              && q < |num| == |xlink| && num[q] == At(Values(p), j)
              && (q != 0 ==> xlink[q] == At(nodes[p], j + 1) && at[q] == p)
      ensures xref[p] == At(nodes[p], 0)
    {
      assert ListOk(xlink, xref[p], nodes[p], at, p);
      if j < |nodes[p]| {
        assert LinkOk(xlink, nodes[p], j);
      }
    }

    /** A new node for m behind node r, or in front if r is 0, at place j. */
    method Insert(p: nat, m: nat, q: nat, r: nat, ghost j: nat)
      requires Valid() && p < |xref| && j <= |nodes[p]| && q == At(nodes[p], j)
      requires r == if j == 0 then 0 else nodes[p][j - 1]
      modifies `num, `xlink, `xref, `nodes, `at
      ensures Valid() && OnlyChanged(p)
      ensures Values(p) == old(Values(p))[..j] + [m] + old(Values(p))[j..]
    {
      hide ListOk, OthersOf, Nums;
      if j > 0 {
        NodeAt(p, j - 1);
      }
      InsertOk(xlink, xref[p], nodes[p], at, p, j);
      InRange(p);
      InsertNums(num, nodes[p], m, j);
      var node := |num|;
      num, xlink, at := num + [m], xlink + [q], at + [p as int];
      if r == 0 {
        xref := xref[p := node];
      } else {
        xlink := xlink[r := node];
      }
      nodes := nodes[p := nodes[p][..j] + [node] + nodes[p][j..]];
      assert j > 0 ==> xlink == old(xlink)[old(nodes)[p][j - 1] := node] + [q];
      Frame(old(num), old(xlink), old(xref), old(nodes), old(at), p, num, xlink, xref, nodes, at);
    }

    lemma InRange(p: nat)
      requires Valid() && p < |xref|
      ensures forall k :: 0 <= k < |nodes[p]| ==> nodes[p][k] < |num|
    {
    }

    /** The first node that is not above the flag, and the node before it. */
    method Above(p: nat, flag: nat) returns (q: nat, r: nat, ghost j: nat)
      requires Valid() && p < |xref|
      ensures j <= |nodes[p]| == |Values(p)| && q == At(nodes[p], j)
      ensures r == (if j == 0 then 0 else nodes[p][j - 1]) && r < |num|
      ensures num[r] == if j == 0 then 0 else Values(p)[j - 1]
      ensures (forall k :: 0 <= k < j ==> Values(p)[k] > flag) && (j < |nodes[p]| ==> Values(p)[j] <= flag)
    {
      hide ListOk, OthersOf, Nums;
      j := 0;
      q, r := xref[p], 0;
      NodeAt(p, 0);
      while num[q] > flag
        invariant j <= |nodes[p]| == |Values(p)| && q == At(nodes[p], j) < |num|
        invariant r == (if j == 0 then 0 else nodes[p][j - 1]) && r < |num|
        invariant num[q] == At(Values(p), j) && num[r] == if j == 0 then 0 else Values(p)[j - 1]
        invariant forall k :: 0 <= k < j ==> Values(p)[k] > flag
        decreases |nodes[p]| - j
        modifies {}
      {
        NodeAt(p, j);
        r := q;
        q := xlink[q];
        j := j + 1;
        NodeAt(p, j);
      }
      NodeAt(p, j);
    }

    /** `new_section_xref`. The switch is turned off only when an entry is added. */
    method NewSectionXref(p: nat)
      requires Valid() && p < |xref| && 0 < sectionCount
      modifies this
      ensures Valid() && OnlyChanged(p) && sectionCount == old(sectionCount)
      ensures var flag := old(sectionXrefSwitch);
              && Values(p) == Inserted(old(Values(p)), sectionCount + flag, flag)
              && sectionXrefSwitch == if Values(p) == old(Values(p)) then flag else 0
      ensures forall g :: 1 <= g <= 3 && old(sectionXrefSwitch) == Flag(g) && sectionCount < CITE_FLAG
                          && InOrder(old(Values(p))) && Entries(old(Values(p)), sectionCount) ==>
                sectionXrefSwitch == if sectionCount + Flag(g) in old(Values(p)) then Flag(g) else 0
    {
      hide ListOk, OthersOf, Nums, Inserted, Entries, InOrder, Flag;
      forall g | 1 <= g <= 3 && sectionXrefSwitch == Flag(g) && sectionCount < CITE_FLAG
                 && InOrder(Values(p)) && Entries(Values(p), sectionCount)
        ensures Inserted(Values(p), sectionCount + sectionXrefSwitch, sectionXrefSwitch) == Values(p)
                <==> sectionCount + Flag(g) in Values(p)
      {
        InsertedSame(Values(p), g, sectionCount);
      }
      var q, r, j := Above(p, sectionXrefSwitch);
      InsertedAt(Values(p), sectionCount + sectionXrefSwitch, sectionXrefSwitch, j);
      if num[r] == sectionCount + sectionXrefSwitch {
        return;
      }
      Insert(p, sectionCount + sectionXrefSwitch, q, r, j);
      sectionXrefSwitch := 0;
    }

    /** `set_file_flag`. */
    method SetFileFlag(p: nat)
      requires Valid() && p < |xref|
      modifies `num, `xlink, `xref, `nodes, `at
      ensures Valid() && OnlyChanged(p) && Values(p) == WithFile(old(Values(p)))
    {
      hide ListOk, OthersOf, Nums;
      NodeAt(p, 0);
      var q := xref[p];
      if num[q] == FILE_FLAG {
        return;
      }
      Prepend(p, FILE_FLAG);
    }

    /** Node q at place i, behind r, is taken out. */
    method Remove(p: nat, q: nat, r: nat, ghost i: nat)
      requires Valid() && p < |xref| && i < |nodes[p]| && q == nodes[p][i]
      requires r == if i == 0 then 0 else nodes[p][i - 1]
      modifies `xlink, `xref, `nodes
      ensures Valid() && OnlyChanged(p)
      ensures nodes[p] == old(nodes[p])[..i] + old(nodes[p])[i + 1..]
      ensures Values(p) == old(Values(p))[..i] + old(Values(p))[i + 1..]
      ensures q < |xlink| && xlink[q] == At(nodes[p], i)
    {
      hide ListOk, OthersOf, Nums;
      NodeAt(p, i);
      NodeAt(p, i + 1);
      RemoveOk(num, xlink, xref[p], nodes[p], at, p, i);
      if i > 0 {
        NodeAt(p, i - 1);
        Different(p, i - 1, i);
      }
      if r != 0 {
        xlink := xlink[r := xlink[q]];
      } else {
        xref := xref[p := xlink[q]];
      }
      nodes := nodes[p := nodes[p][..i] + nodes[p][i + 1..]];
      Frame(num, old(xlink), old(xref), old(nodes), at, p, num, xlink, xref, nodes, at);
    }

    lemma Different(p: nat, i: nat, j: nat)
      requires Valid() && p < |xref| && i < j < |nodes[p]|
      ensures nodes[p][i] != nodes[p][j]
    {
    }

    /** The uses of a name that a format command makes unindexed are dropped. */
    method DropUses(p: nat)
      requires Valid() && p < |xref|
      modifies `xlink, `xref, `nodes
      ensures Valid() && OnlyChanged(p) && Values(p) == Definitions(old(Values(p)))
    {
      hide ListOk, OthersOf, Nums, Definitions, AllLists, Valid, Values;
      ListOf(p);
      ghost var i := 0;
      var q, r := xref[p], 0;
      NodeAt(p, 0);
      assert [] + Definitions(Values(p)) == Definitions(Values(p)) && Values(p)[0..] == Values(p);
      while q != 0
        invariant Valid() && OnlyChanged(p) && p < |nodes|
        invariant i <= |nodes[p]| && q == At(nodes[p], i) && r == if i == 0 then 0 else nodes[p][i - 1]
        invariant |Values(p)| == |nodes[p]|
        invariant Values(p)[..i] + Definitions(Values(p)[i..]) == Definitions(old(Values(p)))
        decreases |nodes[p]| - i
        modifies `xlink, `xref, `nodes
      {
        NodeAt(p, i);
        ghost var vs := Values(p);
        DefinitionsStep(vs, i);
        if num[q] < DEF_FLAG {
          Remove(p, q, r, i);
          ListOf(p);
          assert Values(p)[..i] == vs[..i] && Values(p)[i..] == vs[i + 1..];
        } else {
          r := q;
          i := i + 1;
          assert vs[..i] == vs[..i - 1] + [vs[i - 1]];
        }
        q := xlink[q];
        NodeAt(p, i);
      }
      NodeAt(p, i);
      DefinitionsStep(Values(p), i);
      assert Values(p)[..i] + [] == Values(p);
    }

    /** The node at which `underline_xref` stops. */
    method Search(p: nat, m: nat) returns (q: nat, ghost j: nat)
      requires Valid() && p < |xref|
      ensures j <= |nodes[p]| == |Values(p)| && q == At(nodes[p], j) < |num| && num[q] == At(Values(p), j)
      ensures q == 0 <==> j == |nodes[p]|
      ensures forall k :: 0 <= k < j ==> !Stops(Values(p)[k], m)
      ensures j < |nodes[p]| ==> Stops(Values(p)[j], m) && at[q] == p
    {
      hide ListOk, OthersOf, Nums;
      j := 0;
      q := xref[p];
      NodeAt(p, 0);
      while q != 0
        invariant j <= |nodes[p]| == |Values(p)| && q == At(nodes[p], j) < |num| && num[q] == At(Values(p), j)
        invariant q == 0 <==> j == |nodes[p]|
        invariant forall k :: 0 <= k < j ==> !Stops(Values(p)[k], m)
        decreases |nodes[p]| - j
        modifies {}
      {
        NodeAt(p, j);
        var n := num[q];
        if n == m {
          return;
        } else if m == n + DEF_FLAG {
          return;
        } else if n >= DEF_FLAG && n < m {
          return;
        }
        q := xlink[q];
        j := j + 1;
        NodeAt(p, j);
      }
    }

    /** Number v at place i of the list of p. */
    method Put(p: nat, r: nat, v: nat, ghost i: nat)
      requires Valid() && p < |xref| && i < |nodes[p]| && r == nodes[p][i]
      modifies `num
      ensures Valid() && OnlyChanged(p) && Values(p) == old(Values(p))[i := v]
    {
      hide ListOk, OthersOf, Nums;
      NodeAt(p, i);
      OwnList(p);
      SetNum(num, xlink, xref[p], nodes[p], at, p, i, v);
      num := num[r := v];
      Frame(old(num), xlink, xref, nodes, at, p, num, xlink, xref, nodes, at);
    }

    lemma OwnList(p: nat)
      requires Valid() && p < |xref|
      ensures ListOk(xlink, xref[p], nodes[p], at, p)
    {
    }

    /** The numbers between the first node and node q move up by one node; r is the node
        before q. */
    method MoveUp(p: nat, q: nat, ghost j: nat) returns (r: nat)
      requires Valid() && p < |xref| && j < |nodes[p]| && q == At(nodes[p], j + 1)
      modifies `num
      ensures Valid() && OnlyChanged(p) && r == nodes[p][j] && |Values(p)| == |nodes[p]|
      ensures Values(p)[..j] == old(Values(p))[1..j + 1] && Values(p)[j + 1..] == old(Values(p))[j + 1..]
    {
      hide ListOk, OthersOf, Nums, AllLists;
      ghost var i, us := 0, Values(p);
      r := xref[p];
      NodeAt(p, 0);
      while xlink[r] != q
        invariant Valid() && OnlyChanged(p) && |Values(p)| == |us| == |nodes[p]|
        invariant i <= j && r == nodes[p][i] < |xlink| && xlink[r] == At(nodes[p], i + 1)
        invariant Values(p)[..i] == us[1..i + 1] && Values(p)[i + 1..] == us[i + 1..]
        decreases j - i
        modifies `num
      {
        assert i < j;
        NodeAt(p, i + 1);
        MoveStep(Values(p), us, i);
        Put(p, r, num[xlink[r]], i);
        r := xlink[r];
        i := i + 1;
        NodeAt(p, i);
      }
      SamePlace(p, i + 1, j + 1);
    }

    /** A new first node; the numbers before node q move up by one node, and m takes the place
        that becomes free. */
    method Shift(p: nat, q: nat, m: nat, ghost j: nat)
      requires Valid() && p < |xref| && j <= |nodes[p]| && q == At(nodes[p], j)
      modifies `num, `xlink, `xref, `nodes, `at
      ensures Valid() && OnlyChanged(p)
      ensures Values(p) == old(Values(p))[..j] + [m] + old(Values(p))[j..]
    {
      hide ListOk, OthersOf, Nums, AllLists, Valid, Values;
      ListOf(p);
      ghost var vs := Values(p);
      Prepend(p, 0);
      var r := MoveUp(p, q, j);
      ghost var before := Values(p);
      Put(p, r, m, j);
      assert ([0] + vs)[1..j + 1] == vs[..j] && ([0] + vs)[j + 1..] == vs[j..];
      assert Values(p) == before[..j] + [m] + before[j + 1..];
    }

    lemma SamePlace(p: nat, i: nat, j: nat)
      requires Valid() && p < |xref| && i <= |nodes[p]| && j <= |nodes[p]|
      ensures At(nodes[p], i) == At(nodes[p], j) <==> i == j
    {
      NodeAt(p, i);
      NodeAt(p, j);
    }

    /** `underline_xref`. */
    method UnderlineXref(p: nat)
      requires Valid() && p < |xref|
      modifies `num, `xlink, `xref, `nodes, `at
      ensures Valid() && OnlyChanged(p)
      ensures Values(p) == if noXref then old(Values(p)) else Underlined(old(Values(p)), sectionCount + xrefSwitch)
    {
      hide ListOk, OthersOf, Nums, Underlined;
      if noXref {
        return;
      }
      var m := sectionCount + xrefSwitch;
      var q, j := Search(p, m);
      UnderlinedAt(Values(p), m, j);
      if q != 0 {
        if num[q] == m {
          return;
        } else if m == num[q] + DEF_FLAG {
          Put(p, q, m, j);
          return;
        }
      }
      Shift(p, q, m, j);
    }

    /** `footnote`: the entries of one group, from the cursor on; the cursor is left behind them. */
    method Footnote(flag: nat, p: nat, ghost j: nat) returns (ghost k: nat)
      requires Valid() && p < |xref| && j <= |nodes[p]| && curXref == At(nodes[p], j)
      modifies `out, `curXref
      ensures j <= k <= |nodes[p]| == |Values(p)| && curXref == At(nodes[p], k)
      ensures Values(p)[j..k] == Front(Values(p)[j..], flag) && Values(p)[k..] == Back(Values(p)[j..], flag)
      ensures AllAbove(Values(p)[j..k], flag) && out == old(out) + FootText(Values(p)[j..k], flag)
    {
      hide ListOk, Nums, AllLists, At, FootFrom, FootText, Front, Back, Valid, Values, AllAbove;
      ListOf(p);
      FrontEnd(Values(p), j, flag);
      ghost var e := j + |Front(Values(p)[j..], flag)|;
      ghost var g := Values(p)[j..e];
      Cursor(p, j, flag, e);
      FootStart(g, flag, out);
      k := j;
      if num[curXref] <= flag {
        return;
      }
      out := out + [Letter(flag)];
      Cursor(p, j + 1, flag, e);
      if num[xlink[curXref]] > flag {
        out := out + [Plural];
      }
      k := FootEntries(flag, p, j, e, g);
      out := out + [Stop];
    }

    /** The loop of `footnote`: the entries of group g, from the cursor on. */
    method FootEntries(flag: nat, p: nat, ghost j: nat, ghost e: nat, ghost g: seq<nat>) returns (ghost k: nat)
      requires Valid() && p < |xref| && p < |nodes| && j < e <= |nodes[p]| == |Values(p)| && curXref == At(nodes[p], j)
      requires g == Values(p)[j..e] && AllAbove(g, flag) && (e < |Values(p)| ==> Values(p)[e] <= flag)
      requires forall i :: j <= i < e ==> Values(p)[i] > flag
      modifies `out, `curXref
      ensures k == e && curXref == At(nodes[p], k) && out + [Stop] == old(out) + FootFrom(g, 0, flag)
    {
      hide ListOk, Nums, AllLists, At, FootFrom, Valid, Values, AllAbove;
      var q := curXref;
      Cursor(p, j, flag, e);
      Cursor(p, j + 1, flag, e);
      k := j;
      while true
        invariant j <= k < e && curXref == At(nodes[p], k)
        invariant out + FootFrom(g, k - j, flag) == old(out) + FootFrom(g, 0, flag)
        decreases e - k
        modifies `out, `curXref
      {
        Cursor(p, k, flag, e);
        FootStep(g, k - j, flag, out);
        out := out + [SectionOf(num[curXref] - flag)];
        curXref := xlink[curXref];
        k := k + 1;
        Cursor(p, k, flag, e);
        if num[curXref] <= flag {
          break;
        }
        Cursor(p, k + 1, flag, e);
        SamePlace(p, k, j + 1);
        if num[xlink[curXref]] > flag {
          out := out + [Comma];
        } else {
          out := out + [And(curXref != xlink[q])];
        }
      }
    }

    /** The cursor goes behind the file flag and the first definition of p, which is this
        section's own. */
    method SkipOwn(p: nat) returns (ghost j: nat)
      requires Valid() && p < |xref|
      modifies `curXref
      ensures j <= |nodes[p]| == |Values(p)| && curXref == At(nodes[p], j)
      ensures Values(p)[j..] == SkipFirst(SkipFile(Values(p)))
    {
      hide ListOk, Nums, AllLists;
      j := 0;
      NodeAt(p, 0);
      curXref := xref[p];
      if num[curXref] == FILE_FLAG {
        curXref := xlink[curXref];
        j := 1;
      }
      NodeAt(p, j);
      assert Values(p)[j..] == SkipFile(Values(p));
      if num[curXref] > DEF_FLAG {
        curXref := xlink[curXref];
        j := j + 1;
      }
    }

    /** The footnotes at the end of a section: its name's other definitions, its citations and
        its uses, all of them and each once. */
    method SectionFootnotes(p: nat, ghost c: nat)
      requires Valid() && p < |xref| && InOrder(Values(p)) && Entries(Values(p), c) && c < CITE_FLAG
      modifies `out, `curXref
      ensures out == old(out) + Notes(Values(p), c)
    {
      hide ListOk, Nums, AllLists, Front, Back, OfGroup, FootText, Entries, InOrder, SkipFirst, SkipFile;
      ghost var j := SkipOwn(p);
      ghost var vs := Values(p);
      NotesFrom(vs, c, j);
      ghost var k1 := Footnote(DEF_FLAG, p, j);
      FrontIsGroup(vs[j..], 1, c);
      ghost var k2 := Footnote(CITE_FLAG, p, k1);
      FrontIsGroup(vs[k1..], 2, c);
      ghost var k3 := Footnote(0, p, k2);
      FrontIsGroup(vs[k2..], 3, c);
    }

    /** The list of p is turned around in place; p keeps its first node only, and the cursor
        is at the last, from where the links go back. */
    method TurnAround(p: nat)
      requires Valid() && p < |xref| && nodes[p] != []
      modifies `xlink, `curXref, `nodes
      ensures Valid() && OnlyChanged(p) && |xlink| == old(|xlink|)
      ensures ListOk(xlink, curXref, Turned(old(nodes)[p]), at, p) && curXref == Turned(old(nodes)[p])[0]
    {
      hide ListOk, OthersOf, Nums, AllLists, At, HalfTurned;
      ghost var s, i, link0 := nodes[p], 0, xlink;
      OwnList(p);
      NodeAt(p, 0);
      NothingTurned(xlink, xref[p], s, at, p);
      var q := xref[p];
      curXref := 0;
      while q != 0
        invariant i <= |s| && q == At(s, i) && curXref == (if i == 0 then 0 else s[i - 1])
        invariant |xlink| == |link0| && HalfTurned(xlink, link0, s, i)
        invariant forall x :: 0 <= x < |at| && at[x] != p ==> xlink[x] == link0[x]
        decreases |s| - i
        modifies `xlink, `curXref
      {
        HalfStep(xlink, link0, xref[p], s, at, p, i);
        var next := xlink[q];
        xlink := xlink[q := curXref];
        curXref := q;
        q := next;
        i := i + 1;
      }
      HalfStep(xlink, link0, xref[p], s, at, p, i);
      TurnedOk(xlink, link0, xref[p], s, at, p);
      nodes := nodes[p := [s[0]]];
      Frame(num, link0, xref, old(nodes), at, p, num, xlink, xref, nodes, at);
    }

    /** The index entry of p: its sections, from the list turned around. */
    method IndexEntry(p: nat)
      requires Valid() && p < |xref| && nodes[p] != []
      modifies `out, `curXref, `xlink, `nodes
      ensures Valid() && OnlyChanged(p)
      ensures out == old(out) + IndexText(Turned(old(Values(p))))
    {
      hide ListOk, OthersOf, Nums, AllLists, IndexText;
      ghost var t, k := Turned(nodes[p]), 0;
      ghost var vs := Turned(Values(p));
      TurnAround(p);
      TurnedNums(num, old(nodes)[p]);
      IndexStep(vs, 0, out);
      while true
        invariant Valid() && OnlyChanged(p)
        invariant k < |vs| == |t| && curXref == t[k] && out + IndexText(vs[k..]) == old(out) + IndexText(vs)
        decreases |vs| - k
        modifies `out, `curXref
      {
        Turning(num, xlink, t, at, p, k);
        IndexStep(vs, k, out);
        out := out + [Comma];
        var val := num[curXref];
        if val < DEF_FLAG {
          out := out + [SectionOf(val)];
        } else {
          out := out + [Underline(val - DEF_FLAG)];
        }
        curXref := xlink[curXref];
        k := k + 1;
        if curXref == 0 {
          break;
        }
      }
      IndexStep(vs, k, out);
      out := out + [Stop];
    }

    lemma ListOf(p: nat)
      requires Valid() && p < |xref|
      ensures p < |nodes| && |Values(p)| == |nodes[p]|
    {
    }

    /** What the cursor sees at place k, if the entries above the flag end at e. */
    lemma Cursor(p: nat, k: nat, flag: nat, e: nat)
      requires Valid() && p < |xref| && p < |nodes| && k <= e <= |Values(p)|
      requires k < e ==> Values(p)[k] > flag
      requires e < |Values(p)| ==> Values(p)[e] <= flag
      ensures |nodes[p]| == |Values(p)| && |xlink| == |num|
      ensures At(nodes[p], k) < |num| && (num[At(nodes[p], k)] > flag <==> k < e)
      ensures k < e ==> num[At(nodes[p], k)] == Values(p)[k] && xlink[At(nodes[p], k)] == At(nodes[p], k + 1)
    {
      NodeAt(p, k);
    }
  }

  predicate AllAbove(g: seq<nat>, flag: nat) {
    forall k :: 0 <= k < |g| ==> g[k] > flag
  }

  /** The numbers g of a group, with "s" if there are several, commas between, and "and" before the last. */
  function FootText(g: seq<nat>, flag: nat): seq<Piece>
    requires AllAbove(g, flag)
  {
    if g == [] then [] else [Letter(flag)] + (if |g| > 1 then [Plural] else []) + FootFrom(g, 0, flag)
  }

  function FootFrom(g: seq<nat>, i: nat, flag: nat): seq<Piece>
    requires AllAbove(g, flag) && i < |g|
    decreases |g| - i
  {
    [SectionOf(g[i] - flag)] +
    (if i + 1 == |g| then [Stop]
     else [if i + 2 < |g| then Comma else And(i != 0)] + FootFrom(g, i + 1, flag))
  }

  lemma FootStart(g: seq<nat>, flag: nat, out: seq<Piece>)
    requires AllAbove(g, flag)
    ensures g == [] ==> out + FootText(g, flag) == out
    ensures |g| == 1 ==> out + FootText(g, flag) == out + [Letter(flag)] + FootFrom(g, 0, flag)
    ensures |g| > 1 ==> out + FootText(g, flag) == out + [Letter(flag)] + [Plural] + FootFrom(g, 0, flag)
  {
  }

  lemma FootStep(g: seq<nat>, i: nat, flag: nat, out: seq<Piece>)
    requires AllAbove(g, flag) && i < |g|
    ensures i + 1 == |g| ==> out + FootFrom(g, i, flag) == out + [SectionOf(g[i] - flag)] + [Stop]
    ensures i + 1 < |g| ==>
              out + FootFrom(g, i, flag) ==
              out + [SectionOf(g[i] - flag)] + [if i + 2 < |g| then Comma else And(i != 0)] + FootFrom(g, i + 1, flag)
  {
  }

  function Turned(s: seq<nat>): (t: seq<nat>)
    ensures |t| == |s| && forall k :: 0 <= k < |s| ==> t[k] == s[|s| - 1 - k]
  {
    seq(|s|, k requires 0 <= k < |s| => s[|s| - 1 - k])
  }

  /** An index entry: a comma and the section for every number, definitions underlined. */
  function IndexText(vs: seq<nat>): seq<Piece> {
    if vs == [] then [Stop]
    else [Comma, if vs[0] < DEF_FLAG then SectionOf(vs[0]) else Underline(vs[0] - DEF_FLAG)] + IndexText(vs[1..])
  }

  lemma IndexStep(vs: seq<nat>, k: nat, out: seq<Piece>)
    requires k <= |vs|
    ensures k == 0 ==> vs[k..] == vs
    ensures k == |vs| ==> out + IndexText(vs[k..]) == out + [Stop]
    ensures k < |vs| ==>
              out + IndexText(vs[k..]) ==
              out + [Comma] + [if vs[k] < DEF_FLAG then SectionOf(vs[k]) else Underline(vs[k] - DEF_FLAG)] +
              IndexText(vs[k + 1..])
  {
    if k < |vs| {
      assert vs[k..][1..] == vs[k + 1..];
    }
  }

  /** In the index the sections of a name come in increasing order. */
  lemma TurnedIncreasing(vs: seq<nat>)
    requires Decreasing(vs)
    ensures forall i, j :: 0 <= i < j < |vs| ==> Sec(Turned(vs)[i]) < Sec(Turned(vs)[j])
  {
    DecreasingPairs(vs);
  }

  lemma TurnedNums(num: seq<nat>, s: seq<nat>)
    ensures Nums(num, Turned(s)) == Turned(Nums(num, s))
  {
  }

  predicate BackOk(link: seq<nat>, s: seq<nat>, k: nat)
    requires k < |s|
  {
    s[k] < |link| && link[s[k]] == if k == 0 then 0 else s[k - 1]
  }

  predicate StillOk(link: seq<nat>, link0: seq<nat>, s: seq<nat>, k: nat)
    requires k < |s|
  {
    s[k] < |link| && s[k] < |link0| && link[s[k]] == link0[s[k]]
  }

  /** The first i links go back, the others are as they were. */
  predicate HalfTurned(link: seq<nat>, link0: seq<nat>, s: seq<nat>, i: nat) {
    && (forall k :: 0 <= k < i && k < |s| ==> BackOk(link, s, k))
    && (forall k :: i <= k < |s| ==> StillOk(link, link0, s, k))
  }

  lemma NothingTurned(link: seq<nat>, head: nat, s: seq<nat>, at: seq<int>, p: nat)
    requires ListOk(link, head, s, at, p)
    ensures HalfTurned(link, link, s, 0)
  {
    forall k | 0 <= k < |s|
      ensures StillOk(link, link, s, k)
    {
      assert LinkOk(link, s, k);
    }
  }

  lemma HalfStep(link: seq<nat>, link0: seq<nat>, head: nat, s: seq<nat>, at: seq<int>, p: nat, i: nat)
    requires ListOk(link0, head, s, at, p) && |link| == |link0| && i <= |s| && HalfTurned(link, link0, s, i)
    ensures At(s, i) == 0 <==> i == |s|
    ensures i < |s| ==>
              && s[i] < |link| && link[s[i]] == At(s, i + 1) && at[s[i]] == p && At(s, i) == s[i]
              && HalfTurned(link[s[i] := if i == 0 then 0 else s[i - 1]], link0, s, i + 1)
  {
    if i < |s| {
      assert LinkOk(link0, s, i);
      var link2 := link[s[i] := if i == 0 then 0 else s[i - 1]];
      assert StillOk(link, link0, s, i);
      forall k | 0 <= k < i + 1
        ensures BackOk(link2, s, k)
      {
        assert k < i ==> BackOk(link, s, k);
      }
      forall k | i + 1 <= k < |s|
        ensures StillOk(link2, link0, s, k)
      {
        assert StillOk(link, link0, s, k);
      }
    }
  }

  lemma TurnedOk(link: seq<nat>, link0: seq<nat>, head: nat, s: seq<nat>, at: seq<int>, p: nat)
    requires ListOk(link0, head, s, at, p) && |link| == |link0| && s != [] && HalfTurned(link, link0, s, |s|)
    ensures ListOk(link, s[|s| - 1], Turned(s), at, p) && ListOk(link, head, [s[0]], at, p)
  {
    var t := Turned(s);
    forall k | 0 <= k < |t|
      ensures LinkOk(link, t, k)
    {
      assert BackOk(link, s, |s| - 1 - k) && LinkOk(link0, s, |s| - 1 - k);
    }
    assert LinkOk(link, [s[0]], 0) by {
      assert BackOk(link, s, 0) && LinkOk(link0, s, 0);
    }
  }

  /** The cursor at place k of a list. */
  lemma Turning(num: seq<nat>, link: seq<nat>, t: seq<nat>, at: seq<int>, p: nat, k: nat)
    requires ListOk(link, At(t, 0), t, at, p) && |link| == |num| && k < |t|
    ensures t[k] < |num| && num[t[k]] == Nums(num, t)[k]
    ensures link[t[k]] == At(t, k + 1) && (At(t, k + 1) == 0 <==> k + 1 == |t|)
  {
    assert LinkOk(link, t, k);
    assert k + 1 < |t| ==> LinkOk(link, t, k + 1);
  }

  function AfterFirst(s: seq<nat>): seq<nat> {
    if s == [] then [] else s[1..]
  }

  lemma {:induction false} GroupAbove(vs: seq<nat>, group: nat, c: nat)
    requires Entries(vs, c)
    ensures AllAbove(OfGroup(vs, group), Flag(group)) || group == 0
  {
    if vs != [] {
      assert vs[0] in vs;
      GroupAbove(vs[1..], group, c);
    }
  }

  /** What the footnotes of a section should say. */
  ghost function Notes(vs: seq<nat>, c: nat): seq<Piece>
    requires Entries(vs, c)
  {
    GroupAbove(vs, 1, c);
    GroupAbove(vs, 2, c);
    GroupAbove(vs, 3, c);
    FootText(AfterFirst(OfGroup(vs, 1)), DEF_FLAG) + FootText(OfGroup(vs, 2), CITE_FLAG) + FootText(OfGroup(vs, 3), 0)
  }

  function SkipFile(vs: seq<nat>): seq<nat> {
    if vs != [] && vs[0] == FILE_FLAG then vs[1..] else vs
  }

  function SkipFirst(vs: seq<nat>): seq<nat> {
    if vs != [] && vs[0] > DEF_FLAG then vs[1..] else vs
  }

  lemma BehindFile(vs: seq<nat>, c: nat)
    requires InOrder(vs) && Entries(vs, c) && c < CITE_FLAG
    ensures var w := SkipFile(vs);
            && InOrder(w) && Entries(w, c) && (forall n :: n in w ==> Group(n) >= 1)
            && (forall g :: g >= 1 ==> OfGroup(w, g) == OfGroup(vs, g))
  {
    forall n | n in SkipFile(vs)
      ensures Group(n) >= 1
    {
      if vs[0] == FILE_FLAG {
        assert Precedes(FILE_FLAG, n) && n in vs && Entry(n, c);
      } else {
        assert vs[0] in vs && Entry(vs[0], c) && (n == vs[0] || (n in vs[1..] && Precedes(vs[0], n)));
      }
    }
  }

  lemma BehindFirst(vs: seq<nat>, c: nat)
    requires InOrder(vs) && Entries(vs, c) && c < CITE_FLAG && forall n :: n in vs ==> Group(n) >= 1
    ensures var w := SkipFirst(vs);
            && InOrder(w) && Entries(w, c) && (forall n :: n in w ==> Group(n) >= 1)
            && OfGroup(w, 1) == AfterFirst(OfGroup(vs, 1))
            && (forall g :: g >= 2 ==> OfGroup(w, g) == OfGroup(vs, g))
  {
    if vs != [] {
      assert vs[0] in vs && Entry(vs[0], c);
      if vs[0] <= DEF_FLAG {
        forall n | n in vs
          ensures Group(n) != 1
        {
          assert n == vs[0] || (n in vs[1..] && Precedes(vs[0], n));
        }
        NoneOfGroup(vs, 1);
      }
    }
  }

  /** From place j on, behind the file flag and the first definition, the list has the rest. */
  lemma NotesFrom(vs: seq<nat>, c: nat, j: nat)
    requires InOrder(vs) && Entries(vs, c) && c < CITE_FLAG && j <= |vs| && vs[j..] == SkipFirst(SkipFile(vs))
    ensures InOrder(vs[j..]) && Entries(vs[j..], c) && forall n :: n in vs[j..] ==> Group(n) >= 1
    ensures OfGroup(vs[j..], 1) == AfterFirst(OfGroup(vs, 1))
    ensures OfGroup(vs[j..], 2) == OfGroup(vs, 2) && OfGroup(vs[j..], 3) == OfGroup(vs, 3)
  {
    BehindFile(vs, c);
    BehindFirst(SkipFile(vs), c);
  }

  /** Where the front ends. */
  lemma {:induction false} FrontEnd(vs: seq<nat>, j: nat, flag: nat)
    requires j <= |vs|
    ensures var e := j + |Front(vs[j..], flag)|;
            && e <= |vs| && Front(vs[j..], flag) == vs[j..e] && Back(vs[j..], flag) == vs[e..]
            && (forall k :: j <= k < e ==> vs[k] > flag) && (e < |vs| ==> vs[e] <= flag)
            && AllAbove(vs[j..e], flag)
    decreases |vs| - j
  {
    if j < |vs| && vs[j] > flag {
      FrontEnd(vs, j + 1, flag);
      assert vs[j..][1..] == vs[j + 1..];
    }
  }

  lemma MoveStep(vs: seq<nat>, us: seq<nat>, i: nat)
    requires i + 1 < |us| == |vs| && vs[..i] == us[1..i + 1] && vs[i + 1..] == us[i + 1..]
    ensures vs[i + 1] == us[i + 1]
    ensures var next := vs[i := vs[i + 1]];
            next[..i + 1] == us[1..i + 2] && next[i + 2..] == us[i + 2..]
  {
    assert vs[i + 1..][0] == us[i + 1..][0];
    assert vs[i + 1..][1..] == vs[i + 2..] && us[i + 1..][1..] == us[i + 2..];
    assert vs[i := vs[i + 1]][..i + 1] == vs[..i] + [vs[i + 1]];
    assert us[1..i + 2] == us[1..i + 1] + [us[i + 1]];
  }

  predicate Stops(n: nat, m: nat) {
    n == m || m == n + DEF_FLAG || DEF_FLAG <= n < m
  }

  lemma {:induction false} UnderlinedAt(vs: seq<nat>, m: nat, j: nat)
    requires j <= |vs| && (forall k :: 0 <= k < j ==> !Stops(vs[k], m)) && (j < |vs| ==> Stops(vs[j], m))
    ensures Underlined(vs, m) ==
            if j < |vs| && vs[j] == m then vs
            else if j < |vs| && m == vs[j] + DEF_FLAG then vs[j := m]
            else vs[..j] + [m] + vs[j..]
  {
    hide Underlined;
    UnderlinedFirst(vs, m);
    if j > 0 {
      UnderlinedAt(vs[1..], m, j - 1);
      InsertLater(vs, m, j);
    } else {
      assert vs[..0] + [m] + vs[0..] == [m] + vs;
    }
  }

  lemma UnderlinedFirst(vs: seq<nat>, m: nat)
    ensures vs == [] ==> Underlined(vs, m) == [m]
    ensures vs != [] && !Stops(vs[0], m) ==> Underlined(vs, m) == [vs[0]] + Underlined(vs[1..], m)
    ensures vs != [] && Stops(vs[0], m) ==>
              Underlined(vs, m) == if vs[0] == m then vs else if m == vs[0] + DEF_FLAG then vs[0 := m] else [m] + vs
  {
    assert vs != [] ==> vs[0 := m] == [m] + vs[1..];
    assert [m] + [] == [m];
  }

  /** Changing or inserting an element behind the first. */
  lemma InsertLater(vs: seq<nat>, m: nat, j: nat)
    requires 0 < j <= |vs|
    ensures [vs[0]] + (vs[1..][..j - 1] + [m] + vs[1..][j - 1..]) == vs[..j] + [m] + vs[j..]
    ensures [vs[0]] + vs[1..] == vs
    ensures j < |vs| ==> vs[1..][j - 1] == vs[j] && [vs[0]] + vs[1..][j - 1 := m] == vs[j := m]
  {
    assert vs[1..][..j - 1] == vs[1..j] && vs[1..][j - 1..] == vs[j..];
    assert vs[..j] == [vs[0]] + vs[1..j];
  }

  lemma {:induction false} InsertedAt(vs: seq<nat>, m: nat, flag: nat, j: nat)
    requires j <= |vs| && (forall k :: 0 <= k < j ==> vs[k] > flag) && (j < |vs| ==> vs[j] <= flag)
    ensures Inserted(vs, m, flag) == if j > 0 && vs[j - 1] == m then vs else vs[..j] + [m] + vs[j..]
  {
    hide Inserted;
    InsertedFirst(vs, m, flag);
    if j > 1 {
      InsertedAt(vs[1..], m, flag, j - 1);
      InsertLater(vs, m, j);
      assert vs[1..][j - 2] == vs[j - 1];
    } else if j == 1 {
      InsertLater(vs, m, j);
      InsertedFirst(vs[1..], m, flag);
      assert vs[1..][..0] + [m] + vs[1..][0..] == [m] + vs[1..];
    } else {
      assert vs[..0] + [m] + vs[0..] == [m] + vs;
    }
  }

  lemma InsertedFirst(vs: seq<nat>, m: nat, flag: nat)
    ensures vs == [] || vs[0] <= flag ==> Inserted(vs, m, flag) == [m] + vs
    ensures vs != [] && vs[0] > flag ==>
              Inserted(vs, m, flag) == if vs[0] == m && (|vs| == 1 || vs[1] <= flag) then vs
                                       else [vs[0]] + Inserted(vs[1..], m, flag)
  {
  }

  lemma DefinitionsStep(vs: seq<nat>, i: nat)
    requires i <= |vs|
    ensures i == |vs| ==> Definitions(vs[i..]) == []
    ensures i < |vs| ==> Definitions(vs[i..]) == (if vs[i] < DEF_FLAG then [] else [vs[i]]) + Definitions(vs[i + 1..])
  {
    if i < |vs| {
      assert vs[i..][1..] == vs[i + 1..];
    }
  }
}
