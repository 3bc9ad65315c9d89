/** Linked lists in an array of links: position 0 is the null pointer. */
module LinkedLists {

  /** The list that starts at `head` and follows `link` is s. */
  ghost predicate IsList(link: seq<nat>, head: nat, s: seq<nat>)
    decreases s
  {
    if s == [] then head == 0
    else head == s[0] && 0 < head < |link| && IsList(link, link[head], s[1..])
  }

  /** Links of other elements do not matter. */
  lemma {:induction false} IsListSame(link: seq<nat>, other: seq<nat>, head: nat, s: seq<nat>)
    requires IsList(link, head, s) && |link| <= |other|
    requires forall x :: x in s && x < |link| ==> other[x] == link[x]
    ensures IsList(other, head, s)
    decreases s
  {
    if s != [] {
      assert s[0] in s;
      IsListSame(link, other, link[head], s[1..]);
    }
  }

  lemma NextName(link: seq<nat>, head: nat, s: seq<nat>)
    requires IsList(link, head, s)
    ensures s == [] <==> head == 0
    ensures s != [] ==> head == s[0] && 0 < head < |link| && IsList(link, link[head], s[1..])
  {
  }

  ghost predicate NoDup(s: seq<nat>) {
    forall i, j :: 0 <= i < j < |s| ==> s[i] != s[j]
  }
}
