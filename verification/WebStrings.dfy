/** Comparing names the way both programs do: byte by byte, with special answers when
    one name begins with the other. */
module WebStrings {

  datatype Order = Less | Equal | Greater | Prefix | Extension | BadExtension

  /** How name j relates to name k: `Prefix` if j is a proper prefix of k, `Extension`
      if k is a proper prefix of j. */
  function Cmp(j: string, k: string): Order {
    if j != [] && k != [] && j[0] == k[0] then Cmp(j[1..], k[1..])
    else if k == [] then if j == [] then Equal else Extension
    else if j == [] then Prefix
    else if j[0] < k[0] then Less
    else Greater
  }

  /** `web_strcmp`, with two pointers running down the names. */
  method WebStrcmp(j: string, k: string) returns (c: Order)
    ensures c == Cmp(j, k)
  {
    var n := 0;
    while n < |j| && n < |k| && j[n] == k[n]
      invariant n <= |j| && n <= |k|
      invariant Cmp(j[n..], k[n..]) == Cmp(j, k)
    {
      assert j[n..][1..] == j[n + 1..] && k[n..][1..] == k[n + 1..];
      n := n + 1;
    }
    if n == |k| {
      c := if n == |j| then Equal else Extension;
    } else if n == |j| {
      c := Prefix;
    } else {
      c := if j[n] < k[n] then Less else Greater;
    }
  }

  predicate Comparable(c: Order) {
    c == Equal || c == Prefix || c == Extension
  }

  /** Which answer means what. */
  lemma {:induction false} CmpMeaning(j: string, k: string)
    ensures Cmp(j, k) != BadExtension
    ensures Cmp(j, k) == Equal <==> j == k
    ensures Cmp(j, k) == Prefix <==> j < k
    ensures Cmp(j, k) == Extension <==> k < j
    ensures Comparable(Cmp(j, k)) <==> j <= k || k <= j
    ensures Cmp(j, k) == Less <==> Cmp(k, j) == Greater
  {
    if j != [] && k != [] && j[0] == k[0] {
      CmpMeaning(j[1..], k[1..]);
      assert j == [j[0]] + j[1..] && k == [k[0]] + k[1..];
      assert j <= k <==> j[1..] <= k[1..];
      assert k <= j <==> k[1..] <= j[1..];
    }
  }

  lemma {:induction false} LessTransitive(a: string, b: string, c: string)
    requires Cmp(a, b) == Less && Cmp(b, c) == Less
    ensures Cmp(a, c) == Less
  {
    if a[0] == b[0] && b[0] == c[0] {
      LessTransitive(a[1..], b[1..], c[1..]);
    }
  }

  /** Names that differ from a longer name before it is cut compare with the cut name the same way. */
  lemma {:induction false} CmpCut(a: string, b: string, n: nat)
    requires n <= |b| && !Comparable(Cmp(a, b[..n]))
    ensures Cmp(a, b) == Cmp(a, b[..n])
  {
    if n > 0 && a != [] && a[0] == b[0] {
      assert b[..n][1..] == b[1..][..n - 1];
      CmpCut(a[1..], b[1..], n - 1);
    }
  }

  /** A name compared with a concatenation whose first part it begins with. */
  lemma {:induction false} CmpAppend(j: string, a: string, b: string)
    requires a <= j
    ensures Cmp(j, a + b) == Cmp(j[|a|..], b)
  {
    if a == [] {
      assert a + b == b && j[|a|..] == j;
    } else {
      assert (a + b)[1..] == a[1..] + b && j[1..][|a| - 1..] == j[|a|..];
      assert a[1..] <= j[1..];
      CmpAppend(j[1..], a[1..], b);
    }
  }
}
