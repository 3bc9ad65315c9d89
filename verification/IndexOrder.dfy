/** The order of CWEAVE's index: names compared in lower case, byte by byte, under a
    collating sequence in which the end of a name comes first. */
module IndexOrder {
  import opened Bytes

  type Name = seq<nat>

  const PUNCTUATION: seq<nat> :=
    [33, 34, 35, 36, 37, 38, 39, 40, 41, 42, 43, 44, 45, 46, 47, 58, 59, 60, 61, 62, 63, 64, 91, 92, 93, 94, 96,
     123, 124, 125, 126, 95]

  const LAST_RANK: nat := 228

  // The byte that the collating sequence leaves out, and the number of bytes that are compared.
  const UNLISTED: nat := 127
  const KEY_LENGTH: nat := 255

  /** The byte with rank c: `collate[c]`. */
  function Collate(c: nat): nat
    requires c <= LAST_RANK
  {
    if c == 0 then 0
    else if c == 1 then 32
    else if c <= 32 then c - 1
    else if c <= 64 then PUNCTUATION[c - 33]
    else if c <= 90 then 97 + (c - 65)
    else if c <= 100 then 48 + (c - 91)
    else 128 + (c - 101)
  }

  /** Bytes that the collating sequence knows about. */
  predicate Collated(b: nat) {
    b < 256 && !(65 <= b <= 90) && b != UNLISTED
  }

  function Rank(b: nat): nat {
    if b == 0 then 0
    else if b == 32 then 1
    else if b <= 31 then b + 1
    else if 97 <= b <= 122 then 65 + (b - 97)
    else if 48 <= b <= 57 then 91 + (b - 48)
    else if b >= 128 then 101 + (b - 128)
    else if b <= 47 then b
    else if b <= 64 then b - 10
    else if 91 <= b <= 94 then b - 36
    else if b == 96 then 59
    else if b == 95 then 64
    else b - 63
  }

  /** The sequence lists every byte once except capital letters and byte 127, which it leaves out. */
  lemma CollateRank(b: nat)
    requires Collated(b)
    ensures Rank(b) <= LAST_RANK && Collate(Rank(b)) == b
  {
  }

  lemma RankCollate(c: nat)
    requires c <= LAST_RANK
    ensures Collated(Collate(c)) && Rank(Collate(c)) == c
  {
  }

  /** Exactly the collated bytes are listed. */
  lemma CollateLists(b: nat)
    ensures Collated(b) <==> exists c: nat :: c <= LAST_RANK && Collate(c) == b
  {
    if Collated(b) {
      CollateRank(b);
    } else if c: nat :| c <= LAST_RANK && Collate(c) == b {
      RankCollate(c);
    }
  }

  /** The groups of bytes in the order of the index: the end of a name, the blank, control
      codes, punctuation, the underscore, letters, digits, and the bytes from 128 on. */
  function Class(b: nat): nat {
    if b == 0 then 0
    else if b == 32 then 1
    else if b < 32 then 2
    else if 48 <= b <= 57 then 6
    else if 97 <= b <= 122 then 5
    else if b == 95 then 4
    else if b < 128 then 3
    else 7
  }

  /** Byte b comes before byte c: by its group, and within a group by its value. */
  predicate Earlier(b: nat, c: nat) {
    Class(b) < Class(c) || (Class(b) == Class(c) && b < c)
  }

  /** The ranks order the bytes by group and value. */
  lemma RankClasses(b: nat, c: nat)
    requires Collated(b) && Collated(c)
    ensures Rank(b) < Rank(c) <==> Earlier(b, c)
  {
  }

  /** So does the table. */
  lemma CollateAscends(i: nat, j: nat)
    requires i < j <= LAST_RANK
    ensures Earlier(Collate(i), Collate(j))
  {
    RankCollate(i);
    RankCollate(j);
    RankClasses(Collate(i), Collate(j));
  }

  /** Names as they occur in the index: not empty, and without byte 0, which stands for the end of a name. */
  predicate Sortable(a: Name) {
    0 < |a| && forall k :: 0 <= k < |a| ==> 0 < a[k] < 256
  }

  /** The byte that decides where a name goes at some depth; 0 past its end. */
  function Byte(a: Name, d: nat): nat {
    if d < |a| then Lower(a[d]) else 0
  }

  /** Names in lower case in the order of the ranks of their bytes. */
  predicate Leq(a: Name, b: Name) {
    if a == [] then true
    else if b == [] then false
    else if Rank(Lower(a[0])) == Rank(Lower(b[0])) then Leq(a[1..], b[1..])
    else Rank(Lower(a[0])) < Rank(Lower(b[0]))
  }

  /** The names agree in their first d bytes, up to case. */
  predicate Agree(a: Name, b: Name, d: nat) {
    d <= |a| && d <= |b| && forall k :: 0 <= k < d ==> Lower(a[k]) == Lower(b[k])
  }

  lemma ByteCollated(a: Name, d: nat)
    requires Sortable(a)
    ensures Byte(a, d) < 256 && (Byte(a, d) == 0 <==> d >= |a|)
    ensures Collated(Byte(a, d)) <==> Byte(a, d) != UNLISTED
  {
  }

  /** The first byte in which names differ orders them. */
  lemma {:induction false} FirstDifference(a: Name, b: Name, d: nat)
    requires Agree(a, b, d) && Rank(Byte(a, d)) < Rank(Byte(b, d))
    ensures Leq(a, b)
  {
    if d > 0 {
      assert Lower(a[0]) == Lower(b[0]);
      assert Agree(a[1..], b[1..], d - 1) by {
        forall k | 0 <= k < d - 1
          ensures Lower(a[1..][k]) == Lower(b[1..][k])
        {
          assert Lower(a[k + 1]) == Lower(b[k + 1]);
        }
      }
      FirstDifference(a[1..], b[1..], d - 1);
    }
  }

  /** And it orders them one way only. */
  lemma {:induction false} FirstDifferenceOnly(a: Name, b: Name, d: nat)
    requires Agree(a, b, d) && Rank(Byte(a, d)) < Rank(Byte(b, d))
    ensures !Leq(b, a)
  {
    if d > 0 {
      assert Lower(a[0]) == Lower(b[0]);
      forall k | 0 <= k < d - 1
        ensures Lower(a[1..][k]) == Lower(b[1..][k])
      {
        assert Lower(a[k + 1]) == Lower(b[k + 1]);
      }
      FirstDifferenceOnly(a[1..], b[1..], d - 1);
    }
  }

  lemma {:induction false} SameName(a: Name, b: Name, d: nat)
    requires Agree(a, b, d) && |a| == d
    ensures Leq(a, b)
  {
    if d > 0 {
      assert Lower(a[0]) == Lower(b[0]);
      forall k | 0 <= k < d - 1
        ensures Lower(a[1..][k]) == Lower(b[1..][k])
      {
        assert Lower(a[k + 1]) == Lower(b[k + 1]);
      }
      SameName(a[1..], b[1..], d - 1);
    }
  }

  /** What the index compares of a name. */
  function Key(a: Name): (r: Name)
    ensures |r| <= KEY_LENGTH
  {
    if |a| <= KEY_LENGTH then a else a[..KEY_LENGTH]
  }

  /** The order of the index. */
  predicate Before(a: Name, b: Name) {
    Leq(Key(a), Key(b))
  }

  lemma KeyDifference(a: Name, b: Name, d: nat)
    requires Agree(a, b, d) && d < KEY_LENGTH && Rank(Byte(a, d)) < Rank(Byte(b, d))
    ensures Before(a, b)
  {
    FirstDifference(Key(a), Key(b), d);
  }

  /** Of names that first differ in collated bytes among those compared, exactly the one with
      the earlier byte comes before the other. */
  lemma BytesDecide(a: Name, b: Name, d: nat)
    requires Agree(a, b, d) && d < KEY_LENGTH && Byte(a, d) != Byte(b, d)
    requires Collated(Byte(a, d)) && Collated(Byte(b, d))
    ensures Before(a, b) <==> Earlier(Byte(a, d), Byte(b, d))
    ensures Before(b, a) <==> !Before(a, b)
  {
    hide Rank, Leq;
    RankClasses(Byte(a, d), Byte(b, d));
    RankClasses(Byte(b, d), Byte(a, d));
    EarlierTotal(Byte(a, d), Byte(b, d));
    if Earlier(Byte(a, d), Byte(b, d)) {
      FirstDifference(Key(a), Key(b), d);
      FirstDifferenceOnly(Key(a), Key(b), d);
    } else {
      FirstDifference(Key(b), Key(a), d);
      FirstDifferenceOnly(Key(b), Key(a), d);
    }
  }

  /** The names first differ at byte d, where both have collated bytes and a's is the earlier. */
  predicate ComesFirst(a: Name, b: Name, d: nat) {
    && d < KEY_LENGTH && Agree(a, b, d)
    && Collated(Byte(a, d)) && Collated(Byte(b, d)) && Earlier(Byte(a, d), Byte(b, d))
  }

  lemma FirstComes(a: Name, b: Name, d: nat)
    requires ComesFirst(a, b, d)
    ensures Before(a, b) && !Before(b, a) && a != b
  {
    hide Leq;
    BytesDecide(a, b, d);
  }

  lemma EarlierTotal(b: nat, c: nat)
    requires b != c
    ensures Earlier(b, c) <==> !Earlier(c, b)
  {
  }

  /** Names that end after the bytes in which they agree, or agree in all that is compared. */
  lemma SameKey(a: Name, b: Name, d: nat)
    requires Agree(a, b, d) && d <= KEY_LENGTH && (|a| == d || d == KEY_LENGTH)
    ensures Before(a, b)
  {
    SameName(Key(a), Key(b), d);
  }

  lemma {:induction false} LeqTransitive(a: Name, b: Name, c: Name)
    requires Leq(a, b) && Leq(b, c)
    ensures Leq(a, c)
  {
    if a != [] && Rank(Lower(a[0])) == Rank(Lower(b[0])) == Rank(Lower(c[0])) {
      LeqTransitive(a[1..], b[1..], c[1..]);
    }
  }

  lemma {:induction false} LeqTotal(a: Name, b: Name)
    ensures Leq(a, b) || Leq(b, a)
  {
    if a != [] && b != [] && Rank(Lower(a[0])) == Rank(Lower(b[0])) {
      LeqTotal(a[1..], b[1..]);
    }
  }
}
