/** The index sort of CWEAVE: a radix sort with 256 buckets, linked lists and an
    explicit stack of lists that are still to be printed or split. */
module IndexSort {
  import opened IndexOrder
  import opened LinkedLists

  const INFINITY: nat := KEY_LENGTH

  /** An entry of the stack: a list whose names agree in `depth` bytes, or, at depth
      INFINITY, are equal. */
  datatype Entry = Entry(depth: nat, head: nat)

  // Where a name is: not in the index, printed, in bucket c, or in the list of stack entry i.
  const NOWHERE: int := -1
  const PRINTED: int := -2
  const ON_STACK: int := 256

  /** All of s is at one place. */
  ghost predicate AllAt(s: seq<nat>, at: seq<int>, place: int) {
    NoDup(s) && forall k :: 0 <= k < |s| ==> 0 < s[k] < |at| && at[s[k]] == place
  }

  /** Name x is in the list of the place that `at` gives. */
  ghost predicate Found(bl: seq<seq<nat>>, sl: seq<seq<nat>>, out: seq<nat>, at: seq<int>, x: nat)
    requires |bl| == 256 && x < |at|
  {
    && (0 <= at[x] < 256 ==> x in bl[at[x]])
    && (ON_STACK <= at[x] ==> at[x] < ON_STACK + |sl| && x in sl[at[x] - ON_STACK])
    && (at[x] == PRINTED ==> x in out)
  }

  /** `at` says where every name is, and every name is there once. */
  ghost predicate Placed(bl: seq<seq<nat>>, sl: seq<seq<nat>>, out: seq<nat>, at: seq<int>) {
    && |bl| == 256
    && (forall c :: 0 <= c < 256 ==> AllAt(bl[c], at, c))
    && (forall i :: 0 <= i < |sl| ==> AllAt(sl[i], at, ON_STACK + i))
    && AllAt(out, at, PRINTED)
    && (forall x: nat :: x < |at| ==> Found(bl, sl, out, at, x))
  }

  /** Everything in s comes before, or may stand beside, everything in t. */
  ghost predicate AllBefore(names: seq<Name>, s: seq<nat>, t: seq<nat>) {
    forall x, y :: x in s && y in t && x < |names| && y < |names| ==> Before(names[x], names[y])
  }

  ghost predicate Uniform(names: seq<Name>, s: seq<nat>, depth: nat) {
    forall x, y :: x in s && y in s && x < |names| && y < |names| ==>
      if depth == INFINITY then Before(names[x], names[y]) else Agree(names[x], names[y], depth)
  }

  ghost predicate SortedNames(names: seq<Name>, s: seq<nat>) {
    forall i, j :: 0 <= i < j < |s| && s[i] < |names| && s[j] < |names| ==> Before(names[s[i]], names[s[j]])
  }

  /** Of two names that first differ in collated bytes among those compared, the one with the
      earlier byte comes first. */
  ghost predicate Alphabetical(names: seq<Name>, s: seq<nat>) {
    forall i, j, d: nat :: 0 <= i < |s| && 0 <= j < |s| && s[i] < |names| && s[j] < |names| ==>
      ComesFirst(names[s[i]], names[s[j]], d) ==> i < j
  }

  lemma SortedAlphabetical(names: seq<Name>, s: seq<nat>)
    requires SortedNames(names, s)
    ensures Alphabetical(names, s)
  {
    hide Before, ComesFirst;
    forall i, j, d: nat | 0 <= i < |s| && 0 <= j < |s| && s[i] < |names| && s[j] < |names|
                          && ComesFirst(names[s[i]], names[s[j]], d)
      ensures i < j
    {
      FirstComes(names[s[i]], names[s[j]], d);
    }
  }

  /** Printed names are in order and before all others; lists nearer the top of the
      stack are before those below. */
  ghost predicate Ordered(names: seq<Name>, stack: seq<Entry>, sl: seq<seq<nat>>, out: seq<nat>) {
    && |sl| == |stack|
    && SortedNames(names, out)
    && (forall i :: 0 <= i < |sl| ==>
          sl[i] != [] && stack[i].depth <= INFINITY && Uniform(names, sl[i], stack[i].depth))
    && (forall i :: 0 <= i < |sl| ==> AllBefore(names, out, sl[i]))
    && (forall i, j :: 0 <= i < j < |sl| ==> AllBefore(names, sl[j], sl[i]))
  }

  /** Buckets that `unbucket` looks at, as far as names are put into them. */
  predicate Listing(c: int) {
    0 <= c < 256 && c != UNLISTED
  }

  /** The names in these buckets agree in k bytes and byte k says which bucket each is in;
      they come after what is printed and before what is on the stack. */
  ghost predicate Bucketed(names: seq<Name>, bl: seq<seq<nat>>, sl: seq<seq<nat>>, out: seq<nat>, k: nat) {
    && |bl| == 256
    && (forall c, x :: Listing(c) && x in bl[c] && x < |names| ==> Sortable(names[x]) && Byte(names[x], k) == c)
    && (forall c, e, x, y :: Listing(c) && Listing(e) && x in bl[c] && y in bl[e] && x < |names| && y < |names| ==>
          Agree(names[x], names[y], k))
    && (forall c :: Listing(c) ==> AllBefore(names, out, bl[c]))
    && (forall c, i :: Listing(c) && 0 <= i < |sl| ==> AllBefore(names, bl[c], sl[i]))
  }

  /** A bucket's names agree in one byte more, or have ended. */
  lemma BucketUniform(names: seq<Name>, bl: seq<seq<nat>>, sl: seq<seq<nat>>, out: seq<nat>, k: nat, c: nat)
    requires Bucketed(names, bl, sl, out, k) && Listing(c) && k < INFINITY
    requires forall x :: x in bl[c] ==> x < |names|
    ensures Uniform(names, bl[c], if c == 0 then INFINITY else k + 1)
  {
    forall x, y | x in bl[c] && y in bl[c]
      ensures c == 0 || k + 1 == INFINITY ==> Before(names[x], names[y])
      ensures c != 0 ==> Agree(names[x], names[y], k + 1)
    {
      ByteCollated(names[x], k);
      ByteCollated(names[y], k);
      assert Agree(names[x], names[y], k);
      if c == 0 {
        SameKey(names[x], names[y], k);
      } else if k + 1 == INFINITY {
        SameKey(names[x], names[y], k + 1);
      }
    }
  }

  /** Buckets are in the order of the ranks of their bytes. */
  lemma BucketsOrdered(names: seq<Name>, bl: seq<seq<nat>>, sl: seq<seq<nat>>, out: seq<nat>, k: nat, c: nat, e: nat)
    requires Bucketed(names, bl, sl, out, k) && Listing(c) && Listing(e) && k < INFINITY && Rank(c) < Rank(e)
    ensures AllBefore(names, bl[c], bl[e])
  {
    forall x, y | x in bl[c] && y in bl[e] && x < |names| && y < |names|
      ensures Before(names[x], names[y])
    {
      KeyDifference(names[x], names[y], k);
    }
  }

  // ---- Names that are lost ------------------------------------------------------

  /** The listed names. */
  ghost function All(at: seq<int>): set<nat> {
    set x: nat | x < |at| && at[x] != NOWHERE
  }

  /** Another listed name agrees with x in k bytes. */
  ghost predicate Company(names: seq<Name>, all: set<nat>, x: nat, k: nat)
    requires x < |names|
  {
    exists y :: y in all && y != x && y < |names| && Agree(names[x], names[y], k)
  }

  /** Byte 127 is met where the name has to be split from others, or at its beginning. */
  ghost predicate Lost(names: seq<Name>, all: set<nat>, x: nat)
    requires x < |names|
  {
    exists k: nat :: k < |names[x]| && k < INFINITY && names[x][k] == UNLISTED && (k == 0 || Company(names, all, x, k))
  }

  predicate NoneBefore(a: Name, d: nat) {
    forall k :: 0 <= k < d && k < |a| ==> a[k] != UNLISTED
  }

  ghost predicate Kept(names: seq<Name>, all: set<nat>, l: seq<nat>) {
    forall x :: x in l && x < |names| ==> !Lost(names, all, x)
  }

  ghost predicate AllLost(names: seq<Name>, all: set<nat>, l: seq<nat>) {
    forall x :: x in l && x < |names| ==> Lost(names, all, x)
  }

  /** The list has all listed names that agree with one of its names in d bytes, and none
      of these bytes is 127. */
  ghost predicate Whole(names: seq<Name>, all: set<nat>, l: seq<nat>, d: nat) {
    && (forall x :: x in l && x < |names| ==> NoneBefore(names[x], d))
    && forall x, y :: x in l && x < |names| && y in all && y < |names| && Agree(names[x], names[y], d) ==> y in l
  }

  /** Lists on the stack are whole or have nothing to lose; what is printed is not lost,
      and what is left in the bucket of byte 127 is. */
  ghost predicate Tracked(names: seq<Name>, all: set<nat>, stack: seq<Entry>, sl: seq<seq<nat>>, out: seq<nat>,
                          rest: seq<nat>) {
    && |sl| == |stack|
    && (forall i :: 0 <= i < |sl| ==> EntryTracked(names, all, sl[i], stack[i].depth))
    && Kept(names, all, out) && AllLost(names, all, rest)
  }

  ghost predicate EntryTracked(names: seq<Name>, all: set<nat>, l: seq<nat>, depth: nat) {
    depth >= 1 && if depth < INFINITY then Whole(names, all, l, depth) else Kept(names, all, l)
  }

  /** The same for the buckets, when byte k says which bucket each name is in. */
  ghost predicate BucketsWhole(names: seq<Name>, all: set<nat>, bl: seq<seq<nat>>, k: nat) {
    && |bl| == 256
    && (forall c, x :: Listing(c) && x in bl[c] && x < |names| ==> NoneBefore(names[x], k))
    && forall c, x, y ::
         Listing(c) && x in bl[c] && x < |names| && y in all && y < |names|
         && Agree(names[x], names[y], k) && Byte(names[y], k) == c
         ==> y in bl[c]
  }

  /** Without byte 127 nothing is lost. */
  lemma NothingLost(names: seq<Name>, all: set<nat>, x: nat)
    requires x < |names| && NoneBefore(names[x], INFINITY)
    ensures !Lost(names, all, x)
  {
  }

  /** A name that begins with it is lost in any case. */
  lemma LostAtOnce(names: seq<Name>, all: set<nat>, x: nat)
    requires x < |names| && names[x] != [] && names[x][0] == UNLISTED
    ensures Lost(names, all, x)
  {
    assert names[x][0] == UNLISTED;
  }

  /** A bucket that goes onto the stack. */
  lemma BucketTracked(names: seq<Name>, all: set<nat>, bl: seq<seq<nat>>, sl: seq<seq<nat>>, out: seq<nat>, k: nat,
                      c: nat)
    requires Bucketed(names, bl, sl, out, k) && BucketsWhole(names, all, bl, k) && Listing(c) && k < INFINITY
    requires forall x :: x in bl[c] ==> x < |names|
    ensures EntryTracked(names, all, bl[c], if c == 0 then INFINITY else k + 1)
  {
    forall x | x in bl[c]
      ensures NoneBefore(names[x], k + 1)
      ensures c == 0 || k + 1 == INFINITY ==> !Lost(names, all, x)
      ensures c == 0 || k < |names[x]|
    {
      ByteCollated(names[x], k);
      if c == 0 || k + 1 == INFINITY {
        NothingLost(names, all, x);
      }
    }
    forall x, y | x in bl[c] && y in all && y < |names| && c != 0 && Agree(names[x], names[y], k + 1)
      ensures y in bl[c]
    {
      assert Byte(names[x], k) == c;
      assert Agree(names[x], names[y], k) && Byte(names[y], k) == c;
    }
  }

  lemma TrackedPush(names: seq<Name>, all: set<nat>, stack: seq<Entry>, sl: seq<seq<nat>>, out: seq<nat>,
                    rest: seq<nat>, e: Entry, l: seq<nat>)
    requires Tracked(names, all, stack, sl, out, rest) && EntryTracked(names, all, l, e.depth)
    ensures Tracked(names, all, stack + [e], sl + [l], out, rest)
  {
    hide EntryTracked, Kept, AllLost;
  }

  /** A list with one name, or at the last depth, has nothing to lose. */
  lemma TrackedPrint(names: seq<Name>, all: set<nat>, stack: seq<Entry>, sl: seq<seq<nat>>, out: seq<nat>,
                     rest: seq<nat>)
    requires Tracked(names, all, stack, sl, out, rest) && stack != []
    requires stack[|stack| - 1].depth >= INFINITY || |sl[|sl| - 1]| == 1
    requires forall x :: x in sl[|sl| - 1] && x < |names| ==> names[x] != []
    ensures Tracked(names, all, stack[..|stack| - 1], sl[..|sl| - 1], out + sl[|sl| - 1], rest)
  {
    var l, d := sl[|sl| - 1], stack[|stack| - 1].depth;
    assert EntryTracked(names, all, l, d);
    assert forall i :: 0 <= i < |sl| - 1 ==> EntryTracked(names, all, sl[i], stack[i].depth);
    if d < INFINITY {
      forall x | x in l && x < |names|
        ensures !Lost(names, all, x)
      {
        AloneKept(names, all, l, d, x);
      }
    }
  }

  lemma AloneKept(names: seq<Name>, all: set<nat>, l: seq<nat>, d: nat, x: nat)
    requires Whole(names, all, l, d) && d >= 1 && |l| == 1 && x in l && x < |names| && names[x] != []
    ensures !Lost(names, all, x)
  {
    forall k, y: nat | k >= d && y in all && y < |names| && Agree(names[x], names[y], k)
      ensures y == x
    {
      assert Agree(names[x], names[y], d);
    }
  }

  /** After the top list has been dealt. */
  lemma TopWhole(names: seq<Name>, all: set<nat>, stack: seq<Entry>, sl: seq<seq<nat>>, out: seq<nat>,
                 bl: seq<seq<nat>>, before: seq<nat>)
    requires Ordered(names, stack, sl, out) && Tracked(names, all, stack, sl, out, before) && stack != []
    requires stack[|stack| - 1].depth < INFINITY && |sl[|sl| - 1]| >= 2 && NoDup(sl[|sl| - 1])
    requires Dealt(names, bl, sl[|sl| - 1], stack[|stack| - 1].depth, before)
    requires forall x :: x in sl[|sl| - 1] ==> x in all && x < |names| && Sortable(names[x])
    ensures FromList(names, bl, sl[|sl| - 1], stack[|stack| - 1].depth)
    ensures BucketsWhole(names, all, bl, stack[|stack| - 1].depth) && AllLost(names, all, bl[UNLISTED])
  {
    hide Dealt, Whole, Uniform, BucketsWhole, AllLost, Sortable, NoDup, FromList, Kept;
    var l, d := sl[|sl| - 1], stack[|stack| - 1].depth;
    assert EntryTracked(names, all, l, d);
    DealtFrom(names, bl, l, d, before);
    DealtWhole(names, all, bl, l, d, before);
  }

  lemma DealtFrom(names: seq<Name>, bl: seq<seq<nat>>, l: seq<nat>, depth: nat, before: seq<nat>)
    requires Dealt(names, bl, l, depth, before)
    ensures FromList(names, bl, l, depth)
  {
  }

  lemma MoreThanOne(link: seq<nat>, head: nat, l: seq<nat>)
    requires IsList(link, head, l) && l != [] && head < |link| && link[head] != 0
    ensures |l| >= 2
  {
  }

  lemma TrackedPop(names: seq<Name>, all: set<nat>, stack: seq<Entry>, sl: seq<seq<nat>>, out: seq<nat>,
                   rest: seq<nat>, more: seq<nat>)
    requires Tracked(names, all, stack, sl, out, rest) && stack != [] && AllLost(names, all, more)
    ensures Tracked(names, all, stack[..|stack| - 1], sl[..|sl| - 1], out, more)
  {
    hide EntryTracked, Kept, AllLost;
  }

  /** The names of a list have been dealt to the buckets of their bytes. */
  ghost predicate Dealt(names: seq<Name>, bl: seq<seq<nat>>, l: seq<nat>, depth: nat, before: seq<nat>) {
    && FromList(names, bl, l, depth)
    && (forall x :: x in l && x < |names| ==> Byte(names[x], depth) < 256 && x in bl[Byte(names[x], depth)])
    && forall x :: x in bl[UNLISTED] ==> x in before || (x in l && x < |names| && Byte(names[x], depth) == UNLISTED)
  }

  /** When a whole list of more than one name is dealt, the buckets are whole, and the names in
      the bucket of byte 127 are lost. */
  lemma DealtWhole(names: seq<Name>, all: set<nat>, bl: seq<seq<nat>>, l: seq<nat>, depth: nat, before: seq<nat>)
    requires Dealt(names, bl, l, depth, before) && Whole(names, all, l, depth) && Uniform(names, l, depth)
    requires depth < INFINITY && |l| >= 2 && NoDup(l) && AllLost(names, all, before)
    requires forall x :: x in l ==> x in all && x < |names| && Sortable(names[x])
    ensures BucketsWhole(names, all, bl, depth) && AllLost(names, all, bl[UNLISTED])
  {
    forall x | x in bl[UNLISTED] && x < |names| && x !in before
      ensures Lost(names, all, x)
    {
      assert Byte(names[x], depth) == UNLISTED;
      ByteCollated(names[x], depth);
      var y := if l[0] == x then l[1] else l[0];
      assert y in l && x in l;
      assert Agree(names[x], names[y], depth);
      assert Company(names, all, x, depth);
      assert names[x][depth] == UNLISTED;
    }
    forall c, x, y | Listing(c) && x in bl[c] && x < |names| && y in all && y < |names|
                     && Agree(names[x], names[y], depth) && Byte(names[y], depth) == c
      ensures y in bl[c]
    {
      assert x in l;
      assert y in l;
    }
  }

  class Sorter {
    const names: seq<Name>
    const listed: seq<bool>      // does the name have cross-references?
    const bucket: array<nat>
    const blink: array<nat>
    var stack: seq<Entry>
    var out: seq<nat>            // names printed so far
    ghost var bl: seq<seq<nat>>
    ghost var sl: seq<seq<nat>>
    ghost var at: seq<int>

    /** Empty buckets for the names of the directory. */
    constructor (names: seq<Name>, listed: seq<bool>)
      requires |listed| == |names|
      ensures this.names == names && this.listed == listed && fresh(bucket) && fresh(blink)
      ensures bucket.Length == 256 && blink.Length == |names| && bucket != blink && out == []
    {
      this.names, this.listed := names, listed;
      bucket := new nat[256];
      blink := new nat[|names|];
      stack, out, bl, sl, at := [], [], [], [], [];
    }

    ghost predicate Lists()
      reads this, bucket, blink
    {
      && bucket.Length == 256 && blink.Length == |names| == |listed| == |at| && bucket != blink
      && |bl| == 256 && |sl| == |stack|
      && (forall c :: 0 <= c < 256 ==> IsList(blink[..], bucket[c], bl[c]))
      && (forall i :: 0 <= i < |sl| ==> IsList(blink[..], stack[i].head, sl[i]))
    }

    ghost predicate Valid()
      reads this, bucket, blink
    {
      && Lists() && Placed(bl, sl, out, at)
      && (forall x :: 0 <= x < |at| ==> at[x] == NOWHERE || at[x] == PRINTED || 0 <= at[x])
      && (forall x :: 0 <= x < |at| && at[x] != NOWHERE ==> Sortable(names[x]))
    }

    /** Name x goes to the front of bucket c. */
    method PutInBucket(x: nat, c: nat)
      requires bucket.Length == 256 && blink.Length == |names| && bucket != blink
      requires 0 < x < |names| && c < 256 && |bl| == 256 && |at| == |names|
      requires forall k :: 0 <= k < 256 ==> IsList(blink[..], bucket[k], bl[k]) && x !in bl[k]
      modifies bucket, blink, `bl, `at
      ensures bl == old(bl)[c := [x] + old(bl)[c]] && at == old(at)[x := c]
      ensures forall k :: 0 <= k < 256 ==> IsList(blink[..], bucket[k], bl[k])
      ensures blink[..] == old(blink[..])[x := old(bucket[c])]
    {
      blink[x] := bucket[c];
      bucket[c] := x;
      bl := bl[c := [x] + bl[c]];
      at := at[x := c];
      forall k | 0 <= k < 256
        ensures IsList(blink[..], bucket[k], bl[k])
      {
        IsListSame(old(blink[..]), blink[..], old(bucket[k]), old(bl)[k]);
      }
    }

    /** One bucket becomes the top of the stack. */
    method PushBucket(c: nat, depth: nat)
      requires Valid() && c < 256 && bl[c] != []
      modifies this, bucket
      ensures Valid() && out == old(out)
      ensures stack == old(stack) + [Entry(depth, old(bucket[c]))]
      ensures sl == old(sl) + [old(bl)[c]] && bl == old(bl)[c := []]
      ensures |at| == old(|at|)
      ensures forall x :: 0 <= x < |at| ==> at[x] == if old(at)[x] == c then ON_STACK + old(|stack|) else old(at)[x]
    {
      ghost var n := |stack|;
      ghost var l := bl[c];
      stack := stack + [Entry(depth, bucket[c])];
      bucket[c] := 0;
      sl := sl + [l];
      bl := bl[c := []];
      ghost var was := at;
      at := seq(|was|, x requires 0 <= x < |was| => if was[x] == c then ON_STACK + n else was[x]);
      PlacedPush(old(bl), old(sl), out, old(at), c, at);
    }

    /** All names in lists are names of the directory. */
    lemma InRange()
      requires Valid()
      ensures forall c, x :: 0 <= c < 256 && x in bl[c] ==> x < |names|
      ensures forall i, x :: 0 <= i < |sl| && x in sl[i] ==> x < |names|
      ensures forall x :: x in out ==> x < |names|
    {
      forall c, x | 0 <= c < 256 && x in bl[c]
        ensures x < |names|
      {
        assert AllAt(bl[c], at, c);
      }
      forall i, x | 0 <= i < |sl| && x in sl[i]
        ensures x < |names|
      {
        assert AllAt(sl[i], at, ON_STACK + i);
      }
    }

    /** `unbucket`: the buckets that are not empty go onto the stack, the last in the
        collating order first. */
    method Unbucket(d: nat)
      requires Valid() && Ordered(names, stack, sl, out) && 1 <= d <= INFINITY
      requires Bucketed(names, bl, sl, out, d - 1)
      requires Tracked(names, All(at), stack, sl, out, bl[UNLISTED]) && BucketsWhole(names, All(at), bl, d - 1)
      modifies this, bucket
      ensures Valid() && Ordered(names, stack, sl, out) && out == old(out)
      ensures Tracked(names, All(at), stack, sl, out, bl[UNLISTED]) && All(at) == old(All(at))
      ensures bl[UNLISTED] == old(bl)[UNLISTED] && forall c :: Listing(c) ==> bl[c] == []
      ensures old(stack) <= stack && |at| == old(|at|)
      ensures forall i :: old(|stack|) <= i < |stack| ==> stack[i].depth == d || stack[i].depth == INFINITY
      ensures forall x :: 0 <= x < |at| && !Listing(old(at)[x]) ==> at[x] == old(at)[x]
      ensures forall x :: 0 <= x < |at| && Listing(old(at)[x]) ==> old(|stack|) + ON_STACK <= at[x]
    {
      hide Ordered, Bucketed, Drained, Collate, Rank, Placed, Sortable, Tracked, BucketsWhole, EntryTracked, All;
      NothingAbove(bl);
      var c: nat := LAST_RANK + 1;
      while c > 0
        invariant c <= LAST_RANK + 1 && Valid() && Ordered(names, stack, sl, out) && out == old(out)
        invariant Bucketed(names, bl, sl, out, d - 1)
        invariant Tracked(names, All(at), stack, sl, out, bl[UNLISTED]) && BucketsWhole(names, All(at), bl, d - 1)
        invariant bl[UNLISTED] == old(bl)[UNLISTED] && All(at) == old(All(at))
        invariant Drained(bl, c)
        invariant old(stack) <= stack && |at| == old(|at|)
        invariant forall i :: old(|stack|) <= i < |stack| ==> stack[i].depth == d || stack[i].depth == INFINITY
        invariant forall x :: 0 <= x < |at| && !Listing(old(at)[x]) ==> at[x] == old(at)[x]
        invariant forall x :: 0 <= x < |at| && Listing(old(at)[x]) ==>
                    at[x] == old(at)[x] || old(|stack|) + ON_STACK <= at[x]
      {
        c := c - 1;
        RankCollate(c);
        if bucket[Collate(c)] != 0 {
          InRange();
          BucketSize(c);
          BucketsAbove(names, bl, sl, out, d - 1, c, stack, bucket[Collate(c)]);
          BucketZero(c);
          BucketTracked(names, All(at), bl, sl, out, d - 1, Collate(c));
          var e := Entry(if c == 0 then INFINITY else d, bucket[Collate(c)]);
          TrackedPush(names, All(at), stack, sl, out, bl[UNLISTED], e, bl[Collate(c)]);
          StillWhole(names, All(at), bl, d - 1, Collate(c));
          ghost var at0 := at;
          PushBucket(Collate(c), e.depth);
          SameAll(at0, at);
        } else {
          DrainedMore(bl, c);
        }
      }
      InRange();
      AllEmpty(names, bl, sl, out, d - 1);
      forall x | 0 <= x < |at| && Listing(old(at)[x])
        ensures old(|stack|) + ON_STACK <= at[x]
      {
        FoundAt(bl, sl, out, at, x);
      }
    }

    /** The top list is printed. */
    method PrintTop()
      requires Valid() && Ordered(names, stack, sl, out) && stack != []
      requires stack[|stack| - 1].depth == INFINITY || blink[stack[|stack| - 1].head] == 0
      requires Tracked(names, All(at), stack, sl, out, bl[UNLISTED])
      modifies this
      ensures Valid() && Ordered(names, stack, sl, out) && bl == old(bl)
      ensures Tracked(names, All(at), stack, sl, out, bl[UNLISTED]) && All(at) == old(All(at))
      ensures stack == old(stack[..|stack| - 1]) && |at| == old(|at|)
      ensures forall x :: 0 <= x < |at| ==> (at[x] == NOWHERE <==> old(at)[x] == NOWHERE)
      ensures Weight(at, stack, |at|) < old(Weight(at, stack, |at|))
    {
      hide Ordered, Placed, Sortable, Weight, SortedNames, Uniform, AllBefore, Tracked, All;
      ghost var top := |stack| - 1;
      TopNotEmpty(names, stack, sl, out);
      ghost var l := sl[top];
      var cur := stack[|stack| - 1].head;
      out := out + [cur];
      cur := blink[cur];
      ghost var k := 1;
      while cur != 0
        invariant 1 <= k <= |l| && out == old(out) + l[..k] && IsList(blink[..], cur, l[k..])
        decreases |l| - k
        modifies `out
      {
        out := out + [cur];
        cur := blink[cur];
        k := k + 1;
      }
      assert l[..k] == l;
      stack := stack[..|stack| - 1];
      sl := sl[..top];
      ghost var was := at;
      at := seq(|was|, x requires 0 <= x < |was| => if was[x] == ON_STACK + top then PRINTED else was[x]);
      PlacedPrint(bl, old(sl), old(out), was, at);
      OrderedPrint(names, old(stack), old(sl), old(out));
      SameAll(was, at);
      TopNames(names, bl, old(sl), old(out), was);
      TrackedPrint(names, All(at), old(stack), old(sl), old(out), bl[UNLISTED]);
      Lighter(bl, old(sl), old(out), was, old(stack), at, stack);
    }

    /** The names of the top list go to the buckets that their next byte names. */
    method Spread()
      requires Valid() && stack != []
      requires forall c :: Listing(c) ==> bl[c] == []
      modifies bucket, blink, `bl, `sl, `at
      ensures |sl| == |stack| && sl == old(sl)[|stack| - 1 := []] && Placed(bl, sl, out, at)
      ensures bucket.Length == 256 && |bl| == 256 && |at| == |names|
      ensures forall c :: 0 <= c < 256 ==> IsList(blink[..], bucket[c], bl[c])
      ensures forall i :: 0 <= i < |stack| - 1 ==> IsList(blink[..], stack[i].head, sl[i])
      ensures Dealt(names, bl, old(sl)[|stack| - 1], stack[|stack| - 1].depth, old(bl)[UNLISTED])
      ensures forall x :: 0 <= x < |at| ==>
                at[x] == old(at)[x] || (old(at)[x] == ON_STACK + |stack| - 1 && 0 <= at[x] < 256)
    {
      hide Placed, Sortable, Byte, NoDup, Dealing;
      ghost var top := |stack| - 1;
      ghost var l := sl[top];
      var depth := stack[|stack| - 1].depth;
      var next := stack[|stack| - 1].head;
      ghost var rest := l;
      TopNames(names, bl, sl, out, at);
      DealNothing(names, bl, l, depth);
      while next != 0
        invariant bucket.Length == 256 && |bl| == 256 && |at| == |names| && |sl| == top + 1
        invariant IsList(blink[..], next, rest)
        invariant forall c :: 0 <= c < 256 ==> IsList(blink[..], bucket[c], bl[c])
        invariant forall i :: 0 <= i < top ==> IsList(blink[..], stack[i].head, sl[i])
        invariant sl == old(sl)[top := rest] && Placed(bl, sl, out, at)
        invariant forall x :: x in rest ==> x in l
        invariant Dealing(names, bl, l, depth, old(bl)[UNLISTED], rest)
        invariant forall x :: 0 <= x < |at| ==>
                    at[x] == old(at)[x] || (old(at)[x] == ON_STACK + top && 0 <= at[x] < 256)
        decreases rest
        modifies bucket, blink, `bl, `sl, `at
      {
        var cur := next;
        next := blink[cur];
        ghost var link, bl0, at0 := blink[..], bl, at;
        TopPlaced(bl, sl, out, at);
        NameByte(names, cur, depth);
        var c := Byte(names[cur], depth);
        PutInBucket(cur, c);
        PlacedMove(bl0, sl, out, at0, c);
        DealOne(names, bl0, l, depth, old(bl)[UNLISTED], rest, c);
        rest := rest[1..];
        sl := sl[top := rest];
        IsListSame(link, blink[..], next, rest);
        forall i | 0 <= i < top
          ensures IsList(blink[..], stack[i].head, sl[i])
        {
          IsListSame(link, blink[..], stack[i].head, sl[i]);
        }
      }
      DealtAll(names, bl, l, depth, old(bl)[UNLISTED]);
    }

    /** The top list is split by the next byte of its names, and the parts go onto the stack. */
    method Split()
      requires Valid() && Ordered(names, stack, sl, out) && stack != []
      requires stack[|stack| - 1].depth != INFINITY && blink[stack[|stack| - 1].head] != 0
      requires Tracked(names, All(at), stack, sl, out, bl[UNLISTED])
      requires forall c :: Listing(c) ==> bl[c] == []
      modifies this, bucket, blink
      ensures Valid() && Ordered(names, stack, sl, out) && out == old(out)
      ensures Tracked(names, All(at), stack, sl, out, bl[UNLISTED]) && All(at) == old(All(at))
      ensures forall c :: Listing(c) ==> bl[c] == []
      ensures |at| == old(|at|)
      ensures forall x :: 0 <= x < |at| ==> (at[x] == NOWHERE <==> old(at)[x] == NOWHERE)
      ensures Weight(at, stack, |at|) < old(Weight(at, stack, |at|))
    {
      hide Ordered, Placed, Sortable, Weight, Byte, Bucketed, FromList, Tracked, All, Dealt, BucketsWhole, AllLost;
      ghost var top := |stack| - 1;
      TopNotEmpty(names, stack, sl, out);
      TopNames(names, bl, sl, out, at);
      MoreThanOne(blink[..], stack[top].head, sl[top]);
      var depth := stack[|stack| - 1].depth;
      Spread();
      SameAll(old(at), at);
      stack := stack[..|stack| - 1];
      OrderedPop(names, old(stack), old(sl), out);
      TopWhole(names, All(at), old(stack), old(sl), out, bl, old(bl)[UNLISTED]);
      TrackedPop(names, All(at), old(stack), old(sl), out, old(bl)[UNLISTED], bl[UNLISTED]);
      BucketedFrom(names, old(stack), old(sl), out, bl, depth);
      AllInBuckets(bl, sl, out, at);
      sl := sl[..top];
      assert sl == old(sl)[..top];
      Unbucket(depth + 1);
      forall x | 0 <= x < |at|
        ensures at[x] == old(at)[x] || (old(at)[x] == ON_STACK + top && (at[x] == UNLISTED || ON_STACK + top <= at[x]))
        ensures old(at)[x] == ON_STACK + top ==> at[x] == UNLISTED || ON_STACK + top <= at[x]
        ensures at[x] == NOWHERE <==> old(at)[x] == NOWHERE
      {
        FoundAt(old(bl), old(sl), out, old(at), x);
      }
      Lighter(old(bl), old(sl), out, old(at), old(stack), at, stack);
    }

    /** The listed names among `done`, and no others, are in the buckets of their first bytes. */
    ghost predicate Filled(done: seq<nat>)
      reads this, bucket, blink
    {
      && Valid() && stack == [] && out == []
      && (forall x :: 0 <= x < |at| ==> (at[x] == NOWHERE <==> !(x in done && listed[x])))
      && (forall c, x :: 0 <= c < 256 && x in bl[c] && x < |names| ==> Byte(names[x], 0) == c)
    }

    method FillOne(x: nat, ghost done: seq<nat>)
      requires Filled(done) && 0 < x < |names| && listed[x] && x !in done && Sortable(names[x])
      modifies bucket, blink, `bl, `at
      ensures Filled(done + [x]) && |at| == old(|at|)
    {
      hide Placed, Sortable, Byte;
      NowhereFound(bl, sl, out, at, x);
      NameByte(names, x, 0);
      PlacedNew(bl, sl, out, at, x, Byte(names[x], 0));
      PutInBucket(x, Byte(names[x], 0));
    }

    lemma FilledNothing()
      requires bucket.Length == 256 && blink.Length == |names| == |listed| && bucket != blink
      requires forall c :: 0 <= c < 256 ==> bucket[c] == 0
      requires stack == [] && out == [] && bl == seq(256, _ => []) && sl == [] && at == seq(|names|, _ => NOWHERE)
      ensures Filled([])
    {
    }

    /** An unlisted name stays out of the index. */
    lemma FilledSkip(x: nat, done: seq<nat>)
      requires Filled(done) && x < |names| && !listed[x]
      ensures Filled(done + [x])
    {
    }

    lemma FilledAll(done: seq<nat>)
      requires Filled(done)
      ensures Valid() && stack == [] && out == [] && Bucketed(names, bl, sl, out, 0)
      ensures Tracked(names, All(at), stack, sl, out, bl[UNLISTED]) && BucketsWhole(names, All(at), bl, 0)
      ensures forall x :: 0 <= x < |at| ==> (at[x] == NOWHERE <==> !(x in done && listed[x]))
    {
      FirstBucketed(names, bl, sl, out, at);
      FirstTracked(names, bl, sl, out, at);
    }

    /** The listed names of one hash chain go to the buckets. */
    method FillChain(head: nat, link: seq<nat>, ghost chain: seq<nat>, ghost done: seq<nat>)
      requires Filled(done) && IsList(link, head, chain) && |link| == |names| == |listed| == |at|
      requires NoDup(done + chain)
      requires forall x :: x in chain && x < |listed| && listed[x] ==> Sortable(names[x])
      modifies bucket, blink, `bl, `at
      ensures Filled(done + chain) && |at| == old(|at|)
    {
      hide Filled, IsList, Sortable, NoDup;
      var next := head;
      ghost var k := 0;
      NextName(link, next, chain);
      assert done + chain[..k] == done;
      while next != 0
        invariant k <= |chain| && IsList(link, next, chain[k..]) && Filled(done + chain[..k]) && |at| == |names|
        decreases |chain| - k
        modifies bucket, blink, `bl, `at
      {
        var cur := next;
        NextName(link, cur, chain[k..]);
        next := link[cur];
        assert done + chain == (done + chain[..k]) + chain[k..];
        NewName(done + chain, done + chain[..k], chain[k..]);
        assert done + chain[..k + 1] == done + chain[..k] + [cur];
        if listed[cur] {
          FillOne(cur, done + chain[..k]);
        } else {
          FilledSkip(cur, done + chain[..k]);
        }
        k := k + 1;
        NextName(link, next, chain[k..]);
      }
      NextName(link, next, chain[k..]);
      assert done + chain[..k] == done + chain;
    }

    /** Every listed name of the hash table goes to the bucket of its first byte. */
    method Fill(hash: seq<nat>, link: seq<nat>, ghost chains: seq<seq<nat>>)
      requires Chained(hash, link, chains) && |link| == |names| == |listed| == blink.Length
      requires bucket.Length == 256 && bucket != blink && forall c :: 0 <= c < 256 ==> bucket[c] == 0
      requires forall x :: x in Flatten(chains) && x < |listed| && listed[x] ==> Sortable(names[x])
      modifies this, bucket, blink
      ensures Valid() && stack == [] && out == []
      ensures forall x: nat :: x < |at| ==> (at[x] == NOWHERE <==> !(x in Flatten(chains) && listed[x]))
      ensures Bucketed(names, bl, sl, out, 0)
      ensures Tracked(names, All(at), stack, sl, out, bl[UNLISTED]) && BucketsWhole(names, All(at), bl, 0)
    {
      hide Filled, IsList, Sortable, Valid, Flatten, Bucketed, NoDup, Tracked, BucketsWhole, All;
      stack, out := [], [];
      bl, sl, at := seq(256, _ => []), [], seq(|names|, _ => NOWHERE);
      FilledNothing();
      FlattenNothing(chains);
      var h := 0;
      while h < |hash|
        invariant h <= |hash| && Filled(Flatten(chains[..h])) && |at| == |names|
        modifies bucket, blink, `bl, `at
      {
        FlattenSplit(chains, h);
        NoDupFirst(Flatten(chains[..h]) + chains[h], Flatten(chains[h + 1..]));
        FillChain(hash[h], link, chains[h], Flatten(chains[..h]));
        h := h + 1;
      }
      assert chains[..h] == chains;
      FilledAll(Flatten(chains));
    }

    /** The index loop: the listed names of the hash table that are not lost, and no others,
        are printed once, in the order of the collating sequence.  The lost ones are left in
        the bucket of byte 127; all other buckets are empty in the end. */
    method Sort(hash: seq<nat>, link: seq<nat>, ghost chains: seq<seq<nat>>)
      requires Chained(hash, link, chains) && |link| == |names| == |listed| == blink.Length
      requires bucket.Length == 256 && bucket != blink
      requires forall x :: x in Flatten(chains) && x < |listed| && listed[x] ==> Sortable(names[x])
      modifies this, bucket, blink
      ensures NoDup(out) && SortedNames(names, out) && Alphabetical(names, out)
      ensures forall x: nat :: x in out <==> x in Index(chains, listed) && !Lost(names, Index(chains, listed), x)
      ensures |bl| == 256 && IsList(blink[..], bucket[UNLISTED], bl[UNLISTED]) && NoDup(bl[UNLISTED])
      ensures forall x: nat ::
                x in bl[UNLISTED] <==> x in Index(chains, listed) && Lost(names, Index(chains, listed), x)
      ensures forall c :: Listing(c) ==> bucket[c] == 0
    {
      hide Ordered, Placed, Sortable, Weight, Bucketed, Tracked, BucketsWhole, All, Index, Flatten, Chained, Lost,
        Alphabetical;
      var c := 0;
      while c < 256
        invariant c <= 256 && forall k :: 0 <= k < c ==> bucket[k] == 0
        modifies bucket
      {
        bucket[c] := 0;
        c := c + 1;
      }
      Fill(hash, link, chains);
      IndexIs(chains, listed, at);
      NothingOrdered(names);
      SameSize(bl, sl, out, at);
      Unbucket(1);
      while stack != []
        invariant Valid() && Ordered(names, stack, sl, out)
        invariant Tracked(names, All(at), stack, sl, out, bl[UNLISTED]) && All(at) == Index(chains, listed)
        invariant forall c :: Listing(c) ==> bl[c] == []
        decreases Weight(at, stack, |at|)
      {
        SameSize(bl, sl, out, at);
        TopNotEmpty(names, stack, sl, out);
        if blink[stack[|stack| - 1].head] == 0 || stack[|stack| - 1].depth == INFINITY {
          PrintTop();
        } else {
          Split();
        }
      }
      AllPrinted(names, bl, sl, out, at);
      EmptyOrdered(names, stack, sl, out);
      SortedAlphabetical(names, out);
      forall c | Listing(c)
        ensures bucket[c] == 0
      {
        assert IsList(blink[..], bucket[c], bl[c]);
      }
    }
  }

  /** The names that the index is to list. */
  ghost function Index(chains: seq<seq<nat>>, listed: seq<bool>): (all: set<nat>)
    ensures forall x :: x in all ==> x < |listed|
  {
    set x | x in Flatten(chains) && x < |listed| && listed[x]
  }

  lemma IndexIs(chains: seq<seq<nat>>, listed: seq<bool>, at: seq<int>)
    requires |at| == |listed|
    requires forall x: nat :: x < |at| ==> (at[x] == NOWHERE <==> !(x in Flatten(chains) && listed[x]))
    ensures All(at) == Index(chains, listed)
  {
  }

  lemma SameSize(bl: seq<seq<nat>>, sl: seq<seq<nat>>, out: seq<nat>, at: seq<int>)
    requires Placed(bl, sl, out, at)
    ensures |bl| == 256
  {
  }

  lemma EmptyOrdered(names: seq<Name>, stack: seq<Entry>, sl: seq<seq<nat>>, out: seq<nat>)
    requires Ordered(names, stack, sl, out)
    ensures SortedNames(names, out)
  {
  }

  /** The names of the top list are listed. */
  lemma TopNames(names: seq<Name>, bl: seq<seq<nat>>, sl: seq<seq<nat>>, out: seq<nat>, at: seq<int>)
    requires Placed(bl, sl, out, at) && sl != [] && |at| == |names|
    requires forall x :: 0 <= x < |at| && at[x] != NOWHERE ==> Sortable(names[x])
    ensures NoDup(sl[|sl| - 1])
    ensures forall x :: x in sl[|sl| - 1] ==> x in All(at) && x < |names| && Sortable(names[x]) && names[x] != []
  {
    assert AllAt(sl[|sl| - 1], at, ON_STACK + |sl| - 1);
  }

  lemma SameAll(at: seq<int>, at2: seq<int>)
    requires |at| == |at2| && forall x :: 0 <= x < |at| ==> (at[x] == NOWHERE <==> at2[x] == NOWHERE)
    ensures All(at) == All(at2)
  {
  }

  lemma StillWhole(names: seq<Name>, all: set<nat>, bl: seq<seq<nat>>, k: nat, c: nat)
    requires BucketsWhole(names, all, bl, k) && c < 256
    ensures BucketsWhole(names, all, bl[c := []], k)
  {
  }

  lemma FoundAt(bl: seq<seq<nat>>, sl: seq<seq<nat>>, out: seq<nat>, at: seq<int>, x: nat)
    requires Placed(bl, sl, out, at) && x < |at|
    ensures Found(bl, sl, out, at, x)
  {
  }

  lemma NothingAbove(bl: seq<seq<nat>>)
    requires |bl| == 256
    ensures Drained(bl, LAST_RANK + 1)
  {
  }

  lemma BucketSize(c: nat)
    requires c <= LAST_RANK
    ensures Collate(c) < 256 && Listing(Collate(c))
  {
    RankCollate(c);
  }

  /** The buckets of rank c and more are empty. */
  ghost predicate Drained(bl: seq<seq<nat>>, c: nat)
    requires |bl| == 256
  {
    forall r: nat :: c <= r <= LAST_RANK ==> Collate(r) < 256 && bl[Collate(r)] == []
  }

  /** A bucket that is not empty has a byte that the collating sequence lists. */
  lemma InCollate(names: seq<Name>, bl: seq<seq<nat>>, sl: seq<seq<nat>>, out: seq<nat>, k: nat, c: nat)
    requires Bucketed(names, bl, sl, out, k) && Listing(c) && bl[c] != []
    requires forall x :: x in bl[c] ==> x < |names|
    ensures Collated(c) && Rank(c) <= LAST_RANK && Collate(Rank(c)) == c
  {
    var x := bl[c][0];
    assert x in bl[c];
    ByteCollated(names[x], k);
    CollateRank(c);
  }

  /** A bucket above which all are empty may go on top of the stack. */
  lemma BucketsAbove(names: seq<Name>, bl: seq<seq<nat>>, sl: seq<seq<nat>>, out: seq<nat>, k: nat, r: nat,
                     stack: seq<Entry>, head: nat)
    requires Bucketed(names, bl, sl, out, k) && Ordered(names, stack, sl, out) && k < INFINITY && r <= LAST_RANK
    requires Drained(bl, r + 1)
    requires forall c, x :: 0 <= c < 256 && x in bl[c] ==> x < |names|
    requires Collate(r) < 256 && bl[Collate(r)] != []
    ensures Ordered(names, stack + [Entry(if r == 0 then INFINITY else k + 1, head)], sl + [bl[Collate(r)]], out)
    ensures Bucketed(names, bl[Collate(r) := []], sl + [bl[Collate(r)]], out, k)
    ensures Drained(bl[Collate(r) := []], r)
  {
    hide Collate, Rank, Before, Uniform, SortedNames, AllBefore;
    var b := Collate(r);
    var bl2, sl2 := bl[b := []], sl + [bl[b]];
    RankCollate(r);
    BucketZero(r);
    BucketUniform(names, bl, sl, out, k, b);
    forall c, i | Listing(c) && 0 <= i < |sl2|
      ensures AllBefore(names, bl2[c], sl2[i])
    {
      if bl2[c] == [] {
        NothingBefore(names, sl2[i]);
      } else if i == |sl| {
        InCollate(names, bl, sl, out, k, c);
        BucketsOrdered(names, bl, sl, out, k, c, b);
      }
    }
    forall c | Listing(c)
      ensures AllBefore(names, out, bl2[c])
    {
      NothingBefore(names, out);
    }
    forall q: nat | r < q <= LAST_RANK
      ensures Collate(q) < 256 && bl2[Collate(q)] == []
    {
      BucketSize(q);
    }
    DrainedMore(bl2, r);
  }

  lemma DrainedMore(bl: seq<seq<nat>>, c: nat)
    requires |bl| == 256 && c <= LAST_RANK && Collate(c) < 256 && bl[Collate(c)] == []
    requires Drained(bl, c + 1)
    ensures Drained(bl, c)
  {
  }

  lemma BucketZero(r: nat)
    requires r <= LAST_RANK
    ensures Collate(r) == 0 <==> r == 0
  {
    RankCollate(r);
  }

  lemma NothingBefore(names: seq<Name>, s: seq<nat>)
    ensures AllBefore(names, [], s) && AllBefore(names, s, [])
  {
  }

  lemma AllEmpty(names: seq<Name>, bl: seq<seq<nat>>, sl: seq<seq<nat>>, out: seq<nat>, k: nat)
    requires Bucketed(names, bl, sl, out, k) && Drained(bl, 0)
    requires forall c, x :: 0 <= c < 256 && x in bl[c] ==> x < |names|
    ensures forall c :: Listing(c) ==> bl[c] == []
  {
    forall c | Listing(c)
      ensures bl[c] == []
    {
      if bl[c] != [] {
        InCollate(names, bl, sl, out, k, c);
      }
    }
  }

  lemma PlacedPush(bl: seq<seq<nat>>, sl: seq<seq<nat>>, out: seq<nat>, at: seq<int>, c: nat, at2: seq<int>)
    requires Placed(bl, sl, out, at) && c < 256 && |at2| == |at|
    requires forall x :: 0 <= x < |at| ==> at2[x] == if at[x] == c then ON_STACK + |sl| else at[x]
    ensures Placed(bl[c := []], sl + [bl[c]], out, at2)
  {
    var bl2, sl2 := bl[c := []], sl + [bl[c]];
    assert AllAt(bl[c], at, c);
    forall x: nat | x < |at2|
      ensures Found(bl2, sl2, out, at2, x)
    {
      assert Found(bl, sl, out, at, x);
    }
    forall i | 0 <= i < |sl2|
      ensures AllAt(sl2[i], at2, ON_STACK + i)
    {
      if i < |sl| {
        assert AllAt(sl[i], at, ON_STACK + i);
      }
    }
    forall k | 0 <= k < 256
      ensures AllAt(bl2[k], at2, k)
    {
      assert AllAt(bl[k], at, k);
    }
  }

  /** The weight of a name on the stack is what its depth lacks of 256. */
  ghost function Share(at: seq<int>, stack: seq<Entry>, x: nat): nat
    requires x < |at|
  {
    if ON_STACK <= at[x] < ON_STACK + |stack| && stack[at[x] - ON_STACK].depth <= INFINITY then
      INFINITY + 1 - stack[at[x] - ON_STACK].depth
    else 0
  }

  /** What decreases in every round of the sort. */
  ghost function Weight(at: seq<int>, stack: seq<Entry>, n: nat): nat
    requires n <= |at|
  {
    if n == 0 then 0 else Weight(at, stack, n - 1) + Share(at, stack, n - 1)
  }

  lemma {:induction false} LessWeight(at: seq<int>, stack: seq<Entry>, at2: seq<int>, stack2: seq<Entry>,
                                      n: nat, y: nat)
    requires n <= |at| == |at2| && y < |at|
    requires forall x: nat :: x < n ==> Share(at2, stack2, x) <= Share(at, stack, x)
    requires Share(at2, stack2, y) < Share(at, stack, y)
    ensures Weight(at2, stack2, n) <= Weight(at, stack, n)
    ensures y < n ==> Weight(at2, stack2, n) < Weight(at, stack, n)
  {
    if n > 0 {
      LessWeight(at, stack, at2, stack2, n - 1, y);
      assert Share(at2, stack2, n - 1) <= Share(at, stack, n - 1);
    }
  }

  /** Taking the top list off the stack, or putting its names back deeper, lessens the weight. */
  lemma Lighter(bl: seq<seq<nat>>, sl: seq<seq<nat>>, out: seq<nat>, at: seq<int>, stack: seq<Entry>,
                at2: seq<int>, stack2: seq<Entry>)
    requires Placed(bl, sl, out, at) && |stack| == |sl| && stack != [] && |at2| == |at|
    requires sl[|sl| - 1] != [] && stack[|stack| - 1].depth <= INFINITY
    requires stack[..|stack| - 1] <= stack2
    requires forall i :: |stack| - 1 <= i < |stack2| ==> stack[|stack| - 1].depth < stack2[i].depth
    requires forall x :: 0 <= x < |at| ==>
               if at[x] == ON_STACK + |stack| - 1 then at2[x] < ON_STACK || ON_STACK + |stack| - 1 <= at2[x]
               else at2[x] == at[x]
    ensures Weight(at2, stack2, |at2|) < Weight(at, stack, |at|)
  {
    hide Placed, Weight, Share;
    var y := TopName(bl, sl, out, at);
    forall x: nat | x < |at|
      ensures Share(at2, stack2, x) <= Share(at, stack, x)
      ensures at[x] == ON_STACK + |stack| - 1 ==> Share(at2, stack2, x) < Share(at, stack, x)
    {
      AtMost(bl, sl, out, at, x);
      LessShare(at, stack, at2, stack2, x);
    }
    LessWeight(at, stack, at2, stack2, |at|, y);
  }

  lemma TopName(bl: seq<seq<nat>>, sl: seq<seq<nat>>, out: seq<nat>, at: seq<int>) returns (x: nat)
    requires Placed(bl, sl, out, at) && sl != [] && sl[|sl| - 1] != []
    ensures x < |at| && at[x] == ON_STACK + |sl| - 1
  {
    TopPlaced(bl, sl, out, at);
    x := sl[|sl| - 1][0];
  }

  lemma AtMost(bl: seq<seq<nat>>, sl: seq<seq<nat>>, out: seq<nat>, at: seq<int>, x: nat)
    requires Placed(bl, sl, out, at) && x < |at|
    ensures at[x] < ON_STACK + |sl|
  {
    FoundAt(bl, sl, out, at, x);
  }

  lemma LessShare(at: seq<int>, stack: seq<Entry>, at2: seq<int>, stack2: seq<Entry>, x: nat)
    requires x < |at| == |at2| && stack != [] && at[x] < ON_STACK + |stack|
    requires stack[|stack| - 1].depth <= INFINITY && stack[..|stack| - 1] <= stack2
    requires forall i :: |stack| - 1 <= i < |stack2| ==> stack[|stack| - 1].depth < stack2[i].depth
    requires if at[x] == ON_STACK + |stack| - 1 then at2[x] < ON_STACK || ON_STACK + |stack| - 1 <= at2[x]
             else at2[x] == at[x]
    ensures Share(at2, stack2, x) <= Share(at, stack, x)
    ensures at[x] == ON_STACK + |stack| - 1 ==> Share(at2, stack2, x) < Share(at, stack, x)
  {
    if ON_STACK <= at[x] < ON_STACK + |stack| - 1 {
      assert stack[..|stack| - 1][at[x] - ON_STACK] == stack2[at[x] - ON_STACK];
    }
  }

  lemma TopNotEmpty(names: seq<Name>, stack: seq<Entry>, sl: seq<seq<nat>>, out: seq<nat>)
    requires Ordered(names, stack, sl, out) && stack != []
    ensures |sl| == |stack| && sl[|sl| - 1] != [] && stack[|stack| - 1].depth <= INFINITY
  {
  }

  /** Printing the top list keeps every name in one place. */
  lemma PlacedPrint(bl: seq<seq<nat>>, sl: seq<seq<nat>>, out: seq<nat>, at: seq<int>, at2: seq<int>)
    requires Placed(bl, sl, out, at) && sl != [] && |at2| == |at|
    requires forall x :: 0 <= x < |at| ==> at2[x] == if at[x] == ON_STACK + |sl| - 1 then PRINTED else at[x]
    ensures Placed(bl, sl[..|sl| - 1], out + sl[|sl| - 1], at2)
  {
    var top := |sl| - 1;
    assert AllAt(sl[top], at, ON_STACK + top);
    forall x: nat | x < |at2|
      ensures Found(bl, sl[..top], out + sl[top], at2, x)
    {
      assert Found(bl, sl, out, at, x);
    }
    forall i | 0 <= i < top
      ensures AllAt(sl[..top][i], at2, ON_STACK + i)
    {
      assert AllAt(sl[i], at, ON_STACK + i);
    }
    forall c | 0 <= c < 256
      ensures AllAt(bl[c], at2, c)
    {
      assert AllAt(bl[c], at, c);
    }
  }

  /** The top list comes next in the index if it needs no further split. */
  lemma OrderedPrint(names: seq<Name>, stack: seq<Entry>, sl: seq<seq<nat>>, out: seq<nat>)
    requires Ordered(names, stack, sl, out) && stack != []
    requires stack[|stack| - 1].depth == INFINITY || |sl[|sl| - 1]| == 1
    ensures Ordered(names, stack[..|stack| - 1], sl[..|sl| - 1], out + sl[|sl| - 1])
  {
    var top := |stack| - 1;
    var l, out2 := sl[top], out + sl[top];
    forall i, j | 0 <= i < j < |out2| && out2[i] < |names| && out2[j] < |names|
      ensures Before(names[out2[i]], names[out2[j]])
    {
      if i >= |out| {
        assert out2[i] in l && out2[j] in l;
      } else if j >= |out| {
        assert out2[i] in out && out2[j] in l && AllBefore(names, out, l);
      }
    }
    forall i | 0 <= i < top
      ensures AllBefore(names, out2, sl[i])
    {
      assert AllBefore(names, out, sl[i]) && AllBefore(names, l, sl[i]);
    }
  }

  lemma OrderedPop(names: seq<Name>, stack: seq<Entry>, sl: seq<seq<nat>>, out: seq<nat>)
    requires Ordered(names, stack, sl, out) && stack != []
    ensures Ordered(names, stack[..|stack| - 1], sl[..|sl| - 1], out)
  {
  }

  /** Every name in a bucket is from list l and in the bucket of its byte. */
  ghost predicate FromList(names: seq<Name>, bl: seq<seq<nat>>, l: seq<nat>, depth: nat) {
    && |bl| == 256
    && forall c, x :: Listing(c) && x in bl[c] ==>
         x in l && x < |names| && Sortable(names[x]) && Byte(names[x], depth) == c
  }

  /** While a list is dealt, `rest` is still to come. */
  ghost predicate Dealing(names: seq<Name>, bl: seq<seq<nat>>, l: seq<nat>, depth: nat, before: seq<nat>,
                          rest: seq<nat>) {
    && FromList(names, bl, l, depth)
    && (forall x :: x in l && x !in rest && x < |names| ==>
          Byte(names[x], depth) < 256 && x in bl[Byte(names[x], depth)])
    && forall x :: x in bl[UNLISTED] ==> x in before || (x in l && x < |names| && Byte(names[x], depth) == UNLISTED)
  }

  lemma DealNothing(names: seq<Name>, bl: seq<seq<nat>>, l: seq<nat>, depth: nat)
    requires |bl| == 256 && forall c :: Listing(c) ==> bl[c] == []
    ensures Dealing(names, bl, l, depth, bl[UNLISTED], l)
  {
  }

  lemma DealOne(names: seq<Name>, bl: seq<seq<nat>>, l: seq<nat>, depth: nat, before: seq<nat>, rest: seq<nat>, c: nat)
    requires Dealing(names, bl, l, depth, before, rest) && rest != [] && rest[0] in l && rest[0] < |names|
    requires Sortable(names[rest[0]]) && c == Byte(names[rest[0]], depth) < 256
    ensures Dealing(names, bl[c := [rest[0]] + bl[c]], l, depth, before, rest[1..])
  {
    var bl2 := bl[c := [rest[0]] + bl[c]];
    forall x | x in l && x !in rest[1..] && x < |names|
      ensures Byte(names[x], depth) < 256 && x in bl2[Byte(names[x], depth)]
    {
      if x != rest[0] {
        assert x !in rest;
      }
    }
  }

  lemma DealtAll(names: seq<Name>, bl: seq<seq<nat>>, l: seq<nat>, depth: nat, before: seq<nat>)
    requires Dealing(names, bl, l, depth, before, [])
    ensures Dealt(names, bl, l, depth, before)
  {
  }

  lemma NameByte(names: seq<Name>, x: nat, depth: nat)
    requires x < |names| && Sortable(names[x])
    ensures Byte(names[x], depth) < 256
  {
  }

  /** Names from one list of the stack, put into buckets, keep its place in the order. */
  lemma BucketedFrom(names: seq<Name>, stack: seq<Entry>, sl: seq<seq<nat>>, out: seq<nat>, bl: seq<seq<nat>>,
                     depth: nat)
    requires Ordered(names, stack, sl, out) && stack != [] && stack[|stack| - 1].depth == depth < INFINITY
    requires FromList(names, bl, sl[|sl| - 1], depth)
    ensures Bucketed(names, bl, sl[..|sl| - 1], out, depth)
  {
    hide Sortable, Byte, Before, Agree;
    var l := sl[|sl| - 1];
    forall c | Listing(c)
      ensures AllBefore(names, out, bl[c])
    {
      assert AllBefore(names, out, l);
    }
    var below := sl[..|sl| - 1];
    forall c, i | Listing(c) && 0 <= i < |below|
      ensures AllBefore(names, bl[c], below[i])
    {
      assert AllBefore(names, l, sl[i]);
    }
  }

  lemma TopPlaced(bl: seq<seq<nat>>, sl: seq<seq<nat>>, out: seq<nat>, at: seq<int>)
    requires Placed(bl, sl, out, at) && sl != [] && sl[|sl| - 1] != []
    ensures var x := sl[|sl| - 1][0];
            && 0 < x < |at| && at[x] == ON_STACK + |sl| - 1 && x !in sl[|sl| - 1][1..]
            && (forall c :: 0 <= c < 256 ==> x !in bl[c])
            && (forall i :: 0 <= i < |sl| - 1 ==> x !in sl[i])
  {
    var top := |sl| - 1;
    assert AllAt(sl[top], at, ON_STACK + top);
    var x := sl[top][0];
    forall c | 0 <= c < 256
      ensures x !in bl[c]
    {
      assert AllAt(bl[c], at, c);
    }
    forall i | 0 <= i < top
      ensures x !in sl[i]
    {
      assert AllAt(sl[i], at, ON_STACK + i);
    }
  }

  /** The first name of the top list moves to a bucket. */
  lemma PlacedMove(bl: seq<seq<nat>>, sl: seq<seq<nat>>, out: seq<nat>, at: seq<int>, c: nat)
    requires Placed(bl, sl, out, at) && sl != [] && sl[|sl| - 1] != [] && c < 256
    ensures var x, top := sl[|sl| - 1][0], |sl| - 1;
            x < |at| && Placed(bl[c := [x] + bl[c]], sl[top := sl[top][1..]], out, at[x := c])
  {
    TopPlaced(bl, sl, out, at);
    var top := |sl| - 1;
    var x := sl[top][0];
    var bl2, sl2, at2 := bl[c := [x] + bl[c]], sl[top := sl[top][1..]], at[x := c];
    forall y: nat | y < |at2|
      ensures Found(bl2, sl2, out, at2, y)
    {
      assert Found(bl, sl, out, at, y);
    }
    forall i | 0 <= i < |sl2|
      ensures AllAt(sl2[i], at2, ON_STACK + i)
    {
      assert AllAt(sl[i], at, ON_STACK + i);
    }
    forall k | 0 <= k < 256
      ensures AllAt(bl2[k], at2, k)
    {
      assert AllAt(bl[k], at, k);
    }
    assert AllAt(out, at2, PRINTED) by {
      assert AllAt(out, at, PRINTED);
    }
  }

  /** When the top list has been emptied it may be dropped. */
  lemma AllInBuckets(bl: seq<seq<nat>>, sl: seq<seq<nat>>, out: seq<nat>, at: seq<int>)
    requires Placed(bl, sl, out, at) && sl != [] && sl[|sl| - 1] == []
    ensures Placed(bl, sl[..|sl| - 1], out, at)
    ensures forall x :: 0 <= x < |at| ==> at[x] != ON_STACK + |sl| - 1
  {
    forall x: nat | x < |at|
      ensures at[x] != ON_STACK + |sl| - 1
      ensures Found(bl, sl[..|sl| - 1], out, at, x)
    {
      assert Found(bl, sl, out, at, x);
    }
  }

  ghost function Flatten(ss: seq<seq<nat>>): seq<nat> {
    if ss == [] then [] else ss[0] + Flatten(ss[1..])
  }

  lemma {:induction false} FlattenSplit(ss: seq<seq<nat>>, h: nat)
    requires h < |ss|
    ensures Flatten(ss) == Flatten(ss[..h]) + ss[h] + Flatten(ss[h + 1..])
    ensures Flatten(ss[..h + 1]) == Flatten(ss[..h]) + ss[h]
  {
    if h == 0 {
      assert ss[..1][1..] == [];
    } else {
      FlattenSplit(ss[1..], h - 1);
      assert ss[..h][1..] == ss[1..][..h - 1] && ss[..h + 1][1..] == ss[1..][..h];
      assert ss[1..][h..] == ss[h + 1..];
    }
  }

  /** The hash table: chain h is the list that starts at hash[h] and follows `link`, and
      no name is on two chains. */
  ghost predicate Chained(hash: seq<nat>, link: seq<nat>, chains: seq<seq<nat>>) {
    && |hash| == |chains| && NoDup(Flatten(chains))
    && forall h :: 0 <= h < |hash| ==> IsList(link, hash[h], chains[h])
  }

  lemma FlattenNothing(ss: seq<seq<nat>>)
    ensures Flatten(ss[..0]) == []
  {
  }

  lemma NoDupFirst(s: seq<nat>, t: seq<nat>)
    requires NoDup(s + t)
    ensures NoDup(s)
  {
    forall i, j | 0 <= i < j < |s|
      ensures s[i] != s[j]
    {
      assert s[i] == (s + t)[i] && s[j] == (s + t)[j];
    }
  }

  lemma NewName(all: seq<nat>, done: seq<nat>, rest: seq<nat>)
    requires NoDup(all) && all == done + rest && rest != []
    ensures rest[0] in all && rest[0] !in done
  {
    assert all[|done|] == rest[0];
    forall k | 0 <= k < |done|
      ensures done[k] != rest[0]
    {
      assert all[k] == done[k];
    }
  }

  /** In the end every name that was anywhere is printed, or lost. */
  lemma AllPrinted(names: seq<Name>, bl: seq<seq<nat>>, sl: seq<seq<nat>>, out: seq<nat>, at: seq<int>)
    requires Placed(bl, sl, out, at) && sl == [] && |at| == |names| && forall c :: Listing(c) ==> bl[c] == []
    requires forall x :: 0 <= x < |at| ==> at[x] == NOWHERE || at[x] == PRINTED || 0 <= at[x]
    requires Tracked(names, All(at), [], [], out, bl[UNLISTED])
    ensures NoDup(out) && NoDup(bl[UNLISTED]) && forall x :: x in All(at) ==> x < |names|
    ensures forall x: nat :: x in out <==> x in All(at) && !Lost(names, All(at), x)
    ensures forall x: nat :: x in bl[UNLISTED] <==> x in All(at) && Lost(names, All(at), x)
  {
    assert AllAt(out, at, PRINTED) && AllAt(bl[UNLISTED], at, UNLISTED);
    forall x: nat | x < |at| && at[x] != NOWHERE
      ensures x in out || x in bl[UNLISTED]
    {
      assert Found(bl, sl, out, at, x);
    }
    hide Lost;
  }

  lemma NowhereFound(bl: seq<seq<nat>>, sl: seq<seq<nat>>, out: seq<nat>, at: seq<int>, x: nat)
    requires Placed(bl, sl, out, at) && x < |at| && at[x] == NOWHERE
    ensures forall c :: 0 <= c < 256 ==> x !in bl[c]
    ensures forall i :: 0 <= i < |sl| ==> x !in sl[i]
  {
    forall c | 0 <= c < 256
      ensures x !in bl[c]
    {
      assert AllAt(bl[c], at, c);
    }
    forall i | 0 <= i < |sl|
      ensures x !in sl[i]
    {
      assert AllAt(sl[i], at, ON_STACK + i);
    }
  }

  /** A name that is nowhere may go to a bucket. */
  lemma PlacedNew(bl: seq<seq<nat>>, sl: seq<seq<nat>>, out: seq<nat>, at: seq<int>, x: nat, c: nat)
    requires Placed(bl, sl, out, at) && 0 < x < |at| && at[x] == NOWHERE && c < 256
    ensures Placed(bl[c := [x] + bl[c]], sl, out, at[x := c])
  {
    NowhereFound(bl, sl, out, at, x);
    var bl2, at2 := bl[c := [x] + bl[c]], at[x := c];
    forall y: nat | y < |at2|
      ensures Found(bl2, sl, out, at2, y)
    {
      assert Found(bl, sl, out, at, y);
    }
    forall i | 0 <= i < |sl|
      ensures AllAt(sl[i], at2, ON_STACK + i)
    {
      assert AllAt(sl[i], at, ON_STACK + i);
    }
    forall k | 0 <= k < 256
      ensures AllAt(bl2[k], at2, k)
    {
      assert AllAt(bl[k], at, k);
    }
    assert AllAt(out, at2, PRINTED) by {
      assert AllAt(out, at, PRINTED);
    }
  }

  lemma FirstBucketed(names: seq<Name>, bl: seq<seq<nat>>, sl: seq<seq<nat>>, out: seq<nat>, at: seq<int>)
    requires Placed(bl, sl, out, at) && sl == [] && out == [] && |at| == |names|
    requires forall x :: 0 <= x < |at| && at[x] != NOWHERE ==> Sortable(names[x])
    requires forall c, x :: 0 <= c < 256 && x in bl[c] && x < |names| ==> Byte(names[x], 0) == c
    ensures Bucketed(names, bl, sl, out, 0)
  {
    forall c, x | Listing(c) && x in bl[c] && x < |names|
      ensures Sortable(names[x])
    {
      assert AllAt(bl[c], at, c);
    }
  }

  /** The first bytes have been dealt; names that begin with byte 127 are lost. */
  lemma FirstTracked(names: seq<Name>, bl: seq<seq<nat>>, sl: seq<seq<nat>>, out: seq<nat>, at: seq<int>)
    requires Placed(bl, sl, out, at) && sl == [] && out == [] && |at| == |names|
    requires forall x :: 0 <= x < |at| ==> at[x] == NOWHERE || at[x] == PRINTED || 0 <= at[x]
    requires forall x :: 0 <= x < |at| && at[x] != NOWHERE ==> Sortable(names[x])
    requires forall c, x :: 0 <= c < 256 && x in bl[c] && x < |names| ==> Byte(names[x], 0) == c
    ensures Tracked(names, All(at), [], sl, out, bl[UNLISTED]) && BucketsWhole(names, All(at), bl, 0)
  {
    assert AllAt(bl[UNLISTED], at, UNLISTED);
    forall x | x in bl[UNLISTED] && x < |names|
      ensures Lost(names, All(at), x)
    {
      assert Byte(names[x], 0) == UNLISTED;
      ByteCollated(names[x], 0);
      LostAtOnce(names, All(at), x);
    }
    forall y | y in All(at) && y < |names|
      ensures Byte(names[y], 0) < 256 && y in bl[Byte(names[y], 0)]
    {
      assert Found(bl, sl, out, at, y);
    }
  }

  lemma NothingOrdered(names: seq<Name>)
    ensures Ordered(names, [], [], [])
  {
  }
}
