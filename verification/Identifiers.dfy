/** The identifier table: a chained hash table over a shared byte arena. */
module Identifiers {
  import opened LinkedLists

  const HASH_SIZE: nat := 353

  /** The hash code: twice the code so far and the next byte, modulo the table size; the first
      byte counts as it is. */
  function Hash(s: seq<nat>): (h: nat)
    requires s != [] && forall k :: 0 <= k < |s| ==> s[k] < 256
    ensures h < HASH_SIZE
  {
    if |s| == 1 then s[0] else (2 * Hash(s[..|s| - 1]) + s[|s| - 1]) % HASH_SIZE
  }

  predicate Bytes(s: seq<nat>) {
    forall k :: 0 <= k < |s| ==> 0 < s[k] < 256
  }

  class IdTable {
    var mem: seq<nat>          // `byte_mem` up to `byte_ptr`
    var start: seq<nat>        // `byte_start` of every name and of the next one
    var link: seq<nat>
    var hash: seq<nat>
    ghost var chains: seq<seq<nat>>
    ghost var table: map<seq<nat>, nat>

    /** The bytes of the arena are divided among the names. */
    ghost predicate Arena()
      reads `mem, `start, `link
    {
      && |start| == |link| + 1 && 1 <= |link| && start[|link|] == |mem|
      && forall i, j :: 0 <= i <= j < |start| ==> start[i] <= start[j]
    }

    ghost function Name(p: nat): seq<nat>
      requires Arena() && p < |link|
      reads `mem, `start, `link
    {
      mem[start[p]..start[p + 1]]
    }

    /** Entry p is the identifier s on the chain of its hash code. */
    ghost predicate Entered(s: seq<nat>, p: nat)
      requires Arena()
      reads `mem, `start, `link, `chains
    {
      && s != [] && Bytes(s) && p < |link| && Name(p) == s
      && |chains| == HASH_SIZE && p in chains[Hash(s)]
    }

    /** The table knows entry p under its name. */
    ghost predicate Known(p: nat)
      requires Arena()
      reads `mem, `start, `link, `table
    {
      p < |link| && Name(p) in table && table[Name(p)] == p
    }

    ghost predicate Valid()
      reads this
    {
      && Arena() && |hash| == HASH_SIZE == |chains|
      && (forall h :: 0 <= h < HASH_SIZE ==> IsList(link, hash[h], chains[h]))
      && (forall s :: s in table ==> Entered(s, table[s]))
      && (forall h, k :: 0 <= h < HASH_SIZE && 0 <= k < |chains[h]| ==> Known(chains[h][k]))
    }

    /** All names that there were have kept their bytes. */
    twostate predicate Kept()
      reads `mem, `start, `link
    {
      old(Arena()) && Arena() && old(|link|) <= |link| && forall p :: 0 <= p < old(|link|) ==> Name(p) == old(Name(p))
    }

    constructor ()
      ensures Valid() && table == map[]
    {
      mem, start, link, hash := [], [0, 0], [0], seq(HASH_SIZE, _ => 0);
      chains, table := seq(HASH_SIZE, _ => []), map[];
    }

    /** A new name at the end of the arena. */
    method AppendName(s: seq<nat>, l: nat)
      requires Arena()
      modifies `mem, `start, `link
      ensures Kept() && link == old(link) + [l] && Name(old(|link|)) == s
    {
      mem, start, link := mem + s, start + [|mem| + |s|], link + [l];
      forall p | 0 <= p < old(|link|)
        ensures Name(p) == old(Name(p))
      {
      }
    }

    /** More bytes for a new name that is on no chain, as section names add them. */
    method AddChunk(s: seq<nat>)
      requires Valid()
      modifies this
      ensures Valid() && Kept() && table == old(table)
      ensures |link| == old(|link|) + 1 && Name(old(|link|)) == s
    {
      hide Hash, IsList, Arena;
      AppendName(s, 0);
      forall h | 0 <= h < HASH_SIZE
        ensures IsList(link, hash[h], chains[h])
      {
        IsListSame(old(link), link, hash[h], chains[h]);
      }
      StillKnown();
    }

    lemma KnownName(p: nat)
      requires Arena() && Known(p)
      ensures p < |link| && Name(p) in table && table[Name(p)] == p
    {
    }

    lemma NotEmpty()
      requires Arena()
      ensures 1 <= |link|
    {
    }

    /** Entries stay known when only names are added. */
    twostate lemma StillKnown()
      requires old(Valid()) && Kept() && chains == old(chains) && table == old(table)
      ensures forall s :: s in table ==> Entered(s, table[s])
      ensures forall h, k :: 0 <= h < HASH_SIZE && 0 <= k < |chains[h]| ==> Known(chains[h][k])
    {
      hide Hash, Arena;
      forall s | s in table
        ensures Entered(s, table[s])
      {
        assert old(Entered(s, table[s]));
      }
      forall h, k | 0 <= h < HASH_SIZE && 0 <= k < |chains[h]|
        ensures Known(chains[h][k])
      {
        assert old(Known(chains[h][k]));
      }
    }

    method HashCode(s: seq<nat>) returns (h: nat)
      requires s != [] && Bytes(s)
      ensures h == Hash(s)
    {
      h := s[0];
      var i := 1;
      assert s[..1] == [s[0]];
      while i < |s|
        invariant 1 <= i <= |s| && h == Hash(s[..i])
      {
        assert s[..i + 1][..i] == s[..i];
        h := (h + h + s[i]) % HASH_SIZE;
        i := i + 1;
      }
      assert s[..i] == s;
    }

    /** `names_match`. */
    method NamesMatch(p: nat, s: seq<nat>) returns (same: bool)
      requires Arena() && p < |link|
      ensures same <==> Name(p) == s
    {
      if start[p + 1] - start[p] != |s| {
        return false;
      }
      same := mem[start[p]..start[p + 1]] == s;
    }

    /** A new entry at the front of the chain of hash code h. */
    method Enter(s: seq<nat>, h: nat) returns (p: nat)
      requires Valid() && s != [] && Bytes(s) && h == Hash(s) && s !in table
      modifies this
      ensures Valid() && Kept() && p < |link| && Name(p) == s && table == old(table)[s := p] && p == old(|link|)
    {
      hide Hash, IsList, Arena;
      NotEmpty();
      p := |link|;
      AppendName(s, hash[h]);
      StillKnown();
      forall g | 0 <= g < HASH_SIZE
        ensures IsList(link, hash[g], chains[g])
      {
        IsListSame(old(link), link, hash[g], chains[g]);
      }
      Link(s, h, p);
    }

    /** Entry p for s comes first on its chain. */
    method Link(s: seq<nat>, h: nat, p: nat)
      requires Arena() && 0 < p < |link| && Name(p) == s && s != [] && Bytes(s) && h == Hash(s) && s !in table
      requires |hash| == HASH_SIZE == |chains| && link[p] == hash[h]
      requires forall g :: 0 <= g < HASH_SIZE ==> IsList(link, hash[g], chains[g])
      requires forall t :: t in table ==> Entered(t, table[t])
      requires forall g, k :: 0 <= g < HASH_SIZE && 0 <= k < |chains[g]| ==> Known(chains[g][k])
      modifies `hash, `chains, `table
      ensures Valid() && table == old(table)[s := p]
    {
      hide Hash, IsList, Arena;
      hash := hash[h := p];
      chains, table := chains[h := [p] + chains[h]], table[s := p];
      FirstLink(link, p, chains[h]);
      forall t | t in table
        ensures Entered(t, table[t])
      {
        assert t != s ==> old(Entered(t, table[t]));
      }
      forall g, k | 0 <= g < HASH_SIZE && 0 <= k < |chains[g]|
        ensures Known(chains[g][k])
      {
        if g != h {
          assert old(Known(chains[g][k]));
        } else if k > 0 {
          assert old(Known(chains[g][k - 1]));
        }
      }
    }

    /** The search along a chain; 0 if it ends. */
    method Search(s: seq<nat>, h: nat) returns (p: nat)
      requires Valid() && s != [] && Bytes(s) && h == Hash(s)
      ensures p == 0 ==> s !in table
      ensures p != 0 ==> p < |link| && Name(p) == s && s in table && table[s] == p
    {
      hide Hash, IsList, Arena, Known;
      p := hash[h];
      ghost var k := 0;
      NextName(link, p, chains[h]);
      assert s in table ==> Entered(s, table[s]);
      while p != 0
        invariant k <= |chains[h]| && IsList(link, p, chains[h][k..])
        invariant s in table ==> table[s] in chains[h][k..]
        decreases |chains[h]| - k
      {
        NextName(link, p, chains[h][k..]);
        assert Known(chains[h][k]);
        KnownName(p);
        var same := NamesMatch(p, s);
        if same {
          return;
        }
        p := link[p];
        k := k + 1;
      }
      NextName(link, p, chains[h][k..]);
    }

    /** `id_lookup`: the entry for s, which is made if there is none. */
    method IdLookup(s: seq<nat>) returns (p: nat)
      requires Valid() && s != [] && Bytes(s)
      modifies this
      ensures Valid() && Kept() && p < |link| && Name(p) == s
      ensures table == if s in old(table) then old(table) else old(table)[s := old(|link|)]
      ensures s in table && p == table[s]
      ensures s in old(table) ==> mem == old(mem) && link == old(link) && hash == old(hash)
    {
      var h := HashCode(s);
      p := Search(s, h);
      if p == 0 {
        p := Enter(s, h);
      }
    }
  }

  /** Two strings have the same entry exactly if they are equal. */
  lemma SameEntry(t: IdTable, a: seq<nat>, b: seq<nat>)
    requires t.Valid() && a in t.table && b in t.table
    ensures t.table[a] == t.table[b] <==> a == b
  {
    assert t.Entered(a, t.table[a]) && t.Entered(b, t.table[b]);
  }

  lemma FirstLink(link: seq<nat>, p: nat, s: seq<nat>)
    requires s != [] && s[0] == p && 0 < p < |link| && IsList(link, link[p], s[1..])
    ensures IsList(link, p, s)
  {
  }
}
