/** Section names as they are stored: a first piece in the node's entry of the name
    directory, and further pieces in a chain of later entries. */
module NameChunks {
  import opened WebStrings

  /** The name directory.  `bytes[i]` is what entry i holds; a piece that ends in a
      space is unfinished.  `link` is the left link of a node and the next piece of
      any other entry; entry 0 stands for the null pointer. */
  datatype Dir = Dir(bytes: seq<string>, link: seq<nat>, rlink: seq<nat>, plen: seq<nat>) {
    function Size(): nat {
      |bytes|
    }
  }

  predicate More(s: string) {
    s != "" && s[|s| - 1] == ' '
  }

  function Piece(s: string): string {
    if More(s) then s[..|s| - 1] else s
  }

  /** Which node an entry belongs to: nodes belong to themselves, other names and entry 0 to 0. */
  type Owners = seq<nat>

  ghost predicate Shaped(d: Dir) {
    && |d.bytes| > 0 && |d.link| == |d.bytes| && |d.rlink| == |d.bytes| && |d.plen| == |d.bytes|
  }

  ghost predicate IsPiece(q: nat, own: Owners) {
    q < |own| && 0 < own[q] < q
  }

  /** Chains go forward and stay with their node; an unfinished piece after the first is not empty. */
  ghost predicate Chained(d: Dir, own: Owners) {
    && Shaped(d) && |own| == d.Size() && own[0] == 0
    && (forall q {:trigger own[q]} :: 0 <= q < |own| && own[q] == q && q != 0 && More(d.bytes[q]) ==>
          q + 1 < |own| && own[q + 1] == q)
    && (forall q: nat {:trigger IsPiece(q, own)} :: IsPiece(q, own) ==>
          && (d.link[q] == 0 || (q < d.link[q] < |own| && own[d.link[q]] == own[q]))
          && (More(d.bytes[q]) ==> |d.bytes[q]| >= 2))
  }

  /** The text of the pieces from entry q on. */
  ghost function Rest(d: Dir, own: Owners, q: nat): string
    requires Chained(d, own) && (q == 0 || IsPiece(q, own))
    decreases d.Size() - q, q
  {
    if q == 0 then ""
    else if More(d.bytes[q]) then Piece(d.bytes[q]) + RestOf(d, own, q)
    else d.bytes[q]
  }

  ghost function RestOf(d: Dir, own: Owners, q: nat): string
    requires Chained(d, own) && IsPiece(q, own)
    decreases d.Size() - q, 0
  {
    if d.link[q] == 0 then "" else Rest(d, own, d.link[q])
  }

  /** Does the chain from entry q on end in a finished piece? */
  ghost predicate Ends(d: Dir, own: Owners, q: nat)
    requires Chained(d, own) && (q == 0 || IsPiece(q, own))
    decreases d.Size() - q
  {
    if q == 0 then false
    else if More(d.bytes[q]) then d.link[q] != 0 && Ends(d, own, d.link[q])
    else true
  }

  ghost predicate IsNode(p: nat, own: Owners) {
    0 < p < |own| && own[p] == p
  }

  /** Where the second piece of node p is, or 0. */
  function Second(d: Dir, p: nat): nat
    requires p + 1 < |d.link|
  {
    d.link[p + 1]
  }

  /** All that is known of the name of node p. */
  ghost function FullName(d: Dir, own: Owners, p: nat): string
    requires Chained(d, own) && IsNode(p, own)
  {
    if More(d.bytes[p]) then
      assert own[p] == p && IsPiece(p + 1, own);
      Piece(d.bytes[p]) + Rest(d, own, Second(d, p))
    else d.bytes[p]
  }

  ghost predicate Complete(d: Dir, own: Owners, p: nat)
    requires Chained(d, own) && IsNode(p, own)
  {
    if More(d.bytes[p]) then
      assert own[p] == p && IsPiece(p + 1, own);
      Ends(d, own, Second(d, p))
    else true
  }

  // ----- comparing

  /** What `section_name_cmp` should answer: a finished name is compared as it is, an
      unfinished one may be extended. */
  function Classify(full: string, complete: bool, name: string): Order {
    var c := Cmp(name, full);
    if complete && c == Extension then BadExtension
    else if !complete && c == Equal then Extension
    else c
  }

  lemma {:induction false} ClassifyAppend(name: string, a: string, b: string, complete: bool)
    requires a <= name
    ensures Classify(a + b, complete, name) == Classify(b, complete, name[|a|..])
  {
    CmpAppend(name, a, b);
  }

  /** One entry settles the matter unless its piece is unfinished and begins the name. */
  lemma ClassifyHere(name: string, a: string, b: string, complete: bool)
    requires !(a <= name)
    ensures Classify(a + b, complete, name) == Cmp(name, a)
    ensures Cmp(name, a) == Prefix || Cmp(name, a) == Less || Cmp(name, a) == Greater
  {
    CmpMeaning(name, a);
    CmpMeaning(name, a + b);
    if name < a {
      assert (a + b)[..|name|] == name;
    } else {
      assert (a + b)[..|a|] == a;
      CmpCut(name, a + b, |a|);
      CmpMeaning(a, name);
    }
  }

  // ----- what does not change

  /** Entries that a node does not own may change without changing its name. */
  ghost predicate SameFor(d: Dir, e: Dir, own: Owners, own2: Owners, p: nat) {
    && Shaped(d) && Shaped(e) && |own| == d.Size() <= e.Size() == |own2|
    && forall q :: 0 <= q < |own| && own[q] == p ==>
         own2[q] == p && e.bytes[q] == d.bytes[q] && (IsPiece(q, own) ==> e.link[q] == d.link[q])
  }

  lemma {:induction false} RestSame(d: Dir, e: Dir, own: Owners, own2: Owners, p: nat, q: nat)
    requires Chained(d, own) && Chained(e, own2) && SameFor(d, e, own, own2, p)
    requires q == 0 || (IsPiece(q, own) && own[q] == p)
    ensures q == 0 || IsPiece(q, own2)
    ensures Rest(e, own2, q) == Rest(d, own, q) && Ends(e, own2, q) == Ends(d, own, q)
    decreases d.Size() - q
  {
    if q != 0 && More(d.bytes[q]) && d.link[q] != 0 {
      RestSame(d, e, own, own2, p, d.link[q]);
    }
  }

  lemma NameSame(d: Dir, e: Dir, own: Owners, own2: Owners, p: nat)
    requires Chained(d, own) && Chained(e, own2) && SameFor(d, e, own, own2, p) && IsNode(p, own)
    ensures IsNode(p, own2)
    ensures FullName(e, own2, p) == FullName(d, own, p) && Complete(e, own2, p) == Complete(d, own, p)
  {
    if More(d.bytes[p]) {
      assert own[p + 1] == p && IsPiece(p + 1, own);
      RestSame(d, e, own, own2, p, Second(d, p));
    }
  }

  // ----- extending

  /** The entry in which the chain from q on ends. */
  ghost function Last(d: Dir, own: Owners, q: nat): (r: nat)
    requires Chained(d, own) && IsPiece(q, own)
    ensures IsPiece(r, own) && own[r] == own[q] && d.link[r] == 0 && q <= r
    decreases d.Size() - q
  {
    if d.link[q] == 0 then q else Last(d, own, d.link[q])
  }

  /** A new entry holding `piece`, linked at the end of node p's chain. */
  ghost function ExtendedDir(d: Dir, own: Owners, p: nat, piece: string): Dir
    requires Chained(d, own) && IsNode(p, own) && More(d.bytes[p])
  {
    var last := Last(d, own, p + 1);
    Dir(d.bytes + [piece], d.link[last := d.Size()] + [0], d.rlink + [0], d.plen + [0])
  }

  lemma ExtendedChained(d: Dir, own: Owners, p: nat, piece: string)
    requires Chained(d, own) && IsNode(p, own) && More(d.bytes[p]) && (More(piece) ==> |piece| >= 2)
    ensures Chained(ExtendedDir(d, own, p, piece), own + [p])
    ensures forall x :: IsNode(x, own) && x != p ==> SameFor(d, ExtendedDir(d, own, p, piece), own, own + [p], x)
  {
    var last := Last(d, own, p + 1);
    var e, own2 := ExtendedDir(d, own, p, piece), own + [p];
    forall q: nat {:trigger IsPiece(q, own2)} | IsPiece(q, own2)
      ensures (e.link[q] == 0 || (q < e.link[q] < |own2| && own2[e.link[q]] == own2[q]))
      ensures More(e.bytes[q]) ==> |e.bytes[q]| >= 2
    {
      if q < |own| {
        assert IsPiece(q, own);
      }
    }
    forall q {:trigger own2[q]} | 0 <= q < |own2| && own2[q] == q && q != 0
      ensures More(e.bytes[q]) ==> q + 1 < |own2| && own2[q + 1] == q
    {
      assert q < |own| && own[q] == q;
    }
  }

  lemma {:induction false} RestExtended(d: Dir, own: Owners, p: nat, piece: string, q: nat)
    requires Chained(d, own) && IsNode(p, own) && More(d.bytes[p]) && (More(piece) ==> |piece| >= 2)
    requires IsPiece(q, own) && own[q] == p && More(d.bytes[q]) && !Ends(d, own, q)
    requires Last(d, own, p + 1) == Last(d, own, q)
    ensures Chained(ExtendedDir(d, own, p, piece), own + [p])
    ensures var e := ExtendedDir(d, own, p, piece); var o := own + [p];
      && IsPiece(q, o) && Rest(e, o, q) == Rest(d, own, q) + Piece(piece) && (Ends(e, o, q) <==> !More(piece))
    decreases d.Size() - q
  {
    hide FullName, Complete, Cmp, Classify;
    ExtendedChained(d, own, p, piece);
    var e, o, n := ExtendedDir(d, own, p, piece), own + [p], d.Size();
    if d.link[q] == 0 {
      assert e.link[q] == n && e.bytes[q] == d.bytes[q] && e.bytes[n] == piece && e.link[n] == 0;
      assert Rest(e, o, n) == Piece(piece);
      assert Rest(d, own, q) == Piece(d.bytes[q]) + "";
    } else {
      RestExtended(d, own, p, piece, d.link[q]);
      assert e.link[q] == d.link[q] && e.bytes[q] == d.bytes[q];
      var a, b, c := Piece(d.bytes[q]), Rest(d, own, d.link[q]), Piece(piece);
      assert (a + b) + c == a + (b + c);
    }
  }

  /** Extending an unfinished name appends the new piece to it. */
  lemma NameExtended(d: Dir, own: Owners, p: nat, piece: string)
    requires Chained(d, own) && IsNode(p, own) && !Complete(d, own, p) && (More(piece) ==> |piece| >= 2)
    ensures Chained(ExtendedDir(d, own, p, piece), own + [p])
    ensures var e := ExtendedDir(d, own, p, piece); var o := own + [p];
      && IsNode(p, o) && FullName(e, o, p) == FullName(d, own, p) + Piece(piece)
      && (Complete(e, o, p) <==> !More(piece))
  {
    ExtendedChained(d, own, p, piece);
    var e, o, n := ExtendedDir(d, own, p, piece), own + [p], d.Size();
    assert own[p + 1] == p && IsPiece(p + 1, own);
    var q := Second(d, p);
    if q == 0 {
      assert Second(e, p) == n && e.bytes[n] == piece && e.link[n] == 0;
      assert Rest(e, o, n) == Piece(piece);
      assert Piece(d.bytes[p]) + "" == Piece(d.bytes[p]);
    } else {
      UnfinishedPieces(d, own, q);
      RestExtended(d, own, p, piece, q);
      var a, b, c := Piece(d.bytes[p]), Rest(d, own, q), Piece(piece);
      assert (a + b) + c == a + (b + c);
    }
  }

  lemma UnfinishedPieces(d: Dir, own: Owners, q: nat)
    requires Chained(d, own) && IsPiece(q, own) && !Ends(d, own, q)
    ensures More(d.bytes[q])
  {
  }

  // ----- a new node

  /** A new entry for the first piece; an unfinished name gets an empty second entry. */
  function Appended(d: Dir, name: string, isPref: bool): Dir {
    if isPref then Dir(d.bytes + [name + " ", ""], d.link + [0, 0], d.rlink + [0, 0], d.plen + [|name|, 0])
    else Dir(d.bytes + [name], d.link + [0], d.rlink + [0], d.plen + [|name|])
  }

  function AppendedOwners(own: Owners, isPref: bool): Owners {
    own + (if isPref then [|own|, |own|] else [|own|])
  }

  /** Making entry p a child of node `par`. */
  function Attach(d: Dir, par: nat, c: Order, p: nat): Dir
    requires par < |d.link| && par < |d.rlink|
  {
    if par == 0 then d
    else if c == Less then d.(link := d.link[par := p])
    else d.(rlink := d.rlink[par := p])
  }

  lemma AppendedChained(d: Dir, own: Owners, name: string, isPref: bool)
    requires Chained(d, own) && (isPref || !More(name))
    ensures Chained(Appended(d, name, isPref), AppendedOwners(own, isPref))
    ensures IsNode(d.Size(), AppendedOwners(own, isPref))
    ensures forall x :: IsNode(x, own) ==> SameFor(d, Appended(d, name, isPref), own, AppendedOwners(own, isPref), x)
  {
    var e, own2, p := Appended(d, name, isPref), AppendedOwners(own, isPref), d.Size();
    forall q: nat {:trigger IsPiece(q, own2)} | IsPiece(q, own2)
      ensures e.link[q] == 0 || (q < e.link[q] < |own2| && own2[e.link[q]] == own2[q])
      ensures More(e.bytes[q]) ==> |e.bytes[q]| >= 2
    {
      if q < p {
        assert IsPiece(q, own);
      }
    }
    forall q {:trigger own2[q]} | 0 <= q < |own2| && own2[q] == q && q != 0
      ensures More(e.bytes[q]) ==> q + 1 < |own2| && own2[q + 1] == q
    {
      if q < p {
        assert own[q] == q;
      }
    }
  }

  lemma AppendedName(d: Dir, own: Owners, name: string, isPref: bool)
    requires Chained(d, own) && (isPref || !More(name))
    ensures Chained(Appended(d, name, isPref), AppendedOwners(own, isPref))
    ensures var e := Appended(d, name, isPref); var own2 := AppendedOwners(own, isPref);
      && IsNode(d.Size(), own2) && FullName(e, own2, d.Size()) == name && Complete(e, own2, d.Size()) == !isPref
      && name <= e.bytes[d.Size()] && Piece(e.bytes[d.Size()]) == name && e.plen[d.Size()] == |name|
  {
    AppendedChained(d, own, name, isPref);
    var e, own2, p := Appended(d, name, isPref), AppendedOwners(own, isPref), d.Size();
    if isPref {
      assert e.bytes[p] == name + " " && Piece(name + " ") == name;
      assert own2[p] == p && e.link[p + 1] == 0 && Second(e, p) == 0;
      assert Rest(e, own2, 0) == "" && name + "" == name;
    }
  }

  /** Tree links are not part of any name. */
  lemma AttachSame(d: Dir, own: Owners, par: nat, c: Order, p: nat, x: nat)
    requires Chained(d, own) && (par == 0 || IsNode(par, own)) && IsNode(x, own) && par < d.Size()
    ensures Chained(Attach(d, par, c, p), own)
    ensures FullName(Attach(d, par, c, p), own, x) == FullName(d, own, x)
    ensures Complete(Attach(d, par, c, p), own, x) == Complete(d, own, x)
  {
    var e := Attach(d, par, c, p);
    assert Chained(e, own) by {
      forall q: nat {:trigger IsPiece(q, own)} | IsPiece(q, own)
        ensures e.link[q] == d.link[q]
      {
      }
    }
    NameSame(d, e, own, own, x);
  }
}
