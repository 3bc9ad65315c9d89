/** The numbers in cross-reference lists: what each operation does to them and the order it keeps. */
module XrefLaws {

  const CITE_FLAG: nat := 10240
  const DEF_FLAG: nat := 20480   // 2 * cite_flag
  const FILE_FLAG: nat := 30720  // 3 * cite_flag

  // ---- Identifiers: uses n and definitions DEF_FLAG + n of section n ----------

  function Sec(n: nat): nat {
    if n >= DEF_FLAG then n - DEF_FLAG else n
  }

  /** All entries are for sections before c. */
  predicate Before(vs: seq<nat>, c: nat) {
    forall n :: n in vs ==> Sec(n) < c
  }

  /** Strictly decreasing in section number, hence one entry for a section at most. */
  predicate Decreasing(vs: seq<nat>) {
    vs == [] || (0 < Sec(vs[0]) < CITE_FLAG && Before(vs[1..], Sec(vs[0])) && Decreasing(vs[1..]))
  }

  lemma {:induction false} DecreasingPairs(vs: seq<nat>)
    ensures Decreasing(vs) <==>
            && (forall i :: 0 <= i < |vs| ==> 0 < Sec(vs[i]) < CITE_FLAG)
            && (forall i, j :: 0 <= i < j < |vs| ==> Sec(vs[i]) > Sec(vs[j]))
  {
    if vs != [] {
      DecreasingPairs(vs[1..]);
      assert forall j :: 0 < j < |vs| ==> vs[j] == vs[1..][j - 1];
    }
  }

  /** The entry for section s, or 0. */
  function Lookup(vs: seq<nat>, s: nat): nat {
    if vs == [] then 0 else if Sec(vs[0]) == s then vs[0] else Lookup(vs[1..], s)
  }

  /** `new_xref`. */
  function WithXref(vs: seq<nat>, m: nat): seq<nat> {
    if vs != [] && (vs[0] == m || vs[0] == m + DEF_FLAG) then vs
    else if vs != [] && m == vs[0] + DEF_FLAG then [m] + vs[1..]
    else [m] + vs
  }

  lemma {:induction false} Missing(vs: seq<nat>, c: nat)
    requires Before(vs, c)
    ensures Lookup(vs, c) == 0
  {
    if vs != [] {
      Missing(vs[1..], c);
    }
  }

  /** A new entry for the current section c keeps the order; a definition stays a definition. */
  lemma WithXrefKeeps(vs: seq<nat>, m: nat, c: nat)
    requires Decreasing(vs) && Before(vs, c + 1) && 0 < c < CITE_FLAG && (m == c || m == c + DEF_FLAG)
    ensures Decreasing(WithXref(vs, m)) && Before(WithXref(vs, m), c + 1)
    ensures forall s: nat :: Lookup(WithXref(vs, m), s) ==
              if s != c then Lookup(vs, s) else if Lookup(vs, c) == c + DEF_FLAG then c + DEF_FLAG else m
  {
    if vs == [] {
      assert ([m] + vs)[1..] == [];
    } else {
      assert ([m] + vs)[1..] == vs && ([m] + vs[1..])[1..] == vs[1..];
      assert vs[0] in vs;
      if Sec(vs[0]) != c {
        assert forall n :: n in vs ==> n == vs[0] || n in vs[1..];
        Missing(vs, c);
      }
    }
  }

  /** The filter for identifiers that a format command makes unindexed. */
  function Definitions(vs: seq<nat>): seq<nat> {
    if vs == [] then [] else (if vs[0] < DEF_FLAG then [] else [vs[0]]) + Definitions(vs[1..])
  }

  lemma {:induction false} DefinitionsKeep(vs: seq<nat>, c: nat)
    requires Decreasing(vs) && Before(vs, c)
    ensures Decreasing(Definitions(vs)) && Before(Definitions(vs), c)
    ensures forall s: nat :: 0 < s ==>
              Lookup(Definitions(vs), s) == if Lookup(vs, s) < DEF_FLAG then 0 else Lookup(vs, s)
  {
    if vs != [] {
      var d := Definitions(vs[1..]);
      DefinitionsKeep(vs[1..], Sec(vs[0]));
      Missing(vs[1..], Sec(vs[0]));
      Missing(d, Sec(vs[0]));
      assert vs[0] in vs && ([vs[0]] + d)[1..] == d && [] + d == d;
    }
  }

  /** What happens to an identifier while sections are read one after the other. */
  datatype Step = NextSection | Use | Define | Unindex

  datatype Listing = Listing(vs: seq<nat>, section: nat)

  function After(l: Listing, s: Step): Listing {
    match s
    case NextSection => l.(section := l.section + 1)
    case Use => l.(vs := WithXref(l.vs, l.section))
    case Define => l.(vs := WithXref(l.vs, l.section + DEF_FLAG))
    case Unindex => l.(vs := Definitions(l.vs))
  }

  function Run(l: Listing, steps: seq<Step>): Listing
    decreases |steps|
  {
    if steps == [] then l else Run(After(l, steps[0]), steps[1..])
  }

  predicate Orderly(l: Listing) {
    Decreasing(l.vs) && Before(l.vs, l.section + 1) && 0 < l.section
  }

  /** Over every run of phase one the list stays in order. */
  lemma {:induction false} RunOrderly(l: Listing, steps: seq<Step>)
    requires Orderly(l) && l.section + |steps| < CITE_FLAG
    ensures Orderly(Run(l, steps))
    decreases |steps|
  {
    if steps != [] {
      if steps[0].Use? || steps[0].Define? {
        WithXrefKeeps(l.vs, l.section + if steps[0].Use? then 0 else DEF_FLAG, l.section);
      } else if steps[0].Unindex? {
        DefinitionsKeep(l.vs, l.section + 1);
      }
      RunOrderly(After(l, steps[0]), steps[1..]);
    }
  }

  /** `underline_xref`: entry m is found, or a use becomes m, or m is inserted before a
      definition in an earlier section, or at the end. */
  function Underlined(vs: seq<nat>, m: nat): seq<nat> {
    if vs == [] then [m]
    else if vs[0] == m then vs
    else if m == vs[0] + DEF_FLAG then [m] + vs[1..]
    else if DEF_FLAG <= vs[0] < m then [m] + vs
    else [vs[0]] + Underlined(vs[1..], m)
  }

  /** The next lower section listed, if any, is listed with a definition. */
  predicate DefinedBelow(vs: seq<nat>, c: nat) {
    vs == [] || (if Sec(vs[0]) < c then vs[0] >= DEF_FLAG else DefinedBelow(vs[1..], c))
  }

  lemma {:induction false} UnderlinedAll(vs: seq<nat>, m: nat)
    requires m >= DEF_FLAG
    ensures m in Underlined(vs, m)
    ensures forall n :: n in Underlined(vs, m) ==> n == m || n in vs
  {
    if vs != [] {
      UnderlinedAll(vs[1..], m);
    }
  }

  /** Underlining keeps the order exactly if the section is listed already or the next lower
      section listed has a definition. */
  lemma {:induction false} UnderlinedOrder(vs: seq<nat>, c: nat)
    requires Decreasing(vs) && 0 < c < CITE_FLAG
    ensures Decreasing(Underlined(vs, c + DEF_FLAG)) <==> Lookup(vs, c) != 0 || DefinedBelow(vs, c)
  {
    var m := c + DEF_FLAG;
    if vs == [] {
      assert [m][1..] == [];
    } else {
      var rest := vs[1..];
      var u := Underlined(rest, m);
      UnderlinedAll(rest, m);
      assert ([vs[0]] + u)[1..] == u && ([m] + vs)[1..] == vs && ([m] + rest)[1..] == rest;
      assert forall n :: n in vs ==> n == vs[0] || n in rest;
      if Sec(vs[0]) > c {
        UnderlinedOrder(rest, c);
      } else if Sec(vs[0]) < c {
        Missing(vs, c);
      }
    }
  }

  /** Whatever comes of the order, the section is listed with a definition afterwards, and
      all other sections as before. */
  lemma {:induction false} UnderlinedLookup(vs: seq<nat>, c: nat)
    requires Decreasing(vs) && 0 < c < CITE_FLAG
    ensures Lookup(Underlined(vs, c + DEF_FLAG), c) == c + DEF_FLAG
    ensures forall s: nat :: s != c ==> Lookup(Underlined(vs, c + DEF_FLAG), s) == Lookup(vs, s)
  {
    var m := c + DEF_FLAG;
    if vs == [] {
      assert [m][1..] == [];
    } else {
      var rest := vs[1..];
      UnderlinedLookup(rest, c);
      var u := Underlined(rest, m);
      assert ([vs[0]] + u)[1..] == u && ([m] + vs)[1..] == vs && ([m] + rest)[1..] == rest;
    }
  }

  // ---- Sections: definitions, citations and uses ------------------------------

  /** 0 for the file flag, 1 for definitions, 2 for citations, 3 for uses. */
  function Group(n: nat): nat {
    if n >= FILE_FLAG then 0 else if n > DEF_FLAG then 1 else if n > CITE_FLAG then 2 else 3
  }

  function Flag(group: nat): nat {
    if group == 0 then FILE_FLAG else if group == 1 then DEF_FLAG else if group == 2 then CITE_FLAG else 0
  }

  /** n is an entry for section 1 to c, or the file flag. */
  predicate Entry(n: nat, c: nat) {
    n == FILE_FLAG || (n < FILE_FLAG && Flag(Group(n)) < n <= Flag(Group(n)) + c)
  }

  predicate Precedes(a: nat, b: nat) {
    Group(a) < Group(b) || (Group(a) == Group(b) && a < b)
  }

  predicate AllAfter(a: nat, vs: seq<nat>) {
    forall n :: n in vs ==> Precedes(a, n)
  }

  /** The file flag if any, then definitions, citations and uses, each group strictly increasing. */
  predicate InOrder(vs: seq<nat>) {
    vs == [] || (AllAfter(vs[0], vs[1..]) && InOrder(vs[1..]))
  }

  predicate Entries(vs: seq<nat>, c: nat) {
    forall n :: n in vs ==> Entry(n, c)
  }

  /** `new_section_xref`: m goes behind the entries above the flag, unless it is the last of them. */
  function Inserted(vs: seq<nat>, m: nat, flag: nat): seq<nat> {
    if vs == [] || vs[0] <= flag then [m] + vs
    else if vs[0] == m && (|vs| == 1 || vs[1] <= flag) then vs
    else [vs[0]] + Inserted(vs[1..], m, flag)
  }

  lemma {:induction false} InsertedAll(vs: seq<nat>, m: nat, flag: nat)
    ensures forall n :: n in Inserted(vs, m, flag) <==> n == m || n in vs
  {
    if vs != [] {
      InsertedAll(vs[1..], m, flag);
    }
  }

  /** A new entry for the current section c keeps the list in order. */
  lemma {:induction false} InsertedKeeps(vs: seq<nat>, group: nat, c: nat)
    requires InOrder(vs) && Entries(vs, c) && 0 < c < CITE_FLAG && 1 <= group <= 3
    ensures var m := Flag(group) + c;
            InOrder(Inserted(vs, m, Flag(group))) && Entries(Inserted(vs, m, Flag(group)), c)
    ensures |Inserted(vs, Flag(group) + c, Flag(group))| == |vs| + if Flag(group) + c in vs then 0 else 1
  {
    var m, flag := Flag(group) + c, Flag(group);
    InsertedAll(vs, m, flag);
    assert Group(m) == group && Entry(m, c);
    if vs == [] {
      assert [m][1..] == [];
    } else {
      var rest := vs[1..];
      InsertedKeeps(rest, group, c);
      InsertedAll(rest, m, flag);
      assert vs[0] in vs && Entry(vs[0], c);
      if |vs| > 1 {
        assert vs[1] in vs && Entry(vs[1], c) && vs[1] in rest && Precedes(vs[0], vs[1]);
      }
      assert vs[0] > flag ==> Precedes(vs[0], m) || vs[0] == m;
      assert ([m] + vs)[1..] == vs && ([vs[0]] + Inserted(rest, m, flag))[1..] == Inserted(rest, m, flag);
      assert forall n :: n in vs ==> n == vs[0] || n in rest;
    }
  }

  lemma {:induction false} InsertedSize(vs: seq<nat>, m: nat, flag: nat)
    ensures Inserted(vs, m, flag) == vs || |Inserted(vs, m, flag)| == |vs| + 1
  {
    if vs != [] {
      InsertedSize(vs[1..], m, flag);
    }
  }

  /** Nothing is added exactly when the entry is there already. */
  lemma InsertedSame(vs: seq<nat>, group: nat, c: nat)
    requires InOrder(vs) && Entries(vs, c) && 0 < c < CITE_FLAG && 1 <= group <= 3
    ensures Inserted(vs, Flag(group) + c, Flag(group)) == vs <==> Flag(group) + c in vs
  {
    InsertedKeeps(vs, group, c);
    InsertedSize(vs, Flag(group) + c, Flag(group));
  }

  /** `set_file_flag`. */
  function WithFile(vs: seq<nat>): seq<nat> {
    if vs != [] && vs[0] == FILE_FLAG then vs else [FILE_FLAG] + vs
  }

  lemma WithFileKeeps(vs: seq<nat>, c: nat)
    requires InOrder(vs) && Entries(vs, c) && c < CITE_FLAG
    ensures InOrder(WithFile(vs)) && Entries(WithFile(vs), c)
    ensures forall n :: n in WithFile(vs) <==> n == FILE_FLAG || n in vs
    ensures |WithFile(vs)| == |vs| + if FILE_FLAG in vs then 0 else 1
  {
    assert ([FILE_FLAG] + vs)[1..] == vs;
    if vs != [] && vs[0] != FILE_FLAG {
      forall n | n in vs
        ensures Precedes(FILE_FLAG, n)
      {
        assert Entry(n, c);
        assert n == vs[0] || n in vs[1..];
      }
    }
  }

  /** The lists of all section names, the current section and `section_xref_switch`. */
  datatype Sections = Sections(lists: seq<seq<nat>>, section: nat, switch: nat)

  /** What happens to section names: a new section begins; the switch is set to definitions
      (group 1), citations (2) or uses (3); name p is noted; name p becomes an output file. */
  datatype SectionStep = Onward | Turn(group: nat) | Note(p: nat) | OutputFile(p: nat)

  /** A step about one of the first n names. */
  predicate StepOk(s: SectionStep, n: nat) {
    && (s.Turn? ==> 1 <= s.group <= 3)
    && (s.Note? || s.OutputFile? ==> s.p < n)
  }

  /** The switch goes back to uses only when an entry is added. */
  function Noted(l: Sections, p: nat): Sections
    requires p < |l.lists|
  {
    var m := l.section + l.switch;
    Sections(l.lists[p := Inserted(l.lists[p], m, l.switch)], l.section, if m in l.lists[p] then l.switch else 0)
  }

  function SectionAfter(l: Sections, s: SectionStep): (r: Sections)
    requires StepOk(s, |l.lists|)
    ensures |r.lists| == |l.lists|
  {
    match s
    case Onward => l.(section := l.section + 1)
    case Turn(g) => l.(switch := Flag(g))
    case Note(p) => Noted(l, p)
    case OutputFile(p) => l.(lists := l.lists[p := WithFile(l.lists[p])])
  }

  function SectionRun(l: Sections, steps: seq<SectionStep>): (r: Sections)
    requires forall k :: 0 <= k < |steps| ==> StepOk(steps[k], |l.lists|)
    ensures |r.lists| == |l.lists|
    decreases |steps|
  {
    if steps == [] then l else SectionRun(SectionAfter(l, steps[0]), steps[1..])
  }

  predicate Grouped(l: Sections) {
    && 0 < l.section && (exists g :: 1 <= g <= 3 && l.switch == Flag(g))
    && forall p :: 0 <= p < |l.lists| ==> InOrder(l.lists[p]) && Entries(l.lists[p], l.section)
  }

  lemma EntriesMore(vs: seq<nat>, c: nat)
    requires Entries(vs, c)
    ensures Entries(vs, c + 1)
  {
    forall n | n in vs
      ensures Entry(n, c + 1)
    {
      assert Entry(n, c);
    }
  }

  lemma StepGrouped(l: Sections, s: SectionStep)
    requires Grouped(l) && l.section + 1 < CITE_FLAG && StepOk(s, |l.lists|)
    ensures Grouped(SectionAfter(l, s))
  {
    match s {
      case Onward =>
        forall p | 0 <= p < |l.lists|
          ensures Entries(l.lists[p], l.section + 1)
        {
          EntriesMore(l.lists[p], l.section);
        }
      case Turn(g) =>
      case Note(p) =>
        var g :| 1 <= g <= 3 && l.switch == Flag(g);
        InsertedKeeps(l.lists[p], g, l.section);
        assert Flag(3) == 0;
      case OutputFile(p) =>
        WithFileKeeps(l.lists[p], l.section);
    }
  }

  /** Over every run each section name's list is the file flag if any, then definitions,
      citations and uses, each group strictly increasing. */
  lemma {:induction false} SectionRunGrouped(l: Sections, steps: seq<SectionStep>)
    requires Grouped(l) && l.section + |steps| < CITE_FLAG
    requires forall k :: 0 <= k < |steps| ==> StepOk(steps[k], |l.lists|)
    ensures Grouped(SectionRun(l, steps))
    decreases |steps|
  {
    if steps != [] {
      StepGrouped(l, steps[0]);
      SectionRunGrouped(SectionAfter(l, steps[0]), steps[1..]);
    }
  }

  /** A citation of name a and then the use of another name b: the use is recorded as a
      citation if and only if a has been cited in the section before. */
  lemma UseAsCitation(l: Sections, a: nat, b: nat)
    requires a < |l.lists| && b < |l.lists| && a != b
    ensures var f := if l.section + CITE_FLAG in l.lists[a] then CITE_FLAG else 0;
            var r := SectionRun(l, [Turn(2), Note(a), Note(b)]);
            r.lists[b] == Inserted(l.lists[b], l.section + f, f)
  {
    hide Inserted, SectionRun;
    var l1 := SectionAfter(l, Turn(2));
    var l2 := SectionAfter(l1, Note(a));
    assert l1.switch == CITE_FLAG && l2.section == l.section && l2.lists[b] == l.lists[b];
    assert l2.switch == if l.section + CITE_FLAG in l.lists[a] then CITE_FLAG else 0;
    ThreeSteps(l, Turn(2), Note(a), Note(b));
  }

  lemma ThreeSteps(l: Sections, s: SectionStep, t: SectionStep, u: SectionStep)
    requires StepOk(s, |l.lists|) && StepOk(t, |l.lists|) && StepOk(u, |l.lists|)
    ensures SectionRun(l, [s, t, u]) == SectionAfter(SectionAfter(SectionAfter(l, s), t), u)
  {
    assert [s, t, u][1..] == [t, u] && [t, u][1..] == [u] && [u][1..] == [];
    var l2 := SectionAfter(SectionAfter(l, s), t);
    assert SectionRun(l2, [u]) == SectionRun(SectionAfter(l2, u), []);
    assert SectionRun(SectionAfter(l, s), [t, u]) == SectionRun(l2, [u]);
  }

  /** All entries of a group. */
  function OfGroup(vs: seq<nat>, group: nat): seq<nat> {
    if vs == [] then [] else (if Group(vs[0]) == group then [vs[0]] else []) + OfGroup(vs[1..], group)
  }

  /** The entries at the front that are above the flag, and the rest. */
  function Front(vs: seq<nat>, flag: nat): seq<nat> {
    if vs == [] || vs[0] <= flag then [] else [vs[0]] + Front(vs[1..], flag)
  }

  function Back(vs: seq<nat>, flag: nat): seq<nat> {
    if vs == [] || vs[0] <= flag then vs else Back(vs[1..], flag)
  }

  /** In a list that is in order and begins with group g, the front is group g and the back is
      what follows. */
  lemma {:induction false} FrontIsGroup(vs: seq<nat>, group: nat, c: nat)
    requires InOrder(vs) && Entries(vs, c) && c < CITE_FLAG && 1 <= group <= 3
    requires forall n :: n in vs ==> Group(n) >= group
    ensures Front(vs, Flag(group)) == OfGroup(vs, group)
    ensures InOrder(Back(vs, Flag(group))) && Entries(Back(vs, Flag(group)), c)
    ensures forall n :: n in Back(vs, Flag(group)) ==> Group(n) > group
    ensures forall g :: g > group ==> OfGroup(Back(vs, Flag(group)), g) == OfGroup(vs, g)
  {
    if vs != [] {
      assert vs[0] in vs && Entry(vs[0], c);
      FrontIsGroup(vs[1..], group, c);
      if vs[0] <= Flag(group) {
        forall n | n in vs
          ensures Group(n) > group
        {
          assert n == vs[0] || (n in vs[1..] && Precedes(vs[0], n));
        }
        NoneOfGroup(vs, group);
      }
    }
  }

  lemma {:induction false} NoneOfGroup(vs: seq<nat>, group: nat)
    requires forall n :: n in vs ==> Group(n) != group
    ensures OfGroup(vs, group) == []
  {
    if vs != [] {
      NoneOfGroup(vs[1..], group);
    }
  }
}
