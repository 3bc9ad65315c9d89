/** A concrete input on which the parser loses a scrap that is not a bracket. */
module ParseExamples {
  import opened Productions
  import opened TokenMemory
  import opened Reductions
  import opened Parse
  import opened Conservation
  import opened BracketInputs

  /** A less-than sign followed by a comment: texts 0 and 1. */
  function BracketAndComment(): State {
    State([Scrap(Prelangle, 5, 0), Scrap(Insert, 10, 1)], 0,
          World(Memory([Ch(Code(LessThan)), Ch(Code(Cancel))], [0, 1, 2]), 2, map[]))
  }

  const DEMAND := [YES_MATH, NO_MATH]

  lemma BracketAndCommentFresh()
    ensures Fresh(BracketAndComment(), DEMAND)
  {
  }

  lemma BracketAndCommentTexts()
    ensures var live := BracketAndComment().live;
      Distinct(live) && Texts(live) == [0, 1] && Brackets(live) == {0}
  {
    var live := BracketAndComment().live;
    assert forall i :: 0 <= i < 2 && IsAngle(live[i].cat) ==> i == 0;
    assert 0 in Brackets(live) by {
      assert IsAngle(live[0].cat) && live[0].trans == 0;
    }
  }

  /** The bracket absorbs the comment, and production 84 then replaces both by one sign. */
  lemma CommentIsLost()
    ensures Fresh(BracketAndComment(), DEMAND)
    ensures var r := Translate(BracketAndComment(), DEMAND, true);
      && r.w.mem.Valid() && r.w.mem.Count() >= 1
      && Leaf(1) !in Flat(r.w, r.w.mem.Count() - 1)
  {
    hide Translate, Flat, Fresh, Covers, Scan;
    var s := BracketAndComment();
    BracketAndCommentFresh();
    BracketAndCommentTexts();
    LeadingBracketDrops(s, DEMAND, true);
    TranslateIsSound(s, DEMAND, true);
    var r := Translate(s, DEMAND, true);
    var marks := Flat(r.w, r.w.mem.Count() - 1);
    CoversHolds(marks);
    OneOfTwo(marks, s.live);
  }

  lemma OneOfTwo(marks: seq<Mark>, live: seq<Scrap>)
    requires Distinct(live) && AllUnder(Covers(marks)) == Texts(live) == [0, 1] && Brackets(live) == {0}
    requires !Conserved(marks, live)
    ensures Leaf(1) !in marks
  {
    var c := Covers(marks);
    DropsOrHolds(marks, live);
    CoversHolds(marks);
    assert |c| == |AllUnder(c)| && Under(c[0]) == AllUnder(c)[0] && Under(c[1]) == AllUnder(c)[1];
    var m :| m in c && m.Dropped? && m.text !in Brackets(live);
    assert c[1] == m;
  }
}
