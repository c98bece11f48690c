/**
 * A guess in which a reference column ends up followed by a segment-id column. The column
 * that followed the reference turns unknown in the second round, and because the token-seen
 * flag starts false in every round and the token column is not re-analyzed, it is re-read as
 * an id or token column in the third round and becomes a segment id.
 */
module GuessingFinding {
  import opened Wrappers
  import opened Text
  import opened ColSpec
  import opened Guessing
  import opened GuessingFacts
  import opened GuessingExamples

  const AfterOne: seq<Role> := [Token, LocalRef, LocalRef, Event, Unknown]
  const AfterTwo: seq<Role> := [Token, LocalRef, Unknown, Event, SegmentId]

  /** Words, two columns of local references, then two word columns that are not entity tags. */
  ghost predicate FirstSegment(s: Segment)
  {
    && Fits(s, 5) && |s| > 1 && Varied(s, 0) && LocalNumbers(s, 1) && LocalNumbers(s, 2)
    && !AllDigits(s, 3) && !AllDigits(s, 4) && !AllEntityTags(s, 4)
  }

  /** The second reference column holds words, the last column one value. */
  ghost predicate SecondSegment(s: Segment)
  {
    Fits(s, 5) && |s| > 1 && LocalNumbers(s, 1) && !AllDigits(s, 2) && Constant(s, 4)
  }

  /** The column after the first reference holds one value. */
  ghost predicate ThirdSegment(s: Segment)
  {
    Fits(s, 5) && |s| > 1 && LocalNumbers(s, 1) && Constant(s, 2)
  }

  /** A word column after the token column is an annotation. */
  lemma AnnotationColumn(g: seq<Role>, s: Segment, col: nat)
    requires col < |g| && g[col] == Unknown && !AllDigits(s, col)
    ensures ColumnAnalysis(g, s, col, true) == Ok((g[col := Annotation], true))
  {
  }

  /** A column of local references after the token column. */
  lemma LocalColumn(g: seq<Role>, s: Segment, col: nat)
    requires col < |g| && g[col] == Unknown && LocalEnum !in g && LocalNumbers(s, col)
    ensures ColumnAnalysis(g, s, col, true) == Ok((g[col := LocalRef], true))
  {
    LocalStep(g, s, col);
  }

  lemma FirstAnalysisTail(s: Segment)
    requires FirstSegment(s)
    ensures AnalyzedFrom([Token, LocalRef, LocalRef, Unknown, Unknown], s, 3, true)
         == Ok(([Token, LocalRef, LocalRef, Annotation, Annotation], true))
  {
    var g3 := [Token, LocalRef, LocalRef, Unknown, Unknown];
    var g4 := [Token, LocalRef, LocalRef, Annotation, Unknown];
    var g5 := [Token, LocalRef, LocalRef, Annotation, Annotation];
    AnnotationColumn(g3, s, 3);
    assert g3[3 := Annotation] == g4;
    AnalyzedStep(g3, s, 3, true, g4, true);
    AnnotationColumn(g4, s, 4);
    assert g4[4 := Annotation] == g5;
    AnalyzedStep(g4, s, 4, true, g5, true);
  }

  lemma FirstReference(s: Segment)
    requires LocalNumbers(s, 1)
    ensures AnalyzedFrom([Token, Unknown, Unknown, Unknown, Unknown], s, 1, true)
         == AnalyzedFrom([Token, LocalRef, Unknown, Unknown, Unknown], s, 2, true)
  {
    var g1 := [Token, Unknown, Unknown, Unknown, Unknown];
    var g2 := [Token, LocalRef, Unknown, Unknown, Unknown];
    assert LocalEnum !in g1;
    LocalColumn(g1, s, 1);
    assert g1[1 := LocalRef] == g2;
    AnalyzedStep(g1, s, 1, true, g2, true);
  }

  lemma SecondReference(s: Segment)
    requires LocalNumbers(s, 2)
    ensures AnalyzedFrom([Token, LocalRef, Unknown, Unknown, Unknown], s, 2, true)
         == AnalyzedFrom([Token, LocalRef, LocalRef, Unknown, Unknown], s, 3, true)
  {
    var g2 := [Token, LocalRef, Unknown, Unknown, Unknown];
    var g3 := [Token, LocalRef, LocalRef, Unknown, Unknown];
    assert LocalEnum !in g2;
    LocalColumn(g2, s, 2);
    assert g2[2 := LocalRef] == g3;
    AnalyzedStep(g2, s, 2, true, g3, true);
  }

  lemma FirstAnalysis(s: Segment)
    requires FirstSegment(s)
    ensures AnalyzedFrom(Unknowns(5), s, 0, false)
         == Ok(([Token, LocalRef, LocalRef, Annotation, Annotation], true))
  {
    var g0 := Unknowns(5);
    var g1 := [Token, Unknown, Unknown, Unknown, Unknown];
    assert g0 == [Unknown, Unknown, Unknown, Unknown, Unknown];
    TokenStep(g0, s, 0);
    assert g0[0 := Token] == g1;
    AnalyzedStep(g0, s, 0, false, g1, true);
    FirstReference(s);
    SecondReference(s);
    FirstAnalysisTail(s);
  }

  lemma FirstAssignment(s: Segment)
    requires !AllEntityTags(s, 4)
    ensures AssignedFrom([Token, LocalRef, LocalRef, Annotation, Annotation], s, 0) == Ok(AfterOne)
  {
    var g := [Token, LocalRef, LocalRef, Annotation, Annotation];
    var h := [Token, LocalRef, LocalRef, Event, Annotation];
    assert FirstNonRef(g, 2) == 3;
    assert Disambiguate(3, 1) == Event;
    assert g[3 := Event] == h;
    assert AnnotationStep(g, s, 1) == Ok(h);
    assert FirstNonRef(h, 3) == 3;
    assert AnnotationStep(h, s, 2) == Ok(h);
    AssignedStep(g, s, 0, g);
    AssignedStep(g, s, 1, h);
    AssignedStep(h, s, 2, h);
    AssignedStep(h, s, 3, h);
    LastColumnUnknown(s);
  }

  /** The last column has no tag to its left and follows no token, so it stays unknown. */
  lemma LastColumnUnknown(s: Segment)
    requires !AllEntityTags(s, 4)
    ensures AssignedFrom([Token, LocalRef, LocalRef, Event, Annotation], s, 4) == Ok(AfterOne)
  {
    var h := [Token, LocalRef, LocalRef, Event, Annotation];
    assert !TagToTheLeft(h, 4);
    assert TagRole(h, s, 4) == Unknown;
    assert h[4 := Unknown] == AfterOne;
    assert AnnotationStep(h, s, 4) == Ok(AfterOne);
    AssignedStep(h, s, 4, AfterOne);
  }

  /** The first round: the last column has no role yet, so the guess is incomplete. */
  lemma RoundOne(s: Segment)
    requires FirstSegment(s)
    ensures Refined(Unknowns(5), s) == Ok((AfterOne, true))
    ensures !Complete(AfterOne)
  {
    FirstAnalysis(s);
    FirstAssignment(s);
    assert AfterOne[4] == Unknown;
  }

  /** The second round up to the event column: the word-valued second reference turns unknown. */
  const DroppedReference: seq<Role> := [Token, LocalRef, Unknown, Event, Unknown]

  /** The third round's analysis: the column after the reference is read as a segment id. */
  const ThirdAnalyzed: seq<Role> := [Token, LocalRef, SegmentId, Event, SegmentId]

  lemma SecondAnalysis(s: Segment)
    requires SecondSegment(s)
    ensures AnalyzedFrom(AfterOne, s, 0, false) == Ok((AfterTwo, false))
  {
    SecondAnalysisHead(s);
    SecondAnalysisTail(s);
  }

  lemma SecondAnalysisHead(s: Segment)
    requires LocalNumbers(s, 1) && !AllDigits(s, 2)
    ensures AnalyzedFrom(AfterOne, s, 0, false) == AnalyzedFrom(DroppedReference, s, 3, false)
  {
    KeptFirstReference(s);
    DroppedSecondReference(s);
  }

  /** The token and the first reference column of `AfterOne` are kept. */
  lemma KeptFirstReference(s: Segment)
    requires LocalNumbers(s, 1)
    ensures AnalyzedFrom(AfterOne, s, 0, false) == AnalyzedFrom(AfterOne, s, 2, false)
  {
    var g := AfterOne;
    LocalStep(g, s, 1);
    assert g[1 := LocalRef] == g;
    AnalyzedStep(g, s, 0, false, g, false);
    AnalyzedStep(g, s, 1, false, g, false);
  }

  /** A reference column of words is no reference. */
  lemma DroppedSecondReference(s: Segment)
    requires !AllDigits(s, 2)
    ensures AnalyzedFrom(AfterOne, s, 2, false) == AnalyzedFrom(DroppedReference, s, 3, false)
  {
    assert AfterOne[2 := Unknown] == DroppedReference;
    AnalyzedStep(AfterOne, s, 2, false, DroppedReference, false);
  }

  lemma SecondAnalysisTail(s: Segment)
    requires |s| > 1 && Constant(s, 4)
    ensures AnalyzedFrom(DroppedReference, s, 3, false) == Ok((AfterTwo, false))
  {
    var g := DroppedReference;
    AnalyzedStep(g, s, 3, false, g, false);
    assert g[4 := SegmentId] == AfterTwo;
    AnalyzedStep(g, s, 4, false, AfterTwo, false);
  }

  /** No column of `AfterTwo` is an annotation, so its assignment keeps it. */
  lemma SecondAssignment(s: Segment)
    ensures AssignedFrom(AfterTwo, s, 0) == Ok(AfterTwo)
  {
    var g := AfterTwo;
    assert FirstNonRef(g, 2) == 2;
    AssignedStep(g, s, 0, g);
    AssignedStep(g, s, 1, g);
    AssignedStep(g, s, 2, g);
    AssignedStep(g, s, 3, g);
    AssignedStep(g, s, 4, g);
  }

  /** The second round drops the second reference column and finds a segment id. */
  lemma RoundTwo(s: Segment)
    requires SecondSegment(s)
    ensures Refined(AfterOne, s) == Ok((AfterTwo, false))
    ensures !Complete(AfterTwo)
  {
    SecondAnalysis(s);
    SecondAssignment(s);
    RefinedFrom(AfterOne, s, AfterTwo, false, AfterTwo);
    assert AfterTwo[2] == Unknown;
  }

  lemma ThirdAnalysis(s: Segment)
    requires |s| > 1 && LocalNumbers(s, 1) && Constant(s, 2)
    ensures AnalyzedFrom(AfterTwo, s, 0, false) == Ok((ThirdAnalyzed, false))
  {
    KeptReference(s);
    ThirdAnalysisTail(s);
  }

  /** The token and the reference column of `AfterTwo` are kept. */
  lemma KeptReference(s: Segment)
    requires LocalNumbers(s, 1)
    ensures AnalyzedFrom(AfterTwo, s, 0, false) == AnalyzedFrom(AfterTwo, s, 2, false)
  {
    var g := AfterTwo;
    LocalStep(g, s, 1);
    assert g[1 := LocalRef] == g;
    AnalyzedStep(g, s, 0, false, g, false);
    AnalyzedStep(g, s, 1, false, g, false);
  }

  lemma ThirdAnalysisTail(s: Segment)
    requires |s| > 1 && Constant(s, 2)
    ensures AnalyzedFrom(AfterTwo, s, 2, false) == Ok((ThirdAnalyzed, false))
  {
    var g := AfterTwo;
    var g3 := ThirdAnalyzed;
    assert g[2 := SegmentId] == g3;
    AnalyzedStep(g, s, 2, false, g3, false);
    AnalyzedStep(g3, s, 3, false, g3, false);
    AnalyzedStep(g3, s, 4, false, g3, false);
  }

  /** The reference in column 2 is followed by a segment id, which is not an association. */
  lemma ThirdAssignment(s: Segment)
    ensures AssignedFrom(ThirdAnalyzed, s, 0) == Err(NotAnAssociation(SegmentId, 2))
  {
    var g3 := ThirdAnalyzed;
    assert FirstNonRef(g3, 2) == 2;
    assert AnnotationStep(g3, s, 1) == Err(NotAnAssociation(SegmentId, 2));
    AssignedStep(g3, s, 0, g3);
  }

  /** The third round makes the column after the reference a segment id, and assignment fails. */
  lemma RoundThree(s: Segment)
    requires ThirdSegment(s)
    ensures Refined(AfterTwo, s) == Err(NotAnAssociation(SegmentId, 2))
  {
    ThirdAnalysis(s);
    ThirdAssignment(s);
  }

  /** Three rounds: neither of the first two completes the guess, the third fails. */
  lemma ThirdRoundFails(s1: Segment, s2: Segment, s3: Segment, g1: seq<Role>, g2: seq<Role>, e: GuessError)
    requires Fits(s1, 5) && |s1| > 1 && Fits(s2, 5) && Fits(s3, 5) && |g1| == 5 && |g2| == 5
    requires !Complete(g1) && !Complete(g2)
    requires Refined(Unknowns(5), s1) == Ok((g1, true)) && Refined(g1, s2) == Ok((g2, false))
    requires Refined(g2, s3) == Err(e)
    ensures Shaped([s1, s2, s3])
    ensures MadeGuess([s1, s2, s3], None) == Err(e)
  {
    var segs := [s1, s2, s3];
    assert segs[0] == s1 && segs[1] == s2 && segs[2] == s3 && Width(segs) == 5;
    assert Shaped(segs) by {
      forall k | 0 <= k < 3 ensures Fits(segs[k], 5) {
      }
    }
    assert Rounds(segs, None, 2, Some(g2), false) == Err(e);
    assert Rounds(segs, None, 1, Some(g1), false) == Err(e);
  }

  /**
   * As written, the three segments make `guess_colspec` raise instead of returning `None`;
   * with the intended `DataFormatError` the failed guess is discarded.
   */
  lemma NonAssociationEscapes(s1: Segment, s2: Segment, s3: Segment)
    requires FirstSegment(s1) && SecondSegment(s2) && ThirdSegment(s3)
    ensures Shaped([s1, s2, s3])
    ensures MadeGuess([s1, s2, s3], None) == Err(NotAnAssociation(SegmentId, 2))
    ensures ConcludedAsWritten(MadeGuess([s1, s2, s3], None)) == Err(NotAnAssociation(SegmentId, 2))
    ensures Concluded(MadeGuess([s1, s2, s3], None)) == Ok(None)
  {
    RoundOne(s1);
    RoundTwo(s2);
    RoundThree(s3);
    ThirdRoundFails(s1, s2, s3, AfterOne, AfterTwo, NotAnAssociation(SegmentId, 2));
  }
}
