/**
 * The guessing examples of `otplc/test_reader.py`, over segments described by the features
 * of their columns (numeric or not, constant or not, values bounded by the row count)
 * rather than by literal text, and a trace in which a reference column meets a segment-id
 * column.
 */
module GuessingExamples {
  import opened Wrappers
  import opened Text
  import opened ColSpec
  import opened Guessing
  import opened GuessingFacts

  /** A column of varying words: neither numeric nor constant. */
  predicate Varied(s: Segment, col: nat)
  {
    !AllDigits(s, col) && !Constant(s, col)
  }

  /** A column of varying numbers. */
  predicate Counter(s: Segment, col: nat)
  {
    AllDigits(s, col) && !Constant(s, col)
  }

  /** Numbers that are not all `0` and none above the number of rows: local references. */
  ghost predicate LocalNumbers(s: Segment, col: nat)
  {
    && AllDigits(s, col)
    && (exists i :: 0 <= i < |s| && Cell(s[i], col) != "0")
    && (forall i :: 0 <= i < |s| ==> NatValue(Cell(s[i], col)) <= |s|)
  }

  /** Numbers of which one exceeds the number of rows: global references. */
  ghost predicate GlobalNumbers(s: Segment, col: nat)
  {
    && AllDigits(s, col)
    && (exists i :: 0 <= i < |s| && NatValue(Cell(s[i], col)) > |s|)
  }

  // ---------------------------------------------------------------------------
  // Single steps

  lemma LocalStep(g: seq<Role>, s: Segment, col: nat)
    requires col < |g| && LocalEnum !in g && LocalNumbers(s, col)
    ensures ReferenceScope(g, s, col) == Ok(g[col := LocalRef])
  {
    var i :| 0 <= i < |s| && Cell(s[i], col) != "0";
    var refs := References(s, col);
    assert NatValue(Cell(s[i], col)) in refs;
    var m := MaxOf(refs);
    assert m <= |s|;
    NoLocalEnums(g);
  }

  /** Without a local enumeration there is no local enumeration column to scan. */
  lemma NoLocalEnums(g: seq<Role>)
    requires LocalEnum !in g
    ensures Indices(g, {LocalEnum}, 0) == []
  {
    NoneIndexed(g, {LocalEnum}, 0);
  }

  lemma {:induction false} NoneIndexed(g: seq<Role>, roles: set<Role>, from: nat)
    requires from <= |g| && forall i :: from <= i < |g| ==> g[i] !in roles
    ensures Indices(g, roles, from) == []
    decreases |g| - from
  {
    if from < |g| {
      NoneIndexed(g, roles, from + 1);
    }
  }

  lemma GlobalStep(g: seq<Role>, s: Segment, col: nat)
    requires col < |g| && GlobalNumbers(s, col)
    ensures ReferenceScope(g, s, col) == Ok(g[col := GlobalRef])
  {
    ReferenceScopeMeaning(g, s, col);
    var i :| 0 <= i < |s| && NatValue(Cell(s[i], col)) > |s|;
    assert NatValue("0") == 0 by { assert "0"[..0] == ""; }
  }

  /** A token column found when no column is a token yet. */
  lemma TokenStep(g: seq<Role>, s: Segment, col: nat)
    requires col < |g| && g[col] == Unknown && Token !in g && Varied(s, col)
    ensures ColumnAnalysis(g, s, col, false) == Ok((g[col := Token], true))
  {
    assert UniqueRoles(g, col, Token) == g[col := Token];
  }

  // ---------------------------------------------------------------------------
  // testGuessColspecThreeEnums (test_reader.py:89-101)

  const EnumsGuess: seq<Role> := [GlobalEnum, Unknown, LocalEnum, Token]

  ghost predicate ThreeEnumsFirst(s: Segment)
  {
    Fits(s, 4) && |s| > 1 && Counter(s, 0) && Counter(s, 1) && Counter(s, 2) && Varied(s, 3)
  }

  ghost predicate ThreeEnumsSecond(s: Segment)
  {
    Fits(s, 4) && |s| > 1 && Counter(s, 1) && Counter(s, 2)
  }

  /** The first three columns of the first round: each new enumeration column is local. */
  lemma ThreeEnumsColumns(s: Segment)
    requires ThreeEnumsFirst(s)
    ensures ColumnAnalysis(Unknowns(4), s, 0, false) == Ok(([LocalEnum, Unknown, Unknown, Unknown], false))
    ensures ColumnAnalysis([LocalEnum, Unknown, Unknown, Unknown], s, 1, false)
         == Ok(([GlobalEnum, LocalEnum, Unknown, Unknown], false))
    ensures ColumnAnalysis([GlobalEnum, LocalEnum, Unknown, Unknown], s, 2, false)
         == Ok(([GlobalEnum, Unknown, LocalEnum, Unknown], false))
  {
    var g0 := Unknowns(4);
    var g1 := [LocalEnum, Unknown, Unknown, Unknown];
    var g2 := [GlobalEnum, LocalEnum, Unknown, Unknown];
    var g3 := [GlobalEnum, Unknown, LocalEnum, Unknown];
    assert g0 == [Unknown, Unknown, Unknown, Unknown];
    assert g0[0 := LocalEnum] == g1;
    assert IdOrToken(g0, s, 0) == (g1, false);
    assert FirstOtherEnum(g1, 1, 0) == Some(0);
    assert EnumRoles(g1, 1) == g2;
    assert FirstOtherEnum(g2, 2, 0) == Some(0);
    assert EnumRoles(g2, 2) == g3;
  }

  lemma ThreeEnumsRoundOne(s: Segment)
    requires ThreeEnumsFirst(s)
    ensures Refined(Unknowns(4), s) == Ok((EnumsGuess, true))
  {
    ThreeEnumsAnalysis(s);
    EnumsAssigned(s);
    RefinedFrom(Unknowns(4), s, EnumsGuess, true, EnumsGuess);
  }

  /** The analysis of the first round finds the two enumerations and the token. */
  lemma ThreeEnumsAnalysis(s: Segment)
    requires ThreeEnumsFirst(s)
    ensures AnalyzedFrom(Unknowns(4), s, 0, false) == Ok((EnumsGuess, true))
  {
    var g0 := Unknowns(4);
    var g1 := [LocalEnum, Unknown, Unknown, Unknown];
    var g2 := [GlobalEnum, LocalEnum, Unknown, Unknown];
    var g3 := [GlobalEnum, Unknown, LocalEnum, Unknown];
    ThreeEnumsColumns(s);
    TokenStep(g3, s, 3);
    assert g3[3 := Token] == EnumsGuess;
    AnalyzedStep(g0, s, 0, false, g1, false);
    AnalyzedStep(g1, s, 1, false, g2, false);
    AnalyzedStep(g2, s, 2, false, g3, false);
    AnalyzedStep(g3, s, 3, false, EnumsGuess, true);
  }

  /** No column of the guess is an annotation, so assignment keeps it. */
  lemma EnumsAssigned(s: Segment)
    ensures AssignedFrom(EnumsGuess, s, 0) == Ok(EnumsGuess)
  {
    var g := EnumsGuess;
    AssignedStep(g, s, 0, g);
    AssignedStep(g, s, 1, g);
    AssignedStep(g, s, 2, g);
    AssignedStep(g, s, 3, g);
  }

  lemma ThreeEnumsRoundTwo(s: Segment)
    requires ThreeEnumsSecond(s)
    ensures Refined(EnumsGuess, s) == Ok((EnumsGuess, false))
  {
    var g1 := [GlobalEnum, LocalEnum, Unknown, Token];
    assert FirstOtherEnum(EnumsGuess, 1, 0) == Some(0);
    assert EnumRoles(EnumsGuess, 1) == g1;
    assert ColumnAnalysis(EnumsGuess, s, 1, false) == Ok((g1, false));
    assert FirstOtherEnum(g1, 2, 0) == Some(0);
    assert EnumRoles(g1, 2) == EnumsGuess;
    assert ColumnAnalysis(g1, s, 2, false) == Ok((EnumsGuess, false));
    AnalyzedStep(EnumsGuess, s, 0, false, EnumsGuess, false);
    AnalyzedStep(EnumsGuess, s, 1, false, g1, false);
    AnalyzedStep(g1, s, 2, false, EnumsGuess, false);
    AnalyzedStep(EnumsGuess, s, 3, false, EnumsGuess, false);
    EnumsAssigned(s);
    RefinedFrom(EnumsGuess, s, EnumsGuess, false, EnumsGuess);
  }

  /** Two segments: the first round leaves the guess incomplete, the second is the last one. */
  lemma IncompleteThenLast(s1: Segment, s2: Segment, g1: seq<Role>, g2: seq<Role>)
    requires Fits(s1, 4) && |s1| > 1 && Fits(s2, 4) && |g1| == 4 && !Complete(g1)
    requires Refined(Unknowns(4), s1) == Ok((g1, true)) && Refined(g1, s2) == Ok((g2, false))
    ensures Shaped([s1, s2])
    ensures MadeGuess([s1, s2], None) == Ok(Guessed(g2))
  {
    var segs := [s1, s2];
    assert segs[0] == s1 && segs[1] == s2 && Width(segs) == 4;
    assert Rounds(segs, None, 1, Some(g1), false) == Ok(Guessed(g2));
  }

  /**
   * Three numeric columns before the token: the first is the global enumeration, the third
   * the local one, and the second, the supernumerary enumeration, stays unknown.
   */
  lemma GuessThreeEnums(s1: Segment, s2: Segment)
    requires ThreeEnumsFirst(s1) && ThreeEnumsSecond(s2)
    ensures Shaped([s1, s2])
    ensures MadeGuess([s1, s2], None) == Ok(Guessed(EnumsGuess))
  {
    ThreeEnumsRoundOne(s1);
    ThreeEnumsRoundTwo(s2);
    assert !Complete(EnumsGuess) by { assert EnumsGuess[1] == Unknown; }
    IncompleteThenLast(s1, s2, EnumsGuess, EnumsGuess);
  }

  // ---------------------------------------------------------------------------
  // testGuessGlobalRef and testGuessLocalRef (test_reader.py:115-135)

  /** Tokens, part-of-speech tags, numbers and a word column. */
  ghost predicate TaggedWords(s: Segment)
  {
    Fits(s, 4) && |s| > 1 && Varied(s, 0) && !AllDigits(s, 1) && !AllEntityTags(s, 1) && !AllDigits(s, 3)
  }

  /** The analysis of the first round on tokens, tags, numbers and relation names. */
  lemma ReferenceAnalysisOne(s: Segment, ref: Role)
    requires TaggedWords(s) && AllDigits(s, 2) && ref in RefRoles
    requires ReferenceScope([Token, Annotation, Unknown, Unknown], s, 2) == Ok([Token, Annotation, ref, Unknown])
    ensures AnalyzedFrom(Unknowns(4), s, 0, false) == Ok(([Token, Annotation, ref, Annotation], true))
  {
    var g0 := Unknowns(4);
    assert g0 == [Unknown, Unknown, Unknown, Unknown];
    var g1 := [Token, Unknown, Unknown, Unknown];
    var g2 := [Token, Annotation, Unknown, Unknown];
    var g3 := [Token, Annotation, ref, Unknown];
    var g4 := [Token, Annotation, ref, Annotation];
    TokenStep(g0, s, 0);
    assert g0[0 := Token] == g1;
    assert g1[1 := Annotation] == g2;
    assert AnnotationOrReference(g1, s, 1) == Ok(g2);
    assert ColumnAnalysis(g1, s, 1, true) == Ok((g2, true));
    assert AnnotationOrReference(g2, s, 2) == Ok(g3);
    assert ColumnAnalysis(g2, s, 2, true) == Ok((g3, true));
    assert g3[3 := Annotation] == g4;
    assert AnnotationOrReference(g3, s, 3) == Ok(g4);
    assert ColumnAnalysis(g3, s, 3, true) == Ok((g4, true));
    assert AnalyzedFrom(g4, s, 4, true) == Ok((g4, true));
    assert AnalyzedFrom(g3, s, 3, true) == Ok((g4, true));
    assert AnalyzedFrom(g2, s, 2, true) == Ok((g4, true));
    assert AnalyzedFrom(g1, s, 1, true) == Ok((g4, true));
  }

  /** The annotations of the first round: a part-of-speech column and a relation column. */
  lemma ReferenceAssignOne(s: Segment, ref: Role)
    requires TaggedWords(s) && ref in RefRoles
    ensures AssignedFrom([Token, Annotation, ref, Annotation], s, 0) == Ok([Token, PosTag, ref, Relation])
  {
    var g := [Token, Annotation, ref, Annotation];
    var h1 := [Token, PosTag, ref, Annotation];
    var h2 := [Token, PosTag, ref, Relation];
    assert !TagToTheLeft(g, 1);
    assert TagRole(g, s, 1) == PosTag;
    assert g[1 := PosTag] == h1;
    assert AnnotationStep(g, s, 1) == Ok(h1);
    assert FirstNonRef(h1, 3) == 3;
    assert h1[3 := Relation] == h2;
    assert AnnotationStep(h1, s, 2) == Ok(h2);
    assert AnnotationStep(h2, s, 3) == Ok(h2);
    assert AssignedFrom(h2, s, 3) == Ok(h2);
    assert AssignedFrom(h1, s, 2) == Ok(h2);
    assert AssignedFrom(g, s, 1) == Ok(h2);
  }

  lemma ReferenceRoundOne(s: Segment, ref: Role)
    requires TaggedWords(s) && AllDigits(s, 2) && ref in RefRoles
    requires ReferenceScope([Token, Annotation, Unknown, Unknown], s, 2) == Ok([Token, Annotation, ref, Unknown])
    ensures Refined(Unknowns(4), s) == Ok(([Token, PosTag, ref, Relation], true))
  {
    ReferenceAnalysisOne(s, ref);
    ReferenceAssignOne(s, ref);
  }

  /** A later round keeps a reference column whose values still fit its scope. */
  lemma ReferenceRoundAgain(s: Segment, ref: Role)
    requires Fits(s, 4) && ref in RefRoles
    requires ReferenceScope([Token, PosTag, ref, Relation], s, 2) == Ok([Token, PosTag, ref, Relation]) && AllDigits(s, 2)
    ensures Refined([Token, PosTag, ref, Relation], s) == Ok(([Token, PosTag, ref, Relation], false))
  {
    var g := [Token, PosTag, ref, Relation];
    assert ColumnAnalysis(g, s, 0, false) == Ok((g, false));
    assert ColumnAnalysis(g, s, 1, false) == Ok((g, false));
    assert ReferenceCheck(g, s, 2) == Ok(g);
    assert ColumnAnalysis(g, s, 2, false) == Ok((g, false));
    assert ColumnAnalysis(g, s, 3, false) == Ok((g, false));
    assert AnalyzedFrom(g, s, 3, false) == Ok((g, false));
    assert AnalyzedFrom(g, s, 2, false) == Ok((g, false));
    assert AnalyzedFrom(g, s, 1, false) == Ok((g, false));
    assert AnalyzedFrom(g, s, 0, false) == Ok((g, false));
    assert FirstNonRef(g, 3) == 3;
    assert AnnotationStep(g, s, 3) == Ok(g);
    assert AssignedFrom(g, s, 3) == Ok(g);
    assert AnnotationStep(g, s, 2) == Ok(g);
    assert AssignedFrom(g, s, 2) == Ok(g);
    assert AssignedFrom(g, s, 1) == Ok(g);
    assert AssignedFrom(g, s, 0) == Ok(g);
  }

  /** Two rounds: the first completes the guess, the second keeps it, the third segment is not read. */
  lemma CompletedThenKept(s1: Segment, s2: Segment, s3: Segment, g: seq<Role>)
    requires Fits(s1, 4) && |s1| > 1 && Fits(s2, 4) && Fits(s3, 4) && |g| == 4 && Complete(g)
    requires Refined(Unknowns(4), s1) == Ok((g, true)) && Refined(g, s2) == Ok((g, false))
    ensures Shaped([s1, s2, s3])
    ensures MadeGuess([s1, s2, s3], None) == Ok(Guessed(g))
  {
    var segs := [s1, s2, s3];
    assert segs[0] == s1 && segs[1] == s2 && Width(segs) == 4;
    assert Shaped(segs) by {
      forall k | 0 <= k < 3 ensures Fits(segs[k], 4) {
      }
    }
    OneLastRound(segs, None, g, true);
  }

  /** The reference fixtures end the same way whichever scope the reference column has. */
  lemma ReferenceGuess(s1: Segment, s2: Segment, s3: Segment, ref: Role)
    requires Fits(s1, 4) && |s1| > 1 && Fits(s2, 4) && Fits(s3, 4) && ref in RefRoles
    requires Refined(Unknowns(4), s1) == Ok(([Token, PosTag, ref, Relation], true))
    requires Refined([Token, PosTag, ref, Relation], s2) == Ok(([Token, PosTag, ref, Relation], false))
    ensures Shaped([s1, s2, s3])
    ensures MadeGuess([s1, s2, s3], None) == Ok(Guessed([Token, PosTag, ref, Relation]))
  {
    var g := [Token, PosTag, ref, Relation];
    assert Complete(g);
    CompletedThenKept(s1, s2, s3, g);
  }

  lemma GlobalRounds(s1: Segment, s2: Segment)
    requires TaggedWords(s1) && GlobalNumbers(s1, 2) && Fits(s2, 4) && GlobalNumbers(s2, 2)
    ensures Refined(Unknowns(4), s1) == Ok(([Token, PosTag, GlobalRef, Relation], true))
    ensures Refined([Token, PosTag, GlobalRef, Relation], s2) == Ok(([Token, PosTag, GlobalRef, Relation], false))
  {
    GlobalRoundOne(s1);
    GlobalRoundTwo(s2);
  }

  lemma GlobalRoundOne(s: Segment)
    requires TaggedWords(s) && GlobalNumbers(s, 2)
    ensures Refined(Unknowns(4), s) == Ok(([Token, PosTag, GlobalRef, Relation], true))
  {
    var g := [Token, Annotation, Unknown, Unknown];
    GlobalStep(g, s, 2);
    assert g[2 := GlobalRef] == [Token, Annotation, GlobalRef, Unknown];
    ReferenceRoundOne(s, GlobalRef);
  }

  lemma GlobalRoundTwo(s: Segment)
    requires Fits(s, 4) && GlobalNumbers(s, 2)
    ensures Refined([Token, PosTag, GlobalRef, Relation], s) == Ok(([Token, PosTag, GlobalRef, Relation], false))
  {
    var g := [Token, PosTag, GlobalRef, Relation];
    GlobalStep(g, s, 2);
    assert g[2 := GlobalRef] == g;
    ReferenceRoundAgain(s, GlobalRef);
  }

  lemma LocalRounds(s1: Segment, s2: Segment)
    requires TaggedWords(s1) && LocalNumbers(s1, 2) && Fits(s2, 4) && LocalNumbers(s2, 2)
    ensures Refined(Unknowns(4), s1) == Ok(([Token, PosTag, LocalRef, Relation], true))
    ensures Refined([Token, PosTag, LocalRef, Relation], s2) == Ok(([Token, PosTag, LocalRef, Relation], false))
  {
    LocalRoundOne(s1);
    LocalRoundTwo(s2);
  }

  lemma LocalRoundOne(s: Segment)
    requires TaggedWords(s) && LocalNumbers(s, 2)
    ensures Refined(Unknowns(4), s) == Ok(([Token, PosTag, LocalRef, Relation], true))
  {
    var g := [Token, Annotation, Unknown, Unknown];
    LocalStep(g, s, 2);
    assert g[2 := LocalRef] == [Token, Annotation, LocalRef, Unknown];
    ReferenceRoundOne(s, LocalRef);
  }

  lemma LocalRoundTwo(s: Segment)
    requires Fits(s, 4) && LocalNumbers(s, 2)
    ensures Refined([Token, PosTag, LocalRef, Relation], s) == Ok(([Token, PosTag, LocalRef, Relation], false))
  {
    var g := [Token, PosTag, LocalRef, Relation];
    LocalStep(g, s, 2);
    assert g[2 := LocalRef] == g;
    ReferenceRoundAgain(s, LocalRef);
  }

  /** Reference values above the segment length make a global reference column. */
  lemma GuessGlobalRef(s1: Segment, s2: Segment, s3: Segment)
    requires TaggedWords(s1) && GlobalNumbers(s1, 2)
    requires Fits(s2, 4) && GlobalNumbers(s2, 2) && Fits(s3, 4)
    ensures Shaped([s1, s2, s3])
    ensures MadeGuess([s1, s2, s3], None) == Ok(Guessed([Token, PosTag, GlobalRef, Relation]))
  {
    GlobalRounds(s1, s2);
    ReferenceGuess(s1, s2, s3, GlobalRef);
  }

  /**
   * Reference values within the segment length make a local reference column; the guess is
   * complete after the first segment, so after one more round the third segment (all `0`
   * references, which would have no maximum) is never read.
   */
  lemma GuessLocalRef(s1: Segment, s2: Segment, s3: Segment)
    requires TaggedWords(s1) && LocalNumbers(s1, 2)
    requires Fits(s2, 4) && LocalNumbers(s2, 2) && Fits(s3, 4)
    ensures Shaped([s1, s2, s3])
    ensures MadeGuess([s1, s2, s3], None) == Ok(Guessed([Token, PosTag, LocalRef, Relation]))
  {
    LocalRounds(s1, s2);
    ReferenceGuess(s1, s2, s3, LocalRef);
  }
}
