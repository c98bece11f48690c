/**
 * Properties of the column type guess: what each helper does to the roles, that settled
 * roles survive later rounds, and that the driver reads at most six segments.
 */
module GuessingFacts {
  import opened Wrappers
  import opened Text
  import opened ColSpec
  import opened Guessing

  // ---------------------------------------------------------------------------
  // Per-column helpers

  /** `_guessUnique` leaves `col` as the only column of `role` among columns 0 to `col`. */
  lemma UniqueRolesMeaning(g: seq<Role>, col: nat, role: Role)
    requires col < |g| && role != Unknown
    ensures var r := UniqueRoles(g, col, role);
      && r[col] == role
      && (forall i :: 0 <= i < col ==> r[i] != role)
      && (forall i :: 0 <= i < |g| && r[i] != g[i] ==> i == col || (i < col && g[i] == role && r[i] == Unknown))
  {
  }

  /**
   * After `_ensureEnumColumns` there are at most two enumeration columns and, when there are
   * two, the global one comes first; only enumeration columns and `own` change.
   */
  lemma EnumRolesOrdered(g: seq<Role>, own: nat)
    requires own < |g|
    ensures var r := EnumRoles(g, own);
      && r[own] in EnumColumns
      && (forall i, j :: 0 <= i < j < |r| && r[i] in EnumColumns && r[j] in EnumColumns ==>
            r[i] == GlobalEnum && r[j] == LocalEnum)
      && (forall i :: 0 <= i < |g| && i != own && r[i] != g[i] ==> g[i] in EnumColumns)
  {
    var r := EnumRoles(g, own);
    var f := FirstOtherEnum(g, own, 0);
    forall i | 0 <= i < |r| && r[i] in EnumColumns
      ensures i == own || f == Some(i)
    {
    }
  }

  /** The enumeration scan only drops non-integer enumeration columns to unknown. */
  lemma {:induction false} ScanEnumsMeaning(g: seq<Role>, seg: Segment, refs: set<nat>, enums: seq<nat>)
    requires forall k :: 0 <= k < |enums| ==> enums[k] < |g|
    ensures var r := ScanEnums(g, seg, refs, enums);
      forall i :: 0 <= i < |g| ==> r[i] == g[i] || (i in enums && ColumnInts(seg, i).None? && r[i] == Unknown)
    decreases |enums|
  {
    if enums != [] {
      match ColumnInts(seg, enums[0])
      case None =>
        ScanEnumsMeaning(g[enums[0] := Unknown], seg, refs, enums[1..]);
      case Some(vals) =>
        if !Covers(refs, vals) {
          ScanEnumsMeaning(g, seg, refs, enums[1..]);
        }
    }
  }

  /** The reference set of a digits-only column is empty exactly when every value is `0`. */
  lemma ReferencesEmpty(seg: Segment, col: nat)
    requires AllDigits(seg, col)
    ensures References(seg, col) == {} <==> forall i :: 0 <= i < |seg| ==> Cell(seg[i], col) == "0"
  {
    forall i | 0 <= i < |seg| && Cell(seg[i], col) != "0"
      ensures NatValue(Cell(seg[i], col)) in References(seg, col)
    {
    }
    if References(seg, col) != {} {
      var v :| v in References(seg, col);
    }
  }

  /** `max(references) > len(segment)` holds exactly when some value exceeds the row count. */
  lemma MaxExceeds(seg: Segment, col: nat)
    requires References(seg, col) != {}
    ensures MaxOf(References(seg, col)) > |seg| <==>
      exists i :: 0 <= i < |seg| && IsDigits(Cell(seg[i], col)) && NatValue(Cell(seg[i], col)) > |seg|
  {
    var refs := References(seg, col);
    var m := MaxOf(refs);
    if m > |seg| {
      var i :| 0 <= i < |seg| && Cell(seg[i], col) != "0" && IsDigits(Cell(seg[i], col)) && NatValue(Cell(seg[i], col)) == m;
    } else {
      forall i | 0 <= i < |seg| && IsDigits(Cell(seg[i], col))
        ensures NatValue(Cell(seg[i], col)) <= |seg|
      {
        if Cell(seg[i], col) != "0" {
          assert NatValue(Cell(seg[i], col)) in refs;
        }
      }
    }
  }

  /** Besides the column itself, the reference scope only drops local enumerations. */
  lemma ReferenceScopeChanges(g: seq<Role>, seg: Segment, col: nat)
    requires col < |g|
    ensures var r := ReferenceScope(g, seg, col);
      r.Ok? ==> r.value[col] in RefRoles && forall i :: 0 <= i < |g| && i != col ==>
        r.value[i] == g[i] || (g[i] == LocalEnum && r.value[i] == Unknown)
  {
    var refs := References(seg, col);
    if refs != {} && MaxOf(refs) <= |seg| {
      var enums := Indices(g, {LocalEnum}, 0);
      ScanEnumsMeaning(g, seg, refs, enums);
    }
  }

  /**
   * For a digits-only column, `_guessLocalOrGlobalReference` fails exactly when every value
   * is `0`; otherwise the column becomes a global reference exactly when some value exceeds
   * the number of rows, and the only other change is local enumerations dropped to unknown.
   */
  lemma ReferenceScopeMeaning(g: seq<Role>, seg: Segment, col: nat)
    requires col < |g| && AllDigits(seg, col)
    ensures var r := ReferenceScope(g, seg, col);
      && (r.Err? <==> forall i :: 0 <= i < |seg| ==> Cell(seg[i], col) == "0")
      && (r.Err? ==> r.error == EmptyReferences(col + 1))
      && (r.Ok? ==> (r.value[col] == GlobalRef <==>
            exists i :: 0 <= i < |seg| && IsDigits(Cell(seg[i], col)) && NatValue(Cell(seg[i], col)) > |seg|))
      && (r.Ok? ==> r.value[col] in RefRoles && forall i :: 0 <= i < |g| && i != col ==>
            r.value[i] == g[i] || (g[i] == LocalEnum && r.value[i] == Unknown))
  {
    ReferencesEmpty(seg, col);
    ReferenceScopeChanges(g, seg, col);
    if References(seg, col) != {} {
      MaxExceeds(seg, col);
    }
  }

  /**
   * `_guessEventOrRelation` for a reference column `col`: when the first non-reference
   * column to its right is an unresolved annotation, it becomes an event if at least two
   * reference columns precede it and a relation after just one; otherwise nothing changes,
   * unless that column holds some other resolved role, which is an error.
   */
  lemma AssociationMeaning(g: seq<Role>, col: nat)
    requires col < |g| && g[col] in RefRoles
    ensures var r := Association(g, col);
      && (forall n :: col < n < |g| && g[n] == Annotation && (forall j :: col < j < n ==> g[j] in RefRoles) ==>
            r == Ok(g[n := if n > col + 1 then Event else Relation]))
      && (r.Ok? && r.value != g ==> exists n :: col < n < |g| && g[n] == Annotation && r.value[n] in {Event, Relation})
      && (r.Err? ==> (r.error.NotAnAssociation? && r.error.column == col + 1 &&
            r.error.role !in {LocalRef, GlobalRef, Relation, Event, Unknown, Annotation}))
  {
  }

  /**
   * `_guessTagOrProperty`: with a tag column to the left the annotation is a normalization,
   * an entity or an attribute; without one it is an entity, a part-of-speech tag (after the
   * token column) or unknown.
   */
  lemma TagRoleMeaning(g: seq<Role>, seg: Segment, col: nat)
    requires col < |g|
    ensures var r := TagRole(g, seg, col);
      && (TagToTheLeft(g, col) ==> r in {Normalization, Entity, Attribute})
      && (!TagToTheLeft(g, col) ==> r in {Entity, PosTag, Unknown})
      && (r == Normalization ==> AllNormalized(seg, col))
      && (r == Entity ==> AllEntityTags(seg, col))
      && (r == PosTag ==> g[PyIndex(col - 1, |g|)] == Token)
      && (AllEntityTags(seg, col) && !TagToTheLeft(g, col) ==> r == Entity)
  {
  }

  // ---------------------------------------------------------------------------
  // Settled roles survive later rounds

  /** The roles no later round changes once a column has one of them. */
  const Settled: set<Role> := {SegmentId, PosTag, Entity, Normalization, Relation, Event, Attribute}

  /** The settled roles and unresolved annotations: the analysis of a round keeps them all. */
  const Resolved: set<Role> := {SegmentId, PosTag, Entity, Normalization, Relation, Event, Attribute, Annotation}

  ghost predicate Keeps(g: seq<Role>, r: seq<Role>, roles: set<Role>)
  {
    |r| == |g| && forall i :: 0 <= i < |g| && g[i] in roles ==> r[i] == g[i]
  }

  /** Only unresolved annotation columns change. */
  ghost predicate OnlyAnnotationsChange(g: seq<Role>, r: seq<Role>)
  {
    |r| == |g| && forall i :: 0 <= i < |g| && r[i] != g[i] ==> g[i] == Annotation
  }

  lemma IdOrTokenKeeps(g: seq<Role>, seg: Segment, col: nat)
    requires col < |g| && g[col] == Unknown
    ensures Keeps(g, IdOrToken(g, seg, col).0, Resolved)
  {
    if !(Constant(seg, col) && |seg| > 1) && AllDigits(seg, col) && col != 0 {
      EnumRolesOrdered(g, col);
    }
  }

  lemma ReferenceScopeKeeps(g: seq<Role>, seg: Segment, col: nat)
    requires col < |g| && g[col] !in Resolved
    ensures var r := ReferenceScope(g, seg, col);
      r.Ok? ==> Keeps(g, r.value, Resolved)
  {
    ReferenceScopeChanges(g, seg, col);
    var r := ReferenceScope(g, seg, col);
    if r.Ok? {
      ScopeChangesKeep(g, r.value, col);
    }
  }

  lemma ScopeChangesKeep(g: seq<Role>, r: seq<Role>, col: nat)
    requires |r| == |g| && col < |g| && g[col] !in Resolved
    requires forall i :: 0 <= i < |g| && i != col ==> r[i] == g[i] || (g[i] == LocalEnum && r[i] == Unknown)
    ensures Keeps(g, r, Resolved)
  {
  }

  lemma ColumnAnalysisKeeps(g: seq<Role>, seg: Segment, col: nat, seen: bool)
    requires col < |g|
    ensures var r := ColumnAnalysis(g, seg, col, seen);
      r.Ok? ==> Keeps(g, r.value.0, Resolved)
  {
    if g[col] == Unknown && !seen {
      IdOrTokenKeeps(g, seg, col);
    } else if g[col] == Unknown || g[col] in RefRoles {
      ReferenceScopeKeeps(g, seg, col);
    }
  }

  lemma {:induction false} AnalyzedKeeps(g: seq<Role>, seg: Segment, col: nat, seen: bool)
    requires col <= |g|
    ensures var r := AnalyzedFrom(g, seg, col, seen);
      r.Ok? ==> Keeps(g, r.value.0, Resolved)
    decreases |g| - col
  {
    if col < |g| {
      ColumnAnalysisKeeps(g, seg, col, seen);
      match ColumnAnalysis(g, seg, col, seen)
      case Err(_) =>
      case Ok(next) =>
        AnalyzedKeeps(next.0, seg, col + 1, next.1);
    }
  }

  lemma AnnotationStepChanges(g: seq<Role>, seg: Segment, col: nat)
    requires col < |g|
    ensures var r := AnnotationStep(g, seg, col);
      r.Ok? ==> OnlyAnnotationsChange(g, r.value)
  {
    if g[col] != Annotation && g[col] in RefRoles {
      var n := FirstNonRef(g, col + 1);
      if n < |g| && g[n] == Annotation {
        AssociationMeaning(g, col);
      }
    }
  }

  lemma {:induction false} AssignedChanges(g: seq<Role>, seg: Segment, col: nat)
    requires col <= |g|
    ensures var r := AssignedFrom(g, seg, col);
      r.Ok? ==> OnlyAnnotationsChange(g, r.value)
    decreases |g| - col
  {
    if col < |g| {
      AnnotationStepChanges(g, seg, col);
      match AnnotationStep(g, seg, col)
      case Err(_) =>
      case Ok(next) =>
        AssignedChanges(next, seg, col + 1);
    }
  }

  /** A round never changes a settled role, so a column keeps it in all later rounds. */
  lemma RefinedKeepsSettled(g: seq<Role>, seg: Segment)
    ensures var r := Refined(g, seg);
      r.Ok? ==> Keeps(g, r.value.0, Settled)
  {
    AnalyzedKeeps(g, seg, 0, false);
    match AnalyzedFrom(g, seg, 0, false)
    case Err(_) =>
    case Ok(a) =>
      AssignedChanges(a.0, seg, 0);
  }

  /** The final guess keeps every settled role of any intermediate round. */
  lemma {:induction false} RoundsKeepSettled(segs: seq<Segment>, failure: Option<Reader.FormatError>, idx: nat,
                                           g: seq<Role>, lastRound: bool)
    requires idx <= |segs| && Shaped(segs) && |g| == Width(segs)
    ensures var r := Rounds(segs, failure, idx, Some(g), lastRound);
      r.Ok? && r.value.Guessed? ==> Keeps(g, r.value.roles, Settled)
    decreases |segs| - idx
  {
    if idx < |segs| {
      var seg := segs[idx];
      var start := if |g| == 0 then Unknowns(|seg[0]|) else g;
      RefinedKeepsSettled(start, seg);
      match Refined(start, seg)
      case Err(_) =>
      case Ok(next) =>
        if !(idx > 4 || lastRound) {
          RoundsKeepSettled(segs, failure, idx + 1, next.0, Complete(next.0));
        }
    }
  }

  // ---------------------------------------------------------------------------
  // The driver

  lemma {:induction false} RoundsPrefix(segs: seq<Segment>, failure: Option<Reader.FormatError>, idx: nat,
                                      current: Option<seq<Role>>, lastRound: bool)
    requires 6 <= |segs| && idx <= 5 && Shaped(segs) && Shaped(segs[..6])
    requires Width(segs[..6]) == Width(segs)
    requires current.Some? ==> |current.value| == Width(segs)
    ensures Rounds(segs, failure, idx, current, lastRound) == Rounds(segs[..6], None, idx, current, lastRound)
    decreases 5 - idx
  {
    var seg := segs[idx];
    assert segs[..6][idx] == seg;
    var restart := current.None? || |current.value| == 0;
    if !(restart && |seg| == 1 && IsHeaderRow(seg[0])) {
      match Refined(if restart then Unknowns(|seg[0]|) else current.value, seg)
      case Err(_) =>
      case Ok(r) =>
        if !(idx > 4 || lastRound) {
          RoundsPrefix(segs, failure, idx + 1, Some(r.0), Complete(r.0));
        }
    }
  }

  /**
   * The guess reads at most six segments: what follows them, including a format error of
   * the reader, does not change the result.
   */
  lemma SixSegmentsSuffice(segs: seq<Segment>, failure: Option<Reader.FormatError>)
    requires Shaped(segs) && 6 <= |segs|
    ensures Shaped(segs[..6])
    ensures MadeGuess(segs, failure) == MadeGuess(segs[..6], None)
  {
    assert Width(segs[..6]) == Width(segs) by { assert segs[..6][0] == segs[0]; }
    assert Shaped(segs[..6]) by {
      forall k | 0 <= k < 6 ensures Fits(segs[..6][k], Width(segs[..6])) {
        assert segs[..6][k] == segs[k];
      }
    }
    RoundsPrefix(segs, failure, 0, None, false);
  }

  /** A round that completes the guess on the first segment is followed by exactly one more. */
  lemma OneLastRound(segs: seq<Segment>, failure: Option<Reader.FormatError>, g: seq<Role>, seen: bool)
    requires Shaped(segs) && |segs| >= 2 && Width(segs) > 0 && |segs[0]| > 1
    requires Refined(Unknowns(Width(segs)), segs[0]) == Ok((g, seen)) && Complete(g)
    ensures MadeGuess(segs, failure) ==
      match Refined(g, segs[1])
      case Ok(r) => Ok(Guessed(r.0))
      case Err(e) => Err(e)
  {
    assert Rounds(segs, failure, 0, None, false) == Rounds(segs, failure, 1, Some(g), true);
  }

  /** A first segment that is a single row of column names is read as a colspec header. */
  lemma HeaderSegment(segs: seq<Segment>, failure: Option<Reader.FormatError>)
    requires Shaped(segs) && |segs| > 0 && |segs[0]| == 1 && IsHeaderRow(segs[0][0])
    ensures MadeGuess(segs, failure) ==
      match FromStringSpec(Join(segs[0][0], " "))
      case Ok(spec) => Ok(FromHeader(spec))
      case Err(e) => Err(InvalidSpec(e))
  {
  }

  /** Without a header, the guess has one role per column. */
  lemma {:induction false} RoundsWidth(segs: seq<Segment>, failure: Option<Reader.FormatError>, idx: nat,
                                     current: Option<seq<Role>>, lastRound: bool)
    requires idx <= |segs| && Shaped(segs)
    requires current.Some? ==> |current.value| == Width(segs)
    ensures var r := Rounds(segs, failure, idx, current, lastRound);
      r.Ok? && r.value.Guessed? ==> |r.value.roles| == Width(segs)
    decreases |segs| - idx
  {
    if idx < |segs| {
      var seg := segs[idx];
      var restart := current.None? || |current.value| == 0;
      if !(restart && |seg| == 1 && IsHeaderRow(seg[0])) {
        match Refined(if restart then Unknowns(|seg[0]|) else current.value, seg)
        case Err(_) =>
        case Ok(r) =>
          if !(idx > 4 || lastRound) {
            RoundsWidth(segs, failure, idx + 1, Some(r.0), Complete(r.0));
          }
      }
    }
  }

  /**
   * `guess_colspec` gives no specification, rather than an error, when the reader fails,
   * and builds one from the guessed roles only when there are at least two columns.
   */
  lemma ConcludedMeaning(made: Result<Made, GuessError>)
    ensures made.Err? && made.error.Unreadable? ==> Concluded(made) == Ok(None)
    ensures made.Ok? && made.value.Guessed? && |made.value.roles| < 2 ==> Concluded(made) == Ok(None)
    ensures made.Ok? && made.value.Guessed? && Concluded(made).Ok? && Concluded(made).value.Some? ==>
      FromIntegersSpec(Codes(made.value.roles)) == Ok(Concluded(made).value.value)
    ensures made.Ok? && made.value.FromHeader? ==> Concluded(made) == Ok(Some(made.value.spec))
  {
  }

  // ---------------------------------------------------------------------------
  // One step of a round

  /** The analysis fold after a column whose analysis is known. */
  lemma AnalyzedStep(g: seq<Role>, s: Segment, col: nat, seen: bool, next: seq<Role>, seenNext: bool)
    requires col < |g| && ColumnAnalysis(g, s, col, seen) == Ok((next, seenNext))
    ensures AnalyzedFrom(g, s, col, seen) == AnalyzedFrom(next, s, col + 1, seenNext)
  {
  }

  /** A round from its analysis and its assignment. */
  lemma RefinedFrom(g: seq<Role>, s: Segment, a: seq<Role>, seen: bool, r: seq<Role>)
    requires AnalyzedFrom(g, s, 0, false) == Ok((a, seen)) && AssignedFrom(a, s, 0) == Ok(r)
    ensures Refined(g, s) == Ok((r, seen))
  {
  }

  /** The assignment fold after a column whose step is known. */
  lemma AssignedStep(g: seq<Role>, s: Segment, col: nat, next: seq<Role>)
    requires col < |g| && AnnotationStep(g, s, col) == Ok(next)
    ensures AssignedFrom(g, s, col) == AssignedFrom(next, s, col + 1)
  {
  }
}
