/**
 * Column type guessing (`guess_colspec`, `_make_guess` and the `Guess` class of
 * `otplc/reader.py`). A guess is a sequence of roles, one per column, refined segment by
 * segment: each round first analyzes every column from the segment's values, then resolves
 * the annotation columns from their neighbours. Every method of `Guess` is proved against a
 * pure function on `seq<Role>`; the properties of those functions are lemmas below.
 */
module Guessing {
  import opened Wrappers
  import opened Text
  import opened ColSpec
  import Reader
  import ReaderFacts

  type Row = Reader.Row
  type Segment = Reader.Segment

  /** Why a guess could not be made; the first three escape `guess_colspec` as exceptions. */
  datatype GuessError =
    | NoSegments                              // `guess.guess` on `None`: the file had no segment
    | EmptyReferences(column: nat)            // `max()` of an empty reference set (1-based column)
    | NotAnAssociation(role: Role, column: nat)  // a reference followed by a non-association
    | Unreadable(failure: Reader.FormatError) // the reader's `DataFormatError`
    | InvalidSpec(rejected: SpecError)        // `from_string` / `from_integers` rejected the result

  // ---------------------------------------------------------------------------
  // Column values

  /** `row[col]`; every row of a segment has the guess's width, so the default is never used. */
  function Cell(row: Row, col: nat): string
  {
    if col < |row| then row[col] else ""
  }

  /** Every row of `seg` has `width` fields and there is at least one row. */
  ghost predicate Fits(seg: Segment, width: nat)
  {
    |seg| >= 1 && forall i :: 0 <= i < |seg| ==> |seg[i]| == width
  }

  /** `all(row[col].isdigit() for row in segment)`. */
  predicate AllDigits(seg: Segment, col: nat)
  {
    forall i :: 0 <= i < |seg| ==> IsDigits(Cell(seg[i], col))
  }

  /** `all(row[col] == segment[0][col] for row in segment)`. */
  predicate Constant(seg: Segment, col: nat)
  {
    forall i :: 0 <= i < |seg| ==> Cell(seg[i], col) == Cell(seg[0], col)
  }

  /** The regular expression `^(?:\S+:\S+|NULL)$`. */
  predicate NormMatch(v: string)
  {
    v == "NULL" || (HasNoWhitespace(v) && exists k :: 0 < k < |v| - 1 && v[k] == ':')
  }

  /** Every value other than `NULL` looks like a `namespace:identifier` reference. */
  predicate AllNormalized(seg: Segment, col: nat)
  {
    forall i :: 0 <= i < |seg| && Cell(seg[i], col) != "NULL" ==> NormMatch(Cell(seg[i], col))
  }

  /** A value with a `B-`, `E-` or `I-` prefix, or exactly `O`. */
  predicate EntityTag(v: string)
  {
    StartsWith(v, "B-") || StartsWith(v, "E-") || StartsWith(v, "I-") || v == "O"
  }

  predicate AllEntityTags(seg: Segment, col: nat)
  {
    forall i :: 0 <= i < |seg| ==> EntityTag(Cell(seg[i], col))
  }

  /** `{int(row[col]) for row in segment if row[col] != '0'}` for a digits-only column. */
  function References(seg: Segment, col: nat): set<nat>
  {
    set i | 0 <= i < |seg| && Cell(seg[i], col) != "0" && IsDigits(Cell(seg[i], col))
      :: NatValue(Cell(seg[i], col))
  }

  /** `set(int(row[idx]) for row in segment)`, or none when `int` raises `ValueError`. */
  function ColumnInts(seg: Segment, idx: nat): Option<set<int>>
  {
    if forall i :: 0 <= i < |seg| ==> ParseInt(Cell(seg[i], idx)).Some? then
      Some(set i | 0 <= i < |seg| && ParseInt(Cell(seg[i], idx)).Some? :: ParseInt(Cell(seg[i], idx)).value)
    else None
  }

  /** `references.issubset(values)`. */
  predicate Covers(refs: set<nat>, vals: set<int>)
  {
    forall r :: r in refs ==> r as int in vals
  }

  /** `max(references)`. */
  function MaxOf(refs: set<nat>): (m: nat)
    requires refs != {}
    ensures m in refs && forall r :: r in refs ==> r <= m
  {
    Reader.MaxExists(refs);
    var m: nat :| Reader.IsMax(refs, m);
    m
  }

  // ---------------------------------------------------------------------------
  // Specifications of the per-column helpers

  /** A fresh guess: every column unknown. */
  function Unknowns(n: nat): (g: seq<Role>)
    ensures |g| == n && forall i :: 0 <= i < n ==> g[i] == Unknown
  {
    seq(n, i => Unknown)
  }

  /** Every column has a role (`Guess.complete`). */
  predicate Complete(g: seq<Role>)
  {
    forall i :: 0 <= i < |g| ==> g[i] != Unknown
  }

  /** `_guessUnique`: `col` takes `role`, and earlier columns with that role lose it. */
  function UniqueRoles(g: seq<Role>, col: nat, role: Role): (r: seq<Role>)
    requires col < |g|
    ensures |r| == |g|
  {
    seq(|g|, i requires 0 <= i < |g| =>
      if i == col then role else if i < col && g[i] == role then Unknown else g[i])
  }

  /** `_iterColumns(roles)`: the indices from `from` on whose role is in `roles`, in order. */
  function Indices(g: seq<Role>, roles: set<Role>, from: nat): (ix: seq<nat>)
    requires from <= |g|
    ensures forall k :: 0 <= k < |ix| ==> from <= ix[k] < |g| && g[ix[k]] in roles
    ensures forall k, l :: 0 <= k < l < |ix| ==> ix[k] < ix[l]
    ensures forall i :: from <= i < |g| && g[i] in roles ==> i in ix
    decreases |g| - from
  {
    if from == |g| then []
    else if g[from] in roles then [from] + Indices(g, roles, from + 1)
    else Indices(g, roles, from + 1)
  }

  /** The first enumeration column from `from` on other than `own`. */
  function FirstOtherEnum(g: seq<Role>, own: nat, from: nat): (f: Option<nat>)
    requires from <= |g|
    ensures f.Some? ==> from <= f.value < |g| && f.value != own && g[f.value] in EnumColumns
    ensures f.Some? ==> forall j :: from <= j < f.value && j != own ==> g[j] !in EnumColumns
    ensures f.None? ==> forall j :: from <= j < |g| && j != own ==> g[j] !in EnumColumns
    decreases |g| - from
  {
    if from == |g| then None
    else if from != own && g[from] in EnumColumns then Some(from)
    else FirstOtherEnum(g, own, from + 1)
  }

  /**
   * `_ensureEnumColumns`: the first other enumeration becomes the global one if it is to the
   * left of column `own` and the local one if it is to the right (`own` taking the other role);
   * every further enumeration column is dropped to unknown.
   */
  function EnumRoles(g: seq<Role>, own: nat): (r: seq<Role>)
    requires own < |g|
    ensures |r| == |g|
  {
    var f := FirstOtherEnum(g, own, 0);
    seq(|g|, i requires 0 <= i < |g| =>
      if i == own then (if f.Some? && f.value > own then GlobalEnum else LocalEnum)
      else if g[i] !in EnumColumns then g[i]
      else if f == Some(i) then (if i < own then GlobalEnum else LocalEnum)
      else Unknown)
  }

  /**
   * The loop of `_guessLocalOrGlobalReference` over the local enumeration columns `enums`:
   * it stops at the first one whose integers cover the references, and drops every
   * non-integer one before it to unknown.
   */
  function ScanEnums(g: seq<Role>, seg: Segment, refs: set<nat>, enums: seq<nat>): (r: seq<Role>)
    requires forall k :: 0 <= k < |enums| ==> enums[k] < |g|
    ensures |r| == |g|
    decreases |enums|
  {
    if enums == [] then g
    else
      match ColumnInts(seg, enums[0])
      case None => ScanEnums(g[enums[0] := Unknown], seg, refs, enums[1..])
      case Some(vals) => if Covers(refs, vals) then g else ScanEnums(g, seg, refs, enums[1..])
  }

  lemma ScanStep(g: seq<Role>, seg: Segment, refs: set<nat>, enums: seq<nat>, j: nat, ints: Option<set<int>>)
    requires j < |enums| && forall k :: 0 <= k < |enums| ==> enums[k] < |g|
    requires ints == ColumnInts(seg, enums[j])
    ensures ints.None? ==> ScanEnums(g, seg, refs, enums[j..]) == ScanEnums(g[enums[j] := Unknown], seg, refs, enums[j + 1..])
    ensures ints.Some? && Covers(refs, ints.value) ==> ScanEnums(g, seg, refs, enums[j..]) == g
    ensures ints.Some? && !Covers(refs, ints.value) ==> ScanEnums(g, seg, refs, enums[j..]) == ScanEnums(g, seg, refs, enums[j + 1..])
  {
    assert enums[j..][0] == enums[j] && enums[j..][1..] == enums[j + 1..];
  }

  /**
   * The `for idx, unused in enums` loop of `_guessLocalOrGlobalReference`: it stops at the first
   * local enumeration whose integers cover the references, and drops every non-integer one
   * before it to unknown.
   */
  method ScanLocalEnums(g0: seq<Role>, seg: Segment, refs: set<nat>, enums: seq<nat>) returns (g: seq<Role>)
    requires forall k :: 0 <= k < |enums| ==> enums[k] < |g0|
    ensures g == ScanEnums(g0, seg, refs, enums)
  {
    g := g0;
    var j := 0;
    while j < |enums|
      invariant j <= |enums| && |g| == |g0|
      invariant ScanEnums(g0, seg, refs, enums) == ScanEnums(g, seg, refs, enums[j..])
    {
      var idx := enums[j];
      var ints := ColumnInts(seg, idx);
      ScanStep(g, seg, refs, enums, j, ints);
      if ints.None? {
        g := g[idx := Unknown];
      } else if Covers(refs, ints.value) {
        return;
      }
      j := j + 1;
    }
  }

  /**
   * `_guessLocalOrGlobalReference`: a column is a global reference when some value exceeds
   * the number of rows of the segment, and a local reference otherwise.
   */
  function ReferenceScope(g: seq<Role>, seg: Segment, col: nat): (r: Result<seq<Role>, GuessError>)
    requires col < |g|
    ensures r.Ok? ==> |r.value| == |g|
  {
    var refs := References(seg, col);
    if refs == {} then Err(EmptyReferences(col + 1))
    else if MaxOf(refs) > |seg| then Ok(g[col := GlobalRef])
    else Ok(ScanEnums(g, seg, refs, Indices(g, {LocalEnum}, 0))[col := LocalRef])
  }

  /** `_guessAnnotationOrReference`. */
  function AnnotationOrReference(g: seq<Role>, seg: Segment, col: nat): (r: Result<seq<Role>, GuessError>)
    requires col < |g|
    ensures r.Ok? ==> |r.value| == |g|
  {
    if AllDigits(seg, col) then ReferenceScope(g, seg, col) else Ok(g[col := Annotation])
  }

  /** `_ensureReference`. */
  function ReferenceCheck(g: seq<Role>, seg: Segment, col: nat): (r: Result<seq<Role>, GuessError>)
    requires col < |g|
    ensures r.Ok? ==> |r.value| == |g|
  {
    if AllDigits(seg, col) then ReferenceScope(g, seg, col) else Ok(g[col := Unknown])
  }

  /** `_guessIdOrToken`: the new roles and whether the token column was found. */
  function IdOrToken(g: seq<Role>, seg: Segment, col: nat): (r: (seq<Role>, bool))
    requires col < |g|
    ensures |r.0| == |g|
  {
    if Constant(seg, col) && |seg| > 1 then (g[col := SegmentId], false)
    else if AllDigits(seg, col) then (if col == 0 then g[col := LocalEnum] else EnumRoles(g, col), false)
    else (UniqueRoles(g, col, Token), true)
  }

  /** `_analyzeColumn`, with the token-seen flag threaded through. */
  function ColumnAnalysis(g: seq<Role>, seg: Segment, col: nat, seen: bool): (r: Result<(seq<Role>, bool), GuessError>)
    requires col < |g|
    ensures r.Ok? ==> |r.value.0| == |g|
  {
    if g[col] == Unknown then
      if !seen then Ok(IdOrToken(g, seg, col))
      else
        match AnnotationOrReference(g, seg, col)
        case Err(e) => Err(e)
        case Ok(r) => Ok((r, seen))
    else if g[col] in RefRoles then
      match ReferenceCheck(g, seg, col)
      case Err(e) => Err(e)
      case Ok(r) => Ok((r, seen))
    else Ok((g, seen))
  }

  /** `_analyze` from column `col` on. */
  function AnalyzedFrom(g: seq<Role>, seg: Segment, col: nat, seen: bool): (r: Result<(seq<Role>, bool), GuessError>)
    requires col <= |g|
    ensures r.Ok? ==> |r.value.0| == |g|
    decreases |g| - col
  {
    if col == |g| then Ok((g, seen))
    else
      match ColumnAnalysis(g, seg, col, seen)
      case Err(e) => Err(e)
      case Ok(next) => AnalyzedFrom(next.0, seg, col + 1, next.1)
  }

  /** `_hasATagToTheLeft`: a part-of-speech or entity column among columns 1 to `col - 1`. */
  predicate TagToTheLeft(g: seq<Role>, col: nat)
  {
    exists idx :: 1 <= idx < col && idx < |g| && g[idx] in EntityColumns
  }

  /** The role `_guessTagOrProperty` gives annotation column `col`. */
  function TagRole(g: seq<Role>, seg: Segment, col: nat): Role
    requires col < |g|
  {
    var tagged := TagToTheLeft(g, col);
    if tagged && AllNormalized(seg, col) then Normalization
    else if AllEntityTags(seg, col) then Entity
    else if tagged then Attribute
    else if g[PyIndex(col - 1, |g|)] == Token then PosTag
    else Unknown
  }

  /** `_disambiguate_event_or_relation`. */
  function Disambiguate(col: int, firstRefCol: int): (r: Role)
    ensures r in {Event, Relation}
  {
    if col - firstRefCol > 1 then Event else Relation
  }

  /** The first column from `from` on that is not a reference column. */
  function FirstNonRef(g: seq<Role>, from: nat): (n: nat)
    requires from <= |g|
    ensures from <= n <= |g| && (n < |g| ==> g[n] !in RefRoles)
    ensures forall j :: from <= j < n ==> g[j] in RefRoles
    decreases |g| - from
  {
    if from == |g| || g[from] !in RefRoles then from else FirstNonRef(g, from + 1)
  }

  /**
   * `_guessEventOrRelation` for reference column `col`: the first non-reference column to
   * its right, if it is an unresolved annotation, becomes an event or a relation.
   */
  function Association(g: seq<Role>, col: nat): (r: Result<seq<Role>, GuessError>)
    requires col < |g|
    ensures r.Ok? ==> |r.value| == |g|
  {
    var n := FirstNonRef(g, col + 1);
    if n == |g| || g[n] in {Relation, Event, Unknown} then Ok(g)
    else if g[n] == Annotation then Ok(g[n := Disambiguate(n, col)])
    else Err(NotAnAssociation(g[n], col + 1))
  }

  /** One step of `_assignAnnotationTypes`, at column `col` of the live guess. */
  function AnnotationStep(g: seq<Role>, seg: Segment, col: nat): (r: Result<seq<Role>, GuessError>)
    requires col < |g|
    ensures r.Ok? ==> |r.value| == |g|
  {
    if g[col] == Annotation then
      if g[PyIndex(col - 1, |g|)] !in {Unknown, GlobalRef, LocalRef} then Ok(g[col := TagRole(g, seg, col)])
      else Ok(g)
    else if g[col] in RefRoles then Association(g, col)
    else Ok(g)
  }

  /** `_assignAnnotationTypes` from column `col` on. */
  function AssignedFrom(g: seq<Role>, seg: Segment, col: nat): (r: Result<seq<Role>, GuessError>)
    requires col <= |g|
    ensures r.Ok? ==> |r.value| == |g|
    decreases |g| - col
  {
    if col == |g| then Ok(g)
    else
      match AnnotationStep(g, seg, col)
      case Err(e) => Err(e)
      case Ok(next) => AssignedFrom(next, seg, col + 1)
  }

  /** One round of guessing on a segment: `_analyze` then `_assignAnnotationTypes`. */
  function Refined(g: seq<Role>, seg: Segment): (r: Result<(seq<Role>, bool), GuessError>)
    ensures r.Ok? ==> |r.value.0| == |g|
  {
    match AnalyzedFrom(g, seg, 0, false)
    case Err(e) => Err(e)
    case Ok(analyzed) =>
      match AssignedFrom(analyzed.0, seg, 0)
      case Err(e) => Err(e)
      case Ok(r) => Ok((r, analyzed.1))
  }

  // ---------------------------------------------------------------------------
  // The Guess object

  class Guess {
    const columns: nat
    var guess: seq<Role>
    var segment: Segment
    var tokenSeen: bool

    ghost predicate Valid()
      reads this
    {
      |guess| == columns
    }

    /** The field initialisation of `Guess.__init__`; its two analysis calls are `Refine`. */
    constructor (segment: Segment)
      requires |segment| >= 1
      ensures columns == |segment[0]| && guess == Unknowns(columns)
      ensures this.segment == segment && !tokenSeen
    {
      columns := |segment[0]|;
      guess := Unknowns(|segment[0]|);
      this.segment := segment;
      tokenSeen := false;
    }

    /** `update`: a round of guessing on a new segment. */
    method Update(segment: Segment) returns (err: Option<GuessError>)
      requires Valid()
      modifies this
      ensures Valid() && this.segment == segment
      ensures match Refined(old(guess), segment)
        case Err(e) => err == Some(e)
        case Ok(r) => err.None? && guess == r.0 && tokenSeen == r.1
    {
      this.segment := segment;
      err := Refine();
    }

    /** The round shared by `__init__` and `update`. */
    method Refine() returns (err: Option<GuessError>)
      requires Valid()
      modifies this
      ensures Valid() && segment == old(segment)
      ensures match Refined(old(guess), segment)
        case Err(e) => err == Some(e)
        case Ok(r) => err.None? && guess == r.0 && tokenSeen == r.1
    {
      err := Analyze();
      if err.None? {
        err := AssignAnnotationTypes();
      }
    }

    /** `_analyze`. */
    method Analyze() returns (err: Option<GuessError>)
      requires Valid()
      modifies this
      ensures Valid() && segment == old(segment)
      ensures match AnalyzedFrom(old(guess), segment, 0, false)
        case Err(e) => err == Some(e)
        case Ok(r) => err.None? && guess == r.0 && tokenSeen == r.1
    {
      tokenSeen := false;
      var col := 0;
      while col < columns
        invariant col <= columns && Valid() && segment == old(segment)
        invariant AnalyzedFrom(old(guess), segment, 0, false) == AnalyzedFrom(guess, segment, col, tokenSeen)
      {
        err := AnalyzeColumn(col);
        if err.Some? {
          return;
        }
        col := col + 1;
      }
      err := None;
    }

    /** `_analyzeColumn`. */
    method AnalyzeColumn(col: nat) returns (err: Option<GuessError>)
      requires Valid() && col < columns
      modifies this
      ensures Valid() && segment == old(segment)
      ensures match ColumnAnalysis(old(guess), segment, col, old(tokenSeen))
        case Err(e) => err == Some(e)
        case Ok(r) => err.None? && guess == r.0 && tokenSeen == r.1
    {
      err := None;
      if guess[col] == Unknown {
        if !tokenSeen {
          GuessIdOrToken(col);
        } else {
          err := GuessAnnotationOrReference(col);
        }
      } else if guess[col] in RefRoles {
        err := EnsureReference(col);
      }
    }

    /** `_guessIdOrToken`. */
    method GuessIdOrToken(col: nat)
      requires Valid() && col < columns && !tokenSeen
      modifies this
      ensures Valid() && segment == old(segment)
      ensures (guess, tokenSeen) == IdOrToken(old(guess), segment, col)
    {
      if Constant(segment, col) && |segment| > 1 {
        guess := guess[col := SegmentId];
      } else if AllDigits(segment, col) {
        if col == 0 {
          guess := guess[col := LocalEnum];
        } else {
          EnsureEnumColumns(col);
        }
      } else {
        GuessUnique(col, Token);
        tokenSeen := true;
      }
    }

    /** `_ensureEnumColumns`: at most two enumerations, the global one first. */
    method EnsureEnumColumns(own: nat)
      requires Valid() && own < columns
      modifies this`guess
      ensures guess == EnumRoles(old(guess), own)
    {
      ghost var g0 := guess;
      ghost var f := FirstOtherEnum(g0, own, 0);
      var globalSet := false;
      var thisRole := LocalEnum;
      var idx := 0;
      while idx < columns
        invariant idx <= columns && |guess| == |g0|
        invariant globalSet <==> f.Some? && f.value < idx
        invariant thisRole == if globalSet && f.value > own then GlobalEnum else LocalEnum
        invariant forall i :: 0 <= i < idx && i != own ==> guess[i] == EnumRoles(g0, own)[i]
        invariant forall i :: 0 <= i < |g0| && (idx <= i || i == own) ==> guess[i] == g0[i]
      {
        if guess[idx] in EnumColumns {
          if own == idx {
          } else if !globalSet {
            if idx < own {
              guess := guess[idx := GlobalEnum];
            } else if idx > own {
              guess := guess[idx := LocalEnum];
              thisRole := GlobalEnum;
            }
            globalSet := true;
          } else {
            guess := guess[idx := Unknown];
          }
        }
        idx := idx + 1;
      }
      guess := guess[own := thisRole];
      assert forall i :: 0 <= i < |guess| ==> guess[i] == EnumRoles(g0, own)[i];
    }

    /** `_guessUnique`. */
    method GuessUnique(col: nat, role: Role)
      requires Valid() && col < columns
      modifies this`guess
      ensures guess == UniqueRoles(old(guess), col, role)
    {
      ghost var g0 := guess;
      var idx := 0;
      while idx < col
        invariant idx <= col && |guess| == |g0|
        invariant forall i :: 0 <= i < idx ==> guess[i] == UniqueRoles(g0, col, role)[i]
        invariant forall i :: idx <= i < |g0| ==> guess[i] == g0[i]
      {
        if guess[idx] == role {
          guess := guess[idx := Unknown];
        }
        idx := idx + 1;
      }
      guess := guess[col := role];
      assert forall i :: 0 <= i < |guess| ==> guess[i] == UniqueRoles(g0, col, role)[i];
    }

    /** `_guessAnnotationOrReference`. */
    method GuessAnnotationOrReference(col: nat) returns (err: Option<GuessError>)
      requires Valid() && col < columns
      modifies this`guess
      ensures Valid()
      ensures match AnnotationOrReference(old(guess), segment, col)
        case Err(e) => err == Some(e)
        case Ok(r) => err.None? && guess == r
    {
      if AllDigits(segment, col) {
        err := GuessLocalOrGlobalReference(col);
      } else {
        guess := guess[col := Annotation];
        err := None;
      }
    }

    /** `_ensureReference`. */
    method EnsureReference(col: nat) returns (err: Option<GuessError>)
      requires Valid() && col < columns
      modifies this`guess
      ensures Valid()
      ensures match ReferenceCheck(old(guess), segment, col)
        case Err(e) => err == Some(e)
        case Ok(r) => err.None? && guess == r
    {
      if AllDigits(segment, col) {
        err := GuessLocalOrGlobalReference(col);
      } else {
        guess := guess[col := Unknown];
        err := None;
      }
    }

    /** `_guessLocalOrGlobalReference`. */
    method GuessLocalOrGlobalReference(col: nat) returns (err: Option<GuessError>)
      requires Valid() && col < columns
      modifies this`guess
      ensures Valid()
      ensures match ReferenceScope(old(guess), segment, col)
        case Err(e) => err == Some(e)
        case Ok(r) => err.None? && guess == r
    {
      var g, seg := guess, segment;
      var refs := References(seg, col);
      var enums := Indices(g, {LocalEnum}, 0);
      if refs == {} {
        return Some(EmptyReferences(col + 1));
      }
      err := None;
      if MaxOf(refs) > |seg| {
        guess := g[col := GlobalRef];
        return;
      }
      g := ScanLocalEnums(g, seg, refs, enums);
      guess := g[col := LocalRef];
    }

    /** `_assignAnnotationTypes`, reading the guess as it is updated. */
    method AssignAnnotationTypes() returns (err: Option<GuessError>)
      requires Valid()
      modifies this`guess
      ensures Valid()
      ensures match AssignedFrom(old(guess), segment, 0)
        case Err(e) => err == Some(e)
        case Ok(r) => err.None? && guess == r
    {
      var col := 0;
      while col < columns
        invariant col <= columns && Valid()
        invariant AssignedFrom(old(guess), segment, 0) == AssignedFrom(guess, segment, col)
      {
        if guess[col] == Annotation {
          if guess[PyIndex(col - 1, columns)] !in {Unknown, GlobalRef, LocalRef} {
            GuessTagOrProperty(col);
          }
        } else if guess[col] in RefRoles {
          err := GuessEventOrRelation(col);
          if err.Some? {
            return;
          }
        }
        col := col + 1;
      }
      err := None;
    }

    /** `_hasATagToTheLeft`, scanning from `col - 1` down to column 1. */
    method HasATagToTheLeft(col: nat) returns (found: bool)
      requires Valid() && col < columns
      ensures found == TagToTheLeft(guess, col)
    {
      var idx := col - 1;
      while idx > 0
        invariant -1 <= idx < col
        invariant forall j :: idx < j < col ==> guess[j] !in EntityColumns
      {
        if guess[idx] in EntityColumns {
          return true;
        }
        idx := idx - 1;
      }
      return false;
    }

    /** `_guessTagOrProperty`. */
    method GuessTagOrProperty(col: nat)
      requires Valid() && col < columns
      modifies this`guess
      ensures guess == old(guess)[col := TagRole(old(guess), segment, col)]
    {
      var tagged := HasATagToTheLeft(col);
      var role: Role;
      if tagged && AllNormalized(segment, col) {
        role := Normalization;
      } else if AllEntityTags(segment, col) {
        role := Entity;
      } else if tagged {
        role := Attribute;
      } else if guess[PyIndex(col - 1, columns)] == Token {
        role := PosTag;
      } else {
        role := Unknown;
      }
      guess := guess[col := role];
    }

    /** `_guessEventOrRelation`. */
    method GuessEventOrRelation(col: nat) returns (err: Option<GuessError>)
      requires Valid() && col < columns
      modifies this`guess
      ensures Valid()
      ensures match Association(old(guess), col)
        case Err(e) => err == Some(e)
        case Ok(r) => err.None? && guess == r
    {
      var next := col + 1;
      while next < columns
        invariant col + 1 <= next <= columns
        invariant forall j :: col + 1 <= j < next ==> guess[j] in RefRoles
        invariant guess == old(guess)
      {
        var role := guess[next];
        if role in RefRoles {
          next := next + 1;
        } else if role in {Relation, Event, Unknown} {
          return None;
        } else if role == Annotation {
          guess := guess[next := Disambiguate(next, col)];
          return None;
        } else {
          return Some(NotAnAssociation(role, col + 1));
        }
      }
      return None;
    }
  }

  // ---------------------------------------------------------------------------
  // The guessing driver (`_make_guess`, `guess_colspec`)

  /** What `_make_guess` returns: a specification read from a header, or a list of roles. */
  datatype Made = FromHeader(spec: Spec) | Guessed(roles: seq<Role>)

  /** The number of fields of the first row of the first segment. */
  function Width(segs: seq<Segment>): nat
  {
    if |segs| > 0 && |segs[0]| > 0 then |segs[0][0]| else 0
  }

  /** Every segment has at least one row and all rows have the same number of fields. */
  ghost predicate Shaped(segs: seq<Segment>)
  {
    forall k :: 0 <= k < |segs| ==> Fits(segs[k], Width(segs))
  }

  /** `all(n.split(':')[0] in C.NAMES for n in row)`: the row is a colspec header. */
  predicate IsHeaderRow(row: Row)
  {
    forall k :: 0 <= k < |row| ==> Before(row[k], ':') in NameTable
  }

  /**
   * `_make_guess` from segment `idx` on, given the guess so far and whether the previous
   * round found it complete. After an incomplete round the next segment is guessed; after a
   * complete one there is one last round; the sixth segment is always the last one read.
   * A format error of the reader surfaces only when a segment after the last one yielded
   * is requested.
   */
  function Rounds(segs: seq<Segment>, failure: Option<Reader.FormatError>, idx: nat,
                  current: Option<seq<Role>>, lastRound: bool): Result<Made, GuessError>
    requires idx <= |segs| && Shaped(segs)
    requires current.Some? ==> |current.value| == Width(segs)
    decreases |segs| - idx
  {
    if idx == |segs| then
      if failure.Some? then Err(Unreadable(failure.value))
      else if current.None? then Err(NoSegments)
      else Ok(Guessed(current.value))
    else
      var seg := segs[idx];
      var restart := current.None? || |current.value| == 0;
      if restart && |seg| == 1 && IsHeaderRow(seg[0]) then
        match FromStringSpec(Join(seg[0], " "))
        case Err(e) => Err(InvalidSpec(e))
        case Ok(spec) => Ok(FromHeader(spec))
      else
        match Refined(if restart then Unknowns(|seg[0]|) else current.value, seg)
        case Err(e) => Err(e)
        case Ok(r) =>
          if idx > 4 || lastRound then Ok(Guessed(r.0))
          else Rounds(segs, failure, idx + 1, Some(r.0), Complete(r.0))
  }

  function MadeGuess(segs: seq<Segment>, failure: Option<Reader.FormatError>): Result<Made, GuessError>
    requires Shaped(segs)
  {
    Rounds(segs, failure, 0, None, false)
  }

  /** `_make_guess`, over the segments the reader yields and the error it raises after them. */
  method MakeGuess(segs: seq<Segment>, failure: Option<Reader.FormatError>) returns (r: Result<Made, GuessError>)
    requires Shaped(segs)
    ensures r == MadeGuess(segs, failure)
  {
    var guess: Guess? := null;
    var lastRound := false;
    var idx := 0;
    while idx < |segs|
      invariant idx <= |segs|
      invariant guess != null ==> fresh(guess) && guess.Valid() && guess.columns == Width(segs)
      invariant MadeGuess(segs, failure) ==
        Rounds(segs, failure, idx, if guess == null then None else Some(guess.guess), lastRound)
    {
      var segment := segs[idx];
      var err;
      if guess == null || guess.columns == 0 {
        if |segment| == 1 && IsHeaderRow(segment[0]) {
          var spec := FromString(Join(segment[0], " "));
          match spec
          case Err(e) => return Err(InvalidSpec(e));
          case Ok(s) => return Ok(FromHeader(s));
        }
        guess := new Guess(segment);
        err := guess.Refine();
      } else {
        err := guess.Update(segment);
      }
      if err.Some? {
        return Err(err.value);
      }
      if idx > 4 || lastRound {
        return Ok(Guessed(guess.guess));
      } else if Complete(guess.guess) {
        lastRound := true;
      }
      idx := idx + 1;
    }
    if failure.Some? {
      return Err(Unreadable(failure.value));
    }
    if guess == null {
      return Err(NoSegments);
    }
    return Ok(Guessed(guess.guess));
  }

  /** The column codes of a list of roles (what `from_integers` is given). */
  function Codes(roles: seq<Role>): (codes: seq<int>)
    ensures |codes| == |roles| && forall i :: 0 <= i < |roles| ==> codes[i] == Code(roles[i])
  {
    seq(|roles|, i requires 0 <= i < |roles| => Code(roles[i]))
  }

  /** The tail of `guess_colspec` once any raised error has reached it. */
  function Concluded(made: Result<Made, GuessError>): (r: Result<Option<Spec>, GuessError>)
    ensures made.Err? && (made.error.Unreadable? || made.error.NotAnAssociation?) ==> r == Ok(None)
    ensures r.Ok? && r.value.Some? ==> made.Ok?
  {
    match made
    case Err(Unreadable(_)) => Ok(None)
    case Err(NotAnAssociation(_, _)) => Ok(None)
    case Err(e) => Err(e)
    case Ok(FromHeader(spec)) => Ok(Some(spec))
    case Ok(Guessed(roles)) =>
      if |roles| < 2 then Ok(None)
      else
        match FromIntegersSpec(Codes(roles))
        case Err(e) => Err(InvalidSpec(e))
        case Ok(spec) => Ok(Some(spec))
  }

  /**
   * The tail of `guess_colspec` as written: the error message for a reference column
   * followed by a non-association column looks its role name up in an attribute the column
   * specification class does not have, so an `AttributeError` escapes instead of the
   * `DataFormatError` that would have been caught.
   */
  function ConcludedAsWritten(made: Result<Made, GuessError>): (r: Result<Option<Spec>, GuessError>)
    ensures made.Err? && made.error.NotAnAssociation? ==> r == Err(made.error)
    ensures !(made.Err? && made.error.NotAnAssociation?) ==> r == Concluded(made)
  {
    match made
    case Err(NotAnAssociation(_, _)) => Err(made.error)
    case _ => Concluded(made)
  }

  /** `guess_colspec` on a reader with separator `sep`, filter `filter` and stripped `lines`. */
  function GuessedSpec(sep: Reader.Separator, filter: string -> bool, lines: seq<string>): Result<Option<Spec>, GuessError>
  {
    ReaderFacts.SegmentsShape(sep, filter, lines);
    var segs := Reader.Segments(sep, filter, lines);
    assert Shaped(segs);
    Concluded(MadeGuess(segs, Reader.ReadError(sep, filter, lines)))
  }

  /** `guess_colspec`. */
  method GuessColspec(reader: Reader.OtplReader) returns (r: Result<Option<Spec>, GuessError>)
    requires reader.separator.Some?
    ensures r == GuessedSpec(reader.separator.value, reader.filter, reader.lines)
  {
    var segments, error := reader.Iterate();
    ReaderFacts.SegmentsShape(reader.separator.value, reader.filter, reader.lines);
    var made := MakeGuess(segments, error);
    match made
    case Err(Unreadable(_)) => r := Ok(None);
    case Err(NotAnAssociation(_, _)) => r := Ok(None);
    case Err(e) => r := Err(e);
    case Ok(FromHeader(spec)) => r := Ok(Some(spec));
    case Ok(Guessed(roles)) =>
      if |roles| < 2 {
        r := Ok(None);
      } else {
        var spec := FromIntegers(Codes(roles));
        match spec
        case Err(e) => r := Err(InvalidSpec(e));
        case Ok(s) => r := Ok(Some(s));
      }
  }
}
