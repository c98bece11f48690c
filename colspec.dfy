/**
 * The OTPL column specification: the role of every column and, for references, relations,
 * events and properties, the column they point at.
 *
 * A specification is built once, column by column, from a list of role integers and the
 * header words they came from, and is never changed afterwards; it is modelled as the
 * value `Spec`, produced by the method `Build` whose loop performs the registrations.
 */
module ColSpec {
  import opened Wrappers
  import opened Text

  // ---------------------------------------------------------------------------
  // Column roles and their name and integer tables

  datatype Role =
    | Unknown | Token | SegmentId | GlobalEnum | LocalEnum | PosTag | Entity
    | Normalization | Relation | Event | Attribute | LocalRef | GlobalRef
    | Annotation

  /** The integer the source assigns to each role. */
  function Code(r: Role): int
  {
    match r
    case Unknown => 0
    case Token => 1
    case SegmentId => 2
    case GlobalEnum => 3
    case LocalEnum => 4
    case PosTag => 5
    case Entity => 6
    case Normalization => 7
    case Relation => 8
    case Event => 9
    case Attribute => 10
    case LocalRef => 11
    case GlobalRef => 12
    case Annotation => 99
  }

  /** The role's name as it appears in a colspec header. */
  function Name(r: Role): string
  {
    match r
    case Unknown => "_UNKNOWN"
    case Token => "TOKEN"
    case SegmentId => "SEGMENT_ID"
    case GlobalEnum => "GLOBAL_ENUM"
    case LocalEnum => "LOCAL_ENUM"
    case PosTag => "POS_TAG"
    case Entity => "ENTITY"
    case Normalization => "NORMALIZATION"
    case Relation => "RELATION"
    case Event => "EVENT"
    case Attribute => "ATTRIBUTE"
    case LocalRef => "LOCAL_REF"
    case GlobalRef => "GLOBAL_REF"
    case Annotation => "_ANNOTATION"
  }

  /** The integer-to-role table (`INTEGERS`). */
  function FromCode(i: int): (r: Option<Role>)
    ensures r.Some? ==> Code(r.value) == i
  {
    if i == 0 then Some(Unknown)
    else if i == 1 then Some(Token)
    else if i == 2 then Some(SegmentId)
    else if i == 3 then Some(GlobalEnum)
    else if i == 4 then Some(LocalEnum)
    else if i == 5 then Some(PosTag)
    else if i == 6 then Some(Entity)
    else if i == 7 then Some(Normalization)
    else if i == 8 then Some(Relation)
    else if i == 9 then Some(Event)
    else if i == 10 then Some(Attribute)
    else if i == 11 then Some(LocalRef)
    else if i == 12 then Some(GlobalRef)
    else if i == 99 then Some(Annotation)
    else None
  }

  /** The role of each header name (the table the metaclass builds). */
  const NameTable: map<string, Role> := map[
    "_UNKNOWN" := Unknown,
    "TOKEN" := Token,
    "SEGMENT_ID" := SegmentId,
    "GLOBAL_ENUM" := GlobalEnum,
    "LOCAL_ENUM" := LocalEnum,
    "POS_TAG" := PosTag,
    "ENTITY" := Entity,
    "NORMALIZATION" := Normalization,
    "RELATION" := Relation,
    "EVENT" := Event,
    "ATTRIBUTE" := Attribute,
    "LOCAL_REF" := LocalRef,
    "GLOBAL_REF" := GlobalRef,
    "_ANNOTATION" := Annotation
  ]

  function FromName(s: string): (r: Option<Role>)
    ensures r.Some? ==> Name(r.value) == s
  {
    if s in NameTable then Some(NameTable[s]) else None
  }

  /** The two tables are inverse to each other in both directions. */
  lemma RoleTablesAgree(r: Role)
    ensures FromCode(Code(r)) == Some(r)
    ensures FromName(Name(r)) == Some(r)
  {
    match r
    case Unknown =>
    case Token =>
    case SegmentId =>
    case GlobalEnum =>
    case LocalEnum =>
    case PosTag =>
    case Entity =>
    case Normalization =>
    case Relation =>
    case Event =>
    case Attribute =>
    case LocalRef =>
    case GlobalRef =>
    case Annotation =>
  }

  /** The columns a reference or relation binds to by default (`_ENTITY_COLUMNS`). */
  const EntityColumns: set<Role> := {PosTag, Entity}
  /** `_ENUM_COLUMNS`. */
  const EnumColumns: set<Role> := {LocalEnum, GlobalEnum}
  /** The roles a target scan may pass over (`_SKIPPED_COLUMNS`). */
  const SkippedColumns: set<Role> := {GlobalRef, LocalRef, Attribute, Normalization, Event, Relation}
  /** The roles a property or a re-targeted reference may point at (`_PROPERTY_TARGET_COLUMNS`). */
  const PropertyTargetColumns: set<Role> := {PosTag, Entity, Relation, Event}
  /** The two reference roles. */
  const RefRoles: set<Role> := {LocalRef, GlobalRef}

  /** The integer `code` stands for a role in `group`. */
  predicate CodeIn(code: int, group: set<Role>)
  {
    FromCode(code).Some? && FromCode(code).value in group
  }

  /** `INTEGERS.get(code, '_TYPE_')`. */
  function NameOrType(code: int): (s: string)
    ensures |s| > 0 && HasNoWhitespace(s) && ':' !in s
  {
    match FromCode(code)
    case Some(r) => NameHasNoBlanks(r); Name(r)
    case None => "_TYPE_"
  }

  /** Role names are made of capitals and underscores only. */
  lemma NameHasNoBlanks(r: Role)
    ensures |Name(r)| > 0 && HasNoWhitespace(Name(r)) && ':' !in Name(r)
  {
    if r in {Unknown, Token, SegmentId, GlobalEnum, LocalEnum, PosTag, Entity} {
      TagNamesAreWords(r);
    } else {
      AssociationNamesAreWords(r);
    }
    CapitalsAreWord(Name(r));
  }

  predicate Capitals(s: string)
  {
    forall i :: 0 <= i < |s| ==> 'A' <= s[i] <= 'Z' || s[i] == '_'
  }

  lemma CapitalsAreWord(s: string)
    requires Capitals(s)
    ensures HasNoWhitespace(s) && ':' !in s
  {
  }

  lemma TagNamesAreWords(r: Role)
    requires r in {Unknown, Token, SegmentId, GlobalEnum, LocalEnum, PosTag, Entity}
    ensures |Name(r)| > 0 && Capitals(Name(r))
  {
    match r
    case Unknown => assert Capitals("_UNKNOWN");
    case Token => assert Capitals("TOKEN");
    case SegmentId => assert Capitals("SEGMENT_ID");
    case GlobalEnum => assert Capitals("GLOBAL_ENUM");
    case LocalEnum => assert Capitals("LOCAL_ENUM");
    case PosTag => assert Capitals("POS_TAG");
    case Entity => assert Capitals("ENTITY");
  }

  lemma AssociationNamesAreWords(r: Role)
    requires r !in {Unknown, Token, SegmentId, GlobalEnum, LocalEnum, PosTag, Entity}
    ensures |Name(r)| > 0 && Capitals(Name(r))
  {
    match r
    case Normalization => assert Capitals("NORMALIZATION");
    case Relation => assert Capitals("RELATION");
    case Event => assert Capitals("EVENT");
    case Attribute => assert Capitals("ATTRIBUTE");
    case LocalRef => assert Capitals("LOCAL_REF");
    case GlobalRef => assert Capitals("GLOBAL_REF");
    case Annotation => assert Capitals("_ANNOTATION");
  }

  // ---------------------------------------------------------------------------
  // Header parsing

  datatype SpecError =
    | IllegalName(name: string, column: nat)
    | SingleColumn
    | UnknownType(header: string, code: int, column: nat)
    | AlreadyAssigned(role: Role, column: nat)
    | NoReference(column: nat)
    | InvalidTarget(targetCode: int, header: string, column: nat)
    | BadTargetNumber(header: string, column: nat)
    | NoTarget(role: Role, column: nat)
    | MissingTarget(role: Role, column: nat)
    | NoEventReferences(column: nat)
    | FewEventReferences(column: nat)
    | NotPropertyTarget(column: nat)

  /** `__get_value`: the role integer named by a header word's text before its first ':'. */
  function WordCode(word: string, idx: nat): Result<int, SpecError>
  {
    var name := Before(word, ':');
    match FromName(name)
    case Some(role) => Ok(Code(role))
    case None => Err(IllegalName(name, idx + 1))
  }

  /** The role integer, or the error, of every header word. */
  function WordCodes(names: seq<string>): (rs: seq<Result<int, SpecError>>)
    ensures |rs| == |names|
    ensures forall i :: 0 <= i < |names| ==> rs[i] == WordCode(names[i], i)
  {
    if |names| == 0 then []
    else WordCodes(names[..|names| - 1]) + [WordCode(names[|names| - 1], |names| - 1)]
  }

  /** `parse_colspec`: the role integers of a header's words, or the first word's error. */
  function ParseCodes(header: string): (r: Result<seq<int>, SpecError>)
    ensures r.Ok? ==> |r.value| == |Words(header)|
  {
    CollectMeaning(WordCodes(Words(header)), |Words(header)|);
    CollectUpTo(WordCodes(Words(header)), |Words(header)|)
  }

  /** The text before ':' of a role name followed by a `:`-suffix is the name. */
  lemma BeforeOfName(r: Role, suffix: string)
    requires suffix == "" || suffix[0] == ':'
    ensures Before(Name(r) + suffix, ':') == Name(r)
  {
    NameHasNoBlanks(r);
    var w := Name(r) + suffix;
    assert w[..|Name(r)|] == Name(r);
    if suffix != "" {
      assert w[|Name(r)|] == ':';
    } else {
      assert w == Name(r);
    }
  }

  /** A word names role `r` exactly when its text before ':' is `r`'s name. */
  lemma WordCodeOfName(r: Role, suffix: string, idx: nat)
    requires suffix == "" || suffix[0] == ':'
    ensures WordCode(Name(r) + suffix, idx) == Ok(Code(r))
  {
    BeforeOfName(r, suffix);
    RoleTablesAgree(r);
  }

  /** The example of the `parse_colspec` documentation. */
  lemma ParseCodesDocExample()
    ensures ParseCodes(Join(["SEGMENT_ID", "LOCAL_ENUM", "TOKEN", "POS_TAG", "LOCAL_REF", "RELATION"], " "))
      == Ok([2, 4, 1, 5, 11, 8])
  {
    var colspec := [2, 4, 1, 5, 11, 8];
    assert IntegerNames(colspec) == ["SEGMENT_ID", "LOCAL_ENUM", "TOKEN", "POS_TAG", "LOCAL_REF", "RELATION"];
    IntegersRoundTrip(colspec);
  }

  /** `__get_value`: the integer of the role a header word names. */
  method GetValue(word: string, idx: nat) returns (r: Result<int, SpecError>)
    ensures r == WordCode(word, idx)
  {
    var name := Before(word, ':');
    var role := FromName(name);
    if role.None? {
      return Err(IllegalName(name, idx + 1));
    }
    return Ok(Code(role.value));
  }

  /** `parse_colspec`: the role integers of the header's whitespace-separated words. */
  method ParseColspec(header: string) returns (r: Result<seq<int>, SpecError>)
    ensures r == ParseCodes(header)
  {
    r := ParseNames(Words(header));
  }

  /** The loop of `parse_colspec` over the header's words, filling a list preallocated with `_UNKNOWN`. */
  method ParseNames(names: seq<string>) returns (r: Result<seq<int>, SpecError>)
    ensures r == CollectUpTo(WordCodes(names), |names|)
  {
    ghost var rs := WordCodes(names);
    var colspec := UnknownCodes(|names|);
    var idx := 0;
    while idx < |names|
      invariant 0 <= idx <= |names| == |colspec|
      invariant CollectUpTo(rs, idx) == Ok(colspec[..idx])
    {
      var value := GetValue(names[idx], idx);
      assert value == rs[idx];
      if value.Err? {
        CollectSticks(rs, idx + 1, |names|);
        return Err(value.error);
      }
      CollectStep(rs, idx);
      SetExtends(colspec, idx, value.value);
      colspec := colspec[idx := value.value];
      idx := idx + 1;
    }
    assert colspec == colspec[..idx];
    return Ok(colspec);
  }

  /** The list `parse_colspec` preallocates: `n` times `_UNKNOWN`. */
  function UnknownCodes(n: nat): (s: seq<int>)
    ensures |s| == n
  {
    if n == 0 then [] else UnknownCodes(n - 1) + [Code(Unknown)]
  }

  /** Setting the element after a prefix extends that prefix by it. */
  lemma SetExtends(s: seq<int>, i: nat, v: int)
    requires i < |s|
    ensures s[i := v][..i + 1] == s[..i] + [v]
  {
    assert s[i := v][..i + 1] == s[..i] + [v];
  }

  /** `to_string`: a header naming each integer, `_TYPE_` for unknown ones. */
  function IntegersToString(colspec: seq<int>): string
  {
    Join(IntegerNames(colspec), " ")
  }

  function IntegerNames(colspec: seq<int>): (names: seq<string>)
    ensures |names| == |colspec|
    ensures forall k :: 0 <= k < |colspec| ==> names[k] == NameOrType(colspec[k])
  {
    seq(|colspec|, k requires 0 <= k < |colspec| => NameOrType(colspec[k]))
  }

  /** Splitting the header that `to_string` writes gives back one name per integer. */
  lemma IntegerHeaderWords(colspec: seq<int>)
    ensures Words(IntegersToString(colspec)) == IntegerNames(colspec)
  {
    WordsOfJoin(IntegerNames(colspec));
  }

  /** Parsing the header that `to_string` writes for known integers gives them back. */
  lemma IntegersRoundTrip(colspec: seq<int>)
    requires forall k :: 0 <= k < |colspec| ==> FromCode(colspec[k]).Some?
    ensures ParseCodes(IntegersToString(colspec)) == Ok(colspec)
  {
    IntegerHeaderWords(colspec);
    var names := IntegerNames(colspec);
    var rs := WordCodes(names);
    forall k | 0 <= k < |colspec| ensures rs[k] == Ok(colspec[k]) {
      var r := FromCode(colspec[k]).value;
      NameHasNoBlanks(r);
      WordCodeOfName(r, "", k);
      assert Name(r) + "" == names[k];
    }
    CollectMeaning(rs, |rs|);
    assert CollectUpTo(rs, |rs|).value == colspec;
  }

  // ---------------------------------------------------------------------------
  // Targets

  /**
   * `__set_target`: scanning from column `t` down to column 1 for a role in `targets`,
   * passing over skippable roles.
   */
  function ScanFrom(colspec: seq<int>, col: nat, targets: set<Role>, t: int): Result<nat, SpecError>
    requires col < |colspec| && t < col
    requires FromCode(colspec[col]).Some?
    decreases t
  {
    if t < 1 then Err(MissingTarget(FromCode(colspec[col]).value, col + 1))
    else if CodeIn(colspec[t], targets) then Ok(t)
    else if !CodeIn(colspec[t], SkippedColumns) then Err(NoTarget(FromCode(colspec[col]).value, col + 1))
    else ScanFrom(colspec, col, targets, t - 1)
  }

  /** The nearest-target-to-the-left rule. */
  function DefaultTarget(colspec: seq<int>, col: nat, targets: set<Role>): Result<nat, SpecError>
    requires col < |colspec|
    requires FromCode(colspec[col]).Some?
  {
    ScanFrom(colspec, col, targets, col - 1)
  }

  /** Every column strictly between `t` and `col` may be passed over and is not a target. */
  ghost predicate PassedOver(colspec: seq<int>, t: int, col: nat, targets: set<Role>)
    requires col <= |colspec|
  {
    forall k :: t < k < col ==> k >= 0 && !CodeIn(colspec[k], targets) && CodeIn(colspec[k], SkippedColumns)
  }

  /** The three outcomes of a scan, as the source describes them. */
  ghost predicate ScanOutcome(colspec: seq<int>, col: nat, targets: set<Role>, r: Result<nat, SpecError>)
    requires col < |colspec|
    requires FromCode(colspec[col]).Some?
  {
    var role := FromCode(colspec[col]).value;
    match r
    case Ok(x) => 1 <= x < col && CodeIn(colspec[x], targets) && PassedOver(colspec, x, col, targets)
    case Err(e) =>
      (e == MissingTarget(role, col + 1) && PassedOver(colspec, 0, col, targets)) ||
      (e == NoTarget(role, col + 1) &&
       exists k :: 1 <= k < col && !CodeIn(colspec[k], targets) && !CodeIn(colspec[k], SkippedColumns) &&
         PassedOver(colspec, k, col, targets))
  }

  lemma {:induction false} ScanFromMeaning(colspec: seq<int>, col: nat, targets: set<Role>, t: int)
    requires col < |colspec| && t < col
    requires FromCode(colspec[col]).Some?
    requires PassedOver(colspec, t, col, targets)
    ensures ScanOutcome(colspec, col, targets, ScanFrom(colspec, col, targets, t))
    decreases t
  {
    if t >= 1 && CodeIn(colspec[t], SkippedColumns) && !CodeIn(colspec[t], targets) {
      ScanFromMeaning(colspec, col, targets, t - 1);
    }
  }

  /**
   * The default target scan walks left from `col - 1` to column 1: it binds the first
   * column with a target role, fails with "has no target" at the first column it may not
   * pass over, and with "with no target" when it runs out of columns.
   */
  lemma DefaultTargetMeaning(colspec: seq<int>, col: nat, targets: set<Role>)
    requires col < |colspec|
    requires FromCode(colspec[col]).Some?
    ensures ScanOutcome(colspec, col, targets, DefaultTarget(colspec, col, targets))
  {
    ScanFromMeaning(colspec, col, targets, col - 1);
  }

  /** Column 0 is never examined by the default scan. */
  lemma {:induction false} ScanIgnoresColumnZero(a: seq<int>, b: seq<int>, col: nat, targets: set<Role>, t: int)
    requires |a| == |b| && 1 <= col < |a| && t < col
    requires forall k :: 1 <= k < |a| ==> a[k] == b[k]
    requires FromCode(a[col]).Some?
    ensures ScanFrom(a, col, targets, t) == ScanFrom(b, col, targets, t)
    decreases t
  {
    if t >= 1 {
      ScanIgnoresColumnZero(a, b, col, targets, t - 1);
    }
  }

  /** The text after the first ':' of a header word. */
  function TargetSuffix(header: string): string
    requires ':' in header
  {
    header[|Before(header, ':')| + 1..]
  }

  /**
   * An explicit `NAME:N` target: column N-1, which must exist and hold a tag or an
   * association.
   */
  function OverrideTarget(colspec: seq<int>, header: string, col: nat): (r: Result<nat, SpecError>)
    requires ':' in header
    ensures r.Ok? ==> r.value < |colspec| && CodeIn(colspec[r.value], PropertyTargetColumns)
  {
    match ParseInt(TargetSuffix(header))
    case None => Err(BadTargetNumber(header, col + 1))
    case Some(n) =>
      if 1 <= n <= |colspec| then
        if CodeIn(colspec[n - 1], PropertyTargetColumns) then Ok((n - 1) as nat)
        else Err(InvalidTarget(colspec[n - 1], header, col + 1))
      else Err(BadTargetNumber(header, col + 1))
  }

  /** Python sequence indexing: a negative index counts from the end. */
  function PyIndex(i: int, length: nat): (k: nat)
    requires -(length as int) <= i < length
    ensures k < length
    ensures i >= 0 ==> k == i
  {
    if i < 0 then i + length else i
  }

  /**
   * The override exactly as `__set_target_from_header` computes it: `int(suffix) - 1` is
   * used as a Python index, so `:0` (and negative numbers) wrap around to the columns at
   * the end of the row, and the stored target is negative.
   */
  function OverrideTargetAsWritten(colspec: seq<int>, header: string, col: nat): (r: Result<int, SpecError>)
    requires ':' in header
    ensures r.Ok? ==>
      && -(|colspec| as int) <= r.value < |colspec|
      && CodeIn(colspec[PyIndex(r.value, |colspec|)], PropertyTargetColumns)
  {
    match ParseInt(TargetSuffix(header))
    case None => Err(BadTargetNumber(header, col + 1))
    case Some(n) =>
      var t := n - 1;
      if -(|colspec| as int) <= t < |colspec| then
        var k := PyIndex(t, |colspec|);
        if CodeIn(colspec[k], PropertyTargetColumns) then Ok(t)
        else Err(InvalidTarget(colspec[k], header, col + 1))
      else Err(BadTargetNumber(header, col + 1))
  }

  /** The corrected override agrees with the written one whenever N names a column. */
  lemma OverrideTargetCorrects(colspec: seq<int>, header: string, col: nat)
    requires ':' in header
    ensures OverrideTarget(colspec, header, col).Ok? ==>
      OverrideTargetAsWritten(colspec, header, col) == Ok(OverrideTarget(colspec, header, col).value as int)
    ensures OverrideTargetAsWritten(colspec, header, col).Ok? && OverrideTargetAsWritten(colspec, header, col).value >= 0 ==>
      OverrideTarget(colspec, header, col) == Ok(OverrideTargetAsWritten(colspec, header, col).value as nat)
  {
  }

  /** `TOKEN POS_TAG LOCAL_REF:0 ENTITY`: the written code accepts column -1 as the target. */
  lemma OverrideZeroWrapsAround()
    ensures OverrideTargetAsWritten([1, 5, 11, 6], Name(LocalRef) + ":0", 2) == Ok(-1)
    ensures OverrideTarget([1, 5, 11, 6], Name(LocalRef) + ":0", 2) == Err(BadTargetNumber(Name(LocalRef) + ":0", 3))
  {
    var h := Name(LocalRef) + ":0";
    BeforeOfName(LocalRef, ":0");
    assert TargetSuffix(h) == h[|Name(LocalRef)| + 1..] == "0";
    assert DigitsValue("0") == Some(0);
  }

  /** `__set_target_from_header`: an explicit `:N` target, otherwise the nearest tag to the left. */
  function TargetFromHeader(colspec: seq<int>, headers: seq<string>, col: nat): Result<nat, SpecError>
    requires col < |colspec| == |headers|
    requires FromCode(colspec[col]).Some?
  {
    if ':' in headers[col] then OverrideTarget(colspec, headers[col], col)
    else DefaultTarget(colspec, col, EntityColumns)
  }

  /** A relation needs a reference column immediately to its left. */
  predicate HasReference(colspec: seq<int>, col: nat)
    requires col < |colspec|
    ensures col == 0 ==> !HasReference(colspec, col)
  {
    col >= 1 && CodeIn(colspec[col - 1], RefRoles)
  }

  /**
   * The check of `_add_relation` as written: `colspec[col - 1]` for `col == 0` is the last
   * column, so a RELATION in the first column passes when the row ends with a reference.
   */
  predicate HasReferenceAsWritten(colspec: seq<int>, col: nat)
    requires col < |colspec|
    ensures col == 0 ==> (HasReferenceAsWritten(colspec, col) <==> CodeIn(colspec[|colspec| - 1], RefRoles))
  {
    CodeIn(colspec[PyIndex(col - 1, |colspec|)], RefRoles)
  }

  /** Both checks agree on every column but the first. */
  lemma HasReferenceCorrects(colspec: seq<int>, col: nat)
    requires 1 <= col < |colspec|
    ensures HasReference(colspec, col) == HasReferenceAsWritten(colspec, col)
  {
  }

  /** The header `RELATION:3 TOKEN POS_TAG LOCAL_REF`. */
  const RelationFirst: seq<string> := ["RELATION:3", "TOKEN", "POS_TAG", "LOCAL_REF"]

  /** Its relation's explicit target `:3` is the PoS column, which a relation may point at. */
  lemma RelationFirstTarget()
    ensures TargetFromHeader([8, 1, 5, 11], RelationFirst, 0) == Ok(2)
  {
    var colspec: seq<int> := [8, 1, 5, 11];
    var header := RelationFirst[0];
    assert header[8] == ':';
    BeforeOfName(Relation, ":3");
    assert header == Name(Relation) + ":3";
    assert TargetSuffix(header) == "3";
    ParseIntOfIntToString(3);
    assert ParseInt(TargetSuffix(header)) == Some(3);
    assert FromCode(colspec[2]) == Some(PosTag);
    assert OverrideTarget(colspec, header, 0) == Ok(2);
  }

  /**
   * `RELATION:3 TOKEN POS_TAG LOCAL_REF`: column 1 has no left neighbour, yet the check as
   * written passes, and the relation's explicit target is accepted, so the check alone decides;
   * the corrected check rejects the column.
   */
  lemma RelationInFirstColumnPasses()
    ensures HasReferenceAsWritten([8, 1, 5, 11], 0) && !HasReference([8, 1, 5, 11], 0)
    ensures TargetFromHeader([8, 1, 5, 11], RelationFirst, 0) == Ok(2)
    ensures ColumnError([8, 1, 5, 11], RelationFirst, 0) == Some(NoReference(1))
  {
    RelationFirstWraps();
    RelationFirstTarget();
    RelationFirstRejected();
  }

  /** The check as written reads the last column, a reference, for the relation in column 1. */
  lemma RelationFirstWraps()
    ensures HasReferenceAsWritten([8, 1, 5, 11], 0) && !HasReference([8, 1, 5, 11], 0)
  {
    assert FromCode(11) == Some(LocalRef);
  }

  /** The corrected check rejects the relation in column 1. */
  lemma RelationFirstRejected()
    ensures ColumnError([8, 1, 5, 11], RelationFirst, 0) == Some(NoReference(1))
  {
    var colspec: seq<int> := [8, 1, 5, 11];
    assert FromCode(colspec[0]) == Some(Relation);
    assert Relation != Annotation && Relation !in SingletonRoles;
    assert !HasReference(colspec, 0);
  }

  // ---------------------------------------------------------------------------
  // The specification value and its construction

  /** An event's trigger reference column and its argument reference columns. */
  datatype EventTargets = EventTargets(trigger: nat, args: seq<nat>)

  datatype Spec = Spec(
    width: nat,
    token: Option<nat>,
    globalEnum: Option<nat>,
    localEnum: Option<nat>,
    posTag: Option<nat>,
    segmentIds: set<nat>,
    entities: set<nat>,
    events: map<nat, EventTargets>,
    relations: map<nat, nat>,
    globalRefs: map<nat, nat>,
    localRefs: map<nat, nat>,
    normalizations: map<nat, nat>,
    attributes: map<nat, nat>)

  /** Roles only one column may have. */
  const SingletonRoles: set<Role> := {Token, GlobalEnum, LocalEnum, PosTag}
  /** Roles whose target comes from the header (`:N`) or the nearest tag. */
  const HeaderTargetRoles: set<Role> := {Relation, GlobalRef, LocalRef}
  /** Roles whose target is the nearest tag or association. */
  const PropertyRoles: set<Role> := {Normalization, Attribute}

  function ErrorOf<T>(r: Result<T, SpecError>): Option<SpecError>
  {
    if r.Err? then Some(r.error) else None
  }

  /** The first of the first `n` columns holding integer `code`. */
  function FirstWithCode(colspec: seq<int>, n: nat, code: int): (r: Option<nat>)
    requires n <= |colspec|
    ensures r.Some? ==> r.value < n && colspec[r.value] == code
    ensures r.Some? ==> forall c :: 0 <= c < r.value ==> colspec[c] != code
    ensures r.None? ==> forall c :: 0 <= c < n ==> colspec[c] != code
  {
    if n == 0 then None
    else
      match FirstWithCode(colspec, n - 1, code)
      case Some(c) => Some(c)
      case None => if colspec[n - 1] == code then Some(n - 1) else None
  }

  /** The error registering column `col` raises, given the columns before it (`initialize`). */
  function ColumnError(colspec: seq<int>, headers: seq<string>, col: nat): Option<SpecError>
    requires col < |colspec| == |headers|
  {
    var code := colspec[col];
    match FromCode(code)
    case None => Some(UnknownType(headers[col], code, col + 1))
    case Some(role) =>
      if role == Annotation then Some(UnknownType(headers[col], code, col + 1))
      else if role in SingletonRoles then
        match FirstWithCode(colspec, col, code)
        case Some(c) => Some(AlreadyAssigned(role, c + 1))
        case None => None
      else if role == Relation && !HasReference(colspec, col) then Some(NoReference(col + 1))
      else if role in HeaderTargetRoles then ErrorOf(TargetFromHeader(colspec, headers, col))
      else if role in PropertyRoles then ErrorOf(DefaultTarget(colspec, col, PropertyTargetColumns))
      else None
  }

  function ColumnErrors(colspec: seq<int>, headers: seq<string>): (errs: seq<Option<SpecError>>)
    requires |colspec| == |headers|
    ensures |errs| == |colspec|
    ensures forall c :: 0 <= c < |colspec| ==> errs[c] == ColumnError(colspec, headers, c)
  {
    seq(|colspec|, c requires 0 <= c < |colspec| => ColumnError(colspec, headers, c))
  }

  /** The target a reference, relation or property column is registered with. */
  function ColumnTarget(colspec: seq<int>, headers: seq<string>, col: nat): nat
    requires col < |colspec| == |headers|
  {
    var role := FromCode(colspec[col]);
    if role.Some? && role.value in HeaderTargetRoles then
      match TargetFromHeader(colspec, headers, col)
      case Ok(t) => t
      case Err(_) => 0
    else if role.Some? && role.value in PropertyRoles then
      match DefaultTarget(colspec, col, PropertyTargetColumns)
      case Ok(t) => t
      case Err(_) => 0
    else 0
  }

  function ColumnTargets(colspec: seq<int>, headers: seq<string>): (ts: seq<nat>)
    requires |colspec| == |headers|
    ensures |ts| == |colspec|
    ensures forall c :: 0 <= c < |colspec| ==> ts[c] == ColumnTarget(colspec, headers, c)
  {
    seq(|colspec|, c requires 0 <= c < |colspec| => ColumnTarget(colspec, headers, c))
  }

  /** The fields `__init__` fills while it registers the columns. */
  datatype Registry = Registry(
    token: Option<nat>,
    globalEnum: Option<nat>,
    localEnum: Option<nat>,
    posTag: Option<nat>,
    segmentIds: set<nat>,
    entities: set<nat>,
    pendingEvents: seq<nat>,
    relations: map<nat, nat>,
    globalRefs: map<nat, nat>,
    localRefs: map<nat, nat>,
    normalizations: map<nat, nat>,
    attributes: map<nat, nat>)

  const EmptyRegistry: Registry := Registry(None, None, None, None, {}, {}, [], map[], map[], map[], map[], map[])

  /** Recording column `col`, holding `code` and the target `target`, once its checks passed. */
  function Register(reg: Registry, code: int, col: nat, target: nat): Registry
  {
    Registry(
      if code == Code(Token) && reg.token.None? then Some(col) else reg.token,
      if code == Code(GlobalEnum) && reg.globalEnum.None? then Some(col) else reg.globalEnum,
      if code == Code(LocalEnum) && reg.localEnum.None? then Some(col) else reg.localEnum,
      if code == Code(PosTag) && reg.posTag.None? then Some(col) else reg.posTag,
      if code == Code(SegmentId) then reg.segmentIds + {col} else reg.segmentIds,
      if code == Code(Entity) then reg.entities + {col} else reg.entities,
      if code == Code(Event) then reg.pendingEvents + [col] else reg.pendingEvents,
      if code == Code(Relation) then reg.relations[col := target] else reg.relations,
      if code == Code(GlobalRef) then reg.globalRefs[col := target] else reg.globalRefs,
      if code == Code(LocalRef) then reg.localRefs[col := target] else reg.localRefs,
      if code == Code(Normalization) then reg.normalizations[col := target] else reg.normalizations,
      if code == Code(Attribute) then reg.attributes[col := target] else reg.attributes)
  }

  /** The registry after the first `n` columns. */
  function RegistryUpTo(colspec: seq<int>, targets: seq<nat>, n: nat): Registry
    requires n <= |colspec| == |targets|
  {
    if n == 0 then EmptyRegistry
    else Register(RegistryUpTo(colspec, targets, n - 1), colspec[n - 1], n - 1, targets[n - 1])
  }

  /** How many reference columns stand contiguously before `col`, not counting column 0. */
  function RefRunLength(colspec: seq<int>, col: nat): (n: nat)
    requires col <= |colspec|
    ensures n < col || col == 0
  {
    if col <= 1 then 0
    else if CodeIn(colspec[col - 1], RefRoles) then 1 + RefRunLength(colspec, col - 1)
    else 0
  }

  /** The ascending column range `lo .. hi - 1`. */
  function Range(lo: nat, hi: nat): (r: seq<nat>)
    ensures |r| == if lo <= hi then hi - lo else 0
    ensures forall k :: 0 <= k < |r| ==> r[k] == lo + k
    decreases hi - lo
  {
    if lo >= hi then [] else [lo] + Range(lo + 1, hi)
  }

  /**
   * `__init_events` for one EVENT column: the contiguous run of references before it; the
   * leftmost is the trigger and the others, left to right, are the arguments.
   */
  function EventTargetsOf(colspec: seq<int>, col: nat): Result<EventTargets, SpecError>
    requires col <= |colspec|
  {
    var n := RefRunLength(colspec, col);
    if n == 0 then Err(NoEventReferences(col + 1))
    else if n == 1 then Err(FewEventReferences(col + 1))
    else Ok(EventTargets(col - n, Range(col - n + 1, col)))
  }

  function EventValue(colspec: seq<int>, col: nat): EventTargets
    requires col <= |colspec|
  {
    match EventTargetsOf(colspec, col)
    case Ok(e) => e
    case Err(_) => EventTargets(0, [])
  }

  ghost predicate ColumnsIn(colspec: seq<int>, cols: seq<nat>)
  {
    forall k :: 0 <= k < |cols| ==> cols[k] <= |colspec|
  }

  /** The resolved events of the first `i` pending EVENT columns. */
  function EventMap(colspec: seq<int>, cols: seq<nat>, i: nat): (m: map<nat, EventTargets>)
    requires i <= |cols| && ColumnsIn(colspec, cols)
  {
    if i == 0 then map[]
    else EventMap(colspec, cols, i - 1)[cols[i - 1] := EventValue(colspec, cols[i - 1])]
  }

  /** Whether resolving each pending event fails. */
  function EventErrors(colspec: seq<int>, cols: seq<nat>): (errs: seq<Option<SpecError>>)
    requires ColumnsIn(colspec, cols)
    ensures |errs| == |cols|
    ensures forall k :: 0 <= k < |cols| ==> errs[k] == ErrorOf(EventTargetsOf(colspec, cols[k]))
  {
    seq(|cols|, k requires 0 <= k < |cols| => ErrorOf(EventTargetsOf(colspec, cols[k])))
  }

  /** The registry of all columns. */
  function Registered(colspec: seq<int>, headers: seq<string>): (reg: Registry)
    requires |colspec| == |headers|
    ensures ColumnsIn(colspec, reg.pendingEvents)
  {
    PendingInRange(colspec, ColumnTargets(colspec, headers));
    RegistryUpTo(colspec, ColumnTargets(colspec, headers), |colspec|)
  }

  /** The pending EVENT columns are columns of the specification. */
  lemma PendingInRange(colspec: seq<int>, targets: seq<nat>)
    requires |colspec| == |targets|
    ensures ColumnsIn(colspec, RegistryUpTo(colspec, targets, |colspec|).pendingEvents)
  {
    PendingMeaning(colspec, targets, |colspec|);
    var p := RegistryUpTo(colspec, targets, |colspec|).pendingEvents;
    forall k | 0 <= k < |p| ensures p[k] <= |colspec| {
      assert p[k] < |colspec|;
    }
  }

  /** The specification the registrations produce when none of them fails. */
  function SpecOf(colspec: seq<int>, headers: seq<string>): Spec
    requires |colspec| == |headers|
  {
    var reg := Registered(colspec, headers);
    Spec(|colspec|, reg.token, reg.globalEnum, reg.localEnum, reg.posTag, reg.segmentIds, reg.entities,
      EventMap(colspec, reg.pendingEvents, |reg.pendingEvents|),
      reg.relations, reg.globalRefs, reg.localRefs, reg.normalizations, reg.attributes)
  }

  /**
   * `ColumnSpecification.__init__`: at least two columns, every column registered left to
   * right, then every event resolved.
   */
  function BuildSpec(colspec: seq<int>, headers: seq<string>): (r: Result<Spec, SpecError>)
    requires |colspec| == |headers|
    ensures |colspec| <= 1 ==> r == Err(SingleColumn)
    ensures r.Ok? ==> r.value.width == |colspec|
  {
    var pending := Registered(colspec, headers).pendingEvents;
    if |colspec| <= 1 then Err(SingleColumn)
    else if FirstSome(ColumnErrors(colspec, headers), |colspec|).Some? then
      Err(FirstSome(ColumnErrors(colspec, headers), |colspec|).value)
    else if FirstSome(EventErrors(colspec, pending), |pending|).Some? then
      Err(FirstSome(EventErrors(colspec, pending), |pending|).value)
    else Ok(SpecOf(colspec, headers))
  }

  /** The pending events are the EVENT columns, ascending. */
  lemma {:induction false} PendingMeaning(colspec: seq<int>, targets: seq<nat>, n: nat)
    requires n <= |colspec| == |targets|
    ensures var p := RegistryUpTo(colspec, targets, n).pendingEvents;
      && (forall k :: 0 <= k < |p| ==> p[k] < n && colspec[p[k]] == Code(Event))
      && (forall c :: 0 <= c < n && colspec[c] == Code(Event) ==> c in p)
      && (forall j, k :: 0 <= j < k < |p| ==> p[j] < p[k])
  {
    if n > 0 {
      PendingMeaning(colspec, targets, n - 1);
      RoleTablesAgree(Event);
    }
  }

  /** `__set_target`: the leftward scan as a loop. */
  method SetTarget(colspec: seq<int>, col: nat, targets: set<Role>) returns (r: Result<nat, SpecError>)
    requires col < |colspec|
    requires FromCode(colspec[col]).Some?
    ensures r == DefaultTarget(colspec, col, targets)
  {
    var source := FromCode(colspec[col]).value;
    var target: int := col - 1;
    while target > 0
      invariant target < col
      invariant DefaultTarget(colspec, col, targets) == ScanFrom(colspec, col, targets, target)
      decreases target
    {
      if CodeIn(colspec[target], targets) {
        return Ok(target);
      } else if !CodeIn(colspec[target], SkippedColumns) {
        return Err(NoTarget(source, col + 1));
      }
      target := target - 1;
    }
    return Err(MissingTarget(source, col + 1));
  }

  /** `__set_target_from_header`. */
  method SetTargetFromHeader(colspec: seq<int>, headers: seq<string>, col: nat) returns (r: Result<nat, SpecError>)
    requires col < |colspec| == |headers|
    requires FromCode(colspec[col]).Some?
    ensures r == TargetFromHeader(colspec, headers, col)
  {
    if ':' in headers[col] {
      r := OverrideTarget(colspec, headers[col], col);
    } else {
      r := SetTarget(colspec, col, EntityColumns);
    }
  }

  /** `_add_relation`: a relation needs a reference to its left, then a target. */
  method AddRelation(colspec: seq<int>, headers: seq<string>, idx: nat, relations: map<nat, nat>)
    returns (next: map<nat, nat>, error: Option<SpecError>)
    requires idx < |colspec| == |headers| && colspec[idx] == Code(Relation)
    ensures error == ColumnError(colspec, headers, idx)
    ensures error.None? ==> next == relations[idx := ColumnTarget(colspec, headers, idx)]
  {
    next, error := relations, None;
    if !HasReference(colspec, idx) {
      error := Some(NoReference(idx + 1));
    } else {
      var t := SetTargetFromHeader(colspec, headers, idx);
      if t.Err? {
        error := Some(t.error);
      } else {
        next := relations[idx := t.value];
      }
    }
  }

  /** `_add_reference`: a global or local reference records its target. */
  method AddReference(colspec: seq<int>, headers: seq<string>, idx: nat, refs: map<nat, nat>)
    returns (next: map<nat, nat>, error: Option<SpecError>)
    requires idx < |colspec| == |headers|
    requires colspec[idx] == Code(GlobalRef) || colspec[idx] == Code(LocalRef)
    ensures error == ColumnError(colspec, headers, idx)
    ensures error.None? ==> next == refs[idx := ColumnTarget(colspec, headers, idx)]
  {
    next, error := refs, None;
    var t := SetTargetFromHeader(colspec, headers, idx);
    if t.Err? {
      error := Some(t.error);
    } else {
      next := refs[idx := t.value];
    }
  }

  /** `_add_property`: a normalization or attribute records its target. */
  method AddProperty(colspec: seq<int>, headers: seq<string>, idx: nat, props: map<nat, nat>)
    returns (next: map<nat, nat>, error: Option<SpecError>)
    requires idx < |colspec| == |headers|
    requires colspec[idx] == Code(Normalization) || colspec[idx] == Code(Attribute)
    ensures error == ColumnError(colspec, headers, idx)
    ensures error.None? ==> next == props[idx := ColumnTarget(colspec, headers, idx)]
  {
    next, error := props, None;
    var t := SetTarget(colspec, idx, PropertyTargetColumns);
    if t.Err? {
      error := Some(t.error);
    } else {
      next := props[idx := t.value];
    }
  }

  /** `_set_column`: a singleton role can be assigned only once. */
  method SetColumn(colspec: seq<int>, headers: seq<string>, idx: nat, role: Role, slot: Option<nat>)
    returns (next: Option<nat>, error: Option<SpecError>)
    requires idx < |colspec| == |headers|
    requires role in SingletonRoles && colspec[idx] == Code(role)
    requires slot == FirstWithCode(colspec, idx, Code(role))
    ensures error == ColumnError(colspec, headers, idx)
    ensures error.None? <==> slot.None?
    ensures error.None? ==> next == Some(idx)
  {
    RoleTablesAgree(role);
    if slot.Some? {
      next, error := slot, Some(AlreadyAssigned(role, slot.value + 1));
    } else {
      next, error := Some(idx), None;
    }
  }

  /** One entry of the `initialize` dispatch table: registers column `idx`, or fails. */
  method RegisterColumn(colspec: seq<int>, headers: seq<string>, idx: nat, reg: Registry)
    returns (next: Registry, error: Option<SpecError>)
    requires idx < |colspec| == |headers|
    requires reg.token == FirstWithCode(colspec, idx, Code(Token))
    requires reg.globalEnum == FirstWithCode(colspec, idx, Code(GlobalEnum))
    requires reg.localEnum == FirstWithCode(colspec, idx, Code(LocalEnum))
    requires reg.posTag == FirstWithCode(colspec, idx, Code(PosTag))
    ensures error == ColumnError(colspec, headers, idx)
    ensures error.None? ==> next == Register(reg, colspec[idx], idx, ColumnTarget(colspec, headers, idx))
  {
    var role := FromCode(colspec[idx]);
    if role.None? || role.value == Annotation {
      next, error := reg, Some(UnknownType(headers[idx], colspec[idx], idx + 1));
    } else if role.value == Unknown {
      // an _UNKNOWN column is ignored
      next, error := reg, None;
    } else if role.value in SingletonRoles {
      next, error := RegisterSingleton(colspec, headers, idx, role.value, reg);
      RegisterIgnoresTarget(reg, role.value, idx, ColumnTarget(colspec, headers, idx));
    } else if role.value in {SegmentId, Entity, Event} {
      next, error := RegisterMember(colspec, headers, idx, role.value, reg);
      RegisterIgnoresTarget(reg, role.value, idx, ColumnTarget(colspec, headers, idx));
    } else if role.value in HeaderTargetRoles {
      next, error := RegisterAssociation(colspec, headers, idx, role.value, reg);
    } else {
      next, error := RegisterProperty(colspec, headers, idx, role.value, reg);
    }
  }

  /** Only relations, references and properties record a target. */
  lemma RegisterIgnoresTarget(reg: Registry, role: Role, col: nat, target: nat)
    requires role !in HeaderTargetRoles + PropertyRoles
    ensures Register(reg, Code(role), col, target) == Register(reg, Code(role), col, 0)
  {
  }

  method RegisterSingleton(colspec: seq<int>, headers: seq<string>, idx: nat, role: Role, reg: Registry)
    returns (next: Registry, error: Option<SpecError>)
    requires idx < |colspec| == |headers|
    requires reg.token == FirstWithCode(colspec, idx, Code(Token))
    requires reg.globalEnum == FirstWithCode(colspec, idx, Code(GlobalEnum))
    requires reg.localEnum == FirstWithCode(colspec, idx, Code(LocalEnum))
    requires reg.posTag == FirstWithCode(colspec, idx, Code(PosTag))
    requires role in SingletonRoles && colspec[idx] == Code(role)
    ensures error == ColumnError(colspec, headers, idx)
    ensures error.None? ==> next == Register(reg, Code(role), idx, 0)
  {
    match role
    case Token => next, error := SetToken(colspec, headers, idx, reg);
    case GlobalEnum => next, error := SetGlobalEnum(colspec, headers, idx, reg);
    case LocalEnum => next, error := SetLocalEnum(colspec, headers, idx, reg);
    case PosTag => next, error := SetPosTag(colspec, headers, idx, reg);
  }

  /** `set_token`. */
  method SetToken(colspec: seq<int>, headers: seq<string>, idx: nat, reg: Registry)
    returns (next: Registry, error: Option<SpecError>)
    requires idx < |colspec| == |headers| && colspec[idx] == Code(Token)
    requires reg.token == FirstWithCode(colspec, idx, Code(Token))
    ensures error == ColumnError(colspec, headers, idx)
    ensures error.None? ==> next == Register(reg, Code(Token), idx, 0)
  {
    var slot;
    slot, error := SetColumn(colspec, headers, idx, Token, reg.token);
    next := reg.(token := slot);
  }

  /** `set_global_enum`. */
  method SetGlobalEnum(colspec: seq<int>, headers: seq<string>, idx: nat, reg: Registry)
    returns (next: Registry, error: Option<SpecError>)
    requires idx < |colspec| == |headers| && colspec[idx] == Code(GlobalEnum)
    requires reg.globalEnum == FirstWithCode(colspec, idx, Code(GlobalEnum))
    ensures error == ColumnError(colspec, headers, idx)
    ensures error.None? ==> next == Register(reg, Code(GlobalEnum), idx, 0)
  {
    var slot;
    slot, error := SetColumn(colspec, headers, idx, GlobalEnum, reg.globalEnum);
    next := reg.(globalEnum := slot);
  }

  /** `set_local_enum`. */
  method SetLocalEnum(colspec: seq<int>, headers: seq<string>, idx: nat, reg: Registry)
    returns (next: Registry, error: Option<SpecError>)
    requires idx < |colspec| == |headers| && colspec[idx] == Code(LocalEnum)
    requires reg.localEnum == FirstWithCode(colspec, idx, Code(LocalEnum))
    ensures error == ColumnError(colspec, headers, idx)
    ensures error.None? ==> next == Register(reg, Code(LocalEnum), idx, 0)
  {
    var slot;
    slot, error := SetColumn(colspec, headers, idx, LocalEnum, reg.localEnum);
    next := reg.(localEnum := slot);
  }

  /** `set_pos_tag`. */
  method SetPosTag(colspec: seq<int>, headers: seq<string>, idx: nat, reg: Registry)
    returns (next: Registry, error: Option<SpecError>)
    requires idx < |colspec| == |headers| && colspec[idx] == Code(PosTag)
    requires reg.posTag == FirstWithCode(colspec, idx, Code(PosTag))
    ensures error == ColumnError(colspec, headers, idx)
    ensures error.None? ==> next == Register(reg, Code(PosTag), idx, 0)
  {
    var slot;
    slot, error := SetColumn(colspec, headers, idx, PosTag, reg.posTag);
    next := reg.(posTag := slot);
  }

  /** Segment identifiers, entities and events are collected without checks. */
  method RegisterMember(colspec: seq<int>, headers: seq<string>, idx: nat, role: Role, reg: Registry)
    returns (next: Registry, error: Option<SpecError>)
    requires idx < |colspec| == |headers|
    requires role in {SegmentId, Entity, Event} && FromCode(colspec[idx]) == Some(role)
    ensures error == ColumnError(colspec, headers, idx)
    ensures error.None? ==> next == Register(reg, colspec[idx], idx, 0)
  {
    error := None;
    match role
    case SegmentId => next := reg.(segmentIds := reg.segmentIds + {idx});
    case Entity => next := reg.(entities := reg.entities + {idx});
    case Event => next := reg.(pendingEvents := reg.pendingEvents + [idx]);
  }

  /** Relations and references record the target their header names, or the nearest tag. */
  method RegisterAssociation(colspec: seq<int>, headers: seq<string>, idx: nat, role: Role, reg: Registry)
    returns (next: Registry, error: Option<SpecError>)
    requires idx < |colspec| == |headers|
    requires role in HeaderTargetRoles && FromCode(colspec[idx]) == Some(role)
    ensures error == ColumnError(colspec, headers, idx)
    ensures error.None? ==> next == Register(reg, colspec[idx], idx, ColumnTarget(colspec, headers, idx))
  {
    var m;
    match role
    case Relation =>
      m, error := AddRelation(colspec, headers, idx, reg.relations);
      next := reg.(relations := m);
    case GlobalRef =>
      m, error := AddReference(colspec, headers, idx, reg.globalRefs);
      next := reg.(globalRefs := m);
    case LocalRef =>
      m, error := AddReference(colspec, headers, idx, reg.localRefs);
      next := reg.(localRefs := m);
  }

  /** Normalizations and attributes record the nearest tag or association. */
  method RegisterProperty(colspec: seq<int>, headers: seq<string>, idx: nat, role: Role, reg: Registry)
    returns (next: Registry, error: Option<SpecError>)
    requires idx < |colspec| == |headers|
    requires role in PropertyRoles && FromCode(colspec[idx]) == Some(role)
    ensures error == ColumnError(colspec, headers, idx)
    ensures error.None? ==> next == Register(reg, colspec[idx], idx, ColumnTarget(colspec, headers, idx))
  {
    var m;
    match role
    case Normalization =>
      m, error := AddProperty(colspec, headers, idx, reg.normalizations);
      next := reg.(normalizations := m);
    case Attribute =>
      m, error := AddProperty(colspec, headers, idx, reg.attributes);
      next := reg.(attributes := m);
  }

  /** `__get_references_before`: the leftmost column of the reference run before `col`. */
  method ReferencesBefore(colspec: seq<int>, col: nat) returns (first: nat)
    requires col <= |colspec|
    ensures first <= col && col - first == RefRunLength(colspec, col)
  {
    first := col;
    while first > 1 && CodeIn(colspec[first - 1], RefRoles)
      invariant 0 <= first <= col
      invariant RefRunLength(colspec, col) == (col - first) + RefRunLength(colspec, first)
    {
      first := first - 1;
    }
  }

  /** `__init_events`: resolves every pending EVENT column, or fails on the first bad one. */
  method InitEvents(colspec: seq<int>, pending: seq<nat>) returns (events: map<nat, EventTargets>, error: Option<SpecError>)
    requires ColumnsIn(colspec, pending)
    ensures error == FirstSome(EventErrors(colspec, pending), |pending|)
    ensures error.None? ==> events == EventMap(colspec, pending, |pending|)
  {
    ghost var eventErrs := EventErrors(colspec, pending);
    events := map[];
    var i := 0;
    while i < |pending|
      invariant 0 <= i <= |pending|
      invariant FirstSome(eventErrs, i).None?
      invariant events == EventMap(colspec, pending, i)
    {
      var col := pending[i];
      var first := ReferencesBefore(colspec, col);
      var count := col - first;
      if count <= 1 {
        error := Some(if count == 0 then NoEventReferences(col + 1) else FewEventReferences(col + 1));
        assert eventErrs[i] == error;
        FirstSomeSticks(eventErrs, i + 1, |pending|);
        return;
      }
      events := events[col := EventTargets(first, Range(first + 1, col))];
      i := i + 1;
    }
    error := None;
  }

  /**
   * `ColumnSpecification(colspec, headers)`: registers the columns left to right into the
   * singleton slots, the sets and the target maps, then resolves the events.
   */
  method Build(colspec: seq<int>, headers: seq<string>) returns (r: Result<Spec, SpecError>)
    requires |colspec| == |headers|
    ensures r == BuildSpec(colspec, headers)
  {
    if |colspec| <= 1 {
      return Err(SingleColumn);
    }
    var reg, error := RegisterColumns(colspec, headers);
    if error.Some? {
      return Err(error.value);
    }
    PendingMeaning(colspec, ColumnTargets(colspec, headers), |colspec|);
    var events, eventError := InitEvents(colspec, reg.pendingEvents);
    if eventError.Some? {
      return Err(eventError.value);
    }
    return Ok(Spec(|colspec|, reg.token, reg.globalEnum, reg.localEnum, reg.posTag, reg.segmentIds, reg.entities,
      events, reg.relations, reg.globalRefs, reg.localRefs, reg.normalizations, reg.attributes));
  }

  /** The registration loop of `__init__`: every column left to right, stopping at the first error. */
  method RegisterColumns(colspec: seq<int>, headers: seq<string>) returns (reg: Registry, error: Option<SpecError>)
    requires |colspec| == |headers|
    ensures error == FirstSome(ColumnErrors(colspec, headers), |colspec|)
    ensures error.None? ==> reg == RegistryUpTo(colspec, ColumnTargets(colspec, headers), |colspec|)
  {
    ghost var targets := ColumnTargets(colspec, headers);
    ghost var errs := ColumnErrors(colspec, headers);
    reg := EmptyRegistry;
    var idx := 0;
    while idx < |colspec|
      invariant 0 <= idx <= |colspec|
      invariant FirstSome(errs, idx).None?
      invariant reg == RegistryUpTo(colspec, targets, idx)
    {
      SingletonSlot(colspec, targets, idx);
      var next;
      next, error := RegisterColumn(colspec, headers, idx, reg);
      if error.Some? {
        FirstSomeSticks(errs, idx + 1, |colspec|);
        return;
      }
      reg := next;
      idx := idx + 1;
    }
    error := None;
  }

  /** A singleton slot holds the column of that role registered so far, if any. */
  lemma {:induction false} SingletonSlot(colspec: seq<int>, targets: seq<nat>, n: nat)
    requires n <= |colspec| == |targets|
    ensures var reg := RegistryUpTo(colspec, targets, n);
      && reg.token == FirstWithCode(colspec, n, Code(Token))
      && reg.globalEnum == FirstWithCode(colspec, n, Code(GlobalEnum))
      && reg.localEnum == FirstWithCode(colspec, n, Code(LocalEnum))
      && reg.posTag == FirstWithCode(colspec, n, Code(PosTag))
  {
    if n > 0 {
      SingletonSlot(colspec, targets, n - 1);
    }
  }

  /** `from_string`: parse the header, then build with the header's words. */
  function FromStringSpec(header: string): Result<Spec, SpecError>
  {
    var colspec :- ParseCodes(header);
    BuildSpec(colspec, Words(header))
  }

  /** `from_integers`: build with the words of the header that `to_string` writes. */
  function FromIntegersSpec(colspec: seq<int>): Result<Spec, SpecError>
  {
    IntegerHeaderWords(colspec);
    BuildSpec(colspec, Words(IntegersToString(colspec)))
  }

  method FromString(header: string) returns (r: Result<Spec, SpecError>)
    ensures r == FromStringSpec(header)
  {
    var colspec := ParseColspec(header);
    if colspec.Err? {
      return Err(colspec.error);
    }
    r := Build(colspec.value, Words(header));
  }

  method FromIntegers(colspec: seq<int>) returns (r: Result<Spec, SpecError>)
    ensures r == FromIntegersSpec(colspec)
  {
    var header := IntegersToString(colspec);
    IntegerHeaderWords(colspec);
    r := Build(colspec, Words(header));
  }

  // ---------------------------------------------------------------------------
  // Reading a specification back

  /** `get_type`: the role registered for column `col`, looked up in the source's order. */
  function GetType(spec: Spec, col: nat): (r: Option<Role>)
    ensures r.Some? ==> r.value != Unknown && r.value != Annotation
  {
    if spec.token == Some(col) then Some(Token)
    else if spec.globalEnum == Some(col) then Some(GlobalEnum)
    else if spec.localEnum == Some(col) then Some(LocalEnum)
    else if spec.posTag == Some(col) then Some(PosTag)
    else if col in spec.segmentIds then Some(SegmentId)
    else if col in spec.entities then Some(Entity)
    else if col in spec.events then Some(Event)
    else if col in spec.relations then Some(Relation)
    else if col in spec.normalizations then Some(Normalization)
    else if col in spec.attributes then Some(Attribute)
    else if col in spec.globalRefs then Some(GlobalRef)
    else if col in spec.localRefs then Some(LocalRef)
    else None
  }

  /** The roles `__str__` names: those of the columns from `col` on, up to the first unregistered one. */
  function RolesFrom(spec: Spec, col: nat): (roles: seq<Role>)
    requires col <= spec.width
    ensures |roles| <= spec.width - col
    ensures forall k :: 0 <= k < |roles| ==> GetType(spec, col + k) == Some(roles[k])
    ensures col + |roles| < spec.width ==> GetType(spec, col + |roles|).None?
    decreases spec.width - col
  {
    if col == spec.width then []
    else
      match GetType(spec, col)
      case None => []
      case Some(r) => [r] + RolesFrom(spec, col + 1)
  }

  function RoleNames(roles: seq<Role>): (names: seq<string>)
    ensures |names| == |roles|
    ensures forall k :: 0 <= k < |roles| ==> names[k] == Name(roles[k])
  {
    seq(|roles|, k requires 0 <= k < |roles| => Name(roles[k]))
  }

  lemma RoleNamesStep(spec: Spec, col: nat)
    requires col < spec.width && GetType(spec, col).Some?
    ensures RoleNames(RolesFrom(spec, col)) == [Name(GetType(spec, col).value)] + RoleNames(RolesFrom(spec, col + 1))
  {
    assert RolesFrom(spec, col) == [GetType(spec, col).value] + RolesFrom(spec, col + 1);
    RoleNamesCons(GetType(spec, col).value, RolesFrom(spec, col + 1));
  }

  lemma RoleNamesCons(r: Role, roles: seq<Role>)
    ensures RoleNames([r] + roles) == [Name(r)] + RoleNames(roles)
  {
    var names := RoleNames([r] + roles);
    assert forall k :: 0 <= k < |names| ==> names[k] == ([Name(r)] + RoleNames(roles))[k];
  }

  /** The names collected before column `col`, followed by the name of its role, and the rest. */
  lemma HeaderNamesStep(spec: Spec, col: nat, names: seq<string>)
    requires col < spec.width && GetType(spec, col).Some?
    requires RoleNames(RolesFrom(spec, 0)) == names + RoleNames(RolesFrom(spec, col))
    ensures RoleNames(RolesFrom(spec, 0)) == (names + [Name(GetType(spec, col).value)]) + RoleNames(RolesFrom(spec, col + 1))
  {
    RoleNamesStep(spec, col);
    var rest := RoleNames(RolesFrom(spec, col + 1));
    assert names + ([Name(GetType(spec, col).value)] + rest) == (names + [Name(GetType(spec, col).value)]) + rest;
  }

  /** The header `__str__` returns. */
  function Header(spec: Spec): string
  {
    Join(RoleNames(RolesFrom(spec, 0)), " ")
  }

  /** `__str__`: names the roles left to right, stopping at the first column with no role. */
  method SpecToString(spec: Spec) returns (s: string)
    ensures s == Header(spec)
  {
    var col := 0;
    var names: seq<string> := [];
    var coltype := GetType(spec, col);
    while coltype.Some? && col < spec.width
      invariant col <= spec.width
      invariant coltype == GetType(spec, col)
      invariant RoleNames(RolesFrom(spec, 0)) == names + RoleNames(RolesFrom(spec, col))
      decreases spec.width - col
    {
      HeaderNamesStep(spec, col, names);
      names := names + [Name(coltype.value)];
      col := col + 1;
      coltype := GetType(spec, col);
    }
    assert RolesFrom(spec, col) == [];
    assert names + RoleNames([]) == names;
    return Join(names, " ");
  }

  /** `get_property_target_column_type`: what a property's target column holds. */
  function PropertyTargetType(spec: Spec, col: nat): (r: Result<Role, SpecError>)
    ensures r.Ok? ==> r.value in PropertyTargetColumns
    ensures r.Err? ==> r.error == NotPropertyTarget(col + 1)
  {
    if col in spec.entities then Ok(Entity)
    else if spec.posTag == Some(col) then Ok(PosTag)
    else if col in spec.relations then Ok(Relation)
    else if col in spec.events then Ok(Event)
    else Err(NotPropertyTarget(col + 1))
  }

  /** `get_reference_target`: a global reference's target, else a local one's; `None` for a missing key. */
  function ReferenceTarget(spec: Spec, col: nat): (r: Option<nat>)
    ensures r.Some? <==> col in spec.globalRefs || col in spec.localRefs
    ensures col in spec.globalRefs ==> r == Some(spec.globalRefs[col])
  {
    if col in spec.globalRefs then Some(spec.globalRefs[col])
    else if col in spec.localRefs then Some(spec.localRefs[col])
    else None
  }

  /** `has_global_refs`. */
  predicate HasGlobalRefs(spec: Spec)
  {
    |spec.globalRefs| != 0
  }

  /** `__eq__`: the same width and the same value in every role slot, set and map. */
  predicate SameSpec(a: Spec, b: Spec): (same: bool)
    ensures same <==> a == b
  {
    && a.width == b.width && a.token == b.token && a.globalEnum == b.globalEnum
    && a.localEnum == b.localEnum && a.posTag == b.posTag && a.segmentIds == b.segmentIds
    && a.entities == b.entities && a.events == b.events && a.relations == b.relations
    && a.globalRefs == b.globalRefs && a.localRefs == b.localRefs
    && a.normalizations == b.normalizations && a.attributes == b.attributes
  }
}
