/**
 * What a successfully built column specification holds: every column's role is read back
 * by `get_type`, every target points where the registration rules say, events take the
 * maximal run of references before them, and the header `__str__` writes parses back.
 */
module ColSpecFacts {
  import opened Wrappers
  import opened Text
  import opened ColSpec

  // ---------------------------------------------------------------------------
  // Reference descriptions of the registered collections

  /** The columns among the first `n` that hold `code`. */
  ghost function ColumnsWith(colspec: seq<int>, n: nat, code: int): set<nat>
    requires n <= |colspec|
  {
    set c: nat | c < n && colspec[c] == code
  }

  /** The targets of the columns among the first `n` that hold `code`. */
  ghost function TargetsWith(colspec: seq<int>, targets: seq<nat>, n: nat, code: int): map<nat, nat>
    requires n <= |colspec| == |targets|
  {
    map c: nat | c < n && colspec[c] == code :: targets[c]
  }

  lemma ColumnsWithStep(colspec: seq<int>, n: nat, code: int)
    requires 0 < n <= |colspec|
    ensures ColumnsWith(colspec, n, code) ==
      if colspec[n - 1] == code then ColumnsWith(colspec, n - 1, code) + {n - 1} else ColumnsWith(colspec, n - 1, code)
  {
  }

  lemma TargetsWithStep(colspec: seq<int>, targets: seq<nat>, n: nat, code: int)
    requires 0 < n <= |colspec| == |targets|
    ensures TargetsWith(colspec, targets, n, code) ==
      if colspec[n - 1] == code then TargetsWith(colspec, targets, n - 1, code)[n - 1 := targets[n - 1]]
      else TargetsWith(colspec, targets, n - 1, code)
  {
  }

  /** The sets the registration loop fills are exactly the columns of their role. */
  lemma {:induction false} RegisteredSets(colspec: seq<int>, targets: seq<nat>, n: nat)
    requires n <= |colspec| == |targets|
    ensures RegistryUpTo(colspec, targets, n).segmentIds == ColumnsWith(colspec, n, Code(SegmentId))
    ensures RegistryUpTo(colspec, targets, n).entities == ColumnsWith(colspec, n, Code(Entity))
  {
    if n > 0 {
      RegisteredSets(colspec, targets, n - 1);
      ColumnsWithStep(colspec, n, Code(SegmentId));
      ColumnsWithStep(colspec, n, Code(Entity));
    }
  }

  /** The relation and reference maps hold exactly the columns of their role, with their targets. */
  lemma {:induction false} RegisteredAssociations(colspec: seq<int>, targets: seq<nat>, n: nat)
    requires n <= |colspec| == |targets|
    ensures RegistryUpTo(colspec, targets, n).relations == TargetsWith(colspec, targets, n, Code(Relation))
    ensures RegistryUpTo(colspec, targets, n).globalRefs == TargetsWith(colspec, targets, n, Code(GlobalRef))
    ensures RegistryUpTo(colspec, targets, n).localRefs == TargetsWith(colspec, targets, n, Code(LocalRef))
  {
    if n > 0 {
      RegisteredAssociations(colspec, targets, n - 1);
      TargetsWithStep(colspec, targets, n, Code(Relation));
      TargetsWithStep(colspec, targets, n, Code(GlobalRef));
      TargetsWithStep(colspec, targets, n, Code(LocalRef));
    }
  }

  /** The property maps hold exactly the columns of their role, with their targets. */
  lemma {:induction false} RegisteredProperties(colspec: seq<int>, targets: seq<nat>, n: nat)
    requires n <= |colspec| == |targets|
    ensures RegistryUpTo(colspec, targets, n).normalizations == TargetsWith(colspec, targets, n, Code(Normalization))
    ensures RegistryUpTo(colspec, targets, n).attributes == TargetsWith(colspec, targets, n, Code(Attribute))
  {
    if n > 0 {
      RegisteredProperties(colspec, targets, n - 1);
      TargetsWithStep(colspec, targets, n, Code(Normalization));
      TargetsWithStep(colspec, targets, n, Code(Attribute));
    }
  }

  /** The resolved events are exactly the pending columns, each with its own resolution. */
  lemma {:induction false} EventMapMeaning(colspec: seq<int>, cols: seq<nat>, i: nat)
    requires i <= |cols| && ColumnsIn(colspec, cols)
    ensures forall c :: c in EventMap(colspec, cols, i) <==> c in cols[..i]
    ensures forall c :: c in EventMap(colspec, cols, i) ==> EventMap(colspec, cols, i)[c] == EventValue(colspec, c)
  {
    if i > 0 {
      EventMapMeaning(colspec, cols, i - 1);
      assert cols[..i] == cols[..i - 1] + [cols[i - 1]];
    }
  }

  // ---------------------------------------------------------------------------
  // The contents of a built specification

  /** A singleton column is accepted exactly when no earlier column has its role. */
  lemma SingletonColumnError(colspec: seq<int>, headers: seq<string>, role: Role, c: nat)
    requires c < |colspec| == |headers| && role in SingletonRoles && colspec[c] == Code(role)
    ensures ColumnError(colspec, headers, c).None? <==> FirstWithCode(colspec, c, Code(role)).None?
  {
    RoleTablesAgree(role);
  }

  /** With no registration error, a singleton role's slot holds its only column. */
  lemma SingletonUnique(colspec: seq<int>, headers: seq<string>, role: Role, c: nat)
    requires |colspec| == |headers| && FirstSome(ColumnErrors(colspec, headers), |colspec|).None?
    requires role in SingletonRoles && c < |colspec| && colspec[c] == Code(role)
    ensures FirstWithCode(colspec, |colspec|, Code(role)) == Some(c)
  {
    var errs := ColumnErrors(colspec, headers);
    FirstSomeMeaning(errs, |colspec|);
    assert errs[c].None?;
    SingletonColumnError(colspec, headers, role, c);
    FirstWithCodeIs(colspec, |colspec|, Code(role), c);
  }

  /** The first column holding `code` is the one with no earlier column holding it. */
  lemma {:induction false} FirstWithCodeIs(colspec: seq<int>, n: nat, code: int, c: nat)
    requires c < n <= |colspec| && colspec[c] == code
    requires FirstWithCode(colspec, c, code).None?
    ensures FirstWithCode(colspec, n, code) == Some(c)
  {
    if n > c + 1 {
      FirstWithCodeIs(colspec, n - 1, code, c);
    }
  }

  /** The four singleton slots of a built specification hold their role's only column. */
  lemma SingletonsOfBuild(colspec: seq<int>, headers: seq<string>)
    requires |colspec| == |headers| && BuildSpec(colspec, headers).Ok?
    ensures var spec := BuildSpec(colspec, headers).value;
      && (forall c: nat :: spec.token == Some(c) <==> c < |colspec| && colspec[c] == Code(Token))
      && (forall c: nat :: spec.globalEnum == Some(c) <==> c < |colspec| && colspec[c] == Code(GlobalEnum))
      && (forall c: nat :: spec.localEnum == Some(c) <==> c < |colspec| && colspec[c] == Code(LocalEnum))
      && (forall c: nat :: spec.posTag == Some(c) <==> c < |colspec| && colspec[c] == Code(PosTag))
  {
    var ts := ColumnTargets(colspec, headers);
    SingletonSlot(colspec, ts, |colspec|);
    forall c: nat, role | role in SingletonRoles && c < |colspec| && colspec[c] == Code(role)
      ensures FirstWithCode(colspec, |colspec|, Code(role)) == Some(c)
    {
      SingletonUnique(colspec, headers, role, c);
    }
  }

  /** The sets and target maps of a built specification hold exactly the columns of their role. */
  lemma CollectionsOfBuild(colspec: seq<int>, headers: seq<string>)
    requires |colspec| == |headers| && BuildSpec(colspec, headers).Ok?
    ensures var spec := BuildSpec(colspec, headers).value;
      var ts := ColumnTargets(colspec, headers);
      && spec.width == |colspec| > 1
      && spec.segmentIds == ColumnsWith(colspec, |colspec|, Code(SegmentId))
      && spec.entities == ColumnsWith(colspec, |colspec|, Code(Entity))
      && spec.relations == TargetsWith(colspec, ts, |colspec|, Code(Relation))
      && spec.globalRefs == TargetsWith(colspec, ts, |colspec|, Code(GlobalRef))
      && spec.localRefs == TargetsWith(colspec, ts, |colspec|, Code(LocalRef))
      && spec.normalizations == TargetsWith(colspec, ts, |colspec|, Code(Normalization))
      && spec.attributes == TargetsWith(colspec, ts, |colspec|, Code(Attribute))
  {
    var ts := ColumnTargets(colspec, headers);
    RegisteredSets(colspec, ts, |colspec|);
    RegisteredAssociations(colspec, ts, |colspec|);
    RegisteredProperties(colspec, ts, |colspec|);
  }

  /** A built specification resolves exactly the EVENT columns, each by `EventTargetsOf`. */
  lemma EventsOfBuild(colspec: seq<int>, headers: seq<string>)
    requires |colspec| == |headers| && BuildSpec(colspec, headers).Ok?
    ensures var spec := BuildSpec(colspec, headers).value;
      && spec.events.Keys == ColumnsWith(colspec, |colspec|, Code(Event))
      && forall c :: c in spec.events ==> EventTargetsOf(colspec, c) == Ok(spec.events[c])
  {
    var spec := BuildSpec(colspec, headers).value;
    var ts := ColumnTargets(colspec, headers);
    var pending := Registered(colspec, headers).pendingEvents;
    assert spec == SpecOf(colspec, headers);
    PendingMeaning(colspec, ts, |colspec|);
    EventMapMeaning(colspec, pending, |pending|);
    assert pending[..|pending|] == pending;
    ResolvedEvents(colspec, pending);
  }

  /** When no pending event fails, each maps to its own resolution. */
  lemma ResolvedEvents(colspec: seq<int>, pending: seq<nat>)
    requires ColumnsIn(colspec, pending) && FirstSome(EventErrors(colspec, pending), |pending|).None?
    ensures var m := EventMap(colspec, pending, |pending|);
      forall c :: c in m ==> c <= |colspec| && EventTargetsOf(colspec, c) == Ok(m[c])
  {
    var m := EventMap(colspec, pending, |pending|);
    EventMapMeaning(colspec, pending, |pending|);
    assert pending[..|pending|] == pending;
    var errs := EventErrors(colspec, pending);
    FirstSomeMeaning(errs, |pending|);
    forall c | c in m
      ensures c <= |colspec| && EventTargetsOf(colspec, c) == Ok(m[c])
    {
      var k :| 0 <= k < |pending| && pending[k] == c;
      assert errs[k].None?;
    }
  }

  // ---------------------------------------------------------------------------
  // Targets

  /**
   * Where a relation or reference column `c` may point: an explicit `:N` names column N-1,
   * a tag or an association; otherwise it is the nearest tag to the left, with only
   * skippable columns between.
   */
  ghost predicate AssociationTarget(colspec: seq<int>, headers: seq<string>, c: nat, t: nat)
    requires c < |colspec| == |headers|
  {
    && t < |colspec| && CodeIn(colspec[t], PropertyTargetColumns)
    && (':' in headers[c] ==> ParseInt(TargetSuffix(headers[c])) == Some(t + 1))
    && (':' !in headers[c] ==> 1 <= t < c && CodeIn(colspec[t], EntityColumns) && PassedOver(colspec, t, c, EntityColumns))
  }

  /** Where a property column `c` points: the nearest tag or association to the left. */
  ghost predicate PropertyTarget(colspec: seq<int>, c: nat, t: nat)
    requires c < |colspec|
  {
    1 <= t < c && CodeIn(colspec[t], PropertyTargetColumns) && PassedOver(colspec, t, c, PropertyTargetColumns)
  }

  lemma AssociationColumnTarget(colspec: seq<int>, headers: seq<string>, c: nat)
    requires c < |colspec| == |headers|
    requires FromCode(colspec[c]).Some? && FromCode(colspec[c]).value in HeaderTargetRoles
    requires ColumnError(colspec, headers, c).None?
    ensures AssociationTarget(colspec, headers, c, ColumnTarget(colspec, headers, c))
    ensures colspec[c] == Code(Relation) ==> HasReference(colspec, c)
  {
    DefaultTargetMeaning(colspec, c, EntityColumns);
    RoleTablesAgree(Relation);
  }

  lemma PropertyColumnTarget(colspec: seq<int>, headers: seq<string>, c: nat)
    requires c < |colspec| == |headers|
    requires FromCode(colspec[c]).Some? && FromCode(colspec[c]).value in PropertyRoles
    requires ColumnError(colspec, headers, c).None?
    ensures PropertyTarget(colspec, c, ColumnTarget(colspec, headers, c))
  {
    DefaultTargetMeaning(colspec, c, PropertyTargetColumns);
  }

  /** Every column of a built specification passed its registration checks. */
  lemma ColumnsOfBuild(colspec: seq<int>, headers: seq<string>)
    requires |colspec| == |headers| && BuildSpec(colspec, headers).Ok?
    ensures forall c :: 0 <= c < |colspec| ==> ColumnError(colspec, headers, c).None?
  {
    FirstSomeMeaning(ColumnErrors(colspec, headers), |colspec|);
  }

  /**
   * In a built specification every relation has a reference to its left, and every
   * relation, reference and property points where the registration rules say.
   */
  lemma TargetsOfBuild(colspec: seq<int>, headers: seq<string>)
    requires |colspec| == |headers| && BuildSpec(colspec, headers).Ok?
    ensures var spec := BuildSpec(colspec, headers).value;
      && (forall c :: c in spec.relations ==>
            c < |colspec| && HasReference(colspec, c) && AssociationTarget(colspec, headers, c, spec.relations[c]))
      && (forall c :: c in spec.globalRefs ==>
            c < |colspec| && AssociationTarget(colspec, headers, c, spec.globalRefs[c]))
      && (forall c :: c in spec.localRefs ==>
            c < |colspec| && AssociationTarget(colspec, headers, c, spec.localRefs[c]))
      && (forall c :: c in spec.normalizations ==>
            c < |colspec| && PropertyTarget(colspec, c, spec.normalizations[c]))
      && (forall c :: c in spec.attributes ==>
            c < |colspec| && PropertyTarget(colspec, c, spec.attributes[c]))
  {
    CollectionsOfBuild(colspec, headers);
    ColumnsOfBuild(colspec, headers);
    forall c | 0 <= c < |colspec| && FromCode(colspec[c]).Some? && FromCode(colspec[c]).value in HeaderTargetRoles
      ensures AssociationTarget(colspec, headers, c, ColumnTarget(colspec, headers, c))
      ensures colspec[c] == Code(Relation) ==> HasReference(colspec, c)
    {
      AssociationColumnTarget(colspec, headers, c);
    }
    forall c | 0 <= c < |colspec| && FromCode(colspec[c]).Some? && FromCode(colspec[c]).value in PropertyRoles
      ensures PropertyTarget(colspec, c, ColumnTarget(colspec, headers, c))
    {
      PropertyColumnTarget(colspec, headers, c);
    }
    RoleTablesAgree(Relation);
    RoleTablesAgree(GlobalRef);
    RoleTablesAgree(LocalRef);
    RoleTablesAgree(Normalization);
    RoleTablesAgree(Attribute);
  }

  // ---------------------------------------------------------------------------
  // Events

  /**
   * The run counted by `RefRunLength` is made of references and is maximal: it stops at a
   * column that is not a reference, or above column 0, which is never examined.
   */
  lemma {:induction false} RefRunMeaning(colspec: seq<int>, col: nat)
    requires col <= |colspec|
    ensures var n := RefRunLength(colspec, col);
      && (forall k :: col - n <= k < col ==> CodeIn(colspec[k], RefRoles))
      && (n > 0 ==> col - n >= 1)
      && (col - n <= 1 || !CodeIn(colspec[col - n - 1], RefRoles))
    decreases col
  {
    if col > 1 && CodeIn(colspec[col - 1], RefRoles) {
      RefRunMeaning(colspec, col - 1);
    }
  }

  /**
   * An event's resolution: the trigger is the leftmost column of the maximal reference run
   * before the EVENT column, and the arguments are the other columns of the run, in order.
   */
  ghost predicate EventShape(colspec: seq<int>, c: nat, e: EventTargets)
    requires c <= |colspec|
  {
    && 1 <= e.trigger && e.trigger + 1 < c
    && e.args == Range(e.trigger + 1, c)
    && (forall k :: e.trigger <= k < c ==> CodeIn(colspec[k], RefRoles))
    && (e.trigger == 1 || !CodeIn(colspec[e.trigger - 1], RefRoles))
  }

  /** Resolving an event succeeds with that shape, or fails for a run shorter than two. */
  lemma EventTargetsOfMeaning(colspec: seq<int>, c: nat)
    requires c <= |colspec|
    ensures EventTargetsOf(colspec, c).Ok? ==> EventShape(colspec, c, EventTargetsOf(colspec, c).value)
    ensures EventTargetsOf(colspec, c) == Err(NoEventReferences(c + 1)) <==> RefRunLength(colspec, c) == 0
    ensures EventTargetsOf(colspec, c) == Err(FewEventReferences(c + 1)) <==> RefRunLength(colspec, c) == 1
  {
    RefRunMeaning(colspec, c);
  }

  /** Every event of a built specification is an EVENT column resolved with that shape. */
  lemma EventShapesOfBuild(colspec: seq<int>, headers: seq<string>)
    requires |colspec| == |headers| && BuildSpec(colspec, headers).Ok?
    ensures var spec := BuildSpec(colspec, headers).value;
      forall c :: c in spec.events ==>
        c < |colspec| && colspec[c] == Code(Event) && EventShape(colspec, c, spec.events[c])
  {
    EventsOfBuild(colspec, headers);
    var spec := BuildSpec(colspec, headers).value;
    forall c | c in spec.events
      ensures c < |colspec| && colspec[c] == Code(Event) && EventShape(colspec, c, spec.events[c])
    {
      EventTargetsOfMeaning(colspec, c);
    }
  }

  // ---------------------------------------------------------------------------
  // Reading a built specification back

  /** The role of column `c` as `get_type` should report it: none for an `_UNKNOWN` column. */
  function RoleAt(colspec: seq<int>, c: nat): Option<Role>
    requires c < |colspec|
  {
    if colspec[c] == Code(Unknown) then None else FromCode(colspec[c])
  }

  /** A column that passed its checks holds a known role other than `_ANNOTATION`. */
  lemma KnownRole(colspec: seq<int>, headers: seq<string>, c: nat)
    requires c < |colspec| == |headers| && ColumnError(colspec, headers, c).None?
    ensures FromCode(colspec[c]).Some? && FromCode(colspec[c]).value != Annotation
    ensures Code(FromCode(colspec[c]).value) == colspec[c]
  {
  }

  /** `get_type` finds the one role whose slot or collection holds the column. */
  lemma GetTypeAt(spec: Spec, c: nat, role: Role)
    requires role != Annotation
    requires (spec.token == Some(c)) == (role == Token)
    requires (spec.globalEnum == Some(c)) == (role == GlobalEnum)
    requires (spec.localEnum == Some(c)) == (role == LocalEnum)
    requires (spec.posTag == Some(c)) == (role == PosTag)
    requires (c in spec.segmentIds) == (role == SegmentId)
    requires (c in spec.entities) == (role == Entity)
    requires (c in spec.events) == (role == Event)
    requires (c in spec.relations) == (role == Relation)
    requires (c in spec.normalizations) == (role == Normalization)
    requires (c in spec.attributes) == (role == Attribute)
    requires (c in spec.globalRefs) == (role == GlobalRef)
    requires (c in spec.localRefs) == (role == LocalRef)
    ensures GetType(spec, c) == if role == Unknown then None else Some(role)
  {
  }

  /** Two roles with the same integer are the same role. */
  lemma CodeInjective(r: Role, q: Role)
    ensures Code(r) == Code(q) <==> r == q
  {
    RoleTablesAgree(r);
    RoleTablesAgree(q);
  }

  /** `get_type` on a built specification gives back the role of every column, and none past the end. */
  lemma GetTypeOfBuild(colspec: seq<int>, headers: seq<string>)
    requires |colspec| == |headers| && BuildSpec(colspec, headers).Ok?
    ensures var spec := BuildSpec(colspec, headers).value;
      && (forall c :: 0 <= c < |colspec| ==> GetType(spec, c) == RoleAt(colspec, c))
      && (forall c: nat :: c >= |colspec| ==> GetType(spec, c).None?)
  {
    var spec := BuildSpec(colspec, headers).value;
    SingletonsOfBuild(colspec, headers);
    CollectionsOfBuild(colspec, headers);
    EventsOfBuild(colspec, headers);
    ColumnsOfBuild(colspec, headers);
    forall c | 0 <= c < |colspec|
      ensures GetType(spec, c) == RoleAt(colspec, c)
    {
      KnownRole(colspec, headers, c);
      var role := FromCode(colspec[c]).value;
      forall q: Role ensures colspec[c] == Code(q) <==> role == q {
        CodeInjective(role, q);
      }
      GetTypeAt(spec, c, role);
    }
  }

  lemma PropertyTargetTypeAt(spec: Spec, c: nat, role: Role)
    requires (spec.posTag == Some(c)) == (role == PosTag)
    requires (c in spec.entities) == (role == Entity)
    requires (c in spec.events) == (role == Event)
    requires (c in spec.relations) == (role == Relation)
    ensures PropertyTargetType(spec, c) == if role in PropertyTargetColumns then Ok(role) else Err(NotPropertyTarget(c + 1))
  {
  }

  /**
   * `get_property_target_column_type` on a built specification names the role of a tag or
   * association column and rejects every other column; in particular it accepts the target
   * of every normalization and attribute.
   */
  lemma PropertyTargetTypeOfBuild(colspec: seq<int>, headers: seq<string>)
    requires |colspec| == |headers| && BuildSpec(colspec, headers).Ok?
    ensures var spec := BuildSpec(colspec, headers).value;
      && (forall c :: 0 <= c < |colspec| ==>
            PropertyTargetType(spec, c) ==
              if CodeIn(colspec[c], PropertyTargetColumns) then Ok(FromCode(colspec[c]).value)
              else Err(NotPropertyTarget(c + 1)))
      && (forall c :: c in spec.normalizations ==> PropertyTargetType(spec, spec.normalizations[c]).Ok?)
      && (forall c :: c in spec.attributes ==> PropertyTargetType(spec, spec.attributes[c]).Ok?)
  {
    var spec := BuildSpec(colspec, headers).value;
    SingletonsOfBuild(colspec, headers);
    CollectionsOfBuild(colspec, headers);
    EventsOfBuild(colspec, headers);
    ColumnsOfBuild(colspec, headers);
    TargetsOfBuild(colspec, headers);
    forall c | 0 <= c < |colspec|
      ensures PropertyTargetType(spec, c) ==
        if CodeIn(colspec[c], PropertyTargetColumns) then Ok(FromCode(colspec[c]).value)
        else Err(NotPropertyTarget(c + 1))
    {
      KnownRole(colspec, headers, c);
      var role := FromCode(colspec[c]).value;
      forall q: Role ensures colspec[c] == Code(q) <==> role == q {
        CodeInjective(role, q);
      }
      PropertyTargetTypeAt(spec, c, role);
    }
  }

  /** The roles of the columns from `col` on, up to the first one without a role. */
  function LeadingRoles(colspec: seq<int>, col: nat): seq<Role>
    requires col <= |colspec|
    decreases |colspec| - col
  {
    if col == |colspec| then []
    else
      match RoleAt(colspec, col)
      case None => []
      case Some(r) => [r] + LeadingRoles(colspec, col + 1)
  }

  lemma {:induction false} RolesFromOfBuild(colspec: seq<int>, headers: seq<string>, col: nat)
    requires |colspec| == |headers| && BuildSpec(colspec, headers).Ok? && col <= |colspec|
    ensures RolesFrom(BuildSpec(colspec, headers).value, col) == LeadingRoles(colspec, col)
    decreases |colspec| - col
  {
    GetTypeOfBuild(colspec, headers);
    CollectionsOfBuild(colspec, headers);
    if col < |colspec| && RoleAt(colspec, col).Some? {
      RolesFromOfBuild(colspec, headers, col + 1);
    }
  }

  /** `__str__` of a built specification names the roles of its columns up to the first `_UNKNOWN` one. */
  lemma HeaderOfBuild(colspec: seq<int>, headers: seq<string>)
    requires |colspec| == |headers| && BuildSpec(colspec, headers).Ok?
    ensures Header(BuildSpec(colspec, headers).value) == Join(RoleNames(LeadingRoles(colspec, 0)), " ")
  {
    RolesFromOfBuild(colspec, headers, 0);
  }

  /** Without `_UNKNOWN` columns, the leading roles are the roles of all columns. */
  lemma {:induction false} LeadingRolesAll(colspec: seq<int>, col: nat)
    requires col <= |colspec|
    requires forall c :: col <= c < |colspec| ==> RoleAt(colspec, c).Some?
    ensures |LeadingRoles(colspec, col)| == |colspec| - col
    ensures forall k :: 0 <= k < |colspec| - col ==> LeadingRoles(colspec, col)[k] == RoleAt(colspec, col + k).value
    decreases |colspec| - col
  {
    if col < |colspec| {
      LeadingRolesAll(colspec, col + 1);
    }
  }

  /** Every column of a specification built from integers holds a known role. */
  lemma BuiltColumnsKnown(colspec: seq<int>)
    requires FromIntegersSpec(colspec).Ok?
    ensures forall c :: 0 <= c < |colspec| ==> FromCode(colspec[c]).Some?
  {
    var headers := Words(IntegersToString(colspec));
    IntegerHeaderWords(colspec);
    ColumnsOfBuild(colspec, headers);
    forall c | 0 <= c < |colspec|
      ensures FromCode(colspec[c]).Some?
    {
      KnownRole(colspec, headers, c);
    }
  }

  /** With every column known and none `_UNKNOWN`, `__str__` names the same roles as `to_string`. */
  lemma LeadingNames(colspec: seq<int>)
    requires forall c :: 0 <= c < |colspec| ==> FromCode(colspec[c]).Some? && colspec[c] != Code(Unknown)
    ensures RoleNames(LeadingRoles(colspec, 0)) == IntegerNames(colspec)
  {
    LeadingRolesKnown(colspec);
    NamesOfRoles(colspec, LeadingRoles(colspec, 0));
  }

  lemma LeadingRolesKnown(colspec: seq<int>)
    requires forall c :: 0 <= c < |colspec| ==> FromCode(colspec[c]).Some? && colspec[c] != Code(Unknown)
    ensures |LeadingRoles(colspec, 0)| == |colspec|
    ensures forall c :: 0 <= c < |colspec| ==> FromCode(colspec[c]) == Some(LeadingRoles(colspec, 0)[c])
  {
    LeadingRolesAll(colspec, 0);
  }

  lemma NamesOfRoles(colspec: seq<int>, roles: seq<Role>)
    requires |roles| == |colspec|
    requires forall c :: 0 <= c < |colspec| ==> FromCode(colspec[c]) == Some(roles[c])
    ensures RoleNames(roles) == IntegerNames(colspec)
  {
    var names, expected := RoleNames(roles), IntegerNames(colspec);
    forall k | 0 <= k < |colspec|
      ensures names[k] == expected[k]
    {
      assert FromCode(colspec[k]) == Some(roles[k]);
    }
  }

  /**
   * `str(from_integers(colspec))` is `to_string(colspec)` when no column is `_UNKNOWN`, and
   * `from_string` of that header gives back the same specification.
   */
  lemma HeaderRoundTrip(colspec: seq<int>)
    requires FromIntegersSpec(colspec).Ok?
    requires forall c :: 0 <= c < |colspec| ==> colspec[c] != Code(Unknown)
    ensures Header(FromIntegersSpec(colspec).value) == IntegersToString(colspec)
    ensures FromStringSpec(Header(FromIntegersSpec(colspec).value)) == FromIntegersSpec(colspec)
  {
    BuiltColumnsKnown(colspec);
    IntegerHeaderWords(colspec);
    HeaderOfBuild(colspec, Words(IntegersToString(colspec)));
    LeadingNames(colspec);
    IntegersRoundTrip(colspec);
  }

  /** `__init__` raises the error of the first column whose registration fails. */
  lemma BuildFailsAt(colspec: seq<int>, headers: seq<string>, j: nat, e: SpecError)
    requires 1 < |colspec| == |headers| && j < |colspec|
    requires forall i :: 0 <= i < j ==> ColumnError(colspec, headers, i).None?
    requires ColumnError(colspec, headers, j) == Some(e)
    ensures BuildSpec(colspec, headers) == Err(e)
  {
    var errs := ColumnErrors(colspec, headers);
    FirstSomeMeaning(errs, j);
    assert FirstSome(errs, j + 1) == Some(e);
    FirstSomeSticks(errs, j + 1, |colspec|);
  }

  /**
   * When every column registers, `__init_events` raises the error of the leftmost EVENT
   * column that cannot be resolved.
   */
  lemma BuildFailsAtEvent(colspec: seq<int>, headers: seq<string>, c: nat, e: SpecError)
    requires 1 < |colspec| == |headers| && c < |colspec| && colspec[c] == Code(Event)
    requires forall i :: 0 <= i < |colspec| ==> ColumnError(colspec, headers, i).None?
    requires forall i :: 0 <= i < c && colspec[i] == Code(Event) ==> EventTargetsOf(colspec, i).Ok?
    requires ErrorOf(EventTargetsOf(colspec, c)) == Some(e)
    ensures BuildSpec(colspec, headers) == Err(e)
  {
    var errs := ColumnErrors(colspec, headers);
    FirstSomeMeaning(errs, |colspec|);
    var pending := Registered(colspec, headers).pendingEvents;
    var k := PendingPosition(colspec, headers, c);
    var events := EventErrors(colspec, pending);
    forall i | 0 <= i < k
      ensures events[i].None?
    {
      assert pending[i] < c && colspec[pending[i]] == Code(Event);
    }
    FirstSomeAt(events, k);
  }

  /** Where an EVENT column sits among the pending events, with the earlier ones to its left. */
  lemma PendingPosition(colspec: seq<int>, headers: seq<string>, c: nat) returns (k: nat)
    requires |colspec| == |headers| && c < |colspec| && colspec[c] == Code(Event)
    ensures var pending := Registered(colspec, headers).pendingEvents;
      && k < |pending| && pending[k] == c
      && forall i :: 0 <= i < k ==> pending[i] < c && colspec[pending[i]] == Code(Event)
  {
    var pending := Registered(colspec, headers).pendingEvents;
    PendingMeaning(colspec, ColumnTargets(colspec, headers), |colspec|);
    k :| 0 <= k < |pending| && pending[k] == c;
  }
}
