/** The column specification of the source's initialization test, worked out in the model. */
module ColSpecExamples {
  import opened Wrappers
  import opened Text
  import opened ColSpec
  import opened ColSpecFacts

  /** The sixteen columns of the initialization test. */
  const InitColumns: seq<int> := [2, 3, 4, 1, 5, 11, 8, 6, 12, 12, 9, 10, 7, 11, 11, 9]
  /** The target each column registers with (0 for the roles without one). */
  const InitTargets: seq<nat> := [0, 0, 0, 0, 0, 4, 4, 0, 7, 7, 0, 10, 10, 7, 7, 0]

  /** Header words without explicit `:N` targets, as `from_integers` writes them. */
  ghost predicate PlainHeaders(headers: seq<string>)
  {
    |headers| == 16 && forall c :: 0 <= c < 16 ==> ':' !in headers[c]
  }

  lemma InitColumnPassesA(headers: seq<string>, c: nat)
    requires PlainHeaders(headers) && 0 <= c < 6
    ensures ColumnError(InitColumns, headers, c) == None
  {
    if c == 0 { } else if c == 1 { } else if c == 2 { } else if c == 3 { } else if c == 4 { } else { }
  }

  lemma InitColumnPassesB(headers: seq<string>, c: nat)
    requires PlainHeaders(headers) && 6 <= c < 11
    ensures ColumnError(InitColumns, headers, c) == None
  {
    if c == 6 { } else if c == 7 { } else if c == 8 { } else if c == 9 { } else { }
  }

  lemma InitColumnPassesC(headers: seq<string>, c: nat)
    requires PlainHeaders(headers) && 11 <= c < 13
    ensures ColumnError(InitColumns, headers, c) == None
  {
    if c == 11 { } else { }
  }

  lemma InitColumnPassesD(headers: seq<string>, c: nat)
    requires PlainHeaders(headers) && 13 <= c < 16
    ensures ColumnError(InitColumns, headers, c) == None
  {
    if c == 13 { } else if c == 14 { } else { }
  }

  lemma InitColumnTargetA(headers: seq<string>, c: nat)
    requires PlainHeaders(headers) && 0 <= c < 8
    ensures ColumnTarget(InitColumns, headers, c) == InitTargets[c]
  {
    if c == 0 { } else if c == 1 { } else if c == 2 { } else if c == 3 { } else if c == 4 { } else if c == 5 { } else if c == 6 { } else { }
  }

  lemma InitColumnTargetB(headers: seq<string>, c: nat)
    requires PlainHeaders(headers) && 8 <= c < 16
    ensures ColumnTarget(InitColumns, headers, c) == InitTargets[c]
  {
    if c == 8 { } else if c == 9 { } else if c == 10 { } else if c == 11 { } else if c == 12 { } else if c == 13 { } else if c == 14 { } else { }
  }

  /** Every column of the initialization test registers without error, with the targets above. */
  lemma InitColumnsPass(headers: seq<string>)
    requires PlainHeaders(headers)
    ensures FirstSome(ColumnErrors(InitColumns, headers), 16).None?
    ensures ColumnTargets(InitColumns, headers) == InitTargets
  {
    forall c | 0 <= c < 16
      ensures ColumnError(InitColumns, headers, c) == None
      ensures ColumnTarget(InitColumns, headers, c) == InitTargets[c]
    {
      if c < 6 { InitColumnPassesA(headers, c); } else if c < 11 { InitColumnPassesB(headers, c); } else if c < 13 { InitColumnPassesC(headers, c); } else { InitColumnPassesD(headers, c); }
      if c < 8 { InitColumnTargetA(headers, c); } else { InitColumnTargetB(headers, c); }
    }
    FirstSomeMeaning(ColumnErrors(InitColumns, headers), 16);
  }

  /** Which columns hold each repeatable role. */
  lemma InitColumnsWith(c: nat)
    requires c < 16
    ensures InitColumns[c] == Code(SegmentId) <==> c in {0}
    ensures InitColumns[c] == Code(Entity) <==> c in {7}
    ensures InitColumns[c] == Code(Event) <==> c in {10, 15}
    ensures InitColumns[c] == Code(Relation) <==> c in {6}
    ensures InitColumns[c] == Code(GlobalRef) <==> c in {8, 9}
    ensures InitColumns[c] == Code(LocalRef) <==> c in {5, 13, 14}
    ensures InitColumns[c] == Code(Normalization) <==> c in {12}
    ensures InitColumns[c] == Code(Attribute) <==> c in {11}
  {
    if c == 0 { } else if c == 1 { } else if c == 2 { } else if c == 3 { } else if c == 4 { } else if c == 5 { } else if c == 6 { } else if c == 7 { } else if c == 8 { } else if c == 9 { } else if c == 10 { } else if c == 11 { } else if c == 12 { } else if c == 13 { } else if c == 14 { } else { }
  }

  /** The two EVENT columns resolve to the references just before them. */
  lemma InitEventTargets()
    ensures EventTargetsOf(InitColumns, 10) == Ok(EventTargets(8, [9]))
    ensures EventTargetsOf(InitColumns, 15) == Ok(EventTargets(13, [14]))
  {
    assert RefRunLength(InitColumns, 8) == 0;
    assert RefRunLength(InitColumns, 10) == 2;
    assert RefRunLength(InitColumns, 13) == 0;
    assert RefRunLength(InitColumns, 15) == 2;
    assert Range(9, 10) == [9];
    assert Range(14, 15) == [14];
  }

  /** The pending EVENT columns resolve without error. */
  lemma InitEventsPass(headers: seq<string>)
    requires PlainHeaders(headers)
    ensures var pending := Registered(InitColumns, headers).pendingEvents;
      FirstSome(EventErrors(InitColumns, pending), |pending|).None?
  {
    var pending := Registered(InitColumns, headers).pendingEvents;
    PendingMeaning(InitColumns, ColumnTargets(InitColumns, headers), 16);
    var errs := EventErrors(InitColumns, pending);
    InitEventTargets();
    forall k | 0 <= k < |pending|
      ensures errs[k].None?
    {
      InitColumnsWith(pending[k]);
    }
    FirstSomeMeaning(errs, |pending|);
  }

  /** The initialization test's columns build a specification. */
  lemma InitBuilds(headers: seq<string>)
    requires PlainHeaders(headers)
    ensures BuildSpec(InitColumns, headers).Ok?
  {
    InitColumnsPass(headers);
    InitEventsPass(headers);
  }

  /** The specification the initialization test expects. */
  const InitSpec: Spec := Spec(16, Some(3), Some(1), Some(2), Some(4), {0}, {7},
    map[10 := EventTargets(8, [9]), 15 := EventTargets(13, [14])],
    map[6 := 4], map[8 := 7, 9 := 7], map[5 := 4, 13 := 7, 14 := 7], map[12 := 10], map[11 := 10])

  lemma InitSlots(headers: seq<string>)
    requires PlainHeaders(headers) && BuildSpec(InitColumns, headers).Ok?
    ensures var spec := BuildSpec(InitColumns, headers).value;
      && spec.token == Some(3) && spec.globalEnum == Some(1)
      && spec.localEnum == Some(2) && spec.posTag == Some(4)
  {
    SingletonsOfBuild(InitColumns, headers);
  }

  lemma InitSets()
    ensures ColumnsWith(InitColumns, 16, Code(SegmentId)) == {0}
    ensures ColumnsWith(InitColumns, 16, Code(Entity)) == {7}
  {
    forall c: nat
      ensures c in ColumnsWith(InitColumns, 16, Code(SegmentId)) <==> c == 0
      ensures c in ColumnsWith(InitColumns, 16, Code(Entity)) <==> c == 7
    {
      if c < 16 { InitColumnsWith(c); }
    }
  }

  lemma InitAssociations()
    ensures TargetsWith(InitColumns, InitTargets, 16, Code(Relation)) == map[6 := 4]
    ensures TargetsWith(InitColumns, InitTargets, 16, Code(GlobalRef)) == map[8 := 7, 9 := 7]
    ensures TargetsWith(InitColumns, InitTargets, 16, Code(LocalRef)) == map[5 := 4, 13 := 7, 14 := 7]
  {
    forall c: nat
      ensures c in TargetsWith(InitColumns, InitTargets, 16, Code(Relation)) <==> c == 6
      ensures c in TargetsWith(InitColumns, InitTargets, 16, Code(GlobalRef)) <==> c in {8, 9}
      ensures c in TargetsWith(InitColumns, InitTargets, 16, Code(LocalRef)) <==> c in {5, 13, 14}
    {
      if c < 16 { InitColumnsWith(c); }
    }
  }

  lemma InitProperties()
    ensures TargetsWith(InitColumns, InitTargets, 16, Code(Normalization)) == map[12 := 10]
    ensures TargetsWith(InitColumns, InitTargets, 16, Code(Attribute)) == map[11 := 10]
  {
    forall c: nat
      ensures c in TargetsWith(InitColumns, InitTargets, 16, Code(Normalization)) <==> c == 12
      ensures c in TargetsWith(InitColumns, InitTargets, 16, Code(Attribute)) <==> c == 11
    {
      if c < 16 { InitColumnsWith(c); }
    }
  }

  lemma InitEvents(headers: seq<string>)
    requires PlainHeaders(headers) && BuildSpec(InitColumns, headers).Ok?
    ensures BuildSpec(InitColumns, headers).value.events == InitSpec.events
  {
    EventsOfBuild(InitColumns, headers);
    InitEventTargets();
    forall c: nat
      ensures c in ColumnsWith(InitColumns, 16, Code(Event)) <==> c in {10, 15}
    {
      if c < 16 { InitColumnsWith(c); }
    }
  }

  /** `testInitialization`: `from_integers` of the sixteen columns registers every role as the test expects. */
  lemma InitializationFixture()
    ensures FromIntegersSpec(InitColumns) == Ok(InitSpec)
  {
    var headers := Words(IntegersToString(InitColumns));
    IntegerHeaderWords(InitColumns);
    assert PlainHeaders(headers);
    InitBuilds(headers);
    InitColumnsPass(headers);
    CollectionsOfBuild(InitColumns, headers);
    InitSlots(headers);
    InitSets();
    InitAssociations();
    InitProperties();
    InitEvents(headers);
  }

  /** The header words `from_integers` reads are the role names, without `:` targets. */
  lemma PlainWords(colspec: seq<int>, k: nat)
    requires k < |colspec|
    ensures |Words(IntegersToString(colspec))| == |colspec|
    ensures forall c :: 0 <= c < |colspec| ==> ':' !in Words(IntegersToString(colspec))[c]
    ensures Words(IntegersToString(colspec))[k] == NameOrType(colspec[k])
  {
    IntegerHeaderWords(colspec);
  }

  // The rejections the other tests of the column specification expect.

  const ColumnsUndefinedColumn: seq<int> := [1, 2, 3, 4, 50]

  lemma BuildUndefinedColumn(colspec: seq<int>, headers: seq<string>)
    requires colspec == ColumnsUndefinedColumn
    requires |headers| == 5 && (forall c :: 0 <= c < 5 ==> ':' !in headers[c])
    ensures BuildSpec(colspec, headers) == Err(UnknownType(headers[4], 50, 5))
  {
    assert ColumnError(colspec, headers, 0).None?;
    assert ColumnError(colspec, headers, 1).None?;
    assert ColumnError(colspec, headers, 2).None?;
    assert ColumnError(colspec, headers, 3).None?;
    assert ColumnError(colspec, headers, 4) == Some(UnknownType(headers[4], 50, 5));
    BuildFailsAt(colspec, headers, 4, UnknownType(headers[4], 50, 5));
  }

  /** `testUndefinedColumn`: an integer without a role. */
  lemma UndefinedColumnFixture()
    ensures FromIntegersSpec(ColumnsUndefinedColumn) == Err(UnknownType(NameOrType(50), 50, 5))
  {
    var headers := Words(IntegersToString(ColumnsUndefinedColumn));
    IntegerHeaderWords(ColumnsUndefinedColumn);
    PlainWords(ColumnsUndefinedColumn, 4);
    BuildUndefinedColumn(ColumnsUndefinedColumn, headers);
  }

  const ColumnsAnnotationColumn: seq<int> := [1, 99]

  lemma BuildAnnotationColumn(colspec: seq<int>, headers: seq<string>)
    requires colspec == ColumnsAnnotationColumn
    requires |headers| == 2 && (forall c :: 0 <= c < 2 ==> ':' !in headers[c])
    ensures BuildSpec(colspec, headers) == Err(UnknownType(headers[1], 99, 2))
  {
    assert ColumnError(colspec, headers, 0).None?;
    assert ColumnError(colspec, headers, 1) == Some(UnknownType(headers[1], 99, 2));
    BuildFailsAt(colspec, headers, 1, UnknownType(headers[1], 99, 2));
  }

  /** `testAnnotationColumn`: `_ANNOTATION` cannot be part of a specification. */
  lemma AnnotationColumnFixture()
    ensures FromIntegersSpec(ColumnsAnnotationColumn) == Err(UnknownType(NameOrType(99), 99, 2))
  {
    var headers := Words(IntegersToString(ColumnsAnnotationColumn));
    IntegerHeaderWords(ColumnsAnnotationColumn);
    PlainWords(ColumnsAnnotationColumn, 1);
    BuildAnnotationColumn(ColumnsAnnotationColumn, headers);
  }

  const ColumnsUnassignedReferences: seq<int> := [4, 1, 11, 11, 5]

  lemma BuildUnassignedReferences(colspec: seq<int>, headers: seq<string>)
    requires colspec == ColumnsUnassignedReferences
    requires |headers| == 5 && (forall c :: 0 <= c < 5 ==> ':' !in headers[c])
    ensures BuildSpec(colspec, headers) == Err(NoTarget(LocalRef, 3))
  {
    assert ColumnError(colspec, headers, 0).None?;
    assert ColumnError(colspec, headers, 1).None?;
    assert ColumnError(colspec, headers, 2) == Some(NoTarget(LocalRef, 3));
    BuildFailsAt(colspec, headers, 2, NoTarget(LocalRef, 3));
  }

  /** `testUnassignedReferences`: local references with no tag to their left. */
  lemma UnassignedReferencesFixture()
    ensures FromIntegersSpec(ColumnsUnassignedReferences) == Err(NoTarget(LocalRef, 3))
  {
    var headers := Words(IntegersToString(ColumnsUnassignedReferences));
    IntegerHeaderWords(ColumnsUnassignedReferences);
    BuildUnassignedReferences(ColumnsUnassignedReferences, headers);
  }

  const ColumnsMissingRelationReference: seq<int> := [1, 5, 8]

  lemma BuildMissingRelationReference(colspec: seq<int>, headers: seq<string>)
    requires colspec == ColumnsMissingRelationReference
    requires |headers| == 3 && (forall c :: 0 <= c < 3 ==> ':' !in headers[c])
    ensures BuildSpec(colspec, headers) == Err(NoReference(3))
  {
    assert ColumnError(colspec, headers, 0).None?;
    assert ColumnError(colspec, headers, 1).None?;
    assert ColumnError(colspec, headers, 2) == Some(NoReference(3));
    BuildFailsAt(colspec, headers, 2, NoReference(3));
  }

  /** `testMissingRelationReference`: a relation without a reference before it. */
  lemma MissingRelationReferenceFixture()
    ensures FromIntegersSpec(ColumnsMissingRelationReference) == Err(NoReference(3))
  {
    var headers := Words(IntegersToString(ColumnsMissingRelationReference));
    IntegerHeaderWords(ColumnsMissingRelationReference);
    BuildMissingRelationReference(ColumnsMissingRelationReference, headers);
  }

  const ColumnsMissingEventReference: seq<int> := [4, 1, 5, 11, 9]

  lemma BuildMissingEventReference(colspec: seq<int>, headers: seq<string>)
    requires colspec == ColumnsMissingEventReference
    requires |headers| == 5 && (forall c :: 0 <= c < 5 ==> ':' !in headers[c])
    ensures BuildSpec(colspec, headers) == Err(FewEventReferences(5))
  {
    assert ColumnError(colspec, headers, 0).None?;
    assert ColumnError(colspec, headers, 1).None?;
    assert ColumnError(colspec, headers, 2).None?;
    assert ColumnError(colspec, headers, 3).None?;
    assert ColumnError(colspec, headers, 4).None?;
    assert EventTargetsOf(colspec, 4) == Err(FewEventReferences(5));
    BuildFailsAtEvent(colspec, headers, 4, FewEventReferences(5));
  }

  /** `testMissingEventReference`: an event with a single reference before it. */
  lemma MissingEventReferenceFixture()
    ensures FromIntegersSpec(ColumnsMissingEventReference) == Err(FewEventReferences(5))
  {
    var headers := Words(IntegersToString(ColumnsMissingEventReference));
    IntegerHeaderWords(ColumnsMissingEventReference);
    BuildMissingEventReference(ColumnsMissingEventReference, headers);
  }

  const ColumnsMissingTargetColumn: seq<int> := [3, 1, 7]

  lemma BuildMissingTargetColumn(colspec: seq<int>, headers: seq<string>)
    requires colspec == ColumnsMissingTargetColumn
    requires |headers| == 3 && (forall c :: 0 <= c < 3 ==> ':' !in headers[c])
    ensures BuildSpec(colspec, headers) == Err(NoTarget(Normalization, 3))
  {
    assert ColumnError(colspec, headers, 0).None?;
    assert ColumnError(colspec, headers, 1).None?;
    assert ColumnError(colspec, headers, 2) == Some(NoTarget(Normalization, 3));
    BuildFailsAt(colspec, headers, 2, NoTarget(Normalization, 3));
  }

  /** `testMissingTargetColumn`: a normalization whose neighbour cannot be a target. */
  lemma MissingTargetColumnFixture()
    ensures FromIntegersSpec(ColumnsMissingTargetColumn) == Err(NoTarget(Normalization, 3))
  {
    var headers := Words(IntegersToString(ColumnsMissingTargetColumn));
    IntegerHeaderWords(ColumnsMissingTargetColumn);
    BuildMissingTargetColumn(ColumnsMissingTargetColumn, headers);
  }

  const ColumnsMissingAnyTargetColumns: seq<int> := [1, 7]

  lemma BuildMissingAnyTargetColumns(colspec: seq<int>, headers: seq<string>)
    requires colspec == ColumnsMissingAnyTargetColumns
    requires |headers| == 2 && (forall c :: 0 <= c < 2 ==> ':' !in headers[c])
    ensures BuildSpec(colspec, headers) == Err(MissingTarget(Normalization, 2))
  {
    assert ColumnError(colspec, headers, 0).None?;
    assert ColumnError(colspec, headers, 1) == Some(MissingTarget(Normalization, 2));
    BuildFailsAt(colspec, headers, 1, MissingTarget(Normalization, 2));
  }

  /** `testMissingAnyTargetColumns`: a normalization with only column 0 to its left. */
  lemma MissingAnyTargetColumnsFixture()
    ensures FromIntegersSpec(ColumnsMissingAnyTargetColumns) == Err(MissingTarget(Normalization, 2))
  {
    var headers := Words(IntegersToString(ColumnsMissingAnyTargetColumns));
    IntegerHeaderWords(ColumnsMissingAnyTargetColumns);
    BuildMissingAnyTargetColumns(ColumnsMissingAnyTargetColumns, headers);
  }

  /** A single column is not a specification. */
  lemma SingleColumnFixture()
    ensures FromIntegersSpec([1]) == Err(SingleColumn)
  {
  }

  /** The specification of an `_UNKNOWN` column followed by a token column. */
  const UnknownFirstSpec: Spec := Spec(2, Some(1), None, None, None, {}, {}, map[], map[], map[], map[], map[], map[])

  lemma BuildUnknownColumn(colspec: seq<int>, headers: seq<string>)
    requires colspec == [0, 1] && |headers| == 2
    ensures BuildSpec(colspec, headers) == Ok(UnknownFirstSpec)
  {
    assert ColumnError(colspec, headers, 0).None?;
    assert ColumnError(colspec, headers, 1).None?;
    FirstSomeMeaning(ColumnErrors(colspec, headers), 2);
    var ts := ColumnTargets(colspec, headers);
    assert RegistryUpTo(colspec, ts, 1) == EmptyRegistry;
    assert RegistryUpTo(colspec, ts, 2) == Registry(Some(1), None, None, None, {}, {}, [], map[], map[], map[], map[], map[]);
  }

  /**
   * An `_UNKNOWN` column is skipped, not rejected; `__str__` then stops at once, since
   * column 0 has no role.
   */
  lemma UnknownColumnFixture()
    ensures FromIntegersSpec([0, 1]) == Ok(UnknownFirstSpec)
    ensures Header(UnknownFirstSpec) == ""
  {
    var headers := Words(IntegersToString([0, 1]));
    PlainWords([0, 1], 0);
    BuildUnknownColumn([0, 1], headers);
    UnknownFirstHeader();
  }

  lemma UnknownFirstHeader()
    ensures Header(UnknownFirstSpec) == ""
  {
    assert GetType(UnknownFirstSpec, 0) == None;
    assert RolesFrom(UnknownFirstSpec, 0) == [];
  }
}
