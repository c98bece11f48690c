/**
 * When each record maker of the converter skips a row, when it fails, and what it writes: the
 * lookups a relation, an event, a normalization or an attribute makes after its registration,
 * and the entity a PoS or BIO span becomes.
 */
module ConversionRules {
  import opened Wrappers
  import opened Text
  import opened ColSpec
  import opened Conversion
  import Brat
  import ConversionFacts

  /** The map a reference column is resolved in: the global map for a global reference, else the local one. */
  function RefMap(spec: Spec, global: Option<IdMap>, local: IdMap, refCol: nat): IdMap
  {
    if refCol in spec.globalRefs then global.GetOr(map[]) else local
  }

  /** The uid a reference in column `refCol` of `data` stands for, if any. */
  function RefLookup(spec: Spec, global: Option<IdMap>, local: IdMap, data: Row, refCol: nat): Option<string>
    requires InRefs(spec, refCol) && refCol < |data|
  {
    Lookup(RefMap(spec, global, local, refCol), ReferenceTarget(spec, refCol).value, data[refCol])
  }

  // ---------------------------------------------------------------------------
  // Relations

  /** `_makeRelation` passes over a row with an empty or `0` reference or an empty or `NULL` name. */
  predicate RelationSkipped(data: Row, col: nat)
    requires 0 < col < |data|
  {
    data[col - 1] == "" || data[col - 1] == "0" || data[col] == "" || data[col] == "NULL"
  }

  /**
   * A relation row that is skipped, or whose name brat cannot use, changes nothing. Otherwise
   * the relation is registered, its source is the uid registered for this row in its target
   * column, and its target the uid its reference stands for; it fails exactly when one of them
   * is missing, and then with the error naming the missing one.
   */
  lemma RelationRule(setup: Setup, s: State, data: Row, num: nat, col: nat)
    requires Coherent(setup.spec) && setup.spec.width <= |data| && col in setup.spec.relations
    ensures var r := MakeRelation(setup, s, data, num, col);
            && (RelationSkipped(data, col) || ValidateName(setup.names, data[col]).None? ==> r == Ok(s))
            && (r.Err? ==> r.error.UnresolvedTarget? || r.error.UnresolvedReference?)
            && (!RelationSkipped(data, col) && ValidateName(setup.names, data[col]).Some? ==>
                  var spec := setup.spec;
                  var n := ValidateName(setup.names, data[col]).value;
                  var (s1, uid) := RegisterAnnotation(spec, s, col, 'R', num, [data]);
                  var source := Lookup(s1.localMap, spec.relations[col], RowKey(spec.localEnum, num, data));
                  var target := RefLookup(spec, s1.globalMap, s1.localMap, data, col - 1);
                  && (r.Ok? <==> source.Some? && target.Some?)
                  && (source.None? ==> r == Err(UnresolvedTarget(spec.relations[col] + 1, RowKey(spec.localEnum, num, data))))
                  && (r.Ok? ==> r.value.output == s.output + [Brat.NewRelation(uid, n, source.value, target.value)]))
  {
  }

  // ---------------------------------------------------------------------------
  // Events

  /** `_makeEvent` passes over a row with an empty or `NULL` name or an empty or `0` trigger. */
  predicate EventSkipped(spec: Spec, data: Row, col: nat)
    requires Coherent(spec) && spec.width <= |data| && col in spec.events
  {
    var trigger := data[spec.events[col].trigger];
    data[col] == "" || data[col] == "NULL" || trigger == "" || trigger == "0"
  }

  /** An unresolved argument reference is the only way the argument uids of an event can fail. */
  lemma {:induction false} ArgIdsErrors(spec: Spec, global: Option<IdMap>, local: IdMap, data: Row, cols: seq<nat>)
    requires forall k :: 0 <= k < |cols| ==> InRefs(spec, cols[k]) && cols[k] < |data|
    ensures var r := ArgIds(spec, global, local, data, cols);
            r.Err? ==> r.error.UnresolvedReference?
    decreases |cols|
  {
    if |cols| > 0 {
      ArgIdsErrors(spec, global, local, data, cols[1..]);
    }
  }

  /**
   * An event row that is skipped, or whose name brat cannot use, changes nothing; an event
   * fails only on a reference that does not resolve or on an argument missing beyond the
   * positions known for its name.
   */
  lemma EventSkip(setup: Setup, s: State, data: Row, num: nat, col: nat)
    requires Coherent(setup.spec) && setup.spec.width <= |data| && col in setup.spec.events
    ensures var r := MakeEvent(setup, s, data, num, col);
            && (EventSkipped(setup.spec, data, col) || ValidateName(setup.names, data[col]).None? ==> r == Ok(s))
            && (r.Err? ==> r.error.UnresolvedReference? || r.error.ArgumentOverflow?)
  {
    var spec := setup.spec;
    var (s1, uid) := RegisterAnnotation(spec, s, col, 'E', num, [data]);
    ArgIdsErrors(spec, s1.globalMap, s1.localMap, data, spec.events[col].args);
  }

  /**
   * An event that is neither skipped nor dropped is registered and its trigger resolved; it
   * writes the event with its present arguments, each keeping its position, and stores the
   * presence of each argument for its name.
   */
  lemma EventWritten(setup: Setup, s: State, data: Row, num: nat, col: nat)
    requires Coherent(setup.spec) && setup.spec.width <= |data| && col in setup.spec.events
    requires !EventSkipped(setup.spec, data, col) && ValidateName(setup.names, data[col]).Some?
    ensures var r := MakeEvent(setup, s, data, num, col);
            var spec := setup.spec;
            var n := ValidateName(setup.names, data[col]).value;
            var (s1, uid) := RegisterAnnotation(spec, s, col, 'E', num, [data]);
            var trigger := RefLookup(spec, s1.globalMap, s1.localMap, data, spec.events[col].trigger);
            var ids := ArgIds(spec, s1.globalMap, s1.localMap, data, spec.events[col].args);
            && (trigger.None? ==> r.Err?)
            && (r.Ok? ==>
                  && trigger.Some? && ids.Ok?
                  && r.value.output == s.output + [Brat.Event(uid, n, trigger.value, Brat.Dict(ArgItems(ids.value, 0)))]
                  && Ok(r.value.events) == StoreEventArguments(s1.events, n, Presence(spec.events[col].args, ids.value)))
  {
  }

  // ---------------------------------------------------------------------------
  // Normalizations

  /**
   * A normalization with an empty or `NULL` value changes nothing; otherwise it fails exactly
   * when the row it stands beside has no entity registered in its target column.
   */
  lemma NormalizationSkip(setup: Setup, s: State, data: Row, num: nat, col: nat)
    requires Coherent(setup.spec) && setup.spec.width <= |data| && col in setup.spec.normalizations
    ensures var r := MakeNormalization(setup, s, data, num, col);
            var spec := setup.spec;
            && (data[col] == "" || data[col] == "NULL" ==> r == Ok(s))
            && (r.Err? ==> r.error.UnresolvedTarget?)
            && (data[col] != "" && data[col] != "NULL" ==>
                  (r.Ok? <==> Lookup(s.localMap, spec.normalizations[col], RowKey(spec.localEnum, num, data)).Some?))
  {
  }

  /**
   * A normalization that resolves is registered, using up a uid, before its database name is
   * checked, and is written, beside its target, only when that name is usable.
   */
  lemma NormalizationWritten(setup: Setup, s: State, data: Row, num: nat, col: nat)
    requires Coherent(setup.spec) && setup.spec.width <= |data| && col in setup.spec.normalizations
    requires data[col] != "" && data[col] != "NULL"
    ensures var r := MakeNormalization(setup, s, data, num, col);
            var spec := setup.spec;
            var target := Lookup(s.localMap, spec.normalizations[col], RowKey(spec.localEnum, num, data));
            var nsId := NormalizationParts(data[col]).0;
            var usable := ValidateName(setup.names, Before(nsId, ':')).Some?;
            && (r.Ok? ==> r.value.count == s.count['N' := Count(s.count, 'N') + 1])
            && (r.Ok? ==> |r.value.output| == |s.output| + (if usable then 1 else 0))
            && (r.Ok? && usable ==>
                  var record := r.value.output[|s.output|];
                  && record.Normalization? && record.target == target.value
                  && record.uid == Uid('N', Count(s.count, 'N') + 1)
                  && (record.db, record.xref) == DatabaseRef(nsId))
  {
    NormalizationCounted(setup, s, data, num, col);
    NormalizationRecord(setup, s, data, num, col);
  }

  lemma NormalizationCounted(setup: Setup, s: State, data: Row, num: nat, col: nat)
    requires Coherent(setup.spec) && setup.spec.width <= |data| && col in setup.spec.normalizations
    requires data[col] != "" && data[col] != "NULL"
    ensures var r := MakeNormalization(setup, s, data, num, col);
            var usable := ValidateName(setup.names, Before(NormalizationParts(data[col]).0, ':')).Some?;
            && (r.Ok? ==> r.value.count == s.count['N' := Count(s.count, 'N') + 1])
            && (r.Ok? ==> |r.value.output| == |s.output| + (if usable then 1 else 0))
  {
    NormalizationOutcome(setup, s, data, num, col);
    ConversionFacts.RegisterAnnotationUid(setup.spec, s, col, 'N', num, [data]);
    var r := MakeNormalization(setup, s, data, num, col);
    var reg := RegisterAnnotation(setup.spec, s, col, 'N', num, [data]);
    if r.Ok? {
      assert r.value.count == reg.0.count == s.count['N' := Count(s.count, 'N') + 1];
      if ValidateName(setup.names, Before(NormalizationParts(data[col]).0, ':')).Some? {
        assert |r.value.output| == |reg.0.output| + 1;
      } else {
        assert r.value.output == reg.0.output;
      }
    }
  }

  lemma NormalizationRecord(setup: Setup, s: State, data: Row, num: nat, col: nat)
    requires Coherent(setup.spec) && setup.spec.width <= |data| && col in setup.spec.normalizations
    requires data[col] != "" && data[col] != "NULL"
    ensures var r := MakeNormalization(setup, s, data, num, col);
            var spec := setup.spec;
            var target := Lookup(s.localMap, spec.normalizations[col], RowKey(spec.localEnum, num, data));
            var nsId := NormalizationParts(data[col]).0;
            r.Ok? && ValidateName(setup.names, Before(nsId, ':')).Some? ==>
              && |r.value.output| > |s.output|
              && var record := r.value.output[|s.output|];
              && record.Normalization? && record.target == target.value
              && record.uid == Uid('N', Count(s.count, 'N') + 1)
              && (record.db, record.xref) == DatabaseRef(nsId)
  {
    var r := MakeNormalization(setup, s, data, num, col);
    var parts := NormalizationParts(data[col]);
    if r.Ok? && ValidateName(setup.names, Before(parts.0, ':')).Some? {
      NormalizationOutcome(setup, s, data, num, col);
      var spec := setup.spec;
      var target := Lookup(s.localMap, spec.normalizations[col], RowKey(spec.localEnum, num, data));
      var reg := RegisterAnnotation(spec, s, col, 'N', num, [data]);
      var ref := DatabaseRef(parts.0);
      ConversionFacts.RegisterAnnotationUid(spec, s, col, 'N', num, [data]);
      RecordAppended(s, reg.0, r.value, reg.1, target.value, ref.0, ref.1, parts.1);
      assert r.value.output[|s.output|].uid == reg.1 == Uid('N', Count(s.count, 'N') + 1);
    }
  }

  lemma RecordAppended(s: State, s1: State, out: State, uid: string, target: string, db: string, xref: string, text: string)
    requires s1.output == s.output && out.output == s1.output + [Brat.NewNormalization(uid, target, db, xref, text)]
    ensures |out.output| > |s.output|
    ensures var record := out.output[|s.output|];
            record.Normalization? && record.uid == uid && record.target == target && (record.db, record.xref) == (db, xref)
  {
  }

  /** The state `_makeNormalization` leaves once its target resolves, in terms of the registration. */
  lemma NormalizationOutcome(setup: Setup, s: State, data: Row, num: nat, col: nat)
    requires Coherent(setup.spec) && setup.spec.width <= |data| && col in setup.spec.normalizations
    requires data[col] != "" && data[col] != "NULL"
    ensures var r := MakeNormalization(setup, s, data, num, col);
            var spec := setup.spec;
            var target := Lookup(s.localMap, spec.normalizations[col], RowKey(spec.localEnum, num, data));
            var reg := RegisterAnnotation(spec, s, col, 'N', num, [data]);
            var parts := NormalizationParts(data[col]);
            var name := Before(parts.0, ':');
            var ref := DatabaseRef(parts.0);
            && (r.Ok? <==> target.Some?)
            && (r.Ok? && ValidateName(setup.names, name).None? ==> r.value == reg.0)
            && (r.Ok? && ValidateName(setup.names, name).Some? ==>
                  r.value == reg.0.(normalizations := reg.0.normalizations + {name},
                                    output := reg.0.output + [Brat.NewNormalization(reg.1, target.value, ref.0, ref.1, parts.1)]))
  {
  }

  // ---------------------------------------------------------------------------
  // Attributes

  /**
   * An attribute row with an empty or `NULL` name, or one brat cannot use, changes nothing.
   * Otherwise it fails only when its target is missing; its uid is counted but not registered,
   * so the maps stay as they were.
   */
  lemma AttributeRule(setup: Setup, s: State, data: Row, num: nat, col: nat)
    requires Coherent(setup.spec) && setup.spec.width <= |data| && col in setup.spec.attributes
    ensures var r := MakeAttribute(setup, s, data, num, col);
            && (data[col] == "" || data[col] == "NULL" || ValidateName(setup.names, data[col]).None? ==> r == Ok(s))
            && (r.Err? ==> r.error.UnresolvedTarget?)
            && (data[col] != "" && data[col] != "NULL" && ValidateName(setup.names, data[col]).Some? ==>
                  var spec := setup.spec;
                  var n := ValidateName(setup.names, data[col]).value;
                  var target := Lookup(s.localMap, spec.attributes[col], RowKey(spec.localEnum, num, data));
                  && (r.Ok? <==> target.Some?)
                  && (r.Ok? ==>
                        && r.value.localMap == s.localMap && r.value.globalMap == s.globalMap
                        && r.value.count == s.count['A' := Count(s.count, 'A') + 1]
                        && r.value.output == s.output + [Brat.Attribute(Uid('A', Count(s.count, 'A') + 1), n, target.value, Some(""))]))
  {
  }

  // ---------------------------------------------------------------------------
  // Entities

  /**
   * An entity is typed by its first row's tag, without the two-character prefix in a BIO
   * column. In the PoS column it never fails; in a BIO column it fails exactly when its type is
   * usable and a row of the span carries another tag. Written, it is the next `T` uid over the
   * span's offsets and the text they cover.
   */
  lemma EntityRule(setup: Setup, s: State, rows: seq<Row>, num: nat, col: nat, start: nat, end: nat)
    requires Coherent(setup.spec) && EntityRows(setup.spec, rows, col) && start <= end <= |setup.text|
    ensures var r := MakeEntity(setup, s, rows, num, col, start, end);
            var pos := setup.spec.posTag == Some(col);
            var raw := Drop(rows[0][col], if pos then 0 else 2);
            && (ValidateName(setup.names, raw).None? ==> r == Ok(s))
            && (pos ==> r.Ok?)
            && (!pos ==> (r.Err? <==> ValidateName(setup.names, raw).Some? && !SpanAgrees(rows, col, raw)))
            && (r.Err? ==> r.error == MixedSpan(col + 1))
            && (r.Ok? && ValidateName(setup.names, raw).Some? ==>
                  var uid := Uid('T', Count(s.count, 'T') + 1);
                  && r.value.output == s.output + [Brat.Entity(uid, Remapped(setup.names, raw), start, end, setup.text[start..end])]
                  && r.value.entities == s.entities + {Remapped(setup.names, raw)}
                  && |setup.text[start..end]| == end - start)
  {
  }

  /** How many of the rows from `i` on have a PoS tag that is neither empty nor `NULL` and names a usable type. */
  function TaggedFrom(setup: Setup, seg: seq<Row>, col: nat, i: nat): nat
    requires forall k :: 0 <= k < |seg| ==> col < |seg[k]|
    requires i <= |seg|
    decreases |seg| - i
  {
    if i == |seg| then 0
    else
      var val := seg[i][col];
      (if val != "" && val != "NULL" && ValidateName(setup.names, val).Some? then 1 else 0) + TaggedFrom(setup, seg, col, i + 1)
  }

  /** `_processPoS` never fails, and writes one entity for each row with a usable PoS tag. */
  lemma {:induction false} PosFromRule(setup: Setup, s: State, seg: seq<Row>, offsets: seq<Span>, col: nat, i: nat)
    requires Coherent(setup.spec) && Offsetting(setup, seg, offsets) && col < setup.spec.width && i <= |seg|
    requires setup.spec.posTag == Some(col)
    ensures var r := PosFrom(setup, s, seg, offsets, col, i);
            r.Ok? && |r.value.output| == |s.output| + TaggedFrom(setup, seg, col, i)
    decreases |seg| - i
  {
    if i < |seg| {
      var val := seg[i][col];
      if val != "" && val != "NULL" {
        EntityRule(setup, s, [seg[i]], i + 1, col, offsets[i].0, offsets[i].1);
        var s1 := MakeEntity(setup, s, [seg[i]], i + 1, col, offsets[i].0, offsets[i].1).value;
        PosFromRule(setup, s1, seg, offsets, col, i + 1);
      } else {
        PosFromRule(setup, s, seg, offsets, col, i + 1);
      }
    }
  }
}
