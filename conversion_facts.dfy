/**
 * What the conversion promises: each token bound to its first occurrence after the one
 * before, a missing token reported with its line, uids issued once per type letter and
 * every row number registered first-writer-wins, event argument positions kept and
 * weakened to optional, and configuration shortcuts that read `<ANY>` exactly when the
 * target types disagree.
 */
module ConversionFacts {
  import opened Wrappers
  import opened Text
  import opened ColSpec
  import opened Conversion
  import Brat

  // ---------------------------------------------------------------------------
  // Token offsets

  /** Where the search for token `k` starts: the text offset given, then the end of the token before. */
  function SearchFrom(start: nat, spans: seq<Span>, k: nat): nat
    requires k <= |spans|
  {
    if k == 0 then start else spans[k - 1].1
  }

  lemma {:induction false} OffsetsFirstAt(text: string, tokens: seq<string>, start: nat, line: nat, k: nat)
    requires k < |tokens| && Offsets(text, tokens, start, line).Ok?
    ensures var r := Offsets(text, tokens, start, line).value;
            Find(text, tokens[k], SearchFrom(start, r, k)) == Some(r[k].0)
    decreases k
  {
    var p := Find(text, tokens[0], start).value;
    var next := p + |tokens[0]|;
    var rest := Offsets(text, tokens[1..], next, line + 1).value;
    var r := Offsets(text, tokens, start, line).value;
    assert r == [(p, next)] + rest;
    if k > 0 {
      var j := k - 1;
      OffsetsFirstAt(text, tokens[1..], next, line + 1, j);
      assert tokens[1..][j] == tokens[k] && r[k] == rest[j];
      if j > 0 {
        assert r[k - 1] == rest[j - 1];
      }
    }
  }

  /** Every token is bound to the first occurrence at or after the end of the token before it. */
  lemma OffsetsFirst(text: string, tokens: seq<string>, start: nat, line: nat)
    requires Offsets(text, tokens, start, line).Ok?
    ensures var r := Offsets(text, tokens, start, line).value;
            forall k :: 0 <= k < |tokens| ==> Find(text, tokens[k], SearchFrom(start, r, k)) == Some(r[k].0)
  {
    forall k | 0 <= k < |tokens| {
      OffsetsFirstAt(text, tokens, start, line, k);
    }
  }

  /** A failed search names a token of the segment, its line (the first line plus its index) and an offset from which it does not occur. */
  lemma {:induction false} OffsetsMissing(text: string, tokens: seq<string>, start: nat, line: nat)
    requires Offsets(text, tokens, start, line).Err?
    ensures var e := Offsets(text, tokens, start, line).error;
            && e.TokenNotFound? && start <= e.at
            && (exists k :: 0 <= k < |tokens| && e.token == tokens[k] && e.line == line + k)
            && forall q :: e.at <= q ==> !OccursAt(text, e.token, q)
    decreases |tokens|
  {
    match Find(text, tokens[0], start)
    case None =>
    case Some(p) =>
      OffsetsMissing(text, tokens[1..], p + |tokens[0]|, line + 1);
      var e := Offsets(text, tokens[1..], p + |tokens[0]|, line + 1).error;
      var k :| 0 <= k < |tokens| - 1 && e.token == tokens[1..][k] && e.line == line + 1 + k;
      assert tokens[k + 1] == e.token;
  }

  // ---------------------------------------------------------------------------
  // Uids and registration

  /** A uid is the type letter followed by the counter's value, so different letters or counts never give the same uid. */
  lemma UidInjective(a: char, m: nat, b: char, n: nat)
    requires Uid(a, m) == Uid(b, n)
    ensures a == b && m == n
  {
    assert Uid(a, m)[0] == a && Uid(b, n)[0] == b;
    assert Uid(a, m)[1..] == NatToString(m) && Uid(b, n)[1..] == NatToString(n);
    NatToStringInjective(m, n);
  }

  /** `key` is the number of one of `rows[..i]`, the first of them numbered `base`. */
  ghost predicate Numbered(enum: Option<nat>, base: nat, rows: seq<Row>, i: nat, key: string)
    requires i <= |rows|
    requires enum.Some? ==> forall k :: 0 <= k < |rows| ==> enum.value < |rows[k]|
  {
    exists j :: 0 <= j < i && key == RowKey(enum, base + j, rows[j])
  }

  /**
   * `setdefault` registration, one number at a time: a number registered before keeps its
   * uid, a number of one of the rows that was not registered gets the new uid, and no other
   * number appears.
   */
  lemma {:induction false} RegisterRowsAt(m: IdMap, col: nat, enum: Option<nat>, base: nat, rows: seq<Row>, uid: string, i: nat, key: string)
    requires i <= |rows|
    requires enum.Some? ==> forall k :: 0 <= k < |rows| ==> enum.value < |rows[k]|
    ensures Lookup(RegisterRows(m, col, enum, base, rows, uid, i), col, key)
         == if key in Inner(m, col) then Lookup(m, col, key)
            else if Numbered(enum, base, rows, i, key) then Some(uid)
            else None
  {
    if i > 0 {
      var before := RegisterRows(m, col, enum, base, rows, uid, i - 1);
      var here := RowKey(enum, base + i - 1, rows[i - 1]);
      RegisterRowsAt(m, col, enum, base, rows, uid, i - 1, key);
      SetDefaultLookup(before, col, here, uid, key);
      NumberedStep(enum, base, rows, i - 1, key);
    } else {
      assert !Numbered(enum, base, rows, i, key);
    }
  }

  /** `setdefault` adds the key with the uid only when the key is new. */
  lemma SetDefaultLookup(m: IdMap, col: nat, here: string, uid: string, key: string)
    ensures key in Inner(SetDefault(m, col, here, uid), col) <==> key in Inner(m, col) || key == here
    ensures Lookup(SetDefault(m, col, here, uid), col, key)
         == if key in Inner(m, col) then Lookup(m, col, key) else if key == here then Some(uid) else None
  {
  }

  /** A key numbers one of `rows[..i + 1]` when it is the number of row `i` or of an earlier one. */
  lemma NumberedStep(enum: Option<nat>, base: nat, rows: seq<Row>, i: nat, key: string)
    requires i < |rows|
    requires enum.Some? ==> forall k :: 0 <= k < |rows| ==> enum.value < |rows[k]|
    ensures Numbered(enum, base, rows, i + 1, key) <==> key == RowKey(enum, base + i, rows[i]) || Numbered(enum, base, rows, i, key)
  {
    if Numbered(enum, base, rows, i + 1, key) && key != RowKey(enum, base + i, rows[i]) {
      var j :| 0 <= j < i + 1 && key == RowKey(enum, base + j, rows[j]);
      assert j != i;
    }
    if Numbered(enum, base, rows, i, key) {
      var j :| 0 <= j < i && key == RowKey(enum, base + j, rows[j]);
    }
  }

  /** Registration changes no column but its own. */
  lemma {:induction false} RegisterRowsFrame(m: IdMap, col: nat, enum: Option<nat>, base: nat, rows: seq<Row>, uid: string, i: nat)
    requires i <= |rows|
    requires enum.Some? ==> forall k :: 0 <= k < |rows| ==> enum.value < |rows[k]|
    ensures RegisterRows(m, col, enum, base, rows, uid, i) - {col} == m - {col}
  {
    if i > 0 {
      var before := RegisterRows(m, col, enum, base, rows, uid, i - 1);
      RegisterRowsFrame(m, col, enum, base, rows, uid, i - 1);
      assert SetDefault(before, col, RowKey(enum, base + i - 1, rows[i - 1]), uid) - {col} == before - {col};
    }
  }

  /** `setdefault` registration of all rows: first writer wins, every row is registered, nothing else is. */
  lemma RegisterRowsMeaning(m: IdMap, col: nat, enum: Option<nat>, base: nat, rows: seq<Row>, uid: string)
    requires enum.Some? ==> forall k :: 0 <= k < |rows| ==> enum.value < |rows[k]|
    ensures var r := RegisterRows(m, col, enum, base, rows, uid, |rows|);
            && r - {col} == m - {col}
            && (forall key :: key in Inner(m, col) ==> Lookup(r, col, key) == Lookup(m, col, key))
            && (forall j :: 0 <= j < |rows| && RowKey(enum, base + j, rows[j]) !in Inner(m, col) ==>
                  Lookup(r, col, RowKey(enum, base + j, rows[j])) == Some(uid))
            && (forall key :: key !in Inner(m, col) && !Numbered(enum, base, rows, |rows|, key) ==> Lookup(r, col, key).None?)
  {
    RegisterRowsFrame(m, col, enum, base, rows, uid, |rows|);
    forall key {
      RegisterRowsAt(m, col, enum, base, rows, uid, |rows|, key);
    }
    forall j | 0 <= j < |rows| && RowKey(enum, base + j, rows[j]) !in Inner(m, col)
      ensures Lookup(RegisterRows(m, col, enum, base, rows, uid, |rows|), col, RowKey(enum, base + j, rows[j])) == Some(uid)
    {
      RegisterRowsAt(m, col, enum, base, rows, uid, |rows|, RowKey(enum, base + j, rows[j]));
    }
  }

  /** `_register` issues the counter's next value for its letter, leaves the other counters alone and changes nothing but the counters and the maps. */
  lemma RegisterAnnotationCounts(spec: Spec, s: State, col: nat, letter: char, num: nat, rows: seq<Row>)
    requires EnumsFit(spec, rows)
    ensures var (s1, uid) := RegisterAnnotation(spec, s, col, letter, num, rows);
            && uid == Uid(letter, Count(s.count, letter) + 1)
            && s1.count == s.count[letter := Count(s.count, letter) + 1]
            && Count(s1.count, letter) == Count(s.count, letter) + 1
            && (forall l :: l != letter ==> Count(s1.count, l) == Count(s.count, l))
            && (s1.globalMap.Some? <==> s.globalMap.Some?)
            && s1.(count := s.count, localMap := s.localMap, globalMap := s.globalMap) == s
  {
  }

  /** `_register` writes nothing, advances its letter's counter and hands out the uid of the counter's next value. */
  lemma RegisterAnnotationUid(spec: Spec, s: State, col: nat, letter: char, num: nat, rows: seq<Row>)
    requires EnumsFit(spec, rows)
    ensures RegisterAnnotation(spec, s, col, letter, num, rows).0.output == s.output
    ensures RegisterAnnotation(spec, s, col, letter, num, rows).0.count == s.count[letter := Count(s.count, letter) + 1]
    ensures RegisterAnnotation(spec, s, col, letter, num, rows).1 == Uid(letter, Count(s.count, letter) + 1)
  {
  }

  /** `_register` maps the number of every row to a uid in the local map, and a number registered before keeps its uid. */
  lemma RegisterAnnotationMaps(spec: Spec, s: State, col: nat, letter: char, num: nat, rows: seq<Row>)
    requires EnumsFit(spec, rows)
    ensures var (s1, uid) := RegisterAnnotation(spec, s, col, letter, num, rows);
            && (forall key :: key in Inner(s.localMap, col) ==> Lookup(s1.localMap, col, key) == Lookup(s.localMap, col, key))
            && (forall j :: 0 <= j < |rows| ==> Lookup(s1.localMap, col, RowKey(spec.localEnum, num + j, rows[j])).Some?)
  {
    var uid := Uid(letter, Count(s.count, letter) + 1);
    forall key | key in Inner(s.localMap, col) {
      RegisterRowsAt(s.localMap, col, spec.localEnum, num, rows, uid, |rows|, key);
    }
    forall j | 0 <= j < |rows| {
      RegisterRowsAt(s.localMap, col, spec.localEnum, num, rows, uid, |rows|, RowKey(spec.localEnum, num + j, rows[j]));
    }
  }

  /** After `_resetStates` every counter starts again at 1. */
  lemma ResetRestarts(spec: Spec, s: State, col: nat, letter: char, num: nat, rows: seq<Row>)
    requires EnumsFit(spec, rows)
    ensures RegisterAnnotation(spec, Reset(s), col, letter, num, rows).1 == Uid(letter, 1)
    ensures Reset(s).entities == s.entities && Reset(s).events == s.events && Reset(s).output == s.output
  {
  }

  // ---------------------------------------------------------------------------
  // Event arguments

  /** The number of present arguments. */
  function Present(ids: seq<Option<string>>): nat
  {
    if |ids| == 0 then 0 else (if ids[0].Some? then 1 else 0) + Present(ids[1..])
  }

  lemma {:induction false} ArgItemsLength(ids: seq<Option<string>>, k: nat)
    ensures |ArgItems(ids, k)| == Present(ids)
    decreases |ids|
  {
    if |ids| > 0 {
      ArgItemsLength(ids[1..], k + 1);
    }
  }

  lemma {:induction false} ArgItemsListed(ids: seq<Option<string>>, k: nat, j: nat)
    requires j < |ids| && ids[j].Some?
    ensures ("Arg" + NatToString(k + j + 1), ids[j].value) in ArgItems(ids, k)
    decreases j
  {
    if j > 0 {
      ArgItemsListed(ids[1..], k + 1, j - 1);
      assert ids[1..][j - 1] == ids[j] && k + 1 + (j - 1) + 1 == k + j + 1;
    }
  }

  lemma {:induction false} ArgItemsOnly(ids: seq<Option<string>>, k: nat, item: (string, string))
    requires item in ArgItems(ids, k)
    ensures exists j :: 0 <= j < |ids| && ids[j] == Some(item.1) && item.0 == "Arg" + NatToString(k + j + 1)
    decreases |ids|
  {
    if ids[0].Some? && item == ("Arg" + NatToString(k + 1), ids[0].value) {
      assert ids[0] == Some(item.1) && item.0 == "Arg" + NatToString(k + 0 + 1);
    } else {
      ArgItemsOnly(ids[1..], k + 1, item);
      var j :| 0 <= j < |ids| - 1 && ids[1..][j] == Some(item.1) && item.0 == "Arg" + NatToString(k + 1 + j + 1);
      assert ids[j + 1] == Some(item.1) && k + (j + 1) + 1 == k + 1 + j + 1;
    }
  }

  /** `ArgK` keeps the argument's position: each present argument is listed under its own number, and nothing else is. */
  lemma ArgItemsMeaning(ids: seq<Option<string>>)
    ensures |ArgItems(ids, 0)| == Present(ids)
    ensures forall j :: 0 <= j < |ids| && ids[j].Some? ==> ("Arg" + NatToString(j + 1), ids[j].value) in ArgItems(ids, 0)
    ensures forall item :: item in ArgItems(ids, 0) ==>
              exists j :: 0 <= j < |ids| && ids[j] == Some(item.1) && item.0 == "Arg" + NatToString(j + 1)
  {
    ArgItemsLength(ids, 0);
    forall j | 0 <= j < |ids| && ids[j].Some? ensures ("Arg" + NatToString(j + 1), ids[j].value) in ArgItems(ids, 0) {
      ArgItemsListed(ids, 0, j);
    }
    forall item | item in ArgItems(ids, 0)
      ensures exists j :: 0 <= j < |ids| && ids[j] == Some(item.1) && item.0 == "Arg" + NatToString(j + 1)
    {
      ArgItemsOnly(ids, 0, item);
    }
  }

  /**
   * `_storeEventArguments` from position `i` on: an argument is never made required again;
   * one absent now becomes optional; the update fails exactly when an argument is absent at a
   * position the first event of that name did not have.
   */
  lemma {:induction false} WeakenFromMeaning(known: seq<(nat, bool)>, later: seq<(nat, bool)>, i: nat)
    ensures WeakenFrom(known, later, i).None? <==> exists j :: i <= j < |later| && |known| <= j && !later[j].1
    ensures var r := WeakenFrom(known, later, i);
            r.Some? ==>
              && |r.value| == |known|
              && forall j :: 0 <= j < |known| ==>
                   r.value[j] == if i <= j < |later| && !later[j].1 && known[j].1 then (later[j].0, false) else known[j]
    decreases |later| - i
  {
    if i < |later| {
      if !later[i].1 && i >= |known| {
      } else if !later[i].1 && known[i].1 {
        WeakenFromMeaning(known[i := (later[i].0, false)], later, i + 1);
      } else {
        WeakenFromMeaning(known, later, i + 1);
      }
    }
  }

  /** A known event name whose arguments line up: a position stays required exactly when it was required and is present again. */
  lemma StoredRequired(events: map<string, seq<(nat, bool)>>, name: string, pairs: seq<(nat, bool)>)
    requires name in events && |pairs| == |events[name]|
    ensures var r := StoreEventArguments(events, name, pairs);
            && r.Ok? && r.value.Keys == events.Keys
            && (forall n :: n in events && n != name ==> r.value[n] == events[n])
            && |r.value[name]| == |pairs|
            && forall j :: 0 <= j < |pairs| ==> r.value[name][j].1 == (events[name][j].1 && pairs[j].1)
  {
    WeakenFromMeaning(events[name], pairs, 0);
  }

  /** The first event of a name records its pairs as they are. */
  lemma StoredFirst(events: map<string, seq<(nat, bool)>>, name: string, pairs: seq<(nat, bool)>)
    requires name !in events
    ensures StoreEventArguments(events, name, pairs) == Ok(events[name := pairs])
  {
  }

  // ---------------------------------------------------------------------------
  // Shortcuts

  /** The type every target is, from `i` on, or none when two of them differ. */
  predicate SameType(spec: Spec, targets: seq<nat>, i: nat, t: Role)
  {
    forall j :: i <= j < |targets| ==> PropertyTargetType(spec, targets[j]) == Ok(t)
  }

  lemma {:induction false} CommonTypeMeaning(spec: Spec, targets: seq<nat>, i: nat, t: Role)
    requires forall j :: 0 <= j < |targets| ==> PropertyTargetType(spec, targets[j]).Ok?
    ensures SameType(spec, targets, i, t) ==> CommonType(spec, targets, i, Some(t)) == Ok(Some(t))
    ensures !SameType(spec, targets, i, t) ==> CommonType(spec, targets, i, Some(t)) == Ok(Some(Annotation))
    decreases |targets| - i
  {
    if i < |targets| && PropertyTargetType(spec, targets[i]) == Ok(t) {
      CommonTypeMeaning(spec, targets, i + 1, t);
    }
  }

  /**
   * `_elicitShortcutFor` over targets that are all property targets: `<ANY>` when their types
   * differ, else the shortcut of the one type; no targets have no shortcut.
   */
  lemma ShortcutMeaning(spec: Spec, targets: seq<nat>)
    requires forall j :: 0 <= j < |targets| ==> PropertyTargetType(spec, targets[j]).Ok?
    ensures |targets| == 0 ==> Shortcut(spec, targets) == Err(IllegalShortcut)
    ensures |targets| > 0 && !SameType(spec, targets, 0, PropertyTargetType(spec, targets[0]).value) ==>
              Shortcut(spec, targets) == Ok("<ANY>")
    ensures |targets| > 0 && SameType(spec, targets, 0, PropertyTargetType(spec, targets[0]).value) ==>
              var t := PropertyTargetType(spec, targets[0]).value;
              Shortcut(spec, targets) == Ok(if t == Relation then "<RELATION>" else if t == Event then "<EVENT>" else "<ENTITY>")
  {
    if |targets| > 0 {
      var t := PropertyTargetType(spec, targets[0]).value;
      CommonTypeMeaning(spec, targets, 1, t);
      assert SameType(spec, targets, 0, t) <==> SameType(spec, targets, 1, t);
    }
  }

  // ---------------------------------------------------------------------------
  // Configuration lines

  /** The word brat's configuration uses for targets of one type. */
  function TypeWord(t: Role): string
  {
    if t == Relation then "<RELATION>" else if t == Event then "<EVENT>" else "<ENTITY>"
  }

  /** Every target is a property target. */
  predicate Typed(spec: Spec, targets: seq<nat>)
  {
    forall j :: 0 <= j < |targets| ==> PropertyTargetType(spec, targets[j]).Ok?
  }

  /** The shortcut the configuration needs for some targets: the type they share, `<ANY>` when two differ. */
  function SharedShortcut(spec: Spec, targets: seq<nat>): string
    requires |targets| > 0 && Typed(spec, targets)
  {
    var t := PropertyTargetType(spec, targets[0]).value;
    if SameType(spec, targets, 0, t) then TypeWord(t) else "<ANY>"
  }

  lemma ShortcutShared(spec: Spec, targets: seq<nat>)
    requires |targets| > 0 && Typed(spec, targets)
    ensures Shortcut(spec, targets) == Ok(SharedShortcut(spec, targets))
  {
    ShortcutMeaning(spec, targets);
  }

  /** The first target has no type, so no shortcut can be given. */
  lemma ShortcutUntyped(spec: Spec, targets: seq<nat>)
    requires |targets| > 0 && PropertyTargetType(spec, targets[0]).Err?
    ensures Shortcut(spec, targets).Err?
  {
  }

  /** A single relation column gives its own target as the only source target. */
  lemma {:induction false} OneRelationSource(spec: Spec, a: nat, c: nat)
    requires c <= spec.width && a < spec.width && a in spec.relations
    ensures RelationSources(spec, {a}, c) == if c <= a then [spec.relations[a]] else []
    decreases spec.width - c
  {
    if c < spec.width {
      OneRelationSource(spec, a, c + 1);
    }
  }

  /** A single relation column gives the target of the reference left of it as the only reference target. */
  lemma {:induction false} OneRelationReference(spec: Spec, a: nat, c: nat)
    requires c <= spec.width && 1 <= a < spec.width && a in spec.relations && ReferenceTarget(spec, a - 1).Some?
    ensures RelationReferences(spec, {a}, c) == if c <= a then [ReferenceTarget(spec, a - 1).value] else []
    decreases spec.width - c
  {
    if c < spec.width {
      OneRelationReference(spec, a, c + 1);
    }
  }

  /** Attribute columns `a` before `b` give their targets in that order. */
  lemma {:induction false} TwoAttributeTargets(spec: Spec, a: nat, b: nat, c: nat)
    requires c <= spec.width && a <= b < spec.width && a in spec.attributes && b in spec.attributes
    ensures AttributeTargets(spec, {a, b}, c)
         == (if c <= a then [spec.attributes[a]] else []) + (if c <= b && a != b then [spec.attributes[b]] else [])
    decreases spec.width - c
  {
    if c < spec.width {
      TwoAttributeTargets(spec, a, b, c + 1);
    }
  }

  /** The relation line: `Arg1` is the shortcut of the relations' own targets, `Arg2` that of the references left of them. */
  lemma RelationTypeLineMeaning(spec: Spec, name: string, cols: set<nat>)
    ensures var sources, refs := RelationSources(spec, cols, 0), RelationReferences(spec, cols, 0);
      var r := RelationTypeLine(spec, name, cols);
      && (|sources| > 0 && Typed(spec, sources) && |refs| > 0 && Typed(spec, refs) ==>
            r == Ok(name + "\tArg1:" + SharedShortcut(spec, sources) + ", Arg2:" + SharedShortcut(spec, refs) + "\n"))
      && (|sources| == 0 || |refs| == 0 ==> r.Err?)
      && (|sources| > 0 && PropertyTargetType(spec, sources[0]).Err? ==> r.Err?)
  {
    var sources, refs := RelationSources(spec, cols, 0), RelationReferences(spec, cols, 0);
    if |sources| > 0 && Typed(spec, sources) {
      ShortcutShared(spec, sources);
      if |refs| > 0 && Typed(spec, refs) {
        ShortcutShared(spec, refs);
      }
    }
  }

  /** The attribute line: `Arg` is the shortcut of the attribute columns' targets. */
  lemma AttributeTypeLineMeaning(spec: Spec, name: string, cols: set<nat>)
    ensures var targets := AttributeTargets(spec, cols, 0);
      var r := AttributeTypeLine(spec, name, cols);
      && (|targets| > 0 && Typed(spec, targets) ==> r == Ok(name + "\tArg:" + SharedShortcut(spec, targets) + "\n"))
      && (|targets| == 0 || PropertyTargetType(spec, targets[0]).Err? ==> r.Err?)
  {
    var targets := AttributeTargets(spec, cols, 0);
    if |targets| > 0 && Typed(spec, targets) {
      ShortcutShared(spec, targets);
    }
  }

  /** An event argument the configuration can describe: a reference whose target is a property target. */
  predicate ArgTyped(spec: Spec, pair: (nat, bool))
  {
    ReferenceTarget(spec, pair.0).Some? && PropertyTargetType(spec, ReferenceTarget(spec, pair.0).value).Ok?
  }

  /** The entry for one event argument: its column number, `?` when it is optional, and the type of its reference's target. */
  function EventEntry(spec: Spec, pair: (nat, bool)): string
    requires ArgTyped(spec, pair)
  {
    var t := PropertyTargetType(spec, ReferenceTarget(spec, pair.0).value).value;
    "Col" + NatToString(pair.0 + 1) + (if pair.1 then "" else "?") + ":" + TypeWord(t)
  }

  /** An argument is written exactly when it is typed, and then as its entry. */
  lemma EventArgumentMeaning(spec: Spec, pair: (nat, bool))
    ensures EventArgument(spec, pair).Ok? <==> ArgTyped(spec, pair)
    ensures ArgTyped(spec, pair) ==> EventArgument(spec, pair) == Ok(EventEntry(spec, pair))
  {
    if ArgTyped(spec, pair) {
      var target := ReferenceTarget(spec, pair.0).value;
      ShortcutMeaning(spec, [target]);
    }
  }

  /** The arguments are written exactly when all are typed, one entry per argument in order. */
  lemma {:induction false} EventArgumentsMeaning(spec: Spec, pairs: seq<(nat, bool)>)
    ensures EventArguments(spec, pairs).Ok? <==> forall j :: 0 <= j < |pairs| ==> ArgTyped(spec, pairs[j])
    ensures EventArguments(spec, pairs).Ok? ==>
      var args := EventArguments(spec, pairs).value;
      |args| == |pairs| && forall j :: 0 <= j < |pairs| ==> ArgTyped(spec, pairs[j]) && args[j] == EventEntry(spec, pairs[j])
    decreases |pairs|
  {
    if |pairs| > 0 {
      EventArgumentMeaning(spec, pairs[0]);
      EventArgumentsMeaning(spec, pairs[1..]);
      if EventArguments(spec, pairs).Ok? {
        var args := EventArguments(spec, pairs).value;
        forall j | 0 <= j < |pairs| ensures ArgTyped(spec, pairs[j]) && args[j] == EventEntry(spec, pairs[j]) {
          if j > 0 { assert pairs[j] == pairs[1..][j - 1]; }
        }
      } else {
        if forall j :: 0 <= j < |pairs| ==> ArgTyped(spec, pairs[j]) {
          forall j | 0 <= j < |pairs| - 1 ensures ArgTyped(spec, pairs[1..][j]) {
            assert pairs[1..][j] == pairs[j + 1];
          }
        }
      }
    }
  }

  /**
   * The event line: the event name, a tab, and the entries of all stored arguments joined by
   * `, `; one argument without a typed reference target and no line is written.
   */
  lemma EventTypeLineMeaning(spec: Spec, name: string, pairs: seq<(nat, bool)>)
    ensures EventTypeLine(spec, name, pairs).Ok? <==> forall j :: 0 <= j < |pairs| ==> ArgTyped(spec, pairs[j])
    ensures EventTypeLine(spec, name, pairs).Ok? ==>
      exists args: seq<string> ::
        && |args| == |pairs|
        && (forall j :: 0 <= j < |pairs| ==> ArgTyped(spec, pairs[j]) && args[j] == EventEntry(spec, pairs[j]))
        && EventTypeLine(spec, name, pairs).value == name + "\t" + Join(args, ", ") + "\n"
  {
    EventArgumentsMeaning(spec, pairs);
    if EventArguments(spec, pairs).Ok? {
      var args := EventArguments(spec, pairs).value;
      assert EventTypeLine(spec, name, pairs).value == name + "\t" + Join(args, ", ") + "\n";
    }
  }

  /** An entry carries the `?` mark exactly when its argument is optional. */
  lemma OptionalMarked(spec: Spec, pair: (nat, bool))
    requires ArgTyped(spec, pair)
    ensures '?' in EventEntry(spec, pair) <==> !pair.1
  {
    var t := PropertyTargetType(spec, ReferenceTarget(spec, pair.0).value).value;
    var digits := NatToString(pair.0 + 1);
    assert '?' !in digits by { assert !IsDigit('?'); }
    assert '?' !in "Col" && '?' !in ":" && '?' !in TypeWord(t);
    var entry := EventEntry(spec, pair);
    if pair.1 {
      assert entry == "Col" + digits + ":" + TypeWord(t);
    } else {
      assert entry == "Col" + digits + "?" + ":" + TypeWord(t);
      assert entry[3 + |digits|] == '?';
    }
  }

  // ---------------------------------------------------------------------------
  // The columns a conversion needs

  /** Every column the specification names lies before column `w`. */
  predicate NamesBefore(spec: Spec, w: nat)
  {
    && (spec.token.Some? ==> spec.token.value < w)
    && (spec.localEnum.Some? ==> spec.localEnum.value < w)
    && (spec.globalEnum.Some? ==> spec.globalEnum.value < w)
    && (spec.posTag.Some? ==> spec.posTag.value < w)
    && (forall c :: c in spec.entities ==> c < w)
    && (forall c :: c in spec.globalRefs ==> c < w && spec.globalRefs[c] < w)
    && (forall c :: c in spec.localRefs ==> c < w && spec.localRefs[c] < w)
    && (forall c :: c in spec.relations ==> c < w && spec.relations[c] < w)
    && (forall c :: c in spec.normalizations ==> c < w && spec.normalizations[c] < w)
    && (forall c :: c in spec.attributes ==> c < w && spec.attributes[c] < w)
    && (forall c :: c in spec.events ==> c < w && spec.events[c].trigger < w)
    && (forall c, k :: c in spec.events && 0 <= k < |spec.events[c].args| ==> spec.events[c].args[k] < w)
  }

  /** Cutting a coherent specification down to the columns it names keeps it coherent, and never widens it. */
  lemma NarrowedCoherent(spec: Spec)
    requires Coherent(spec)
    ensures Coherent(Narrowed(spec)) && Reach(spec) <= spec.width
  {
    ReachMeaning(spec);
    NamedBefore(spec, Reach(spec));
    CoherentWithin(spec, Reach(spec));
    CoherentNamesBefore(spec);
    NamesBeforeNamed(spec, spec.width);
  }

  /** The columns of `Named` are exactly those `NamesBefore` bounds. */
  lemma NamedBefore(spec: Spec, w: nat)
    requires forall c :: c in Named(spec) ==> c < w
    ensures NamesBefore(spec, w)
  {
    var n := Named(spec);
    NamedIncludes(spec);
    PairsBelow(spec.globalRefs, n, w);
    PairsBelow(spec.localRefs, n, w);
    PairsBelow(spec.relations, n, w);
    PairsBelow(spec.normalizations, n, w);
    PairsBelow(spec.attributes, n, w);
    forall c | c in spec.events ensures c < w && spec.events[c].trigger < w {
      NamedEvent(spec, c);
    }
    forall c, k | c in spec.events && 0 <= k < |spec.events[c].args| ensures spec.events[c].args[k] < w {
      NamedEvent(spec, c);
    }
  }

  lemma NamesBeforeNamed(spec: Spec, w: nat)
    requires NamesBefore(spec, w)
    ensures forall c :: c in Named(spec) ==> c < w
  {
    PairColumnsBefore(spec, w);
    EventColumnsBefore(spec.events, w);
  }

  lemma PairColumnsBefore(spec: Spec, w: nat)
    requires NamesBefore(spec, w)
    ensures forall c :: c in PairColumns(spec) ==> c < w
  {
    ValuesBelow(spec.globalRefs, w);
    ValuesBelow(spec.localRefs, w);
    ValuesBelow(spec.relations, w);
    ValuesBelow(spec.normalizations, w);
    ValuesBelow(spec.attributes, w);
  }

  lemma EventColumnsBefore(events: map<nat, EventTargets>, w: nat)
    requires forall c :: c in events ==> c < w && events[c].trigger < w
    requires forall c, k :: c in events && 0 <= k < |events[c].args| ==> events[c].args[k] < w
    ensures forall c :: c in EventColumns(events) ==> c < w
  {
    forall c | c in EventColumns(events) ensures c < w {
      if c !in events && c !in (set e | e in events :: events[e].trigger) {
        var t, a :| t in events.Values && a in t.args && c == a;
        var e :| e in events && events[e] == t;
        var k :| 0 <= k < |t.args| && t.args[k] == a;
      }
    }
  }

  lemma ValuesBelow(m: map<nat, nat>, w: nat)
    requires forall c :: c in m ==> c < w && m[c] < w
    ensures forall v :: v in m.Keys + m.Values ==> v < w
  {
  }

  lemma CoherentNamesBefore(spec: Spec)
    requires Coherent(spec)
    ensures NamesBefore(spec, spec.width)
  {
  }

  lemma NamedIncludes(spec: Spec)
    ensures var n := Named(spec);
      && (spec.token.Some? ==> spec.token.value in n)
      && (spec.localEnum.Some? ==> spec.localEnum.value in n)
      && (spec.globalEnum.Some? ==> spec.globalEnum.value in n)
      && (spec.posTag.Some? ==> spec.posTag.value in n)
      && spec.entities <= n
      && spec.globalRefs.Keys <= n && spec.globalRefs.Values <= n
      && spec.localRefs.Keys <= n && spec.localRefs.Values <= n
      && spec.relations.Keys <= n && spec.relations.Values <= n
      && spec.normalizations.Keys <= n && spec.normalizations.Values <= n
      && spec.attributes.Keys <= n && spec.attributes.Values <= n
  {
  }

  /** A coherent specification stays coherent at any width past every column it names. */
  lemma CoherentWithin(spec: Spec, w: nat)
    requires Coherent(spec) && NamesBefore(spec, w)
    ensures Coherent(spec.(width := w))
  {
  }

  lemma PairsBelow(m: map<nat, nat>, n: set<nat>, w: nat)
    requires m.Keys <= n && m.Values <= n && forall c :: c in n ==> c < w
    ensures forall c :: c in m ==> c < w && m[c] < w
  {
    forall c | c in m ensures c < w && m[c] < w {
      assert m[c] in m.Values;
    }
  }

  lemma NamedEvent(spec: Spec, c: nat)
    requires c in spec.events
    ensures var t := spec.events[c];
      c in Named(spec) && t.trigger in Named(spec) && forall k :: 0 <= k < |t.args| ==> t.args[k] in Named(spec)
  {
    var t := spec.events[c];
    assert t in spec.events.Values;
    assert t.trigger in (set e | e in spec.events :: spec.events[e].trigger);
    forall k | 0 <= k < |t.args| ensures t.args[k] in EventColumns(spec.events) {
      assert t.args[k] in t.args;
    }
  }

  /**
   * With no segments nothing of the specification is read: any specification fits, and the
   * conversion succeeds, leaving the reset states, an empty annotation file and, when there are
   * global references, an empty global map.
   */
  lemma NothingToConvert(setup: Setup, s: State)
    ensures Fits(setup.spec, [])
    ensures Converted(setup, s, []) == Ok(Reset(s).(output := [], globalMap := if HasGlobalRefs(setup.spec) then Some(map[]) else None))
  {
  }

  /** Rows that fit a specification fit it cut down, and a row narrower than that misses a column the specification names. */
  lemma NarrowedFits(spec: Spec, segments: seq<seq<Row>>)
    requires Fits(spec, segments)
    ensures Fits(Narrowed(spec), segments)
    ensures forall row: Row :: |row| < Narrowed(spec).width ==> exists c :: c in Named(spec) && c >= |row|
  {
    if |segments| > 0 {
      NarrowedCoherent(spec);
    }
    ReachMeaning(spec);
    forall row: Row | |row| < Narrowed(spec).width ensures exists c :: c in Named(spec) && c >= |row| {
      assert Reach(spec) - 1 in Named(spec);
    }
  }
}
