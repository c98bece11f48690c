/**
 * What a conversion writes: records are only ever appended, the names collected for the
 * configuration file only grow, and every record of one annotation file carries its own uid,
 * a type letter and a per-file count.
 */
module ConversionRecords {
  import opened Wrappers
  import opened Text
  import opened ColSpec
  import opened Conversion
  import ConversionFacts
  import Brat

  // ---------------------------------------------------------------------------
  // Issued uids

  /** `u` is a type letter and a count of at most the counter of that letter. */
  predicate Issued(count: map<char, nat>, u: string)
  {
    |u| > 1 && IsDigits(u[1..]) && 1 <= NatValue(u[1..]) <= Count(count, u[0])
  }

  /** Every record written has an issued uid, and no two share one. */
  predicate UniqueUids(s: State)
  {
    && (forall k :: 0 <= k < |s.output| ==> Issued(s.count, s.output[k].uid))
    && (forall j, k :: 0 <= j < k < |s.output| ==> s.output[j].uid != s.output[k].uid)
  }

  /** From `s` to `t` the counters only advance, records are only appended, and unique uids stay unique. */
  predicate Counted(s: State, t: State)
  {
    && s.output <= t.output
    && (forall l :: Count(s.count, l) <= Count(t.count, l))
    && (UniqueUids(s) ==> UniqueUids(t))
  }

  /** The names collected for the configuration file only grow. */
  predicate NamesGrow(s: State, t: State)
  {
    && s.entities <= t.entities
    && s.normalizations <= t.normalizations
    && s.events.Keys <= t.events.Keys
    && (forall n :: n in s.relations ==> n in t.relations && s.relations[n] <= t.relations[n])
    && (forall n :: n in s.attributes ==> n in t.attributes && s.attributes[n] <= t.attributes[n])
  }

  predicate Grows(s: State, t: State)
  {
    Counted(s, t) && NamesGrow(s, t)
  }

  lemma GrowsTransitive(a: State, b: State, c: State)
    requires Grows(a, b) && Grows(b, c)
    ensures Grows(a, c)
  {
  }

  /** A state that changes neither the counters nor the records nor the names. */
  lemma GrowsSame(s: State, t: State)
    requires t.count == s.count && t.output == s.output
    requires t.entities == s.entities && t.normalizations == s.normalizations
    requires t.events == s.events && t.relations == s.relations && t.attributes == s.attributes
    ensures Grows(s, t)
  {
  }

  /** From `s` to `t` the next uid of `letter` is issued, and at most one record is written, with that uid. */
  predicate Issues(s: State, t: State, letter: char)
  {
    && t.count == s.count[letter := Count(s.count, letter) + 1]
    && s.output <= t.output && |t.output| <= |s.output| + 1
    && (|t.output| == |s.output| + 1 ==> t.output[|s.output|].uid == Uid(letter, Count(s.count, letter) + 1))
  }

  /**
   * Issuing the next uid of a letter and writing at most one record with it keeps the uids
   * unique: the new uid's count is above every count issued for that letter before.
   */
  lemma Issue(s: State, t: State, letter: char)
    requires Issues(s, t, letter)
    ensures Counted(s, t)
  {
    var n := Count(s.count, letter) + 1;
    assert forall l :: Count(s.count, l) <= Count(t.count, l);
    if UniqueUids(s) {
      forall k | 0 <= k < |s.output| ensures Issued(t.count, t.output[k].uid) {
        assert t.output[k] == s.output[k];
      }
      if |t.output| == |s.output| + 1 {
        var u := Uid(letter, n);
        assert u[1..] == NatToString(n);
        NatValueOfNatToString(n);
        assert Issued(t.count, t.output[|s.output|].uid);
        forall j | 0 <= j < |s.output| ensures t.output[j].uid != u {
          var v := s.output[j].uid;
          assert t.output[j] == s.output[j] && Issued(s.count, v);
          assert v[0] == letter ==> NatValue(v[1..]) < n;
        }
      }
    }
  }

  /** A record maker either changes nothing or issues one uid of its letter, and its names only grow. */
  predicate Made(s: State, t: State, letter: char)
  {
    (t == s || Issues(s, t, letter)) && NamesGrow(s, t)
  }

  lemma MadeGrows(s: State, t: State, letter: char)
    requires Made(s, t, letter)
    ensures Grows(s, t)
  {
    if t != s {
      Issue(s, t, letter);
    }
  }

  // ---------------------------------------------------------------------------
  // Each record maker

  lemma MakeEntityMade(setup: Setup, s: State, rows: seq<Row>, num: nat, col: nat, start: nat, end: nat)
    requires Coherent(setup.spec) && EntityRows(setup.spec, rows, col) && start <= end <= |setup.text|
    ensures var r := MakeEntity(setup, s, rows, num, col, start, end);
            r.Ok? ==> Made(s, r.value, 'T')
  {
  }

  /** A relation either skipped, or written: the state after registration, with its name's column and its record added. */
  lemma RelationShape(setup: Setup, s: State, data: Row, num: nat, col: nat)
    requires Coherent(setup.spec) && setup.spec.width <= |data| && col in setup.spec.relations
    ensures var r := MakeRelation(setup, s, data, num, col);
            r.Ok? ==>
              var n := ValidateName(setup.names, data[col]).GetOr("");
              var (s1, uid) := RegisterAnnotation(setup.spec, s, col, 'R', num, [data]);
              var cols := if n in s1.relations then s1.relations[n] else {};
              || r.value == s
              || (&& |r.value.output| == |s.output| + 1
                  && r.value == s1.(relations := s1.relations[n := cols + {col}], output := s1.output + [r.value.output[|s.output|]])
                  && r.value.output[|s.output|].uid == uid)
  {
  }

  /** Registration followed by a name's column and one record with the registered uid. */
  lemma RelationMade(s: State, s1: State, r: Result<State, ConvError>, n: string, col: nat, uid: string)
    requires s1.count == s.count['R' := Count(s.count, 'R') + 1] && uid == Uid('R', Count(s.count, 'R') + 1)
    requires s1.(count := s.count, localMap := s.localMap, globalMap := s.globalMap) == s
    requires r.Ok? ==>
               || r.value == s
               || (&& |r.value.output| == |s.output| + 1
                   && r.value == s1.(relations := s1.relations[n := (if n in s1.relations then s1.relations[n] else {}) + {col}],
                                     output := s1.output + [r.value.output[|s.output|]])
                   && r.value.output[|s.output|].uid == uid)
    ensures r.Ok? ==> Made(s, r.value, 'R')
  {
  }

  lemma MakeRelationMade(setup: Setup, s: State, data: Row, num: nat, col: nat)
    requires Coherent(setup.spec) && setup.spec.width <= |data| && col in setup.spec.relations
    ensures var r := MakeRelation(setup, s, data, num, col);
            r.Ok? ==> Made(s, r.value, 'R')
  {
    RelationShape(setup, s, data, num, col);
    ConversionFacts.RegisterAnnotationCounts(setup.spec, s, col, 'R', num, [data]);
    var (s1, uid) := RegisterAnnotation(setup.spec, s, col, 'R', num, [data]);
    RelationMade(s, s1, MakeRelation(setup, s, data, num, col), ValidateName(setup.names, data[col]).GetOr(""), col, uid);
  }

  /** An event either skipped, or written: the state after registration, with its stored arguments and its record. */
  lemma EventShape(setup: Setup, s: State, data: Row, num: nat, col: nat)
    requires Coherent(setup.spec) && setup.spec.width <= |data| && col in setup.spec.events
    ensures var r := MakeEvent(setup, s, data, num, col);
            r.Ok? ==>
              var n := ValidateName(setup.names, data[col]).GetOr("");
              var (s1, uid) := RegisterAnnotation(setup.spec, s, col, 'E', num, [data]);
              || r.value == s
              || (&& |r.value.output| == |s.output| + 1
                  && r.value == s1.(events := r.value.events, output := s1.output + [r.value.output[|s.output|]])
                  && r.value.events.Keys == s1.events.Keys + {n}
                  && r.value.output[|s.output|].uid == uid)
  {
  }

  /** Registration followed by a name's arguments and one record with the registered uid. */
  lemma EventMade(s: State, s1: State, r: Result<State, ConvError>, n: string, uid: string)
    requires s1.count == s.count['E' := Count(s.count, 'E') + 1] && uid == Uid('E', Count(s.count, 'E') + 1)
    requires s1.(count := s.count, localMap := s.localMap, globalMap := s.globalMap) == s
    requires r.Ok? ==>
               || r.value == s
               || (&& |r.value.output| == |s.output| + 1
                   && r.value == s1.(events := r.value.events, output := s1.output + [r.value.output[|s.output|]])
                   && r.value.events.Keys == s1.events.Keys + {n}
                   && r.value.output[|s.output|].uid == uid)
    ensures r.Ok? ==> Made(s, r.value, 'E')
  {
  }

  lemma MakeEventMade(setup: Setup, s: State, data: Row, num: nat, col: nat)
    requires Coherent(setup.spec) && setup.spec.width <= |data| && col in setup.spec.events
    ensures var r := MakeEvent(setup, s, data, num, col);
            r.Ok? ==> Made(s, r.value, 'E')
  {
    EventShape(setup, s, data, num, col);
    ConversionFacts.RegisterAnnotationCounts(setup.spec, s, col, 'E', num, [data]);
    var (s1, uid) := RegisterAnnotation(setup.spec, s, col, 'E', num, [data]);
    EventMade(s, s1, MakeEvent(setup, s, data, num, col), ValidateName(setup.names, data[col]).GetOr(""), uid);
  }

  lemma MakeNormalizationMade(setup: Setup, s: State, data: Row, num: nat, col: nat)
    requires Coherent(setup.spec) && setup.spec.width <= |data| && col in setup.spec.normalizations
    ensures var r := MakeNormalization(setup, s, data, num, col);
            r.Ok? ==> Made(s, r.value, 'N')
  {
  }

  lemma MakeAttributeMade(setup: Setup, s: State, data: Row, num: nat, col: nat)
    requires Coherent(setup.spec) && setup.spec.width <= |data| && col in setup.spec.attributes
    ensures var r := MakeAttribute(setup, s, data, num, col);
            r.Ok? ==> Made(s, r.value, 'A')
  {
  }

  lemma MakeGrows(setup: Setup, s: State, kind: Kind, data: Row, num: nat, col: nat)
    requires Coherent(setup.spec) && setup.spec.width <= |data| && ColumnOf(setup.spec, kind, col)
    ensures var r := Make(setup, s, kind, data, num, col);
            r.Ok? ==> Grows(s, r.value)
  {
    var r := Make(setup, s, kind, data, num, col);
    if r.Ok? {
      match kind
      case Relations => MakeRelationMade(setup, s, data, num, col); MadeGrows(s, r.value, 'R');
      case Events => MakeEventMade(setup, s, data, num, col); MadeGrows(s, r.value, 'E');
      case Normalizations => MakeNormalizationMade(setup, s, data, num, col); MadeGrows(s, r.value, 'N');
      case Attributes => MakeAttributeMade(setup, s, data, num, col); MadeGrows(s, r.value, 'A');
    }
  }

  // ---------------------------------------------------------------------------
  // Annotation columns

  lemma {:induction false} RowsFromGrows(setup: Setup, s: State, seg: seq<Row>, kind: Kind, col: nat, i: nat)
    requires Coherent(setup.spec) && RowsFit(setup.spec, seg) && ColumnOf(setup.spec, kind, col) && i <= |seg|
    ensures var r := RowsFrom(setup, s, seg, kind, col, i);
            r.Ok? ==> Grows(s, r.value)
    decreases |seg| - i
  {
    if i < |seg| {
      var r1 := Make(setup, s, kind, seg[i], i + 1, col);
      if r1.Ok? {
        MakeGrows(setup, s, kind, seg[i], i + 1, col);
        RowsFromGrows(setup, r1.value, seg, kind, col, i + 1);
        var r := RowsFrom(setup, s, seg, kind, col, i);
        if r.Ok? {
          GrowsTransitive(s, r1.value, r.value);
        }
      }
    }
  }

  lemma {:induction false} ColumnsFromGrows(setup: Setup, s: State, seg: seq<Row>, kind: Kind, c: nat)
    requires Coherent(setup.spec) && RowsFit(setup.spec, seg) && c <= setup.spec.width
    ensures var r := ColumnsFrom(setup, s, seg, kind, c);
            r.Ok? ==> Grows(s, r.value)
    decreases setup.spec.width - c
  {
    if c < setup.spec.width {
      if ColumnOf(setup.spec, kind, c) {
        var r1 := RowsFrom(setup, s, seg, kind, c, 0);
        if r1.Ok? {
          RowsFromGrows(setup, s, seg, kind, c, 0);
          ColumnsFromGrows(setup, r1.value, seg, kind, c + 1);
          var r := ColumnsFrom(setup, s, seg, kind, c);
          if r.Ok? {
            GrowsTransitive(s, r1.value, r.value);
          }
        }
      } else {
        ColumnsFromGrows(setup, s, seg, kind, c + 1);
      }
    }
  }

  lemma AnnotationsGrow(setup: Setup, s: State, seg: seq<Row>)
    requires Coherent(setup.spec) && RowsFit(setup.spec, seg)
    ensures var r := Annotations(setup, s, seg);
            r.Ok? ==> Grows(s, r.value)
  {
    var r1 := ColumnsFrom(setup, s, seg, Relations, 0);
    if r1.Ok? {
      ColumnsFromGrows(setup, s, seg, Relations, 0);
      var r2 := ColumnsFrom(setup, r1.value, seg, Events, 0);
      if r2.Ok? {
        ColumnsFromGrows(setup, r1.value, seg, Events, 0);
        GrowsTransitive(s, r1.value, r2.value);
        var r3 := ColumnsFrom(setup, r2.value, seg, Normalizations, 0);
        if r3.Ok? {
          ColumnsFromGrows(setup, r2.value, seg, Normalizations, 0);
          GrowsTransitive(s, r2.value, r3.value);
          ColumnsFromGrows(setup, r3.value, seg, Attributes, 0);
          var r := ColumnsFrom(setup, r3.value, seg, Attributes, 0);
          if r.Ok? {
            GrowsTransitive(s, r3.value, r.value);
          }
        }
      }
    }
  }

  // ---------------------------------------------------------------------------
  // Entity columns

  lemma MakeEntityGrows(setup: Setup, s: State, rows: seq<Row>, num: nat, col: nat, start: nat, end: nat)
    requires Coherent(setup.spec) && EntityRows(setup.spec, rows, col) && start <= end <= |setup.text|
    ensures var r := MakeEntity(setup, s, rows, num, col, start, end);
            r.Ok? ==> Grows(s, r.value)
  {
    var r := MakeEntity(setup, s, rows, num, col, start, end);
    if r.Ok? {
      MakeEntityMade(setup, s, rows, num, col, start, end);
      MadeGrows(s, r.value, 'T');
    }
  }

  lemma {:induction false} PosFromGrows(setup: Setup, s: State, seg: seq<Row>, offsets: seq<Span>, col: nat, i: nat)
    requires Coherent(setup.spec) && Offsetting(setup, seg, offsets) && col < setup.spec.width && i <= |seg|
    ensures var r := PosFrom(setup, s, seg, offsets, col, i);
            r.Ok? ==> Grows(s, r.value)
    decreases |seg| - i
  {
    if i < |seg| {
      var val := seg[i][col];
      if val != "" && val != "NULL" {
        var r1 := MakeEntity(setup, s, [seg[i]], i + 1, col, offsets[i].0, offsets[i].1);
        if r1.Ok? {
          MakeEntityGrows(setup, s, [seg[i]], i + 1, col, offsets[i].0, offsets[i].1);
          PosFromGrows(setup, r1.value, seg, offsets, col, i + 1);
          var r := PosFrom(setup, s, seg, offsets, col, i);
          if r.Ok? {
            GrowsTransitive(s, r1.value, r.value);
          }
        }
      } else {
        PosFromGrows(setup, s, seg, offsets, col, i + 1);
      }
    }
  }

  lemma BieoStepGrows(setup: Setup, s: State, seg: seq<Row>, offsets: seq<Span>, col: nat, i: nat, open: seq<Row>, start: nat)
    requires Coherent(setup.spec) && Offsetting(setup, seg, offsets) && col < setup.spec.width
    requires i < |seg| && OpenSpan(setup, seg, offsets, i, open, start)
    ensures var r := BieoStep(setup, s, seg, offsets, col, i, open, start);
            r.Ok? ==> Grows(s, r.value.state)
  {
    var val := seg[i][col];
    if StartsWith(val, "B-") || val == "O" {
      if |open| > 0 {
        MakeEntityGrows(setup, s, open, FirstRow(i, |open|), col, start, offsets[i - 1].1);
      }
    } else if StartsWith(val, "E-") {
      if |open| > 0 {
        MakeEntityGrows(setup, s, open + [seg[i]], FirstRow(i + 1, |open| + 1), col, start, offsets[i].1);
      } else {
        MakeEntityGrows(setup, s, [seg[i]], i + 1, col, offsets[i].0, offsets[i].1);
      }
    }
  }

  lemma {:induction false} BieoFromGrows(setup: Setup, s: State, seg: seq<Row>, offsets: seq<Span>, col: nat, i: nat, open: seq<Row>, start: nat)
    requires Coherent(setup.spec) && Offsetting(setup, seg, offsets) && col < setup.spec.width
    requires OpenSpan(setup, seg, offsets, i, open, start)
    ensures var r := BieoFrom(setup, s, seg, offsets, col, i, open, start);
            r.Ok? ==> Grows(s, r.value.state)
    decreases |seg| - i
  {
    if i < |seg| {
      var p := BieoStep(setup, s, seg, offsets, col, i, open, start);
      if p.Ok? {
        BieoStepGrows(setup, s, seg, offsets, col, i, open, start);
        var q := p.value;
        BieoFromGrows(setup, q.state, seg, offsets, col, i + 1, q.open, q.start);
        var r := BieoFrom(setup, s, seg, offsets, col, i, open, start);
        if r.Ok? {
          GrowsTransitive(s, q.state, r.value.state);
        }
      }
    }
  }

  lemma EntityColumnGrows(setup: Setup, s: State, seg: seq<Row>, offsets: seq<Span>, col: nat)
    requires Coherent(setup.spec) && Offsetting(setup, seg, offsets) && col < setup.spec.width
    ensures var r := EntityColumn(setup, s, seg, offsets, col);
            r.Ok? ==> Grows(s, r.value)
  {
    var p := BieoFrom(setup, s, seg, offsets, col, 0, [], 0);
    if p.Ok? {
      BieoFromGrows(setup, s, seg, offsets, col, 0, [], 0);
      var q := p.value;
      if |q.open| > 0 {
        MakeEntityGrows(setup, q.state, q.open, FirstRow(|seg|, |q.open|), col, q.start, offsets[|seg| - 1].1);
        var r := EntityColumn(setup, s, seg, offsets, col);
        if r.Ok? {
          GrowsTransitive(s, q.state, r.value);
        }
      }
    }
  }

  lemma {:induction false} EntitiesFromGrows(setup: Setup, s: State, seg: seq<Row>, offsets: seq<Span>, c: nat)
    requires Coherent(setup.spec) && Offsetting(setup, seg, offsets) && c <= setup.spec.width
    ensures var r := EntitiesFrom(setup, s, seg, offsets, c);
            r.Ok? ==> Grows(s, r.value)
    decreases setup.spec.width - c
  {
    if c < setup.spec.width {
      if c in setup.spec.entities {
        var r1 := EntityColumn(setup, s, seg, offsets, c);
        if r1.Ok? {
          EntityColumnGrows(setup, s, seg, offsets, c);
          EntitiesFromGrows(setup, r1.value, seg, offsets, c + 1);
          var r := EntitiesFrom(setup, s, seg, offsets, c);
          if r.Ok? {
            GrowsTransitive(s, r1.value, r.value);
          }
        }
      } else {
        EntitiesFromGrows(setup, s, seg, offsets, c + 1);
      }
    }
  }

  // ---------------------------------------------------------------------------
  // Segments and files

  lemma TokensAndEntitiesGrow(setup: Setup, s: State, seg: seq<Row>, start: nat)
    requires Coherent(setup.spec) && |seg| > 0 && RowsFit(setup.spec, seg)
    ensures var r := TokensAndEntities(setup, s, seg, start);
            r.Ok? ==> Grows(s, r.value.0)
  {
    var spec := setup.spec;
    var s0 := s.(localMap := map[]);
    var offsets := Offsets(setup.text, Tokens(seg, spec.token.value), start, s.lineCount);
    if offsets.Ok? {
      OffsetsOrdered(setup.text, Tokens(seg, spec.token.value), start, s.lineCount);
      var r1 := if spec.posTag.Some? then PosFrom(setup, s0, seg, offsets.value, spec.posTag.value, 0) else Ok(s0);
      if r1.Ok? {
        if spec.posTag.Some? {
          PosFromGrows(setup, s0, seg, offsets.value, spec.posTag.value, 0);
        }
        EntitiesFromGrows(setup, r1.value, seg, offsets.value, 0);
        var r := TokensAndEntities(setup, s, seg, start);
        if r.Ok? {
          GrowsTransitive(s0, r1.value, r.value.0);
        }
      }
    }
  }

  lemma {:induction false} LocalFromGrows(setup: Setup, s: State, segs: seq<seq<Row>>, k: nat, offset: nat)
    requires Fits(setup.spec, segs) && k <= |segs|
    ensures var r := LocalFrom(setup, s, segs, k, offset);
            r.Ok? ==> Grows(s, r.value)
    decreases |segs| - k
  {
    if k < |segs| {
      LocalStep(setup, s, segs, k, offset);
      var r1 := TokensAndEntities(setup, s, segs[k], offset);
      if r1.Ok? {
        var (s1, end) := r1.value;
        TokensAndEntitiesGrow(setup, s, segs[k], offset);
        var r2 := Annotations(setup, s1, segs[k]);
        if r2.Ok? {
          AnnotationsGrow(setup, s1, segs[k]);
          GrowsTransitive(s, s1, r2.value);
          var s3 := Advance(r2.value, segs[k]);
          LocalFromGrows(setup, s3, segs, k + 1, end);
          var r := LocalFrom(setup, s, segs, k, offset);
          if r.Ok? {
            GrowsTransitive(s, s3, r.value);
          }
        }
      }
    }
  }

  lemma {:induction false} EntityPassFromGrows(setup: Setup, s: State, segs: seq<seq<Row>>, k: nat, offset: nat, maps: seq<IdMap>)
    requires Fits(setup.spec, segs) && k <= |segs|
    ensures var r := EntityPassFrom(setup, s, segs, k, offset, maps);
            r.Ok? ==> Grows(s, r.value.0)
    decreases |segs| - k
  {
    if k < |segs| {
      EntityPassStep(setup, s, segs, k, offset, maps);
      var r1 := TokensAndEntities(setup, s, segs[k], offset);
      if r1.Ok? {
        var (s1, end) := r1.value;
        TokensAndEntitiesGrow(setup, s, segs[k], offset);
        var s2 := Advance(s1, segs[k]);
        EntityPassFromGrows(setup, s2, segs, k + 1, end, maps + [s1.localMap]);
        var r := EntityPassFrom(setup, s, segs, k, offset, maps);
        if r.Ok? {
          GrowsTransitive(s, s2, r.value.0);
        }
      }
    }
  }

  lemma {:induction false} AnnotationPassFromGrows(setup: Setup, s: State, segs: seq<seq<Row>>, maps: seq<IdMap>, k: nat)
    requires Fits(setup.spec, segs) && k <= |segs| == |maps|
    ensures var r := AnnotationPassFrom(setup, s, segs, maps, k);
            r.Ok? ==> Grows(s, r.value)
    decreases |segs| - k
  {
    if k < |segs| {
      AnnotationPassStep(setup, s, segs, maps, k);
      var s0 := s.(localMap := maps[k]);
      var r1 := Annotations(setup, s0, segs[k]);
      if r1.Ok? {
        AnnotationsGrow(setup, s0, segs[k]);
        var s2 := Advance(r1.value, segs[k]);
        AnnotationPassFromGrows(setup, s2, segs, maps, k + 1);
        var r := AnnotationPassFrom(setup, s, segs, maps, k);
        if r.Ok? {
          GrowsTransitive(s, s2, r.value);
        }
      }
    }
  }

  lemma WithGlobalsGrows(setup: Setup, s: State, segs: seq<seq<Row>>)
    requires Fits(setup.spec, segs)
    ensures var r := WithGlobals(setup, s, segs);
            r.Ok? ==> Grows(s, r.value)
  {
    var s0 := s.(globalMap := Some(map[]));
    var r1 := EntityPassFrom(setup, s0, segs, 0, 0, []);
    if r1.Ok? {
      var (s1, maps) := r1.value;
      EntityPassFromGrows(setup, s0, segs, 0, 0, []);
      EntityPassMaps(setup, s0, segs, 0, 0, []);
      var s2 := s1.(globalCount := 0, lineCount := 1);
      GrowsSame(s, s0);
      GrowsSame(s1, s2);
      GrowsTransitive(s, s0, s1);
      GrowsTransitive(s, s1, s2);
      AnnotationPassFromGrows(setup, s2, segs, maps, 0);
      var r := WithGlobals(setup, s, segs);
      assert r == AnnotationPassFrom(setup, s2, segs, maps, 0);
      if r.Ok? {
        GrowsTransitive(s, s2, r.value);
      }
    }
  }

  /**
   * `convert` writes an annotation file whose records carry pairwise different uids, each a
   * type letter and a count issued for that file, and it only ever adds to the names collected
   * for the configuration file.
   */
  lemma ConvertedUniqueUids(setup: Setup, s: State, segs: seq<seq<Row>>)
    requires Fits(setup.spec, segs)
    ensures var r := Converted(setup, s, segs);
            r.Ok? ==> UniqueUids(r.value) && NamesGrow(s, r.value)
  {
    var s0 := Reset(s).(output := []);
    assert UniqueUids(s0);
    if HasGlobalRefs(setup.spec) {
      WithGlobalsGrows(setup, s0, segs);
    } else {
      LocalFromGrows(setup, s0, segs, 0, 0);
    }
  }
}
