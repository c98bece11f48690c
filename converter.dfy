/**
 * `OtplBratConverter`: the converter object, whose counters, id maps, collected names and
 * annotation file are fields its methods update in place. Each method is proved to end in the
 * state (or with the error) the functions of module `Conversion` give for the state it started in.
 */
module Converter {
  import opened Wrappers
  import opened Text
  import opened ColSpec
  import Brat
  import opened Conversion
  import ConversionFacts

  /** A step that changes the state ends either in the specified state without error, or with the specified error. */
  predicate Agrees(r: Result<State, ConvError>, s: State, err: Option<ConvError>)
  {
    if r.Ok? then err.None? && s == r.value else err == Some(r.error)
  }

  /** A step that computes a value gives either the specified value without error, or the specified error. */
  predicate Yields<T(==)>(r: Result<T, ConvError>, v: T, err: Option<ConvError>)
  {
    if r.Ok? then err.None? && v == r.value else err == Some(r.error)
  }

  /**
   * The loop of `_register` as it updates one id map: `setdefault` of `uid` under the number of
   * each row, the first numbered `base`. The two maps are independent, so `Register` runs it once per map.
   */
  method RegisterInto(m: IdMap, col: nat, enum: Option<nat>, base: nat, rows: seq<Row>, uid: string) returns (r: IdMap)
    requires enum.Some? ==> forall k :: 0 <= k < |rows| ==> enum.value < |rows[k]|
    ensures r == RegisterRows(m, col, enum, base, rows, uid, |rows|)
  {
    r := m;
    var idx := 0;
    while idx < |rows|
      invariant idx <= |rows|
      invariant r == RegisterRows(m, col, enum, base, rows, uid, idx)
    {
      r := SetDefault(r, col, RowKey(enum, base + idx, rows[idx]), uid);
      idx := idx + 1;
    }
  }

  class OtplBratConverter {
    var colspec: Option<Spec>
    var text: string
    var nameDict: map<string, string>

    /**
     * The attributes a conversion updates (`_count`, `_globalMap`, `_globalCount`, `_lineCount`,
     * `_localMap`, the collected `_entities`, `_relations`, `_events`, `_normalizations`,
     * `_attributes`, and the brat records written so far), kept together in one record.
     */
    var state: State

    /** The fields a conversion only reads. */
    function Given(): Setup
      requires colspec.Some?
      reads this`colspec, this`text, this`nameDict
    {
      Setup(colspec.value, text, nameDict)
    }

    predicate Ready()
      reads this`colspec
    {
      colspec.Some? && Coherent(colspec.value)
    }

    constructor()
      ensures colspec.None? && text == "" && nameDict == map[] && state == Initial
    {
      colspec := None;
      text := "";
      nameDict := map[];
      state := Initial;
    }

    /** `set_name_dict`. */
    method SetNameDict(names: map<string, string>)
      modifies this`nameDict
      ensures nameDict == names
    {
      nameDict := names;
    }

    /**
     * `set_colspec`. The specification is kept cut down to the columns it names: the converter
     * never asks it for its width, so a row may end after the last column the conversion reads.
     */
    method SetColspec(spec: Spec)
      modifies this`colspec
      ensures colspec == Some(Narrowed(spec))
      ensures Coherent(spec) ==> Ready()
    {
      colspec := Some(Narrowed(spec));
      if Coherent(spec) {
        ConversionFacts.NarrowedCoherent(spec);
      }
    }

    /** `_resetStates`. */
    method ResetStates()
      modifies this`state
      ensures state == Reset(old(state))
    {
      state := state.(count := map[], globalMap := None, globalCount := 0, lineCount := 1, localMap := map[]);
    }

    /** `_register`: the next uid of type `letter`, given to every row in the local map and, when kept, the global map. */
    method Register(col: nat, letter: char, num: nat, rows: seq<Row>) returns (uid: string)
      requires colspec.Some? && EnumsFit(colspec.value, rows)
      modifies this`state
      ensures (state, uid) == RegisterAnnotation(colspec.value, old(state), col, letter, num, rows)
    {
      var spec, s := colspec.value, state;
      var n := Count(s.count, letter) + 1;
      uid := Uid(letter, n);
      var local := RegisterInto(s.localMap, col, spec.localEnum, num, rows, uid);
      var global := s.globalMap;
      if global.Some? {
        var g := RegisterInto(global.value, col, spec.globalEnum, s.globalCount + num, rows, uid);
        global := Some(g);
      }
      assert global == RegisterGlobal(s.globalMap, col, spec.globalEnum, s.globalCount + num, rows, uid, |rows|);
      state := s.(count := s.count[letter := n], localMap := local, globalMap := global);
    }

    /** `_yieldOffsets`: the span of each token of the segment, searched forward from `start`. */
    method YieldOffsets(start: nat, seg: seq<Row>) returns (offsets: seq<Span>, err: Option<ConvError>)
      requires Ready() && RowsFit(colspec.value, seg)
      ensures Yields(Offsets(text, Tokens(seg, colspec.value.token.value), start, state.lineCount), offsets, err)
    {
      var c := colspec.value.token.value;
      var line := state.lineCount;
      ghost var tokens := Tokens(seg, c);
      ghost var want := Offsets(text, tokens, start, line);
      var pos: nat := start;
      offsets := [];
      assert tokens[0..] == tokens;
      assert Prefixed(offsets, want) == want by {
        if want.Ok? {
          assert offsets + want.value == want.value;
        }
      }
      var idx := 0;
      while idx < |seg|
        invariant idx <= |seg|
        invariant want == Prefixed(offsets, Offsets(text, tokens[idx..], pos, line + idx))
      {
        var token := seg[idx][c];
        assert tokens[idx] == token;
        var update := Find(text, token, pos);
        if update.None? {
          assert tokens[idx..][0] == token;
          return [], Some(TokenNotFound(token, line + idx, pos));
        }
        var span: Span := (update.value, update.value + |token|);
        var next := idx + 1;
        OffsetsAdvance(text, tokens, idx, next, pos, line, offsets, span);
        offsets := offsets + [span];
        pos := span.1;
        idx := next;
      }
      assert tokens[idx..] == [] && offsets + [] == offsets;
      err := None;
    }

    /** `_makeEntity`. */
    method MakeEntity(rows: seq<Row>, num: nat, col: nat, start: nat, end: nat) returns (err: Option<ConvError>)
      requires Ready() && EntityRows(colspec.value, rows, col) && start <= end <= |text|
      modifies this`state
      ensures Agrees(Conversion.MakeEntity(Given(), old(state), rows, num, col, start, end), state, err)
    {
      var off := if colspec.value.posTag == Some(col) then 0 else 2;
      var raw := Drop(rows[0][col], off);
      var name := ValidateName(nameDict, raw);
      if name.None? {
        return None;
      }
      if off == 2 && !SpanAgrees(rows, col, raw) {
        return Some(MixedSpan(col + 1));
      }
      var uid := Register(col, 'T', num, rows);
      state := state.(entities := state.entities + {name.value},
                      output := state.output + [Brat.Entity(uid, name.value, start, end, text[start..end])]);
      return None;
    }

    /** `_processPoS`. */
    method ProcessPoS(seg: seq<Row>, offsets: seq<Span>) returns (err: Option<ConvError>)
      requires Ready() && Offsetting(Given(), seg, offsets)
      modifies this`state
      ensures colspec.value.posTag.None? ==> err.None? && state == old(state)
      ensures colspec.value.posTag.Some? ==>
        Agrees(PosFrom(Given(), old(state), seg, offsets, colspec.value.posTag.value, 0), state, err)
    {
      if colspec.value.posTag.None? {
        return None;
      }
      var col := colspec.value.posTag.value;
      ghost var s0 := state;
      var idx := 0;
      while idx < |seg|
        invariant idx <= |seg|
        invariant PosFrom(Given(), s0, seg, offsets, col, 0) == PosFrom(Given(), state, seg, offsets, col, idx)
      {
        var data := seg[idx];
        var val := data[col];
        if val != "" && val != "NULL" {
          err := MakeEntity([data], idx + 1, col, offsets[idx].0, offsets[idx].1);
          if err.Some? {
            return;
          }
        }
        idx := idx + 1;
      }
      return None;
    }

    /** One row of the loop of `_parseBIEO`, given the rows buffered so far and where the first of them starts. */
    method ParseBieoRow(seg: seq<Row>, col: nat, offsets: seq<Span>, idx: nat, open: seq<Row>, start: nat)
      returns (open': seq<Row>, start': nat, err: Option<ConvError>)
      requires Ready() && Offsetting(Given(), seg, offsets) && col < colspec.value.width
      requires idx < |seg| && OpenSpan(Given(), seg, offsets, idx, open, start)
      modifies this`state
      ensures Yields(BieoStep(Given(), old(state), seg, offsets, col, idx, open, start), Parsed(state, open', start'), err)
    {
      var data := seg[idx];
      var val := data[col];
      open', start' := open, start;
      if StartsWith(val, "B-") {
        if |open| > 0 {
          err := MakeEntity(open, FirstRow(idx, |open|), col, start, offsets[idx - 1].1);
          if err.Some? {
            return;
          }
        }
        start' := offsets[idx].0;
        open' := [data];
      } else if StartsWith(val, "E-") {
        if |open| > 0 {
          open' := open + [data];
          err := MakeEntity(open', FirstRow(idx + 1, |open'|), col, start, offsets[idx].1);
          if err.Some? {
            return;
          }
          open' := [];
        } else {
          err := MakeEntity([data], idx + 1, col, offsets[idx].0, offsets[idx].1);
          if err.Some? {
            return;
          }
        }
      } else if StartsWith(val, "I-") {
        if |open| == 0 {
          start' := offsets[idx].0;
          open' := [data];
        } else {
          open' := open + [data];
        }
      } else if val == "O" {
        if |open| > 0 {
          err := MakeEntity(open, FirstRow(idx, |open|), col, start, offsets[idx - 1].1);
          if err.Some? {
            return;
          }
          open' := [];
        }
      }
      err := None;
    }

    /** `_parseBIEO`: the spans of one BIO column; the span still open at the end is returned with its start. */
    method ParseBieo(seg: seq<Row>, col: nat, offsets: seq<Span>) returns (open: seq<Row>, start: nat, err: Option<ConvError>)
      requires Ready() && Offsetting(Given(), seg, offsets) && col < colspec.value.width
      modifies this`state
      ensures Yields(BieoFrom(Given(), old(state), seg, offsets, col, 0, [], 0), Parsed(state, open, start), err)
    {
      ghost var s0 := state;
      start, open := 0, [];
      var idx := 0;
      while idx < |seg|
        invariant idx <= |seg| && OpenSpan(Given(), seg, offsets, idx, open, start)
        invariant BieoFrom(Given(), s0, seg, offsets, col, 0, [], 0)
               == BieoFrom(Given(), state, seg, offsets, col, idx, open, start)
      {
        open, start, err := ParseBieoRow(seg, col, offsets, idx, open, start);
        if err.Some? {
          return;
        }
        idx := idx + 1;
      }
      err := None;
    }

    /** `_processEntities`: every BIO column, and the span each leaves open at the end of the segment. */
    method ProcessEntities(seg: seq<Row>, offsets: seq<Span>) returns (err: Option<ConvError>)
      requires Ready() && Offsetting(Given(), seg, offsets)
      modifies this`state
      ensures Agrees(EntitiesFrom(Given(), old(state), seg, offsets, 0), state, err)
    {
      ghost var s0 := state;
      var c := 0;
      while c < colspec.value.width
        invariant c <= colspec.value.width
        invariant EntitiesFrom(Given(), s0, seg, offsets, 0) == EntitiesFrom(Given(), state, seg, offsets, c)
      {
        if c in colspec.value.entities {
          var open, start;
          open, start, err := ParseBieo(seg, c, offsets);
          if err.Some? {
            return;
          }
          if |open| > 0 {
            err := MakeEntity(open, FirstRow(|seg|, |open|), c, start, offsets[|seg| - 1].1);
            if err.Some? {
              return;
            }
          }
        }
        c := c + 1;
      }
      return None;
    }

    /** `_makeRelation`. */
    method MakeRelation(data: Row, num: nat, col: nat) returns (err: Option<ConvError>)
      requires Ready() && colspec.value.width <= |data| && col in colspec.value.relations
      modifies this`state
      ensures Agrees(Conversion.MakeRelation(Given(), old(state), data, num, col), state, err)
    {
      var spec := colspec.value;
      var name := data[col];
      var refCol := col - 1;
      if data[refCol] != "" && name != "" && data[refCol] != "0" && name != "NULL" {
        var valid := ValidateName(nameDict, name);
        if valid.None? {
          return None;
        }
        var uid := Register(col, 'R', num, [data]);
        var source := LocalTargetId(spec, state.localMap, spec.relations[col], data, num);
        if source.Err? {
          return Some(source.error);
        }
        var target := ReferencedId(spec, state.globalMap, state.localMap, data, refCol);
        if target.Err? {
          return Some(target.error);
        }
        var cols := if valid.value in state.relations then state.relations[valid.value] else {};
        state := state.(relations := state.relations[valid.value := cols + {col}],
                        output := state.output + [Brat.NewRelation(uid, valid.value, source.value, target.value)]);
      }
      return None;
    }

    /** `_storeEventArguments`: the pairs of the first event of a name, made optional in place where a later one lacks the argument. */
    method StoreEventArguments(name: string, pairs: seq<(nat, bool)>) returns (err: Option<ConvError>)
      modifies this`state
      ensures Yields(Conversion.StoreEventArguments(old(state.events), name, pairs), state.events, err)
      ensures state == old(state).(events := state.events)
    {
      if name !in state.events {
        state := state.(events := state.events[name := pairs]);
        return None;
      }
      var stored := state.events[name];
      var idx := 0;
      while idx < |pairs|
        invariant idx <= |pairs|
        invariant WeakenFrom(old(state.events)[name], pairs, 0) == WeakenFrom(stored, pairs, idx)
      {
        if !pairs[idx].1 {
          if idx >= |stored| {
            return Some(ArgumentOverflow(name));
          }
          if stored[idx].1 {
            stored := stored[idx := (pairs[idx].0, false)];
          }
        }
        idx := idx + 1;
      }
      state := state.(events := state.events[name := stored]);
      return None;
    }

    /** `_makeEvent`. */
    method MakeEvent(data: Row, num: nat, col: nat) returns (err: Option<ConvError>)
      requires Ready() && colspec.value.width <= |data| && col in colspec.value.events
      modifies this`state
      ensures Agrees(Conversion.MakeEvent(Given(), old(state), data, num, col), state, err)
    {
      var spec := colspec.value;
      var targets := spec.events[col];
      var name := data[col];
      var trigger := data[targets.trigger];
      if name != "" && name != "NULL" && trigger != "" && trigger != "0" {
        var valid := ValidateName(nameDict, name);
        if valid.None? {
          return None;
        }
        var uid := Register(col, 'E', num, [data]);
        var triggerId := ReferencedId(spec, state.globalMap, state.localMap, data, targets.trigger);
        if triggerId.Err? {
          return Some(triggerId.error);
        }
        var ids := ArgIds(spec, state.globalMap, state.localMap, data, targets.args);
        if ids.Err? {
          return Some(ids.error);
        }
        err := StoreEventArguments(valid.value, Presence(targets.args, ids.value));
        if err.Some? {
          return;
        }
        state := state.(output := state.output + [Brat.Event(uid, valid.value, triggerId.value, Brat.Dict(ArgItems(ids.value, 0)))]);
      }
      return None;
    }

    /** `_makeNormalization`. */
    method MakeNormalization(data: Row, num: nat, col: nat) returns (err: Option<ConvError>)
      requires Ready() && colspec.value.width <= |data| && col in colspec.value.normalizations
      modifies this`state
      ensures Agrees(Conversion.MakeNormalization(Given(), old(state), data, num, col), state, err)
    {
      var spec := colspec.value;
      var value := data[col];
      if value != "" && value != "NULL" {
        var target := LocalTargetId(spec, state.localMap, spec.normalizations[col], data, num);
        if target.Err? {
          return Some(target.error);
        }
        var uid := Register(col, 'N', num, [data]);
        var nsId, shown := value, value;
        match SplitOnce(value, ' ') {
          case Some(p) => nsId, shown := p.0, p.1;
          case None =>
        }
        var name := Before(nsId, ':');
        if ValidateName(nameDict, name).None? {
          return None;
        }
        var ref := DatabaseRef(nsId);
        state := state.(normalizations := state.normalizations + {name},
                        output := state.output + [Brat.NewNormalization(uid, target.value, ref.0, ref.1, shown)]);
      }
      return None;
    }

    /** `_makeAttribute`. */
    method MakeAttribute(data: Row, num: nat, col: nat) returns (err: Option<ConvError>)
      requires Ready() && colspec.value.width <= |data| && col in colspec.value.attributes
      modifies this`state
      ensures Agrees(Conversion.MakeAttribute(Given(), old(state), data, num, col), state, err)
    {
      var spec := colspec.value;
      var name := data[col];
      if name != "" && name != "NULL" {
        var valid := ValidateName(nameDict, name);
        if valid.None? {
          return None;
        }
        var k := Count(state.count, 'A') + 1;
        state := state.(count := state.count['A' := k]);
        var target := LocalTargetId(spec, state.localMap, spec.attributes[col], data, num);
        if target.Err? {
          return Some(target.error);
        }
        var cols := if valid.value in state.attributes then state.attributes[valid.value] else {};
        state := state.(attributes := state.attributes[valid.value := cols + {col}],
                        output := state.output + [Brat.Attribute(Uid('A', k), valid.value, target.value, Some(""))]);
      }
      return None;
    }

    /** The maker method `_convertAnnotations` hands to `_processColumnsWith` for a kind of column. */
    method MakeWith(kind: Kind, data: Row, num: nat, col: nat) returns (err: Option<ConvError>)
      requires Ready() && colspec.value.width <= |data| && ColumnOf(colspec.value, kind, col)
      modifies this`state
      ensures Agrees(Make(Given(), old(state), kind, data, num, col), state, err)
    {
      match kind
      case Relations => err := MakeRelation(data, num, col);
      case Events => err := MakeEvent(data, num, col);
      case Normalizations => err := MakeNormalization(data, num, col);
      case Attributes => err := MakeAttribute(data, num, col);
    }

    /** The inner loop of `_processColumnsWith`: every row of the segment, numbered from 1, for one column. */
    method ProcessColumn(seg: seq<Row>, kind: Kind, col: nat) returns (err: Option<ConvError>)
      requires Ready() && RowsFit(colspec.value, seg) && ColumnOf(colspec.value, kind, col)
      modifies this`state
      ensures Agrees(RowsFrom(Given(), old(state), seg, kind, col, 0), state, err)
    {
      ghost var s0 := state;
      var row := 0;
      while row < |seg|
        invariant row <= |seg|
        invariant RowsFrom(Given(), s0, seg, kind, col, 0) == RowsFrom(Given(), state, seg, kind, col, row)
      {
        var next := row + 1;
        err := MakeWith(kind, seg[row], next, col);
        if err.Some? {
          return;
        }
        row := next;
      }
      return None;
    }

    /** `_processColumnsWith`: every column of the kind, in ascending order. */
    method ProcessColumnsWith(seg: seq<Row>, kind: Kind) returns (err: Option<ConvError>)
      requires Ready() && RowsFit(colspec.value, seg)
      modifies this`state
      ensures Agrees(ColumnsFrom(Given(), old(state), seg, kind, 0), state, err)
    {
      ghost var s0 := state;
      var c := 0;
      while c < colspec.value.width
        invariant c <= colspec.value.width
        invariant ColumnsFrom(Given(), s0, seg, kind, 0) == ColumnsFrom(Given(), state, seg, kind, c)
      {
        if ColumnOf(colspec.value, kind, c) {
          err := ProcessColumn(seg, kind, c);
          if err.Some? {
            return;
          }
        }
        c := c + 1;
      }
      return None;
    }

    /** `_convertTokensAndEntities`: gives the segment's local map and the end of its last token. */
    method ConvertTokensAndEntities(seg: seq<Row>, start: nat) returns (lmap: IdMap, end: nat, err: Option<ConvError>)
      requires Ready() && |seg| > 0 && RowsFit(colspec.value, seg)
      modifies this`state
      ensures Yields(TokensAndEntities(Given(), old(state), seg, start), (state, end), err)
      ensures err.None? ==> lmap == state.localMap
    {
      state := state.(localMap := map[]);
      var offsets;
      offsets, err := YieldOffsets(start, seg);
      if err.Some? {
        return map[], 0, err;
      }
      OffsetsOrdered(text, Tokens(seg, colspec.value.token.value), start, state.lineCount);
      err := ProcessPoS(seg, offsets);
      if err.Some? {
        return map[], 0, err;
      }
      err := ProcessEntities(seg, offsets);
      if err.Some? {
        return map[], 0, err;
      }
      return state.localMap, offsets[|offsets| - 1].1, None;
    }

    /** `_convertAnnotations`. */
    method ConvertAnnotations(seg: seq<Row>) returns (err: Option<ConvError>)
      requires Ready() && RowsFit(colspec.value, seg)
      modifies this`state
      ensures Agrees(Annotations(Given(), old(state), seg), state, err)
    {
      err := ProcessColumnsWith(seg, Relations);
      if err.Some? {
        return;
      }
      err := ProcessColumnsWith(seg, Events);
      if err.Some? {
        return;
      }
      err := ProcessColumnsWith(seg, Normalizations);
      if err.Some? {
        return;
      }
      err := ProcessColumnsWith(seg, Attributes);
    }

    /** `_convertLocal`: each segment in one pass, the text searched on from where the last segment ended. */
    method ConvertLocal(segs: seq<seq<Row>>) returns (err: Option<ConvError>)
      requires colspec.Some? && Fits(colspec.value, segs)
      modifies this`state
      ensures Agrees(LocalFrom(Given(), old(state).(output := []), segs, 0, 0), state, err)
    {
      state := state.(output := []);
      ghost var s0 := state;
      var offset := 0;
      var k := 0;
      while k < |segs|
        invariant k <= |segs|
        invariant LocalFrom(Given(), s0, segs, 0, 0) == LocalFrom(Given(), state, segs, k, offset)
      {
        var seg := segs[k];
        LocalStep(Given(), state, segs, k, offset);
        var unused, end;
        unused, end, err := ConvertTokensAndEntities(seg, offset);
        if err.Some? {
          return;
        }
        offset := end;
        err := ConvertAnnotations(seg);
        if err.Some? {
          return;
        }
        state := Advance(state, seg);
        k := k + 1;
      }
      return None;
    }

    /** `_convertWithGlobals`: the entities of all segments first, keeping each local map, then the other annotations. */
    method ConvertWithGlobals(segs: seq<seq<Row>>) returns (err: Option<ConvError>)
      requires colspec.Some? && Fits(colspec.value, segs)
      modifies this`state
      ensures Agrees(WithGlobals(Given(), old(state).(output := []), segs), state, err)
    {
      state := state.(globalMap := Some(map[]), output := []);
      ghost var s0 := state;
      var offset := 0;
      var maps: seq<IdMap> := [];
      var k := 0;
      while k < |segs|
        invariant k <= |segs| && |maps| == k
        invariant EntityPassFrom(Given(), s0, segs, 0, 0, []) == EntityPassFrom(Given(), state, segs, k, offset, maps)
      {
        var seg := segs[k];
        EntityPassStep(Given(), state, segs, k, offset, maps);
        var lmap, end;
        lmap, end, err := ConvertTokensAndEntities(seg, offset);
        if err.Some? {
          return;
        }
        maps := maps + [lmap];
        offset := end;
        state := Advance(state, seg);
        k := k + 1;
      }
      state := state.(globalCount := 0, lineCount := 1);
      ghost var s1 := state;
      k := 0;
      while k < |segs|
        invariant k <= |segs|
        invariant AnnotationPassFrom(Given(), s1, segs, maps, 0) == AnnotationPassFrom(Given(), state, segs, maps, k)
      {
        var seg := segs[k];
        AnnotationPassStep(Given(), state, segs, maps, k);
        state := state.(localMap := maps[k]);
        err := ConvertAnnotations(seg);
        if err.Some? {
          return;
        }
        state := Advance(state, seg);
        k := k + 1;
      }
      return None;
    }

    /**
     * `convert`: false without a column specification; otherwise the text is taken, the states
     * reset and the segments converted, false when the conversion raises.
     */
    method Convert(segs: seq<seq<Row>>, content: string) returns (ok: bool)
      modifies this`text, this`state
      ensures old(colspec).None? ==> !ok && text == old(text) && state == old(state)
      ensures colspec.Some? ==> text == content
      ensures colspec.Some? && !Fits(colspec.value, segs) ==> !ok
      ensures colspec.Some? && segs == [] ==> ok
      ensures colspec.Some? && Fits(colspec.value, segs) ==>
        (ok <==> Converted(Given(), old(state), segs).Ok?) &&
        (ok ==> state == Converted(Given(), old(state), segs).value)
    {
      if colspec.None? {
        return false;
      }
      text := content;
      if !Fits(colspec.value, segs) {
        return false;
      }
      ResetStates();
      var err;
      if HasGlobalRefs(colspec.value) {
        err := ConvertWithGlobals(segs);
      } else {
        err := ConvertLocal(segs);
      }
      return err.None?;
    }

    /** `_elicitShortcutFor`, given the target column of each column. */
    method ElicitShortcut(targets: seq<nat>) returns (r: Result<string, ConvError>)
      requires colspec.Some?
      ensures r == Shortcut(colspec.value, targets)
    {
      var spec := colspec.value;
      var coltype: Option<Role> := None;
      var i := 0;
      while i < |targets|
        invariant i <= |targets|
        invariant CommonType(spec, targets, 0, None) == CommonType(spec, targets, i, coltype)
      {
        var update := PropertyTargetType(spec, targets[i]);
        if update.Err? {
          return Err(NoShortcut(targets[i] + 1));
        }
        if coltype.None? {
          coltype := Some(update.value);
        } else if coltype != Some(update.value) {
          coltype := Some(Annotation);
          break;
        }
        i := i + 1;
      }
      if coltype == Some(Annotation) {
        return Ok("<ANY>");
      } else if coltype.Some? && coltype.value in EntityColumns {
        return Ok("<ENTITY>");
      } else if coltype == Some(Relation) {
        return Ok("<RELATION>");
      } else if coltype == Some(Event) {
        return Ok("<EVENT>");
      }
      return Err(IllegalShortcut);
    }

    /** `_writeEventType`: the line for an event name, one `ColN[?]:<shortcut>` per argument position. */
    method WriteEventType(name: string, pairs: seq<(nat, bool)>) returns (r: Result<string, ConvError>)
      requires colspec.Some?
      ensures r == EventTypeLine(colspec.value, name, pairs)
    {
      var arguments: seq<string> := [];
      assert pairs[0..] == pairs;
      assert Prefixed(arguments, EventArguments(colspec.value, pairs)) == EventArguments(colspec.value, pairs) by {
        var r := EventArguments(colspec.value, pairs);
        if r.Ok? {
          assert arguments + r.value == r.value;
        }
      }
      var i := 0;
      while i < |pairs|
        invariant i <= |pairs|
        invariant EventArguments(colspec.value, pairs) == Prefixed(arguments, EventArguments(colspec.value, pairs[i..]))
      {
        assert pairs[i..][0] == pairs[i] && pairs[i..][1..] == pairs[i + 1..];
        var (col, req) := pairs[i];
        var target := ReferenceTarget(colspec.value, col);
        if target.None? {
          return Err(NoShortcut(col + 1));
        }
        var shortcut := ElicitShortcut([target.value]);
        if shortcut.Err? {
          return Err(shortcut.error);
        }
        ghost var rest := EventArguments(colspec.value, pairs[i + 1..]);
        var argument := "Col" + NatToString(col + 1) + (if req then "" else "?") + ":" + shortcut.value;
        assert EventArgument(colspec.value, pairs[i]) == Ok(argument);
        if rest.Ok? {
          assert arguments + ([argument] + rest.value) == (arguments + [argument]) + rest.value;
        }
        arguments := arguments + [argument];
        i := i + 1;
      }
      assert pairs[i..] == [] && arguments + [] == arguments;
      return Ok(name + "\t" + Join(arguments, ", ") + "\n");
    }

    /** `_writeAttributeType`. */
    method WriteAttributeType(name: string, cols: set<nat>) returns (r: Result<string, ConvError>)
      requires colspec.Some?
      ensures r == AttributeTypeLine(colspec.value, name, cols)
    {
      var shortcut := ElicitShortcut(AttributeTargets(colspec.value, cols, 0));
      if shortcut.Err? {
        return Err(shortcut.error);
      }
      return Ok(name + "\tArg:" + shortcut.value + "\n");
    }

    /** `_writeRelationType`. */
    method WriteRelationType(name: string, cols: set<nat>) returns (r: Result<string, ConvError>)
      requires colspec.Some?
      ensures r == RelationTypeLine(colspec.value, name, cols)
    {
      var target1 := ElicitShortcut(RelationSources(colspec.value, cols, 0));
      if target1.Err? {
        return Err(target1.error);
      }
      var target2 := ElicitShortcut(RelationReferences(colspec.value, cols, 0));
      if target2.Err? {
        return Err(target2.error);
      }
      return Ok(name + "\tArg1:" + target1.value + ", Arg2:" + target2.value + "\n");
    }
  }
}
