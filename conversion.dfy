/**
 * The OTPL to brat conversion as functions on the converter's state: what `convert` and the
 * `_make*`, `_process*`, `_register` and lookup helpers of `OtplBratConverter` compute from the
 * state they find. The class in module `Converter` performs the same steps in place and is
 * proved to end in the state these functions describe.
 */
module Conversion {
  import opened Wrappers
  import opened Text
  import opened ColSpec
  import Brat
  import Reader

  /** One OTPL row: its fields, column by column. */
  type Row = seq<string>
  /** A token's `(start, end)` character offsets in the text. */
  type Span = (nat, nat)
  /** Per column, the OTPL number of each annotated row (an enumeration value or the row number) and the brat uid it was given. */
  type IdMap = map<nat, map<string, string>>

  /** The exceptions that end a conversion; `convert` turns each into a `False` result. */
  datatype ConvError =
    | NoColspec
    | Misfit
    | TokenNotFound(token: string, line: nat, at: nat)
    | MixedSpan(col: nat)
    | UnresolvedReference(refCol: nat, targetCol: nat, num: string)
    | UnresolvedTarget(targetCol: nat, num: string)
    | ArgumentOverflow(name: string)
    | NoShortcut(col: nat)
    | IllegalShortcut

  /** What a conversion reads but never changes: the column specification, the text and the name table. */
  datatype Setup = Setup(spec: Spec, text: string, names: map<string, string>)

  /**
   * What a conversion changes: the brat uid counters (by type letter), the global and local
   * number-to-uid maps, the segment and line counts, the names collected for the configuration
   * file and the records written to the annotation file.
   */
  datatype State = State(
    count: map<char, nat>,
    globalMap: Option<IdMap>,
    globalCount: nat,
    lineCount: nat,
    localMap: IdMap,
    entities: set<string>,
    relations: map<string, set<nat>>,
    events: map<string, seq<(nat, bool)>>,
    normalizations: set<string>,
    attributes: map<string, set<nat>>,
    output: seq<Brat.Annotation>)

  // ---------------------------------------------------------------------------
  // The shape a specification and the rows must have

  predicate InRefs(spec: Spec, c: nat)
  {
    c in spec.globalRefs || c in spec.localRefs
  }

  predicate Triggered(spec: Spec, t: EventTargets)
  {
    && t.trigger < spec.width && InRefs(spec, t.trigger)
    && forall k :: 0 <= k < |t.args| ==> t.args[k] < spec.width && InRefs(spec, t.args[k])
  }

  /** Every column the specification names lies inside its width, and every association points at a reference column. */
  predicate Coherent(spec: Spec)
  {
    && spec.token.Some? && spec.token.value < spec.width
    && (spec.localEnum.Some? ==> spec.localEnum.value < spec.width)
    && (spec.globalEnum.Some? ==> spec.globalEnum.value < spec.width)
    && (spec.posTag.Some? ==> spec.posTag.value < spec.width)
    && (forall c :: c in spec.entities ==> c < spec.width)
    && (forall c :: c in spec.globalRefs ==> c < spec.width && spec.globalRefs[c] < spec.width)
    && (forall c :: c in spec.localRefs ==> c < spec.width && spec.localRefs[c] < spec.width)
    && (forall c :: c in spec.relations ==> 1 <= c < spec.width && spec.relations[c] < spec.width && InRefs(spec, c - 1))
    && (forall c :: c in spec.events ==> c < spec.width && Triggered(spec, spec.events[c]))
    && (forall c :: c in spec.normalizations ==> c < spec.width && spec.normalizations[c] < spec.width)
    && (forall c :: c in spec.attributes ==> c < spec.width && spec.attributes[c] < spec.width)
  }

  predicate RowsFit(spec: Spec, rows: seq<Row>)
  {
    forall i :: 0 <= i < |rows| ==> spec.width <= |rows[i]|
  }

  /**
   * The segments a conversion can index: none empty and every row as wide as the specification,
   * which must be coherent once there is a segment to read.
   */
  predicate Fits(spec: Spec, segments: seq<seq<Row>>)
  {
    && (|segments| > 0 ==> Coherent(spec))
    && forall k :: 0 <= k < |segments| ==> |segments[k]| > 0 && RowsFit(spec, segments[k])
  }

  function OptionSet(c: Option<nat>): set<nat>
  {
    if c.Some? then {c.value} else {}
  }

  /** The columns an event names: its own, its trigger's and its arguments'. */
  function EventColumns(events: map<nat, EventTargets>): set<nat>
  {
    events.Keys
    + (set c | c in events :: events[c].trigger)
    + (set t, a | t in events.Values && a in t.args :: a)
  }

  /** The columns of the one-column roles. */
  function SingleColumns(spec: Spec): set<nat>
  {
    OptionSet(spec.token) + OptionSet(spec.localEnum) + OptionSet(spec.globalEnum) + OptionSet(spec.posTag)
  }

  /** The columns of the associations and their targets. */
  function PairColumns(spec: Spec): set<nat>
  {
    spec.globalRefs.Keys + spec.globalRefs.Values + spec.localRefs.Keys + spec.localRefs.Values
    + spec.relations.Keys + spec.relations.Values
    + spec.normalizations.Keys + spec.normalizations.Values + spec.attributes.Keys + spec.attributes.Values
  }

  /** Every column the specification names. */
  function Named(spec: Spec): set<nat>
  {
    SingleColumns(spec) + spec.entities + PairColumns(spec) + EventColumns(spec.events)
  }

  /**
   * The number of leading columns a conversion may read: one past the last column the
   * specification names.
   */
  function Reach(spec: Spec): nat
  {
    if Named(spec) == {} then 0
    else
      Reader.MaxExists(Named(spec));
      var m: nat :| Reader.IsMax(Named(spec), m);
      m + 1
  }

  lemma ReachMeaning(spec: Spec)
    ensures forall c :: c in Named(spec) ==> c < Reach(spec)
    ensures Named(spec) != {} ==> Reach(spec) - 1 in Named(spec)
  {
  }

  /**
   * The specification as the conversion uses it. `OtplBratConverter` never asks a specification
   * for its width, so rows may end after the last column it names (a trailing segment-id or
   * unknown column, say).
   */
  function Narrowed(spec: Spec): Spec
  {
    spec.(width := Reach(spec))
  }

  // ---------------------------------------------------------------------------
  // Names

  /** `A_VALID_NAME`, `^[\w-]+$`: a non-empty run of word characters and hyphens. */
  predicate ValidName(s: string)
  {
    |s| > 0 && forall i :: 0 <= i < |s| ==> IsWordChar(s[i]) || s[i] == '-'
  }

  function Remapped(names: map<string, string>, name: string): string
  {
    if name in names then names[name] else name
  }

  /** `_validateName`: the remapped name, or none for a name brat cannot use. */
  function ValidateName(names: map<string, string>, name: string): (r: Option<string>)
    ensures r.Some? ==> ValidName(r.value) && r.value == Remapped(names, name)
    ensures r.None? ==> !ValidName(Remapped(names, name))
  {
    var n := Remapped(names, name);
    if ValidName(n) then Some(n) else None
  }

  /** Python `s[off:]`. */
  function Drop(s: string, off: nat): string
  {
    if off <= |s| then s[off..] else ""
  }

  // ---------------------------------------------------------------------------
  // Counters and registration

  /** How many uids of type `letter` have been issued; `count(1)` starts each counter afresh. */
  function Count(count: map<char, nat>, letter: char): nat
  {
    if letter in count then count[letter] else 0
  }

  function Uid(letter: char, n: nat): string
  {
    [letter] + NatToString(n)
  }

  /** The OTPL number of a row: its enumeration value, or its number when there is no enumeration column. */
  function RowKey(enum: Option<nat>, num: nat, row: Row): string
    requires enum.Some? ==> enum.value < |row|
  {
    if enum.None? then NatToString(num) else row[enum.value]
  }

  function Inner(m: IdMap, col: nat): map<string, string>
  {
    if col in m then m[col] else map[]
  }

  function Lookup(m: IdMap, col: nat, key: string): Option<string>
  {
    if key in Inner(m, col) then Some(Inner(m, col)[key]) else None
  }

  /** `m[col].setdefault(key, uid)` on a `defaultdict(dict)`. */
  function SetDefault(m: IdMap, col: nat, key: string, uid: string): IdMap
  {
    var inner := Inner(m, col);
    if key in inner then m[col := inner] else m[col := inner[key := uid]]
  }

  /** Registers `uid` under the number of each of `rows[..i]`, the first of them numbered `base`. */
  function RegisterRows(m: IdMap, col: nat, enum: Option<nat>, base: nat, rows: seq<Row>, uid: string, i: nat): IdMap
    requires i <= |rows|
    requires enum.Some? ==> forall k :: 0 <= k < |rows| ==> enum.value < |rows[k]|
  {
    if i == 0 then m
    else SetDefault(RegisterRows(m, col, enum, base, rows, uid, i - 1), col, RowKey(enum, base + i - 1, rows[i - 1]), uid)
  }

  /** The same registration in the global map, when there is one (`self._global_map is not None`). */
  function RegisterGlobal(g: Option<IdMap>, col: nat, enum: Option<nat>, base: nat, rows: seq<Row>, uid: string, i: nat): Option<IdMap>
    requires i <= |rows|
    requires enum.Some? ==> forall k :: 0 <= k < |rows| ==> enum.value < |rows[k]|
  {
    if g.None? then None else Some(RegisterRows(g.value, col, enum, base, rows, uid, i))
  }

  predicate EnumsFit(spec: Spec, rows: seq<Row>)
  {
    && (spec.localEnum.Some? ==> forall k :: 0 <= k < |rows| ==> spec.localEnum.value < |rows[k]|)
    && (spec.globalEnum.Some? ==> forall k :: 0 <= k < |rows| ==> spec.globalEnum.value < |rows[k]|)
  }

  /** `_register`: issues the next uid of type `letter` and maps every row of the annotation to it. */
  function RegisterAnnotation(spec: Spec, s: State, col: nat, letter: char, num: nat, rows: seq<Row>): (r: (State, string))
    requires EnumsFit(spec, rows)
    ensures r.0 == s.(count := r.0.count, localMap := r.0.localMap, globalMap := r.0.globalMap)
    ensures r.0.globalMap.Some? == s.globalMap.Some?
    ensures letter in r.0.count && r.1 == Uid(letter, r.0.count[letter])
  {
    var n := Count(s.count, letter) + 1;
    var uid := Uid(letter, n);
    var local := RegisterRows(s.localMap, col, spec.localEnum, num, rows, uid, |rows|);
    var global := RegisterGlobal(s.globalMap, col, spec.globalEnum, s.globalCount + num, rows, uid, |rows|);
    (s.(count := s.count[letter := n], localMap := local, globalMap := global), uid)
  }

  /** `_getLocalTargetID`: the uid registered in the target column for this row's number. */
  function LocalTargetId(spec: Spec, local: IdMap, targetCol: nat, data: Row, num: nat): (r: Result<string, ConvError>)
    requires spec.localEnum.Some? ==> spec.localEnum.value < |data|
    ensures r.Ok? ==> targetCol in local && r.value in local[targetCol].Values
    ensures r.Err? ==> r.error.UnresolvedTarget? && r.error.targetCol == targetCol + 1
  {
    var key := RowKey(spec.localEnum, num, data);
    match Lookup(local, targetCol, key)
    case None => Err(UnresolvedTarget(targetCol + 1, key))
    case Some(uid) => Ok(uid)
  }

  /** `_getReferencedID`: the uid the number in a reference column stands for, looked up globally or locally by the column's role. */
  function ReferencedId(spec: Spec, global: Option<IdMap>, local: IdMap, data: Row, refCol: nat): (r: Result<string, ConvError>)
    requires InRefs(spec, refCol) && refCol < |data|
    ensures r.Ok? && refCol in spec.globalRefs ==> global.Some? && spec.globalRefs[refCol] in global.value
    ensures r.Ok? && refCol !in spec.globalRefs ==> var t := spec.localRefs[refCol]; t in local && r.value in local[t].Values
    ensures r.Err? ==> r.error.UnresolvedReference? && r.error.refCol == refCol + 1 && r.error.num == data[refCol]
  {
    var target := ReferenceTarget(spec, refCol).value;
    var m := if refCol in spec.globalRefs then global.GetOr(map[]) else local;
    match Lookup(m, target, data[refCol])
    case None => Err(UnresolvedReference(refCol + 1, target + 1, data[refCol]))
    case Some(uid) => Ok(uid)
  }

  // ---------------------------------------------------------------------------
  // Token offsets

  /** The token column of each row. */
  function Tokens(rows: seq<Row>, col: nat): (ts: seq<string>)
    requires forall k :: 0 <= k < |rows| ==> col < |rows[k]|
    ensures |ts| == |rows| && forall k :: 0 <= k < |rows| ==> ts[k] == rows[k][col]
  {
    seq(|rows|, k requires 0 <= k < |rows| => rows[k][col])
  }

  /** `span` is where `token` occurs in `text`. */
  predicate Located(text: string, token: string, span: Span)
  {
    OccursAt(text, token, span.0) && span.1 == span.0 + |token|
  }

  /**
   * `_yieldOffsets`: each token bound to its first occurrence at or after the end of the one
   * before; a token that does not occur is reported with its line number and the offset searched from.
   */
  function Offsets(text: string, tokens: seq<string>, start: nat, line: nat): (r: Result<seq<Span>, ConvError>)
    ensures r.Ok? ==> |r.value| == |tokens|
    decreases |tokens|
  {
    if |tokens| == 0 then Ok([])
    else
      match Find(text, tokens[0], start)
      case None => Err(TokenNotFound(tokens[0], line, start))
      case Some(p) =>
        var rest :- Offsets(text, tokens[1..], p + |tokens[0]|, line + 1);
        Ok([(p, p + |tokens[0]|)] + rest)
  }

  /** Each span `_yieldOffsets` yields is where its token occurs. */
  lemma {:induction false} OffsetsLocated(text: string, tokens: seq<string>, start: nat, line: nat)
    requires Offsets(text, tokens, start, line).Ok?
    ensures forall k :: 0 <= k < |tokens| ==> Located(text, tokens[k], Offsets(text, tokens, start, line).value[k])
    decreases |tokens|
  {
    if |tokens| > 0 {
      var p := Find(text, tokens[0], start).value;
      OffsetsLocated(text, tokens[1..], p + |tokens[0]|, line + 1);
      var rest := Offsets(text, tokens[1..], p + |tokens[0]|, line + 1).value;
      var r := Offsets(text, tokens, start, line).value;
      assert r == [(p, p + |tokens[0]|)] + rest;
      forall k | 0 < k < |tokens| ensures Located(text, tokens[k], r[k]) {
        assert tokens[k] == tokens[1..][k - 1] && r[k] == rest[k - 1];
      }
    }
  }

  /** `p` put in front of a successful result. */
  function Prefixed<T>(p: seq<T>, r: Result<seq<T>, ConvError>): (q: Result<seq<T>, ConvError>)
    ensures q.Ok? <==> r.Ok?
    ensures q.Ok? ==> q.value == p + r.value
    ensures q.Err? ==> q == r
  {
    if r.Ok? then Ok(p + r.value) else r
  }

  lemma PrefixedPrefixed<T>(a: seq<T>, b: seq<T>, r: Result<seq<T>, ConvError>)
    ensures Prefixed(a, Prefixed(b, r)) == Prefixed(a + b, r)
  {
    if r.Ok? {
      assert a + (b + r.value) == (a + b) + r.value;
    }
  }

  /** A token found at `p` puts its span in front of the offsets of the tokens after it. */
  lemma OffsetsStep(text: string, tokens: seq<string>, start: nat, line: nat, p: nat)
    requires |tokens| > 0 && Find(text, tokens[0], start) == Some(p)
    ensures Offsets(text, tokens, start, line)
         == Prefixed([(p, p + |tokens[0]|)], Offsets(text, tokens[1..], p + |tokens[0]|, line + 1))
  {
  }

  /** One more token found: its span moves from the offsets still to come to the offsets found. */
  lemma OffsetsAdvance(text: string, tokens: seq<string>, idx: nat, next: nat, pos: nat, line: nat, found: seq<Span>, span: Span)
    requires next == idx + 1 <= |tokens| && Find(text, tokens[idx], pos) == Some(span.0) && span.1 == span.0 + |tokens[idx]|
    ensures Prefixed(found, Offsets(text, tokens[idx..], pos, line + idx))
         == Prefixed(found + [span], Offsets(text, tokens[next..], span.1, line + next))
  {
    assert tokens[idx..][0] == tokens[idx] && tokens[idx..][1..] == tokens[next..];
    OffsetsStep(text, tokens[idx..], pos, line + idx, span.0);
    PrefixedPrefixed(found, [span], Offsets(text, tokens[next..], span.1, line + next));
  }

  /** Spans inside the text, each ending before the next begins: a span opened at one row and closed at a later one is a valid slice. */
  predicate Ordered(text: string, spans: seq<Span>)
  {
    && (forall k :: 0 <= k < |spans| ==> spans[k].0 <= spans[k].1 <= |text|)
    && (forall j, k :: 0 <= j < k < |spans| ==> spans[j].1 <= spans[k].0)
  }

  // ---------------------------------------------------------------------------
  // Entities

  /** Every row of a span carries the tag of its first row. */
  predicate SpanAgrees(rows: seq<Row>, col: nat, tag: string)
    requires forall k :: 0 <= k < |rows| ==> col < |rows[k]|
  {
    forall k :: 0 <= k < |rows| ==> Drop(rows[k][col], 2) == tag
  }

  /** The 1-based number of the first of the `n` rows that end just before row index `next`. */
  function FirstRow(next: nat, n: nat): nat
    requires n <= next
  {
    next + 1 - n
  }

  predicate EntityRows(spec: Spec, rows: seq<Row>, col: nat)
  {
    |rows| > 0 && col < spec.width && RowsFit(spec, rows)
  }

  /**
   * `_makeEntity`: an entity typed by the (remapped) tag of its first row, its PoS tag or its
   * BIO tag without the two-character prefix; an unusable name drops it, a span whose rows
   * carry different tags aborts the conversion.
   */
  function MakeEntity(setup: Setup, s: State, rows: seq<Row>, num: nat, col: nat, start: nat, end: nat): (r: Result<State, ConvError>)
    requires Coherent(setup.spec) && EntityRows(setup.spec, rows, col) && start <= end <= |setup.text|
    ensures r.Ok? ==> |s.output| <= |r.value.output| <= |s.output| + 1 && r.value.output[..|s.output|] == s.output
    ensures r.Ok? ==> r.value.globalCount == s.globalCount && r.value.lineCount == s.lineCount
  {
    var off := if setup.spec.posTag == Some(col) then 0 else 2;
    var raw := Drop(rows[0][col], off);
    match ValidateName(setup.names, raw)
    case None => Ok(s)
    case Some(name) =>
      if off == 2 && !SpanAgrees(rows, col, raw) then Err(MixedSpan(col + 1))
      else
        var (s1, uid) := RegisterAnnotation(setup.spec, s, col, 'T', num, rows);
        Ok(s1.(entities := s1.entities + {name},
               output := s1.output + [Brat.Entity(uid, name, start, end, setup.text[start..end])]))
  }

  predicate Offsetting(setup: Setup, seg: seq<Row>, offsets: seq<Span>)
  {
    |offsets| == |seg| && Ordered(setup.text, offsets) && RowsFit(setup.spec, seg)
  }

  /** `_processPoS` from row `i` on: one entity per row whose PoS tag is neither empty nor `NULL`. */
  function PosFrom(setup: Setup, s: State, seg: seq<Row>, offsets: seq<Span>, col: nat, i: nat): Result<State, ConvError>
    requires Coherent(setup.spec) && Offsetting(setup, seg, offsets) && col < setup.spec.width && i <= |seg|
    decreases |seg| - i
  {
    if i == |seg| then Ok(s)
    else
      var val := seg[i][col];
      if val != "" && val != "NULL" then
        var s1 :- MakeEntity(setup, s, [seg[i]], i + 1, col, offsets[i].0, offsets[i].1);
        PosFrom(setup, s1, seg, offsets, col, i + 1)
      else PosFrom(setup, s, seg, offsets, col, i + 1)
  }

  /** The open span of `_parseBIEO`: the buffered rows, which end just before `i`, and where the first starts. */
  predicate OpenSpan(setup: Setup, seg: seq<Row>, offsets: seq<Span>, i: nat, open: seq<Row>, start: nat)
  {
    |open| <= i <= |seg| == |offsets| && RowsFit(setup.spec, open) && (|open| > 0 ==> start <= offsets[i - 1].0)
  }

  /** The result of `_parseBIEO`: the state after the spans it closed, and the span still open at the end. */
  datatype Parsed = Parsed(state: State, open: seq<Row>, start: nat)

  /**
   * One row of `_parseBIEO`: a `B-` tag closes the open span and opens one, an `E-` tag closes
   * the open span with its row (or makes a span of its row alone), an `I-` tag extends the open
   * span (or opens one), `O` closes the open span, and any other tag is passed over.
   */
  function BieoStep(setup: Setup, s: State, seg: seq<Row>, offsets: seq<Span>, col: nat, i: nat, open: seq<Row>, start: nat)
    : (r: Result<Parsed, ConvError>)
    requires Coherent(setup.spec) && Offsetting(setup, seg, offsets) && col < setup.spec.width
    requires i < |seg| && OpenSpan(setup, seg, offsets, i, open, start)
    ensures r.Ok? ==> OpenSpan(setup, seg, offsets, i + 1, r.value.open, r.value.start)
  {
    var val := seg[i][col];
    if StartsWith(val, "B-") then
      var s1 :- if |open| > 0 then MakeEntity(setup, s, open, FirstRow(i, |open|), col, start, offsets[i - 1].1) else Ok(s);
      Ok(Parsed(s1, [seg[i]], offsets[i].0))
    else if StartsWith(val, "E-") then
      if |open| > 0 then
        var s1 :- MakeEntity(setup, s, open + [seg[i]], FirstRow(i + 1, |open| + 1), col, start, offsets[i].1);
        Ok(Parsed(s1, [], start))
      else
        var s1 :- MakeEntity(setup, s, [seg[i]], i + 1, col, offsets[i].0, offsets[i].1);
        Ok(Parsed(s1, [], start))
    else if StartsWith(val, "I-") then
      if |open| == 0 then Ok(Parsed(s, [seg[i]], offsets[i].0))
      else Ok(Parsed(s, open + [seg[i]], start))
    else if val == "O" then
      var s1 :- if |open| > 0 then MakeEntity(setup, s, open, FirstRow(i, |open|), col, start, offsets[i - 1].1) else Ok(s);
      Ok(Parsed(s1, [], start))
    else Ok(Parsed(s, open, start))
  }

  /** `_parseBIEO` from row `i` on, with the rows buffered so far. */
  function BieoFrom(setup: Setup, s: State, seg: seq<Row>, offsets: seq<Span>, col: nat, i: nat, open: seq<Row>, start: nat)
    : (r: Result<Parsed, ConvError>)
    requires Coherent(setup.spec) && Offsetting(setup, seg, offsets) && col < setup.spec.width
    requires OpenSpan(setup, seg, offsets, i, open, start)
    ensures r.Ok? ==> OpenSpan(setup, seg, offsets, |seg|, r.value.open, r.value.start)
    decreases |seg| - i
  {
    if i == |seg| then Ok(Parsed(s, open, start))
    else
      var p :- BieoStep(setup, s, seg, offsets, col, i, open, start);
      BieoFrom(setup, p.state, seg, offsets, col, i + 1, p.open, p.start)
  }

  /** One BIO column of `_processEntities`: its spans, and the span still open at the end of the segment. */
  function EntityColumn(setup: Setup, s: State, seg: seq<Row>, offsets: seq<Span>, col: nat): Result<State, ConvError>
    requires Coherent(setup.spec) && Offsetting(setup, seg, offsets) && col < setup.spec.width
  {
    var p :- BieoFrom(setup, s, seg, offsets, col, 0, [], 0);
    if |p.open| > 0 then MakeEntity(setup, p.state, p.open, FirstRow(|seg|, |p.open|), col, p.start, offsets[|seg| - 1].1)
    else Ok(p.state)
  }

  /** `_processEntities` from column `c` on, the entity columns in ascending order. */
  function EntitiesFrom(setup: Setup, s: State, seg: seq<Row>, offsets: seq<Span>, c: nat): Result<State, ConvError>
    requires Coherent(setup.spec) && Offsetting(setup, seg, offsets) && c <= setup.spec.width
    decreases setup.spec.width - c
  {
    if c == setup.spec.width then Ok(s)
    else if c in setup.spec.entities then
      var s1 :- EntityColumn(setup, s, seg, offsets, c);
      EntitiesFrom(setup, s1, seg, offsets, c + 1)
    else EntitiesFrom(setup, s, seg, offsets, c + 1)
  }

  // ---------------------------------------------------------------------------
  // Relations, events, normalizations and attributes

  /** `_makeRelation`: skipped for an empty or `0` reference or an empty or `NULL` name. */
  function MakeRelation(setup: Setup, s: State, data: Row, num: nat, col: nat): (r: Result<State, ConvError>)
    requires Coherent(setup.spec) && setup.spec.width <= |data| && col in setup.spec.relations
    ensures r.Ok? ==> |s.output| <= |r.value.output| <= |s.output| + 1 && r.value.output[..|s.output|] == s.output
    ensures r.Ok? ==> r.value.globalCount == s.globalCount && r.value.lineCount == s.lineCount
  {
    var spec := setup.spec;
    var name := data[col];
    var ref := data[col - 1];
    if ref != "" && name != "" && ref != "0" && name != "NULL" then
      match ValidateName(setup.names, name)
      case None => Ok(s)
      case Some(n) =>
        var (s1, uid) := RegisterAnnotation(spec, s, col, 'R', num, [data]);
        var source :- LocalTargetId(spec, s1.localMap, spec.relations[col], data, num);
        var target :- ReferencedId(spec, s1.globalMap, s1.localMap, data, col - 1);
        var cols := if n in s1.relations then s1.relations[n] else {};
        Ok(s1.(relations := s1.relations[n := cols + {col}],
               output := s1.output + [Brat.NewRelation(uid, n, source, target)]))
    else Ok(s)
  }

  /** The uids of an event's arguments, none for an argument given as `0`. */
  function ArgIds(spec: Spec, global: Option<IdMap>, local: IdMap, data: Row, cols: seq<nat>): (r: Result<seq<Option<string>>, ConvError>)
    requires forall k :: 0 <= k < |cols| ==> InRefs(spec, cols[k]) && cols[k] < |data|
    ensures r.Ok? ==> |r.value| == |cols|
    ensures r.Ok? ==> forall k :: 0 <= k < |cols| ==> (r.value[k].None? <==> data[cols[k]] == "0")
  {
    if |cols| == 0 then Ok([])
    else
      var first :- if data[cols[0]] == "0" then Ok(None) else
                     var uid :- ReferencedId(spec, global, local, data, cols[0]); Ok(Some(uid));
      var rest :- ArgIds(spec, global, local, data, cols[1..]);
      Ok([first] + rest)
  }

  /** The `ArgK:uid` pairs of the present arguments, each keeping its position `K` (counted from `k + 1`). */
  function ArgItems(ids: seq<Option<string>>, k: nat): (items: Brat.Items)
    decreases |ids|
  {
    if |ids| == 0 then []
    else if ids[0].Some? then [("Arg" + NatToString(k + 1), ids[0].value)] + ArgItems(ids[1..], k + 1)
    else ArgItems(ids[1..], k + 1)
  }

  /** The `(column, present)` pairs of `_storeEventArguments`. */
  function Presence(cols: seq<nat>, ids: seq<Option<string>>): (pairs: seq<(nat, bool)>)
    requires |ids| == |cols|
    ensures |pairs| == |cols| && forall k :: 0 <= k < |cols| ==> pairs[k] == (cols[k], ids[k].Some?)
  {
    seq(|cols|, k requires 0 <= k < |cols| => (cols[k], ids[k].Some?))
  }

  /**
   * The in-place update of `_storeEventArguments` from position `i` on: an argument absent now
   * becomes optional; one absent beyond the known positions raises an index error.
   */
  function WeakenFrom(known: seq<(nat, bool)>, later: seq<(nat, bool)>, i: nat): (r: Option<seq<(nat, bool)>>)
    ensures r.Some? ==> |r.value| == |known|
    ensures r.Some? ==> forall j :: 0 <= j < |known| && r.value[j].1 ==> known[j].1
    decreases |later| - i
  {
    if i >= |later| then Some(known)
    else if !later[i].1 && i >= |known| then None
    else if !later[i].1 && known[i].1 then WeakenFrom(known[i := (later[i].0, false)], later, i + 1)
    else WeakenFrom(known, later, i + 1)
  }

  /** `_storeEventArguments`: the first pairs seen for a name, weakened by every later event of that name. */
  function StoreEventArguments(events: map<string, seq<(nat, bool)>>, name: string, pairs: seq<(nat, bool)>)
    : (r: Result<map<string, seq<(nat, bool)>>, ConvError>)
    ensures r.Ok? ==> r.value.Keys == events.Keys + {name}
    ensures r.Ok? ==> |r.value[name]| == if name in events then |events[name]| else |pairs|
    ensures r.Err? ==> name in events && r.error == ArgumentOverflow(name)
  {
    if name in events then
      match WeakenFrom(events[name], pairs, 0)
      case None => Err(ArgumentOverflow(name))
      case Some(known) => Ok(events[name := known])
    else Ok(events[name := pairs])
  }

  /** `_makeEvent`: skipped for an empty or `NULL` name or an empty or `0` trigger. */
  function MakeEvent(setup: Setup, s: State, data: Row, num: nat, col: nat): (r: Result<State, ConvError>)
    requires Coherent(setup.spec) && setup.spec.width <= |data| && col in setup.spec.events
    ensures r.Ok? ==> |s.output| <= |r.value.output| <= |s.output| + 1 && r.value.output[..|s.output|] == s.output
    ensures r.Ok? ==> r.value.globalCount == s.globalCount && r.value.lineCount == s.lineCount
  {
    var spec := setup.spec;
    var targets := spec.events[col];
    var name := data[col];
    var trigger := data[targets.trigger];
    if name != "" && name != "NULL" && trigger != "" && trigger != "0" then
      match ValidateName(setup.names, name)
      case None => Ok(s)
      case Some(n) =>
        var (s1, uid) := RegisterAnnotation(spec, s, col, 'E', num, [data]);
        var triggerId :- ReferencedId(spec, s1.globalMap, s1.localMap, data, targets.trigger);
        var ids :- ArgIds(spec, s1.globalMap, s1.localMap, data, targets.args);
        var events :- StoreEventArguments(s1.events, n, Presence(targets.args, ids));
        Ok(s1.(events := events,
               output := s1.output + [Brat.Event(uid, n, triggerId, Brat.Dict(ArgItems(ids, 0)))]))
    else Ok(s)
  }

  /** The database and accession of a `db:xref` identifier. */
  function DatabaseRef(nsId: string): (string, string)
  {
    match SplitOnce(nsId, ':')
    case None => (nsId, "")
    case Some((db, xref)) => (db, xref)
  }

  /** A normalization value split at its first space into the identifier and the text; without a space the identifier is the text too. */
  function NormalizationParts(value: string): (string, string)
  {
    match SplitOnce(value, ' ')
    case None => (value, value)
    case Some(p) => p
  }

  /** `_makeNormalization`: skipped for an empty or `NULL` identifier; the database name must be usable. */
  function MakeNormalization(setup: Setup, s: State, data: Row, num: nat, col: nat): (r: Result<State, ConvError>)
    requires Coherent(setup.spec) && setup.spec.width <= |data| && col in setup.spec.normalizations
    ensures r.Ok? ==> |s.output| <= |r.value.output| <= |s.output| + 1 && r.value.output[..|s.output|] == s.output
    ensures r.Ok? ==> r.value.globalCount == s.globalCount && r.value.lineCount == s.lineCount
  {
    var spec := setup.spec;
    var value := data[col];
    if value != "" && value != "NULL" then
      var target :- LocalTargetId(spec, s.localMap, spec.normalizations[col], data, num);
      var (s1, uid) := RegisterAnnotation(spec, s, col, 'N', num, [data]);
      var (nsId, text) := NormalizationParts(value);
      var name := Before(nsId, ':');
      if ValidateName(setup.names, name).None? then Ok(s1)
      else
        var ref := DatabaseRef(nsId);
        Ok(s1.(normalizations := s1.normalizations + {name},
               output := s1.output + [Brat.NewNormalization(uid, target, ref.0, ref.1, text)]))
    else Ok(s)
  }

  /** `_makeAttribute`: skipped for an empty or `NULL` name; its uid is counted but not registered. */
  function MakeAttribute(setup: Setup, s: State, data: Row, num: nat, col: nat): (r: Result<State, ConvError>)
    requires Coherent(setup.spec) && setup.spec.width <= |data| && col in setup.spec.attributes
    ensures r.Ok? ==> |s.output| <= |r.value.output| <= |s.output| + 1 && r.value.output[..|s.output|] == s.output
    ensures r.Ok? ==> r.value.globalCount == s.globalCount && r.value.lineCount == s.lineCount
  {
    var spec := setup.spec;
    var name := data[col];
    if name != "" && name != "NULL" then
      match ValidateName(setup.names, name)
      case None => Ok(s)
      case Some(n) =>
        var k := Count(s.count, 'A') + 1;
        var s1 := s.(count := s.count['A' := k]);
        var target :- LocalTargetId(spec, s1.localMap, spec.attributes[col], data, num);
        var cols := if n in s1.attributes then s1.attributes[n] else {};
        Ok(s1.(attributes := s1.attributes[n := cols + {col}],
               output := s1.output + [Brat.Attribute(Uid('A', k), n, target, Some(""))]))
    else Ok(s)
  }

  /** The four kinds of annotation columns `_convertAnnotations` processes, in its order. */
  datatype Kind = Relations | Events | Normalizations | Attributes

  predicate ColumnOf(spec: Spec, kind: Kind, col: nat)
  {
    match kind
    case Relations => col in spec.relations
    case Events => col in spec.events
    case Normalizations => col in spec.normalizations
    case Attributes => col in spec.attributes
  }

  function Make(setup: Setup, s: State, kind: Kind, data: Row, num: nat, col: nat): Result<State, ConvError>
    requires Coherent(setup.spec) && setup.spec.width <= |data| && ColumnOf(setup.spec, kind, col)
  {
    match kind
    case Relations => MakeRelation(setup, s, data, num, col)
    case Events => MakeEvent(setup, s, data, num, col)
    case Normalizations => MakeNormalization(setup, s, data, num, col)
    case Attributes => MakeAttribute(setup, s, data, num, col)
  }

  /** `_processColumnsWith` for one column, from row index `i` on (rows are numbered from 1). */
  function RowsFrom(setup: Setup, s: State, seg: seq<Row>, kind: Kind, col: nat, i: nat): Result<State, ConvError>
    requires Coherent(setup.spec) && RowsFit(setup.spec, seg) && ColumnOf(setup.spec, kind, col) && i <= |seg|
    decreases |seg| - i
  {
    if i == |seg| then Ok(s)
    else
      var s1 :- Make(setup, s, kind, seg[i], i + 1, col);
      RowsFrom(setup, s1, seg, kind, col, i + 1)
  }

  /** `_processColumnsWith` from column `c` on, the columns of the kind in ascending order. */
  function ColumnsFrom(setup: Setup, s: State, seg: seq<Row>, kind: Kind, c: nat): Result<State, ConvError>
    requires Coherent(setup.spec) && RowsFit(setup.spec, seg) && c <= setup.spec.width
    decreases setup.spec.width - c
  {
    if c == setup.spec.width then Ok(s)
    else if ColumnOf(setup.spec, kind, c) then
      var s1 :- RowsFrom(setup, s, seg, kind, c, 0);
      ColumnsFrom(setup, s1, seg, kind, c + 1)
    else ColumnsFrom(setup, s, seg, kind, c + 1)
  }

  /** `_convertAnnotations`: relations, then events, normalizations and attributes. */
  function Annotations(setup: Setup, s: State, seg: seq<Row>): Result<State, ConvError>
    requires Coherent(setup.spec) && RowsFit(setup.spec, seg)
  {
    var s1 :- ColumnsFrom(setup, s, seg, Relations, 0);
    var s2 :- ColumnsFrom(setup, s1, seg, Events, 0);
    var s3 :- ColumnsFrom(setup, s2, seg, Normalizations, 0);
    ColumnsFrom(setup, s3, seg, Attributes, 0)
  }

  // ---------------------------------------------------------------------------
  // Segments and files

  /** `_convertTokensAndEntities`: a fresh local map, the token offsets, then the PoS and BIO entities; gives the end of the last token. */
  function TokensAndEntities(setup: Setup, s: State, seg: seq<Row>, start: nat): Result<(State, nat), ConvError>
    requires Coherent(setup.spec) && |seg| > 0 && RowsFit(setup.spec, seg)
  {
    var spec := setup.spec;
    var s0 := s.(localMap := map[]);
    var offsets :- Offsets(setup.text, Tokens(seg, spec.token.value), start, s.lineCount);
    OffsetsOrdered(setup.text, Tokens(seg, spec.token.value), start, s.lineCount);
    var s1 :- if spec.posTag.Some? then PosFrom(setup, s0, seg, offsets, spec.posTag.value, 0) else Ok(s0);
    var s2 :- EntitiesFrom(setup, s1, seg, offsets, 0);
    Ok((s2, offsets[|seg| - 1].1))
  }

  /** Past a segment: the global row count and the line count (one blank line per segment). */
  function Advance(s: State, seg: seq<Row>): State
  {
    s.(globalCount := s.globalCount + |seg|, lineCount := s.lineCount + |seg| + 1)
  }

  /** `_convertLocal` from segment `k` on, the text searched from `offset`. */
  function LocalFrom(setup: Setup, s: State, segs: seq<seq<Row>>, k: nat, offset: nat): Result<State, ConvError>
    requires Fits(setup.spec, segs) && k <= |segs|
    decreases |segs| - k
  {
    if k == |segs| then Ok(s)
    else
      var (s1, end) :- TokensAndEntities(setup, s, segs[k], offset);
      var s2 :- Annotations(setup, s1, segs[k]);
      LocalFrom(setup, Advance(s2, segs[k]), segs, k + 1, end)
  }

  lemma LocalStep(setup: Setup, s: State, segs: seq<seq<Row>>, k: nat, offset: nat)
    requires Fits(setup.spec, segs) && k < |segs|
    ensures LocalFrom(setup, s, segs, k, offset)
         == match TokensAndEntities(setup, s, segs[k], offset)
            case Err(e) => Err(e)
            case Ok((s1, end)) =>
              match Annotations(setup, s1, segs[k])
              case Err(e) => Err(e)
              case Ok(s2) => LocalFrom(setup, Advance(s2, segs[k]), segs, k + 1, end)
  {
  }

  /** The first pass of `_convertWithGlobals` from segment `k` on: entities only, keeping each segment's local map. */
  function EntityPassFrom(setup: Setup, s: State, segs: seq<seq<Row>>, k: nat, offset: nat, maps: seq<IdMap>)
    : Result<(State, seq<IdMap>), ConvError>
    requires Fits(setup.spec, segs) && k <= |segs|
    decreases |segs| - k
  {
    if k == |segs| then Ok((s, maps))
    else
      var (s1, end) :- TokensAndEntities(setup, s, segs[k], offset);
      EntityPassFrom(setup, Advance(s1, segs[k]), segs, k + 1, end, maps + [s1.localMap])
  }

  /** The second pass of `_convertWithGlobals` from segment `k` on: the other annotations, each segment with its own local map. */
  function AnnotationPassFrom(setup: Setup, s: State, segs: seq<seq<Row>>, maps: seq<IdMap>, k: nat): Result<State, ConvError>
    requires Fits(setup.spec, segs) && k <= |segs| == |maps|
    decreases |segs| - k
  {
    if k == |segs| then Ok(s)
    else
      var s1 :- Annotations(setup, s.(localMap := maps[k]), segs[k]);
      AnnotationPassFrom(setup, Advance(s1, segs[k]), segs, maps, k + 1)
  }

  lemma EntityPassStep(setup: Setup, s: State, segs: seq<seq<Row>>, k: nat, offset: nat, maps: seq<IdMap>)
    requires Fits(setup.spec, segs) && k < |segs|
    ensures EntityPassFrom(setup, s, segs, k, offset, maps)
         == match TokensAndEntities(setup, s, segs[k], offset)
            case Err(e) => Err(e)
            case Ok((s1, end)) => EntityPassFrom(setup, Advance(s1, segs[k]), segs, k + 1, end, maps + [s1.localMap])
  {
  }

  lemma AnnotationPassStep(setup: Setup, s: State, segs: seq<seq<Row>>, maps: seq<IdMap>, k: nat)
    requires Fits(setup.spec, segs) && k < |segs| == |maps|
    ensures AnnotationPassFrom(setup, s, segs, maps, k)
         == match Annotations(setup, s.(localMap := maps[k]), segs[k])
            case Err(e) => Err(e)
            case Ok(s1) => AnnotationPassFrom(setup, Advance(s1, segs[k]), segs, maps, k + 1)
  {
  }

  lemma {:induction false} EntityPassMaps(setup: Setup, s: State, segs: seq<seq<Row>>, k: nat, offset: nat, maps: seq<IdMap>)
    requires Fits(setup.spec, segs) && k <= |segs| && |maps| == k
    requires EntityPassFrom(setup, s, segs, k, offset, maps).Ok?
    ensures |EntityPassFrom(setup, s, segs, k, offset, maps).value.1| == |segs|
    decreases |segs| - k
  {
    if k < |segs| {
      var (s1, end) := TokensAndEntities(setup, s, segs[k], offset).value;
      EntityPassMaps(setup, Advance(s1, segs[k]), segs, k + 1, end, maps + [s1.localMap]);
    }
  }

  /** `_convertWithGlobals`: a global map; the entities of every segment first, then the counts restart and the other annotations follow. */
  function WithGlobals(setup: Setup, s: State, segs: seq<seq<Row>>): Result<State, ConvError>
    requires Fits(setup.spec, segs)
  {
    var s0 := s.(globalMap := Some(map[]));
    var (s1, maps) :- EntityPassFrom(setup, s0, segs, 0, 0, []);
    EntityPassMaps(setup, s0, segs, 0, 0, []);
    AnnotationPassFrom(setup, s1.(globalCount := 0, lineCount := 1), segs, maps, 0)
  }

  /** `_resetStates`: the counters restart, and the maps and counts are emptied; the collected names stay. */
  function Reset(s: State): State
  {
    s.(count := map[], globalMap := None, globalCount := 0, lineCount := 1, localMap := map[])
  }

  /** The state of a new converter. */
  const Initial: State := State(map[], None, 0, 1, map[], {}, map[], map[], {}, map[], [])

  /** `convert` after its checks: a new annotation file, reset states, then two passes when there are global references, else one. */
  function Converted(setup: Setup, s: State, segs: seq<seq<Row>>): Result<State, ConvError>
    requires Fits(setup.spec, segs)
  {
    var s0 := Reset(s).(output := []);
    if HasGlobalRefs(setup.spec) then WithGlobals(setup, s0, segs) else LocalFrom(setup, s0, segs, 0, 0)
  }

  // ---------------------------------------------------------------------------
  // Configuration shortcuts

  /** The shortcut for a target column type; an `_ANNOTATION` type stands for targets of different types. */
  function ShortcutOf(r: Role): Option<string>
  {
    if r == Annotation then Some("<ANY>")
    else if r in EntityColumns then Some("<ENTITY>")
    else if r == Relation then Some("<RELATION>")
    else if r == Event then Some("<EVENT>")
    else None
  }

  /** The loop of `_elicitShortcutFor` from target `i` on: the common type so far, `_ANNOTATION` at the first disagreement. */
  function CommonType(spec: Spec, targets: seq<nat>, i: nat, sofar: Option<Role>): (r: Result<Option<Role>, ConvError>)
    ensures r.Ok? ==> (r.value.None? <==> sofar.None? && i >= |targets|)
    ensures r.Err? ==> r.error.NoShortcut? && exists j :: i <= j < |targets| && r.error.col == targets[j] + 1
    decreases |targets| - i
  {
    if i >= |targets| then Ok(sofar)
    else
      match PropertyTargetType(spec, targets[i])
      case Err(_) => Err(NoShortcut(targets[i] + 1))
      case Ok(update) =>
        if sofar.None? then CommonType(spec, targets, i + 1, Some(update))
        else if sofar != Some(update) then Ok(Some(Annotation))
        else CommonType(spec, targets, i + 1, sofar)
  }

  /** `_elicitShortcutFor`, given the target column of each column. */
  function Shortcut(spec: Spec, targets: seq<nat>): (r: Result<string, ConvError>)
    ensures r.Ok? ==> r.value in {"<ANY>", "<ENTITY>", "<RELATION>", "<EVENT>"}
    ensures |targets| == 0 ==> r == Err(IllegalShortcut)
  {
    var common :- CommonType(spec, targets, 0, None);
    if common.Some? && ShortcutOf(common.value).Some? then Ok(ShortcutOf(common.value).value)
    else Err(IllegalShortcut)
  }

  /** One `ColN[?]:<shortcut>` argument of `_writeEventType`; `?` marks an optional argument. */
  function EventArgument(spec: Spec, pair: (nat, bool)): Result<string, ConvError>
  {
    match ReferenceTarget(spec, pair.0)
    case None => Err(NoShortcut(pair.0 + 1))
    case Some(target) =>
      var shortcut :- Shortcut(spec, [target]);
      Ok("Col" + NatToString(pair.0 + 1) + (if pair.1 then "" else "?") + ":" + shortcut)
  }

  function EventArguments(spec: Spec, pairs: seq<(nat, bool)>): Result<seq<string>, ConvError>
  {
    if |pairs| == 0 then Ok([])
    else
      var first :- EventArgument(spec, pairs[0]);
      var rest :- EventArguments(spec, pairs[1..]);
      Ok([first] + rest)
  }

  /** The configuration line `_writeEventType` writes for an event name. */
  function EventTypeLine(spec: Spec, name: string, pairs: seq<(nat, bool)>): (r: Result<string, ConvError>)
    ensures r.Ok? ==> |name| < |r.value| && r.value[..|name|] == name && r.value[|name|] == '\t' && r.value[|r.value| - 1] == '\n'
  {
    var arguments :- EventArguments(spec, pairs);
    Ok(name + "\t" + Join(arguments, ", ") + "\n")
  }

  /** The target of each attribute column, the columns in ascending order. */
  function AttributeTargets(spec: Spec, cols: set<nat>, c: nat): seq<nat>
    requires c <= spec.width
    decreases spec.width - c
  {
    if c == spec.width then []
    else if c in cols && c in spec.attributes then [spec.attributes[c]] + AttributeTargets(spec, cols, c + 1)
    else AttributeTargets(spec, cols, c + 1)
  }

  /** The source target (`get_relation_target`) of each relation column of `cols`, the columns in ascending order. */
  function RelationSources(spec: Spec, cols: set<nat>, c: nat): seq<nat>
    requires c <= spec.width
    decreases spec.width - c
  {
    if c == spec.width then []
    else if c in cols && c in spec.relations then [spec.relations[c]] + RelationSources(spec, cols, c + 1)
    else RelationSources(spec, cols, c + 1)
  }

  /** The column the reference left of each relation column of `cols` points at, the columns in ascending order. */
  function RelationReferences(spec: Spec, cols: set<nat>, c: nat): seq<nat>
    requires c <= spec.width
    decreases spec.width - c
  {
    if c == spec.width then []
    else if c in cols && c in spec.relations && c >= 1 && ReferenceTarget(spec, c - 1).Some? then
      [ReferenceTarget(spec, c - 1).value] + RelationReferences(spec, cols, c + 1)
    else RelationReferences(spec, cols, c + 1)
  }

  /** The configuration line `_writeRelationType` writes for a relation name. */
  function RelationTypeLine(spec: Spec, name: string, cols: set<nat>): (r: Result<string, ConvError>)
    ensures r.Ok? ==> |name| < |r.value| && r.value[..|name|] == name && r.value[|name|] == '\t' && r.value[|r.value| - 1] == '\n'
  {
    var target1 :- Shortcut(spec, RelationSources(spec, cols, 0));
    var target2 :- Shortcut(spec, RelationReferences(spec, cols, 0));
    Ok(name + "\tArg1:" + target1 + ", Arg2:" + target2 + "\n")
  }

  /** The configuration line `_writeAttributeType` writes for an attribute name; a single modifier value adds no value list. */
  function AttributeTypeLine(spec: Spec, name: string, cols: set<nat>): (r: Result<string, ConvError>)
    ensures r.Ok? ==> |name| < |r.value| && r.value[..|name|] == name && r.value[|name|] == '\t' && r.value[|r.value| - 1] == '\n'
  {
    var shortcut :- Shortcut(spec, AttributeTargets(spec, cols, 0));
    Ok(name + "\tArg:" + shortcut + "\n")
  }

  // ---------------------------------------------------------------------------
  // Facts the definitions above rely on

  lemma {:induction false} ChainOrdered(text: string, spans: seq<Span>)
    requires forall k :: 0 <= k < |spans| ==> spans[k].0 <= spans[k].1 <= |text|
    requires forall k :: 0 < k < |spans| ==> spans[k - 1].1 <= spans[k].0
    ensures Ordered(text, spans)
    decreases |spans|
  {
    if |spans| > 0 {
      var init := spans[..|spans| - 1];
      ChainOrdered(text, init);
      forall j, k | 0 <= j < k < |spans| ensures spans[j].1 <= spans[k].0 {
        if k == |spans| - 1 && j < k - 1 {
          assert init[j].1 <= init[k - 1].0;
        }
      }
    }
  }

  /** The offsets start at or after `start`, and each token's span ends before the next one's begins. */
  lemma {:induction false} OffsetsChained(text: string, tokens: seq<string>, start: nat, line: nat)
    requires Offsets(text, tokens, start, line).Ok?
    ensures var r := Offsets(text, tokens, start, line).value;
            && (|tokens| > 0 ==> start <= r[0].0)
            && forall k :: 0 < k < |tokens| ==> r[k - 1].1 <= r[k].0
    decreases |tokens|
  {
    if |tokens| > 0 {
      var p := Find(text, tokens[0], start).value;
      var rest := Offsets(text, tokens[1..], p + |tokens[0]|, line + 1).value;
      OffsetsChained(text, tokens[1..], p + |tokens[0]|, line + 1);
      var r := Offsets(text, tokens, start, line).value;
      assert r == [(p, p + |tokens[0]|)] + rest;
      forall k | 0 < k < |tokens| ensures r[k - 1].1 <= r[k].0 {
        if k > 1 {
          assert r[k - 1] == rest[k - 2] && r[k] == rest[k - 1];
        }
      }
    }
  }

  lemma OffsetsOrdered(text: string, tokens: seq<string>, start: nat, line: nat)
    requires Offsets(text, tokens, start, line).Ok?
    ensures Ordered(text, Offsets(text, tokens, start, line).value)
  {
    var spans := Offsets(text, tokens, start, line).value;
    OffsetsLocated(text, tokens, start, line);
    forall k | 0 <= k < |spans| ensures spans[k].0 <= spans[k].1 <= |text| {
      assert Located(text, tokens[k], spans[k]);
    }
    OffsetsChained(text, tokens, start, line);
    ChainOrdered(text, spans);
  }
}
