/**
 * Reading OTPL files: the lines of a file are split into fields by a detected separator and
 * grouped into blank-line delimited segments of equal-width rows.
 */
module Reader {
  import opened Wrappers
  import opened Text

  /** The two separators the reader detects: `TAB` (`/\t/`) and `SPACES` (`/\s+/`). */
  datatype Separator = Tab | Spaces

  /** A row is the list of a line's fields; a segment is a list of rows. */
  type Row = seq<string>
  type Segment = seq<Row>

  /** `separator.split(line)`. */
  function SplitFields(sep: Separator, line: string): (fields: Row)
    ensures |fields| >= 1
  {
    match sep
    case Tab => Split(line, '\t')
    case Spaces => SplitSpaces(line)
  }

  /** `raw_line.rstrip('\r\n')`: the line without its trailing carriage returns and newlines. */
  function StripLineEnd(s: string): string
  {
    if |s| > 0 && (s[|s| - 1] == '\r' || s[|s| - 1] == '\n') then StripLineEnd(s[..|s| - 1]) else s
  }

  /** Stripping removes exactly the longest run of line-end characters at the end. */
  lemma {:induction false} StripLineEndMeaning(s: string)
    ensures StripLineEnd(s) <= s
    ensures var r := StripLineEnd(s); |r| > 0 ==> r[|r| - 1] != '\r' && r[|r| - 1] != '\n'
    ensures forall i :: |StripLineEnd(s)| <= i < |s| ==> s[i] == '\r' || s[i] == '\n'
  {
    if |s| > 0 && (s[|s| - 1] == '\r' || s[|s| - 1] == '\n') {
      StripLineEndMeaning(s[..|s| - 1]);
    }
  }

  /** The lines `_open` yields for the lines of a file. */
  function Lines(raw: seq<string>): (lines: seq<string>)
    ensures |lines| == |raw|
    ensures forall i :: 0 <= i < |raw| ==> lines[i] == StripLineEnd(raw[i])
  {
    seq(|raw|, i requires 0 <= i < |raw| => StripLineEnd(raw[i]))
  }

  /** `DataFormatError`: line `line` has `found` columns, but `expected` were expected. */
  datatype FormatError = FormatError(line: nat, found: nat, expected: nat)

  /** A line that iteration turns into a row: not empty and not matched by the filter. */
  predicate Accepted(filter: string -> bool, line: string)
  {
    line != "" && !filter(line)
  }

  // ---------------------------------------------------------------------------
  // Segmentation (`__iter__`, `_parseLine`, `_extractFields`)

  /** What iteration carries from one line to the next. */
  datatype ReadState = ReadState(width: nat, segment: seq<Row>, yielded: seq<Segment>, error: Option<FormatError>)

  /** Reading line number `lno`. */
  function ReadStep(st: ReadState, sep: Separator, filter: string -> bool, lno: nat, line: string): ReadState
  {
    if st.error.Some? then st
    else if line != "" then
      if filter(line) then st
      else
        var fields := SplitFields(sep, line);
        if st.width != 0 && st.width != |fields| then st.(error := Some(FormatError(lno, |fields|, st.width)))
        else st.(width := if st.width == 0 then |fields| else st.width, segment := st.segment + [fields])
    else if st.segment != [] then st.(segment := [], yielded := st.yielded + [st.segment])
    else st
  }

  /** The state after the first `n` lines. */
  function ReadUpTo(sep: Separator, filter: string -> bool, lines: seq<string>, n: nat): (st: ReadState)
    requires n <= |lines|
    ensures |st.yielded| + (if st.segment == [] then 0 else 1) <= n
    ensures st.error.Some? ==> 1 <= st.error.value.line <= n
  {
    if n == 0 then ReadState(0, [], [], None)
    else ReadStep(ReadUpTo(sep, filter, lines, n - 1), sep, filter, n, lines[n - 1])
  }

  /** The segments iteration yields before it ends or raises. */
  function Segments(sep: Separator, filter: string -> bool, lines: seq<string>): (segs: seq<Segment>)
    ensures |segs| <= |lines|
  {
    var st := ReadUpTo(sep, filter, lines, |lines|);
    if st.error.None? && st.segment != [] then st.yielded + [st.segment] else st.yielded
  }

  /** The format error iteration raises, if any. */
  function ReadError(sep: Separator, filter: string -> bool, lines: seq<string>): Option<FormatError>
  {
    ReadUpTo(sep, filter, lines, |lines|).error
  }

  // ---------------------------------------------------------------------------
  // Field counting (`_countFields`)

  /** `counts[k] += 1` on a `defaultdict(int)`. */
  function Increment(counts: map<nat, nat>, k: nat): map<nat, nat>
  {
    counts[k := (if k in counts then counts[k] else 0) + 1]
  }

  /** How many of the first `n` lines split into each number of fields. */
  function FieldCounts(sep: Separator, lines: seq<string>, n: nat): map<nat, nat>
    requires n <= |lines|
  {
    if n == 0 then map[]
    else Increment(FieldCounts(sep, lines, n - 1), |SplitFields(sep, lines[n - 1])|)
  }

  /** The accepted lines among the first `n` lines. */
  function AcceptedLines(filter: string -> bool, lines: seq<string>, n: nat): (acc: seq<string>)
    requires n <= |lines|
    ensures |acc| <= n
  {
    if n == 0 then []
    else if Accepted(filter, lines[n - 1]) then AcceptedLines(filter, lines, n - 1) + [lines[n - 1]]
    else AcceptedLines(filter, lines, n - 1)
  }

  /** Counting stops after ten lines, or once both splitters have seen two field numbers. */
  predicate SampleFull(acc: seq<string>, k: nat)
    requires k <= |acc|
  {
    k > 9 || (|FieldCounts(Spaces, acc, k)| > 1 && |FieldCounts(Tab, acc, k)| > 1)
  }

  /** The length of the shortest prefix of `acc`, from `k` lines on, at which counting stops. */
  function SampleLength(acc: seq<string>, k: nat): (n: nat)
    requires 1 <= k
    ensures n <= |acc|
    ensures k <= |acc| ==> k <= n
    decreases |acc| - k
  {
    if k > |acc| then |acc|
    else if SampleFull(acc, k) then k
    else SampleLength(acc, k + 1)
  }

  /** The field counts `_countFields` returns for one splitter. */
  function SampleCounts(sep: Separator, filter: string -> bool, lines: seq<string>): map<nat, nat>
  {
    var acc := AcceptedLines(filter, lines, |lines|);
    FieldCounts(sep, acc, SampleLength(acc, 1))
  }

  // ---------------------------------------------------------------------------
  // Separator choice (`_choose_separator`)

  /** `k` is the largest element of `s`. */
  predicate IsMax(s: set<nat>, k: nat)
  {
    k in s && forall j :: j in s ==> j <= k
  }

  lemma {:induction false} MaxExists(s: set<nat>)
    requires s != {}
    ensures exists k :: IsMax(s, k)
    decreases |s|
  {
    var x :| x in s;
    var rest := s - {x};
    if rest == {} {
      assert s == {x};
      assert IsMax(s, x);
    } else {
      MaxExists(rest);
      var k: nat :| IsMax(rest, k);
      MaxOfInsert(rest, k, x);
      assert s == rest + {x};
    }
  }

  /** Adding `x` to a set with largest element `k` gives the larger of the two as its largest. */
  lemma MaxOfInsert(s: set<nat>, k: nat, x: nat)
    requires IsMax(s, k)
    ensures IsMax(s + {x}, if x > k then x else k)
  {
  }

  /** `max(counts.keys())`. */
  function MaxKey(counts: map<nat, nat>): (k: nat)
    requires |counts| > 0
    ensures k in counts && forall j :: j in counts ==> j <= k
  {
    MaxExists(counts.Keys);
    var k: nat :| IsMax(counts.Keys, k);
    k
  }

  /** With a single field number, it is the largest one. */
  lemma OnlyKey(counts: map<nat, nat>, k: nat)
    requires |counts| == 1 && k in counts
    ensures MaxKey(counts) == k
  {
    var m := MaxKey(counts);
    if m != k {
      assert {m, k} <= counts.Keys;
      assert |{m, k}| == 2;
      SubsetCardinality({m, k}, counts.Keys);
    }
  }

  lemma {:induction false} SubsetCardinality(a: set<nat>, b: set<nat>)
    requires a <= b
    ensures |a| <= |b|
    decreases |b|
  {
    if a != {} {
      var x :| x in a;
      SubsetCardinality(a - {x}, b - {x});
    }
  }

  /** Every key is a number of fields, so at least one. */
  ghost predicate FieldNumbers(counts: map<nat, nat>)
  {
    forall k :: k in counts ==> k >= 1
  }

  /** The splitter gives a single number of fields, `fields`, and it is above one. */
  ghost predicate StableAbove(counts: map<nat, nat>, fields: nat)
  {
    |counts| == 1 && fields in counts && fields > 1
  }

  /**
   * `_choose_separator`. For counts of field numbers: a separator is chosen exactly when one
   * splitter gives a single number of fields above one; TAB is chosen when SPACES gives no
   * single number, or fewer or as many fields, and SPACES otherwise.
   */
  function ChooseSeparator(spaces: map<nat, nat>, tabs: map<nat, nat>): (choice: Option<Separator>)
    ensures FieldNumbers(spaces) && FieldNumbers(tabs) ==>
      (choice.Some? <==> (|spaces| == 1 && MaxKey(spaces) > 1) || (|tabs| == 1 && MaxKey(tabs) > 1))
    ensures FieldNumbers(spaces) && FieldNumbers(tabs) && choice == Some(Tab) ==>
      |tabs| == 1 && StableAbove(tabs, MaxKey(tabs)) && (|spaces| == 1 ==> MaxKey(spaces) <= MaxKey(tabs))
    ensures FieldNumbers(spaces) && FieldNumbers(tabs) && choice == Some(Spaces) ==>
      |spaces| == 1 && StableAbove(spaces, MaxKey(spaces)) && (|tabs| == 1 ==> MaxKey(tabs) < MaxKey(spaces))
  {
    if |spaces| == 1 && |tabs| != 1 then
      if MaxKey(spaces) > 1 then Some(Spaces) else None
    else if |tabs| == 1 && |spaces| != 1 then
      if MaxKey(tabs) > 1 then Some(Tab) else None
    else if |tabs| == 1 && |spaces| == 1 then
      var tab := MaxKey(tabs);
      var space := MaxKey(spaces);
      if tab != 1 || space != 1 then
        if tab >= space then Some(Tab) else Some(Spaces)
      else None
    else None
  }

  // ---------------------------------------------------------------------------
  // The reader

  /**
   * `OtplReader`: the lines of one file as `_open` yields them, the separator (undefined until
   * set or detected) and the filter, a predicate selecting the lines to skip.
   */
  class OtplReader {
    const lines: seq<string>
    var separator: Option<Separator>
    var filter: string -> bool

    /** A new reader skips only empty lines and has no separator yet. */
    constructor (rawLines: seq<string>)
      ensures lines == Lines(rawLines) && separator.None?
      ensures forall line :: filter(line) <==> line == ""
    {
      lines := Lines(rawLines);
      separator := None;
      filter := line => line == "";
    }

    /** The `filter` setter. */
    method SetFilter(f: string -> bool)
      modifies this
      ensures filter == f && separator == old(separator)
    {
      filter := f;
    }

    /** The `separator` setter. */
    method SetSeparator(sep: Separator)
      modifies this
      ensures separator == Some(sep) && filter == old(filter)
    {
      separator := Some(sep);
    }

    /** `_extractFields`: the fields of a line, or a format error when the width differs. */
    method ExtractFields(line: string, lno: nat, columnCount: nat) returns (r: Result<Row, FormatError>)
      requires separator.Some?
      ensures var fields := SplitFields(separator.value, line);
        && (r.Ok? <==> columnCount == 0 || columnCount == |fields|)
        && (r.Ok? ==> r.value == fields)
        && (r.Err? ==> r.error == FormatError(lno, |fields|, columnCount))
    {
      var fields := SplitFields(separator.value, line);
      if columnCount != 0 && columnCount != |fields| {
        return Err(FormatError(lno, |fields|, columnCount));
      }
      return Ok(fields);
    }

    /** `_parseLine`: append the row of an unfiltered line and fix the width at the first row. */
    method ParseLine(line: string, lno: nat, segment: seq<Row>, columnCount: nat)
      returns (next: seq<Row>, count: nat, error: Option<FormatError>)
      requires separator.Some? && line != ""
      requires columnCount == 0 ==> segment == []
      ensures var st := ReadStep(ReadState(columnCount, segment, [], None), separator.value, filter, lno, line);
        && error == st.error
        && (error.None? ==> next == st.segment && count == st.width)
    {
      next, count, error := segment, columnCount, None;
      if !filter(line) {
        var fields := ExtractFields(line, lno, columnCount);
        if fields.Err? {
          return segment, columnCount, Some(fields.error);
        }
        next := segment + [fields.value];
        count := if columnCount == 0 then |next[0]| else columnCount;
      }
    }

    /**
     * `__iter__`, run to its end: the segments it yields and the format error it raises
     * after them, if any.
     */
    method Iterate() returns (segments: seq<Segment>, error: Option<FormatError>)
      requires separator.Some?
      ensures segments == Segments(separator.value, filter, lines)
      ensures error == ReadError(separator.value, filter, lines)
    {
      var columnCount := 0;
      var segment: seq<Row> := [];
      segments := [];
      var lno := 0;
      while lno < |lines|
        invariant 0 <= lno <= |lines|
        invariant ReadUpTo(separator.value, filter, lines, lno) == ReadState(columnCount, segment, segments, None)
        invariant columnCount == 0 ==> segment == []
      {
        var line := lines[lno];
        ghost var before := ReadState(columnCount, segment, segments, None);
        ghost var after := ReadStep(before, separator.value, filter, lno + 1, line);
        ReadUpToNext(separator.value, filter, lines, lno);
        if line != "" {
          var next, count, failure := ParseLine(line, lno + 1, segment, columnCount);
          ReadStepKeepsYielded(before, separator.value, filter, lno + 1, line);
          if failure.Some? {
            assert after.error == failure;
            ReadErrorSticks(separator.value, filter, lines, lno + 1, |lines|);
            return segments, failure;
          }
          segment, columnCount := next, count;
          assert after == ReadState(columnCount, segment, segments, None);
        } else if segment != [] {
          segments := segments + [segment];
          segment := [];
          assert after == ReadState(columnCount, segment, segments, None);
        }
        lno := lno + 1;
      }
      if segment != [] {
        segments := segments + [segment];
      }
      return segments, None;
    }

    /**
     * `_countFields`: how many of the sampled lines split into each number of fields, for
     * SPACES and for TAB.
     */
    method CountFields() returns (spaces: map<nat, nat>, tabs: map<nat, nat>)
      ensures spaces == SampleCounts(Spaces, filter, lines)
      ensures tabs == SampleCounts(Tab, filter, lines)
    {
      var f := filter;
      spaces, tabs := map[], map[];
      var count := 0;
      var i := 0;
      while i < |lines|
        invariant 0 <= i <= |lines|
        invariant CountedUpTo(f, lines, i, count, spaces, tabs)
      {
        var line := lines[i];
        if line != "" && !f(line) {
          CountAccepted(f, lines, i, count, spaces, tabs);
          spaces := Increment(spaces, |SplitSpaces(line)|);
          tabs := Increment(tabs, |Split(line, '\t')|);
          count := count + 1;
          if count > 9 || (|spaces| > 1 && |tabs| > 1) {
            return;
          }
        } else {
          CountSkipped(f, lines, i, count, spaces, tabs);
        }
        i := i + 1;
      }
      CountedAll(f, lines, count, spaces, tabs);
    }

    /**
     * `detect_separator`: choose a separator from the field counts; the separator is set
     * only when the choice succeeds.
     */
    method DetectSeparator() returns (found: bool)
      modifies this
      ensures var choice := ChooseSeparator(SampleCounts(Spaces, old(filter), lines), SampleCounts(Tab, old(filter), lines));
        && found == choice.Some?
        && separator == (if found then choice else old(separator))
      ensures filter == old(filter)
    {
      var separator: Option<Separator> := None;
      var spaces, tabs := CountFields();
      if |spaces| == 1 || |tabs| == 1 {
        separator := ChooseSeparator(spaces, tabs);
      }
      if separator.Some? {
        SetSeparator(separator.value);
      }
      return separator.Some?;
    }
  }

  /** One more line is one more step. */
  lemma ReadUpToNext(sep: Separator, filter: string -> bool, lines: seq<string>, n: nat)
    requires n < |lines|
    ensures ReadUpTo(sep, filter, lines, n + 1) == ReadStep(ReadUpTo(sep, filter, lines, n), sep, filter, n + 1, lines[n])
  {
  }

  /** A non-empty line leaves the yielded segments alone, so the step does not depend on them. */
  lemma ReadStepKeepsYielded(st: ReadState, sep: Separator, filter: string -> bool, lno: nat, line: string)
    requires st.error.None? && line != ""
    ensures ReadStep(st, sep, filter, lno, line) == ReadStep(st.(yielded := []), sep, filter, lno, line).(yielded := st.yielded)
  {
  }

  lemma {:induction false} ReadErrorSticks(sep: Separator, filter: string -> bool, lines: seq<string>, n: nat, m: nat)
    requires n <= m <= |lines|
    requires ReadUpTo(sep, filter, lines, n).error.Some?
    ensures ReadUpTo(sep, filter, lines, m) == ReadUpTo(sep, filter, lines, n)
    decreases m - n
  {
    if n < m {
      ReadErrorSticks(sep, filter, lines, n, m - 1);
    }
  }

  /**
   * After `i` lines, `_countFields` has counted the first `count` accepted lines, and the
   * sample is longer than that.
   */
  ghost predicate CountedUpTo(filter: string -> bool, lines: seq<string>, i: nat, count: nat,
                              spaces: map<nat, nat>, tabs: map<nat, nat>)
    requires i <= |lines|
  {
    var acc := AcceptedLines(filter, lines, |lines|);
    && count == |AcceptedLines(filter, lines, i)| <= |acc|
    && spaces == FieldCounts(Spaces, acc, count) && tabs == FieldCounts(Tab, acc, count)
    && SampleLength(acc, 1) == SampleLength(acc, count + 1)
  }

  lemma CountAccepted(filter: string -> bool, lines: seq<string>, i: nat, count: nat,
                      spaces: map<nat, nat>, tabs: map<nat, nat>)
    requires i < |lines| && CountedUpTo(filter, lines, i, count, spaces, tabs)
    requires Accepted(filter, lines[i])
    ensures var spaces', tabs' := Increment(spaces, |SplitSpaces(lines[i])|), Increment(tabs, |Split(lines[i], '\t')|);
      if count + 1 > 9 || (|spaces'| > 1 && |tabs'| > 1) then
        spaces' == SampleCounts(Spaces, filter, lines) && tabs' == SampleCounts(Tab, filter, lines)
      else CountedUpTo(filter, lines, i + 1, count + 1, spaces', tabs')
  {
    AcceptedStep(filter, lines, i, count);
    var acc := AcceptedLines(filter, lines, |lines|);
    assert FieldCounts(Spaces, acc, count + 1) == Increment(spaces, |SplitSpaces(lines[i])|);
    assert FieldCounts(Tab, acc, count + 1) == Increment(tabs, |Split(lines[i], '\t')|);
  }

  lemma CountSkipped(filter: string -> bool, lines: seq<string>, i: nat, count: nat,
                     spaces: map<nat, nat>, tabs: map<nat, nat>)
    requires i < |lines| && CountedUpTo(filter, lines, i, count, spaces, tabs)
    requires !Accepted(filter, lines[i])
    ensures CountedUpTo(filter, lines, i + 1, count, spaces, tabs)
  {
    AcceptedStep(filter, lines, i, count);
  }

  lemma CountedAll(filter: string -> bool, lines: seq<string>, count: nat, spaces: map<nat, nat>, tabs: map<nat, nat>)
    requires CountedUpTo(filter, lines, |lines|, count, spaces, tabs)
    ensures spaces == SampleCounts(Spaces, filter, lines) && tabs == SampleCounts(Tab, filter, lines)
  {
  }

  /** The loop of `_countFields` meets the accepted lines one by one. */
  lemma AcceptedStep(filter: string -> bool, lines: seq<string>, i: nat, count: nat)
    requires i < |lines| && count == |AcceptedLines(filter, lines, i)|
    ensures var acc := AcceptedLines(filter, lines, |lines|);
      if Accepted(filter, lines[i]) then
        count < |acc| && acc[count] == lines[i] && count + 1 == |AcceptedLines(filter, lines, i + 1)|
      else count == |AcceptedLines(filter, lines, i + 1)|
  {
    AcceptedPrefix(filter, lines, i + 1, |lines|);
    var acc := AcceptedLines(filter, lines, |lines|);
    var next := AcceptedLines(filter, lines, i + 1);
    if Accepted(filter, lines[i]) {
      assert next == AcceptedLines(filter, lines, i) + [lines[i]];
      assert acc[count] == acc[..|next|][count] == next[count];
    }
  }

  lemma {:induction false} AcceptedPrefix(filter: string -> bool, lines: seq<string>, n: nat, m: nat)
    requires n <= m <= |lines|
    ensures |AcceptedLines(filter, lines, n)| <= |AcceptedLines(filter, lines, m)|
    ensures AcceptedLines(filter, lines, m)[..|AcceptedLines(filter, lines, n)|] == AcceptedLines(filter, lines, n)
    decreases m - n
  {
    if n < m {
      AcceptedPrefix(filter, lines, n, m - 1);
      var a, b := AcceptedLines(filter, lines, n), AcceptedLines(filter, lines, m - 1);
      assert b[..|a|] == a;
      if Accepted(filter, lines[m - 1]) {
        assert (b + [lines[m - 1]])[..|a|] == b[..|a|];
      }
    }
  }
}
