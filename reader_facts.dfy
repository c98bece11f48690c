/**
 * What iterating a reader yields: segments of equal-width rows, the rows of the accepted
 * lines in order, and a format error exactly at the first line whose width differs.
 */
module ReaderFacts {
  import opened Wrappers
  import opened Text
  import opened Reader

  /** The rows of all segments, in order. */
  function Flatten(segments: seq<Segment>): seq<Row>
  {
    if segments == [] then [] else Flatten(segments[..|segments| - 1]) + segments[|segments| - 1]
  }

  /** The rows of the given lines. */
  function Rows(sep: Separator, lines: seq<string>): (rows: seq<Row>)
    ensures |rows| == |lines|
  {
    seq(|lines|, i requires 0 <= i < |lines| => SplitFields(sep, lines[i]))
  }

  /** All lines split into as many fields as the first one. */
  ghost predicate Uniform(sep: Separator, lines: seq<string>)
  {
    forall k :: 0 <= k < |lines| ==> |SplitFields(sep, lines[k])| == |SplitFields(sep, lines[0])|
  }

  /** `column_count` at the end of iteration. */
  function ColumnCount(sep: Separator, filter: string -> bool, lines: seq<string>): nat
  {
    ReadUpTo(sep, filter, lines, |lines|).width
  }

  /** Every row held by the state has the state's width, and no yielded segment is empty. */
  ghost predicate WellShaped(st: ReadState)
  {
    && (st.width == 0 ==> st.segment == [] && st.yielded == [])
    && (forall j :: 0 <= j < |st.segment| ==> |st.segment[j]| == st.width)
    && (forall i :: 0 <= i < |st.yielded| ==> st.yielded[i] != [])
    && (forall i, j :: 0 <= i < |st.yielded| && 0 <= j < |st.yielded[i]| ==> |st.yielded[i][j]| == st.width)
  }

  lemma {:induction false} ReadUpToShaped(sep: Separator, filter: string -> bool, lines: seq<string>, n: nat)
    requires n <= |lines|
    ensures WellShaped(ReadUpTo(sep, filter, lines, n))
  {
    if n > 0 {
      ReadUpToShaped(sep, filter, lines, n - 1);
    }
  }

  /**
   * Iteration yields only non-empty segments, and every row of every segment has the same
   * number of fields, at least one.
   */
  lemma SegmentsShape(sep: Separator, filter: string -> bool, lines: seq<string>)
    ensures var segments := Segments(sep, filter, lines);
      var width := ColumnCount(sep, filter, lines);
      && (segments != [] ==> width >= 1)
      && (forall i :: 0 <= i < |segments| ==> segments[i] != [])
      && (forall i, j :: 0 <= i < |segments| && 0 <= j < |segments[i]| ==> |segments[i][j]| == width)
  {
    ReadUpToShaped(sep, filter, lines, |lines|);
  }

  lemma RowsAppend(sep: Separator, lines: seq<string>, line: string)
    ensures Rows(sep, lines + [line]) == Rows(sep, lines) + [SplitFields(sep, line)]
  {
    assert forall i :: 0 <= i < |lines| ==> (lines + [line])[i] == lines[i];
  }

  lemma FlattenAppend(segments: seq<Segment>, segment: Segment)
    ensures Flatten(segments + [segment]) == Flatten(segments) + segment
  {
    assert (segments + [segment])[..|segments|] == segments;
  }

  /** The rows held by a state: those of the yielded segments, then the pending ones. */
  function Held(st: ReadState): seq<Row>
  {
    Flatten(st.yielded) + st.segment
  }

  /** One line keeps the held rows a prefix of the rows of the accepted lines. */
  lemma StepRows(sep: Separator, filter: string -> bool, prev: ReadState, lno: nat, line: string, acc: seq<string>)
    requires Held(prev) <= Rows(sep, acc) && (prev.error.None? ==> Held(prev) == Rows(sep, acc))
    ensures var st := ReadStep(prev, sep, filter, lno, line);
      var rows := Rows(sep, if Accepted(filter, line) then acc + [line] else acc);
      Held(st) <= rows && (st.error.None? ==> Held(st) == rows)
  {
    var st := ReadStep(prev, sep, filter, lno, line);
    if Accepted(filter, line) {
      RowsAppend(sep, acc, line);
      if st.error.None? {
        assert st.yielded == prev.yielded && st.segment == prev.segment + [SplitFields(sep, line)];
      } else {
        assert st == prev || st == prev.(error := st.error);
      }
    } else if prev.error.None? && line == "" && prev.segment != [] {
      FlattenAppend(prev.yielded, prev.segment);
    }
  }

  lemma {:induction false} ReadUpToRows(sep: Separator, filter: string -> bool, lines: seq<string>, n: nat)
    requires n <= |lines|
    ensures var st := ReadUpTo(sep, filter, lines, n);
      var rows := Rows(sep, AcceptedLines(filter, lines, n));
      Held(st) <= rows && (st.error.None? ==> Held(st) == rows)
  {
    if n > 0 {
      ReadUpToRows(sep, filter, lines, n - 1);
      StepRows(sep, filter, ReadUpTo(sep, filter, lines, n - 1), n, lines[n - 1], AcceptedLines(filter, lines, n - 1));
    }
  }

  /**
   * The rows of the segments are those of the accepted lines, in order; after a format error
   * they are a prefix of them.
   */
  lemma SegmentsContents(sep: Separator, filter: string -> bool, lines: seq<string>)
    ensures var rows := Rows(sep, AcceptedLines(filter, lines, |lines|));
      && Flatten(Segments(sep, filter, lines)) <= rows
      && (ReadError(sep, filter, lines).None? ==> Flatten(Segments(sep, filter, lines)) == rows)
  {
    var st := ReadUpTo(sep, filter, lines, |lines|);
    ReadUpToRows(sep, filter, lines, |lines|);
    if st.error.None? && st.segment != [] {
      FlattenAppend(st.yielded, st.segment);
    } else {
      assert Flatten(st.yielded) <= Held(st);
    }
  }

  /** No error so far: the width is that of the first accepted line, and all lines share it. */
  ghost predicate Consistent(sep: Separator, st: ReadState, acc: seq<string>)
  {
    && Uniform(sep, acc)
    && st.width == (if acc == [] then 0 else |SplitFields(sep, acc[0])|)
  }

  /** The error raised at line `e.line`: the first accepted line whose width differs. */
  ghost predicate FirstMismatch(sep: Separator, filter: string -> bool, lines: seq<string>, e: FormatError)
  {
    && 1 <= e.line <= |lines|
    && Accepted(filter, lines[e.line - 1])
    && var prior := AcceptedLines(filter, lines, e.line - 1);
      && prior != [] && Uniform(sep, prior)
      && e.expected == |SplitFields(sep, prior[0])|
      && e.found == |SplitFields(sep, lines[e.line - 1])|
      && e.found != e.expected
  }

  /** A skipped line leaves a consistent state consistent. */
  lemma StepSkipped(sep: Separator, filter: string -> bool, lines: seq<string>, n: nat)
    requires 0 < n <= |lines| && !Accepted(filter, lines[n - 1])
    requires var prev := ReadUpTo(sep, filter, lines, n - 1);
      prev.error.None? && Consistent(sep, prev, AcceptedLines(filter, lines, n - 1))
    ensures var st := ReadUpTo(sep, filter, lines, n);
      st.error.None? && Consistent(sep, st, AcceptedLines(filter, lines, n))
  {
    assert AcceptedLines(filter, lines, n) == AcceptedLines(filter, lines, n - 1);
  }

  /** An accepted line of the expected width extends a consistent state. */
  lemma StepMatching(sep: Separator, filter: string -> bool, lines: seq<string>, n: nat)
    requires 0 < n <= |lines| && Accepted(filter, lines[n - 1])
    requires var prev := ReadUpTo(sep, filter, lines, n - 1);
      && prev.error.None? && Consistent(sep, prev, AcceptedLines(filter, lines, n - 1))
      && (prev.width == 0 || prev.width == |SplitFields(sep, lines[n - 1])|)
    ensures var st := ReadUpTo(sep, filter, lines, n);
      st.error.None? && Consistent(sep, st, AcceptedLines(filter, lines, n))
  {
    var acc := AcceptedLines(filter, lines, n - 1);
    var next := acc + [lines[n - 1]];
    assert AcceptedLines(filter, lines, n) == next;
    assert forall k :: 0 <= k < |acc| ==> next[k] == acc[k];
    assert Uniform(sep, next);
  }

  /** An accepted line of another width raises the first mismatch. */
  lemma StepMismatch(sep: Separator, filter: string -> bool, lines: seq<string>, n: nat)
    requires 0 < n <= |lines| && Accepted(filter, lines[n - 1])
    requires var prev := ReadUpTo(sep, filter, lines, n - 1);
      && prev.error.None? && Consistent(sep, prev, AcceptedLines(filter, lines, n - 1))
      && prev.width != 0 && prev.width != |SplitFields(sep, lines[n - 1])|
    ensures var st := ReadUpTo(sep, filter, lines, n);
      st.error.Some? && st.error.value.line == n && FirstMismatch(sep, filter, lines, st.error.value)
  {
  }

  lemma {:induction false} ReadUpToErrors(sep: Separator, filter: string -> bool, lines: seq<string>, n: nat)
    requires n <= |lines|
    ensures var st := ReadUpTo(sep, filter, lines, n);
      && (st.error.None? ==> Consistent(sep, st, AcceptedLines(filter, lines, n)))
      && (st.error.Some? ==> st.error.value.line <= n && FirstMismatch(sep, filter, lines, st.error.value))
  {
    if n > 0 {
      ReadUpToErrors(sep, filter, lines, n - 1);
      ErrorsStep(sep, filter, lines, n);
    }
  }

  /** One line keeps the outcome `ReadUpToErrors` states. */
  lemma ErrorsStep(sep: Separator, filter: string -> bool, lines: seq<string>, n: nat)
    requires 1 <= n <= |lines|
    requires var prev := ReadUpTo(sep, filter, lines, n - 1);
      && (prev.error.None? ==> Consistent(sep, prev, AcceptedLines(filter, lines, n - 1)))
      && (prev.error.Some? ==> FirstMismatch(sep, filter, lines, prev.error.value))
    ensures var st := ReadUpTo(sep, filter, lines, n);
      && (st.error.None? ==> Consistent(sep, st, AcceptedLines(filter, lines, n)))
      && (st.error.Some? ==> FirstMismatch(sep, filter, lines, st.error.value))
  {
    var prev := ReadUpTo(sep, filter, lines, n - 1);
    if prev.error.None? {
      if !Accepted(filter, lines[n - 1]) {
        StepSkipped(sep, filter, lines, n);
      } else if prev.width == 0 || prev.width == |SplitFields(sep, lines[n - 1])| {
        StepMatching(sep, filter, lines, n);
      } else {
        StepMismatch(sep, filter, lines, n);
      }
    } else {
      assert ReadUpTo(sep, filter, lines, n) == prev;
    }
  }

  /** An accepted line whose width differs from that of the first accepted line makes the accepted lines non-uniform. */
  lemma MismatchNotUniform(sep: Separator, filter: string -> bool, lines: seq<string>, n: nat)
    requires 1 <= n <= |lines| && Accepted(filter, lines[n - 1])
    requires AcceptedLines(filter, lines, n - 1) != []
    requires |SplitFields(sep, lines[n - 1])| != |SplitFields(sep, AcceptedLines(filter, lines, n - 1)[0])|
    ensures !Uniform(sep, AcceptedLines(filter, lines, |lines|))
  {
    var prior := AcceptedLines(filter, lines, n - 1);
    var next := AcceptedLines(filter, lines, n);
    assert next == prior + [lines[n - 1]];
    AcceptedPrefix(filter, lines, n, |lines|);
    WiderPrefixNotUniform(sep, AcceptedLines(filter, lines, |lines|), next, prior, lines[n - 1]);
  }

  /** The first mismatch is such a line. */
  lemma FirstMismatchNotUniform(sep: Separator, filter: string -> bool, lines: seq<string>, e: FormatError)
    requires FirstMismatch(sep, filter, lines, e)
    ensures !Uniform(sep, AcceptedLines(filter, lines, |lines|))
  {
    MismatchNotUniform(sep, filter, lines, e.line);
  }

  /** Lines starting with a uniform run and then a line of another width are not uniform. */
  lemma WiderPrefixNotUniform(sep: Separator, acc: seq<string>, next: seq<string>, prior: seq<string>, line: string)
    requires prior != [] && next == prior + [line] && |next| <= |acc| && acc[..|next|] == next
    requires |SplitFields(sep, line)| != |SplitFields(sep, prior[0])|
    ensures !Uniform(sep, acc)
  {
    assert acc[0] == (prior + [line])[0] == prior[0];
    assert acc[|prior|] == (prior + [line])[|prior|] == line;
  }

  /**
   * Iteration raises no format error exactly when all accepted lines split into the same
   * number of fields, and otherwise raises it at the first line that does not.
   */
  lemma ReadErrorMeaning(sep: Separator, filter: string -> bool, lines: seq<string>)
    ensures var acc := AcceptedLines(filter, lines, |lines|);
      ReadError(sep, filter, lines).None? <==> Uniform(sep, acc)
    ensures var error := ReadError(sep, filter, lines);
      error.Some? ==> FirstMismatch(sep, filter, lines, error.value)
  {
    ReadUpToErrors(sep, filter, lines, |lines|);
    var error := ReadError(sep, filter, lines);
    if error.Some? {
      FirstMismatchNotUniform(sep, filter, lines, error.value);
    }
  }
}

/** Separator detection: what `_choose_separator` decides from the field counts. */
module SeparatorFacts {
  import opened Wrappers
  import opened Text
  import opened Reader

  lemma {:induction false} FieldCountsAreFieldNumbers(sep: Separator, lines: seq<string>, n: nat)
    requires n <= |lines|
    ensures FieldNumbers(FieldCounts(sep, lines, n))
  {
    if n > 0 {
      FieldCountsAreFieldNumbers(sep, lines, n - 1);
    }
  }

  /** The counts `_countFields` returns have field numbers as keys. */
  lemma SampleCountsAreFieldNumbers(sep: Separator, filter: string -> bool, lines: seq<string>)
    ensures FieldNumbers(SampleCounts(sep, filter, lines))
  {
    var acc := AcceptedLines(filter, lines, |lines|);
    FieldCountsAreFieldNumbers(sep, acc, SampleLength(acc, 1));
  }

  /** One step of counting: stop at a full sample, else go on to the next line. */
  lemma SampleLengthStep(acc: seq<string>, k: nat)
    requires 1 <= k <= |acc|
    ensures SampleLength(acc, k) == if SampleFull(acc, k) then k else SampleLength(acc, k + 1)
  {
  }

  /** Counting from line `k` on stops at a full sample or at the last line. */
  lemma {:induction false} SampleLengthStops(acc: seq<string>, k: nat)
    requires 1 <= k <= |acc| + 1
    ensures var n := SampleLength(acc, k); n == |acc| || SampleFull(acc, n)
    decreases |acc| - k
  {
    if k <= |acc| {
      SampleLengthStep(acc, k);
      var full := SampleFull(acc, k);
      if !full {
        SampleLengthStops(acc, k + 1);
      }
    }
  }

  /** Counting from line `k` on passes no full sample before it stops. */
  lemma {:induction false} SampleLengthFrom(acc: seq<string>, k: nat)
    requires 1 <= k <= |acc| + 1
    ensures var n := SampleLength(acc, k);
      && (n == |acc| || SampleFull(acc, n))
      && (forall j :: k <= j < n ==> !SampleFull(acc, j))
    decreases |acc| - k
  {
    SampleLengthStops(acc, k);
    if k <= |acc| && !SampleFull(acc, k) {
      SampleLengthFrom(acc, k + 1);
      var n := SampleLength(acc, k + 1);
      assert SampleLength(acc, k) == n;
      forall j | k <= j < n
        ensures !SampleFull(acc, j)
      {
        if j > k {
          assert k + 1 <= j < n;
        }
      }
    }
  }

  /**
   * `_countFields` looks at the accepted lines up to the first at which it has seen ten lines
   * or two field numbers for both splitters, or at all of them when that never happens.
   */
  lemma SampleMeaning(acc: seq<string>)
    ensures var n := SampleLength(acc, 1);
      && n <= 10
      && (n == |acc| || SampleFull(acc, n))
      && (forall j :: 1 <= j < n ==> !SampleFull(acc, j))
  {
    SampleLengthFrom(acc, 1);
    var n := SampleLength(acc, 1);
    if n > 10 {
      assert SampleFull(acc, 10);
    }
  }
}
