/** The reading examples of the reader's test suite, over lines with the given field numbers. */
module ReaderExamples {
  import opened Wrappers
  import opened Text
  import opened Reader
  import opened ReaderFacts

  /** The default filter: skip empty lines only. */
  predicate EmptyLine(line: string)
  {
    line == ""
  }

  /** A line of three fields followed by one of two: the second line raises the error. */
  lemma VariableColumnNumbers(a: string, b: string)
    requires a != "" && b != ""
    requires |SplitFields(Spaces, a)| == 3 && |SplitFields(Spaces, b)| == 2
    ensures ReadError(Spaces, EmptyLine, [a, b]) == Some(FormatError(2, 2, 3))
    ensures Segments(Spaces, EmptyLine, [a, b]) == []
  {
    var lines := [a, b];
    assert !EmptyLine(a) && !EmptyLine(b);
    assert ReadUpTo(Spaces, EmptyLine, lines, 1) == ReadState(3, [SplitFields(Spaces, a)], [], None);
    assert ReadUpTo(Spaces, EmptyLine, lines, 2).error == Some(FormatError(2, 2, 3));
  }

  /** Two segments of two lines each, every line splitting into `n` fields. */
  lemma ReadingDefaultOtpl(a: string, b: string, c: string, d: string, n: nat)
    requires a != "" && b != "" && c != "" && d != ""
    requires |SplitFields(Spaces, a)| == n && |SplitFields(Spaces, b)| == n
    requires |SplitFields(Spaces, c)| == n && |SplitFields(Spaces, d)| == n
    ensures var lines := [a, b, "", c, d, ""];
      && ReadError(Spaces, EmptyLine, lines) == None
      && Segments(Spaces, EmptyLine, lines) ==
        [[SplitFields(Spaces, a), SplitFields(Spaces, b)], [SplitFields(Spaces, c), SplitFields(Spaces, d)]]
  {
    var lines := [a, b, "", c, d, ""];
    var ra, rb, rc, rd := SplitFields(Spaces, a), SplitFields(Spaces, b), SplitFields(Spaces, c), SplitFields(Spaces, d);
    assert !EmptyLine(a) && !EmptyLine(b) && !EmptyLine(c) && !EmptyLine(d);
    assert ReadUpTo(Spaces, EmptyLine, lines, 1) == ReadState(n, [ra], [], None);
    assert ReadUpTo(Spaces, EmptyLine, lines, 2) == ReadState(n, [ra, rb], [], None);
    assert ReadUpTo(Spaces, EmptyLine, lines, 3) == ReadState(n, [], [[ra, rb]], None);
    assert ReadUpTo(Spaces, EmptyLine, lines, 4) == ReadState(n, [rc], [[ra, rb]], None);
    assert ReadUpTo(Spaces, EmptyLine, lines, 5) == ReadState(n, [rc, rd], [[ra, rb]], None);
    assert ReadUpTo(Spaces, EmptyLine, lines, 6) == ReadState(n, [], [[ra, rb], [rc, rd]], None);
  }

  /** The accepted lines of two two-line segments. */
  lemma AcceptedSegments(a: string, b: string, c: string, d: string)
    requires a != "" && b != "" && c != "" && d != ""
    ensures AcceptedLines(EmptyLine, [a, b, "", c, d, ""], 6) == [a, b, c, d]
  {
    var lines := [a, b, "", c, d, ""];
    assert !EmptyLine(a) && !EmptyLine(b) && !EmptyLine(c) && !EmptyLine(d) && EmptyLine("");
    assert AcceptedLines(EmptyLine, lines, 2) == [a, b];
    assert AcceptedLines(EmptyLine, lines, 3) == [a, b];
    assert AcceptedLines(EmptyLine, lines, 5) == [a, b, c, d];
  }

  /** When all of the first `k` lines split into `fields` fields, that is the only count. */
  lemma {:induction false} CountsOfUniform(sep: Separator, acc: seq<string>, k: nat, fields: nat)
    requires 1 <= k <= |acc|
    requires forall i :: 0 <= i < k ==> |SplitFields(sep, acc[i])| == fields
    ensures FieldCounts(sep, acc, k).Keys == {fields} && FieldCounts(sep, acc, k)[fields] == k
  {
    if k > 1 {
      CountsOfUniform(sep, acc, k - 1, fields);
    }
    CountsOfUniformStep(FieldCounts(sep, acc, k - 1), fields, k);
    assert FieldCounts(sep, acc, k) == Increment(FieldCounts(sep, acc, k - 1), fields) by {
      assert |SplitFields(sep, acc[k - 1])| == fields;
    }
  }

  /** One more line of the same field count on top of the counts of the lines before. */
  lemma CountsOfUniformStep(prev: map<nat, nat>, fields: nat, k: nat)
    requires 1 <= k
    requires k == 1 ==> prev == map[]
    requires k > 1 ==> prev.Keys == {fields} && prev[fields] == k - 1
    ensures Increment(prev, fields).Keys == {fields} && Increment(prev, fields)[fields] == k
  {
  }

  /** Up to nine lines that one splitter splits alike. */
  ghost predicate SplitAlike(acc: seq<string>, sep: Separator, fields: nat)
  {
    && |acc| <= 9
    && forall i :: 0 <= i < |acc| ==> |SplitFields(sep, acc[i])| == fields
  }

  /** Counting does not stop while one splitter has seen a single number of fields. */
  lemma NotFullAt(acc: seq<string>, k: nat, sep: Separator, fields: nat)
    requires 1 <= k <= |acc| && SplitAlike(acc, sep, fields)
    ensures !SampleFull(acc, k)
  {
    CountsOfUniform(sep, acc, k, fields);
  }

  lemma {:induction false} AlikeCounted(acc: seq<string>, k: nat, sep: Separator, fields: nat)
    requires 1 <= k <= |acc| + 1 && SplitAlike(acc, sep, fields)
    ensures SampleLength(acc, k) == |acc|
    decreases |acc| - k
  {
    if k <= |acc| {
      NotFullAt(acc, k, sep, fields);
      AlikeCounted(acc, k + 1, sep, fields);
    }
  }

  /** Up to nine lines that one splitter splits alike are all counted, giving one count. */
  lemma UniformSample(acc: seq<string>, sep: Separator, fields: nat)
    requires 1 <= |acc| && SplitAlike(acc, sep, fields)
    ensures SampleLength(acc, 1) == |acc|
    ensures FieldCounts(sep, acc, |acc|) == map[fields := |acc|]
  {
    AlikeCounted(acc, 1, sep, fields);
    CountsOfUniform(sep, acc, |acc|, fields);
    SingleKey(FieldCounts(sep, acc, |acc|), fields, |acc|);
  }

  lemma SingleKey(m: map<nat, nat>, k: nat, v: nat)
    requires m.Keys == {k} && m[k] == v
    ensures m == map[k := v]
  {
  }

  /** SPACES (`\s+`) cuts a line at a no-break space and at an ideographic space as at a blank. */
  lemma SpacesSplitUnicode(line: string)
    requires line == "dog\U{00A0}NN\U{3000}B"
    ensures SplitFields(Spaces, line) == ["dog", "NN", "B"]
  {
    assert line == "dog" + ['\U{00A0}'] + "NN" + ['\U{3000}'] + "B";
    assert HasNoWhitespace("dog") && HasNoWhitespace("NN") && HasNoWhitespace("B");
    ThreeFields("dog", '\U{00A0}', "NN", '\U{3000}', "B");
  }

  /** Three fields, each pair separated by a single whitespace character. */
  lemma ThreeFields(a: string, x: char, b: string, y: char, c: string)
    requires |b| > 0 && |c| > 0 && IsWhitespace(x) && IsWhitespace(y)
    requires HasNoWhitespace(a) && HasNoWhitespace(b) && HasNoWhitespace(c)
    ensures SplitSpaces(a + [x] + b + [y] + c) == [a, b, c]
  {
    assert a + [x] + b + [y] + c == a + [x] + (b + [y] + c);
    SplitSpacesAtSpace(a, x, b + [y] + c);
    SplitSpacesAtSpace(b, y, c);
    RunLengthOfWord(c, "");
    assert c + "" == c;
  }

  /** Three fields by SPACES in every line beat two by TAB. */
  lemma ChooseSpacesFixture()
    ensures ChooseSeparator(map[3 := 4], map[2 := 4]) == Some(Spaces)
  {
    OnlyKey(map[3 := 4], 3);
    OnlyKey(map[2 := 4], 2);
  }

  /** Three fields by TAB in every line beat SPACES, which gives two different numbers. */
  lemma ChooseTabFixture()
    ensures ChooseSeparator(map[5 := 2, 4 := 2], map[3 := 4]) == Some(Tab)
  {
    assert |map[5 := 2, 4 := 2]| == 2;
    OnlyKey(map[3 := 4], 3);
  }

  /** Four lines split into three fields by SPACES and two by TAB: SPACES is detected. */
  lemma GuessSepSpaces(a: string, b: string, c: string, d: string)
    requires a != "" && b != "" && c != "" && d != ""
    requires SplitAlike([a, b, c, d], Spaces, 3) && SplitAlike([a, b, c, d], Tab, 2)
    ensures var lines := [a, b, "", c, d, ""];
      && SampleCounts(Spaces, EmptyLine, lines) == map[3 := 4]
      && SampleCounts(Tab, EmptyLine, lines) == map[2 := 4]
      && ChooseSeparator(SampleCounts(Spaces, EmptyLine, lines), SampleCounts(Tab, EmptyLine, lines)) == Some(Spaces)
  {
    AcceptedSegments(a, b, c, d);
    UniformSample([a, b, c, d], Spaces, 3);
    UniformSample([a, b, c, d], Tab, 2);
    ChooseSpacesFixture();
  }

  /** Five, four, five and four fields by SPACES. */
  lemma AlternatingCounts(acc: seq<string>)
    requires |acc| == 4
    requires |SplitFields(Spaces, acc[0])| == 5 && |SplitFields(Spaces, acc[1])| == 4
    requires |SplitFields(Spaces, acc[2])| == 5 && |SplitFields(Spaces, acc[3])| == 4
    ensures FieldCounts(Spaces, acc, 4) == map[5 := 2, 4 := 2]
  {
    assert FieldCounts(Spaces, acc, 1) == map[5 := 1];
    assert FieldCounts(Spaces, acc, 2) == map[5 := 1, 4 := 1];
    assert FieldCounts(Spaces, acc, 3) == map[5 := 2, 4 := 1];
  }

  /**
   * Four lines split into three fields by TAB, and into five and four fields by SPACES in
   * turn: TAB is detected.
   */
  lemma GuessSepTab(a: string, b: string, c: string, d: string)
    requires a != "" && b != "" && c != "" && d != ""
    requires |SplitFields(Spaces, a)| == 5 && |SplitFields(Spaces, b)| == 4
    requires |SplitFields(Spaces, c)| == 5 && |SplitFields(Spaces, d)| == 4
    requires SplitAlike([a, b, c, d], Tab, 3)
    ensures var lines := [a, b, "", c, d, ""];
      && SampleCounts(Spaces, EmptyLine, lines) == map[5 := 2, 4 := 2]
      && SampleCounts(Tab, EmptyLine, lines) == map[3 := 4]
      && ChooseSeparator(SampleCounts(Spaces, EmptyLine, lines), SampleCounts(Tab, EmptyLine, lines)) == Some(Tab)
  {
    AcceptedSegments(a, b, c, d);
    UniformSample([a, b, c, d], Tab, 3);
    AlternatingCounts([a, b, c, d]);
    ChooseTabFixture();
  }
}
