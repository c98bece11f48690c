/**
 * The offsets, uids, event arguments and name checks of the converter's own examples: the
 * sentence `This is Florianʼs weird test.` with its tokens, a token that is not in it, and
 * the event argument weakening of the configuration example.
 */
module ConversionExamples {
  import opened Wrappers
  import opened Text
  import opened ColSpec
  import opened Conversion
  import ConversionFacts

  const Sentence: string := "This is Florianʼs weird test."

  /** A token found at `p`, not occurring anywhere from `start` up to `p`, is found there. */
  lemma {:induction false} FindFirst(text: string, token: string, start: nat, p: nat)
    requires start <= p && OccursAt(text, token, p)
    requires forall q :: start <= q < p ==> !OccursAt(text, token, q)
    ensures Find(text, token, start) == Some(p)
    decreases p - start
  {
    if start < p {
      assert !OccursAt(text, token, start);
      FindFirst(text, token, start + 1, p);
    }
  }

  /** Token `k` found at its span, searched for from `start`: the offsets from `k` on are its span and the ones after it. */
  lemma FoundAt(text: string, tokens: seq<string>, spans: seq<Span>, k: nat, start: nat, line: nat)
    requires k < |tokens| == |spans|
    requires Find(text, tokens[k], start) == Some(spans[k].0) && spans[k].1 == spans[k].0 + |tokens[k]|
    requires Offsets(text, tokens[k + 1..], spans[k].1, line + k + 1) == Ok(spans[k + 1..])
    ensures Offsets(text, tokens[k..], start, line + k) == Ok(spans[k..])
  {
    assert tokens[k..][0] == tokens[k] && tokens[k..][1..] == tokens[k + 1..];
    assert spans[k..] == [spans[k]] + spans[k + 1..];
  }

  /** Where the words of the sentence are, and that none of them starts one character earlier. */
  lemma SentenceWords()
    ensures OccursAt(Sentence, "This", 0) && OccursAt(Sentence, "is", 5) && !OccursAt(Sentence, "is", 4)
    ensures OccursAt(Sentence, "Florian", 8) && !OccursAt(Sentence, "Florian", 7) && OccursAt(Sentence, "ʼs", 15)
    ensures OccursAt(Sentence, "weird", 18) && !OccursAt(Sentence, "weird", 17)
    ensures OccursAt(Sentence, "test", 24) && !OccursAt(Sentence, "test", 23) && OccursAt(Sentence, ".", 28)
  {
    SentenceStart(Sentence);
    SentenceMiddle(Sentence);
    SentenceEnd(Sentence);
  }

  lemma SentenceStart(t: string)
    requires t == Sentence
    ensures OccursAt(t, "This", 0) && OccursAt(t, "is", 5) && !OccursAt(t, "is", 4)
  {
    assert t[..4] == "This";
    assert t[4] == ' ';
    assert t[5] == 'i';
    assert t[6] == 's';
    assert t[5..7] == "is";
    assert t[4..6][0] == t[4];
  }

  lemma SentenceMiddle(t: string)
    requires t == Sentence
    ensures OccursAt(t, "Florian", 8) && !OccursAt(t, "Florian", 7) && OccursAt(t, "ʼs", 15)
  {
    assert t[8] == 'F' && t[14] == 'n' && t[15] == 'ʼ' && t[16] == 's';
    assert t[8..15] == "Florian" && t[15..17] == "ʼs";
    assert t[7] == ' ' && t[7..14][0] == t[7];
  }

  lemma SentenceEnd(t: string)
    requires t == Sentence
    ensures OccursAt(t, "weird", 18) && !OccursAt(t, "weird", 17)
    ensures OccursAt(t, "test", 24) && !OccursAt(t, "test", 23) && OccursAt(t, ".", 28)
  {
    assert t[24] == 't';
    assert t[17] == ' ' && t[17..22][0] == t[17];
    assert t[23] == ' ' && t[23..27][0] == t[23];
  }

  /** The tokens of the sentence bind from left to right, the possessive `ʼs` directly after `Florian`. */
  lemma SentenceOffsets()
    ensures Offsets(Sentence, ["This", "is", "Florian", "ʼs", "weird", "test", "."], 0, 1)
         == Ok([(0, 4), (5, 7), (8, 15), (15, 17), (18, 23), (24, 28), (28, 29)])
  {
    OffsetsOfSentence(Sentence, ["This", "is", "Florian", "ʼs", "weird", "test", "."],
                      [(0, 4), (5, 7), (8, 15), (15, 17), (18, 23), (24, 28), (28, 29)]);
  }

  /** Each word of the sentence, searched for from the end of the one before, is found at its start. */
  lemma SentenceFinds()
    ensures Find(Sentence, "This", 0) == Some(0) && Find(Sentence, "is", 4) == Some(5)
    ensures Find(Sentence, "Florian", 7) == Some(8) && Find(Sentence, "ʼs", 15) == Some(15)
    ensures Find(Sentence, "weird", 17) == Some(18) && Find(Sentence, "test", 23) == Some(24)
    ensures Find(Sentence, ".", 28) == Some(28)
  {
    SentenceWords();
    FindFirst(Sentence, "This", 0, 0);
    FindFirst(Sentence, "is", 4, 5);
    FindFirst(Sentence, "Florian", 7, 8);
    FindFirst(Sentence, "ʼs", 15, 15);
    FindFirst(Sentence, "weird", 17, 18);
    FindFirst(Sentence, "test", 23, 24);
    FindFirst(Sentence, ".", 28, 28);
  }

  /** The offsets of the last four tokens, from the end of `Florian` on. */
  lemma OffsetsOfSentenceEnd(t: string, tokens: seq<string>, spans: seq<Span>)
    requires t == Sentence && tokens == ["This", "is", "Florian", "ʼs", "weird", "test", "."]
    requires spans == [(0, 4), (5, 7), (8, 15), (15, 17), (18, 23), (24, 28), (28, 29)]
    ensures Offsets(t, tokens[3..], 15, 4) == Ok(spans[3..])
  {
    SentenceFinds();
    assert tokens[7..] == [] && spans[7..] == [];
    FoundAt(t, tokens, spans, 6, 28, 1);
    FoundAt(t, tokens, spans, 5, 23, 1);
    FoundAt(t, tokens, spans, 4, 17, 1);
    FoundAt(t, tokens, spans, 3, 15, 1);
  }

  /** The offsets from `is` on. */
  lemma OffsetsOfSentenceMiddle(t: string, tokens: seq<string>, spans: seq<Span>)
    requires t == Sentence && tokens == ["This", "is", "Florian", "ʼs", "weird", "test", "."]
    requires spans == [(0, 4), (5, 7), (8, 15), (15, 17), (18, 23), (24, 28), (28, 29)]
    ensures Offsets(t, tokens[1..], 4, 2) == Ok(spans[1..])
  {
    SentenceFinds();
    OffsetsOfSentenceEnd(t, tokens, spans);
    FoundAt(t, tokens, spans, 2, 7, 1);
    FoundAt(t, tokens, spans, 1, 4, 1);
  }

  lemma OffsetsOfSentence(t: string, tokens: seq<string>, spans: seq<Span>)
    requires t == Sentence && tokens == ["This", "is", "Florian", "ʼs", "weird", "test", "."]
    requires spans == [(0, 4), (5, 7), (8, 15), (15, 17), (18, 23), (24, 28), (28, 29)]
    ensures Offsets(t, tokens, 0, 1) == Ok(spans)
  {
    SentenceFinds();
    OffsetsOfSentenceMiddle(t, tokens, spans);
    FoundAt(t, tokens, spans, 0, 0, 1);
    assert tokens[0..] == tokens;
    assert spans[0..] == spans;
  }

  /** `anti-test`, the sixth token, is not ahead of the end of `weird` at 23: the error names it, its line and 23. */
  lemma MissingToken()
    ensures Offsets(Sentence, ["This", "is", "Florian", "ʼs", "weird", "anti-test", "."], 0, 1)
         == Err(TokenNotFound("anti-test", 6, 23))
  {
    MissingTokenFrom(Sentence, ["This", "is", "Florian", "ʼs", "weird", "anti-test", "."],
                     [(0, 4), (5, 7), (8, 15), (15, 17), (18, 23)]);
  }

  /** A token found at its span passes on the error of the tokens after it. */
  lemma FoundBeforeError(text: string, tokens: seq<string>, spans: seq<Span>, k: nat, start: nat, line: nat, e: ConvError)
    requires k < |tokens| && k < |spans|
    requires Find(text, tokens[k], start) == Some(spans[k].0) && spans[k].1 == spans[k].0 + |tokens[k]|
    requires Offsets(text, tokens[k + 1..], spans[k].1, line + k + 1) == Err(e)
    ensures Offsets(text, tokens[k..], start, line + k) == Err(e)
  {
    assert tokens[k..][0] == tokens[k] && tokens[k..][1..] == tokens[k + 1..];
  }

  lemma MissingTokenFrom(t: string, tokens: seq<string>, spans: seq<Span>)
    requires t == Sentence && tokens == ["This", "is", "Florian", "ʼs", "weird", "anti-test", "."]
    requires spans == [(0, 4), (5, 7), (8, 15), (15, 17), (18, 23)]
    ensures Offsets(t, tokens, 0, 1) == Err(TokenNotFound("anti-test", 6, 23))
  {
    var e := TokenNotFound("anti-test", 6, 23);
    MissingTokenEnd(t, tokens, spans);
    FoundBeforeError(t, tokens, spans, 3, 15, 1, e);
    FoundBeforeError(t, tokens, spans, 2, 7, 1, e);
    FoundBeforeError(t, tokens, spans, 1, 4, 1, e);
    FoundBeforeError(t, tokens, spans, 0, 0, 1, e);
    assert tokens[0..] == tokens;
  }

  /** From the end of `ʼs` on: `weird` is found, then `anti-test` is not. */
  lemma MissingTokenEnd(t: string, tokens: seq<string>, spans: seq<Span>)
    requires t == Sentence && tokens == ["This", "is", "Florian", "ʼs", "weird", "anti-test", "."]
    requires spans == [(0, 4), (5, 7), (8, 15), (15, 17), (18, 23)]
    ensures Offsets(t, tokens[4..], 17, 5) == Err(TokenNotFound("anti-test", 6, 23))
    ensures Find(t, "This", 0) == Some(0) && Find(t, "is", 4) == Some(5)
    ensures Find(t, "Florian", 7) == Some(8) && Find(t, "ʼs", 15) == Some(15)
  {
    SentenceFinds();
    assert Find(t, "anti-test", 23) == None;
    assert tokens[5..][0] == "anti-test";
    assert Offsets(t, tokens[5..], 23, 6) == Err(TokenNotFound("anti-test", 6, 23));
    FoundBeforeError(t, tokens, spans, 4, 17, 1, TokenNotFound("anti-test", 6, 23));
  }

  /** The twelfth entity of a file is `T12`. */
  lemma TwelfthEntity()
    ensures Uid('T', 12) == "T12"
  {
  }

  /** Arguments given as `0` are left out, and the others keep their position. */
  lemma ArgumentsKeepPositions()
    ensures ArgItems([Some("T1"), None, Some("T3")], 0) == [("Arg1", "T1"), ("Arg3", "T3")]
  {
    var ids := [Some("T1"), None, Some("T3")];
    assert ids[1..] == [None, Some("T3")] && ids[1..][1..] == [Some("T3")] && ids[1..][1..][1..] == [];
    assert "Arg" + NatToString(3) == "Arg3" && "Arg" + NatToString(1) == "Arg1";
    assert ArgItems(ids[1..][1..], 2) == [("Arg3", "T3")];
  }

  /**
   * `evt2` is first seen with its argument column and then without it: the argument becomes
   * optional, and a later event that has it does not make it required again.
   */
  lemma EventArgumentWeakens()
    ensures var e1 := StoreEventArguments(map[], "evt2", [(6, true)]);
            && e1 == Ok(map["evt2" := [(6, true)]])
            && var e2 := StoreEventArguments(e1.value, "evt2", [(6, false)]);
               && e2 == Ok(map["evt2" := [(6, false)]])
               && StoreEventArguments(e2.value, "evt2", [(6, true)]) == e2
  {
    var known: seq<(nat, bool)> := [(6, true)];
    assert known[0 := (6, false)] == [(6, false)];
    assert WeakenFrom(known, [(6, false)], 0) == WeakenFrom([(6, false)], [(6, false)], 1);
    assert map["evt2" := known]["evt2" := [(6, false)]] == map["evt2" := [(6, false)]];
    assert map["evt2" := [(6, false)]]["evt2" := [(6, false)]] == map["evt2" := [(6, false)]];
  }

  /** A name the name table renames is checked after the renaming. */
  lemma RenamedNameValidated()
    ensures ValidateName(map["PRP$" := "PRP_S"], "PRP$") == Some("PRP_S")
    ensures ValidateName(map[], "PRP$") == None
    ensures ValidateName(map[], "nsubj") == Some("nsubj")
  {
    assert !IsWordChar("PRP$"[3]);
    forall i | 0 <= i < |"PRP_S"| ensures IsWordChar("PRP_S"[i]) {
    }
    forall i | 0 <= i < |"nsubj"| ensures IsWordChar("nsubj"[i]) {
    }
  }

  /** The specification `TOKEN POS_TAG SEGMENT_ID`. */
  const SegmentIdLast := Spec(3, Some(0), None, None, Some(1), {2}, {}, map[], map[], map[], map[], map[], map[])

  /** It names the token and PoS columns only, so it reaches two columns. */
  lemma SegmentIdLastReach()
    ensures Named(SegmentIdLast) == {0, 1} && Reach(SegmentIdLast) == 2
  {
    var spec := SegmentIdLast;
    assert PairColumns(spec) == {};
    assert EventColumns(spec.events) == {};
    ReachMeaning(spec);
  }

  /** Its segment-id column is never read, so two-field rows are converted. */
  lemma SegmentIdColumnUnread()
    ensures Coherent(SegmentIdLast) && Narrowed(SegmentIdLast) == SegmentIdLast.(width := 2)
    ensures Fits(Narrowed(SegmentIdLast), [[["Hello", "UH"]]])
  {
    var spec := SegmentIdLast;
    SegmentIdLastReach();
    ConversionFacts.NarrowedCoherent(spec);
    var seg: seq<Row> := [["Hello", "UH"]];
    assert RowsFit(Narrowed(spec), seg);
  }

  // ---------------------------------------------------------------------------
  // The configuration lines of the converter's example

  /** Targets that are all entity columns share the `<ENTITY>` shortcut. */
  lemma EntityShortcut(spec: Spec, targets: seq<nat>)
    requires |targets| > 0 && forall j :: 0 <= j < |targets| ==> targets[j] in spec.entities
    ensures ConversionFacts.Typed(spec, targets) && ConversionFacts.SharedShortcut(spec, targets) == "<ENTITY>"
  {
    assert ConversionFacts.SameType(spec, targets, 0, Entity);
  }

  /** `rel1\tArg1:<ENTITY>, Arg2:<ENTITY>`: a relation column whose target and whose reference's target are entities. */
  lemma RelationEntityLine(spec: Spec, c: nat)
    requires 1 <= c < spec.width && c in spec.relations && spec.relations[c] in spec.entities
    requires ReferenceTarget(spec, c - 1).Some? && ReferenceTarget(spec, c - 1).value in spec.entities
    ensures RelationTypeLine(spec, "rel1", {c}) == Ok("rel1\tArg1:<ENTITY>, Arg2:<ENTITY>\n")
  {
    ConversionFacts.OneRelationSource(spec, c, 0);
    ConversionFacts.OneRelationReference(spec, c, 0);
    EntityShortcut(spec, [spec.relations[c]]);
    EntityShortcut(spec, [ReferenceTarget(spec, c - 1).value]);
    ConversionFacts.RelationTypeLineMeaning(spec, "rel1", {c});
    RelationLineText();
  }

  lemma RelationLineText()
    ensures "rel1" + "\tArg1:" + "<ENTITY>" + ", Arg2:" + "<ENTITY>" + "\n" == "rel1\tArg1:<ENTITY>, Arg2:<ENTITY>\n"
  {
  }

  /** `evt1\tCol7:<ENTITY>` and `evt2\tCol7?:<ENTITY>`: one argument in column 7, required or optional. */
  lemma EventEntityLines(spec: Spec)
    requires ReferenceTarget(spec, 6).Some? && ReferenceTarget(spec, 6).value in spec.entities
    ensures EventTypeLine(spec, "evt1", [(6, true)]) == Ok("evt1\tCol7:<ENTITY>\n")
    ensures EventTypeLine(spec, "evt2", [(6, false)]) == Ok("evt2\tCol7?:<ENTITY>\n")
  {
    EventEntries(spec);
    OneArgument(spec, (6, true), "Col7:<ENTITY>");
    OneArgument(spec, (6, false), "Col7?:<ENTITY>");
    EventLineText();
  }

  /** A single typed argument gives a one-entry list. */
  lemma OneArgument(spec: Spec, pair: (nat, bool), entry: string)
    requires ConversionFacts.ArgTyped(spec, pair) && ConversionFacts.EventEntry(spec, pair) == entry
    ensures EventArguments(spec, [pair]) == Ok([entry])
  {
    ConversionFacts.EventArgumentsMeaning(spec, [pair]);
    var args := EventArguments(spec, [pair]).value;
    assert args[0] == entry;
    assert args == [entry];
  }

  lemma EventEntries(spec: Spec)
    requires ReferenceTarget(spec, 6).Some? && ReferenceTarget(spec, 6).value in spec.entities
    ensures ConversionFacts.ArgTyped(spec, (6, true)) && ConversionFacts.EventEntry(spec, (6, true)) == "Col7:<ENTITY>"
    ensures ConversionFacts.ArgTyped(spec, (6, false)) && ConversionFacts.EventEntry(spec, (6, false)) == "Col7?:<ENTITY>"
  {
    assert NatToString(7) == "7";
    assert PropertyTargetType(spec, ReferenceTarget(spec, 6).value) == Ok(Entity);
  }

  lemma EventLineText()
    ensures "evt1" + "\t" + Join(["Col7:<ENTITY>"], ", ") + "\n" == "evt1\tCol7:<ENTITY>\n"
    ensures "evt2" + "\t" + Join(["Col7?:<ENTITY>"], ", ") + "\n" == "evt2\tCol7?:<ENTITY>\n"
  {
  }

  /** `att2\tArg:<EVENT>`: one attribute column whose target is an event column. */
  lemma AttributeEventLine(spec: Spec, c: nat)
    requires c < spec.width && c in spec.attributes
    requires var t := spec.attributes[c]; t !in spec.entities && spec.posTag != Some(t) && t !in spec.relations && t in spec.events
    ensures AttributeTypeLine(spec, "att2", {c}) == Ok("att2\tArg:<EVENT>\n")
  {
    ConversionFacts.TwoAttributeTargets(spec, c, c, 0);
    assert {c, c} == {c};
    var targets := [spec.attributes[c]];
    assert AttributeTargets(spec, {c}, 0) == targets;
    assert PropertyTargetType(spec, targets[0]) == Ok(Event);
    assert ConversionFacts.SameType(spec, targets, 0, Event);
    ConversionFacts.AttributeTypeLineMeaning(spec, "att2", {c});
    assert "att2" + "\tArg:" + "<EVENT>" + "\n" == "att2\tArg:<EVENT>\n";
  }

  /** `att1\tArg:<ANY>`: two attribute columns of one name whose targets are an entity and an event. */
  lemma AttributeAnyLine(spec: Spec, a: nat, b: nat)
    requires a < b < spec.width && a in spec.attributes && b in spec.attributes
    requires spec.attributes[a] in spec.entities
    requires var t := spec.attributes[b]; t !in spec.entities && spec.posTag != Some(t) && t !in spec.relations && t in spec.events
    ensures AttributeTypeLine(spec, "att1", {a, b}) == Ok("att1\tArg:<ANY>\n")
  {
    ConversionFacts.TwoAttributeTargets(spec, a, b, 0);
    var targets := [spec.attributes[a], spec.attributes[b]];
    assert AttributeTargets(spec, {a, b}, 0) == targets;
    assert PropertyTargetType(spec, targets[0]) == Ok(Entity);
    assert PropertyTargetType(spec, targets[1]) == Ok(Event);
    assert !ConversionFacts.SameType(spec, targets, 0, Entity);
    ConversionFacts.AttributeTypeLineMeaning(spec, "att1", {a, b});
    assert "att1" + "\tArg:" + "<ANY>" + "\n" == "att1\tArg:<ANY>\n";
  }
}
