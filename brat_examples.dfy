/**
 * The lines of the brat test cases, parsed by the class of their kind and printed back.
 * The unit identifier `ID` of the tests is not keyed, so these go through the per-kind
 * parsers rather than the dispatch table.
 */
module BratExamples {
  import opened Wrappers
  import opened Text
  import opened Brat
  import opened BratFacts

  lemma EntityLine()
    ensures EntityFromString("ID\tname 1 5\ttext") == Ok(Entity("ID", "name", 1, 5, "text"))
    ensures ToString(Entity("ID", "name", 1, 5, "text")) == "ID\tname 1 5\ttext"
  {
    assert IntToString(1) == "1" && IntToString(5) == "5";
    assert Line("ID", "name", "1" + " " + "5" + "\t" + "text") == "ID\tname 1 5\ttext";
    EntityRoundTrip("ID", "name", 1, 5, "text");
  }

  /** `int` ignores the space that splitting `1  5` at its first space leaves before `5`. */
  lemma PaddedOffsetLine()
    ensures EntityFromString("T1\tname 1  5\tabcd") == Ok(Entity("T1", "name", 1, 5, "abcd"))
  {
    assert IntToString(1) == "1" && IntToString(5) == "5";
    assert Line("T1", "name", "1" + " " + " " + "5" + "\t" + "abcd") == "T1\tname 1  5\tabcd";
    EntitySpacedOffsets("T1", "name", 1, " ", 5, "abcd");
  }

  lemma NormalizationLine()
    ensures NormalizationFromString("ID\tReference target db:xref\ttext")
         == Ok(Normalization("ID", "target", "db", "xref", "text"))
    ensures ToString(Normalization("ID", "target", "db", "xref", "text")) == "ID\tReference target db:xref\ttext"
  {
    NormalizationText();
    NormalizationFields();
    NormalizationRoundTrip("ID", "target", "db", "xref", "text");
  }

  lemma NormalizationText()
    ensures Line("ID", "Reference", "target" + " " + ("db" + ":" + "xref") + "\t" + "text")
         == "ID\tReference target db:xref\ttext"
  {
  }

  lemma NormalizationFields()
    ensures '\t' !in "ID" && ' ' !in "target" && '\t' !in "target" && ':' !in "db" && '\t' !in "db" && '\t' !in "xref"
  {
  }

  lemma NoteLine()
    ensures NoteFromString("ID\tname target\ttext") == Ok(Note("ID", "name", "target", "text"))
    ensures ToString(Note("ID", "name", "target", "text")) == "ID\tname target\ttext"
  {
    assert ToString(Note("ID", "name", "target", "text")) == "ID\tname target\ttext" by {
      assert Line("ID", "name", "target" + "\t" + "text") == "ID\tname target\ttext";
    }
    assert NoteFromString("ID\tname target\ttext") == Ok(Note("ID", "name", "target", "text")) by {
      assert Line("ID", "name", "target" + "\t" + "text") == "ID\tname target\ttext";
      NoteRoundTrip("ID", "name", "target", "text");
    }
  }

  lemma RelationPairs()
    ensures Pairs(RelationArgs("arg1", "arg2")) == ["Arg1:arg1", "Arg2:arg2"]
  {
    assert "Arg1" + ":" + "arg1" == "Arg1:arg1";
    assert "Arg2" + ":" + "arg2" == "Arg2:arg2";
  }

  lemma RelationPrinted()
    ensures ToString(Relation("ID", "name", "arg1", "arg2")) == "ID\tname Arg1:arg1 Arg2:arg2"
  {
    RelationPairs();
    assert Join(["Arg1:arg1", "Arg2:arg2"], " ") == "Arg1:arg1 Arg2:arg2";
    assert Line("ID", "name", "Arg1:arg1 Arg2:arg2") == "ID\tname Arg1:arg1 Arg2:arg2";
  }

  lemma RelationLine()
    ensures RelationFromString("ID\tname Arg1:arg1 Arg2:arg2") == Ok(Relation("ID", "name", "arg1", "arg2"))
    ensures ToString(Relation("ID", "name", "arg1", "arg2")) == "ID\tname Arg1:arg1 Arg2:arg2"
  {
    RelationPrinted();
    RelationRoundTrip("ID", "name", "arg1", "arg2");
  }

  /** Bare targets are given the `Arg1` and `Arg2` roles. */
  lemma RelationBareTargets()
    ensures RelationFromString("ID\tname arg1 arg2") == Ok(Relation("ID", "name", "arg1", "arg2"))
  {
    assert Line("ID", "name", "arg1" + " " + "arg2") == "ID\tname arg1 arg2";
    BareTargets("ID", "name", "arg1", "arg2");
  }

  const EventArgs: Items := [("Arg1", "arg1"), ("Arg2", "arg2"), ("Arg3", "arg3")]

  lemma EventPairs()
    ensures Pairs(EventArgs) == ["Arg1:arg1", "Arg2:arg2", "Arg3:arg3"]
  {
    assert "Arg1" + ":" + "arg1" == "Arg1:arg1";
    assert "Arg2" + ":" + "arg2" == "Arg2:arg2";
    assert "Arg3" + ":" + "arg3" == "Arg3:arg3";
  }

  lemma EventArgsString()
    ensures ArgsString(EventArgs) == "Arg1:arg1 Arg2:arg2 Arg3:arg3"
  {
    EventPairs();
    assert Join(["Arg1:arg1", "Arg2:arg2", "Arg3:arg3"], " ") == "Arg1:arg1 Arg2:arg2 Arg3:arg3";
  }

  lemma EventArgsPlain()
    ensures Sorted(EventArgs) && Keys(EventArgs) !! Reserved
    ensures forall i :: 0 <= i < |EventArgs| ==> PlainItem(EventArgs[i])
  {
    assert Below("Arg1", "Arg2") && Below("Arg2", "Arg3") && Below("Arg1", "Arg3");
    forall k | k in Keys(EventArgs) ensures k !in Reserved {
      var i :| 0 <= i < |EventArgs| && EventArgs[i].0 == k;
      assert k[0] == 'A';
    }
  }

  lemma EventPrinted()
    ensures ToString(Event("ID", "name", "trigger", EventArgs)) == "ID\tname:trigger " + "Arg1:arg1 Arg2:arg2 Arg3:arg3"
    ensures Line("ID", "name" + ":" + "trigger", ArgsString(EventArgs)) == "ID\tname:trigger " + "Arg1:arg1 Arg2:arg2 Arg3:arg3"
  {
    EventArgsString();
    var rest := ArgsString(EventArgs);
    assert Line("ID", "name" + ":" + "trigger", rest) == "ID" + "\t" + ("name" + ":" + "trigger" + " ") + rest;
    assert "ID" + "\t" + ("name" + ":" + "trigger" + " ") == "ID\tname:trigger ";
  }

  lemma EventLine()
    ensures EventFromString("ID\tname:trigger " + "Arg1:arg1 Arg2:arg2 Arg3:arg3")
         == Ok(Event("ID", "name", "trigger", EventArgs))
    ensures ToString(Event("ID", "name", "trigger", EventArgs)) == "ID\tname:trigger " + "Arg1:arg1 Arg2:arg2 Arg3:arg3"
  {
    EventPrinted();
    EventArgsPlain();
    EventRoundTrip("ID", "name", "trigger", EventArgs);
  }

  lemma EquivLine()
    ensures EquivFromString("ID\tname T1 T2 T3") == Ok(Equiv("ID", "name", ["T1", "T2", "T3"]))
    ensures ToString(Equiv("ID", "name", ["T1", "T2", "T3"])) == "ID\tname T1 T2 T3"
  {
    EquivPrinted();
    EquivTargetsPlain();
    EquivRoundTrip("ID", "name", ["T1", "T2", "T3"]);
  }

  lemma EquivPrinted()
    ensures ToString(Equiv("ID", "name", ["T1", "T2", "T3"])) == "ID\tname T1 T2 T3"
    ensures Line("ID", "name", Join(["T1", "T2", "T3"], " ")) == "ID\tname T1 T2 T3"
  {
    assert Join(["T1", "T2", "T3"], " ") == "T1 T2 T3";
    assert Line("ID", "name", "T1 T2 T3") == "ID\tname T1 T2 T3";
  }

  lemma EquivTargetsPlain()
    ensures var targets := ["T1", "T2", "T3"];
      forall i :: 0 <= i < |targets| ==> |targets[i]| > 0 && HasNoWhitespace(targets[i])
  {
    assert HasNoWhitespace("T1") && HasNoWhitespace("T2") && HasNoWhitespace("T3");
  }

  /** test_brat's `test_str`: a name holding a character beyond the Basic Multilingual Plane prints back unchanged. */
  lemma EquivWideCharLine(line: string, name: string)
    requires line == "the\tuni\U{11111}code test" && name == "uni\U{11111}code"
    ensures EquivFromString(line) == Ok(Equiv("the", name, ["test"]))
    ensures ToString(Equiv("the", name, ["test"])) == line
  {
    WideCharFields(name);
    assert Join(["test"], " ") == "test";
    assert Line("the", name, "test") == line;
    assert ToString(Equiv("the", name, ["test"])) == Line("the", name, Join(["test"], " "));
    EquivRoundTrip("the", name, ["test"]);
  }

  lemma WideCharFields(name: string)
    requires name == "uni\U{11111}code"
    ensures '\t' !in "the" && ' ' !in name && HasNoWhitespace("test")
  {
  }

  /** `str.split()` also cuts at Unicode spaces: a no-break space and an em space separate targets. */
  lemma EquivUnicodeSpaces(line: string)
    requires line == "*\tname T1\U{00A0}T2\U{2003}T3"
    ensures EquivFromString(line) == Ok(Equiv("*", "name", ["T1", "T2", "T3"]))
  {
    TargetWords();
    var rest := "T1" + ['\U{00A0}'] + "T2" + ['\U{2003}'] + "T3";
    assert Line("*", "name", rest) == line;
    FieldsOfLine("*", "name", rest);
    ThreeWords("T1", '\U{00A0}', "T2", '\U{2003}', "T3");
  }

  lemma TargetWords()
    ensures HasNoWhitespace("T1") && HasNoWhitespace("T2") && HasNoWhitespace("T3")
    ensures IsWhitespace('\U{00A0}') && IsWhitespace('\U{2003}')
  {
  }

  /** Three words, each pair separated by a single whitespace character. */
  lemma ThreeWords(a: string, x: char, b: string, y: char, c: string)
    requires |a| > 0 && |b| > 0 && |c| > 0 && IsWhitespace(x) && IsWhitespace(y)
    requires HasNoWhitespace(a) && HasNoWhitespace(b) && HasNoWhitespace(c)
    ensures Words(a + [x] + b + [y] + c) == [a, b, c]
  {
    assert a + [x] + b + [y] + c == a + [x] + (b + [y] + c);
    WordsAtSpace(a, x, b + [y] + c);
    WordsAtSpace(b, y, c);
    WordsOfWordFirst(c, "");
    assert c + "" == c;
  }

  lemma AttributeLine()
    ensures AttributeFromString("ID\tname target") == Ok(Attribute("ID", "name", "target", None))
    ensures ToString(Attribute("ID", "name", "target", None)) == "ID\tname target"
  {
    assert ToString(Attribute("ID", "name", "target", None)) == "ID\tname target" by {
      assert Line("ID", "name", "target") == "ID\tname target";
    }
    assert AttributeFromString("ID\tname target") == Ok(Attribute("ID", "name", "target", None)) by {
      assert Line("ID", "name", "target") == "ID\tname target";
      AttributeBareRoundTrip("ID", "name", "target");
    }
  }

  lemma AttributeWithModifier()
    ensures AttributeFromString("ID\tname target modifier") == Ok(Attribute("ID", "name", "target", Some("modifier")))
  {
    assert Line("ID", "name", "target" + " " + "modifier") == "ID\tname target modifier";
    AttributeModifiedRoundTrip("ID", "name", "target", "modifier");
  }

  /** Records are equal field by field: another unit identifier makes them differ. */
  lemma OtherUidDiffers()
    ensures Entity("ID", "name", 1, 5, "text") != Entity("ANOTHER", "name", 1, 5, "text")
    ensures Parse("T1\tname 0 4\ttext") == Ok(Entity("T1", "name", 0, 4, "text"))
  {
    assert IntToString(0) == "0" && IntToString(4) == "4";
    assert Line("T1", "name", "0" + " " + "4" + "\t" + "text") == "T1\tname 0 4\ttext";
    EntityRoundTrip("T1", "name", 0, 4, "text");
    ParseDispatch("T1\tname 0 4\ttext");
  }
}
