/**
 * Round trips of the brat line codec: a well-formed record prints to a line that parses
 * back to it, and every parsed record is well formed except the two degenerate ones.
 */
module BratFacts {
  import opened Wrappers
  import opened Text
  import opened Brat

  lemma NumberHasNoSeparator(i: int)
    ensures ' ' !in IntToString(i) && '\t' !in IntToString(i)
  {
    if i < 0 {
      var d := NatToString(-i);
      assert IsDigits(d);
      assert IntToString(i) == "-" + d;
    } else {
      assert IsDigits(NatToString(i));
    }
  }

  // ---------------------------------------------------------------------------
  // Printing then parsing

  lemma EntityRoundTrip(uid: string, name: string, start: int, end: int, text: string)
    requires '\t' !in uid && ' ' !in name && |text| == end - start
    ensures EntityFromString(Line(uid, name, IntToString(start) + " " + IntToString(end) + "\t" + text))
         == Ok(Entity(uid, name, start, end, text))
  {
    var s := IntToString(start);
    var e := IntToString(end);
    var mid := s + " " + e;
    NumberHasNoSeparator(start);
    NumberHasNoSeparator(end);
    TextFieldsOfLine(uid, name, mid, text);
    SplitOnceOfJoin(s, ' ', e);
    ParseIntOfIntToString(start);
    ParseIntOfIntToString(end);
    EntityOfParts(Line(uid, name, mid + "\t" + text), uid, name, mid, text, s, e, start, end);
  }

  /** `Entity.from_string` on a line whose fields, offsets and numbers are known. */
  lemma EntityOfParts(line: string, uid: string, name: string, offset: string, text: string, s: string, e: string, start: int, end: int)
    requires TextFields(line) == Some((uid, name, offset, text))
    requires SplitOnce(offset, ' ') == Some((s, e)) && ParseInt(s) == Some(start) && ParseInt(e) == Some(end)
    ensures EntityFromString(line) == NewEntity(uid, name, start, end, text)
  {
  }

  /** `Entity.from_string` splits the offsets at their first space; `int` drops further spaces. */
  lemma EntitySpacedOffsets(uid: string, name: string, start: int, pad: string, end: int, text: string)
    requires '\t' !in uid && ' ' !in name && |text| == end - start
    requires forall i :: 0 <= i < |pad| ==> pad[i] == ' '
    ensures EntityFromString(Line(uid, name, IntToString(start) + " " + pad + IntToString(end) + "\t" + text))
         == Ok(Entity(uid, name, start, end, text))
  {
    var s := IntToString(start);
    var e := IntToString(end);
    var mid := s + " " + pad + e;
    SpacedOffsets(start, pad, end);
    TextFieldsOfLine(uid, name, mid, text);
    EntityOfParts(Line(uid, name, mid + "\t" + text), uid, name, mid, text, s, pad + e, start, end);
  }

  lemma SpacedOffsets(start: int, pad: string, end: int)
    requires forall i :: 0 <= i < |pad| ==> pad[i] == ' '
    ensures var s := IntToString(start); var e := IntToString(end);
      && '\t' !in s + " " + pad + e
      && SplitOnce(s + " " + pad + e, ' ') == Some((s, pad + e))
      && ParseInt(s) == Some(start) && ParseInt(pad + e) == Some(end)
  {
    var s := IntToString(start);
    var e := IntToString(end);
    NumberHasNoSeparator(start);
    NumberHasNoSeparator(end);
    assert s + " " + pad + e == s + [' '] + (pad + e);
    SplitOnceOfJoin(s, ' ', pad + e);
    ParseIntOfIntToString(start);
    ParseIntOfIntToString(end);
    IntToStringUnpadded(end);
    ParseIntIgnoresPadding(pad, e, "");
    assert pad + e + "" == pad + e;
  }

  lemma NormalizationRoundTrip(uid: string, target: string, db: string, xref: string, text: string)
    requires '\t' !in uid && ' ' !in target && '\t' !in target && ':' !in db && '\t' !in db && '\t' !in xref
    requires text == "" ==> xref == ""
    ensures NormalizationFromString(Line(uid, "Reference", target + " " + (db + ":" + xref) + "\t" + text))
         == Ok(Normalization(uid, target, db, xref, text))
  {
    var ref := db + ":" + xref;
    TextFieldsOfLine(uid, "Reference", target + " " + ref, text);
    SplitOnceOfJoin(target, ' ', ref);
    SplitOnceOfJoin(db, ':', xref);
  }

  lemma NoteRoundTrip(uid: string, name: string, target: string, text: string)
    requires '\t' !in uid && ' ' !in name && '\t' !in target
    ensures NoteFromString(Line(uid, name, target + "\t" + text)) == Ok(Note(uid, name, target, text))
  {
    TextFieldsOfLine(uid, name, target, text);
  }

  lemma AfterColonOfPrefix(prefix: string, t: string)
    requires ':' !in prefix
    ensures AfterColon(prefix + ":" + t) == t
  {
    SplitOnceOfJoin(prefix, ':', t);
  }

  /** The two `key:value` words of a relation, whatever the two keys are. */
  lemma KeyedPairRoundTrip(uid: string, name: string, k1: string, arg1: string, k2: string, arg2: string)
    requires '\t' !in uid && ' ' !in name && ' ' !in arg1 && ' ' !in arg2
    requires ':' !in k1 && ' ' !in k1 && ':' !in k2 && ' ' !in k2
    ensures RelationFromString(Line(uid, name, Join([k1 + ":" + arg1, k2 + ":" + arg2], " ")))
         == Ok(NewRelation(uid, name, k1 + ":" + arg1, k2 + ":" + arg2))
  {
    var ps := [k1 + ":" + arg1, k2 + ":" + arg2];
    FieldsOfLine(uid, name, Join(ps, " "));
    SplitOfJoin(ps, ' ');
  }

  lemma RelationRoundTrip(uid: string, name: string, arg1: string, arg2: string)
    requires '\t' !in uid && ' ' !in name && ' ' !in arg1 && ' ' !in arg2
    ensures RelationFromString(Line(uid, name, ArgsString(RelationArgs(arg1, arg2))))
         == Ok(Relation(uid, name, arg1, arg2))
  {
    var ps := Pairs(RelationArgs(arg1, arg2));
    assert ps == ["Arg1" + ":" + arg1, "Arg2" + ":" + arg2];
    KeyedPairRoundTrip(uid, name, "Arg1", arg1, "Arg2", arg2);
    AfterColonOfPrefix("Arg1", arg1);
    AfterColonOfPrefix("Arg2", arg2);
  }

  /** Targets without a role are given the `Arg1` and `Arg2` roles. */
  lemma BareTargets(uid: string, name: string, target1: string, target2: string)
    requires '\t' !in uid && ' ' !in name && ' ' !in target1 && ' ' !in target2
    requires ':' !in target1 && ':' !in target2
    ensures RelationFromString(Line(uid, name, target1 + " " + target2)) == Ok(Relation(uid, name, target1, target2))
  {
    FieldsOfLine(uid, name, Join([target1, target2], " "));
    SplitOfJoin([target1, target2], ' ');
  }

  lemma {:induction false} ArgPairsOfPairs(items: Items)
    requires forall i :: 0 <= i < |items| ==> PlainItem(items[i])
    ensures ArgPairs(Pairs(items)) == Some(items)
    decreases |items|
  {
    if |items| > 0 {
      var kv := [items[0].0, items[0].1];
      assert Join(kv, [':']) == items[0].0 + ":" + items[0].1;
      SplitOfJoin(kv, ':');
      assert Pairs(items)[1..] == Pairs(items[1..]);
      ArgPairsOfPairs(items[1..]);
      assert items == [items[0]] + items[1..];
    }
  }

  lemma EventRoundTrip(uid: string, name: string, trigger: string, args: Items)
    requires '\t' !in uid && ' ' !in name && ':' !in name && ' ' !in trigger
    requires |args| > 0 && Sorted(args) && Keys(args) !! Reserved && !(|args| == 1 && args[0].0 == "args")
    requires forall i :: 0 <= i < |args| ==> PlainItem(args[i])
    ensures EventFromString(Line(uid, name + ":" + trigger, ArgsString(args))) == Ok(Event(uid, name, trigger, args))
  {
    var ps := Pairs(args);
    FieldsOfLine(uid, name + ":" + trigger, Join(ps, " "));
    SplitOnceOfJoin(name, ':', trigger);
    SplitOfJoin(ps, ' ');
    ArgPairsOfPairs(args);
    DictOfSorted(args);
  }

  lemma EquivRoundTrip(uid: string, name: string, targets: seq<string>)
    requires '\t' !in uid && ' ' !in name
    requires forall i :: 0 <= i < |targets| ==> |targets[i]| > 0 && HasNoWhitespace(targets[i])
    ensures EquivFromString(Line(uid, name, Join(targets, " "))) == Ok(Equiv(uid, name, targets))
  {
    FieldsOfLine(uid, name, Join(targets, " "));
    WordsOfJoin(targets);
  }

  lemma AttributeBareRoundTrip(uid: string, name: string, target: string)
    requires '\t' !in uid && ' ' !in name && ' ' !in target
    ensures AttributeFromString(Line(uid, name, target)) == Ok(Attribute(uid, name, target, None))
  {
    FieldsOfLine(uid, name, target);
  }

  lemma AttributeModifiedRoundTrip(uid: string, name: string, target: string, modifier: string)
    requires '\t' !in uid && ' ' !in name && ' ' !in target
    ensures AttributeFromString(Line(uid, name, target + " " + modifier))
         == Ok(Attribute(uid, name, target, Some(modifier)))
  {
    FieldsOfLine(uid, name, target + " " + modifier);
    SplitOnceOfJoin(target, ' ', modifier);
  }

  lemma AttributeRoundTrip(uid: string, name: string, target: string, modifier: Option<string>)
    requires '\t' !in uid && ' ' !in name && ' ' !in target && modifier != Some("")
    ensures AttributeFromString(Line(uid, name, target + ModifierSuffix(modifier)))
         == Ok(Attribute(uid, name, target, modifier))
  {
    if modifier.Some? {
      assert ModifierSuffix(modifier) == " " + modifier.value;
      assert target + ModifierSuffix(modifier) == target + " " + modifier.value;
      AttributeModifiedRoundTrip(uid, name, target, modifier.value);
    } else {
      assert target + ModifierSuffix(modifier) == target;
      AttributeBareRoundTrip(uid, name, target);
    }
  }

  /** The dispatch table: the parser registered under each first character. */
  lemma ParseDispatch(line: string)
    requires |line| > 0
    ensures line[0] == 'T' ==> Parse(line) == EntityFromString(line)
    ensures line[0] == 'N' ==> Parse(line) == NormalizationFromString(line)
    ensures line[0] == '#' ==> Parse(line) == NoteFromString(line)
    ensures line[0] == 'R' ==> Parse(line) == RelationFromString(line)
    ensures line[0] == 'E' ==> Parse(line) == EventFromString(line)
    ensures line[0] == '*' ==> Parse(line) == EquivFromString(line)
    ensures line[0] == 'A' || line[0] == 'M' ==> Parse(line) == AttributeFromString(line)
  {
  }

  lemma PrintThenParseText(a: Annotation)
    requires (a.Entity? || a.Normalization? || a.Note?) && WellFormed(a)
    ensures |ToString(a)| > 0 && Parse(ToString(a)) == Ok(a)
  {
    ParseDispatch(ToString(a));
    match a
    case Entity(uid, name, start, end, text) => EntityRoundTrip(uid, name, start, end, text);
    case Normalization(uid, target, db, xref, text) => NormalizationRoundTrip(uid, target, db, xref, text);
    case Note(uid, name, target, text) => NoteRoundTrip(uid, name, target, text);
  }

  lemma PrintThenParseAssociation(a: Annotation)
    requires (a.Relation? || a.Event?) && WellFormed(a)
    ensures |ToString(a)| > 0 && Parse(ToString(a)) == Ok(a)
  {
    ParseDispatch(ToString(a));
    match a
    case Relation(uid, name, arg1, arg2) => RelationRoundTrip(uid, name, arg1, arg2);
    case Event(uid, name, trigger, args) => EventRoundTrip(uid, name, trigger, args);
  }

  lemma PrintThenParseOther(a: Annotation)
    requires (a.Equiv? || a.Attribute?) && WellFormed(a)
    ensures |ToString(a)| > 0 && Parse(ToString(a)) == Ok(a)
  {
    ParseDispatch(ToString(a));
    match a
    case Equiv(uid, name, targets) => EquivRoundTrip(uid, name, targets);
    case Attribute(uid, name, target, modifier) => AttributeRoundTrip(uid, name, target, modifier);
  }

  /** `from_string(str(a)) == a` for every well-formed record, through the dispatch table. */
  lemma PrintThenParse(a: Annotation)
    requires WellFormed(a)
    ensures |ToString(a)| > 0 && Parse(ToString(a)) == Ok(a)
  {
    if a.Entity? || a.Normalization? || a.Note? {
      PrintThenParseText(a);
    } else if a.Relation? || a.Event? {
      PrintThenParseAssociation(a);
    } else {
      PrintThenParseOther(a);
    }
  }

  // ---------------------------------------------------------------------------
  // Parsing then printing

  lemma {:induction false} PutItems(items: Items, key: string, value: string)
    ensures forall x :: x in Put(items, key, value) ==> x in items || x == (key, value)
    decreases |items|
  {
    if |items| > 0 && !Below(key, items[0].0) && items[0].0 != key {
      PutItems(items[1..], key, value);
    }
  }

  lemma {:induction false} DictItems(pairs: Items)
    ensures forall x :: x in Dict(pairs) ==> x in pairs
  {
    if |pairs| > 0 {
      var n := |pairs| - 1;
      DictItems(pairs[..n]);
      PutItems(Dict(pairs[..n]), pairs[n].0, pairs[n].1);
    }
  }

  /** The items of a dictionary are plain when the pairs it was built from are. */
  lemma DictPlain(pairs: Items)
    requires forall i :: 0 <= i < |pairs| ==> PlainItem(pairs[i])
    ensures |pairs| > 0 ==> |Dict(pairs)| > 0
    ensures forall i :: 0 <= i < |Dict(pairs)| ==> PlainItem(Dict(pairs)[i])
  {
    DictSorted(pairs);
    DictItems(pairs);
    var d := Dict(pairs);
    forall i | 0 <= i < |d| ensures PlainItem(d[i]) {
      assert d[i] in d;
      var j :| 0 <= j < |pairs| && pairs[j] == d[i];
    }
    if |pairs| > 0 {
      assert pairs[0].0 in Keys(pairs);
    }
  }

  /** The pairs of `key:value` words hold no separator. */
  lemma ArgPairsPlain(parts: seq<string>)
    requires forall i :: 0 <= i < |parts| ==> ' ' !in parts[i]
    requires ArgPairs(parts).Some?
    ensures forall i :: 0 <= i < |ArgPairs(parts).value| ==> PlainItem(ArgPairs(parts).value[i])
  {
    var pairs := ArgPairs(parts).value;
    forall i | 0 <= i < |pairs| ensures PlainItem(pairs[i]) {
      assert parts[i] == pairs[i].0 + ":" + pairs[i].1;
    }
  }

  lemma ParsedEventHeader(line: string)
    requires EventFromString(line).Ok?
    ensures var a := EventFromString(line).value;
      '\t' !in a.uid && ' ' !in a.name && ':' !in a.name && ' ' !in a.trigger
  {
    var f := Fields(line).value;
    var nt := SplitOnce(f.1, ':').value;
    assert f.1 == nt.0 + [':'] + nt.1;
  }

  lemma ParsedEventArgs(line: string)
    requires EventFromString(line).Ok?
    ensures var a := EventFromString(line).value;
      && (a.args == [] || (|a.args| > 0 && !(|a.args| == 1 && a.args[0].0 == "args")))
      && forall i :: 0 <= i < |a.args| ==> PlainItem(a.args[i])
  {
    var parts := Split(Fields(line).value.2, ' ');
    SplitMeaning(Fields(line).value.2, ' ');
    ArgPairsPlain(parts);
    DictPlain(ArgPairs(parts).value);
  }

  lemma ParsedEvent(line: string)
    requires EventFromString(line).Ok?
    ensures var a := EventFromString(line).value;
      && '\t' !in a.uid && ' ' !in a.name && ':' !in a.name && ' ' !in a.trigger
      && (a.args == [] || (|a.args| > 0 && !(|a.args| == 1 && a.args[0].0 == "args")))
      && forall i :: 0 <= i < |a.args| ==> PlainItem(a.args[i])
  {
    ParsedEventHeader(line);
    ParsedEventArgs(line);
  }

  lemma ParsedTextWellFormed(line: string)
    requires |line| > 0 && (line[0] == 'T' || line[0] == 'N' || line[0] == '#') && Parse(line).Ok?
    ensures WellFormed(Parse(line).value)
  {
    ParseDispatch(line);
  }

  lemma ParsedRelationWellFormed(line: string)
    requires |line| > 0 && line[0] == 'R' && Parse(line).Ok?
    ensures WellFormed(Parse(line).value)
  {
    ParseDispatch(line);
    var f := Fields(line).value;
    var a := Parse(line).value;
    assert a.uid == f.0 && a.name == f.1;
    assert Keyed(a);
  }

  lemma ParsedEventWellFormed(line: string)
    requires |line| > 0 && line[0] == 'E' && Parse(line).Ok?
    ensures WellFormed(Parse(line).value) || Degenerate(Parse(line).value)
  {
    ParseDispatch(line);
    ParsedEvent(line);
    var a := Parse(line).value;
    assert Keyed(a);
  }

  lemma ParsedEquivWellFormed(line: string)
    requires |line| > 0 && line[0] == '*' && Parse(line).Ok?
    ensures WellFormed(Parse(line).value)
  {
    ParseDispatch(line);
  }

  lemma ParsedAttributeFields(line: string)
    requires AttributeFromString(line).Ok?
    ensures var a := AttributeFromString(line).value;
      a.Attribute? && '\t' !in a.uid && ' ' !in a.name && ' ' !in a.target
  {
    var f := Fields(line).value;
    assert AttributeFromString(line).value.uid == f.0 && AttributeFromString(line).value.name == f.1;
  }

  lemma ParsedAttributeWellFormed(line: string)
    requires |line| > 0 && (line[0] == 'A' || line[0] == 'M') && Parse(line).Ok?
    ensures WellFormed(Parse(line).value) || Degenerate(Parse(line).value)
  {
    ParseDispatch(line);
    ParsedAttributeFields(line);
    var a := Parse(line).value;
    assert Keyed(a);
  }

  /** Every record the parser builds prints and parses back to itself, but the degenerate two. */
  lemma ParsedIsWellFormed(line: string)
    requires |line| > 0 && Parse(line).Ok?
    ensures WellFormed(Parse(line).value) || Degenerate(Parse(line).value)
  {
    if line[0] == 'T' || line[0] == 'N' || line[0] == '#' {
      ParsedTextWellFormed(line);
    } else if line[0] == 'R' {
      ParsedRelationWellFormed(line);
    } else if line[0] == 'E' {
      ParsedEventWellFormed(line);
    } else if line[0] == '*' {
      ParsedEquivWellFormed(line);
    } else {
      ParsedAttributeWellFormed(line);
    }
  }

  /** Parsing the printed form of a parsed record gives the record again. */
  lemma ParseIsStable(line: string)
    requires |line| > 0 && Parse(line).Ok? && !Degenerate(Parse(line).value)
    ensures |ToString(Parse(line).value)| > 0 && Parse(ToString(Parse(line).value)) == Parse(line)
  {
    ParsedIsWellFormed(line);
    PrintThenParse(Parse(line).value);
  }
}
