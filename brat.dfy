/**
 * The brat standoff annotation records of `otplc/brat.py`: one constructor per annotation
 * kind, the parser of one annotation line (`from_string` of each class and the dispatch on
 * the line's first character) and the printer (`__str__`). The kinds and their line shapes:
 *
 *   T (entity)         uid TAB name SP start SP end TAB text
 *   N (normalization)  uid TAB "Reference" SP target SP db ":" xref TAB text
 *   # (note)           uid TAB name SP target TAB text
 *   R (relation)       uid TAB name SP "Arg1:" target1 SP "Arg2:" target2
 *   E (event)          uid TAB name ":" trigger (SP key ":" value)+
 *   * (equivalence)    uid TAB name (SP target)*
 *   A or M (attribute) uid TAB name SP target [SP modifier]
 *
 * Python's structural `__eq__` (same class, same fields) is datatype equality. An event's
 * argument dictionary is kept as its list of items sorted by key, which is the order in
 * which `__str__` prints them; two such lists are equal exactly when the dictionaries are.
 */
module Brat {
  import opened Wrappers
  import opened Text

  /** Why a line or a record is rejected, by the Python exception raised. */
  datatype BratError =
    | FormatError        // `ValueError`: a missing separator, a wrong field count, a bad number
    | OffsetMismatch     // `AssertionError`: the entity text does not span its offsets
    | IllegalArgument    // `TypeError`: an event argument named like a constructor parameter
    | UnknownAnnotation  // `KeyError`: no parser for the line's first character

  datatype Annotation =
    | Entity(uid: string, name: string, start: int, end: int, text: string)
    | Normalization(uid: string, target: string, db: string, xref: string, text: string)
    | Note(uid: string, name: string, target: string, text: string)
    | Relation(uid: string, name: string, arg1: string, arg2: string)
    | Event(uid: string, name: string, trigger: string, args: seq<(string, string)>)
    | Equiv(uid: string, name: string, targets: seq<string>)
    | Attribute(uid: string, name: string, target: string, modifier: Option<string>)

  /** The `name` attribute; a normalization is always named `Reference`. */
  function NameOf(a: Annotation): string
  {
    if a.Normalization? then "Reference" else a.name
  }

  // ---------------------------------------------------------------------------
  // Python's string order and dictionaries kept as sorted item lists

  /** `a < b` on Python strings: lexicographic by code point. */
  predicate Below(a: string, b: string)
  {
    if |a| == 0 then |b| > 0
    else |b| > 0 && (a[0] < b[0] || (a[0] == b[0] && Below(a[1..], b[1..])))
  }

  lemma {:induction false} BelowIrreflexive(a: string)
    ensures !Below(a, a)
  {
    if |a| > 0 {
      BelowIrreflexive(a[1..]);
    }
  }

  lemma {:induction false} BelowTransitive(a: string, b: string, c: string)
    requires Below(a, b) && Below(b, c)
    ensures Below(a, c)
  {
    if |a| > 0 && a[0] == b[0] && b[0] == c[0] {
      BelowTransitive(a[1..], b[1..], c[1..]);
    }
  }

  lemma {:induction false} BelowTotal(a: string, b: string)
    ensures a == b || Below(a, b) || Below(b, a)
  {
    if |a| > 0 && |b| > 0 && a[0] == b[0] {
      BelowTotal(a[1..], b[1..]);
      if a[1..] == b[1..] {
        assert a == [a[0]] + a[1..] && b == [b[0]] + b[1..];
      }
    }
  }

  lemma BelowAsymmetric(a: string, b: string)
    requires Below(a, b)
    ensures !Below(b, a)
  {
    if Below(b, a) {
      BelowTransitive(a, b, a);
      BelowIrreflexive(a);
    }
  }

  type Items = seq<(string, string)>

  /** Keys strictly increasing: the items of a dictionary in `sorted` order. */
  predicate Sorted(items: Items)
  {
    forall i, j :: 0 <= i < j < |items| ==> Below(items[i].0, items[j].0)
  }

  function Keys(items: Items): set<string>
  {
    set i | 0 <= i < |items| :: items[i].0
  }

  /** `d.get(key)`. */
  function Lookup(items: Items, key: string): (r: Option<string>)
    ensures r.None? <==> key !in Keys(items)
    ensures r.Some? ==> (key, r.value) in items
  {
    if |items| == 0 then None
    else if items[0].0 == key then Some(items[0].1)
    else
      KeysSplit(items);
      Lookup(items[1..], key)
  }

  lemma SortedTail(items: Items)
    requires |items| > 0 && Sorted(items)
    ensures Sorted(items[1..])
    ensures forall k :: k in Keys(items[1..]) ==> Below(items[0].0, k)
  {
    forall k | k in Keys(items[1..]) ensures Below(items[0].0, k) {
      var i :| 0 <= i < |items[1..]| && items[1..][i].0 == k;
      assert items[i + 1].0 == k;
    }
  }

  /** `d[key] = value` on a dictionary kept in sorted order. */
  function Put(items: Items, key: string, value: string): Items
  {
    if |items| == 0 || Below(key, items[0].0) then [(key, value)] + items
    else if items[0].0 == key then [(key, value)] + items[1..]
    else [items[0]] + Put(items[1..], key, value)
  }

  /** Setting a key keeps the items sorted, adds the key, and changes only its value. */
  lemma {:induction false} PutMeaning(items: Items, key: string, value: string)
    requires Sorted(items)
    ensures Sorted(Put(items, key, value))
    ensures Keys(Put(items, key, value)) == Keys(items) + {key}
    ensures forall k :: Lookup(Put(items, key, value), k) == if k == key then Some(value) else Lookup(items, k)
    decreases |items|
  {
    var r := Put(items, key, value);
    if |items| == 0 || Below(key, items[0].0) {
      assert r[1..] == items;
      PutFront(items, key, value);
    } else if items[0].0 == key {
      SortedTail(items);
      assert r[1..] == items[1..];
      assert Sorted(r) by {
        forall i, j | 0 <= i < j < |r| ensures Below(r[i].0, r[j].0) {
          if i == 0 { assert r[j].0 in Keys(items[1..]) by { assert items[1..][j - 1] == r[j]; } }
          else { assert r[i] == items[i] && r[j] == items[j]; }
        }
      }
      KeysSplit(items);
      KeysSplit(r);
      forall k ensures Lookup(r, k) == if k == key then Some(value) else Lookup(items, k) {
        if k != key { assert Lookup(r, k) == Lookup(items[1..], k) == Lookup(items, k); }
      }
    } else {
      SortedTail(items);
      BelowTotal(key, items[0].0);
      var tail := Put(items[1..], key, value);
      PutMeaning(items[1..], key, value);
      assert r == [items[0]] + tail;
      assert r[1..] == tail;
      assert Sorted(r) by {
        forall i, j | 0 <= i < j < |r| ensures Below(r[i].0, r[j].0) {
          if i == 0 {
            assert r[j].0 in Keys(tail) by { assert tail[j - 1] == r[j]; }
          } else {
            assert r[i] == tail[i - 1] && r[j] == tail[j - 1];
          }
        }
      }
      KeysSplit(r);
      KeysSplit(items);
      forall k ensures Lookup(r, k) == if k == key then Some(value) else Lookup(items, k) {
        if k != items[0].0 { assert Lookup(r, k) == Lookup(tail, k); }
      }
    }
  }

  /** A key below every key of a sorted list goes in front. */
  lemma PutFront(items: Items, key: string, value: string)
    requires Sorted(items) && (|items| == 0 || Below(key, items[0].0))
    ensures Sorted([(key, value)] + items)
    ensures Keys([(key, value)] + items) == Keys(items) + {key}
    ensures forall k :: Lookup([(key, value)] + items, k) == if k == key then Some(value) else Lookup(items, k)
  {
    var r := [(key, value)] + items;
    assert r[1..] == items;
    assert Sorted(r) by {
      forall i, j | 0 <= i < j < |r| ensures Below(r[i].0, r[j].0) {
        if i == 0 {
          if j > 1 { BelowTransitive(key, items[0].0, items[j - 1].0); }
        } else {
          assert r[i] == items[i - 1] && r[j] == items[j - 1];
        }
      }
    }
    KeysSplit(r);
    forall k ensures Lookup(r, k) == if k == key then Some(value) else Lookup(items, k) {
      if k != key { assert Lookup(r, k) == Lookup(items, k); }
    }
  }

  lemma KeysSplit(items: Items)
    requires |items| > 0
    ensures Keys(items) == {items[0].0} + Keys(items[1..])
  {
    forall k | k in Keys(items) ensures k in {items[0].0} + Keys(items[1..]) {
      var i :| 0 <= i < |items| && items[i].0 == k;
      if i > 0 { assert items[1..][i - 1].0 == k; }
    }
    forall k | k in Keys(items[1..]) ensures k in Keys(items) {
      var i :| 0 <= i < |items[1..]| && items[1..][i].0 == k;
      assert items[i + 1].0 == k;
    }
  }

  /** Appending a key above every key present. */
  lemma {:induction false} PutAbove(items: Items, key: string, value: string)
    requires Sorted(items) && forall i :: 0 <= i < |items| ==> Below(items[i].0, key)
    ensures Put(items, key, value) == items + [(key, value)]
    decreases |items|
  {
    if |items| > 0 {
      BelowAsymmetric(items[0].0, key);
      BelowIrreflexive(key);
      SortedTail(items);
      forall i | 0 <= i < |items[1..]| ensures Below(items[1..][i].0, key) {
        assert items[1..][i] == items[i + 1];
      }
      PutAbove(items[1..], key, value);
      assert items == [items[0]] + items[1..];
    }
  }

  /** `dict(pairs)`: the pairs set in order, so a later pair overwrites an earlier one. */
  function Dict(pairs: Items): Items
  {
    if |pairs| == 0 then [] else Put(Dict(pairs[..|pairs| - 1]), pairs[|pairs| - 1].0, pairs[|pairs| - 1].1)
  }

  lemma {:induction false} DictSorted(pairs: Items)
    ensures Sorted(Dict(pairs))
    ensures Keys(Dict(pairs)) == Keys(pairs)
  {
    if |pairs| > 0 {
      var n := |pairs| - 1;
      DictSorted(pairs[..n]);
      PutMeaning(Dict(pairs[..n]), pairs[n].0, pairs[n].1);
      assert pairs == pairs[..n] + [pairs[n]];
      KeysAppend(pairs[..n], pairs[n]);
    }
  }

  lemma KeysAppend(items: Items, item: (string, string))
    ensures Keys(items + [item]) == Keys(items) + {item.0}
  {
    var r := items + [item];
    assert r[|items|].0 == item.0;
    forall k | k in Keys(r) ensures k in Keys(items) + {item.0} {
      var i :| 0 <= i < |r| && r[i].0 == k;
      if i < |items| { assert items[i] == r[i]; }
    }
    forall k | k in Keys(items) ensures k in Keys(r) {
      var i :| 0 <= i < |items| && items[i].0 == k;
      assert r[i] == items[i];
    }
  }

  /** The items of a dictionary, in sorted order, make the same dictionary. */
  lemma {:induction false} DictOfSorted(items: Items)
    requires Sorted(items)
    ensures Dict(items) == items
  {
    if |items| > 0 {
      var n := |items| - 1;
      assert Sorted(items[..n]) by {
        forall i, j | 0 <= i < j < n ensures Below(items[..n][i].0, items[..n][j].0) {
          assert items[..n][i] == items[i] && items[..n][j] == items[j];
        }
      }
      DictOfSorted(items[..n]);
      forall i | 0 <= i < n ensures Below(items[..n][i].0, items[n].0) {
        assert items[..n][i] == items[i];
      }
      PutAbove(items[..n], items[n].0, items[n].1);
      assert items == items[..n] + [items[n]];
    }
  }

  /** The first key of a non-empty list is found. */
  lemma LookupFirst(items: Items)
    ensures |items| > 0 ==> Lookup(items, items[0].0).Some?
  {
  }

  /** Two sorted item lists that agree on every key are the same list. */
  lemma {:induction false} SortedUnique(a: Items, b: Items)
    requires Sorted(a) && Sorted(b)
    requires forall k :: Lookup(a, k) == Lookup(b, k)
    ensures a == b
    decreases |a|
  {
    if |a| == 0 || |b| == 0 {
      LookupFirst(a);
      LookupFirst(b);
    } else {
      SortedTail(a);
      SortedTail(b);
      KeysSplit(a);
      KeysSplit(b);
      assert a[0].0 in Keys(b) by { assert Lookup(b, a[0].0).Some?; }
      assert b[0].0 in Keys(a) by { assert Lookup(a, b[0].0).Some?; }
      if a[0].0 != b[0].0 {
        BelowAsymmetric(a[0].0, b[0].0);
      }
      assert a[0] == b[0] by { assert Lookup(a, a[0].0) == Lookup(b, b[0].0); }
      forall k ensures Lookup(a[1..], k) == Lookup(b[1..], k) {
        if k == a[0].0 {
          BelowIrreflexive(k);
          assert Lookup(a[1..], k).None? && Lookup(b[1..], k).None?;
        } else {
          assert Lookup(a, k) == Lookup(a[1..], k);
          assert Lookup(b, k) == Lookup(b[1..], k);
        }
      }
      SortedUnique(a[1..], b[1..]);
      assert a == [a[0]] + a[1..] && b == [b[0]] + b[1..];
    }
  }

  // ---------------------------------------------------------------------------
  // Line layout shared by all kinds

  /** `uid TAB name SP rest`. */
  function Line(uid: string, name: string, rest: string): string
  {
    uid + "\t" + (name + " " + rest)
  }

  /** `_Annotation._parse`: the uid up to the first tab, the name up to the next space. */
  function Fields(line: string): (r: Option<(string, string, string)>)
    ensures r.Some? ==> '\t' !in r.value.0 && ' ' !in r.value.1 && line == Line(r.value.0, r.value.1, r.value.2)
  {
    match SplitOnce(line, '\t')
    case None => None
    case Some((uid, rest)) =>
      match SplitOnce(rest, ' ')
      case None => None
      case Some((name, tail)) => Some((uid, name, tail))
  }

  lemma FieldsOfLine(uid: string, name: string, rest: string)
    requires '\t' !in uid && ' ' !in name
    ensures Fields(Line(uid, name, rest)) == Some((uid, name, rest))
  {
    SplitOnceOfJoin(uid, '\t', name + " " + rest);
    SplitOnceOfJoin(name, ' ', rest);
  }

  /** `_Text._parse`: in addition, the text after the next tab. */
  function TextFields(line: string): (r: Option<(string, string, string, string)>)
    ensures r.Some? ==> '\t' !in r.value.2 && Fields(line) == Some((r.value.0, r.value.1, r.value.2 + "\t" + r.value.3))
  {
    match Fields(line)
    case None => None
    case Some((uid, name, rest)) =>
      match SplitOnce(rest, '\t')
      case None => None
      case Some((mid, text)) => Some((uid, name, mid, text))
  }

  lemma TextFieldsOfLine(uid: string, name: string, mid: string, text: string)
    requires '\t' !in uid && ' ' !in name && '\t' !in mid
    ensures TextFields(Line(uid, name, mid + "\t" + text)) == Some((uid, name, mid, text))
  {
    FieldsOfLine(uid, name, mid + "\t" + text);
    SplitOnceOfJoin(mid, '\t', text);
  }

  /** `t[t.find(':') + 1:]`: the text after the first colon, or all of it. */
  function AfterColon(t: string): (r: string)
    ensures ':' in t ==> |r| < |t| && t == t[..|t| - |r| - 1] + ":" + r && ':' !in t[..|t| - |r| - 1]
    ensures ':' !in t ==> r == t
  {
    match SplitOnce(t, ':')
    case None => t
    case Some((_, after)) => after
  }

  // ---------------------------------------------------------------------------
  // Constructors

  /** `Entity(uid, name, start, end, text)`, whose assertion demands that the text spans the offsets. */
  function NewEntity(uid: string, name: string, start: int, end: int, text: string): (r: Result<Annotation, BratError>)
    ensures r.Ok? <==> |text| == end - start
    ensures r.Ok? ==> r.value.Entity? && r.value.start == start && r.value.end == end && r.value.text == text
  {
    if |text| == end - start then Ok(Entity(uid, name, start, end, text)) else Err(OffsetMismatch)
  }

  /** `Normalization(uid, target, db, xref, text)`: an empty text defaults to the xref. */
  function NewNormalization(uid: string, target: string, db: string, xref: string, text: string): (r: Annotation)
    ensures r.Normalization? && r.db == db && r.xref == xref
    ensures text != "" ==> r.text == text
    ensures text == "" ==> r.text == xref
  {
    Normalization(uid, target, db, xref, if text != "" then text else xref)
  }

  /** `Relation(uid, name, target1, target2)`: any prefix up to a colon is dropped. */
  function NewRelation(uid: string, name: string, target1: string, target2: string): (r: Annotation)
    ensures r.Relation? && ':' !in target1 ==> r.arg1 == target1
    ensures r.Relation? && ':' !in target2 ==> r.arg2 == target2
  {
    Relation(uid, name, AfterColon(target1), AfterColon(target2))
  }

  /** The parameter names of `Event.__init__`, which keyword arguments may not repeat. */
  const Reserved: set<string> := {"self", "uid", "name", "trigger"}

  /**
   * `Event(uid, name, trigger, **args)`: a keyword naming a parameter is a `TypeError`, and
   * a lone keyword `args` is unpacked as a dictionary itself.
   */
  function NewEvent(uid: string, name: string, trigger: string, args: Items): (r: Result<Annotation, BratError>)
    ensures !(Keys(args) !! Reserved) ==> r == Err(IllegalArgument)
    ensures Keys(args) !! Reserved && !(|args| == 1 && args[0].0 == "args") ==> r == Ok(Event(uid, name, trigger, args))
  {
    if !(Keys(args) !! Reserved) then Err(IllegalArgument)
    else if |args| == 1 && args[0].0 == "args" then
      // `dict(s)` of a string succeeds only for the empty string
      if args[0].1 == "" then Ok(Event(uid, name, trigger, [])) else Err(FormatError)
    else Ok(Event(uid, name, trigger, args))
  }

  // ---------------------------------------------------------------------------
  // Parsers (`from_string`)

  function EntityFromString(line: string): (r: Result<Annotation, BratError>)
    ensures r.Ok? ==> r.value.Entity? && |r.value.text| == r.value.end - r.value.start
  {
    match TextFields(line)
    case None => Err(FormatError)
    case Some((uid, name, offset, text)) =>
      match SplitOnce(offset, ' ')
      case None => Err(FormatError)
      case Some((s, e)) =>
        match (ParseInt(s), ParseInt(e))
        case (Some(start), Some(end)) => NewEntity(uid, name, start, end, text)
        case _ => Err(FormatError)
  }

  function NormalizationFromString(line: string): (r: Result<Annotation, BratError>)
    ensures r.Ok? ==> r.value.Normalization? && (r.value.text == "" ==> r.value.xref == "")
  {
    match TextFields(line)
    case None => Err(FormatError)
    case Some((uid, name, targetRef, text)) =>
      if name != "Reference" then Err(FormatError)
      else
        match SplitOnce(targetRef, ' ')
        case None => Err(FormatError)
        case Some((target, x)) =>
          match SplitOnce(x, ':')
          case None => Err(FormatError)
          case Some((db, xref)) => Ok(NewNormalization(uid, target, db, xref, text))
  }

  function NoteFromString(line: string): (r: Result<Annotation, BratError>)
    ensures r.Ok? <==> TextFields(line).Some?
    ensures r.Ok? ==> r.value.Note? && '\t' !in r.value.target
  {
    match TextFields(line)
    case None => Err(FormatError)
    case Some((uid, name, target, text)) => Ok(Note(uid, name, target, text))
  }

  function RelationFromString(line: string): (r: Result<Annotation, BratError>)
    ensures r.Ok? ==> r.value.Relation? && ' ' !in r.value.arg1 && ' ' !in r.value.arg2
  {
    match Fields(line)
    case None => Err(FormatError)
    case Some((uid, name, rest)) =>
      var targets := Split(rest, ' ');
      SplitMeaning(rest, ' ');
      if |targets| != 2 then Err(FormatError)
      else Ok(NewRelation(uid, name, targets[0], targets[1]))
  }

  /** `dict(a_t.split(':') for a_t in parts)` before the dictionary is built: every part must split in two. */
  function ArgPairs(parts: seq<string>): (r: Option<Items>)
    ensures r.Some? ==> |r.value| == |parts|
    ensures r.Some? ==> forall i :: 0 <= i < |parts| ==> parts[i] == r.value[i].0 + ":" + r.value[i].1
    ensures r.Some? ==> forall i :: 0 <= i < |parts| ==> ':' !in r.value[i].0 && ':' !in r.value[i].1
  {
    if |parts| == 0 then Some([])
    else
      var kv := Split(parts[0], ':');
      SplitMeaning(parts[0], ':');
      if |kv| != 2 then None
      else
        match ArgPairs(parts[1..])
        case None => None
        case Some(rest) => Some([(kv[0], kv[1])] + rest)
  }

  function EventFromString(line: string): (r: Result<Annotation, BratError>)
    ensures r.Ok? ==> r.value.Event? && Sorted(r.value.args) && Keys(r.value.args) !! Reserved
  {
    match Fields(line)
    case None => Err(FormatError)
    case Some((uid, namedTrigger, rest)) =>
      match SplitOnce(namedTrigger, ':')
      case None => Err(FormatError)
      case Some((name, trigger)) =>
        match ArgPairs(Split(rest, ' '))
        case None => Err(FormatError)
        case Some(pairs) =>
          DictSorted(pairs);
          NewEvent(uid, name, trigger, Dict(pairs))
  }

  function EquivFromString(line: string): (r: Result<Annotation, BratError>)
    ensures r.Ok? <==> Fields(line).Some?
    ensures r.Ok? ==> r.value.Equiv? && forall i :: 0 <= i < |r.value.targets| ==> |r.value.targets[i]| > 0 && HasNoWhitespace(r.value.targets[i])
  {
    match Fields(line)
    case None => Err(FormatError)
    case Some((uid, name, rest)) => Ok(Equiv(uid, name, Words(rest)))
  }

  function AttributeFromString(line: string): (r: Result<Annotation, BratError>)
    ensures r.Ok? <==> Fields(line).Some?
    ensures r.Ok? ==> r.value.Attribute? && ' ' !in r.value.target
    ensures r.Ok? ==> (r.value.modifier.None? <==> ' ' !in Fields(line).value.2)
  {
    match Fields(line)
    case None => Err(FormatError)
    case Some((uid, name, rest)) =>
      match SplitOnce(rest, ' ')
      case None => Ok(Attribute(uid, name, rest, None))
      case Some((target, modifier)) => Ok(Attribute(uid, name, target, Some(modifier)))
  }

  /** `_PARSE[line[0]](line)`: the parser is chosen by the first character; `M` is a legacy `A`. */
  function Parse(line: string): (r: Result<Annotation, BratError>)
    requires |line| > 0
    ensures line[0] !in "TN#RE*AM" ==> r == Err(UnknownAnnotation)
    ensures r.Ok? ==> |r.value.uid| > 0 && r.value.uid[0] == line[0]
  {
    match line[0]
    case 'T' => EntityFromString(line)
    case 'N' => NormalizationFromString(line)
    case '#' => NoteFromString(line)
    case 'R' => RelationFromString(line)
    case 'E' => EventFromString(line)
    case '*' => EquivFromString(line)
    case 'A' => AttributeFromString(line)
    case 'M' => AttributeFromString(line)
    case _ => Err(UnknownAnnotation)
  }

  // ---------------------------------------------------------------------------
  // Printer (`__str__`)

  /** The `key:value` words of `_args_str`, in the order of the items. */
  function Pairs(items: Items): (ps: seq<string>)
    ensures |ps| == |items|
    ensures forall i :: 0 <= i < |items| ==> ps[i] == items[i].0 + ":" + items[i].1
  {
    if |items| == 0 then [] else [items[0].0 + ":" + items[0].1] + Pairs(items[1..])
  }

  /** `_args_str`: the sorted items joined by spaces. */
  function ArgsString(items: Items): string
  {
    Join(Pairs(items), " ")
  }

  /** The arguments of a relation, as the dictionary the source keeps. */
  function RelationArgs(arg1: string, arg2: string): Items
  {
    [("Arg1", arg1), ("Arg2", arg2)]
  }

  /** An attribute's modifier is printed after a space unless it is absent or empty. */
  function ModifierSuffix(modifier: Option<string>): string
  {
    if modifier.Some? && modifier.value != "" then " " + modifier.value else ""
  }

  function ToString(a: Annotation): (r: string)
    ensures |a.uid| > 0 ==> |r| > 0 && r[0] == a.uid[0]
  {
    match a
    case Entity(uid, name, start, end, text) =>
      Line(uid, name, IntToString(start) + " " + IntToString(end) + "\t" + text)
    case Normalization(uid, target, db, xref, text) =>
      Line(uid, "Reference", target + " " + (db + ":" + xref) + "\t" + text)
    case Note(uid, name, target, text) => Line(uid, name, target + "\t" + text)
    case Relation(uid, name, arg1, arg2) => Line(uid, name, ArgsString(RelationArgs(arg1, arg2)))
    case Event(uid, name, trigger, args) => Line(uid, name + ":" + trigger, ArgsString(args))
    case Equiv(uid, name, targets) => Line(uid, name, Join(targets, " "))
    case Attribute(uid, name, target, modifier) => Line(uid, name, target + ModifierSuffix(modifier))
  }

  // ---------------------------------------------------------------------------
  // Records that print to a line parsing back to them

  /** The uid starts with the character the parser of its kind is registered under. */
  predicate Keyed(a: Annotation)
  {
    && |a.uid| > 0
    && match a
       case Entity(_, _, _, _, _) => a.uid[0] == 'T'
       case Normalization(_, _, _, _, _) => a.uid[0] == 'N'
       case Note(_, _, _, _) => a.uid[0] == '#'
       case Relation(_, _, _, _) => a.uid[0] == 'R'
       case Event(_, _, _, _) => a.uid[0] == 'E'
       case Equiv(_, _, _) => a.uid[0] == '*'
       case Attribute(_, _, _, _) => a.uid[0] == 'A' || a.uid[0] == 'M'
  }

  /** An event argument: neither part holds a space or a colon. */
  predicate PlainItem(item: (string, string))
  {
    ' ' !in item.0 && ':' !in item.0 && ' ' !in item.1 && ':' !in item.1
  }

  /** The separators of the line layout do not occur where they would cut a field short. */
  predicate WellFormed(a: Annotation)
  {
    && Keyed(a) && '\t' !in a.uid && ' ' !in NameOf(a)
    && match a
       case Entity(_, _, start, end, text) => |text| == end - start
       case Normalization(_, target, db, xref, text) =>
         && ' ' !in target && '\t' !in target && ':' !in db && '\t' !in db && '\t' !in xref
         && (text == "" ==> xref == "")
       case Note(_, _, target, _) => '\t' !in target
       case Relation(_, _, arg1, arg2) => ' ' !in arg1 && ' ' !in arg2
       case Event(_, name, trigger, args) =>
         && ':' !in name && ' ' !in trigger && |args| > 0 && Sorted(args) && Keys(args) !! Reserved
         && !(|args| == 1 && args[0].0 == "args")
         && forall i :: 0 <= i < |args| ==> PlainItem(args[i])
       case Equiv(_, _, targets) => forall i :: 0 <= i < |targets| ==> |targets[i]| > 0 && HasNoWhitespace(targets[i])
       case Attribute(_, _, target, modifier) => ' ' !in target && modifier != Some("")
  }

  /**
   * The two records a line can parse to that print to a different line: an event whose
   * only argument was `args:` (no arguments), and an attribute with an empty modifier.
   */
  predicate Degenerate(a: Annotation)
  {
    (a.Event? && a.args == []) || (a.Attribute? && a.modifier == Some(""))
  }
}
