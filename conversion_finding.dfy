/**
 * `_makeEntity` checks that every row of a BIO span carries the span's tag by comparing each
 * row's tag, without its prefix, with the name returned by `_validateName`, which is the tag
 * already looked up in the name table. A BIO type the name table renames therefore never
 * matches, not even in a span of one row, and the conversion fails. The intended check
 * compares the rows with the first row's tag itself, as `Conversion.MakeEntity` does.
 */
module ConversionFinding {
  import opened Wrappers
  import opened Text
  import opened ColSpec
  import opened Conversion
  import Brat

  /** `_makeEntity` as written: the span's rows are compared with the remapped name. */
  function MakeEntityAsWritten(setup: Setup, s: State, rows: seq<Row>, num: nat, col: nat, start: nat, end: nat)
    : (r: Result<State, ConvError>)
    requires Coherent(setup.spec) && EntityRows(setup.spec, rows, col) && start <= end <= |setup.text|
    ensures r.Err? ==> r == Err(MixedSpan(col + 1))
  {
    var off := if setup.spec.posTag == Some(col) then 0 else 2;
    var raw := Drop(rows[0][col], off);
    match ValidateName(setup.names, raw)
    case None => Ok(s)
    case Some(name) =>
      if off == 2 && !SpanAgrees(rows, col, name) then Err(MixedSpan(col + 1))
      else
        var (s1, uid) := RegisterAnnotation(setup.spec, s, col, 'T', num, rows);
        Ok(s1.(entities := s1.entities + {name},
               output := s1.output + [Brat.Entity(uid, name, start, end, setup.text[start..end])]))
  }

  /** Where the name table leaves an entity's type alone, the written check is the intended one. */
  lemma AsWrittenAgrees(setup: Setup, s: State, rows: seq<Row>, num: nat, col: nat, start: nat, end: nat)
    requires Coherent(setup.spec) && EntityRows(setup.spec, rows, col) && start <= end <= |setup.text|
    requires var raw := Drop(rows[0][col], if setup.spec.posTag == Some(col) then 0 else 2);
             Remapped(setup.names, raw) == raw
    ensures MakeEntityAsWritten(setup, s, rows, num, col, start, end) == MakeEntity(setup, s, rows, num, col, start, end)
  {
  }

  /**
   * A BIO span whose rows all carry one tag, and whose type the name table renames to a usable
   * name, fails as written; the intended check writes the entity under the new name.
   */
  lemma RenamedTypeFails(setup: Setup, s: State, rows: seq<Row>, num: nat, col: nat, start: nat, end: nat)
    requires Coherent(setup.spec) && EntityRows(setup.spec, rows, col) && start <= end <= |setup.text|
    requires setup.spec.posTag != Some(col)
    requires var raw := Drop(rows[0][col], 2);
             SpanAgrees(rows, col, raw) && Remapped(setup.names, raw) != raw && ValidName(Remapped(setup.names, raw))
    ensures MakeEntityAsWritten(setup, s, rows, num, col, start, end) == Err(MixedSpan(col + 1))
    ensures var r := MakeEntity(setup, s, rows, num, col, start, end);
            r.Ok? && r.value.entities == s.entities + {Remapped(setup.names, Drop(rows[0][col], 2))}
  {
    var raw := Drop(rows[0][col], 2);
    assert Drop(rows[0][col], 2) != Remapped(setup.names, raw);
  }

  /**
   * The case the name table is for: brat cannot use `PRP$`, so it is renamed `PRP_S`, and a
   * `B-PRP$` row then meets the premise of `RenamedTypeFails`.
   */
  lemma DollarTagRenamed()
    ensures var names := map["PRP$" := "PRP_S"];
            && Drop("B-PRP$", 2) == "PRP$"
            && !ValidName("PRP$")
            && Remapped(names, "PRP$") == "PRP_S" != "PRP$"
            && ValidName("PRP_S")
  {
    assert !IsWordChar("PRP$"[3]);
    forall i | 0 <= i < |"PRP_S"| ensures IsWordChar("PRP_S"[i]) {
    }
  }
}
