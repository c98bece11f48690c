# otplc in Dafny

otplc converts OTPL files into brat standoff annotations. OTPL ("one token per line") is a
tab- or space-separated format: one token per row, segments separated by blank lines, and one
annotation layer per column. This project models the core of otplc and proves properties of
that model. The core has four parts:

- **Column specification** (`colspec.py`, modules `ColSpec`, `ColSpecFacts`, `ColSpecExamples`).
  - Each column has a role (`TOKEN`, `POS_TAG`, `ENTITY`, `LOCAL_REF`, `RELATION`, `EVENT`, …), and every role name has an integer code.
  - A header line is parsed into those codes.
  - `ColumnSpecification` is built column by column. Singleton roles fill one slot each, repeatable roles go into sets, and references, relations and properties get a target column. The target is an explicit `NAME:N`, or else the nearest tag to the left.
  - Events are then resolved into a trigger and argument references.
  - Every rejection is an explicit error that carries its column number.
  - The construction loop is a method proved against a functional definition. Lemmas characterise every set, map and slot of a built specification.
- **Reader and column guesser** (`reader.py`, modules `Reader`, `ReaderFacts`, `SeparatorFacts`, `ReaderExamples`, `Guessing`, `GuessingFacts`, `GuessingExamples`, `GuessingFinding`).
  - `OtplReader` is a class. It filters lines and groups them into segments of equal-width rows, with the width fixed by the first accepted row.
  - It samples at most ten lines to choose between the tab and the whitespace separator.
  - `Guess` is a class whose role list is refined in place, round by round, by the value heuristics of `_guess*` and `_ensure*`. `_make_guess` drives it over at most six segments and runs one extra round after the guess first becomes complete.
  - Each method is proved to compute a function on values. The lemmas state what each heuristic changes and what it keeps.
- **brat records** (`brat.py`, modules `Brat`, `BratFacts`, `BratExamples`).
  - There is one datatype constructor per annotation kind (T, N, #, R, E, *, A/M), with `from_string` parsers, `__str__` printers and the first-character dispatch table.
  - Every well-formed record prints to a line that parses back to it.
  - Every record the parser builds is well formed, apart from two degenerate shapes, so parsing a printed record is stable.
- **Converter** (`converter.py`, modules `Conversion`, `ConversionRules`, `ConversionRecords`, `ConversionFacts`, `ConversionExamples`, `ConversionFinding`, `Converter`).
  - `OtplBratConverter` is a class whose per-file state is updated in place. That state is the uid counters, the local and global number-to-uid maps, the segment and line counts, the names collected for the configuration file, and the brat records written.
  - Its methods are proved to end in the state, or with the error, that the step functions of `Conversion` give.
  - Lemmas about those functions cover several behaviours:
    - token offsets found by forward search;
    - PoS and BIO entities;
    - first-writer-wins registration;
    - the skip and failure rules of every record maker;
    - event argument positions, and their weakening to optional;
    - configuration shortcuts;
    - pairwise distinct uids in every file written.

Module `Wrappers` holds `Option` and `Result`. Module `Text` holds character-level models of the
Python string operations the source uses: `split`, `join`, `index`, `strip`, `isdigit` on ASCII digits,
and `int`, which ignores whitespace around the number. The reader, the column specification and
the brat records are Python 3 code (`metaclass=` at colspec.py:155, `open(..., encoding=...)` at
brat.py:312). Whitespace is therefore the set Python 3's `str.isspace` accepts, Unicode spaces and
line separators included, and it is the same for `\s`, `str.split()`, `str.strip()` and `int()`.

## Model

| member | source | states |
|---|---|---|
| Brat.PutMeaning | otplc/brat.py:84-87 | setting a key in a dictionary kept as key-sorted items keeps it sorted, adds exactly that key and changes no other key's value |
| Brat.DictOfSorted | otplc/brat.py:84-87 | rebuilding a dictionary from its own sorted items gives the same items, so `sorted(args.items())` is a faithful view of `args` |
| Brat.SortedUnique | otplc/brat.py:41-42 | two sorted item lists that map every key alike are identical, so list equality is dictionary equality |
| Brat.Fields | otplc/brat.py:22-31 | a parsed uid holds no tab, a parsed name no space, and the three fields rebuild the line |
| Brat.FieldsOfLine | otplc/brat.py:22-31 | any uid without a tab and name without a space are recovered from the line laid out from them |
| Brat.TextFields | otplc/brat.py:54-59 | the middle field holds no tab and, glued to the text by a tab, is what the plain field split returns |
| Brat.TextFieldsOfLine | otplc/brat.py:54-59 | a tab-free middle field and any text are recovered from the line laid out from them |
| Brat.AfterColon | otplc/brat.py:188-189 | with a colon in the target, the result is exactly what follows the first colon; without one, the target is kept whole |
| Brat.NewEntity | otplc/brat.py:103-107 | construction succeeds exactly when the text is as long as the offsets span, and then keeps the offsets and the text |
| Brat.NewNormalization | otplc/brat.py:134-138 | db and xref are kept; a non-empty text is kept and an empty one defaults to the xref |
| Brat.NewRelation | otplc/brat.py:187-190 | a target without a colon is stored unchanged as `Arg1` or `Arg2` |
| Brat.NewEvent | otplc/brat.py:215-217 | keyword arguments that clash with a parameter name fail with a `TypeError`; otherwise, unless there is a lone `args` keyword, the event keeps all arguments |
| Brat.EntityFromString | otplc/brat.py:96-101 | a parsed entity always satisfies the offset assertion: its text is as long as `end - start` |
| Brat.NormalizationFromString | otplc/brat.py:122-132 | a parsed line is a normalization, and its text is empty only if its xref is |
| Brat.NoteFromString | otplc/brat.py:154-157 | a note parses exactly when the line has the two tabs and the space of the text layout, and its target holds no tab |
| Brat.RelationFromString | otplc/brat.py:180-185 | a parsed relation's two arguments hold no space |
| Brat.ArgPairs | otplc/brat.py:210 | when every word splits in two at its single colon, the pairs rebuild each word and neither half holds a colon |
| Brat.EventFromString | otplc/brat.py:207-213 | a parsed event's arguments are a key-sorted dictionary that never uses a reserved parameter name |
| Brat.EquivFromString | otplc/brat.py:232-236 | an equivalence parses exactly when the uid/name fields do, and its targets are non-empty words without whitespace |
| Brat.AttributeFromString | otplc/brat.py:255-261 | an attribute parses exactly when the uid/name fields do; its target holds no space, and it has no modifier exactly when nothing follows the target |
| Brat.Parse | otplc/brat.py:276-285 | a first character with no registered parser is an unknown annotation, and every parsed uid starts with the key that chose its parser |
| Brat.Pairs | otplc/brat.py:84-87 | one `key:value` word per item, in the items' order |
| Brat.ToString | otplc/brat.py:109-110 | a printed line starts with the first character of the uid, the key the dispatch table reads |
| BratFacts.EntityRoundTrip | otplc/brat.py:96-110 | an entity line laid out from a uid, name, offsets and a text of matching length parses to that entity |
| BratFacts.EntitySpacedOffsets | otplc/brat.py:96-107 | an entity line whose two offsets are separated by several spaces still parses to the entity: the split at the first space leaves the other spaces before the end offset, and `int` ignores them |
| BratFacts.NormalizationRoundTrip | otplc/brat.py:122-142 | a normalization line parses back to its uid, target, db, xref and text |
| BratFacts.NoteRoundTrip | otplc/brat.py:154-164 | a note line parses back to its uid, name, target and text |
| BratFacts.AfterColonOfPrefix | otplc/brat.py:188-189 | a colon-free role prefix is stripped and the rest kept |
| BratFacts.KeyedPairRoundTrip | otplc/brat.py:180-190 | a relation line whose two arguments carry arbitrary roles parses to the relation built from those words |
| BratFacts.RelationRoundTrip | otplc/brat.py:180-193 | a printed relation line parses back to the same two targets |
| BratFacts.BareTargets | otplc/brat.py:170-190 | targets given without a role are assigned `Arg1` and `Arg2` |
| BratFacts.ArgPairsOfPairs | otplc/brat.py:84-87 | splitting the printed `key:value` words of plain items gives the items back |
| BratFacts.EventRoundTrip | otplc/brat.py:207-220 | a printed event line with sorted, plain, non-reserved arguments parses back to the same event |
| BratFacts.EquivRoundTrip | otplc/brat.py:232-243 | a printed equivalence line parses back to the same targets |
| BratFacts.AttributeBareRoundTrip | otplc/brat.py:255-270 | an attribute line without modifier parses to an attribute without one |
| BratFacts.AttributeModifiedRoundTrip | otplc/brat.py:255-270 | everything after the target's space is parsed as the modifier |
| BratFacts.AttributeRoundTrip | otplc/brat.py:255-270 | an attribute printed with an absent or non-empty modifier parses back to itself |
| BratFacts.ParseDispatch | otplc/brat.py:276-285 | each of `T N # R E * A M` selects its kind's parser, `M` the attribute parser |
| BratFacts.PrintThenParseText | otplc/brat.py:96-164 | entities, normalizations and notes print to a line that parses back to them |
| BratFacts.PrintThenParseAssociation | otplc/brat.py:180-220 | relations and events print to a line that parses back to them |
| BratFacts.PrintThenParseOther | otplc/brat.py:232-270 | equivalences and attributes print to a line that parses back to them |
| BratFacts.PrintThenParse | otplc/brat.py:276-285 | every well-formed record prints to a line that parses back to the same record |
| BratFacts.DictPlain | otplc/brat.py:80-82 | a dictionary built from plain pairs has plain items, and is non-empty if they are |
| BratFacts.ArgPairsPlain | otplc/brat.py:210 | the pairs split from space-free words hold no separator |
| BratFacts.ParsedEvent | otplc/brat.py:207-213 | a parsed event's uid, name, trigger and arguments hold none of the separators of its line |
| BratFacts.ParsedTextWellFormed | otplc/brat.py:96-157 | entity, normalization and note lines parse only to well-formed records |
| BratFacts.ParsedRelationWellFormed | otplc/brat.py:180-185 | relation lines parse only to well-formed records |
| BratFacts.ParsedEventWellFormed | otplc/brat.py:207-213 | an event line parses to a well-formed record or to an event whose only argument was `args:` |
| BratFacts.ParsedEquivWellFormed | otplc/brat.py:232-236 | equivalence lines parse only to well-formed records |
| BratFacts.ParsedAttributeWellFormed | otplc/brat.py:255-261 | an attribute line parses to a well-formed record or to one with an empty modifier |
| BratFacts.ParsedIsWellFormed | otplc/brat.py:276-285 | every parsed record is well-formed except for those two degenerate forms |
| BratFacts.ParseIsStable | otplc/brat.py:276-285 | printing a parsed, non-degenerate record and parsing that gives the record again |
| BratExamples.EntityLine | otplc/test_brat.py:53-59 | the entity test line parses to the test's entity and prints back |
| BratExamples.PaddedOffsetLine | otplc/brat.py:96-107 | `T1\tname 1  5\tabcd` parses to the entity with offsets 1 and 5 and text `abcd` |
| BratExamples.NormalizationLine | otplc/test_brat.py:65-72 | the normalization test line parses and prints back |
| BratExamples.NoteLine | otplc/test_brat.py:83-88 | the note test line parses and prints back |
| BratExamples.RelationLine | otplc/test_brat.py:94-99 | the relation test line parses and prints back |
| BratExamples.RelationBareTargets | otplc/test_brat.py:101-103 | bare relation targets get the `Arg1` and `Arg2` roles |
| BratExamples.EventLine | otplc/test_brat.py:116-122 | the event test line with three arguments parses and prints back |
| BratExamples.EquivLine | otplc/test_brat.py:128-134 | the equivalence test line parses and prints back |
| BratExamples.EquivWideCharLine | otplc/test_brat.py:136-139 | a line whose name holds a character beyond the Basic Multilingual Plane parses and prints back unchanged |
| BratExamples.EquivUnicodeSpaces | otplc/brat.py:232-236 | `str.split()` separates targets at a no-break space and an em space |
| BratExamples.AttributeLine | otplc/test_brat.py:145-151 | the attribute test line parses without a modifier and prints back |
| BratExamples.AttributeWithModifier | otplc/test_brat.py:153-155 | a trailing word is the attribute's modifier |
| BratExamples.OtherUidDiffers | otplc/test_brat.py:29-36 | records that differ in their uid are unequal, and the keyed `T1` line parses through the dispatch table |
| ColSpec.FromCode | otplc/colspec.py:132-152 | the integer-to-role table only maps an integer to a role whose own integer it is |
| ColSpec.FromName | otplc/colspec.py:124-152 | the name-to-role table only maps a word to the role of that name |
| ColSpec.RoleTablesAgree | otplc/colspec.py:161-202 | every role is found under its integer and under its name, so the two tables of the metaclass are inverse |
| ColSpec.NameOrType | otplc/colspec.py:252-259 | the word `to_string` writes for any integer, `_TYPE_` included, is non-empty and holds neither whitespace nor a colon |
| ColSpec.NameHasNoBlanks | otplc/colspec.py:161-202 | every role name is a single word without a colon |
| ColSpec.WordCodes | otplc/colspec.py:281-284 | one result per header word, each the integer or the error of that word at its position |
| ColSpec.WordCodeOfName | otplc/colspec.py:288-297 | a role name followed by nothing or by a `:` suffix names that role |
| ColSpec.ParseCodesDocExample | otplc/colspec.py:270-275 | the documented header parses to `[2, 4, 1, 5, 11, 8]` |
| ColSpec.GetValue | otplc/colspec.py:288-297 | the integer of the role named by the word's text before its first colon, or the "illegal name in column idx+1" error |
| ColSpec.ParseColspec | otplc/colspec.py:261-286 | the loop over the header's words yields every word's integer, or the first unknown word's error |
| ColSpec.ParseNames | otplc/colspec.py:281-286 | filling the `_UNKNOWN`-preset list word by word yields the integers of all words, stopping at the first error |
| ColSpec.IntegerNames | otplc/colspec.py:252-259 | one name per integer, each the role's name or `_TYPE_` |
| ColSpec.IntegerHeaderWords | otplc/colspec.py:246-250 | splitting the header `to_string` writes gives back one word per integer |
| ColSpec.IntegersRoundTrip | otplc/colspec.py:252-286 | parsing the header written for known integers gives the same integers back |
| ColSpec.ScanFromMeaning | otplc/colspec.py:591-603 | from a point where only skippable columns were passed, the scan binds the first target column, or fails at the first unskippable one, or runs out before column 0 |
| ColSpec.DefaultTargetMeaning | otplc/colspec.py:591-603 | the default target is the nearest column to the left with a target role, with only skippable roles between; "has no target" names a blocking column, "with no target" means none was found above column 0 |
| ColSpec.ScanIgnoresColumnZero | otplc/colspec.py:595 | the leftward scan never looks at column 0: two rows differing only there give the same result |
| ColSpec.OverrideTarget | otplc/colspec.py:575-586 | an accepted `:N` target is an existing column holding a tag or an association |
| ColSpec.PyIndex | otplc/colspec.py:579 | Python indexing maps any index in range, negative ones from the end, to a column, and keeps a non-negative one |
| ColSpec.OverrideTargetAsWritten | otplc/colspec.py:575-586 | as written, an accepted target may be negative but is within Python's index range, and the column it wraps to holds a tag or association |
| ColSpec.OverrideTargetCorrects | otplc/colspec.py:575-586 | the corrected check and the written one agree on every non-negative target |
| ColSpec.OverrideZeroWrapsAround | otplc/colspec.py:576-579 | `LOCAL_REF:0` before a trailing ENTITY is accepted with target -1 as written and rejected by the corrected check |
| ColSpec.HasReference | otplc/colspec.py:546-551 | a relation in the first column never has a reference to its left |
| ColSpec.HasReferenceAsWritten | otplc/colspec.py:546-551 | as written, the check for a relation in the first column reads the last column (`colspec[-1]`) |
| ColSpec.HasReferenceCorrects | otplc/colspec.py:547-551 | the relation check as written and the corrected one agree on every column but the first |
| ColSpec.RelationInFirstColumnPasses | otplc/colspec.py:546-553 | in `RELATION:3 TOKEN POS_TAG LOCAL_REF` the relation in the first column passes the check as written and its `:3` target is accepted, so the check alone decides; the corrected check rejects the column |
| ColSpec.RelationFirstWraps | otplc/colspec.py:546-551 | that relation's check as written reads the trailing `LOCAL_REF` and passes; the corrected one fails |
| ColSpec.RelationFirstTarget | otplc/colspec.py:572-589 | its explicit target `:3` is the PoS column, which a relation may point at |
| ColSpec.RelationFirstRejected | otplc/colspec.py:546-551 | the corrected registration raises the missing-reference error for column 1 |
| ColSpec.FirstWithCode | otplc/colspec.py:535-544 | the slot a singleton role fills is the first column with that integer, and no column before it has it |
| ColSpec.ColumnErrors | otplc/colspec.py:346-352 | one entry per column, the error registering that column raises |
| ColSpec.ColumnTargets | otplc/colspec.py:546-562 | one entry per column, the target its registration records |
| ColSpec.RefRunLength | otplc/colspec.py:424-433 | the reference run before a column is shorter than the column's index |
| ColSpec.EventErrors | otplc/colspec.py:356-366 | one entry per pending EVENT column, the error its resolution raises |
| ColSpec.Registered | otplc/colspec.py:318-352 | the pending EVENT columns are columns of the specification |
| ColSpec.PendingMeaning | otplc/colspec.py:319-320 | the pending event columns are exactly the EVENT columns registered so far, in ascending order |
| ColSpec.SetTarget | otplc/colspec.py:591-603 | the leftward loop computes the default target, whose outcomes `DefaultTargetMeaning` states |
| ColSpec.SetTargetFromHeader | otplc/colspec.py:572-589 | an explicit `:N` header target is checked, otherwise the nearest tag on the left is taken |
| ColSpec.AddRelation | otplc/colspec.py:546-553 | the relation's error is the missing reference or its target's error, as the column's registration rules say; on success only the relation's target is added |
| ColSpec.AddReference | otplc/colspec.py:555-557 | a reference fails exactly as its target fails, and otherwise adds only its own target |
| ColSpec.AddProperty | otplc/colspec.py:559-562 | a property fails exactly as its target fails, and otherwise adds only its own target |
| ColSpec.SetColumn | otplc/colspec.py:535-544 | a singleton column fails exactly when its role already has a column, and otherwise fills the slot with it |
| ColSpec.RegisterColumn | otplc/colspec.py:317-352 | every role's registration gives the column's error or the registry with just that column recorded; unknown integers and `_ANNOTATION` are errors, `_UNKNOWN` is skipped |
| ColSpec.RegisterIgnoresTarget | otplc/colspec.py:317-352 | only relations, references and properties record a target |
| ColSpec.RegisterSingleton | otplc/colspec.py:535-544 | token, enumerations and PoS tag are accepted only as their role's first column |
| ColSpec.SetToken | otplc/colspec.py:529-530 | a second TOKEN column is rejected, the first fills the slot |
| ColSpec.SetGlobalEnum | otplc/colspec.py:523-524 | a second GLOBAL_ENUM column is rejected, the first fills the slot |
| ColSpec.SetLocalEnum | otplc/colspec.py:526-527 | a second LOCAL_ENUM column is rejected, the first fills the slot |
| ColSpec.SetPosTag | otplc/colspec.py:532-533 | a second POS_TAG column is rejected, the first fills the slot |
| ColSpec.RegisterMember | otplc/colspec.py:322-325 | segment IDs, entities and events are added without a check |
| ColSpec.RegisterAssociation | otplc/colspec.py:326-334 | relations and references fail as their checks fail, else record their target |
| ColSpec.RegisterProperty | otplc/colspec.py:335-340 | normalizations and attributes fail as their scans fail, else record their target |
| ColSpec.ReferencesBefore | otplc/colspec.py:424-433 | the loop finds the start of the maximal reference run before the column, above column 0 |
| ColSpec.InitEvents | otplc/colspec.py:356-366 | the events are resolved in order; the error is the first failing event's, and otherwise every pending event maps to its resolution |
| ColSpec.BuildSpec | otplc/colspec.py:299-354 | a single column is rejected with the single-column error, and a built specification has one column per integer |
| ColSpec.Build | otplc/colspec.py:299-354 | construction rejects a single column, then the first column error, then the first event error, and otherwise yields the specification the registrations describe |
| ColSpec.RegisterColumns | otplc/colspec.py:346-352 | the registration loop stops at the first column error, and otherwise leaves every column recorded |
| ColSpec.SingletonSlot | otplc/colspec.py:535-544 | after any prefix of the columns, each singleton slot holds the first column of its role, if any |
| ColSpec.ParseCodes | otplc/colspec.py:227-238 | a parsed header has as many integers as words, so `from_string` hands the constructor lists of equal length |
| ColSpec.FromString | otplc/colspec.py:227-238 | parse the header, then build from its integers and its words |
| ColSpec.FromIntegers | otplc/colspec.py:240-250 | build from the integers and the words of the header `to_string` writes for them |
| ColSpec.GetType | otplc/colspec.py:395-422 | `get_type` never reports `_UNKNOWN` or `_ANNOTATION` for a column |
| ColSpec.RolesFrom | otplc/colspec.py:381-393 | the roles `__str__` visits are those `get_type` reports, stopping at the first column without one or at the width |
| ColSpec.RoleNames | otplc/colspec.py:381-393 | one name per role |
| ColSpec.RoleNamesStep | otplc/colspec.py:386-391 | each loop step prepends the name of the current column's role |
| ColSpec.SpecToString | otplc/colspec.py:381-393 | the loop writes the names of the roles from column 0 up to the first unregistered column |
| ColSpec.PropertyTargetType | otplc/colspec.py:509-521 | the result is one of the property target roles, or the "not a valid property target" error for that column |
| ColSpec.ReferenceTarget | otplc/colspec.py:461-465 | a column has a reference target exactly when it is a global or local reference, and global references are consulted first |
| ColSpec.SameSpec | otplc/colspec.py:368-379 | field-by-field comparison is equality of specifications |
| ColSpecFacts.RegisteredSets | otplc/colspec.py:322-323 | the segment-ID and entity sets are exactly the columns of those roles |
| ColSpecFacts.RegisteredAssociations | otplc/colspec.py:326-334 | the relation and reference maps hold exactly the columns of their role, each with its target |
| ColSpecFacts.RegisteredProperties | otplc/colspec.py:335-340 | the normalization and attribute maps hold exactly the columns of their role, each with its target |
| ColSpecFacts.EventMapMeaning | otplc/colspec.py:356-360 | the event map holds exactly the resolved columns, each with its own resolution |
| ColSpecFacts.SingletonColumnError | otplc/colspec.py:535-544 | a singleton column is accepted exactly when no earlier column has its role |
| ColSpecFacts.SingletonUnique | otplc/colspec.py:535-544 | when every column registers, a singleton role has exactly one column |
| ColSpecFacts.SingletonsOfBuild | otplc/colspec.py:299-354 | a built specification's token, enumeration and PoS slots hold exactly the column of that role |
| ColSpecFacts.CollectionsOfBuild | otplc/colspec.py:299-354 | a built specification has at least two columns, and its sets and maps hold exactly the columns of their role with their targets |
| ColSpecFacts.EventsOfBuild | otplc/colspec.py:356-366 | a built specification resolves exactly the EVENT columns, each as the run before it dictates |
| ColSpecFacts.AssociationColumnTarget | otplc/colspec.py:546-589 | an accepted relation has a reference to its left, and a relation or reference points at its explicit `:N` column or at the nearest tag to its left |
| ColSpecFacts.PropertyColumnTarget | otplc/colspec.py:559-562 | an accepted property points at the nearest tag or association to its left |
| ColSpecFacts.ColumnsOfBuild | otplc/colspec.py:346-352 | every column of a built specification passed its registration checks |
| ColSpecFacts.TargetsOfBuild | otplc/colspec.py:299-354 | in a built specification, every relation, reference and property points where the registration rules say |
| ColSpecFacts.RefRunMeaning | otplc/colspec.py:424-433 | the run before a column is all references and maximal, stopping at a non-reference or before column 0 |
| ColSpecFacts.EventTargetsOfMeaning | otplc/colspec.py:356-366 | an event's trigger is the leftmost column of the run and its arguments the rest, left to right; an empty run and a run of one are the two errors |
| ColSpecFacts.EventShapesOfBuild | otplc/colspec.py:356-366 | every event of a built specification is an EVENT column with that shape |
| ColSpecFacts.KnownRole | otplc/colspec.py:342-352 | an accepted column holds a known role other than `_ANNOTATION` |
| ColSpecFacts.GetTypeAt | otplc/colspec.py:395-422 | `get_type` reports the one role whose slot or collection holds the column |
| ColSpecFacts.CodeInjective | otplc/colspec.py:161-202 | no two roles share an integer |
| ColSpecFacts.GetTypeOfBuild | otplc/colspec.py:395-422 | on a built specification `get_type` reports every column's role, none for `_UNKNOWN` and none past the end |
| ColSpecFacts.PropertyTargetTypeAt | otplc/colspec.py:509-521 | the property target type is the column's role if that is a tag or association, otherwise an error |
| ColSpecFacts.PropertyTargetTypeOfBuild | otplc/colspec.py:509-521 | on a built specification, every tag or association column is accepted and every other rejected; every property's target is accepted |
| ColSpecFacts.RolesFromOfBuild | otplc/colspec.py:381-393 | on a built specification the roles `__str__` visits are the column roles up to the first `_UNKNOWN` |
| ColSpecFacts.HeaderOfBuild | otplc/colspec.py:381-393 | `__str__` of a built specification names its roles up to the first `_UNKNOWN` column |
| ColSpecFacts.LeadingRolesAll | otplc/colspec.py:381-393 | without `_UNKNOWN` columns every column's role is named |
| ColSpecFacts.BuiltColumnsKnown | otplc/colspec.py:240-250 | every column of a specification built from integers holds a known role |
| ColSpecFacts.LeadingNames | otplc/colspec.py:252-259 | with every column known and none `_UNKNOWN`, `__str__` names the same words as `to_string` |
| ColSpecFacts.LeadingRolesKnown | otplc/colspec.py:381-393 | with no `_UNKNOWN` column, the roles named are all columns' roles, in order |
| ColSpecFacts.NamesOfRoles | otplc/colspec.py:252-259 | naming the roles of the integers is naming the integers |
| ColSpecFacts.HeaderRoundTrip | otplc/colspec.py:227-259 | `str(from_integers(cs))` equals `to_string(cs)` without `_UNKNOWN` columns, and `from_string` of it builds the same specification |
| ColSpecFacts.BuildFailsAt | otplc/colspec.py:346-352 | construction raises the error of the first column whose registration fails |
| ColSpecFacts.BuildFailsAtEvent | otplc/colspec.py:356-366 | when all columns register, construction raises the error of the leftmost unresolvable EVENT column |
| ColSpecFacts.PendingPosition | otplc/colspec.py:319-320 | every EVENT column is pending, after exactly the EVENT columns to its left |
| ColSpecExamples.InitColumnsPass | otplc/test_colspec.py:19-26 | every column of the initialization test registers, with the targets the test expects |
| ColSpecExamples.InitColumnsWith | otplc/test_colspec.py:19-25 | which columns of the test hold each repeatable role |
| ColSpecExamples.InitEventTargets | otplc/test_colspec.py:34 | both test events take the two references before them as trigger and argument |
| ColSpecExamples.InitEventsPass | otplc/test_colspec.py:34 | the test's events resolve without error |
| ColSpecExamples.InitBuilds | otplc/test_colspec.py:26 | the test's columns build a specification |
| ColSpecExamples.InitSlots | otplc/test_colspec.py:27-30 | the test's token, enumeration and PoS slots |
| ColSpecExamples.InitSets | otplc/test_colspec.py:31 | the test's entity and segment-ID sets |
| ColSpecExamples.InitAssociations | otplc/test_colspec.py:32-33 | the test's relation and reference maps |
| ColSpecExamples.InitProperties | otplc/test_colspec.py:35-36 | the test's normalization and attribute maps, both pointing at the event |
| ColSpecExamples.InitEvents | otplc/test_colspec.py:34 | the test's event map |
| ColSpecExamples.InitializationFixture | otplc/test_colspec.py:19-36 | `from_integers` of the sixteen test columns is the specification the test expects |
| ColSpecExamples.PlainWords | otplc/colspec.py:240-250 | the header words `from_integers` passes are the role names, without `:` targets |
| ColSpecExamples.UndefinedColumnFixture | otplc/test_colspec.py:38-41 | integer 50 is rejected as unknown in column 5 |
| ColSpecExamples.AnnotationColumnFixture | otplc/test_colspec.py:56-59 | `_ANNOTATION` is rejected in column 2 |
| ColSpecExamples.UnassignedReferencesFixture | otplc/test_colspec.py:43-46 | a local reference with no tag to its left has no target in column 3 |
| ColSpecExamples.MissingRelationReferenceFixture | otplc/test_colspec.py:67-70 | a relation without a reference before it is rejected in column 3 |
| ColSpecExamples.MissingEventReferenceFixture | otplc/test_colspec.py:72-75 | an event with one reference before it has fewer than two references |
| ColSpecExamples.MissingTargetColumnFixture | otplc/test_colspec.py:77-80 | a normalization next to an enumeration has no target in column 3 |
| ColSpecExamples.MissingAnyTargetColumnsFixture | otplc/test_colspec.py:82-85 | a normalization with only column 0 to its left ends "with no target" |
| ColSpecExamples.SingleColumnFixture | otplc/colspec.py:300 | a single column is not a specification |
| ColSpecExamples.UnknownColumnFixture | otplc/test_colspec.py:48-54 | an `_UNKNOWN` column is skipped, not rejected, and `__str__` then writes nothing |
| Reader.SplitFields | otplc/reader.py:142 | splitting a line by either separator gives at least one field |
| Reader.StripLineEndMeaning | otplc/reader.py:151-153 | stripping removes exactly the longest run of `\r` and `\n` at the line's end and keeps the rest |
| Reader.Lines | otplc/reader.py:151-153 | one line per raw line, each stripped of its line end |
| Reader.AcceptedLines | otplc/reader.py:128-129 | the lines counted are a selection of at most as many lines |
| Reader.SampleLength | otplc/reader.py:127-135 | the sample is a prefix of the accepted lines, at least as long as the lines already counted |
| Reader.MaxKey | otplc/reader.py:193 | `max(counts.keys())` is a key and no key exceeds it |
| Reader.OnlyKey | otplc/reader.py:200-201 | with a single field number, the sorted-first and the maximal field number are the same |
| Reader.ChooseSeparator | otplc/reader.py:190-208 | a separator is chosen exactly when one splitter gives a single field number above one; TAB only when it is stable above one and SPACES, if stable, gives no more fields; SPACES only when stable above one and TAB, if stable, gives fewer fields |
| Reader.ReadUpTo | otplc/reader.py:88-99 | after `n` lines at most `n` segments have been yielded or started, and a format error names one of those lines |
| Reader.Segments | otplc/reader.py:77-99 | iteration yields at most one segment per line |
| Reader.OtplReader.constructor | otplc/reader.py:65-75 | a new reader has the file's stripped lines, no separator, and skips exactly the empty lines |
| Reader.OtplReader.SetFilter | otplc/reader.py:172-176 | setting the filter replaces it and leaves the separator alone |
| Reader.OtplReader.SetSeparator | otplc/reader.py:183-187 | setting the separator replaces it and leaves the filter alone |
| Reader.OtplReader.ExtractFields | otplc/reader.py:141-149 | a line's fields are accepted exactly when no width is fixed yet or they have that width; otherwise the error names the line, the fields found and the width expected |
| Reader.OtplReader.ParseLine | otplc/reader.py:155-160 | an unfiltered line's row is appended and the width fixed by the first row, as one step of reading states |
| Reader.OtplReader.Iterate | otplc/reader.py:77-99 | the loop yields the segments of the reading state function and raises its format error; `ReaderFacts` states what those are |
| Reader.OtplReader.CountFields | otplc/reader.py:122-139 | the loop returns, for both splitters, how many sampled lines split into each field number |
| Reader.OtplReader.DetectSeparator | otplc/reader.py:101-120 | success exactly when a separator can be chosen from the field counts; the separator is set to the choice then and kept otherwise, and the filter is unchanged |
| Reader.ReadErrorSticks | otplc/reader.py:91-96 | once a format error is raised, later lines change nothing |
| Reader.CountAccepted | otplc/reader.py:129-135 | an accepted line is counted by both splitters, and counting stops after ten lines or two field numbers for both |
| Reader.CountSkipped | otplc/reader.py:129 | a filtered or empty line changes no count |
| Reader.AcceptedPrefix | otplc/reader.py:128-129 | the accepted lines of a prefix of the file are a prefix of its accepted lines |
| ReaderFacts.Rows | otplc/reader.py:142 | one row per line |
| ReaderFacts.ReadUpToShaped | otplc/reader.py:88-99 | after any number of lines, every held row has the state's width and no yielded segment is empty |
| ReaderFacts.SegmentsShape | otplc/reader.py:77-99 | iteration yields only non-empty segments, and every row of every segment has the same number of fields, at least one |
| ReaderFacts.StepRows | otplc/reader.py:91-96 | one line keeps the rows held a prefix of the rows of the accepted lines, and equal to them while there is no error |
| ReaderFacts.ReadUpToRows | otplc/reader.py:88-96 | after any prefix, the rows held are those of the accepted lines, or a prefix of them after an error |
| ReaderFacts.SegmentsContents | otplc/reader.py:77-99 | the rows of the segments are the rows of the accepted lines in order, and a prefix of them after a format error |
| ReaderFacts.StepSkipped | otplc/reader.py:92-96 | a skipped line keeps every accepted line at the first line's width |
| ReaderFacts.StepMatching | otplc/reader.py:155-160 | an accepted line of the current width keeps every accepted line at the first line's width |
| ReaderFacts.StepMismatch | otplc/reader.py:141-149 | an accepted line of another width raises the error at that line, the first mismatch |
| ReaderFacts.ReadUpToErrors | otplc/reader.py:88-96 | without an error all accepted lines share the first one's width; an error is raised at the first line that does not |
| ReaderFacts.MismatchNotUniform | otplc/reader.py:144 | a line whose width differs from the first accepted line's makes the accepted lines non-uniform |
| ReaderFacts.FirstMismatchNotUniform | otplc/reader.py:144 | the line an error is raised at makes the accepted lines non-uniform |
| ReaderFacts.WiderPrefixNotUniform | otplc/reader.py:144 | a uniform run followed by a line of another width is not uniform |
| ReaderFacts.ReadErrorMeaning | otplc/reader.py:77-99 | iteration raises no format error exactly when all accepted lines split into the same number of fields, and otherwise raises it at the first line that does not |
| SeparatorFacts.FieldCountsAreFieldNumbers | otplc/reader.py:130-131 | every counted key is a field number, at least one |
| SeparatorFacts.SampleCountsAreFieldNumbers | otplc/reader.py:122-139 | the counts returned have field numbers as keys |
| SeparatorFacts.SampleLengthStops | otplc/reader.py:127-135 | counting from a line on stops at a full sample or at the last line |
| SeparatorFacts.SampleLengthFrom | otplc/reader.py:127-135 | counting stops at the first line where the sample is full, or at the end |
| SeparatorFacts.SampleMeaning | otplc/reader.py:101-139 | at most ten lines are sampled, ending at the first where both splitters have seen two field numbers, or at the end of the file |
| ReaderExamples.VariableColumnNumbers | otplc/test_reader.py:15-19 | three fields and then two: line 2 has 2 columns but 3 were expected, and no segment is yielded |
| ReaderExamples.ReadingDefaultOtpl | otplc/test_reader.py:21-39 | two two-line segments are yielded, split by the blank lines, without error |
| ReaderExamples.UniformSample | otplc/reader.py:127-135 | up to nine lines that one splitter splits alike are all counted, as one field number |
| ReaderExamples.SpacesSplitUnicode | otplc/reader.py:140-148 | SPACES (`\s+`) cuts a line at a no-break space and an ideographic space |
| ReaderExamples.ChooseSpacesFixture | otplc/reader.py:199-204 | three fields by SPACES beat two by TAB |
| ReaderExamples.ChooseTabFixture | otplc/reader.py:197-198 | TAB is chosen when it alone gives a single field number above one |
| ReaderExamples.GuessSepSpaces | otplc/test_reader.py:41-46 | the test's lines are counted once by each splitter and SPACES is detected |
| ReaderExamples.AlternatingCounts | otplc/test_reader.py:48-50 | the second test's lines give two field numbers by SPACES |
| ReaderExamples.GuessSepTab | otplc/test_reader.py:48-53 | the test's lines are counted and TAB is detected |
| Guessing.MaxOf | otplc/reader.py:373 | `max(references)` is a reference and no reference exceeds it |
| Guessing.Unknowns | otplc/reader.py:271 | a fresh guess has every column `_UNKNOWN` |
| Guessing.UniqueRoles | otplc/reader.py:345-351 | one role per column; what changes is stated by `GuessingFacts.UniqueRolesMeaning` |
| Guessing.Indices | otplc/reader.py:341-343 | `_iterColumns` yields, in ascending order, exactly the columns whose role is among the choices |
| Guessing.FirstOtherEnum | otplc/reader.py:323-333 | the first enumeration column other than the column being analyzed, and no other enumeration before it |
| Guessing.EnumRoles | otplc/reader.py:318-339 | one role per column; the ordering it establishes is `GuessingFacts.EnumRolesOrdered` |
| Guessing.ScanEnums | otplc/reader.py:376-385 | one role per column; `GuessingFacts.ScanEnumsMeaning` states what it drops |
| Guessing.ScanStep | otplc/reader.py:376-382 | a non-integer local enumeration is dropped to unknown and the scan goes on; a covering one ends the scan; any other is passed over |
| Guessing.ReferenceScope | otplc/reader.py:368-385 | one role per column; scope and changes in `GuessingFacts.ReferenceScopeMeaning` |
| Guessing.AnnotationOrReference | otplc/reader.py:353-359 | one role per column on success |
| Guessing.ReferenceCheck | otplc/reader.py:361-366 | one role per column on success |
| Guessing.IdOrToken | otplc/reader.py:303-316 | one role per column; `GuessingFacts.IdOrTokenKeeps` states that resolved roles survive |
| Guessing.ColumnAnalysis | otplc/reader.py:293-301 | one role per column on success |
| Guessing.AnalyzedFrom | otplc/reader.py:287-291 | one role per column on success |
| Guessing.Disambiguate | otplc/reader.py:439-440 | an association column is always an event or a relation |
| Guessing.FirstNonRef | otplc/reader.py:420-424 | the first column from the start on that is not a reference, every column before it being one |
| Guessing.Association | otplc/reader.py:419-436 | one role per column on success; `GuessingFacts.AssociationMeaning` states the outcomes |
| Guessing.AnnotationStep | otplc/reader.py:388-393 | one role per column on success |
| Guessing.AssignedFrom | otplc/reader.py:387-393 | one role per column on success |
| Guessing.Refined | otplc/reader.py:282-285 | a round keeps one role per column |
| Guessing.Guess.constructor | otplc/reader.py:269-271 | a new guess has the first row's width, all columns unknown, the segment, and no token seen; the analysis `__init__` runs next is `Refine` |
| Guessing.Guess.Update | otplc/reader.py:282-285 | the new segment is stored, and the guess and token flag become one round of refinement of the old guess, or the round's error |
| Guessing.Guess.Refine | otplc/reader.py:272-273 | the first round `__init__` runs: analysis then annotation assignment, ending in the guess and token flag of `Refined`, or its error |
| Guessing.Guess.Analyze | otplc/reader.py:287-291 | the token flag is reset and every column analyzed left to right on the updated guess |
| Guessing.Guess.AnalyzeColumn | otplc/reader.py:293-301 | an unknown column goes through the id/token heuristic before the token is seen and through the annotation/reference heuristic after; a reference is re-scoped; other roles stay |
| Guessing.Guess.GuessIdOrToken | otplc/reader.py:303-316 | a constant column of a multi-row segment is a segment id, a numeric one an enumeration, and anything else the unique token, which sets the flag |
| Guessing.Guess.EnsureEnumColumns | otplc/reader.py:318-339 | the loop computes the enumeration roles: at most two, the global one first |
| Guessing.Guess.GuessUnique | otplc/reader.py:345-351 | the loop makes the column the only one of its role among those to its left |
| Guessing.Guess.GuessAnnotationOrReference | otplc/reader.py:353-359 | a numeric column gets a reference scope, any other becomes an unresolved annotation |
| Guessing.Guess.EnsureReference | otplc/reader.py:361-366 | a reference column that is still numeric is re-scoped, otherwise it becomes unknown |
| Text.ParseIntIgnoresPadding | otplc/reader.py:376-382 | whitespace around a number does not change what `int` makes of it, so a padded enumeration cell reads as its number |
| Guessing.ScanLocalEnums | otplc/reader.py:376-382 | the loop over the local enumerations ends in `ScanEnums`: it stops at the first one whose integers cover the references and drops every non-integer one before it |
| Guessing.Guess.GuessLocalOrGlobalReference | otplc/reader.py:368-385 | the loop over local enumerations computes the reference scope, dropping non-integer enumerations |
| Guessing.Guess.AssignAnnotationTypes | otplc/reader.py:387-393 | annotations after a resolved column become tags or properties, and references resolve the association after them, reading the guess as it is updated |
| Guessing.Guess.HasATagToTheLeft | otplc/reader.py:395-400 | the loop finds a PoS tag or entity among columns 1 to `col - 1` exactly when there is one |
| Guessing.Guess.GuessTagOrProperty | otplc/reader.py:402-417 | only the column changes, to the role `TagRole` decides, whose cases `GuessingFacts.TagRoleMeaning` states |
| Guessing.Guess.GuessEventOrRelation | otplc/reader.py:419-436 | the loop resolves the first non-reference column to the right, or fails on a non-association |
| Guessing.MakeGuess | otplc/reader.py:245-264 | the loop reads the header or guesses round by round, one last round after a complete guess, at most six segments |
| Guessing.Codes | otplc/reader.py:242 | the integer of each guessed role, in order |
| Guessing.Concluded | otplc/reader.py:215-242 | the reader's format error and the non-association error are caught and give no specification; a specification only comes from a guess that did not fail |
| Guessing.ConcludedAsWritten | otplc/reader.py:215-242 | as written the non-association error escapes `guess_colspec`; every other outcome is that of `Concluded` |
| Guessing.GuessColspec | otplc/reader.py:215-242 | the guess drawn from the reader's segments, concluded into a specification, `None` or the escaping error |
| GuessingFacts.UniqueRolesMeaning | otplc/reader.py:345-351 | the column takes the role, no column to its left keeps it, and only such columns lose it, to unknown |
| GuessingFacts.EnumRolesOrdered | otplc/reader.py:318-339 | the column becomes an enumeration, at most two remain with the global one first, and only enumeration columns change otherwise |
| GuessingFacts.ScanEnumsMeaning | otplc/reader.py:376-382 | the scan only drops local enumerations that do not read as integers |
| GuessingFacts.ReferencesEmpty | otplc/reader.py:370 | the reference set of a numeric column is empty exactly when every value is `0` |
| GuessingFacts.MaxExceeds | otplc/reader.py:373 | the maximum reference exceeds the row count exactly when some value does |
| GuessingFacts.ReferenceScopeChanges | otplc/reader.py:368-385 | the column becomes a reference and only local enumerations elsewhere may drop to unknown |
| GuessingFacts.ReferenceScopeMeaning | otplc/reader.py:368-385 | a column of zeros fails (`max()` of an empty set); otherwise it is global exactly when a value exceeds the row count, and local enumerations are the only other change |
| GuessingFacts.AssociationMeaning | otplc/reader.py:419-436 | the first unresolved annotation after only references becomes an event after two or more references and a relation after one; any other change is such a resolution; a failure names the non-association role found |
| GuessingFacts.TagRoleMeaning | otplc/reader.py:402-417 | with a tag to the left an annotation becomes a normalization, entity or attribute, without one an entity, PoS tag after the token, or unknown; each choice matches its values |
| GuessingFacts.IdOrTokenKeeps | otplc/reader.py:303-316 | the id/token test never changes a resolved role |
| GuessingFacts.ReferenceScopeKeeps | otplc/reader.py:368-385 | scoping a reference never changes a resolved role |
| GuessingFacts.ColumnAnalysisKeeps | otplc/reader.py:293-301 | analyzing a column never changes a resolved role |
| GuessingFacts.AnalyzedKeeps | otplc/reader.py:287-291 | the analysis of a round never changes a resolved role |
| GuessingFacts.AnnotationStepChanges | otplc/reader.py:388-393 | one assignment step only changes unresolved annotation columns |
| GuessingFacts.AssignedChanges | otplc/reader.py:387-393 | assignment only changes unresolved annotation columns |
| GuessingFacts.RefinedKeepsSettled | otplc/reader.py:282-285 | a round never changes a settled role, so a column keeps it in later rounds |
| GuessingFacts.RoundsKeepSettled | otplc/reader.py:249-264 | the final guess keeps every settled role of any intermediate round |
| GuessingFacts.RoundsPrefix | otplc/reader.py:259-260 | the rounds from any of the first six segments on read nothing after the sixth |
| GuessingFacts.SixSegmentsSuffice | otplc/reader.py:259-260 | the guess reads at most six segments: what follows, including a reader error, does not change it |
| GuessingFacts.OneLastRound | otplc/reader.py:259-262 | a guess completed on the first segment gets exactly one more round |
| GuessingFacts.HeaderSegment | otplc/reader.py:250-253 | a first segment of one row of column names is read as a colspec header |
| GuessingFacts.RoundsWidth | otplc/reader.py:245-264 | without a header the guess has one role per column |
| GuessingFacts.ConcludedMeaning | otplc/reader.py:227-242 | a reader failure and a guess of fewer than two columns give no specification; a header's specification is returned; otherwise the specification is `from_integers` of the guessed codes |
| GuessingExamples.LocalStep | otplc/reader.py:368-385 | numbers within the row count, with no local enumeration, make a local reference |
| GuessingExamples.GlobalStep | otplc/reader.py:373-374 | a number above the row count makes a global reference |
| GuessingExamples.TokenStep | otplc/reader.py:313-316 | a varying word column before any token becomes the token |
| GuessingExamples.ThreeEnumsColumns | otplc/test_reader.py:89-98 | each new numeric column before the token is local, the earlier one turning global, and a third drops the middle one |
| GuessingExamples.ThreeEnumsRoundOne | otplc/test_reader.py:89-98 | the first round of the test gives `GLOBAL_ENUM _UNKNOWN LOCAL_ENUM TOKEN` |
| GuessingExamples.ThreeEnumsRoundTwo | otplc/test_reader.py:89-101 | the last round keeps that guess |
| GuessingExamples.IncompleteThenLast | otplc/reader.py:249-264 | after an incomplete first round the second segment is guessed and the reader ends |
| GuessingExamples.GuessThreeEnums | otplc/test_reader.py:89-98 | the test's two segments guess `GLOBAL_ENUM _UNKNOWN LOCAL_ENUM TOKEN` |
| GuessingExamples.ReferenceAnalysisOne | otplc/test_reader.py:115-135 | the first analysis of the reference tests: token, annotation, reference, annotation |
| GuessingExamples.ReferenceAssignOne | otplc/test_reader.py:115-135 | assignment makes the annotations a PoS tag and a relation |
| GuessingExamples.ReferenceRoundOne | otplc/test_reader.py:115-135 | the first round completes the guess |
| GuessingExamples.ReferenceRoundAgain | otplc/test_reader.py:115-135 | the last round keeps a reference that still fits its scope |
| GuessingExamples.CompletedThenKept | otplc/reader.py:259-262 | a complete first round and a keeping second end the guess before the third segment |
| GuessingExamples.ReferenceGuess | otplc/test_reader.py:115-135 | both reference tests end with `TOKEN POS_TAG <ref> RELATION` |
| GuessingExamples.GlobalRounds | otplc/test_reader.py:115-124 | the global reference test's two rounds |
| GuessingExamples.LocalRounds | otplc/test_reader.py:126-135 | the local reference test's two rounds |
| GuessingExamples.GuessGlobalRef | otplc/test_reader.py:115-124 | values above the segment length guess `TOKEN POS_TAG GLOBAL_REF RELATION` |
| GuessingExamples.GuessLocalRef | otplc/test_reader.py:126-135 | values within the segment length guess `TOKEN POS_TAG LOCAL_REF RELATION`, and the all-zero third segment is never read |
| GuessingFinding.RoundOne | otplc/reader.py:282-285 | the first round of the trace leaves the last column unknown |
| GuessingFinding.SecondAnalysis | otplc/reader.py:287-316 | the second analysis drops the word-valued second reference and reads the constant last column as a segment id |
| GuessingFinding.RoundTwo | otplc/reader.py:282-285 | the second round's guess is still incomplete |
| GuessingFinding.RoundThree | otplc/reader.py:419-436 | in the third round the reference is followed by a segment id and assignment fails |
| GuessingFinding.ThirdRoundFails | otplc/reader.py:249-264 | two incomplete rounds and a failing third make the guess fail |
| GuessingFinding.NonAssociationEscapes | otplc/reader.py:227-242 | the trace's failure escapes `guess_colspec` as written, and is discarded as `None` with the intended error |
| Conversion.ValidateName | otplc/converter.py:553-560 | a name is looked up in the name table first; the result is the remapped name when it matches `A_VALID_NAME`, and none exactly when the remapped name does not |
| Conversion.Tokens | otplc/converter.py:215-218 | the token column of every row, in order |
| Conversion.Offsets | otplc/converter.py:214-236 | one span per token on success |
| Conversion.OffsetsLocated | otplc/converter.py:224-236 | every span yielded is an occurrence of its token in the text |
| Conversion.Prefixed | otplc/converter.py:236 | spans yielded before are kept in front, and an error passes through unchanged |
| Conversion.OffsetsStep | otplc/converter.py:224-236 | a token found at `p` yields `(p, p + len)` and the search goes on from its end, on the next line |
| Conversion.OffsetsAdvance | otplc/converter.py:217-236 | one loop iteration moves one span from the offsets to come to the offsets yielded, keeping the whole result |
| Conversion.BieoStep | otplc/converter.py:264-291 | after one row the buffered rows still end just before the next row, all start a BIO tag, and the stored start is the first buffered row's |
| Conversion.BieoFrom | otplc/converter.py:260-293 | the span returned open at the end is made of the last buffered rows, with the start of the first |
| Conversion.ArgIds | otplc/converter.py:371-372 | one uid per argument column, none exactly for an argument given as `0` |
| Conversion.Presence | otplc/converter.py:375 | each argument column paired with whether the argument is present |
| Conversion.LocalStep | otplc/converter.py:153-161 | one segment of `_convertLocal`: tokens and entities, then the other annotations, the next segment searched from the end of the last token |
| Conversion.EntityPassStep | otplc/converter.py:163-190 | one segment of the first pass keeps the segment's local map for the second |
| Conversion.AnnotationPassStep | otplc/converter.py:163-190 | one segment of the second pass uses the local map its first pass kept |
| Conversion.EntityPassMaps | otplc/converter.py:163-190 | the first pass keeps one local map per segment |
| Conversion.ChainOrdered | otplc/converter.py:214-236 | spans inside the text, each ending before the next begins, are ordered |
| Conversion.OffsetsChained | otplc/converter.py:224-236 | the first span starts at or after the offset given, and each span ends before the next begins |
| Conversion.OffsetsOrdered | otplc/converter.py:214-236 | the spans of a segment are ordered, so a span from one row to a later one is a slice of the text |
| Conversion.ReachMeaning | otplc/converter.py:192-258 | every column the specification names lies below its reach, and the last column below the reach is named |
| Conversion.RegisterAnnotation | otplc/converter.py:419-433 | `_register` changes only the counters and the id maps, keeps whether there is a global map, and returns the uid of the letter's new count |
| Conversion.LocalTargetId | otplc/converter.py:448-456 | a resolved target uid is registered in the local map under the target column; a failure is the unresolved-target error for that column |
| Conversion.ReferencedId | otplc/converter.py:435-446 | a global reference resolves only when there is a global map holding its target column; a local one resolves to a uid registered in the local map under its target; a failure names the reference column and its number |
| Conversion.MakeEntity | otplc/converter.py:295-317 | an entity keeps the records written before and adds at most one, and leaves the segment and line counts alone |
| Conversion.MakeRelation | otplc/converter.py:342-358 | a relation keeps the records written before and adds at most one, and leaves the segment and line counts alone |
| Conversion.WeakenFrom | otplc/converter.py:380-387 | the update keeps the number of known positions and never makes an optional argument required |
| Conversion.StoreEventArguments | otplc/converter.py:380-389 | the result adds the name to those known; the argument list stored for it keeps its length, or is the event's own for a new name; an overflow is reported for a known name |
| Conversion.MakeEvent | otplc/converter.py:360-378 | an event keeps the records written before and adds at most one, and leaves the segment and line counts alone |
| Conversion.MakeNormalization | otplc/converter.py:319-340 | a normalization keeps the records written before and adds at most one, and leaves the segment and line counts alone |
| Conversion.MakeAttribute | otplc/converter.py:391-413 | an attribute keeps the records written before and adds at most one, and leaves the segment and line counts alone |
| Conversion.CommonType | otplc/converter.py:527-539 | there is no common type only when there were no targets, and a failure names one of the targets left to scan |
| Conversion.Shortcut | otplc/converter.py:527-551 | the shortcut is one of `<ANY>`, `<ENTITY>`, `<RELATION>` and `<EVENT>`; no targets raise the illegal shortcut error |
| Conversion.EventTypeLine | otplc/converter.py:493-505 | the line starts with the event name and a tab and ends with a newline; its entries are stated by `ConversionFacts.EventTypeLineMeaning` |
| Conversion.RelationTypeLine | otplc/converter.py:481-491 | the line starts with the relation name and a tab and ends with a newline; its two entries are stated by `ConversionFacts.RelationTypeLineMeaning` |
| Conversion.AttributeTypeLine | otplc/converter.py:507-511 | the line starts with the attribute name and a tab and ends with a newline; its entry is stated by `ConversionFacts.AttributeTypeLineMeaning` |
| ConversionRules.RelationRule | otplc/converter.py:342-358 | a skipped or unusable relation changes nothing; otherwise it is written from the uid of its row's target to the uid its reference stands for, and fails exactly when either is missing, with the error naming the missing one |
| ConversionRules.ArgIdsErrors | otplc/converter.py:370-372 | the argument uids fail only on an unresolved reference |
| ConversionRules.EventSkip | otplc/converter.py:360-378 | a skipped or unusable event changes nothing, and an event fails only on an unresolved reference or an argument missing beyond the known positions |
| ConversionRules.EventWritten | otplc/converter.py:360-378 | an event fails without its trigger; written, it is the registered uid with its trigger and the present arguments as `ArgK`, and the presence of each argument is stored for its name |
| ConversionRules.NormalizationSkip | otplc/converter.py:319-325 | an empty or `NULL` value changes nothing; otherwise the normalization fails exactly when its target row has no entity |
| ConversionRules.NormalizationWritten | otplc/converter.py:319-340 | a resolved normalization uses up an `N` uid whether or not its database name is usable, and only a usable one is written, beside its target, with the database and accession of its identifier |
| ConversionRules.NormalizationCounted | otplc/converter.py:319-340 | the `N` counter advances by one, and one record is written exactly when the database name is usable |
| ConversionRules.NormalizationRecord | otplc/converter.py:326-340 | the written record has the next `N` uid, the target's uid, and the identifier's database and accession |
| ConversionRules.RecordAppended | otplc/converter.py:415-417 | a stored record is the one appended at the end of the file |
| ConversionRules.NormalizationOutcome | otplc/converter.py:319-340 | the normalization is the registration, plus its database name and record only when the name is usable, and it succeeds exactly when the target resolves |
| ConversionRules.AttributeRule | otplc/converter.py:391-413 | an empty, `NULL` or unusable name changes nothing; otherwise the attribute fails exactly when its target is missing, and its uid is counted without registering anything |
| ConversionRules.EntityRule | otplc/converter.py:295-317 | the type is the first row's tag, without the BIO prefix; an unusable type drops the entity; a PoS entity never fails; a BIO span fails exactly when its type is usable and a row carries another tag; written, it is the next `T` uid over the span's text |
| ConversionRules.PosFromRule | otplc/converter.py:238-246 | `_processPoS` never fails, and writes one entity per row with a usable PoS tag |
| ConversionRecords.GrowsTransitive | otplc/converter.py:87-117 | growth of counters, records and names composes over steps |
| ConversionRecords.GrowsSame | otplc/converter.py:87-117 | a step that changes no counter, record or name grows trivially |
| ConversionRecords.Issue | otplc/converter.py:419-433 | issuing the next uid of a letter and writing at most one record with it keeps all uids unique |
| ConversionRecords.MadeGrows | otplc/converter.py:295-413 | a record maker that changes nothing or issues one uid keeps the uids unique and only adds names |
| ConversionRecords.MakeEntityMade | otplc/converter.py:295-317 | an entity issues one `T` uid and writes at most one record with it |
| ConversionRecords.RelationShape | otplc/converter.py:342-358 | a relation changes nothing, or is the registration plus its name's column and one record with the registered uid |
| ConversionRecords.RelationMade | otplc/converter.py:352-358 | such a relation issues one `R` uid |
| ConversionRecords.MakeRelationMade | otplc/converter.py:342-358 | a relation issues one `R` uid and writes at most one record with it |
| ConversionRecords.EventShape | otplc/converter.py:360-378 | an event changes nothing, or is the registration plus its name's arguments and one record with the registered uid |
| ConversionRecords.EventMade | otplc/converter.py:369-378 | such an event issues one `E` uid |
| ConversionRecords.MakeEventMade | otplc/converter.py:360-378 | an event issues one `E` uid and writes at most one record with it |
| ConversionRecords.MakeNormalizationMade | otplc/converter.py:319-340 | a normalization issues one `N` uid and writes at most one record with it |
| ConversionRecords.MakeAttributeMade | otplc/converter.py:391-413 | an attribute issues one `A` uid and writes at most one record with it |
| ConversionRecords.MakeGrows | otplc/converter.py:205-212 | every record maker only grows the state |
| ConversionRecords.RowsFromGrows | otplc/converter.py:255-258 | one annotation column only grows the state |
| ConversionRecords.ColumnsFromGrows | otplc/converter.py:255-258 | all columns of a kind only grow the state |
| ConversionRecords.AnnotationsGrow | otplc/converter.py:205-212 | `_convertAnnotations` only grows the state |
| ConversionRecords.MakeEntityGrows | otplc/converter.py:295-317 | an entity only grows the state |
| ConversionRecords.PosFromGrows | otplc/converter.py:238-246 | the PoS column only grows the state |
| ConversionRecords.BieoStepGrows | otplc/converter.py:264-291 | one row of `_parseBIEO` only grows the state |
| ConversionRecords.BieoFromGrows | otplc/converter.py:260-293 | `_parseBIEO` only grows the state |
| ConversionRecords.EntityColumnGrows | otplc/converter.py:249-253 | one BIO column, with its span left open, only grows the state |
| ConversionRecords.EntitiesFromGrows | otplc/converter.py:248-253 | `_processEntities` only grows the state |
| ConversionRecords.TokensAndEntitiesGrow | otplc/converter.py:192-203 | `_convertTokensAndEntities` only grows the state |
| ConversionRecords.LocalFromGrows | otplc/converter.py:153-161 | `_convertLocal` only grows the state |
| ConversionRecords.EntityPassFromGrows | otplc/converter.py:163-190 | the first pass only grows the state |
| ConversionRecords.AnnotationPassFromGrows | otplc/converter.py:163-190 | the second pass only grows the state |
| ConversionRecords.WithGlobalsGrows | otplc/converter.py:163-190 | `_convertWithGlobals`, with its counter restart, only grows the state |
| ConversionRecords.ConvertedUniqueUids | otplc/converter.py:87-117 | a conversion writes records whose uids are pairwise different, each a type letter and a count issued in that file, and only adds to the names collected for the configuration |
| ConversionFacts.OffsetsFirstAt | otplc/converter.py:224-236 | token `k` is bound to its first occurrence from where the search for it starts |
| ConversionFacts.OffsetsFirst | otplc/converter.py:214-236 | every token is bound to the first occurrence at or after the end of the token before it |
| ConversionFacts.OffsetsMissing | otplc/converter.py:229-233 | a failed search names a token of the segment, its line (the first line plus its index) and an offset from which it does not occur at all |
| ConversionFacts.UidInjective | otplc/converter.py:420 | different letters or counts never give the same uid |
| ConversionFacts.RegisterRowsAt | otplc/converter.py:425-431 | after registration a number keeps the uid it had, a new row number gets the new uid, and no other number appears |
| ConversionFacts.SetDefaultLookup | otplc/converter.py:427-431 | `setdefault` adds the key with the uid only when the key is new |
| ConversionFacts.NumberedStep | otplc/converter.py:425-431 | a row number is that of the current row or of a later one |
| ConversionFacts.RegisterRowsFrame | otplc/converter.py:425-431 | registration changes no column but its own |
| ConversionFacts.RegisterRowsMeaning | otplc/converter.py:425-431 | first writer wins, every row is registered, nothing else is, and no other column changes |
| ConversionFacts.RegisterAnnotationCounts | otplc/converter.py:419-433 | `_register` hands out the letter's next count, leaves the other counters, keeps whether there is a global map, and changes nothing but the counters and maps |
| ConversionFacts.RegisterAnnotationUid | otplc/converter.py:419-433 | `_register` writes nothing and advances only its letter's counter |
| ConversionFacts.RegisterAnnotationMaps | otplc/converter.py:425-431 | every row's number resolves in the local map afterwards, and numbers registered before keep their uids |
| ConversionFacts.ResetRestarts | otplc/converter.py:138-151 | after `_resetStates` the first uid of every letter is count 1, and the collected names and the file written are kept |
| ConversionFacts.ArgItemsLength | otplc/converter.py:373-374 | one `ArgK` item per present argument |
| ConversionFacts.ArgItemsListed | otplc/converter.py:373-374 | every present argument is listed under its own position |
| ConversionFacts.ArgItemsOnly | otplc/converter.py:373-374 | every item listed is a present argument under its position |
| ConversionFacts.ArgItemsMeaning | otplc/converter.py:371-374 | `ArgK` keeps the argument's position: each present argument is listed under its own number, and nothing else is |
| ConversionFacts.WeakenFromMeaning | otplc/converter.py:383-387 | the update fails exactly when an argument is absent beyond the known positions; otherwise a required argument absent now becomes optional and nothing else changes |
| ConversionFacts.StoredRequired | otplc/converter.py:380-387 | for a known name, a position stays required exactly when it was and is present again, other names are untouched |
| ConversionFacts.StoredFirst | otplc/converter.py:388-389 | the first event of a name records its pairs as they are |
| ConversionFacts.CommonTypeMeaning | otplc/converter.py:530-537 | the loop ends with the type all targets share, or `_ANNOTATION` at the first disagreement |
| ConversionFacts.ShortcutMeaning | otplc/converter.py:527-551 | `<ANY>` exactly when the target types differ, else the shortcut of the one type; no targets raise the illegal shortcut error |
| ConversionFacts.NarrowedCoherent | otplc/converter.py:79-85 | cutting a coherent specification down to its reach keeps it coherent and never widens it |
| ConversionFacts.ShortcutShared | otplc/converter.py:527-551 | when every target has a type, the shortcut is that of the first target's type if all share it, else `<ANY>` |
| ConversionFacts.ShortcutUntyped | otplc/converter.py:531-551 | a first target without a column type raises the illegal shortcut error |
| ConversionFacts.OneRelationSource | otplc/converter.py:485-487 | the relation targets of one relation column are that column's target |
| ConversionFacts.OneRelationReference | otplc/converter.py:488-490 | the reference targets of one relation column are the target of the reference column to its left |
| ConversionFacts.TwoAttributeTargets | otplc/converter.py:509 | the attribute targets of two attribute columns are their targets in column order, once when the columns coincide |
| ConversionFacts.RelationTypeLineMeaning | otplc/converter.py:481-491 | with typed relation and reference targets the line is the name, a tab, `Arg1:` with the shared shortcut of the relation targets, `, Arg2:` with that of the reference targets, and a newline; no targets or an untyped first target fail |
| ConversionFacts.AttributeTypeLineMeaning | otplc/converter.py:507-511 | with typed targets the line is the name, a tab, `Arg:` with the shared shortcut of the targets and a newline; no targets or an untyped first target fail |
| ConversionFacts.EventArgumentMeaning | otplc/converter.py:498-502 | an argument entry is written exactly when its column has a typed reference target, and it is `Col` with the one-based column, `?` for an optional argument, `:` and the shortcut of the target's type |
| ConversionFacts.EventArgumentsMeaning | otplc/converter.py:496-502 | the entries are written exactly when every argument has a typed target, one entry per argument in order, each as `EventArgumentMeaning` states |
| ConversionFacts.EventTypeLineMeaning | otplc/converter.py:493-505 | the line is written exactly when every argument has a typed target, and then it is the name, a tab, the entries joined by `, `, and a newline |
| ConversionFacts.OptionalMarked | otplc/converter.py:500-502 | an entry holds `?` exactly when its argument is optional |
| ConversionFacts.NothingToConvert | otplc/converter.py:108-117 | with no segments any specification fits, and the conversion succeeds with reset states, an empty annotation file and, with global references, an empty global map |
| ConversionFacts.NarrowedFits | otplc/converter.py:87-117 | segments that fit a specification fit its cut-down form, and a row narrower than that form misses a column the specification names |
| ConversionExamples.FindFirst | otplc/converter.py:224 | `index(token, start)` finds the first occurrence at or after `start` |
| ConversionExamples.FoundAt | otplc/converter.py:224-236 | a token found at its span is followed by the spans of the tokens after it |
| ConversionExamples.SentenceWords | otplc/test_converter.py:18-63 | where the words of the test sentence occur, and that none occurs one character earlier |
| ConversionExamples.SentenceStart | otplc/test_converter.py:18-63 | the first two words of the sentence |
| ConversionExamples.SentenceMiddle | otplc/test_converter.py:18-63 | `Florian` and the possessive |
| ConversionExamples.SentenceEnd | otplc/test_converter.py:18-63 | the last three tokens |
| ConversionExamples.SentenceOffsets | otplc/test_converter.py:18-63 | the sentence's tokens bind left to right, the possessive directly after `Florian` |
| ConversionExamples.SentenceFinds | otplc/test_converter.py:18-63 | each word, searched from the end of the one before, is found at its start |
| ConversionExamples.OffsetsOfSentenceEnd | otplc/test_converter.py:18-63 | the offsets of the last four tokens |
| ConversionExamples.OffsetsOfSentenceMiddle | otplc/test_converter.py:18-63 | the offsets from the second token on |
| ConversionExamples.OffsetsOfSentence | otplc/test_converter.py:18-63 | the offsets of the whole sentence |
| ConversionExamples.MissingToken | otplc/test_converter.py:65-88 | an unmatched token fails the segment with its line and the offset searched from |
| ConversionExamples.FoundBeforeError | otplc/converter.py:224-236 | a found token passes on the error of the tokens after it |
| ConversionExamples.MissingTokenFrom | otplc/test_converter.py:65-88 | the whole unmatched segment fails with that error |
| ConversionExamples.MissingTokenEnd | otplc/test_converter.py:65-88 | from the end of the possessive on, `weird` is found and `anti-test` is not |
| ConversionExamples.TwelfthEntity | otplc/converter.py:420 | the twelfth entity of a file is `T12` |
| ConversionExamples.ArgumentsKeepPositions | otplc/converter.py:371-374 | arguments given as `0` are left out and the others keep their positions |
| ConversionExamples.EventArgumentWeakens | otplc/test_converter.py:102-144 | an event argument seen and then missed becomes optional, and is not made required again |
| ConversionExamples.RenamedNameValidated | otplc/converter.py:553-560 | a renamed name is checked after renaming; `PRP$` alone is unusable |
| ConversionExamples.SegmentIdLastReach | otplc/converter.py:192-258 | `TOKEN POS_TAG SEGMENT_ID` names only its first two columns, so it reaches two columns |
| ConversionExamples.RelationEntityLine | otplc/test_converter.py:129 | a relation column whose target and reference target are entity columns gives `rel1\tArg1:<ENTITY>, Arg2:<ENTITY>` |
| ConversionExamples.EventEntityLines | otplc/test_converter.py:133-134 | a required and an optional argument in column 7 with an entity target give `evt1\tCol7:<ENTITY>` and `evt2\tCol7?:<ENTITY>` |
| ConversionExamples.AttributeEventLine | otplc/test_converter.py:137 | an attribute column whose target is an event column gives `att2\tArg:<EVENT>` |
| ConversionExamples.AttributeAnyLine | otplc/test_converter.py:136 | two attribute columns of one name targeting an entity and an event give `att1\tArg:<ANY>` |
| ConversionExamples.SegmentIdColumnUnread | otplc/converter.py:87-117 | that specification is coherent, and cut down to its reach it accepts two-field rows |
| ConversionFinding.MakeEntityAsWritten | otplc/converter.py:295-317 | `_makeEntity` as written fails only with the mixed-span error |
| ConversionFinding.AsWrittenAgrees | otplc/converter.py:307-310 | where the name table leaves the type alone, the written check is the intended one |
| ConversionFinding.RenamedTypeFails | otplc/converter.py:307-310 | a BIO span of one tag whose type is renamed to a usable name fails as written, and is written under the new name by `Conversion.MakeEntity` |
| ConversionFinding.DollarTagRenamed | otplc/converter.py:307-310 | `B-PRP$` with the name table entry `PRP$` to `PRP_S` meets that premise |
| Converter.OtplBratConverter.constructor | otplc/converter.py:39-58 | a new converter has no colspec, no text, an empty name table and the initial state |
| Converter.OtplBratConverter.SetNameDict | otplc/converter.py:60-77 | the name table is replaced |
| Converter.OtplBratConverter.SetColspec | otplc/converter.py:79-85 | the colspec is set, cut down to the columns it names; a coherent specification leaves the converter ready |
| Converter.OtplBratConverter.ResetStates | otplc/converter.py:138-151 | the state becomes `Reset` of the old state |
| Converter.RegisterInto | otplc/converter.py:425-431 | the loop over one id map ends in the registration of every row, `RegisterRows` |
| Converter.OtplBratConverter.Register | otplc/converter.py:419-433 | ends in the state and uid of `RegisterAnnotation`, whose meaning `ConversionFacts.RegisterRowsMeaning` states |
| Converter.OtplBratConverter.YieldOffsets | otplc/converter.py:214-236 | the loop gives the offsets of `Offsets`, or its error |
| Converter.OtplBratConverter.MakeEntity | otplc/converter.py:295-317 | ends in the state or error of `Conversion.MakeEntity` |
| Converter.OtplBratConverter.ProcessPoS | otplc/converter.py:238-246 | no PoS column changes nothing; otherwise the loop ends as `PosFrom` |
| Converter.OtplBratConverter.ParseBieoRow | otplc/converter.py:264-291 | one iteration ends as `BieoStep` |
| Converter.OtplBratConverter.ParseBieo | otplc/converter.py:260-293 | the loop ends as `BieoFrom` |
| Converter.OtplBratConverter.ProcessEntities | otplc/converter.py:248-253 | the loop over BIO columns ends as `EntitiesFrom` |
| Converter.OtplBratConverter.MakeRelation | otplc/converter.py:342-358 | ends in the state or error of `Conversion.MakeRelation` |
| Converter.OtplBratConverter.StoreEventArguments | otplc/converter.py:380-389 | the in-place loop gives the events of `Conversion.StoreEventArguments`, or its error, and changes nothing else |
| Converter.OtplBratConverter.MakeEvent | otplc/converter.py:360-378 | ends in the state or error of `Conversion.MakeEvent` |
| Converter.OtplBratConverter.MakeNormalization | otplc/converter.py:319-340 | ends in the state or error of `Conversion.MakeNormalization` |
| Converter.OtplBratConverter.MakeAttribute | otplc/converter.py:391-413 | ends in the state or error of `Conversion.MakeAttribute` |
| Converter.OtplBratConverter.MakeWith | otplc/converter.py:205-212 | the maker of the kind ends as `Make` |
| Converter.OtplBratConverter.ProcessColumn | otplc/converter.py:256-258 | the row loop ends as `RowsFrom` |
| Converter.OtplBratConverter.ProcessColumnsWith | otplc/converter.py:255-258 | the column loop ends as `ColumnsFrom` |
| Converter.OtplBratConverter.ConvertTokensAndEntities | otplc/converter.py:192-203 | ends as `TokensAndEntities` and gives the segment's local map |
| Converter.OtplBratConverter.ConvertAnnotations | otplc/converter.py:205-212 | ends as `Annotations` |
| Converter.OtplBratConverter.ConvertLocal | otplc/converter.py:153-161 | the segment loop ends as `LocalFrom` over a new annotation file |
| Converter.OtplBratConverter.ConvertWithGlobals | otplc/converter.py:163-190 | the two segment loops end as `WithGlobals` over a new annotation file |
| Converter.OtplBratConverter.Convert | otplc/converter.py:87-117 | false and nothing changed without a colspec; otherwise true with no segments, and true exactly when the conversion does not raise, and then the state is `Converted` of the old state |
| Converter.OtplBratConverter.ElicitShortcut | otplc/converter.py:527-551 | the loop gives `Shortcut`, whose meaning `ConversionFacts.ShortcutMeaning` states |
| Converter.OtplBratConverter.WriteEventType | otplc/converter.py:493-505 | the loop builds the line of `EventTypeLine`: the name, a tab, one `ColN[?]:<shortcut>` entry per argument joined by `, `, and a newline (`ConversionFacts.EventTypeLineMeaning`) |
| Converter.OtplBratConverter.WriteAttributeType | otplc/converter.py:507-511 | the line of `AttributeTypeLine`: the name, a tab, `Arg:` with the shared shortcut of the targets, and a newline (`ConversionFacts.AttributeTypeLineMeaning`) |
| Converter.OtplBratConverter.WriteRelationType | otplc/converter.py:481-491 | the line of `RelationTypeLine`: the name, a tab, `Arg1:` and `, Arg2:` with the shared shortcuts of the relation and reference targets, and a newline (`ConversionFacts.RelationTypeLineMeaning`) |

## Left out

- File and stream I/O is left out; text, lines and segments are given as sequences.
  - This covers `open` and `read` in `convert`, the annotation file handle, `OtplReader._open`, and `brat.read`/`brat.write`.
  - The annotation file is the `output` sequence of records; `_storeAnnotation` appends to it.
- `write_config_file`, `_writeConfigFor`, `_writeEntityType`, `_storeDatabaseNames` and `_storeConfiguration` only write to the configuration file. Only the lines computed by `_writeRelationType`, `_writeEventType` and `_writeAttributeType` are modelled, as strings.
- The whole logging layer, including warnings and debug output, is left out, because it changes no result.
- Python regular expressions are not modelled.
  - The tab and whitespace splitters are character-level splits. In Python 3, `\s` on a `str` (reader.py:19) matches every character `str.isspace` accepts, and `Text.IsWhitespace` is that set.
  - `A_VALID_NAME` (converter.py:18) is a predicate over ASCII word characters and hyphens. converter.py alone is Python 2 code (`counter.next()` at converter.py:401 and 420, `.read().decode` at converter.py:104), and Python 2 `\w` without `re.UNICODE` is ASCII. Under Python 3, `\w` would also match non-ASCII letters and digits.
  - The line filter is an arbitrary predicate on a line, so `search` and `match` are not told apart.
  - `isdigit` is ASCII digits only. Python 3 `str.isdigit` also accepts other Unicode digits, such as Arabic-Indic digits or superscripts (reader.py:308, 355, 363).
- The converter keeps its per-file attributes in one record field, `state`. Aliasing between the Python dictionaries, such as a local map kept in `local_maps` and later mutated, is therefore not captured.
- Sets and dictionaries are iterated in ascending column order. Python's `iter_*` follows dictionary order.
- converter.py is Python 2 code (`counter.next()`, `.decode`), unlike the rest of the package. It is modelled as the counters and strings those calls stand for.
- `_makeAttribute` builds a tuple as the uid (converter.py:401). The model issues `A<n>` from the attribute counter, as for every other letter.
- `_makeEvent` passes a list of `ArgK:uid` strings positionally to `brat.Event`, whose `__init__(self, uid, name, trigger, **args)` takes only keyword arguments after the trigger (converter.py:378, brat.py:214).
  - As written, that call raises `TypeError`, which `convert` catches (converter.py:109-115). So any segment that writes an event makes `convert` return `False`.
  - The model writes the intended dictionary of `ArgK` to uid.
- `_makeNormalization` passes `(uid, 'Reference', target, ns_id, text)` to a constructor that takes `(uid, target, db, xref, text)` (converter.py:340). The model writes the record the converter's own expected output shows: target, database, accession and text.
- `_convertWithGlobals` replays the first pass's local maps in `reversed` order (converter.py:184). The model gives every segment its own map.
- `_parseBIEO` numbers an `E-`-closed span, and a span still open at the end (converter.py:253,276), one lower than other spans. The model numbers every span by its first row.
- `_guessEventOrRelation` formats its error with `C.VALUES`, which does not exist (reader.py:433). `Guessing.ConcludedAsWritten` models the `AttributeError` escaping `guess_colspec`, and `GuessingFinding.NonAssociationEscapes` exhibits it. The rest of the model uses `Guessing.Concluded`, in which the intended `DataFormatError` is caught.
- `_REFERENCE_COLUMNS` (colspec.py:211) is never used and is not modelled.
- `__ensure_undefined` (colspec.py:564-569), called by `_add_relation`, `_add_reference` and `_add_property`, cannot raise: the constructor visits each column once, so a column is never already in its collection. The model has no duplicate error.
- `max()` of an empty reference set (reader.py:373) raises in the source. The model has an explicit error for it, which `guess_colspec` passes on.
- The attribute modifier: names that pass `A_VALID_NAME` hold no space, so `_makeAttribute` always writes the empty modifier. The model writes `Some("")`, and the modifier set of `_attributes` is not tracked separately.
- `_getLocalID`, `_getGlobalID` and `__getID` are modelled only as map lookups inside `Conversion.LocalTargetId` and `Conversion.ReferencedId`.
- Converter.OtplBratConverter.Convert: with at least one segment, a conversion needs a coherent specification and non-empty segments whose rows reach the last column the specification names (`Conversion.Reach`). With no segments nothing of the specification is read, and any specification converts (`ConversionFacts.NothingToConvert`).
  - Trailing columns that no conversion reads, such as `SEGMENT_ID` or `_UNKNOWN`, may be missing from a row (`ConversionExamples.SegmentIdColumnUnread`).
  - A shorter row gives `False`. The source fails in the same way with an `IndexError`, except when the missing column is an enumeration column after every other named column. `_register` reads such a column only for rows where an annotation is registered (converter.py:425-431), so the source may still convert those rows.
  - On such input the model does not state what was written before the Python `IndexError` was raised.
- Reader.OtplReader.Iterate: the reader consumes all lines and reports the first format error. The Python generator is lazy and stops wherever its consumer stops. `GuessingFacts.SixSegmentsSuffice` states the consequence for `_make_guess`: nothing after the sixth segment, including a later error, changes the guess.
- Guessing.Guess.constructor: `Guess.__init__` also runs the first round. The model leaves that round to `Guessing.Guess.Refine`, which `Guessing.MakeGuess` calls right after construction, because a round can fail and a constructor returns no error.
- Module `Text` models Python builtins (`split`, `join`, `index`, `strip`, `str(int)`, `int(str)`). Its members are helpers, not part of otplc.
- Text.ParseInt: models Python 3 `int(str)` as it was up to Python 3.5. It takes an optional sign and ASCII digits, and ignores any `str.isspace` whitespace around them. Python 3 `int` also accepts non-ASCII decimal digits, which are not modelled. Underscores between digit groups are refused; Python 3.6 and later accept them.
- Brat.EntityFromString: an offset written with non-ASCII digits or with `_` digit groups is refused, where Python 3 `int` would accept it (see `Text.ParseInt`).
- Guessing.ScanStep: in `Guessing.ScanEnums`, which this lemma unfolds, a local enumeration cell written with non-ASCII digits or `_` digit groups is taken as a non-integer and dropped, where Python 3 `int` would accept it (see `Text.ParseInt`).
- Guessing.Guess.GuessLocalOrGlobalReference: the same limits as `Guessing.ScanStep`, through its loop `Guessing.ScanLocalEnums`.
- Conversion.ValidateName: `$` in `A_VALID_NAME` also matches before a final newline, so the source accepts a name ending in `\n`. Such a name can only come from the name table, since names read from cells hold no newline. The model refuses it. Its `\w` is ASCII, as in the Python 2 that converter.py is written for.
- The segmenter, tokenizer, sentence splitter, extractor, settings, scripts and test base classes are not part of this model.

## Findings

| source | as written | input that shows it | evidently intended | confidence | as-written member | corrected member |
|---|---|---|---|---|---|---|
| otplc/colspec.py:575-579 | `int(suffix) - 1` is used as a Python index, so `:0` gives target -1, which wraps to the last column, and is accepted when that column holds a tag | `TOKEN POS_TAG LOCAL_REF:0 ENTITY` (`ColSpec.OverrideZeroWrapsAround`) | `:N` names column N; N below 1 is rejected (`ColSpec.OverrideTargetCorrects`) | not executed | ColSpec.OverrideTargetAsWritten | ColSpec.OverrideTarget |
| otplc/colspec.py:547-551 | a RELATION in the first column checks `colspec[col - 1]`, which is the last column | `RELATION:3 TOKEN POS_TAG LOCAL_REF` (`ColSpec.RelationInFirstColumnPasses`) | a relation in column 1 has no reference to its left and is rejected (`ColSpec.HasReferenceCorrects`) | not executed | ColSpec.HasReferenceAsWritten | ColSpec.HasReference |
| otplc/converter.py:307-310 | each row of a BIO span is compared with the name after the name table has remapped it | a `B-PRP$` span with the name table entry `PRP$` to `PRP_S` (`ConversionFinding.RenamedTypeFails`, `ConversionFinding.DollarTagRenamed`) | rows compared with the first row's tag, and the entity written under the remapped name (`ConversionRules.EntityRule`) | not executed | ConversionFinding.MakeEntityAsWritten | Conversion.MakeEntity |
