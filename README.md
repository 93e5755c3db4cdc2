# typeline per-field codec, modelled in Dafny

typeline reads and writes Python dataclass records as delimited text (CSV and
TSV). What decides correctness is a per-field codec:

- **Reading.** Each cell of a row becomes a JSON fragment chosen by the
  field's declared type:
  - a `str` field is quoted;
  - a number is left bare;
  - a `bool` is lower-cased;
  - an empty cell of an optional field becomes `null`.

  The fragments are joined into one JSON object text with tab, CR and LF
  escaped. That text goes to a JSON decoder.
- **Writing.**
  - Each attribute is encoded: strings are kept verbatim and other values
    become their JSON text.
  - Each cell then loses its enclosing `"` characters.
  - The row goes out in header order.

The repository carries two versions of this codec:

- the current `DelimitedRecordReader` / `DelimitedDataWriter`;
- the first `DelimitedStructReader` / `DelimitedStructWriter`, which has a
  different precedence ladder.

This project models both versions over an explicit datatype of type tags, and
proves what they promise.

Modules, one file each:

| file | module | models |
|---|---|---|
| `wrappers.dfy` | `Wrappers` | `Option`, `Result`, and Python exceptions as `PyError(kind, message)` |
| `text.dfy` | `Text` | the parts of Python `str` used: `strip`, `lstrip`/`rstrip` by character, `lower`, one-character `replace`, `join`, f-string quoting |
| `data_types.dfy` | `DataTypes` | type tags (`PyType`), the `\|` operator, `build_union`, `is_union`, `FieldMeta.from_field`, `TypeMeta.header`, run-time values (`PyValue`) |
| `reader.dfy` | `Reader` | `_decode`, `_csv_dict_to_json`, `_filter_out_comments`, the header check and construction of the second-version reader |
| `writer.dfy` | `Writer` | `_preprocess`, `_postprocess`, `write`, `write_header`, construction and `__init_subclass__` of the second-version writer (a `class` whose row log grows) |
| `typeline.dfy` | `Typeline` | the first version: `_encode`, `write`, `writeheader`, `_value_to_builtin`, `_csv_dict_to_json`, `_filter_out_comments`, both constructors |

Foreign code enters as function parameters:

- the CSV tokenizer is a function from lines to rows;
- the msgspec JSON decoder, `json.loads`, the msgspec encoder, `to_builtins`
  and `json.dumps` are functions over texts and values.

Python's reflection (`get_args`, `fields_of`, `is_dataclass`) becomes
pattern matching on `PyType`. The writers record the cells of every row
they emit instead of writing to a handle.

Three points where the model reads the code rather than its description:

- **`zip(..., strict=True)` at typeline/_reader.py:144 pairs entries by
  position, not by name.** A header that passes the set check in another
  order therefore misreads (see Findings).
- **`set(type_args) - {NoneType}` is modelled as an order-preserving filter.**
  `Reader.DecodeMemberOrder` proves the order of union members does not
  change `_decode`, so set iteration order cannot matter.
- **A union must be flat, with at least two distinct members.**
  `DataTypes.WellFormed` states this, because Python flattens and
  deduplicates unions when it builds them. The reader's `_decode` is
  specified on such types.

## Model

| member | source | states |
|---|---|---|
| DataTypes.BuildUnion | typeline/_data_types.py:64-71 | no types fails with `IndexError` on `types[0]`; one type is returned unchanged; several are the left fold with `\|` |
| DataTypes.OrStep | typeline/_data_types.py:70 | `u \| x` appends `x` to the arguments of a flat pipe union unless it is already there; the result is a union exactly when at least two arguments remain |
| DataTypes.UnionFoldDedup | typeline/_data_types.py:68-71 | `build_union` of non-union types has exactly the inputs without repeats as its arguments, in first-occurrence order; any union it builds is an `X \| Y` union of at least two members |
| DataTypes.UnionFoldArgs | typeline/_data_types.py:68-71 | for non-union inputs, the member set of `build_union` is exactly the set of inputs; the result is a union iff at least two distinct inputs remain |
| DataTypes.UnionFoldDistinct | typeline/_data_types.py:68-71 | pairwise-distinct non-union types fold to the `X \| Y` union of exactly those types, in order |
| DataTypes.DedupTwo | typeline/_data_types.py:68-71 | removing repeats leaves at least two types iff two inputs differ |
| DataTypes.IsUnionOfFold | typeline/_data_types.py:64-76 | `is_union(build_union(*ts))` holds iff two of the non-union inputs differ |
| DataTypes.FromField | typeline/_data_types.py:40-51 | fails with the exact `ValueError` iff the field type is not a class; otherwise copies name and type; `is_optional` iff `NoneType` is a type argument; `could_be_string` iff `str` is one |
| DataTypes.FromFieldNeverFlags | typeline/_data_types.py:43-51 | as written, a successful `from_field` never sets `is_optional` or `could_be_string` |
| DataTypes.FromFieldRejectsOptional | typeline/_data_types.py:43-51 | `float \| None` is refused and `str` is not flagged as a string |
| DataTypes.FromFieldIntended | typeline/_data_types.py:40-51 | corrected `from_field`: refuses exactly string annotations and `Any`; flags optional unions and string-bearing types |
| DataTypes.FromFieldIntendedAgrees | typeline/_data_types.py:40-51 | the corrected version agrees with the written one on every class but `str` and `Any`, and flags `float \| None` as optional |
| DataTypes.IsClass | typeline/_data_types.py:43 | `isinstance(t, type)` on Python 3.11 and later, by definition; DataTypes.FromField and DataTypes.FromFieldNeverFlags state its consequences |
| DataTypes.TypeArgs | typeline/_data_types.py:45 | `get_args`, by definition; DataTypes.FromField states the flags in terms of it |
| DataTypes.IsUnion | typeline/_data_types.py:74-76 | both union forms and nothing else, by definition; DataTypes.IsUnionOfFold proves when `build_union` yields one |
| DataTypes.Or | typeline/_data_types.py:70 | `a \| b`, with flattening and removal of repeats, by definition; DataTypes.OrStep states one step of the fold |
| DataTypes.UnionFold | typeline/_data_types.py:68-71 | the left fold with `\|`; DataTypes.BuildUnion proves the loop computes it and DataTypes.UnionFoldArgs gives its member set |
| DataTypes.HeaderOfFields | typeline/_data_types.py:58-61 | the header of the metadata `from_field` builds is the record's field names, in declaration order |
| DataTypes.IsInstance | typeline/_writer.py:118 | `isinstance(record, record_type)`, classes compared by name (also typeline/_typeline.py:116); Writer.WriteRow states its refusal |
| DataTypes.TypeMeta.Header | typeline/_data_types.py:58-61 | the list of field names of the metadata; DataTypes.HeaderOfFields proves it is the record's header, in declaration order, for the metadata `from_field` builds |
| DataTypes.FieldNames | typeline/_reader.py:72 | the header, one name per field (also typeline/_writer.py:62, typeline/_typeline.py:70 and 192); Reader.HeaderTypesAligned proves it lines up with the field types, and Reader.ByNameAgrees that positional pairing is then correct |
| DataTypes.FieldTypes | typeline/_reader.py:73 | the declared types, one per field (also typeline/_typeline.py:193); Reader.HeaderTypesAligned proves the type at each position belongs to the field named at that position of the header |
| DataTypes.Dialect.Delimiter | typeline/_reader.py:251-289 | the presets: one character, `,` for the comma reader and `\t` for the tab reader |
| Text.LStrip | typeline/_writer.py:110 | `lstrip`: the result is a suffix of the input, everything dropped is a dropped character, and the result does not start with one |
| Text.RStrip | typeline/_writer.py:110 | `rstrip`: the result is a prefix of the input, everything dropped is a dropped character, and the result does not end with one |
| Text.StripEnds | typeline/_writer.py:110 | what both strips keep neither starts nor ends with a dropped character |
| Text.StripUnchanged | typeline/_writer.py:110 | a text that neither starts nor ends with a dropped character is unchanged |
| Text.StripIdempotent | typeline/_writer.py:110 | stripping twice is stripping once |
| Text.StripEmptyIff | typeline/_reader.py:118-120 | `line.strip()` is empty iff every character is white space |
| Text.Strip | typeline/_reader.py:118 | `str.strip()`; Text.StripEmptyIff proves it is empty iff the line is all white space |
| Text.StripQuotes | typeline/_writer.py:110 | `lstrip('"').rstrip('"')`; Text.StripEnds and Text.StripIdempotent state what it keeps |
| Text.Lower | typeline/_reader.py:171 | `lower()` on ASCII letters: keeps the length and every character that is not an ASCII capital, and leaves no ASCII capital |
| Text.Replace | typeline/_reader.py:146-148 | `replace(c, rep)` leaves no `c` when `rep` has none, and leaves a text without `c` alone |
| Text.ReplaceConcat | typeline/_reader.py:146-148 | `replace` distributes over concatenation |
| Text.ReplaceChainChar | typeline/_reader.py:146-148 | the three replacements on one character give its escape |
| Text.ReplaceChainIsEscape | typeline/_reader.py:146-148 | replacing tab, then CR, then LF equals the one-pass escape of all three |
| Text.ReplaceControls | typeline/_reader.py:146-148 | the three successive replacements compute the one-pass escape (also typeline/_typeline.py:272-274) |
| Text.EscapeControlsClean | typeline/_reader.py:146-148 | the escape leaves no raw tab, CR or LF, and a text without them is unchanged |
| Text.EscapeConcat | typeline/_reader.py:146-148 | the escape distributes over concatenation |
| Text.JoinNoControls | typeline/_reader.py:151 | `','.join` of pieces free of raw tab, CR and LF, with a separator free of them, is free of them |
| Reader.WithoutNoneMembers | typeline/_reader.py:183-186 | `set(type_args) - {NoneType}` keeps exactly the members other than `NoneType`, and removes nothing when there is none |
| Reader.WithoutNoneDistinct | typeline/_reader.py:183-186 | removing `NoneType` from pairwise-distinct members keeps them distinct and removes exactly one when present |
| Reader.WithoutNoneOfFlat | typeline/_reader.py:183-186 | for a union Python can build that contains `None`, one member fewer remain, pairwise distinct and not unions, and exactly the non-`None` members |
| Reader.WithoutNone | typeline/_reader.py:183-186 | `set(type_args) - {NoneType}` as an order-preserving filter; Reader.WithoutNoneMembers and Reader.WithoutNoneDistinct state what it keeps |
| Reader.Decode | typeline/_reader.py:164-195 | `_decode`, branch by branch; Reader.DecodeMatchesSpec proves it equal to an independent closed form on every type Python can build |
| Reader.DecodeMatchesSpec | typeline/_reader.py:164-195 | `_decode` on every well-formed type equals the closed form: `null` for an empty cell of a union with None, otherwise the `str` > numbers > `bool` > bare ladder over the non-None alternatives |
| Reader.OptionalSpec | typeline/_reader.py:182-184 | `X \| None` decodes a non-empty cell as `X`, and the closed form agrees |
| Reader.OptionalUnionSpec | typeline/_reader.py:185-187 | with two or more other members, the closed form of a non-empty cell is that of the union of those members |
| Reader.AlternativesScalar | typeline/_reader.py:166-192 | a non-union type other than `None` is an alternative iff it is the declared type or a member of a declared `X \| Y` union |
| Reader.DecodeForms | typeline/_reader.py:164-195 | every fragment is the cell bare, quoted, lower-cased, or `null` |
| Reader.DecodeScalars | typeline/_reader.py:166-174 | `str` gives `'"' + item + '"'` with no escaping; `int` and `float` give the item; `bool` gives it lower-cased; every other non-`X \| Y` type gives it bare |
| Reader.DecodeEmptyOptional | typeline/_reader.py:178-181 | an empty cell of a union with None is `null`, even when `str` is a member |
| Reader.DecodeOptional | typeline/_reader.py:182-184 | `X \| None` and `None \| X` decode a non-empty cell as `X` does |
| Reader.DecodeOptionalUnion | typeline/_reader.py:185-187 | with two or more other members, a non-empty cell decodes as under `build_union` of those members |
| Reader.DecodeMemberOrder | typeline/_reader.py:183-187 | two unions with the same members decode every cell alike, so set iteration order does not matter |
| Reader.DecodeUnionLadder | typeline/_reader.py:188-195 | in a union without None, `str` wins (quoted), then `int`/`float` (bare), then `bool` (lower-cased), else bare |
| Reader.DecodePrecedence | typeline/_reader.py:188-195 | `int \| bool` stays bare, `bool \| str` is quoted, `bool \| list[int]` is lower-cased |
| Reader.CellText | typeline/_reader.py:145 | the f-string text of a cell, `None` for a cell missing from a short line; Reader.MissingCellNotNull proves such a cell is never decoded to `null` |
| Reader.MissingCellNotNull | typeline/_reader.py:145 | a cell missing from a short line is decoded as the text `None` (bare, quoted or lower-cased), never as `null` |
| Reader.Piece | typeline/_reader.py:145-149 | one `"name":fragment` member; Reader.PieceUnescaped proves a fragment free of tab, CR and LF is kept as it is |
| Reader.JsonText | typeline/_reader.py:151 | the object text; Reader.JsonTextNoControls proves it free of raw tab, CR and LF when the names are |
| Reader.Pieces | typeline/_reader.py:144-149 | the members of the object text, entries paired with types by position; Reader.JsonTextNoControls proves they carry no raw tab, CR or LF, and Reader.MetricRowText gives the members of a fixture row |
| Reader.MalformedMessage | typeline/_reader.py:156-159 | the message contains the full object text |
| Reader.WrapDecodeError | typeline/_reader.py:153-162 | success iff the decoder succeeds; a `DecodeError` becomes one whose message contains the object text; anything else passes unchanged |
| Reader.DecodeMember | typeline/_reader.py:145-149 | one pass of the loop body computes the member for that entry |
| Reader.CsvDictToJson | typeline/_reader.py:140-162 | more entries than types fails as `zip` argument 2 shorter, fewer as longer; otherwise the result is the wrapped decoder answer on `{` + comma-joined members + `}` |
| Reader.JsonTextNoControls | typeline/_reader.py:142-151 | with field names free of them, the object text has no raw tab, CR or LF |
| Reader.PieceUnescaped | typeline/_reader.py:145-149 | a fragment free of tab, CR and LF is kept as it is |
| Reader.NumberPiece | typeline/_reader.py:168-169 | an `int` cell gives `"name":cell` |
| Reader.StringPiece | typeline/_reader.py:166-167 | a `str` cell gives `"name":"cell"` |
| Reader.OptionalFloatPiece | typeline/_reader.py:182-184 | a non-empty `float \| None` cell gives `"name":cell` |
| Reader.MetricRowText | typeline/_reader.py:140-151 | a row of the fixtures' record type gives `{"n1":c1,"n2":"c2","n3":c3}` |
| Reader.JsonTextBomb | tests/test_reader.py:208-230 | the row `1<TAB>name<TAB>BOMB` builds exactly `{"field1":1,"field2":"name","field3":BOMB}` |
| Reader.TypeOf | typeline/_reader.py:144 | name lookup for the corrected pairing: the found type is well formed when all field types are |
| Reader.TypeOfSpec | typeline/_reader.py:144 | the lookup fails iff no field has the name, and finds the type of a field with the name |
| Reader.TypeOfFirst | typeline/_reader.py:144 | with unique names, the lookup of a field's name finds that field's type |
| Reader.HeaderTypesAligned | typeline/_reader.py:72-73 | with unique field names, the name at each position of the header names the field whose type is at that position |
| Reader.PiecesByName | typeline/_reader.py:144-149 | corrected pairing: every named entry is decoded under the type of the field it names |
| Reader.ByNameAgrees | typeline/_reader.py:144 | with the header in declaration order, pairing by name and by position give the same text |
| Reader.ReorderedHeaderMisread | typeline/_reader.py:88-91 | the header `field2,field1,field3` passes the check, yet `name,1,0.2` builds `{"field2":name,"field1":"1","field3":0.2}` |
| Reader.MetricRowByName | typeline/_reader.py:144-151 | paired by name, a row under the reordered header quotes the `str` cell and leaves the others bare |
| Reader.ByNameReordered | typeline/_reader.py:144-151 | paired by name, the same row gives `{"field2":"name","field1":1,"field3":0.2}` |
| Reader.FilterComments | typeline/_reader.py:115-123 | the filter yields at most as many lines as it reads |
| Reader.FilterMembers | typeline/_reader.py:115-123 | a line is yielded iff it is an input line whose stripped text is non-empty and starts with no prefix |
| Reader.FilterOutComments | typeline/_reader.py:115-123 | the generator loop, read forward one line at a time, yields exactly the lines of the filter, in order |
| Reader.Kept | typeline/_reader.py:118-122 | the keep test; Reader.FilterMembers and Reader.DefaultKeepsNonBlank state which lines pass it |
| Reader.FilterStep | typeline/_reader.py:117-123 | one more line read extends the filtered output by that line exactly when it is kept |
| Reader.FilterIsSubsequence | typeline/_reader.py:115-123 | the filter yields an order-preserving subsequence of its input |
| Reader.FilterConcat | typeline/_reader.py:117-123 | filtering a concatenation filters the parts |
| Reader.FilterIdempotent | typeline/_reader.py:115-123 | filtering twice is filtering once |
| Reader.DefaultKeepsNonBlank | typeline/_reader.py:32 | with the default empty prefix set, a line is kept iff it is not blank |
| Reader.SetOf | typeline/_reader.py:89 | `set(names)`; Reader.CheckHeaderIff states the header test it feeds in terms of missing and extra names |
| Reader.CheckHeader | typeline/_reader.py:88-91 | a failure is the exact `ValueError` |
| Reader.CheckHeaderIff | typeline/_reader.py:88-91 | fails iff a header line was read that misses a field name or carries an extra one |
| Reader.CheckHeaderExamples | typeline/_reader.py:88-91 | a reordered header passes; a missing or extra name is refused |
| Reader.FieldnamesOf | typeline/_reader.py:79-85 | `DictReader.fieldnames`, a foreign behaviour fixed by definition; Reader.OpenReader and Typeline.EmptyInputContrast state what construction does with it |
| Reader.OpenReader | typeline/_reader.py:62-91 | a non-dataclass is refused with the exact `ValueError`; a reader keeps the header, types, delimiter and prefixes; it fails iff the header check fails |
| Writer.Preprocess | typeline/_writer.py:100-105 | strings verbatim, other values the encoder's text; Writer.CellOfValue proves an unquoted string reaches its cell unchanged and `None` reaches it as its JSON text |
| Writer.Postprocess | typeline/_writer.py:107-114 | a string result never starts or ends with `"`; `None` becomes the placeholder and other values are unchanged |
| Writer.PostprocessIdempotent | typeline/_writer.py:109-110 | post-processing a string twice is post-processing it once; the result neither starts nor ends with `"` |
| Writer.EncodeFields | typeline/_writer.py:123 | on success, one pre-processed entry per header name, keyed and ordered by the header |
| Writer.EncodeFieldsFails | typeline/_writer.py:123 | the comprehension fails iff some named attribute is missing or its encoding fails |
| Writer.WriteRow | typeline/_writer.py:116-126 | a non-instance gets `ValueError` naming both classes; an instance fails iff some field fails; a row has the header as keys in order, each value the quote-stripped pre-processed attribute |
| Writer.NoneFieldUnused | typeline/_writer.py:111-112 | the `none_field` placeholder never changes a written row |
| Writer.CellOfValue | typeline/_writer.py:123-125 | a string attribute not starting or ending with `"` is written verbatim; `None` is written as its JSON text without quotes |
| Writer.WriteRowCells | typeline/_writer.py:116-126 | the same, cell by cell, for a written row |
| Writer.InitSubclass | typeline/_writer.py:156-162 | the subclass rule; Writer.Presets proves both presets pass it and a subclass without a delimiter is refused |
| Writer.Presets | typeline/_writer.py:191-220 | the comma and tab presets pass the subclass check; a subclass without a delimiter is refused |
| Writer.DataWriter.constructor | typeline/_writer.py:51-62 | a new writer holds the record's header and the placeholder, and has written nothing |
| Writer.DataWriter.WriteHeader | typeline/_writer.py:128-130 | appends one line holding the header |
| Writer.DataWriter.Write | typeline/_writer.py:116-126 | on success appends the row's cells in header order; on failure writes nothing and raises the error |
| Writer.Cells | typeline/_writer.py:126 | the line a row becomes; Writer.DataWriter.Write proves each write logs exactly these cells, and Writer.WriteRowCells what each cell holds |
| Writer.OpenDataWriter | typeline/_writer.py:51-62 | fails iff the record type is not a dataclass, with the exact `ValueError`; otherwise a fresh writer bound to that record type and delimiter, with its header and placeholder, and nothing written |
| Typeline.Encode | typeline/_typeline.py:106-111 | `_encode`; Typeline.EncodeIdempotent proves it leaves no tuple and is idempotent |
| Typeline.EncodeIdempotent | typeline/_typeline.py:106-111 | no tuple is left, so encoding twice is encoding once |
| Typeline.EncodeAttributes | typeline/_typeline.py:117 | succeeds iff every header name is an attribute; then one encoded entry per name, in header order |
| Typeline.ToBuiltinsAll | typeline/_typeline.py:120 | succeeds iff every value converts; then the converted values, keys and order kept |
| Typeline.CellOf | typeline/_typeline.py:119 | the text of one converted value; Typeline.StructRowCells proves what each written cell is in terms of the record's attribute |
| Typeline.StructRow | typeline/_typeline.py:113-122 | a non-dataclass and a non-instance get their `AssertionError`s; a row has the header names as keys, in order |
| Typeline.StructRowCells | typeline/_typeline.py:117-122 | each cell is the dump of the converted encoded attribute; a string kept by `to_builtins` is verbatim; a tuple is dumped as a list |
| Typeline.StructRowFails | typeline/_typeline.py:117-120 | past both assertions, the write fails iff some header field is missing or `to_builtins` refuses its encoded value |
| Typeline.QuotedStringContrast | typeline/_typeline.py:119 | the first version writes `"hi"` with its quotes, the second writes `hi` |
| Typeline.StructWriter.constructor | typeline/_typeline.py:58-70 | a new writer holds the header and delimiter and has written nothing |
| Typeline.StructWriter.WriteHeader | typeline/_typeline.py:125-128 | appends one line holding the header |
| Typeline.StructWriter.Write | typeline/_typeline.py:113-123 | on success appends the row's cells in header order; otherwise writes nothing |
| Typeline.OpenStructWriter | typeline/_typeline.py:66-70 | fails iff the record type is not a dataclass, with the exact `AssertionError`; otherwise a fresh writer bound to that record type and delimiter, with its header, and nothing written |
| Typeline.UnionOf | typeline/_typeline.py:258-259 | the retry type of the remaining members; Typeline.RetryLeavesBare proves the retry leaves the value bare |
| Typeline.IsContainer | typeline/_typeline.py:255 | the container origins, by definition; Typeline.ValueToBuiltinMatchesSpec covers their branch |
| Typeline.ValueToBuiltin | typeline/_typeline.py:238-261 | every result starts with the `"name":` key |
| Typeline.ValueToBuiltinMatchesSpec | typeline/_typeline.py:238-261 | equals the closed form on every well-formed type: `null` for a missing cell or an empty cell of a union with None, else the `bool` > numbers > `str` > bare ladder; the retry on the remaining members changes nothing |
| Typeline.RetryLeavesBare | typeline/_typeline.py:257-259 | the retry on the remaining members leaves the value bare when no member is a scalar |
| Typeline.ChoicesScalar | typeline/_typeline.py:247-254 | a non-union type is a choice iff it is the declared type or a member of a declared `X \| Y` union |
| Typeline.ValueToBuiltinNull | typeline/_typeline.py:243-246 | a missing cell, and an empty cell of a union with None, give `"name":null` |
| Typeline.LadderContrast | typeline/_typeline.py:247-250 | `int \| bool` is lower-cased by the first version and bare in the second; `int \| str` is bare in the first and quoted in the second |
| Typeline.FilterOutComments | typeline/_typeline.py:231-236 | the generator loop, read forward one line at a time, yields exactly the filter with prefix set `{"#"}` |
| Typeline.HashCommentKept | typeline/_typeline.py:231-236 | a line is kept iff its stripped text is non-empty and does not start with `#` |
| Typeline.KeptUnpadded | typeline/_typeline.py:231-236 | a line without white space at either end is kept iff it does not start with `#` |
| Typeline.KeepOne | typeline/_typeline.py:231-236 | such a line not starting with `#` is kept |
| Typeline.DropOne | typeline/_typeline.py:231-236 | a comment line, an empty line and a line of spaces are dropped |
| Typeline.CommentFileExample | tests/test_typeline.py:275-300 | of header, two comments, data, empty line, spaces, data, exactly the header and the data lines are kept, in order |
| Typeline.Piece | typeline/_typeline.py:268-274 | one escaped `"name":value` member; Typeline.JsonTextNoControls proves it free of raw tab, CR and LF |
| Typeline.JsonText | typeline/_typeline.py:278 | the text handed to `json.loads`; Typeline.JsonTextNoControls proves it free of raw tab, CR and LF |
| Typeline.Pieces | typeline/_typeline.py:267-276 | the escaped members, paired by position; Typeline.JsonTextNoControls proves the text they make carries no raw tab, CR or LF |
| Typeline.CsvDictToJson | typeline/_typeline.py:263-280 | unequal lengths fail as the strict `zip` does; otherwise `json.loads` of the braced comma join of the escaped members |
| Typeline.JsonTextNoControls | typeline/_typeline.py:265-278 | the object text has no raw tab, CR or LF, whatever the field names |
| Typeline.CheckHeader | typeline/_typeline.py:201-202 | no field names (empty input) fails with `TypeError`; otherwise the same set test as the second version |
| Typeline.OpenStructReader | typeline/_typeline.py:187-202 | a non-dataclass gets the `AssertionError`; the prefixes are `{"#"}`; it fails iff the unconditional header check fails |
| Typeline.EmptyInputContrast | tests/test_typeline.py:303-326 | an empty input with a header expected opens in the second version and fails with `TypeError` in the first |

## Left out

- CSV tokenizing and quoting (`csv.DictReader`/`DictWriter`, quote character `'`, `QUOTE_MINIMAL`): foreign. The tokenizer is a function parameter; a writer records lists of cells rather than rendered lines.
- The msgspec decoder and encoder, `convert`, `to_builtins`, `json.loads` and `json.dumps`: foreign, modelled as function parameters. In the current writer `to_builtins` gets a dictionary of strings and is the identity.
- The `ValidationError` wrapping in `__iter__` (typeline/_reader.py:125-138) and both `__iter__` loops: only error handling around the foreign `convert`.
- File and stream plumbing (`from_path`, `close`, `__enter__`/`__exit__`, `linesep`): I/O.
- `enc_hook` and `with_encoder` (typeline/_writer.py:58, 77-81): hook composition around the foreign encoder. The lambda at line 58 returns the hook instead of applying it.
- Reader.Decode: old-style `typing.Optional`/`typing.Union` fields are left bare, because `isinstance(..., UnionType)` does not recognise them. The model keeps the code's behaviour and states nothing stronger.
- Typeline.ValueToBuiltin: `Union[other_types]` at typeline/_typeline.py:259 receives a set. It is modelled as retrying on the remaining members as a `typing.Union`. The ladder does not see such a union as `X | Y`, so the retry leaves the value bare or treats it as the one remaining member.
- The first version's `__init_subclass__(delimiter=...)` (typeline/_typeline.py:79-88, 204-213) only stores the keyword. The delimiter is a constructor parameter instead.
- Delimiter length: typeline passes the delimiter on unchecked; the `csv` reader and writer constructors refuse anything but one character with a `TypeError`. That check belongs to the foreign `csv` module, so the model takes any string.
- Text.Lower: only ASCII letters are lowered. Python's `str.lower()` also maps non-ASCII capitals (`'Ä'` to `'ä'`) and can change the length (`'İ'`). Unicode case mapping is not modelled, so a `bool` cell with non-ASCII capitals decodes differently (typeline/_reader.py:171, 193; typeline/_typeline.py:248).
- DataTypes.IsInstance: classes are compared by name, so two distinct classes with the same name count as one. The model has no class identity.
- DataTypes.IsClass: follows Python 3.11 and later, where `typing.Any` is a class and `list[int]` and both union forms are not.
- Float parsing and formatting: numbers only pass through as text. `VFloat` carries its text.
- Where the source iterates a set (`set(type_args) - {NoneType}`), the model keeps member order. Reader.DecodeMemberOrder shows the result does not depend on it.
- The `restkey` entry that `DictReader` adds for an over-long line is an extra entry of the row. It makes the strict `zip` fail as stated.

## Findings

| source | as written | input that shows it | evidently intended | confidence | as-written member | corrected member |
|---|---|---|---|---|---|---|
| typeline/_reader.py:88-91, 144 | the header check accepts the field names in any order, but the entries are paired with the field types by position | record `field1: int, field2: str, field3: float \| None`; file header `field2,field1,field3` and row `name,1,0.2`: the object text is `{"field2":name,"field1":"1","field3":0.2}`, which is not JSON | decode every entry under the type of the field it names | not executed | Reader.ReorderedHeaderMisread | Reader.PiecesByName, Reader.ByNameAgrees, Reader.ByNameReordered |
| typeline/_data_types.py:43-50 | `isinstance(field.type, type)` refuses every union before its arguments are read, and a class has no arguments, so `is_optional` and `could_be_string` are always false | `Field("field3", float \| None)` raises `ValueError`; `Field("field2", str)` gets `could_be_string == False` | refuse only string annotations and `Any`; flag unions with `None` as optional and `str` (or unions with it) as possibly a string | not executed | DataTypes.FromFieldNeverFlags, DataTypes.FromFieldRejectsOptional | DataTypes.FromFieldIntended, DataTypes.FromFieldIntendedAgrees |
