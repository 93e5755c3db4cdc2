/** The first version of the library (`DelimitedStructWriter` and
    `DelimitedStructReader`): its writer, which encodes tuples as lists and
    writes non-string values as `json.dumps` text, and its reader, with its own
    precedence ladder `_value_to_builtin`, a comment filter fixed to `#`, and
    an unconditional header check.

    `to_builtins` and `json.dumps`, `json.loads` and the CSV tokenizer are
    foreign and enter as parameters. */
module Typeline {
  import opened Wrappers
  import opened Text
  import opened DataTypes
  import Reader
  import Writer

  // ---------------------------------------------------------------------
  // DelimitedStructWriter
  // ---------------------------------------------------------------------

  /** `_encode(item)`: a tuple becomes a list of the same elements in the same
      order; every other value is returned as it is. */
  function Encode(item: PyValue): (r: PyValue)
    ensures item.VTuple? ==> r.VList? && r.items == item.items
    ensures !item.VTuple? ==> r == item
  {
    if item.VTuple? then VList(item.items) else item
  }

  /** Encoding never leaves a tuple behind, so encoding twice is encoding once. */
  lemma EncodeIdempotent(item: PyValue)
    ensures !Encode(item).VTuple?
    ensures Encode(Encode(item)) == Encode(item)
  {
  }

  const RecordTypeNotADataclass: string := "record_type is not a dataclass but must be!"
  const RecordNotADataclass: string := "record is not a dataclass but must be!"

  function ExpectedMessage(name: string): string {
    "Expected " + name + "!"
  }

  /** `{name: _encode(getattr(record, name)) for name in header}`. */
  function EncodeAttributes(header: seq<string>, record: PyValue): (r: Result<seq<(string, PyValue)>>)
    requires record.VObject?
    ensures r.Success? <==> forall i :: 0 <= i < |header| ==> header[i] in record.attrs
    ensures r.Success? ==> (|r.value| == |header| &&
              forall i :: 0 <= i < |header| ==> r.value[i] == (header[i], Encode(record.attrs[header[i]])))
    ensures r.Failure? ==> r.error.kind == AttributeError
  {
    if header == [] then Success([])
    else if header[0] !in record.attrs then
      Failure(PyError(AttributeError, Writer.NoAttribute(record.cls, header[0])))
    else
      match EncodeAttributes(header[1..], record)
      case Failure(e) =>
        assert !(forall i :: 0 <= i < |header[1..]| ==> header[1..][i] in record.attrs);
        Failure(e)
      case Success(rest) => Success([(header[0], Encode(record.attrs[header[0]]))] + rest)
  }

  /** `to_builtins` over the encoded dictionary, value by value in order; the
      first value it cannot convert fails the call. */
  function ToBuiltinsAll(entries: seq<(string, PyValue)>, toBuiltins: PyValue -> Result<PyValue>)
    : (r: Result<seq<(string, PyValue)>>)
    ensures r.Success? <==> forall i :: 0 <= i < |entries| ==> toBuiltins(entries[i].1).Success?
    ensures r.Success? ==> (|r.value| == |entries| &&
              forall i :: 0 <= i < |entries| ==> r.value[i] == (entries[i].0, toBuiltins(entries[i].1).value))
  {
    if entries == [] then Success([])
    else
      match toBuiltins(entries[0].1)
      case Failure(e) => Failure(e)
      case Success(v) =>
        match ToBuiltinsAll(entries[1..], toBuiltins)
        case Failure(e) =>
          assert !(forall i :: 0 <= i < |entries[1..]| ==> toBuiltins(entries[1..][i].1).Success?);
          Failure(e)
        case Success(rest) => Success([(entries[0].0, v)] + rest)
  }

  /** The cell text of one converted value: a string verbatim, anything else
      as `json.dumps` text. */
  function CellOf(value: PyValue, dumps: PyValue -> string): (r: string)
    ensures value.VStr? ==> r == value.s
    ensures !value.VStr? ==> r == dumps(value)
  {
    if value.VStr? then value.s else dumps(value)
  }

  /** `write(record)` up to the CSV writer: both assertions, then one entry per
      header name, in header order. */
  function StructRow(recordType: PyType, record: PyValue,
                     toBuiltins: PyValue -> Result<PyValue>, dumps: PyValue -> string)
    : (r: Result<seq<(string, string)>>)
    requires recordType.Record?
    ensures !(record.VObject? && record.isDataclass) ==> r == Failure(PyError(AssertionError, RecordNotADataclass))
    ensures record.VObject? && record.isDataclass && !IsInstance(record, recordType.name) ==>
              r == Failure(PyError(AssertionError, ExpectedMessage(recordType.name)))
    ensures r.Success? ==> (|r.value| == |recordType.fields| &&
              forall i :: 0 <= i < |r.value| ==> r.value[i].0 == recordType.fields[i].name)
  {
    if !(record.VObject? && record.isDataclass) then Failure(PyError(AssertionError, RecordNotADataclass))
    else if !IsInstance(record, recordType.name) then Failure(PyError(AssertionError, ExpectedMessage(recordType.name)))
    else
      var header := FieldNames(recordType.fields);
      match EncodeAttributes(header, record)
      case Failure(e) => Failure(e)
      case Success(encoded) =>
        match ToBuiltinsAll(encoded, toBuiltins)
        case Failure(e) => Failure(e)
        case Success(builtin) =>
          Success(seq(|builtin|, i requires 0 <= i < |builtin| => (builtin[i].0, CellOf(builtin[i].1, dumps))))
  }

  /** What a successful write puts in every cell: a string attribute that
      `to_builtins` keeps is written verbatim (quotes included), a tuple is
      written as the dump of its elements as a list, and any other value as
      the dump of its conversion. */
  lemma StructRowCells(recordType: PyType, record: PyValue, toBuiltins: PyValue -> Result<PyValue>,
                       dumps: PyValue -> string, i: nat)
    requires recordType.Record?
    requires StructRow(recordType, record, toBuiltins, dumps).Success?
    requires i < |recordType.fields|
    ensures var name := recordType.fields[i].name;
            var cell := StructRow(recordType, record, toBuiltins, dumps).value[i].1;
            var v := record.attrs[name];
            name in record.attrs &&
            toBuiltins(Encode(v)).Success? &&
            cell == CellOf(toBuiltins(Encode(v)).value, dumps) &&
            (v.VStr? && toBuiltins(v) == Success(v) ==> cell == v.s) &&
            (v.VTuple? ==> cell == CellOf(toBuiltins(VList(v.items)).value, dumps))
  {
  }

  /** A field fails the first version's write when the record lacks it or
      `to_builtins` refuses its encoded value. */
  predicate FieldUnconverted(name: string, record: PyValue, toBuiltins: PyValue -> Result<PyValue>)
    requires record.VObject?
  {
    name !in record.attrs || toBuiltins(Encode(record.attrs[name])).Failure?
  }

  /** Past both assertions, the write fails exactly when some field of the
      header is missing or cannot be converted. */
  lemma StructRowFails(recordType: PyType, record: PyValue, toBuiltins: PyValue -> Result<PyValue>,
                       dumps: PyValue -> string)
    requires recordType.Record? && record.VObject? && record.isDataclass && IsInstance(record, recordType.name)
    ensures StructRow(recordType, record, toBuiltins, dumps).Failure? <==>
              exists i :: 0 <= i < |recordType.fields| && FieldUnconverted(recordType.fields[i].name, record, toBuiltins)
  {
    var fs := recordType.fields;
    var header := FieldNames(fs);
    var e := EncodeAttributes(header, record);
    if e.Success? {
      var b := ToBuiltinsAll(e.value, toBuiltins);
      if b.Success? {
        forall i | 0 <= i < |fs|
          ensures !FieldUnconverted(fs[i].name, record, toBuiltins)
        {
          assert e.value[i].1 == Encode(record.attrs[fs[i].name]);
        }
      } else {
        var i :| 0 <= i < |e.value| && toBuiltins(e.value[i].1).Failure?;
        assert FieldUnconverted(fs[i].name, record, toBuiltins);
      }
    } else {
      var i :| 0 <= i < |header| && header[i] !in record.attrs;
      assert FieldUnconverted(fs[i].name, record, toBuiltins);
    }
  }

  lemma StripQuotesHi()
    ensures StripQuotes("\"hi\"") == "hi"
  {
    assert LStrip("\"hi\"", IsQuote) == "hi\"" by {
      assert "\"hi\""[1..] == "hi\"";
    }
    assert RStrip("hi\"", IsQuote) == "hi" by {
      assert "hi\""[..2] == "hi";
    }
  }

  /** The two versions differ on a string field wrapped in quotes: the first
      writes it verbatim, the second strips the quotes. */
  lemma QuotedStringContrast(recordType: PyType, record: PyValue, toBuiltins: PyValue -> Result<PyValue>,
                             dumps: PyValue -> string, encode: PyValue -> Result<string>, i: nat)
    requires recordType.Record?
    requires StructRow(recordType, record, toBuiltins, dumps).Success?
    requires Writer.WriteRow(recordType, record, Writer.DefaultNoneField, encode).Success?
    requires i < |recordType.fields|
    requires record.attrs[recordType.fields[i].name] == VStr("\"hi\"")
    requires toBuiltins(VStr("\"hi\"")) == Success(VStr("\"hi\""))
    ensures StructRow(recordType, record, toBuiltins, dumps).value[i].1 == "\"hi\""
    ensures Writer.WriteRow(recordType, record, Writer.DefaultNoneField, encode).value[i].1 == "hi"
  {
    StructRowCells(recordType, record, toBuiltins, dumps, i);
    StripQuotesHi();
  }

  /** A writer of the first version; `rows` is what it has handed to the CSV
      writer, one list of cells per line. */
  class StructWriter {
    const recordType: PyType
    const header: seq<string>
    const delimiter: string
    var rows: seq<seq<string>>

    ghost predicate Valid()
    {
      recordType.Record? && header == FieldNames(recordType.fields)
    }

    constructor (recordType: PyType, delimiter: string)
      requires recordType.Record?
      ensures Valid() && this.recordType == recordType && this.delimiter == delimiter
      ensures rows == []
    {
      this.recordType := recordType;
      this.header := FieldNames(recordType.fields);
      this.delimiter := delimiter;
      this.rows := [];
    }

    /** `writeheader()`. */
    method WriteHeader()
      requires Valid()
      modifies this
      ensures rows == old(rows) + [header]
    {
      rows := rows + [header];
    }

    /** `write(record)`: one line of cells in header order, or nothing and the
      error. */
    method Write(record: PyValue, toBuiltins: PyValue -> Result<PyValue>, dumps: PyValue -> string)
      returns (r: Outcome)
      requires Valid()
      modifies this
      ensures var row := StructRow(recordType, record, toBuiltins, dumps);
              (row.Success? ==> r == Pass && rows == old(rows) + [Writer.Cells(row.value)]) &&
              (row.Failure? ==> r == Fail(row.error) && rows == old(rows))
    {
      var row := StructRow(recordType, record, toBuiltins, dumps);
      if row.Failure? {
        return Fail(row.error);
      }
      rows := rows + [Writer.Cells(row.value)];
      return Pass;
    }
  }

  /** `DelimitedStructWriter.__init__`: asserts a dataclass record type. */
  method OpenStructWriter(recordType: PyType, delimiter: string) returns (r: Result<StructWriter>)
    ensures !recordType.Record? <==> r.Failure?
    ensures r.Failure? ==> r.error == PyError(AssertionError, RecordTypeNotADataclass)
    ensures r.Success? ==> fresh(r.value) && r.value.Valid() && r.value.rows == []
    ensures r.Success? ==> r.value.recordType == recordType && r.value.delimiter == delimiter
    ensures r.Success? ==> r.value.header == FieldNames(recordType.fields)
  {
    if !recordType.Record? {
      return Failure(PyError(AssertionError, RecordTypeNotADataclass));
    }
    var w := new StructWriter(recordType, delimiter);
    return Success(w);
  }

  // ---------------------------------------------------------------------
  // DelimitedStructReader
  // ---------------------------------------------------------------------

  /** The members other than `None`, as the argument of `Union[...]`: one type
      stands for itself, several make a `typing.Union`. */
  function UnionOf(others: seq<PyType>): PyType {
    if |others| == 1 then others[0] else Union(others, Typing)
  }

  predicate IsContainer(t: PyType) {
    t.List? || t.Set? || t.FrozenSet? || t.Tuple? || t.Dict?
  }

  /** `_value_to_builtin(name, value, field_type)`: one `"name":value`
      member. The ladder tests `bool` first, then `int`, `float` and `str`,
      each as the declared type or as a member of a `X | Y` union; containers
      stay bare, and an optional union of other types is retried on its
      remaining members. */
  function ValueToBuiltin(name: string, value: Option<string>, t: PyType): (r: string)
    ensures Key(name) <= r
    decreases if IsPipeUnion(t) then 1 else 0, t
  {
    var isUnion := IsPipeUnion(t);
    var args := TypeArgs(t);
    if value.None? then Key(name) + "null"
    else
      var v := value.value;
      if v == "" && isUnion && NoneT in args then Key(name) + "null"
      else if t == Bool || (isUnion && Bool in args) then Key(name) + Lower(v)
      else if t == Int || (isUnion && Int in args) then Key(name) + v
      else if t == Float || (isUnion && Float in args) then Key(name) + v
      else if t == Str || (isUnion && Str in args) then Key(name) + Quote(v)
      else if IsContainer(t) then Key(name) + v
      else if isUnion && |args| >= 2 && NoneT in args then
        var others := Reader.WithoutNone(args);
        Reader.WithoutNoneMembers(args);
        assert |others| == 1 ==> others[0] in t.members;
        ValueToBuiltin(name, value, UnionOf(others))
      else Key(name) + v
  }

  /** The alternatives the ladder looks at. */
  function Choices(t: PyType): set<PyType> {
    if IsPipeUnion(t) then (set x | x in t.members) else {t}
  }

  /** The first version's ladder over a set of alternatives. */
  function Ladder(alts: set<PyType>, v: string): string {
    if Bool in alts then Lower(v)
    else if Int in alts || Float in alts then v
    else if Str in alts then Quote(v)
    else v
  }

  /** A closed-form reference for `_value_to_builtin`. */
  function ValueSpec(name: string, value: Option<string>, t: PyType): string {
    if value.None? || (value.value == "" && IsPipeUnion(t) && NoneT in t.members) then Key(name) + "null"
    else Key(name) + Ladder(Choices(t), value.value)
  }

  /** On every type Python can build, `_value_to_builtin` agrees with the
      closed form: the retry on the remaining members of an optional union
      only ever reaches types the ladder leaves bare. */
  lemma ValueToBuiltinMatchesSpec(name: string, value: Option<string>, t: PyType)
    requires WellFormed(t)
    ensures ValueToBuiltin(name, value, t) == ValueSpec(name, value, t)
  {
    if value.Some? && !(value.value == "" && IsPipeUnion(t) && NoneT in t.members) {
      assert t.Union? ==> TypeArgs(t) == t.members;
      ChoicesScalar(t, Bool);
      ChoicesScalar(t, Int);
      ChoicesScalar(t, Float);
      ChoicesScalar(t, Str);
      if IsPipeUnion(t) && NoneT in t.members
         && Bool !in t.members && Int !in t.members && Float !in t.members && Str !in t.members {
        RetryLeavesBare(name, value.value, t);
        assert Ladder(Choices(t), value.value) == value.value;
      }
    }
  }

  /** The retry on the remaining members of an optional union none of whose
      members the ladder names leaves a non-empty cell bare. */
  lemma RetryLeavesBare(name: string, v: string, t: PyType)
    requires WellFormed(t) && IsPipeUnion(t) && NoneT in t.members && v != ""
    requires Bool !in t.members && Int !in t.members && Float !in t.members && Str !in t.members
    ensures ValueToBuiltin(name, Some(v), t) == Key(name) + v
  {
    var args := t.members;
    assert TypeArgs(t) == args && |args| >= 2;
    var others := Reader.WithoutNone(args);
    Reader.WithoutNoneOfFlat(args);
    var u := UnionOf(others);
    assert others[0] in args;
    assert !IsPipeUnion(u) && u != Bool && u != Int && u != Float && u != Str;
    assert t != Bool && t != Int && t != Float && t != Str && !IsContainer(t);
    assert ValueToBuiltin(name, Some(v), t) == ValueToBuiltin(name, Some(v), u);
  }

  /** A type that is not a union is among the alternatives exactly when it is
      the declared type or a member of a declared `X | Y` union. */
  lemma ChoicesScalar(t: PyType, x: PyType)
    requires !x.Union?
    ensures x in Choices(t) <==> t == x || (IsPipeUnion(t) && x in TypeArgs(t))
  {
  }

  /** A missing cell, and an empty cell of a union with `None`, give `null`. */
  lemma ValueToBuiltinNull(name: string, t: PyType)
    ensures ValueToBuiltin(name, None, t) == Key(name) + "null"
    ensures IsPipeUnion(t) && NoneT in t.members ==> ValueToBuiltin(name, Some(""), t) == Key(name) + "null"
  {
  }

  /** The versions disagree on `int | bool`, which the first lower-cases and
      the second leaves bare, and on `int | str`, which the first leaves bare
      and the second quotes. */
  lemma LadderContrast(name: string, v: string)
    ensures ValueToBuiltin(name, Some(v), Union([Int, Bool], Pipe)) == Key(name) + Lower(v)
    ensures Reader.Decode(Union([Int, Bool], Pipe), v) == v
    ensures ValueToBuiltin(name, Some(v), Union([Int, Str], Pipe)) == Key(name) + v
    ensures Reader.Decode(Union([Int, Str], Pipe), v) == Quote(v)
  {
  }

  /** The comment prefixes of the first version's reader. */
  const CommentChars: set<string> := {"#"}

  /** `_filter_out_comments(lines)` with the fixed prefix set. */
  method FilterOutComments(lines: seq<string>) returns (kept: seq<string>)
    ensures kept == Reader.FilterComments(lines, CommentChars)
  {
    kept := [];
    var i := 0;
    while i < |lines|
      invariant 0 <= i <= |lines|
      invariant kept == Reader.FilterComments(lines[..i], CommentChars)
    {
      Reader.FilterStep(lines, i, CommentChars);
      var stripped := Strip(lines[i]);
      if stripped != [] && !("#" <= stripped) {
        kept := kept + [lines[i]];
      }
      i := i + 1;
    }
    assert lines[..i] == lines;
  }

  /** A line is kept exactly when its stripped text is not empty and does not
      start with `#`. */
  lemma HashCommentKept(line: string)
    ensures Reader.Kept(line, CommentChars) <==> Strip(line) != [] && Strip(line)[0] != '#'
  {
  }

  /** A line with no white space at either end is kept exactly when it does
      not start with `#`. */
  lemma KeptUnpadded(line: string)
    requires Unpadded(line)
    ensures Reader.Kept(line, CommentChars) <==> line[0] != '#'
  {
    StripUnchanged(line, IsSpace);
    HashCommentKept(line);
  }

  /** A non-empty line with no white space at either end. */
  predicate Unpadded(line: string) {
    line != [] && !IsSpace(line[0]) && !IsSpace(line[|line| - 1])
  }

  lemma KeepOne(x: string)
    requires Unpadded(x) && x[0] != '#'
    ensures Reader.FilterComments([x], CommentChars) == [x]
  {
    KeptUnpadded(x);
  }

  lemma DropOne(x: string)
    requires x == [] || (Unpadded(x) && x[0] == '#') || x == "  "
    ensures Reader.FilterComments([x], CommentChars) == []
  {
    if x == "  " {
      StripEmptyIff(x);
    } else if x != [] {
      KeptUnpadded(x);
    }
  }

  /** The shape of the comment-and-blank-line test file: a header, two
      comment lines, a data line, an empty line, a line of spaces and a second
      data line. The comments and both blank lines are dropped; the header and
      the data lines are kept in order. */
  lemma CommentFileExample(header: string, c1: string, c2: string, d1: string, d2: string)
    requires Unpadded(header) && Unpadded(d1) && Unpadded(d2) && Unpadded(c1) && Unpadded(c2)
    requires header[0] != '#' && d1[0] != '#' && d2[0] != '#' && c1[0] == '#' && c2[0] == '#'
    ensures Reader.FilterComments([header, c1, c2, d1, "", "  ", d2], CommentChars) == [header, d1, d2]
  {
    var p := CommentChars;
    KeepOne(header);
    DropOne(c1);
    DropOne(c2);
    KeepOne(d1);
    DropOne("");
    DropOne("  ");
    KeepOne(d2);
    var s1 := [header];
    var s2 := [header, c1];
    assert s2 == s1 + [c1];
    Reader.FilterConcat(s1, [c1], p);
    var s3 := [header, c1, c2];
    assert s3 == s2 + [c2];
    Reader.FilterConcat(s2, [c2], p);
    var s4 := [header, c1, c2, d1];
    assert s4 == s3 + [d1];
    Reader.FilterConcat(s3, [d1], p);
    assert Reader.FilterComments(s4, p) == [header, d1];
    var s5 := [header, c1, c2, d1, ""];
    assert s5 == s4 + [""];
    Reader.FilterConcat(s4, [""], p);
    var s6 := [header, c1, c2, d1, "", "  "];
    assert s6 == s5 + ["  "];
    Reader.FilterConcat(s5, ["  "], p);
    var s7 := [header, c1, c2, d1, "", "  ", d2];
    assert s7 == s6 + [d2];
    Reader.FilterConcat(s6, [d2], p);
  }

  /** One member of the object text: the whole `"name":value` escaped. */
  function Piece(name: string, t: PyType, cell: Option<string>): string {
    EscapeControls(ValueToBuiltin(name, cell, t))
  }

  function Pieces(record: seq<(string, Option<string>)>, types: seq<PyType>): (r: seq<string>)
    requires |record| == |types|
    ensures |r| == |record|
    ensures forall i :: 0 <= i < |r| ==> r[i] == Piece(record[i].0, types[i], record[i].1)
  {
    seq(|record|, i requires 0 <= i < |record| => Piece(record[i].0, types[i], record[i].1))
  }

  function JsonText(record: seq<(string, Option<string>)>, types: seq<PyType>): string
    requires |record| == |types|
  {
    "{" + Join(",", Pieces(record, types)) + "}"
  }

  /** `_csv_dict_to_json(record)`: pairs entries with field types by position,
      escapes each whole member and loads the text with `json.loads`, whose
      errors pass unchanged. */
  method CsvDictToJson<J>(record: seq<(string, Option<string>)>, fieldTypes: seq<PyType>,
                          loads: string -> Result<J>)
    returns (r: Result<J>)
    ensures |record| > |fieldTypes| ==> r == Failure(PyError(ValueError, Reader.ZipArgumentShorter))
    ensures |record| < |fieldTypes| ==> r == Failure(PyError(ValueError, Reader.ZipArgumentLonger))
    ensures |record| == |fieldTypes| ==> r == loads(JsonText(record, fieldTypes))
  {
    var keyValues: seq<string> := [];
    var i := 0;
    while i < |record| && i < |fieldTypes|
      invariant 0 <= i <= |record| && i <= |fieldTypes|
      invariant |keyValues| == i
      invariant forall k :: 0 <= k < i ==> keyValues[k] == Piece(record[k].0, fieldTypes[k], record[k].1)
    {
      var (name, value) := record[i];
      var decoded := value;  // `_decode` is the identity
      var keyValue := ValueToBuiltin(name, decoded, fieldTypes[i]);
      keyValue := ReplaceControls(keyValue);
      keyValues := keyValues + [keyValue];
      i := i + 1;
    }
    if i < |record| {
      return Failure(PyError(ValueError, Reader.ZipArgumentShorter));
    }
    if i < |fieldTypes| {
      return Failure(PyError(ValueError, Reader.ZipArgumentLonger));
    }
    assert keyValues == Pieces(record, fieldTypes);
    return loads("{" + Join(",", keyValues) + "}");
  }

  /** Escaping whole members keeps raw tab, CR and LF out of the text whatever
      the field names are. */
  lemma JsonTextNoControls(record: seq<(string, Option<string>)>, types: seq<PyType>)
    requires |record| == |types|
    ensures NoControls(JsonText(record, types))
  {
    var ps := Pieces(record, types);
    forall i | 0 <= i < |ps|
      ensures NoControls(ps[i])
    {
      EscapeControlsClean(ValueToBuiltin(record[i].0, record[i].1, types[i]));
    }
    JoinNoControls(",", ps);
    NoControlsConcat("{", Join(",", ps));
    NoControlsConcat("{" + Join(",", ps), "}");
  }

  const NoneNotIterable: string := "'NoneType' object is not iterable"

  /** The first version's header check: `set(fieldnames)` of no field names at
      all (an empty input with a header expected) fails before any comparison. */
  function CheckHeader(fieldnames: Option<seq<string>>, header: seq<string>): (r: Outcome)
    ensures fieldnames.None? ==> r == Fail(PyError(TypeError, NoneNotIterable))
    ensures fieldnames.Some? ==> r == Reader.CheckHeader(fieldnames, header)
  {
    if fieldnames.None? then Fail(PyError(TypeError, NoneNotIterable))
    else if Reader.SetOf(fieldnames.value) != Reader.SetOf(header) then
      Fail(PyError(ValueError, Reader.HeaderMismatch))
    else Pass
  }

  /** `DelimitedStructReader.__init__`: asserts a dataclass record type, then
      checks the header unconditionally. */
  function OpenStructReader(recordType: PyType, delimiter: string, hasHeader: bool, lines: seq<string>,
                            tokenize: (string, char, seq<string>) -> seq<seq<string>>)
    : (r: Result<Reader.RecordReader>)
    ensures !recordType.Record? ==> r == Failure(PyError(AssertionError, RecordTypeNotADataclass))
    ensures r.Success? ==> recordType.Record? && r.value.header == FieldNames(recordType.fields)
    ensures r.Success? ==> r.value.fieldTypes == FieldTypes(recordType.fields) && r.value.commentPrefixes == CommentChars
    ensures recordType.Record? && !hasHeader ==> r.Success?
    ensures recordType.Record? ==>
              var fieldnames := Reader.FieldnamesOf(tokenize(delimiter, Reader.QuoteChar, Reader.FilterComments(lines, CommentChars)),
                                                    hasHeader, FieldNames(recordType.fields));
              (r.Failure? <==> CheckHeader(fieldnames, FieldNames(recordType.fields)).Fail?) &&
              (r.Failure? ==> Fail(r.error) == CheckHeader(fieldnames, FieldNames(recordType.fields)))
  {
    if !recordType.Record? then Failure(PyError(AssertionError, RecordTypeNotADataclass))
    else
      var header := FieldNames(recordType.fields);
      var rows := tokenize(delimiter, Reader.QuoteChar, Reader.FilterComments(lines, CommentChars));
      var fieldnames := Reader.FieldnamesOf(rows, hasHeader, header);
      match CheckHeader(fieldnames, header)
      case Fail(e) => Failure(e)
      case Pass => Success(Reader.RecordReader(recordType, delimiter, CommentChars, header,
                                               FieldTypes(recordType.fields), fieldnames))
  }

  /** An empty input read with a header expected: the second version accepts
      it (and yields no records), the first fails with a `TypeError`. */
  lemma EmptyInputContrast(recordType: PyType, delimiter: string,
                           tokenize: (string, char, seq<string>) -> seq<seq<string>>)
    requires recordType.Record?
    requires tokenize(delimiter, Reader.QuoteChar, []) == []
    ensures Reader.OpenReader(recordType, delimiter, true, Reader.DefaultCommentPrefixes, [], tokenize).Success?
    ensures OpenStructReader(recordType, delimiter, true, [], tokenize) == Failure(PyError(TypeError, NoneNotIterable))
  {
  }
}
