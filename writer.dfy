/** The second-version writer (`DelimitedDataWriter`): the per-field
    pre- and post-processing, the row `write` hands to the CSV writer, the
    header, and the checks on construction and on subclassing.

    The JSON encoder (msgspec) is a parameter. `to_builtins` is applied to a
    dictionary whose values are all strings already, which it returns as they
    are, so it appears as the identity. The CSV writer's rendering of a row
    into a line is foreign: the writer records the cells of every row it
    emits, in order. */
module Writer {
  import opened Wrappers
  import opened Text
  import opened DataTypes

  /** The default text written in place of `None`. */
  const DefaultNoneField: string := ""

  const NotADataclass: string := "record_type is not a dataclass but must be!"

  /** `_preprocess(value)`: a string stays as it is; any other value becomes
      its JSON text (or the encoder's error). */
  function Preprocess(value: PyValue, encode: PyValue -> Result<string>): (r: Result<string>)
    ensures value.VStr? ==> r == Success(value.s)
    ensures !value.VStr? ==> r == encode(value)
  {
    if value.VStr? then Success(value.s) else encode(value)
  }

  /** `_postprocess(value)`: a string loses all leading and trailing `"`,
      `None` becomes the placeholder, and anything else is returned as it is.
      A string never comes out starting or ending with `"`. */
  function Postprocess(value: PyValue, noneField: string): (r: PyValue)
    ensures value.VStr? ==> r == VStr(StripQuotes(value.s))
    ensures value.VStr? ==> !IsQuoteEnded(r.s)
    ensures value.VNone? ==> r == VStr(noneField)
    ensures !value.VStr? && !value.VNone? ==> r == value
  {
    if value.VStr? then
      var stripped := StripQuotes(value.s);
      StripEnds(value.s, IsQuote);
      assert stripped == [] || (!IsQuote(stripped[0]) && !IsQuote(stripped[|stripped| - 1]));
      VStr(stripped)
    else if value.VNone? then VStr(noneField)
    else value
  }

  /** Post-processing a string twice is post-processing it once, and the
      result neither starts nor ends with `"`. */
  lemma PostprocessIdempotent(s: string, noneField: string)
    ensures var r := Postprocess(VStr(s), noneField);
            Postprocess(r, noneField) == r && (r.s == [] || (r.s[0] != '"' && r.s[|r.s| - 1] != '"'))
  {
    StripEnds(s, IsQuote);
    StripIdempotent(s, IsQuote);
  }

  /** The message for a record that is not an instance of the record type. */
  function NotAnInstance(expected: string, found: string): string {
    "Expected " + expected + " but found " + found + "!"
  }

  /** The message `getattr` raises for a missing attribute. */
  function NoAttribute(cls: string, name: string): string {
    "'" + cls + "' object has no attribute '" + name + "'"
  }

  /** `{name: _preprocess(getattr(record, name)) for name in header}`: the
      pre-processed text of every named attribute, in header order; the first
      missing attribute or encoder error ends the comprehension. */
  function EncodeFields(header: seq<string>, record: PyValue, encode: PyValue -> Result<string>)
    : (r: Result<seq<(string, string)>>)
    requires record.VObject?
    ensures r.Success? ==> |r.value| == |header|
    ensures r.Success? ==> forall i :: 0 <= i < |header| ==>
              r.value[i].0 == header[i] && header[i] in record.attrs &&
              Preprocess(record.attrs[header[i]], encode) == Success(r.value[i].1)
  {
    if header == [] then Success([])
    else
      var name := header[0];
      if name !in record.attrs then Failure(PyError(AttributeError, NoAttribute(record.cls, name)))
      else
        match Preprocess(record.attrs[name], encode)
        case Failure(e) => Failure(e)
        case Success(text) =>
          match EncodeFields(header[1..], record, encode)
          case Failure(e) => Failure(e)
          case Success(rest) =>
            assert forall i :: 1 <= i < |header| ==> header[i] == header[1..][i - 1];
            Success([(name, text)] + rest)
  }

  /** A field fails the comprehension when the record lacks it or the encoder
      refuses its value. */
  predicate FieldFails(name: string, record: PyValue, encode: PyValue -> Result<string>)
    requires record.VObject?
  {
    name !in record.attrs || Preprocess(record.attrs[name], encode).Failure?
  }

  /** The comprehension fails exactly when some named field fails. */
  lemma {:induction false} EncodeFieldsFails(header: seq<string>, record: PyValue, encode: PyValue -> Result<string>)
    requires record.VObject?
    ensures EncodeFields(header, record, encode).Failure? <==>
              exists i :: 0 <= i < |header| && FieldFails(header[i], record, encode)
  {
    if header != [] && !FieldFails(header[0], record, encode) {
      var tail := header[1..];
      EncodeFieldsFails(tail, record, encode);
      if EncodeFields(header, record, encode).Failure? {
        var i :| 0 <= i < |tail| && FieldFails(tail[i], record, encode);
        assert tail[i] == header[i + 1];
      } else {
        forall i | 0 <= i < |header| ensures !FieldFails(header[i], record, encode) {
          if i > 0 {
            assert header[i] == tail[i - 1];
          }
        }
      }
    }
  }

  /** `write(record)` up to the CSV writer: refuses a record that is not an
      instance of the record type, then maps every field, in header order, to
      `_postprocess(to_builtins(_preprocess(value)))`. The row's keys are the
      header; a missing attribute or an encoder error fails the write. */
  function WriteRow(recordType: PyType, record: PyValue, noneField: string, encode: PyValue -> Result<string>)
    : (r: Result<seq<(string, string)>>)
    requires recordType.Record?
    ensures !IsInstance(record, recordType.name) ==>
              r == Failure(PyError(ValueError, NotAnInstance(recordType.name, ClassName(record))))
    ensures IsInstance(record, recordType.name) ==>
              (r.Failure? <==>
                 exists i :: 0 <= i < |recordType.fields| && FieldFails(recordType.fields[i].name, record, encode))
    ensures r.Success? ==> IsInstance(record, recordType.name) && |r.value| == |recordType.fields|
    ensures r.Success? ==> forall i :: 0 <= i < |r.value| ==>
              var name := recordType.fields[i].name;
              r.value[i].0 == name && name in record.attrs &&
              Preprocess(record.attrs[name], encode).Success? &&
              r.value[i].1 == StripQuotes(Preprocess(record.attrs[name], encode).value)
  {
    if !IsInstance(record, recordType.name) then
      Failure(PyError(ValueError, NotAnInstance(recordType.name, ClassName(record))))
    else
      var header := FieldNames(recordType.fields);
      EncodeFieldsFails(header, record, encode);
      match EncodeFields(header, record, encode)
      case Failure(e) => Failure(e)
      case Success(encoded) =>
        // to_builtins returns a dictionary of strings unchanged.
        var builtin := encoded;
        Success(seq(|builtin|, i requires 0 <= i < |builtin| =>
          (builtin[i].0, Postprocess(VStr(builtin[i].1), noneField).s)))
  }

  /** The placeholder for `None` never reaches a row: `None` is encoded to
      JSON text before post-processing sees it. */
  lemma NoneFieldUnused(recordType: PyType, record: PyValue, a: string, b: string, encode: PyValue -> Result<string>)
    requires recordType.Record?
    ensures WriteRow(recordType, record, a, encode) == WriteRow(recordType, record, b, encode)
  {
    if IsInstance(record, recordType.name) {
      var e := EncodeFields(FieldNames(recordType.fields), record, encode);
      if e.Success? {
        var ra, rb := WriteRow(recordType, record, a, encode).value, WriteRow(recordType, record, b, encode).value;
        assert |ra| == |rb| == |e.value|;
        forall i | 0 <= i < |ra| ensures ra[i] == rb[i] {
          assert ra[i] == (e.value[i].0, Postprocess(VStr(e.value[i].1), a).s);
        }
        assert ra == rb;
      }
    }
  }

  /** The cell written for one value: a string that neither starts nor ends
      with `"` is written verbatim; `None` is written as the encoder's text for
      it with its quotes stripped. */
  lemma CellOfValue(v: PyValue, encode: PyValue -> Result<string>, cell: string)
    requires Preprocess(v, encode).Success? && cell == StripQuotes(Preprocess(v, encode).value)
    ensures v.VStr? && !IsQuoteEnded(v.s) ==> cell == v.s
    ensures v.VNone? ==> encode(VNone).Success? && cell == StripQuotes(encode(VNone).value)
  {
    if v.VStr? {
      assert Preprocess(v, encode).value == v.s;
      if !IsQuoteEnded(v.s) {
        StripUnchanged(v.s, IsQuote);
        assert StripQuotes(v.s) == v.s;
      }
    } else if v.VNone? {
      assert v == VNone;
    }
  }

  /** The same for the cells of a written row, field by field. */
  lemma WriteRowCells(recordType: PyType, record: PyValue, noneField: string, encode: PyValue -> Result<string>,
                      row: seq<(string, string)>, i: nat)
    requires recordType.Record?
    requires WriteRow(recordType, record, noneField, encode) == Success(row)
    requires i < |row|
    ensures record.VObject? && recordType.fields[i].name in record.attrs
    ensures var v := record.attrs[recordType.fields[i].name];
            (v.VStr? && !IsQuoteEnded(v.s) ==> row[i].1 == v.s) &&
            (v.VNone? ==> encode(VNone).Success? && row[i].1 == StripQuotes(encode(VNone).value))
  {
    var name := recordType.fields[i].name;
    assert name in record.attrs && Preprocess(record.attrs[name], encode).Success? &&
           row[i].1 == StripQuotes(Preprocess(record.attrs[name], encode).value);
    CellOfValue(record.attrs[name], encode, row[i].1);
  }

  predicate IsQuoteEnded(s: string) {
    s != [] && (s[0] == '"' || s[|s| - 1] == '"')
  }

  /** The value of a `delimiter` class attribute, as `__init_subclass__`
      sees it. */
  datatype ClassAttr = Absent | StrAttr(s: string) | OtherAttr

  /** `__init_subclass__`: a subclass must carry a string `delimiter`. */
  function InitSubclass(className: string, delimiter: ClassAttr): (r: Outcome)
    ensures r.Pass? <==> delimiter.StrAttr?
    ensures r.Fail? ==>
              r.error == PyError(TypeError, "Subclass " + className + " must define a string 'delimiter' class attribute")
  {
    if !delimiter.StrAttr? then
      Fail(PyError(TypeError, "Subclass " + className + " must define a string 'delimiter' class attribute"))
    else Pass
  }

  /** The two presets pass the subclass check with a comma and a tab; a
      subclass that names no delimiter is refused. */
  lemma Presets()
    ensures InitSubclass("CsvWriter", StrAttr(Comma.Delimiter())) == Pass && Comma.Delimiter() == ","
    ensures InitSubclass("TsvWriter", StrAttr(Tab.Delimiter())) == Pass && Tab.Delimiter() == "\t"
    ensures InitSubclass("MyWriter", Absent).Fail?
  {
  }

  /** A writer bound to one record type; `rows` is what it has handed to the
      CSV writer so far, one list of cells per line. */
  class DataWriter {
    const recordType: PyType
    const header: seq<string>
    const noneField: string
    const delimiter: string
    var rows: seq<seq<string>>

    ghost predicate Valid()
    {
      recordType.Record? && header == FieldNames(recordType.fields)
    }

    constructor (recordType: PyType, delimiter: string, noneField: string)
      requires recordType.Record?
      ensures Valid()
      ensures this.recordType == recordType && this.delimiter == delimiter && this.noneField == noneField
      ensures rows == []
    {
      this.recordType := recordType;
      this.header := FieldNames(recordType.fields);
      this.noneField := noneField;
      this.delimiter := delimiter;
      this.rows := [];
    }

    /** `write_header()`: one line holding the field names. */
    method WriteHeader()
      requires Valid()
      modifies this
      ensures rows == old(rows) + [header]
    {
      rows := rows + [header];
    }

    /** `write(record)`: on success one line holding the row's cells in header
      order; on failure nothing is written. */
    method Write(record: PyValue, encode: PyValue -> Result<string>) returns (r: Outcome)
      requires Valid()
      modifies this
      ensures var row := WriteRow(recordType, record, noneField, encode);
              (row.Success? ==> r == Pass && rows == old(rows) + [Cells(row.value)]) &&
              (row.Failure? ==> r == Fail(row.error) && rows == old(rows))
    {
      var row := WriteRow(recordType, record, noneField, encode);
      if row.Failure? {
        return Fail(row.error);
      }
      rows := rows + [Cells(row.value)];
      return Pass;
    }
  }

  /** The cells of a row, in its key order (the CSV writer looks every header
      name up in turn). */
  function Cells(row: seq<(string, string)>): (r: seq<string>)
    ensures |r| == |row| && forall i :: 0 <= i < |row| ==> r[i] == row[i].1
  {
    seq(|row|, i requires 0 <= i < |row| => row[i].1)
  }

  /** `DelimitedDataWriter.__init__`: refuses a record type that is not a
      dataclass; otherwise a writer with the record's header and nothing
      written yet. */
  method OpenDataWriter(recordType: PyType, delimiter: string, noneField: string) returns (r: Result<DataWriter>)
    ensures !recordType.Record? <==> r.Failure?
    ensures r.Failure? ==> r.error == PyError(ValueError, NotADataclass)
    ensures r.Success? ==> fresh(r.value) && r.value.Valid() && r.value.rows == []
    ensures r.Success? ==> r.value.recordType == recordType && r.value.delimiter == delimiter
    ensures r.Success? ==> r.value.header == FieldNames(recordType.fields) && r.value.noneField == noneField
  {
    if !recordType.Record? {
      return Failure(PyError(ValueError, NotADataclass));
    }
    var w := new DataWriter(recordType, delimiter, noneField);
    return Success(w);
  }
}
