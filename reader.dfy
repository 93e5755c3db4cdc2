/** The second-version reader (`DelimitedRecordReader`): the per-field
    textualisation `_decode`, the JSON object text `_csv_dict_to_json` builds
    from one row, the comment filter and the checks made on construction.

    The CSV tokenizer (`csv.DictReader`) and the JSON decoder (msgspec) are
    foreign; they enter as function parameters. A row reaches
    `_csv_dict_to_json` as the dictionary the tokenizer built: its entries in
    order, each a field name and a cell that is `None` when the line was too
    short (the default `restval`). An extra entry stands for the `restkey`
    entry of a line that was too long. */
module Reader {
  import opened Wrappers
  import opened Text
  import opened DataTypes

  // ---------------------------------------------------------------------
  // _decode
  // ---------------------------------------------------------------------

  /** The members of a union other than `NoneType`, in order
      (`set(type_args) - {NoneType}`). */
  function WithoutNone(ms: seq<PyType>): seq<PyType> {
    if ms == [] then []
    else if ms[0] == NoneT then WithoutNone(ms[1..])
    else [ms[0]] + WithoutNone(ms[1..])
  }

  /** Exactly the members other than `NoneType` remain; without `NoneType`
      nothing is removed. */
  lemma {:induction false} WithoutNoneMembers(ms: seq<PyType>)
    ensures forall x :: x in WithoutNone(ms) <==> x in ms && x != NoneT
    ensures NoneT !in ms ==> WithoutNone(ms) == ms
  {
    if ms != [] {
      WithoutNoneMembers(ms[1..]);
      assert ms == [ms[0]] + ms[1..];
    }
  }

  /** Removing `NoneType` from members without repeats removes one member and
      leaves no repeats. */
  lemma {:induction false} WithoutNoneDistinct(ms: seq<PyType>)
    requires Distinct(ms)
    ensures Distinct(WithoutNone(ms))
    ensures NoneT in ms ==> |WithoutNone(ms)| == |ms| - 1
  {
    if ms != [] {
      var tail := ms[1..];
      assert Distinct(tail) by {
        forall i, j | 0 <= i < j < |tail| ensures tail[i] != tail[j] {
          assert tail[i] == ms[i + 1] && tail[j] == ms[j + 1];
        }
      }
      assert ms[0] !in tail by {
        forall j | 0 <= j < |tail| ensures tail[j] != ms[0] {
          assert tail[j] == ms[j + 1];
        }
      }
      WithoutNoneDistinct(tail);
      WithoutNoneMembers(tail);
      var rest := WithoutNone(tail);
      if ms[0] != NoneT {
        var r := [ms[0]] + rest;
        assert ms[0] !in rest;
        forall i, j | 0 <= i < j < |r| ensures r[i] != r[j] {
          assert r[j] == rest[j - 1];
          if i > 0 {
            assert r[i] == rest[i - 1];
          }
        }
      }
    }
  }

  /** The members of a union as Python builds it, other than `NoneType`. */
  lemma WithoutNoneOfFlat(ms: seq<PyType>)
    requires FlatMembers(ms) && NoneT in ms
    ensures var r := WithoutNone(ms);
            |r| == |ms| - 1 && Distinct(r) && NoUnions(r) &&
            forall x :: x in r <==> x in ms && x != NoneT
  {
    WithoutNoneMembers(ms);
    WithoutNoneDistinct(ms);
    var r := WithoutNone(ms);
    forall i | 0 <= i < |r| ensures !r[i].Union? {
      assert r[i] in ms;
    }
  }

  /** `_decode(field_type, item)`: the JSON fragment for one cell. */
  function Decode(t: PyType, item: string): string
    requires WellFormed(t)
    decreases if IsPipeUnion(t) && NoneT in t.members then 1 else 0
  {
    if t == Str then Quote(item)
    else if t == Float || t == Int then item
    else if t == Bool then Lower(item)
    else if !IsPipeUnion(t) then item
    else
      var args := t.members;
      if NoneT in args then
        if item == "" then "null"
        else
          var others := WithoutNone(args);
          WithoutNoneOfFlat(args);
          if |args| == 2 then
            assert !others[0].Union?;
            Decode(others[0], item)
          else
            UnionFoldDistinct(others);
            Decode(UnionFold(others), item)
      else if Str in args then Quote(item)
      else if Float in args || Int in args then item
      else if Bool in args then Lower(item)
      else item
  }

  /** The set of types a cell may stand for: the members of a `X | Y` union
      other than `NoneType`, or the one declared type. */
  function Alternatives(t: PyType): set<PyType> {
    if IsPipeUnion(t) then (set x | x in t.members && x != NoneT) else {t}
  }

  /** The precedence ladder over a set of alternatives: `str` quotes, then
      `int` or `float` leave the text bare, then `bool` lower-cases; anything
      else is left bare. */
  function Ladder(alts: set<PyType>, item: string): string {
    if Str in alts then Quote(item)
    else if Float in alts || Int in alts then item
    else if Bool in alts then Lower(item)
    else item
  }

  /** A closed-form reference for `_decode`: an empty cell of a union with
      `None` is `null`; otherwise the ladder decides over the alternatives. */
  function DecodeSpec(t: PyType, item: string): string {
    if IsPipeUnion(t) && NoneT in t.members && item == "" then "null"
    else Ladder(Alternatives(t), item)
  }

  /** `_decode` agrees with the closed form on every type Python can build:
      the recursive calls through the remaining members of an optional union
      change nothing but the handling of the empty cell. */
  lemma {:induction false} DecodeMatchesSpec(t: PyType, item: string)
    requires WellFormed(t)
    ensures Decode(t, item) == DecodeSpec(t, item)
    decreases if IsPipeUnion(t) && NoneT in t.members then 1 else 0
  {
    if IsPipeUnion(t) && NoneT in t.members && item != "" {
      if |t.members| == 2 {
        var x := OptionalSpec(t, item);
        DecodeMatchesSpec(x, item);
      } else {
        DecodeOptionalUnion(t, item);
        var u := OptionalUnionSpec(t, item);
        DecodeMatchesSpec(u, item);
      }
    } else if !(IsPipeUnion(t) && NoneT in t.members) {
      AlternativesScalar(t, Str);
      AlternativesScalar(t, Int);
      AlternativesScalar(t, Float);
      AlternativesScalar(t, Bool);
    }
  }

  /** An optional type `X | None` decodes a non-empty cell as `X`, and the
      closed form agrees. */
  lemma OptionalSpec(t: PyType, item: string) returns (x: PyType)
    requires WellFormed(t) && IsPipeUnion(t) && NoneT in t.members && |t.members| == 2 && item != ""
    ensures !x.Union?
    ensures Decode(t, item) == Decode(x, item)
    ensures DecodeSpec(t, item) == DecodeSpec(x, item)
  {
    var others := WithoutNone(t.members);
    WithoutNoneOfFlat(t.members);
    x := others[0];
    assert others == [x];
    assert Alternatives(t) == {x} == Alternatives(x);
  }

  /** With two or more members besides `None`, the closed form of a non-empty
      cell is that of the union of those members. */
  lemma OptionalUnionSpec(t: PyType, item: string) returns (u: PyType)
    requires WellFormed(t) && IsPipeUnion(t) && NoneT in t.members && |t.members| > 2 && item != ""
    ensures |WithoutNone(t.members)| == |t.members| - 1
    ensures u == UnionFold(WithoutNone(t.members)) && WellFormed(u) && !(IsPipeUnion(u) && NoneT in u.members)
    ensures DecodeSpec(t, item) == DecodeSpec(u, item)
  {
    var others := WithoutNone(t.members);
    WithoutNoneOfFlat(t.members);
    UnionFoldDistinct(others);
    u := Union(others, Pipe);
    assert Alternatives(u) == Alternatives(t);
  }

  /** A type that is neither a union nor `NoneType` is an alternative exactly
      when it is the declared type or a member of a declared `X | Y` union. */
  lemma AlternativesScalar(t: PyType, x: PyType)
    requires !x.Union? && x != NoneT
    ensures x in Alternatives(t) <==> t == x || (IsPipeUnion(t) && x in t.members)
  {
  }

  /** The fragment is always the cell quoted, the cell as it is, the cell
      lower-cased, or `null`. */
  lemma DecodeForms(t: PyType, item: string)
    requires WellFormed(t)
    ensures var r := Decode(t, item);
            r == item || r == Quote(item) || r == Lower(item) || r == "null"
  {
    DecodeMatchesSpec(t, item);
  }

  /** The scalar cases: `str` is quoted with no escaping of inner characters,
      numbers are bare, `bool` is lower-cased, and every other type that is
      not a `X | Y` union is bare. */
  lemma DecodeScalars(t: PyType, item: string)
    requires WellFormed(t) && !IsPipeUnion(t)
    ensures Decode(Str, item) == "\"" + item + "\""
    ensures Decode(Int, item) == item && Decode(Float, item) == item
    ensures Decode(Bool, item) == Lower(item)
    ensures t != Str && t != Bool ==> Decode(t, item) == item
  {
  }

  /** An empty cell of a union that includes `None` is `null`, even when `str`
      is another member. */
  lemma DecodeEmptyOptional(t: PyType)
    requires WellFormed(t) && IsPipeUnion(t) && NoneT in t.members
    ensures Decode(t, "") == "null"
  {
  }

  /** An optional field decodes a non-empty cell as its one other member does,
      whichever side of `|` the `None` is on. */
  lemma DecodeOptional(x: PyType, item: string)
    requires x != NoneT && !x.Union?
    requires item != ""
    ensures Decode(Union([x, NoneT], Pipe), item) == Decode(x, item)
    ensures Decode(Union([NoneT, x], Pipe), item) == Decode(x, item)
  {
    PairFlat(x, NoneT);
    PairFlat(NoneT, x);
    assert [x, NoneT][1..] == [NoneT] && [NoneT][1..] == [];
    assert WithoutNone([x, NoneT]) == [x];
    assert [NoneT, x][1..] == [x] && [x][1..] == [];
    assert WithoutNone([NoneT, x]) == [x];
  }

  /** With two or more members besides `None`, a non-empty cell decodes as it
      does under the union of those members. */
  lemma DecodeOptionalUnion(t: PyType, item: string)
    requires WellFormed(t) && IsPipeUnion(t) && NoneT in t.members && |t.members| > 2
    requires item != ""
    ensures |WithoutNone(t.members)| == |t.members| - 1
    ensures WellFormed(UnionFold(WithoutNone(t.members)))
    ensures Decode(t, item) == Decode(UnionFold(WithoutNone(t.members)), item)
  {
    var others := WithoutNone(t.members);
    WithoutNoneOfFlat(t.members);
    assert FlatMembers(others);
    UnionFoldDistinct(others);
    assert t.Union? && t != Str && t != Float && t != Int && t != Bool;
  }

  /** The order in which the members of a union are written does not matter. */
  lemma DecodeMemberOrder(t: PyType, u: PyType, item: string)
    requires WellFormed(t) && WellFormed(u) && IsPipeUnion(t) && IsPipeUnion(u)
    requires forall x :: x in t.members <==> x in u.members
    ensures Decode(t, item) == Decode(u, item)
  {
    DecodeMatchesSpec(t, item);
    DecodeMatchesSpec(u, item);
    assert Alternatives(t) == Alternatives(u);
  }

  /** Two different types that are not unions are the members of a union
      Python can build. */
  lemma PairFlat(x: PyType, y: PyType)
    requires x != y && !x.Union? && !y.Union?
    ensures FlatMembers([x, y])
  {
  }

  /** Precedence in a union without `None`: `str` wins, then the numbers, and
      only then `bool`; any other union is left bare. */
  lemma DecodeUnionLadder(t: PyType, item: string)
    requires WellFormed(t) && IsPipeUnion(t) && NoneT !in t.members
    ensures Str in t.members ==> Decode(t, item) == Quote(item)
    ensures Str !in t.members && (Int in t.members || Float in t.members) ==> Decode(t, item) == item
    ensures Str !in t.members && Int !in t.members && Float !in t.members && Bool in t.members ==>
              Decode(t, item) == Lower(item)
    ensures Str !in t.members && Int !in t.members && Float !in t.members && Bool !in t.members ==>
              Decode(t, item) == item
  {
  }

  /** `int | bool` keeps `True` bare, `bool | str` quotes it, and
      `bool | list[int]` lower-cases it. */
  lemma DecodePrecedence(item: string)
    ensures Decode(Union([Int, Bool], Pipe), item) == item
    ensures Decode(Union([Bool, Str], Pipe), item) == Quote(item)
    ensures Decode(Union([Bool, List(Int)], Pipe), item) == Lower(item)
  {
    PairFlat(Int, Bool);
    PairFlat(Bool, Str);
    PairFlat(Bool, List(Int));
    assert NoneT !in [Int, Bool] && Int in [Int, Bool] && Str !in [Int, Bool];
    DecodeUnionLadder(Union([Int, Bool], Pipe), item);
    assert NoneT !in [Bool, Str] && Str in [Bool, Str];
    DecodeUnionLadder(Union([Bool, Str], Pipe), item);
    assert NoneT !in [Bool, List(Int)] && Bool in [Bool, List(Int)];
    assert Str !in [Bool, List(Int)] && Int !in [Bool, List(Int)] && Float !in [Bool, List(Int)];
    DecodeUnionLadder(Union([Bool, List(Int)], Pipe), item);
  }

  // ---------------------------------------------------------------------
  // _csv_dict_to_json
  // ---------------------------------------------------------------------

  /** `f"{item}"` of a cell: the text, or `None` for a missing cell. */
  function CellText(cell: Option<string>): (r: string)
    ensures cell.Some? ==> r == cell.value
    ensures cell.None? ==> r == "None"
  {
    if cell.Some? then cell.value else "None"
  }

  /** A cell missing from a short line is never `null`, even for an optional
      field: it is decoded as the text `None`. */
  lemma MissingCellNotNull(t: PyType)
    requires WellFormed(t)
    ensures Decode(t, CellText(None)) in {"None", "\"None\"", "none"}
  {
    assert CellText(None) == "None" && Quote("None") == "\"None\"";
    DecodeMatchesSpec(t, "None");
    assert Decode(t, "None") == Ladder(Alternatives(t), "None");
    assert Lower("None") == "none" by {
      assert LowerChar('N') == 'n';
    }
  }

  predicate AllWellFormed(ts: seq<PyType>) {
    forall i :: 0 <= i < |ts| ==> WellFormed(ts[i])
  }

  /** One member `"name":fragment` of the object text, the fragment decoded
      under the field type and escaped. */
  function Piece(name: string, t: PyType, cell: Option<string>): string
    requires WellFormed(t)
  {
    Key(name) + EscapeControls(Decode(t, CellText(cell)))
  }

  /** The members built from entries and types paired by position. */
  function Pieces(record: seq<(string, Option<string>)>, types: seq<PyType>): (r: seq<string>)
    requires |record| == |types| && AllWellFormed(types)
    ensures |r| == |record|
    ensures forall i :: 0 <= i < |r| ==> r[i] == Piece(record[i].0, types[i], record[i].1)
  {
    seq(|record|, i requires 0 <= i < |record| => Piece(record[i].0, types[i], record[i].1))
  }

  /** The JSON object text built from one row. */
  function JsonText(record: seq<(string, Option<string>)>, types: seq<PyType>): string
    requires |record| == |types| && AllWellFormed(types)
  {
    "{" + Join(",", Pieces(record, types)) + "}"
  }

  const MalformedIntro: string :=
    "Could not load delimited data line into JSON-like format. Built improperly formatted JSON: "

  /** The message of the `DecodeError` raised for a malformed object text. */
  function MalformedMessage(json: string, original: string): (m: string)
    ensures IsInfix(json, m)
  {
    var after := ". Original exception: " + original + ".";
    InfixOfConcat(MalformedIntro, json, after);
    MalformedIntro + json + after
  }

  const ZipArgumentShorter: string := "zip() argument 2 is shorter than argument 1"
  const ZipArgumentLonger: string := "zip() argument 2 is longer than argument 1"

  /** What the JSON decoder's answer turns into: a `DecodeError` is replaced
      by one whose message carries the object text; a success and any other
      error pass unchanged. */
  function WrapDecodeError<J>(json: string, decoded: Result<J>): (r: Result<J>)
    ensures r.Success? <==> decoded.Success?
    ensures decoded.Failure? && decoded.error.kind == DecodeError ==>
              r.Failure? && r.error.kind == DecodeError && IsInfix(json, r.error.message)
    ensures !(decoded.Failure? && decoded.error.kind == DecodeError) ==> r == decoded
  {
    if decoded.Failure? && decoded.error.kind == DecodeError then
      Failure(PyError(DecodeError, MalformedMessage(json, decoded.error.message)))
    else decoded
  }

  /** One pass of the loop of `_csv_dict_to_json`: decode the cell, escape tab,
      CR and LF in the fragment, and prefix the key. */
  method DecodeMember(name: string, t: PyType, item: Option<string>) returns (piece: string)
    requires WellFormed(t)
    ensures piece == Piece(name, t, item)
  {
    var decoded := Decode(t, CellText(item));
    decoded := ReplaceControls(decoded);
    piece := Key(name) + decoded;
  }

  /** `_csv_dict_to_json(record)`: decodes every cell under the field type at
      the same position, escapes tab, CR and LF in each fragment, joins the
      `"name":fragment` members inside braces and hands the text to the JSON
      decoder. The strict `zip` fails when the row has more or fewer entries
      than the record type has fields. */
  method CsvDictToJson<J>(record: seq<(string, Option<string>)>, fieldTypes: seq<PyType>,
                          decodeJson: string -> Result<J>)
    returns (r: Result<J>)
    requires AllWellFormed(fieldTypes)
    ensures |record| > |fieldTypes| ==> r == Failure(PyError(ValueError, ZipArgumentShorter))
    ensures |record| < |fieldTypes| ==> r == Failure(PyError(ValueError, ZipArgumentLonger))
    ensures |record| == |fieldTypes| ==>
              r == WrapDecodeError(JsonText(record, fieldTypes), decodeJson(JsonText(record, fieldTypes)))
  {
    var items: seq<string> := [];
    var i := 0;
    while i < |record| && i < |fieldTypes|
      invariant 0 <= i <= |record| && i <= |fieldTypes|
      invariant |items| == i
      invariant forall k :: 0 <= k < i ==> items[k] == Piece(record[k].0, fieldTypes[k], record[k].1)
    {
      var piece := DecodeMember(record[i].0, fieldTypes[i], record[i].1);
      items := items + [piece];
      i := i + 1;
    }
    if i < |record| {
      return Failure(PyError(ValueError, ZipArgumentShorter));
    }
    if i < |fieldTypes| {
      return Failure(PyError(ValueError, ZipArgumentLonger));
    }
    assert items == Pieces(record, fieldTypes);
    var jsonString := "{" + Join(",", items) + "}";
    assert jsonString == JsonText(record, fieldTypes);
    r := WrapDecodeError(jsonString, decodeJson(jsonString));
  }

  predicate NamesFree(record: seq<(string, Option<string>)>) {
    forall i :: 0 <= i < |record| ==> NoControls(record[i].0)
  }

  /** The object text carries no raw tab, CR or LF when the field names carry
      none: every fragment is escaped, and braces, quotes, colons and commas
      add none. */
  lemma JsonTextNoControls(record: seq<(string, Option<string>)>, types: seq<PyType>)
    requires |record| == |types| && AllWellFormed(types)
    requires NamesFree(record)
    ensures NoControls(JsonText(record, types))
  {
    var ps := Pieces(record, types);
    forall i | 0 <= i < |ps|
      ensures NoControls(ps[i])
    {
      var name := record[i].0;
      NoControlsConcat("\"", name);
      NoControlsConcat("\"" + name, "\":");
      EscapeControlsClean(Decode(types[i], CellText(record[i].1)));
      NoControlsConcat(Key(name), EscapeControls(Decode(types[i], CellText(record[i].1))));
    }
    JoinNoControls(",", ps);
    NoControlsConcat("{", Join(",", ps));
    NoControlsConcat("{" + Join(",", ps), "}");
  }

  /** The record type of the test fixtures: `field1: int`, `field2: str`,
      `field3: float | None`. */
  const SimpleMetricTypes: seq<PyType> := [Int, Str, Union([Float, NoneT], Pipe)]

  /** An object text of three members. */
  lemma BracedThree(ps: seq<string>)
    requires |ps| == 3
    ensures "{" + Join(",", ps) + "}" == "{" + ps[0] + "," + ps[1] + "," + ps[2] + "}"
  {
    assert ps[1..][1..] == [ps[2]];
    assert Join(",", ps[1..]) == ps[1] + "," + ps[2];
  }

  /** A fragment free of tab, CR and LF is kept as it is. */
  lemma PieceUnescaped(name: string, t: PyType, cell: Option<string>)
    requires WellFormed(t) && NoControls(Decode(t, CellText(cell)))
    ensures Piece(name, t, cell) == Key(name) + Decode(t, CellText(cell))
  {
    EscapeControlsClean(Decode(t, CellText(cell)));
  }

  /** The members for the three field types of the fixtures, for a cell free
      of tab, CR and LF. */
  lemma NumberPiece(name: string, item: string)
    requires NoControls(item)
    ensures Piece(name, Int, Some(item)) == Key(name) + item
  {
    PieceUnescaped(name, Int, Some(item));
  }

  lemma StringPiece(name: string, item: string)
    requires NoControls(item)
    ensures Piece(name, Str, Some(item)) == Key(name) + Quote(item)
  {
    NoControlsConcat("\"", item);
    NoControlsConcat("\"" + item, "\"");
    PieceUnescaped(name, Str, Some(item));
  }

  lemma OptionalFloatPiece(name: string, item: string)
    requires NoControls(item) && item != ""
    ensures WellFormed(Union([Float, NoneT], Pipe))
    ensures Piece(name, Union([Float, NoneT], Pipe), Some(item)) == Key(name) + item
  {
    DecodeOptional(Float, item);
    PieceUnescaped(name, Union([Float, NoneT], Pipe), Some(item));
  }

  /** The object text of a row of three entries. */
  lemma JsonTextThree(record: seq<(string, Option<string>)>, types: seq<PyType>)
    requires |record| == |types| == 3 && AllWellFormed(types)
    ensures var ps := Pieces(record, types);
            JsonText(record, types) == "{" + ps[0] + "," + ps[1] + "," + ps[2] + "}"
  {
    BracedThree(Pieces(record, types));
  }

  /** A row of the fixtures' record type, its cells free of tab, CR and LF
      and the last one not empty, builds the members `"n1":c1`, `"n2":"c2"`
      and `"n3":c3`: the `int` and `float | None` cells bare, the `str` cell
      quoted. */
  lemma MetricRowText(n1: string, n2: string, n3: string, c1: string, c2: string, c3: string)
    requires NoControls(c1) && NoControls(c2) && NoControls(c3) && c3 != ""
    ensures AllWellFormed(SimpleMetricTypes)
    ensures JsonText([(n1, Some(c1)), (n2, Some(c2)), (n3, Some(c3))], SimpleMetricTypes)
            == "{" + (Key(n1) + c1) + "," + (Key(n2) + Quote(c2)) + "," + (Key(n3) + c3) + "}"
  {
    JsonTextThree([(n1, Some(c1)), (n2, Some(c2)), (n3, Some(c3))], SimpleMetricTypes);
    NumberPiece(n1, c1);
    StringPiece(n2, c2);
    OptionalFloatPiece(n3, c3);
  }

  /** The row `1<TAB>name<TAB>BOMB` builds the object text
      `{"field1":1,"field2":"name","field3":BOMB}`, which the decoder then
      rejects: the bad cell is left bare. */
  lemma JsonTextBomb()
    ensures AllWellFormed(SimpleMetricTypes)
    ensures JsonText([("field1", Some("1")), ("field2", Some("name")), ("field3", Some("BOMB"))], SimpleMetricTypes)
            == "{" + (Key("field1") + "1") + "," + (Key("field2") + Quote("name")) + "," + (Key("field3") + "BOMB") + "}"
  {
    MetricRowText("field1", "field2", "field3", "1", "name", "BOMB");
  }

  /** The declared type of the first field with the given name, if any. */
  function TypeOf(fields: seq<Field>, name: string): (r: Option<PyType>)
    ensures r.Some? && FieldsWellFormed(fields) ==> WellFormed(r.value)
  {
    if fields == [] then None
    else if fields[0].name == name then Some(fields[0].ty)
    else
      assert FieldsWellFormed(fields) ==> FieldsWellFormed(fields[1..]);
      TypeOf(fields[1..], name)
  }

  /** The lookup finds nothing exactly when no field has the name, and what it
      finds is the type of a field with that name. */
  lemma {:induction false} TypeOfSpec(fields: seq<Field>, name: string)
    ensures TypeOf(fields, name).None? <==> forall i :: 0 <= i < |fields| ==> fields[i].name != name
    ensures TypeOf(fields, name).Some? ==>
              exists i :: 0 <= i < |fields| && fields[i].name == name && fields[i].ty == TypeOf(fields, name).value
  {
    if fields != [] && fields[0].name != name {
      TypeOfSpec(fields[1..], name);
      var r := TypeOf(fields[1..], name);
      if r.Some? {
        var i :| 0 <= i < |fields[1..]| && fields[1..][i].name == name && fields[1..][i].ty == r.value;
        assert fields[i + 1] == fields[1..][i];
      } else {
        forall i | 0 <= i < |fields| ensures fields[i].name != name {
          if i > 0 {
            assert fields[i] == fields[1..][i - 1];
          }
        }
      }
    }
  }

  lemma {:induction false} TypeOfFirst(fields: seq<Field>, k: nat)
    requires k < |fields|
    requires forall i :: 0 <= i < k ==> fields[i].name != fields[k].name
    ensures TypeOf(fields, fields[k].name) == Some(fields[k].ty)
  {
    if k > 0 {
      TypeOfFirst(fields[1..], k - 1);
    }
  }

  /** With unique field names, the header and the field types line up: the
      name at every position of the header names the field whose type is at
      the same position. */
  lemma HeaderTypesAligned(fields: seq<Field>, i: nat)
    requires i < |fields|
    requires forall j, k :: 0 <= j < k < |fields| ==> fields[j].name != fields[k].name
    ensures TypeOf(fields, FieldNames(fields)[i]) == Some(FieldTypes(fields)[i])
  {
    TypeOfFirst(fields, i);
  }

  predicate FieldsWellFormed(fields: seq<Field>) {
    forall i :: 0 <= i < |fields| ==> WellFormed(fields[i].ty)
  }

  /** The intended pairing: every entry is decoded under the type of the field
      it names, so a reordered header still reads. An entry naming no field
      would be refused by the header check; it is decoded as bare text. */
  function PiecesByName(record: seq<(string, Option<string>)>, fields: seq<Field>): (r: seq<string>)
    requires FieldsWellFormed(fields)
    ensures |r| == |record|
    ensures forall i :: 0 <= i < |r| && TypeOf(fields, record[i].0).Some? ==>
              r[i] == Piece(record[i].0, TypeOf(fields, record[i].0).value, record[i].1)
  {
    seq(|record|, i requires 0 <= i < |record| =>
      var t := TypeOf(fields, record[i].0);
      Piece(record[i].0, if t.Some? then t.value else Class(""), record[i].1))
  }

  function JsonTextByName(record: seq<(string, Option<string>)>, fields: seq<Field>): string
    requires FieldsWellFormed(fields)
  {
    "{" + Join(",", PiecesByName(record, fields)) + "}"
  }

  /** With the header in declaration order, pairing by name and by position
      agree. */
  lemma ByNameAgrees(record: seq<(string, Option<string>)>, fields: seq<Field>)
    requires FieldsWellFormed(fields) && |record| == |fields|
    requires forall i :: 0 <= i < |record| ==> record[i].0 == fields[i].name
    requires forall i, j :: 0 <= i < j < |fields| ==> fields[i].name != fields[j].name
    ensures AllWellFormed(FieldTypes(fields))
    ensures JsonTextByName(record, fields) == JsonText(record, FieldTypes(fields))
  {
    forall k | 0 <= k < |fields|
      ensures TypeOf(fields, fields[k].name) == Some(fields[k].ty)
    {
      TypeOfFirst(fields, k);
    }
    assert PiecesByName(record, fields) == Pieces(record, FieldTypes(fields));
  }

  /** The header `field2,field1,field3` passes the header check, yet the row
      `name,1,0.2` is paired by position: `field2` is decoded as an `int` and
      `field1` as a `str`, giving `{"field2":name,"field1":"1","field3":0.2}`,
      which is not JSON. */
  lemma ReorderedHeaderMisread()
    ensures CheckHeader(Some(["field2", "field1", "field3"]), ["field1", "field2", "field3"]) == Pass
    ensures AllWellFormed(SimpleMetricTypes)
    ensures JsonText([("field2", Some("name")), ("field1", Some("1")), ("field3", Some("0.2"))], SimpleMetricTypes)
            == "{" + (Key("field2") + "name") + "," + (Key("field1") + Quote("1")) + "," + (Key("field3") + "0.2") + "}"
  {
    assert SetOf(["field2", "field1", "field3"]) == SetOf(["field1", "field2", "field3"]);
    MetricRowText("field2", "field1", "field3", "name", "1", "0.2");
  }

  /** Pairing a row under the header `field2,field1,field3` by name decodes
      every cell under its own field's type. */
  lemma MetricRowByName(c2: string, c1: string, c3: string)
    requires NoControls(c1) && NoControls(c2) && NoControls(c3) && c3 != ""
    ensures FieldsWellFormed(SimpleMetricFields)
    ensures JsonTextByName([("field2", Some(c2)), ("field1", Some(c1)), ("field3", Some(c3))], SimpleMetricFields)
            == "{" + (Key("field2") + Quote(c2)) + "," + (Key("field1") + c1) + "," + (Key("field3") + c3) + "}"
  {
    var record := [("field2", Some(c2)), ("field1", Some(c1)), ("field3", Some(c3))];
    JsonTextByNameThree(record, SimpleMetricFields);
    SimpleMetricTypeOf();
    StringPiece("field2", c2);
    NumberPiece("field1", c1);
    OptionalFloatPiece("field3", c3);
  }

  /** Pairing the same row by name gives
      `{"field2":"name","field1":1,"field3":0.2}`. */
  lemma ByNameReordered()
    ensures FieldsWellFormed(SimpleMetricFields)
    ensures JsonTextByName([("field2", Some("name")), ("field1", Some("1")), ("field3", Some("0.2"))], SimpleMetricFields)
            == "{" + (Key("field2") + Quote("name")) + "," + (Key("field1") + "1") + "," + (Key("field3") + "0.2") + "}"
  {
    MetricRowByName("name", "1", "0.2");
  }

  /** The object text of a row of three entries, paired by name. */
  lemma JsonTextByNameThree(record: seq<(string, Option<string>)>, fields: seq<Field>)
    requires |record| == 3 && FieldsWellFormed(fields)
    ensures var qs := PiecesByName(record, fields);
            JsonTextByName(record, fields) == "{" + qs[0] + "," + qs[1] + "," + qs[2] + "}"
  {
    BracedThree(PiecesByName(record, fields));
  }

  lemma SimpleMetricTypeOf()
    ensures TypeOf(SimpleMetricFields, "field1") == Some(Int)
    ensures TypeOf(SimpleMetricFields, "field2") == Some(Str)
    ensures TypeOf(SimpleMetricFields, "field3") == Some(Union([Float, NoneT], Pipe))
  {
    TypeOfFirst(SimpleMetricFields, 0);
    TypeOfFirst(SimpleMetricFields, 1);
    TypeOfFirst(SimpleMetricFields, 2);
  }

  const SimpleMetricFields: seq<Field> :=
    [Field("field1", Int), Field("field2", Str), Field("field3", Union([Float, NoneT], Pipe))]

  // ---------------------------------------------------------------------
  // _filter_out_comments
  // ---------------------------------------------------------------------

  /** No comment prefixes unless the caller gives some. */
  const DefaultCommentPrefixes: set<string> := {}

  /** A line survives when its stripped text is not empty and starts with none
      of the prefixes (an empty prefix matches every line). */
  predicate Kept(line: string, prefixes: set<string>) {
    var s := Strip(line);
    s != [] && forall p :: p in prefixes ==> !(p <= s)
  }

  /** The lines the filter yields, in order. */
  function FilterComments(lines: seq<string>, prefixes: set<string>): (r: seq<string>)
    ensures |r| <= |lines|
  {
    if lines == [] then []
    else
      var rest := FilterComments(lines[1..], prefixes);
      if Kept(lines[0], prefixes) then [lines[0]] + rest else rest
  }

  /** The filter yields exactly the input lines that are kept. */
  lemma {:induction false} FilterMembers(lines: seq<string>, prefixes: set<string>)
    ensures forall x :: x in FilterComments(lines, prefixes) <==> x in lines && Kept(x, prefixes)
  {
    if lines != [] {
      FilterMembers(lines[1..], prefixes);
      assert lines == [lines[0]] + lines[1..];
    }
  }

  /** `_filter_out_comments(lines)`: the generator loop, collected. */
  method FilterOutComments(lines: seq<string>, prefixes: set<string>) returns (kept: seq<string>)
    ensures kept == FilterComments(lines, prefixes)
  {
    kept := [];
    var i := 0;
    while i < |lines|
      invariant 0 <= i <= |lines|
      invariant kept == FilterComments(lines[..i], prefixes)
    {
      FilterStep(lines, i, prefixes);
      var stripped := Strip(lines[i]);
      if stripped != [] && (forall p :: p in prefixes ==> !(p <= stripped)) {
        kept := kept + [lines[i]];
      }
      i := i + 1;
    }
    assert lines[..i] == lines;
  }

  /** Reading one more line extends the filtered prefix by that line when it
      is kept, and by nothing otherwise. */
  lemma FilterStep(lines: seq<string>, i: nat, prefixes: set<string>)
    requires i < |lines|
    ensures FilterComments(lines[..i + 1], prefixes) ==
              FilterComments(lines[..i], prefixes) + (if Kept(lines[i], prefixes) then [lines[i]] else [])
  {
    assert lines[..i + 1] == lines[..i] + [lines[i]];
    FilterConcat(lines[..i], [lines[i]], prefixes);
    assert [lines[i]][1..] == [];
  }

  /** `r` can be obtained from `s` by deleting elements. */
  predicate IsSubsequence(r: seq<string>, s: seq<string>)
    decreases |s|
  {
    if r == [] then true
    else if s == [] then false
    else if r[0] == s[0] then IsSubsequence(r[1..], s[1..])
    else IsSubsequence(r, s[1..])
  }

  lemma {:induction false} SubsequenceOfTail(r: seq<string>, x: string, s: seq<string>)
    requires IsSubsequence(r, s)
    ensures IsSubsequence(r, [x] + s)
    decreases |s|, 1
  {
    var xs := [x] + s;
    assert xs[1..] == s;
    if r != [] && r[0] == x {
      // Matching r[0] with x must still leave r[1..] inside s.
      SubsequenceDrop(r, s);
    }
  }

  lemma {:induction false} SubsequenceDrop(r: seq<string>, s: seq<string>)
    requires r != [] && IsSubsequence(r, s)
    ensures IsSubsequence(r[1..], s)
    decreases |s|, 0
  {
    if r[0] == s[0] {
      SubsequenceOfTail(r[1..], s[0], s[1..]);
      assert [s[0]] + s[1..] == s;
    } else {
      SubsequenceDrop(r, s[1..]);
      SubsequenceOfTail(r[1..], s[0], s[1..]);
      assert [s[0]] + s[1..] == s;
    }
  }

  /** The filter keeps an order-preserving subsequence of its input. */
  lemma {:induction false} FilterIsSubsequence(lines: seq<string>, prefixes: set<string>)
    ensures IsSubsequence(FilterComments(lines, prefixes), lines)
  {
    if lines != [] {
      FilterIsSubsequence(lines[1..], prefixes);
      var rest := FilterComments(lines[1..], prefixes);
      if !Kept(lines[0], prefixes) {
        SubsequenceOfTail(rest, lines[0], lines[1..]);
        assert [lines[0]] + lines[1..] == lines;
      } else {
        assert ([lines[0]] + rest)[1..] == rest;
      }
    }
  }

  /** Filtering a concatenation filters the parts. */
  lemma {:induction false} FilterConcat(a: seq<string>, b: seq<string>, prefixes: set<string>)
    ensures FilterComments(a + b, prefixes) == FilterComments(a, prefixes) + FilterComments(b, prefixes)
  {
    if a == [] {
      assert a + b == b;
    } else {
      assert (a + b)[0] == a[0];
      assert (a + b)[1..] == a[1..] + b;
      FilterConcat(a[1..], b, prefixes);
    }
  }

  /** Filtering twice is filtering once. */
  lemma {:induction false} FilterIdempotent(lines: seq<string>, prefixes: set<string>)
    ensures FilterComments(FilterComments(lines, prefixes), prefixes) == FilterComments(lines, prefixes)
  {
    if lines != [] {
      FilterIdempotent(lines[1..], prefixes);
      var rest := FilterComments(lines[1..], prefixes);
      if Kept(lines[0], prefixes) {
        assert ([lines[0]] + rest)[1..] == rest;
      }
    }
  }

  /** With the default (empty) prefix set, a line is kept exactly when it is
      not blank. */
  lemma DefaultKeepsNonBlank(line: string)
    ensures Kept(line, DefaultCommentPrefixes) <==> exists i :: 0 <= i < |line| && !IsSpace(line[i])
  {
    StripEmptyIff(line);
  }

  // ---------------------------------------------------------------------
  // Construction
  // ---------------------------------------------------------------------

  const NotADataclass: string := "record_type is not a dataclass but must be!"
  const HeaderMismatch: string := "Fields of header do not match fields of dataclass!"

  /** `set(names)`. */
  function SetOf(names: seq<string>): (r: set<string>)
    ensures forall n :: n in r <==> n in names
  {
    set n | n in names
  }

  /** The header check: names read from the file, if any, must be the record's
      field names as a set. */
  function CheckHeader(fieldnames: Option<seq<string>>, header: seq<string>): (r: Outcome)
    ensures r.Fail? ==> r.error == PyError(ValueError, HeaderMismatch)
  {
    if fieldnames.Some? && SetOf(fieldnames.value) != SetOf(header) then
      Fail(PyError(ValueError, HeaderMismatch))
    else Pass
  }

  /** The check fails exactly when a header line was read that misses one of
      the record's names or carries a name the record does not have. */
  lemma CheckHeaderIff(fieldnames: Option<seq<string>>, header: seq<string>)
    ensures CheckHeader(fieldnames, header).Fail? <==>
              fieldnames.Some? &&
              ((exists n :: n in header && n !in fieldnames.value) ||
               (exists n :: n in fieldnames.value && n !in header))
  {
    if fieldnames.Some? {
      var a, b := SetOf(fieldnames.value), SetOf(header);
      if a != b {
        assert !(forall n :: n in a <==> n in b);
        var n :| !(n in a <==> n in b);
        if n in a {
          assert n in fieldnames.value && n !in header;
        } else {
          assert n in header && n !in fieldnames.value;
        }
      }
    }
  }

  /** The header of the fixtures in another order is accepted; with `field3`
      missing, or with an extra `field4`, it is refused. */
  lemma CheckHeaderExamples()
    ensures CheckHeader(Some(["field3", "field1", "field2"]), ["field1", "field2", "field3"]) == Pass
    ensures CheckHeader(Some(["field1", "field2"]), ["field1", "field2", "field3"]).Fail?
    ensures CheckHeader(Some(["field1", "field2", "field3", "field4"]), ["field1", "field2", "field3"]).Fail?
  {
    assert SetOf(["field3", "field1", "field2"]) == {"field1", "field2", "field3"};
    assert SetOf(["field1", "field2", "field3"]) == {"field1", "field2", "field3"};
    assert "field3" !in ["field1", "field2"];
    assert "field4" !in ["field1", "field2", "field3"];
    CheckHeaderIff(Some(["field1", "field2"]), ["field1", "field2", "field3"]);
    CheckHeaderIff(Some(["field1", "field2", "field3", "field4"]), ["field1", "field2", "field3"]);
  }

  /** The quote character handed to the tokenizer. */
  const QuoteChar: char := '\''

  /** What a constructed reader holds. */
  datatype RecordReader = RecordReader(
    recordType: PyType,
    delimiter: string,
    commentPrefixes: set<string>,
    header: seq<string>,
    fieldTypes: seq<PyType>,
    fieldnames: Option<seq<string>>)

  /** The field names `DictReader` uses: given ones when the file has no
      header line, else the first row of the filtered lines, or nothing for an
      empty input. */
  function FieldnamesOf(rows: seq<seq<string>>, hasHeader: bool, header: seq<string>): (r: Option<seq<string>>)
    ensures !hasHeader ==> r == Some(header)
    ensures hasHeader ==> (r.None? <==> rows == [])
    ensures hasHeader && rows != [] ==> r == Some(rows[0])
  {
    if !hasHeader then Some(header) else if rows == [] then None else Some(rows[0])
  }

  /** `DelimitedRecordReader.__init__`: refuses a record type that is not a
      dataclass, reads the field names, types and header, and refuses a header
      line whose names are not the field names. The tokenizer maps the
      filtered lines to rows under the delimiter and quote character. */
  function OpenReader(recordType: PyType, delimiter: string, hasHeader: bool, prefixes: set<string>,
                      lines: seq<string>, tokenize: (string, char, seq<string>) -> seq<seq<string>>)
    : (r: Result<RecordReader>)
    ensures !recordType.Record? ==> r == Failure(PyError(ValueError, NotADataclass))
    ensures r.Success? ==> recordType.Record? && r.value.recordType == recordType
    ensures r.Success? ==> r.value.header == FieldNames(recordType.fields)
    ensures r.Success? ==> r.value.fieldTypes == FieldTypes(recordType.fields)
    ensures r.Success? ==> r.value.delimiter == delimiter && r.value.commentPrefixes == prefixes
    ensures recordType.Record? && !hasHeader ==> r.Success?
    ensures recordType.Record? ==>
              var fieldnames := FieldnamesOf(tokenize(delimiter, QuoteChar, FilterComments(lines, prefixes)),
                                             hasHeader, FieldNames(recordType.fields));
              (r.Failure? <==> CheckHeader(fieldnames, FieldNames(recordType.fields)).Fail?) &&
              (r.Failure? ==> r.error == PyError(ValueError, HeaderMismatch)) &&
              (r.Success? ==> r.value.fieldnames == fieldnames)
  {
    if !recordType.Record? then Failure(PyError(ValueError, NotADataclass))
    else
      var header := FieldNames(recordType.fields);
      var rows := tokenize(delimiter, QuoteChar, FilterComments(lines, prefixes));
      var fieldnames := FieldnamesOf(rows, hasHeader, header);
      var reader := RecordReader(recordType, delimiter, prefixes, header, FieldTypes(recordType.fields), fieldnames);
      match CheckHeader(fieldnames, header)
      case Fail(e) => Failure(e)
      case Pass => Success(reader)
  }
}
