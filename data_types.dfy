/** Type tags for the declared types of record fields, the `|` operator that
    folds them into unions, field metadata, and the run-time values the writers
    serialise.

    Python's reflection (`get_args`, `fields_of`, `is_dataclass`) is replaced
    by this closed datatype: a record type is a `Record` tag that lists its
    fields in declaration order. */
module DataTypes {
  import opened Wrappers

  /** `X | Y` builds a `types.UnionType`; `typing.Union[...]` and
      `typing.Optional[...]` build a `typing._UnionGenericAlias`. */
  datatype UnionStyle = Pipe | Typing

  datatype PyType =
    | Bool | Int | Float | Str
    | NoneT                                   // types.NoneType
    | List(elem: PyType) | Set(elem: PyType) | FrozenSet(elem: PyType)
    | Tuple(elems: seq<PyType>)               // tuple[int, ...] is Tuple([Int])
    | Dict(key: PyType, value: PyType)
    | Record(name: string, fields: seq<Field>)  // a dataclass
    | Union(members: seq<PyType>, style: UnionStyle)
    | Class(name: string)                     // any other class, not a dataclass
    | Forward(annotation: string)             // an annotation written as a string
    | AnyT                                    // typing.Any

  datatype Field = Field(name: string, ty: PyType)

  /** `isinstance(t, type)`, as Python 3.11 and later answer it: generic
      aliases such as `list[int]` and both union forms are not classes, while
      `typing.Any` is. */
  predicate IsClass(t: PyType) {
    t.Bool? || t.Int? || t.Float? || t.Str? || t.NoneT? || t.Record? || t.Class? || t.AnyT?
  }

  /** `typing.get_args(t)`. */
  function TypeArgs(t: PyType): seq<PyType> {
    match t
    case List(e) => [e]
    case Set(e) => [e]
    case FrozenSet(e) => [e]
    case Tuple(es) => es
    case Dict(k, v) => [k, v]
    case Union(ms, _) => ms
    case _ => []
  }

  /** `is_union(t)`: both union representations, and nothing else. */
  predicate IsUnion(t: PyType) {
    t.Union?
  }

  /** `isinstance(t, types.UnionType)`: only the `X | Y` form. */
  predicate IsPipeUnion(t: PyType) {
    t.Union? && t.style == Pipe
  }

  predicate Distinct(xs: seq<PyType>) {
    forall i, j :: 0 <= i < j < |xs| ==> xs[i] != xs[j]
  }

  predicate NoUnions(ts: seq<PyType>) {
    forall i :: 0 <= i < |ts| ==> !ts[i].Union?
  }

  /** The members of a union as Python can build one: at least two, pairwise
      different, none of them itself a union (Python flattens nested unions). */
  predicate FlatMembers(ms: seq<PyType>) {
    |ms| >= 2 && Distinct(ms) && NoUnions(ms)
  }

  /** A type Python can construct: every union is flat. */
  predicate WellFormed(t: PyType) {
    t.Union? ==> FlatMembers(t.members)
  }

  /** Keeps the first occurrence of every element, in order. */
  function Dedup(xs: seq<PyType>): seq<PyType> {
    if xs == [] then []
    else
      var r := Dedup(xs[..|xs| - 1]);
      if xs[|xs| - 1] in r then r else r + [xs[|xs| - 1]]
  }

  /** Removing repeats keeps exactly the elements there were. */
  lemma {:induction false} DedupMembers(xs: seq<PyType>)
    ensures forall x :: x in Dedup(xs) <==> x in xs
  {
    if xs != [] {
      var p := xs[..|xs| - 1];
      DedupMembers(p);
      assert xs == p + [xs[|xs| - 1]];
    }
  }

  lemma {:induction false} DedupIsDistinct(xs: seq<PyType>)
    ensures Distinct(Dedup(xs))
  {
    if xs != [] {
      var r, y := Dedup(xs[..|xs| - 1]), xs[|xs| - 1];
      DedupIsDistinct(xs[..|xs| - 1]);
      if y !in r {
        var q := r + [y];
        forall i, j | 0 <= i < j < |q|
          ensures q[i] != q[j]
        {
          if j == |r| {
            assert q[i] == r[i];
          } else {
            assert q[i] == r[i] && q[j] == r[j];
          }
        }
      }
    }
  }

  lemma {:induction false} DedupDistinct(xs: seq<PyType>)
    requires Distinct(xs)
    ensures Dedup(xs) == xs
  {
    if xs != [] {
      DedupDistinct(xs[..|xs| - 1]);
    }
  }

  /** The arguments a union operand contributes: its members, or itself. */
  function Args(t: PyType): seq<PyType> {
    if t.Union? then t.members else [t]
  }

  /** `a | b`: the arguments of both sides, flattened and without repeats, in
      order. A single remaining argument is returned as it is. The result is a
      `typing.Union` when either side is one (its `__or__`/`__ror__` wins),
      otherwise a `types.UnionType`. */
  function Or(a: PyType, b: PyType): PyType {
    var args := Dedup(Args(a) + Args(b));
    var style := if (a.Union? && a.style == Typing) || (b.Union? && b.style == Typing) then Typing else Pipe;
    if |args| == 1 then args[0] else Union(args, style)
  }

  /** The value `build_union(*ts)` returns when `ts` is not empty: the types
      folded from the left with `|`. */
  function UnionFold(ts: seq<PyType>): PyType
    requires |ts| > 0
  {
    if |ts| == 1 then ts[0] else Or(UnionFold(ts[..|ts| - 1]), ts[|ts| - 1])
  }

  lemma UnionFoldPrefix(ts: seq<PyType>, i: nat)
    requires 0 < i < |ts|
    ensures UnionFold(ts[..i + 1]) == Or(UnionFold(ts[..i]), ts[i])
  {
    assert ts[..i + 1][..i] == ts[..i];
  }

  /** `build_union(*types)`: one type passes through, several are folded with
      `|`, and no type at all fails on `types[0]`. */
  method BuildUnion(types: seq<PyType>) returns (r: Result<PyType>)
    ensures |types| == 0 ==> r == Failure(PyError(IndexError, "tuple index out of range"))
    ensures |types| == 1 ==> r == Success(types[0])
    ensures |types| > 0 ==> r == Success(UnionFold(types))
  {
    if |types| == 1 {
      return Success(types[0]);
    }
    if |types| == 0 {
      return Failure(PyError(IndexError, "tuple index out of range"));
    }
    var union := types[0];
    assert types[..1] == [types[0]];
    var i := 1;
    while i < |types|
      invariant 1 <= i <= |types|
      invariant union == UnionFold(types[..i])
    {
      UnionFoldPrefix(types, i);
      var next := Or(union, types[i]);
      assert next == UnionFold(types[..i + 1]);
      union := next;
      i := i + 1;
    }
    assert types[..i] == types;
    return Success(union);
  }

  /** Adding one type to a list without repeats adds it unless it is there. */
  lemma DedupSnoc(d: seq<PyType>, x: PyType)
    requires Distinct(d)
    ensures Dedup(d + [x]) == if x in d then d else d + [x]
  {
    var dx := d + [x];
    assert dx[..|dx| - 1] == d && dx[|dx| - 1] == x;
    DedupDistinct(d);
  }

  /** One step of the fold: or-ing a union-free non-`typing` accumulator with
      one more non-union type appends that type to the arguments unless it is
      there already. */
  lemma OrStep(u: PyType, x: PyType)
    requires Distinct(Args(u)) && NoUnions(Args(u)) && !x.Union?
    requires !(u.Union? && u.style == Typing)
    ensures var args := if x in Args(u) then Args(u) else Args(u) + [x];
            Args(Or(u, x)) == args &&
            (Or(u, x).Union? <==> |args| >= 2) &&
            (Or(u, x).Union? ==> Or(u, x).style == Pipe)
  {
    var d := Args(u);
    var args := if x in d then d else d + [x];
    assert Args(x) == [x];
    DedupSnoc(d, x);
    assert Or(u, x) == if |args| == 1 then args[0] else Union(args, Pipe);
    assert |args| >= 1;
    if |args| == 1 {
      assert !args[0].Union? by {
        if x in d {
          assert args[0] == d[0];
        } else {
          assert args[0] == x;
        }
      }
      assert args == [args[0]];
    }
  }

  /** Folding types that are not unions gives the inputs without repeats as
      the arguments of the result, and any union it builds is a
      `types.UnionType` of at least two of them. */
  lemma {:induction false} UnionFoldDedup(ts: seq<PyType>)
    requires |ts| > 0 && NoUnions(ts)
    ensures Args(UnionFold(ts)) == Dedup(ts)
    ensures UnionFold(ts).Union? ==> UnionFold(ts).style == Pipe && |Dedup(ts)| >= 2
  {
    if |ts| > 1 {
      var p, x := ts[..|ts| - 1], ts[|ts| - 1];
      assert NoUnions(p);
      UnionFoldDedup(p);
      var u := UnionFold(p);
      var d := Args(u);
      DedupIsDistinct(p);
      DedupMembers(p);
      assert d == Dedup(p) && Distinct(d);
      forall i | 0 <= i < |d|
        ensures !d[i].Union?
      {
        assert d[i] in p;
      }
      assert !x.Union?;
      OrStep(u, x);
      assert UnionFold(ts) == Or(u, x);
    }
  }

  /** `build_union` of non-union types: a `types.UnionType` whose member set is
      exactly the set of inputs when at least two of them differ, and the one
      input otherwise. */
  lemma UnionFoldArgs(ts: seq<PyType>)
    requires |ts| > 0 && NoUnions(ts)
    ensures Args(UnionFold(ts)) == Dedup(ts)
    ensures forall x :: x in Args(UnionFold(ts)) <==> x in ts
    ensures UnionFold(ts).Union? <==> |Dedup(ts)| >= 2
    ensures UnionFold(ts).Union? ==> UnionFold(ts).style == Pipe
  {
    UnionFoldDedup(ts);
    DedupMembers(ts);
  }

  /** Pairwise different non-union types fold into the union of exactly those
      types, in their order. */
  lemma UnionFoldDistinct(ts: seq<PyType>)
    requires FlatMembers(ts)
    ensures UnionFold(ts) == Union(ts, Pipe)
  {
    UnionFoldArgs(ts);
    DedupDistinct(ts);
  }

  /** A sequence has at least two different elements exactly when removing
      repeats leaves at least two. */
  lemma DedupTwo(ts: seq<PyType>)
    requires |ts| > 0
    ensures |Dedup(ts)| >= 2 <==> exists i, j :: 0 <= i < j < |ts| && ts[i] != ts[j]
  {
    var d := Dedup(ts);
    DedupIsDistinct(ts);
    DedupMembers(ts);
    if |d| >= 2 {
      assert d[0] != d[1];
      assert d[0] in ts && d[1] in ts;
      var a :| 0 <= a < |ts| && ts[a] == d[0];
      var b :| 0 <= b < |ts| && ts[b] == d[1];
      if a < b {
        assert ts[a] != ts[b];
      } else {
        assert ts[b] != ts[a];
      }
    } else {
      assert ts[0] in d;
      forall i, j | 0 <= i < j < |ts|
        ensures ts[i] == ts[j]
      {
        assert ts[i] in d && ts[j] in d;
      }
    }
  }

  /** `is_union` holds of `build_union(*ts)` exactly when the (non-union)
      inputs name at least two different types. */
  lemma IsUnionOfFold(ts: seq<PyType>)
    requires |ts| > 0 && NoUnions(ts)
    ensures IsUnion(UnionFold(ts)) <==> exists i, j :: 0 <= i < j < |ts| && ts[i] != ts[j]
  {
    UnionFoldDedup(ts);
    DedupTwo(ts);
  }

  /** `FieldMeta`: what the library records about a field. */
  datatype FieldMeta = FieldMeta(name: string, ty: PyType, isOptional: bool, couldBeString: bool)

  const UnsupportedFieldType: string := "Field types as strings or Any are not supported!"

  /** `FieldMeta.from_field`: refuses a field whose declared type is not a
      class; otherwise copies name and type and flags the type as optional when
      `NoneType` is among its arguments and as possibly a string when `str` is
      (a string annotation would also count, but it is never a class). */
  function FromField(f: Field): (r: Result<FieldMeta>)
    ensures r.Failure? <==> !IsClass(f.ty)
    ensures r.Failure? ==> r.error == PyError(ValueError, UnsupportedFieldType)
    ensures r.Success? ==> r.value.name == f.name && r.value.ty == f.ty
    ensures r.Success? ==> (r.value.isOptional <==> NoneT in TypeArgs(f.ty))
    ensures r.Success? ==> (r.value.couldBeString <==> Str in TypeArgs(f.ty))
  {
    if !IsClass(f.ty) then Failure(PyError(ValueError, UnsupportedFieldType))
    else
      var args := TypeArgs(f.ty);
      Success(FieldMeta(f.name, f.ty, NoneT in args, f.ty.Forward? || Str in args))
  }

  /** As written, `from_field` never sets either flag: a class has no type
      arguments, and every union is refused before its arguments are read. */
  lemma FromFieldNeverFlags(f: Field)
    ensures FromField(f).Success? ==> !FromField(f).value.isOptional && !FromField(f).value.couldBeString
  {
  }

  /** The field `field3: float | None` of the test fixtures is refused, and
      `field2: str` is not recognised as a string. */
  lemma FromFieldRejectsOptional()
    ensures FromField(Field("field3", Union([Float, NoneT], Pipe))) == Failure(PyError(ValueError, UnsupportedFieldType))
    ensures FromField(Field("field2", Str)) == Success(FieldMeta("field2", Str, false, false))
  {
  }

  /** The evident intent of `from_field`: refuse string annotations and `Any`
      (the message names them), accept unions, and flag a field as optional
      when it is a union with `None` and as possibly a string when it is `str`
      or a union with `str`. */
  function FromFieldIntended(f: Field): (r: Result<FieldMeta>)
    ensures r.Failure? <==> (f.ty.Forward? || f.ty.AnyT?)
    ensures r.Success? ==> r.value.name == f.name && r.value.ty == f.ty
    ensures r.Success? ==> (r.value.isOptional <==> IsUnion(f.ty) && NoneT in TypeArgs(f.ty))
    ensures r.Success? ==> (r.value.couldBeString <==> f.ty == Str || (IsUnion(f.ty) && Str in TypeArgs(f.ty)))
  {
    if f.ty.Forward? || f.ty.AnyT? then Failure(PyError(ValueError, UnsupportedFieldType))
    else
      var union := IsUnion(f.ty);
      Success(FieldMeta(f.name, f.ty, union && NoneT in f.ty.members,
                        f.ty == Str || (union && Str in f.ty.members)))
  }

  /** The intended version agrees with the written one on every class except
      `str` (now flagged) and `Any` (now refused), and flags `float | None`. */
  lemma FromFieldIntendedAgrees(f: Field)
    requires IsClass(f.ty) && f.ty != Str && !f.ty.AnyT?
    ensures FromFieldIntended(f) == FromField(f)
    ensures FromFieldIntended(Field("field3", Union([Float, NoneT], Pipe)))
            == Success(FieldMeta("field3", Union([Float, NoneT], Pipe), true, false))
  {
  }

  /** `TypeMeta`: the metadata of all fields of a record type. */
  datatype TypeMeta = TypeMeta(fields: seq<FieldMeta>) {
    /** `TypeMeta.header`: one entry per field, the field names in field order. */
    function Header(): (r: seq<string>)
      ensures |r| == |fields|
      ensures forall i :: 0 <= i < |fields| ==> r[i] == fields[i].name
    {
      seq(|fields|, i requires 0 <= i < |fields| => fields[i].name)
    }
  }

  /** The header of the metadata `from_field` builds for a record's fields
      is the record's header: the field names, in declaration order. */
  lemma HeaderOfFields(fs: seq<Field>, metas: seq<FieldMeta>)
    requires |metas| == |fs|
    requires forall i :: 0 <= i < |fs| ==> FromField(fs[i]) == Success(metas[i])
    ensures TypeMeta(metas).Header() == FieldNames(fs)
  {
    var h := TypeMeta(metas).Header();
    forall i | 0 <= i < |fs|
      ensures h[i] == FieldNames(fs)[i]
    {
      assert metas[i].name == fs[i].name;
    }
  }

  /** `[field.name for field in fields_of(record_type)]`. */
  function FieldNames(fields: seq<Field>): (r: seq<string>)
    ensures |r| == |fields|
    ensures forall i :: 0 <= i < |fields| ==> r[i] == fields[i].name
  {
    seq(|fields|, i requires 0 <= i < |fields| => fields[i].name)
  }

  /** `[field.type for field in fields_of(record_type)]`. */
  function FieldTypes(fields: seq<Field>): (r: seq<PyType>)
    ensures |r| == |fields|
    ensures forall i :: 0 <= i < |fields| ==> r[i] == fields[i].ty
  {
    seq(|fields|, i requires 0 <= i < |fields| => fields[i].ty)
  }

  /** The two delimiter presets: the comma readers and writers and the tab ones. */
  datatype Dialect = Comma | Tab {
    /** The single-character delimiter of the preset. */
    function Delimiter(): (d: string)
      ensures |d| == 1
      ensures this == Comma ==> d == ","
      ensures this == Tab ==> d == "\t"
    {
      if this == Comma then "," else "\t"
    }
  }

  /** The Python values a writer meets in record fields. Floats are kept as
      their text: no arithmetic is done on them. */
  datatype PyValue =
    | VNone
    | VBool(b: bool)
    | VInt(i: int)
    | VFloat(repr: string)
    | VStr(s: string)
    | VList(items: seq<PyValue>)
    | VTuple(items: seq<PyValue>)
    | VSet(items: seq<PyValue>)
    | VFrozenSet(items: seq<PyValue>)
    | VDict(entries: seq<(PyValue, PyValue)>)
    | VObject(cls: string, bases: seq<string>, isDataclass: bool, attrs: map<string, PyValue>)

  /** `type(v).__qualname__`. */
  function ClassName(v: PyValue): string {
    match v
    case VNone => "NoneType"
    case VBool(_) => "bool"
    case VInt(_) => "int"
    case VFloat(_) => "float"
    case VStr(_) => "str"
    case VList(_) => "list"
    case VTuple(_) => "tuple"
    case VSet(_) => "set"
    case VFrozenSet(_) => "frozenset"
    case VDict(_) => "dict"
    case VObject(c, _, _, _) => c
  }

  /** `isinstance(v, C)` for a record class `C`, classes compared by name. */
  predicate IsInstance(v: PyValue, cls: string) {
    v.VObject? && (v.cls == cls || cls in v.bases)
  }
}
