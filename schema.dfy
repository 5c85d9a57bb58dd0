/** The schema registry of otters/schema.py: a closed table of three type tags,
    validation of a declared name -> tag mapping, and its conversion into an
    ordered list of Arrow fields. */
module SchemaRegistry {
  import opened Wrappers

  /** A type tag as the caller writes it; the source validates plain strings. */
  type Tag = string

  /** The public tag constants `Schema.Str`, `Schema.F64` and `Schema.I64`. */
  const Str: Tag := "utf8"
  const F64: Tag := "float64"
  const I64: Tag := "int64"

  /** The Arrow physical types the table can produce: `pa.utf8()` (printed
      `string`), `pa.float64()` (printed `double`) and `pa.int64()`. */
  datatype ArrowType = Utf8 | Float64 | Int64

  /** `Schema._TYPE_MAP`: the closed lookup table from tag to Arrow type. */
  const TypeMap: map<Tag, ArrowType> := map[Str := Utf8, F64 := Float64, I64 := Int64]

  /** One declared field: an entry of the `fields` dict. */
  datatype Field = Field(name: string, tag: Tag)

  /** One field of the Arrow schema that `to_arrow` builds (`pa.field(name, type)`). */
  datatype ArrowField = ArrowField(name: string, typ: ArrowType)

  datatype SchemaError = UnknownFieldTypes(unknown: seq<Tag>)

  /** A constructed `Schema`; `fields` keeps the dict's insertion order. */
  datatype Schema = Schema(fields: seq<Field>) {
    /** What construction establishes: every stored tag is in the table and
        names are distinct (they are the keys of a dict). */
    predicate Valid() {
      DistinctNames(fields) && forall i :: 0 <= i < |fields| ==> fields[i].tag in TypeMap
    }

    /** `Schema.to_arrow`: one Arrow field per declared field, in declared order,
        typed by the table lookup of its tag. */
    function ToArrow(): (r: seq<ArrowField>)
      requires Valid()
      ensures |r| == |fields|
      ensures forall i :: 0 <= i < |r| ==> r[i].name == fields[i].name
      ensures forall i :: 0 <= i < |r| ==> (fields[i].tag == Str <==> r[i].typ == Utf8)
      ensures forall i :: 0 <= i < |r| ==> (fields[i].tag == F64 <==> r[i].typ == Float64)
      ensures forall i :: 0 <= i < |r| ==> (fields[i].tag == I64 <==> r[i].typ == Int64)
      ensures DistinctArrowNames(r)
    {
      seq(|fields|, i requires 0 <= i < |fields| => ArrowField(fields[i].name, TypeMap[fields[i].tag]))
    }
  }

  predicate DistinctNames(fields: seq<Field>) {
    forall i, j :: 0 <= i < j < |fields| ==> fields[i].name != fields[j].name
  }

  predicate DistinctArrowNames(fields: seq<ArrowField>) {
    forall i, j :: 0 <= i < j < |fields| ==> fields[i].name != fields[j].name
  }

  /** The tag an Arrow type came from: the inverse of the table. */
  function TagOf(t: ArrowType): (tag: Tag)
    ensures tag in TypeMap && TypeMap[tag] == t
  {
    match t
    case Utf8 => Str
    case Float64 => F64
    case Int64 => I64
  }

  /** The list comprehension `[typ for typ in fields.values() if typ not in _TYPE_MAP]`:
      the unknown tags, in field order, repeats kept. */
  function UnknownTags(fields: seq<Field>): (r: seq<Tag>)
    ensures |r| <= |fields|
    ensures forall t :: t in r ==> t !in TypeMap
    ensures forall t :: t in r ==> exists i :: 0 <= i < |fields| && fields[i].tag == t
    ensures forall i :: 0 <= i < |fields| && fields[i].tag !in TypeMap ==> fields[i].tag in r
  {
    if fields == [] then []
    else
      var rest := UnknownTags(fields[1..]);
      assert forall i :: 1 <= i < |fields| ==> fields[1..][i - 1] == fields[i];
      if fields[0].tag in TypeMap then rest else [fields[0].tag] + rest
  }

  /** `Schema.__init__`: fails listing every unknown tag, or stores the fields unchanged. */
  function NewSchema(fields: seq<Field>): (r: Result<Schema, SchemaError>)
    requires DistinctNames(fields)
    ensures r.Failure? <==> exists i :: 0 <= i < |fields| && fields[i].tag !in TypeMap
    ensures r.Failure? ==> r.error.unknown == UnknownTags(fields) && r.error.unknown != []
    ensures r.Success? ==> r.value.fields == fields && r.value.Valid()
  {
    var unknown := UnknownTags(fields);
    if unknown != [] then
      assert unknown[0] in unknown;
      Failure(UnknownFieldTypes(unknown))
    else
      Success(Schema(fields))
  }

  /** The error lists the unknown tags in field order: the comprehension
      distributes over concatenation of field lists. */
  lemma {:induction false} UnknownTagsAppend(a: seq<Field>, b: seq<Field>)
    ensures UnknownTags(a + b) == UnknownTags(a) + UnknownTags(b)
    decreases |a|
  {
    if a == [] {
      assert a + b == b;
    } else {
      assert (a + b)[1..] == a[1..] + b;
      UnknownTagsAppend(a[1..], b);
    }
  }

  /** A single field contributes its tag to the error exactly when it is unknown. */
  lemma UnknownTagsSingle(f: Field)
    ensures UnknownTags([f]) == if f.tag in TypeMap then [] else [f.tag]
  {
    assert [f][1..] == [];
  }

  /** The public constants are accepted tags, and every field list drawn from
      them constructs a schema. */
  lemma ConstantsAccepted(fields: seq<Field>)
    requires DistinctNames(fields)
    requires forall i :: 0 <= i < |fields| ==> fields[i].tag in {Str, F64, I64}
    ensures NewSchema(fields).Success?
    ensures TypeMap.Keys == {Str, F64, I64}
  {
  }

  /** `to_arrow` loses nothing: the declared fields are recovered from its output. */
  lemma ToArrowRoundTrip(s: Schema)
    requires s.Valid()
    ensures |s.ToArrow()| == |s.fields|
    ensures forall i :: 0 <= i < |s.fields| ==>
      Field(s.ToArrow()[i].name, TagOf(s.ToArrow()[i].typ)) == s.fields[i]
  {
  }

  /** Construction followed by `to_arrow` never fails on a constructed schema
      and gives one Arrow field per declared field, in order. */
  lemma ConstructThenToArrow(fields: seq<Field>)
    requires DistinctNames(fields)
    requires NewSchema(fields).Success?
    ensures |NewSchema(fields).value.ToArrow()| == |fields|
    ensures forall i :: 0 <= i < |fields| ==>
      NewSchema(fields).value.ToArrow()[i] == ArrowField(fields[i].name, TypeMap[fields[i].tag])
  {
  }

  /** The three-field schema of tests/schema.py maps to string, double, int64. */
  lemma TickSchemaExample()
    ensures NewSchema([Field("symbol", Str), Field("price", F64), Field("volume", I64)]).Success?
    ensures NewSchema([Field("symbol", Str), Field("price", F64), Field("volume", I64)]).value.ToArrow()
      == [ArrowField("symbol", Utf8), ArrowField("price", Float64), ArrowField("volume", Int64)]
  {
  }
}
