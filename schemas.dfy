/** The part of the pipeline host's record schema that the face extractor
    consults: the type of a schema, its logical type, nullable unions and
    field lookup in a record schema. */
module Schemas {
  import opened Wrappers

  /** The schema types of the host, in its own order. */
  datatype SchemaType =
    | NullType | BooleanType | IntType | LongType | FloatType | DoubleType | BytesType | StringType
    | EnumType | ArrayType | MapType | RecordType | UnionType
  {
    /** The first eight types are the host's simple types. */
    predicate IsSimple() {
      !(EnumType? || ArrayType? || MapType? || RecordType? || UnionType?)
    }
  }

  type SimpleType = t: SchemaType | t.IsSimple() witness NullType

  /** Logical types annotate a simple physical type (a date is an int, a decimal is bytes). */
  datatype LogicalType =
    | Date | TimeMillis | TimeMicros | TimestampMillis | TimestampMicros | Datetime
    | Decimal(precision: nat, scale: nat)

  datatype Schema =
    | Simple(physical: SimpleType, logicalType: Option<LogicalType>)
    | EnumOf(symbols: seq<string>)
    | ArrayOf(component: Schema)
    | MapOf(keys: Schema, values: Schema)
    | RecordOf(recordName: string, fields: seq<Field>)
    | UnionOf(branches: seq<Schema>)

  datatype Field = Field(name: string, schema: Schema)

  /** `getType()`. */
  function TypeOf(s: Schema): (t: SchemaType)
    ensures t.IsSimple() <==> s.Simple?
  {
    match s
    case Simple(p, _) => p
    case EnumOf(_) => EnumType
    case ArrayOf(_) => ArrayType
    case MapOf(_, _) => MapType
    case RecordOf(_, _) => RecordType
    case UnionOf(_) => UnionType
  }

  /** `getLogicalType()`: only simple schemas carry one. */
  function LogicalTypeOf(s: Schema): Option<LogicalType> {
    if s.Simple? then s.logicalType else None
  }

  /** `Schema.of(t)`. */
  function Of(t: SimpleType): (s: Schema)
    ensures TypeOf(s) == t && LogicalTypeOf(s) == None
  {
    Simple(t, None)
  }

  /** `Schema.nullableOf(s)`: the union of `s` and the null schema. */
  function NullableOf(s: Schema): Schema {
    UnionOf([s, Of(NullType)])
  }

  /** `isNullable()`: a union of exactly two branches, one of them null. */
  predicate IsNullable(s: Schema) {
    s.UnionOf? && |s.branches| == 2
    && (TypeOf(s.branches[0]) == NullType || TypeOf(s.branches[1]) == NullType)
  }

  /** `getNonNullable()` of a nullable union: its first branch unless that one is null. */
  function NonNullable(s: Schema): (r: Schema)
    requires IsNullable(s)
    ensures r in s.branches
  {
    if TypeOf(s.branches[0]) == NullType then s.branches[1] else s.branches[0]
  }

  /** The schema with a nullable wrapper removed, as both validators compute it. */
  function Unwrap(s: Schema): Schema {
    if IsNullable(s) then NonNullable(s) else s
  }

  /** `isSimpleOrNullableSimple()`. */
  predicate IsSimpleOrNullableSimple(s: Schema) {
    TypeOf(s).IsSimple() || (IsNullable(s) && TypeOf(NonNullable(s)).IsSimple())
  }

  /** `getField(name)`: the field of that name in a record schema; a null name
      or a schema that is not a record has none. */
  function GetField(s: Schema, name: Option<string>): (r: Option<Field>)
    ensures r.Some? ==> s.RecordOf? && name == Some(r.value.name) && r.value in s.fields
    ensures r.None? <==> !s.RecordOf? || name.None? || forall f :: f in s.fields ==> f.name != name.value
  {
    if s.RecordOf? && name.Some? then FindField(s.fields, name.value) else None
  }

  function FindField(fields: seq<Field>, name: string): (r: Option<Field>)
    ensures r.Some? ==> r.value.name == name && r.value in fields
    ensures r.None? <==> forall f :: f in fields ==> f.name != name
  {
    if fields == [] then None
    else if fields[0].name == name then Some(fields[0])
    else FindField(fields[1..], name)
  }

  /** The field found is the first one bearing the name. */
  lemma {:induction false} FindFieldFirst(fields: seq<Field>, name: string, k: nat)
    requires k < |fields| && fields[k].name == name
    requires forall j :: 0 <= j < k ==> fields[j].name != name
    ensures FindField(fields, name) == Some(fields[k])
  {
    if k > 0 {
      FindFieldFirst(fields[1..], name, k - 1);
    }
  }

  lemma UnwrapNullableOf(s: Schema)
    requires TypeOf(s) != NullType
    ensures IsNullable(NullableOf(s)) && Unwrap(NullableOf(s)) == s
  {
  }
}
