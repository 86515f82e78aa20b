/** What the generated Role and User mutation builders share: operation
    kinds, dynamically typed field values, the errors of the name-based
    API, the guard of the `Old*` accessors, and the schema-ordered listing
    of set fields. */
module Mutations {
  import opened Wrappers

  /** An operation kind; the entity framework encodes kinds as bits of a
      set (`1 << iota`), and `SetOp` may store any combination. */
  type Op = bv8

  const OpCreate: Op := 1
  const OpUpdate: Op := 2
  const OpUpdateOne: Op := 4
  const OpDelete: Op := 8
  const OpDeleteOne: Op := 16

  /** `op.Is(o)`: the two share a bit. */
  predicate Is(op: Op, o: Op)
  {
    op & o != 0
  }

  /** A UUID as its bytes; the contents, and the 16-byte length, are not
      interpreted by the mutation builders. */
  datatype Uuid = Uuid(bytes: seq<bv8>)

  /** An `ent.Value`: the dynamic value handed to `SetField` or returned by
      `Field`, one variant per Go type the schema uses. */
  datatype Value =
    | TimeValue(t: int)
    | StringValue(s: string)
    | StringsValue(ss: seq<string>)
    | BytesValue(b: seq<bv8>)
    | UuidValue(u: Uuid)
    | IntValue(i: int)

  /** The Go types of the schema's fields. */
  datatype Kind = TimeKind | StringKind | StringsKind | BytesKind | UuidKind | IntKind

  /** The Go type of a dynamic value. */
  function KindOf(v: Value): Kind
  {
    match v
    case TimeValue(_) => TimeKind
    case StringValue(_) => StringKind
    case StringsValue(_) => StringsKind
    case BytesValue(_) => BytesKind
    case UuidValue(_) => UuidKind
    case IntValue(_) => IntKind
  }

  /** The errors the mutation API returns. */
  datatype MutationError =
    | UnexpectedType(field: string)
    | UnknownField(entity: string, name: string)
    | UnknownNullableField(entity: string, name: string)
    | UnknownUniqueEdge(entity: string, name: string)
    | UnknownEdge(entity: string, name: string)
    | OnlyOnUpdateOne(accessor: string)
    | RequiresId(accessor: string)

  /** The state after a mutating call, with the error it returned. */
  datatype Applied<M> = Applied(m: M, err: Option<MutationError>)

  /** The guard at the top of every `Old*` accessor: it only runs on an
      UpdateOne operation that knows its id and has a source for the old
      row. `None` means the old row is then fetched. */
  function OldValueGuard(op: Op, hasId: bool, hasOldValue: bool, accessor: string): (r: Option<MutationError>)
    ensures r.None? <==> Is(op, OpUpdateOne) && hasId && hasOldValue
    ensures !Is(op, OpUpdateOne) ==> r == Some(OnlyOnUpdateOne(accessor))
    ensures Is(op, OpUpdateOne) && !(hasId && hasOldValue) ==> r == Some(RequiresId(accessor))
  {
    if !Is(op, OpUpdateOne) then Some(OnlyOnUpdateOne(accessor))
    else if !hasId || !hasOldValue then Some(RequiresId(accessor))
    else None
  }

  /** No name occurs twice. */
  predicate Distinct(xs: seq<string>)
  {
    forall i, j :: 0 <= i < j < |xs| ==> xs[i] != xs[j]
  }

  /** Position of `x` in `xs`, or -1. */
  function IndexOf(xs: seq<string>, x: string): (k: int)
    ensures x in xs ==> 0 <= k < |xs| && xs[k] == x
    ensures x !in xs ==> k == -1
    ensures Distinct(xs) && x in xs ==> forall i :: 0 <= i < |xs| && xs[i] == x ==> i == k
  {
    if |xs| == 0 then -1
    else if xs[0] == x then 0
    else
      var k := IndexOf(xs[1..], x);
      if k < 0 then -1 else k + 1
  }

  /** The elements of `r` occur in `schema`, in `schema`'s order. */
  predicate InSchemaOrder(schema: seq<string>, r: seq<string>)
  {
    forall i, j :: 0 <= i < j < |r| ==> IndexOf(schema, r[i]) < IndexOf(schema, r[j])
  }

  /** The names of `schema` that satisfy `isSet`, in schema order: what
      the generated `Fields` methods compute with one `if` per field. */
  function SetFields(schema: seq<string>, isSet: string -> bool): (r: seq<string>)
    requires Distinct(schema)
    ensures |r| <= |schema|
    ensures forall x :: x in r <==> x in schema && isSet(x)
    ensures InSchemaOrder(schema, r)
    ensures Distinct(r)
  {
    if |schema| == 0 then []
    else
      var rest := SetFields(schema[1..], isSet);
      assert forall i :: 0 <= i < |rest| ==> rest[i] in schema[1..];
      IndexOfTail(schema, rest);
      if isSet(schema[0]) then
        assert forall i :: 0 <= i < |rest| ==> rest[i] != schema[0];
        [schema[0]] + rest
      else rest
  }

  /** The listing depends only on which schema names are set, not on how
      that is decided. */
  lemma {:induction false} SetFieldsCongruent(schema: seq<string>, p: string -> bool, q: string -> bool)
    requires Distinct(schema)
    requires forall i :: 0 <= i < |schema| ==> p(schema[i]) == q(schema[i])
    ensures SetFields(schema, p) == SetFields(schema, q)
  {
    if |schema| > 0 {
      assert Distinct(schema[1..]);
      SetFieldsCongruent(schema[1..], p, q);
    }
  }

  /** Dropping the head of a duplicate-free schema shifts every index in
      the tail by one. */
  lemma IndexOfTail(schema: seq<string>, rest: seq<string>)
    requires |schema| > 0 && Distinct(schema)
    requires forall i :: 0 <= i < |rest| ==> rest[i] in schema[1..]
    requires InSchemaOrder(schema[1..], rest)
    ensures forall i :: 0 <= i < |rest| ==> rest[i] != schema[0] && IndexOf(schema, rest[i]) >= 1
    ensures InSchemaOrder(schema, rest)
  {
    forall i | 0 <= i < |rest|
      ensures rest[i] != schema[0] && IndexOf(schema, rest[i]) == IndexOf(schema[1..], rest[i]) + 1
    {
      var k :| 0 <= k < |schema[1..]| && schema[1..][k] == rest[i];
      assert schema[k + 1] == rest[i];
    }
  }
}
