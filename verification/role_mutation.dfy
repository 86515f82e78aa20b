/** `RoleMutation`: the in-memory record of pending changes to a Role,
    with typed setters, the name-based `SetField`/`ClearField`/`ResetField`
    API, and the (empty) edge API. Time values are opaque integers. */
module RoleMutations {
  import opened Wrappers
  import opened Mutations

  const FieldCreatedAt := "created_at"
  const FieldUpdatedAt := "updated_at"
  const FieldName := "name"
  const FieldPermissions := "permissions"

  /** The Role columns in schema order. */
  const RoleColumns: seq<string> := [FieldCreatedAt, FieldUpdatedAt, FieldName, FieldPermissions]

  /** The Go type each Role column accepts. */
  function ColumnKind(name: string): (k: Option<Kind>)
    ensures k.Some? <==> name in RoleColumns
  {
    if name == FieldCreatedAt || name == FieldUpdatedAt then Some(TimeKind)
    else if name == FieldName then Some(StringKind)
    else if name == FieldPermissions then Some(StringsKind)
    else None
  }

  /** A pending Role change: `None` fields are untouched, `appended` holds
      pending appends to `permissions`, `cleared` the cleared-field marks. */
  datatype RoleMutation = RoleMutation(
    op: Op,
    id: Option<int>,
    hasOldValue: bool,
    createdAt: Option<int>,
    updatedAt: Option<int>,
    name: Option<string>,
    permissions: Option<seq<string>>,
    appended: seq<string>,
    cleared: set<string>)

  /** `newRoleMutation(c, op)`, with `withRoleID(id)` when an id is given
      (it sets the id and the old-row source together). */
  function NewRoleMutation(op: Op, id: Option<int>): (m: RoleMutation)
    ensures m.op == op && m.id == id && m.hasOldValue == id.Some?
    ensures forall f :: Field(m, f).None?
    ensures m.appended == [] && m.cleared == {}
  {
    RoleMutation(op, id, id.Some?, None, None, None, None, [], {})
  }

  /** `Field(name)`: the value set for a column in this mutation. */
  function Field(m: RoleMutation, name: string): (r: Option<Value>)
    ensures r.Some? ==> name in RoleColumns && ColumnKind(name) == Some(KindOf(r.value))
  {
    if name == FieldCreatedAt then (if m.createdAt.Some? then Some(TimeValue(m.createdAt.value)) else None)
    else if name == FieldUpdatedAt then (if m.updatedAt.Some? then Some(TimeValue(m.updatedAt.value)) else None)
    else if name == FieldName then (if m.name.Some? then Some(StringValue(m.name.value)) else None)
    else if name == FieldPermissions then (if m.permissions.Some? then Some(StringsValue(m.permissions.value)) else None)
    else None
  }

  /** The operation, id and old-row source are kept. */
  predicate SameFrame(m: RoleMutation, r: RoleMutation)
  {
    r.op == m.op && r.id == m.id && r.hasOldValue == m.hasOldValue
  }

  /** Every column other than `name` reads the same in `m` and `r`. */
  ghost predicate OthersUnchanged(m: RoleMutation, r: RoleMutation, name: string)
  {
    forall f :: f != name ==> Field(r, f) == Field(m, f)
  }

  /** `SetCreatedAt`. */
  function SetCreatedAt(m: RoleMutation, t: int): (r: RoleMutation)
    ensures Field(r, FieldCreatedAt) == Some(TimeValue(t))
    ensures OthersUnchanged(m, r, FieldCreatedAt) && SameFrame(m, r)
    ensures r.appended == m.appended && r.cleared == m.cleared
  {
    m.(createdAt := Some(t))
  }

  /** `ResetCreatedAt`. */
  function ResetCreatedAt(m: RoleMutation): (r: RoleMutation)
    ensures Field(r, FieldCreatedAt).None?
    ensures OthersUnchanged(m, r, FieldCreatedAt) && SameFrame(m, r)
    ensures r.appended == m.appended && r.cleared == m.cleared
  {
    m.(createdAt := None)
  }

  /** `SetUpdatedAt`. */
  function SetUpdatedAt(m: RoleMutation, t: int): (r: RoleMutation)
    ensures Field(r, FieldUpdatedAt) == Some(TimeValue(t))
    ensures OthersUnchanged(m, r, FieldUpdatedAt) && SameFrame(m, r)
    ensures r.appended == m.appended && r.cleared == m.cleared
  {
    m.(updatedAt := Some(t))
  }

  /** `ResetUpdatedAt`. */
  function ResetUpdatedAt(m: RoleMutation): (r: RoleMutation)
    ensures Field(r, FieldUpdatedAt).None?
    ensures OthersUnchanged(m, r, FieldUpdatedAt) && SameFrame(m, r)
    ensures r.appended == m.appended && r.cleared == m.cleared
  {
    m.(updatedAt := None)
  }

  /** `SetName`. */
  function SetName(m: RoleMutation, s: string): (r: RoleMutation)
    ensures Field(r, FieldName) == Some(StringValue(s))
    ensures OthersUnchanged(m, r, FieldName) && SameFrame(m, r)
    ensures r.appended == m.appended && r.cleared == m.cleared
  {
    m.(name := Some(s))
  }

  /** `ResetName`. */
  function ResetName(m: RoleMutation): (r: RoleMutation)
    ensures Field(r, FieldName).None?
    ensures OthersUnchanged(m, r, FieldName) && SameFrame(m, r)
    ensures r.appended == m.appended && r.cleared == m.cleared
  {
    m.(name := None)
  }

  /** `SetPermissions`: stores the list and drops pending appends; the
      cleared mark is left as it was. */
  function SetPermissions(m: RoleMutation, s: seq<string>): (r: RoleMutation)
    ensures Field(r, FieldPermissions) == Some(StringsValue(s))
    ensures AppendedPermissions(r).None?
    ensures PermissionsCleared(r) == PermissionsCleared(m) && r.cleared == m.cleared
    ensures OthersUnchanged(m, r, FieldPermissions) && SameFrame(m, r)
  {
    m.(permissions := Some(s), appended := [])
  }

  /** `AppendPermissions`: adds to the pending appends, after those
      already there; the stored list and the mark are untouched. */
  function AppendPermissions(m: RoleMutation, s: seq<string>): (r: RoleMutation)
    ensures r.appended == m.appended + s
    ensures forall f :: Field(r, f) == Field(m, f)
    ensures r.cleared == m.cleared && SameFrame(m, r)
  {
    m.(appended := m.appended + s)
  }

  /** `AppendedPermissions`: the pending appends, or `(nil, false)` when
      there are none. */
  function AppendedPermissions(m: RoleMutation): (r: Option<seq<string>>)
    ensures r.None? <==> |m.appended| == 0
    ensures r.Some? ==> r.value == m.appended
  {
    if |m.appended| == 0 then None else Some(m.appended)
  }

  /** `PermissionsCleared`: the typed accessor agrees with the name-based
      `FieldCleared` and with the `ClearedFields` listing. */
  predicate PermissionsCleared(m: RoleMutation)
    ensures PermissionsCleared(m) == FieldCleared(m, FieldPermissions)
    ensures PermissionsCleared(m) <==> FieldPermissions in ClearedFields(m)
  {
    FieldPermissions in m.cleared
  }

  /** `ClearPermissions`: drops the list and the appends and marks the
      column cleared. */
  function ClearPermissions(m: RoleMutation): (r: RoleMutation)
    ensures Field(r, FieldPermissions).None? && AppendedPermissions(r).None?
    ensures PermissionsCleared(r) && r.cleared == m.cleared + {FieldPermissions}
    ensures OthersUnchanged(m, r, FieldPermissions) && SameFrame(m, r)
  {
    m.(permissions := None, appended := [], cleared := m.cleared + {FieldPermissions})
  }

  /** `ResetPermissions`: drops the list, the appends and the mark. */
  function ResetPermissions(m: RoleMutation): (r: RoleMutation)
    ensures Field(r, FieldPermissions).None? && AppendedPermissions(r).None?
    ensures !PermissionsCleared(r) && r.cleared == m.cleared - {FieldPermissions}
    ensures OthersUnchanged(m, r, FieldPermissions) && SameFrame(m, r)
  {
    m.(permissions := None, appended := [], cleared := m.cleared - {FieldPermissions})
  }

  /** `Fields`: the columns set in this mutation, each once, in schema
      order. */
  function Fields(m: RoleMutation): (r: seq<string>)
    ensures |r| <= 4
    ensures forall f :: f in r <==> Field(m, f).Some?
    ensures Distinct(r) && InSchemaOrder(RoleColumns, r)
  {
    SetFields(RoleColumns, f => Field(m, f).Some?)
  }

  /** `SetField(name, value)`: the typed setter for a known column and a
      value of its type; otherwise an error and no change. */
  function SetField(m: RoleMutation, name: string, v: Value): (r: Applied<RoleMutation>)
    ensures r.err.None? <==> ColumnKind(name) == Some(KindOf(v))
    ensures r.err.Some? ==> r.m == m
    ensures name !in RoleColumns ==> r.err == Some(UnknownField("Role", name))
    ensures name in RoleColumns && ColumnKind(name) != Some(KindOf(v)) ==> r.err == Some(UnexpectedType(name))
    ensures r.err.None? ==> Field(r.m, name) == Some(v) && OthersUnchanged(m, r.m, name)
    ensures name == FieldCreatedAt && v.TimeValue? ==> r.m == SetCreatedAt(m, v.t)
    ensures name == FieldUpdatedAt && v.TimeValue? ==> r.m == SetUpdatedAt(m, v.t)
    ensures name == FieldName && v.StringValue? ==> r.m == SetName(m, v.s)
    ensures name == FieldPermissions && v.StringsValue? ==> r.m == SetPermissions(m, v.ss)
  {
    if name == FieldCreatedAt then
      if v.TimeValue? then Applied(SetCreatedAt(m, v.t), None) else Applied(m, Some(UnexpectedType(name)))
    else if name == FieldUpdatedAt then
      if v.TimeValue? then Applied(SetUpdatedAt(m, v.t), None) else Applied(m, Some(UnexpectedType(name)))
    else if name == FieldName then
      if v.StringValue? then Applied(SetName(m, v.s), None) else Applied(m, Some(UnexpectedType(name)))
    else if name == FieldPermissions then
      if v.StringsValue? then Applied(SetPermissions(m, v.ss), None) else Applied(m, Some(UnexpectedType(name)))
    else Applied(m, Some(UnknownField("Role", name)))
  }

  /** `FieldCleared(name)`: whether the column carries the cleared mark.
      While the marks stay within the nullable columns (as they do for
      every mutation the builders reach, `ReplayKeepsMarksValid`), only
      `permissions` can be reported. */
  predicate FieldCleared(m: RoleMutation, name: string)
    ensures FieldCleared(m, name) && m.cleared <= {FieldPermissions} ==> name == FieldPermissions
  {
    name in m.cleared
  }

  /** `ClearedFields`: `permissions` when it carries the cleared mark, the
      only nullable Role column. */
  function ClearedFields(m: RoleMutation): (r: seq<string>)
    ensures |r| <= 1
    ensures forall f :: f in r <==> f == FieldPermissions && FieldCleared(m, f)
  {
    if FieldCleared(m, FieldPermissions) then [FieldPermissions] else []
  }

  /** `ClearField(name)`: only `permissions` can be cleared. */
  function ClearField(m: RoleMutation, name: string): (r: Applied<RoleMutation>)
    ensures r.err.None? <==> name == FieldPermissions
    ensures r.err.None? ==> r.m == ClearPermissions(m)
    ensures r.err.Some? ==> r.m == m && r.err == Some(UnknownNullableField("Role", name))
  {
    if name == FieldPermissions then Applied(ClearPermissions(m), None)
    else Applied(m, Some(UnknownNullableField("Role", name)))
  }

  /** `ResetField(name)`: undo every change to a known column. */
  function ResetField(m: RoleMutation, name: string): (r: Applied<RoleMutation>)
    ensures r.err.None? <==> name in RoleColumns
    ensures r.err.Some? ==> r.m == m && r.err == Some(UnknownField("Role", name))
    ensures r.err.None? ==> Field(r.m, name).None? && OthersUnchanged(m, r.m, name) && SameFrame(m, r.m)
    ensures r.err.None? && name == FieldPermissions ==> r.m == ResetPermissions(m)
    ensures r.err.None? && name != FieldPermissions ==> r.m.appended == m.appended && r.m.cleared == m.cleared
  {
    if name == FieldCreatedAt then Applied(ResetCreatedAt(m), None)
    else if name == FieldUpdatedAt then Applied(ResetUpdatedAt(m), None)
    else if name == FieldName then Applied(ResetName(m), None)
    else if name == FieldPermissions then Applied(ResetPermissions(m), None)
    else Applied(m, Some(UnknownField("Role", name)))
  }

  /** The `Old*` accessor behind each column. */
  function OldAccessor(name: string): string
  {
    if name == FieldCreatedAt then "OldCreatedAt"
    else if name == FieldUpdatedAt then "OldUpdatedAt"
    else if name == FieldName then "OldName"
    else "OldPermissions"
  }

  /** `OldField(name)` up to the database read: an unknown column is an
      error; a known one passes the accessor's guard (`Success(name)`,
      after which the old row is read) or fails it. */
  function OldField(m: RoleMutation, name: string): (r: Result<string, MutationError>)
    ensures name !in RoleColumns ==> r == Failure(UnknownField("Role", name))
    ensures name in RoleColumns ==>
      (r.Success? <==> Is(m.op, OpUpdateOne) && m.id.Some? && m.hasOldValue)
    ensures r.Success? ==> r.value == name
  {
    if name !in RoleColumns then Failure(UnknownField("Role", name))
    else
      match OldValueGuard(m.op, m.id.Some?, m.hasOldValue, OldAccessor(name))
      case Some(e) => Failure(e)
      case None => Success(name)
  }

  /** `ClearEdge(name)`: a Role has no edges, so every name is unknown. */
  function ClearEdge(m: RoleMutation, name: string): (r: Applied<RoleMutation>)
    ensures r.m == m && r.err == Some(UnknownUniqueEdge("Role", name))
  {
    Applied(m, Some(UnknownUniqueEdge("Role", name)))
  }

  /** `ResetEdge(name)`: every name is unknown. */
  function ResetEdge(m: RoleMutation, name: string): (r: Applied<RoleMutation>)
    ensures r.m == m && r.err == Some(UnknownEdge("Role", name))
  {
    Applied(m, Some(UnknownEdge("Role", name)))
  }

  /** A call on the mutation through its public API. */
  datatype RoleCall =
    | SetFieldCall(name: string, v: Value)
    | AppendPermissionsCall(s: seq<string>)
    | ClearFieldCall(name: string)
    | ResetFieldCall(name: string)
    | SetOpCall(op: Op)

  /** The mutation after one call. */
  function Step(m: RoleMutation, c: RoleCall): RoleMutation
  {
    match c
    case SetFieldCall(name, v) => SetField(m, name, v).m
    case AppendPermissionsCall(s) => AppendPermissions(m, s)
    case ClearFieldCall(name) => ClearField(m, name).m
    case ResetFieldCall(name) => ResetField(m, name).m
    case SetOpCall(op) => m.(op := op)
  }

  /** The mutation after a sequence of calls. */
  function Replay(m: RoleMutation, calls: seq<RoleCall>): RoleMutation
    decreases |calls|
  {
    if |calls| == 0 then m else Replay(Step(m, calls[0]), calls[1..])
  }

  /** The only column that can carry a cleared mark is `permissions`. */
  ghost predicate MarksValid(m: RoleMutation)
  {
    m.cleared <= {FieldPermissions}
  }

  /** No sequence of calls marks any column but `permissions` cleared. */
  lemma {:induction false} ReplayKeepsMarksValid(m: RoleMutation, calls: seq<RoleCall>)
    requires MarksValid(m)
    ensures MarksValid(Replay(m, calls))
    decreases |calls|
  {
    if |calls| > 0 {
      ReplayKeepsMarksValid(Step(m, calls[0]), calls[1..]);
    }
  }

  /** For every mutation reachable from a fresh one, `ClearedFields` lists
      exactly the columns `FieldCleared` reports. */
  lemma ClearedFieldsExact(op: Op, id: Option<int>, calls: seq<RoleCall>)
    ensures var m := Replay(NewRoleMutation(op, id), calls);
      forall f :: f in ClearedFields(m) <==> FieldCleared(m, f)
  {
    ReplayKeepsMarksValid(NewRoleMutation(op, id), calls);
  }

  /** Setting a column through `SetField` and reading it back through
      `Field` returns the value set; `ResetField` makes it read as unset and
      drops it from `Fields`. */
  lemma SetThenReset(m: RoleMutation, name: string, v: Value)
    requires ColumnKind(name) == Some(KindOf(v))
    ensures Field(SetField(m, name, v).m, name) == Some(v)
    ensures name in Fields(SetField(m, name, v).m)
    ensures name !in Fields(ResetField(SetField(m, name, v).m, name).m)
  {
  }
}
