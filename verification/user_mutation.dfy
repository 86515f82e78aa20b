/** `UserMutation`: the in-memory record of pending changes to a User,
    including the unique `role` edge, whose id doubles as the `role_id`
    column. Time values are opaque integers. */
module UserMutations {
  import opened Wrappers
  import opened Mutations

  const FieldUuid := "uuid"
  const FieldCreatedAt := "created_at"
  const FieldUpdatedAt := "updated_at"
  const FieldEmail := "email"
  const FieldPassword := "password"
  const FieldPfp := "pfp"
  const FieldName := "name"
  const FieldRoleId := "role_id"

  /** The name of the unique edge to the user's Role. */
  const EdgeRole := "role"

  /** The User columns in schema order. */
  const UserColumns: seq<string> :=
    [FieldUuid, FieldCreatedAt, FieldUpdatedAt, FieldEmail, FieldPassword, FieldPfp, FieldName, FieldRoleId]

  /** The Go type each User column accepts. */
  function ColumnKind(name: string): (k: Option<Kind>)
    ensures k.Some? <==> name in UserColumns
  {
    if name == FieldUuid then Some(UuidKind)
    else if name == FieldCreatedAt || name == FieldUpdatedAt then Some(TimeKind)
    else if name == FieldEmail || name == FieldPassword || name == FieldName then Some(StringKind)
    else if name == FieldPfp then Some(BytesKind)
    else if name == FieldRoleId then Some(IntKind)
    else None
  }

  /** A pending User change: `None` fields are untouched; `role` is the
      role id set, `roleCleared` the edge-cleared flag. */
  datatype UserMutation = UserMutation(
    op: Op,
    id: Option<int>,
    hasOldValue: bool,
    uuid: Option<Uuid>,
    createdAt: Option<int>,
    updatedAt: Option<int>,
    email: Option<string>,
    password: Option<string>,
    pfp: Option<seq<bv8>>,
    name: Option<string>,
    role: Option<int>,
    roleCleared: bool)

  /** `newUserMutation(c, op)`, with `withUserID(id)` when an id is given. */
  function NewUserMutation(op: Op, id: Option<int>): (m: UserMutation)
    ensures m.op == op && m.id == id && m.hasOldValue == id.Some?
    ensures forall f :: Field(m, f).None?
    ensures !RoleCleared(m)
  {
    UserMutation(op, id, id.Some?, None, None, None, None, None, None, None, None, false)
  }

  /** `Field(name)`: the value set for a column in this mutation. */
  function Field(m: UserMutation, name: string): (r: Option<Value>)
    ensures r.Some? ==> name in UserColumns && ColumnKind(name) == Some(KindOf(r.value))
  {
    if name == FieldUuid then (if m.uuid.Some? then Some(UuidValue(m.uuid.value)) else None)
    else if name == FieldCreatedAt then (if m.createdAt.Some? then Some(TimeValue(m.createdAt.value)) else None)
    else if name == FieldUpdatedAt then (if m.updatedAt.Some? then Some(TimeValue(m.updatedAt.value)) else None)
    else if name == FieldEmail then (if m.email.Some? then Some(StringValue(m.email.value)) else None)
    else if name == FieldPassword then (if m.password.Some? then Some(StringValue(m.password.value)) else None)
    else if name == FieldPfp then (if m.pfp.Some? then Some(BytesValue(m.pfp.value)) else None)
    else if name == FieldName then (if m.name.Some? then Some(StringValue(m.name.value)) else None)
    else if name == FieldRoleId then (if m.role.Some? then Some(IntValue(m.role.value)) else None)
    else None
  }

  /** Every column other than `name` reads the same in `m` and `r`, and
      the operation, id, old-row source and role-cleared flag are kept. */
  ghost predicate OnlyChanges(m: UserMutation, r: UserMutation, name: string)
  {
    && (forall f :: f != name ==> Field(r, f) == Field(m, f))
    && r.op == m.op && r.id == m.id && r.hasOldValue == m.hasOldValue
    && r.roleCleared == m.roleCleared
  }

  /** `SetUUID`. */
  function SetUuid(m: UserMutation, u: Uuid): (r: UserMutation)
    ensures Field(r, FieldUuid) == Some(UuidValue(u)) && OnlyChanges(m, r, FieldUuid)
  {
    m.(uuid := Some(u))
  }

  /** `ResetUUID`. */
  function ResetUuid(m: UserMutation): (r: UserMutation)
    ensures Field(r, FieldUuid).None? && OnlyChanges(m, r, FieldUuid)
  {
    m.(uuid := None)
  }

  /** `SetCreatedAt`. */
  function SetCreatedAt(m: UserMutation, t: int): (r: UserMutation)
    ensures Field(r, FieldCreatedAt) == Some(TimeValue(t)) && OnlyChanges(m, r, FieldCreatedAt)
  {
    m.(createdAt := Some(t))
  }

  /** `ResetCreatedAt`. */
  function ResetCreatedAt(m: UserMutation): (r: UserMutation)
    ensures Field(r, FieldCreatedAt).None? && OnlyChanges(m, r, FieldCreatedAt)
  {
    m.(createdAt := None)
  }

  /** `SetUpdatedAt`. */
  function SetUpdatedAt(m: UserMutation, t: int): (r: UserMutation)
    ensures Field(r, FieldUpdatedAt) == Some(TimeValue(t)) && OnlyChanges(m, r, FieldUpdatedAt)
  {
    m.(updatedAt := Some(t))
  }

  /** `ResetUpdatedAt`. */
  function ResetUpdatedAt(m: UserMutation): (r: UserMutation)
    ensures Field(r, FieldUpdatedAt).None? && OnlyChanges(m, r, FieldUpdatedAt)
  {
    m.(updatedAt := None)
  }

  /** `SetEmail`. */
  function SetEmail(m: UserMutation, s: string): (r: UserMutation)
    ensures Field(r, FieldEmail) == Some(StringValue(s)) && OnlyChanges(m, r, FieldEmail)
  {
    m.(email := Some(s))
  }

  /** `ResetEmail`. */
  function ResetEmail(m: UserMutation): (r: UserMutation)
    ensures Field(r, FieldEmail).None? && OnlyChanges(m, r, FieldEmail)
  {
    m.(email := None)
  }

  /** `SetPassword`. */
  function SetPassword(m: UserMutation, s: string): (r: UserMutation)
    ensures Field(r, FieldPassword) == Some(StringValue(s)) && OnlyChanges(m, r, FieldPassword)
  {
    m.(password := Some(s))
  }

  /** `ResetPassword`. */
  function ResetPassword(m: UserMutation): (r: UserMutation)
    ensures Field(r, FieldPassword).None? && OnlyChanges(m, r, FieldPassword)
  {
    m.(password := None)
  }

  /** `SetPfp`. */
  function SetPfp(m: UserMutation, b: seq<bv8>): (r: UserMutation)
    ensures Field(r, FieldPfp) == Some(BytesValue(b)) && OnlyChanges(m, r, FieldPfp)
  {
    m.(pfp := Some(b))
  }

  /** `ResetPfp`. */
  function ResetPfp(m: UserMutation): (r: UserMutation)
    ensures Field(r, FieldPfp).None? && OnlyChanges(m, r, FieldPfp)
  {
    m.(pfp := None)
  }

  /** `SetName`. */
  function SetName(m: UserMutation, s: string): (r: UserMutation)
    ensures Field(r, FieldName) == Some(StringValue(s)) && OnlyChanges(m, r, FieldName)
  {
    m.(name := Some(s))
  }

  /** `ResetName`. */
  function ResetName(m: UserMutation): (r: UserMutation)
    ensures Field(r, FieldName).None? && OnlyChanges(m, r, FieldName)
  {
    m.(name := None)
  }

  /** `SetRoleID`: sets the role id (the `role_id` column and the edge). */
  function SetRoleId(m: UserMutation, i: int): (r: UserMutation)
    ensures Field(r, FieldRoleId) == Some(IntValue(i)) && OnlyChanges(m, r, FieldRoleId)
    ensures RoleIds(r) == [i]
  {
    m.(role := Some(i))
  }

  /** `ResetRoleID`: drops the role id; the edge-cleared flag stays. */
  function ResetRoleId(m: UserMutation): (r: UserMutation)
    ensures Field(r, FieldRoleId).None? && OnlyChanges(m, r, FieldRoleId)
    ensures RoleIds(r) == [] && RoleCleared(r) == RoleCleared(m)
  {
    m.(role := None)
  }

  /** `ClearRole`: raises the edge-cleared flag and nothing else; a role id
      already set stays set. */
  function ClearRole(m: UserMutation): (r: UserMutation)
    ensures RoleCleared(r)
    ensures forall f :: Field(r, f) == Field(m, f)
    ensures RoleIds(r) == RoleIds(m)
    ensures r.op == m.op && r.id == m.id && r.hasOldValue == m.hasOldValue
  {
    m.(roleCleared := true)
  }

  /** `RoleCleared`: the typed accessor agrees with the name-based
      `EdgeCleared`. */
  predicate RoleCleared(m: UserMutation)
    ensures RoleCleared(m) == EdgeCleared(m, EdgeRole)
  {
    m.roleCleared
  }

  /** `RoleIDs`: the role id as a list, empty when none is set. */
  function RoleIds(m: UserMutation): (ids: seq<int>)
    ensures |ids| <= 1
    ensures forall id :: ids == [id] <==> m.role == Some(id)
    ensures ids == [] <==> m.role.None?
  {
    if m.role.Some? then [m.role.value] else []
  }

  /** `ResetRole`: drops both the role id and the edge-cleared flag. */
  function ResetRole(m: UserMutation): (r: UserMutation)
    ensures RoleIds(r) == [] && !RoleCleared(r)
    ensures AddedEdges(r) == [] && ClearedEdges(r) == []
    ensures forall f :: f != FieldRoleId ==> Field(r, f) == Field(m, f)
    ensures r.op == m.op && r.id == m.id && r.hasOldValue == m.hasOldValue
  {
    m.(role := None, roleCleared := false)
  }

  /** `Fields`: the columns set in this mutation, each once, in schema
      order. */
  function Fields(m: UserMutation): (r: seq<string>)
    ensures |r| <= 8
    ensures forall f :: f in r <==> Field(m, f).Some?
    ensures Distinct(r) && InSchemaOrder(UserColumns, r)
  {
    SetFields(UserColumns, f => Field(m, f).Some?)
  }

  /** `SetField(name, value)`: the typed setter for a known column and a
      value of its type; otherwise an error and no change. */
  function SetField(m: UserMutation, name: string, v: Value): (r: Applied<UserMutation>)
    ensures r.err.None? <==> ColumnKind(name) == Some(KindOf(v))
    ensures r.err.Some? ==> r.m == m
    ensures name !in UserColumns ==> r.err == Some(UnknownField("User", name))
    ensures name in UserColumns && ColumnKind(name) != Some(KindOf(v)) ==> r.err == Some(UnexpectedType(name))
    ensures r.err.None? ==> Field(r.m, name) == Some(v) && OnlyChanges(m, r.m, name)
    ensures name == FieldUuid && v.UuidValue? ==> r.m == SetUuid(m, v.u)
    ensures name == FieldCreatedAt && v.TimeValue? ==> r.m == SetCreatedAt(m, v.t)
    ensures name == FieldUpdatedAt && v.TimeValue? ==> r.m == SetUpdatedAt(m, v.t)
    ensures name == FieldEmail && v.StringValue? ==> r.m == SetEmail(m, v.s)
    ensures name == FieldPassword && v.StringValue? ==> r.m == SetPassword(m, v.s)
    ensures name == FieldPfp && v.BytesValue? ==> r.m == SetPfp(m, v.b)
    ensures name == FieldName && v.StringValue? ==> r.m == SetName(m, v.s)
    ensures name == FieldRoleId && v.IntValue? ==> r.m == SetRoleId(m, v.i)
  {
    if name == FieldUuid then
      if v.UuidValue? then Applied(SetUuid(m, v.u), None) else Applied(m, Some(UnexpectedType(name)))
    else if name == FieldCreatedAt then
      if v.TimeValue? then Applied(SetCreatedAt(m, v.t), None) else Applied(m, Some(UnexpectedType(name)))
    else if name == FieldUpdatedAt then
      if v.TimeValue? then Applied(SetUpdatedAt(m, v.t), None) else Applied(m, Some(UnexpectedType(name)))
    else if name == FieldEmail then
      if v.StringValue? then Applied(SetEmail(m, v.s), None) else Applied(m, Some(UnexpectedType(name)))
    else if name == FieldPassword then
      if v.StringValue? then Applied(SetPassword(m, v.s), None) else Applied(m, Some(UnexpectedType(name)))
    else if name == FieldPfp then
      if v.BytesValue? then Applied(SetPfp(m, v.b), None) else Applied(m, Some(UnexpectedType(name)))
    else if name == FieldName then
      if v.StringValue? then Applied(SetName(m, v.s), None) else Applied(m, Some(UnexpectedType(name)))
    else if name == FieldRoleId then
      if v.IntValue? then Applied(SetRoleId(m, v.i), None) else Applied(m, Some(UnexpectedType(name)))
    else Applied(m, Some(UnknownField("User", name)))
  }

  /** `ClearedFields`: a User has no nullable column, so nothing is ever
      reported cleared. */
  function ClearedFields(m: UserMutation): (r: seq<string>)
    ensures r == []
  {
    []
  }

  /** `FieldCleared(name)`: the cleared-field set is never written for a
      User, so no column ever reads as cleared. */
  predicate FieldCleared(m: UserMutation, name: string)
    ensures !FieldCleared(m, name)
  {
    false
  }

  /** `ClearField(name)`: always an error, and no change. */
  function ClearField(m: UserMutation, name: string): (r: Applied<UserMutation>)
    ensures r.m == m && r.err == Some(UnknownNullableField("User", name))
  {
    Applied(m, Some(UnknownNullableField("User", name)))
  }

  /** `ResetField(name)`: undo every change to a known column; for
      `role_id` that is the id only, not the edge-cleared flag. */
  function ResetField(m: UserMutation, name: string): (r: Applied<UserMutation>)
    ensures r.err.None? <==> name in UserColumns
    ensures r.err.Some? ==> r.m == m && r.err == Some(UnknownField("User", name))
    ensures r.err.None? ==> Field(r.m, name).None? && OnlyChanges(m, r.m, name)
    ensures name == FieldRoleId ==> r.m == ResetRoleId(m)
  {
    if name == FieldUuid then Applied(ResetUuid(m), None)
    else if name == FieldCreatedAt then Applied(ResetCreatedAt(m), None)
    else if name == FieldUpdatedAt then Applied(ResetUpdatedAt(m), None)
    else if name == FieldEmail then Applied(ResetEmail(m), None)
    else if name == FieldPassword then Applied(ResetPassword(m), None)
    else if name == FieldPfp then Applied(ResetPfp(m), None)
    else if name == FieldName then Applied(ResetName(m), None)
    else if name == FieldRoleId then Applied(ResetRoleId(m), None)
    else Applied(m, Some(UnknownField("User", name)))
  }

  /** The `Old*` accessor behind each column. */
  function OldAccessor(name: string): string
  {
    if name == FieldUuid then "OldUUID"
    else if name == FieldCreatedAt then "OldCreatedAt"
    else if name == FieldUpdatedAt then "OldUpdatedAt"
    else if name == FieldEmail then "OldEmail"
    else if name == FieldPassword then "OldPassword"
    else if name == FieldPfp then "OldPfp"
    else if name == FieldName then "OldName"
    else "OldRoleID"
  }

  /** `OldField(name)` up to the database read: an unknown column is an
      error; a known one passes the accessor's guard (`Success(name)`,
      after which the old row is read) or fails it. */
  function OldField(m: UserMutation, name: string): (r: Result<string, MutationError>)
    ensures name !in UserColumns ==> r == Failure(UnknownField("User", name))
    ensures name in UserColumns ==>
      (r.Success? <==> Is(m.op, OpUpdateOne) && m.id.Some? && m.hasOldValue)
    ensures r.Success? ==> r.value == name
  {
    if name !in UserColumns then Failure(UnknownField("User", name))
    else
      match OldValueGuard(m.op, m.id.Some?, m.hasOldValue, OldAccessor(name))
      case Some(e) => Failure(e)
      case None => Success(name)
  }

  /** `AddedEdges`: `role` exactly when a role id is set. */
  function AddedEdges(m: UserMutation): (r: seq<string>)
    ensures |r| <= 1
    ensures forall e :: e in r <==> e == EdgeRole && m.role.Some?
  {
    if m.role.Some? then [EdgeRole] else []
  }

  /** `AddedIDs(name)`: the role id for the `role` edge, nothing otherwise. */
  function AddedIds(m: UserMutation, name: string): (r: seq<Value>)
    ensures name == EdgeRole ==> r == seq(|RoleIds(m)|, i requires 0 <= i < |RoleIds(m)| => IntValue(RoleIds(m)[i]))
    ensures name != EdgeRole ==> r == []
  {
    if name == EdgeRole && m.role.Some? then [IntValue(m.role.value)] else []
  }

  /** `RemovedEdges`: nothing is ever removed from a unique edge. */
  function RemovedEdges(m: UserMutation): (r: seq<string>)
    ensures r == []
  {
    []
  }

  /** `RemovedIDs(name)`: nothing for any edge name. */
  function RemovedIds(m: UserMutation, name: string): (r: seq<Value>)
    ensures r == []
  {
    []
  }

  /** `ClearedEdges`: lists exactly the edges `EdgeCleared` reports. */
  function ClearedEdges(m: UserMutation): (r: seq<string>)
    ensures |r| <= 1
    ensures forall e :: e in r <==> EdgeCleared(m, e)
  {
    if m.roleCleared then [EdgeRole] else []
  }

  /** `EdgeCleared(name)`: only the `role` edge can be reported cleared. */
  function EdgeCleared(m: UserMutation, name: string): (r: bool)
    ensures r ==> name == EdgeRole
  {
    name == EdgeRole && m.roleCleared
  }

  /** `ClearEdge(name)`: only `role` can be cleared. */
  function ClearEdge(m: UserMutation, name: string): (r: Applied<UserMutation>)
    ensures r.err.None? <==> name == EdgeRole
    ensures r.err.None? ==> r.m == ClearRole(m)
    ensures r.err.Some? ==> r.m == m && r.err == Some(UnknownUniqueEdge("User", name))
  {
    if name == EdgeRole then Applied(ClearRole(m), None)
    else Applied(m, Some(UnknownUniqueEdge("User", name)))
  }

  /** `ResetEdge(name)`: only `role` can be reset. */
  function ResetEdge(m: UserMutation, name: string): (r: Applied<UserMutation>)
    ensures r.err.None? <==> name == EdgeRole
    ensures r.err.None? ==> r.m == ResetRole(m)
    ensures r.err.Some? ==> r.m == m && r.err == Some(UnknownEdge("User", name))
  {
    if name == EdgeRole then Applied(ResetRole(m), None)
    else Applied(m, Some(UnknownEdge("User", name)))
  }

  /** The role id shows up alike as the `role_id` column, in `RoleIDs` and
      in `AddedEdges`. */
  lemma RoleIdViewsAgree(m: UserMutation)
    ensures FieldRoleId in Fields(m) <==> |RoleIds(m)| == 1
    ensures EdgeRole in AddedEdges(m) <==> |RoleIds(m)| == 1
  {
  }

  /** Clearing the `role` edge changes no column listing. */
  lemma ClearRoleKeepsFields(m: UserMutation)
    ensures Fields(ClearRole(m)) == Fields(m)
  {
    var r := ClearRole(m);
    SetFieldsCongruent(UserColumns, f => Field(r, f).Some?, f => Field(m, f).Some?);
  }

  /** Setting a column through `SetField` and reading it back through
      `Field` returns the value set; `ResetField` makes it read as unset and
      drops it from `Fields`, leaving every other column as it was. */
  lemma SetThenReset(m: UserMutation, name: string, v: Value)
    requires ColumnKind(name) == Some(KindOf(v))
    ensures Field(SetField(m, name, v).m, name) == Some(v)
    ensures name in Fields(SetField(m, name, v).m)
    ensures name !in Fields(ResetField(SetField(m, name, v).m, name).m)
    ensures forall f :: f != name ==> Field(ResetField(SetField(m, name, v).m, name).m, f) == Field(m, f)
  {
  }

  /** Resetting the `role_id` column leaves a cleared edge cleared, while
      resetting the `role` edge lowers the flag too. */
  lemma ResetColumnVersusEdge(m: UserMutation)
    requires RoleCleared(m)
    ensures ClearedEdges(ResetField(m, FieldRoleId).m) == [EdgeRole]
    ensures ClearedEdges(ResetEdge(m, EdgeRole).m) == []
  {
  }
}
