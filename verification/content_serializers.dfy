/**
 * content/serializers.py: the Project, Task and Report serializers. Every
 * column is exposed, but `id`, the ownership column and `created_at` are
 * read-only, and `create` writes the context user into the ownership column
 * of `validated_data` before the row is saved.
 */
module ContentSerializers {
  import opened Wrappers
  import opened Fields
  import opened Models
  import opened ContentModels

  /** The columns a client may write: `fields = "__all__"` less the read-only ones. */
  function WritableColumns(kind: ContentKind): set<string> {
    match kind
    case Projects => {"title", "description", "status"}
    case Tasks => {"title", "description", "completed"}
    case Reports => {"title", "content", "is_published"}
  }

  /** The primary key, `read_only_fields` and the nested read-only user serializer. */
  function ReadOnlyColumns(kind: ContentKind): set<string> {
    {"id", OwnershipField(kind), "created_at"}
  }

  /** What survives validation of the client's input: its writable columns, untouched. */
  function Validated(kind: ContentKind, input: Record): (data: Record)
    ensures data.Keys <= input.Keys
    ensures forall k :: k in data ==> data[k] == input[k]
    ensures forall k :: k in input && k in WritableColumns(kind) ==> k in data
    ensures forall k :: k in ReadOnlyColumns(kind) ==> k !in data
  {
    map k | k in input && k in WritableColumns(kind) :: input[k]
  }

  /** `self.context.get('user')` followed by `if user:`. */
  predicate HasContextUser(context: Record) {
    "user" in context && Truthy(context["user"])
  }

  /** `validated_data` once `create` has written the context user into it. */
  function WithCreator(kind: ContentKind, data: Record, context: Record): (d: Record)
    ensures forall k :: k != OwnershipField(kind) ==> (k in d <==> k in data)
    ensures forall k :: k in d && k != OwnershipField(kind) ==> d[k] == data[k]
    ensures HasContextUser(context) ==> OwnershipField(kind) in d && d[OwnershipField(kind)] == context["user"]
    ensures !HasContextUser(context) ==> d == data
  {
    if HasContextUser(context) then data[OwnershipField(kind) := context["user"]] else data
  }

  /** Column values the model supplies when the data leaves them out (`created_at`'s clock is not modelled). */
  function Defaults(kind: ContentKind): Record {
    match kind
    case Projects => map["status" := Str("active")]
    case Tasks => map["description" := Str(""), "completed" := Bool(false)]
    case Reports => map["is_published" := Bool(false)]
  }

  /**
   * `Model.objects.create(**validated_data)`: the ownership foreign key is
   * NOT NULL and must name an existing user; the model's defaults fill in
   * what the data leaves out.
   */
  function NewRow(users: map<Email, Account>, kind: ContentKind, data: Record): (r: Result<Content, IntegrityError>)
    ensures r.Ok? <==> OwnershipField(kind) in data && data[OwnershipField(kind)].UserRef?
                        && data[OwnershipField(kind)].email in users
    ensures r.Err? && (OwnershipField(kind) !in data || !data[OwnershipField(kind)].UserRef?) ==> r.error == NotNullViolation
    ensures r.Ok? ==> r.value.kind == kind && HeldBy(r.value, OwnershipField(kind), data[OwnershipField(kind)].email)
    ensures r.Ok? ==> r.value.fields.Keys == data.Keys + Defaults(kind).Keys
    ensures r.Ok? ==> forall k :: k in data ==> r.value.fields[k] == data[k]
    ensures r.Ok? ==> forall k :: k in Defaults(kind) && k !in data ==> r.value.fields[k] == Defaults(kind)[k]
  {
    var f := OwnershipField(kind);
    if f !in data || !data[f].UserRef? then Err(NotNullViolation)
    else if data[f].email !in users then Err(ForeignKeyViolation)
    else Ok(Content(kind, Defaults(kind) + data))
  }

  /** `serializer.create(validated_data)`: edits the dict in place, then saves the row. */
  method Create(users: map<Email, Account>, kind: ContentKind, data: ValidatedData, context: Record)
    returns (row: Result<Content, IntegrityError>)
    modifies data
    ensures data.fields == WithCreator(kind, old(data.fields), context)
    ensures row == NewRow(users, kind, data.fields)
  {
    var user := if "user" in context then context["user"] else Null;
    if Truthy(user) {
      data.Put(OwnershipField(kind), user);
    }
    row := NewRow(users, kind, data.fields);
  }

  /** `serializer.update(instance, validated_data)`: each validated column is set on the row. */
  function Update(row: Content, data: Record): (updated: Content)
    ensures updated.kind == row.kind
    ensures updated.fields.Keys == row.fields.Keys + data.Keys
    ensures forall k :: k in data ==> k in updated.fields && updated.fields[k] == data[k]
    ensures forall k :: k in updated.fields && k !in data ==> updated.fields[k] == row.fields[k]
  {
    Content(row.kind, row.fields + data)
  }

  /**
   * Whatever the client sends, a row created with a context user is owned by
   * that user.
   */
  lemma {:induction false} CreatedRowOwnedByContextUser(users: map<Email, Account>, kind: ContentKind, input: Record, context: Record, email: Email)
    requires "user" in context && context["user"] == UserRef(email) && email in users
    ensures var r := NewRow(users, kind, WithCreator(kind, Validated(kind, input), context));
      r.Ok? && HeldBy(r.value, OwnershipField(kind), email)
  {
    assert HasContextUser(context);
  }

  /**
   * Without a context user nothing the client sends fills the ownership
   * column, so the save fails on the NOT NULL foreign key.
   */
  lemma {:induction false} NoContextUserNoRow(users: map<Email, Account>, kind: ContentKind, input: Record, context: Record)
    requires !HasContextUser(context)
    ensures NewRow(users, kind, WithCreator(kind, Validated(kind, input), context)) == Err(NotNullViolation)
  {
    assert OwnershipField(kind) in ReadOnlyColumns(kind);
  }

  /** Whatever the client sends, an update never changes who holds a row. */
  lemma {:induction false} UpdateKeepsOwnership(row: Content, input: Record)
    ensures var updated := Update(row, Validated(row.kind, input));
      && updated.kind == row.kind
      && (OwnershipField(row.kind) in updated.fields <==> OwnershipField(row.kind) in row.fields)
      && (OwnershipField(row.kind) in row.fields ==>
            updated.fields[OwnershipField(row.kind)] == row.fields[OwnershipField(row.kind)])
  {
    assert OwnershipField(row.kind) in ReadOnlyColumns(row.kind);
  }
}
