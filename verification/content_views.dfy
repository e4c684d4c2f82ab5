/**
 * content/views.py: the Project, Task and Report viewsets. Each one is
 * authenticated as a whole, scopes its queryset by `read_all_permission`,
 * gates creation by `create_permission` and guards updates and deletes with
 * the ownership check on its own ownership column.
 */
module ContentViews {
  import opened Wrappers
  import opened Fields
  import opened Models
  import opened ContentModels
  import opened Responses
  import opened Decorators
  import opened ContentSerializers

  /** The business element each viewset names in its checks. */
  function ElementName(kind: ContentKind): string {
    match kind
    case Projects => "projects"
    case Tasks => "tasks"
    case Reports => "reports"
  }

  // ---------------------------------------------------------------------------
  // get_queryset

  /** The rows `get_queryset` hands to list, retrieve and `get_object`. */
  function GetQueryset(db: Db, identity: Option<Email>, kind: ContentKind, table: Table): (scope: Table)
    ensures scope.Keys <= table.Keys
    ensures forall id :: id in scope ==> scope[id] == table[id]
  {
    match ActiveAccount(db.users, identity)
    case None => map[]
    case Some(user) =>
      if HasPermission(db, user.roles, ElementName(kind), ReadAll) then table
      else map id | id in table && HeldBy(table[id], OwnershipField(kind), identity.value) :: table[id]
  }

  /** No active account for the identity: nothing is in scope. */
  lemma ScopeWithoutUser(db: Db, identity: Option<Email>, kind: ContentKind, table: Table)
    requires ActiveAccount(db.users, identity).None?
    ensures GetQueryset(db, identity, kind, table) == map[]
  {
  }

  /**
   * For an active user the scope is every row when some held role has
   * `read_all_permission` on the element, and otherwise exactly the rows whose
   * ownership column is the user.
   */
  lemma {:induction false} ScopeOfActiveUser(db: Db, identity: Option<Email>, kind: ContentKind, table: Table, id: Id)
    requires ActiveAccount(db.users, identity).Some?
    ensures var user := ActiveAccount(db.users, identity).value;
      id in GetQueryset(db, identity, kind, table) <==>
        id in table &&
        (HasPermission(db, user.roles, ElementName(kind), ReadAll) || HeldBy(table[id], OwnershipField(kind), identity.value))
  {
  }

  /** Changing only `read_own_permission` columns never changes a scope: the flag is not consulted. */
  lemma {:induction false} ScopeIgnoresReadOwn(db: Db, rules: map<Id, AccessRule>, identity: Option<Email>, kind: ContentKind, table: Table)
    requires rules.Keys == db.rules.Keys
    requires forall k :: k in rules ==>
      rules[k] == db.rules[k].(flags := db.rules[k].flags.(readOwn := rules[k].flags.readOwn))
    ensures GetQueryset(db.(rules := rules), identity, kind, table) == GetQueryset(db, identity, kind, table)
  {
    var db' := db.(rules := rules);
    match ActiveAccount(db.users, identity)
    case None =>
    case Some(user) =>
      var name := ElementName(kind);
      if HasPermission(db, user.roles, name, ReadAll) {
        var k :| k in db.rules && Grants(db, db.rules[k], user.roles, name, ReadAll);
        assert Grants(db', db'.rules[k], user.roles, name, ReadAll);
      }
      if HasPermission(db', user.roles, name, ReadAll) {
        var k :| k in db'.rules && Grants(db', db'.rules[k], user.roles, name, ReadAll);
        assert Grants(db, db.rules[k], user.roles, name, ReadAll);
      }
  }

  /** An active user's own rows are always in scope, whatever the rules say. */
  lemma OwnRowsAlwaysInScope(db: Db, identity: Option<Email>, kind: ContentKind, table: Table, id: Id)
    requires ActiveAccount(db.users, identity).Some?
    requires id in table && HeldBy(table[id], OwnershipField(kind), identity.value)
    ensures id in GetQueryset(db, identity, kind, table)
  {
  }

  /** Giving the user more roles never shrinks the scope. */
  lemma {:induction false} ScopeMonotoneInRoles(db: Db, email: Email, more: set<Id>, kind: ContentKind, table: Table)
    requires email in db.users && db.users[email].roles <= more
    ensures GetQueryset(db, Some(email), kind, table).Keys
         <= GetQueryset(db.(users := db.users[email := db.users[email].(roles := more)]), Some(email), kind, table).Keys
  {
    var db' := db.(users := db.users[email := db.users[email].(roles := more)]);
    if db.users[email].active && HasPermission(db, db.users[email].roles, ElementName(kind), ReadAll) {
      PermissionMonotoneInRoles(db, db.users[email].roles, more, ElementName(kind), ReadAll);
      assert HasPermission(db', more, ElementName(kind), ReadAll);
    }
  }

  // ---------------------------------------------------------------------------
  // get_serializer_context

  /** The user `get_serializer_context` adds: any account with that email, active or not. */
  function ContextUser(users: map<Email, Account>, identity: Option<Email>): (user: Option<Email>)
    ensures user.Some? <==> Present(identity) && identity.value in users
    ensures user.Some? ==> user.value == identity.value
  {
    if Present(identity) && identity.value in users then Some(identity.value) else None
  }

  /** The serializer context dict, edited in place. */
  class SerializerContext {
    var entries: Record

    constructor (entries: Record)
      ensures this.entries == entries
    {
      this.entries := entries;
    }

    method AddRequestUser(users: map<Email, Account>, identity: Option<Email>)
      modifies this
      ensures ContextUser(users, identity).Some? ==>
        entries == old(entries)["user" := UserRef(ContextUser(users, identity).value)]
      ensures ContextUser(users, identity).None? ==> entries == old(entries)
    {
      if identity.Some? && identity.value != "" {
        if identity.value in users {
          entries := entries["user" := UserRef(identity.value)];
        }
      }
    }
  }

  /** Whenever creation passes its check, the context carries the acting user. */
  lemma CreatorIsActingUser(db: Db, identity: Option<Email>, kind: ContentKind)
    requires Authorized(db, identity, ElementName(kind), Flag.Create)
    ensures ContextUser(db.users, identity) == Some(identity.value)
  {
  }

  /**
   * A create that passes its permission check stores a row owned by the
   * acting user, whatever the client sent, and that row is in the user's
   * scope afterwards.
   */
  lemma {:induction false} CreatedRowBelongsToCreator(db: Db, identity: Option<Email>, kind: ContentKind,
                                                      table: Table, id: Id, entries: Record, input: Record)
    requires Authorized(db, identity, ElementName(kind), Flag.Create)
    requires id !in table
    ensures var context := entries["user" := UserRef(identity.value)];
      var r := NewRow(db.users, kind, WithCreator(kind, Validated(kind, input), context));
      && r.Ok?
      && HeldBy(r.value, OwnershipField(kind), identity.value)
      && id in GetQueryset(db, identity, kind, table[id := r.value])
  {
    var context := entries["user" := UserRef(identity.value)];
    CreatorIsActingUser(db, identity, kind);
    CreatedRowOwnedByContextUser(db.users, kind, input, context, identity.value);
    var r := NewRow(db.users, kind, WithCreator(kind, Validated(kind, input), context));
    OwnRowsAlwaysInScope(db, identity, kind, table[id := r.value], id);
  }

  // ---------------------------------------------------------------------------
  // The viewset's handlers, behind require_authentication on dispatch.

  /** `get_object()` on the scoped queryset. */
  function Fetch(scope: Table, pk: Id): (obj: Option<Content>)
    ensures obj.Some? <==> pk in scope
    ensures obj.Some? ==> obj.value == scope[pk]
  {
    if pk in scope then Some(scope[pk]) else None
  }

  function Handle(db: Db, identity: Option<Email>, kind: ContentKind, table: Table, h: Handler): (r: Reply)
    ensures !Present(identity) ==> r == Error(StatusUnauthorized, AuthenticationRequired)
    ensures r.Ok? && h.List? ==> r.rows == GetQueryset(db, identity, kind, table).Keys
    ensures r.Ok? ==> r.rows <= table.Keys
  {
    var scope := GetQueryset(db, identity, kind, table);
    var element := ElementName(kind);
    var field := OwnershipField(kind);
    RequireAuthentication(identity,
      match h
      case List => Reply.Ok(StatusOk, scope.Keys)
      case Retrieve(pk) => if pk in scope then Reply.Ok(StatusOk, {pk}) else Error(StatusNotFound, NotFound)
      case Create => RequirePermission(db, identity, element, Flag.Create, Reply.Ok(StatusCreated, {}))
      case Update(pk) => RequireOwnershipOrPermission(db, identity, element, UpdateAll, field, Fetch(scope, pk), Reply.Ok(StatusOk, {pk}))
      case PartialUpdate(pk) => RequireOwnershipOrPermission(db, identity, element, UpdateAll, field, Fetch(scope, pk), Reply.Ok(StatusOk, {pk}))
      case Destroy(pk) => RequireOwnershipOrPermission(db, identity, element, DeleteAll, field, Fetch(scope, pk), Reply.Ok(StatusNoContent, {})))
  }

  /** Listing and retrieving are gated only by authentication: never 401 or 403 once an identity is present. */
  lemma ReadsNeverForbidden(db: Db, identity: Option<Email>, kind: ContentKind, table: Table, h: Handler)
    requires Present(identity) && (h.List? || h.Retrieve?)
    ensures var r := Handle(db, identity, kind, table, h);
      r.Ok? || r == Error(StatusNotFound, NotFound)
  {
  }

  /**
   * `get_object()` on the scoped queryset: a retrieve shows the row iff it is
   * in the caller's scope, and answers not-found otherwise.
   */
  lemma RetrieveFollowsScope(db: Db, identity: Option<Email>, kind: ContentKind, table: Table, pk: Id)
    requires Present(identity)
    ensures Handle(db, identity, kind, table, Retrieve(pk))
         == if pk in GetQueryset(db, identity, kind, table) then Reply.Ok(StatusOk, {pk}) else Error(StatusNotFound, NotFound)
  {
  }

  /** A caller whose token names no active account cannot update or delete anything: 401 before any lookup. */
  lemma InactiveCallerCannotMutate(db: Db, identity: Option<Email>, kind: ContentKind, table: Table, h: Handler)
    requires Present(identity) && ActiveAccount(db.users, identity).None?
    requires h.Update? || h.PartialUpdate? || h.Destroy?
    ensures Handle(db, identity, kind, table, h) == Error(StatusUnauthorized, UserNotFound)
  {
  }

  /** Creation succeeds iff the user is active and some held role has `create_permission` on the element. */
  lemma CreateNeedsCreateFlag(db: Db, identity: Option<Email>, kind: ContentKind, table: Table)
    requires Present(identity)
    ensures Handle(db, identity, kind, table, Handler.Create) == Reply.Ok(StatusCreated, {})
        <==> Authorized(db, identity, ElementName(kind), Flag.Create)
  {
  }

  /** `update` and `partial_update` are guarded identically. */
  lemma PartialUpdateIsUpdate(db: Db, identity: Option<Email>, kind: ContentKind, table: Table, pk: Id)
    ensures Handle(db, identity, kind, table, PartialUpdate(pk)) == Handle(db, identity, kind, table, Update(pk))
  {
  }

  /**
   * A row outside the user's scope is not-found for update and destroy, never
   * 403 and never a success, whatever update or delete flags the user holds.
   */
  lemma OutOfScopeIsNotFound(db: Db, identity: Option<Email>, kind: ContentKind, table: Table, h: Handler)
    requires Present(identity) && ActiveAccount(db.users, identity).Some?
    requires h.Update? || h.PartialUpdate? || h.Destroy?
    requires h.pk !in GetQueryset(db, identity, kind, table)
    ensures Handle(db, identity, kind, table, h) == Error(StatusNotFound, NotFound)
  {
  }

  /**
   * Without `read_all_permission`, `update_all_permission` cannot reach
   * another user's row: the scoped lookup answers not-found first.
   */
  lemma {:induction false} UpdateAllNeedsReadAll(db: Db, identity: Option<Email>, kind: ContentKind, table: Table, pk: Id)
    requires Present(identity) && ActiveAccount(db.users, identity).Some?
    requires !HasPermission(db, ActiveAccount(db.users, identity).value.roles, ElementName(kind), ReadAll)
    requires pk in table && !HeldBy(table[pk], OwnershipField(kind), identity.value)
    ensures Handle(db, identity, kind, table, Update(pk)) == Error(StatusNotFound, NotFound)
  {
    ScopeOfActiveUser(db, identity, kind, table, pk);
    OutOfScopeIsNotFound(db, identity, kind, table, Update(pk));
  }

  /** A user holding the own-update flag can always update the rows they own. */
  lemma {:induction false} OwnerMayUpdate(db: Db, identity: Option<Email>, kind: ContentKind, table: Table, pk: Id)
    requires Present(identity) && ActiveAccount(db.users, identity).Some?
    requires HasPermission(db, ActiveAccount(db.users, identity).value.roles, ElementName(kind), UpdateOwn)
    requires pk in table && HeldBy(table[pk], OwnershipField(kind), identity.value)
    ensures Handle(db, identity, kind, table, Update(pk)) == Reply.Ok(StatusOk, {pk})
  {
    OwnRowsAlwaysInScope(db, identity, kind, table, pk);
    assert OwnFlag(UpdateAll) == UpdateOwn;
  }

  /**
   * Update and destroy succeed iff the row is in scope and either the `_all_`
   * flag is held or the `_own_` flag is held and the row is the user's own.
   */
  lemma {:induction false} MutationDecision(db: Db, identity: Option<Email>, kind: ContentKind, table: Table, h: Handler)
    requires WellFormed(kind, table)
    requires Present(identity) && ActiveAccount(db.users, identity).Some?
    requires h.Update? || h.PartialUpdate? || h.Destroy?
    ensures var r := Handle(db, identity, kind, table, h);
      var roles := ActiveAccount(db.users, identity).value.roles;
      var allFlag := if h.Destroy? then DeleteAll else UpdateAll;
      && (r.Ok? <==>
            h.pk in GetQueryset(db, identity, kind, table)
            && (HasPermission(db, roles, ElementName(kind), allFlag)
                || (HasPermission(db, roles, ElementName(kind), OwnFlag(allFlag))
                    && HeldBy(table[h.pk], OwnershipField(kind), identity.value))))
      && (r.Error? ==> r == Error(StatusNotFound, NotFound) || r == Error(StatusForbidden, AccessDenied))
  {
    var scope := GetQueryset(db, identity, kind, table);
    if h.pk in scope {
      var allFlag := if h.Destroy? then DeleteAll else UpdateAll;
      var view := if h.Destroy? then Reply.Ok(StatusNoContent, {}) else Reply.Ok(StatusOk, {h.pk});
      var roles := ActiveAccount(db.users, identity).value.roles;
      if !HasPermission(db, roles, ElementName(kind), allFlag) {
        OwnFlagNeedsOwnership(db, identity, ElementName(kind), allFlag, OwnershipField(kind), scope[h.pk], view);
      }
    }
  }
}
