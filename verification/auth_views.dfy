/**
 * custom_auth/views.py: the three administration viewsets (roles, access
 * rules, business elements), each scoped all-or-nothing on
 * `read_all_permission` and guarded per handler by `require_permission`, and
 * the account views: login, profile and account deactivation.
 */
module AuthViews {
  import opened Wrappers
  import opened Fields
  import opened Models
  import opened Responses
  import opened Decorators
  import opened ContentModels

  // ---------------------------------------------------------------------------
  // Administration viewsets

  datatype AdminKind = RoleAdmin | AccessRuleAdmin | BusinessElementAdmin

  /** The business element each administration viewset names in its checks. */
  function AdminElement(kind: AdminKind): string {
    match kind
    case RoleAdmin => "roles"
    case AccessRuleAdmin => "access_rules"
    case BusinessElementAdmin => "business_elements"
  }

  /** The primary keys of the table the viewset serves. */
  function AdminTable(db: Db, kind: AdminKind): set<Id> {
    match kind
    case RoleAdmin => db.roles.Keys
    case AccessRuleAdmin => db.rules.Keys
    case BusinessElementAdmin => db.elements.Keys
  }

  /** `get_queryset`: the whole table or nothing; never the user's own rows. */
  function AdminScope(db: Db, identity: Option<Email>, kind: AdminKind): (scope: set<Id>)
    ensures scope == AdminTable(db, kind) || scope == {}
    ensures ActiveAccount(db.users, identity).None? ==> scope == {}
    ensures ActiveAccount(db.users, identity).Some?
            && HasPermission(db, ActiveAccount(db.users, identity).value.roles, AdminElement(kind), ReadAll)
            ==> scope == AdminTable(db, kind)
    ensures ActiveAccount(db.users, identity).Some?
            && !HasPermission(db, ActiveAccount(db.users, identity).value.roles, AdminElement(kind), ReadAll)
            ==> scope == {}
  {
    match ActiveAccount(db.users, identity)
    case None => {}
    case Some(user) =>
      if HasPermission(db, user.roles, AdminElement(kind), ReadAll) then AdminTable(db, kind) else {}
  }

  /** The flag in each handler's `require_permission`. */
  function RequiredFlag(h: Handler): Flag {
    match h
    case List => ReadAll
    case Retrieve(_) => ReadAll
    case Create => Flag.Create
    case Update(_) => UpdateAll
    case PartialUpdate(_) => UpdateAll
    case Destroy(_) => DeleteAll
  }

  /** `get_object()` on the scoped queryset, then the handler's success reply. */
  function AdminView(scope: set<Id>, h: Handler): Reply {
    match h
    case List => Reply.Ok(StatusOk, scope)
    case Create => Reply.Ok(StatusCreated, {})
    case Destroy(pk) => if pk in scope then Reply.Ok(StatusNoContent, {}) else Error(StatusNotFound, NotFound)
    case _ => if h.pk in scope then Reply.Ok(StatusOk, {h.pk}) else Error(StatusNotFound, NotFound)
  }

  /** A handler of an administration viewset, behind `require_authentication` on dispatch. */
  function AdminHandle(db: Db, identity: Option<Email>, kind: AdminKind, h: Handler): (r: Reply)
    ensures !Present(identity) ==> r == Error(StatusUnauthorized, AuthenticationRequired)
    ensures r.Ok? ==> r.rows <= AdminTable(db, kind)
  {
    RequireAuthentication(identity,
      if kind == RoleAdmin && h.Destroy? then Error(StatusForbidden, RoleDeletionForbidden)
      else RequirePermission(db, identity, AdminElement(kind), RequiredFlag(h), AdminView(AdminScope(db, identity, kind), h)))
  }

  /** Deleting a role is refused to every authenticated caller, whatever rules exist. */
  lemma RoleDestroyAlwaysForbidden(db: Db, identity: Option<Email>, pk: Id)
    requires Present(identity)
    ensures AdminHandle(db, identity, RoleAdmin, Destroy(pk)) == Error(StatusForbidden, RoleDeletionForbidden)
  {
  }

  /**
   * Every other handler succeeds only for an active user holding the
   * handler's flag, and a caller lacking it gets 401 or 403.
   */
  lemma {:induction false} AdminHandlerNeedsFlag(db: Db, identity: Option<Email>, kind: AdminKind, h: Handler)
    requires Present(identity) && !(kind == RoleAdmin && h.Destroy?)
    ensures var r := AdminHandle(db, identity, kind, h);
      && (r.Ok? ==> Authorized(db, identity, AdminElement(kind), RequiredFlag(h)))
      && (!Authorized(db, identity, AdminElement(kind), RequiredFlag(h)) ==>
            r.Error? && (r.status == StatusUnauthorized || r.status == StatusForbidden))
  {
    var view := AdminView(AdminScope(db, identity, kind), h);
    if view.Error? {
      assert AdminHandle(db, identity, kind, h).Ok? ==> false;
    }
  }

  /** With `read_all_permission`, listing shows the whole table. */
  lemma {:induction false} AdminListShowsAll(db: Db, identity: Option<Email>, kind: AdminKind)
    requires Authorized(db, identity, AdminElement(kind), ReadAll)
    ensures AdminHandle(db, identity, kind, List) == Reply.Ok(StatusOk, AdminTable(db, kind))
  {
    assert Present(identity);
  }

  /**
   * The converse of `AdminHandlerNeedsFlag`: holding the handler's flag is
   * enough to create or list, and, with `read_all_permission` as well, to
   * reach any primary key of the table.
   */
  lemma {:induction false} AdminHandlerSucceeds(db: Db, identity: Option<Email>, kind: AdminKind, h: Handler)
    requires !(kind == RoleAdmin && h.Destroy?)
    requires Authorized(db, identity, AdminElement(kind), RequiredFlag(h))
    requires !h.List? && !h.Create? ==>
      h.pk in AdminTable(db, kind) && Authorized(db, identity, AdminElement(kind), ReadAll)
    ensures AdminHandle(db, identity, kind, h) == AdminView(AdminTable(db, kind), h)
    ensures AdminHandle(db, identity, kind, h).Ok?
  {
    assert Present(identity);
    if h.List? || !h.Create? {
      assert Authorized(db, identity, AdminElement(kind), ReadAll);
    }
  }

  /**
   * `update_all_permission` alone reaches nothing: without
   * `read_all_permission` the scoped lookup answers not-found.
   */
  lemma {:induction false} AdminUpdateNeedsReadAll(db: Db, identity: Option<Email>, kind: AdminKind, pk: Id)
    requires Authorized(db, identity, AdminElement(kind), UpdateAll)
    requires !HasPermission(db, ActiveAccount(db.users, identity).value.roles, AdminElement(kind), ReadAll)
    ensures AdminHandle(db, identity, kind, Update(pk)) == Error(StatusNotFound, NotFound)
  {
    assert Present(identity);
  }

  // ---------------------------------------------------------------------------
  // LoginView.post

  /**
   * `LoginView.post` with the submitted fields (`None` when absent) and
   * `check_password`, a bcrypt comparison, as a parameter.
   */
  function Login(users: map<Email, Account>, email: Option<string>, password: Option<string>,
                 checkPassword: (string, string) -> bool): (r: Reply)
    ensures r.Ok? <==>
      && email.Some? && email.value != "" && password.Some? && password.value != ""
      && ActiveAccount(users, email).Some?
      && checkPassword(password.value, ActiveAccount(users, email).value.passwordHash)
    ensures r.Error? ==>
      if email.Some? && email.value != "" && password.Some? && password.value != ""
      then r == Error(StatusUnauthorized, InvalidCredentials)
      else r == Error(StatusBadRequest, ValidationFailed)
  {
    if email.None? || email.value == "" || password.None? || password.value == "" then
      Error(StatusBadRequest, ValidationFailed)
    else match ActiveAccount(users, email)
      case None => Error(StatusUnauthorized, InvalidCredentials)
      case Some(user) =>
        if checkPassword(password.value, user.passwordHash) then Reply.Ok(StatusOk, {})
        else Error(StatusUnauthorized, InvalidCredentials)
  }

  /** An unknown (or deactivated) email and a wrong password get the same reply. */
  lemma {:induction false} LoginDoesNotRevealAccounts(users: map<Email, Account>, unknown: Email, known: Email,
                                                     password: string, checkPassword: (string, string) -> bool)
    requires unknown != "" && known != "" && password != ""
    requires ActiveAccount(users, Some(unknown)).None?
    requires known in users && users[known].active && !checkPassword(password, users[known].passwordHash)
    ensures Login(users, Some(unknown), Some(password), checkPassword)
         == Login(users, Some(known), Some(password), checkPassword)
         == Error(StatusUnauthorized, InvalidCredentials)
  {
  }

  // ---------------------------------------------------------------------------
  // ProfileView.get

  /** `ProfileView.get`: the caller's profile when its identity names an active account. */
  function Profile(users: map<Email, Account>, identity: Option<Email>): (r: Reply)
    ensures r.Ok? <==> ActiveAccount(users, identity).Some?
    ensures r.Error? ==> r == Error(StatusUnauthorized, LoginRequired)
  {
    if identity.None? then Error(StatusUnauthorized, LoginRequired)
    else if ActiveAccount(users, identity).None? then Error(StatusUnauthorized, LoginRequired)
    else Reply.Ok(StatusOk, {})
  }

  // ---------------------------------------------------------------------------
  // DeleteAccountView.delete

  /** The reply of `DeleteAccountView.delete`. */
  function DeleteAccountReply(users: map<Email, Account>, identity: Option<Email>): (r: Reply)
    ensures r.Ok? <==> Present(identity) && ActiveAccount(users, identity).Some?
    ensures !Present(identity) ==> r == Error(StatusUnauthorized, LoginRequired)
    ensures Present(identity) && ActiveAccount(users, identity).None? ==> r == Error(StatusNotFound, UserNotFound)
  {
    if !Present(identity) then Error(StatusUnauthorized, LoginRequired)
    else if ActiveAccount(users, identity).None? then Error(StatusNotFound, UserNotFound)
    else Reply.Ok(StatusOk, {})
  }

  /** The user table after `DeleteAccountView.delete`: the caller's account is deactivated, not removed. */
  function Deactivated(users: map<Email, Account>, identity: Option<Email>): (after: map<Email, Account>)
    ensures after.Keys == users.Keys
    ensures forall e :: e in users && (!Present(identity) || e != identity.value) ==> after[e] == users[e]
    ensures Present(identity) && identity.value in users ==>
      after[identity.value] == users[identity.value].(active := false)
  {
    if Present(identity) && ActiveAccount(users, identity).Some?
    then users[identity.value := users[identity.value].(active := false)]
    else users
  }

  /** The table of accounts that `DeleteAccountView.delete` saves into. */
  class UserTable {
    var users: map<Email, Account>

    constructor (users: map<Email, Account>)
      ensures this.users == users
    {
      this.users := users;
    }

    /** `DeleteAccountView.delete`: sets `is_active = False` on the caller's account and saves it. */
    method DeleteAccount(identity: Option<Email>) returns (reply: Reply)
      modifies this
      ensures reply == DeleteAccountReply(old(users), identity)
      ensures users == Deactivated(old(users), identity)
    {
      if identity.None? || identity.value == "" {
        return Error(StatusUnauthorized, LoginRequired);
      }
      var email := identity.value;
      if email in users && users[email].active {
        var user := users[email];
        user := user.(active := false);
        users := users[email := user];
        reply := Reply.Ok(StatusOk, {});
      } else {
        reply := Error(StatusNotFound, UserNotFound);
      }
    }
  }

  /** Deactivation keeps every table constraint: the account and its roles stay. */
  lemma DeactivationPreservesValid(db: Db, identity: Option<Email>)
    requires Valid(db)
    ensures Valid(db.(users := Deactivated(db.users, identity)))
  {
  }

  /**
   * Once an account is deactivated its token is as good as none: the profile
   * and every permission check answer 401, login fails, and a second
   * deletion finds no account.
   */
  lemma {:induction false} DeactivatedAccountIsAbsent(db: Db, identity: Option<Email>, element: string, f: Flag, view: Reply,
                                                     field: string, fetched: Option<Content>,
                                                     password: string, checkPassword: (string, string) -> bool)
    requires Present(identity) && identity.value in db.users
    ensures var after := db.(users := Deactivated(db.users, identity));
      && Profile(after.users, identity) == Error(StatusUnauthorized, LoginRequired)
      && RequirePermission(after, identity, element, f, view).status == StatusUnauthorized
      && RequireOwnershipOrPermission(after, identity, element, f, field, fetched, view)
           == Error(StatusUnauthorized, UserNotFound)
      && (password != "" ==> Login(after.users, identity, Some(password), checkPassword) == Error(StatusUnauthorized, InvalidCredentials))
      && DeleteAccountReply(after.users, identity) == Error(StatusNotFound, UserNotFound)
  {
    var after := db.(users := Deactivated(db.users, identity));
    assert !after.users[identity.value].active;
    InactiveIsAbsent(after, identity, element, f, view);
  }
}
