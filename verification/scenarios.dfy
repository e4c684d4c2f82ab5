/**
 * The fixtures of content/tests.py and custom_auth/tests.py as concrete
 * snapshots, and the outcomes those test cases expect, restated about the
 * model. Primary keys are numbered in creation order, as the database
 * assigns them. A login token is taken to decode to the email it was issued
 * for; the bcrypt pair is replaced by a transparent stand-in.
 */
module Scenarios {
  import opened Wrappers
  import opened Fields
  import opened Models
  import opened ContentModels
  import opened Responses
  import opened Decorators
  import opened Middleware
  import opened ContentViews
  import opened AuthViews
  import opened AuthSerializers

  const Admin: Email := "admin@test.com"
  const Manager: Email := "manager@test.com"
  const User: Email := "user@test.com"

  /** Stand-in for bcrypt's hash and check: a password matches exactly its own hash. */
  function Hash(password: string): string {
    "bcrypt$" + password
  }

  function CheckPassword(password: string, hash: string): bool {
    hash == Hash(password)
  }

  function Member(firstName: string, password: string, role: Id): Account {
    Account(firstName, "", "", Hash(password), true, {role})
  }

  // ---------------------------------------------------------------------------
  // content/tests.py

  /** Roles 1-3 (admin, manager, user), elements 1-3 (projects, tasks, reports), and the nine rules. */
  function ContentDb(): Db {
    var all := Flags(true, false, true, false, true, false, true);
    Db(
      map[1 := Role(Admin, ""), 2 := Role(Manager, ""), 3 := Role(User, "")],
      map[1 := BusinessElement("projects", ""), 2 := BusinessElement("tasks", ""), 3 := BusinessElement("reports", "")],
      map[
        1 := AccessRule(1, 1, all), 2 := AccessRule(1, 2, all), 3 := AccessRule(1, 3, all),
        4 := AccessRule(2, 1, Flags(true, false, true, false, true, false, false)),
        5 := AccessRule(2, 2, Flags(true, false, true, true, false, false, false)),
        6 := AccessRule(2, 3, Flags(true, false, true, true, false, false, false)),
        7 := AccessRule(3, 1, Flags(true, true, false, true, false, true, false)),
        8 := AccessRule(3, 2, Flags(true, true, false, true, false, true, false)),
        9 := AccessRule(3, 3, Flags(false, true, false, false, false, false, false))],
      map[Admin := Member("Admin@test.com", "admin123", 1),
          Manager := Member("Manager@test.com", "manager123", 2),
          User := Member("User@test.com", "user123", 3)])
  }

  function Row(kind: ContentKind, title: string, holder: Email): Content {
    Content(kind, map["title" := Str(title), OwnershipField(kind) := UserRef(holder)])
  }

  /** Project 1 is the admin's, project 2 the regular user's. */
  function ProjectTable(): Table {
    map[1 := Row(Projects, "Admin Project", Admin), 2 := Row(Projects, "User Project", User)]
  }

  /** Task 1 is assigned to the admin, task 2 to the regular user. */
  function TaskTable(): Table {
    map[1 := Row(Tasks, "Admin Task", Admin), 2 := Row(Tasks, "User Task", User)]
  }

  /** The one report, written by the admin. */
  function ReportTable(): Table {
    map[1 := Row(Reports, "Admin Report", Admin)]
  }

  /** Each fixture user is active and holds exactly the role created for it. */
  lemma ContentAccounts()
    ensures ActiveAccount(ContentDb().users, Some(Admin)) == Some(ContentDb().users[Admin])
    ensures ActiveAccount(ContentDb().users, Some(Manager)) == Some(ContentDb().users[Manager])
    ensures ActiveAccount(ContentDb().users, Some(User)) == Some(ContentDb().users[User])
    ensures ContentDb().users[Admin].roles == {1}
    ensures ContentDb().users[Manager].roles == {2}
    ensures ContentDb().users[User].roles == {3}
  {
  }

  /** The admin role holds every `_all_` flag and `create` on all three elements. */
  lemma AdminMayDoAll(name: string, f: Flag)
    requires name in {"projects", "tasks", "reports"}
    requires f in {Flag.Create, ReadAll, UpdateAll, DeleteAll}
    ensures HasPermission(ContentDb(), {1}, name, f)
  {
    var db := ContentDb();
    var k := if name == "projects" then 1 else if name == "tasks" then 2 else 3;
    assert Grants(db, db.rules[k], {1}, name, f);
  }

  /** The admin lists both projects. */
  lemma ProjectsListAdmin()
    ensures Handle(ContentDb(), Some(Admin), Projects, ProjectTable(), List) == Reply.Ok(StatusOk, {1, 2})
  {
    ContentAccounts();
    AdminMayDoAll("projects", ReadAll);
    assert GetQueryset(ContentDb(), Some(Admin), Projects, ProjectTable()) == ProjectTable();
  }

  /** The regular user, without `read_all_permission`, lists only their own project. */
  lemma ProjectsListUser()
    ensures Handle(ContentDb(), Some(User), Projects, ProjectTable(), List) == Reply.Ok(StatusOk, {2})
  {
    ContentAccounts();
    assert !HasPermission(ContentDb(), {3}, "projects", ReadAll);
    assert !HeldBy(ProjectTable()[1], "owner", User);
    assert HeldBy(ProjectTable()[2], "owner", User);
    assert GetQueryset(ContentDb(), Some(User), Projects, ProjectTable()).Keys == {2};
  }

  /** The admin may create projects. */
  lemma ProjectsCreateAdmin()
    ensures Handle(ContentDb(), Some(Admin), Projects, ProjectTable(), Handler.Create) == Reply.Ok(StatusCreated, {})
  {
    ContentAccounts();
    AdminMayDoAll("projects", Flag.Create);
    CreateNeedsCreateFlag(ContentDb(), Some(Admin), Projects, ProjectTable());
  }

  /** The regular user may create projects. */
  lemma ProjectsCreateUser()
    ensures Handle(ContentDb(), Some(User), Projects, ProjectTable(), Handler.Create) == Reply.Ok(StatusCreated, {})
  {
    var db := ContentDb();
    ContentAccounts();
    assert Grants(db, db.rules[7], {3}, "projects", Flag.Create);
    CreateNeedsCreateFlag(db, Some(User), Projects, ProjectTable());
  }

  /** The admin retrieves their own project. */
  lemma ProjectsRetrieveAdmin()
    ensures Handle(ContentDb(), Some(Admin), Projects, ProjectTable(), Retrieve(1)) == Reply.Ok(StatusOk, {1})
  {
    ContentAccounts();
    AdminMayDoAll("projects", ReadAll);
    assert GetQueryset(ContentDb(), Some(Admin), Projects, ProjectTable()) == ProjectTable();
  }

  /** The regular user updates their own project. */
  lemma ProjectsUpdateOwner()
    ensures Handle(ContentDb(), Some(User), Projects, ProjectTable(), Update(2)) == Reply.Ok(StatusOk, {2})
  {
    var db := ContentDb();
    ContentAccounts();
    assert Grants(db, db.rules[7], {3}, "projects", UpdateOwn);
    assert HeldBy(ProjectTable()[2], "owner", User);
    OwnerMayUpdate(db, Some(User), Projects, ProjectTable(), 2);
  }

  /** The admin's project is outside the regular user's scope: not-found rather than forbidden. */
  lemma ProjectsUpdateNonOwner()
    ensures Handle(ContentDb(), Some(User), Projects, ProjectTable(), Update(1)) == Error(StatusNotFound, NotFound)
  {
    var db := ContentDb();
    ContentAccounts();
    assert !HasPermission(db, {3}, "projects", ReadAll);
    assert !HeldBy(ProjectTable()[1], "owner", User);
    UpdateAllNeedsReadAll(db, Some(User), Projects, ProjectTable(), 1);
  }

  /** The admin deletes the regular user's project on `delete_all_permission`. */
  lemma ProjectsDeleteByAdmin()
    ensures Handle(ContentDb(), Some(Admin), Projects, ProjectTable(), Destroy(2)) == Reply.Ok(StatusNoContent, {})
  {
    var db := ContentDb();
    ContentAccounts();
    AdminMayDoAll("projects", ReadAll);
    AdminMayDoAll("projects", DeleteAll);
    assert GetQueryset(db, Some(Admin), Projects, ProjectTable()) == ProjectTable();
    AllFlagIgnoresOwnership(db, Some(Admin), "projects", DeleteAll, "owner", ProjectTable()[2], Reply.Ok(StatusNoContent, {}));
  }

  /** The manager's task scope is the whole table, on `read_all_permission`. */
  lemma TasksScopeManager()
    ensures GetQueryset(ContentDb(), Some(Manager), Tasks, TaskTable()) == TaskTable()
  {
    var db := ContentDb();
    ContentAccounts();
    assert Grants(db, db.rules[5], {2}, "tasks", ReadAll);
  }

  /** The manager reads every task. */
  lemma TasksListManager()
    ensures Handle(ContentDb(), Some(Manager), Tasks, TaskTable(), List) == Reply.Ok(StatusOk, {1, 2})
  {
    TasksScopeManager();
  }

  /** The regular user creates tasks. */
  lemma TasksCreateUser()
    ensures Handle(ContentDb(), Some(User), Tasks, TaskTable(), Handler.Create) == Reply.Ok(StatusCreated, {})
  {
    var db := ContentDb();
    ContentAccounts();
    assert Grants(db, db.rules[8], {3}, "tasks", Flag.Create);
    CreateNeedsCreateFlag(db, Some(User), Tasks, TaskTable());
  }

  /** The regular user updates the task assigned to them. */
  lemma TasksUpdateAssignee()
    ensures Handle(ContentDb(), Some(User), Tasks, TaskTable(), Update(2)) == Reply.Ok(StatusOk, {2})
  {
    var db := ContentDb();
    ContentAccounts();
    assert Grants(db, db.rules[8], {3}, "tasks", UpdateOwn);
    assert HeldBy(TaskTable()[2], "assignee", User);
    OwnerMayUpdate(db, Some(User), Tasks, TaskTable(), 2);
  }

  /** The manager's roles hold no `update_all_permission` on tasks. */
  lemma TasksManagerCannotUpdateAll()
    ensures !HasPermission(ContentDb(), {2}, "tasks", UpdateAll)
  {
  }

  /**
   * The manager sees the regular user's task but holds only the own-update
   * flag on tasks, so updating it is forbidden.
   */
  lemma TasksUpdateByManagerForbidden()
    ensures Handle(ContentDb(), Some(Manager), Tasks, TaskTable(), Update(2)) == Error(StatusForbidden, AccessDenied)
  {
    var db := ContentDb();
    ContentAccounts();
    TasksScopeManager();
    TasksManagerCannotUpdateAll();
    assert !HeldBy(TaskTable()[2], "assignee", Manager);
    OwnFlagNeedsOwnership(db, Some(Manager), "tasks", UpdateAll, "assignee", TaskTable()[2], Reply.Ok(StatusOk, {2}));
  }

  /** The admin lists the reports. */
  lemma ReportsListAdmin()
    ensures Handle(ContentDb(), Some(Admin), Reports, ReportTable(), List) == Reply.Ok(StatusOk, {1})
  {
    ContentAccounts();
    AdminMayDoAll("reports", ReadAll);
    assert GetQueryset(ContentDb(), Some(Admin), Reports, ReportTable()) == ReportTable();
  }

  /** The manager may create a report. */
  lemma ReportsCreateManager()
    ensures Handle(ContentDb(), Some(Manager), Reports, ReportTable(), Handler.Create) == Reply.Ok(StatusCreated, {})
  {
    var db := ContentDb();
    ContentAccounts();
    assert Grants(db, db.rules[6], {2}, "reports", Flag.Create);
    CreateNeedsCreateFlag(db, Some(Manager), Reports, ReportTable());
  }

  /** The regular user, whose reports rule only reads, may not create one. */
  lemma ReportsCreateUserForbidden()
    ensures Handle(ContentDb(), Some(User), Reports, ReportTable(), Handler.Create) == Error(StatusForbidden, AccessDenied)
  {
    ContentAccounts();
    assert !HasPermission(ContentDb(), {3}, "reports", Flag.Create);
  }

  /** A request without an `Authorization` header is refused before any handler runs. */
  lemma UnauthenticatedRefused(decode: string -> Decoded, h: Handler)
    ensures Handle(ContentDb(), Identity(None, decode), Projects, ProjectTable(), h)
         == Error(StatusUnauthorized, AuthenticationRequired)
  {
  }

  /** A bearer token that decodes to the admin's email lists every project. */
  lemma BearerTokenListsProjects(token: string, decode: string -> Decoded)
    requires decode(token) == Claims(Admin)
    ensures Handle(ContentDb(), Identity(Some(BearerPrefix + token), decode), Projects, ProjectTable(), List)
         == Reply.Ok(StatusOk, {1, 2})
  {
    BearerTokenRoundTrip(token);
    ProjectsListAdmin();
  }

  // ---------------------------------------------------------------------------
  // custom_auth/tests.py

  /** Roles 1-3, elements 1-3 (roles, access_rules, business_elements) and the five rules. */
  function AuthDb(): Db {
    var admin := Flags(true, false, true, false, true, false, false);
    var adminDelete := Flags(true, false, true, false, true, false, true);
    var readAll := Flags(false, false, true, false, false, false, false);
    Db(
      map[1 := Role(Admin, "Administrator"), 2 := Role(Manager, "Manager@test.com"), 3 := Role(User, "Regular user")],
      map[1 := BusinessElement("roles", ""), 2 := BusinessElement("access_rules", ""), 3 := BusinessElement("business_elements", "")],
      map[
        1 := AccessRule(1, 1, admin), 2 := AccessRule(1, 2, adminDelete), 3 := AccessRule(1, 3, adminDelete),
        4 := AccessRule(2, 1, readAll), 5 := AccessRule(2, 2, readAll)],
      map[Admin := Member("Admin", "admin123", 1),
          Manager := Member("Manager", "manager123", 2),
          User := Member("User", "user123", 3)])
  }

  lemma AuthAccounts()
    ensures ActiveAccount(AuthDb().users, Some(Admin)) == Some(AuthDb().users[Admin])
    ensures ActiveAccount(AuthDb().users, Some(Manager)) == Some(AuthDb().users[Manager])
    ensures ActiveAccount(AuthDb().users, Some(User)) == Some(AuthDb().users[User])
    ensures AuthDb().users[Admin].roles == {1}
    ensures AuthDb().users[Manager].roles == {2}
    ensures AuthDb().users[User].roles == {3}
  {
  }

  /** The registration form of the successful sign-up. */
  function NewUserInput(): map<string, string> {
    map["email" := "newuser@test.com", "first_name" := "New", "last_name" := "User@test.com",
        "password" := "newpass123", "password_confirm" := "newpass123"]
  }

  /** The form of the mismatch case: no last name, and a confirmation that differs. */
  function MismatchInput(): map<string, string> {
    map["email" := "newuser@test.com", "first_name" := "New",
        "password" := "newpass123", "password_confirm" := "differentpass"]
  }

  /** Registration succeeds with matching passwords and fails on a mismatch. */
  lemma Registration()
    ensures Register(AuthDb(), NewUserInput(), Hash).Ok?
    ensures ValidateRegistration(AuthDb().users, MismatchInput()) == Err({PasswordMismatch})
  {
    var good := NewUserInput();
    assert Complete(good);
    assert |good["password"]| >= MinPasswordLength;
    assert good["email"] !in AuthDb().users;
    var bad := MismatchInput();
    assert Complete(bad);
    assert bad["password"] != bad["password_confirm"];
  }

  /** The admin logs in with the right password and is refused with a wrong one. */
  lemma AdminLogin()
    ensures Login(AuthDb().users, Some(Admin), Some("admin123"), CheckPassword) == Reply.Ok(StatusOk, {})
    ensures Login(AuthDb().users, Some(Admin), Some("wrongpass"), CheckPassword) == Error(StatusUnauthorized, InvalidCredentials)
  {
    AuthAccounts();
    assert !CheckPassword("wrongpass", Hash("admin123"));
  }

  /** The profile answers the admin and refuses a request without a token. */
  lemma ProfileScenarios(decode: string -> Decoded)
    ensures Profile(AuthDb().users, Some(Admin)) == Reply.Ok(StatusOk, {})
    ensures Profile(AuthDb().users, Identity(None, decode)) == Error(StatusUnauthorized, LoginRequired)
  {
    AuthAccounts();
  }

  /** The admin lists the roles. */
  lemma RolesListAdmin()
    ensures AdminHandle(AuthDb(), Some(Admin), RoleAdmin, List) == Reply.Ok(StatusOk, {1, 2, 3})
  {
    var db := AuthDb();
    AuthAccounts();
    assert Grants(db, db.rules[1], {1}, "roles", ReadAll);
    AdminListShowsAll(db, Some(Admin), RoleAdmin);
  }

  /** The manager lists the roles. */
  lemma RolesListManager()
    ensures AdminHandle(AuthDb(), Some(Manager), RoleAdmin, List) == Reply.Ok(StatusOk, {1, 2, 3})
  {
    var db := AuthDb();
    AuthAccounts();
    assert Grants(db, db.rules[4], {2}, "roles", ReadAll);
    AdminListShowsAll(db, Some(Manager), RoleAdmin);
  }

  /** The regular user, whose role has no rules at all, is refused the role list. */
  lemma RolesListUserForbidden()
    ensures AdminHandle(AuthDb(), Some(User), RoleAdmin, List) == Error(StatusForbidden, AccessDenied)
  {
    AuthAccounts();
    assert !HasPermission(AuthDb(), {3}, "roles", ReadAll);
  }

  /** The admin creates roles. */
  lemma RolesCreateAdmin()
    ensures AdminHandle(AuthDb(), Some(Admin), RoleAdmin, Handler.Create) == Reply.Ok(StatusCreated, {})
  {
    var db := AuthDb();
    AuthAccounts();
    assert Grants(db, db.rules[1], {1}, "roles", Flag.Create);
  }

  /** The manager, who only reads roles, may not create one. */
  lemma RolesCreateManagerForbidden()
    ensures AdminHandle(AuthDb(), Some(Manager), RoleAdmin, Handler.Create) == Error(StatusForbidden, AccessDenied)
  {
    AuthAccounts();
    assert !HasPermission(AuthDb(), {2}, "roles", Flag.Create);
  }

  /** The admin updates a role. */
  lemma RolesUpdateAdmin()
    ensures AdminHandle(AuthDb(), Some(Admin), RoleAdmin, Update(1)) == Reply.Ok(StatusOk, {1})
  {
    var db := AuthDb();
    AuthAccounts();
    assert Grants(db, db.rules[1], {1}, "roles", ReadAll);
    assert Grants(db, db.rules[1], {1}, "roles", UpdateAll);
    assert AdminScope(db, Some(Admin), RoleAdmin) == {1, 2, 3};
  }

  /** Even the admin may not delete a role. */
  lemma RolesDeleteForbidden()
    ensures AdminHandle(AuthDb(), Some(Admin), RoleAdmin, Destroy(1)) == Error(StatusForbidden, RoleDeletionForbidden)
  {
    RoleDestroyAlwaysForbidden(AuthDb(), Some(Admin), 1);
  }

  function NewRuleData(): Record {
    map["role_id" := Int(3), "element_id" := Int(1), "read_own_permission" := Bool(true)]
  }

  /** The admin lists the access rules. */
  lemma AccessRulesListAdmin()
    ensures AdminHandle(AuthDb(), Some(Admin), AccessRuleAdmin, List) == Reply.Ok(StatusOk, {1, 2, 3, 4, 5})
  {
    var db := AuthDb();
    AuthAccounts();
    assert Grants(db, db.rules[2], {1}, "access_rules", ReadAll);
    AdminListShowsAll(db, Some(Admin), AccessRuleAdmin);
  }

  /** The admin creates access rules. */
  lemma AccessRulesCreateAdmin()
    ensures AdminHandle(AuthDb(), Some(Admin), AccessRuleAdmin, Handler.Create) == Reply.Ok(StatusCreated, {})
  {
    var db := AuthDb();
    AuthAccounts();
    assert Grants(db, db.rules[2], {1}, "access_rules", Flag.Create);
  }

  /** The admin's scope on access rules is the whole table. */
  lemma AccessRulesScopeAdmin()
    ensures AdminScope(AuthDb(), Some(Admin), AccessRuleAdmin) == {1, 2, 3, 4, 5}
  {
    var db := AuthDb();
    AuthAccounts();
    assert Grants(db, db.rules[2], {1}, "access_rules", ReadAll);
  }

  /** The admin partially updates an access rule. */
  lemma AccessRulesPatchAdmin()
    ensures AdminHandle(AuthDb(), Some(Admin), AccessRuleAdmin, PartialUpdate(1)) == Reply.Ok(StatusOk, {1})
  {
    var db := AuthDb();
    AuthAccounts();
    AccessRulesScopeAdmin();
    assert Grants(db, db.rules[2], {1}, "access_rules", UpdateAll);
  }

  /** The rule the admin creates: (user role, roles) with only `read_own_permission`. */
  lemma AccessRuleCreated()
    ensures CreateRule(AuthDb(), 6, NewRuleData()).Ok?
  {
    var data := NewRuleData();
    assert ForwardedIds(data) == data;
    assert KeyColumn(data, "role_id") == Result.Ok(3);
    assert KeyColumn(data, "element_id") == Result.Ok(1);
  }

  /** The admin's patch clears `create_permission` on rule 1. */
  lemma AccessRulePatched()
    ensures UpdateRule(AuthDb(), 1, map["create_permission" := Bool(false)]).Ok?
    ensures !Holds(UpdateRule(AuthDb(), 1, map["create_permission" := Bool(false)]).value.rules[1].flags, Flag.Create)
  {
    var patch := map["create_permission" := Bool(false)];
    assert ForwardedIds(patch) == patch;
    UpdateSetsGivenFlags(AuthDb(), 1, patch, Flag.Create);
  }

  /** The admin lists and creates business elements. */
  lemma BusinessElementsByAdmin()
    ensures AdminHandle(AuthDb(), Some(Admin), BusinessElementAdmin, List) == Reply.Ok(StatusOk, {1, 2, 3})
    ensures AdminHandle(AuthDb(), Some(Admin), BusinessElementAdmin, Handler.Create) == Reply.Ok(StatusCreated, {})
  {
    var db := AuthDb();
    AuthAccounts();
    assert Grants(db, db.rules[3], {1}, "business_elements", ReadAll);
    AdminListShowsAll(db, Some(Admin), BusinessElementAdmin);
    assert Grants(db, db.rules[3], {1}, "business_elements", Flag.Create);
  }
}
