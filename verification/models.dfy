/**
 * The authorization data of custom_auth/models.py: roles, business elements,
 * access rules (seven permission flags per (role, element) pair) and user
 * accounts, held together as one database snapshot `Db`.
 */
module Models {
  import opened Wrappers
  import opened Fields

  type Id = nat

  datatype Role = Role(name: string, description: string)

  datatype BusinessElement = BusinessElement(name: string, description: string)

  /** The seven boolean columns of an access rule. */
  datatype Flag = Create | ReadOwn | ReadAll | UpdateOwn | UpdateAll | DeleteOwn | DeleteAll

  /** The column name of a flag, as the decorators pass it to the ORM filter. */
  function FieldName(f: Flag): string {
    match f
    case Create => "create_permission"
    case ReadOwn => "read_own_permission"
    case ReadAll => "read_all_permission"
    case UpdateOwn => "update_own_permission"
    case UpdateAll => "update_all_permission"
    case DeleteOwn => "delete_own_permission"
    case DeleteAll => "delete_all_permission"
  }

  datatype Flags = Flags(
    create: bool,
    readOwn: bool, readAll: bool,
    updateOwn: bool, updateAll: bool,
    deleteOwn: bool, deleteAll: bool)

  /** Every column defaults to False. */
  const NoFlags := Flags(false, false, false, false, false, false, false)

  predicate Holds(flags: Flags, f: Flag) {
    match f
    case Create => flags.create
    case ReadOwn => flags.readOwn
    case ReadAll => flags.readAll
    case UpdateOwn => flags.updateOwn
    case UpdateAll => flags.updateAll
    case DeleteOwn => flags.deleteOwn
    case DeleteAll => flags.deleteAll
  }

  datatype AccessRule = AccessRule(roleId: Id, elementId: Id, flags: Flags)

  /** A user account; the email is the key of the user table. */
  datatype Account = Account(
    firstName: string, lastName: string, middleName: string,
    passwordHash: string,
    active: bool,
    roles: set<Id>)

  /** One snapshot of the tables the decisions query. */
  datatype Db = Db(
    roles: map<Id, Role>,
    elements: map<Id, BusinessElement>,
    rules: map<Id, AccessRule>,
    users: map<Email, Account>)

  // ---------------------------------------------------------------------------
  // Table constraints: unique names, unique_together, foreign keys.

  predicate UniqueRoleNames(roles: map<Id, Role>) {
    forall a, b :: a in roles && b in roles && roles[a].name == roles[b].name ==> a == b
  }

  predicate UniqueElementNames(elements: map<Id, BusinessElement>) {
    forall a, b :: a in elements && b in elements && elements[a].name == elements[b].name ==> a == b
  }

  /** `unique_together = ['role', 'element']`. */
  predicate UniquePairs(rules: map<Id, AccessRule>) {
    forall a, b ::
      a in rules && b in rules && rules[a].roleId == rules[b].roleId && rules[a].elementId == rules[b].elementId
      ==> a == b
  }

  predicate RulesReferToRows(db: Db) {
    forall id :: id in db.rules ==> db.rules[id].roleId in db.roles && db.rules[id].elementId in db.elements
  }

  predicate UsersReferToRoles(db: Db) {
    forall e :: e in db.users ==> db.users[e].roles <= db.roles.Keys
  }

  predicate Valid(db: Db) {
    && UniqueRoleNames(db.roles)
    && UniqueElementNames(db.elements)
    && UniquePairs(db.rules)
    && RulesReferToRows(db)
    && UsersReferToRoles(db)
  }

  // ---------------------------------------------------------------------------
  // Queries.

  /** `CustomUser.objects.get(email=identity, is_active=True)`; `None` for DoesNotExist. */
  function ActiveAccount(users: map<Email, Account>, identity: Option<Email>): (a: Option<Account>)
    ensures a.Some? <==> identity.Some? && identity.value in users && users[identity.value].active
    ensures a.Some? ==> a.value == users[identity.value]
  {
    if identity.Some? && identity.value in users && users[identity.value].active
    then Some(users[identity.value])
    else None
  }

  predicate ElementNamed(db: Db, elementId: Id, name: string) {
    elementId in db.elements && db.elements[elementId].name == name
  }

  /** The rule row matches `role__in=held, element__name=name, <flag>=True`. */
  predicate Grants(db: Db, rule: AccessRule, held: set<Id>, name: string, f: Flag) {
    rule.roleId in held && ElementNamed(db, rule.elementId, name) && Holds(rule.flags, f)
  }

  /** `AccessRule.objects.filter(role__in=held, element__name=name, **{f: True}).exists()`. */
  predicate HasPermission(db: Db, held: set<Id>, name: string, f: Flag) {
    exists id :: id in db.rules && Grants(db, db.rules[id], held, name, f)
  }

  /**
   * Reference reading of the rule store: the flags a single role has on an
   * element, the all-false default when no rule exists for the pair.
   */
  ghost function RoleFlags(db: Db, roleId: Id, name: string): Flags {
    if exists id :: id in db.rules && db.rules[id].roleId == roleId && ElementNamed(db, db.rules[id].elementId, name)
    then
      var id :| id in db.rules && db.rules[id].roleId == roleId && ElementNamed(db, db.rules[id].elementId, name);
      db.rules[id].flags
    else NoFlags
  }

  /** The effective permission: the OR of the flag over every held role. */
  ghost predicate EffectivelyHolds(db: Db, held: set<Id>, name: string, f: Flag) {
    exists r :: r in held && Holds(RoleFlags(db, r, name), f)
  }

  lemma NoFlagsHoldNothing(f: Flag)
    ensures !Holds(NoFlags, f)
  {
  }

  /** On a consistent database the flags a role has on an element are those of its one rule for it. */
  lemma RoleFlagsOfRule(db: Db, id: Id, name: string)
    requires Valid(db) && id in db.rules && ElementNamed(db, db.rules[id].elementId, name)
    ensures RoleFlags(db, db.rules[id].roleId, name) == db.rules[id].flags
  {
    var r := db.rules[id].roleId;
    var other :| other in db.rules && db.rules[other].roleId == r && ElementNamed(db, db.rules[other].elementId, name);
    assert RoleFlags(db, r, name) == db.rules[other].flags;
    assert db.rules[other].elementId == db.rules[id].elementId;
  }

  /** A granting rule shows up in its role's flags. */
  lemma {:induction false} GrantIsRoleFlag(db: Db, held: set<Id>, name: string, f: Flag)
    requires Valid(db)
    requires HasPermission(db, held, name, f)
    ensures EffectivelyHolds(db, held, name, f)
  {
    var id :| id in db.rules && Grants(db, db.rules[id], held, name, f);
    RoleFlagsOfRule(db, id, name);
    assert db.rules[id].roleId in held && Holds(RoleFlags(db, db.rules[id].roleId, name), f);
  }

  /** A held role whose flags include the flag has a granting rule: absent rules hold nothing. */
  lemma {:induction false} RoleFlagIsGrant(db: Db, held: set<Id>, name: string, f: Flag)
    requires Valid(db)
    requires EffectivelyHolds(db, held, name, f)
    ensures HasPermission(db, held, name, f)
  {
    var r :| r in held && Holds(RoleFlags(db, r, name), f);
    NoFlagsHoldNothing(f);
    assert exists id :: id in db.rules && db.rules[id].roleId == r && ElementNamed(db, db.rules[id].elementId, name);
    var id :| id in db.rules && db.rules[id].roleId == r && ElementNamed(db, db.rules[id].elementId, name);
    RoleFlagsOfRule(db, id, name);
    assert Grants(db, db.rules[id], held, name, f);
  }

  /**
   * On a consistent database the existence query is the OR, across the held
   * roles, of each role's (unique) rule for the element, absent rules counting
   * as all-false.
   */
  lemma {:induction false} PermissionIsOrAcrossRoles(db: Db, held: set<Id>, name: string, f: Flag)
    requires Valid(db)
    ensures HasPermission(db, held, name, f) <==> EffectivelyHolds(db, held, name, f)
  {
    if HasPermission(db, held, name, f) {
      GrantIsRoleFlag(db, held, name, f);
    }
    if EffectivelyHolds(db, held, name, f) {
      RoleFlagIsGrant(db, held, name, f);
    }
  }

  /** Holding more roles never removes a grant. */
  lemma {:induction false} PermissionMonotoneInRoles(db: Db, held: set<Id>, more: set<Id>, name: string, f: Flag)
    requires held <= more
    requires HasPermission(db, held, name, f)
    ensures HasPermission(db, more, name, f)
  {
    var id :| id in db.rules && Grants(db, db.rules[id], held, name, f);
    assert Grants(db, db.rules[id], more, name, f);
  }

  /** Holding no role grants nothing. */
  lemma NoRolesNoPermission(db: Db, name: string, f: Flag)
    ensures !HasPermission(db, {}, name, f)
  {
  }

  // ---------------------------------------------------------------------------
  // Inserts under the table constraints.

  datatype IntegrityError = UniqueViolation | ForeignKeyViolation | NotNullViolation

  /** Inserting a role with a fresh key; `name` is `unique=True`. */
  function InsertRole(db: Db, id: Id, role: Role): (r: Result<Db, IntegrityError>)
    requires id !in db.roles
    ensures r.Ok? <==> forall k :: k in db.roles ==> db.roles[k].name != role.name
    ensures r.Ok? ==> r.value == db.(roles := db.roles[id := role])
    ensures r.Ok? && Valid(db) ==> Valid(r.value)
  {
    if exists k :: k in db.roles && db.roles[k].name == role.name then Err(UniqueViolation)
    else Ok(db.(roles := db.roles[id := role]))
  }

  /** Inserting a business element with a fresh key; `name` is `unique=True`. */
  function InsertElement(db: Db, id: Id, element: BusinessElement): (r: Result<Db, IntegrityError>)
    requires id !in db.elements
    ensures r.Ok? <==> forall k :: k in db.elements ==> db.elements[k].name != element.name
    ensures r.Ok? ==> r.value == db.(elements := db.elements[id := element])
    ensures r.Ok? && Valid(db) ==> Valid(r.value)
  {
    if exists k :: k in db.elements && db.elements[k].name == element.name then Err(UniqueViolation)
    else Ok(db.(elements := db.elements[id := element]))
  }

  /**
   * Inserting an access rule with a fresh key: both foreign keys must exist and
   * no rule may exist for the same (role, element) pair.
   */
  function InsertRule(db: Db, id: Id, rule: AccessRule): (r: Result<Db, IntegrityError>)
    requires id !in db.rules
    ensures r.Ok? <==>
      && rule.roleId in db.roles && rule.elementId in db.elements
      && forall k :: k in db.rules ==> !(db.rules[k].roleId == rule.roleId && db.rules[k].elementId == rule.elementId)
    ensures r.Ok? ==> r.value == db.(rules := db.rules[id := rule])
    ensures r.Ok? && Valid(db) ==> Valid(r.value)
  {
    if rule.roleId !in db.roles || rule.elementId !in db.elements then Err(ForeignKeyViolation)
    else if exists k :: k in db.rules && db.rules[k].roleId == rule.roleId && db.rules[k].elementId == rule.elementId
    then Err(UniqueViolation)
    else Ok(db.(rules := db.rules[id := rule]))
  }

  /**
   * Saving a changed access rule under its key: both foreign keys must exist
   * and no other rule may hold the same (role, element) pair.
   */
  function ReplaceRule(db: Db, id: Id, rule: AccessRule): (r: Result<Db, IntegrityError>)
    requires id in db.rules
    ensures r.Ok? <==>
      && rule.roleId in db.roles && rule.elementId in db.elements
      && forall k :: k in db.rules && k != id ==> !(db.rules[k].roleId == rule.roleId && db.rules[k].elementId == rule.elementId)
    ensures r.Ok? ==> r.value == db.(rules := db.rules[id := rule])
    ensures r.Ok? && Valid(db) ==> Valid(r.value)
  {
    if rule.roleId !in db.roles || rule.elementId !in db.elements then Err(ForeignKeyViolation)
    else if exists k :: k in db.rules && k != id && db.rules[k].roleId == rule.roleId && db.rules[k].elementId == rule.elementId
    then Err(UniqueViolation)
    else Ok(db.(rules := db.rules[id := rule]))
  }

  /** A freshly inserted rule with every flag left at its default grants nothing new. */
  lemma {:induction false} DefaultRuleGrantsNothing(db: Db, id: Id, rule: AccessRule, held: set<Id>, name: string, f: Flag)
    requires id !in db.rules && rule.flags == NoFlags
    ensures HasPermission(db.(rules := db.rules[id := rule]), held, name, f) <==> HasPermission(db, held, name, f)
  {
    var db' := db.(rules := db.rules[id := rule]);
    if HasPermission(db', held, name, f) {
      var k :| k in db'.rules && Grants(db', db'.rules[k], held, name, f);
      assert k != id;
      assert Grants(db, db.rules[k], held, name, f);
    }
    if HasPermission(db, held, name, f) {
      var k :| k in db.rules && Grants(db, db.rules[k], held, name, f);
      assert Grants(db', db'.rules[k], held, name, f);
    }
  }

  // ---------------------------------------------------------------------------
  // Cascading deletes (`on_delete=models.CASCADE`, and the many-to-many rows).

  function DeleteRole(db: Db, id: Id): (db': Db)
    ensures id !in db'.roles && db'.roles == db.roles - {id}
    ensures db'.elements == db.elements
    ensures forall k :: k in db'.rules ==> k in db.rules && db'.rules[k] == db.rules[k] && db'.rules[k].roleId != id
    ensures forall k :: k in db.rules && db.rules[k].roleId != id ==> k in db'.rules
    ensures db'.users.Keys == db.users.Keys
    ensures forall e :: e in db'.users ==> db'.users[e] == db.users[e].(roles := db.users[e].roles - {id})
  {
    Db(db.roles - {id},
       db.elements,
       map k | k in db.rules && db.rules[k].roleId != id :: db.rules[k],
       map e | e in db.users :: db.users[e].(roles := db.users[e].roles - {id}))
  }

  function DeleteElement(db: Db, id: Id): (db': Db)
    ensures db'.roles == db.roles
    ensures id !in db'.elements && db'.elements == db.elements - {id}
    ensures forall k :: k in db'.rules ==> k in db.rules && db'.rules[k] == db.rules[k] && db'.rules[k].elementId != id
    ensures forall k :: k in db.rules && db.rules[k].elementId != id ==> k in db'.rules
    ensures db'.users == db.users
  {
    Db(db.roles,
       db.elements - {id},
       map k | k in db.rules && db.rules[k].elementId != id :: db.rules[k],
       db.users)
  }

  lemma DeleteRolePreservesValid(db: Db, id: Id)
    requires Valid(db)
    ensures Valid(DeleteRole(db, id))
  {
  }

  lemma DeleteElementPreservesValid(db: Db, id: Id)
    requires Valid(db)
    ensures Valid(DeleteElement(db, id))
  {
  }

  /** After deleting a role, a role set grants exactly what it granted without that role. */
  lemma {:induction false} DeleteRoleGrants(db: Db, id: Id, held: set<Id>, name: string, f: Flag)
    ensures HasPermission(DeleteRole(db, id), held, name, f) <==> HasPermission(db, held - {id}, name, f)
  {
    var db' := DeleteRole(db, id);
    if HasPermission(db', held, name, f) {
      var k :| k in db'.rules && Grants(db', db'.rules[k], held, name, f);
      assert Grants(db, db.rules[k], held - {id}, name, f);
    }
    if HasPermission(db, held - {id}, name, f) {
      var k :| k in db.rules && Grants(db, db.rules[k], held - {id}, name, f);
      assert k in db'.rules;
      assert Grants(db', db'.rules[k], held, name, f);
    }
  }

  /** A grant that survives an element deletion was there before, on another element. */
  lemma {:induction false} DeleteElementKeepsOnlyOtherGrants(db: Db, id: Id, held: set<Id>, name: string, f: Flag)
    requires Valid(db)
    requires HasPermission(DeleteElement(db, id), held, name, f)
    ensures HasPermission(db, held, name, f) && !ElementNamed(db, id, name)
  {
    var db' := DeleteElement(db, id);
    var k :| k in db'.rules && Grants(db', db'.rules[k], held, name, f);
    assert Grants(db, db.rules[k], held, name, f);
    var e := db.rules[k].elementId;
    assert e != id && ElementNamed(db, e, name);
    assert !ElementNamed(db, id, name);
  }

  /** A grant on another element survives the deletion. */
  lemma {:induction false} DeleteElementKeepsOtherGrants(db: Db, id: Id, held: set<Id>, name: string, f: Flag)
    requires Valid(db)
    requires HasPermission(db, held, name, f) && !ElementNamed(db, id, name)
    ensures HasPermission(DeleteElement(db, id), held, name, f)
  {
    var db' := DeleteElement(db, id);
    var k :| k in db.rules && Grants(db, db.rules[k], held, name, f);
    assert db.rules[k].elementId != id;
    assert k in db'.rules;
    assert Grants(db', db'.rules[k], held, name, f);
  }

  /**
   * After deleting an element, no rule grants anything on its name, and every
   * other element keeps exactly its grants.
   */
  lemma {:induction false} DeleteElementGrants(db: Db, id: Id, held: set<Id>, name: string, f: Flag)
    requires Valid(db)
    ensures HasPermission(DeleteElement(db, id), held, name, f) <==>
            HasPermission(db, held, name, f) && !ElementNamed(db, id, name)
  {
    if HasPermission(DeleteElement(db, id), held, name, f) {
      DeleteElementKeepsOnlyOtherGrants(db, id, held, name, f);
    }
    if HasPermission(db, held, name, f) && !ElementNamed(db, id, name) {
      DeleteElementKeepsOtherGrants(db, id, held, name, f);
    }
  }
}
