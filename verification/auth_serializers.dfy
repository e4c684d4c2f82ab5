/**
 * custom_auth/serializers.py: registration (field checks, the password
 * confirmation, and `create`, which stores only the password's hash) and the
 * access-rule serializer, whose `create` and `update` forward `role_id` and
 * `element_id` only when they are truthy.
 */
module AuthSerializers {
  import opened Wrappers
  import opened Fields
  import opened Models
  import opened Responses
  import opened Decorators

  // ---------------------------------------------------------------------------
  // UserRegistrationSerializer

  const MinPasswordLength := 6

  /** The serializer's declared fields. */
  const RegistrationFields: set<string> := {"email", "first_name", "last_name", "middle_name", "password", "password_confirm"}

  /** The fields that must be given and may not be blank (`last_name` and `middle_name` are `blank=True`). */
  const RequiredFields: set<string> := {"email", "first_name", "password", "password_confirm"}

  datatype RegistrationError =
    | Missing(field: string)
    | Blank(field: string)
    | TooShort            // `password`'s `min_length=6`
    | EmailTaken          // `validate_email`
    | PasswordMismatch    // `validate`

  /** Every required field is given and not blank. */
  predicate Complete(input: map<string, string>) {
    forall f :: f in RequiredFields ==> f in input && input[f] != ""
  }

  /** The field-level errors, which DRF collects before `validate` runs. */
  function FieldErrors(users: map<Email, Account>, input: map<string, string>): (errors: set<RegistrationError>)
    ensures errors == {} <==>
      Complete(input) && |input["password"]| >= MinPasswordLength && input["email"] !in users
    ensures PasswordMismatch !in errors
  {
    var missing := set f | f in RequiredFields && f !in input :: Missing(f);
    var blank := set f | f in RequiredFields && f in input && input[f] == "" :: Blank(f);
    var short := if "password" in input && input["password"] != "" && |input["password"]| < MinPasswordLength then {TooShort} else {};
    var taken := if "email" in input && input["email"] != "" && input["email"] in users then {EmailTaken} else {};
    if !Complete(input) then
      var f :| f in RequiredFields && !(f in input && input[f] != "");
      assert if f in input then Blank(f) in blank else Missing(f) in missing;
      missing + blank + short + taken
    else
      missing + blank + short + taken
  }

  /** `is_valid()`: the validated data, or every error found. */
  function ValidateRegistration(users: map<Email, Account>, input: map<string, string>): (r: Result<Record, set<RegistrationError>>)
    ensures r.Ok? <==>
      && Complete(input) && |input["password"]| >= MinPasswordLength
      && input["email"] !in users
      && input["password"] == input["password_confirm"]
    ensures r.Err? ==> r.error != {}
    ensures r.Err? && PasswordMismatch in r.error ==> r.error == {PasswordMismatch}
    ensures r.Ok? ==> r.value.Keys == input.Keys * RegistrationFields
    ensures r.Ok? ==> forall k :: k in r.value ==> r.value[k] == Str(input[k])
  {
    var errors := FieldErrors(users, input);
    if errors != {} then Err(errors)
    else if input["password"] != input["password_confirm"] then Err({PasswordMismatch})
    else Result.Ok(map k | k in input && k in RegistrationFields :: Str(input[k]))
  }

  /** The text of a string column, or the model's empty default. */
  function Text(data: Record, key: string): string {
    if key in data && data[key].Str? then data[key].s else ""
  }

  /** Validated registration data, as `create` may assume it. */
  predicate RegistrationData(data: Record) {
    && "password" in data && data["password"].Str?
    && "password_confirm" in data
  }

  /** The account `create` saves: active, with no roles, holding only the hash of the password. */
  function NewAccount(data: Record, hash: string -> string): (a: Account)
    requires RegistrationData(data)
    ensures a.active && a.roles == {}
    ensures a.passwordHash == hash(data["password"].s)
  {
    Account(Text(data, "first_name"), Text(data, "last_name"), Text(data, "middle_name"),
            hash(data["password"].s), true, {})
  }

  /**
   * `UserRegistrationSerializer.create`: pops both passwords out of the
   * validated data, builds the user from what is left and sets the password
   * through the hash (bcrypt's salted hash, here a parameter).
   */
  method CreateUser(data: ValidatedData, hash: string -> string) returns (account: Account)
    requires RegistrationData(data.fields)
    modifies data
    ensures data.fields == old(data.fields) - {"password", "password_confirm"}
    ensures account == NewAccount(old(data.fields), hash)
  {
    var _ := data.Pop("password_confirm");
    var password := data.Pop("password");
    account := Account(Text(data.fields, "first_name"), Text(data.fields, "last_name"), Text(data.fields, "middle_name"),
                       "", true, {});
    account := account.(passwordHash := hash(password.value.s));
  }

  /** Registration end to end: validation, then the new account under its email. */
  function Register(db: Db, input: map<string, string>, hash: string -> string): (r: Result<Db, set<RegistrationError>>)
    ensures r.Ok? <==> ValidateRegistration(db.users, input).Ok?
    ensures r.Ok? ==> input["email"] !in db.users && r.value.users.Keys == db.users.Keys + {input["email"]}
    ensures r.Ok? ==> r.value == db.(users := r.value.users)
    ensures r.Ok? ==> forall e :: e in db.users ==> r.value.users[e] == db.users[e]
    ensures r.Ok? ==> var a := r.value.users[input["email"]];
      a.active && a.roles == {} && a.passwordHash == hash(input["password"])
    ensures r.Ok? && Valid(db) ==> Valid(r.value)
  {
    match ValidateRegistration(db.users, input)
    case Err(errors) => Err(errors)
    case Ok(data) => Result.Ok(db.(users := db.users[input["email"] := NewAccount(data, hash)]))
  }

  /** A freshly registered user holds no roles, so every permission check refuses it with 403. */
  lemma {:induction false} RegisteredUserHasNoGrants(db: Db, input: map<string, string>, hash: string -> string,
                                                    element: string, f: Flag, view: Reply)
    requires Register(db, input, hash).Ok?
    ensures RequirePermission(Register(db, input, hash).value, Some(input["email"]), element, f, view)
         == Error(StatusForbidden, NoRolesAssigned)
  {
    var after := Register(db, input, hash).value;
    assert "email" in RequiredFields;
    assert Present(Some(input["email"]));
    ZeroRolesForbidden(after, Some(input["email"]), element, f, view);
  }

  // ---------------------------------------------------------------------------
  // AccessRuleSerializer

  /** `role_id` and `element_id` after the pop and conditional re-insert in `create` and `update`. */
  function ForwardedIds(data: Record): (d: Record)
    ensures forall k :: k != "role_id" && k != "element_id" ==> (k in d <==> k in data)
    ensures forall k :: k in d ==> k in data && d[k] == data[k]
    ensures "role_id" in d <==> "role_id" in data && Truthy(data["role_id"])
    ensures "element_id" in d <==> "element_id" in data && Truthy(data["element_id"])
  {
    var base := data - {"role_id", "element_id"};
    var withRole := if "role_id" in data && Truthy(data["role_id"]) then base["role_id" := data["role_id"]] else base;
    if "element_id" in data && Truthy(data["element_id"]) then withRole["element_id" := data["element_id"]] else withRole
  }

  /** Data whose ids are absent or truthy comes through unchanged. */
  lemma {:induction false} TruthyIdsForwardedUnchanged(data: Record)
    requires "role_id" in data ==> Truthy(data["role_id"])
    requires "element_id" in data ==> Truthy(data["element_id"])
    ensures ForwardedIds(data) == data
  {
    var d := ForwardedIds(data);
    assert d.Keys == data.Keys;
  }

  /** The pops and re-inserts, done in place on `validated_data`. */
  method ForwardIds(data: ValidatedData)
    modifies data
    ensures data.fields == ForwardedIds(old(data.fields))
  {
    var roleId := data.Pop("role_id");
    var elementId := data.Pop("element_id");
    if roleId.Some? && Truthy(roleId.value) {
      data.Put("role_id", roleId.value);
    }
    if elementId.Some? && Truthy(elementId.value) {
      data.Put("element_id", elementId.value);
    }
  }

  /** A flag column given as True. */
  predicate SetTrue(data: Record, f: Flag) {
    FieldName(f) in data && data[FieldName(f)] == Bool(true)
  }

  /** The flags of a new rule: the given columns, every other one at its False default. */
  function FlagsFrom(data: Record): (flags: Flags)
    ensures forall f :: Holds(flags, f) <==> SetTrue(data, f)
  {
    var flags := Flags(SetTrue(data, Flag.Create), SetTrue(data, ReadOwn), SetTrue(data, ReadAll),
                       SetTrue(data, UpdateOwn), SetTrue(data, UpdateAll), SetTrue(data, DeleteOwn), SetTrue(data, DeleteAll));
    flags
  }

  /** A key column: absent is a NOT NULL failure, anything but a row id a foreign-key failure. */
  function KeyColumn(data: Record, key: string): (r: Result<Id, IntegrityError>)
    ensures r.Ok? <==> key in data && data[key].Int? && data[key].i >= 0
    ensures r.Ok? ==> data[key] == Int(r.value)
    ensures key !in data ==> r == Err(NotNullViolation)
  {
    if key !in data then Err(NotNullViolation)
    else if data[key].Int? && data[key].i >= 0 then Result.Ok(data[key].i as nat)
    else Err(ForeignKeyViolation)
  }

  /** A key column given as a row id: a truthy, non-negative integer. */
  predicate IdGiven(data: Record, key: string) {
    key in data && data[key].Int? && data[key].i > 0
  }

  function GivenId(data: Record, key: string): Id
    requires IdGiven(data, key)
  {
    data[key].i as nat
  }

  /** The id a rule ends up with: the given one when it was forwarded, the stored one otherwise. */
  function TargetId(data: Record, key: string, stored: Id): Id
    requires key in data && Truthy(data[key]) ==> IdGiven(data, key)
  {
    if IdGiven(data, key) then GivenId(data, key) else stored
  }

  /** `AccessRuleSerializer.create`: forward the ids, then insert the rule under a fresh key. */
  function CreateRule(db: Db, id: Id, data: Record): (r: Result<Db, IntegrityError>)
    requires id !in db.rules
    ensures r.Ok? <==>
      && IdGiven(data, "role_id") && IdGiven(data, "element_id")
      && GivenId(data, "role_id") in db.roles && GivenId(data, "element_id") in db.elements
      && forall k :: k in db.rules ==>
           !(db.rules[k].roleId == GivenId(data, "role_id") && db.rules[k].elementId == GivenId(data, "element_id"))
    ensures !("role_id" in data && Truthy(data["role_id"])) ==> r == Err(NotNullViolation)
    ensures r.Ok? ==> id in r.value.rules && r.value == db.(rules := db.rules[id := r.value.rules[id]])
    ensures r.Ok? ==>
      && r.value.rules[id].roleId == GivenId(data, "role_id")
      && r.value.rules[id].elementId == GivenId(data, "element_id")
    ensures r.Ok? ==> forall f :: Holds(r.value.rules[id].flags, f) <==> SetTrue(data, f)
    ensures r.Ok? && Valid(db) ==> Valid(r.value)
  {
    var d := ForwardedIds(data);
    match KeyColumn(d, "role_id")
    case Err(e) => Err(e)
    case Ok(roleId) =>
      match KeyColumn(d, "element_id")
      case Err(e) => Err(e)
      case Ok(elementId) => InsertRule(db, id, AccessRule(roleId, elementId, FlagsFrom(d)))
  }

  /** A rule created without any flag column set grants nothing that was not granted before. */
  lemma {:induction false} CreateWithoutFlagsGrantsNothing(db: Db, id: Id, data: Record, held: set<Id>, name: string, f: Flag)
    requires id !in db.rules
    requires forall g :: !SetTrue(data, g)
    requires CreateRule(db, id, data).Ok?
    ensures HasPermission(CreateRule(db, id, data).value, held, name, f) <==> HasPermission(db, held, name, f)
  {
    var rule := CreateRule(db, id, data).value.rules[id];
    assert rule.flags == NoFlags by {
      assert forall g :: !Holds(rule.flags, g);
      assert !Holds(rule.flags, Flag.Create) && !Holds(rule.flags, ReadOwn) && !Holds(rule.flags, ReadAll);
      assert !Holds(rule.flags, UpdateOwn) && !Holds(rule.flags, UpdateAll);
      assert !Holds(rule.flags, DeleteOwn) && !Holds(rule.flags, DeleteAll);
    }
    DefaultRuleGrantsNothing(db, id, rule, held, name, f);
  }

  /**
   * A created rule grants its role exactly the flags the data set on the
   * element it names.
   */
  lemma {:induction false} CreatedRuleGrants(db: Db, id: Id, data: Record, f: Flag)
    requires id !in db.rules
    requires CreateRule(db, id, data).Ok?
    ensures var element := GivenId(data, "element_id");
      element in db.elements &&
      (SetTrue(data, f) ==> HasPermission(CreateRule(db, id, data).value, {GivenId(data, "role_id")}, db.elements[element].name, f))
  {
    var after := CreateRule(db, id, data).value;
    var element := GivenId(data, "element_id");
    if SetTrue(data, f) {
      assert Grants(after, after.rules[id], {GivenId(data, "role_id")}, db.elements[element].name, f);
    }
  }

  /** The flags after an update: each given boolean column replaces the stored one. */
  function UpdatedFlags(flags: Flags, data: Record): Flags {
    Flags(
      Column(data, Flag.Create, flags.create),
      Column(data, ReadOwn, flags.readOwn), Column(data, ReadAll, flags.readAll),
      Column(data, UpdateOwn, flags.updateOwn), Column(data, UpdateAll, flags.updateAll),
      Column(data, DeleteOwn, flags.deleteOwn), Column(data, DeleteAll, flags.deleteAll))
  }

  /** One boolean column of an update. */
  function Column(data: Record, f: Flag, stored: bool): bool {
    if FieldName(f) in data && data[FieldName(f)].Bool? then data[FieldName(f)].b else stored
  }

  /** `AccessRuleSerializer.update`: forward the ids, set the given columns, save under the same key. */
  function UpdateRule(db: Db, id: Id, data: Record): (r: Result<Db, IntegrityError>)
    requires id in db.rules
    ensures r.Ok? <==>
      && ("role_id" in data && Truthy(data["role_id"]) ==> IdGiven(data, "role_id"))
      && ("element_id" in data && Truthy(data["element_id"]) ==> IdGiven(data, "element_id"))
      && var role := TargetId(data, "role_id", db.rules[id].roleId);
         var element := TargetId(data, "element_id", db.rules[id].elementId);
         && role in db.roles && element in db.elements
         && forall k :: k in db.rules && k != id ==> !(db.rules[k].roleId == role && db.rules[k].elementId == element)
    ensures r.Ok? ==> id in r.value.rules && r.value == db.(rules := db.rules[id := r.value.rules[id]])
    ensures r.Ok? ==> var rule := r.value.rules[id];
      && rule.roleId == TargetId(data, "role_id", db.rules[id].roleId)
      && rule.elementId == TargetId(data, "element_id", db.rules[id].elementId)
    ensures r.Ok? ==> var rule := r.value.rules[id];
      && (rule.roleId != db.rules[id].roleId ==> "role_id" in data && Truthy(data["role_id"]))
      && (rule.elementId != db.rules[id].elementId ==> "element_id" in data && Truthy(data["element_id"]))
    ensures r.Ok? && Valid(db) ==> Valid(r.value)
  {
    var d := ForwardedIds(data);
    var stored := db.rules[id];
    var roleId := if "role_id" in d then KeyColumn(d, "role_id") else Result.Ok(stored.roleId);
    var elementId := if "element_id" in d then KeyColumn(d, "element_id") else Result.Ok(stored.elementId);
    if roleId.Err? then Err(roleId.error)
    else if elementId.Err? then Err(elementId.error)
    else ReplaceRule(db, id, AccessRule(roleId.value, elementId.value, UpdatedFlags(stored.flags, d)))
  }

  /**
   * After an update each flag is the boolean the client gave for its column,
   * and every flag whose column was not given keeps its stored value.
   */
  lemma {:induction false} UpdateSetsGivenFlags(db: Db, id: Id, data: Record, f: Flag)
    requires id in db.rules && UpdateRule(db, id, data).Ok?
    ensures var rule := UpdateRule(db, id, data).value.rules[id];
      if FieldName(f) in data && data[FieldName(f)].Bool?
      then Holds(rule.flags, f) == data[FieldName(f)].b
      else Holds(rule.flags, f) == Holds(db.rules[id].flags, f)
  {
    var d := ForwardedIds(data);
    UpdatedRuleFlags(db, id, data);
    assert FieldName(f) != "role_id" && FieldName(f) != "element_id" by {
      match f
      case Create =>
      case ReadOwn =>
      case ReadAll =>
      case UpdateOwn =>
      case UpdateAll =>
      case DeleteOwn =>
      case DeleteAll =>
    }
    assert (FieldName(f) in d) == (FieldName(f) in data);
    UpdatedFlagHolds(db.rules[id].flags, d, f);
  }

  /** The saved rule's flags are the stored ones with the given columns applied. */
  lemma UpdatedRuleFlags(db: Db, id: Id, data: Record)
    requires id in db.rules && UpdateRule(db, id, data).Ok?
    ensures UpdateRule(db, id, data).value.rules[id].flags == UpdatedFlags(db.rules[id].flags, ForwardedIds(data))
  {
  }

  /** Each flag of `UpdatedFlags` is its column applied to the stored flag. */
  lemma {:induction false} UpdatedFlagHolds(flags: Flags, d: Record, f: Flag)
    ensures Holds(UpdatedFlags(flags, d), f) == Column(d, f, Holds(flags, f))
  {
    match f
    case Create =>
    case ReadOwn =>
    case ReadAll =>
    case UpdateOwn =>
    case UpdateAll =>
    case DeleteOwn =>
    case DeleteAll =>
  }
}
