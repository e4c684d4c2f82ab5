# AccessCore authorization engine in Dafny

AccessCore is a Django REST service that guards every resource with
row-level, role-based access control. An `AccessRule` ties a (role, business
element) pair to seven boolean flags: `create`, `read_own`, `read_all`,
`update_own`, `update_all`, `delete_own` and `delete_all`. Three decorators
make the decisions:

- `require_authentication` checks that a caller identity is present.
- `require_permission` checks the role-level grant.
- `require_ownership_or_permission` is the two-tier check: the `_all_` flag, or the `_own_` flag plus owning the row.

The viewsets scope their querysets by `read_all_permission`. A middleware turns
the `Authorization: Bearer` header into the caller's email.

This project models that engine, together with the views and serializers
around it:

- **Database.** `Models.Db` is one snapshot of the roles, business elements,
  access rules and user accounts. The table constraints are the predicate
  `Models.Valid`. Users are keyed by their unique email. The many-to-many role
  link is each account's set of role ids.
- **Decorators.** Each decorator is a function from the identity the
  middleware left on the request, the snapshot and the decorator's arguments to
  a `Responses.Reply`. The reply is either the decorator's own refusal or
  `view`, the wrapped handler's reply, unchanged.
- **Viewsets.** Each viewset is one function per kind of viewset.
  `ContentViews.Handle` covers projects, tasks and reports, and
  `AuthViews.AdminHandle` covers roles, access rules and business elements.
  Both work over the scoped queryset (`GetQueryset`, `AdminScope`). The
  decorator wiring is taken handler by handler from the source.
- **Imperative code.** The code that edits things in place is written as
  methods on classes:
  - the serializers' edits of `validated_data` (`Fields.ValidatedData`);
  - the middleware's assignment of `request.email` (`Middleware.Request`);
  - `get_serializer_context` (`ContentViews.SerializerContext`);
  - account deactivation (`AuthViews.UserTable`).
- **Test scenarios.** The fixtures and expectations of the repository's two
  test files are restated as lemmas about the model in module `Scenarios`.

Behaviour worth knowing, as the code has it:

- Content listing falls back to the caller's own rows whenever
  `read_all_permission` is missing. `read_own_permission` is never consulted,
  so a caller with no read flag at all still sees their own rows.
- `list` and `retrieve` on projects, tasks and reports are guarded only by
  authentication, never by a permission check.
- An update or delete of a row outside the caller's scope answers not-found
  (404), because `get_object()` runs before any flag is looked at. A row in
  scope that the caller may not change answers 403.
- `ProfileView.get` tests `request.email is None`, not falsiness. An empty
  email passes that test and goes on to the account lookup. It gets 401
  unless an active account has the empty string as its email.

`require_permission` reads `request.request.email` because it decorates a
viewset method, so its first argument is the viewset. That is the same
identity the other checks read, and the model passes that one identity to all
of them.

## Model

| member | source | states |
|---|---|---|
| Models.ActiveAccount | backend/apps/custom_auth/decorators.py:31 | `objects.get(email=…, is_active=True)`: an account is found iff the identity names an account that is active, and it is that account |
| Models.RoleFlagsOfRule | backend/apps/custom_auth/models.py:75-76 | on a valid snapshot, a role's flags on an element are those of its one rule for that element |
| Models.GrantIsRoleFlag | backend/apps/custom_auth/decorators.py:43-47 | a granting rule means some held role has the flag in its rule for the element |
| Models.RoleFlagIsGrant | backend/apps/custom_auth/decorators.py:43-47 | a held role whose flags include the flag yields a granting rule, because absent rules count as all-false |
| Models.PermissionIsOrAcrossRoles | backend/apps/custom_auth/decorators.py:43-47 | on a valid snapshot the query equals the OR over held roles of each role's rule flags, with absent rules all-false |
| Models.PermissionMonotoneInRoles | backend/apps/custom_auth/decorators.py:43-47 | holding a superset of roles never loses a grant |
| Models.NoRolesNoPermission | backend/apps/custom_auth/decorators.py:43-47 | the empty role set grants nothing |
| Models.NoFlagsHoldNothing | backend/apps/custom_auth/models.py:62-71 | the all-default flags hold no flag |
| Models.InsertRole | backend/apps/custom_auth/models.py:8-9 | inserting a role succeeds iff its name is unused; on success only the role table changes and validity is kept |
| Models.InsertElement | backend/apps/custom_auth/models.py:49-50 | inserting an element succeeds iff its name is unused; on success only the element table changes and validity is kept |
| Models.InsertRule | backend/apps/custom_auth/models.py:58-76 | inserting a rule succeeds iff both foreign keys exist and the (role, element) pair is new; on success only the rule table changes and validity is kept |
| Models.ReplaceRule | backend/apps/custom_auth/models.py:58-76 | saving a changed rule succeeds iff both foreign keys exist and no other rule holds the pair; on success only that rule changes and validity is kept |
| Models.DefaultRuleGrantsNothing | backend/apps/custom_auth/models.py:62-71 | adding a rule whose flags are all at their False default grants exactly what was granted before |
| Models.DeleteRole | backend/apps/custom_auth/models.py:27-60 | deleting a role removes it, every rule referring to it and its membership in every account, and nothing else |
| Models.DeleteElement | backend/apps/custom_auth/models.py:59-60 | deleting an element removes it and every rule referring to it, and nothing else |
| Models.DeleteRolePreservesValid | backend/apps/custom_auth/models.py:59-60 | the role cascade keeps every table constraint |
| Models.DeleteElementPreservesValid | backend/apps/custom_auth/models.py:59-60 | the element cascade keeps every table constraint |
| Models.DeleteRoleGrants | backend/apps/custom_auth/models.py:59 | after deleting a role, a role set grants exactly what it granted without that role |
| Models.DeleteElementKeepsOnlyOtherGrants | backend/apps/custom_auth/models.py:60 | a grant that survives an element deletion existed before and is not on the deleted element |
| Models.DeleteElementKeepsOtherGrants | backend/apps/custom_auth/models.py:60 | a grant on any other element survives the deletion |
| Models.DeleteElementGrants | backend/apps/custom_auth/models.py:60 | after deleting an element, exactly the grants on other element names remain |
| Fields.ValidatedData.constructor | backend/apps/content/serializers.py:14 | the dict starts with the validated fields |
| Fields.ValidatedData.Pop | backend/apps/custom_auth/serializers.py:39-40 | `pop(key, None)` removes the key and returns its value, or None if it was absent |
| Fields.ValidatedData.Put | backend/apps/custom_auth/serializers.py:42-45 | `d[key] = value` sets that one key |
| ContentModels.Attr | backend/apps/custom_auth/decorators.py:105 | `getattr` yields the column's value iff the row has that column |
| Decorators.RequireAuthentication | backend/apps/custom_auth/decorators.py:11-17 | a missing or empty identity gets 401 with code `AUTHENTICATION_REQUIRED`; otherwise the handler's reply comes back unchanged |
| Decorators.RequirePermission | backend/apps/custom_auth/decorators.py:22-61 | the handler runs iff the identity is present, names an active account and some held role's rule for the element has the flag; refusals are 401 exactly for a missing identity or no active account, and 403 otherwise |
| Decorators.ZeroRolesForbidden | backend/apps/custom_auth/decorators.py:36-41 | an active account with no roles is refused 403, whatever the element and flag |
| Decorators.InactiveIsAbsent | backend/apps/custom_auth/decorators.py:31-33 | a deactivated account is treated exactly as a missing one and gets 401 |
| Decorators.MoreRolesKeepGrant | backend/apps/custom_auth/decorators.py:43-57 | giving a user more roles never turns a grant into a refusal |
| Decorators.Verb | backend/apps/custom_auth/models.py:62-71 | the verb of a flag's column name contains no underscore |
| Decorators.CreateColumnShape | backend/apps/custom_auth/models.py:62 | `create_permission` is the verb, `_`, then `permission` |
| Decorators.OwnColumnShape | backend/apps/custom_auth/models.py:64-70 | each own-flag column is the verb, `_own_`, then `permission` |
| Decorators.AllColumnShape | backend/apps/custom_auth/models.py:65-71 | each all-flag column is the verb, `_all_`, then `permission` |
| Decorators.FieldNameShape | backend/apps/custom_auth/models.py:62-71 | every flag column has one of these three shapes |
| Decorators.ReplaceShort | backend/apps/custom_auth/decorators.py:98 | `str.replace` leaves a string shorter than the pattern unchanged |
| Decorators.ReplaceKeepsHead | backend/apps/custom_auth/decorators.py:98 | a first character that cannot start the pattern is kept |
| Decorators.ReplaceSkipsPrefix | backend/apps/custom_auth/decorators.py:98 | a prefix without the pattern's first character is copied unchanged |
| Decorators.ReplaceKeepsPlain | backend/apps/custom_auth/decorators.py:98 | a string without the pattern's first character is unchanged |
| Decorators.ReplaceLeading | backend/apps/custom_auth/decorators.py:98 | a leading occurrence is replaced |
| Decorators.ReplaceSkipsChar | backend/apps/custom_auth/decorators.py:98 | a character whose successor cannot continue the pattern is kept |
| Decorators.RewriteOccurrence | backend/apps/custom_auth/decorators.py:98 | the single occurrence in "verb pattern suffix" is rewritten |
| Decorators.RewriteNothing | backend/apps/custom_auth/decorators.py:98 | "verb c suffix" without an occurrence is unchanged |
| Decorators.RewriteNothingTwice | backend/apps/custom_auth/decorators.py:98 | "verb c mid c suffix" without an occurrence is unchanged |
| Decorators.OwnFlag | backend/apps/custom_auth/decorators.py:98 | the own flag's column name is the all flag's name with `_all_` replaced by `_own_`, e.g. `update_all_permission` to `update_own_permission`; names without `_all_` are unchanged |
| Decorators.RequireOwnershipOrPermission | backend/apps/custom_auth/decorators.py:64-115 | refusals are errors; a missing identity is 401 login-required and a present identity without an active account 401 user-not-found, and 401 arises in no other case; an object outside the scoped queryset is 404 |
| Decorators.AllFlagIgnoresOwnership | backend/apps/custom_auth/decorators.py:88-95 | with the `_all_` flag the handler runs, whoever holds the object |
| Decorators.OwnFlagNeedsOwnership | backend/apps/custom_auth/decorators.py:97-111 | without the `_all_` flag the handler runs iff the `_own_` flag is held and the object's ownership column is the user; otherwise the reply is 500 when the own flag is held and the object has no such column, and 403 in every other case |
| Decorators.NotFoundBeforeRules | backend/apps/custom_auth/decorators.py:85 | an object not found in scope is 404 whatever the rules say, because `get_object()` runs before any flag check |
| Middleware.BearerToken | backend/apps/custom_auth/middleware.py:13-15 | a token is extracted iff the header starts with `Bearer `, and the header is then the prefix followed by the token |
| Middleware.BearerTokenRoundTrip | backend/apps/custom_auth/middleware.py:15 | prefixing any token with `Bearer ` and extracting gives the token back |
| Middleware.Identity | backend/apps/custom_auth/middleware.py:12-22 | the identity is the decoded `email` claim iff the header is a bearer header and the token decodes; otherwise None |
| Middleware.Request.constructor | backend/apps/custom_auth/middleware.py:12 | the request carries its header and no identity yet |
| Middleware.Authenticate | backend/apps/custom_auth/middleware.py:11-23 | on every path `request.email` is assigned the identity the header determines |
| ContentSerializers.Validated | backend/apps/content/serializers.py:7-12 | validation keeps exactly the client's writable columns and drops the id, ownership and `created_at` columns |
| ContentSerializers.WithCreator | backend/apps/content/serializers.py:14-18 | with a truthy context user the ownership column is set to it and nothing else changes; without one the data passes through unchanged |
| ContentSerializers.NewRow | backend/apps/content/models.py:16-63 | a row is saved iff the ownership column references an existing user, or else the save fails with NOT NULL or foreign-key; the saved row is held by that user, has exactly the given and the defaulted columns, keeps every given value, and takes the model's default for every column not given |
| ContentSerializers.Create | backend/apps/content/serializers.py:14-48 | `create` writes the context user into `validated_data` in place, then saves the row built from the edited data |
| ContentSerializers.Update | backend/apps/content/serializers.py:6-48 | an update keeps the kind, has the row's columns plus the given ones, sets each given column to the given value and keeps every other column of the row |
| ContentSerializers.CreatedRowOwnedByContextUser | backend/apps/content/serializers.py:12-18 | whatever the client sends, a row created with a context user is held by that user |
| ContentSerializers.NoContextUserNoRow | backend/apps/content/serializers.py:12-18 | without a context user nothing the client sends fills the ownership column, so the save fails on NOT NULL |
| ContentSerializers.UpdateKeepsOwnership | backend/apps/content/serializers.py:6-48 | whatever the client sends, an update never changes who holds a row |
| ContentViews.GetQueryset | backend/apps/content/views.py:16-37 | the scope is a sub-table of the table with the same rows |
| ContentViews.ScopeWithoutUser | backend/apps/content/views.py:21-24 | with no active account the scope is empty |
| ContentViews.ScopeOfActiveUser | backend/apps/content/views.py:26-37 | a row is in scope iff it is in the table and either a held role has `read_all_permission` or the user holds the row |
| ContentViews.ScopeIgnoresReadOwn | backend/apps/content/views.py:28-37 | changing only `read_own_permission` flags never changes any scope |
| ContentViews.OwnRowsAlwaysInScope | backend/apps/content/views.py:37 | an active user always sees their own rows, even without any read flag |
| ContentViews.ScopeMonotoneInRoles | backend/apps/content/views.py:26-37 | more roles never shrink the scope |
| ContentViews.ContextUser | backend/apps/content/views.py:39-46 | the context gets a user iff the identity is present and an account with that email exists, active or not |
| ContentViews.SerializerContext.constructor | backend/apps/content/views.py:40 | the context starts with the entries the base class provides |
| ContentViews.SerializerContext.AddRequestUser | backend/apps/content/views.py:41-45 | `context['user']` is set to that account, in place, exactly when it exists; otherwise the context is unchanged |
| ContentViews.CreatorIsActingUser | backend/apps/content/views.py:39-59 | when creation passes its permission check, the context user is the caller |
| ContentViews.CreatedRowBelongsToCreator | backend/apps/content/views.py:39-59 | a create that passes its check saves a row held by the caller, which is then in the caller's scope |
| ContentViews.Fetch | backend/apps/custom_auth/decorators.py:85 | `get_object()` finds a row iff it is in the scope |
| ContentViews.Handle | backend/apps/content/views.py:12-196 | without an identity every handler is 401 `AUTHENTICATION_REQUIRED`; a list shows exactly the scope; no success mentions a row outside the table |
| ContentViews.ReadsNeverForbidden | backend/apps/content/views.py:48-54 | list and retrieve give success or 404 to an authenticated caller, never 401 or 403 |
| ContentViews.CreateNeedsCreateFlag | backend/apps/content/views.py:56-59 | create succeeds iff the caller is an active user holding `create_permission` on the element |
| ContentViews.PartialUpdateIsUpdate | backend/apps/content/views.py:61-69 | partial update is decided exactly as update |
| ContentViews.RetrieveFollowsScope | backend/apps/content/views.py:53-54 | a retrieve by an authenticated caller shows the row iff it is in the caller's scoped queryset, and is 404 otherwise |
| ContentViews.InactiveCallerCannotMutate | backend/apps/content/views.py:62-74 | a caller whose identity names no active account gets 401 user-not-found on update, partial update and destroy |
| ContentViews.OutOfScopeIsNotFound | backend/apps/content/views.py:61-74 | update and destroy of a row outside the scope are 404 |
| ContentViews.UpdateAllNeedsReadAll | backend/apps/content/views.py:61-64 | without `read_all_permission`, updating another user's row is 404, even with `update_all_permission` |
| ContentViews.OwnerMayUpdate | backend/apps/content/views.py:61-64 | `update_own_permission` lets a user update their own row |
| ContentViews.MutationDecision | backend/apps/content/views.py:61-74 | update and destroy succeed iff the row is in scope and the `_all_` flag is held, or the `_own_` flag is held and the row is the caller's; every refusal is 404 or 403 |
| AuthViews.AdminScope | backend/apps/custom_auth/views.py:111-126 | the scope is the whole table or empty; empty with no active account; for an active account, the whole table with `read_all_permission` and empty without it |
| AuthViews.AdminHandle | backend/apps/custom_auth/views.py:107-259 | without an identity every handler is 401; a success only mentions rows of the table (the save's own failures are under Left out) |
| AuthViews.RoleDestroyAlwaysForbidden | backend/apps/custom_auth/views.py:153-155 | deleting a role is 403 for every authenticated caller, whatever the rules |
| AuthViews.AdminHandlerNeedsFlag | backend/apps/custom_auth/views.py:179-207 | every other admin handler succeeds only with its flag (`read_all` for list and retrieve, `create`, `update_all` for update and partial update, `delete_all` for destroy), and a caller lacking it gets 401 or 403 |
| AuthViews.AdminHandlerSucceeds | backend/apps/custom_auth/views.py:179-207 | the converse of `AdminHandlerNeedsFlag`: with the handler's flag, create answers 201 and list the whole table, and with `read_all_permission` as well every other handler on a key of the table succeeds with its usual reply |
| AuthViews.AdminListShowsAll | backend/apps/custom_auth/views.py:179-182 | with `read_all_permission` the list is the whole table |
| AuthViews.AdminUpdateNeedsReadAll | backend/apps/custom_auth/views.py:194-197 | `update_all_permission` without `read_all_permission` reaches nothing: 404 |
| AuthViews.Login | backend/apps/custom_auth/views.py:37-57 | login succeeds iff both fields are given and non-blank, the email names an active account and the password checks; otherwise 400 for a field error, else 401 |
| AuthViews.LoginDoesNotRevealAccounts | backend/apps/custom_auth/views.py:43-55 | an unknown email and a wrong password get the same 401 |
| AuthViews.Profile | backend/apps/custom_auth/views.py:74-84 | the profile is shown iff the identity names an active account; otherwise 401 |
| AuthViews.DeleteAccountReply | backend/apps/custom_auth/views.py:89-104 | 200 iff the identity is present and names an active account; 401 without an identity; 404 with no active account |
| AuthViews.Deactivated | backend/apps/custom_auth/views.py:94-96 | only the caller's account changes, and only its `is_active` flag, to False |
| AuthViews.UserTable.constructor | backend/apps/custom_auth/views.py:94 | the table holds the given accounts |
| AuthViews.UserTable.DeleteAccount | backend/apps/custom_auth/views.py:89-104 | the reply is the one above and the caller's account is deactivated in place, not removed |
| AuthViews.DeactivationPreservesValid | backend/apps/custom_auth/views.py:95-96 | deactivation keeps every table constraint |
| AuthViews.DeactivatedAccountIsAbsent | backend/apps/custom_auth/views.py:75-104 | after deactivation the profile, `require_permission` and `require_ownership_or_permission` all give 401, login fails, and a second deletion is 404 |
| AuthSerializers.FieldErrors | backend/apps/custom_auth/serializers.py:62-73 | no field error iff every required field is given and non-blank, the password has at least 6 characters and the email is unused |
| AuthSerializers.ValidateRegistration | backend/apps/custom_auth/serializers.py:62-78 | registration input is valid iff it is complete, the password is at least 6 long, the email is unused and the passwords match; a mismatch is reported alone; valid data keeps the declared fields as given |
| AuthSerializers.NewAccount | backend/apps/custom_auth/serializers.py:80-86 | the new account is active, has no roles, and stores only the password's hash |
| AuthSerializers.CreateUser | backend/apps/custom_auth/serializers.py:80-86 | `create` pops `password_confirm` and `password` from the data in place and builds that account |
| AuthSerializers.Register | backend/apps/custom_auth/views.py:22-25 | registration succeeds iff validation does; it adds exactly the new email, changes no other account or table, and keeps validity |
| AuthSerializers.RegisteredUserHasNoGrants | backend/apps/custom_auth/serializers.py:80-86 | a new user holds no roles, so every permission check refuses them with 403 |
| AuthSerializers.ForwardedIds | backend/apps/custom_auth/serializers.py:38-45 | `role_id` and `element_id` survive iff they are truthy; every other key is untouched |
| AuthSerializers.TruthyIdsForwardedUnchanged | backend/apps/custom_auth/serializers.py:38-58 | data whose ids are absent or truthy comes through unchanged |
| AuthSerializers.ForwardIds | backend/apps/custom_auth/serializers.py:39-45 | the pops and re-inserts done in place produce exactly the forwarded data |
| AuthSerializers.FlagsFrom | backend/apps/custom_auth/models.py:62-71 | a new rule holds exactly the flags given as True; every other flag is False |
| AuthSerializers.KeyColumn | backend/apps/custom_auth/serializers.py:25-26 | a key column gives a row id iff it holds a non-negative integer; an absent key is a NOT NULL failure |
| AuthSerializers.CreateRule | backend/apps/custom_auth/serializers.py:38-47 | a rule is created iff both ids are given as positive integers naming an existing role and element and no rule has that pair; without a truthy `role_id` the save fails NOT NULL; only the new rule is added, with exactly the given ids and the flags given True; validity is kept |
| AuthSerializers.CreatedRuleGrants | backend/apps/custom_auth/serializers.py:38-47 | the created rule grants its role each flag the data set, on the element it names |
| AuthSerializers.CreateWithoutFlagsGrantsNothing | backend/apps/custom_auth/serializers.py:38-47 | a rule created without any flag set grants nothing new |
| AuthSerializers.UpdateRule | backend/apps/custom_auth/serializers.py:49-58 | an update succeeds iff each truthy id given is a positive integer, the resulting role and element exist and no other rule has that pair; only that rule changes; its role and element are the truthy ids given and otherwise the stored ones; validity is kept |
| AuthSerializers.UpdateSetsGivenFlags | backend/apps/custom_auth/serializers.py:49-58 | after an update each given boolean column is the flag's value, and every other flag keeps its stored value |
| Scenarios.ContentAccounts | backend/apps/content/tests.py:57-71 | the three fixture users are active and each holds its own role |
| Scenarios.AdminMayDoAll | backend/apps/content/tests.py:24-29 | the admin role holds `create` and every `_all_` flag on projects, tasks and reports |
| Scenarios.ProjectsListAdmin | backend/apps/content/tests.py:94-99 | the admin lists both projects |
| Scenarios.ProjectsListUser | backend/apps/content/tests.py:101-106 | the regular user lists only their own project |
| Scenarios.ProjectsCreateAdmin | backend/apps/content/tests.py:108-113 | the admin creates a project (201) |
| Scenarios.ProjectsCreateUser | backend/apps/content/tests.py:115-120 | the regular user creates a project (201) |
| Scenarios.ProjectsRetrieveAdmin | backend/apps/content/tests.py:122-126 | the admin retrieves their project |
| Scenarios.ProjectsUpdateOwner | backend/apps/content/tests.py:128-133 | the regular user updates their own project |
| Scenarios.ProjectsUpdateNonOwner | backend/apps/content/tests.py:135-140 | the regular user updating the admin's project gets 404 |
| Scenarios.ProjectsDeleteByAdmin | backend/apps/content/tests.py:142-146 | the admin deletes the user's project (204) |
| Scenarios.TasksScopeManager | backend/apps/content/tests.py:35-38 | the manager's task scope is the whole table |
| Scenarios.TasksListManager | backend/apps/content/tests.py:148-153 | the manager lists both tasks |
| Scenarios.TasksCreateUser | backend/apps/content/tests.py:155-160 | the regular user creates a task (201) |
| Scenarios.TasksUpdateAssignee | backend/apps/content/tests.py:162-167 | the regular user updates the task assigned to them |
| Scenarios.TasksManagerCannotUpdateAll | backend/apps/content/tests.py:35-38 | the manager role lacks `update_all_permission` on tasks |
| Scenarios.TasksUpdateByManagerForbidden | backend/apps/content/tests.py:169-174 | the manager updating the user's task gets 403 |
| Scenarios.ReportsListAdmin | backend/apps/content/tests.py:176-180 | the admin lists the report |
| Scenarios.ReportsCreateUserForbidden | backend/apps/content/tests.py:182-187 | the regular user creating a report gets 403 |
| Scenarios.ReportsCreateManager | backend/apps/content/tests.py:189-194 | the manager creates a report (201) |
| Scenarios.UnauthenticatedRefused | backend/apps/content/tests.py:196-198 | a request without a header is 401 on every handler |
| Scenarios.BearerTokenListsProjects | backend/apps/content/tests.py:94-99 | a bearer token that decodes to the admin lists every project |
| Scenarios.AuthAccounts | backend/apps/custom_auth/tests.py:43-57 | the three fixture users are active and each holds its own role |
| Scenarios.Registration | backend/apps/custom_auth/tests.py:63-83 | registration succeeds with matching passwords and fails with only the mismatch error otherwise |
| Scenarios.AdminLogin | backend/apps/custom_auth/tests.py:85-92 | the admin logs in with the right password; a wrong one is 401 |
| Scenarios.ProfileScenarios | backend/apps/custom_auth/tests.py:98-107 | the admin sees the profile; a request without a token gets 401 |
| Scenarios.RolesListAdmin | backend/apps/custom_auth/tests.py:109-113 | the admin lists the roles |
| Scenarios.RolesListManager | backend/apps/custom_auth/tests.py:115-119 | the manager lists the roles |
| Scenarios.RolesListUserForbidden | backend/apps/custom_auth/tests.py:121-125 | the regular user listing roles gets 403 |
| Scenarios.RolesCreateAdmin | backend/apps/custom_auth/tests.py:127-132 | the admin creates a role (201) |
| Scenarios.RolesCreateManagerForbidden | backend/apps/custom_auth/tests.py:134-139 | the manager creating a role gets 403 |
| Scenarios.RolesUpdateAdmin | backend/apps/custom_auth/tests.py:141-146 | the admin updates a role |
| Scenarios.RolesDeleteForbidden | backend/apps/custom_auth/tests.py:148-152 | deleting a role is 403 even for the admin |
| Scenarios.AccessRulesListAdmin | backend/apps/custom_auth/tests.py:154-158 | the admin lists every access rule |
| Scenarios.AccessRulesCreateAdmin | backend/apps/custom_auth/tests.py:160-169 | the admin's create on access rules passes its check (201) |
| Scenarios.AccessRuleCreated | backend/apps/custom_auth/tests.py:160-169 | the posted rule (user role, roles element, `read_own` only) is saved |
| Scenarios.AccessRulesScopeAdmin | backend/apps/custom_auth/tests.py:26-29 | the admin's access-rule scope is the whole table |
| Scenarios.AccessRulesPatchAdmin | backend/apps/custom_auth/tests.py:171-177 | the admin's partial update of rule 1 passes its check |
| Scenarios.AccessRulePatched | backend/apps/custom_auth/tests.py:171-177 | the patch is saved and clears `create_permission` on rule 1 |
| Scenarios.BusinessElementsByAdmin | backend/apps/custom_auth/tests.py:179-190 | the admin lists and creates business elements |

## Left out

- Password hashing and checking (bcrypt) are parameters: `hash` in registration and `checkPassword` in login. The salt is not modelled, and the scenarios use a transparent stand-in.
- JWT decoding in the middleware is a parameter returning the `email` claim, an expiry or a decode error. Token issuance (`generate_jwt_token`) and the expiry clock are not modelled.
- Middleware.Authenticate: a decodable token without an `email` claim raises an uncaught `KeyError`, and PyJWT errors other than an expired signature or a decode error (for example `InvalidAlgorithmError` or `ImmatureSignatureError`) are not caught either. Each is a server error (500), and the model has no such outcome.
- AuthViews.Login: DRF's `CharField` trims surrounding whitespace before the blank check. The model treats only the empty string as blank.
- AuthSerializers.ValidateRegistration: the same whitespace trimming is not modelled. Neither are the `EmailField` format check, the `max_length` limits or the error messages' text.
- AuthSerializers.FieldErrors: for the same reasons, the field errors do not include untrimmed blanks, a malformed email or an over-long field.
- The content serializers' checks on required and malformed columns (a 400 reply) are not modelled. Columns are taken as the client sent them, and only their presence is tracked.
- `RegisterView` and `LoginView` return the user's data and a new token, and `LogoutView` answers a fixed message. Replies carry only a status and the primary keys shown.
- Create replies (201) carry no primary key in the model, although the source's body holds the new row's `id`.
- Rows carry primary keys only in replies. Response bodies, serialized fields, ordering by `created_at` and the timestamps themselves are not modelled.
- `get_queryset` on the content viewsets stores the caller's email in `self.email`, which nothing reads. It is not modelled.
- AuthViews.AdminHandle: once authorized, create always succeeds in the model, and so do update and partial update on a row in scope. The serializer and the save behind them are not wired in. In the source a duplicate role or element name fails validation (400), and an access rule with a missing, zero or unknown id, or a duplicate role-element pair, fails the save. The saves are modelled on their own as `Models.InsertRole`, `Models.InsertElement`, `AuthSerializers.CreateRule` and `AuthSerializers.UpdateRule`.
- The admin viewsets' destroy of access rules and business elements is modelled as its decision and 204 reply. The cascades are modelled separately as `Models.DeleteRole` and `Models.DeleteElement`, not as the state change of that handler.
- Failures of the database itself, and concurrency between request workers, are not modelled. The source does not handle either.
- Uniqueness of user emails holds by construction, because accounts are keyed by email.
