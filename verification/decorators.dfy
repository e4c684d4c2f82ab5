/**
 * The decision engine of custom_auth/decorators.py. Each decorator is a
 * function from the identity the middleware left on the request, the database
 * snapshot and the decorator's arguments to a reply: either one of its own
 * refusals or, when the checks pass, `view`, the reply of the wrapped handler,
 * unchanged.
 */
module Decorators {
  import opened Wrappers
  import opened Fields
  import opened Models
  import opened ContentModels
  import opened Responses

  /** `hasattr(request, 'email') and request.email` is truthy. */
  predicate Present(identity: Option<Email>) {
    identity.Some? && identity.value != ""
  }

  // ---------------------------------------------------------------------------
  // require_authentication

  function RequireAuthentication(identity: Option<Email>, view: Reply): (r: Reply)
    ensures Present(identity) ==> r == view
    ensures !Present(identity) ==> r == Error(StatusUnauthorized, AuthenticationRequired)
    ensures !Present(identity) ==> ErrorCode(r.kind) == "AUTHENTICATION_REQUIRED"
  {
    if !Present(identity) then Error(StatusUnauthorized, AuthenticationRequired) else view
  }

  // ---------------------------------------------------------------------------
  // require_permission

  /** The role-level grant the decorator looks for: an active account, some held role's rule with the flag. */
  predicate Authorized(db: Db, identity: Option<Email>, element: string, f: Flag) {
    var account := ActiveAccount(db.users, identity);
    Present(identity) && account.Some? && HasPermission(db, account.value.roles, element, f)
  }

  function RequirePermission(db: Db, identity: Option<Email>, element: string, f: Flag, view: Reply): (r: Reply)
    ensures view.Ok? ==> (r == view <==> Authorized(db, identity, element, f))
    ensures r != view ==> r.Error?
    ensures r != view ==>
      (r.status == StatusUnauthorized <==> !Present(identity) || ActiveAccount(db.users, identity).None?)
    ensures r != view && r.status != StatusUnauthorized ==> r.status == StatusForbidden
  {
    if !Present(identity) then Error(StatusUnauthorized, LoginRequired)
    else
      match ActiveAccount(db.users, identity)
      case None => Error(StatusUnauthorized, UserNotFound)
      case Some(user) =>
        if user.roles == {} then Error(StatusForbidden, NoRolesAssigned)
        else if !HasPermission(db, user.roles, element, f) then Error(StatusForbidden, AccessDenied)
        else view
  }

  /** An active user holding no role is refused with 403, whatever the element and flag. */
  lemma ZeroRolesForbidden(db: Db, identity: Option<Email>, element: string, f: Flag, view: Reply)
    requires Present(identity) && identity.value in db.users
    requires db.users[identity.value].active && db.users[identity.value].roles == {}
    ensures RequirePermission(db, identity, element, f, view) == Error(StatusForbidden, NoRolesAssigned)
  {
  }

  /** A deactivated account is refused exactly as if it did not exist. */
  lemma {:induction false} InactiveIsAbsent(db: Db, identity: Option<Email>, element: string, f: Flag, view: Reply)
    requires identity.Some? && identity.value in db.users && !db.users[identity.value].active
    ensures RequirePermission(db, identity, element, f, view)
         == RequirePermission(db.(users := db.users - {identity.value}), identity, element, f, view)
    ensures RequirePermission(db, identity, element, f, view).status == StatusUnauthorized
  {
    assert ActiveAccount(db.users, identity).None?;
    assert ActiveAccount((db.users - {identity.value}), identity).None?;
  }

  /** Giving the user more roles never turns a grant into a refusal. */
  lemma {:induction false} MoreRolesKeepGrant(db: Db, email: Email, more: set<Id>, element: string, f: Flag, view: Reply)
    requires view.Ok? && email in db.users && db.users[email].roles <= more
    requires RequirePermission(db, Some(email), element, f, view) == view
    ensures RequirePermission(db.(users := db.users[email := db.users[email].(roles := more)]), Some(email), element, f, view) == view
  {
    PermissionMonotoneInRoles(db, db.users[email].roles, more, element, f);
    var db' := db.(users := db.users[email := db.users[email].(roles := more)]);
    assert ActiveAccount(db'.users, Some(email)) == Some(db.users[email].(roles := more));
    assert HasPermission(db', more, element, f);
  }

  // ---------------------------------------------------------------------------
  // The own-flag name: permission_type.replace('_all_', '_own_')

  /** Python's `s.replace(pat, rep)`: every non-overlapping occurrence, left to right. */
  function ReplaceAll(s: string, pat: string, rep: string): string
    requires |pat| > 0
    decreases |s|
  {
    if |s| < |pat| then s
    else if s[..|pat|] == pat then rep + ReplaceAll(s[|pat|..], pat, rep)
    else [s[0]] + ReplaceAll(s[1..], pat, rep)
  }

  /** A string shorter than the pattern is copied unchanged. */
  lemma ReplaceShort(s: string, pat: string, rep: string)
    requires 0 < |pat| && |s| < |pat|
    ensures ReplaceAll(s, pat, rep) == s
  {
  }

  /** A leading character that cannot start an occurrence is kept and the rest scanned. */
  lemma ReplaceKeepsHead(s: string, pat: string, rep: string)
    requires 0 < |pat| && 0 < |s| && s[0] != pat[0]
    ensures ReplaceAll(s, pat, rep) == [s[0]] + ReplaceAll(s[1..], pat, rep)
  {
    if |s| >= |pat| {
      assert s[..|pat|][0] == s[0];
    }
  }

  /** A prefix without the pattern's first character is copied unchanged. */
  lemma {:induction false} ReplaceSkipsPrefix(v: string, t: string, pat: string, rep: string)
    requires |pat| > 0 && pat[0] !in v
    ensures ReplaceAll(v + t, pat, rep) == v + ReplaceAll(t, pat, rep)
    decreases |v|
  {
    if v == [] {
      assert v + t == t;
    } else {
      var s := v + t;
      assert s[0] == v[0] && v[0] in v;
      ReplaceKeepsHead(s, pat, rep);
      assert s[1..] == v[1..] + t;
      ReplaceSkipsPrefix(v[1..], t, pat, rep);
      assert [v[0]] + (v[1..] + ReplaceAll(t, pat, rep)) == v + ReplaceAll(t, pat, rep);
    }
  }

  /** A string without the pattern's first character is copied unchanged. */
  lemma ReplaceKeepsPlain(t: string, pat: string, rep: string)
    requires |pat| > 0 && pat[0] !in t
    ensures ReplaceAll(t, pat, rep) == t
  {
    ReplaceSkipsPrefix(t, [], pat, rep);
    assert t + [] == t;
    ReplaceShort([], pat, rep);
  }

  /** A leading occurrence is replaced and the rest scanned. */
  lemma ReplaceLeading(t: string, pat: string, rep: string)
    requires |pat| > 0
    ensures ReplaceAll(pat + t, pat, rep) == rep + ReplaceAll(t, pat, rep)
  {
    assert (pat + t)[..|pat|] == pat;
    assert (pat + t)[|pat|..] == t;
  }

  /** A leading character followed by one that does not continue an occurrence is kept. */
  lemma ReplaceSkipsChar(c: char, t: string, pat: string, rep: string)
    requires |pat| > 1 && |t| > 0 && t[0] != pat[1]
    ensures ReplaceAll([c] + t, pat, rep) == [c] + ReplaceAll(t, pat, rep)
  {
    var s := [c] + t;
    assert s[1..] == t;
    if |s| >= |pat| {
      assert s[..|pat|][1] == t[0];
    }
  }

  /** "<verb><pat><suffix>" becomes "<verb><rep><suffix>" when neither part holds the pattern's first character. */
  lemma RewriteOccurrence(verb: string, suffix: string, pat: string, rep: string)
    requires |pat| > 0 && pat[0] !in verb && pat[0] !in suffix
    ensures ReplaceAll(verb + pat + suffix, pat, rep) == verb + rep + suffix
  {
    ReplaceKeepsPlain(suffix, pat, rep);
    ReplaceLeading(suffix, pat, rep);
    ReplaceSkipsPrefix(verb, pat + suffix, pat, rep);
    assert verb + pat + suffix == verb + (pat + suffix);
  }

  /** "<verb><c><suffix>" is left alone when the suffix cannot continue an occurrence. */
  lemma RewriteNothing(verb: string, c: char, suffix: string, pat: string, rep: string)
    requires |pat| > 1 && pat[0] !in verb && pat[0] !in suffix && |suffix| > 0 && suffix[0] != pat[1]
    ensures ReplaceAll(verb + [c] + suffix, pat, rep) == verb + [c] + suffix
  {
    ReplaceKeepsPlain(suffix, pat, rep);
    ReplaceSkipsChar(c, suffix, pat, rep);
    ReplaceSkipsPrefix(verb, [c] + suffix, pat, rep);
    assert verb + [c] + suffix == verb + ([c] + suffix);
  }

  /** "<verb>" + "<c><mid><c>" + "<suffix>" is left alone when neither mid nor suffix can continue an occurrence. */
  lemma RewriteNothingTwice(verb: string, c: char, mid: string, suffix: string, pat: string, rep: string)
    requires |pat| > 1 && pat[0] !in verb && pat[0] !in mid && pat[0] !in suffix
    requires |mid| > 0 && mid[0] != pat[1] && |suffix| > 0 && suffix[0] != pat[1]
    ensures ReplaceAll(verb + ([c] + mid + [c]) + suffix, pat, rep) == verb + ([c] + mid + [c]) + suffix
  {
    RewriteNothing(mid, c, suffix, pat, rep);
    var t := mid + [c] + suffix;
    assert t[0] == mid[0];
    ReplaceSkipsChar(c, t, pat, rep);
    ReplaceSkipsPrefix(verb, [c] + t, pat, rep);
    assert verb + ([c] + mid + [c]) + suffix == verb + ([c] + t);
  }

  /** The verb of a column name, before its first underscore. */
  function Verb(f: Flag): (v: string)
    ensures '_' !in v
  {
    match f
    case Create => "create"
    case ReadOwn | ReadAll => "read"
    case UpdateOwn | UpdateAll => "update"
    case DeleteOwn | DeleteAll => "delete"
  }

  predicate IsOwnFlag(f: Flag) {
    f.ReadOwn? || f.UpdateOwn? || f.DeleteOwn?
  }

  /** `create_permission` has no own/all infix. */
  lemma CreateColumnShape()
    ensures FieldName(Flag.Create) == Verb(Flag.Create) + ['_'] + "permission"
  {
    assert "create" + ['_'] + "permission" == "create_permission";
  }

  /** The three `_own_` columns. */
  lemma OwnColumnShape(f: Flag)
    requires IsOwnFlag(f)
    ensures FieldName(f) == Verb(f) + "_own_" + "permission"
  {
    match f
    case ReadOwn => assert "read" + "_own_" + "permission" == "read_own_permission";
    case UpdateOwn => assert "update" + "_own_" + "permission" == "update_own_permission";
    case DeleteOwn => assert "delete" + "_own_" + "permission" == "delete_own_permission";
  }

  /** The three `_all_` columns. */
  lemma AllColumnShape(f: Flag)
    requires !f.Create? && !IsOwnFlag(f)
    ensures FieldName(f) == Verb(f) + "_all_" + "permission"
  {
    match f
    case ReadAll => assert "read" + "_all_" + "permission" == "read_all_permission";
    case UpdateAll => assert "update" + "_all_" + "permission" == "update_all_permission";
    case DeleteAll => assert "delete" + "_all_" + "permission" == "delete_all_permission";
  }

  /** Every column name is "<verb>_permission", "<verb>_own_permission" or "<verb>_all_permission". */
  lemma FieldNameShape(f: Flag)
    ensures f.Create? ==> FieldName(f) == Verb(f) + ['_'] + "permission"
    ensures IsOwnFlag(f) ==> FieldName(f) == Verb(f) + "_own_" + "permission"
    ensures !f.Create? && !IsOwnFlag(f) ==> FieldName(f) == Verb(f) + "_all_" + "permission"
  {
    if f.Create? {
      CreateColumnShape();
    } else if IsOwnFlag(f) {
      OwnColumnShape(f);
    } else {
      AllColumnShape(f);
    }
  }

  /**
   * The flag whose column name the rewrite produces: the `_own_` partner of an
   * `_all_` flag, and the flag itself otherwise.
   */
  function OwnFlag(f: Flag): (g: Flag)
    ensures FieldName(g) == ReplaceAll(FieldName(f), "_all_", "_own_")
  {
    var g := match f
      case ReadAll => ReadOwn
      case UpdateAll => UpdateOwn
      case DeleteAll => DeleteOwn
      case _ => f;
    FieldNameShape(f);
    FieldNameShape(g);
    assert Verb(g) == Verb(f);
    assert "_all_"[0] == '_' && "_all_"[1] == 'a';
    assert "_own_" == ['_'] + "own" + ['_'];
    assert '_' !in "permission" && "permission"[0] != 'a';
    assert '_' !in "own" && "own"[0] != 'a';
    if f.Create? then RewriteNothing(Verb(f), '_', "permission", "_all_", "_own_"); g
    else if IsOwnFlag(f) then RewriteNothingTwice(Verb(f), '_', "own", "permission", "_all_", "_own_"); g
    else RewriteOccurrence(Verb(f), "permission", "_all_", "_own_"); g
  }

  // ---------------------------------------------------------------------------
  // require_ownership_or_permission

  /**
   * `fetched` is what `self.get_object()` returns: the object looked up in the
   * handler's scoped queryset, `None` where it raises not-found. `field` is the
   * ownership column, `allFlag` the `*_all_permission` column.
   */
  function RequireOwnershipOrPermission(
    db: Db, identity: Option<Email>, element: string, allFlag: Flag, field: string,
    fetched: Option<Content>, view: Reply): (r: Reply)
    ensures r != view ==> r.Error?
    ensures !Present(identity) ==> r == Error(StatusUnauthorized, LoginRequired)
    ensures Present(identity) && ActiveAccount(db.users, identity).None? ==> r == Error(StatusUnauthorized, UserNotFound)
    ensures r != view && r.status == StatusUnauthorized ==>
      !Present(identity) || ActiveAccount(db.users, identity).None?
    ensures Present(identity) && ActiveAccount(db.users, identity).Some? && fetched.None? ==>
      r == Error(StatusNotFound, NotFound)
  {
    if !Present(identity) then Error(StatusUnauthorized, LoginRequired)
    else
      match ActiveAccount(db.users, identity)
      case None => Error(StatusUnauthorized, UserNotFound)
      case Some(user) =>
        match fetched
        case None => Error(StatusNotFound, NotFound)
        case Some(obj) =>
          if HasPermission(db, user.roles, element, allFlag) then view
          else if HasPermission(db, user.roles, element, OwnFlag(allFlag)) then
            match Attr(obj, field)
            case None => Error(StatusServerError, AttributeMissing)
            case Some(holder) =>
              if holder == UserRef(identity.value) then view else Error(StatusForbidden, AccessDenied)
          else Error(StatusForbidden, AccessDenied)
  }

  /** With the `_all_` flag the object's ownership column is never looked at. */
  lemma AllFlagIgnoresOwnership(
    db: Db, identity: Option<Email>, element: string, allFlag: Flag, field: string, obj: Content, view: Reply)
    requires Present(identity) && ActiveAccount(db.users, identity).Some?
    requires HasPermission(db, ActiveAccount(db.users, identity).value.roles, element, allFlag)
    ensures RequireOwnershipOrPermission(db, identity, element, allFlag, field, Some(obj), view) == view
  {
  }

  /**
   * Without the `_all_` flag the handler runs iff the `_own_` flag is held and
   * the object belongs to the user; otherwise the reply is 403, or 500 when the
   * own flag is held and the object has no such column (`getattr` raises).
   */
  lemma OwnFlagNeedsOwnership(
    db: Db, identity: Option<Email>, element: string, allFlag: Flag, field: string, obj: Content, view: Reply)
    requires view.Ok? && Present(identity) && ActiveAccount(db.users, identity).Some?
    requires !HasPermission(db, ActiveAccount(db.users, identity).value.roles, element, allFlag)
    ensures var r := RequireOwnershipOrPermission(db, identity, element, allFlag, field, Some(obj), view);
      var own := HasPermission(db, ActiveAccount(db.users, identity).value.roles, element, OwnFlag(allFlag));
      && (r == view <==> own && HeldBy(obj, field, identity.value))
      && (r != view ==>
            r == if own && field !in obj.fields then Error(StatusServerError, AttributeMissing)
                 else Error(StatusForbidden, AccessDenied))
  {
  }

  /**
   * The object is fetched before any flag is consulted: an object outside the
   * handler's scope is not-found whatever the rules say.
   */
  lemma {:induction false} NotFoundBeforeRules(
    db: Db, rules: map<Id, AccessRule>, identity: Option<Email>, element: string, allFlag: Flag, field: string, view: Reply)
    requires Present(identity) && ActiveAccount(db.users, identity).Some?
    ensures RequireOwnershipOrPermission(db.(rules := rules), identity, element, allFlag, field, None, view)
         == Error(StatusNotFound, NotFound)
  {
    assert ActiveAccount(db.(rules := rules).users, identity).Some?;
  }
}
