/**
 * ServiceKeyAccess: who may do what with a service key. Every operation has
 * two checks: a token-level one (`<op>_with_token`, which looks only at the
 * caller's token) and an object-level one (`<op>`, which looks at the
 * caller's roles, the key and any extra parameters).
 */
module ServiceKeyAccess {
  import opened Wrappers

  /** Platform-wide roles, then roles in the key's organization, then roles in the key's space. */
  datatype Role =
    | Admin | AdminReadOnly | GlobalAuditor
    | OrgUser | OrgManager | OrgBillingManager | OrgAuditor
    | SpaceManager | SpaceDeveloper | SpaceAuditor

  /** The token scopes cloud_controller.read and cloud_controller.write. */
  datatype Scope = CloudControllerRead | CloudControllerWrite

  /** The caller: its roles and its token's scopes. A caller that is not logged in holds no role. */
  datatype Caller = Caller(roles: set<Role>, scopes: set<Scope>)

  /** The service key, as far as the decision needs it. */
  datatype ServiceKey = ServiceKey(inSuspendedOrg: bool)

  /** Extra arguments to a check: none, or `{ related_obj: service_instance }` naming the key's own instance. */
  datatype Params = NoParams | RelatedObj

  datatype Op = Create | Read | ReadForUpdate | Update | Delete | Index | ReadEnv

  /** A check: an operation, at token level or at object level. */
  datatype Query = Query(op: Op, withToken: bool)

  const WITH_TOKEN: string := "_with_token"

  /** The name an operation is asked for by. */
  function OpName(op: Op): string
  {
    match op
    case Create => "create"
    case Read => "read"
    case ReadForUpdate => "read_for_update"
    case Update => "update"
    case Delete => "delete"
    case Index => "index"
    case ReadEnv => "read_env"
  }

  /** The name a check is asked for by: the operation's name, with `_with_token` appended at token level. */
  function QueryName(q: Query): string
  {
    if q.withToken then OpName(q.op) + WITH_TOKEN else OpName(q.op)
  }

  /** The operation a name denotes, if any. */
  function ParseOpName(name: string): (r: Option<Op>)
    ensures r.Some? ==> OpName(r.value) == name
    ensures r.None? ==> forall op :: OpName(op) != name
  {
    if name == "create" then Some(Create)
    else if name == "read" then Some(Read)
    else if name == "read_for_update" then Some(ReadForUpdate)
    else if name == "update" then Some(Update)
    else if name == "delete" then Some(Delete)
    else if name == "index" then Some(Index)
    else if name == "read_env" then Some(ReadEnv)
    else None
  }

  predicate EndsWithToken(name: string)
  {
    |WITH_TOKEN| <= |name| && name[|name| - |WITH_TOKEN|..] == WITH_TOKEN
  }

  /** No operation's own name carries the token suffix. */
  lemma OpNameIsPlain(op: Op)
    ensures !EndsWithToken(OpName(op))
  {
    var name := OpName(op);
    if |WITH_TOKEN| <= |name| {
      assert name[|name| - 1] != WITH_TOKEN[|WITH_TOKEN| - 1];
      assert name[|name| - |WITH_TOKEN|..][|WITH_TOKEN| - 1] == name[|name| - 1];
    }
  }

  /** The check a name denotes, if any: a trailing `_with_token` selects the token level. */
  function ParseQuery(name: string): (r: Option<Query>)
    ensures r.Some? ==> QueryName(r.value) == name
  {
    if EndsWithToken(name) then
      match ParseOpName(name[..|name| - |WITH_TOKEN|])
      case Some(op) =>
        assert name == name[..|name| - |WITH_TOKEN|] + WITH_TOKEN;
        Some(Query(op, true))
      case None => None
    else
      match ParseOpName(name)
      case Some(op) => Some(Query(op, false))
      case None => None
  }

  /** Every check is found again from its name. */
  lemma {:induction false} ParseQueryName(q: Query)
    ensures ParseQuery(QueryName(q)) == Some(q)
  {
    var base := OpName(q.op);
    OpNameIsPlain(q.op);
    if q.withToken {
      var name := base + WITH_TOKEN;
      assert EndsWithToken(name);
      assert name[..|name| - |WITH_TOKEN|] == base;
    }
  }

  predicate HasRole(c: Caller, r: Role) { r in c.roles }

  /** The token-level check: admins pass everything and index is open to all; otherwise reads need the read scope (or a read-only admin or global auditor) and writes need the write scope. */
  predicate TokenAllows(op: Op, c: Caller)
  {
    HasRole(c, Admin) ||
    match op
    case Index => true
    case Read => HasRole(c, AdminReadOnly) || HasRole(c, GlobalAuditor) || CloudControllerRead in c.scopes
    case ReadEnv => HasRole(c, AdminReadOnly) || HasRole(c, GlobalAuditor) || CloudControllerRead in c.scopes
    case _ => CloudControllerWrite in c.scopes
  }

  /**
   * The object-level check: admins pass everything. Listing is open unless it
   * is restricted to a related service instance, which only read-only admins
   * and developers of its space may list. Reading the key is for read-only
   * admins, global auditors and space developers; reading its credentials
   * (read_env) for read-only admins and space developers; creating and deleting
   * for space developers of an organization that is not suspended; updating
   * for admins only.
   */
  predicate ObjectAllows(op: Op, c: Caller, key: ServiceKey, params: Params)
  {
    HasRole(c, Admin) ||
    match op
    case Index => params.RelatedObj? ==> HasRole(c, AdminReadOnly) || HasRole(c, SpaceDeveloper)
    case Read => HasRole(c, AdminReadOnly) || HasRole(c, GlobalAuditor) || HasRole(c, SpaceDeveloper)
    case ReadEnv => HasRole(c, AdminReadOnly) || HasRole(c, SpaceDeveloper)
    case Create => !key.inSuspendedOrg && HasRole(c, SpaceDeveloper)
    case Delete => !key.inSuspendedOrg && HasRole(c, SpaceDeveloper)
    case ReadForUpdate => false
    case Update => false
  }

  /** `can?(name, key, params)`: the check the name denotes, or a failure for a name that denotes none. */
  function Can(name: string, c: Caller, key: ServiceKey, params: Params): (r: Result<bool, string>)
    ensures r.Failure? <==> ParseQuery(name).None?
    ensures r.Success? && ParseQuery(name).value.withToken ==> r.value == TokenAllows(ParseQuery(name).value.op, c)
    ensures r.Success? && !ParseQuery(name).value.withToken ==> r.value == ObjectAllows(ParseQuery(name).value.op, c, key, params)
  {
    match ParseQuery(name)
    case None => Failure("undefined method " + name + "?")
    case Some(q) =>
      if q.withToken then Success(TokenAllows(q.op, c)) else Success(ObjectAllows(q.op, c, key, params))
  }

  /** A token-level check looks neither at the extra parameters nor at the key. */
  lemma TokenCheckIgnoresParams(op: Op, c: Caller, key1: ServiceKey, key2: ServiceKey, params: Params)
    ensures Can(OpName(op) + WITH_TOKEN, c, key1, params) == Can(OpName(op) + WITH_TOKEN, c, key2, NoParams)
    ensures Can(OpName(op) + WITH_TOKEN, c, key1, params) == Success(TokenAllows(op, c))
  {
    ParseQueryName(Query(op, true));
  }
}

/** The `allow_op_on_object` matcher the access specs are written with. */
module AccessMatchers {
  import opened Wrappers
  import opened ServiceKeyAccess

  /**
   * allow_op_on_object(op, key, params): the token-level check, asked without
   * the extra parameters, and then, only when it passes, the object-level
   * check with them.
   */
  function AllowOpOnObject(op: string, c: Caller, key: ServiceKey, params: Params): (r: Result<bool, string>)
    ensures r == Success(true) <==> Can(op + WITH_TOKEN, c, key, NoParams) == Success(true) && Can(op, c, key, params) == Success(true)
    ensures Can(op + WITH_TOKEN, c, key, NoParams) == Success(false) ==> r == Success(false)
  {
    var token := Can(op + WITH_TOKEN, c, key, NoParams);
    if token.Failure? then token
    else if !token.value then Success(false)
    else Can(op, c, key, params)
  }

  /** The operation passes the matcher. */
  predicate Allowed(op: Op, c: Caller, key: ServiceKey, params: Params)
  {
    AllowOpOnObject(OpName(op), c, key, params) == Success(true)
  }

  /** For a known operation the matcher is exactly the conjunction of the two checks. */
  lemma MatcherIsConjunction(op: Op, c: Caller, key: ServiceKey, params: Params)
    ensures AllowOpOnObject(OpName(op), c, key, params) == Success(TokenAllows(op, c) && ObjectAllows(op, c, key, params))
  {
    ParseQueryName(Query(op, true));
    ParseQueryName(Query(op, false));
  }
}

/** The service-key access table the access specs pin down. */
module ServiceKeyAccessRules {
  import opened ServiceKeyAccess
  import opened AccessMatchers

  /** The roles the defensive contexts give: organization roles and the space manager and auditor roles. */
  predicate OnlyDefensiveRoles(c: Caller)
  {
    forall r :: r in c.roles ==> r in {OrgUser, OrgManager, OrgBillingManager, OrgAuditor, SpaceManager, SpaceAuditor}
  }

  /** Writing operations. */
  predicate IsWrite(op: Op)
  {
    op in {Create, ReadForUpdate, Update, Delete}
  }

  /** The shared example `no_access`: neither reading nor any write on the key. */
  predicate NoAccess(c: Caller, key: ServiceKey)
  {
    !Allowed(Read, c, key, NoParams) && forall op :: IsWrite(op) ==> !Allowed(op, c, key, NoParams)
  }

  /** The shared example `read_only_access`: reading the key, and no write. */
  predicate ReadOnlyAccess(c: Caller, key: ServiceKey)
  {
    Allowed(Read, c, key, NoParams) && forall op :: IsWrite(op) ==> !Allowed(op, c, key, NoParams)
  }

  /** The shared example `admin_full_access`: every operation. */
  predicate FullAccess(c: Caller, key: ServiceKey)
  {
    forall op :: Allowed(op, c, key, NoParams)
  }

  /** Listing keys without a related object is open to every caller, whatever its roles and scopes. */
  lemma IndexWithoutRelatedObject(c: Caller, key: ServiceKey)
    ensures Allowed(Index, c, key, NoParams)
  {
    MatcherIsConjunction(Index, c, key, NoParams);
  }

  /** Listing the keys of a related service instance is allowed exactly to admins, read-only admins and its space developers. */
  lemma IndexWithRelatedObject(c: Caller, key: ServiceKey)
    ensures Allowed(Index, c, key, RelatedObj) <==> Admin in c.roles || AdminReadOnly in c.roles || SpaceDeveloper in c.roles
  {
    MatcherIsConjunction(Index, c, key, RelatedObj);
  }

  /** An admin may do everything. */
  lemma AdminFullAccess(c: Caller, key: ServiceKey)
    requires Admin in c.roles
    ensures FullAccess(c, key)
  {
    forall op ensures Allowed(op, c, key, NoParams) {
      MatcherIsConjunction(op, c, key, NoParams);
    }
  }

  /** A read-only admin that holds no writing role may read but not write. */
  lemma AdminReadOnlyAccess(c: Caller, key: ServiceKey)
    requires AdminReadOnly in c.roles && Admin !in c.roles && SpaceDeveloper !in c.roles
    ensures ReadOnlyAccess(c, key)
  {
    MatcherIsConjunction(Read, c, key, NoParams);
    forall op | IsWrite(op) ensures !Allowed(op, c, key, NoParams) {
      MatcherIsConjunction(op, c, key, NoParams);
    }
  }

  /** A space developer with both scopes, in an organization that is not suspended, may create, read, delete and read the credentials, but not read for update. */
  lemma SpaceDeveloperOperations(c: Caller, key: ServiceKey)
    requires SpaceDeveloper in c.roles && Admin !in c.roles
    requires CloudControllerRead in c.scopes && CloudControllerWrite in c.scopes
    requires !key.inSuspendedOrg
    ensures Allowed(Create, c, key, NoParams)
    ensures Allowed(Read, c, key, NoParams)
    ensures !Allowed(ReadForUpdate, c, key, NoParams)
    ensures Allowed(Delete, c, key, NoParams)
    ensures Allowed(ReadEnv, c, key, NoParams)
  {
    MatcherIsConjunction(Create, c, key, NoParams);
    MatcherIsConjunction(Read, c, key, NoParams);
    MatcherIsConjunction(ReadForUpdate, c, key, NoParams);
    MatcherIsConjunction(Delete, c, key, NoParams);
    MatcherIsConjunction(ReadEnv, c, key, NoParams);
  }

  /** In a suspended organization no one but an admin may write; a space developer keeps read access. */
  lemma SuspendedOrgIsReadOnly(c: Caller, key: ServiceKey)
    requires key.inSuspendedOrg && Admin !in c.roles
    requires SpaceDeveloper in c.roles && CloudControllerRead in c.scopes
    ensures ReadOnlyAccess(c, key)
  {
    MatcherIsConjunction(Read, c, key, NoParams);
    forall op | IsWrite(op) ensures !Allowed(op, c, key, NoParams) {
      MatcherIsConjunction(op, c, key, NoParams);
    }
  }

  /** A token without cloud_controller.write cannot write whatever the roles (admin aside); with read scope a space developer still reads. */
  lemma ReadScopeIsReadOnly(c: Caller, key: ServiceKey)
    requires CloudControllerWrite !in c.scopes && Admin !in c.roles
    ensures forall op :: IsWrite(op) ==> !Allowed(op, c, key, NoParams)
    ensures CloudControllerRead in c.scopes && SpaceDeveloper in c.roles ==> ReadOnlyAccess(c, key)
  {
    MatcherIsConjunction(Read, c, key, NoParams);
    forall op | IsWrite(op) ensures !Allowed(op, c, key, NoParams) {
      MatcherIsConjunction(op, c, key, NoParams);
    }
  }

  /** A token with no scope gets no access whatever the organization and space roles, yet may still list, with or (as a space developer) without a related object. */
  lemma NoScopesNoAccess(c: Caller, key: ServiceKey)
    requires c.scopes == {}
    requires Admin !in c.roles && AdminReadOnly !in c.roles && GlobalAuditor !in c.roles
    ensures NoAccess(c, key)
    ensures Allowed(Index, c, key, NoParams)
    ensures SpaceDeveloper in c.roles ==> Allowed(Index, c, key, RelatedObj)
  {
    MatcherIsConjunction(Read, c, key, NoParams);
    forall op | IsWrite(op) ensures !Allowed(op, c, key, NoParams) {
      MatcherIsConjunction(op, c, key, NoParams);
    }
    MatcherIsConjunction(Index, c, key, NoParams);
    MatcherIsConjunction(Index, c, key, RelatedObj);
  }

  /** Organization roles and the space manager and auditor roles give no access and may not list a related instance's keys or read credentials; listing alone stays open. */
  lemma DefensiveRolesNoAccess(c: Caller, key: ServiceKey)
    requires OnlyDefensiveRoles(c)
    ensures NoAccess(c, key)
    ensures !Allowed(ReadEnv, c, key, NoParams)
    ensures Allowed(Index, c, key, NoParams)
    ensures !Allowed(Index, c, key, RelatedObj)
  {
    assert Admin !in c.roles && AdminReadOnly !in c.roles && GlobalAuditor !in c.roles && SpaceDeveloper !in c.roles;
    MatcherIsConjunction(Read, c, key, NoParams);
    forall op | IsWrite(op) ensures !Allowed(op, c, key, NoParams) {
      MatcherIsConjunction(op, c, key, NoParams);
    }
    MatcherIsConjunction(ReadEnv, c, key, NoParams);
    MatcherIsConjunction(Index, c, key, NoParams);
    MatcherIsConjunction(Index, c, key, RelatedObj);
  }

  /**
   * Apart from admins and read-only admins, a caller may read a key's
   * credentials exactly when it is a space developer whose token carries the
   * read scope or who is also a global auditor.
   */
  lemma ReadEnvOnlyForDevelopers(c: Caller, key: ServiceKey)
    requires Admin !in c.roles && AdminReadOnly !in c.roles
    ensures Allowed(ReadEnv, c, key, NoParams) ==> SpaceDeveloper in c.roles
    ensures Allowed(ReadEnv, c, key, NoParams) <==>
              SpaceDeveloper in c.roles && (CloudControllerRead in c.scopes || GlobalAuditor in c.roles)
  {
    MatcherIsConjunction(ReadEnv, c, key, NoParams);
  }
}
