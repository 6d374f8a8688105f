/**
 * `_require_repo_permission`: the ordered decision whether a request on
 * `namespace/repo_name` may proceed, and the three decorators built from it.
 * The outside services it consults are inputs: the result of the permission
 * class's `can()`, the repository lookup, and what the user directory says
 * about the authenticated user.
 */
module Permissions {
  import opened Base
  import opened Http
  import V2Errors
  import ErrorHandlers

  /** The process-wide feature flags the resolver reads. */
  datatype Features = Features(
    restrictedUsers: bool,                    // features.RESTRICTED_USERS
    anonymousAccess: bool,                    // features.ANONYMOUS_ACCESS
    superusersFullAccess: bool,               // features.SUPERUSERS_FULL_ACCESS
    superUsers: bool,                         // features.SUPER_USERS
    globalReadonlySuperUsersConfigured: bool) // app.config["GLOBAL_READONLY_SUPER_USERS"] is non-empty

  /** An authenticated user and what the user directory answers about them. */
  datatype User = User(
    username: string,
    restricted: bool,               // usermanager.is_restricted_user(username)
    superuser: bool,                // usermanager.is_superuser(username)
    globalReadonlySuperuser: bool)  // usermanager.is_global_readonly_superuser(user)

  /** `get_authenticated_context()`, when there is one. */
  datatype AuthContext = AuthContext(authedUser: Option<User>)

  /** A repository found by `registry_model.lookup_repository`. */
  datatype RepositoryRef = RepositoryRef(isPublic: bool, kind: string)

  datatype PermissionClass = ReadRepository | ModifyRepository | AdministerRepository

  /** The arguments of `_require_repo_permission`. */
  datatype RepoPermission = RepoPermission(
    permissionClass: PermissionClass,
    scopes: Option<seq<string>>,
    allowPublic: bool)

  /** The arguments of the decorator it returns. */
  datatype Options = Options(allowForSuperuser: bool, disallowForRestrictedUsers: bool)

  /** The request goes on to the handler, or one of the two registry errors is raised. */
  datatype Decision =
    | Allow
    | Unauthorized(repository: Option<string>, scopes: Option<seq<string>>, detail: Option<string>)
    | Unsupported(unsupportedDetail: string)

  const RequireRepoRead := RepoPermission(ReadRepository, Some(["pull"]), true)
  const RequireRepoWrite := RepoPermission(ModifyRepository, Some(["pull", "push"]), false)
  const RequireRepoAdmin := RepoPermission(AdministerRepository, Some(["pull", "push"]), false)

  const RestrictedDetail := "Disallowed for restricted users."

  function RepositoryLabel(namespace: string, repoName: string): string {
    namespace + "/" + repoName
  }

  function UnsupportedDetail(kind: string): string {
    "This repository is for managing " + kind + " and not container images."
  }

  /** The authenticated user, when there is a context with one. */
  function AuthedUser(ctx: Option<AuthContext>): Option<User> {
    match ctx
    case Some(AuthContext(user)) => user
    case None => None
  }

  /** The caller is acting on their own namespace, is restricted and is not a superuser. */
  predicate IsRestrictedOwner(ctx: Option<AuthContext>, namespace: string) {
    match AuthedUser(ctx)
    case Some(u) => u.username == namespace && u.restricted && !u.superuser
    case None => false
  }

  predicate IsSuperuser(ctx: Option<AuthContext>) {
    match AuthedUser(ctx)
    case Some(u) => u.superuser
    case None => false
  }

  predicate IsGlobalReadonlySuperuser(ctx: Option<AuthContext>) {
    match AuthedUser(ctx)
    case Some(u) => u.globalReadonlySuperuser
    case None => false
  }

  /** The restricted-user block applies to this call. */
  predicate RestrictedPolicyActive(f: Features, opts: Options) {
    f.restrictedUsers && opts.disallowForRestrictedUsers
  }

  /** The public-repository fallback, reached when no grant or override allowed the call. */
  function PublicFallback(f: Features, repository: string, scopes: Option<seq<string>>,
                          ctx: Option<AuthContext>, lookup: Option<RepositoryRef>): (d: Decision)
    ensures d == Allow <==>
      lookup.Some? && lookup.value.isPublic && lookup.value.kind == "image" && f.anonymousAccess
    ensures d.Unsupported? <==> lookup.Some? && lookup.value.isPublic && lookup.value.kind != "image"
    ensures d.Unsupported? ==> d.unsupportedDetail == UnsupportedDetail(lookup.value.kind)
    ensures d.Unauthorized? ==> d == Unauthorized(Some(repository), scopes, None)
  {
    if lookup.None? || !lookup.value.isPublic then Unauthorized(Some(repository), scopes, None)
    else if lookup.value.kind != "image" then Unsupported(UnsupportedDetail(lookup.value.kind))
    else if lookup.value.isPublic then
      if !f.anonymousAccess then Unauthorized(Some(repository), scopes, None) else Allow
    else if f.superUsers && f.globalReadonlySuperUsersConfigured && IsGlobalReadonlySuperuser(ctx) then Allow
    else Unauthorized(Some(repository), scopes, None)
  }

  /** The decision `_require_repo_permission(perm)(opts)` takes for `namespace/repoName`.
      `can` is `permission_class(namespace, repo_name).can()` and `lookup` is
      `lookup_repository(namespace, repo_name)`, `None` when there is no such repository. */
  function Resolve(f: Features, perm: RepoPermission, opts: Options, namespace: string, repoName: string,
                   ctx: Option<AuthContext>, can: bool, lookup: Option<RepositoryRef>): (d: Decision)
    ensures can && !RestrictedPolicyActive(f, opts) ==> d == Allow
    ensures d.Unsupported? ==>
      perm.allowPublic && !can && lookup.Some? && lookup.value.isPublic && lookup.value.kind != "image"
    ensures d.Unauthorized? && d.repository.Some? ==>
      d.repository.value == namespace + "/" + repoName && d.scopes == perm.scopes && d.detail.None?
    ensures d.Unauthorized? && d.repository.None? ==> RestrictedPolicyActive(f, opts)
  {
    if RestrictedPolicyActive(f, opts) && perm.allowPublic then
      if lookup.None? || !lookup.value.isPublic then Unauthorized(None, None, None)
      else if !f.anonymousAccess then Unauthorized(None, None, None)
      else Allow
    else if RestrictedPolicyActive(f, opts) && IsRestrictedOwner(ctx, namespace) then
      Unauthorized(None, None, Some(RestrictedDetail))
    else if can then Allow
    else if f.superusersFullAccess && opts.allowForSuperuser && IsSuperuser(ctx) then Allow
    else if perm.allowPublic then PublicFallback(f, RepositoryLabel(namespace, repoName), perm.scopes, ctx, lookup)
    else Unauthorized(Some(RepositoryLabel(namespace, repoName)), perm.scopes, None)
  }

  /** The call is past the restricted-user block without it deciding anything. */
  predicate PastRestrictedBlock(f: Features, perm: RepoPermission, opts: Options,
                                namespace: string, ctx: Option<AuthContext>) {
    !(RestrictedPolicyActive(f, opts) && (perm.allowPublic || IsRestrictedOwner(ctx, namespace)))
  }

  /** With the restricted-user policy active on a public-allowing decorator, every
      caller (restricted or not, granted or not, superuser or not) is allowed
      exactly when the repository exists, is public and anonymous access is on,
      whatever its kind; any other call is refused with a bare `Unauthorized()`. */
  lemma RestrictedPublicGate(f: Features, perm: RepoPermission, opts: Options, namespace: string,
                             repoName: string, ctx: Option<AuthContext>, can: bool, lookup: Option<RepositoryRef>)
    requires RestrictedPolicyActive(f, opts) && perm.allowPublic
    ensures Resolve(f, perm, opts, namespace, repoName, ctx, can, lookup)
         == if lookup.Some? && lookup.value.isPublic && f.anonymousAccess then Allow
            else Unauthorized(None, None, None)
  {
  }

  /** With the policy active and no public fallback, a restricted non-superuser
      acting on their own namespace is refused before any grant is consulted. */
  lemma RestrictedOwnerDenied(f: Features, perm: RepoPermission, opts: Options, namespace: string,
                              repoName: string, ctx: Option<AuthContext>, can: bool, lookup: Option<RepositoryRef>)
    requires RestrictedPolicyActive(f, opts) && !perm.allowPublic
    requires AuthedUser(ctx).Some? && AuthedUser(ctx).value.username == namespace
    requires AuthedUser(ctx).value.restricted && !AuthedUser(ctx).value.superuser
    ensures Resolve(f, perm, opts, namespace, repoName, ctx, can, lookup)
         == Unauthorized(None, None, Some(RestrictedDetail))
  {
  }

  /** Past the restricted-user block, a call is allowed exactly when the grant
      holds, or the superuser override applies, or the public fallback finds a
      public image repository with anonymous access on. */
  lemma AllowedExactly(f: Features, perm: RepoPermission, opts: Options, namespace: string,
                       repoName: string, ctx: Option<AuthContext>, can: bool, lookup: Option<RepositoryRef>)
    requires PastRestrictedBlock(f, perm, opts, namespace, ctx)
    ensures Resolve(f, perm, opts, namespace, repoName, ctx, can, lookup) == Allow <==>
      || can
      || (f.superusersFullAccess && opts.allowForSuperuser && AuthedUser(ctx).Some? && AuthedUser(ctx).value.superuser)
      || (perm.allowPublic && lookup.Some? && lookup.value.isPublic && lookup.value.kind == "image"
          && f.anonymousAccess)
  {
  }

  /** Past the restricted-user block, `Unsupported` is raised exactly for a public
      repository of a kind other than "image" reached through the public fallback,
      whether or not anonymous access is on. */
  lemma UnsupportedExactly(f: Features, perm: RepoPermission, opts: Options, namespace: string,
                           repoName: string, ctx: Option<AuthContext>, can: bool, lookup: Option<RepositoryRef>)
    requires PastRestrictedBlock(f, perm, opts, namespace, ctx)
    ensures var d := Resolve(f, perm, opts, namespace, repoName, ctx, can, lookup);
      d.Unsupported? <==>
        && !can
        && !(f.superusersFullAccess && opts.allowForSuperuser && IsSuperuser(ctx))
        && perm.allowPublic && lookup.Some? && lookup.value.isPublic && lookup.value.kind != "image"
    ensures var d := Resolve(f, perm, opts, namespace, repoName, ctx, can, lookup);
      d.Unsupported? ==> d.unsupportedDetail == UnsupportedDetail(lookup.value.kind)
  {
  }

  /** Every refusal past the restricted-user block names `namespace/repo_name`
      and carries the decorator's scopes, for the 401 challenge; the refusals
      without a repository come only from the restricted-user block. */
  lemma DenialsNameRepository(f: Features, perm: RepoPermission, opts: Options, namespace: string,
                              repoName: string, ctx: Option<AuthContext>, can: bool, lookup: Option<RepositoryRef>)
    ensures var d := Resolve(f, perm, opts, namespace, repoName, ctx, can, lookup);
      PastRestrictedBlock(f, perm, opts, namespace, ctx) && d.Unauthorized? ==>
        d == Unauthorized(Some(namespace + "/" + repoName), perm.scopes, None)
    ensures var d := Resolve(f, perm, opts, namespace, repoName, ctx, can, lookup);
      d.Unauthorized? && d.repository.None? ==> RestrictedPolicyActive(f, opts)
  {
  }

  /** `ctx` with the user's global-readonly-superuser answer replaced by `flag`. */
  function WithGlobalReadonly(ctx: Option<AuthContext>, flag: bool): Option<AuthContext> {
    match ctx
    case Some(AuthContext(Some(u))) => Some(AuthContext(Some(u.(globalReadonlySuperuser := flag))))
    case _ => ctx
  }

  /** The global-readonly-superuser bypass is never reached: the decision is the
      same whatever the two flags that enable it and whatever the directory says
      about the caller being such a superuser. */
  lemma GlobalReadonlyNeverConsulted(f: Features, perm: RepoPermission, opts: Options, namespace: string,
                                     repoName: string, ctx: Option<AuthContext>, can: bool,
                                     lookup: Option<RepositoryRef>, superUsers: bool, configured: bool, flag: bool)
    ensures Resolve(f, perm, opts, namespace, repoName, ctx, can, lookup)
         == Resolve(f.(superUsers := superUsers, globalReadonlySuperUsersConfigured := configured),
                    perm, opts, namespace, repoName, WithGlobalReadonly(ctx, flag), can, lookup)
  {
  }

  /** `require_repo_read` refuses with the scope `pull`; `require_repo_write` and
      `require_repo_admin` refuse with `pull` and `push`, and never look the
      repository up, so its existence, visibility and kind do not matter to them. */
  lemma DecoratorScopes(f: Features, opts: Options, namespace: string, repoName: string,
                        ctx: Option<AuthContext>, can: bool, lookup: Option<RepositoryRef>, other: Option<RepositoryRef>)
    ensures var d := Resolve(f, RequireRepoRead, opts, namespace, repoName, ctx, can, lookup);
      d.Unauthorized? && d.repository.Some? ==> d.scopes == Some(["pull"])
    ensures forall perm | perm == RequireRepoWrite || perm == RequireRepoAdmin ::
      var d := Resolve(f, perm, opts, namespace, repoName, ctx, can, lookup);
      && (d.Unauthorized? && d.repository.Some? ==> d.scopes == Some(["pull", "push"]))
      && d == Resolve(f, perm, opts, namespace, repoName, ctx, can, other)
  {
  }

  /** The registry error a refusal raises: `Unauthorized(repository=..., scopes=..., detail=...)`
      or `Unsupported(detail=...)`, each with its class's status. */
  function DenialError(d: Decision, statuses: V2Errors.ErrorStatuses): (e: Option<V2Errors.V2Error>)
    ensures e.None? <==> d.Allow?
    ensures d.Unauthorized? ==>
      && e.value.kind == V2Errors.Unauthorized && e.value.status == statuses.unauthorized
      && e.value.repository == d.repository && e.value.scopes == d.scopes && e.value.detail == d.detail
    ensures d.Unsupported? ==>
      && e.value.kind == V2Errors.Unsupported && e.value.status == statuses.unsupported
      && e.value.detail == Some(d.unsupportedDetail) && e.value.repository.None? && e.value.scopes.None?
  {
    match d
    case Allow => None
    case Unauthorized(repository, scopes, detail) =>
      Some(V2Errors.V2Error(V2Errors.Unauthorized, None, detail, repository, scopes, statuses.unauthorized))
    case Unsupported(detail) =>
      Some(V2Errors.V2Error(V2Errors.Unsupported, None, Some(detail), None, None, statuses.unsupported))
  }

  /** A refusal past the restricted-user block, once the registry handler turns
      it into a 401 response, challenges for `namespace/repo_name` with the
      decorator's scopes: every header name gets exactly those challenge values. */
  lemma RefusalChallengesRepository(
    f: Features, perm: RepoPermission, opts: Options, namespace: string, repoName: string,
    ctx: Option<AuthContext>, can: bool, lookup: Option<RepositoryRef>,
    statuses: V2Errors.ErrorStatuses,
    authHeaders: (Option<string>, Option<seq<string>>) -> seq<(string, string)>,
    name: string)
    requires PastRestrictedBlock(f, perm, opts, namespace, ctx)
    requires Resolve(f, perm, opts, namespace, repoName, ctx, can, lookup).Unauthorized?
    requires statuses.unauthorized == 401
    ensures var e := DenialError(Resolve(f, perm, opts, namespace, repoName, ctx, can, lookup), statuses).value;
      var r := ErrorHandlers.MappedResponse(V2Errors.RegistryException(e), statuses, authHeaders);
      && r.status == 401
      && Values(r.headers, name)
         == Values(JsonHeaders(), name) + ValuesNamed(authHeaders(Some(namespace + "/" + repoName), perm.scopes), name)
  {
    var e := DenialError(Resolve(f, perm, opts, namespace, repoName, ctx, can, lookup), statuses).value;
    ErrorHandlers.ChallengeOnlyOn401(V2Errors.RegistryException(e), statuses, authHeaders, name);
  }
}
