/** The authorization evaluator: ordered loops over policies that decide an order-free rule. */
module Authorization {
  import opened Options

  datatype Effect = ALLOW | DENY

  datatype Principal = Principal(
    id: string, role: string, tenantId: Option<string>, tenantRole: Option<string>, superAdmin: bool)

  /** A property that is not null or undefined: a string or anything else. */
  datatype Field = Text(value: string) | Opaque

  /** An object, by its properties that are not null or undefined. */
  type Fields = map<string, Field>

  /** A normalised resource descriptor. */
  datatype Resource = Resource(
    kind: string, id: Option<string>, tenantId: Option<string>, ownerId: Option<string>, attributes: Fields)

  /** What a caller passes as the resource: nothing, an object with a `type`, or any other object. */
  datatype Given =
    | Nothing
    | Descriptor(kind: string, id: Option<string>, tenantId: Option<string>, ownerId: Option<string>,
                 attributes: Option<Fields>, data: Option<Fields>, others: Fields)
    | Plain(fields: Fields)

  /** What a condition sees; `context` stands for the caller's context object. */
  datatype Params = Params(principal: Principal, resource: Option<Resource>, context: nat)

  /** `kinds` is resourceType as a list; None when the policy has none. */
  datatype Policy = Policy(id: string, kinds: Option<seq<string>>, actions: seq<string>, effect: Effect,
      condition: Params -> bool)

  datatype Reason = SuperAdmin | RbacRole | RebacRelation | AbacPolicy | DefaultDeny | ExplicitDeny | TenantMismatch

  datatype Decision = Decision(allowed: bool, reason: Reason, matchedPolicyId: Option<string>)

  /** A request whose resource is normalised, and one as it arrives. */
  datatype Request = Request(principal: Principal, action: string, resource: Option<Resource>, context: nat)

  datatype RawRequest = RawRequest(
    principal: Principal, action: string, resource: Given, resourceType: Option<string>, context: nat)

  /** Role tables: without an active tenant, with one, and for the role inside the tenant. */
  datatype Roles = Roles(
    global: map<string, seq<string>>, platform: map<string, seq<string>>, tenant: map<string, seq<string>>)

  // ---- permissions.ts ----

  predicate StartsWith(s: string, prefix: string) { prefix <= s }

  predicate EndsWith(s: string, suffix: string) { |suffix| <= |s| && s[|s| - |suffix|..] == suffix }

  /** What team:manage covers. */
  predicate Manages(required: string) {
    StartsWith(required, "team:") || StartsWith(required, "members:") || StartsWith(required, "invitations:")
  }

  predicate MatchesPermission(held: string, required: string) {
    if held == "*" || held == "admin" || held == required then true
    else if EndsWith(held, ":*") && StartsWith(required, held[..|held| - 1]) then true
    else if held == "files:write" then required == "files:upload"
    else if held == "team:manage" && Manages(required) then true
    else if held == "team:invite" && required == "invitations:write" then true
    else if held == "invitations:write" && required == "team:invite" then true
    else if held == "team:read" && (required == "members:read" || required == "invitations:read") then true
    else held == "members:read" && required == "team:read"
  }

  predicate HoldsOne(held: seq<string>, required: string) {
    exists i | 0 <= i < |held| :: MatchesPermission(held[i], required)
  }

  predicate HoldsGrant(held: set<string>, required: string) {
    exists perm | perm in held :: MatchesPermission(perm, required)
  }

  function LowerChar(c: char): char { if 'A' <= c <= 'Z' then c - 'A' + 'a' else c }

  function Lower(s: string): string { seq(|s|, i requires 0 <= i < |s| => LowerChar(s[i])) }

  function Table(m: map<string, seq<string>>, role: string): seq<string> {
    if role != "" && Lower(role) in m then m[Lower(role)] else []
  }

  /** The permissions a principal's roles grant; an active tenant switches the role table. */
  function RoleGrants(roles: Roles, p: Principal): set<string> {
    Elements(Table(if Truthy(p.tenantId) then roles.platform else roles.global, p.role)) +
    Elements(Table(roles.tenant, if p.tenantRole.Some? then p.tenantRole.value else ""))
  }

  function Elements(xs: seq<string>): set<string> { set x | x in xs }

  /** resolveUserPermissions fills a Set table by table. */
  method ResolveUserPermissions(roles: Roles, p: Principal) returns (perms: set<string>)
    ensures perms == RoleGrants(roles, p)
  {
    perms := {};
    var own := Table(if Truthy(p.tenantId) then roles.platform else roles.global, p.role);
    for i := 0 to |own|
      invariant perms == Elements(own[..i])
    {
      assert own[..i + 1] == own[..i] + [own[i]];
      perms := perms + {own[i]};
    }
    assert own[..|own|] == own;
    var tenant := Table(roles.tenant, if p.tenantRole.Some? then p.tenantRole.value else "");
    for i := 0 to |tenant|
      invariant perms == Elements(own) + Elements(tenant[..i])
    {
      assert tenant[..i + 1] == tenant[..i] + [tenant[i]];
      perms := perms + {tenant[i]};
    }
    assert tenant[..|tenant|] == tenant;
  }

  // ---- Which permission covers which ----

  /** p lies in the area: "area:" and anything. */
  ghost predicate InArea(p: string, area: string) { exists rest: string :: p == area + ":" + rest }

  /** held is the wildcard of an area in which required lies. */
  ghost predicate WildcardCovers(held: string, required: string) {
    exists area: string :: held == area + ":*" && InArea(required, area)
  }

  /** The pairs that are spelled out one by one. */
  const IMPLIED: set<(string, string)> := {
    ("files:write", "files:upload"), ("team:invite", "invitations:write"), ("invitations:write", "team:invite"),
    ("team:read", "members:read"), ("team:read", "invitations:read"), ("members:read", "team:read")
  }

  /**
   What a permission reaches: everything, itself, its area, one of six pairs, or, for team:manage, three whole areas.
   */
  ghost predicate Covers(held: string, required: string) {
    || held == "*" || held == "admin" || held == required
    || WildcardCovers(held, required)
    || (held, required) in IMPLIED
    || (held == "team:manage"
        && (InArea(required, "team") || InArea(required, "members") || InArea(required, "invitations")))
  }

  lemma StartsInArea(p: string, area: string)
    ensures InArea(p, area) <==> StartsWith(p, area + ":")
  {
    if StartsWith(p, area + ":") { assert p == area + ":" + p[|area| + 1..]; }
  }

  lemma WildcardIff(held: string, required: string)
    ensures WildcardCovers(held, required) <==> EndsWith(held, ":*") && StartsWith(required, held[..|held| - 1])
  {
    if EndsWith(held, ":*") {
      var area := held[..|held| - 2];
      assert held == area + ":*" && held[..|held| - 1] == area + ":";
      StartsInArea(required, area);
    }
    forall area: string | held == area + ":*" ensures held[..|held| - 1] == area + ":" && EndsWith(held, ":*") {
      StartsInArea(required, area);
    }
    if WildcardCovers(held, required) {
      var area: string :| held == area + ":*" && InArea(required, area);
      StartsInArea(required, area);
    }
  }

  lemma ManagesIff(required: string)
    ensures Manages(required) <==>
              InArea(required, "team") || InArea(required, "members") || InArea(required, "invitations")
  {
    StartsInArea(required, "team");
    StartsInArea(required, "members");
    StartsInArea(required, "invitations");
    assert "team" + ":" == "team:" && "members" + ":" == "members:" && "invitations" + ":" == "invitations:";
  }

  /** matchesPermission decides exactly that. */
  lemma PermissionCoversIff(held: string, required: string)
    ensures MatchesPermission(held, required) <==> Covers(held, required)
  {
    WildcardIff(held, required);
    ManagesIff(required);
  }

  /** The permissions that reach another one. */
  predicate Reaching(held: string) {
    || held == "*" || held == "admin" || EndsWith(held, ":*") || held == "team:manage"
    || held in {"files:write", "team:invite", "invitations:write", "team:read", "members:read"}
  }

  /** Any other grant reaches itself and nothing else. */
  lemma PlainGrantReachesItself(held: string, required: string)
    requires !Reaching(held)
    ensures MatchesPermission(held, required) <==> held == required
  {}

  // ---- The role tables ----

  const ADMIN_PERMISSIONS: seq<string> := [
    "users:read", "users:write", "users:delete", "files:read", "files:upload", "files:delete", "organizations:read",
    "organizations:write", "organizations:delete", "team:read", "team:invite", "team:manage", "team:remove",
    "members:read", "members:write", "invitations:read", "invitations:write", "privacy:export:self",
    "privacy:erase:self", "privacy:erase:tenant", "privacy:requests:read", "notifications:read",
    "notifications:write"
  ]

  const USER_PERMISSIONS: seq<string> := [
    "files:read", "files:upload", "files:delete", "files:write", "privacy:export:self", "privacy:erase:self",
    "notifications:read", "notifications:write"
  ]

  const PLATFORM_ADMIN_PERMISSIONS: seq<string> := [
    "users:read", "users:write", "users:delete", "privacy:export:self", "privacy:erase:self",
    "privacy:requests:read"
  ]

  const PLATFORM_USER_PERMISSIONS: seq<string> := [
    "privacy:export:self", "privacy:erase:self"
  ]

  const OWNER_PERMISSIONS: seq<string> := [
    "organizations:read", "organizations:write", "organizations:delete", "team:read", "team:invite", "team:manage",
    "team:remove", "members:read", "members:write", "invitations:read", "invitations:write", "files:read",
    "files:upload", "files:delete", "privacy:erase:tenant", "notifications:read", "notifications:write"
  ]

  const TENANT_ADMIN_PERMISSIONS: seq<string> := [
    "organizations:read", "organizations:write", "team:read", "team:invite", "team:manage", "team:remove",
    "members:read", "members:write", "invitations:read", "invitations:write", "files:read", "files:upload",
    "files:delete", "files:write", "privacy:export:self", "privacy:erase:self", "privacy:erase:tenant",
    "privacy:requests:read", "notifications:read", "notifications:write"
  ]

  const MEMBER_PERMISSIONS: seq<string> := [
    "organizations:read", "team:read", "members:read", "files:read", "files:upload", "privacy:export:self",
    "privacy:erase:self", "notifications:read", "notifications:write"
  ]

  /** RolePermissions, PLATFORM_ROLE_PERMISSIONS and TenantRolePermissions. */
  const ROLES := Roles(
    map["admin" := ADMIN_PERMISSIONS, "user" := USER_PERMISSIONS],
    map["admin" := PLATFORM_ADMIN_PERMISSIONS, "user" := PLATFORM_USER_PERMISSIONS],
    map["owner" := OWNER_PERMISSIONS, "admin" := TENANT_ADMIN_PERMISSIONS, "member" := MEMBER_PERMISSIONS])

  /** No grant of the list reaches the permission. */
  predicate NoneReaches(held: seq<string>, required: string) {
    forall i | 0 <= i < |held| :: !MatchesPermission(held[i], required)
  }

  lemma GrantsOfTwo(own: seq<string>, tenant: seq<string>, required: string)
    ensures HoldsGrant(Elements(own) + Elements(tenant), required) <==>
              !NoneReaches(own, required) || !NoneReaches(tenant, required)
  {
    if !NoneReaches(own, required) {
      var i :| 0 <= i < |own| && MatchesPermission(own[i], required);
      assert own[i] in Elements(own);
    }
    if !NoneReaches(tenant, required) {
      var i :| 0 <= i < |tenant| && MatchesPermission(tenant[i], required);
      assert tenant[i] in Elements(tenant);
    }
  }

  lemma OtherLetterKeepsUsers(held: string)
    requires held != "" && held != "*" && held[0] != 'u' && held[0] != 'a'
    ensures !MatchesPermission(held, "users:delete")
  {
    var required := "users:delete";
    assert required[0] == 'u' && "admin"[0] == 'a';
    assert |held| >= 2 ==> held[..|held| - 1][0] == held[0];
    assert "team:"[0] == 't' && "members:"[0] == 'm' && "invitations:"[0] == 'i';
  }

  /** Grants of other areas do not reach users:delete. */
  lemma OtherAreasKeepUsers(held: seq<string>)
    requires forall i | 0 <= i < |held| :: held[i] != "" && held[i] != "*" && held[i][0] != 'u' && held[i][0] != 'a'
    ensures NoneReaches(held, "users:delete")
  {
    forall i | 0 <= i < |held| ensures !MatchesPermission(held[i], "users:delete") { OtherLetterKeepsUsers(held[i]); }
  }

  lemma TenantTablesKeepUsers()
    ensures NoneReaches(OWNER_PERMISSIONS, "users:delete") && NoneReaches(TENANT_ADMIN_PERMISSIONS, "users:delete")
    ensures NoneReaches(MEMBER_PERMISSIONS, "users:delete")
  {
    OtherAreasKeepUsers(OWNER_PERMISSIONS);
    OtherAreasKeepUsers(TENANT_ADMIN_PERMISSIONS);
    OtherAreasKeepUsers(MEMBER_PERMISSIONS);
  }

  lemma UserTablesKeepUsers()
    ensures NoneReaches(USER_PERMISSIONS, "users:delete") && NoneReaches(PLATFORM_USER_PERMISSIONS, "users:delete")
    ensures NoneReaches([], "users:delete")
  {
    OtherAreasKeepUsers(USER_PERMISSIONS);
    OtherAreasKeepUsers(PLATFORM_USER_PERMISSIONS);
  }

  lemma AdminsDeleteUsers()
    ensures !NoneReaches(ADMIN_PERMISSIONS, "users:delete")
    ensures !NoneReaches(PLATFORM_ADMIN_PERMISSIONS, "users:delete")
  {
    assert ADMIN_PERMISSIONS[2] == "users:delete" && PLATFORM_ADMIN_PERMISSIONS[2] == "users:delete";
    assert MatchesPermission("users:delete", "users:delete");
  }

  function TenantRole(p: Principal): string { if p.tenantRole.Some? then p.tenantRole.value else "" }

  /** With the tables of the source: users may be deleted by global administrators, whatever role the tenant gives. */
  lemma OnlyAdminsDeleteUsers(p: Principal)
    ensures HoldsGrant(RoleGrants(ROLES, p), "users:delete") <==> Lower(p.role) == "admin"
  {
    var own := Table(if Truthy(p.tenantId) then ROLES.platform else ROLES.global, p.role);
    var tenant := Table(ROLES.tenant, TenantRole(p));
    GrantsOfTwo(own, tenant, "users:delete");
    TenantTablesKeepUsers();
    UserTablesKeepUsers();
    AdminsDeleteUsers();
  }

  lemma PlainTableReachesItself(held: seq<string>, required: string)
    requires forall i | 0 <= i < |held| :: !Reaching(held[i])
    ensures NoneReaches(held, required) <==> required !in held
  {
    forall i | 0 <= i < |held| ensures MatchesPermission(held[i], required) <==> held[i] == required {
      PlainGrantReachesItself(held[i], required);
    }
  }

  lemma PlatformAdminsKeepFiles()
    ensures NoneReaches(PLATFORM_ADMIN_PERMISSIONS, "files:read")
  {
    forall i | 0 <= i < |PLATFORM_ADMIN_PERMISSIONS| ensures PLATFORM_ADMIN_PERMISSIONS[i][0] != 'f' {}
    PlainTableReachesItself(PLATFORM_ADMIN_PERMISSIONS, "files:read");
  }

  lemma PlatformUsersKeepFiles()
    ensures NoneReaches(PLATFORM_USER_PERMISSIONS, "files:read") && NoneReaches([], "files:read")
  {
    forall i | 0 <= i < |PLATFORM_USER_PERMISSIONS| ensures PLATFORM_USER_PERMISSIONS[i][0] != 'f' {}
    PlainTableReachesItself(PLATFORM_USER_PERMISSIONS, "files:read");
  }

  lemma TenantTablesReadFiles()
    ensures !NoneReaches(OWNER_PERMISSIONS, "files:read") && !NoneReaches(TENANT_ADMIN_PERMISSIONS, "files:read")
    ensures !NoneReaches(MEMBER_PERMISSIONS, "files:read")
  {
    assert OWNER_PERMISSIONS[11] == TENANT_ADMIN_PERMISSIONS[10] == MEMBER_PERMISSIONS[3] == "files:read";
    assert MatchesPermission("files:read", "files:read");
  }

  /** Inside a tenant files are read by its owner, its admins and its members, and by nobody for a platform role. */
  lemma TenantRoleReadsFiles(p: Principal)
    requires Truthy(p.tenantId)
    ensures HoldsGrant(RoleGrants(ROLES, p), "files:read") <==> Lower(TenantRole(p)) in {"owner", "admin", "member"}
  {
    GrantsOfTwo(Table(ROLES.platform, p.role), Table(ROLES.tenant, TenantRole(p)), "files:read");
    PlatformAdminsKeepFiles();
    PlatformUsersKeepFiles();
    TenantTablesReadFiles();
  }

  // ---- ownership.ts ----

  const DEFAULT_OWNERSHIP_FIELDS := map["note" := "createdBy", "file" := "uploadedBy", "user" := "id"]

  /** The property names tried, in order, for a type without an ownership field. */
  const OWNER_NAMES :=
    ["ownerId", "owner_id", "createdBy", "created_by", "uploadedBy", "uploaded_by", "userId", "user_id"]

  /** `custom` holds the registered fields, which win over the default ones. */
  function OwnershipField(custom: map<string, string>, kind: string): string {
    if kind in custom then custom[kind]
    else if kind in DEFAULT_OWNERSHIP_FIELDS then DEFAULT_OWNERSHIP_FIELDS[kind]
    else ""
  }

  function TextAt(data: Fields, name: string): Option<string> {
    if name in data && data[name].Text? then Some(data[name].value) else None
  }

  /** a ?? b ?? …: the first property that is there, if it is a string. */
  function FirstPresent(data: Fields, names: seq<string>): Option<string> {
    if names == [] then None else if names[0] in data then TextAt(data, names[0]) else FirstPresent(data, names[1..])
  }

  function ResolveOwner(custom: map<string, string>, kind: string, data: Fields): Option<string> {
    var field := OwnershipField(custom, kind);
    if field != "" then TextAt(data, field) else FirstPresent(data, OWNER_NAMES)
  }

  // ---- evaluator.ts: normalizeResource ----

  function Entry(name: string, value: Option<string>): Fields {
    if value.Some? then map[name := Text(value.value)] else map[]
  }

  /** A descriptor as an object, where its own properties serve as the source. */
  function OwnFields(g: Given): Fields
    requires g.Descriptor?
  {
    g.others + Entry("type", Some(g.kind)) + Entry("id", g.id) + Entry("tenantId", g.tenantId)
        + Entry("ownerId", g.ownerId)
  }

  function Source(g: Given): Fields
    requires g.Descriptor?
  {
    if g.attributes.Some? then g.attributes.value else if g.data.Some? then g.data.value else OwnFields(g)
  }

  function Normalize(custom: map<string, string>, g: Given, resourceType: Option<string>): Option<Resource> {
    match g
    case Nothing => None
    case Descriptor(kind, id, tenantId, ownerId, _, _, _) =>
      var owner := if ownerId.Some? then ownerId else ResolveOwner(custom, kind, Source(g));
      Some(Resource(kind, id, tenantId, owner, Source(g)))
    case Plain(fields) =>
      var kind := if resourceType.Some? then resourceType.value else "resource";
      Some(Resource(kind, TextAt(fields, "id"), TextAt(fields, "tenantId"), ResolveOwner(custom, kind, fields), fields))
  }

  function Normalized(custom: map<string, string>, r: RawRequest): Request {
    Request(r.principal, r.action, Normalize(custom, r.resource, r.resourceType), r.context)
  }

  // ---- evaluator.ts: the loops ----

  predicate Truthy(s: Option<string>) { s.Some? && s.value != "" }

  predicate MatchesKind(kinds: Option<seq<string>>, resource: Option<Resource>) {
    || kinds.None?
    || (resource.Some? && resource.value.kind != "" && ("*" in kinds.value || resource.value.kind in kinds.value))
  }

  predicate Applies(p: Policy, r: Request) {
    HoldsOne(p.actions, r.action) && MatchesKind(p.kinds, r.resource)
  }

  function ParamsOf(r: Request): Params { Params(r.principal, r.resource, r.context) }

  /** policies.filter(applies).filter(effect), then the first whose condition holds. */
  function FirstTrue(policies: seq<Policy>, effect: Effect, r: Request): Option<Policy> {
    if policies == [] then None
    else if Applies(policies[0], r) && policies[0].effect == effect && policies[0].condition(ParamsOf(r)) then
      Some(policies[0])
    else FirstTrue(policies[1..], effect, r)
  }

  /** The two tenant checks that precede every ALLOW. */
  predicate WrongTenant(r: Request) {
    && r.resource.Some?
    && if Truthy(r.resource.value.tenantId) then r.resource.value.tenantId != r.principal.tenantId
       else Truthy(r.principal.tenantId) && r.resource.value.kind != "request"
  }

  predicate RoleAllows(roles: Roles, r: Request) {
    && (r.resource.None? || r.resource.value.kind == "request")
    && HoldsGrant(RoleGrants(roles, r.principal), r.action)
  }

  function Evaluate(roles: Roles, r: Request, policies: seq<Policy>): Decision {
    var deny := FirstTrue(policies, DENY, r);
    if deny.Some? then Decision(false, ExplicitDeny, Some(deny.value.id))
    else if r.principal.role == "*" || r.principal.superAdmin then Decision(true, SuperAdmin, None)
    else if WrongTenant(r) then Decision(false, TenantMismatch, None)
    else
      var allow := FirstTrue(policies, ALLOW, r);
      if allow.Some? then
        var owns := r.resource.Some? && r.resource.value.ownerId == Some(r.principal.id);
        Decision(true, if owns then RebacRelation else AbacPolicy, Some(allow.value.id))
      else if RoleAllows(roles, r) then Decision(true, RbacRole, None)
      else Decision(false, DefaultDeny, None)
  }

  // ---- The rule, without any order ----

  /** Some registered policy of this effect applies and its condition holds. */
  ghost predicate Votes(policies: seq<Policy>, effect: Effect, r: Request) {
    exists p | p in policies :: Applies(p, r) && p.effect == effect && p.condition(ParamsOf(r))
  }

  predicate Super(p: Principal) { p.role == "*" || p.superAdmin }

  ghost predicate Allowed(roles: Roles, r: Request, policies: seq<Policy>) {
    && !Votes(policies, DENY, r)
    && (Super(r.principal) || (!WrongTenant(r) && (Votes(policies, ALLOW, r) || RoleAllows(roles, r))))
  }

  lemma {:induction false} FirstTrueFindsVote(policies: seq<Policy>, effect: Effect, r: Request)
    ensures FirstTrue(policies, effect, r).Some? <==> Votes(policies, effect, r)
    ensures FirstTrue(policies, effect, r).Some? ==>
              var p := FirstTrue(policies, effect, r).value;
              p in policies && Applies(p, r) && p.effect == effect && p.condition(ParamsOf(r))
  {
    if policies != [] {
      FirstTrueFindsVote(policies[1..], effect, r);
      assert forall p :: p in policies <==> p == policies[0] || p in policies[1..];
    }
  }

  /** The allowed bit is the order-free rule. */
  lemma EvaluateDecidesRule(roles: Roles, r: Request, policies: seq<Policy>)
    ensures Evaluate(roles, r, policies).allowed <==> Allowed(roles, r, policies)
  {
    FirstTrueFindsVote(policies, DENY, r);
    FirstTrueFindsVote(policies, ALLOW, r);
  }

  /** The tenant of a resource, of whatever shape. */
  function TenantOf(g: Given): Option<string> {
    match g
    case Nothing => None
    case Descriptor(_, _, tenantId, _, _, _, _) => tenantId
    case Plain(fields) => TextAt(fields, "tenantId")
  }

  /** No resource, or one of the pseudo-type of whole requests. */
  predicate RequestLevel(r: RawRequest) {
    match r.resource
    case Nothing => true
    case Descriptor(kind, _, _, _, _, _, _) => kind == "request"
    case Plain(_) => r.resourceType == Some("request")
  }

  /**
   A tenant's resource needs that tenant active; a resource of no tenant needs none active, unless it is a request.
   */
  predicate TenantFits(r: RawRequest) {
    || r.resource.Nothing?
    || (if Truthy(TenantOf(r.resource)) then TenantOf(r.resource) == r.principal.tenantId
        else !Truthy(r.principal.tenantId) || RequestLevel(r))
  }

  /** evaluateAuthorization, from the request as it arrives. */
  function EvaluateAuthorization(roles: Roles, custom: map<string, string>, r: RawRequest,
      policies: seq<Policy>): Decision {
    Evaluate(roles, Normalized(custom, r), policies)
  }

  /** What the resource of a request is called; a plain object has the type the request gives, or "resource". */
  function KindOf(r: RawRequest): string {
    match r.resource
    case Nothing => ""
    case Descriptor(kind, _, _, _, _, _, _) => kind
    case Plain(_) => if r.resourceType.Some? then r.resourceType.value else "resource"
  }

  /** One of its actions covers the action asked for, and its types, if it has any, admit the resource. */
  ghost predicate AppliesTo(p: Policy, r: RawRequest) {
    && (exists held | held in p.actions :: Covers(held, r.action))
    && (p.kinds.None? || (KindOf(r) != "" && ("*" in p.kinds.value || KindOf(r) in p.kinds.value)))
  }

  /** Some policy of this effect applies and its condition holds of principal, normalised resource and context. */
  ghost predicate VotesOn(policies: seq<Policy>, effect: Effect, custom: map<string, string>, r: RawRequest) {
    exists p | p in policies ::
      && AppliesTo(p, r) && p.effect == effect
      && p.condition(Params(r.principal, Normalize(custom, r.resource, r.resourceType), r.context))
  }

  /** A permission of the principal's roles covers the action. */
  ghost predicate RolesGrant(roles: Roles, r: RawRequest) {
    exists held | held in RoleGrants(roles, r.principal) :: Covers(held, r.action)
  }

  lemma ActionsCover(actions: seq<string>, required: string)
    ensures HoldsOne(actions, required) <==> exists held | held in actions :: Covers(held, required)
  {
    forall held | held in actions ensures MatchesPermission(held, required) <==> Covers(held, required) {
      PermissionCoversIff(held, required);
    }
    if held :| held in actions && Covers(held, required) {
      var i :| 0 <= i < |actions| && actions[i] == held;
      assert MatchesPermission(actions[i], required);
    }
    if HoldsOne(actions, required) {
      var i :| 0 <= i < |actions| && MatchesPermission(actions[i], required);
      assert actions[i] in actions;
    }
  }

  lemma GrantsCover(held: set<string>, required: string)
    ensures HoldsGrant(held, required) <==> exists perm | perm in held :: Covers(perm, required)
  {
    forall perm | perm in held ensures MatchesPermission(perm, required) <==> Covers(perm, required) {
      PermissionCoversIff(perm, required);
    }
  }

  /** Which policies apply to a request as it arrives. */
  lemma PolicyAppliesIff(custom: map<string, string>, r: RawRequest, p: Policy)
    ensures Applies(p, Normalized(custom, r)) <==> AppliesTo(p, r)
  {
    ActionsCover(p.actions, r.action);
  }

  lemma VotesAgree(policies: seq<Policy>, effect: Effect, custom: map<string, string>, r: RawRequest)
    ensures Votes(policies, effect, Normalized(custom, r)) <==> VotesOn(policies, effect, custom, r)
  {
    forall p | p in policies ensures Applies(p, Normalized(custom, r)) <==> AppliesTo(p, r) {
      PolicyAppliesIff(custom, r, p);
    }
    if VotesOn(policies, effect, custom, r) {
      var p :| p in policies && AppliesTo(p, r) && p.effect == effect
               && p.condition(Params(r.principal, Normalize(custom, r.resource, r.resourceType), r.context));
      assert Applies(p, Normalized(custom, r));
    }
    if Votes(policies, effect, Normalized(custom, r)) {
      var p :| p in policies && Applies(p, Normalized(custom, r)) && p.effect == effect
               && p.condition(ParamsOf(Normalized(custom, r)));
      assert AppliesTo(p, r);
    }
  }

  /**
   The allowed bit for every request, its resource in any shape: no DENY votes, and then a super administrator, or the
   tenant fits and an ALLOW votes or the roles grant a request-level action.
   */
  lemma AuthorizationDecidesRule(roles: Roles, custom: map<string, string>, r: RawRequest, policies: seq<Policy>)
    ensures EvaluateAuthorization(roles, custom, r, policies).allowed <==>
              && !VotesOn(policies, DENY, custom, r)
              && (Super(r.principal)
                  || (TenantFits(r)
                      && (VotesOn(policies, ALLOW, custom, r) || (RequestLevel(r) && RolesGrant(roles, r)))))
  {
    EvaluateDecidesRule(roles, Normalized(custom, r), policies);
    VotesAgree(policies, DENY, custom, r);
    VotesAgree(policies, ALLOW, custom, r);
    GrantsCover(RoleGrants(roles, r.principal), r.action);
  }

  /**
   With the tables of the source: where no policy allows it, only super and global administrators delete users, and the
   latter at request level only.
   */
  lemma DeletingUsersIsReserved(custom: map<string, string>, r: RawRequest, policies: seq<Policy>)
    requires r.action == "users:delete" && !VotesOn(policies, ALLOW, custom, r)
    ensures EvaluateAuthorization(ROLES, custom, r, policies).allowed <==>
              && !VotesOn(policies, DENY, custom, r)
              && (Super(r.principal) || (TenantFits(r) && RequestLevel(r) && Lower(r.principal.role) == "admin"))
  {
    AuthorizationDecidesRule(ROLES, custom, r, policies);
    OnlyAdminsDeleteUsers(r.principal);
    GrantsCover(RoleGrants(ROLES, r.principal), r.action);
  }

  lemma OwnFieldsShowId(g: Given)
    requires g.Descriptor?
    ensures g.id.Some? ==> TextAt(OwnFields(g), "id") == g.id
  {
    assert "tenantId" != "id" && "ownerId" != "id";
  }

  /**
   What conditions see of a resource: the fields of a descriptor, with its attributes, else its data, else its own
   properties as attributes; and of any other object its string id and tenant, with the object itself as attributes.
   */
  lemma ConditionsSee(custom: map<string, string>, r: RawRequest)
    requires !r.resource.Nothing?
    ensures var g, n := r.resource, Normalize(custom, r.resource, r.resourceType).value;
            && n.kind == KindOf(r) && n.tenantId == TenantOf(g)
            && (g.Descriptor? ==>
                  && n.id == g.id && (g.ownerId.Some? ==> n.ownerId == g.ownerId)
                  && (g.attributes.Some? ==> n.attributes == g.attributes.value)
                  && (g.attributes.None? && g.data.Some? ==> n.attributes == g.data.value)
                  && (g.attributes.None? && g.data.None? && g.id.Some? ==> TextAt(n.attributes, "id") == g.id))
            && (g.Plain? ==> n.attributes == g.fields && n.id == TextAt(g.fields, "id"))
  {
    if r.resource.Descriptor? { OwnFieldsShowId(r.resource); }
  }

  /** A normalised resource, passed on as a descriptor. */
  function AsGiven(n: Resource): Given {
    Descriptor(n.kind, n.id, n.tenantId, n.ownerId, Some(n.attributes), None, map[])
  }

  /** Normalising twice is normalising once: an owner that was not found is not found again. */
  lemma NormalizeIsIdempotent(custom: map<string, string>, g: Given, resourceType: Option<string>,
      again: Option<string>)
    requires !g.Nothing?
    ensures var n := Normalize(custom, g, resourceType).value; Normalize(custom, AsGiven(n), again) == Some(n)
  {
  }

  /** The owner a caller can point to: the one it passed, or the one found in the source. */
  predicate Owns(custom: map<string, string>, r: RawRequest) {
    match r.resource
    case Nothing => false
    case Descriptor(kind, _, _, ownerId, _, _, _) =>
      (if ownerId.Some? then ownerId else ResolveOwner(custom, kind, Source(r.resource))) == Some(r.principal.id)
    case Plain(fields) =>
      ResolveOwner(custom, if r.resourceType.Some? then r.resourceType.value else "resource", fields)
          == Some(r.principal.id)
  }

  /** The two reasons of a policy decision tell owners from others, and only such decisions carry them. */
  lemma RelationTellsOwner(roles: Roles, custom: map<string, string>, r: RawRequest, policies: seq<Policy>)
    ensures var d := EvaluateAuthorization(roles, custom, r, policies);
            && (d.reason == RebacRelation || d.reason == AbacPolicy <==> d.allowed && d.matchedPolicyId.Some?)
            && (d.reason == RebacRelation ==> Owns(custom, r))
            && (d.reason == AbacPolicy ==> !Owns(custom, r))
  {
  }

  /**
   Whose property names the owner: that of a registered field, else that of notes, files and users, else the first of
   eight names that is present.
   */
  lemma OwnerFollowsKind(custom: map<string, string>, kind: string, data: Fields)
    ensures kind in custom && custom[kind] != "" ==> ResolveOwner(custom, kind, data) == TextAt(data, custom[kind])
    ensures kind !in custom ==>
              && (kind == "note" ==> ResolveOwner(custom, kind, data) == TextAt(data, "createdBy"))
              && (kind == "file" ==> ResolveOwner(custom, kind, data) == TextAt(data, "uploadedBy"))
              && (kind == "user" ==> ResolveOwner(custom, kind, data) == TextAt(data, "id"))
              && (kind !in {"note", "file", "user"} && "ownerId" in data ==>
                    ResolveOwner(custom, kind, data) == TextAt(data, "ownerId"))
              && (kind !in {"note", "file", "user"} && data.Keys !! (set n | n in OWNER_NAMES) ==>
                    ResolveOwner(custom, kind, data) == None)
  {
    if kind !in custom && kind !in {"note", "file", "user"} && data.Keys !! (set n | n in OWNER_NAMES) {
      NonePresent(data, OWNER_NAMES);
    }
  }

  lemma {:induction false} NonePresent(data: Fields, names: seq<string>)
    requires forall n | n in names :: n !in data
    ensures FirstPresent(data, names) == None
  {
    if names != [] { NonePresent(data, names[1..]); }
  }

  /** Of the names tried for a type without an ownership field, the first that is present decides alone. */
  lemma {:induction false} FirstPresentDecides(data: Fields, names: seq<string>, i: nat)
    requires i < |names| && names[i] in data && forall j | 0 <= j < i :: names[j] !in data
    ensures FirstPresent(data, names) == TextAt(data, names[i])
  {
    if i != 0 { FirstPresentDecides(data, names[1..], i - 1); }
  }

  /** Hence neither the order in which policies are registered nor repeats of one matter. */
  lemma OrderDoesNotMatter(roles: Roles, r: Request, ps: seq<Policy>, qs: seq<Policy>)
    requires forall p :: p in ps <==> p in qs
    ensures Evaluate(roles, r, ps).allowed == Evaluate(roles, r, qs).allowed
    ensures Evaluate(roles, r, ps).reason == Evaluate(roles, r, qs).reason
  {
    FirstTrueFindsVote(ps, DENY, r);
    FirstTrueFindsVote(ps, ALLOW, r);
    FirstTrueFindsVote(qs, DENY, r);
    FirstTrueFindsVote(qs, ALLOW, r);
    assert Votes(ps, DENY, r) == Votes(qs, DENY, r);
    assert Votes(ps, ALLOW, r) == Votes(qs, ALLOW, r);
  }

  /**
   What each reason tells, whatever the policies: an explicit denial and a matched policy name a policy that voted.
   */
  lemma ReasonsAreWitnessed(roles: Roles, r: Request, policies: seq<Policy>)
    ensures var d := Evaluate(roles, r, policies);
            && (d.reason == ExplicitDeny <==> Votes(policies, DENY, r))
            && (d.reason == SuperAdmin <==> !Votes(policies, DENY, r) && Super(r.principal))
            && (d.reason == TenantMismatch <==> !Votes(policies, DENY, r) && !Super(r.principal) && WrongTenant(r))
            && (d.reason == RbacRole ==> d.allowed && !Votes(policies, ALLOW, r) && RoleAllows(roles, r))
            && (d.reason in {ExplicitDeny, TenantMismatch, DefaultDeny} <==> !d.allowed)
            && (d.matchedPolicyId.Some? ==>
                  exists p | p in policies :: p.id == d.matchedPolicyId.value
                                              && Applies(p, r) && p.condition(ParamsOf(r))
                                              && (p.effect == ALLOW <==> d.allowed))
  {
    FirstTrueFindsVote(policies, DENY, r);
    FirstTrueFindsVote(policies, ALLOW, r);
  }

  /** No set of policies lets an ordinary principal reach a resource of another tenant. */
  lemma TenantsAreIsolated(roles: Roles, r: Request, policies: seq<Policy>)
    requires !Super(r.principal) && r.resource.Some? && Truthy(r.resource.value.tenantId)
    requires r.resource.value.tenantId != r.principal.tenantId
    ensures !Evaluate(roles, r, policies).allowed
  {
    EvaluateDecidesRule(roles, r, policies);
  }

  // ---- Registration ----

  function RegisterAll(policies: seq<Policy>, batches: seq<seq<Policy>>): seq<Policy>
    decreases batches
  {
    if batches == [] then policies else RegisterAll(policies + batches[0], batches[1..])
  }

  predicate AllOf(batches: seq<seq<Policy>>, effect: Effect) {
    forall i, j | 0 <= i < |batches| && 0 <= j < |batches[i]| :: batches[i][j].effect == effect
  }

  lemma OneBatch(roles: Roles, r: Request, policies: seq<Policy>, batch: seq<Policy>, effect: Effect)
    requires forall j | 0 <= j < |batch| :: batch[j].effect == effect
    ensures effect == ALLOW && Evaluate(roles, r, policies).allowed ==> Evaluate(roles, r, policies + batch).allowed
    ensures effect == DENY && Evaluate(roles, r, policies + batch).allowed ==> Evaluate(roles, r, policies).allowed
  {
    EvaluateDecidesRule(roles, r, policies);
    EvaluateDecidesRule(roles, r, policies + batch);
    assert forall p :: p in policies + batch <==> p in policies || p in batch;
    assert forall p :: p in batch ==> p.effect == effect;
    assert Votes(policies, ALLOW, r) ==> Votes(policies + batch, ALLOW, r);
    assert Votes(policies, DENY, r) ==> Votes(policies + batch, DENY, r);
    assert effect == ALLOW && Votes(policies + batch, DENY, r) ==> Votes(policies, DENY, r);
    assert effect == DENY && Votes(policies + batch, ALLOW, r) ==> Votes(policies, ALLOW, r);
  }

  /** Over any sequence of registrations, ALLOWs only ever widen and DENYs only ever narrow what is allowed. */
  lemma {:induction false} RegistrationIsMonotone(roles: Roles, r: Request, policies: seq<Policy>,
      batches: seq<seq<Policy>>, effect: Effect)
    requires AllOf(batches, effect)
    ensures effect == ALLOW && Evaluate(roles, r, policies).allowed ==>
        Evaluate(roles, r, RegisterAll(policies, batches)).allowed
    ensures effect == DENY && Evaluate(roles, r, RegisterAll(policies, batches)).allowed ==>
        Evaluate(roles, r, policies).allowed
    decreases batches
  {
    if batches != [] {
      OneBatch(roles, r, policies, batches[0], effect);
      RegistrationIsMonotone(roles, r, policies + batches[0], batches[1..], effect);
    }
  }
}
