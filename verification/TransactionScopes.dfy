/**
 Scopes inside one open transaction: withTenantScope, withSystemScope, savepoints and after-commit callbacks.

 The scope exists twice, as transaction settings that row-level security reads and as the request's CLS context.
 A body is a program over the operations a command can nest. An SQL error aborts the transaction: until a savepoint
 is rolled back every further statement fails, the ones that restore a scope included.
 */
module TransactionScopes {
  import opened Options

  datatype Program =
    | Query
    | AfterCommit(callback: nat)
    | Throw
    | SqlError
    | Seq(first: Program, second: Program)
    | TenantScope(tenant: string, body: Program)
    | SystemScope(body: Program)
    | Savepoint(body: Program)
    | Catch(body: Program)

  /** The transaction settings app.current_tenant and app.system_scope. */
  datatype Settings = Settings(tenant: string, system: bool)

  /** The CLS context: tenantId may be undefined; systemScope counts only when it is true. */
  datatype Context = Context(tenant: Option<string>, system: bool)

  /** What a query observed: the settings it ran under and the context around it. */
  datatype Observation = Observation(settings: Settings, context: Settings)

  datatype State = State(
    settings: Settings, context: Context, aborted: bool, pending: seq<nat>, observed: seq<Observation>)

  datatype Result = Ok | Threw

  function TenantOf(c: Context): string { if c.tenant.Some? then c.tenant.value else "" }

  /** The context as settings: an undefined tenant reads as empty. */
  function Scope(c: Context): Settings { Settings(TenantOf(c), c.system) }

  predicate Agree(s: State) { s.settings == Scope(s.context) }

  /** setTenantContext: the setting first, then CLS; it throws before touching CLS when the statement fails. */
  function SetTenantContext(s: State, tenant: string): (State, Result) {
    if s.aborted then (s, Threw)
    else (s.(settings := s.settings.(tenant := tenant), context := s.context.(tenant := Some(tenant))), Ok)
  }

  function SetSystemConfig(s: State, on: bool): (State, Result) {
    if s.aborted then (s, Threw) else (s.(settings := s.settings.(system := on)), Ok)
  }

  function RunBody(p: Program, s: State): (State, Result) {
    match p
    case Query =>
      if s.aborted then (s, Threw)
      else (s.(observed := s.observed + [Observation(s.settings, Scope(s.context))]), Ok)
    case AfterCommit(callback) => (s.(pending := s.pending + [callback]), Ok)
    case Throw => (s, Threw)
    case SqlError => (s.(aborted := true), Threw)
    case Seq(first, second) =>
      var (s1, r1) := RunBody(first, s);
      if r1 == Threw then (s1, Threw) else RunBody(second, s1)
    case Catch(body) => (RunBody(body, s).0, Ok)
    case TenantScope(tenant, body) =>
      var previous := TenantOf(s.context);
      var (s1, entered) := SetTenantContext(s, tenant);
      if entered == Threw then (s1, Threw)
      else
        var (s2, result) := RunBody(body, s1);
        var (s3, restored) := SetTenantContext(s2, previous);
        (s3, if restored == Threw then Threw else result)
    case SystemScope(body) =>
      var outer := s.context;
      var (s1, entered) := SetSystemConfig(s.(context := s.context.(system := true)), true);
      if entered == Threw then (s1.(context := outer), Threw)
      else
        var (s2, result) := RunBody(body, s1);
        var (s3, restored) := SetSystemConfig(s2, outer.system);
        (s3.(context := outer), if restored == Threw then Threw else result)
    case Savepoint(body) =>
      if s.aborted then (s, Threw)
      else
        var (s1, result) := RunBody(body, s);
        if result == Ok && !s1.aborted then (s1, Ok)
        else
          (s1.(settings := s.settings, aborted := false,
               pending := if |s1.pending| > |s.pending| then s1.pending[..|s.pending|] else s1.pending), Threw)
  }

  // ---- What a body does, read off the body alone ----

  /**
   How a body ends and whether it leaves the transaction aborted, read off the body alone: scopes and callbacks do not
   matter.
   */
  function Fate(p: Program, aborted: bool): (Result, bool) {
    match p
    case Query => if aborted then (Threw, true) else (Ok, false)
    case AfterCommit(_) => (Ok, aborted)
    case Throw => (Threw, aborted)
    case SqlError => (Threw, true)
    case Seq(a, b) => if Fate(a, aborted).0 == Threw then Fate(a, aborted) else Fate(b, Fate(a, aborted).1)
    case Catch(body) => (Ok, Fate(body, aborted).1)
    case TenantScope(_, body) => FateOfScope(Fate(body, false), aborted)
    case SystemScope(body) => FateOfScope(Fate(body, false), aborted)
    case Savepoint(body) =>
      if aborted then (Threw, true)
      else if Fate(body, false) == (Ok, false) then (Ok, false)
      else (Threw, false)
  }

  /** A scope cannot be entered, nor left without an error, while the transaction is aborted. */
  function FateOfScope(inside: (Result, bool), aborted: bool): (Result, bool) {
    if aborted || inside.1 then (Threw, true) else inside
  }

  /** The scopes the queries of a body must run under: the innermost tenant and the innermost system flag. */
  function Expected(p: Program, scope: Settings, aborted: bool): seq<Settings> {
    match p
    case Query => if aborted then [] else [scope]
    case Seq(a, b) =>
      Expected(a, scope, aborted) + if Fate(a, aborted).0 == Threw then [] else Expected(b, scope, Fate(a, aborted).1)
    case Catch(body) => Expected(body, scope, aborted)
    case TenantScope(tenant, body) => if aborted then [] else Expected(body, scope.(tenant := tenant), false)
    case SystemScope(body) => if aborted then [] else Expected(body, scope.(system := true), false)
    case Savepoint(body) => if aborted then [] else Expected(body, scope, false)
    case _ => []
  }

  /** The callbacks that survive a body: those registered in a savepoint are discarded with it when it rolls back. */
  function Left(p: Program, aborted: bool): seq<nat> {
    match p
    case AfterCommit(callback) => [callback]
    case Seq(a, b) => Left(a, aborted) + if Fate(a, aborted).0 == Threw then [] else Left(b, Fate(a, aborted).1)
    case Catch(body) => Left(body, aborted)
    case TenantScope(_, body) => if aborted then [] else Left(body, false)
    case SystemScope(body) => if aborted then [] else Left(body, false)
    case Savepoint(body) => if aborted || Fate(body, false) != (Ok, false) then [] else Left(body, false)
    case _ => []
  }

  /**
   The tenants a body leaves in CLS and in the transaction settings, read off the body alone. A tenant scope whose body
   leaves the transaction aborted cannot restore anything; any other puts the CLS tenant of its entry into both copies.
   */
  function Tenants(p: Program, cls: string, db: string, aborted: bool): (string, string) {
    match p
    case Seq(a, b) =>
      var mid := Tenants(a, cls, db, aborted);
      var (ended, broken) := Fate(a, aborted);
      if ended == Threw then mid else Tenants(b, mid.0, mid.1, broken)
    case Catch(body) => Tenants(body, cls, db, aborted)
    case TenantScope(tenant, body) =>
      if aborted then (cls, db)
      else if Fate(body, false).1 then Tenants(body, tenant, tenant, false)
      else (cls, cls)
    case SystemScope(body) => if aborted then (cls, db) else (cls, Tenants(body, cls, db, false).1)
    case Savepoint(body) =>
      if aborted then (cls, db)
      else
        var inside := Tenants(body, cls, db, false);
        if Fate(body, false) == (Ok, false) then inside else (inside.0, db)
    case _ => (cls, db)
  }

  /** What the queries of a body see: the two tenants at that point, and the system flag, on which the copies agree. */
  function Seen(p: Program, cls: string, db: string, system: bool, aborted: bool): seq<Observation> {
    match p
    case Query => if aborted then [] else [Observation(Settings(db, system), Settings(cls, system))]
    case Seq(a, b) =>
      var mid := Tenants(a, cls, db, aborted);
      var (ended, broken) := Fate(a, aborted);
      Seen(a, cls, db, system, aborted) + if ended == Threw then [] else Seen(b, mid.0, mid.1, system, broken)
    case Catch(body) => Seen(body, cls, db, system, aborted)
    case TenantScope(tenant, body) => if aborted then [] else Seen(body, tenant, tenant, system, false)
    case SystemScope(body) => if aborted then [] else Seen(body, cls, db, true, false)
    case Savepoint(body) => if aborted then [] else Seen(body, cls, db, system, false)
    case _ => []
  }

  // ---- And that is what it does, from any state ----

  lemma {:induction false} FateIsRun(p: Program, s: State)
    ensures (RunBody(p, s).1, RunBody(p, s).0.aborted) == Fate(p, s.aborted)
    decreases p
  {
    match p
    case Seq(a, b) =>
      FateIsRun(a, s);
      FateIsRun(b, RunBody(a, s).0);
    case Catch(body) => FateIsRun(body, s);
    case TenantScope(tenant, body) => FateIsRun(body, SetTenantContext(s, tenant).0);
    case SystemScope(body) => FateIsRun(body, SetSystemConfig(s.(context := s.context.(system := true)), true).0);
    case Savepoint(body) => FateIsRun(body, s);
    case _ =>
  }

  lemma {:induction false} TenantsIsRun(p: Program, s: State)
    ensures (TenantOf(RunBody(p, s).0.context), RunBody(p, s).0.settings.tenant)
         == Tenants(p, TenantOf(s.context), s.settings.tenant, s.aborted)
    decreases p
  {
    FateIsRun(p, s);
    match p
    case Seq(a, b) =>
      FateIsRun(a, s);
      TenantsIsRun(a, s);
      TenantsIsRun(b, RunBody(a, s).0);
    case Catch(body) => TenantsIsRun(body, s);
    case TenantScope(tenant, body) =>
      FateIsRun(body, SetTenantContext(s, tenant).0);
      TenantsIsRun(body, SetTenantContext(s, tenant).0);
    case SystemScope(body) => TenantsIsRun(body, SetSystemConfig(s.(context := s.context.(system := true)), true).0);
    case Savepoint(body) =>
      FateIsRun(body, s);
      TenantsIsRun(body, s);
    case _ =>
  }

  /** The system flag of CLS always comes back; that of the settings does in every transaction that is still usable. */
  lemma {:induction false} SystemFlagIsRestored(p: Program, s: State)
    requires s.settings.system == s.context.system || s.aborted
    ensures var s' := RunBody(p, s).0;
            s'.context.system == s.context.system && (!s'.aborted ==> s'.settings.system == s.context.system)
    decreases p
  {
    match p
    case Seq(a, b) =>
      SystemFlagIsRestored(a, s);
      SystemFlagIsRestored(b, RunBody(a, s).0);
    case Catch(body) => SystemFlagIsRestored(body, s);
    case TenantScope(tenant, body) => SystemFlagIsRestored(body, SetTenantContext(s, tenant).0);
    case SystemScope(body) =>
      SystemFlagIsRestored(body, SetSystemConfig(s.(context := s.context.(system := true)), true).0);
    case Savepoint(body) => SystemFlagIsRestored(body, s);
    case _ =>
  }

  lemma {:induction false} LeftIsRun(p: Program, s: State)
    ensures RunBody(p, s).0.pending == s.pending + Left(p, s.aborted)
    decreases p
  {
    match p
    case Seq(a, b) =>
      FateIsRun(a, s);
      LeftIsRun(a, s);
      LeftIsRun(b, RunBody(a, s).0);
    case Catch(body) => LeftIsRun(body, s);
    case TenantScope(tenant, body) => LeftIsRun(body, SetTenantContext(s, tenant).0);
    case SystemScope(body) => LeftIsRun(body, SetSystemConfig(s.(context := s.context.(system := true)), true).0);
    case Savepoint(body) =>
      FateIsRun(body, s);
      LeftIsRun(body, s);
      assert !s.aborted ==> RunBody(body, s).0.pending[..|s.pending|] == s.pending;
    case _ =>
  }

  lemma {:induction false} SeenIsRun(p: Program, s: State)
    requires s.settings.system == s.context.system || s.aborted
    ensures RunBody(p, s).0.observed
         == s.observed + Seen(p, TenantOf(s.context), s.settings.tenant, s.context.system, s.aborted)
    decreases p
  {
    match p
    case Seq(a, b) =>
      FateIsRun(a, s);
      TenantsIsRun(a, s);
      SystemFlagIsRestored(a, s);
      SeenIsRun(a, s);
      SeenIsRun(b, RunBody(a, s).0);
    case Catch(body) => SeenIsRun(body, s);
    case TenantScope(tenant, body) => SeenIsRun(body, SetTenantContext(s, tenant).0);
    case SystemScope(body) => SeenIsRun(body, SetSystemConfig(s.(context := s.context.(system := true)), true).0);
    case Savepoint(body) => SeenIsRun(body, s);
    case _ =>
  }

  // ---- What queries see ----

  /** Observations of queries that ran under `scope` in both copies. */
  function Both(scopes: seq<Settings>): seq<Observation> {
    seq(|scopes|, i requires 0 <= i < |scopes| => Observation(scopes[i], scopes[i]))
  }

  lemma BothAppend(a: seq<Settings>, b: seq<Settings>)
    ensures Both(a + b) == Both(a) + Both(b)
  {}

  /** At every query that runs, both copies hold the tenant `inner` of the innermost scope around it. */
  predicate SeesInnermost(p: Program, cls: string, db: string, inner: string, aborted: bool) {
    match p
    case Query => aborted || (cls == inner && db == inner)
    case Seq(a, b) =>
      var mid := Tenants(a, cls, db, aborted);
      var (ended, broken) := Fate(a, aborted);
      SeesInnermost(a, cls, db, inner, aborted) && (ended == Ok ==> SeesInnermost(b, mid.0, mid.1, inner, broken))
    case Catch(body) => SeesInnermost(body, cls, db, inner, aborted)
    case TenantScope(tenant, body) => aborted || SeesInnermost(body, tenant, tenant, tenant, false)
    case SystemScope(body) => aborted || SeesInnermost(body, cls, db, inner, false)
    case Savepoint(body) => aborted || SeesInnermost(body, cls, db, inner, false)
    case _ => true
  }

  lemma {:induction false} SeenAsExpectedIff(
      p: Program, cls: string, db: string, system: bool, inner: string, aborted: bool)
    ensures var seen, meant := Seen(p, cls, db, system, aborted), Expected(p, Settings(inner, system), aborted);
            |seen| == |meant| && (seen == Both(meant) <==> SeesInnermost(p, cls, db, inner, aborted))
    decreases p
  {
    match p
    case Seq(a, b) =>
      var mid := Tenants(a, cls, db, aborted);
      var (ended, broken) := Fate(a, aborted);
      SeenAsExpectedIff(a, cls, db, system, inner, aborted);
      if ended == Ok {
        SeenAsExpectedIff(b, mid.0, mid.1, system, inner, broken);
        var meant, next := Expected(a, Settings(inner, system), aborted), Expected(b, Settings(inner, system), broken);
        BothAppend(meant, next);
        SplitEqual(Seen(a, cls, db, system, aborted), Seen(b, mid.0, mid.1, system, broken), Both(meant), Both(next));
      } else {
        assert Seen(p, cls, db, system, aborted) == Seen(a, cls, db, system, aborted);
        assert Expected(p, Settings(inner, system), aborted) == Expected(a, Settings(inner, system), aborted);
      }
    case Catch(body) => SeenAsExpectedIff(body, cls, db, system, inner, aborted);
    case TenantScope(tenant, body) => SeenAsExpectedIff(body, tenant, tenant, system, tenant, false);
    case SystemScope(body) => SeenAsExpectedIff(body, cls, db, true, inner, false);
    case Savepoint(body) => SeenAsExpectedIff(body, cls, db, system, inner, false);
    case Query =>
      var scope := Settings(inner, system);
      assert Both([scope]) == [Observation(scope, scope)] && Both([]) == [];
      assert !aborted ==> Seen(p, cls, db, system, aborted)[0].settings.tenant == db;
      assert !aborted ==> Seen(p, cls, db, system, aborted)[0].context.tenant == cls;
    case _ =>
      assert Both([]) == [];
  }

  lemma SplitEqual(a: seq<Observation>, b: seq<Observation>, c: seq<Observation>, d: seq<Observation>)
    requires |a| == |c|
    ensures a + b == c + d <==> a == c && b == d
  {
    if a + b == c + d {
      assert a == (a + b)[..|a|] && c == (c + d)[..|a|];
      assert b == (a + b)[|a|..] && d == (c + d)[|a|..];
    }
  }

  /**
   For every nest, SQL errors included: each query runs under its innermost scope in both copies exactly when the
   tenants computed from the body say so.
   */
  lemma QueriesSeeInnermostIff(p: Program, s: State)
    requires Agree(s) && !s.aborted
    ensures var tenant := s.settings.tenant;
            RunBody(p, s).0.observed == s.observed + Both(Expected(p, s.settings, false))
            <==> SeesInnermost(p, tenant, tenant, tenant, false)
  {
    var tenant, system := s.settings.tenant, s.settings.system;
    SeenIsRun(p, s);
    SeenAsExpectedIff(p, tenant, tenant, system, tenant, false);
    SplitEqual(s.observed, Seen(p, tenant, tenant, system, false), s.observed, Both(Expected(p, s.settings, false)));
  }

  /** Every tenant scope of the body ends with a usable transaction. */
  predicate ScopesExitUsable(p: Program) {
    match p
    case Seq(a, b) => ScopesExitUsable(a) && ScopesExitUsable(b)
    case Catch(body) => ScopesExitUsable(body)
    case TenantScope(_, body) => !Fate(body, false).1
    case SystemScope(body) => ScopesExitUsable(body)
    case Savepoint(body) => ScopesExitUsable(body)
    case _ => true
  }

  /** Then the tenant comes back, whatever it is and whatever SQL errors savepoints absorb. */
  lemma {:induction false} UsableExitsRestore(p: Program, tenant: string, aborted: bool)
    requires ScopesExitUsable(p)
    ensures Tenants(p, tenant, tenant, aborted) == (tenant, tenant)
    decreases p
  {
    match p
    case Seq(a, b) =>
      UsableExitsRestore(a, tenant, aborted);
      UsableExitsRestore(b, tenant, Fate(a, aborted).1);
    case Catch(body) => UsableExitsRestore(body, tenant, aborted);
    case SystemScope(body) => UsableExitsRestore(body, tenant, false);
    case Savepoint(body) => UsableExitsRestore(body, tenant, false);
    case _ =>
  }

  /** So does every tenant scope nested in them. */
  predicate EveryScopeExitsUsable(p: Program) {
    match p
    case Seq(a, b) => EveryScopeExitsUsable(a) && EveryScopeExitsUsable(b)
    case Catch(body) => EveryScopeExitsUsable(body)
    case TenantScope(_, body) => !Fate(body, false).1 && EveryScopeExitsUsable(body)
    case SystemScope(body) => EveryScopeExitsUsable(body)
    case Savepoint(body) => EveryScopeExitsUsable(body)
    case _ => true
  }

  lemma {:induction false} EveryScopeIncludesOuter(p: Program)
    requires EveryScopeExitsUsable(p)
    ensures ScopesExitUsable(p)
    decreases p
  {
    match p
    case Seq(a, b) =>
      EveryScopeIncludesOuter(a);
      EveryScopeIncludesOuter(b);
    case Catch(body) => EveryScopeIncludesOuter(body);
    case SystemScope(body) => EveryScopeIncludesOuter(body);
    case Savepoint(body) => EveryScopeIncludesOuter(body);
    case _ =>
  }

  lemma {:induction false} UsableExitsSee(p: Program, tenant: string, aborted: bool)
    requires EveryScopeExitsUsable(p)
    ensures SeesInnermost(p, tenant, tenant, tenant, aborted)
    decreases p
  {
    match p
    case Seq(a, b) =>
      UsableExitsSee(a, tenant, aborted);
      EveryScopeIncludesOuter(a);
      UsableExitsRestore(a, tenant, aborted);
      UsableExitsSee(b, tenant, Fate(a, aborted).1);
    case Catch(body) => UsableExitsSee(body, tenant, aborted);
    case TenantScope(inner, body) => UsableExitsSee(body, inner, false);
    case SystemScope(body) => UsableExitsSee(body, tenant, false);
    case Savepoint(body) => UsableExitsSee(body, tenant, false);
    case _ =>
  }

  /**
   For every nest of scopes, savepoints and handlers whose tenant scopes all end with a usable transaction, throwing
   bodies and absorbed SQL errors included: each query runs under the innermost scope in both copies, and if the
   transaction is usable at the end, settings and context are those of the entry and agree.
   */
  lemma ScopesAreRestored(p: Program, s: State)
    requires EveryScopeExitsUsable(p) && Agree(s) && !s.aborted
    ensures var (s', result) := RunBody(p, s);
            && (result, s'.aborted) == Fate(p, false)
            && s'.observed == s.observed + Both(Expected(p, s.settings, false))
            && s'.pending == s.pending + Left(p, false)
            && (!s'.aborted ==> s'.settings == s.settings && Scope(s'.context) == Scope(s.context) && Agree(s'))
  {
    FateIsRun(p, s);
    LeftIsRun(p, s);
    TenantsIsRun(p, s);
    SystemFlagIsRestored(p, s);
    EveryScopeIncludesOuter(p);
    UsableExitsRestore(p, s.settings.tenant, false);
    UsableExitsSee(p, s.settings.tenant, false);
    QueriesSeeInnermostIff(p, s);
  }

  /** A body in which no SQL statement fails. */
  predicate SqlSound(p: Program) {
    match p
    case SqlError => false
    case Seq(a, b) => SqlSound(a) && SqlSound(b)
    case Catch(body) => SqlSound(body)
    case TenantScope(_, body) => SqlSound(body)
    case SystemScope(body) => SqlSound(body)
    case Savepoint(body) => SqlSound(body)
    case _ => true
  }

  /** Such a body is one of them, and always leaves the transaction usable. */
  lemma {:induction false} SqlSoundExitsUsable(p: Program)
    requires SqlSound(p)
    ensures EveryScopeExitsUsable(p) && !Fate(p, false).1
    decreases p
  {
    match p
    case Seq(a, b) =>
      SqlSoundExitsUsable(a);
      SqlSoundExitsUsable(b);
    case Catch(body) => SqlSoundExitsUsable(body);
    case TenantScope(_, body) => SqlSoundExitsUsable(body);
    case SystemScope(body) => SqlSoundExitsUsable(body);
    case Savepoint(body) => SqlSoundExitsUsable(body);
    case _ =>
  }

  // ---- When scopes come back ----

  /**
   For every nest, SQL errors included: whether the transaction is usable at the end, and whether both copies of the
   scope are then those of the entry, is decided by the body and the tenants it is entered with, even if those already
   disagree.
   */
  lemma SettingsSurviveSqlErrors(p: Program, s: State)
    requires !s.aborted && s.settings.system == s.context.system
    ensures var s', cls, db := RunBody(p, s).0, TenantOf(s.context), s.settings.tenant;
            && (s'.aborted <==> Fate(p, false).1)
            && (!s'.aborted ==>
                  (s'.settings == s.settings && Scope(s'.context) == Scope(s.context)
                   <==> Tenants(p, cls, db, false) == (cls, db)))
  {
    FateIsRun(p, s);
    TenantsIsRun(p, s);
    SystemFlagIsRestored(p, s);
  }

  /** In particular a body all of whose tenant scopes end with a usable transaction has both copies back. */
  lemma UsableExitsKeepScopes(p: Program, s: State)
    requires Agree(s) && !s.aborted && ScopesExitUsable(p)
    ensures !RunBody(p, s).0.aborted ==>
              RunBody(p, s).0.settings == s.settings && Scope(RunBody(p, s).0.context) == Scope(s.context)
  {
    SettingsSurviveSqlErrors(p, s);
    UsableExitsRestore(p, TenantOf(s.context), false);
  }

  /**
   One scope, whatever its body: both copies hold the tenant of the entry afterwards exactly when the transaction is
   still usable at its exit, or what the body left happens to be that tenant.
   */
  lemma TenantScopeRestoresIff(tenant: string, body: Program, s: State)
    requires !s.aborted && Agree(s)
    ensures var s', outer := RunBody(TenantScope(tenant, body), s).0, TenantOf(s.context);
            TenantOf(s'.context) == outer && s'.settings.tenant == outer
            <==> !Fate(body, false).1 || Tenants(body, tenant, tenant, false) == (outer, outer)
  {
    TenantsIsRun(TenantScope(tenant, body), s);
  }

  /** An SQL error inside a tenant scope, absorbed by a savepoint around the scope. */
  function Absorbed(tenant: string): Program { Catch(Savepoint(TenantScope(tenant, SqlError))) }

  lemma AbsorbedLeaks(inner: string, tenant: string)
    ensures Fate(Absorbed(inner), false) == (Ok, false)
    ensures Tenants(Absorbed(inner), tenant, tenant, false) == (inner, tenant)
  {
    var scope := TenantScope(inner, SqlError);
    assert Fate(SqlError, false) == (Threw, true) && Fate(scope, false) == (Threw, true);
    assert Tenants(scope, tenant, tenant, false) == (inner, inner);
    assert Tenants(Savepoint(scope), tenant, tenant, false) == (inner, tenant);
    assert Fate(Savepoint(scope), false) == (Threw, false);
  }

  /**
   The first consequence: from any tenant, such an error leaves a healthy transaction whose settings are those of the
   entry while CLS is on the inner tenant.
   */
  lemma RolledBackScopeLeavesCls(s: State, inner: string)
    requires Agree(s) && !s.aborted && inner != TenantOf(s.context)
    ensures var (s', result) := RunBody(Absorbed(inner), s);
            && result == Ok && !s'.aborted
            && s'.settings == s.settings && TenantOf(s'.context) == inner && !Agree(s')
  {
    AbsorbedLeaks(inner, TenantOf(s.context));
    FateIsRun(Absorbed(inner), s);
    TenantsIsRun(Absorbed(inner), s);
    SystemFlagIsRestored(Absorbed(inner), s);
  }

  /** Until then every query runs under the settings of the outer tenant while CLS names the inner one. */
  lemma QuerySeesDisagreement(s: State, inner: string)
    requires Agree(s) && !s.aborted && inner != TenantOf(s.context)
    ensures RunBody(Seq(Absorbed(inner), Query), s).0.observed
         == s.observed + [Observation(s.settings, s.settings.(tenant := inner))]
  {
    var p := Seq(Absorbed(inner), Query);
    AbsorbedLeaks(inner, TenantOf(s.context));
    SeenIsRun(p, s);
    assert Seen(Absorbed(inner), TenantOf(s.context), s.settings.tenant, s.context.system, false) == [] by {
      AbsorbedSeesNothing(inner, TenantOf(s.context), s.settings.tenant, s.context.system);
    }
  }

  lemma AbsorbedSeesNothing(inner: string, cls: string, db: string, system: bool)
    ensures Seen(Absorbed(inner), cls, db, system, false) == []
  {
    var scope := TenantScope(inner, SqlError);
    assert Seen(SqlError, inner, inner, system, false) == [];
    assert Seen(Savepoint(scope), cls, db, system, false) == Seen(scope, cls, db, system, false);
  }

  /**
   The second: the next scope takes the leaked tenant for the outer one. It ends normally with both copies on a tenant
   that nobody entered at this level, settings included, and nothing disagrees any more.
   */
  lemma NextScopeAdoptsTheLeak(s: State, inner: string, next: string)
    requires Agree(s) && !s.aborted && inner != TenantOf(s.context)
    ensures var (s', result) := RunBody(Seq(Absorbed(inner), TenantScope(next, Query)), s);
            && result == Ok && !s'.aborted && Agree(s')
            && s'.settings.tenant == inner != s.settings.tenant
  {
    var p := Seq(Absorbed(inner), TenantScope(next, Query));
    AbsorbedLeaks(inner, TenantOf(s.context));
    FateIsRun(p, s);
    TenantsIsRun(p, s);
    SystemFlagIsRestored(p, s);
  }

  /** The third: a scope around the whole repairs it. */
  lemma OuterScopeRepairs(s: State, outer: string, inner: string)
    requires Agree(s) && !s.aborted
    ensures var (s', result) := RunBody(TenantScope(outer, Absorbed(inner)), s);
            result == Ok && !s'.aborted && s'.settings == s.settings && Scope(s'.context) == Scope(s.context)
  {
    var p := TenantScope(outer, Absorbed(inner));
    AbsorbedLeaks(inner, TenantOf(s.context));
    FateIsRun(p, s);
    SettingsSurviveSqlErrors(p, s);
  }

  // ---- The outermost transaction ----

  /**
   openTransaction: the settings are taken from CLS; a throw rolls back and discards the callbacks; otherwise COMMIT is
   sent and they run. PostgreSQL answers the COMMIT of an aborted transaction by rolling back, without an error.
   */
  datatype Ended = Ended(result: Result, committed: bool, ran: seq<nat>)

  function Opened(context: Context): State { State(Scope(context), context, false, [], []) }

  function OpenTransaction(p: Program, context: Context): Ended {
    var (s, result) := RunBody(p, Opened(context));
    if result == Threw then Ended(Threw, false, []) else Ended(Ok, !s.aborted, s.pending)
  }

  /**
   For every body, SQL errors included: the transaction commits exactly when the body ends normally and leaves it
   usable, and the callbacks that run are those registered outside rolled-back savepoints, in order, if the body ends
   normally, and none otherwise.
   */
  lemma CallbacksFollowCommit(p: Program, context: Context)
    ensures var ended := OpenTransaction(p, context);
            && ended.result == Fate(p, false).0
            && (ended.committed <==> Fate(p, false) == (Ok, false))
            && ended.ran == if Fate(p, false).0 == Ok then Left(p, false) else []
  {
    FateIsRun(p, Opened(context));
    LeftIsRun(p, Opened(context));
  }

  /**
   Callbacks run although nothing was committed exactly for the bodies that swallow an SQL error outside any
   savepoint.
   */
  lemma CallbacksWithoutCommitIff(p: Program, context: Context)
    ensures var ended := OpenTransaction(p, context);
            && (ended.result == Ok && !ended.committed <==> Fate(p, false) == (Ok, true))
            && (ended.result == Threw ==> !ended.committed && ended.ran == [])
  {
    FateIsRun(p, Opened(context));
  }

  /**
   Such a body: it catches an SQL error without a savepoint and returns normally; its callbacks run, and nothing was
   committed.
   */
  lemma SwallowedErrorRunsCallbacks(context: Context, callback: nat)
    ensures OpenTransaction(Seq(AfterCommit(callback), Catch(SqlError)), context) == Ended(Ok, false, [callback])
  {
    var s := Opened(context);
    var s1 := s.(pending := [callback]);
    assert s.pending + [callback] == [callback];
    assert RunBody(AfterCommit(callback), s) == (s1, Ok);
    assert RunBody(SqlError, s1) == (s1.(aborted := true), Threw);
    assert RunBody(Catch(SqlError), s1) == (s1.(aborted := true), Ok);
  }

  // ---- The service object ----

  class DatabaseService {
    var settings: Settings
    /** The context object cls.runWith made current. */
    var cls: Context
    var aborted: bool
    var afterCommit: seq<nat>
    var observed: seq<Observation>

    function View(): State reads this { State(settings, cls, aborted, afterCommit, observed) }

    /** openTransaction with configureTransactionContext: the settings are set from CLS. */
    constructor (context: Context)
      ensures View() == Opened(context) && Agree(View())
    {
      settings, cls, aborted, afterCommit, observed := Scope(context), context, false, [], [];
    }

    static method RunOutermost(fn: Program, context: Context) returns (result: Result, committed: bool, ran: seq<nat>)
      ensures Ended(result, committed, ran) == OpenTransaction(fn, context)
    {
      var db := new DatabaseService(context);
      result := db.Call(fn);
      if result == Threw { return Threw, false, []; }
      // COMMIT, then drainAfterCommit
      return Ok, !db.aborted, db.afterCommit;
    }

    method SetTenant(tenantId: string) returns (result: Result)
      modifies this`settings, this`cls
      ensures (View(), result) == SetTenantContext(old(View()), tenantId)
    {
      if aborted { return Threw; }
      settings := settings.(tenant := tenantId);
      cls := cls.(tenant := Some(tenantId));
      return Ok;
    }

    method SetSystem(on: bool) returns (result: Result)
      modifies this`settings
      ensures (View(), result) == SetSystemConfig(old(View()), on)
    {
      if aborted { return Threw; }
      settings := settings.(system := on);
      return Ok;
    }

    method WithTenantScope(tenantId: string, fn: Program) returns (result: Result)
      modifies this
      ensures (View(), result) == RunBody(TenantScope(tenantId, fn), old(View()))
      decreases fn, 1
    {
      var previous := if cls.tenant.Some? then cls.tenant.value else "";
      result := SetTenant(tenantId);
      if result == Threw { return; }
      result := Call(fn);
      // finally
      var restored := SetTenant(previous);
      if restored == Threw { result := Threw; }
    }

    method WithSystemScope(fn: Program) returns (result: Result)
      modifies this
      ensures (View(), result) == RunBody(SystemScope(fn), old(View()))
      decreases fn, 1
    {
      var current := cls;
      var previousSystemScope := current.system;
      // cls.runWith({ ...current, systemScope: true })
      cls := current.(system := true);
      result := SetSystem(true);
      if result == Ok {
        result := Call(fn);
        // finally
        var restored := SetSystem(previousSystemScope);
        if restored == Threw { result := Threw; }
      }
      cls := current;
    }

    method WithSavepoint(fn: Program) returns (result: Result)
      modifies this
      ensures (View(), result) == RunBody(Savepoint(fn), old(View()))
      decreases fn, 1
    {
      var checkpoint := |afterCommit|;
      if aborted { return Threw; }
      var saved := settings;
      result := Call(fn);
      if result == Ok && !aborted { return; }
      settings, aborted := saved, false;
      if |afterCommit| > checkpoint { afterCommit := afterCommit[..checkpoint]; }
      result := Threw;
    }

    /** Runs a body the way its caller's closure would. */
    method Call(fn: Program) returns (result: Result)
      modifies this
      ensures (View(), result) == RunBody(fn, old(View()))
      decreases fn, 0
    {
      result := Ok;
      match fn {
        case Query =>
          if aborted { return Threw; }
          observed := observed + [Observation(settings, Scope(cls))];
        case AfterCommit(callback) => afterCommit := afterCommit + [callback];
        case Throw => result := Threw;
        case SqlError => aborted, result := true, Threw;
        case Seq(first, second) =>
          result := Call(first);
          if result == Ok { result := Call(second); }
        case TenantScope(tenantId, body) => result := WithTenantScope(tenantId, body);
        case SystemScope(body) => result := WithSystemScope(body);
        case Savepoint(body) => result := WithSavepoint(body);
        case Catch(body) => var _ := Call(body);
      }
    }
  }
}
