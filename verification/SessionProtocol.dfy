/**
 The client side of a session: token refresh, request replay and session bootstrap.

 One state machine for one browser tab or app. Code between two awaits is one step; login, logout, account or
 tenant switches and cross-tab adoption (`External`) may fall between any two steps. When a refresh settles, the
 waiting requests wake in the same burst of microtasks, in the order in which they started to wait.
 */
module SessionProtocol {
  import opened Options

  type UserId = string

  /** An access token, identified by the account it was issued to. */
  datatype Token = Token(owner: UserId, serial: nat)

  datatype Status = Loading | Authenticated | Unauthenticated

  datatype Auth = Auth(status: Status, user: Option<UserId>, token: Option<Token>)

  /** AuthResponse: the server issues the token to the user it names. */
  datatype AuthResponse = AuthResponse(user: UserId, serial: nat)
  {
    function AccessToken(): Token { Token(user, serial) }
  }

  /**
   Which callbacks the application configured. `fingerprint` is any function of the auth state; a client
   without it never sees a fingerprint change.
   */
  datatype ClientOptions = ClientOptions(browser: bool, locks: bool, hasIdentity: bool,
      fingerprint: Option<Auth -> string>)
  {
    /** getAuthIdentity?.(): None stands for undefined, Some(None) for null. */
    function Identity(auth: Auth): Option<Option<UserId>> { if hasIdentity then Some(auth.user) else None }

    function Mark(auth: Auth): Option<string> { if fingerprint.Some? then Some(fingerprint.value(auth)) else None }
  }

  datatype Reason = Network | Server | Timeout | LockTimeout

  datatype Outcome =
    | Refreshed(response: Option<AuthResponse>)
    | InvalidSession
    | Retryable(reason: Reason)
    | Unsupported
    | Superseded

  predicate Permanent(o: Outcome) { o.InvalidSession? || o.Unsupported? }

  // ---- The refresh in flight ----

  datatype Stage = NoLocks | LockWait | Fetching | Parsing

  /** coordinateRefresh, suspended: what it captured when it started, and the await it is at. */
  datatype Flight = Flight(mark: Option<string>, token: Option<Token>, identity: Option<Option<UserId>>, stage: Stage)

  datatype FlightEvent =
    | LocksMissing
    | LockGranted
    | HttpReply(status: int)
    | Parsed(response: Option<AuthResponse>)
    | Rejected(aborted: bool)

  datatype FlightResult = Going(flight: Flight) | Settled(outcome: Outcome)

  /** A call of coordinateRefresh, for good: under way or settled. */
  datatype Journey = Flying(flight: Flight) | Landed(outcome: Outcome)

  function StartFlight(cfg: ClientOptions, auth: Auth): Flight {
    Flight(cfg.Mark(auth), auth.token, cfg.Identity(auth),
           if !cfg.browser then Fetching else if !cfg.locks then NoLocks else LockWait)
  }

  function ResolveChangedIdentity(cfg: ClientOptions, auth: Auth, f: Flight): Option<Outcome> {
    if f.identity.Some? && cfg.Identity(auth) != f.identity then Some(Superseded)
    else if f.mark.None? || cfg.Mark(auth) == f.mark then None
    else if auth.token.Some? && auth.token != f.token then Some(Refreshed(None))
    else Some(Superseded)
  }

  /** One continuation of the refresh: the auth state after it and where the flight stands. */
  function FlightStep(cfg: ClientOptions, auth: Auth, f: Flight, e: FlightEvent): (Auth, FlightResult) {
    var changed := ResolveChangedIdentity(cfg, auth, f);
    match (f.stage, e)
    case (NoLocks, LocksMissing) => (auth, Settled(Unsupported))
    case (LockWait, LockGranted) =>
      if changed.Some? then (auth, Settled(changed.value)) else (auth, Going(f.(stage := Fetching)))
    case (LockWait, Rejected(aborted)) => (auth, Settled(Retryable(if aborted then LockTimeout else Network)))
    case (Fetching, HttpReply(status)) =>
      if changed.Some? then (auth, Settled(changed.value))
      else if status == 400 || status == 401 || status == 403 then (auth, Settled(InvalidSession))
      else if !(200 <= status < 300) then (auth, Settled(Retryable(Server)))
      else (auth, Going(f.(stage := Parsing)))
    case (Fetching, Rejected(aborted)) => (auth, Settled(Retryable(if aborted then Timeout else Network)))
    case (Parsing, Parsed(response)) =>
      if response.None? then (auth, Settled(Retryable(Server)))
      else if changed.Some? then (auth, Settled(changed.value))
      else if f.identity.Some? && f.identity.value.Some? && response.value.user != f.identity.value.value then
        (auth, Settled(Superseded))
      else
        var adopted := Auth(Authenticated, Some(response.value.user), Some(response.value.AccessToken()));
        (adopted, Settled(Refreshed(response)))
    case (Parsing, Rejected(aborted)) => (auth, Settled(Retryable(if aborted then Timeout else Network)))
    case _ => (auth, Going(f))
  }

  // ---- One request ----

  datatype Kind = Rest | Orpc

  datatype Credential = Bearer(token: Token) | Other(text: string)

  datatype Headers = Headers(authorization: Option<Credential>, tenant: Option<string>, key: Option<string>)

  /** What the caller passes: the transport, whether a 401 may refresh, its own headers, and a fresh idempotency key. */
  datatype Init = Init(kind: Kind, canRefresh: bool, mutating: bool, given: Headers, freshKey: string)

  datatype Response = Response(status: int, body: Option<nat>)

  /** discardSupersededResponse */
  const EMPTY_401 := Response(401, None)

  datatype Pc =
    | First
    | DiscardFirst
    | Waiting(first: Response, journey: nat)
    | DiscardWaiting
    | Notifying(first: Response)
    | Cancelling(token: Option<Token>)
    | Replaying
    | DiscardReplay
    | Reading(res: Response)
    | Returned(res: Response)
    | Thrown

  /**
   A request: the scope it captured, the account and tenant that were signed in then, the headers it sends now,
   the headers of its first and of its second attempt, and whether the headers of the response it holds
   arrived under the captured scope.
   */
  datatype Req = Req(
    init: Init, identity: Option<Option<UserId>>, tenant: Option<string>, account: Option<UserId>,
    headers: Headers, first: Headers, replay: Option<Headers>, inScope: bool, pc: Pc)

  datatype State = State(
    auth: Auth, tenant: Option<string>,
    pending: Option<nat>, journeys: seq<Journey>, waiters: seq<nat>, failureNotified: bool, failures: nat,
    requests: map<nat, Req>, verifying: bool)

  predicate Truthy(s: Option<string>) { s.Some? && s.value != "" }

  /** An authorization header that the caller passed and that is not the empty string. */
  predicate Given(c: Option<Credential>) { c.Some? && c.value != Other("") }

  predicate Current(cfg: ClientOptions, s: State, r: Req) {
    cfg.Identity(s.auth) == r.identity && s.tenant == r.tenant
  }

  function BearerOf(token: Option<Token>): Option<Credential> {
    if token.Some? then Some(Bearer(token.value)) else None
  }

  /** The idempotency key of the first attempt. */
  function KeyFor(init: Init): Option<string> {
    if init.mutating && !Truthy(init.given.key) then Some(init.freshKey) else init.given.key
  }

  function FirstHeaders(s: State, init: Init): Headers {
    var bearer := BearerOf(s.auth.token);
    match init.kind
    case Rest =>
      Headers(if bearer.Some? && !Given(init.given.authorization) then bearer else init.given.authorization,
              if Truthy(s.tenant) && !Truthy(init.given.tenant) then s.tenant else init.given.tenant,
              KeyFor(init))
    case Orpc =>
      Headers(if bearer.Some? then bearer else init.given.authorization,
              if Truthy(s.tenant) then s.tenant else init.given.tenant,
              if init.mutating && init.given.key.None? then Some(init.freshKey) else init.given.key)
  }

  /** The headers of the second attempt. REST reuses its object; oRPC rebuilds them after an await. */
  function ReplayHeaders(s: State, r: Req, token: Option<Token>): Headers {
    match r.init.kind
    case Rest => r.headers
    case Orpc =>
      var bearer := BearerOf(if token.Some? then token else s.auth.token);
      Headers(if bearer.Some? then bearer else r.first.authorization,
              if Truthy(s.tenant) then s.tenant else r.first.tenant,
              r.first.key)
  }

  function Begin(cfg: ClientOptions, s: State, init: Init): Req {
    var headers := FirstHeaders(s, init);
    Req(init, cfg.Identity(s.auth), s.tenant, s.auth.user, headers, headers, None, false, First)
  }

  function SetReq(s: State, id: nat, r: Req): State { s.(requests := s.requests[id := r]) }

  function SetPc(s: State, id: nat, pc: Pc): State
    requires id in s.requests
  {
    SetReq(s, id, s.requests[id].(pc := pc))
  }

  /**
   coordinator.refresh(): await the pending promise, or call coordinateRefresh and keep its promise as the pending
   one.
   */
  function Join(cfg: ClientOptions, s: State, id: nat, res: Response): State
    requires id in s.requests
  {
    var journey := if s.pending.Some? then s.pending.value else |s.journeys|;
    SetPc(s, id, Waiting(res, journey)).(
      pending := Some(journey),
      journeys := if s.pending.Some? then s.journeys else s.journeys + [Flying(StartFlight(cfg, s.auth))],
      waiters := s.waiters + [id])
  }

  /** What follows the scope check on the first response. */
  function AfterFirst(cfg: ClientOptions, s: State, id: nat, res: Response): State
    requires id in s.requests
  {
    var r := s.requests[id];
    if res.status == 401 && r.init.canRefresh && Current(cfg, s, r) then Join(cfg, s, id, res)
    else SetPc(s, id, if r.init.kind == Rest then Reading(res) else Returned(res))
  }

  /** Response headers arrive. */
  function Arrive(cfg: ClientOptions, s: State, id: nat, res: Response, aborted: bool): State
    requires id in s.requests
  {
    var r := s.requests[id].(inScope := Current(cfg, s, s.requests[id]));
    var s1 := SetReq(s, id, r);
    match r.pc
    case First =>
      if aborted then SetPc(s1, id, Thrown)
      else if !r.inScope then SetPc(s1, id, DiscardFirst)
      else AfterFirst(cfg, s1, id, res)
    case Replaying =>
      if !r.inScope then SetPc(s1, id, DiscardReplay)
      else SetPc(s1, id, if r.init.kind == Rest then Reading(res) else Returned(res))
    case _ => s
  }

  /** Any other await of the request finishes. */
  function Continue(cfg: ClientOptions, s: State, id: nat): State
    requires id in s.requests
  {
    var r := s.requests[id];
    match r.pc
    case DiscardFirst =>
      if r.init.kind == Rest then AfterFirst(cfg, s, id, EMPTY_401) else SetPc(s, id, Returned(EMPTY_401))
    case DiscardWaiting => SetPc(s, id, Returned(EMPTY_401))
    case Notifying(res) => SetPc(s, id, if r.init.kind == Rest then Reading(res) else Returned(res))
    case Cancelling(token) => SetReq(s, id, r.(replay := Some(ReplayHeaders(s, r, token)), pc := Replaying))
    case DiscardReplay => SetPc(s, id, if r.init.kind == Rest then Reading(EMPTY_401) else Returned(EMPTY_401))
    case Reading(res) => SetPc(s, id, Returned(res))
    case _ => s
  }

  // ---- Settlement: the microtask burst ----

  predicate Sleeping(s: State, id: nat) { id in s.requests && s.requests[id].pc.Waiting? }

  predicate Awaits(s: State, id: nat, journey: nat) { Sleeping(s, id) && s.requests[id].pc.journey == journey }

  /** The requests among ids that await this promise, and those that do not, in order. */
  function Awaiting(s: State, ids: seq<nat>, journey: nat, yes: bool): seq<nat> {
    if ids == [] then []
    else (if Awaits(s, ids[0], journey) == yes then [ids[0]] else []) + Awaiting(s, ids[1..], journey, yes)
  }

  predicate InFlight(s: State, journey: nat) { journey < |s.journeys| && s.journeys[journey].Flying? }

  datatype Task = Wake(id: nat) | ResetNotified

  /** The continuation of one waiting request once the shared promise has settled. */
  function Woken(cfg: ClientOptions, s: State, r: Req, outcome: Outcome, aborted: bool): Req
    requires r.pc.Waiting?
  {
    if aborted then r.(pc := Thrown)
    else if !Current(cfg, s, r) then r.(pc := DiscardWaiting)
    else match outcome
      case Refreshed(response) =>
        var token := if response.Some? then Some(response.value.AccessToken()) else s.auth.token;
        var headers := if token.Some? then r.headers.(authorization := BearerOf(token)) else r.headers;
        r.(headers := headers, pc := Cancelling(token))
      case InvalidSession => r.(pc := Notifying(r.pc.first))
      case Unsupported => r.(pc := Notifying(r.pc.first))
      case _ => r.(pc := if r.init.kind == Rest then Reading(r.pc.first) else Returned(r.pc.first))
  }

  function WakeStep(cfg: ClientOptions, s: State, id: nat, outcome: Outcome, aborted: bool): State
    requires Sleeping(s, id)
  {
    var r := Woken(cfg, s, s.requests[id], outcome, aborted);
    var s' := SetReq(s, id, r);
    if r.pc.Notifying? then Notify(s') else s'
  }

  /** The synchronous part of handleFailure(). */
  function Notify(s: State): State {
    if s.failureNotified then s else s.(failureNotified := true, failures := s.failures + 1)
  }

  /** Does this wake-up queue the microtask that clears `failureNotified`? */
  predicate Queues(s: State, s': State) { !s.failureNotified && s'.failureNotified }

  function Wakes(queue: seq<Task>): nat {
    if queue == [] then 0 else (if queue[0].Wake? then 1 else 0) + Wakes(queue[1..])
  }

  /** Runs the microtask queue until it is empty: first in, first out, new tasks go to the back. */
  function Drain(cfg: ClientOptions, s: State, queue: seq<Task>, outcome: Outcome, aborted: set<nat>): State
    decreases Wakes(queue) + |queue|
  {
    if queue == [] then s
    else match queue[0]
      case ResetNotified => Drain(cfg, s.(failureNotified := false), queue[1..], outcome, aborted)
      case Wake(id) =>
        if !Sleeping(s, id) then Drain(cfg, s, queue[1..], outcome, aborted)
        else
          var s' := WakeStep(cfg, s, id, outcome, id in aborted);
          WakesIgnoreReset(queue[1..]);
          Drain(cfg, s', queue[1..] + (if Queues(s, s') then [ResetNotified] else []), outcome, aborted)
  }

  lemma {:induction false} WakesAppend(p: seq<Task>, q: seq<Task>)
    ensures Wakes(p + q) == Wakes(p) + Wakes(q)
  {
    if p == [] {
      assert p + q == q;
    } else {
      assert (p + q)[1..] == p[1..] + q;
      WakesAppend(p[1..], q);
    }
  }

  lemma WakesIgnoreReset(p: seq<Task>)
    ensures Wakes(p + [ResetNotified]) == Wakes(p) && p + [] == p
  {
    WakesAppend(p, [ResetNotified]);
    assert [ResetNotified][1..] == [];
  }

  function WakeAll(ids: seq<nat>): seq<Task> { seq(|ids|, i requires 0 <= i < |ids| => Wake(ids[i])) }

  /** One promise settles: `pending` is cleared, whatever it held, and the requests that await this promise wake. */
  function Settle(cfg: ClientOptions, s: State, journey: nat, outcome: Outcome, aborted: set<nat>): State
    requires journey < |s.journeys|
  {
    var s1 := s.(pending := None, journeys := s.journeys[journey := Landed(outcome)],
                 waiters := Awaiting(s, s.waiters, journey, false));
    Drain(cfg, s1, WakeAll(Awaiting(s, s.waiters, journey, true)), outcome, aborted)
  }

  // ---- The machine ----

  datatype Event =
    | External(auth: Auth, tenant: Option<string>)
    | Send(id: nat, init: Init)
    | Reply(id: nat, res: Response, aborted: bool)
    | Fail(id: nat)
    | Resume(id: nat)
    | Refresh(journey: nat, e: FlightEvent, abortedWaiters: set<nat>)
    | VerifyStart
    | VerifyReply(user: Option<UserId>)

  /** The awaits that may reject; the shared refresh never does, and reading a body swallows its errors. */
  predicate CanFail(pc: Pc) { !pc.Waiting? && !pc.Reading? && !pc.Returned? && !pc.Thrown? }

  /** A token in the store belongs to the user in the store, and a loading store has no token. */
  predicate AuthOk(auth: Auth) {
    && (auth.token.Some? ==> auth.user == Some(auth.token.value.owner))
    && (auth.status == Loading ==> auth.token.None?)
  }

  function Next(cfg: ClientOptions, s: State, e: Event): State {
    match e
    case External(auth, tenant) => if AuthOk(auth) then s.(auth := auth, tenant := tenant) else s
    case Send(id, init) => if id in s.requests then s else SetReq(s, id, Begin(cfg, s, init))
    case Reply(id, res, aborted) => if id in s.requests then Arrive(cfg, s, id, res, aborted) else s
    case Fail(id) =>
      if id in s.requests && CanFail(s.requests[id].pc) then SetPc(s, id, Thrown) else s
    case Resume(id) => if id in s.requests then Continue(cfg, s, id) else s
    case Refresh(j, fe, aborted) =>
      if !InFlight(s, j) then s else
        var (auth, result) := FlightStep(cfg, s.auth, s.journeys[j].flight, fe);
        var s1 := s.(auth := auth);
        if result.Going? then s1.(journeys := s.journeys[j := Flying(result.flight)])
        else Settle(cfg, s1, j, result.outcome, aborted)
    case VerifyStart => if s.auth.status == Authenticated then s else s.(verifying := true)
    case VerifyReply(user) =>
      if !s.verifying then s
      else if s.auth.status == Loading && user.Some? then
        s.(verifying := false, auth := s.auth.(user := user, status := Authenticated))
      else s.(verifying := false)
  }

  function Run(cfg: ClientOptions, s: State, es: seq<Event>): State
    decreases es
  {
    if es == [] then s else Run(cfg, Next(cfg, s, es[0]), es[1..])
  }

  predicate Init0(s: State) {
    && AuthOk(s.auth) && s.pending == None && s.journeys == [] && s.waiters == []
    && !s.failureNotified && s.failures == 0
    && s.requests == map[] && !s.verifying
  }

  // ---- The inductive invariant ----

  predicate OwnBearer(r: Req, h: Headers) {
    h.authorization.Some? && h.authorization.value.Bearer? && r.account == Some(h.authorization.value.token.owner)
  }

  /** The second attempt is the first one with a newer token of the same account. */
  predicate SafeReplay(cfg: ClientOptions, r: Req) {
    r.replay.Some? ==>
      && r.replay.value.key == r.first.key
      && (r.init.kind == Rest ==> r.replay.value.tenant == r.first.tenant)
      && (cfg.hasIdentity ==> OwnBearer(r, r.replay.value))
  }

  predicate ReqOk(cfg: ClientOptions, r: Req) {
    && (r.identity == if cfg.hasIdentity then Some(r.account) else None)
    && SafeReplay(cfg, r)
    && r.headers.key == r.first.key && r.headers.tenant == r.first.tenant
    && (r.pc.Cancelling? && cfg.hasIdentity ==>
          OwnBearer(r, r.headers) && BearerOf(r.pc.token) == r.headers.authorization)
    && (HoldsBody(r.pc) ==> r.inScope)
    && (r.init.mutating && r.init.given.key.None? ==> r.first.key == Some(r.init.freshKey))
    && (r.init.kind == Orpc ==> r.first.tenant == if Truthy(r.tenant) then r.tenant else r.init.given.tenant)
  }

  /** The request still has, or has returned, the body of a response. */
  predicate HoldsBody(pc: Pc) {
    match pc
    case Waiting(res, _) => res.body.Some?
    case Notifying(res) => res.body.Some?
    case Reading(res) => res.body.Some?
    case Returned(res) => res.body.Some?
    case _ => false
  }

  /** The refresh in flight is the one whose promise is pending, so there is at most one. */
  ghost predicate OneInFlight(s: State) { forall j: nat :: InFlight(s, j) <==> s.pending == Some(j) }

  predicate WaitsForPending(s: State, id: nat) { s.pending.Some? && Awaits(s, id, s.pending.value) }

  ghost predicate Inv(cfg: ClientOptions, s: State) {
    && AuthOk(s.auth)
    && !s.failureNotified
    && OneInFlight(s)
    && (forall j: nat | InFlight(s, j) :: s.journeys[j].flight.identity.Some? == cfg.hasIdentity)
    && Distinct(s.waiters)
    && (forall id | id in s.waiters :: WaitsForPending(s, id))
    && (forall id | id in s.requests :: ReqOk(cfg, s.requests[id]) && (s.requests[id].pc.Waiting? ==> id in s.waiters))
  }

  predicate Distinct(ids: seq<nat>) { forall i, j | 0 <= i < j < |ids| :: ids[i] != ids[j] }
}
