/** The guarantees of the session protocol. */
module SessionTheorems {
  import opened Options
  import opened SessionProtocol
  import opened SessionSafety

  ghost predicate Reachable(cfg: ClientOptions, s: State) {
    exists s0: State, es: seq<Event> :: Init0(s0) && Run(cfg, s0, es) == s
  }

  lemma ReachableInv(cfg: ClientOptions, s: State)
    requires Reachable(cfg, s)
    ensures Inv(cfg, s)
  {
    var s0: State, es: seq<Event> :| Init0(s0) && Run(cfg, s0, es) == s;
    RunKeepsInv(cfg, s0, es);
  }

  lemma {:induction false} RunSnoc(cfg: ClientOptions, s: State, es: seq<Event>, e: Event)
    ensures Run(cfg, s, es + [e]) == Next(cfg, Run(cfg, s, es), e)
    decreases es
  {
    if es == [] {
      assert ([] + [e])[0] == e && ([] + [e])[1..] == [];
      assert Run(cfg, Next(cfg, s, e), []) == Next(cfg, s, e);
    } else {
      assert (es + [e])[0] == es[0] && (es + [e])[1..] == es[1..] + [e];
      RunSnoc(cfg, Next(cfg, s, es[0]), es[1..], e);
    }
  }

  lemma Step(cfg: ClientOptions, s: State, e: Event)
    requires Reachable(cfg, s) || Init0(s)
    ensures Reachable(cfg, Next(cfg, s, e))
  {
    if Init0(s) { assert Run(cfg, s, []) == s; }
    var s0: State, es: seq<Event> :| Init0(s0) && Run(cfg, s0, es) == s;
    RunSnoc(cfg, s0, es, e);
  }

  /** A browser without Web Locks never refreshes. */
  predicate CanRefresh(cfg: ClientOptions) { cfg.browser ==> cfg.locks }

  // ---- One step, seen from outside ----

  /** The event continues a refresh in flight. */
  predicate Continues(s: State, e: Event) { e.Refresh? && InFlight(s, e.journey) }

  /** A refresh step, as seen from outside: the auth store, the bystanders, and the failures it notifies. */
  lemma RefreshStep(cfg: ClientOptions, s: State, e: Event) returns (auth: Auth, result: FlightResult)
    requires Inv(cfg, s) && Continues(s, e)
    ensures (auth, result) == FlightStep(cfg, s.auth, s.journeys[e.journey].flight, e.e)
    ensures var s' := Next(cfg, s, e);
            && s'.auth == auth && s'.tenant == s.tenant && s'.requests.Keys == s.requests.Keys
            && (forall id | id in s.requests && !s.requests[id].pc.Waiting? :: s'.requests[id] == s.requests[id])
            && (result.Settled? ==> AllWoken(cfg, s.(auth := auth), s', s.waiters, result.outcome, e.abortedWaiters))
            && (result.Going? ==> s' == s.(auth := auth, journeys := s.journeys[e.journey := Flying(result.flight)]))
            && (result.Settled? ==> s'.pending.None? && s'.journeys == s.journeys[e.journey := Landed(result.outcome)])
            && s.failures <= s'.failures <= s.failures + (if result.Settled? && Permanent(result.outcome) then 1 else 0)
  {
    var step := FlightStep(cfg, s.auth, s.journeys[e.journey].flight, e.e);
    auth, result := step.0, step.1;
    FlightOutcomeOk(cfg, s.auth, s.journeys[e.journey].flight, e.e);
    if result.Settled? {
      var s1 := s.(auth := auth);
      AuthStepKeeps(cfg, s, s1);
      OneNotificationPerSettlement(cfg, s1, e.journey, result.outcome, e.abortedWaiters);
      forall id | id in s.waiters ensures Sleeping(s, id) { assert WaitsForPending(s, id); }
    }
  }

  lemma RefreshStepAuth(cfg: ClientOptions, s: State, e: Event)
    requires Inv(cfg, s) && Continues(s, e)
    ensures Next(cfg, s, e).auth == FlightStep(cfg, s.auth, s.journeys[e.journey].flight, e.e).0
  {
    var _, _ := RefreshStep(cfg, s, e);
  }

  /** What a refresh step does to one request: nothing, or it wakes. */
  lemma RefreshMoves(cfg: ClientOptions, s: State, e: Event, id: nat)
    returns (s1: State, outcome: Outcome, aborted: bool)
    requires Inv(cfg, s) && Continues(s, e) && id in s.requests
    ensures id in Next(cfg, s, e).requests
    ensures var r, r' := s.requests[id], Next(cfg, s, e).requests[id];
            var (auth, result) := FlightStep(cfg, s.auth, s.journeys[e.journey].flight, e.e);
            || r' == r
            || (r.pc.Waiting? && s1 == s.(auth := auth) && result == Settled(outcome)
                && r' == Woken(cfg, s1, r, outcome, aborted))
    ensures Next(cfg, s, e).auth == s1.auth && Next(cfg, s, e).tenant == s1.tenant
  {
    var auth, result := RefreshStep(cfg, s, e);
    s1, outcome, aborted := s.(auth := auth), Unsupported, id in e.abortedWaiters;
    if result.Settled? {
      outcome := result.outcome;
      if s.requests[id].pc.Waiting? { assert IsWoken(cfg, s1, Next(cfg, s, e), id, outcome, e.abortedWaiters); }
    }
  }

  lemma OthersUntouched(cfg: ClientOptions, s: State, k: nat, id: nat, res: Response, aborted: bool)
    requires k in s.requests && id in s.requests && k != id
    ensures id in Arrive(cfg, s, k, res, aborted).requests
        && Arrive(cfg, s, k, res, aborted).requests[id] == s.requests[id]
    ensures id in Continue(cfg, s, k).requests && Continue(cfg, s, k).requests[id] == s.requests[id]
  {}

  // ---- Browsers without Web Locks ----

  predicate NeverSentAgain(r: Req) { !r.pc.Cancelling? && r.replay.None? }

  /** No refresh gets as far as a request to the server, so nothing is ever sent again. */
  ghost predicate Lockless(s: State) {
    && (forall j: nat | InFlight(s, j) :: s.journeys[j].flight.stage.NoLocks?)
    && forall id | id in s.requests :: NeverSentAgain(s.requests[id])
  }

  lemma NoLocksStep(cfg: ClientOptions, auth: Auth, f: Flight, e: FlightEvent)
    requires f.stage.NoLocks?
    ensures var step := FlightStep(cfg, auth, f, e);
            step == (auth, Settled(Unsupported)) || step == (auth, Going(f))
  {}

  lemma LocklessFlight(cfg: ClientOptions, s: State, e: Event)
    requires Inv(cfg, s) && Lockless(s) && Continues(s, e)
    ensures Next(cfg, s, e).auth == s.auth
    ensures forall j: nat | InFlight(Next(cfg, s, e), j) :: Next(cfg, s, e).journeys[j].flight.stage.NoLocks?
  {
    var auth, result := RefreshStep(cfg, s, e);
    var s' := Next(cfg, s, e);
    assert InFlight(s, e.journey);
    NoLocksStep(cfg, s.auth, s.journeys[e.journey].flight, e.e);
    forall j: nat | InFlight(s', j) ensures s'.journeys[j].flight.stage.NoLocks? {
      assert j != e.journey ==> InFlight(s, j);
    }
  }

  lemma LocklessReply(cfg: ClientOptions, s: State, k: nat, id: nat, res: Response, aborted: bool)
    requires k in s.requests && id in s.requests && NeverSentAgain(s.requests[id])
    ensures id in Arrive(cfg, s, k, res, aborted).requests
    ensures NeverSentAgain(Arrive(cfg, s, k, res, aborted).requests[id])
  {
    if k != id { OthersUntouched(cfg, s, k, id, res, aborted); }
  }

  lemma LocklessResume(cfg: ClientOptions, s: State, k: nat, id: nat)
    requires k in s.requests && id in s.requests && NeverSentAgain(s.requests[id])
    ensures id in Continue(cfg, s, k).requests && NeverSentAgain(Continue(cfg, s, k).requests[id])
  {
    if k != id { OthersUntouched(cfg, s, k, id, EMPTY_401, false); }
  }

  lemma LocklessWakes(cfg: ClientOptions, s: State, e: Event, id: nat)
    requires Inv(cfg, s) && Lockless(s) && id in s.requests && Continues(s, e)
    ensures id in Next(cfg, s, e).requests && NeverSentAgain(Next(cfg, s, e).requests[id])
  {
    assert NeverSentAgain(s.requests[id]) && InFlight(s, e.journey);
    var s1, outcome, aborted := RefreshMoves(cfg, s, e, id);
    NoLocksStep(cfg, s.auth, s.journeys[e.journey].flight, e.e);
    if Next(cfg, s, e).requests[id] != s.requests[id] { UnsupportedWakes(cfg, s1, s.requests[id], aborted); }
  }

  lemma UnsupportedWakes(cfg: ClientOptions, s: State, r: Req, aborted: bool)
    requires r.pc.Waiting? && NeverSentAgain(r)
    ensures NeverSentAgain(Woken(cfg, s, r, Unsupported, aborted))
  {}

  lemma LocklessRequest(cfg: ClientOptions, s: State, e: Event, id: nat)
    requires Inv(cfg, s) && Lockless(s) && id in s.requests
    ensures id in Next(cfg, s, e).requests && NeverSentAgain(Next(cfg, s, e).requests[id])
  {
    assert NeverSentAgain(s.requests[id]);
    match e
    case Reply(k, res, aborted) => if k in s.requests { LocklessReply(cfg, s, k, id, res, aborted); }
    case Resume(k) => if k in s.requests { LocklessResume(cfg, s, k, id); }
    case Refresh(_, _, _) => if Continues(s, e) { LocklessWakes(cfg, s, e, id); }
    case _ =>
  }

  /** A refresh that starts in such a browser stops at the missing locks. */
  lemma LocklessStarts(cfg: ClientOptions, s: State, e: Event, j: nat)
    requires !CanRefresh(cfg) && Lockless(s) && !Continues(s, e) && InFlight(Next(cfg, s, e), j)
    ensures Next(cfg, s, e).journeys[j].flight.stage.NoLocks?
  {
    if j < |s.journeys| {
      JourneysUntouched(cfg, s, e, j);
      assert InFlight(s, j);
    } else {
      JourneysStart(cfg, s, e);
    }
  }

  lemma JourneysStart(cfg: ClientOptions, s: State, e: Event)
    requires !Continues(s, e)
    ensures Next(cfg, s, e).journeys == s.journeys
        || exists auth: Auth :: Next(cfg, s, e).journeys == s.journeys + [Flying(StartFlight(cfg, auth))]
  {}

  lemma ReplyAddsNone(cfg: ClientOptions, s: State, k: nat, id: nat, res: Response, aborted: bool)
    requires k in s.requests && id in Arrive(cfg, s, k, res, aborted).requests
    ensures id in s.requests
  {}

  lemma ResumeAddsNone(cfg: ClientOptions, s: State, k: nat, id: nat)
    requires k in s.requests && id in Continue(cfg, s, k).requests
    ensures id in s.requests
  {}

  /** Only sending adds a request. */
  lemma OnlySendAdds(cfg: ClientOptions, s: State, e: Event, id: nat)
    requires Inv(cfg, s) && !e.Send? && id in Next(cfg, s, e).requests
    ensures id in s.requests
  {
    match e
    case Reply(k, res, aborted) => if k in s.requests { ReplyAddsNone(cfg, s, k, id, res, aborted); }
    case Resume(k) => if k in s.requests { ResumeAddsNone(cfg, s, k, id); }
    case Refresh(_, _, _) => if Continues(s, e) { var _, _ := RefreshStep(cfg, s, e); }
    case _ =>
  }

  lemma LocklessStep(cfg: ClientOptions, s: State, e: Event)
    requires !CanRefresh(cfg) && Inv(cfg, s) && Lockless(s)
    ensures Lockless(Next(cfg, s, e))
  {
    var s' := Next(cfg, s, e);
    if Continues(s, e) { LocklessFlight(cfg, s, e); }
    forall j: nat | InFlight(s', j) ensures s'.journeys[j].flight.stage.NoLocks? {
      if !Continues(s, e) { LocklessStarts(cfg, s, e, j); }
    }
    forall id | id in s'.requests ensures NeverSentAgain(s'.requests[id]) {
      if !e.Send? { OnlySendAdds(cfg, s, e, id); }
      if id in s.requests { LocklessRequest(cfg, s, e, id); }
    }
  }

  lemma {:induction false} RunStaysLockless(cfg: ClientOptions, s: State, es: seq<Event>)
    requires !CanRefresh(cfg) && Inv(cfg, s) && Lockless(s)
    ensures Lockless(Run(cfg, s, es))
    decreases es
  {
    if es != [] {
      NextKeepsInv(cfg, s, es[0]);
      LocklessStep(cfg, s, es[0]);
      RunStaysLockless(cfg, Next(cfg, s, es[0]), es[1..]);
    }
  }

  lemma ReachableLockless(cfg: ClientOptions, s: State)
    requires Reachable(cfg, s) && !CanRefresh(cfg)
    ensures Lockless(s)
  {
    var s0: State, es: seq<Event> :| Init0(s0) && Run(cfg, s0, es) == s;
    RunStaysLockless(cfg, s0, es);
  }

  // ---- The signed-in account ----

  /** onAuthRefreshed fires in this step, with this response. */
  predicate Adopts(cfg: ClientOptions, s: State, e: Event, response: AuthResponse) {
    && Continues(s, e)
    && FlightStep(cfg, s.auth, s.journeys[e.journey].flight, e.e).1 == Settled(Refreshed(Some(response)))
  }

  /** Whenever onAuthRefreshed fires, identity and fingerprint are those captured when the refresh started. */
  lemma AdoptionIsForTheCapturedSession(cfg: ClientOptions, s: State, e: Event, response: AuthResponse)
    requires Reachable(cfg, s) && Adopts(cfg, s, e, response)
    ensures cfg.hasIdentity ==>
              && cfg.Identity(s.auth) == s.journeys[e.journey].flight.identity
              && (s.auth.user.Some? ==> s.auth.user == Some(response.user))
    ensures s.journeys[e.journey].flight.mark.Some? ==> cfg.Mark(s.auth) == s.journeys[e.journey].flight.mark
    ensures Next(cfg, s, e).auth == Auth(Authenticated, Some(response.user), Some(response.AccessToken()))
  {
    ReachableInv(cfg, s);
    RefreshStepAuth(cfg, s, e);
  }

  /** A refresh step never replaces one account by another. */
  ghost predicate RefreshKeepsAccount(cfg: ClientOptions) {
    forall s: State, e: Event :: Reachable(cfg, s) && e.Refresh? && s.auth.user.Some? ==>
      Next(cfg, s, e).auth.user == s.auth.user
  }

  lemma AccountKeptWithIdentity(cfg: ClientOptions, s: State, e: Event)
    requires cfg.hasIdentity && Inv(cfg, s) && s.auth.user.Some?
    requires !e.External? && !(e.VerifyReply? && s.auth.status == Loading)
    ensures Next(cfg, s, e).auth.user == s.auth.user
  {
    if Continues(s, e) {
      RefreshStepAuth(cfg, s, e);
      assert InFlight(s, e.journey);
    }
  }

  /**
   Exactly the clients that configure getAuthIdentity, and those that never refresh, are protected from a refresh that
   changes the account.
   */
  lemma RefreshKeepsAccountIff(cfg: ClientOptions)
    ensures RefreshKeepsAccount(cfg) <==> cfg.hasIdentity || !CanRefresh(cfg)
  {
    if !CanRefresh(cfg) {
      forall s: State, e: Event | Reachable(cfg, s) && e.Refresh? && s.auth.user.Some?
        ensures Next(cfg, s, e).auth.user == s.auth.user
      {
        ReachableInv(cfg, s);
        ReachableLockless(cfg, s);
        if Continues(s, e) { LocklessFlight(cfg, s, e); }
      }
    } else if cfg.hasIdentity {
      forall s: State, e: Event | Reachable(cfg, s) && e.Refresh? && s.auth.user.Some?
        ensures Next(cfg, s, e).auth.user == s.auth.user
      {
        ReachableInv(cfg, s);
        AccountKeptWithIdentity(cfg, s, e);
      }
    } else {
      WaitingAtParse(cfg, Rest);
      var s := At(cfg, Rest, true, Parsing);
      var e := Refresh(0, Parsed(Some(AuthResponse("b", 1))), {});
      ReachableInv(cfg, s);
      assert Continues(s, e);
      RefreshStepAuth(cfg, s, e);
      assert s.auth.user == Some("a") && Next(cfg, s, e).auth.user == Some("b");
    }
  }

  lemma StatusKept(cfg: ClientOptions, s: State, e: Event)
    requires Inv(cfg, s) && s.auth.status != Loading && !e.External?
    ensures Next(cfg, s, e).auth.status != Loading
  {
    if Continues(s, e) { RefreshStepAuth(cfg, s, e); }
  }

  /**
   Over a whole run without a login, logout or switch, the account of a loaded session stays the same, whatever
   refreshes, replays and late bootstraps do.
   */
  lemma {:induction false} AccountIsStable(cfg: ClientOptions, s: State, es: seq<Event>)
    requires cfg.hasIdentity && Inv(cfg, s) && s.auth.user.Some? && s.auth.status != Loading
    requires forall e | e in es :: !e.External?
    ensures Run(cfg, s, es).auth.user == s.auth.user && Run(cfg, s, es).auth.status != Loading
    decreases es
  {
    if es != [] {
      assert es[0] in es;
      AccountKeptWithIdentity(cfg, s, es[0]);
      NextKeepsInv(cfg, s, es[0]);
      StatusKept(cfg, s, es[0]);
      AccountIsStable(cfg, Next(cfg, s, es[0]), es[1..]);
    }
  }

  /**
   Once the session has left loading, bootstraps write nothing: in a run without logins, switches and refreshes the
   auth store stays as it is, however many checks start and end.
   */
  lemma {:induction false} LateBootstrapWritesNothing(cfg: ClientOptions, s: State, es: seq<Event>)
    requires s.auth.status != Loading && forall e | e in es :: !e.External? && !e.Refresh?
    ensures Run(cfg, s, es).auth == s.auth
    decreases es
  {
    if es != [] {
      assert es[0] in es;
      LateBootstrapWritesNothing(cfg, Next(cfg, s, es[0]), es[1..]);
    }
  }

  /** A bootstrap that is answered while the session is loading signs the user in; any other answer changes nothing. */
  lemma BootstrapSignsInIff(cfg: ClientOptions, s: State, user: Option<UserId>)
    requires s.verifying
    ensures var s' := Next(cfg, s, VerifyReply(user));
            && !s'.verifying && s'.auth.token == s.auth.token
            && (if s.auth.status == Loading && user.Some? then s'.auth.status == Authenticated && s'.auth.user == user
                else s'.auth == s.auth)
  {}

  // ---- Replays ----

  /** Every second attempt carries a bearer token of the account captured at the start. */
  ghost predicate ReplaysStayInAccount(cfg: ClientOptions) {
    forall s: State, id: nat :: Reachable(cfg, s) && id in s.requests && s.requests[id].replay.Some? ==>
      OwnBearer(s.requests[id], s.requests[id].replay.value)
  }

  lemma ReplaysStayInAccountIff(cfg: ClientOptions)
    ensures ReplaysStayInAccount(cfg) <==> cfg.hasIdentity || !CanRefresh(cfg)
  {
    if !CanRefresh(cfg) {
      forall s: State, id: nat | Reachable(cfg, s) && id in s.requests ensures s.requests[id].replay.None? {
        ReachableLockless(cfg, s);
        assert NeverSentAgain(s.requests[id]);
      }
    } else if cfg.hasIdentity {
      forall s: State, id: nat | Reachable(cfg, s) && id in s.requests && s.requests[id].replay.Some?
        ensures OwnBearer(s.requests[id], s.requests[id].replay.value)
      {
        ReachableInv(cfg, s);
        assert ReqOk(cfg, s.requests[id]);
      }
    } else {
      var s := Replayed(cfg, Rest, "b", None);
      var r := s.requests[0];
      assert r.account == Some("a") && r.replay.value.authorization == Some(Bearer(Token("b", 1)));
      assert !OwnBearer(r, r.replay.value);
    }
  }

  /** The idempotency key never changes on replay, and neither does the tenant header of a REST request. */
  lemma ReplayKeepsKeyAndTenant(cfg: ClientOptions, s: State, id: nat)
    requires Reachable(cfg, s) && id in s.requests && s.requests[id].replay.Some?
    ensures s.requests[id].replay.value.key == s.requests[id].first.key
    ensures s.requests[id].init.kind == Rest ==> s.requests[id].replay.value.tenant == s.requests[id].first.tenant
    ensures s.requests[id].init.mutating && s.requests[id].init.given.key.None? ==>
              s.requests[id].replay.value.key == Some(s.requests[id].init.freshKey)
  {
    ReachableInv(cfg, s);
    assert ReqOk(cfg, s.requests[id]);
  }

  /**
   An oRPC replay rebuilds its headers after an await. It keeps the tenant exactly when no other tenant is selected
   at the moment it is sent.
   */
  lemma OrpcReplayKeepsTenantIff(cfg: ClientOptions, s: State, id: nat)
    requires Reachable(cfg, s) && id in s.requests && s.requests[id].init.kind == Orpc && s.requests[id].pc.Cancelling?
    ensures var r := Next(cfg, s, Resume(id)).requests[id];
            && r.replay.Some?
            && (r.replay.value.tenant == r.first.tenant <==>
                !Truthy(s.tenant) || s.tenant == r.tenant || (!Truthy(r.tenant) && s.tenant == r.init.given.tenant))
  {
    ReachableInv(cfg, s);
    assert ReqOk(cfg, s.requests[id]);
  }

  /** And such a switch is possible: the token of account "a" then travels with a tenant "a" did not select. */
  lemma OrpcReplayCanCrossTenants(cfg: ClientOptions)
    requires CanRefresh(cfg)
    ensures exists s: State ::
              && Reachable(cfg, s) && 0 in s.requests && s.requests[0].replay.Some?
              && OwnBearer(s.requests[0], s.requests[0].replay.value)
              && s.requests[0].replay.value.tenant != s.requests[0].first.tenant
  {
    var s := Replayed(cfg, Orpc, "a", Some("t2"));
    assert s.requests[0].replay.value.tenant == Some("t2") && s.requests[0].first.tenant == Some("t1");
  }

  // ---- Superseded responses ----

  /** A response body is only ever returned when its headers arrived under the captured account and tenant. */
  lemma ReturnedBodyWasInScope(cfg: ClientOptions, s: State, id: nat)
    requires Reachable(cfg, s) && id in s.requests && s.requests[id].pc.Returned? && s.requests[id].pc.res.body.Some?
    ensures s.requests[id].inScope
  {
    ReachableInv(cfg, s);
    assert ReqOk(cfg, s.requests[id]);
  }

  /** The event hands a body to the caller of this request. */
  predicate HandsOver(cfg: ClientOptions, s: State, e: Event, id: nat) {
    && id in s.requests && !s.requests[id].pc.Returned?
    && id in Next(cfg, s, e).requests
    && Next(cfg, s, e).requests[id].pc.Returned? && Next(cfg, s, e).requests[id].pc.res.body.Some?
  }

  /**
   A body is handed over under the captured account and tenant exactly when its scope check and the handover are one
   step, or the scope still holds. Every REST body is read in a later step than its check, and so is the oRPC 401 that
   waited for the failure notification.
   */
  lemma HandoverInScopeIff(cfg: ClientOptions, s: State, e: Event, id: nat)
    requires Reachable(cfg, s) && HandsOver(cfg, s, e, id)
    ensures var r, s' := s.requests[id], Next(cfg, s, e);
            && (Current(cfg, s', s'.requests[id]) <==> !e.Resume? || Current(cfg, s, r))
            && (e.Resume? <==> r.pc.Reading? || r.pc.Notifying?) && (r.init.kind == Rest ==> r.pc.Reading?)
  {
    ReachableInv(cfg, s);
    match e
    case Reply(k, res, aborted) => if k in s.requests { ReplyHandsOver(cfg, s, k, id, res, aborted); }
    case Resume(k) => if k in s.requests { ResumeHandsOver(cfg, s, k, id); }
    case Refresh(_, _, _) => if Continues(s, e) { RefreshHandsOver(cfg, s, e, id); }
    case _ =>
  }

  lemma ReplyHandsOver(cfg: ClientOptions, s: State, k: nat, id: nat, res: Response, aborted: bool)
    requires k in s.requests && HandsOver(cfg, s, Reply(k, res, aborted), id)
    ensures var r, s' := s.requests[id], Arrive(cfg, s, k, res, aborted);
            Current(cfg, s', s'.requests[id]) && r.init.kind == Orpc && (r.pc.First? || r.pc.Replaying?)
  {
    if k != id { OthersUntouched(cfg, s, k, id, res, aborted); }
  }

  lemma ResumeHandsOver(cfg: ClientOptions, s: State, k: nat, id: nat)
    requires k in s.requests && HandsOver(cfg, s, Resume(k), id)
    ensures var r, s' := s.requests[id], Continue(cfg, s, k);
            && Current(cfg, s', s'.requests[id]) == Current(cfg, s, r)
            && (r.pc.Reading? || (r.pc.Notifying? && r.init.kind == Orpc))
  {
    if k != id { OthersUntouched(cfg, s, k, id, EMPTY_401, false); }
    else if s.requests[id].pc.DiscardFirst? { AfterFirstMoves(cfg, s, id); }
    else { ContinueMoves(cfg, s, id); }
  }

  lemma RefreshHandsOver(cfg: ClientOptions, s: State, e: Event, id: nat)
    requires Inv(cfg, s) && Continues(s, e) && HandsOver(cfg, s, e, id)
    ensures var s' := Next(cfg, s, e);
            Current(cfg, s', s'.requests[id]) && s.requests[id].init.kind == Orpc && s.requests[id].pc.Waiting?
  {
    var s1, outcome, aborted := RefreshMoves(cfg, s, e, id);
    WokenHandsOver(cfg, s1, s.requests[id], outcome, aborted);
  }

  lemma WokenHandsOver(cfg: ClientOptions, s: State, r: Req, outcome: Outcome, aborted: bool)
    requires r.pc.Waiting? && Woken(cfg, s, r, outcome, aborted).pc.Returned?
    ensures Current(cfg, s, Woken(cfg, s, r, outcome, aborted)) && r.init.kind == Orpc
  {}

  /** A response was discarded and what is left of the request can only end as an empty 401 or with an exception. */
  predicate Discarding(r: Req) {
    || r.pc.DiscardWaiting? || r.pc.DiscardReplay? || r.pc == Reading(EMPTY_401) || r.pc == Returned(EMPTY_401)
    || (r.init.kind == Orpc && r.pc.DiscardFirst?) || r.pc.Thrown?
  }

  /**
   A first REST response was discarded: until its second attempt is sent, the request holds no body and can only end as
   an empty 401 or with an exception.
   */
  predicate DiscardedFirst(r: Req) {
    && r.init.kind == Rest && r.replay.None?
    && match r.pc
       case DiscardFirst => true
       case Waiting(res, _) => res == EMPTY_401
       case Notifying(res) => res == EMPTY_401
       case Cancelling(_) => true
       case _ => Discarding(r) && !r.pc.DiscardReplay?
  }

  /** Headers that arrive under another account or tenant start a discard, for every attempt of either transport. */
  lemma LateHeadersAreDiscarded(cfg: ClientOptions, s: State, id: nat, res: Response)
    requires id in s.requests && !Current(cfg, s, s.requests[id])
    requires s.requests[id].pc.Replaying? || s.requests[id].pc.First?
    ensures var r, r' := s.requests[id], Next(cfg, s, Reply(id, res, false)).requests[id];
            && !r'.inScope
            && (if r.pc.First? && r.init.kind == Rest then r'.pc.DiscardFirst? else Discarding(r'))
  {}

  /**
   What follows the discard of a first REST response: the request reads the empty 401 exactly when it may not refresh
   or its scope is still gone; an account that came back meanwhile makes it wait for a refresh like any 401.
   */
  lemma DiscardedFirstReadsIff(cfg: ClientOptions, s: State, id: nat)
    requires id in s.requests && s.requests[id].pc.DiscardFirst? && s.requests[id].init.kind == Rest
    ensures var r, r' := s.requests[id], Next(cfg, s, Resume(id)).requests[id];
            && (r'.pc == Reading(EMPTY_401) <==> !(r.init.canRefresh && Current(cfg, s, r)))
            && (r'.pc != Reading(EMPTY_401) ==> r'.pc.Waiting? && r'.pc.first == EMPTY_401)
  {}

  /** In every run, a request in Discarding can only end as an empty 401 or with an exception. */
  lemma {:induction false} DiscardedEndsEmpty(cfg: ClientOptions, s: State, es: seq<Event>, id: nat)
    requires Inv(cfg, s) && id in s.requests && Discarding(s.requests[id])
    ensures id in Run(cfg, s, es).requests && Discarding(Run(cfg, s, es).requests[id])
    ensures Run(cfg, s, es).requests[id].pc.Returned? ==> Run(cfg, s, es).requests[id].pc.res == EMPTY_401
    decreases es
  {
    if es != [] {
      NextKeepsInv(cfg, s, es[0]);
      DiscardStep(cfg, s, es[0], id);
      DiscardedEndsEmpty(cfg, Next(cfg, s, es[0]), es[1..], id);
    }
  }

  lemma DiscardStep(cfg: ClientOptions, s: State, e: Event, id: nat)
    requires Inv(cfg, s) && id in s.requests && Discarding(s.requests[id])
    ensures id in Next(cfg, s, e).requests && Discarding(Next(cfg, s, e).requests[id])
  {
    match e
    case Reply(k, res, aborted) => if k in s.requests { ReplyKeepsDiscarding(cfg, s, k, id, res, aborted); }
    case Resume(k) => if k in s.requests { ResumeKeepsDiscarding(cfg, s, k, id); }
    case Refresh(_, _, _) => if Continues(s, e) { var _, _, _ := RefreshMoves(cfg, s, e, id); }
    case _ =>
  }

  lemma ReplyKeepsDiscarding(cfg: ClientOptions, s: State, k: nat, id: nat, res: Response, aborted: bool)
    requires k in s.requests && id in s.requests && Discarding(s.requests[id])
    ensures id in Arrive(cfg, s, k, res, aborted).requests && Discarding(Arrive(cfg, s, k, res, aborted).requests[id])
  {
    if k != id { OthersUntouched(cfg, s, k, id, res, aborted); }
  }

  lemma ResumeKeepsDiscarding(cfg: ClientOptions, s: State, k: nat, id: nat)
    requires k in s.requests && id in s.requests && Discarding(s.requests[id])
    ensures id in Continue(cfg, s, k).requests && Discarding(Continue(cfg, s, k).requests[id])
  {
    if k != id { OthersUntouched(cfg, s, k, id, EMPTY_401, false); }
    else if !s.requests[id].pc.DiscardFirst? { ContinueMoves(cfg, s, id); }
  }

  /**
   In every run, a request whose first response was discarded ends as an empty 401 or with an exception, unless a
   second attempt is sent; the body of the discarded response is never returned.
   */
  lemma {:induction false} DiscardedFirstEndsEmpty(cfg: ClientOptions, s: State, es: seq<Event>, id: nat)
    requires Inv(cfg, s) && id in s.requests && (DiscardedFirst(s.requests[id]) || s.requests[id].replay.Some?)
    ensures id in Run(cfg, s, es).requests
    ensures var r := Run(cfg, s, es).requests[id];
            && (r.replay.None? ==> DiscardedFirst(r))
            && (r.replay.None? && r.pc.Returned? ==> r.pc.res == EMPTY_401)
    decreases es
  {
    if es != [] {
      NextKeepsInv(cfg, s, es[0]);
      DiscardedFirstStep(cfg, s, es[0], id);
      DiscardedFirstEndsEmpty(cfg, Next(cfg, s, es[0]), es[1..], id);
    }
  }

  lemma DiscardedFirstStep(cfg: ClientOptions, s: State, e: Event, id: nat)
    requires Inv(cfg, s) && id in s.requests && (DiscardedFirst(s.requests[id]) || s.requests[id].replay.Some?)
    ensures id in Next(cfg, s, e).requests
    ensures var r := Next(cfg, s, e).requests[id]; DiscardedFirst(r) || r.replay.Some?
  {
    match e
    case Reply(k, res, aborted) => if k in s.requests { ReplyStaysDiscarded(cfg, s, k, id, res, aborted); }
    case Resume(k) => if k in s.requests { ResumeStaysDiscarded(cfg, s, k, id); }
    case Refresh(_, _, _) => if Continues(s, e) { RefreshStaysDiscarded(cfg, s, e, id); }
    case _ =>
  }

  lemma RefreshStaysDiscarded(cfg: ClientOptions, s: State, e: Event, id: nat)
    requires Inv(cfg, s) && Continues(s, e) && id in s.requests
    requires DiscardedFirst(s.requests[id]) || s.requests[id].replay.Some?
    ensures id in Next(cfg, s, e).requests
    ensures var r := Next(cfg, s, e).requests[id]; DiscardedFirst(r) || r.replay.Some?
  {
    var s1, outcome, aborted := RefreshMoves(cfg, s, e, id);
    WokenStaysDiscarded(cfg, s1, s.requests[id], outcome, aborted);
  }

  lemma ReplyStaysDiscarded(cfg: ClientOptions, s: State, k: nat, id: nat, res: Response, aborted: bool)
    requires k in s.requests && id in s.requests && (DiscardedFirst(s.requests[id]) || s.requests[id].replay.Some?)
    ensures id in Arrive(cfg, s, k, res, aborted).requests
    ensures var r := Arrive(cfg, s, k, res, aborted).requests[id]; DiscardedFirst(r) || r.replay.Some?
  {
    if k != id { OthersUntouched(cfg, s, k, id, res, aborted); }
  }

  lemma ResumeStaysDiscarded(cfg: ClientOptions, s: State, k: nat, id: nat)
    requires k in s.requests && id in s.requests && (DiscardedFirst(s.requests[id]) || s.requests[id].replay.Some?)
    ensures id in Continue(cfg, s, k).requests
    ensures var r := Continue(cfg, s, k).requests[id]; DiscardedFirst(r) || r.replay.Some?
  {
    if k != id { OthersUntouched(cfg, s, k, id, EMPTY_401, false); } else { OwnResumeStaysDiscarded(cfg, s, id); }
  }

  lemma OwnResumeStaysDiscarded(cfg: ClientOptions, s: State, id: nat)
    requires id in s.requests && (DiscardedFirst(s.requests[id]) || s.requests[id].replay.Some?)
    ensures id in Continue(cfg, s, id).requests
    ensures var r := Continue(cfg, s, id).requests[id]; DiscardedFirst(r) || r.replay.Some?
  {
    var r := s.requests[id];
    if r.pc.DiscardFirst? {
      AfterFirstMoves(cfg, s, id);
    } else {
      ContinueMoves(cfg, s, id);
    }
  }

  /** The other awaits: the request ends, reads on with what it holds, or is sent again. */
  lemma ContinueMoves(cfg: ClientOptions, s: State, id: nat)
    requires id in s.requests && !s.requests[id].pc.DiscardFirst?
    ensures id in Continue(cfg, s, id).requests
    ensures var r, r' := s.requests[id], Continue(cfg, s, id).requests[id];
            || (r.pc.Cancelling? && r'.replay.Some?)
            || (r' == r.(pc := Resumed(r)) && !r.pc.Cancelling?)
  {}

  function Resumed(r: Req): Pc {
    match r.pc
    case DiscardWaiting => Returned(EMPTY_401)
    case Notifying(res) => if r.init.kind == Rest then Reading(res) else Returned(res)
    case DiscardReplay => if r.init.kind == Rest then Reading(EMPTY_401) else Returned(EMPTY_401)
    case Reading(res) => Returned(res)
    case _ => r.pc
  }

  /** The request reads the empty 401 or waits with it; nothing else about it changes. */
  lemma AfterFirstMoves(cfg: ClientOptions, s: State, id: nat)
    requires id in s.requests
    ensures var s', r := AfterFirst(cfg, s, id, EMPTY_401), s.requests[id];
            && id in s'.requests
            && s'.requests[id] == r.(pc := s'.requests[id].pc)
            && (s'.requests[id].pc == Reading(EMPTY_401) || s'.requests[id].pc == Returned(EMPTY_401)
                || (s'.requests[id].pc.Waiting? && s'.requests[id].pc.first == EMPTY_401))
            && (s'.requests[id].pc.Returned? ==> r.init.kind == Orpc)
  {}

  /** A refresh that settles wakes a discarded request with the empty 401 it has waited with. */
  lemma WokenStaysDiscarded(cfg: ClientOptions, s: State, r: Req, outcome: Outcome, aborted: bool)
    ensures r.pc.Waiting? && DiscardedFirst(r) ==> DiscardedFirst(Woken(cfg, s, r, outcome, aborted))
    ensures r.pc.Waiting? && r.replay.Some? ==> Woken(cfg, s, r, outcome, aborted).replay.Some?
  {}

  // ---- Single flight and failure notification ----

  /**
   In every reachable state at most one refresh is in flight, it is the one whose promise is pending, and every request
   that waits awaits that one.
   */
  lemma SingleFlight(cfg: ClientOptions, s: State)
    requires Reachable(cfg, s)
    ensures forall i: nat, j: nat | InFlight(s, i) && InFlight(s, j) :: i == j
    ensures forall j: nat :: InFlight(s, j) <==> s.pending == Some(j)
    ensures forall id | id in s.requests && s.requests[id].pc.Waiting? :: InFlight(s, s.requests[id].pc.journey)
  {
    ReachableInv(cfg, s);
    forall id | id in s.requests && s.requests[id].pc.Waiting? ensures InFlight(s, s.requests[id].pc.journey) {
      assert WaitsForPending(s, id);
    }
  }

  /** A journey keeps what it captured while it flies, and its outcome once it has landed. */
  predicate SameJourney(before: Journey, after: Journey) {
    match before
    case Flying(f) => after.Flying? ==> f == after.flight.(stage := f.stage)
    case Landed(outcome) => after == before
  }

  /** Over every run, refreshes are only ever added, and each keeps what it captured when it started. */
  lemma {:induction false} JourneysAreKept(cfg: ClientOptions, s: State, es: seq<Event>, j: nat)
    requires Inv(cfg, s) && j < |s.journeys|
    ensures j < |Run(cfg, s, es).journeys| && SameJourney(s.journeys[j], Run(cfg, s, es).journeys[j])
    decreases es
  {
    if es != [] {
      NextKeepsInv(cfg, s, es[0]);
      JourneyStep(cfg, s, es[0], j);
      JourneysAreKept(cfg, Next(cfg, s, es[0]), es[1..], j);
    }
  }

  lemma JourneyStep(cfg: ClientOptions, s: State, e: Event, j: nat)
    requires Inv(cfg, s) && j < |s.journeys|
    ensures j < |Next(cfg, s, e).journeys| && SameJourney(s.journeys[j], Next(cfg, s, e).journeys[j])
  {
    if Continues(s, e) {
      var _, _ := RefreshStep(cfg, s, e);
    } else {
      JourneysUntouched(cfg, s, e, j);
    }
  }

  lemma JourneysUntouched(cfg: ClientOptions, s: State, e: Event, j: nat)
    requires j < |s.journeys| && !Continues(s, e)
    ensures j < |Next(cfg, s, e).journeys| && Next(cfg, s, e).journeys[j] == s.journeys[j]
  {}

  /** Settlements of a run whose outcome loses the session for good. */
  function PermanentLosses(cfg: ClientOptions, s: State, es: seq<Event>): nat
    decreases es
  {
    if es == [] then 0
    else (if PermanentLoss(cfg, s, es[0]) then 1 else 0) + PermanentLosses(cfg, Next(cfg, s, es[0]), es[1..])
  }

  predicate PermanentLoss(cfg: ClientOptions, s: State, e: Event) {
    && Continues(s, e)
    && var result := FlightStep(cfg, s.auth, s.journeys[e.journey].flight, e.e).1;
       result.Settled? && Permanent(result.outcome)
  }

  /** onAuthFailure runs at most once per permanent loss, and never for retryable or superseded refreshes. */
  lemma {:induction false} FailuresAreBounded(cfg: ClientOptions, s: State, es: seq<Event>)
    requires Inv(cfg, s)
    ensures s.failures <= Run(cfg, s, es).failures <= s.failures + PermanentLosses(cfg, s, es)
    decreases es
  {
    if es != [] {
      NextKeepsInv(cfg, s, es[0]);
      FailureStep(cfg, s, es[0]);
      FailuresAreBounded(cfg, Next(cfg, s, es[0]), es[1..]);
    }
  }

  lemma FailureStep(cfg: ClientOptions, s: State, e: Event)
    requires Inv(cfg, s)
    ensures s.failures <= Next(cfg, s, e).failures <= s.failures + (if PermanentLoss(cfg, s, e) then 1 else 0)
  {
    if Continues(s, e) { var _, _ := RefreshStep(cfg, s, e); }
  }

  // ---- What a refresh settles with ----

  /** The account is the one captured when the refresh started; a client without identities never sees it change. */
  predicate SameAccount(cfg: ClientOptions, s: State, f: Flight) {
    f.identity.Some? ==> cfg.Identity(s.auth) == f.identity
  }

  /** So is the fingerprint of the session. */
  predicate SameMark(cfg: ClientOptions, s: State, f: Flight) { f.mark.Some? ==> cfg.Mark(s.auth) == f.mark }

  predicate Unchanged(cfg: ClientOptions, s: State, f: Flight) { SameAccount(cfg, s, f) && SameMark(cfg, s, f) }

  predicate RefusedBy(status: int) { status in {400, 401, 403} }

  predicate Accepted(status: int) { 200 <= status <= 299 }

  /** The moments at which a refresh looks at the session again: lock granted, reply there, body there and valid. */
  predicate Rechecks(f: Flight, e: FlightEvent) {
    || (f.stage.LockWait? && e.LockGranted?)
    || (f.stage.Fetching? && e.HttpReply?)
    || (f.stage.Parsing? && e.Parsed? && e.response.Some?)
  }

  /** A response of another account than the one the refresh started for. */
  predicate Foreigner(f: Flight, response: AuthResponse) {
    f.identity.Some? && f.identity.value.Some? && response.user != f.identity.value.value
  }

  /** Another token is in the store than the one that was there when the refresh started. */
  predicate NewToken(s: State, f: Flight) { s.auth.token.Some? && s.auth.token != f.token }

  /** The abort of the lock's or the request's own deadline, or any other failure of the awaited call. */
  function Broken(f: Flight, aborted: bool): Reason {
    if !aborted then Network else if f.stage.LockWait? then LockTimeout else Timeout
  }

  /** The event settles the refresh with this outcome, told by the event and by what was captured. */
  predicate SettlesAs(cfg: ClientOptions, s: State, f: Flight, e: FlightEvent, outcome: Outcome) {
    match outcome
    case InvalidSession => f.stage.Fetching? && e.HttpReply? && RefusedBy(e.status) && Unchanged(cfg, s, f)
    case Unsupported => f.stage.NoLocks? && e.LocksMissing?
    case Superseded =>
      || (Rechecks(f, e) && !Unchanged(cfg, s, f) && !(SameAccount(cfg, s, f) && NewToken(s, f)))
      || (f.stage.Parsing? && e.Parsed? && e.response.Some? && Unchanged(cfg, s, f) && Foreigner(f, e.response.value))
    case Refreshed(None) => Rechecks(f, e) && SameAccount(cfg, s, f) && !SameMark(cfg, s, f) && NewToken(s, f)
    case Refreshed(Some(response)) =>
      f.stage.Parsing? && e == Parsed(Some(response)) && Unchanged(cfg, s, f) && !Foreigner(f, response)
    case Retryable(reason) =>
      || (reason == Server && f.stage.Fetching? && e.HttpReply?
          && !RefusedBy(e.status) && !Accepted(e.status) && Unchanged(cfg, s, f))
      || (reason == Server && f.stage.Parsing? && e == Parsed(None))
      || (!f.stage.NoLocks? && e.Rejected? && reason == Broken(f, e.aborted))
  }

  /** A step lands a refresh with this outcome. */
  predicate Lands(cfg: ClientOptions, s: State, e: Event, outcome: Outcome) {
    && Continues(s, e)
    && e.journey < |Next(cfg, s, e).journeys| && Next(cfg, s, e).journeys[e.journey] == Landed(outcome)
  }

  lemma FlightSettlesAs(cfg: ClientOptions, s: State, f: Flight, e: FlightEvent, outcome: Outcome)
    ensures FlightStep(cfg, s.auth, f, e).1 == Settled(outcome) <==> SettlesAs(cfg, s, f, e, outcome)
  {}

  /**
   In every reachable state a refresh lands with an outcome exactly when the server, the locks and the session say so:
   an invalid session is a 400, 401 or 403 to a refresh whose account and fingerprint still hold, and nothing else.
   */
  lemma LandsIff(cfg: ClientOptions, s: State, e: Event, outcome: Outcome)
    requires Reachable(cfg, s) && Continues(s, e)
    ensures Lands(cfg, s, e, outcome) <==> SettlesAs(cfg, s, s.journeys[e.journey].flight, e.e, outcome)
  {
    ReachableInv(cfg, s);
    var _, result := RefreshStep(cfg, s, e);
    FlightSettlesAs(cfg, s, s.journeys[e.journey].flight, e.e, outcome);
  }

  /**
   The step loses the session for good: the server refused a refresh that is still wanted, or there are no Web Locks.
   */
  predicate LosesSession(cfg: ClientOptions, s: State, e: Event) {
    && Continues(s, e)
    && var f := s.journeys[e.journey].flight;
       || (f.stage.NoLocks? && e.e.LocksMissing?)
       || (f.stage.Fetching? && e.e.HttpReply? && RefusedBy(e.e.status) && Unchanged(cfg, s, f))
  }

  /** onAuthFailure runs in exactly those steps in which a waiting request is neither aborted nor superseded, once. */
  lemma NotifiesIff(cfg: ClientOptions, s: State, e: Event)
    requires Reachable(cfg, s)
    ensures Next(cfg, s, e).failures == s.failures
              + if LosesSession(cfg, s, e) && SomeLive(cfg, s, s.waiters, e.abortedWaiters) then 1 else 0
  {
    ReachableInv(cfg, s);
    if Continues(s, e) {
      RefreshNotifies(cfg, s, e);
    } else {
      FailureStep(cfg, s, e);
    }
  }

  lemma RefreshNotifies(cfg: ClientOptions, s: State, e: Event)
    requires Inv(cfg, s) && Continues(s, e)
    ensures Next(cfg, s, e).failures == s.failures
              + if LosesSession(cfg, s, e) && SomeLive(cfg, s, s.waiters, e.abortedWaiters) then 1 else 0
  {
    var f := s.journeys[e.journey].flight;
    var (auth, result) := FlightStep(cfg, s.auth, f, e.e);
    var s1 := s.(auth := auth);
    FlightOutcomeOk(cfg, s.auth, f, e.e);
    FlightSettlesAs(cfg, s, f, e.e, InvalidSession);
    FlightSettlesAs(cfg, s, f, e.e, Unsupported);
    if result.Settled? {
      AuthStepKeeps(cfg, s, s1);
      OneNotificationPerSettlement(cfg, s1, e.journey, result.outcome, e.abortedWaiters);
      if Permanent(result.outcome) { PermanentKeepsAuth(cfg, s.auth, f, e.e); }
    }
  }

  lemma PermanentKeepsAuth(cfg: ClientOptions, auth: Auth, f: Flight, e: FlightEvent)
    ensures var step := FlightStep(cfg, auth, f, e); step.1.Settled? && Permanent(step.1.outcome) ==> step.0 == auth
  {}

  /**
   A new refresh captures the session as it is when it starts, and begins at the lock in browsers, else at the server.
   */
  lemma NewFlightCaptures(cfg: ClientOptions, s: State, e: Event, j: nat)
    requires Reachable(cfg, s) && j == |s.journeys| && j < |Next(cfg, s, e).journeys|
    ensures var s' := Next(cfg, s, e);
            && s'.journeys[j].Flying? && s'.auth == s.auth
            && var f := s'.journeys[j].flight;
               && f.token == s.auth.token && Unchanged(cfg, s, f)
               && f.identity.Some? == cfg.hasIdentity && f.mark.Some? == cfg.fingerprint.Some?
               && f.stage == (if !cfg.browser then Fetching else if cfg.locks then LockWait else NoLocks)
  {
    ReachableInv(cfg, s);
    if Continues(s, e) {
      var _, _ := RefreshStep(cfg, s, e);
    } else {
      StartCaptures(cfg, s, e);
    }
  }

  lemma StartCaptures(cfg: ClientOptions, s: State, e: Event)
    requires !Continues(s, e) && |s.journeys| < |Next(cfg, s, e).journeys|
    ensures Next(cfg, s, e).auth == s.auth
    ensures Next(cfg, s, e).journeys == s.journeys + [Flying(StartFlight(cfg, s.auth))]
  {}

  // ---- One request from its first headers to its end ----

  /**
   A first attempt carries the token of the signed-in account, unless a REST caller brought its own authorization; the
   selected tenant, unless a REST caller named one; and a mutation carries an idempotency key.
   */
  lemma FirstAttemptIsSigned(cfg: ClientOptions, s: State, id: nat, init: Init)
    requires Reachable(cfg, s) && id !in s.requests
    ensures id in Next(cfg, s, Send(id, init)).requests
    ensures var r := Next(cfg, s, Send(id, init)).requests[id];
            && r.pc == First && r.account == s.auth.user && r.tenant == s.tenant && Current(cfg, s, r)
            && (if s.auth.token.Some? && (init.kind == Orpc || !Given(init.given.authorization)) then
                  OwnBearer(r, r.first) && r.first.authorization == Some(Bearer(s.auth.token.value))
                else r.first.authorization == init.given.authorization)
            && (if Truthy(s.tenant) && (init.kind == Orpc || !Truthy(init.given.tenant)) then r.first.tenant == s.tenant
                else r.first.tenant == init.given.tenant)
            && (init.mutating ==> r.first.key.Some? && (init.given.key.None? ==> r.first.key == Some(init.freshKey)))
            && (Truthy(init.given.key) || !init.mutating ==> r.first.key == init.given.key)
  {
    ReachableInv(cfg, s);
  }

  /** A first response in scope waits for a refresh exactly if it is a 401 that may refresh; else it is read. */
  lemma FirstReplyWaitsIff(cfg: ClientOptions, s: State, id: nat, res: Response)
    requires id in s.requests && s.requests[id].pc.First? && Current(cfg, s, s.requests[id])
    ensures id in Next(cfg, s, Reply(id, res, false)).requests
    ensures var r, s' := s.requests[id], Next(cfg, s, Reply(id, res, false));
            var pc := s'.requests[id].pc;
            && (pc.Waiting? <==> res.status == 401 && r.init.canRefresh)
            && (if pc.Waiting? then pc.first == res && s'.pending == Some(pc.journey)
                else pc == if r.init.kind == Rest then Reading(res) else Returned(res))
  {}

  lemma LandingWakes(cfg: ClientOptions, s: State, e: Event, outcome: Outcome, id: nat)
    requires Reachable(cfg, s) && Lands(cfg, s, e, outcome) && id in s.requests && s.requests[id].pc.Waiting?
    ensures var s' := Next(cfg, s, e);
            && id in s'.requests && s'.tenant == s.tenant
            && s'.requests[id] == Woken(cfg, s.(auth := s'.auth), s.requests[id], outcome, id in e.abortedWaiters)
  {
    ReachableInv(cfg, s);
    var auth, result := RefreshStep(cfg, s, e);
    assert result == Settled(outcome) && id in s.waiters;
    assert IsWoken(cfg, s.(auth := auth), Next(cfg, s, e), id, outcome, e.abortedWaiters);
  }

  /** After a refresh the store holds a token, even if this tab received none. */
  lemma LandingHasToken(cfg: ClientOptions, s: State, e: Event, response: Option<AuthResponse>)
    requires Reachable(cfg, s) && Lands(cfg, s, e, Refreshed(response))
    ensures Next(cfg, s, e).auth.token.Some? && (response.None? ==> Next(cfg, s, e).auth == s.auth)
  {
    ReachableInv(cfg, s);
    var auth, result := RefreshStep(cfg, s, e);
    FlightOutcomeOk(cfg, s.auth, s.journeys[e.journey].flight, e.e);
    if response.None? { NoResponseKeepsAuth(cfg, s.auth, s.journeys[e.journey].flight, e.e); }
  }

  /**
   When a refresh lands, every waiting request moves on at once: thrown if its caller has aborted it, discarded if its
   scope is gone, sent again after a refresh, and otherwise left with the 401 it waited with.
   */
  lemma WaiterMovesOn(cfg: ClientOptions, s: State, e: Event, outcome: Outcome, id: nat)
    requires Reachable(cfg, s) && Lands(cfg, s, e, outcome) && id in s.requests && s.requests[id].pc.Waiting?
    ensures id in Next(cfg, s, e).requests
    ensures var r, s' := s.requests[id], Next(cfg, s, e);
            var pc := s'.requests[id].pc;
            if id in e.abortedWaiters then pc == Thrown
            else if !Current(cfg, s', r) then pc == DiscardWaiting
            else if outcome.Refreshed? then pc.Cancelling?
            else if Permanent(outcome) then pc == Notifying(r.pc.first)
            else pc == if r.init.kind == Rest then Reading(r.pc.first) else Returned(r.pc.first)
  {
    LandingWakes(cfg, s, e, outcome, id);
  }

  /** Between waking and being sent again a request keeps its headers, whatever the others do; only it can fail. */
  predicate SameUntilSent(s: State, later: State, id: nat) {
    id in s.requests && id in later.requests && later.requests[id] == s.requests[id]
  }

  /** The second attempt carries the token that the refresh brought, or the newer one that was found in the store. */
  lemma ReplayCarriesNewToken(cfg: ClientOptions, s: State, e: Event, response: Option<AuthResponse>, id: nat,
      later: State)
    requires Reachable(cfg, s) && Lands(cfg, s, e, Refreshed(response))
    requires id in s.requests && s.requests[id].pc.Waiting? && id !in e.abortedWaiters
    requires Current(cfg, Next(cfg, s, e), s.requests[id]) && SameUntilSent(Next(cfg, s, e), later, id)
    ensures var token := if response.Some? then Some(response.value.AccessToken()) else s.auth.token;
            && token.Some?
            && id in Next(cfg, later, Resume(id)).requests
            && var r := Next(cfg, later, Resume(id)).requests[id];
               r.pc == Replaying && r.replay.Some? && r.replay.value.authorization == Some(Bearer(token.value))
  {
    LandingHasToken(cfg, s, e, response);
    LandingWakes(cfg, s, e, Refreshed(response), id);
    SendsWithToken(cfg, s.(auth := Next(cfg, s, e).auth), s.requests[id], response, later, id);
  }

  lemma NoResponseKeepsAuth(cfg: ClientOptions, auth: Auth, f: Flight, e: FlightEvent)
    ensures var step := FlightStep(cfg, auth, f, e); step.1 == Settled(Refreshed(None)) ==> step.0 == auth
  {}

  lemma SendsWithToken(cfg: ClientOptions, s: State, r: Req, response: Option<AuthResponse>, later: State, id: nat)
    requires r.pc.Waiting? && Current(cfg, s, r) && id in later.requests
    requires response.None? ==> s.auth.token.Some?
    requires later.requests[id] == Woken(cfg, s, r, Refreshed(response), false)
    ensures var token := if response.Some? then response.value.AccessToken() else s.auth.token.value;
            && id in Continue(cfg, later, id).requests
            && var r' := Continue(cfg, later, id).requests[id];
               r'.pc == Replaying && r'.replay.Some? && r'.replay.value.authorization == Some(Bearer(token))
  {}

  // ---- Example runs ----

  const SIGNED_IN := Auth(Authenticated, Some("a"), Some(Token("a", 0)))

  function Simple(kind: Kind): Init { Init(kind, true, true, Headers(None, None, None), "k") }

  function Fresh(): State { State(SIGNED_IN, Some("t1"), None, [], [], false, 0, map[], false) }

  function ExampleReq(cfg: ClientOptions, kind: Kind, inScope: bool, pc: Pc): Req {
    Begin(cfg, Fresh(), Simple(kind)).(inScope := inScope, pc := pc)
  }

  /** Request 0 waits for refresh 0, which is at the given stage. */
  function At(cfg: ClientOptions, kind: Kind, inScope: bool, stage: Stage): State {
    Fresh().(pending := Some(0), journeys := [Flying(StartFlight(cfg, SIGNED_IN).(stage := stage))], waiters := [0],
             requests := map[0 := ExampleReq(cfg, kind, inScope, Waiting(EMPTY_401, 0))])
  }

  function FirstStage(cfg: ClientOptions): Stage { StartFlight(cfg, SIGNED_IN).stage }

  lemma SentReachable(cfg: ClientOptions, kind: Kind)
    ensures Reachable(cfg, Fresh().(requests := map[0 := ExampleReq(cfg, kind, false, First)]))
  {
    Step(cfg, Fresh(), Send(0, Simple(kind)));
    assert Next(cfg, Fresh(), Send(0, Simple(kind)))
        == Fresh().(requests := map[0 := ExampleReq(cfg, kind, false, First)]);
  }

  /** The request is answered by a 401 under the account and tenant that sent it. */
  lemma RefusedReachable(cfg: ClientOptions, kind: Kind)
    ensures Reachable(cfg, At(cfg, kind, true, FirstStage(cfg)))
  {
    SentReachable(cfg, kind);
    var s := Fresh().(requests := map[0 := ExampleReq(cfg, kind, false, First)]);
    Step(cfg, s, Reply(0, EMPTY_401, false));
    assert Next(cfg, s, Reply(0, EMPTY_401, false)) == At(cfg, kind, true, FirstStage(cfg));
  }

  /** The refresh is answered by a 200. */
  lemma AnsweredReachable(cfg: ClientOptions, kind: Kind, inScope: bool)
    requires CanRefresh(cfg) && Reachable(cfg, At(cfg, kind, inScope, FirstStage(cfg)))
    ensures Reachable(cfg, At(cfg, kind, inScope, Parsing))
  {
    if cfg.browser { LockStep(cfg, kind, inScope); }
    var s := At(cfg, kind, inScope, Fetching);
    Step(cfg, s, Refresh(0, HttpReply(200), {}));
    assert s.journeys[0 := Flying(s.journeys[0].flight.(stage := Parsing))] == At(cfg, kind, inScope, Parsing).journeys;
  }

  lemma LockStep(cfg: ClientOptions, kind: Kind, inScope: bool)
    requires cfg.browser && cfg.locks && Reachable(cfg, At(cfg, kind, inScope, FirstStage(cfg)))
    ensures Reachable(cfg, At(cfg, kind, inScope, Fetching))
  {
    var s := At(cfg, kind, inScope, LockWait);
    Step(cfg, s, Refresh(0, LockGranted, {}));
    assert s.journeys[0 := Flying(s.journeys[0].flight.(stage := Fetching))]
        == At(cfg, kind, inScope, Fetching).journeys;
  }

  lemma WaitingAtParse(cfg: ClientOptions, kind: Kind)
    requires CanRefresh(cfg)
    ensures Reachable(cfg, At(cfg, kind, true, Parsing))
  {
    RefusedReachable(cfg, kind);
    AnsweredReachable(cfg, kind, true);
  }

  /** The state in which the refresh has adopted the response and request 0 is about to be sent again. */
  function Adopted(cfg: ClientOptions, kind: Kind, inScope: bool, user: UserId): State {
    var waits := At(cfg, kind, inScope, Parsing);
    var r := ExampleReq(cfg, kind, inScope, Cancelling(Some(Token(user, 1))));
    waits.(auth := Auth(Authenticated, Some(user), Some(Token(user, 1))), pending := None, waiters := [],
           journeys := [Landed(Refreshed(Some(AuthResponse(user, 1))))],
           requests := map[0 := r.(headers := r.headers.(authorization := Some(Bearer(Token(user, 1)))))])
  }

  lemma AdoptedReachable(cfg: ClientOptions, kind: Kind, inScope: bool, user: UserId)
    requires CanRefresh(cfg) && (cfg.hasIdentity ==> user == "a") && Reachable(cfg, At(cfg, kind, inScope, Parsing))
    ensures Reachable(cfg, Adopted(cfg, kind, inScope, user))
  {
    var s, e := At(cfg, kind, inScope, Parsing), Refresh(0, Parsed(Some(AuthResponse(user, 1))), {});
    Step(cfg, s, e);
    ExampleSettles(cfg, kind, inScope, user);
  }

  lemma ExampleSettles(cfg: ClientOptions, kind: Kind, inScope: bool, user: UserId)
    requires cfg.hasIdentity ==> user == "a"
    ensures Next(cfg, At(cfg, kind, inScope, Parsing), Refresh(0, Parsed(Some(AuthResponse(user, 1))), {}))
         == Adopted(cfg, kind, inScope, user)
  {
    var s := At(cfg, kind, inScope, Parsing).(auth := Auth(Authenticated, Some(user), Some(Token(user, 1))));
    var outcome := Refreshed(Some(AuthResponse(user, 1)));
    assert Awaiting(s, [0], 0, true) == [0] && Awaiting(s, [0], 0, false) == [];
    assert WakeAll([0]) == Queue([0], false);
    ExampleWakes(cfg, kind, inScope, user);
  }

  lemma ExampleWakes(cfg: ClientOptions, kind: Kind, inScope: bool, user: UserId)
    requires cfg.hasIdentity ==> user == "a"
    ensures var s := At(cfg, kind, inScope, Parsing).(auth := Auth(Authenticated, Some(user), Some(Token(user, 1))));
            var outcome := Refreshed(Some(AuthResponse(user, 1)));
            Drain(cfg, AfterLanding(s, 0, outcome), Queue([0], false), outcome, {}) == Adopted(cfg, kind, inScope, user)
  {
    var s := At(cfg, kind, inScope, Parsing).(auth := Auth(Authenticated, Some(user), Some(Token(user, 1))));
    var outcome := Refreshed(Some(AuthResponse(user, 1)));
    var s1 := AfterLanding(s, 0, outcome);
    DrainWake(cfg, s1, [0], outcome, {});
    var s2 := WakeStep(cfg, s1, 0, outcome, false);
    assert s2 == Adopted(cfg, kind, inScope, user);
    assert [0][1..] == [];
    DrainEnd(cfg, s2, outcome, {});
  }

  /** Then the tenant may be switched; then the replay is sent. */
  lemma ReplayedFrom(cfg: ClientOptions, kind: Kind, inScope: bool, user: UserId, tenant: Option<string>)
    returns (s: State)
    requires CanRefresh(cfg) && (cfg.hasIdentity ==> user == "a") && Reachable(cfg, At(cfg, kind, inScope, Parsing))
    ensures Reachable(cfg, s) && 0 in s.requests && IsReplay(s.requests[0], kind, user, tenant)
  {
    AdoptedReachable(cfg, kind, inScope, user);
    var s1 := Adopted(cfg, kind, inScope, user);
    var s2 := s1.(tenant := tenant);
    Step(cfg, s1, External(s1.auth, tenant));
    assert Next(cfg, s1, External(s1.auth, tenant)) == s2;
    Step(cfg, s2, Resume(0));
    s := Next(cfg, s2, Resume(0));
    SentAgain(cfg, kind, inScope, user, tenant);
  }

  lemma SentAgain(cfg: ClientOptions, kind: Kind, inScope: bool, user: UserId, tenant: Option<string>)
    ensures var s := Next(cfg, Adopted(cfg, kind, inScope, user).(tenant := tenant), Resume(0));
            0 in s.requests && IsReplay(s.requests[0], kind, user, tenant)
  {}

  /** A request of account "a" and tenant "t1" sent again with a token of `user`, while `tenant` was selected. */
  predicate IsReplay(r: Req, kind: Kind, user: UserId, tenant: Option<string>) {
    && r.account == Some("a") && r.init.kind == kind && r.pc.Replaying?
    && r.replay.Some? && r.first.tenant == Some("t1")
    && r.replay.value.authorization == Some(Bearer(Token(user, 1)))
    && r.replay.value.tenant == if kind == Orpc && Truthy(tenant) then tenant else Some("t1")
  }

  lemma Replayed(cfg: ClientOptions, kind: Kind, user: UserId, tenant: Option<string>) returns (s: State)
    requires CanRefresh(cfg) && (cfg.hasIdentity ==> user == "a")
    ensures Reachable(cfg, s) && 0 in s.requests && IsReplay(s.requests[0], kind, user, tenant)
  {
    WaitingAtParse(cfg, kind);
    s := ReplayedFrom(cfg, kind, true, user, tenant);
  }

  /** While a REST request was under way the tenant was switched; its response, whatever it was, is being discarded. */
  function SwitchedAway(cfg: ClientOptions): State {
    Fresh().(tenant := Some("t2"), requests := map[0 := ExampleReq(cfg, Rest, false, DiscardFirst)])
  }

  lemma SwitchedAwayReachable(cfg: ClientOptions, res: Response)
    ensures Reachable(cfg, SwitchedAway(cfg))
  {
    SentReachable(cfg, Rest);
    var s := Fresh().(requests := map[0 := ExampleReq(cfg, Rest, false, First)]);
    Step(cfg, s, External(SIGNED_IN, Some("t2")));
    var away := s.(tenant := Some("t2"));
    assert Next(cfg, s, External(SIGNED_IN, Some("t2"))) == away;
    Step(cfg, away, Reply(0, res, false));
    assert Next(cfg, away, Reply(0, res, false)) == SwitchedAway(cfg);
  }

  /**
   A switch back before the discard has finished revives the request: its response was discarded, it is refreshed all
   the same, and a second attempt is sent under the account and tenant of the first.
   */
  lemma SwitchBackReplays(cfg: ClientOptions, res: Response) returns (s: State)
    requires CanRefresh(cfg)
    ensures Reachable(cfg, SwitchedAway(cfg)) && SwitchedAway(cfg).requests[0].pc.DiscardFirst?
    ensures Reachable(cfg, s) && 0 in s.requests && IsReplay(s.requests[0], Rest, "a", Some("t1"))
  {
    SwitchedAwayReachable(cfg, res);
    var back := SwitchedAway(cfg).(tenant := Some("t1"));
    Step(cfg, SwitchedAway(cfg), External(SIGNED_IN, Some("t1")));
    assert Next(cfg, SwitchedAway(cfg), External(SIGNED_IN, Some("t1"))) == back;
    Step(cfg, back, Resume(0));
    assert Next(cfg, back, Resume(0)) == At(cfg, Rest, false, FirstStage(cfg));
    AnsweredReachable(cfg, Rest, false);
    s := ReplayedFrom(cfg, Rest, false, "a", Some("t1"));
  }

  function ReadingBody(cfg: ClientOptions, res: Response): State {
    Fresh().(requests := map[0 := ExampleReq(cfg, Rest, true, Reading(res))])
  }

  lemma AnsweredInScope(cfg: ClientOptions, res: Response)
    requires res.status != 401
    ensures Reachable(cfg, ReadingBody(cfg, res))
  {
    SentReachable(cfg, Rest);
    var sent := Fresh().(requests := map[0 := ExampleReq(cfg, Rest, false, First)]);
    Step(cfg, sent, Reply(0, res, false));
    assert Next(cfg, sent, Reply(0, res, false)) == ReadingBody(cfg, res);
  }

  /**
   A REST response whose headers arrived in scope is returned with its body although the tenant was switched before the
   body was read.
   */
  lemma LateBodyIsHandedOver(cfg: ClientOptions, res: Response) returns (s: State)
    requires res.status != 401
    ensures Reachable(cfg, s) && 0 in s.requests && !Current(cfg, s, s.requests[0]) && !s.requests[0].pc.Returned?
    ensures Reachable(cfg, Next(cfg, s, Resume(0))) && Next(cfg, s, Resume(0)).requests[0].pc == Returned(res)
  {
    AnsweredInScope(cfg, res);
    var reading := ReadingBody(cfg, res);
    Step(cfg, reading, External(SIGNED_IN, Some("t2")));
    s := reading.(tenant := Some("t2"));
    assert Next(cfg, reading, External(SIGNED_IN, Some("t2"))) == s;
    Step(cfg, s, Resume(0));
  }
}
