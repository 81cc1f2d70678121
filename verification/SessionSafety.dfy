/** What the session protocol guarantees over every run, and exactly which configuration it needs. */
module SessionSafety {
  import opened Options
  import opened SessionProtocol

  // ---- One burst of microtasks ----

  /** The queue of a burst: the waiters not yet woken, then the pending reset if a failure was notified. */
  function Queue(ids: seq<nat>, notified: bool): seq<Task> {
    WakeAll(ids) + if notified then [ResetNotified] else []
  }

  /** A settled outcome describes the session it left behind. */
  predicate OutcomeOk(s: State, outcome: Outcome) {
    outcome.Refreshed? ==>
      && s.auth.token.Some?
      && (outcome.response.Some? ==> s.auth.user == Some(outcome.response.value.user))
  }

  /** Inside a burst: the promise is settled and exactly `ids` still sleep. */
  ghost predicate BurstInv(cfg: ClientOptions, s: State, ids: seq<nat>) {
    && AuthOk(s.auth) && s.pending.None? && OneInFlight(s) && s.waiters == []
    && Distinct(ids)
    && (forall id | id in ids :: Sleeping(s, id))
    && (forall id | id in s.requests :: ReqOk(cfg, s.requests[id]) && (s.requests[id].pc.Waiting? ==> id in ids))
  }

  predicate Live(cfg: ClientOptions, s: State, id: nat, aborted: set<nat>)
  {
    id in s.requests && id !in aborted && Current(cfg, s, s.requests[id])
  }

  predicate SomeLive(cfg: ClientOptions, s: State, ids: seq<nat>, aborted: set<nat>) {
    exists id | id in ids :: Live(cfg, s, id, aborted)
  }

  /** A request that wakes to a refreshed session takes a token of the account it captured. */
  lemma WokenReqOk(cfg: ClientOptions, s: State, r: Req, outcome: Outcome, aborted: bool)
    requires AuthOk(s.auth) && OutcomeOk(s, outcome) && r.pc.Waiting? && ReqOk(cfg, r)
    ensures var r' := Woken(cfg, s, r, outcome, aborted);
            && ReqOk(cfg, r') && !r'.pc.Waiting?
            && (r'.pc.Notifying? <==> Permanent(outcome) && !aborted && Current(cfg, s, r))
  {}

  lemma WakeKeepsBurst(cfg: ClientOptions, s: State, s': State, ids: seq<nat>)
    requires ids != [] && BurstInv(cfg, s, ids) && ids[0] in s'.requests
    requires ReqOk(cfg, s'.requests[ids[0]]) && !s'.requests[ids[0]].pc.Waiting?
    requires s' == s.(requests := s.requests[ids[0] := s'.requests[ids[0]]],
                      failureNotified := s'.failureNotified, failures := s'.failures)
    ensures BurstInv(cfg, s', ids[1..])
  {
    var id := ids[0];
    forall k | k in ids[1..] ensures Sleeping(s', k) {
      var j :| 0 <= j < |ids| - 1 && ids[1..][j] == k;
      assert ids[j + 1] == k && Sleeping(s, k);
    }
    forall k | k in s'.requests ensures ReqOk(cfg, s'.requests[k]) && (s'.requests[k].pc.Waiting? ==> k in ids[1..]) {
      if k != id {
        assert ReqOk(cfg, s.requests[k]);
        if s.requests[k].pc.Waiting? {
          var j :| 0 <= j < |ids| && ids[j] == k;
          assert ids[1..][j - 1] == k;
        }
      }
    }
  }

  lemma QueueStep(ids: seq<nat>, notified: bool, becomes: bool)
    requires ids != [] && (notified ==> becomes)
    ensures Queue(ids, notified)[0] == Wake(ids[0])
    ensures Queue(ids, notified)[1..] + (if !notified && becomes then [ResetNotified] else [])
        == Queue(ids[1..], becomes)
  {
    assert WakeAll(ids) == [Wake(ids[0])] + WakeAll(ids[1..]);
  }

  lemma DrainWake(cfg: ClientOptions, s: State, ids: seq<nat>, outcome: Outcome, aborted: set<nat>)
    requires ids != [] && Sleeping(s, ids[0])
    ensures var s1 := WakeStep(cfg, s, ids[0], outcome, ids[0] in aborted);
            Drain(cfg, s, Queue(ids, s.failureNotified), outcome, aborted)
            == Drain(cfg, s1, Queue(ids[1..], s1.failureNotified), outcome, aborted)
  {
    var s1 := WakeStep(cfg, s, ids[0], outcome, ids[0] in aborted);
    QueueStep(ids, s.failureNotified, s1.failureNotified);
  }

  lemma DrainEnd(cfg: ClientOptions, s: State, outcome: Outcome, aborted: set<nat>)
    ensures Drain(cfg, s, Queue([], s.failureNotified), outcome, aborted) == s.(failureNotified := false)
  {
    assert WakeAll([]) == [];
    if s.failureNotified {
      assert Queue([], true) == [ResetNotified] && [ResetNotified][1..] == [];
      var r := s.(failureNotified := false);
      assert Drain(cfg, s, [ResetNotified], outcome, aborted) == Drain(cfg, r, [], outcome, aborted);
    } else {
      assert Queue([], false) == [];
    }
  }

  /** The part of the state a burst never touches. */
  predicate SameSurroundings(s: State, s': State, ids: seq<nat>) {
    && s'.auth == s.auth && s'.tenant == s.tenant && s'.pending == s.pending && s'.journeys == s.journeys
    && s'.verifying == s.verifying
    && s'.requests.Keys == s.requests.Keys
    && forall id | id in s.requests && id !in ids :: s'.requests[id] == s.requests[id]
  }

  predicate IsWoken(cfg: ClientOptions, s: State, s': State, id: nat, outcome: Outcome, aborted: set<nat>) {
    && Sleeping(s, id) && id in s'.requests
    && s'.requests[id] == Woken(cfg, s, s.requests[id], outcome, id in aborted)
  }

  /** All of ids see the same outcome, in the session that the settlement left. */
  predicate AllWoken(cfg: ClientOptions, s: State, s': State, ids: seq<nat>, outcome: Outcome, aborted: set<nat>) {
    forall id | id in ids :: IsWoken(cfg, s, s', id, outcome, aborted)
  }

  /** One wake-up, seen by the rest of the burst. */
  lemma WakeInBurst(cfg: ClientOptions, s: State, ids: seq<nat>, outcome: Outcome, aborted: set<nat>)
    returns (s1: State)
    requires ids != [] && BurstInv(cfg, s, ids) && OutcomeOk(s, outcome)
    ensures BurstInv(cfg, s1, ids[1..]) && OutcomeOk(s1, outcome) && SameSurroundings(s, s1, [ids[0]])
    ensures IsWoken(cfg, s, s1, ids[0], outcome, aborted)
    ensures Drain(cfg, s, Queue(ids, s.failureNotified), outcome, aborted)
         == Drain(cfg, s1, Queue(ids[1..], s1.failureNotified), outcome, aborted)
    ensures var notifies := Permanent(outcome) && Live(cfg, s, ids[0], aborted);
            && s1.failureNotified == (s.failureNotified || notifies)
            && s1.failures == s.failures + (if !s.failureNotified && notifies then 1 else 0)
  {
    assert ids[0] in ids;
    s1 := WakeOne(cfg, s, ids[0], outcome, aborted);
    WakeKeepsBurst(cfg, s, s1, ids);
    DrainWake(cfg, s, ids, outcome, aborted);
  }

  /** What one wake-up changes: the request, and the failure counters if it notifies. */
  lemma WakeOne(cfg: ClientOptions, s: State, id: nat, outcome: Outcome, aborted: set<nat>) returns (s1: State)
    requires AuthOk(s.auth) && OutcomeOk(s, outcome) && Sleeping(s, id) && ReqOk(cfg, s.requests[id])
    ensures s1 == WakeStep(cfg, s, id, outcome, id in aborted) && id in s1.requests
    ensures s1.requests[id] == Woken(cfg, s, s.requests[id], outcome, id in aborted)
    ensures ReqOk(cfg, s1.requests[id]) && !s1.requests[id].pc.Waiting?
    ensures s1 == s.(requests := s.requests[id := s1.requests[id]],
                     failureNotified := s1.failureNotified, failures := s1.failures)
    ensures var notifies := Permanent(outcome) && Live(cfg, s, id, aborted);
            && s1.failureNotified == (s.failureNotified || notifies)
            && s1.failures == s.failures + (if !s.failureNotified && notifies then 1 else 0)
  {
    s1 := WakeStep(cfg, s, id, outcome, id in aborted);
    WokenReqOk(cfg, s, s.requests[id], outcome, id in aborted);
  }

  /**
   A whole burst: every request that waited has left, the invariant holds again, and onAuthFailure ran once if the
   outcome is permanent and some waiter was still live, and not at all otherwise.
   */
  lemma {:induction false} BurstSettles(cfg: ClientOptions, s: State, ids: seq<nat>, outcome: Outcome,
      aborted: set<nat>)
    returns (s': State)
    requires BurstInv(cfg, s, ids) && OutcomeOk(s, outcome)
    ensures s' == Drain(cfg, s, Queue(ids, s.failureNotified), outcome, aborted)
    ensures Inv(cfg, s') && SameSurroundings(s, s', ids)
    ensures AllWoken(cfg, s, s', ids, outcome, aborted)
    ensures s'.failures == s.failures
              + (if !s.failureNotified && Permanent(outcome) && SomeLive(cfg, s, ids, aborted) then 1 else 0)
    decreases ids
  {
    if ids == [] {
      DrainEnd(cfg, s, outcome, aborted);
      s' := s.(failureNotified := false);
    } else {
      var s1 := WakeInBurst(cfg, s, ids, outcome, aborted);
      s' := BurstSettles(cfg, s1, ids[1..], outcome, aborted);
      SurroundingsCompose(s, s1, s', ids);
      WokenCompose(cfg, s, s1, s', ids, outcome, aborted);
      CountsCompose(cfg, s, s1, s', ids, outcome, aborted);
    }
  }

  lemma WokenCompose(cfg: ClientOptions, s: State, s1: State, s': State, ids: seq<nat>, outcome: Outcome,
      aborted: set<nat>)
    requires ids != [] && Distinct(ids) && (forall id | id in ids :: Sleeping(s, id))
    requires SameSurroundings(s, s1, [ids[0]]) && SameSurroundings(s1, s', ids[1..])
    requires IsWoken(cfg, s, s1, ids[0], outcome, aborted)
    requires AllWoken(cfg, s1, s', ids[1..], outcome, aborted)
    ensures AllWoken(cfg, s, s', ids, outcome, aborted)
  {
    assert ids[0] !in ids[1..];
    forall id | id in ids && id != ids[0] ensures IsWoken(cfg, s, s', id, outcome, aborted) {
      var j :| 0 <= j < |ids| && ids[j] == id;
      assert ids[1..][j - 1] == id;
      assert IsWoken(cfg, s1, s', id, outcome, aborted);
    }
  }

  lemma CountsCompose(cfg: ClientOptions, s: State, s1: State, s': State, ids: seq<nat>, outcome: Outcome,
      aborted: set<nat>)
    requires ids != [] && Distinct(ids) && SameSurroundings(s, s1, [ids[0]])
    requires var notifies := Permanent(outcome) && Live(cfg, s, ids[0], aborted);
             && s1.failureNotified == (s.failureNotified || notifies)
             && s1.failures == s.failures + (if !s.failureNotified && notifies then 1 else 0)
    requires s'.failures == s1.failures
               + (if !s1.failureNotified && Permanent(outcome) && SomeLive(cfg, s1, ids[1..], aborted) then 1 else 0)
    ensures s'.failures == s.failures
               + (if !s.failureNotified && Permanent(outcome) && SomeLive(cfg, s, ids, aborted) then 1 else 0)
  {
    LiveSplit(cfg, s, s1, ids, aborted);
  }

  lemma SurroundingsCompose(s: State, s1: State, s': State, ids: seq<nat>)
    requires ids != [] && SameSurroundings(s, s1, [ids[0]]) && SameSurroundings(s1, s', ids[1..])
    ensures SameSurroundings(s, s', ids)
  {
    forall id | id in s.requests && id !in ids ensures s'.requests[id] == s.requests[id] {
      assert id !in ids[1..] && id != ids[0];
    }
  }

  lemma LiveSplit(cfg: ClientOptions, s: State, s1: State, ids: seq<nat>, aborted: set<nat>)
    requires ids != [] && Distinct(ids) && s1.auth == s.auth && s1.tenant == s.tenant
    requires s1.requests.Keys == s.requests.Keys
    requires forall id | id in s.requests && id != ids[0] :: s1.requests[id] == s.requests[id]
    ensures SomeLive(cfg, s, ids, aborted) <==> Live(cfg, s, ids[0], aborted) || SomeLive(cfg, s1, ids[1..], aborted)
  {
    forall k | k in ids[1..] ensures k in ids && k != ids[0] && Live(cfg, s1, k, aborted) == Live(cfg, s, k, aborted) {
      var j :| 0 <= j < |ids| - 1 && ids[1..][j] == k;
      assert ids[j + 1] == k;
    }
    forall k | k in ids && k != ids[0] ensures k in ids[1..] {
      var j :| 0 <= j < |ids| && ids[j] == k;
      assert ids[1..][j - 1] == k;
    }
  }

  /** The state in which the burst starts. */
  function AfterLanding(s: State, j: nat, outcome: Outcome): State
    requires j < |s.journeys|
  {
    s.(pending := None, journeys := s.journeys[j := Landed(outcome)], waiters := [])
  }

  lemma {:induction false} AllAwait(s: State, ids: seq<nat>, j: nat)
    requires forall id | id in ids :: Awaits(s, id, j)
    ensures Awaiting(s, ids, j, true) == ids && Awaiting(s, ids, j, false) == []
  {
    if ids != [] {
      assert ids[0] in ids;
      AllAwait(s, ids[1..], j);
    }
  }

  lemma LandingKeepsBurst(cfg: ClientOptions, s: State, j: nat, outcome: Outcome)
    requires Inv(cfg, s) && InFlight(s, j)
    ensures BurstInv(cfg, AfterLanding(s, j, outcome), s.waiters)
  {
    var s1 := AfterLanding(s, j, outcome);
    forall k: nat ensures !InFlight(s1, k) {
      if k < |s.journeys| && k != j { assert InFlight(s1, k) == InFlight(s, k); }
    }
    forall id | id in s.waiters ensures Sleeping(s1, id) { assert WaitsForPending(s, id); }
  }

  /**
   Settlement: every waiter sees the same outcome, and for any number of waiters onAuthFailure runs at most once,
   exactly when the session is permanently lost and some waiter was neither aborted nor superseded.
   */
  lemma OneNotificationPerSettlement(cfg: ClientOptions, s: State, j: nat, outcome: Outcome, aborted: set<nat>)
    requires Inv(cfg, s) && OutcomeOk(s, outcome) && InFlight(s, j)
    ensures var s' := Settle(cfg, s, j, outcome, aborted);
            && Inv(cfg, s') && s'.pending.None? && SameSurroundings(AfterLanding(s, j, outcome), s', s.waiters)
            && AllWoken(cfg, s, s', s.waiters, outcome, aborted)
            && (forall id | id in s'.requests :: !s'.requests[id].pc.Waiting?)
            && s'.failures == s.failures + (if Permanent(outcome) && SomeLive(cfg, s, s.waiters, aborted) then 1 else 0)
  {
    var s1 := AfterLanding(s, j, outcome);
    SettleIsBurst(cfg, s, j, outcome, aborted);
    LandingKeepsBurst(cfg, s, j, outcome);
    var s' := BurstSettles(cfg, s1, s.waiters, outcome, aborted);
    SameRequests(cfg, s, s1, s', s.waiters, outcome, aborted);
  }

  /** Everybody who waits awaits the promise that settles. */
  lemma SettleIsBurst(cfg: ClientOptions, s: State, j: nat, outcome: Outcome, aborted: set<nat>)
    requires Inv(cfg, s) && InFlight(s, j)
    ensures Settle(cfg, s, j, outcome, aborted)
        == Drain(cfg, AfterLanding(s, j, outcome), Queue(s.waiters, false), outcome, aborted)
  {
    forall id | id in s.waiters ensures Awaits(s, id, j) { assert WaitsForPending(s, id); }
    AllAwait(s, s.waiters, j);
    assert WakeAll(s.waiters) == Queue(s.waiters, false);
  }

  lemma SameRequests(cfg: ClientOptions, s: State, s1: State, s': State, ids: seq<nat>, outcome: Outcome,
      aborted: set<nat>)
    requires s1.auth == s.auth && s1.tenant == s.tenant && s1.requests == s.requests
    ensures SomeLive(cfg, s1, ids, aborted) == SomeLive(cfg, s, ids, aborted)
    ensures AllWoken(cfg, s1, s', ids, outcome, aborted) ==> AllWoken(cfg, s, s', ids, outcome, aborted)
  {
    assert forall id :: Live(cfg, s1, id, aborted) == Live(cfg, s, id, aborted);
    assert forall id :: IsWoken(cfg, s1, s', id, outcome, aborted) == IsWoken(cfg, s, s', id, outcome, aborted);
  }

  // ---- Every step keeps the invariant ----

  /** Steps that move one request and nothing else. */
  lemma ReqStepKeeps(cfg: ClientOptions, s: State, s': State, id: nat)
    requires Inv(cfg, s) && id in s'.requests
    requires s' == s.(requests := s.requests[id := s'.requests[id]])
    requires ReqOk(cfg, s'.requests[id]) && !s'.requests[id].pc.Waiting?
    requires id in s.requests ==> !s.requests[id].pc.Waiting?
    ensures Inv(cfg, s')
  {
    SameFlights(s, s');
    forall k | k in s.waiters ensures WaitsForPending(s', k) { assert WaitsForPending(s, k); }
    forall k | k in s'.requests ensures ReqOk(cfg, s'.requests[k]) && (s'.requests[k].pc.Waiting? ==> k in s'.waiters) {
      if k != id { assert ReqOk(cfg, s.requests[k]); }
    }
  }

  lemma SameFlights(s: State, s': State)
    requires OneInFlight(s) && s'.pending == s.pending && s'.journeys == s.journeys
    ensures OneInFlight(s') && forall j: nat :: InFlight(s', j) == InFlight(s, j)
  {
    forall j: nat ensures InFlight(s', j) == InFlight(s, j) {}
  }

  lemma JoinKeeps(cfg: ClientOptions, s: State, id: nat, res: Response)
    requires Inv(cfg, s) && id in s.requests && !s.requests[id].pc.Waiting?
    requires res.body.Some? ==> s.requests[id].inScope
    ensures Inv(cfg, Join(cfg, s, id, res))
  {
    var s' := Join(cfg, s, id, res);
    assert ReqOk(cfg, s.requests[id]);
    assert id in s.waiters ==> WaitsForPending(s, id);
    JoinFlights(cfg, s, id, res);
    forall k | k in s'.waiters ensures WaitsForPending(s', k) { assert k != id ==> WaitsForPending(s, k); }
    forall k | k in s'.requests ensures ReqOk(cfg, s'.requests[k]) && (s'.requests[k].pc.Waiting? ==> k in s'.waiters) {
      if k != id { assert ReqOk(cfg, s.requests[k]); }
    }
  }

  /** Joining never starts a second refresh. */
  lemma JoinFlights(cfg: ClientOptions, s: State, id: nat, res: Response)
    requires Inv(cfg, s) && id in s.requests
    ensures var s' := Join(cfg, s, id, res);
            && OneInFlight(s')
            && (s.pending.Some? ==> s'.journeys == s.journeys)
            && forall j: nat | InFlight(s', j) :: s'.journeys[j].flight.identity.Some? == cfg.hasIdentity
  {
    var s' := Join(cfg, s, id, res);
    forall j: nat ensures InFlight(s', j) <==> InFlight(s, j) || (s.pending.None? && j == |s.journeys|) {}
    forall j: nat | InFlight(s, j) ensures s'.journeys[j] == s.journeys[j] {}
  }

  lemma ReplayOk(cfg: ClientOptions, s: State, r: Req)
    requires ReqOk(cfg, r) && r.pc.Cancelling?
    ensures ReqOk(cfg, r.(replay := Some(ReplayHeaders(s, r, r.pc.token)), pc := Replaying))
  {}

  lemma SetPcKeeps(cfg: ClientOptions, s: State, id: nat, pc: Pc)
    requires Inv(cfg, s) && id in s.requests && !s.requests[id].pc.Waiting? && !pc.Waiting? && !pc.Cancelling?
    requires HoldsBody(pc) ==> s.requests[id].inScope
    ensures Inv(cfg, SetPc(s, id, pc))
  {
    assert ReqOk(cfg, s.requests[id]);
    ReqStepKeeps(cfg, s, SetPc(s, id, pc), id);
  }

  lemma AfterFirstKeeps(cfg: ClientOptions, s: State, id: nat, res: Response)
    requires Inv(cfg, s) && id in s.requests && !s.requests[id].pc.Waiting?
    requires res.body.Some? ==> s.requests[id].inScope
    ensures Inv(cfg, AfterFirst(cfg, s, id, res))
  {
    var r := s.requests[id];
    if res.status == 401 && r.init.canRefresh && Current(cfg, s, r) {
      JoinKeeps(cfg, s, id, res);
    } else {
      SetPcKeeps(cfg, s, id, if r.init.kind == Rest then Reading(res) else Returned(res));
    }
  }

  lemma ArriveKeeps(cfg: ClientOptions, s: State, id: nat, res: Response, aborted: bool)
    requires Inv(cfg, s) && id in s.requests
    ensures Inv(cfg, Arrive(cfg, s, id, res, aborted))
  {
    var r := s.requests[id].(inScope := Current(cfg, s, s.requests[id]));
    assert ReqOk(cfg, s.requests[id]);
    if r.pc.First? || r.pc.Replaying? {
      var s1 := SetReq(s, id, r);
      ReqStepKeeps(cfg, s, s1, id);
      if r.pc.First? && aborted { SetPcKeeps(cfg, s1, id, Thrown); }
      else if !r.inScope { SetPcKeeps(cfg, s1, id, if r.pc.First? then DiscardFirst else DiscardReplay); }
      else if r.pc.First? { AfterFirstKeeps(cfg, s1, id, res); }
      else { SetPcKeeps(cfg, s1, id, if r.init.kind == Rest then Reading(res) else Returned(res)); }
    }
  }

  lemma ContinueKeeps(cfg: ClientOptions, s: State, id: nat)
    requires Inv(cfg, s) && id in s.requests
    ensures Inv(cfg, Continue(cfg, s, id))
  {
    var r := s.requests[id];
    assert ReqOk(cfg, r);
    match r.pc
    case DiscardFirst =>
      if r.init.kind == Rest {
        AfterFirstKeeps(cfg, s, id, EMPTY_401);
      } else {
        SetPcKeeps(cfg, s, id, Returned(EMPTY_401));
      }
    case DiscardWaiting => SetPcKeeps(cfg, s, id, Returned(EMPTY_401));
    case Notifying(res) => SetPcKeeps(cfg, s, id, if r.init.kind == Rest then Reading(res) else Returned(res));
    case Cancelling(token) =>
      ReplayOk(cfg, s, r);
      ReqStepKeeps(cfg, s, SetReq(s, id, r.(replay := Some(ReplayHeaders(s, r, token)), pc := Replaying)), id);
    case DiscardReplay =>
      SetPcKeeps(cfg, s, id, if r.init.kind == Rest then Reading(EMPTY_401) else Returned(EMPTY_401));
    case Reading(res) => SetPcKeeps(cfg, s, id, Returned(res));
    case _ =>
  }

  lemma AuthStepKeeps(cfg: ClientOptions, s: State, s': State)
    requires Inv(cfg, s) && AuthOk(s'.auth)
    requires s' == s.(auth := s'.auth, tenant := s'.tenant, verifying := s'.verifying)
    ensures Inv(cfg, s')
  {
    SameFlights(s, s');
    forall k | k in s'.requests ensures ReqOk(cfg, s'.requests[k]) { assert ReqOk(cfg, s.requests[k]); }
    forall k | k in s'.waiters ensures WaitsForPending(s', k) { assert WaitsForPending(s, k); }
  }

  lemma GoingKeeps(cfg: ClientOptions, s: State, j: nat, flight: Flight)
    requires Inv(cfg, s) && InFlight(s, j) && flight.identity == s.journeys[j].flight.identity
    ensures Inv(cfg, s.(journeys := s.journeys[j := Flying(flight)]))
  {
    var s' := s.(journeys := s.journeys[j := Flying(flight)]);
    forall k: nat ensures InFlight(s', k) == InFlight(s, k) {}
    forall k: nat | InFlight(s', k) ensures s'.journeys[k].flight.identity.Some? == cfg.hasIdentity {
      assert InFlight(s, k);
    }
    forall k | k in s'.requests ensures ReqOk(cfg, s'.requests[k]) { assert ReqOk(cfg, s.requests[k]); }
    forall k | k in s'.waiters ensures WaitsForPending(s', k) { assert WaitsForPending(s, k); }
  }

  lemma FlightOutcomeOk(cfg: ClientOptions, auth: Auth, f: Flight, e: FlightEvent)
    requires AuthOk(auth)
    ensures var (auth', result) := FlightStep(cfg, auth, f, e);
            && AuthOk(auth')
            && (result.Going? ==> result.flight.identity == f.identity)
            && (result.Settled? && result.outcome.Refreshed? ==>
                  && auth'.token.Some?
                  && (result.outcome.response.Some? ==> auth'.user == Some(result.outcome.response.value.user)))
  {}

  lemma RefreshKeeps(cfg: ClientOptions, s: State, j: nat, e: FlightEvent, aborted: set<nat>)
    requires Inv(cfg, s) && InFlight(s, j)
    ensures Inv(cfg, Next(cfg, s, Refresh(j, e, aborted)))
  {
    FlightOutcomeOk(cfg, s.auth, s.journeys[j].flight, e);
    var (auth, result) := FlightStep(cfg, s.auth, s.journeys[j].flight, e);
    var s1 := s.(auth := auth);
    AuthStepKeeps(cfg, s, s1);
    assert InFlight(s1, j);
    if result.Going? {
      GoingKeeps(cfg, s1, j, result.flight);
    } else {
      OneNotificationPerSettlement(cfg, s1, j, result.outcome, aborted);
    }
  }

  lemma NextKeepsInv(cfg: ClientOptions, s: State, e: Event)
    requires Inv(cfg, s)
    ensures Inv(cfg, Next(cfg, s, e))
  {
    var s' := Next(cfg, s, e);
    match e
    case External(_, _) => AuthStepKeeps(cfg, s, s');
    case Send(id, init) =>
      if id !in s.requests {
        assert id in s.waiters ==> WaitsForPending(s, id);
        ReqStepKeeps(cfg, s, s', id);
      }
    case Reply(id, res, aborted) => if id in s.requests { ArriveKeeps(cfg, s, id, res, aborted); }
    case Fail(id) => if s' != s { assert ReqOk(cfg, s.requests[id]); ReqStepKeeps(cfg, s, s', id); }
    case Resume(id) => if id in s.requests { ContinueKeeps(cfg, s, id); }
    case Refresh(j, fe, aborted) => if InFlight(s, j) { RefreshKeeps(cfg, s, j, fe, aborted); }
    case VerifyStart => AuthStepKeeps(cfg, s, s');
    case VerifyReply(_) => AuthStepKeeps(cfg, s, s');
  }

  lemma {:induction false} RunKeepsInv(cfg: ClientOptions, s: State, es: seq<Event>)
    requires Inv(cfg, s)
    ensures Inv(cfg, Run(cfg, s, es))
    decreases es
  {
    if es != [] {
      NextKeepsInv(cfg, s, es[0]);
      RunKeepsInv(cfg, Next(cfg, s, es[0]), es[1..]);
    }
  }
}
