/**
 The API client and the bootstrap as objects: the coordinator's closure state, the auth store and the requests in
 progress. Each method is the code between two awaits and is proved to be one step of the session protocol.
 */
module SessionClients {
  import opened Options
  import opened SessionProtocol

  class ApiClient {
    const cfg: ClientOptions
    var auth: Auth
    var tenant: Option<string>
    var pending: Option<nat>
    /** Every call of coordinateRefresh so far. */
    var journeys: seq<Journey>
    var waiters: seq<nat>
    var failureNotified: bool
    var failures: nat
    var requests: map<nat, Req>
    var verifying: bool

    function View(): State reads this {
      State(auth, tenant, pending, journeys, waiters, failureNotified, failures, requests, verifying)
    }

    constructor (cfg: ClientOptions, auth: Auth, tenant: Option<string>)
      requires AuthOk(auth)
      ensures this.cfg == cfg && Init0(View()) && this.auth == auth && this.tenant == tenant
    {
      this.cfg, this.auth, this.tenant := cfg, auth, tenant;
      pending, journeys, waiters := None, [], [];
      failureNotified, failures, requests, verifying := false, 0, map[], false;
    }

    method MoveTo(id: nat, pc: Pc)
      requires id in requests
      modifies this`requests
      ensures View() == SetPc(old(View()), id, pc)
    {
      requests := requests[id := requests[id].(pc := pc)];
    }

    // ---- refresh-coordinator.ts ----

    /** refresh(): `pending ??= coordinateRefresh()`, then wait for it. */
    method AwaitRefresh(id: nat, res: Response)
      requires id in requests
      modifies this`requests, this`pending, this`journeys, this`waiters
      ensures View() == Join(cfg, old(View()), id, res)
    {
      if pending.None? {
        var stage := Fetching;
        if cfg.browser {
          stage := LockWait;
          if !cfg.locks { stage := NoLocks; }
        }
        pending := Some(|journeys|);
        journeys := journeys + [Flying(Flight(cfg.Mark(auth), auth.token, cfg.Identity(auth), stage))];
      }
      MoveTo(id, Waiting(res, pending.value));
      waiters := waiters + [id];
    }

    /** handleFailure(): tells the caller whether it queued the microtask that clears the flag. */
    method HandleFailure() returns (queued: bool)
      modifies this`failureNotified, this`failures
      ensures View() == Notify(old(View()))
      ensures queued == Queues(old(View()), View())
    {
      if failureNotified { return false; }
      failureNotified := true;
      failures := failures + 1;
      return true;
    }

    /** The code after `await coordinator.refresh()` of one request, up to its next await. */
    method WakeUp(id: nat, outcome: Outcome, aborted: bool) returns (queued: bool)
      requires Sleeping(View(), id)
      modifies this`requests, this`failureNotified, this`failures
      ensures View() == WakeStep(cfg, old(View()), id, outcome, aborted)
      ensures queued == Queues(old(View()), View())
    {
      queued := false;
      var r := requests[id];
      if aborted { MoveTo(id, Thrown); return; }
      if !(cfg.Identity(auth) == r.identity && tenant == r.tenant) { MoveTo(id, DiscardWaiting); return; }
      if !outcome.Refreshed? {
        if outcome.InvalidSession? || outcome.Unsupported? {
          MoveTo(id, Notifying(r.pc.first));
          queued := HandleFailure();
        } else if r.init.kind == Rest {
          MoveTo(id, Reading(r.pc.first));
        } else {
          MoveTo(id, Returned(r.pc.first));
        }
        return;
      }
      var token := auth.token;
      if outcome.response.Some? { token := Some(outcome.response.value.AccessToken()); }
      var headers := r.headers;
      if token.Some? { headers := headers.(authorization := Some(Bearer(token.value))); }
      requests := requests[id := r.(headers := headers, pc := Cancelling(token))];
    }

    /** One promise settles: its `finally` clears `pending`, its waiters wake, and the microtask queue runs dry. */
    method SettlePending(journey: nat, outcome: Outcome, aborted: set<nat>)
      requires journey < |journeys|
      modifies this
      ensures View() == Settle(cfg, old(View()), journey, outcome, aborted)
    {
      var queue := WakeAll(Awaiting(View(), waiters, journey, true));
      waiters := Awaiting(View(), waiters, journey, false);
      pending, journeys := None, journeys[journey := Landed(outcome)];
      while queue != []
        invariant Drain(cfg, View(), queue, outcome, aborted) == Settle(cfg, old(View()), journey, outcome, aborted)
        decreases Wakes(queue) + |queue|
      {
        var task := queue[0];
        WakesIgnoreReset(queue[1..]);
        queue := queue[1..];
        match task
        case ResetNotified => failureNotified := false;
        case Wake(id) =>
          if id in requests && requests[id].pc.Waiting? {
            var queued := WakeUp(id, outcome, id in aborted);
            if queued { queue := queue + [ResetNotified]; }
          }
      }
    }

    /** One continuation of coordinateRefresh / requestRefresh. */
    method ContinueRefresh(journey: nat, e: FlightEvent, aborted: set<nat>)
      modifies this
      ensures View() == Next(cfg, old(View()), Refresh(journey, e, aborted))
    {
      if !InFlight(View(), journey) { return; }
      var f := journeys[journey].flight;
      var changed := ResolveChangedIdentity(cfg, auth, f);
      var next := f;
      var outcome := None;
      match (f.stage, e) {
        case (NoLocks, LocksMissing) => outcome := Some(Unsupported);
        case (LockWait, LockGranted) =>
          if changed.Some? { outcome := changed; } else { next := f.(stage := Fetching); }
        case (LockWait, Rejected(abort)) => outcome := Some(Retryable(if abort then LockTimeout else Network));
        case (Fetching, HttpReply(status)) =>
          if changed.Some? { outcome := changed; }
          else if status in {400, 401, 403} { outcome := Some(InvalidSession); }
          else if !(200 <= status < 300) { outcome := Some(Retryable(Server)); }
          else { next := f.(stage := Parsing); }
        case (Fetching, Rejected(abort)) => outcome := Some(Retryable(if abort then Timeout else Network));
        case (Parsing, Parsed(response)) =>
          if response.None? { outcome := Some(Retryable(Server)); }
          else if changed.Some? { outcome := changed; }
          else if f.identity.Some? && f.identity.value.Some? && response.value.user != f.identity.value.value {
            outcome := Some(Superseded);
          } else {
            auth := Auth(Authenticated, Some(response.value.user), Some(response.value.AccessToken()));
            outcome := Some(Refreshed(response));
          }
        case (Parsing, Rejected(abort)) => outcome := Some(Retryable(if abort then Timeout else Network));
        case _ =>
      }
      if outcome.None? {
        journeys := journeys[journey := Flying(next)];
      } else {
        SettlePending(journey, outcome.value, aborted);
      }
    }

    // ---- index.ts and orpc.ts ----

    /** The request is built and sent. */
    method StartRequest(id: nat, init: Init)
      requires id !in requests
      modifies this`requests
      ensures View() == Next(cfg, old(View()), Send(id, init))
    {
      var headers := init.given;
      var own := if auth.token.Some? then Some(Bearer(auth.token.value)) else None;
      if init.kind == Rest {
        if own.Some? && !Given(headers.authorization) { headers := headers.(authorization := own); }
        if Truthy(tenant) && !Truthy(headers.tenant) { headers := headers.(tenant := tenant); }
        if init.mutating && !Truthy(headers.key) { headers := headers.(key := Some(init.freshKey)); }
      } else {
        if own.Some? { headers := headers.(authorization := own); }
        if Truthy(tenant) { headers := headers.(tenant := tenant); }
        if init.mutating && headers.key.None? { headers := headers.(key := Some(init.freshKey)); }
      }
      var r := Req(init, cfg.Identity(auth), tenant, auth.user, headers, headers, None, false, First);
      requests := requests[id := r];
    }

    /** The scope of the first response was checked: refresh on a 401 that may refresh, else read the body. */
    method UseFirst(id: nat, res: Response)
      requires id in requests
      modifies this`requests, this`pending, this`journeys, this`waiters
      ensures View() == AfterFirst(cfg, old(View()), id, res)
    {
      var r := requests[id];
      if res.status == 401 && r.init.canRefresh && cfg.Identity(auth) == r.identity && tenant == r.tenant {
        AwaitRefresh(id, res);
      } else if r.init.kind == Rest {
        MoveTo(id, Reading(res));
      } else {
        MoveTo(id, Returned(res));
      }
    }

    /** Response headers arrive, for the first attempt or for the replay. */
    method OnResponse(id: nat, res: Response, aborted: bool)
      requires id in requests
      modifies this`requests, this`pending, this`journeys, this`waiters
      ensures View() == Arrive(cfg, old(View()), id, res, aborted)
    {
      var r := requests[id];
      if !r.pc.First? && !r.pc.Replaying? { return; }
      var current := cfg.Identity(auth) == r.identity && tenant == r.tenant;
      requests := requests[id := r.(inScope := current)];
      if r.pc.First? {
        if aborted { MoveTo(id, Thrown); }
        else if !current { MoveTo(id, DiscardFirst); }
        else { UseFirst(id, res); }
      } else if !current {
        MoveTo(id, DiscardReplay);
      } else if r.init.kind == Rest {
        MoveTo(id, Reading(res));
      } else {
        MoveTo(id, Returned(res));
      }
    }

    /** Any other await finishes: a discard, a notification, the cancel before a replay, or the body. */
    method OnResume(id: nat)
      requires id in requests
      modifies this`requests, this`pending, this`journeys, this`waiters
      ensures View() == Continue(cfg, old(View()), id)
    {
      var r := requests[id];
      match r.pc {
        case DiscardFirst =>
          if r.init.kind == Rest { UseFirst(id, EMPTY_401); } else { MoveTo(id, Returned(EMPTY_401)); }
        case DiscardWaiting => MoveTo(id, Returned(EMPTY_401));
        case Notifying(res) => if r.init.kind == Rest { MoveTo(id, Reading(res)); } else { MoveTo(id, Returned(res)); }
        case Cancelling(token) =>
          var headers := r.headers;
          if r.init.kind == Orpc {
            headers := r.first;
            var use := if token.Some? then token else auth.token;
            if use.Some? { headers := headers.(authorization := Some(Bearer(use.value))); }
            if Truthy(tenant) { headers := headers.(tenant := tenant); }
          }
          requests := requests[id := r.(replay := Some(headers), pc := Replaying)];
        case DiscardReplay =>
          if r.init.kind == Rest { MoveTo(id, Reading(EMPTY_401)); } else { MoveTo(id, Returned(EMPTY_401)); }
        case Reading(res) => MoveTo(id, Returned(res));
        case _ =>
      }
    }

    // ---- session-bootstrap.ts: auth/me has answered ----

    method FinishVerification(user: Option<UserId>) returns (verified: bool)
      requires verifying
      modifies this`auth, this`verifying
      ensures View() == Next(cfg, old(View()), VerifyReply(user))
      ensures verified == (auth.status == Authenticated)
    {
      verifying := false;
      if auth.status != Loading { return auth.status == Authenticated; }
      if user.Some? {
        auth := auth.(user := user, status := Authenticated);
        return true;
      }
      return false;
    }
  }
}
