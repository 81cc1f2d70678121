/**
 The store and the interceptor as they are written: straight-line code with awaits.

 The object is the Redis cell of one key together with the clock and the requests of the deployment. Every
 await takes a `Turn`: what everybody else does before and after Redis runs the command, whether either leg of
 the network fails, and whether the Redis client is ready when the code continues. Each method is proved to be a
 run of the step machine, so the theorems of IdempotencySafety hold of it.
 */
module IdempotencyStores {
  import opened Options
  import opened IdempotencyRecords
  import opened IdempotencyProtocol
  import opened IdempotencySafety
  import opened IdempotencyRetries

  /** What claimOrRead gives its caller: undefined, a stored body, or an exception. */
  datatype ClaimResult = Undefined | Value(body: string) | Throws(outcome: Outcome)

  datatype HandlerResult = Returned(body: Body) | Threw

  /** Where a request stands once claimOrRead has returned or thrown. */
  function PcOf(result: ClaimResult): Pc {
    match result
    case Undefined => Handling
    case Value(body) => Finished(Replayed(body))
    case Throws(outcome) => Finished(outcome)
  }

  /** claimOrRead throws only conflicts, the in-progress answer and store failures. */
  predicate Expected(result: ClaimResult) {
    result.Throws? ==> result.outcome.Conflict? || result.outcome.InProgress? || result.outcome.StoreError?
  }

  ghost predicate ForeignTurns(turns: nat -> Turn, id: ClaimId) {
    forall k: nat :: Others(turns(k), id)
  }

  lemma TripRegroups(past: seq<Event>, id: ClaimId, t: Turn)
    ensures past + t.before + [Execute(id, t.reached, t.answered)] + t.after + [Resume(id, t.up)] == past + Trip(id, t)
  {}

  /**
   How claimOrRead's run begins: with the trip of its SET NX, then, unless that settled the matter, with that of its
   GET.
   */
  ghost predicate BeginsWithTrips(cfg: Config, start: State, past: seq<Event>, trace: seq<Event>, id: ClaimId,
      claim: Turn, read: Turn, result: ClaimResult)
  {
    var s := Run(cfg, start, past + Trip(id, claim));
    && past + Trip(id, claim) <= trace
    && id in s.clients
    && (s.clients[id].pc == Handling ==> result.Undefined? && trace == past + Trip(id, claim))
    && (s.clients[id].pc.Sent? ==> past + Trip(id, claim) + Trip(id, read) <= trace)
  }

  class IdempotencyStore {
    const cfg: Config
    var entry: Option<Entry>
    var now: int
    var clients: map<ClaimId, Client>

    function View(): State reads this { State(entry, now, clients) }

    constructor (cfg: Config, now: int)
      ensures this.cfg == cfg && View() == State(None, now, map[]) && Init(View())
    {
      this.cfg := cfg;
      this.entry := None;
      this.now := now;
      this.clients := map[];
    }

    // ---- The commands Redis runs ----

    method SetNx(record: Raw) returns (reply: Reply)
      modifies this`entry
      ensures (entry, reply) == Perform(cfg, old(entry), now, Command.SetNx(record))
    {
      if entry.Some? { return Refused; }
      entry := Some(Entry(record, now + cfg.processingTtl * MILLISECONDS_PER_SECOND));
      return Applied;
    }

    method Get() returns (reply: Reply)
      ensures (entry, reply) == Perform(cfg, entry, now, Command.Get)
    {
      if entry.None? { return Refused; }
      return Found(entry.value.raw);
    }

    method RecoverScript(expected: Raw, replacement: Raw) returns (reply: Reply)
      modifies this`entry
      ensures (entry, reply) == Perform(cfg, old(entry), now, Recover(expected, replacement))
    {
      if entry.None? || entry.value.raw != expected { return Refused; }
      entry := Some(Entry(replacement, now + cfg.processingTtl * MILLISECONDS_PER_SECOND));
      return Applied;
    }

    method FinalizeScript(claimId: ClaimId, record: Raw) returns (reply: Reply)
      modifies this`entry
      ensures (entry, reply) == Perform(cfg, old(entry), now, Finalize(claimId, record))
    {
      if entry.None? { return Refused; }
      var current := entry.value.raw;
      if current.Unreadable? && !current.isObject { return Failed; }
      if !current.Processing? || current.claimId != claimId { return Refused; }
      entry := Some(Entry(record, now + cfg.ttl * MILLISECONDS_PER_SECOND));
      return Applied;
    }

    method ReleaseScript(claimId: ClaimId) returns (reply: Reply)
      modifies this`entry
      ensures (entry, reply) == Perform(cfg, old(entry), now, Release(claimId))
    {
      if entry.None? { return Refused; }
      var current := entry.value.raw;
      if current.Unreadable? && !current.isObject { return Failed; }
      if !current.Processing? || current.claimId != claimId { return Refused; }
      entry := None;
      return Applied;
    }

    /** What everybody else does while this request is suspended. */
    method Interfere(es: seq<Event>)
      modifies this
      ensures View() == Run(cfg, old(View()), es)
    {
      var i := 0;
      assert es[0..] == es;
      while i < |es|
        invariant 0 <= i <= |es|
        invariant Run(cfg, View(), es[i..]) == Run(cfg, old(View()), es)
      {
        assert es[i..][0] == es[i] && es[i..][1..] == es[i + 1..];
        var s := Next(cfg, View(), es[i]);
        entry, now, clients := s.entry, s.now, s.clients;
        i := i + 1;
      }
    }

    /** Redis runs the pending command of request id, unless the network loses it. */
    method RunPending(id: ClaimId, stage: Stage, reached: bool, answered: bool) returns (reply: Reply)
      requires id in clients && clients[id].pc == Sent(stage)
      modifies this
      ensures View() == Next(cfg, old(View()), Execute(id, reached, answered))
      ensures id in clients && clients[id].pc == Answered(stage, reply)
      ensures clients[id].fingerprint == old(clients[id].fingerprint)
      ensures clients[id].produced == old(clients[id].produced)
    {
      var c := clients[id];
      reply := Failed;
      if reached {
        match CommandOf(id, c.fingerprint, stage) {
          case SetNx(record) => reply := SetNx(record);
          case Get => reply := Get();
          case Recover(expected, replacement) => reply := RecoverScript(expected, replacement);
          case Finalize(claimId, record) => reply := FinalizeScript(claimId, record);
          case Release(claimId) => reply := ReleaseScript(claimId);
        }
        c := Settle(c, stage, reply.Applied?);
        if !answered { reply := Failed; }
      }
      clients := clients[id := c.(pc := Answered(stage, reply))];
    }

    /** Await one command: the others act, Redis runs it, the others act again, and the code wakes with the reply. */
    method Await(id: ClaimId, stage: Stage, turn: Turn, ghost start: State, ghost past: seq<Event>)
      returns (reply: Reply, ghost trace: seq<Event>)
      requires id in clients && clients[id].pc == Sent(stage)
      requires Others(turn, id)
      requires View() == Run(cfg, start, past)
      modifies this
      ensures View() == Run(cfg, start, trace)
      ensures trace == past + turn.before + [Execute(id, turn.reached, turn.answered)] + turn.after
      ensures id in clients && clients[id].pc == Answered(stage, reply)
      ensures clients[id].fingerprint == old(clients[id].fingerprint)
      ensures clients[id].produced == old(clients[id].produced)
    {
      ForeignKeepsClient(cfg, View(), turn.before, id);
      RunConcat(cfg, start, past, turn.before);
      Interfere(turn.before);
      trace := past + turn.before;
      RunSnoc(cfg, start, trace, Execute(id, turn.reached, turn.answered));
      reply := RunPending(id, stage, turn.reached, turn.answered);
      trace := trace + [Execute(id, turn.reached, turn.answered)];
      ForeignKeepsClient(cfg, View(), turn.after, id);
      RunConcat(cfg, start, trace, turn.after);
      Interfere(turn.after);
      trace := trace + turn.after;
    }

    /** The code that ran since the reply arrived has reached `pc`: its next await, the handler, or its end. */
    method MoveTo(id: ClaimId, up: bool, pc: Pc, ghost start: State, ghost past: seq<Event>)
      returns (ghost trace: seq<Event>)
      requires id in clients && clients[id].pc.Answered?
      requires pc == Continue(cfg, clients[id].fingerprint, now, clients[id].pc.stage, clients[id].pc.reply, up)
      requires View() == Run(cfg, start, past)
      modifies this`clients
      ensures View() == Run(cfg, start, trace)
      ensures trace == past + [Resume(id, up)]
      ensures clients == old(clients)[id := old(clients)[id].(pc := pc)]
    {
      RunSnoc(cfg, start, past, Resume(id, up));
      clients := clients[id := clients[id].(pc := pc)];
      trace := past + [Resume(id, up)];
    }

    // ---- claimOrRead ----

    method ClaimOrRead(id: ClaimId, f: Fingerprint, attempt: nat, up: bool, turns: nat -> Turn,
                       ghost start: State, ghost past: seq<Event>)
      returns (result: ClaimResult, ghost trace: seq<Event>)
      requires attempt <= 2 && id in clients && clients[id].fingerprint == f && ForeignTurns(turns, id)
      requires clients[id].pc == BeginClaim(now, attempt, up)
      requires View() == Run(cfg, start, past)
      modifies this
      ensures View() == Run(cfg, start, trace)
      ensures id in clients && clients[id].fingerprint == f && clients[id].pc == PcOf(result) && Expected(result)
      ensures past <= trace
      ensures up ==> BeginsWithTrips(cfg, start, past, trace, id, turns(3 * attempt), turns(3 * attempt + 1), result)
      decreases 3 - attempt, 1
    {
      if !up { return Undefined, past; }
      var now0 := now;
      var claimed;
      claimed, trace := Await(id, Claim(now0, attempt), turns(3 * attempt), start, past);
      var ready := turns(3 * attempt).up;
      TripRegroups(past, id, turns(3 * attempt));
      if claimed == Failed {
        trace := MoveTo(id, ready, Finished(StoreError), start, trace);
        return Throws(StoreError), trace;
      }
      if claimed == Applied {
        trace := MoveTo(id, ready, Handling, start, trace);
        return Undefined, trace;
      }
      trace := MoveTo(id, ready, Sent(Read(now0, attempt)), start, trace);

      assert trace == past + Trip(id, turns(3 * attempt));
      result, trace := ReadRecord(id, f, now0, attempt, turns, start, trace);
    }

    /** claimOrRead from its GET on. */
    method ReadRecord(id: ClaimId, f: Fingerprint, now0: int, attempt: nat, turns: nat -> Turn,
                      ghost start: State, ghost past: seq<Event>)
      returns (result: ClaimResult, ghost trace: seq<Event>)
      requires attempt <= 2 && id in clients && clients[id].fingerprint == f && ForeignTurns(turns, id)
      requires clients[id].pc == Sent(Read(now0, attempt))
      requires View() == Run(cfg, start, past)
      modifies this
      ensures View() == Run(cfg, start, trace)
      ensures id in clients && clients[id].fingerprint == f && clients[id].pc == PcOf(result) && Expected(result)
      ensures past + Trip(id, turns(3 * attempt + 1)) <= trace
      decreases 3 - attempt, 0, 2
    {
      var raw;
      raw, trace := Await(id, Read(now0, attempt), turns(3 * attempt + 1), start, past);
      var ready := turns(3 * attempt + 1).up;
      TripRegroups(past, id, turns(3 * attempt + 1));
      if raw == Failed {
        trace := MoveTo(id, ready, Finished(StoreError), start, trace);
        return Throws(StoreError), trace;
      }
      if !raw.Found? || IsEmptyText(raw.raw) {
        result, trace := RetryClaim(id, f, attempt, ready, turns, start, trace);
        return;
      }
      result, trace := UseRecord(id, f, now0, attempt, ready, raw.raw, turns, start, trace);
    }

    /** The second half of claimOrRead, once a record was read. */
    method UseRecord(id: ClaimId, f: Fingerprint, now0: int, attempt: nat, up: bool, record: Raw, turns: nat -> Turn,
                     ghost start: State, ghost past: seq<Event>)
      returns (result: ClaimResult, ghost trace: seq<Event>)
      requires attempt <= 2 && id in clients && clients[id].fingerprint == f && ForeignTurns(turns, id)
      requires clients[id].pc == Answered(Read(now0, attempt), Found(record)) && !IsEmptyText(record)
      requires View() == Run(cfg, start, past)
      modifies this
      ensures View() == Run(cfg, start, trace)
      ensures id in clients && clients[id].fingerprint == f && clients[id].pc == PcOf(result) && Expected(result)
      ensures past + [Resume(id, up)] <= trace
      decreases 3 - attempt, 0, 1
    {
      result := Throws(Conflict(RecordInvalid));
      if Parses(record) {
        var age := if record.Processing? then now0 - record.startedAt else 0;
        if record.fingerprint != f {
          result := Throws(Conflict(KeyReused));
        } else if record.Completed? {
          result := if !record.replayable then Throws(Conflict(ResponseUnavailable)) else Value(record.body);
        } else if age < cfg.staleAfter * MILLISECONDS_PER_SECOND {
          result := Throws(InProgress(RetryAfterMs(cfg, age)));
        } else {
          trace := MoveTo(id, up, Sent(Takeover(now0, attempt, record)), start, past);
          var recovered;
          recovered, trace := Await(id, Takeover(now0, attempt, record), turns(3 * attempt + 2), start, trace);
          var ready := turns(3 * attempt + 2).up;
          if recovered == Failed {
            trace := MoveTo(id, ready, Finished(StoreError), start, trace);
            return Throws(StoreError), trace;
          }
          if recovered == Applied {
            trace := MoveTo(id, ready, Handling, start, trace);
            return Undefined, trace;
          }
          result, trace := RetryClaim(id, f, attempt, ready, turns, start, trace);
          return;
        }
      }
      trace := MoveTo(id, up, PcOf(result), start, past);
    }

    method RetryClaim(id: ClaimId, f: Fingerprint, attempt: nat, up: bool, turns: nat -> Turn,
                      ghost start: State, ghost past: seq<Event>)
      returns (result: ClaimResult, ghost trace: seq<Event>)
      requires attempt <= 2 && id in clients && clients[id].fingerprint == f && ForeignTurns(turns, id)
      requires clients[id].pc.Answered?
      requires Continue(cfg, f, now, clients[id].pc.stage, clients[id].pc.reply, up)
          == IdempotencyProtocol.RetryClaim(now, attempt, up)
      requires View() == Run(cfg, start, past)
      modifies this
      ensures View() == Run(cfg, start, trace)
      ensures id in clients && clients[id].fingerprint == f && clients[id].pc == PcOf(result) && Expected(result)
      ensures past + [Resume(id, up)] <= trace
      decreases 3 - attempt, 0, 0
    {
      if attempt >= 2 {
        trace := MoveTo(id, up, Finished(Conflict(RecordInvalid)), start, past);
        return Throws(Conflict(RecordInvalid)), trace;
      }
      trace := MoveTo(id, up, BeginClaim(now, attempt + 1, up), start, past);
      result, trace := ClaimOrRead(id, f, attempt + 1, up, turns, start, trace);
    }

    // ---- cacheResponse and release ----

    /** release(): errors are swallowed, so the caller always goes on to `after`. */
    method Finish(id: ClaimId, after: Outcome, turn: Turn, ghost start: State, ghost past: seq<Event>)
      returns (ghost trace: seq<Event>)
      requires id in clients && (clients[id].pc == Sent(Drop(after)) || clients[id].pc == Finished(after))
      requires Others(turn, id)
      requires View() == Run(cfg, start, past)
      modifies this
      ensures View() == Run(cfg, start, trace) && past <= trace
      ensures id in clients && clients[id].pc == Finished(after)
    {
      trace := past;
      if clients[id].pc == Sent(Drop(after)) {
        var reply;
        reply, trace := Await(id, Drop(after), turn, start, trace);
        trace := MoveTo(id, turn.up, Finished(after), start, trace);
      }
    }

    /** cacheResponse() with the catchError that follows it in the interceptor. */
    method CacheResponse(id: ClaimId, body: Body, up: bool, finalizing: Turn, releasing: Turn,
                         ghost start: State, ghost past: seq<Event>)
      returns (outcome: Outcome, ghost trace: seq<Event>)
      requires id in clients && clients[id].pc == Handling
      requires Others(finalizing, id) && Others(releasing, id)
      requires View() == Run(cfg, start, past)
      modifies this
      ensures View() == Run(cfg, start, trace) && past <= trace
      ensures id in clients && clients[id].pc == Finished(outcome)
      ensures outcome == StoreError || outcome == Responded
      ensures outcome == StoreError ==> body.Unserializable?
    {
      var c := clients[id];
      RunSnoc(cfg, start, past, HandlerReturns(id, body, up));
      trace := past + [HandlerReturns(id, body, up)];
      var record := Completed(c.fingerprint, "null", 0, now, false);
      outcome := Responded;
      if body.Unserializable? {
        outcome := StoreError;
      } else {
        record := Completed(c.fingerprint, body.text, Utf8Length(body.text), now, true);
      }
      if !up {
        clients := clients[id := c.(pc := Finished(Responded), produced := Some(body))];
        return Responded, trace;
      }
      if body.Serializable? && Utf8Length(body.text) > cfg.maxBytes {
        clients := clients[id := c.(pc := Sent(Drop(Responded)), produced := Some(body))];
        trace := Finish(id, Responded, releasing, start, trace);
        return Responded, trace;
      }
      clients := clients[id := c.(pc := Sent(Store(record, outcome)), produced := Some(body))];
      var reply;
      reply, trace := Await(id, Store(record, outcome), finalizing, start, trace);
      if reply != Failed {
        trace := MoveTo(id, finalizing.up, Finished(Responded), start, trace);
        return Responded, trace;
      }
      trace := MoveTo(id, finalizing.up, BeginRelease(outcome, finalizing.up), start, trace);
      trace := Finish(id, outcome, releasing, start, trace);
    }

    // ---- The interceptor ----

    /** The pipe behind next.handle(): the handler, then cacheResponse or release. */
    method RunHandler(id: ClaimId, handling: Turn, result: HandlerResult, up: bool, finalizing: Turn, releasing: Turn,
                      ghost start: State, ghost past: seq<Event>)
      returns (outcome: Outcome, ghost trace: seq<Event>)
      requires id in clients && clients[id].pc == Handling && Foreign(handling.before, id)
      requires Others(finalizing, id) && Others(releasing, id)
      requires View() == Run(cfg, start, past)
      modifies this
      ensures View() == Run(cfg, start, trace) && past <= trace
      ensures id in clients && clients[id].pc == Finished(outcome)
      ensures HandlerAnswers(result, outcome)
    {
      ForeignKeepsClient(cfg, View(), handling.before, id);
      RunConcat(cfg, start, past, handling.before);
      Interfere(handling.before);
      trace := past + handling.before;
      if result.Returned? {
        outcome, trace := CacheResponse(id, result.body, up, finalizing, releasing, start, trace);
      } else {
        RunSnoc(cfg, start, trace, HandlerThrows(id, up));
        trace := trace + [HandlerThrows(id, up)];
        clients := clients[id := clients[id].(pc := BeginRelease(HandlerFailed, up))];
        trace := Finish(id, HandlerFailed, releasing, start, trace);
        outcome := HandlerFailed;
      }
    }

    /**
     One intercepted request from arrival to answer, beside any behaviour of all the others. Whatever happens,
     the deployment has only made a run of the step machine, so it is still in a reachable state. The caller is told
     what the cell says when its commands run: what its GET meets answers it, a completed record answers every request
     until it expires, and a request that finds the cell empty is answered by its handler.
     */
    method Intercept(id: ClaimId, f: Fingerprint, turns: nat -> Turn, handling: Turn, result: HandlerResult, up: bool,
                     finalizing: Turn, releasing: Turn)
      returns (outcome: Outcome, ghost trace: seq<Event>)
      requires id !in clients && id != "" && ForeignTurns(turns, id) && Foreign(handling.before, id)
      requires Others(finalizing, id) && Others(releasing, id)
      modifies this
      ensures View() == Run(cfg, old(View()), trace)
      ensures Reachable(cfg, old(View())) ==> Reachable(cfg, View())
      ensures id in clients && clients[id].pc == Finished(outcome)
      ensures outcome == HandlerFailed ==> result.Threw?
      ensures outcome == Responded ==> result.Returned?
      ensures AnsweredByCell(cfg, old(View()), id, f, turns(0), turns(1), outcome)
      ensures cfg.Valid() && Reachable(cfg, old(View())) && old(entry).Some? && old(entry).value.raw.Completed?
              && Completes(turns(0)) && Completes(turns(1))
              && old(now) + Elapsed(UpToRead(id, f, turns(0), turns(1))) < old(entry).value.expiresAt ==>
                Answers(cfg, old(entry).value.raw, f, old(now), outcome)
      ensures Completes(turns(0)) && AtClaim(cfg, old(View()), id, f, turns(0)).None? ==>
                HandlerAnswers(result, outcome)
    {
      ghost var start := View();
      clients := clients[id := Client(f, Sent(Claim(now, 0)), None, false, None)];
      Arrives(cfg, start, id, f);
      var cached;
      cached, trace := ClaimOrRead(id, f, 0, true, turns, start, [Arrive(id, f)]);
      ghost var claimed := trace;
      outcome := StoreError;
      match cached {
        case Value(body) => outcome := Replayed(body);
        case Throws(error) => outcome := error;
        case Undefined =>
          outcome, trace := RunHandler(id, handling, result, up, finalizing, releasing, start, trace);
      }
      RunsReach(cfg, start, trace);
      TripsAnswer(cfg, start, id, f, turns(0), turns(1), claimed, cached, trace, outcome);
    }
  }

  /** The handler decides: its failure, its result, or that its result could not be stored as unavailable. */
  predicate HandlerAnswers(result: HandlerResult, outcome: Outcome) {
    match result
    case Threw => outcome == HandlerFailed
    case Returned(body) => outcome == Responded || (outcome == StoreError && body.Unserializable?)
  }

  lemma TripsAnswer(cfg: Config, start: State, id: ClaimId, f: Fingerprint, claim: Turn, read: Turn,
      claimed: seq<Event>, cached: ClaimResult, trace: seq<Event>, outcome: Outcome)
    requires id !in start.clients && id != "" && Others(claim, id) && Others(read, id)
    requires BeginsWithTrips(cfg, start, [Arrive(id, f)], claimed, id, claim, read, cached) && claimed <= trace
    requires id in Run(cfg, start, trace).clients && Run(cfg, start, trace).clients[id].pc == Finished(outcome)
    ensures AnsweredByCell(cfg, start, id, f, claim, read, outcome)
    ensures Completes(claim) && AtClaim(cfg, start, id, f, claim).None? ==> cached.Undefined?
    ensures cfg.Valid() && Reachable(cfg, start) && start.entry.Some? && start.entry.value.raw.Completed?
            && Completes(claim) && Completes(read)
            && start.now + Elapsed(UpToRead(id, f, claim, read)) < start.entry.value.expiresAt ==>
              Answers(cfg, start.entry.value.raw, f, start.now, outcome)
  {
    if Completes(claim) { FirstTrip(cfg, start, id, f, claim); }
    RunAnswers(cfg, start, id, f, claim, read, trace, outcome);
    if cfg.Valid() && Reachable(cfg, start) && start.entry.Some? && start.entry.value.raw.Completed?
       && Completes(claim) && Completes(read)
       && start.now + Elapsed(UpToRead(id, f, claim, read)) < start.entry.value.expiresAt
    {
      ReachableInv(cfg, start);
      CompletedAnswers(cfg, start, id, f, claim, read, outcome);
    }
  }

  lemma RunsReach(cfg: Config, s: State, es: seq<Event>)
    ensures Reachable(cfg, s) ==> Reachable(cfg, Run(cfg, s, es))
  {
    if Reachable(cfg, s) {
      var s0: State, path: seq<Event> :| Init(s0) && Run(cfg, s0, path) == s;
      RunConcat(cfg, s0, path, es);
    }
  }
}
