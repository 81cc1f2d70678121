/**
 What a retry is answered, by what the cell holds when Redis runs its commands: a stored response is replayed, a fresh
 lease is waited for, a stale one is taken over, and an empty cell is claimed.
 */
module IdempotencyRetries {
  import opened Options
  import opened IdempotencyRecords
  import opened IdempotencyProtocol
  import opened IdempotencySafety

  /**
   One awaited command: what everybody else does before and after Redis runs it, whether either leg of the network
   fails, and whether the Redis client is ready when the code continues.
   */
  datatype Turn = Turn(before: seq<Event>, reached: bool, answered: bool, after: seq<Event>, up: bool)

  /** The events from a pending command to the end of the code that its reply wakes. */
  function Trip(id: ClaimId, t: Turn): seq<Event> {
    t.before + [Execute(id, t.reached, t.answered)] + t.after + [Resume(id, t.up)]
  }

  predicate About(e: Event, id: ClaimId) {
    match e
    case Tick(_) => false
    case Expire => false
    case Arrive(k, _) => k == id
    case Execute(k, _, _) => k == id
    case Resume(k, _) => k == id
    case HandlerReturns(k, _, _) => k == id
    case HandlerThrows(k, _) => k == id
  }

  predicate Foreign(es: seq<Event>, id: ClaimId) { forall e | e in es :: !About(e, id) }

  predicate Others(t: Turn, id: ClaimId) { Foreign(t.before, id) && Foreign(t.after, id) }

  /** The command reaches Redis and its reply comes back. */
  predicate Completes(t: Turn) { t.reached && t.answered }

  predicate ComesThrough(t: Turn, id: ClaimId) { Others(t, id) && Completes(t) }

  lemma {:induction false} ForeignKeepsClient(cfg: Config, s: State, es: seq<Event>, id: ClaimId)
    requires Foreign(es, id)
    ensures id in Run(cfg, s, es).clients <==> id in s.clients
    ensures id in s.clients ==> Run(cfg, s, es).clients[id] == s.clients[id]
    decreases es
  {
    if es != [] {
      assert !About(es[0], id);
      ForeignKeepsClient(cfg, Next(cfg, s, es[0]), es[1..], id);
    }
  }

  /** Appending a one-step run. */
  lemma RunSnoc(cfg: Config, s: State, es: seq<Event>, e: Event)
    ensures Run(cfg, s, es + [e]) == Next(cfg, Run(cfg, s, es), e)
  {
    RunConcat(cfg, s, es, [e]);
    assert [e][1..] == [];
    assert Run(cfg, Run(cfg, s, es), [e]) == Next(cfg, Run(cfg, s, es), e);
  }

  /** The state in which Redis runs the command, the one in which the reply arrives, and the one after the code. */
  lemma TripSteps(cfg: Config, s: State, id: ClaimId, t: Turn) returns (at: State, replied: State)
    requires id in s.clients && s.clients[id].pc.Sent? && Others(t, id)
    ensures at == Run(cfg, s, t.before) && id in at.clients && at.clients[id] == s.clients[id]
    ensures var done := Next(cfg, at, Execute(id, t.reached, t.answered));
            id in done.clients && id in replied.clients && replied.clients[id] == done.clients[id]
    ensures Run(cfg, s, Trip(id, t)) == Next(cfg, replied, Resume(id, t.up))
  {
    var e := Execute(id, t.reached, t.answered);
    at := Run(cfg, s, t.before);
    ForeignKeepsClient(cfg, s, t.before, id);
    RunSnoc(cfg, s, t.before, e);
    ForeignKeepsClient(cfg, Next(cfg, at, e), t.after, id);
    RunConcat(cfg, s, t.before + [e], t.after);
    replied := Run(cfg, s, t.before + [e] + t.after);
    RunSnoc(cfg, s, t.before + [e] + t.after, Resume(id, t.up));
  }

  // ---- The answers ----

  predicate Blank(f: Fingerprint) {
    || f.digest == "" || f.verb == "" || f.route == "" || f.path == "" || f.queryHash == "" || f.bodyHash == ""
  }

  predicate OutOfRange(n: int, least: int) { n < least || n > 9_007_199_254_740_991 }

  /** Text that is no record: not written by this protocol, or with an empty field, or with a number out of range. */
  predicate Damaged(raw: Raw) {
    match raw
    case Unreadable(_, _) => true
    case Processing(claimId, f, startedAt) => claimId == "" || Blank(f) || OutOfRange(startedAt, 1)
    case Completed(f, _, bodyBytes, completedAt, _) =>
      Blank(f) || OutOfRange(completedAt, 1) || OutOfRange(bodyBytes, 0)
  }

  /** A record that a request of fields f, begun at now0, may take over. */
  predicate TakenOver(cfg: Config, raw: Raw, f: Fingerprint, now0: int) {
    !Damaged(raw) && raw.Processing? && raw.fingerprint == f && raw.startedAt + cfg.StaleMs() <= now0
  }

  /** What any other record means for the request. */
  predicate Answers(cfg: Config, raw: Raw, f: Fingerprint, now0: int, outcome: Outcome) {
    if Damaged(raw) then outcome == Conflict(RecordInvalid)
    else if raw.fingerprint != f then outcome == Conflict(KeyReused)
    else match raw
      case Completed(_, body, _, _, replayable) =>
        outcome == if replayable then Replayed(body) else Conflict(ResponseUnavailable)
      case Processing(_, _, startedAt) =>
        outcome.InProgress? && 0 <= now0 + outcome.retryAfterMs - (startedAt + cfg.StaleMs()) <= 999
      case _ => false
  }

  /** SET NX: an empty cell becomes the request's lease and its handler starts; otherwise it reads the cell. */
  lemma ClaimMeets(cfg: Config, s: State, id: ClaimId, t: Turn)
    requires id in s.clients && s.clients[id].pc.Sent? && s.clients[id].pc.stage.Claim?
    requires ComesThrough(t, id)
    ensures var c, s' := s.clients[id], Run(cfg, s, Trip(id, t));
            && id in s'.clients && s'.clients[id].fingerprint == c.fingerprint
            && if Run(cfg, s, t.before).entry.None? then
                 s'.clients[id].pc == Handling && s'.clients[id].lease == Some(c.pc.stage.now0)
               else s'.clients[id].pc == Sent(Read(c.pc.stage.now0, c.pc.stage.attempt))
  {
    var at, replied := TripSteps(cfg, s, id, t);
  }

  /**
   GET: the record that the cell holds when Redis runs it decides alone. It answers the request, or, if it is a stale
   lease of the same request, the request sets out to take it over.
   */
  lemma ReadMeets(cfg: Config, s: State, id: ClaimId, t: Turn)
    requires id in s.clients && s.clients[id].pc.Sent? && s.clients[id].pc.stage.Read?
    requires ComesThrough(t, id)
    requires Run(cfg, s, t.before).entry.Some? && !IsEmptyText(Run(cfg, s, t.before).entry.value.raw)
    ensures var c, raw, s' := s.clients[id], Run(cfg, s, t.before).entry.value.raw, Run(cfg, s, Trip(id, t));
            && id in s'.clients && s'.clients[id].fingerprint == c.fingerprint
            && if TakenOver(cfg, raw, c.fingerprint, c.pc.stage.now0) then
                 s'.clients[id].pc == Sent(Takeover(c.pc.stage.now0, c.pc.stage.attempt, raw))
               else
                 && s'.clients[id].pc.Finished?
                 && Answers(cfg, raw, c.fingerprint, c.pc.stage.now0, s'.clients[id].pc.outcome)
  {
    var at, replied := TripSteps(cfg, s, id, t);
    var now0, raw := s.clients[id].pc.stage.now0, at.entry.value.raw;
    ParsesUnlessDamaged(raw);
    if raw.Processing? && now0 - raw.startedAt < cfg.StaleMs() {
      RetryLandsJustAfterStale(cfg, raw.startedAt, now0);
    }
  }

  lemma ParsesUnlessDamaged(raw: Raw)
    ensures Parses(raw) <==> !Damaged(raw)
  {}

  /** GET of an empty cell: the request claims again, at most three times in all; without a client it runs unclaimed. */
  lemma EmptyReadMeets(cfg: Config, s: State, id: ClaimId, t: Turn)
    requires id in s.clients && s.clients[id].pc.Sent? && s.clients[id].pc.stage.Read?
    requires ComesThrough(t, id)
    requires Run(cfg, s, t.before).entry.None? || IsEmptyText(Run(cfg, s, t.before).entry.value.raw)
    ensures var attempt, s' := s.clients[id].pc.stage.attempt, Run(cfg, s, Trip(id, t));
            && id in s'.clients
            && s'.clients[id].pc == if attempt >= 2 then Finished(Conflict(RecordInvalid))
                                    else if t.up then Sent(Claim(s'.now, attempt + 1))
                                    else Handling
  {
    var at, replied := TripSteps(cfg, s, id, t);
  }

  /**
   RECOVER: the lease passes to the request, and its handler starts, exactly when the cell still holds that record.
   */
  lemma TakeoverMeets(cfg: Config, s: State, id: ClaimId, t: Turn)
    requires id in s.clients && s.clients[id].pc.Sent? && s.clients[id].pc.stage.Takeover?
    requires ComesThrough(t, id)
    ensures var stage, at, s' := s.clients[id].pc.stage, Run(cfg, s, t.before).entry, Run(cfg, s, Trip(id, t));
            && id in s'.clients
            && if at.Some? && at.value.raw == stage.seen then
                 s'.clients[id].pc == Handling && s'.clients[id].lease == Some(stage.now0)
               else
                 s'.clients[id].pc == if stage.attempt >= 2 then Finished(Conflict(RecordInvalid))
                                      else if t.up then Sent(Claim(s'.now, stage.attempt + 1))
                                      else Handling
  {
    var at, replied := TripSteps(cfg, s, id, t);
  }

  // ---- A whole retry ----

  /** The events of a request up to the moment Redis runs its GET. */
  function UpToRead(id: ClaimId, f: Fingerprint, claim: Turn, read: Turn): seq<Event> {
    [Arrive(id, f)] + Trip(id, claim) + read.before
  }

  /** A request from its arrival to the end of the code that its GET wakes. */
  function Retry(id: ClaimId, f: Fingerprint, claim: Turn, read: Turn): seq<Event> {
    [Arrive(id, f)] + Trip(id, claim) + Trip(id, read)
  }

  lemma Arrives(cfg: Config, s: State, id: ClaimId, f: Fingerprint)
    requires id !in s.clients && id != ""
    ensures Run(cfg, s, [Arrive(id, f)])
         == s.(clients := s.clients[id := Client(f, Sent(Claim(s.now, 0)), None, false, None)])
  {
    assert [Arrive(id, f)][1..] == [];
    assert Run(cfg, s, [Arrive(id, f)]) == Run(cfg, Next(cfg, s, Arrive(id, f)), []);
  }

  /** The cell at the SET NX of a request that arrives now. */
  function AtClaim(cfg: Config, s: State, id: ClaimId, f: Fingerprint, claim: Turn): Option<Entry> {
    Run(cfg, s, [Arrive(id, f)] + claim.before).entry
  }

  /** A request that arrives and whose SET NX comes through: it claims exactly an empty cell. */
  lemma FirstTrip(cfg: Config, s: State, id: ClaimId, f: Fingerprint, claim: Turn)
    requires id !in s.clients && id != "" && ComesThrough(claim, id)
    ensures var s1 := Run(cfg, s, [Arrive(id, f)] + Trip(id, claim));
            && id in s1.clients && s1.clients[id].fingerprint == f
            && s1.clients[id].pc == if AtClaim(cfg, s, id, f, claim).None? then Handling else Sent(Read(s.now, 0))
  {
    Arrives(cfg, s, id, f);
    var s0 := Run(cfg, s, [Arrive(id, f)]);
    RunConcat(cfg, s, [Arrive(id, f)], claim.before);
    RunConcat(cfg, s, [Arrive(id, f)], Trip(id, claim));
    ClaimMeets(cfg, s0, id, claim);
  }

  /** The cell at the GET of a request that arrives now. */
  function AtRead(cfg: Config, s: State, id: ClaimId, f: Fingerprint, claim: Turn, read: Turn): Option<Entry> {
    Run(cfg, s, UpToRead(id, f, claim, read)).entry
  }

  /**
   Beside any behaviour of the others: a retry whose SET NX meets a record and whose GET meets one is answered by what
   GET meets, or sets out to take a stale lease over.
   */
  lemma RetryMeetsRecord(cfg: Config, s: State, id: ClaimId, f: Fingerprint, claim: Turn, read: Turn)
    requires id !in s.clients && id != "" && ComesThrough(claim, id) && ComesThrough(read, id)
    requires AtClaim(cfg, s, id, f, claim).Some? && AtRead(cfg, s, id, f, claim, read).Some?
    requires !IsEmptyText(AtRead(cfg, s, id, f, claim, read).value.raw)
    ensures var raw, s' := AtRead(cfg, s, id, f, claim, read).value.raw, Run(cfg, s, Retry(id, f, claim, read));
            && id in s'.clients && s'.clients[id].fingerprint == f
            && if TakenOver(cfg, raw, f, s.now) then s'.clients[id].pc == Sent(Takeover(s.now, 0, raw))
               else s'.clients[id].pc.Finished? && Answers(cfg, raw, f, s.now, s'.clients[id].pc.outcome)
  {
    var start := [Arrive(id, f)] + Trip(id, claim);
    FirstTrip(cfg, s, id, f, claim);
    RunConcat(cfg, s, start, read.before);
    RunConcat(cfg, s, start, Trip(id, read));
    ReadMeets(cfg, Run(cfg, s, start), id, read);
  }

  /** And a stale lease that the cell still holds when RECOVER runs passes to the retry, whose handler then starts. */
  lemma RetryTakesOver(cfg: Config, s: State, id: ClaimId, f: Fingerprint, claim: Turn, read: Turn, recover: Turn)
    requires id !in s.clients && id != "" && ComesThrough(claim, id) && ComesThrough(read, id)
    requires ComesThrough(recover, id)
    requires AtClaim(cfg, s, id, f, claim).Some? && AtRead(cfg, s, id, f, claim, read).Some?
    requires TakenOver(cfg, AtRead(cfg, s, id, f, claim, read).value.raw, f, s.now)
    requires var at := Run(cfg, s, Retry(id, f, claim, read) + recover.before).entry;
             at.Some? && at.value.raw == AtRead(cfg, s, id, f, claim, read).value.raw
    ensures var s' := Run(cfg, s, Retry(id, f, claim, read) + Trip(id, recover));
            id in s'.clients && s'.clients[id].pc == Handling && s'.clients[id].lease == Some(s.now)
  {
    RetryMeetsRecord(cfg, s, id, f, claim, read);
    RunConcat(cfg, s, Retry(id, f, claim, read), recover.before);
    RunConcat(cfg, s, Retry(id, f, claim, read), Trip(id, recover));
    TakeoverMeets(cfg, Run(cfg, s, Retry(id, f, claim, read)), id, recover);
  }

  /** What a request is told fits the record its GET met, if it met one that settles the matter. */
  predicate AnsweredByCell(cfg: Config, s: State, id: ClaimId, f: Fingerprint, claim: Turn, read: Turn,
      outcome: Outcome)
  {
    var met := AtRead(cfg, s, id, f, claim, read);
    Completes(claim) && Completes(read) && AtClaim(cfg, s, id, f, claim).Some?
    && met.Some? && !IsEmptyText(met.value.raw) && !TakenOver(cfg, met.value.raw, f, s.now) ==>
      Answers(cfg, met.value.raw, f, s.now, outcome)
  }

  /** A request that has ended was told what the cell said, if its run began with those two trips. */
  lemma RunAnswers(cfg: Config, s: State, id: ClaimId, f: Fingerprint, claim: Turn, read: Turn, trace: seq<Event>,
      outcome: Outcome)
    requires id !in s.clients && id != "" && Others(claim, id) && Others(read, id)
    requires Completes(claim) && AtClaim(cfg, s, id, f, claim).Some? ==> Retry(id, f, claim, read) <= trace
    requires id in Run(cfg, s, trace).clients && Run(cfg, s, trace).clients[id].pc == Finished(outcome)
    ensures AnsweredByCell(cfg, s, id, f, claim, read, outcome)
  {
    var met := AtRead(cfg, s, id, f, claim, read);
    if Completes(claim) && Completes(read) && AtClaim(cfg, s, id, f, claim).Some?
       && met.Some? && !IsEmptyText(met.value.raw) && !TakenOver(cfg, met.value.raw, f, s.now)
    {
      var start := Retry(id, f, claim, read);
      RetryMeetsRecord(cfg, s, id, f, claim, read);
      assert trace == start + trace[|start|..];
      RunConcat(cfg, s, start, trace[|start|..]);
      AnswersStay(cfg, Run(cfg, s, start), trace[|start|..], id);
    }
  }

  /** The time that passes over a run. */
  function Elapsed(es: seq<Event>): nat {
    if es == [] then 0 else (if es[0].Tick? then es[0].elapsed else 0) + Elapsed(es[1..])
  }

  lemma {:induction false} ClockAdvances(cfg: Config, s: State, es: seq<Event>)
    ensures Run(cfg, s, es).now == s.now + Elapsed(es)
    decreases es
  {
    if es != [] { ClockAdvances(cfg, Next(cfg, s, es[0]), es[1..]); }
  }

  lemma {:induction false} ElapsedConcat(es: seq<Event>, fs: seq<Event>)
    ensures Elapsed(es + fs) == Elapsed(es) + Elapsed(fs)
  {
    if es == [] {
      assert es + fs == fs;
    } else {
      assert (es + fs)[0] == es[0] && (es + fs)[1..] == es[1..] + fs;
      ElapsedConcat(es[1..], fs);
    }
  }

  /**
   Once the cell holds a completed record, every request whose SET NX and GET come through before the record expires is
   answered by it, whatever the others do meanwhile: with its body if the six fields agree and it may be replayed.
   */
  lemma CompletedAnswersRetry(cfg: Config, s: State, id: ClaimId, f: Fingerprint, claim: Turn, read: Turn)
    requires cfg.Valid() && Inv(cfg, s) && s.entry.Some? && s.entry.value.raw.Completed?
    requires id !in s.clients && id != "" && ComesThrough(claim, id) && ComesThrough(read, id)
    requires s.now + Elapsed(UpToRead(id, f, claim, read)) < s.entry.value.expiresAt
    ensures var s' := Run(cfg, s, Retry(id, f, claim, read));
            && id in s'.clients && s'.clients[id].pc.Finished?
            && Answers(cfg, s.entry.value.raw, f, s.now, s'.clients[id].pc.outcome)
  {
    CompletedStays(cfg, s, id, f, claim, read);
    RetryMeetsRecord(cfg, s, id, f, claim, read);
  }

  /** The same for a request known by what it was told. */
  lemma CompletedAnswers(cfg: Config, s: State, id: ClaimId, f: Fingerprint, claim: Turn, read: Turn, outcome: Outcome)
    requires cfg.Valid() && Inv(cfg, s) && s.entry.Some? && s.entry.value.raw.Completed?
    requires Completes(claim) && Completes(read) && AnsweredByCell(cfg, s, id, f, claim, read, outcome)
    requires s.now + Elapsed(UpToRead(id, f, claim, read)) < s.entry.value.expiresAt
    ensures Answers(cfg, s.entry.value.raw, f, s.now, outcome)
  {
    CompletedStays(cfg, s, id, f, claim, read);
  }

  lemma CompletedStays(cfg: Config, s: State, id: ClaimId, f: Fingerprint, claim: Turn, read: Turn)
    requires cfg.Valid() && Inv(cfg, s) && s.entry.Some? && s.entry.value.raw.Completed?
    requires s.now + Elapsed(UpToRead(id, f, claim, read)) < s.entry.value.expiresAt
    ensures AtClaim(cfg, s, id, f, claim) == s.entry && AtRead(cfg, s, id, f, claim, read) == s.entry
  {
    var early, late := [Arrive(id, f)] + claim.before, UpToRead(id, f, claim, read);
    var rest := [Execute(id, claim.reached, claim.answered)] + claim.after + [Resume(id, claim.up)] + read.before;
    assert early + rest == late;
    ElapsedConcat(early, rest);
    ClockAdvances(cfg, s, early);
    ClockAdvances(cfg, s, late);
    StoredResponseIsFinal(cfg, s, early);
    StoredResponseIsFinal(cfg, s, late);
  }

  // ---- From the handler's result to the retry ----

  /** The handler of the lease owner k returns a body and its FINALIZE reaches Redis while k still owns the cell. */
  predicate Stores(cfg: Config, s: State, k: ClaimId, body: Body, gap: seq<Event>) {
    && k in s.clients && s.clients[k].pc.Handling? && Foreign(gap, k)
    && OwnedBy(Run(cfg, Next(cfg, s, HandlerReturns(k, body, true)), gap).entry, k)
  }

  function AfterStore(cfg: Config, s: State, k: ClaimId, body: Body, gap: seq<Event>, answered: bool): State {
    Next(cfg, Run(cfg, Next(cfg, s, HandlerReturns(k, body, true)), gap), Execute(k, true, answered))
  }

  /**
   What the command after a handler leaves in the cell: a response within the limit for the whole TTL, a response that
   cannot be serialised as unavailable for as long, and nothing for one over the limit.
   */
  lemma ResultIsStored(cfg: Config, s: State, k: ClaimId, body: Body, gap: seq<Event>, answered: bool)
    requires Stores(cfg, s, k, body, gap)
    ensures var f, s', now := s.clients[k].fingerprint, AfterStore(cfg, s, k, body, gap, answered), s.now;
            match body
            case Unserializable =>
              s'.entry == Some(Entry(Completed(f, "null", 0, now, false), s'.now + cfg.ttl * 1000))
            case Serializable(text) =>
              if Utf8Length(text) > cfg.maxBytes then s'.entry.None?
              else
                s'.entry == Some(Entry(Completed(f, text, Utf8Length(text), now, true), s'.now + cfg.ttl * 1000))
  {
    var s1 := Next(cfg, s, HandlerReturns(k, body, true));
    ForeignKeepsClient(cfg, s1, gap, k);
  }

  /** A handler that throws frees the key for the next request, once its RELEASE reaches Redis. */
  lemma FailureFreesKey(cfg: Config, s: State, k: ClaimId, gap: seq<Event>, answered: bool)
    requires k in s.clients && s.clients[k].pc.Handling? && Foreign(gap, k)
    requires OwnedBy(Run(cfg, Next(cfg, s, HandlerThrows(k, true)), gap).entry, k)
    ensures Next(cfg, Run(cfg, Next(cfg, s, HandlerThrows(k, true)), gap), Execute(k, true, answered)).entry.None?
  {
    ForeignKeepsClient(cfg, Next(cfg, s, HandlerThrows(k, true)), gap, k);
  }

  /** So does a FINALIZE that never reached Redis: the RELEASE that follows it frees the key. */
  lemma LostStoreFreesKey(cfg: Config, s: State, k: ClaimId, early: seq<Event>, gap: seq<Event>, answered: bool)
    requires k in s.clients && s.clients[k].pc.Sent? && s.clients[k].pc.stage.Store?
    requires Foreign(early, k) && Foreign(gap, k)
    requires var failed := Run(cfg, Next(cfg, s, Execute(k, false, answered)), early);
             OwnedBy(Run(cfg, Next(cfg, failed, Resume(k, true)), gap).entry, k)
    ensures var failed := Run(cfg, Next(cfg, s, Execute(k, false, answered)), early);
            Next(cfg, Run(cfg, Next(cfg, failed, Resume(k, true)), gap), Execute(k, true, answered)).entry.None?
  {
    var lost := Next(cfg, s, Execute(k, false, answered));
    ForeignKeepsClient(cfg, lost, early, k);
    ForeignKeepsClient(cfg, Next(cfg, Run(cfg, lost, early), Resume(k, true)), gap, k);
  }

  /**
   End to end: for the whole TTL after a response was stored, every retry of the same request whose two commands come
   through is answered with that response, whatever anybody else does in between.
   */
  lemma StoredResponseIsReplayed(cfg: Config, s: State, k: ClaimId, text: string, gap: seq<Event>, answered: bool,
      later: seq<Event>, id: ClaimId, claim: Turn, read: Turn)
    requires cfg.Valid() && Reachable(cfg, s) && 0 < s.now <= MAX_SAFE_INTEGER
    requires Stores(cfg, s, k, Serializable(text), gap) && Utf8Length(text) <= cfg.maxBytes
    requires !Blank(s.clients[k].fingerprint)
    requires var stored := AfterStore(cfg, s, k, Serializable(text), gap, answered);
             && id !in Run(cfg, stored, later).clients && id != ""
             && ComesThrough(claim, id) && ComesThrough(read, id)
             && Elapsed(later) + Elapsed(UpToRead(id, s.clients[k].fingerprint, claim, read)) < cfg.ttl * 1000
    ensures var f, stored := s.clients[k].fingerprint, AfterStore(cfg, s, k, Serializable(text), gap, answered);
            var s' := Run(cfg, Run(cfg, stored, later), Retry(id, f, claim, read));
            id in s'.clients && s'.clients[id].pc == Finished(Replayed(text))
  {
    var f, stored := s.clients[k].fingerprint, AfterStore(cfg, s, k, Serializable(text), gap, answered);
    var before := Run(cfg, stored, later);
    ResultIsStored(cfg, s, k, Serializable(text), gap, answered);
    StoringKeepsInv(cfg, s, k, Serializable(text), gap, answered);
    ClockAdvances(cfg, stored, later);
    StoredResponseIsFinal(cfg, stored, later);
    RunKeepsInv(cfg, stored, later);
    CompletedAnswersRetry(cfg, before, id, f, claim, read);
  }

  lemma StoringKeepsInv(cfg: Config, s: State, k: ClaimId, body: Body, gap: seq<Event>, answered: bool)
    requires cfg.Valid() && Reachable(cfg, s)
    ensures Inv(cfg, AfterStore(cfg, s, k, body, gap, answered))
  {
    ReachableInv(cfg, s);
    var s1 := Next(cfg, s, HandlerReturns(k, body, true));
    NextKeepsInv(cfg, s, HandlerReturns(k, body, true));
    RunKeepsInv(cfg, s1, gap);
    NextKeepsInv(cfg, Run(cfg, s1, gap), Execute(k, true, answered));
  }

  /** An answer is final: no event changes what a request was told. */
  lemma {:induction false} AnswersStay(cfg: Config, s: State, es: seq<Event>, id: ClaimId)
    requires id in s.clients && s.clients[id].pc.Finished?
    ensures id in Run(cfg, s, es).clients && Run(cfg, s, es).clients[id].pc == s.clients[id].pc
    decreases es
  {
    if es != [] { AnswersStay(cfg, Next(cfg, s, es[0]), es[1..], id); }
  }
}
