/**
 The idempotency records and the Redis commands that act on the one cell a key owns.

 A record is modelled by its fields rather than by its JSON text: both record kinds are written by
 `JSON.stringify` over a literal with a fixed field order, so equal text means equal fields. Text that
 no writer of this protocol produces is `Unreadable`; `isObject` says that the Lua scripts can still decode it to a
 table, which then is not a processing record of any claim.
 */
module IdempotencyRecords {
  import opened Options

  const MILLISECONDS_PER_SECOND := 1000
  const MAX_SAFE_INTEGER := 9007199254740991

  type ClaimId = string

  /**
   The deterministic part of a request fingerprint: the six fields `recordMatches` compares (`verb` is its `method`).
   */
  datatype Fingerprint = Fingerprint(
    digest: string, verb: string, route: string, path: string, queryHash: string, bodyHash: string)

  datatype Raw =
    | Processing(claimId: ClaimId, fingerprint: Fingerprint, startedAt: int)
    | Completed(fingerprint: Fingerprint, body: string, bodyBytes: int, completedAt: int, replayable: bool)
    | Unreadable(text: string, isObject: bool)

  /** Validated environment: env.schema.ts bounds every field, env.refinement.ts orders two of them. */
  datatype Config = Config(staleAfter: nat, processingTtl: nat, ttl: nat, maxBytes: nat)
  {
    predicate Valid() {
      && 0 < staleAfter < processingTtl <= 60 * 60
      && 0 < ttl <= 7 * 24 * 60 * 60
      && 0 < maxBytes <= 10 * 1024 * 1024
    }

    function StaleMs(): nat { staleAfter * MILLISECONDS_PER_SECOND }
  }

  predicate HasFingerprint(f: Fingerprint) {
    && f.digest != "" && f.verb != "" && f.route != ""
    && f.path != "" && f.queryHash != "" && f.bodyHash != ""
  }

  predicate IsTimestamp(t: int) { 0 < t <= MAX_SAFE_INTEGER }

  predicate IsBodySize(n: int) { 0 <= n <= MAX_SAFE_INTEGER }

  /** parseIdempotencyRecord: does the stored text parse, or does it throw? */
  predicate Parses(raw: Raw) {
    match raw
    case Processing(claimId, f, startedAt) => HasFingerprint(f) && IsTimestamp(startedAt) && claimId != ""
    case Completed(f, _, bodyBytes, completedAt, _) =>
      HasFingerprint(f) && IsTimestamp(completedAt) && IsBodySize(bodyBytes)
    case Unreadable(_, _) => false
  }

  /** idempotencyInProgress: the delay a waiter is told, from the age of the record it met. */
  function RetryAfterMs(cfg: Config, age: int): int {
    var remaining := cfg.staleAfter - age / MILLISECONDS_PER_SECOND;
    (if remaining < 0 then 0 else remaining) * MILLISECONDS_PER_SECOND
  }

  datatype Entry = Entry(raw: Raw, expiresAt: int)

  datatype Command =
    | SetNx(record: Raw)
    | Get
    | Recover(expected: Raw, replacement: Raw)
    | Finalize(claimId: ClaimId, record: Raw)
    | Release(claimId: ClaimId)

  datatype Reply = Applied | Refused | Found(raw: Raw) | Failed

  /** True when the owner check of the FINALIZE and RELEASE scripts passes. */
  predicate OwnedBy(entry: Option<Entry>, id: ClaimId) {
    entry.Some? && entry.value.raw.Processing? && entry.value.raw.claimId == id
  }

  /** One command executed by Redis on the cell, atomically: the new cell and the reply it produces. */
  function Perform(cfg: Config, entry: Option<Entry>, now: int, command: Command): (Option<Entry>, Reply) {
    match command
    case SetNx(record) =>
      if entry.None? then (Some(Entry(record, now + cfg.processingTtl * MILLISECONDS_PER_SECOND)), Applied)
      else (entry, Refused)
    case Get =>
      if entry.None? then (entry, Refused) else (entry, Found(entry.value.raw))
    case Recover(expected, replacement) =>
      if entry.None? || entry.value.raw != expected then (entry, Refused)
      else (Some(Entry(replacement, now + cfg.processingTtl * MILLISECONDS_PER_SECOND)), Applied)
    case Finalize(claimId, record) =>
      if entry.Some? && entry.value.raw.Unreadable? && !entry.value.raw.isObject then (entry, Failed)
      else if !OwnedBy(entry, claimId) then (entry, Refused)
      else (Some(Entry(record, now + cfg.ttl * MILLISECONDS_PER_SECOND)), Applied)
    case Release(claimId) =>
      if entry.Some? && entry.value.raw.Unreadable? && !entry.value.raw.isObject then (entry, Failed)
      else if !OwnedBy(entry, claimId) then (entry, Refused)
      else (None, Applied)
  }

  /**
   A waiter that obeys `retryAfterMs` comes back 0 to 999 ms after the moment the lease it met turns stale,
   and at that moment the same record no longer counts as in progress.
   */
  lemma RetryLandsJustAfterStale(cfg: Config, startedAt: int, now: int)
    requires now - startedAt < cfg.StaleMs()
    ensures var back := now + RetryAfterMs(cfg, now - startedAt);
            && 0 <= back - (startedAt + cfg.StaleMs()) <= 999
            && !(back - startedAt < cfg.StaleMs())
            && now < back
  {
    var age := now - startedAt;
    assert age == age / 1000 * 1000 + age % 1000;
  }
}

/**
 The lease protocol as a step machine: any number of requests for one key, interleaved at every await.

 Each Redis command is two steps, `Execute` (Redis runs it) and `Resume` (the reply reaches the request),
 so time and other requests may pass between them; either leg of the network may fail.
 */
module IdempotencyProtocol {
  import opened Options
  import opened IdempotencyRecords

  /** What JSON.stringify makes of a handler's result; it escapes lone surrogates. */
  datatype Body = Serializable(text: string) | Unserializable

  /** Buffer.byteLength(text, "utf8") */
  function Utf8Length(text: string): nat {
    if text == "" then 0
    else
      var c := text[0] as int;
      (if c < 0x80 then 1 else if c < 0x800 then 2 else if c < 0x1_0000 then 3 else 4) + Utf8Length(text[1..])
  }

  datatype Code = RecordInvalid | KeyReused | ResponseUnavailable

  datatype Outcome =
    | Replayed(body: string)
    | Conflict(code: Code)
    | InProgress(retryAfterMs: int)
    | StoreError
    | Responded
    | HandlerFailed

  /** The await a request is suspended at, with the locals its continuation still needs. */
  datatype Stage =
    | Claim(now0: int, attempt: nat)
    | Read(now0: int, attempt: nat)
    | Takeover(now0: int, attempt: nat, seen: Raw)
    | Store(record: Raw, onError: Outcome)
    | Drop(after: Outcome)

  datatype Pc =
    | Sent(stage: Stage)
    | Answered(stage: Stage, reply: Reply)
    | Handling
    | Finished(outcome: Outcome)

  /**
   One request. `lease` is the startedAt of the processing record it got into Redis, `settled` says that its own
   FINALIZE or RELEASE took effect, and `produced` is the body its handler returned.
   */
  datatype Client = Client(
    fingerprint: Fingerprint, pc: Pc, lease: Option<int>, settled: bool, produced: Option<Body>)

  datatype State = State(entry: Option<Entry>, now: int, clients: map<ClaimId, Client>)

  datatype Event =
    | Tick(elapsed: nat)
    | Expire
    | Arrive(id: ClaimId, fingerprint: Fingerprint)
    | Execute(id: ClaimId, reached: bool, answered: bool)
    | Resume(id: ClaimId, up: bool)
    | HandlerReturns(id: ClaimId, body: Body, up: bool)
    | HandlerThrows(id: ClaimId, up: bool)

  function ProcessingRecord(id: ClaimId, f: Fingerprint, now0: int): Raw { Processing(id, f, now0) }

  function CommandOf(id: ClaimId, f: Fingerprint, stage: Stage): Command {
    match stage
    case Claim(now0, _) => SetNx(ProcessingRecord(id, f, now0))
    case Read(_, _) => Get
    case Takeover(now0, _, seen) => Recover(seen, ProcessingRecord(id, f, now0))
    case Store(record, _) => Finalize(id, record)
    case Drop(_) => Release(id)
  }

  /** The start of claimOrRead; without a ready Redis client it returns undefined and the handler runs unclaimed. */
  function BeginClaim(now: int, attempt: nat, up: bool): Pc {
    if up then Sent(Claim(now, attempt)) else Handling
  }

  function RetryClaim(now: int, attempt: nat, up: bool): Pc {
    if attempt >= 2 then Finished(Conflict(RecordInvalid)) else BeginClaim(now, attempt + 1, up)
  }

  /** claimOrRead between GET and the next await: parse, compare, replay, refuse or try to recover. */
  function Inspect(cfg: Config, f: Fingerprint, now0: int, attempt: nat, raw: Raw): Pc {
    if !Parses(raw) then Finished(Conflict(RecordInvalid))
    else if raw.fingerprint != f then Finished(Conflict(KeyReused))
    else if raw.Completed? then
      if !raw.replayable then Finished(Conflict(ResponseUnavailable)) else Finished(Replayed(raw.body))
    else if now0 - raw.startedAt < cfg.StaleMs() then Finished(InProgress(RetryAfterMs(cfg, now0 - raw.startedAt)))
    else Sent(Takeover(now0, attempt, raw))
  }

  /** release(): no client means no command. */
  function BeginRelease(after: Outcome, up: bool): Pc {
    if up then Sent(Drop(after)) else Finished(after)
  }

  /** cacheResponse(): which command, if any, follows the handler's body. */
  function BeginStore(cfg: Config, f: Fingerprint, now: int, body: Body, up: bool): Pc {
    if !up then Finished(Responded)
    else match body
      case Unserializable => Sent(Store(Completed(f, "null", 0, now, false), StoreError))
      case Serializable(text) =>
        if Utf8Length(text) > cfg.maxBytes then Sent(Drop(Responded))
        else Sent(Store(Completed(f, text, Utf8Length(text), now, true), Responded))
  }

  /** An empty string in the cell counts as no record at all. */
  predicate IsEmptyText(raw: Raw) { raw.Unreadable? && raw.text == "" }

  /** What a request does when the reply to its pending command arrives. */
  function Continue(cfg: Config, f: Fingerprint, now: int, stage: Stage, reply: Reply, up: bool): Pc {
    match stage
    case Claim(now0, attempt) =>
      if reply.Failed? then Finished(StoreError)
      else if reply.Applied? then Handling
      else Sent(Read(now0, attempt))
    case Read(now0, attempt) =>
      if reply.Failed? then Finished(StoreError)
      else if reply.Found? && !IsEmptyText(reply.raw) then Inspect(cfg, f, now0, attempt, reply.raw)
      else RetryClaim(now, attempt, up)
    case Takeover(_, attempt, _) =>
      if reply.Failed? then Finished(StoreError)
      else if reply.Applied? then Handling
      else RetryClaim(now, attempt, up)
    case Store(_, onError) =>
      if reply.Failed? then BeginRelease(onError, up) else Finished(Responded)
    case Drop(after) => Finished(after)
  }

  /** The history fields after a command took effect: a claim opens the lease, a store or drop settles it. */
  function Settle(c: Client, stage: Stage, applied: bool): Client {
    if !applied then c
    else match stage
      case Claim(now0, _) => c.(lease := Some(now0))
      case Takeover(now0, _, _) => c.(lease := Some(now0))
      case Store(_, _) => c.(settled := true)
      case Drop(_) => c.(settled := true)
      case Read(_, _) => c
  }

  /** One atomic step; an event that is not enabled changes nothing. */
  function Next(cfg: Config, s: State, e: Event): State {
    match e
    case Tick(elapsed) => s.(now := s.now + elapsed)
    case Expire => if s.entry.Some? && s.now >= s.entry.value.expiresAt then s.(entry := None) else s
    case Arrive(id, f) =>
      if id in s.clients || id == "" then s
      else s.(clients := s.clients[id := Client(f, Sent(Claim(s.now, 0)), None, false, None)])
    case Execute(id, reached, answered) =>
      if id !in s.clients || !s.clients[id].pc.Sent? then s else
        var c := s.clients[id];
        if !reached then s.(clients := s.clients[id := c.(pc := Answered(c.pc.stage, Failed))]) else
          var (entry, reply) := Perform(cfg, s.entry, s.now, CommandOf(id, c.fingerprint, c.pc.stage));
          var pc := Answered(c.pc.stage, if answered then reply else Failed);
          s.(entry := entry, clients := s.clients[id := Settle(c, c.pc.stage, reply.Applied?).(pc := pc)])
    case Resume(id, up) =>
      if id !in s.clients || !s.clients[id].pc.Answered? then s else
        var c := s.clients[id];
        s.(clients := s.clients[id := c.(pc := Continue(cfg, c.fingerprint, s.now, c.pc.stage, c.pc.reply, up))])
    case HandlerReturns(id, body, up) =>
      if id !in s.clients || !s.clients[id].pc.Handling? then s else
        var c := s.clients[id];
        var pc := BeginStore(cfg, c.fingerprint, s.now, body, up);
        s.(clients := s.clients[id := c.(pc := pc, produced := Some(body))])
    case HandlerThrows(id, up) =>
      if id !in s.clients || !s.clients[id].pc.Handling? then s else
        var c := s.clients[id];
        s.(clients := s.clients[id := c.(pc := BeginRelease(HandlerFailed, up))])
  }

  function Run(cfg: Config, s: State, es: seq<Event>): State
    decreases es
  {
    if es == [] then s else Run(cfg, Next(cfg, s, es[0]), es[1..])
  }

  /** No request yet, and nothing this protocol wrote in the cell. */
  predicate Init(s: State) {
    s.clients == map[] && (s.entry.Some? ==> s.entry.value.raw.Unreadable?)
  }

  // ---- The inductive invariant ----

  /** A lease in Redis that its client has neither finalized nor released. */
  predicate OpenLease(s: State, id: ClaimId) {
    id in s.clients && s.clients[id].lease.Some? && !s.clients[id].settled
  }

  predicate Stale(cfg: Config, s: State, id: ClaimId)
    requires OpenLease(s, id)
  {
    s.now >= s.clients[id].lease.value + cfg.StaleMs()
  }

  /** A processing record is the lease of the client it names. */
  predicate RecordOfLease(s: State, raw: Raw) {
    raw.Processing? ==>
      && raw.claimId in s.clients
      && s.clients[raw.claimId].lease == Some(raw.startedAt)
      && s.clients[raw.claimId].fingerprint == raw.fingerprint
  }

  /** Client k claimed, had its store take effect, and produced this body for a request with fingerprint f. */
  predicate StoredBy(s: State, f: Fingerprint, body: Option<string>, k: ClaimId) {
    && k in s.clients
    && s.clients[k].lease.Some? && s.clients[k].settled
    && s.clients[k].fingerprint == f
    && s.clients[k].produced.Some?
    && (body.Some? ==> s.clients[k].produced.value.Serializable? && s.clients[k].produced.value.text == body.value)
  }

  function ReplayBody(raw: Raw): Option<string>
    requires raw.Completed?
  {
    if raw.replayable then Some(raw.body) else None
  }

  /** A completed record was stored by some client that owned the lease, for the same six fields. */
  ghost predicate Provenance(s: State, raw: Raw) {
    raw.Completed? ==> exists k :: StoredBy(s, raw.fingerprint, ReplayBody(raw), k)
  }

  /** The stages before a claim succeeds. */
  predicate Seeking(stage: Stage) { stage.Claim? || stage.Read? || stage.Takeover? }

  predicate StageOk(cfg: Config, s: State, c: Client, stage: Stage) {
    match stage
    case Claim(now0, attempt) => now0 <= s.now && attempt <= 2
    case Read(now0, attempt) => now0 <= s.now && attempt <= 2
    case Takeover(now0, attempt, seen) =>
      && now0 <= s.now && attempt <= 2
      && seen.Processing? && RecordOfLease(s, seen)
      && now0 - seen.startedAt >= cfg.StaleMs()
    case Store(record, onError) =>
      && !onError.Replayed?
      && record.Completed? && record.fingerprint == c.fingerprint && c.produced.Some?
      && (record.replayable ==> c.produced.value.Serializable? && c.produced.value.text == record.body)
    case Drop(after) => !after.Replayed?
  }

  ghost predicate PcOk(cfg: Config, s: State, c: Client) {
    match c.pc
    case Sent(stage) =>
      && StageOk(cfg, s, c, stage)
      && (Seeking(stage) ==> c.lease.None? && !c.settled && c.produced.None?)
    case Answered(stage, reply) =>
      && StageOk(cfg, s, c, stage)
      && (Seeking(stage) ==> !c.settled && c.produced.None?)
      && (Seeking(stage) && !reply.Applied? && !reply.Failed? ==> c.lease.None?)
      && (Seeking(stage) && reply.Applied? ==> c.lease.Some?)
      && (reply.Applied? ==> !stage.Read?)
      && (reply.Found? ==> stage.Read? && RecordOfLease(s, reply.raw) && Provenance(s, reply.raw))
    case Handling => !c.settled && c.produced.None?
    case Finished(outcome) =>
      outcome.Replayed? ==> exists k :: StoredBy(s, c.fingerprint, Some(outcome.body), k)
  }

  ghost predicate ClientOk(cfg: Config, s: State, id: ClaimId)
    requires id in s.clients
  {
    var c := s.clients[id];
    && PcOk(cfg, s, c)
    && (c.settled ==> c.lease.Some?)
    && (OpenLease(s, id) ==> OwnedBy(s.entry, id) || Stale(cfg, s, id))
  }

  ghost predicate EntryOk(cfg: Config, s: State) {
    s.entry.Some? ==>
      var raw := s.entry.value.raw;
      && Provenance(s, raw)
      && RecordOfLease(s, raw)
      && (raw.Processing? ==>
            && !s.clients[raw.claimId].settled
            && s.entry.value.expiresAt >= raw.startedAt + cfg.processingTtl * MILLISECONDS_PER_SECOND)
  }

  ghost predicate Inv(cfg: Config, s: State) {
    EntryOk(cfg, s) && forall id | id in s.clients :: ClientOk(cfg, s, id)
  }

  // ---- Every step keeps the invariant ----

  /** History only grows: no request disappears, and what its history fields record is never rewritten. */
  predicate Grows(s: State, s': State) {
    && s.now <= s'.now
    && forall id | id in s.clients ::
         && id in s'.clients
         && s'.clients[id].fingerprint == s.clients[id].fingerprint
         && (s.clients[id].lease.Some? ==> s'.clients[id].lease == s.clients[id].lease)
         && (s.clients[id].settled ==> s'.clients[id].settled)
         && (s.clients[id].produced.Some? ==> s'.clients[id].produced == s.clients[id].produced)
  }

  lemma NextGrows(cfg: Config, s: State, e: Event)
    requires Inv(cfg, s)
    ensures Grows(s, Next(cfg, s, e))
  {
    if e.Execute? && e.id in s.clients {
      ExecuteGrows(cfg, s, e.id, e.reached, e.answered);
    } else if (e.Resume? || e.HandlerReturns? || e.HandlerThrows?) && e.id in s.clients {
      assert ClientOk(cfg, s, e.id);
    }
  }

  lemma ExecuteGrows(cfg: Config, s: State, id: ClaimId, reached: bool, answered: bool)
    requires Inv(cfg, s) && id in s.clients
    ensures Grows(s, Next(cfg, s, Execute(id, reached, answered)))
  {
    assert ClientOk(cfg, s, id);
  }

  lemma ProvenanceGrows(s: State, s': State, raw: Raw)
    requires Grows(s, s') && Provenance(s, raw)
    ensures Provenance(s', raw)
  {
    if raw.Completed? {
      var k :| StoredBy(s, raw.fingerprint, ReplayBody(raw), k);
      assert StoredBy(s', raw.fingerprint, ReplayBody(raw), k);
    }
  }

  /** What a request knows stays true while others move. */
  lemma PcGrows(cfg: Config, s: State, s': State, c: Client)
    requires Grows(s, s') && PcOk(cfg, s, c)
    ensures PcOk(cfg, s', c)
  {
    if c.pc.Answered? && c.pc.reply.Found? {
      ProvenanceGrows(s, s', c.pc.reply.raw);
    }
    if c.pc.Finished? && c.pc.outcome.Replayed? {
      var k :| StoredBy(s, c.fingerprint, Some(c.pc.outcome.body), k);
      assert StoredBy(s', c.fingerprint, Some(c.pc.outcome.body), k);
    }
  }

  /** An open lease stays exclusive when someone else's step did not take the cell from a fresh owner. */
  lemma BystanderKept(cfg: Config, s: State, s': State, id: ClaimId)
    requires id in s.clients && ClientOk(cfg, s, id) && Grows(s, s')
    requires s'.clients[id] == s.clients[id]
    requires OpenLease(s, id) && OwnedBy(s.entry, id) ==> OwnedBy(s'.entry, id) || Stale(cfg, s', id)
    ensures ClientOk(cfg, s', id)
  {
    PcGrows(cfg, s, s', s.clients[id]);
  }

  lemma EntryKept(cfg: Config, s: State, s': State)
    requires EntryOk(cfg, s) && Grows(s, s')
    requires s'.entry == s.entry
    requires forall id | OpenLease(s, id) && OwnedBy(s.entry, id) :: OpenLease(s', id)
    ensures EntryOk(cfg, s')
  {
    if s.entry.Some? {
      ProvenanceGrows(s, s', s.entry.value.raw);
      assert s.entry.value.raw.Processing? ==> OpenLease(s, s.entry.value.raw.claimId);
    }
  }

  /** A step that only moves one request's program counter. */
  lemma PcStepKeeps(cfg: Config, s: State, s': State, id: ClaimId)
    requires Inv(cfg, s) && Grows(s, s') && id in s.clients
    requires s' == s.(clients := s.clients[id := s'.clients[id]])
    requires s'.clients[id].lease == s.clients[id].lease && s'.clients[id].settled == s.clients[id].settled
    requires PcOk(cfg, s', s'.clients[id])
    ensures Inv(cfg, s')
  {
    EntryKept(cfg, s, s');
    assert ClientOk(cfg, s, id);
    forall k | k in s'.clients ensures ClientOk(cfg, s', k) {
      if k != id { BystanderKept(cfg, s, s', k); }
    }
  }

  lemma ResumeKeeps(cfg: Config, s: State, id: ClaimId, up: bool)
    requires Inv(cfg, s) && id in s.clients && s.clients[id].pc.Answered?
    ensures Inv(cfg, Next(cfg, s, Resume(id, up)))
  {
    var s', c := Next(cfg, s, Resume(id, up)), s.clients[id];
    NextGrows(cfg, s, Resume(id, up));
    assert ClientOk(cfg, s, id);
    if c.pc.reply.Found? {
      ProvenanceGrows(s, s', c.pc.reply.raw);
      var raw := c.pc.reply.raw;
      if raw.Completed? && raw.replayable {
        var k :| StoredBy(s, raw.fingerprint, ReplayBody(raw), k);
        assert StoredBy(s', raw.fingerprint, Some(raw.body), k);
      }
    }
    PcStepKeeps(cfg, s, s', id);
  }

  predicate TakesEffect(cfg: Config, s: State, id: ClaimId)
    requires id in s.clients && s.clients[id].pc.Sent?
  {
    Perform(cfg, s.entry, s.now, CommandOf(id, s.clients[id].fingerprint, s.clients[id].pc.stage)).1.Applied?
  }

  /** Executing a command that Redis refuses, or that only reads, changes no history. */
  lemma UnappliedKeeps(cfg: Config, s: State, id: ClaimId, reached: bool, answered: bool)
    requires Inv(cfg, s) && id in s.clients && s.clients[id].pc.Sent?
    requires !reached || !TakesEffect(cfg, s, id)
    ensures Inv(cfg, Next(cfg, s, Execute(id, reached, answered)))
  {
    var e := Execute(id, reached, answered);
    var s' := Next(cfg, s, e);
    NextGrows(cfg, s, e);
    assert ClientOk(cfg, s, id);
    if s.entry.Some? {
      ProvenanceGrows(s, s', s.entry.value.raw);
    }
    PcStepKeeps(cfg, s, s', id);
  }

  lemma AppliedKeeps(cfg: Config, s: State, id: ClaimId, answered: bool)
    requires cfg.Valid() && Inv(cfg, s) && id in s.clients && s.clients[id].pc.Sent?
    requires TakesEffect(cfg, s, id)
    ensures Inv(cfg, Next(cfg, s, Execute(id, true, answered)))
  {
    var e := Execute(id, true, answered);
    var s', c := Next(cfg, s, e), s.clients[id];
    NextGrows(cfg, s, e);
    assert ClientOk(cfg, s, id);
    forall k | k in s'.clients ensures ClientOk(cfg, s', k) {
      if k != id {
        assert ClientOk(cfg, s, k);
        BystanderKept(cfg, s, s', k);
      } else {
        PcGrows(cfg, s, s', c);
      }
    }
    if c.pc.stage.Store? {
      assert StoredBy(s', c.fingerprint, ReplayBody(c.pc.stage.record), id);
    }
  }

  lemma NextKeepsInv(cfg: Config, s: State, e: Event)
    requires cfg.Valid() && Inv(cfg, s)
    ensures Inv(cfg, Next(cfg, s, e))
  {
    var s' := Next(cfg, s, e);
    NextGrows(cfg, s, e);
    match e
    case Tick(_) =>
      EntryKept(cfg, s, s');
      forall k | k in s'.clients ensures ClientOk(cfg, s', k) { BystanderKept(cfg, s, s', k); }
    case Expire =>
      forall k | k in s'.clients ensures ClientOk(cfg, s', k) {
        assert ClientOk(cfg, s, k);
        BystanderKept(cfg, s, s', k);
      }
    case Arrive(id, _) =>
      EntryKept(cfg, s, s');
      forall k | k in s'.clients ensures ClientOk(cfg, s', k) {
        if k in s.clients { BystanderKept(cfg, s, s', k); }
      }
    case Execute(id, reached, answered) =>
      if s' != s {
        if reached && TakesEffect(cfg, s, id) {
          AppliedKeeps(cfg, s, id, answered);
        } else {
          UnappliedKeeps(cfg, s, id, reached, answered);
        }
      }
    case Resume(id, up) =>
      if s' != s { ResumeKeeps(cfg, s, id, up); }
    case HandlerReturns(id, _, _) =>
      if s' != s { assert ClientOk(cfg, s, id); PcStepKeeps(cfg, s, s', id); }
    case HandlerThrows(id, _) =>
      if s' != s { assert ClientOk(cfg, s, id); PcStepKeeps(cfg, s, s', id); }
  }

  lemma {:induction false} RunKeepsInv(cfg: Config, s: State, es: seq<Event>)
    requires cfg.Valid() && Inv(cfg, s)
    ensures Inv(cfg, Run(cfg, s, es)) && Grows(s, Run(cfg, s, es))
    decreases es
  {
    if es != [] {
      NextKeepsInv(cfg, s, es[0]);
      NextGrows(cfg, s, es[0]);
      RunKeepsInv(cfg, Next(cfg, s, es[0]), es[1..]);
    }
  }
}
