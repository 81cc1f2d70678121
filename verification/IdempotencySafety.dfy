/** What the lease protocol guarantees over every interleaving of any number of requests for one key. */
module IdempotencySafety {
  import opened Options
  import opened IdempotencyRecords
  import opened IdempotencyProtocol

  /** s is a state the protocol can be in. */
  ghost predicate Reachable(cfg: Config, s: State) {
    exists s0: State, es: seq<Event> :: Init(s0) && Run(cfg, s0, es) == s
  }

  lemma ReachableInv(cfg: Config, s: State)
    requires cfg.Valid() && Reachable(cfg, s)
    ensures Inv(cfg, s)
  {
    var s0: State, es: seq<Event> :| Init(s0) && Run(cfg, s0, es) == s;
    RunKeepsInv(cfg, s0, es);
  }

  /** Client id gets its record into Redis in the step from s to s'. */
  predicate Claims(s: State, s': State, id: ClaimId) {
    id in s.clients && id in s'.clients && s.clients[id].lease.None? && s'.clients[id].lease.Some?
  }

  predicate StartsHandler(s: State, s': State, id: ClaimId) {
    id in s.clients && id in s'.clients && !s.clients[id].pc.Handling? && s'.clients[id].pc.Handling?
  }

  /** No other request still holds a lease younger than the stale age. */
  predicate Alone(cfg: Config, s: State, id: ClaimId) {
    forall k | k in s.clients && k != id && OpenLease(s, k) :: Stale(cfg, s, k)
  }

  /** The cell holds another request's processing record, and that record is younger than the stale age. */
  predicate CellTakenByOther(cfg: Config, s: State, id: ClaimId) {
    && s.entry.Some? && s.entry.value.raw.Processing?
    && s.entry.value.raw.claimId != id
    && s.now < s.entry.value.raw.startedAt + cfg.StaleMs()
  }

  // ---- Mutual exclusion ----

  /** A key changes hands only after its owner finalized, released, or let the lease go stale. */
  lemma ClaimOnlyWhenAlone(cfg: Config, s: State, e: Event, id: ClaimId)
    requires cfg.Valid() && Reachable(cfg, s) && Claims(s, Next(cfg, s, e), id)
    ensures Alone(cfg, s, id)
  {
    ReachableInv(cfg, s);
    NextKeepsInv(cfg, s, e);
    NextGrows(cfg, s, e);
    var s' := Next(cfg, s, e);
    ClaimTakesCell(cfg, s, e, id);
    forall k | k in s.clients && k != id && OpenLease(s, k) ensures Stale(cfg, s, k) {
      assert ClientOk(cfg, s', k) && s'.clients[k] == s.clients[k];
    }
  }

  lemma ClaimTakesCell(cfg: Config, s: State, e: Event, id: ClaimId)
    requires Inv(cfg, s) && Claims(s, Next(cfg, s, e), id)
    ensures var s' := Next(cfg, s, e);
            OwnedBy(s'.entry, id) && s'.now == s.now && s'.clients == s.clients[id := s'.clients[id]]
  {
    assert ClientOk(cfg, s, id);
  }

  /** The processing TTL cannot drop a lease before the stale age, because validation orders the two. */
  lemma ExpiryOnlyWhenStale(cfg: Config, s: State, id: ClaimId)
    requires cfg.Valid() && Reachable(cfg, s) && OpenLease(s, id)
    requires OwnedBy(s.entry, id) && Next(cfg, s, Expire).entry.None?
    ensures Stale(cfg, s, id)
  {
    ReachableInv(cfg, s);
  }

  /**
   A handler starts alone exactly when the cell, at that moment, does not hold another request's fresh record.
   Every other open lease is accounted for by that one read.
   */
  lemma HandlerStartsAloneIff(cfg: Config, s: State, e: Event, id: ClaimId)
    requires cfg.Valid() && Reachable(cfg, s) && StartsHandler(s, Next(cfg, s, e), id)
    ensures Alone(cfg, Next(cfg, s, e), id) <==> !CellTakenByOther(cfg, Next(cfg, s, e), id)
  {
    ReachableInv(cfg, s);
    NextKeepsInv(cfg, s, e);
    var s' := Next(cfg, s, e);
    if CellTakenByOther(cfg, s', id) {
      var k := s'.entry.value.raw.claimId;
      assert OpenLease(s', k) && !Stale(cfg, s', k);
    } else {
      forall k | k in s'.clients && k != id && OpenLease(s', k) ensures Stale(cfg, s', k) {
        assert ClientOk(cfg, s', k);
      }
    }
  }

  /** In particular a request whose claim is answered before its own lease is stale starts alone. */
  lemma FreshLeaseStartsAlone(cfg: Config, s: State, id: ClaimId)
    requires cfg.Valid() && Reachable(cfg, s)
    requires OpenLease(s, id) && !Stale(cfg, s, id)
    ensures Alone(cfg, s, id)
  {
    ReachableInv(cfg, s);
    assert ClientOk(cfg, s, id);
    forall k | k in s.clients && k != id && OpenLease(s, k) ensures Stale(cfg, s, k) {
      assert ClientOk(cfg, s, k);
    }
  }

  predicate Running(s: State, id: ClaimId) { id in s.clients && s.clients[id].pc.Handling? }

  /** The handler runs on a lease that no other request may take yet. */
  predicate RunsFresh(cfg: Config, s: State, id: ClaimId) {
    Running(s, id) && OpenLease(s, id) && !Stale(cfg, s, id)
  }

  /** Of any two handlers that run at once, leased or not, one is unclaimed or has outlived the stale age. */
  lemma OverlapNeedsStaleLease(cfg: Config, s: State, i: ClaimId, k: ClaimId)
    requires cfg.Valid() && Reachable(cfg, s) && i != k && Running(s, i) && Running(s, k)
    ensures !RunsFresh(cfg, s, i) || !RunsFresh(cfg, s, k)
    ensures !RunsFresh(cfg, s, i) <==> s.clients[i].lease.None? || (OpenLease(s, i) && Stale(cfg, s, i))
  {
    ReachableInv(cfg, s);
    assert ClientOk(cfg, s, i) && ClientOk(cfg, s, k);
  }

  /**
   A starting handler has company exactly of two kinds: handlers that run unclaimed or stale, which no look at the cell
   reveals, and the one whose fresh record the cell holds.
   */
  lemma CompanyAtStartIff(cfg: Config, s: State, e: Event, id: ClaimId, k: ClaimId)
    requires cfg.Valid() && Reachable(cfg, s) && StartsHandler(s, Next(cfg, s, e), id)
    requires k != id && Running(Next(cfg, s, e), k)
    ensures var s' := Next(cfg, s, e);
            RunsFresh(cfg, s', k) <==> CellTakenByOther(cfg, s', id) && OwnedBy(s'.entry, k)
  {
    ReachableInv(cfg, s);
    NextKeepsInv(cfg, s, e);
    var s' := Next(cfg, s, e);
    assert ClientOk(cfg, s', k);
  }

  /** A handler starts without a lease exactly when the last reply granted none: a retry found no ready Redis client. */
  lemma UnclaimedStartIff(cfg: Config, s: State, e: Event, id: ClaimId)
    requires cfg.Valid() && Reachable(cfg, s) && StartsHandler(s, Next(cfg, s, e), id)
    ensures e.Resume? && e.id == id && s.clients[id].pc.Answered?
    ensures Next(cfg, s, e).clients[id].lease.None? <==> !s.clients[id].pc.reply.Applied?
    ensures Next(cfg, s, e).clients[id].lease.None? ==> !e.up && !s.clients[id].pc.reply.Failed?
  {
    ReachableInv(cfg, s);
    assert ClientOk(cfg, s, id);
  }

  // ---- The two ways the guard of HandlerStartsAloneIff fails, for every configuration ----

  const START := State(None, 1, map[])
  const PRINT := Fingerprint("d", "POST", "/r", "/r", "q", "b")

  function Asked(pc: Pc, lease: Option<int>, settled: bool): Client { Client(PRINT, pc, lease, settled, None) }

  /** "a" has claimed the key at time 1; the reply is still on its way. */
  function Claimed(cfg: Config): State {
    State(Some(Entry(Processing("a", PRINT, 1), 1 + cfg.processingTtl * MILLISECONDS_PER_SECOND)), 1,
          map["a" := Asked(Answered(Claim(1, 0), Applied), Some(1), false)])
  }

  lemma ClaimedReachable(cfg: Config)
    ensures Reachable(cfg, Claimed(cfg))
  {
    Reach2(cfg, START, Arrive("a", PRINT), Execute("a", true, true));
    assert Next(cfg, START, Arrive("a", PRINT)) == State(None, 1, map["a" := Asked(Sent(Claim(1, 0)), None, false)]);
    assert Next(cfg, Next(cfg, START, Arrive("a", PRINT)), Execute("a", true, true)) == Claimed(cfg);
  }

  /** "b" arrives at time t beside the claimed key and reads a's record. */
  function Beside(cfg: Config, t: int, pc: Pc): State {
    Claimed(cfg).(now := t, clients := Claimed(cfg).clients["b" := Asked(pc, None, false)])
  }

  lemma BesideReads(cfg: Config, elapsed: nat)
    requires cfg.Valid()
    ensures var t := 1 + elapsed; Reachable(cfg, Beside(cfg, t, Sent(Read(t, 0))))
  {
    var t := 1 + elapsed;
    ClaimedReachable(cfg);
    Reach2(cfg, Claimed(cfg), Tick(elapsed), Arrive("b", PRINT));
    assert Next(cfg, Next(cfg, Claimed(cfg), Tick(elapsed)), Arrive("b", PRINT)) == Beside(cfg, t, Sent(Claim(t, 0)));
    Reach2(cfg, Beside(cfg, t, Sent(Claim(t, 0))), Execute("b", true, true), Resume("b", true));
    assert Next(cfg, Beside(cfg, t, Sent(Claim(t, 0))), Execute("b", true, true))
        == Beside(cfg, t, Answered(Claim(t, 0), Refused));
    assert Next(cfg, Beside(cfg, t, Answered(Claim(t, 0), Refused)), Resume("b", true))
        == Beside(cfg, t, Sent(Read(t, 0)));
  }

  /** "b" has recovered the key at time t and its handler runs. */
  function Recovered(cfg: Config, t: int): State {
    State(Some(Entry(Processing("b", PRINT, t), t + cfg.processingTtl * MILLISECONDS_PER_SECOND)), t,
          Claimed(cfg).clients["b" := Asked(Handling, Some(t), false)])
  }

  lemma RecoveredReachable(cfg: Config)
    requires cfg.Valid()
    ensures Reachable(cfg, Recovered(cfg, 1 + cfg.StaleMs()))
  {
    var t := 1 + cfg.StaleMs();
    var seen := Processing("a", PRINT, 1);
    BesideReads(cfg, cfg.StaleMs());
    Reach2(cfg, Beside(cfg, t, Sent(Read(t, 0))), Execute("b", true, true), Resume("b", true));
    assert Next(cfg, Beside(cfg, t, Sent(Read(t, 0))), Execute("b", true, true))
        == Beside(cfg, t, Answered(Read(t, 0), Found(seen)));
    assert Next(cfg, Beside(cfg, t, Answered(Read(t, 0), Found(seen))), Resume("b", true))
        == Beside(cfg, t, Sent(Takeover(t, 0, seen)));
    Reach2(cfg, Beside(cfg, t, Sent(Takeover(t, 0, seen))), Execute("b", true, true), Resume("b", true));
    var s := Next(cfg, Beside(cfg, t, Sent(Takeover(t, 0, seen))), Execute("b", true, true));
    var b := Asked(Answered(Takeover(t, 0, seen), Applied), Some(t), false);
    assert s == Recovered(cfg, t).(clients := Claimed(cfg).clients["b" := b]);
    assert Next(cfg, s, Resume("b", true)) == Recovered(cfg, t);
  }

  /**
   A reply that takes longer than the stale age: b recovers the lease and runs, then a's own claim is
   answered and a's handler starts beside it.
   */
  lemma LateReplyOverlaps(cfg: Config)
    requires cfg.Valid()
    ensures exists s: State, e: Event ::
              && Reachable(cfg, s) && StartsHandler(s, Next(cfg, s, e), "a")
              && !Alone(cfg, Next(cfg, s, e), "a") && "b" in s.clients && s.clients["b"].pc.Handling?
  {
    var s := Recovered(cfg, 1 + cfg.StaleMs());
    RecoveredReachable(cfg);
    var s' := Next(cfg, s, Resume("a", true));
    assert OpenLease(s', "b") && !Stale(cfg, s', "b");
    assert StartsHandler(s, s', "a");
  }

  /** "a" released the key after a failed handler, "b" was told the cell is empty, and "c" has since claimed it. */
  function Abandoned(pc: Pc): map<ClaimId, Client> {
    map["a" := Asked(Answered(Drop(HandlerFailed), Applied), Some(1), true), "b" := Asked(pc, None, false)]
  }

  function Abandoning(cfg: Config): map<ClaimId, Client> {
    Beside(cfg, 1, Sent(Read(1, 0))).clients["a" := Asked(Sent(Drop(HandlerFailed)), Some(1), false)]
  }

  lemma ReleasedReachable(cfg: Config)
    requires cfg.Valid()
    ensures Reachable(cfg, Beside(cfg, 1, Sent(Read(1, 0))).(
                clients := Abandoning(cfg)))
  {
    BesideReads(cfg, 0);
    var s1 := Beside(cfg, 1, Sent(Read(1, 0)));
    Reach2(cfg, s1, Resume("a", true), HandlerThrows("a", true));
    var mid := s1.(clients := s1.clients["a" := Asked(Handling, Some(1), false)]);
    assert Next(cfg, s1, Resume("a", true)) == mid;
    assert Next(cfg, mid, HandlerThrows("a", true))
        == s1.(clients := s1.clients["a" := Asked(Sent(Drop(HandlerFailed)), Some(1), false)]);
  }

  lemma AbandonedReachable(cfg: Config)
    requires cfg.Valid()
    ensures Reachable(cfg, State(None, 1, Abandoned(Answered(Read(1, 0), Refused))))
  {
    ReleasedReachable(cfg);
    var s1 := Beside(cfg, 1, Sent(Read(1, 0)));
    var s2 := s1.(clients := s1.clients["a" := Asked(Sent(Drop(HandlerFailed)), Some(1), false)]);
    Reach2(cfg, s2, Execute("a", true, true), Execute("b", true, true));
    var s3 := State(None, 1, Abandoned(Sent(Read(1, 0))));
    assert Next(cfg, s2, Execute("a", true, true)) == s3;
    assert Next(cfg, s3, Execute("b", true, true)) == State(None, 1, Abandoned(Answered(Read(1, 0), Refused)));
  }

  /**
   A retry that finds no ready Redis client returns undefined, which the interceptor reads as a claim:
   b's handler runs with no lease at all while c holds a fresh one.
   */
  lemma LostClientRunsUnclaimed(cfg: Config)
    requires cfg.Valid()
    ensures exists s: State, e: Event ::
              && Reachable(cfg, s) && StartsHandler(s, Next(cfg, s, e), "b")
              && Next(cfg, s, e).clients["b"].lease.None?
              && !Alone(cfg, Next(cfg, s, e), "b")
  {
    var s4 := State(None, 1, Abandoned(Answered(Read(1, 0), Refused)));
    var s5 := s4.(clients := s4.clients["c" := Asked(Sent(Claim(1, 0)), None, false)]);
    AbandonedReachable(cfg);
    Reach2(cfg, s4, Tick(0), Arrive("c", PRINT));
    assert Next(cfg, s4, Tick(0)) == s4;
    Reach2(cfg, s5, Execute("c", true, true), Resume("c", true));
    var s6 := Next(cfg, Next(cfg, s5, Execute("c", true, true)), Resume("c", true));
    var s7 := Next(cfg, s6, Resume("b", false));
    assert s6.clients["c"] == Asked(Handling, Some(1), false) && s6.now == 1;
    assert OpenLease(s7, "c") && !Stale(cfg, s7, "c");
    assert StartsHandler(s6, s7, "b");
  }

  lemma {:induction false} RunConcat(cfg: Config, s: State, es: seq<Event>, fs: seq<Event>)
    ensures Run(cfg, s, es + fs) == Run(cfg, Run(cfg, s, es), fs)
    decreases es
  {
    if es == [] {
      assert es + fs == fs;
    } else {
      assert (es + fs)[0] == es[0] && (es + fs)[1..] == es[1..] + fs;
      RunConcat(cfg, Next(cfg, s, es[0]), es[1..], fs);
    }
  }

  lemma Reach2(cfg: Config, s: State, e: Event, f: Event)
    requires Reachable(cfg, s) || Init(s)
    ensures Reachable(cfg, Next(cfg, Next(cfg, s, e), f))
  {
    if Init(s) { assert Run(cfg, s, []) == s; }
    var s0: State, es: seq<Event> :| Init(s0) && Run(cfg, s0, es) == s;
    RunConcat(cfg, s0, es, [e, f]);
    assert [e, f][1..] == [f] && [f][1..] == [];
    assert Run(cfg, Next(cfg, s, e), [f]) == Next(cfg, Next(cfg, s, e), f);
    assert Run(cfg, s, [e, f]) == Next(cfg, Next(cfg, s, e), f);
  }

  // ---- A stored response ----

  lemma CompletedStep(cfg: Config, s: State, e: Event)
    requires cfg.Valid() && Inv(cfg, s)
    requires s.entry.Some? && s.entry.value.raw.Completed? && Next(cfg, s, e).now < s.entry.value.expiresAt
    ensures Next(cfg, s, e).entry == s.entry
    ensures forall id | id in s.clients ::
              id in Next(cfg, s, e).clients && Next(cfg, s, e).clients[id].lease == s.clients[id].lease
  {
    NextGrows(cfg, s, e);
    if e.Execute? && e.id in s.clients {
      assert ClientOk(cfg, s, e.id);
    }
  }

  /**
   Until it expires, a stored response is untouched by every sequence of claims, recoveries, finalizes and
   releases, and no request obtains a lease.
   */
  lemma {:induction false} StoredResponseIsFinal(cfg: Config, s: State, es: seq<Event>)
    requires cfg.Valid() && Inv(cfg, s)
    requires s.entry.Some? && s.entry.value.raw.Completed? && Run(cfg, s, es).now < s.entry.value.expiresAt
    ensures Run(cfg, s, es).entry == s.entry
    ensures forall id | id in s.clients ::
              id in Run(cfg, s, es).clients && Run(cfg, s, es).clients[id].lease == s.clients[id].lease
    decreases es
  {
    if es != [] {
      var s1 := Next(cfg, s, es[0]);
      NextKeepsInv(cfg, s, es[0]);
      RunKeepsInv(cfg, s1, es[1..]);
      CompletedStep(cfg, s, es[0]);
      StoredResponseIsFinal(cfg, s1, es[1..]);
    }
  }

  /** Every replayed body was produced and stored by the lease owner of a request with the same six fields. */
  lemma ReplayHasOrigin(cfg: Config, s: State, id: ClaimId) returns (k: ClaimId)
    requires cfg.Valid() && Reachable(cfg, s)
    requires id in s.clients && s.clients[id].pc.Finished? && s.clients[id].pc.outcome.Replayed?
    ensures StoredBy(s, s.clients[id].fingerprint, Some(s.clients[id].pc.outcome.body), k)
  {
    ReachableInv(cfg, s);
    assert ClientOk(cfg, s, id);
    k :| StoredBy(s, s.clients[id].fingerprint, Some(s.clients[id].pc.outcome.body), k);
  }

  /** A completed record is within the limit, and its size is that of the text it replays. */
  predicate Small(cfg: Config, raw: Raw) {
    raw.Completed? ==> raw.bodyBytes <= cfg.maxBytes && (raw.replayable ==> raw.bodyBytes == Utf8Length(raw.body))
  }

  /** No response over the size limit is in the cell or on its way there. */
  ghost predicate AllSmall(cfg: Config, s: State) {
    && (s.entry.Some? ==> Small(cfg, s.entry.value.raw))
    && forall id | id in s.clients :: StoresSmall(cfg, s.clients[id].pc)
  }

  predicate StoresSmall(cfg: Config, pc: Pc) {
    match pc
    case Sent(Store(record, _)) => Small(cfg, record)
    case _ => true
  }

  lemma NextKeepsSmall(cfg: Config, s: State, e: Event)
    requires AllSmall(cfg, s)
    ensures AllSmall(cfg, Next(cfg, s, e))
  {
    if e.Execute? && e.id in s.clients { assert StoresSmall(cfg, s.clients[e.id].pc); }
    var s' := Next(cfg, s, e);
    forall id | id in s'.clients ensures StoresSmall(cfg, s'.clients[id].pc) {
      if id in s.clients { assert StoresSmall(cfg, s.clients[id].pc); }
    }
  }

  /** In every run, a response whose text takes more UTF-8 bytes than the limit is never cached. */
  lemma {:induction false} LargeResponsesAreNeverStored(cfg: Config, s: State, es: seq<Event>)
    requires Init(s) || AllSmall(cfg, s)
    ensures AllSmall(cfg, Run(cfg, s, es))
    decreases es
  {
    if es != [] {
      NextKeepsSmall(cfg, s, es[0]);
      LargeResponsesAreNeverStored(cfg, Next(cfg, s, es[0]), es[1..]);
    }
  }

  // ---- Displaced owners ----

  lemma NotRegainedStep(cfg: Config, s: State, e: Event, id: ClaimId)
    requires cfg.Valid() && Inv(cfg, s) && id in s.clients && s.clients[id].lease.Some? && !OwnedBy(s.entry, id)
    ensures !OwnedBy(Next(cfg, s, e).entry, id)
  {
    assert ClientOk(cfg, s, id);
    if e.Execute? && e.id in s.clients {
      assert ClientOk(cfg, s, e.id);
    }
  }

  /** A cell once lost (recovered, expired, finalized or released) never again holds that owner's record. */
  lemma {:induction false} LostCellIsNeverRegained(cfg: Config, s: State, es: seq<Event>, id: ClaimId)
    requires cfg.Valid() && Inv(cfg, s) && id in s.clients && s.clients[id].lease.Some? && !OwnedBy(s.entry, id)
    ensures !OwnedBy(Run(cfg, s, es).entry, id)
    decreases es
  {
    if es != [] {
      NotRegainedStep(cfg, s, es[0], id);
      NextKeepsInv(cfg, s, es[0]);
      NextGrows(cfg, s, es[0]);
      LostCellIsNeverRegained(cfg, Next(cfg, s, es[0]), es[1..], id);
    }
  }

  /** So a displaced owner's finalize and release, however late, change nothing in the cell. */
  lemma DisplacedOwnerIsHarmless(cfg: Config, s: State, es: seq<Event>, e: Event, id: ClaimId)
    requires cfg.Valid() && Reachable(cfg, s)
    requires id in s.clients && s.clients[id].lease.Some? && !OwnedBy(s.entry, id)
    requires (e.Execute? || e.Resume? || e.HandlerReturns? || e.HandlerThrows?) && e.id == id
    ensures Next(cfg, Run(cfg, s, es), e).entry == Run(cfg, s, es).entry
  {
    ReachableInv(cfg, s);
    LostCellIsNeverRegained(cfg, s, es, id);
    RunKeepsInv(cfg, s, es);
    assert ClientOk(cfg, Run(cfg, s, es), id);
  }

  /** A request about to run RECOVER against the record `raw`. */
  predicate Recovering(s: State, id: ClaimId, raw: Raw) {
    id in s.clients && s.clients[id].pc.Sent? && s.clients[id].pc.stage.Takeover? && s.clients[id].pc.stage.seen == raw
  }

  /** Of all requests recovering one and the same record, only the first succeeds; the others are refused. */
  lemma OneRecoveryWins(cfg: Config, s: State, raw: Raw, j: ClaimId, answered: bool, es: seq<Event>, k: ClaimId,
      answered': bool)
    requires cfg.Valid() && Reachable(cfg, s) && Recovering(s, j, raw)
    requires s.entry.Some? && s.entry.value.raw == raw
    requires Recovering(Run(cfg, Next(cfg, s, Execute(j, true, answered)), es), k, raw)
    ensures var won := Next(cfg, s, Execute(j, true, answered));
            && OwnedBy(won.entry, j) && won.clients[j].lease.Some?
            && var later := Run(cfg, won, es);
               && Next(cfg, later, Execute(k, true, answered')).entry == later.entry
               && !Claims(later, Next(cfg, later, Execute(k, true, answered')), k)
  {
    ReachableInv(cfg, s);
    assert ClientOk(cfg, s, j);
    var won := Next(cfg, s, Execute(j, true, answered));
    NextKeepsInv(cfg, s, Execute(j, true, answered));
    LostCellIsNeverRegained(cfg, won, es, raw.claimId);
  }

  lemma RunAround(cfg: Config, s: State, es: seq<Event>, e: Event, fs: seq<Event>)
    ensures Run(cfg, s, es + [e] + fs) == Run(cfg, Next(cfg, Run(cfg, s, es), e), fs)
  {
    RunConcat(cfg, s, es + [e], fs);
    RunConcat(cfg, s, es, [e]);
    assert [e][1..] == [];
  }

  /** A finalize whose reply was lost is followed by a release, and that release never deletes the response. */
  lemma ReleaseAfterLostFinalize(cfg: Config, s: State, id: ClaimId, es: seq<Event>, up: bool, fs: seq<Event>,
      answered: bool)
    requires cfg.Valid() && Reachable(cfg, s) && OwnedBy(s.entry, id)
    requires id in s.clients && s.clients[id].pc.Sent? && s.clients[id].pc.stage.Store?
    ensures var stored := Next(cfg, s, Execute(id, true, false));
            && stored.entry.Some? && stored.entry.value.raw == s.clients[id].pc.stage.record
            && var after := Run(cfg, Next(cfg, Run(cfg, stored, es), Resume(id, up)), fs);
               Next(cfg, after, Execute(id, true, answered)).entry == after.entry
  {
    ReachableInv(cfg, s);
    assert ClientOk(cfg, s, id);
    var stored := Next(cfg, s, Execute(id, true, false));
    NextKeepsInv(cfg, s, Execute(id, true, false));
    NextGrows(cfg, s, Execute(id, true, false));
    var path := es + [Resume(id, up)] + fs;
    RunAround(cfg, stored, es, Resume(id, up), fs);
    LostCellIsNeverRegained(cfg, stored, path, id);
    RunKeepsInv(cfg, stored, path);
    assert ClientOk(cfg, Run(cfg, stored, path), id);
  }

  // ---- Bounded retry ----

  /** Own steps a request may still take before it holds a claim or has an answer. */
  function SeekBudget(pc: Pc): nat {
    match pc
    case Sent(stage) => StageBudget(stage) + 1
    case Answered(stage, _) => StageBudget(stage)
    case Handling => 0
    case Finished(_) => 0
  }

  function StageBudget(stage: Stage): nat {
    match stage
    case Claim(_, attempt) => if attempt <= 2 then 6 * (2 - attempt) + 5 else 0
    case Read(_, attempt) => if attempt <= 2 then 6 * (2 - attempt) + 3 else 0
    case Takeover(_, attempt, _) => if attempt <= 2 then 6 * (2 - attempt) + 1 else 0
    case Store(_, _) => 0
    case Drop(_) => 0
  }

  /** claimOrRead makes at most three attempts: 18 own steps after arrival it has claimed or answered. */
  lemma ClaimingTerminates(cfg: Config, s: State, e: Event)
    requires cfg.Valid() && Reachable(cfg, s) && (e.Execute? || e.Resume?) && e.id in s.clients
    requires var pc := s.clients[e.id].pc;
             if e.Execute? then pc.Sent? && Seeking(pc.stage) else pc.Answered? && Seeking(pc.stage)
    ensures SeekBudget(Next(cfg, s, e).clients[e.id].pc) < SeekBudget(s.clients[e.id].pc) <= 18
  {
    ReachableInv(cfg, s);
    assert ClientOk(cfg, s, e.id);
  }
}
