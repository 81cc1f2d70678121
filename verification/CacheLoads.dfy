/**
 CacheService.getOrSet: coalescing of concurrent loads of one key.

 `await this.get(key)`, the fetch and the write-back suspend the caller; everything between two awaits is one step.
 A load is one run of fetchAndCache. A fetcher that throws at once is a load that settles with an error: the
 registered promise starts it only after registration.
 */
module CacheLoads {
  import opened FiniteSets
  import opened Options

  const MAX_INFLIGHT_CACHE_LOADS := 1_000

  datatype Result<V> = Value(value: V) | Error(error: nat)

  datatype Load<V> = Load(key: string, tracked: bool, outcome: Option<Result<V>>)

  datatype Caller<V> =
    | Reading(key: string)
    | Waiting(key: string, load: nat)
    | Hit(value: V)
    | Finished(load: nat, result: Result<V>)

  datatype State<V> = State(inflight: map<string, nat>, loads: seq<Load<V>>, callers: map<nat, Caller<V>>)

  datatype Event<V> =
    | Call(caller: nat, key: string)
    | GetReturns(caller: nat, cached: Option<V>)
    | LoadSettles(load: nat, result: Result<V>)

  /** A caller that waits for the load that just settled gets its result. */
  function Awake<V>(c: Caller<V>, load: nat, result: Result<V>): Caller<V> {
    if c.Waiting? && c.load == load then Finished(load, result) else c
  }

  function Next<V>(s: State<V>, e: Event<V>): State<V> {
    match e
    case Call(caller, key) =>
      if caller in s.callers then s else s.(callers := s.callers[caller := Reading(key)])
    case GetReturns(caller, cached) =>
      if caller !in s.callers || !s.callers[caller].Reading? then s
      else
        var key := s.callers[caller].key;
        if cached.Some? then s.(callers := s.callers[caller := Hit(cached.value)])
        else if key in s.inflight then s.(callers := s.callers[caller := Waiting(key, s.inflight[key])])
        else
          var tracked := |s.inflight| < MAX_INFLIGHT_CACHE_LOADS;
          State(if tracked then s.inflight[key := |s.loads|] else s.inflight,
                s.loads + [Load(key, tracked, None)],
                s.callers[caller := Waiting(key, |s.loads|)])
    case LoadSettles(load, result) =>
      if load >= |s.loads| || s.loads[load].outcome.Some? then s
      else
        var l := s.loads[load];
        State(if l.tracked then s.inflight - {l.key} else s.inflight,
              s.loads[load := l.(outcome := Some(result))],
              map c | c in s.callers :: Awake(s.callers[c], load, result))
  }

  function Run<V>(s: State<V>, es: seq<Event<V>>): State<V>
    decreases es
  {
    if es == [] then s else Run(Next(s, es[0]), es[1..])
  }

  function Idle<V>(): State<V> { State(map[], [], map[]) }

  /** Load l is the one registered under its key: it is tracked and has not settled. */
  predicate Registered<V>(s: State<V>, l: nat) {
    l < |s.loads| && s.loads[l].tracked && s.loads[l].outcome.None?
  }

  ghost predicate CallerOk<V>(s: State<V>, c: Caller<V>) {
    match c
    case Waiting(key, load) => load < |s.loads| && s.loads[load].key == key && s.loads[load].outcome.None?
    case Finished(load, result) => load < |s.loads| && s.loads[load].outcome == Some(result)
    case _ => true
  }

  ghost predicate Inv<V>(s: State<V>) {
    && |s.inflight| <= MAX_INFLIGHT_CACHE_LOADS
    && (forall key | key in s.inflight :: Registered(s, s.inflight[key]) && s.loads[s.inflight[key]].key == key)
    && (forall l: nat | Registered(s, l) :: s.loads[l].key in s.inflight && s.inflight[s.loads[l].key] == l)
    && forall c | c in s.callers :: CallerOk(s, s.callers[c])
  }

  lemma StartKeepsInv<V>(s: State<V>, caller: nat)
    requires Inv(s) && caller in s.callers && s.callers[caller].Reading? && s.callers[caller].key !in s.inflight
    ensures Inv(Next(s, GetReturns(caller, None)))
  {
    var s' := Next(s, GetReturns(caller, None));
    var key := s.callers[caller].key;
    if s'.inflight != s.inflight {
      assert s'.inflight.Keys == s.inflight.Keys + {key};
      assert |s'.inflight| == |s'.inflight.Keys|;
    }
    forall k | k in s'.inflight ensures Registered(s', s'.inflight[k]) && s'.loads[s'.inflight[k]].key == k {
      if k in s.inflight { assert Registered(s, s.inflight[k]); }
    }
    forall l: nat | Registered(s', l) ensures s'.loads[l].key in s'.inflight && s'.inflight[s'.loads[l].key] == l {
      if l < |s.loads| { assert Registered(s, l); }
    }
    forall c | c in s'.callers ensures CallerOk(s', s'.callers[c]) {
      if c != caller { assert CallerOk(s, s.callers[c]); }
    }
  }

  /** Settling a load removes its own entry and never a newer one. */
  lemma SettleRemovesOwnEntry<V>(s: State<V>, load: nat, result: Result<V>)
    requires Inv(s) && load < |s.loads| && s.loads[load].outcome.None?
    ensures var s' := Next(s, LoadSettles(load, result));
            && (forall key :: key in s'.inflight <==> key in s.inflight && s.inflight[key] != load)
            && (forall key | key in s'.inflight :: s'.inflight[key] == s.inflight[key])
  {
    var l := s.loads[load];
    assert l.tracked ==> Registered(s, load);
    forall k | k in s.inflight ensures s.inflight[k] == load ==> l.tracked && k == l.key {
      assert Registered(s, s.inflight[k]);
    }
  }

  lemma SettleKeepsInv<V>(s: State<V>, load: nat, result: Result<V>)
    requires Inv(s) && load < |s.loads| && s.loads[load].outcome.None?
    ensures Inv(Next(s, LoadSettles(load, result)))
  {
    var s' := Next(s, LoadSettles(load, result));
    SettleRemovesOwnEntry(s, load, result);
    assert s'.inflight.Keys <= s.inflight.Keys;
    SubsetSize(s'.inflight.Keys, s.inflight.Keys);
    assert |s'.inflight| == |s'.inflight.Keys|;
    forall i: nat ensures Registered(s', i) <==> Registered(s, i) && i != load {}
    forall k | k in s'.inflight ensures Registered(s', s'.inflight[k]) && s'.loads[s'.inflight[k]].key == k {
      assert Registered(s, s.inflight[k]);
    }
    SettleKeepsCallers(s, load, result);
  }

  lemma SettleKeepsCallers<V>(s: State<V>, load: nat, result: Result<V>)
    requires load < |s.loads| && s.loads[load].outcome.None?
    requires forall c | c in s.callers :: CallerOk(s, s.callers[c])
    ensures var s' := Next(s, LoadSettles(load, result)); forall c | c in s'.callers :: CallerOk(s', s'.callers[c])
  {
    var s' := Next(s, LoadSettles(load, result));
    forall c | c in s'.callers ensures CallerOk(s', s'.callers[c]) { assert CallerOk(s, s.callers[c]); }
  }

  lemma NextKeepsInv<V>(s: State<V>, e: Event<V>)
    requires Inv(s)
    ensures Inv(Next(s, e))
  {
    var s' := Next(s, e);
    match e
    case Call(_, _) =>
      forall l: nat | Registered(s', l) ensures s'.loads[l].key in s'.inflight && s'.inflight[s'.loads[l].key] == l {
        assert Registered(s, l);
      }
      forall k | k in s'.inflight ensures Registered(s', s'.inflight[k]) { assert Registered(s, s.inflight[k]); }
      forall c | c in s'.callers ensures CallerOk(s', s'.callers[c]) {
        if c in s.callers { assert CallerOk(s, s.callers[c]); }
      }
    case GetReturns(caller, cached) =>
      if s' != s {
        if cached.None? && s.callers[caller].key !in s.inflight {
          StartKeepsInv(s, caller);
        } else {
          forall l: nat | Registered(s', l)
            ensures s'.loads[l].key in s'.inflight && s'.inflight[s'.loads[l].key] == l
          {
            assert Registered(s, l);
          }
          forall k | k in s'.inflight ensures Registered(s', s'.inflight[k]) { assert Registered(s, s.inflight[k]); }
          forall c | c in s'.callers ensures CallerOk(s', s'.callers[c]) { assert CallerOk(s, s.callers[c]); }
        }
      }
    case LoadSettles(load, result) => if s' != s { SettleKeepsInv(s, load, result); }
  }

  lemma {:induction false} RunKeepsInv<V>(s: State<V>, es: seq<Event<V>>)
    requires Inv(s)
    ensures Inv(Run(s, es))
    decreases es
  {
    if es != [] {
      NextKeepsInv(s, es[0]);
      RunKeepsInv(Next(s, es[0]), es[1..]);
    }
  }

  /**
   In every run: at most 1,000 loads are registered, at most one per key; a waiting caller waits for a load of its own
   key that has not settled; a finished caller got exactly the result or error of its load; and when every load has
   settled nothing is left in the map.
   */
  lemma LoadsAreCoalesced<V>(es: seq<Event<V>>)
    ensures var s := Run(Idle<V>(), es);
            && |s.inflight| <= MAX_INFLIGHT_CACHE_LOADS
            && (forall i: nat, j: nat |
                  Registered(s, i) && Registered(s, j) && s.loads[i].key == s.loads[j].key :: i == j)
            && (forall c | c in s.callers :: CallerOk(s, s.callers[c]))
            && ((forall l | 0 <= l < |s.loads| :: s.loads[l].outcome.Some?) ==> s.inflight == map[])
  {
    RunKeepsInv(Idle<V>(), es);
    var s := Run(Idle<V>(), es);
    if forall l | 0 <= l < |s.loads| :: s.loads[l].outcome.Some? {
      assert forall key | key in s.inflight :: Registered(s, s.inflight[key]);
      assert s.inflight.Keys == {};
    }
  }

  /**
   A caller that misses the cache starts a load exactly when none is registered for its key; otherwise it waits for
   that one. The new load stays unregistered only when 1,000 others are registered.
   */
  lemma MissStartsLoadIff<V>(s: State<V>, caller: nat)
    requires Inv(s) && caller in s.callers && s.callers[caller].Reading?
    ensures var s', key := Next(s, GetReturns(caller, None)), s.callers[caller].key;
            && (|s'.loads| == |s.loads| + 1 <==> !exists l: nat :: Registered(s, l) && s.loads[l].key == key)
            && s'.callers[caller].Waiting? && s'.loads[s'.callers[caller].load].key == key
            && (forall l: nat | Registered(s, l) && s.loads[l].key == key ::
                  s'.callers[caller].load == l && s'.loads == s.loads)
            && (|s'.loads| == |s.loads| + 1 ==>
                  && s'.callers[caller].load == |s.loads|
                  && (Registered(s', |s.loads|) <==> |s.inflight| < MAX_INFLIGHT_CACHE_LOADS))
  {
    var key := s.callers[caller].key;
    if key in s.inflight { assert Registered(s, s.inflight[key]); }
  }

  // ---- Over whole runs ----

  /** The read of this caller in a run: what it found, if it has returned. */
  function Found<V>(es: seq<Event<V>>, caller: nat): Option<Option<V>>
    decreases es
  {
    if es == [] then None
    else if es[0].GetReturns? && es[0].caller == caller then Some(es[0].cached)
    else Found(es[1..], caller)
  }

  lemma {:induction false} HitStays<V>(s: State<V>, es: seq<Event<V>>, c: nat)
    requires c in s.callers && s.callers[c].Hit?
    ensures c in Run(s, es).callers && Run(s, es).callers[c] == s.callers[c]
    decreases es
  {
    if es != [] { HitStays(Next(s, es[0]), es[1..], c); }
  }

  lemma {:induction false} MissNeverHits<V>(s: State<V>, es: seq<Event<V>>, c: nat)
    requires c in s.callers && (s.callers[c].Waiting? || s.callers[c].Finished?)
    ensures c in Run(s, es).callers && (Run(s, es).callers[c].Waiting? || Run(s, es).callers[c].Finished?)
    decreases es
  {
    if es != [] { MissNeverHits(Next(s, es[0]), es[1..], c); }
  }

  /**
   In every run a caller that reads the cache is given exactly the value its read found; one whose read found nothing
   waits for a load or has its result.
   */
  lemma {:induction false} ReaderGetsCachedValue<V>(s: State<V>, es: seq<Event<V>>, c: nat)
    requires c in s.callers && s.callers[c].Reading?
    ensures c in Run(s, es).callers
    ensures match Found(es, c)
            case None => Run(s, es).callers[c] == s.callers[c]
            case Some(None) => Run(s, es).callers[c].Waiting? || Run(s, es).callers[c].Finished?
            case Some(Some(v)) => Run(s, es).callers[c] == Hit(v)
    decreases es
  {
    if es != [] {
      var s1 := Next(s, es[0]);
      if es[0].GetReturns? && es[0].caller == c {
        if es[0].cached.Some? { HitStays(s1, es[1..], c); } else { MissNeverHits(s1, es[1..], c); }
      } else {
        ReaderGetsCachedValue(s1, es[1..], c);
      }
    }
  }


  lemma {:induction false} LoadsAreKept<V>(s: State<V>, es: seq<Event<V>>, load: nat)
    requires load < |s.loads|
    ensures var s' := Run(s, es);
            && load < |s'.loads|
            && s'.loads[load].key == s.loads[load].key && s'.loads[load].tracked == s.loads[load].tracked
            && (s.loads[load].outcome.Some? ==> s'.loads[load] == s.loads[load])
    decreases es
  {
    if es != [] { LoadsAreKept(Next(s, es[0]), es[1..], load); }
  }

  /**
   In every run an entry stays exactly as long as its load: a newer one never replaces it, and nothing else removes
   it.
   */
  lemma EntryLivesAsLongAsItsLoad<V>(s: State<V>, es: seq<Event<V>>, key: string)
    requires Inv(s) && key in s.inflight
    ensures var s', load := Run(s, es), s.inflight[key];
            && load < |s'.loads|
            && ((key in s'.inflight && s'.inflight[key] == load) <==> s'.loads[load].outcome.None?)
  {
    assert Registered(s, s.inflight[key]);
    LoadsAreKept(s, es, s.inflight[key]);
    RunKeepsInv(s, es);
    var s' := Run(s, es);
    if key in s'.inflight { assert Registered(s', s'.inflight[key]); }
  }

  /** In every run a caller that waits for a load leaves exactly when it settles, with its result or error. */
  lemma {:induction false} WaitersFinishWithTheirLoad<V>(s: State<V>, es: seq<Event<V>>, c: nat)
    requires Inv(s) && c in s.callers && s.callers[c].Waiting?
    ensures var s', load := Run(s, es), s.callers[c].load;
            && c in s'.callers && load < |s'.loads|
            && s'.callers[c] == match s'.loads[load].outcome {
                                  case None => s.callers[c]
                                  case Some(result) => Finished(load, result)
                                }
    decreases es
  {
    assert CallerOk(s, s.callers[c]);
    if es != [] {
      var s1 := Next(s, es[0]);
      NextKeepsInv(s, es[0]);
      WaiterStep(s, es[0], c);
      if s1.callers[c].Waiting? {
        WaitersFinishWithTheirLoad(s1, es[1..], c);
      } else {
        LoadsAreKept(s1, es[1..], s.callers[c].load);
        FinishedStays(s1, es[1..], c);
      }
    }
  }

  lemma WaiterStep<V>(s: State<V>, e: Event<V>, c: nat)
    requires Inv(s) && c in s.callers && s.callers[c].Waiting?
    ensures var s', load := Next(s, e), s.callers[c].load;
            && c in s'.callers && load < |s'.loads|
            && (s'.callers[c] == s.callers[c]
                || (s'.callers[c].Finished? && s'.callers[c].load == load
                    && s'.loads[load].outcome == Some(s'.callers[c].result)))
  {
    assert CallerOk(s, s.callers[c]);
  }

  lemma {:induction false} FinishedStays<V>(s: State<V>, es: seq<Event<V>>, c: nat)
    requires c in s.callers && s.callers[c].Finished?
    ensures c in Run(s, es).callers && Run(s, es).callers[c] == s.callers[c]
    decreases es
  {
    if es != [] { FinishedStays(Next(s, es[0]), es[1..], c); }
  }

  ghost predicate NeverFull<V>(s: State<V>, es: seq<Event<V>>)
    decreases es
  {
    |s.inflight| < MAX_INFLIGHT_CACHE_LOADS && (es != [] ==> NeverFull(Next(s, es[0]), es[1..]))
  }

  ghost predicate AllTracked<V>(s: State<V>) { forall l | 0 <= l < |s.loads| :: s.loads[l].tracked }

  lemma {:induction false} BelowLimitAllTracked<V>(s: State<V>, es: seq<Event<V>>)
    requires AllTracked(s) && NeverFull(s, es)
    ensures AllTracked(Run(s, es))
    decreases es
  {
    if es != [] { BelowLimitAllTracked(Next(s, es[0]), es[1..]); }
  }

  predicate Unsettled<V>(s: State<V>, l: nat) { l < |s.loads| && s.loads[l].outcome.None? }

  /** No load that another one of its key follows is still registered. */
  ghost predicate LatestIsRegistered<V>(s: State<V>) {
    forall i: nat, j: nat | i < j < |s.loads| && s.loads[i].key == s.loads[j].key :: !Registered(s, i)
  }

  lemma NextKeepsLatest<V>(s: State<V>, e: Event<V>, i: nat, j: nat)
    requires Inv(s) && (i < j < |s.loads| && s.loads[i].key == s.loads[j].key ==> !Registered(s, i))
    requires i < j < |Next(s, e).loads| && Next(s, e).loads[i].key == Next(s, e).loads[j].key
    ensures !Registered(Next(s, e), i)
  {
    if Registered(s, i) {
      assert s.loads[i].key in s.inflight;
    }
  }

  lemma {:induction false} RunKeepsLatest<V>(s: State<V>, es: seq<Event<V>>)
    requires Inv(s) && LatestIsRegistered(s)
    ensures LatestIsRegistered(Run(s, es))
    decreases es
  {
    if es != [] {
      var s' := Next(s, es[0]);
      NextKeepsInv(s, es[0]);
      forall i: nat, j: nat | i < j < |s'.loads| && s'.loads[i].key == s'.loads[j].key ensures !Registered(s', i) {
        NextKeepsLatest(s, es[0], i, j);
      }
      RunKeepsLatest(s', es[1..]);
    }
  }

  /**
   In every run, of two unsettled loads of one key the earlier was never registered: it started while 1,000 others
   were.
   */
  lemma OneLoadPerKey<V>(es: seq<Event<V>>)
    ensures var s := Run(Idle<V>(), es);
            forall i: nat, j: nat | i < j && Unsettled(s, i) && Unsettled(s, j) && s.loads[i].key == s.loads[j].key ::
              !s.loads[i].tracked
  {
    RunKeepsLatest(Idle<V>(), es);
    var s := Run(Idle<V>(), es);
    forall i: nat, j: nat | i < j && Unsettled(s, i) && Unsettled(s, j) && s.loads[i].key == s.loads[j].key
      ensures !s.loads[i].tracked
    {
      assert !Registered(s, i);
    }
  }

  /** So a run that never has 1,000 loads registered never has two unsettled loads of one key. */
  lemma OneLoadBelowLimit<V>(es: seq<Event<V>>)
    requires NeverFull(Idle<V>(), es)
    ensures var s := Run(Idle<V>(), es);
            forall i: nat, j: nat | Unsettled(s, i) && Unsettled(s, j) && s.loads[i].key == s.loads[j].key :: i == j
  {
    BelowLimitAllTracked(Idle<V>(), es);
    OneLoadPerKey(es);
  }

  class CacheService<V> {
    var inflight: map<string, nat>
    var loads: seq<Load<V>>
    var callers: map<nat, Caller<V>>

    function View(): State<V> reads this { State(inflight, loads, callers) }

    constructor ()
      ensures View() == Idle<V>()
    {
      inflight, loads, callers := map[], [], map[];
    }

    /** getOrSet after `await this.get(key)`. */
    method AfterGet(caller: nat, cached: Option<V>)
      requires caller in callers && callers[caller].Reading?
      modifies this
      ensures View() == Next(old(View()), GetReturns(caller, cached))
    {
      var key := callers[caller].key;
      if cached.Some? {
        callers := callers[caller := Hit(cached.value)];
        return;
      }
      if key in inflight {
        callers := callers[caller := Waiting(key, inflight[key])];
        return;
      }
      var load := |loads|;
      if |inflight| >= MAX_INFLIGHT_CACHE_LOADS {
        loads := loads + [Load(key, false, None)];
      } else {
        loads := loads + [Load(key, true, None)];
        inflight := inflight[key := load];
      }
      callers := callers[caller := Waiting(key, load)];
    }

    /** A load settles; the finally of a registered one deletes its key. */
    method Settle(load: nat, result: Result<V>)
      requires load < |loads| && loads[load].outcome.None?
      modifies this
      ensures View() == Next(old(View()), LoadSettles(load, result))
    {
      var l := loads[load];
      loads := loads[load := l.(outcome := Some(result))];
      if l.tracked { inflight := inflight - {l.key}; }
      callers := map c | c in callers :: Awake(callers[c], load, result);
    }
  }
}
