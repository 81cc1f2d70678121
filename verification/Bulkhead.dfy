/** A counting bulkhead: at most maxConcurrent executions per key and at most maxKeys keys. */
module Bulkheads {
  import opened FiniteSets
  import opened Options

  datatype Limits = Limits(maxConcurrent: nat, maxKeys: nat)

  /** Begin is a call of execute; End is its finally block, reached by returning and by throwing actions alike. */
  datatype Event = Begin(key: string) | End(key: string)

  /** `running` has one occurrence of a key for every admitted execution that has not finished. */
  datatype State = State(counts: map<string, nat>, running: multiset<string>)

  function Count(counts: map<string, nat>, key: string): nat { if key in counts then counts[key] else 0 }

  /** The keys that some execution is using. */
  function Busy(running: multiset<string>): set<string> { set k | k in running }

  /** The specification of admission, in terms of executions only. */
  predicate Admits(limits: Limits, running: multiset<string>, key: string) {
    running[key] < limits.maxConcurrent && (key in running || |Busy(running)| < limits.maxKeys)
  }

  function Next(limits: Limits, s: State, e: Event): State {
    match e
    case Begin(key) =>
      var active := Count(s.counts, key);
      if active >= limits.maxConcurrent || (key !in s.counts && |s.counts| >= limits.maxKeys) then s
      else State(s.counts[key := active + 1], s.running + multiset{key})
    case End(key) =>
      if key !in s.running then s
      else
        var active := if key in s.counts then s.counts[key] else 1;
        State(if active <= 1 then s.counts - {key} else s.counts[key := active - 1], s.running - multiset{key})
  }

  function Run(limits: Limits, s: State, es: seq<Event>): State
    decreases es
  {
    if es == [] then s else Run(limits, Next(limits, s, es[0]), es[1..])
  }

  const IDLE := State(map[], multiset{})

  ghost predicate Valid(limits: Limits, s: State) {
    && (forall key :: s.running[key] == Count(s.counts, key))
    && (forall key | key in s.counts :: 1 <= s.counts[key] <= limits.maxConcurrent)
    && |s.counts| <= limits.maxKeys
  }

  lemma BusyIsKeys(limits: Limits, s: State)
    requires Valid(limits, s)
    ensures Busy(s.running) == s.counts.Keys && |Busy(s.running)| == |s.counts|
  {
    assert forall key :: key in s.running <==> key in s.counts;
  }

  /**
   A call is admitted exactly when its key has a free slot and, for a new key, the map has room; a refusal changes
   nothing.
   */
  lemma BeginKeepsValid(limits: Limits, s: State, key: string)
    requires Valid(limits, s)
    ensures var s' := Next(limits, s, Begin(key));
            && Valid(limits, s')
            && (if Admits(limits, s.running, key) then s'.running == s.running + multiset{key} else s' == s)
  {
    BusyIsKeys(limits, s);
    assert s.running[key] == Count(s.counts, key);
    assert key in s.running <==> key in s.counts;
    if Admits(limits, s.running, key) { AdmittedKeepsValid(limits, s, key); }
  }

  lemma AdmittedKeepsValid(limits: Limits, s: State, key: string)
    requires Valid(limits, s) && Count(s.counts, key) < limits.maxConcurrent
    requires key in s.counts || |s.counts| < limits.maxKeys
    ensures Valid(limits, State(s.counts[key := Count(s.counts, key) + 1], s.running + multiset{key}))
  {
    var s' := State(s.counts[key := Count(s.counts, key) + 1], s.running + multiset{key});
    assert s'.counts.Keys == s.counts.Keys + {key};
    assert |s'.counts| == |s'.counts.Keys|;
    forall k ensures s'.running[k] == Count(s'.counts, k) { assert s.running[k] == Count(s.counts, k); }
  }

  lemma EndKeepsValid(limits: Limits, s: State, key: string)
    requires Valid(limits, s)
    ensures Valid(limits, Next(limits, s, End(key)))
  {
    assert s.running[key] == Count(s.counts, key);
    var s' := Next(limits, s, End(key));
    if key in s.running {
      SubsetSize(s'.counts.Keys, s.counts.Keys);
      assert |s'.counts| == |s'.counts.Keys|;
      forall k ensures s'.running[k] == Count(s'.counts, k) { assert s.running[k] == Count(s.counts, k); }
    }
  }

  lemma NextKeepsValid(limits: Limits, s: State, e: Event)
    requires Valid(limits, s)
    ensures Valid(limits, Next(limits, s, e))
  {
    if e.Begin? { BeginKeepsValid(limits, s, e.key); } else { EndKeepsValid(limits, s, e.key); }
  }

  /**
   In every run: the count of each key is the number of its executions in flight and lies in 1..maxConcurrent, there
   are at most maxKeys keys, and the map is empty when nothing runs.
   */
  lemma {:induction false} CountsAreExecutionsInFlight(limits: Limits, s: State, es: seq<Event>)
    requires Valid(limits, s)
    ensures var s' := Run(limits, s, es);
            && Valid(limits, s')
            && s'.counts.Keys == Busy(s'.running)
            && (s'.running == multiset{} <==> s'.counts == map[])
    decreases es
  {
    if es == [] {
      BusyIsKeys(limits, s);
      if s.running == multiset{} { assert s.counts.Keys == {}; }
      if s.counts == map[] { assert forall key :: s.running[key] == 0; }
    } else {
      NextKeepsValid(limits, s, es[0]);
      CountsAreExecutionsInFlight(limits, Next(limits, s, es[0]), es[1..]);
    }
  }

  class Bulkhead {
    const limits: Limits
    var counts: map<string, nat>
    ghost var running: multiset<string>

    ghost function View(): State reads this { State(counts, running) }

    constructor (limits: Limits)
      ensures this.limits == limits && View() == IDLE && Valid(limits, View())
    {
      this.limits := limits;
      counts, running := map[], multiset{};
    }

    /** execute() up to the call of the action. */
    method Enter(key: string) returns (admitted: bool)
      requires Valid(limits, View())
      modifies this
      ensures View() == Next(limits, old(View()), Begin(key)) && Valid(limits, View())
      ensures admitted <==> Admits(limits, old(running), key)
    {
      BeginKeepsValid(limits, View(), key);
      BusyIsKeys(limits, View());
      assert running[key] == Count(counts, key);
      assert key in running <==> key in counts;
      var active := if key in counts then counts[key] else 0;
      if active >= limits.maxConcurrent { return false; }
      if key !in counts && |counts| >= limits.maxKeys { return false; }
      counts := counts[key := active + 1];
      running := running + multiset{key};
      return true;
    }

    /** The finally block of an admitted execution. */
    method Leave(key: string)
      requires Valid(limits, View()) && key in running
      modifies this
      ensures View() == Next(limits, old(View()), End(key)) && Valid(limits, View())
    {
      EndKeepsValid(limits, View(), key);
      var active: int := if key in counts then counts[key] else 1;
      var remaining := active - 1;
      if remaining <= 0 { counts := counts - {key}; } else { counts := counts[key := remaining]; }
      running := running - multiset{key};
    }

    /** getActiveCount(): of one key, or the total over the map. */
    method GetActiveCount(key: Option<string>) returns (total: nat)
      requires Valid(limits, View())
      ensures total == if key.Some? then running[key.value] else |running|
    {
      if key.Some? {
        assert running[key.value] == Count(counts, key.value);
        return if key.value in counts then counts[key.value] else 0;
      }
      total := 0;
      var keys := counts.Keys;
      ghost var rest := running;
      while keys != {}
        invariant keys <= counts.Keys
        invariant forall k :: rest[k] == if k in keys then running[k] else 0
        invariant total + |rest| == |running|
        decreases |keys|
      {
        var k :| k in keys;
        assert running[k] == Count(counts, k);
        total := total + counts[k];
        rest := rest[k := 0];
        keys := keys - {k};
      }
      assert rest == multiset{};
    }
  }
}
