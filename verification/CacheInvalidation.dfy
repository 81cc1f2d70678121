/**
 Many processes, each with its own cache, joined by one publish/subscribe channel.

 Redis delivers every published key to each subscribed process once and in order, after any delay. A logical clock
 numbers the steps, so that "set after the last broadcast" can be said.
 */
module CacheInvalidation {
  import opened Options
  import opened DistributedCaches

  datatype Stamped<V> = Stamped(value: V, at: nat)

  /** One process: its cache, the messages on their way to it, and the step at which its handler was registered. */
  datatype Node<V> = Node(cache: seq<Item<Stamped<V>>>, inbox: seq<string>, subscribed: Option<nat>)

  datatype State<V> = State(nodes: map<nat, Node<V>>, clock: nat, broadcasts: map<string, nat>)

  /** invalidateGlobal is two steps: it deletes locally, and after the Redis deletes it publishes. */
  datatype Event<V> =
    | Join(node: nat)
    | Subscribe(node: nat)
    | Local(node: nat, op: Op<V>, now: int)
    | Publish(key: string)
    | Receive(node: nat)

  function StampOp<V>(op: Op<V>, at: nat): Op<Stamped<V>> {
    match op
    case Get(key) => Get(key)
    case Set(key, value, ttl) => Set(key, Stamped(value, at), ttl)
    case DeleteLocal(key) => DeleteLocal(key)
    case SweepExpired => SweepExpired
    case Shutdown => Shutdown
  }

  function Deliver<V>(n: Node<V>, key: string): Node<V> {
    if n.subscribed.Some? then n.(inbox := n.inbox + [key]) else n
  }

  function Act<V>(s: State<V>, e: Event<V>): State<V> {
    match e
    case Join(k) => if k in s.nodes then s else s.(nodes := s.nodes[k := Node([], [], None)])
    case Subscribe(k) =>
      if k !in s.nodes || s.nodes[k].subscribed.Some? then s
      else s.(nodes := s.nodes[k := s.nodes[k].(subscribed := Some(s.clock))])
    case Local(k, op, now) =>
      if k !in s.nodes then s
      else
        var n := s.nodes[k];
        s.(nodes := s.nodes[k := n.(cache := Step(n.cache, Timed(StampOp(op, s.clock), now)))])
    case Publish(key) =>
      s.(nodes := map k | k in s.nodes :: Deliver(s.nodes[k], key), broadcasts := s.broadcasts[key := s.clock])
    case Receive(k) =>
      if k !in s.nodes || s.nodes[k].inbox == [] then s
      else
        var n := s.nodes[k];
        s.(nodes := s.nodes[k := n.(cache := Remove(n.cache, n.inbox[0]), inbox := n.inbox[1..])])
  }

  function NextState<V>(s: State<V>, e: Event<V>): State<V> { Act(s, e).(clock := s.clock + 1) }

  function RunAll<V>(s: State<V>, es: seq<Event<V>>): State<V>
    decreases es
  {
    if es == [] then s else RunAll(NextState(s, es[0]), es[1..])
  }

  function Empty<V>(): State<V> { State(map[], 0, map[]) }

  /**
   The entry of `key` is newer than its last broadcast, or that broadcast is still on its way, or it fell between the
   entry and the registration of the handler.
   */
  predicate Covered<V>(s: State<V>, n: Node<V>, key: string) {
    var entry := Find(n.cache, key);
    entry.Some? && n.subscribed.Some? && key in s.broadcasts ==>
      || entry.value.value.at > s.broadcasts[key]
      || key in n.inbox
      || s.broadcasts[key] < n.subscribed.value
  }

  /** An entry was set in a step that is over and that was not a broadcast. */
  predicate Dated<V>(s: State<V>, at: nat, key: string) {
    at < s.clock && (key in s.broadcasts ==> at != s.broadcasts[key])
  }

  ghost predicate NodeOk<V>(s: State<V>, n: Node<V>) {
    && DistinctKeys(n.cache)
    && (n.subscribed.None? ==> n.inbox == [])
    && (n.subscribed.Some? ==> n.subscribed.value < s.clock)
    && (forall key :: Find(n.cache, key).Some? ==> Dated(s, Find(n.cache, key).value.value.at, key))
    && forall key :: Covered(s, n, key)
  }

  ghost predicate Coherent<V>(s: State<V>) {
    && (forall key | key in s.broadcasts :: s.broadcasts[key] < s.clock)
    && forall k | k in s.nodes :: NodeOk(s, s.nodes[k])
  }

  /** Time passes: a node that did not act stays covered. */
  lemma IdleKept<V>(s: State<V>, s': State<V>, n: Node<V>)
    requires NodeOk(s, n) && s'.clock == s.clock + 1 && s'.broadcasts == s.broadcasts
    ensures NodeOk(s', n)
  {
    forall key ensures Covered(s', n, key) { assert Covered(s, n, key); }
  }

  lemma LocalKept<V>(s: State<V>, s': State<V>, n: Node<V>, op: Op<V>, now: int)
    requires Coherent(s) && NodeOk(s, n) && s'.clock == s.clock + 1 && s'.broadcasts == s.broadcasts
    ensures NodeOk(s', n.(cache := Step(n.cache, Timed(StampOp(op, s.clock), now))))
  {
    var t := Timed(StampOp(op, s.clock), now);
    var n' := n.(cache := Step(n.cache, t));
    forall key
      ensures Covered(s', n', key) && (Find(n'.cache, key).Some? ==> Dated(s', Find(n'.cache, key).value.value.at, key))
    {
      LiveEntryVanishesOnly(n.cache, t, key);
      assert Covered(s, n, key);
    }
    LiveEntryVanishesOnly(n.cache, t, "");
  }

  lemma PublishKept<V>(s: State<V>, s': State<V>, n: Node<V>, key: string)
    requires NodeOk(s, n) && s'.clock == s.clock + 1 && s'.broadcasts == s.broadcasts[key := s.clock]
    ensures NodeOk(s', Deliver(n, key))
  {
    var n' := Deliver(n, key);
    forall k ensures Covered(s', n', k) { assert Covered(s, n, k); }
  }

  lemma ReceiveKept<V>(s: State<V>, s': State<V>, n: Node<V>)
    requires NodeOk(s, n) && n.inbox != [] && s'.clock == s.clock + 1 && s'.broadcasts == s.broadcasts
    ensures NodeOk(s', n.(cache := Remove(n.cache, n.inbox[0]), inbox := n.inbox[1..]))
  {
    var n' := n.(cache := Remove(n.cache, n.inbox[0]), inbox := n.inbox[1..]);
    forall k
      ensures Covered(s', n', k) && (Find(n'.cache, k).Some? ==> Dated(s', Find(n'.cache, k).value.value.at, k))
    {
      RemoveFinds(n.cache, n.inbox[0], k);
      assert Covered(s, n, k);
      assert k in n.inbox && k != n.inbox[0] ==> k in n.inbox[1..];
    }
    RemoveFinds(n.cache, n.inbox[0], "");
  }

  lemma StepKeepsCoherent<V>(s: State<V>, e: Event<V>)
    requires Coherent(s)
    ensures Coherent(NextState(s, e))
  {
    var s' := NextState(s, e);
    forall k | k in s'.nodes ensures NodeOk(s', s'.nodes[k]) {
      if e.Publish? {
        PublishKept(s, s', s.nodes[k], e.key);
      } else if k in s.nodes && s'.nodes[k] == s.nodes[k] {
        IdleKept(s, s', s.nodes[k]);
      } else {
        match e
        case Subscribe(_) => IdleKept(s, s', s.nodes[k]); SubscribeKept(s, s', s.nodes[k]);
        case Local(_, op, now) => LocalKept(s, s', s.nodes[k], op, now);
        case Receive(_) => ReceiveKept(s, s', s.nodes[k]);
        case _ =>
      }
    }
  }

  lemma SubscribeKept<V>(s: State<V>, s': State<V>, n: Node<V>)
    requires Coherent(s) && NodeOk(s, n) && n.subscribed.None?
    requires s'.clock == s.clock + 1 && s'.broadcasts == s.broadcasts
    ensures NodeOk(s', n.(subscribed := Some(s.clock)))
  {}

  lemma {:induction false} RunKeepsCoherent<V>(s: State<V>, es: seq<Event<V>>)
    requires Coherent(s)
    ensures Coherent(RunAll(s, es))
    decreases es
  {
    if es != [] {
      StepKeepsCoherent(s, es[0]);
      RunKeepsCoherent(NextState(s, es[0]), es[1..]);
    }
  }

  /**
   In every reachable state, once no invalidation of a key is on its way to a subscribed process, its entry is newer
   than the last broadcast of the key unless that broadcast came after the entry and before the registration.
   */
  lemma DeliveredMeansFreshIff<V>(es: seq<Event<V>>, k: nat, key: string)
    requires var s := RunAll(Empty<V>(), es);
             && k in s.nodes && s.nodes[k].subscribed.Some? && key !in s.nodes[k].inbox
             && Find(s.nodes[k].cache, key).Some? && key in s.broadcasts
    ensures var s := RunAll(Empty<V>(), es);
            var at := Find(s.nodes[k].cache, key).value.value.at;
            var last, registered := s.broadcasts[key], s.nodes[k].subscribed.value;
            at > last <==> !(at < last < registered)
  {
    RunKeepsCoherent(Empty<V>(), es);
    var s := RunAll(Empty<V>(), es);
    assert Covered(s, s.nodes[k], key);
    assert Dated(s, Find(s.nodes[k].cache, key).value.value.at, key);
  }

  /** So whatever was set while subscribed, or has been broadcast since, is fresh once delivered. */
  lemma DeliveredMeansFresh<V>(es: seq<Event<V>>, k: nat, key: string)
    requires var s := RunAll(Empty<V>(), es);
             && k in s.nodes && s.nodes[k].subscribed.Some? && key !in s.nodes[k].inbox
             && Find(s.nodes[k].cache, key).Some? && key in s.broadcasts
             && (Find(s.nodes[k].cache, key).value.value.at >= s.nodes[k].subscribed.value
                 || s.broadcasts[key] >= s.nodes[k].subscribed.value)
    ensures var s := RunAll(Empty<V>(), es); Find(s.nodes[k].cache, key).value.value.at > s.broadcasts[key]
  {
    DeliveredMeansFreshIff(es, k, key);
  }

  /** An entry set before the handler was registered may have missed its invalidation for good. */
  lemma EarlyEntryCanBeStale()
    ensures exists es: seq<Event<int>> ::
              var s := RunAll(Empty<int>(), es);
              && 0 in s.nodes && s.nodes[0].subscribed.Some? && s.nodes[0].inbox == []
              && "k" in s.broadcasts && Find(s.nodes[0].cache, "k").Some?
              && Find(s.nodes[0].cache, "k").value.value.at < s.broadcasts["k"]
  {
    var a: Event<int> := Join(0);
    var b: Event<int> := Local(0, Set("k", 7, 60), 0);
    var c: Event<int> := Publish("k");
    var d: Event<int> := Subscribe(0);
    var es := [a, b, c, d];
    var s1 := NextState(Empty<int>(), a);
    var s2 := NextState(s1, b);
    var s3 := NextState(s2, c);
    var s4 := NextState(s3, d);
    assert es[1..] == [b, c, d] && [b, c, d][1..] == [c, d] && [c, d][1..] == [d] && [d][1..] == [];
    assert RunAll(s3, [d]) == RunAll(s4, []) == s4;
    assert RunAll(s2, [c, d]) == s4;
    assert RunAll(s1, [b, c, d]) == s4;
    assert RunAll(Empty<int>(), es) == s4;
  }
}
