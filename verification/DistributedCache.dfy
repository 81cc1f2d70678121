/**
 The in-process cache: a JavaScript Map with expiry times, swept, bounded and evicted in insertion order.

 The Map is its list of entries in insertion order, one per key. Setting a present key keeps its place.
 */
module DistributedCaches {
  import opened FiniteSets
  import opened Options

  const MAX_CACHE_SIZE := 10_000

  datatype Item<V> = Item(key: string, value: V, exp: int)

  datatype Op<V> =
    | Get(key: string)
    | Set(key: string, value: V, ttlSeconds: int)
    | DeleteLocal(key: string)
    | SweepExpired
    | Shutdown

  datatype Timed<V> = Timed(op: Op<V>, now: int)

  // ---- The Map ----

  predicate DistinctKeys<V>(c: seq<Item<V>>) { forall i, j | 0 <= i < j < |c| :: c[i].key != c[j].key }

  function Find<V>(c: seq<Item<V>>, key: string): Option<Item<V>> {
    if c == [] then None else if c[0].key == key then Some(c[0]) else Find(c[1..], key)
  }

  function Remove<V>(c: seq<Item<V>>, key: string): seq<Item<V>> {
    if c == [] then [] else if c[0].key == key then c[1..] else [c[0]] + Remove(c[1..], key)
  }

  function Put<V>(c: seq<Item<V>>, item: Item<V>): seq<Item<V>> {
    if c == [] then [item] else if c[0].key == item.key then [item] + c[1..] else [c[0]] + Put(c[1..], item)
  }

  function Sweep<V>(c: seq<Item<V>>, now: int): seq<Item<V>> {
    if c == [] then [] else (if now > c[0].exp then [] else [c[0]]) + Sweep(c[1..], now)
  }

  // ---- The operations of the service ----

  function GetOp<V>(c: seq<Item<V>>, key: string, now: int): (seq<Item<V>>, Option<V>) {
    var item := Find(c, key);
    if item.None? then (c, None)
    else if now > item.value.exp then (Remove(c, key), None)
    else (c, Some(item.value.value))
  }

  /** The eviction that precedes an insertion. An oldest key that is the empty string is skipped. */
  function MakeRoom<V>(c: seq<Item<V>>, key: string, now: int): seq<Item<V>> {
    if Find(c, key).Some? || |c| < MAX_CACHE_SIZE then c
    else
      var swept := Sweep(c, now);
      if |swept| < MAX_CACHE_SIZE || swept[0].key == "" then swept else swept[1..]
  }

  function SetOp<V>(c: seq<Item<V>>, key: string, value: V, ttlSeconds: int, now: int): seq<Item<V>> {
    Put(MakeRoom(c, key, now), Item(key, value, now + ttlSeconds * 1000))
  }

  function Step<V>(c: seq<Item<V>>, t: Timed<V>): seq<Item<V>> {
    match t.op
    case Get(key) => GetOp(c, key, t.now).0
    case Set(key, value, ttl) => SetOp(c, key, value, ttl, t.now)
    case DeleteLocal(key) => Remove(c, key)
    case SweepExpired => Sweep(c, t.now)
    case Shutdown => []
  }

  /** The cache after a history of operations, oldest first. */
  function Run<V>(ops: seq<Timed<V>>): seq<Item<V>> {
    if ops == [] then [] else Step(Run(ops[..|ops| - 1]), ops[|ops| - 1])
  }

  // ---- The specification: a map whose entries time out ----

  /** The last write of a key in a history, if no delete or shutdown followed it. */
  function LastWrite<V>(ops: seq<Timed<V>>, key: string): Option<Item<V>> {
    if ops == [] then None
    else
      var last := ops[|ops| - 1];
      match last.op
      case Set(k, value, ttl) =>
        if k == key then Some(Item(key, value, last.now + ttl * 1000)) else LastWrite(ops[..|ops| - 1], key)
      case DeleteLocal(k) => if k == key then None else LastWrite(ops[..|ops| - 1], key)
      case Shutdown => None
      case _ => LastWrite(ops[..|ops| - 1], key)
  }

  /** What a reader may see of an entry at time now. */
  function Visible<V>(item: Option<Item<V>>, now: int): Option<V> {
    if item.Some? && now <= item.value.exp then Some(item.value.value) else None
  }

  function Keys<V>(c: seq<Item<V>>): set<string> { set i | 0 <= i < |c| :: c[i].key }

  /** Every key a history ever set. */
  function SetKeys<V>(ops: seq<Timed<V>>): set<string> { set i | 0 <= i < |ops| && ops[i].op.Set? :: ops[i].op.key }

  predicate Monotone<V>(ops: seq<Timed<V>>) { forall i, j | 0 <= i < j < |ops| :: ops[i].now <= ops[j].now }

  // ---- Facts about the Map ----

  lemma {:induction false} FindKey<V>(c: seq<Item<V>>, key: string)
    ensures Find(c, key).Some? <==> key in Keys(c)
    ensures Find(c, key).Some? ==> Find(c, key).value in c && Find(c, key).value.key == key
  {
    if c != [] {
      FindKey(c[1..], key);
      KeysSplit(c);
    }
  }

  lemma KeysSplit<V>(c: seq<Item<V>>)
    requires c != []
    ensures Keys(c) == {c[0].key} + Keys(c[1..])
  {
    assert c == [c[0]] + c[1..];
    forall k | k in Keys(c) ensures k in {c[0].key} + Keys(c[1..]) {
      var i :| 0 <= i < |c| && c[i].key == k;
      assert i > 0 ==> c[1..][i - 1].key == k;
    }
    forall k | k in Keys(c[1..]) ensures k in Keys(c) {
      var i :| 0 <= i < |c[1..]| && c[1..][i].key == k;
      assert c[i + 1].key == k;
    }
  }

  lemma {:induction false} FindTail<V>(c: seq<Item<V>>, key: string)
    requires DistinctKeys(c) && c != [] && c[0].key == key
    ensures Find(c[1..], key) == None
  {
    FindKey(c[1..], key);
  }

  lemma {:induction false} RemoveFinds<V>(c: seq<Item<V>>, key: string, k: string)
    requires DistinctKeys(c)
    ensures Find(Remove(c, key), k) == if k == key then None else Find(c, k)
    ensures DistinctKeys(Remove(c, key)) && Keys(Remove(c, key)) <= Keys(c) && |Remove(c, key)| <= |c|
  {
    if c != [] {
      KeysSplit(c);
      if c[0].key == key {
        FindTail(c, key);
      } else {
        RemoveFinds(c[1..], key, k);
        var rest := Remove(c[1..], key);
        KeysSplit([c[0]] + rest);
        assert ([c[0]] + rest)[1..] == rest;
        HeadDistinct(c, rest);
      }
    }
  }

  /** Prepending the head again to a list drawn from the tail keeps keys distinct. */
  lemma HeadDistinct<V>(c: seq<Item<V>>, rest: seq<Item<V>>)
    requires DistinctKeys(c) && c != [] && DistinctKeys(rest) && Keys(rest) <= Keys(c[1..])
    ensures DistinctKeys([c[0]] + rest)
  {
    forall j | 0 <= j < |rest| ensures rest[j].key != c[0].key {
      assert rest[j].key in Keys(c[1..]);
    }
  }

  lemma {:induction false} PutFindsOnly<V>(c: seq<Item<V>>, item: Item<V>, k: string)
    ensures Find(Put(c, item), k) == if k == item.key then Some(item) else Find(c, k)
    ensures |Put(c, item)| == |c| + if Find(c, item.key).None? then 1 else 0
  {
    if c != [] {
      if c[0].key == item.key {
        assert ([item] + c[1..])[1..] == c[1..];
      } else {
        PutFindsOnly(c[1..], item, k);
        assert ([c[0]] + Put(c[1..], item))[1..] == Put(c[1..], item);
      }
    }
  }

  lemma {:induction false} PutKeys<V>(c: seq<Item<V>>, item: Item<V>)
    requires DistinctKeys(c)
    ensures DistinctKeys(Put(c, item)) && Keys(Put(c, item)) == Keys(c) + {item.key}
  {
    if c == [] {
      KeysSplit([item]);
    } else {
      KeysSplit(c);
      if c[0].key == item.key {
        assert ([item] + c[1..])[1..] == c[1..];
        KeysSplit([item] + c[1..]);
      } else {
        PutKeys(c[1..], item);
        var rest := Put(c[1..], item);
        assert ([c[0]] + rest)[1..] == rest;
        KeysSplit([c[0]] + rest);
        forall j | 0 <= j < |rest| ensures rest[j].key != c[0].key {
          assert rest[j].key in Keys(rest);
        }
      }
    }
  }

  lemma PutFinds<V>(c: seq<Item<V>>, item: Item<V>, k: string)
    requires DistinctKeys(c)
    ensures Find(Put(c, item), k) == if k == item.key then Some(item) else Find(c, k)
    ensures DistinctKeys(Put(c, item)) && Keys(Put(c, item)) == Keys(c) + {item.key}
    ensures |Put(c, item)| == |c| + if Find(c, item.key).None? then 1 else 0
  {
    PutFindsOnly(c, item, k);
    PutKeys(c, item);
  }

  lemma {:induction false} SweepFinds<V>(c: seq<Item<V>>, now: int, k: string)
    requires DistinctKeys(c)
    ensures Find(Sweep(c, now), k) == (if Find(c, k).Some? && now <= Find(c, k).value.exp then Find(c, k) else None)
    ensures DistinctKeys(Sweep(c, now)) && Keys(Sweep(c, now)) <= Keys(c) && |Sweep(c, now)| <= |c|
  {
    if c != [] {
      KeysSplit(c);
      SweepFinds(c[1..], now, k);
      var rest := Sweep(c[1..], now);
      if now <= c[0].exp {
        assert ([c[0]] + rest)[1..] == rest;
        KeysSplit([c[0]] + rest);
        HeadDistinct(c, rest);
      } else {
        assert [] + rest == rest;
        FindKey(c[1..], c[0].key);
      }
    }
  }

  lemma {:induction false} SizeIsKeys<V>(c: seq<Item<V>>)
    requires DistinctKeys(c)
    ensures |Keys(c)| == |c|
  {
    if c != [] {
      SizeIsKeys(c[1..]);
      KeysSplit(c);
      assert c[0].key !in Keys(c[1..]);
    }
  }

  // ---- What one operation can do ----

  /** k is the oldest-inserted key, and a sweep left the cache full when another key had to go in. */
  predicate EvictedBy<V>(c: seq<Item<V>>, t: Timed<V>, k: string) {
    && t.op.Set? && Find(c, t.op.key).None? && |c| >= MAX_CACHE_SIZE
    && |Sweep(c, t.now)| >= MAX_CACHE_SIZE
    && Sweep(c, t.now)[0].key == k && k != ""
  }

  lemma MakeRoomFinds<V>(c: seq<Item<V>>, key: string, value: V, ttl: int, now: int, k: string)
    requires DistinctKeys(c)
    ensures var room := MakeRoom(c, key, now);
            && DistinctKeys(room) && Keys(room) <= Keys(c)
            && (Find(room, k) == Find(c, k)
                || (Find(room, k).None?
                    && (now > Find(c, k).value.exp || EvictedBy(c, Timed(Set(key, value, ttl), now), k))))
  {
    var swept := Sweep(c, now);
    SweepFinds(c, now, k);
    if swept != [] && MakeRoom(c, key, now) == swept[1..] {
      KeysSplit(swept);
      FindTail(swept, swept[0].key);
    }
  }

  lemma SetFinds<V>(c: seq<Item<V>>, key: string, value: V, ttl: int, now: int, k: string)
    requires DistinctKeys(c)
    ensures var after := SetOp(c, key, value, ttl, now);
            && DistinctKeys(after)
            && (k == key ==> Find(after, k) == Some(Item(key, value, now + ttl * 1000)))
            && (k != key ==>
                  || Find(after, k) == Find(c, k)
                  || (Find(after, k).None?
                      && (now > Find(c, k).value.exp || EvictedBy(c, Timed(Set(key, value, ttl), now), k))))
  {
    MakeRoomFinds(c, key, value, ttl, now, k);
    PutFinds(MakeRoom(c, key, now), Item(key, value, now + ttl * 1000), k);
  }

  /**
   A live entry vanishes in a step only because the step overwrites it, deletes it, shuts the cache down, or evicts it
   as the oldest key of a full cache; and whatever is there afterwards was there before or was just set.
   */
  lemma LiveEntryVanishesOnly<V>(c: seq<Item<V>>, t: Timed<V>, k: string)
    requires DistinctKeys(c)
    ensures DistinctKeys(Step(c, t))
    ensures Find(c, k).Some? && t.now <= Find(c, k).value.exp && Find(Step(c, t), k) != Find(c, k) ==>
              || (t.op.Set? && t.op.key == k)
              || (t.op.DeleteLocal? && t.op.key == k)
              || t.op.Shutdown?
              || EvictedBy(c, t, k)
    ensures Find(Step(c, t), k).Some? ==>
              || Find(Step(c, t), k) == Find(c, k)
              || (t.op.Set? && t.op.key == k
                  && Find(Step(c, t), k) == Some(Item(k, t.op.value, t.now + t.op.ttlSeconds * 1000)))
    ensures t.op.DeleteLocal? && t.op.key == k ==> Find(Step(c, t), k).None?
  {
    match t.op
    case Get(key) => RemoveFinds(c, key, k);
    case Set(key, value, ttl) =>
      SetFinds(c, key, value, ttl, t.now, k);
    case DeleteLocal(key) => RemoveFinds(c, key, k);
    case SweepExpired => SweepFinds(c, t.now, k);
    case Shutdown =>
  }

  /** What the other operations leave: a read drops its own key once it has expired, a sweep every expired one. */
  lemma OthersFind<V>(c: seq<Item<V>>, t: Timed<V>, k: string)
    requires DistinctKeys(c) && !t.op.Set?
    ensures var expired := Find(c, k).Some? && t.now > Find(c, k).value.exp;
            var gone := match t.op
                        case Get(key) => key == k && expired
                        case DeleteLocal(key) => key == k
                        case SweepExpired => expired
                        case _ => true;
            Find(Step(c, t), k) == if gone then None else Find(c, k)
  {
    match t.op
    case Get(key) => RemoveFinds(c, key, k);
    case DeleteLocal(key) => RemoveFinds(c, key, k);
    case SweepExpired => SweepFinds(c, t.now, k);
    case Shutdown =>
  }

  // ---- Refinement of the timed map ----

  /** Whatever the cache holds is the last write of its key. */
  lemma {:induction false} EntryIsLastWrite<V>(ops: seq<Timed<V>>, k: string)
    ensures DistinctKeys(Run(ops))
    ensures Find(Run(ops), k).Some? ==> Find(Run(ops), k) == LastWrite(ops, k)
  {
    if ops != [] {
      var front, t := ops[..|ops| - 1], ops[|ops| - 1];
      EntryIsLastWrite(front, k);
      assert Run(ops) == Step(Run(front), t);
      LiveEntryVanishesOnly(Run(front), t, k);
      if t.op.Set? && t.op.key == k { SetFinds(Run(front), k, t.op.value, t.op.ttlSeconds, t.now, k); }
    }
  }

  /** A hit is the last value set, with no later delete, and not past its expiry. */
  lemma HitIsLastLiveWrite<V>(ops: seq<Timed<V>>, k: string, now: int)
    requires GetOp(Run(ops), k, now).1.Some?
    ensures GetOp(Run(ops), k, now).1 == Visible(LastWrite(ops, k), now)
  {
    EntryIsLastWrite(ops, k);
  }

  lemma {:induction false} RunKeysWereSet<V>(ops: seq<Timed<V>>)
    ensures DistinctKeys(Run(ops)) && Keys(Run(ops)) <= SetKeys(ops)
  {
    if ops != [] {
      var front, t := ops[..|ops| - 1], ops[|ops| - 1];
      RunKeysWereSet(front);
      forall k | k in Keys(Run(ops)) ensures k in SetKeys(ops) {
        EntryIsLastWrite(ops, k);
        LiveEntryVanishesOnly(Run(front), t, k);
        FindKey(Run(ops), k);
        FindKey(Run(front), k);
        if k in SetKeys(front) {
          var i :| 0 <= i < |front| && front[i].op.Set? && front[i].op.key == k;
          assert ops[i] == front[i];
        }
      }
      EntryIsLastWrite(ops, "");
    }
  }

  // ---- Exactly when a live write is missed ----

  /** Some step after the last write of the key evicted it. */
  predicate EvictedSince<V>(ops: seq<Timed<V>>, key: string) {
    if ops == [] then false
    else
      var front, last := ops[..|ops| - 1], ops[|ops| - 1];
      if last.op.Set? && last.op.key == key then false
      else EvictedSince(front, key) || EvictedBy(Run(front), last, key)
  }

  lemma EvictionIs<V>(c: seq<Item<V>>, t: Timed<V>, k: string)
    requires EvictedBy(c, t, k)
    ensures Step(c, t) == Put(Sweep(c, t.now)[1..], Item(t.op.key, t.op.value, t.now + t.op.ttlSeconds * 1000))
  {}

  /** What is evicted is gone. */
  lemma EvictedIsGone<V>(c: seq<Item<V>>, t: Timed<V>, k: string)
    requires DistinctKeys(c) && EvictedBy(c, t, k)
    ensures Find(Step(c, t), k).None?
  {
    SweepFinds(c, t.now, t.op.key);
    FindKey(Sweep(c, t.now), t.op.key);
    FindTail(Sweep(c, t.now), k);
    EvictionIs(c, t, k);
    PutFindsOnly(Sweep(c, t.now)[1..], Item(t.op.key, t.op.value, t.now + t.op.ttlSeconds * 1000), k);
  }

  /** The cache holds a live write exactly when no step since has evicted it. */
  lemma {:induction false} HeldUnlessEvicted<V>(ops: seq<Timed<V>>, k: string, now: int)
    requires Monotone(ops) && (ops != [] ==> ops[|ops| - 1].now <= now)
    requires Visible(LastWrite(ops, k), now).Some?
    ensures Find(Run(ops), k).None? <==> EvictedSince(ops, k)
  {
    var front, t := ops[..|ops| - 1], ops[|ops| - 1];
    EntryIsLastWrite(front, k);
    if t.op.Set? && t.op.key == k {
      SetFinds(Run(front), k, t.op.value, t.op.ttlSeconds, t.now, k);
    } else {
      HeldUnlessEvicted(front, k, t.now);
      HeldStep(Run(front), t, k);
    }
  }

  /** One step that neither writes nor deletes k, nor comes after its expiry. */
  lemma HeldStep<V>(c: seq<Item<V>>, t: Timed<V>, k: string)
    requires DistinctKeys(c) && (Find(c, k).Some? ==> t.now <= Find(c, k).value.exp)
    requires !(t.op.Set? && t.op.key == k) && !(t.op.DeleteLocal? && t.op.key == k) && !t.op.Shutdown?
    ensures Find(Step(c, t), k).None? <==> Find(c, k).None? || EvictedBy(c, t, k)
  {
    LiveEntryVanishesOnly(c, t, k);
    if EvictedBy(c, t, k) { EvictedIsGone(c, t, k); }
  }

  /**
   Over every history, however many keys it sets: a live write is missed exactly when it was evicted since, as the
   oldest key of a map that a sweep had left full; everything else reads as in the timed map.
   */
  lemma MissedIffEvicted<V>(ops: seq<Timed<V>>, k: string, now: int)
    requires Monotone(ops) && (ops != [] ==> ops[|ops| - 1].now <= now)
    ensures GetOp(Run(ops), k, now).1 == Visible(LastWrite(ops, k), now)
            <==> Visible(LastWrite(ops, k), now).None? || !EvictedSince(ops, k)
  {
    EntryIsLastWrite(ops, k);
    if Visible(LastWrite(ops, k), now).Some? { HeldUnlessEvicted(ops, k, now); }
  }

  // ---- While the live keys fit ----

  /** The keys whose last write is still visible. */
  function LiveKeys<V>(ops: seq<Timed<V>>, now: int): set<string> {
    set k | k in SetKeys(ops) && Visible(LastWrite(ops, k), now).Some?
  }

  /** At every insertion so far, the other live keys were fewer than the places. */
  predicate AlwaysFits<V>(ops: seq<Timed<V>>) {
    if ops == [] then true
    else
      var front, last := ops[..|ops| - 1], ops[|ops| - 1];
      && AlwaysFits(front)
      && (last.op.Set? ==> |LiveKeys(front, last.now) - {last.op.key}| < MAX_CACHE_SIZE)
  }

  lemma {:induction false} SweptIsLive<V>(c: seq<Item<V>>, now: int)
    ensures forall i | 0 <= i < |Sweep(c, now)| :: Sweep(c, now)[i] in c && now <= Sweep(c, now)[i].exp
  {
    if c != [] { SweptIsLive(c[1..], now); }
  }

  lemma {:induction false} ItemIsFound<V>(c: seq<Item<V>>, item: Item<V>)
    requires DistinctKeys(c) && item in c
    ensures Find(c, item.key) == Some(item)
  {
    if c[0] != item { ItemIsFound(c[1..], item); }
  }

  /** What a sweep leaves is live, so nothing is evicted while the live keys fit. */
  lemma NoEvictionWithinCapacity<V>(ops: seq<Timed<V>>, t: Timed<V>, k: string)
    requires t.op.Set? ==> |LiveKeys(ops, t.now) - {t.op.key}| < MAX_CACHE_SIZE
    ensures !EvictedBy(Run(ops), t, k)
  {
    if t.op.Set? && Find(Run(ops), t.op.key).None? {
      RunKeysWereSet(ops);
      SweepFinds(Run(ops), t.now, k);
      SizeIsKeys(Sweep(Run(ops), t.now));
      SweptKeysAreLive(ops, t);
      SubsetSize(Keys(Sweep(Run(ops), t.now)), LiveKeys(ops, t.now) - {t.op.key});
    }
  }

  lemma SweptKeysAreLive<V>(ops: seq<Timed<V>>, t: Timed<V>)
    requires t.op.Set? && Find(Run(ops), t.op.key).None?
    ensures Keys(Sweep(Run(ops), t.now)) <= LiveKeys(ops, t.now) - {t.op.key}
  {
    var c, swept := Run(ops), Sweep(Run(ops), t.now);
    RunKeysWereSet(ops);
    SweptIsLive(c, t.now);
    forall key | key in Keys(swept) ensures key in LiveKeys(ops, t.now) && key != t.op.key {
      var i :| 0 <= i < |swept| && swept[i].key == key;
      ItemIsFound(c, swept[i]);
      FindKey(c, key);
      EntryIsLastWrite(ops, key);
    }
  }

  lemma {:induction false} FittingEvictsNothing<V>(ops: seq<Timed<V>>, k: string)
    requires AlwaysFits(ops)
    ensures !EvictedSince(ops, k)
  {
    if ops != [] {
      FittingEvictsNothing(ops[..|ops| - 1], k);
      NoEvictionWithinCapacity(ops[..|ops| - 1], ops[|ops| - 1], k);
    }
  }

  /** While the live keys fit, the cache is exactly the timed map: same hits and same misses, at every time. */
  lemma RefinesTimedMap<V>(ops: seq<Timed<V>>, k: string, now: int)
    requires Monotone(ops) && (ops != [] ==> ops[|ops| - 1].now <= now) && AlwaysFits(ops)
    ensures GetOp(Run(ops), k, now).1 == Visible(LastWrite(ops, k), now)
  {
    FittingEvictsNothing(ops, k);
    MissedIffEvicted(ops, k, now);
  }

  lemma SetKeysGrow<V>(ops: seq<Timed<V>>)
    requires ops != []
    ensures SetKeys(ops[..|ops| - 1]) <= SetKeys(ops)
    ensures ops[|ops| - 1].op.Set? ==> ops[|ops| - 1].op.key in SetKeys(ops)
  {
    var front := ops[..|ops| - 1];
    forall key | key in SetKeys(front) ensures key in SetKeys(ops) {
      var i :| 0 <= i < |front| && front[i].op.Set? && front[i].op.key == key;
      assert ops[i] == front[i];
    }
  }

  /** In particular a history that never sets more than 10,000 keys always fits. */
  lemma {:induction false} FewKeysFit<V>(ops: seq<Timed<V>>)
    requires |SetKeys(ops)| <= MAX_CACHE_SIZE
    ensures AlwaysFits(ops)
  {
    if ops != [] {
      var front, last := ops[..|ops| - 1], ops[|ops| - 1];
      SetKeysGrow(ops);
      SubsetSize(SetKeys(front), SetKeys(ops));
      FewKeysFit(front);
      if last.op.Set? {
        SubsetSize(LiveKeys(front, last.now) - {last.op.key}, SetKeys(ops) - {last.op.key});
      }
    }
  }

  // ---- The order ----

  /** The step at which the present stay of k began: its first Set since it was last absent. Not held: -1. */
  function Began<V>(ops: seq<Timed<V>>, k: string): (at: int)
    ensures -1 <= at < |ops|
  {
    if ops == [] || Find(Run(ops), k).None? then -1
    else if Find(Run(ops[..|ops| - 1]), k).None? then |ops| - 1
    else Began(ops[..|ops| - 1], k)
  }

  /** That step set the key, which was absent right before it and has been held ever since. */
  lemma {:induction false} StayBeganWithSet<V>(ops: seq<Timed<V>>, k: string)
    requires Find(Run(ops), k).Some?
    ensures var b := Began(ops, k);
            && 0 <= b && ops[b].op.Set? && ops[b].op.key == k && Find(Run(ops[..b]), k).None?
            && forall i | b < i <= |ops| :: Find(Run(ops[..i]), k).Some?
  {
    var front, t := ops[..|ops| - 1], ops[|ops| - 1];
    assert ops[..|ops|] == ops;
    EntryIsLastWrite(front, k);
    if Find(Run(front), k).None? {
      LiveEntryVanishesOnly(Run(front), t, k);
    } else {
      StayBeganWithSet(front, k);
      forall i | 0 <= i <= |front| ensures front[..i] == ops[..i] {}
    }
  }

  /** The keys of c stand in the order in which their stays in this history began. */
  predicate Ascending<V>(c: seq<Item<V>>, ops: seq<Timed<V>>) {
    forall i, j | 0 <= i < j < |c| :: Began(ops, c[i].key) < Began(ops, c[j].key)
  }

  /** What is drawn from a list in order, without its head or with it, ascends if the list does. */
  lemma {:induction false} HeadAscends<V>(c: seq<Item<V>>, rest: seq<Item<V>>, ops: seq<Timed<V>>)
    requires c != [] && Ascending(c, ops) && Ascending(rest, ops) && forall x | x in rest :: x in c[1..]
    ensures Ascending([c[0]] + rest, ops) && forall x | x in [c[0]] + rest :: x in c
  {
    forall j | 0 <= j < |rest| ensures Began(ops, c[0].key) < Began(ops, rest[j].key) {
      assert rest[j] in c[1..];
      var i :| 0 <= i < |c| - 1 && c[1..][i] == rest[j];
      assert c[i + 1] == rest[j];
    }
  }

  lemma {:induction false} RemoveAscends<V>(c: seq<Item<V>>, key: string, ops: seq<Timed<V>>)
    requires Ascending(c, ops)
    ensures Ascending(Remove(c, key), ops) && forall x | x in Remove(c, key) :: x in c
  {
    if c != [] && c[0].key != key {
      RemoveAscends(c[1..], key, ops);
      HeadAscends(c, Remove(c[1..], key), ops);
    }
  }

  lemma {:induction false} SweepAscends<V>(c: seq<Item<V>>, now: int, ops: seq<Timed<V>>)
    requires Ascending(c, ops)
    ensures Ascending(Sweep(c, now), ops) && forall x | x in Sweep(c, now) :: x in c
  {
    if c != [] {
      SweepAscends(c[1..], now, ops);
      HeadAscends(c, Sweep(c[1..], now), ops);
      assert [] + Sweep(c[1..], now) == Sweep(c[1..], now);
    }
  }

  lemma {:induction false} MakeRoomAscends<V>(c: seq<Item<V>>, key: string, now: int, ops: seq<Timed<V>>)
    requires Ascending(c, ops)
    ensures Ascending(MakeRoom(c, key, now), ops) && forall x | x in MakeRoom(c, key, now) :: x in c
  {
    SweepAscends(c, now, ops);
  }

  /** Setting a present key leaves every key in its place; a new one goes to the end. */
  lemma {:induction false} PutKeepsPlaces<V>(c: seq<Item<V>>, item: Item<V>)
    ensures var c' := Put(c, item);
            && |c'| == |c| + (if Find(c, item.key).None? then 1 else 0)
            && (forall i | 0 <= i < |c| :: c'[i].key == c[i].key)
            && (Find(c, item.key).None? ==> c'[|c|].key == item.key)
  {
    if c != [] && c[0].key != item.key {
      PutKeepsPlaces(c[1..], item);
      assert forall i | 1 <= i < |c| :: c[i] == c[1..][i - 1];
    }
  }

  /** A key that is held before and after a step keeps the beginning of its stay. */
  lemma {:induction false} StayGoesOn<V>(ops: seq<Timed<V>>, c: seq<Item<V>>)
    requires ops != [] && forall x | x in c :: x in Run(ops[..|ops| - 1])
    requires forall x | x in c :: Find(Run(ops), x.key).Some?
    requires Ascending(c, ops[..|ops| - 1])
    ensures Ascending(c, ops) && forall x | x in c :: Began(ops, x.key) < |ops| - 1
  {
    var front := ops[..|ops| - 1];
    forall x | x in c ensures Began(ops, x.key) == Began(front, x.key) {
      var i :| 0 <= i < |Run(front)| && Run(front)[i] == x;
      FindKey(Run(front), x.key);
    }
    assert forall i | 0 <= i < |c| :: c[i] in c;
  }

  lemma {:induction false} FindsAll<V>(c: seq<Item<V>>)
    ensures forall x | x in c :: Find(c, x.key).Some?
  {
    forall x | x in c ensures Find(c, x.key).Some? {
      var i :| 0 <= i < |c| && c[i] == x;
      FindKey(c, x.key);
    }
  }

  lemma {:induction false} PutAscends<V>(c: seq<Item<V>>, item: Item<V>, ops: seq<Timed<V>>)
    requires Ascending(c, ops)
    requires Find(c, item.key).None? ==> forall x | x in c :: Began(ops, x.key) < Began(ops, item.key)
    ensures Ascending(Put(c, item), ops)
  {
    PutKeepsPlaces(c, item);
    assert forall i | 0 <= i < |c| :: c[i] in c;
  }

  lemma {:induction false} PutHoldsAll<V>(c: seq<Item<V>>, item: Item<V>)
    ensures forall x | x in c :: Find(Put(c, item), x.key).Some?
  {
    PutKeepsPlaces(c, item);
    FindsAll(Put(c, item));
    forall x | x in c ensures Find(Put(c, item), x.key).Some? {
      var i :| 0 <= i < |c| && c[i] == x;
      assert Put(c, item)[i] in Put(c, item);
    }
  }

  function Written<V>(t: Timed<V>): Item<V>
    requires t.op.Set?
  {
    Item(t.op.key, t.op.value, t.now + t.op.ttlSeconds * 1000)
  }

  lemma {:induction false} RunSet<V>(front: seq<Timed<V>>, t: Timed<V>)
    requires t.op.Set?
    ensures Run(front + [t]) == Put(MakeRoom(Run(front), t.op.key, t.now), Written(t))
  {
    assert (front + [t])[..|front|] == front;
  }

  lemma {:induction false} RoomKeepsOrder<V>(front: seq<Timed<V>>, t: Timed<V>)
    requires t.op.Set? && Ascending(Run(front), front)
    ensures var room := MakeRoom(Run(front), t.op.key, t.now);
            Ascending(room, front + [t]) && forall x | x in room :: Began(front + [t], x.key) < |front|
  {
    var room := MakeRoom(Run(front), t.op.key, t.now);
    assert (front + [t])[..|front|] == front;
    MakeRoomAscends(Run(front), t.op.key, t.now, front);
    PutHoldsAll(room, Written(t));
    RunSet(front, t);
    StayGoesOn(front + [t], room);
  }

  /** A key that is set and was not held when there was room for it comes last. */
  lemma {:induction false} NewKeyIsLast<V>(front: seq<Timed<V>>, t: Timed<V>)
    requires t.op.Set? && Find(MakeRoom(Run(front), t.op.key, t.now), t.op.key).None?
    ensures Began(front + [t], t.op.key) == |front|
  {
    assert (front + [t])[..|front|] == front;
    EntryIsLastWrite(front, t.op.key);
    MakeRoomFinds(Run(front), t.op.key, t.op.value, t.op.ttlSeconds, t.now, t.op.key);
    RunSet(front, t);
    PutFindsOnly(MakeRoom(Run(front), t.op.key, t.now), Written(t), t.op.key);
  }

  /** A Set keeps the order: what makes room leaves the others in theirs, and a new key comes last. */
  lemma {:induction false} SetKeepsOrder<V>(front: seq<Timed<V>>, t: Timed<V>)
    requires t.op.Set? && Ascending(Run(front), front)
    ensures Ascending(Run(front + [t]), front + [t])
  {
    RoomKeepsOrder(front, t);
    RunSet(front, t);
    if Find(MakeRoom(Run(front), t.op.key, t.now), t.op.key).None? { NewKeyIsLast(front, t); }
    PutAscends(MakeRoom(Run(front), t.op.key, t.now), Written(t), front + [t]);
  }

  /**
   For every history, the keys of the map stand in the order in which their present stays began. Neither a read nor a
   second Set moves a key.
   */
  lemma {:induction false} KeysStandInOrder<V>(ops: seq<Timed<V>>)
    ensures Ascending(Run(ops), ops)
  {
    if ops != [] {
      var front, t := ops[..|ops| - 1], ops[|ops| - 1];
      KeysStandInOrder(front);
      if t.op.Set? {
        assert front + [t] == ops;
        SetKeepsOrder(front, t);
      } else {
        if t.op.Get? || t.op.DeleteLocal? { RemoveAscends(Run(front), t.op.key, front); }
        if t.op.SweepExpired? { SweepAscends(Run(front), t.now, front); }
        FindsAll(Run(ops));
        StayGoesOn(ops, Run(ops));
      }
    }
  }

  /** So an evicted key is the one that has been held longest of all that have not expired. */
  lemma {:induction false} OldestStayIsEvicted<V>(ops: seq<Timed<V>>, t: Timed<V>, k: string, other: string)
    requires EvictedBy(Run(ops), t, k) && other != k
    requires Find(Run(ops), other).Some? && t.now <= Find(Run(ops), other).value.exp
    ensures 0 <= Began(ops, k) < Began(ops, other)
  {
    var c := Run(ops);
    KeysStandInOrder(ops);
    EntryIsLastWrite(ops, k);
    SweepAscends(c, t.now, ops);
    SweepFinds(c, t.now, other);
    var swept := Sweep(c, t.now);
    FindKey(swept, other);
    var i :| 0 <= i < |swept| && swept[i] == Find(swept, other).value;
    FindsAll(c);
    assert swept[0] in c;
    StayBeganWithSet(ops, k);
  }

  // ---- The bound ----

  /**
   When an insertion leaves more entries than the bound, for any cache: the sweep left too many already, or it left a
   full cache whose oldest key is the empty string.
   */
  lemma SetExceedsBoundIff<V>(c: seq<Item<V>>, key: string, value: V, ttl: int, now: int)
    requires DistinctKeys(c)
    ensures var swept := Sweep(c, now);
            |SetOp(c, key, value, ttl, now)| > MAX_CACHE_SIZE <==>
              if Find(c, key).Some? then |c| > MAX_CACHE_SIZE
              else |swept| > MAX_CACHE_SIZE || (|swept| == MAX_CACHE_SIZE && swept[0].key == "")
  {
    SweepFinds(c, now, key);
    MakeRoomFinds(c, key, value, ttl, now, key);
    PutFindsOnly(MakeRoom(c, key, now), Item(key, value, now + ttl * 1000), key);
  }

  /** While the empty string is the oldest live key nothing is evicted: every new key adds an entry for good. */
  lemma EmptyOldestKeyGrows<V>(c: seq<Item<V>>, key: string, value: V, ttl: int, now: int)
    requires DistinctKeys(c) && Find(c, key).None? && c != [] && c[0].key == ""
    requires forall i | 0 <= i < |c| :: now <= c[i].exp
    ensures SetOp(c, key, value, ttl, now) == c + [Item(key, value, now + ttl * 1000)]
  {
    LiveSweepIsIdentity(c, now);
    PutAbsent(c, Item(key, value, now + ttl * 1000));
  }

  lemma {:induction false} LiveSweepIsIdentity<V>(c: seq<Item<V>>, now: int)
    requires forall i | 0 <= i < |c| :: now <= c[i].exp
    ensures Sweep(c, now) == c
  {
    if c != [] { LiveSweepIsIdentity(c[1..], now); }
  }

  lemma {:induction false} PutAbsent<V>(c: seq<Item<V>>, item: Item<V>)
    requires Find(c, item.key).None?
    ensures Put(c, item) == c + [item]
  {
    if c != [] { PutAbsent(c[1..], item); }
  }

  /** The key of i letters. */
  function Letters(i: nat): string { seq(i, _ => 'a') }

  /** One insertion per key, the empty one first, all within one minute. */
  function Flood(n: nat): seq<Timed<int>> {
    if n == 0 then [] else Flood(n - 1) + [Timed(Set(Letters(n - 1), 0, 60), 0)]
  }

  /** What such a history leaves: all n entries, in order. */
  predicate Flooded(c: seq<Item<int>>, n: nat) {
    |c| == n && forall i | 0 <= i < n :: c[i] == Item(Letters(i), 0, 60_000)
  }

  lemma FloodAbsent(c: seq<Item<int>>, n: nat)
    requires Flooded(c, n)
    ensures Find(c, Letters(n)).None? && (n != 0 ==> c[0].key == "")
  {
    forall i | 0 <= i < n ensures c[i].key != Letters(n) { assert |c[i].key| == i && |Letters(n)| == n; }
    FindKey(c, Letters(n));
  }

  lemma FloodAppends(c: seq<Item<int>>, n: nat)
    requires Flooded(c, n)
    ensures SetOp(c, Letters(n), 0, 60, 0) == c + [Item(Letters(n), 0, 60_000)]
  {
    FloodAbsent(c, n);
    PutAbsent(c, Item(Letters(n), 0, 60_000));
    if n != 0 { EmptyOldestKeyGrows(c, Letters(n), 0, 60, 0); }
  }

  lemma FloodStep(c: seq<Item<int>>, n: nat)
    requires Flooded(c, n)
    ensures Flooded(SetOp(c, Letters(n), 0, 60, 0), n + 1)
  {
    FloodAppends(c, n);
  }

  /** So the cache has no bound at all: for every n there is a history that leaves n entries. */
  lemma {:induction false} NoBoundWithEmptyKey(n: nat)
    ensures Flooded(Run(Flood(n)), n)
  {
    if n != 0 {
      var ops := Flood(n);
      assert ops[..|ops| - 1] == Flood(n - 1);
      NoBoundWithEmptyKey(n - 1);
      FloodStep(Run(Flood(n - 1)), n - 1);
    }
  }

  lemma {:induction false} FullSweepIsIdentity<V>(c: seq<Item<V>>, now: int)
    ensures |Sweep(c, now)| <= |c| && (|Sweep(c, now)| == |c| ==> Sweep(c, now) == c)
  {
    if c != [] { FullSweepIsIdentity(c[1..], now); }
  }

  /** A cache that never stores the empty key never holds more than 10,000 entries. */
  lemma {:induction false} SizeIsBounded<V>(ops: seq<Timed<V>>)
    requires "" !in SetKeys(ops)
    ensures |Run(ops)| <= MAX_CACHE_SIZE
  {
    if ops != [] {
      var front, t := ops[..|ops| - 1], ops[|ops| - 1];
      SetKeysGrow(ops);
      SizeIsBounded(front);
      RunKeysWereSet(front);
      var c := Run(front);
      match t.op
      case Get(key) => RemoveFinds(c, key, key);
      case Set(key, value, ttl) =>
        SetExceedsBoundIff(c, key, value, ttl, t.now);
        FullSweepIsIdentity(c, t.now);
        assert c != [] ==> c[0].key in Keys(c);
      case DeleteLocal(key) => RemoveFinds(c, key, key);
      case SweepExpired => SweepFinds(c, t.now, "");
      case Shutdown =>
    }
  }

  /** One turn of the sweeping loop: entry i is dropped or passed. */
  lemma SweepAt<V>(c: seq<Item<V>>, i: nat, now: int)
    requires i < |c|
    ensures var dropped := c[..i] + c[i + 1..];
            c[..i] + Sweep(c[i..], now) ==
            if now > c[i].exp then dropped[..i] + Sweep(dropped[i..], now) else c[..i + 1] + Sweep(c[i + 1..], now)
  {
    assert c[i..][1..] == c[i + 1..];
    if now > c[i].exp {
      var dropped := c[..i] + c[i + 1..];
      assert dropped[..i] == c[..i] && dropped[i..] == c[i + 1..];
    } else {
      assert c[..i + 1] == c[..i] + [c[i]];
    }
  }

  // ---- The service object ----

  class DistributedCacheService<V(==)> {
    /** The Map, in insertion order. */
    var cache: seq<Item<V>>

    constructor ()
      ensures cache == []
    {
      cache := [];
    }

    method Read(key: string, now: int) returns (value: Option<V>)
      modifies this
      ensures (cache, value) == GetOp(old(cache), key, now)
    {
      var item := Find(cache, key);
      if item.None? { return None; }
      if now > item.value.exp {
        cache := Remove(cache, key);
        return None;
      }
      return Some(item.value.value);
    }

    method Write(key: string, value: V, ttlSeconds: int, now: int)
      modifies this
      ensures cache == SetOp(old(cache), key, value, ttlSeconds, now)
    {
      if Find(cache, key).None? && |cache| >= MAX_CACHE_SIZE {
        var _ := SweepAll(now);
        if |cache| >= MAX_CACHE_SIZE {
          var oldestKey := cache[0].key;
          if oldestKey != "" {
            assert Remove(cache, oldestKey) == cache[1..];
            cache := Remove(cache, oldestKey);
          }
        }
      }
      cache := Put(cache, Item(key, value, now + ttlSeconds * 1000));
    }

    /** Deletes expired entries while iterating over the Map. */
    method SweepAll(now: int) returns (evictedCount: nat)
      modifies this
      ensures cache == Sweep(old(cache), now)
      ensures evictedCount == |old(cache)| - |cache|
    {
      evictedCount := 0;
      var i := 0;
      while i < |cache|
        invariant 0 <= i <= |cache| && evictedCount == |old(cache)| - |cache|
        invariant cache[..i] + Sweep(cache[i..], now) == Sweep(old(cache), now)
        decreases |cache| - i
      {
        SweepAt(cache, i, now);
        if now > cache[i].exp {
          cache := cache[..i] + cache[i + 1..];
          evictedCount := evictedCount + 1;
        } else {
          i := i + 1;
        }
      }
      assert cache[..i] == cache && cache[i..] == [];
    }

    method Delete(key: string)
      modifies this
      ensures cache == Remove(old(cache), key)
    {
      if Find(cache, key).Some? {
        cache := Remove(cache, key);
      } else {
        RemoveAbsent(cache, key);
      }
    }

    /** onApplicationShutdown. */
    method Stop()
      modifies this
      ensures forall now :: cache == Step(old(cache), Timed(Shutdown, now))
    {
      cache := [];
    }
  }

  lemma {:induction false} RemoveAbsent<V>(c: seq<Item<V>>, key: string)
    requires Find(c, key).None?
    ensures Remove(c, key) == c
  {
    if c != [] { RemoveAbsent(c[1..], key); }
  }
}
