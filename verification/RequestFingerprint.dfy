/** requestFingerprint: which two requests the lease protocol takes to be the same. */
module RequestFingerprints {
  import opened Options
  import opened StableSerialize
  import opened IdempotencyRecords
  import opened IdempotencyProtocol
  import opened IdempotencySafety

  /** The parts of a request the fingerprint reads; `verb` is the HTTP method. */
  datatype Request = Request(verb: Option<string>, routeUrl: Option<string>, url: Option<string>, query: Json,
      body: Json)

  function UpperChar(c: char): char { if 'a' <= c <= 'z' then c - 'a' + 'A' else c }

  function Upper(s: string): string { seq(|s|, i requires 0 <= i < |s| => UpperChar(s[i])) }

  /** url.split("?")[0] */
  function BeforeQuery(url: string): string {
    if url == "" || url[0] == '?' then "" else [url[0]] + BeforeQuery(url[1..])
  }

  function Verb(r: Request): string { Upper(if r.verb.Some? then r.verb.value else "GET") }

  function Route(r: Request): string {
    if r.routeUrl.Some? then r.routeUrl.value
    else if r.url.Some? then BeforeQuery(r.url.value)
    else "/"
  }

  function Path(r: Request): string { if r.url.Some? then BeforeQuery(r.url.value) else Route(r) }

  function Query(r: Request): Json { if r.query.Undefined? || r.query.Null? then Obj([]) else r.query }

  function FingerprintOf(hash: string -> string, r: Request): Fingerprint {
    var queryHash := hash(Serialize(Query(r)));
    var bodyHash := hash(Serialize(r.body));
    Fingerprint(hash(Verb(r) + "\n" + Route(r) + "\n" + Path(r) + "\n" + queryHash + "\n" + bodyHash),
                Verb(r), Route(r), Path(r), queryHash, bodyHash)
  }

  /** SHA-256 idealised as a collision-free function. */
  ghost predicate CollisionFree(hash: string -> string) { forall x, y :: hash(x) == hash(y) ==> x == y }

  predicate WellFormedRequest(r: Request) { WellFormed(r.query) && WellFormed(r.body) }

  // ---- Which requests are the same, from their own fields ----

  predicate SameLetter(c: char, d: char) {
    || c == d
    || ('a' <= c <= 'z' && d as int == c as int - 32)
    || ('a' <= d <= 'z' && c as int == d as int - 32)
  }

  predicate SameUpToCase(x: string, y: string) { |x| == |y| && forall i | 0 <= i < |x| :: SameLetter(x[i], y[i]) }

  /** The same method up to ASCII case; a missing one is GET. */
  predicate SameMethod(a: Request, b: Request) {
    SameUpToCase(if a.verb.None? then "GET" else a.verb.value, if b.verb.None? then "GET" else b.verb.value)
  }

  /** p is what stands before the first question mark of the url. */
  predicate HasPath(url: string, p: string) {
    p <= url && '?' !in p && (|p| < |url| ==> url[|p|] == '?')
  }

  /** The route is the template; without one it is the path, and without a url "/". */
  predicate IsRoute(r: Request, route: string) {
    if r.routeUrl.Some? then route == r.routeUrl.value
    else if r.url.Some? then HasPath(r.url.value, route)
    else route == "/"
  }

  /** The resolved path names the resource, whatever the template says; without a url the route stands for it. */
  predicate IsPath(r: Request, path: string) {
    if r.url.Some? then HasPath(r.url.value, path) else IsRoute(r, path)
  }

  predicate Absent(query: Json) { query.Undefined? || query.Null? }

  /** The same query up to key order; a missing one counts as the empty object. */
  predicate SameQuery(x: Json, y: Json) {
    if Absent(x) || Absent(y) then (Absent(x) || x == Obj([])) && (Absent(y) || y == Obj([]))
    else Equivalent(Nulled(x), Nulled(y))
  }

  /**
   Same method, route and resolved path; same query and body up to key order at every depth, where a number that
   overflows to an infinity counts as null.
   */
  ghost predicate SameRequest(a: Request, b: Request) {
    && SameMethod(a, b)
    && (exists route :: IsRoute(a, route) && IsRoute(b, route))
    && (exists path :: IsPath(a, path) && IsPath(b, path))
    && SameQuery(a.query, b.query) && Equivalent(Nulled(a.body), Nulled(b.body))
  }

  lemma {:induction false} BeforeQueryIsPath(url: string, p: string)
    ensures HasPath(url, p) <==> p == BeforeQuery(url)
    decreases url
  {
    if url == "" {
    } else if url[0] == '?' {
      assert p != "" && p <= url ==> p[0] in p && p[0] == '?';
    } else if p == "" {
    } else {
      BeforeQueryIsPath(url[1..], p[1..]);
      if HasPath(url, p) {
        assert p[0] == url[0] && p[1..] <= url[1..];
        assert forall c | c in p[1..] :: c in p;
        assert p == [url[0]] + p[1..];
      }
      if p == BeforeQuery(url) {
        assert p[1..] == BeforeQuery(url[1..]);
        assert forall c | c in p :: c == p[0] || c in p[1..];
      }
    }
  }

  /** The route and the path of the fingerprint are those of the request. */
  lemma PartsAreTheRequests(hash: string -> string, r: Request)
    ensures IsRoute(r, FingerprintOf(hash, r).route) && IsPath(r, FingerprintOf(hash, r).path)
    ensures forall route | IsRoute(r, route) :: route == FingerprintOf(hash, r).route
    ensures forall path | IsPath(r, path) :: path == FingerprintOf(hash, r).path
  {
    if r.url.Some? {
      forall p ensures HasPath(r.url.value, p) <==> p == BeforeQuery(r.url.value) {
        BeforeQueryIsPath(r.url.value, p);
      }
    }
  }

  lemma UpperAgrees(c: char, d: char)
    ensures UpperChar(c) == UpperChar(d) <==> SameLetter(c, d)
  {}

  lemma UppersAgree(x: string, y: string)
    ensures Upper(x) == Upper(y) <==> SameUpToCase(x, y)
  {
    var u, v := Upper(x), Upper(y);
    forall i | 0 <= i < |x| && i < |y| ensures u[i] == v[i] <==> SameLetter(x[i], y[i]) { UpperAgrees(x[i], y[i]); }
    if SameUpToCase(x, y) {
      assert forall i | 0 <= i < |u| :: u[i] == v[i];
    }
  }

  lemma VerbsAgreeIff(a: Request, b: Request)
    ensures Verb(a) == Verb(b) <==> SameMethod(a, b)
  {
    UppersAgree(if a.verb.None? then "GET" else a.verb.value, if b.verb.None? then "GET" else b.verb.value);
  }

  lemma EmptyObjectIsAlone(x: Json)
    ensures Nulled(Obj([])) == Obj([])
    ensures Equivalent(Obj([]), Nulled(x)) <==> x == Obj([])
    ensures Equivalent(Nulled(x), Obj([])) <==> x == Obj([])
  {
    assert NulledMembers([]) == [];
    if x.Obj? {
      assert |NulledMembers(x.members)| == |x.members|;
      assert x.members == [] <==> |x.members| == 0;
    }
  }

  lemma QueriesAgreeIff(a: Request, b: Request)
    ensures Equivalent(Nulled(Query(a)), Nulled(Query(b))) <==> SameQuery(a.query, b.query)
  {
    EmptyObjectIsAlone(a.query);
    EmptyObjectIsAlone(b.query);
    EmptyObjectIsAlone(Obj([]));
  }

  lemma FingerprintDecidesSameRequest(hash: string -> string, a: Request, b: Request)
    requires CollisionFree(hash) && WellFormedRequest(a) && WellFormedRequest(b)
    ensures FingerprintOf(hash, a) == FingerprintOf(hash, b) <==> SameRequest(a, b)
  {
    SerializeDecidesEquivalence(Query(a), Query(b));
    SerializeDecidesEquivalence(a.body, b.body);
    VerbsAgreeIff(a, b);
    QueriesAgreeIff(a, b);
    PartsAreTheRequests(hash, a);
    PartsAreTheRequests(hash, b);
  }

  /**
   Two resources under one template never share a fingerprint: urls that differ before their question marks differ, for
   every hash.
   */
  lemma PathsTellRequestsApart(hash: string -> string, a: Request, b: Request, p: string, p': string, q: string,
      q': string)
    requires a.url == Some(p + q) && b.url == Some(p' + q') && '?' !in p && '?' !in p'
    requires (q == "" || q[0] == '?') && (q' == "" || q'[0] == '?')
    ensures FingerprintOf(hash, a).path == p && FingerprintOf(hash, b).path == p'
    ensures p != p' ==> FingerprintOf(hash, a) != FingerprintOf(hash, b)
  {
    PartsAreTheRequests(hash, a);
    PartsAreTheRequests(hash, b);
    assert HasPath(p + q, p) && HasPath(p' + q', p');
  }

  /** The body {"n": 1e400} and the body {"n": null} share a fingerprint, whatever the hash. */
  lemma OverflowSharesFingerprint(hash: string -> string, r: Request, key: string, negative: bool)
    ensures var a, b := Obj([Member(key, NonFinite(negative))]), Obj([Member(key, Null)]);
            !Equivalent(a, b) && FingerprintOf(hash, r.(body := a)) == FingerprintOf(hash, r.(body := b))
  {
    OverflowReadsAsNull(key, negative);
  }

  /** End to end: a replayed body came from the handler of an equal request that owned the key. */
  lemma ReplayComesFromSameRequest(cfg: Config, s: State, hash: string -> string, inputs: map<ClaimId, Request>,
      id: ClaimId)
    returns (k: ClaimId)
    requires cfg.Valid() && Reachable(cfg, s) && CollisionFree(hash)
    requires forall c | c in s.clients ::
               c in inputs && WellFormedRequest(inputs[c]) && s.clients[c].fingerprint == FingerprintOf(hash, inputs[c])
    requires id in s.clients && s.clients[id].pc.Finished? && s.clients[id].pc.outcome.Replayed?
    ensures k in s.clients && s.clients[k].lease.Some? && SameRequest(inputs[id], inputs[k])
    ensures s.clients[k].produced.Some? && s.clients[k].produced.value.Serializable?
    ensures s.clients[k].produced.value.text == s.clients[id].pc.outcome.body
  {
    k := ReplayHasOrigin(cfg, s, id);
    FingerprintDecidesSameRequest(hash, inputs[id], inputs[k]);
  }
}
