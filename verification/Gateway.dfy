/** The gateway's host names and lookup cache (cmd/gateway/main.go). */
module Gateway {
  import opened Prelude

  // ---------------------------------------------------------------- host names

  predicate HasSuffix(s: string, suffix: string) { |suffix| <= |s| && s[|s| - |suffix|..] == suffix }

  /** Where strings.SplitN(s, ".", 2) cuts, |s| if it does not. */
  function FirstDot(s: string): (i: nat)
    ensures i <= |s| && (i < |s| ==> s[i] == '.') && forall k :: 0 <= k < i ==> s[k] != '.'
  {
    if s == "" || s[0] == '.' then 0
    else
      var i := FirstDot(s[1..]);
      assert forall k :: 1 <= k <= i ==> s[k] == s[1..][k - 1];
      i + 1
  }

  predicate DotFree(s: string) { forall k :: 0 <= k < |s| ==> s[k] != '.' }

  function ParseHost(host: string, domain: string): Option<(string, string)> {
    var suffix := "." + domain;
    if !HasSuffix(host, suffix) then None
    else
      var prefix := host[..|host| - |suffix|];
      var i := FirstDot(prefix);
      if i == |prefix| then None else Some((prefix[..i], prefix[i + 1..]))
  }

  lemma FirstDotAfter(agent: string, tenant: string)
    requires DotFree(agent)
    ensures FirstDot(agent + "." + tenant) == |agent|
  {
    var s := agent + "." + tenant;
    assert forall k :: 0 <= k < |agent| ==> s[k] == agent[k];
    assert s[|agent|] == '.';
  }

  /**
   * A host parses to an agent and a tenant exactly when it is the two and the domain joined by dots, the agent
   * without one of its own. The tenant may hold further dots, and either may be empty.
   */
  lemma ParseHostIff(host: string, domain: string, agent: string, tenant: string)
    ensures ParseHost(host, domain) == Some((agent, tenant))
            <==> DotFree(agent) && host == agent + "." + tenant + "." + domain
  {
    var suffix := "." + domain;
    if DotFree(agent) && host == agent + "." + tenant + "." + domain {
      var prefix := agent + "." + tenant;
      assert host == prefix + suffix;
      assert host[|host| - |suffix|..] == suffix && host[..|host| - |suffix|] == prefix;
      FirstDotAfter(agent, tenant);
      assert prefix[..|agent|] == agent && prefix[|agent| + 1..] == tenant;
    }
    if ParseHost(host, domain) == Some((agent, tenant)) {
      var prefix := host[..|host| - |suffix|];
      var i := FirstDot(prefix);
      assert prefix == prefix[..i] + [prefix[i]] + prefix[i + 1..];
      assert host == prefix + suffix;
      assert agent + "." + tenant + "." + domain == prefix + suffix;
    }
  }

  /** A host is refused exactly when it is no such join. */
  lemma RefusedIff(host: string, domain: string)
    ensures ParseHost(host, domain).None?
            <==> forall agent, tenant :: DotFree(agent) ==> host != Joined(agent, tenant, domain)
  {
    forall agent, tenant
      ensures ParseHost(host, domain) == Some((agent, tenant))
              <==> DotFree(agent) && host == Joined(agent, tenant, domain)
    {
      ParseHostIff(host, domain, agent, tenant);
    }
    var p := ParseHost(host, domain);
    if p.Some? {
      assert p == Some((p.value.0, p.value.1));
      assert host == Joined(p.value.0, p.value.1, domain);
    }
  }

  function Joined(agent: string, tenant: string, domain: string): string { agent + "." + tenant + "." + domain }

  // ---------------------------------------------------------------- lookups

  datatype Resolved = Resolved(tenant: string, ns: string, service: string, port: int)

  function Key(agent: string, tenant: string): string { agent + "." + tenant }

  /** Two pairs share a cache key exactly when they are equal or one agent's name swallows a dot of the other. */
  lemma KeysCollideIff(a1: string, t1: string, a2: string, t2: string)
    ensures Key(a1, t1) == Key(a2, t2) <==>
            || (a1 == a2 && t1 == t2)
            || (exists m :: a2 == Key(a1, m) && t1 == Key(m, t2))
            || (exists m :: a1 == Key(a2, m) && t2 == Key(m, t1))
  {
    if Key(a1, t1) == Key(a2, t2) {
      if |a1| < |a2| {
        Swallowed(a1, t1, a2, t2);
      } else if |a2| < |a1| {
        Swallowed(a2, t2, a1, t1);
      } else {
        assert Key(a1, t1)[..|a1|] == a1 && Key(a2, t2)[..|a1|] == a2;
        assert Key(a1, t1)[|a1| + 1..] == t1 && Key(a2, t2)[|a1| + 1..] == t2;
      }
    }
    if m :| a2 == Key(a1, m) && t1 == Key(m, t2) {
      assert Key(a1, t1) == a1 + "." + m + "." + t2 == Key(a2, t2);
    }
    if m :| a1 == Key(a2, m) && t2 == Key(m, t1) {
      assert Key(a2, t2) == a2 + "." + m + "." + t1 == Key(a1, t1);
    }
  }

  lemma Swallowed(a1: string, t1: string, a2: string, t2: string)
    requires Key(a1, t1) == Key(a2, t2) && |a1| < |a2|
    ensures exists m :: a2 == Key(a1, m) && t1 == Key(m, t2)
  {
    var s, m := Key(a1, t1), a2[|a1| + 1..];
    assert s[..|a1|] == a1 && s[|a1|] == '.' && s[|a1| + 1..] == t1;
    assert s[..|a2|] == a2 && s[|a2|..] == "." + t2;
    assert a2 == Key(a1, m);
    assert t1 == m + s[|a2|..] == Key(m, t2);
  }

  /** Agents that come out of a host hold no dot, so they never share a key. */
  lemma KeysAreInjective(a1: string, t1: string, a2: string, t2: string)
    requires DotFree(a1) && DotFree(a2) && Key(a1, t1) == Key(a2, t2)
    ensures a1 == a2 && t1 == t2
  {
    KeysCollideIff(a1, t1, a2, t2);
    forall m ensures !DotFree(Key(a1, m)) && !DotFree(Key(a2, m)) {
      HoldsDot(a1, m);
      HoldsDot(a2, m);
    }
  }

  lemma HoldsDot(a: string, m: string)
    ensures !DotFree(Key(a, m))
  {
    assert Key(a, m)[|a|] == '.';
  }

  /** port is None when the spec has none that is a number. */
  function Answer(agent: string, tenant: string, port: Option<int>): Resolved {
    Resolved(tenant, "tenant-" + tenant, agent, if port.None? || port.value == 0 then 8080 else port.value)
  }

  /** A cached answer, and when it was stored. */
  datatype Lookup = Lookup(agent: string, tenant: string, port: Option<int>, stored: Time)

  /** The most recent cached lookup under a key, by index; |past| if there is none. */
  function Latest(past: seq<Lookup>, key: string): (i: nat)
    ensures i <= |past|
    ensures i < |past| ==> Key(past[i].agent, past[i].tenant) == key
    ensures forall j :: 0 <= j < |past| && Key(past[j].agent, past[j].tenant) == key ==> i < |past| && j <= i
  {
    if past == [] then 0
    else
      var last := |past| - 1;
      if Key(past[last].agent, past[last].tenant) == key then last
      else
        var i := Latest(past[..last], key);
        assert forall j :: 0 <= j < last ==> past[j] == past[..last][j];
        if i == last then |past| else i
  }

  lemma LatestMore(past: seq<Lookup>, l: Lookup, key: string)
    ensures var i := Latest(past, key);
            Latest(past + [l], key)
            == if Key(l.agent, l.tenant) == key then |past| else if i == |past| then |past| + 1 else i
  {
    assert (past + [l])[..|past|] == past;
  }

  function Cached(past: seq<Lookup>, ttl: Time, key: string, now: Time): Option<Resolved> {
    var i := Latest(past, key);
    if i < |past| && now <= past[i].stored + ttl then Some(Answer(past[i].agent, past[i].tenant, past[i].port))
    else None
  }

  datatype Entry = Entry(value: Resolved, expiry: Time)

  /** The cache; its mutex makes each call of Get and Put one step. */
  class Cache {
    const ttl: Time
    var m: map<string, Entry>
    /** Everything ever cached, oldest first. */
    ghost var past: seq<Lookup>

    constructor (ttl: Time)
      ensures this.ttl == ttl && Valid() && past == []
    {
      this.ttl := ttl;
      m := map[];
      past := [];
    }

    /** The map holds, under every key, the answer of the most recent lookup, valid for ttl. */
    ghost predicate Valid()
      reads this
    {
      forall k :: && (k in m <==> Latest(past, k) < |past|)
                  && (k in m ==>
                        var l := past[Latest(past, k)];
                        m[k] == Entry(Answer(l.agent, l.tenant, l.port), l.stored + ttl))
    }

    /** A hit exactly when the most recent answer under the key was stored at most ttl ago. */
    method Get(key: string, now: Time) returns (hit: Option<Resolved>)
      requires Valid()
      ensures hit == Cached(past, ttl, key, now)
    {
      if key !in m || now > m[key].expiry {
        return None;
      }
      return Some(m[key].value);
    }

    method Put(key: string, v: Resolved, now: Time, ghost l: Lookup)
      requires Valid()
      requires Key(l.agent, l.tenant) == key && v == Answer(l.agent, l.tenant, l.port) && l.stored == now
      modifies this
      ensures Valid() && past == old(past) + [l]
    {
      m := m[key := Entry(v, now + ttl)];
      past := past + [l];
      forall k ensures Latest(past, k) == if k == key then |past| - 1
                                          else if Latest(old(past), k) == |old(past)| then |past|
                                          else Latest(old(past), k)
      {
        LatestMore(old(past), l, k);
      }
    }
  }

  // ---------------------------------------------------------------- requests

  /** The two steps of a request that touch the cache; between them lies a lookup that was made at looked. */
  datatype Op =
    | Asked(host: string, now: Time)
    | Stored(host: string, port: Option<int>, looked: Time, now: Time)

  function PutOf(domain: string, op: Op): seq<Lookup> {
    if op.Stored? && ParseHost(op.host, domain).Some? then
      var (agent, tenant) := ParseHost(op.host, domain).value;
      [Lookup(agent, tenant, op.port, op.now)]
    else []
  }

  /** Everything cached by the steps of any number of requests, in whatever order they come. */
  function Puts(domain: string, ops: seq<Op>): seq<Lookup> { Collect(ops, PutBy(domain)) }

  function PutBy(domain: string): Op -> seq<Lookup> { op => PutOf(domain, op) }

  /** What the cache answers for a host after some steps. */
  function FromCache(domain: string, ttl: Time, ops: seq<Op>, host: string, now: Time): Option<Resolved> {
    match ParseHost(host, domain)
    case None => None
    case Some((agent, tenant)) => Cached(Puts(domain, ops), ttl, Key(agent, tenant), now)
  }

  /** Step j is the last to store something for the host. */
  predicate LastStored(ops: seq<Op>, host: string, j: int) {
    && 0 <= j < |ops| && ops[j].Stored? && ops[j].host == host
    && forall i :: j < i < |ops| ==> !(ops[i].Stored? && ops[i].host == host)
  }

  /** Step j as the cache holds it. */
  predicate Holds(past: seq<Lookup>, agent: string, tenant: string, op: Op) {
    var i := Latest(past, Key(agent, tenant));
    op.Stored? && i < |past| && past[i] == Lookup(agent, tenant, op.port, op.now)
  }

  lemma PutForHost(domain: string, op: Op, host: string, agent: string, tenant: string)
    requires ParseHost(host, domain) == Some((agent, tenant))
    ensures if op.Stored? && op.host == host then PutOf(domain, op) == [Lookup(agent, tenant, op.port, op.now)]
            else PutOf(domain, op) == []
                 || (exists l :: PutOf(domain, op) == [l] && Key(l.agent, l.tenant) != Key(agent, tenant))
  {
    var put := PutOf(domain, op);
    if put != [] && op.host != host {
      ParseHostIff(host, domain, agent, tenant);
      ParseHostIff(op.host, domain, put[0].agent, put[0].tenant);
      assert put == [put[0]];
    }
  }

  lemma LastStoredMore(front: seq<Op>, op: Op, host: string)
    ensures op.Stored? && op.host == host ==> forall j :: LastStored(front + [op], host, j) <==> j == |front|
    ensures !(op.Stored? && op.host == host) ==>
              forall j :: LastStored(front + [op], host, j) <==> LastStored(front, host, j)
  {
    var ops := front + [op];
    assert ops[|front|] == op && forall j :: 0 <= j < |front| ==> front[j] == ops[j];
  }

  lemma {:induction false} LatestIsLast(domain: string, ops: seq<Op>, host: string, agent: string, tenant: string)
    requires ParseHost(host, domain) == Some((agent, tenant))
    ensures var past := Puts(domain, ops);
            && (Latest(past, Key(agent, tenant)) < |past| ==> exists j :: LastStored(ops, host, j))
            && forall j :: LastStored(ops, host, j) ==> Holds(past, agent, tenant, ops[j])
  {
    if ops != [] {
      var n := |ops| - 1;
      var front, op := ops[..n], ops[n];
      var past, put := Puts(domain, front), PutOf(domain, op);
      LatestIsLast(domain, front, host, agent, tenant);
      PutForHost(domain, op, host, agent, tenant);
      assert ops == front + [op];
      CollectConcat(front, [op], PutBy(domain));
      assert Puts(domain, [op]) == put + [];
      LatestStep(past, put, front, op, host, agent, tenant);
    }
  }

  lemma LatestStep(past: seq<Lookup>, put: seq<Lookup>, front: seq<Op>, op: Op, host: string, agent: string,
                   tenant: string)
    requires Latest(past, Key(agent, tenant)) < |past| ==> exists j :: LastStored(front, host, j)
    requires forall j :: LastStored(front, host, j) ==> Holds(past, agent, tenant, front[j])
    requires if op.Stored? && op.host == host then put == [Lookup(agent, tenant, op.port, op.now)]
             else put == [] || (exists l :: put == [l] && Key(l.agent, l.tenant) != Key(agent, tenant))
    ensures Latest(past + put, Key(agent, tenant)) < |past + put| ==>
              exists j :: LastStored(front + [op], host, j)
    ensures forall j :: LastStored(front + [op], host, j) ==> Holds(past + put, agent, tenant, (front + [op])[j])
  {
    LastStoredMore(front, op, host);
    if put == [] {
      assert past + put == past;
    } else {
      LatestMore(past, put[0], Key(agent, tenant));
      assert put == [put[0]];
    }
    if op.Stored? && op.host == host {
      assert LastStored(front + [op], host, |front|);
    }
  }

  /**
   * Over any steps from an empty cache, however requests interleave: a host is answered from the cache exactly when
   * the last answer stored for that very host was stored at most ttl ago, and with that answer.
   */
  lemma AnswersAreRecentLookups(domain: string, ttl: Time, ops: seq<Op>, host: string, now: Time, agent: string,
                                tenant: string, r: Resolved)
    requires ParseHost(host, domain) == Some((agent, tenant))
    ensures FromCache(domain, ttl, ops, host, now) == Some(r) <==>
            exists j :: && LastStored(ops, host, j) && now <= ops[j].now + ttl
                        && r == Answer(agent, tenant, ops[j].port)
  {
    LatestIsLast(domain, ops, host, agent, tenant);
  }

  /**
   * How stale an answer can be: when no lookup takes longer than patience to be stored, one from the cache is what
   * the API server said about that host at most ttl and patience ago.
   */
  lemma StaleAtMost(domain: string, ttl: Time, ops: seq<Op>, host: string, now: Time, patience: Time)
    requires forall j :: 0 <= j < |ops| && ops[j].Stored? ==> ops[j].now <= ops[j].looked + patience
    requires FromCache(domain, ttl, ops, host, now).Some?
    ensures var (agent, tenant) := ParseHost(host, domain).value;
            exists j :: && 0 <= j < |ops| && ops[j].Stored? && ops[j].host == host
                        && FromCache(domain, ttl, ops, host, now) == Some(Answer(agent, tenant, ops[j].port))
                        && now <= ops[j].looked + ttl + patience
  {
    var (agent, tenant) := ParseHost(host, domain).value;
    AnswersAreRecentLookups(domain, ttl, ops, host, now, agent, tenant, FromCache(domain, ttl, ops, host, now).value);
  }

  datatype Outcome = BadHost | NotFound | Target(value: Resolved)

  /** What a request is answered; reply is None when the API server has no such deployment or fails. */
  function Routed(domain: string, ttl: Time, ops: seq<Op>, host: string, reply: Option<Option<int>>, asked: Time)
    : Outcome
  {
    match ParseHost(host, domain)
    case None => BadHost
    case Some((agent, tenant)) =>
      var hit := FromCache(domain, ttl, ops, host, asked);
      if hit.Some? then Target(hit.value)
      else if reply.None? then NotFound
      else Target(Answer(agent, tenant, reply.value))
  }

  /**
   * Wherever a request is routed, it is to the agent and into the tenant's namespace that its own host names, and to a
   * port: 8080 for a deployment that gives none.
   */
  lemma RoutesWhereTheHostSays(domain: string, ttl: Time, ops: seq<Op>, host: string, reply: Option<Option<int>>,
                               asked: Time)
    requires Routed(domain, ttl, ops, host, reply, asked).Target?
    ensures ParseHost(host, domain).Some?
    ensures var (agent, tenant) := ParseHost(host, domain).value;
            var r := Routed(domain, ttl, ops, host, reply, asked).value;
            && r.tenant == tenant && r.ns == "tenant-" + tenant && r.service == agent && r.port != 0
            && (FromCache(domain, ttl, ops, host, asked).None? && reply == Some(None) ==> r.port == 8080)
            && (FromCache(domain, ttl, ops, host, asked).None? ==>
                  forall port :: reply == Some(Some(port)) && port != 0 ==> r.port == port)
  {
    var (agent, tenant) := ParseHost(host, domain).value;
    var hit := FromCache(domain, ttl, ops, host, asked);
    if hit.Some? {
      AnswersAreRecentLookups(domain, ttl, ops, host, asked, agent, tenant, hit.value);
    }
  }

  /** The steps a request takes. */
  function Steps(domain: string, ttl: Time, ops: seq<Op>, host: string, reply: Option<Option<int>>, asked: Time,
                 looked: Time, stored: Time): seq<Op>
  {
    if ParseHost(host, domain).None? then []
    else if reply.None? || FromCache(domain, ttl, ops, host, asked).Some? then [Asked(host, asked)]
    else [Asked(host, asked), Stored(host, reply.value, looked, stored)]
  }

  lemma PutsOfRequest(domain: string, ask: Op, store: Op)
    requires ask.Asked?
    ensures Puts(domain, [ask]) == [] && Puts(domain, [ask, store]) == PutOf(domain, store)
  {
    var put := PutBy(domain);
    assert put(ask) == [];
    CollectFirst(ask, [store], put);
    CollectFirst(ask, [], put);
    CollectFirst(store, [], put);
    assert [ask] + [] == [ask] && [store] + [] == [store] && [ask] + [store] == [ask, store];
    assert PutOf(domain, store) + [] == PutOf(domain, store);
  }

  class Gateway {
    const domain: string
    const cache: Cache
    /** The steps of all requests so far. */
    ghost var ops: seq<Op>

    constructor (domain: string, ttl: Time)
      ensures this.domain == domain && cache.ttl == ttl && Valid() && ops == [] && fresh(cache)
    {
      this.domain := domain;
      this.cache := new Cache(ttl);
      this.ops := [];
    }

    ghost predicate Valid()
      reads this, cache
    {
      cache.Valid() && cache.past == Puts(domain, ops)
    }

    /** resolve; asked and stored are the two clock readings of the cache. */
    method Resolve(agent: string, tenant: string, reply: Option<Option<int>>, asked: Time, stored: Time)
      returns (r: Option<Resolved>)
      requires cache.Valid()
      modifies cache
      ensures cache.Valid()
      ensures var hit := Cached(old(cache.past), cache.ttl, Key(agent, tenant), asked);
              && r == (if hit.Some? then hit
                       else if reply.None? then None else Some(Answer(agent, tenant, reply.value)))
              && cache.past == old(cache.past) + (if hit.Some? || reply.None? then []
                                                  else [Lookup(agent, tenant, reply.value, stored)])
    {
      r := cache.Get(Key(agent, tenant), asked);
      if r.Some? || reply.None? {
        return;
      }
      var port := if reply.value.None? then 0 else reply.value.value;
      if port == 0 {
        port := 8080;
      }
      var v := Resolved(tenant, "tenant-" + tenant, agent, port);
      cache.Put(Key(agent, tenant), v, stored, Lookup(agent, tenant, reply.value, stored));
      return Some(v);
    }

    /** ServeHTTP up to the proxying, with no other request in between. */
    method ServeHTTP(requestHost: string, reply: Option<Option<int>>, asked: Time, looked: Time, stored: Time)
      returns (out: Outcome)
      requires Valid()
      modifies this, cache
      ensures Valid()
      ensures out == Routed(domain, cache.ttl, old(ops), WithoutPort(requestHost), reply, asked)
      ensures ops == old(ops)
                     + Steps(domain, cache.ttl, old(ops), WithoutPort(requestHost), reply, asked, looked, stored)
    {
      var host := WithoutPort(requestHost);
      ghost var steps := Steps(domain, cache.ttl, ops, host, reply, asked, looked, stored);
      CollectConcat(ops, steps, PutBy(domain));
      ops := ops + steps;
      var parsed := ParseHost(host, domain);
      if parsed.None? {
        return BadHost;
      }
      var (agent, tenant) := parsed.value;
      if reply.Some? {
        PutsOfRequest(domain, Asked(host, asked), Stored(host, reply.value, looked, stored));
      } else {
        PutsOfRequest(domain, Asked(host, asked), Asked(host, asked));
      }
      var res := Resolve(agent, tenant, reply, asked, stored);
      return if res.None? then NotFound else Target(res.value);
    }
  }

  // ---------------------------------------------------------------- ports

  /** The host of a request, without its port. */
  function WithoutPort(host: string): string {
    var i := LastColon(host);
    if i > 0 then host[..i] else host
  }

  /** strings.LastIndex(s, ":"). */
  function LastColon(s: string): (i: int)
    ensures -1 <= i < |s| && (i >= 0 ==> s[i] == ':') && forall k :: i < k < |s| ==> s[k] != ':'
  {
    if s == "" then -1
    else if s[|s| - 1] == ':' then |s| - 1
    else
      var i := LastColon(s[..|s| - 1]);
      assert forall k :: 0 <= k < |s| - 1 ==> s[..|s| - 1][k] == s[k];
      i
  }

  /** A host with no colon but perhaps a leading one is taken as it is, any other up to its last colon. */
  lemma NoPortNoChange(host: string, i: nat)
    requires i < |host| ==> host[i] == ':'
    requires forall k :: i < k < |host| ==> host[k] != ':'
    requires i >= |host| ==> forall k :: 0 <= k < |host| ==> host[k] != ':'
    ensures WithoutPort(host) == if 0 < i < |host| then host[..i] else host
  {
    assert LastColon(host) == if i < |host| then i else -1;
  }

  /** A port on the request's host changes nothing about where it is routed. */
  lemma PortIsIgnored(agent: string, tenant: string, domain: string, port: string)
    requires DotFree(agent) && forall k :: 0 <= k < |port| ==> port[k] != ':'
    ensures ParseHost(WithoutPort(Joined(agent, tenant, domain) + ":" + port), domain) == Some((agent, tenant))
  {
    var host := Joined(agent, tenant, domain);
    var s := host + ":" + port;
    assert s[|host|] == ':';
    assert forall k :: |host| < k < |s| ==> s[k] == port[k - |host| - 1];
    assert LastColon(s) == |host|;
    assert s[..|host|] == host;
    ParseHostIff(host, domain, agent, tenant);
  }
}
