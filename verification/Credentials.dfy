/** The credential broker of internal/runtime/actor/credential_broker.go: a TTL cache with
    least-recently-used eviction in front of an ordered list of providers. */
module Credentials {
  import opened Basics

  type Creds = map<string, string>

  /** What one provider answers: an error, nothing, or a (possibly empty) value map. */
  datatype ProviderReply = ProviderError | NoCredentials | Values(values: Creds)

  datatype Entry = Entry(creds: Creds, expiresAt: int, lastAccess: int)

  type Cache = map<string, Entry>

  /** One ResolveRequest with everything nondeterministic about serving it: the answers of
      a provider round, the clock readings in program order, and which of several equally
      old entries the map iteration meets first. */
  datatype Request = Request(
    tenant: string,
    tool: string,
    round: seq<ProviderReply>,
    lookupAt: int,
    accessAt: int,
    evictAt: int,
    storeAt: int,
    victim: string)

  datatype Config = Config(ttl: int, maxEntries: int)

  function Key(tenant: string, tool: string): string {
    tenant + ":" + tool
  }

  /** The first non-empty answer of a provider round: what a broker without a cache
      returns, with None for failure. */
  function FirstResolved(round: seq<ProviderReply>): Option<Creds> {
    if round == [] then None
    else if round[0].Values? && round[0].values != map[] then Some(round[0].values)
    else FirstResolved(round[1..])
  }

  // ---- One request ------------------------------------------------------------

  function Live(cache: Cache, at: int): Cache {
    map k | k in cache && at <= cache[k].expiresAt :: cache[k]
  }

  predicate Oldest(cache: Cache, k: string) {
    k in cache && forall j :: j in cache ==> cache[k].lastAccess <= cache[j].lastAccess
  }

  function Evict(c: Config, cache: Cache, at: int, victim: string): Cache {
    if c.maxEntries <= 0 || |cache| < c.maxEntries then cache
    else if |Live(cache, at)| < c.maxEntries then Live(cache, at)
    else Live(cache, at) - {victim}
  }

  predicate Hit(c: Config, cache: Cache, r: Request) {
    var k := Key(r.tenant, r.tool);
    c.ttl > 0 && k in cache && r.lookupAt < cache[k].expiresAt
  }

  datatype Step = Step(after: Cache, answer: Option<Creds>)

  function Resolve(c: Config, cache: Cache, r: Request): Step {
    var k := Key(r.tenant, r.tool);
    if Hit(c, cache, r) then
      Step(cache[k := cache[k].(lastAccess := r.accessAt)], Some(cache[k].creds))
    else
      var resolved := FirstResolved(r.round);
      if resolved.None? || c.ttl <= 0 then Step(cache, resolved)
      else
        Step(Evict(c, cache, r.evictAt, r.victim)[k := Entry(resolved.value, r.storeAt + c.ttl, r.storeAt)], resolved)
  }

  function After(c: Config, rs: seq<Request>): Cache {
    if rs == [] then map[] else Resolve(c, After(c, Front(rs)), Last(rs)).after
  }

  /** Whenever serving r reaches the second eviction loop, r.victim is one of the
      entries with the smallest lastAccess. */
  predicate Faithful(c: Config, cache: Cache, r: Request) {
    && c.ttl > 0
    && !Hit(c, cache, r)
    && FirstResolved(r.round).Some?
    && 0 < c.maxEntries <= |Live(cache, r.evictAt)|
    ==> Oldest(Live(cache, r.evictAt), r.victim)
  }

  predicate Run(c: Config, rs: seq<Request>) {
    rs == [] || (Run(c, Front(rs)) && Faithful(c, After(c, Front(rs)), Last(rs)))
  }

  // ---- What one request is answered, and what it leaves in the cache ----------

  /** Provider i gave the credentials v and no provider before it gave any. */
  predicate FirstGave(round: seq<ProviderReply>, i: nat, v: Creds)
    requires i < |round|
  {
    && round[i] == Values(v) && v != map[]
    && forall j :: 0 <= j < i && round[j].Values? ==> round[j].values == map[]
  }

  lemma {:induction false} FirstResolvedFinds(round: seq<ProviderReply>) returns (i: nat)
    ensures i <= |round| && (i == |round| <==> FirstResolved(round).None?)
    ensures i < |round| ==> FirstResolved(round).Some? && FirstGave(round, i, FirstResolved(round).value)
    ensures forall j :: 0 <= j < i && round[j].Values? ==> round[j].values == map[]
  {
    if round == [] || (round[0].Values? && round[0].values != map[]) {
      i := 0;
    } else {
      i := FirstResolvedFinds(round[1..]);
      assert forall j :: 0 < j < |round| ==> round[j] == round[1..][j - 1];
      i := i + 1;
    }
  }

  /** The request finds no unexpired entry for its key. */
  predicate Misses(c: Config, cache: Cache, r: Request) {
    var k := Key(r.tenant, r.tool);
    c.ttl <= 0 || k !in cache || cache[k].expiresAt <= r.lookupAt
  }

  /** On a miss the answer is what the first provider with any credentials gave, and a failure
      if and only if none had any. */
  lemma MissAnswersFirstProvider(c: Config, cache: Cache, r: Request, v: Creds)
    requires Misses(c, cache, r)
    ensures var answer := Resolve(c, cache, r).answer;
      && (answer == Some(v) <==> exists i :: 0 <= i < |r.round| && FirstGave(r.round, i, v))
      && (answer.None? <==> forall i :: 0 <= i < |r.round| && r.round[i].Values? ==> r.round[i].values == map[])
  {
    var i := FirstResolvedFinds(r.round);
    if j :| 0 <= j < |r.round| && FirstGave(r.round, j, v) {
      assert i == j;
    }
  }

  /** Otherwise it is the cached value, whatever the providers would say, and only the
      entry's lastAccess changes. */
  lemma HitAnswersFromCache(c: Config, cache: Cache, r: Request)
    requires !Misses(c, cache, r)
    ensures var k := Key(r.tenant, r.tool);
      var s := Resolve(c, cache, r);
      && s.answer == Some(cache[k].creds)
      && s.after == cache[k := Entry(cache[k].creds, cache[k].expiresAt, r.accessAt)]
  {
  }

  /** A miss leaves an entry for its key exactly if caching is on and it was answered, good
      for TTL from the store; an unanswered one and one without caching leave no trace. */
  lemma MissStoresItsAnswer(c: Config, cache: Cache, r: Request)
    requires Misses(c, cache, r)
    ensures var k := Key(r.tenant, r.tool);
      var s := Resolve(c, cache, r);
      if c.ttl > 0 && s.answer.Some?
      then k in s.after && s.after[k] == Entry(s.answer.value, r.storeAt + c.ttl, r.storeAt)
      else s.after == cache
  {
  }

  /** What a storing miss does to another key's entry: it stays as it is if the cache was not
      full, and goes if it has expired and the cache was. Full is full even if expired
      entries are counted; without a maximum nothing is full. */
  lemma OtherEntriesAfterStore(c: Config, cache: Cache, r: Request, k: string)
    requires Misses(c, cache, r) && c.ttl > 0 && Resolve(c, cache, r).answer.Some?
    requires k in cache && k != Key(r.tenant, r.tool)
    ensures var full := 0 < c.maxEntries <= |cache|;
      var after := Resolve(c, cache, r).after;
      && (k in after ==> after[k] == cache[k])
      && (!full ==> k in after)
      && (full && cache[k].expiresAt < r.evictAt ==> k !in after)
  {
  }

  /** A request adds no key but its own. */
  lemma NoOtherKeyAppears(c: Config, cache: Cache, r: Request, k: string)
    requires k !in cache && k != Key(r.tenant, r.tool)
    ensures k !in Resolve(c, cache, r).after
  {
  }

  // ---- The cache is bounded and evicts the least recently used ----------------

  lemma LiveCard(cache: Cache, at: int)
    ensures |Live(cache, at)| <= |cache|
  {
    var dead := cache.Keys - Live(cache, at).Keys;
    assert cache.Keys == Live(cache, at).Keys + dead;
  }

  /** The cache never exceeds maxEntries. */
  lemma {:induction false} Bounded(c: Config, rs: seq<Request>)
    requires c.maxEntries >= 1 && Run(c, rs)
    ensures |After(c, rs)| <= c.maxEntries
  {
    if rs != [] {
      Bounded(c, Front(rs));
      var cache, r := After(c, Front(rs)), Last(rs);
      var k := Key(r.tenant, r.tool);
      LiveCard(cache, r.evictAt);
      if Hit(c, cache, r) {
        assert After(c, rs).Keys == cache.Keys;
      } else if FirstResolved(r.round).Some? && c.ttl > 0 {
        var kept := Evict(c, cache, r.evictAt, r.victim);
        if c.maxEntries <= |Live(cache, r.evictAt)| {
          assert kept.Keys == Live(cache, r.evictAt).Keys - {r.victim} || kept == cache;
        }
        assert |kept| < c.maxEntries;
        assert After(c, rs).Keys == kept.Keys + {k};
      }
    }
  }

  /** When the entry of key k was last used: the instant recorded by the last request
      that answered from it or stored it. */
  function LastUse(c: Config, rs: seq<Request>, k: string): int {
    if rs == [] then 0
    else
      var r := Last(rs);
      if Key(r.tenant, r.tool) != k then LastUse(c, Front(rs), k)
      else if Hit(c, After(c, Front(rs)), r) then r.accessAt
      else if FirstResolved(r.round).Some? && c.ttl > 0 then r.storeAt
      else LastUse(c, Front(rs), k)
  }

  lemma {:induction false} LastAccessIsLastUse(c: Config, rs: seq<Request>, k: string)
    requires k in After(c, rs)
    ensures After(c, rs)[k].lastAccess == LastUse(c, rs, k)
  {
    if rs != [] && k in After(c, Front(rs)) {
      LastAccessIsLastUse(c, Front(rs), k);
    }
  }

  /** A request drops an unexpired entry of another key only when dropping the expired
      ones left the cache full, and then only an entry no other surviving entry was last
      used before. */
  lemma EvictsLeastRecentlyUsed(c: Config, rs: seq<Request>, k: string)
    requires rs != [] && Run(c, rs)
    requires k in After(c, Front(rs)) && k !in After(c, rs)
    requires Last(rs).evictAt <= After(c, Front(rs))[k].expiresAt
    ensures var live := Live(After(c, Front(rs)), Last(rs).evictAt);
      && 0 < c.maxEntries <= |live|
      && forall j :: j in live ==> LastUse(c, Front(rs), k) <= LastUse(c, Front(rs), j)
  {
    var live := Live(After(c, Front(rs)), Last(rs).evictAt);
    forall j | j in live
      ensures LastUse(c, Front(rs), k) <= LastUse(c, Front(rs), j)
    {
      LastAccessIsLastUse(c, Front(rs), j);
      LastAccessIsLastUse(c, Front(rs), k);
    }
  }

  // ---- The cache agrees with the providers ------------------------------------

  /** Tenant t' is tenant t, a colon and any text. */
  predicate Extends(t: string, t': string) {
    t + ":" <= t'
  }

  /** Two requests of tenants of different length share a key exactly when the longer tenant
      extends the shorter one and the tool of the shorter makes up for the difference. */
  lemma KeysMeetExactlyWhen(t: string, u: string, t': string, u': string)
    requires |t| < |t'|
    ensures Key(t, u) == Key(t', u') <==> Extends(t, t') && u == t'[|t| + 1..] + ":" + u'
  {
    var k, k' := Key(t, u), Key(t', u');
    if k == k' {
      assert k[..|t| + 1] == t + ":" && k'[..|t| + 1] == t'[..|t| + 1];
      assert k[|t| + 1..] == u && k'[|t| + 1..] == t'[|t| + 1..] + ":" + u';
    } else if Extends(t, t') {
      assert t' == t + ":" + t'[|t| + 1..];
      assert k' == t + ":" + (t'[|t| + 1..] + ":" + u');
    }
  }

  /** Keys tell requests apart when neither tenant extends the other. */
  lemma KeyInjective(t: string, u: string, t': string, u': string)
    requires !Extends(t, t') && !Extends(t', t) && Key(t, u) == Key(t', u')
    ensures t == t' && u == u'
  {
    if |t| < |t'| {
      KeysMeetExactlyWhen(t, u, t', u');
    } else if |t'| < |t| {
      KeysMeetExactlyWhen(t', u', t, u);
    } else {
      assert t == Key(t, u)[..|t|] && t' == Key(t', u')[..|t|];
      assert u == Key(t, u)[|t| + 1..] && u' == Key(t', u')[|t| + 1..];
    }
  }

  predicate StoredBy(c: Config, r: Request, k: string, e: Entry) {
    && Key(r.tenant, r.tool) == k
    && FirstResolved(r.round) == Some(e.creds)
    && e.expiresAt == r.storeAt + c.ttl
  }

  /** Every entry was stored by an earlier round for its own key. */
  lemma {:induction false} EntryProvenance(c: Config, rs: seq<Request>, k: string) returns (j: nat)
    requires k in After(c, rs)
    ensures j < |rs| && StoredBy(c, rs[j], k, After(c, rs)[k])
  {
    var r, before := Last(rs), After(c, Front(rs));
    if k == Key(r.tenant, r.tool) && !Hit(c, before, r) && FirstResolved(r.round).Some? && c.ttl > 0 {
      j := |rs| - 1;
    } else {
      j := EntryProvenance(c, Front(rs), k);
    }
  }

  predicate NoneExtends(rs: seq<Request>) {
    forall i, j :: 0 <= i < |rs| && 0 <= j < |rs| ==> !Extends(rs[i].tenant, rs[j].tenant)
  }

  /** Request j stored what the last one is answered with, for the same tenant and tool
      and less than TTL ago. */
  predicate AnsweredFrom(c: Config, rs: seq<Request>, j: nat, answer: Option<Creds>)
    requires j < |rs|
  {
    && rs[j].tenant == Last(rs).tenant && rs[j].tool == Last(rs).tool
    && answer == FirstResolved(rs[j].round) && answer.Some?
    && Last(rs).lookupAt < rs[j].storeAt + c.ttl
  }

  /** The last request is answered with the first non-empty provider result of a round for
      its own tenant and tool: its own round, or one whose store is less than TTL old. */
  predicate OwnAnswer(c: Config, rs: seq<Request>)
    requires rs != []
  {
    var answer := Resolve(c, After(c, Front(rs)), Last(rs)).answer;
    || answer == FirstResolved(Last(rs).round)
    || exists j :: 0 <= j < |rs| - 1 && AnsweredFrom(c, rs, j, answer)
  }

  /** Every request is answered with its own, if no tenant of the history extends another by
      a colon. A failure is a failure of this request's own round. */
  lemma AnswerProvenance(c: Config, rs: seq<Request>)
    requires rs != [] && NoneExtends(rs)
    ensures OwnAnswer(c, rs)
  {
    var r, before := Last(rs), After(c, Front(rs));
    if Hit(c, before, r) {
      var j := EntryProvenance(c, Front(rs), Key(r.tenant, r.tool));
      KeyInjective(rs[j].tenant, rs[j].tool, r.tenant, r.tool);
      assert AnsweredFrom(c, rs, j, Resolve(c, before, r).answer);
    }
  }

  /** With providers whose answers do not change over time, every answer of the cached
      broker, success or failure, is the answer of one without a cache. */
  lemma CacheIsTransparent(c: Config, rs: seq<Request>, providers: (string, string) -> seq<ProviderReply>)
    requires rs != [] && NoneExtends(rs)
    requires forall i :: 0 <= i < |rs| ==> rs[i].round == providers(rs[i].tenant, rs[i].tool)
    ensures Resolve(c, After(c, Front(rs)), Last(rs)).answer == FirstResolved(providers(Last(rs).tenant, Last(rs).tool))
  {
    AnswerProvenance(c, rs);
  }

  // ---- When tenants are confused ----------------------------------------------

  /** A tenant is handed the credentials of one it extends: for all such tenants, all
      credentials and every second request within TTL of the first. */
  lemma ExtendedTenantGetsAnothers(c: Config, first: Request, second: Request)
    requires c.ttl > 0 && FirstResolved(first.round).Some?
    requires Extends(first.tenant, second.tenant)
    requires first.tool == second.tenant[|first.tenant| + 1..] + ":" + second.tool
    requires second.lookupAt < first.storeAt + c.ttl
    ensures Run(c, [first, second])
    ensures Resolve(c, After(c, [first]), second).answer == FirstResolved(first.round)
  {
    KeysMeetExactlyWhen(first.tenant, first.tool, second.tenant, second.tool);
    assert Front([first]) == [] && Front([first, second]) == [first];
    assert After(c, []) == map[];
    assert Hit(c, After(c, [first]), second);
  }

  predicate TenantsIn(rs: seq<Request>, tenants: set<string>) {
    forall i :: 0 <= i < |rs| ==> rs[i].tenant in tenants
  }

  predicate Separate(tenants: set<string>) {
    forall t, t' :: t in tenants && t' in tenants ==> !Extends(t, t')
  }

  function Ask(tenant: string, tool: string, round: seq<ProviderReply>): Request {
    Request(tenant, tool, round, 0, 0, 0, 0, "")
  }

  /** Two requests of an extended tenant and the one that extends it, the second of which
      the providers know nothing of. */
  lemma Confusion(c: Config, t: string, t': string) returns (rs: seq<Request>)
    requires c.ttl > 0 && Extends(t, t')
    ensures |rs| == 2 && rs[0].tenant == t && rs[1].tenant == t'
    ensures Run(c, rs) && !OwnAnswer(c, rs)
  {
    var creds: Creds := map["key" := "secret"];
    assert "key" in creds;
    var first := Ask(t, t'[|t| + 1..] + ":" + "tool", [Values(creds)]);
    var second := Ask(t', "tool", []);
    rs := [first, second];
    ExtendedTenantGetsAnothers(c, first, second);
    assert Front(rs) == [first];
  }

  /** With a cache, a set of tenants is never confused, in any history, if and only if none
      of them extends another by a colon. */
  lemma NeverConfusedExactly(c: Config, tenants: set<string>)
    requires c.ttl > 0
    ensures (forall rs :: rs != [] && Run(c, rs) && TenantsIn(rs, tenants) ==> OwnAnswer(c, rs)) <==> Separate(tenants)
  {
    if Separate(tenants) {
      forall rs | rs != [] && Run(c, rs) && TenantsIn(rs, tenants)
        ensures OwnAnswer(c, rs)
      {
        AnswerProvenance(c, rs);
      }
    } else {
      var t, t' :| t in tenants && t' in tenants && Extends(t, t');
      var rs := Confusion(c, t, t');
      assert TenantsIn(rs, tenants);
    }
  }

  // ---- The actor itself -------------------------------------------------------

  class CredentialBroker {
    const config: Config
    var cache: Cache

    ghost predicate Valid()
      reads this
    {
      "" !in cache
    }

    constructor (c: Config)
      ensures config == c && cache == map[] && Valid()
    {
      config := c;
      cache := map[];
    }

    /** Serves one request; `r.victim` is ignored and the entry actually evicted is
        returned instead. */
    method HandleResolve(r: Request) returns (answer: Option<Creds>, ghost victim: string)
      requires Valid()
      modifies this
      ensures Valid()
      ensures Faithful(config, old(cache), r.(victim := victim))
      ensures cache == Resolve(config, old(cache), r.(victim := victim)).after
      ensures answer == Resolve(config, old(cache), r.(victim := victim)).answer
    {
      victim := "";
      var k := Key(r.tenant, r.tool);
      if config.ttl > 0 && k in cache && r.lookupAt < cache[k].expiresAt {
        cache := cache[k := cache[k].(lastAccess := r.accessAt)];
        return Some(cache[k].creds), victim;
      }
      answer := AskProviders(r.round);
      if answer.Some? && config.ttl > 0 {
        victim := EvictIfNeeded(r.evictAt);
        cache := cache[k := Entry(answer.value, r.storeAt + config.ttl, r.storeAt)];
      }
    }

    /** Tries the providers in order and stops at the first non-empty answer. */
    method AskProviders(round: seq<ProviderReply>) returns (resolved: Option<Creds>)
      ensures resolved == FirstResolved(round)
      ensures resolved.Some? ==> exists i :: 0 <= i < |round| && FirstGave(round, i, resolved.value)
      ensures resolved.None? <==> forall i :: 0 <= i < |round| && round[i].Values? ==> round[i].values == map[]
    {
      ghost var first := FirstResolvedFinds(round);
      var i := 0;
      while i < |round|
        invariant 0 <= i <= |round|
        invariant FirstResolved(round) == FirstResolved(round[i..])
      {
        if round[i].Values? && round[i].values != map[] {
          return Some(round[i].values);
        }
        i := i + 1;
      }
      return None;
    }

    method EvictIfNeeded(now: int) returns (ghost victim: string)
      requires Valid()
      modifies this
      ensures Valid()
      ensures cache == Evict(config, old(cache), now, victim)
      ensures 0 < config.maxEntries <= |Live(old(cache), now)| ==> Oldest(Live(old(cache), now), victim)
    {
      victim := "";
      LiveCard(cache, now);
      if config.maxEntries <= 0 || |cache| < config.maxEntries {
        return;
      }
      DropExpired(now);
      if |cache| < config.maxEntries {
        return;
      }
      var oldest := FindOldest();
      victim := oldest;
      if oldest != "" {
        cache := cache - {oldest};
      }
    }

    method DropExpired(now: int)
      modifies this
      ensures cache == Live(old(cache), now)
    {
      var keys := cache.Keys;
      while keys != {}
        invariant keys <= cache.Keys <= old(cache).Keys
        invariant forall k :: k in cache ==> cache[k] == old(cache)[k]
        invariant forall k :: k in cache && k !in keys ==> now <= cache[k].expiresAt
        invariant forall k :: k in old(cache) && now <= old(cache)[k].expiresAt ==> k in cache
        decreases keys
      {
        var k :| k in keys;
        if now > cache[k].expiresAt {
          cache := cache - {k};
        }
        keys := keys - {k};
      }
    }

    /** Tracks the oldest entry while ranging over the map, with the empty key meaning
        none found yet. */
    method FindOldest() returns (oldest: string)
      requires Valid()
      ensures cache == map[] ==> oldest == ""
      ensures cache != map[] ==> oldest != "" && Oldest(cache, oldest)
    {
      oldest := "";
      var oldestAccess := 0;
      var keys := cache.Keys;
      while keys != {}
        invariant keys <= cache.Keys
        invariant oldest == "" ==> keys == cache.Keys
        invariant oldest != "" ==> oldest in cache && oldestAccess == cache[oldest].lastAccess
        invariant oldest != "" ==> forall k :: k in cache && k !in keys ==> oldestAccess <= cache[k].lastAccess
        decreases keys
      {
        var k :| k in keys;
        if oldest == "" || cache[k].lastAccess < oldestAccess {
          oldest := k;
          oldestAccess := cache[k].lastAccess;
        }
        keys := keys - {k};
      }
    }
  }
}
