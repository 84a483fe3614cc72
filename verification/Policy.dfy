/** The policy actor of internal/runtime/actor/policy.go and the evaluator it calls,
    internal/runtime/policy/evaluator.go. Instants are nanoseconds since the Unix epoch. */
module Policy {
  import opened Basics

  const SECOND := 1_000_000_000

  datatype Quotas = Quotas(requestsPerMinute: int, concurrentSessions: int)

  datatype TenantConfig = TenantConfig(id: string, quotas: Quotas, hasEvaluator: bool)

  type Config = seq<TenantConfig>

  datatype Input = Input(
    tenant: string,
    hasInvocation: bool,
    toolID: string,
    tenantAllowlist: bool,
    activeSessions: int,
    scopes: seq<string>)

  /** What a custom evaluator is told. */
  datatype PolicyInput = PolicyInput(
    tenant: string,
    toolID: string,
    activeSessions: int,
    requestsInCurrentMinute: int,
    scopes: seq<string>)

  /** One EvaluateRequest: its instant, its input, and what the tenant's custom evaluator
      would answer at that instant to whatever it is told, with None for no objection. */
  datatype Request = Request(at: int, input: Option<Input>, custom: PolicyInput -> Option<string>)

  /** The answer; everything but Allowed is a denial or a throttle. */
  datatype Verdict =
    | Allowed
    | MissingInput
    | InvalidInput
    | TenantNotPermitted
    | ConcurrencyLimitReached
    | RateLimited
    | CustomDenied(message: string)

  /** The first configuration of the tenant. */
  function Find(cfg: Config, tenant: string): Option<TenantConfig> {
    if cfg == [] then None else if cfg[0].id == tenant then Some(cfg[0]) else Find(cfg[1..], tenant)
  }

  function CheckAuthorization(cfg: Config, in_: Input): Verdict {
    if !in_.tenantAllowlist || cfg == [] || (exists i :: 0 <= i < |cfg| && cfg[i].id == in_.tenant) then Allowed
    else TenantNotPermitted
  }

  function CheckQuotas(tc: Option<TenantConfig>, in_: Input, seen: int): Verdict {
    if tc.None? then Allowed
    else
      var q := tc.value.quotas;
      if q.concurrentSessions > 0 && in_.activeSessions >= q.concurrentSessions then ConcurrencyLimitReached
      else if q.requestsPerMinute > 0 && seen >= q.requestsPerMinute then RateLimited
      else Allowed
  }

  function Evaluate(cfg: Config, tc: Option<TenantConfig>, in_: Input, seen: int): Verdict {
    if !in_.hasInvocation || in_.toolID == "" then InvalidInput
    else if CheckAuthorization(cfg, in_) != Allowed then CheckAuthorization(cfg, in_)
    else CheckQuotas(tc, in_, seen)
  }

  function Told(in_: Input, seen: int): PolicyInput {
    PolicyInput(in_.tenant, in_.toolID, in_.activeSessions, seen, in_.scopes)
  }

  /** The verdict on a request that has seen `seen` earlier ones. */
  function Judge(cfg: Config, in_: Input, custom: PolicyInput -> Option<string>, seen: int): Verdict {
    var tc := Find(cfg, in_.tenant);
    var v := Evaluate(cfg, tc, in_, seen);
    var objection := custom(Told(in_, seen));
    if v == Allowed && tc.Some? && tc.value.hasEvaluator && objection.Some? then CustomDenied(objection.value) else v
  }

  /** The calendar minute, by Go's truncating division of Unix seconds. */
  function Minute(at: int): int {
    TruncDiv(at / SECOND, 60)
  }

  datatype State = State(currentMinute: int, counts: map<string, int>)

  const START := State(0, map[])

  function Count(s: State, tenant: string): int {
    if tenant in s.counts then s.counts[tenant] else 0
  }

  function Roll(s: State, at: int): State {
    if Minute(at) != s.currentMinute then State(Minute(at), map[]) else s
  }

  datatype Step = Step(after: State, verdict: Verdict)

  function Handle(cfg: Config, s: State, r: Request): Step {
    if r.input.None? then Step(s, MissingInput)
    else
      var t := r.input.value.tenant;
      var rolled := Roll(s, r.at);
      var seen := Count(rolled, t);
      Step(rolled.(counts := rolled.counts[t := seen + 1]), Judge(cfg, r.input.value, r.custom, seen))
  }

  function After(cfg: Config, rs: seq<Request>): State {
    if rs == [] then START else Handle(cfg, After(cfg, Front(rs)), Last(rs)).after
  }

  /** The verdicts on all requests, in order. */
  function Verdicts(cfg: Config, rs: seq<Request>): (vs: seq<Verdict>)
    ensures |vs| == |rs|
  {
    if rs == [] then []
    else Verdicts(cfg, Front(rs)) + [Handle(cfg, After(cfg, Front(rs)), Last(rs)).verdict]
  }

  predicate NonDecreasing(rs: seq<Request>) {
    forall i, j :: 0 <= i < j < |rs| ==> rs[i].at <= rs[j].at
  }

  predicate Of(r: Request, tenant: string) {
    r.input.Some? && r.input.value.tenant == tenant
  }

  // ---- What a request sees ----------------------------------------------------

  /** Requests of the tenant in the given minute. */
  function CountIn(rs: seq<Request>, tenant: string, minute: int): nat {
    if rs == [] then 0
    else CountIn(Front(rs), tenant, minute) + (if Of(Last(rs), tenant) && Minute(Last(rs).at) == minute then 1 else 0)
  }

  /** Requests of the tenant at the end of the history, back to the last request of
      anyone that fell in another minute. */
  function TrailingCount(rs: seq<Request>, tenant: string, minute: int): nat {
    if rs == [] then 0
    else if Last(rs).input.None? then TrailingCount(Front(rs), tenant, minute)
    else if Minute(Last(rs).at) != minute then 0
    else TrailingCount(Front(rs), tenant, minute) + (if Of(Last(rs), tenant) then 1 else 0)
  }

  lemma MinuteMonotone(a: int, b: int)
    requires a <= b
    ensures Minute(a) <= Minute(b)
  {
  }

  /** Under any clock, the counters hold the trailing counts of the current minute. */
  lemma {:induction false} CountsAreTrailing(cfg: Config, rs: seq<Request>, tenant: string)
    ensures Count(After(cfg, rs), tenant) == TrailingCount(rs, tenant, After(cfg, rs).currentMinute)
  {
    if rs != [] {
      CountsAreTrailing(cfg, Front(rs), tenant);
      if Last(rs).input.Some? && Minute(Last(rs).at) != After(cfg, Front(rs)).currentMinute {
        NothingTrails(cfg, Front(rs), tenant, Minute(Last(rs).at));
      }
    }
  }

  lemma {:induction false} NothingTrails(cfg: Config, rs: seq<Request>, tenant: string, minute: int)
    requires minute != After(cfg, rs).currentMinute
    ensures TrailingCount(rs, tenant, minute) == 0
  {
    if rs != [] && Last(rs).input.None? {
      NothingTrails(cfg, Front(rs), tenant, minute);
    }
  }

  /** The count a request would see next. */
  lemma SeenIsTrailing(cfg: Config, rs: seq<Request>, tenant: string, at: int)
    ensures Count(Roll(After(cfg, rs), at), tenant) == TrailingCount(rs, tenant, Minute(at))
  {
    CountsAreTrailing(cfg, rs, tenant);
    if Minute(at) != After(cfg, rs).currentMinute {
      NothingTrails(cfg, rs, tenant, Minute(at));
    }
  }

  /** When no earlier request lies in a later minute, the trailing requests of a minute
      are all of them. */
  lemma {:induction false} TrailingIsAll(rs: seq<Request>, tenant: string, at: int)
    requires NonDecreasing(rs) && forall i :: 0 <= i < |rs| ==> rs[i].at <= at
    ensures TrailingCount(rs, tenant, Minute(at)) == CountIn(rs, tenant, Minute(at))
  {
    if rs != [] {
      TrailingIsAll(Front(rs), tenant, at);
      MinuteMonotone(Last(rs).at, at);
      if Minute(Last(rs).at) != Minute(at) {
        EarlierMinutesOnly(Front(rs), tenant, Last(rs).at, Minute(at));
      }
    }
  }

  lemma {:induction false} EarlierMinutesOnly(rs: seq<Request>, tenant: string, at: int, minute: int)
    requires forall i :: 0 <= i < |rs| ==> rs[i].at <= at
    requires Minute(at) < minute
    ensures CountIn(rs, tenant, minute) == 0
  {
    if rs != [] {
      EarlierMinutesOnly(Front(rs), tenant, at, minute);
      MinuteMonotone(Last(rs).at, at);
    }
  }

  /** Under a clock that never runs backwards a request sees exactly the number of its
      own tenant's earlier requests in that minute, whatever other tenants did. */
  lemma SeesOwnRequests(cfg: Config, rs: seq<Request>)
    requires rs != [] && NonDecreasing(rs) && Last(rs).input.Some?
    ensures var r := Last(rs);
      Handle(cfg, After(cfg, Front(rs)), r).verdict ==
        Judge(cfg, r.input.value, r.custom, CountIn(Front(rs), r.input.value.tenant, Minute(r.at)))
  {
    var r := Last(rs);
    SeenIsTrailing(cfg, Front(rs), r.input.value.tenant, r.at);
    TrailingIsAll(Front(rs), r.input.value.tenant, r.at);
  }

  // ---- Tenants do not interfere -----------------------------------------------

  /** The requests of one tenant. */
  function Own(rs: seq<Request>, tenant: string): seq<Request> {
    if rs == [] then []
    else if Of(Last(rs), tenant) then Own(Front(rs), tenant) + [Last(rs)]
    else Own(Front(rs), tenant)
  }

  /** The verdicts a tenant gets in the shared run. */
  function VerdictsFor(cfg: Config, rs: seq<Request>, tenant: string): seq<Verdict> {
    if rs == [] then []
    else if Of(Last(rs), tenant) then VerdictsFor(cfg, Front(rs), tenant) + [Last(Verdicts(cfg, rs))]
    else VerdictsFor(cfg, Front(rs), tenant)
  }

  lemma {:induction false} OwnFacts(rs: seq<Request>, tenant: string, minute: int, at: int)
    requires NonDecreasing(rs) && forall i :: 0 <= i < |rs| ==> rs[i].at <= at
    ensures CountIn(Own(rs, tenant), tenant, minute) == CountIn(rs, tenant, minute)
    ensures NonDecreasing(Own(rs, tenant)) && forall i :: 0 <= i < |Own(rs, tenant)| ==> Own(rs, tenant)[i].at <= at
  {
    if rs != [] {
      OwnFacts(Front(rs), tenant, minute, Last(rs).at);
      var own := Own(rs, tenant);
      if Of(Last(rs), tenant) {
        assert Front(own) == Own(Front(rs), tenant);
      }
    }
  }

  /** For every interleaving of tenants, a tenant's verdicts are those of a run that
      contains its own requests only. */
  lemma {:induction false} TenantsDoNotInterfere(cfg: Config, rs: seq<Request>, tenant: string)
    requires NonDecreasing(rs)
    ensures VerdictsFor(cfg, rs, tenant) == Verdicts(cfg, Own(rs, tenant))
  {
    if rs != [] {
      TenantsDoNotInterfere(cfg, Front(rs), tenant);
      var r := Last(rs);
      if Of(r, tenant) {
        var own := Own(rs, tenant);
        assert Front(own) == Own(Front(rs), tenant);
        OwnFacts(rs, tenant, 0, r.at);
        OwnFacts(Front(rs), tenant, Minute(r.at), r.at);
        SeesOwnRequests(cfg, rs);
        SeesOwnRequests(cfg, own);
      }
    }
  }

  // ---- The rate bound ---------------------------------------------------------

  /** Requests of the tenant allowed in the given minute. */
  function AllowedIn(cfg: Config, rs: seq<Request>, tenant: string, minute: int): nat {
    if rs == [] then 0
    else
      AllowedIn(cfg, Front(rs), tenant, minute) +
      (if Of(Last(rs), tenant) && Minute(Last(rs).at) == minute && Last(Verdicts(cfg, rs)) == Allowed then 1 else 0)
  }

  /** Requests of the tenant allowed from one instant to another. */
  function AllowedWithin(cfg: Config, rs: seq<Request>, tenant: string, from: int, to: int): nat {
    if rs == [] then 0
    else
      AllowedWithin(cfg, Front(rs), tenant, from, to) +
      (if Of(Last(rs), tenant) && from <= Last(rs).at <= to && Last(Verdicts(cfg, rs)) == Allowed then 1 else 0)
  }

  predicate Limited(cfg: Config, tenant: string, rpm: int) {
    Find(cfg, tenant).Some? && Find(cfg, tenant).value.quotas.requestsPerMinute == rpm && rpm > 0
  }

  /** A request is allowed exactly when it is well formed, its tenant is permitted and has
      room in both quotas, counting its own earlier requests of this minute and no others,
      and its custom evaluator, if any, does not object. */
  lemma AllowedExactlyWhen(cfg: Config, rs: seq<Request>)
    requires rs != [] && NonDecreasing(rs) && Last(rs).input.Some?
    ensures var r := Last(rs);
      var in_ := r.input.value;
      var tc := Find(cfg, in_.tenant);
      Last(Verdicts(cfg, rs)) == Allowed <==>
        && in_.hasInvocation && in_.toolID != ""
        && (in_.tenantAllowlist && cfg != [] ==> tc.Some?)
        && (tc.Some? ==>
            var q := tc.value.quotas;
            && (q.concurrentSessions > 0 ==> in_.activeSessions < q.concurrentSessions)
            && (q.requestsPerMinute > 0 ==> CountIn(Front(rs), in_.tenant, Minute(r.at)) < q.requestsPerMinute)
            && (tc.value.hasEvaluator ==> r.custom(Told(in_, CountIn(Front(rs), in_.tenant, Minute(r.at)))).None?))
  {
    SeesOwnRequests(cfg, rs);
    FindFacts(cfg, Last(rs).input.value.tenant);
  }

  /** Each verdict exactly, in the order of the checks, over any history. */
  lemma VerdictExactly(cfg: Config, rs: seq<Request>)
    requires rs != [] && NonDecreasing(rs) && Last(rs).input.Some?
    ensures var r := Last(rs);
      var in_ := r.input.value;
      var v := Last(Verdicts(cfg, rs));
      var seen := CountIn(Front(rs), in_.tenant, Minute(r.at));
      var tc := Find(cfg, in_.tenant);
      var objection := r.custom(PolicyInput(in_.tenant, in_.toolID, in_.activeSessions, seen, in_.scopes));
      var valid := in_.hasInvocation && in_.toolID != "";
      var permitted := !in_.tenantAllowlist || cfg == [] || tc.Some?;
      var crowded := tc.Some? && 0 < tc.value.quotas.concurrentSessions <= in_.activeSessions;
      var fast := tc.Some? && 0 < tc.value.quotas.requestsPerMinute <= seen;
      && (v == InvalidInput <==> !valid)
      && (v == TenantNotPermitted <==> valid && !permitted)
      && (v == ConcurrencyLimitReached <==> valid && permitted && crowded)
      && (v == RateLimited <==> valid && permitted && !crowded && fast)
      && (v.CustomDenied? <==>
            && valid && permitted && !crowded && !fast
            && tc.Some? && tc.value.hasEvaluator && objection.Some?)
      && (v.CustomDenied? ==> objection == Some(v.message))
      && v != MissingInput
  {
    SeesOwnRequests(cfg, rs);
    FindFacts(cfg, Last(rs).input.value.tenant);
  }

  /** A request without input is told so and counts for nobody. */
  lemma MissingInputCountsForNobody(cfg: Config, s: State, r: Request)
    ensures r.input.None? <==> Handle(cfg, s, r).verdict == MissingInput
    ensures r.input.None? ==> Handle(cfg, s, r).after == s
  {
  }

  /** The configuration in force is the first with the tenant's ID. */
  lemma {:induction false} FindIsFirst(cfg: Config, tenant: string, i: nat)
    requires i < |cfg| && cfg[i].id == tenant && forall j :: 0 <= j < i ==> cfg[j].id != tenant
    ensures Find(cfg, tenant) == Some(cfg[i])
  {
    if i > 0 {
      assert cfg[0].id != tenant;
      FindIsFirst(cfg[1..], tenant, i - 1);
    }
  }

  /** A window is a calendar minute of sixty seconds. */
  lemma MinuteIsSixtySeconds(at: int)
    requires at >= 0
    ensures Minute(at) * 60_000_000_000 <= at < (Minute(at) + 1) * 60_000_000_000
  {
  }

  lemma {:induction false} FindFacts(cfg: Config, tenant: string)
    ensures Find(cfg, tenant).Some? <==> exists i :: 0 <= i < |cfg| && cfg[i].id == tenant
  {
    if cfg != [] {
      FindFacts(cfg[1..], tenant);
      if i :| 0 <= i < |cfg| && cfg[i].id == tenant && cfg[0].id != tenant {
        assert cfg[1..][i - 1].id == tenant;
      }
    }
  }

  /** At most RequestsPerMinute requests of a tenant are allowed in a calendar minute. */
  lemma {:induction false} MinuteBound(cfg: Config, rs: seq<Request>, tenant: string, rpm: int, minute: int)
    requires NonDecreasing(rs) && Limited(cfg, tenant, rpm)
    ensures AllowedIn(cfg, rs, tenant, minute) <= rpm
    ensures AllowedIn(cfg, rs, tenant, minute) <= CountIn(rs, tenant, minute)
  {
    if rs != [] {
      MinuteBound(cfg, Front(rs), tenant, rpm, minute);
      if Of(Last(rs), tenant) {
        SeesOwnRequests(cfg, rs);
      }
    }
  }

  lemma MinutesOfWindow(from: int, at: int)
    requires from <= at <= from + 60 * SECOND
    ensures Minute(at) == Minute(from) || Minute(at) == Minute(from) + 1
  {
    var a, b := from / SECOND, at / SECOND;
    assert a <= b <= a + 60;
  }

  lemma {:induction false} WindowWithinMinutes(cfg: Config, rs: seq<Request>, tenant: string, from: int)
    ensures AllowedWithin(cfg, rs, tenant, from, from + 60 * SECOND) <=
      AllowedIn(cfg, rs, tenant, Minute(from)) + AllowedIn(cfg, rs, tenant, Minute(from) + 1)
  {
    if rs != [] {
      WindowWithinMinutes(cfg, Front(rs), tenant, from);
      if from <= Last(rs).at <= from + 60 * SECOND {
        MinutesOfWindow(from, Last(rs).at);
      }
    }
  }

  /** At most twice RequestsPerMinute are allowed in any 60 seconds. */
  lemma WindowBound(cfg: Config, rs: seq<Request>, tenant: string, rpm: int, from: int)
    requires NonDecreasing(rs) && Limited(cfg, tenant, rpm)
    ensures AllowedWithin(cfg, rs, tenant, from, from + 60 * SECOND) <= 2 * rpm
  {
    WindowWithinMinutes(cfg, rs, tenant, from);
    MinuteBound(cfg, rs, tenant, rpm, Minute(from));
    MinuteBound(cfg, rs, tenant, rpm, Minute(from) + 1);
  }

  const LATE := 59_000_000_000
  const NEXT := 60_000_000_000

  function BurstRequest(tenant: string, at: int): Request {
    Request(at, Some(Input(tenant, true, "tool", false, 0, [])), _ => None)
  }

  /** A burst across a minute change: rpm requests in the last second of a minute and
      rpm in the first of the next. */
  function Burst(tenant: string, rpm: nat): (rs: seq<Request>)
    ensures |rs| == 2 * rpm
    ensures forall i :: 0 <= i < 2 * rpm ==> rs[i] == BurstRequest(tenant, if i < rpm then LATE else NEXT)
    ensures NonDecreasing(rs)
  {
    seq(rpm, _ => BurstRequest(tenant, LATE)) + seq(rpm, _ => BurstRequest(tenant, NEXT))
  }

  lemma {:induction false} BurstCounts(tenant: string, rpm: nat, n: nat)
    requires n <= 2 * rpm
    ensures CountIn(Burst(tenant, rpm)[..n], tenant, 0) == (if n < rpm then n else rpm)
    ensures CountIn(Burst(tenant, rpm)[..n], tenant, 1) == (if n < rpm then 0 else n - rpm)
  {
    if n > 0 {
      BurstCounts(tenant, rpm, n - 1);
      assert Front(Burst(tenant, rpm)[..n]) == Burst(tenant, rpm)[..n - 1];
      assert Minute(LATE) == 0 && Minute(NEXT) == 1;
    }
  }

  lemma BurstAdmitted(cfg: Config, tenant: string, rpm: nat, seen: nat, custom: PolicyInput -> Option<string>)
    requires forall i :: custom(i).None?
    requires Limited(cfg, tenant, rpm) && seen < rpm
    ensures Judge(cfg, Input(tenant, true, "tool", false, 0, []), custom, seen) == Allowed
  {
  }

  lemma BurstAllowed(cfg: Config, tenant: string, rpm: nat, n: nat)
    requires Limited(cfg, tenant, rpm)
    requires 0 < n <= 2 * rpm
    ensures Last(Verdicts(cfg, Burst(tenant, rpm)[..n])) == Allowed
  {
    var rs := Burst(tenant, rpm)[..n];
    assert Front(rs) == Burst(tenant, rpm)[..n - 1];
    assert Minute(LATE) == 0 && Minute(NEXT) == 1;
    BurstCounts(tenant, rpm, n - 1);
    BurstAdmitted(cfg, tenant, rpm, if n <= rpm then n - 1 else n - 1 - rpm, Last(rs).custom);
    SeesOwnRequests(cfg, rs);
  }

  lemma {:induction false} BurstPrefix(cfg: Config, tenant: string, rpm: nat, n: nat)
    requires Limited(cfg, tenant, rpm)
    requires n <= 2 * rpm
    ensures AllowedWithin(cfg, Burst(tenant, rpm)[..n], tenant, LATE, NEXT) == n
  {
    if n > 0 {
      BurstPrefix(cfg, tenant, rpm, n - 1);
      assert Front(Burst(tenant, rpm)[..n]) == Burst(tenant, rpm)[..n - 1];
      BurstAllowed(cfg, tenant, rpm, n);
    }
  }

  /** The bound is exact: within one second a burst gets twice its quota. */
  lemma WindowBoundAttained(cfg: Config, tenant: string, rpm: nat)
    requires Limited(cfg, tenant, rpm)
    ensures AllowedWithin(cfg, Burst(tenant, rpm), tenant, LATE, NEXT) == 2 * rpm
  {
    BurstPrefix(cfg, tenant, rpm, 2 * rpm);
    assert Burst(tenant, rpm)[..2 * rpm] == Burst(tenant, rpm);
  }

  // ---- The actor itself -------------------------------------------------------

  class PolicyMaker {
    const config: Config
    var requestCounts: map<string, int>
    var currentMinute: int

    ghost function View(): State
      reads this
    {
      State(currentMinute, requestCounts)
    }

    constructor (cfg: Config)
      ensures config == cfg && View() == START
    {
      config := cfg;
      requestCounts := map[];
      currentMinute := 0;
    }

    method HandleEvaluate(r: Request) returns (verdict: Verdict)
      modifies this
      ensures View() == Handle(config, old(View()), r).after
      ensures verdict == Handle(config, old(View()), r).verdict
    {
      if r.input.None? {
        return MissingInput;
      }
      var in_ := r.input.value;
      var minute := Minute(r.at);
      if minute != currentMinute {
        requestCounts := map[];
        currentMinute := minute;
      }
      var seen := if in_.tenant in requestCounts then requestCounts[in_.tenant] else 0;
      requestCounts := requestCounts[in_.tenant := seen + 1];
      var tc := LookupTenantConfig(in_.tenant);
      verdict := Evaluate(config, tc, in_, seen);
      if verdict != Allowed {
        return;
      }
      if tc.Some? && tc.value.hasEvaluator {
        var objection := r.custom(PolicyInput(in_.tenant, in_.toolID, in_.activeSessions, seen, in_.scopes));
        if objection.Some? {
          return CustomDenied(objection.value);
        }
      }
    }

    method LookupTenantConfig(tenant: string) returns (tc: Option<TenantConfig>)
      ensures tc == Find(config, tenant)
    {
      var i := 0;
      while i < |config|
        invariant 0 <= i <= |config|
        invariant Find(config, tenant) == Find(config[i..], tenant)
      {
        if config[i].id == tenant {
          return Some(config[i]);
        }
        i := i + 1;
      }
      return None;
    }
  }
}
