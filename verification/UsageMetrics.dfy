/**
  The settings service's view of the shared key space: the monthly usage report
  over the rate counters, and the cache clearing that must not touch them.
*/
module UsageMetrics {
  import opened Tally
  import opened CacheKeys
  import opened Text

  datatype TenantUsage = TenantUsage(tenant: string, calls: int, cost: real)

  datatype Report = Report(byTenant: seq<TenantUsage>, byDay: seq<Entry>, totalCalls: int, totalCost: real, projected: real, alert: bool)

  /** Unit cost, day of the month and alert threshold. */
  datatype Settings = Settings(costPer: real, day: int, threshold: real)

  /** max(day, 1). */
  function Elapsed(day: int): int {
    if day < 1 then 1 else day
  }

  /** A cost so far, projected to thirty days. */
  function MonthEnd(cost: real, day: int): real {
    cost / Elapsed(day) as real * 30.0
  }

  const HALF_STEP: real := 0.00005

  ghost predicate Near(x: real, exact: real, slack: real) {
    -slack <= x - exact <= slack
  }

  /** All the report relies on in round(x, 4): it is off by at most half of the fourth decimal. */
  ghost predicate Rounding(round: real -> real) {
    forall x :: Near(round(x), x, HALF_STEP)
  }

  /** Rounding to the nearest four decimals, ties to even. */
  function Round4(x: real): real {
    var y := x * 10000.0;
    var f := y.Floor;
    var rest := y - f as real;
    (if rest > 0.5 || (rest == 0.5 && f % 2 != 0) then f + 1 else f) as real / 10000.0
  }

  lemma Round4IsRounding()
    ensures Rounding(Round4)
  {
    forall x
      ensures Near(Round4(x), x, HALF_STEP)
    {
      var y := x * 10000.0;
      assert -0.5 <= Round4(x) * 10000.0 - y <= 0.5;
    }
  }

  // ----- What the report counts -----

  /** A scanned key counts for the month when it has a fifth part that starts with it. */
  predicate InMonth(key: string, month: string) {
    var parts := Split(key);
    |parts| >= 5 && month <= parts[4]
  }

  /** int(get(key) or 0): the key may have expired since the scan. */
  function Value(store: map<string, nat>, key: string): nat {
    if key in store then store[key] else 0
  }

  function Total(keys: seq<string>, store: map<string, nat>, month: string): int {
    if keys == [] then 0
    else Total(keys[..|keys| - 1], store, month) + MonthValue(keys[|keys| - 1], store, month)
  }

  function MonthValue(key: string, store: map<string, nat>, month: string): nat {
    if InMonth(key, month) then Value(store, key) else 0
  }

  /** The calls of one tenant (`part` 3) or one day (`part` 4) in the month. */
  function Marginal(keys: seq<string>, store: map<string, nat>, month: string, part: nat, name: string): int
    requires part <= 4
  {
    if keys == [] then 0
    else
      var key := keys[|keys| - 1];
      Marginal(keys[..|keys| - 1], store, month, part, name)
      + if InMonth(key, month) && Split(key)[part] == name then Value(store, key) else 0
  }

  function SumCalls(usage: seq<TenantUsage>): int {
    if usage == [] then 0 else SumCalls(usage[..|usage| - 1]) + usage[|usage| - 1].calls
  }

  function SumCost(usage: seq<TenantUsage>): real {
    if usage == [] then 0.0 else SumCost(usage[..|usage| - 1]) + usage[|usage| - 1].cost
  }

  function Exact(calls: int, costPer: real): real {
    calls as real * costPer
  }

  /** The cost of a tenant is rounded on its own. */
  ghost predicate CostsRounded(usage: seq<TenantUsage>, costPer: real, round: real -> real) {
    forall i :: 0 <= i < |usage| ==> usage[i].cost == round(Exact(usage[i].calls, costPer))
  }

  /** Each tenant once, with its calls in the month, the busiest first. */
  ghost predicate TenantCounts(usage: seq<TenantUsage>, keys: seq<string>, store: map<string, nat>, month: string) {
    && (forall i :: 0 <= i < |usage| ==> usage[i].calls == Marginal(keys, store, month, 3, usage[i].tenant))
    && (forall i, j :: 0 <= i < j < |usage| ==> usage[i].tenant != usage[j].tenant && usage[i].calls >= usage[j].calls)
  }

  ghost predicate DayCounts(byDay: seq<Entry>, keys: seq<string>, store: map<string, nat>, month: string) {
    && Keyed(byDay) && ByName(byDay)
    && (forall day :: CountOf(byDay, day) == Marginal(keys, store, month, 4, day))
  }

  /** What a report of these counters has to satisfy: both breakdowns are exact, in order, and add up to the same total. */
  ghost predicate Reports(r: Report, keys: seq<string>, store: map<string, nat>, month: string, s: Settings, round: real -> real) {
    && TenantCounts(r.byTenant, keys, store, month)
    && DayCounts(r.byDay, keys, store, month)
    && SumCalls(r.byTenant) == Sum(r.byDay) == r.totalCalls == Total(keys, store, month)
    && CostsRounded(r.byTenant, s.costPer, round)
    && r.totalCost == round(SumCost(r.byTenant))
    && r.projected == round(SumCost(r.byTenant) / (if s.day > 1 then s.day else 1) as real * 30.0)
    && r.alert == (r.projected > s.threshold)
  }

  /** get_metrics over the keys a scan returned. */
  method GetMetrics(keys: seq<string>, store: map<string, nat>, month: string, s: Settings, round: real -> real) returns (r: Report)
    ensures Reports(r, keys, store, month, s, round)
  {
    var tenantCalls, dayCalls := CountCalls(keys, store, month);
    var sorted := SortDesc(tenantCalls);
    SortSum(tenantCalls);
    var byTenant, totalCalls, totalCost := PriceAll(sorted, s.costPer, round);
    TenantsCounted(tenantCalls, byTenant, keys, store, month);
    var byDay := SortNames(dayCalls);
    SortNamesSorts(dayCalls);
    SameEntriesSameCounts(dayCalls, byDay);
    var projected := round(MonthEnd(totalCost, s.day));
    r := Report(byTenant, byDay, totalCalls, round(totalCost), projected, projected > s.threshold);
  }

  ghost predicate Lists(usage: seq<TenantUsage>, entries: seq<Entry>) {
    |usage| == |entries| && forall i :: 0 <= i < |usage| ==> usage[i].tenant == entries[i].name && usage[i].calls == entries[i].count
  }

  lemma TenantsCounted(counts: seq<Entry>, usage: seq<TenantUsage>, keys: seq<string>, store: map<string, nat>, month: string)
    requires Keyed(counts) && Lists(usage, SortDesc(counts))
    requires forall t :: CountOf(counts, t) == Marginal(keys, store, month, 3, t)
    ensures TenantCounts(usage, keys, store, month)
  {
    var sorted := SortDesc(counts);
    SortSorts(counts);
    SameEntriesSameCounts(counts, sorted);
    forall i | 0 <= i < |usage|
      ensures usage[i].calls == Marginal(keys, store, month, 3, usage[i].tenant)
    {
      CountAt(sorted, i);
    }
  }

  lemma ListsSnoc(usage: seq<TenantUsage>, u: TenantUsage, entries: seq<Entry>, e: Entry)
    requires Lists(usage, entries) && u.tenant == e.name && u.calls == e.count
    ensures Lists(usage + [u], entries + [e])
  {
  }

  lemma CostsSnoc(usage: seq<TenantUsage>, u: TenantUsage, costPer: real, round: real -> real)
    requires CostsRounded(usage, costPer, round) && u.cost == round(Exact(u.calls, costPer))
    ensures CostsRounded(usage + [u], costPer, round)
  {
  }

  lemma SumsSnoc(usage: seq<TenantUsage>, u: TenantUsage, entries: seq<Entry>, e: Entry)
    ensures SumCalls(usage + [u]) == SumCalls(usage) + u.calls && SumCost(usage + [u]) == SumCost(usage) + u.cost
    ensures Sum(entries + [e]) == Sum(entries) + e.count
  {
    assert (usage + [u])[..|usage|] == usage;
    SumConcat(entries, [e]);
  }

  /** The loop over the sorted tenants, with the two totals. */
  method PriceAll(sorted: seq<Entry>, costPer: real, round: real -> real) returns (byTenant: seq<TenantUsage>, totalCalls: int, totalCost: real)
    ensures Lists(byTenant, sorted) && CostsRounded(byTenant, costPer, round)
    ensures totalCalls == SumCalls(byTenant) == Sum(sorted) && totalCost == SumCost(byTenant)
  {
    byTenant, totalCalls, totalCost := [], 0, 0.0;
    for i := 0 to |sorted|
      invariant Lists(byTenant, sorted[..i]) && CostsRounded(byTenant, costPer, round)
      invariant totalCalls == SumCalls(byTenant) == Sum(sorted[..i]) && totalCost == SumCost(byTenant)
    {
      var e := sorted[i];
      var usage := TenantUsage(e.name, e.count, round(Exact(e.count, costPer)));
      assert sorted[..i + 1] == sorted[..i] + [e];
      ListsSnoc(byTenant, usage, sorted[..i], e);
      CostsSnoc(byTenant, usage, costPer, round);
      SumsSnoc(byTenant, usage, sorted[..i], e);
      byTenant := byTenant + [usage];
      totalCalls := totalCalls + usage.calls;
      totalCost := totalCost + usage.cost;
    }
    assert sorted[..|sorted|] == sorted;
  }

  /** The scan loop: one pass that feeds both dictionaries. */
  method CountCalls(keys: seq<string>, store: map<string, nat>, month: string) returns (tenantCalls: seq<Entry>, dayCalls: seq<Entry>)
    ensures Keyed(tenantCalls) && Keyed(dayCalls)
    ensures forall t :: CountOf(tenantCalls, t) == Marginal(keys, store, month, 3, t)
    ensures forall d :: CountOf(dayCalls, d) == Marginal(keys, store, month, 4, d)
    ensures Sum(tenantCalls) == Sum(dayCalls) == Total(keys, store, month)
  {
    tenantCalls, dayCalls := [], [];
    for i := 0 to |keys|
      invariant Keyed(tenantCalls) && Keyed(dayCalls)
      invariant forall t :: CountOf(tenantCalls, t) == Marginal(keys[..i], store, month, 3, t)
      invariant forall d :: CountOf(dayCalls, d) == Marginal(keys[..i], store, month, 4, d)
      invariant Sum(tenantCalls) == Sum(dayCalls) == Total(keys[..i], store, month)
    {
      var key := keys[i];
      assert keys[..i + 1][..i] == keys[..i];
      var parts := Split(key);
      if |parts| >= 5 && month <= parts[4] {
        var count := Value(store, key);
        AddAll(tenantCalls, parts[3], count);
        AddAll(dayCalls, parts[4], count);
        tenantCalls := Add(tenantCalls, parts[3], count);
        dayCalls := Add(dayCalls, parts[4], count);
      }
    }
    assert keys[..|keys|] == keys;
  }

  lemma AddAll(t: seq<Entry>, name: string, n: int)
    requires Keyed(t)
    ensures Keyed(Add(t, name, n)) && Sum(Add(t, name, n)) == Sum(t) + n
    ensures forall x :: CountOf(Add(t, name, n), x) == CountOf(t, x) + if x == name then n else 0
  {
    AddKeyed(t, name, n);
    AddSum(t, name, n);
    forall x ensures CountOf(Add(t, name, n), x) == CountOf(t, x) + if x == name then n else 0 {
      AddCounts(t, name, n, x);
    }
  }

  /** Both sums go key by key: with the law for a single key they are determined. */
  lemma {:induction false} MarginalConcat(a: seq<string>, b: seq<string>, store: map<string, nat>, month: string, part: nat, name: string)
    requires part <= 4
    ensures Marginal(a + b, store, month, part, name) == Marginal(a, store, month, part, name) + Marginal(b, store, month, part, name)
    ensures Total(a + b, store, month) == Total(a, store, month) + Total(b, store, month)
  {
    if b == [] {
      assert a + b == a;
    } else {
      var n := |b| - 1;
      MarginalConcat(a, b[..n], store, month, part, name);
      assert (a + b)[..|a + b| - 1] == a + b[..n];
    }
  }

  // ----- Cost -----

  lemma Distribute(a: int, b: int, c: real)
    ensures Exact(a + b, c) == Exact(a, c) + Exact(b, c)
  {
  }

  lemma {:induction false} CostNear(usage: seq<TenantUsage>, costPer: real)
    requires forall i :: 0 <= i < |usage| ==> Near(usage[i].cost, Exact(usage[i].calls, costPer), HALF_STEP)
    ensures Near(SumCost(usage), Exact(SumCalls(usage), costPer), |usage| as real * HALF_STEP)
  {
    if usage != [] {
      var n := |usage| - 1;
      CostNear(usage[..n], costPer);
      Distribute(SumCalls(usage[..n]), usage[n].calls, costPer);
      assert Near(usage[n].cost, Exact(usage[n].calls, costPer), HALF_STEP);
    }
  }

  lemma AllNear(usage: seq<TenantUsage>, costPer: real, round: real -> real)
    requires Rounding(round) && CostsRounded(usage, costPer, round)
    ensures forall i :: 0 <= i < |usage| ==> Near(usage[i].cost, Exact(usage[i].calls, costPer), HALF_STEP)
  {
  }

  /** Rounding each tenant and then the total is off by at most half a step per tenant and one more. */
  lemma ReportedCost(r: Report, keys: seq<string>, store: map<string, nat>, month: string, s: Settings, round: real -> real)
    requires Rounding(round) && Reports(r, keys, store, month, s, round)
    ensures Near(r.totalCost, Exact(Total(keys, store, month), s.costPer), (|r.byTenant| + 1) as real * HALF_STEP)
  {
    AllNear(r.byTenant, s.costPer, round);
    CostNear(r.byTenant, s.costPer);
    assert Near(round(SumCost(r.byTenant)), SumCost(r.byTenant), HALF_STEP);
  }

  lemma Scaled(x: real, exact: real, slack: real, factor: real)
    requires Near(x, exact, slack) && factor >= 0.0
    ensures Near(x * factor, exact * factor, slack * factor)
  {
    assert (x - exact) * factor <= slack * factor && -slack * factor <= (x - exact) * factor;
  }

  lemma Regroup(x: real, n: real)
    requires n >= 1.0
    ensures x / n * 30.0 == x * (30.0 / n)
  {
    var u, q := x / n, 30.0 / n;
    assert u * n == x && q * n == 30.0;
    assert u * (q * n) == (u * n) * q;
  }

  lemma MonthEndNear(x: real, exact: real, slack: real, day: int)
    requires Near(x, exact, slack)
    ensures Near(MonthEnd(x, day), MonthEnd(exact, day), MonthEnd(slack, day))
  {
    var n := Elapsed(day) as real;
    Regroup(x, n);
    Regroup(exact, n);
    Regroup(slack, n);
    Scaled(x, exact, slack, 30.0 / n);
  }

  lemma RoundedNear(x: real, exact: real, slack: real, round: real -> real)
    requires Rounding(round) && Near(x, exact, slack)
    ensures Near(round(x), exact, slack + HALF_STEP)
  {
    assert Near(round(x), x, HALF_STEP);
  }

  /**
    The projection takes the month's cost so far, divides it by the day of the month, or
    by 1, and multiplies it by thirty: it is off by the tenants' rounding, projected too,
    and by its own.
  */
  lemma ProjectedCost(r: Report, keys: seq<string>, store: map<string, nat>, month: string, s: Settings, round: real -> real)
    requires Rounding(round) && Reports(r, keys, store, month, s, round)
    ensures var days := (if s.day > 1 then s.day else 1) as real;
      Near(r.projected, Exact(Total(keys, store, month), s.costPer) / days * 30.0, |r.byTenant| as real * HALF_STEP / days * 30.0 + HALF_STEP)
  {
    AllNear(r.byTenant, s.costPer, round);
    CostNear(r.byTenant, s.costPer);
    var exact, slack := Exact(Total(keys, store, month), s.costPer), |r.byTenant| as real * HALF_STEP;
    MonthEndNear(SumCost(r.byTenant), exact, slack, s.day);
    RoundedNear(MonthEnd(SumCost(r.byTenant), s.day), MonthEnd(exact, s.day), MonthEnd(slack, s.day), round);
  }

  /** In particular for the rounding the report uses. */
  lemma ReportedCostRounded(r: Report, keys: seq<string>, store: map<string, nat>, month: string, s: Settings)
    requires Reports(r, keys, store, month, s, Round4)
    ensures Near(r.totalCost, Exact(Total(keys, store, month), s.costPer), (|r.byTenant| + 1) as real * HALF_STEP)
  {
    Round4IsRounding();
    ReportedCost(r, keys, store, month, s, Round4);
  }

  // ----- The counters the limiter wrote -----

  /**
    For colon-free tenants and days, what the report adds for a limiter's key goes to
    exactly its tenant and its day.
  */
  lemma LimiterKeyAttribution(tenant: string, day: string, month: string, name: string, store: map<string, nat>)
    requires Plain(tenant) && Plain(day)
    ensures InMonth(RateKey(tenant, day), month) <==> month <= day
    ensures Marginal([RateKey(tenant, day)], store, month, 3, name)
         == if month <= day && name == tenant then Value(store, RateKey(tenant, day)) else 0
    ensures Marginal([RateKey(tenant, day)], store, month, 4, name)
         == if month <= day && name == day then Value(store, RateKey(tenant, day)) else 0
    ensures Total([RateKey(tenant, day)], store, month) == if month <= day then Value(store, RateKey(tenant, day)) else 0
  {
    SplitRateKey(tenant, day);
    var keys := [RateKey(tenant, day)];
    assert keys[..0] == [];
    assert Marginal([], store, month, 3, name) == 0 && Marginal([], store, month, 4, name) == 0;
  }

  /**
    A tenant with a colon in its name is mistaken: its key has a part more, so what is
    counted goes to the first part of the name, and only if the second looks like the month.
  */
  lemma ColonTenantMisattributed(a: string, b: string, day: string, month: string, store: map<string, nat>)
    requires Plain(a) && Plain(b) && Plain(day)
    ensures InMonth(RateKey(a + ":" + b, day), month) <==> month <= b
    ensures month <= b ==> Marginal([RateKey(a + ":" + b, day)], store, month, 3, a) == Value(store, RateKey(a + ":" + b, day))
    ensures !(month <= b) ==> Total([RateKey(a + ":" + b, day)], store, month) == 0
  {
    var key := RateKey(a + ":" + b, day);
    var rest := a + ":" + (b + ":" + day);
    assert key == "ai:pnl:" + ("rate" + ":" + rest);
    SplitPnl("rate" + ":" + rest);
    SplitCons("rate", rest);
    SplitCons(a, b + ":" + day);
    SplitCons(b, day);
    SplitPlainFrom("", day);
    assert "" + day == day;
    assert Split(key) == ["ai", "pnl", "rate", a, b, day];
    assert [key][..0] == [];
    assert Marginal([], store, month, 3, a) == 0 && Total([], store, month) == 0;
  }

  // ----- Clearing the caches -----

  /** scan_iter("ai:pnl:*") minus the keys that contain ":rate:". */
  predicate Cleared(key: string) {
    "ai:pnl:" <= key && !Contains(key, ":rate:")
  }

  /** A key outside the pnl family survives a clearing, whatever it is: a tenant's memory above all. */
  lemma ClearingLeavesOthers(key: string, tenant: string)
    ensures !("ai:pnl:" <= key) ==> !Cleared(key)
    ensures !Cleared("ai:memory:" + tenant)
  {
    var memory := "ai:memory:" + tenant;
    assert memory[3] == 'm';
  }

  class Caches {
    var redis: map<string, string>

    constructor (redis: map<string, string>)
      ensures this.redis == redis
    {
      this.redis := redis;
    }

    /** _clear_caches: deletes exactly the keys it should, and counts them. */
    method ClearCaches() returns (count: nat)
      modifies this
      ensures redis == old(redis) - (set key | key in old(redis) && Cleared(key))
      ensures count == |set key | key in old(redis) && Cleared(key)|
    {
      var todo := redis.Keys;
      ghost var gone: set<string> := {};
      count := 0;
      while todo != {}
        invariant todo <= old(redis).Keys && gone <= old(redis).Keys - todo
        invariant forall key :: key in gone <==> key in old(redis).Keys - todo && Cleared(key)
        invariant redis == old(redis) - gone && count == |gone|
        decreases todo
      {
        var key :| key in todo;
        todo := todo - {key};
        if Cleared(key) {
          redis := redis - {key};
          count := count + 1;
          gone := gone + {key};
        }
      }
      assert gone == set key | key in old(redis) && Cleared(key);
    }
  }

  /** Which keys survive a clearing: every counter, no saved analysis, and no session cache unless it is named like a counter. */
  lemma ClearingByFamily(tenant: string, from: string, to: string, day: string)
    requires Plain(tenant) && Plain(from) && Plain(to)
    ensures !Cleared(RateKey(tenant, day))
    ensures Cleared(LastKey(tenant))
    ensures Cleared(SessionKey(tenant, from, to)) <==> tenant != "rate" && from != "rate"
  {
    assert ":rate:" == ":" + "rate" + ":";
    assert At(RateKey(tenant, day), ":rate:", 6);
    assert LastKey(tenant) == "ai:pnl:" + ("last:" + tenant);
    assert SessionKey(tenant, from, to) == "ai:pnl:" + (tenant + ":" + from + ":" + to);
    SplitLastKey(tenant);
    ContainsIffInnerPart(LastKey(tenant), "rate");
    assert "last"[0] != "rate"[0] && |"pnl"| != |"rate"|;
    SplitSessionKey(tenant, from, to);
    SplitPlainFrom("", to);
    assert "" + to == to;
    ContainsIffInnerPart(SessionKey(tenant, from, to), "rate");
    var parts := Split(SessionKey(tenant, from, to));
    assert parts == ["ai", "pnl", tenant, from, to];
    assert InnerPart(parts, "rate") <==> parts[2] == "rate" || parts[3] == "rate";
  }
}
