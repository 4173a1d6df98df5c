/**
  What the analysis gate costs: seen from one tenant and one day, every run of the
  gate is a run of `RateLimiter`, so its bounds on counted and paid calls hold of the
  whole service; and what of it the usage report can still see.
*/
module AnalysisCosts {
  import opened Wrappers
  import opened CacheKeys
  import opened AnalysisGate
  import opened AnalysisHistory
  import L = RateLimiter
  import UsageMetrics

  // ----- The logs -----

  /** The calls paid for a tenant on a day. */
  function Charges(paid: seq<Paid>, tenant: string, day: nat): nat {
    if paid == [] then 0
    else
      Charges(paid[..|paid| - 1], tenant, day)
      + if paid[|paid| - 1] == Paid(tenant, day) then 1 else 0
  }

  predicate Counts(c: Counted, tenant: string, day: nat) {
    c.tenant == tenant && c.day == day
  }

  /** The calls counted for a tenant on a day, paid for or not. */
  function CountsOf(counts: seq<Counted>, tenant: string, day: nat): nat {
    if counts == [] then 0
    else
      CountsOf(counts[..|counts| - 1], tenant, day)
      + if Counts(counts[|counts| - 1], tenant, day) then 1 else 0
  }

  /** When the last of them was counted. */
  function LastCounted(counts: seq<Counted>, tenant: string, day: nat): nat {
    if counts == [] then 0
    else if Counts(counts[|counts| - 1], tenant, day) then counts[|counts| - 1].at
    else LastCounted(counts[..|counts| - 1], tenant, day)
  }

  lemma ChargesSnoc(paid: seq<Paid>, x: Paid, t: string, d: nat)
    ensures Charges(paid + [x], t, d) == Charges(paid, t, d) + if x == Paid(t, d) then 1 else 0
  {
    assert (paid + [x])[..|paid + [x]| - 1] == paid;
  }

  lemma CountsSnoc(counts: seq<Counted>, c: Counted, t: string, d: nat)
    ensures CountsOf(counts + [c], t, d) == CountsOf(counts, t, d) + if Counts(c, t, d) then 1 else 0
    ensures LastCounted(counts + [c], t, d) == if Counts(c, t, d) then c.at else LastCounted(counts, t, d)
  {
    assert (counts + [c])[..|counts + [c]| - 1] == counts;
  }

  // ----- The calls of one tenant on one day -----

  datatype Standing = Entered | Checked | Owing | Elsewhere

  function StandingOn(stage: Stage, d: nat): Standing {
    match stage
    case Checking(day, _) => if day == d then Entered else Elsewhere
    case Counting(day, _) => if day == d then Checked else Elsewhere
    case Dropping(day) => if day == d then Owing else Elsewhere
    case Asking(day) => if day == d then Owing else Elsewhere
    case _ => Elsewhere
  }

  function Those(flights: map<nat, Flight>, t: string, d: nat, standing: Standing): set<nat> {
    set id | id in flights && flights[id].req.tenant == t && StandingOn(flights[id].stage, d) == standing
  }

  /** The calls that computed the day's key and wait for its counter, with the time they did. */
  function Entering(flights: map<nat, Flight>, t: string, d: nat): map<nat, nat> {
    map id | id in flights && flights[id].req.tenant == t && flights[id].stage.Checking? && flights[id].stage.day == d :: flights[id].stage.since
  }

  /** The gate as the day's counter of one tenant sees it. */
  function LimiterOf(g: Gate, t: string, d: nat): L.Limiter {
    L.Limiter(g.now, d,
              CountsOf(g.counts, t, d),
              if CountsOf(g.counts, t, d) > 0 then LastCounted(g.counts, t, d) + RATE_TTL else 0,
              Entering(g.flights, t, d),
              Those(g.flights, t, d, Checked),
              Those(g.flights, t, d, Owing),
              CountsOf(g.counts, t, d),
              Charges(g.paid, t, d))
  }

  lemma ThosePut(flights: map<nat, Flight>, id: nat, f: Flight, t: string, d: nat, s: Standing)
    ensures Those(flights[id := f], t, d, s)
         == if f.req.tenant == t && StandingOn(f.stage, d) == s then Those(flights, t, d, s) + {id} else Those(flights, t, d, s) - {id}
  {
  }

  lemma EnteringPut(flights: map<nat, Flight>, id: nat, f: Flight, t: string, d: nat)
    ensures Entering(flights[id := f], t, d)
         == if f.req.tenant == t && f.stage.Checking? && f.stage.day == d then Entering(flights, t, d)[id := f.stage.since] else Entering(flights, t, d) - {id}
  {
  }

  lemma ThoseDrop(flights: map<nat, Flight>, id: nat, t: string, d: nat)
    ensures forall s :: Those(flights - {id}, t, d, s) == Those(flights, t, d, s) - {id}
    ensures Entering(flights - {id}, t, d) == Entering(flights, t, d) - {id}
  {
  }

  /** All of them are calls of the tenant. */
  lemma SizeWithin(g: Gate, t: string, d: nat)
    ensures L.Size(LimiterOf(g, t, d)) <= |CallsOf(g.flights, t)|
  {
    var entered, checked, owing := Entering(g.flights, t, d).Keys, Those(g.flights, t, d, Checked), Those(g.flights, t, d, Owing);
    assert entered !! checked && entered !! owing && checked !! owing;
    assert |entered + checked + owing| == |entered| + |checked| + |owing|;
    SubsetSize(entered + checked + owing, CallsOf(g.flights, t));
  }

  // ----- The store against the logs -----

  /** A day's counter is its number of counted calls, and lives 25 hours from the last of them. */
  ghost predicate StoreRate(g: Gate, fmt: nat -> string, t: string, d: nat) {
    var key, n, last := RateKey(t, fmt(d)), CountsOf(g.counts, t, d), LastCounted(g.counts, t, d);
    && (key in g.store <==> n > 0)
    && (key in g.store ==>
          && g.store[key] == Entry(Count(n), last + RATE_TTL)
          && d * DAY <= last < d * DAY + RATE_TTL && last <= g.now)
  }

  /** A call that computed a day's key did so on that day. */
  ghost predicate TimeOk(g: Gate, id: nat) {
    id in g.flights && (g.flights[id].stage.Checking? || g.flights[id].stage.Counting?) ==>
      g.flights[id].stage.day * DAY <= g.flights[id].stage.since < (g.flights[id].stage.day + 1) * DAY && g.flights[id].stage.since <= g.now
  }

  ghost predicate RateInv(g: Gate, fmt: nat -> string) {
    && (forall t, d | Named(t) :: StoreRate(g, fmt, t, d))
    && (forall id :: TimeOk(g, id))
  }

  /** Redis answers the two commands of the limiter within an hour of the key being computed. */
  predicate Timely(g: Gate, op: Op) {
    op.Continue? && op.id in g.flights && (g.flights[op.id].stage.Checking? || g.flights[op.id].stage.Counting?) ==>
      g.now <= g.flights[op.id].stage.since + L.GRACE
  }

  ghost predicate AlwaysTimely(k: nat, g: Gate, ops: seq<Op>, fmt: nat -> string)
    decreases |ops|
  {
    ops == [] || (Timely(g, ops[0]) && AlwaysTimely(k, Next(k, g, ops[0], fmt), ops[1..], fmt))
  }

  lemma SameDay(now: nat)
    ensures now / DAY * DAY <= now < (now / DAY + 1) * DAY
  {
  }

  /** What GET reads of a counter until it can first expire. */
  lemma ReadsCounts(g: Gate, fmt: nat -> string, t: string, d: nat)
    requires StoreRate(g, fmt, t, d)
    ensures var live := L.Live(LimiterOf(g, t, d));
      && ReadCount(g.store, RateKey(t, fmt(d)), g.now) == Some(live)
      && (g.now < d * DAY + RATE_TTL ==> live == CountsOf(g.counts, t, d))
  {
  }

  // ----- One step of a call -----

  /** What a step makes of the logs of counted and paid calls. */
  lemma LogEffect(g: Gate, id: nat, answer: Answer, fmt: nat -> string)
    requires id in g.flights
    ensures var g' := ContinueCall(g, id, answer, fmt).0;
      var tenant, stage := g.flights[id].req.tenant, g.flights[id].stage;
      && g'.paid == (if stage.Asking? then g.paid + [Paid(tenant, stage.day)] else g.paid)
      && g'.counts == (if stage.Counting? && ReadCount(g.store, RateKey(tenant, fmt(stage.day)), g.now).Some?
                       then g.counts + [Counted(tenant, stage.day, g.now)] else g.counts)
  {
  }

  lemma StoreCounts(g: Gate, id: nat, answer: Answer, fmt: nat -> string)
    requires id in g.flights && g.flights[id].stage.Counting? && TimeOk(g, id) && Timely(g, Continue(id, answer))
    requires StoreRate(g, fmt, g.flights[id].req.tenant, g.flights[id].stage.day)
    ensures StoreRate(ContinueCall(g, id, answer, fmt).0, fmt, g.flights[id].req.tenant, g.flights[id].stage.day)
  {
    var tenant, d := g.flights[id].req.tenant, g.flights[id].stage.day;
    ReadsCounts(g, fmt, tenant, d);
    LogEffect(g, id, answer, fmt);
    CountsSnoc(g.counts, Counted(tenant, d, g.now), tenant, d);
    var key := RateKey(tenant, fmt(d));
    assert ContinueCall(g, id, answer, fmt).0.store == g.store[key := Entry(Count(CountsOf(g.counts, tenant, d) + 1), g.now + RATE_TTL)];
  }

  lemma StoreKept(g: Gate, g': Gate, fmt: nat -> string, t: string, d: nat)
    requires StoreRate(g, fmt, t, d) && At(g'.store, RateKey(t, fmt(d))) == At(g.store, RateKey(t, fmt(d))) && g'.now >= g.now
    requires CountsOf(g'.counts, t, d) == CountsOf(g.counts, t, d) && LastCounted(g'.counts, t, d) == LastCounted(g.counts, t, d)
    ensures StoreRate(g', fmt, t, d)
  {
  }

  lemma StoreStep(g: Gate, id: nat, answer: Answer, fmt: nat -> string, t: string, d: nat)
    requires Names(g, id, t, "") && Days(fmt) && TimeOk(g, id) && Timely(g, Continue(id, answer)) && StoreRate(g, fmt, t, d)
    ensures StoreRate(ContinueCall(g, id, answer, fmt).0, fmt, t, d)
  {
    var tenant, stage := g.flights[id].req.tenant, g.flights[id].stage;
    if stage.Counting? && tenant == t && stage.day == d {
      StoreCounts(g, id, answer, fmt);
    } else {
      RateEntry(g, id, answer, fmt, t, d);
      LogEffect(g, id, answer, fmt);
      CallEffect(g, id, answer, fmt);
      if stage.Counting? {
        CountsSnoc(g.counts, Counted(tenant, stage.day, g.now), t, d);
      }
      StoreKept(g, ContinueCall(g, id, answer, fmt).0, fmt, t, d);
    }
  }

  lemma TimeStep(g: Gate, id: nat, answer: Answer, fmt: nat -> string, other: nat)
    requires TimeOk(g, id) && TimeOk(g, other)
    ensures TimeOk(ContinueCall(g, id, answer, fmt).0, other)
  {
    if id in g.flights && other != id {
      CallEffect(g, id, answer, fmt);
    }
  }

  // ----- Seen from the limiter -----

  /** The steps a limiter takes while the gate takes one. */
  function Noticed(k: nat, g: Gate, op: Op, fmt: nat -> string, t: string, d: nat): seq<L.Step> {
    var g' := Next(k, g, op, fmt);
    match op
    case Tick(dt) => [L.Tick(dt)]
    case Begin(id, req, _) => if id !in g.flights && id in g'.flights && req.tenant == t && g.now / DAY == d then [L.Enter(id)] else []
    case Continue(id, _) =>
      if id in g.flights && g.flights[id].req.tenant == t && StandingOn(g.flights[id].stage, d) != Elsewhere then
        var here := id in g'.flights;
        match StandingOn(g.flights[id].stage, d)
        case Entered => if here && g'.flights[id].stage.Counting? then [L.Check(id)] else [L.Cancel(id)]
        case Checked => [L.Incr(id)] + if here then [] else [L.Cancel(id)]
        case _ => if g.flights[id].stage.Asking? then [L.Pay(id)] else if here then [] else [L.Cancel(id)]
      else []
    case Cancel(id) => [L.Cancel(id)]
    case _ => []
  }

  lemma One(p: L.Params, l: L.Limiter, step: L.Step)
    ensures L.Run(p, l, [step]) == L.Next(p, l, step)
  {
    assert L.Run(p, L.Next(p, l, step), []) == L.Next(p, l, step);
  }

  lemma ViewPut(g: Gate, g': Gate, id: nat, t: string, d: nat)
    requires id in g.flights && id in g'.flights && g'.flights == g.flights[id := g.flights[id].(stage := g'.flights[id].stage)]
    ensures var l, l' := LimiterOf(g, t, d), LimiterOf(g', t, d);
      var here := g.flights[id].req.tenant == t;
      var s := StandingOn(g'.flights[id].stage, d);
      && l'.entered == (if here && s == Entered then l.entered[id := g'.flights[id].stage.since] else l.entered - {id})
      && l'.checked == (if here && s == Checked then l.checked + {id} else l.checked - {id})
      && l'.counted == (if here && s == Owing then l.counted + {id} else l.counted - {id})
  {
    var f := g'.flights[id];
    EnteringPut(g.flights, id, f, t, d);
    ThosePut(g.flights, id, f, t, d, Checked);
    ThosePut(g.flights, id, f, t, d, Owing);
  }

  lemma ViewDrop(g: Gate, g': Gate, id: nat, t: string, d: nat)
    requires g'.flights == g.flights - {id}
    ensures var l, l' := LimiterOf(g, t, d), LimiterOf(g', t, d);
      l'.entered == l.entered - {id} && l'.checked == l.checked - {id} && l'.counted == l.counted - {id}
  {
    ThoseDrop(g.flights, id, t, d);
  }

  /** Where a call of the tenant stands on the day, and where it does not. */
  lemma Placed(g: Gate, id: nat, t: string, d: nat)
    requires id in g.flights
    ensures var l := LimiterOf(g, t, d);
      var here := g.flights[id].req.tenant == t;
      var s := StandingOn(g.flights[id].stage, d);
      && (id in l.entered <==> here && s == Entered) && (id in l.checked <==> here && s == Checked) && (id in l.counted <==> here && s == Owing)
      && (id in l.entered ==> l.entered[id] == g.flights[id].stage.since)
  {
  }

  lemma CallsAside(g: Gate, id: nat, answer: Answer, fmt: nat -> string, t: string, d: nat)
    requires id in g.flights && (g.flights[id].req.tenant != t || StandingOn(g.flights[id].stage, d) == Elsewhere)
    ensures var l, l' := LimiterOf(g, t, d), LimiterOf(ContinueCall(g, id, answer, fmt).0, t, d);
      l'.entered == l.entered && l'.checked == l.checked && l'.counted == l.counted
  {
    var g' := ContinueCall(g, id, answer, fmt).0;
    Placed(g, id, t, d);
    CallEffect(g, id, answer, fmt);
    if id in g'.flights {
      if g.flights[id].req.tenant == t {
        SameDayOn(g, id, answer, fmt, d);
      }
      ViewPut(g, g', id, t, d);
    } else {
      ViewDrop(g, g', id, t, d);
    }
  }

  /** A call of another tenant or day, or past its payment, leaves the view alone. */
  lemma ViewAside(g: Gate, id: nat, answer: Answer, fmt: nat -> string, t: string, d: nat)
    requires id in g.flights && (g.flights[id].req.tenant != t || StandingOn(g.flights[id].stage, d) == Elsewhere)
    ensures LimiterOf(ContinueCall(g, id, answer, fmt).0, t, d) == LimiterOf(g, t, d)
  {
    var tenant, stage := g.flights[id].req.tenant, g.flights[id].stage;
    CallsAside(g, id, answer, fmt, t, d);
    CallEffect(g, id, answer, fmt);
    LogEffect(g, id, answer, fmt);
    if stage.Counting? {
      CountsSnoc(g.counts, Counted(tenant, stage.day, g.now), t, d);
    } else if stage.Asking? {
      ChargesSnoc(g.paid, Paid(tenant, stage.day), t, d);
    }
  }

  /** A call never goes over to another day. */
  lemma SameDayOn(g: Gate, id: nat, answer: Answer, fmt: nat -> string, d: nat)
    requires id in g.flights && id in ContinueCall(g, id, answer, fmt).0.flights && StandingOn(g.flights[id].stage, d) == Elsewhere
    ensures StandingOn(ContinueCall(g, id, answer, fmt).0.flights[id].stage, d) == Elsewhere
  {
  }

  lemma ViewCheck(g: Gate, id: nat, answer: Answer, p: Terms, fmt: nat -> string, d: nat)
    requires id in g.flights && g.flights[id].stage.Checking? && g.flights[id].stage.day == d && g.flights[id].cfg.limit <= p.limit
    requires StoreRate(g, fmt, g.flights[id].req.tenant, d) && Timely(g, Continue(id, answer))
    ensures var t := g.flights[id].req.tenant;
      LimiterOf(ContinueCall(g, id, answer, fmt).0, t, d)
      == L.Run(L.Params(p.limit, p.k, L.GRACE), LimiterOf(g, t, d), Noticed(p.k, g, Continue(id, answer), fmt, t, d))
  {
    var t := g.flights[id].req.tenant;
    var g' := ContinueCall(g, id, answer, fmt).0;
    Placed(g, id, t, d);
    ReadsCounts(g, fmt, t, d);
    ViewPut(g, g', id, t, d);
    One(L.Params(p.limit, p.k, L.GRACE), LimiterOf(g, t, d), Noticed(p.k, g, Continue(id, answer), fmt, t, d)[0]);
  }

  /** INCR and EXPIRE in time count one more call, for store and limiter alike. */
  lemma LogsCounted(g: Gate, id: nat, answer: Answer, q: L.Params, fmt: nat -> string, d: nat)
    requires id in g.flights && g.flights[id].stage.Counting? && g.flights[id].stage.day == d
    requires StoreRate(g, fmt, g.flights[id].req.tenant, d) && TimeOk(g, id) && Timely(g, Continue(id, answer))
    ensures var t := g.flights[id].req.tenant;
      var l', l1 := LimiterOf(ContinueCall(g, id, answer, fmt).0, t, d), L.Next(q, LimiterOf(g, t, d), L.Incr(id));
      && id in LimiterOf(g, t, d).checked
      && l'.now == l1.now && l'.value == l1.value && l'.expiry == l1.expiry && l'.increments == l1.increments && l'.paid == l1.paid
  {
    var t := g.flights[id].req.tenant;
    Placed(g, id, t, d);
    ReadsCounts(g, fmt, t, d);
    LogEffect(g, id, answer, fmt);
    CallEffect(g, id, answer, fmt);
    CountsSnoc(g.counts, Counted(t, d, g.now), t, d);
  }

  lemma ViewCount(g: Gate, id: nat, answer: Answer, p: Terms, fmt: nat -> string, d: nat)
    requires id in g.flights && g.flights[id].stage.Counting? && g.flights[id].stage.day == d
    requires StoreRate(g, fmt, g.flights[id].req.tenant, d) && TimeOk(g, id) && Timely(g, Continue(id, answer))
    ensures var t := g.flights[id].req.tenant;
      LimiterOf(ContinueCall(g, id, answer, fmt).0, t, d)
      == L.Run(L.Params(p.limit, p.k, L.GRACE), LimiterOf(g, t, d), Noticed(p.k, g, Continue(id, answer), fmt, t, d))
  {
    var t := g.flights[id].req.tenant;
    var g' := ContinueCall(g, id, answer, fmt).0;
    var l, q := LimiterOf(g, t, d), L.Params(p.limit, p.k, L.GRACE);
    Placed(g, id, t, d);
    LogsCounted(g, id, answer, q, fmt, d);
    var l', l1 := LimiterOf(g', t, d), L.Next(q, l, L.Incr(id));
    if id in g'.flights {
      CountedOwes(g, id, answer, fmt, d);
      ViewPut(g, g', id, t, d);
      One(q, l, L.Incr(id));
    } else {
      CallEffect(g, id, answer, fmt);
      ViewDrop(g, g', id, t, d);
      L.RunTwo(q, l, L.Incr(id), L.Cancel(id));
      assert [L.Incr(id)] + [L.Cancel(id)] == [L.Incr(id), L.Cancel(id)];
      var l2 := L.Next(q, l1, L.Cancel(id));
      assert l2.counted == l'.counted && l2.checked == l'.checked;
    }
  }

  lemma CountedOwes(g: Gate, id: nat, answer: Answer, fmt: nat -> string, d: nat)
    requires id in g.flights && g.flights[id].stage.Counting? && g.flights[id].stage.day == d
    ensures var g' := ContinueCall(g, id, answer, fmt).0;
      id in g'.flights ==> g'.flights == g.flights[id := g.flights[id].(stage := g'.flights[id].stage)] && StandingOn(g'.flights[id].stage, d) == Owing
  {
  }

  lemma ViewAsk(g: Gate, id: nat, answer: Answer, p: Terms, fmt: nat -> string, d: nat)
    requires id in g.flights && g.flights[id].stage == Asking(d)
    ensures var t := g.flights[id].req.tenant;
      LimiterOf(ContinueCall(g, id, answer, fmt).0, t, d) == L.Next(L.Params(p.limit, p.k, L.GRACE), LimiterOf(g, t, d), L.Pay(id))
  {
    var t := g.flights[id].req.tenant;
    Placed(g, id, t, d);
    ChargesSnoc(g.paid, Paid(t, d), t, d);
    ViewPut(g, ContinueCall(g, id, answer, fmt).0, id, t, d);
  }

  lemma ViewDropping(g: Gate, id: nat, answer: Answer, p: Terms, fmt: nat -> string, d: nat)
    requires id in g.flights && g.flights[id].stage == Dropping(d)
    ensures var t := g.flights[id].req.tenant;
      var g' := ContinueCall(g, id, answer, fmt).0;
      LimiterOf(g', t, d)
      == if id in g'.flights then LimiterOf(g, t, d) else L.Next(L.Params(p.limit, p.k, L.GRACE), LimiterOf(g, t, d), L.Cancel(id))
  {
    var t := g.flights[id].req.tenant;
    var g' := ContinueCall(g, id, answer, fmt).0;
    Placed(g, id, t, d);
    if id in g'.flights {
      ViewPut(g, g', id, t, d);
    } else {
      ViewDrop(g, g', id, t, d);
    }
  }

  lemma ViewPay(g: Gate, id: nat, answer: Answer, p: Terms, fmt: nat -> string, d: nat)
    requires id in g.flights && StandingOn(g.flights[id].stage, d) == Owing
    ensures var t := g.flights[id].req.tenant;
      LimiterOf(ContinueCall(g, id, answer, fmt).0, t, d)
      == L.Run(L.Params(p.limit, p.k, L.GRACE), LimiterOf(g, t, d), Noticed(p.k, g, Continue(id, answer), fmt, t, d))
  {
    var l, q := LimiterOf(g, g.flights[id].req.tenant, d), L.Params(p.limit, p.k, L.GRACE);
    if g.flights[id].stage.Asking? {
      ViewAsk(g, id, answer, p, fmt, d);
      One(q, l, L.Pay(id));
    } else {
      ViewDropping(g, id, answer, p, fmt, d);
      One(q, l, L.Cancel(id));
    }
  }

  lemma ViewEnters(g: Gate, id: nat, f: Flight, t: string, d: nat)
    requires id !in g.flights && f.stage == Checking(g.now / DAY, g.now)
    ensures LimiterOf(g.(flights := g.flights[id := f]), t, d)
         == if f.req.tenant == t && g.now / DAY == d then LimiterOf(g, t, d).(entered := LimiterOf(g, t, d).entered[id := g.now]) else LimiterOf(g, t, d)
  {
    EnteringPut(g.flights, id, f, t, d);
    ThosePut(g.flights, id, f, t, d, Checked);
    ThosePut(g.flights, id, f, t, d, Owing);
    var l := LimiterOf(g, t, d);
    assert l.entered - {id} == l.entered && l.checked - {id} == l.checked && l.counted - {id} == l.counted;
  }

  lemma ViewBegin(g: Gate, op: Op, p: Terms, fmt: nat -> string, t: string, d: nat)
    requires op.Begin?
    ensures LimiterOf(Next(p.k, g, op, fmt), t, d) == L.Run(L.Params(p.limit, p.k, L.GRACE), LimiterOf(g, t, d), Noticed(p.k, g, op, fmt, t, d))
  {
    var g' := Next(p.k, g, op, fmt);
    if op.id !in g.flights && op.id in g'.flights {
      var f := Flight(op.req, op.cfg, Checking(g.now / DAY, g.now));
      assert g' == g.(flights := g.flights[op.id := f]);
      ViewEnters(g, op.id, f, t, d);
      SizeWithin(g, t, d);
      One(L.Params(p.limit, p.k, L.GRACE), LimiterOf(g, t, d), L.Enter(op.id));
    } else {
      assert g' == g;
    }
  }

  /** One step of the gate is at most two of the limiter. */
  lemma NoticedNext(g: Gate, op: Op, p: Terms, fmt: nat -> string, t: string, d: nat)
    requires Inv(g, p, fmt) && RateInv(g, fmt) && Proper(p, op) && Timely(g, op) && Named(t)
    ensures LimiterOf(Next(p.k, g, op, fmt), t, d) == L.Run(L.Params(p.limit, p.k, L.GRACE), LimiterOf(g, t, d), Noticed(p.k, g, op, fmt, t, d))
  {
    var q, l := L.Params(p.limit, p.k, L.GRACE), LimiterOf(g, t, d);
    match op
    case Tick(dt) => One(q, l, L.Tick(dt));
    case Begin(id, req, cfg) => ViewBegin(g, op, p, fmt, t, d);
    case Continue(id, answer) =>
      if id in g.flights {
        assert FlightOk(g, p, id) && TimeOk(g, id) && StoreRate(g, fmt, t, d);
        if g.flights[id].req.tenant != t || StandingOn(g.flights[id].stage, d) == Elsewhere {
          ViewAside(g, id, answer, fmt, t, d);
        } else if g.flights[id].stage.Checking? {
          ViewCheck(g, id, answer, p, fmt, d);
        } else if g.flights[id].stage.Counting? {
          ViewCount(g, id, answer, p, fmt, d);
        } else {
          ViewPay(g, id, answer, p, fmt, d);
        }
      }
    case Cancel(id) =>
      ViewDrop(g, Next(p.k, g, op, fmt), id, t, d);
      One(q, l, L.Cancel(id));
    case _ =>
  }

  // ----- Whole runs -----

  lemma StoreAside(g: Gate, op: Op, p: Terms, fmt: nat -> string, t: string, d: nat)
    requires !op.Continue? && Named(t) && Days(fmt) && StoreRate(g, fmt, t, d)
    ensures StoreRate(Next(p.k, g, op, fmt), fmt, t, d)
  {
    UsageMetrics.ClearingByFamily(t, "", "", fmt(d));
    if op.DeleteLast? {
      RateNeverLast(t, fmt(d), op.tenant);
    }
    StoreKept(g, Next(p.k, g, op, fmt), fmt, t, d);
  }

  lemma TimeAside(g: Gate, op: Op, p: Terms, fmt: nat -> string, id: nat)
    requires !op.Continue? && TimeOk(g, id)
    ensures TimeOk(Next(p.k, g, op, fmt), id)
  {
    SameDay(g.now);
  }

  lemma RateNext(g: Gate, op: Op, p: Terms, fmt: nat -> string)
    requires Days(fmt) && Inv(g, p, fmt) && RateInv(g, fmt) && Proper(p, op) && Timely(g, op)
    ensures RateInv(Next(p.k, g, op, fmt), fmt)
  {
    var g' := Next(p.k, g, op, fmt);
    forall t, d | Named(t)
      ensures StoreRate(g', fmt, t, d)
    {
      if op.Continue? {
        if op.id in g.flights {
          assert FlightOk(g, p, op.id) && TimeOk(g, op.id);
          StoreStep(g, op.id, op.answer, fmt, t, d);
        }
      } else {
        StoreAside(g, op, p, fmt, t, d);
      }
    }
    forall id
      ensures TimeOk(g', id)
    {
      if op.Continue? {
        assert TimeOk(g, op.id);
        TimeStep(g, op.id, op.answer, fmt, id);
      } else {
        TimeAside(g, op, p, fmt, id);
      }
    }
  }

  function Projection(k: nat, g: Gate, ops: seq<Op>, fmt: nat -> string, t: string, d: nat): seq<L.Step>
    decreases |ops|
  {
    if ops == [] then []
    else Noticed(k, g, ops[0], fmt, t, d) + Projection(k, Next(k, g, ops[0], fmt), ops[1..], fmt, t, d)
  }

  lemma {:induction false} RefinesFrom(g: Gate, ops: seq<Op>, p: Terms, fmt: nat -> string, t: string, d: nat)
    requires Days(fmt) && AllProper(p, ops) && AlwaysTimely(p.k, g, ops, fmt) && Inv(g, p, fmt) && RateInv(g, fmt) && Named(t)
    ensures RateInv(Run(p.k, g, ops, fmt), fmt)
    ensures LimiterOf(Run(p.k, g, ops, fmt), t, d) == L.Run(L.Params(p.limit, p.k, L.GRACE), LimiterOf(g, t, d), Projection(p.k, g, ops, fmt, t, d))
    decreases |ops|
  {
    if ops != [] {
      assert ops[0] in ops;
      var g' := Next(p.k, g, ops[0], fmt);
      NoticedNext(g, ops[0], p, fmt, t, d);
      RateNext(g, ops[0], p, fmt);
      InvNext(g, ops[0], p, fmt);
      assert forall op | op in ops[1..] :: op in ops;
      RefinesFrom(g', ops[1..], p, fmt, t, d);
      L.RunConcat(L.Params(p.limit, p.k, L.GRACE), LimiterOf(g, t, d), Noticed(p.k, g, ops[0], fmt, t, d), Projection(p.k, g', ops[1..], fmt, t, d));
    }
  }

  /**
    Every run of the gate, with any number of overlapping calls of every tenant, is for
    each tenant and each day a run of that day's limiter.
  */
  lemma GateRefinesLimiter(now: nat, ops: seq<Op>, p: Terms, fmt: nat -> string, t: string, d: nat)
    requires Days(fmt) && AllProper(p, ops) && AlwaysTimely(p.k, Start(now), ops, fmt) && Named(t)
    ensures L.Start(LimiterOf(Start(now), t, d))
    ensures LimiterOf(Run(p.k, Start(now), ops, fmt), t, d)
         == L.Run(L.Params(p.limit, p.k, L.GRACE), LimiterOf(Start(now), t, d), Projection(p.k, Start(now), ops, fmt, t, d))
    ensures RateInv(Run(p.k, Start(now), ops, fmt), fmt)
  {
    InvReached(now, [], p, fmt);
    assert Run(p.k, Start(now), [], fmt) == Start(now);
    RefinesFrom(Start(now), ops, p, fmt, t, d);
  }

  // ----- What is paid for -----

  /**
    In every interleaving: a day's paid calls of a tenant, with those counted and about
    to be paid, are within the counted ones, these below limit + k, and until the
    counter can first expire it shows exactly them. A call that reaches the model after
    midnight is charged to the day whose counter let it through.
  */
  lemma PaidWithinCounter(now: nat, ops: seq<Op>, p: Terms, fmt: nat -> string, tenant: string, day: nat)
    requires Days(fmt) && AllProper(p, ops) && AlwaysTimely(p.k, Start(now), ops, fmt) && Named(tenant)
    ensures var g := Run(p.k, Start(now), ops, fmt);
      var counted := CountsOf(g.counts, tenant, day);
      && Charges(g.paid, tenant, day) + |Those(g.flights, tenant, day, Owing)| <= counted
      && counted + |Those(g.flights, tenant, day, Checked)| <= L.Ceiling(p.limit, p.k)
      && (g.now < day * DAY + RATE_TTL ==> ReadCount(g.store, RateKey(tenant, fmt(day)), g.now) == Some(counted))
  {
    GateRefinesLimiter(now, ops, p, fmt, tenant, day);
    L.CounterBound(L.Params(p.limit, p.k, L.GRACE), LimiterOf(Start(now), tenant, day), Projection(p.k, Start(now), ops, fmt, tenant, day));
    var g := Run(p.k, Start(now), ops, fmt);
    assert StoreRate(g, fmt, tenant, day);
    ReadsCounts(g, fmt, tenant, day);
  }

  /** So the documented limit holds when a tenant's calls follow one another. */
  lemma PaidWithinLimit(now: nat, ops: seq<Op>, p: Terms, fmt: nat -> string, tenant: string, day: nat)
    requires Days(fmt) && AllProper(p, ops) && AlwaysTimely(p.k, Start(now), ops, fmt) && Named(tenant) && p.k <= 1
    ensures Charges(Run(p.k, Start(now), ops, fmt).paid, tenant, day) <= p.limit
  {
    PaidWithinCounter(now, ops, p, fmt, tenant, day);
  }

  function Bought(paid: seq<Paid>, tenant: string): nat {
    if paid == [] then 0
    else Bought(paid[..|paid| - 1], tenant) + if paid[|paid| - 1].tenant == tenant then 1 else 0
  }

  function Analyses(history: seq<Fresh>, tenant: string): nat {
    if history == [] then 0
    else Analyses(history[..|history| - 1], tenant) + if history[|history| - 1].tenant == tenant then 1 else 0
  }

  /** The calls whose model was called and whose answer is not saved. */
  function Unsaved(flights: map<nat, Flight>, t: string): set<nat> {
    set id | id in flights && flights[id].req.tenant == t && (flights[id].stage.Waiting? || flights[id].stage.Saving?)
  }

  ghost predicate Covered(g: Gate, t: string) {
    Analyses(g.history, t) + |Unsaved(g.flights, t)| <= Bought(g.paid, t)
  }

  lemma UnsavedPut(flights: map<nat, Flight>, id: nat, f: Flight, t: string)
    ensures Unsaved(flights[id := f], t)
         == if f.req.tenant == t && (f.stage.Waiting? || f.stage.Saving?) then Unsaved(flights, t) + {id} else Unsaved(flights, t) - {id}
  {
  }

  lemma UnsavedStage(g: Gate, id: nat, answer: Answer, fmt: nat -> string)
    requires id in g.flights
    ensures var g' := ContinueCall(g, id, answer, fmt).0;
      && (id in g'.flights && (g'.flights[id].stage.Waiting? || g'.flights[id].stage.Saving?) ==> g.flights[id].stage.Asking? || g.flights[id].stage.Waiting?)
      && (g.flights[id].stage.Asking? ==> id in g'.flights && g'.flights[id].stage.Waiting?)
  {
  }

  lemma CoveredContinue(g: Gate, id: nat, answer: Answer, fmt: nat -> string, t: string)
    requires id in g.flights && Covered(g, t)
    ensures Covered(ContinueCall(g, id, answer, fmt).0, t)
  {
    var g' := ContinueCall(g, id, answer, fmt).0;
    var tenant, stage := g.flights[id].req.tenant, g.flights[id].stage;
    CallEffect(g, id, answer, fmt);
    LogEffect(g, id, answer, fmt);
    UnsavedStage(g, id, answer, fmt);
    if id in g'.flights {
      UnsavedPut(g.flights, id, g'.flights[id], t);
    } else {
      assert Unsaved(g'.flights, t) == Unsaved(g.flights, t) - {id};
    }
    assert id in Unsaved(g.flights, t) <==> tenant == t && (stage.Waiting? || stage.Saving?);
    if stage.Asking? {
      assert g'.paid[..|g'.paid| - 1] == g.paid;
    } else if stage.Saving? {
      assert g'.history[..|g'.history| - 1] == g.history;
    }
  }

  lemma CoveredNext(k: nat, g: Gate, op: Op, fmt: nat -> string, t: string)
    requires Covered(g, t)
    ensures Covered(Next(k, g, op, fmt), t)
  {
    var g' := Next(k, g, op, fmt);
    if op.Continue? {
      if op.id in g.flights {
        CoveredContinue(g, op.id, op.answer, fmt, t);
      }
    } else {
      assert Unsaved(g'.flights, t) <= Unsaved(g.flights, t);
      SubsetSize(Unsaved(g'.flights, t), Unsaved(g.flights, t));
    }
  }

  lemma {:induction false} CoveredRun(k: nat, g: Gate, ops: seq<Op>, fmt: nat -> string, t: string)
    requires Covered(g, t)
    ensures Covered(Run(k, g, ops, fmt), t)
    decreases |ops|
  {
    if ops != [] {
      CoveredNext(k, g, ops[0], fmt, t);
      CoveredRun(k, Next(k, g, ops[0], fmt), ops[1..], fmt, t);
    }
  }

  /** Every analysis in the history was paid for by a call of its own. */
  lemma AnalysesArePaidFor(k: nat, now: nat, ops: seq<Op>, fmt: nat -> string, tenant: string)
    ensures Analyses(Run(k, Start(now), ops, fmt).history, tenant) <= Bought(Run(k, Start(now), ops, fmt).paid, tenant)
  {
    assert Unsaved(Start(now).flights, tenant) == {};
    CoveredRun(k, Start(now), ops, fmt, tenant);
  }

  // ----- What the monthly report can still see -----

  /** The counters a usage report reads. */
  function Counters(store: Store, now: nat): map<string, nat> {
    map key | key in store && now < store[key].expiry && store[key].value.Count? :: store[key].value.n
  }

  /** What the report of the month counts for a tenant and a day. */
  function Reported(g: Gate, fmt: nat -> string, tenant: string, day: nat, month: string): nat {
    UsageMetrics.MonthValue(RateKey(tenant, fmt(day)), Counters(g.store, g.now), month)
  }

  /** All the day's counted calls until 25 hours after the last of them, and nothing from then on. */
  lemma ReportedExactly(now: nat, ops: seq<Op>, p: Terms, fmt: nat -> string, tenant: string, day: nat, month: string)
    requires Days(fmt) && AllProper(p, ops) && AlwaysTimely(p.k, Start(now), ops, fmt) && Named(tenant)
    ensures var g := Run(p.k, Start(now), ops, fmt);
      && Reported(g, fmt, tenant, day, month)
         == (if month <= fmt(day) && g.now < LastCounted(g.counts, tenant, day) + RATE_TTL then CountsOf(g.counts, tenant, day) else 0)
      && Charges(g.paid, tenant, day) <= CountsOf(g.counts, tenant, day) <= L.Ceiling(p.limit, p.k)
  {
    PaidWithinCounter(now, ops, p, fmt, tenant, day);
    GateRefinesLimiter(now, ops, p, fmt, tenant, day);
    assert StoreRate(Run(p.k, Start(now), ops, fmt), fmt, tenant, day);
    UsageMetrics.LimiterKeyAttribution(tenant, fmt(day), month, tenant, map[]);
  }

  /**
    The exact condition: within its month, a day is reported in full if and only if
    nothing was paid for on it or its last call was counted less than 25 hours ago.
  */
  lemma ReportedInFullIffRecent(now: nat, ops: seq<Op>, p: Terms, fmt: nat -> string, tenant: string, day: nat, month: string)
    requires Days(fmt) && AllProper(p, ops) && AlwaysTimely(p.k, Start(now), ops, fmt) && Named(tenant) && month <= fmt(day)
    ensures var g := Run(p.k, Start(now), ops, fmt);
      Reported(g, fmt, tenant, day, month) >= Charges(g.paid, tenant, day)
      <==> Charges(g.paid, tenant, day) == 0 || g.now < LastCounted(g.counts, tenant, day) + RATE_TTL
  {
    ReportedExactly(now, ops, p, fmt, tenant, day, month);
  }

  /** In terms of days: today is always reported in full, and nothing of three days ago is any more. */
  lemma ReportSeesThreeDays(now: nat, ops: seq<Op>, p: Terms, fmt: nat -> string, tenant: string, day: nat, month: string)
    requires Days(fmt) && AllProper(p, ops) && AlwaysTimely(p.k, Start(now), ops, fmt) && Named(tenant)
    ensures var g := Run(p.k, Start(now), ops, fmt);
      && (day == g.now / DAY && month <= fmt(day) ==> Charges(g.paid, tenant, day) <= Reported(g, fmt, tenant, day, month))
      && (day + 3 <= g.now / DAY ==> Reported(g, fmt, tenant, day, month) == 0)
  {
    ReportedExactly(now, ops, p, fmt, tenant, day, month);
    GateRefinesLimiter(now, ops, p, fmt, tenant, day);
    var g := Run(p.k, Start(now), ops, fmt);
    assert StoreRate(g, fmt, tenant, day);
    SameDay(g.now);
  }

  /** So a paid call is missing from the report of its own month three days later. */
  lemma ReportForgetsCalls(k: nat, now: nat, tenant: string, fmt: nat -> string, month: string)
    requires k >= 1
    ensures var req := Request(tenant, "", "", true, false);
      var g := Run(k, Start(now), CallOps(0, req, ON, "") + [Tick(3 * DAY)], fmt);
      && Charges(g.paid, tenant, now / DAY) == 1
      && Reported(g, fmt, tenant, now / DAY, month) == 0
  {
    var req := Request(tenant, "", "", true, false);
    FirstCall(k, now, req, "", fmt);
    RunSnoc(k, Start(now), CallOps(0, req, ON, ""), Tick(3 * DAY), fmt);
    ChargesSnoc([], Paid(tenant, now / DAY), tenant, now / DAY);
    var g := Run(k, Start(now), CallOps(0, req, ON, "") + [Tick(3 * DAY)], fmt);
    assert forall key :: key in g.store ==> g.store[key].expiry <= now + ON.ttlMinutes * 60;
    assert Counters(g.store, g.now) == map[];
  }
}
