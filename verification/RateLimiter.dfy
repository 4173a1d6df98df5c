/**
  The daily rate limit of one tenant when calls overlap: the day is computed, the
  counter read, compared and incremented, and the model called, with an await
  between each. One key, for one tenant and one UTC day; what its callers pay is
  charged to that day, even after midnight. Time is in seconds.
*/
module RateLimiter {
  import opened Wrappers

  const KEY_TTL: nat := 90000
  const DAY: nat := 86400
  const GRACE: nat := KEY_TTL - DAY

  /**
    `entered` are the calls that computed today's key, with the time they did;
    `checked` those past the comparison, `counted` those past the increment that have
    not called the model. `increments` counts every INCR of the key, `paid` the model
    calls behind it.
  */
  datatype Limiter = Limiter(
    now: nat,
    day: nat,
    value: nat,
    expiry: nat,
    entered: map<nat, nat>,
    checked: set<nat>,
    counted: set<nat>,
    increments: nat,
    paid: nat)

  /** At most `k` calls are under way, and a GET is answered within `patience` or not at all. */
  datatype Params = Params(limit: nat, k: nat, patience: nat)

  datatype Step =
    | Tick(dt: nat)
    | Enter(id: nat)    // the key is computed from today's date
    | Check(id: nat)    // GET and compare
    | Incr(id: nat)     // INCR and EXPIRE
    | Pay(id: nat)      // the model is called
    | Cancel(id: nat)   // the call ends before that: no products, a disconnect, a crash

  /** What GET sees; an expired key reads as 0. */
  function Live(l: Limiter): nat {
    if l.now < l.expiry then l.value else 0
  }

  predicate InDay(l: Limiter) {
    l.now / DAY == l.day
  }

  function Size(l: Limiter): nat {
    |l.entered| + |l.checked| + |l.counted|
  }

  function Next(p: Params, l: Limiter, step: Step): Limiter {
    match step
    case Tick(dt) => l.(now := l.now + dt)
    case Enter(id) =>
      if !InDay(l) || id in l.entered || id in l.checked || id in l.counted || Size(l) >= p.k then l
      else l.(entered := l.entered[id := l.now])
    case Check(id) =>
      if id !in l.entered || l.now > l.entered[id] + p.patience then l
      else if Live(l) >= p.limit then l.(entered := l.entered - {id})
      else l.(entered := l.entered - {id}, checked := l.checked + {id})
    case Incr(id) =>
      if id !in l.checked then l
      else l.(value := Live(l) + 1, expiry := l.now + KEY_TTL, increments := l.increments + 1,
              checked := l.checked - {id}, counted := l.counted + {id})
    case Pay(id) =>
      if id !in l.counted then l else l.(counted := l.counted - {id}, paid := l.paid + 1)
    case Cancel(id) => l.(entered := l.entered - {id}, checked := l.checked - {id}, counted := l.counted - {id})
  }

  function Run(p: Params, l: Limiter, steps: seq<Step>): Limiter
    decreases |steps|
  {
    if steps == [] then l else Run(p, Next(p, l, steps[0]), steps[1..])
  }

  /** Before any call of the day. */
  ghost predicate Start(l: Limiter) {
    l.value == 0 && l.expiry == 0 && l.entered == map[] && l.checked == {} && l.counted == {} && l.increments == 0 && l.paid == 0
  }

  function Ceiling(limit: nat, k: nat): nat {
    if limit == 0 || k == 0 then 0 else limit + k - 1
  }

  ghost predicate Inv(p: Params, l: Limiter) {
    && l.entered.Keys !! l.checked && l.entered.Keys !! l.counted && l.checked !! l.counted
    && Size(l) <= p.k
    && l.paid + |l.counted| <= l.increments
    && l.increments + |l.checked| <= Ceiling(p.limit, p.k)
    && (forall id :: id in l.entered ==> l.entered[id] < (l.day + 1) * DAY)
    && (Size(l) > 0 || l.increments > 0 ==> l.now >= l.day * DAY)
    && (l.increments > 0 ==> l.expiry >= l.day * DAY + KEY_TTL)
    && (l.now < l.day * DAY + KEY_TTL ==> Live(l) == l.increments)
  }

  lemma SameDay(now: nat, day: nat)
    ensures now / DAY == day <==> day * DAY <= now < (day + 1) * DAY
  {
  }

  lemma Drop<T>(m: map<nat, T>, id: nat)
    ensures (m - {id}).Keys == m.Keys - {id} && |m - {id}| == if id in m then |m| - 1 else |m|
  {
    assert (m - {id}).Keys == m.Keys - {id};
  }

  lemma InvEnter(p: Params, l: Limiter, id: nat)
    requires Inv(p, l)
    ensures Inv(p, Next(p, l, Enter(id)))
  {
    SameDay(l.now, l.day);
    var l' := Next(p, l, Enter(id));
    if l' != l {
      assert l'.entered.Keys == l.entered.Keys + {id};
      assert |l'.entered| == |l.entered| + 1;
    }
  }

  /** A call answered in time reads the counter before it can expire. */
  lemma InvCheck(p: Params, l: Limiter, id: nat)
    requires Inv(p, l) && p.patience <= GRACE
    ensures Inv(p, Next(p, l, Check(id)))
  {
    Drop(l.entered, id);
  }

  lemma InvIncr(p: Params, l: Limiter, id: nat)
    requires Inv(p, l)
    ensures Inv(p, Next(p, l, Incr(id)))
  {
  }

  lemma InvCancel(p: Params, l: Limiter, id: nat)
    requires Inv(p, l)
    ensures Inv(p, Next(p, l, Cancel(id)))
  {
    Drop(l.entered, id);
    SubsetSize(l.checked - {id}, l.checked);
    SubsetSize(l.counted - {id}, l.counted);
  }

  lemma InvNext(p: Params, l: Limiter, step: Step)
    requires Inv(p, l) && p.patience <= GRACE
    ensures Inv(p, Next(p, l, step))
  {
    match step
    case Enter(id) => InvEnter(p, l, id);
    case Check(id) => InvCheck(p, l, id);
    case Incr(id) => InvIncr(p, l, id);
    case Cancel(id) => InvCancel(p, l, id);
    case _ =>
  }

  lemma {:induction false} InvRun(p: Params, l: Limiter, steps: seq<Step>)
    requires Inv(p, l) && p.patience <= GRACE
    ensures Inv(p, Run(p, l, steps))
    decreases |steps|
  {
    if steps != [] {
      InvNext(p, l, steps[0]);
      InvRun(p, Next(p, l, steps[0]), steps[1..]);
    }
  }

  /**
    While a GET takes at most the hour by which the key outlives its day: until the
    key can first expire the counter equals the increments made; the model calls paid
    for, with those about to be, are within the increments; and increments plus calls
    about to increment stay below limit + k. A limit of 0 lets nothing through.
  */
  lemma CounterBound(p: Params, l: Limiter, steps: seq<Step>)
    requires Start(l) && p.patience <= GRACE
    ensures var l' := Run(p, l, steps);
      && (l'.now < l'.day * DAY + KEY_TTL ==> Live(l') == l'.increments)
      && l'.paid + |l'.counted| <= l'.increments
      && l'.increments + |l'.checked| <= Ceiling(p.limit, p.k)
  {
    InvRun(p, l, steps);
  }

  // ----- The bound is reached -----

  function Sequential(n: nat): seq<Step> {
    if n == 0 then [] else [Enter(0), Check(0)] + ([Incr(0), Pay(0)] + Sequential(n - 1))
  }

  function Checks(n: nat): seq<Step> {
    if n == 0 then [] else Checks(n - 1) + [Enter(n - 1), Check(n - 1)]
  }

  function Payments(n: nat): seq<Step> {
    if n == 0 then [] else [Incr(n - 1), Pay(n - 1)] + Payments(n - 1)
  }

  function Ids(n: nat): (ids: set<nat>)
    ensures |ids| == n
    ensures forall id: nat :: id in ids <==> id < n
  {
    if n == 0 then {} else Ids(n - 1) + {n - 1}
  }

  lemma {:induction false} RunConcat(p: Params, l: Limiter, a: seq<Step>, b: seq<Step>)
    ensures Run(p, l, a + b) == Run(p, Run(p, l, a), b)
    decreases |a|
  {
    if a == [] {
      assert a + b == b;
    } else {
      assert (a + b)[0] == a[0] && (a + b)[1..] == a[1..] + b;
      RunConcat(p, Next(p, l, a[0]), a[1..], b);
    }
  }

  lemma RunTwo(p: Params, l: Limiter, a: Step, b: Step)
    ensures Run(p, l, [a, b]) == Next(p, Next(p, l, a), b)
  {
    assert [a, b][1..] == [b];
    assert Run(p, Next(p, l, a), [b]) == Next(p, Next(p, l, a), b);
  }

  /** A counter incremented and paid n times. */
  ghost predicate At(l: Limiter, n: nat, checked: set<nat>) {
    Live(l) == n && l.increments == n && l.paid == n && l.entered == map[] && l.checked == checked && l.counted == {}
  }

  /** A call enters and passes its check at once. */
  lemma PassOnce(p: Params, l: Limiter, id: nat, done: nat)
    requires InDay(l) && At(l, done, l.checked) && done < p.limit && |l.checked| < p.k && id !in l.checked
    ensures Run(p, l, [Enter(id), Check(id)]) == l.(checked := l.checked + {id})
  {
    RunTwo(p, l, Enter(id), Check(id));
    assert l.entered[id := l.now] - {id} == map[];
  }

  lemma PayOnce(p: Params, l: Limiter, id: nat, done: nat)
    requires At(l, done, l.checked) && id in l.checked
    ensures var l' := Run(p, l, [Incr(id), Pay(id)]);
      && At(l', done + 1, l.checked - {id})
      && l'.now == l.now && l'.day == l.day && l'.expiry == l.now + KEY_TTL
  {
    RunTwo(p, l, Incr(id), Pay(id));
    var l1 := Next(p, l, Incr(id));
    assert l1.counted == {id};
  }

  lemma {:induction false} SequentialRun(p: Params, l: Limiter, n: nat, done: nat)
    requires p.k >= 1 && done + n <= p.limit && InDay(l) && At(l, done, {})
    ensures var l' := Run(p, l, Sequential(n));
      && At(l', done + n, {})
      && l'.now == l.now && l'.day == l.day && l'.expiry == if n > 0 then l.now + KEY_TTL else l.expiry
    decreases n
  {
    if n > 0 {
      var rest := [Incr(0), Pay(0)] + Sequential(n - 1);
      RunConcat(p, l, [Enter(0), Check(0)], rest);
      PassOnce(p, l, 0, done);
      var l1 := l.(checked := {0});
      assert l.checked + {0} == {0};
      RunConcat(p, l1, [Incr(0), Pay(0)], Sequential(n - 1));
      PayOnce(p, l1, 0, done);
      var l2 := Run(p, l1, [Incr(0), Pay(0)]);
      assert l2.checked == {};
      SequentialRun(p, l2, n - 1, done + 1);
    }
  }

  lemma {:induction false} ChecksRun(p: Params, l: Limiter, n: nat, done: nat)
    requires n <= p.k && done < p.limit && InDay(l) && At(l, done, {})
    ensures Run(p, l, Checks(n)) == l.(checked := Ids(n))
    decreases n
  {
    if n > 0 {
      ChecksRun(p, l, n - 1, done);
      RunConcat(p, l, Checks(n - 1), [Enter(n - 1), Check(n - 1)]);
      PassOnce(p, l.(checked := Ids(n - 1)), n - 1, done);
    } else {
      assert Ids(0) == {};
    }
  }

  lemma {:induction false} PaymentsRun(p: Params, l: Limiter, n: nat, done: nat)
    requires At(l, done, Ids(n))
    ensures At(Run(p, l, Payments(n)), done + n, {})
    decreases n
  {
    if n > 0 {
      PayOnce(p, l, n - 1, done);
      RunConcat(p, l, [Incr(n - 1), Pay(n - 1)], Payments(n - 1));
      assert Ids(n) - {n - 1} == Ids(n - 1);
      PaymentsRun(p, Run(p, l, [Incr(n - 1), Pay(n - 1)]), n - 1, done + 1);
    }
  }

  /** All but one of the calls allowed, then k at once. */
  function Burst(p: Params): seq<Step>
    requires p.limit >= 1
  {
    Sequential(p.limit - 1) + (Checks(p.k) + Payments(p.k))
  }

  /** k overlapping calls can make the day cost limit + k - 1 model calls, even if no command takes any time. */
  lemma BoundIsReached(p: Params, l: Limiter)
    requires Start(l) && InDay(l) && p.limit >= 1 && p.k >= 1
    ensures Run(p, l, Burst(p)).paid == Run(p, l, Burst(p)).increments == Ceiling(p.limit, p.k)
  {
    SequentialRun(p, l, p.limit - 1, 0);
    var l1 := Run(p, l, Sequential(p.limit - 1));
    ChecksRun(p, l1, p.k, p.limit - 1);
    var l2 := l1.(checked := Ids(p.k));
    RunConcat(p, l, Sequential(p.limit - 1), Checks(p.k) + Payments(p.k));
    RunConcat(p, l1, Checks(p.k), Payments(p.k));
    assert At(l2, p.limit - 1, Ids(p.k));
    PaymentsRun(p, l2, p.k, p.limit - 1);
  }

  /** A full day's calls at its first second, then one that computes its key in the last and reads it when it is gone. */
  function Straddle(limit: nat): seq<Step> {
    Sequential(limit) + ([Tick(DAY - 1), Enter(0)] + ([Tick(GRACE + 1), Check(0)] + [Incr(0), Pay(0)]))
  }

  lemma LateCheckExceeds(p: Params, l: Limiter)
    requires Start(l) && l.now == l.day * DAY && p.limit >= 1 && p.k >= 1 && p.patience > GRACE
    ensures Run(p, l, Straddle(p.limit)).paid == p.limit + 1
  {
    SameDay(l.now, l.day);
    SequentialRun(p, l, p.limit, 0);
    var l1 := Run(p, l, Sequential(p.limit));
    SameDay(l1.now + (DAY - 1), l.day);
    var tail := [Tick(GRACE + 1), Check(0)] + [Incr(0), Pay(0)];
    RunConcat(p, l, Sequential(p.limit), [Tick(DAY - 1), Enter(0)] + tail);
    RunConcat(p, l1, [Tick(DAY - 1), Enter(0)], tail);
    RunTwo(p, l1, Tick(DAY - 1), Enter(0));
    var l2 := Run(p, l1, [Tick(DAY - 1), Enter(0)]);
    assert l2.entered == map[0 := l.now + (DAY - 1)];
    RunConcat(p, l2, [Tick(GRACE + 1), Check(0)], [Incr(0), Pay(0)]);
    RunTwo(p, l2, Tick(GRACE + 1), Check(0));
    var l3 := Run(p, l2, [Tick(GRACE + 1), Check(0)]);
    assert Live(l3) == 0 && 0 in l3.checked;
    RunTwo(p, l3, Incr(0), Pay(0));
  }

  /**
    The exact condition for the documented daily limit on paid calls: nothing is
    allowed at all, or a tenant's calls do not overlap and no GET is answered more
    than an hour after its key was computed.
  */
  lemma DailyLimitIffSequentialAndPrompt(p: Params, l: Limiter)
    requires Start(l) && l.now == l.day * DAY
    ensures (forall steps :: Run(p, l, steps).paid <= p.limit) <==> p.limit == 0 || p.k == 0 || (p.k == 1 && p.patience <= GRACE)
  {
    SameDay(l.now, l.day);
    if p.limit == 0 || p.k == 0 {
      forall steps
        ensures Run(p, l, steps).paid <= p.limit
      {
        NothingPasses(p, l, steps);
      }
    } else if p.k > 1 {
      BoundIsReached(p, l);
      assert Run(p, l, Burst(p)).paid > p.limit;
    } else if p.patience > GRACE {
      LateCheckExceeds(p, l);
    } else {
      forall steps
        ensures Run(p, l, steps).paid <= p.limit
      {
        CounterBound(p, l, steps);
      }
    }
  }

  lemma {:induction false} NothingPasses(p: Params, l: Limiter, steps: seq<Step>)
    requires (p.limit == 0 || (p.k == 0 && l.entered == map[])) && l.checked == {} && l.counted == {} && l.paid == 0
    ensures Run(p, l, steps).paid == 0
    decreases |steps|
  {
    if steps != [] {
      NothingPasses(p, Next(p, l, steps[0]), steps[1..]);
    }
  }
}
