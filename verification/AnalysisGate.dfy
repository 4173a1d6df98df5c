/**
  `analyze_pnl`: configuration, session cache, rate limit, the paid model call and
  the two saves, over the string-keyed Redis it shares with the settings service.

  A call is cut at its awaits, and calls interleave at will, up to `k` at a time of
  each tenant. Time is in seconds, and `fmt` prints the UTC day.
*/
module AnalysisGate {
  import opened Wrappers
  import opened CacheKeys
  import UsageMetrics

  const DAY: nat := 86400
  const RATE_TTL: nat := 90000
  const LAST_TTL: nat := 86400

  datatype Source = FreshCall | SessionCache | LastSaved

  /** A parsed answer and the marker fields that say where it was served from. */
  datatype Analysis = Analysis(body: string, isCached: bool, cachedAt: Option<nat>, source: Source)

  datatype Value = Count(n: nat) | Session(saved: Analysis) | Last(saved: Analysis, at: nat)

  datatype Entry = Entry(value: Value, expiry: nat)

  type Store = map<string, Entry>

  function Get(store: Store, key: string, now: nat): Option<Value> {
    if key in store && now < store[key].expiry then Some(store[key].value) else None
  }

  datatype Config = Config(keySet: bool, enabled: bool, pnlEnabled: bool, cacheEnabled: bool, ttlMinutes: int, limit: nat)

  datatype Request = Request(tenant: string, from: string, to: string, hasProducts: bool, force: bool)

  /** How the model call ends. */
  datatype Answer = Raises | Unparsable | Parsed(body: string)

  datatype Outcome =
    | NotConfigured | Disabled | RateLimited
    | Served(analysis: Analysis)
    | NoProducts | Uninterpretable | ModelError
    | CacheError       // SETEX refuses a lifetime that is not positive
    | Corrupt          // a key holds a value of another kind

  /** A fresh analysis, saved as its tenant's last one at time `at`. */
  datatype Fresh = Fresh(tenant: string, from: string, to: string, analysis: Analysis, at: nat)

  /** An INCR of a tenant's counter of a day. */
  datatype Counted = Counted(tenant: string, day: nat, at: nat)

  /** A model call, charged to the day whose counter let it through. */
  datatype Paid = Paid(tenant: string, day: nat)

  /** Where a call stands between two awaits. */
  datatype Stage =
    | Checking(day: nat, since: nat) // not served from the session cache, the day's key computed: its GET is next
    | Falling                        // over the limit: the last analysis is next
    | Counting(day: nat, since: nat) // below the limit: INCR and EXPIRE are next
    | Dropping(day: nat)             // counted and forced: the session entry is deleted next
    | Asking(day: nat)               // counted: the memory is read and the model called next
    | Waiting                        // the model was called
    | Saving(body: string)           // its answer was parsed: saved as the last analysis next
    | Remembering(made: Fresh)       // saved: the update of the tenant's memory is next (see `MemoryOverlap`)
    | Caching(made: Fresh)           // kept for the session next

  datatype Flight = Flight(req: Request, cfg: Config, stage: Stage)

  /**
    `flights` holds the running calls. The logs are the INCRs, the model calls, the
    analyses saved and, of those, the ones kept for the session.
  */
  datatype Gate = Gate(
    now: nat,
    store: Store,
    flights: map<nat, Flight>,
    counts: seq<Counted>,
    paid: seq<Paid>,
    history: seq<Fresh>,
    kept: seq<Fresh>)

  datatype Op =
    | Tick(dt: nat)
    | Begin(id: nat, req: Request, cfg: Config)
    | Continue(id: nat, answer: Answer)  // up to the next await; only a waiting call reads the answer
    | Cancel(id: nat)
    | DeleteLast(tenant: string)
    | ClearCaches

  // ----- The stages of a call -----

  function Stay(g: Gate, id: nat, stage: Stage): Gate
    requires id in g.flights
  {
    g.(flights := g.flights[id := g.flights[id].(stage := stage)])
  }

  function Finish(g: Gate, id: nat): Gate {
    g.(flights := g.flights - {id})
  }

  function NewAnalysis(body: string): Analysis {
    Analysis(body, false, None, FreshCall)
  }

  function SessionKeyOf(req: Request): string {
    SessionKey(req.tenant, req.from, req.to)
  }

  function CallsOf(flights: map<nat, Flight>, tenant: string): set<nat> {
    set id | id in flights && flights[id].req.tenant == tenant
  }

  /** Configuration, session cache and the key of the day's counter. */
  function BeginCall(k: nat, g: Gate, id: nat, req: Request, cfg: Config): (Gate, Option<Outcome>) {
    if id in g.flights || |CallsOf(g.flights, req.tenant)| >= k then (g, None)
    else if !cfg.keySet then (g, Some(NotConfigured))
    else if !cfg.enabled || !cfg.pnlEnabled then (g, Some(Disabled))
    else
      var cached := if !req.force && cfg.cacheEnabled then Get(g.store, SessionKeyOf(req), g.now) else None;
      if cached.Some? then
        (g, Some(if cached.value.Session? then Served(cached.value.saved.(isCached := true, source := SessionCache)) else Corrupt))
      else
        (g.(flights := g.flights[id := Flight(req, cfg, Checking(g.now / DAY, g.now))]), None)
  }

  /** What GET reads of a counter: a missing or expired key counts as 0. */
  function ReadCount(store: Store, key: string, now: nat): Option<nat> {
    var current := Get(store, key, now);
    if current.None? then Some(0) else if current.value.Count? then Some(current.value.n) else None
  }

  /** _check_rate_limit up to its comparison. */
  function CheckCall(g: Gate, id: nat, day: nat, since: nat, fmt: nat -> string): (Gate, Option<Outcome>)
    requires id in g.flights
  {
    var count := ReadCount(g.store, RateKey(g.flights[id].req.tenant, fmt(day)), g.now);
    if count.None? then (Finish(g, id), Some(Corrupt))
    else if count.value >= g.flights[id].cfg.limit then (Stay(g, id, Falling), None)
    else (Stay(g, id, Counting(day, since)), None)
  }

  /** Its pipeline, and what follows without an await. */
  function CountCall(g: Gate, id: nat, day: nat, fmt: nat -> string): (Gate, Option<Outcome>)
    requires id in g.flights
  {
    var tenant := g.flights[id].req.tenant;
    var key := RateKey(tenant, fmt(day));
    var count := ReadCount(g.store, key, g.now);
    if count.None? then (Finish(g, id), Some(Corrupt))
    else
      var counted := g.(store := g.store[key := Entry(Count(count.value + 1), g.now + RATE_TTL)],
                        counts := g.counts + [Counted(tenant, day, g.now)]);
      if g.flights[id].req.force then (Stay(counted, id, Dropping(day)), None) else Validate(counted, id, day)
  }

  function Validate(g: Gate, id: nat, day: nat): (Gate, Option<Outcome>)
    requires id in g.flights
  {
    if g.flights[id].req.hasProducts then (Stay(g, id, Asking(day)), None) else (Finish(g, id), Some(NoProducts))
  }

  /** The last saved analysis, if it can still be read. */
  function GetLast(store: Store, tenant: string, now: nat): Option<Analysis> {
    var raw := Get(store, LastKey(tenant), now);
    if raw.Some? && raw.value.Last?
    then Some(raw.value.saved.(isCached := true, cachedAt := Some(raw.value.at), source := LastSaved))
    else None
  }

  function FallBackCall(g: Gate, id: nat): (Gate, Option<Outcome>)
    requires id in g.flights
  {
    var last := GetLast(g.store, g.flights[id].req.tenant, g.now);
    (Finish(g, id), Some(if last.Some? then Served(last.value) else RateLimited))
  }

  function AnswerCall(g: Gate, id: nat, answer: Answer): (Gate, Option<Outcome>)
    requires id in g.flights
  {
    match answer
    case Raises => (Finish(g, id), Some(ModelError))
    case Unparsable => (Finish(g, id), Some(Uninterpretable))
    case Parsed(body) => (Stay(g, id, Saving(body)), None)
  }

  function SaveCall(g: Gate, id: nat, body: string): (Gate, Option<Outcome>)
    requires id in g.flights
  {
    var req := g.flights[id].req;
    var made := Fresh(req.tenant, req.from, req.to, NewAnalysis(body), g.now);
    (Stay(g.(store := g.store[LastKey(req.tenant) := Entry(Last(made.analysis, g.now), g.now + LAST_TTL)],
             history := g.history + [made]),
          id, Remembering(made)),
     None)
  }

  /** The memory update is over, for better or worse. */
  function RememberCall(g: Gate, id: nat, made: Fresh): (Gate, Option<Outcome>)
    requires id in g.flights
  {
    if g.flights[id].cfg.cacheEnabled then (Stay(g, id, Caching(made)), None) else (Finish(g, id), Some(Served(made.analysis)))
  }

  function KeepCall(g: Gate, id: nat, made: Fresh): (Gate, Option<Outcome>)
    requires id in g.flights
  {
    var cfg := g.flights[id].cfg;
    if cfg.ttlMinutes <= 0 then (Finish(g, id), Some(CacheError))
    else
      var entry := Entry(Session(made.analysis), g.now + cfg.ttlMinutes * 60);
      (Finish(g.(store := g.store[SessionKeyOf(g.flights[id].req) := entry], kept := g.kept + [made]), id),
       Some(Served(made.analysis)))
  }

  function ContinueCall(g: Gate, id: nat, answer: Answer, fmt: nat -> string): (Gate, Option<Outcome>) {
    if id !in g.flights then (g, None)
    else match g.flights[id].stage
      case Checking(day, since) => CheckCall(g, id, day, since, fmt)
      case Falling => FallBackCall(g, id)
      case Counting(day, since) => CountCall(g, id, day, fmt)
      case Dropping(day) => Validate(g.(store := g.store - {SessionKeyOf(g.flights[id].req)}), id, day)
      case Asking(day) => (Stay(g.(paid := g.paid + [Paid(g.flights[id].req.tenant, day)]), id, Waiting), None)
      case Waiting => AnswerCall(g, id, answer)
      case Saving(body) => SaveCall(g, id, body)
      case Remembering(made) => RememberCall(g, id, made)
      case Caching(made) => KeepCall(g, id, made)
  }

  /** What clear_all_caches leaves. */
  function Remaining(store: Store): Store {
    store - (set key | key in store && UsageMetrics.Cleared(key))
  }

  /** A step, and the outcome a call ends with in it. */
  function Step(k: nat, g: Gate, op: Op, fmt: nat -> string): (Gate, Option<Outcome>) {
    match op
    case Tick(dt) => (g.(now := g.now + dt), None)
    case Begin(id, req, cfg) => BeginCall(k, g, id, req, cfg)
    case Continue(id, answer) => ContinueCall(g, id, answer, fmt)
    case Cancel(id) => (Finish(g, id), None)
    case DeleteLast(tenant) => (g.(store := g.store - {LastKey(tenant)}), None)
    case ClearCaches => (g.(store := Remaining(g.store)), None)
  }

  function Next(k: nat, g: Gate, op: Op, fmt: nat -> string): Gate {
    Step(k, g, op, fmt).0
  }

  function Emitted(k: nat, g: Gate, op: Op, fmt: nat -> string): Option<Outcome> {
    Step(k, g, op, fmt).1
  }

  function Run(k: nat, g: Gate, ops: seq<Op>, fmt: nat -> string): Gate
    decreases |ops|
  {
    if ops == [] then g else Run(k, Next(k, g, ops[0], fmt), ops[1..], fmt)
  }

  lemma {:induction false} RunConcat(k: nat, g: Gate, a: seq<Op>, b: seq<Op>, fmt: nat -> string)
    ensures Run(k, g, a + b, fmt) == Run(k, Run(k, g, a, fmt), b, fmt)
    decreases |a|
  {
    if a == [] {
      assert a + b == b;
    } else {
      assert (a + b)[0] == a[0] && (a + b)[1..] == a[1..] + b;
      RunConcat(k, Next(k, g, a[0], fmt), a[1..], b, fmt);
    }
  }

  lemma RunSnoc(k: nat, g: Gate, ops: seq<Op>, op: Op, fmt: nat -> string)
    ensures Run(k, g, ops + [op], fmt) == Next(k, Run(k, g, ops, fmt), op, fmt)
  {
    RunConcat(k, g, ops, [op], fmt);
    assert Run(k, Run(k, g, ops, fmt), [op], fmt) == Next(k, Run(k, g, ops, fmt), op, fmt);
  }

  /** The last step ends a call with this outcome. */
  ghost predicate EndsWith(k: nat, g: Gate, ops: seq<Op>, outcome: Outcome, fmt: nat -> string) {
    ops != [] && Emitted(k, Run(k, g, ops[..|ops| - 1], fmt), ops[|ops| - 1], fmt) == Some(outcome)
  }

  lemma EndsSnoc(k: nat, g: Gate, ops: seq<Op>, op: Op, outcome: Outcome, fmt: nat -> string)
    requires Emitted(k, Run(k, g, ops, fmt), op, fmt) == Some(outcome)
    ensures EndsWith(k, g, ops + [op], outcome, fmt) && Run(k, g, ops + [op], fmt) == Next(k, Run(k, g, ops, fmt), op, fmt)
  {
    RunSnoc(k, g, ops, op, fmt);
    assert (ops + [op])[..|ops + [op]| - 1] == ops;
  }

  // ----- A call in closed form -----

  /** The gate apart from the running calls. */
  datatype Books = Books(now: nat, store: Store, counts: seq<Counted>, paid: seq<Paid>, history: seq<Fresh>, kept: seq<Fresh>)

  function BooksOf(g: Gate): Books {
    Books(g.now, g.store, g.counts, g.paid, g.history, g.kept)
  }

  predicate LiveEntry(b: Books, key: string) {
    key in b.store && b.now < b.store[key].expiry
  }

  /** The session cache, past the memory update. */
  function Keeps(b: Books, req: Request, cfg: Config, made: Fresh): (Books, Outcome) {
    if !cfg.cacheEnabled then (b, Served(made.analysis))
    else if cfg.ttlMinutes <= 0 then (b, CacheError)
    else
      (b.(store := b.store[SessionKey(req.tenant, req.from, req.to) := Entry(Session(made.analysis), b.now + cfg.ttlMinutes * 60)],
          kept := b.kept + [made]),
       Served(made.analysis))
  }

  function Saves(b: Books, req: Request, cfg: Config, body: string): (Books, Outcome) {
    var analysis := Analysis(body, false, None, FreshCall);
    var made := Fresh(req.tenant, req.from, req.to, analysis, b.now);
    Keeps(b.(store := b.store[LastKey(req.tenant) := Entry(Last(analysis, b.now), b.now + 86400)], history := b.history + [made]), req, cfg, made)
  }

  function Answers(b: Books, req: Request, cfg: Config, answer: Answer): (Books, Outcome) {
    match answer
    case Raises => (b, ModelError)
    case Unparsable => (b, Uninterpretable)
    case Parsed(body) => Saves(b, req, cfg, body)
  }

  function Pays(b: Books, req: Request, cfg: Config, answer: Answer, wait: nat, day: nat): (Books, Outcome) {
    Answers(b.(paid := b.paid + [Paid(req.tenant, day)], now := b.now + wait), req, cfg, answer)
  }

  function Validates(b: Books, req: Request, cfg: Config, answer: Answer, wait: nat, day: nat): (Books, Outcome) {
    if req.hasProducts then Pays(b, req, cfg, answer, wait, day) else (b, NoProducts)
  }

  function Drops(b: Books, req: Request, cfg: Config, answer: Answer, wait: nat, day: nat): (Books, Outcome) {
    Validates(b.(store := b.store - {SessionKey(req.tenant, req.from, req.to)}), req, cfg, answer, wait, day)
  }

  function CountsAndCalls(b: Books, req: Request, cfg: Config, answer: Answer, wait: nat, key: string, day: nat): (Books, Outcome) {
    if LiveEntry(b, key) && !b.store[key].value.Count? then (b, Corrupt)
    else
      var n := if LiveEntry(b, key) then b.store[key].value.n else 0;
      var counted := b.(store := b.store[key := Entry(Count(n + 1), b.now + 90000)], counts := b.counts + [Counted(req.tenant, day, b.now)]);
      if req.force then Drops(counted, req, cfg, answer, wait, day) else Validates(counted, req, cfg, answer, wait, day)
  }

  function FallsBack(b: Books, req: Request): Outcome {
    var key := LastKey(req.tenant);
    if LiveEntry(b, key) && b.store[key].value.Last?
    then Served(Analysis(b.store[key].value.saved.body, true, Some(b.store[key].value.at), LastSaved))
    else RateLimited
  }

  function Limits(b: Books, req: Request, cfg: Config, answer: Answer, wait: nat, key: string, day: nat): (Books, Outcome) {
    if LiveEntry(b, key) && !b.store[key].value.Count? then (b, Corrupt)
    else if (if LiveEntry(b, key) then b.store[key].value.n else 0) >= cfg.limit then (b, FallsBack(b, req))
    else CountsAndCalls(b, req, cfg, answer, wait, key, day)
  }

  /**
    A whole call, with nothing else happening but `wait` seconds at the model, in terms
    of store, clock and logs: configuration, session cache, limit and fallback, counter,
    products, model, saves.
  */
  function Analyzes(b: Books, req: Request, cfg: Config, answer: Answer, wait: nat, fmt: nat -> string): (Books, Outcome) {
    var session := SessionKey(req.tenant, req.from, req.to);
    if !cfg.keySet then (b, NotConfigured)
    else if !cfg.enabled || !cfg.pnlEnabled then (b, Disabled)
    else if !req.force && cfg.cacheEnabled && LiveEntry(b, session) then
      (b, if b.store[session].value.Session?
          then Served(Analysis(b.store[session].value.saved.body, true, b.store[session].value.saved.cachedAt, SessionCache))
          else Corrupt)
    else Limits(b, req, cfg, answer, wait, RateKey(req.tenant, fmt(b.now / 86400)), b.now / 86400)
  }

  /** Nothing else in the store changed: other tenants' entries above all. */
  ghost predicate OnlyTouched(was: Store, after: Store, keys: set<string>) {
    forall key | key !in keys :: (key in was <==> key in after) && (key in was ==> after[key] == was[key])
  }

  /** So a call touches at most its own three entries, counts once, pays at most what it counted and saves at most what it paid. */
  lemma CallFootprint(b: Books, b': Books, req: Request, cfg: Config, answer: Answer, wait: nat, fmt: nat -> string)
    requires b' == Analyzes(b, req, cfg, answer, wait, fmt).0
    ensures OnlyTouched(b.store, b'.store, {RateKey(req.tenant, fmt(b.now / DAY)), SessionKeyOf(req), LastKey(req.tenant)})
    ensures |b'.paid| - |b.paid| <= |b'.counts| - |b.counts| <= 1
    ensures |b'.kept| - |b.kept| <= |b'.history| - |b.history| <= |b'.paid| - |b.paid|
  {
  }

  // ----- The steps of one call -----

  /** A call with its circumstances, and the steps from `start` so far. */
  datatype Trace = Trace(k: nat, start: Gate, id: nat, req: Request, cfg: Config, answer: Answer, wait: nat, ops: seq<Op>)

  /** The call begins with its own request and configuration and then only goes on, or waits for the model. */
  ghost predicate Own(t: Trace) {
    && t.ops != [] && t.ops[0] == Begin(t.id, t.req, t.cfg)
    && forall i :: 1 <= i < |t.ops| ==> t.ops[i] == Continue(t.id, t.answer) || t.ops[i] == Tick(t.wait)
  }

  function Then(t: Trace, op: Op): Trace {
    t.(ops := t.ops + [op])
  }

  /** Where the steps lead. */
  function Gated(t: Trace, fmt: nat -> string): Gate {
    Run(t.k, t.start, t.ops, fmt)
  }

  /** The last of the call's own steps ends it. */
  ghost predicate Ended(t: Trace, outcome: Outcome, fmt: nat -> string) {
    Own(t) && EndsWith(t.k, t.start, t.ops, outcome, fmt)
  }

  lemma Goes(t: Trace, op: Op, fmt: nat -> string)
    requires Own(t) && (op == Continue(t.id, t.answer) || op == Tick(t.wait))
    ensures Own(Then(t, op)) && Gated(Then(t, op), fmt) == Next(t.k, Gated(t, fmt), op, fmt)
  {
    RunSnoc(t.k, t.start, t.ops, op, fmt);
  }

  lemma Stops(t: Trace, outcome: Outcome, fmt: nat -> string)
    requires Own(t) && Emitted(t.k, Gated(t, fmt), Continue(t.id, t.answer), fmt) == Some(outcome)
    ensures Ended(Then(t, Continue(t.id, t.answer)), outcome, fmt)
    ensures Gated(Then(t, Continue(t.id, t.answer)), fmt) == Next(t.k, Gated(t, fmt), Continue(t.id, t.answer), fmt)
  {
    EndsSnoc(t.k, t.start, t.ops, Continue(t.id, t.answer), outcome, fmt);
  }

  lemma Begins(t: Trace, fmt: nat -> string)
    requires t.ops == [Begin(t.id, t.req, t.cfg)]
    ensures Own(t) && Gated(t, fmt) == Next(t.k, t.start, t.ops[0], fmt)
    ensures Emitted(t.k, t.start, t.ops[0], fmt).Some? ==> Ended(t, Emitted(t.k, t.start, t.ops[0], fmt).value, fmt)
  {
    assert Run(t.k, t.start, t.ops, fmt) == Next(t.k, t.start, t.ops[0], fmt);
    assert t.ops[..0] == [] && Run(t.k, t.start, [], fmt) == t.start;
  }

  /** GET and comparison of the call. */
  lemma Checks(t: Trace, day: nat, since: nat, fmt: nat -> string)
    requires Own(t) && t.id in Gated(t, fmt).flights && Gated(t, fmt).flights[t.id] == Flight(t.req, t.cfg, Checking(day, since))
    ensures var t', step := Then(t, Continue(t.id, t.answer)), CheckCall(Gated(t, fmt), t.id, day, since, fmt);
      Own(t') && Gated(t', fmt) == step.0 && (step.1.Some? ==> Ended(t', step.1.value, fmt))
  {
    Goes(t, Continue(t.id, t.answer), fmt);
    if CheckCall(Gated(t, fmt), t.id, day, since, fmt).1.Some? {
      Stops(t, CheckCall(Gated(t, fmt), t.id, day, since, fmt).1.value, fmt);
    }
  }

  /** INCR and EXPIRE of the call, and what follows without an await. */
  lemma Increments(t: Trace, day: nat, since: nat, fmt: nat -> string)
    requires Own(t) && t.id in Gated(t, fmt).flights && Gated(t, fmt).flights[t.id] == Flight(t.req, t.cfg, Counting(day, since))
    ensures var t', step := Then(t, Continue(t.id, t.answer)), CountCall(Gated(t, fmt), t.id, day, fmt);
      Own(t') && Gated(t', fmt) == step.0 && (step.1.Some? ==> Ended(t', step.1.value, fmt))
  {
    Goes(t, Continue(t.id, t.answer), fmt);
    if CountCall(Gated(t, fmt), t.id, day, fmt).1.Some? {
      Stops(t, CountCall(Gated(t, fmt), t.id, day, fmt).1.value, fmt);
    }
  }

  // ----- The service as written -----

  class AnalysisService {
    const fmt: nat -> string
    var now: nat
    var store: Store
    ghost var flights: map<nat, Flight>
    ghost var counts: seq<Counted>
    ghost var paid: seq<Paid>
    ghost var history: seq<Fresh>
    ghost var kept: seq<Fresh>

    ghost function View(): Gate
      reads this
    {
      Gate(now, store, flights, counts, paid, history, kept)
    }

    /** The call of `t` has come to `stage`. */
    ghost predicate Reached(t: Trace, stage: Stage)
      reads this
    {
      t.id in flights && flights[t.id] == Flight(t.req, t.cfg, stage) && Own(t) && View() == Gated(t, fmt)
    }

    constructor (now: nat, store: Store, fmt: nat -> string)
      ensures View() == Gate(now, store, map[], [], [], [], []) && this.fmt == fmt
    {
      this.now, this.store, this.fmt := now, store, fmt;
      flights, counts, paid, history, kept := map[], [], [], [], [];
    }

    /** A whole call: a path of the machine made of its own steps, with its outcome and effects in closed form. */
    method AnalyzePnl(ghost k: nat, ghost id: nat, req: Request, cfg: Config, answer: Answer, wait: nat)
      returns (outcome: Outcome, ghost trace: seq<Op>)
      requires id !in flights && |CallsOf(flights, req.tenant)| < k
      modifies this
      ensures Ended(Trace(k, old(View()), id, req, cfg, answer, wait, trace), outcome, fmt)
      ensures View() == Run(k, old(View()), trace, fmt)
      ensures (BooksOf(View()), outcome) == Analyzes(old(BooksOf(View())), req, cfg, answer, wait, fmt)
      ensures OnlyTouched(old(store), store, {RateKey(req.tenant, fmt(old(now) / DAY)), SessionKeyOf(req), LastKey(req.tenant)})
      ensures flights == old(flights)
      ensures |paid| - |old(paid)| <= |counts| - |old(counts)| <= 1
      ensures |kept| - |old(kept)| <= |history| - |old(history)| <= |paid| - |old(paid)|
    {
      ghost var g0 := View();
      ghost var t := Trace(k, g0, id, req, cfg, answer, wait, [Begin(id, req, cfg)]);
      Begins(t, fmt);
      assert Step(k, g0, t.ops[0], fmt) == BeginCall(k, g0, id, req, cfg);
      if !cfg.keySet {
        outcome := NotConfigured;
      } else if !cfg.enabled || !cfg.pnlEnabled {
        outcome := Disabled;
      } else {
        var cached := None;
        if !req.force && cfg.cacheEnabled {
          cached := Get(store, SessionKeyOf(req), now);
        }
        if cached.Some? {
          outcome := if cached.value.Session? then Served(cached.value.saved.(isCached := true, source := SessionCache)) else Corrupt;
        } else {
          flights := flights[id := Flight(req, cfg, Checking(now / DAY, now))];
          outcome, t := CheckRateLimit(req, cfg, answer, wait, now / DAY, t);
          assert flights == g0.flights;
        }
      }
      trace := t.ops;
      CallFootprint(BooksOf(g0), BooksOf(View()), req, cfg, answer, wait, fmt);
    }

    /** GET and compare; the call goes on to the counter, or falls back. */
    method CheckRateLimit(req: Request, cfg: Config, answer: Answer, wait: nat, day: nat, ghost t: Trace) returns (outcome: Outcome, ghost t': Trace)
      requires Reached(t, Checking(day, now)) && t == Trace(t.k, t.start, t.id, req, cfg, answer, wait, t.ops)
      modifies this
      ensures t' == t.(ops := t'.ops) && Ended(t', outcome, fmt) && View() == Gated(t', fmt) && flights == old(flights) - {t.id}
      ensures (BooksOf(View()), outcome) == Limits(old(BooksOf(View())), req, cfg, answer, wait, RateKey(req.tenant, fmt(day)), day)
    {
      Checks(t, day, now, fmt);
      t' := Then(t, Continue(t.id, answer));
      var rateKey := RateKey(req.tenant, fmt(day));
      var current := Get(store, rateKey, now);
      if current.Some? && !current.value.Count? {
        flights := flights - {t.id};
        return Corrupt, t';
      }
      var count := if current.Some? then current.value.n else 0;
      if count >= cfg.limit {
        flights := flights[t.id := flights[t.id].(stage := Falling)];
        outcome, t' := FallBack(req, t');
      } else {
        flights := flights[t.id := flights[t.id].(stage := Counting(day, now))];
        outcome, t' := CountAndCall(req, cfg, answer, wait, day, now, rateKey, t');
      }
    }

    method FallBack(req: Request, ghost t: Trace) returns (outcome: Outcome, ghost t': Trace)
      requires Reached(t, Falling) && t.req == req
      modifies this`flights
      ensures t' == t.(ops := t'.ops) && Ended(t', outcome, fmt) && View() == Gated(t', fmt) && flights == old(flights) - {t.id}
      ensures outcome == FallsBack(BooksOf(View()), req)
    {
      var last := GetLast(store, req.tenant, now);
      outcome := if last.Some? then Served(last.value) else RateLimited;
      Stops(t, outcome, fmt);
      flights := flights - {t.id};
      t' := Then(t, Continue(t.id, t.answer));
    }

    /** INCR and EXPIRE. */
    method CountAndCall(req: Request, cfg: Config, answer: Answer, wait: nat, ghost day: nat, ghost since: nat, rateKey: string, ghost t: Trace)
      returns (outcome: Outcome, ghost t': Trace)
      requires Reached(t, Counting(day, since)) && t == Trace(t.k, t.start, t.id, req, cfg, answer, wait, t.ops) && rateKey == RateKey(req.tenant, fmt(day))
      modifies this
      ensures t' == t.(ops := t'.ops) && Ended(t', outcome, fmt) && View() == Gated(t', fmt) && flights == old(flights) - {t.id}
      ensures (BooksOf(View()), outcome) == CountsAndCalls(old(BooksOf(View())), req, cfg, answer, wait, rateKey, day)
    {
      Increments(t, day, since, fmt);
      t' := Then(t, Continue(t.id, answer));
      var count := ReadCount(store, rateKey, now);
      if count.None? {
        flights := flights - {t.id};
        return Corrupt, t';
      }
      store := store[rateKey := Entry(Count(count.value + 1), now + RATE_TTL)];
      counts := counts + [Counted(req.tenant, day, now)];
      if req.force {
        flights := flights[t.id := flights[t.id].(stage := Dropping(day))];
        outcome, t' := DropAndCall(req, cfg, answer, wait, day, t');
      } else if !req.hasProducts {
        flights := flights - {t.id};
        outcome := NoProducts;
      } else {
        flights := flights[t.id := flights[t.id].(stage := Asking(day))];
        outcome, t' := CallModel(req, cfg, answer, wait, day, t');
      }
    }

    /** A forced call deletes its session entry before the products are checked. */
    method DropAndCall(req: Request, cfg: Config, answer: Answer, wait: nat, ghost day: nat, ghost t: Trace) returns (outcome: Outcome, ghost t': Trace)
      requires Reached(t, Dropping(day)) && t == Trace(t.k, t.start, t.id, req, cfg, answer, wait, t.ops)
      modifies this`now, this`store, this`flights, this`paid, this`history, this`kept
      ensures t' == t.(ops := t'.ops) && Ended(t', outcome, fmt) && View() == Gated(t', fmt) && flights == old(flights) - {t.id}
      ensures (BooksOf(View()), outcome) == Drops(old(BooksOf(View())), req, cfg, answer, wait, day)
    {
      ghost var go, g := Continue(t.id, answer), View();
      t' := Then(t, go);
      store := store - {SessionKeyOf(req)};
      if !req.hasProducts {
        Stops(t, NoProducts, fmt);
        flights := flights - {t.id};
        return NoProducts, t';
      }
      Goes(t, go, fmt);
      flights := flights[t.id := flights[t.id].(stage := Asking(day))];
      outcome, t' := CallModel(req, cfg, answer, wait, day, t');
    }

    method CallModel(req: Request, cfg: Config, answer: Answer, wait: nat, ghost day: nat, ghost t: Trace) returns (outcome: Outcome, ghost t': Trace)
      requires Reached(t, Asking(day)) && t == Trace(t.k, t.start, t.id, req, cfg, answer, wait, t.ops)
      modifies this`now, this`store, this`flights, this`paid, this`history, this`kept
      ensures t' == t.(ops := t'.ops) && Ended(t', outcome, fmt) && View() == Gated(t', fmt) && flights == old(flights) - {t.id}
      ensures (BooksOf(View()), outcome) == Pays(old(BooksOf(View())), req, cfg, answer, wait, day)
    {
      ghost var go := Continue(t.id, answer);
      Goes(t, go, fmt);
      paid := paid + [Paid(req.tenant, day)];
      flights := flights[t.id := flights[t.id].(stage := Waiting)];
      t' := Then(t, go);
      Goes(t', Tick(wait), fmt);
      now := now + wait;
      outcome, t' := ReadAnswer(req, cfg, answer, Then(t', Tick(wait)));
    }

    method ReadAnswer(req: Request, cfg: Config, answer: Answer, ghost t: Trace) returns (outcome: Outcome, ghost t': Trace)
      requires Reached(t, Waiting) && t == Trace(t.k, t.start, t.id, req, cfg, answer, t.wait, t.ops)
      modifies this`store, this`flights, this`history, this`kept
      ensures t' == t.(ops := t'.ops) && Ended(t', outcome, fmt) && View() == Gated(t', fmt) && flights == old(flights) - {t.id}
      ensures (BooksOf(View()), outcome) == Answers(old(BooksOf(View())), req, cfg, answer)
    {
      ghost var go := Continue(t.id, answer);
      t' := Then(t, go);
      if !answer.Parsed? {
        outcome := if answer.Raises? then ModelError else Uninterpretable;
        Stops(t, outcome, fmt);
        flights := flights - {t.id};
        return;
      }
      Goes(t, go, fmt);
      flights := flights[t.id := flights[t.id].(stage := Saving(answer.body))];
      outcome, t' := SaveLast(req, cfg, answer.body, t');
    }

    method SaveLast(req: Request, cfg: Config, body: string, ghost t: Trace) returns (outcome: Outcome, ghost t': Trace)
      requires Reached(t, Saving(body)) && t.req == req && t.cfg == cfg
      modifies this`store, this`flights, this`history, this`kept
      ensures t' == t.(ops := t'.ops) && Ended(t', outcome, fmt) && View() == Gated(t', fmt) && flights == old(flights) - {t.id}
      ensures (BooksOf(View()), outcome) == Saves(old(BooksOf(View())), req, cfg, body)
    {
      ghost var go := Continue(t.id, t.answer);
      Goes(t, go, fmt);
      var analysis := NewAnalysis(body);
      ghost var made := Fresh(req.tenant, req.from, req.to, analysis, now);
      store := store[LastKey(req.tenant) := Entry(Last(analysis, now), now + LAST_TTL)];
      history := history + [made];
      flights := flights[t.id := flights[t.id].(stage := Remembering(made))];
      outcome, t' := KeepSession(req, cfg, analysis, made, Then(t, go));
    }

    /** Past the memory update. */
    method KeepSession(req: Request, cfg: Config, analysis: Analysis, ghost made: Fresh, ghost t: Trace) returns (outcome: Outcome, ghost t': Trace)
      requires Reached(t, Remembering(made)) && t.req == req && t.cfg == cfg && made.analysis == analysis
      modifies this`store, this`flights, this`kept
      ensures t' == t.(ops := t'.ops) && Ended(t', outcome, fmt) && View() == Gated(t', fmt) && flights == old(flights) - {t.id}
      ensures (BooksOf(View()), outcome) == Keeps(old(BooksOf(View())), req, cfg, made)
    {
      ghost var go := Continue(t.id, t.answer);
      t' := Then(t, go);
      if !cfg.cacheEnabled {
        Stops(t, Served(analysis), fmt);
        flights := flights - {t.id};
        return Served(analysis), t';
      }
      Goes(t, go, fmt);
      flights := flights[t.id := flights[t.id].(stage := Caching(made))];
      outcome := if cfg.ttlMinutes <= 0 then CacheError else Served(analysis);
      Stops(t', outcome, fmt);
      if cfg.ttlMinutes > 0 {
        store := store[SessionKeyOf(req) := Entry(Session(analysis), now + cfg.ttlMinutes * 60)];
        kept := kept + [made];
      }
      t' := Then(t', go);
      flights := flights - {t.id};
    }
  }
}
