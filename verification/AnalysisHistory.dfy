/**
  Whole runs of the analysis gate: the two caches against the history of fresh
  analyses, for any number of overlapping calls of each tenant. `fmt`, the printed
  UTC day, is assumed injective and free of colons.
*/
module AnalysisHistory {
  import opened Wrappers
  import opened CacheKeys
  import opened AnalysisGate
  import UsageMetrics

  function Start(now: nat): Gate {
    Gate(now, map[], map[], [], [], [], [])
  }

  ghost predicate Days(fmt: nat -> string) {
    && (forall d :: Plain(fmt(d)))
    && (forall d, d' :: fmt(d) == fmt(d') ==> d == d')
  }

  /** A tenant whose keys cannot be mistaken for anything else. */
  predicate Named(tenant: string) {
    Plain(tenant) && tenant != "rate"
  }

  /**
    What is assumed of a run: at most `k` overlapping calls of each tenant, daily
    limits of at most `limit`, and, if `steady`, no unforced call around a session
    cache that is switched off.
  */
  datatype Terms = Terms(k: nat, limit: nat, steady: bool)

  predicate Proper(p: Terms, op: Op) {
    op.Begin? ==>
      && Named(op.req.tenant) && Plain(op.req.from) && op.cfg.limit <= p.limit
      && (p.steady ==> op.cfg.cacheEnabled || op.req.force)
  }

  ghost predicate AllProper(p: Terms, ops: seq<Op>) {
    forall op | op in ops :: Proper(p, op)
  }

  /** Nothing can come between a call and its caches. */
  predicate Quiet(p: Terms) {
    p.steady && p.k <= 1
  }

  // ----- The logs -----

  function Newest(history: seq<Fresh>, tenant: string): Option<Fresh> {
    if history == [] then None
    else
      var last := history[|history| - 1];
      if last.tenant == tenant then Some(last) else Newest(history[..|history| - 1], tenant)
  }

  predicate Of(x: Fresh, tenant: string, from: string, to: string) {
    x.tenant == tenant && x.from == from && x.to == to
  }

  function NewestFor(history: seq<Fresh>, tenant: string, from: string, to: string): Option<Fresh> {
    if history == [] then None
    else
      var last := history[|history| - 1];
      if Of(last, tenant, from, to) then Some(last) else NewestFor(history[..|history| - 1], tenant, from, to)
  }

  lemma HistorySnoc(h: seq<Fresh>, x: Fresh, t: string, f: string, o: string)
    ensures Newest(h + [x], t) == if x.tenant == t then Some(x) else Newest(h, t)
    ensures NewestFor(h + [x], t, f, o) == if Of(x, t, f, o) then Some(x) else NewestFor(h, t, f, o)
  {
    assert (h + [x])[..|h + [x]| - 1] == h;
  }

  // ----- What one tenant's entries mean -----

  /** A stored session analysis is the newest one of its period that was kept; while it lives, none is newer in a quiet run. */
  ghost predicate SessionOk(g: Gate, quiet: bool, t: string, f: string, o: string) {
    var key := SessionKey(t, f, o);
    key in g.store ==>
      && g.store[key].value.Session?
      && NewestFor(g.kept, t, f, o).Some?
      && NewestFor(g.kept, t, f, o).value.analysis == g.store[key].value.saved
      && (quiet && g.now < g.store[key].expiry ==> NewestFor(g.kept, t, f, o) == NewestFor(g.history, t, f, o))
  }

  /** A stored last analysis is the tenant's newest, for whatever period. */
  ghost predicate LastOk(g: Gate, t: string) {
    var key := LastKey(t);
    key in g.store ==>
      && g.store[key].value.Last?
      && Newest(g.history, t).Some?
      && Newest(g.history, t).value.analysis == g.store[key].value.saved
      && Newest(g.history, t).value.at == g.store[key].value.at
      && g.store[key].expiry == g.store[key].value.at + LAST_TTL
  }

  ghost predicate KindOk(g: Gate, fmt: nat -> string, t: string, d: nat) {
    RateKey(t, fmt(d)) in g.store ==> g.store[RateKey(t, fmt(d))].value.Count?
  }

  predicate Made(stage: Stage) {
    stage.Remembering? || stage.Caching?
  }

  predicate PastDrop(stage: Stage) {
    stage.Asking? || stage.Waiting? || stage.Saving? || Made(stage)
  }

  /** A running call: its names and its limit, what it saved, and in a quiet run the session entry it found missing or deleted. */
  ghost predicate FlightOk(g: Gate, p: Terms, id: nat) {
    id in g.flights ==>
      var req, cfg, stage := g.flights[id].req, g.flights[id].cfg, g.flights[id].stage;
      && Named(req.tenant) && Plain(req.from) && cfg.limit <= p.limit
      && (Made(stage) ==>
            && Of(stage.made, req.tenant, req.from, req.to) && stage.made.analysis.source.FreshCall?
            && stage.made in g.history
            && (p.k <= 1 ==>
                  && Newest(g.history, req.tenant) == Some(stage.made)
                  && NewestFor(g.history, req.tenant, req.from, req.to) == Some(stage.made)))
      && (Quiet(p) ==> cfg.cacheEnabled || req.force)
      && (Quiet(p) && (!req.force || PastDrop(stage)) ==> Get(g.store, SessionKeyOf(req), g.now) == None)
  }

  ghost predicate Inv(g: Gate, p: Terms, fmt: nat -> string) {
    && (forall id :: FlightOk(g, p, id))
    && (forall t :: |CallsOf(g.flights, t)| <= p.k)
    && (forall t, f, o | Named(t) && Plain(f) :: SessionOk(g, Quiet(p), t, f, o))
    && (forall t | Named(t) :: LastOk(g, t))
    && (forall t, d | Named(t) :: KindOk(g, fmt, t, d))
  }

  // ----- Which entry a step of a call touches -----

  function At(store: Store, key: string): Option<Entry> {
    if key in store then Some(store[key]) else None
  }

  /** Where call `id` writes in its next step, if anywhere. */
  function Target(g: Gate, id: nat, fmt: nat -> string): Option<string>
    requires id in g.flights
  {
    var req := g.flights[id].req;
    match g.flights[id].stage
    case Counting(day, _) => Some(RateKey(req.tenant, fmt(day)))
    case Dropping(_) => Some(SessionKeyOf(req))
    case Saving(_) => Some(LastKey(req.tenant))
    case Caching(_) => Some(SessionKeyOf(req))
    case _ => None
  }

  lemma OneEntry(g: Gate, id: nat, answer: Answer, fmt: nat -> string, key: string)
    requires id in g.flights && Target(g, id, fmt) != Some(key)
    ensures At(ContinueCall(g, id, answer, fmt).0.store, key) == At(g.store, key)
  {
  }

  /** The names in play: the call that moves, and a tenant and date to look at. */
  ghost predicate Names(g: Gate, id: nat, t: string, f: string) {
    id in g.flights && Named(g.flights[id].req.tenant) && Plain(g.flights[id].req.from) && Named(t) && Plain(f)
  }

  /** The day a call is counted on, in its next step. */
  function CountedDay(stage: Stage): nat {
    if stage.Counting? then stage.day else 0
  }

  lemma SessionEntry(g: Gate, id: nat, answer: Answer, fmt: nat -> string, t: string, f: string, o: string)
    requires Names(g, id, t, f)
    ensures var req := g.flights[id].req;
      At(ContinueCall(g, id, answer, fmt).0.store, SessionKey(t, f, o)) == At(g.store, SessionKey(t, f, o))
      || ((req.tenant, req.from, req.to) == (t, f, o) && (g.flights[id].stage.Dropping? || g.flights[id].stage.Caching?))
  {
    var req := g.flights[id].req;
    SessionKeysDiffer(t, f, o, req.tenant, req.from, req.to);
    SessionMeetsRate(t, f, o, req.tenant, fmt(CountedDay(g.flights[id].stage)));
    SessionNeverLast(t, f, o, req.tenant);
    if Target(g, id, fmt) != Some(SessionKey(t, f, o)) {
      OneEntry(g, id, answer, fmt, SessionKey(t, f, o));
    }
  }

  lemma LastEntry(g: Gate, id: nat, answer: Answer, fmt: nat -> string, t: string)
    requires Names(g, id, t, "")
    ensures At(ContinueCall(g, id, answer, fmt).0.store, LastKey(t)) == At(g.store, LastKey(t))
      || (g.flights[id].req.tenant == t && g.flights[id].stage.Saving?)
  {
    var req := g.flights[id].req;
    SessionNeverLast(req.tenant, req.from, req.to, t);
    RateNeverLast(req.tenant, fmt(CountedDay(g.flights[id].stage)), t);
    LastKeysDiffer(t, req.tenant);
    if Target(g, id, fmt) != Some(LastKey(t)) {
      OneEntry(g, id, answer, fmt, LastKey(t));
    }
  }

  lemma RateEntry(g: Gate, id: nat, answer: Answer, fmt: nat -> string, t: string, d: nat)
    requires Names(g, id, t, "") && Days(fmt)
    ensures At(ContinueCall(g, id, answer, fmt).0.store, RateKey(t, fmt(d))) == At(g.store, RateKey(t, fmt(d)))
      || (g.flights[id].req.tenant == t && g.flights[id].stage.Counting? && g.flights[id].stage.day == d)
  {
    var req := g.flights[id].req;
    SessionMeetsRate(req.tenant, req.from, req.to, t, fmt(d));
    RateNeverLast(t, fmt(d), req.tenant);
    RateKeysDiffer(t, fmt(d), req.tenant, fmt(CountedDay(g.flights[id].stage)));
    if Target(g, id, fmt) != Some(RateKey(t, fmt(d))) {
      OneEntry(g, id, answer, fmt, RateKey(t, fmt(d)));
    }
  }

  // ----- One step of a call keeps each relation -----

  function Saved(g: Gate, id: nat): Fresh
    requires id in g.flights && g.flights[id].stage.Saving?
  {
    var req := g.flights[id].req;
    Fresh(req.tenant, req.from, req.to, NewAnalysis(g.flights[id].stage.body), g.now)
  }

  /** What a step makes of the clock, the other calls and the history. */
  lemma CallEffect(g: Gate, id: nat, answer: Answer, fmt: nat -> string)
    requires id in g.flights
    ensures var g' := ContinueCall(g, id, answer, fmt).0;
      && g'.now == g.now
      && (g'.flights == g.flights - {id} || (id in g'.flights && g'.flights == g.flights[id := g.flights[id].(stage := g'.flights[id].stage)]))
      && g'.history == (if g.flights[id].stage.Saving? then g.history + [Saved(g, id)] else g.history)
  {
  }

  lemma SessionStep(g: Gate, id: nat, answer: Answer, p: Terms, fmt: nat -> string, t: string, f: string, o: string)
    requires Names(g, id, t, f) && FlightOk(g, p, id) && SessionOk(g, Quiet(p), t, f, o)
    ensures SessionOk(ContinueCall(g, id, answer, fmt).0, Quiet(p), t, f, o)
  {
    SessionEntry(g, id, answer, fmt, t, f, o);
    match g.flights[id].stage
    case Saving(_) => HistorySnoc(g.history, Saved(g, id), t, f, o);
    case Caching(made) => HistorySnoc(g.kept, made, t, f, o);
    case _ =>
  }

  lemma LastStep(g: Gate, id: nat, answer: Answer, fmt: nat -> string, t: string)
    requires Names(g, id, t, "") && LastOk(g, t)
    ensures LastOk(ContinueCall(g, id, answer, fmt).0, t)
  {
    LastEntry(g, id, answer, fmt, t);
    CallEffect(g, id, answer, fmt);
    if g.flights[id].stage.Saving? {
      HistorySnoc(g.history, Saved(g, id), t, "", "");
    }
  }

  lemma KindStep(g: Gate, id: nat, answer: Answer, fmt: nat -> string, t: string, d: nat)
    requires Names(g, id, t, "") && Days(fmt) && KindOk(g, fmt, t, d)
    ensures KindOk(ContinueCall(g, id, answer, fmt).0, fmt, t, d)
  {
    RateEntry(g, id, answer, fmt, t, d);
  }

  lemma CallsKept(g: Gate, id: nat, answer: Answer, fmt: nat -> string, t: string)
    ensures CallsOf(ContinueCall(g, id, answer, fmt).0.flights, t) <= CallsOf(g.flights, t)
  {
    if id in g.flights {
      CallEffect(g, id, answer, fmt);
    }
  }

  /** With one call at a time, whoever is running for a tenant is the same. */
  lemma Alone(flights: map<nat, Flight>, a: nat, b: nat)
    requires a in flights && b in flights && flights[a].req.tenant == flights[b].req.tenant
    requires |CallsOf(flights, flights[a].req.tenant)| <= 1
    ensures a == b
  {
    if a != b {
      SubsetSize({a, b}, CallsOf(flights, flights[a].req.tenant));
    }
  }

  /** Where a step can lead. */
  lemma NextStage(g: Gate, id: nat, answer: Answer, fmt: nat -> string)
    requires id in g.flights && !g.flights[id].stage.Saving?
    ensures var g' := ContinueCall(g, id, answer, fmt).0;
      var stage := g.flights[id].stage;
      id in g'.flights ==>
        var next := g'.flights[id].stage;
        && (Made(next) ==> Made(stage) && next.made == stage.made)
        && (PastDrop(next) && g.flights[id].req.force ==> PastDrop(stage) || (stage.Dropping? && SessionKeyOf(g.flights[id].req) !in g'.store))
        && !stage.Caching?
  {
  }

  lemma FlightMoves(g: Gate, g': Gate, p: Terms, id: nat, stage: Stage)
    requires id in g.flights && FlightOk(g, p, id) && g'.flights == g.flights[id := g.flights[id].(stage := stage)]
    requires g'.now == g.now && g'.history == g.history
    requires Made(stage) ==> Made(g.flights[id].stage) && stage.made == g.flights[id].stage.made
    requires At(g'.store, SessionKeyOf(g.flights[id].req)) in {At(g.store, SessionKeyOf(g.flights[id].req)), None}
    requires PastDrop(stage) && g.flights[id].req.force ==> PastDrop(g.flights[id].stage) || SessionKeyOf(g.flights[id].req) !in g'.store
    ensures FlightOk(g', p, id)
  {
  }

  lemma FlightSaves(g: Gate, p: Terms, id: nat)
    requires id in g.flights && FlightOk(g, p, id) && g.flights[id].stage.Saving?
    ensures FlightOk(SaveCall(g, id, g.flights[id].stage.body).0, p, id)
  {
    var req := g.flights[id].req;
    HistorySnoc(g.history, Saved(g, id), req.tenant, req.from, req.to);
    SessionNeverLast(req.tenant, req.from, req.to, req.tenant);
  }

  lemma OwnFlight(g: Gate, id: nat, answer: Answer, p: Terms, fmt: nat -> string)
    requires id in g.flights && FlightOk(g, p, id)
    ensures FlightOk(ContinueCall(g, id, answer, fmt).0, p, id)
  {
    var req := g.flights[id].req;
    if g.flights[id].stage.Saving? {
      FlightSaves(g, p, id);
    } else {
      CallEffect(g, id, answer, fmt);
      NextStage(g, id, answer, fmt);
      SessionEntry(g, id, answer, fmt, req.tenant, req.from, req.to);
      var g' := ContinueCall(g, id, answer, fmt).0;
      if id in g'.flights {
        FlightMoves(g, g', p, id, g'.flights[id].stage);
      }
    }
  }

  /** What a step leaves of another call. */
  ghost predicate SameCall(g: Gate, g': Gate, p: Terms, id: nat) {
    && id in g.flights && id in g'.flights && g'.flights[id] == g.flights[id]
    && g'.now == g.now
    && var req := g.flights[id].req;
    && (forall x :: x in g.history ==> x in g'.history)
    && (p.k <= 1 ==>
          && Newest(g'.history, req.tenant) == Newest(g.history, req.tenant)
          && NewestFor(g'.history, req.tenant, req.from, req.to) == NewestFor(g.history, req.tenant, req.from, req.to)
          && At(g'.store, SessionKeyOf(req)) == At(g.store, SessionKeyOf(req)))
  }

  lemma FlightKept(g: Gate, g': Gate, p: Terms, id: nat)
    requires FlightOk(g, p, id) && SameCall(g, g', p, id)
    ensures FlightOk(g', p, id)
  {
  }

  lemma OtherFlight(g: Gate, id: nat, answer: Answer, p: Terms, fmt: nat -> string, other: nat)
    requires id in g.flights && other in g.flights && other != id
    requires FlightOk(g, p, id) && FlightOk(g, p, other) && forall t :: |CallsOf(g.flights, t)| <= p.k
    ensures SameCall(g, ContinueCall(g, id, answer, fmt).0, p, other)
  {
    CallEffect(g, id, answer, fmt);
    var req := g.flights[other].req;
    if p.k <= 1 {
      if g.flights[id].req.tenant == req.tenant {
        Alone(g.flights, id, other);
      }
      SessionEntry(g, id, answer, fmt, req.tenant, req.from, req.to);
      if g.flights[id].stage.Saving? {
        HistorySnoc(g.history, Saved(g, id), req.tenant, req.from, req.to);
      }
    }
  }

  lemma FlightStep(g: Gate, id: nat, answer: Answer, p: Terms, fmt: nat -> string, other: nat)
    requires id in g.flights && FlightOk(g, p, id) && FlightOk(g, p, other) && forall t :: |CallsOf(g.flights, t)| <= p.k
    ensures FlightOk(ContinueCall(g, id, answer, fmt).0, p, other)
  {
    if other == id {
      OwnFlight(g, id, answer, p, fmt);
    } else {
      CallEffect(g, id, answer, fmt);
      if other in g.flights {
        OtherFlight(g, id, answer, p, fmt, other);
        FlightKept(g, ContinueCall(g, id, answer, fmt).0, p, other);
      }
    }
  }

  // ----- Every step keeps the invariant -----

  lemma InvContinue(g: Gate, id: nat, answer: Answer, p: Terms, fmt: nat -> string)
    requires Days(fmt) && Inv(g, p, fmt)
    ensures Inv(ContinueCall(g, id, answer, fmt).0, p, fmt)
  {
    if id in g.flights {
      var g' := ContinueCall(g, id, answer, fmt).0;
      assert FlightOk(g, p, id);
      forall other ensures FlightOk(g', p, other) { FlightStep(g, id, answer, p, fmt, other); }
      forall t ensures |CallsOf(g'.flights, t)| <= p.k {
        CallsKept(g, id, answer, fmt, t);
        SubsetSize(CallsOf(g'.flights, t), CallsOf(g.flights, t));
      }
      forall t, f, o | Named(t) && Plain(f) ensures SessionOk(g', Quiet(p), t, f, o) { SessionStep(g, id, answer, p, fmt, t, f, o); }
      forall t | Named(t) ensures LastOk(g', t) { LastStep(g, id, answer, fmt, t); }
      forall t, d | Named(t) ensures KindOk(g', fmt, t, d) { KindStep(g, id, answer, fmt, t, d); }
    }
  }

  /** Starting, giving up, waiting, deleting a last analysis and clearing the caches. */
  lemma FlightAside(g: Gate, op: Op, p: Terms, fmt: nat -> string, id: nat)
    requires !op.Continue? && Proper(p, op) && FlightOk(g, p, id)
    ensures FlightOk(Next(p.k, g, op, fmt), p, id)
  {
  }

  lemma CallsPut(flights: map<nat, Flight>, id: nat, f: Flight, t: string)
    requires id !in flights
    ensures CallsOf(flights[id := f], t) == if f.req.tenant == t then CallsOf(flights, t) + {id} else CallsOf(flights, t)
  {
  }

  lemma CallsAside(g: Gate, op: Op, p: Terms, fmt: nat -> string, t: string)
    requires !op.Continue? && |CallsOf(g.flights, t)| <= p.k
    ensures |CallsOf(Next(p.k, g, op, fmt).flights, t)| <= p.k
  {
    var g' := Next(p.k, g, op, fmt);
    if op.Begin? {
      if g'.flights != g.flights {
        CallsPut(g.flights, op.id, g'.flights[op.id], t);
      }
    } else {
      assert forall id :: id in g'.flights ==> id in g.flights && g'.flights[id] == g.flights[id];
      SubsetSize(CallsOf(g'.flights, t), CallsOf(g.flights, t));
    }
  }

  lemma StoreAside(g: Gate, op: Op, p: Terms, fmt: nat -> string, t: string)
    requires !op.Continue?
    ensures LastOk(g, t) ==> LastOk(Next(p.k, g, op, fmt), t)
    ensures forall f, o | SessionOk(g, Quiet(p), t, f, o) :: SessionOk(Next(p.k, g, op, fmt), Quiet(p), t, f, o)
    ensures forall d | KindOk(g, fmt, t, d) :: KindOk(Next(p.k, g, op, fmt), fmt, t, d)
  {
  }

  lemma InvNext(g: Gate, op: Op, p: Terms, fmt: nat -> string)
    requires Days(fmt) && Proper(p, op) && Inv(g, p, fmt)
    ensures Inv(Next(p.k, g, op, fmt), p, fmt)
  {
    var g' := Next(p.k, g, op, fmt);
    if op.Continue? {
      InvContinue(g, op.id, op.answer, p, fmt);
    } else {
      forall id ensures FlightOk(g', p, id) { FlightAside(g, op, p, fmt, id); }
      forall t ensures |CallsOf(g'.flights, t)| <= p.k { CallsAside(g, op, p, fmt, t); }
      forall t | Named(t)
        ensures LastOk(g', t)
        ensures forall f, o | Plain(f) :: SessionOk(g', Quiet(p), t, f, o)
        ensures forall d :: KindOk(g', fmt, t, d)
      {
        StoreAside(g, op, p, fmt, t);
      }
    }
  }

  lemma {:induction false} InvRun(g: Gate, ops: seq<Op>, p: Terms, fmt: nat -> string)
    requires Days(fmt) && AllProper(p, ops) && Inv(g, p, fmt)
    ensures Inv(Run(p.k, g, ops, fmt), p, fmt)
    decreases |ops|
  {
    if ops != [] {
      assert ops[0] in ops;
      InvNext(g, ops[0], p, fmt);
      assert forall op | op in ops[1..] :: op in ops;
      InvRun(Next(p.k, g, ops[0], fmt), ops[1..], p, fmt);
    }
  }

  lemma InvReached(now: nat, ops: seq<Op>, p: Terms, fmt: nat -> string)
    requires Days(fmt) && AllProper(p, ops)
    ensures Inv(Run(p.k, Start(now), ops, fmt), p, fmt)
  {
    forall t ensures |CallsOf(Start(now).flights, t)| <= p.k {
      assert CallsOf(Start(now).flights, t) == {};
    }
    assert Inv(Start(now), p, fmt);
    InvRun(Start(now), ops, p, fmt);
  }

  // ----- What a caller is served -----

  function Hit(x: Fresh): Analysis {
    x.analysis.(isCached := true, source := SessionCache)
  }

  function Fallback(x: Fresh): Analysis {
    x.analysis.(isCached := true, cachedAt := Some(x.at), source := LastSaved)
  }

  /** What an analysis that ends a call says about the history. */
  ghost predicate Faithful(k: nat, g: Gate, op: Op, a: Analysis, g': Gate) {
    match a.source
    case SessionCache =>
      && op.Begin? && !op.req.force && g' == g
      && var newest := NewestFor(g.kept, op.req.tenant, op.req.from, op.req.to);
         newest.Some? && a == Hit(newest.value)
    case LastSaved =>
      && op.Continue? && op.id in g.flights && g' == Finish(g, op.id)
      && var newest := Newest(g.history, g.flights[op.id].req.tenant);
         newest.Some? && a == Fallback(newest.value) && g.now < newest.value.at + 86400
    case FreshCall =>
      && op.Continue? && op.id in g.flights && Made(g.flights[op.id].stage)
      && var req, made := g.flights[op.id].req, g.flights[op.id].stage.made;
         && a == made.analysis && Of(made, req.tenant, req.from, req.to) && made in g'.history
         && (g.flights[op.id].cfg.cacheEnabled ==> NewestFor(g'.kept, req.tenant, req.from, req.to) == Some(made))
         && (k <= 1 ==> Newest(g'.history, req.tenant) == NewestFor(g'.history, req.tenant, req.from, req.to) == Some(made))
  }

  /**
    In every interleaving of any number of calls of every tenant, a session-cache
    answer is the newest kept analysis of exactly the requested period, a fallback is
    the tenant's newest analysis and under a day old, neither writes anything or calls
    the model, a fresh answer is in the history, and no entry is read as something else.
  */
  lemma ServedFromHistory(now: nat, ops: seq<Op>, p: Terms, op: Op, fmt: nat -> string)
    requires Days(fmt) && AllProper(p, ops) && Proper(p, op)
    ensures var g := Run(p.k, Start(now), ops, fmt);
      var outcome := Emitted(p.k, g, op, fmt);
      && outcome != Some(Corrupt)
      && (outcome.Some? && outcome.value.Served? ==> Faithful(p.k, g, op, outcome.value.analysis, Next(p.k, g, op, fmt)))
  {
    InvReached(now, ops, p, fmt);
    var g := Run(p.k, Start(now), ops, fmt);
    if op.Begin? {
      assert SessionOk(g, Quiet(p), op.req.tenant, op.req.from, op.req.to);
    } else if op.Continue? && op.id in g.flights {
      assert FlightOk(g, p, op.id);
      var tenant, stage := g.flights[op.id].req.tenant, g.flights[op.id].stage;
      assert LastOk(g, tenant);
      if stage.Checking? || stage.Counting? {
        assert KindOk(g, fmt, tenant, stage.day);
      }
      ServedByStep(g, op, p, fmt);
    }
  }

  lemma ServedByStep(g: Gate, op: Op, p: Terms, fmt: nat -> string)
    requires op.Continue? && op.id in g.flights && FlightOk(g, p, op.id)
    requires var tenant, stage := g.flights[op.id].req.tenant, g.flights[op.id].stage;
      && LastOk(g, tenant)
      && (stage.Checking? || stage.Counting? ==> KindOk(g, fmt, tenant, stage.day))
    ensures var outcome := Emitted(p.k, g, op, fmt);
      && outcome != Some(Corrupt)
      && (outcome.Some? && outcome.value.Served? ==> Faithful(p.k, g, op, outcome.value.analysis, Next(p.k, g, op, fmt)))
  {
    var req := g.flights[op.id].req;
    match g.flights[op.id].stage
    case Caching(made) => HistorySnoc(g.kept, made, req.tenant, req.from, req.to);
    case _ =>
  }

  // ----- When a hit is the newest analysis -----

  /** A session-cache answer, if this step gives one, is the newest fresh analysis of its period. */
  ghost predicate HitIsNewest(k: nat, g: Gate, op: Op, fmt: nat -> string) {
    var outcome := Emitted(k, g, op, fmt);
    op.Begin? && outcome.Some? && outcome.value.Served? ==>
      var newest := NewestFor(g.history, op.req.tenant, op.req.from, op.req.to);
      newest.Some? && outcome.value.analysis == Hit(newest.value)
  }

  /** For every run and every hit: it is the newest exactly when the analysis saved last for its period says what the one kept last says. */
  lemma HitIsNewestIffKeptLast(now: nat, ops: seq<Op>, p: Terms, op: Op, fmt: nat -> string)
    requires Days(fmt) && AllProper(p, ops) && Proper(p, op) && op.Begin?
    ensures var g := Run(p.k, Start(now), ops, fmt);
      var outcome := Emitted(p.k, g, op, fmt);
      var saved, kept := NewestFor(g.history, op.req.tenant, op.req.from, op.req.to), NewestFor(g.kept, op.req.tenant, op.req.from, op.req.to);
      outcome.Some? && outcome.value.Served? ==>
        && kept.Some?
        && (HitIsNewest(p.k, g, op, fmt) <==> saved.Some? && Hit(saved.value) == Hit(kept.value))
  {
    ServedFromHistory(now, ops, p, op, fmt);
    InvReached(now, ops, p, fmt);
    assert SessionOk(Run(p.k, Start(now), ops, fmt), Quiet(p), op.req.tenant, op.req.from, op.req.to);
  }

  /** When a tenant's calls do not overlap and no unforced one bypassed a switched-off cache, a hit is the newest analysis of its period outright. */
  lemma SteadyHitIsNewest(now: nat, ops: seq<Op>, p: Terms, op: Op, fmt: nat -> string)
    requires Days(fmt) && AllProper(p, ops) && Proper(p, op) && Quiet(p)
    ensures HitIsNewest(p.k, Run(p.k, Start(now), ops, fmt), op, fmt)
  {
    InvReached(now, ops, p, fmt);
    if op.Begin? {
      assert SessionOk(Run(p.k, Start(now), ops, fmt), true, op.req.tenant, op.req.from, op.req.to);
    }
  }

  // ----- A whole call -----

  const ON := Config(true, true, true, true, 2880, 1)
  const OFF := ON.(cacheEnabled := false)

  lemma RunTwo(k: nat, g: Gate, a: Op, b: Op, fmt: nat -> string)
    ensures Run(k, g, [a, b], fmt) == Next(k, Next(k, g, a, fmt), b, fmt)
  {
    assert [a, b][1..] == [b];
    assert Run(k, Next(k, g, a, fmt), [b], fmt) == Next(k, Next(k, g, a, fmt), b, fmt);
  }

  /** An unforced call with products, from its start to its answer `body`. */
  function CallOps(id: nat, req: Request, cfg: Config, body: string): seq<Op> {
    var go := Continue(id, Parsed(body));
    [Begin(id, req, cfg), go] + ([go, go] + ([go, go] + if cfg.cacheEnabled then [go, go] else [go]))
  }

  predicate GoesThrough(k: nat, g: Gate, id: nat, req: Request, cfg: Config, fmt: nat -> string) {
    && id !in g.flights && |CallsOf(g.flights, req.tenant)| < k && !req.force && req.hasProducts
    && cfg.keySet && cfg.enabled && cfg.pnlEnabled && cfg.ttlMinutes > 0
    && (cfg.cacheEnabled ==> Get(g.store, SessionKeyOf(req), g.now) == None)
    && var count := ReadCount(g.store, RateKey(req.tenant, fmt(g.now / DAY)), g.now);
       count.Some? && count.value < cfg.limit
  }

  /** The gate when that call waits for the model. */
  function Called(k: nat, g: Gate, id: nat, req: Request, cfg: Config, fmt: nat -> string): Gate
    requires GoesThrough(k, g, id, req, cfg, fmt)
  {
    var key := RateKey(req.tenant, fmt(g.now / DAY));
    g.(store := g.store[key := Entry(Count(ReadCount(g.store, key, g.now).value + 1), g.now + RATE_TTL)],
       flights := g.flights[id := Flight(req, cfg, Waiting)],
       counts := g.counts + [Counted(req.tenant, g.now / DAY, g.now)],
       paid := g.paid + [Paid(req.tenant, g.now / DAY)])
  }

  lemma CallChecks(k: nat, g: Gate, id: nat, req: Request, cfg: Config, go: Op, fmt: nat -> string)
    requires GoesThrough(k, g, id, req, cfg, fmt) && go.Continue? && go.id == id
    ensures Run(k, g, [Begin(id, req, cfg), go], fmt) == g.(flights := g.flights[id := Flight(req, cfg, Counting(g.now / DAY, g.now))])
  {
    var day := g.now / DAY;
    RunTwo(k, g, Begin(id, req, cfg), go, fmt);
    assert g.flights[id := Flight(req, cfg, Checking(day, g.now))][id := Flight(req, cfg, Counting(day, g.now))]
        == g.flights[id := Flight(req, cfg, Counting(day, g.now))];
  }

  lemma CallPays(k: nat, g: Gate, id: nat, req: Request, cfg: Config, go: Op, fmt: nat -> string)
    requires GoesThrough(k, g, id, req, cfg, fmt) && go.Continue? && go.id == id
    ensures Run(k, g, [Begin(id, req, cfg), go] + [go, go], fmt) == Called(k, g, id, req, cfg, fmt)
  {
    var day := g.now / DAY;
    RunConcat(k, g, [Begin(id, req, cfg), go], [go, go], fmt);
    CallChecks(k, g, id, req, cfg, go, fmt);
    var g2 := g.(flights := g.flights[id := Flight(req, cfg, Counting(day, g.now))]);
    RunTwo(k, g2, go, go, fmt);
    CallCounts(g2, id, day, fmt);
    var g3 := Next(k, g2, go, fmt);
    assert g3.flights == g.flights[id := Flight(req, cfg, Asking(day))];
    assert Next(k, g3, go, fmt).flights == g.flights[id := Flight(req, cfg, Waiting)];
  }

  /** INCR and EXPIRE of an unforced call with products. */
  lemma CallCounts(g: Gate, id: nat, day: nat, fmt: nat -> string)
    requires id in g.flights && !g.flights[id].req.force && g.flights[id].req.hasProducts
    requires ReadCount(g.store, RateKey(g.flights[id].req.tenant, fmt(day)), g.now).Some?
    ensures var key := RateKey(g.flights[id].req.tenant, fmt(day));
      CountCall(g, id, day, fmt).0
      == g.(store := g.store[key := Entry(Count(ReadCount(g.store, key, g.now).value + 1), g.now + RATE_TTL)],
            counts := g.counts + [Counted(g.flights[id].req.tenant, day, g.now)],
            flights := g.flights[id := g.flights[id].(stage := Asking(day))])
  {
  }

  /** What a call saves, made of the answer it waits for. */
  function Answered(g: Gate, id: nat, body: string): Fresh
    requires id in g.flights
  {
    var req := g.flights[id].req;
    Fresh(req.tenant, req.from, req.to, NewAnalysis(body), g.now)
  }

  function SavedStore(g: Gate, id: nat, body: string): Store
    requires id in g.flights
  {
    var made := Answered(g, id, body);
    var req, cfg := g.flights[id].req, g.flights[id].cfg;
    var saved := g.store[LastKey(req.tenant) := Entry(Last(made.analysis, g.now), g.now + LAST_TTL)];
    if cfg.cacheEnabled && cfg.ttlMinutes > 0 then saved[SessionKeyOf(req) := Entry(Session(made.analysis), g.now + cfg.ttlMinutes * 60)] else saved
  }

  lemma CallSaves(k: nat, g: Gate, id: nat, body: string, fmt: nat -> string)
    requires id in g.flights && g.flights[id].stage.Waiting? && g.flights[id].cfg.ttlMinutes > 0
    ensures var go := Continue(id, Parsed(body));
      var made := Answered(g, id, body);
      Run(k, g, [go, go] + if g.flights[id].cfg.cacheEnabled then [go, go] else [go], fmt)
      == g.(store := SavedStore(g, id, body),
            flights := g.flights - {id},
            history := g.history + [made],
            kept := if g.flights[id].cfg.cacheEnabled then g.kept + [made] else g.kept)
  {
    var go := Continue(id, Parsed(body));
    var made := Answered(g, id, body);
    var fl := g.flights[id];
    var last := if fl.cfg.cacheEnabled then [go, go] else [go];
    RunConcat(k, g, [go, go], last, fmt);
    RunTwo(k, g, go, go, fmt);
    var g2 := Next(k, Next(k, g, go, fmt), go, fmt);
    assert g2.flights == g.flights[id := fl.(stage := Remembering(made))];
    assert g2.flights - {id} == g.flights - {id};
    if fl.cfg.cacheEnabled {
      RunTwo(k, g2, go, go, fmt);
      var g3 := Next(k, g2, go, fmt);
      assert g3.flights - {id} == g.flights - {id};
    } else {
      assert Run(k, g2, [go], fmt) == Next(k, g2, go, fmt);
    }
  }

  /** The gate after the whole call. */
  function After(k: nat, g: Gate, id: nat, req: Request, cfg: Config, body: string, fmt: nat -> string): Gate
    requires GoesThrough(k, g, id, req, cfg, fmt)
  {
    var called := Called(k, g, id, req, cfg, fmt);
    var made := Answered(called, id, body);
    called.(store := SavedStore(called, id, body),
            flights := g.flights,
            history := g.history + [made],
            kept := if cfg.cacheEnabled then g.kept + [made] else g.kept)
  }

  lemma CallRuns(k: nat, g: Gate, id: nat, req: Request, cfg: Config, body: string, fmt: nat -> string)
    requires GoesThrough(k, g, id, req, cfg, fmt)
    ensures Run(k, g, CallOps(id, req, cfg, body), fmt) == After(k, g, id, req, cfg, body, fmt)
  {
    var go := Continue(id, Parsed(body));
    var rest := [go, go] + if cfg.cacheEnabled then [go, go] else [go];
    assert CallOps(id, req, cfg, body) == ([Begin(id, req, cfg), go] + [go, go]) + rest;
    RunConcat(k, g, [Begin(id, req, cfg), go] + [go, go], rest, fmt);
    CallPays(k, g, id, req, cfg, go, fmt);
    var called := Called(k, g, id, req, cfg, fmt);
    CallSaves(k, called, id, body, fmt);
    assert called.flights - {id} == g.flights;
  }

  lemma FirstCall(k: nat, now: nat, req: Request, body: string, fmt: nat -> string)
    requires k >= 1 && !req.force && req.hasProducts
    ensures GoesThrough(k, Start(now), 0, req, ON, fmt)
    ensures Run(k, Start(now), CallOps(0, req, ON, body), fmt) == After(k, Start(now), 0, req, ON, body, fmt)
  {
    assert CallsOf(map[], req.tenant) == {};
    CallRuns(k, Start(now), 0, req, ON, body, fmt);
  }

  // ----- A stale hit without overlap: the cache switched off -----

  /** A kept analysis, a call around the switched-off cache a day later, and the same request again. */
  function Bypass(req: Request, a: string, b: string): seq<Op> {
    CallOps(0, req, ON, a) + ([Tick(DAY)] + CallOps(0, req, OFF, b))
  }

  lemma BypassRuns(k: nat, now: nat, req: Request, a: string, b: string, fmt: nat -> string) returns (g1: Gate, g2: Gate)
    requires k >= 1 && Days(fmt) && Named(req.tenant) && Plain(req.from) && !req.force && req.hasProducts
    ensures GoesThrough(k, Start(now), 0, req, ON, fmt) && g1 == After(k, Start(now), 0, req, ON, a, fmt)
    ensures g2 == g1.(now := now + DAY) && GoesThrough(k, g2, 0, req, OFF, fmt)
    ensures Run(k, Start(now), Bypass(req, a, b), fmt) == After(k, g2, 0, req, OFF, b, fmt)
  {
    FirstCall(k, now, req, a, fmt);
    g1 := After(k, Start(now), 0, req, ON, a, fmt);
    g2 := g1.(now := now + DAY);
    NextDayAllowed(k, now, req, a, fmt);
    CallRuns(k, g2, 0, req, OFF, b, fmt);
    RunConcat(k, Start(now), CallOps(0, req, ON, a), [Tick(DAY)] + CallOps(0, req, OFF, b), fmt);
    RunConcat(k, g1, [Tick(DAY)], CallOps(0, req, OFF, b), fmt);
    assert Run(k, g1, [Tick(DAY)], fmt) == g2;
  }

  lemma NextDayAllowed(k: nat, now: nat, req: Request, a: string, fmt: nat -> string)
    requires k >= 1 && Days(fmt) && Named(req.tenant) && Plain(req.from) && !req.force && req.hasProducts
    requires GoesThrough(k, Start(now), 0, req, ON, fmt)
    ensures GoesThrough(k, After(k, Start(now), 0, req, ON, a, fmt).(now := now + DAY), 0, req, OFF, fmt)
  {
    var today, tomorrow := now / DAY, (now + DAY) / DAY;
    RateKeysDiffer(req.tenant, fmt(today), req.tenant, fmt(tomorrow));
    SessionMeetsRate(req.tenant, req.from, req.to, req.tenant, fmt(tomorrow));
    RateNeverLast(req.tenant, fmt(tomorrow), req.tenant);
  }

  /** What is left after a bypass: the entry of the first call, and a history that ends in the second. */
  lemma EntrySurvives(k: nat, g: Gate, req: Request, entry: Entry, b: string, fmt: nat -> string)
    requires Named(req.tenant) && Plain(req.from) && GoesThrough(k, g, 0, req, OFF, fmt)
    requires At(g.store, SessionKeyOf(req)) == Some(entry)
    ensures var g' := After(k, g, 0, req, OFF, b, fmt);
      && g'.now == g.now && At(g'.store, SessionKeyOf(req)) == Some(entry)
      && NewestFor(g'.history, req.tenant, req.from, req.to) == Some(Fresh(req.tenant, req.from, req.to, NewAnalysis(b), g.now))
  {
    HistorySnoc(g.history, Fresh(req.tenant, req.from, req.to, NewAnalysis(b), g.now), req.tenant, req.from, req.to);
    SessionMeetsRate(req.tenant, req.from, req.to, req.tenant, fmt(g.now / DAY));
    SessionNeverLast(req.tenant, req.from, req.to, req.tenant);
  }

  /** The caller is served the old analysis although a newer one of the same period was made. */
  lemma BypassServesStale(k: nat, now: nat, req: Request, a: string, b: string, fmt: nat -> string)
    requires k >= 1 && Days(fmt) && Named(req.tenant) && Plain(req.from) && !req.force && req.hasProducts
    ensures var g := Run(k, Start(now), Bypass(req, a, b), fmt);
      && Emitted(k, g, Begin(0, req, ON), fmt) == Some(Served(Hit(Fresh(req.tenant, req.from, req.to, NewAnalysis(a), now))))
      && NewestFor(g.history, req.tenant, req.from, req.to) == Some(Fresh(req.tenant, req.from, req.to, NewAnalysis(b), now + DAY))
  {
    var g1, g2 := BypassRuns(k, now, req, a, b, fmt);
    EntrySurvives(k, g2, req, Entry(Session(NewAnalysis(a)), now + ON.ttlMinutes * 60), b, fmt);
  }

  // ----- A stale hit without a bypass: two calls that overlap -----

  function Twins(req: Request, first: Stage, second: Stage): map<nat, Flight> {
    map[0 := Flight(req, ON, first), 1 := Flight(req, ON, second)]
  }

  /** Both miss the cache, are counted, pay and get their answers side by side. */
  function BothAnswered(req: Request, a: string, b: string): seq<Op> {
    var x, y := Continue(0, Parsed(a)), Continue(1, Parsed(b));
    [Begin(0, req, ON), Begin(1, req, ON)] + ([x, y] + ([x, y] + ([x, y] + [x, y])))
  }

  /** The first saves before the second and is kept after it. */
  function CrossedSaves(a: string, b: string): seq<Op> {
    var x, y := Continue(0, Parsed(a)), Continue(1, Parsed(b));
    [x, y] + ([x, y] + [y, x])
  }

  lemma BothBegin(k: nat, now: nat, req: Request, fmt: nat -> string)
    requires k >= 2 && !req.force
    ensures Run(k, Start(now), [Begin(0, req, ON), Begin(1, req, ON)], fmt)
         == Start(now).(flights := Twins(req, Checking(now / DAY, now), Checking(now / DAY, now)))
  {
    var g1 := Start(now).(flights := map[0 := Flight(req, ON, Checking(now / DAY, now))]);
    assert CallsOf(map[], req.tenant) == {};
    assert CallsOf(g1.flights, req.tenant) == {0};
    RunTwo(k, Start(now), Begin(0, req, ON), Begin(1, req, ON), fmt);
    assert Next(k, Start(now), Begin(0, req, ON), fmt) == g1;
  }

  lemma BothCount(k: nat, now: nat, req: Request, x: Op, y: Op, fmt: nat -> string) returns (g: Gate)
    requires !req.force && req.hasProducts && x.Continue? && x.id == 0 && y.Continue? && y.id == 1
    ensures var day := now / DAY;
      Run(k, Start(now).(flights := Twins(req, Checking(day, now), Checking(day, now))), [x, y] + [x, y], fmt) == g
    ensures g.now == now && g.history == [] && g.kept == [] && g.flights == Twins(req, Asking(now / DAY), Asking(now / DAY))
  {
    var day := now / DAY;
    var g0 := Start(now).(flights := Twins(req, Checking(day, now), Checking(day, now)));
    RunConcat(k, g0, [x, y], [x, y], fmt);
    RunTwo(k, g0, x, y, fmt);
    var g2 := g0.(flights := Twins(req, Counting(day, now), Counting(day, now)));
    assert g0.flights[0 := Flight(req, ON, Counting(day, now))][1 := Flight(req, ON, Counting(day, now))] == g2.flights;
    assert Run(k, g0, [x, y], fmt) == g2;
    RunTwo(k, g2, x, y, fmt);
    var g3 := Next(k, g2, x, fmt);
    g := Next(k, g3, y, fmt);
    assert g3.flights == Twins(req, Asking(day), Counting(day, now));
  }

  lemma BothAsk(k: nat, g: Gate, req: Request, day: nat, a: string, b: string, fmt: nat -> string) returns (g': Gate)
    requires g.flights == Twins(req, Asking(day), Asking(day))
    ensures var x, y := Continue(0, Parsed(a)), Continue(1, Parsed(b));
      Run(k, g, [x, y] + [x, y], fmt) == g'
    ensures g'.now == g.now && g'.history == g.history && g'.flights == Twins(req, Saving(a), Saving(b))
  {
    var x, y := Continue(0, Parsed(a)), Continue(1, Parsed(b));
    RunConcat(k, g, [x, y], [x, y], fmt);
    RunTwo(k, g, x, y, fmt);
    var g1 := Next(k, g, x, fmt);
    var g2 := Next(k, g1, y, fmt);
    assert g2.flights == Twins(req, Waiting, Waiting);
    RunTwo(k, g2, x, y, fmt);
    var g3 := Next(k, g2, x, fmt);
    g' := Next(k, g3, y, fmt);
    assert g3.flights == Twins(req, Saving(a), Waiting);
  }

  lemma Crossed(k: nat, g: Gate, req: Request, a: string, b: string, fmt: nat -> string) returns (g': Gate)
    requires g.flights == Twins(req, Saving(a), Saving(b))
    ensures Run(k, g, CrossedSaves(a, b), fmt) == g'
    ensures g'.now == g.now && g'.flights == map[]
    ensures g'.history == g.history + [Fresh(req.tenant, req.from, req.to, NewAnalysis(a), g.now), Fresh(req.tenant, req.from, req.to, NewAnalysis(b), g.now)]
    ensures At(g'.store, SessionKeyOf(req)) == Some(Entry(Session(NewAnalysis(a)), g.now + ON.ttlMinutes * 60))
  {
    var x, y := Continue(0, Parsed(a)), Continue(1, Parsed(b));
    var A, B := Fresh(req.tenant, req.from, req.to, NewAnalysis(a), g.now), Fresh(req.tenant, req.from, req.to, NewAnalysis(b), g.now);
    RunConcat(k, g, [x, y], [x, y] + [y, x], fmt);
    RunTwo(k, g, x, y, fmt);
    var g1 := SaveCall(g, 0, a).0;
    assert Next(k, g, x, fmt) == g1 && g1.flights == Twins(req, Remembering(A), Saving(b));
    var g2 := SaveCall(g1, 1, b).0;
    assert Next(k, g1, y, fmt) == g2 && g2.flights == Twins(req, Remembering(A), Remembering(B));
    assert g2.history == g.history + [A, B];
    g' := Kept(k, g2, req, A, B, x, y, fmt);
  }

  lemma Kept(k: nat, g: Gate, req: Request, A: Fresh, B: Fresh, x: Op, y: Op, fmt: nat -> string) returns (g': Gate)
    requires g.flights == Twins(req, Remembering(A), Remembering(B)) && x.Continue? && x.id == 0 && y.Continue? && y.id == 1
    ensures Run(k, g, [x, y] + [y, x], fmt) == g'
    ensures g'.now == g.now && g'.flights == map[] && g'.history == g.history
    ensures At(g'.store, SessionKeyOf(req)) == Some(Entry(Session(A.analysis), g.now + ON.ttlMinutes * 60))
  {
    RunConcat(k, g, [x, y], [y, x], fmt);
    RunTwo(k, g, x, y, fmt);
    var g1 := Next(k, g, x, fmt);
    assert g1.flights == Twins(req, Caching(A), Remembering(B));
    var g2 := Next(k, g1, y, fmt);
    assert g2.flights == Twins(req, Caching(A), Caching(B));
    RunTwo(k, g2, y, x, fmt);
    var g3 := Next(k, g2, y, fmt);
    assert g3.flights == map[0 := Flight(req, ON, Caching(A))];
    g' := Next(k, g3, x, fmt);
  }

  function Overlap(req: Request, a: string, b: string): seq<Op> {
    BothAnswered(req, a, b) + CrossedSaves(a, b)
  }

  /**
    Two ordinary calls for the same period, no fault and no bypass, each within the
    limit: afterwards the caller is served the first analysis although the second is
    newer.
  */
  lemma OverlapServesStale(k: nat, now: nat, req: Request, a: string, b: string, fmt: nat -> string)
    requires k >= 2 && !req.force && req.hasProducts
    ensures var g := Run(k, Start(now), Overlap(req, a, b), fmt);
      && Emitted(k, g, Begin(2, req, ON), fmt) == Some(Served(Hit(Fresh(req.tenant, req.from, req.to, NewAnalysis(a), now))))
      && NewestFor(g.history, req.tenant, req.from, req.to) == Some(Fresh(req.tenant, req.from, req.to, NewAnalysis(b), now))
      && g.flights == map[]
  {
    var x, y := Continue(0, Parsed(a)), Continue(1, Parsed(b));
    var begins, twos := [Begin(0, req, ON), Begin(1, req, ON)], [x, y] + [x, y];
    assert BothAnswered(req, a, b) == begins + (twos + twos);
    RunConcat(k, Start(now), BothAnswered(req, a, b), CrossedSaves(a, b), fmt);
    RunConcat(k, Start(now), begins, twos + twos, fmt);
    BothBegin(k, now, req, fmt);
    var g1 := Run(k, Start(now), begins, fmt);
    RunConcat(k, g1, twos, twos, fmt);
    var g2 := BothCount(k, now, req, x, y, fmt);
    var g3 := BothAsk(k, g2, req, now / DAY, a, b, fmt);
    var g4 := Crossed(k, g3, req, a, b, fmt);
    assert CallsOf(g4.flights, req.tenant) == {};
    var A, B := Fresh(req.tenant, req.from, req.to, NewAnalysis(a), now), Fresh(req.tenant, req.from, req.to, NewAnalysis(b), now);
    assert [A, B] == [A] + [B];
    HistorySnoc([A], B, req.tenant, req.from, req.to);
  }

  // ----- The exact condition -----

  /** Every hit of every proper run. */
  ghost predicate HitsNewest(now: nat, p: Terms, fmt: nat -> string) {
    forall ops, op :: AllProper(p, ops) && Proper(p, op) ==> HitIsNewest(p.k, Run(p.k, Start(now), ops, fmt), op, fmt)
  }

  const ANY := Request("t", "", "", true, false)

  lemma WitnessesProper(p: Terms)
    requires p.limit > 0
    ensures AllProper(p, Overlap(ANY, "a", "b"))
    ensures !p.steady ==> AllProper(p, Bypass(ANY, "a", "b"))
    ensures forall id :: Proper(p, Begin(id, ANY, ON))
  {
  }

  /**
    The exact condition, over whole runs: every hit is the newest analysis of its period
    if and only if a tenant's calls never overlap and no unforced call is made with the
    cache off, or no call is allowed at all.
  */
  lemma NeverStaleIffAloneAndNotBypassed(now: nat, p: Terms, fmt: nat -> string)
    requires Days(fmt)
    ensures HitsNewest(now, p, fmt) <==> p.limit == 0 || p.k == 0 || (p.k == 1 && p.steady)
  {
    if p.limit == 0 || p.k == 0 {
      forall ops, op | AllProper(p, ops) && Proper(p, op)
        ensures HitIsNewest(p.k, Run(p.k, Start(now), ops, fmt), op, fmt)
      {
        NothingKept(now, ops, p, op, fmt);
      }
    } else {
      WitnessesProper(p);
      if p.k > 1 {
        OverlapServesStale(p.k, now, ANY, "a", "b", fmt);
        assert !HitIsNewest(p.k, Run(p.k, Start(now), Overlap(ANY, "a", "b"), fmt), Begin(2, ANY, ON), fmt);
      } else if !p.steady {
        BypassServesStale(p.k, now, ANY, "a", "b", fmt);
        assert !HitIsNewest(p.k, Run(p.k, Start(now), Bypass(ANY, "a", "b"), fmt), Begin(0, ANY, ON), fmt);
      } else {
        forall ops, op | AllProper(p, ops) && Proper(p, op)
          ensures HitIsNewest(p.k, Run(p.k, Start(now), ops, fmt), op, fmt)
        {
          SteadyHitIsNewest(now, ops, p, op, fmt);
        }
      }
    }
  }

  /** Under a limit of 0, or with no call under way, no call gets past its check. */
  ghost predicate Barred(g: Gate, p: Terms) {
    && g.kept == []
    && forall id | id in g.flights :: p.k > 0 && g.flights[id].cfg.limit == 0 && (g.flights[id].stage.Checking? || g.flights[id].stage.Falling?)
  }

  lemma BarredNext(g: Gate, op: Op, p: Terms, fmt: nat -> string)
    requires Barred(g, p) && Proper(p, op) && (p.limit == 0 || p.k == 0)
    ensures Barred(Next(p.k, g, op, fmt), p)
  {
  }

  lemma {:induction false} BarredRun(g: Gate, ops: seq<Op>, p: Terms, fmt: nat -> string)
    requires Barred(g, p) && AllProper(p, ops) && (p.limit == 0 || p.k == 0)
    ensures Barred(Run(p.k, g, ops, fmt), p)
    decreases |ops|
  {
    if ops != [] {
      assert ops[0] in ops;
      BarredNext(g, ops[0], p, fmt);
      assert forall op | op in ops[1..] :: op in ops;
      BarredRun(Next(p.k, g, ops[0], fmt), ops[1..], p, fmt);
    }
  }

  lemma NothingKept(now: nat, ops: seq<Op>, p: Terms, op: Op, fmt: nat -> string)
    requires Days(fmt) && AllProper(p, ops) && Proper(p, op) && (p.limit == 0 || p.k == 0)
    ensures HitIsNewest(p.k, Run(p.k, Start(now), ops, fmt), op, fmt)
  {
    InvReached(now, ops, p, fmt);
    BarredRun(Start(now), ops, p, fmt);
    if op.Begin? {
      assert SessionOk(Run(p.k, Start(now), ops, fmt), Quiet(p), op.req.tenant, op.req.from, op.req.to);
    }
  }

  // ----- Deleting and clearing -----

  /** A deleted last analysis is gone, and nothing else is. */
  lemma DeletedLastIsGone(k: nat, g: Gate, tenant: string, fmt: nat -> string)
    ensures var g' := Next(k, g, DeleteLast(tenant), fmt);
      && GetLast(g'.store, tenant, g'.now) == None
      && forall key :: At(g'.store, key) == if key == LastKey(tenant) then None else At(g.store, key)
  {
  }

  /** After a clearing no plainly named tenant has a cached or a last analysis left, and all have their counters. */
  lemma ClearedCachesMiss(k: nat, g: Gate, t: string, f: string, o: string, day: string, fmt: nat -> string)
    requires Named(t) && Plain(f) && Plain(o) && f != "rate"
    ensures var g' := Next(k, g, ClearCaches, fmt);
      && SessionKey(t, f, o) !in g'.store && LastKey(t) !in g'.store
      && At(g'.store, RateKey(t, day)) == At(g.store, RateKey(t, day))
  {
    UsageMetrics.ClearingByFamily(t, f, o, day);
  }

  // ----- Names that are mistaken for others -----

  /** A period shares its session key with another period exactly when one of its dates has a colon, as a timestamp has. */
  lemma PeriodSharesKeyIffColon(tenant: string, from: string, to: string)
    requires Plain(tenant)
    ensures (exists f, o :: (f, o) != (from, to) && SessionKey(tenant, f, o) == SessionKey(tenant, from, to))
       <==> !Plain(from) || !Plain(to)
  {
    if !Plain(from) {
      var a, rest := FirstPart(from);
      assert SessionKey(tenant, a, rest + ":" + to) == SessionKey(tenant, from, to);
      assert |a| < |from|;
    } else if !Plain(to) {
      var a, rest := FirstPart(to);
      assert SessionKey(tenant, from + ":" + a, rest) == SessionKey(tenant, from, to);
      assert |rest| < |to|;
    } else {
      forall f, o | SessionKey(tenant, f, o) == SessionKey(tenant, from, to)
        ensures (f, o) == (from, to)
      {
        SessionKeysSplit(tenant, f, o, from, to);
      }
    }
  }

  lemma SessionKeysSplit(tenant: string, f: string, o: string, from: string, to: string)
    requires Plain(tenant) && Plain(from) && Plain(to) && SessionKey(tenant, f, o) == SessionKey(tenant, from, to)
    ensures f == from && o == to
  {
    if Plain(f) {
      SessionKeysDiffer(tenant, f, o, tenant, from, to);
    } else {
      var a, rest := FirstPart(f);
      assert SessionKey(tenant, f, o) == SessionKey(tenant, a, rest + ":" + o);
      assert (rest + ":" + o)[|rest|] == ':';
      SessionKeysDiffer(tenant, a, rest + ":" + o, tenant, from, to);
    }
  }

  /** With a colon in the dates, a hit can be an analysis of a period that was never asked for. */
  lemma TimestampServesOtherPeriod(k: nat, now: nat, tenant: string, a: string, b: string, c: string, body: string, fmt: nat -> string)
    requires k >= 1 && Named(tenant)
    ensures var asked := Request(tenant, a + ":" + b, c, true, false);
      var req := Request(tenant, a, b + ":" + c, true, false);
      var g := Run(k, Start(now), CallOps(0, asked, ON, body), fmt);
      && NewestFor(g.history, tenant, req.from, req.to) == None
      && Emitted(k, g, Begin(0, req, ON), fmt) == Some(Served(NewAnalysis(body).(isCached := true, source := SessionCache)))
  {
    var asked := Request(tenant, a + ":" + b, c, true, false);
    FirstCall(k, now, asked, body, fmt);
    assert SessionKey(tenant, a + ":" + b, c) == SessionKey(tenant, a, b + ":" + c);
    assert |a| < |a + ":" + b|;
    HistorySnoc([], Fresh(tenant, a + ":" + b, c, NewAnalysis(body), now), tenant, a, b + ":" + c);
    assert CallsOf(map[], tenant) == {};
  }

  /** A tenant called "rate" can store an analysis where another tenant's counter belongs, and that tenant's calls then fail. */
  lemma TenantCalledRateBreaksCounter(k: nat, now: nat, tenant: string, body: string, fmt: nat -> string)
    requires k >= 1 && Named(tenant) && Days(fmt)
    ensures var odd := Request("rate", tenant, fmt(now / DAY), true, false);
      var ops := CallOps(0, odd, ON, body) + [Begin(0, Request(tenant, "", "", true, false), OFF)];
      Emitted(k, Run(k, Start(now), ops, fmt), Continue(0, Raises), fmt) == Some(Corrupt)
  {
    var odd := Request("rate", tenant, fmt(now / DAY), true, false);
    var begin := Begin(0, Request(tenant, "", "", true, false), OFF);
    FirstCall(k, now, odd, body, fmt);
    RunSnoc(k, Start(now), CallOps(0, odd, ON, body), begin, fmt);
    SessionMeetsRate("rate", tenant, fmt(now / DAY), tenant, fmt(now / DAY));
    assert CallsOf(map[], tenant) == {};
  }
}
