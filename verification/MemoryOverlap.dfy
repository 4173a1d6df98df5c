/**
  Overlapping updates of one tenant's memory: each reads it, awaits, and writes back
  what it made of its own reading, without a lock. Whatever the interleaving, the
  memory is one that some of the written updates lead to, in their order; it is the
  memory of all of them exactly when updates do not overlap.
*/
module MemoryOverlap {
  import opened Wrappers
  import opened Tally
  import opened TenantMemory

  /** An update between its GET and its SETEX: what it read, and the updates that had led to that. */
  datatype Reading = Reading(held: Memory, lineage: seq<Update>, analysis: Analysis, today: string)

  /** `lineage` are the updates behind the stored memory, `written` all that were ever written. */
  datatype Shared = Shared(memory: Memory, lineage: seq<Update>, readings: map<nat, Reading>, written: seq<Update>)

  datatype SharedStep =
    | Read(id: nat, analysis: Analysis, today: string)
    | Write(id: nat, result: Memory)
    | Abandon(id: nat)
    | Lose

  const EMPTY := Shared(NOTHING, [], map[], [])

  /** At most `k` updates are under way. */
  ghost function Next(k: nat, s: Shared, step: SharedStep): Shared {
    match step
    case Read(id, analysis, today) =>
      if id in s.readings || |s.readings| >= k then s
      else s.(readings := s.readings[id := Reading(s.memory, s.lineage, analysis, today)])
    case Write(id, result) =>
      if id !in s.readings || !Updated(s.readings[id].held, s.readings[id].analysis, s.readings[id].today, result) then s
      else
        var r := s.readings[id];
        var update := Saved(r.analysis, r.today);
        Shared(result, r.lineage + [update], s.readings - {id}, s.written + [update])
    case Abandon(id) => s.(readings := s.readings - {id})
    case Lose => s.(memory := NOTHING, lineage := [])
  }

  ghost function Run(k: nat, s: Shared, steps: seq<SharedStep>): Shared
    decreases |steps|
  {
    if steps == [] then s else Run(k, Next(k, s, steps[0]), steps[1..])
  }

  // ----- Some of the updates, in their order -----

  /** `a` is what remains of `b` when some updates are left out. */
  ghost predicate Within(a: seq<Update>, b: seq<Update>)
    decreases |b|
  {
    a == [] || (b != [] && (Within(a, b[..|b| - 1]) || (a[|a| - 1] == b[|b| - 1] && Within(a[..|a| - 1], b[..|b| - 1]))))
  }

  lemma WithinSnoc(a: seq<Update>, b: seq<Update>, u: Update)
    requires Within(a, b)
    ensures Within(a, b + [u]) && Within(a + [u], b + [u])
  {
    assert (b + [u])[..|b + [u]| - 1] == b;
    assert (a + [u])[..|a + [u]| - 1] == a;
  }

  ghost predicate AllSaved(us: seq<Update>) {
    forall u :: u in us ==> u.Saved?
  }

  lemma {:induction false} SinceAllSaved(us: seq<Update>)
    requires AllSaved(us)
    ensures Since(us) == us
  {
    if us != [] {
      var n := |us| - 1;
      assert us == us[..n] + [us[n]] && us[n] in us;
      SinceAllSaved(us[..n]);
    }
  }

  /** Leaving updates out takes occurrences and stars away, and adds none. */
  lemma {:induction false} WithinCounts(a: seq<Update>, b: seq<Update>, title: string)
    requires Within(a, b)
    ensures |a| <= |b| && Occurrences(a, title) <= Occurrences(b, title) && Stars(a) <= Stars(b)
    decreases |b|
  {
    if a != [] {
      var n := |b| - 1;
      if Within(a, b[..n]) {
        WithinCounts(a, b[..n], title);
      } else {
        WithinCounts(a[..|a| - 1], b[..n], title);
      }
    }
  }

  // ----- What every interleaving keeps -----

  ghost predicate LineageOk(lineage: seq<Update>, m: Memory, written: seq<Update>) {
    AllSaved(lineage) && Reaches(lineage, m) && Within(lineage, written)
  }

  ghost predicate SharedInv(s: Shared) {
    && AllSaved(s.written)
    && LineageOk(s.lineage, s.memory, s.written)
    && forall id :: id in s.readings ==> LineageOk(s.readings[id].lineage, s.readings[id].held, s.written)
  }

  lemma ReachesSnoc(us: seq<Update>, m: Memory, u: Update, m': Memory)
    requires Reaches(us, m) && Step(m, u, m')
    ensures Reaches(us + [u], m')
  {
    var us' := us + [u];
    assert us'[..|us'| - 1] == us;
    assert Before(us', m);
  }

  lemma SharedNext(k: nat, s: Shared, step: SharedStep)
    requires SharedInv(s)
    ensures SharedInv(Next(k, s, step))
  {
    if step.Write? && Next(k, s, step) != s {
      var r := s.readings[step.id];
      var u := Saved(r.analysis, r.today);
      ReachesSnoc(r.lineage, r.held, u, step.result);
      WithinSnoc(r.lineage, s.written, u);
      forall id | id in s.readings
        ensures Within(s.readings[id].lineage, s.written + [u])
      {
        WithinSnoc(s.readings[id].lineage, s.written, u);
      }
    }
  }

  lemma {:induction false} SharedRun(k: nat, s: Shared, steps: seq<SharedStep>)
    requires SharedInv(s)
    ensures SharedInv(Run(k, s, steps))
    decreases |steps|
  {
    if steps != [] {
      SharedNext(k, s, steps[0]);
      SharedRun(k, Next(k, s, steps[0]), steps[1..]);
    }
  }

  /**
    For any number of overlapping updates, with updates abandoned and the memory lost
    at will: the memory is one that some of the written updates lead to. So all that is
    proved of histories holds of it, for those updates.
  */
  lemma MemoryOfSomeUpdates(k: nat, steps: seq<SharedStep>)
    ensures var s := Run(k, EMPTY, steps);
      Reaches(s.lineage, s.memory) && Within(s.lineage, s.written) && Since(s.lineage) == s.lineage
  {
    SharedRun(k, EMPTY, steps);
    SinceAllSaved(Run(k, EMPTY, steps).lineage);
  }

  /** In terms of all written updates: nothing is ever overstated. */
  lemma NeverOverstated(k: nat, steps: seq<SharedStep>)
    ensures var s := Run(k, EMPTY, steps);
      && Keyed(s.memory.alerts) && Descending(s.memory.alerts) && |s.memory.alerts| <= MAX_ALERTS
      && (forall x :: 0 <= CountOf(s.memory.alerts, x) <= Occurrences(s.written, x))
      && ToSet(s.memory.stars) <= Stars(s.written) && |s.memory.stars| == |ToSet(s.memory.stars)| <= MAX_STARS
      && s.memory.total <= |s.written|
      && s.memory.recs == Last(Recs(s.lineage), MAX_RECS)
  {
    MemoryOfSomeUpdates(k, steps);
    var s := Run(k, EMPTY, steps);
    AlertCounters(s.lineage, s.memory);
    StarProducts(s.lineage, s.memory);
    StoredRecommendations(s.lineage, s.memory);
    TotalOf(s.lineage, s.memory);
    forall x
      ensures CountOf(s.memory.alerts, x) <= Occurrences(s.written, x)
    {
      WithinCounts(s.lineage, s.written, x);
    }
    WithinCounts(s.lineage, s.written, "");
  }

  // ----- When nothing written is missing -----

  ghost predicate NoLoss(steps: seq<SharedStep>) {
    forall step :: step in steps ==> !step.Lose?
  }

  /** One update at a time, reading what the last one wrote. */
  ghost predicate InTurn(s: Shared) {
    && s.lineage == s.written
    && |s.readings| <= 1
    && forall id :: id in s.readings ==> s.readings[id].held == s.memory && s.readings[id].lineage == s.lineage
  }

  lemma InTurnNext(k: nat, s: Shared, step: SharedStep)
    requires k <= 1 && InTurn(s) && !step.Lose?
    ensures InTurn(Next(k, s, step))
  {
    match step
    case Read(id, _, _) =>
      if |s.readings| == 0 {
        assert s.readings == map[];
      }
    case Write(id, _) => OnlyReading(s.readings, id);
    case Abandon(id) => OnlyReading(s.readings, id);
    case Lose =>
  }

  lemma OnlyReading(readings: map<nat, Reading>, id: nat)
    requires |readings| <= 1
    ensures |readings - {id}| <= 1 && (id in readings ==> readings - {id} == map[])
  {
    SubsetSize((readings - {id}).Keys, readings.Keys);
    assert |readings.Keys| == |readings|;
    if id in readings {
      assert |readings.Keys - {id}| == 0;
      assert (readings - {id}).Keys == readings.Keys - {id};
    }
  }

  lemma {:induction false} InTurnRun(k: nat, s: Shared, steps: seq<SharedStep>)
    requires k <= 1 && InTurn(s) && NoLoss(steps)
    ensures InTurn(Run(k, s, steps))
    decreases |steps|
  {
    if steps != [] {
      assert steps[0] in steps;
      InTurnNext(k, s, steps[0]);
      assert forall step :: step in steps[1..] ==> step in steps;
      InTurnRun(k, Next(k, s, steps[0]), steps[1..]);
    }
  }

  ghost predicate TotalExact(s: Shared) {
    s.memory.total == |s.written|
  }

  ghost predicate RecsExact(s: Shared) {
    s.memory.recs == Last(Recs(s.written), MAX_RECS)
  }

  ghost predicate AlertsExact(s: Shared) {
    |Titles(s.written)| <= MAX_ALERTS ==> Exact(s.memory.alerts, s.written)
  }

  ghost predicate StarsExact(s: Shared) {
    |Stars(s.written)| <= MAX_STARS ==> ToSet(s.memory.stars) == Stars(s.written)
  }

  lemma AllInTurn(k: nat, steps: seq<SharedStep>)
    requires k <= 1 && NoLoss(steps)
    ensures var s := Run(k, EMPTY, steps);
      TotalExact(s) && RecsExact(s) && AlertsExact(s) && StarsExact(s)
  {
    InTurnRun(k, EMPTY, steps);
    MemoryOfSomeUpdates(k, steps);
    var s := Run(k, EMPTY, steps);
    AlertCounters(s.lineage, s.memory);
    StarProducts(s.lineage, s.memory);
    StoredRecommendations(s.lineage, s.memory);
    TotalOf(s.lineage, s.memory);
  }

  const ONE := Analysis(["s"], ["x"], ["do"])
  const OTHER := Analysis(["t"], ["y"], ["act"])

  function Sole(a: Analysis, today: string): Memory
    requires |a.alerts| == 1
  {
    Memory(today, 1, a.stars, [Entry(a.alerts[0], 1)], NewRecs(a.actions, today))
  }

  /** Both read the empty memory; the second to write does not know of the first. */
  function Overlap(today: string): seq<SharedStep> {
    [Read(0, ONE, today), Read(1, OTHER, today), Write(0, Sole(ONE, today)), Write(1, Sole(OTHER, today))]
  }

  lemma FirstUpdate(a: Analysis, today: string)
    requires |a.stars| == |a.alerts| == |a.actions| == 1
    ensures Updated(NOTHING, a, today, Sole(a, today))
  {
    assert ToSet(a.stars) == {a.stars[0]} && ToSet(NOTHING.stars) == {};
    assert a.alerts[..0] == [];
    assert AddTitles([], a.alerts) == [Entry(a.alerts[0], 1)];
    assert SortDesc([Entry(a.alerts[0], 1)]) == [Entry(a.alerts[0], 1)];
    assert NOTHING.recs + NewRecs(a.actions, today) == NewRecs(a.actions, today);
  }

  lemma OverlapRuns(k: nat, today: string)
    requires k >= 2
    ensures NoLoss(Overlap(today))
    ensures var s := Run(k, EMPTY, Overlap(today));
      s.memory == Sole(OTHER, today) && s.written == [Saved(ONE, today), Saved(OTHER, today)]
  {
    FirstUpdate(ONE, today);
    FirstUpdate(OTHER, today);
    var steps := Overlap(today);
    var s1 := Next(k, EMPTY, steps[0]);
    var s2 := Next(k, s1, steps[1]);
    var s3 := Next(k, s2, steps[2]);
    var s4 := Next(k, s3, steps[3]);
    assert |s1.readings| == 1;
    assert steps[2..][1..] == steps[3..] && steps[1..][1..] == steps[2..];
    assert Run(k, s3, steps[3..]) == s4;
    assert Run(k, s2, steps[2..]) == s4;
    assert Run(k, s1, steps[1..]) == s4;
  }

  lemma OneMore(us: seq<Update>, a: Analysis, today: string, title: string)
    ensures var us' := us + [Saved(a, today)];
      && Recs(us') == Recs(us) + NewRecs(a.actions, today)
      && Titles(us') == Titles(us) + ToSet(a.alerts)
      && Stars(us') == Stars(us) + ToSet(a.stars)
      && Occurrences(us', title) == Occurrences(us, title) + Times(a.alerts, title)
  {
    var us' := us + [Saved(a, today)];
    assert us'[..|us'| - 1] == us && us'[|us'| - 1] == Saved(a, today);
  }

  lemma TwoUpdates(a: Analysis, b: Analysis, today: string, title: string)
    ensures var us := [Saved(a, today), Saved(b, today)];
      && Recs(us) == NewRecs(a.actions, today) + NewRecs(b.actions, today)
      && Titles(us) == ToSet(a.alerts) + ToSet(b.alerts)
      && Stars(us) == ToSet(a.stars) + ToSet(b.stars)
      && Occurrences(us, title) == Times(a.alerts, title) + Times(b.alerts, title)
  {
    OneMore([], a, today, title);
    OneMore([Saved(a, today)], b, today, title);
    assert [] + [Saved(a, today)] == [Saved(a, today)];
    assert [Saved(a, today)] + [Saved(b, today)] == [Saved(a, today), Saved(b, today)];
  }

  /** An overlap loses the first analysis altogether: its count, its recommendation, its star and its place in the total. */
  lemma OverlapLoses(k: nat, today: string)
    requires k >= 2
    ensures NoLoss(Overlap(today))
    ensures var s := Run(k, EMPTY, Overlap(today));
      !TotalExact(s) && !RecsExact(s) && !AlertsExact(s) && !StarsExact(s)
  {
    OverlapRuns(k, today);
    TwoUpdates(ONE, OTHER, today, "x");
    var s := Run(k, EMPTY, Overlap(today));
    TimesPositive(ONE.alerts, "x");
    assert CountOf([Entry("y", 1)], "x") == 0;
    assert Titles(s.written) == {"x", "y"} && Stars(s.written) == {"s", "t"};
    assert "s" in Stars(s.written) && "s" !in ToSet(s.memory.stars);
    assert |Recs(s.written)| == 2 && |s.memory.recs| == 1;
  }

  /**
    The exact condition for each of the four equalities, over all runs in which the
    memory is not lost: the tenant's updates do not overlap.
  */
  lemma NothingMissingIffNoOverlap(k: nat)
    ensures (forall steps :: NoLoss(steps) ==> TotalExact(Run(k, EMPTY, steps))) <==> k <= 1
    ensures (forall steps :: NoLoss(steps) ==> RecsExact(Run(k, EMPTY, steps))) <==> k <= 1
    ensures (forall steps :: NoLoss(steps) ==> AlertsExact(Run(k, EMPTY, steps))) <==> k <= 1
    ensures (forall steps :: NoLoss(steps) ==> StarsExact(Run(k, EMPTY, steps))) <==> k <= 1
  {
    if k <= 1 {
      forall steps | NoLoss(steps)
        ensures var s := Run(k, EMPTY, steps); TotalExact(s) && RecsExact(s) && AlertsExact(s) && StarsExact(s)
      {
        AllInTurn(k, steps);
      }
    } else {
      OverlapLoses(k, "");
    }
  }
}
