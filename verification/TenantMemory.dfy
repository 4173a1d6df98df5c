/**
  The bounded memory an analysis leaves behind for its tenant: the ten most
  frequent alert titles, the last twenty recommendations and up to twenty star
  products. The theorems compare it with the unbounded history of the updates that
  led to it; `MemoryOverlap` says which these are when updates overlap.
*/
module TenantMemory {
  import opened Wrappers
  import opened Tally

  const MAX_ALERTS := 10
  const MAX_RECS := 20
  const MAX_STARS := 20

  datatype Recommendation = Recommendation(date: string, action: string)

  /** The fields of an analysis that the memory keeps something of. */
  datatype Analysis = Analysis(stars: seq<string>, alerts: seq<string>, actions: seq<string>)

  datatype Memory = Memory(first: string, total: nat, stars: seq<string>, alerts: seq<Entry>, recs: seq<Recommendation>)

  const NOTHING := Memory("", 0, [], [], [])

  /** An analysis saved on a day, or the loss of the memory: expired, deleted or unreadable. */
  datatype Update = Saved(analysis: Analysis, today: string) | Lost

  function Take<T>(s: seq<T>, n: nat): seq<T> {
    if |s| <= n then s else s[..n]
  }

  function Last<T>(s: seq<T>, n: nat): seq<T> {
    if |s| <= n then s else s[|s| - n..]
  }

  function ToSet<T>(s: seq<T>): set<T> {
    set x | x in s
  }

  function AddTitles(t: seq<Entry>, titles: seq<string>): seq<Entry> {
    if titles == [] then t else Add(AddTitles(t, titles[..|titles| - 1]), titles[|titles| - 1], 1)
  }

  function NewRecs(actions: seq<string>, today: string): seq<Recommendation> {
    seq(|actions|, i requires 0 <= i < |actions| => Recommendation(today, actions[i]))
  }

  /** Some listing of at most twenty elements of a set: the order of a Python set is not specified. */
  ghost predicate Listing(s: seq<string>, all: set<string>) {
    && ToSet(s) <= all && |s| == |ToSet(s)|
    && |s| == if |all| <= MAX_STARS then |all| else MAX_STARS
  }

  /** _update_tenant_memory. */
  ghost predicate Updated(m: Memory, a: Analysis, today: string, m': Memory) {
    && m'.first == (if m.first == "" then today else m.first)
    && m'.total == m.total + 1
    && Listing(m'.stars, ToSet(m.stars) + ToSet(a.stars))
    && m'.alerts == Take(SortDesc(AddTitles(m.alerts, a.alerts)), MAX_ALERTS)
    && m'.recs == Last(m.recs + NewRecs(a.actions, today), MAX_RECS)
  }

  /**
    The counters kept of those held and an analysis's titles: ten of them, or all if
    there are fewer, each with its exact value, and none dropped for a rarer one.
  */
  ghost predicate MostFrequent(held: seq<Entry>, titles: seq<string>, kept: seq<Entry>) {
    var all := Names(held) + ToSet(titles);
    && Keyed(kept) && Descending(kept)
    && |kept| == (if |all| < 10 then |all| else 10)
    && (forall e :: e in kept ==> e.name in all && e.count == CountOf(held, e.name) + Times(titles, e.name))
    && (forall x, e :: x in all && x !in Names(kept) && e in kept ==> CountOf(held, x) + Times(titles, x) <= e.count)
  }

  /** The last twenty of the recommendations held and those an analysis makes today. */
  predicate MostRecent(held: seq<Recommendation>, actions: seq<string>, today: string, kept: seq<Recommendation>) {
    var n := |held| + |actions|;
    && |kept| == (if n < 20 then n else 20)
    && forall j :: 0 <= j < |kept| ==>
         var i := n - |kept| + j;
         kept[j] == if i < |held| then held[i] else Recommendation(today, actions[i - |held|])
  }

  class MemoryStore {
    var memory: Memory

    constructor ()
      ensures memory == NOTHING
    {
      memory := NOTHING;
    }

    /** _update_tenant_memory with nothing between its GET and its SETEX. */
    method Update(a: Analysis, today: string)
      modifies this
      ensures Updated(old(memory), a, today, memory)
    {
      var held := memory;
      memory := Build(held, a, today);
    }

    /** What the loops make of the memory that was read. */
    method Build(held: Memory, a: Analysis, today: string) returns (m: Memory)
      ensures Updated(held, a, today, m)
      ensures Keyed(held.alerts) ==> MostFrequent(held.alerts, a.alerts, m.alerts)
      ensures MostRecent(held.recs, a.actions, today, m.recs)
      ensures var stars := ToSet(held.stars) + ToSet(a.stars);
        ToSet(m.stars) <= stars && |m.stars| == |ToSet(m.stars)| == if |stars| < 20 then |stars| else 20
      ensures m.first == (if held.first == "" then today else held.first) && m.total == held.total + 1
    {
      if Keyed(held.alerts) {
        TopTen(held.alerts, a.alerts);
      }
      RecentTwenty(held.recs, a.actions, today);
      var first := if held.first == "" then today else held.first;
      var stars := AddStars(held.stars, a.stars);
      var starList := ListSome(stars);
      var alerts := CountAlerts(held.alerts, a.alerts);
      var recs := AddRecs(held.recs, a.actions, today);
      m := Memory(first, held.total + 1, starList, Take(SortDesc(alerts), MAX_ALERTS), Last(recs, MAX_RECS));
    }

    method AddStars(held: seq<string>, fromAnalysis: seq<string>) returns (stars: set<string>)
      ensures stars == ToSet(held) + ToSet(fromAnalysis)
    {
      stars := ToSet(held);
      for i := 0 to |fromAnalysis|
        invariant stars == ToSet(held) + ToSet(fromAnalysis[..i])
      {
        assert fromAnalysis[..i + 1] == fromAnalysis[..i] + [fromAnalysis[i]];
        stars := stars + {fromAnalysis[i]};
      }
      assert fromAnalysis[..|fromAnalysis|] == fromAnalysis;
    }

    method CountAlerts(held: seq<Entry>, titles: seq<string>) returns (existing: seq<Entry>)
      ensures existing == AddTitles(held, titles)
    {
      existing := held;
      for i := 0 to |titles|
        invariant existing == AddTitles(held, titles[..i])
      {
        assert titles[..i + 1][..i] == titles[..i];
        existing := Add(existing, titles[i], 1);
      }
      assert titles[..|titles|] == titles;
    }

    method AddRecs(held: seq<Recommendation>, actions: seq<string>, today: string) returns (recs: seq<Recommendation>)
      ensures recs == held + NewRecs(actions, today)
    {
      recs := held;
      for i := 0 to |actions|
        invariant recs == held + NewRecs(actions[..i], today)
      {
        assert NewRecs(actions[..i + 1], today) == NewRecs(actions[..i], today) + [Recommendation(today, actions[i])];
        recs := recs + [Recommendation(today, actions[i])];
      }
      assert actions[..|actions|] == actions;
    }

    /** list(set)[:20], in an order that is nobody's choice. */
    method ListSome(all: set<string>) returns (s: seq<string>)
      ensures Listing(s, all)
    {
      s := [];
      var left := all;
      while left != {} && |s| < MAX_STARS
        invariant ToSet(s) == all - left && left <= all
        invariant |s| == |ToSet(s)| <= MAX_STARS
        decreases left
      {
        var x :| x in left;
        assert ToSet(s + [x]) == ToSet(s) + {x};
        s := s + [x];
        left := left - {x};
      }
      assert |ToSet(s)| + |left| == |all| by {
        assert all == ToSet(s) + left;
      }
    }
  }

  // ----- Histories -----

  ghost predicate Step(m: Memory, u: Update, m': Memory) {
    match u
    case Saved(a, today) => Updated(m, a, today, m')
    case Lost => m' == NOTHING
  }

  /** `m` is a memory that the updates, from the first to the last, can leave. */
  ghost predicate Reaches(us: seq<Update>, m: Memory)
    decreases |us|, 1
  {
    if us == [] then m == NOTHING
    else exists m0: Memory :: Before(us, m0) && Step(m0, us[|us| - 1], m)
  }

  /** `m0` is a memory that all updates but the last can leave. */
  ghost predicate Before(us: seq<Update>, m0: Memory)
    requires us != []
    decreases |us|, 0
  {
    Reaches(us[..|us| - 1], m0)
  }

  /** The analyses since the memory was last lost. */
  function Since(us: seq<Update>): seq<Update> {
    if us == [] || us[|us| - 1].Lost? then [] else Since(us[..|us| - 1]) + [us[|us| - 1]]
  }

  function Times(titles: seq<string>, title: string): nat {
    if titles == [] then 0 else Times(titles[..|titles| - 1], title) + if titles[|titles| - 1] == title then 1 else 0
  }

  /** How often an alert title occurred in the analyses. */
  function Occurrences(us: seq<Update>, title: string): nat {
    if us == [] then 0
    else Occurrences(us[..|us| - 1], title) + if us[|us| - 1].Saved? then Times(us[|us| - 1].analysis.alerts, title) else 0
  }

  function Titles(us: seq<Update>): set<string> {
    if us == [] then {}
    else Titles(us[..|us| - 1]) + if us[|us| - 1].Saved? then ToSet(us[|us| - 1].analysis.alerts) else {}
  }

  function Stars(us: seq<Update>): set<string> {
    if us == [] then {}
    else Stars(us[..|us| - 1]) + if us[|us| - 1].Saved? then ToSet(us[|us| - 1].analysis.stars) else {}
  }

  function Recs(us: seq<Update>): seq<Recommendation> {
    if us == [] then []
    else Recs(us[..|us| - 1]) + if us[|us| - 1].Saved? then NewRecs(us[|us| - 1].analysis.actions, us[|us| - 1].today) else []
  }

  // ----- Alert counters -----

  lemma {:induction false} AddTitlesCounts(t: seq<Entry>, titles: seq<string>)
    requires Keyed(t) && forall e :: e in t ==> e.count >= 1
    ensures var t' := AddTitles(t, titles);
      && Keyed(t') && (forall e :: e in t' ==> e.count >= 1)
      && (forall x :: CountOf(t', x) == CountOf(t, x) + Times(titles, x))
      && (forall x :: Has(t', x) <==> Has(t, x) || x in titles)
  {
    if titles != [] {
      var n := |titles| - 1;
      AddTitlesCounts(t, titles[..n]);
      var t0 := AddTitles(t, titles[..n]);
      AddKeyed(t0, titles[n], 1);
      AddNames(t0, titles[n], 1);
      AddPositive(t0, titles[n]);
      forall x
        ensures x in titles <==> x in titles[..n] || x == titles[n]
      {
        assert titles == titles[..n] + [titles[n]];
      }
      forall x
        ensures CountOf(Add(t0, titles[n], 1), x) == CountOf(t, x) + Times(titles, x)
      {
        AddCounts(t0, titles[n], 1, x);
      }
    }
  }

  lemma OneName(t: seq<Entry>, title: string)
    ensures Names(Add(t, title, 1)) == Names(t) + {title}
  {
    AddNames(t, title, 1);
    forall x
      ensures x in Names(Add(t, title, 1)) <==> x in Names(t) || x == title
    {
      NamesHas(t, x);
      NamesHas(Add(t, title, 1), x);
    }
  }

  lemma {:induction false} AddTitlesNames(t: seq<Entry>, titles: seq<string>)
    requires Keyed(t)
    ensures Keyed(AddTitles(t, titles)) && Names(AddTitles(t, titles)) == Names(t) + ToSet(titles)
  {
    if titles != [] {
      var n := |titles| - 1;
      AddTitlesNames(t, titles[..n]);
      AddKeyed(AddTitles(t, titles[..n]), titles[n], 1);
      OneName(AddTitles(t, titles[..n]), titles[n]);
      ToSetSnoc(titles[..n], titles[n]);
      assert titles == titles[..n] + [titles[n]];
    }
  }

  lemma ToSetSnoc<T>(s: seq<T>, x: T)
    ensures ToSet(s + [x]) == ToSet(s) + {x}
  {
  }

  lemma {:induction false} AddTitlesExactly(t: seq<Entry>, titles: seq<string>, x: string)
    ensures CountOf(AddTitles(t, titles), x) == CountOf(t, x) + Times(titles, x)
  {
    if titles != [] {
      var n := |titles| - 1;
      AddTitlesExactly(t, titles[..n], x);
      AddCounts(AddTitles(t, titles[..n]), titles[n], 1, x);
    }
  }

  lemma NamesHas(t: seq<Entry>, x: string)
    ensures x in Names(t) <==> Has(t, x)
  {
    if Has(t, x) {
      var i :| 0 <= i < |t| && t[i].name == x;
      assert t[i] in t;
    }
  }

  lemma KeptCount(sorted: seq<Entry>, n: nat, i: nat)
    requires Keyed(sorted) && i < |Take(sorted, n)|
    ensures Take(sorted, n)[i].name in Names(sorted) && Take(sorted, n)[i].count == CountOf(sorted, Take(sorted, n)[i].name)
  {
    CountAt(sorted, i);
    NamesHas(sorted, sorted[i].name);
  }

  lemma DroppedCount(sorted: seq<Entry>, n: nat, x: string, i: nat)
    requires Keyed(sorted) && Descending(sorted) && i < |Take(sorted, n)| && x in Names(sorted) && x !in Names(Take(sorted, n))
    ensures CountOf(sorted, x) <= Take(sorted, n)[i].count
  {
    NamesHas(sorted, x);
    NamesHas(Take(sorted, n), x);
    var j :| 0 <= j < |sorted| && sorted[j].name == x;
    CountAt(sorted, j);
  }

  /** What a cut of sorted counters keeps. */
  lemma CutKeepsMost(sorted: seq<Entry>, n: nat)
    requires Keyed(sorted) && Descending(sorted)
    ensures var kept := Take(sorted, n);
      && Keyed(kept) && Descending(kept) && |kept| == (if |sorted| < n then |sorted| else n)
      && (forall e :: e in kept ==> e.name in Names(sorted) && e.count == CountOf(sorted, e.name))
      && (forall x, e :: x in Names(sorted) && x !in Names(kept) && e in kept ==> CountOf(sorted, x) <= e.count)
  {
    var kept := Take(sorted, n);
    forall e | e in kept
      ensures e.name in Names(sorted) && e.count == CountOf(sorted, e.name)
      ensures forall x :: x in Names(sorted) && x !in Names(kept) ==> CountOf(sorted, x) <= e.count
    {
      var i :| 0 <= i < |kept| && kept[i] == e;
      KeptCount(sorted, n, i);
      forall x | x in Names(sorted) && x !in Names(kept)
        ensures CountOf(sorted, x) <= e.count
      {
        DroppedCount(sorted, n, x, i);
      }
    }
  }

  lemma SortedNames(t: seq<Entry>)
    requires Keyed(t)
    ensures Keyed(SortDesc(t)) && Descending(SortDesc(t)) && |SortDesc(t)| == |Names(t)|
    ensures Names(SortDesc(t)) == Names(t) && forall x :: CountOf(SortDesc(t), x) == CountOf(t, x)
  {
    SortSorts(t);
    SameEntriesSameCounts(t, SortDesc(t));
    KeyedSize(t);
    forall x
      ensures x in Names(SortDesc(t)) <==> x in Names(t)
    {
      NamesHas(t, x);
      NamesHas(SortDesc(t), x);
    }
  }

  lemma TopTen(held: seq<Entry>, titles: seq<string>)
    requires Keyed(held)
    ensures MostFrequent(held, titles, Take(SortDesc(AddTitles(held, titles)), MAX_ALERTS))
  {
    AddTitlesNames(held, titles);
    forall x
      ensures CountOf(AddTitles(held, titles), x) == CountOf(held, x) + Times(titles, x)
    {
      AddTitlesExactly(held, titles, x);
    }
    SortedNames(AddTitles(held, titles));
    CutKeepsMost(SortDesc(AddTitles(held, titles)), MAX_ALERTS);
  }

  lemma RecentTwenty(held: seq<Recommendation>, actions: seq<string>, today: string)
    ensures MostRecent(held, actions, today, Last(held + NewRecs(actions, today), MAX_RECS))
  {
    var all := held + NewRecs(actions, today);
    var kept := Last(all, MAX_RECS);
    forall j | 0 <= j < |kept|
      ensures kept[j] == all[|all| - |kept| + j]
    {
    }
  }

  lemma {:induction false} AddPositive(t: seq<Entry>, name: string)
    requires forall e :: e in t ==> e.count >= 1
    ensures forall e :: e in Add(t, name, 1) ==> e.count >= 1
  {
    if t != [] {
      assert t == [t[0]] + t[1..];
      AddPositive(t[1..], name);
    }
  }

  lemma {:induction false} TimesPositive(titles: seq<string>, title: string)
    ensures Times(titles, title) > 0 <==> title in titles
  {
    if titles != [] {
      var n := |titles| - 1;
      assert titles == titles[..n] + [titles[n]];
      TimesPositive(titles[..n], title);
    }
  }

  lemma {:induction false} OccurrencesPositive(us: seq<Update>, title: string)
    ensures Occurrences(us, title) > 0 <==> title in Titles(us)
  {
    if us != [] {
      OccurrencesPositive(us[..|us| - 1], title);
      if us[|us| - 1].Saved? {
        TimesPositive(us[|us| - 1].analysis.alerts, title);
      }
    }
  }

  /** Every title's stored counter is its true number of occurrences. */
  ghost predicate Exact(t: seq<Entry>, us: seq<Update>) {
    forall x :: CountOf(t, x) == Occurrences(us, x)
  }

  /** The stored counters against a history: sound always, exact while the titles fit. */
  ghost predicate AlertInv(t: seq<Entry>, us: seq<Update>) {
    && Keyed(t) && Descending(t) && |t| == (if |Titles(us)| < MAX_ALERTS then |Titles(us)| else MAX_ALERTS)
    && Names(t) <= Titles(us)
    && (forall e :: e in t ==> e.count >= 1)
    && (forall x :: CountOf(t, x) <= Occurrences(us, x))
    && (|Titles(us)| <= MAX_ALERTS ==> Exact(t, us))
  }

  lemma HasIffCounted(t: seq<Entry>, x: string)
    requires Keyed(t) && forall e :: e in t ==> e.count >= 1
    ensures Has(t, x) <==> CountOf(t, x) > 0
  {
    if Has(t, x) {
      var i :| 0 <= i < |t| && t[i].name == x;
      CountAt(t, i);
      assert t[i] in t;
    } else {
      AbsentCountsZero(t, x);
    }
  }

  /** When the counts are exact, the names are the titles. */
  lemma ExactNames(t: seq<Entry>, us: seq<Update>)
    requires Keyed(t) && forall e :: e in t ==> e.count >= 1
    requires Exact(t, us)
    ensures Names(t) == Titles(us)
  {
    forall x
      ensures x in Names(t) <==> x in Titles(us)
    {
      HasIffCounted(t, x);
      OccurrencesPositive(us, x);
      NamesHas(t, x);
    }
  }

  lemma ExactSize(t: seq<Entry>, us: seq<Update>)
    requires Keyed(t) && forall e :: e in t ==> e.count >= 1
    requires Exact(t, us)
    ensures |t| == |Titles(us)|
  {
    KeyedSize(t);
    ExactNames(t, us);
  }

  lemma AlertStep(t: seq<Entry>, us: seq<Update>, u: Update)
    requires AlertInv(t, us) && u.Saved?
    ensures AlertInv(Take(SortDesc(AddTitles(t, u.analysis.alerts)), MAX_ALERTS), us + [u])
  {
    var us' := us + [u];
    assert us'[..|us|] == us;
    var added := AddTitles(t, u.analysis.alerts);
    TopTen(t, u.analysis.alerts);
    AlertSize(t, us, u.analysis.alerts);
    AlertBounds(t, us, u);
    if |Titles(us')| <= MAX_ALERTS {
      SubsetSize(Titles(us), Titles(us'));
      AlertExact(t, us, u);
    }
  }

  lemma AlertBounds(t: seq<Entry>, us: seq<Update>, u: Update)
    requires AlertInv(t, us) && u.Saved?
    ensures var t' := Take(SortDesc(AddTitles(t, u.analysis.alerts)), MAX_ALERTS);
      (forall e :: e in t' ==> e.count >= 1) && forall x :: CountOf(t', x) <= Occurrences(us + [u], x)
  {
    var us' := us + [u];
    assert us'[..|us|] == us;
    AddTitlesCounts(t, u.analysis.alerts);
    var added := AddTitles(t, u.analysis.alerts);
    var sorted := SortDesc(added);
    SortSorts(added);
    SameEntriesSameCounts(added, sorted);
    assert forall e :: e in sorted ==> e in multiset(added);
    CutAlerts(sorted, Take(sorted, MAX_ALERTS), us');
  }

  lemma AlertExact(t: seq<Entry>, us: seq<Update>, u: Update)
    requires AlertInv(t, us) && u.Saved? && |Titles(us + [u])| <= MAX_ALERTS && |Titles(us)| <= MAX_ALERTS
    ensures Exact(Take(SortDesc(AddTitles(t, u.analysis.alerts)), MAX_ALERTS), us + [u])
  {
    var us' := us + [u];
    assert us'[..|us|] == us;
    AddTitlesCounts(t, u.analysis.alerts);
    var added := AddTitles(t, u.analysis.alerts);
    var sorted := SortDesc(added);
    SortSorts(added);
    SameEntriesSameCounts(added, sorted);
    assert forall e :: e in sorted ==> e in multiset(added);
    ExactSize(sorted, us');
  }

  /** Ten counters are left as soon as there were ten titles. */
  lemma AlertSize(t: seq<Entry>, us: seq<Update>, titles: seq<string>)
    requires AlertInv(t, us)
    ensures var all, known := Names(t) + ToSet(titles), Titles(us) + ToSet(titles);
      all <= known && (if |all| < 10 then |all| else 10) == if |known| < 10 then |known| else 10
  {
    var all, known := Names(t) + ToSet(titles), Titles(us) + ToSet(titles);
    SubsetSize(all, known);
    if |Titles(us)| <= MAX_ALERTS {
      ExactNames(t, us);
    } else {
      KeyedSize(t);
      SubsetSize(Names(t), all);
    }
  }

  lemma CutAlerts(sorted: seq<Entry>, t: seq<Entry>, us: seq<Update>)
    requires Keyed(sorted) && Descending(sorted) && t == Take(sorted, MAX_ALERTS)
    requires forall e :: e in sorted ==> e.count >= 1
    requires forall x :: CountOf(sorted, x) <= Occurrences(us, x)
    ensures Keyed(t) && Descending(t) && |t| <= MAX_ALERTS
    ensures forall e :: e in t ==> e.count >= 1
    ensures forall x :: CountOf(t, x) <= Occurrences(us, x)
  {
    forall x
      ensures CountOf(t, x) <= Occurrences(us, x)
    {
      CutCounts(sorted, |t|, x);
      assert sorted[..|t|] == t;
    }
  }

  lemma {:induction false} AlertsReached(us: seq<Update>, m: Memory)
    requires Reaches(us, m)
    ensures AlertInv(m.alerts, Since(us))
  {
    if us != [] {
      var n := |us| - 1;
      var m0: Memory :| Before(us, m0) && Step(m0, us[n], m);
      AlertsReached(us[..n], m0);
      if us[n].Saved? {
        AlertStep(m0.alerts, Since(us[..n]), us[n]);
      }
    }
  }

  /**
    After any updates and losses the counters are distinct titles in descending
    order, ten of them as soon as ten titles occurred and all of them before, and never
    above the true number of occurrences since the last loss; they are exact for every
    title if and only if at most ten titles occurred.
  */
  lemma AlertCounters(us: seq<Update>, m: Memory)
    requires Reaches(us, m)
    ensures Keyed(m.alerts) && Descending(m.alerts)
    ensures |m.alerts| == if |Titles(Since(us))| < 10 then |Titles(Since(us))| else 10
    ensures forall x :: 0 <= CountOf(m.alerts, x) <= Occurrences(Since(us), x)
    ensures Exact(m.alerts, Since(us)) <==> |Titles(Since(us))| <= 10
  {
    AlertsReached(us, m);
    forall x
      ensures 0 <= CountOf(m.alerts, x)
    {
      HasIffCounted(m.alerts, x);
      if !Has(m.alerts, x) {
        AbsentCountsZero(m.alerts, x);
      }
    }
    if Exact(m.alerts, Since(us)) {
      ExactSize(m.alerts, Since(us));
    }
  }

  // ----- Recommendations, totals and the first date -----

  lemma LastOfLast<T>(a: seq<T>, b: seq<T>, n: nat)
    ensures Last(Last(a, n) + b, n) == Last(a + b, n)
  {
  }

  /** The stored recommendations are the last twenty of all those made since the last loss. */
  lemma {:induction false} StoredRecommendations(us: seq<Update>, m: Memory)
    requires Reaches(us, m)
    ensures m.recs == Last(Recs(Since(us)), MAX_RECS)
    ensures var all := Recs(Since(us));
      |m.recs| == (if |all| < 20 then |all| else 20) && m.recs == all[|all| - |m.recs|..]
  {
    if us != [] {
      var n := |us| - 1;
      var m0: Memory :| Before(us, m0) && Step(m0, us[n], m);
      StoredRecommendations(us[..n], m0);
      if us[n].Saved? {
        var before := Since(us[..n]);
        assert Since(us)[..|before|] == before;
        LastOfLast(Recs(before), NewRecs(us[n].analysis.actions, us[n].today), MAX_RECS);
      }
    }
  }

  /** The total is the number of analyses since the last loss. */
  lemma {:induction false} TotalOf(us: seq<Update>, m: Memory)
    requires Reaches(us, m)
    ensures m.total == |Since(us)|
  {
    if us != [] {
      var n := |us| - 1;
      var m0: Memory :| Before(us, m0) && Step(m0, us[n], m);
      TotalOf(us[..n], m0);
    }
  }

  /** And the first date is that of the first of them. */
  lemma {:induction false} TotalAndFirstDate(us: seq<Update>, m: Memory)
    requires Reaches(us, m) && forall i :: 0 <= i < |us| && us[i].Saved? ==> us[i].today != ""
    ensures m.total == |Since(us)|
    ensures forall i :: 0 <= i < |Since(us)| ==> Since(us)[i].Saved? && Since(us)[i].today != ""
    ensures m.first == if Since(us) == [] then "" else Since(us)[0].today
  {
    if us != [] {
      var n := |us| - 1;
      var m0: Memory :| Before(us, m0) && Step(m0, us[n], m);
      TotalAndFirstDate(us[..n], m0);
    }
  }

  // ----- Star products -----

  /**
    The stored star products are distinct stars of the history, at most twenty, and
    all of them if and only if at most twenty products were ever stars.
  */
  lemma {:induction false} StarProducts(us: seq<Update>, m: Memory)
    requires Reaches(us, m)
    ensures ToSet(m.stars) <= Stars(Since(us)) && |m.stars| == |ToSet(m.stars)| <= 20
    ensures ToSet(m.stars) == Stars(Since(us)) <==> |Stars(Since(us))| <= 20
  {
    if us == [] {
      assert ToSet(m.stars) == {};
    } else {
      var n := |us| - 1;
      var m0: Memory :| Before(us, m0) && Step(m0, us[n], m);
      StarProducts(us[..n], m0);
      if us[n].Saved? {
        var before := Since(us[..n]);
        assert Since(us)[..|before|] == before;
        var all := ToSet(m0.stars) + ToSet(us[n].analysis.stars);
        SubsetSize(Stars(before), Stars(Since(us)));
        SubsetSize(all, Stars(Since(us)));
        if |Stars(Since(us))| <= MAX_STARS {
          FullSubset(ToSet(m.stars), all);
        }
      } else {
        assert ToSet(m.stars) == {};
      }
    }
  }

  lemma FullSubset(a: set<string>, b: set<string>)
    requires a <= b && |a| == |b|
    ensures a == b
  {
    if x :| x in b && x !in a {
      SubsetSize(a, b - {x});
    }
  }
}
