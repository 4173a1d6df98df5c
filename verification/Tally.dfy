/** A counting dictionary in insertion order, and its stable sort by descending count. */
module Tally {

  datatype Entry = Entry(name: string, count: int)

  ghost predicate Keyed(t: seq<Entry>) {
    forall i, j :: 0 <= i < j < |t| ==> t[i].name != t[j].name
  }

  /** d.get(name, 0). */
  function CountOf(t: seq<Entry>, name: string): int {
    if t == [] then 0
    else if t[0].name == name then t[0].count
    else CountOf(t[1..], name)
  }

  predicate Has(t: seq<Entry>, name: string) {
    exists i :: 0 <= i < |t| && t[i].name == name
  }

  /** d[name] = d.get(name, 0) + n. */
  function Add(t: seq<Entry>, name: string, n: int): seq<Entry> {
    if t == [] then [Entry(name, n)]
    else if t[0].name == name then [Entry(name, t[0].count + n)] + t[1..]
    else [t[0]] + Add(t[1..], name, n)
  }

  function Sum(t: seq<Entry>): int {
    if t == [] then 0 else t[0].count + Sum(t[1..])
  }

  ghost function Names(t: seq<Entry>): set<string> {
    set e | e in t :: e.name
  }

  lemma {:induction false} AddCounts(t: seq<Entry>, name: string, n: int, other: string)
    ensures CountOf(Add(t, name, n), other) == CountOf(t, other) + if other == name then n else 0
  {
    if t != [] && t[0].name != name {
      AddCounts(t[1..], name, n, other);
      assert Add(t, name, n)[1..] == Add(t[1..], name, n);
    } else if t != [] {
      assert Add(t, name, n)[1..] == t[1..];
    }
  }

  lemma {:induction false} AddSum(t: seq<Entry>, name: string, n: int)
    ensures Sum(Add(t, name, n)) == Sum(t) + n
  {
    if t != [] && t[0].name != name {
      AddSum(t[1..], name, n);
      assert Add(t, name, n)[1..] == Add(t[1..], name, n);
    } else if t != [] {
      assert Add(t, name, n)[1..] == t[1..];
    }
  }

  lemma {:induction false} AddNames(t: seq<Entry>, name: string, n: int)
    ensures forall x :: Has(Add(t, name, n), x) <==> Has(t, x) || x == name
    ensures |Add(t, name, n)| == if Has(t, name) then |t| else |t| + 1
  {
    var t' := Add(t, name, n);
    if t == [] {
      assert t'[0].name == name;
    } else if t[0].name == name {
      forall x ensures Has(t', x) <==> Has(t, x) || x == name {
        HasCons(t[0], t[1..], x);
        HasCons(t'[0], t[1..], x);
        assert t == [t[0]] + t[1..];
      }
    } else {
      AddNames(t[1..], name, n);
      forall x ensures Has(t', x) <==> Has(t, x) || x == name {
        HasCons(t[0], t[1..], x);
        HasCons(t[0], Add(t[1..], name, n), x);
        assert t == [t[0]] + t[1..];
      }
      HasCons(t[0], t[1..], name);
      assert t == [t[0]] + t[1..];
    }
  }

  lemma HasCons(e: Entry, t: seq<Entry>, x: string)
    ensures Has([e] + t, x) <==> e.name == x || Has(t, x)
  {
    var all := [e] + t;
    if Has(t, x) {
      var i :| 0 <= i < |t| && t[i].name == x;
      assert all[i + 1].name == x;
    }
    if e.name == x {
      assert all[0].name == x;
    }
  }

  lemma {:induction false} AddKeyed(t: seq<Entry>, name: string, n: int)
    requires Keyed(t)
    ensures Keyed(Add(t, name, n))
  {
    if t != [] && t[0].name != name {
      AddKeyed(t[1..], name, n);
      AddNames(t[1..], name, n);
      var rest := Add(t[1..], name, n);
      assert !Has(t[1..], t[0].name);
      assert forall i :: 0 <= i < |rest| ==> Has(rest, rest[i].name);
    }
  }

  lemma {:induction false} AbsentCountsZero(t: seq<Entry>, name: string)
    requires !Has(t, name)
    ensures CountOf(t, name) == 0
  {
    if t != [] {
      assert t[0].name != name;
      assert forall i :: 0 <= i < |t| - 1 ==> t[1..][i].name != name;
      AbsentCountsZero(t[1..], name);
    }
  }

  lemma {:induction false} CountAt(t: seq<Entry>, i: nat)
    requires Keyed(t) && i < |t|
    ensures CountOf(t, t[i].name) == t[i].count
  {
    if i > 0 {
      assert t[0].name != t[i].name;
      CountAt(t[1..], i - 1);
    }
  }

  lemma {:induction false} KeyedSize(t: seq<Entry>)
    requires Keyed(t)
    ensures |Names(t)| == |t|
  {
    if t == [] {
      assert Names(t) == {};
    } else {
      KeyedSize(t[1..]);
      assert t == [t[0]] + t[1..];
      assert Names(t) == {t[0].name} + Names(t[1..]);
      forall e | e in t[1..]
        ensures e.name != t[0].name
      {
        var i :| 0 <= i < |t[1..]| && t[1..][i] == e;
        assert t[0].name != t[i + 1].name;
      }
    }
  }

  /** Cutting a tally forgets some names and keeps the counts of the others. */
  lemma {:induction false} CutCounts(t: seq<Entry>, n: nat, name: string)
    requires n <= |t|
    ensures CountOf(t[..n], name) == CountOf(t, name) || (CountOf(t[..n], name) == 0 && !Has(t[..n], name))
  {
    if n > 0 {
      assert t[..n][1..] == t[1..][..n - 1];
      CutCounts(t[1..], n - 1, name);
      assert t[..n] == [t[0]] + t[1..][..n - 1];
      HasCons(t[0], t[1..][..n - 1], name);
    }
  }

  // ----- sorted(items, key = -count) -----

  ghost predicate Descending(t: seq<Entry>) {
    forall i, j :: 0 <= i < j < |t| ==> t[i].count >= t[j].count
  }

  /** Behind every entry that counts at least as much. */
  function Insert(t: seq<Entry>, e: Entry): seq<Entry> {
    if t == [] then [e]
    else if t[0].count >= e.count then [t[0]] + Insert(t[1..], e)
    else [e] + t
  }

  function SortDesc(t: seq<Entry>): seq<Entry> {
    if t == [] then [] else Insert(SortDesc(t[..|t| - 1]), t[|t| - 1])
  }

  lemma {:induction false} InsertKeeps(t: seq<Entry>, e: Entry)
    ensures multiset(Insert(t, e)) == multiset(t) + multiset{e}
  {
    if t != [] {
      assert t == [t[0]] + t[1..];
      if t[0].count >= e.count {
        InsertKeeps(t[1..], e);
      }
    }
  }

  lemma {:induction false} InsertSorted(t: seq<Entry>, e: Entry)
    requires Descending(t)
    ensures Descending(Insert(t, e))
    ensures forall x :: x in Insert(t, e) <==> x in t || x == e
  {
    if t != [] && t[0].count >= e.count {
      InsertSorted(t[1..], e);
      forall x | x in Insert(t[1..], e)
        ensures x.count <= t[0].count
      {
        assert x == e || x in t[1..];
      }
    }
  }

  /** The sort orders the entries and keeps them all. */
  lemma {:induction false} SortSorts(t: seq<Entry>)
    ensures Descending(SortDesc(t)) && multiset(SortDesc(t)) == multiset(t)
  {
    if t != [] {
      var n := |t| - 1;
      SortSorts(t[..n]);
      InsertSorted(SortDesc(t[..n]), t[n]);
      InsertKeeps(SortDesc(t[..n]), t[n]);
      assert t == t[..n] + [t[n]];
    }
  }

  lemma {:induction false} SortSum(t: seq<Entry>)
    ensures Sum(SortDesc(t)) == Sum(t)
  {
    if t != [] {
      var n := |t| - 1;
      SortSum(t[..n]);
      InsertSum(SortDesc(t[..n]), t[n]);
      SumConcat(t[..n], [t[n]]);
      assert t == t[..n] + [t[n]];
    }
  }

  lemma {:induction false} InsertSum(t: seq<Entry>, e: Entry)
    ensures Sum(Insert(t, e)) == Sum(t) + e.count
  {
    if t != [] && t[0].count >= e.count {
      InsertSum(t[1..], e);
      assert Insert(t, e)[1..] == Insert(t[1..], e);
    } else if t != [] {
      assert Insert(t, e)[1..] == t;
    }
  }

  lemma {:induction false} SumConcat(a: seq<Entry>, b: seq<Entry>)
    ensures Sum(a + b) == Sum(a) + Sum(b)
  {
    if a == [] {
      assert a + b == b;
    } else {
      assert (a + b)[1..] == a[1..] + b;
      SumConcat(a[1..], b);
    }
  }

  /** A rearrangement of distinct names has distinct names and the same counts. */
  lemma SameEntriesSameCounts(a: seq<Entry>, b: seq<Entry>)
    requires Keyed(a) && multiset(a) == multiset(b)
    ensures Keyed(b) && |a| == |b|
    ensures forall x :: CountOf(a, x) == CountOf(b, x)
    ensures forall x :: Has(a, x) <==> Has(b, x)
  {
    assert |a| == |multiset(a)| == |b|;
    forall i, j | 0 <= i < j < |b|
      ensures b[i].name != b[j].name
    {
      DistinctInRearrangement(a, b, i, j);
    }
    forall x
      ensures CountOf(a, x) == CountOf(b, x) && (Has(a, x) <==> Has(b, x))
    {
      if Has(a, x) {
        var i :| 0 <= i < |a| && a[i].name == x;
        assert a[i] in multiset(b);
        var j :| 0 <= j < |b| && b[j] == a[i];
        CountAt(a, i);
        CountAt(b, j);
      } else {
        forall j | 0 <= j < |b|
          ensures b[j].name != x
        {
          assert b[j] in multiset(a);
        }
        AbsentCountsZero(a, x);
        AbsentCountsZero(b, x);
      }
    }
  }

  lemma DistinctInRearrangement(a: seq<Entry>, b: seq<Entry>, i: nat, j: nat)
    requires Keyed(a) && multiset(a) == multiset(b) && i < j < |b|
    ensures b[i].name != b[j].name
  {
    assert b[i] in multiset(a) && b[j] in multiset(a);
    if b[i] == b[j] {
      assert b == b[..i] + [b[i]] + b[i + 1..j] + [b[j]] + b[j + 1..];
      assert multiset(b)[b[i]] >= 2;
      OnceIfKeyed(a, b[i]);
    }
  }

  lemma {:induction false} OnceIfKeyed(a: seq<Entry>, e: Entry)
    requires Keyed(a)
    ensures multiset(a)[e] <= 1
  {
    if a != [] {
      assert a == [a[0]] + a[1..];
      OnceIfKeyed(a[1..], e);
      forall i | 1 <= i < |a|
        ensures a[i] != a[0]
      {
        assert a[0].name != a[i].name;
      }
      assert a[0] !in a[1..];
    }
  }

  // ----- sorted(dict), by name -----

  /** The order of strings, character by character. */
  predicate Le(a: string, b: string) {
    a == "" || (b != "" && (a[0] < b[0] || (a[0] == b[0] && Le(a[1..], b[1..]))))
  }

  lemma {:induction false} LeTotal(a: string, b: string)
    ensures Le(a, b) || Le(b, a)
  {
    if a != "" && b != "" {
      LeTotal(a[1..], b[1..]);
    }
  }

  lemma {:induction false} LeTransitive(a: string, b: string, c: string)
    requires Le(a, b) && Le(b, c)
    ensures Le(a, c)
  {
    if a != "" {
      LeTransitiveTail(a, b, c);
    }
  }

  lemma {:induction false} LeTransitiveTail(a: string, b: string, c: string)
    requires a != "" && Le(a, b) && Le(b, c)
    ensures c != "" && (a[0] < c[0] || (a[0] == c[0] && Le(a[1..], c[1..])))
    decreases |a|
  {
    if a[0] == b[0] == c[0] && a[1..] != "" {
      LeTransitiveTail(a[1..], b[1..], c[1..]);
    }
  }

  ghost predicate ByName(t: seq<Entry>) {
    forall i, j :: 0 <= i < j < |t| ==> Le(t[i].name, t[j].name)
  }

  function InsertName(t: seq<Entry>, e: Entry): seq<Entry> {
    if t == [] then [e]
    else if Le(t[0].name, e.name) then [t[0]] + InsertName(t[1..], e)
    else [e] + t
  }

  function SortNames(t: seq<Entry>): seq<Entry> {
    if t == [] then [] else InsertName(SortNames(t[..|t| - 1]), t[|t| - 1])
  }

  lemma {:induction false} InsertNameKeeps(t: seq<Entry>, e: Entry)
    ensures multiset(InsertName(t, e)) == multiset(t) + multiset{e} && Sum(InsertName(t, e)) == Sum(t) + e.count
  {
    if t != [] {
      assert t == [t[0]] + t[1..];
      if Le(t[0].name, e.name) {
        InsertNameKeeps(t[1..], e);
        assert InsertName(t, e)[1..] == InsertName(t[1..], e);
      } else {
        assert InsertName(t, e)[1..] == t;
      }
    }
  }

  lemma {:induction false} InsertNameSorted(t: seq<Entry>, e: Entry)
    requires ByName(t)
    ensures ByName(InsertName(t, e))
    ensures forall x :: x in InsertName(t, e) <==> x in t || x == e
  {
    if t != [] && Le(t[0].name, e.name) {
      InsertNameSorted(t[1..], e);
      forall x | x in InsertName(t[1..], e)
        ensures Le(t[0].name, x.name)
      {
        assert x == e || x in t[1..];
      }
    } else if t != [] {
      LeTotal(t[0].name, e.name);
      forall x | x in t
        ensures Le(e.name, x.name)
      {
        if x != t[0] { LeTransitive(e.name, t[0].name, x.name); }
      }
    }
  }

  /** The sort orders the entries by name and keeps them all. */
  lemma {:induction false} SortNamesSorts(t: seq<Entry>)
    ensures ByName(SortNames(t)) && multiset(SortNames(t)) == multiset(t) && Sum(SortNames(t)) == Sum(t)
  {
    if t != [] {
      var n := |t| - 1;
      SortNamesSorts(t[..n]);
      InsertNameSorted(SortNames(t[..n]), t[n]);
      InsertNameKeeps(SortNames(t[..n]), t[n]);
      SumConcat(t[..n], [t[n]]);
      assert t == t[..n] + [t[n]];
    }
  }
}
