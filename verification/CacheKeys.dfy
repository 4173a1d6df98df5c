/**
  The key space that the analysis service writes and the settings service parses:
  three families of colon-separated strings. The lemmas say exactly when they can
  be told apart.
*/
module CacheKeys {
  import opened Text

  function SessionKey(tenant: string, from: string, to: string): string {
    "ai:pnl:" + tenant + ":" + from + ":" + to
  }

  function RateKey(tenant: string, day: string): string {
    "ai:pnl:rate:" + tenant + ":" + day
  }

  function LastKey(tenant: string): string {
    "ai:pnl:last:" + tenant
  }

  predicate Plain(s: string) {
    ':' !in s
  }

  // ----- Splitting -----

  /** str.split(":"). */
  function Split(s: string): (parts: seq<string>)
    ensures |parts| >= 1
  {
    SplitFrom("", s)
  }

  /** The parts of `word + s`, where `word` is the part being read. */
  function SplitFrom(word: string, s: string): (parts: seq<string>)
    ensures |parts| >= 1
    decreases |s|
  {
    if s == "" then [word]
    else if s[0] == ':' then [word] + SplitFrom("", s[1..])
    else SplitFrom(word + [s[0]], s[1..])
  }

  lemma {:induction false} SplitFromWord(word: string, a: string, rest: string)
    requires Plain(a)
    ensures SplitFrom(word, a + ":" + rest) == [word + a] + Split(rest)
    decreases |a|
  {
    var s := a + ":" + rest;
    if a == "" {
      assert s[1..] == rest;
      assert word + a == word;
    } else {
      assert s[0] == a[0] && s[1..] == a[1..] + ":" + rest;
      SplitFromWord(word + [a[0]], a[1..], rest);
      assert word + [a[0]] + a[1..] == word + a;
    }
  }

  lemma SplitCons(a: string, rest: string)
    requires Plain(a)
    ensures Split(a + ":" + rest) == [a] + Split(rest)
  {
    SplitFromWord("", a, rest);
    assert "" + a == a;
  }

  lemma {:induction false} SplitPlainFrom(word: string, a: string)
    requires Plain(a)
    ensures SplitFrom(word, a) == [word + a]
    decreases |a|
  {
    if a == "" {
      assert word + a == word;
    } else {
      SplitPlainFrom(word + [a[0]], a[1..]);
      assert word + [a[0]] + a[1..] == word + a;
    }
  }

  /** The parts of a key `a:b:rest` and so on, from the front. */
  lemma SplitPnl(rest: string)
    ensures Split("ai:pnl:" + rest) == ["ai", "pnl"] + Split(rest)
  {
    assert "ai:pnl:" + rest == "ai" + ":" + ("pnl" + ":" + rest);
    SplitCons("ai", "pnl" + ":" + rest);
    SplitCons("pnl", rest);
  }

  /** Parsing a rate key recovers the tenant and the day. */
  lemma SplitRateKey(tenant: string, day: string)
    requires Plain(tenant) && Plain(day)
    ensures Split(RateKey(tenant, day)) == ["ai", "pnl", "rate", tenant, day]
  {
    var rest := tenant + ":" + day;
    assert RateKey(tenant, day) == "ai:pnl:" + ("rate" + ":" + rest);
    SplitPnl("rate" + ":" + rest);
    SplitCons("rate", rest);
    SplitCons(tenant, day);
    SplitPlainFrom("", day);
    assert "" + day == day;
  }

  lemma SplitSessionKey(tenant: string, from: string, to: string)
    requires Plain(tenant) && Plain(from)
    ensures Split(SessionKey(tenant, from, to)) == ["ai", "pnl", tenant, from] + Split(to)
  {
    assert SessionKey(tenant, from, to) == "ai:pnl:" + (tenant + ":" + (from + ":" + to));
    SplitPnl(tenant + ":" + (from + ":" + to));
    SplitCons(tenant, from + ":" + to);
    SplitCons(from, to);
  }

  lemma SplitLastKey(tenant: string)
    requires Plain(tenant)
    ensures Split(LastKey(tenant)) == ["ai", "pnl", "last", tenant]
  {
    assert LastKey(tenant) == "ai:pnl:" + ("last" + ":" + tenant);
    SplitPnl("last" + ":" + tenant);
    SplitCons("last", tenant);
    SplitPlainFrom("", tenant);
    assert "" + tenant == tenant;
  }

  // ----- When keys coincide -----

  lemma {:induction false} CutOnce(a: string, x: string, b: string, y: string)
    requires Plain(a) && Plain(b) && a + ":" + x == b + ":" + y
    ensures a == b && x == y
    decreases |a|
  {
    var s, t := a + ":" + x, b + ":" + y;
    if a == "" || b == "" {
      assert s[0] == t[0];
      assert a == b;
      assert s[1..] == x && t[1..] == y;
    } else {
      assert s[0] == a[0] && t[0] == b[0];
      assert s[1..] == a[1..] + ":" + x && t[1..] == b[1..] + ":" + y;
      CutOnce(a[1..], x, b[1..], y);
    }
  }

  lemma CutPnl(x: string, y: string)
    requires "ai:pnl:" + x == "ai:pnl:" + y
    ensures x == y
  {
    assert ("ai:pnl:" + x)[7..] == x && ("ai:pnl:" + y)[7..] == y;
  }

  lemma SessionKeysDiffer(t: string, f: string, o: string, t': string, f': string, o': string)
    requires Plain(t) && Plain(f) && Plain(t') && Plain(f')
    ensures SessionKey(t, f, o) == SessionKey(t', f', o') <==> (t == t' && f == f' && o == o')
  {
    if SessionKey(t, f, o) == SessionKey(t', f', o') {
      assert SessionKey(t, f, o) == "ai:pnl:" + (t + ":" + (f + ":" + o));
      assert SessionKey(t', f', o') == "ai:pnl:" + (t' + ":" + (f' + ":" + o'));
      CutPnl(t + ":" + (f + ":" + o), t' + ":" + (f' + ":" + o'));
      CutOnce(t, f + ":" + o, t', f' + ":" + o');
      CutOnce(f, o, f', o');
    }
  }

  lemma RateKeysDiffer(t: string, d: string, t': string, d': string)
    requires Plain(t) && Plain(t')
    ensures RateKey(t, d) == RateKey(t', d') <==> (t == t' && d == d')
  {
    assert RateKey(t, d) == SessionKey("rate", t, d) && RateKey(t', d') == SessionKey("rate", t', d');
    SessionKeysDiffer("rate", t, d, "rate", t', d');
  }

  lemma LastKeysDiffer(t: string, t': string)
    ensures LastKey(t) == LastKey(t') <==> t == t'
  {
    assert LastKey(t)[12..] == t && LastKey(t')[12..] == t';
  }

  /** A session key is somebody's rate key exactly for a tenant called "rate". */
  lemma SessionMeetsRate(t: string, f: string, o: string, t': string, d: string)
    requires Plain(t) && Plain(f) && Plain(t')
    ensures SessionKey(t, f, o) == RateKey(t', d) <==> (t == "rate" && f == t' && o == d)
  {
    assert RateKey(t', d) == SessionKey("rate", t', d);
    SessionKeysDiffer(t, f, o, "rate", t', d);
  }

  /** The last-analysis key of a colon-free tenant is never a session key, not even of a tenant called "last". */
  lemma SessionNeverLast(t: string, f: string, o: string, t': string)
    requires Plain(t) && Plain(f) && Plain(t')
    ensures SessionKey(t, f, o) != LastKey(t')
  {
    SplitSessionKey(t, f, o);
    SplitLastKey(t');
    assert |Split(SessionKey(t, f, o))| >= 5 && |Split(LastKey(t'))| == 4;
  }

  lemma RateNeverLast(t: string, d: string, t': string)
    ensures RateKey(t, d) != LastKey(t')
  {
    assert RateKey(t, d)[7] == 'r' && LastKey(t')[7] == 'l';
  }

  // ----- The marker that protects counters from cache clearing -----

  ghost predicate InnerPart(parts: seq<string>, word: string) {
    exists i :: 0 < i < |parts| - 1 && parts[i] == word
  }

  /** Where the first colon of `s` is; a string without one is a single part. */
  lemma {:induction false} FirstPart(s: string) returns (a: string, rest: string)
    requires !Plain(s)
    ensures Plain(a) && s == a + ":" + rest
  {
    if s[0] == ':' {
      a, rest := "", s[1..];
    } else {
      var b, r := FirstPart(s[1..]);
      a, rest := [s[0]] + b, r;
      assert s == [s[0]] + s[1..];
    }
  }

  /** `:word:` occurs in a key exactly when `word` is one of its inner parts. */
  lemma {:induction false} ContainsIffInnerPart(s: string, word: string)
    requires Plain(word)
    ensures Contains(s, ":" + word + ":") <==> InnerPart(Split(s), word)
    decreases |s|
  {
    var pat := ":" + word + ":";
    if Plain(s) {
      SplitPlainFrom("", s);
      PlainContainsNone(s, pat);
    } else {
      var a, rest := FirstPart(s);
      SplitCons(a, rest);
      ContainsIffInnerPart(rest, word);
      HeadPart(rest, word);
      ContainsCons(a, rest, word);
      InnerCons(a, Split(rest), word);
    }
  }

  lemma InnerCons(a: string, parts: seq<string>, word: string)
    requires |parts| >= 1
    ensures InnerPart([a] + parts, word) <==> (|parts| >= 2 && parts[0] == word) || InnerPart(parts, word)
  {
    var all := [a] + parts;
    if InnerPart(parts, word) {
      var i :| 0 < i < |parts| - 1 && parts[i] == word;
      assert all[i + 1] == word;
    }
    if |parts| >= 2 && parts[0] == word {
      assert all[1] == word;
    }
    if InnerPart(all, word) {
      var i :| 0 < i < |all| - 1 && all[i] == word;
      assert parts[i - 1] == word;
    }
  }

  /** A string starts with `word:` exactly when its first of several parts is `word`. */
  lemma HeadPart(s: string, word: string)
    requires Plain(word)
    ensures At(s, word + ":", 0) <==> |Split(s)| >= 2 && Split(s)[0] == word
  {
    if At(s, word + ":", 0) {
      assert s == word + ":" + s[|word| + 1..];
      SplitCons(word, s[|word| + 1..]);
    } else if Plain(s) {
      SplitPlainFrom("", s);
    } else {
      var a, rest := FirstPart(s);
      SplitCons(a, rest);
      assert s[0..|a| + 1] == a + ":";
    }
  }

  lemma PlainContainsNone(s: string, pat: string)
    requires Plain(s) && pat != "" && pat[0] == ':'
    ensures !Contains(s, pat)
  {
    forall i: nat
      ensures !At(s, pat, i)
    {
      if At(s, pat, i) {
        AtChar(s, pat, i, i);
      }
    }
  }

  /** Behind a colon-free word and its colon, `:word:` starts at that colon or later. */
  lemma AtBehindColon(a: string, rest: string, word: string, i: nat)
    requires Plain(a)
    ensures At(a + ":" + rest, ":" + word + ":", |a| + i)
       <==> if i == 0 then At(rest, word + ":", 0) else At(rest, ":" + word + ":", i - 1)
  {
    var s, pat := a + ":" + rest, ":" + word + ":";
    if |a| + i + |pat| <= |s| {
      var found := s[|a| + i..|a| + i + |pat|];
      if i == 0 {
        assert found == ":" + rest[..|word| + 1];
        assert pat == ":" + (word + ":");
        assert found[1..] == rest[..|word| + 1] && pat[1..] == word + ":";
      } else {
        assert found == rest[i - 1..i - 1 + |pat|];
      }
    }
  }

  lemma ContainsCons(a: string, rest: string, word: string)
    requires Plain(a)
    ensures Contains(a + ":" + rest, ":" + word + ":") <==> At(rest, word + ":", 0) || Contains(rest, ":" + word + ":")
  {
    var s, pat := a + ":" + rest, ":" + word + ":";
    if At(rest, word + ":", 0) {
      AtBehindColon(a, rest, word, 0);
    }
    if Contains(rest, pat) {
      var i: nat :| At(rest, pat, i);
      AtBehindColon(a, rest, word, i + 1);
    }
    if Contains(s, pat) {
      var i: nat :| At(s, pat, i);
      AtChar(s, pat, i, i);
      AtBehindColon(a, rest, word, i - |a|);
    }
  }
}
