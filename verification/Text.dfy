/** Substring search and counting on strings. */
module Text {

  predicate At(s: string, pat: string, i: nat) {
    i + |pat| <= |s| && s[i..i + |pat|] == pat
  }

  predicate Contains(s: string, pat: string) {
    exists i: nat :: i <= |s| && At(s, pat, i)
  }

  lemma AtChar(s: string, pat: string, i: nat, at: nat)
    requires At(s, pat, i) && i <= at < i + |pat|
    ensures s[at] == pat[at - i]
  {
    assert s[at] == s[i..i + |pat|][at - i];
  }

  /** str.find: the first position, or -1. */
  function Find(s: string, pat: string): (r: int)
    ensures -1 <= r && r + |pat| <= |s| + |pat|
    ensures r >= 0 ==> At(s, pat, r)
  {
    if pat <= s then 0
    else if s == "" then -1
    else
      var r := Find(s[1..], pat);
      if r < 0 then -1
      else
        assert s[1..][r..r + |pat|] == s[r + 1..r + 1 + |pat|];
        r + 1
  }

  /** The number of positions where `pat` occurs. */
  function Count(s: string, pat: string): nat {
    if s == "" then 0 else (if pat <= s then 1 else 0) + Count(s[1..], pat)
  }

  lemma {:induction false} FoundIffCounted(s: string, pat: string)
    requires pat != ""
    ensures Find(s, pat) >= 0 <==> Count(s, pat) > 0
  {
    if s != "" && !(pat <= s) {
      FoundIffCounted(s[1..], pat);
    }
  }

  lemma {:induction false} ContainsIffCounted(s: string, pat: string)
    requires pat != ""
    ensures Contains(s, pat) <==> Count(s, pat) > 0
  {
    if s != "" {
      ContainsIffCounted(s[1..], pat);
      if pat <= s {
        assert At(s, pat, 0);
      }
      if Contains(s[1..], pat) {
        var i: nat :| i <= |s[1..]| && At(s[1..], pat, i);
        assert s[1..][i..i + |pat|] == s[i + 1..i + 1 + |pat|];
        assert At(s, pat, i + 1);
      }
      if Contains(s, pat) {
        var i: nat :| i <= |s| && At(s, pat, i);
        if i > 0 {
          assert s[1..][i - 1..i - 1 + |pat|] == s[i..i + |pat|];
          assert At(s[1..], pat, i - 1);
        }
      }
    }
  }

  /** Nothing occurs across a character that is not part of the pattern. */
  lemma {:induction false} CountAround(u: string, c: char, v: string, pat: string)
    requires pat != "" && c !in pat
    ensures Count(u + [c] + v, pat) == Count(u, pat) + Count(v, pat)
  {
    var s := u + [c] + v;
    if u == "" {
      assert s[1..] == v;
      if pat <= s {
        PrefixChar(pat, s, 0);
      }
    } else {
      assert s[1..] == u[1..] + [c] + v;
      CountAround(u[1..], c, v, pat);
      PrefixAround(u, c, v, pat);
    }
  }

  lemma PrefixChar(a: string, b: string, i: nat)
    requires a <= b && i < |a|
    ensures a[i] == b[i]
  {
  }

  lemma PrefixAround(u: string, c: char, v: string, pat: string)
    requires c !in pat
    ensures pat <= u + [c] + v <==> pat <= u
  {
    var s := u + [c] + v;
    if |pat| > |u| && pat <= s {
      PrefixChar(pat, s, |u|);
    }
    if pat <= u {
      assert u <= s;
    }
  }

  /** What occurs in the parts occurs in the whole. */
  lemma {:induction false} CountParts(u: string, v: string, pat: string)
    requires pat != ""
    ensures Count(u + v, pat) >= Count(u, pat) + Count(v, pat)
  {
    var s := u + v;
    if u == "" {
      assert s == v;
    } else {
      assert s[1..] == u[1..] + v;
      CountParts(u[1..], v, pat);
      assert u <= s;
    }
  }

  lemma {:induction false} CountShort(s: string, pat: string)
    requires |s| < |pat|
    ensures Count(s, pat) == 0
  {
    if s != "" {
      CountShort(s[1..], pat);
    }
  }

  lemma CountSelf(pat: string)
    requires pat != ""
    ensures Count(pat, pat) == 1
  {
    CountShort(pat[1..], pat);
  }

  /** Before its first position a pattern does not occur. */
  lemma {:induction false} NothingBeforeFirst(s: string, pat: string)
    requires pat != "" && Find(s, pat) >= 0
    ensures Count(s[..Find(s, pat)], pat) == 0
  {
    var r := Find(s, pat);
    if r > 0 {
      NothingBeforeFirst(s[1..], pat);
      assert s[..r][1..] == s[1..][..r - 1];
      assert s[..r] <= s;
    }
  }
}
