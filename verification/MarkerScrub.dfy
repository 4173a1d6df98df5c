/**
  The prompt hardening of the analysis service: every string is passed through the
  PII patterns, then one occurrence of each injection marker is cut out, then the
  length is capped. The PII pass is any function; lower-casing maps characters one
  to one.
*/
module MarkerScrub {
  import opened Text

  const ELLIPSIS := '\U{2026}'
  const CUT := ['[', ELLIPSIS, ']']
  const TRUNCATED := " [truncated]"
  const MAX_FIELD_CHARS := 2000

  const MARKERS: seq<string> := [
    "ignore previous", "ignore prior", "ignore the above",
    "disregard previous", "disregard all", "forget everything",
    "you are now", "act as", "pretend to be",
    "system:", "system prompt", "new instructions",
    "</system>", "<|im_start|>", "<|im_end|>"]

  function LowerChar(c: char): char {
    if 'A' <= c <= 'Z' then c - 'A' + 'a' else c
  }

  function Lower(s: string): (l: string)
    ensures |l| == |s|
  {
    seq(|s|, i requires 0 <= i < |s| => LowerChar(s[i]))
  }

  /** Cut the first occurrence of the marker, if there is one, ignoring case. */
  function ScrubOnce(s: string, marker: string): string {
    var idx := Find(Lower(s), marker);
    if idx < 0 then s else s[..idx] + CUT + s[idx + |marker|..]
  }

  function ScrubAll(s: string, markers: seq<string>): string {
    if markers == [] then s else ScrubOnce(ScrubAll(s, markers[..|markers| - 1]), markers[|markers| - 1])
  }

  function Cap(s: string): string {
    if |s| > MAX_FIELD_CHARS then s[..MAX_FIELD_CHARS] + [ELLIPSIS] + TRUNCATED else s
  }

  function SanitizeText(s: string, pii: string -> string): string {
    Cap(ScrubAll(pii(s), MARKERS))
  }

  /** The string branch as written: the lower-cased copy is kept in step with the text. */
  method SanitizeString(value: string, pii: string -> string) returns (s: string)
    ensures s == SanitizeText(value, pii)
  {
    s := ScrubMarkers(pii(value), MARKERS);
    if |s| > MAX_FIELD_CHARS {
      s := s[..MAX_FIELD_CHARS] + [ELLIPSIS] + TRUNCATED;
    }
  }

  method ScrubMarkers(text: string, markers: seq<string>) returns (s: string)
    ensures s == ScrubAll(text, markers)
  {
    s := text;
    var lower := Lower(s);
    for i := 0 to |markers|
      invariant s == ScrubAll(text, markers[..i]) && lower == Lower(s)
    {
      var marker := markers[i];
      assert markers[..i + 1][..i] == markers[..i];
      var idx := Find(lower, marker);
      if idx >= 0 {
        s := s[..idx] + CUT + s[idx + |marker|..];
        lower := Lower(s);
      }
    }
    assert markers[..|markers|] == markers;
  }

  // ----- One pass -----

  /** What the passes do to the lower-cased text. */
  function CutFirst(l: string, marker: string): string {
    var idx := Find(l, marker);
    if idx < 0 then l else l[..idx] + CUT + l[idx + |marker|..]
  }

  lemma LowerOfScrub(s: string, marker: string)
    ensures Lower(ScrubOnce(s, marker)) == CutFirst(Lower(s), marker)
  {
    var idx := Find(Lower(s), marker);
    if idx >= 0 {
      var u, v := s[..idx], s[idx + |marker|..];
      LowerAround(u, v);
      assert Lower(u) == Lower(s)[..idx] && Lower(v) == Lower(s)[idx + |marker|..];
    }
  }

  lemma LowerAround(u: string, v: string)
    ensures Lower(u + CUT + v) == Lower(u) + CUT + Lower(v)
  {
  }

  /** A marker is not empty and shares no character with the replacement or the truncation dots. */
  predicate Clean(pat: string) {
    pat != "" && forall i :: 0 <= i < |pat| ==> pat[i] != '[' && pat[i] != ELLIPSIS && pat[i] != ']'
  }

  lemma CountAcross(u: string, a: char, b: char, c: char, v: string, pat: string)
    requires pat != "" && a !in pat && b !in pat && c !in pat
    ensures Count(u + [a, b, c] + v, pat) == Count(u, pat) + Count(v, pat)
  {
    assert u + [a, b, c] + v == u + [a] + ([] + [b] + ([] + [c] + v));
    CountAround(u, a, [] + [b] + ([] + [c] + v), pat);
    CountAround([], b, [] + [c] + v, pat);
    CountAround([], c, v, pat);
  }

  lemma CountCut(u: string, v: string, pat: string)
    requires Clean(pat)
    ensures Count(u + CUT + v, pat) == Count(u, pat) + Count(v, pat)
  {
    CountAcross(u, '[', ELLIPSIS, ']', v, pat);
    assert CUT == ['[', ELLIPSIS, ']'];
  }

  lemma CountOfPass(l: string, marker: string, pat: string)
    requires Clean(pat) && Find(l, marker) >= 0
    ensures Count(CutFirst(l, marker), pat) == Count(l[..Find(l, marker)], pat) + Count(l[Find(l, marker) + |marker|..], pat)
  {
    CountSplice(l, Find(l, marker), |marker|, pat);
  }

  lemma CountSplice(l: string, idx: nat, n: nat, pat: string)
    requires Clean(pat) && idx + n <= |l|
    ensures Count(l[..idx] + CUT + l[idx + n..], pat) == Count(l[..idx], pat) + Count(l[idx + n..], pat)
  {
    CountCut(l[..idx], l[idx + n..], pat);
  }

  lemma CountInMiddle(u: string, marker: string, v: string, pat: string)
    requires pat != ""
    ensures Count(u + marker + v, pat) >= Count(u, pat) + Count(marker, pat) + Count(v, pat)
  {
    CountParts(u + marker, v, pat);
    CountParts(u, marker, pat);
  }

  /** A pass creates no occurrence of any marker, and removes at least one of its own. */
  lemma PassCounts(l: string, marker: string, pat: string)
    requires Clean(marker) && Clean(pat)
    ensures Count(CutFirst(l, marker), pat) <= Count(l, pat)
    ensures pat == marker && Count(l, pat) > 0 ==> Count(CutFirst(l, marker), pat) < Count(l, pat)
  {
    FoundIffCounted(l, marker);
    var idx := Find(l, marker);
    if idx >= 0 {
      var u, v := l[..idx], l[idx + |marker|..];
      assert l == u + marker + v;
      CountOfPass(l, marker, pat);
      CountInMiddle(u, marker, v, pat);
      if pat == marker {
        CountSelf(marker);
      }
    }
  }

  /** A marker no occurrence of which can overlap another. */
  ghost predicate Borderless(marker: string) {
    forall k :: 0 < k < |marker| ==> !(marker[k..] <= marker)
  }

  lemma OverlapIsBorder(marker: string, k: nat, v: string)
    requires 0 < k < |marker|
    ensures marker <= marker[k..] + v ==> marker[k..] <= marker
  {
    var s := marker[k..] + v;
    if marker <= s {
      assert marker[..|marker| - k] == s[..|marker| - k];
    }
  }

  lemma {:induction false} CountBehindMarker(marker: string, k: nat, v: string)
    requires Borderless(marker) && 0 < k <= |marker|
    ensures Count(marker[k..] + v, marker) == Count(v, marker)
    decreases |marker| - k
  {
    if k == |marker| {
      assert marker[k..] + v == v;
    } else {
      var s := marker[k..] + v;
      assert s[1..] == marker[k + 1..] + v;
      CountBehindMarker(marker, k + 1, v);
      OverlapIsBorder(marker, k, v);
    }
  }

  lemma CountFromMarker(marker: string, v: string)
    requires marker != "" && Borderless(marker)
    ensures Count(marker + v, marker) == 1 + Count(v, marker)
  {
    assert (marker + v)[1..] == marker[1..] + v;
    CountBehindMarker(marker, 1, v);
  }

  lemma {:induction false} CountBeforeFirst(l: string, marker: string)
    requires marker != "" && Find(l, marker) >= 0
    ensures Count(l, marker) == Count(l[Find(l, marker)..], marker)
  {
    if !(marker <= l) {
      CountBeforeFirst(l[1..], marker);
      assert l[1..][Find(l[1..], marker)..] == l[Find(l, marker)..];
    } else {
      assert l[0..] == l;
    }
  }

  lemma CountFromFirst(l: string, marker: string)
    requires marker != "" && Borderless(marker) && Find(l, marker) >= 0
    ensures Count(l, marker) == 1 + Count(l[Find(l, marker) + |marker|..], marker)
  {
    var idx := Find(l, marker);
    var v := l[idx + |marker|..];
    assert l[idx..] == l[idx..idx + |marker|] + v;
    CountBeforeFirst(l, marker);
    CountFromMarker(marker, v);
  }

  lemma PassTakesOne(l: string, marker: string)
    requires Clean(marker) && Borderless(marker) && Find(l, marker) >= 0
    ensures 1 + Count(CutFirst(l, marker), marker) == Count(l, marker)
  {
    CountOfPass(l, marker, marker);
    NothingBeforeFirst(l, marker);
    CountFromFirst(l, marker);
  }

  /** Exactly one occurrence goes: so the pass leaves the marker in the text if and only if it occurred twice. */
  lemma PassLeavesRepeats(l: string, marker: string)
    requires Clean(marker) && Borderless(marker)
    ensures Contains(CutFirst(l, marker), marker) <==> Count(l, marker) >= 2
    ensures Count(CutFirst(l, marker), marker) == if Count(l, marker) == 0 then 0 else Count(l, marker) - 1
  {
    FoundIffCounted(l, marker);
    if Find(l, marker) >= 0 {
      PassTakesOne(l, marker);
    }
    ContainsIffCounted(CutFirst(l, marker), marker);
  }

  // ----- All passes and the cap -----

  /** The loop on the lower-cased text. */
  function CutAll(l: string, markers: seq<string>): string {
    if markers == [] then l else CutFirst(CutAll(l, markers[..|markers| - 1]), markers[|markers| - 1])
  }

  lemma {:induction false} LowerOfScrubAll(s: string, markers: seq<string>)
    ensures Lower(ScrubAll(s, markers)) == CutAll(Lower(s), markers)
  {
    if markers != [] {
      LowerOfScrubAll(s, markers[..|markers| - 1]);
      LowerOfScrub(ScrubAll(s, markers[..|markers| - 1]), markers[|markers| - 1]);
    }
  }

  lemma {:induction false} LoopCounts(l: string, markers: seq<string>, pat: string)
    requires Clean(pat) && forall m :: m in markers ==> Clean(m)
    ensures Count(CutAll(l, markers), pat) <= Count(l, pat)
    ensures pat in markers && Count(l, pat) > 0 ==> Count(CutAll(l, markers), pat) < Count(l, pat)
  {
    if markers != [] {
      var n := |markers| - 1;
      assert markers == markers[..n] + [markers[n]];
      LoopCounts(l, markers[..n], pat);
      PassCounts(CutAll(l, markers[..n]), markers[n], pat);
    }
  }

  // ----- The fifteen markers -----

  /** The first two characters of the marker appear together nowhere else in `s`. */
  predicate HeadAbsent(marker: string, s: string, from: nat) {
    |marker| >= 2 && forall k :: from <= k < |s| - 1 ==> !(s[k] == marker[0] && s[k + 1] == marker[1])
  }

  predicate MarkerOk(marker: string) {
    && Clean(marker)
    && HeadAbsent(marker, marker, 1) && marker[0] != marker[|marker| - 1]
    && HeadAbsent(marker, TRUNCATED, 0)
  }

  lemma MarkersOk1()
    ensures forall i :: 0 <= i < 4 ==> MarkerOk(MARKERS[i])
  {
    assert MarkerOk("ignore previous") && MarkerOk("ignore prior");
    assert MarkerOk("ignore the above") && MarkerOk("disregard previous");
  }

  lemma MarkersOk2()
    ensures forall i :: 4 <= i < 8 ==> MarkerOk(MARKERS[i])
  {
    assert MarkerOk("disregard all") && MarkerOk("forget everything");
    assert MarkerOk("you are now") && MarkerOk("act as");
  }

  lemma MarkersOk3()
    ensures forall i :: 8 <= i < 12 ==> MarkerOk(MARKERS[i])
  {
    assert MarkerOk("pretend to be") && MarkerOk("system:");
    assert MarkerOk("system prompt") && MarkerOk("new instructions");
  }

  lemma MarkersOk4()
    ensures forall i :: 12 <= i < |MARKERS| ==> MarkerOk(MARKERS[i])
  {
    assert MarkerOk("</system>") && MarkerOk("<|im_start|>") && MarkerOk("<|im_end|>");
  }

  lemma MarkersOk(marker: string)
    requires marker in MARKERS
    ensures MarkerOk(marker)
  {
    MarkersOk1();
    MarkersOk2();
    MarkersOk3();
    MarkersOk4();
    var i :| 0 <= i < |MARKERS| && MARKERS[i] == marker;
  }

  const LENGTHS: seq<nat> := [15, 12, 16, 18, 13, 17, 11, 6, 13, 7, 13, 16, 9, 12, 10]
  const HEADS := "iiiddfyapssn<<<"

  /** No two of the markers agree in both length and first character. */
  lemma MarkersDiffer()
    ensures forall i, j :: 0 <= i < j < |MARKERS| ==> MARKERS[i] != MARKERS[j]
  {
    assert forall i :: 0 <= i < |MARKERS| ==> |MARKERS[i]| == LENGTHS[i] && MARKERS[i][0] == HEADS[i];
    assert forall i, j :: 0 <= i < j < |LENGTHS| ==> LENGTHS[i] != LENGTHS[j] || HEADS[i] != HEADS[j];
  }

  lemma HeadMakesBorderless(marker: string)
    requires MarkerOk(marker)
    ensures Borderless(marker)
  {
    forall k | 0 < k < |marker|
      ensures !(marker[k..] <= marker)
    {
      if marker[k..] <= marker {
        PrefixChar(marker[k..], marker, 0);
        if k < |marker| - 1 {
          PrefixChar(marker[k..], marker, 1);
        }
      }
    }
  }

  lemma {:induction false} NoHeadNoCount(s: string, marker: string)
    requires HeadAbsent(marker, s, 0)
    ensures Count(s, marker) == 0
  {
    if s != "" {
      assert HeadAbsent(marker, s[1..], 0);
      NoHeadNoCount(s[1..], marker);
      if marker <= s {
        PrefixChar(marker, s, 0);
        PrefixChar(marker, s, 1);
      }
    }
  }

  // ----- What a sanitized string still contains -----

  lemma CapCounts(s: string, marker: string)
    requires MarkerOk(marker)
    ensures Count(Lower(Cap(s)), marker) <= Count(Lower(s), marker)
  {
    if |s| > MAX_FIELD_CHARS {
      var u := Lower(s)[..MAX_FIELD_CHARS];
      assert Lower(s) == u + Lower(s)[MAX_FIELD_CHARS..];
      assert Lower(Cap(s)) == u + [ELLIPSIS] + TRUNCATED;
      CountAround(u, ELLIPSIS, TRUNCATED, marker);
      NoHeadNoCount(TRUNCATED, marker);
      CountParts(u, Lower(s)[MAX_FIELD_CHARS..], marker);
    }
  }

  /**
    Sanitizing never adds an occurrence of a marker and removes at least one of each
    that is there; so a marker that occurred once is gone. The length is capped.
  */
  lemma SanitizedText(value: string, pii: string -> string, marker: string)
    requires marker in MARKERS
    ensures var before := Count(Lower(pii(value)), marker);
      var after := Count(Lower(SanitizeText(value, pii)), marker);
      && after <= before && (before > 0 ==> after < before)
      && (before <= 1 ==> !Contains(Lower(SanitizeText(value, pii)), marker))
    ensures |SanitizeText(value, pii)| <= MAX_FIELD_CHARS + 13
  {
    forall m | m in MARKERS ensures Clean(m) { MarkersOk(m); }
    MarkersOk(marker);
    LowerOfScrubAll(pii(value), MARKERS);
    LoopCounts(Lower(pii(value)), MARKERS, marker);
    CapCounts(ScrubAll(pii(value), MARKERS), marker);
    ContainsIffCounted(Lower(SanitizeText(value, pii)), marker);
  }

  // ----- What is left alone -----

  /** A pass replaces the first occurrence, ignoring case, and nothing else. */
  lemma {:induction false} FirstIsFound(l: string, marker: string, i: nat)
    requires At(l, marker, i) && forall j: nat :: j < i ==> !At(l, marker, j)
    ensures Find(l, marker) == i
  {
    if i == 0 {
      assert l[..|marker|] == l[0..0 + |marker|];
    } else {
      assert !At(l, marker, 0);
      assert l[1..][i - 1..i - 1 + |marker|] == l[i..i + |marker|];
      forall j: nat | j < i - 1
        ensures !At(l[1..], marker, j)
      {
        assert !At(l, marker, j + 1);
        assert j + |marker| <= |l[1..]| ==> l[1..][j..j + |marker|] == l[j + 1..j + 1 + |marker|];
      }
      FirstIsFound(l[1..], marker, i - 1);
    }
  }

  lemma PassCutsFirst(s: string, marker: string, i: nat)
    requires At(Lower(s), marker, i) && forall j: nat :: j < i ==> !At(Lower(s), marker, j)
    ensures ScrubOnce(s, marker) == s[..i] + "[" + [ELLIPSIS] + "]" + s[i + |marker|..]
  {
    FirstIsFound(Lower(s), marker, i);
    assert CUT == "[" + [ELLIPSIS] + "]";
  }

  /** The same letters, the marker's in lower case. */
  predicate SameLetters(text: string, marker: string) {
    |text| == |marker| && forall k :: 0 <= k < |text| ==>
      text[k] == marker[k] || ('A' <= text[k] <= 'Z' && text[k] as int + 32 == marker[k] as int)
  }

  /** A marker is cut in whatever case it is written. */
  lemma PassIgnoresCase(s: string, marker: string, i: nat)
    requires i + |marker| <= |s| && SameLetters(s[i..i + |marker|], marker) && forall k :: 0 <= k < |marker| ==> !('A' <= marker[k] <= 'Z')
    requires forall j: nat :: j < i ==> !At(Lower(s), marker, j)
    ensures ScrubOnce(s, marker) == s[..i] + "[" + [ELLIPSIS] + "]" + s[i + |marker|..]
  {
    forall k | 0 <= k < |marker|
      ensures Lower(s)[i + k] == marker[k]
    {
      assert s[i + k] == s[i..i + |marker|][k];
    }
    assert Lower(s)[i..i + |marker|] == marker;
    PassCutsFirst(s, marker, i);
  }

  lemma {:induction false} UnmarkedStays(s: string, markers: seq<string>)
    requires forall m :: m in markers ==> m != "" && Count(Lower(s), m) == 0
    ensures ScrubAll(s, markers) == s
  {
    if markers != [] {
      var n := |markers| - 1;
      forall m | m in markers[..n] ensures m != "" && Count(Lower(s), m) == 0 { assert m in markers; }
      assert markers[n] in markers;
      UnmarkedStays(s, markers[..n]);
      FoundIffCounted(Lower(s), markers[n]);
    }
  }

  /** A text without markers keeps every character behind the PII pass, up to the cap. */
  lemma UnmarkedTextStays(value: string, pii: string -> string)
    requires forall m :: m in MARKERS ==> Count(Lower(pii(value)), m) == 0
    ensures SanitizeText(value, pii) == if |pii(value)| <= 2000 then pii(value) else pii(value)[..2000] + [ELLIPSIS] + " [truncated]"
  {
    forall m | m in MARKERS ensures m != "" { MarkersOk(m); }
    UnmarkedStays(pii(value), MARKERS);
  }

  // ----- The exact result when markers do not overlap -----

  /** No two occurrences of markers share a character. */
  ghost predicate Separate(l: string, markers: seq<string>) {
    forall p, q, i: nat, j: nat :: p in markers && q in markers && At(l, p, i) && At(l, q, j) && (i < j || (i == j && p != q)) ==>
      i + |p| <= j
  }

  /** Occurrences that avoid the middle part are those of the outer parts. */
  lemma {:induction false} SkipCount(u: string, m: string, v: string, pat: string)
    requires pat != ""
    requires forall i: nat :: At(u + m + v, pat, i) ==> i + |pat| <= |u| || i >= |u| + |m|
    ensures Count(u + m + v, pat) == Count(u, pat) + Count(v, pat)
    decreases |u| + |m|
  {
    var s := u + m + v;
    if u == "" && m == "" {
      assert s == v;
    } else {
      var u', m' := if u == "" then "" else u[1..], if u == "" then m[1..] else m;
      assert s[1..] == u' + m' + v;
      forall i: nat | At(u' + m' + v, pat, i)
        ensures i + |pat| <= |u'| || i >= |u'| + |m'|
      {
        assert s[i + 1..i + 1 + |pat|] == s[1..][i..i + |pat|];
        assert At(s, pat, i + 1);
      }
      SkipCount(u', m', v, pat);
      assert pat <= s <==> At(s, pat, 0);
      if pat <= s {
        assert u != "" && |pat| <= |u|;
        assert u[..|pat|] == s[..|pat|];
      }
      assert pat <= u ==> u <= s;
    }
  }

  /** An occurrence in the cut text was there before, at the corresponding place. */
  lemma AtAcrossCut(u: string, m: string, v: string, pat: string, i: nat)
    requires Clean(pat) && At(u + CUT + v, pat, i)
    ensures (i + |pat| <= |u| && At(u + m + v, pat, i)) || (i >= |u| + 3 && At(u + m + v, pat, i - 3 + |m|))
  {
    var s, t := u + CUT + v, u + m + v;
    assert s[|u|] == '[' && s[|u| + 1] == ELLIPSIS && s[|u| + 2] == ']';
    if i + |pat| <= |u| {
      assert t[i..i + |pat|] == s[i..i + |pat|];
    } else if i >= |u| + 3 {
      assert t[i - 3 + |m|..i - 3 + |m| + |pat|] == s[i..i + |pat|];
    } else {
      AtChar(s, pat, i, if i <= |u| then |u| else i);
    }
  }

  lemma CutStaysSeparate(l: string, marker: string, markers: seq<string>)
    requires Separate(l, markers) && forall m :: m in markers ==> Clean(m)
    ensures Separate(CutFirst(l, marker), markers)
  {
    var idx := Find(l, marker);
    if idx >= 0 {
      var u, v := l[..idx], l[idx + |marker|..];
      assert l == u + marker + v;
      forall p, q, i: nat, j: nat | p in markers && q in markers && At(u + CUT + v, p, i) && At(u + CUT + v, q, j) && (i < j || (i == j && p != q))
        ensures i + |p| <= j
      {
        AtAcrossCut(u, marker, v, p, i);
        AtAcrossCut(u, marker, v, q, j);
      }
    }
  }

  lemma CutSparesOthers(l: string, marker: string, pat: string, markers: seq<string>)
    requires Separate(l, markers) && marker in markers && pat in markers && pat != marker && Clean(pat)
    ensures Count(CutFirst(l, marker), pat) == Count(l, pat)
  {
    var idx := Find(l, marker);
    if idx >= 0 {
      var u, v := l[..idx], l[idx + |marker|..];
      assert l == u + marker + v;
      CountOfPass(l, marker, pat);
      SkipCount(u, marker, v, pat);
    }
  }

  lemma {:induction false} LoopExact(l: string, markers: seq<string>, n: nat, j: nat)
    requires Separate(l, markers) && n <= |markers| && j < |markers|
    requires forall m :: m in markers ==> MarkerOk(m)
    requires forall a, b :: 0 <= a < b < |markers| ==> markers[a] != markers[b]
    ensures Separate(CutAll(l, markers[..n]), markers)
    ensures Count(CutAll(l, markers[..n]), markers[j])
         == if j < n && Count(l, markers[j]) > 0 then Count(l, markers[j]) - 1 else Count(l, markers[j])
    decreases n
  {
    if n > 0 {
      LoopExact(l, markers, n - 1, j);
      assert markers[..n][..n - 1] == markers[..n - 1];
      OneMorePass(CutAll(l, markers[..n - 1]), markers, n - 1, j);
    }
  }

  lemma OneMorePass(l: string, markers: seq<string>, n: nat, j: nat)
    requires Separate(l, markers) && n < |markers| && j < |markers|
    requires forall m :: m in markers ==> MarkerOk(m)
    requires forall a, b :: 0 <= a < b < |markers| ==> markers[a] != markers[b]
    ensures Separate(CutFirst(l, markers[n]), markers)
    ensures Count(CutFirst(l, markers[n]), markers[j])
         == if j == n && Count(l, markers[j]) > 0 then Count(l, markers[j]) - 1 else Count(l, markers[j])
  {
    CutStaysSeparate(l, markers[n], markers);
    if j == n {
      HeadMakesBorderless(markers[j]);
      PassLeavesRepeats(l, markers[j]);
    } else {
      CutSparesOthers(l, markers[n], markers[j], markers);
    }
  }

  /**
    One pass per marker removes one occurrence: in a text whose markers do not
    overlap, the loop leaves none if and only if no marker occurs twice.
  */
  lemma MarkerFreeIffNoRepeats(s: string)
    requires Separate(Lower(s), MARKERS)
    ensures (forall m :: m in MARKERS ==> !Contains(Lower(ScrubAll(s, MARKERS)), m)) <==> (forall m :: m in MARKERS ==> Count(Lower(s), m) <= 1)
  {
    LowerOfScrubAll(s, MARKERS);
    forall m | m in MARKERS
      ensures Contains(Lower(ScrubAll(s, MARKERS)), m) <==> Count(Lower(s), m) >= 2
    {
      ScrubbedExactly(Lower(s), m);
    }
  }

  /** The loop never makes a text longer: no marker is shorter than what replaces it. */
  lemma {:induction false} ScrubShrinks(s: string, markers: seq<string>)
    requires forall m :: m in markers ==> |m| >= |CUT|
    ensures |ScrubAll(s, markers)| <= |s|
  {
    if markers != [] {
      ScrubShrinks(s, markers[..|markers| - 1]);
    }
  }

  /**
    The same of the returned string, for a text that is not over the cap once its PII
    is masked: it is free of markers if and only if none occurred twice.
  */
  lemma ReturnedFreeIffNoRepeats(value: string, pii: string -> string)
    requires |pii(value)| <= MAX_FIELD_CHARS && Separate(Lower(pii(value)), MARKERS)
    ensures (forall m :: m in MARKERS ==> !Contains(Lower(SanitizeText(value, pii)), m))
       <==> (forall m :: m in MARKERS ==> Count(Lower(pii(value)), m) <= 1)
  {
    forall m | m in MARKERS ensures |m| >= |CUT| {
      assert |m| >= 6;
    }
    ScrubShrinks(pii(value), MARKERS);
    MarkerFreeIffNoRepeats(pii(value));
  }

  lemma ScrubbedExactly(l: string, m: string)
    requires Separate(l, MARKERS) && m in MARKERS
    ensures Contains(CutAll(l, MARKERS), m) <==> Count(l, m) >= 2
  {
    forall x | x in MARKERS ensures MarkerOk(x) { MarkersOk(x); }
    MarkersDiffer();
    var j :| 0 <= j < |MARKERS| && MARKERS[j] == m;
    LoopExact(l, MARKERS, |MARKERS|, j);
    assert MARKERS[..|MARKERS|] == MARKERS;
    ContainsIffCounted(CutAll(l, MARKERS), m);
  }

  // ----- Whole values -----

  /** A JSON value; anything that is not a string, an object or a list passes through. */
  datatype Json = Str(text: string) | Obj(fields: seq<(string, Json)>) | Arr(items: seq<Json>) | Other(literal: string)

  function Sanitize(value: Json, pii: string -> string): Json {
    match value
    case Str(text) => Str(SanitizeText(text, pii))
    case Obj(fields) => Obj(seq(|fields|, i requires 0 <= i < |fields| => (fields[i].0, Sanitize(fields[i].1, pii))))
    case Arr(items) => Arr(seq(|items|, i requires 0 <= i < |items| => Sanitize(items[i], pii)))
    case Other(_) => value
  }

  /** Same keys, same lengths, same kinds at every place, and every string within the cap. */
  ghost predicate SameShape(a: Json, b: Json) {
    match a
    case Str(_) => b.Str? && |b.text| <= MAX_FIELD_CHARS + 13
    case Obj(fields) => b.Obj? && |b.fields| == |fields| && forall i :: 0 <= i < |fields| ==> b.fields[i].0 == fields[i].0 && SameShape(fields[i].1, b.fields[i].1)
    case Arr(items) => b.Arr? && |b.items| == |items| && forall i :: 0 <= i < |items| ==> SameShape(items[i], b.items[i])
    case Other(_) => b == a
  }

  lemma {:induction false} SanitizeKeepsShape(value: Json, pii: string -> string)
    ensures SameShape(value, Sanitize(value, pii))
  {
    match value
    case Str(text) =>
    case Obj(fields) =>
      forall i | 0 <= i < |fields| { SanitizeKeepsShape(fields[i].1, pii); }
    case Arr(items) =>
      forall i | 0 <= i < |items| { SanitizeKeepsShape(items[i], pii); }
    case Other(_) =>
  }

  /** Of every string at any depth: no marker is added, and each that is there loses an occurrence. */
  ghost predicate Scrubbed(a: Json, b: Json, pii: string -> string) {
    match a
    case Str(text) =>
      && b.Str? && |b.text| <= 2013
      && forall m :: m in MARKERS ==>
           var before, after := Count(Lower(pii(text)), m), Count(Lower(b.text), m);
           after <= before && (before > 0 ==> after < before) && (before <= 1 ==> !Contains(Lower(b.text), m))
    case Obj(fields) => b.Obj? && |b.fields| == |fields| && forall i :: 0 <= i < |fields| ==> Scrubbed(fields[i].1, b.fields[i].1, pii)
    case Arr(items) => b.Arr? && |b.items| == |items| && forall i :: 0 <= i < |items| ==> Scrubbed(items[i], b.items[i], pii)
    case Other(_) => b == a
  }

  lemma {:induction false} SanitizeScrubsEveryString(value: Json, pii: string -> string)
    ensures Scrubbed(value, Sanitize(value, pii), pii)
  {
    match value
    case Str(text) =>
      forall m | m in MARKERS
        ensures var before, after := Count(Lower(pii(text)), m), Count(Lower(SanitizeText(text, pii)), m);
          after <= before && (before > 0 ==> after < before) && (before <= 1 ==> !Contains(Lower(SanitizeText(text, pii)), m))
      {
        SanitizedText(text, pii, m);
      }
      SanitizedText(text, pii, MARKERS[0]);
    case Obj(fields) =>
      forall i | 0 <= i < |fields| { SanitizeScrubsEveryString(fields[i].1, pii); }
    case Arr(items) =>
      forall i | 0 <= i < |items| { SanitizeScrubsEveryString(items[i], pii); }
    case Other(_) =>
  }
}
