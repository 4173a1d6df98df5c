/**
  Unwrapping the model's answer: the text may come fenced or surrounded by prose,
  and the slice that is handed to the JSON parser should be the object in it.
*/
module ResponseUnwrap {
  import opened Text

  /** The characters str.strip() removes. */
  predicate IsSpace(c: char) {
    || '\U{9}' <= c <= '\U{d}' || '\U{1c}' <= c <= ' ' || c == '\U{85}' || c == '\U{a0}' || c == '\U{1680}'
    || '\U{2000}' <= c <= '\U{200a}' || c == '\U{2028}' || c == '\U{2029}' || c == '\U{202f}' || c == '\U{205f}' || c == '\U{3000}'
  }

  function LStrip(s: string): string {
    if s != "" && IsSpace(s[0]) then LStrip(s[1..]) else s
  }

  function RStrip(s: string): string {
    if s != "" && IsSpace(s[|s| - 1]) then RStrip(s[..|s| - 1]) else s
  }

  function Strip(s: string): string {
    RStrip(LStrip(s))
  }

  /** str.find of one character. */
  function FindChar(s: string, c: char): (r: int)
    ensures if r < 0 then r == -1 && c !in s else r < |s| && s[r] == c && c !in s[..r]
  {
    if s == "" then -1
    else if s[0] == c then 0
    else
      var r := FindChar(s[1..], c);
      if r < 0 then -1
      else
        assert s[..r + 1] == [s[0]] + s[1..][..r];
        r + 1
  }

  /** str.rfind of one character. */
  function RFindChar(s: string, c: char): (r: int)
    ensures if r < 0 then r == -1 && c !in s else r < |s| && s[r] == c && c !in s[r + 1..]
  {
    if s == "" then -1
    else
      var n := |s| - 1;
      if s[n] == c then n
      else
        var r := RFindChar(s[..n], c);
        assert s == s[..n] + [s[n]];
        if r < 0 then -1
        else
          assert s[r + 1..] == s[..n][r + 1..] + [s[n]];
          r
  }

  const FENCE := "```"

  /** Drop an opening fence: its whole line, or three characters when there is no line break at all. */
  function OpenFence(c: string): string {
    if FENCE <= c then
      var nl := FindChar(c, '\n');
      if nl > 0 then c[nl + 1..] else c[3..]
    else c
  }

  function CloseFence(c: string): string {
    if |c| >= 3 && c[|c| - 3..] == FENCE then c[..|c| - 3] else c
  }

  function FromBrace(c: string): string {
    if c != "" && c[0] == '{' then c
    else
      var start := FindChar(c, '{');
      if start >= 0 then c[start..] else c
  }

  function ToBrace(c: string): string {
    if c != "" && c[|c| - 1] == '}' then c
    else
      var end := RFindChar(c, '}');
      if end >= 0 then c[..end + 1] else c
  }

  function Slice(c: string): string {
    ToBrace(FromBrace(Strip(CloseFence(c))))
  }

  function Unwrap(text: string): string {
    Slice(OpenFence(Strip(text)))
  }

  /** _parse_response up to json.loads. */
  method CleanResponse(text: string) returns (clean: string)
    ensures clean == Unwrap(text)
  {
    clean := RemoveFences(Strip(text));
    clean := TrimToBraces(Strip(clean));
  }

  method RemoveFences(text: string) returns (clean: string)
    ensures clean == CloseFence(OpenFence(text))
  {
    clean := text;
    if FENCE <= clean {
      var nl := FindChar(clean, '\n');
      clean := if nl > 0 then clean[nl + 1..] else clean[3..];
    }
    if |clean| >= 3 && clean[|clean| - 3..] == FENCE {
      clean := clean[..|clean| - 3];
    }
  }

  method TrimToBraces(text: string) returns (clean: string)
    ensures clean == ToBrace(FromBrace(text))
    ensures '{' !in text && '}' !in text ==> clean == text
  {
    clean := text;
    if clean == "" || clean[0] != '{' {
      var start := FindChar(clean, '{');
      if start >= 0 {
        clean := clean[start..];
      }
    }
    if clean == "" || clean[|clean| - 1] != '}' {
      var end := RFindChar(clean, '}');
      if end >= 0 {
        clean := clean[..end + 1];
      }
    }
  }

  // ----- Stripping around a body -----

  /** A text that neither starts nor ends with a space. */
  predicate Solid(body: string) {
    body != "" && !IsSpace(body[0]) && !IsSpace(body[|body| - 1])
  }

  lemma {:induction false} LStripBefore(a: string, b: string)
    requires b != "" && !IsSpace(b[0])
    ensures LStrip(a + b) == LStrip(a) + b
    decreases |a|
  {
    if a == "" {
      assert a + b == b;
    } else {
      assert (a + b)[1..] == a[1..] + b;
      LStripBefore(a[1..], b);
    }
  }

  lemma {:induction false} RStripAfter(a: string, b: string)
    requires a != "" && !IsSpace(a[|a| - 1])
    ensures RStrip(a + b) == a + RStrip(b)
    decreases |b|
  {
    if b == "" {
      assert a + b == a;
    } else {
      var s, n := a + b, |b| - 1;
      assert s[..|s| - 1] == a + b[..n];
      RStripAfter(a, b[..n]);
    }
  }

  lemma {:induction false} LStripIsSuffix(s: string)
    ensures |LStrip(s)| <= |s| && LStrip(s) == s[|s| - |LStrip(s)|..]
  {
    if s != "" && IsSpace(s[0]) {
      LStripIsSuffix(s[1..]);
    }
  }

  lemma {:induction false} RStripIsPrefix(s: string)
    ensures RStrip(s) <= s
  {
    if s != "" && IsSpace(s[|s| - 1]) {
      RStripIsPrefix(s[..|s| - 1]);
    }
  }

  lemma StripAround(a: string, body: string, b: string)
    requires Solid(body)
    ensures Strip(a + body + b) == LStrip(a) + body + RStrip(b)
  {
    assert a + body + b == a + (body + b);
    LStripBefore(a, body + b);
    assert LStrip(a) + (body + b) == (LStrip(a) + body) + b;
    RStripAfter(LStrip(a) + body, b);
  }

  // ----- The body is recovered -----

  predicate ObjectText(body: string) {
    |body| >= 2 && body[0] == '{' && body[|body| - 1] == '}'
  }

  lemma CloseFenceAfter(a: string, b: string)
    requires a != "" && a[|a| - 1] == '}'
    ensures CloseFence(a + b) == a + CloseFence(b)
  {
    var c := a + b;
    if |b| >= 3 {
      assert c[|c| - 3..] == b[|b| - 3..];
      assert c[..|c| - 3] == a + b[..|b| - 3];
    } else if |c| >= 3 {
      assert c[|c| - 3..][2 - |b|] == '}';
    }
  }

  lemma {:induction false} FindCharAt(a: string, c: char, b: string)
    requires c !in a
    ensures FindChar(a + [c] + b, c) == |a|
    decreases |a|
  {
    if a != "" {
      assert (a + [c] + b)[1..] == a[1..] + [c] + b;
      FindCharAt(a[1..], c, b);
    }
  }

  lemma {:induction false} RFindCharAt(a: string, c: char, b: string)
    requires c !in b
    ensures RFindChar(a + [c] + b, c) == |a|
    decreases |b|
  {
    var s := a + [c] + b;
    if b != "" {
      assert s[..|s| - 1] == a + [c] + b[..|b| - 1];
      RFindCharAt(a, c, b[..|b| - 1]);
    }
  }

  lemma FromBraceSkips(a: string, body: string)
    requires '{' !in a && body != "" && body[0] == '{'
    ensures FromBrace(a + body) == body
  {
    assert a + body == a + ['{'] + body[1..];
    FindCharAt(a, '{', body[1..]);
    assert (a + body)[|a|..] == body;
    assert a == "" ==> a + body == body;
  }

  lemma ToBraceSkips(body: string, b: string)
    requires '}' !in b && body != "" && body[|body| - 1] == '}'
    ensures ToBrace(body + b) == body
  {
    var n := |body| - 1;
    assert body + b == body[..n] + ['}'] + b;
    RFindCharAt(body[..n], '}', b);
    assert (body + b)[..n + 1] == body;
    assert b == "" ==> body + b == body;
  }

  lemma CutAtBraces(a: string, body: string, b: string)
    requires ObjectText(body) && '{' !in a && '}' !in b
    ensures ToBrace(FromBrace(a + body + b)) == body
  {
    assert a + body + b == a + (body + b);
    FromBraceSkips(a, body + b);
    ToBraceSkips(body, b);
  }

  lemma SliceRecovers(a: string, body: string, b: string)
    requires ObjectText(body) && '{' !in a && '}' !in b
    ensures Slice(a + body + b) == body
  {
    CloseFenceAfter(a + body, b);
    StripAround(a, body, CloseFence(b));
    LStripIsSuffix(a);
    RStripIsPrefix(CloseFence(b));
    assert CloseFence(b) <= b;
    forall c | c in LStrip(a) ensures c in a {}
    forall c | c in RStrip(CloseFence(b)) ensures c in b {}
    CutAtBraces(LStrip(a), body, RStrip(CloseFence(b)));
  }

  // ----- When the fence eats the body -----

  /** The opening fence is dropped without touching the body: its line ends before the body, or no line ends at all. */
  predicate FenceHarmless(a: string, body: string, b: string) {
    FENCE <= a ==> '\n' in a || ('\n' !in body && '\n' !in b)
  }

  lemma FenceOnlyBefore(a: string, body: string, b: string)
    requires body != "" && body[0] == '{'
    ensures FENCE <= a + body + b <==> FENCE <= a
  {
    var c := a + body + b;
    if FENCE <= c && |a| < 3 {
      PrefixChar(FENCE, c, |a|);
    }
    if FENCE <= a {
      assert a <= c;
    }
  }

  lemma OpenFenceBefore(a: string, body: string, b: string) returns (rest: string)
    requires ObjectText(body) && FenceHarmless(a, body, b)
    ensures OpenFence(a + body + b) == rest + body + b
    ensures forall c :: c in rest ==> c in a
  {
    var c := a + body + b;
    FenceOnlyBefore(a, body, b);
    if !(FENCE <= a) {
      rest := a;
    } else if '\n' in a {
      var nl := FindChar(a, '\n');
      assert a == a[..nl] + ['\n'] + a[nl + 1..];
      assert c == a[..nl] + ['\n'] + (a[nl + 1..] + body + b);
      FindCharAt(a[..nl], '\n', a[nl + 1..] + body + b);
      assert a[0] == FENCE[0];
      rest := a[nl + 1..];
      assert c[nl + 1..] == rest + body + b;
    } else {
      assert '\n' !in c;
      rest := a[3..];
      assert c[3..] == rest + body + b;
    }
  }

  /** Without a closing brace there is none to cut at. */
  lemma SliceWithoutBrace(c: string)
    requires '}' !in c
    ensures '}' !in Slice(c)
  {
    var d := CloseFence(c);
    LStripIsSuffix(d);
    RStripIsPrefix(LStrip(d));
    assert '}' !in LStrip(d);
    assert '}' !in Strip(d);
    assert '}' !in FromBrace(Strip(d));
  }

  /** What follows the last closing brace is cut: the slice is no longer than the rest of the body, or lies behind it. */
  lemma SliceOfRest(rest: string, b: string)
    requires rest != "" && rest[|rest| - 1] == '}' && '}' !in b
    ensures |Slice(rest + b)| <= |rest| || '}' !in Slice(rest + b)
  {
    CloseFenceAfter(rest, b);
    var b1 := CloseFence(b);
    var n := |rest| - 1;
    assert rest + b1 == rest[..n] + (['}'] + b1);
    LStripBefore(rest[..n], ['}'] + b1);
    var r1 := LStrip(rest[..n]) + ['}'];
    LStripIsSuffix(rest[..n]);
    assert LStrip(rest[..n]) + (['}'] + b1) == r1 + b1;
    RStripAfter(r1, b1);
    RStripIsPrefix(b1);
    var b2 := RStrip(b1);
    assert b1 <= b;
    assert '}' !in b2;
    FromBraceKeepsEnd(r1, b2);
  }

  lemma FromBraceKeepsEnd(r: string, b: string)
    requires r != "" && r[|r| - 1] == '}' && '}' !in b
    ensures |ToBrace(FromBrace(r + b))| <= |r| || '}' !in ToBrace(FromBrace(r + b))
  {
    var c := FromBrace(r + b);
    var cut := |r + b| - |c|;
    assert c == (r + b)[cut..];
    if cut <= |r| - 1 {
      assert c == r[cut..] + b;
      ToBraceSkips(r[cut..], b);
    } else {
      assert c == b[cut - |r|..];
      assert '}' !in c;
    }
  }

  /** An opening fence takes its line with it. */
  lemma LineDropped(line: string, rest: string)
    requires FENCE <= line && '\n' !in line
    ensures OpenFence(line + ['\n'] + rest) == rest
  {
    var all := line + ['\n'] + rest;
    FindCharAt(line, '\n', rest);
    assert FENCE <= all && all[|line| + 1..] == rest;
  }

  lemma OpenFenceEats(a: string, body: string, b: string)
    requires ObjectText(body) && '}' !in b && !FenceHarmless(a, body, b)
    ensures Slice(OpenFence(a + body + b)) != body
  {
    var nl := FindChar(body, '\n');
    if nl >= 0 {
      EatenInBody(a, body, b, nl);
    } else {
      EatenBehind(a, body, b, FindChar(b, '\n'));
    }
  }

  lemma EatenInBody(a: string, body: string, b: string, nl: nat)
    requires ObjectText(body) && '}' !in b && FENCE <= a && '\n' !in a && nl < |body| && body[nl] == '\n' && '\n' !in body[..nl]
    ensures Slice(OpenFence(a + body + b)) != body
  {
    var line, rest := a + body[..nl], body[nl + 1..];
    assert a <= line;
    assert a + body + b == line + ['\n'] + (rest + b);
    LineDropped(line, rest + b);
    SliceOfRest(rest, b);
  }

  lemma EatenBehind(a: string, body: string, b: string, nl: nat)
    requires ObjectText(body) && '}' !in b && FENCE <= a && '\n' !in a && '\n' !in body && nl < |b| && b[nl] == '\n' && '\n' !in b[..nl]
    ensures Slice(OpenFence(a + body + b)) != body
  {
    var line, rest := a + body + b[..nl], b[nl + 1..];
    assert a <= line;
    assert a + body + b == line + ['\n'] + rest;
    LineDropped(line, rest);
    SliceWithoutBrace(rest);
  }

  /**
    For every text with an object in it, prose without an opening brace before it
    and without a closing brace after it, unwrapping hands exactly that object to
    the parser if and only if the opening fence, when there is one, ends its line
    before the object, or the stripped text has no line break at all.
  */
  lemma UnwrapRecoversBody(prefix: string, body: string, suffix: string)
    requires ObjectText(body) && '{' !in prefix && '}' !in suffix
    ensures Unwrap(prefix + body + suffix) == body <==> FenceHarmless(LStrip(prefix), body, RStrip(suffix))
  {
    StripAround(prefix, body, suffix);
    var a, b := LStrip(prefix), RStrip(suffix);
    LStripIsSuffix(prefix);
    RStripIsPrefix(suffix);
    if FenceHarmless(a, body, b) {
      var rest := OpenFenceBefore(a, body, b);
      SliceRecovers(rest, body, b);
    } else {
      OpenFenceEats(a, body, b);
    }
  }

  // ----- Texts without an object -----

  /** Blanks, tabs and line ends are stripped, and what an object or a fence begins or ends with is not. */
  lemma JsonSpaces()
    ensures forall c :: c in " \t\r\n" ==> IsSpace(c)
    ensures forall c :: c in "{}`" ==> !IsSpace(c)
  {
    assert forall c :: c in " \t\r\n" ==> c == ' ' || c == '\t' || c == '\r' || c == '\n';
    assert forall c :: c in "{}`" ==> c == '{' || c == '}' || c == '`';
  }

  lemma SolidStays(s: string)
    requires Solid(s)
    ensures Strip(s) == s
  {
    StripAround("", s, "");
    assert "" + s + "" == s;
  }

  lemma FenceOpens(tag: string, rest: string)
    requires '\n' !in tag
    ensures OpenFence(FENCE + tag + "\n" + rest) == rest
  {
    assert FENCE + tag + "\n" + rest == (FENCE + tag) + ['\n'] + rest;
    LineDropped(FENCE + tag, rest);
  }

  lemma FenceCloses(text: string)
    ensures CloseFence(text + FENCE) == text
  {
    var all := text + FENCE;
    assert all[|all| - 3..] == FENCE && all[..|all| - 3] == text;
  }

  lemma LineEndStripped(text: string)
    requires Solid(text)
    ensures Strip(text + "\n") == text
  {
    JsonSpaces();
    StripAround("", text, "\n");
    assert "" + text + "\n" == text + "\n";
    assert RStrip("\n") == "" && LStrip("") == "";
  }

  /** A fenced text without braces is what stands between the fence lines, whatever the language tag. */
  lemma FencedTextUnwraps(tag: string, text: string)
    requires '\n' !in tag && Solid(text) && '{' !in text && '}' !in text
    ensures Unwrap(FENCE + tag + "\n" + (text + "\n" + FENCE)) == text
  {
    var all := FENCE + tag + "\n" + (text + "\n" + FENCE);
    assert all[0] == '`' && all[|all| - 1] == '`';
    JsonSpaces();
    SolidStays(all);
    FenceOpens(tag, text + "\n" + FENCE);
    FenceCloses(text + "\n");
    LineEndStripped(text);
  }
}
