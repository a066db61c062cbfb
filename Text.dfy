/** Python's `str.strip()` with no argument, as applied to every `get_text()`. */
module Text {

  /** The characters for which Python's `str.isspace()` holds: tab to carriage
      return, the four information separators and space, next line, no-break space,
      ogham space mark, U+2000..U+200A, the line and paragraph separators, the narrow
      no-break space, the medium mathematical space and the ideographic space. */
  predicate IsSpace(c: char) {
    || ('\t' <= c <= '\r') || ('\U{1C}' <= c <= ' ') || c == '\U{85}' || c == '\U{A0}' || c == '\U{1680}'
    || ('\U{2000}' <= c <= '\U{200A}') || c == '\U{2028}' || c == '\U{2029}' || c == '\U{202F}'
    || c == '\U{205F}' || c == '\U{3000}'
  }

  /** `s.lstrip()`. */
  function TrimStart(s: string): string
    decreases |s|
  {
    if s != [] && IsSpace(s[0]) then TrimStart(s[1..]) else s
  }

  /** `s.rstrip()`. */
  function TrimEnd(s: string): string
    decreases |s|
  {
    if s != [] && IsSpace(s[|s| - 1]) then TrimEnd(s[..|s| - 1]) else s
  }

  /** `s.strip()`. */
  function Strip(s: string): string {
    TrimEnd(TrimStart(s))
  }

  /** `[t.strip() for t in ts]`. */
  function StripEach(ts: seq<string>): (r: seq<string>)
    ensures |r| == |ts| && forall k :: 0 <= k < |ts| ==> r[k] == Strip(ts[k])
  {
    seq(|ts|, k requires 0 <= k < |ts| => Strip(ts[k]))
  }

  /** Every character of `s` is whitespace. */
  ghost predicate AllSpace(s: string) {
    forall i :: 0 <= i < |s| ==> IsSpace(s[i])
  }

  lemma AllSpaceConcat(a: string, b: string)
    ensures AllSpace(a + b) <==> AllSpace(a) && AllSpace(b)
  {
    if AllSpace(a) && AllSpace(b) {
      forall i | 0 <= i < |a + b| ensures IsSpace((a + b)[i]) {
        if i >= |a| { assert (a + b)[i] == b[i - |a|]; }
      }
    }
    if AllSpace(a + b) {
      forall i | 0 <= i < |a| ensures IsSpace(a[i]) {
        assert a[i] == (a + b)[i];
      }
      forall i | 0 <= i < |b| ensures IsSpace(b[i]) {
        assert b[i] == (a + b)[|a| + i];
      }
    }
  }

  /** `lstrip` removes a whitespace-only prefix, and what it keeps does not start
      with whitespace. */
  lemma {:induction false} TrimStartDrops(s: string)
    ensures var r := TrimStart(s);
      && |r| <= |s| && s == s[..|s| - |r|] + r
      && AllSpace(s[..|s| - |r|])
      && (r == [] || !IsSpace(r[0]))
    decreases |s|
  {
    if s != [] && IsSpace(s[0]) {
      var rest := s[1..];
      TrimStartDrops(rest);
      var r := TrimStart(rest);
      assert TrimStart(s) == r;
      var cut := rest[..|rest| - |r|];
      assert s[..|s| - |r|] == [s[0]] + cut;
      AllSpaceConcat([s[0]], cut);
      assert s == [s[0]] + rest;
    }
  }

  /** `rstrip` removes a whitespace-only suffix, and what it keeps does not end
      with whitespace. */
  lemma {:induction false} TrimEndDrops(s: string)
    ensures var r := TrimEnd(s);
      && |r| <= |s| && s == r + s[|r|..]
      && AllSpace(s[|r|..])
      && (r == [] || !IsSpace(r[|r| - 1]))
    decreases |s|
  {
    if s != [] && IsSpace(s[|s| - 1]) {
      var front := s[..|s| - 1];
      TrimEndDrops(front);
      var r := TrimEnd(front);
      assert TrimEnd(s) == r;
      var cut := front[|r|..];
      assert front == r + cut;
      assert s == front + [s[|s| - 1]];
      assert s[|r|..] == cut + [s[|s| - 1]];
      AllSpaceConcat(cut, [s[|s| - 1]]);
      assert s == r + s[|r|..];
    }
  }

  /** The stripped text is what lies between a whitespace-only prefix and a
      whitespace-only suffix of `s`. */
  lemma StripIsInfix(s: string) returns (lo: nat)
    ensures var r := Strip(s);
      && lo + |r| <= |s| && s == s[..lo] + r + s[lo + |r|..]
      && AllSpace(s[..lo]) && AllSpace(s[lo + |r|..])
  {
    var t := TrimStart(s);
    TrimStartDrops(s);
    lo := |s| - |t|;
    var r := TrimEnd(t);
    TrimEndDrops(t);
    assert t == s[lo..];
    assert t[|r|..] == s[lo + |r|..];
  }

  /** The stripped text neither starts nor ends with whitespace. */
  lemma StripEnds(s: string)
    ensures var r := Strip(s);
      r == [] || (!IsSpace(r[0]) && !IsSpace(r[|r| - 1]))
  {
    var t := TrimStart(s);
    TrimStartDrops(s);
    var r := TrimEnd(t);
    TrimEndDrops(t);
    if r != [] {
      assert r[0] == t[0];
    }
  }

  /** Stripping yields the empty string exactly when `s` is whitespace only. */
  lemma StripEmptyIff(s: string)
    ensures Strip(s) == [] <==> AllSpace(s)
  {
    var lo := StripIsInfix(s);
    var r := Strip(s);
    AllSpaceConcat(s[..lo], r);
    AllSpaceConcat(s[..lo] + r, s[lo + |r|..]);
    if r != [] {
      StripEnds(s);
      assert !AllSpace(r) by { assert !IsSpace(r[0]); }
    }
  }

  /** Stripping twice strips nothing more. */
  lemma StripIdempotent(s: string)
    ensures Strip(Strip(s)) == Strip(s)
  {
    var t := Strip(s);
    StripEnds(s);
    assert TrimStart(t) == t;
    assert TrimEnd(t) == t;
  }
}
