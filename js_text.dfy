/** The JavaScript string operations the pages rely on: `String.prototype.trim`,
    `String.prototype.toUpperCase` and the falsiness of the empty string, plus a
    first-occurrence split used by the parsers in module Formats. */
module JsText {
  import opened JsValues

  /** ECMAScript WhiteSpace and LineTerminator code points: the characters
      `trim` removes from both ends. */
  predicate IsWhitespace(c: char) {
    || c == '\U{9}' || c == '\U{A}' || c == '\U{B}' || c == '\U{C}' || c == '\U{D}'
    || c == '\U{20}' || c == '\U{A0}' || c == '\U{1680}'
    || ('\U{2000}' <= c <= '\U{200A}')
    || c == '\U{2028}' || c == '\U{2029}' || c == '\U{202F}' || c == '\U{205F}'
    || c == '\U{3000}' || c == '\U{FEFF}'
  }

  predicate AllWhitespace(s: string) {
    forall i :: 0 <= i < |s| ==> IsWhitespace(s[i])
  }

  /** Neither end of `s` is whitespace: `s` is what `trim` can return. */
  predicate Trimmed(s: string) {
    s == [] || (!IsWhitespace(s[0]) && !IsWhitespace(s[|s| - 1]))
  }

  /** `trimStart`: drops the leading whitespace. */
  function TrimStart(s: string): string {
    if s == [] || !IsWhitespace(s[0]) then s else TrimStart(s[1..])
  }

  /** `trimEnd`: drops the trailing whitespace. */
  function TrimEnd(s: string): string {
    if s == [] || !IsWhitespace(s[|s| - 1]) then s else TrimEnd(s[..|s| - 1])
  }

  /** `trimStart` returns a suffix of its input that does not start with
      whitespace, and everything it drops is whitespace. */
  lemma {:induction false} TrimStartDrops(s: string)
    ensures |TrimStart(s)| <= |s| && TrimStart(s) == s[|s| - |TrimStart(s)|..]
    ensures AllWhitespace(s[..|s| - |TrimStart(s)|])
    ensures TrimStart(s) == [] || !IsWhitespace(TrimStart(s)[0])
  {
    if s != [] && IsWhitespace(s[0]) {
      TrimStartDrops(s[1..]);
      var r := TrimStart(s[1..]);
      assert s[1..][..|s[1..]| - |r|] == s[1..|s| - |r|];
    }
  }

  /** `trimEnd` returns a prefix of its input that does not end with
      whitespace, and everything it drops is whitespace. */
  lemma {:induction false} TrimEndDrops(s: string)
    ensures |TrimEnd(s)| <= |s| && TrimEnd(s) == s[..|TrimEnd(s)|]
    ensures AllWhitespace(s[|TrimEnd(s)|..])
    ensures TrimEnd(s) == [] || !IsWhitespace(TrimEnd(s)[|TrimEnd(s)| - 1])
  {
    if s != [] && IsWhitespace(s[|s| - 1]) {
      TrimEndDrops(s[..|s| - 1]);
      var r := TrimEnd(s[..|s| - 1]);
      assert s[..|s| - 1][|r|..] == s[|r|..|s| - 1];
    }
  }

  /** `String.prototype.trim`. */
  function Trim(s: string): string {
    TrimEnd(TrimStart(s))
  }

  /** `toUpperCase` on one character; letters outside ASCII are not mapped. */
  function UpperChar(c: char): (u: char)
    ensures IsWhitespace(u) <==> IsWhitespace(c)
    ensures 'a' <= c <= 'z' ==> u != c && 'A' <= u <= 'Z'
    ensures !('a' <= c <= 'z') ==> u == c
  {
    if 'a' <= c <= 'z' then (c as int - 'a' as int + 'A' as int) as char else c
  }

  /** `String.prototype.toUpperCase`, character by character. */
  function ToUpper(s: string): (r: string)
    ensures |r| == |s|
    ensures forall i :: 0 <= i < |s| ==> r[i] == UpperChar(s[i])
  {
    seq(|s|, i requires 0 <= i < |s| => UpperChar(s[i]))
  }

  /** The JavaScript falsiness of a string: only "" is falsy. */
  predicate Falsy(s: string) {
    s == ""
  }

  /** Splits `s` at the first occurrence of `c`: the part before it and, when
      `c` occurs, the part after it. */
  function SplitFirst(s: string, c: char): (r: (string, Option<string>))
    ensures c !in r.0
    ensures r.1 == None ==> r.0 == s
    ensures r.1 != None ==> s == r.0 + [c] + r.1.value
  {
    if s == [] then ([], None)
    else if s[0] == c then ([], Some(s[1..]))
    else
      var (before, after) := SplitFirst(s[1..], c);
      assert after != None ==> s == [s[0]] + (before + [c] + after.value);
      ([s[0]] + before, after)
  }

  /** Splitting just before a delimiter that `a` does not contain returns `a`
      and exactly the text after that delimiter. */
  lemma {:induction false} SplitFirstAt(a: string, c: char, b: string)
    requires c !in a
    ensures SplitFirst(a + [c] + b, c) == (a, Some(b))
  {
    if a != [] {
      assert (a + [c] + b)[0] == a[0] != c;
      assert (a + [c] + b)[1..] == a[1..] + [c] + b;
      SplitFirstAt(a[1..], c, b);
      assert [a[0]] + a[1..] == a;
    } else {
      assert (a + [c] + b)[1..] == b;
    }
  }

  /** Without the delimiter the text is returned whole. */
  lemma {:induction false} SplitFirstAbsent(a: string, c: char)
    requires c !in a
    ensures SplitFirst(a, c) == (a, None)
  {
    if a != [] {
      SplitFirstAbsent(a[1..], c);
      assert [a[0]] + a[1..] == a;
    }
  }

  // ---- Trim: independent characterisation ------------------------------------

  lemma {:induction false} TrimStartPadded(w: string, t: string)
    requires AllWhitespace(w)
    ensures TrimStart(w + t) == TrimStart(t)
  {
    if w != [] {
      assert (w + t)[0] == w[0];
      assert (w + t)[1..] == w[1..] + t;
      TrimStartPadded(w[1..], t);
    } else {
      assert w + t == t;
    }
  }

  lemma {:induction false} TrimEndPadded(t: string, w: string)
    requires AllWhitespace(w)
    ensures TrimEnd(t + w) == TrimEnd(t)
  {
    if w != [] {
      assert (t + w)[..|t + w| - 1] == t + w[..|w| - 1];
      TrimEndPadded(t, w[..|w| - 1]);
    } else {
      assert t + w == t;
    }
  }

  /** `trim` is fully determined: whenever `s` is some whitespace, a text with
      no whitespace at either end, and more whitespace, `trim` returns that text. */
  lemma TrimUnique(w1: string, t: string, w2: string)
    requires AllWhitespace(w1) && AllWhitespace(w2) && Trimmed(t)
    ensures Trim(w1 + t + w2) == t
  {
    assert w1 + t + w2 == w1 + (t + w2);
    TrimStartPadded(w1, t + w2);
    if t == [] {
      assert t + w2 == w2;
      assert w2 + [] == w2;
      TrimStartPadded(w2, []);
    } else {
      assert TrimStart(t + w2) == t + w2;
      TrimEndPadded(t, w2);
    }
  }

  /** `trim` removes exactly the surrounding whitespace: its result is trimmed,
      and `s` is that result framed by whitespace; `i` and `j` are where the
      result starts and ends within `s`. */
  lemma TrimSplits(s: string) returns (i: nat, j: nat)
    ensures Trimmed(Trim(s))
    ensures i <= j <= |s| && Trim(s) == s[i..j]
    ensures AllWhitespace(s[..i]) && AllWhitespace(s[j..])
  {
    var u := TrimStart(s);
    var t := TrimEnd(u);
    TrimStartDrops(s);
    TrimEndDrops(u);
    i := |s| - |u|;
    j := i + |t|;
    assert u[|t|..] == s[j..];
    assert t == s[i..j];
    if t != [] {
      assert t[0] == u[0];
    }
  }

  /** Trimming an already trimmed text changes nothing. */
  lemma TrimIdempotent(s: string)
    ensures Trim(Trim(s)) == Trim(s)
  {
    var _, _ := TrimSplits(s);
    assert [] + Trim(s) + [] == Trim(s);
    TrimUnique([], Trim(s), []);
  }

  lemma AllWhitespaceConcat(a: string, b: string)
    requires AllWhitespace(a) && AllWhitespace(b)
    ensures AllWhitespace(a + b)
  {
    forall k | 0 <= k < |a + b| ensures IsWhitespace((a + b)[k]) {
      if k < |a| { assert (a + b)[k] == a[k]; } else { assert (a + b)[k] == b[k - |a|]; }
    }
  }

  lemma Regroup(a: string, b: string, c: string, d: string, e: string)
    ensures a + (b + c + d) + e == (a + b) + c + (d + e)
  {
  }

  /** Whitespace around `s` does not change what `trim` returns. */
  lemma TrimIgnoresPadding(w1: string, s: string, w2: string)
    requires AllWhitespace(w1) && AllWhitespace(w2)
    ensures Trim(w1 + s + w2) == Trim(s)
  {
    var i, j := TrimSplits(s);
    var t := Trim(s);
    var lead, trail := s[..i], s[j..];
    assert s == lead + t + trail;
    AllWhitespaceConcat(w1, lead);
    AllWhitespaceConcat(trail, w2);
    Regroup(w1, lead, t, trail, w2);
    TrimUnique(w1 + lead, t, trail + w2);
  }

  /** A non-empty text made only of whitespace is truthy, yet trims to "". */
  lemma BlankTrimsToEmpty(s: string)
    requires AllWhitespace(s)
    ensures Trim(s) == ""
  {
    assert [] + [] + s == s;
    TrimUnique([], [], s);
  }

  // ---- toUpperCase ----------------------------------------------------------

  /** Upper-casing twice is upper-casing once. */
  lemma ToUpperIdempotent(s: string)
    ensures ToUpper(ToUpper(s)) == ToUpper(s)
  {
  }

  lemma ToUpperConcat(a: string, b: string, c: string)
    ensures ToUpper(a + b + c) == ToUpper(a) + ToUpper(b) + ToUpper(c)
  {
  }

  lemma ToUpperKeepsWhitespace(w: string)
    requires AllWhitespace(w)
    ensures AllWhitespace(ToUpper(w))
  {
  }

  lemma ToUpperKeepsTrimmed(t: string)
    requires Trimmed(t)
    ensures Trimmed(ToUpper(t))
  {
  }

  lemma TrimUpperFramed(lead: string, t: string, trail: string)
    requires AllWhitespace(lead) && AllWhitespace(trail) && Trimmed(t)
    ensures Trim(ToUpper(lead + t + trail)) == ToUpper(t)
  {
    ToUpperConcat(lead, t, trail);
    ToUpperKeepsWhitespace(lead);
    ToUpperKeepsWhitespace(trail);
    ToUpperKeepsTrimmed(t);
    TrimUnique(ToUpper(lead), ToUpper(t), ToUpper(trail));
  }

  /** Upper-casing keeps whitespace where it was, so it commutes with `trim`. */
  lemma TrimToUpperCommute(s: string)
    ensures Trim(ToUpper(s)) == ToUpper(Trim(s))
  {
    var i, j := TrimSplits(s);
    assert s == s[..i] + s[i..j] + s[j..];
    TrimUpperFramed(s[..i], s[i..j], s[j..]);
  }
}
