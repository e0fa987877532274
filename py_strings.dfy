/** The few Python `str` operations the core relies on, on strings as `seq<char>`. */
module PyStrings {

  /** Python `str.startswith(p)` for one prefix. */
  predicate StartsWith(s: string, p: string) {
    |p| <= |s| && s[..|p|] == p
  }

  /** Python `str.endswith(x)` for one suffix. */
  predicate EndsWith(s: string, x: string) {
    |x| <= |s| && s[|s| - |x|..] == x
  }

  /** The characters Python's `str.isspace` accepts, which `str.strip()` removes. */
  predicate IsSpace(c: char) {
    c == ' ' || ('\t' <= c <= '\r') || ('\U{1C}' <= c <= '\U{1F}')
    || c == '\U{85}' || c == '\U{A0}' || c == '\U{1680}'
    || ('\U{2000}' <= c <= '\U{200A}')
    || c == '\U{2028}' || c == '\U{2029}' || c == '\U{202F}' || c == '\U{205F}' || c == '\U{3000}'
  }

  /** Python `str.lstrip()`. */
  function TrimStart(s: string): string {
    if s != [] && IsSpace(s[0]) then TrimStart(s[1..]) else s
  }

  /** `lstrip()` drops the leading whitespace and nothing else. */
  lemma {:induction false} TrimStartFacts(s: string)
    ensures var r := TrimStart(s);
      && |r| <= |s| && r == s[|s| - |r|..]
      && (r == [] || !IsSpace(r[0]))
      && forall k :: 0 <= k < |s| - |r| ==> IsSpace(s[k])
  {
    if s != [] && IsSpace(s[0]) {
      var t := s[1..];
      TrimStartFacts(t);
      var r := TrimStart(t);
      assert TrimStart(s) == r;
      assert t[|t| - |r|..] == s[|s| - |r|..];
      forall k | 0 <= k < |s| - |r| ensures IsSpace(s[k]) {
        if k > 0 { assert s[k] == t[k - 1]; }
      }
    } else {
      assert s[|s| - |s|..] == s;
    }
  }

  /** Python `str.rstrip()`. */
  function TrimEnd(s: string): string {
    if s != [] && IsSpace(s[|s| - 1]) then TrimEnd(s[..|s| - 1]) else s
  }

  /** `rstrip()` drops the trailing whitespace and nothing else. */
  lemma {:induction false} TrimEndFacts(s: string)
    ensures var r := TrimEnd(s);
      && |r| <= |s| && r == s[..|r|]
      && (r == [] || !IsSpace(r[|r| - 1]))
      && forall k :: |r| <= k < |s| ==> IsSpace(s[k])
  {
    if s != [] && IsSpace(s[|s| - 1]) {
      var t := s[..|s| - 1];
      TrimEndFacts(t);
      var r := TrimEnd(t);
      assert TrimEnd(s) == r;
      assert t[..|r|] == s[..|r|];
      forall k | |r| <= k < |s| ensures IsSpace(s[k]) {
        if k < |s| - 1 { assert s[k] == t[k]; }
      }
    } else {
      assert s[..|s|] == s;
    }
  }

  /** `r` is `s[i..]` cut short, with only whitespace in front of it and behind it. */
  predicate PaddedAt(s: string, i: int, r: string) {
    && 0 <= i <= |s| - |r| && r == s[i..i + |r|]
    && (forall k :: 0 <= k < i ==> IsSpace(s[k]))
    && (forall k :: i + |r| <= k < |s| ==> IsSpace(s[k]))
  }

  /** Python `str.strip()`: the result has no whitespace at either end. */
  function Strip(s: string): (r: string)
    ensures r == [] || (!IsSpace(r[0]) && !IsSpace(r[|r| - 1]))
  {
    TrimStartFacts(s);
    TrimEndFacts(TrimStart(s));
    TrimEnd(TrimStart(s))
  }

  /** `strip()` keeps the longest infix with no whitespace at either end: only whitespace
      lies in front of it and behind it. */
  lemma StripPadded(s: string)
    ensures exists i :: PaddedAt(s, i, Strip(s))
  {
    var t := TrimStart(s);
    TrimStartFacts(s);
    TrimEndFacts(t);
    assert PaddedAt(s, |s| - |t|, Strip(s));
  }

  /** `strip()` leaves nothing exactly when every character is whitespace. */
  lemma StripAllSpace(s: string)
    ensures Strip(s) == [] <==> forall k :: 0 <= k < |s| ==> IsSpace(s[k])
  {
    StripPadded(s);
    if Strip(s) == [] {
      var i :| PaddedAt(s, i, []);
    }
  }

  /** `strip()` keeps a string with no whitespace at either end as it is. */
  lemma StripUnpadded(s: string)
    requires s != [] && !IsSpace(s[0]) && !IsSpace(s[|s| - 1])
    ensures Strip(s) == s
  {
    assert TrimStart(s) == s;
    assert TrimEnd(s) == s;
  }

  /** Joins pieces with one separator between neighbours (Python `c.join(pieces)`). */
  function Join(pieces: seq<string>, c: char): (r: string)
    requires |pieces| >= 1
  {
    if |pieces| == 1 then pieces[0] else pieces[0] + [c] + Join(pieces[1..], c)
  }

  /** Python `s.split(c)` for a one-character separator: never empty, the pieces hold no
      separator, and joining them back gives `s`. */
  function Split(s: string, c: char): (r: seq<string>)
    ensures |r| >= 1
    ensures forall k :: 0 <= k < |r| ==> c !in r[k]
    ensures Join(r, c) == s
  {
    if s == [] then [""]
    else
      var rest := Split(s[1..], c);
      if s[0] == c then [""] + rest
      else [[s[0]] + rest[0]] + rest[1..]
  }

  /** `s.split(c)[-1]`. */
  function AfterLast(s: string, c: char): string {
    var parts := Split(s, c);
    parts[|parts| - 1]
  }

  /** `s.split(c)[0]`. */
  function BeforeFirst(s: string, c: char): string {
    Split(s, c)[0]
  }

  /** A string without the separator splits into itself alone. */
  lemma {:induction false} SplitWithoutSep(s: string, c: char)
    requires c !in s
    ensures Split(s, c) == [s]
  {
    if s != [] {
      SplitWithoutSep(s[1..], c);
    }
  }

  /** Splitting at a separator splits each side independently. */
  lemma {:induction false} SplitAtSep(t: string, c: char, u: string)
    ensures Split(t + [c] + u, c) == Split(t, c) + Split(u, c)
  {
    var s := t + [c] + u;
    if t == [] {
      assert s[0] == c && s[1..] == u;
    } else {
      assert s[0] == t[0] && s[1..] == t[1..] + [c] + u;
      SplitAtSep(t[1..], c, u);
    }
  }

  /** No piece of a split holds a character the string does not hold. */
  lemma {:induction false} SplitPiecesWithin(s: string, c: char, x: char)
    requires x !in s
    ensures forall k :: 0 <= k < |Split(s, c)| ==> x !in Split(s, c)[k]
  {
    if s != [] {
      assert x !in s[1..];
      SplitPiecesWithin(s[1..], c, x);
    }
  }

  /** The text after the last separator, when the tail holds none. */
  lemma AfterLastOf(t: string, c: char, u: string)
    requires c !in u
    ensures AfterLast(t + [c] + u, c) == u
  {
    SplitAtSep(t, c, u);
    SplitWithoutSep(u, c);
  }

  /** The text before the first separator, when the head holds none. */
  lemma BeforeFirstOf(t: string, c: char, u: string)
    requires c !in t
    ensures BeforeFirst(t + [c] + u, c) == t
  {
    SplitAtSep(t, c, u);
    SplitWithoutSep(t, c);
  }

  /** ASCII `str.lower()`. */
  function Lower(s: string): (r: string)
    ensures |r| == |s|
    ensures forall k :: 0 <= k < |s| ==> r[k] == if 'A' <= s[k] <= 'Z' then (s[k] as int + 32) as char else s[k]
  {
    if s == [] then [] else [if 'A' <= s[0] <= 'Z' then (s[0] as int + 32) as char else s[0]] + Lower(s[1..])
  }
}
