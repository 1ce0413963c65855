/** Python string operations the ingestion scripts and the HTTP handler rely on:
    `str.isspace`, `str.strip`, `sep.join(parts)` and `str(n)` for a non-negative int. */
module Text {

  /** The characters for which Python's `str.isspace()` holds. */
  predicate IsSpace(c: char) {
    || c == ' '
    || ('\t' <= c <= '\r')
    || ('\U{1c}' <= c <= '\U{1f}')
    || c == '\U{85}' || c == '\U{a0}' || c == '\U{1680}'
    || ('\U{2000}' <= c <= '\U{200a}')
    || c == '\U{2028}' || c == '\U{2029}' || c == '\U{202f}' || c == '\U{205f}' || c == '\U{3000}'
  }

  /** Every character is whitespace (the empty string included). */
  predicate IsBlank(s: string) {
    forall i :: 0 <= i < |s| ==> IsSpace(s[i])
  }

  /** `s.lstrip()`: the longest suffix of `s` that does not start with whitespace. */
  function TrimLeft(s: string): (r: string)
    ensures |r| <= |s| && r == s[|s| - |r|..]
    ensures IsBlank(s[..|s| - |r|])
    ensures r != [] ==> !IsSpace(r[0])
  {
    if s != [] && IsSpace(s[0]) then
      var tail := s[1..];
      var r := TrimLeft(tail);
      assert r == s[|s| - |r|..] by { assert tail[|tail| - |r|..] == s[|s| - |r|..]; }
      assert IsBlank(s[..|s| - |r|]) by {
        forall i | 0 <= i < |s| - |r| ensures IsSpace(s[i]) {
          if i > 0 { assert s[i] == tail[..|tail| - |r|][i - 1]; }
        }
      }
      r
    else s
  }

  /** `s.rstrip()`: the longest prefix of `s` that does not end with whitespace. */
  function TrimRight(s: string): (r: string)
    ensures |r| <= |s| && r == s[..|r|]
    ensures IsBlank(s[|r|..])
    ensures r != [] ==> !IsSpace(r[|r| - 1])
  {
    if s != [] && IsSpace(s[|s| - 1]) then
      var init := s[..|s| - 1];
      var r := TrimRight(init);
      assert r == s[..|r|] by { assert init[..|r|] == s[..|r|]; }
      assert IsBlank(s[|r|..]) by {
        forall i | |r| <= i < |s| ensures IsSpace(s[i]) {
          if i < |s| - 1 { assert s[i] == init[|r|..][i - |r|]; }
        }
      }
      r
    else s
  }

  /** `s.strip()`: `s` with leading and trailing whitespace removed. The result is the
      slice of `s` between a blank prefix and a blank suffix, and is empty or starts and
      ends with a non-whitespace character; it is empty exactly when `s` is blank. */
  function Strip(s: string): (r: string)
    ensures exists lo, hi :: 0 <= lo <= hi <= |s| && r == s[lo..hi] && IsBlank(s[..lo]) && IsBlank(s[hi..])
    ensures r != [] ==> !IsSpace(r[0]) && !IsSpace(r[|r| - 1])
    ensures r == [] <==> IsBlank(s)
  {
    var t := TrimLeft(s);
    var r := TrimRight(t);
    StripShape(s, t, r);
    r
  }

  /** The facts `Strip` promises, from the facts its two trims promise. */
  lemma StripShape(s: string, t: string, r: string)
    requires |t| <= |s| && t == s[|s| - |t|..] && IsBlank(s[..|s| - |t|])
    requires t != [] ==> !IsSpace(t[0])
    requires |r| <= |t| && r == t[..|r|] && IsBlank(t[|r|..])
    requires r != [] ==> !IsSpace(r[|r| - 1])
    ensures 0 <= |s| - |t| <= |s| - |t| + |r| <= |s|
    ensures r == s[|s| - |t|..|s| - |t| + |r|]
    ensures IsBlank(s[..|s| - |t|]) && IsBlank(s[|s| - |t| + |r|..])
    ensures r != [] ==> !IsSpace(r[0]) && !IsSpace(r[|r| - 1])
    ensures r == [] <==> IsBlank(s)
  {
    var lo, hi := |s| - |t|, |s| - |t| + |r|;
    assert s[hi..] == t[|r|..];
    assert s == s[..lo] + r + s[hi..];
    if r == [] {
      BlankConcat(s[..lo], s[hi..]);
    }
    assert r != [] ==> r[0] == s[lo];
  }

  /** Two blank strings make a blank string. */
  lemma BlankConcat(a: string, b: string)
    requires IsBlank(a) && IsBlank(b)
    ensures IsBlank(a + b)
  {
    forall i | 0 <= i < |a + b| ensures IsSpace((a + b)[i]) {
      if i < |a| { assert (a + b)[i] == a[i]; } else { assert (a + b)[i] == b[i - |a|]; }
    }
  }

  /** Stripping twice is stripping once. */
  lemma StripIdempotent(s: string)
    ensures Strip(Strip(s)) == Strip(s)
  {
    var r := Strip(s);
    if r != [] {
      // r neither starts nor ends with whitespace, so neither trim removes anything
      assert !IsSpace(r[0]) && !IsSpace(r[|r| - 1]);
      assert TrimLeft(r) == r;
      assert TrimRight(r) == r;
    }
  }

  /** `needle in hay` on two strings: `needle` occurs in `hay` as a substring. */
  predicate Occurs(needle: string, hay: string) {
    exists i :: 0 <= i <= |hay| && OccursAt(needle, hay, i)
  }

  /** `needle` occurs in `hay` from index `i` on. */
  predicate OccursAt(needle: string, hay: string, i: int) {
    0 <= i <= |hay| - |needle| && hay[i..i + |needle|] == needle
  }

  /** `s.endswith(suffix)`. */
  predicate EndsWith(s: string, suffix: string) {
    |suffix| <= |s| && s[|s| - |suffix|..] == suffix
  }

  /** `sep.join(parts)`. */
  function Join(sep: string, parts: seq<string>): (s: string)
    ensures parts == [] ==> s == ""
    // the first part opens the string and the last one closes it
    ensures parts != [] ==> parts[0] <= s && EndsWith(s, parts[|parts| - 1])
    // one separator between each two neighbouring parts
    ensures |parts| >= 2 ==> parts[0] + sep <= s
    decreases |parts|
  {
    if parts == [] then ""
    else if |parts| == 1 then parts[0]
    else parts[0] + sep + Join(sep, parts[1..])
  }

  /** Index of the first occurrence of `c` in `s`, or `|s|` when there is none. */
  function IndexOf(s: string, c: char): (i: nat)
    ensures i <= |s|
    ensures i < |s| ==> s[i] == c
    ensures forall k :: 0 <= k < i ==> s[k] != c
  {
    if s == [] then 0
    else if s[0] == c then 0
    else 1 + IndexOf(s[1..], c)
  }

  /** `s.split(c)` for a one-character separator: the inverse of `Join([c], _)`. */
  function Split(s: string, c: char): (parts: seq<string>)
    ensures |parts| >= 1
    decreases |s|
  {
    var i := IndexOf(s, c);
    if i == |s| then [s] else [s[..i]] + Split(s[i + 1..], c)
  }

  /** Joining the pieces of a split gives back the original string. */
  lemma {:induction false} JoinSplit(s: string, c: char)
    ensures Join([c], Split(s, c)) == s
    decreases |s|
  {
    var i := IndexOf(s, c);
    if i < |s| {
      var rest := Split(s[i + 1..], c);
      assert s == s[..i] + [c] + s[i + 1..] by { assert s[i] == c; }
      JoinSplit(s[i + 1..], c);
      assert Split(s, c) == [s[..i]] + rest;
      assert ([s[..i]] + rest)[1..] == rest;
    }
  }

  /** Splitting a `c`-joined non-empty list of parts, none containing `c`, gives back the
      parts: the joined label string loses nothing when no label contains the separator. */
  lemma {:induction false} SplitJoin(parts: seq<string>, c: char)
    requires |parts| >= 1
    requires forall k :: 0 <= k < |parts| ==> c !in parts[k]
    ensures Split(Join([c], parts), c) == parts
    decreases |parts|
  {
    var s := Join([c], parts);
    var p := parts[0];
    if |parts| == 1 {
      forall k | 0 <= k < |s| ensures s[k] != c {
        assert s[k] in p;
      }
    } else {
      var rest := Join([c], parts[1..]);
      assert s == p + [c] + rest;
      forall k | 0 <= k < |p| ensures s[k] != c {
        assert s[k] == p[k];
        assert p[k] in p;
      }
      assert s[|p|] == c;
      assert s[|p| + 1..] == rest;
      assert s[..|p|] == p;
      SplitJoin(parts[1..], c);
      assert [p] + parts[1..] == parts;
    }
  }

  /** The decimal digit for `d`. */
  function Digit(d: nat): char
    requires d < 10
  {
    ('0' as int + d) as char
  }

  /** Python's `str(n)` for a non-negative integer: its decimal digits, no leading zero. */
  function NatToString(n: nat): (s: string)
    ensures 1 <= |s|
    ensures n >= 10 ==> |s| >= 2
    ensures forall i :: 0 <= i < |s| ==> '0' <= s[i] <= '9'
    ensures s[0] == '0' <==> n == 0
  {
    if n < 10 then [Digit(n)] else NatToString(n / 10) + [Digit(n % 10)]
  }

  /** Different naturals have different decimal strings, so ids built from different record ids differ. */
  lemma {:induction false} NatToStringInjective(a: nat, b: nat)
    requires NatToString(a) == NatToString(b)
    ensures a == b
  {
    var sa, sb := NatToString(a), NatToString(b);
    if a < 10 && b < 10 {
      assert sa[0] == Digit(a) && sb[0] == Digit(b);
    } else if a >= 10 && b >= 10 {
      assert sa[|sa| - 1] == Digit(a % 10) && sb[|sb| - 1] == Digit(b % 10);
      assert sa[..|sa| - 1] == NatToString(a / 10);
      assert sb[..|sb| - 1] == NatToString(b / 10);
      NatToStringInjective(a / 10, b / 10);
    }
  }

  /** `prefix + str(a)` determines `a`. */
  lemma PrefixedNatInjective(prefix: string, a: nat, b: nat)
    requires prefix + NatToString(a) == prefix + NatToString(b)
    ensures a == b
  {
    assert (prefix + NatToString(a))[|prefix|..] == NatToString(a);
    assert (prefix + NatToString(b))[|prefix|..] == NatToString(b);
    NatToStringInjective(a, b);
  }

  /** `n` spaces, the indentation an f-string keeps inside a triple-quoted literal. */
  function Spaces(n: nat): (s: string)
    ensures |s| == n && IsBlank(s)
  {
    seq(n, _ => ' ')
  }
}
