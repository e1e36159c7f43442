/** The parts of Python's `str` that the assistant's own code relies on:
    whitespace stripping, suffix and substring tests, slicing, ASCII lower-casing,
    `sep.join`, and the decimal rendering of integers in f-strings. */
module Text {

  /** The characters Python's `str.isspace` accepts, i.e. those `strip()` removes. */
  predicate IsSpace(c: char)
  {
    c == ' ' || c == '\t' || c == '\n' || c == '\r' || c == '\U{B}' || c == '\U{C}'
    || ('\U{1C}' <= c <= '\U{1F}') || c == '\U{85}' || c == '\U{A0}' || c == '\U{1680}'
    || ('\U{2000}' <= c <= '\U{200A}') || c == '\U{2028}' || c == '\U{2029}'
    || c == '\U{202F}' || c == '\U{205F}' || c == '\U{3000}'
  }

  /** `not s.strip()`: the string is empty or made of whitespace only. */
  predicate AllSpace(s: string)
  {
    forall i :: 0 <= i < |s| ==> IsSpace(s[i])
  }

  /** `s.rstrip()`: the longest prefix of `s` that does not end in whitespace. */
  function RStrip(s: string): (r: string)
    ensures r <= s
    ensures r == [] || !IsSpace(r[|r| - 1])
    ensures forall i :: |r| <= i < |s| ==> IsSpace(s[i])
  {
    if s == [] || !IsSpace(s[|s| - 1]) then s else RStrip(s[..|s| - 1])
  }

  /** `s.lstrip()`: what is left of `s` once its leading whitespace is removed. */
  function LStrip(s: string): (r: string)
    ensures |r| <= |s| && r == s[|s| - |r|..]
    ensures r == [] || !IsSpace(r[0])
    ensures forall i :: 0 <= i < |s| - |r| ==> IsSpace(s[i])
  {
    if s == [] || !IsSpace(s[0]) then s else LStrip(s[1..])
  }

  /** `s.strip()`. */
  function Strip(s: string): string
  {
    LStrip(RStrip(s))
  }

  /** `s.endswith(suffix)`. */
  predicate EndsWith(s: string, suffix: string)
  {
    |suffix| <= |s| && s[|s| - |suffix|..] == suffix
  }

  /** `s[:n]` for a non-negative `n`: the prefix of length min(n, len(s)). */
  function Take(s: string, n: nat): (r: string)
    ensures r <= s
    ensures |r| == if |s| <= n then |s| else n
  {
    if |s| <= n then s else s[..n]
  }

  /** `k in s` for strings: `k` occurs in `s` at some position. */
  predicate Contains(s: string, k: string)
    decreases |s|
  {
    (|k| <= |s| && s[..|k|] == k) || (s != [] && Contains(s[1..], k))
  }

  /** `c.lower()` for the ASCII letters; every other character is left as it is. */
  function LowerChar(c: char): char
  {
    if 'A' <= c <= 'Z' then (c as int - 'A' as int + 'a' as int) as char else c
  }

  /** `s.lower()`, character by character (see LowerChar). */
  function Lower(s: string): (r: string)
    ensures |r| == |s|
    ensures forall i :: 0 <= i < |s| ==> r[i] == LowerChar(s[i])
  {
    seq(|s|, i requires 0 <= i < |s| => LowerChar(s[i]))
  }

  /** `sep.join(parts)`. */
  function Join(parts: seq<string>, sep: string): string
  {
    if |parts| == 0 then ""
    else if |parts| == 1 then parts[0]
    else parts[0] + sep + Join(parts[1..], sep)
  }

  function DigitChar(d: nat): char
    requires d < 10
  {
    "0123456789"[d]
  }

  function DigitValue(c: char): nat
  {
    if '0' <= c <= '9' then c as int - '0' as int else 0
  }

  /** `str(n)` for a natural number: its decimal digits, without leading zeros. */
  function NatToString(n: nat): (r: string)
    ensures |r| >= 1
    ensures forall i :: 0 <= i < |r| ==> '0' <= r[i] <= '9'
    ensures r[0] == '0' ==> n == 0
  {
    if n < 10 then [DigitChar(n)] else NatToString(n / 10) + [DigitChar(n % 10)]
  }

  /** `str(i)` for an integer, with a leading '-' when it is negative. */
  function IntToString(i: int): string
  {
    if i < 0 then "-" + NatToString(-i) else NatToString(i)
  }

  /** `int(s)` for a string of decimal digits: the partner of NatToString. */
  function ParseNat(s: string): nat
  {
    if s == [] then 0 else ParseNat(s[..|s| - 1]) * 10 + DigitValue(s[|s| - 1])
  }

  // ---------------------------------------------------------------------------
  // Lemmas

  /** Rendering a natural number and reading it back gives the number. */
  lemma {:induction false} NatToStringRoundTrip(n: nat)
    ensures ParseNat(NatToString(n)) == n
  {
    var r := NatToString(n);
    if n < 10 {
      DigitRoundTrip(n);
      assert r[..|r| - 1] == [];
    } else {
      var q, d := n / 10, n % 10;
      NatToStringRoundTrip(q);
      DigitRoundTrip(d);
      assert r[..|r| - 1] == NatToString(q);
      assert r[|r| - 1] == DigitChar(d);
      assert ParseNat(r) == q * 10 + d;
    }
  }

  lemma DigitRoundTrip(d: nat)
    requires d < 10
    ensures DigitValue(DigitChar(d)) == d
  {
    assert "0123456789"[0] == '0' && "0123456789"[1] == '1' && "0123456789"[2] == '2';
    assert "0123456789"[3] == '3' && "0123456789"[4] == '4' && "0123456789"[5] == '5';
    assert "0123456789"[6] == '6' && "0123456789"[7] == '7' && "0123456789"[8] == '8';
    assert "0123456789"[9] == '9';
  }

  /** Whitespace appended after `s` does not change `s.rstrip()`. */
  lemma {:induction false} RStripTrailingSpace(s: string, ws: string)
    requires AllSpace(ws)
    ensures RStrip(s + ws) == RStrip(s)
  {
    if ws != [] {
      var t := s + ws;
      assert t[..|t| - 1] == s + ws[..|ws| - 1];
      RStripTrailingSpace(s, ws[..|ws| - 1]);
    } else {
      assert s + ws == s;
    }
  }

  /** `s.rstrip()` of a string that is whitespace only is empty, and conversely. */
  lemma RStripEmpty(s: string)
    ensures RStrip(s) == [] <==> AllSpace(s)
  {
  }

  /** `s.strip()` is empty exactly when `s` is whitespace only. */
  lemma StripEmpty(s: string)
    ensures Strip(s) == [] <==> AllSpace(s)
  {
    var r := RStrip(s);
    if r != [] {
      assert !IsSpace(r[|r| - 1]);
      assert LStrip(r) != [];
    }
  }

  /** A character of a string occurring in `s` occurs in `s` itself. */
  lemma {:induction false} ContainsChar(s: string, k: string, j: nat)
    requires Contains(s, k) && j < |k|
    ensures k[j] in s
  {
    if |k| <= |s| && s[..|k|] == k {
      assert s[j] == k[j];
    } else {
      ContainsChar(s[1..], k, j);
    }
  }

  /** A string missing one of the characters of `k` does not contain `k`. */
  lemma NotContainsMissingChar(s: string, k: string, j: nat)
    requires j < |k| && k[j] !in s
    ensures !Contains(s, k)
  {
    if Contains(s, k) {
      ContainsChar(s, k, j);
    }
  }

  /** A string occurs in any string built around it. */
  lemma {:induction false} ContainsInfix(a: string, k: string, b: string)
    ensures Contains(a + k + b, k)
  {
    var s := a + k + b;
    if a == [] {
      assert s[..|k|] == k;
    } else {
      assert s[1..] == a[1..] + k + b;
      ContainsInfix(a[1..], k, b);
    }
  }

  /** Lower-casing leaves a string without ASCII capitals unchanged. */
  lemma LowerNoCapitals(s: string)
    requires forall i :: 0 <= i < |s| ==> !('A' <= s[i] <= 'Z')
    ensures Lower(s) == s
  {
  }

  /** `sep.join(parts)` begins with the first part. */
  lemma JoinStartsWithFirst(parts: seq<string>, sep: string)
    requires |parts| > 0
    ensures parts[0] <= Join(parts, sep)
  {
  }

  /** Appending one more part to a non-empty join adds the separator and that part. */
  lemma {:induction false} JoinSnoc(parts: seq<string>, p: string, sep: string)
    requires |parts| > 0
    ensures Join(parts + [p], sep) == Join(parts, sep) + sep + p
  {
    if |parts| == 1 {
      assert (parts + [p])[1..] == [p];
    } else {
      assert (parts + [p])[1..] == parts[1..] + [p];
      JoinSnoc(parts[1..], p, sep);
    }
  }

  /** The total length of the parts before index `i`, each followed by a separator. */
  function OffsetOf(parts: seq<string>, i: nat, sepLength: nat): nat
    requires i <= |parts|
  {
    if i == 0 then 0 else OffsetOf(parts, i - 1, sepLength) + |parts[i - 1]| + sepLength
  }

  /** Every part of `sep.join(parts)` can be found in it, in order: part `i` sits at
      the position given by the lengths of the parts and separators before it. */
  lemma {:induction false} JoinPartAt(parts: seq<string>, sep: string, i: nat)
    requires i < |parts|
    ensures OffsetOf(parts, i, |sep|) + |parts[i]| <= |Join(parts, sep)|
    ensures Join(parts, sep)[OffsetOf(parts, i, |sep|)..OffsetOf(parts, i, |sep|) + |parts[i]|] == parts[i]
  {
    if |parts| == 1 {
    } else if i == 0 {
      var tail := sep + Join(parts[1..], sep);
      assert Join(parts, sep) == parts[0] + tail;
      SliceOfConcat([], parts[0] + tail, 0, |parts[0]|);
    } else {
      var rest := parts[1..];
      JoinPartAt(rest, sep, i - 1);
      OffsetShift(parts, i, |sep|);
      var head := parts[0] + sep;
      assert Join(parts, sep) == head + Join(rest, sep);
      var o := OffsetOf(rest, i - 1, |sep|);
      SliceOfConcat(head, Join(rest, sep), o, o + |rest[i - 1]|);
    }
  }

  /** A slice of `b` read inside `a + b`. */
  lemma SliceOfConcat(a: string, b: string, lo: nat, hi: nat)
    requires lo <= hi <= |b|
    ensures (a + b)[|a| + lo..|a| + hi] == b[lo..hi]
  {
  }

  lemma ConcatAssoc<T>(a: seq<T>, b: seq<T>, c: seq<T>)
    ensures (a + b) + c == a + (b + c)
  {
  }

  /** A string is its prefix followed by the rest. */
  lemma PrefixSplit(r: string, s: string)
    requires r <= s
    ensures s == r + s[|r|..]
  {
  }

  /** A string ending in `t` is what comes before `t`, followed by `t`. */
  lemma SuffixSplit(r: string, t: string)
    requires EndsWith(r, t)
    ensures r == r[..|r| - |t|] + t
  {
  }

  lemma {:induction false} OffsetShift(parts: seq<string>, i: nat, sepLength: nat)
    requires 0 < i <= |parts|
    ensures OffsetOf(parts, i, sepLength) == |parts[0]| + sepLength + OffsetOf(parts[1..], i - 1, sepLength)
  {
    if i > 1 {
      OffsetShift(parts, i - 1, sepLength);
    }
  }
}
