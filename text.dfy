/** The few Python string operations the modelled code relies on:
    `str.lower`, `str.startswith`, `str.endswith`, `in` on strings,
    `str.replace(t, "")` and `str(n)` for non-negative integers. */
module Text {

  /** `c.lower()` for the characters whose lower case form is a single ASCII
      letter: 'A'..'Z' and the KELVIN SIGN (U+212A), which Python lowers to 'k'.
      Every other character is kept as it is. */
  function LowerChar(c: char): (l: char)
    ensures 'A' <= c <= 'Z' ==> 'a' <= l <= 'z' && l as int - c as int == 32
    ensures !('A' <= c <= 'Z') && c != '\U{212A}' ==> l == c
    ensures !('A' <= l <= 'Z') && l != '\U{212A}'
  {
    if 'A' <= c <= 'Z' then (c as int + 32) as char
    else if c == '\U{212A}' then 'k'
    else c
  }

  /** `s.lower()`, character by character. */
  function Lower(s: string): (r: string)
    ensures |r| == |s|
    ensures forall i :: 0 <= i < |s| ==> r[i] == LowerChar(s[i])
  {
    if s == [] then [] else [LowerChar(s[0])] + Lower(s[1..])
  }

  /** Lowering twice is lowering once. */
  lemma LowerIdempotent(s: string)
    ensures Lower(Lower(s)) == Lower(s)
  {
    var once := Lower(s);
    var twice := Lower(once);
    forall i | 0 <= i < |s| ensures twice[i] == once[i] {
      assert once[i] == LowerChar(s[i]);
    }
  }

  predicate StartsWith(s: string, prefix: string) {
    |prefix| <= |s| && s[..|prefix|] == prefix
  }

  predicate EndsWith(s: string, suffix: string) {
    |suffix| <= |s| && s[|s| - |suffix|..] == suffix
  }

  /** `p + s` starts with `p`, and what follows `p` is `s`. */
  lemma AfterPrefix(p: string, s: string)
    ensures StartsWith(p + s, p) && (p + s)[|p|..] == s
  {
    assert (p + s)[..|p|] == p;
  }

  /** A prefix of length `n + m` is the prefix of length `n` followed by the
      next `m` characters. */
  lemma SliceJoin(s: string, n: nat, m: nat)
    requires n + m <= |s|
    ensures s[..n + m] == s[..n] + s[n..][..m]
  {
  }

  lemma StartsWithItself(s: string)
    ensures StartsWith(s, s)
  {
    assert s[..|s|] == s;
  }

  /** Appending text keeps a prefix. */
  lemma StartsWithAppend(s: string, prefix: string, t: string)
    requires StartsWith(s, prefix)
    ensures StartsWith(s + t, prefix)
  {
    assert (s + t)[..|prefix|] == s[..|prefix|];
  }

  /** Prepending text keeps a suffix. */
  lemma EndsWithPrepend(t: string, s: string, suffix: string)
    requires EndsWith(s, suffix)
    ensures EndsWith(t + s, suffix)
  {
    assert (t + s)[|t + s| - |suffix|..] == s[|s| - |suffix|..];
  }

  /** Python's `t in s` for strings: `t` occurs somewhere inside `s`. */
  ghost predicate Contains(s: string, t: string) {
    exists pre: string, post: string :: s == pre + t + post
  }

  lemma ContainsInfix(pre: string, t: string, post: string)
    ensures Contains(pre + t + post, t)
  {
  }

  /** An occurrence of `t` inside a part of `s` is an occurrence inside `s`. */
  lemma ContainsWithin(pre: string, s: string, post: string, t: string)
    requires Contains(s, t)
    ensures Contains(pre + s + post, t)
  {
    var a: string, b: string :| s == a + t + b;
    assert pre + s + post == (pre + a) + t + (b + post);
  }

  /** An occurrence inside an occurrence is an occurrence. */
  lemma ContainsTransitive(s: string, m: string, t: string)
    requires Contains(s, m) && Contains(m, t)
    ensures Contains(s, t)
  {
    var pre: string, post: string :| s == pre + m + post;
    ContainsWithin(pre, m, post, t);
  }

  /** The parts joined in order, as a chain of `+` on strings. */
  function Concat(parts: seq<string>): string {
    if parts == [] then "" else parts[0] + Concat(parts[1..])
  }

  /** Every part occurs in the joined string. */
  lemma {:induction false} ConcatContains(parts: seq<string>, i: nat)
    requires i < |parts|
    ensures Contains(Concat(parts), parts[i])
    decreases i
  {
    var rest := Concat(parts[1..]);
    if i == 0 {
      assert Concat(parts) == "" + parts[0] + rest;
      ContainsInfix("", parts[0], rest);
    } else {
      ConcatContains(parts[1..], i - 1);
      assert parts[1..][i - 1] == parts[i];
      ContainsWithin(parts[0], rest, "", parts[i]);
      assert parts[0] + rest + "" == Concat(parts);
    }
  }

  /** The joined string starts with the first part ... */
  lemma ConcatStartsWith(parts: seq<string>)
    requires |parts| > 0
    ensures StartsWith(Concat(parts), parts[0])
  {
    AfterPrefix(parts[0], Concat(parts[1..]));
  }

  /** ... ends with the last part ... */
  lemma {:induction false} ConcatEndsWith(parts: seq<string>)
    requires |parts| > 0
    ensures EndsWith(Concat(parts), parts[|parts| - 1])
    decreases |parts|
  {
    var last := parts[|parts| - 1];
    if |parts| == 1 {
      assert Concat(parts) == last + "";
      assert (last + "")[|last + ""| - |last|..] == last;
    } else {
      ConcatEndsWith(parts[1..]);
      assert parts[1..][|parts[1..]| - 1] == last;
      EndsWithPrepend(parts[0], Concat(parts[1..]), last);
    }
  }

  /** ... and is at least as long as its first two parts together. */
  lemma ConcatExtends(parts: seq<string>)
    requires |parts| >= 2
    ensures |Concat(parts)| >= |parts[0]| + |parts[1]|
  {
    assert parts[1..][0] == parts[1];
  }

  lemma StartsWithTransitive(s: string, m: string, p: string)
    requires StartsWith(s, m) && StartsWith(m, p)
    ensures StartsWith(s, p)
  {
    assert s[..|p|] == s[..|m|][..|p|];
  }

  lemma EndsWithTransitive(s: string, m: string, q: string)
    requires EndsWith(s, m) && EndsWith(m, q)
    ensures EndsWith(s, q)
  {
    assert s[|s| - |q|..] == s[|s| - |m|..][|m| - |q|..];
  }

  /** `s.replace(t, "")`: every non-overlapping occurrence of `t`, found left
      to right, is deleted in one pass (what is left is not scanned again). */
  function RemoveAll(s: string, t: string): (r: string)
    requires |t| > 0
    ensures |r| <= |s|
    decreases |s|
  {
    if |s| < |t| then s
    else if s[..|t|] == t then RemoveAll(s[|t|..], t)
    else [s[0]] + RemoveAll(s[1..], t)
  }

  /** Characters that cannot start an occurrence of `t` are kept. */
  lemma {:induction false} RemoveAllKeepsClearPrefix(a: string, b: string, t: string)
    requires |t| > 0
    requires forall i :: 0 <= i < |a| ==> a[i] != t[0]
    ensures RemoveAll(a + b, t) == a + RemoveAll(b, t)
    decreases |a|
  {
    if a != [] {
      var s := a + b;
      assert s[1..] == a[1..] + b;
      RemoveAllKeepsClearPrefix(a[1..], b, t);
      if |s| < |t| {
        assert RemoveAll(b, t) == b;
      } else {
        assert s[..|t|] != t by {
          assert s[..|t|][0] == a[0];
        }
        assert RemoveAll(s, t) == [a[0]] + RemoveAll(s[1..], t);
        assert a == [a[0]] + a[1..];
      }
    } else {
      assert a + b == b;
    }
  }

  /** A string with no occurrence of `t` is left as it is. */
  lemma {:induction false} RemoveAllWithoutOccurrence(s: string, t: string)
    requires |t| > 0
    ensures !Contains(s, t) ==> RemoveAll(s, t) == s
    decreases |s|
  {
    if |s| >= |t| {
      if s[..|t|] == t {
        ContainsInfix([], t, s[|t|..]);
        assert [] + t + s[|t|..] == s;
      } else {
        RemoveAllWithoutOccurrence(s[1..], t);
        if Contains(s[1..], t) {
          ContainsWithin([s[0]], s[1..], [], t);
          assert [s[0]] + s[1..] + [] == s;
        } else {
          assert s == [s[0]] + s[1..];
        }
      }
    }
  }

  /** An occurrence of `t` at the front is deleted. */
  lemma RemoveAllDropsLeading(t: string, b: string)
    requires |t| > 0
    ensures RemoveAll(t + b, t) == RemoveAll(b, t)
  {
    assert (t + b)[..|t|] == t;
    assert (t + b)[|t|..] == b;
  }

  predicate IsDigit(c: char) {
    '0' <= c <= '9'
  }

  predicate AllDigits(s: string) {
    forall i :: 0 <= i < |s| ==> IsDigit(s[i])
  }

  /** The number a string of decimal digits denotes. */
  function DecimalValue(s: string): nat
    requires AllDigits(s)
  {
    if s == [] then 0
    else DecimalValue(s[..|s| - 1]) * 10 + (s[|s| - 1] as int - '0' as int)
  }

  function DigitChar(d: nat): (c: char)
    requires d < 10
    ensures IsDigit(c) && c as int - '0' as int == d
  {
    ('0' as int + d) as char
  }

  /** `str(n)`: the shortest decimal numeral of `n`, which reads back as `n`. */
  function NatToString(n: nat): (s: string)
    ensures |s| >= 1 && AllDigits(s)
    ensures s[0] == '0' ==> n == 0 && s == "0"
    ensures DecimalValue(s) == n
    decreases n
  {
    if n < 10 then [DigitChar(n)]
    else
      var prefix := NatToString(n / 10);
      var s := prefix + [DigitChar(n % 10)];
      assert s[..|s| - 1] == prefix;
      s
  }
}
