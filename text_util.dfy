/**
 * String helpers the two source files rely on: `str.lower`, the `in`
 * substring test, `str.endswith`, `str.split` on one character, and the
 * decimal rendering of an integer that an f-string performs.
 */
module TextUtil {

  /** Lower-cases one character; only the ASCII letters A-Z change. */
  function LowerChar(c: char): char
  {
    if 'A' <= c <= 'Z' then (c as int + 32) as char else c
  }

  /** `s.lower()`, character by character. */
  function Lower(s: string): (r: string)
    ensures |r| == |s|
    ensures forall i :: 0 <= i < |s| ==> r[i] == LowerChar(s[i])
  {
    seq(|s|, i requires 0 <= i < |s| => LowerChar(s[i]))
  }

  /** Lower-casing commutes with taking a slice. */
  lemma LowerSlice(s: string, i: nat, j: nat)
    requires i <= j <= |s|
    ensures Lower(s)[i..j] == Lower(s[i..j])
  {
  }

  predicate StartsWith(s: string, prefix: string)
  {
    |prefix| <= |s| && s[..|prefix|] == prefix
  }

  /** Python's `w in s` for strings: `w` occurs somewhere in `s`. */
  predicate Contains(s: string, w: string)
    ensures w == [] ==> Contains(s, w)
    ensures Contains(s, w) ==> |w| <= |s|
    decreases |s|
  {
    StartsWith(s, w) || (s != [] && Contains(s[1..], w))
  }

  /** Python's `s.endswith(suffix)`: the last `|suffix|` characters of `s` are those of `suffix`. */
  predicate EndsWith(s: string, suffix: string): (r: bool)
    ensures r <==> |suffix| <= |s| && forall k :: 0 <= k < |suffix| ==> s[|s| - |suffix| + k] == suffix[k]
  {
    |suffix| <= |s| && s[|s| - |suffix|..] == suffix
  }

  /** An occurrence at a known position makes `Contains` hold. */
  lemma {:induction false} ContainsAt(s: string, w: string, i: nat)
    requires i + |w| <= |s| && s[i..i + |w|] == w
    ensures Contains(s, w)
    decreases i
  {
    if i > 0 {
      assert s[1..][i - 1..i - 1 + |w|] == w;
      ContainsAt(s[1..], w, i - 1);
    }
  }

  /** `Contains` holds exactly when there is such a position. */
  lemma {:induction false} ContainsWitness(s: string, w: string) returns (i: nat)
    requires Contains(s, w)
    ensures i + |w| <= |s| && s[i..i + |w|] == w
    decreases |s|
  {
    if StartsWith(s, w) {
      i := 0;
    } else {
      var k := ContainsWitness(s[1..], w);
      assert s[1..][k..k + |w|] == s[k + 1..k + 1 + |w|];
      i := k + 1;
    }
  }

  /** A letter absent from `s` in both cases is absent from `Lower(s)`. */
  lemma LowerAvoids(s: string, ch: char)
    requires 'a' <= ch <= 'z' && ch !in s && (ch as int - 32) as char !in s
    ensures ch !in Lower(s)
  {
    forall i | 0 <= i < |s| ensures Lower(s)[i] != ch {
      assert s[i] in s;
    }
  }

  /** A string cannot contain a word whose first character it lacks. */
  lemma {:induction false} AbsentFirstCharNotContained(s: string, w: string)
    requires |w| > 0 && w[0] !in s
    ensures !Contains(s, w)
    decreases |s|
  {
    if s != [] {
      assert s[0] in s;
      assert forall k :: 0 <= k < |s[1..]| ==> s[1..][k] in s;
      AbsentFirstCharNotContained(s[1..], w);
    }
  }

  /** A suffix is in particular a substring. */
  lemma EndsWithContains(s: string, suffix: string)
    requires EndsWith(s, suffix)
    ensures Contains(s, suffix)
  {
    ContainsAt(s, suffix, |s| - |suffix|);
  }

  /** Index of the first occurrence of `d` in `s`. */
  function IndexOf(s: string, d: char): (i: nat)
    requires d in s
    ensures i < |s| && s[i] == d && d !in s[..i]
  {
    if s[0] == d then 0 else 1 + IndexOf(s[1..], d)
  }

  /**
   * Python's `s.split(d)` for a one-character separator: the pieces between
   * separators, empty pieces included, at least one piece.
   */
  function Split(s: string, d: char): (parts: seq<string>)
    ensures |parts| >= 1
    ensures forall k :: 0 <= k < |parts| ==> d !in parts[k]
    ensures |parts| == 1 <==> d !in s
    decreases |s|
  {
    if d !in s then [s]
    else
      var i := IndexOf(s, d);
      [s[..i]] + Split(s[i + 1..], d)
  }

  /** Python's `d.join(parts)`, the inverse of `Split`. */
  function Join(parts: seq<string>, d: char): string
    requires |parts| >= 1
  {
    if |parts| == 1 then parts[0] else parts[0] + [d] + Join(parts[1..], d)
  }

  /** Splitting and joining back gives the original string. */
  lemma {:induction false} SplitJoin(s: string, d: char)
    ensures Join(Split(s, d), d) == s
    decreases |s|
  {
    if d in s {
      var i := IndexOf(s, d);
      var head, tail := s[..i], s[i + 1..];
      calc {
        Join(Split(s, d), d);
      == { SplitUnfold(s, d); }
        Join([head] + Split(tail, d), d);
      == { JoinUnfold(head, Split(tail, d), d); }
        head + [d] + Join(Split(tail, d), d);
      == { SplitJoin(tail, d); }
        head + [d] + tail;
      == { Around(s, i); }
        s;
      }
    }
  }

  /** A string is the part before position `i`, the character there, and the part after. */
  lemma Around(s: string, i: nat)
    requires i < |s|
    ensures s[..i] + [s[i]] + s[i + 1..] == s
  {
  }

  /** One step of `Split`: the piece before the first separator, then the split of the rest. */
  lemma SplitUnfold(s: string, d: char)
    requires d in s
    ensures Split(s, d) == [s[..IndexOf(s, d)]] + Split(s[IndexOf(s, d) + 1..], d)
  {
  }

  /** One step of `Join`. */
  lemma JoinUnfold(head: string, rest: seq<string>, d: char)
    requires |rest| >= 1
    ensures Join([head] + rest, d) == head + [d] + Join(rest, d)
  {
    assert ([head] + rest)[1..] == rest;
  }

  /** The first piece of a split is everything before the first separator. */
  lemma SplitHead(s: string, d: char, t: string)
    requires d !in s && (t == [] || t[0] == d)
    ensures Split(s + t, d)[0] == s
  {
    if t != [] {
      assert (s + t)[|s|] == d;
      var i := IndexOf(s + t, d);
      assert (s + t)[..|s|] == s;
      assert i == |s|;
    } else {
      assert s + t == s;
    }
  }

  function DigitChar(d: nat): (c: char)
    requires d < 10
    ensures '0' <= c <= '9'
  {
    ('0' as int + d) as char
  }

  predicate IsDigits(s: string)
  {
    forall k :: 0 <= k < |s| ==> '0' <= s[k] <= '9'
  }

  /** The decimal digits of `n`, most significant first, as `str(n)` renders them. */
  function NatToDecimal(n: nat): (s: string)
    ensures |s| >= 1 && IsDigits(s)
    ensures s[0] == '0' ==> s == "0"
    decreases n
  {
    if n < 10 then [DigitChar(n)] else NatToDecimal(n / 10) + [DigitChar(n % 10)]
  }

  /**
   * `str(i)` for a Python int: a minus sign before the digits of a negative
   * number. The rendering parses back to `i`.
   */
  function IntToDecimal(i: int): (r: string)
    ensures IsIntLiteral(r) && (r[0] == '-' <==> i < 0)
    ensures (if i < 0 then r[1..] else r)[0] == '0' ==> r == "0"
    ensures ParseInt(r) == i
  {
    if i < 0 then
      NatDecimalRoundTrip(-i);
      var r := "-" + NatToDecimal(-i);
      assert r[1..] == NatToDecimal(-i);
      r
    else
      NatDecimalRoundTrip(i);
      NatToDecimal(i)
  }

  /** The value of a string of decimal digits. */
  function DecimalValue(s: string): nat
    requires IsDigits(s)
  {
    if s == [] then 0 else 10 * DecimalValue(s[..|s| - 1]) + (s[|s| - 1] as int - '0' as int)
  }

  /** An optional minus sign followed by at least one decimal digit. */
  predicate IsIntLiteral(s: string)
  {
    |s| >= 1 && IsDigits(if s[0] == '-' then s[1..] else s) && (s[0] == '-' ==> |s| >= 2)
  }

  /** `int(s)` for the strings `IntToDecimal` produces. */
  function ParseInt(s: string): int
    requires IsIntLiteral(s)
  {
    if s[0] == '-' then 0 - DecimalValue(s[1..]) else DecimalValue(s)
  }

  lemma {:induction false} NatDecimalRoundTrip(n: nat)
    ensures DecimalValue(NatToDecimal(n)) == n
    decreases n
  {
    if n >= 10 {
      NatDecimalRoundTrip(n / 10);
      var s := NatToDecimal(n);
      assert s[..|s| - 1] == NatToDecimal(n / 10);
    }
  }

  /** A rendered int holds nothing but a minus sign and digits. */
  lemma DecimalAvoids(i: int, d: char)
    requires d != '-' && !('0' <= d <= '9')
    ensures d !in IntToDecimal(i)
  {
    var digits := NatToDecimal(if i < 0 then -i else i);
    assert d !in digits;
  }
}
