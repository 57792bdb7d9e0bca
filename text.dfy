/**
 * The Python string operations the pipeline relies on: `str.strip()`,
 * `sep.join(parts)`, `str.split(sep)` and the decimal rendering of a number
 * inside an f-string.
 */
module Text {

  /** The code points for which Python's `str.isspace()` holds: the characters `str.strip()` removes. */
  const Whitespace: set<int> :=
    {0x09, 0x0a, 0x0b, 0x0c, 0x0d, 0x1c, 0x1d, 0x1e, 0x1f, 0x20, 0x85, 0xa0, 0x1680,
     0x2000, 0x2001, 0x2002, 0x2003, 0x2004, 0x2005, 0x2006, 0x2007, 0x2008, 0x2009, 0x200a,
     0x2028, 0x2029, 0x202f, 0x205f, 0x3000}

  predicate IsSpace(c: char) {
    c as int in Whitespace
  }

  predicate AllSpace(s: string) {
    forall i :: 0 <= i < |s| ==> IsSpace(s[i])
  }

  /** Neither starts nor ends with whitespace. */
  predicate Trimmed(s: string) {
    s == [] || (!IsSpace(s[0]) && !IsSpace(s[|s| - 1]))
  }

  /** The index of the first non-whitespace character of `s` at or after `i`, or `|s|`. */
  function SkipSpace(s: string, i: nat): (j: nat)
    requires i <= |s|
    ensures i <= j <= |s|
    ensures forall k :: i <= k < j ==> IsSpace(s[k])
    ensures j == |s| || !IsSpace(s[j])
    decreases |s| - i
  {
    if i == |s| || !IsSpace(s[i]) then i else SkipSpace(s, i + 1)
  }

  /** The index just after the last non-whitespace character of `s[lo..j]`, or `lo`. */
  function SkipSpaceBack(s: string, lo: nat, j: nat): (k: nat)
    requires lo <= j <= |s|
    ensures lo <= k <= j
    ensures forall m :: k <= m < j ==> IsSpace(s[m])
    ensures k == lo || !IsSpace(s[k - 1])
    decreases j - lo
  {
    if j == lo || !IsSpace(s[j - 1]) then j else SkipSpaceBack(s, lo, j - 1)
  }

  /** The length of the leading whitespace of `s`: where `strip()` starts. */
  function LeadingSpace(s: string): nat {
    SkipSpace(s, 0)
  }

  /** Where `strip()` ends: just after the last non-whitespace character. */
  function StripEnd(s: string): nat {
    SkipSpaceBack(s, SkipSpace(s, 0), |s|)
  }

  /**
   * `s.strip()`: the infix of `s` between its leading and trailing whitespace;
   * it is empty exactly when `s` is all whitespace, and otherwise neither starts
   * nor ends with whitespace.
   */
  function Strip(s: string): (r: string)
    ensures |r| <= |s|
    ensures Trimmed(r)
    ensures r == [] <==> AllSpace(s)
  {
    StripShape(s);
    s[LeadingSpace(s)..StripEnd(s)]
  }

  lemma StripShape(s: string)
    ensures LeadingSpace(s) <= StripEnd(s) <= |s|
    ensures Trimmed(s[LeadingSpace(s)..StripEnd(s)])
    ensures LeadingSpace(s) == StripEnd(s) <==> AllSpace(s)
  {
    var i := LeadingSpace(s);
    var j := StripEnd(s);
    var r := s[i..j];
    if i < j {
      assert r[0] == s[i] && r[|r| - 1] == s[j - 1];
    } else {
      forall k | 0 <= k < |s|
        ensures IsSpace(s[k])
      {
      }
    }
  }

  /** What `strip()` removes is whitespace: the result is the infix of `s` between two whitespace runs. */
  lemma StripIsInfix(s: string)
    ensures LeadingSpace(s) + |Strip(s)| <= |s|
    ensures Strip(s) == s[LeadingSpace(s)..LeadingSpace(s) + |Strip(s)|]
    ensures forall k :: 0 <= k < LeadingSpace(s) ==> IsSpace(s[k])
    ensures forall k :: LeadingSpace(s) + |Strip(s)| <= k < |s| ==> IsSpace(s[k])
  {
    StripShape(s);
  }

  /**
   * When `s[i..j]` is non-empty, neither starts nor ends with whitespace, and
   * only whitespace lies outside it, `strip()` returns exactly `s[i..j]`.
   */
  lemma StripUnique(s: string, i: nat, j: nat)
    requires i < j <= |s|
    requires !IsSpace(s[i]) && !IsSpace(s[j - 1])
    requires forall k :: 0 <= k < i ==> IsSpace(s[k])
    requires forall k :: j <= k < |s| ==> IsSpace(s[k])
    ensures Strip(s) == s[i..j]
  {
    assert LeadingSpace(s) == i;
    assert StripEnd(s) == j;
  }

  /** Leading whitespace does not change what `strip()` returns. */
  lemma StripSkipsLeadingSpace(c: char, s: string)
    requires IsSpace(c)
    ensures Strip([c] + s) == Strip(s)
  {
    var t := [c] + s;
    if AllSpace(s) {
      assert AllSpace(t) by {
        forall k | 0 <= k < |t|
          ensures IsSpace(t[k])
        {
          if k > 0 {
            assert t[k] == s[k - 1];
          }
        }
      }
    } else {
      var i := LeadingSpace(s);
      var j := StripEnd(s);
      StripShape(s);
      assert !IsSpace(t[i + 1]) && !IsSpace(t[j]) by {
        assert t[i + 1] == s[i] && t[j] == s[j - 1];
      }
      assert forall k :: 0 <= k < i + 1 ==> IsSpace(t[k]) by {
        forall k | 0 <= k < i + 1
          ensures IsSpace(t[k])
        {
          if k > 0 {
            assert t[k] == s[k - 1];
          }
        }
      }
      assert forall k :: j + 1 <= k < |t| ==> IsSpace(t[k]) by {
        forall k | j + 1 <= k < |t|
          ensures IsSpace(t[k])
        {
          assert t[k] == s[k - 1];
        }
      }
      StripUnique(t, i + 1, j + 1);
      SliceAfterHead(c, s, i, j);
      assert Strip(s) == s[i..j];
    }
  }

  lemma SliceAfterHead(c: char, s: string, i: nat, j: nat)
    requires i <= j <= |s|
    ensures ([c] + s)[i + 1..j + 1] == s[i..j]
  {
    assert ([c] + s)[1..] == s;
  }

  /** A string that neither starts nor ends with whitespace is left alone by `strip()`. */
  lemma StripKeepsTrimmed(s: string)
    requires Trimmed(s)
    ensures Strip(s) == s
  {
    if s != [] {
      StripUnique(s, 0, |s|);
    }
  }

  /** `strip()` is idempotent. */
  lemma StripIdempotent(s: string)
    ensures Strip(Strip(s)) == Strip(s)
  {
    StripKeepsTrimmed(Strip(s));
  }

  /** A concatenation is all whitespace exactly when both parts are. */
  lemma AllSpaceConcat(a: string, b: string)
    ensures AllSpace(a + b) <==> AllSpace(a) && AllSpace(b)
  {
    if AllSpace(a + b) {
      forall i | 0 <= i < |a|
        ensures IsSpace(a[i])
      {
        assert a[i] == (a + b)[i];
      }
      forall i | 0 <= i < |b|
        ensures IsSpace(b[i])
      {
        assert b[i] == (a + b)[|a| + i];
      }
    }
    if AllSpace(a) && AllSpace(b) {
      forall i | 0 <= i < |a + b|
        ensures IsSpace((a + b)[i])
      {
        if i < |a| {
          assert (a + b)[i] == a[i];
        } else {
          assert (a + b)[i] == b[i - |a|];
        }
      }
    }
  }

  /** `sep.join(parts)`. */
  function Join(sep: string, parts: seq<string>): string {
    if |parts| == 0 then ""
    else if |parts| == 1 then parts[0]
    else parts[0] + sep + Join(sep, parts[1..])
  }

  /** `s.split(sep)` for a one-character separator: always at least one piece. */
  function Split(s: string, sep: char): (r: seq<string>)
    ensures |r| >= 1
  {
    if s == [] then [""]
    else if s[0] == sep then [""] + Split(s[1..], sep)
    else
      var rest := Split(s[1..], sep);
      [[s[0]] + rest[0]] + rest[1..]
  }

  /** A separator-free prefix sticks to the first piece of whatever follows it. */
  lemma {:induction false} SplitFreePrefix(a: string, t: string, sep: char)
    requires sep !in a
    ensures Split(a + t, sep) == [a + Split(t, sep)[0]] + Split(t, sep)[1..]
  {
    var p := Split(t, sep);
    if a == [] {
      assert a + t == t && a + p[0] == p[0];
      assert p == [p[0]] + p[1..];
    } else {
      assert (a + t)[0] == a[0] && (a + t)[1..] == a[1..] + t;
      SplitFreePrefix(a[1..], t, sep);
      var rest := Split(a[1..] + t, sep);
      assert rest[0] == a[1..] + p[0] && rest[1..] == p[1..];
      assert [a[0]] + (a[1..] + p[0]) == a + p[0];
    }
  }

  /** Joining lines that hold no separator and splitting again gives the lines back. */
  lemma {:induction false} SplitJoin(lines: seq<string>, sep: char)
    requires |lines| >= 1
    requires forall k :: 0 <= k < |lines| ==> sep !in lines[k]
    ensures Split(Join([sep], lines), sep) == lines
  {
    if |lines| == 1 {
      SplitFreePrefix(lines[0], "", sep);
      assert lines[0] + "" == lines[0];
    } else {
      var rest := Join([sep], lines[1..]);
      SplitJoin(lines[1..], sep);
      assert Join([sep], lines) == lines[0] + ([sep] + rest);
      SplitFreePrefix(lines[0], [sep] + rest, sep);
      assert ([sep] + rest)[1..] == rest;
      assert lines[0] + "" == lines[0];
      assert lines == [lines[0]] + lines[1..];
    }
  }

  predicate IsDigit(c: char) {
    '0' <= c <= '9'
  }

  predicate AllDigits(s: string) {
    forall i :: 0 <= i < |s| ==> IsDigit(s[i])
  }

  function DigitChar(d: nat): char
    requires d < 10
  {
    ('0' as int + d) as char
  }

  /** `f"{n}"` for a natural number: its decimal digits, without a leading zero. */
  function NatToString(n: nat): (r: string)
    ensures |r| >= 1 && AllDigits(r)
    ensures r[0] == '0' ==> n == 0
  {
    if n < 10 then [DigitChar(n)] else NatToString(n / 10) + [DigitChar(n % 10)]
  }

  /**
   * `int(s)` for a string of decimal digits. It is defined for every digit
   * string, giving 0 for the empty one; only non-empty ones are read back.
   */
  function ParseNat(s: string): nat
    requires AllDigits(s)
  {
    if s == [] then 0 else ParseNat(s[..|s| - 1]) * 10 + (s[|s| - 1] as int - '0' as int)
  }

  /** The decimal rendering reads back as the same number. */
  lemma {:induction false} ParseNatToString(n: nat)
    ensures ParseNat(NatToString(n)) == n
  {
    if n >= 10 {
      var r := NatToString(n);
      assert r[..|r| - 1] == NatToString(n / 10);
      ParseNatToString(n / 10);
    }
  }
}
