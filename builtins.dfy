/**
 * The Python built-ins that server/util.py leans on, over Dafny strings:
 * `str.lower`, `str.startswith`, `str.split`, `int(str)` and `list.index`.
 * Each raises where Python raises; the exception is a `Failure`.
 */
module Builtins {
  import opened Wrappers

  /** The exceptions the built-ins below can raise. */
  datatype BuiltinError = ValueError | IndexError

  // ---------------------------------------------------------------- str.lower

  predicate IsUpper(c: char) { 'A' <= c <= 'Z' }

  /** ASCII case folding of one character. */
  function LowerChar(c: char): (r: char)
    ensures !IsUpper(r)
    ensures IsUpper(c) ==> r as int == c as int + 32
    ensures !IsUpper(c) ==> r == c
  {
    if IsUpper(c) then (c as int + 32) as char else c
  }

  /** `s.lower()`, restricted to ASCII letters. */
  function Lower(s: string): (r: string)
    ensures |r| == |s|
  {
    if s == [] then [] else [LowerChar(s[0])] + Lower(s[1..])
  }

  /** Each character of `s.lower()` is the case-folded character of `s` at the same position. */
  lemma {:induction false} LowerAt(s: string)
    ensures forall i :: 0 <= i < |s| ==> Lower(s)[i] == LowerChar(s[i])
  {
    if s != [] {
      LowerAt(s[1..]);
    }
  }

  /**
   * `a` and `b` spell the same word up to the case of ASCII letters,
   * character by character: that is what "case-insensitive" means here.
   */
  predicate SameIgnoringCase(a: string, b: string)
  {
    |a| == |b| &&
    forall i :: 0 <= i < |a| ==>
      a[i] == b[i] ||
      (IsUpper(a[i]) && b[i] as int == a[i] as int + 32) ||
      (IsUpper(b[i]) && a[i] as int == b[i] as int + 32)
  }

  /** Two spellings differing only in case lower-case to the same string, and conversely. */
  lemma SameIgnoringCaseIffSameLower(a: string, b: string)
    ensures SameIgnoringCase(a, b) <==> Lower(a) == Lower(b)
  {
    LowerAt(a);
    LowerAt(b);
    if SameIgnoringCase(a, b) {
      forall i | 0 <= i < |a| ensures Lower(a)[i] == Lower(b)[i] {
        // one of the three cases of SameIgnoringCase, each folding to one character
      }
    }
    if Lower(a) == Lower(b) {
      forall i | 0 <= i < |a| ensures
        a[i] == b[i] ||
        (IsUpper(a[i]) && b[i] as int == a[i] as int + 32) ||
        (IsUpper(b[i]) && a[i] as int == b[i] as int + 32)
      {
        assert LowerChar(a[i]) == Lower(a)[i] == Lower(b)[i] == LowerChar(b[i]);
      }
    }
  }

  // ----------------------------------------------------------- str.startswith

  /** `s.startswith(prefix)`. */
  predicate StartsWith(s: string, prefix: string): (b: bool)
    ensures b <==> |prefix| <= |s| && forall i :: 0 <= i < |prefix| ==> s[i] == prefix[i]
  {
    |prefix| <= |s| && s[..|prefix|] == prefix
  }

  // ---------------------------------------------------------------- list.index

  /**
   * `xs.index(x)`: the position of the first occurrence of `x`, or
   * `ValueError` when `x` does not occur.
   */
  function ListIndex<T(==)>(xs: seq<T>, x: T): (r: Result<nat, BuiltinError>)
    ensures r.Success? ==> r.value < |xs| && xs[r.value] == x
    ensures r.Success? ==> forall j :: 0 <= j < r.value ==> xs[j] != x
    ensures r.Failure? ==> x !in xs && r.error == ValueError
  {
    if xs == [] then Failure(ValueError)
    else if xs[0] == x then Success(0)
    else match ListIndex(xs[1..], x)
      case Success(i) => Success(i + 1)
      case Failure(e) => Failure(e)
  }

  /** `xs.index(x)` succeeds exactly when `x` occurs, and then names the first occurrence. */
  lemma ListIndexFirst<T>(xs: seq<T>, x: T, i: nat)
    requires i < |xs| && xs[i] == x
    requires forall j :: 0 <= j < i ==> xs[j] != x
    ensures ListIndex(xs, x) == Success(i)
  {
  }

  // ----------------------------------------------------------------- str.split

  /** `s.split(sep)` for a one-character separator: every separator starts a new part. */
  function Split(s: string, sep: char): (parts: seq<string>)
    ensures |parts| >= 1
    ensures forall k :: 0 <= k < |parts| ==> sep !in parts[k]
  {
    if s == [] then [""]
    else if s[0] == sep then [""] + Split(s[1..], sep)
    else
      var rest := Split(s[1..], sep);
      [[s[0]] + rest[0]] + rest[1..]
  }

  /** `sep.join(parts)`. */
  function Join(parts: seq<string>, sep: char): string
    requires |parts| >= 1
  {
    if |parts| == 1 then parts[0] else parts[0] + [sep] + Join(parts[1..], sep)
  }

  /** Joining the parts back with the separator gives the original string. */
  lemma {:induction false} JoinSplit(s: string, sep: char)
    ensures Join(Split(s, sep), sep) == s
  {
    if s == [] {
    } else if s[0] == sep {
      JoinSplit(s[1..], sep);
      assert Split(s, sep)[1..] == Split(s[1..], sep);
    } else {
      JoinSplit(s[1..], sep);
      var rest := Split(s[1..], sep);
      if |rest| > 1 {
        assert Split(s, sep)[1..] == rest[1..];
      }
    }
  }

  /** `s.split(sep)` has more than one part exactly when `sep` occurs in `s`. */
  lemma SplitSeveralIffSeparator(s: string, sep: char)
    ensures |Split(s, sep)| >= 2 <==> sep in s
  {
    var parts := Split(s, sep);
    JoinSplit(s, sep);
    if |parts| >= 2 {
      assert Join(parts, sep)[|parts[0]|] == sep;
    }
  }

  /** A separator-free head splits off as the first part. */
  lemma {:induction false} SplitHead(a: string, sep: char, b: string)
    requires sep !in a
    ensures Split(a + [sep] + b, sep) == [a] + Split(b, sep)
  {
    if a == [] {
      assert a + [sep] + b == [sep] + b;
      assert ([sep] + b)[1..] == b;
    } else {
      SplitHead(a[1..], sep, b);
      assert (a + [sep] + b)[1..] == a[1..] + [sep] + b;
      assert [a[0]] + a[1..] == a;
    }
  }

  /** A separator-free string is a single part. */
  lemma {:induction false} SplitNoSeparator(a: string, sep: char)
    requires sep !in a
    ensures Split(a, sep) == [a]
  {
    if a != [] {
      SplitNoSeparator(a[1..], sep);
      assert [a[0]] + a[1..] == a;
    }
  }

  // ---------------------------------------------------------------- int(str)

  predicate IsDigit(c: char) { '0' <= c <= '9' }

  predicate AllDigits(s: string) { forall i :: 0 <= i < |s| ==> IsDigit(s[i]) }

  /** The value of a string of decimal digits, most significant first. */
  function DigitsValue(s: string): (n: nat)
    requires AllDigits(s)
  {
    if s == [] then 0 else DigitsValue(s[..|s| - 1]) * 10 + (s[|s| - 1] as int - '0' as int)
  }

  /**
   * `int(s)` for a base-10 literal: an optional sign then at least one digit;
   * anything else raises `ValueError`.
   */
  function ParseInt(s: string): (r: Result<int, BuiltinError>)
    ensures r.Failure? ==> r.error == ValueError
    ensures r.Success? <==>
      (s != [] && AllDigits(s)) ||
      (|s| > 1 && (s[0] == '-' || s[0] == '+') && AllDigits(s[1..]))
    ensures s != [] && AllDigits(s) ==> r == Success(DigitsValue(s))
    ensures |s| > 1 && s[0] == '+' && AllDigits(s[1..]) ==> r == Success(DigitsValue(s[1..]))
    ensures |s| > 1 && s[0] == '-' && AllDigits(s[1..]) ==> r == Success(0 - DigitsValue(s[1..]) as int)
  {
    var neg := s != [] && s[0] == '-';
    var digits := if s != [] && (s[0] == '-' || s[0] == '+') then s[1..] else s;
    if digits == [] || !AllDigits(digits) then Failure(ValueError)
    else
      var magnitude: int := DigitsValue(digits);
      Success(if neg then -magnitude else magnitude)
  }

  /** The decimal spelling of a natural number, as `str(n)` writes it. */
  function NatToString(n: nat): (s: string)
    ensures s != [] && AllDigits(s)
    ensures '.' !in s
  {
    var last := ['0' + (n % 10) as char];
    if n < 10 then last else NatToString(n / 10) + last
  }

  /** `int(str(n)) == n` for every natural number. */
  lemma {:induction false} ParseNatToString(n: nat)
    ensures ParseInt(NatToString(n)) == Success(n)
  {
    DigitsOfNatToString(n);
  }

  lemma {:induction false} DigitsOfNatToString(n: nat)
    ensures DigitsValue(NatToString(n)) == n
  {
    var s := NatToString(n);
    if n >= 10 {
      DigitsOfNatToString(n / 10);
      assert s[..|s| - 1] == NatToString(n / 10);
    }
  }
}
