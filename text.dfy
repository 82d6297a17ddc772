/** Text operations the relay relies on: Python's str() of an integer, str.startswith and str.split. */
module Text {

  predicate IsDigit(c: char) {
    '0' <= c <= '9'
  }

  predicate AllDigits(s: string) {
    forall i :: 0 <= i < |s| ==> IsDigit(s[i])
  }

  function DigitChar(d: nat): (c: char)
    requires d < 10
    ensures IsDigit(c)
  {
    ('0' as int + d) as char
  }

  function DigitValue(c: char): (d: nat)
    requires IsDigit(c)
    ensures d < 10
  {
    c as int - '0' as int
  }

  /** str(n) for n >= 0: the shortest decimal numeral of n. */
  function NatString(n: nat): (s: string)
    ensures |s| >= 1 && (|s| == 1 <==> n < 10)
    ensures AllDigits(s)
    ensures n > 0 ==> s[0] != '0'
  {
    if n < 10 then [DigitChar(n)] else NatString(n / 10) + [DigitChar(n % 10)]
  }

  /** The number a string of decimal digits denotes (the inverse of NatString). */
  function NumeralValue(s: string): nat
    requires AllDigits(s)
  {
    if |s| == 0 then 0 else NumeralValue(s[..|s| - 1]) * 10 + DigitValue(s[|s| - 1])
  }

  lemma {:induction false} NatStringRoundTrip(n: nat)
    ensures NumeralValue(NatString(n)) == n
  {
    if n >= 10 {
      var s := NatString(n);
      assert s[..|s| - 1] == NatString(n / 10);
      NatStringRoundTrip(n / 10);
    }
  }

  lemma NatStringInjective(a: nat, b: nat)
    ensures NatString(a) == NatString(b) <==> a == b
  {
    if NatString(a) == NatString(b) {
      NatStringRoundTrip(a);
      NatStringRoundTrip(b);
    }
  }

  /** str(i) for any integer: a minus sign before the numeral of |i| when i is negative. */
  function IntString(i: int): (s: string)
    ensures |s| >= 1
    ensures s[0] == '-' <==> i < 0
    ensures i >= 0 ==> AllDigits(s)
  {
    if i < 0 then "-" + NatString(-i) else NatString(i)
  }

  /** Distinct integers have distinct str() forms, so the str() of an id is as good a key as the id. */
  lemma IntStringInjective(a: int, b: int)
    ensures IntString(a) == IntString(b) <==> a == b
  {
    if IntString(a) == IntString(b) {
      if a < 0 && b < 0 {
        assert NatString(-a) == IntString(a)[1..];
        assert NatString(-b) == IntString(b)[1..];
        NatStringInjective(-a, -b);
      } else if a >= 0 && b >= 0 {
        NatStringInjective(a, b);
      }
    }
  }

  /** str.startswith. */
  predicate StartsWith(s: string, prefix: string) {
    prefix <= s
  }

  /** str.split(sep) for a one-character separator: the pieces between separators, at least one. */
  function Split(s: string, sep: char): (parts: seq<string>)
    ensures |parts| >= 1
    ensures forall i :: 0 <= i < |parts| ==> sep !in parts[i]
  {
    if |s| == 0 then [""]
    else
      var rest := Split(s[1..], sep);
      if s[0] == sep then [""] + rest else [[s[0]] + rest[0]] + rest[1..]
  }

  /** sep.join(parts). */
  function Join(parts: seq<string>, sep: char): string
    requires |parts| >= 1
  {
    if |parts| == 1 then parts[0] else parts[0] + [sep] + Join(parts[1..], sep)
  }

  lemma {:induction false} JoinSplit(s: string, sep: char)
    ensures Join(Split(s, sep), sep) == s
  {
    if |s| > 0 {
      var rest := Split(s[1..], sep);
      JoinSplit(s[1..], sep);
      if s[0] == sep {
        assert Split(s, sep)[1..] == rest;
      } else {
        var parts := Split(s, sep);
        assert parts[1..] == rest[1..];
        if |rest| > 1 {
          assert Join(rest, sep) == rest[0] + [sep] + Join(rest[1..], sep);
        }
      }
    }
  }

  lemma {:induction false} JoinAppend(a: seq<string>, b: seq<string>, sep: char)
    requires |a| >= 1 && |b| >= 1
    ensures Join(a + b, sep) == Join(a, sep) + [sep] + Join(b, sep)
  {
    if |a| > 1 {
      assert (a + b)[1..] == a[1..] + b;
      JoinAppend(a[1..], b, sep);
    }
  }

  /** Splitting what was joined gives the pieces back, provided no piece holds the separator. */
  lemma {:induction false} SplitJoin(parts: seq<string>, sep: char)
    requires |parts| >= 1
    requires forall i :: 0 <= i < |parts| ==> sep !in parts[i]
    ensures Split(Join(parts, sep), sep) == parts
  {
    if |parts| == 1 {
      SplitPiece(parts[0], sep);
    } else {
      SplitJoin(parts[1..], sep);
      SplitAfterPiece(parts[0], Join(parts[1..], sep), sep);
    }
  }

  lemma {:induction false} SplitPiece(x: string, sep: char)
    requires sep !in x
    ensures Split(x, sep) == [x]
  {
    if |x| > 0 {
      assert x[0] != sep && x == [x[0]] + x[1..];
      SplitPiece(x[1..], sep);
    }
  }

  /** A sep-free piece followed by sep and the rest splits into that piece and the rest's pieces. */
  lemma {:induction false} SplitAfterPiece(x: string, rest: string, sep: char)
    requires sep !in x
    ensures Split(x + [sep] + rest, sep) == [x] + Split(rest, sep)
  {
    if |x| == 0 {
      assert x + [sep] + rest == [sep] + rest;
      assert ([sep] + rest)[1..] == rest;
    } else {
      var s := x + [sep] + rest;
      assert s[0] == x[0] && x[0] != sep;
      assert s[1..] == x[1..] + [sep] + rest;
      SplitAfterPiece(x[1..], rest, sep);
      assert [s[0]] + x[1..] == x;
    }
  }

  /** Splitting at a separator occurrence splits the two sides independently. */
  lemma SplitConcat(a: string, b: string, sep: char)
    ensures Split(a + [sep] + b, sep) == Split(a, sep) + Split(b, sep)
  {
    var pa, pb := Split(a, sep), Split(b, sep);
    var parts := pa + pb;
    JoinSplit(a, sep);
    JoinSplit(b, sep);
    JoinAppend(pa, pb, sep);
    forall i | 0 <= i < |parts| ensures sep !in parts[i] {
      if i < |pa| { assert parts[i] == pa[i]; } else { assert parts[i] == pb[i - |pa|]; }
    }
    SplitJoin(parts, sep);
  }

  predicate EndsWith(s: string, suffix: string) {
    |suffix| <= |s| && s[|s| - |suffix|..] == suffix
  }

  /** split returns more than one piece exactly when the separator occurs. */
  lemma SplitMany(s: string, sep: char)
    ensures |Split(s, sep)| >= 2 <==> sep in s
  {
    JoinSplit(s, sep);
    if sep !in s {
      SplitPiece(s, sep);
    }
  }
}
