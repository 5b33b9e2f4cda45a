/**
 * The few string operations the Sunrise UDP client relies on, as Python
 * performs them: str() of an integer, int() of a string, str.split(';')
 * and ';'.join(...).
 */
module Text {
  import opened Wrappers

  /** The field separator of the Sunrise external-control messages. */
  const Separator: char := ';'

  predicate IsDigit(c: char) {
    '0' <= c <= '9'
  }

  predicate AllDigits(s: string) {
    forall i :: 0 <= i < |s| ==> IsDigit(s[i])
  }

  function DigitChar(d: nat): (c: char)
    requires d < 10
    ensures IsDigit(c)
  {
    ('0' as int + d) as char
  }

  function DigitValue(c: char): (d: nat)
    requires IsDigit(c)
    ensures d < 10
  {
    c as int - '0' as int
  }

  /** Decimal digits of `n` without leading zeros, as Python's str() writes a non-negative int. */
  function NatToString(n: nat): (s: string)
    ensures |s| >= 1 && AllDigits(s)
    ensures n >= 10 ==> s[0] != '0'
  {
    if n < 10 then [DigitChar(n)] else NatToString(n / 10) + [DigitChar(n % 10)]
  }

  /** Python's str() of an int: a minus sign in front of the digits of a negative number. */
  function IntToString(n: int): (s: string)
    ensures Separator !in s
    ensures |s| >= 1
  {
    if n < 0 then "-" + NatToString(-n) else NatToString(n)
  }

  /** The value of a string of decimal digits, most significant first. */
  function DigitsValue(s: string): nat
    requires AllDigits(s)
  {
    if |s| == 0 then 0 else DigitsValue(s[..|s| - 1]) * 10 + DigitValue(s[|s| - 1])
  }

  /**
   * Python's int() of a str, for the forms this protocol produces: an
   * optional sign followed by one or more ASCII digits. Anything else is
   * what int() rejects with ValueError, here `None`.
   */
  function ParseInt(s: string): (r: Option<int>)
    ensures r.Some? ==> |s| >= 1 && (IsDigit(s[0]) || s[0] == '-' || s[0] == '+')
    ensures r.Some? ==> forall i :: 1 <= i < |s| ==> IsDigit(s[i])
    ensures r.Some? && r.value < 0 ==> s[0] == '-'
    ensures |s| >= 1 && AllDigits(s) ==> r.Some?
  {
    if |s| >= 2 && s[0] == '-' && AllDigits(s[1..]) then Some(0 - DigitsValue(s[1..]))
    else if |s| >= 2 && s[0] == '+' && AllDigits(s[1..]) then Some(DigitsValue(s[1..]))
    else if |s| >= 1 && AllDigits(s) then Some(DigitsValue(s))
    else None
  }

  /** Python's str.split(';'): every separator ends a field, so there is always at least one. */
  function Split(s: string): (fields: seq<string>)
    ensures |fields| >= 1
    ensures forall i :: 0 <= i < |fields| ==> Separator !in fields[i]
  {
    if |s| == 0 then [""]
    else
      var rest := Split(s[1..]);
      if s[0] == Separator then [""] + rest
      else [[s[0]] + rest[0]] + rest[1..]
  }

  /** Python's ';'.join(fields): the first field comes first, and a separator follows it when there are more. */
  function Join(fields: seq<string>): (s: string)
    ensures |fields| >= 1 ==> fields[0] <= s
    ensures |fields| >= 2 ==> |fields[0]| < |s| && s[|fields[0]|] == Separator
  {
    if |fields| == 0 then ""
    else if |fields| == 1 then fields[0]
    else fields[0] + [Separator] + Join(fields[1..])
  }

  predicate NoSeparator(fields: seq<string>) {
    forall i :: 0 <= i < |fields| ==> Separator !in fields[i]
  }

  lemma {:induction false} NatToStringValue(n: nat)
    ensures DigitsValue(NatToString(n)) == n
    decreases n
  {
    if n >= 10 {
      var s := NatToString(n);
      assert s[..|s| - 1] == NatToString(n / 10);
      NatToStringValue(n / 10);
    }
  }

  /** Reading back what str() wrote gives the same integer. */
  lemma IntToStringRoundTrip(n: int)
    ensures ParseInt(IntToString(n)) == Some(n)
  {
    var s := IntToString(n);
    if n < 0 {
      var digits := NatToString(-n);
      assert s[0] == '-' && s[1..] == digits;
      NatToStringValue(-n);
      assert ParseInt(s) == Some(0 - DigitsValue(digits));
    } else {
      NatToStringValue(n);
      assert IsDigit(s[0]);
      assert ParseInt(s) == Some(DigitsValue(s));
    }
  }

  /** Distinct integers have distinct str() forms. */
  lemma IntToStringInjective(m: int, n: int)
    requires IntToString(m) == IntToString(n)
    ensures m == n
  {
    IntToStringRoundTrip(m);
    IntToStringRoundTrip(n);
  }

  lemma {:induction false} SplitSingleField(f: string)
    requires Separator !in f
    ensures Split(f) == [f]
    decreases |f|
  {
    if |f| > 0 {
      SplitSingleField(f[1..]);
      assert [f[0]] + f[1..] == f;
    }
  }

  lemma {:induction false} SplitLeadingField(f: string, rest: string)
    requires Separator !in f
    ensures Split(f + [Separator] + rest) == [f] + Split(rest)
    decreases |f|
  {
    var s := f + [Separator] + rest;
    if |f| == 0 {
      assert s[1..] == rest;
    } else {
      assert s[1..] == f[1..] + [Separator] + rest;
      SplitLeadingField(f[1..], rest);
      assert [f[0]] + f[1..] == f;
    }
  }

  /** Splitting a joined line gives its fields back, provided none of them contains the separator. */
  lemma {:induction false} SplitJoin(fields: seq<string>)
    requires |fields| >= 1 && NoSeparator(fields)
    ensures Split(Join(fields)) == fields
    decreases |fields|
  {
    if |fields| == 1 {
      SplitSingleField(fields[0]);
    } else {
      SplitLeadingField(fields[0], Join(fields[1..]));
      SplitJoin(fields[1..]);
    }
  }

  /** A line that continues after some separator-free fields splits into those fields and then its remainder. */
  lemma {:induction false} SplitJoinAppend(fields: seq<string>, rest: string)
    requires |fields| >= 1 && NoSeparator(fields)
    ensures Split(Join(fields) + [Separator] + rest) == fields + Split(rest)
    decreases |fields|
  {
    if |fields| == 1 {
      SplitLeadingField(fields[0], rest);
    } else {
      var tail := Join(fields[1..]);
      assert Join(fields) + [Separator] + rest == fields[0] + [Separator] + (tail + [Separator] + rest);
      SplitLeadingField(fields[0], tail + [Separator] + rest);
      SplitJoinAppend(fields[1..], rest);
      assert fields == [fields[0]] + fields[1..];
    }
  }

  /** Joining the fields of any line gives the line back. */
  lemma {:induction false} JoinSplit(s: string)
    ensures Join(Split(s)) == s
    decreases |s|
  {
    if |s| > 0 {
      JoinSplit(s[1..]);
      var rest := Split(s[1..]);
      if s[0] != Separator && |rest| > 1 {
        assert Join(rest) == rest[0] + [Separator] + Join(rest[1..]);
      }
    }
  }
}
