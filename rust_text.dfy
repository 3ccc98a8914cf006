/**
  The pieces of Rust's standard library that the time-of-day codec relies on:
  - the `Display` rendering of an `i32` (`format!("{}", n)`),
  - `i32::from_str`, which accepts an optional `+` or `-` followed by one or more
    ASCII digits and rejects anything else, including a value outside the i32 range,
  - `str::split` on a one-character separator, which always yields at least one
    field (the empty string splits into one empty field).
 */
module RustText {
  import opened Wrappers

  const I32_MIN: int := -0x8000_0000
  const I32_MAX: int := 0x7fff_ffff

  /** The values of Rust's `i32`. */
  type Int32 = x: int | I32_MIN <= x <= I32_MAX

  predicate IsDigit(c: char) {
    '0' <= c <= '9'
  }

  predicate AllDigits(s: string) {
    forall i :: 0 <= i < |s| ==> IsDigit(s[i])
  }

  function DigitChar(d: nat): (c: char)
    requires d < 10
    ensures IsDigit(c) && c as int - '0' as int == d
  {
    ('0' as int + d) as char
  }

  /** Decimal digits of `n`, most significant first, without leading zeros. */
  function FormatNat(n: nat): (s: string)
    ensures |s| > 0 && AllDigits(s)
    ensures n < 10 <==> |s| == 1
    decreases n
  {
    if n < 10 then [DigitChar(n)] else FormatNat(n / 10) + [DigitChar(n % 10)]
  }

  /** `format!("{}", n)` for an integer: a `-` sign for negative values, no padding. */
  function FormatInt(n: int): (s: string)
    ensures |s| > 0
    ensures n >= 0 ==> AllDigits(s)
    ensures n < 0 ==> s[0] == '-' && |s| >= 2 && AllDigits(s[1..])
    ensures ':' !in s
  {
    if n < 0 then "-" + FormatNat(-n) else FormatNat(n)
  }

  /** The number that a string of decimal digits denotes. */
  function DigitsValue(s: string): nat
    requires AllDigits(s)
  {
    if |s| == 0 then 0
    else DigitsValue(s[..|s| - 1]) * 10 + (s[|s| - 1] as int - '0' as int)
  }

  /** `i32::from_str(s).ok()`. */
  function ParseI32(s: string): (r: Option<Int32>)
    ensures r.Some? ==> |s| > 0
    ensures r.Some? ==> if s[0] == '-' || s[0] == '+' then |s| > 1 && AllDigits(s[1..]) else AllDigits(s)
    ensures r.Some? && AllDigits(s) ==> r.value == DigitsValue(s)
    ensures |s| > 0 && AllDigits(s) ==>
      r == if DigitsValue(s) <= I32_MAX then Some(DigitsValue(s)) else None
    ensures |s| > 1 && s[0] == '+' && AllDigits(s[1..]) ==>
      r == if DigitsValue(s[1..]) <= I32_MAX then Some(DigitsValue(s[1..])) else None
    ensures |s| > 1 && s[0] == '-' && AllDigits(s[1..]) ==>
      r == if DigitsValue(s[1..]) <= -I32_MIN then Some(-(DigitsValue(s[1..]) as int)) else None
  {
    if |s| == 0 then None
    else
      var negative := s[0] == '-';
      var digits := if s[0] == '-' || s[0] == '+' then s[1..] else s;
      if |digits| == 0 || !AllDigits(digits) then None
      else
        var v: int := if negative then -(DigitsValue(digits) as int) else DigitsValue(digits);
        if I32_MIN <= v <= I32_MAX then Some(v) else None
  }

  lemma {:induction false} DigitsValueOfFormatNat(n: nat)
    ensures DigitsValue(FormatNat(n)) == n
    decreases n
  {
    if n >= 10 {
      var s := FormatNat(n);
      assert s == FormatNat(n / 10) + [DigitChar(n % 10)];
      assert s[..|s| - 1] == FormatNat(n / 10);
      DigitsValueOfFormatNat(n / 10);
    }
  }

  /** Parsing what `Display` printed gives back the same `i32`. */
  lemma ParseFormatRoundTrip(n: Int32)
    ensures ParseI32(FormatInt(n)) == Some(n)
  {
    var s := FormatInt(n);
    if n < 0 {
      var m: nat := -(n as int);
      DigitsValueOfFormatNat(m);
      assert s == "-" + FormatNat(m);
      assert s[0] == '-' && s[1..] == FormatNat(m);
    } else {
      DigitsValueOfFormatNat(n);
      assert s == FormatNat(n);
      assert IsDigit(s[0]);
    }
  }

  /** Number of occurrences of `sep` in `s`. */
  function Count(s: string, sep: char): (k: nat)
    ensures k <= |s|
    ensures k == 0 <==> sep !in s
  {
    if |s| == 0 then 0
    else (if s[0] == sep then 1 else 0) + Count(s[1..], sep)
  }

  /** `s.split(sep).collect::<Vec<&str>>()`. */
  function Split(s: string, sep: char): (fields: seq<string>)
    ensures |fields| == Count(s, sep) + 1
    ensures forall i :: 0 <= i < |fields| ==> sep !in fields[i]
  {
    if |s| == 0 then [""]
    else if s[0] == sep then [""] + Split(s[1..], sep)
    else
      var rest := Split(s[1..], sep);
      [[s[0]] + rest[0]] + rest[1..]
  }

  /** Joining the fields back with `sep` restores `s`: splitting loses nothing. */
  function Join(fields: seq<string>, sep: char): string
    requires |fields| > 0
  {
    if |fields| == 1 then fields[0] else fields[0] + [sep] + Join(fields[1..], sep)
  }

  lemma {:induction false} JoinSplit(s: string, sep: char)
    ensures Join(Split(s, sep), sep) == s
  {
    if |s| > 0 {
      JoinSplit(s[1..], sep);
      var rest := Split(s[1..], sep);
      if s[0] == sep {
        assert ([""] + rest)[1..] == rest;
      } else {
        var fields := [[s[0]] + rest[0]] + rest[1..];
        if |rest| > 1 {
          assert fields[1..] == rest[1..];
          assert Join(rest, sep) == rest[0] + [sep] + Join(rest[1..], sep);
        }
      }
    }
  }

  /** Splitting `a`, the separator and `b`, when `a` holds no separator, gives `a` followed by the fields of `b`. */
  lemma {:induction false} SplitAfterField(a: string, b: string, sep: char)
    requires sep !in a
    ensures Split(a + [sep] + b, sep) == [a] + Split(b, sep)
  {
    if |a| == 0 {
      assert ([] + [sep] + b)[1..] == b;
    } else {
      var s := a + [sep] + b;
      assert s[1..] == a[1..] + [sep] + b;
      SplitAfterField(a[1..], b, sep);
      assert [a[0]] + a[1..] == a;
    }
  }

  /** A string with no separator is a single field. */
  lemma {:induction false} SplitNoSeparator(a: string, sep: char)
    requires sep !in a
    ensures Split(a, sep) == [a]
  {
    if |a| > 0 {
      SplitNoSeparator(a[1..], sep);
      assert [a[0]] + a[1..] == a;
    }
  }
}
