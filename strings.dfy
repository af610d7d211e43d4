/** The string operations the pipeline uses: ASCII `lower`, `endswith`,
    `split(c)[-1]`, `strip`, and `int()` on decimal text. */
module Strings {
  import opened Common

  predicate IsUpper(c: char) { 'A' <= c <= 'Z' }

  function LowerChar(c: char): char {
    if IsUpper(c) then (c as int + 32) as char else c
  }

  /** `s.lower()` restricted to ASCII letters. */
  function Lower(s: string): (r: string)
    ensures |r| == |s|
    ensures forall i :: 0 <= i < |r| ==> !IsUpper(r[i])
    ensures forall i :: 0 <= i < |s| ==> r[i] == LowerChar(s[i])
  {
    if s == [] then [] else [LowerChar(s[0])] + Lower(s[1..])
  }

  lemma {:induction false} LowerIdempotent(s: string)
    ensures Lower(Lower(s)) == Lower(s)
  {
    if s != [] {
      LowerIdempotent(s[1..]);
    }
  }

  predicate EndsWith(s: string, suffix: string) {
    |suffix| <= |s| && s[|s| - |suffix|..] == suffix
  }

  predicate StartsWith(s: string, prefix: string) {
    |prefix| <= |s| && s[..|prefix|] == prefix
  }

  /** `s.split(c)[-1]`: the text after the last `c`, or all of `s` when
      `c` does not occur. */
  function AfterLast(s: string, c: char): (r: string)
    ensures c !in r
    ensures EndsWith(s, r)
    ensures c !in s ==> r == s
    ensures c in s ==> |r| < |s| && s[|s| - |r| - 1] == c
  {
    if s == [] then []
    else if s[|s| - 1] == c then []
    else
      var init := s[..|s| - 1];
      assert s == init + [s[|s| - 1]];
      AfterLast(init, c) + [s[|s| - 1]]
  }

  lemma {:induction false} AfterLastOfJoin(a: string, c: char, b: string)
    requires c !in b
    ensures AfterLast(a + [c] + b, c) == b
  {
    if b == [] {
    } else {
      var b' := b[..|b| - 1];
      assert (a + [c] + b)[..|a + [c] + b| - 1] == a + [c] + b';
      AfterLastOfJoin(a, c, b');
      assert b == b' + [b[|b| - 1]];
    }
  }

  /** The characters Python's `str.isspace` accepts among ASCII:
      tab, line feed, vertical tab, form feed, carriage return,
      the four information separators 0x1C-0x1F, and space. */
  predicate IsSpace(c: char) {
    9 <= c as int <= 13 || 28 <= c as int <= 32
  }

  function StripLeft(s: string): string {
    if s != [] && IsSpace(s[0]) then StripLeft(s[1..]) else s
  }

  function StripRight(s: string): string {
    if s != [] && IsSpace(s[|s| - 1]) then StripRight(s[..|s| - 1]) else s
  }

  /** `s.strip()`. */
  function Strip(s: string): string {
    StripRight(StripLeft(s))
  }

  lemma {:induction false} StripLeftSpec(s: string)
    ensures EndsWith(s, StripLeft(s))
    ensures StripLeft(s) == [] || !IsSpace(StripLeft(s)[0])
    ensures forall i :: 0 <= i < |s| - |StripLeft(s)| ==> IsSpace(s[i])
  {
    if s != [] && IsSpace(s[0]) {
      var t := s[1..];
      StripLeftSpec(t);
      var r := StripLeft(t);
      assert StripLeft(s) == r;
      assert t[|t| - |r|..] == s[|s| - |r|..];
      assert forall i :: 1 <= i < |s| ==> s[i] == t[i - 1];
    }
  }

  lemma {:induction false} StripRightSpec(s: string)
    ensures StartsWith(s, StripRight(s))
    ensures StripRight(s) == [] || !IsSpace(StripRight(s)[|StripRight(s)| - 1])
    ensures forall i :: |StripRight(s)| <= i < |s| ==> IsSpace(s[i])
  {
    if s != [] && IsSpace(s[|s| - 1]) {
      var t := s[..|s| - 1];
      StripRightSpec(t);
      var r := StripRight(t);
      assert StripRight(s) == r;
      assert t[..|r|] == s[..|r|];
    }
  }

  /** The stripped text neither starts nor ends with white space, and it is
      empty exactly when the original is all white space. */
  lemma StripSpec(s: string)
    ensures var r := Strip(s);
            && (r == [] || (!IsSpace(r[0]) && !IsSpace(r[|r| - 1])))
            && (r == [] <==> forall i :: 0 <= i < |s| ==> IsSpace(s[i]))
  {
    var l := StripLeft(s);
    StripLeftSpec(s);
    StripRightSpec(l);
    var r := Strip(s);
    if r != [] {
      assert r[0] == l[0];
    }
  }

  predicate IsDigit(c: char) { '0' <= c <= '9' }

  predicate AllDigits(s: string) { forall i :: 0 <= i < |s| ==> IsDigit(s[i]) }

  /** The value of a run of decimal digits; leading zeros are allowed. */
  function DigitsValue(s: string): nat
    requires AllDigits(s)
  {
    if s == [] then 0
    else DigitsValue(s[..|s| - 1]) * 10 + (s[|s| - 1] as int - '0' as int)
  }

  /** An optional sign followed by one or more ASCII digits. */
  predicate IsIntText(s: string) {
    if s != [] && (s[0] == '-' || s[0] == '+') then |s| > 1 && AllDigits(s[1..])
    else s != [] && AllDigits(s)
  }

  /** Python `int(s)` on the inputs this model admits: an optional sign
      followed by one or more ASCII digits. Anything else raises
      `ValueError`, shown here as `None`. */
  function ParseInt(s: string): (r: Option<int>)
    ensures r.Some? <==> IsIntText(s)
    ensures s != [] && AllDigits(s) ==> r == Some(DigitsValue(s))
    ensures r.Some? && r.value < 0 ==> s[0] == '-'
    ensures IsIntText(s) && (s[0] == '-' || s[0] == '+') ==>
              r == Some(if s[0] == '-' then -(DigitsValue(s[1..]) as int) else DigitsValue(s[1..]))
  {
    if s != [] && (s[0] == '-' || s[0] == '+') then
      var d := s[1..];
      if d != [] && AllDigits(d) then
        var v: int := DigitsValue(d);
        Some(if s[0] == '-' then -v else v)
      else None
    else if s != [] && AllDigits(s) then Some(DigitsValue(s))
    else None
  }

  function DigitChar(d: nat): char
    requires d < 10
  {
    ('0' as int + d) as char
  }

  /** Python `str(n)` for a non-negative integer. */
  function Decimal(n: nat): (r: string)
    ensures r != [] && AllDigits(r)
  {
    if n < 10 then [DigitChar(n)] else Decimal(n / 10) + [DigitChar(n % 10)]
  }

  /** Python `str(n)`. */
  function IntToString(n: int): string {
    if n < 0 then "-" + Decimal(-n) else Decimal(n)
  }

  lemma {:induction false} DecimalValue(n: nat)
    ensures DigitsValue(Decimal(n)) == n
  {
    if n >= 10 {
      var s := Decimal(n);
      var init := Decimal(n / 10);
      assert s[..|s| - 1] == init;
      DecimalValue(n / 10);
    }
  }

  /** `int(str(n)) == n`. */
  lemma ParseIntRoundTrip(n: int)
    ensures ParseInt(IntToString(n)) == Some(n)
  {
    var s := IntToString(n);
    if n < 0 {
      var d := Decimal(-n);
      assert s == "-" + d && s[0] == '-' && s[1..] == d;
      DecimalValue(-n);
    } else {
      assert IsDigit(s[0]);
      DecimalValue(n);
    }
  }
}
