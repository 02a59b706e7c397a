/** The string operations the JavaScript code relies on: template-literal printing of
    integers, `parseInt`, `startsWith`, `includes` on strings and `toLowerCase`. */
module Text {
  import opened Wrappers

  predicate IsDigit(c: char) { '0' <= c <= '9' }

  function DigitValue(c: char): (d: nat)
    requires IsDigit(c)
    ensures d < 10
  {
    c as int - '0' as int
  }

  function DigitChar(d: nat): (c: char)
    requires d < 10
    ensures IsDigit(c) && DigitValue(c) == d
  {
    ('0' as int + d) as char
  }

  /** Decimal rendering of a natural number, as `${n}` prints it. */
  function NatToString(n: nat): (s: string)
    ensures |s| >= 1
    ensures forall i :: 0 <= i < |s| ==> IsDigit(s[i])
    ensures n < 10 <==> |s| == 1
  {
    if n < 10 then [DigitChar(n)] else NatToString(n / 10) + [DigitChar(n % 10)]
  }

  /** The value of a string of decimal digits, most significant first. */
  function DigitsValue(s: string): (v: nat)
    requires forall i :: 0 <= i < |s| ==> IsDigit(s[i])
  {
    if s == [] then 0 else DigitsValue(s[..|s| - 1]) * 10 + DigitValue(s[|s| - 1])
  }

  /** The longest prefix of `s` made of decimal digits. */
  function LeadingDigits(s: string): (d: string)
    ensures |d| <= |s| && d == s[..|d|]
    ensures forall i :: 0 <= i < |d| ==> IsDigit(d[i])
    ensures |d| < |s| ==> !IsDigit(s[|d|])
  {
    if s == [] || !IsDigit(s[0]) then [] else [s[0]] + LeadingDigits(s[1..])
  }

  /** The white space `parseInt` skips before the number (the ASCII part of it). */
  predicate IsSpace(c: char) { c == ' ' || c == '\t' || c == '\n' || c == '\r' || c as int == 11 || c as int == 12 }

  function TrimStart(s: string): (t: string)
    ensures |t| <= |s| && t == s[|s| - |t|..]
    ensures t != [] ==> !IsSpace(t[0])
  {
    if s != [] && IsSpace(s[0]) then TrimStart(s[1..]) else s
  }

  /** JavaScript `parseInt(s)` in base ten: skip leading white space, read an optional sign
      and the longest run of digits after it; `None` stands for `NaN` (no digit at all). */
  function ParseInt(s: string): (r: Option<int>)
    ensures r.None? <==> LeadingDigits(SignFree(TrimStart(s))) == []
  {
    var t := TrimStart(s);
    var d := LeadingDigits(SignFree(t));
    if d == [] then None
    else
      var v: int := DigitsValue(d);
      if t[0] == '-' then Some(-v) else Some(v)
  }

  function SignFree(t: string): string
  {
    if t != [] && (t[0] == '-' || t[0] == '+') then t[1..] else t
  }

  lemma {:induction false} DigitsValueOfNatToString(n: nat)
    ensures DigitsValue(NatToString(n)) == n
  {
    var s := NatToString(n);
    if n >= 10 {
      DigitsValueOfNatToString(n / 10);
      assert s[..|s| - 1] == NatToString(n / 10);
    }
  }

  lemma {:induction false} LeadingDigitsOfDigits(s: string)
    requires forall i :: 0 <= i < |s| ==> IsDigit(s[i])
    ensures LeadingDigits(s) == s
  {
    if s != [] {
      LeadingDigitsOfDigits(s[1..]);
    }
  }

  /** `parseInt` reads back what `${n}` printed. */
  lemma ParseIntOfNatToString(n: nat)
    ensures ParseInt(NatToString(n)) == Some(n)
  {
    var s := NatToString(n);
    assert TrimStart(s) == s;
    assert SignFree(s) == s;
    LeadingDigitsOfDigits(s);
    DigitsValueOfNatToString(n);
  }

  /** Leading white space in front of a non-space is skipped whole. */
  lemma {:induction false} TrimStartOfSpaces(ws: string, t: string)
    requires forall i :: 0 <= i < |ws| ==> IsSpace(ws[i])
    requires t == [] || !IsSpace(t[0])
    ensures TrimStart(ws + t) == t
  {
    if ws == [] {
      assert ws + t == t;
    } else {
      assert (ws + t)[1..] == ws[1..] + t;
      TrimStartOfSpaces(ws[1..], t);
    }
  }

  /** The run of digits ends at the first character that is not one. */
  lemma {:induction false} LeadingDigitsThenStop(d: string, rest: string)
    requires forall i :: 0 <= i < |d| ==> IsDigit(d[i])
    requires rest == [] || !IsDigit(rest[0])
    ensures LeadingDigits(d + rest) == d
  {
    if d == [] {
      assert d + rest == rest;
    } else {
      assert (d + rest)[1..] == d[1..] + rest;
      LeadingDigitsThenStop(d[1..], rest);
    }
  }

  /** `parseInt` of white space, an optional sign, the digits of `n` and a tail that does not
      start with a digit: `n` with that sign, whatever the tail holds. */
  lemma ParseIntOfSigned(ws: string, sign: string, n: nat, rest: string)
    requires forall i :: 0 <= i < |ws| ==> IsSpace(ws[i])
    requires sign == "" || sign == "+" || sign == "-"
    requires rest == [] || !IsDigit(rest[0])
    ensures ParseInt(ws + sign + NatToString(n) + rest) == Some(if sign == "-" then -(n as int) else n as int)
  {
    var digits := NatToString(n);
    assert ws + sign + digits + rest == ws + (sign + (digits + rest));
    ParseIntOfSignedDigits(ws, sign, n, rest);
  }

  /** The same, with the concatenation grouped from the right. */
  lemma ParseIntOfSignedDigits(ws: string, sign: string, n: nat, rest: string)
    requires forall i :: 0 <= i < |ws| ==> IsSpace(ws[i])
    requires sign == "" || sign == "+" || sign == "-"
    requires rest == [] || !IsDigit(rest[0])
    ensures ParseInt(ws + (sign + (NatToString(n) + rest))) == Some(if sign == "-" then -(n as int) else n as int)
  {
    var digits := NatToString(n);
    var t := sign + (digits + rest);
    SignedDigits(sign, digits, rest);
    TrimStartOfSpaces(ws, t);
    LeadingDigitsThenStop(digits, rest);
    DigitsValueOfNatToString(n);
    ParseIntOfParts(ws + t, t, digits, n, sign == "-");
  }

  /** A sign in front of a run of digits is read and dropped. */
  lemma SignedDigits(sign: string, digits: string, rest: string)
    requires sign == "" || sign == "+" || sign == "-"
    requires digits != [] && IsDigit(digits[0])
    ensures var t := sign + (digits + rest);
      t != [] && !IsSpace(t[0]) && SignFree(t) == digits + rest && ((t[0] == '-') <==> sign == "-")
  {
    var t := sign + (digits + rest);
    if sign != "" {
      assert t[1..] == digits + rest;
    }
  }

  /** `parseInt` once the white space is trimmed, the sign is read and the digits are valued. */
  lemma ParseIntOfParts(s: string, t: string, d: string, n: nat, negative: bool)
    requires TrimStart(s) == t && LeadingDigits(SignFree(t)) == d && d != []
    requires DigitsValue(d) == n && t != [] && ((t[0] == '-') <==> negative)
    ensures ParseInt(s) == Some(if negative then -(n as int) else n as int)
  {
  }

  /** A string that starts with a character other than white space, a sign or a digit reads as
      `NaN`. */
  lemma ParseIntOfNonNumeric(s: string)
    requires s != [] && !IsSpace(s[0]) && !IsDigit(s[0]) && s[0] != '-' && s[0] != '+'
    ensures ParseInt(s) == None
  {
    assert TrimStart(s) == s;
    assert SignFree(s) == s;
    assert LeadingDigits(s) == [];
  }

  /** Distinct numbers print differently, so a running counter gives distinct suffixes. */
  lemma NatToStringInjective(a: nat, b: nat)
    requires a != b
    ensures NatToString(a) != NatToString(b)
  {
    ParseIntOfNatToString(a);
    ParseIntOfNatToString(b);
  }

  /** `s.startsWith(p)`. */
  predicate StartsWith(s: string, p: string) { |p| <= |s| && s[..|p|] == p }

  /** `s.includes(sub)`: `sub` occurs somewhere in `s`. */
  predicate Contains(s: string, sub: string)
  {
    exists i :: 0 <= i <= |s| - |sub| && OccursAt(s, sub, i)
  }

  predicate OccursAt(s: string, sub: string, i: int)
    requires 0 <= i <= |s| - |sub|
  {
    s[i..i + |sub|] == sub
  }

  lemma EmptyIsContained(s: string)
    ensures Contains(s, [])
  {
    assert OccursAt(s, [], 0);
  }

  function LowerChar(c: char): (l: char)
    ensures 'A' <= c <= 'Z' ==> 'a' <= l <= 'z' && l as int == c as int + 32
    ensures !('A' <= c <= 'Z') ==> l == c
  {
    if 'A' <= c <= 'Z' then (c as int + 32) as char else c
  }

  /** `s.toLowerCase()` on the ASCII letters. */
  function ToLower(s: string): (l: string)
    ensures |l| == |s|
    ensures forall i :: 0 <= i < |s| ==> l[i] == LowerChar(s[i])
  {
    if s == [] then [] else [LowerChar(s[0])] + ToLower(s[1..])
  }
}
