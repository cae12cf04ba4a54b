/** Python text primitives used across the model: `int(s)`, `int(s, 16)`, `str(n)`,
    `s.split(c)` and `c.join(l)`, over ASCII characters. */
module Text {

  datatype Option<+T> = None | Some(value: T)

  predicate IsSpace(c: char) {
    c == ' ' || '\t' <= c <= '\r' || '\U{1C}' <= c <= '\U{1F}'
  }

  function StripLeft(s: string): string {
    if s != "" && IsSpace(s[0]) then StripLeft(s[1..]) else s
  }

  function StripRight(s: string): string {
    if s != "" && IsSpace(s[|s| - 1]) then StripRight(s[..|s| - 1]) else s
  }

  /** The value of a digit character, or `base` or more when it is not a digit of the base. */
  function DigitValue(c: char): nat {
    if '0' <= c <= '9' then c as int - '0' as int
    else if 'a' <= c <= 'z' then c as int - 'a' as int + 10
    else if 'A' <= c <= 'Z' then c as int - 'A' as int + 10
    else 36
  }

  /** Digits with single underscores between them, as `int()` accepts. */
  function ParseDigits(s: string, base: nat): Option<nat>
    decreases |s|
  {
    if s == "" then None
    else
      var d := DigitValue(s[|s| - 1]);
      if d >= base then None
      else if |s| == 1 then Some(d)
      else
        var front := if s[|s| - 2] == '_' then s[..|s| - 2] else s[..|s| - 1];
        Shift(ParseDigits(front, base), d, base)
  }

  function Shift(v: Option<nat>, d: nat, base: nat): Option<nat> {
    match v
    case None => None
    case Some(n) => Some(n * base + d)
  }

  function DropHexPrefix(s: string): string {
    if |s| >= 2 && s[0] == '0' && (s[1] == 'x' || s[1] == 'X') then
      if |s| >= 3 && s[2] == '_' then s[3..] else s[2..]
    else s
  }

  /** `int(s, base)` for base 10 or 16; `None` stands for `ValueError`. */
  function ParseInt(s: string, base: nat): Option<int> {
    var t := StripRight(StripLeft(s));
    var body := if t != "" && (t[0] == '+' || t[0] == '-') then t[1..] else t;
    match ParseDigits(if base == 16 then DropHexPrefix(body) else body, base)
    case None => None
    case Some(v) => var n: int := v; Some(if t != "" && t[0] == '-' then -n else n)
  }

  function DigitChar(d: nat): char
    requires d < 16
  {
    if d < 10 then ('0' as int + d) as char else ('a' as int + d - 10) as char
  }

  /** `str(n)` for base 10 and `"%x" % n` for base 16. */
  function Print(n: nat, base: nat): (s: string)
    requires 2 <= base <= 16
  {
    if n < base then [DigitChar(n)] else Print(n / base, base) + [DigitChar(n % base)]
  }

  /** A digit of the base, and none of the characters the parsers treat specially. */
  predicate IsDigit(c: char, base: nat) {
    DigitValue(c) < base && c != '_' && c != '-' && c != '+' && c != ',' && !IsSpace(c)
  }

  predicate AllDigits(s: string, base: nat) {
    forall i :: 0 <= i < |s| ==> IsDigit(s[i], base)
  }

  lemma DigitCharIsDigit(d: nat, base: nat)
    requires d < base <= 16
    ensures IsDigit(DigitChar(d), base) && DigitValue(DigitChar(d)) == d
    ensures base <= 10 ==> '0' <= DigitChar(d) <= '9'
  {
  }

  lemma {:induction false} PrintIsDigits(n: nat, base: nat)
    requires 2 <= base <= 16
    ensures Print(n, base) != "" && AllDigits(Print(n, base), base)
    ensures base == 10 ==> forall i :: 0 <= i < |Print(n, base)| ==> '0' <= Print(n, base)[i] <= '9'
  {
    hide IsDigit, DigitChar;
    if n >= base {
      PrintIsDigits(n / base, base);
      DigitCharIsDigit(n % base, base);
    } else {
      DigitCharIsDigit(n, base);
    }
  }

  lemma {:induction false} ParseDigitsOfPrint(n: nat, base: nat)
    requires base == 10 || base == 16
    ensures ParseDigits(Print(n, base), base) == Some(n)
  {
    if n >= base {
      var q, d := DivMod(n, base);
      ParseDigitsOfPrint(q, base);
      PrintIsDigits(q, base);
      DigitCharIsDigit(d, base);
      ParseDigitsOfSnoc(Print(q, base), DigitChar(d), base);
    }
  }

  lemma DivMod(n: nat, base: nat) returns (q: nat, d: nat)
    requires 2 <= base <= n
    ensures q == n / base && d == n % base && q < n && d < base
    ensures q * base + d == n
  {
    q, d := n / base, n % base;
    assert q * 2 <= q * base;
  }

  lemma ParseDigitsOfSnoc(s: string, c: char, base: nat)
    requires s != "" && s[|s| - 1] != '_' && DigitValue(c) < base
    ensures ParseDigits(s + [c], base) == Shift(ParseDigits(s, base), DigitValue(c), base)
  {
    hide Shift;
    var t := s + [c];
    assert t[..|t| - 1] == s;
    assert t[|t| - 2] == s[|s| - 1];
  }

  lemma {:induction false} ParseDigitsOfAllZeros(z: string, base: nat)
    requires 2 <= base <= 16 && z != ""
    requires forall i :: 0 <= i < |z| ==> z[i] == '0'
    ensures ParseDigits(z, base) == Some(0)
  {
    if |z| > 1 {
      ParseDigitsOfAllZeros(z[..|z| - 1], base);
      assert z[|z| - 2] == '0' && z[|z| - 1] == '0';
    }
  }

  /** Leading zeros do not change the value read. */
  lemma {:induction false} ParseDigitsOfZeros(z: string, s: string, base: nat)
    requires 2 <= base <= 16
    requires forall i :: 0 <= i < |z| ==> z[i] == '0'
    requires s != "" && AllDigits(s, base)
    ensures ParseDigits(z + s, base) == ParseDigits(s, base)
    decreases |s|
  {
    hide ParseDigits, Shift;
    var front, c := s[..|s| - 1], s[|s| - 1];
    assert IsDigit(c, base);
    assert z + s == (z + front) + [c] && s == front + [c];
    if front != "" {
      assert IsDigit(front[|front| - 1], base);
      ParseDigitsOfZeros(z, front, base);
      ParseDigitsOfSnoc(z + front, c, base);
      ParseDigitsOfSnoc(front, c, base);
    } else if z != "" {
      ParseDigitsOfAllZeros(z, base);
      assert z + front == z;
      ParseDigitsOfSnoc(z, c, base);
      ParseOneDigit(c, base);
    } else {
      assert z + s == s;
    }
  }

  lemma ParseOneDigit(c: char, base: nat)
    requires DigitValue(c) < base
    ensures ParseDigits([c], base) == Shift(Some(0), DigitValue(c), base)
  {
  }

  /** Without surrounding blanks, sign or prefix, `int()` reads the digits. */
  lemma ParseIntOfDigits(s: string, base: nat)
    requires base == 10 || base == 16
    requires s != "" && AllDigits(s, base)
    ensures ParseInt(s, base) == match ParseDigits(s, base) case None => None case Some(v) => Some(v)
  {
    assert !IsSpace(s[0]) && !IsSpace(s[|s| - 1]);
    if base == 16 && |s| >= 2 {
      assert DigitValue(s[1]) < 16;
    }
  }

  lemma ParseIntOfPrint(n: nat)
    ensures ParseInt(Print(n, 10), 10) == Some(n)
  {
    PrintIsDigits(n, 10);
    ParseIntOfDigits(Print(n, 10), 10);
    ParseDigitsOfPrint(n, 10);
  }

  lemma {:induction false} StripBlanks(a: string, s: string, b: string)
    requires s != "" && !IsSpace(s[0]) && !IsSpace(s[|s| - 1])
    requires (forall i :: 0 <= i < |a| ==> IsSpace(a[i])) && (forall i :: 0 <= i < |b| ==> IsSpace(b[i]))
    ensures StripRight(StripLeft(a + s + b)) == s
    decreases |a| + |b|
  {
    if a != "" {
      assert (a + s + b)[0] == a[0] && (a + s + b)[1..] == a[1..] + s + b;
      StripBlanks(a[1..], s, b);
    } else if b != "" {
      var t := a + s + b;
      assert t[0] == s[0] && t[|t| - 1] == b[|b| - 1] && t[..|t| - 1] == a + s + b[..|b| - 1];
      assert StripLeft(t) == t && StripLeft(t[..|t| - 1]) == t[..|t| - 1];
      StripBlanks(a, s, b[..|b| - 1]);
    } else {
      assert a + s + b == s;
    }
  }

  /** `int()` reads a number with blanks around it and a sign before it. */
  lemma ParseIntSigned(a: string, sign: string, n: nat, b: string)
    requires (forall i :: 0 <= i < |a| ==> IsSpace(a[i])) && (forall i :: 0 <= i < |b| ==> IsSpace(b[i]))
    requires sign == "" || sign == "+" || sign == "-"
    ensures var v: int := n; ParseInt(a + (sign + Print(n, 10)) + b, 10) == Some(if sign == "-" then -v else v)
  {
    hide Print, ParseDigits, StripLeft, StripRight;
    PrintIsDigits(n, 10);
    ParseDigitsOfPrint(n, 10);
    var digits := Print(n, 10);
    var t := sign + digits;
    assert t[|t| - 1] == digits[|digits| - 1];
    StripBlanks(a, t, b);
    if sign != "" { assert t[1..] == digits; } else { assert t == digits; }
  }

  /** `s.split(sep)`: never empty. */
  function Split(s: string, sep: char): (parts: seq<string>)
    ensures |parts| >= 1
  {
    if s == "" then [""]
    else
      var rest := Split(s[1..], sep);
      if s[0] == sep then [""] + rest else [[s[0]] + rest[0]] + rest[1..]
  }

  /** `sep.join(parts)`. */
  function Join(parts: seq<string>, sep: char): string {
    if |parts| == 0 then ""
    else if |parts| == 1 then parts[0]
    else parts[0] + [sep] + Join(parts[1..], sep)
  }

  lemma {:induction false} SplitAtSep(a: string, rest: string, sep: char)
    requires sep !in a
    ensures Split(a + [sep] + rest, sep) == [a] + Split(rest, sep)
    ensures Split(a, sep) == [a]
    decreases |a|
  {
    if a == "" {
      assert a + [sep] + rest == [sep] + rest;
    } else {
      SplitAtSep(a[1..], rest, sep);
      assert (a + [sep] + rest)[1..] == a[1..] + [sep] + rest;
      assert [a[0]] + a[1..] == a;
    }
  }

  /** Splitting undoes joining when no part holds the separator. */
  lemma {:induction false} SplitOfJoin(parts: seq<string>, sep: char)
    requires |parts| >= 1
    requires forall i :: 0 <= i < |parts| ==> sep !in parts[i]
    ensures Split(Join(parts, sep), sep) == parts
  {
    if |parts| == 1 {
      SplitAtSep(parts[0], "", sep);
    } else {
      SplitOfJoin(parts[1..], sep);
      SplitAtSep(parts[0], Join(parts[1..], sep), sep);
    }
  }
}
