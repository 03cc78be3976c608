/** Amounts as text: how the API reads cents from a decimal string and writes them back. */
module Money {
  import opened Base

  const MAX_INT64 := 0x7FFF_FFFF_FFFF_FFFF

  predicate IsDigit(c: char) {
    '0' <= c <= '9'
  }

  predicate Digits(s: string) {
    forall i :: 0 <= i < |s| ==> IsDigit(s[i])
  }

  function DigitValue(c: char): (d: nat)
    requires IsDigit(c)
    ensures d <= 9
  {
    c as int - '0' as int
  }

  function DigitChar(d: nat): (c: char)
    requires d <= 9
    ensures IsDigit(c) && DigitValue(c) == d
  {
    ('0' as int + d) as char
  }

  function Value(s: string): nat
    requires Digits(s)
  {
    if s == "" then 0 else Value(s[..|s| - 1]) * 10 + DigitValue(s[|s| - 1])
  }

  // ---------------------------------------------------------------------------
  // What a string denotes
  // ---------------------------------------------------------------------------

  /** Digits, then nothing or a point and one or two digits, denoting that many cents. */
  ghost predicate Writes(whole: string, fraction: string, value: string, cents: int) {
    && whole != "" && Digits(whole) && Digits(fraction) && |fraction| <= 2
    && value == (if fraction == "" then whole else whole + "." + fraction)
    && cents == Value(whole) * 100
                + (if |fraction| == 1 then Value(fraction) * 10 else Value(fraction))
  }

  ghost predicate Denotes(value: string, cents: int) {
    exists whole, fraction :: Writes(whole, fraction, value, cents)
  }

  predicate InRange(cents: int) {
    1 <= cents <= MAX_AMOUNT_CENTS
  }

  /** The amount a string denotes, if it denotes one in range. */
  ghost function Parsed(value: string): (r: Result<int>)
    ensures r.Ok? ==> Denotes(value, r.value) && InRange(r.value)
    ensures r.Err? ==> r.error == AmountOutOfRange && forall cents :: Denotes(value, cents) ==> !InRange(cents)
  {
    if cents :| Denotes(value, cents) && InRange(cents) then Ok(cents) else Err(AmountOutOfRange)
  }

  // ---------------------------------------------------------------------------
  // Library functions the parser calls
  // ---------------------------------------------------------------------------

  /** The white space that `strings.TrimSpace` drops. */
  predicate IsSpace(c: char) {
    || '\U{0009}' <= c <= '\U{000D}' || c == ' ' || c == '\U{0085}' || c == '\U{00A0}' || c == '\U{1680}'
    || '\U{2000}' <= c <= '\U{200A}' || c == '\U{2028}' || c == '\U{2029}' || c == '\U{202F}' || c == '\U{205F}'
    || c == '\U{3000}'
  }

  function TrimLeft(s: string): string {
    if s != "" && IsSpace(s[0]) then TrimLeft(s[1..]) else s
  }

  function TrimRight(s: string): string {
    if s != "" && IsSpace(s[|s| - 1]) then TrimRight(s[..|s| - 1]) else s
  }

  function TrimSpace(s: string): string {
    TrimRight(TrimLeft(s))
  }

  /** Trimming leaves exactly the strings alone that neither begin nor end with white space. */
  lemma TrimmedIs(s: string)
    ensures TrimSpace(s) == s <==> s == "" || (!IsSpace(s[0]) && !IsSpace(s[|s| - 1]))
  {
    TrimShortens(s);
    TrimShortens(TrimLeft(s));
    if s != "" && IsSpace(s[0]) {
      TrimShortens(s[1..]);
    }
    if s != "" && IsSpace(s[|s| - 1]) {
      TrimShortens(s[..|s| - 1]);
    }
  }

  lemma {:induction false} TrimShortens(s: string)
    ensures |TrimLeft(s)| <= |s| && |TrimRight(s)| <= |s|
  {
    if s != "" {
      TrimShortens(s[1..]);
      TrimShortens(s[..|s| - 1]);
    }
  }

  function Split(s: string, separator: char): (parts: seq<string>)
    ensures |parts| >= 1
  {
    if s == "" then [""]
    else
      var rest := Split(s[1..], separator);
      if s[0] == separator then [""] + rest else [[s[0]] + rest[0]] + rest[1..]
  }

  lemma {:induction false} SplitJoins(s: string, separator: char)
    ensures |Split(s, separator)| == 1 ==> Split(s, separator)[0] == s
    ensures |Split(s, separator)| == 2 ==> s == Split(s, separator)[0] + [separator] + Split(s, separator)[1]
  {
    if s != "" {
      SplitJoins(s[1..], separator);
      assert s == [s[0]] + s[1..];
    }
  }

  lemma {:induction false} SplitWhole(part: string, separator: char)
    requires separator !in part
    ensures Split(part, separator) == [part]
  {
    if part != "" {
      assert part == [part[0]] + part[1..];
      SplitWhole(part[1..], separator);
    }
  }

  lemma {:induction false} SplitAt(part: string, separator: char, rest: string)
    requires separator !in part
    ensures Split(part + [separator] + rest, separator) == [part] + Split(rest, separator)
  {
    var s := part + [separator] + rest;
    if part == "" {
      assert s[1..] == rest;
    } else {
      assert part == [part[0]] + part[1..];
      SplitAt(part[1..], separator, rest);
      assert s[1..] == part[1..] + [separator] + rest;
    }
  }

  /** Reads a signed 64-bit number from digits; anything longer overflows. */
  method ParseInt(s: string) returns (r: Result<int>)
    requires s != "" && Digits(s)
    ensures r == if Value(s) <= MAX_INT64 then Ok(Value(s)) else Err(AmountOutOfRange)
  {
    var n := 0;
    for i := 0 to |s|
      invariant n == Value(s[..i]) && n <= MAX_INT64
    {
      assert s[..i + 1][..i] == s[..i];
      n := n * 10 + DigitValue(s[i]);
      if n > MAX_INT64 {
        ValueGrows(s, i + 1);
        return Err(AmountOutOfRange);
      }
    }
    assert s[..|s|] == s;
    return Ok(n);
  }

  lemma {:induction false} ValueGrows(s: string, k: nat)
    requires Digits(s) && k <= |s|
    ensures Value(s[..k]) <= Value(s)
  {
    if k == |s| {
      assert s[..k] == s;
    } else {
      assert s[..|s| - 1][..k] == s[..k];
      ValueGrows(s[..|s| - 1], k);
    }
  }

  method AllDigits(s: string) returns (ok: bool)
    ensures ok <==> Digits(s)
  {
    for i := 0 to |s|
      invariant Digits(s[..i])
    {
      if s[i] < '0' || s[i] > '9' { return false; }
    }
    return true;
  }

  // ---------------------------------------------------------------------------
  // The parser
  // ---------------------------------------------------------------------------

  /** A string that denotes an amount is not blank at its ends, holds no sign or exponent, and splits at
      its point. */
  lemma WrittenForm(whole: string, fraction: string, value: string, cents: int)
    requires Writes(whole, fraction, value, cents)
    ensures value != "" && TrimSpace(value) == value
    ensures forall c :: c in "eE+-" ==> c !in value
    ensures Split(value, '.') == if fraction == "" then [whole] else [whole, fraction]
  {
    SplitWhole(whole, '.');
    SplitWhole(fraction, '.');
    SplitAt(whole, '.', fraction);
    assert IsDigit(value[0]) && IsDigit(value[|value| - 1]);
  }

  lemma TwoDigitValue(s: string)
    requires Digits(s) && |s| <= 2
    ensures Value(s) == (if |s| == 0 then 0 else if |s| == 1 then DigitValue(s[0])
                         else DigitValue(s[0]) * 10 + DigitValue(s[1]))
    ensures |s| == 1 ==> Value(s + "0") == Value(s) * 10
  {
    if |s| == 1 {
      assert (s + "0")[..1] == s;
    }
  }

  lemma ParsedIs(whole: string, fraction: string, value: string, cents: int)
    requires Writes(whole, fraction, value, cents)
    ensures Parsed(value) == if InRange(cents) then Ok(cents) else Err(AmountOutOfRange)
  {
    assert Denotes(value, cents);
    DenotesOnce(value, cents);
  }

  /** What a string that is parsed looks like; any other is refused. */
  lemma ParsedForm(value: string)
    requires Parsed(value).Ok?
    ensures value != "" && TrimSpace(value) == value && (forall c :: c in "eE+-" ==> c !in value)
    ensures var parts := Split(value, '.');
            && |parts| <= 2 && parts[0] != "" && Digits(parts[0])
            && (|parts| == 2 ==> 1 <= |parts[1]| <= 2 && Digits(parts[1]))
  {
    var whole, fraction :| Writes(whole, fraction, value, Parsed(value).value);
    WrittenForm(whole, fraction, value, Parsed(value).value);
  }

  /** The cents of a whole part and a fraction already checked to be digits. */
  method Combine(whole: string, fraction: string) returns (r: Result<int>)
    requires whole != "" && Digits(whole) && Digits(fraction) && |fraction| <= 2
    ensures var cents := Value(whole) * 100 + (if |fraction| == 1 then Value(fraction) * 10 else Value(fraction));
            r == if InRange(cents) then Ok(cents) else Err(AmountOutOfRange)
  {
    TwoDigitValue(fraction);
    var n := ParseInt(whole);
    if n.Err? || n.value > MAX_AMOUNT_CENTS / 100 { return Err(AmountOutOfRange); }
    var cents := n.value * 100;
    var padded := if |fraction| == 1 then fraction + "0" else fraction;
    if padded != "" {
      TwoDigitValue(padded);
      var m := ParseInt(padded);
      if m.Err? { return Err(AmountOutOfRange); }
      cents := cents + m.value;
    }
    if cents < 1 || cents > MAX_AMOUNT_CENTS { return Err(AmountOutOfRange); }
    return Ok(cents);
  }

  /** Accepts exactly the strings that denote an amount in range, and returns that amount. */
  method ParseCents(value: string) returns (r: Result<int>)
    ensures r == Parsed(value)
  {
    if Parsed(value).Ok? { ParsedForm(value); }
    if value == "" || TrimSpace(value) != value || exists c :: c in "eE+-" && c in value {
      return Err(AmountOutOfRange);
    }
    var parts := Split(value, '.');
    SplitJoins(value, '.');
    if |parts| > 2 || parts[0] == "" { return Err(AmountOutOfRange); }
    var ok := AllDigits(parts[0]);
    if !ok { return Err(AmountOutOfRange); }
    var fraction := "";
    if |parts| == 2 {
      fraction := parts[1];
      if |fraction| < 1 || |fraction| > 2 { return Err(AmountOutOfRange); }
      ok := AllDigits(fraction);
      if !ok { return Err(AmountOutOfRange); }
    }
    r := Combine(parts[0], fraction);
    ParsedIs(parts[0], fraction, value,
             Value(parts[0]) * 100 + (if |fraction| == 1 then Value(fraction) * 10 else Value(fraction)));
  }

  /** No string denotes two amounts. */
  lemma DenotesOnce(value: string, cents: int)
    requires Denotes(value, cents)
    ensures forall other :: Denotes(value, other) ==> other == cents
  {
    var whole, fraction :| Writes(whole, fraction, value, cents);
    WrittenForm(whole, fraction, value, cents);
    forall other | Denotes(value, other) ensures other == cents {
      var w, f :| Writes(w, f, value, other);
      WrittenForm(w, f, value, other);
    }
  }

  // ---------------------------------------------------------------------------
  // The writers
  // ---------------------------------------------------------------------------

  /** Division as the source language has it: towards zero. */
  function Quo(a: int, b: int): int
    requires b > 0
  {
    if a >= 0 then a / b else -(-a / b)
  }

  function Rem(a: int, b: int): int
    requires b > 0
  {
    a - b * Quo(a, b)
  }

  function Natural(n: nat): (s: string)
    ensures s != "" && Digits(s) && Value(s) == n
    ensures |s| == 1 <==> n <= 9
  {
    if n <= 9 then
      assert [DigitChar(n)][..0] == "";
      [DigitChar(n)]
    else
      var front := Natural(n / 10);
      assert (front + [DigitChar(n % 10)])[..|front|] == front;
      front + [DigitChar(n % 10)]
  }

  function FormatInt(n: int): string {
    if n < 0 then "-" + Natural(-n) else Natural(n)
  }

  function TwoDigits(n: int): string {
    if n < 10 then "0" + FormatInt(n) else FormatInt(n)
  }

  function FormatMoney(cents: int): string {
    FormatInt(Quo(cents, 100)) + "." + TwoDigits(Rem(cents, 100))
  }

  /** `%02d`: padded with zeros to two places, the sign counting as one. */
  function ZeroPadded(n: int): string {
    if 0 <= n <= 9 then "0" + Natural(n) else FormatInt(n)
  }

  /** How the callback writes money. */
  function CallbackMoney(cents: int): string {
    FormatInt(Quo(cents, 100)) + "." + ZeroPadded(Rem(cents, 100))
  }

  lemma TwoDigitsWritten(n: nat)
    requires n < 100
    ensures |TwoDigits(n)| == 2 && Digits(TwoDigits(n)) && Value(TwoDigits(n)) == n
  {
    if n < 10 {
      TwoDigitValue("0" + Natural(n));
      TwoDigitValue(Natural(n));
    } else {
      assert |Natural(n / 10)| == 1;
    }
  }

  /** What is written is read back, for every amount in range. */
  lemma RoundTrip(cents: int)
    requires InRange(cents)
    ensures Parsed(FormatMoney(cents)) == Ok(cents)
  {
    TwoDigitsWritten(cents % 100);
    assert Writes(Natural(cents / 100), TwoDigits(cents % 100), FormatMoney(cents), cents);
    DenotesOnce(FormatMoney(cents), cents);
  }

  /** Both writers agree exactly on the amounts without a negative remainder, so on every amount paid. */
  lemma WritersAgree(cents: int)
    ensures FormatMoney(cents) == CallbackMoney(cents) <==> cents >= 0 || cents % 100 == 0
  {
    var n := Rem(cents, 100);
    var head := FormatInt(Quo(cents, 100)) + ".";
    assert n >= 0 <==> cents >= 0 || cents % 100 == 0;
    if n < 0 {
      assert |TwoDigits(n)| == |ZeroPadded(n)| + 1;
      assert |FormatMoney(cents)| == |head| + |TwoDigits(n)| && |CallbackMoney(cents)| == |head| + |ZeroPadded(n)|;
    }
  }

  /** Writing what was read normalises it without changing the amount. */
  lemma Normalised(value: string)
    requires Parsed(value).Ok?
    ensures Parsed(FormatMoney(Parsed(value).value)) == Parsed(value)
  {
    RoundTrip(Parsed(value).value);
  }
}
