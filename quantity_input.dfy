/** The quantity box of a cart line (src/pages/Cart.tsx:205-216): its text is
    read with JavaScript's `parseInt` and a result of `NaN` or `0` falls back
    to 1 (`parseInt(text) || 1`). */
module QuantityInput {
  import opened Wrappers

  /** The white-space characters `parseInt` skips before the number. */
  predicate IsLeadingSpace(c: char) {
    c == ' ' || c == '\t' || c == '\n' || c == '\r' || c == '\U{B}' || c == '\U{C}'
    || c == '\U{A0}' || c == '\U{FEFF}' || c == '\U{2028}' || c == '\U{2029}'
  }

  function TrimStart(s: string): (t: string)
    ensures |t| <= |s| && t == s[|s| - |t|..]
    ensures t == [] || !IsLeadingSpace(t[0])
  {
    if s != [] && IsLeadingSpace(s[0]) then TrimStart(s[1..]) else s
  }

  /** The value of one digit in base `radix` (10 or 16), if `c` is one. */
  function DigitValue(c: char, radix: nat): Option<nat>
    requires radix == 10 || radix == 16
  {
    if '0' <= c <= '9' then Some(c as nat - '0' as nat)
    else if radix == 16 && 'a' <= c <= 'f' then Some(c as nat - 'a' as nat + 10)
    else if radix == 16 && 'A' <= c <= 'F' then Some(c as nat - 'A' as nat + 10)
    else None
  }

  predicate IsDigit(c: char, radix: nat)
    requires radix == 10 || radix == 16
  {
    DigitValue(c, radix).Some?
  }

  /** The longest prefix of `s` made of digits of base `radix`. */
  function LeadingDigits(s: string, radix: nat): (ds: string)
    requires radix == 10 || radix == 16
    ensures |ds| <= |s| && ds == s[..|ds|]
    ensures forall i :: 0 <= i < |ds| ==> IsDigit(ds[i], radix)
    ensures |ds| < |s| ==> !IsDigit(s[|ds|], radix)
  {
    if s != [] && IsDigit(s[0], radix) then [s[0]] + LeadingDigits(s[1..], radix) else []
  }

  /** The number that a string of digits denotes in base `radix`. */
  function DigitsValue(ds: string, radix: nat): nat
    requires radix == 10 || radix == 16
    requires forall i :: 0 <= i < |ds| ==> IsDigit(ds[i], radix)
  {
    if ds == [] then 0
    else
      var last := ds[|ds| - 1];
      assert IsDigit(last, radix);
      DigitsValue(ds[..|ds| - 1], radix) * radix + DigitValue(last, radix).value
  }

  /** The unsigned part of a number for `parseInt`: base 16 after a `0x` or
      `0X` prefix, base 10 otherwise, up to the first non-digit; `None` when
      no digit follows. */
  function ParseMagnitude(u: string): Option<nat> {
    var hex := |u| >= 2 && u[0] == '0' && (u[1] == 'x' || u[1] == 'X');
    var radix := if hex then 16 else 10;
    var ds := LeadingDigits(if hex then u[2..] else u, radix);
    if ds == [] then None else Some(DigitsValue(ds, radix))
  }

  /** `t` without a leading sign. */
  function Unsigned(t: string): string {
    if t != [] && (t[0] == '-' || t[0] == '+') then t[1..] else t
  }

  /** JavaScript's `parseInt(s)` without a radix argument: skip leading white
      space, take an optional sign, then read the magnitude. `None` stands
      for `NaN`. */
  function ParseInt(s: string): (r: Option<int>)
    ensures r.Some? <==> ParseMagnitude(Unsigned(TrimStart(s))).Some?
    ensures r.Some? && r.value < 0 ==> TrimStart(s) != [] && TrimStart(s)[0] == '-'
    ensures r.Some? && r.value > 0 ==> TrimStart(s) != [] && TrimStart(s)[0] != '-'
  {
    var t := TrimStart(s);
    match ParseMagnitude(Unsigned(t))
    case Some(m) => if t != [] && t[0] == '-' then Some(-(m as int)) else Some(m)
    case None => None
  }

  /** The quantity the input hands to the quantity guard: the parsed number,
      or 1 when parsing yields `NaN` or zero (both falsy). */
  function TypedQuantity(text: string): (q: int)
    ensures q != 0
    ensures ParseInt(text).Some? && ParseInt(text).value != 0 ==> q == ParseInt(text).value
    ensures ParseInt(text).None? || ParseInt(text).value == 0 ==> q == 1
  {
    match ParseInt(text)
    case Some(n) => if n != 0 then n else 1
    case None => 1
  }

  // ---------------------------------------------------------------------
  // Decimal rendering, as the input shows `value={item.quantity}`
  // ---------------------------------------------------------------------

  function DecimalDigit(d: nat): (c: char)
    requires d < 10
    ensures DigitValue(c, 10) == Some(d)
  {
    "0123456789"[d]
  }

  /** The decimal numeral of a natural number, most significant digit first. */
  function Numeral(n: nat): (s: string)
    ensures s != []
    ensures forall i :: 0 <= i < |s| ==> IsDigit(s[i], 10)
  {
    if n < 10 then [DecimalDigit(n)] else Numeral(n / 10) + [DecimalDigit(n % 10)]
  }

  /** How an integer is shown as text. */
  function Render(n: int): string {
    if n < 0 then "-" + Numeral(-n) else Numeral(n)
  }

  /** Reading a numeral back gives the number it was made from. */
  lemma {:induction false} NumeralValue(n: nat)
    ensures DigitsValue(Numeral(n), 10) == n
  {
    if n >= 10 {
      var s := Numeral(n);
      assert s[..|s| - 1] == Numeral(n / 10);
      NumeralValue(n / 10);
    }
  }

  /** A numeral of a positive number has no leading zero. */
  lemma {:induction false} NumeralLeadingDigit(n: nat)
    requires n > 0
    ensures Numeral(n)[0] != '0'
  {
    if n >= 10 {
      assert Numeral(n)[0] == Numeral(n / 10)[0];
      NumeralLeadingDigit(n / 10);
    }
  }

  /** The digit prefix of a run of digits followed by a non-digit is that run. */
  lemma {:induction false} LeadingDigitsOfRun(ds: string, rest: string, radix: nat)
    requires radix == 10 || radix == 16
    requires forall i :: 0 <= i < |ds| ==> IsDigit(ds[i], radix)
    requires rest == [] || !IsDigit(rest[0], radix)
    ensures LeadingDigits(ds + rest, radix) == ds
  {
    if ds != [] {
      assert (ds + rest)[1..] == ds[1..] + rest;
      LeadingDigitsOfRun(ds[1..], rest, radix);
    }
  }

  /** The magnitude reader reads a numeral back, up to the first character
      that is neither a decimal digit nor an `x`. */
  lemma ParseNumeral(m: nat, rest: string)
    requires rest == [] || (!IsDigit(rest[0], 10) && rest[0] != 'x' && rest[0] != 'X')
    ensures ParseMagnitude(Numeral(m) + rest) == Some(m)
  {
    var digits := Numeral(m);
    LeadingDigitsOfRun(digits, rest, 10);
    NumeralValue(m);
    if m > 0 {
      NumeralLeadingDigit(m);
    } else {
      assert digits == "0";
    }
  }

  /** `parseInt` reads back the rendering of any integer, and ignores what
      follows it from the first character that is neither a decimal digit nor
      an `x` (so a fractional part such as ".5" is dropped). */
  lemma ParseRendered(n: int, rest: string)
    requires rest == [] || (!IsDigit(rest[0], 10) && rest[0] != 'x' && rest[0] != 'X')
    ensures ParseInt(Render(n) + rest) == Some(n)
  {
    if n < 0 {
      ParseRenderedNegative(-n, rest);
    } else {
      ParseRenderedNonNegative(n, rest);
    }
  }

  lemma ParseRenderedNegative(m: nat, rest: string)
    requires m > 0
    requires rest == [] || (!IsDigit(rest[0], 10) && rest[0] != 'x' && rest[0] != 'X')
    ensures ParseInt(Render(-(m as int)) + rest) == Some(-(m as int))
  {
    var u := Numeral(m) + rest;
    ParseNumeral(m, rest);
    assert Render(-(m as int)) + rest == ['-'] + u;
    ParseNegative(u, m);
  }

  lemma ParseRenderedNonNegative(n: nat, rest: string)
    requires rest == [] || (!IsDigit(rest[0], 10) && rest[0] != 'x' && rest[0] != 'X')
    ensures ParseInt(Render(n) + rest) == Some(n)
  {
    var u := Numeral(n) + rest;
    ParseNumeral(n, rest);
    assert Render(n) + rest == u;
    ParseNonNegative(u, n);
  }

  lemma ParseNegative(u: string, m: nat)
    requires ParseMagnitude(u) == Some(m)
    ensures ParseInt(['-'] + u) == Some(-(m as int))
  {
    var s := ['-'] + u;
    assert TrimStart(s) == s;
    assert s[1..] == u;
  }

  lemma ParseNonNegative(u: string, m: nat)
    requires u != [] && IsDigit(u[0], 10)
    requires ParseMagnitude(u) == Some(m)
    ensures ParseInt(u) == Some(m)
  {
    assert !IsLeadingSpace(u[0]);
    assert TrimStart(u) == u;
    assert u[0] != '-' && u[0] != '+';
  }

  /** Typing back the shown quantity of a line hands the same quantity to the
      guard; a typed negative number reaches the guard unchanged. */
  lemma TypedQuantityRoundTrip(q: int)
    requires q != 0
    ensures TypedQuantity(Render(q)) == q
  {
    ParseRendered(q, []);
    assert Render(q) + [] == Render(q);
  }

  /** An emptied box, or one holding only a sign, becomes quantity 1. */
  lemma EmptyBoxIsOne()
    ensures TypedQuantity("") == 1
    ensures TypedQuantity("-") == 1
  {
    assert TrimStart("") == "";
    assert ParseMagnitude("") == None;
    assert ParseInt("") == None;
    assert TrimStart("-") == "-";
    assert ParseMagnitude("-"[1..]) == None;
    assert ParseInt("-") == None;
  }
}
