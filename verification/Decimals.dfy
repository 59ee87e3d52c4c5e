/** The decimal texts that are accepted, the numbers they denote, and the one canonical text of each number. */
module Decimals {
  import opened Basics

  predicate IsDigit(c: char) {
    '0' <= c <= '9'
  }

  function DigitOf(d: nat): char
    requires d < 10
  {
    '0' + d as char
  }

  function ValueOf(c: char): nat
    requires IsDigit(c)
  {
    (c - '0') as nat
  }

  predicate AllDigits(s: string) {
    forall i :: 0 <= i < |s| ==> IsDigit(s[i])
  }

  function Number(s: string): nat
    requires AllDigits(s)
  {
    if s == "" then 0 else Number(s[..|s| - 1]) * 10 + ValueOf(s[|s| - 1])
  }

  function Pow10(k: nat): nat {
    if k == 0 then 1 else 10 * Pow10(k - 1)
  }

  /** A decimal as constructed from text: sign, all digits as one number, and how many of them follow the point. */
  datatype Decimal = Decimal(negative: bool, digits: nat, places: nat)

  function Signed(d: Decimal): int {
    if d.negative then -(d.digits as int) else d.digits as int
  }

  // Numerical equality.
  predicate Same(x: Decimal, y: Decimal) {
    Signed(x) * Pow10(y.places) == Signed(y) * Pow10(x.places)
  }

  function Dot(s: string): (i: nat)
    ensures i <= |s| && forall j :: 0 <= j < i ==> s[j] != '.'
    ensures i < |s| ==> s[i] == '.'
  {
    if s == "" || s[0] == '.' then 0 else 1 + Dot(s[1..])
  }

  function Unsigned(s: string): string {
    if s != "" && (s[0] == '+' || s[0] == '-') then s[1..] else s
  }

  function Whole(s: string): string {
    s[..Dot(s)]
  }

  function Fraction(s: string): string {
    if Dot(s) < |s| then s[Dot(s) + 1..] else ""
  }

  /** An optional sign, digits, and an optional point; at least one digit. No exponents, no separators. */
  predicate Lexical(s: string) {
    var body := Unsigned(s);
    AllDigits(Whole(body)) && AllDigits(Fraction(body)) && Whole(body) + Fraction(body) != ""
  }

  /** The decimal a text denotes, if the text is accepted. */
  function Parse(s: string): Option<Decimal> {
    if !Lexical(s) then None
    else
      var body := Unsigned(s);
      Some(Decimal(s != "" && s[0] == '-', Number(Whole(body) + Fraction(body)), |Fraction(body)|))
  }

  function Text(n: nat): (t: string)
    ensures t != "" && AllDigits(t)
  {
    if n < 10 then [DigitOf(n)] else Text(n / 10) + [DigitOf(n % 10)]
  }

  /** Fixed-point notation with exactly `places` digits after the point. */
  function Fixed(n: nat, places: nat): (t: string)
    ensures t != ""
  {
    if places == 0 then Text(n)
    else if places == 1 then Text(n / 10) + "." + [DigitOf(n % 10)]
    else Fixed(n / 10, places - 1) + [DigitOf(n % 10)]
  }

  function Strip(s: string, c: char): string {
    if s != "" && s[|s| - 1] == c then Strip(s[..|s| - 1], c) else s
  }

  /** The emitted text: '0' for zero, otherwise fixed-point notation without needless zeros or point. */
  function Emit(d: Decimal): string {
    if d.digits == 0 then "0"
    else
      var text := (if d.negative then "-" else "") + Fixed(d.digits, d.places);
      if '.' in text then Strip(Strip(text, '0'), '.') else text
  }

  // ---------------------------------------------------------------- reduction: the normal form behind the text

  function Reduce(n: nat, places: nat): (nat, nat) {
    if places > 0 && n % 10 == 0 then Reduce(n / 10, places - 1) else (n, places)
  }

  predicate Reduced(n: nat, places: nat) {
    places > 0 ==> n % 10 != 0
  }

  lemma Scale(k: nat, q: nat, m: nat, p: nat)
    requires k * q == m * p
    ensures (10 * k) * q == m * (10 * p)
  {
  }

  lemma {:induction false} ReduceIsReduced(n: nat, places: nat)
    ensures Reduced(Reduce(n, places).0, Reduce(n, places).1)
    ensures n * Pow10(Reduce(n, places).1) == Reduce(n, places).0 * Pow10(places)
    ensures n > 0 ==> Reduce(n, places).0 > 0
  {
    if places > 0 && n % 10 == 0 {
      ReduceIsReduced(n / 10, places - 1);
      Scale(n / 10, Pow10(Reduce(n, places).1), Reduce(n, places).0, Pow10(places - 1));
    }
  }

  lemma {:induction false} Pow10Positive(k: nat)
    ensures Pow10(k) > 0
  {
    if k > 0 {
      Pow10Positive(k - 1);
    }
  }

  lemma CancelTen(n: nat, a: nat, m: nat, b: nat)
    requires n * (10 * a) == m * (10 * b)
    ensures n * a == m * b
  {
    assert n * (10 * a) == 10 * (n * a);
    assert m * (10 * b) == 10 * (m * b);
  }

  lemma {:induction false} Cancel(n: nat, p: nat, m: nat, q: nat)
    requires n * Pow10(q) == m * Pow10(p) && q <= p
    ensures n == m * Pow10(p - q)
  {
    if q > 0 {
      CancelTen(n, Pow10(q - 1), m, Pow10(p - 1));
      Cancel(n, p - 1, m, q - 1);
    }
  }

  lemma EndsInZero(n: nat, m: nat, k: nat)
    requires k > 0 && n == m * Pow10(k)
    ensures n % 10 == 0
  {
    assert m * (10 * Pow10(k - 1)) == 10 * (m * Pow10(k - 1));
    TenTimes(m * Pow10(k - 1));
  }

  lemma TenTimes(x: nat)
    ensures (10 * x) % 10 == 0
  {
  }

  lemma ReducedUnique(n: nat, p: nat, m: nat, q: nat)
    requires Reduced(n, p) && Reduced(m, q) && n * Pow10(q) == m * Pow10(p)
    ensures n == m && p == q
  {
    if q < p {
      Cancel(n, p, m, q);
      EndsInZero(n, m, p - q);
    } else if p < q {
      Cancel(m, q, n, p);
      EndsInZero(m, n, q - p);
    } else {
      Cancel(n, p, m, q);
    }
  }

  /** Equal numbers have the same reduced form, and only those. */
  lemma SameReduced(x: Decimal, y: Decimal)
    requires x.digits > 0 && y.digits > 0
    ensures Same(x, y) <==> x.negative == y.negative && Reduce(x.digits, x.places) == Reduce(y.digits, y.places)
  {
    hide Pow10, Reduce, Reduced;
    var n, p := Reduce(x.digits, x.places).0, Reduce(x.digits, x.places).1;
    var m, q := Reduce(y.digits, y.places).0, Reduce(y.digits, y.places).1;
    ReduceIsReduced(x.digits, x.places);
    ReduceIsReduced(y.digits, y.places);
    SameSigned(x, y);
    if Same(x, y) {
      Proportional(x.digits, Pow10(x.places), y.digits, Pow10(y.places), n, Pow10(p), m, Pow10(q), x.places, y.places);
      ReducedUnique(n, p, m, q);
    }
    if x.negative == y.negative && Reduce(x.digits, x.places) == Reduce(y.digits, y.places) {
      Proportional(n, Pow10(p), m, Pow10(q), x.digits, Pow10(x.places), y.digits, Pow10(y.places), p, q);
    }
  }

  // For numbers other than zero, equality is equality of signs and magnitudes.
  lemma SameSigned(x: Decimal, y: Decimal)
    requires x.digits > 0 && y.digits > 0
    ensures Same(x, y) <==> x.negative == y.negative && x.digits * Pow10(y.places) == y.digits * Pow10(x.places)
  {
    Pow10Positive(x.places);
    Pow10Positive(y.places);
    Products(x.digits, Pow10(y.places));
    Products(y.digits, Pow10(x.places));
  }

  lemma Products(a: nat, b: nat)
    ensures a > 0 && b > 0 ==> a * b > 0
    ensures -(a as int) * b == -(a * b)
    ensures a == 0 ==> a * b == 0
  {
  }

  lemma Swap(a: nat, b: nat, c: nat, d: nat)
    ensures (a * b) * (c * d) == (a * c) * (b * d)
  {
    assert (a * b) * (c * d) == a * b * c * d;
    assert (a * c) * (b * d) == a * b * c * d;
  }

  lemma Times(x: nat, y: nat, z: nat)
    requires x == y
    ensures x * z == y * z
  {
  }

  // Fractions equal to equal fractions are equal.
  lemma Proportional(a: nat, i: nat, b: nat, j: nat, c: nat, k: nat, d: nat, l: nat, e: nat, f: nat)
    requires a * j == b * i && a * k == c * i && b * l == d * j && i == Pow10(e) && j == Pow10(f)
    ensures c * l == d * k
  {
    Pow10Positive(e);
    Pow10Positive(f);
    calc {
      (c * l) * (i * j);
      { Swap(c, l, i, j); }
      (c * i) * (l * j);
      { Times(c * i, a * k, l * j); }
      (a * k) * (l * j);
      { Swap(a, k, j, l); assert l * j == j * l; }
      (a * j) * (k * l);
      { Times(a * j, b * i, k * l); }
      (b * i) * (k * l);
      { Swap(b, i, l, k); assert k * l == l * k; }
      (b * l) * (i * k);
      { Times(b * l, d * j, i * k); }
      (d * j) * (i * k);
      { Swap(d, j, k, i); assert i * k == k * i; }
      (d * k) * (j * i);
    }
    assert j * i == i * j;
    Products(i, j);
    CancelFactor(c * l, d * k, i * j);
  }

  lemma CancelFactor(x: nat, y: nat, f: nat)
    requires x * f == y * f && f > 0
    ensures x == y
  {
  }

  // ---------------------------------------------------------------- the texts

  lemma {:induction false} NumberAppend(s: string, d: nat)
    requires AllDigits(s) && d < 10
    ensures AllDigits(s + [DigitOf(d)]) && Number(s + [DigitOf(d)]) == Number(s) * 10 + d
  {
    assert (s + [DigitOf(d)])[..|s|] == s;
  }

  lemma {:induction false} TextNumber(n: nat)
    ensures Number(Text(n)) == n
  {
    if n < 10 {
      NumberAppend("", n);
      assert "" + [DigitOf(n)] == [DigitOf(n)];
    } else {
      TextNumber(n / 10);
      NumberAppend(Text(n / 10), n % 10);
    }
  }

  lemma {:induction false} DotAfter(whole: string, rest: string)
    requires AllDigits(whole)
    ensures Dot(whole + rest) == |whole| + Dot(rest)
  {
    if whole == "" {
      assert whole + rest == rest;
    } else {
      assert (whole + rest)[1..] == whole[1..] + rest;
      DotAfter(whole[1..], rest);
    }
  }

  // The digits before and after the point.
  function Before(n: nat, places: nat): (t: string)
    ensures t != "" && AllDigits(t)
  {
    if places == 0 then Text(n) else Before(n / 10, places - 1)
  }

  function Behind(n: nat, places: nat): (t: string)
    ensures |t| == places && AllDigits(t)
  {
    if places == 0 then "" else Behind(n / 10, places - 1) + [DigitOf(n % 10)]
  }

  lemma {:induction false} FixedIs(n: nat, places: nat)
    ensures Fixed(n, places) == Before(n, places) + if places == 0 then "" else "." + Behind(n, places)
  {
    if places == 1 {
      assert Behind(n / 10, 0) == "" && Before(n / 10, 0) == Text(n / 10);
    } else if places > 1 {
      FixedIs(n / 10, places - 1);
    }
  }

  lemma {:induction false} PartsNumber(n: nat, places: nat)
    ensures AllDigits(Before(n, places) + Behind(n, places)) && Number(Before(n, places) + Behind(n, places)) == n
  {
    if places == 0 {
      TextNumber(n);
      assert Text(n) + "" == Text(n);
    } else {
      PartsNumber(n / 10, places - 1);
      var front := Before(n / 10, places - 1) + Behind(n / 10, places - 1);
      assert Before(n, places) + Behind(n, places) == front + [DigitOf(n % 10)];
      NumberAppend(front, n % 10);
    }
  }

  lemma NoPoint(whole: string)
    requires AllDigits(whole)
    ensures Whole(whole + "") == whole && Fraction(whole + "") == "" && (whole != "" ==> IsDigit((whole + "")[0]))
  {
    assert whole + "" == whole;
    DotAfter(whole, "");
    assert Dot("") == 0;
    hide Dot;
  }

  lemma PointBetween(whole: string, rest: string)
    requires AllDigits(whole)
    ensures var s := whole + ("." + rest);
            Whole(s) == whole && Fraction(s) == rest && (whole != "" ==> IsDigit(s[0]))
  {
    var tail := "." + rest;
    var s := whole + tail;
    DotAfter(whole, tail);
    assert tail[0] == '.' && Dot(tail) == 0;
    hide Dot;
    assert s[..|whole|] == whole && s[|whole| + 1..] == rest && (whole != "" ==> s[0] == whole[0]);
  }

  // What a fixed-point text is made of.
  lemma FixedParts(n: nat, places: nat)
    ensures Whole(Fixed(n, places)) == Before(n, places) && Fraction(Fixed(n, places)) == Behind(n, places)
    ensures IsDigit(Fixed(n, places)[0]) && Fixed(n, places)[|Fixed(n, places)| - 1] == DigitOf(n % 10)
  {
    hide Fixed, Behind, Before;
    FixedIs(n, places);
    LastDigit(n, places);
    if places == 0 {
      NoPoint(Before(n, places));
    } else {
      PointBetween(Before(n, places), Behind(n, places));
    }
  }

  lemma LastDigit(n: nat, places: nat)
    ensures Fixed(n, places)[|Fixed(n, places)| - 1] == DigitOf(n % 10)
  {
  }

  lemma StripEnd(s: string, c: char, d: char)
    ensures Strip(s + [d], c) == if d == c then Strip(s, c) else s + [d]
  {
    assert (s + [d])[..|s|] == s;
  }

  // A text that ends in a digit other than zero is not stripped.
  lemma NotStripped(s: string)
    requires s != "" && IsDigit(s[|s| - 1])
    ensures Strip(s, '.') == s
    ensures s[|s| - 1] != '0' ==> Strip(s, '0') == s
  {
  }

  lemma StripLast(s: string, d: nat)
    requires d < 10
    ensures d == 0 ==> Strip(s + [DigitOf(d)], '0') == Strip(s, '0')
    ensures d != 0 ==> Strip(s + [DigitOf(d)], '0') == s + [DigitOf(d)]
    ensures Strip(s + [DigitOf(d)], '.') == s + [DigitOf(d)]
  {
    StripEnd(s, '0', DigitOf(d));
    StripEnd(s, '.', DigitOf(d));
  }

  lemma StripPoint(s: string)
    requires s != "" && IsDigit(s[|s| - 1])
    ensures Strip(Strip(s + ".", '0'), '.') == s
  {
    StripEnd(s, '0', '.');
    StripEnd(s, '.', '.');
    NotStripped(s);
  }

  lemma FixedStep(n: nat, places: nat)
    requires places > 0
    ensures Fixed(n, places) == (if places == 1 then Text(n / 10) + "." else Fixed(n / 10, places - 1)) + [DigitOf(n % 10)]
  {
  }

  /** Stripping a fixed-point text gives the fixed-point text of the reduced number. */
  lemma {:induction false} StripFixed(sign: string, n: nat, places: nat)
    requires places > 0
    ensures Strip(Strip(sign + Fixed(n, places), '0'), '.') == sign + Fixed(Reduce(n, places).0, Reduce(n, places).1)
  {
    hide Fixed, Strip;
    FixedStep(n, places);
    var front := sign + if places == 1 then Text(n / 10) + "." else Fixed(n / 10, places - 1);
    assert sign + Fixed(n, places) == front + [DigitOf(n % 10)];
    StripLast(front, n % 10);
    if n % 10 == 0 {
      if places == 1 {
        WholeText(n / 10);
        assert front == sign + Text(n / 10) + ".";
        StripPoint(sign + Text(n / 10));
        assert Reduce(n / 10, 0) == (n / 10, 0);
      } else {
        StripFixed(sign, n / 10, places - 1);
      }
    }
  }

  lemma WholeText(n: nat)
    ensures Fixed(n, 0) == Text(n) && IsDigit(Text(n)[|Text(n)| - 1])
  {
  }

  lemma PointIff(n: nat, places: nat)
    ensures '.' in Fixed(n, places) <==> places > 0
  {
    FixedIs(n, places);
  }

  function Sign(negative: bool): string {
    if negative then "-" else ""
  }

  /** The emitted text is the sign and the fixed-point text of the reduced form. */
  lemma EmitIsReduced(d: Decimal)
    requires d.digits > 0
    ensures Emit(d) == Sign(d.negative) + Fixed(Reduce(d.digits, d.places).0, Reduce(d.digits, d.places).1)
  {
    PointIff(d.digits, d.places);
    var text := Sign(d.negative) + Fixed(d.digits, d.places);
    assert '.' in text <==> '.' in Fixed(d.digits, d.places);
    if d.places > 0 {
      StripFixed(Sign(d.negative), d.digits, d.places);
    }
  }

  lemma ParseFixed(negative: bool, n: nat, places: nat)
    ensures Parse(Sign(negative) + Fixed(n, places)) == Some(Decimal(negative, n, places))
  {
    hide Fixed, Before, Behind, Number;
    FixedParts(n, places);
    PartsNumber(n, places);
    var t := Sign(negative) + Fixed(n, places);
    assert Unsigned(t) == Fixed(n, places);
  }

  lemma ZeroText()
    ensures Parse("0") == Some(Decimal(false, 0, 0))
  {
    ParseFixed(false, 0, 0);
    assert Sign(false) + Fixed(0, 0) == "0";
  }

  /** The emitted text of every decimal is accepted again and denotes the same number. */
  lemma RoundTrip(d: Decimal)
    ensures Parse(Emit(d)).Some? && Same(Parse(Emit(d)).value, d)
  {
    if d.digits == 0 {
      ZeroText();
    } else {
      EmitIsReduced(d);
      var (n, p) := Reduce(d.digits, d.places);
      ParseFixed(d.negative, n, p);
      ReduceIsReduced(d.digits, d.places);
      Products(n, Pow10(d.places));
      Products(d.digits, Pow10(p));
    }
  }

  /** Two decimals are numerically equal if and only if their emitted texts are identical. */
  lemma SameIffSameText(x: Decimal, y: Decimal)
    ensures Same(x, y) <==> Emit(x) == Emit(y)
  {
    if x.digits > 0 && y.digits > 0 {
      SameReduced(x, y);
      EmitIsReduced(x);
      EmitIsReduced(y);
      var (n, p) := Reduce(x.digits, x.places);
      var (m, q) := Reduce(y.digits, y.places);
      ParseFixed(x.negative, n, p);
      ParseFixed(y.negative, m, q);
    } else {
      ZeroSame(x, y);
      if x.digits > 0 {
        NotZeroText(x);
      }
      if y.digits > 0 {
        NotZeroText(y);
      }
    }
  }

  lemma ZeroSame(x: Decimal, y: Decimal)
    requires x.digits == 0 || y.digits == 0
    ensures Same(x, y) <==> x.digits == 0 && y.digits == 0
  {
    Pow10Positive(x.places);
    Pow10Positive(y.places);
    Products(x.digits, Pow10(y.places));
    Products(y.digits, Pow10(x.places));
  }

  lemma NotZeroText(d: Decimal)
    requires d.digits > 0
    ensures Emit(d) != "0"
  {
    EmitIsReduced(d);
    ReduceIsReduced(d.digits, d.places);
    var (n, p) := Reduce(d.digits, d.places);
    ParseFixed(d.negative, n, p);
    ZeroText();
  }

  lemma SameReflexive(x: Decimal)
    ensures Same(x, x)
  {
  }

  lemma SameTransitive(x: Decimal, y: Decimal, z: Decimal)
    requires Same(x, y) && Same(y, z)
    ensures Same(x, z) && Same(y, x)
  {
    SameIffSameText(x, y);
    SameIffSameText(y, z);
    SameIffSameText(x, z);
  }

  // Digits with or without a point in them, at least one of them.
  ghost predicate IsNumeral(body: string, whole: string, fraction: string) {
    && AllDigits(whole) && AllDigits(fraction) && whole + fraction != ""
    && (body == whole + ("." + fraction) || (fraction == "" && body == whole + ""))
  }

  /** A text is accepted exactly if it is a numeral, with or without a sign; it then denotes the number of all its digits, with
      as many places as digits follow the point, negative for a minus sign. */
  lemma ParseIff(s: string)
    ensures Parse(s).Some? <==>
              exists whole, fraction :: IsNumeral(s, whole, fraction)
                                        || (s != "" && s[0] in {'+', '-'} && IsNumeral(s[1..], whole, fraction))
    ensures forall whole, fraction :: IsNumeral(s, whole, fraction) ==>
              AllDigits(whole + fraction) && Parse(s) == Some(Decimal(false, Number(whole + fraction), |fraction|))
    ensures forall whole, fraction :: s != "" && s[0] in {'+', '-'} && IsNumeral(s[1..], whole, fraction) ==>
              AllDigits(whole + fraction) && Parse(s) == Some(Decimal(s[0] == '-', Number(whole + fraction), |fraction|))
  {
    hide IsNumeral, Number;
    forall whole, fraction | IsNumeral(s, whole, fraction)
      ensures AllDigits(whole + fraction) && Parse(s) == Some(Decimal(false, Number(whole + fraction), |fraction|))
    {
      NumeralParts(s, whole, fraction);
    }
    forall whole, fraction | s != "" && s[0] in {'+', '-'} && IsNumeral(s[1..], whole, fraction)
      ensures AllDigits(whole + fraction) && Parse(s) == Some(Decimal(s[0] == '-', Number(whole + fraction), |fraction|))
    {
      NumeralParts(s[1..], whole, fraction);
    }
    if Lexical(s) {
      SomeNumeral(Unsigned(s));
    }
    hide Whole, Fraction, AllDigits;
  }

  lemma NumeralParts(body: string, whole: string, fraction: string)
    requires IsNumeral(body, whole, fraction)
    ensures Whole(body) == whole && Fraction(body) == fraction && whole + fraction != ""
    ensures AllDigits(whole) && AllDigits(fraction) && AllDigits(whole + fraction)
    ensures body != "" && body[0] !in {'+', '-'}
  {
    NoPoint(whole);
    PointBetween(whole, fraction);
    hide Whole, Fraction;
    if whole == "" {
      assert body[0] == '.';
    }
  }

  lemma SomeNumeral(body: string)
    requires AllDigits(Whole(body)) && AllDigits(Fraction(body)) && Whole(body) + Fraction(body) != ""
    ensures IsNumeral(body, Whole(body), Fraction(body))
  {
    if Dot(body) < |body| {
      assert body == body[..Dot(body)] + (["."[0]] + body[Dot(body) + 1..]);
    } else {
      assert body == body[..Dot(body)] + "";
    }
  }

  /** The number of a digit text: each further digit multiplies by ten and adds its value. */
  lemma NumberDigit(front: string, d: nat)
    requires AllDigits(front) && d < 10
    ensures Number("") == 0 && AllDigits(front + ["0123456789"[d]]) && Number(front + ["0123456789"[d]]) == 10 * Number(front) + d
  {
    var all := front + ["0123456789"[d]];
    assert all[..|all| - 1] == front;
    DigitIs(d);
  }

  lemma DigitIs(d: nat)
    requires d < 10
    ensures IsDigit("0123456789"[d]) && ValueOf("0123456789"[d]) == d
  {
  }
}
