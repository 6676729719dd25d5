/**
 The key of a revision in the database: name, separator, and the number padded to ten digits.  The
 encoding is injective on all names and 32-bit numbers, and the order of keys is that of (name, number).
 */
module StoreKeys {
  import opened Numbers

  const SEPARATOR := '\0'

  // Order by characters, a prefix before what extends it: the order of the table's keys.
  predicate Before(a: string, b: string) {
    b != "" && (a == "" || a[0] < b[0] || (a[0] == b[0] && Before(a[1..], b[1..])))
  }

  lemma {:induction false} BeforeIsTotal(a: string, b: string)
    ensures a == b <==> !Before(a, b) && !Before(b, a)
    ensures !(Before(a, b) && Before(b, a))
  {
    if a != "" && b != "" && a[0] == b[0] {
      BeforeIsTotal(a[1..], b[1..]);
      assert a == [a[0]] + a[1..] && b == [b[0]] + b[1..];
    }
  }

  lemma {:induction false} BeforeIsTransitive(a: string, b: string, c: string)
    requires Before(a, b) && Before(b, c)
    ensures Before(a, c)
  {
    if a != "" && a[0] == b[0] == c[0] {
      BeforeIsTransitive(a[1..], b[1..], c[1..]);
    }
  }

  // ---------- Numbers ----------

  function Pow10(k: nat): (p: nat)
    ensures p > 0
  {
    if k == 0 then 1 else 10 * Pow10(k - 1)
  }

  function Digit(d: nat): char
    requires d < 10
  {
    '0' + d as char
  }

  function Decimal(n: nat): string {
    if n < 10 then [Digit(n)] else Decimal(n / 10) + [Digit(n % 10)]
  }

  function Zeros(k: nat): string {
    if k == 0 then "" else Zeros(k - 1) + "0"
  }

  // At least `width` digits, zeros in front.
  function Padded(n: nat, width: nat): string {
    var d := Decimal(n);
    if |d| >= width then d else Zeros(width - |d|) + d
  }

  // Exactly `width` digits.
  function Digits(n: nat, width: nat): (s: string)
    ensures |s| == width
  {
    if width == 0 then "" else Digits(n / 10, width - 1) + [Digit(n % 10)]
  }

  lemma {:induction false} ZeroDigits(width: nat)
    ensures Digits(0, width) == Zeros(width)
  {
    if width > 0 {
      ZeroDigits(width - 1);
    }
  }

  lemma {:induction false} PaddedIsDigits(n: nat, width: nat)
    requires width > 0 && n < Pow10(width)
    ensures Padded(n, width) == Digits(n, width) && |Decimal(n)| <= width
  {
    if n < 10 {
      ZeroDigits(width - 1);
    } else {
      assert width > 1 by {
        assert Pow10(1) == 10;
      }
      PaddedIsDigits(n / 10, width - 1);
    }
  }

  lemma TenDigitsCoverU32(n: nat)
    requires n < U32_LIMIT
    ensures n < Pow10(10)
  {
    assert Pow10(2) == 100;
    assert Pow10(4) == 10000;
    assert Pow10(6) == 1000000;
    assert Pow10(8) == 100000000;
    assert Pow10(10) == 10000000000;
  }

  lemma {:induction false} BeforeSnoc(a: string, b: string, x: char, y: char)
    requires |a| == |b|
    ensures Before(a + [x], b + [y]) <==> Before(a, b) || (a == b && x < y)
  {
    if a == "" {
      assert a + [x] == [x] && b + [y] == [y];
    } else {
      assert (a + [x])[1..] == a[1..] + [x] && (b + [y])[1..] == b[1..] + [y];
      BeforeSnoc(a[1..], b[1..], x, y);
      assert a == [a[0]] + a[1..] && b == [b[0]] + b[1..];
    }
  }

  lemma {:induction false} DigitsOrder(m: nat, n: nat, width: nat)
    requires m < Pow10(width) && n < Pow10(width)
    ensures Before(Digits(m, width), Digits(n, width)) <==> m < n
    ensures Digits(m, width) == Digits(n, width) <==> m == n
  {
    if width > 0 {
      DigitsOrder(m / 10, n / 10, width - 1);
      var a, b := Digits(m / 10, width - 1), Digits(n / 10, width - 1);
      BeforeSnoc(a, b, Digit(m % 10), Digit(n % 10));
      assert Digits(m, width)[..width - 1] == a && Digits(n, width)[..width - 1] == b;
    }
  }

  // ---------- Keys ----------

  function WideKey(name: string, number: nat, width: nat): string {
    name + [SEPARATOR] + Padded(number, width)
  }

  function RevisionKey(name: string, number: nat): string {
    WideKey(name, number, 10)
  }

  lemma KeyShape(name: string, number: nat, width: nat)
    requires width > 0 && number < Pow10(width)
    ensures WideKey(name, number, width) == name + ([SEPARATOR] + Digits(number, width))
    ensures |WideKey(name, number, width)| == |name| + 1 + width
  {
    PaddedIsDigits(number, width);
  }

  lemma WideKeyInjective(a: string, m: nat, b: string, n: nat, width: nat)
    requires width > 0 && m < Pow10(width) && n < Pow10(width)
    ensures WideKey(a, m, width) == WideKey(b, n, width) <==> a == b && m == n
  {
    KeyShape(a, m, width);
    KeyShape(b, n, width);
    DigitsOrder(m, n, width);
    var k, l := WideKey(a, m, width), WideKey(b, n, width);
    if k == l {
      assert k[..|a|] == a && l[..|b|] == b;
      assert k[|a| + 1..] == Digits(m, width) && l[|b| + 1..] == Digits(n, width);
    }
  }

  // Whatever the names: equal keys come from equal names and numbers.
  lemma KeyInjective(a: string, m: nat, b: string, n: nat)
    requires m < U32_LIMIT && n < U32_LIMIT
    ensures RevisionKey(a, m) == RevisionKey(b, n) <==> a == b && m == n
  {
    TenDigitsCoverU32(m);
    TenDigitsCoverU32(n);
    WideKeyInjective(a, m, b, n, 10);
  }

  // What follows a common beginning decides; `x` and `y` start with the separator.
  lemma {:induction false} BeforeTail(a: string, b: string, x: string, y: string)
    requires x != "" && y != "" && x[0] == y[0] == SEPARATOR
    requires SEPARATOR !in a && SEPARATOR !in b
    ensures Before(a + x, b + y) <==> Before(a, b) || (a == b && Before(x, y))
  {
    if a == "" && b == "" {
      assert a + x == x && b + y == y;
    } else if a == "" {
      assert a + x == x && (b + y)[0] == b[0] > SEPARATOR;
    } else if b == "" {
      assert b + y == y && (a + x)[0] == a[0] > SEPARATOR;
    } else {
      assert (a + x)[1..] == a[1..] + x && (b + y)[1..] == b[1..] + y;
      BeforeTail(a[1..], b[1..], x, y);
      assert a == [a[0]] + a[1..] && b == [b[0]] + b[1..];
    }
  }

  lemma WideKeyOrder(a: string, m: nat, b: string, n: nat, width: nat)
    requires width > 0 && m < Pow10(width) && n < Pow10(width)
    requires SEPARATOR !in a && SEPARATOR !in b
    ensures Before(WideKey(a, m, width), WideKey(b, n, width)) <==> Before(a, b) || (a == b && m < n)
  {
    KeyShape(a, m, width);
    KeyShape(b, n, width);
    DigitsOrder(m, n, width);
    var x, y := [SEPARATOR] + Digits(m, width), [SEPARATOR] + Digits(n, width);
    assert x[1..] == Digits(m, width) && y[1..] == Digits(n, width);
    BeforeTail(a, b, x, y);
  }

  // The order of keys is that of name, then number.
  lemma KeyOrder(a: string, m: nat, b: string, n: nat)
    requires m < U32_LIMIT && n < U32_LIMIT && SEPARATOR !in a && SEPARATOR !in b
    ensures Before(RevisionKey(a, m), RevisionKey(b, n)) <==> Before(a, b) || (a == b && m < n)
  {
    TenDigitsCoverU32(m);
    TenDigitsCoverU32(n);
    WideKeyOrder(a, m, b, n, 10);
  }

  // A name with the separator in it would break that order; valid names have none.
  lemma SeparatorBreaksOrder(width: nat)
    requires width > 0
    ensures Before("", [SEPARATOR]) && !Before(WideKey("", 0, width), WideKey([SEPARATOR], 0, width))
  {
    KeyShape("", 0, width);
    KeyShape([SEPARATOR], 0, width);
    var a, b := WideKey("", 0, width), WideKey([SEPARATOR], 0, width);
    FirstDigit(width);
    assert a == [SEPARATOR] + Digits(0, width) && b == [SEPARATOR, SEPARATOR] + Digits(0, width);
    assert a[1..][0] == '0' && b[1..][0] == SEPARATOR;
  }

  lemma {:induction false} FirstDigit(width: nat)
    requires width > 0
    ensures Digits(0, width)[0] == '0'
  {
    if width > 1 {
      FirstDigit(width - 1);
    }
  }
}
