/** Price formatting of the storefront cart: `formatRupiah` writes an integer amount
    as "Rp " followed by its decimal digits, with a '.' between every group of three
    digits counted from the right (Indonesian thousands separator, no decimals). */
module Rupiah {

  predicate IsDigit(c: char) { '0' <= c <= '9' }

  predicate AllDigits(s: string) { forall i :: 0 <= i < |s| ==> IsDigit(s[i]) }

  function DigitChar(d: nat): (c: char)
    requires d < 10
    ensures IsDigit(c) && c as int - '0' as int == d
  {
    ('0' as int + d) as char
  }

  /** The decimal numeral of `n`, as `Number.prototype.toString` writes a non-negative integer:
      at least one digit, and no leading zero unless the numeral is "0". */
  function Digits(n: nat): (s: string)
    ensures 1 <= |s| && AllDigits(s)
    ensures s[0] == '0' <==> n == 0
    ensures n == 0 ==> s == "0"
  {
    if n < 10 then [DigitChar(n)] else Digits(n / 10) + [DigitChar(n % 10)]
  }

  /** The number a string of decimal digits denotes (its most significant digit first). */
  function ValueOf(s: string): nat
    requires AllDigits(s)
  {
    if s == [] then 0 else ValueOf(s[..|s| - 1]) * 10 + (s[|s| - 1] as int - '0' as int)
  }

  /** Reading back the numeral gives the number: `Digits` is a decimal representation. */
  lemma {:induction false} DigitsValue(n: nat)
    ensures ValueOf(Digits(n)) == n
  {
    if n >= 10 {
      var s := Digits(n / 10);
      DigitsValue(n / 10);
      assert (s + [DigitChar(n % 10)])[..|s|] == s;
    }
  }

  /** `toString` of any integer: a '-' in front of the digits of a negative number, and
      the digits themselves canonical (at least one, no leading zero except in "0"). */
  function NumberText(n: int): (s: string)
    ensures n >= 0 ==> |s| >= 1 && AllDigits(s) && ValueOf(s) == n && (s[0] == '0' <==> n == 0)
    ensures n < 0 ==> |s| >= 2 && s[0] == '-' && s[1] != '0' && AllDigits(s[1..]) && ValueOf(s[1..]) == -n
    ensures n == 0 ==> s == "0"
  {
    var m := if n < 0 then -n else n;
    DigitsValue(m);
    if n < 0 then
      assert ("-" + Digits(m))[1..] == Digits(m);
      "-" + Digits(m)
    else Digits(m)
  }

  /** The effect of `replace(/\B(?=(\d{3})+(?!\d))/g, ".")` on a run of digits `t`.
      A '.' goes in front of the digit t[0] exactly when that position is not a word
      boundary (`afterDigit`: a digit stands just before it; the start of the string and a
      '-' sign are not word characters, so the first digit never gets one) and the digits
      from t[0] to the end of the run number a positive multiple of three. */
  function Separate(t: string, afterDigit: bool): (r: string)
    ensures t != [] && !afterDigit ==> |r| > 0 && r[0] == t[0]
  {
    if t == [] then []
    else (if afterDigit && |t| % 3 == 0 then "." else "") + [t[0]] + Separate(t[1..], true)
  }

  /** Digit grouping stated from the right: peel off the last three digits, group the rest. */
  function Group(t: string): string
  {
    if |t| <= 3 then t else Group(t[..|t| - 3]) + "." + t[|t| - 3..]
  }

  /** The separator regex applied to a whole `toString` text: a leading '-' is not a word
      character, so the digit run after it starts at a word boundary just as at the start. */
  function SeparateText(s: string): (r: string)
    ensures s != [] ==> |r| > 0 && r[0] == s[0]
  {
    if s != [] && s[0] == '-' then "-" + Separate(s[1..], false) else Separate(s, false)
  }

  /** The amount as shown in the cart: `Rp ${price.toString().replace(...)}`. */
  function FormatRupiah(price: int): (r: string)
    ensures |r| > 3 && r[..3] == "Rp "
  {
    "Rp " + SeparateText(NumberText(price))
  }

  /** Deleting the separators from a string. */
  function StripDots(s: string): string
  {
    if s == [] then [] else (if s[0] == '.' then [] else [s[0]]) + StripDots(s[1..])
  }

  /** `s` is digit groups joined by '.': every group has exactly three digits except the
      first, which has one to three. Stated from the right end. */
  predicate WellGrouped(s: string)
  {
    if |s| <= 3 then 1 <= |s| && AllDigits(s)
    else 5 <= |s| && s[|s| - 4] == '.' && AllDigits(s[|s| - 3..]) && WellGrouped(s[..|s| - 4])
  }

  lemma {:induction false} SeparateShort(t: string, afterDigit: bool)
    requires |t| < 3
    ensures Separate(t, afterDigit) == t
  {
    if t != [] {
      SeparateShort(t[1..], true);
    }
  }

  lemma {:induction false} SeparateLeading(t: string)
    requires |t| <= 3
    ensures Separate(t, false) == t
  {
    if t != [] {
      SeparateShort(t[1..], true);
    }
  }

  // Arithmetic step only, kept apart so that the grouping proofs stay cheap for the solver.
  lemma ModThreeShift(x: nat, y: nat)
    requires y % 3 == 0
    ensures (x + y) % 3 == x % 3
  {
    var k := y / 3;
    assert y == 3 * k;
  }

  /** The regex decides every position by the digits to its right only, so a run can be cut
      in front of a block whose length is a multiple of three. */
  lemma {:induction false} SeparateSplit(a: string, b: string, afterDigit: bool)
    requires |b| % 3 == 0
    ensures Separate(a + b, afterDigit) == Separate(a, afterDigit) + Separate(b, afterDigit || a != [])
  {
    if a == [] {
      assert a + b == b;
    } else {
      assert (a + b)[0] == a[0];
      assert (a + b)[1..] == a[1..] + b;
      ModThreeShift(|a|, |b|);
      SeparateSplit(a[1..], b, true);
    }
  }

  /** The regex replacement and the right-to-left grouping agree on every run of digits. */
  lemma {:induction false} SeparateIsGroup(t: string)
    ensures Separate(t, false) == Group(t)
    decreases |t|
  {
    if |t| <= 3 {
      SeparateLeading(t);
    } else {
      var a, b := t[..|t| - 3], t[|t| - 3..];
      assert t == a + b;
      SeparateSplit(a, b, false);
      SeparateShort(b[1..], true);
      assert Separate(b, true) == "." + b;
      SeparateIsGroup(a);
    }
  }

  lemma {:induction false} StripDotsConcat(x: string, y: string)
    ensures StripDots(x + y) == StripDots(x) + StripDots(y)
  {
    if x == [] {
      assert x + y == y;
    } else {
      assert (x + y)[0] == x[0];
      assert (x + y)[1..] == x[1..] + y;
      StripDotsConcat(x[1..], y);
    }
  }

  lemma {:induction false} StripDotsDigits(t: string)
    requires AllDigits(t)
    ensures StripDots(t) == t
  {
    if t != [] {
      StripDotsDigits(t[1..]);
    }
  }

  /** Deleting the dots from two parts joined by a '.' deletes them from the first part. */
  lemma StripDotsJoin(g: string, b: string)
    requires AllDigits(b)
    ensures StripDots(g + "." + b) == StripDots(g) + b
  {
    assert g + "." + b == g + ("." + b);
    StripDotsConcat(g, "." + b);
    StripDotsConcat(".", b);
    StripDotsDigits(b);
  }

  /** Grouping a non-empty run of digits gives well-formed groups. */
  lemma {:induction false} GroupWellGrouped(t: string)
    requires 1 <= |t| && AllDigits(t)
    ensures WellGrouped(Group(t))
    decreases |t|
  {
    if |t| > 3 {
      var a, b := t[..|t| - 3], t[|t| - 3..];
      assert AllDigits(a) && AllDigits(b);
      GroupWellGrouped(a);
      var g := Group(a);
      var r := g + "." + b;
      assert Group(t) == r;
      assert |g| >= 1;
      assert r[|r| - 4] == '.' && r[|r| - 3..] == b && r[..|r| - 4] == g;
    }
  }

  /** Grouping only inserts separators: deleting them gives the digits back. */
  lemma {:induction false} GroupStripDots(t: string)
    requires AllDigits(t)
    ensures StripDots(Group(t)) == t
    decreases |t|
  {
    if |t| <= 3 {
      StripDotsDigits(t);
    } else {
      var a, b := t[..|t| - 3], t[|t| - 3..];
      assert AllDigits(a) && AllDigits(b);
      assert t == a + b;
      GroupStripDots(a);
      StripDotsJoin(Group(a), b);
    }
  }

  /** What `formatRupiah` promises for any integer: after the "Rp " prefix (and a '-' for a
      negative amount) come well-formed digit groups which, with the dots deleted, are
      exactly the decimal numeral of the amount. */
  lemma FormatRupiahShape(price: int)
    ensures price >= 0 ==>
      var g := FormatRupiah(price)[3..];
      WellGrouped(g) && StripDots(g) == Digits(price) && ValueOf(StripDots(g)) == price
    ensures price < 0 ==>
      var g := FormatRupiah(price)[4..];
      FormatRupiah(price)[3] == '-' && WellGrouped(g) && StripDots(g) == Digits(-price)
  {
    var n := if price < 0 then -price else price;
    var t := Separate(Digits(n), false);
    if price < 0 {
      assert NumberText(price)[1..] == Digits(n);
    } else {
      assert IsDigit(NumberText(price)[0]);
    }
    assert FormatRupiah(price)[3..] == (if price < 0 then "-" + t else t);
    assert price < 0 ==> FormatRupiah(price)[4..] == t;
    SeparateIsGroup(Digits(n));
    GroupWellGrouped(Digits(n));
    GroupStripDots(Digits(n));
    DigitsValue(n);
  }

  /** Amounts below one thousand get no separator. */
  lemma FormatRupiahSmall(price: nat)
    requires price < 1000
    ensures FormatRupiah(price) == "Rp " + Digits(price)
  {
    SeparateIsGroup(Digits(price));
    assert |Digits(price)| <= 3 by {
      if price >= 10 {
        assert |Digits(price / 10)| == if price / 10 < 10 then 1 else 2;
      }
    }
  }

  /** A hundred thousand rupiah is written "Rp 100.000". */
  lemma FormatRupiahHundredThousand()
    ensures FormatRupiah(100000) == "Rp 100.000"
  {
    DigitsHundredThousand();
    SeparateIsGroup("100000");
    assert Group("100000") == "100.000" by {
      assert "100000"[..3] == "100" && "100000"[3..] == "000";
    }
  }

  lemma DigitsHundredThousand()
    ensures Digits(100000) == "100000"
  {
    assert Digits(1) == "1";
    assert Digits(10) == "10";
    assert Digits(100) == "100";
    assert Digits(1000) == "1000";
    assert Digits(10000) == "10000";
  }
}
