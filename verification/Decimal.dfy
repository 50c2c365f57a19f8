/** Decimal numerals: rendering, zero padding and parsing. */
module Decimal {

  predicate IsDigit(c: char) {
    '0' <= c <= '9'
  }

  predicate AllDigits(s: string) {
    forall i :: 0 <= i < |s| ==> IsDigit(s[i])
  }

  function DigitChar(d: nat): (c: char)
    requires d < 10
    ensures IsDigit(c) && DigitValue(c) == d
  {
    '0' + d as char
  }

  function DigitValue(c: char): (d: nat)
    requires IsDigit(c)
    ensures d < 10
  {
    (c as int - '0' as int) as nat
  }

  function Render(n: nat): (s: string)
    ensures s != "" && AllDigits(s)
  {
    if n < 10 then [DigitChar(n)] else Render(n / 10) + [DigitChar(n % 10)]
  }

  function Parse(s: string): nat
    requires AllDigits(s)
  {
    if s == "" then 0 else 10 * Parse(s[..|s| - 1]) + DigitValue(s[|s| - 1])
  }

  /** A numeral without superfluous leading zeros. */
  predicate Canonical(s: string) {
    s != "" && AllDigits(s) && (|s| > 1 ==> s[0] != '0')
  }

  lemma {:induction false} ParseRender(n: nat)
    ensures Parse(Render(n)) == n
    ensures Canonical(Render(n)) && (Render(n)[0] == '0' ==> n == 0)
  {
    if n >= 10 {
      ParseRender(n / 10);
      var front := Render(n / 10);
      assert Render(n) == front + [DigitChar(n % 10)];
      assert Render(n)[..|Render(n)| - 1] == front;
    }
  }

  lemma {:induction false} RenderParse(s: string)
    requires Canonical(s)
    ensures Render(Parse(s)) == s
    ensures s[0] != '0' ==> Parse(s) > 0
  {
    var front, last := s[..|s| - 1], s[|s| - 1];
    assert s == front + [last];
    if front == "" {
      assert Parse(front) == 0 && Parse(s) == DigitValue(last);
      assert DigitChar(DigitValue(last)) == last;
    } else {
      assert front[0] == s[0];
      RenderParse(front);
      assert Parse(s) == 10 * Parse(front) + DigitValue(last);
      assert Parse(s) / 10 == Parse(front) && Parse(s) % 10 == DigitValue(last);
      assert DigitChar(DigitValue(last)) == last;
    }
  }

  /** `{n:04d}` */
  function Pad4(n: nat): (s: string)
    ensures AllDigits(s)
  {
    var s := Render(n);
    if |s| == 1 then "000" + s else if |s| == 2 then "00" + s else if |s| == 3 then "0" + s else s
  }

  lemma {:induction false} LeadingZero(s: string)
    requires AllDigits(s)
    ensures AllDigits("0" + s) && Parse("0" + s) == Parse(s)
  {
    var t := "0" + s;
    if s == "" {
      assert t[..|t| - 1] == "";
    } else {
      LeadingZero(s[..|s| - 1]);
      assert t[..|t| - 1] == "0" + s[..|s| - 1];
    }
  }

  lemma ParsePad4(n: nat)
    ensures Parse(Pad4(n)) == n
  {
    ParseRender(n);
    var s := Render(n);
    LeadingZero(s);
    LeadingZero("0" + s);
    LeadingZero("00" + s);
    assert "0" + ("0" + s) == "00" + s && "0" + ("00" + s) == "000" + s;
  }

  lemma {:induction false} RenderLength(n: nat)
    ensures n < 10 <==> |Render(n)| == 1
    ensures n < 100 <==> |Render(n)| <= 2
    ensures n < 1000 <==> |Render(n)| <= 3
    ensures n < 10000 <==> |Render(n)| <= 4
  {
    if n >= 10 {
      RenderLength(n / 10);
    }
  }

  /** The padded form has four digits exactly below ten thousand. */
  lemma Pad4Length(n: nat)
    ensures |Pad4(n)| == 4 <==> n < 10000
    ensures |Pad4(n)| >= 4
  {
    RenderLength(n);
  }
}
