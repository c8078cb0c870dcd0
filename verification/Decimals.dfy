/** Decimal notation of numbers, as `String(n)` and `Number(text)` use it. */
module Decimals {
  predicate IsDigit(c: char) { '0' <= c <= '9' }

  predicate IsDigits(text: string) { forall c <- text :: IsDigit(c) }

  function DigitChar(d: nat): char
    requires d < 10
  {
    '0' + d as char
  }

  function DigitValue(c: char): (d: nat)
    requires IsDigit(c)
    ensures d < 10 && DigitChar(d) == c
  {
    (c - '0') as nat
  }

  function FromNat(n: nat): (text: string)
    ensures IsDigits(text) && |text| > 0
  {
    if n < 10 then [DigitChar(n)] else FromNat(n / 10) + [DigitChar(n % 10)]
  }

  function FromInt(n: int): string {
    if n < 0 then "-" + FromNat(-n) else FromNat(n)
  }

  function ToNat(text: string): nat
    requires IsDigits(text)
  {
    if text == "" then 0
    else ToNat(text[..|text| - 1]) * 10 + DigitValue(text[|text| - 1])
  }

  function Zeros(n: nat): (text: string)
    ensures |text| == n && IsDigits(text)
  {
    if n == 0 then "" else "0" + Zeros(n - 1)
  }

  /** `text.padStart(width, "0")`. */
  function PadStart(text: string, width: nat): string {
    if |text| >= width then text else Zeros(width - |text|) + text
  }

  lemma ToNatAppend(text: string, c: char)
    requires IsDigits(text) && IsDigit(c)
    ensures IsDigits(text + [c]) && ToNat(text + [c]) == ToNat(text) * 10 + DigitValue(c)
  {
    assert (text + [c])[..|text|] == text;
  }

  /** Reading a printed number gives it back. */
  lemma {:induction false} ReadPrinted(n: nat)
    ensures ToNat(FromNat(n)) == n
  {
    if n < 10 {
      assert FromNat(n) == "" + [DigitChar(n)];
      ToNatAppend("", DigitChar(n));
    } else {
      ReadPrinted(n / 10);
      ToNatAppend(FromNat(n / 10), DigitChar(n % 10));
    }
  }

  lemma {:induction false} ZerosAreZero(n: nat)
    ensures ToNat(Zeros(n)) == 0
  {
    if n > 0 {
      ZerosFromBack(n);
      ZerosAreZero(n - 1);
      ToNatAppend(Zeros(n - 1), '0');
    }
  }

  lemma {:induction false} ZerosCountNothing(n: nat, text: string)
    requires IsDigits(text)
    ensures IsDigits(Zeros(n) + text) && ToNat(Zeros(n) + text) == ToNat(text)
    decreases |text|
  {
    hide Zeros;
    if text == "" {
      assert Zeros(n) + text == Zeros(n);
      ZerosAreZero(n);
    } else {
      var init, last := text[..|text| - 1], text[|text| - 1];
      ZerosCountNothing(n, init);
      assert Zeros(n) + text == Zeros(n) + init + [last];
      ToNatAppend(Zeros(n) + init, last);
    }
  }

  lemma {:induction false} ZerosFromBack(n: nat)
    requires n > 0
    ensures Zeros(n) == Zeros(n - 1) + "0"
  {
    if n > 1 {
      ZerosFromBack(n - 1);
      assert "0" + (Zeros(n - 2) + "0") == "0" + Zeros(n - 2) + "0";
    }
  }

  lemma ReadPadded(n: nat, width: nat)
    ensures IsDigits(PadStart(FromNat(n), width)) && ToNat(PadStart(FromNat(n), width)) == n
    ensures |PadStart(FromNat(n), width)| == if |FromNat(n)| >= width then |FromNat(n)| else width
  {
    ReadPrinted(n);
    if |FromNat(n)| < width { ZerosCountNothing(width - |FromNat(n)|, FromNat(n)); }
  }

  lemma LastDigit(n: nat, d: nat)
    requires d < 10
    ensures (n * 10 + d) / 10 == n && (n * 10 + d) % 10 == d
  {
  }

  lemma {:induction false} PrintedLength(text: string)
    requires IsDigits(text) && |text| > 0
    ensures |FromNat(ToNat(text))| <= |text|
    decreases |text|
  {
    var init, last := text[..|text| - 1], text[|text| - 1];
    var n := ToNat(text);
    LastDigit(ToNat(init), DigitValue(last));
    assert n / 10 == ToNat(init) && n % 10 == DigitValue(last);
    if n >= 10 { PrintedLength(init); }
  }

  /** Digits of one length are told apart by their value. */
  lemma {:induction false} SameValueSameDigits(a: string, b: string)
    requires IsDigits(a) && IsDigits(b) && |a| == |b| && ToNat(a) == ToNat(b)
    ensures a == b
    decreases |a|
  {
    if a != "" {
      var k := |a| - 1;
      LastDigit(ToNat(a[..k]), DigitValue(a[k]));
      LastDigit(ToNat(b[..k]), DigitValue(b[k]));
      assert ToNat(a) / 10 == ToNat(a[..k]) && ToNat(b) / 10 == ToNat(b[..k]);
      SameValueSameDigits(a[..k], b[..k]);
      assert DigitChar(DigitValue(a[k])) == DigitChar(DigitValue(b[k]));
      assert a == a[..k] + [a[k]] && b == b[..k] + [b[k]];
    }
  }

  /** Printing what was read, padded to its width, gives the digits back. */
  lemma PrintRead(text: string)
    requires IsDigits(text) && |text| > 0
    ensures |FromNat(ToNat(text))| <= |text| && PadStart(FromNat(ToNat(text)), |text|) == text
  {
    PrintedLength(text);
    ReadPadded(ToNat(text), |text|);
    SameValueSameDigits(PadStart(FromNat(ToNat(text)), |text|), text);
  }
}
