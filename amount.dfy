/**
 * `parseFloat` of the pay amount (components/CryptoCheckoutModal.tsx, the
 * exchange-rate effect and the step-1 validation). The amount only ever holds
 * strings the currency input accepts (digits with at most one '.'), so the
 * parse is modelled on those strings only, as an exact decimal value: the
 * integer digits before the '.' plus the fraction digits after it.
 */
module Amount {
  import opened CurrencyInput

  /** The result of `parseFloat`: `NaN`, or the decimal number `units / 10^scale`. */
  datatype Parsed = NaN | Num(units: nat, scale: nat)

  function DigitValue(c: char): nat
  {
    if IsDigit(c) then c as int - '0' as int else 0
  }

  /** The value of a string of decimal digits, most significant first. */
  function DigitsValue(ds: string): nat
  {
    if ds == [] then 0 else DigitsValue(ds[..|ds| - 1]) * 10 + DigitValue(ds[|ds| - 1])
  }

  function Pow10(n: nat): (p: nat)
    ensures p > 0
  {
    if n == 0 then 1 else 10 * Pow10(n - 1)
  }

  /** The index of the first '.', or |s| when there is none. */
  function DotIndex(s: string): (i: nat)
    ensures i <= |s|
  {
    if s == [] || s[0] == '.' then 0 else 1 + DotIndex(s[1..])
  }

  /** DotIndex finds the first '.': none comes before it, and it is one unless it is |s|. */
  lemma {:induction false} DotIndexFirst(s: string)
    ensures forall j :: 0 <= j < DotIndex(s) ==> s[j] != '.'
    ensures DotIndex(s) < |s| ==> s[DotIndex(s)] == '.'
  {
    if s != [] && s[0] != '.' {
      DotIndexFirst(s[1..]);
      assert forall j :: 1 <= j < |s| ==> s[j] == s[1..][j - 1];
    }
  }

  /** The digits before the '.'. */
  function IntegerPart(s: string): string
  {
    s[..DotIndex(s)]
  }

  /** The digits after the '.', empty when there is no '.'. */
  function FractionPart(s: string): string
  {
    if DotIndex(s) < |s| then s[DotIndex(s) + 1..] else ""
  }

  /**
   * `parseFloat` on an accepted amount: `NaN` when there is no digit on either
   * side of the '.' ("" and "."), otherwise the decimal value ("5." is 5, ".5" is 0.5).
   */
  function Parse(s: string): Parsed
    requires Accepted(s)
  {
    var whole, frac := IntegerPart(s), FractionPart(s);
    if whole == [] && frac == [] then NaN
    else Num(DigitsValue(whole + frac), |frac|)
  }

  /** The value of a parsed number. */
  function Value(p: Parsed): real
    requires p.Num?
  {
    p.units as real / Pow10(p.scale) as real
  }

  /** A parsed number is greater than 0 exactly when its digits are not all '0'. */
  lemma ValuePositiveIff(p: Parsed)
    requires p.Num?
    ensures Value(p) > 0.0 <==> p.units > 0
  {
    var d := Pow10(p.scale) as real;
    assert d > 0.0;
    if p.units > 0 {
      assert p.units as real / d > 0.0;
    }
  }

  predicate HasDigit(s: string)
  {
    exists i :: 0 <= i < |s| && IsDigit(s[i])
  }

  predicate HasNonZeroDigit(s: string)
  {
    exists i :: 0 <= i < |s| && '1' <= s[i] <= '9'
  }

  /**
   * The amount parses to a number greater than 0 (the `greater(0)` rule of the
   * step-1 schema), stated on the digits: see ValuePositiveIff.
   */
  predicate Positive(s: string)
    requires Accepted(s)
  {
    Parse(s).Num? && Parse(s).units > 0
  }

  /** A string with no dot in it. */
  lemma {:induction false} DotCountZero(s: string)
    ensures DotCount(s) == 0 <==> forall j :: 0 <= j < |s| ==> s[j] != '.'
  {
    if s != [] {
      DotCountZero(s[1..]);
      assert forall j :: 1 <= j < |s| ==> s[j] == s[1..][j - 1];
    }
  }

  lemma {:induction false} DotCountAppend(a: string, b: string)
    ensures DotCount(a + b) == DotCount(a) + DotCount(b)
  {
    if a == [] {
      assert a + b == b;
    } else {
      DotCountAppend(a[1..], b);
      assert (a + b)[0] == a[0];
      assert (a + b)[1..] == a[1..] + b;
    }
  }

  /** In an accepted amount no '.' follows the first one. */
  lemma NoSecondDot(s: string)
    requires Accepted(s)
    ensures forall j :: DotIndex(s) < j < |s| ==> s[j] != '.'
  {
    MatchesFromIff(s, false);
    DotIndexFirst(s);
    var i := DotIndex(s);
    if i < |s| {
      assert s == s[..i + 1] + s[i + 1..];
      DotCountAppend(s[..i + 1], s[i + 1..]);
      assert s[..i + 1] == s[..i] + [s[i]];
      DotCountAppend(s[..i], [s[i]]);
      assert DotCount([s[i]]) == 1;
      DotCountZero(s[i + 1..]);
      forall j | i < j < |s| ensures s[j] != '.' {
        assert s[j] == s[i + 1..][j - i - 1];
      }
    }
  }

  /** Both parts of an accepted amount are digit strings. */
  lemma PartsAreDigits(s: string)
    requires Accepted(s)
    ensures forall j :: 0 <= j < |IntegerPart(s)| ==> IsDigit(IntegerPart(s)[j])
    ensures forall j :: 0 <= j < |FractionPart(s)| ==> IsDigit(FractionPart(s)[j])
  {
    MatchesFromIff(s, false);
    DotIndexFirst(s);
    NoSecondDot(s);
  }

  /** `parseFloat` gives NaN on an accepted amount exactly when it has no digit. */
  lemma ParseNaNIff(s: string)
    requires Accepted(s)
    ensures Parse(s).NaN? <==> !HasDigit(s)
  {
    PartsAreDigits(s);
    DotIndexFirst(s);
    var i := DotIndex(s);
    var whole, frac := IntegerPart(s), FractionPart(s);
    if whole != [] {
      assert s[0] == whole[0];
    }
    if frac != [] {
      assert s[i + 1] == frac[0];
    }
    if HasDigit(s) {
      var j :| 0 <= j < |s| && IsDigit(s[j]);
      if j < i {
        assert whole[j] == s[j];
      } else {
        assert frac[j - i - 1] == s[j];
      }
    }
  }

  /** A digit string has a positive value exactly when one of its digits is not '0'. */
  lemma {:induction false} DigitsValuePositive(ds: string)
    ensures DigitsValue(ds) > 0 <==> HasNonZeroDigit(ds)
  {
    if ds != [] {
      var init := ds[..|ds| - 1];
      DigitsValuePositive(init);
      assert forall j :: 0 <= j < |init| ==> init[j] == ds[j];
      if HasNonZeroDigit(ds) {
        var j :| 0 <= j < |ds| && '1' <= ds[j] <= '9';
        if j < |init| {
          assert '1' <= init[j] <= '9';
        }
      }
    }
  }

  /** An accepted amount parses to a number greater than 0 exactly when it has a digit other than '0'. */
  lemma ParsePositiveIff(s: string)
    requires Accepted(s)
    ensures Positive(s) <==> HasNonZeroDigit(s)
    ensures Parse(s).Num? ==> (Value(Parse(s)) > 0.0 <==> HasNonZeroDigit(s))
  {
    NoSecondDot(s);
    DotIndexFirst(s);
    var i := DotIndex(s);
    var whole, frac := IntegerPart(s), FractionPart(s);
    var digits := whole + frac;
    DigitsValuePositive(digits);
    if Parse(s).Num? {
      ValuePositiveIff(Parse(s));
    }
    if HasNonZeroDigit(s) {
      var j :| 0 <= j < |s| && '1' <= s[j] <= '9';
      if j < i {
        assert '1' <= digits[j] <= '9';
      } else {
        assert '1' <= digits[|whole| + j - i - 1] <= '9';
      }
    }
    if HasNonZeroDigit(digits) {
      var j :| 0 <= j < |digits| && '1' <= digits[j] <= '9';
      if j < |whole| {
        assert s[j] == digits[j];
      } else {
        assert s[i + 1 + j - |whole|] == digits[j];
      }
    }
  }

  /** The default amount "0.10" parses to 0.1. */
  lemma ParseDefault()
    ensures Accepted("0.10") && Parse("0.10") == Num(10, 2) && Value(Parse("0.10")) == 0.1
  {
    assert MatchesFrom("0.10", false) by {
      assert "0.10"[1..] == ".10" && ".10"[1..] == "10" && "10"[1..] == "0" && "0"[1..] == "";
    }
    assert DotIndex("0.10") == 1 by {
      assert "0.10"[1..] == ".10";
    }
    assert IntegerPart("0.10") == "0";
    assert FractionPart("0.10") == "10";
    assert "0" + "10" == "010";
    assert DigitsValue("010") == 10 by {
      assert "010"[..2] == "01" && "01"[..1] == "0" && "0"[..0] == "";
    }
    assert Pow10(2) == 100;
  }
}
