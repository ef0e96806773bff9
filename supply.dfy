/**
 * The supply formatter: an exact integer supply in the token's smallest
 * unit, divided by 10^decimals, rendered as a decimal string using integer
 * division and remainder only.
 */
module Supply {
  import opened Optional
  import opened Text
  import opened Token

  /** Integer division and remainder, as BigInt's `/` and `%` give them for non-negative operands. */
  function DivMod(n: nat, divisor: nat): (qr: (nat, nat))
    requires divisor >= 1
    ensures qr.0 * divisor + qr.1 == n && qr.1 < divisor
  {
    (n / divisor, n % divisor)
  }

  /** `s.padStart(width, '0')`: left-pads `s` with zeros up to `width` characters. */
  function PadStart(s: string, width: nat): (r: string)
    ensures |r| == if |s| < width then width else |s|
  {
    if |s| < width then Zeros(width - |s|) + s else s
  }

  /** Padding puts zeros on the left of `s` and keeps `s` itself as the tail. */
  lemma PadStartContent(s: string, width: nat)
    ensures var r := PadStart(s, width);
      && (forall i :: 0 <= i < |r| - |s| ==> r[i] == '0')
      && r[|r| - |s|..] == s
  {
    var r := PadStart(s, width);
    if |s| >= width {
      assert r[|r| - |s|..] == r;
    }
  }

  /** `s.padEnd(width, '0')` on a digit string no longer than `width`. */
  function PadEnd(s: string, width: nat): (r: string)
    requires AllDigits(s) && |s| <= width
    ensures |r| == width && AllDigits(r) && r[..|s|] == s
  {
    var r := s + Zeros(width - |s|);
    assert AllDigits(r) by {
      forall i | 0 <= i < |r| ensures IsDigit(r[i]) {
        if i >= |s| { assert r[i] == Zeros(width - |s|)[i - |s|]; }
      }
    }
    r
  }

  /** `s.replace(/0+$/, '')`: drops the zeros at the end of `s`. */
  function StripTrailingZeros(s: string): (r: string)
    ensures |r| <= |s| && r == s[..|r|]
    ensures r == [] || r[|r| - 1] != '0'
  {
    if s != [] && s[|s| - 1] == '0' then StripTrailingZeros(s[..|s| - 1]) else s
  }

  /** Every character stripped was a '0'. */
  lemma {:induction false} StrippedAreZeros(s: string, i: nat)
    requires |StripTrailingZeros(s)| <= i < |s|
    ensures s[i] == '0'
  {
    if s[|s| - 1] == '0' && i < |s| - 1 {
      StrippedAreZeros(s[..|s| - 1], i);
    }
  }

  /**
   * `formatSupplyWithDecimals`. A supply that is not a decimal digit string,
   * or a negative decimals count, makes the computation throw, which the
   * formatter reports as "Error".
   */
  function FormatSupply(supply: string, decimals: int): (r: string)
    ensures r == ErrorText <==> !AllDigits(supply) || decimals < 0
  {
    if !AllDigits(supply) || decimals < 0 then ErrorText
    else
      var (whole, remainder) := DivMod(Value(supply), Pow10(decimals));
      var w := NatToDigits(whole);
      assert w[0] != ErrorText[0] by { assert IsDigit(w[0]); }
      if remainder == 0 then w
      else w + "." + StripTrailingZeros(PadStart(NatToDigits(remainder), decimals))
  }

  /** Splits a rendered amount at its first '.', if any. */
  function SplitAtDot(s: string): (parts: (string, Option<string>))
    ensures |parts.0| <= |s|
  {
    if s == [] then ([], None)
    else if s[0] == '.' then ([], Some(s[1..]))
    else
      var rest := SplitAtDot(s[1..]);
      ([s[0]] + rest.0, rest.1)
  }

  /**
   * Reads a rendered amount back into smallest units: the whole part times
   * 10^decimals plus the fractional digits right-padded with zeros to
   * `decimals` places. None when the text is not of that shape.
   */
  function Unformat(text: string, decimals: nat): Option<nat> {
    var (w, f) := SplitAtDot(text);
    if w == [] || !AllDigits(w) then None
    else match f
      case None => Some(Value(w) * Pow10(decimals))
      case Some(frac) =>
        if AllDigits(frac) && |frac| <= decimals
        then Some(Value(w) * Pow10(decimals) + Value(PadEnd(frac, decimals)))
        else None
  }

  lemma {:induction false} SplitAtDotDigits(w: string, f: string)
    requires AllDigits(w)
    ensures SplitAtDot(w) == (w, None)
    ensures SplitAtDot(w + "." + f) == (w, Some(f))
  {
    if w != [] {
      SplitAtDotDigits(w[1..], f);
      assert (w + "." + f)[1..] == w[1..] + "." + f;
      assert [w[0]] + w[1..] == w;
    } else {
      assert w + "." + f == ['.'] + f;
    }
  }

  /**
   * The fractional part of the rendering of a nonzero remainder below
   * 10^decimals: at most `decimals` digits, never empty, never ending in
   * '0', and right-padding it back to `decimals` places restores the
   * remainder.
   */
  lemma FractionDigits(remainder: nat, decimals: nat)
    requires 0 < remainder < Pow10(decimals)
    ensures var f := StripTrailingZeros(PadStart(NatToDigits(remainder), decimals));
      && 1 <= |f| <= decimals && AllDigits(f) && f[|f| - 1] != '0'
      && Value(PadEnd(f, decimals)) == remainder
  {
    PaddedRemainder(remainder, decimals);
    StrippedNonzero(PadStart(NatToDigits(remainder), decimals));
  }

  /** Left-padding a remainder below 10^decimals gives exactly `decimals` digits of the same value. */
  lemma PaddedRemainder(remainder: nat, decimals: nat)
    requires 0 < remainder < Pow10(decimals)
    ensures var p := PadStart(NatToDigits(remainder), decimals);
      |p| == decimals && AllDigits(p) && Value(p) == remainder
  {
    assert decimals >= 1;
    NatToDigitsLength(remainder, decimals);
    var digits := NatToDigits(remainder);
    PadStartContent(digits, decimals);
    assert PadStart(digits, decimals) == Zeros(decimals - |digits|) + digits;
    ValueLeadingZeros(decimals - |digits|, digits);
  }

  /**
   * Stripping the trailing zeros of a digit string of nonzero value leaves
   * a nonempty string not ending in '0' that pads back to the same value.
   */
  lemma StrippedNonzero(p: string)
    requires AllDigits(p) && Value(p) > 0
    ensures var f := StripTrailingZeros(p);
      && 1 <= |f| <= |p| && AllDigits(f) && f[|f| - 1] != '0'
      && Value(PadEnd(f, |p|)) == Value(p)
  {
    var f := StripTrailingZeros(p);
    assert AllDigits(f) by {
      forall i | 0 <= i < |f| ensures IsDigit(f[i]) { assert f[i] == p[i]; }
    }
    StripThenPad(p);
    assert PadEnd(f, |p|) == p;
    if f == [] {
      assert p == Zeros(|p|);
      ValueOfZeros(|p|);
      assert false;
    }
  }

  /** Putting back as many zeros as were stripped restores the string. */
  lemma StripThenPad(s: string)
    ensures var r := StripTrailingZeros(s); r + Zeros(|s| - |r|) == s
  {
    var r := StripTrailingZeros(s);
    var t := r + Zeros(|s| - |r|);
    assert |t| == |s|;
    forall i | 0 <= i < |s| ensures t[i] == s[i] {
      if i >= |r| {
        assert t[i] == Zeros(|s| - |r|)[i - |r|];
        StrippedAreZeros(s, i);
      }
    }
  }

  /**
   * The shape of a rendered supply: the whole part is the quotient, and a
   * '.' with a fractional part appears exactly when the remainder is
   * nonzero; that part then has at most `decimals` digits and does not end
   * in '0'.
   */
  lemma FormatShape(supply: string, decimals: nat)
    requires AllDigits(supply)
    ensures var (w, f) := SplitAtDot(FormatSupply(supply, decimals));
      && w == NatToDigits(DivMod(Value(supply), Pow10(decimals)).0)
      && (f.None? <==> DivMod(Value(supply), Pow10(decimals)).1 == 0)
      && (f.Some? ==> 1 <= |f.value| <= decimals && AllDigits(f.value)
                      && f.value[|f.value| - 1] != '0')
  {
    var (whole, remainder) := DivMod(Value(supply), Pow10(decimals));
    var w := NatToDigits(whole);
    if remainder == 0 {
      assert FormatSupply(supply, decimals) == w;
      SplitAtDotDigits(w, []);
    } else {
      var f := StripTrailingZeros(PadStart(NatToDigits(remainder), decimals));
      assert FormatSupply(supply, decimals) == w + "." + f;
      FractionDigits(remainder, decimals);
      SplitAtDotDigits(w, f);
    }
  }

  /** Reading the rendering back gives the supply it was made from. */
  lemma SupplyRoundTrip(supply: string, decimals: nat)
    requires AllDigits(supply)
    ensures Unformat(FormatSupply(supply, decimals), decimals) == Some(Value(supply))
  {
    if DivMod(Value(supply), Pow10(decimals)).1 == 0 {
      RoundTripWhole(supply, decimals);
    } else {
      RoundTripFraction(supply, decimals);
    }
  }

  lemma RoundTripWhole(supply: string, decimals: nat)
    requires AllDigits(supply) && DivMod(Value(supply), Pow10(decimals)).1 == 0
    ensures Unformat(FormatSupply(supply, decimals), decimals) == Some(Value(supply))
  {
    var (whole, remainder) := DivMod(Value(supply), Pow10(decimals));
    var w := NatToDigits(whole);
    assert FormatSupply(supply, decimals) == w;
    UnformatWhole(w, decimals);
  }

  lemma RoundTripFraction(supply: string, decimals: nat)
    requires AllDigits(supply) && DivMod(Value(supply), Pow10(decimals)).1 != 0
    ensures Unformat(FormatSupply(supply, decimals), decimals) == Some(Value(supply))
  {
    var (whole, remainder) := DivMod(Value(supply), Pow10(decimals));
    var w := NatToDigits(whole);
    var f := StripTrailingZeros(PadStart(NatToDigits(remainder), decimals));
    assert FormatSupply(supply, decimals) == w + "." + f;
    FractionDigits(remainder, decimals);
    UnformatWithFraction(w, f, decimals);
  }

  lemma UnformatWhole(w: string, decimals: nat)
    requires w != [] && AllDigits(w)
    ensures Unformat(w, decimals) == Some(Value(w) * Pow10(decimals))
  {
    SplitAtDotDigits(w, []);
  }

  lemma UnformatWithFraction(w: string, f: string, decimals: nat)
    requires w != [] && AllDigits(w) && AllDigits(f) && |f| <= decimals
    ensures Unformat(w + "." + f, decimals)
         == Some(Value(w) * Pow10(decimals) + Value(PadEnd(f, decimals)))
  {
    SplitAtDotDigits(w, f);
  }

  /** With no decimals the rendering is the supply's own canonical digits. */
  lemma NoDecimalsIsWhole(supply: string)
    requires AllDigits(supply)
    ensures FormatSupply(supply, 0) == NatToDigits(Value(supply))
  {
    assert DivMod(Value(supply), Pow10(0)).1 == 0;
  }
}
