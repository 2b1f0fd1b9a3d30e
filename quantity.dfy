/**
 * Resource quantities such as `100m`, `2G`, `60Gi` or `1`: an optional
 * sign, a decimal integer and a unit suffix. Values are counted in
 * thousandths of a unit, so `100m` is 100 and `1` is 1000 and no fraction
 * is ever needed.
 */
module Quantity {
  import opened Wrappers
  import opened Text

  const Thousand := 1000
  const Kibi := 1024

  /** The multiplier of a unit suffix, in thousandths; None for an unknown suffix. */
  function SuffixFactor(suffix: string): Option<nat> {
    if |suffix| == 0 then Some(Thousand)
    else if |suffix| == 1 then DecimalSuffixFactor(suffix[0])
    else if |suffix| == 2 && suffix[1] == 'i' then BinarySuffixFactor(suffix[0])
    else None
  }

  /** `m` and the decimal prefixes `k`, `M`, `G`, `T`, `P`, `E`. */
  function DecimalSuffixFactor(c: char): Option<nat> {
    if c == 'm' then Some(1)
    else if c == 'k' then Some(Thousand * Thousand)
    else if c == 'M' then Some(Thousand * Thousand * Thousand)
    else if c == 'G' then Some(Thousand * Thousand * Thousand * Thousand)
    else if c == 'T' then Some(Thousand * Thousand * Thousand * Thousand * Thousand)
    else if c == 'P' then Some(Thousand * Thousand * Thousand * Thousand * Thousand * Thousand)
    else if c == 'E' then Some(Thousand * Thousand * Thousand * Thousand * Thousand * Thousand * Thousand)
    else None
  }

  /** The binary prefixes `Ki`, `Mi`, `Gi`, `Ti`, `Pi`, `Ei`, by their first letter. */
  function BinarySuffixFactor(c: char): Option<nat> {
    if c == 'K' then Some(Kibi * Thousand)
    else if c == 'M' then Some(Kibi * Kibi * Thousand)
    else if c == 'G' then Some(Kibi * Kibi * Kibi * Thousand)
    else if c == 'T' then Some(Kibi * Kibi * Kibi * Kibi * Thousand)
    else if c == 'P' then Some(Kibi * Kibi * Kibi * Kibi * Kibi * Thousand)
    else if c == 'E' then Some(Kibi * Kibi * Kibi * Kibi * Kibi * Kibi * Thousand)
    else None
  }

  /** The length of the run of digits `s` starts with. */
  function DigitRun(s: string): (n: nat)
    ensures n <= |s| && IsDecimal(s[..n])
    ensures n < |s| ==> !IsDigit(s[n])
  {
    if s == [] || !IsDigit(s[0]) then 0
    else
      var n := 1 + DigitRun(s[1..]);
      assert s[..n] == [s[0]] + s[1..][..n - 1];
      n
  }

  /** `s` is the digits `s[..n]` followed by a known suffix, together worth `magnitude`. */
  predicate Reads(s: string, n: nat, magnitude: int) {
    && 0 < n <= |s|
    && IsDecimal(s[..n])
    && SuffixFactor(s[n..]).Some?
    && magnitude == DecimalValue(s[..n]) * SuffixFactor(s[n..]).value
  }

  /** `s` is a quantity worth `value`: an optional sign, then digits and a known suffix; `-` negates. */
  predicate QuantityText(s: string, value: int) {
    if |s| > 0 && s[0] == '-' then
      exists n, m :: 0 < n < |s| && Reads(s[1..], n, m) && value == -m
    else if |s| > 0 && s[0] == '+' then
      exists n :: 0 < n < |s| && Reads(s[1..], n, value)
    else
      exists n :: 0 < n <= |s| && Reads(s, n, value)
  }

  /** The magnitude of an unsigned quantity. */
  function ParseUnsigned(s: string): (r: Option<nat>)
    ensures r.Some? ==> |s| > 0 && IsDigit(s[0])
    ensures r.Some? ==> exists n :: Reads(s, n, r.value)
  {
    var n := DigitRun(s);
    if n == 0 then None
    else match SuffixFactor(s[n..])
      case None => None
      case Some(f) =>
        assert Reads(s, n, DecimalValue(s[..n]) * f);
        Some(DecimalValue(s[..n]) * f)
  }

  /** The value of a quantity in thousandths of a unit; None when it is not a quantity. */
  function Parse(s: string): (r: Option<int>)
    ensures r.Some? ==> QuantityText(s, r.value)
  {
    if |s| > 0 && s[0] == '-' then
      match ParseUnsigned(s[1..])
      case None => None
      case Some(v) => Some(-(v as int))
    else if |s| > 0 && s[0] == '+' then
      match ParseUnsigned(s[1..])
      case None => None
      case Some(v) => Some(v)
    else
      ParseUnsigned(s)
  }

  /** Every text that reads as a quantity parses, to the value it reads as. */
  lemma ParseComplete(s: string, v: int)
    requires QuantityText(s, v)
    ensures Parse(s) == Some(v)
  {
    if |s| > 0 && s[0] == '-' {
      var n, m :| 0 < n < |s| && Reads(s[1..], n, m) && v == -m;
      ParseSigned(s, s[1..], n, m, v);
    } else if |s| > 0 && s[0] == '+' {
      var n :| 0 < n < |s| && Reads(s[1..], n, v);
      ParseSigned(s, s[1..], n, v, v);
    } else {
      var n :| 0 < n <= |s| && Reads(s, n, v);
      ParseUnsignedComplete(s, n, v);
      assert Parse(s) == ParseUnsigned(s);
    }
  }

  /** A sign followed by a reading parses to the reading's magnitude, negated by `-`. */
  lemma ParseSigned(s: string, rest: string, n: nat, m: int, v: int)
    requires |s| > 0 && (s[0] == '-' || s[0] == '+') && s[1..] == rest && Reads(rest, n, m)
    requires v == if s[0] == '-' then -m else m
    ensures Parse(s) == Some(v)
  {
    ParseUnsignedComplete(rest, n, m);
    var u := ParseUnsigned(rest);
    assert u.Some? && u.value == m;
  }


  /** No known suffix starts with a digit. */
  lemma SuffixNotDigit(suffix: string)
    requires SuffixFactor(suffix).Some?
    ensures suffix == [] || !IsDigit(suffix[0])
  {
  }

  /** A reading of `s` splits it where its run of digits ends, so the parser finds it. */
  lemma ParseUnsignedComplete(s: string, n: nat, m: int)
    requires Reads(s, n, m)
    ensures ParseUnsigned(s) == Some(m)
  {
    SuffixNotDigit(s[n..]);
    assert s[..n] + s[n..] == s;
    DigitRunOfNumber(s[..n], s[n..]);
  }

  /** A run of digits followed by something that is not a digit is read in full. */
  lemma {:induction false} DigitRunOfNumber(digits: string, rest: string)
    requires IsDecimal(digits)
    requires rest == [] || !IsDigit(rest[0])
    ensures DigitRun(digits + rest) == |digits|
    decreases |digits|
  {
    if digits != [] {
      assert (digits + rest)[1..] == digits[1..] + rest;
      DigitRunOfNumber(digits[1..], rest);
    }
  }

  /** A rendered number followed by a known suffix reads as the number times the suffix's factor. */
  lemma RenderedReads(n: nat, suffix: string)
    requires SuffixFactor(suffix).Some?
    ensures Reads(NatToString(n) + suffix, |NatToString(n)|, n * SuffixFactor(suffix).value)
  {
    var digits := NatToString(n);
    var s := digits + suffix;
    assert s[..|digits|] == digits && s[|digits|..] == suffix;
    DecimalValueOfNatToString(n);
  }

  /** Reading a rendered number with a known suffix gives the number times the suffix's factor. */
  lemma ParseRendered(n: nat, suffix: string)
    requires SuffixFactor(suffix).Some?
    ensures Parse(NatToString(n) + suffix) == Some(n * SuffixFactor(suffix).value)
  {
    var s := NatToString(n) + suffix;
    RenderedReads(n, suffix);
    assert IsDigit(s[0]);
    ParseComplete(s, n * SuffixFactor(suffix).value);
  }

  /** A leading minus sign negates the value. */
  lemma ParseNegative(n: nat, suffix: string)
    requires SuffixFactor(suffix).Some?
    ensures Parse("-" + NatToString(n) + suffix) == Some(-(n * SuffixFactor(suffix).value))
  {
    var t := NatToString(n) + suffix;
    var s := "-" + NatToString(n) + suffix;
    assert s[1..] == t && s[0] == '-';
    RenderedReads(n, suffix);
    ParseSigned(s, t, |NatToString(n)|, n * SuffixFactor(suffix).value, -(n * SuffixFactor(suffix).value));
  }

}
