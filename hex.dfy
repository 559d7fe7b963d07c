/**
 * Hex quantities, the wire form of every integer the wallet sends over JSON-RPC.
 * `ToHex` writes "0x" followed by the minimal lower-case hexadecimal digits;
 * `ToBigInt` reads a "0x"-prefixed hexadecimal string or a decimal string back.
 */
module Hex {
  import opened Wrappers

  /** The lower-case hexadecimal character for a digit value below 16. */
  function DigitChar(d: nat): char
    requires d < 16
  {
    if d < 10 then ('0' as int + d) as char else ('a' as int + d - 10) as char
  }

  /** The value of `c` as a digit in `base`, or None when `c` is not one. */
  function DigitValue(c: char, base: nat): Option<nat> {
    var v :=
      if '0' <= c <= '9' then c as int - '0' as int
      else if 'a' <= c <= 'f' then c as int - 'a' as int + 10
      else if 'A' <= c <= 'F' then c as int - 'A' as int + 10
      else -1;
    if 0 <= v < base then Some(v) else None
  }

  /** The minimal big-endian hexadecimal digits of `n` ("0" for zero). */
  function Digits(n: nat): (s: string)
    ensures |s| >= 1
    decreases n
  {
    if n < 16 then [DigitChar(n)] else Digits(n / 16) + [DigitChar(n % 16)]
  }

  /** The value of a big-endian digit string in `base`, or None when some character is not a digit. */
  function DigitsValue(s: string, base: nat): Option<nat>
    decreases |s|
  {
    if s == [] then Some(0)
    else
      match (DigitsValue(s[..|s| - 1], base), DigitValue(s[|s| - 1], base))
      case (Some(high), Some(low)) => Some(high * base + low)
      case _ => None
  }

  function ToHex(n: nat): string {
    "0x" + Digits(n)
  }

  predicate HasHexPrefix(s: string) {
    |s| >= 2 && s[0] == '0' && (s[1] == 'x' || s[1] == 'X')
  }

  /** The number a quantity string denotes, or None when it is empty or malformed (the conversion throws). */
  function ToBigInt(s: string): Option<nat> {
    if HasHexPrefix(s) then
      if |s| == 2 then None else DigitsValue(s[2..], 16)
    else if s == [] then None
    else DigitsValue(s, 10)
  }

  lemma DigitCharValue(d: nat)
    requires d < 16
    ensures DigitValue(DigitChar(d), 16) == Some(d)
  {
  }

  lemma {:induction false} DigitsRoundTrip(n: nat)
    ensures DigitsValue(Digits(n), 16) == Some(n)
    decreases n
  {
    if n < 16 {
      DigitCharValue(n);
      assert Digits(n)[..0] == [];
    } else {
      DigitsRoundTrip(n / 16);
      DigitCharValue(n % 16);
      var s := Digits(n);
      assert s[..|s| - 1] == Digits(n / 16);
    }
  }

  /** Reading back what `ToHex` wrote gives the original number. */
  lemma ToHexRoundTrip(n: nat)
    ensures HasHexPrefix(ToHex(n)) && |ToHex(n)| > 2
    ensures ToBigInt(ToHex(n)) == Some(n)
  {
    var s := ToHex(n);
    assert s[2..] == Digits(n);
    DigitsRoundTrip(n);
  }

  /** Distinct numbers have distinct hex forms. */
  lemma ToHexInjective(m: nat, n: nat)
    ensures ToHex(m) == ToHex(n) ==> m == n
  {
    ToHexRoundTrip(m);
    ToHexRoundTrip(n);
  }
}
