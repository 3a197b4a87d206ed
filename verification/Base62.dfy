/** Base-62 numbers, used to squeeze a 32-bit hash into a few characters of an interface name. */
module Base62 {

  /** The alphabet: ten digits, then lower-case letters, then capitals. */
  function Digit(d: nat): char
    requires d < 62
  {
    if d < 10 then ('0' as int + d) as char
    else if d < 36 then ('a' as int + (d - 10)) as char
    else ('A' as int + (d - 36)) as char
  }

  function DigitValue(c: char): int {
    if '0' <= c <= '9' then c as int - '0' as int
    else if 'a' <= c <= 'z' then c as int - 'a' as int + 10
    else if 'A' <= c <= 'Z' then c as int - 'A' as int + 36
    else -1
  }

  lemma AlphabetValues(d: nat)
    requires d < 62
    ensures DigitValue(Digit(d)) == d
  {
  }

  /** As the driver writes it out. */
  lemma Alphabet(d: nat)
    requires d < 62
    ensures Digit(d) == ("0123456789" + "abcdefghijklmnopqrstuvwxyz" + "ABCDEFGHIJKLMNOPQRSTUVWXYZ")[d]
  {
    Digits10(d);
    if 10 <= d < 36 { Lower(d - 10); }
    if 36 <= d { Upper(d - 36); }
  }

  lemma Digits10(d: nat)
    ensures d < 10 ==> "0123456789"[d] as int == '0' as int + d
  {
  }

  lemma Lower(d: nat)
    requires d < 26
    ensures "abcdefghijklmnopqrstuvwxyz"[d] as int == 'a' as int + d
  {
  }

  lemma Upper(d: nat)
    requires d < 26
    ensures "ABCDEFGHIJKLMNOPQRSTUVWXYZ"[d] as int == 'A' as int + d
  {
  }

  /** Most significant digit first; no digits at all for zero. */
  function Digits(n: nat): string {
    if n == 0 then "" else Digits(n / 62) + [Digit(n % 62)]
  }

  function Encode(n: nat): string {
    if n == 0 then "0" else Digits(n)
  }

  function Decode(s: string): int {
    if s == "" then 0 else 62 * Decode(s[..|s| - 1]) + DigitValue(s[|s| - 1])
  }

  /** The loop puts each remainder in front of the digits found so far.  It never runs for a
      negative number, which comes out empty. */
  method B62Encode(n: int) returns (s: string)
    ensures n >= 0 ==> s == Encode(n)
    ensures n < 0 ==> s == ""
  {
    if n == 0 {
      return "0";
    }
    s := "";
    var rest := n;
    while rest > 0
      invariant n >= 0 ==> rest >= 0 && Digits(rest) + s == Digits(n)
      invariant n < 0 ==> rest == n && s == ""
    {
      var r := rest % 62;
      assert Digits(rest) + s == Digits(rest / 62) + ([Digit(r)] + s);
      s := [Digit(r)] + s;
      rest := rest / 62;
    }
  }

  function Power(k: nat): nat {
    if k == 0 then 1 else 62 * Power(k - 1)
  }

  lemma {:induction false} DecodeDigits(n: nat)
    ensures Decode(Digits(n)) == n
  {
    if n > 0 {
      DecodeDigits(n / 62);
      AlphabetValues(n % 62);
      var s := Digits(n);
      assert s[..|s| - 1] == Digits(n / 62);
    }
  }

  lemma {:induction false} DigitsLength(n: nat, k: nat)
    requires n < Power(k)
    ensures |Digits(n)| <= k
  {
    if n > 0 {
      DigitsLength(n / 62, k - 1);
    }
  }

  lemma {:induction false} NoLeadingZero(n: nat)
    requires n > 0
    ensures Digits(n) != "" && Digits(n)[0] != '0'
  {
    if n < 62 {
      assert Digits(n) == "" + [Digit(n)];
      AlphabetValues(n);
    } else {
      NoLeadingZero(n / 62);
    }
  }

  /** Every 32-bit number decodes back, has one to six digits and no leading zero unless it
      is zero itself. */
  lemma EncodeTheorem(n: nat)
    requires n < 0x1_0000_0000
    ensures Decode(Encode(n)) == n
    ensures 1 <= |Encode(n)| <= 6
    ensures n > 0 ==> Encode(n)[0] != '0'
  {
    if n > 0 {
      DecodeDigits(n);
      NoLeadingZero(n);
      assert Power(6) == 62 * 62 * 62 * 62 * 62 * 62 by {
        assert Power(2) == 62 * 62 && Power(4) == 62 * 62 * Power(2) && Power(6) == 62 * 62 * Power(4);
      }
      DigitsLength(n, 6);
    } else {
      assert "0"[..0] == "";
    }
  }
}
