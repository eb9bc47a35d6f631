/**
 * The `"<dayIndex>-<activityIndex>"` keys under which activity completion is
 * stored, with both indices written in decimal. The key format is
 * injective: distinct index pairs never share a key.
 */
module ActivityKeys {

  predicate IsDigit(c: char) {
    '0' <= c <= '9'
  }

  function DigitChar(d: nat): (c: char)
    requires d < 10
    ensures IsDigit(c)
  {
    "0123456789"[d]
  }

  function DigitValue(c: char): (d: nat)
    requires IsDigit(c)
    ensures d < 10
  {
    (c as int - '0' as int) as nat
  }

  /** Decimal rendering of a natural, as JavaScript's template literals write it. */
  function NatToString(n: nat): (s: string)
    ensures |s| > 0
    ensures forall i :: 0 <= i < |s| ==> IsDigit(s[i])
    ensures s[0] == '0' <==> n == 0
    ensures n < 10 ==> |s| == 1
  {
    if n < 10 then [DigitChar(n)] else NatToString(n / 10) + [DigitChar(n % 10)]
  }

  /** Reads a non-empty digit string back as a natural. */
  function ParseNat(s: string): nat
    requires |s| > 0
    requires forall i :: 0 <= i < |s| ==> IsDigit(s[i])
  {
    if |s| == 1 then DigitValue(s[0])
    else ParseNat(s[..|s| - 1]) * 10 + DigitValue(s[|s| - 1])
  }

  lemma {:induction false} ParseNatToString(n: nat)
    ensures ParseNat(NatToString(n)) == n
  {
    if n >= 10 {
      var s := NatToString(n);
      assert s[..|s| - 1] == NatToString(n / 10);
      ParseNatToString(n / 10);
    }
  }

  lemma NatToStringInjective(m: nat, n: nat)
    requires NatToString(m) == NatToString(n)
    ensures m == n
  {
    ParseNatToString(m);
    ParseNatToString(n);
  }

  /**
   * The storage key of activity `activityIndex` of day `dayIndex`: digits
   * with a single dash, right after the day's digits.
   */
  function Key(dayIndex: nat, activityIndex: nat): (k: string)
    ensures |k| == |NatToString(dayIndex)| + 1 + |NatToString(activityIndex)|
    ensures k[|NatToString(dayIndex)|] == '-'
    ensures forall i :: 0 <= i < |k| && i != |NatToString(dayIndex)| ==> IsDigit(k[i])
  {
    NatToString(dayIndex) + "-" + NatToString(activityIndex)
  }

  /** Distinct index pairs produce distinct keys. */
  lemma KeyInjective(d1: nat, a1: nat, d2: nat, a2: nat)
    ensures Key(d1, a1) == Key(d2, a2) <==> d1 == d2 && a1 == a2
  {
    if Key(d1, a1) == Key(d2, a2) {
      var s1, s2 := NatToString(d1), NatToString(d2);
      var k := Key(d1, a1);
      if |s1| != |s2| {
        assert false;
      }
      assert s1 == k[..|s1|] == s2;
      assert NatToString(a1) == k[|s1| + 1..] == NatToString(a2);
      NatToStringInjective(d1, d2);
      NatToStringInjective(a1, a2);
    }
  }
}
