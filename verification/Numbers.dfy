/** Decimal numerals. */
module Numbers {
  import opened Wrappers

  function DigitsOf(n: nat): (r: string)
    ensures r != ""
  {
    var last := [(n % 10 + '0' as int) as char];
    if n < 10 then last else DigitsOf(n / 10) + last
  }

  function IntText(n: int): string {
    if n < 0 then "-" + DigitsOf(-n) else DigitsOf(n)
  }

  /** The number the digits stand for, if they are all digits. */
  function FromDigits(s: string): Option<nat> {
    if s == "" then Some(0)
    else
      var c := s[|s| - 1];
      match FromDigits(s[..|s| - 1])
      case None => None
      case Some(n) => if '0' <= c <= '9' then Some(10 * n + (c - '0') as nat) else None
  }

  lemma {:induction false} DigitsRoundTrip(n: nat)
    ensures FromDigits(DigitsOf(n)) == Some(n) && '_' !in DigitsOf(n)
    ensures '0' <= DigitsOf(n)[0] <= '9'
  {
    var last := [(n % 10 + '0' as int) as char];
    if n < 10 {
      assert DigitsOf(n)[..0] == "";
    } else {
      DigitsRoundTrip(n / 10);
      assert DigitsOf(n)[..|DigitsOf(n)| - 1] == DigitsOf(n / 10);
    }
  }

  lemma {:induction false} DigitsAreDigits(n: nat)
    ensures forall c :: c in DigitsOf(n) ==> '0' <= c <= '9'
  {
    if n >= 10 {
      DigitsAreDigits(n / 10);
    }
  }
}
