/** Decimal numerals: `strconv.Atoi` on their digits and `strconv.Itoa` on naturals. */
module Decimal {
  import opened Text

  /** The value of a string of decimal digits. */
  function Digits(s: string): Option<nat> {
    if s == "" then Some(0)
    else
      var c := s[|s| - 1];
      var before :- Digits(s[..|s| - 1]);
      if '0' <= c <= '9' then Some(before * 10 + (c as int - '0' as int)) else None
  }

  function Numeral(n: nat): (s: string)
    ensures s != ""
  {
    var last := [('0' as int + n % 10) as char];
    if n < 10 then last else Numeral(n / 10) + last
  }

  /** Printing a number and reading it back gives the number, so two numbers never print alike. */
  lemma {:induction false} NumeralReads(n: nat)
    ensures Digits(Numeral(n)) == Some(n)
    ensures forall c <- Numeral(n) :: '0' <= c <= '9'
  {
    var s := Numeral(n);
    var last := [('0' as int + n % 10) as char];
    if n < 10 {
      assert s[..0] == "";
    } else {
      NumeralReads(n / 10);
      assert s[..|s| - 1] == Numeral(n / 10);
    }
  }
}
