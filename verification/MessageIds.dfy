/** Correlation ids: the decimal form of a counter. */
module MessageIds {

  const DIGITS: string := "0123456789"

  /** A whole number written in base ten, without leading zeros. */
  function Decimal(n: nat): (s: string)
    ensures |s| > 0
    ensures forall k | 0 <= k < |s| :: s[k] in DIGITS
  {
    if n < 10 then [DIGITS[n]] else Decimal(n / 10) + [DIGITS[n % 10]]
  }

  /** The number a string of digits stands for. */
  function ValueOf(s: string): nat {
    if s == [] then 0
    else 10 * ValueOf(s[..|s| - 1]) + DigitValue(s[|s| - 1])
  }

  function DigitValue(d: char): nat {
    if '0' <= d <= '9' then (d - '0') as nat else 0
  }

  lemma {:induction false} ReadsBack(n: nat)
    ensures ValueOf(Decimal(n)) == n
  {
    if n >= 10 {
      ReadsBack(n / 10);
      var s := Decimal(n);
      assert s[..|s| - 1] == Decimal(n / 10);
    } else {
      assert Decimal(n)[..0] == [];
    }
  }

  /** Two requests never share an id. */
  lemma DecimalInjective(m: nat, n: nat)
    requires Decimal(m) == Decimal(n)
    ensures m == n
  {
    ReadsBack(m);
    ReadsBack(n);
  }

  /** Increments under a lock, so each call is one step. */
  class ClientMessageIdGenerator {
    var counter: nat

    constructor ()
      ensures counter == 0
    {
      counter := 0;
    }

    method NextId() returns (id: string)
      modifies this
      ensures counter == old(counter) + 1
      ensures id == Decimal(counter)
      ensures forall n: nat | n <= old(counter) :: id != Decimal(n)
    {
      counter := counter + 1;
      id := Decimal(counter);
      forall n: nat | n < counter ensures id != Decimal(n) {
        if id == Decimal(n) { DecimalInjective(counter, n); }
      }
    }
  }
}
