/** Record identifiers. The store keys records by a natural number; clients
    name a record by the decimal spelling of that number. A string that is
    not such a spelling cannot be cast to an identifier, the analogue of a
    malformed ObjectId. */
module Ids {

  type Id = nat

  predicate IsDigit(c: char) {
    '0' <= c <= '9'
  }

  function DigitChar(d: nat): (c: char)
    requires d < 10
    ensures IsDigit(c)
  {
    ('0' as int + d) as char
  }

  /** The decimal spelling of `n`, without leading zeros. */
  function IdString(n: Id): (s: string)
    ensures |s| >= 1
    decreases n
  {
    if n < 10 then [DigitChar(n)] else IdString(n / 10) + [DigitChar(n % 10)]
  }

  /** The strings that can be cast to an identifier. */
  predicate WellFormedId(s: string) {
    && |s| >= 1
    && (forall i :: 0 <= i < |s| ==> IsDigit(s[i]))
    && (s[0] == '0' ==> |s| == 1)
  }

  /** Every identifier the store hands out is well formed, and its spelling
      starts with a non-zero digit unless it is zero itself. */
  lemma {:induction false} IdStringWellFormed(n: Id)
    ensures WellFormedId(IdString(n))
    ensures n > 0 ==> IdString(n)[0] != '0'
    decreases n
  {
    if n >= 10 {
      IdStringWellFormed(n / 10);
      assert IdString(n)[0] == IdString(n / 10)[0];
    }
  }

  /** Distinct identifiers are spelled differently, so a client string names
      at most one record. */
  lemma {:induction false} IdStringInjective(a: Id, b: Id)
    requires IdString(a) == IdString(b)
    ensures a == b
    decreases a
  {
    var s := IdString(a);
    if a < 10 && b < 10 {
      assert s[0] == DigitChar(a) && s[0] == DigitChar(b);
    } else if a >= 10 && b >= 10 {
      var n := |s|;
      assert s[n - 1] == DigitChar(a % 10) && s[n - 1] == DigitChar(b % 10);
      assert IdString(a / 10) == s[..n - 1] == IdString(b / 10);
      IdStringInjective(a / 10, b / 10);
    }
  }
}
