/**
 * Id generation. The source draws ids from `crypto.randomUUID` or from the
 * clock and `Math.random`; the model replaces that with a counter and an
 * injective naming function, so that every id drawn is distinct from every
 * other id drawn. Freshness with respect to a page is stated where it is
 * needed, as a hypothesis over the ids the counter has not reached yet.
 */
module Ids {

  /** The decimal digits of `n`, most significant first. */
  function Digits(n: nat): (r: string)
    ensures r != []
    ensures forall i :: 0 <= i < |r| ==> '0' <= r[i] <= '9'
  {
    if n < 10 then [(('0' as int) + n) as char]
    else Digits(n / 10) + [(('0' as int) + n % 10) as char]
  }

  /** Different numbers have different digit strings. */
  lemma {:induction false} DigitsInjective(a: nat, b: nat)
    requires Digits(a) == Digits(b)
    ensures a == b
  {
    var da, db := Digits(a), Digits(b);
    if a >= 10 && b >= 10 {
      assert da[..|da| - 1] == Digits(a / 10);
      assert db[..|db| - 1] == Digits(b / 10);
      assert da[|da| - 1] == db[|db| - 1];
      DigitsInjective(a / 10, b / 10);
    }
  }

  /** The `n`-th id the generator hands out. */
  function IdFor(n: nat): (id: string)
    ensures id != ""
  {
    "id-" + Digits(n)
  }

  /** Distinct draws give distinct ids. */
  lemma IdForInjective(a: nat, b: nat)
    ensures IdFor(a) == IdFor(b) <==> a == b
  {
    if IdFor(a) == IdFor(b) {
      assert IdFor(a)[3..] == Digits(a);
      assert IdFor(b)[3..] == Digits(b);
      DigitsInjective(a, b);
    }
  }

  /** `generateId()`, as a counter shared by everything that draws ids. */
  class IdGenerator {
    var next: nat

    constructor(start: nat)
      ensures next == start
    {
      next := start;
    }

    method Generate() returns (id: string)
      modifies this
      ensures id == IdFor(old(next)) && next == old(next) + 1
    {
      id := IdFor(next);
      next := next + 1;
    }
  }
}
