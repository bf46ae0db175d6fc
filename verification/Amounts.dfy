/** The PostgreSQL number domains the tables use, and the rounding that NUMERIC(12,2) applies. */
module Amounts {

  const MAX_INTEGER: int := 2147483647
  const MIN_INTEGER: int := -2147483648

  predicate InInteger(n: int) {
    MIN_INTEGER <= n <= MAX_INTEGER
  }

  const PAYMENT_LIMIT: real := 10000.0

  /** Rounds to two decimals, halves away from zero, as NUMERIC(12,2) does on insert. */
  function RoundCents(a: real): real {
    if a >= 0.0 then (a * 100.0 + 0.5).Floor as real / 100.0
    else -((-a * 100.0 + 0.5).Floor as real / 100.0)
  }

  predicate InNumeric(a: real) {
    -10000000000.0 < RoundCents(a) < 10000000000.0
  }

  /** A stored amount is within half a cent of the requested one, and storing it again changes nothing. */
  lemma RoundingIsNearestAndStable(a: real)
    ensures -0.005 <= RoundCents(a) - a <= 0.005
    ensures RoundCents(RoundCents(a)) == RoundCents(a)
  {
    var b := if a >= 0.0 then a else -a;
    var n := (b * 100.0 + 0.5).Floor;
    assert n as real <= b * 100.0 + 0.5 < n as real + 1.0;
    var c := n as real / 100.0;
    assert c * 100.0 + 0.5 == n as real + 0.5;
    assert (c * 100.0 + 0.5).Floor == n;
  }

  /** What NUMERIC(12,2) stores: whole cents, the nearest ones, halves away from zero. */
  lemma RoundsToCents(a: real) returns (n: int)
    ensures RoundCents(a) == n as real / 100.0
    ensures a >= 0.0 ==> n as real - 0.5 <= 100.0 * a < n as real + 0.5
    ensures a < 0.0 ==> n as real - 0.5 < 100.0 * a <= n as real + 0.5
  {
    n := if a >= 0.0 then (a * 100.0 + 0.5).Floor else -(-a * 100.0 + 0.5).Floor;
  }

  /** The column takes a number if and only if twelve digits, two of them decimals, are enough for it. */
  lemma NumericDomain(a: real)
    ensures InNumeric(a) <==> -9999999999.995 < a < 9999999999.995
  {
    var n := RoundsToCents(a);
  }

  /** The payment service compares the unrounded amount with the limit.  That comparison agrees with
      the amount the order row shows except when the request is over the limit by less than half a cent. */
  lemma ApprovalAgreesWithStoredAmount(a: real)
    requires a > 0.0
    ensures (RoundCents(a) <= PAYMENT_LIMIT <==> a <= PAYMENT_LIMIT)
       <==> !(PAYMENT_LIMIT < a < PAYMENT_LIMIT + 0.005)
  {
  }

  /** A concrete request the order row shows as 10000.00 and the payment service declines. */
  lemma DeclinedAtTheLimit()
    ensures RoundCents(10000.004) == PAYMENT_LIMIT && !(10000.004 <= PAYMENT_LIMIT)
  {
  }
}
