/**
 * Fixed-point money. Every money column of the ledger is decimal(15,2) and every
 * model casts it to `decimal:2`, so stored amounts are whole cents. The bill
 * settlement computes its 2% fee and the 20%/80% split without rounding; those
 * exact intermediates are counted in thousandths of a cent ("fine" units) until
 * a decimal(15,2) column rounds them to cents.
 */
module Money {

  /** A stored amount, in cents. */
  type Cents = int

  /** Fine units per cent. */
  const FinePerCent: int := 1000

  /** The value a decimal(15,2) column keeps of an exact amount: the nearest
      cent, a half cent rounding upward. */
  function RoundToCents(fine: int): (c: Cents)
    ensures 1000 * c - 500 <= fine < 1000 * c + 500
  {
    (fine + 500) / 1000
  }

  /** Only one cent value lies within half a cent of an exact amount. */
  lemma RoundToCentsUnique(fine: int, c: Cents)
    requires 1000 * c - 500 <= fine < 1000 * c + 500
    ensures RoundToCents(fine) == c
  {
    var d := RoundToCents(fine);
    assert 1000 * d - 500 <= fine < 1000 * d + 500;
    assert 1000 * (c - d) < 1000 && 1000 * (d - c) < 1000;
  }

  /** Adding whole cents before storing is the same as adding them after:
      a column holding `balance + share` holds `balance + RoundToCents(share)`. */
  lemma RoundToCentsShift(c: Cents, fine: int)
    ensures RoundToCents(FinePerCent * c + fine) == c + RoundToCents(fine)
  {
    var r := RoundToCents(fine);
    RoundToCentsUnique(FinePerCent * c + fine, c + r);
  }

  /** PHP `round(amount * percentage / 100, 2)` with the percentage given in
      hundredths of a percent: the fee is the cent nearest to the exact
      percentage of the amount, halves rounding away from zero (upward here,
      as neither amount nor percentage is negative). */
  function PercentageFee(amount: Cents, basisPoints: nat): (fee: Cents)
    requires amount >= 0
    ensures 10000 * fee - 5000 <= amount * basisPoints < 10000 * fee + 5000
    ensures fee >= 0
  {
    (amount * basisPoints + 5000) / 10000
  }

  /** A percentage of at most 100% never charges more than the amount, and the
      default percentage 0 charges nothing. */
  lemma PercentageFeeBounds(amount: Cents, basisPoints: nat)
    requires amount >= 0
    ensures basisPoints <= 10000 ==> PercentageFee(amount, basisPoints) <= amount
    ensures basisPoints == 0 ==> PercentageFee(amount, basisPoints) == 0
  {
    var fee := PercentageFee(amount, basisPoints);
    if basisPoints <= 10000 {
      assert amount * basisPoints <= amount * 10000;
      assert 10000 * fee - 5000 <= amount * 10000;
    }
  }
}
