/**
 * Late-fee arithmetic of the dues ledger. Dates are integer milliseconds
 * since the epoch, as JavaScript `Date` values compare and subtract.
 *
 * Two rules exist side by side: the submission handler counts days late
 * with a ceiling (any fraction of a day is a full day), the save hook of
 * the transaction model counts them with a floor (a partial day is free).
 */
module LateFee {

  /** `1000 * 60 * 60 * 24` */
  const MsPerDay: int := 86400000

  /** `Math.ceil(diff / MsPerDay)` for a positive difference: the days late, rounded up. */
  function CeilDays(diff: int): (d: int)
    requires diff > 0
    ensures d >= 1
    ensures (d - 1) * MsPerDay < diff <= d * MsPerDay
  {
    (diff + MsPerDay - 1) / MsPerDay
  }

  /** `Math.floor(diff / MsPerDay)` for a positive difference: the whole days late. */
  function FloorDays(diff: int): (d: int)
    requires diff > 0
    ensures d >= 0
    ensures d * MsPerDay <= diff < (d + 1) * MsPerDay
  {
    diff / MsPerDay
  }

  /** `calculateLateFee(dueDate, paymentDate, lateFeePerDay)` of the cash controller. */
  function CalculateLateFee(due: int, payment: int, lateFeePerDay: int): (fee: int)
    ensures payment <= due ==> fee == 0
  {
    if payment <= due then 0
    else CeilDays(payment - due) * lateFeePerDay
  }

  /** The fine the transaction model's save hook writes: whole days late times the rate. */
  function HookFine(due: int, paid: int, lateFeePerDay: int): (fee: int)
    ensures paid <= due ==> fee == 0
  {
    if paid > due then FloorDays(paid - due) * lateFeePerDay else 0
  }

  /**
   * A payment late by more than k - 1 and at most k days costs k days at
   * submission: any fraction of a day is charged as a full day.
   */
  lemma CalculateLateFeeCharges(due: int, payment: int, rate: int, k: int)
    requires (k - 1) * MsPerDay < payment - due <= k * MsPerDay
    requires k >= 1
    ensures CalculateLateFee(due, payment, rate) == k * rate
  {
  }

  /**
   * A payment late by at least k and less than k + 1 days gets a fine of
   * exactly k days from the save hook.
   */
  lemma HookFineCharges(due: int, paid: int, rate: int, k: int)
    requires k * MsPerDay <= paid - due < (k + 1) * MsPerDay
    requires paid > due
    ensures HookFine(due, paid, rate) == k * rate
  {
  }

  /**
   * The two rules differ by exactly one day's fee whenever the payment is
   * late by a non-whole number of days, and agree otherwise.
   */
  lemma CeilingExceedsFloor(due: int, paid: int, rate: int)
    requires paid > due
    ensures (paid - due) % MsPerDay == 0 ==> CalculateLateFee(due, paid, rate) == HookFine(due, paid, rate)
    ensures (paid - due) % MsPerDay != 0 ==> CalculateLateFee(due, paid, rate) == HookFine(due, paid, rate) + rate
  {
    var diff := paid - due;
    var q, m := diff / MsPerDay, diff % MsPerDay;
    assert diff == q * MsPerDay + m && 0 <= m < MsPerDay;
    if m == 0 {
      HookFineCharges(due, paid, rate, q);
      CalculateLateFeeCharges(due, paid, rate, q);
    } else {
      HookFineCharges(due, paid, rate, q);
      CalculateLateFeeCharges(due, paid, rate, q + 1);
      assert (q + 1) * rate == q * rate + rate;
    }
  }

  /**
   * Less than one day late: submission computes one day's fee, the save
   * hook computes none.
   */
  lemma UnderOneDayLate(due: int, paid: int, rate: int)
    requires due < paid < due + MsPerDay
    ensures CalculateLateFee(due, paid, rate) == rate
    ensures HookFine(due, paid, rate) == 0
  {
    CalculateLateFeeCharges(due, paid, rate, 1);
    HookFineCharges(due, paid, rate, 0);
  }

  /** With a non-negative rate, paying later never lowers either fee. */
  lemma FeesMonotone(due: int, p1: int, p2: int, rate: int)
    requires p1 <= p2 && rate >= 0
    ensures CalculateLateFee(due, p1, rate) <= CalculateLateFee(due, p2, rate)
    ensures HookFine(due, p1, rate) <= HookFine(due, p2, rate)
  {
    if p1 > due {
      var c1, c2 := CeilDays(p1 - due), CeilDays(p2 - due);
      assert c1 <= c2;
      MulMonotone(c1, c2, rate);
      var f1, f2 := FloorDays(p1 - due), FloorDays(p2 - due);
      assert f1 <= f2;
      MulMonotone(f1, f2, rate);
    } else if p2 > due {
      assert CeilDays(p2 - due) * rate >= 0 && FloorDays(p2 - due) * rate >= 0 by {
        MulMonotone(0, CeilDays(p2 - due), rate);
        MulMonotone(0, FloorDays(p2 - due), rate);
      }
    }
  }

  lemma MulMonotone(a: int, b: int, c: int)
    requires a <= b && c >= 0
    ensures a * c <= b * c
  {
    assert b * c - a * c == (b - a) * c;
  }
}
