/** The platform fee of src/payments/services/payments.service.ts, over exact reals. */
module Fees {

  /** JavaScript's `Math.round`: halves go up, also below zero. */
  function Round(x: real): int {
    (x + 0.5).Floor
  }

  function PlatformFee(amount: int, percent: real): int {
    Round(amount as real * percent / 100.0)
  }

  function RecipientAmount(amount: int, percent: real): int {
    amount - PlatformFee(amount, percent)
  }

  lemma Scale(a: real, x: real, y: real)
    requires a >= 0.0 && x <= y
    ensures a * x <= a * y
  {
    assert a * (y - x) >= 0.0;
  }

  lemma Hundredth(p: real, a: real)
    requires 0.0 <= p <= a * 100.0
    ensures 0.0 <= p / 100.0 <= a
  {
  }

  /** Within half a unit of the exact fee, and neither share negative. */
  lemma FeeConserves(amount: nat, percent: real)
    requires 0.0 <= percent <= 100.0
    ensures 0 <= PlatformFee(amount, percent) <= amount && 0 <= RecipientAmount(amount, percent)
    ensures PlatformFee(amount, percent) + RecipientAmount(amount, percent) == amount
    ensures var exact := amount as real * percent / 100.0;
            exact - 0.5 < PlatformFee(amount, percent) as real <= exact + 0.5
  {
    var a := amount as real;
    Scale(a, 0.0, percent);
    Scale(a, percent, 100.0);
    Hundredth(a * percent, a);
  }

  /** No fee or share is ever negative exactly for percentages from 0 to 100. */
  lemma SharesNonNegativeIff(percent: real)
    ensures (forall amount: nat :: 0 <= PlatformFee(amount, percent) <= amount) <==> 0.0 <= percent <= 100.0
  {
    if 0.0 <= percent <= 100.0 {
      forall amount: nat ensures 0 <= PlatformFee(amount, percent) <= amount {
        FeeConserves(amount, percent);
      }
    } else if percent < 0.0 {
      var amount := LargeEnough(-percent);
      assert amount as real * percent <= -100.0;
      assert PlatformFee(amount, percent) < 0;
    } else {
      var amount := LargeEnough(percent - 100.0);
      assert amount as real * percent >= amount as real * 100.0 + 100.0;
      assert PlatformFee(amount, percent) > amount;
    }
  }

  lemma LargeEnough(excess: real) returns (amount: nat)
    requires excess > 0.0
    ensures amount as real * excess >= 100.0
  {
    amount := (100.0 / excess).Floor + 1;
    assert amount as real >= 100.0 / excess;
    Scale(excess, 100.0 / excess, amount as real);
    assert excess * (100.0 / excess) == 100.0;
  }
}
