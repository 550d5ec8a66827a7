/**
  What a withdrawal pays out, to whom and when: src/payouts/services/payouts.service.ts, and what Stripe's later
  events make of it: src/payouts/services/webhook.service.ts.  Told from the request, the balance and the configured
  minimum alone.
 */
module Withdrawals {
  import opened Finance
  import opened Util
  import B = Balances

  /** What a user can withdraw: `getBalance().available`. */
  function Free(s: State, u: UserId): int {
    Available(s.splits, s.payouts, u)
  }

  /** The amount a request stands for; without one, all there is. */
  function Asked(s: State, user: UserId, requested: Option<int>): int {
    match requested
    case Some(x) => x
    case None => Free(s, user)
  }

  /** The amount is positive, at least the minimum and at most what there is, and the account is active. */
  predicate Grantable(cfg: Config, s: State, user: UserId, x: int, accountActive: bool) {
    accountActive && 0 < x && cfg.minimumPayout <= x <= Free(s, user)
  }

  /** The one row a granted withdrawal of x adds to the payouts, and the one it may add to the ledger. */
  predicate PaysOut(s: State, t: State, user: UserId, x: int) {
    && |t.payouts| == |s.payouts| + 1 && t.payouts[..|s.payouts|] == s.payouts
    && t.payouts[|s.payouts|].user == user && t.payouts[|s.payouts|].amount == x
    && (t.ledger == s.ledger || t.ledger == s.ledger + [Transaction(user, PAYOUT, -x)])
    && t == s.(payouts := t.payouts, ledger := t.ledger)
  }

  /** Whatever throws: exactly the grantable requests pay out, and exactly what they ask for. */
  lemma WithdrawnIff(cfg: Config, s: State, user: UserId, requested: Option<int>, active: bool, call: PayoutCall)
    ensures var t, x := Step(cfg, s, Withdraw(user, requested, active, call)), Asked(s, user, requested);
            if Grantable(cfg, s, user, x, active) then PaysOut(s, t, user, x) else t == s
  {
    var x := Asked(s, user, requested);
    if Grantable(cfg, s, user, x, active) {
      assert Admissible(cfg, s, user, requested, active) == Some(x);
    } else {
      assert Admissible(cfg, s, user, requested, active) == None;
    }
  }

  /** Stripe's answer, as the row shows it. */
  lemma StripeStatusIs(status: string)
    ensures MapStripeStatus(status) == PAID <==> status == "paid"
    ensures MapStripeStatus(status) == IN_TRANSIT <==> status == "in_transit"
    ensures MapStripeStatus(status) == PayoutStatus.FAILED <==> status == "failed"
    ensures MapStripeStatus(status) == CANCELED <==> status == "canceled"
  {
  }

  /** The row as far as the calls got: linked once Stripe's id is written, FAILED only by the `catch`. */
  lemma RowIs(cfg: Config, s: State, user: UserId, requested: Option<int>, call: PayoutCall)
    requires Grantable(cfg, s, user, Asked(s, user, requested), true)
    ensures var t := Step(cfg, s, Withdraw(user, requested, true, call));
            var row, linked := t.payouts[|s.payouts|], call.stripe.Answers? && call.dbFault != Some(RowWriteThrows);
            var recorded := linked && call.dbFault != Some(RecordThrows);
            && row.linked == linked
            && (t.ledger != s.ledger <==> recorded)
            && row.status ==
                 if !(recorded && call.dbFault != Some(RecordLost)) && !call.markThrows then PayoutStatus.FAILED
                 else if linked then MapStripeStatus(call.stripe.status) else PayoutStatus.PENDING
  {
    var x := Asked(s, user, requested);
    assert Admissible(cfg, s, user, requested, true) == Some(x);
    assert |(s.ledger + [Transaction(user, PAYOUT, -x)])| == |s.ledger| + 1;
  }

  /** Nothing throws: the balance falls by what is asked for, and no other user's moves. */
  lemma WithdrawTakes(cfg: Config, s: State, user: UserId, requested: Option<int>, status: string, markThrows: bool)
    requires Grantable(cfg, s, user, Asked(s, user, requested), true)
    ensures var t := Step(cfg, s, Withdraw(user, requested, true, PayoutCall(Answers(status), None, markThrows)));
            var x := Asked(s, user, requested);
            && t.payouts == s.payouts + [Payout(user, x, MapStripeStatus(status), true)]
            && t.ledger == s.ledger + [Transaction(user, PAYOUT, -x)]
            && forall u :: Free(t, u) ==
                 Free(s, u) - if u == user && status != "failed" && status != "canceled" then x else 0
  {
    var x, call := Asked(s, user, requested), PayoutCall(Answers(status), None, markThrows);
    assert Admissible(cfg, s, user, requested, true) == Some(x);
    StripeStatusIs(status);
    forall u ensures Available(s.splits, s.payouts + [PayoutRow(user, x, call)], u) ==
                     Free(s, u) - if u == user && status != "failed" && status != "canceled" then x else 0
    {
      B.AvailablePush(s, PayoutRow(user, x, call), u);
    }
  }

  /** Stripe's event is taken exactly for a linked payout in another status, and changes that one row's status. */
  lemma EventIff(cfg: Config, s: State, i: nat, to: PayoutStatus, recordThrows: bool)
    requires i < |s.payouts| && to in {PAID, PayoutStatus.FAILED, CANCELED}
    ensures var t, p := Step(cfg, s, PayoutEvent(i, to, recordThrows)), s.payouts[i];
            var givesBack := to != PAID && !recordThrows;
            if p.linked && p.status != to
            then t == s.(payouts := s.payouts[i := Payout(p.user, p.amount, to, true)],
                         ledger := s.ledger + if givesBack then [Transaction(p.user, PAYOUT, p.amount)] else [])
            else t == s
  {
    assert s.ledger + [] == s.ledger;
  }

  /** A withdrawal on its way that fails in the end leaves balance and ledger as they were before it. */
  lemma FailedWithdrawalReturns(cfg: Config, s: State, user: UserId, requested: Option<int>, status: string,
      to: PayoutStatus)
    requires Grantable(cfg, s, user, Asked(s, user, requested), true)
    requires status != "failed" && status != "canceled" && to in {PayoutStatus.FAILED, CANCELED}
    ensures var drawn := Step(cfg, s, Withdraw(user, requested, true, PayoutCall(Answers(status), None, false)));
            var t := Step(cfg, drawn, PayoutEvent(|s.payouts|, to, false));
            forall u :: Free(t, u) == Free(s, u) && Sum(t.ledger, LedgerOf(u)) == Sum(s.ledger, LedgerOf(u))
  {
    var x, n := Asked(s, user, requested), |s.payouts|;
    var drawn := Step(cfg, s, Withdraw(user, requested, true, PayoutCall(Answers(status), None, false)));
    WithdrawTakes(cfg, s, user, requested, status, false);
    StripeStatusIs(status);
    EventIff(cfg, drawn, n, to, false);
    var t := Step(cfg, drawn, PayoutEvent(n, to, false));
    forall u ensures Free(t, u) == Free(s, u) && Sum(t.ledger, LedgerOf(u)) == Sum(s.ledger, LedgerOf(u)) {
      B.TakenUpdate(drawn.payouts, n, Payout(user, x, to, true), u);
      SumPush(s.ledger, Transaction(user, PAYOUT, -x), LedgerOf(u));
      SumPush(drawn.ledger, Transaction(user, PAYOUT, x), LedgerOf(u));
    }
  }
}
