/**
  The balance a user sees against the ledger: how far each call moves one from the other, whatever throws in it.
  src/payouts/services/balance.service.ts, payouts.service.ts and webhook.service.ts, and the release of
  src/payments/services/payments.service.ts.
 */
module Balances {
  import opened Fees
  import opened Finance
  import opened Util
  import D = Deals
  import T = Transfers

  // ---- how far one call moves the balance from the ledger ----

  /** The last status a withdrawal leaves on its row, and whether the ledger has it. */
  function WithdrawShift(amount: int, call: PayoutCall): int {
    if call.stripe.Throws? || call.dbFault == Some(RowWriteThrows) then (if call.markThrows then -amount else 0)
    else
      var failing := Failing(MapStripeStatus(call.stripe.status));
      if call.dbFault == Some(RecordThrows) then (if call.markThrows && !failing then -amount else 0)
      else if call.dbFault == Some(RecordLost) then (if call.markThrows && !failing then 0 else amount)
      else if failing then amount else 0
  }

  function EventShift(p: Payout, to: PayoutStatus, recordThrows: bool): int {
    if !p.linked || p.status == to then 0
    else if Failing(p.status) then (if Failing(to) && recordThrows then 0 else -p.amount)
    else if Failing(to) && recordThrows then p.amount else 0
  }

  /** By how much the call makes u's balance exceed the ledger, more than before. */
  function Shift(cfg: Config, s: State, a: Action, u: UserId): int {
    match a
    case Release(_, _, fault) =>
      if T.LosesRecord(s, a) && s.splits[fault.split].recipient == Some(u) then s.splits[fault.split].amount else 0
    case Withdraw(user, requested, active, call) =>
      var amount := Admissible(cfg, s, user, requested, active);
      if amount.Some? && user == u then WithdrawShift(amount.value, call) else 0
    case PayoutEvent(i, to, recordThrows) =>
      if i < |s.payouts| && to in {PAID, PayoutStatus.FAILED, CANCELED} && s.payouts[i].user == u
      then EventShift(s.payouts[i], to, recordThrows) else 0
    case _ => 0
  }

  // ---- the sums ----

  lemma GapMark(s: State, i: nat, u: UserId)
    requires i < |s.splits| && s.splits[i].status == SplitStatus.PENDING
    ensures Gap(MarkReleased(s, i), u) == Gap(s, u) + EarnedBy(u)(s.splits[i].(status := RELEASED))
  {
    SumUpdate(s.splits, i, s.splits[i].(status := RELEASED), EarnedBy(u));
  }

  lemma GapRecord(s: State, user: UserId, kind: TransactionType, amount: int, u: UserId)
    ensures Gap(Record(s, user, kind, amount), u) == Gap(s, u) - LedgerOf(u)(Transaction(user, kind, amount))
  {
    SumPush(s.ledger, Transaction(user, kind, amount), LedgerOf(u));
  }

  /** What a turn that released u's split did not record. */
  function Unrecorded(s: State, i: nat, fault: Fault, u: UserId): int
    requires i < |s.splits|
  {
    if T.StruckHere(s, i, fault, {RecordThrows}) && s.splits[i].recipient == Some(u) then s.splits[i].amount else 0
  }

  lemma GapTold(s: State, i: nat, u: UserId)
    ensures Gap(Told(s, i), u) == Gap(s, u)
  {
  }

  /** The share's row written, the transfer recorded or not. */
  lemma GapShare(s: State, i: nat, u: UserId)
    requires T.Due(s, i)
    ensures var sp, t := s.splits[i], MarkReleased(Told(s, i), i);
            && Gap(t, u) == Gap(s, u) + (if sp.recipient == Some(u) then sp.amount else 0)
            && Gap(Record(t, sp.recipient.value, TRANSFER, sp.amount), u) == Gap(s, u)
  {
    GapTold(s, i, u);
    GapMark(Told(s, i), i, u);
    GapRecord(MarkReleased(Told(s, i), i), s.splits[i].recipient.value, TRANSFER, s.splits[i].amount, u);
  }

  /** A split released, and perhaps recorded. */
  lemma GapTurn(s: State, i: nat, fault: Fault, u: UserId)
    requires i < |s.splits|
    ensures Gap(ReleaseOne(s, i, fault).0, u) == Gap(s, u) + Unrecorded(s, i, fault, u)
  {
    if T.Due(s, i) {
      GapTold(s, i, u);
      GapShare(s, i, u);
    } else if s.splits[i].status == SplitStatus.PENDING && s.splits[i].isPlatformFee {
      GapMark(s, i, u);
    }
  }

  lemma GapPair(s: State, first: nat, second: nat, fault: Fault, u: UserId)
    requires first < |s.splits| && second < |s.splits| && first != second
    ensures Gap(ReleasePair(s, first, second, fault), u) ==
            Gap(s, u) + Unrecorded(s, first, fault, u) + Unrecorded(s, second, fault, u)
  {
    GapTurn(s, first, fault, u);
    var t, go := ReleaseOne(s, first, fault).0, ReleaseOne(s, first, fault).1;
    assert t.splits[second] == s.splits[second];
    if go {
      GapTurn(t, second, fault, u);
    }
  }

  lemma GapRelease(cfg: Config, s: State, a: Action, u: UserId)
    requires Inv(s) && T.Releases(s, a)
    ensures Gap(Step(cfg, s, a), u) == Gap(s, u) + Shift(cfg, s, a, u)
  {
    T.ReleaseStep(cfg, s, a.p, a.read, a.fault);
    GapPair(s, a.read[0], a.read[1], a.fault, u);
    T.StruckInPair(s, a, {RecordThrows});
  }

  lemma GapRefund(s: State, p: nat, fault: Option<FaultKind>, u: UserId)
    requires Refundable(s, p)
    ensures Gap(RefundOf(s, p, fault), u) == Gap(s, u)
  {
    SumPointwise(ReturnSplits(s.splits, p), s.splits, EarnedBy(u), EarnedBy(u));
    SumPush(s.ledger, Transaction(s.payments[p].payer, REFUND, s.payments[p].amount), LedgerOf(u));
  }

  lemma GapCreate(cfg: Config, s: State, subject: Subject, payer: UserId, recipient: UserId, amount: int, u: UserId)
    ensures Gap(CreatePayment(cfg, s, subject, payer, recipient, amount), u) == Gap(s, u)
  {
    var t := CreatePayment(cfg, s, subject, payer, recipient, amount);
    var n := |s.splits|;
    assert t.splits == s.splits + [t.splits[n]] + [t.splits[n + 1]];
    SumPush(s.splits, t.splits[n], EarnedBy(u));
    SumPush(s.splits + [t.splits[n]], t.splits[n + 1], EarnedBy(u));
  }

  /** What a payout takes from the balance. */
  function Taken(p: Payout): int {
    if p.status in {PayoutStatus.PENDING, IN_TRANSIT, PAID} then p.amount else 0
  }

  lemma TakenIs(p: Payout, u: UserId)
    ensures PendingOf(u)(p) + PaidTo(u)(p) == if p.user == u then Taken(p) else 0
  {
  }

  lemma TakenPush(payouts: seq<Payout>, p: Payout, u: UserId)
    ensures Sum(payouts + [p], PendingOf(u)) + Sum(payouts + [p], PaidTo(u)) ==
            Sum(payouts, PendingOf(u)) + Sum(payouts, PaidTo(u)) + if p.user == u then Taken(p) else 0
  {
    SumPush(payouts, p, PendingOf(u));
    SumPush(payouts, p, PaidTo(u));
    TakenIs(p, u);
  }

  lemma TakenUpdate(payouts: seq<Payout>, i: nat, p: Payout, u: UserId)
    requires i < |payouts| && p.user == payouts[i].user
    ensures Sum(payouts[i := p], PendingOf(u)) + Sum(payouts[i := p], PaidTo(u)) ==
            Sum(payouts, PendingOf(u)) + Sum(payouts, PaidTo(u))
            + if p.user == u then Taken(p) - Taken(payouts[i]) else 0
  {
    SumUpdate(payouts, i, p, PendingOf(u));
    SumUpdate(payouts, i, p, PaidTo(u));
    TakenIs(p, u);
    TakenIs(payouts[i], u);
  }

  lemma GapNewPayout(s: State, p: Payout, u: UserId)
    ensures Gap(s.(payouts := s.payouts + [p]), u) == Gap(s, u) - if p.user == u then Taken(p) else 0
  {
    TakenPush(s.payouts, p, u);
  }

  /** The row's share of the shift and the ledger's. */
  lemma WithdrawShiftIs(user: UserId, amount: int, call: PayoutCall)
    ensures WithdrawShift(amount, call) ==
            (if IsRecorded(call) then amount else 0) - Taken(PayoutRow(user, amount, call))
  {
  }

  lemma GapWithdraw(s: State, user: UserId, amount: int, call: PayoutCall, u: UserId)
    ensures Gap(WithdrawOf(s, user, amount, call), u) ==
            Gap(s, u) + if user == u then WithdrawShift(amount, call) else 0
  {
    var p := PayoutRow(user, amount, call);
    WithdrawShiftIs(user, amount, call);
    GapNewPayout(s, p, u);
    GapRecord(s.(payouts := s.payouts + [p]), user, PAYOUT, -amount, u);
  }

  lemma GapStatus(s: State, i: nat, to: PayoutStatus, u: UserId)
    requires i < |s.payouts|
    ensures var p := s.payouts[i];
            Gap(s.(payouts := s.payouts[i := p.(status := to)]), u) ==
            Gap(s, u) + if p.user == u then Taken(p) - Taken(p.(status := to)) else 0
  {
    TakenUpdate(s.payouts, i, s.payouts[i].(status := to), u);
  }

  /** The row's share of the shift and the ledger's. */
  lemma EventShiftIs(p: Payout, to: PayoutStatus, recordThrows: bool)
    requires p.linked && p.status != to && to in {PAID, PayoutStatus.FAILED, CANCELED}
    ensures EventShift(p, to, recordThrows) ==
            Taken(p) - Taken(p.(status := to)) - if Failing(to) && !recordThrows then p.amount else 0
  {
  }

  lemma GapEvent(s: State, i: nat, to: PayoutStatus, recordThrows: bool, u: UserId)
    requires i < |s.payouts| && to in {PAID, PayoutStatus.FAILED, CANCELED}
    ensures Gap(PayoutEventOf(s, i, to, recordThrows), u) ==
            Gap(s, u) + if s.payouts[i].user == u then EventShift(s.payouts[i], to, recordThrows) else 0
  {
    var p := s.payouts[i];
    if p.linked && p.status != to {
      var t := s.(payouts := s.payouts[i := p.(status := to)]);
      EventShiftIs(p, to, recordThrows);
      GapStatus(s, i, to, u);
      GapRecord(t, p.user, PAYOUT, p.amount, u);
    }
  }

  lemma GapCharge(s: State, p: nat, status: PaymentStatus, amount: int, u: UserId)
    requires p < |s.payments|
    ensures Gap(Record(s.(payments := s.payments[p := s.payments[p].(status := status)]), s.payments[p].payer,
            CHARGE, amount), u)
            == Gap(s, u)
  {
    SumPush(s.ledger, Transaction(s.payments[p].payer, CHARGE, amount), LedgerOf(u));
  }

  /** Orders, deals and payments before their release shift nothing. */
  lemma GapPayment(cfg: Config, s: State, a: Action, u: UserId)
    requires !a.Release? && !a.RefundPayment? && !a.Withdraw? && !a.PayoutEvent?
    ensures Gap(Step(cfg, s, a), u) == Gap(s, u)
  {
    match a
    case PayOrder(o, payer, recipient, _) =>
      if Step(cfg, s, a) != s { GapCreate(cfg, s, ForOrder(o), payer, recipient, s.orders[o].subtotal, u); }
    case PayDeal(d, payer, _) =>
      if Step(cfg, s, a) != s {
        GapCreate(cfg, s, ForDeal(d), payer, s.deals[d].creator, s.deals[d].terms.totalValue.value, u);
      }
    case PaymentSucceeded(p) =>
      if p < |s.payments| { GapCharge(s, p, SUCCEEDED, -s.payments[p].amount, u); }
    case _ =>
  }

  /** Every call moves every user's balance from the ledger by exactly its shift, whatever throws in it. */
  lemma GapStep(cfg: Config, s: State, a: Action, u: UserId)
    requires Inv(s)
    ensures Gap(Step(cfg, s, a), u) == Gap(s, u) + Shift(cfg, s, a, u)
  {
    match a
    case PlaceOrder(_, _) => GapPayment(cfg, s, a, u);
    case OrderStep(_, _) => GapPayment(cfg, s, a, u);
    case OpenDeal(_, _, _, _) => GapPayment(cfg, s, a, u);
    case DealStep(_, _) => GapPayment(cfg, s, a, u);
    case PayOrder(_, _, _, _) => GapPayment(cfg, s, a, u);
    case PayDeal(_, _, _) => GapPayment(cfg, s, a, u);
    case PaymentSucceeded(_) => GapPayment(cfg, s, a, u);
    case PaymentFailed(_) => GapPayment(cfg, s, a, u);
    case Release(_, _, _) => if T.Releases(s, a) { GapRelease(cfg, s, a, u); }
    case RefundPayment(p, fault) => if Refundable(s, p) { GapRefund(s, p, fault, u); }
    case Withdraw(user, requested, active, call) =>
      var amount := Admissible(cfg, s, user, requested, active);
      if amount.Some? { GapWithdraw(s, user, amount.value, call, u); }
    case PayoutEvent(i, to, recordThrows) =>
      if i < |s.payouts| && to in {PAID, PayoutStatus.FAILED, CANCELED} { GapEvent(s, i, to, recordThrows, u); }
  }

  // ---- all runs: the difference is the sum of the shifts ----

  function TotalShift(cfg: Config, s: State, acts: seq<Action>, u: UserId): int {
    if acts == [] then 0 else
    TotalShift(cfg, s, acts[..|acts| - 1], u) + Shift(cfg, Run(cfg, s, acts[..|acts| - 1]), acts[|acts| - 1], u)
  }

  /** In every run, whatever throws: a user's balance exceeds the ledger by exactly what its calls shifted. */
  lemma {:induction false} GapRun(cfg: Config, s: State, acts: seq<Action>, u: UserId)
    requires Legit(cfg) && Inv(s)
    ensures Gap(Run(cfg, s, acts), u) == Gap(s, u) + TotalShift(cfg, s, acts, u)
  {
    if acts != [] {
      GapRun(cfg, s, acts[..|acts| - 1], u);
      InvRun(cfg, s, acts[..|acts| - 1]);
      GapStep(cfg, Run(cfg, s, acts[..|acts| - 1]), acts[|acts| - 1], u);
    }
  }

  // ---- the calls that shift anything ----

  predicate BreaksByRelease(s: State, a: Action) {
    T.LosesRecord(s, a) && s.splits[a.fault.split].amount != 0
  }

  /** Stripe's failure is recorded as a withdrawal, or a withdrawal that stands is not recorded. */
  predicate BreaksByWithdraw(cfg: Config, s: State, a: Action) {
    && a.Withdraw? && Admissible(cfg, s, a.user, a.requested, a.accountActive).Some?
    && var call := a.call;
       if call.stripe.Throws? || call.dbFault == Some(RowWriteThrows) then call.markThrows
       else
         var failing := Failing(MapStripeStatus(call.stripe.status));
         if call.dbFault == Some(RecordThrows) then call.markThrows && !failing
         else if call.dbFault == Some(RecordLost) then !(call.markThrows && !failing)
         else failing
  }

  /** An event for a payout that already failed, or a failure whose compensation throws. */
  predicate BreaksByEvent(s: State, a: Action) {
    && a.PayoutEvent? && a.payout < |s.payouts| && a.to in {PAID, PayoutStatus.FAILED, CANCELED}
    && s.payouts[a.payout].linked && s.payouts[a.payout].status != a.to
    && if Failing(s.payouts[a.payout].status) then !(Failing(a.to) && a.recordThrows)
       else Failing(a.to) && a.recordThrows
  }

  predicate Breaks(cfg: Config, s: State, a: Action) {
    BreaksByRelease(s, a) || BreaksByWithdraw(cfg, s, a) || BreaksByEvent(s, a)
  }

  ghost predicate Agrees(s: State) {
    forall u :: Gap(s, u) == 0
  }

  /** Whose balance a call can shift. */
  function Affected(s: State, a: Action): UserId {
    match a
    case Release(_, _, fault) =>
      if T.LosesRecord(s, a) then s.splits[fault.split].recipient.value else ""
    case Withdraw(user, _, _, _) => user
    case PayoutEvent(i, _, _) => if i < |s.payouts| then s.payouts[i].user else ""
    case _ => ""
  }

  lemma ShiftIff(cfg: Config, s: State, a: Action)
    requires Inv(s)
    ensures Breaks(cfg, s, a) <==> Shift(cfg, s, a, Affected(s, a)) != 0
    ensures forall u :: u != Affected(s, a) ==> Shift(cfg, s, a, u) == 0
  {
  }

  /** From agreement, a call makes some user's balance differ from the ledger exactly when it is one of those. */
  lemma DisagreesIff(cfg: Config, s: State, a: Action)
    requires Inv(s) && Agrees(s)
    ensures !Agrees(Step(cfg, s, a)) <==> Breaks(cfg, s, a)
  {
    ShiftIff(cfg, s, a);
    GapStep(cfg, s, a, Affected(s, a));
    if !Breaks(cfg, s, a) {
      forall u ensures Gap(Step(cfg, s, a), u) == 0 {
        GapStep(cfg, s, a, u);
      }
    }
  }

  predicate NeverBreaks(cfg: Config, s: State, acts: seq<Action>) {
    acts != [] ==>
      && NeverBreaks(cfg, s, acts[..|acts| - 1])
      && !Breaks(cfg, Run(cfg, s, acts[..|acts| - 1]), acts[|acts| - 1])
  }

  // ---- the balance is never negative, exactly until when ----

  /** A payout that had failed is reported paid, and its amount has been spent otherwise meanwhile. */
  predicate Overdraws(s: State, a: Action, u: UserId) {
    && a.PayoutEvent? && a.payout < |s.payouts| && a.to == PAID
    && var p := s.payouts[a.payout];
       p.user == u && p.linked && Failing(p.status) && p.amount > Available(s.splits, s.payouts, u)
  }

  lemma AvailableTurn(s: State, i: nat, fault: Fault, u: UserId)
    requires i < |s.splits| && s.splits[i].amount >= 0
    ensures Available(ReleaseOne(s, i, fault).0.splits, s.payouts, u) >= Available(s.splits, s.payouts, u)
  {
    SumUpdate(s.splits, i, s.splits[i].(status := RELEASED), EarnedBy(u));
  }

  lemma AvailablePair(s: State, first: nat, second: nat, fault: Fault, u: UserId)
    requires first < |s.splits| && second < |s.splits| && first != second
    requires s.splits[first].amount >= 0 && s.splits[second].amount >= 0
    ensures Available(ReleasePair(s, first, second, fault).splits, s.payouts, u) >= Available(s.splits, s.payouts, u)
  {
    AvailableTurn(s, first, fault, u);
    AvailableTurn(ReleaseOne(s, first, fault).0, second, fault, u);
  }

  lemma AvailableRelease(cfg: Config, s: State, a: Action, u: UserId)
    requires Inv(s) && T.Releases(s, a)
    ensures Available(Step(cfg, s, a).splits, s.payouts, u) >= Available(s.splits, s.payouts, u)
    ensures Step(cfg, s, a).payouts == s.payouts
  {
    T.ReleaseStep(cfg, s, a.p, a.read, a.fault);
    assert PaymentInv(s, a.p);
    AvailablePair(s, a.read[0], a.read[1], a.fault, u);
  }

  lemma AvailablePush(s: State, p: Payout, u: UserId)
    ensures var after := Available(s.splits, s.payouts + [p], u);
            after == Available(s.splits, s.payouts, u) - if p.user == u then Taken(p) else 0
  {
    TakenPush(s.payouts, p, u);
  }

  lemma AvailableEvent(s: State, i: nat, to: PayoutStatus, recordThrows: bool, u: UserId)
    requires i < |s.payouts| && s.payouts[i].amount > 0 && Available(s.splits, s.payouts, u) >= 0
    requires to in {PAID, PayoutStatus.FAILED, CANCELED}
    ensures Available(s.splits, PayoutEventOf(s, i, to, recordThrows).payouts, u) < 0 <==>
            Overdraws(s, PayoutEvent(i, to, recordThrows), u)
  {
    TakenUpdate(s.payouts, i, s.payouts[i].(status := to), u);
  }

  /** Where neither side of the ledger moves, the gap says how the balance does. */
  lemma AvailableByGap(cfg: Config, s: State, a: Action, u: UserId)
    requires Inv(s) && !a.Release? && !a.Withdraw? && !a.PayoutEvent?
    ensures Available(Step(cfg, s, a).splits, Step(cfg, s, a).payouts, u) == Available(s.splits, s.payouts, u)
  {
    GapStep(cfg, s, a, u);
    LedgerElsewhere(cfg, s, a, u);
  }

  lemma OtherKind(ledger: seq<Transaction>, t: Transaction, u: UserId)
    requires t.kind in {CHARGE, REFUND}
    ensures Sum(ledger + [t], LedgerOf(u)) == Sum(ledger, LedgerOf(u))
  {
    SumPush(ledger, t, LedgerOf(u));
  }

  lemma LedgerElsewhere(cfg: Config, s: State, a: Action, u: UserId)
    requires !a.Release? && !a.Withdraw? && !a.PayoutEvent?
    ensures Sum(Step(cfg, s, a).ledger, LedgerOf(u)) == Sum(s.ledger, LedgerOf(u))
  {
    if a.PaymentSucceeded? && a.p < |s.payments| {
      OtherKind(s.ledger, Transaction(s.payments[a.p].payer, CHARGE, -s.payments[a.p].amount), u);
    } else if a.RefundPayment? && a.p < |s.payments| {
      OtherKind(s.ledger, Transaction(s.payments[a.p].payer, REFUND, s.payments[a.p].amount), u);
    }
  }

  /** One call makes a user's balance negative exactly when it is that event. */
  lemma OverdrawnIff(cfg: Config, s: State, a: Action, u: UserId)
    requires Inv(s) && Available(s.splits, s.payouts, u) >= 0
    ensures var t := Step(cfg, s, a); Available(t.splits, t.payouts, u) < 0 <==> Overdraws(s, a, u)
  {
    match a
    case Release(_, _, _) => if T.Releases(s, a) { AvailableRelease(cfg, s, a, u); }
    case Withdraw(user, requested, active, call) =>
      var amount := Admissible(cfg, s, user, requested, active);
      if amount.Some? { AvailablePush(s, PayoutRow(user, amount.value, call), u); }
    case PayoutEvent(i, to, recordThrows) =>
      if i < |s.payouts| && to in {PAID, PayoutStatus.FAILED, CANCELED} { AvailableEvent(s, i, to, recordThrows, u); }
    case _ => AvailableByGap(cfg, s, a, u);
  }

  /** The balance is the sum of the user's TRANSFER and PAYOUT transactions, and not negative. */
  predicate Balanced(s: State, u: UserId) {
    Gap(s, u) == 0 && Available(s.splits, s.payouts, u) >= 0
  }

  /** In every run none of whose calls breaks the agreement, each user's balance stays the ledger's. */
  lemma {:induction false} BalanceEqualsLedger(cfg: Config, s: State, acts: seq<Action>, u: UserId)
    requires Legit(cfg) && Inv(s) && Balanced(s, u) && NeverBreaks(cfg, s, acts)
    ensures Balanced(Run(cfg, s, acts), u)
  {
    if acts != [] {
      var t, a := Run(cfg, s, acts[..|acts| - 1]), acts[|acts| - 1];
      BalanceEqualsLedger(cfg, s, acts[..|acts| - 1], u);
      InvRun(cfg, s, acts[..|acts| - 1]);
      BalancedStep(cfg, t, a, u);
    }
  }

  lemma BalancedStep(cfg: Config, s: State, a: Action, u: UserId)
    requires Inv(s) && Balanced(s, u) && !Breaks(cfg, s, a)
    ensures Balanced(Step(cfg, s, a), u)
  {
    GapStep(cfg, s, a, u);
    ShiftIff(cfg, s, a);
    OverdrawnIff(cfg, s, a, u);
  }

  /** The empty tables have everything the runs start from. */
  lemma InitHolds(u: UserId)
    ensures Inv(Init) && T.ToldOnce(Init) && T.OneWay(Init) && T.Books(Init) && Balanced(Init, u)
  {
  }

  // ---- what is never repaired ----

  /**
    A failed payout whose compensation throws: the balance has the money back, the ledger does not, and Stripe
    sending the event again, however often, changes nothing.
   */
  lemma {:induction false} LostCompensationStays(cfg: Config, s: State, i: nat, to: PayoutStatus, retries: seq<Action>)
    requires Inv(s) && i < |s.payouts| && s.payouts[i].linked && !Failing(s.payouts[i].status) && Failing(to)
    requires forall k :: 0 <= k < |retries| ==> retries[k].PayoutEvent? && retries[k].payout == i && retries[k].to == to
    ensures var t := Run(cfg, Step(cfg, s, PayoutEvent(i, to, true)), retries);
            && t == Step(cfg, s, PayoutEvent(i, to, true))
            && Gap(t, s.payouts[i].user) == Gap(s, s.payouts[i].user) + s.payouts[i].amount
  {
    GapStep(cfg, s, PayoutEvent(i, to, true), s.payouts[i].user);
    if retries != [] {
      LostCompensationStays(cfg, s, i, to, retries[..|retries| - 1]);
    }
  }

  /**
    A withdrawal Stripe refuses and that cannot be marked so holds the amount back for good: no event finds its row.
   */
  lemma {:induction false} UnlinkedPayoutStays(cfg: Config, s: State, i: nat, acts: seq<Action>)
    requires i < |s.payouts| && !s.payouts[i].linked
    ensures i < |Run(cfg, s, acts).payouts| && Run(cfg, s, acts).payouts[i] == s.payouts[i]
  {
    if acts != [] {
      UnlinkedPayoutStays(cfg, s, i, acts[..|acts| - 1]);
      UnlinkedStep(cfg, Run(cfg, s, acts[..|acts| - 1]), i, acts[|acts| - 1]);
    }
  }

  lemma UnlinkedStep(cfg: Config, s: State, i: nat, a: Action)
    requires i < |s.payouts| && !s.payouts[i].linked
    ensures i < |Step(cfg, s, a).payouts| && Step(cfg, s, a).payouts[i] == s.payouts[i]
  {
  }

  // ---- runs in which each of them happens ----

  const CFG := Config(0.0, 1)

  /** The splits of a deal of 100 for "c", without a fee. */
  function DealSplits(status: SplitStatus): seq<Split> {
    [Split(0, None, true, 0, status), Split(0, Some("c"), false, 100, status)]
  }

  lemma AgreedDeal() returns (acts: seq<Action>, t: State, deal: D.Deal)
    ensures t == Run(CFG, Init, acts) && t == Init.(deals := map["d" := deal])
    ensures deal.status == D.ACTIVE && deal.terms.totalValue == Some(100) && deal.creator == "c"
  {
    var cfg, terms := CFG, D.Terms(Some(100), None, None, None, None);
    var talks := D.Create("b", "c", terms).value;
    t := Init;
    DealOpens(cfg, t, "d", "b", "c", terms);
    acts, t := Then(cfg, Init, [], t, OpenDeal("d", "b", "c", terms));
    assert t == Init.(deals := map["d" := talks]);
    deal := D.Step(talks, D.Accept(0, "c"));
    DealMoves(cfg, t, "d", D.Accept(0, "c"));
    acts, t := Then(cfg, Init, acts, t, DealStep("d", D.Accept(0, "c")));
    assert t == Init.(deals := map["d" := deal]);
    ValueAgreed(terms, 100);
  }

  lemma ValueAgreed(terms: D.Terms, value: nat)
    requires terms == D.Terms(Some(value), None, None, None, None)
    ensures D.Create("b", "c", terms).Some?
    ensures var deal := D.Step(D.Create("b", "c", terms).value, D.Accept(0, "c"));
            deal.status == D.ACTIVE && deal.terms.totalValue == Some(value) && deal.creator == "c"
  {
  }

  lemma DealOpens(cfg: Config, s: State, d: DealId, brand: UserId, creator: UserId, terms: D.Terms)
    requires d !in s.deals && D.Create(brand, creator, terms).Some?
    ensures Step(cfg, s, OpenDeal(d, brand, creator, terms)) ==
            s.(deals := s.deals[d := D.Create(brand, creator, terms).value])
  {
  }

  lemma DealMoves(cfg: Config, s: State, d: DealId, a: D.Action)
    requires d in s.deals
    ensures Step(cfg, s, DealStep(d, a)) == s.(deals := s.deals[d := D.Step(s.deals[d], a)])
  {
  }

  /** The agreed deal of 100 gets its payment, with no fee. */
  lemma AwaitedDeal() returns (acts: seq<Action>, t: State, deal: D.Deal)
    ensures t == Run(CFG, Init, acts) && deal.status == D.ACTIVE
    ensures t == Init.(deals := map["d" := deal], payments := t.payments, splits := t.splits)
    ensures t.payments == [Payment(ForDeal("d"), "b", 100, REQUIRES_PAYMENT)]
    ensures t.splits == DealSplits(SplitStatus.PENDING)
  {
    acts, t, deal := AgreedDeal();
    assert !HasPayment(t, ForDeal("d"));
    assert PlatformFee(100, 0.0) == 0;
    acts, t := Then(CFG, Init, acts, t, PayDeal("d", "b", Answers("")));
    assert t == CreatePayment(CFG, Init, ForDeal("d"), "b", "c", 100).(deals := map["d" := deal]);
  }

  /** It is paid, and the deal completed. */
  lemma FundedDeal() returns (acts: seq<Action>, t: State)
    ensures t == Run(CFG, Init, acts)
    ensures t.payments == [Payment(ForDeal("d"), "b", 100, SUCCEEDED)] && Fulfilled(t, ForDeal("d"))
    ensures t.splits == DealSplits(SplitStatus.PENDING)
    ensures t.payouts == [] && t.transfers == multiset{} && t.ledger == [Transaction("b", CHARGE, -100)]
  {
    var deal;
    acts, t, deal := AwaitedDeal();
    acts, t := Then(CFG, Init, acts, t, PaymentSucceeded(0));
    DealMoves(CFG, t, "d", D.Complete);
    acts, t := Then(CFG, Init, acts, t, DealStep("d", D.Complete));
  }

  /** Nothing earned and nothing paid out yet. */
  lemma FundedAgrees(t: State)
    requires t.splits == DealSplits(SplitStatus.PENDING)
    requires t.payouts == [] && t.ledger == [Transaction("b", CHARGE, -100)]
    ensures Agrees(t)
  {
    forall u ensures Gap(t, u) == 0 {
      SumTwo(t.splits[0], t.splits[1], EarnedBy(u));
      SumOne(t.ledger[0], LedgerOf(u));
    }
  }

  lemma FundedReads(t: State)
    requires t.splits == DealSplits(SplitStatus.PENDING)
    ensures ReadOrder(t, 0, [0, 1]) && ReadOrder(t, 0, [1, 0])
  {
    assert [0, 1][0] == 0 && [0, 1][1] == 1 && [1, 0][0] == 1 && [1, 0][1] == 0;
  }

  /** Fee and share released, from a state in which both are pending. */
  lemma BothReleased(cfg: Config, s: State)
    requires Inv(s) && Releasable(s, 0) && ReadOrder(s, 0, [0, 1])
    requires s.splits == DealSplits(SplitStatus.PENDING)
    ensures Step(cfg, s, Release(0, [0, 1], NoFault)).splits ==
            DealSplits(RELEASED)
    ensures Step(cfg, s, Release(0, [0, 1], NoFault)).payouts == s.payouts
  {
    T.ReleaseStep(cfg, s, 0, [0, 1], NoFault);
  }

  /** The funded deal's 100 released to "c". */
  lemma ReleasedDeal() returns (acts: seq<Action>, t: State)
    ensures t == Run(CFG, Init, acts) && Inv(t) && Agrees(t) && t.payouts == []
            && Available(t.splits, t.payouts, "c") == 100
  {
    acts, t := FundedDeal();
    var a := Release(0, [0, 1], NoFault);
    FundedAgrees(t);
    FundedReads(t);
    InvRun(CFG, Init, acts);
    BothReleased(CFG, t);
    DisagreesIff(CFG, t, a);
    acts, t := Then(CFG, Init, acts, t, a);
    InvRun(CFG, Init, acts);
    SumTwo(t.splits[0], t.splits[1], EarnedBy("c"));
  }

  /** The split's row is written, and recording the transfer throws. */
  lemma UnrecordedTransfer() returns (acts: seq<Action>, a: Action)
    ensures var s := Run(CFG, Init, acts); Inv(s) && Agrees(s) && BreaksByRelease(s, a) && !Agrees(Step(CFG, s, a))
  {
    var t;
    acts, t := FundedDeal();
    FundedAgrees(t);
    FundedReads(t);
    InvRun(CFG, Init, acts);
    a := Release(0, [0, 1], Fault(1, RecordThrows));
    DisagreesIff(CFG, t, a);
  }

  /** Stripe answers `failed` at once: the money is back in the balance, and the withdrawal stays recorded. */
  lemma FailureAtCreation() returns (acts: seq<Action>, a: Action)
    ensures var s := Run(CFG, Init, acts);
            Inv(s) && Agrees(s) && BreaksByWithdraw(CFG, s, a) && !Agrees(Step(CFG, s, a))
  {
    var t;
    acts, t := ReleasedDeal();
    a := Withdraw("c", None, true, PayoutCall(Answers("failed"), None, false));
    DisagreesIff(CFG, t, a);
  }

  lemma WithdrawnAll(cfg: Config, t: State, a: Action)
    requires a == Withdraw("c", None, true, PayoutCall(Answers("pending"), None, false)) && Legit(cfg)
             && cfg.minimumPayout <= 100
    requires Inv(t) && Agrees(t) && t.payouts == [] && Available(t.splits, t.payouts, "c") == 100
    ensures var u := Step(cfg, t, a); Inv(u) && Agrees(u) && u.payouts == [Payout("c", 100, PayoutStatus.PENDING, true)]
  {
    AllAdmitted(cfg, t, a);
    assert t.payouts + [Payout("c", 100, PayoutStatus.PENDING, true)] == [Payout("c", 100, PayoutStatus.PENDING, true)];
    DisagreesIff(cfg, t, a);
    InvStep(cfg, t, a);
  }

  lemma AllAdmitted(cfg: Config, t: State, a: Action)
    requires a == Withdraw("c", None, true, PayoutCall(Answers("pending"), None, false)) && cfg.minimumPayout <= 100
    requires Available(t.splits, t.payouts, "c") == 100
    ensures !Breaks(cfg, t, a)
    ensures Step(cfg, t, a).payouts == t.payouts + [Payout("c", 100, PayoutStatus.PENDING, true)]
  {
    assert Admissible(cfg, t, "c", None, true) == Some(100);
    assert MapStripeStatus("pending") == PayoutStatus.PENDING;
  }

  const REPORTED_FAILED := PayoutEvent(0, PayoutStatus.FAILED, false)

  const REPORTED_PAID := PayoutEvent(0, PAID, false)

  lemma FailedThenPaid(t: State)
    requires Inv(t) && Agrees(t) && t.payouts == [Payout("c", 100, PayoutStatus.PENDING, true)]
    ensures var u := Step(CFG, t, REPORTED_FAILED);
            Inv(u) && Agrees(u) && BreaksByEvent(u, REPORTED_PAID) && !Agrees(Step(CFG, u, REPORTED_PAID))
  {
    DisagreesIff(CFG, t, REPORTED_FAILED);
    InvStep(CFG, t, REPORTED_FAILED);
    DisagreesIff(CFG, Step(CFG, t, REPORTED_FAILED), REPORTED_PAID);
  }

  /** Stripe reports `failed` and then `paid`: the money has left, and the ledger still gave it back. */
  lemma PaidAfterFailure() returns (acts: seq<Action>, a: Action)
    ensures var s := Run(CFG, Init, acts);
            Inv(s) && Agrees(s) && BreaksByEvent(s, a) && !Agrees(Step(CFG, s, a))
  {
    var t;
    acts, t := ReleasedDeal();
    var drawn := Withdraw("c", None, true, PayoutCall(Answers("pending"), None, false));
    WithdrawnAll(CFG, t, drawn);
    acts, t := Then(CFG, Init, acts, t, drawn);
    FailedThenPaid(t);
    acts, t := Then(CFG, Init, acts, t, REPORTED_FAILED);
    a := REPORTED_PAID;
  }

  /** Stripe makes the transfer, its answer is lost, and the retry transfers again: no database call ever throws. */
  lemma TransferredTwice() returns (acts: seq<Action>, more: seq<Action>)
    ensures var s, a := Run(CFG, Init, acts), Release(0, [0, 1], Fault(1, AnswerLost));
            T.LosesTransfer(s, a) && Run(CFG, Step(CFG, s, a), more).transfers[1] >= 2
  {
    var t;
    acts, t := FundedDeal();
    FundedReads(t);
    InvRun(CFG, Init, acts);
    assert T.ToldInv(t);
    more := T.LostTransferIsRepeated(CFG, t, Release(0, [0, 1], Fault(1, AnswerLost)));
  }

  /** The share is read first, its transfer is made and the answer lost, and the payer is refunded after that. */
  lemma TransferredAndRefunded() returns (acts: seq<Action>)
    ensures var t := Run(CFG, Init, acts);
            t.transfers[1] == 1 && T.Refunded(t, 1) && T.PaidBothWays(t, 0)
  {
    var t;
    acts, t := FundedDeal();
    FundedReads(t);
    InvRun(CFG, Init, acts);
    ShareFirstLost(t);
    var told := Told(t, 1);
    RefundedAfterAll(t, told);
    acts, t := Then(CFG, Init, acts, t, Release(0, [1, 0], Fault(1, AnswerLost)));
    acts, t := Then(CFG, Init, acts, t, RefundPayment(0, None));
  }

  lemma RefundedAfterAll(s: State, told: State)
    requires Releasable(s, 0) && told == Told(s, 1) && s.transfers == multiset{}
    requires s.splits == DealSplits(SplitStatus.PENDING)
    ensures var t := Step(CFG, told, RefundPayment(0, None));
            t.transfers[1] == 1 && T.Refunded(t, 1) && T.PaidBothWays(t, 0)
  {
    assert Refundable(told, 0);
  }

  lemma ShareFirstLost(s: State)
    requires Inv(s) && Releasable(s, 0) && ReadOrder(s, 0, [1, 0])
    requires s.splits == DealSplits(SplitStatus.PENDING)
    ensures Step(CFG, s, Release(0, [1, 0], Fault(1, AnswerLost))) == Told(s, 1)
  {
    T.ReleaseStep(CFG, s, 0, [1, 0], Fault(1, AnswerLost));
  }
}
