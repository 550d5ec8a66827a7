/**
  What a payer is charged, what is held for whom, and what comes back: the payments of
  src/payments/services/payments.service.ts and its webhook, told from orders, deals and the fee alone.
 */
module Payers {
  import opened Finance
  import opened Fees
  import opened Util
  import D = Deals
  import O = Orders
  import T = Transfers

  // ---- which payments are made, and what for ----

  /** What a payment for the subject would be worth, if it can be paid now and was not before. */
  function Payable(s: State, subject: Subject): Option<int> {
    match subject
    case ForOrder(o) =>
      if o in s.orders && s.orders[o].status == O.PENDING_PAYMENT && !IsPaidFor(s, subject)
      then Some(s.orders[o].subtotal) else None
    case ForDeal(d) =>
      if d in s.deals && s.deals[d].status == D.ACTIVE && s.deals[d].terms.totalValue.Some?
         && s.deals[d].terms.totalValue.value > 0 && !IsPaidFor(s, subject)
      then Some(s.deals[d].terms.totalValue.value) else None
  }

  predicate IsPaidFor(s: State, subject: Subject) {
    exists p :: p in s.payments && p.subject == subject
  }

  lemma HasPaymentIff(s: State, subject: Subject)
    ensures HasPayment(s, subject) <==> IsPaidFor(s, subject)
  {
    if HasPayment(s, subject) {
      var k :| 0 <= k < |s.payments| && s.payments[k].subject == subject;
      assert s.payments[k] in s.payments;
    }
  }

  /**
    One payment of that worth, and two splits of it: the fee, within half a unit of its percentage, and the rest for
    the recipient.
   */
  ghost predicate Pays(cfg: Config, s: State, t: State, subject: Subject, payer: UserId, recipient: UserId,
      worth: int) {
    && t == s.(payments := t.payments, splits := t.splits)
    && t.payments == s.payments + [Payment(subject, payer, worth, REQUIRES_PAYMENT)]
    && |t.splits| == |s.splits| + 2 && t.splits[..|s.splits|] == s.splits
    && var fee, share, exact :=
         t.splits[|s.splits|], t.splits[|s.splits| + 1], worth as real * cfg.feePercent / 100.0;
       && fee.isPlatformFee && fee.recipient == None && exact - 0.5 < fee.amount as real <= exact + 0.5
       && !share.isPlatformFee && share.recipient == Some(recipient) && share.amount == worth - fee.amount
       && fee.payment == share.payment == |s.payments|
       && fee.status == share.status == SplitStatus.PENDING
  }

  lemma CreatePays(cfg: Config, s: State, subject: Subject, payer: UserId, recipient: UserId, worth: nat)
    requires Legit(cfg)
    ensures Pays(cfg, s, CreatePayment(cfg, s, subject, payer, recipient, worth), subject, payer, recipient, worth)
  {
    FeeConserves(worth, cfg.feePercent);
  }

  /** An order is paid once, before anything else became of it, at its subtotal. */
  lemma OrderPaidIff(cfg: Config, s: State, o: OrderId, payer: UserId, recipient: UserId, stripe: StripeAnswer)
    requires Legit(cfg) && (o in s.orders ==> s.orders[o].subtotal >= 0)
    ensures var t, worth := Step(cfg, s, PayOrder(o, payer, recipient, stripe)), Payable(s, ForOrder(o));
            if worth.Some? && stripe.Answers? then Pays(cfg, s, t, ForOrder(o), payer, recipient, worth.value)
            else t == s
  {
    HasPaymentIff(s, ForOrder(o));
    if Payable(s, ForOrder(o)).Some? && stripe.Answers? {
      CreatePays(cfg, s, ForOrder(o), payer, recipient, s.orders[o].subtotal);
    }
  }

  /** A deal is paid once, while it is active, at its agreed value, for its creator. */
  lemma DealPaidIff(cfg: Config, s: State, d: DealId, payer: UserId, stripe: StripeAnswer)
    requires Legit(cfg)
    ensures var t, worth := Step(cfg, s, PayDeal(d, payer, stripe)), Payable(s, ForDeal(d));
            if worth.Some? && stripe.Answers?
            then Pays(cfg, s, t, ForDeal(d), payer, s.deals[d].creator, worth.value)
            else t == s
  {
    HasPaymentIff(s, ForDeal(d));
    if Payable(s, ForDeal(d)).Some? && stripe.Answers? {
      CreatePays(cfg, s, ForDeal(d), payer, s.deals[d].creator, s.deals[d].terms.totalValue.value);
    }
  }

  // ---- what becomes of a payment ----

  /** How a payment's status changes, and which calls change it. */
  lemma PaymentStatusIff(cfg: Config, s: State, a: Action, p: nat)
    requires p < |s.payments|
    ensures var pay, after := s.payments[p], Step(cfg, s, a).payments[p];
            var refunds := a.RefundPayment? && a.p == p && pay.status == SUCCEEDED && !HasReleased(s, p)
                           && a.refundFault !in {Some(ForeignThrows), Some(AnswerLost), Some(RowWriteThrows)};
            after == pay.(status :=
              if a == PaymentSucceeded(p) then SUCCEEDED
              else if a == PaymentFailed(p) && pay.status != SUCCEEDED then PaymentStatus.FAILED
              else if refunds then PaymentStatus.REFUNDED
              else pay.status)
  {
  }

  /** Escrow is paid out for an order that was shipped or a deal that is completed. */
  predicate Delivered(s: State, subject: Subject) {
    match subject
    case ForOrder(o) => o in s.orders && (s.orders[o].status == O.FULFILLED || s.orders[o].status == O.COMPLETED)
    case ForDeal(d) => d in s.deals && s.deals[d].status == D.COMPLETED
  }

  /**
    Nothing throws: a release pays out exactly a succeeded payment whose subject is delivered.  Both its splits end
    RELEASED unless refunded, the recipient is sent the share if it was still due, and the ledger says so.
   */
  lemma ReleasedIff(cfg: Config, s: State, p: nat, read: seq<nat>)
    requires Inv(s) && p < |s.payments| && ReadOrder(s, p, read)
    ensures var t := Step(cfg, s, Release(p, read, NoFault));
            var fee, share := s.splits[2 * p], s.splits[2 * p + 1];
            var due := share.status == SplitStatus.PENDING;
            if s.payments[p].status == SUCCEEDED && Delivered(s, s.payments[p].subject) then
              && share.recipient.Some?
              && t == s.(splits := t.splits, ledger := t.ledger, transfers := t.transfers)
              && t.splits == s.splits[2 * p := ReleasedRow(fee)][2 * p + 1 := ReleasedRow(share)]
              && t.transfers == s.transfers + (if due then multiset{2 * p + 1} else multiset{})
              && t.ledger == s.ledger
                   + (if due then [Transaction(share.recipient.value, TRANSFER, share.amount)] else [])
            else t == s
  {
    assert PaymentInv(s, p);
    if Releasable(s, p) {
      T.ReleaseSettles(cfg, s, p, read);
      SettledIs(s, 2 * p, 2 * p + 1);
    }
  }

  /** The fee's turn makes one call, the write of its row: only that can fail there, before or after it took effect. */
  lemma FeeTurnIs(s: State, i: nat, fault: Fault)
    requires i < |s.splits| && s.splits[i].isPlatformFee && s.splits[i].status == SplitStatus.PENDING
    ensures var (t, more) := ReleaseOne(s, i, fault);
            && t == (if fault == Fault(i, RowWriteThrows) then s
                     else s.(splits := s.splits[i := s.splits[i].(status := RELEASED)]))
            && (more <==> fault != Fault(i, RowWriteThrows) && fault != Fault(i, RecordThrows))
  {
  }

  /** The row once released; one that is no longer PENDING stays as it is. */
  function ReleasedRow(sp: Split): Split {
    if sp.status == SplitStatus.PENDING then sp.(status := RELEASED) else sp
  }

  lemma SettledIs(s: State, fee: nat, share: nat)
    requires T.IsPair(s, fee, share)
    ensures var t, sp := T.Settled(s, fee, share), s.splits[share];
            var due := sp.status == SplitStatus.PENDING;
            && t == s.(splits := t.splits, ledger := t.ledger, transfers := t.transfers)
            && t.splits == s.splits[fee := ReleasedRow(s.splits[fee])][share := ReleasedRow(sp)]
            && t.transfers == s.transfers + (if due then multiset{share} else multiset{})
            && t.ledger == s.ledger + (if due then [Transaction(sp.recipient.value, TRANSFER, sp.amount)] else [])
  {
    var f := T.Turn(s, fee);
    assert f == s.(splits := s.splits[fee := ReleasedRow(s.splits[fee])]);
    assert s.ledger + [] == s.ledger;
  }

  /** Nothing throws: a refund returns exactly a succeeded payment of which nothing was released, all of it. */
  lemma RefundedIff(cfg: Config, s: State, p: nat)
    requires Inv(s) && p < |s.payments|
    ensures var t, pay := Step(cfg, s, RefundPayment(p, None)), s.payments[p];
            var fee, share := s.splits[2 * p], s.splits[2 * p + 1];
            if pay.status == SUCCEEDED && fee.status != RELEASED && share.status != RELEASED then
              && t.payments == s.payments[p := pay.(status := PaymentStatus.REFUNDED)]
              && t.splits == s.splits[2 * p := fee.(status := SplitStatus.REFUNDED)]
                                     [2 * p + 1 := share.(status := SplitStatus.REFUNDED)]
              && t.returned == s.returned + multiset{p}
              && t.ledger == s.ledger + [Transaction(pay.payer, REFUND, pay.amount)]
              && t == s.(payments := t.payments, splits := t.splits, returned := t.returned, ledger := t.ledger)
            else t == s
  {
    assert PaymentInv(s, p);
    OwnSplits(s, p);
    if Refundable(s, p) {
      var t := RefundOf(s, p, None);
      assert t.splits == s.splits[2 * p := s.splits[2 * p].(status := SplitStatus.REFUNDED)]
                                 [2 * p + 1 := s.splits[2 * p + 1].(status := SplitStatus.REFUNDED)];
    }
  }

  // ---- the whole way of an order's money ----

  lemma Placed(cfg: Config, s: State, o: OrderId, subtotal: nat)
    requires o !in s.orders
    ensures Step(cfg, s, PlaceOrder(o, subtotal)) == s.(orders := s.orders[o := O.Placed(subtotal)])
  {
  }

  /** The rows of the new payment p and its splits, and how often Stripe was told of the share. */
  predicate IsPayment(t: State, p: nat, pay: Payment, recipient: UserId, status: SplitStatus, told: nat) {
    && |t.payments| == p + 1 && t.payments[p] == pay && |t.splits| == 2 * p + 2
    && t.splits[2 * p].status == t.splits[2 * p + 1].status == status
    && t.splits[2 * p + 1].recipient == Some(recipient)
    && t.splits[2 * p].amount + t.splits[2 * p + 1].amount == pay.amount
    && t.transfers[2 * p + 1] == told
  }

  lemma PaysIsPayment(cfg: Config, s: State, t: State, subject: Subject, payer: UserId, recipient: UserId, worth: int)
    requires |s.splits| == 2 * |s.payments| && Pays(cfg, s, t, subject, payer, recipient, worth)
    ensures IsPayment(t, |s.payments|, Payment(subject, payer, worth, REQUIRES_PAYMENT), recipient, SplitStatus.PENDING,
                      s.transfers[2 * |s.payments| + 1])
  {
  }

  /** Placed and paid for, before anything moved. */
  lemma PlacedAndPaid(cfg: Config, s: State, o: OrderId, subtotal: nat, payer: UserId, recipient: UserId)
    returns (acts: seq<Action>, t: State)
    requires Legit(cfg) && |s.splits| == 2 * |s.payments| && o !in s.orders && !HasPayment(s, ForOrder(o))
    ensures t == Run(cfg, s, acts) && o in t.orders && t.orders[o] == O.Placed(subtotal)
    ensures IsPayment(t, |s.payments|, Payment(ForOrder(o), payer, subtotal, REQUIRES_PAYMENT), recipient,
                      SplitStatus.PENDING, s.transfers[2 * |s.payments| + 1])
  {
    Placed(cfg, s, o, subtotal);
    acts, t := Then(cfg, s, [], s, PlaceOrder(o, subtotal));
    HasPaymentIff(t, ForOrder(o));
    OrderPaidIff(cfg, t, o, payer, recipient, Answers(""));
    PaysIsPayment(cfg, t, Step(cfg, t, PayOrder(o, payer, recipient, Answers(""))), ForOrder(o), payer, recipient,
                  subtotal);
    acts, t := Then(cfg, s, acts, t, PayOrder(o, payer, recipient, Answers("")));
  }

  /** The order moves on, and nothing else does. */
  lemma OrderMoves(cfg: Config, s: State, o: OrderId, a: O.Action)
    requires o in s.orders
    ensures Step(cfg, s, OrderStep(o, a)) == s.(orders := s.orders[o := O.Step(s.orders[o], a)])
  {
  }

  /** Its payment event and its shipment. */
  lemma Shipped(cfg: Config, s: State, acts0: seq<Action>, t0: State, o: OrderId) returns (acts: seq<Action>, t: State)
    requires Legit(cfg) && t0 == Run(cfg, s, acts0) && Inv(t0)
    requires o in t0.orders && t0.orders[o].status == O.PENDING_PAYMENT
    ensures t == Run(cfg, s, acts) && Inv(t) && t == t0.(orders := t.orders) && Delivered(t, ForOrder(o))
  {
    OrderMoves(cfg, t0, o, O.PaymentSucceeded);
    InvStep(cfg, t0, OrderStep(o, O.PaymentSucceeded));
    acts, t := Then(cfg, s, acts0, t0, OrderStep(o, O.PaymentSucceeded));
    OrderMoves(cfg, t, o, O.CreateShipment);
    InvStep(cfg, t, OrderStep(o, O.CreateShipment));
    acts, t := Then(cfg, s, acts, t, OrderStep(o, O.CreateShipment));
  }

  lemma PaidThenShipped(cfg: Config, s: State, acts0: seq<Action>, t0: State, o: OrderId, p: nat, pay: Payment,
      recipient: UserId, told: nat)
    returns (acts: seq<Action>, t: State)
    requires Legit(cfg) && t0 == Run(cfg, s, acts0) && Inv(t0) && o in t0.orders
    requires t0.orders[o].status == O.PENDING_PAYMENT
    requires pay.subject == ForOrder(o) && IsPayment(t0, p, pay, recipient, SplitStatus.PENDING, told)
    ensures t == Run(cfg, s, acts) && Inv(t) && Delivered(t, ForOrder(o))
    ensures IsPayment(t, p, pay.(status := SUCCEEDED), recipient, SplitStatus.PENDING, told)
  {
    PaymentStatusIff(cfg, t0, PaymentSucceeded(p), p);
    InvStep(cfg, t0, PaymentSucceeded(p));
    acts, t := Then(cfg, s, acts0, t0, PaymentSucceeded(p));
    acts, t := Shipped(cfg, s, acts, t, o);
  }

  /** Both splits of the payment, released. */
  lemma PaidOut(cfg: Config, s: State, p: nat, pay: Payment, recipient: UserId, told: nat)
    requires Inv(s) && pay.status == SUCCEEDED && Delivered(s, pay.subject)
    requires IsPayment(s, p, pay, recipient, SplitStatus.PENDING, told)
    ensures var t := Step(cfg, s, Release(p, [2 * p, 2 * p + 1], NoFault));
            IsPayment(t, p, pay, recipient, RELEASED, told + 1)
  {
    OrderIsPair(s, p, [2 * p, 2 * p + 1]);
    ReleasedIff(cfg, s, p, [2 * p, 2 * p + 1]);
  }

  lemma ThenPaidOut(cfg: Config, s: State, acts0: seq<Action>, t0: State, p: nat, pay: Payment, recipient: UserId,
      told: nat)
    returns (acts: seq<Action>, t: State)
    requires t0 == Run(cfg, s, acts0) && Inv(t0) && pay.status == SUCCEEDED && Delivered(t0, pay.subject)
    requires IsPayment(t0, p, pay, recipient, SplitStatus.PENDING, told)
    ensures t == Run(cfg, s, acts)
    ensures IsPayment(t, p, pay, recipient, RELEASED, told + 1)
  {
    PaidOut(cfg, t0, p, pay, recipient, told);
    acts, t := Then(cfg, s, acts0, t0, Release(p, [2 * p, 2 * p + 1], NoFault));
  }

  lemma ShippedAndPaidOut(cfg: Config, s: State, acts0: seq<Action>, t0: State, o: OrderId, p: nat, pay: Payment,
      recipient: UserId, told: nat)
    returns (acts: seq<Action>, t: State)
    requires Legit(cfg) && t0 == Run(cfg, s, acts0) && Inv(s) && o in t0.orders
    requires t0.orders[o].status == O.PENDING_PAYMENT
    requires pay.subject == ForOrder(o) && IsPayment(t0, p, pay, recipient, SplitStatus.PENDING, told)
    ensures t == Run(cfg, s, acts) && IsPayment(t, p, pay.(status := SUCCEEDED), recipient, RELEASED, told + 1)
  {
    InvRun(cfg, s, acts0);
    acts, t := PaidThenShipped(cfg, s, acts0, t0, o, p, pay, recipient, told);
    acts, t := ThenPaidOut(cfg, s, acts, t, p, pay.(status := SUCCEEDED), recipient, told);
  }

  /** From any tables, a new order can be paid for, shipped and paid out: the recipient gets it less the fee. */
  lemma OrderIsPaidOut(cfg: Config, s: State, o: OrderId, subtotal: nat, payer: UserId, recipient: UserId)
    returns (acts: seq<Action>, t: State)
    requires Legit(cfg) && Inv(s) && o !in s.orders && !HasPayment(s, ForOrder(o))
    ensures t == Run(cfg, s, acts)
    ensures IsPayment(t, |s.payments|, Payment(ForOrder(o), payer, subtotal, SUCCEEDED), recipient, RELEASED,
                      s.transfers[2 * |s.payments| + 1] + 1)
  {
    var pay := Payment(ForOrder(o), payer, subtotal, REQUIRES_PAYMENT);
    var acts0, t0 := PlacedAndPaid(cfg, s, o, subtotal, payer, recipient);
    assert t0.orders[o].status == O.PENDING_PAYMENT;
    acts, t := ShippedAndPaidOut(cfg, s, acts0, t0, o, |s.payments|, pay, recipient,
                                 s.transfers[2 * |s.payments| + 1]);
    assert pay.(status := SUCCEEDED) == Payment(ForOrder(o), payer, subtotal, SUCCEEDED);
  }

  // ---- a payer's charges and refunds against the payments that stand ----

  /** A user's CHARGE and REFUND transactions. */
  function ChargedOf(u: UserId): Transaction -> int {
    (t: Transaction) => if t.user == u && t.kind in {CHARGE, REFUND} then t.amount else 0
  }

  function StandingOf(u: UserId): Payment -> int {
    (p: Payment) => if p.payer == u && p.status == SUCCEEDED then p.amount else 0
  }

  /** By how much a payer's ledger exceeds, below zero, what the payer's standing payments cost. */
  function Excess(s: State, u: UserId): int {
    Sum(s.ledger, ChargedOf(u)) + Sum(s.payments, StandingOf(u))
  }

  /** The payment's rows say REFUNDED, and the ledger does not know. */
  predicate LosesReturn(s: State, a: Action) {
    a.RefundPayment? && Refundable(s, a.p) && a.refundFault == Some(RecordThrows)
  }

  lemma ExcessRecord(ledger: seq<Transaction>, user: UserId, kind: TransactionType, amount: int, u: UserId)
    ensures Sum(ledger + [Transaction(user, kind, amount)], ChargedOf(u)) ==
            Sum(ledger, ChargedOf(u)) + if user == u && kind in {CHARGE, REFUND} then amount else 0
  {
    SumPush(ledger, Transaction(user, kind, amount), ChargedOf(u));
  }

  lemma ExcessStatus(payments: seq<Payment>, p: nat, status: PaymentStatus, u: UserId)
    requires p < |payments|
    ensures var pay := payments[p];
            Sum(payments[p := pay.(status := status)], StandingOf(u)) ==
            Sum(payments, StandingOf(u))
              + if pay.payer != u then 0
                else (if status == SUCCEEDED then pay.amount else 0)
                     - (if pay.status == SUCCEEDED then pay.amount else 0)
  {
    SumUpdate(payments, p, payments[p].(status := status), StandingOf(u));
  }

  lemma ExcessRefund(s: State, p: nat, fault: Option<FaultKind>, u: UserId)
    requires Refundable(s, p)
    ensures Excess(RefundOf(s, p, fault), u) ==
            Excess(s, u) - if fault == Some(RecordThrows) && s.payments[p].payer == u then s.payments[p].amount else 0
  {
    ExcessStatus(s.payments, p, PaymentStatus.REFUNDED, u);
    ExcessRecord(s.ledger, s.payments[p].payer, REFUND, s.payments[p].amount, u);
  }

  lemma ExcessEvent(cfg: Config, s: State, a: Action, u: UserId)
    requires a.PaymentSucceeded? || a.PaymentFailed?
    ensures Excess(Step(cfg, s, a), u) == Excess(s, u)
  {
    if a.p < |s.payments| {
      ExcessStatus(s.payments, a.p, SUCCEEDED, u);
      ExcessStatus(s.payments, a.p, PaymentStatus.FAILED, u);
      ExcessRecord(s.ledger, s.payments[a.p].payer, CHARGE, -s.payments[a.p].amount, u);
    }
  }

  /** A turn touches no payment, and adds a TRANSFER to the ledger if anything. */
  lemma TurnLedger(s: State, i: nat, fault: Fault)
    requires i < |s.splits|
    ensures var t, sp := ReleaseOne(s, i, fault).0, s.splits[i];
            && t.payments == s.payments
            && (t.ledger == s.ledger
                || (sp.recipient.Some?
                    && t.ledger == s.ledger + [Transaction(sp.recipient.value, TRANSFER, sp.amount)]))
  {
  }

  lemma ExcessTurn(s: State, i: nat, fault: Fault, u: UserId)
    requires i < |s.splits|
    ensures Excess(ReleaseOne(s, i, fault).0, u) == Excess(s, u)
  {
    TurnLedger(s, i, fault);
    if s.splits[i].recipient.Some? {
      ExcessRecord(s.ledger, s.splits[i].recipient.value, TRANSFER, s.splits[i].amount, u);
    }
  }

  lemma {:induction false} ExcessRelease(s: State, order: seq<nat>, fault: Fault, u: UserId)
    requires forall k :: 0 <= k < |order| ==> order[k] < |s.splits|
    ensures Excess(ReleaseAll(s, order, fault), u) == Excess(s, u)
    decreases |order|
  {
    if order != [] {
      ExcessTurn(s, order[0], fault, u);
      var t, go := ReleaseOne(s, order[0], fault).0, ReleaseOne(s, order[0], fault).1;
      if go {
        ExcessRelease(t, order[1..], fault, u);
      }
    }
  }

  lemma ExcessWithdraw(s: State, user: UserId, amount: int, call: PayoutCall, u: UserId)
    ensures Excess(WithdrawOf(s, user, amount, call), u) == Excess(s, u)
  {
    ExcessRecord(s.ledger, user, PAYOUT, -amount, u);
  }

  lemma ExcessPayout(s: State, i: nat, to: PayoutStatus, recordThrows: bool, u: UserId)
    requires i < |s.payouts|
    ensures Excess(PayoutEventOf(s, i, to, recordThrows), u) == Excess(s, u)
  {
    ExcessRecord(s.ledger, s.payouts[i].user, PAYOUT, s.payouts[i].amount, u);
  }

  lemma ExcessPay(cfg: Config, s: State, subject: Subject, payer: UserId, recipient: UserId, amount: int, u: UserId)
    ensures Excess(CreatePayment(cfg, s, subject, payer, recipient, amount), u) == Excess(s, u)
  {
    SumPush(s.payments, Payment(subject, payer, amount, REQUIRES_PAYMENT), StandingOf(u));
  }

  lemma ExcessSubject(cfg: Config, s: State, a: Action, u: UserId)
    requires a.PlaceOrder? || a.OrderStep? || a.OpenDeal? || a.DealStep? || a.PayOrder? || a.PayDeal?
    ensures Excess(Step(cfg, s, a), u) == Excess(s, u)
  {
    match a
    case PayOrder(o, payer, recipient, _) =>
      if Step(cfg, s, a) != s { ExcessPay(cfg, s, ForOrder(o), payer, recipient, s.orders[o].subtotal, u); }
    case PayDeal(d, payer, _) =>
      if Step(cfg, s, a) != s {
        ExcessPay(cfg, s, ForDeal(d), payer, s.deals[d].creator, s.deals[d].terms.totalValue.value, u);
      }
    case _ =>
  }

  /** Every call keeps a payer's ledger at what the standing payments cost, but a refund whose ledger row is lost. */
  lemma ExcessStep(cfg: Config, s: State, a: Action, u: UserId)
    ensures Excess(Step(cfg, s, a), u) ==
            Excess(s, u) - if LosesReturn(s, a) && s.payments[a.p].payer == u then s.payments[a.p].amount else 0
  {
    match a
    case PaymentSucceeded(_) => ExcessEvent(cfg, s, a, u);
    case PaymentFailed(_) => ExcessEvent(cfg, s, a, u);
    case Release(p, order, fault) => if T.Releases(s, a) { ExcessRelease(s, order, fault, u); }
    case RefundPayment(p, fault) => if Refundable(s, p) { ExcessRefund(s, p, fault, u); }
    case Withdraw(user, requested, active, call) =>
      var amount := Admissible(cfg, s, user, requested, active);
      if amount.Some? { ExcessWithdraw(s, user, amount.value, call, u); }
    case PayoutEvent(i, to, recordThrows) => if i < |s.payouts| { ExcessPayout(s, i, to, recordThrows, u); }
    case _ => ExcessSubject(cfg, s, a, u);
  }

  /** What the lost ledger rows of a run would have given back to a payer. */
  function LostReturns(cfg: Config, s: State, acts: seq<Action>, u: UserId): int {
    if acts == [] then 0 else
    var t, a := Run(cfg, s, acts[..|acts| - 1]), acts[|acts| - 1];
    LostReturns(cfg, s, acts[..|acts| - 1], u)
      + if LosesReturn(t, a) && t.payments[a.p].payer == u then t.payments[a.p].amount else 0
  }

  /**
    In every run, whatever throws: a payer's CHARGE and REFUND transactions add up to minus the payments that stand,
    less the refunds the ledger missed.  So a payment refunded in full leaves its payer's ledger at nothing.
   */
  lemma {:induction false} ChargesAreStanding(cfg: Config, acts: seq<Action>, u: UserId)
    ensures var t := Run(cfg, Init, acts);
            Sum(t.ledger, ChargedOf(u)) == -Sum(t.payments, StandingOf(u)) - LostReturns(cfg, Init, acts, u)
  {
    if acts != [] {
      ChargesAreStanding(cfg, acts[..|acts| - 1], u);
      ExcessStep(cfg, Run(cfg, Init, acts[..|acts| - 1]), acts[|acts| - 1], u);
    }
  }
}
