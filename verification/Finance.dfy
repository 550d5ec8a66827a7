/**
  Escrow, payouts and the money ledger: src/payments/services/payments.service.ts,
      src/payouts/services/payouts.service.ts,
  webhook.service.ts and balance.service.ts, over the orders and deals they pay for.  Each service call is one
  atomic step, which any foreign or database call in it can break off.
 */
module Finance {
  import opened Util
  import opened Fees
  import O = Orders
  import D = Deals

  type UserId = string
  type OrderId = string
  type DealId = string

  datatype PaymentStatus = REQUIRES_PAYMENT | PROCESSING | SUCCEEDED | FAILED | CANCELLED | REFUNDED

  datatype SplitStatus = PENDING | RELEASED | FAILED | REFUNDED

  datatype PayoutStatus = PENDING | IN_TRANSIT | PAID | FAILED | CANCELED

  datatype Subject = ForOrder(order: OrderId) | ForDeal(deal: DealId)

  datatype Payment = Payment(subject: Subject, payer: UserId, amount: int, status: PaymentStatus)

  datatype Split = Split(payment: nat, recipient: Option<UserId>, isPlatformFee: bool, amount: int, status: SplitStatus)

  /** `linked`: the row carries Stripe's payout id, so Stripe's events find it. */
  datatype Payout = Payout(user: UserId, amount: int, status: PayoutStatus, linked: bool)

  datatype TransactionType = CHARGE | TRANSFER | REFUND | PAYOUT

  datatype Transaction = Transaction(user: UserId, kind: TransactionType, amount: int)

  /**
    Rows are identified by their position.  `transfers` counts what Stripe was told to transfer, by split, and
    `returned` what it was told to refund, by payment, whatever the rows say.
   */
  datatype State = State(
    orders: map<OrderId, O.Order>,
    deals: map<DealId, D.Deal>,
    payments: seq<Payment>,
    splits: seq<Split>,
    payouts: seq<Payout>,
    ledger: seq<Transaction>,
    transfers: multiset<nat>,
    returned: multiset<nat>)

  datatype Config = Config(feePercent: real, minimumPayout: int)

  /**
    AnswerLost: the foreign call took effect, and then threw all the same.  RecordThrows: the row is written, and
    then something throws, be it the row's write itself.  RecordLost: so is the ledger row, and its write threw.
   */
  datatype FaultKind = ForeignThrows | AnswerLost | RowWriteThrows | RecordThrows | RecordLost

  /** What breaks off a release, and at which split. */
  datatype Fault = NoFault | Fault(split: nat, kind: FaultKind)

  datatype StripeAnswer = Answers(status: string) | Throws

  datatype Action =
    | PlaceOrder(order: OrderId, subtotal: nat)
    | OrderStep(order: OrderId, orderAction: O.Action)
    | OpenDeal(deal: DealId, user: UserId, creator: UserId, terms: D.Terms)
    | DealStep(deal: DealId, dealAction: D.Action)
    | PayOrder(order: OrderId, payer: UserId, recipient: UserId, stripe: StripeAnswer)
    | PayDeal(deal: DealId, payer: UserId, stripe: StripeAnswer)
    | PaymentSucceeded(p: nat)
    | PaymentFailed(p: nat)
    | Release(p: nat, read: seq<nat>, fault: Fault)   // the splits come in no particular order
    | RefundPayment(p: nat, refundFault: Option<FaultKind>)
    | Withdraw(user: UserId, requested: Option<int>, accountActive: bool, call: PayoutCall)
    | PayoutEvent(payout: nat, to: PayoutStatus, recordThrows: bool)

  /** How a withdrawal goes on once its row is written: Stripe's answer, what throws then, and in the `catch`. */
  datatype PayoutCall = PayoutCall(stripe: StripeAnswer, dbFault: Option<FaultKind>, markThrows: bool)

  const Init := State(map[], map[], [], [], [], [], multiset{}, multiset{})

  // ---- the two ways of computing a user's money ----

  function EarnedBy(u: UserId): Split -> int {
    (sp: Split) => if sp.recipient == Some(u) && !sp.isPlatformFee && sp.status == RELEASED then sp.amount else 0
  }

  function PendingOf(u: UserId): Payout -> int {
    (p: Payout) => if p.user == u && p.status in {PayoutStatus.PENDING, IN_TRANSIT} then p.amount else 0
  }

  function PaidTo(u: UserId): Payout -> int {
    (p: Payout) => if p.user == u && p.status == PAID then p.amount else 0
  }

  /** `getBalance`: three aggregates over the rows. */
  function Available(splits: seq<Split>, payouts: seq<Payout>, u: UserId): int {
    Sum(splits, EarnedBy(u)) - Sum(payouts, PendingOf(u)) - Sum(payouts, PaidTo(u))
  }

  /** The user's TRANSFER and PAYOUT transactions. */
  function LedgerOf(u: UserId): Transaction -> int {
    (t: Transaction) => if t.user == u && t.kind in {TRANSFER, PAYOUT} then t.amount else 0
  }

  /** How far the balance is from the ledger. */
  function Gap(s: State, u: UserId): int {
    Available(s.splits, s.payouts, u) - Sum(s.ledger, LedgerOf(u))
  }

  // ---- payments ----

  predicate HasPayment(s: State, subject: Subject) {
    exists k :: 0 <= k < |s.payments| && s.payments[k].subject == subject
  }

  function CreatePayment(cfg: Config, s: State, subject: Subject, payer: UserId, recipient: UserId,
      amount: int): State {
    var p := |s.payments|;
    s.(payments := s.payments + [Payment(subject, payer, amount, REQUIRES_PAYMENT)],
       splits := s.splits + [Split(p, None, true, PlatformFee(amount, cfg.feePercent), SplitStatus.PENDING),
                             Split(p, Some(recipient), false, RecipientAmount(amount, cfg.feePercent),
                                 SplitStatus.PENDING)])
  }

  /** `assertFulfilled`. */
  predicate Fulfilled(s: State, subject: Subject) {
    match subject
    case ForOrder(o) => o in s.orders && s.orders[o].status in {O.FULFILLED, O.COMPLETED}
    case ForDeal(d) => d in s.deals && s.deals[d].status == D.COMPLETED
  }

  function MarkReleased(s: State, i: nat): State
    requires i < |s.splits|
  {
    s.(splits := s.splits[i := s.splits[i].(status := RELEASED)])
  }

  function Told(s: State, i: nat): State {
    s.(transfers := s.transfers + multiset{i})
  }

  function Record(s: State, user: UserId, kind: TransactionType, amount: int): State {
    s.(ledger := s.ledger + [Transaction(user, kind, amount)])
  }

  function Strikes(fault: Fault, i: nat): Option<FaultKind> {
    if fault.Fault? && fault.split == i then Some(fault.kind) else None
  }

  /** One turn of the release loop; false when it throws. */
  function ReleaseOne(s: State, i: nat, fault: Fault): (r: (State, bool))
    requires i < |s.splits|
    ensures r.0.splits == s.splits
            || (s.splits[i].status == SplitStatus.PENDING
                && r.0.splits == s.splits[i := s.splits[i].(status := RELEASED)])
    ensures r.0 == s.(splits := r.0.splits, ledger := r.0.ledger, transfers := r.0.transfers)
  {
    var sp := s.splits[i];
    if sp.status != SplitStatus.PENDING then (s, true)
    else if sp.isPlatformFee then
      if Strikes(fault, i) == Some(RowWriteThrows) then (s, false)
      else (MarkReleased(s, i), Strikes(fault, i) != Some(RecordThrows))
    else if sp.recipient == None then (s, true)
    else match Strikes(fault, i)
      case Some(ForeignThrows) => (s, false)
      case Some(AnswerLost) => (Told(s, i), false)
      case Some(RowWriteThrows) => (Told(s, i), false)
      case Some(RecordThrows) => (MarkReleased(Told(s, i), i), false)
      case Some(RecordLost) => (Record(MarkReleased(Told(s, i), i), sp.recipient.value, TRANSFER, sp.amount), false)
      case None => (Record(MarkReleased(Told(s, i), i), sp.recipient.value, TRANSFER, sp.amount), true)
  }

  /** The splits of a payment, each once, in some order. */
  predicate ReadOrder(s: State, p: nat, order: seq<nat>) {
    && (forall j, k :: 0 <= j < k < |order| ==> order[j] != order[k])
    && (forall k :: 0 <= k < |order| ==> order[k] < |s.splits| && s.splits[order[k]].payment == p)
    && (forall i: nat :: i < |s.splits| && s.splits[i].payment == p ==> i in order)
  }

  /** The release loop, up to the turn that throws. */
  function ReleaseAll(s: State, order: seq<nat>, fault: Fault): (r: State)
    requires forall k :: 0 <= k < |order| ==> order[k] < |s.splits|
    ensures |r.splits| == |s.splits| && r == s.(splits := r.splits, ledger := r.ledger, transfers := r.transfers)
    decreases |order|
  {
    if order == [] then s else
    var (t, go) := ReleaseOne(s, order[0], fault);
    if go then ReleaseAll(t, order[1..], fault) else t
  }

  predicate Releasable(s: State, p: nat) {
    p < |s.payments| && s.payments[p].status == SUCCEEDED && Fulfilled(s, s.payments[p].subject)
  }

  function ReturnSplits(splits: seq<Split>, p: nat): (r: seq<Split>)
    ensures |r| == |splits|
    ensures forall i :: 0 <= i < |r| ==>
              r[i] == if splits[i].payment == p then splits[i].(status := SplitStatus.REFUNDED) else splits[i]
  {
    seq(|splits|, i requires 0 <= i < |splits| =>
      if splits[i].payment == p then splits[i].(status := SplitStatus.REFUNDED) else splits[i])
  }

  predicate HasReleased(s: State, p: nat) {
    exists i :: 0 <= i < |s.splits| && s.splits[i].payment == p && s.splits[i].status == RELEASED
  }

  predicate Refundable(s: State, p: nat) {
    p < |s.payments| && s.payments[p].status == SUCCEEDED && !HasReleased(s, p)
  }

  /** Stripe is asked first; the payment's rows are one transaction, the ledger row another. */
  function RefundOf(s: State, p: nat, fault: Option<FaultKind>): State
    requires p < |s.payments|
  {
    if fault == Some(ForeignThrows) then s else
    var asked := s.(returned := s.returned + multiset{p});
    if fault == Some(AnswerLost) || fault == Some(RowWriteThrows) then asked else
    var written := asked.(payments := s.payments[p := s.payments[p].(status := PaymentStatus.REFUNDED)],
                          splits := ReturnSplits(s.splits, p));
    if fault == Some(RecordThrows) then written
    else Record(written, s.payments[p].payer, REFUND, s.payments[p].amount)
  }

  // ---- payouts ----

  function MapStripeStatus(status: string): PayoutStatus {
    match status
    case "paid" => PAID
    case "in_transit" => IN_TRANSIT
    case "failed" => PayoutStatus.FAILED
    case "canceled" => CANCELED
    case _ => PayoutStatus.PENDING
  }

  predicate Failing(status: PayoutStatus) {
    status in {PayoutStatus.FAILED, CANCELED}
  }

  /** What `withdraw` will pay out, if its checks pass. */
  function Admissible(cfg: Config, s: State, user: UserId, requested: Option<int>, accountActive: bool): Option<int> {
    var available := Available(s.splits, s.payouts, user);
    var amount := requested.GetOr(available);
    if accountActive && 0 < amount <= available && amount >= cfg.minimumPayout then Some(amount) else None
  }

  /** Whether Stripe's payout id reaches the row. */
  predicate IsLinked(call: PayoutCall) {
    call.stripe.Answers? && call.dbFault != Some(RowWriteThrows)
  }

  predicate IsRecorded(call: PayoutCall) {
    IsLinked(call) && call.dbFault != Some(RecordThrows)
  }

  /** Nothing throws but, perhaps, calls the withdrawal does not make. */
  predicate Completes(call: PayoutCall) {
    IsRecorded(call) && call.dbFault != Some(RecordLost)
  }

  /** The row a withdrawal leaves: as the last write that was made has it, be it in the `catch`. */
  function PayoutRow(user: UserId, amount: int, call: PayoutCall): Payout {
    var written := if IsLinked(call) then MapStripeStatus(call.stripe.status) else PayoutStatus.PENDING;
    var status := if Completes(call) || call.markThrows then written else PayoutStatus.FAILED;
    Payout(user, amount, status, IsLinked(call))
  }

  function WithdrawOf(s: State, user: UserId, amount: int, call: PayoutCall): State {
    var drawn := s.(payouts := s.payouts + [PayoutRow(user, amount, call)]);
    if IsRecorded(call) then Record(drawn, user, PAYOUT, -amount) else drawn
  }

  /** Stripe reports a final status; recording the returned funds may throw after the status is written. */
  function PayoutEventOf(s: State, i: nat, to: PayoutStatus, recordThrows: bool): State
    requires i < |s.payouts|
  {
    var p := s.payouts[i];
    if !p.linked || p.status == to then s else
    var t := s.(payouts := s.payouts[i := p.(status := to)]);
    if Failing(to) && !recordThrows then Record(t, p.user, PAYOUT, p.amount) else t
  }

  // ---- all steps ----

  function Step(cfg: Config, s: State, a: Action): State {
    match a
    case PlaceOrder(o, subtotal) => if o in s.orders then s else s.(orders := s.orders[o := O.Placed(subtotal)])
    case OrderStep(o, oa) => if o in s.orders then s.(orders := s.orders[o := O.Step(s.orders[o], oa)]) else s
    case OpenDeal(d, user, creator, terms) =>
      if d in s.deals || D.Create(user, creator, terms) == None then s
      else s.(deals := s.deals[d := D.Create(user, creator, terms).value])
    case DealStep(d, da) => if d in s.deals then s.(deals := s.deals[d := D.Step(s.deals[d], da)]) else s
    case PayOrder(o, payer, recipient, stripe) =>
      if o !in s.orders || s.orders[o].status != O.PENDING_PAYMENT || HasPayment(s, ForOrder(o))
          || stripe.Throws? then s
      else CreatePayment(cfg, s, ForOrder(o), payer, recipient, s.orders[o].subtotal)
    case PayDeal(d, payer, stripe) =>
      if d !in s.deals || s.deals[d].status != D.ACTIVE || HasPayment(s, ForDeal(d)) || stripe.Throws? then s
      else if s.deals[d].terms.totalValue.GetOr(0) == 0 then s
      else CreatePayment(cfg, s, ForDeal(d), payer, s.deals[d].creator, s.deals[d].terms.totalValue.value)
    case PaymentSucceeded(p) =>
      if p >= |s.payments| || s.payments[p].status == SUCCEEDED then s
      else Record(s.(payments := s.payments[p := s.payments[p].(status := SUCCEEDED)]), s.payments[p].payer, CHARGE,
          -s.payments[p].amount)
    case PaymentFailed(p) =>
      if p >= |s.payments| || s.payments[p].status == SUCCEEDED then s
      else s.(payments := s.payments[p := s.payments[p].(status := PaymentStatus.FAILED)])
    case Release(p, order, fault) =>
      if Releasable(s, p) && ReadOrder(s, p, order) then ReleaseAll(s, order, fault) else s
    case RefundPayment(p, fault) => if Refundable(s, p) then RefundOf(s, p, fault) else s
    case Withdraw(user, requested, accountActive, call) =>
      var amount := Admissible(cfg, s, user, requested, accountActive);
      if amount == None then s else WithdrawOf(s, user, amount.value, call)
    case PayoutEvent(i, to, recordThrows) =>
      if i < |s.payouts| && to in {PAID, PayoutStatus.FAILED, CANCELED} then PayoutEventOf(s, i, to, recordThrows)
          else s
  }

  function Run(cfg: Config, s: State, acts: seq<Action>): State {
    if acts == [] then s else Step(cfg, Run(cfg, s, acts[..|acts| - 1]), acts[|acts| - 1])
  }

  lemma Then(cfg: Config, s: State, acts: seq<Action>, t: State, a: Action) returns (acts': seq<Action>, t': State)
    requires t == Run(cfg, s, acts)
    ensures t' == Step(cfg, t, a) == Run(cfg, s, acts')
  {
    acts', t' := acts + [a], Step(cfg, t, a);
    assert acts'[..|acts|] == acts;
  }

  predicate Legit(cfg: Config) {
    0.0 <= cfg.feePercent <= 100.0 && cfg.minimumPayout >= 0
  }

  // ---- what every run keeps: splits, and what they pay for ----

  ghost predicate SubjectInv(s: State, pay: Payment, released: bool) {
    match pay.subject
    case ForOrder(o) =>
      o in s.orders && s.orders[o].subtotal == pay.amount && (released ==> s.orders[o].shipments != [])
    case ForDeal(d) =>
      && d in s.deals && s.deals[d].status != D.NEGOTIATING
      && s.deals[d].terms.totalValue == Some(pay.amount) && pay.amount > 0
      && (released ==> s.deals[d].status == D.COMPLETED)
  }

  /** Payment k has a fee split and a recipient's split that add up to it and are both refunded or neither. */
  ghost predicate PaymentInv(s: State, k: nat)
    requires k < |s.payments| && |s.splits| == 2 * |s.payments|
  {
    var fee, share := s.splits[2 * k], s.splits[2 * k + 1];
    && fee.payment == k && fee.isPlatformFee && fee.recipient == None
    && share.payment == k && !share.isPlatformFee && share.recipient.Some?
    && fee.amount >= 0 && share.amount >= 0 && fee.amount + share.amount == s.payments[k].amount
    && fee.status != SplitStatus.FAILED && share.status != SplitStatus.FAILED
    && (fee.status == SplitStatus.REFUNDED <==> share.status == SplitStatus.REFUNDED)
    && SubjectInv(s, s.payments[k], fee.status == RELEASED || share.status == RELEASED)
  }

  ghost predicate Inv(s: State) {
    && |s.splits| == 2 * |s.payments|
    && (forall k: nat :: k < |s.payments| ==> PaymentInv(s, k))
    && (forall j, k :: 0 <= j < k < |s.payments| ==> s.payments[j].subject != s.payments[k].subject)
    && (forall o :: o in s.orders ==> s.orders[o].subtotal >= 0 && O.ShippedIfFulfilled(s.orders[o]))
    && (forall i :: 0 <= i < |s.payouts| ==> s.payouts[i].amount > 0)
  }

  lemma InvSubjects(cfg: Config, s: State, a: Action)
    requires Inv(s) && (a.PlaceOrder? || a.OrderStep? || a.OpenDeal? || a.DealStep?)
    ensures Inv(Step(cfg, s, a))
  {
    var t := Step(cfg, s, a);
    if a.OrderStep? && a.order in s.orders {
      O.ShipmentsStay(s.orders[a.order], a.orderAction);
    }
    if a.DealStep? && a.deal in s.deals && s.deals[a.deal].status != D.NEGOTIATING {
      D.FrozenStep(s.deals[a.deal], a.dealAction);
    }
    forall k: nat | k < |t.payments| ensures PaymentInv(t, k) {
      assert PaymentInv(s, k);
    }
  }

  lemma InvCreate(cfg: Config, s: State, subject: Subject, payer: UserId, recipient: UserId, amount: nat)
    requires Legit(cfg) && Inv(s) && !HasPayment(s, subject)
    requires SubjectInv(s, Payment(subject, payer, amount, REQUIRES_PAYMENT), false)
    ensures Inv(CreatePayment(cfg, s, subject, payer, recipient, amount))
  {
    FeeConserves(amount, cfg.feePercent);
    var t, n := CreatePayment(cfg, s, subject, payer, recipient, amount), |s.payments|;
    forall k: nat | k < |t.payments| ensures PaymentInv(t, k) {
      if k < n {
        assert PaymentInv(s, k);
        assert t.splits[2 * k] == s.splits[2 * k] && t.splits[2 * k + 1] == s.splits[2 * k + 1];
      } else {
        assert t.splits[2 * k].payment == n && t.splits[2 * k + 1].payment == n;
      }
    }
  }

  /** A step that touches no split and keeps every payment's subject and amount. */
  lemma InvRows(s: State, t: State)
    requires Inv(s)
    requires t.splits == s.splits && t.orders == s.orders && t.deals == s.deals && |t.payments| == |s.payments|
    requires forall i :: 0 <= i < |t.payouts| ==> t.payouts[i].amount > 0
    requires forall k :: 0 <= k < |s.payments| ==>
               t.payments[k].subject == s.payments[k].subject && t.payments[k].amount == s.payments[k].amount
    ensures Inv(t)
  {
    forall k: nat | k < |t.payments| ensures PaymentInv(t, k) {
      assert PaymentInv(s, k);
    }
  }

  lemma OwnSplits(s: State, k: nat)
    requires Inv(s) && k < |s.payments|
    ensures forall i: nat :: i < |s.splits| && s.splits[i].payment == k ==> i == 2 * k || i == 2 * k + 1
  {
    forall i: nat | i < |s.splits| && s.splits[i].payment == k ensures i == 2 * k || i == 2 * k + 1 {
      assert PaymentInv(s, i / 2);
      assert i == 2 * (i / 2) || i == 2 * (i / 2) + 1;
    }
  }

  /** The two turns a release really takes, one after the other. */
  function ReleasePair(s: State, first: nat, second: nat, fault: Fault): State
    requires first < |s.splits| && second < |s.splits|
  {
    var (t, go) := ReleaseOne(s, first, fault);
    if go then ReleaseOne(t, second, fault).0 else t
  }

  /** The fee and the recipient's share of payment p, whichever is read first. */
  predicate PairOf(p: nat, order: seq<nat>) {
    order == [2 * p, 2 * p + 1] || order == [2 * p + 1, 2 * p]
  }

  lemma TwoInOrder(order: seq<nat>, a: nat, b: nat)
    requires forall j, k :: 0 <= j < k < |order| ==> order[j] != order[k]
    requires a != b && a in order && b in order && forall k :: 0 <= k < |order| ==> order[k] == a || order[k] == b
    ensures order == [a, b] || order == [b, a]
  {
    var i :| 0 <= i < |order| && order[i] == a;
    var j :| 0 <= j < |order| && order[j] == b;
    forall k | 0 <= k < |order| ensures OneOf(k, i, j) {
      assert order[k] == a || order[k] == b;
    }
    assert (|order| > 1 ==> OneOf(1, i, j)) && (|order| > 2 ==> OneOf(2, i, j)) && OneOf(0, i, j);
  }

  predicate OneOf(k: int, i: int, j: int) {
    k == i || k == j
  }

  lemma OrderIsPair(s: State, p: nat, order: seq<nat>)
    requires Inv(s) && p < |s.payments|
    ensures ReadOrder(s, p, order) <==> PairOf(p, order)
  {
    OwnSplits(s, p);
    assert PaymentInv(s, p);
    if ReadOrder(s, p, order) {
      TwoInOrder(order, 2 * p, 2 * p + 1);
    }
  }

  lemma ReleaseIsPair(s: State, p: nat, order: seq<nat>, fault: Fault)
    requires Inv(s) && p < |s.payments| && ReadOrder(s, p, order)
    ensures PairOf(p, order) && ReleaseAll(s, order, fault) == ReleasePair(s, order[0], order[1], fault)
  {
    OrderIsPair(s, p, order);
    var t := ReleaseOne(s, order[0], fault).0;
    assert order[1..] == [order[1]];
    assert ReleaseAll(t, [order[1]], fault) == ReleaseOne(t, order[1], fault).0;
  }

  lemma TurnOfOther(s: State, i: nat, fault: Fault, k: nat)
    requires |s.splits| == 2 * |s.payments| && i < |s.splits| && k < |s.payments| && i / 2 != k && PaymentInv(s, k)
    ensures PaymentInv(ReleaseOne(s, i, fault).0, k)
  {
    var t := ReleaseOne(s, i, fault).0;
    assert t.splits[2 * k] == s.splits[2 * k] && t.splits[2 * k + 1] == s.splits[2 * k + 1];
  }

  lemma TurnOfOwn(s: State, i: nat, fault: Fault, p: nat)
    requires |s.splits| == 2 * |s.payments| && i < |s.splits| && p < |s.payments| && i / 2 == p && PaymentInv(s, p)
    requires SubjectInv(s, s.payments[p], true)
    ensures PaymentInv(ReleaseOne(s, i, fault).0, p)
  {
    assert i == 2 * p || i == 2 * p + 1;
  }

  lemma InvTurn(s: State, i: nat, fault: Fault)
    requires Inv(s) && i < |s.splits| && Fulfilled(s, s.payments[i / 2].subject)
    ensures Inv(ReleaseOne(s, i, fault).0)
  {
    var t := ReleaseOne(s, i, fault).0;
    forall k: nat | k < |t.payments| ensures PaymentInv(t, k) {
      assert PaymentInv(s, k);
      if k == i / 2 {
        TurnOfOwn(s, i, fault, k);
      } else {
        TurnOfOther(s, i, fault, k);
      }
    }
  }

  lemma InvRelease(s: State, p: nat, order: seq<nat>, fault: Fault)
    requires Inv(s) && p < |s.payments| && Fulfilled(s, s.payments[p].subject) && PairOf(p, order)
    ensures Inv(ReleasePair(s, order[0], order[1], fault))
  {
    InvTurn(s, order[0], fault);
    InvTurn(ReleaseOne(s, order[0], fault).0, order[1], fault);
  }

  lemma InvRefund(s: State, p: nat, fault: Option<FaultKind>)
    requires Inv(s) && Refundable(s, p)
    ensures Inv(RefundOf(s, p, fault))
  {
    var t := RefundOf(s, p, fault);
    forall k: nat | k < |t.payments| ensures PaymentInv(t, k) {
      assert PaymentInv(s, k);
      RefundKeeps(s, p, fault, k);
    }
  }

  lemma RefundKeeps(s: State, p: nat, fault: Option<FaultKind>, k: nat)
    requires |s.splits| == 2 * |s.payments| && p < |s.payments| && k < |s.payments| && PaymentInv(s, k)
    ensures PaymentInv(RefundOf(s, p, fault), k)
  {
    var t := RefundOf(s, p, fault);
    assert t.splits == s.splits || t.splits == ReturnSplits(s.splits, p);
  }

  lemma InvPay(cfg: Config, s: State, a: Action)
    requires Legit(cfg) && Inv(s) && (a.PayOrder? || a.PayDeal?)
    ensures Inv(Step(cfg, s, a))
  {
    if Step(cfg, s, a) != s {
      match a
      case PayOrder(o, payer, recipient, _) => InvCreate(cfg, s, ForOrder(o), payer, recipient, s.orders[o].subtotal);
      case PayDeal(d, payer, _) =>
        InvCreate(cfg, s, ForDeal(d), payer, s.deals[d].creator, s.deals[d].terms.totalValue.value);
    }
  }

  lemma InvEscrow(cfg: Config, s: State, a: Action)
    requires Inv(s) && (a.Release? || a.RefundPayment?)
    ensures Inv(Step(cfg, s, a))
  {
    var t := Step(cfg, s, a);
    if t != s {
      match a
      case Release(p, order, fault) =>
        ReleaseIsPair(s, p, order, fault);
        InvRelease(s, p, order, fault);
      case RefundPayment(p, fault) => InvRefund(s, p, fault);
    }
  }

  lemma InvPaymentEvent(cfg: Config, s: State, a: Action)
    requires Inv(s) && (a.PaymentSucceeded? || a.PaymentFailed?)
    ensures Inv(Step(cfg, s, a))
  {
    InvRows(s, Step(cfg, s, a));
  }

  lemma InvPayouts(cfg: Config, s: State, a: Action)
    requires Inv(s) && (a.Withdraw? || a.PayoutEvent?)
    ensures Inv(Step(cfg, s, a))
  {
    var t := Step(cfg, s, a);
    assert t == s.(payouts := t.payouts, ledger := t.ledger);
    assert forall i :: 0 <= i < |t.payouts| ==> t.payouts[i].amount > 0;
    InvRows(s, t);
  }

  lemma InvStep(cfg: Config, s: State, a: Action)
    requires Legit(cfg) && Inv(s)
    ensures Inv(Step(cfg, s, a))
  {
    match a
    case PlaceOrder(_, _) => InvSubjects(cfg, s, a);
    case OrderStep(_, _) => InvSubjects(cfg, s, a);
    case OpenDeal(_, _, _, _) => InvSubjects(cfg, s, a);
    case DealStep(_, _) => InvSubjects(cfg, s, a);
    case PayOrder(_, _, _, _) => InvPay(cfg, s, a);
    case PayDeal(_, _, _) => InvPay(cfg, s, a);
    case Release(_, _, _) => InvEscrow(cfg, s, a);
    case RefundPayment(_, _) => InvEscrow(cfg, s, a);
    case PaymentSucceeded(_) => InvPaymentEvent(cfg, s, a);
    case PaymentFailed(_) => InvPaymentEvent(cfg, s, a);
    case Withdraw(_, _, _, _) => InvPayouts(cfg, s, a);
    case PayoutEvent(_, _, _) => InvPayouts(cfg, s, a);
  }

  lemma {:induction false} InvRun(cfg: Config, s: State, acts: seq<Action>)
    requires Legit(cfg) && Inv(s)
    ensures Inv(Run(cfg, s, acts))
  {
    if acts != [] {
      InvRun(cfg, s, acts[..|acts| - 1]);
      InvStep(cfg, Run(cfg, s, acts[..|acts| - 1]), acts[|acts| - 1]);
    }
  }

  /** The two splits of payment k are its amount, and none is released while another is refunded. */
  ghost predicate SplitsConserve(s: State, k: nat) {
    && k < |s.payments| && |s.splits| == 2 * |s.payments|
    && s.splits[2 * k].amount + s.splits[2 * k + 1].amount == s.payments[k].amount
    && s.splits[2 * k].amount >= 0 && s.splits[2 * k + 1].amount >= 0
    && forall i, j ::
         0 <= i < |s.splits| && 0 <= j < |s.splits| && s.splits[i].payment == k == s.splits[j].payment ==>
           !(s.splits[i].status == RELEASED && s.splits[j].status == SplitStatus.REFUNDED)
  }

  lemma InvConserves(s: State, k: nat)
    requires Inv(s) && k < |s.payments|
    ensures SplitsConserve(s, k)
  {
    assert PaymentInv(s, k);
    OwnSplits(s, k);
  }

  /**
    In every run, whatever fails: splits conserve each payment, and released and refunded ones never meet in a
    payment.
   */
  lemma EscrowConserved(cfg: Config, acts: seq<Action>, k: nat)
    requires Legit(cfg) && k < |Run(cfg, Init, acts).payments|
    ensures SplitsConserve(Run(cfg, Init, acts), k)
  {
    InvRun(cfg, Init, acts);
    InvConserves(Run(cfg, Init, acts), k);
  }

  /**
    The payment is worth its subject.  If any of it was released for an order, the order was shipped; if for a
    deal, no later step moves that deal from COMPLETED.
   */
  ghost predicate SubjectHonoured(s: State, k: nat, later: seq<D.Action>)
    requires k < |s.payments|
  {
    var pay := s.payments[k];
    && (pay.subject.ForOrder? ==>
          && pay.subject.order in s.orders
          && s.orders[pay.subject.order].subtotal == pay.amount
          && (HasReleased(s, k) ==> s.orders[pay.subject.order].shipments != []))
    && (pay.subject.ForDeal? ==>
          && pay.subject.deal in s.deals
          && s.deals[pay.subject.deal].terms.totalValue == Some(pay.amount)
          && (HasReleased(s, k) ==>
                s.deals[pay.subject.deal].status == D.COMPLETED
                && D.Run(s.deals[pay.subject.deal], later) == s.deals[pay.subject.deal]))
  }

  lemma PaymentsMatchSubjects(cfg: Config, acts: seq<Action>, k: nat, later: seq<D.Action>)
    requires Legit(cfg) && k < |Run(cfg, Init, acts).payments|
    ensures SubjectHonoured(Run(cfg, Init, acts), k, later)
  {
    InvRun(cfg, Init, acts);
    HonouredByInv(Run(cfg, Init, acts), k, later);
  }

  lemma HonouredByInv(s: State, k: nat, later: seq<D.Action>)
    requires Inv(s) && k < |s.payments|
    ensures SubjectHonoured(s, k, later)
  {
    assert PaymentInv(s, k);
    OwnSplits(s, k);
    if s.payments[k].subject.ForDeal? {
      D.TermsFrozen(s.deals[s.payments[k].subject.deal], later);
    }
  }

  // ---- the services ----

  class MoneyServices {
    var orders: map<OrderId, O.Order>
    var deals: map<DealId, D.Deal>
    var payments: seq<Payment>
    var splits: seq<Split>
    var payouts: seq<Payout>
    var ledger: seq<Transaction>
    ghost var transfers: multiset<nat>
    ghost var returned: multiset<nat>

    ghost function View(): State
      reads this
    {
      State(orders, deals, payments, splits, payouts, ledger, transfers, returned)
    }

    constructor ()
      ensures View() == Init && Inv(View())
    {
      orders, deals, payments, splits, payouts, ledger := map[], map[], [], [], [], [];
      transfers, returned := multiset{}, multiset{};
    }

    method CreatePaymentRows(cfg: Config, subject: Subject, payer: UserId, recipient: UserId, amount: nat)
      requires Legit(cfg)
      modifies this`payments, this`splits
      ensures View() == CreatePayment(cfg, old(View()), subject, payer, recipient, amount)
      ensures |splits| == |old(splits)| + 2
      ensures splits[|splits| - 2].amount >= 0 && splits[|splits| - 1].amount >= 0
      ensures splits[|splits| - 2].amount + splits[|splits| - 1].amount == amount
    {
      FeeConserves(amount, cfg.feePercent);
      var fee := Round(amount as real * cfg.feePercent / 100.0);
      var p := |payments|;
      payments := payments + [Payment(subject, payer, amount, REQUIRES_PAYMENT)];
      splits := splits + [Split(p, None, true, fee, SplitStatus.PENDING),
                          Split(p, Some(recipient), false, amount - fee, SplitStatus.PENDING)];
    }

    /** One turn of the loop: check the status, then transfer, write the row, record the transaction. */
    method ReleaseSplit(i: nat, fault: Fault) returns (more: bool)
      requires i < |splits|
      modifies this`splits, this`ledger, this`transfers
      ensures (View(), more) == ReleaseOne(old(View()), i, fault)
    {
      var sp := splits[i];
      var strikes := Strikes(fault, i);
      if sp.status != SplitStatus.PENDING {
        return true;
      }
      if sp.isPlatformFee {
        if strikes == Some(RowWriteThrows) {
          return false;
        }
        splits := splits[i := sp.(status := RELEASED)];
        return strikes != Some(RecordThrows);
      }
      if sp.recipient.None? {
        return true;
      }
      if strikes == Some(ForeignThrows) {
        return false;
      }
      transfers := transfers + multiset{i};
      if strikes == Some(AnswerLost) || strikes == Some(RowWriteThrows) {
        return false;
      }
      splits := splits[i := sp.(status := RELEASED)];
      if strikes == Some(RecordThrows) {
        return false;
      }
      ledger := ledger + [Transaction(sp.recipient.value, TRANSFER, sp.amount)];
      return strikes != Some(RecordLost);
    }

    /** The splits are read in the given order, and released one after the other. */
    method ReleasePayment(cfg: Config, p: nat, order: seq<nat>, fault: Fault) returns (completed: bool)
      requires ReadOrder(View(), p, order)
      modifies this`splits, this`ledger, this`transfers
      ensures View() == Step(cfg, old(View()), Release(p, order, fault))
    {
      if p >= |payments| || payments[p].status != SUCCEEDED {
        return false;
      }
      match payments[p].subject {
        case ForOrder(o) =>
          if o !in orders || (orders[o].status != O.FULFILLED && orders[o].status != O.COMPLETED) { return false; }
        case ForDeal(d) =>
          if d !in deals || deals[d].status != D.COMPLETED { return false; }
      }
      for i := 0 to |order|
        invariant payments == old(payments) && orders == old(orders) && deals == old(deals) && payouts == old(payouts)
        invariant |splits| == |old(splits)|
        invariant ReleaseAll(View(), order[i..], fault) == ReleaseAll(old(View()), order, fault)
      {
        assert order[i..][1..] == order[i + 1..];
        var more := ReleaseSplit(order[i], fault);
        if !more {
          return false;
        }
      }
      return true;
    }

    /** Ask Stripe, write the payment's rows together, then record. */
    method Refund(cfg: Config, p: nat, fault: Option<FaultKind>) returns (completed: bool)
      modifies this`payments, this`splits, this`ledger, this`returned
      ensures View() == Step(cfg, old(View()), RefundPayment(p, fault))
      ensures completed <==> Refundable(old(View()), p) && fault == None
    {
      if p >= |payments| || payments[p].status != SUCCEEDED {
        return false;
      }
      for i := 0 to |splits|
        invariant forall j :: 0 <= j < i ==> !(splits[j].payment == p && splits[j].status == RELEASED)
      {
        if splits[i].payment == p && splits[i].status == RELEASED {
          return false;
        }
      }
      assert Refundable(View(), p);
      assert fault.Some? ==>
               || fault.value.ForeignThrows? || fault.value.AnswerLost? || fault.value.RowWriteThrows?
               || fault.value.RecordThrows? || fault.value.RecordLost?;
      if fault == Some(ForeignThrows) {
        return false;
      }
      returned := returned + multiset{p};
      if fault == Some(AnswerLost) || fault == Some(RowWriteThrows) {
        return false;
      }
      var pay := payments[p];
      payments := payments[p := pay.(status := PaymentStatus.REFUNDED)];
      splits := ReturnSplits(splits, p);
      if fault == Some(RecordThrows) {
        return false;
      }
      ledger := ledger + [Transaction(pay.payer, REFUND, pay.amount)];
      return fault != Some(RecordLost);
    }

    /** The `try`: false when something in it throws. */
    method CallStripe(id: nat, user: UserId, amount: int, call: PayoutCall) returns (ok: bool)
      requires id < |payouts|
      modifies this`payouts, this`ledger
      ensures ok <==> Completes(call)
      ensures payouts == if !IsLinked(call) then old(payouts)
                         else old(payouts)[id := old(payouts)[id].(linked := true,
                             status := MapStripeStatus(call.stripe.status))]
      ensures ledger == if IsRecorded(call) then old(ledger) + [Transaction(user, PAYOUT, -amount)] else old(ledger)
    {
      if call.stripe.Throws? || call.dbFault == Some(RowWriteThrows) {
        return false;
      }
      payouts := payouts[id := payouts[id].(linked := true, status := MapStripeStatus(call.stripe.status))];
      if call.dbFault == Some(RecordThrows) {
        return false;
      }
      ledger := ledger + [Transaction(user, PAYOUT, -amount)];
      return call.dbFault != Some(RecordLost);
    }

    /** Create the payout PENDING, ask Stripe, then link and record it; in the `catch`, mark it FAILED. */
    method PayOut(user: UserId, amount: int, call: PayoutCall) returns (paid: bool)
      modifies this`payouts, this`ledger
      ensures View() == WithdrawOf(old(View()), user, amount, call)
      ensures paid ==> call.stripe.Answers?
    {
      var id := |payouts|;
      payouts := payouts + [Payout(user, amount, PayoutStatus.PENDING, false)];
      paid := CallStripe(id, user, amount, call);
      if !paid && !call.markThrows {
        payouts := payouts[id := payouts[id].(status := PayoutStatus.FAILED)];
      }
      assert payouts == old(payouts) + [payouts[id]];
    }

    method WithdrawFunds(cfg: Config, user: UserId, requested: Option<int>, accountActive: bool, call: PayoutCall)
      returns (paid: bool)
      modifies this`payouts, this`ledger
      ensures View() == Step(cfg, old(View()), Withdraw(user, requested, accountActive, call))
      ensures paid ==> call.stripe.Answers? && Admissible(cfg, old(View()), user, requested, accountActive).Some?
    {
      if !accountActive {
        return false;
      }
      var available := Available(splits, payouts, user);
      var amount := if requested.Some? then requested.value else available;
      if amount <= 0 || amount > available || amount < cfg.minimumPayout {
        return false;
      }
      paid := PayOut(user, amount, call);
    }

    method UpdatePayoutStatus(i: nat, to: PayoutStatus, recordThrows: bool)
      requires i < |payouts|
      modifies this`payouts, this`ledger
      ensures View() == PayoutEventOf(old(View()), i, to, recordThrows)
    {
      var p := payouts[i];
      if !p.linked || p.status == to {
        return;
      }
      payouts := payouts[i := p.(status := to)];
      if (to == PayoutStatus.FAILED || to == CANCELED) && !recordThrows {
        ledger := ledger + [Transaction(p.user, PAYOUT, p.amount)];
      }
    }
  }
}
