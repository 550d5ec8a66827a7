/**
  The life of one order as four services drive it: src/orders/services/orders.service.ts, refunds.service.ts,
  shipments.service.ts and webhook.service.ts.  Each service call is one atomic step.
 */
module Orders {
  import opened Util

  datatype OrderStatus = PENDING_PAYMENT | PAID | FULFILLED | COMPLETED | CANCELLED | REFUNDED | PARTIALLY_REFUNDED

  datatype RefundStatus = PENDING | APPROVED | REJECTED | PROCESSED

  /** WAITING is the schema's ShipmentStatus PENDING, renamed because RefundStatus has one too. */
  datatype ShipmentStatus = WAITING | SHIPPED | IN_TRANSIT | DELIVERED | RETURNED

  datatype Refund = Refund(amount: int, status: RefundStatus)

  /** `restocks` counts the calls of `restockOrder` for this order. */
  datatype Order = Order(
    status: OrderStatus, subtotal: int, refunds: seq<Refund>, shipments: seq<ShipmentStatus>, restocks: nat)

  datatype Outcome = Done | Ignored | NotFound | Conflict | BadRequest

  datatype Action =
    | PaymentSucceeded
    | PaymentFailed
    | RefundProcessed(refund: Option<nat>)   // webhook
    | Cancel
    | CreateRefund(amount: int)
    | Approve(i: nat)
    | Reject(i: nat)
    | CreateShipment
    | UpdateShipment(shipment: nat, to: ShipmentStatus)

  function ProcessedAmount(): Refund -> int {
    (r: Refund) => if r.status == PROCESSED then r.amount else 0
  }

  function PendingAmount(): Refund -> int {
    (r: Refund) => if r.status == PENDING then r.amount else 0
  }

  function Processed(o: Order): int {
    Sum(o.refunds, ProcessedAmount())
  }

  predicate IsPending(o: Order, i: nat) {
    i < |o.refunds| && o.refunds[i].status == PENDING
  }

  predicate AllDelivered(shipments: seq<ShipmentStatus>) {
    forall i :: 0 <= i < |shipments| ==> shipments[i] == DELIVERED
  }

  /** Both ways of processing a refund: mark it, add up what is processed, restate the order's status. */
  function Process(o: Order, i: nat): Order
    requires i < |o.refunds|
  {
    var refunds := o.refunds[i := o.refunds[i].(status := PROCESSED)];
    o.(refunds := refunds,
       status := if Sum(refunds, ProcessedAmount()) >= o.subtotal then REFUNDED else PARTIALLY_REFUNDED)
  }

  function Attempt(o: Order, a: Action): (Order, Outcome) {
    match a
    case PaymentSucceeded => if o.status == PENDING_PAYMENT then (o.(status := PAID), Done) else (o, Ignored)
    case PaymentFailed =>
      if o.status == PENDING_PAYMENT then (o.(status := CANCELLED, restocks := o.restocks + 1), Done) else (o, Ignored)
    case RefundProcessed(r) => if r.Some? && IsPending(o, r.value) then (Process(o, r.value), Done) else (o, Ignored)
    case Cancel =>
      if o.status in {CANCELLED, COMPLETED, REFUNDED} then (o, Conflict)
      else (o.(status := CANCELLED, restocks := o.restocks + 1), Done)
    case CreateRefund(amount) =>
      if amount < 1 then (o, BadRequest) else
      if o.status !in {PAID, FULFILLED, COMPLETED, PARTIALLY_REFUNDED} then (o, Conflict) else
      if Processed(o) + amount > o.subtotal then (o, BadRequest)
      else (o.(refunds := o.refunds + [Refund(amount, PENDING)]), Done)
    case Approve(i) =>
      if i >= |o.refunds| then (o, NotFound) else if !IsPending(o, i) then (o, Conflict) else (Process(o, i), Done)
    case Reject(i) =>
      if i >= |o.refunds| then (o, NotFound) else if !IsPending(o, i) then (o, Conflict)
      else (o.(refunds := o.refunds[i := o.refunds[i].(status := REJECTED)]), Done)
    case CreateShipment =>
      if o.status !in {PAID, FULFILLED} then (o, Conflict)
      else (o.(shipments := o.shipments + [WAITING], status := FULFILLED), Done)
    case UpdateShipment(i, to) =>
      if i >= |o.shipments| then (o, NotFound) else
      var shipments := o.shipments[i := to];
      (o.(shipments := shipments, status := if to == DELIVERED
          && AllDelivered(shipments) then COMPLETED else o.status), Done)
  }

  function Step(o: Order, a: Action): Order {
    Attempt(o, a).0
  }

  function Run(o: Order, acts: seq<Action>): Order {
    if acts == [] then o else Step(Run(o, acts[..|acts| - 1]), acts[|acts| - 1])
  }

  lemma Then(o: Order, acts: seq<Action>, t: Order, a: Action) returns (acts': seq<Action>, t': Order)
    requires t == Run(o, acts)
    ensures acts' == acts + [a]
    ensures t' == Step(t, a) == Run(o, acts')
  {
    acts', t' := acts + [a], Step(t, a);
    assert acts'[..|acts|] == acts;
  }

  function Placed(subtotal: int): Order {
    Order(PENDING_PAYMENT, subtotal, [], [], 0)
  }

  // ---- refund status agrees with the processed sum ----

  ghost predicate Inv(o: Order) {
    && (forall i :: 0 <= i < |o.refunds| ==> o.refunds[i].amount >= 1)
    && (o.status == PENDING_PAYMENT ==> o.refunds == [] && o.shipments == [] && o.restocks == 0)
    && (o.status == PARTIALLY_REFUNDED ==> 0 < Processed(o) < o.subtotal)
    && (o.status == REFUNDED ==> Processed(o) >= o.subtotal)
    && ShippedIfFulfilled(o)
  }

  /** Processing a pending refund adds its amount to the processed sum. */
  lemma ProcessSum(o: Order, i: nat)
    requires Inv(o) && IsPending(o, i)
    ensures Processed(Process(o, i)) == Processed(o) + o.refunds[i].amount > Processed(o) >= 0
    ensures Sum(Process(o, i).refunds, PendingAmount()) == Sum(o.refunds, PendingAmount()) - o.refunds[i].amount
  {
    SumUpdate(o.refunds, i, o.refunds[i].(status := PROCESSED), ProcessedAmount());
    SumUpdate(o.refunds, i, o.refunds[i].(status := PROCESSED), PendingAmount());
    SumNonNegative(o.refunds, ProcessedAmount());
  }

  lemma CreateSum(o: Order, amount: int)
    ensures Processed(o.(refunds := o.refunds + [Refund(amount, PENDING)])) == Processed(o)
    ensures Sum(o.refunds + [Refund(amount, PENDING)], PendingAmount()) == Sum(o.refunds, PendingAmount()) + amount
  {
    SumPush(o.refunds, Refund(amount, PENDING), ProcessedAmount());
    SumPush(o.refunds, Refund(amount, PENDING), PendingAmount());
  }

  lemma RejectSum(o: Order, i: nat)
    requires IsPending(o, i)
    ensures Processed(Step(o, Reject(i))) == Processed(o)
    ensures Sum(Step(o, Reject(i)).refunds, PendingAmount()) == Sum(o.refunds, PendingAmount()) - o.refunds[i].amount
  {
    SumUpdate(o.refunds, i, o.refunds[i].(status := REJECTED), ProcessedAmount());
    SumUpdate(o.refunds, i, o.refunds[i].(status := REJECTED), PendingAmount());
  }

  /** What a release of escrowed money relies on. */
  predicate ShippedIfFulfilled(o: Order) {
    o.status in {FULFILLED, COMPLETED} ==> o.shipments != []
  }

  /** No action changes what an order costs or loses a shipment. */
  lemma ShipmentsStay(o: Order, a: Action)
    requires ShippedIfFulfilled(o)
    ensures Step(o, a).subtotal == o.subtotal && |Step(o, a).shipments| >= |o.shipments|
    ensures ShippedIfFulfilled(Step(o, a))
  {
  }

  /** Nothing is shipped or refunded, and nothing but a cancellation happens, before the payment succeeded. */
  lemma {:induction false} PaidFirst(subtotal: int, acts: seq<Action>)
    ensures var o := Run(Placed(subtotal), acts);
            o.status !in {PENDING_PAYMENT, CANCELLED} || o.shipments != [] || o.refunds != [] ==>
              PaymentSucceeded in acts
  {
    if acts != [] {
      PaidFirst(subtotal, acts[..|acts| - 1]);
    }
  }

  lemma InvProcess(o: Order, i: nat)
    requires Inv(o) && IsPending(o, i)
    ensures Inv(Process(o, i))
  {
    ProcessSum(o, i);
  }

  lemma InvRequest(o: Order, amount: int)
    requires Inv(o)
    ensures Inv(Step(o, CreateRefund(amount)))
  {
    CreateSum(o, amount);
  }

  lemma InvStep(o: Order, a: Action)
    requires Inv(o)
    ensures Inv(Step(o, a)) && Step(o, a).subtotal == o.subtotal
  {
    match a
    case RefundProcessed(r) => if r.Some? && IsPending(o, r.value) { InvProcess(o, r.value); }
    case Approve(i) => if IsPending(o, i) { InvProcess(o, i); }
    case Reject(i) => if IsPending(o, i) { RejectSum(o, i); }
    case CreateRefund(amount) => InvRequest(o, amount);
    case _ =>
  }

  /**
    In every run, a refunded status means the money says so, and an order awaiting payment has no refund, shipment or
    restock.
   */
  lemma {:induction false} RefundStatusAgrees(o: Order, acts: seq<Action>)
    requires Inv(o)
    ensures Inv(Run(o, acts)) && Run(o, acts).subtotal == o.subtotal
  {
    if acts != [] {
      RefundStatusAgrees(o, acts[..|acts| - 1]);
      InvStep(Run(o, acts[..|acts| - 1]), acts[|acts| - 1]);
    }
  }

  // ---- which call moves an order where ----

  predicate Becomes(o: Order, a: Action, to: OrderStatus) {
    o.status != to && Step(o, a).status == to
  }

  /** A pending refund is paid out, by an approval or because Stripe reports it processed. */
  predicate PaysOut(o: Order, a: Action, i: nat) {
    IsPending(o, i) && (a == Approve(i) || a == RefundProcessed(Some(i)))
  }

  /** The shipment is reported delivered, and every other one is already. */
  predicate DeliversLast(o: Order, a: Action, i: nat) {
    a == UpdateShipment(i, DELIVERED) && i < |o.shipments|
    && forall j :: 0 <= j < |o.shipments| && j != i ==> o.shipments[j] == DELIVERED
  }

  /** Payment and cancellation: the only ways to PAID and CANCELLED, each cancellation with its one restock. */
  lemma PaidOrCancelledIff(o: Order, a: Action)
    requires Inv(o)
    ensures !Becomes(o, a, PENDING_PAYMENT)
    ensures Becomes(o, a, PAID) <==> o.status == PENDING_PAYMENT && a == PaymentSucceeded
    ensures Becomes(o, a, CANCELLED) <==>
            || (o.status == PENDING_PAYMENT && a == PaymentFailed)
            || (o.status in {PENDING_PAYMENT, PAID, FULFILLED, PARTIALLY_REFUNDED} && a == Cancel)
    ensures Step(o, a).restocks == o.restocks + if Becomes(o, a, CANCELLED) then 1 else 0
  {
  }

  /** Shipping: the only ways to FULFILLED and COMPLETED. */
  lemma ShippedIff(o: Order, a: Action)
    requires Inv(o)
    ensures Becomes(o, a, FULFILLED) <==> o.status == PAID && a == CreateShipment
    ensures Becomes(o, a, COMPLETED) <==> o.status != COMPLETED && exists i: nat :: DeliversLast(o, a, i)
  {
    if i: nat :| DeliversLast(o, a, i) {
      assert AllDelivered(o.shipments[i := DELIVERED]);
    } else if a.UpdateShipment? && a.shipment < |o.shipments| && a.to == DELIVERED {
      assert !DeliversLast(o, a, a.shipment);
      var j :| 0 <= j < |o.shipments| && j != a.shipment && o.shipments[j] != DELIVERED;
      assert o.shipments[a.shipment := DELIVERED][j] != DELIVERED;
    }
  }

  /** Refunds: the only ways to REFUNDED and PARTIALLY_REFUNDED, told apart by what is paid back by then. */
  lemma RefundedIff(o: Order, a: Action)
    requires Inv(o)
    ensures Becomes(o, a, REFUNDED) <==>
            o.status != REFUNDED
            && exists i: nat :: PaysOut(o, a, i) && Processed(o) + o.refunds[i].amount >= o.subtotal
    ensures Becomes(o, a, PARTIALLY_REFUNDED) <==>
            o.status != PARTIALLY_REFUNDED
            && exists i: nat :: PaysOut(o, a, i) && Processed(o) + o.refunds[i].amount < o.subtotal
  {
    if i: nat :| PaysOut(o, a, i) {
      ProcessSum(o, i);
      assert forall j: nat :: PaysOut(o, a, j) ==> j == i;
    } else {
      assert a.Approve? ==> !PaysOut(o, a, a.i);
      assert a.RefundProcessed? && a.refund.Some? ==> !PaysOut(o, a, a.refund.value);
    }
  }

  /** The request the service accepts. */
  predicate Asks(o: Order, a: Action) {
    && a.CreateRefund? && a.amount >= 1 && o.status in {PAID, FULFILLED, COMPLETED, PARTIALLY_REFUNDED}
    && a.amount <= o.subtotal - Processed(o)
  }

  /** The refund rows: one more exactly when asked for, none ever changes its amount, each is decided at most once. */
  lemma RefundRowsIff(o: Order, a: Action)
    ensures var t := Step(o, a);
            && |t.refunds| == |o.refunds| + (if Asks(o, a) then 1 else 0)
            && (Asks(o, a) ==> t.refunds[|o.refunds|] == Refund(a.amount, PENDING))
            && forall i: nat :: i < |o.refunds| ==>
                 && t.refunds[i].amount == o.refunds[i].amount
                 && (t.refunds[i].status == PROCESSED <==> o.refunds[i].status == PROCESSED || PaysOut(o, a, i))
                 && (t.refunds[i].status == REJECTED <==>
                       o.refunds[i].status == REJECTED || (IsPending(o, i) && a == Reject(i)))
                 && (t.refunds[i].status == PENDING <==> IsPending(o, i) && !PaysOut(o, a, i) && a != Reject(i))
  {
  }

  /** The shipment rows. */
  lemma ShipmentRowsIff(o: Order, a: Action)
    ensures var t := Step(o, a);
            var ships := a == CreateShipment && o.status in {PAID, FULFILLED};
            && |t.shipments| == |o.shipments| + (if ships then 1 else 0)
            && (ships ==> t.shipments[|o.shipments|] == WAITING)
            && forall i :: 0 <= i < |o.shipments| ==>
                 t.shipments[i] == if a.UpdateShipment? && a.shipment == i then a.to else o.shipments[i]
  {
  }

  /** Why a call is turned away: it then changes nothing. */
  lemma RefusedIff(o: Order, a: Action)
    ensures var (t, r) := Attempt(o, a);
            && (r != Done ==> t == o)
            && (r == Ignored <==> t == o && (a.PaymentSucceeded? || a.PaymentFailed? || a.RefundProcessed?))
            && (r == NotFound <==>
                  || ((a.Approve? || a.Reject?) && a.i >= |o.refunds|)
                  || (a.UpdateShipment? && a.shipment >= |o.shipments|))
            && (r == BadRequest <==>
                  && a.CreateRefund? && !Asks(o, a)
                  && (a.amount < 1 || o.status in {PAID, FULFILLED, COMPLETED, PARTIALLY_REFUNDED}))
            && (r == Conflict <==>
                  || ((a.Approve? || a.Reject?) && a.i < |o.refunds| && !IsPending(o, a.i))
                  || (a == Cancel && o.status in {CANCELLED, COMPLETED, REFUNDED})
                  || (a == CreateShipment && o.status !in {PAID, FULFILLED})
                  || (a.CreateRefund? && a.amount >= 1
                      && o.status !in {PAID, FULFILLED, COMPLETED, PARTIALLY_REFUNDED}))
  {
    if a.RefundProcessed? && a.refund.Some? && IsPending(o, a.refund.value) {
      assert Step(o, a).refunds[a.refund.value].status != o.refunds[a.refund.value].status;
    }
  }

  /** The calls that decide an unpaid order. */
  predicate Decides(a: Action) {
    a in {PaymentSucceeded, PaymentFailed, Cancel}
  }

  /** Until one of them comes, an order stays exactly as it was placed, whatever else is tried. */
  lemma {:induction false} UndecidedStays(subtotal: int, acts: seq<Action>)
    requires forall k :: 0 <= k < |acts| ==> !Decides(acts[k])
    ensures Run(Placed(subtotal), acts) == Placed(subtotal)
  {
    if acts != [] {
      UndecidedStays(subtotal, acts[..|acts| - 1]);
    }
  }

  /** The first of them settles what becomes of the order. */
  lemma FirstDecision(subtotal: int, before: seq<Action>, a: Action)
    requires (forall k :: 0 <= k < |before| ==> !Decides(before[k])) && Decides(a)
    ensures Run(Placed(subtotal), before + [a]) ==
            if a == PaymentSucceeded then Order(PAID, subtotal, [], [], 0) else Order(CANCELLED, subtotal, [], [], 1)
  {
    UndecidedStays(subtotal, before);
    assert (before + [a])[..|before|] == before;
  }

  /** How often a run cancels the order. */
  function Cancellations(o: Order, acts: seq<Action>): nat {
    if acts == [] then 0 else
    var n := |acts| - 1;
    Cancellations(o, acts[..n]) + if Becomes(Run(o, acts[..n]), acts[n], CANCELLED) then 1 else 0
  }

  /** In every run the stock goes back exactly as often as the order is cancelled. */
  lemma {:induction false} RestockedPerCancellation(o: Order, acts: seq<Action>)
    requires Inv(o)
    ensures Run(o, acts).restocks == o.restocks + Cancellations(o, acts)
  {
    if acts != [] {
      var n := |acts| - 1;
      RestockedPerCancellation(o, acts[..n]);
      RefundStatusAgrees(o, acts[..n]);
      PaidOrCancelledIff(Run(o, acts[..n]), acts[n]);
    }
  }

  // ---- more is never refunded than was paid, exactly when ----

  function Pending(o: Order): int {
    Sum(o.refunds, PendingAmount())
  }

  /** What was refunded and what is asked for fit into what was paid. */
  predicate Covered(o: Order) {
    Processed(o) + Pending(o) <= o.subtotal
  }

  predicate IsDecision(a: Action) {
    a.Approve? || a.Reject? || a.RefundProcessed?
  }

  lemma DecisionSums(o: Order, a: Action)
    requires Inv(o) && IsDecision(a)
    ensures var t := Step(o, a);
            && Processed(o) <= Processed(t) && Processed(t) + Pending(t) <= Processed(o) + Pending(o)
  {
    match a
    case RefundProcessed(r) => if r.Some? && IsPending(o, r.value) { ProcessSum(o, r.value); }
    case Approve(i) => if IsPending(o, i) { ProcessSum(o, i); }
    case Reject(i) => if IsPending(o, i) { RejectSum(o, i); }
  }

  lemma {:induction false} CoveredByDecisions(o: Order, acts: seq<Action>)
    requires Inv(o) && Covered(o) && forall k :: 0 <= k < |acts| ==> IsDecision(acts[k])
    ensures Covered(Run(o, acts)) && Processed(Run(o, acts)) <= o.subtotal
  {
    RefundStatusAgrees(o, acts);
    if acts != [] {
      CoveredByDecisions(o, acts[..|acts| - 1]);
      RefundStatusAgrees(o, acts[..|acts| - 1]);
      DecisionSums(Run(o, acts[..|acts| - 1]), acts[|acts| - 1]);
    }
    SumNonNegative(Run(o, acts).refunds, PendingAmount());
  }

  lemma {:induction false} NothingPending(refunds: seq<Refund>)
    requires forall i :: 0 <= i < |refunds| ==> refunds[i].status != PENDING
    ensures Sum(refunds, PendingAmount()) == 0
  {
    if refunds != [] {
      assert forall i :: 0 <= i < |refunds| - 1 ==> refunds[..|refunds| - 1][i] == refunds[i];
      NothingPending(refunds[..|refunds| - 1]);
    }
  }

  lemma ApproveKeepsTotal(o: Order, i: nat)
    requires Inv(o) && IsPending(o, i)
    ensures var t := Step(o, Approve(i));
            && Inv(t) && t.refunds == o.refunds[i := o.refunds[i].(status := PROCESSED)]
            && Processed(t) + Pending(t) == Processed(o) + Pending(o)
  {
    InvStep(o, Approve(i));
    ProcessSum(o, i);
  }

  /** Approves the pending refunds among the first k, one after the other. */
  lemma {:induction false} ApproveFirst(o: Order, k: nat) returns (acts: seq<Action>)
    requires Inv(o) && k <= |o.refunds|
    ensures forall j :: 0 <= j < |acts| ==> IsDecision(acts[j])
    ensures var t := Run(o, acts);
            && Inv(t) && |t.refunds| == |o.refunds| && Processed(t) + Pending(t) == Processed(o) + Pending(o)
            && forall i :: 0 <= i < k ==> t.refunds[i].status != PENDING
  {
    acts := [];
    if k != 0 {
      acts := ApproveFirst(o, k - 1);
      var t := Run(o, acts);
      if IsPending(t, k - 1) {
        ApproveKeepsTotal(t, k - 1);
        acts, t := Then(o, acts, t, Approve(k - 1));
      }
    }
  }

  /** No way of deciding the pending refunds pays back more than the subtotal, exactly when all of them together fit. */
  lemma DecisionsSafeIff(o: Order)
    requires Inv(o)
    ensures (forall acts :: (forall k :: 0 <= k < |acts| ==> IsDecision(acts[k])) ==>
                              Processed(Run(o, acts)) <= o.subtotal)
            <==> Covered(o)
  {
    if Covered(o) {
      forall acts | forall k :: 0 <= k < |acts| ==> IsDecision(acts[k]) ensures Processed(Run(o, acts)) <= o.subtotal {
        CoveredByDecisions(o, acts);
      }
    } else {
      var acts := ApproveFirst(o, |o.refunds|);
      NothingPending(Run(o, acts).refunds);
      assert Processed(Run(o, acts)) > o.subtotal;
    }
  }

  /** The request the service should have refused: it fits what is processed, but not together with what is pending. */
  predicate OverAsks(o: Order, a: Action) {
    a.CreateRefund? && Attempt(o, a).1 == Done && Processed(o) + Pending(o) + a.amount > o.subtotal
  }

  lemma CoveredDecision(o: Order, a: Action)
    requires Inv(o) && Covered(o) && IsDecision(a)
    ensures Covered(Step(o, a))
  {
    InvStep(o, a);
    DecisionSums(o, a);
  }

  /** One call leaves more asked for than was paid, exactly when it is such a request. */
  lemma UncoveredIff(o: Order, a: Action)
    requires Inv(o) && Covered(o)
    ensures !Covered(Step(o, a)) <==> OverAsks(o, a)
  {
    if IsDecision(a) {
      CoveredDecision(o, a);
    } else if a.CreateRefund? {
      CreateSum(o, a.amount);
    }
  }

  /** In every run in which no request over-asks, no more is refunded than was paid, whatever is decided and when. */
  lemma {:induction false} NeverOverRefunded(o: Order, acts: seq<Action>)
    requires Inv(o) && Covered(o)
    requires forall k :: 0 <= k < |acts| ==> !OverAsks(Run(o, acts[..k]), acts[k])
    ensures Covered(Run(o, acts)) && Processed(Run(o, acts)) <= o.subtotal
  {
    RefundStatusAgrees(o, acts);
    if acts != [] {
      var n := |acts| - 1;
      forall k | 0 <= k < n ensures !OverAsks(Run(o, acts[..n][..k]), acts[..n][k]) {
        assert acts[..n][..k] == acts[..k];
      }
      NeverOverRefunded(o, acts[..n]);
      RefundStatusAgrees(o, acts[..n]);
      UncoveredIff(Run(o, acts[..n]), acts[n]);
    }
    SumNonNegative(Run(o, acts).refunds, PendingAmount());
  }

  /** Asking only while nothing is pending is one way never to over-ask. */
  lemma OneAtATimeSuffices(o: Order, a: Action)
    requires Inv(o) && Covered(o) && forall i :: 0 <= i < |o.refunds| ==> !IsPending(o, i)
    ensures !OverAsks(o, a)
  {
    forall i | 0 <= i < |o.refunds| ensures o.refunds[i].status != PENDING {
      assert !IsPending(o, i);
    }
    NothingPending(o.refunds);
  }

  lemma TwoPendingRequests(subtotal: int) returns (acts: seq<Action>)
    requires subtotal >= 1
    ensures Run(Placed(subtotal), acts) ==
            Order(PAID, subtotal, [Refund(subtotal, PENDING), Refund(subtotal, PENDING)], [], 0)
  {
    var o := Placed(subtotal);
    var t := o;
    acts, t := Then(o, [], t, PaymentSucceeded);
    CreateSum(t, subtotal);
    acts, t := Then(o, acts, t, CreateRefund(subtotal));
    assert t == Order(PAID, subtotal, [Refund(subtotal, PENDING)], [], 0);
    acts, t := Then(o, acts, t, CreateRefund(subtotal));
  }

  /** Two refunds of the whole amount, requested before either is approved. */
  lemma TwoPendingOverRefund(subtotal: int) returns (acts: seq<Action>)
    requires subtotal >= 1
    ensures Processed(Run(Placed(subtotal), acts)) == 2 * subtotal
  {
    acts := TwoPendingRequests(subtotal);
    var o, t := Placed(subtotal), Run(Placed(subtotal), acts);
    RefundStatusAgrees(o, acts);
    ProcessSum(t, 0);
    var r := Refund(subtotal, PENDING);
    assert Processed(t) == 0 by {
      SumPush([], r, ProcessedAmount());
      SumPush([r], r, ProcessedAmount());
      assert [] + [r] == [r] && [r] + [r] == t.refunds;
    }
    var t1, t2;
    acts, t1 := Then(o, acts, t, Approve(0));
    RefundStatusAgrees(o, acts);
    ProcessSum(t1, 1);
    acts, t2 := Then(o, acts, t1, Approve(1));
  }

  // ---- cancellation is final, exactly when ----

  /** Nothing is left that could move a cancelled order. */
  predicate Quiet(o: Order) {
    o.shipments == [] && forall i :: 0 <= i < |o.refunds| ==> !IsPending(o, i)
  }

  lemma {:induction false} QuietIsFrozen(o: Order, acts: seq<Action>)
    requires o.status == CANCELLED && Quiet(o)
    ensures Run(o, acts) == o
  {
    if acts != [] {
      QuietIsFrozen(o, acts[..|acts| - 1]);
    }
  }

  /** Marks the remaining shipments delivered one after the other. */
  lemma {:induction false} DeliverAll(o: Order, acts: seq<Action>, t: Order, k: nat) returns (acts': seq<Action>)
    requires t == Run(o, acts) && k < |t.shipments|
    requires forall i :: 0 <= i < k ==> t.shipments[i] == DELIVERED
    ensures var t' := Run(o, acts');
            t'.status == COMPLETED && t'.refunds == t.refunds && t'.restocks == t.restocks && t'.subtotal == t.subtotal
    decreases |t.shipments| - k
  {
    var t';
    acts', t' := Then(o, acts, t, UpdateShipment(k, DELIVERED));
    if k + 1 < |t.shipments| {
      acts' := DeliverAll(o, acts', t', k + 1);
    }
  }

  /** A cancelled order stays cancelled in every run exactly when it has no pending refund and no shipment. */
  lemma StaysCancelledIff(o: Order)
    requires Inv(o) && o.status == CANCELLED
    ensures (forall acts :: Run(o, acts).status == CANCELLED) <==> Quiet(o)
  {
    if Quiet(o) {
      forall acts ensures Run(o, acts).status == CANCELLED {
        QuietIsFrozen(o, acts);
      }
    } else if o.shipments != [] {
      var acts := DeliverAll(o, [], o, 0);
      assert Run(o, acts).status != CANCELLED;
    } else {
      var i :| 0 <= i < |o.refunds| && IsPending(o, i);
      var acts, t := Then(o, [], o, Approve(i));
      assert Run(o, acts).status != CANCELLED;
    }
  }

  /** An order cancelled before it was paid is cancelled for good, and its stock goes back exactly once. */
  lemma UnpaidCancellationIsFinal(subtotal: int, before: seq<Action>, a: Action, later: seq<Action>)
    requires Run(Placed(subtotal), before).status == PENDING_PAYMENT
    requires Step(Run(Placed(subtotal), before), a).status == CANCELLED
    ensures var cancelled := Step(Run(Placed(subtotal), before), a);
            Run(cancelled, later) == cancelled && cancelled.restocks == 1
  {
    RefundStatusAgrees(Placed(subtotal), before);
    QuietIsFrozen(Step(Run(Placed(subtotal), before), a), later);
  }

  // ---- which orders can still be fulfilled ----

  predicate IsFulfilled(o: Order) {
    o.status == FULFILLED || o.status == COMPLETED
  }

  predicate CanBeFulfilled(o: Order) {
    o.shipments != [] || o.status in {PENDING_PAYMENT, PAID, FULFILLED, COMPLETED}
  }

  lemma NeverFulfilledStep(o: Order, a: Action)
    requires !CanBeFulfilled(o)
    ensures !CanBeFulfilled(Step(o, a))
  {
  }

  lemma {:induction false} NeverFulfilled(o: Order, acts: seq<Action>)
    requires !CanBeFulfilled(o)
    ensures !CanBeFulfilled(Run(o, acts))
  {
    if acts != [] {
      NeverFulfilled(o, acts[..|acts| - 1]);
      NeverFulfilledStep(Run(o, acts[..|acts| - 1]), acts[|acts| - 1]);
    }
  }

  /** The run ends with the order fulfilled. */
  predicate FulfilledBy(o: Order, acts: seq<Action>) {
    IsFulfilled(Run(o, acts))
  }

  lemma Fulfil(o: Order) returns (acts: seq<Action>)
    requires CanBeFulfilled(o) && ShippedIfFulfilled(o)
    ensures FulfilledBy(o, acts)
  {
    acts := [];
    var t := o;
    if o.shipments != [] {
      acts := DeliverAll(o, [], o, 0);
    } else {
      if o.status == PENDING_PAYMENT {
        acts, t := Then(o, acts, t, PaymentSucceeded);
      }
      acts, t := Then(o, acts, t, CreateShipment);
    }
  }

  /** Some run fulfils the order exactly when it has a shipment or was neither cancelled nor refunded yet. */
  lemma CanBeFulfilledIff(o: Order)
    requires ShippedIfFulfilled(o)
    ensures (exists acts :: FulfilledBy(o, acts)) <==> CanBeFulfilled(o)
  {
    if CanBeFulfilled(o) {
      var acts := Fulfil(o);
    } else {
      forall acts ensures !FulfilledBy(o, acts) {
        NeverFulfilled(o, acts);
      }
    }
  }

  // ---- the stock goes back only once, exactly when ----

  /**
    No way leads back to a status that can be cancelled: any refund that could still be processed uses up the
    subtotal.
   */
  predicate Sealed(o: Order) {
    && (forall i :: 0 <= i < |o.refunds| && IsPending(o, i) ==> Processed(o) + o.refunds[i].amount >= o.subtotal)
    && (o.shipments != [] ==> Processed(o) + 1 >= o.subtotal)
  }

  ghost predicate Closed(o: Order) {
    && Inv(o) && Sealed(o)
    && o.status in {CANCELLED, COMPLETED, REFUNDED}
    && (o.status == COMPLETED ==> o.shipments != [])
  }

  lemma ClosedStep(o: Order, a: Action)
    requires Closed(o)
    ensures Closed(Step(o, a)) && Step(o, a).restocks == o.restocks
  {
    InvStep(o, a);
    match a
    case RefundProcessed(r) => if r.Some? && IsPending(o, r.value) { ProcessSum(o, r.value); }
    case Approve(i) => if IsPending(o, i) { ProcessSum(o, i); }
    case Reject(i) => if IsPending(o, i) { RejectSum(o, i); }
    case CreateRefund(amount) => CreateSum(o, amount);
    case _ =>
  }

  lemma {:induction false} ClosedRun(o: Order, acts: seq<Action>)
    requires Closed(o)
    ensures Closed(Run(o, acts)) && Run(o, acts).restocks == o.restocks
  {
    if acts != [] {
      ClosedRun(o, acts[..|acts| - 1]);
      ClosedStep(Run(o, acts[..|acts| - 1]), acts[|acts| - 1]);
    }
  }

  /** A partial refund reopens the order, which can then be cancelled, and restocked, again. */
  lemma PartialRefundThenCancel(o: Order, acts: seq<Action>, t: Order, i: nat) returns (acts': seq<Action>)
    requires Inv(t) && t == Run(o, acts) && IsPending(t, i) && Processed(t) + t.refunds[i].amount < t.subtotal
    ensures Run(o, acts').restocks == t.restocks + 1
  {
    ProcessSum(t, i);
    var u;
    acts', u := Then(o, acts, t, Approve(i));
    acts', u := Then(o, acts', u, Cancel);
  }

  /** Delivering the shipments completes the order; a refund of 1 then leaves it partially refunded. */
  lemma ShipThenRefundThenCancel(o: Order) returns (acts: seq<Action>)
    requires Inv(o) && o.shipments != [] && Processed(o) + 1 < o.subtotal
    ensures Run(o, acts).restocks == o.restocks + 1
  {
    acts := DeliverAll(o, [], o, 0);
    var t := Run(o, acts);
    RefundStatusAgrees(o, acts);
    CreateSum(t, 1);
    InvStep(t, CreateRefund(1));
    var n := |t.refunds|;
    acts, t := Then(o, acts, t, CreateRefund(1));
    assert IsPending(t, n) && t.refunds[n].amount == 1;
    acts := PartialRefundThenCancel(o, acts, t, n);
  }

  /** After a cancellation the stock is never given back again, in any run, exactly when the order is sealed. */
  lemma RestockedOnceIff(o: Order)
    requires Inv(o) && o.status == CANCELLED
    ensures (forall acts :: Run(o, acts).restocks == o.restocks) <==> Sealed(o)
  {
    if Sealed(o) {
      forall acts ensures Run(o, acts).restocks == o.restocks {
        ClosedRun(o, acts);
      }
    } else if i :| 0 <= i < |o.refunds| && IsPending(o, i) && Processed(o) + o.refunds[i].amount < o.subtotal {
      var acts := PartialRefundThenCancel(o, [], o, i);
      assert Run(o, acts).restocks != o.restocks;
    } else {
      var acts := ShipThenRefundThenCancel(o);
      assert Run(o, acts).restocks != o.restocks;
    }
  }

  // ---- the services, on one order's rows ----

  class OrderServices {
    const subtotal: int
    var status: OrderStatus
    var refunds: seq<Refund>
    var shipments: seq<ShipmentStatus>
    ghost var restocks: nat

    ghost function View(): Order
      reads this
    {
      Order(status, subtotal, refunds, shipments, restocks)
    }

    constructor (subtotal: int)
      ensures View() == Placed(subtotal)
    {
      this.subtotal := subtotal;
      status, refunds, shipments, restocks := PENDING_PAYMENT, [], [], 0;
    }

    method HandlePaymentSucceeded() returns (outcome: Outcome)
      modifies this`status
      ensures (View(), outcome) == Attempt(old(View()), PaymentSucceeded)
    {
      if status != PENDING_PAYMENT {
        return Ignored;
      }
      status := PAID;
      return Done;
    }

    method HandlePaymentFailed() returns (outcome: Outcome)
      modifies this`status, this`restocks
      ensures (View(), outcome) == Attempt(old(View()), PaymentFailed)
    {
      if status != PENDING_PAYMENT {
        return Ignored;
      }
      restocks := restocks + 1;
      status := CANCELLED;
      return Done;
    }

    method CancelOrder() returns (outcome: Outcome)
      modifies this`status, this`restocks
      ensures (View(), outcome) == Attempt(old(View()), Cancel)
    {
      if status == CANCELLED || status == COMPLETED || status == REFUNDED {
        return Conflict;
      }
      restocks := restocks + 1;
      status := CANCELLED;
      return Done;
    }

    /** The aggregate the refund services ask the database for. */
    method AggregateProcessed() returns (total: int)
      ensures total == Processed(View())
    {
      total := 0;
      for i := 0 to |refunds|
        invariant total == Sum(refunds[..i], ProcessedAmount())
      {
        assert refunds[..i + 1][..i] == refunds[..i];
        if refunds[i].status == PROCESSED {
          total := total + refunds[i].amount;
        }
      }
      assert refunds[..|refunds|] == refunds;
    }

    method RequestRefund(amount: int) returns (outcome: Outcome)
      requires amount >= 1
      modifies this`refunds
      ensures (View(), outcome) == Attempt(old(View()), CreateRefund(amount))
    {
      if status !in {PAID, FULFILLED, COMPLETED, PARTIALLY_REFUNDED} {
        return Conflict;
      }
      var soFar := AggregateProcessed();
      if soFar + amount > subtotal {
        return BadRequest;
      }
      refunds := refunds + [Refund(amount, PENDING)];
      return Done;
    }

    method ProcessRefund(i: nat)
      requires i < |refunds|
      modifies this`refunds, this`status
      ensures View() == Process(old(View()), i)
    {
      refunds := refunds[i := refunds[i].(status := PROCESSED)];
      var total := AggregateProcessed();
      status := if total >= subtotal then REFUNDED else PARTIALLY_REFUNDED;
    }

    method ApproveRefund(i: nat) returns (outcome: Outcome)
      modifies this`refunds, this`status
      ensures (View(), outcome) == Attempt(old(View()), Approve(i))
    {
      if i >= |refunds| {
        return NotFound;
      }
      if refunds[i].status != PENDING {
        return Conflict;
      }
      ProcessRefund(i);
      return Done;
    }

    method HandleRefundProcessed(refundId: Option<nat>) returns (outcome: Outcome)
      modifies this`refunds, this`status
      ensures (View(), outcome) == Attempt(old(View()), RefundProcessed(refundId))
    {
      if refundId.None? || refundId.value >= |refunds| || refunds[refundId.value].status != PENDING {
        return Ignored;
      }
      ProcessRefund(refundId.value);
      return Done;
    }

    method RejectRefund(i: nat) returns (outcome: Outcome)
      modifies this`refunds
      ensures (View(), outcome) == Attempt(old(View()), Reject(i))
    {
      if i >= |refunds| {
        return NotFound;
      }
      if refunds[i].status != PENDING {
        return Conflict;
      }
      refunds := refunds[i := refunds[i].(status := REJECTED)];
      return Done;
    }

    method Ship() returns (outcome: Outcome)
      modifies this`shipments, this`status
      ensures (View(), outcome) == Attempt(old(View()), CreateShipment)
    {
      if status != PAID && status != FULFILLED {
        return Conflict;
      }
      shipments := shipments + [WAITING];
      if status == PAID {
        status := FULFILLED;
      }
      return Done;
    }

    method UpdateShipmentStatus(i: nat, to: ShipmentStatus) returns (outcome: Outcome)
      modifies this`shipments, this`status
      ensures (View(), outcome) == Attempt(old(View()), UpdateShipment(i, to))
    {
      if i >= |shipments| {
        return NotFound;
      }
      shipments := shipments[i := to];
      if to == DELIVERED {
        var every := true;
        for k := 0 to |shipments|
          invariant every <==> forall j :: 0 <= j < k ==> shipments[j] == DELIVERED
        {
          every := every && shipments[k] == DELIVERED;
        }
        if every {
          status := COMPLETED;
        }
      }
      return Done;
    }
  }
}
