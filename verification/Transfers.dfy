/**
  What Stripe was told to move, and how often: the release loop and the refund of
  src/payments/services/payments.service.ts when any of their calls is broken off, when a call took effect though
  its answer was lost, and in whatever order the splits of a payment are read.
 */
module Transfers {
  import opened Finance
  import opened Util
  import D = Deals
  import O = Orders

  // ---- the calls that leave the rows behind what Stripe was told ----

  /** A recipient's split that a turn of the release loop would transfer. */
  predicate Due(s: State, i: nat) {
    && i < |s.splits| && s.splits[i].status == SplitStatus.PENDING
    && !s.splits[i].isPlatformFee && s.splits[i].recipient.Some?
  }

  predicate Releases(s: State, a: Action) {
    a.Release? && Releasable(s, a.p) && ReadOrder(s, a.p, a.read)
  }

  /** A release that reaches a split that is due, and throws there in this way. */
  predicate ReleaseThrows(s: State, a: Action, kinds: set<FaultKind>) {
    && Releases(s, a) && a.fault.Fault? && a.fault.kind in kinds
    && Due(s, a.fault.split) && s.splits[a.fault.split].payment == a.p
  }

  /** The transfer is made, and the split's row does not say so. */
  predicate LosesTransfer(s: State, a: Action) {
    ReleaseThrows(s, a, {AnswerLost, RowWriteThrows})
  }

  /** The split's row is written, and the ledger does not say so. */
  predicate LosesRecord(s: State, a: Action) {
    ReleaseThrows(s, a, {RecordThrows})
  }

  /** The money is returned to the payer, and the payment's rows do not say so. */
  predicate LosesRefund(s: State, a: Action) {
    a.RefundPayment? && Refundable(s, a.p) && a.refundFault in {Some(AnswerLost), Some(RowWriteThrows)}
  }

  /** The fault strikes this turn, the split being due. */
  predicate StruckHere(s: State, i: nat, fault: Fault, kinds: set<FaultKind>) {
    Due(s, i) && fault.Fault? && fault.split == i && fault.kind in kinds
  }

  // ---- a release broken off and run again ----

  /** One turn that nothing breaks off. */
  function Turn(s: State, i: nat): (t: State)
    requires i < |s.splits|
    ensures |t.splits| == |s.splits|
  {
    ReleaseOne(s, i, NoFault).0
  }

  lemma TurnsCommute(s: State, fee: nat, i: nat)
    requires fee < |s.splits| && i < |s.splits| && fee != i && s.splits[fee].isPlatformFee
    ensures Turn(Turn(s, fee), i) == Turn(Turn(s, i), fee)
  {
  }

  lemma TurnTwice(s: State, i: nat)
    requires i < |s.splits|
    ensures Turn(Turn(s, i), i) == Turn(s, i)
  {
  }

  /** What the fee's turn does depends neither on what Stripe was told nor on the ledger. */
  lemma FeeApart(s: State, fee: nat, transfers: multiset<nat>, ledger: seq<Transaction>)
    requires fee < |s.splits| && s.splits[fee].isPlatformFee
    ensures Turn(s.(transfers := transfers, ledger := ledger), fee)
            == Turn(s, fee).(transfers := transfers, ledger := ledger)
  {
  }

  /** What a turn that threw and was made again leaves more, or less, than one turn. */
  function Mended(s: State, u: State, i: nat, fault: Fault): State
    requires i < |s.splits|
  {
    if StruckHere(s, i, fault, {AnswerLost, RowWriteThrows}) then Told(u, i)
    else if StruckHere(s, i, fault, {RecordThrows}) then u.(ledger := s.ledger)
    else u
  }

  lemma TurnMended(s: State, i: nat, fault: Fault)
    requires i < |s.splits| && (s.splits[i].isPlatformFee || s.splits[i].recipient.Some?)
    ensures Turn(ReleaseOne(s, i, fault).0, i) == Mended(s, Turn(s, i), i, fault)
    ensures ReleaseOne(s, i, fault).1 ==> ReleaseOne(s, i, fault).0 == Turn(s, i)
  {
    var t := ReleaseOne(s, i, fault).0;
    if StruckHere(s, i, fault, {AnswerLost, RowWriteThrows}) {
      assert t == Told(s, i);
    } else if StruckHere(s, i, fault, {RecordThrows}) {
      assert t == Turn(s, i).(ledger := s.ledger);
    } else {
      assert t == s || t == Turn(s, i);
    }
  }

  lemma NotStruckGoes(s: State, i: nat, fault: Fault)
    requires i < |s.splits| && !(fault.Fault? && fault.split == i)
    ensures ReleaseOne(s, i, fault) == (Turn(s, i), true)
  {
  }

  /** The fee and the share of one payment, both turns done. */
  function Settled(s: State, fee: nat, share: nat): State
    requires fee < |s.splits| && share < |s.splits|
  {
    Turn(Turn(s, fee), share)
  }

  predicate IsPair(s: State, fee: nat, share: nat) {
    && fee < |s.splits| && share < |s.splits| && fee != share
    && s.splits[fee].isPlatformFee && !s.splits[share].isPlatformFee && s.splits[share].recipient.Some?
  }

  /** The fee's turn throws, whichever came first: both turns again end as they would have. */
  lemma FeeResumes(s: State, fee: nat, share: nat, fault: Fault)
    requires IsPair(s, fee, share)
    ensures Settled(ReleaseOne(s, fee, fault).0, fee, share) == Settled(s, fee, share)
    ensures Settled(ReleaseOne(Turn(s, share), fee, fault).0, fee, share) == Settled(s, fee, share)
  {
    TurnMended(s, fee, fault);
    TurnMended(Turn(s, share), fee, fault);
    TurnsCommute(s, fee, share);
    TurnTwice(Turn(s, fee), share);
  }

  /** The share's turn throws. */
  lemma ShareResumes(s: State, fee: nat, share: nat, fault: Fault)
    requires IsPair(s, fee, share)
    ensures Settled(ReleaseOne(s, share, fault).0, fee, share) == Mended(s, Settled(s, fee, share), share, fault)
  {
    var t := ReleaseOne(s, share, fault).0;
    TurnMended(s, share, fault);
    TurnsCommute(t, fee, share);
    TurnsCommute(s, fee, share);
    var u := Turn(s, share);
    var m := Mended(s, u, share, fault);
    FeeApart(u, fee, m.transfers, m.ledger);
    assert m == u.(transfers := m.transfers, ledger := m.ledger);
  }

  /** The same after the fee's turn. */
  lemma ShareResumesLater(s: State, fee: nat, share: nat, fault: Fault)
    requires IsPair(s, fee, share)
    ensures Settled(ReleaseOne(Turn(s, fee), share, fault).0, fee, share)
            == Mended(s, Settled(s, fee, share), share, fault)
  {
    var s1 := Turn(s, fee);
    ShareResumes(s1, fee, share, fault);
    TurnTwice(s, fee);
  }

  lemma FeeFirstResumes(s: State, fee: nat, share: nat, fault: Fault)
    requires IsPair(s, fee, share)
    ensures Settled(ReleasePair(s, fee, share, fault), fee, share) == Mended(s, Settled(s, fee, share), share, fault)
  {
    TurnMended(s, fee, fault);
    if ReleaseOne(s, fee, fault).1 {
      ShareResumesLater(s, fee, share, fault);
    } else {
      FeeResumes(s, fee, share, fault);
    }
  }

  lemma ShareFirstResumes(s: State, fee: nat, share: nat, fault: Fault)
    requires IsPair(s, fee, share)
    ensures Settled(ReleasePair(s, share, fee, fault), fee, share) == Mended(s, Settled(s, fee, share), share, fault)
  {
    TurnMended(s, share, fault);
    if ReleaseOne(s, share, fault).1 {
      FeeResumes(s, fee, share, fault);
    } else {
      ShareResumes(s, fee, share, fault);
    }
  }

  lemma PairResumes(s: State, fee: nat, share: nat, fault: Fault, feeFirst: bool)
    requires IsPair(s, fee, share)
    ensures var (x, y) := if feeFirst then (fee, share) else (share, fee);
            Settled(ReleasePair(s, x, y, fault), fee, share) == Mended(s, Settled(s, fee, share), share, fault)
  {
    if feeFirst {
      FeeFirstResumes(s, fee, share, fault);
    } else {
      ShareFirstResumes(s, fee, share, fault);
    }
  }

  lemma NoFaultSettles(s: State, fee: nat, share: nat)
    requires IsPair(s, fee, share)
    ensures ReleasePair(s, fee, share, NoFault) == Settled(s, fee, share) == ReleasePair(s, share, fee, NoFault)
  {
    TurnsCommute(s, fee, share);
    NotStruckGoes(s, fee, NoFault);
    NotStruckGoes(s, share, NoFault);
  }

  /** Whose split it is never changes. */
  lemma {:induction false} SameOwners(s: State, order: seq<nat>, fault: Fault)
    requires forall k :: 0 <= k < |order| ==> order[k] < |s.splits|
    ensures forall i :: 0 <= i < |s.splits| ==> ReleaseAll(s, order, fault).splits[i].payment == s.splits[i].payment
    decreases |order|
  {
    if order != [] {
      var t, go := ReleaseOne(s, order[0], fault).0, ReleaseOne(s, order[0], fault).1;
      if go {
        SameOwners(t, order[1..], fault);
      }
    }
  }

  lemma OwnPair(s: State, p: nat)
    requires Inv(s) && p < |s.payments|
    ensures IsPair(s, 2 * p, 2 * p + 1)
    ensures forall i: nat :: i < |s.splits| && s.splits[i].payment == p <==> i == 2 * p || i == 2 * p + 1
  {
    assert PaymentInv(s, p);
    OwnSplits(s, p);
  }

  lemma ReleaseStep(cfg: Config, s: State, p: nat, read: seq<nat>, fault: Fault)
    requires Inv(s) && Releasable(s, p) && ReadOrder(s, p, read)
    ensures PairOf(p, read) && IsPair(s, 2 * p, 2 * p + 1)
    ensures Step(cfg, s, Release(p, read, fault)) == ReleasePair(s, read[0], read[1], fault)
  {
    ReleaseIsPair(s, p, read, fault);
    OwnPair(s, p);
  }

  lemma ReleaseSettles(cfg: Config, s: State, p: nat, read: seq<nat>)
    requires Inv(s) && Releasable(s, p) && ReadOrder(s, p, read)
    ensures IsPair(s, 2 * p, 2 * p + 1) && Step(cfg, s, Release(p, read, NoFault)) == Settled(s, 2 * p, 2 * p + 1)
  {
    ReleaseStep(cfg, s, p, read, NoFault);
    NoFaultSettles(s, 2 * p, 2 * p + 1);
  }

  lemma StillReleasable(cfg: Config, s: State, p: nat, read: seq<nat>, again: seq<nat>, fault: Fault)
    requires Legit(cfg) && Inv(s) && Releasable(s, p) && ReadOrder(s, p, read) && ReadOrder(s, p, again)
    ensures var t := Step(cfg, s, Release(p, read, fault)); Inv(t) && Releasable(t, p) && ReadOrder(t, p, again)
  {
    InvStep(cfg, s, Release(p, read, fault));
    SameOwners(s, read, fault);
  }

  /** How the mended state differs from the settled one. */
  lemma ResumedApart(s: State, p: nat, fee: nat, share: nat, read: seq<nat>, fault: Fault)
    requires IsPair(s, fee, share) && Releasable(s, p) && ReadOrder(s, p, read)
    requires forall i: nat :: i < |s.splits| && s.splits[i].payment == p <==> i == fee || i == share
    ensures var a, u := Release(p, read, fault), Settled(s, fee, share);
            var r := Mended(s, u, share, fault);
            && r == u.(transfers := r.transfers, ledger := r.ledger)
            && r.transfers == u.transfers + (if LosesTransfer(s, a) then multiset{fault.split} else multiset{})
            && r.ledger == (if LosesRecord(s, a) then s.ledger else u.ledger)
            && (r == u <==> !LosesTransfer(s, a) && !LosesRecord(s, a))
  {
    var u := Settled(s, fee, share);
    if Due(s, share) {
      assert |u.ledger| == |s.ledger| + 1;
      assert (u.transfers + multiset{share})[share] == u.transfers[share] + 1;
    }
  }

  /**
    A release broken off anywhere and then run again, the splits read in whatever orders, leaves the same splits as
    one that was never broken off.  It leaves the same in every respect exactly when what threw had not moved
    money without the ledger knowing: a lost transfer is made a second time, and a lost ledger row stays lost.
   */
  lemma ResumesIff(cfg: Config, s: State, p: nat, read: seq<nat>, again: seq<nat>, fault: Fault)
    requires Legit(cfg) && Inv(s) && p < |s.payments| && ReadOrder(s, p, read) && ReadOrder(s, p, again)
    ensures var r := Step(cfg, Step(cfg, s, Release(p, read, fault)), Release(p, again, NoFault));
            var u, a := Step(cfg, s, Release(p, again, NoFault)), Release(p, read, fault);
            && r == u.(transfers := r.transfers, ledger := r.ledger)
            && r.transfers == u.transfers + (if LosesTransfer(s, a) then multiset{fault.split} else multiset{})
            && r.ledger == (if LosesRecord(s, a) then s.ledger else u.ledger)
            && (r == u <==> !LosesTransfer(s, a) && !LosesRecord(s, a))
  {
    if Releasable(s, p) {
      var fee, share := 2 * p, 2 * p + 1;
      ReleaseStep(cfg, s, p, read, fault);
      StillReleasable(cfg, s, p, read, again, fault);
      ReleaseSettles(cfg, s, p, again);
      ReleaseSettles(cfg, Step(cfg, s, Release(p, read, fault)), p, again);
      PairResumes(s, fee, share, fault, read[0] == fee);
      OwnPair(s, p);
      ResumedApart(s, p, fee, share, read, fault);
    }
  }

  // ---- no split is transferred twice, exactly when ----

  /** Stripe was told of a split exactly once if it is a released recipient's split, and otherwise never. */
  ghost predicate ToldOnce(s: State) {
    forall i: nat :: s.transfers[i] ==
      if i < |s.splits| && !s.splits[i].isPlatformFee && s.splits[i].status == RELEASED then 1 else 0
  }

  lemma ToldOnceTurn(s: State, i: nat, fault: Fault)
    requires i < |s.splits| && (s.splits[i].isPlatformFee || s.splits[i].recipient.Some?) && ToldOnce(s)
    ensures ToldOnce(ReleaseOne(s, i, fault).0) <==> !StruckHere(s, i, fault, {AnswerLost, RowWriteThrows})
    ensures StruckHere(s, i, fault, {AnswerLost, RowWriteThrows}) ==> !ReleaseOne(s, i, fault).1
  {
    var t := ReleaseOne(s, i, fault).0;
    assert s.transfers[i] == if !s.splits[i].isPlatformFee && s.splits[i].status == RELEASED then 1 else 0;
    if StruckHere(s, i, fault, {AnswerLost, RowWriteThrows}) {
      assert t.transfers[i] == 1 && t.splits[i].status == SplitStatus.PENDING;
    } else {
      forall k: nat ensures t.transfers[k] ==
        if k < |t.splits| && !t.splits[k].isPlatformFee && t.splits[k].status == RELEASED then 1 else 0
      {
        assert k != i ==> t.transfers[k] == s.transfers[k];
      }
    }
  }

  lemma ToldOncePair(s: State, first: nat, second: nat, fault: Fault)
    requires (IsPair(s, first, second) || IsPair(s, second, first)) && ToldOnce(s)
    ensures ToldOnce(ReleasePair(s, first, second, fault)) <==>
            !StruckHere(s, first, fault, {AnswerLost, RowWriteThrows})
            && !StruckHere(s, second, fault, {AnswerLost, RowWriteThrows})
  {
    ToldOnceTurn(s, first, fault);
    var t, go := ReleaseOne(s, first, fault).0, ReleaseOne(s, first, fault).1;
    assert t.splits[second] == s.splits[second];
    if go {
      ToldOnceTurn(t, second, fault);
    } else {
      assert !StruckHere(s, second, fault, {AnswerLost, RowWriteThrows});
    }
  }

  /** A release throws at a split that is due, exactly when it is struck at one of its two turns. */
  lemma StruckInPair(s: State, a: Action, kinds: set<FaultKind>)
    requires Inv(s) && Releases(s, a)
    ensures PairOf(a.p, a.read)
    ensures ReleaseThrows(s, a, kinds) <==>
            StruckHere(s, a.read[0], a.fault, kinds) || StruckHere(s, a.read[1], a.fault, kinds)
  {
    OrderIsPair(s, a.p, a.read);
    OwnPair(s, a.p);
  }

  lemma SplitsElsewhere(cfg: Config, s: State, a: Action)
    requires !Releases(s, a) && !(a.RefundPayment? && Refundable(s, a.p))
    ensures var t := Step(cfg, s, a);
            && t.returned == s.returned && t.transfers == s.transfers
            && |s.payments| <= |t.payments| && |s.splits| <= |t.splits| && t.splits[..|s.splits|] == s.splits
            && forall i :: |s.splits| <= i < |t.splits| ==> t.splits[i].status == SplitStatus.PENDING
  {
  }

  lemma ToldOnceRefund(s: State, p: nat, fault: Option<FaultKind>)
    requires ToldOnce(s) && Refundable(s, p)
    ensures ToldOnce(RefundOf(s, p, fault))
  {
    var t := RefundOf(s, p, fault);
    forall i: nat | i < |s.splits| ensures t.splits[i].status == RELEASED <==> s.splits[i].status == RELEASED {
      assert s.splits[i].payment == p ==> s.splits[i].status != RELEASED;
    }
  }

  lemma ToldOnceElsewhere(s: State, t: State)
    requires ToldOnce(s) && t.transfers == s.transfers && |s.splits| <= |t.splits| && t.splits[..|s.splits|] == s.splits
    requires forall i :: |s.splits| <= i < |t.splits| ==> t.splits[i].status == SplitStatus.PENDING
    ensures ToldOnce(t)
  {
    forall i: nat | i < |s.splits| ensures t.splits[i] == s.splits[i] {
      assert t.splits[i] == t.splits[..|s.splits|][i];
    }
  }

  /** One call leaves a transfer the rows do not show, exactly when it is a release that loses one. */
  lemma ToldOnceIff(cfg: Config, s: State, a: Action)
    requires Legit(cfg) && Inv(s) && ToldOnce(s)
    ensures ToldOnce(Step(cfg, s, a)) <==> !LosesTransfer(s, a)
  {
    if Releases(s, a) {
      ReleaseStep(cfg, s, a.p, a.read, a.fault);
      StruckInPair(s, a, {AnswerLost, RowWriteThrows});
      ToldOncePair(s, a.read[0], a.read[1], a.fault);
    } else if a.RefundPayment? && Refundable(s, a.p) {
      ToldOnceRefund(s, a.p, a.refundFault);
    } else {
      SplitsElsewhere(cfg, s, a);
      ToldOnceElsewhere(s, Step(cfg, s, a));
    }
  }

  predicate NeverLosesTransfer(cfg: Config, s: State, acts: seq<Action>) {
    acts != [] ==>
      && NeverLosesTransfer(cfg, s, acts[..|acts| - 1])
      && !LosesTransfer(Run(cfg, s, acts[..|acts| - 1]), acts[|acts| - 1])
  }

  /** Whatever else throws: in every run in which no release does that, no split is transferred twice. */
  lemma {:induction false} TransferredOnce(cfg: Config, s: State, acts: seq<Action>)
    requires Legit(cfg) && Inv(s) && ToldOnce(s) && NeverLosesTransfer(cfg, s, acts)
    ensures ToldOnce(Run(cfg, s, acts)) && forall i: nat :: Run(cfg, s, acts).transfers[i] <= 1
  {
    if acts != [] {
      TransferredOnce(cfg, s, acts[..|acts| - 1]);
      InvRun(cfg, s, acts[..|acts| - 1]);
      ToldOnceIff(cfg, Run(cfg, s, acts[..|acts| - 1]), acts[|acts| - 1]);
    }
  }

  // ---- which splits can be transferred again, or refunded ----

  /** The subject of a payment was fulfilled at some time: it keeps a trace of that. */
  predicate WasFulfilled(s: State, subject: Subject) {
    match subject
    case ForOrder(o) => o in s.orders && s.orders[o].shipments != []
    case ForDeal(d) => d in s.deals && s.deals[d].status == D.COMPLETED
  }

  lemma WasFulfilledStays(cfg: Config, s: State, a: Action, subject: Subject)
    requires Inv(s) && WasFulfilled(s, subject)
    ensures WasFulfilled(Step(cfg, s, a), subject)
  {
    if a.OrderStep? && a.order in s.orders {
      O.ShipmentsStay(s.orders[a.order], a.orderAction);
    } else if a.DealStep? && a.deal in s.deals && s.deals[a.deal].status == D.COMPLETED {
      D.FrozenStep(s.deals[a.deal], a.dealAction);
    }
  }

  /** What it means that Stripe was told of split i. */
  ghost predicate ToldOf(s: State, i: nat) {
    && i < |s.splits| && i % 2 == 1 && i / 2 < |s.payments|
    && WasFulfilled(s, s.payments[i / 2].subject)
    && (s.splits[i].status != SplitStatus.REFUNDED ==> s.payments[i / 2].status == SUCCEEDED)
  }

  ghost predicate ToldInv(s: State) {
    forall i: nat :: s.transfers[i] >= 1 ==> ToldOf(s, i)
  }

  lemma ToldTurn(s: State, k: nat, fault: Fault)
    requires Inv(s) && ToldInv(s) && k < |s.splits| && Releasable(s, k / 2)
    ensures ToldInv(ReleaseOne(s, k, fault).0)
  {
    var t := ReleaseOne(s, k, fault).0;
    assert PaymentInv(s, k / 2);
    assert k == 2 * (k / 2) || k == 2 * (k / 2) + 1;
    forall i: nat | t.transfers[i] >= 1 ensures ToldOf(t, i) {
      if i != k {
        assert s.transfers[i] >= 1 && ToldOf(s, i);
      }
    }
  }

  lemma ToldRelease(s: State, a: Action)
    requires Inv(s) && ToldInv(s) && Releases(s, a) && PairOf(a.p, a.read)
    ensures ToldInv(ReleasePair(s, a.read[0], a.read[1], a.fault))
  {
    ToldTurn(s, a.read[0], a.fault);
    InvTurn(s, a.read[0], a.fault);
    ToldTurn(ReleaseOne(s, a.read[0], a.fault).0, a.read[1], a.fault);
  }

  lemma ToldRefund(s: State, p: nat, fault: Option<FaultKind>)
    requires Inv(s) && ToldInv(s) && Refundable(s, p)
    ensures ToldInv(RefundOf(s, p, fault))
  {
    var t := RefundOf(s, p, fault);
    forall i: nat | t.transfers[i] >= 1 ensures ToldOf(t, i) {
      assert ToldOf(s, i);
      assert PaymentInv(s, i / 2);
      ToldRefundOf(s, p, fault, i);
    }
  }

  lemma ToldRefundOf(s: State, p: nat, fault: Option<FaultKind>, i: nat)
    requires p < |s.payments| && ToldOf(s, i) && s.splits[i].payment == i / 2
    ensures ToldOf(RefundOf(s, p, fault), i)
  {
  }

  lemma ToldOther(cfg: Config, s: State, a: Action)
    requires Inv(s) && ToldInv(s) && !Releases(s, a) && !(a.RefundPayment? && Refundable(s, a.p))
    ensures ToldInv(Step(cfg, s, a))
  {
    forall i: nat | Step(cfg, s, a).transfers[i] >= 1 ensures ToldOf(Step(cfg, s, a), i) {
      assert Step(cfg, s, a).transfers == s.transfers;
      assert ToldOf(s, i);
      ToldStays(cfg, s, a, i);
    }
  }

  lemma ToldStays(cfg: Config, s: State, a: Action, i: nat)
    requires Inv(s) && ToldOf(s, i) && !Releases(s, a) && !(a.RefundPayment? && Refundable(s, a.p))
    ensures ToldOf(Step(cfg, s, a), i)
  {
    WasFulfilledStays(cfg, s, a, s.payments[i / 2].subject);
  }

  lemma ToldStep(cfg: Config, s: State, a: Action)
    requires Legit(cfg) && Inv(s) && ToldInv(s)
    ensures ToldInv(Step(cfg, s, a))
  {
    if Releases(s, a) {
      ReleaseStep(cfg, s, a.p, a.read, a.fault);
      ToldRelease(s, a);
    } else if a.RefundPayment? && Refundable(s, a.p) {
      ToldRefund(s, a.p, a.refundFault);
    } else {
      ToldOther(cfg, s, a);
    }
  }

  /** What every run keeps, whatever throws. */
  lemma {:induction false} ToldRun(cfg: Config, s: State, acts: seq<Action>)
    requires Legit(cfg) && Inv(s) && ToldInv(s)
    ensures ToldInv(Run(cfg, s, acts))
  {
    if acts != [] {
      ToldRun(cfg, s, acts[..|acts| - 1]);
      InvRun(cfg, s, acts[..|acts| - 1]);
      ToldStep(cfg, Run(cfg, s, acts[..|acts| - 1]), acts[|acts| - 1]);
    }
  }

  /** A split that is released or refunded stays as it is, and Stripe is told nothing more of it. */
  predicate IsFinal(s: State, i: nat, status: SplitStatus, times: nat) {
    && i < |s.splits| && s.splits[i].status == status && s.transfers[i] == times
    && status in {RELEASED, SplitStatus.REFUNDED}
  }

  lemma FinalInTurn(s: State, k: nat, fault: Fault, i: nat, status: SplitStatus, times: nat)
    requires k < |s.splits| && IsFinal(s, i, status, times)
    ensures IsFinal(ReleaseOne(s, k, fault).0, i, status, times)
  {
  }

  lemma FinalStep(cfg: Config, s: State, a: Action, i: nat, status: SplitStatus, times: nat)
    requires Inv(s) && IsFinal(s, i, status, times)
    ensures IsFinal(Step(cfg, s, a), i, status, times)
  {
    if Releases(s, a) {
      ReleaseStep(cfg, s, a.p, a.read, a.fault);
      FinalInTurn(s, a.read[0], a.fault, i, status, times);
      FinalInTurn(ReleaseOne(s, a.read[0], a.fault).0, a.read[1], a.fault, i, status, times);
    } else if a.RefundPayment? && Refundable(s, a.p) {
      assert status == RELEASED ==> s.splits[i].payment != a.p;
    }
  }

  lemma {:induction false} FinalForGood(cfg: Config, s: State, acts: seq<Action>, i: nat, status: SplitStatus,
      times: nat)
    requires Legit(cfg) && Inv(s) && IsFinal(s, i, status, times)
    ensures IsFinal(Run(cfg, s, acts), i, status, times)
  {
    if acts != [] {
      FinalForGood(cfg, s, acts[..|acts| - 1], i, status, times);
      InvRun(cfg, s, acts[..|acts| - 1]);
      FinalStep(cfg, Run(cfg, s, acts[..|acts| - 1]), acts[|acts| - 1], i, status, times);
    }
  }

  // ---- reaching a release ----

  /** Some run fulfils the subject. */
  predicate CanFulfil(s: State, subject: Subject) {
    match subject
    case ForOrder(o) => o in s.orders && O.CanBeFulfilled(s.orders[o])
    case ForDeal(d) => d in s.deals && s.deals[d].status in {D.ACTIVE, D.COMPLETED}
  }

  /** A run of the order's services is a run of this machine. */
  lemma {:induction false} RunOrder(cfg: Config, s: State, o: OrderId, steps: seq<O.Action>) returns (acts: seq<Action>)
    requires o in s.orders
    ensures Run(cfg, s, acts) == s.(orders := s.orders[o := O.Run(s.orders[o], steps)])
  {
    acts := [];
    if steps == [] {
      assert s.orders[o := s.orders[o]] == s.orders;
    } else {
      var n := |steps| - 1;
      acts := RunOrder(cfg, s, o, steps[..n]);
      var t := Run(cfg, s, acts);
      acts, t := Then(cfg, s, acts, t, OrderStep(o, steps[n]));
    }
  }

  lemma ReachFulfilled(cfg: Config, s: State, subject: Subject) returns (acts: seq<Action>)
    requires Inv(s) && CanFulfil(s, subject)
    ensures var t := Run(cfg, s, acts); t == s.(orders := t.orders, deals := t.deals) && Fulfilled(t, subject)
  {
    acts := [];
    match subject
    case ForOrder(o) =>
      var steps := O.Fulfil(s.orders[o]);
      acts := RunOrder(cfg, s, o, steps);
    case ForDeal(d) =>
      if s.deals[d].status == D.ACTIVE {
        var t;
        acts, t := Then(cfg, s, [], s, DealStep(d, D.Complete));
      }
  }

  lemma ShareIsTold(cfg: Config, s: State, p: nat)
    requires Inv(s) && Releasable(s, p) && s.splits[2 * p + 1].status == SplitStatus.PENDING
    ensures var t := Step(cfg, s, Release(p, [2 * p, 2 * p + 1], NoFault));
            t.transfers == s.transfers + multiset{2 * p + 1} && t.returned == s.returned
  {
    OrderIsPair(s, p, [2 * p, 2 * p + 1]);
    ReleaseSettles(cfg, s, p, [2 * p, 2 * p + 1]);
  }

  /** A pending share of a paid payment is transferred as soon as its subject is fulfilled. */
  lemma ReachTransfer(cfg: Config, s: State, p: nat) returns (acts: seq<Action>)
    requires Legit(cfg) && Inv(s) && p < |s.payments| && s.payments[p].status == SUCCEEDED
    requires s.splits[2 * p + 1].status == SplitStatus.PENDING && CanFulfil(s, s.payments[p].subject)
    ensures var t := Run(cfg, s, acts);
            t.transfers == s.transfers + multiset{2 * p + 1} && t.returned == s.returned
  {
    acts := ReachFulfilled(cfg, s, s.payments[p].subject);
    var t := Run(cfg, s, acts);
    InvRun(cfg, s, acts);
    ShareIsTold(cfg, t, p);
    acts, t := Then(cfg, s, acts, t, Release(p, [2 * p, 2 * p + 1], NoFault));
  }

  /**
    From every state a run can reach, whatever threw in it: a split Stripe was told of is transferred again in some
    later run exactly when its row is still PENDING.
   */
  lemma TransferredAgainIff(cfg: Config, s: State, i: nat)
    requires Legit(cfg) && Inv(s) && ToldInv(s) && s.transfers[i] >= 1
    ensures (exists acts :: Run(cfg, s, acts).transfers[i] > s.transfers[i])
            <==> s.splits[i].status == SplitStatus.PENDING
  {
    assert ToldOf(s, i) && PaymentInv(s, i / 2);
    if s.splits[i].status == SplitStatus.PENDING {
      var acts := ReachTransfer(cfg, s, i / 2);
      assert Run(cfg, s, acts).transfers[i] > s.transfers[i];
    } else {
      forall acts ensures Run(cfg, s, acts).transfers[i] == s.transfers[i] {
        FinalForGood(cfg, s, acts, i, s.splits[i].status, s.transfers[i]);
      }
    }
  }

  lemma CanFulfilAgain(s: State, subject: Subject)
    requires WasFulfilled(s, subject)
    ensures CanFulfil(s, subject)
  {
  }

  /** So a release that loses a transfer is one that some later run makes again. */
  lemma LostTransferIsRepeated(cfg: Config, s: State, a: Action) returns (acts: seq<Action>)
    requires Legit(cfg) && Inv(s) && ToldInv(s) && LosesTransfer(s, a)
    ensures Run(cfg, Step(cfg, s, a), acts).transfers[a.fault.split] >= s.transfers[a.fault.split] + 2
  {
    var i, t := a.fault.split, Step(cfg, s, a);
    LostTransferIsDue(cfg, s, a);
    ToldStep(cfg, s, a);
    InvStep(cfg, s, a);
    assert ToldOf(t, i) && i / 2 == a.p;
    CanFulfilAgain(t, t.payments[a.p].subject);
    acts := ReachTransfer(cfg, t, a.p);
  }

  lemma LostTransferIsDue(cfg: Config, s: State, a: Action)
    requires Inv(s) && LosesTransfer(s, a)
    ensures var i, t := a.fault.split, Step(cfg, s, a);
            i == 2 * a.p + 1 < |t.splits| && t.transfers[i] == s.transfers[i] + 1
            && t.splits[i].status == SplitStatus.PENDING
  {
    ReleaseStep(cfg, s, a.p, a.read, a.fault);
    OwnPair(s, a.p);
  }

  /** The fee's row stays RELEASED, so that the payment is never refunded. */
  lemma {:induction false} ReleasedNeverRefunded(cfg: Config, s: State, acts: seq<Action>, fee: nat)
    requires Legit(cfg) && Inv(s) && fee < |s.splits| && s.splits[fee].status == RELEASED
    ensures var t := Run(cfg, s, acts); fee < |t.splits| && t.splits[fee].status == RELEASED
  {
    if acts != [] {
      ReleasedNeverRefunded(cfg, s, acts[..|acts| - 1], fee);
      var t := Run(cfg, s, acts[..|acts| - 1]);
      InvRun(cfg, s, acts[..|acts| - 1]);
      FinalStep(cfg, t, acts[|acts| - 1], fee, RELEASED, t.transfers[fee]);
    }
  }

  predicate Refunded(s: State, i: nat) {
    i < |s.splits| && s.splits[i].status == SplitStatus.REFUNDED
  }

  lemma {:induction false} PaymentsStay(cfg: Config, s: State, acts: seq<Action>)
    ensures |Run(cfg, s, acts).payments| >= |s.payments|
    ensures forall p :: 0 <= p < |s.payments| ==> Run(cfg, s, acts).payments[p].subject == s.payments[p].subject
  {
    if acts != [] {
      PaymentsStay(cfg, s, acts[..|acts| - 1]);
      PaymentsStep(cfg, Run(cfg, s, acts[..|acts| - 1]), acts[|acts| - 1]);
    }
  }

  lemma PaymentsStep(cfg: Config, s: State, a: Action)
    ensures |Step(cfg, s, a).payments| >= |s.payments|
    ensures forall p :: 0 <= p < |s.payments| ==> Step(cfg, s, a).payments[p].subject == s.payments[p].subject
  {
  }

  /** The run ends with the split refunded. */
  predicate RefundedBy(cfg: Config, s: State, i: nat, acts: seq<Action>) {
    Refunded(Run(cfg, s, acts), i)
  }

  lemma RefundTold(cfg: Config, s: State, i: nat) returns (acts: seq<Action>)
    requires Inv(s) && ToldOf(s, i) && s.splits[i].status != RELEASED && s.splits[i - 1].status != RELEASED
    ensures RefundedBy(cfg, s, i, acts)
  {
    acts := [];
    assert PaymentInv(s, i / 2);
    if s.splits[i].status != SplitStatus.REFUNDED {
      OwnPair(s, i / 2);
      RefundReturns(cfg, s, i / 2, i);
      var t;
      acts, t := Then(cfg, s, acts, s, RefundPayment(i / 2, None));
    }
  }

  lemma RefundReturns(cfg: Config, s: State, p: nat, i: nat)
    requires Refundable(s, p) && i < |s.splits| && s.splits[i].payment == p
    ensures Refunded(Step(cfg, s, RefundPayment(p, None)), i)
  {
  }

  lemma ReleasedIsNotRefunded(cfg: Config, s: State, acts: seq<Action>, p: nat)
    requires Legit(cfg) && Inv(s) && p < |s.payments|
    requires s.splits[2 * p].status == RELEASED || s.splits[2 * p + 1].status == RELEASED
    ensures !RefundedBy(cfg, s, 2 * p + 1, acts)
  {
    ReleasedNeverRefunded(cfg, s, acts, if s.splits[2 * p].status == RELEASED then 2 * p else 2 * p + 1);
    InvRun(cfg, s, acts);
    PaymentsStay(cfg, s, acts);
    OneReleased(Run(cfg, s, acts), p);
  }

  lemma OneReleased(s: State, p: nat)
    requires Inv(s) && p < |s.payments|
    requires s.splits[2 * p].status == RELEASED || s.splits[2 * p + 1].status == RELEASED
    ensures !Refunded(s, 2 * p + 1)
  {
    assert PaymentInv(s, p);
  }

  /**
    From every state a run can reach: a split Stripe was told of is refunded in some run exactly when neither its
    row nor the fee's is RELEASED.  That takes a lost transfer with the share read before the fee.
   */
  lemma ToldIsRefundedIff(cfg: Config, s: State, i: nat)
    requires Legit(cfg) && Inv(s) && ToldInv(s) && s.transfers[i] >= 1
    ensures 1 <= i < |s.splits|
    ensures (exists acts :: RefundedBy(cfg, s, i, acts))
            <==> s.splits[i].status != RELEASED && s.splits[i - 1].status != RELEASED
  {
    assert ToldOf(s, i) && i == 2 * (i / 2) + 1;
    if s.splits[i].status != RELEASED && s.splits[i - 1].status != RELEASED {
      var acts := RefundTold(cfg, s, i);
    } else {
      forall acts ensures !RefundedBy(cfg, s, i, acts) {
        ReleasedIsNotRefunded(cfg, s, acts, i / 2);
      }
    }
  }

  // ---- refunds ----

  /** Stripe returned a payment's money exactly if its share is REFUNDED. */
  ghost predicate ReturnsShown(s: State) {
    && |s.splits| == 2 * |s.payments|
    && forall p: nat :: s.returned[p] >= 1 <==> p < |s.payments| && s.splits[2 * p + 1].status == SplitStatus.REFUNDED
  }

  lemma RefundedInTurn(s: State, k: nat, fault: Fault, i: nat)
    requires k < |s.splits| && i < |s.splits|
    ensures Refunded(ReleaseOne(s, k, fault).0, i) <==> Refunded(s, i)
  {
  }

  lemma RefundedInPair(s: State, first: nat, second: nat, fault: Fault, i: nat)
    requires first < |s.splits| && second < |s.splits| && i < |s.splits|
    ensures Refunded(ReleasePair(s, first, second, fault), i) <==> Refunded(s, i)
  {
    RefundedInTurn(s, first, fault, i);
    RefundedInTurn(ReleaseOne(s, first, fault).0, second, fault, i);
  }

  lemma ReturnsRelease(s: State, first: nat, second: nat, fault: Fault)
    requires ReturnsShown(s) && first < |s.splits| && second < |s.splits|
    ensures ReturnsShown(ReleasePair(s, first, second, fault))
  {
    forall q: nat | q < |s.payments|
      ensures Refunded(ReleasePair(s, first, second, fault), 2 * q + 1) <==> Refunded(s, 2 * q + 1)
    {
      RefundedInPair(s, first, second, fault, 2 * q + 1);
    }
  }

  lemma ReturnsRefund(s: State, p: nat, fault: Option<FaultKind>)
    requires Inv(s) && ReturnsShown(s) && Refundable(s, p)
    ensures fault in {Some(AnswerLost), Some(RowWriteThrows)} && s.splits[2 * p + 1].status != SplitStatus.REFUNDED
            <==> !ReturnsShown(RefundOf(s, p, fault))
  {
    var t := RefundOf(s, p, fault);
    forall q: nat | q < |s.payments| ensures s.splits[2 * q + 1].payment == q {
      assert PaymentInv(s, q);
    }
    assert t.returned[p] >= 1 <==> fault != Some(ForeignThrows) || s.returned[p] >= 1;
  }

  lemma ReturnsOther(s: State, t: State)
    requires Inv(s) && Inv(t) && ReturnsShown(s) && t.returned == s.returned
    requires |s.payments| <= |t.payments| && t.splits[..|s.splits|] == s.splits
    requires forall i :: |s.splits| <= i < |t.splits| ==> t.splits[i].status == SplitStatus.PENDING
    ensures ReturnsShown(t)
  {
    forall q: nat
      ensures t.returned[q] >= 1 <==> q < |t.payments| && t.splits[2 * q + 1].status == SplitStatus.REFUNDED
    {
      if q < |s.payments| {
        assert t.splits[2 * q + 1] == t.splits[..|s.splits|][2 * q + 1];
      }
    }
  }

  /** One call leaves a refund the rows do not show, exactly when it is one that loses it the first time. */
  lemma ReturnsShownIff(cfg: Config, s: State, a: Action)
    requires Legit(cfg) && Inv(s) && ReturnsShown(s)
    ensures !ReturnsShown(Step(cfg, s, a)) <==>
              LosesRefund(s, a) && s.splits[2 * a.p + 1].status != SplitStatus.REFUNDED
  {
    if Releases(s, a) {
      ReleaseStep(cfg, s, a.p, a.read, a.fault);
      ReturnsRelease(s, a.read[0], a.read[1], a.fault);
    } else if a.RefundPayment? && Refundable(s, a.p) {
      ReturnsRefund(s, a.p, a.refundFault);
    } else {
      InvStep(cfg, s, a);
      SplitsElsewhere(cfg, s, a);
      ReturnsOther(s, Step(cfg, s, a));
    }
  }

  // ---- a payment's money goes to one side only, exactly when ----

  /** Stripe was told to return a payment's money and to transfer its share. */
  predicate PaidBothWays(s: State, p: nat) {
    s.returned[p] >= 1 && s.transfers[2 * p + 1] >= 1
  }

  /** A lost transfer whose payment still looks as if nothing had been released. */
  predicate LosesTransferFirst(s: State, a: Action) {
    && LosesTransfer(s, a) && a.read != [] && a.read[0] == a.fault.split >= 1
    && s.splits[a.fault.split - 1].status == SplitStatus.PENDING
  }

  /** The rows forbid a refund of what was transferred, and show every refund. */
  ghost predicate OneWay(s: State) {
    && ReturnsShown(s)
    && forall i: nat :: s.transfers[i] >= 1 ==> Guarded(s, i)
  }

  /** A share whose payment has a split RELEASED, so that it is not refunded. */
  predicate Guarded(s: State, i: nat) {
    i % 2 == 1 && i < |s.splits| && (s.splits[i].status == RELEASED || s.splits[i - 1].status == RELEASED)
  }

  lemma OneWayShown(s: State, k: nat, fault: Fault)
    requires ReturnsShown(s) && k < |s.splits|
    ensures ReturnsShown(ReleaseOne(s, k, fault).0)
  {
    forall q: nat | q < |s.payments|
      ensures Refunded(ReleaseOne(s, k, fault).0, 2 * q + 1) <==> Refunded(s, 2 * q + 1)
    {
      RefundedInTurn(s, k, fault, 2 * q + 1);
    }
  }

  lemma OneWayTurn(s: State, k: nat, fault: Fault)
    requires OneWay(s) && k < |s.splits| && (Due(s, k) ==> k % 2 == 1)
    requires StruckHere(s, k, fault, {AnswerLost, RowWriteThrows}) ==> k >= 1 && s.splits[k - 1].status == RELEASED
    ensures OneWay(ReleaseOne(s, k, fault).0)
  {
    var t := ReleaseOne(s, k, fault).0;
    OneWayShown(s, k, fault);
    forall i: nat | t.transfers[i] >= 1 ensures Guarded(t, i) {
      assert i != k ==> t.transfers[i] == s.transfers[i];
    }
  }

  lemma OneWayFeeFirst(s: State, p: nat, fault: Fault)
    requires Inv(s) && OneWay(s) && p < |s.payments|
    ensures OneWay(ReleasePair(s, 2 * p, 2 * p + 1, fault))
  {
    var fee, share := 2 * p, 2 * p + 1;
    assert PaymentInv(s, p);
    OneWayTurn(s, fee, fault);
    var t, go := ReleaseOne(s, fee, fault).0, ReleaseOne(s, fee, fault).1;
    if go {
      assert Due(t, share) ==> t.splits[fee].status == RELEASED;
      OneWayTurn(t, share, fault);
    }
  }

  lemma OneWayShareFirst(s: State, p: nat, fault: Fault)
    requires Inv(s) && OneWay(s) && p < |s.payments|
    requires StruckHere(s, 2 * p + 1, fault, {AnswerLost, RowWriteThrows})
             ==> s.splits[2 * p].status != SplitStatus.PENDING
    ensures OneWay(ReleasePair(s, 2 * p + 1, 2 * p, fault))
  {
    var fee, share := 2 * p, 2 * p + 1;
    assert PaymentInv(s, p);
    assert Due(s, share) && s.splits[fee].status != SplitStatus.PENDING ==> s.splits[fee].status == RELEASED;
    OneWayTurn(s, share, fault);
    var t, go := ReleaseOne(s, share, fault).0, ReleaseOne(s, share, fault).1;
    if go {
      OneWayTurn(t, fee, fault);
    }
  }

  lemma OneWayRefund(cfg: Config, s: State, a: Action)
    requires Legit(cfg) && Inv(s) && OneWay(s) && a.RefundPayment? && Refundable(s, a.p) && !LosesRefund(s, a)
    ensures OneWay(Step(cfg, s, a))
  {
    var t := Step(cfg, s, a);
    ReturnsShownIff(cfg, s, a);
    forall i: nat | t.transfers[i] >= 1 ensures Guarded(t, i) {
      assert Guarded(s, i);
      GuardStays(s, a.p, a.refundFault, i);
    }
  }

  lemma GuardStays(s: State, p: nat, fault: Option<FaultKind>, i: nat)
    requires Refundable(s, p) && Guarded(s, i)
    ensures Guarded(RefundOf(s, p, fault), i)
  {
    var released := if s.splits[i].status == RELEASED then i else i - 1;
    assert s.splits[released].payment != p;
  }

  lemma OneWayRead(s: State, p: nat, read: seq<nat>, fault: Fault)
    requires Inv(s) && OneWay(s) && p < |s.payments| && PairOf(p, read)
    requires read[0] == 2 * p + 1 && StruckHere(s, 2 * p + 1, fault, {AnswerLost, RowWriteThrows}) ==>
               s.splits[2 * p].status != SplitStatus.PENDING
    ensures OneWay(ReleasePair(s, read[0], read[1], fault))
  {
    if read == [2 * p, 2 * p + 1] {
      OneWayFeeFirst(s, p, fault);
    } else {
      OneWayShareFirst(s, p, fault);
    }
  }

  lemma NotLostFirst(s: State, a: Action)
    requires Inv(s) && Releases(s, a) && PairOf(a.p, a.read) && !LosesTransferFirst(s, a)
    ensures a.read[0] == 2 * a.p + 1 && StruckHere(s, 2 * a.p + 1, a.fault, {AnswerLost, RowWriteThrows}) ==>
              s.splits[2 * a.p].status != SplitStatus.PENDING
  {
    OwnPair(s, a.p);
  }

  lemma OneWayRelease(cfg: Config, s: State, a: Action)
    requires Inv(s) && OneWay(s) && Releases(s, a) && !LosesTransferFirst(s, a)
    ensures OneWay(Step(cfg, s, a))
  {
    ReleaseStep(cfg, s, a.p, a.read, a.fault);
    NotLostFirst(s, a);
    OneWayRead(s, a.p, a.read, a.fault);
  }

  lemma OneWayStep(cfg: Config, s: State, a: Action)
    requires Legit(cfg) && Inv(s) && OneWay(s) && !LosesRefund(s, a) && !LosesTransferFirst(s, a)
    ensures OneWay(Step(cfg, s, a))
  {
    if Releases(s, a) {
      OneWayRelease(cfg, s, a);
    } else if a.RefundPayment? && Refundable(s, a.p) {
      OneWayRefund(cfg, s, a);
    } else {
      ReturnsShownIff(cfg, s, a);
      SplitsElsewhere(cfg, s, a);
      OneWayElsewhere(s, Step(cfg, s, a));
    }
  }

  lemma OneWayElsewhere(s: State, t: State)
    requires OneWay(s) && ReturnsShown(t) && t.transfers == s.transfers
    requires |s.splits| <= |t.splits| && t.splits[..|s.splits|] == s.splits
    ensures OneWay(t)
  {
    forall i: nat | t.transfers[i] >= 1 ensures Guarded(t, i) {
      assert t.splits[i] == t.splits[..|s.splits|][i] && t.splits[i - 1] == t.splits[..|s.splits|][i - 1];
    }
  }

  predicate NeverCrosses(cfg: Config, s: State, acts: seq<Action>) {
    acts != [] ==>
      && NeverCrosses(cfg, s, acts[..|acts| - 1])
      && var t, a := Run(cfg, s, acts[..|acts| - 1]), acts[|acts| - 1];
         !LosesRefund(t, a) && !LosesTransferFirst(t, a)
  }

  /**
    In every run in which no refund is lost, and no transfer of a share read before a pending fee is, no payment's
    money is both returned to the payer and transferred to the recipient.
   */
  lemma {:induction false} OneWayRun(cfg: Config, s: State, acts: seq<Action>)
    requires Legit(cfg) && Inv(s) && OneWay(s) && NeverCrosses(cfg, s, acts)
    ensures OneWay(Run(cfg, s, acts)) && forall p: nat :: !PaidBothWays(Run(cfg, s, acts), p)
  {
    if acts != [] {
      OneWayRun(cfg, s, acts[..|acts| - 1]);
      InvRun(cfg, s, acts[..|acts| - 1]);
      OneWayStep(cfg, Run(cfg, s, acts[..|acts| - 1]), acts[|acts| - 1]);
    }
    InvRun(cfg, s, acts);
    OneWayIsOneWay(Run(cfg, s, acts));
  }

  lemma OneWayIsOneWay(s: State)
    requires Inv(s) && OneWay(s)
    ensures forall p: nat :: !PaidBothWays(s, p)
  {
    forall p: nat ensures !PaidBothWays(s, p) {
      assert p < |s.payments| ==> PaymentInv(s, p);
    }
  }

  // ---- which payments can still go both ways ----

  /** What the rows say of a returned payment, and of a released share. */
  ghost predicate PaymentTold(s: State, p: nat)
    requires p < |s.payments| && |s.splits| == 2 * |s.payments|
  {
    var share := s.splits[2 * p + 1];
    && (s.returned[p] >= 1 && share.status != SplitStatus.REFUNDED ==> s.payments[p].status == SUCCEEDED)
    && (share.status == SplitStatus.REFUNDED ==> s.returned[p] >= 1)
    && (share.status == RELEASED ==> s.transfers[2 * p + 1] >= 1)
  }

  ghost predicate Books(s: State) {
    && Inv(s) && ToldInv(s)
    && (forall p: nat :: p < |s.payments| ==> PaymentTold(s, p))
    && (forall p: nat :: s.returned[p] >= 1 ==> p < |s.payments|)
  }

  lemma BooksTurn(s: State, k: nat, fault: Fault, p: nat)
    requires |s.splits| == 2 * |s.payments| && k < |s.splits| && p < |s.payments| && PaymentTold(s, p)
    requires !s.splits[2 * p + 1].isPlatformFee && s.splits[2 * p + 1].recipient.Some?
    ensures var t := ReleaseOne(s, k, fault).0;
            && PaymentTold(t, p)
            && !t.splits[2 * p + 1].isPlatformFee && t.splits[2 * p + 1].recipient.Some?
  {
  }

  lemma BooksRelease(s: State, first: nat, second: nat, fault: Fault)
    requires Books(s) && first < |s.splits| && second < |s.splits|
    ensures forall p: nat :: p < |s.payments| ==> PaymentTold(ReleasePair(s, first, second, fault), p)
  {
    forall p: nat | p < |s.payments| ensures PaymentTold(ReleasePair(s, first, second, fault), p) {
      assert PaymentInv(s, p) && PaymentTold(s, p);
      BooksTurn(s, first, fault, p);
      BooksTurn(ReleaseOne(s, first, fault).0, second, fault, p);
    }
  }

  lemma BooksRefund(s: State, q: nat, fault: Option<FaultKind>, p: nat)
    requires Inv(s) && Refundable(s, q) && p < |s.payments| && PaymentTold(s, p)
    ensures PaymentTold(RefundOf(s, q, fault), p)
  {
    assert PaymentInv(s, p);
  }

  lemma BooksOther(cfg: Config, s: State, a: Action)
    requires Legit(cfg) && Books(s) && !Releases(s, a) && !(a.RefundPayment? && Refundable(s, a.p))
    ensures Inv(Step(cfg, s, a))
    ensures forall p: nat :: p < |Step(cfg, s, a).payments| ==> PaymentTold(Step(cfg, s, a), p)
  {
    var t := Step(cfg, s, a);
    InvStep(cfg, s, a);
    SplitsElsewhere(cfg, s, a);
    PaymentsStep(cfg, s, a);
    forall p: nat | p < |t.payments| ensures PaymentTold(t, p) {
      if p < |s.payments| {
        assert PaymentTold(s, p);
        assert t.splits[2 * p + 1] == t.splits[..|s.splits|][2 * p + 1];
        if s.payments[p].status == SUCCEEDED { PaidStaysPaid(cfg, s, a, p); }
      }
    }
  }

  lemma PaidStaysPaid(cfg: Config, s: State, a: Action, p: nat)
    requires !(a.RefundPayment? && Refundable(s, a.p)) && p < |s.payments| && s.payments[p].status == SUCCEEDED
    ensures p < |Step(cfg, s, a).payments| && Step(cfg, s, a).payments[p].status == SUCCEEDED
  {
  }

  lemma BooksStep(cfg: Config, s: State, a: Action)
    requires Legit(cfg) && Books(s)
    ensures Books(Step(cfg, s, a))
  {
    InvStep(cfg, s, a);
    ToldStep(cfg, s, a);
    ReturnedInRange(cfg, s, a);
    AllTold(cfg, s, a);
  }

  lemma AllTold(cfg: Config, s: State, a: Action)
    requires Legit(cfg) && Books(s) && Inv(Step(cfg, s, a))
    ensures forall p: nat :: p < |Step(cfg, s, a).payments| ==> PaymentTold(Step(cfg, s, a), p)
  {
    if Releases(s, a) {
      ReleaseStep(cfg, s, a.p, a.read, a.fault);
      BooksRelease(s, a.read[0], a.read[1], a.fault);
    } else if a.RefundPayment? && Refundable(s, a.p) {
      forall p: nat | p < |s.payments| ensures PaymentTold(RefundOf(s, a.p, a.refundFault), p) {
        BooksRefund(s, a.p, a.refundFault, p);
      }
    } else {
      BooksOther(cfg, s, a);
    }
  }

  lemma ReturnedInRange(cfg: Config, s: State, a: Action)
    requires forall p: nat :: s.returned[p] >= 1 ==> p < |s.payments|
    ensures forall p: nat :: Step(cfg, s, a).returned[p] >= 1 ==> p < |Step(cfg, s, a).payments|
  {
    PaymentsStep(cfg, s, a);
    var t := Step(cfg, s, a);
    assert t.returned == s.returned || (a.RefundPayment? && a.p < |s.payments|
        && t.returned == s.returned + multiset{a.p});
  }

  /** What every run keeps, whatever throws. */
  lemma {:induction false} BooksRun(cfg: Config, s: State, acts: seq<Action>)
    requires Legit(cfg) && Books(s)
    ensures Books(Run(cfg, s, acts))
  {
    if acts != [] {
      BooksRun(cfg, s, acts[..|acts| - 1]);
      BooksStep(cfg, Run(cfg, s, acts[..|acts| - 1]), acts[|acts| - 1]);
    }
  }

  /** Nothing is left that could still move the money the other way. */
  predicate CanPayBothWays(s: State, p: nat)
    requires p < |s.payments| && |s.splits| == 2 * |s.payments|
  {
    || PaidBothWays(s, p)
    || (&& s.splits[2 * p + 1].status == SplitStatus.PENDING
        && (s.returned[p] >= 1 || s.splits[2 * p].status == SplitStatus.PENDING)
        && (s.transfers[2 * p + 1] >= 1 || CanFulfil(s, s.payments[p].subject)))
  }

  /** Either the refund or the transfer is not made, and cannot be made any more. */
  ghost predicate OneWayOnly(s: State, p: nat) {
    && p < |s.payments| && |s.splits| == 2 * |s.payments|
    && (|| (s.returned[p] == 0 && (s.splits[2 * p].status == RELEASED || s.splits[2 * p + 1].status == RELEASED))
        || (s.transfers[2 * p + 1] == 0
            && (s.splits[2 * p + 1].status == SplitStatus.REFUNDED || !CanFulfil(s, s.payments[p].subject))))
  }

  lemma NotBothIsOneWay(s: State, p: nat)
    requires Books(s) && p < |s.payments| && !CanPayBothWays(s, p)
    ensures OneWayOnly(s, p)
  {
    assert PaymentInv(s, p) && PaymentTold(s, p);
  }

  lemma CannotFulfilStays(cfg: Config, s: State, a: Action, p: nat)
    requires Inv(s) && p < |s.payments| && !CanFulfil(s, s.payments[p].subject)
    ensures p < |Step(cfg, s, a).payments| && !CanFulfil(Step(cfg, s, a), s.payments[p].subject)
  {
    assert PaymentInv(s, p);
    PaymentsStep(cfg, s, a);
    if a.OrderStep? && a.order in s.orders && s.payments[p].subject == ForOrder(a.order) {
      O.NeverFulfilledStep(s.orders[a.order], a.orderAction);
    } else if a.DealStep? && a.deal in s.deals && s.payments[p].subject == ForDeal(a.deal) {
      D.FrozenStep(s.deals[a.deal], a.dealAction);
    }
  }

  lemma FulfilledCan(s: State, subject: Subject)
    requires Fulfilled(s, subject)
    ensures CanFulfil(s, subject)
  {
  }

  lemma NoRefundOfReleased(cfg: Config, s: State, a: Action, p: nat, released: nat)
    requires released < |s.splits| && s.splits[released].payment == p && s.splits[released].status == RELEASED
    ensures Step(cfg, s, a).returned[p] == s.returned[p]
  {
    if a.RefundPayment? {
      assert a.p == p ==> HasReleased(s, p);
    }
  }

  /** No refund is made while a split of the payment is RELEASED. */
  lemma NoRefundStep(cfg: Config, s: State, a: Action, p: nat)
    requires Legit(cfg) && Books(s) && p < |s.payments| && s.returned[p] == 0
    requires s.splits[2 * p].status == RELEASED || s.splits[2 * p + 1].status == RELEASED
    ensures OneWayOnly(Step(cfg, s, a), p)
  {
    var released := if s.splits[2 * p].status == RELEASED then 2 * p else 2 * p + 1;
    InvStep(cfg, s, a);
    PaymentsStep(cfg, s, a);
    FinalStep(cfg, s, a, released, RELEASED, s.transfers[released]);
    OwnPair(s, p);
    NoRefundOfReleased(cfg, s, a, p, released);
  }

  /** No transfer is made of a refunded share, or while its subject cannot be fulfilled. */
  lemma NoTransferStep(cfg: Config, s: State, a: Action, p: nat)
    requires Legit(cfg) && Books(s) && p < |s.payments| && s.transfers[2 * p + 1] == 0
    requires s.splits[2 * p + 1].status == SplitStatus.REFUNDED || !CanFulfil(s, s.payments[p].subject)
    ensures OneWayOnly(Step(cfg, s, a), p)
  {
    BooksStep(cfg, s, a);
    PaymentsStep(cfg, s, a);
    if s.splits[2 * p + 1].status == SplitStatus.REFUNDED {
      FinalStep(cfg, s, a, 2 * p + 1, SplitStatus.REFUNDED, 0);
    } else {
      CannotFulfilStays(cfg, s, a, p);
      UnfulfilledIsNotTold(cfg, s, a, p);
    }
  }

  lemma TellsOwn(s: State, k: nat, fault: Fault, i: nat)
    requires k < |s.splits| && i != k
    ensures ReleaseOne(s, k, fault).0.transfers[i] == s.transfers[i]
  {
  }

  lemma ToldByReleases(cfg: Config, s: State, a: Action)
    requires !Releases(s, a)
    ensures Step(cfg, s, a).transfers == s.transfers
  {
  }

  lemma PairTellsOwn(s: State, p: nat, first: nat, second: nat, fault: Fault, i: nat)
    requires first < |s.splits| && second < |s.splits| && PairOf(p, [first, second]) && i / 2 != p
    ensures ReleasePair(s, first, second, fault).transfers[i] == s.transfers[i]
  {
    assert first / 2 == p && second / 2 == p;
    TellsOwn(s, first, fault, i);
    TellsOwn(ReleaseOne(s, first, fault).0, second, fault, i);
  }

  lemma ReleaseTellsOwn(cfg: Config, s: State, a: Action, p: nat)
    requires Inv(s) && Releases(s, a) && a.p != p
    ensures Step(cfg, s, a).transfers[2 * p + 1] == s.transfers[2 * p + 1]
  {
    ReleaseStep(cfg, s, a.p, a.read, a.fault);
    PairTellsOwn(s, a.p, a.read[0], a.read[1], a.fault, 2 * p + 1);
  }

  lemma UnfulfilledIsNotTold(cfg: Config, s: State, a: Action, p: nat)
    requires Legit(cfg) && Inv(s) && p < |s.payments| && !CanFulfil(s, s.payments[p].subject)
    ensures Step(cfg, s, a).transfers[2 * p + 1] == s.transfers[2 * p + 1]
  {
    if Releases(s, a) {
      FulfilledCan(s, s.payments[a.p].subject);
      ReleaseTellsOwn(cfg, s, a, p);
    } else {
      ToldByReleases(cfg, s, a);
    }
  }

  lemma {:induction false} OneWayForGood(cfg: Config, s: State, acts: seq<Action>, p: nat)
    requires Legit(cfg) && Books(s) && OneWayOnly(s, p)
    ensures OneWayOnly(Run(cfg, s, acts), p)
  {
    if acts != [] {
      var t, a := Run(cfg, s, acts[..|acts| - 1]), acts[|acts| - 1];
      OneWayForGood(cfg, s, acts[..|acts| - 1], p);
      BooksRun(cfg, s, acts[..|acts| - 1]);
      if t.returned[p] == 0 && (t.splits[2 * p].status == RELEASED || t.splits[2 * p + 1].status == RELEASED) {
        NoRefundStep(cfg, t, a, p);
      } else {
        NoTransferStep(cfg, t, a, p);
      }
    }
  }

  lemma PaymentArrives(cfg: Config, s: State, p: nat)
    requires p < |s.payments| && s.payments[p].status != SUCCEEDED
    ensures var t := Step(cfg, s, PaymentSucceeded(p));
            && t == s.(payments := t.payments, ledger := t.ledger)
            && t.payments == s.payments[p := s.payments[p].(status := SUCCEEDED)]
  {
  }

  lemma RefundAnswerLost(cfg: Config, s: State, p: nat)
    requires Refundable(s, p)
    ensures Step(cfg, s, RefundPayment(p, Some(AnswerLost))) == s.(returned := s.returned + multiset{p})
  {
  }

  lemma ReachPaid(cfg: Config, s: State, p: nat) returns (acts: seq<Action>, t: State)
    requires p < |s.payments|
    ensures t == Run(cfg, s, acts) && t == s.(payments := t.payments, ledger := t.ledger)
    ensures t.payments == s.payments[p := s.payments[p].(status := SUCCEEDED)]
  {
    acts, t := [], s;
    if s.payments[p].status != SUCCEEDED {
      PaymentArrives(cfg, s, p);
      acts, t := Then(cfg, s, acts, t, PaymentSucceeded(p));
    }
  }

  /** The refund, if it is not made yet: its answer is lost, so that the rows do not change. */
  lemma ReachRefund(cfg: Config, s: State, p: nat) returns (acts: seq<Action>)
    requires Books(s) && p < |s.payments| && s.splits[2 * p + 1].status == SplitStatus.PENDING
    requires s.returned[p] >= 1 || s.splits[2 * p].status == SplitStatus.PENDING
    ensures var t := Run(cfg, s, acts);
            && t == s.(payments := t.payments, returned := t.returned, ledger := t.ledger)
            && t.payments == s.payments[p := s.payments[p].(status := SUCCEEDED)] && t.returned[p] >= 1
  {
    var t;
    acts, t := ReachPaid(cfg, s, p);
    if t.returned[p] == 0 {
      PendingIsRefundable(s, t, p);
      RefundAnswerLost(cfg, t, p);
      acts, t := Then(cfg, s, acts, t, RefundPayment(p, Some(AnswerLost)));
    }
  }

  lemma PendingIsRefundable(s: State, t: State, p: nat)
    requires Inv(s) && p < |s.payments| && t.splits == s.splits
    requires s.splits[2 * p].status == SplitStatus.PENDING == s.splits[2 * p + 1].status
    requires p < |t.payments| && t.payments[p].status == SUCCEEDED
    ensures Refundable(t, p)
  {
    OwnPair(s, p);
  }

  lemma {:induction false} RunOn(cfg: Config, s: State, acts: seq<Action>, more: seq<Action>)
    ensures Run(cfg, s, acts + more) == Run(cfg, Run(cfg, s, acts), more)
  {
    if more == [] {
      assert acts + more == acts;
    } else {
      RunOn(cfg, s, acts, more[..|more| - 1]);
      assert (acts + more)[..|acts + more| - 1] == acts + more[..|more| - 1];
    }
  }

  /** The run ends with the payment's money gone both ways. */
  predicate CrossedBy(cfg: Config, s: State, p: nat, acts: seq<Action>) {
    PaidBothWays(Run(cfg, s, acts), p)
  }

  lemma PayBothWays(cfg: Config, s: State, p: nat) returns (acts: seq<Action>)
    requires Legit(cfg) && Books(s) && p < |s.payments| && CanPayBothWays(s, p)
    ensures CrossedBy(cfg, s, p, acts)
  {
    acts := [];
    if !PaidBothWays(s, p) {
      acts := ReachRefund(cfg, s, p);
      var t := Run(cfg, s, acts);
      if t.transfers[2 * p + 1] == 0 {
        BooksRun(cfg, s, acts);
        var more := ReachTransfer(cfg, t, p);
        RunOn(cfg, s, acts, more);
        acts := acts + more;
      }
    }
  }

  lemma StaysOneWay(cfg: Config, s: State, acts: seq<Action>, p: nat)
    requires Legit(cfg) && Books(s) && p < |s.payments| && !CanPayBothWays(s, p)
    ensures !CrossedBy(cfg, s, p, acts)
  {
    NotBothIsOneWay(s, p);
    OneWayForGood(cfg, s, acts, p);
  }

  /**
    From every state a run can reach, whatever threw in it: some run returns a payment's money and transfers its share
    as well, exactly when both are done, or the share's row is still PENDING, the refund is made or the fee's row
    PENDING too, and the transfer is made or the order or deal can still be fulfilled.
   */
  lemma PaidBothWaysIff(cfg: Config, s: State, p: nat)
    requires Legit(cfg) && Books(s) && p < |s.payments|
    ensures (exists acts :: CrossedBy(cfg, s, p, acts)) <==> CanPayBothWays(s, p)
  {
    if CanPayBothWays(s, p) {
      var acts := PayBothWays(cfg, s, p);
    } else {
      forall acts ensures !CrossedBy(cfg, s, p, acts) {
        StaysOneWay(cfg, s, acts, p);
      }
    }
  }

  /**
    In particular after a lost refund, by whatever fault: the recipient is paid as well as soon as the subject is
    fulfilled.
   */
  lemma LostRefundIsReleased(cfg: Config, s: State, a: Action) returns (acts: seq<Action>)
    requires Legit(cfg) && Books(s) && LosesRefund(s, a) && s.splits[2 * a.p + 1].status == SplitStatus.PENDING
    requires CanFulfil(s, s.payments[a.p].subject)
    ensures CrossedBy(cfg, Step(cfg, s, a), a.p, acts)
  {
    BooksStep(cfg, s, a);
    acts := PayBothWays(cfg, Step(cfg, s, a), a.p);
  }
}
