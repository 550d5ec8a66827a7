/**
  The negotiation of one deal: src/deals/services/deals.service.ts and proposals.service.ts.
  Each service call is one atomic step.
 */
module Deals {
  import opened Util

  type UserId = string

  datatype DealStatus = NEGOTIATING | ACTIVE | COMPLETED | CANCELLED

  datatype ProposalStatus = PENDING | ACCEPTED | REJECTED | SUPERSEDED

  datatype Terms = Terms(
    totalValue: Option<nat>, splitBrand: Option<int>, splitCreator: Option<int>, startDate: Option<int>,
        endDate: Option<int>)

  /** `decidedBy` remembers who accepted or rejected. */
  datatype Proposal = Proposal(proposedBy: UserId, terms: Terms, status: ProposalStatus, decidedBy: Option<UserId>)

  datatype Deal = Deal(status: DealStatus, creator: UserId, terms: Terms, proposals: seq<Proposal>, activated: bool)

  datatype Outcome = Done | BadRequest | Conflict | Forbidden

  datatype Action =
    | Propose(user: UserId, terms: Terms)
    | Accept(proposal: nat, user: UserId)
    | Reject(proposal: nat, user: UserId)
    | Complete
    | Cancel

  /** `assertValidSplit`: both shares or neither, and together 100. */
  function AssertValidSplit(brand: Option<int>, creator: Option<int>): (r: Outcome)
    ensures r in {Done, BadRequest}
    ensures r == Done <==>
              && (brand.None? <==> creator.None?)
              && (brand.Some? && creator.Some? ==> brand.value + creator.value == 100)
  {
    if brand.None? && creator.None? then Done
    else if brand.None? || creator.None? then BadRequest
    else if brand.value + creator.value != 100 then BadRequest
    else Done
  }

  predicate ValidSplit(t: Terms) {
    AssertValidSplit(t.splitBrand, t.splitCreator) == Done
  }

  function Either<T>(offered: Option<T>, kept: Option<T>): Option<T> {
    if offered.Some? then offered else kept
  }

  /** What an accepted proposal leaves out stays as it was. */
  function Merge(deal: Terms, offer: Terms): Terms {
    Terms(Either(offer.totalValue, deal.totalValue), Either(offer.splitBrand, deal.splitBrand),
          Either(offer.splitCreator, deal.splitCreator), Either(offer.startDate, deal.startDate),
              Either(offer.endDate, deal.endDate))
  }

  /** The deal and its first proposal, or nothing. */
  function Create(user: UserId, creator: UserId, terms: Terms): Option<Deal> {
    if !ValidSplit(terms) then None
    else Some(Deal(NEGOTIATING, creator, terms, [Proposal(user, terms, PENDING, None)], false))
  }

  function Supersede(proposals: seq<Proposal>): (r: seq<Proposal>)
    ensures |r| == |proposals|
    ensures forall i :: 0 <= i < |r| ==>
              r[i] == if proposals[i].status == PENDING then proposals[i].(status := SUPERSEDED) else proposals[i]
  {
    seq(|proposals|, i requires 0 <= i < |proposals| =>
      if proposals[i].status == PENDING then proposals[i].(status := SUPERSEDED) else proposals[i])
  }

  /** The guards that accepting and rejecting share. */
  function Decide(d: Deal, i: nat, user: UserId): (r: Outcome)
    ensures r == Done ==> i < |d.proposals|
  {
    if d.status != NEGOTIATING then Conflict
    else if i >= |d.proposals| then Conflict
    else if d.proposals[i].status != PENDING then Conflict
    else if d.proposals[i].proposedBy == user then Forbidden
    else Done
  }

  function Attempt(d: Deal, a: Action): (Deal, Outcome) {
    match a
    case Propose(user, terms) =>
      if !ValidSplit(terms) then (d, BadRequest) else if d.status != NEGOTIATING then (d, Conflict) else
      (d.(proposals := Supersede(d.proposals) + [Proposal(user, terms, PENDING, None)]), Done)
    case Accept(i, user) =>
      if Decide(d, i, user) != Done then (d, Decide(d, i, user)) else
      (d.(proposals := d.proposals[i := d.proposals[i].(status := ACCEPTED, decidedBy := Some(user))],
          status := ACTIVE, activated := true, terms := Merge(d.terms, d.proposals[i].terms)), Done)
    case Reject(i, user) =>
      if Decide(d, i, user) != Done then (d, Decide(d, i, user)) else
      (d.(proposals := d.proposals[i := d.proposals[i].(status := REJECTED, decidedBy := Some(user))]), Done)
    case Complete => if d.status != ACTIVE then (d, Conflict) else (d.(status := COMPLETED), Done)
    case Cancel => if d.status in {COMPLETED, CANCELLED} then (d, Conflict) else (d.(status := CANCELLED), Done)
  }

  function Step(d: Deal, a: Action): Deal {
    Attempt(d, a).0
  }

  function Run(d: Deal, acts: seq<Action>): Deal {
    if acts == [] then d else Step(Run(d, acts[..|acts| - 1]), acts[|acts| - 1])
  }

  // ---- the invariant ----

  ghost predicate AtMostOne(proposals: seq<Proposal>, status: ProposalStatus) {
    forall i, j :: 0 <= i < j < |proposals| ==> !(proposals[i].status == status && proposals[j].status == status)
  }

  predicate HasAccepted(d: Deal) {
    exists i :: 0 <= i < |d.proposals| && d.proposals[i].status == ACCEPTED
  }

  /** The deal's terms are the opening ones until a proposal is accepted, then those merged with its own. */
  ghost predicate TermsFollow(d: Deal, opening: Terms) {
    && (!d.activated ==> d.terms == opening)
    && forall i :: 0 <= i < |d.proposals| && d.proposals[i].status == ACCEPTED
        ==> d.terms == Merge(opening, d.proposals[i].terms)
  }

  ghost predicate Inv(d: Deal, opening: Terms) {
    && AtMostOne(d.proposals, PENDING) && AtMostOne(d.proposals, ACCEPTED)
    && (HasAccepted(d) <==> d.activated)
    && (d.status == NEGOTIATING ==> !d.activated)
    && (d.status in {ACTIVE, COMPLETED} ==> d.activated)
    && (forall i :: 0 <= i < |d.proposals| ==>
          && ValidSplit(d.proposals[i].terms)
          && (d.proposals[i].status in {ACCEPTED, REJECTED} ==>
                d.proposals[i].decidedBy.Some? && d.proposals[i].decidedBy.value != d.proposals[i].proposedBy))
    && ValidSplit(opening) && ValidSplit(d.terms)
    && TermsFollow(d, opening)
  }

  lemma MergeKeepsSplit(deal: Terms, offer: Terms)
    requires ValidSplit(deal) && ValidSplit(offer)
    ensures ValidSplit(Merge(deal, offer))
  {
  }

  lemma InvStep(d: Deal, opening: Terms, a: Action)
    requires Inv(d, opening)
    ensures Inv(Step(d, a), opening)
  {
    var e := Step(d, a);
    if a.Accept? && Attempt(d, a).1 == Done {
      MergeKeepsSplit(d.terms, d.proposals[a.proposal].terms);
      assert e.proposals[a.proposal].status == ACCEPTED;
      forall i | 0 <= i < |e.proposals| && i != a.proposal ensures e.proposals[i].status != ACCEPTED {
        assert e.proposals[i] == d.proposals[i];
      }
    } else if HasAccepted(d) {
      var k :| 0 <= k < |d.proposals| && d.proposals[k].status == ACCEPTED;
      assert e.proposals[k].status == ACCEPTED;
    }
  }

  /**
    In every run of a deal: at most one pending proposal; exactly one accepted one if the deal was ever
    activated and none before; nobody decides their own proposal; the split is absent or sums to 100; and
    the terms are the opening terms overridden by the accepted proposal.
   */
  lemma {:induction false} DealInvariant(user: UserId, creator: UserId, terms: Terms, acts: seq<Action>)
    requires Create(user, creator, terms).Some?
    ensures Inv(Run(Create(user, creator, terms).value, acts), terms)
  {
    if acts != [] {
      DealInvariant(user, creator, terms, acts[..|acts| - 1]);
      InvStep(Run(Create(user, creator, terms).value, acts[..|acts| - 1]), terms, acts[|acts| - 1]);
    } else {
      var d := Create(user, creator, terms).value;
      assert !HasAccepted(d);
    }
  }

  lemma FrozenStep(d: Deal, a: Action)
    requires d.status != NEGOTIATING
    ensures var e := Step(d, a);
            && e.status != NEGOTIATING && e.terms == d.terms && e.creator == d.creator
            && (d.status in {COMPLETED, CANCELLED} ==> e == d)
  {
  }

  /** Once negotiation is over the terms never change, and a completed deal stays completed. */
  lemma {:induction false} TermsFrozen(d: Deal, acts: seq<Action>)
    requires d.status != NEGOTIATING
    ensures var e := Run(d, acts);
            && e.status != NEGOTIATING && e.terms == d.terms && e.creator == d.creator
            && (d.status == COMPLETED ==> e == d)
            && (d.status == CANCELLED ==> e == d)
  {
    if acts != [] {
      TermsFrozen(d, acts[..|acts| - 1]);
      FrozenStep(Run(d, acts[..|acts| - 1]), acts[|acts| - 1]);
    }
  }

  // ---- which call moves a deal where, and whose terms win ----

  predicate Becomes(d: Deal, a: Action, to: DealStatus) {
    d.status != to && Step(d, a).status == to
  }

  /** Somebody who did not make the pending proposal decides it, while the deal is negotiated. */
  predicate MayDecide(d: Deal, i: nat, user: UserId) {
    && d.status == NEGOTIATING && i < |d.proposals|
    && d.proposals[i].status == PENDING && d.proposals[i].proposedBy != user
  }

  lemma StatusGraph(d: Deal, a: Action)
    ensures !Becomes(d, a, NEGOTIATING)
    ensures Becomes(d, a, ACTIVE) <==> a.Accept? && MayDecide(d, a.proposal, a.user)
    ensures Becomes(d, a, COMPLETED) <==> a == Complete && d.status == ACTIVE
    ensures Becomes(d, a, CANCELLED) <==> a == Cancel && d.status in {NEGOTIATING, ACTIVE}
  {
  }

  /** A deal is opened exactly with a valid split, and whoever did not open it may accept it as it is. */
  lemma OpenedIff(user: UserId, creator: UserId, opening: Terms, other: UserId)
    ensures Create(user, creator, opening).Some? <==> ValidSplit(opening)
    ensures Create(user, creator, opening).Some? ==>
              var d := Create(user, creator, opening).value;
              && d.status == NEGOTIATING && d.creator == creator && d.terms == opening && |d.proposals| == 1
              && (Becomes(d, Accept(0, other), ACTIVE) <==> other != user)
              && Step(d, Accept(0, other)).terms == opening
  {
  }

  /** What becomes of each proposal, and when there is a new one. */
  lemma ProposalsIff(d: Deal, a: Action)
    ensures var e := Step(d, a);
            var offers := a.Propose? && d.status == NEGOTIATING && ValidSplit(a.terms);
            && |e.proposals| == |d.proposals| + (if offers then 1 else 0)
            && (offers ==> e.proposals[|d.proposals|] == Proposal(a.user, a.terms, PENDING, None))
            && forall i: nat :: i < |d.proposals| ==>
                 var p, q := d.proposals[i], e.proposals[i];
                 && q.proposedBy == p.proposedBy && q.terms == p.terms
                 && (q.status == ACCEPTED <==> p.status == ACCEPTED || DecidedBy(d, a, i, true))
                 && (q.status == REJECTED <==> p.status == REJECTED || DecidedBy(d, a, i, false))
                 && (q.status == SUPERSEDED <==> p.status == SUPERSEDED || (p.status == PENDING && offers))
                 && (q.decidedBy != p.decidedBy ==> (a.Accept? || a.Reject?) && q.decidedBy == Some(a.user))
  {
  }

  predicate DecidedBy(d: Deal, a: Action, i: nat, accepted: bool) {
    && (if accepted then a.Accept? else a.Reject?)
    && a.proposal == i && MayDecide(d, i, a.user)
  }

  /** An offered term wins, and one left out stays. */
  predicate Overrides<T(==)>(result: Option<T>, offered: Option<T>, kept: Option<T>) {
    (offered.Some? ==> result == offered) && (offered.None? ==> result == kept)
  }

  predicate OverridesAll(result: Terms, offered: Terms, kept: Terms) {
    && Overrides(result.totalValue, offered.totalValue, kept.totalValue)
    && Overrides(result.splitBrand, offered.splitBrand, kept.splitBrand)
    && Overrides(result.splitCreator, offered.splitCreator, kept.splitCreator)
    && Overrides(result.startDate, offered.startDate, kept.startDate)
    && Overrides(result.endDate, offered.endDate, kept.endDate)
  }

  /** Each term of a deal, in every run: the accepted proposal's where it has one, the opening one otherwise. */
  lemma AcceptedTermsWin(user: UserId, creator: UserId, opening: Terms, acts: seq<Action>, i: nat)
    requires Create(user, creator, opening).Some?
    requires var d := Run(Create(user, creator, opening).value, acts);
             i < |d.proposals| && d.proposals[i].status == ACCEPTED
    ensures var d := Run(Create(user, creator, opening).value, acts);
            OverridesAll(d.terms, d.proposals[i].terms, opening)
  {
    DealInvariant(user, creator, opening, acts);
  }

  /** Why a call is turned away: it then changes nothing. */
  lemma RefusedIff(d: Deal, a: Action)
    ensures var (e, r) := Attempt(d, a);
            && (r != Done ==> e == d)
            && (r == BadRequest <==> a.Propose? && !ValidSplit(a.terms))
            && (r == Forbidden <==>
                  && (a.Accept? || a.Reject?) && d.status == NEGOTIATING && a.proposal < |d.proposals|
                  && d.proposals[a.proposal].status == PENDING && d.proposals[a.proposal].proposedBy == a.user)
            && (r == Done <==>
                  || (a.Propose? && d.status == NEGOTIATING && ValidSplit(a.terms))
                  || ((a.Accept? || a.Reject?) && MayDecide(d, a.proposal, a.user))
                  || (a.Complete? && d.status == ACTIVE)
                  || (a.Cancel? && d.status !in {COMPLETED, CANCELLED}))
  {
  }

  lemma Then(d: Deal, acts: seq<Action>, t: Deal, a: Action) returns (acts': seq<Action>, t': Deal)
    requires t == Run(d, acts)
    ensures t' == Step(t, a) == Run(d, acts')
  {
    acts', t' := acts + [a], Step(t, a);
    assert acts'[..|acts|] == acts;
  }

  /** Somebody proposes, somebody else accepts, and the deal is completed. */
  lemma Conclude(d: Deal) returns (acts: seq<Action>)
    requires d.status in {NEGOTIATING, ACTIVE}
    ensures Run(d, acts).status == COMPLETED
  {
    var t := d;
    acts := [];
    if d.status == NEGOTIATING {
      acts, t := Then(d, acts, t, Propose("a", Terms(None, None, None, None, None)));
      acts, t := Then(d, acts, t, Accept(|d.proposals|, "b"));
    }
    acts, t := Then(d, acts, t, Complete);
  }

  /** Some run completes a deal exactly when it was not cancelled. */
  lemma CompletableIff(d: Deal)
    ensures (exists acts :: Run(d, acts).status == COMPLETED) <==> d.status != CANCELLED
  {
    if d.status == COMPLETED {
      assert Run(d, []).status == COMPLETED;
    } else if d.status == CANCELLED {
      forall acts ensures Run(d, acts).status != COMPLETED {
        TermsFrozen(d, acts);
      }
    } else {
      var acts := Conclude(d);
    }
  }

  // ---- the services, on one deal's rows ----

  class DealServices {
    const creator: UserId
    var status: DealStatus
    var terms: Terms
    var proposals: seq<Proposal>
    var activated: bool

    ghost function View(): Deal
      reads this
    {
      Deal(status, creator, terms, proposals, activated)
    }

    constructor (user: UserId, creator: UserId, terms: Terms)
      requires AssertValidSplit(terms.splitBrand, terms.splitCreator) == Done
      ensures Create(user, creator, terms) == Some(View())
      ensures Inv(View(), terms)
    {
      this.creator, this.terms, status, activated := creator, terms, NEGOTIATING, false;
      proposals := [Proposal(user, terms, PENDING, None)];
      new;
      assert !HasAccepted(View());
    }

    method CreateProposal(user: UserId, offer: Terms) returns (outcome: Outcome)
      modifies this`proposals
      ensures (View(), outcome) == Attempt(old(View()), Propose(user, offer))
    {
      outcome := AssertValidSplit(offer.splitBrand, offer.splitCreator);
      if outcome != Done {
        return;
      }
      if status != NEGOTIATING {
        return Conflict;
      }
      for i := 0 to |proposals|
        invariant |proposals| == |old(proposals)|
        invariant proposals[..i] == Supersede(old(proposals))[..i]
        invariant proposals[i..] == old(proposals)[i..]
      {
        assert proposals[i] == proposals[i..][0] == old(proposals)[i];
        if proposals[i].status == PENDING {
          proposals := proposals[i := proposals[i].(status := SUPERSEDED)];
        }
        assert proposals[..i + 1] == proposals[..i] + [proposals[i]];
      }
      assert proposals == proposals[..|proposals|] == Supersede(old(proposals));
      proposals := proposals + [Proposal(user, offer, PENDING, None)];
    }

    method AcceptProposal(i: nat, user: UserId) returns (outcome: Outcome)
      modifies this
      ensures (View(), outcome) == Attempt(old(View()), Accept(i, user))
    {
      outcome := Decide(Deal(status, creator, terms, proposals, activated), i, user);
      if outcome != Done {
        return;
      }
      var offer := proposals[i].terms;
      proposals := proposals[i := proposals[i].(status := ACCEPTED, decidedBy := Some(user))];
      status, activated := ACTIVE, true;
      if offer.totalValue.Some? { terms := terms.(totalValue := offer.totalValue); }
      if offer.splitBrand.Some? { terms := terms.(splitBrand := offer.splitBrand); }
      if offer.splitCreator.Some? { terms := terms.(splitCreator := offer.splitCreator); }
      if offer.startDate.Some? { terms := terms.(startDate := offer.startDate); }
      if offer.endDate.Some? { terms := terms.(endDate := offer.endDate); }
    }

    method RejectProposal(i: nat, user: UserId) returns (outcome: Outcome)
      modifies this`proposals
      ensures (View(), outcome) == Attempt(old(View()), Reject(i, user))
    {
      outcome := Decide(Deal(status, creator, terms, proposals, activated), i, user);
      if outcome == Done {
        proposals := proposals[i := proposals[i].(status := REJECTED, decidedBy := Some(user))];
      }
    }

    method CompleteDeal() returns (outcome: Outcome)
      modifies this`status
      ensures (View(), outcome) == Attempt(old(View()), Complete)
    {
      if status != ACTIVE {
        return Conflict;
      }
      status := COMPLETED;
      return Done;
    }

    method CancelDeal() returns (outcome: Outcome)
      modifies this`status
      ensures (View(), outcome) == Attempt(old(View()), Cancel)
    {
      if status == COMPLETED || status == CANCELLED {
        return Conflict;
      }
      status := CANCELLED;
      return Done;
    }
  }
}
