/**
  Versions and signatures of one contract: src/contracts/services/contracts.service.ts and
  signatures.service.ts.  Each service call is one atomic step, except that rendering the PDF may throw
  half way through creating a version.
 */
module Contracts {
  import opened Util

  type UserId = string

  datatype Status = DRAFT | AWAITING_SIGNATURE | PARTIALLY_SIGNED | EXECUTED | VOIDED

  datatype Party = BRAND | CREATOR

  datatype Signature = Signature(party: Party, signer: UserId)

  datatype Version = Version(number: nat, signatures: seq<Signature>)

  datatype Event =
    | CREATED
    | VERSION_CREATED(number: nat)
    | SENT_FOR_SIGNATURE
    | SIGNED(party: Party)
    | FULLY_EXECUTED
    | CONTRACT_VOIDED

  /** `owner` is the owner of the contract's brand. */
  datatype Contract = Contract(status: Status, creator: UserId, owner: UserId, versions: seq<Version>,
      events: seq<Event>)

  datatype Outcome = Done | Conflict | Forbidden | Threw

  datatype Action = CreateVersion(pdfOk: bool) | SendForSignature | Sign(user: UserId) | Void

  /** The version with the highest number. */
  function Latest(versions: seq<Version>): (i: nat)
    requires versions != []
    ensures i < |versions|
  {
    if |versions| == 1 then 0 else
    var i := Latest(versions[..|versions| - 1]);
    if versions[|versions| - 1].number >= versions[i].number then |versions| - 1 else i
  }

  /** `create`: the rows come first, then the first PDF; if that throws, the contract stays without a history. */
  function Created(creator: UserId, owner: UserId, pdfOk: bool): Contract {
    Contract(DRAFT, creator, owner, [Version(1, [])], if pdfOk then [CREATED, VERSION_CREATED(1)] else [])
  }

  /** The creator signs as creator, whoever else they are; the brand's owner signs for the brand. */
  function ResolveParty(c: Contract, user: UserId): Option<Party> {
    if user == c.creator then Some(CREATOR) else if user == c.owner then Some(BRAND) else None
  }

  predicate HasSigned(v: Version, party: Party) {
    exists i :: 0 <= i < |v.signatures| && v.signatures[i].party == party
  }

  function Attempt(c: Contract, a: Action): (Contract, Outcome)
    requires c.versions != []
  {
    match a
    case CreateVersion(pdfOk) =>
      if c.status in {EXECUTED, VOIDED} then (c, Conflict) else
      var next := c.versions[Latest(c.versions)].number + 1;
      var added := c.(versions := c.versions + [Version(next, [])]);
      if !pdfOk then (added, Threw) else
      (added.(status := DRAFT, events := c.events + [VERSION_CREATED(next)]), Done)
    case SendForSignature =>
      if c.status != DRAFT then (c, Conflict) else
      (c.(status := AWAITING_SIGNATURE, events := c.events + [SENT_FOR_SIGNATURE]), Done)
    case Void =>
      if c.status in {EXECUTED, VOIDED} then (c, Conflict) else
      (c.(status := VOIDED, events := c.events + [CONTRACT_VOIDED]), Done)
    case Sign(user) =>
      if c.status !in {AWAITING_SIGNATURE, PARTIALLY_SIGNED} then (c, Conflict) else
      var party := ResolveParty(c, user);
      if party.None? then (c, Forbidden) else
      var k := Latest(c.versions);
      if HasSigned(c.versions[k], party.value) then (c, Conflict) else
      var signed := c.versions[k].(signatures := c.versions[k].signatures + [Signature(party.value, user)]);
      var full := |signed.signatures| >= 2;
      (c.(versions := c.versions[k := signed],
          status := if full then EXECUTED else PARTIALLY_SIGNED,
          events := c.events + [if full then FULLY_EXECUTED else SIGNED(party.value)]), Done)
  }

  function Step(c: Contract, a: Action): (r: Contract)
    requires c.versions != []
    ensures r.versions != [] && r.creator == c.creator && r.owner == c.owner
  {
    Attempt(c, a).0
  }

  function Run(c: Contract, acts: seq<Action>): (r: Contract)
    requires c.versions != []
    ensures r.versions != [] && r.creator == c.creator && r.owner == c.owner
  {
    if acts == [] then c else Step(Run(c, acts[..|acts| - 1]), acts[|acts| - 1])
  }

  lemma Then(c: Contract, acts: seq<Action>, t: Contract, a: Action) returns (acts': seq<Action>, t': Contract)
    requires c.versions != [] && t == Run(c, acts)
    ensures t' == Step(t, a) == Run(c, acts')
  {
    acts', t' := acts + [a], Step(t, a);
    assert acts'[..|acts|] == acts;
  }

  // ---- who signed what, in any run ----

  predicate Numbered(versions: seq<Version>) {
    forall i :: 0 <= i < |versions| ==> versions[i].number == i + 1
  }

  lemma {:induction false} LatestIsLast(versions: seq<Version>)
    requires versions != [] && Numbered(versions)
    ensures Latest(versions) == |versions| - 1
  {
    if |versions| > 1 {
      assert Numbered(versions[..|versions| - 1]);
      LatestIsLast(versions[..|versions| - 1]);
    }
  }

  /** Each party signs a version at most once, and through the person entitled to. */
  ghost predicate GenuineSignatures(c: Contract, v: Version) {
    && (forall i :: 0 <= i < |v.signatures| ==> ResolveParty(c, v.signatures[i].signer) == Some(v.signatures[i].party))
    && (forall i, j :: 0 <= i < j < |v.signatures| ==> v.signatures[i].party != v.signatures[j].party)
  }

  ghost predicate Inv(c: Contract) {
    && c.versions != [] && Numbered(c.versions)
    && (forall k :: 0 <= k < |c.versions| ==> GenuineSignatures(c, c.versions[k]))
    && (forall k :: 0 <= k < |c.versions| - 1 ==> |c.versions[k].signatures| <= 1)
    && (c.status == EXECUTED <==> |c.versions[|c.versions| - 1].signatures| == 2)
    && |c.versions[|c.versions| - 1].signatures| <= 2
  }

  lemma InvAddVersion(c: Contract, pdfOk: bool)
    requires Inv(c)
    ensures Inv(Step(c, CreateVersion(pdfOk)))
  {
    LatestIsLast(c.versions);
    var d := Step(c, CreateVersion(pdfOk));
    forall k | 0 <= k < |d.versions| ensures GenuineSignatures(d, d.versions[k]) {
      if k < |c.versions| { assert GenuineSignatures(c, c.versions[k]); }
    }
  }

  lemma InvSign(c: Contract, user: UserId)
    requires Inv(c)
    ensures Inv(Step(c, Sign(user)))
  {
    LatestIsLast(c.versions);
    var d, n := Step(c, Sign(user)), |c.versions| - 1;
    assert GenuineSignatures(c, c.versions[n]);
    forall k | 0 <= k < |d.versions| ensures GenuineSignatures(d, d.versions[k]) {
      assert GenuineSignatures(c, c.versions[k]);
    }
  }

  lemma InvStep(c: Contract, a: Action)
    requires Inv(c)
    ensures Inv(Step(c, a))
  {
    match a
    case CreateVersion(pdfOk) => InvAddVersion(c, pdfOk);
    case Sign(user) => InvSign(c, user);
    case _ =>
      forall k | 0 <= k < |c.versions| ensures GenuineSignatures(Step(c, a), c.versions[k]) {
        assert GenuineSignatures(c, c.versions[k]);
      }
  }

  lemma {:induction false} InvRun(c: Contract, acts: seq<Action>)
    requires Inv(c)
    ensures Inv(Run(c, acts))
  {
    if acts != [] {
      InvRun(c, acts[..|acts| - 1]);
      InvStep(Run(c, acts[..|acts| - 1]), acts[|acts| - 1]);
    }
  }

  lemma CreatedInv(creator: UserId, owner: UserId, pdfOk: bool)
    ensures Inv(Created(creator, owner, pdfOk))
  {
    var c := Created(creator, owner, pdfOk);
    assert GenuineSignatures(c, c.versions[0]);
  }

  /**
    However PDFs fail: an executed contract's latest version carries one signature of each party, by two different
    people, and no superseded version carries both.
   */
  lemma ExecutedIsFullySigned(creator: UserId, owner: UserId, pdfOk: bool, acts: seq<Action>)
    ensures var c := Run(Created(creator, owner, pdfOk), acts);
            var last := c.versions[|c.versions| - 1];
            && (c.status == EXECUTED ==>
                  && |last.signatures| == 2 && last.signatures[0].signer != last.signatures[1].signer
                  && HasSigned(last, BRAND) && HasSigned(last, CREATOR))
            && (forall k :: 0 <= k < |c.versions| - 1 ==>
                  !(HasSigned(c.versions[k], BRAND) && HasSigned(c.versions[k], CREATOR)))
            && Numbered(c.versions)
  {
    CreatedInv(creator, owner, pdfOk);
    InvRun(Created(creator, owner, pdfOk), acts);
    SignedByStatus(Run(Created(creator, owner, pdfOk), acts));
  }

  lemma SignedByStatus(c: Contract)
    requires Inv(c)
    ensures var last := c.versions[|c.versions| - 1];
            c.status == EXECUTED ==>
              && |last.signatures| == 2 && last.signatures[0].signer != last.signatures[1].signer
              && HasSigned(last, BRAND) && HasSigned(last, CREATOR)
    ensures forall k :: 0 <= k < |c.versions| - 1 ==>
              !(HasSigned(c.versions[k], BRAND) && HasSigned(c.versions[k], CREATOR))
  {
    if c.status == EXECUTED {
      BothSigned(c, c.versions[|c.versions| - 1]);
    }
  }

  lemma BothSigned(c: Contract, v: Version)
    requires GenuineSignatures(c, v) && |v.signatures| == 2
    ensures v.signatures[0].signer != v.signatures[1].signer && HasSigned(v, BRAND) && HasSigned(v, CREATOR)
  {
    var p, q := v.signatures[0], v.signatures[1];
    assert p.party != q.party;
    assert ResolveParty(c, p.signer) == Some(p.party) && ResolveParty(c, q.signer) == Some(q.party);
  }

  /** EXECUTED and VOIDED are final: nothing about such a contract ever changes. */
  lemma {:induction false} FinalIsFrozen(c: Contract, acts: seq<Action>)
    requires c.versions != [] && c.status in {EXECUTED, VOIDED}
    ensures Run(c, acts) == c
  {
    if acts != [] {
      FinalIsFrozen(c, acts[..|acts| - 1]);
    }
  }

  // ---- which calls are accepted, and who can still execute a contract ----

  /** The party a person signs for: creator before owner. */
  predicate SignsFor(c: Contract, user: UserId, party: Party) {
    if user == c.creator then party == CREATOR else user == c.owner && party == BRAND
  }

  /**
    A signature is accepted exactly from a person of a party that has not signed the latest version yet, while the
    contract is out for signature, be it the first signature or the second.
   */
  lemma SignAcceptedIff(c: Contract, user: UserId, party: Party)
    requires Inv(c) && SignsFor(c, user, party)
    ensures var last := c.versions[|c.versions| - 1];
            Attempt(c, Sign(user)).1 == Done <==>
              c.status in {AWAITING_SIGNATURE, PARTIALLY_SIGNED} && !HasSigned(last, party)
    ensures Attempt(c, Sign(user)).1 == Done ==>
              var n, d := |c.versions| - 1, Step(c, Sign(user));
              && d.versions[..n] == c.versions[..n] && |d.versions| == n + 1
              && d.versions[n].signatures == c.versions[n].signatures + [Signature(party, user)]
              && d.status == (if c.versions[n].signatures == [] then PARTIALLY_SIGNED else EXECUTED)
              && d.events == c.events + [if c.versions[n].signatures == [] then SIGNED(party) else FULLY_EXECUTED]
    ensures Attempt(c, Sign(user)).1 != Done ==> Attempt(c, Sign(user)) == (c, Conflict)
  {
    LatestIsLast(c.versions);
  }

  lemma StrangerCannotSign(c: Contract, user: UserId)
    requires c.versions != [] && user != c.creator && user != c.owner
    ensures Attempt(c, Sign(user)) ==
            (c, if c.status in {AWAITING_SIGNATURE, PARTIALLY_SIGNED} then Forbidden else Conflict)
  {
  }

  /** The other three calls. */
  lemma CallAcceptedIff(c: Contract, a: Action)
    requires Inv(c) && !a.Sign?
    ensures var (d, r) := Attempt(c, a);
            var accepted := if a == SendForSignature then c.status == DRAFT else c.status !in {EXECUTED, VOIDED};
            && (!accepted <==> r == Conflict) && (!accepted ==> d == c)
            && (r == Threw <==> accepted && a == CreateVersion(false))
            && (accepted ==>
                  && d.status == (if a == SendForSignature then AWAITING_SIGNATURE else if a == Void then VOIDED
                                  else if a == CreateVersion(true) then DRAFT else c.status)
                  && d.versions == c.versions + (if a.CreateVersion? then [Version(|c.versions| + 1, [])] else [])
                  && d.events == c.events +
                       match a
                       case CreateVersion(pdfOk) => if pdfOk then [VERSION_CREATED(|c.versions| + 1)] else []
                       case SendForSignature => [SENT_FOR_SIGNATURE]
                       case Void => [CONTRACT_VOIDED])
  {
    LatestIsLast(c.versions);
  }

  lemma SecondSignature(c: Contract, second: UserId, p: Party, first: UserId)
    requires Inv(c) && c.status == PARTIALLY_SIGNED && second != first
    requires SignsFor(c, first, p) && second in {c.creator, c.owner}
    requires c.versions[|c.versions| - 1].signatures == [Signature(p, first)]
    ensures Step(c, Sign(second)).status == EXECUTED
  {
    SignAcceptedIff(c, second, if second == c.creator then CREATOR else BRAND);
  }

  /** With nothing in between, the two signatures execute the contract, whoever signs first. */
  lemma TwoSignaturesExecute(c: Contract, first: UserId, second: UserId)
    requires Inv(c) && c.status == AWAITING_SIGNATURE && c.versions[|c.versions| - 1].signatures == []
    requires first != second && first in {c.creator, c.owner} && second in {c.creator, c.owner}
    ensures Step(Step(c, Sign(first)), Sign(second)).status == EXECUTED
  {
    var p := if first == c.creator then CREATOR else BRAND;
    SignAcceptedIff(c, first, p);
    InvStep(c, Sign(first));
    SecondSignature(Step(c, Sign(first)), second, p, first);
  }

  lemma ExecutedByTwo(c: Contract)
    requires Inv(c) && c.status == EXECUTED
    ensures c.creator != c.owner
  {
    var last := c.versions[|c.versions| - 1];
    assert GenuineSignatures(c, last);
    BothSigned(c, last);
  }

  /** A new version, sent and signed by both. */
  lemma Execute(c: Contract) returns (acts: seq<Action>)
    requires Inv(c) && c.status !in {EXECUTED, VOIDED} && c.creator != c.owner
    ensures Run(c, acts).status == EXECUTED
  {
    var t;
    CallAcceptedIff(c, CreateVersion(true));
    InvStep(c, CreateVersion(true));
    acts, t := Then(c, [], c, CreateVersion(true));
    CallAcceptedIff(t, SendForSignature);
    InvStep(t, SendForSignature);
    acts, t := Then(c, acts, t, SendForSignature);
    TwoSignaturesExecute(t, c.creator, c.owner);
    acts, t := Then(c, acts, t, Sign(c.creator));
    acts, t := Then(c, acts, t, Sign(c.owner));
  }

  /** Some run executes a contract exactly when it is executed, or not voided and its two parties are two people. */
  lemma ExecutableIff(c: Contract)
    requires Inv(c)
    ensures (exists acts :: Run(c, acts).status == EXECUTED)
            <==> c.status == EXECUTED || (c.status != VOIDED && c.creator != c.owner)
  {
    if c.status == EXECUTED {
      assert Run(c, []).status == EXECUTED;
    } else if c.status != VOIDED && c.creator != c.owner {
      var acts := Execute(c);
    } else {
      forall acts ensures Run(c, acts).status != EXECUTED {
        if c.status == VOIDED {
          FinalIsFrozen(c, acts);
        } else if Run(c, acts).status == EXECUTED {
          InvRun(c, acts);
          ExecutedByTwo(Run(c, acts));
        }
      }
    }
  }

  // ---- status and signatures agree, exactly when ----

  function SignatureCount(): Version -> int {
    (v: Version) => |v.signatures|
  }

  datatype Summary = Summary(status: Status, versions: int, signatures: int)

  function Apply(before: Summary, e: Event): Summary {
    match e
    case CREATED => before
    case VERSION_CREATED(_) => Summary(DRAFT, before.versions + 1, before.signatures)
    case SENT_FOR_SIGNATURE => before.(status := AWAITING_SIGNATURE)
    case SIGNED(_) => before.(status := PARTIALLY_SIGNED, signatures := before.signatures + 1)
    case FULLY_EXECUTED => before.(status := EXECUTED, signatures := before.signatures + 1)
    case CONTRACT_VOIDED => before.(status := VOIDED)
  }

  /** What the event history says happened. */
  function Replay(events: seq<Event>): Summary {
    if events == [] then Summary(DRAFT, 0, 0) else Apply(Replay(events[..|events| - 1]), events[|events| - 1])
  }

  /** What the status says about the signatures on the latest version. */
  predicate CountFollowsStatus(c: Contract)
    requires c.versions != []
  {
    var n := |c.versions[|c.versions| - 1].signatures|;
    match c.status
    case DRAFT => n == 0
    case AWAITING_SIGNATURE => n == 0
    case PARTIALLY_SIGNED => n == 1
    case EXECUTED => n == 2
    case VOIDED => n <= 1
  }

  /** The PDF of a new version throws while the previous version carries one signature. */
  predicate Unsigns(c: Contract, a: Action) {
    a == CreateVersion(false) && c.status == PARTIALLY_SIGNED
  }

  /** One call leaves a wrong number of signatures on the latest version, exactly when it is that one. */
  lemma CountStepIff(c: Contract, a: Action)
    requires Inv(c) && CountFollowsStatus(c)
    ensures CountFollowsStatus(Step(c, a)) <==> !Unsigns(c, a)
  {
    LatestIsLast(c.versions);
  }

  predicate CountFollowsAllAlong(c: Contract, acts: seq<Action>)
    requires c.versions != []
  {
    CountFollowsStatus(Run(c, acts)) && (acts != [] ==> CountFollowsAllAlong(c, acts[..|acts| - 1]))
  }

  predicate NeverUnsigns(c: Contract, acts: seq<Action>)
    requires c.versions != []
  {
    acts != [] ==>
      !Unsigns(Run(c, acts[..|acts| - 1]), acts[|acts| - 1]) && NeverUnsigns(c, acts[..|acts| - 1])
  }

  /** The count follows the status all along a run, exactly when no call of the run does that. */
  lemma {:induction false} CountRunIff(c: Contract, acts: seq<Action>)
    requires Inv(c) && CountFollowsStatus(c)
    ensures CountFollowsAllAlong(c, acts) <==> NeverUnsigns(c, acts)
  {
    if acts != [] {
      var before := acts[..|acts| - 1];
      CountRunIff(c, before);
      InvRun(c, before);
      if CountFollowsAllAlong(c, before) {
        CountStepIff(Run(c, before), acts[|acts| - 1]);
      }
    }
  }

  lemma FirstSignature(c: Contract)
    requires c.status == AWAITING_SIGNATURE && c.versions == [Version(1, [])]
    ensures var d := Step(c, Sign(c.creator)); d.status == PARTIALLY_SIGNED && |d.versions| == 1
  {
    assert !HasSigned(c.versions[0], CREATOR);
  }

  lemma UnsignedByFailure(c: Contract)
    requires c.versions != [] && c.status == PARTIALLY_SIGNED
    ensures !CountFollowsStatus(Step(c, CreateVersion(false)))
  {
  }

  /** Such a run: a PDF that fails under a partially signed contract leaves an unsigned latest version. */
  lemma FailedPdfLeavesUnsigned(creator: UserId, owner: UserId) returns (acts: seq<Action>)
    ensures !CountFollowsStatus(Run(Created(creator, owner, true), acts))
  {
    var c := Created(creator, owner, true);
    var t1, t2, t3;
    acts, t1 := Then(c, [], c, SendForSignature);
    FirstSignature(t1);
    acts, t2 := Then(c, acts, t1, Sign(creator));
    assert t2.status == PARTIALLY_SIGNED;
    UnsignedByFailure(t2);
    acts, t3 := Then(c, acts, t2, CreateVersion(false));
  }

  // ---- what the history misses ----

  /** The call writes its version and then throws before its event. */
  predicate LosesEvent(c: Contract, a: Action) {
    a == CreateVersion(false) && c.status !in {EXECUTED, VOIDED}
  }

  /** How many versions of a run went without their event. */
  function Lost(c: Contract, acts: seq<Action>): nat
    requires c.versions != []
  {
    if acts == [] then 0 else
    Lost(c, acts[..|acts| - 1]) + if LosesEvent(Run(c, acts[..|acts| - 1]), acts[|acts| - 1]) then 1 else 0
  }

  /** The history replays to the contract's status and signatures, and to its versions but for the lost ones. */
  ghost predicate Replays(c: Contract, lost: nat) {
    Replay(c.events) == Summary(c.status, |c.versions| - lost, Sum(c.versions, SignatureCount()))
  }

  lemma ReplayPush(events: seq<Event>, e: Event)
    ensures Replay(events + [e]) == Apply(Replay(events), e)
  {
    assert (events + [e])[..|events|] == events;
  }

  lemma ReplaysSign(c: Contract, user: UserId, lost: nat)
    requires Inv(c) && Replays(c, lost) && Attempt(c, Sign(user)).1 == Done
    ensures Replays(Step(c, Sign(user)), lost)
  {
    LatestIsLast(c.versions);
    var d, n := Step(c, Sign(user)), |c.versions| - 1;
    ReplayPush(c.events, d.events[|c.events|]);
    SumUpdate(c.versions, n, d.versions[n], SignatureCount());
  }

  lemma UnsignedVersion(versions: seq<Version>, number: nat)
    ensures Sum(versions + [Version(number, [])], SignatureCount()) == Sum(versions, SignatureCount())
  {
    SumPush(versions, Version(number, []), SignatureCount());
  }

  /** The version's row alone, and then its event. */
  lemma ReplaysRow(c: Contract, number: nat, lost: nat)
    requires Replays(c, lost)
    ensures Replays(c.(versions := c.versions + [Version(number, [])]), lost + 1)
  {
    UnsignedVersion(c.versions, number);
  }

  lemma ReplaysVersion(c: Contract, number: nat, lost: nat)
    requires Replays(c, lost + 1)
    ensures Replays(c.(status := DRAFT, events := c.events + [VERSION_CREATED(number)]), lost)
  {
    var e := VERSION_CREATED(number);
    ReplayPush(c.events, e);
    assert Apply(Replay(c.events), e) == Summary(DRAFT, |c.versions| - lost, Sum(c.versions, SignatureCount()));
  }

  lemma ReplaysAdd(c: Contract, pdfOk: bool, lost: nat)
    requires Inv(c) && Replays(c, lost) && c.status !in {EXECUTED, VOIDED}
    ensures Replays(Step(c, CreateVersion(pdfOk)), lost + if pdfOk then 0 else 1)
  {
    var next := c.versions[Latest(c.versions)].number + 1;
    ReplaysRow(c, next, lost);
    if pdfOk {
      ReplaysVersion(c.(versions := c.versions + [Version(next, [])]), next, lost);
    }
  }

  /** A call that changes only the status, and says so in the history. */
  lemma ReplaysMove(c: Contract, d: Contract, e: Event, lost: nat)
    requires Replays(c, lost) && d == c.(status := d.status, events := c.events + [e])
    requires (e == SENT_FOR_SIGNATURE && d.status == AWAITING_SIGNATURE) || (e == CONTRACT_VOIDED && d.status == VOIDED)
    ensures Replays(d, lost)
  {
    ReplayPush(c.events, e);
  }

  lemma ReplaysStep(c: Contract, a: Action, lost: nat)
    requires Inv(c) && Replays(c, lost)
    ensures Replays(Step(c, a), lost + if LosesEvent(c, a) then 1 else 0)
  {
    var d := Step(c, a);
    match a
    case Sign(user) => if Attempt(c, a).1 == Done { ReplaysSign(c, user, lost); }
    case CreateVersion(pdfOk) => if c.status !in {EXECUTED, VOIDED} { ReplaysAdd(c, pdfOk, lost); }
    case SendForSignature => if d != c { ReplaysMove(c, d, SENT_FOR_SIGNATURE, lost); }
    case Void => if d != c { ReplaysMove(c, d, CONTRACT_VOIDED, lost); }
  }

  lemma {:induction false} ReplaysRun(c: Contract, acts: seq<Action>, lost: nat)
    requires Inv(c) && Replays(c, lost)
    ensures Replays(Run(c, acts), lost + Lost(c, acts))
  {
    if acts != [] {
      var before := acts[..|acts| - 1];
      ReplaysRun(c, before, lost);
      InvRun(c, before);
      ReplaysStep(Run(c, before), acts[|acts| - 1], lost + Lost(c, before));
    }
  }

  lemma CreatedReplays(creator: UserId, owner: UserId, pdfOk: bool)
    ensures Replays(Created(creator, owner, pdfOk), if pdfOk then 0 else 1)
  {
    var c := Created(creator, owner, pdfOk);
    SumPush([], c.versions[0], SignatureCount());
    assert [] + [c.versions[0]] == c.versions;
    if pdfOk {
      ReplayPush([CREATED], VERSION_CREATED(1));
      assert [CREATED] + [VERSION_CREATED(1)] == c.events;
      ReplayPush([], CREATED);
      assert [] + [CREATED] == [CREATED];
    }
  }

  /**
    In every run, however PDFs fail: the history replays to the contract's status and to every signature
    ever made, and it misses exactly the versions whose PDF failed.  So it tells the whole story exactly
    when no PDF failed.
   */
  lemma HistoryIff(creator: UserId, owner: UserId, pdfOk: bool, acts: seq<Action>)
    ensures var c := Created(creator, owner, pdfOk);
            && Replays(Run(c, acts), Lost(c, acts) + if pdfOk then 0 else 1)
            && (Replays(Run(c, acts), 0) <==> pdfOk && Lost(c, acts) == 0)
  {
    CreatedInv(creator, owner, pdfOk);
    CreatedReplays(creator, owner, pdfOk);
    ReplaysRun(Created(creator, owner, pdfOk), acts, if pdfOk then 0 else 1);
  }

  lemma HistoryGrows(c: Contract, a: Action)
    requires c.versions != []
    ensures c.events <= Step(c, a).events
  {
  }

  /** No event is ever taken back: with its first PDF rendered, a contract's history begins with its creation. */
  lemma {:induction false} HistoryBegins(creator: UserId, owner: UserId, acts: seq<Action>)
    ensures [CREATED, VERSION_CREATED(1)] <= Run(Created(creator, owner, true), acts).events
  {
    if acts != [] {
      HistoryBegins(creator, owner, acts[..|acts| - 1]);
      HistoryGrows(Run(Created(creator, owner, true), acts[..|acts| - 1]), acts[|acts| - 1]);
    }
  }

  // ---- the services, on one contract's rows ----

  class ContractServices {
    const creator: UserId
    const owner: UserId
    var status: Status
    var versions: seq<Version>
    var events: seq<Event>

    ghost function View(): Contract
      reads this
    {
      Contract(status, creator, owner, versions, events)
    }

    constructor (creator: UserId, owner: UserId, pdfOk: bool)
      ensures View() == Created(creator, owner, pdfOk) && Inv(View())
    {
      this.creator, this.owner, status := creator, owner, DRAFT;
      versions, events := [Version(1, [])], [];
      new;
      if pdfOk {
        events := events + [CREATED] + [VERSION_CREATED(1)];
      }
      CreatedInv(creator, owner, pdfOk);
    }

    method AddVersion(pdfOk: bool) returns (outcome: Outcome)
      requires versions != []
      modifies this`versions, this`status, this`events
      ensures (View(), outcome) == Attempt(old(View()), CreateVersion(pdfOk))
    {
      if status == EXECUTED || status == VOIDED {
        return Conflict;
      }
      var next := versions[Latest(versions)].number + 1;
      versions := versions + [Version(next, [])];
      if !pdfOk {
        return Threw;   // the version stays, the status and the history do not follow
      }
      status := DRAFT;
      events := events + [VERSION_CREATED(next)];
      return Done;
    }

    method Send() returns (outcome: Outcome)
      requires versions != []
      modifies this`status, this`events
      ensures (View(), outcome) == Attempt(old(View()), SendForSignature)
    {
      if status != DRAFT {
        return Conflict;
      }
      status := AWAITING_SIGNATURE;
      events := events + [SENT_FOR_SIGNATURE];
      return Done;
    }

    method VoidContract() returns (outcome: Outcome)
      requires versions != []
      modifies this`status, this`events
      ensures (View(), outcome) == Attempt(old(View()), Void)
    {
      if status == EXECUTED || status == VOIDED {
        return Conflict;
      }
      status := VOIDED;
      events := events + [CONTRACT_VOIDED];
      return Done;
    }

    method SignContract(user: UserId) returns (outcome: Outcome)
      requires versions != []
      modifies this`versions, this`status, this`events
      ensures (View(), outcome) == Attempt(old(View()), Sign(user))
    {
      if status != AWAITING_SIGNATURE && status != PARTIALLY_SIGNED {
        return Conflict;
      }
      var party := if user == creator then Some(CREATOR) else if user == owner then Some(BRAND) else None;
      if party.None? {
        return Forbidden;
      }
      var k := Latest(versions);
      if HasSigned(versions[k], party.value) {
        return Conflict;
      }
      versions := versions[k := versions[k].(signatures := versions[k].signatures + [Signature(party.value, user)])];
      if |versions[k].signatures| >= 2 {
        status := EXECUTED;
        events := events + [FULLY_EXECUTED];
      } else {
        status := PARTIALLY_SIGNED;
        events := events + [SIGNED(party.value)];
      }
      return Done;
    }
  }
}
