/**
  Deduplication of Stripe's `payment_intent.succeeded` (src/payments/services/webhook.service.ts):
  any number of concurrent deliveries of one event, each advancing one awaited call at a
  time, any call of which may throw and any process of which may die.
 */
module WebhookDedup {
  import opened Util
  import L = RedisLock

  const LOCK_TTL_MS: nat := 30000

  datatype PaymentStatus = REQUIRES_PAYMENT | PROCESSING | SUCCEEDED | FAILED | CANCELLED | REFUNDED

  datatype Payment = Payment(status: PaymentStatus, amount: int)

  /** The call a delivery holding the lock makes next. */
  datatype Stage = Recheck | Find | Commit | Schedule | Charge | Record | Release

  datatype Delivery =
    | Absent
    | Arrived
    | Unlocked                                         // first check passed, lock not taken yet
    | Locked(stage: Stage, token: nat, deadline: nat)
    | Done
    | Crashed

  /** `outbox` lists the payload amounts of this payment's outbox rows, `charges` its CHARGE rows. */
  datatype State = State(
    now: nat,
    cell: Option<L.Entry>,
    nextToken: nat,
    payment: Option<Payment>,
    outbox: seq<int>,
    charges: seq<int>,
    entered: nat,           // how many times the payment was moved to SUCCEEDED
    processed: bool,        // the webhook_events row exists
    deliveries: map<nat, Delivery>)
  {
    function D(i: nat): Delivery {
      if i in deliveries then deliveries[i] else Absent
    }

    function Put(i: nat, d: Delivery): State {
      this.(deliveries := deliveries[i := d])
    }

    /** Holding the lock, and the payment's status still to be written. */
    predicate Critical(i: nat) {
      D(i).Locked? && (D(i).stage == Recheck || D(i).stage == Find || D(i).stage == Commit)
    }

    /** Past its commit, and the CHARGE row still to be written. */
    predicate AboutToCharge(i: nat) {
      D(i).Locked? && (D(i).stage == Schedule || D(i).stage == Charge)
    }
  }

  /** Whether no delivery is still short of its commit when its lock runs out. */
  datatype Env = Env(ttlRespected: bool)

  datatype Action = Tick(d: nat) | Arrive(i: nat) | Next(i: nat) | Fail(i: nat) | Crash(i: nat)

  function Init(payment: Option<Payment>): State {
    State(0, None, 0, payment, [], [], 0, false, map[])
  }

  function MarkSucceeded(s: State): State
    requires s.payment.Some?
  {
    s.(payment := Some(s.payment.value.(status := SUCCEEDED)),
       outbox := s.outbox + [s.payment.value.amount],
       entered := s.entered + 1)
  }

  /** The next awaited call of a delivery that holds the lock. */
  function Advance(s: State, i: nat): State
    requires s.D(i).Locked?
  {
    var d := s.D(i);
    match d.stage
    case Recheck => s.Put(i, d.(stage := if s.processed then Release else Find))
    case Find =>
      s.Put(i, d.(stage := if s.payment == None || s.payment.value.status == SUCCEEDED then Record else Commit))
    case Commit =>
      if s.payment == None then s else MarkSucceeded(s).Put(i, d.(stage := Schedule))
    case Schedule => s.Put(i, d.(stage := Charge))
    case Charge =>
      if s.payment == None then s else
      s.(charges := s.charges + [-s.payment.value.amount]).Put(i, d.(stage := Record))
    case Record => s.(processed := true).Put(i, d.(stage := Release))  // the unique key makes a second create throw
    case Release => s.(cell := L.DeleteIfOwner(s.cell, s.now, d.token)).Put(i, Done)
  }

  function Step(env: Env, s: State, a: Action): State {
    match a
    case Tick(d) =>
      if env.ttlRespected && exists i :: i in s.deliveries && s.Critical(i) && s.D(i).deadline <= s.now + d
      then s else s.(now := s.now + d)
    case Arrive(i) => if s.D(i) == Absent then s.Put(i, Arrived) else s
    case Next(i) =>
      (match s.D(i)
       case Arrived => s.Put(i, if s.processed then Done else Unlocked)
       case Unlocked =>
         if L.Live(s.cell, s.now).Some? then s.Put(i, Done) else
         s.(cell := L.SetNx(s.cell, s.now, s.nextToken, LOCK_TTL_MS), nextToken := s.nextToken + 1)
          .Put(i, Locked(Recheck, s.nextToken, s.now + LOCK_TTL_MS))
       case Locked(_, _, _) => Advance(s, i)
       case _ => s)
    case Fail(i) =>
      (match s.D(i)
       case Arrived => s.Put(i, Done)
       case Unlocked => s.Put(i, Done)
       case Locked(stage, _, _) =>
         if stage == Release then s.Put(i, Done) else s.Put(i, s.D(i).(stage := Release))
       case _ => s)
    case Crash(i) => if s.D(i) == Absent then s else s.Put(i, Crashed)
  }

  function Run(env: Env, s: State, acts: seq<Action>): State {
    if acts == [] then s else Step(env, Run(env, s, acts[..|acts| - 1]), acts[|acts| - 1])
  }

  /** Extends a run that has reached t by one action. */
  lemma Then(env: Env, s: State, acts: seq<Action>, t: State, a: Action) returns (acts': seq<Action>, t': State)
    requires t == Run(env, s, acts)
    ensures t' == Step(env, t, a) == Run(env, s, acts')
  {
    acts', t' := acts + [a], Step(env, t, a);
    assert acts'[..|acts|] == acts;
  }

  // ---- the guarantee ----

  /** The payment enters SUCCEEDED at most once, together with its one outbox row, and is charged at most once. */
  ghost predicate Sound(s: State) {
    && s.entered == |s.outbox| <= 1
    && |s.charges| <= |s.outbox|
    && (s.payment.Some? ==>
          && (s.payment.value.status == SUCCEEDED <==> |s.outbox| == 1)
          && (|s.outbox| == 1 ==> s.outbox[0] == s.payment.value.amount)
          && (|s.charges| == 1 ==> s.charges[0] == -s.payment.value.amount))
  }

  ghost predicate Settled(s: State) {
    s.payment == None || s.payment.value.status == SUCCEEDED
  }

  ghost predicate StageInv(s: State, i: nat)
    requires s.D(i).Locked?
  {
    match s.D(i).stage
    case Commit => s.payment.Some? && s.payment.value.status != SUCCEEDED
    case Schedule => s.payment.Some? && |s.outbox| == 1 && s.charges == []
    case Charge => s.payment.Some? && |s.outbox| == 1 && s.charges == []
    case Record => Settled(s)
    case _ => true
  }

  ghost predicate Inv(s: State) {
    && Sound(s)
    && (s.processed ==> Settled(s))
    && (s.cell.Some? ==> s.cell.value.token < s.nextToken)
    && (forall i :: s.D(i).Locked? ==> s.D(i).token < s.nextToken && StageInv(s, i))
    && (forall i :: s.Critical(i) ==> s.now < s.D(i).deadline && s.cell == Some(L.Entry(s.D(i).token, s.D(i).deadline)))
    && (forall i, j :: s.D(i).Locked? && s.D(j).Locked? && i != j ==> s.D(i).token != s.D(j).token)
    && (forall i, j :: s.AboutToCharge(i) && s.AboutToCharge(j) ==> i == j)
  }

  lemma OnlyOneInSection(s: State, i: nat, j: nat)
    requires Inv(s) && s.Critical(i) && s.Critical(j)
    ensures i == j
  {
  }

  /** A step of delivery i that leaves the lock and the tables alone. */
  lemma InvMove(s: State, i: nat, d: Delivery)
    requires Inv(s)
    requires d.Locked? ==> s.D(i).Locked? && d.token == s.D(i).token && d.deadline == s.D(i).deadline
    requires var t := s.Put(i, d);
             && (t.Critical(i) ==> s.Critical(i)) && (t.AboutToCharge(i) ==> s.AboutToCharge(i))
             && (d.Locked? ==> StageInv(t, i))
    ensures Inv(s.Put(i, d))
  {
    var t := s.Put(i, d);
    assert forall j :: j != i ==>
             t.D(j) == s.D(j) && t.Critical(j) == s.Critical(j) && t.AboutToCharge(j) == s.AboutToCharge(j);
    forall j | t.D(j).Locked? ensures StageInv(t, j) {
      if j != i { assert StageInv(s, j); }
    }
  }

  /** Delivery i writes the tables, and what the others know of them stays true. */
  lemma InvWrite(s: State, i: nat, t: State)
    requires Inv(s) && s.D(i).Locked? && t.D(i).Locked?
    requires t == s.(payment := t.payment, outbox := t.outbox, charges := t.charges, entered := t.entered,
                     processed := t.processed).Put(i, s.D(i).(stage := t.D(i).stage))
    requires Sound(t) && (t.processed ==> Settled(t)) && StageInv(t, i) && !t.Critical(i)
    requires t.AboutToCharge(i) ==> forall j :: j != i ==> !s.AboutToCharge(j)
    requires forall j :: j != i && s.D(j).Locked? ==> StageInv(t, j)
    ensures Inv(t)
  {
    assert forall j :: j != i ==>
             t.D(j) == s.D(j) && t.Critical(j) == s.Critical(j) && t.AboutToCharge(j) == s.AboutToCharge(j);
  }

  lemma InvCommit(s: State, i: nat)
    requires Inv(s) && s.D(i).Locked? && s.D(i).stage == Commit
    ensures Inv(Advance(s, i))
  {
    assert StageInv(s, i);
    var t := Advance(s, i);
    forall j | j != i && s.D(j).Locked? ensures StageInv(t, j) && !s.AboutToCharge(j) {
      assert StageInv(s, j) && t.D(j) == s.D(j);
      if s.Critical(j) { OnlyOneInSection(s, i, j); }
    }
    InvWrite(s, i, t);
  }

  lemma InvRows(s: State, i: nat)
    requires Inv(s) && s.D(i).Locked? && (s.D(i).stage == Charge || s.D(i).stage == Record)
    ensures Inv(Advance(s, i))
  {
    assert StageInv(s, i);
    var t := Advance(s, i);
    forall j | j != i && s.D(j).Locked? ensures StageInv(t, j) {
      assert StageInv(s, j) && t.D(j) == s.D(j);
      assert s.AboutToCharge(i) ==> !s.AboutToCharge(j);
    }
    InvWrite(s, i, t);
  }

  lemma InvAdvance(s: State, i: nat)
    requires Inv(s) && s.D(i).Locked?
    ensures Inv(Advance(s, i))
  {
    assert StageInv(s, i);
    match s.D(i).stage
    case Recheck => InvMove(s, i, s.D(i).(stage := if s.processed then Release else Find));
    case Find => InvMove(s, i, s.D(i).(stage := if Settled(s) then Record else Commit));
    case Commit => InvCommit(s, i);
    case Schedule => InvMove(s, i, s.D(i).(stage := Charge));
    case Charge => InvRows(s, i);
    case Record => InvRows(s, i);
    case Release => InvRelease(s, i);
  }

  /** A release only removes the releaser's own entry. */
  lemma InvRelease(s: State, i: nat)
    requires Inv(s) && s.D(i).Locked? && s.D(i).stage == Release
    ensures Inv(Advance(s, i))
  {
    var t := Advance(s, i);
    assert forall j :: j != i ==>
             t.D(j) == s.D(j) && t.Critical(j) == s.Critical(j) && t.AboutToCharge(j) == s.AboutToCharge(j);
    forall j | t.D(j).Locked? ensures StageInv(t, j) {
      assert StageInv(s, j);
    }
  }

  /** A delivery gets the lock only when nobody is in the section. */
  lemma InvAcquire(env: Env, s: State, i: nat)
    requires Inv(s) && s.D(i) == Unlocked
    ensures Inv(Step(env, s, Next(i)))
  {
    if L.Live(s.cell, s.now).Some? {
      InvMove(s, i, Done);
    } else {
      assert forall j :: !s.Critical(j);
      InvGranted(env, s, i);
    }
  }

  lemma InvGranted(env: Env, s: State, i: nat)
    requires Inv(s) && s.D(i) == Unlocked && L.Live(s.cell, s.now) == None && forall j :: !s.Critical(j)
    ensures Inv(Step(env, s, Next(i)))
  {
    var t := Step(env, s, Next(i));
    assert forall j :: j != i ==> t.D(j) == s.D(j) && !t.Critical(j) && t.AboutToCharge(j) == s.AboutToCharge(j);
    forall j | t.D(j).Locked? ensures StageInv(t, j) {
      if j != i { assert StageInv(s, j); }
    }
  }

  lemma InvTick(env: Env, s: State, d: nat)
    requires env.ttlRespected && Inv(s)
    ensures Inv(Step(env, s, Tick(d)))
  {
    var t := Step(env, s, Tick(d));
    assert forall i ::
             t.D(i) == s.D(i) && t.Critical(i) == s.Critical(i) && t.AboutToCharge(i) == s.AboutToCharge(i);
    forall i | t.D(i).Locked? ensures StageInv(t, i) {
      assert StageInv(s, i);
    }
    forall i | t.Critical(i) ensures t.now < t.D(i).deadline {
      assert i in s.deliveries && s.Critical(i);
    }
  }

  lemma InvStep(env: Env, s: State, a: Action)
    requires env.ttlRespected && Inv(s)
    ensures Inv(Step(env, s, a))
  {
    match a
    case Tick(d) => InvTick(env, s, d);
    case Arrive(i) => if s.D(i) == Absent { InvMove(s, i, Arrived); }
    case Next(i) =>
      if s.D(i).Locked? {
        InvAdvance(s, i);
      } else if s.D(i) == Unlocked {
        InvAcquire(env, s, i);
      } else if s.D(i) == Arrived {
        InvMove(s, i, if s.processed then Done else Unlocked);
      }
    case Fail(i) =>
      if s.D(i).Locked? && s.D(i).stage != Release {
        InvMove(s, i, s.D(i).(stage := Release));
      } else if s.D(i) == Arrived || s.D(i) == Unlocked || s.D(i).Locked? {
        InvMove(s, i, Done);
      }
    case Crash(i) => if s.D(i) != Absent { InvMove(s, i, Crashed); }
  }

  lemma {:induction false} InvRun(env: Env, s: State, acts: seq<Action>)
    requires env.ttlRespected && Inv(s)
    ensures Inv(Run(env, s, acts))
  {
    if acts != [] {
      InvRun(env, s, acts[..|acts| - 1]);
      InvStep(env, Run(env, s, acts[..|acts| - 1]), acts[|acts| - 1]);
    }
  }

  // ---- for all runs, and exactly when ----

  lemma InitInv(payment: Option<Payment>)
    requires payment.Some? ==> payment.value.status != SUCCEEDED
    ensures Inv(Init(payment))
  {
  }

  // ---- with any timing: what every run keeps, and the step that breaks soundness ----

  predicate AtCommit(s: State, i: nat) {
    s.D(i).Locked? && s.D(i).stage == Commit
  }

  ghost predicate Remembers(s: State, i: nat)
    requires s.D(i).Locked?
  {
    match s.D(i).stage
    case Commit => s.payment.Some?
    case Schedule => s.payment.Some? && s.payment.value.status == SUCCEEDED
    case Charge => s.payment.Some? && s.payment.value.status == SUCCEEDED
    case Record => Settled(s)
    case _ => true
  }

  ghost predicate ChargedOnce(s: State) {
    && |s.charges| <= |s.outbox|
    && (forall i, j :: s.AboutToCharge(i) && s.AboutToCharge(j) ==> i == j)
    && (forall i :: s.AboutToCharge(i) ==> s.charges == [])
  }

  /** What holds however long the critical sections take. */
  ghost predicate WeakInv(s: State) {
    && s.entered == |s.outbox|
    && (s.payment == None ==> s.outbox == [] && s.charges == [])
    && (s.payment.Some? ==>
          && (s.payment.value.status == SUCCEEDED <==> s.outbox != [])
          && (forall k :: 0 <= k < |s.outbox| ==> s.outbox[k] == s.payment.value.amount)
          && (forall k :: 0 <= k < |s.charges| ==> s.charges[k] == -s.payment.value.amount))
    && (s.processed ==> Settled(s))
    && (forall i :: s.D(i).Locked? ==> Remembers(s, i))
    && (|s.outbox| <= 1 ==> ChargedOnce(s))
  }

  /** Delivery i moves, and payment, outbox and charges stay as they are. */
  lemma WeakMove(s: State, i: nat, t: State)
    requires WeakInv(s) && t.payment == s.payment && t.outbox == s.outbox && t.charges == s.charges
             && t.entered == s.entered
    requires (forall j :: j != i ==> t.D(j) == s.D(j)) && (t.processed ==> Settled(s))
    requires (t.AboutToCharge(i) ==> s.AboutToCharge(i)) && (t.D(i).Locked? ==> Remembers(t, i))
    ensures WeakInv(t)
  {
    assert forall j :: t.AboutToCharge(j) ==> s.AboutToCharge(j);
    forall j | t.D(j).Locked? ensures Remembers(t, j) {
      if j != i { assert Remembers(s, j); }
    }
  }

  lemma WeakCommit(s: State, i: nat)
    requires WeakInv(s) && AtCommit(s, i)
    ensures WeakInv(Advance(s, i))
  {
    var t := Advance(s, i);
    assert Remembers(s, i);
    assert forall j :: j != i ==> t.D(j) == s.D(j) && t.AboutToCharge(j) == s.AboutToCharge(j);
    forall j | t.D(j).Locked? ensures Remembers(t, j) && (s.outbox == [] && j != i ==> !s.AboutToCharge(j)) {
      if j != i { assert Remembers(s, j); }
    }
  }

  lemma WeakCharge(s: State, i: nat)
    requires WeakInv(s) && s.D(i).Locked? && s.D(i).stage == Charge
    ensures WeakInv(Advance(s, i))
  {
    var t := Advance(s, i);
    assert Remembers(s, i) && s.AboutToCharge(i);
    assert forall j :: j != i ==> t.D(j) == s.D(j) && t.AboutToCharge(j) == s.AboutToCharge(j);
    forall j | t.D(j).Locked? ensures Remembers(t, j) {
      if j != i { assert Remembers(s, j); }
    }
  }

  lemma WeakAdvance(s: State, i: nat)
    requires WeakInv(s) && s.D(i).Locked?
    ensures WeakInv(Advance(s, i))
  {
    assert Remembers(s, i);
    if AtCommit(s, i) {
      WeakCommit(s, i);
    } else if s.D(i).stage == Charge {
      WeakCharge(s, i);
    } else {
      WeakMove(s, i, Advance(s, i));
    }
  }

  lemma WeakTick(env: Env, s: State, d: nat)
    requires WeakInv(s)
    ensures WeakInv(Step(env, s, Tick(d)))
  {
    var t := Step(env, s, Tick(d));
    assert t == s.(now := t.now);
    assert forall j :: t.D(j) == s.D(j) && t.AboutToCharge(j) == s.AboutToCharge(j);
    forall j | t.D(j).Locked? ensures Remembers(t, j) {
      assert Remembers(s, j);
    }
  }

  lemma WeakStep(env: Env, s: State, a: Action)
    requires WeakInv(s)
    ensures WeakInv(Step(env, s, a))
  {
    if a.Tick? {
      WeakTick(env, s, a.d);
    } else {
      assert s.D(a.i).Locked? ==> Remembers(s, a.i);
      if a.Next? && s.D(a.i).Locked? {
        WeakAdvance(s, a.i);
      } else {
        WeakMove(s, a.i, Step(env, s, a));
      }
    }
  }

  lemma {:induction false} WeakRun(env: Env, s: State, acts: seq<Action>)
    requires WeakInv(s)
    ensures WeakInv(Run(env, s, acts)) && (s.payment.Some? ==> Run(env, s, acts).payment.Some?)
  {
    if acts != [] {
      WeakRun(env, s, acts[..|acts| - 1]);
      WeakStep(env, Run(env, s, acts[..|acts| - 1]), acts[|acts| - 1]);
    }
  }

  // ---- what one delivery does, call by call ----

  /** The lock is free, or held by somebody for thirty seconds from when it was taken. */
  lemma LockTakenIff(env: Env, s: State, i: nat)
    requires s.D(i) == Unlocked
    ensures var t := Step(env, s, Next(i));
            if L.Live(s.cell, s.now) == None
            then t.D(i) == Locked(Recheck, s.nextToken, s.now + 30000)
                 && t.cell == Some(L.Entry(s.nextToken, s.now + 30000)) && t.nextToken == s.nextToken + 1
            else t == s.Put(i, Done)
  {
  }

  /** Once the event is recorded, a delivery that checks ends there: before the lock, or right after taking it. */
  lemma RecordedEventIsSkipped(env: Env, s: State, i: nat)
    requires s.processed
    ensures s.D(i) == Arrived ==> Step(env, s, Next(i)) == s.Put(i, Done)
    ensures s.D(i).Locked? && s.D(i).stage == Recheck ==> Step(env, s, Next(i)) == s.Put(i, s.D(i).(stage := Release))
  {
  }

  /** A call that throws under the lock leads to the release and writes nothing; only a release that throws keeps it. */
  lemma FaultLeadsToRelease(env: Env, s: State, i: nat)
    requires s.D(i).Locked? && s.cell == Some(L.Entry(s.D(i).token, s.D(i).deadline)) && s.now < s.D(i).deadline
    ensures var t := Step(env, s, Fail(i));
            if s.D(i).stage == Release then t == s.Put(i, Done)
            else t == s.Put(i, s.D(i).(stage := Release)) && Step(env, t, Next(i)) == s.(cell := None).Put(i, Done)
  {
    var t := Step(env, s, Fail(i));
    if s.D(i).stage != Release {
      assert t.deliveries[i := Done] == s.deliveries[i := Done];
    }
  }

  /** A fault before the lock ends the delivery, and a process that dies leaves everything as it was. */
  lemma EarlyFaultOrCrashEnds(env: Env, s: State, i: nat)
    ensures s.D(i) == Arrived || s.D(i) == Unlocked ==> Step(env, s, Fail(i)) == s.Put(i, Done)
    ensures s.D(i) != Absent ==> Step(env, s, Crash(i)) == s.Put(i, Crashed)
  {
  }

  /** Which call writes what: nothing else ever touches the payment, its outbox rows, its CHARGE rows or the record. */
  lemma WritesIff(env: Env, s: State, a: Action)
    requires WeakInv(s) && s.payment.Some?
    ensures var t := Step(env, s, a);
            var at := (stage: Stage) => a.Next? && s.D(a.i).Locked? && s.D(a.i).stage == stage;
            && t.payment == (if at(Commit) then Some(s.payment.value.(status := SUCCEEDED)) else s.payment)
            && t.outbox == s.outbox + (if at(Commit) then [s.payment.value.amount] else [])
            && t.charges == s.charges + (if at(Charge) then [-s.payment.value.amount] else [])
            && (t.processed <==> s.processed || at(Record))
  {
  }

  /** The step that breaks soundness is a commit on what was read before another delivery committed, and no other. */
  lemma UnsoundStepIff(env: Env, s: State, a: Action)
    requires WeakInv(s) && Sound(s) && s.payment.Some?
    ensures !Sound(Step(env, s, a)) <==> a.Next? && AtCommit(s, a.i) && s.payment.value.status == SUCCEEDED
  {
    WeakStep(env, s, a);
  }

  /** Waits until the lock is free, and gives it to a new delivery. */
  lemma ReachLock(s: State, acts0: seq<Action>, t0: State, i: nat) returns (acts: seq<Action>, t: State)
    requires t0 == Run(Env(false), s, acts0) && i !in t0.deliveries && !t0.processed
    ensures t == Run(Env(false), s, acts) && t.D(i).Locked? && t.D(i).stage == Recheck
    ensures !t.processed && t.payment == t0.payment && t.deliveries == t0.deliveries[i := t.D(i)]
  {
    var wait: nat := if L.Live(t0.cell, t0.now).Some? then t0.cell.value.expiresAt - t0.now else 0;
    acts, t := Then(Env(false), s, acts0, t0, Tick(wait));
    assert L.Live(t.cell, t.now) == None;
    acts, t := Then(Env(false), s, acts, t, Arrive(i));
    acts, t := Then(Env(false), s, acts, t, Next(i));
    acts, t := Then(Env(false), s, acts, t, Next(i));
  }

  /** There it reads the payment as not settled. */
  lemma ReachCommit(s: State, acts0: seq<Action>, t0: State, i: nat) returns (acts: seq<Action>, t: State)
    requires t0 == Run(Env(false), s, acts0) && i !in t0.deliveries
    requires !t0.processed && t0.payment.Some? && t0.payment.value.status != SUCCEEDED
    ensures t == Run(Env(false), s, acts) && AtCommit(t, i)
    ensures !t.processed && t.payment == t0.payment && t.deliveries == t0.deliveries[i := t.D(i)]
  {
    acts, t := ReachLock(s, acts0, t0, i);
    acts, t := Then(Env(false), s, acts, t, Next(i));
    acts, t := Then(Env(false), s, acts, t, Next(i));
  }

  /** From any state with the payment not settled: two deliveries, the first one's lock run out, commit twice. */
  lemma ExpiredLockCommitsTwice(s: State) returns (acts: seq<Action>)
    requires WeakInv(s) && s.payment.Some? && s.payment.value.status != SUCCEEDED
    ensures |Run(Env(false), s, acts).outbox| == 2
  {
    var t;
    var i := Bound(s.deliveries.Keys);
    acts, t := ReachCommit(s, [], s, i);
    var j := Bound(t.deliveries.Keys);
    acts, t := ReachCommit(s, acts, t, j);
    WeakRun(Env(false), s, acts);
    assert t.outbox == [] && AtCommit(t, i) && AtCommit(t, j) && i != j;
    acts, t := Then(Env(false), s, acts, t, Next(i));
    assert |t.outbox| == 1 && AtCommit(t, j);
    acts, t := Then(Env(false), s, acts, t, Next(j));
  }

  ghost predicate NoCommitLeft(s: State) {
    && WeakInv(s) && Sound(s) && s.payment.Some? && s.payment.value.status == SUCCEEDED
    && forall i :: !AtCommit(s, i)
  }

  lemma {:induction false} NoCommitLater(env: Env, s: State, acts: seq<Action>)
    requires NoCommitLeft(s)
    ensures NoCommitLeft(Run(env, s, acts))
  {
    if acts != [] {
      NoCommitLater(env, s, acts[..|acts| - 1]);
      var t, a := Run(env, s, acts[..|acts| - 1]), acts[|acts| - 1];
      UnsoundStepIff(env, t, a);
      WeakStep(env, t, a);
      assert forall j :: AtCommit(Step(env, t, a), j) ==> AtCommit(t, j);
    }
  }

  /**
    With any timing, a sound state can still turn unsound exactly when the payment is not settled yet, or
    a delivery that read it before it was settled has still to commit.
   */
  lemma CanTurnUnsoundIff(s: State)
    requires WeakInv(s) && Sound(s) && s.payment.Some?
    ensures (exists acts :: !Sound(Run(Env(false), s, acts)))
            <==> s.payment.value.status != SUCCEEDED || exists i :: AtCommit(s, i)
  {
    if s.payment.value.status != SUCCEEDED {
      var acts := ExpiredLockCommitsTwice(s);
      assert !Sound(Run(Env(false), s, acts));
    } else if i :| AtCommit(s, i) {
      var acts, t := Then(Env(false), s, [], s, Next(i));
      assert !Sound(Run(Env(false), s, acts));
    } else {
      forall acts ensures Sound(Run(Env(false), s, acts)) {
        NoCommitLater(Env(false), s, acts);
      }
    }
  }

  /** Every run is sound, exactly when no lock runs out on a delivery that has still to commit. */
  lemma SoundIffTtlRespected(env: Env, payment: Payment)
    requires payment.status != SUCCEEDED
    ensures (forall acts :: Sound(Run(env, Init(Some(payment)), acts))) <==> env.ttlRespected
  {
    if env.ttlRespected {
      InitInv(Some(payment));
      forall acts ensures Sound(Run(env, Init(Some(payment)), acts)) {
        InvRun(env, Init(Some(payment)), acts);
      }
    } else {
      assert env == Env(false);
      var acts := ExpiredLockCommitsTwice(Init(Some(payment)));
    }
  }

  ghost predicate Uncharged(s: State) {
    && WeakInv(s)
    && s.payment.Some? && s.payment.value.status == SUCCEEDED && s.charges == []
    && forall i :: !s.AboutToCharge(i) && !AtCommit(s, i)
  }

  lemma UnchargedStep(env: Env, s: State, a: Action)
    requires Uncharged(s)
    ensures Uncharged(Step(env, s, a))
  {
    var t := Step(env, s, a);
    WeakStep(env, s, a);
    if a.Tick? {
      assert forall j :: t.D(j) == s.D(j);
    } else {
      assert !s.AboutToCharge(a.i) && !AtCommit(s, a.i);
      assert forall j :: j != a.i ==> t.D(j) == s.D(j);
    }
    forall j ensures !t.AboutToCharge(j) && !AtCommit(t, j) {
      assert !s.AboutToCharge(j) && !AtCommit(s, j);
    }
  }

  lemma {:induction false} NoChargeLater(env: Env, s: State, acts: seq<Action>)
    requires Uncharged(s)
    ensures Uncharged(Run(env, s, acts))
  {
    if acts != [] {
      NoChargeLater(env, s, acts[..|acts| - 1]);
      UnchargedStep(env, Run(env, s, acts[..|acts| - 1]), acts[|acts| - 1]);
    }
  }

  /** A delivery past its commit, left alone, writes the row. */
  lemma ChargeNow(env: Env, s: State, acts0: seq<Action>, t0: State, i: nat) returns (acts: seq<Action>)
    requires t0 == Run(env, s, acts0) && t0.payment.Some? && t0.AboutToCharge(i)
    ensures Run(env, s, acts).charges != []
  {
    var t := t0;
    acts := acts0;
    if t0.D(i).stage == Schedule {
      acts, t := Then(env, s, acts, t, Next(i));
    }
    assert t.payment == t0.payment && t.D(i).Locked? && t.D(i).stage == Charge;
    acts, t := Then(env, s, acts, t, Next(i));
    assert |t.charges| > 0;
  }

  /**
    The CHARGE row is not part of the transaction.  Once the payment is SUCCEEDED it can still be written, with
    any timing, exactly when it is there already, or a delivery past its commit is still on its way to it, or one
    that read the payment before has still to commit.  Otherwise every retry returns at the status check, and the
    row never appears.
   */
  lemma ChargeReachableIff(env: Env, s: State)
    requires WeakInv(s) && s.payment.Some? && s.payment.value.status == SUCCEEDED
    ensures (exists acts :: Run(env, s, acts).charges != [])
            <==> s.charges != [] || exists i :: s.AboutToCharge(i) || AtCommit(s, i)
  {
    if s.charges != [] {
      assert Run(env, s, []).charges != [];
    } else if i :| s.AboutToCharge(i) || AtCommit(s, i) {
      var acts, t := [], s;
      if AtCommit(s, i) {
        acts, t := Then(env, s, acts, t, Next(i));
      }
      acts := ChargeNow(env, s, acts, t, i);
    } else {
      forall acts ensures Run(env, s, acts).charges == [] {
        NoChargeLater(env, s, acts);
      }
    }
  }

  /**
    Such a run: scheduling the dispatch throws, the retry finds SUCCEEDED, and the event is recorded with no CHARGE
    row.
   */
  lemma ChargeCanBeLost(payment: Payment) returns (acts: seq<Action>)
    requires payment.status != SUCCEEDED
    ensures var t := Run(Env(true), Init(Some(payment)), acts);
            t.processed && t.payment == Some(payment.(status := SUCCEEDED)) && t.charges == []
  {
    var env, s := Env(true), Init(Some(payment));
    var t := s;
    acts, t := Then(env, s, [], t, Arrive(0));
    acts, t := Then(env, s, acts, t, Next(0));
    acts, t := Then(env, s, acts, t, Next(0));
    acts, t := Then(env, s, acts, t, Next(0));
    acts, t := Then(env, s, acts, t, Next(0));
    acts, t := Then(env, s, acts, t, Next(0));
    assert t.D(0) == Locked(Schedule, 0, LOCK_TTL_MS);
    assert t.payment == Some(payment.(status := SUCCEEDED)) && t.charges == [];
    acts, t := Then(env, s, acts, t, Fail(0));
    acts, t := Then(env, s, acts, t, Next(0));
    assert t.cell == None && t.deliveries == map[0 := Done];
    acts := RetryWithoutCharge(env, s, acts, t);
  }

  lemma RetryWithoutCharge(env: Env, s: State, acts0: seq<Action>, t0: State) returns (acts: seq<Action>)
    requires t0 == Run(env, s, acts0)
    requires !t0.processed && t0.cell == None && t0.deliveries == map[0 := Done]
    requires t0.payment.Some? && t0.payment.value.status == SUCCEEDED && t0.charges == []
    requires t0.nextToken == 1 && t0.now == 0
    ensures var t := Run(env, s, acts); t.processed && t.payment == t0.payment && t.charges == []
  {
    var t;
    acts, t := Then(env, s, acts0, t0, Arrive(1));
    acts, t := Then(env, s, acts, t, Next(1));
    acts, t := Then(env, s, acts, t, Next(1));
    acts, t := Then(env, s, acts, t, Next(1));
    acts, t := Then(env, s, acts, t, Next(1));
    assert t.D(1) == Locked(Record, 1, LOCK_TTL_MS);
    acts, t := Then(env, s, acts, t, Next(1));
  }

  // ---- the service, one method per awaited call ----

  class WebhookService {
    var now: nat
    var cell: Option<L.Entry>
    var nextToken: nat
    var payment: Option<Payment>
    var outbox: seq<int>
    var charges: seq<int>
    ghost var entered: nat
    var processed: bool
    var deliveries: map<nat, Delivery>

    ghost function View(): State
      reads this
    {
      State(now, cell, nextToken, payment, outbox, charges, entered, processed, deliveries)
    }

    constructor (payment: Option<Payment>)
      ensures View() == Init(payment)
    {
      now, cell, nextToken, this.payment := 0, None, 0, payment;
      outbox, charges, entered, processed, deliveries := [], [], 0, false, map[];
    }

    method AlreadyProcessed(env: Env, i: nat)
      requires View().D(i) == Arrived
      modifies this`deliveries
      ensures View() == Step(env, old(View()), Next(i))
    {
      deliveries := deliveries[i := if processed then Done else Unlocked];
    }

    method AcquireLock(env: Env, i: nat)
      requires View().D(i) == Unlocked
      modifies this`deliveries, this`cell, this`nextToken
      ensures View() == Step(env, old(View()), Next(i))
    {
      if cell.Some? && now < cell.value.expiresAt {
        deliveries := deliveries[i := Done];
        return;
      }
      var token := nextToken;
      nextToken := nextToken + 1;
      cell := Some(L.Entry(token, now + LOCK_TTL_MS));
      deliveries := deliveries[i := Locked(Recheck, token, now + LOCK_TTL_MS)];
    }

    method RecheckProcessed(env: Env, i: nat)
      requires View().D(i).Locked? && View().D(i).stage == Recheck
      modifies this`deliveries
      ensures View() == Step(env, old(View()), Next(i))
    {
      if processed {
        deliveries := deliveries[i := deliveries[i].(stage := Release)];
      } else {
        deliveries := deliveries[i := deliveries[i].(stage := Find)];
      }
    }

    method FindPayment(env: Env, i: nat)
      requires View().D(i).Locked? && View().D(i).stage == Find
      modifies this`deliveries
      ensures View() == Step(env, old(View()), Next(i))
    {
      if payment.None? || payment.value.status == SUCCEEDED {
        deliveries := deliveries[i := deliveries[i].(stage := Record)];
      } else {
        deliveries := deliveries[i := deliveries[i].(stage := Commit)];
      }
    }

    /** One transaction: the status and the outbox row, or neither. */
    method CommitTransaction(env: Env, i: nat)
      requires View().D(i).Locked? && View().D(i).stage == Commit && payment.Some?
      modifies this`deliveries, this`payment, this`outbox, this`entered
      ensures View() == Step(env, old(View()), Next(i))
    {
      payment := Some(payment.value.(status := SUCCEEDED));
      outbox := outbox + [payment.value.amount];
      entered := entered + 1;
      deliveries := deliveries[i := deliveries[i].(stage := Schedule)];
    }

    method RecordCharge(env: Env, i: nat)
      requires View().D(i).Locked? && View().D(i).stage == Charge && payment.Some?
      modifies this`deliveries, this`charges
      ensures View() == Step(env, old(View()), Next(i))
    {
      charges := charges + [-payment.value.amount];
      deliveries := deliveries[i := deliveries[i].(stage := Record)];
    }

    method RecordEvent(env: Env, i: nat)
      requires View().D(i).Locked? && View().D(i).stage == Record
      modifies this`deliveries, this`processed
      ensures View() == Step(env, old(View()), Next(i))
    {
      processed := true;
      deliveries := deliveries[i := deliveries[i].(stage := Release)];
    }

    method ReleaseLock(env: Env, i: nat)
      requires View().D(i).Locked? && View().D(i).stage == Release
      modifies this`deliveries, this`cell
      ensures View() == Step(env, old(View()), Next(i))
    {
      if cell.Some? && now < cell.value.expiresAt && cell.value.token == deliveries[i].token {
        cell := None;
      }
      deliveries := deliveries[i := Done];
    }

    /** The committing branch: transaction, fast-path dispatch, CHARGE row. */
    method CommitAndCharge(env: Env, i: nat)
      requires View().D(i).Locked? && View().D(i).stage == Commit && now < View().D(i).deadline && !Settled(View())
      modifies this
      ensures View().D(i) == old(View()).D(i).(stage := Record)
      ensures now == old(now) && cell == old(cell) && processed == old(processed)
      ensures payment == Some(old(payment).value.(status := SUCCEEDED))
      ensures outbox == old(outbox) + [old(payment).value.amount]
      ensures charges == old(charges) + [-old(payment).value.amount]
    {
      CommitTransaction(env, i);
      deliveries := deliveries[i := deliveries[i].(stage := Charge)];  // scheduleDispatch
      RecordCharge(env, i);
    }

    /** The locked function and its release, nothing interrupting it. */
    method HandleLocked(i: nat)
      requires View().D(i).Locked? && View().D(i).stage == Recheck && !processed
      requires now < View().D(i).deadline && cell == Some(L.Entry(View().D(i).token, View().D(i).deadline))
      modifies this
      ensures processed && cell == None && View().D(i) == Done
      ensures now == old(now)
      ensures old(Settled(View())) ==> payment == old(payment) && outbox == old(outbox) && charges == old(charges)
      ensures !old(Settled(View())) ==>
                && payment == Some(old(payment).value.(status := SUCCEEDED))
                && outbox == old(outbox) + [old(payment).value.amount]
                && charges == old(charges) + [-old(payment).value.amount]
    {
      var env := Env(true);
      RecheckProcessed(env, i);
      FindPayment(env, i);
      if deliveries[i].stage == Commit {
        CommitAndCharge(env, i);
      }
      RecordEvent(env, i);
      ReleaseLock(env, i);
    }
  }
}
