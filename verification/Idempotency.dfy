/**
  The `Idempotency-Key` interceptor (src/common/idempotency/idempotency.interceptor.ts): any number
  of concurrent requests carrying one key, one awaited call at a time, any of which may
  throw, under a lock that expires.
 */
module Idempotency {
  import opened Util
  import L = RedisLock

  const LOCK_TTL_MS: nat := 10000

  type Path = string
  type Body = string

  datatype Saved = Saved(path: Path, body: Body)

  datatype Outcome = Responded(body: Body) | Conflict | Errored

  /** The call a request holding the lock makes next; the handler's own work is one such call. */
  datatype Stage =
    | Lookup
    | Handler
    | Save(body: Body)
    | Replay(saved: Saved)       // the key is known: release, then compare paths
    | Finalize(outcome: Outcome) // the answer is out; the release is fired without being awaited

  datatype Request =
    | Absent
    | Arrived(path: Path)
    | Locked(path: Path, stage: Stage, token: nat, deadline: nat)
    | Finished(path: Path, outcome: Outcome)
    | Crashed

  datatype State = State(
    now: nat,
    cell: Option<L.Entry>,
    nextToken: nat,
    saved: Option<Saved>,   // the row of idempotency_keys; its key is unique
    completions: nat,       // how many times the handler ran to completion
    requests: map<nat, Request>)
  {
    function R(i: nat): Request {
      if i in requests then requests[i] else Absent
    }

    function Put(i: nat, r: Request): State {
      this.(requests := requests[i := r])
    }

    /** Up to the row being saved: the part the lock is there to protect. */
    predicate Critical(i: nat) {
      R(i).Locked? && (R(i).stage.Lookup? || R(i).stage.Handler? || R(i).stage.Save?)
    }
  }

  /** What the environment guarantees: no critical part outlives the TTL; saving the row never fails. */
  datatype Env = Env(ttlRespected: bool, savesReliably: bool)

  datatype Action =
    | Tick(d: nat)
    | Arrive(i: nat, path: Path)
    | Next(i: nat, result: Body)   // the body is used only when the call is the handler itself
    | Fail(i: nat)
    | Crash(i: nat)

  const Init := State(0, None, 0, None, 0, map[])

  function Advance(s: State, i: nat, result: Body): State
    requires s.R(i).Locked?
  {
    var r := s.R(i);
    var released := s.(cell := L.DeleteIfOwner(s.cell, s.now, r.token));
    match r.stage
    case Lookup => s.Put(i, r.(stage := if s.saved.Some? then Replay(s.saved.value) else Handler))
    case Handler => s.(completions := s.completions + 1).Put(i, r.(stage := Save(result)))
    case Save(body) =>
      if s.saved.Some? then s.Put(i, r.(stage := Finalize(Errored)))   // unique key violated
      else s.(saved := Some(Saved(r.path, body))).Put(i, r.(stage := Finalize(Responded(body))))
    case Replay(known) =>
      released.Put(i, Finished(r.path, if known.path != r.path then Conflict else Responded(known.body)))
    case Finalize(outcome) => released.Put(i, Finished(r.path, outcome))
  }

  /** The pending call throws.  A failed lookup is not caught: the lock stays until it expires. */
  function Throw(s: State, i: nat): State
    requires s.R(i).Locked?
  {
    var r := s.R(i);
    match r.stage
    case Lookup => s.Put(i, Finished(r.path, Errored))
    case Handler => s.Put(i, r.(stage := Finalize(Errored)))
    case Save(_) => s.Put(i, r.(stage := Finalize(Errored)))
    case Replay(_) => s.Put(i, Finished(r.path, Errored))
    case Finalize(outcome) => s.Put(i, Finished(r.path, outcome))
  }

  function Step(env: Env, s: State, a: Action): State {
    match a
    case Tick(d) =>
      if env.ttlRespected && exists i :: i in s.requests && s.Critical(i) && s.R(i).deadline <= s.now + d
      then s else s.(now := s.now + d)
    case Arrive(i, path) => if s.R(i) == Absent then s.Put(i, Arrived(path)) else s
    case Next(i, result) =>
      (match s.R(i)
       case Arrived(path) =>
         if L.Live(s.cell, s.now).Some? then s.Put(i, Finished(path, Conflict)) else
         s.(cell := L.SetNx(s.cell, s.now, s.nextToken, LOCK_TTL_MS), nextToken := s.nextToken + 1)
          .Put(i, Locked(path, Lookup, s.nextToken, s.now + LOCK_TTL_MS))
       case Locked(_, _, _, _) => Advance(s, i, result)
       case _ => s)
    case Fail(i) =>
      (match s.R(i)
       case Arrived(path) => s.Put(i, Finished(path, Errored))
       case Locked(_, stage, _, _) => if stage.Save? && env.savesReliably then s else Throw(s, i)
       case _ => s)
    case Crash(i) =>
      if s.R(i) == Absent || (env.savesReliably && s.R(i).Locked? && s.R(i).stage.Save?) then s else s.Put(i, Crashed)
  }

  function Run(env: Env, s: State, acts: seq<Action>): State {
    if acts == [] then s else Step(env, Run(env, s, acts[..|acts| - 1]), acts[|acts| - 1])
  }

  lemma Then(env: Env, s: State, acts: seq<Action>, t: State, a: Action) returns (acts': seq<Action>, t': State)
    requires t == Run(env, s, acts)
    ensures t' == Step(env, t, a) == Run(env, s, acts')
  {
    acts', t' := acts + [a], Step(env, t, a);
    assert acts'[..|acts|] == acts;
  }

  // ---- every answer is the saved answer, whatever the lock does ----

  /** The request has been, or is being, answered with this body. */
  predicate Answered(s: State, i: nat, body: Body) {
    || (s.R(i).Finished? && s.R(i).outcome == Responded(body))
    || (s.R(i).Locked? && s.R(i).stage == Finalize(Responded(body)))
  }

  function PathOf(r: Request): Path {
    match r
    case Arrived(path) => path
    case Locked(path, _, _, _) => path
    case Finished(path, _) => path
    case _ => ""
  }

  ghost predicate OneAnswer(s: State) {
    && (forall i, body :: Answered(s, i, body) ==> s.saved == Some(Saved(PathOf(s.R(i)), body)))
    && (forall i :: s.R(i).Locked? && s.R(i).stage.Replay? ==> s.saved == Some(s.R(i).stage.saved))
  }

  lemma OneAnswerStep(env: Env, s: State, a: Action)
    requires OneAnswer(s)
    ensures OneAnswer(Step(env, s, a))
    ensures s.saved.Some? ==> Step(env, s, a).saved == s.saved
  {
    var t := Step(env, s, a);
    if a.Tick? {
      assert forall i :: t.R(i) == s.R(i);
      assert forall i, body :: Answered(t, i, body) == Answered(s, i, body);
    } else {
      assert forall j :: j != a.i ==> t.R(j) == s.R(j);
      forall j, body | Answered(t, j, body) ensures t.saved == Some(Saved(PathOf(t.R(j)), body)) {
        assert j != a.i ==> Answered(s, j, body);
        assert j == a.i && s.R(j).Locked? && s.R(j).stage.Finalize? ==> Answered(s, j, body);
        assert j == a.i && s.R(j).Finished? ==> Answered(s, j, body);
      }
    }
  }

  /** In any run at all, every successful answer is the one saved body, and only to the saved path. */
  lemma {:induction false} EveryAnswerIsTheSavedOne(env: Env, acts: seq<Action>)
    ensures OneAnswer(Run(env, Init, acts))
  {
    if acts != [] {
      EveryAnswerIsTheSavedOne(env, acts[..|acts| - 1]);
      OneAnswerStep(env, Run(env, Init, acts[..|acts| - 1]), acts[|acts| - 1]);
    }
  }

  // ---- the handler completes at most once, exactly when the environment helps ----

  ghost predicate StageInv(s: State, i: nat)
    requires s.R(i).Locked?
  {
    match s.R(i).stage
    case Handler => s.saved == None && s.completions == 0
    case Save(_) => s.saved == None && s.completions == 1
    case _ => true
  }

  predicate Saving(s: State, i: nat) {
    s.R(i).Locked? && s.R(i).stage.Save?
  }

  ghost predicate Inv(s: State) {
    && s.completions <= 1
    && (s.completions == 1 ==> s.saved.Some? || exists i :: Saving(s, i))
    && (s.saved.Some? ==> s.completions == 1)
    && (s.cell.Some? ==> s.cell.value.token < s.nextToken)
    && (forall i :: s.R(i).Locked? ==> s.R(i).token < s.nextToken && StageInv(s, i))
    && (forall i :: s.Critical(i) ==> s.now < s.R(i).deadline && s.cell == Some(L.Entry(s.R(i).token, s.R(i).deadline)))
    && (forall i, j :: s.R(i).Locked? && s.R(j).Locked? && i != j ==> s.R(i).token != s.R(j).token)
  }

  lemma OnlyOneInSection(s: State, i: nat, j: nat)
    requires Inv(s) && s.Critical(i) && s.Critical(j)
    ensures i == j
  {
  }

  /** A request that moves on without saving or completing anything. */
  lemma InvMove(s: State, i: nat, r: Request)
    requires Inv(s) && !Saving(s, i)
    requires r.Locked? ==> s.R(i).Locked? && r.token == s.R(i).token && r.deadline == s.R(i).deadline
    requires s.Put(i, r).Critical(i) ==> s.Critical(i) && StageInv(s.Put(i, r), i)
    ensures Inv(s.Put(i, r))
  {
    var t := s.Put(i, r);
    assert forall j :: j != i ==> t.R(j) == s.R(j) && t.Critical(j) == s.Critical(j) && Saving(t, j) == Saving(s, j);
    forall j | t.R(j).Locked? ensures StageInv(t, j) {
      if j != i { assert StageInv(s, j); }
    }
    if s.completions == 1 && s.saved == None {
      var k :| Saving(s, k);
      assert Saving(t, k);
    }
  }

  /** The request in the section may write: no other one relies on the row. */
  lemma InvWrite(s: State, i: nat, t: State)
    requires Inv(s) && s.Critical(i) && t.R(i).Locked?
    requires t == s.(saved := t.saved, completions := t.completions).Put(i, s.R(i).(stage := t.R(i).stage))
    requires t.completions <= 1 && StageInv(t, i)
    requires t.completions == 1 ==> t.saved.Some? || Saving(t, i)
    requires t.saved.Some? ==> t.completions == 1
    ensures Inv(t)
  {
    assert forall j :: j != i ==> t.R(j) == s.R(j) && t.Critical(j) == s.Critical(j);
    forall j | t.R(j).Locked? ensures StageInv(t, j) {
      if j != i && t.Critical(j) { OnlyOneInSection(s, i, j); }
    }
  }

  lemma InvRelease(s: State, i: nat, r: Request)
    requires Inv(s) && s.R(i).Locked? && !s.Critical(i) && r.Finished?
    ensures Inv(s.(cell := L.DeleteIfOwner(s.cell, s.now, s.R(i).token)).Put(i, r))
  {
    var t := s.(cell := L.DeleteIfOwner(s.cell, s.now, s.R(i).token)).Put(i, r);
    assert forall j :: j != i ==> t.R(j) == s.R(j) && t.Critical(j) == s.Critical(j) && Saving(t, j) == Saving(s, j);
    forall j | t.R(j).Locked? ensures StageInv(t, j) {
      assert StageInv(s, j);
    }
    if s.completions == 1 && s.saved == None {
      var k :| Saving(s, k);
      assert Saving(t, k);
    }
  }

  lemma InvAcquire(env: Env, s: State, i: nat, result: Body)
    requires Inv(s) && s.R(i).Arrived?
    ensures Inv(Step(env, s, Next(i, result)))
  {
    var t := Step(env, s, Next(i, result));
    assert forall j :: j != i ==> t.R(j) == s.R(j) && t.Critical(j) == s.Critical(j) && Saving(t, j) == Saving(s, j);
    forall j | t.R(j).Locked? ensures StageInv(t, j) {
      if j != i { assert StageInv(s, j); }
    }
    if s.completions == 1 && s.saved == None {
      var k :| Saving(s, k);
      assert Saving(t, k);
    }
  }

  lemma InvTick(env: Env, s: State, d: nat)
    requires env.ttlRespected && Inv(s)
    ensures Inv(Step(env, s, Tick(d)))
  {
    var t := Step(env, s, Tick(d));
    assert forall i :: t.R(i) == s.R(i) && t.Critical(i) == s.Critical(i) && Saving(t, i) == Saving(s, i);
    forall i | t.R(i).Locked? ensures StageInv(t, i) {
      assert StageInv(s, i);
    }
    forall i | t.Critical(i) ensures t.now < t.R(i).deadline {
      assert i in s.requests && s.Critical(i);
    }
  }

  lemma InvAdvance(s: State, i: nat, result: Body)
    requires Inv(s) && s.R(i).Locked?
    ensures Inv(Advance(s, i, result))
  {
    assert StageInv(s, i);
    var t := Advance(s, i, result);
    match s.R(i).stage
    case Lookup =>
      if s.saved == None && s.completions == 1 {
        var k :| Saving(s, k);
        OnlyOneInSection(s, i, k);
      }
      InvMove(s, i, t.R(i));
    case Handler => InvWrite(s, i, t);
    case Save(_) => InvWrite(s, i, t);
    case Replay(_) => InvRelease(s, i, t.R(i));
    case Finalize(_) => InvRelease(s, i, t.R(i));
  }

  lemma InvStep(env: Env, s: State, a: Action)
    requires env.ttlRespected && env.savesReliably && Inv(s)
    ensures Inv(Step(env, s, a))
  {
    match a
    case Tick(d) => InvTick(env, s, d);
    case Arrive(i, path) => if s.R(i) == Absent { InvMove(s, i, Arrived(path)); }
    case Next(i, result) =>
      if s.R(i).Locked? {
        InvAdvance(s, i, result);
      } else if s.R(i).Arrived? {
        InvAcquire(env, s, i, result);
      }
    case Fail(i) => if !Saving(s, i) { InvMove(s, i, Step(env, s, a).R(i)); }
    case Crash(i) => if !Saving(s, i) { InvMove(s, i, Crashed); }
  }

  lemma {:induction false} InvRun(env: Env, s: State, acts: seq<Action>)
    requires env.ttlRespected && env.savesReliably && Inv(s)
    ensures Inv(Run(env, s, acts))
  {
    if acts != [] {
      InvRun(env, s, acts[..|acts| - 1]);
      InvStep(env, Run(env, s, acts[..|acts| - 1]), acts[|acts| - 1]);
    }
  }

  /** The lock expires while the first handler runs; a second request runs it again. */
  lemma ExpiredLockRunsTwice(env: Env) returns (acts: seq<Action>)
    requires !env.ttlRespected
    ensures Run(env, Init, acts).completions == 2
  {
    var t := Init;
    acts, t := Then(env, Init, [], t, Arrive(0, "/"));
    acts, t := Then(env, Init, acts, t, Next(0, ""));
    acts, t := Then(env, Init, acts, t, Next(0, ""));
    assert t.R(0) == Locked("/", Handler, 0, LOCK_TTL_MS);
    acts, t := Then(env, Init, acts, t, Tick(LOCK_TTL_MS));
    acts, t := Then(env, Init, acts, t, Arrive(1, "/"));
    acts, t := Then(env, Init, acts, t, Next(1, ""));
    acts, t := Then(env, Init, acts, t, Next(1, ""));
    assert t.R(1).stage == Handler && t.R(0) == Locked("/", Handler, 0, LOCK_TTL_MS);
    acts, t := Then(env, Init, acts, t, Next(0, ""));
    acts, t := Then(env, Init, acts, t, Next(1, ""));
  }

  /** Saving the row throws after the handler completed; the retry runs it again. */
  lemma FailedSaveRunsTwice(env: Env) returns (acts: seq<Action>)
    requires !env.savesReliably
    ensures Run(env, Init, acts).completions == 2
  {
    var t := Init;
    acts, t := Then(env, Init, [], t, Arrive(0, "/"));
    acts, t := Then(env, Init, acts, t, Next(0, ""));
    acts, t := Then(env, Init, acts, t, Next(0, ""));
    acts, t := Then(env, Init, acts, t, Next(0, ""));
    assert t.R(0) == Locked("/", Save(""), 0, LOCK_TTL_MS);
    acts, t := Then(env, Init, acts, t, Fail(0));
    acts, t := Then(env, Init, acts, t, Next(0, ""));
    assert t.cell == None;
    acts, t := Then(env, Init, acts, t, Arrive(1, "/"));
    acts, t := Then(env, Init, acts, t, Next(1, ""));
    acts, t := Then(env, Init, acts, t, Next(1, ""));
    assert t.R(1).stage == Handler;
    acts, t := Then(env, Init, acts, t, Next(1, ""));
  }

  /** The handler completes at most once in every run exactly when both guarantees hold. */
  lemma AtMostOnceIff(env: Env)
    ensures (forall acts :: Run(env, Init, acts).completions <= 1) <==> env.ttlRespected && env.savesReliably
  {
    if env.ttlRespected && env.savesReliably {
      forall acts ensures Run(env, Init, acts).completions <= 1 {
        InvRun(env, Init, acts);
      }
    } else if !env.ttlRespected {
      var _ := ExpiredLockRunsTwice(env);
    } else {
      var _ := FailedSaveRunsTwice(env);
    }
  }

  // ---- what one request does, call by call ----

  predicate AtHandler(s: State, i: nat) {
    s.R(i).Locked? && s.R(i).stage == Handler
  }

  /** The lock is taken for ten seconds if it is free; otherwise the request is told of the conflict at once. */
  lemma LockTakenIff(env: Env, s: State, i: nat, result: Body)
    requires s.R(i).Arrived?
    ensures var t, path := Step(env, s, Next(i, result)), s.R(i).path;
            if L.Live(s.cell, s.now) == None
            then t.R(i) == Locked(path, Lookup, s.nextToken, s.now + 10000)
                 && t.cell == Some(L.Entry(s.nextToken, s.now + 10000)) && t.nextToken == s.nextToken + 1
            else t == s.Put(i, Finished(path, Conflict))
  {
  }

  /**
    The handler or the save throws: the request answers with the error and gives the lock back, saving nothing.  A
    lookup that throws, and a release that does, leave the lock to expire.
   */
  lemma FaultAndLock(env: Env, s: State, i: nat, result: Body)
    requires s.R(i).Locked? && !env.savesReliably
    requires s.cell == Some(L.Entry(s.R(i).token, s.R(i).deadline)) && s.now < s.R(i).deadline
    ensures var t, path, stage := Step(env, s, Fail(i)), s.R(i).path, s.R(i).stage;
            if stage.Handler? || stage.Save?
            then t.R(i).Locked? && Step(env, t, Next(i, result)) == s.(cell := None).Put(i, Finished(path, Errored))
            else t == s.Put(i, Finished(path, if stage.Finalize? then stage.outcome else Errored))
  {
    var t := Step(env, s, Fail(i));
    if s.R(i).stage.Handler? || s.R(i).stage.Save? {
      var r := Finished(s.R(i).path, Errored);
      assert t.requests[i := r] == s.requests[i := r];
    }
  }

  /** A fault before the lock is the answer, and a process that dies between two calls leaves everything as it was. */
  lemma EarlyFaultOrCrashEnds(env: Env, s: State, i: nat)
    requires !env.savesReliably
    ensures s.R(i).Arrived? ==> Step(env, s, Fail(i)) == s.Put(i, Finished(s.R(i).path, Errored))
    ensures s.R(i) != Absent ==> Step(env, s, Crash(i)) == s.Put(i, Crashed)
  {
  }

  /** A known key: the saved answer for the saved path, a conflict for any other; the lock is given back first. */
  lemma ReplayIff(env: Env, s: State, i: nat, result: Body)
    requires s.R(i).Locked? && s.R(i).stage.Replay?
    ensures var t, known, path := Step(env, s, Next(i, result)), s.R(i).stage.saved, s.R(i).path;
            && t.R(i) == Finished(path, if path == known.path then Responded(known.body) else Conflict)
            && t.saved == s.saved
            && (t.cell == s.cell <==> s.cell == None || s.cell.value.token != s.R(i).token
                                      || s.now >= s.cell.value.expiresAt)
  {
  }

  /** Which call counts as a completion and which one saves: nothing else touches either. */
  lemma WritesIff(env: Env, s: State, a: Action)
    ensures var t := Step(env, s, a);
            && t.completions == s.completions + (if a.Next? && AtHandler(s, a.i) then 1 else 0)
            && t.saved == (if a.Next? && Saving(s, a.i) && s.saved == None
                           then Some(Saved(s.R(a.i).path, s.R(a.i).stage.body)) else s.saved)
            && (a.Next? && AtHandler(s, a.i) ==> t.R(a.i) == s.R(a.i).(stage := Save(a.result)))
  {
  }

  /** A second save of the same key fails on the unique constraint, and its request is told so. */
  lemma SecondSaveFails(env: Env, s: State, i: nat, result: Body)
    requires Saving(s, i) && s.saved.Some?
    ensures Step(env, s, Next(i, result)) == s.Put(i, s.R(i).(stage := Finalize(Errored)))
  {
  }

  // ---- with any timing and faults: when the handler can complete again ----

  ghost predicate Answerable(s: State, completions: nat) {
    s.saved.Some? && s.completions == completions && forall i :: !AtHandler(s, i)
  }

  lemma AnswerableStep(env: Env, s: State, a: Action, completions: nat)
    requires Answerable(s, completions)
    ensures Answerable(Step(env, s, a), completions)
  {
    var t := Step(env, s, a);
    assert a.Tick? || !AtHandler(s, a.i);
    forall j ensures !AtHandler(t, j) {
      assert !AtHandler(s, j);
      assert !a.Tick? && j != a.i ==> t.R(j) == s.R(j);
    }
  }

  lemma {:induction false} AnswerableRun(env: Env, s: State, acts: seq<Action>, completions: nat)
    requires Answerable(s, completions)
    ensures Answerable(Run(env, s, acts), completions)
  {
    if acts != [] {
      AnswerableRun(env, s, acts[..|acts| - 1], completions);
      AnswerableStep(env, Run(env, s, acts[..|acts| - 1]), acts[|acts| - 1], completions);
    }
  }

  /** Waits until the lock is free; then a new request finds nothing saved and reaches the handler. */
  lemma NewRequestRunsHandler(s: State, i: nat) returns (acts: seq<Action>)
    requires s.saved == None && s.R(i) == Absent
    ensures Run(Env(false, false), s, acts).completions == s.completions + 1
  {
    var env, t := Env(false, false), s;
    var wait: nat := if L.Live(s.cell, s.now).Some? then s.cell.value.expiresAt - s.now else 0;
    acts, t := Then(env, s, [], t, Tick(wait));
    assert L.Live(t.cell, t.now) == None;
    acts, t := Then(env, s, acts, t, Arrive(i, ""));
    acts, t := Then(env, s, acts, t, Next(i, ""));
    acts, t := Then(env, s, acts, t, Next(i, ""));
    assert AtHandler(t, i);
    acts, t := Then(env, s, acts, t, Next(i, ""));
  }

  /**
    With any timing and any faults, the handler can complete once more exactly when nothing is saved yet, or a
    request that found nothing is at its handler.  Once an answer is saved and no such request is left, it never does.
   */
  lemma CompletesAgainIff(s: State)
    ensures (exists acts :: Run(Env(false, false), s, acts).completions > s.completions)
            <==> s.saved == None || exists i :: AtHandler(s, i)
  {
    if i :| AtHandler(s, i) {
      var acts, t := Then(Env(false, false), s, [], s, Next(i, ""));
      assert Run(Env(false, false), s, acts).completions > s.completions;
    } else if s.saved == None {
      var i := Bound(s.requests.Keys);
      var acts := NewRequestRunsHandler(s, i);
    } else {
      forall acts ensures Run(Env(false, false), s, acts).completions == s.completions {
        AnswerableRun(Env(false, false), s, acts, s.completions);
      }
    }
  }

  // ---- a handler that fails leaves the key reusable ----

  /** Nothing is saved for the key, and nobody has an answer to save. */
  predicate NothingKept(s: State) {
    s.saved == None && forall i :: i in s.requests ==> !(s.R(i).Locked? && s.R(i).stage.Save?)
  }

  lemma NothingKeptStep(env: Env, s: State, a: Action)
    requires NothingKept(s)
    ensures var t := Step(env, s, a);
            t.completions >= s.completions && (t.completions == s.completions ==> NothingKept(t))
  {
    var t := Step(env, s, a);
    if !a.Tick? {
      assert forall j :: j in t.requests && j != a.i ==> j in s.requests && t.R(j) == s.R(j);
    }
  }

  /** In every run in which no handler completes, nothing is kept: it does not matter how many threw. */
  lemma {:induction false} NothingKeptRun(env: Env, s: State, acts: seq<Action>)
    requires NothingKept(s)
    ensures var t := Run(env, s, acts);
            t.completions >= s.completions && (t.completions == s.completions ==> NothingKept(t))
  {
    if acts != [] {
      var before := acts[..|acts| - 1];
      NothingKeptRun(env, s, before);
      CompletionsGrow(env, Run(env, s, before), acts[|acts| - 1]);
      if Run(env, s, before).completions == s.completions {
        NothingKeptStep(env, Run(env, s, before), acts[|acts| - 1]);
      }
    }
  }

  lemma CompletionsGrow(env: Env, s: State, a: Action)
    ensures Step(env, s, a).completions >= s.completions
  {
  }

  /** A new request, when the lock is free and nothing is saved, gets to run the handler. */
  lemma RequestReachesHandler(env: Env, s: State, j: nat, path: Path) returns (acts: seq<Action>)
    requires s.saved == None && L.Live(s.cell, s.now) == None && s.R(j) == Absent
    ensures var t := Run(env, s, acts); t.R(j).Locked? && t.R(j).stage == Handler
  {
    var t;
    acts, t := Then(env, s, [], s, Arrive(j, path));
    acts, t := Then(env, s, acts, t, Next(j, ""));
    acts, t := Then(env, s, acts, t, Next(j, ""));
  }

  /**
    A handler throws.  Whatever runs after that without completing the handler, as soon as the lock is free the
    next request with the key gets to run it.
   */
  lemma FailedHandlerLeavesKeyReusable(env: Env, s: State, i: nat, later: seq<Action>, j: nat, path: Path)
    returns (acts: seq<Action>)
    requires NothingKept(s) && s.R(i).Locked? && s.R(i).stage == Handler
    requires var t := Run(env, Step(env, s, Fail(i)), later);
             t.completions == s.completions && L.Live(t.cell, t.now) == None && t.R(j) == Absent
    ensures var t := Run(env, Run(env, Step(env, s, Fail(i)), later), acts); t.R(j).Locked? && t.R(j).stage == Handler
  {
    NothingKeptStep(env, s, Fail(i));
    NothingKeptRun(env, Step(env, s, Fail(i)), later);
    acts := RequestReachesHandler(env, Run(env, Step(env, s, Fail(i)), later), j, path);
  }

  // ---- the interceptor, one method per awaited call ----

  class IdempotencyInterceptor {
    var now: nat
    var cell: Option<L.Entry>
    var nextToken: nat
    var saved: Option<Saved>
    ghost var completions: nat
    var requests: map<nat, Request>

    ghost function View(): State
      reads this
    {
      State(now, cell, nextToken, saved, completions, requests)
    }

    constructor ()
      ensures View() == Init
    {
      now, cell, nextToken, saved, completions, requests := 0, None, 0, None, 0, map[];
    }

    method Acquire(env: Env, i: nat)
      requires View().R(i).Arrived?
      modifies this`cell, this`nextToken, this`requests
      ensures View() == Step(env, old(View()), Next(i, ""))
    {
      var path := requests[i].path;
      if cell.Some? && now < cell.value.expiresAt {
        requests := requests[i := Finished(path, Conflict)];
        return;
      }
      cell := Some(L.Entry(nextToken, now + LOCK_TTL_MS));
      requests := requests[i := Locked(path, Lookup, nextToken, now + LOCK_TTL_MS)];
      nextToken := nextToken + 1;
    }

    method FindExisting(env: Env, i: nat)
      requires View().R(i).Locked? && View().R(i).stage == Lookup
      modifies this`requests
      ensures View() == Step(env, old(View()), Next(i, ""))
    {
      if saved.Some? {
        requests := requests[i := requests[i].(stage := Replay(saved.value))];
      } else {
        requests := requests[i := requests[i].(stage := Handler)];
      }
    }

    method RunHandler(env: Env, i: nat, result: Body)
      requires View().R(i).Locked? && View().R(i).stage == Handler
      modifies this`requests, this`completions
      ensures View() == Step(env, old(View()), Next(i, result))
    {
      completions := completions + 1;
      requests := requests[i := requests[i].(stage := Save(result))];
    }

    method SaveResponse(env: Env, i: nat)
      requires View().R(i).Locked? && View().R(i).stage.Save?
      modifies this`requests, this`saved
      ensures View() == Step(env, old(View()), Next(i, ""))
    {
      var body := requests[i].stage.body;
      if saved.Some? {
        requests := requests[i := requests[i].(stage := Finalize(Errored))];
      } else {
        saved := Some(Saved(requests[i].path, body));
        requests := requests[i := requests[i].(stage := Finalize(Responded(body)))];
      }
    }

    method ReleaseLock(env: Env, i: nat)
      requires View().R(i).Locked? && (View().R(i).stage.Replay? || View().R(i).stage.Finalize?)
      modifies this`requests, this`cell
      ensures View() == Step(env, old(View()), Next(i, ""))
    {
      var r := requests[i];
      if cell.Some? && now < cell.value.expiresAt && cell.value.token == r.token {
        cell := None;
      }
      if r.stage.Finalize? {
        requests := requests[i := Finished(r.path, r.stage.outcome)];
      } else if r.stage.saved.path != r.path {
        requests := requests[i := Finished(r.path, Conflict)];
      } else {
        requests := requests[i := Finished(r.path, Responded(r.stage.saved.body))];
      }
    }

    /** A whole request that nothing interrupts and whose handler answers `result`. */
    method Intercept(i: nat, path: Path, result: Body) returns (outcome: Outcome)
      requires View().R(i) == Absent
      modifies this
      ensures old(L.Live(cell, now)).Some? ==> outcome == Conflict && saved == old(saved) && cell == old(cell)
      ensures old(L.Live(cell, now)).None? ==>
                && cell == None
                && (old(saved) == None ==> outcome == Responded(result) && saved == Some(Saved(path, result)))
                && (old(saved) != None ==>
                      && saved == old(saved)
                      && outcome == if saved.value.path == path then Responded(saved.value.body) else Conflict)
    {
      var env := Env(true, true);
      requests := requests[i := Arrived(path)];
      Acquire(env, i);
      if requests[i].Finished? { return requests[i].outcome; }
      FindExisting(env, i);
      if requests[i].stage == Handler {
        RunHandler(env, i, result);
        SaveResponse(env, i);
      }
      ReleaseLock(env, i);
      return requests[i].outcome;
    }
  }
}
