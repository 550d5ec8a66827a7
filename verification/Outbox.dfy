/**
  The transactional outbox (src/events): the fast path and a poller enqueue dispatch jobs, one
  worker per job delivers and retries, a listener dead-letters.  One step per awaited
  database or queue call; a database call commits and returns, fails and throws, or commits and throws.
 */
module Outbox {
  import opened Util

  const MAX_ATTEMPTS: nat := 3        // DEFAULT_JOB_OPTIONS.attempts
  const POLL_BATCH: nat := 100
  const POLL_GRACE_PERIOD_MS: nat := 10000

  type Id = string

  datatype Status = PENDING | PUBLISHED | FAILED

  datatype Row = Row(status: Status, attempts: nat, createdAt: int)

  /** The database call an active job makes next. */
  datatype Stage = Load | MarkPublished | MarkError

  /** The dispatch job of a row; `made` counts the attempts that have thrown. */
  datatype Job = Waiting(made: nat) | Active(made: nat, stage: Stage) | Completed | Dead

  datatype State = State(
    now: int,
    rows: map<Id, Row>,
    jobs: map<Id, Job>,            // keyed by jobId, which is the row's id
    bus: multiset<Id>,             // every hand-off to the event bus
    polls: map<nat, seq<Id>>,      // what each poll in progress has read and not yet enqueued
    unsent: set<Id>)                // committed, and the fast path's one call not made yet
  {
    function JobOf(id: Id): Option<Job> {
      if id in jobs then Some(jobs[id]) else None
    }

    function PutJob(id: Id, j: Job): State {
      this.(jobs := jobs[id := j])
    }
  }

  /**
    Whether the read and the writes of an attempt can fail, whether a write can commit and throw all the same, and
    whether `removeOnComplete` ever forgets a job.
   */
  datatype Env = Env(readFails: bool, writeFails: bool, writeLost: bool, evicts: bool)

  datatype Action =
    | Tick(d: nat)
    | Commit(id: Id)                    // the business transaction writes the row
    | Schedule(id: Id)                  // the fast path, once per row and perhaps late or never
    | PollRead(p: nat, batch: seq<Id>)
    | PollAdd(p: nat)
    | Start(id: Id)
    | Next(id: Id, known: bool)         // known: the registry has a factory for the event type
    | DbThrows(id: Id)
    | DbLost(id: Id)                    // the write of PUBLISHED commits and throws (the other ends the same)
    | Evict(id: Id)
    | Listen(id: Id)                    // `failed` is reported; may be handled late and repeatedly

  const Init := State(0, map[], map[], multiset{}, map[], {})

  /** Adding a job whose id the queue already knows does nothing, whatever that job's state. */
  function Enqueue(s: State, id: Id): State {
    if id in s.jobs then s else s.PutJob(id, Waiting(0))
  }

  predicate Pollable(s: State, batch: seq<Id>) {
    && |batch| <= POLL_BATCH
    && forall id :: id in batch ==>
         id in s.rows && s.rows[id].status == PENDING && s.rows[id].createdAt <= s.now - POLL_GRACE_PERIOD_MS
  }

  /** The attempt throws: another one, or the failed set. */
  function AttemptFails(made: nat): Job {
    if made + 1 >= MAX_ATTEMPTS then Dead else Waiting(made + 1)
  }

  function Work(s: State, id: Id, known: bool): State
    requires id in s.rows && id in s.jobs && s.jobs[id].Active?
  {
    var row, made := s.rows[id], s.jobs[id].made;
    match s.jobs[id].stage
    case Load =>
      if row.status != PENDING then s.PutJob(id, Completed)
      else if known then s.(bus := s.bus + multiset{id}).PutJob(id, Active(made, MarkPublished))
      else s.PutJob(id, Active(made, MarkError))
    case MarkPublished =>
      s.(rows := s.rows[id := row.(status := PUBLISHED)]).PutJob(id, Completed)
    case MarkError =>
      s.(rows := s.rows[id := row.(attempts := row.attempts + 1)]).PutJob(id, AttemptFails(made))
  }

  function Throw(s: State, id: Id): State
    requires id in s.jobs && s.jobs[id].Active?
  {
    var made := s.jobs[id].made;
    match s.jobs[id].stage
    case MarkPublished => s.PutJob(id, Active(made, MarkError))   // caught
    case _ => s.PutJob(id, AttemptFails(made))
  }

  function Step(env: Env, s: State, a: Action): State {
    match a
    case Tick(d) => s.(now := s.now + d)
    case Commit(id) => if id in s.rows then s
        else s.(rows := s.rows[id := Row(PENDING, 0, s.now)], unsent := s.unsent + {id})
    case Schedule(id) => if id in s.unsent then Enqueue(s, id).(unsent := s.unsent - {id}) else s
    case PollRead(p, batch) => if Pollable(s, batch) then s.(polls := s.polls[p := batch]) else s
    case PollAdd(p) =>
      if p !in s.polls || s.polls[p] == [] then s else
      Enqueue(s, s.polls[p][0]).(polls := s.polls[p := s.polls[p][1..]])
    case Start(id) => if id in s.jobs && s.jobs[id].Waiting? then s.PutJob(id, Active(s.jobs[id].made, Load)) else s
    case Next(id, known) => if id in s.rows && id in s.jobs && s.jobs[id].Active? then Work(s, id, known) else s
    case DbThrows(id) =>
      if id in s.jobs && s.jobs[id].Active? && (if s.jobs[id].stage == Load then env.readFails else env.writeFails)
      then Throw(s, id) else s
    case DbLost(id) =>
      if env.writeLost && id in s.rows && id in s.jobs && s.jobs[id].Active? && s.jobs[id].stage == MarkPublished
      then s.(rows := s.rows[id := s.rows[id].(status := PUBLISHED)]).PutJob(id, Active(s.jobs[id].made, MarkError))
      else s
    case Evict(id) => if env.evicts && s.JobOf(id) == Some(Completed) then s.(jobs := s.jobs - {id}) else s
    case Listen(id) =>
      if id in s.rows && s.JobOf(id) == Some(Dead) then s.(rows := s.rows[id := s.rows[id].(status := FAILED)]) else s
  }

  function Run(env: Env, s: State, acts: seq<Action>): State {
    if acts == [] then s else Step(env, Run(env, s, acts[..|acts| - 1]), acts[|acts| - 1])
  }

  lemma Then(env: Env, s: State, acts: seq<Action>, t: State, a: Action) returns (acts': seq<Action>, t': State)
    requires t == Run(env, s, acts)
    ensures t' == Step(env, t, a) == Run(env, s, acts')
  {
    acts', t' := acts + [a], Step(env, t, a);
    assert acts'[..|acts|] == acts;
  }

  // ---- the invariant: what a row's status, its job and its hand-offs say about each other ----

  ghost predicate PendingInv(env: Env, row: Row, job: Option<Job>, handed: nat) {
    match job
    case None => handed == 0 && row.attempts == 0
    case Some(Waiting(m)) => m < MAX_ATTEMPTS && handed <= m && Undelivered(env, row, m, handed)
    case Some(Active(m, Load)) => m < MAX_ATTEMPTS && handed <= m && Undelivered(env, row, m, handed)
    case Some(Active(m, MarkPublished)) =>
      && m < MAX_ATTEMPTS && 1 <= handed <= m + 1
      && (!env.writeFails ==> handed == 1) && (!env.writeFails && !env.readFails ==> row.attempts == m)
    case Some(Active(m, MarkError)) => m < MAX_ATTEMPTS && handed <= m + 1 && Undelivered(env, row, m, handed)
    case Some(Completed) => false
    case Some(Dead) => handed <= MAX_ATTEMPTS && Undelivered(env, row, MAX_ATTEMPTS, handed)
  }

  /** Only a failing write makes an attempt forget a hand-off, and only failing calls make it go uncounted. */
  ghost predicate Undelivered(env: Env, row: Row, made: nat, handed: nat) {
    && (!env.writeFails ==> handed == 0)
    && (!env.writeFails && !env.readFails ==> row.attempts == made)
  }

  ghost predicate PublishedInv(env: Env, job: Option<Job>, handed: nat) {
    && 1 <= handed <= MAX_ATTEMPTS
    && (!env.writeFails ==> handed == 1)
    && (!env.evicts && !env.writeLost ==> job == Some(Completed))
    && (job.Some? && job.value.Active? ==>
          job.value.stage == Load || (env.writeLost && job.value.stage == MarkError))
    && (job.Some? && job.value.Active? ==> job.value.made < MAX_ATTEMPTS)
    && (job.Some? && job.value.Waiting? ==> job.value.made < MAX_ATTEMPTS)
    && (job == Some(Dead) ==> (env.readFails && env.evicts) || env.writeLost)
  }

  ghost predicate FailedInv(env: Env, row: Row, job: Option<Job>, handed: nat) {
    && job == Some(Dead) && handed <= MAX_ATTEMPTS
    && (!env.writeFails && !env.writeLost && !(env.readFails && env.evicts) ==> handed == 0)
    && (!env.writeFails && !env.writeLost && !env.readFails ==> row.attempts == MAX_ATTEMPTS)
  }

  ghost predicate RowInv(env: Env, row: Row, job: Option<Job>, handed: nat) {
    match row.status
    case PENDING => PendingInv(env, row, job, handed)
    case PUBLISHED => PublishedInv(env, job, handed)
    case FAILED => FailedInv(env, row, job, handed)
  }

  ghost predicate Inv(env: Env, s: State) {
    && s.jobs.Keys <= s.rows.Keys && s.unsent <= s.rows.Keys
    && (forall p, i :: p in s.polls && 0 <= i < |s.polls[p]| ==> s.polls[p][i] in s.rows)
    && (forall id :: id !in s.rows ==> s.bus[id] == 0)
    && (forall id :: id in s.rows ==> RowInv(env, s.rows[id], s.JobOf(id), s.bus[id]))
  }

  /** A step that touches one row, its job and its hand-offs only has to keep that row's invariant. */
  lemma InvFrame(env: Env, s: State, t: State, id: Id)
    requires Inv(env, s)
    requires id in t.rows && RowInv(env, t.rows[id], t.JobOf(id), t.bus[id])
    requires s.rows.Keys <= t.rows.Keys <= s.rows.Keys + {id} && t.jobs.Keys <= t.rows.Keys
    requires t.unsent <= t.rows.Keys
    requires forall x :: x != id ==> t.JobOf(x) == s.JobOf(x) && t.bus[x] == s.bus[x]
    requires forall x :: x != id && x in s.rows ==> t.rows[x] == s.rows[x]
    requires forall p, i :: p in t.polls && 0 <= i < |t.polls[p]| ==> t.polls[p][i] in s.rows
    ensures Inv(env, t)
  {
  }

  lemma InvEnqueue(env: Env, s: State, id: Id)
    requires Inv(env, s) && id in s.rows
    ensures Inv(env, Enqueue(s, id))
  {
    assert RowInv(env, s.rows[id], s.JobOf(id), s.bus[id]);
    InvFrame(env, s, Enqueue(s, id), id);
  }

  lemma InvSchedule(env: Env, s: State, id: Id)
    requires Inv(env, s) && id in s.unsent
    ensures Inv(env, Step(env, s, Schedule(id)))
  {
    var t := Step(env, s, Schedule(id));
    InvEnqueue(env, s, id);
    assert forall x :: t.JobOf(x) == Enqueue(s, id).JobOf(x);
  }

  lemma InvWork(env: Env, s: State, id: Id, known: bool)
    requires Inv(env, s) && id in s.rows && id in s.jobs && s.jobs[id].Active?
    ensures Inv(env, Work(s, id, known))
  {
    assert RowInv(env, s.rows[id], s.JobOf(id), s.bus[id]);
    InvFrame(env, s, Work(s, id, known), id);
  }

  lemma InvThrow(env: Env, s: State, id: Id)
    requires Inv(env, s) && id in s.rows
    ensures Inv(env, Step(env, s, DbThrows(id)))
  {
    assert RowInv(env, s.rows[id], s.JobOf(id), s.bus[id]);
    InvFrame(env, s, Step(env, s, DbThrows(id)), id);
  }

  lemma InvLost(env: Env, s: State, id: Id)
    requires Inv(env, s) && id in s.rows
    ensures Inv(env, Step(env, s, DbLost(id)))
  {
    assert RowInv(env, s.rows[id], s.JobOf(id), s.bus[id]);
    InvFrame(env, s, Step(env, s, DbLost(id)), id);
  }

  lemma InvCommit(env: Env, s: State, id: Id)
    requires Inv(env, s) && id !in s.rows
    ensures Inv(env, Step(env, s, Commit(id)))
  {
    InvFrame(env, s, Step(env, s, Commit(id)), id);
  }

  lemma InvQueueEvent(env: Env, s: State, a: Action)
    requires Inv(env, s) && (a.Start? || a.Evict? || a.Listen?)
    ensures Inv(env, Step(env, s, a))
  {
    if a.id in s.rows {
      assert RowInv(env, s.rows[a.id], s.JobOf(a.id), s.bus[a.id]);
      InvFrame(env, s, Step(env, s, a), a.id);
    }
  }

  lemma InvPoll(env: Env, s: State, a: Action)
    requires Inv(env, s) && (a.PollRead? || a.PollAdd? || a.Tick?)
    ensures Inv(env, Step(env, s, a))
  {
    var t := Step(env, s, a);
    if a.PollAdd? && t != s {
      var id := s.polls[a.p][0];
      InvEnqueue(env, s, id);
      assert forall x :: t.JobOf(x) == Enqueue(s, id).JobOf(x);
    } else {
      assert forall x :: t.JobOf(x) == s.JobOf(x);
    }
  }

  lemma InvStep(env: Env, s: State, a: Action)
    requires Inv(env, s)
    ensures Inv(env, Step(env, s, a))
  {
    match a
    case Commit(id) => if id !in s.rows { InvCommit(env, s, id); }
    case Schedule(id) => if id in s.unsent { InvSchedule(env, s, id); }
    case Next(id, known) =>
      if id in s.rows && id in s.jobs && s.jobs[id].Active? { InvWork(env, s, id, known); }
    case DbThrows(id) => if id in s.rows { InvThrow(env, s, id); }
    case DbLost(id) => if id in s.rows { InvLost(env, s, id); }
    case Tick(_) => InvPoll(env, s, a);
    case PollRead(_, _) => InvPoll(env, s, a);
    case PollAdd(_) => InvPoll(env, s, a);
    case _ => InvQueueEvent(env, s, a);
  }

  lemma {:induction false} InvRun(env: Env, s: State, acts: seq<Action>)
    requires Inv(env, s)
    ensures Inv(env, Run(env, s, acts))
  {
    if acts != [] {
      InvRun(env, s, acts[..|acts| - 1]);
      InvStep(env, Run(env, s, acts[..|acts| - 1]), acts[|acts| - 1]);
    }
  }

  // ---- which call hands over, publishes, counts, dead-letters or enqueues ----

  predicate ActiveAt(s: State, id: Id, stage: Stage) {
    id in s.jobs && s.jobs[id].Active? && s.jobs[id].stage == stage
  }

  /** A hand-off is an attempt's load of a row that is PENDING and of an event type somebody knows. */
  lemma HandedOverIff(env: Env, s: State, a: Action, id: Id)
    requires Inv(env, s)
    ensures Step(env, s, a).bus[id] == s.bus[id] +
            if a == Next(id, true) && ActiveAt(s, id, Load) && s.rows[id].status == PENDING then 1 else 0
  {
  }

  /** A row is published by an attempt's write of PUBLISHED, whether or not its answer arrives. */
  lemma PublishedIff(env: Env, s: State, a: Action, id: Id)
    requires Inv(env, s) && id in s.rows && s.rows[id].status != PUBLISHED
    ensures Step(env, s, a).rows[id].status == PUBLISHED <==>
            ActiveAt(s, id, MarkPublished) && (a.Next? || (a.DbLost? && env.writeLost)) && a.id == id
  {
  }

  /** It is dead-lettered by the listener, once its job is dead; PENDING never comes back. */
  lemma DeadLetteredIff(env: Env, s: State, a: Action, id: Id)
    requires Inv(env, s) && id in s.rows && s.rows[id].status != FAILED
    ensures Step(env, s, a).rows[id].status == FAILED <==> a == Listen(id) && s.JobOf(id) == Some(Dead)
    ensures Step(env, s, a).rows[id].status == PENDING ==> s.rows[id].status == PENDING
  {
  }

  /** A failed attempt is counted by its second write, and by nothing else. */
  lemma CountedIff(env: Env, s: State, a: Action, id: Id)
    requires id in s.rows
    ensures Step(env, s, a).rows[id].attempts ==
            s.rows[id].attempts + if a.Next? && a.id == id && ActiveAt(s, id, MarkError) then 1 else 0
  {
  }

  /** The last of three attempts is final; after an earlier one the job waits for the next. */
  lemma ThirdThrowIsFinal(env: Env, s: State, a: Action, id: Id)
    requires Inv(env, s) && id in s.jobs && s.jobs[id].Active?
    requires (a.Next? && a.id == id && s.jobs[id].stage == MarkError)
             || (a == DbThrows(id) && s.jobs[id].stage == MarkError && env.writeFails)
             || (a == DbThrows(id) && s.jobs[id].stage == Load && env.readFails)
    ensures s.jobs[id].made < 3
    ensures Step(env, s, a).JobOf(id) == Some(if s.jobs[id].made == 2 then Dead else Waiting(s.jobs[id].made + 1))
  {
    assert RowInv(env, s.rows[id], s.JobOf(id), s.bus[id]);
  }

  /** A write of PUBLISHED that throws is caught: the attempt goes on to count itself as failed. */
  lemma FailedWriteIsCaught(env: Env, s: State, a: Action, id: Id)
    requires ActiveAt(s, id, MarkPublished) && id in s.rows
    requires (a == DbThrows(id) && env.writeFails) || (a == DbLost(id) && env.writeLost)
    ensures Step(env, s, a).JobOf(id) == Some(Active(s.jobs[id].made, MarkError))
    ensures Step(env, s, a).rows[id].attempts == s.rows[id].attempts
  {
  }

  /** A job is made by the fast path or the poller, once, and only for a row that has none. */
  lemma EnqueuedIff(env: Env, s: State, a: Action, id: Id)
    requires s.JobOf(id) == None
    ensures Step(env, s, a).JobOf(id) ==
            if (a == Schedule(id) && id in s.unsent)
               || (a.PollAdd? && a.p in s.polls && s.polls[a.p] != [] && s.polls[a.p][0] == id)
            then Some(Waiting(0)) else None
  {
  }

  /** A poll reads at most a hundred rows, all PENDING and committed ten seconds ago or more. */
  lemma PollReadsIff(env: Env, s: State, p: nat, batch: seq<Id>)
    requires p !in s.polls
    ensures p in Step(env, s, PollRead(p, batch)).polls <==>
            && |batch| <= 100
            && forall id :: id in batch ==>
                 id in s.rows && s.rows[id].status == PENDING && s.now - s.rows[id].createdAt >= 10000
  {
  }

  lemma ClockStep(env: Env, s: State, a: Action, id: Id)
    requires id in s.rows
    ensures var t := Step(env, s, a);
            t.now >= s.now && id in t.rows && t.rows[id].createdAt == s.rows[id].createdAt
  {
  }

  /** So the fast path has ten seconds: whatever runs in them after the commit, no poll can read the row. */
  lemma {:induction false} YoungRowsAreLeft(env: Env, s: State, id: Id, acts: seq<Action>)
    requires id !in s.rows
    ensures var t := Run(env, Step(env, s, Commit(id)), acts);
            && t.now >= s.now && id in t.rows && t.rows[id].createdAt == s.now
            && (t.now < s.now + 10000 ==>
                  forall p, batch :: p !in t.polls && id in batch ==> p !in Step(env, t, PollRead(p, batch)).polls)
  {
    var u := Step(env, s, Commit(id));
    if acts != [] {
      var t := Run(env, u, acts[..|acts| - 1]);
      YoungRowsAreLeft(env, s, id, acts[..|acts| - 1]);
      ClockStep(env, t, acts[|acts| - 1], id);
    }
    var t := Run(env, u, acts);
    if t.now < s.now + 10000 {
      forall p, batch | p !in t.polls && id in batch ensures p !in Step(env, t, PollRead(p, batch)).polls {
        PollReadsIff(env, t, p, batch);
      }
    }
  }

  // ---- what a status says about deliveries ----

  /** In every run: never more than three hand-offs, and PUBLISHED never without one. */
  lemma DeliveryBounds(env: Env, acts: seq<Action>, id: Id)
    ensures var s := Run(env, Init, acts);
            && s.bus[id] <= 3
            && (id in s.rows && s.rows[id].status == PUBLISHED ==> s.bus[id] >= 1)
  {
    InvRun(env, Init, acts);
    var s := Run(env, Init, acts);
    assert id in s.rows ==> RowInv(env, s.rows[id], s.JobOf(id), s.bus[id]);
  }

  /**
    While the writes of an attempt never fail, no event is handed over twice: PUBLISHED means exactly once.
    FAILED means never, unless a published row was dead-lettered, and three counted attempts if nothing else
    throws either.
   */
  lemma ExactDelivery(env: Env, acts: seq<Action>, id: Id)
    requires !env.writeFails && id in Run(env, Init, acts).rows
    ensures var s := Run(env, Init, acts);
            match s.rows[id].status
            case PENDING => s.bus[id] == if s.JobOf(id).Some? && s.jobs[id].Active?
                && s.jobs[id].stage == MarkPublished then 1 else 0
            case PUBLISHED => s.bus[id] == 1
            case FAILED =>
              && (!env.writeLost && !(env.readFails && env.evicts) ==> s.bus[id] == 0)
              && (!env.writeLost && !env.readFails ==> s.rows[id].attempts == 3)
  {
    InvRun(env, Init, acts);
    var s := Run(env, Init, acts);
    assert RowInv(env, s.rows[id], s.JobOf(id), s.bus[id]);
  }

  // ---- PUBLISHED and FAILED are final, and exactly when ----

  predicate IsFailed(s: State, id: Id) {
    id in s.rows && s.rows[id].status == FAILED
  }

  predicate IsPublished(s: State, id: Id) {
    id in s.rows && s.rows[id].status == PUBLISHED
  }

  /** FAILED never changes, whatever fails: the job stays in the failed set. */
  lemma {:induction false} FailedIsFinal(env: Env, s: State, acts: seq<Action>, id: Id)
    requires Inv(env, s) && IsFailed(s, id)
    ensures IsFailed(Run(env, s, acts), id)
  {
    if acts != [] {
      FailedIsFinal(env, s, acts[..|acts| - 1], id);
      InvRun(env, s, acts[..|acts| - 1]);
      FailedStays(env, Run(env, s, acts[..|acts| - 1]), acts[|acts| - 1], id);
    }
  }

  lemma FailedStays(env: Env, s: State, a: Action, id: Id)
    requires Inv(env, s) && IsFailed(s, id)
    ensures IsFailed(Step(env, s, a), id)
  {
    assert RowInv(env, s.rows[id], s.JobOf(id), s.bus[id]);
  }

  /** Somebody may still add a job for the row: a poll that read it, or the fast path. */
  predicate StillHeld(s: State, id: Id) {
    id in s.unsent || exists p :: p in s.polls && id in s.polls[p]
  }

  /**
    How a published row can still be dead-lettered.  A live job can fail on its reads, or on its last attempt has
    failed already, its write of PUBLISHED having thrown; a completed one that is or will be forgotten can be
    added again by whoever still holds the row's id.
   */
  predicate CanStillFail(env: Env, s: State, id: Id) {
    match s.JobOf(id)
    case Some(Dead) => true
    case Some(Active(m, MarkError)) => m + 1 >= MAX_ATTEMPTS || env.readFails
    case Some(Completed) => env.readFails && env.evicts && StillHeld(s, id)
    case None => env.readFails && StillHeld(s, id)
    case _ => env.readFails
  }

  lemma HeldNoMore(env: Env, s: State, a: Action, id: Id)
    requires IsPublished(s, id) && StillHeld(Step(env, s, a), id)
    ensures StillHeld(s, id)
  {
    var t := Step(env, s, a);
    if id !in t.unsent {
      var p :| p in t.polls && id in t.polls[p];
      if p in s.polls && t.polls[p] == s.polls[p] {
        assert id in s.polls[p];
      } else if a.PollAdd? {
        assert id in s.polls[p];
      }
    }
  }

  lemma SafeEnqueue(env: Env, s: State, a: Action, id: Id)
    requires Inv(env, s) && IsPublished(s, id) && !CanStillFail(env, s, id)
    requires a.PollAdd? || a.PollRead? || a.Schedule?
    requires StillHeld(Step(env, s, a), id) ==> StillHeld(s, id)
    ensures IsPublished(Step(env, s, a), id) && !CanStillFail(env, Step(env, s, a), id)
  {
    if a.PollAdd? && a.p in s.polls && s.polls[a.p] != [] {
      assert s.polls[a.p][0] in s.polls[a.p];
    }
  }

  lemma SafeAttempt(env: Env, s: State, a: Action, id: Id)
    requires Inv(env, s) && IsPublished(s, id) && !CanStillFail(env, s, id)
    requires a.Next? || a.DbThrows? || a.DbLost?
    requires StillHeld(Step(env, s, a), id) ==> StillHeld(s, id)
    ensures IsPublished(Step(env, s, a), id) && !CanStillFail(env, Step(env, s, a), id)
  {
    if a.id == id {
      assert RowInv(env, s.rows[id], s.JobOf(id), s.bus[id]);
    } else {
      assert Step(env, s, a).JobOf(id) == s.JobOf(id);
    }
  }

  lemma SafeJobStep(env: Env, s: State, a: Action, id: Id)
    requires Inv(env, s) && IsPublished(s, id) && !CanStillFail(env, s, id)
    requires a.Tick? || a.Commit? || a.Start? || a.Evict? || a.Listen?
    requires StillHeld(Step(env, s, a), id) ==> StillHeld(s, id)
    ensures IsPublished(Step(env, s, a), id) && !CanStillFail(env, Step(env, s, a), id)
  {
    assert RowInv(env, s.rows[id], s.JobOf(id), s.bus[id]);
  }

  lemma SafeStep(env: Env, s: State, a: Action, id: Id)
    requires Inv(env, s) && IsPublished(s, id) && !CanStillFail(env, s, id)
    ensures IsPublished(Step(env, s, a), id) && !CanStillFail(env, Step(env, s, a), id)
  {
    if StillHeld(Step(env, s, a), id) {
      HeldNoMore(env, s, a, id);
    }
    if a.PollAdd? || a.PollRead? || a.Schedule? {
      SafeEnqueue(env, s, a, id);
    } else if a.Next? || a.DbThrows? || a.DbLost? {
      SafeAttempt(env, s, a, id);
    } else {
      SafeJobStep(env, s, a, id);
    }
  }

  lemma {:induction false} SafeRun(env: Env, s: State, acts: seq<Action>, id: Id)
    requires Inv(env, s) && IsPublished(s, id) && !CanStillFail(env, s, id)
    ensures IsPublished(Run(env, s, acts), id) && !CanStillFail(env, Run(env, s, acts), id)
  {
    if acts != [] {
      SafeRun(env, s, acts[..|acts| - 1], id);
      InvRun(env, s, acts[..|acts| - 1]);
      SafeStep(env, Run(env, s, acts[..|acts| - 1]), acts[|acts| - 1], id);
    }
  }

  /** The attempts left to a live job all fail on their first read, and the listener does the rest. */
  lemma {:induction false} FailFromLive(env: Env, s: State, acts: seq<Action>, t: State, id: Id)
      returns (more: seq<Action>)
    requires env.readFails && t == Run(env, s, acts) && IsPublished(t, id)
    requires t.JobOf(id).Some? && (t.jobs[id].Waiting? || (t.jobs[id].Active? && t.jobs[id].stage == Load))
    requires t.jobs[id].made < MAX_ATTEMPTS
    ensures IsFailed(Run(env, s, more), id)
    decreases MAX_ATTEMPTS - t.jobs[id].made
  {
    var u := t;
    more := acts;
    if t.jobs[id].Waiting? {
      more, u := Then(env, s, more, u, Start(id));
    }
    more, u := Then(env, s, more, u, DbThrows(id));
    if u.jobs[id] == Dead {
      more, u := Then(env, s, more, u, Listen(id));
    } else {
      more := FailFromLive(env, s, more, u, id);
    }
  }

  /** A poll adds what it read, up to and including the row. */
  lemma {:induction false} AddFromPoll(env: Env, s: State, acts: seq<Action>, t: State, p: nat, id: Id)
    returns (more: seq<Action>, u: State)
    requires t == Run(env, s, acts) && IsPublished(t, id) && t.JobOf(id) == None && p in t.polls && id in t.polls[p]
    ensures u == Run(env, s, more) && IsPublished(u, id) && u.JobOf(id) == Some(Waiting(0))
    decreases |t.polls[p]|
  {
    more, u := Then(env, s, acts, t, PollAdd(p));
    if t.polls[p][0] != id {
      more, u := AddFromPoll(env, s, more, u, p, id);
    }
  }

  /** The attempt whose write of PUBLISHED threw counts as failed; the ones left to it fail on their reads. */
  lemma FailAfterLostWrite(env: Env, s: State, id: Id) returns (acts: seq<Action>)
    requires IsPublished(s, id) && id in s.jobs && s.jobs[id].Active? && s.jobs[id].stage == MarkError
    requires s.jobs[id].made + 1 >= MAX_ATTEMPTS || env.readFails
    ensures IsFailed(Run(env, s, acts), id)
  {
    var t;
    acts, t := Then(env, s, [], s, Next(id, true));
    if s.jobs[id].made + 1 >= MAX_ATTEMPTS {
      acts, t := Then(env, s, acts, t, Listen(id));
    } else {
      acts := FailFromLive(env, s, acts, t, id);
    }
  }

  lemma FailFrom(env: Env, s: State, id: Id) returns (acts: seq<Action>)
    requires Inv(env, s) && IsPublished(s, id) && CanStillFail(env, s, id)
    ensures IsFailed(Run(env, s, acts), id)
  {
    assert RowInv(env, s.rows[id], s.JobOf(id), s.bus[id]);
    var t := s;
    acts := [];
    if s.JobOf(id) == Some(Dead) {
      acts, t := Then(env, s, acts, t, Listen(id));
    } else if s.JobOf(id).Some? && s.jobs[id].Active? && s.jobs[id].stage == MarkError {
      acts := FailAfterLostWrite(env, s, id);
    } else {
      if s.JobOf(id) == Some(Completed) {
        acts, t := Then(env, s, acts, t, Evict(id));
      }
      if t.JobOf(id) == None {
        if id in t.unsent {
          acts, t := Then(env, s, acts, t, Schedule(id));
        } else {
          var p :| p in s.polls && id in s.polls[p];
          acts, t := AddFromPoll(env, s, acts, t, p, id);
        }
      }
      acts := FailFromLive(env, s, acts, t, id);
    }
  }

  /** A published row can still become FAILED exactly then; otherwise it stays PUBLISHED in every run. */
  lemma PublishedCanFailIff(env: Env, s: State, id: Id)
    requires Inv(env, s) && IsPublished(s, id)
    ensures (exists acts :: IsFailed(Run(env, s, acts), id)) <==> CanStillFail(env, s, id)
    ensures (forall acts :: IsPublished(Run(env, s, acts), id)) <==> !CanStillFail(env, s, id)
  {
    if CanStillFail(env, s, id) {
      var acts := FailFrom(env, s, id);
      assert !IsPublished(Run(env, s, acts), id);
    } else {
      forall acts ensures IsPublished(Run(env, s, acts), id) && !IsFailed(Run(env, s, acts), id) {
        SafeRun(env, s, acts, id);
      }
    }
  }

  /** A poll reads the row, and then the fast path enqueues it. */
  lemma ReadAndScheduled(env: Env, id: Id) returns (acts: seq<Action>, t: State)
    ensures t == Run(env, Init, acts) && id in t.rows && t.rows[id].status == PENDING
    ensures t.JobOf(id) == Some(Waiting(0)) && 0 in t.polls && t.polls[0] == [id]
  {
    t := Init;
    acts, t := Then(env, Init, [], t, Commit(id));
    acts, t := Then(env, Init, acts, t, Tick(POLL_GRACE_PERIOD_MS));
    acts, t := Then(env, Init, acts, t, PollRead(0, [id]));
    acts, t := Then(env, Init, acts, t, Schedule(id));
  }

  /** The job delivers it while the poll still holds its id. */
  lemma PublishedWhileHeld(env: Env, id: Id) returns (acts: seq<Action>)
    ensures var t := Run(env, Init, acts); IsPublished(t, id) && t.JobOf(id) == Some(Completed) && StillHeld(t, id)
  {
    var t;
    acts, t := ReadAndScheduled(env, id);
    acts, t := Then(env, Init, acts, t, Start(id));
    acts, t := Then(env, Init, acts, t, Next(id, true));
    acts, t := Then(env, Init, acts, t, Next(id, true));
    assert id in t.polls[0];
  }

  /** Such a row exists: published, its job done, and its id still in a poll's batch. */
  lemma PublishedBecomesFailed(env: Env) returns (before: seq<Action>, later: seq<Action>)
    requires env.readFails && env.evicts
    ensures var s := Run(env, Init, before); IsPublished(s, "e") && IsFailed(Run(env, s, later), "e")
  {
    before := PublishedWhileHeld(env, "e");
    InvRun(env, Init, before);
    later := FailFrom(env, Run(env, Init, before), "e");
  }

  // ---- which pending rows can still be delivered ----

  /** The last attempt is lost: the job is in the failed set, or on its way there. */
  predicate LastAttemptLost(s: State, id: Id) {
    match s.JobOf(id)
    case Some(Dead) => true
    case Some(Active(m, MarkError)) => m + 1 >= MAX_ATTEMPTS
    case _ => false
  }

  lemma LostStep(env: Env, s: State, a: Action, id: Id)
    requires id in s.rows && s.rows[id].status != PUBLISHED && LastAttemptLost(s, id)
    ensures var t := Step(env, s, a);
            id in t.rows && t.rows[id].status != PUBLISHED && LastAttemptLost(t, id) && t.bus[id] == s.bus[id]
  {
  }

  lemma {:induction false} LostForGood(env: Env, s: State, acts: seq<Action>, id: Id)
    requires id in s.rows && s.rows[id].status != PUBLISHED && LastAttemptLost(s, id)
    ensures var t := Run(env, s, acts);
            id in t.rows && t.rows[id].status != PUBLISHED && LastAttemptLost(t, id) && t.bus[id] == s.bus[id]
  {
    if acts != [] {
      LostForGood(env, s, acts[..|acts| - 1], id);
      LostStep(env, Run(env, s, acts[..|acts| - 1]), acts[|acts| - 1], id);
    }
  }

  /** From a waiting job, the next attempt delivers. */
  lemma Deliver(env: Env, s: State, acts: seq<Action>, t: State, id: Id) returns (more: seq<Action>)
    requires t == Run(env, s, acts) && id in t.rows && t.rows[id].status == PENDING
    requires t.JobOf(id).Some? && t.jobs[id].Waiting?
    ensures id in Run(env, s, more).rows && Run(env, s, more).rows[id].status == PUBLISHED
  {
    var t1, t2, t3;
    more, t1 := Then(env, s, acts, t, Start(id));
    more, t2 := Then(env, s, more, t1, Next(id, true));
    more, t3 := Then(env, s, more, t2, Next(id, true));
  }

  /** A row nobody enqueued (the fast path was lost) is delivered by way of the poller. */
  lemma PollerDelivers(env: Env, s: State, id: Id) returns (acts: seq<Action>)
    requires id in s.rows && s.rows[id].status == PENDING && s.JobOf(id) == None
    ensures id in Run(env, s, acts).rows && Run(env, s, acts).rows[id].status == PUBLISHED
  {
    var wait: nat := if s.rows[id].createdAt + POLL_GRACE_PERIOD_MS > s.now
                     then s.rows[id].createdAt + POLL_GRACE_PERIOD_MS - s.now else 0;
    var t := s;
    acts, t := Then(env, s, [], t, Tick(wait));
    acts, t := Then(env, s, acts, t, PollRead(0, [id]));
    assert t.polls[0] == [id];
    acts, t := Then(env, s, acts, t, PollAdd(0));
    acts := Deliver(env, s, acts, t, id);
  }

  /**
    A pending row can still be delivered exactly when its last attempt is not lost.  In particular the
    safety net never revives a row whose job failed for good: its job id is taken.
   */
  lemma DeliverableIff(env: Env, s: State, id: Id)
    requires Inv(env, s) && id in s.rows && s.rows[id].status == PENDING
    ensures (exists acts :: id in Run(env, s, acts).rows && Run(env, s, acts).rows[id].status == PUBLISHED)
            <==> !LastAttemptLost(s, id)
  {
    if LastAttemptLost(s, id) {
      forall acts ensures id in Run(env, s, acts).rows && Run(env, s, acts).rows[id].status != PUBLISHED {
        LostForGood(env, s, acts, id);
      }
    } else {
      var acts := DeliverFrom(env, s, id);
    }
  }

  lemma DeliverFrom(env: Env, s: State, id: Id) returns (acts: seq<Action>)
    requires Inv(env, s) && id in s.rows && s.rows[id].status == PENDING && !LastAttemptLost(s, id)
    ensures id in Run(env, s, acts).rows && Run(env, s, acts).rows[id].status == PUBLISHED
  {
    assert RowInv(env, s.rows[id], s.JobOf(id), s.bus[id]);
    var t := s;
    acts := [];
    match s.JobOf(id)
    case None => acts := PollerDelivers(env, s, id);
    case Some(Waiting(_)) => acts := Deliver(env, s, [], s, id);
    case Some(Active(_, Load)) =>
      acts, t := Then(env, s, acts, t, Next(id, true));
      acts, t := Then(env, s, acts, t, Next(id, true));
    case Some(Active(_, MarkPublished)) =>
      acts, t := Then(env, s, acts, t, Next(id, true));
    case Some(Active(_, MarkError)) =>
      acts, t := Then(env, s, acts, t, Next(id, true));
      acts := Deliver(env, s, acts, t, id);
  }

  // ---- the services ----

  class OutboxServices {
    var now: int
    var rows: map<Id, Row>
    var jobs: map<Id, Job>
    ghost var bus: multiset<Id>
    var polls: map<nat, seq<Id>>
    ghost var unsent: set<Id>

    ghost function View(): State
      reads this
    {
      State(now, rows, jobs, bus, polls, unsent)
    }

    constructor ()
      ensures View() == Init
    {
      now, rows, jobs, bus, polls, unsent := 0, map[], map[], multiset{}, map[], {};
    }

    method ScheduleDispatch(id: Id)
      modifies this`jobs
      ensures View() == Enqueue(old(View()), id)
    {
      if id !in jobs {
        jobs := jobs[id := Waiting(0)];
      }
    }

    /** The poller, when nothing runs between its calls: exactly the rows read get a job, unless they have one. */
    method EnqueuePendingBatch(pending: seq<Id>) returns (count: nat)
      requires Pollable(View(), pending)
      modifies this`jobs
      ensures count == |pending|
      ensures forall id :: View().JobOf(id) ==
                if id in pending && id !in old(jobs) then Some(Waiting(0)) else old(View()).JobOf(id)
    {
      for i := 0 to |pending|
        invariant forall id :: View().JobOf(id) ==
                    if id in pending[..i] && id !in old(jobs) then Some(Waiting(0)) else old(View()).JobOf(id)
      {
        ScheduleDispatch(pending[i]);
      }
      assert pending[..|pending|] == pending;
      return |pending|;
    }

    /** `process`, up to its first write: load the row, skip it unless PENDING, hand the event to the bus. */
    method LoadAndPublish(env: Env, id: Id, known: bool)
      requires id in rows && id in jobs && jobs[id].Active? && jobs[id].stage == Load
      modifies this`jobs, this`bus
      ensures View() == Step(env, old(View()), Next(id, known))
    {
      if rows[id].status != PENDING {
        jobs := jobs[id := Completed];
      } else if known {
        bus := bus + multiset{id};
        jobs := jobs[id := jobs[id].(stage := MarkPublished)];
      } else {
        jobs := jobs[id := jobs[id].(stage := MarkError)];
      }
    }

    method WritePublished(env: Env, id: Id)
      requires id in rows && id in jobs && jobs[id].Active? && jobs[id].stage == MarkPublished
      modifies this`jobs, this`rows
      ensures View() == Step(env, old(View()), Next(id, true))
    {
      rows := rows[id := rows[id].(status := PUBLISHED)];
      jobs := jobs[id := Completed];
    }

    /** The `catch`: count the attempt, rethrow, and let the queue retry or give up. */
    method WriteError(env: Env, id: Id)
      requires id in rows && id in jobs && jobs[id].Active? && jobs[id].stage == MarkError
      modifies this`jobs, this`rows
      ensures View() == Step(env, old(View()), Next(id, true))
    {
      rows := rows[id := rows[id].(attempts := rows[id].attempts + 1)];
      var made := jobs[id].made + 1;
      if made < MAX_ATTEMPTS {
        jobs := jobs[id := Waiting(made)];
      } else {
        jobs := jobs[id := Dead];
      }
    }

    /** The dead-letter listener: the row is looked up, its status is not. */
    method OnFailed(env: Env, id: Id)
      requires id in jobs && jobs[id] == Dead
      modifies this`rows
      ensures View() == Step(env, old(View()), Listen(id))
    {
      if id in rows {
        rows := rows[id := rows[id].(status := FAILED)];
      }
    }
  }
}
