/**
  The expiring lock of redis-lock.service.ts: `SET key token PX ttl NX` to take it,
  a compare-and-delete script to give it back.  Any number of clients, any number of
  keys, one clock; a token is never issued twice.
 */
module RedisLock {
  import opened Util

  type Key = string

  datatype Entry = Entry(token: nat, expiresAt: nat)

  /** What the store answers for one key: an entry past its expiry is gone. */
  function Live(cell: Option<Entry>, now: nat): Option<Entry> {
    if cell.Some? && now < cell.value.expiresAt then cell else None
  }

  function SetNx(cell: Option<Entry>, now: nat, token: nat, ttl: nat): Option<Entry> {
    if Live(cell, now).Some? then cell else Some(Entry(token, now + ttl))
  }

  function DeleteIfOwner(cell: Option<Entry>, now: nat, token: nat): Option<Entry> {
    if Live(cell, now).Some? && cell.value.token == token then None else cell
  }

  /** A client's view of the lock it took; the deadline is when the store will forget it. */
  datatype Hold = Hold(key: Key, token: nat, deadline: nat)

  /** Where a client is inside `withLock`. */
  datatype Client = Outside | InBody(hold: Hold) | AtRelease(hold: Hold)

  datatype State = State(now: nat, store: map<Key, Entry>, issued: set<nat>, clients: map<nat, Client>) {
    function Cell(key: Key): Option<Entry> {
      if key in store then Some(store[key]) else None
    }

    function Put(key: Key, cell: Option<Entry>): State {
      this.(store := if cell.Some? then store[key := cell.value] else store - {key})
    }

    function Client(c: nat): Client {
      if c in clients then clients[c] else Outside
    }
  }

  datatype Action =
    | Tick(d: nat)
    | Acquire(c: nat, key: Key, ttl: nat, token: nat)
    | BodyEnds(c: nat)   // the body returned or threw: `finally` is next either way
    | Release(c: nat)
    | Crash(c: nat)

  const Init := State(0, map[], {}, map[])

  /** One awaited call of one client; an action that cannot happen changes nothing. */
  function Step(s: State, a: Action): State {
    match a
    case Tick(d) => s.(now := s.now + d)
    case Acquire(c, key, ttl, token) =>
      if s.Client(c) != Outside || token in s.issued then s else
      var cell := s.Cell(key);
      var taken := s.(issued := s.issued + {token});
      if Live(cell, s.now).Some? then taken else
      taken.Put(key, SetNx(cell, s.now, token, ttl))
           .(clients := s.clients[c := InBody(Hold(key, token, s.now + ttl))])
    case BodyEnds(c) =>
      if s.Client(c).InBody? then s.(clients := s.clients[c := AtRelease(s.Client(c).hold)]) else s
    case Release(c) =>
      if !s.Client(c).AtRelease? then s else
      var h := s.Client(c).hold;
      s.Put(h.key, DeleteIfOwner(s.Cell(h.key), s.now, h.token)).(clients := s.clients[c := Outside])
    case Crash(c) => s.(clients := s.clients[c := Outside])
  }

  function Run(acts: seq<Action>): State {
    if acts == [] then Init else Step(Run(acts[..|acts| - 1]), acts[|acts| - 1])
  }

  /** The client holds a lock whose time has not run out. */
  predicate Holds(s: State, c: nat, key: Key) {
    !s.Client(c).Outside? && s.Client(c).hold.key == key && s.now < s.Client(c).hold.deadline
  }

  ghost predicate Inv(s: State) {
    && (forall k :: k in s.store ==> s.store[k].token in s.issued)
    && (forall c :: !s.Client(c).Outside? ==>
          var h := s.Client(c).hold;
          && h.token in s.issued
          && (s.now < h.deadline ==> h.key in s.store && s.store[h.key] == Entry(h.token, h.deadline)))
    && (forall c, e :: !s.Client(c).Outside? && !s.Client(e).Outside? && c != e ==>
          s.Client(c).hold.token != s.Client(e).hold.token)
  }

  lemma InvStep(s: State, a: Action)
    requires Inv(s)
    ensures Inv(Step(s, a))
  {
    var t := Step(s, a);
    match a
    case Tick(_) =>
      assert forall c :: t.Client(c) == s.Client(c);
    case _ =>
      assert forall c :: c != a.c ==> t.Client(c) == s.Client(c);
  }

  lemma {:induction false} InvRun(acts: seq<Action>)
    ensures Inv(Run(acts))
  {
    if acts != [] {
      InvRun(acts[..|acts| - 1]);
      InvStep(Run(acts[..|acts| - 1]), acts[|acts| - 1]);
    }
  }

  /** In every run, at most one client per key holds a lock that has not expired. */
  lemma MutualExclusion(acts: seq<Action>, c: nat, e: nat, key: Key)
    requires Holds(Run(acts), c, key) && Holds(Run(acts), e, key)
    ensures c == e
  {
    InvRun(acts);
  }

  /** However late a client releases, it cannot take away a lock another client still holds. */
  lemma StaleReleaseIsHarmless(acts: seq<Action>, c: nat, e: nat, key: Key)
    requires c != e && Holds(Run(acts), e, key)
    ensures Holds(Step(Run(acts), Release(c)), e, key)
    ensures Step(Run(acts), Release(c)).Cell(key) == Run(acts).Cell(key) != None
  {
    InvRun(acts);
  }

  /** The body starts only when the store gave this client the lock, and it ends in a release or a crash. */
  lemma BodyRunsOnlyAsHolder(acts: seq<Action>, a: Action, c: nat)
    ensures var s, t := Run(acts), Step(Run(acts), a);
            && (!s.Client(c).InBody? && t.Client(c).InBody? ==>
                  && a.Acquire? && a.c == c && Live(s.Cell(a.key), s.now) == None
                  && (a.ttl > 0 ==> Holds(t, c, a.key) && forall e :: e != c ==> !Holds(t, e, a.key)))
            && (s.Client(c).InBody? && !t.Client(c).InBody? ==>
                  (a == BodyEnds(c) && t.Client(c) == AtRelease(s.Client(c).hold)) || a == Crash(c))
  {
    InvRun(acts);
    InvStep(Run(acts), a);
  }

  /**
    A client that asks gets the lock exactly when no unexpired entry is stored, and holds it for the whole TTL or
    until somebody deletes the entry.
   */
  lemma AcquiredIff(acts: seq<Action>, c: nat, key: Key, ttl: nat, token: nat)
    requires Run(acts).Client(c) == Outside && token !in Run(acts).issued
    ensures var s, t := Run(acts), Step(Run(acts), Acquire(c, key, ttl, token));
            && (t.Client(c) == InBody(Hold(key, token, s.now + ttl)) <==> Live(s.Cell(key), s.now) == None)
            && (t.Client(c) == Outside <==> Live(s.Cell(key), s.now) != None)
            && t.Cell(key) == (if Live(s.Cell(key), s.now) == None then Some(Entry(token, s.now + ttl))
                               else s.Cell(key))
            && forall k :: k != key ==> t.Cell(k) == s.Cell(k)
  {
  }

  /** A client that dies leaves its entry to expire. */
  lemma CrashLeavesEntry(acts: seq<Action>, c: nat)
    ensures Step(Run(acts), Crash(c)).Client(c) == Outside && Step(Run(acts), Crash(c)).store == Run(acts).store
  {
  }

  lemma Then(acts: seq<Action>, t: State, a: Action) returns (acts': seq<Action>, t': State)
    requires t == Run(acts)
    ensures acts' == acts + [a] && t' == Step(t, a) == Run(acts')
  {
    acts', t' := acts + [a], Step(t, a);
    assert acts'[..|acts|] == acts;
  }

  /** Taking a free lock, the body and the release leave the store without the key, however long the body took. */
  lemma WholeSection(acts: seq<Action>, c: nat, key: Key, ttl: nat, token: nat, d: nat)
    requires Run(acts).Client(c) == Outside && token !in Run(acts).issued
    requires Live(Run(acts).Cell(key), Run(acts).now) == None
    ensures var t := Run(acts + [Acquire(c, key, ttl, token), Tick(d), BodyEnds(c), Release(c)]);
            && t.Client(c) == Outside && Live(t.Cell(key), t.now) == None && t.now == Run(acts).now + d
            && (d < ttl ==> t.store == Run(acts).store - {key})
  {
    var all, t := Then(acts, Run(acts), Acquire(c, key, ttl, token));
    all, t := Then(all, t, Tick(d));
    all, t := Then(all, t, BodyEnds(c));
    all, t := Then(all, t, Release(c));
    assert all == acts + [Acquire(c, key, ttl, token), Tick(d), BodyEnds(c), Release(c)];
  }

  /** Whatever happens later, the key never carries this token with any other expiry. */
  lemma {:induction false} EntryKeepsExpiry(acts: seq<Action>, more: seq<Action>, key: Key)
    requires key in Run(acts).store
    ensures var e, t := Run(acts).store[key], Run(acts + more);
            e.token in t.issued && (key in t.store && t.store[key].token == e.token ==> t.store[key] == e)
  {
    InvRun(acts);
    if more == [] {
      assert acts + more == acts;
    } else {
      EntryKeepsExpiry(acts, more[..|more| - 1], key);
      assert (acts + more)[..|acts + more| - 1] == acts + more[..|more| - 1];
    }
  }

  /** The holder's release frees the key. */
  lemma ReleaseFrees(acts: seq<Action>, c: nat, key: Key)
    requires Holds(Run(acts), c, key) && Run(acts).Client(c).AtRelease?
    ensures Step(Run(acts), Release(c)).Cell(key) == None
  {
    InvRun(acts);
  }

  /**
    With or without a release, in every later run: once the deadline has come, this holder no longer blocks the key.
   */
  lemma LockComesFree(acts: seq<Action>, more: seq<Action>, c: nat, key: Key)
    requires Holds(Run(acts), c, key)
    ensures var h, t := Run(acts).Client(c).hold, Run(acts + more);
            t.now >= h.deadline ==> Live(t.Cell(key), t.now) == None || t.store[key].token != h.token
  {
    InvRun(acts);
    EntryKeepsExpiry(acts, more, key);
  }

  /** What the body of `withLock` did. */
  datatype Outcome<+T> = Returned(value: T) | Threw | Skipped

  class RedisLockService {
    var now: nat
    var store: map<Key, Entry>

    function Cell(key: Key): Option<Entry>
      reads this
    {
      if key in store then Some(store[key]) else None
    }

    constructor ()
      ensures store == map[] && now == 0
    {
      now, store := 0, map[];
    }

    method Acquire(key: Key, ttlMs: nat, token: nat) returns (r: Option<nat>)
      modifies this`store
      ensures r.Some? <==> old(Live(Cell(key), now)) == None
      ensures r.Some? ==> r.value == token && store == old(store)[key := Entry(token, now + ttlMs)]
      ensures r.None? ==> store == old(store)
      ensures Cell(key) == old(SetNx(Cell(key), now, token, ttlMs))
    {
      if key in store && now < store[key].expiresAt {
        return None;
      }
      store := store[key := Entry(token, now + ttlMs)];
      return Some(token);
    }

    method Release(key: Key, token: nat) returns (deleted: bool)
      modifies this`store
      ensures deleted <==> old(Live(Cell(key), now)).Some? && old(store[key]).token == token
      ensures store == if deleted then old(store) - {key} else old(store)
      ensures Cell(key) == old(DeleteIfOwner(Cell(key), now, token))
    {
      deleted := key in store && now < store[key].expiresAt && store[key].token == token;
      if deleted {
        store := store - {key};
      }
    }

    /**
      Runs a body that takes `elapsed` milliseconds and ends with `body`, nobody else interfering.  A release
      that throws in the `finally` replaces what the body returned, and leaves the entry to expire.
     */
    method WithLock<T>(key: Key, ttlMs: nat, token: nat, body: Outcome<T>, elapsed: nat, releaseThrows: bool)
      returns (r: Outcome<T>)
      requires !body.Skipped?
      modifies this
      ensures old(Live(Cell(key), now)).Some? ==> r == Skipped && store == old(store) && now == old(now)
      ensures old(Live(Cell(key), now)).None? ==>
                && now == old(now) + elapsed
                && r == (if releaseThrows then Threw else body)
                && Live(Cell(key), now) ==
                   if releaseThrows && elapsed < ttlMs then Some(Entry(token, old(now) + ttlMs)) else None
      ensures forall k :: k != key ==> Cell(k) == old(Cell(k))
    {
      var mine := Acquire(key, ttlMs, token);
      if mine.None? {
        return Skipped;
      }
      now := now + elapsed;
      if releaseThrows {
        return Threw;
      }
      var _ := Release(key, token);
      return body;
    }
  }
}
